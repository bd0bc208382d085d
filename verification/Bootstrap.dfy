/** Decoding the string literal that native UI pages pass to JSON.parse. */
module Bootstrap {
  import opened Prelude
  import opened Text

  // --- Code units --------------------------------------------------------------------

  predicate IsHigh(code: nat) {
    0xD800 <= code <= 0xDBFF
  }

  predicate IsLow(code: nat) {
    0xDC00 <= code <= 0xDFFF
  }

  predicate IsScalar(code: nat) {
    code < 0xD800 || 0xE000 <= code <= 0x10FFFF
  }

  function Scalar(code: nat): Option<char> {
    if IsScalar(code) then Some(code as char) else None
  }

  function Combine(high: nat, low: nat): nat
    requires IsHigh(high) && IsLow(low)
  {
    0x10000 + (high - 0xD800) * 0x400 + low - 0xDC00
  }

  /** UTF-16: the surrogates of a code point beyond the basic plane. */
  function High(code: nat): nat
    requires code >= 0x10000
  {
    0xD800 + (code - 0x10000) / 0x400
  }

  function Low(code: nat): nat
    requires code >= 0x10000
  {
    0xDC00 + (code - 0x10000) % 0x400
  }

  /** The pair arithmetic inverts the UTF-16 split, both ways, and always gives a scalar. */
  lemma PairsAreScalars(high: nat, low: nat)
    requires IsHigh(high) && IsLow(low)
    ensures var c := Combine(high, low); 0x10000 <= c && IsScalar(c) && High(c) == high && Low(c) == low
  {
  }

  lemma ScalarsArePairs(code: nat)
    requires 0x10000 <= code && IsScalar(code)
    ensures IsHigh(High(code)) && IsLow(Low(code)) && Combine(High(code), Low(code)) == code
  {
  }

  // --- Hexadecimal numbers -------------------------------------------------------------

  predicate IsHexDigit(c: char) {
    '0' <= c <= '9' || 'a' <= c <= 'f' || 'A' <= c <= 'F'
  }

  function DigitValue(c: char): (v: nat)
    requires IsHexDigit(c)
    ensures v < 16
  {
    if c <= '9' then (c - '0') as nat
    else if 'a' <= c then (c - 'a') as nat + 10
    else (c - 'A') as nat + 10
  }

  predicate AllHex(s: string) {
    forall i :: 0 <= i < |s| ==> IsHexDigit(s[i])
  }

  function HexNat(s: string): nat
    requires AllHex(s)
  {
    if s == "" then 0 else 16 * HexNat(s[..|s| - 1]) + DigitValue(s[|s| - 1])
  }

  /** At least one digit, and one leading plus sign allowed. */
  function Hex(s: string): Option<nat> {
    var digits := if |s| > 1 && s[0] == '+' then s[1..] else s;
    if digits != "" && AllHex(digits) then Some(HexNat(digits)) else None
  }

  // --- The decoder ------------------------------------------------------------------------

  function Take4(s: string): (r: string)
    ensures r <= s && |r| <= 4
  {
    if |s| <= 4 then s else s[..4]
  }

  /** The character of a unicode escape, and how much of the text behind `\\u` it takes. */
  function UnicodeAt(s: string): (r: Option<(char, nat)>)
    ensures r.Some? ==> r.value.1 <= |s|
  {
    var digits := Take4(s);
    match Hex(digits)
    case None => None
    case Some(code) =>
      if IsHigh(code) then
        var more := s[|digits|..];
        if !("\\u" <= more) then None
        else
          var lowDigits := Take4(more[2..]);
          match Hex(lowDigits)
          case None => None
          case Some(low) =>
            if !IsLow(low) then None
            else
              match Scalar(Combine(code, low))
              case None => None
              case Some(c) => Some((c, |digits| + 2 + |lowDigits|))
      else
        match Scalar(code)
        case None => None
        case Some(c) => Some((c, |digits|))
  }

  /** What a one-character escape stands for; an escaped line break stands for nothing. */
  function Escaped(c: char): string {
    match c
    case 'n' => "\n"
    case 'r' => "\r"
    case 't' => "\t"
    case 'b' => "\U{8}"
    case 'f' => "\U{C}"
    case '\n' => ""
    case _ => [c]
  }

  /** The text of the next literal character or escape, and how much it takes. */
  function Next(s: string): (r: Option<(string, nat)>)
    requires s != ""
    ensures r.Some? ==> 1 <= r.value.1 <= |s|
  {
    if s[0] != '\\' then Some(([s[0]], 1))
    else if |s| == 1 then None
    else if s[1] == 'u' then
      match UnicodeAt(s[2..])
      case None => None
      case Some((c, n)) => Some(([c], n + 2))
    else Some((Escaped(s[1]), 2))
  }

  function Prepend(a: string, r: Option<string>): Option<string> {
    match r
    case None => None
    case Some(b) => Some(a + b)
  }

  /** The decoded text up to the closing quote. */
  function Decode(s: string, quote: char): Option<string>
    decreases |s|
  {
    if s == "" then None
    else if s[0] == quote then Some("")
    else
      match Next(s)
      case None => None
      case Some((text, n)) => Prepend(text, Decode(s[n..], quote))
  }

  function Marker(): string {
    "uxGlobals.session = JSON.parse("
  }

  /** The decoded literal of a page, ready to be parsed as JSON. */
  function Literal(body: string): Option<string> {
    match Find(body, Marker())
    case None => None
    case Some(i) =>
      var rest := TrimStart(body[i + |Marker()|..]);
      if rest == "" || (rest[0] != '\'' && rest[0] != '"') then None
      else Decode(rest[1..], rest[0])
  }

  /** `decoded` is what the literal `s` holds before position `i`. */
  predicate Decoding(s: string, quote: char, decoded: string, i: nat) {
    i <= |s| && Decode(s, quote) == Prepend(decoded, Decode(s[i..], quote))
  }

  lemma DecodeStep(s: string, i: nat, quote: char, decoded: string)
    requires i < |s| && s[i] != quote && Decoding(s, quote, decoded, i)
    ensures match Next(s[i..])
            case None => Decode(s, quote) == None
            case Some((text, n)) => Decoding(s, quote, decoded + text, i + n)
  {
    hide Next;
    var next := Next(s[i..]);
    if next.Some? {
      var (text, n) := next.value;
      assert s[i..][n..] == s[i + n..];
      var tail := Decode(s[i + n..], quote);
      if tail.Some? {
        assert decoded + (text + tail.value) == decoded + text + tail.value;
      }
    }
  }

  lemma NextAt(s: string, i: nat)
    requires i < |s|
    ensures Next(s[i..]) ==
      if s[i] != '\\' then Some(([s[i]], 1))
      else if i + 1 == |s| then None
      else if s[i + 1] == 'u' then
        match UnicodeAt(s[i + 2..])
        case None => None
        case Some((c, n)) => Some(([c], n + 2))
      else Some((Escaped(s[i + 1]), 2))
  {
    hide UnicodeAt, Escaped;
    if i + 1 < |s| {
      assert s[i..][2..] == s[i + 2..];
    }
  }

  /** Reads the digits of a unicode escape, and of its second half when there is one. */
  method ReadUnicode(s: string, start: nat) returns (c: Option<char>, i: nat)
    requires start <= |s|
    ensures UnicodeAt(s[start..]) == match c case None => None case Some(ch) => Some((ch, i - start))
    ensures start <= i <= |s|
  {
    hide Hex;
    i := start;
    var digits := Take4(s[i..]);
    i := i + |digits|;
    assert s[start..][|digits|..] == s[i..];
    var code := Hex(digits);
    if code.None? {
      return None, i;
    }
    if !IsHigh(code.value) {
      return Scalar(code.value), i;
    }
    if |s| - i < 2 || s[i] != '\\' || s[i + 1] != 'u' {
      assert !("\\u" <= s[i..]);
      return None, i;
    }
    assert "\\u" <= s[i..];
    assert s[i..][2..] == s[i + 2..];
    i := i + 2;
    var low := Take4(s[i..]);
    i := i + |low|;
    var lowCode := Hex(low);
    if lowCode.None? || !IsLow(lowCode.value) {
      return None, i;
    }
    PairsAreScalars(code.value, lowCode.value);
    c := Scalar(Combine(code.value, lowCode.value));
  }

  /** Decodes the literal `s`, whose opening quote has been read. */
  method ReadLiteral(s: string, quote: char) returns (r: Option<string>)
    ensures r == Decode(s, quote)
  {
    hide UnicodeAt, Decode, Decoding, Escaped, Next;
    var decoded, i := "", 0;
    StartDecode(s, quote);
    while i < |s|
      invariant i <= |s| && Decoding(s, quote, decoded, i)
      decreases |s| - i
    {
      if s[i] == quote {
        AtQuote(s, quote, decoded, i);
        return Some(decoded);
      }
      NextAt(s, i);
      DecodeStep(s, i, quote, decoded);
      if s[i] != '\\' {
        decoded, i := decoded + [s[i]], i + 1;
        continue;
      }
      if i + 1 == |s| {
        return None;
      }
      if s[i + 1] == 'u' {
        var c, next := ReadUnicode(s, i + 2);
        if c.None? {
          return None;
        }
        decoded, i := decoded + [c.value], next;
      } else {
        decoded, i := decoded + Escaped(s[i + 1]), i + 2;
      }
    }
    AtEnd(s, quote, decoded);
    r := None;
  }

  method ParseBootstrap(body: string) returns (r: Option<string>)
    ensures r == Literal(body)
  {
    hide Decode, Marker, TrimStart, Find;
    var at := Find(body, Marker());
    if at.None? {
      return None;
    }
    MarkerFound(body, at.value);
    var rest := TrimStart(body[at.value + |Marker()|..]);
    if rest == "" || (rest[0] != '\'' && rest[0] != '"') {
      return None;
    }
    r := ReadLiteral(rest[1..], rest[0]);
  }

  lemma MarkerFound(body: string, i: nat)
    requires Find(body, Marker()) == Some(i)
    ensures i + |Marker()| <= |body|
  {
    hide Find, Marker;
    PrefixFits(Marker(), body, i);
  }

  lemma PrefixFits(sep: string, s: string, i: nat)
    requires Occurs(s, sep, i)
    ensures i + |sep| <= |s|
  {
  }

  lemma StartDecode(s: string, quote: char)
    ensures Decoding(s, quote, "", 0)
  {
    assert s[0..] == s;
    if Decode(s, quote).Some? {
      assert "" + Decode(s, quote).value == Decode(s, quote).value;
    }
  }

  lemma AtQuote(s: string, quote: char, decoded: string, i: nat)
    requires i < |s| && s[i] == quote && Decoding(s, quote, decoded, i)
    ensures Decode(s, quote) == Some(decoded)
  {
    QuoteEnds(s[i..], quote);
    hide Decode;
    assert decoded + "" == decoded;
  }

  lemma QuoteEnds(s: string, quote: char)
    requires s != "" && s[0] == quote
    ensures Decode(s, quote) == Some("")
  {
  }

  lemma AtEnd(s: string, quote: char, decoded: string)
    requires Decoding(s, quote, decoded, |s|)
    ensures Decode(s, quote) == None
  {
    assert s[|s|..] == "";
  }

  // --- The literals it accepts ---------------------------------------------------------------

  /** One way to write zero or one characters in a literal. */
  datatype Token = Plain(c: char) | Escape(c: char) | Unit(digits: string) | Pair(digits: string, low: string)

  function Code(digits: string): Option<nat> {
    if |digits| == 4 then Hex(digits) else None
  }

  predicate Admissible(t: Token, quote: char) {
    match t
    case Plain(c) => c != quote && c != '\\'
    case Escape(c) => c != 'u'
    case Unit(digits) => Code(digits).Some? && IsScalar(Code(digits).value)
    case Pair(digits, low) => Code(digits).Some? && IsHigh(Code(digits).value) && Code(low).Some? && IsLow(Code(low).value)
  }

  function Render(t: Token): string {
    match t
    case Plain(c) => [c]
    case Escape(c) => ['\\', c]
    case Unit(digits) => "\\u" + digits
    case Pair(digits, low) => "\\u" + digits + "\\u" + low
  }

  function Meaning(t: Token, quote: char): string
    requires Admissible(t, quote)
  {
    match t
    case Plain(c) => [c]
    case Escape(c) => Escaped(c)
    case Unit(digits) => [Code(digits).value as char]
    case Pair(digits, low) =>
      PairsAreScalars(Code(digits).value, Code(low).value);
      [Combine(Code(digits).value, Code(low).value) as char]
  }

  predicate AllAdmissible(tokens: seq<Token>, quote: char) {
    forall i :: 0 <= i < |tokens| ==> Admissible(tokens[i], quote)
  }

  function RenderAll(tokens: seq<Token>): string {
    if tokens == [] then "" else Render(tokens[0]) + RenderAll(tokens[1..])
  }

  function MeaningAll(tokens: seq<Token>, quote: char): string
    requires AllAdmissible(tokens, quote)
  {
    if tokens == [] then "" else Meaning(tokens[0], quote) + MeaningAll(tokens[1..], quote)
  }

  lemma UnicodeOfUnit(digits: string, rest: string)
    requires Code(digits).Some? && IsScalar(Code(digits).value)
    ensures UnicodeAt(digits + rest) == Some((Code(digits).value as char, 4))
  {
    hide Hex;
    assert Take4(digits + rest) == digits;
  }

  lemma UnicodeOfPair(digits: string, low: string, rest: string)
    requires Admissible(Pair(digits, low), '"')
    ensures UnicodeAt(digits + "\\u" + low + rest) == Some((Meaning(Pair(digits, low), '"')[0], 10))
  {
    hide Hex;
    var s := digits + "\\u" + low + rest;
    var more := s[4..];
    assert Take4(s) == digits;
    assert more == "\\u" + low + rest;
    assert more[2..] == low + rest;
    assert Take4(low + rest) == low;
    PairsAreScalars(Code(digits).value, Code(low).value);
  }

  /** One written token is read as one step. */
  lemma NextReads(t: Token, rest: string, quote: char)
    requires Admissible(t, quote)
    ensures Next(Render(t) + rest) == Some((Meaning(t, quote), |Render(t)|))
  {
    hide UnicodeAt, Hex, Escaped;
    var s := Render(t) + rest;
    match t
    case Plain(c) =>
    case Escape(c) =>
      assert s[0] == '\\' && s[1] == c;
    case Unit(digits) =>
      assert s[0] == '\\' && s[1] == 'u' && s[2..] == digits + rest;
      UnicodeOfUnit(digits, rest);
    case Pair(digits, low) =>
      assert s[0] == '\\' && s[1] == 'u' && s[2..] == digits + "\\u" + low + rest;
      UnicodeOfPair(digits, low, rest);
  }

  lemma TokenDecodes(t: Token, tail: string, quote: char)
    requires quote != '\\' && Admissible(t, quote)
    ensures Decode(Render(t) + tail, quote) == Prepend(Meaning(t, quote), Decode(tail, quote))
  {
    NextReads(t, tail, quote);
    FirstIsNoQuote(t, quote);
    hide Next, Admissible, Meaning, Render;
    var s := Render(t) + tail;
    assert s[0] == Render(t)[0];
    assert s[|Render(t)|..] == tail;
  }

  lemma RenderedTail(tokens: seq<Token>, behind: string)
    requires tokens != []
    ensures RenderAll(tokens) + behind == Render(tokens[0]) + (RenderAll(tokens[1..]) + behind)
  {
  }

  /** Every admissible way to write a text is decoded to that text, at its closing quote. */
  lemma {:induction false} DecodesWhatIsWritten(tokens: seq<Token>, rest: string, quote: char)
    requires quote != '\\' && AllAdmissible(tokens, quote)
    ensures Decode(RenderAll(tokens) + [quote] + rest, quote) == Some(MeaningAll(tokens, quote))
  {
    hide Decode, Admissible, Meaning, Render;
    var behind := [quote] + rest;
    assert RenderAll(tokens) + [quote] + rest == RenderAll(tokens) + behind;
    if tokens == [] {
      assert RenderAll(tokens) + behind == behind;
      QuoteEnds(behind, quote);
    } else {
      DecodesWhatIsWritten(tokens[1..], rest, quote);
      assert RenderAll(tokens[1..]) + [quote] + rest == RenderAll(tokens[1..]) + behind;
      RenderedTail(tokens, behind);
      TokenDecodes(tokens[0], RenderAll(tokens[1..]) + behind, quote);
    }
  }

  lemma FirstIsNoQuote(t: Token, quote: char)
    requires quote != '\\' && Admissible(t, quote)
    ensures Render(t) != "" && Render(t)[0] != quote
  {
  }

  lemma UnicodeIsToken(s: string) returns (t: Token)
    requires UnicodeAt(s).Some? && UnicodeAt(s).value.1 < |s|
    ensures var (c, n) := UnicodeAt(s).value;
            (t.Unit? || t.Pair?) && Admissible(t, '"') && "\\u" + s[..n] == Render(t) && Meaning(t, '"') == [c]
  {
    hide Hex;
    var digits := Take4(s);
    var code := Hex(digits).value;
    var more := s[|digits|..];
    assert |digits| == 4;
    if IsHigh(code) {
      var low := Take4(more[2..]);
      assert more == "\\u" + more[2..];
      assert s[..10] == digits + "\\u" + low;
      PairsAreScalars(code, Hex(low).value);
      t := Pair(digits, low);
    } else {
      t := Unit(digits);
    }
  }

  lemma NextIsToken(s: string, quote: char) returns (t: Token)
    requires s != "" && s[0] != quote && Next(s).Some? && Next(s).value.1 < |s|
    ensures Admissible(t, quote) && Render(t) == s[..Next(s).value.1] && Meaning(t, quote) == Next(s).value.0
  {
    hide UnicodeAt, Escaped, Code;
    var n := Next(s).value.1;
    if s[0] != '\\' {
      t := Plain(s[0]);
    } else if s[1] == 'u' {
      t := UnicodeIsToken(s[2..]);
      assert "\\u" + s[2..][..n - 2] == s[..n];
    } else {
      t := Escape(s[1]);
    }
  }

  /** ... and nothing else is decoded: every accepted literal is some tokens and a quote. */
  lemma {:induction false} DecodedWasWritten(s: string, quote: char) returns (tokens: seq<Token>, rest: string)
    requires quote != '\\' && Decode(s, quote).Some?
    ensures AllAdmissible(tokens, quote) && s == RenderAll(tokens) + [quote] + rest
    ensures Decode(s, quote) == Some(MeaningAll(tokens, quote))
    decreases |s|
  {
    hide Next, Admissible, Meaning, Render;
    if s[0] == quote {
      tokens, rest := [], s[1..];
    } else {
      var n := Next(s).value.1;
      var t := NextIsToken(s, quote);
      var more;
      more, rest := DecodedWasWritten(s[n..], quote);
      tokens := [t] + more;
      assert tokens[1..] == more;
      assert s == s[..n] + s[n..];
    }
  }

  // --- Escapes for every text ------------------------------------------------------------------

  function HexDigit(v: nat): char
    requires v < 16
  {
    if v < 10 then '0' + v as char else 'a' + (v - 10) as char
  }

  function FourDigits(code: nat): (r: string)
    requires code < 0x1_0000
    ensures |r| == 4
  {
    [HexDigit(code / 16 / 16 / 16), HexDigit(code / 16 / 16 % 16), HexDigit(code / 16 % 16), HexDigit(code % 16)]
  }

  lemma HexSnoc(s: string, v: nat)
    requires AllHex(s) && v < 16
    ensures AllHex(s + [HexDigit(v)]) && HexNat(s + [HexDigit(v)]) == 16 * HexNat(s) + v
  {
    var more := s + [HexDigit(v)];
    assert more[..|more| - 1] == s;
    assert IsHexDigit(HexDigit(v)) && DigitValue(HexDigit(v)) == v;
  }

  lemma FourRead(a: nat, b: nat, c: nat, d: nat)
    requires a < 16 && b < 16 && c < 16 && d < 16
    ensures Code([HexDigit(a), HexDigit(b), HexDigit(c), HexDigit(d)]) == Some(16 * (16 * (16 * a + b) + c) + d)
  {
    hide *;
    var w, x, y, z := HexDigit(a), HexDigit(b), HexDigit(c), HexDigit(d);
    HexNothing();
    HexSnoc("", a);
    assert "" + [w] == [w];
    HexSnoc([w], b);
    assert [w] + [x] == [w, x];
    HexSnoc([w, x], c);
    assert [w, x] + [y] == [w, x, y];
    HexSnoc([w, x, y], d);
    assert [w, x, y] + [z] == [w, x, y, z];
    CodeOfHex([w, x, y, z]);
  }

  lemma HexNothing()
    ensures AllHex("") && HexNat("") == 0
  {
  }

  lemma CodeOfHex(digits: string)
    requires |digits| == 4 && AllHex(digits)
    ensures Code(digits) == Some(HexNat(digits))
  {
    hide HexNat;
    assert IsHexDigit(digits[0]);
  }

  lemma DigitsRead(code: nat)
    requires code < 0x1_0000
    ensures Code(FourDigits(code)) == Some(code)
  {
    hide Code, HexDigit;
    var a, b, c, d := code / 16 / 16 / 16, code / 16 / 16 % 16, code / 16 % 16, code % 16;
    assert code == 16 * (16 * (16 * a + b) + c) + d;
    FourRead(a, b, c, d);
  }

  /** The ASCII escape of a character: one unit, or the two halves of a pair. */
  function Spell(c: char): Token {
    var code := c as nat;
    if code < 0x1_0000 then Unit(FourDigits(code)) else Pair(FourDigits(High(code)), FourDigits(Low(code)))
  }

  lemma SpellMeans(c: char, quote: char)
    ensures Admissible(Spell(c), quote) && Meaning(Spell(c), quote) == [c]
  {
    hide Code, FourDigits;
    var code := c as nat;
    if code < 0x1_0000 {
      DigitsRead(code);
    } else {
      ScalarsArePairs(code);
      DigitsRead(High(code));
      DigitsRead(Low(code));
    }
  }

  function SpellAll(text: string): (r: seq<Token>)
    ensures |r| == |text| && forall i :: 0 <= i < |r| ==> r[i] == Spell(text[i])
  {
    seq(|text|, i requires 0 <= i < |text| => Spell(text[i]))
  }

  /** Every sequence of Unicode scalars survives being escaped in UTF-16 and decoded. */
  lemma {:induction false} EscapedTextDecodes(text: string, rest: string, quote: char)
    requires quote != '\\'
    ensures Decode(RenderAll(SpellAll(text)) + [quote] + rest, quote) == Some(text)
  {
    hide Spell;
    forall i | 0 <= i < |text| ensures Admissible(SpellAll(text)[i], quote) {
      SpellMeans(text[i], quote);
    }
    SpelledMeaning(text, quote);
    DecodesWhatIsWritten(SpellAll(text), rest, quote);
  }

  lemma {:induction false} SpelledMeaning(text: string, quote: char)
    ensures AllAdmissible(SpellAll(text), quote) && MeaningAll(SpellAll(text), quote) == text
  {
    hide Spell, Admissible, Meaning;
    if text == "" {
    } else {
      SpelledMeaning(text[1..], quote);
      SpellMeans(text[0], quote);
      assert SpellAll(text)[1..] == SpellAll(text[1..]);
      assert text == [text[0]] + text[1..];
    }
  }

  // --- Digits beyond RFC 8259 -----------------------------------------------------------------------

  /** RFC 8259 wants four hexadecimal digits in a unit; the decoder takes exactly those and
    * a plus sign with three. */
  lemma CodesAreHexOrPlus(digits: string)
    ensures Code(digits).Some? <==> |digits| == 4 && (AllHex(digits) || (digits[0] == '+' && AllHex(digits[1..])))
  {
    if |digits| == 4 {
      assert digits[0] == '+' ==> !IsHexDigit(digits[0]);
    }
  }

  /** No other four characters behind `\\u` are decoded, and every plus sign with three
    * digits decodes to the character they number. */
  lemma OnlyPlusIsLenient(digits: string, rest: string, quote: char)
    requires |digits| == 4 && quote != '\\'
    ensures Decode("\\u" + digits + rest, quote).Some? ==> AllHex(digits) || (digits[0] == '+' && AllHex(digits[1..]))
    ensures digits[0] == '+' && AllHex(digits[1..]) ==>
              HexNat(digits[1..]) < 0x1000
              && Decode("\\u" + digits + [quote] + rest, quote) == Some([HexNat(digits[1..]) as char])
  {
    hide Hex, HexNat, AllHex;
    CodesAreHexOrPlus(digits);
    if Decode("\\u" + digits + rest, quote).Some? {
      DecodedUnitHasCode(digits, rest, quote);
    }
    if digits[0] == '+' && AllHex(digits[1..]) {
      PlusCode(digits);
      var t := Unit(digits);
      assert Admissible(t, quote) && Meaning(t, quote) == [HexNat(digits[1..]) as char];
      OneTokenDecodes(t, rest, quote);
    }
  }

  lemma PlusCode(digits: string)
    requires |digits| == 4 && digits[0] == '+' && AllHex(digits[1..])
    ensures Code(digits) == Some(HexNat(digits[1..])) && HexNat(digits[1..]) < 0x1000
  {
    var s := digits[1..];
    assert s[..2][..1] == s[..1] && s[..1][..0] == "";
    assert HexNat(s[..0]) == 0 && HexNat(s[..1]) < 16;
    assert HexNat(s[..2]) < 256;
  }

  lemma DecodedUnitHasCode(digits: string, rest: string, quote: char)
    requires |digits| == 4 && quote != '\\' && Decode("\\u" + digits + rest, quote).Some?
    ensures Code(digits).Some?
  {
    hide Hex;
    var s := "\\u" + digits + rest;
    assert s[0] == '\\' && s[1] == 'u' && s[2..] == digits + rest;
    assert Take4(digits + rest) == digits;
  }

  lemma OneTokenDecodes(t: Token, rest: string, quote: char)
    requires quote != '\\' && Admissible(t, quote)
    ensures Decode(Render(t) + [quote] + rest, quote) == Some(Meaning(t, quote))
  {
    hide Admissible, Meaning, Render, Decode;
    DecodesWhatIsWritten([t], rest, quote);
    assert [t][1..] == [];
    assert RenderAll([]) == "" && MeaningAll([], quote) == "";
    assert RenderAll([t]) == Render(t) + "" == Render(t);
    assert MeaningAll([t], quote) == Meaning(t, quote) + "" == Meaning(t, quote);
  }

  // --- Escapes and the page ---------------------------------------------------------------------

  /** The one-character escapes, by code: line feed, carriage return, tab, backspace and form
    * feed; an escaped line feed is nothing, and any other character stands for itself. */
  lemma EscapesByCode(c: char, rest: string, quote: char)
    requires quote != '\\' && c != 'u'
    ensures Decode(['\\', c] + [quote] + rest, quote) == Some(
              if c == 'n' then [10 as char] else if c == 'r' then [13 as char] else if c == 't' then [9 as char]
              else if c == 'b' then [8 as char] else if c == 'f' then [12 as char]
              else if c == 10 as char then "" else [c])
  {
    OneTokenDecodes(Escape(c), rest, quote);
  }

  lemma {:induction false} SpacesTrimmed(spaces: string, rest: string)
    requires (forall c :: c in spaces ==> IsSpace(c)) && (rest == "" || !IsSpace(rest[0]))
    ensures TrimStart(spaces + rest) == rest
  {
    hide IsSpace;
    if spaces == "" {
      assert spaces + rest == rest;
    } else {
      assert (spaces + rest)[1..] == spaces[1..] + rest && (spaces + rest)[0] == spaces[0];
      SpacesTrimmed(spaces[1..], rest);
    }
  }

  /** The literal of a page is the one behind the first call that parses the session, past
    * any spaces, in either kind of quotes. */
  lemma PageLiteralDecodes(before: string, spaces: string, quote: char, tokens: seq<Token>, rest: string)
    requires Separable(before, "uxGlobals.session = JSON.parse(") && (forall c :: c in spaces ==> IsSpace(c))
    requires (quote == '"' || quote == '\'') && AllAdmissible(tokens, quote)
    ensures Literal(before + "uxGlobals.session = JSON.parse(" + (spaces + ([quote] + (RenderAll(tokens) + [quote] + rest))))
         == Some(MeaningAll(tokens, quote))
  {
    QuoteIsNoSpace();
    hide Separable, IsSpace, Decode, TrimStart, Find, RenderAll, MeaningAll, AllAdmissible;
    var marker := Marker();
    var literal := RenderAll(tokens) + [quote] + rest;
    var behind := spaces + ([quote] + literal);
    FindAfter(before, marker, behind);
    DecodesWhatIsWritten(tokens, rest, quote);
    SpacesTrimmed(spaces, [quote] + literal);
    BehindMarker(before, marker, behind);
    assert ([quote] + literal)[1..] == literal;
  }

  lemma BehindMarker(before: string, marker: string, behind: string)
    ensures (before + marker + behind)[|before| + |marker|..] == behind
  {
  }

  lemma QuoteIsNoSpace()
    ensures !IsSpace('"') && !IsSpace('\'')
  {
  }
}
