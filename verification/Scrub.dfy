/** Redacting credential values from free text by one left-to-right scan. */
module Scrub {
  import opened Prelude
  import opened Text

  function Mark(): string {
    "<redacted>"
  }

  function Fragments(): seq<string> {
    [
      "password", "passwd", "secret", "token", "cookie", "authorization",
      "sysparm_ck", "g_ck", "jsessionid", "api_key", "apikey", "bearer"
    ]
  }

  datatype Class = Word | Quote | Value

  predicate In(c: char, class_: Class) {
    match class_
    case Word => '0' <= c <= '9' || 'A' <= c <= 'Z' || 'a' <= c <= 'z' || c == '_'
    case Quote => c == '"' || c == '\'' || c == ' '
    case Value =>
      !(c == ' ' || c == '&' || c == ',' || c == ';' || c == '"' || c == '\'' || c == '}' || c == ')' || c == ']')
  }

  predicate IsSeparator(c: char) {
    c == '=' || c == ':'
  }

  /** The text behind its leading characters of a class. */
  function Drop(s: string, class_: Class): (r: string)
    ensures |r| <= |s| && (r == "" || !In(r[0], class_))
  {
    if s == "" || !In(s[0], class_) then s else Drop(s[1..], class_)
  }

  function FirstFragment(s: string, fragments: seq<string>): (f: Option<string>)
    ensures f.Some? ==> f.value in fragments && f.value <= Lower(s)
  {
    if fragments == [] then None
    else if fragments[0] <= Lower(s) then Some(fragments[0])
    else FirstFragment(s, fragments[1..])
  }

  /** The sensitive key fragment the text begins with, in any case. */
  function FragmentAt(s: string): Option<string> {
    FirstFragment(s, Fragments())
  }

  /** An authentication scheme word in front of the value is kept. */
  function Scheme(s: string): (n: nat)
    ensures n <= |s|
  {
    if "bearer " <= Lower(s) then 7 else if "basic " <= Lower(s) then 6 else 0
  }

  function AfterScheme(s: string): (r: string)
    ensures |r| <= |s|
  {
    s[Scheme(s)..]
  }

  /** The value itself, past quotes, spaces and a scheme word. */
  function Bare(s: string): (r: string)
    ensures |r| <= |s|
  {
    AfterScheme(Drop(s, Quote))
  }

  /** The text from where the value of the leading key begins; None without a separator. */
  function ValueAt(s: string, fragment: string): (r: Option<string>)
    ensures r.Some? ==> |r.value| < |Drop(s, Word)|
  {
    var key := Drop(s, Word);
    var gap := Drop(key, Quote);
    if gap != "" && IsSeparator(gap[0]) then Some(Bare(gap[1..]))
    else if fragment != "bearer" || |gap| == |key| then None
    else Some(Bare(gap))
  }

  /** One step of the scan: the text from the value on, and the text behind the value. */
  datatype Hit = Hit(value: string, rest: string)

  function Next(s: string): (h: Hit)
    requires s != ""
    ensures |h.rest| <= |h.value| < |s|
  {
    match FragmentAt(s)
    case None => Hit(s[1..], s[1..])
    case Some(fragment) =>
      FragmentIsWord(s);
      match ValueAt(s, fragment)
      case None => Hit(Drop(s, Word), Drop(s, Word))
      case Some(v) => Hit(v, Drop(v, Value))
  }

  function Marked(h: Hit): string {
    if h.rest != h.value then Mark() else ""
  }

  function Redact(s: string): string
    decreases |s|
  {
    if s == "" then ""
    else
      var h := Next(s);
      s[..|s| - |h.value|] + Marked(h) + Redact(h.rest)
  }

  predicate IsControl(c: char) {
    c < ' ' || '\U{7F}' <= c <= '\U{9F}'
  }

  function Blank(text: string): (r: string)
    ensures |r| == |text|
    ensures forall i :: 0 <= i < |r| ==> r[i] == (if IsControl(text[i]) then ' ' else text[i])
  {
    seq(|text|, i requires 0 <= i < |text| => if IsControl(text[i]) then ' ' else text[i])
  }

  function ScrubSecrets(text: string): string {
    Redact(Blank(text))
  }

  // --- Fragments are words ------------------------------------------------------------

  predicate AllWord(f: string) {
    f != "" && forall i :: 0 <= i < |f| ==> In(f[i], Word)
  }

  lemma FragmentsAreWords()
    ensures forall f :: f in Fragments() ==> AllWord(f)
  {
    assert AllWord("password") && AllWord("passwd") && AllWord("secret") && AllWord("token");
    assert AllWord("cookie") && AllWord("authorization") && AllWord("sysparm_ck") && AllWord("g_ck");
    assert AllWord("jsessionid") && AllWord("api_key") && AllWord("apikey") && AllWord("bearer");
    hide AllWord;
  }

  lemma {:induction false} DropWords(s: string, n: nat)
    requires n <= |s| && forall i :: 0 <= i < n ==> In(s[i], Word)
    ensures n <= |s| - |Drop(s, Word)|
  {
    if n == 0 {
    } else {
      DropWords(s[1..], n - 1);
    }
  }

  lemma PrefixIsWord(s: string, f: string)
    requires AllWord(f) && f <= Lower(s)
    ensures |f| <= |s| - |Drop(s, Word)|
  {
    forall i | 0 <= i < |f| ensures In(s[i], Word) {
      assert f[i] == Lower(s)[i];
    }
    DropWords(s, |f|);
  }

  lemma FragmentIsWord(s: string)
    requires FragmentAt(s).Some?
    ensures 1 <= |FragmentAt(s).value| <= |s| - |Drop(s, Word)|
  {
    FragmentsAreWords();
    PrefixIsWord(s, FragmentAt(s).value);
  }

  // --- The scan as a loop ----------------------------------------------------------------

  lemma Suffixes(text: string, i: nat, j: nat)
    requires i + j <= |text|
    ensures text[i..][j..] == text[i + j..]
  {
  }

  /** The end of a run of one class of characters. */
  method Skip(text: string, start: nat, class_: Class) returns (cursor: nat)
    requires start <= |text|
    ensures start <= cursor <= |text| && text[cursor..] == Drop(text[start..], class_)
  {
    cursor := start;
    while cursor < |text| && In(text[cursor], class_)
      invariant start <= cursor <= |text| && Drop(text[cursor..], class_) == Drop(text[start..], class_)
    {
      Suffixes(text, cursor, 1);
      cursor := cursor + 1;
    }
  }

  lemma {:induction false} DropTwice(s: string, class_: Class, n: nat)
    requires n <= |s| - |Drop(s, class_)|
    ensures Drop(s[n..], class_) == Drop(s, class_)
  {
    if n == 0 {
    } else {
      DropTwice(s[1..], class_, n - 1);
      Suffixes(s, 1, n - 1);
    }
  }

  /** What stands behind the key that ends at `keyEnd` and the gap that ends at `gapEnd`. */
  lemma ValueBehind(text: string, index: nat, fragment: string, keyEnd: nat, gapEnd: nat)
    requires index <= |text| && keyEnd <= gapEnd <= |text|
    requires text[keyEnd..] == Drop(text[index..], Word) && text[gapEnd..] == Drop(text[keyEnd..], Quote)
    ensures ValueAt(text[index..], fragment) ==
      if gapEnd < |text| && IsSeparator(text[gapEnd]) then Some(Bare(text[gapEnd + 1..]))
      else if fragment != "bearer" || keyEnd == gapEnd then None
      else Some(Bare(text[gapEnd..]))
  {
    hide Drop, Scheme;
    if gapEnd < |text| {
      Suffixes(text, gapEnd, 1);
    }
  }

  lemma BareAt(text: string, start: nat, cursor: nat)
    requires start <= cursor <= |text| && text[cursor..] == Drop(text[start..], Quote)
    ensures cursor + Scheme(text[cursor..]) <= |text|
    ensures Bare(text[start..]) == text[cursor + Scheme(text[cursor..])..]
  {
    hide Drop, Scheme;
    Suffixes(text, cursor, Scheme(text[cursor..]));
  }

  /** Reads the key at `index`, and moves on to where its value begins. */
  method ReadKey(text: string, index: nat, fragment: string) returns (cursor: nat, found: bool)
    requires index < |text| && FragmentAt(text[index..]) == Some(fragment)
    ensures index < cursor <= |text|
    ensures ValueAt(text[index..], fragment) == if found then Some(text[cursor..]) else None
    ensures !found ==> text[cursor..] == Drop(text[index..], Word)
  {
    hide FragmentAt, Scheme, Drop, ValueAt, Bare;
    FragmentIsWord(text[index..]);
    DropTwice(text[index..], Word, |fragment|);
    Suffixes(text, index, |fragment|);
    var keyEnd := Skip(text, index + |fragment|, Word);
    cursor := Skip(text, keyEnd, Quote);
    ValueBehind(text, index, fragment, keyEnd, cursor);
    var hasSeparator := cursor < |text| && IsSeparator(text[cursor]);
    if hasSeparator {
      cursor := cursor + 1;
    } else if fragment != "bearer" || keyEnd == cursor {
      return keyEnd, false;
    }
    var start := cursor;
    cursor := Skip(text, start, Quote);
    BareAt(text, start, cursor);
    cursor := cursor + Scheme(text[cursor..]);
    found := true;
  }

  predicate Scanned(out: string, text: string, copied: nat, index: nat) {
    copied <= index <= |text| && out + text[copied..index] + Redact(text[index..]) == Redact(text)
  }

  lemma ScanStep(out: string, text: string, copied: nat, index: nat, valueStart: nat, cursor: nat)
    requires index < valueStart <= cursor <= |text| && Scanned(out, text, copied, index)
    requires Next(text[index..]) == Hit(text[valueStart..], text[cursor..])
    ensures cursor == valueStart ==> Scanned(out, text, copied, cursor)
    ensures cursor > valueStart ==> Scanned(out + text[copied..valueStart] + Mark(), text, cursor, cursor)
  {
    hide Next, Mark, Marked, Redact;
    var h, tail := Next(text[index..]), Redact(text[cursor..]);
    RedactOnce(text[index..]);
    MarkedCases(h);
    Slices(text, copied, index, valueStart);
    Regroup(out, text[copied..index], text[index..valueStart], Marked(h), tail);
    var kept := text[copied..valueStart];
    assert text[cursor..cursor] == "";
    if cursor > valueStart {
      assert out + kept + Mark() + "" + tail == Redact(text);
    } else {
      Dropped(out + kept, tail);
    }
  }

  lemma Slices(text: string, i: nat, j: nat, k: nat)
    requires i <= j <= k <= |text|
    ensures text[j..][..k - j] == text[j..k] && text[i..j] + text[j..k] == text[i..k]
  {
  }

  lemma Dropped(a: string, t: string)
    ensures a + "" + "" + t == a + t
  {
  }

  lemma MarkedCases(h: Hit)
    ensures |h.rest| < |h.value| ==> Marked(h) == Mark()
    ensures h.rest == h.value ==> Marked(h) == ""
  {
  }

  lemma Regroup(a: string, b: string, c: string, m: string, t: string)
    ensures a + b + (c + m + t) == a + (b + c) + m + "" + t
  {
  }

  lemma RedactOnce(s: string)
    requires s != ""
    ensures Redact(s) == s[..|s| - |Next(s).value|] + Marked(Next(s)) + Redact(Next(s).rest)
  {
  }

  lemma NextWithFragment(s: string)
    requires s != "" && FragmentAt(s).Some?
    ensures Next(s) == match ValueAt(s, FragmentAt(s).value)
                       case None => Hit(Drop(s, Word), Drop(s, Word))
                       case Some(v) => Hit(v, Drop(v, Value))
  {
  }

  lemma PlainNext(s: string)
    requires s != "" && FragmentAt(s).None?
    ensures Next(s) == Hit(s[1..], s[1..])
  {
  }

  method Scrub(input: string) returns (out: string)
    ensures out == ScrubSecrets(input)
  {
    hide Next, FragmentAt, Scanned, Blank, ValueAt, Drop, Mark;
    var text := Blank(input);
    out := "";
    var copied, index := 0, 0;
    StartScan(text);
    while index < |text|
      invariant copied <= index <= |text| && Scanned(out, text, copied, index)
      decreases |text| - index
    {
      var fragment := FragmentAt(text[index..]);
      if fragment.None? {
        PlainNext(text[index..]);
        Suffixes(text, index, 1);
        ScanStep(out, text, copied, index, index + 1, index + 1);
        index := index + 1;
        continue;
      }
      NextWithFragment(text[index..]);
      var valueStart, found := ReadKey(text, index, fragment.value);
      var cursor := valueStart;
      if found {
        cursor := Skip(text, valueStart, Value);
      }
      ScanStep(out, text, copied, index, valueStart, cursor);
      if cursor > valueStart {
        out := out + text[copied..valueStart] + Mark();
        copied := cursor;
      }
      index := cursor;
    }
    EndScan(out, text, copied);
    out := out + text[copied..];
  }

  lemma StartScan(text: string)
    ensures Scanned("", text, 0, 0)
  {
    assert text[0..] == text && text[0..0] == "";
  }

  lemma RedactNothing()
    ensures Redact("") == ""
  {
  }

  lemma EndScan(out: string, text: string, copied: nat)
    requires Scanned(out, text, copied, |text|)
    ensures out + text[copied..] == Redact(text)
  {
    RedactNothing();
    hide Redact;
    assert text[|text|..] == "";
    assert text[copied..|text|] == text[copied..];
  }

  // --- What one step keeps -----------------------------------------------------------------

  predicate IsSuffix(t: string, s: string) {
    |t| <= |s| && t == s[|s| - |t|..]
  }

  lemma SuffixOfSuffix(a: string, b: string, c: string)
    requires IsSuffix(a, b) && IsSuffix(b, c)
    ensures IsSuffix(a, c)
  {
    Suffixes(c, |c| - |b|, |b| - |a|);
  }

  lemma AfterSchemeIsSuffix(s: string)
    ensures IsSuffix(AfterScheme(s), s)
  {
    hide Scheme;
  }

  lemma RestIsSuffix(s: string, n: nat)
    requires n <= |s|
    ensures IsSuffix(s[n..], s)
  {
  }

  lemma {:induction false} DropIsSuffix(s: string, class_: Class)
    ensures IsSuffix(Drop(s, class_), s)
  {
    if s != "" && In(s[0], class_) {
      DropIsSuffix(s[1..], class_);
      Suffixes(s, 1, |s| - 1 - |Drop(s, class_)|);
    }
  }

  lemma ValueIsSuffix(s: string, fragment: string)
    requires ValueAt(s, fragment).Some?
    ensures IsSuffix(ValueAt(s, fragment).value, s)
  {
    hide Drop, AfterScheme, IsSuffix;
    var v := ValueAt(s, fragment).value;
    var key := Drop(s, Word);
    var gap := Drop(key, Quote);
    var start := if gap != "" && IsSeparator(gap[0]) then gap[1..] else gap;
    var bare := Drop(start, Quote);
    DropIsSuffix(s, Word);
    DropIsSuffix(key, Quote);
    DropIsSuffix(start, Quote);
    SuffixOfSuffix(gap, key, s);
    if gap != "" && IsSeparator(gap[0]) {
      RestIsSuffix(gap, 1);
      SuffixOfSuffix(start, gap, s);
    }
    AfterSchemeIsSuffix(bare);
    SuffixOfSuffix(bare, start, s);
    SuffixOfSuffix(v, bare, s);
  }

  /** A step splits the text into what is kept, the value, and the rest. */
  lemma NextSplits(s: string)
    requires s != ""
    ensures var h := Next(s);
            && s == s[..|s| - |h.value|] + h.value
            && h.value == h.value[..|h.value| - |h.rest|] + h.rest
  {
    DropIsSuffix(s, Word);
    if FragmentAt(s).Some? && ValueAt(s, FragmentAt(s).value).Some? {
      ValueIsSuffix(s, FragmentAt(s).value);
      DropIsSuffix(Next(s).value, Value);
    }
  }

  lemma FirstKept(s: string)
    ensures s == "" <==> Redact(s) == ""
    ensures s != "" ==> Redact(s)[0] == s[0]
  {
    hide Next, Marked;
    if s != "" {
      RedactOnce(s);
    }
  }

  /** Dropping a class stops before or at `v`; so it does with `w` in its place. */
  lemma {:induction false} DropReplace(p: string, v: string, w: string, class_: Class)
    requires |Drop(p + v, class_)| >= |v|
    requires |Drop(p + v, class_)| == |v| ==> w == "" || !In(w[0], class_)
    ensures var n := |Drop(p + v, class_)| - |v|;
            n <= |p| && Drop(p + v, class_) == p[|p| - n..] + v && Drop(p + w, class_) == p[|p| - n..] + w
  {
    hide In, Drop, IsSuffix;
    if p == "" {
      assert p + v == v && p + w == w;
      DropIsSuffix(v, class_);
      WholeSuffix(Drop(v, class_), v);
      DropStopped(w, class_);
      assert p[0..] == p;
    } else {
      DropConcat(p, v, class_);
      DropConcat(p, w, class_);
      if In(p[0], class_) {
        DropReplace(p[1..], v, w, class_);
        Suffixes(p, 1, |p| - 1 - (|Drop(p + v, class_)| - |v|));
      } else {
        assert p[0..] == p;
      }
    }
  }

  lemma DropConcat(p: string, v: string, class_: Class)
    requires p != ""
    ensures Drop(p + v, class_) == if In(p[0], class_) then Drop(p[1..] + v, class_) else p + v
  {
    hide In, Drop;
    DropFirst(p + v, class_);
    TailOfConcat(p, v, 1);
    assert (p + v)[0] == p[0];
  }

  lemma DropFirst(s: string, class_: Class)
    ensures s != "" ==> Drop(s, class_) == if In(s[0], class_) then Drop(s[1..], class_) else s
  {
  }

  lemma DropStopped(s: string, class_: Class)
    ensures s == "" || !In(s[0], class_) ==> Drop(s, class_) == s
  {
  }

  /** What follows a prefix that scanning keeps: the same beginning, possibly nothing. */
  predicate SameStart(a: string, b: string) {
    (a == "" <==> b == "") && (a != "" && b != "" ==> a[0] == b[0])
  }

  /** The leading word and the character behind it survive a scan. */
  lemma {:induction false} WordKept(s: string)
    ensures var t, k := Redact(s), Drop(s, Word);
            var n := |s| - |k|;
            n <= |t| && t[..n] == s[..n] && Drop(t, Word) == t[n..] && SameStart(t[n..], k)
    decreases |s|
  {
    hide Next, Marked, FragmentAt, ValueAt;
    FirstKept(s);
    if s != "" && In(s[0], Word) {
      if FragmentAt(s).None? {
        WordKept(s[1..]);
        PlainRedact(s);
        hide Redact;
        assert Redact(s)[1..] == Redact(s[1..]);
      } else {
        hide Redact, Drop;
        WordKeptByKey(s);
      }
    }
  }

  lemma PlainRedact(s: string)
    requires s != "" && FragmentAt(s).None?
    ensures Redact(s) == [s[0]] + Redact(s[1..])
  {
    hide Next, Marked, FragmentAt;
    PlainNext(s);
    MarkedCases(Next(s));
    RedactOnce(s);
    hide Redact;
    assert s[..|s| - |s[1..]|] == [s[0]];
    assert [s[0]] + "" == [s[0]];
  }

  lemma WordReplace(p: string, v: string, w: string)
    requires |Drop(p + v, Word)| >= |v|
    requires |Drop(p + v, Word)| == |v| ==> SameStart(w, v)
    ensures var k := Drop(p + v, Word);
            var n := |p + v| - |k|;
            n <= |p| && Drop(p + w, Word) == (p + w)[n..] && SameStart((p + w)[n..], k)
  {
    var k := Drop(p + v, Word);
    var n := |p + v| - |k|;
    hide Drop, In, SameStart;
    if |k| == |v| {
      DropIsSuffix(p + v, Word);
      assert k == v;
      DropEnds(p + v, Word);
      StopsAlike(w, v, Word);
    }
    DropReplace(p, v, w, Word);
    TailOfConcat(p, w, n);
    StartsAlike(p[n..], v, w);
  }

  lemma TailOfConcat(p: string, w: string, n: nat)
    requires n <= |p|
    ensures (p + w)[n..] == p[n..] + w
  {
  }

  lemma StopsAlike(w: string, v: string, class_: Class)
    requires SameStart(w, v) && (v == "" || !In(v[0], class_))
    ensures w == "" || !In(w[0], class_)
  {
  }

  lemma StartsAlike(q: string, v: string, w: string)
    requires q == "" ==> SameStart(w, v)
    ensures SameStart(q + w, q + v)
  {
    if q == "" {
      assert q + w == w && q + v == v;
    }
  }

  lemma DropEnds(s: string, class_: Class)
    ensures Drop(s, class_) == "" || !In(Drop(s, class_)[0], class_)
  {
  }

  lemma KeyBeforeValue(s: string)
    requires s != "" && FragmentAt(s).Some?
    ensures var h, k := Next(s), Drop(s, Word);
            |h.value| <= |k| && (|h.value| == |k| ==> h == Hit(k, k))
  {
    NextWithFragment(s);
    hide Next, Drop, FragmentAt;
  }

  /** One step as a replacement: what is kept, and what the value and the rest become. */
  lemma StepReplaces(s: string)
    requires s != ""
    ensures var h := Next(s);
            var p := s[..|s| - |h.value|];
            s == p + h.value && Redact(s) == p + (Marked(h) + Redact(h.rest))
  {
    hide Next, Marked, Redact;
    NextSplits(s);
    RedactOnce(s);
    Associates(s[..|s| - |Next(s).value|], Marked(Next(s)), Redact(Next(s).rest));
  }

  lemma Associates(a: string, b: string, c: string)
    ensures a + b + c == a + (b + c)
  {
  }

  lemma WordKeptByKey(s: string)
    requires s != "" && FragmentAt(s).Some?
    ensures var t, k := Redact(s), Drop(s, Word);
            var n := |s| - |k|;
            n <= |t| && t[..n] == s[..n] && Drop(t, Word) == t[n..] && SameStart(t[n..], k)
  {
    hide Redact, Next, FragmentAt, Drop, SameStart, Behind;
    KeyBeforeValue(s);
    BehindSplits(s);
    StartsLikeRest(s);
    var h, n := Next(s), |s| - |Drop(s, Word)|;
    var p, w := s[..|s| - |h.value|], Behind(s);
    WordReplace(p, h.value, w);
    HeadOfConcat(p, w, n);
    HeadOfConcat(p, h.value, n);
  }

  lemma StartsLikeRest(s: string)
    requires s != ""
    ensures Next(s).rest == Next(s).value ==> SameStart(Behind(s), Next(s).value)
  {
    hide Next;
    FirstKept(Next(s).rest);
    MarkedCases(Next(s));
    assert "" + Redact(Next(s).rest) == Redact(Next(s).rest);
  }

  lemma HeadOfConcat(p: string, w: string, n: nat)
    requires n <= |p|
    ensures (p + w)[..n] == p[..n]
  {
  }

  lemma {:induction false} FirstSame(s: string, t: string, fragments: seq<string>)
    requires forall f :: f in fragments ==> (f <= Lower(s) <==> f <= Lower(t))
    ensures FirstFragment(s, fragments) == FirstFragment(t, fragments)
  {
    hide Lower;
    if fragments == [] {
    } else {
      forall f | f in fragments[1..] ensures f <= Lower(s) <==> f <= Lower(t) {
        assert f in fragments;
      }
      FirstSame(s, t, fragments[1..]);
    }
  }

  lemma PrefixCarries(s: string, t: string, n: nat, f: string)
    requires n <= |s| && n <= |t| && t[..n] == s[..n] && |f| <= n && f <= Lower(s)
    ensures f <= Lower(t)
  {
    forall i | 0 <= i < |f| ensures f[i] == Lower(t)[i] {
      assert f[i] == Lower(s)[i];
      assert t[i] == t[..n][i] == s[..n][i] == s[i];
    }
  }

  /** Which fragment a text begins with depends on its leading word alone. */
  lemma FragmentSame(s: string, t: string, n: nat)
    requires n <= |s| && n <= |t| && t[..n] == s[..n]
    requires |s| - |Drop(s, Word)| == n && |t| - |Drop(t, Word)| == n
    ensures FragmentAt(t) == FragmentAt(s)
  {
    FragmentsAreWords();
    hide Lower, Fragments, AllWord, Drop;
    forall f | f in Fragments() ensures f <= Lower(s) <==> f <= Lower(t) {
      if f <= Lower(s) {
        PrefixIsWord(s, f);
        PrefixCarries(s, t, n, f);
      }
      if f <= Lower(t) {
        PrefixIsWord(t, f);
        PrefixCarries(t, s, n, f);
      }
    }
    FirstSame(s, t, Fragments());
  }

  lemma NoFragmentOutsideWords(s: string)
    requires s == "" || !In(s[0], Word)
    ensures FragmentAt(s).None?
  {
    hide FragmentAt;
    if FragmentAt(s).Some? {
      FragmentIsWord(s);
    }
  }

  /** Leading quotes and spaces and the character behind them survive a scan. */
  lemma {:induction false} QuotesKept(s: string)
    ensures var t, q := Redact(s), Drop(s, Quote);
            var n := |s| - |q|;
            n <= |t| && Drop(t, Quote) == t[n..] && SameStart(t[n..], q)
    decreases |s|
  {
    hide Next, Marked, FragmentAt;
    FirstKept(s);
    if s != "" && In(s[0], Quote) {
      NoFragmentOutsideWords(s);
      RedactOnce(s);
      PlainNext(s);
      MarkedCases(Next(s));
      QuotesKept(s[1..]);
      assert Redact(s) == [s[0]] + Redact(s[1..]);
      assert Redact(s)[1..] == Redact(s[1..]);
    }
  }

  // --- The second scan ------------------------------------------------------------------------

  /** A text that a scan may put where `v` stood without moving the value. */
  predicate StandsFor(w: string, v: string) {
    w == "" || w[0] == '<' || (v != "" && w[0] == v[0] && !In(v[0], Value))
  }

  lemma SchemeStable(q: string, v: string, w: string)
    requires Scheme(q + v) == |q|
    requires q == "" ==> w == "" || (w[0] != 'b' && w[0] != 'B')
    ensures Scheme(q + w) == |q|
  {
    if q != "" {
      assert Lower(q + w)[..|q|] == Lower(q) == Lower(q + v)[..|q|];
      assert "basic "[1] == 'a' && "bearer "[1] == 'e';
    } else if w != "" {
      assert Lower(q + w)[0] == Lower(w)[0] != 'b';
    }
  }

  lemma BareStable(q: string, v: string, w: string)
    requires Bare(q + v) == v && StandsFor(w, v)
    ensures Bare(q + w) == w
  {
    hide Drop, Scheme;
    var b := Drop(q + v, Quote);
    DropIsSuffix(q + v, Quote);
    assert |b| == |v| ==> b == v;
    DropReplace(q, v, w, Quote);
    var q1 := q[|q| - (|b| - |v|)..];
    assert |q1| == Scheme(q1 + v);
    SchemeStable(q1, v, w);
    assert (q1 + w)[|q1|..] == w;
  }

  lemma GapStable(key: string, v: string, w: string, gap: string, q: string)
    requires gap == q + v && StandsFor(w, v)
    requires gap == "" || !In(gap[0], Quote)
    requires if gap != "" && IsSeparator(gap[0]) then Bare(gap[1..]) == v else Bare(gap) == v
    ensures (gap != "" && IsSeparator(gap[0])) <==> (q + w != "" && IsSeparator((q + w)[0]))
    ensures if q + w != "" && IsSeparator((q + w)[0]) then Bare((q + w)[1..]) == w else Bare(q + w) == w
  {
    hide Bare;
    if gap != "" && IsSeparator(gap[0]) {
      assert |v| < |gap|;
      assert (q + v)[1..] == q[1..] + v && (q + w)[1..] == q[1..] + w;
      BareStable(q[1..], v, w);
    } else {
      BareStable(q, v, w);
    }
  }

  lemma ValueParts(s: string, fragment: string)
    requires ValueAt(s, fragment).Some?
    ensures var v, key := ValueAt(s, fragment).value, Drop(s, Word);
            var gap := Drop(key, Quote);
            var separated := gap != "" && IsSeparator(gap[0]);
            && |v| <= |gap| && v == (if separated then Bare(gap[1..]) else Bare(gap))
            && (separated || (fragment == "bearer" && |gap| < |key|))
  {
    hide Drop, Scheme;
  }

  lemma ValueFromParts(s: string, fragment: string)
    ensures var key := Drop(s, Word);
            var gap := Drop(key, Quote);
            var separated := gap != "" && IsSeparator(gap[0]);
            separated || (fragment == "bearer" && |gap| < |key|)
            ==> ValueAt(s, fragment) == Some(if separated then Bare(gap[1..]) else Bare(gap))
  {
    hide Drop, Scheme;
  }

  /** The gap behind the key and the separator in it are found again. */
  lemma ValueStable(p: string, v: string, w: string, fragment: string)
    requires ValueAt(p + v, fragment) == Some(v) && StandsFor(w, v)
    ensures ValueAt(p + w, fragment) == Some(w)
  {
    hide Drop, ValueAt, Bare, StandsFor;
    ValueParts(p + v, fragment);
    ValueFromParts(p + w, fragment);
    var key := Drop(p + v, Word);
    var gap := Drop(key, Quote);
    DropReplace(p, v, w, Word);
    var p1 := p[|p| - (|key| - |v|)..];
    GapStart(key, v, w, gap);
    DropReplace(p1, v, w, Quote);
    var p2 := p1[|p1| - (|gap| - |v|)..];
    GapStable(key, v, w, gap, p2);
  }

  lemma GapStart(key: string, v: string, w: string, gap: string)
    requires gap == Drop(key, Quote) && |gap| >= |v| && StandsFor(w, v)
    requires if gap != "" && IsSeparator(gap[0]) then v == Bare(gap[1..]) else v == Bare(gap)
    ensures |gap| == |v| ==> w == "" || !In(w[0], Quote)
  {
    hide Drop, Bare, In, IsSuffix, StandsFor;
    if |gap| == |v| {
      assert gap == "" || !IsSeparator(gap[0]);
      BareIsSuffix(gap);
      WholeSuffix(v, gap);
      DropEnds(key, Quote);
      StandsOutsideQuotes(w, v);
    }
  }

  lemma BareIsSuffix(s: string)
    ensures IsSuffix(Bare(s), s)
  {
    hide Drop, AfterScheme, IsSuffix;
    DropIsSuffix(s, Quote);
    AfterSchemeIsSuffix(Drop(s, Quote));
    SuffixOfSuffix(Bare(s), Drop(s, Quote), s);
  }

  lemma WholeSuffix(t: string, s: string)
    requires IsSuffix(t, s) && |t| == |s|
    ensures t == s
  {
  }

  lemma StandsOutsideQuotes(w: string, v: string)
    requires StandsFor(w, v) && (v == "" || !In(v[0], Quote))
    ensures w == "" || !In(w[0], Quote)
  {
  }

  lemma {:induction false} DropAll(p: string, r: string, class_: Class)
    requires forall i :: 0 <= i < |p| ==> In(p[i], class_)
    requires r == "" || !In(r[0], class_)
    ensures Drop(p + r, class_) == r
  {
    if p == "" {
      assert p + r == r;
    } else {
      assert (p + r)[1..] == p[1..] + r;
      DropAll(p[1..], r, class_);
    }
  }

  /** What stands behind the kept text after a scan. */
  function Behind(s: string): string
    requires s != ""
  {
    Marked(Next(s)) + Redact(Next(s).rest)
  }

  lemma PlainStable(s: string)
    requires s != "" && FragmentAt(s).None?
    ensures Redact(s) != "" && FragmentAt(Redact(s)).None? && Next(Redact(s)) == Hit(Behind(s), Redact(Next(s).rest))
  {
    hide Redact, FragmentAt, Next, Marked, Drop;
    var t := Redact(s);
    FirstKept(s);
    WordKept(s);
    FragmentSame(s, t, |s| - |Drop(s, Word)|);
    PlainNext(s);
    PlainNext(t);
    StepReplaces(s);
    MarkedCases(Next(s));
    assert t[1..] == Behind(s);
  }

  lemma NoValueStable(k: string, fragment: string)
    requires var gap := Drop(k, Quote);
      !(gap != "" && IsSeparator(gap[0])) && (fragment != "bearer" || |gap| == |k|)
    ensures var t := Redact(k);
      var gap := Drop(t, Quote);
      !(gap != "" && IsSeparator(gap[0])) && (fragment != "bearer" || |gap| == |t|)
  {
    hide Redact, Drop;
    QuotesKept(k);
  }

  lemma NoValue(s: string, fragment: string)
    ensures ValueAt(s, fragment).None? <==>
      var key := Drop(s, Word);
      var gap := Drop(key, Quote);
      !(gap != "" && IsSeparator(gap[0])) && (fragment != "bearer" || |gap| == |key|)
  {
    hide Drop, AfterScheme;
  }

  lemma KeyStable(s: string)
    requires s != "" && FragmentAt(s).Some? && ValueAt(s, FragmentAt(s).value).None?
    ensures Redact(s) != "" && FragmentAt(Redact(s)) == FragmentAt(s)
    ensures Next(Redact(s)) == Hit(Behind(s), Redact(Next(s).rest))
  {
    hide Redact, FragmentAt, Next, Marked, Drop, ValueAt;
    var t, k, fragment := Redact(s), Drop(s, Word), FragmentAt(s).value;
    FirstKept(s);
    WordKept(s);
    FragmentSame(s, t, |s| - |k|);
    NextWithFragment(s);
    StepReplaces(s);
    MarkedCases(Next(s));
    assert Behind(s) == Redact(k);
    assert Drop(t, Word) == t[|s| - |k|..] == Redact(k);
    NoValue(s, fragment);
    NoValueStable(k, fragment);
    NoValue(t, fragment);
    NextWithFragment(t);
  }

  lemma BehindStandsFor(s: string)
    requires s != "" && FragmentAt(s).Some? && ValueAt(s, FragmentAt(s).value).Some?
    ensures StandsFor(Behind(s), Next(s).value)
    ensures Drop(Behind(s), Value) == Redact(Next(s).rest)
  {
    hide Redact, FragmentAt, ValueAt, Drop, Next;
    NextWithFragment(s);
    var h := Next(s);
    var r := Redact(h.rest);
    FirstKept(h.rest);
    MarkedCases(h);
    assert h.rest == Drop(h.value, Value);
    if |h.rest| < |h.value| {
      DropAll(Mark(), r, Value);
    } else {
      DropIsSuffix(h.value, Value);
      assert "" + r == r;
      DropAll("", r, Value);
    }
  }

  lemma ValueStepStable(s: string)
    requires s != "" && FragmentAt(s).Some? && ValueAt(s, FragmentAt(s).value).Some?
    ensures Redact(s) != "" && FragmentAt(Redact(s)) == FragmentAt(s)
    ensures Next(Redact(s)) == Hit(Behind(s), Redact(Next(s).rest))
  {
    hide Redact, FragmentAt, Next, Drop, ValueAt, StandsFor, Behind;
    var t, fragment := Redact(s), FragmentAt(s).value;
    FirstKept(s);
    WordKept(s);
    FragmentSame(s, t, |s| - |Drop(s, Word)|);
    NextWithFragment(s);
    BehindSplits(s);
    BehindStandsFor(s);
    ValueStable(s[..|s| - |Next(s).value|], Next(s).value, Behind(s), fragment);
    NextWithFragment(t);
  }

  lemma BehindSplits(s: string)
    requires s != ""
    ensures var p := s[..|s| - |Next(s).value|];
            s == p + Next(s).value && Redact(s) == p + Behind(s)
  {
    StepReplaces(s);
  }

  /** The scan meets the same keys and gaps in its own output. */
  lemma NextStable(s: string)
    requires s != ""
    ensures Redact(s) != "" && FragmentAt(Redact(s)) == FragmentAt(s)
    ensures Next(Redact(s)) == Hit(Behind(s), Redact(Next(s).rest))
  {
    hide Redact, FragmentAt, Next, ValueAt, Behind;
    if FragmentAt(s).None? {
      PlainStable(s);
    } else if ValueAt(s, FragmentAt(s).value).None? {
      KeyStable(s);
    } else {
      ValueStepStable(s);
    }
  }

  lemma {:induction false} RedactTwice(s: string)
    ensures Redact(Redact(s)) == Redact(s)
    decreases |s|
  {
    hide FragmentAt, Next, ValueAt, Mark;
    if s == "" {
    } else {
      var t, h := Redact(s), Next(s);
      NextStable(s);
      BehindSplits(s);
      RedactTwice(h.rest);
      StepReplaces(t);
      var p := s[..|s| - |h.value|];
      MarkKept(h, Redact(h.rest));
      assert t[..|t| - |Behind(s)|] == p;
    }
  }

  lemma MarkKept(h: Hit, r: string)
    ensures Marked(Hit(Marked(h) + r, r)) == Marked(h)
  {
    if Marked(h) == "" {
      assert Marked(h) + r == r;
    } else {
      assert |Mark()| == 10;
    }
  }

  // --- Kept and secret pieces -----------------------------------------------------------------

  datatype Piece = Kept(text: string) | Secret(text: string) {
    function Shown(): string {
      if Secret? then Mark() else text
    }
  }

  function SecretOf(h: Hit): seq<Piece>
    requires |h.rest| <= |h.value|
  {
    if h.rest != h.value then [Secret(h.value[..|h.value| - |h.rest|])] else []
  }

  /** The text cut at every value the scan finds. */
  function Pieces(s: string): seq<Piece>
    decreases |s|
  {
    if s == "" then []
    else
      var h := Next(s);
      [Kept(s[..|s| - |h.value|])] + SecretOf(h) + Pieces(h.rest)
  }

  function Raw(pieces: seq<Piece>): string {
    if pieces == [] then "" else pieces[0].text + Raw(pieces[1..])
  }

  function Shown(pieces: seq<Piece>): string {
    if pieces == [] then "" else pieces[0].Shown() + Shown(pieces[1..])
  }

  lemma {:induction false} Concat(a: seq<Piece>, b: seq<Piece>)
    ensures Raw(a + b) == Raw(a) + Raw(b) && Shown(a + b) == Shown(a) + Shown(b)
  {
    hide Mark, Raw, Shown;
    if a == [] {
      assert a + b == b;
      NoPieces();
      assert "" + Raw(b) == Raw(b) && "" + Shown(b) == Shown(b);
    } else {
      Concat(a[1..], b);
      assert a == [a[0]] + a[1..] && a + b == [a[0]] + (a[1..] + b);
      First(a[0], a[1..]);
      First(a[0], a[1..] + b);
      Associates(a[0].text, Raw(a[1..]), Raw(b));
      Associates(a[0].Shown(), Shown(a[1..]), Shown(b));
    }
  }

  lemma OneStep(kept: string, h: Hit)
    requires |h.rest| <= |h.value| && h.value == h.value[..|h.value| - |h.rest|] + h.rest
    ensures Raw([Kept(kept)] + SecretOf(h)) + h.rest == kept + h.value
    ensures Shown([Kept(kept)] + SecretOf(h)) == kept + Marked(h)
  {
    hide Mark, Raw, Shown;
    var rest := SecretOf(h);
    First(Kept(kept), rest);
    NoPieces();
    if h.rest != h.value {
      First(rest[0], []);
      assert rest == [rest[0]] + [];
      assert Raw(rest) == rest[0].text && Shown(rest) == Mark();
      Associates(kept, Raw(rest), h.rest);
    } else {
      assert Raw([Kept(kept)] + rest) == kept;
    }
  }

  lemma First(piece: Piece, rest: seq<Piece>)
    ensures Raw([piece] + rest) == piece.text + Raw(rest) && Shown([piece] + rest) == piece.Shown() + Shown(rest)
  {
    hide Mark;
    assert ([piece] + rest)[1..] == rest;
  }

  lemma NoPieces()
    ensures Raw([]) == "" && Shown([]) == ""
  {
  }

  /** Nothing is lost but the values: put together raw the pieces are the text, and with
    * every secret replaced by the mark they are the output. */
  lemma {:induction false} PiecesRebuild(s: string)
    ensures Raw(Pieces(s)) == s && Shown(Pieces(s)) == Redact(s)
    decreases |s|
  {
    hide Next, Marked, SecretOf;
    if s == "" {
    } else {
      var h := Next(s);
      var kept := s[..|s| - |h.value|];
      NextSplits(s);
      OneStep(kept, h);
      PiecesRebuild(h.rest);
      Concat([Kept(kept)] + SecretOf(h), Pieces(h.rest));
    }
  }

  /** A secret stands behind a sensitive key, and it is a whole value. */
  predicate WellPlaced(pieces: seq<Piece>, i: nat)
    requires i < |pieces|
  {
    pieces[i].Secret? ==>
      && i > 0 && pieces[i - 1].Kept? && FragmentAt(pieces[i - 1].text).Some?
      && pieces[i].text != "" && (forall c :: c in pieces[i].text ==> In(c, Value))
      && (i + 1 < |pieces| ==> pieces[i + 1].Kept? && pieces[i + 1].text != "" && !In(pieces[i + 1].text[0], Value))
  }

  lemma KeyIsKept(s: string)
    requires s != "" && Next(s).value != Next(s).rest
    ensures FragmentAt(s[..|s| - |Next(s).value|]).Some?
    ensures Next(s).rest == Drop(Next(s).value, Value)
  {
    hide FragmentAt, ValueAt, Drop;
    assert FragmentAt(s).Some? && ValueAt(s, FragmentAt(s).value).Some?;
    NextWithFragment(s);
    KeyBeforeValue(s);
    NextSplits(s);
    hide Next;
    var v := Next(s).value;
    var p := s[..|s| - |v|];
    DropIsSuffix(s, Word);
    DropReplace(p, v, "", Word);
    assert p + "" == p;
    FragmentSame(s, p, |s| - |Drop(s, Word)|);
  }

  lemma {:induction false} DroppedAreIn(s: string, class_: Class)
    ensures forall c :: c in s[..|s| - |Drop(s, class_)|] ==> In(c, class_)
  {
    if s != "" && In(s[0], class_) {
      DroppedAreIn(s[1..], class_);
      var n := |s| - |Drop(s, class_)|;
      assert s[..n] == [s[0]] + s[1..][..n - 1];
    }
  }

  lemma FirstPiece(s: string)
    requires s != ""
    ensures Pieces(s) != [] && Pieces(s)[0].Kept? && Pieces(s)[0].text != "" && Pieces(s)[0].text[0] == s[0]
  {
    hide Next;
  }

  /** What one step contributes: a kept piece and, behind a key, its whole value. */
  ghost predicate Fronts(front: seq<Piece>, rest: string) {
    && 1 <= |front| <= 2 && front[0].Kept?
    && (|front| == 2 ==>
          && front[1].Secret? && FragmentAt(front[0].text).Some?
          && front[1].text != "" && (forall c :: c in front[1].text ==> In(c, Value))
          && (rest != "" ==> !In(rest[0], Value)))
  }

  lemma StepFronts(s: string)
    requires s != ""
    ensures var h := Next(s); Fronts([Kept(s[..|s| - |h.value|])] + SecretOf(h), h.rest)
  {
    hide Next, FragmentAt, In, Drop;
    var h := Next(s);
    if h.value != h.rest {
      KeyIsKept(s);
      DroppedAreIn(h.value, Value);
      NextSplits(s);
      DropEnds(h.value, Value);
    }
  }

  lemma PlacedBehind(front: seq<Piece>, rest: string, tail: seq<Piece>)
    requires Fronts(front, rest) && forall i :: 0 <= i < |tail| ==> WellPlaced(tail, i)
    requires tail != [] ==> rest != "" && tail[0].Kept? && tail[0].text != "" && tail[0].text[0] == rest[0]
    ensures forall i :: 0 <= i < |front + tail| ==> WellPlaced(front + tail, i)
  {
    hide FragmentAt, In;
    forall i | 0 <= i < |front + tail| ensures WellPlaced(front + tail, i) {
      if i >= |front| {
        assert WellPlaced(tail, i - |front|);
        assert (front + tail)[i] == tail[i - |front|];
      }
    }
  }

  lemma {:induction false} SecretsAreValuesOfKeys(s: string)
    ensures forall i :: 0 <= i < |Pieces(s)| ==> WellPlaced(Pieces(s), i)
    decreases |s|
  {
    hide Next, WellPlaced, Fronts;
    if s == "" {
    } else {
      var h := Next(s);
      var front, tail := [Kept(s[..|s| - |h.value|])] + SecretOf(h), Pieces(h.rest);
      SecretsAreValuesOfKeys(h.rest);
      StepFronts(s);
      if h.rest != "" {
        FirstPiece(h.rest);
      }
      assert Pieces(s) == front + tail;
      PlacedBehind(front, h.rest, tail);
    }
  }

  /** Scanning the output finds the same places again, holding nothing but marks. */
  lemma {:induction false} OnlyMarksRemain(s: string)
    ensures forall p :: p in Pieces(Redact(s)) && p.Secret? ==> p.text == Mark()
    decreases |s|
  {
    hide Next, FragmentAt, Mark;
    if s == "" {
    } else {
      var t, h := Redact(s), Next(s);
      NextStable(s);
      OnlyMarksRemain(h.rest);
      MarkedCases(h);
      NextSplits(t);
      var r := Redact(h.rest);
      assert Next(t).value[..|Behind(s)| - |r|] == Marked(h);
      assert Pieces(t) == [Kept(t[..|t| - |Behind(s)|])] + SecretOf(Next(t)) + Pieces(r);
    }
  }

  // --- Whole texts -----------------------------------------------------------------------------

  predicate NoControls(s: string) {
    forall c :: c in s ==> !IsControl(c)
  }

  lemma {:induction false} RedactAddsNoControls(s: string)
    requires NoControls(s)
    ensures NoControls(Redact(s))
    decreases |s|
  {
    hide Next, IsControl;
    if s == "" {
    } else {
      var h := Next(s);
      NextSplits(s);
      MarkHasNoControls();
      MarkedCases(h);
      hide Mark, Marked;
      var kept := s[..|s| - |h.value|];
      assert forall c :: c in h.rest ==> c in h.value;
      RedactAddsNoControls(h.rest);
      assert Redact(s) == kept + Marked(h) + Redact(h.rest);
    }
  }

  lemma MarkHasNoControls()
    ensures NoControls(Mark())
  {
  }

  lemma BlankHasNoControls(text: string)
    ensures NoControls(Blank(text))
    ensures NoControls(text) ==> Blank(text) == text
  {
  }

  /** Scrubbing a scrubbed text changes nothing, whatever the text. */
  lemma ScrubbingTwiceIsOnce(text: string)
    ensures ScrubSecrets(ScrubSecrets(text)) == ScrubSecrets(text)
  {
    hide Redact, Blank, NoControls;
    BlankHasNoControls(text);
    RedactAddsNoControls(Blank(text));
    BlankHasNoControls(Redact(Blank(text)));
    RedactTwice(Blank(text));
  }
}
