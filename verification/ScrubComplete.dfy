/** What scrubbing redacts, told by the text alone: keys, separators and delimiters are
  * written out, and nothing is said in terms of the scan. */
module ScrubComplete {
  import opened Prelude
  import opened Text
  import opened Scrub

  predicate IsKey(k: string) {
    || k == "password" || k == "passwd" || k == "secret" || k == "token" || k == "cookie" || k == "authorization"
    || k == "sysparm_ck" || k == "g_ck" || k == "jsessionid" || k == "api_key" || k == "apikey" || k == "bearer"
  }

  predicate IsWordChar(c: char) {
    'a' <= c <= 'z' || 'A' <= c <= 'Z' || '0' <= c <= '9' || c == '_'
  }

  predicate IsSpacer(c: char) {
    c == ' ' || c == '"' || c == '\''
  }

  predicate EndsValue(c: char) {
    c == ' ' || c == '"' || c == '\'' || c == '&' || c == ',' || c == ';' || c == '}' || c == ')' || c == ']'
  }

  /** The text begins with a sensitive key, in any case. */
  ghost predicate KeyAt(s: string) {
    exists k :: IsKey(k) && k <= Lower(s)
  }

  predicate SchemeAt(s: string) {
    "bearer " <= Lower(s) || "basic " <= Lower(s)
  }

  /** A key with what stands between it and its value, and what follows. */
  datatype Phrase = Phrase(
    key: string, word: string, gap: string, separator: string, lead: string, scheme: string, value: string, rest: string)
  {
    function Head(): string {
      key + (word + (gap + (separator + (lead + scheme))))
    }

    function Text(): string {
      Head() + (value + rest)
    }

    /** The key in any case and the word it begins; quotes and spaces; `=` or `:`, which only a
      * bearer key with a gap can do without; quotes and spaces; a scheme word if there is one;
      * and all of the value. */
    ghost predicate WellFormed() {
      && IsKey(Lower(key)) && (forall c :: c in word ==> IsWordChar(c))
      && (forall c :: c in gap ==> IsSpacer(c)) && (forall c :: c in lead ==> IsSpacer(c))
      && (|| separator == "=" || separator == ":"
          || (separator == "" && lead == "" && Lower(key) == "bearer" && gap != ""
              && !(scheme == "" && value + rest != "" && ((value + rest)[0] == '=' || (value + rest)[0] == ':'))))
      && (Lower(scheme) == "bearer " || Lower(scheme) == "basic " || (scheme == "" && !SchemeAt(value + rest)))
      && (forall c :: c in value ==> !EndsValue(c)) && (rest == "" || EndsValue(rest[0]))
      && (scheme == "" && value == "" ==> rest == "" || !IsSpacer(rest[0]))
    }
  }

  // --- The classes of the scan -----------------------------------------------------------

  lemma Classes(c: char)
    ensures In(c, Word) <==> IsWordChar(c)
    ensures In(c, Quote) <==> IsSpacer(c)
    ensures In(c, Value) <==> !EndsValue(c)
    ensures IsSpacer(c) ==> !IsWordChar(c)
    ensures IsSeparator(c) <==> c == '=' || c == ':'
    ensures IsSeparator(c) ==> !IsWordChar(c) && !IsSpacer(c)
  {
  }

  lemma KeysAreFragments(k: string)
    ensures IsKey(k) <==> k in Fragments()
  {
  }

  lemma {:induction false} FirstFragmentFinds(s: string, fragments: seq<string>)
    ensures FirstFragment(s, fragments).Some? <==> exists f :: f in fragments && f <= Lower(s)
  {
    hide Lower;
    if fragments == [] {
    } else {
      FirstFragmentFinds(s, fragments[1..]);
      assert fragments == [fragments[0]] + fragments[1..];
    }
  }

  lemma KeyIsFragment(s: string)
    ensures KeyAt(s) <==> FragmentAt(s).Some?
  {
    hide Lower, Fragments, IsKey;
    FirstFragmentFinds(s, Fragments());
    forall k ensures IsKey(k) <==> k in Fragments() {
      KeysAreFragments(k);
    }
  }

  lemma KeyChars(k: string)
    requires IsKey(k)
    ensures k != "" && forall i :: 0 <= i < |k| ==> IsWordChar(k[i])
  {
    KeysAreFragments(k);
    FragmentsAreWords();
    hide IsKey, Fragments;
    assert AllWord(k);
    forall i | 0 <= i < |k| ensures IsWordChar(k[i]) {
      Classes(k[i]);
    }
  }

  lemma LowerWord(s: string)
    requires forall i :: 0 <= i < |s| ==> IsWordChar(Lower(s)[i])
    ensures forall c :: c in s ==> IsWordChar(c)
  {
    forall c | c in s ensures IsWordChar(c) {
      var i :| 0 <= i < |s| && s[i] == c;
      assert IsWordChar(Lower(s)[i]);
    }
  }

  lemma LowerConcat(a: string, b: string)
    ensures Lower(a + b) == Lower(a) + Lower(b)
  {
  }

  /** A text that begins with a bearer key begins with no other. */
  lemma BearerAlone(s: string)
    requires "bearer" <= Lower(s)
    ensures FragmentAt(s) == Some("bearer")
  {
    KeyIsFragment(s);
    assert IsKey("bearer");
    var f := FragmentAt(s).value;
    assert Lower(s)[0] == 'b';
    OneKeyWithB(f);
  }

  lemma OneKeyWithB(f: string)
    requires f in Fragments() && f != "" && f[0] == 'b'
    ensures f == "bearer"
  {
  }

  lemma NotBearer(s: string, k: string)
    requires IsKey(k) && k <= Lower(s) && k != "bearer"
    ensures FragmentAt(s).Some? && FragmentAt(s).value != "bearer"
  {
    KeyIsFragment(s);
    KeyChars(k);
    KeysAreFragments(k);
    if k[0] == 'b' {
      OneKeyWithB(k);
    }
    assert Lower(s)[0] == k[0];
    assert "bearer"[0] == 'b';
  }

  // --- One phrase ----------------------------------------------------------------------------

  lemma DropsAll(p: string, r: string, class_: Class)
    requires (forall c :: c in p ==> In(c, class_)) && (r == "" || !In(r[0], class_))
    ensures Drop(p + r, class_) == r
  {
    DropAll(p, r, class_);
  }

  lemma SchemeRead(scheme: string, tail: string)
    requires Lower(scheme) == "bearer " || Lower(scheme) == "basic " || (scheme == "" && !SchemeAt(tail))
    ensures Scheme(scheme + tail) == |scheme| && AfterScheme(scheme + tail) == tail
  {
    if scheme == "" {
      assert scheme + tail == tail;
    } else {
      LowerConcat(scheme, tail);
      assert "bearer "[1] == 'e' && "basic "[1] == 'a';
      assert |scheme| == |Lower(scheme)|;
    }
  }

  lemma BareRead(lead: string, scheme: string, tail: string)
    requires forall c :: c in lead ==> IsSpacer(c)
    requires Lower(scheme) == "bearer " || Lower(scheme) == "basic " || (scheme == "" && !SchemeAt(tail))
    requires scheme == "" ==> tail == "" || !IsSpacer(tail[0])
    ensures Bare(lead + (scheme + tail)) == tail
  {
    SchemeStart(scheme);
    forall c: char ensures In(c, Quote) <==> IsSpacer(c) {
      Classes(c);
    }
    hide In, IsSpacer, Scheme, Drop, SchemeAt, AfterScheme;
    if scheme == "" {
      assert scheme + tail == tail;
    } else {
      assert (scheme + tail)[0] == scheme[0];
    }
    DropsAll(lead, scheme + tail, Quote);
    SchemeRead(scheme, tail);
  }

  lemma SchemeStart(scheme: string)
    requires Lower(scheme) == "bearer " || Lower(scheme) == "basic " || scheme == ""
    ensures scheme != "" ==> !IsSpacer(scheme[0]) && scheme[0] != '=' && scheme[0] != ':'
  {
    if scheme != "" {
      assert Lower(scheme)[0] == 'b';
    }
  }

  /** Where the tail of a phrase begins: with a value's first character, or what may follow. */
  lemma TailStart(f: Phrase)
    requires f.WellFormed()
    ensures f.scheme == "" && f.value + f.rest != "" ==> !IsSpacer((f.value + f.rest)[0])
  {
    if f.value != "" {
      assert (f.value + f.rest)[0] == f.value[0];
      assert f.value[0] in f.value;
    } else {
      assert f.value + f.rest == f.rest;
    }
  }

  /** The text behind the separator. */
  function Onward(f: Phrase): string {
    f.lead + (f.scheme + (f.value + f.rest))
  }

  lemma Regrouped(f: Phrase)
    ensures f.Text() == f.key + f.word + (f.gap + (f.separator + Onward(f)))
  {
    var t := f.value + f.rest;
    Associates(f.lead, f.scheme, t);
    Associates(f.separator, f.lead + f.scheme, t);
    Associates(f.gap, f.separator + (f.lead + f.scheme), t);
    Associates(f.word, f.gap + (f.separator + (f.lead + f.scheme)), t);
    Associates(f.key, f.word + (f.gap + (f.separator + (f.lead + f.scheme))), t);
    Associates(f.key, f.word, f.gap + (f.separator + Onward(f)));
  }

  lemma KeyWordChars(f: Phrase)
    requires f.WellFormed()
    ensures forall c :: c in f.key + f.word ==> In(c, Word)
  {
    KeyChars(Lower(f.key));
    LowerWord(f.key);
    forall c | c in f.key + f.word ensures In(c, Word) {
      Classes(c);
    }
  }

  /** What stands behind the gap: the separator, or the scheme or value of a bearer key. */
  lemma BehindGap(f: Phrase)
    requires f.WellFormed()
    ensures var s := f.separator + Onward(f);
            && (s != "" ==> !In(s[0], Quote))
            && (f.separator != "" ==> IsSeparator(s[0]) && !In(s[0], Word) && s[1..] == Onward(f))
            && (f.separator == "" ==> s == Onward(f) && (s != "" ==> !IsSeparator(s[0])))
  {
    TailStart(f);
    SchemeStart(f.scheme);
    var tail, s := f.value + f.rest, f.separator + Onward(f);
    if s != "" {
      Classes(s[0]);
    }
    if f.separator == "" {
      assert f.lead + (f.scheme + tail) == f.scheme + tail;
      if f.scheme == "" {
        assert f.scheme + tail == tail;
      } else {
        assert (f.scheme + tail)[0] == f.scheme[0];
      }
    }
  }

  /** The word and the gap end where the phrase says. */
  lemma GapRead(f: Phrase)
    requires f.WellFormed()
    ensures var s := f.separator + Onward(f);
            Drop(f.Text(), Word) == f.gap + s && Drop(f.gap + s, Quote) == s
  {
    Regrouped(f);
    KeyWordChars(f);
    BehindGap(f);
    GapChars(f);
    var s := f.separator + Onward(f);
    hide In, Phrase.WellFormed, Drop, IsSeparator;
    if f.gap == "" {
      assert f.gap + s == s;
    } else {
      assert (f.gap + s)[0] == f.gap[0];
    }
    DropsAll(f.key + f.word, f.gap + s, Word);
    DropsAll(f.gap, s, Quote);
  }

  lemma GapChars(f: Phrase)
    requires f.WellFormed()
    ensures forall c :: c in f.gap ==> In(c, Quote) && !In(c, Word)
    ensures f.gap == "" ==> f.separator != ""
  {
    forall c | c in f.gap ensures In(c, Quote) && !In(c, Word) {
      Classes(c);
    }
  }

  lemma KeyOf(f: Phrase)
    requires f.WellFormed()
    ensures f.Text() != "" && FragmentAt(f.Text()).Some?
    ensures f.separator == "" ==> FragmentAt(f.Text()) == Some("bearer")
  {
    Regrouped(f);
    KeyChars(Lower(f.key));
    Associates(f.key, f.word, f.gap + (f.separator + Onward(f)));
    LowerConcat(f.key, f.word + (f.gap + (f.separator + Onward(f))));
    hide Phrase.Text, Onward;
    assert Lower(f.key) <= Lower(f.Text());
    KeyIsFragment(f.Text());
    if f.separator == "" {
      BearerAlone(f.Text());
    }
  }

  lemma ValueRead(f: Phrase)
    requires f.WellFormed()
    ensures FragmentAt(f.Text()).Some? && ValueAt(f.Text(), FragmentAt(f.Text()).value) == Some(f.value + f.rest)
  {
    KeyOf(f);
    GapRead(f);
    BehindGap(f);
    TailStart(f);
    GapChars(f);
    BareRead(f.lead, f.scheme, f.value + f.rest);
    hide Drop, In, IsSeparator, FragmentAt, Bare, ValueAt, Phrase.Text, SchemeAt;
    ValueFromParts(f.Text(), FragmentAt(f.Text()).value);
  }

  /** A phrase keeps all but its value, which is redacted unless it is empty. */
  lemma PhraseIsRedacted(f: Phrase)
    requires f.WellFormed()
    ensures Redact(f.Text()) == f.Head() + (if f.value == "" then "" else "<redacted>") + Redact(f.rest)
  {
    KeyOf(f);
    ValueRead(f);
    ValueChars(f);
    hide Drop, In, FragmentAt, ValueAt, Redact, Phrase.Head, Phrase.WellFormed, Next;
    DropsAll(f.value, f.rest, Value);
    NextWithFragment(f.Text());
    RedactOnce(f.Text());
    var h, tail := Next(f.Text()), f.value + f.rest;
    assert h == Hit(tail, f.rest);
    MarkedCases(h);
    TailLength(f);
    assert f.Text()[..|f.Text()| - |tail|] == f.Head();
  }

  lemma TailLength(f: Phrase)
    ensures f.value + f.rest == f.rest <==> f.value == ""
  {
    if f.value == "" {
      assert f.value + f.rest == f.rest;
    } else {
      assert |f.value + f.rest| > |f.rest|;
    }
  }

  lemma ValueChars(f: Phrase)
    requires f.WellFormed()
    ensures (forall c :: c in f.value ==> In(c, Value)) && (f.rest == "" || !In(f.rest[0], Value))
  {
    forall c ensures In(c, Value) <==> !EndsValue(c) {
      Classes(c);
    }
    hide In, EndsValue;
  }

  // --- The whole text ---------------------------------------------------------------------------

  /** Text in front of the first key is copied. */
  lemma {:induction false} FrontIsCopied(before: string, s: string)
    requires forall i :: 0 <= i < |before| ==> !KeyAt((before + s)[i..])
    ensures Redact(before + s) == before + Redact(s)
  {
    hide KeyAt, Redact;
    if before == "" {
      assert before + s == s;
      assert before + Redact(s) == Redact(s);
    } else {
      var all := before + s;
      assert all[0..] == all;
      KeyIsFragment(all);
      PlainRedact(all);
      TailOfConcat(before, s, 1);
      forall i | 0 <= i < |before[1..]| ensures !KeyAt((before[1..] + s)[i..]) {
        Suffixes(all, 1, i);
        assert !KeyAt(all[i + 1..]);
      }
      FrontIsCopied(before[1..], s);
      Associates([before[0]], before[1..], Redact(s));
      assert [before[0]] + before[1..] == before;
    }
  }

  /** The first key of a text that stands before a value has that value redacted, and the
    * rest is redacted in turn. */
  lemma FirstKeyIsRedacted(before: string, f: Phrase)
    requires f.WellFormed() && f.value != ""
    requires forall i :: 0 <= i < |before| ==> !KeyAt((before + f.Text())[i..])
    ensures Redact(before + f.Text()) == before + (f.Head() + "<redacted>" + Redact(f.rest))
  {
    hide KeyAt, Redact, Phrase.WellFormed, Phrase.Text, Phrase.Head;
    FrontIsCopied(before, f.Text());
    PhraseIsRedacted(f);
  }

  /** Without a key nothing is redacted. */
  lemma NoKeyIsCopied(s: string)
    requires forall i :: 0 <= i < |s| ==> !KeyAt(s[i..])
    ensures Redact(s) == s
  {
    hide KeyAt, Redact;
    RedactNothing();
    NothingBehind(s);
    FrontIsCopied(s, "");
  }

  lemma NothingBehind(s: string)
    ensures s + "" == s
  {
  }

  /** A key with neither a separator nor, for bearer, a gap is copied with its word. */
  lemma KeyWithoutValueIsCopied(key: string, word: string, gap: string, rest: string)
    requires IsKey(Lower(key)) && (forall c :: c in word ==> IsWordChar(c)) && (forall c :: c in gap ==> IsSpacer(c))
    requires rest == "" || (!IsSpacer(rest[0]) && rest[0] != '=' && rest[0] != ':' && (gap == "" ==> !IsWordChar(rest[0])))
    requires Lower(key) == "bearer" ==> gap == ""
    ensures Redact(key + word + (gap + rest)) == key + word + Redact(gap + rest)
  {
    var s, tail := key + word + (gap + rest), gap + rest;
    KeyWordOnly(key, word);
    SpacersOnly(gap, rest);
    hide In, IsWordChar, IsSpacer;
    DropsAll(key + word, tail, Word);
    DropsAll(gap, rest, Quote);
    hide Drop;
    KeyChars(Lower(key));
    Associates(key, word, tail);
    LowerConcat(key, word + tail);
    assert Lower(key) <= Lower(s);
    KeyIsFragment(s);
    if Lower(key) == "bearer" {
      assert tail == rest;
    } else {
      NotBearer(s, Lower(key));
    }
    NoValue(s, FragmentAt(s).value);
    hide FragmentAt, IsKey, ValueAt, KeyAt, Redact, Lower;
    NextWithFragment(s);
    RedactOnce(s);
    MarkedCases(Next(s));
    assert s[..|s| - |tail|] == key + word;
    assert key + word + "" == key + word;
  }

  lemma KeyWordOnly(key: string, word: string)
    requires IsKey(Lower(key)) && forall c :: c in word ==> IsWordChar(c)
    ensures forall c :: c in key + word ==> In(c, Word)
  {
    KeyChars(Lower(key));
    LowerWord(key);
    forall c | c in key + word ensures In(c, Word) {
      Classes(c);
    }
  }

  lemma SpacersOnly(gap: string, rest: string)
    requires forall c :: c in gap ==> IsSpacer(c)
    requires rest == "" || (!IsSpacer(rest[0]) && rest[0] != '=' && rest[0] != ':' && (gap == "" ==> !IsWordChar(rest[0])))
    ensures forall c :: c in gap ==> In(c, Quote)
    ensures rest == "" || (!In(rest[0], Quote) && !IsSeparator(rest[0]))
    ensures gap + rest == "" || !In((gap + rest)[0], Word)
  {
    forall c ensures In(c, Quote) <==> IsSpacer(c) ensures In(c, Word) <==> IsWordChar(c) {
      Classes(c);
    }
    if gap == "" {
      assert gap + rest == rest;
    } else {
      assert (gap + rest)[0] == gap[0];
      Classes(gap[0]);
    }
    if rest != "" {
      Classes(rest[0]);
    }
  }

  // --- Wherever the scan arrives -----------------------------------------------------------------

  /** The scan of `s` comes to look for a key at the beginning of its suffix `t`. */
  ghost predicate Arrives(s: string, t: string)
    decreases |s|
  {
    s == t || (s != "" && Arrives(Next(s).rest, t))
  }

  lemma {:induction false} ArrivalOutput(s: string, t: string) returns (out: string)
    requires Arrives(s, t)
    ensures Redact(s) == out + Redact(t)
    decreases |s|
  {
    hide Next, Redact;
    if s == t {
      out := "";
      assert "" + Redact(t) == Redact(t);
    } else {
      var h := Next(s);
      var more := ArrivalOutput(h.rest, t);
      RedactOnce(s);
      var step := s[..|s| - |h.value|] + Marked(h);
      out := step + more;
      Associates(step, more, Redact(t));
    }
  }

  /** Wherever the scan arrives at a key with a value, the output carries the mark in that
    * value's place. */
  lemma EveryKeyReachedIsRedacted(s: string, f: Phrase)
    requires Arrives(s, f.Text()) && f.WellFormed() && f.value != ""
    ensures exists out: string :: Redact(s) == out + (f.Head() + "<redacted>" + Redact(f.rest))
  {
    hide Arrives, Redact, Phrase.WellFormed, Phrase.Text, Phrase.Head;
    var out := ArrivalOutput(s, f.Text());
    PhraseIsRedacted(f);
  }

  /** The same of scrubbing, whose input has its control characters replaced. */
  lemma FirstSecretIsScrubbed(text: string, before: string, f: Phrase)
    requires Blank(text) == before + f.Text() && f.WellFormed() && f.value != ""
    requires forall i :: 0 <= i < |before| ==> !KeyAt(Blank(text)[i..])
    ensures ScrubSecrets(text) == before + (f.Head() + "<redacted>" + Redact(f.rest))
  {
    hide KeyAt, Redact, Phrase.WellFormed, Phrase.Text, Phrase.Head, Blank;
    FirstKeyIsRedacted(before, f);
  }
}
