/** Splitting, joining and trimming text, with the laws that relate them. */
module Text {
  import opened Prelude

  /** `sep` stands at position `i` of `s`. */
  predicate Occurs(s: string, sep: string, i: nat) {
    i <= |s| && sep <= s[i..]
  }

  /** The first position of `sep`, searching left to right. */
  function Find(s: string, sep: string): (r: Option<nat>)
    ensures r.Some? ==> Occurs(s, sep, r.value) && forall j :: 0 <= j < r.value ==> !Occurs(s, sep, j)
    ensures r.None? ==> forall j :: 0 <= j <= |s| ==> !Occurs(s, sep, j)
  {
    if sep <= s then
      assert s[0..] == s;
      Some(0)
    else if s == "" then None
    else
      assert forall j :: 1 <= j <= |s| ==> s[1..][j - 1..] == s[j..];
      assert s[0..] == s;
      assert forall j :: 1 <= j <= |s| ==> (Occurs(s, sep, j) <==> Occurs(s[1..], sep, j - 1));
      match Find(s[1..], sep)
      case None => None
      case Some(i) => Some(i + 1)
  }

  function Split(s: string, sep: string): (parts: seq<string>)
    requires sep != ""
    ensures parts != []
    decreases |s|
  {
    match Find(s, sep)
    case None => [s]
    case Some(i) => [s[..i]] + Split(s[i + |sep|..], sep)
  }

  function Join(parts: seq<string>, sep: string): string {
    if parts == [] then ""
    else if |parts| == 1 then parts[0]
    else parts[0] + sep + Join(parts[1..], sep)
  }

  predicate Contains(s: string, sep: string) {
    Find(s, sep).Some?
  }

  /** The first separator after `part` in `part + sep + ...` is that one. */
  ghost predicate Separable(part: string, sep: string) {
    forall i :: 0 <= i < |part| ==> !Occurs(part + sep, sep, i)
  }

  /** No proper prefix of `sep` is also its suffix, so occurrences never overlap. */
  ghost predicate Borderless(sep: string) {
    sep != "" && forall k :: 0 < k < |sep| ==> sep[k..] != sep[..|sep| - k]
  }

  lemma {:induction false} JoinSplit(s: string, sep: string)
    requires sep != ""
    ensures Join(Split(s, sep), sep) == s
    decreases |s|
  {
    match Find(s, sep)
    case None =>
    case Some(i) =>
      JoinSplit(s[i + |sep|..], sep);
      var rest := Split(s[i + |sep|..], sep);
      assert ([s[..i]] + rest)[1..] == rest;
      assert s == s[..i] + sep + s[i + |sep|..];
  }

  lemma FindAfter(part: string, sep: string, rest: string)
    requires sep != "" && Separable(part, sep)
    ensures Find(part + sep + rest, sep) == Some(|part|)
  {
    var s := part + sep + rest;
    assert s[|part|..] == sep + rest;
    assert Occurs(s, sep, |part|);
    forall i | 0 <= i < |part| ensures !Occurs(s, sep, i) {
      if Occurs(s, sep, i) {
        assert (part + sep)[i..] == s[i..][..|part| + |sep| - i];
        assert sep == s[i..][..|sep|] == (part + sep)[i..][..|sep|];
        assert Occurs(part + sep, sep, i);
      }
    }
  }

  /** Splitting undoes joining when no piece makes a separator of its own. */
  lemma {:induction false} SplitJoin(parts: seq<string>, sep: string)
    requires sep != "" && parts != []
    requires forall i :: 0 <= i < |parts| - 1 ==> Separable(parts[i], sep)
    requires !Contains(parts[|parts| - 1], sep)
    ensures Split(Join(parts, sep), sep) == parts
  {
    hide Separable, Contains;
    if |parts| > 1 {
      forall i | 0 <= i < |parts[1..]| - 1 ensures Separable(parts[1..][i], sep) {
        assert parts[1..][i] == parts[i + 1];
      }
      SplitJoin(parts[1..], sep);
      SplitFirst(parts[0], Join(parts[1..], sep), sep);
    } else {
      hide *;
      SplitWhole(parts[0], sep);
      JoinOne(parts, sep);
    }
  }

  lemma JoinOne(parts: seq<string>, sep: string)
    requires |parts| == 1
    ensures Join(parts, sep) == parts[0] && parts == [parts[0]]
  {
  }

  lemma SplitWhole(s: string, sep: string)
    requires sep != "" && !Contains(s, sep)
    ensures Split(s, sep) == [s]
  {
  }

  lemma SplitFirst(part: string, rest: string, sep: string)
    requires sep != "" && Separable(part, sep)
    ensures Split(part + sep + rest, sep) == [part] + Split(rest, sep)
  {
    FindAfter(part, sep, rest);
    var s := part + sep + rest;
    assert s[..|part|] == part && s[|part| + |sep|..] == rest;
  }

  lemma OccursWithin(s: string, n: nat, sep: string, j: nat)
    requires n <= |s| && Occurs(s[..n], sep, j)
    ensures Occurs(s, sep, j) && j + |sep| <= n
  {
    assert s[..n][j..] == s[j..][..n - j];
  }

  lemma {:induction false} SplitPieces(s: string, sep: string)
    requires sep != ""
    ensures forall p :: p in Split(s, sep) ==> !Contains(p, sep)
    decreases |s|
  {
    hide Occurs, Find;
    match Find(s, sep)
    case None =>
    case Some(i) =>
      hide Split;
      SplitAt(s, sep, i);
      SplitPieces(s[i + |sep|..], sep);
      BeforeFirst(s, sep, i);
  }

  lemma SplitAt(s: string, sep: string, i: nat)
    requires sep != "" && Find(s, sep) == Some(i)
    ensures i + |sep| <= |s| && Split(s, sep) == [s[..i]] + Split(s[i + |sep|..], sep)
  {
    hide Find;
  }

  lemma BeforeFirst(s: string, sep: string, i: nat)
    requires sep != "" && i <= |s| && Find(s, sep) == Some(i)
    ensures !Contains(s[..i], sep)
  {
    hide Occurs;
    var inner := Find(s[..i], sep);
    if inner.Some? {
      OccursWithin(s, i, sep, inner.value);
    }
  }

  /** An occurrence starting inside `part` lies in it, or makes `sep` overlap itself. */
  lemma StraddlingOverlaps(part: string, sep: string, i: nat)
    requires i < |part| && Occurs(part + sep, sep, i)
    ensures || Occurs(part, sep, i)
            || (|part| - i < |sep| && sep[|part| - i..] == sep[..|sep| - (|part| - i)])
  {
    var tail := (part + sep)[i..];
    var k := |part| - i;
    assert tail == part[i..] + sep;
    if k >= |sep| {
      assert tail[..|sep|] == part[i..][..|sep|];
    } else {
      assert tail[k..] == sep;
      assert tail[..|sep|][k..] == tail[k..][..|sep| - k];
    }
  }

  lemma PieceSeparable(part: string, sep: string)
    requires Borderless(sep) && !Contains(part, sep)
    ensures Separable(part, sep)
  {
    hide Occurs;
    forall i | 0 <= i < |part| ensures !Occurs(part + sep, sep, i) {
      if Occurs(part + sep, sep, i) {
        StraddlingOverlaps(part, sep, i);
      }
    }
  }

  lemma ContainsNeeds(s: string, sep: string, k: nat)
    requires Contains(s, sep) && k < |sep|
    ensures sep[k] in s
  {
    var i := Find(s, sep).value;
    assert s[i..][..|sep|][k] == s[i + k];
  }

  // --- Prefixes ------------------------------------------------------------------

  lemma PrefixOfPrefix(a: string, b: string, s: string)
    requires a <= b
    ensures b <= s ==> a <= s
  {
    if b <= s {
      assert s[..|a|] == s[..|b|][..|a|];
    }
  }

  lemma PrefixBehind(a: string, b: string, s: string)
    ensures a + b <= a + s <==> b <= s
  {
    assert (a + s)[|a|..] == s;
    if a + b <= a + s {
      assert (a + s)[..|a| + |b|][|a|..] == s[..|b|];
    }
    if b <= s {
      assert a + s == a + b + s[|b|..];
    }
  }

  lemma PrefixBefore(p: string, s: string, c: char, rest: string)
    requires p <= s + [c] + rest
    ensures p <= s || c in p
  {
    var whole := s + [c] + rest;
    assert whole[..|p|] == p;
    if |p| > |s| {
      assert p[|s|] == whole[|s|] == c;
    } else {
      assert whole[..|p|] == s[..|p|];
    }
  }

  // --- One-character separators ---------------------------------------------

  lemma CharBorderless(c: char)
    ensures Borderless([c])
  {
  }

  lemma CharContains(s: string, c: char)
    ensures Contains(s, [c]) <==> c in s
  {
    if c in s {
      var i :| 0 <= i < |s| && s[i] == c;
      assert Occurs(s, [c], i);
    }
    if Contains(s, [c]) {
      var i := Find(s, [c]).value;
      assert s[i..][0] == s[i];
    }
  }

  /** Texts without the separator survive a join and split. */
  lemma SplitJoinChar(parts: seq<string>, c: char)
    requires parts != [] && forall i :: 0 <= i < |parts| ==> c !in parts[i]
    ensures Split(Join(parts, [c]), [c]) == parts
  {
    CharBorderless(c);
    forall i | 0 <= i < |parts| ensures Separable(parts[i], [c]) && !Contains(parts[i], [c]) {
      CharContains(parts[i], c);
      PieceSeparable(parts[i], [c]);
    }
    SplitJoin(parts, [c]);
  }

  lemma {:induction false} JoinSnoc(parts: seq<string>, x: string, sep: string)
    requires parts != []
    ensures Join(parts + [x], sep) == Join(parts, sep) + sep + x
  {
    if |parts| > 1 {
      JoinSnoc(parts[1..], x, sep);
      assert (parts + [x])[1..] == parts[1..] + [x];
    } else {
      assert (parts + [x])[1..] == [x];
    }
  }

  /** A further piece behind a further separator is one more part. */
  lemma SplitSnoc(s: string, c: char, x: string)
    requires c !in x
    ensures Split(s + [c] + x, [c]) == Split(s, [c]) + [x]
  {
    var parts := Split(s, [c]);
    JoinSplit(s, [c]);
    JoinSnoc(parts, x, [c]);
    SplitPieces(s, [c]);
    forall i | 0 <= i < |parts + [x]| ensures c !in (parts + [x])[i] {
      CharContains((parts + [x])[i], c);
      assert i < |parts| ==> (parts + [x])[i] in parts;
    }
    SplitJoinChar(parts + [x], c);
  }

  /** The texts around the first `c`. */
  function SplitOnce(s: string, c: char): (r: Option<(string, string)>)
    ensures r.Some? ==> c !in r.value.0 && s == r.value.0 + [c] + r.value.1
    ensures r.None? ==> c !in s
  {
    if s == "" then None
    else if s[0] == c then Some(("", s[1..]))
    else
      assert s == [s[0]] + s[1..];
      match SplitOnce(s[1..], c)
      case None => None
      case Some((a, b)) => Some(([s[0]] + a, b))
  }

  lemma {:induction false} SplitOnceAt(a: string, c: char, b: string)
    requires c !in a
    ensures SplitOnce(a + [c] + b, c) == Some((a, b))
  {
    var s := a + [c] + b;
    if a == "" {
      assert s[1..] == b;
    } else {
      SplitOnceAt(a[1..], c, b);
      assert s[1..] == a[1..] + [c] + b;
      assert a == [a[0]] + a[1..];
    }
  }

  /** ASCII lower case. */
  function Lower(s: string): (r: string)
    ensures |r| == |s|
  {
    seq(|s|, i requires 0 <= i < |s| => if 'A' <= s[i] <= 'Z' then s[i] - 'A' + 'a' else s[i])
  }

  // --- Decimal numbers -------------------------------------------------------------

  predicate AllDigits(s: string) {
    forall i :: 0 <= i < |s| ==> '0' <= s[i] <= '9'
  }

  function NatOf(digits: string): nat
    requires AllDigits(digits)
  {
    if digits == "" then 0
    else 10 * NatOf(digits[..|digits| - 1]) + (digits[|digits| - 1] - '0') as nat
  }

  function Decimal(n: nat): (s: string)
    ensures s != "" && AllDigits(s) && NatOf(s) == n
    ensures s[0] == '0' ==> |s| == 1
  {
    var last := '0' + (n % 10) as char;
    if n < 10 then
      assert [last][..0] == "";
      [last]
    else
      var s := Decimal(n / 10) + [last];
      assert s[..|s| - 1] == Decimal(n / 10);
      s
  }

  // --- Trimming ----------------------------------------------------------------

  /** Unicode White_Space. */
  predicate IsSpace(c: char) {
    || '\t' <= c <= '\r' || c == ' ' || c == '\U{85}' || c == '\U{A0}' || c == '\U{1680}'
    || '\U{2000}' <= c <= '\U{200A}' || c == '\U{2028}' || c == '\U{2029}' || c == '\U{202F}'
    || c == '\U{205F}' || c == '\U{3000}'
  }

  function TrimStart(s: string): (r: string)
    ensures r != "" ==> !IsSpace(r[0])
    ensures |r| <= |s| && r == s[|s| - |r|..]
  {
    if s != "" && IsSpace(s[0]) then TrimStart(s[1..]) else s
  }

  function TrimEnd(s: string): (r: string)
    ensures r != "" ==> !IsSpace(r[|r| - 1])
    ensures r <= s
  {
    if s != "" && IsSpace(s[|s| - 1]) then TrimEnd(s[..|s| - 1]) else s
  }

  function Trim(s: string): string {
    TrimEnd(TrimStart(s))
  }

  /** Already without spaces at either end. */
  predicate Trimmed(s: string) {
    s != "" ==> !IsSpace(s[0]) && !IsSpace(s[|s| - 1])
  }

  lemma TrimTrims(s: string)
    ensures Trimmed(Trim(s))
    ensures Trimmed(s) ==> Trim(s) == s
    ensures forall c :: c in Trim(s) ==> c in s
  {
    var t := TrimStart(s);
    assert Trim(s) <= t;
    assert Trim(s) != "" ==> Trim(s)[0] == t[0];
    assert forall c :: c in Trim(s) ==> c in t;
  }
}
