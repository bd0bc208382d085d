/** Merging Set-Cookie responses into a request Cookie header (RFC 6265, sections 5.2.2 and 5.3). */
module Cookies {
  import opened Prelude
  import opened Text

  datatype Cookie = Cookie(name: string, value: string) {
    function Show(): string {
      name + "=" + value
    }
  }

  /** A Set-Cookie header; one that is not visible ASCII text is skipped. */
  datatype Header = Opaque | Plain(text: string)

  datatype Update = Update(name: string, value: string, delete: bool)

  /** The instants that date texts stand for, and the current one. */
  datatype Clock = Clock(date: string -> Option<int>, now: int)

  predicate Same(a: string, b: string) {
    Lower(a) == Lower(b)
  }

  // --- Attributes ----------------------------------------------------------------

  predicate AllZeros(s: string) {
    forall i :: 0 <= i < |s| ==> s[i] == '0'
  }

  /** The value of a Max-Age attribute, whatever its key's case. */
  function Attribute(text: string, key: string): Option<string> {
    match SplitOnce(Trim(text), '=')
    case None => None
    case Some((k, v)) => if Same(k, key) then Some(Trim(v)) else None
  }

  function Digits(value: string): string {
    if "-" <= value then value[1..] else value
  }

  /** Whether a Max-Age text expires the cookie; None when it is not a number. */
  function AgeExpired(value: string): Option<bool> {
    var digits := Digits(value);
    if digits != "" && AllDigits(digits) then Some("-" <= value || AllZeros(digits)) else None
  }

  function LastMaxAge(attributes: seq<string>): Option<bool> {
    if attributes == [] then None
    else
      var n := |attributes| - 1;
      match Attribute(attributes[n], "max-age")
      case None => LastMaxAge(attributes[..n])
      case Some(value) => if AgeExpired(value).Some? then AgeExpired(value) else LastMaxAge(attributes[..n])
  }

  function LastExpires(attributes: seq<string>, clock: Clock): Option<int> {
    if attributes == [] then None
    else
      var n := |attributes| - 1;
      match Attribute(attributes[n], "expires")
      case None => LastExpires(attributes[..n], clock)
      case Some(value) => if clock.date(value).Some? then clock.date(value) else LastExpires(attributes[..n], clock)
  }

  function ParseHeader(header: Header, clock: Clock): Option<Update> {
    if header.Opaque? then None
    else
      var parts := Split(header.text, ";");
      match SplitOnce(Trim(parts[0]), '=')
      case None => None
      case Some((name, value)) =>
        var maxAge, expires := LastMaxAge(parts[1..]), LastExpires(parts[1..], clock);
        var expired := if maxAge.Some? then maxAge.value else expires.Some? && expires.value <= clock.now;
        Some(Update(name, value, value == "" || expired))
  }

  // --- The jar ---------------------------------------------------------------------

  function ParseParts(parts: seq<string>): seq<Cookie> {
    if parts == [] then []
    else
      (match SplitOnce(Trim(parts[0]), '=')
       case None => []
       case Some((name, value)) => [Cookie(name, value)]) + ParseParts(parts[1..])
  }

  function ParseCookies(cookieHeader: string): seq<Cookie> {
    ParseParts(Split(cookieHeader, ";"))
  }

  function Shown(cookies: seq<Cookie>): (r: seq<string>)
    ensures |r| == |cookies| && forall i :: 0 <= i < |r| ==> r[i] == cookies[i].Show()
  {
    seq(|cookies|, i requires 0 <= i < |cookies| => cookies[i].Show())
  }

  function Format(cookies: seq<Cookie>): string {
    Join(Shown(cookies), "; ")
  }

  function Without(cookies: seq<Cookie>, name: string): seq<Cookie> {
    if cookies == [] then []
    else (if Same(cookies[0].name, name) then [] else [cookies[0]]) + Without(cookies[1..], name)
  }

  function Store(cookies: seq<Cookie>, u: Update): seq<Cookie> {
    Without(cookies, u.name) + if u.delete then [] else [Cookie(u.name, u.value)]
  }

  function StoreAll(cookies: seq<Cookie>, updates: seq<Update>): seq<Cookie> {
    if updates == [] then cookies
    else
      var n := |updates| - 1;
      Store(StoreAll(cookies, updates[..n]), updates[n])
  }

  function Updates(headers: seq<Header>, clock: Clock): seq<Update> {
    if headers == [] then []
    else
      var n := |headers| - 1;
      Updates(headers[..n], clock)
      + match ParseHeader(headers[n], clock)
        case None => []
        case Some(u) => [u]
  }

  function Merge(cookieHeader: string, headers: seq<Header>, clock: Clock): string {
    Format(StoreAll(ParseCookies(cookieHeader), Updates(headers, clock)))
  }

  method ReadAttributes(attributes: seq<string>, clock: Clock) returns (maxAge: Option<bool>, expires: Option<int>)
    ensures maxAge == LastMaxAge(attributes) && expires == LastExpires(attributes, clock)
  {
    hide Trim, AgeExpired, Same;
    maxAge, expires := None, None;
    for i := 0 to |attributes|
      invariant maxAge == LastMaxAge(attributes[..i]) && expires == LastExpires(attributes[..i], clock)
    {
      assert attributes[..i + 1][..i] == attributes[..i];
      KeysDiffer(attributes[i]);
      var pair := SplitOnce(Trim(attributes[i]), '=');
      if pair.None? {
        continue;
      }
      var (key, value) := pair.value;
      if Same(key, "max-age") {
        if AgeExpired(Trim(value)).Some? {
          maxAge := AgeExpired(Trim(value));
        }
      } else if Same(key, "expires") && clock.date(Trim(value)).Some? {
        expires := clock.date(Trim(value));
      }
    }
    assert attributes[..|attributes|] == attributes;
  }

  /** No attribute is both a Max-Age and an Expires. */
  lemma KeysDiffer(attribute: string)
    ensures Attribute(attribute, "max-age").None? || Attribute(attribute, "expires").None?
  {
    assert Lower("max-age")[0] == 'm' && Lower("expires")[0] == 'e';
  }

  lemma MergeStep(cookies: seq<Cookie>, headers: seq<Header>, i: nat, clock: Clock)
    requires i < |headers|
    ensures StoreAll(cookies, Updates(headers[..i + 1], clock)) ==
            var before := StoreAll(cookies, Updates(headers[..i], clock));
            match ParseHeader(headers[i], clock)
            case None => before
            case Some(u) => Store(before, u)
  {
    hide ParseHeader, Store;
    assert headers[..i + 1][..i] == headers[..i];
    var before := Updates(headers[..i], clock);
    assert before + [] == before;
    var u := ParseHeader(headers[i], clock);
    if u.Some? {
      assert (before + [u.value])[..|before|] == before;
    }
  }

  lemma NothingToStore(cookies: seq<Cookie>, clock: Clock)
    ensures StoreAll(cookies, Updates([], clock)) == cookies
  {
  }

  method MergeCookieHeader(cookieHeader: string, headers: seq<Header>, clock: Clock) returns (merged: string)
    ensures merged == Merge(cookieHeader, headers, clock)
  {
    hide Trim, Split, SplitOnce, ParseCookies, Without, LastMaxAge, LastExpires, Updates, StoreAll, Format;
    var cookies := ParseCookies(cookieHeader);
    NothingToStore(cookies, clock);
    assert headers[..0] == [];
    for i := 0 to |headers|
      invariant cookies == StoreAll(ParseCookies(cookieHeader), Updates(headers[..i], clock))
    {
      MergeStep(ParseCookies(cookieHeader), headers, i, clock);
      if headers[i].Opaque? {
        continue;
      }
      var parts := Split(headers[i].text, ";");
      var pair := SplitOnce(Trim(parts[0]), '=');
      if pair.None? {
        continue;
      }
      var (name, value) := pair.value;
      var maxAge, expires := ReadAttributes(parts[1..], clock);
      var expired := if maxAge.Some? then maxAge.value else expires.Some? && expires.value <= clock.now;
      var delete := value == "" || expired;
      cookies := Without(cookies, name);
      if !delete {
        cookies := cookies + [Cookie(name, value)];
      }
    }
    assert headers[..|headers|] == headers;
    merged := Format(cookies);
  }

  class NativeSession {
    const origin: string
    var cookieHeader: string
    var csrfToken: string

    constructor (origin: string, cookieHeader: string, csrfToken: string)
      ensures this.origin == origin && this.cookieHeader == cookieHeader && this.csrfToken == csrfToken
    {
      this.origin, this.cookieHeader, this.csrfToken := origin, cookieHeader, csrfToken;
    }

    method MergeResponseCookies(headers: seq<Header>, clock: Clock) returns (changed: bool)
      modifies this`cookieHeader
      ensures cookieHeader == Merge(old(cookieHeader), headers, clock)
      ensures changed <==> cookieHeader != old(cookieHeader)
    {
      var merged := MergeCookieHeader(cookieHeader, headers, clock);
      if merged == cookieHeader {
        return false;
      }
      cookieHeader := merged;
      changed := true;
    }
  }

  // --- Expiry ------------------------------------------------------------------------

  /** The number of seconds a Max-Age text denotes, at any length. */
  function SecondsOf(value: string): Option<int> {
    var digits := Digits(value);
    if digits == "" || !AllDigits(digits) then None
    else
      var n: int := NatOf(digits);
      Some(if "-" <= value then -n else n)
  }

  lemma {:induction false} ZeroDigits(digits: string)
    requires AllDigits(digits)
    ensures AllZeros(digits) <==> NatOf(digits) == 0
  {
    if digits == "" {
    } else {
      ZeroDigits(digits[..|digits| - 1]);
    }
  }

  /** The digit test is the sign of the number, without computing it. */
  lemma AgeExpiredIsNotPositive(value: string)
    ensures AgeExpired(value) == match SecondsOf(value) case None => None case Some(n) => Some(n <= 0)
  {
    if AllDigits(Digits(value)) {
      ZeroDigits(Digits(value));
    }
  }

  /** The last Max-Age that is a number. */
  function LastSeconds(attributes: seq<string>): Option<int> {
    if attributes == [] then None
    else
      var n := |attributes| - 1;
      match Attribute(attributes[n], "max-age")
      case None => LastSeconds(attributes[..n])
      case Some(value) => if SecondsOf(value).Some? then SecondsOf(value) else LastSeconds(attributes[..n])
  }

  lemma {:induction false} LastMaxAgeIsLastSeconds(attributes: seq<string>)
    ensures LastMaxAge(attributes) == match LastSeconds(attributes) case None => None case Some(n) => Some(n <= 0)
  {
    hide AgeExpired, SecondsOf, Attribute;
    if attributes == [] {
    } else {
      var n := |attributes| - 1;
      LastMaxAgeIsLastSeconds(attributes[..n]);
      var value := Attribute(attributes[n], "max-age");
      if value.Some? {
        AgeExpiredIsNotPositive(value.value);
      }
    }
  }

  /** A cookie is deleted when it is empty, when its last valid Max-Age is at most zero or,
    * only without a valid Max-Age, when its last valid date has passed. */
  lemma DeletesExactlyTheExpired(header: Header, clock: Clock)
    requires ParseHeader(header, clock).Some?
    ensures var u, attributes := ParseHeader(header, clock).value, Split(header.text, ";")[1..];
            u.delete <==>
              || u.value == ""
              || match LastSeconds(attributes)
                 case Some(n) => n <= 0
                 case None =>
                   var date := LastExpires(attributes, clock);
                   date.Some? && date.value <= clock.now
  {
    LastMaxAgeIsLastSeconds(Split(header.text, ";")[1..]);
  }

  // --- Last write wins ----------------------------------------------------------------

  predicate Touches(updates: seq<Update>, name: string) {
    exists i :: 0 <= i < |updates| && Same(updates[i].name, name)
  }

  /** The cookies no update names, in their order. */
  function Untouched(cookies: seq<Cookie>, updates: seq<Update>): seq<Cookie> {
    if cookies == [] then []
    else (if Touches(updates, cookies[0].name) then [] else [cookies[0]]) + Untouched(cookies[1..], updates)
  }

  /** The cookie an update leaves, unless it deletes or a later update has its name. */
  function Survivor(u: Update, later: seq<Update>): seq<Cookie> {
    if u.delete || Touches(later, u.name) then [] else [Cookie(u.name, u.value)]
  }

  /** The last update of each name, unless it deletes, in order of occurrence. */
  function Survivors(updates: seq<Update>): seq<Cookie> {
    if updates == [] then [] else Survivor(updates[0], updates[1..]) + Survivors(updates[1..])
  }

  lemma TouchesSnoc(updates: seq<Update>, u: Update, name: string)
    ensures Touches(updates + [u], name) <==> Touches(updates, name) || Same(u.name, name)
  {
    hide Same;
    var all := updates + [u];
    assert all[|updates|] == u;
    assert forall i :: 0 <= i < |updates| ==> all[i] == updates[i];
  }

  lemma {:induction false} WithoutConcat(a: seq<Cookie>, b: seq<Cookie>, name: string)
    ensures Without(a + b, name) == Without(a, name) + Without(b, name)
  {
    hide Same, Without;
    if a == [] {
      assert a + b == b;
      WithoutNothing(name);
    } else {
      WithoutConcat(a[1..], b, name);
      WithoutFirst(a, name);
      WithoutFirst(a + b, name);
      assert (a + b)[0] == a[0] && (a + b)[1..] == a[1..] + b;
    }
  }

  lemma WithoutNothing(name: string)
    ensures Without([], name) == []
  {
  }

  lemma WithoutFirst(cookies: seq<Cookie>, name: string)
    requires cookies != []
    ensures Same(cookies[0].name, name) ==> Without(cookies, name) == Without(cookies[1..], name)
    ensures !Same(cookies[0].name, name) ==> Without(cookies, name) == [cookies[0]] + Without(cookies[1..], name)
  {
    hide Same;
  }

  lemma {:induction false} UntouchedSnoc(cookies: seq<Cookie>, updates: seq<Update>, u: Update)
    ensures Without(Untouched(cookies, updates), u.name) == Untouched(cookies, updates + [u])
  {
    hide Same, Touches;
    if cookies == [] {
    } else {
      UntouchedSnoc(cookies[1..], updates, u);
      TouchesSnoc(updates, u, cookies[0].name);
      var first := if Touches(updates, cookies[0].name) then [] else [cookies[0]];
      WithoutConcat(first, Untouched(cookies[1..], updates), u.name);
      SameIsSymmetric(cookies[0].name, u.name);
    }
  }

  lemma SameIsSymmetric(a: string, b: string)
    ensures Same(a, b) <==> Same(b, a)
  {
  }

  lemma {:induction false} SurvivorsSnoc(updates: seq<Update>, u: Update)
    ensures Survivors(updates + [u]) == Store(Survivors(updates), u)
  {
    hide Same, Touches, Survivors, Survivor, Without, Store;
    if updates == [] {
      assert updates + [u] == [u] + [];
      SurvivorsFirst(u, []);
      NothingSurvives(u);
    } else {
      var x, rest := updates[0], updates[1..];
      assert updates == [x] + rest && updates + [u] == [x] + (rest + [u]);
      SurvivorsSnoc(rest, u);
      SurvivorsFirst(x, rest);
      SurvivorsFirst(x, rest + [u]);
      SurvivorSnoc(x, rest, u);
      StoreBehind(Survivor(x, rest), Survivors(rest), u);
    }
  }

  lemma SurvivorsFirst(u: Update, later: seq<Update>)
    ensures Survivors([u] + later) == Survivor(u, later) + Survivors(later)
  {
    hide Survivor;
    assert ([u] + later)[1..] == later;
  }

  lemma NothingSurvives(u: Update)
    ensures Survivors([]) == [] && Survivor(u, []) + [] == Store([], u)
  {
    hide Touches;
    NothingTouches(u.name);
  }

  /** One more update takes the cookie of `x` away when it has the same name. */
  lemma SurvivorSnoc(x: Update, later: seq<Update>, u: Update)
    ensures Survivor(x, later + [u]) == Without(Survivor(x, later), u.name)
  {
    hide Same, Touches;
    TouchesSnoc(later, u, x.name);
    SameIsSymmetric(x.name, u.name);
  }

  lemma StoreBehind(first: seq<Cookie>, rest: seq<Cookie>, u: Update)
    ensures Store(first + rest, u) == Without(first, u.name) + Store(rest, u)
  {
    hide Same, Without;
    WithoutConcat(first, rest, u.name);
  }

  lemma NothingTouches(name: string)
    ensures !Touches([], name)
  {
  }

  /** The jar after a merge: the untouched cookies in their order, then what is left of
    * the updates. */
  lemma {:induction false} LastWriteWins(cookies: seq<Cookie>, updates: seq<Update>)
    ensures StoreAll(cookies, updates) == Untouched(cookies, updates) + Survivors(updates)
  {
    hide Same, Touches;
    if updates == [] {
      UntouchedByNone(cookies);
    } else {
      var n := |updates| - 1;
      var before, u := updates[..n], updates[n];
      assert updates == before + [u];
      LastWriteWins(cookies, before);
      UntouchedSnoc(cookies, before, u);
      SurvivorsSnoc(before, u);
      WithoutConcat(Untouched(cookies, before), Survivors(before), u.name);
    }
  }

  lemma {:induction false} UntouchedByNone(cookies: seq<Cookie>)
    ensures Untouched(cookies, []) == cookies
  {
    hide Touches;
    if cookies == [] {
    } else {
      NothingTouches(cookies[0].name);
      UntouchedByNone(cookies[1..]);
    }
  }

  // --- Batches -------------------------------------------------------------------------

  /** Cookies that survive being written into a header and read back. */
  predicate Storable(c: Cookie) {
    '=' !in c.name && ';' !in c.name && ';' !in c.value && Trimmed(c.Show())
  }

  predicate AllStorable(cookies: seq<Cookie>) {
    forall c :: c in cookies ==> Storable(c)
  }

  /** Cutting a trimmed part without semicolons gives a storable cookie. */
  lemma PairIsStorable(part: string)
    requires ';' !in part && SplitOnce(Trim(part), '=').Some?
    ensures var (name, value) := SplitOnce(Trim(part), '=').value;
            Storable(Cookie(name, value))
  {
    TrimTrims(part);
    hide Trim, SplitOnce, IsSpace;
    var (name, value) := SplitOnce(Trim(part), '=').value;
    assert forall c :: c in name || c in value ==> c in Trim(part);
    assert Cookie(name, value).Show() == Trim(part);
  }

  lemma {:induction false} ParsedAreStorable(parts: seq<string>)
    requires forall p :: p in parts ==> ';' !in p
    ensures AllStorable(ParseParts(parts))
  {
    hide Storable, Trim, SplitOnce;
    if parts == [] {
    } else {
      assert parts[0] in parts;
      ParsedAreStorable(parts[1..]);
      if SplitOnce(Trim(parts[0]), '=').Some? {
        PairIsStorable(parts[0]);
      }
    }
  }

  lemma PiecesHaveNo(s: string, c: char)
    ensures forall p :: p in Split(s, [c]) ==> c !in p
  {
    SplitPieces(s, [c]);
    forall p | p in Split(s, [c]) ensures c !in p {
      CharContains(p, c);
    }
  }

  lemma UpdateIsStorable(header: Header, clock: Clock)
    requires ParseHeader(header, clock).Some?
    ensures var u := ParseHeader(header, clock).value; Storable(Cookie(u.name, u.value))
  {
    PiecesHaveNo(header.text, ';');
    hide Storable, Trim, Split;
    var first := Split(header.text, ";")[0];
    assert first in Split(header.text, ";");
    PairIsStorable(first);
  }

  lemma {:induction false} WithoutKeeps(cookies: seq<Cookie>, name: string)
    ensures forall c :: c in Without(cookies, name) ==> c in cookies
  {
    hide Same;
    if cookies == [] {
    } else {
      WithoutKeeps(cookies[1..], name);
    }
  }

  lemma {:induction false} MergedAreStorable(cookies: seq<Cookie>, headers: seq<Header>, clock: Clock)
    requires AllStorable(cookies)
    ensures AllStorable(StoreAll(cookies, Updates(headers, clock)))
  {
    hide Storable, ParseHeader, Without;
    if headers == [] {
    } else {
      var n := |headers| - 1;
      MergedAreStorable(cookies, headers[..n], clock);
      MergeStep(cookies, headers, n, clock);
      assert headers[..n + 1] == headers;
      var u := ParseHeader(headers[n], clock);
      if u.Some? {
        UpdateIsStorable(headers[n], clock);
        WithoutKeeps(StoreAll(cookies, Updates(headers[..n], clock)), u.value.name);
      }
    }
  }

  lemma {:induction false} PartsParseBack(cookies: seq<Cookie>, parts: seq<string>)
    requires AllStorable(cookies) && |parts| == |cookies|
    requires forall i :: 0 <= i < |parts| ==> Trim(parts[i]) == cookies[i].Show()
    ensures ParseParts(parts) == cookies
  {
    hide Trim;
    if cookies == [] {
    } else {
      assert cookies[0] in cookies;
      SplitOnceAt(cookies[0].name, '=', cookies[0].value);
      PartsParseBack(cookies[1..], parts[1..]);
    }
  }

  /** A space in front of every part but the first. */
  function Spaced(parts: seq<string>): (r: seq<string>)
    ensures |r| == |parts|
    ensures forall i :: 0 <= i < |parts| ==> r[i] == if i == 0 then parts[0] else " " + parts[i]
  {
    seq(|parts|, i requires 0 <= i < |parts| => if i == 0 then parts[0] else " " + parts[i])
  }

  lemma {:induction false} JoinSpaced(parts: seq<string>)
    ensures Join(parts, "; ") == Join(Spaced(parts), ";")
  {
    if |parts| <= 1 {
    } else {
      var n := |parts| - 1;
      var front, x := parts[..n], parts[n];
      JoinSpaced(front);
      assert parts == front + [x];
      assert Spaced(parts) == Spaced(front) + [" " + x];
      hide Join, Spaced;
      JoinSnoc(front, x, "; ");
      JoinSnoc(Spaced(front), " " + x, ";");
      SpaceMoves(Join(front, "; "), x);
    }
  }

  lemma SpaceMoves(a: string, x: string)
    ensures a + "; " + x == a + ";" + (" " + x)
  {
    assert "; " == ";" + " ";
  }

  lemma TrimSpaced(part: string)
    requires Trimmed(part)
    ensures Trim(" " + part) == part && Trim(part) == part
  {
    SpaceIsSpace();
    TrimTrims(part);
    hide IsSpace, TrimStart, TrimEnd, Trimmed;
    LeadingSpace(" " + part);
    assert (" " + part)[1..] == part;
  }

  lemma SpaceIsSpace()
    ensures IsSpace(' ')
  {
  }

  lemma LeadingSpace(s: string)
    requires s != "" && IsSpace(s[0])
    ensures TrimStart(s) == TrimStart(s[1..])
  {
    hide IsSpace;
  }

  /** Reading a written jar gives the jar back. */
  lemma FormatParses(cookies: seq<Cookie>)
    requires AllStorable(cookies)
    ensures ParseCookies(Format(cookies)) == cookies
  {
    hide Trim, Trimmed, SplitOnce, Split, ParseParts;
    if cookies == [] {
      EmptyParses();
    } else {
      var parts := Spaced(Shown(cookies));
      JoinSpaced(Shown(cookies));
      forall i | 0 <= i < |parts| ensures ';' !in parts[i] && Trim(parts[i]) == cookies[i].Show() {
        assert cookies[i] in cookies;
        TrimSpaced(cookies[i].Show());
      }
      SplitJoinChar(parts, ';');
      PartsParseBack(cookies, parts);
    }
  }

  lemma EmptyParses()
    ensures ParseCookies(Format([])) == []
  {
    assert Format([]) == "";
    CharContains("", ';');
    SplitWhole("", ";");
    NothingRead();
    hide Split, ParseParts, Format;
  }

  lemma NothingRead()
    ensures ParseParts([""]) == []
  {
    hide Split;
    assert Trim("") == "" && SplitOnce("", '=') == None;
    assert [""][1..] == [];
    assert ParseParts([]) == [];
  }

  lemma {:induction false} UpdatesConcat(a: seq<Header>, b: seq<Header>, clock: Clock)
    ensures Updates(a + b, clock) == Updates(a, clock) + Updates(b, clock)
  {
    hide ParseHeader;
    if b == [] {
      assert a + b == a;
    } else {
      var n := |b| - 1;
      UpdatesConcat(a, b[..n], clock);
      assert (a + b)[..|a + b| - 1] == a + b[..n];
    }
  }

  lemma {:induction false} StoreAllConcat(cookies: seq<Cookie>, a: seq<Update>, b: seq<Update>)
    ensures StoreAll(cookies, a + b) == StoreAll(StoreAll(cookies, a), b)
  {
    hide Store;
    if b == [] {
      assert a + b == a;
    } else {
      var n := |b| - 1;
      StoreAllConcat(cookies, a, b[..n]);
      assert (a + b)[..|a + b| - 1] == a + b[..n];
    }
  }

  lemma MergedParses(cookieHeader: string, headers: seq<Header>, clock: Clock)
    ensures ParseCookies(Merge(cookieHeader, headers, clock)) == StoreAll(ParseCookies(cookieHeader), Updates(headers, clock))
  {
    hide ParseParts, StoreAll, Updates, AllStorable;
    PiecesHaveNo(cookieHeader, ';');
    ParsedAreStorable(Split(cookieHeader, ";"));
    MergedAreStorable(ParseCookies(cookieHeader), headers, clock);
    FormatParses(StoreAll(ParseCookies(cookieHeader), Updates(headers, clock)));
  }

  /** Two batches merged one after the other are one batch. */
  lemma BatchesMergeAsOne(cookieHeader: string, a: seq<Header>, b: seq<Header>, clock: Clock)
    ensures Merge(Merge(cookieHeader, a, clock), b, clock) == Merge(cookieHeader, a + b, clock)
  {
    hide ParseCookies, StoreAll, Updates, Format;
    MergedParses(cookieHeader, a, clock);
    UpdatesConcat(a, b, clock);
    StoreAllConcat(ParseCookies(cookieHeader), Updates(a, clock), Updates(b, clock));
  }

  lemma {:induction false} UntouchedTwice(cookies: seq<Cookie>, updates: seq<Update>)
    ensures Untouched(Untouched(cookies, updates), updates) == Untouched(cookies, updates)
  {
    hide Touches;
    if cookies == [] {
    } else {
      UntouchedTwice(cookies[1..], updates);
      var rest := Untouched(cookies[1..], updates);
      assert ([cookies[0]] + rest)[1..] == rest;
      assert [] + rest == rest;
    }
  }

  lemma {:induction false} UntouchedConcat(a: seq<Cookie>, b: seq<Cookie>, updates: seq<Update>)
    ensures Untouched(a + b, updates) == Untouched(a, updates) + Untouched(b, updates)
  {
    hide Touches, Untouched;
    if a == [] {
      assert a + b == b;
      UntouchedNothing(updates);
    } else {
      UntouchedConcat(a[1..], b, updates);
      assert (a + b)[1..] == a[1..] + b;
      UntouchedFirst(a, updates);
      UntouchedFirst(a + b, updates);
    }
  }

  lemma UntouchedNothing(updates: seq<Update>)
    ensures Untouched([], updates) == []
  {
  }

  lemma UntouchedFirst(cookies: seq<Cookie>, updates: seq<Update>)
    requires cookies != []
    ensures Untouched(cookies, updates) ==
            (if Touches(updates, cookies[0].name) then [] else [cookies[0]]) + Untouched(cookies[1..], updates)
  {
    hide Touches;
  }

  lemma {:induction false} SurvivorsAreTouched(all: seq<Update>, k: nat)
    requires k <= |all|
    ensures Untouched(Survivors(all[k..]), all) == []
    decreases |all| - k
  {
    hide Touches, Same;
    if k < |all| {
      SurvivorsAreTouched(all, k + 1);
      assert all[k..][1..] == all[k + 1..];
      NamesItself(all, k);
      UntouchedConcat(Survivor(all[k], all[k + 1..]), Survivors(all[k + 1..]), all);
    }
  }

  lemma NamesItself(updates: seq<Update>, k: nat)
    requires k < |updates|
    ensures Touches(updates, updates[k].name)
  {
    assert Same(updates[k].name, updates[k].name);
  }

  /** Merging the same batch again changes nothing. */
  lemma MergingTwiceIsOnce(cookieHeader: string, headers: seq<Header>, clock: Clock)
    ensures Merge(Merge(cookieHeader, headers, clock), headers, clock) == Merge(cookieHeader, headers, clock)
  {
    hide ParseCookies, StoreAll, Updates, Format;
    var jar, us := ParseCookies(cookieHeader), Updates(headers, clock);
    MergedParses(cookieHeader, headers, clock);
    LastWriteWins(jar, us);
    LastWriteWins(StoreAll(jar, us), us);
    UntouchedConcat(Untouched(jar, us), Survivors(us), us);
    UntouchedTwice(jar, us);
    assert us[0..] == us;
    SurvivorsAreTouched(us, 0);
    assert Untouched(jar, us) + [] == Untouched(jar, us);
  }

  // --- What a header says ---------------------------------------------------------------

  lemma {:induction false} TrimStartKeeps(s: string, c: char)
    requires !IsSpace(c)
    ensures c in s <==> c in TrimStart(s)
  {
    hide IsSpace;
    if s != "" && IsSpace(s[0]) {
      assert s == [s[0]] + s[1..];
      TrimStartKeeps(s[1..], c);
    }
  }

  lemma {:induction false} TrimEndKeepsChar(s: string, c: char)
    requires !IsSpace(c)
    ensures c in s <==> c in TrimEnd(s)
  {
    hide IsSpace;
    if s != "" && IsSpace(s[|s| - 1]) {
      var n := |s| - 1;
      assert s == s[..n] + [s[n]];
      TrimEndKeepsChar(s[..n], c);
    }
  }

  lemma TrimKeepsEquals(s: string)
    ensures '=' in s <==> '=' in Trim(s)
  {
    assert !IsSpace('=');
    hide IsSpace;
    TrimStartKeeps(s, '=');
    TrimEndKeepsChar(TrimStart(s), '=');
  }

  /** A header gives an update if and only if it is text with a `=` before its first `;`; the
    * name is what stands before the first `=` there, trimmed in front, and the value the rest,
    * trimmed behind. */
  lemma HeadersThatUpdate(header: Header, clock: Clock)
    ensures ParseHeader(header, clock).Some? <==> header.Plain? && '=' in Split(header.text, ";")[0]
    ensures ParseHeader(header, clock).Some? ==>
              var u, first := ParseHeader(header, clock).value, Split(header.text, ";")[0];
              '=' !in u.name && u.name + "=" + u.value == Trim(first)
  {
    hide Split, Trim, LastMaxAge, LastExpires;
    if header.Plain? {
      TrimKeepsEquals(Split(header.text, ";")[0]);
    }
  }

  /** An attribute has a value if and only if it is that key, in any case, before a `=`. */
  lemma AttributesByKey(text: string, key: string, k: string, v: string)
    ensures Trim(text) == k + "=" + v && '=' !in k ==>
              Attribute(text, key) == if Lower(k) == Lower(key) then Some(Trim(v)) else None
    ensures '=' !in Trim(text) ==> Attribute(text, key) == None
  {
    hide Trim, Lower;
    if Trim(text) == k + "=" + v && '=' !in k {
      SplitOnceAt(k, '=', v);
      assert k + ['='] + v == k + "=" + v;
    }
  }
}
