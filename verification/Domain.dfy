/** Restricting an encoded query to the records of one domain. */
module Domain {
  import opened Prelude
  import opened Text
  import opened EncodedQuery

  predicate IsHex(c: char) {
    '0' <= c <= '9' || 'a' <= c <= 'f' || 'A' <= c <= 'F'
  }

  predicate IsSysId(s: string) {
    |s| == 32 && forall i :: 0 <= i < |s| ==> IsHex(s[i])
  }

  type SysId = s: string | IsSysId(s) witness seq(32, i => '0')

  datatype DomainId = Global | Domain(id: SysId) {
    function Display(): string {
      match this
      case Global => "global"
      case Domain(id) => id
    }
  }

  function FromString(value: string): Option<DomainId> {
    if value == "global" then Some(Global)
    else if IsSysId(value) then Some(Domain(value))
    else None
  }

  /** The condition a restricted query must impose. */
  function Condition(d: DomainId): string {
    "sys_domain=" + d.Display()
  }

  predicate EndsStopped(branch: string) {
    |branch| >= 3 && branch[|branch| - 3..] == "^EQ"
  }

  function StripStop(branch: string): string {
    if EndsStopped(branch) then branch[..|branch| - 3] else branch
  }

  function FirstTerm(terms: seq<string>): string {
    if terms == [] then "" else if terms[0] != "" then terms[0] else FirstTerm(terms[1..])
  }

  predicate Acceptable(branch: string) {
    && (forall t :: t in Terms(StripStop(branch)) ==> !Stops(t))
    && !Widens(FirstTerm(Terms(StripStop(branch))))
  }

  function Constrain(branch: string, condition: string): string {
    var kept := StripStop(branch);
    if kept == "" then condition else kept + "^" + condition
  }

  function ConstrainAll(branches: seq<string>, condition: string): (r: seq<string>)
    ensures |r| == |branches|
    ensures forall i :: 0 <= i < |r| ==> r[i] == Constrain(branches[i], condition)
  {
    seq(|branches|, i requires 0 <= i < |branches| => Constrain(branches[i], condition))
  }

  /** None when some branch has an inner EQ or leads with OR. */
  function Apply(d: DomainId, query: string): Option<string> {
    var branches := Split(query, "^NQ");
    if forall b :: b in branches ==> Acceptable(b) then
      Some(Join(ConstrainAll(branches, Condition(d)), "^NQ"))
    else None
  }

  method ApplyToQuery(d: DomainId, query: Option<string>) returns (r: Option<string>)
    ensures r == Apply(d, if query.Some? then query.value else "")
  {
    hide Split, Find, Join, Stops, Sorts, Widens, FirstTerm, IsSysId, ConstrainAll;
    var text := if query.Some? then query.value else "";
    var parts := Split(text, "^NQ");
    var branches: seq<string> := [];
    NothingConstrained(parts, Condition(d));
    for i := 0 to |parts|
      invariant forall j :: 0 <= j < i ==> Acceptable(parts[j])
      invariant branches == ConstrainAll(parts[..i], Condition(d))
    {
      var branch := StripStop(parts[i]);
      var leadingOr := Widens(FirstTerm(Terms(branch)));
      if leadingOr || exists t :: t in Terms(branch) && Stops(t) {
        assert parts[i] in parts && !Acceptable(parts[i]);
        return None;
      }
      var condition := "sys_domain=" + d.Display();
      branches := branches + [if branch == "" then condition else branch + "^" + condition];
      ConstrainedSnoc(parts, i, Condition(d));
    }
    assert parts[..|parts|] == parts;
    r := Some(Join(branches, "^NQ"));
  }

  lemma NothingConstrained(parts: seq<string>, condition: string)
    ensures ConstrainAll(parts[..0], condition) == []
  {
  }

  lemma ConstrainedSnoc(parts: seq<string>, i: nat, condition: string)
    requires i < |parts|
    ensures ConstrainAll(parts[..i + 1], condition) == ConstrainAll(parts[..i], condition) + [Constrain(parts[i], condition)]
  {
    hide Constrain;
  }

  // --- The added condition -----------------------------------------------------

  /** The condition is one plain term: it neither stops, sorts nor widens. */
  lemma ConditionIsPlain(d: DomainId)
    ensures var c := Condition(d); '^' !in c && !Stops(c) && !Sorts(c) && !Widens(c) && c != ""
  {
    var c := Condition(d);
    assert c[0] == 's';
    if d.Domain? {
      assert forall i :: 0 <= i < |d.id| ==> d.id[i] != '^';
    }
  }

  /** ... and stands in a group of its own, after everything the branch had. */
  lemma ConstrainedGroups(branch: string, d: DomainId)
    requires Acceptable(branch)
    ensures var terms := Terms(Constrain(branch, Condition(d)));
            && Live(terms) == terms
            && Groups(terms) == Groups(Live(Terms(branch))) + [[Condition(d)]]
    ensures Live(Terms(branch)) == Terms(branch) <==> !EndsStopped(branch)
  {
    hide Split, Groups, Live, Condition, Stops, Sorts, Widens, Find;
    var kept, c := StripStop(branch), Condition(d);
    ConditionIsPlain(d);
    StrippedTerms(branch);
    LiveAll(Terms(kept));
    if kept == "" {
      ConditionAlone(c);
    } else {
      assert "^" == ['^'];
      SplitSnoc(kept, '^', c);
      GroupsSnoc(Terms(kept), c);
      LiveAll(Terms(kept) + [c]);
    }
  }

  lemma ConditionAlone(c: string)
    requires '^' !in c && !Stops(c) && !Sorts(c) && !Widens(c) && c != ""
    ensures Terms(c) == [c] && Live([c]) == [c] && Groups([c]) == [[c]]
    ensures Groups(Terms("")) == []
  {
    hide Stops, Sorts, Widens;
    assert Terms("") == [""];
    assert [""] == [] + [""] && [c] == [] + [c];
    GroupsSnoc([], "");
    GroupsSnoc([], c);
    CharContains(c, '^');
    LiveAll([c]);
  }

  lemma StrippedTerms(branch: string)
    requires Acceptable(branch)
    ensures Live(Terms(branch)) == Terms(StripStop(branch))
    ensures Live(Terms(branch)) == Terms(branch) <==> !EndsStopped(branch)
  {
    var kept := StripStop(branch);
    LiveAll(Terms(kept));
    if EndsStopped(branch) {
      assert branch == kept + ['^'] + "EQ";
      SplitSnoc(kept, '^', "EQ");
      LiveBeforeStop(Terms(kept), "EQ");
    }
  }

  // --- Splitting the output ------------------------------------------------------

  lemma SeparatorIsInBranch(branch: string, d: DomainId, i: nat)
    requires Occurs(Constrain(branch, Condition(d)), "^NQ", i)
    ensures Occurs(branch, "^NQ", i)
  {
    var kept, c := StripStop(branch), Condition(d);
    var r := Constrain(branch, c);
    ConditionIsPlain(d);
    assert r[i..][..3] == "^NQ";
    assert r[i] == '^' && r[i + 1] == 'N' && r[i + 2] == 'Q';
    assert c[0] == 's';
    assert forall j :: |r| - |c| <= j < |r| ==> r[j] == c[j - (|r| - |c|)];
    assert i + 3 <= |kept|;
    assert branch[i..][..3] == r[i..][..3];
  }

  /** A constrained branch holds no branch separator, not even across the seam. */
  lemma ConstrainedHasNoSeparator(branch: string, d: DomainId)
    requires !Contains(branch, "^NQ")
    ensures !Contains(Constrain(branch, Condition(d)), "^NQ")
  {
    hide Occurs, Constrain;
    var found := Find(Constrain(branch, Condition(d)), "^NQ");
    if found.Some? {
      SeparatorIsInBranch(branch, d, found.value);
    }
  }

  /** Splitting the result gives back exactly the constrained branches. */
  lemma SplitOfResult(d: DomainId, query: string)
    requires Apply(d, query).Some?
    ensures Split(Apply(d, query).value, "^NQ") == ConstrainAll(Split(query, "^NQ"), Condition(d))
  {
    var branches := Split(query, "^NQ");
    var parts := ConstrainAll(branches, Condition(d));
    NextBranchBorderless();
    SplitPieces(query, "^NQ");
    forall i | 0 <= i < |parts| ensures Separable(parts[i], "^NQ") && !Contains(parts[i], "^NQ") {
      assert branches[i] in branches;
      ConstrainedHasNoSeparator(branches[i], d);
      PieceSeparable(parts[i], "^NQ");
    }
    SplitJoin(parts, "^NQ");
  }

  // --- What the result means -------------------------------------------------------

  /** The branches as the server would read them if no EQ cut the query short. */
  function AllBranches(branches: seq<string>): (r: seq<Branch>)
    ensures |r| == |branches|
  {
    if branches == [] then [] else [Groups(Live(Terms(branches[0])))] + AllBranches(branches[1..])
  }

  function WithCondition(branches: seq<Branch>, condition: string): (r: seq<Branch>)
    ensures |r| == |branches|
    ensures forall i :: 0 <= i < |r| ==> r[i] == branches[i] + [[condition]]
  {
    seq(|branches|, i requires 0 <= i < |branches| => branches[i] + [[condition]])
  }

  /** No branch but the last ends in EQ, so nothing behind it was cut off. */
  predicate StopsOnlyAtEnd(branches: seq<string>) {
    forall i :: 0 <= i < |branches| - 1 ==> !EndsStopped(branches[i])
  }

  lemma {:induction false} ParsedConstrained(branches: seq<string>, d: DomainId)
    requires forall b :: b in branches ==> Acceptable(b)
    ensures ParseBranches(ConstrainAll(branches, Condition(d))) == WithCondition(AllBranches(branches), Condition(d))
  {
    hide Split, Find, Groups, Live, Acceptable, Constrain, Condition, EndsStopped, WithCondition, ConstrainAll;
    var c := Condition(d);
    if branches == [] {
    } else {
      var parts := ConstrainAll(branches, c);
      ConstrainedGroups(branches[0], d);
      assert parts[1..] == ConstrainAll(branches[1..], c);
      ParsedConstrained(branches[1..], d);
      ConditionFirst(Groups(Live(Terms(branches[0]))), AllBranches(branches[1..]), c);
    }
  }

  lemma ConditionFirst(first: Branch, rest: seq<Branch>, condition: string)
    ensures WithCondition([first] + rest, condition) == [first + [[condition]]] + WithCondition(rest, condition)
  {
  }

  lemma {:induction false} ParsedOriginal(branches: seq<string>, d: DomainId)
    requires forall b :: b in branches ==> Acceptable(b)
    ensures ParseBranches(branches) <= AllBranches(branches)
    ensures |ParseBranches(branches)| == |branches| <==> StopsOnlyAtEnd(branches)
  {
    hide Split, Find, Groups, Live, Acceptable, Constrain, Condition, EndsStopped;
    if branches == [] {
    } else {
      ConstrainedGroups(branches[0], d);
      ParsedOriginal(branches[1..], d);
      assert forall i :: 0 <= i < |branches| - 1 ==> branches[1..][i] == branches[i + 1];
    }
  }

  /** The server reads the result as every branch of the query, each with the domain
    * condition as one more group. It reads exactly the original's branches that way
    * if and only if no branch but the last ends in EQ. */
  lemma ResultAddsOneGroupPerBranch(d: DomainId, query: string)
    requires Apply(d, query).Some?
    ensures Parse(Apply(d, query).value) == WithCondition(AllBranches(Split(query, "^NQ")), Condition(d))
    ensures Parse(query) <= AllBranches(Split(query, "^NQ"))
    ensures Parse(Apply(d, query).value) == WithCondition(Parse(query), Condition(d)) <==> StopsOnlyAtEnd(Split(query, "^NQ"))
  {
    var branches := Split(query, "^NQ");
    SplitOfResult(d, query);
    ParsedConstrained(branches, d);
    ParsedOriginal(branches, d);
    assert |Parse(query)| == |branches| ==> Parse(query) == AllBranches(branches);
  }

  lemma HoldsWithCondition(b: Branch, condition: string, holds: string -> bool)
    ensures Holds(b + [[condition]], holds) <==> Holds(b, holds) && holds(condition)
  {
    var group := [condition];
    assert group in b + [group];
    assert forall g :: g in b + [group] <==> g in b || g == group;
    assert condition in group;
  }

  ghost predicate SomeHolds(branches: seq<Branch>, holds: string -> bool) {
    exists i :: 0 <= i < |branches| && Holds(branches[i], holds)
  }

  /** Some branch holds that the original query never reaches, an EQ stopping it before. */
  ghost predicate SelectsHidden(query: string, holds: string -> bool) {
    var all := AllBranches(Split(query, "^NQ"));
    |Parse(query)| <= |all| && SomeHolds(all[|Parse(query)|..], holds)
  }

  lemma SelectsSome(query: string, holds: string -> bool)
    ensures Selects(query, holds) <==> SomeHolds(Parse(query), holds)
  {
    hide Parse, Holds;
    if Selects(query, holds) {
      var b :| b in Parse(query) && Holds(b, holds);
      var i :| 0 <= i < |Parse(query)| && Parse(query)[i] == b;
    }
    if SomeHolds(Parse(query), holds) {
      var i :| 0 <= i < |Parse(query)| && Holds(Parse(query)[i], holds);
      assert Parse(query)[i] in Parse(query);
    }
  }

  lemma SomeHoldsSplits(all: seq<Branch>, read: seq<Branch>, holds: string -> bool)
    requires read <= all
    ensures SomeHolds(all, holds) <==> SomeHolds(read, holds) || SomeHolds(all[|read|..], holds)
  {
    hide Holds;
    assert forall i :: |read| <= i < |all| ==> all[i] == all[|read|..][i - |read|];
  }

  lemma SomeHoldsWithCondition(all: seq<Branch>, c: string, holds: string -> bool)
    ensures SomeHolds(WithCondition(all, c), holds) <==> SomeHolds(all, holds) && holds(c)
  {
    hide Holds;
    forall i | 0 <= i < |all| ensures Holds(WithCondition(all, c)[i], holds) <==> Holds(all[i], holds) && holds(c) {
      HoldsWithCondition(all[i], c, holds);
    }
  }

  /** Every record the result selects is in the domain. The result selects what the
    * query selects within the domain, plus what an early EQ had hidden. */
  lemma ResultMeansQueryWithinDomain(d: DomainId, query: string, holds: string -> bool)
    requires Apply(d, query).Some?
    ensures Selects(Apply(d, query).value, holds)
        <==> holds(Condition(d)) && (Selects(query, holds) || SelectsHidden(query, holds))
    ensures StopsOnlyAtEnd(Split(query, "^NQ")) ==> !SelectsHidden(query, holds)
  {
    var all := AllBranches(Split(query, "^NQ"));
    ResultAddsOneGroupPerBranch(d, query);
    ParsedOriginal(Split(query, "^NQ"), d);
    hide Apply, Parse, AllBranches, Split, Condition, Selects;
    SelectsSome(query, holds);
    SelectsSome(Apply(d, query).value, holds);
    SomeHoldsSplits(all, Parse(query), holds);
    SomeHoldsWithCondition(all, Condition(d), holds);
  }

  /** For accepted queries without an early EQ, the result is exactly "the query, in
    * this domain". */
  lemma ResultIsExact(d: DomainId, query: string, holds: string -> bool)
    requires Apply(d, query).Some? && StopsOnlyAtEnd(Split(query, "^NQ"))
    ensures Selects(Apply(d, query).value, holds) <==> Selects(query, holds) && holds(Condition(d))
  {
    ResultMeansQueryWithinDomain(d, query, holds);
  }

  /** An EQ that ends an earlier branch hides the rest of the query, yet it is dropped
    * like a final one: the result then selects what the query never did. */
  lemma EarlyStopIsNotExact(d: DomainId)
    ensures var query := "a=1^EQ^NQb=2";
            var holds := (c: string) => c == "b=2" || c == Condition(d);
            && Apply(d, query).Some? && !StopsOnlyAtEnd(Split(query, "^NQ"))
            && Selects(Apply(d, query).value, holds) && !Selects(query, holds)
  {
    hide Split, Acceptable, Groups, Live, Terms, Apply, StopsOnlyAtEnd, Selects;
    BranchTerms();
    var query := "a=1^EQ^NQb=2";
    var holds := (c: string) => c == "b=2" || c == Condition(d);
    TwoBranches();
    assert "a=1"[0] == 'a' && "EQ"[0] == 'E' && "OR"[0] == 'O';
    OneTermAcceptable("a=1^EQ", "a=1");
    OneTermAcceptable("b=2", "b=2");
    SomeTerms("a=1^EQ", "b=2");
    assert Condition(d)[0] == 's';
    assert EndsStopped("a=1^EQ");
    hide *;
    HiddenBranchSelected(d, query, "a=1^EQ", "b=2", "a=1", "b=2", holds);
  }

  lemma OneTermAcceptable(branch: string, term: string)
    requires StripStop(branch) == term && Terms(term) == [term]
    requires term != "" && !Stops(term) && !Widens(term)
    ensures Acceptable(branch)
  {
    hide Split;
  }

  lemma HiddenBranchSelected(d: DomainId, query: string, first: string, second: string, x: string, y: string, holds: string -> bool)
    requires Split(query, "^NQ") == [first, second] && Acceptable(first) && Acceptable(second) && EndsStopped(first)
    requires Groups(Live(Terms(first))) == [[x]] && Groups(Live(Terms(second))) == [[y]]
    requires !holds(x) && holds(y) && holds(Condition(d))
    ensures Apply(d, query).Some? && !StopsOnlyAtEnd(Split(query, "^NQ"))
    ensures Selects(Apply(d, query).value, holds) && !Selects(query, holds)
  {
    assert forall b :: b in [first, second] ==> Acceptable(b);
    assert Apply(d, query).Some?;
    assert EndsStopped([first, second][0]);
    EarlyStopReading(d, first, second, x, y);
    hide Split, Acceptable, Groups, Live, Terms, Condition, Apply, ParseBranches, AllBranches, Selects, Holds;
    assert Parse(query) == [[[x]]];
    HoldsOne(x, holds);
    HoldsOne(y, holds);
    SelectsSome(query, holds);
    ResultMeansQueryWithinDomain(d, query, holds);
    assert [[[x]], [[y]]][1..][0] == [[y]];
  }

  lemma EarlyStopReading(d: DomainId, first: string, second: string, x: string, y: string)
    requires Acceptable(first) && Acceptable(second) && EndsStopped(first)
    requires Groups(Live(Terms(first))) == [[x]] && Groups(Live(Terms(second))) == [[y]]
    ensures ParseBranches([first, second]) == [[[x]]] && AllBranches([first, second]) == [[[x]], [[y]]]
  {
    ConstrainedGroups(first, d);
    hide Split, Acceptable, Groups, Live, Terms, Condition;
    assert [first, second][1..] == [second];
    assert AllBranches([second]) == [[[y]]];
  }

  lemma HoldsOne(x: string, holds: string -> bool)
    ensures Holds([[x]], holds) <==> holds(x)
  {
    assert [x] in [[x]] && x in [x];
  }

  lemma NeedsItsLetter(text: string)
    requires 'N' !in text
    ensures !Contains(text, "^NQ")
  {
    hide Contains;
    if Contains(text, "^NQ") {
      ContainsNeeds(text, "^NQ", 1);
    }
  }

  lemma TwoBranches()
    ensures Split("a=1^EQ^NQb=2", "^NQ") == ["a=1^EQ", "b=2"]
  {
    hide Split, Find, Occurs, Contains, Separable, Borderless;
    NextBranchBorderless();
    NeedsItsLetter("a=1^EQ");
    NeedsItsLetter("b=2");
    PieceSeparable("a=1^EQ", "^NQ");
    SplitFirst("a=1^EQ", "b=2", "^NQ");
    SplitWhole("b=2", "^NQ");
    assert "a=1^EQ" + "^NQ" + "b=2" == "a=1^EQ^NQb=2";
  }

  lemma BranchTerms()
    ensures Terms("a=1^EQ") == ["a=1", "EQ"] && Terms("a=1") == ["a=1"] && Terms("b=2") == ["b=2"]
  {
    SplitJoinChar(["a=1"], '^');
    SplitJoinChar(["b=2"], '^');
    SplitSnoc("a=1", '^', "EQ");
    assert "a=1" + ['^'] + "EQ" == "a=1^EQ";
  }

  lemma SomeTerms(first: string, second: string)
    requires first == "a=1^EQ" && second == "b=2"
    ensures Live(Terms(first)) == ["a=1"] && Groups(["a=1"]) == [["a=1"]]
    ensures Live(Terms(second)) == ["b=2"] && Groups(["b=2"]) == [["b=2"]]
  {
    BranchTerms();
    PlainStart("a=1");
    PlainStart("b=2");
    assert Stops("EQ");
    hide *;
    ReadOfOne("a=1");
    ReadOfOne("b=2");
    LiveBeforeStop(["a=1"], "EQ");
    assert ["a=1"] + ["EQ"] == ["a=1", "EQ"];
  }

  lemma PlainStart(term: string)
    requires term != "" && 'a' <= term[0] <= 'z'
    ensures !Stops(term) && !Sorts(term) && !Widens(term)
  {
  }

  lemma ReadOfOne(term: string)
    requires term != "" && !Stops(term) && !Sorts(term) && !Widens(term)
    ensures Live([term]) == [term] && Groups([term]) == [[term]]
  {
    hide Stops, Sorts, Widens, Groups;
    LiveAll([term]);
    GroupsNothing();
    GroupsSnoc([], term);
    assert [] + [term] == [term] && [] + [[term]] == [[term]];
  }

  lemma GroupsNothing()
    ensures Groups([]) == []
  {
  }

  // --- Which queries are accepted ------------------------------------------------------

  /** Nothing stops the parse but a final `EQ` term, and what comes before every condition,
    * sort clause or other text of the branch is no OR term. */
  predicate Restrictable(terms: seq<string>) {
    && (forall i :: 0 <= i < |terms| && Stops(terms[i]) ==> 0 < i == |terms| - 1 && terms[i] == "EQ")
    && OpensPlainly(terms)
  }

  /** A term with only empty terms before it is no OR term. */
  predicate OpensPlainly(terms: seq<string>) {
    forall i :: 0 <= i < |terms| && (forall j :: 0 <= j < i ==> terms[j] == "") ==> !Widens(terms[i])
  }

  lemma {:induction false} FirstTermOpens(terms: seq<string>)
    ensures Widens(FirstTerm(terms)) <==> !OpensPlainly(terms)
  {
    hide Widens;
    NothingWidens();
    if terms == [] {
    } else if terms[0] != "" {
      if !Widens(terms[0]) {
        forall i | 0 <= i < |terms| && (forall j :: 0 <= j < i ==> terms[j] == "") ensures !Widens(terms[i]) {
          assert i == 0;
        }
      }
    } else {
      FirstTermOpens(terms[1..]);
      OpensBehindEmpty(terms);
    }
  }

  lemma NothingWidens()
    ensures !Widens("")
  {
  }

  lemma OpensBehindEmpty(terms: seq<string>)
    requires terms != [] && terms[0] == "" && !Widens("")
    ensures OpensPlainly(terms) <==> OpensPlainly(terms[1..])
  {
    hide Widens;
    var rest := terms[1..];
    if OpensPlainly(terms) {
      forall i | 0 <= i < |rest| && (forall j :: 0 <= j < i ==> rest[j] == "") ensures !Widens(rest[i]) {
        assert forall j :: 0 < j < i + 1 ==> terms[j] == rest[j - 1];
        assert rest[i] == terms[i + 1];
      }
    }
    if OpensPlainly(rest) {
      forall i | 0 <= i < |terms| && (forall j :: 0 <= j < i ==> terms[j] == "") ensures !Widens(terms[i]) {
        if i > 0 {
          assert forall j :: 0 <= j < i - 1 ==> rest[j] == terms[j + 1];
          assert terms[i] == rest[i - 1];
        }
      }
    }
  }

  /** The suffix that is cut off is a last term of its own. */
  lemma StoppedTerms(branch: string)
    ensures EndsStopped(branch) ==> Terms(branch) == Terms(StripStop(branch)) + ["EQ"]
    ensures !EndsStopped(branch) ==> |Terms(branch)| == 1 || Terms(branch)[|Terms(branch)| - 1] != "EQ"
  {
    hide Split, Find, Join;
    if EndsStopped(branch) {
      assert branch == StripStop(branch) + ['^'] + "EQ";
      SplitSnoc(StripStop(branch), '^', "EQ");
    } else if |Terms(branch)| > 1 && Terms(branch)[|Terms(branch)| - 1] == "EQ" {
      var front := Terms(branch)[..|Terms(branch)| - 1];
      assert Terms(branch) == front + ["EQ"];
      JoinSplit(branch, "^");
      JoinSnoc(front, "EQ", "^");
      EndsInStop(Join(front, "^"));
    }
  }

  lemma EndsInStop(front: string)
    ensures EndsStopped(front + "^" + "EQ")
  {
    var all := front + "^" + "EQ";
    assert all[|all| - 3..] == "^EQ";
  }

  ghost predicate Unstopped(terms: seq<string>) {
    forall t :: t in terms ==> !Stops(t)
  }

  lemma AcceptableParts(branch: string)
    ensures var kept := Terms(StripStop(branch)); Acceptable(branch) <==> Unstopped(kept) && OpensPlainly(kept)
  {
    hide Split, Stops, Widens, FirstTerm, StripStop, OpensPlainly;
    FirstTermOpens(Terms(StripStop(branch)));
  }

  lemma AcceptableTerms(branch: string)
    ensures Acceptable(branch) <==> Restrictable(Terms(branch))
  {
    hide Acceptable, Restrictable, OpensPlainly, Unstopped, Split, StripStop, EndsStopped;
    AcceptableParts(branch);
    StoppedTerms(branch);
    if EndsStopped(branch) {
      StopBehind(Terms(StripStop(branch)));
    } else {
      UnstoppedTerms(branch);
      NoStopBehind(Terms(branch));
    }
  }

  lemma UnstoppedTerms(branch: string)
    requires !EndsStopped(branch)
    ensures StripStop(branch) == branch
  {
  }

  lemma NoStopBehind(terms: seq<string>)
    requires terms != [] && (|terms| == 1 || terms[|terms| - 1] != "EQ")
    ensures Restrictable(terms) <==> Unstopped(terms) && OpensPlainly(terms)
  {
    hide Stops, OpensPlainly;
    if Restrictable(terms) {
      forall t | t in terms ensures !Stops(t) {
        var i :| 0 <= i < |terms| && terms[i] == t;
      }
    }
  }

  lemma StopBehind(kept: seq<string>)
    requires kept != []
    ensures Restrictable(kept + ["EQ"]) <==> Unstopped(kept) && OpensPlainly(kept)
  {
    StopIsPlain();
    OpensBefore(kept, "EQ");
    hide Widens, Stops, OpensPlainly;
    var all := kept + ["EQ"];
    assert forall i :: 0 <= i < |kept| ==> all[i] == kept[i];
    assert all[|kept|] == "EQ";
    if Restrictable(all) {
      forall t | t in kept ensures !Stops(t) {
        var i :| 0 <= i < |kept| && kept[i] == t;
        assert all[i] == t;
      }
    }
  }

  lemma OpensBefore(kept: seq<string>, last: string)
    requires !Widens(last)
    ensures OpensPlainly(kept + [last]) <==> OpensPlainly(kept)
  {
    hide Widens;
    var all := kept + [last];
    if OpensPlainly(all) {
      forall i | 0 <= i < |kept| && (forall j :: 0 <= j < i ==> kept[j] == "") ensures !Widens(kept[i]) {
        assert forall j :: 0 <= j < i ==> all[j] == kept[j];
        assert all[i] == kept[i];
      }
    }
    if OpensPlainly(kept) {
      forall i | 0 <= i < |all| && (forall j :: 0 <= j < i ==> all[j] == "") ensures !Widens(all[i]) {
        if i < |kept| {
          assert forall j :: 0 <= j < i ==> kept[j] == all[j];
          assert all[i] == kept[i];
        }
      }
    }
  }

  lemma StopIsPlain()
    ensures Stops("EQ") && !Widens("EQ")
  {
    assert "EQ"[0] == 'E' && "OR"[0] == 'O';
  }

  /** A query is accepted if and only if in every branch no term but a final `EQ` would stop
    * the parse and no OR term stands in front. */
  lemma AcceptedExactly(d: DomainId, query: string)
    ensures Apply(d, query).Some? <==> forall b :: b in Split(query, "^NQ") ==> Restrictable(Terms(b))
  {
    hide Split, Restrictable, Acceptable;
    forall b | b in Split(query, "^NQ") ensures Acceptable(b) <==> Restrictable(Terms(b)) {
      AcceptableTerms(b);
    }
  }

  /** Behind a sort clause an OR term is accepted, though no condition comes before it. */
  lemma OrBehindSortIsAccepted(sort: string, or: string)
    requires Sorts(sort) && Widens(or)
    ensures Restrictable([sort, or])
  {
    assert sort[0] == 'O' && or[0] == 'O' && "EQ"[0] == 'E' && "OR"[0] == 'O';
    assert sort != "" && !Widens(sort) && !Stops(sort) && !Stops(or);
    FirstTermOpens([sort, or]);
  }

  /** A value names a domain if and only if it is the word or 32 hexadecimal digits, and it
    * is then displayed as it was given. */
  lemma ParsedDisplays(value: string)
    ensures FromString(value).Some? <==>
              value == "global" || (|value| == 32 && forall c :: c in value ==> '0' <= c <= '9' || 'a' <= c <= 'f' || 'A' <= c <= 'F')
    ensures FromString(value).Some? ==> FromString(value).value.Display() == value
  {
    assert (forall c :: c in value ==> IsHex(c)) <==> forall i :: 0 <= i < |value| ==> IsHex(value[i]);
  }

  /** Reading back what was displayed gives the same domain. */
  lemma DisplayParses(d: DomainId)
    ensures FromString(d.Display()) == Some(d)
  {
    if d.Domain? {
      assert |d.id| == 32;
    }
  }
}
