/**
 * What an encoded query selects. `^NQ` separates alternatives, `^` separates
 * terms that must all hold, an `OR` term widens the condition before it, an `EQ`
 * term ends the query and `ORDERBY` terms do not filter. Conditions stay opaque.
 */
module EncodedQuery {
  import opened Text

  /** The conditions of a branch: every group needs one condition that holds. */
  type Branch = seq<seq<string>>

  predicate Stops(term: string) {
    "EQ" <= term
  }

  predicate Sorts(term: string) {
    "ORDERBY" <= term
  }

  predicate Widens(term: string) {
    "OR" <= term && !Sorts(term)
  }

  function Terms(branch: string): seq<string> {
    Split(branch, "^")
  }

  /** An `OR` term with no condition before it starts a group of its own. */
  function Groups(terms: seq<string>): Branch {
    if terms == [] then []
    else
      var n := |terms| - 1;
      var before, term := Groups(terms[..n]), terms[n];
      if term == "" || Sorts(term) then before
      else if Widens(term) then
        if before == [] then [[term[2..]]]
        else before[..|before| - 1] + [before[|before| - 1] + [term[2..]]]
      else before + [[term]]
  }

  /** The terms read before parsing stops. */
  function Live(terms: seq<string>): seq<string> {
    if terms == [] || Stops(terms[0]) then [] else [terms[0]] + Live(terms[1..])
  }

  function ParseBranches(branches: seq<string>): seq<Branch> {
    if branches == [] then []
    else
      var terms := Terms(branches[0]);
      [Groups(Live(terms))] + if Live(terms) == terms then ParseBranches(branches[1..]) else []
  }

  function Parse(query: string): seq<Branch> {
    ParseBranches(Split(query, "^NQ"))
  }

  ghost predicate Holds(branch: Branch, holds: string -> bool) {
    forall g :: g in branch ==> exists c :: c in g && holds(c)
  }

  /** A record selected by the query, given which conditions hold of it. */
  ghost predicate Selects(query: string, holds: string -> bool) {
    exists b :: b in Parse(query) && Holds(b, holds)
  }

  lemma {:induction false} LiveAll(terms: seq<string>)
    ensures Live(terms) == terms <==> forall t :: t in terms ==> !Stops(t)
  {
    if terms == [] {
    } else {
      LiveAll(terms[1..]);
      assert terms == [terms[0]] + terms[1..];
      if !Stops(terms[0]) && Live(terms) == terms {
        assert Live(terms[1..]) == Live(terms)[1..] == terms[1..];
      }
      if Stops(terms[0]) {
        assert terms[0] in terms;
      }
    }
  }

  lemma {:induction false} LiveBeforeStop(terms: seq<string>, stop: string)
    requires Stops(stop) && forall t :: t in terms ==> !Stops(t)
    ensures Live(terms + [stop]) == terms
  {
    if terms == [] {
    } else {
      assert (terms + [stop])[1..] == terms[1..] + [stop];
      LiveBeforeStop(terms[1..], stop);
      assert terms[0] in terms;
    }
  }

  lemma GroupsSnoc(terms: seq<string>, term: string)
    ensures term == "" || Sorts(term) ==> Groups(terms + [term]) == Groups(terms)
    ensures term != "" && !Sorts(term) && !Widens(term) ==> Groups(terms + [term]) == Groups(terms) + [[term]]
  {
    assert (terms + [term])[..|terms|] == terms;
  }

  lemma NextBranchBorderless()
    ensures Borderless("^NQ")
  {
    var sep := "^NQ";
    forall k | 0 < k < 3 ensures sep[k..] != sep[..3 - k] {
      assert sep[k..][0] == sep[k] && sep[..3 - k][0] == sep[0];
    }
  }

  // --- Terms that do not filter ------------------------------------------------

  /** A term after `^` that is empty or a sort clause; it opens no new branch. */
  predicate Inert(term: string) {
    '^' !in term && (term == "" || Sorts(term))
  }

  lemma {:induction false} LiveSnoc(terms: seq<string>, term: string)
    requires !Stops(term)
    ensures Live(terms + [term]) == if Live(terms) == terms then terms + [term] else Live(terms)
  {
    if terms == [] {
      assert [] + [term] == [term];
    } else {
      assert (terms + [term])[1..] == terms[1..] + [term];
      LiveSnoc(terms[1..], term);
      assert terms == [terms[0]] + terms[1..];
      if !Stops(terms[0]) && Live(terms) == terms {
        assert Live(terms[1..]) == Live(terms)[1..] == terms[1..];
      }
    }
  }

  lemma InertGroups(branch: string, term: string)
    requires Inert(term)
    ensures Groups(Live(Terms(branch + "^" + term))) == Groups(Live(Terms(branch)))
  {
    assert term == "" || term[0] == 'O';
    SplitSnoc(branch, '^', term);
    LiveSnoc(Terms(branch), term);
    GroupsSnoc(Terms(branch), term);
  }

  lemma InertOpensNoBranch(branch: string, term: string, i: nat)
    requires Inert(term) && Occurs(branch + "^" + term, "^NQ", i)
    ensures Occurs(branch, "^NQ", i)
  {
    var r := branch + "^" + term;
    assert r[i..][..3] == "^NQ";
    assert r[i] == '^' && r[i + 1] == 'N' && r[i + 2] == 'Q';
    assert term == "" || term[0] == 'O';
    assert r[|branch|] == '^';
    assert forall j :: |branch| < j < |r| ==> r[j] == term[j - |branch| - 1];
    assert i + 3 <= |branch|;
    assert branch[i..][..3] == r[i..][..3];
  }

  /** `parts` with more text behind its last piece. */
  function ExtendLast(parts: seq<string>, more: string): seq<string>
    requires parts != []
  {
    parts[..|parts| - 1] + [parts[|parts| - 1] + more]
  }

  lemma {:induction false} JoinExtendLast(parts: seq<string>, more: string, sep: string)
    requires parts != []
    ensures Join(ExtendLast(parts, more), sep) == Join(parts, sep) + more
  {
    if |parts| == 1 {
      assert ExtendLast(parts, more) == [parts[0] + more];
    } else {
      JoinExtendLast(parts[1..], more, sep);
      assert ExtendLast(parts, more)[1..] == ExtendLast(parts[1..], more);
    }
  }

  lemma SplitInert(query: string, term: string)
    requires Inert(term)
    ensures Split(query + "^" + term, "^NQ") == ExtendLast(Split(query, "^NQ"), "^" + term)
  {
    hide Inert, Contains, Separable, Borderless, Find, Split, Join, Occurs;
    var parts := Split(query, "^NQ");
    var more := ExtendLast(parts, "^" + term);
    var n := |parts| - 1;
    JoinSplit(query, "^NQ");
    JoinExtendLast(parts, "^" + term, "^NQ");
    SplitPieces(query, "^NQ");
    NextBranchBorderless();
    forall i | 0 <= i < n ensures Separable(more[i], "^NQ") {
      assert more[i] == parts[i] && parts[i] in parts;
      PieceSeparable(more[i], "^NQ");
    }
    assert parts[n] in parts;
    InertKeepsBranch(parts[n], term);
    assert more[n] == parts[n] + ("^" + term) == parts[n] + "^" + term;
    SplitJoin(more, "^NQ");
    assert query + ("^" + term) == query + "^" + term;
  }

  lemma InertKeepsBranch(branch: string, term: string)
    requires Inert(term) && !Contains(branch, "^NQ")
    ensures !Contains(branch + "^" + term, "^NQ")
  {
    hide Inert, Occurs;
    var found := Find(branch + "^" + term, "^NQ");
    if found.Some? {
      InertOpensNoBranch(branch, term, found.value);
    }
  }

  lemma {:induction false} ParseExtendLast(branches: seq<string>, term: string)
    requires branches != [] && Inert(term)
    ensures ParseBranches(ExtendLast(branches, "^" + term)) == ParseBranches(branches)
  {
    hide Inert, Live, Groups, Terms, Split;
    if |branches| == 1 {
      InertGroups(branches[0], term);
      assert branches[0] + ("^" + term) == branches[0] + "^" + term;
      assert ExtendLast(branches, "^" + term) == [branches[0] + "^" + term];
    } else {
      ParseExtendLast(branches[1..], term);
      assert ExtendLast(branches, "^" + term)[1..] == ExtendLast(branches[1..], "^" + term);
    }
  }

  /** An empty or sort term at the end of a query changes nothing it selects. */
  lemma InertTermKeepsMeaning(query: string, term: string)
    requires Inert(term)
    ensures Parse(query + "^" + term) == Parse(query)
  {
    SplitInert(query, term);
    ParseExtendLast(Split(query, "^NQ"), term);
  }

  lemma LoneInert(term: string)
    requires Inert(term)
    ensures Parse(term) == Parse("")
  {
    AloneParses(term);
    AloneParses("");
  }

  lemma AloneParses(term: string)
    requires Inert(term)
    ensures Parse(term) == [[]]
  {
    assert term == "" || term[0] == 'O';
    CharContains(term, '^');
    if Contains(term, "^NQ") {
      ContainsNeeds(term, "^NQ", 0);
    }
    assert [] + [term] == [term];
    GroupsSnoc([], term);
    LiveSnoc([], term);
  }
}
