/** A record listing restricts the query to a domain first and sorts it afterwards. */
module ListQuery {
  import opened Prelude
  import opened Text
  import opened EncodedQuery
  import D = Domain
  import O = OrderBy

  /** The query sent for a listing with a domain and an order. */
  function Sorted(d: D.DomainId, keys: seq<O.SortKey>, query: string): string
    requires D.Apply(d, query).Some?
  {
    O.ApplyToQuery(keys, D.Apply(d, query))
  }

  // --- Trimming the front of a query --------------------------------------------------

  lemma {:induction false} TrimStartBefore(s: string, rest: string)
    requires rest == "" || !IsSpace(rest[0])
    ensures TrimStart(s + rest) == TrimStart(s) + rest
  {
    hide IsSpace;
    if s == "" {
      assert s + rest == rest;
    } else {
      assert (s + rest)[1..] == s[1..] + rest;
      TrimStartBefore(s[1..], rest);
    }
  }

  lemma {:induction false} TrimStartKeepsEnd(s: string)
    requires s != "" && !IsSpace(s[|s| - 1])
    ensures TrimStart(s) != ""
  {
    hide IsSpace;
    if IsSpace(s[0]) {
      assert |s| > 1;
      assert s[1..][|s| - 2] == s[|s| - 1];
      TrimStartKeepsEnd(s[1..]);
    } else {
      assert TrimStart(s) == s;
    }
  }

  lemma TrimEndKeeps(s: string)
    requires s != "" && !IsSpace(s[|s| - 1])
    ensures TrimStart(s) != "" && Trim(s) == TrimStart(s)
  {
    TrimStartKeepsEnd(s);
    var t := TrimStart(s);
    assert t[|t| - 1] == s[|s| - 1];
  }

  /** The first piece of a query, with what stands behind it. */
  lemma FirstPiece(s: string, sep: string) returns (behind: string)
    requires sep != ""
    ensures s == Split(s, sep)[0] + behind
    ensures behind == "" || sep <= behind
    ensures behind == "" ==> Split(s, sep) == [s]
    ensures behind != "" ==> Split(s, sep)[1..] == Split(behind[|sep|..], sep)
  {
    match Find(s, sep)
    case None => behind := "";
    case Some(i) =>
      behind := s[i..];
      hide Occurs, Find;
      assert s == s[..i] + s[i..];
      assert behind[|sep|..] == s[i + |sep|..];
      assert Split(s, sep) == [s[..i]] + Split(s[i + |sep|..], sep) by {
        SplitAt(s, sep, i);
      }
  }

  /** Trimming a branch trims its first term. */
  lemma TermsOfTrimmed(branch: string)
    ensures Terms(TrimStart(branch)) == [TrimStart(Terms(branch)[0])] + Terms(branch)[1..]
  {
    hide TrimStart, IsSpace, Split, Find;
    var first := Terms(branch)[0];
    var behind := FirstPiece(branch, "^");
    CharPieces(branch);
    NoCaretTrimmed(first);
    CaretFree(TrimStart(first));
    if behind == "" {
      assert branch == first + "" == first;
    } else {
      CaretIsNoSpace();
      TrimStartBefore(first, behind);
      CaretFirst(TrimStart(first), behind[1..]);
      assert behind == "^" + behind[1..];
      Reassociate(TrimStart(first), "^", behind[1..]);
    }
  }

  lemma Reassociate(a: string, b: string, c: string)
    ensures a + b + c == a + (b + c)
  {
  }

  lemma CaretIsNoSpace()
    ensures !IsSpace('^')
  {
  }

  lemma CharPieces(branch: string)
    ensures '^' !in Terms(branch)[0]
  {
    SplitPieces(branch, "^");
    assert Terms(branch)[0] in Terms(branch);
    CharContains(Terms(branch)[0], '^');
  }

  lemma NoCaretTrimmed(s: string)
    requires '^' !in s
    ensures '^' !in TrimStart(s)
  {
  }

  lemma CaretFree(s: string)
    requires '^' !in s
    ensures Terms(s) == [s]
  {
    CharContains(s, '^');
    SplitWhole(s, "^");
  }

  lemma CaretFirst(first: string, rest: string)
    requires '^' !in first
    ensures Terms(first + "^" + rest) == [first] + Terms(rest)
  {
    CharContains(first, '^');
    CharBorderless('^');
    PieceSeparable(first, "^");
    SplitFirst(first, rest, "^");
  }

  // --- The first branch ------------------------------------------------------------------

  /** The first term of the query's first branch. */
  function FirstTerm(query: string): string {
    Terms(D.StripStop(Split(query, "^NQ")[0]))[0]
  }

  /** Trimmed, the query begins with EQ exactly when its first term does. */
  lemma StopsInFront(query: string)
    ensures Stops(TrimStart(query)) <==> Stops(TrimStart(FirstTerm(query)))
  {
    hide Split, TrimStart, Find, IsSpace, Stops, FirstTerm;
    var behind := FirstTermFirst(query);
    CaretIsNoSpace();
    TrimStartBefore(FirstTerm(query), behind);
    StopsAtFront(TrimStart(FirstTerm(query)), behind);
  }

  lemma StopsAtFront(first: string, behind: string)
    requires behind == "" || behind[0] == '^'
    ensures Stops(first + behind) <==> Stops(first)
  {
    if behind == "" {
      assert first + behind == first;
    } else {
      assert first + behind == first + ['^'] + behind[1..];
      if Stops(first + behind) {
        PrefixBefore("EQ", first, '^', behind[1..]);
      }
      if Stops(first) {
        assert (first + behind)[..2] == first[..2];
      }
    }
  }

  lemma StripSplits(branch: string)
    ensures branch == D.StripStop(branch) + if D.EndsStopped(branch) then "^EQ" else ""
  {
    if D.EndsStopped(branch) {
      assert branch == branch[..|branch| - 3] + branch[|branch| - 3..];
    } else {
      assert branch + "" == branch;
    }
  }

  lemma FirstTermFirst(query: string) returns (behind: string)
    ensures query == FirstTerm(query) + behind && (behind == "" || behind[0] == '^')
  {
    hide Split, Find, D.StripStop, D.EndsStopped;
    var branch := Split(query, "^NQ")[0];
    var kept := D.StripStop(branch);
    var z := FirstPiece(query, "^NQ");
    var y := if D.EndsStopped(branch) then "^EQ" else "";
    var x := FirstPiece(kept, "^");
    behind := x + (y + z);
    StripSplits(branch);
    assert z != "" ==> z[0] == '^';
    assert y != "" ==> y[0] == '^';
    assert x != "" ==> x[0] == '^';
    Reassociate(FirstTerm(query), x, y + z);
    Reassociate(kept, y, z);
  }

  lemma AllOtherTermsLive(branch: string)
    requires D.Acceptable(branch)
    ensures var terms := Terms(TrimStart(D.StripStop(branch)));
            (forall t :: t in terms ==> !Stops(t)) <==> !Stops(TrimStart(Terms(D.StripStop(branch))[0]))
  {
    hide Split, TrimStart, Stops;
    var kept := D.StripStop(branch);
    TermsOfTrimmed(kept);
    assert forall t :: t in Terms(kept)[1..] ==> t in Terms(kept);
  }

  /** How the server reads the first branch after trimming: with the condition as its last
    * group, or as nothing when it begins with EQ. */
  lemma FirstBranchRead(d: D.DomainId, branch: string)
    requires D.Acceptable(branch)
    ensures var terms := Terms(TrimStart(D.Constrain(branch, D.Condition(d))));
            if Stops(TrimStart(Terms(D.StripStop(branch))[0])) then Live(terms) == [] && Live(terms) != terms
            else
              && Live(terms) == terms
              && exists before :: Groups(terms) == before + [[D.Condition(d)]]
  {
    hide TrimStart, Split, Stops, Sorts, Widens, D.Condition, Groups, Live, D.EndsStopped;
    var kept, c := D.StripStop(branch), D.Condition(d);
    D.ConditionIsPlain(d);
    ConditionStart(d);
    if kept == "" {
      D.ConditionAlone(c);
      EmptyTerms();
      assert Groups([c]) == [] + [[c]];
    } else {
      AllOtherTermsLive(branch);
      TermsOfTrimmed(kept);
      hide D.Acceptable;
      CaretIsNoSpace();
      TrimStartBefore(kept, "^" + c);
      Reassociate(kept, "^", c);
      Reassociate(TrimStart(kept), "^", c);
      SplitSnoc(TrimStart(kept), '^', c);
      var terms := Terms(TrimStart(kept));
      TrimmedRead(terms, c);
    }
  }

  lemma TrimmedRead(terms: seq<string>, c: string)
    requires terms != [] && c != "" && !Stops(c) && !Sorts(c) && !Widens(c)
    requires (forall t :: t in terms ==> !Stops(t)) <==> !Stops(terms[0])
    ensures if Stops(terms[0]) then Live(terms + [c]) == [] && Live(terms + [c]) != terms + [c]
            else Live(terms + [c]) == terms + [c] && exists before :: Groups(terms + [c]) == before + [[c]]
  {
    hide Stops, Sorts, Widens, Groups;
    if Stops(terms[0]) {
      assert (terms + [c])[0] == terms[0];
    } else {
      LiveAll(terms + [c]);
      GroupsSnoc(terms, c);
    }
  }

  lemma EmptyTerms()
    ensures Terms("") == [""] && TrimStart("") == "" && !Stops("")
  {
  }

  lemma ConditionStart(d: D.DomainId)
    ensures D.Condition(d) != "" && TrimStart(D.Condition(d)) == D.Condition(d)
    ensures !IsSpace(D.Condition(d)[|D.Condition(d)| - 1])
  {
    assert D.Condition(d)[0] == 's';
    if d.Domain? {
      assert D.Condition(d)[|D.Condition(d)| - 1] == d.id[31];
    } else {
      assert D.Condition(d)[|D.Condition(d)| - 1] == 'l';
    }
  }

  // --- The whole query ---------------------------------------------------------------------

  lemma {:induction false} JoinEnd(parts: seq<string>, sep: string)
    requires parts != [] && parts[|parts| - 1] != ""
    ensures Join(parts, sep) != ""
    ensures Join(parts, sep)[|Join(parts, sep)| - 1] == parts[|parts| - 1][|parts[|parts| - 1]| - 1]
  {
    if |parts| > 1 {
      JoinEnd(parts[1..], sep);
    }
  }

  lemma EndOfConcat(a: string, b: string)
    requires b != ""
    ensures a + b != "" && (a + b)[|a + b| - 1] == b[|b| - 1]
  {
  }

  lemma ConstrainedEnd(branch: string, d: D.DomainId)
    ensures var p := D.Constrain(branch, D.Condition(d)); p != "" && !IsSpace(p[|p| - 1])
  {
    ConditionStart(d);
    hide IsSpace, D.Condition, D.StripStop, D.EndsStopped;
    var kept, c := D.StripStop(branch), D.Condition(d);
    EndOfConcat(kept + "^", c);
  }

  lemma OccursInSuffix(s: string, n: nat, sep: string, i: nat)
    requires n <= |s| && Occurs(s[n..], sep, i)
    ensures Occurs(s, sep, n + i)
  {
    assert s[n..][i..] == s[n + i..];
  }

  lemma SuffixContains(s: string, t: string, sep: string)
    requires |t| <= |s| && t == s[|s| - |t|..] && !Contains(s, sep)
    ensures !Contains(t, sep)
  {
    hide Occurs;
    var found := Find(t, sep);
    if found.Some? {
      OccursInSuffix(s, |s| - |t|, sep, found.value);
    }
  }

  /** `parts` with the front of the first piece trimmed. */
  function TrimFirst(parts: seq<string>): (r: seq<string>)
    requires parts != []
    ensures |r| == |parts| && r[0] == TrimStart(parts[0]) && r[1..] == parts[1..]
  {
    [TrimStart(parts[0])] + parts[1..]
  }

  lemma JoinTrimFirst(parts: seq<string>)
    requires parts != [] && TrimStart(parts[0]) != ""
    ensures TrimStart(Join(parts, "^NQ")) == Join(TrimFirst(parts), "^NQ")
  {
    hide TrimStart, IsSpace, Join;
    if |parts| == 1 {
      JoinOne(parts, "^NQ");
      JoinOne(TrimFirst(parts), "^NQ");
    } else {
      CaretIsNoSpace();
      var tail := Join(parts[1..], "^NQ");
      JoinFirst(parts);
      JoinFirst(TrimFirst(parts));
      TrimStartBefore(parts[0], "^NQ" + tail);
      Reassociate(parts[0], "^NQ", tail);
      Reassociate(TrimStart(parts[0]), "^NQ", tail);
    }
  }

  lemma JoinFirst(parts: seq<string>)
    requires |parts| > 1
    ensures Join(parts, "^NQ") == parts[0] + "^NQ" + Join(parts[1..], "^NQ")
  {
  }

  /** Trimming the restricted query trims the first of its branches and nothing else. */
  lemma TrimmedBranches(d: D.DomainId, query: string)
    requires D.Apply(d, query).Some?
    ensures var parts := D.ConstrainAll(Split(query, "^NQ"), D.Condition(d));
            Split(Trim(D.Apply(d, query).value), "^NQ") == TrimFirst(parts)
  {
    hide TrimStart, IsSpace, Split, Contains, Find, Separable, Borderless, Occurs, D.Acceptable, D.Constrain, D.Condition, Join;
    var branches := Split(query, "^NQ");
    var parts := D.ConstrainAll(branches, D.Condition(d));
    var n := |parts| - 1;
    ConstrainedEnd(branches[n], d);
    JoinEnd(parts, "^NQ");
    TrimEndKeeps(Join(parts, "^NQ"));
    ConstrainedEnd(branches[0], d);
    TrimEndKeeps(parts[0]);
    JoinTrimFirst(parts);
    SplitPieces(query, "^NQ");
    NextBranchBorderless();
    var trimmed := TrimFirst(parts);
    forall i | 0 <= i < |trimmed| ensures !Contains(trimmed[i], "^NQ") && Separable(trimmed[i], "^NQ") {
      assert branches[i] in branches;
      D.ConstrainedHasNoSeparator(branches[i], d);
      if i == 0 {
        SuffixContains(parts[0], trimmed[0], "^NQ");
      } else {
        assert trimmed[i] == trimmed[1..][i - 1] == parts[1..][i - 1] == parts[i];
      }
      PieceSeparable(trimmed[i], "^NQ");
    }
    SplitJoin(trimmed, "^NQ");
  }

  lemma LastGroupHolds(before: Branch, c: string, holds: string -> bool)
    requires Holds(before + [[c]], holds)
    ensures holds(c)
  {
    assert [c] in before + [[c]];
    assert forall x :: x in [c] ==> x == c;
  }

  lemma OthersHold(branches: seq<string>, d: D.DomainId, holds: string -> bool)
    requires forall b :: b in branches ==> D.Acceptable(b)
    requires exists b :: b in ParseBranches(D.ConstrainAll(branches, D.Condition(d))) && Holds(b, holds)
    ensures holds(D.Condition(d))
  {
    hide D.Acceptable, Holds, ParseBranches, D.Condition;
    D.ParsedConstrained(branches, d);
    var read := D.WithCondition(D.AllBranches(branches), D.Condition(d));
    var b :| b in read && Holds(b, holds);
    var i :| 0 <= i < |read| && read[i] == b;
    LastGroupHolds(D.AllBranches(branches)[i], D.Condition(d), holds);
  }

  /** The branches of the sorted query, as the server reads them. */
  lemma SortedReading(d: D.DomainId, value: string, query: string)
    requires D.Apply(d, query).Some? && O.FromString(value).Some?
    ensures var branches := Split(query, "^NQ");
            var terms := Terms(TrimStart(D.Constrain(branches[0], D.Condition(d))));
            Parse(Sorted(d, O.FromString(value).value, query)) ==
              [Groups(Live(terms))]
              + if Live(terms) == terms then ParseBranches(D.ConstrainAll(branches[1..], D.Condition(d))) else []
  {
    O.SortingKeepsMeaning(value, D.Apply(d, query));
    TrimmedBranches(d, query);
    hide D.Apply, O.ApplyToQuery, O.FromString, Trim, Split, TrimStart, D.Constrain, Live, Groups, D.Condition;
    var branches := Split(query, "^NQ");
    var parts := D.ConstrainAll(branches, D.Condition(d));
    assert parts[1..] == D.ConstrainAll(branches[1..], D.Condition(d));
    assert TrimFirst(parts) != [];
  }

  lemma NothingRequired(holds: string -> bool)
    ensures Holds([], holds)
  {
  }

  /** Sorting keeps a listing within its domain for every record, if and only if the query
    * does not begin with EQ once its leading spaces are trimmed. */
  lemma SortedListingStaysInDomain(d: D.DomainId, value: string, query: string)
    requires D.Apply(d, query).Some? && O.FromString(value).Some?
    ensures (forall holds: string -> bool :: Selects(Sorted(d, O.FromString(value).value, query), holds) ==> holds(D.Condition(d)))
        <==> !Stops(TrimStart(query))
  {
    hide D.Acceptable, D.Constrain, Live, Groups, Split, TrimStart, Stops, Holds, O.FromString, Sorted, ParseBranches, D.Condition;
    var branches := Split(query, "^NQ");
    AcceptedBranches(d, query);
    StopsInFront(query);
    SortedReading(d, value, query);
    FirstBranchRead(d, branches[0]);
    var sorted := Sorted(d, O.FromString(value).value, query);
    if Stops(TrimStart(query)) {
      var holds := (c: string) => false;
      NothingRequired(holds);
      D.GroupsNothing();
      assert Parse(sorted)[0] == [];
      assert Selects(sorted, holds) && !holds(D.Condition(d));
    } else {
      forall holds: string -> bool | Selects(sorted, holds) ensures holds(D.Condition(d)) {
        var b :| b in Parse(sorted) && Holds(b, holds);
        if b in ParseBranches(D.ConstrainAll(branches[1..], D.Condition(d))) {
          OthersHold(branches[1..], d, holds);
        } else {
          var terms := Terms(TrimStart(D.Constrain(branches[0], D.Condition(d))));
          var before :| Groups(terms) == before + [[D.Condition(d)]];
          LastGroupHolds(before, D.Condition(d), holds);
        }
      }
    }
  }

  lemma AcceptedBranches(d: D.DomainId, query: string)
    requires D.Apply(d, query).Some?
    ensures forall b :: b in Split(query, "^NQ") ==> D.Acceptable(b)
    ensures D.Acceptable(Split(query, "^NQ")[0])
    ensures forall b :: b in Split(query, "^NQ")[1..] ==> D.Acceptable(b)
  {
    hide D.Acceptable, Split;
    assert Split(query, "^NQ")[0] in Split(query, "^NQ");
  }

  /** Such a query is accepted: trimming turns its first term into the one that ends it. */
  lemma SpacedStopIsAccepted(d: D.DomainId)
    ensures D.Apply(d, " EQ").Some? && Stops(TrimStart(" EQ"))
  {
    hide Split, Contains, D.Acceptable;
    SpaceInFront();
    NoSeparatorIn(" EQ");
    CaretFree(" EQ");
    D.OneTermAcceptable(" EQ", " EQ");
  }

  lemma SpaceInFront()
    ensures !D.EndsStopped(" EQ") && !Stops(" EQ") && !Widens(" EQ") && TrimStart(" EQ") == "EQ"
  {
    assert " EQ"[0] == ' ' && "EQ"[0] == 'E' && "OR"[0] == 'O';
    assert " EQ"[1..] == "EQ" && TrimStart("EQ") == "EQ";
  }

  lemma NoSeparatorIn(text: string)
    requires 'N' !in text
    ensures Split(text, "^NQ") == [text]
  {
    D.NeedsItsLetter(text);
    SplitWhole(text, "^NQ");
  }
}
