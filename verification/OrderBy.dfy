/** Sort specifications: one parser, two printers, and their place in a query. */
module OrderBy {
  import opened Prelude
  import opened Text
  import opened EncodedQuery

  datatype Direction = Asc | Desc

  datatype SortKey = SortKey(field: string, direction: Direction)

  predicate IsFieldChar(c: char) {
    '0' <= c <= '9' || 'A' <= c <= 'Z' || 'a' <= c <= 'z' || c == '_' || c == '.'
  }

  predicate ValidField(field: string) {
    && field != "" && (forall c :: c in field ==> IsFieldChar(c))
    && field[0] != '.' && field[|field| - 1] != '.' && !Contains(field, "..")
  }

  function LastColon(s: string): (r: Option<nat>)
    ensures r.Some? ==> r.value < |s| && s[r.value] == ':' && ':' !in s[r.value + 1..]
    ensures r.None? ==> ':' !in s
  {
    if s == "" then None
    else
      match LastColon(s[1..])
      case Some(i) => Some(i + 1)
      case None =>
        assert s == [s[0]] + s[1..];
        if s[0] == ':' then Some(0) else None
  }

  function ParseField(field: string, direction: Direction): Option<SortKey> {
    if ValidField(field) then Some(SortKey(field, direction)) else None
  }

  /** A suffix spelling out a direction, in any case. */
  function ParseDirection(suffix: string): Option<Direction> {
    if Lower(suffix) == "asc" then Some(Asc)
    else if Lower(suffix) == "desc" then Some(Desc)
    else None
  }

  function ParseKey(item: string): Option<SortKey> {
    if "ORDERBYDESC" <= item then ParseField(item[11..], Desc)
    else if "ORDERBY" <= item then ParseField(item[7..], Asc)
    else if "-" <= item then ParseField(item[1..], Desc)
    else
      match LastColon(item)
      case None => ParseField(item, Asc)
      case Some(i) =>
        match ParseDirection(item[i + 1..])
        case None => None
        case Some(direction) => ParseField(item[..i], direction)
  }

  function ParseKeys(items: seq<string>): (r: Option<seq<SortKey>>)
    ensures r.Some? ==> |r.value| == |items|
  {
    if items == [] then Some([])
    else
      match ParseKey(Trim(items[0]))
      case None => None
      case Some(key) =>
        match ParseKeys(items[1..])
        case None => None
        case Some(keys) => Some([key] + keys)
  }

  /** Keys are parsed one by one; one bad item makes the whole list bad. */
  lemma {:induction false} EachKeyParsed(items: seq<string>)
    ensures ParseKeys(items).Some? <==> forall i :: 0 <= i < |items| ==> ParseKey(Trim(items[i])).Some?
    ensures ParseKeys(items).Some? ==>
      forall i :: 0 <= i < |items| ==> ParseKey(Trim(items[i])) == Some(ParseKeys(items).value[i])
  {
    hide ParseKey, Trim;
    if items == [] {
    } else {
      var rest := items[1..];
      EachKeyParsed(rest);
      assert forall i :: 0 <= i < |rest| ==> rest[i] == items[i + 1];
      if ParseKeys(rest).None? {
        var i :| 0 <= i < |rest| && ParseKey(Trim(rest[i])).None?;
        assert ParseKey(Trim(items[i + 1])).None?;
      }
    }
  }

  function FromString(value: string): Option<seq<SortKey>> {
    ParseKeys(Split(value, ","))
  }

  function Shown(key: SortKey): string {
    if key.direction.Desc? then "-" + key.field else key.field
  }

  function Clause(key: SortKey): string {
    if key.direction.Desc? then "ORDERBYDESC" + key.field else "ORDERBY" + key.field
  }

  function AllShown(keys: seq<SortKey>): (r: seq<string>)
    ensures |r| == |keys| && forall i :: 0 <= i < |keys| ==> r[i] == Shown(keys[i])
  {
    seq(|keys|, i requires 0 <= i < |keys| => Shown(keys[i]))
  }

  function Clauses(keys: seq<SortKey>): (r: seq<string>)
    ensures |r| == |keys| && forall i :: 0 <= i < |keys| ==> r[i] == Clause(keys[i])
  {
    seq(|keys|, i requires 0 <= i < |keys| => Clause(keys[i]))
  }

  function Display(keys: seq<SortKey>): string {
    Join(AllShown(keys), ",")
  }

  method Format(keys: seq<SortKey>) returns (out: string)
    ensures out == Display(keys)
  {
    hide Shown;
    out := "";
    for i := 0 to |keys|
      invariant out == Join(AllShown(keys[..i]), ",")
    {
      var before := out;
      if i > 0 {
        out := out + ",";
      }
      if keys[i].direction.Desc? {
        out := out + "-";
      }
      out := out + keys[i].field;
      FormatStep(keys, i, before, out);
    }
    assert keys[..|keys|] == keys;
  }

  lemma FormatStep(keys: seq<SortKey>, i: nat, before: string, out: string)
    requires i < |keys| && before == Join(AllShown(keys[..i]), ",")
    requires out == before + (if i > 0 then "," else "") + (if keys[i].direction.Desc? then "-" else "") + keys[i].field
    ensures out == Join(AllShown(keys[..i + 1]), ",")
  {
    var shown := AllShown(keys[..i]);
    assert AllShown(keys[..i + 1]) == shown + [Shown(keys[i])];
    if i > 0 {
      JoinSnoc(shown, Shown(keys[i]), ",");
    }
  }

  function ToEncodedQuery(keys: seq<SortKey>): string {
    Join(Clauses(keys), "^")
  }

  /** Every value the parser returns has this shape, and nothing else has. */
  ghost predicate Valid(keys: seq<SortKey>) {
    keys != [] && forall i :: 0 <= i < |keys| ==> ValidField(keys[i].field)
  }

  lemma ParsedIsValid(value: string)
    requires FromString(value).Some?
    ensures Valid(FromString(value).value)
  {
    hide Split, Trim, ValidField, ParseKey, ParseKeys;
    var items := Split(value, ",");
    EachKeyParsed(items);
    var keys := FromString(value).value;
    forall i | 0 <= i < |keys| ensures ValidField(keys[i].field) {
      ParsedFieldIsValid(Trim(items[i]));
    }
  }

  lemma ParsedFieldIsValid(item: string)
    requires ParseKey(item).Some?
    ensures ValidField(ParseKey(item).value.field)
  {
    hide ValidField;
  }

  // --- Round trips ------------------------------------------------------------------

  lemma FieldIsPlain(field: string)
    requires ValidField(field)
    ensures ':' !in field && ',' !in field && '^' !in field && '-' !in field && Trimmed(field)
  {
    assert field[0] in field && field[|field| - 1] in field;
  }

  lemma PlainItem(item: string)
    requires ':' !in item && !("ORDERBY" <= item) && !("-" <= item)
    ensures ParseKey(item) == ParseField(item, Asc)
  {
    assert "ORDERBYDESC" == "ORDERBY" + "DESC";
    PrefixOfPrefix("ORDERBY", "ORDERBYDESC", item);
  }

  lemma ShownParses(key: SortKey)
    requires ValidField(key.field)
    ensures ',' !in Shown(key) && Trimmed(Shown(key))
    ensures ParseKey(Shown(key)) == Some(key) <==> !(key.direction.Asc? && "ORDERBY" <= key.field)
  {
    FieldIsPlain(key.field);
    var item := Shown(key);
    if key.direction.Desc? {
      assert item[0] == '-' && item[1..] == key.field;
    } else if !("ORDERBY" <= item) {
      assert item[0] in item;
      PlainItem(item);
    }
  }

  lemma ClauseParses(key: SortKey)
    requires ValidField(key.field)
    ensures ',' !in Clause(key) && '^' !in Clause(key) && Trimmed(Clause(key))
    ensures ParseKey(Clause(key)) == Some(key) <==> !(key.direction.Asc? && "DESC" <= key.field)
  {
    FieldIsPlain(key.field);
    var item := Clause(key);
    if key.direction.Desc? {
      assert item[11..] == key.field;
    } else {
      assert item[7..] == key.field;
      assert "ORDERBYDESC" == "ORDERBY" + "DESC";
      PrefixBehind("ORDERBY", "DESC", key.field);
    }
  }

  lemma ParsesBack(keys: seq<SortKey>, items: seq<string>)
    requires |items| == |keys| > 0
    requires forall i :: 0 <= i < |items| ==> ',' !in items[i] && Trimmed(items[i])
    ensures FromString(Join(items, ",")) == Some(keys)
       <==> forall i :: 0 <= i < |keys| ==> ParseKey(items[i]) == Some(keys[i])
  {
    hide ParseKey, ParseKeys, Split, Join, Trim, Trimmed;
    SplitJoinChar(items, ',');
    forall i | 0 <= i < |items| ensures Trim(items[i]) == items[i] {
      TrimTrims(items[i]);
    }
    KeysParse(keys, items);
  }

  lemma KeysParse(keys: seq<SortKey>, items: seq<string>)
    requires |items| == |keys|
    requires forall i :: 0 <= i < |items| ==> Trim(items[i]) == items[i]
    ensures ParseKeys(items) == Some(keys) <==> forall i :: 0 <= i < |keys| ==> ParseKey(items[i]) == Some(keys[i])
  {
    hide ParseKey, Trim, ParseKeys;
    EachKeyParsed(items);
    if forall i :: 0 <= i < |keys| ==> ParseKey(items[i]) == Some(keys[i]) {
      assert ParseKeys(items).value == keys;
    }
  }

  /** Parsing undoes display, exactly when no ascending field spells a clause. */
  lemma DisplayRoundTrips(value: string)
    requires FromString(value).Some?
    ensures var keys := FromString(value).value;
            FromString(Display(keys)) == Some(keys)
            <==> forall i :: 0 <= i < |keys| ==> !(keys[i].direction.Asc? && "ORDERBY" <= keys[i].field)
  {
    hide ParseKeys, Shown, ParseKey, ValidField, FromString, Trimmed, Join;
    var keys := FromString(value).value;
    ParsedIsValid(value);
    forall i | 0 <= i < |keys|
      ensures ',' !in AllShown(keys)[i] && Trimmed(AllShown(keys)[i])
      ensures ParseKey(AllShown(keys)[i]) == Some(keys[i]) <==> !(keys[i].direction.Asc? && "ORDERBY" <= keys[i].field)
    {
      ShownParses(keys[i]);
    }
    ParsesBack(keys, AllShown(keys));
  }

  /** The encoded clauses with every `^` read as a comma. */
  function Commas(s: string): (r: string)
    ensures |r| == |s| && forall i :: 0 <= i < |s| ==> r[i] == if s[i] == '^' then ',' else s[i]
  {
    seq(|s|, i requires 0 <= i < |s| => if s[i] == '^' then ',' else s[i])
  }

  lemma {:induction false} CommasJoin(items: seq<string>)
    requires forall i :: 0 <= i < |items| ==> '^' !in items[i]
    ensures Commas(Join(items, "^")) == Join(items, ",")
  {
    if |items| == 1 {
      assert Commas(items[0]) == items[0];
    } else if |items| > 1 {
      CommasJoin(items[1..]);
      assert Commas(items[0] + "^" + Join(items[1..], "^")) == items[0] + "," + Commas(Join(items[1..], "^"));
    }
  }

  /** The parser also reads the encoded clauses back, exactly when no ascending field
    * begins with DESC. */
  lemma ClausesRoundTrip(value: string)
    requires FromString(value).Some?
    ensures var keys := FromString(value).value;
            FromString(Commas(ToEncodedQuery(keys))) == Some(keys)
            <==> forall i :: 0 <= i < |keys| ==> !(keys[i].direction.Asc? && "DESC" <= keys[i].field)
  {
    hide ParseKeys, Clause, ParseKey, ValidField, FromString, Trimmed, Join, Commas;
    var keys := FromString(value).value;
    ParsedIsValid(value);
    forall i | 0 <= i < |keys|
      ensures ',' !in Clauses(keys)[i] && '^' !in Clauses(keys)[i] && Trimmed(Clauses(keys)[i])
      ensures ParseKey(Clauses(keys)[i]) == Some(keys[i]) <==> !(keys[i].direction.Asc? && "DESC" <= keys[i].field)
    {
      ClauseParses(keys[i]);
    }
    CommasJoin(Clauses(keys));
    ParsesBack(keys, Clauses(keys));
  }

  /** Both conditions exclude something the parser accepts. */
  lemma RoundTripsCanFail()
    ensures FromString("ORDERBYORDERBYx") == Some([SortKey("ORDERBYx", Asc)])
    ensures FromString("DESCx") == Some([SortKey("DESCx", Asc)])
  {
    hide Contains, ParseKeys, ParseKey, FromString;
    var first, second := SortKey("ORDERBYx", Asc), SortKey("DESCx", Asc);
    NoDots("ORDERBYx");
    NoDots("DESCx");
    assert "ORDERBYx"[0] == 'O' && "DESCx"[0] == 'D' && "DESC"[0] == 'D' && "ORDERBY"[0] == 'O';
    assert Clause(first) == "ORDERBYORDERBYx";
    ParsesAlone(first, Clause(first));
    ParsesAlone(second, Shown(second));
  }

  lemma ParsesAlone(key: SortKey, item: string)
    requires ValidField(key.field)
    requires (item == Clause(key) && !("DESC" <= key.field)) || (item == Shown(key) && !("ORDERBY" <= key.field))
    ensures FromString(item) == Some([key])
  {
    hide *;
    ClauseParses(key);
    ShownParses(key);
    ParsesBack([key], [item]);
    JoinOne([item], ",");
  }

  lemma NoDots(field: string)
    requires '.' !in field
    ensures !Contains(field, "..")
  {
    hide Contains;
    if Contains(field, "..") {
      ContainsNeeds(field, "..", 0);
    }
  }

  // --- Spellings --------------------------------------------------------------------

  /** A direction may be spelled as a suffix in any case, or as a prefix. */
  lemma SpellingsAgree(field: string, suffix: string)
    requires ValidField(field) && !("ORDERBY" <= field) && ParseDirection(suffix).Some?
    ensures var key := SortKey(field, ParseDirection(suffix).value);
            && ParseKey(field + ":" + suffix) == Some(key)
            && ParseKey(Shown(key)) == Some(key)
  {
    hide ValidField, Lower, LastColon, Contains, ParseDirection;
    FieldIsPlain(field);
    var key := SortKey(field, ParseDirection(suffix).value);
    ShownParses(key);
    var item := field + ":" + suffix;
    SuffixHasNoColon(suffix);
    LastColonAt(field, suffix);
    NoClausePrefix(field, suffix);
    FieldStart(field);
    assert item[0] == field[0];
    assert item[..|field|] == field && item[|field| + 1..] == suffix;
  }

  lemma FieldStart(field: string)
    requires ValidField(field)
    ensures field != "" && field[0] != '-'
  {
    assert field[0] in field;
  }

  lemma NoClausePrefix(field: string, suffix: string)
    requires !("ORDERBY" <= field)
    ensures var item := field + ":" + suffix; !("ORDERBY" <= item) && !("ORDERBYDESC" <= item)
  {
    var item := field + ":" + suffix;
    assert "ORDERBYDESC" == "ORDERBY" + "DESC" && ":" == [':'];
    PrefixOfPrefix("ORDERBY", "ORDERBYDESC", item);
    if "ORDERBY" <= item {
      PrefixBefore("ORDERBY", field, ':', suffix);
    }
  }

  lemma {:induction false} LastColonAt(field: string, suffix: string)
    requires ':' !in suffix
    ensures LastColon(field + ":" + suffix) == Some(|field|)
  {
    if field == "" {
      assert (":" + suffix)[1..] == suffix;
      assert "" + ":" + suffix == ":" + suffix;
    } else {
      LastColonAt(field[1..], suffix);
      ItemTail(field, suffix);
    }
  }

  lemma ItemTail(field: string, suffix: string)
    requires field != ""
    ensures (field + ":" + suffix)[1..] == field[1..] + ":" + suffix
  {
  }

  lemma LowerKeepsColon(suffix: string)
    ensures ':' in suffix ==> ':' in Lower(suffix)
  {
    if ':' in suffix {
      var i :| 0 <= i < |suffix| && suffix[i] == ':';
      assert Lower(suffix)[i] == ':';
    }
  }

  lemma SuffixHasNoColon(suffix: string)
    requires ParseDirection(suffix).Some?
    ensures ':' !in suffix
  {
    LowerKeepsColon(suffix);
  }

  // --- Sorting a query ----------------------------------------------------------------

  function TrimCarets(s: string): (r: string)
    ensures r <= s && (r != "" ==> r[|r| - 1] != '^')
  {
    if s != "" && s[|s| - 1] == '^' then TrimCarets(s[..|s| - 1]) else s
  }

  function ApplyToQuery(keys: seq<SortKey>, query: Option<string>): string {
    var kept := if query.Some? then TrimCarets(Trim(query.value)) else "";
    if kept == "" then ToEncodedQuery(keys) else kept + "^" + ToEncodedQuery(keys)
  }

  lemma {:induction false} TrimCaretsKeepsMeaning(query: string)
    ensures Parse(TrimCarets(query)) == Parse(query)
  {
    if query != "" && query[|query| - 1] == '^' {
      var shorter := query[..|query| - 1];
      TrimCaretsKeepsMeaning(shorter);
      InertTermKeepsMeaning(shorter, "");
      assert shorter + "^" + "" == query;
    }
  }

  lemma ClauseIsInert(key: SortKey)
    requires ValidField(key.field)
    ensures Inert(Clause(key))
  {
    ClauseParses(key);
  }

  lemma {:induction false} ClausesKeepMeaning(keys: seq<SortKey>, query: string)
    requires Valid(keys)
    ensures Parse(query + "^" + ToEncodedQuery(keys)) == Parse(query)
  {
    hide Inert, Clause, ValidField, Parse;
    var n := |keys| - 1;
    ClauseIsInert(keys[n]);
    if n == 0 {
      assert Clauses(keys) == [Clause(keys[0])];
      InertTermKeepsMeaning(query, Clause(keys[0]));
    } else {
      ClausesKeepMeaning(keys[..n], query);
      assert Clauses(keys) == Clauses(keys[..n]) + [Clause(keys[n])];
      JoinSnoc(Clauses(keys[..n]), Clause(keys[n]), "^");
      InertTermKeepsMeaning(query + "^" + ToEncodedQuery(keys[..n]), Clause(keys[n]));
      assert query + "^" + ToEncodedQuery(keys) == query + "^" + ToEncodedQuery(keys[..n]) + "^" + Clause(keys[n]);
    }
  }

  /** Sort clauses filter nothing: the sorted query selects what the trimmed one does,
    * and everything when there was none. */
  lemma SortingKeepsMeaning(value: string, query: Option<string>)
    requires FromString(value).Some?
    ensures Parse(ApplyToQuery(FromString(value).value, query)) == Parse(if query.Some? then Trim(query.value) else "")
  {
    hide Parse, Trim, Valid, FromString;
    var keys := FromString(value).value;
    var text := if query.Some? then Trim(query.value) else "";
    ParsedIsValid(value);
    TrimCaretsKeepsMeaning(text);
    ClausesKeepMeaning(keys, TrimCarets(text));
    ClausesAlone(keys);
  }

  lemma ClausesAlone(keys: seq<SortKey>)
    requires Valid(keys)
    ensures Parse(ToEncodedQuery(keys)) == Parse("")
  {
    var first := Clause(keys[0]);
    ClauseIsInert(keys[0]);
    LoneInert(first);
    if |keys| == 1 {
      assert ToEncodedQuery(keys) == first;
    } else {
      hide Parse, ValidField, Clause, Inert;
      ClausesKeepMeaning(keys[1..], first);
      assert Clauses(keys)[1..] == Clauses(keys[1..]);
      assert ToEncodedQuery(keys) == first + "^" + ToEncodedQuery(keys[1..]);
    }
  }

  /** The clauses come last, after every term and clause the query already had. */
  lemma SortingComesLast(value: string, query: string)
    requires FromString(value).Some? && TrimCarets(Trim(query)) != ""
    ensures var keys := FromString(value).value;
            Terms(ApplyToQuery(keys, Some(query))) == Terms(TrimCarets(Trim(query))) + Clauses(keys)
  {
    ParsedIsValid(value);
    hide Trim, FromString, ValidField;
    TermsSnoc(TrimCarets(Trim(query)), FromString(value).value);
  }

  lemma {:induction false} TermsSnoc(query: string, keys: seq<SortKey>)
    requires Valid(keys)
    ensures Terms(query + "^" + ToEncodedQuery(keys)) == Terms(query) + Clauses(keys)
  {
    hide Split, Clause, ValidField, Join;
    var n := |keys| - 1;
    var last := Clause(keys[n]);
    ClauseParses(keys[n]);
    if n == 0 {
      assert Clauses(keys) == [last];
      JoinOne([last], "^");
      SplitSnoc(query, '^', last);
    } else {
      var front := Clauses(keys[..n]);
      TermsSnoc(query, keys[..n]);
      assert Clauses(keys) == front + [last];
      JoinSnoc(front, last, "^");
      var before := query + "^" + Join(front, "^");
      SplitSnoc(before, '^', last);
      Associates(query + "^", Join(front, "^"), "^", last);
      assert Terms(query) + (front + [last]) == Terms(query) + front + [last];
    }
  }

  lemma Associates(a: string, b: string, c: string, d: string)
    ensures a + (b + c + d) == a + b + c + d
  {
  }

  // --- What is refused ------------------------------------------------------------------

  /** Nothing but the five spellings is a key. */
  lemma OnlySpellings(item: string)
    requires ParseKey(item).Some?
    ensures var key := ParseKey(item).value;
            && ValidField(key.field)
            && (|| (key.direction.Desc? && (item == "ORDERBYDESC" + key.field || item == "-" + key.field))
                || (key.direction.Asc? && (item == "ORDERBY" + key.field || item == key.field))
                || (key.field + ":" <= item
                    && Lower(item[|key.field| + 1..]) == if key.direction.Asc? then "asc" else "desc"))
  {
    hide ValidField, Lower, LastColon;
    var key := ParseKey(item).value;
    if "ORDERBYDESC" <= item {
      assert item == "ORDERBYDESC" + item[11..];
    } else if "ORDERBY" <= item {
      assert item == "ORDERBY" + item[7..];
    } else if "-" <= item {
      assert item == "-" + item[1..];
    } else if LastColon(item).Some? {
      var i := LastColon(item).value;
      assert item[..i + 1] == item[..i] + ":";
    }
  }

  /** A name of letters, digits and underscores. */
  predicate IsName(name: string) {
    name != "" && forall c :: c in name ==> '0' <= c <= '9' || 'A' <= c <= 'Z' || 'a' <= c <= 'z' || c == '_'
  }

  /** A field is valid if and only if it is names joined by single dots. */
  lemma {:induction false} FieldsAreDottedNames(field: string)
    ensures ValidField(field) <==> forall name :: name in Split(field, ".") ==> IsName(name)
    decreases |field|
  {
    hide IsName, ValidField, Split, Find;
    var at := Find(field, ".");
    if at.None? {
      assert Split(field, ".") == [field] by {
        SplitWhole(field, ".");
      }
      CharContains(field, '.');
      UndottedField(field);
    } else {
      var i := at.value;
      SplitAt(field, ".", i);
      var first, rest := field[..i], field[i + 1..];
      BeforeFirst(field, ".", i);
      CharContains(first, '.');
      DotAt(field, i);
      FieldsAreDottedNames(rest);
      DottedField(first, rest);
      assert forall name :: name in Split(field, ".") <==> name == first || name in Split(rest, ".");
    }
  }

  lemma DotAt(field: string, i: nat)
    requires i < |field| && Occurs(field, ".", i)
    ensures field == field[..i] + "." + field[i + 1..]
  {
    assert field[i] == '.';
  }

  lemma UndottedField(field: string)
    requires '.' !in field
    ensures ValidField(field) <==> IsName(field)
  {
    if Contains(field, "..") {
      ContainsNeeds(field, "..", 0);
    }
  }

  lemma DottedField(first: string, rest: string)
    requires '.' !in first
    ensures ValidField(first + "." + rest) <==> IsName(first) && ValidField(rest)
  {
    var field := first + "." + rest;
    TwoDots(first, rest);
    FieldEnds(first, rest);
    hide Contains;
    assert (forall c :: c in field ==> IsFieldChar(c)) <==> (forall c :: c in first ==> IsFieldChar(c)) && (forall c :: c in rest ==> IsFieldChar(c)) by {
      assert forall c :: c in field <==> c in first || c == '.' || c in rest;
    }
  }

  lemma FieldEnds(first: string, rest: string)
    ensures var field := first + "." + rest;
            && (first != "" ==> field[0] == first[0]) && (first == "" ==> field[0] == '.')
            && field[|field| - 1] == if rest == "" then '.' else rest[|rest| - 1]
  {
  }

  lemma TwoDots(first: string, rest: string)
    requires '.' !in first
    ensures Contains(first + "." + rest, "..") <==> Contains(rest, "..") || (rest != "" && rest[0] == '.')
  {
    var field, n := first + "." + rest, |first| + 1;
    assert field[n..] == rest;
    if Contains(rest, "..") {
      var i := Find(rest, "..").value;
      assert rest[i..] == field[n + i..];
      assert Occurs(field, "..", n + i);
    }
    if rest != "" && rest[0] == '.' {
      assert field[|first|..][..2] == "..";
      assert Occurs(field, "..", |first|);
    }
    if Contains(field, "..") {
      var i := Find(field, "..").value;
      assert field[i] == field[i..][0] == '.' && field[i + 1] == field[i..][1] == '.';
      if i >= n {
        assert field[i..] == rest[i - n..];
        assert Occurs(rest, "..", i - n);
      } else {
        assert i == |first|;
        assert field[i + 1] == rest[0];
      }
    }
  }
}
