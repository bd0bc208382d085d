/** Cutting long string fields of records for preview, and reporting every cut by JSON Pointer
  * (RFC 6901). */
module Preview {
  import opened Prelude
  import opened Text

  /** A field value: a string, or some other JSON value. */
  datatype Value = Str(text: string) | Other(id: nat)

  datatype Field = Field(key: string, value: Value)

  /** The fields of a record in key order. */
  type Fields = seq<Field>

  datatype Root = Records | Record

  datatype Entry = Entry(path: string, originalChars: nat, shownChars: nat)

  // --- Paths ------------------------------------------------------------------------

  function Replace(s: string, c: char, by_: string): string {
    if s == "" then ""
    else (if s[0] == c then by_ else [s[0]]) + Replace(s[1..], c, by_)
  }

  function Escape(segment: string): string {
    Replace(Replace(segment, '~', "~0"), '/', "~1")
  }

  function Prefix(root: Root, index: nat): string {
    match root
    case Records => "/records/" + Decimal(index)
    case Record => "/record"
  }

  function RecordPath(root: Root, index: nat, key: string): string {
    Prefix(root, index) + "/" + Escape(key)
  }

  // --- Cuts --------------------------------------------------------------------------

  predicate TooLong(v: Value, limit: nat) {
    v.Str? && |v.text| > limit
  }

  function CutField(f: Field, limit: nat): Field {
    if TooLong(f.value, limit) then f.(value := Str(f.value.text[..limit])) else f
  }

  function CutFields(fields: Fields, limit: nat): (r: Fields)
    ensures |r| == |fields| && forall j :: 0 <= j < |r| ==> r[j] == CutField(fields[j], limit)
  {
    seq(|fields|, j requires 0 <= j < |fields| => CutField(fields[j], limit))
  }

  function Cut(records: seq<Fields>, limit: nat): (r: seq<Fields>)
    ensures |r| == |records| && forall i :: 0 <= i < |r| ==> r[i] == CutFields(records[i], limit)
  {
    seq(|records|, i requires 0 <= i < |records| => CutFields(records[i], limit))
  }

  /** The place of a field. */
  datatype Site = Site(record: nat, field: nat)

  predicate Before(a: Site, b: Site) {
    a.record < b.record || (a.record == b.record && a.field < b.field)
  }

  predicate IsSite(records: seq<Fields>, limit: nat, s: Site) {
    s.record < |records| && s.field < |records[s.record]| && TooLong(records[s.record][s.field].value, limit)
  }

  /** The too long fields of one record, in order. */
  function FieldSites(fields: Fields, limit: nat, record: nat): (r: seq<Site>)
    ensures forall s :: s in r <==> s.record == record && s.field < |fields| && TooLong(fields[s.field].value, limit)
    ensures forall a, b :: 0 <= a < b < |r| ==> Before(r[a], r[b])
  {
    if fields == [] then []
    else
      var n := |fields| - 1;
      FieldSites(fields[..n], limit, record) + if TooLong(fields[n].value, limit) then [Site(record, n)] else []
  }

  function Sites(records: seq<Fields>, limit: nat): (r: seq<Site>)
    ensures forall s :: s in r <==> IsSite(records, limit, s)
    ensures forall a, b :: 0 <= a < b < |r| ==> Before(r[a], r[b])
  {
    if records == [] then []
    else
      var n := |records| - 1;
      var earlier, last := Sites(records[..n], limit), FieldSites(records[n], limit, n);
      InOrder(earlier, last, n);
      earlier + last
  }

  lemma InOrder(earlier: seq<Site>, last: seq<Site>, n: nat)
    requires (forall s :: s in earlier ==> s.record < n) && (forall s :: s in last ==> s.record == n)
    requires forall a, b :: 0 <= a < b < |earlier| ==> Before(earlier[a], earlier[b])
    requires forall a, b :: 0 <= a < b < |last| ==> Before(last[a], last[b])
    ensures forall a, b :: 0 <= a < b < |earlier + last| ==> Before((earlier + last)[a], (earlier + last)[b])
  {
    var all := earlier + last;
    forall a, b | 0 <= a < b < |all| ensures Before(all[a], all[b]) {
      if a < |earlier| <= b {
        assert all[a] in earlier && all[b] in last;
      }
    }
  }

  function EntryAt(records: seq<Fields>, root: Root, limit: nat, s: Site): Entry
    requires IsSite(records, limit, s)
  {
    var f := records[s.record][s.field];
    Entry(RecordPath(root, s.record, f.key), |f.value.text|, limit)
  }

  function Entries(records: seq<Fields>, root: Root, limit: nat, sites: seq<Site>): (r: seq<Entry>)
    requires forall s :: s in sites ==> IsSite(records, limit, s)
    ensures |r| == |sites| && forall k :: 0 <= k < |r| ==> r[k] == EntryAt(records, root, limit, sites[k])
  {
    seq(|sites|, k requires 0 <= k < |sites| => EntryAt(records, root, limit, sites[k]))
  }

  function Report(records: seq<Fields>, root: Root, limit: nat): seq<Entry> {
    Entries(records, root, limit, Sites(records, limit))
  }

  /** The report as far as the first `j` fields of record `i`. */
  function Reported(records: seq<Fields>, root: Root, limit: nat, i: nat, j: nat): seq<Entry>
    requires i < |records| && j <= |records[i]|
  {
    Entries(records, root, limit, Sites(records[..i], limit) + FieldSites(records[i][..j], limit, i))
  }

  lemma ReportedStep(records: seq<Fields>, root: Root, limit: nat, i: nat, j: nat)
    requires i < |records| && j < |records[i]|
    ensures var f := records[i][j];
            Reported(records, root, limit, i, j + 1) ==
              Reported(records, root, limit, i, j)
              + if TooLong(f.value, limit) then [Entry(RecordPath(root, i, f.key), |f.value.text|, limit)] else []
  {
    hide RecordPath;
    assert records[i][..j + 1][..j] == records[i][..j];
    var before := Sites(records[..i], limit) + FieldSites(records[i][..j], limit, i);
    if TooLong(records[i][j].value, limit) {
      assert Sites(records[..i], limit) + FieldSites(records[i][..j + 1], limit, i) == before + [Site(i, j)];
    }
  }

  lemma ReportedRecord(records: seq<Fields>, root: Root, limit: nat, i: nat)
    requires i < |records|
    ensures Reported(records, root, limit, i, 0) == Entries(records, root, limit, Sites(records[..i], limit))
    ensures Reported(records, root, limit, i, |records[i]|) == Entries(records, root, limit, Sites(records[..i + 1], limit))
  {
    hide RecordPath;
    assert Sites(records[..i], limit) + [] == Sites(records[..i], limit);
    assert records[i][..|records[i]|] == records[i];
    assert records[..i + 1][..i] == records[..i];
  }

  function PreviewString(value: string, limit: nat): Option<(string, nat)> {
    if |value| <= limit then None else Some((value[..limit], |value|))
  }

  /** Cuts the long fields of every record in place and reports each cut. */
  method PreviewRecordFields(records: array<Fields>, limit: nat, root: Root) returns (report: seq<Entry>)
    modifies records
    ensures records[..] == Cut(old(records[..]), limit)
    ensures report == Report(old(records[..]), root, limit)
  {
    hide Sites, FieldSites, RecordPath, Entries, Reported, Report;
    ghost var before := records[..];
    report := [];
    NothingReported(before, root, limit);
    for i := 0 to records.Length
      invariant forall k :: 0 <= k < i ==> records[k] == CutFields(before[k], limit)
      invariant forall k :: i <= k < records.Length ==> records[k] == before[k]
      invariant report == Entries(before, root, limit, Sites(before[..i], limit))
    {
      ReportedRecord(before, root, limit, i);
      for j := 0 to |records[i]|
        invariant forall k :: 0 <= k < records.Length && k != i ==>
          records[k] == if k < i then CutFields(before[k], limit) else before[k]
        invariant |records[i]| == |before[i]|
        invariant forall k :: 0 <= k < |before[i]| ==>
          records[i][k] == if k < j then CutField(before[i][k], limit) else before[i][k]
        invariant report == Reported(before, root, limit, i, j)
      {
        ReportedStep(before, root, limit, i, j);
        var field := records[i][j];
        if !field.value.Str? {
          continue;
        }
        var cut := PreviewString(field.value.text, limit);
        if cut.Some? {
          records[i] := records[i][j := field.(value := Str(cut.value.0))];
          report := report + [Entry(RecordPath(root, i, field.key), cut.value.1, limit)];
        }
      }
      assert records[i] == CutFields(before[i], limit);
    }
    assert before[..records.Length] == before;
    AllReported(before, root, limit);
  }

  lemma NothingReported(records: seq<Fields>, root: Root, limit: nat)
    ensures Entries(records, root, limit, Sites(records[..0], limit)) == []
  {
    assert records[..0] == [];
  }

  lemma AllReported(records: seq<Fields>, root: Root, limit: nat)
    ensures Report(records, root, limit) == Entries(records, root, limit, Sites(records, limit))
  {
  }

  // --- Paths lead back -----------------------------------------------------------------

  /** Reads every two-character escape as one character. */
  function Unreplace(s: string, c: char, digit: char): string {
    if s == "" then ""
    else if |s| >= 2 && s[0] == '~' && s[1] == digit then [c] + Unreplace(s[2..], c, digit)
    else [s[0]] + Unreplace(s[1..], c, digit)
  }

  /** RFC 6901, section 4: first `~1`, then `~0`. */
  function Unescape(segment: string): string {
    Unreplace(Unreplace(segment, '/', '1'), '~', '0')
  }

  lemma ReplaceFirst(c: char, rest: string, old_: char, by_: string)
    ensures Replace([c] + rest, old_, by_) == (if c == old_ then by_ else [c]) + Replace(rest, old_, by_)
  {
    assert ([c] + rest)[1..] == rest;
  }

  lemma UnreplaceFirst(a: char, b: char, rest: string, c: char, digit: char)
    ensures a != '~' ==> Unreplace([a] + rest, c, digit) == [a] + Unreplace(rest, c, digit)
    ensures a == '~' && b == digit ==> Unreplace([a, b] + rest, c, digit) == [c] + Unreplace(rest, c, digit)
    ensures a == '~' && b != digit && b != '~' ==> Unreplace([a, b] + rest, c, digit) == [a, b] + Unreplace(rest, c, digit)
  {
    assert ([a] + rest)[1..] == rest && ([b] + rest)[1..] == rest;
    assert ([a, b] + rest)[1..] == [b] + rest && ([a, b] + rest)[2..] == rest;
    if a == '~' && b != digit && b != '~' {
      assert Unreplace([b] + rest, c, digit) == [b] + Unreplace(rest, c, digit);
    }
  }

  lemma {:induction false} SlashesReturn(s: string)
    ensures var tildes := Replace(s, '~', "~0");
            Unreplace(Replace(tildes, '/', "~1"), '/', '1') == tildes
  {
    hide Unreplace, Replace;
    if s == "" {
      NothingReplaced();
    } else {
      SlashesReturn(s[1..]);
      var c, rest := s[0], Replace(s[1..], '~', "~0");
      var more := Replace(rest, '/', "~1");
      assert s == [c] + s[1..];
      ReplaceFirst(c, s[1..], '~', "~0");
      if c == '~' {
        assert "~0" + rest == ['~'] + (['0'] + rest);
        ReplaceFirst('~', ['0'] + rest, '/', "~1");
        ReplaceFirst('0', rest, '/', "~1");
        assert ['~'] + (['0'] + more) == ['~', '0'] + more;
        UnreplaceFirst('~', '0', more, '/', '1');
      } else {
        ReplaceFirst(c, rest, '/', "~1");
        assert "~1" + more == ['~', '1'] + more;
        UnreplaceFirst(c, '1', more, '/', '1');
        UnreplaceFirst('~', '1', more, '/', '1');
      }
    }
  }

  lemma NothingReplaced()
    ensures Replace("", '~', "~0") == "" && Replace("", '/', "~1") == "" && Unreplace("", '/', '1') == ""
  {
  }

  lemma {:induction false} TildesReturn(s: string)
    ensures Unreplace(Replace(s, '~', "~0"), '~', '0') == s
  {
    if s == "" {
    } else {
      TildesReturn(s[1..]);
      var rest := Replace(s[1..], '~', "~0");
      assert (['~', '0'] + rest)[2..] == rest;
      assert ([s[0]] + rest)[1..] == rest;
      assert s == [s[0]] + s[1..];
    }
  }

  lemma EscapeReturns(key: string)
    ensures Unescape(Escape(key)) == key
  {
    SlashesReturn(key);
    TildesReturn(key);
  }

  lemma {:induction false} NoSlashLeft(s: string)
    ensures '/' !in Replace(s, '/', "~1")
  {
    if s == "" {
    } else {
      NoSlashLeft(s[1..]);
    }
  }

  /** An array index: digits without a leading zero. */
  function ParseIndex(s: string): Option<nat> {
    if s == "" || !AllDigits(s) || (s[0] == '0' && |s| > 1) then None else Some(NatOf(s))
  }

  /** The record and field a pointer names in the emitted data. */
  function Locate(path: string, root: Root): Option<(nat, string)> {
    var tokens := Split(path, "/");
    match root
    case Records =>
      if |tokens| == 4 && tokens[0] == "" && tokens[1] == "records" && ParseIndex(tokens[2]).Some? then
        Some((ParseIndex(tokens[2]).value, Unescape(tokens[3])))
      else None
    case Record =>
      if |tokens| == 3 && tokens[0] == "" && tokens[1] == "record" then Some((0, Unescape(tokens[2]))) else None
  }

  lemma DecimalIsIndex(n: nat)
    ensures '/' !in Decimal(n) && ParseIndex(Decimal(n)) == Some(n)
  {
  }

  lemma JoinCons(first: string, rest: seq<string>)
    requires rest != []
    ensures Join([first] + rest, "/") == first + "/" + Join(rest, "/")
  {
    assert ([first] + rest)[1..] == rest;
  }

  lemma TokensJoin(a: string, b: string, c: string)
    ensures Join(["", a, b], "/") == "/" + a + "/" + b
    ensures Join(["", a, b, c], "/") == "/" + a + "/" + b + "/" + c
  {
    JoinCons(b, [c]);
    JoinCons(a, [b]);
    JoinCons(a, [b, c]);
    JoinCons("", [a, b]);
    JoinCons("", [a, b, c]);
    assert Join([b], "/") == b && Join([c], "/") == c;
    hide Join;
    assert [b] + [c] == [b, c] && [a] + [b] == [a, b] && [a] + [b, c] == [a, b, c];
    assert [""] + [a, b] == ["", a, b] && [""] + [a, b, c] == ["", a, b, c];
    assert "" + "/" + (a + "/" + b) == "/" + a + "/" + b;
    assert "" + "/" + (a + "/" + (b + "/" + c)) == "/" + a + "/" + b + "/" + c;
  }

  /** A path splits back into the segments it was made of. */
  lemma PathSplits(a: string, b: string, c: string)
    requires '/' !in a && '/' !in b && '/' !in c
    ensures Split("/" + a + "/" + b, "/") == ["", a, b]
    ensures Split("/" + a + "/" + b + "/" + c, "/") == ["", a, b, c]
  {
    TokensJoin(a, b, c);
    hide *;
    SplitJoinChar(["", a, b], '/');
    SplitJoinChar(["", a, b, c], '/');
  }

  lemma SegmentNames()
    ensures '/' !in "records" && '/' !in "record"
  {
  }

  lemma LocateSplit(path: string, root: Root, digits: string, segment: string)
    requires Split(path, "/") == if root.Records? then ["", "records", digits, segment] else ["", "record", segment]
    requires root.Records? ==> ParseIndex(digits).Some?
    ensures Locate(path, root) == Some((if root.Records? then ParseIndex(digits).value else 0, Unescape(segment)))
  {
    hide Split, ParseIndex, Unescape;
  }

  lemma PathText(root: Root, index: nat, key: string)
    ensures RecordPath(root, index, key) ==
            if root.Records? then "/" + "records" + "/" + Decimal(index) + "/" + Escape(key)
            else "/" + "record" + "/" + Escape(key)
  {
    hide Decimal, Escape;
  }

  /** Evaluating a reported path gives the record and the field it was made for. */
  lemma PathLocates(root: Root, index: nat, key: string)
    requires root.Record? ==> index == 0
    ensures Locate(RecordPath(root, index, key), root) == Some((index, key))
  {
    EscapedHasNoSlash(key);
    hide *;
    EscapeReturns(key);
    DecimalIsIndex(index);
    SegmentNames();
    PathText(root, index, key);
    if root.Records? {
      PathSplits("records", Decimal(index), Escape(key));
    } else {
      PathSplits("record", Escape(key), "");
    }
    LocateSplit(RecordPath(root, index, key), root, Decimal(index), Escape(key));
  }

  lemma EscapedHasNoSlash(key: string)
    ensures '/' !in Escape(key)
  {
    NoSlashLeft(Replace(key, '~', "~0"));
  }

  // --- The report -------------------------------------------------------------------------

  predicate DistinctKeys(fields: Fields) {
    forall a, b :: 0 <= a < b < |fields| ==> fields[a].key != fields[b].key
  }

  ghost predicate WellFormed(records: seq<Fields>, root: Root) {
    (forall r :: r in records ==> DistinctKeys(r)) && (root.Record? ==> |records| <= 1)
  }

  /** Every entry names a field that was cut, with the lengths before and after. */
  lemma EntriesNameTheCuts(records: seq<Fields>, root: Root, limit: nat, k: nat)
    requires root.Record? ==> |records| <= 1
    requires k < |Report(records, root, limit)|
    ensures var e, s := Report(records, root, limit)[k], Sites(records, limit)[k];
            && IsSite(records, limit, s)
            && Locate(e.path, root) == Some((s.record, records[s.record][s.field].key))
            && e.originalChars == |records[s.record][s.field].value.text|
            && e.shownChars == |Cut(records, limit)[s.record][s.field].value.text| == limit
  {
    hide RecordPath, Locate;
    var s := Sites(records, limit)[k];
    assert s in Sites(records, limit);
    PathLocates(root, s.record, records[s.record][s.field].key);
  }

  /** Every field that was changed has an entry. */
  lemma CutsAreReported(records: seq<Fields>, root: Root, limit: nat, s: Site)
    requires s.record < |records| && s.field < |records[s.record]|
    ensures Cut(records, limit)[s.record][s.field] != records[s.record][s.field]
      ==> IsSite(records, limit, s) && EntryAt(records, root, limit, s) in Report(records, root, limit)
  {
    hide RecordPath;
    if IsSite(records, limit, s) {
      var k :| 0 <= k < |Sites(records, limit)| && Sites(records, limit)[k] == s;
      assert Report(records, root, limit)[k] == EntryAt(records, root, limit, s);
    }
  }

  /** No two entries share a path. */
  lemma PathsAreDistinct(records: seq<Fields>, root: Root, limit: nat, a: nat, b: nat)
    requires WellFormed(records, root) && a < b < |Report(records, root, limit)|
    ensures Report(records, root, limit)[a].path != Report(records, root, limit)[b].path
  {
    hide Locate;
    EntriesNameTheCuts(records, root, limit, a);
    EntriesNameTheCuts(records, root, limit, b);
    var x, y := Sites(records, limit)[a], Sites(records, limit)[b];
    assert Before(x, y);
    assert records[x.record] in records;
  }

  /** A second pass finds nothing left to cut. */
  lemma SecondPassIsIdle(records: seq<Fields>, root: Root, limit: nat)
    ensures Report(Cut(records, limit), root, limit) == []
    ensures Cut(Cut(records, limit), limit) == Cut(records, limit)
  {
    hide RecordPath;
    var once := Cut(records, limit);
    if Sites(once, limit) != [] {
      assert Sites(once, limit)[0] in Sites(once, limit);
      assert false;
    }
    forall i | 0 <= i < |once| ensures CutFields(once[i], limit) == once[i] {
    }
  }

  /** After the pass no string is longer than the limit; each is the front of what it was, and
    * whatever already fitted, and every other value and every key, is as it was. */
  lemma CutsAreFronts(records: seq<Fields>, limit: nat, i: nat, j: nat)
    requires i < |records| && j < |records[i]|
    ensures var f, g := records[i][j], Cut(records, limit)[i][j];
            && g.key == f.key && (g.value.Str? <==> f.value.Str?)
            && (f.value.Str? ==> |g.value.text| <= limit && g.value.text <= f.value.text
                                 && (|f.value.text| <= limit ==> g == f)
                                 && (|f.value.text| > limit ==> |g.value.text| == limit))
            && (f.value.Other? ==> g == f)
  {
  }
}
