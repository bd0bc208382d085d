/** Fetching a table page by page, and walking it with one bounded fetch after another. */
module Pagination {
  import opened Prelude

  const MAX: nat := 0xFFFF_FFFF_FFFF_FFFF

  /** The machine word that counts records and offsets. */
  type Usize = n: nat | n <= MAX

  datatype Config = Config(limit: Option<Usize>, offset: Usize, pageSize: Usize)

  datatype Window = Window(offset: Usize, size: Usize)

  datatype Reply<R> = Failure | Page(records: seq<R>, total: Option<Usize>)

  /** The reply to the n-th request. */
  type Server<!R> = (nat, Window) -> Reply<R>

  datatype Error = RequestFailed | OffsetOverflow

  datatype ListResult<R> = ListResult(records: seq<R>, offset: Usize, total: Option<Usize>, truncated: bool) {
    /** The row behind the last one returned, when rows are missing and it can be named. */
    function NextOffset(): (next: Option<Usize>)
      ensures next.Some? ==> truncated && offset < next.value && next.value - offset == |records|
      ensures next.None? ==> !truncated || |records| == 0 || |records| > MAX - offset
    {
      if truncated && offset + |records| <= MAX && records != [] then Some(offset + |records|) else None
    }
  }

  datatype Progress<R> = Progress(records: seq<R>, offset: Usize, total: Option<Usize>)

  datatype Verdict<R> = Again(progress: Progress<R>) | Stop(result: Result<ListResult<R>, Error>)

  /** A finished fetch and the requests it sent. */
  datatype Fetched<R> = Fetched(result: Result<ListResult<R>, Error>, sent: seq<Window>)

  function Min(a: nat, b: nat): nat {
    if a <= b then a else b
  }

  /** Never more than the limit still allows. */
  function RequestSize(c: Config, have: nat): Usize {
    match c.limit
    case None => c.pageSize
    case Some(limit) => Min(c.pageSize, if have <= limit then limit - have else 0)
  }

  function Finish<R>(c: Config, p: Progress<R>, maybeMore: bool): ListResult<R> {
    var truncated :=
      match p.total
      case Some(t) => p.records != [] && Min(MAX, c.offset + |p.records|) < t
      case None => maybeMore;
    ListResult(p.records, c.offset, p.total, truncated)
  }

  function Step<R>(c: Config, p: Progress<R>, reply: Reply<R>): Verdict<R> {
    var size := RequestSize(c, |p.records|);
    match reply
    case Failure => Stop(Err(RequestFailed))
    case Page(page, total) =>
      var q := Progress(p.records + page, p.offset, if p.total.None? then total else p.total);
      if c.limit.Some? && |q.records| >= c.limit.value then
        Stop(Ok(Finish(c, q.(records := q.records[..c.limit.value]), |q.records| > c.limit.value || |page| == size)))
      else if |page| < size then Stop(Ok(Finish(c, q, false)))
      else if p.offset + size > MAX then Stop(Err(OffsetOverflow))
      else Again(q.(offset := p.offset + size))
  }

  function Rounds<R>(server: Server<R>, n: nat, c: Config, p: Progress<R>): (f: Fetched<R>)
    requires c.pageSize >= 1
    ensures f.result.Ok? ==> f.result.value.offset == c.offset
    decreases MAX - p.offset
  {
    var w := Window(p.offset, RequestSize(c, |p.records|));
    match Step(c, p, server(n, w))
    case Stop(result) => Fetched(result, [w])
    case Again(q) =>
      var rest := Rounds(server, n + 1, c, q);
      Fetched(rest.result, [w] + rest.sent)
  }

  function Fetch<R>(server: Server<R>, n: nat, c: Config): (f: Fetched<R>)
    requires c.pageSize >= 1
    ensures f.result.Ok? ==> f.result.value.offset == c.offset
  {
    Rounds(server, n, c, Progress([], c.offset, None))
  }

  method GetTableRecords<R>(server: Server<R>, c: Config) returns (result: Result<ListResult<R>, Error>, sent: seq<Window>)
    requires c.pageSize >= 1
    ensures Fetched(result, sent) == Fetch(server, 0, c)
  {
    hide Rounds;
    var records: seq<R>, total: Option<Usize>, n := [], None, 0;
    var offset: Usize := c.offset;
    var maybeMore := false;
    sent := [];
    while true
      invariant Fetch(server, 0, c) == Behind(sent, Rounds(server, n, c, Progress(records, offset, total)))
      invariant !maybeMore
      decreases MAX - offset
    {
      RoundOnce(server, n, c, Progress(records, offset, total), sent);
      var size := RequestSize(c, |records|);
      var reply := server(n, Window(offset, size));
      sent, n := sent + [Window(offset, size)], n + 1;
      if reply.Failure? {
        return Err(RequestFailed), sent;
      }
      if total.None? {
        total := reply.total;
      }
      records := records + reply.records;
      if c.limit.Some? && |records| >= c.limit.value {
        maybeMore := |records| > c.limit.value || |reply.records| == size;
        records := records[..c.limit.value];
        break;
      }
      if |reply.records| < size {
        break;
      }
      if offset + size > MAX {
        return Err(OffsetOverflow), sent;
      }
      offset := offset + size;
    }
    result := Ok(Finish(c, Progress(records, offset, total), maybeMore));
  }

  /** A fetch with requests that were sent before it. */
  function Behind<R>(sent: seq<Window>, f: Fetched<R>): Fetched<R> {
    Fetched(f.result, sent + f.sent)
  }

  lemma RoundOnce<R>(server: Server<R>, n: nat, c: Config, p: Progress<R>, sent: seq<Window>)
    requires c.pageSize >= 1
    ensures var w := Window(p.offset, RequestSize(c, |p.records|));
            Behind(sent, Rounds(server, n, c, p)) ==
              match Step(c, p, server(n, w))
              case Stop(result) => Fetched(result, sent + [w])
              case Again(q) => Behind(sent + [w], Rounds(server, n + 1, c, q))
  {
    hide Step;
    var w := Window(p.offset, RequestSize(c, |p.records|));
    match Step(c, p, server(n, w))
    case Stop(_) =>
    case Again(q) =>
      assert sent + ([w] + Rounds(server, n + 1, c, q).sent) == sent + [w] + Rounds(server, n + 1, c, q).sent;
  }

  // --- Any server -------------------------------------------------------------------

  function RecordsOf<R>(reply: Reply<R>): seq<R> {
    if reply.Page? then reply.records else []
  }

  /** Everything the server delivered for the requests, in order. */
  function Delivered<R>(server: Server<R>, n: nat, sent: seq<Window>): seq<R>
    decreases |sent|
  {
    if sent == [] then [] else RecordsOf(server(n, sent[0])) + Delivered(server, n + 1, sent[1..])
  }

  function Take<R>(s: seq<R>, limit: Option<Usize>): seq<R> {
    if limit.Some? && limit.value < |s| then s[..limit.value] else s
  }

  /** Each request starts where the one before it ended. */
  predicate Contiguous(sent: seq<Window>, start: nat) {
    sent != [] ==> sent[0].offset == start && Contiguous(sent[1..], start + sent[0].size)
  }

  function End(sent: seq<Window>): nat
    requires sent != []
  {
    sent[|sent| - 1].offset + sent[|sent| - 1].size
  }

  predicate WithinLimit(c: Config, sent: seq<Window>)
    requires sent != []
  {
    c.limit.Some? ==> End(sent) <= c.offset + c.limit.value
  }

  /** The delivered records, cut at the limit, and no cut unreported for want of a total. */
  ghost predicate Faithful<R>(c: Config, delivered: seq<R>, result: Result<ListResult<R>, Error>) {
    result.Ok? ==>
      && result.value.records == Take(delivered, c.limit)
      && (result.value.total.None? && c.limit.Some? && |delivered| > c.limit.value ==> result.value.truncated)
  }

  lemma StopIsFaithful<R>(c: Config, p: Progress<R>, reply: Reply<R>)
    requires Step(c, p, reply).Stop?
    ensures Faithful(c, p.records + RecordsOf(reply), Step(c, p, reply).result)
  {
  }

  lemma AgainExtends<R>(c: Config, p: Progress<R>, reply: Reply<R>)
    requires c.pageSize >= 1 && Step(c, p, reply).Again?
    requires c.offset <= p.offset <= c.offset + |p.records|
    ensures var q := Step(c, p, reply).progress;
            && q.records == p.records + RecordsOf(reply)
            && q.offset == p.offset + RequestSize(c, |p.records|) && p.offset < q.offset <= c.offset + |q.records|
            && (c.limit.Some? ==> |q.records| < c.limit.value)
  {
  }

  lemma {:induction false} AnyWindows<R>(server: Server<R>, n: nat, c: Config, p: Progress<R>)
    requires c.pageSize >= 1
    requires c.offset <= p.offset <= c.offset + |p.records|
    requires c.limit.Some? ==> |p.records| < c.limit.value || p.records == []
    ensures var sent := Rounds(server, n, c, p).sent;
            sent != [] && Contiguous(sent, p.offset) && WithinLimit(c, sent)
    decreases MAX - p.offset
  {
    hide Step;
    var w := Window(p.offset, RequestSize(c, |p.records|));
    match Step(c, p, server(n, w))
    case Stop(_) =>
    case Again(q) =>
      AgainExtends(c, p, server(n, w));
      AnyWindows(server, n + 1, c, q);
      assert Rounds(server, n, c, p).sent[1..] == Rounds(server, n + 1, c, q).sent;
  }

  lemma {:induction false} AnyRecords<R>(server: Server<R>, n: nat, c: Config, p: Progress<R>)
    requires c.pageSize >= 1
    requires c.offset <= p.offset <= c.offset + |p.records|
    ensures var f := Rounds(server, n, c, p);
            Faithful(c, p.records + Delivered(server, n, f.sent), f.result)
    decreases MAX - p.offset
  {
    hide Step, Faithful, RecordsOf, RequestSize;
    var w := Window(p.offset, RequestSize(c, |p.records|));
    var reply := server(n, w);
    var f := Rounds(server, n, c, p);
    match Step(c, p, reply)
    case Stop(result) =>
      StopIsFaithful(c, p, reply);
      assert f.sent[1..] == [];
      assert Delivered(server, n, f.sent) == RecordsOf(reply);
    case Again(q) =>
      AgainExtends(c, p, reply);
      AnyRecords(server, n + 1, c, q);
      assert f.sent[1..] == Rounds(server, n + 1, c, q).sent;
      assert p.records + Delivered(server, n, f.sent) == q.records + Delivered(server, n + 1, f.sent[1..]);
  }

  /** Whatever the server replies, the fetch ends. Its requests follow each other without
    * gap or overlap and stay within the limit; what it returns is what was delivered, cut
    * at the limit, and without a reported total a cut never goes unreported. */
  lemma FetchFromAnyServer<R>(server: Server<R>, n: nat, c: Config)
    requires c.pageSize >= 1
    ensures var f := Fetch(server, n, c);
            && f.sent != [] && Contiguous(f.sent, c.offset) && WithinLimit(c, f.sent)
            && Faithful(c, Delivered(server, n, f.sent), f.result)
  {
    AnyWindows(server, n, c, Progress([], c.offset, None));
    AnyRecords(server, n, c, Progress([], c.offset, None));
    var all := Delivered(server, n, Fetch(server, n, c).sent);
    assert [] + all == all;
  }

  // --- How a fetch ends -----------------------------------------------------------------

  predicate Reached(c: Config, have: nat) {
    c.limit.Some? && have >= c.limit.value
  }

  /** The first total that any reply reported. */
  function FirstTotal<R>(server: Server<R>, n: nat, sent: seq<Window>): Option<Usize>
    decreases |sent|
  {
    if sent == [] then None
    else if server(n, sent[0]).Page? && server(n, sent[0]).total.Some? then server(n, sent[0]).total
    else FirstTotal(server, n + 1, sent[1..])
  }

  /** Each request asks for a page, or for as much of one as the limit still allows; and every
    * request but the last was answered by a full page that left the limit unreached. */
  ghost predicate Marched<R>(server: Server<R>, n: nat, c: Config, have: nat, sent: seq<Window>)
    decreases |sent|
  {
    sent != [] ==>
      && sent[0].size == (if c.limit.None? || c.limit.value >= have + c.pageSize then c.pageSize
                          else if c.limit.value >= have then c.limit.value - have else 0)
      && (|sent| > 1 ==>
            var reply := server(n, sent[0]);
            && reply.Page? && |reply.records| >= sent[0].size && !Reached(c, have + |reply.records|)
            && Marched(server, n + 1, c, have + |reply.records|, sent[1..]))
  }

  /** What the last reply makes of the fetch, given how many records came in all and the
    * total known. */
  ghost predicate Concluded<R>(c: Config, all: nat, total: Option<Usize>, w: Window, reply: Reply<R>, result: Result<ListResult<R>, Error>) {
    var full := reply.Page? && |reply.records| >= w.size;
    && (result == Err(RequestFailed) <==> reply.Failure?)
    && (result.Ok? <==> reply.Page? && (Reached(c, all) || !full))
    && (result == Err(OffsetOverflow) <==> full && !Reached(c, all) && w.offset + w.size > MAX)
    && (result.Ok? ==>
          && result.value.total == total
          && (result.value.truncated <==>
                match total
                case Some(t) => result.value.records != [] && c.offset + |result.value.records| < t
                case None => Reached(c, all) && (all > c.limit.value || |reply.records| == w.size)))
  }

  lemma StopConcludes<R>(c: Config, p: Progress<R>, reply: Reply<R>)
    requires Step(c, p, reply).Stop?
    ensures Concluded(c, |p.records| + |RecordsOf(reply)|,
                      if p.total.Some? then p.total else if reply.Page? then reply.total else None,
                      Window(p.offset, RequestSize(c, |p.records|)), reply, Step(c, p, reply).result)
  {
  }

  lemma AgainMarches<R>(c: Config, p: Progress<R>, reply: Reply<R>)
    requires Step(c, p, reply).Again?
    ensures var q := Step(c, p, reply).progress;
            && reply.Page? && |reply.records| >= RequestSize(c, |p.records|)
            && |q.records| == |p.records| + |reply.records| && !Reached(c, |q.records|)
            && q.total == if p.total.Some? then p.total else reply.total
  {
  }

  lemma {:induction false} RoundsConclude<R>(server: Server<R>, n: nat, c: Config, p: Progress<R>)
    requires c.pageSize >= 1
    requires c.offset <= p.offset <= c.offset + |p.records|
    ensures var f := Rounds(server, n, c, p);
            && f.sent != [] && Marched(server, n, c, |p.records|, f.sent)
            && Concluded(c, |p.records| + |Delivered(server, n, f.sent)|,
                         if p.total.Some? then p.total else FirstTotal(server, n, f.sent),
                         f.sent[|f.sent| - 1], server(n + |f.sent| - 1, f.sent[|f.sent| - 1]), f.result)
    decreases MAX - p.offset
  {
    hide Step, Concluded, Reached, RecordsOf, Marched, Delivered, FirstTotal, RequestSize;
    var w := Window(p.offset, RequestSize(c, |p.records|));
    var reply := server(n, w);
    match Step(c, p, reply)
    case Stop(_) =>
      StopConcludes(c, p, reply);
      OneRequest(server, n, w);
      MarchedOnce(server, n, c, |p.records|, p.offset);
    case Again(q) =>
      AgainMarches(c, p, reply);
      AgainExtends(c, p, reply);
      RoundsConclude(server, n + 1, c, q);
      var rest := Rounds(server, n + 1, c, q).sent;
      MoreRequests(server, n, w, rest);
      MarchedOn(server, n, c, |p.records|, p.offset, rest);
      assert ([w] + rest)[|rest|] == rest[|rest| - 1];
  }

  lemma MarchedOnce<R>(server: Server<R>, n: nat, c: Config, have: nat, offset: Usize)
    ensures Marched(server, n, c, have, [Window(offset, RequestSize(c, have))])
  {
  }

  lemma MarchedOn<R>(server: Server<R>, n: nat, c: Config, have: nat, offset: Usize, rest: seq<Window>)
    requires var w := Window(offset, RequestSize(c, have));
             var reply := server(n, w);
             && reply.Page? && |reply.records| >= w.size && !Reached(c, have + |reply.records|)
             && Marched(server, n + 1, c, have + |reply.records|, rest)
    ensures Marched(server, n, c, have, [Window(offset, RequestSize(c, have))] + rest)
  {
    hide Reached;
    assert ([Window(offset, RequestSize(c, have))] + rest)[1..] == rest;
  }

  lemma OneRequest<R>(server: Server<R>, n: nat, w: Window)
    ensures Delivered(server, n, [w]) == RecordsOf(server(n, w))
    ensures FirstTotal(server, n, [w]) == if server(n, w).Page? then server(n, w).total else None
  {
    assert [w][1..] == [];
  }

  lemma MoreRequests<R>(server: Server<R>, n: nat, w: Window, rest: seq<Window>)
    requires server(n, w).Page?
    ensures |Delivered(server, n, [w] + rest)| == |server(n, w).records| + |Delivered(server, n + 1, rest)|
    ensures FirstTotal(server, n, [w] + rest) == if server(n, w).total.Some? then server(n, w).total else FirstTotal(server, n + 1, rest)
  {
    assert ([w] + rest)[1..] == rest;
  }

  /** Whatever the server replies: every request but the last was answered by a full page and
    * left the limit unreached. The fetch fails exactly when its last request failed; it
    * succeeds exactly when the last page was short or reached the limit; and it gives up with
    * an overflow exactly when a further page was due at an offset beyond a machine word. A
    * result carries the first total reported and says whether it was cut. */
  lemma FetchEndsWithItsLastReply<R>(server: Server<R>, n: nat, c: Config)
    requires c.pageSize >= 1
    ensures var f := Fetch(server, n, c);
            && f.sent != [] && Marched(server, n, c, 0, f.sent)
            && Concluded(c, |Delivered(server, n, f.sent)|, FirstTotal(server, n, f.sent),
                         f.sent[|f.sent| - 1], server(n + |f.sent| - 1, f.sent[|f.sent| - 1]), f.result)
  {
    hide Concluded, Marched, Rounds;
    RoundsConclude(server, n, c, Progress([], c.offset, None));
  }

  // --- When a fetch ends --------------------------------------------------------------

  /** Where the fetch stands after `n` requests, for any page size. */
  function VerdictAfter<R>(server: Server<R>, c: Config, n: nat): Verdict<R> {
    if n == 0 then Again(Progress([], c.offset, None))
    else
      match VerdictAfter(server, c, n - 1)
      case Stop(result) => Stop(result)
      case Again(p) => Step(c, p, server(n - 1, Window(p.offset, RequestSize(c, |p.records|))))
  }

  ghost predicate Ends<R(!new)>(server: Server<R>, c: Config) {
    exists n: nat :: VerdictAfter(server, c, n).Stop?
  }

  /** A request size that lets the fetch end, whatever is answered. */
  predicate MustEnd(c: Config) {
    c.pageSize >= 1 || c.limit == Some(0)
  }

  lemma {:induction false} EndsFrom<R(!new)>(server: Server<R>, c: Config, n: nat)
    requires c.pageSize >= 1 && VerdictAfter(server, c, n).Again?
    requires c.offset <= VerdictAfter(server, c, n).progress.offset <= c.offset + |VerdictAfter(server, c, n).progress.records|
    ensures Ends(server, c)
    decreases MAX - VerdictAfter(server, c, n).progress.offset
  {
    hide Step;
    var p := VerdictAfter(server, c, n).progress;
    var reply := server(n, Window(p.offset, RequestSize(c, |p.records|)));
    if Step(c, p, reply).Again? {
      AgainExtends(c, p, reply);
      EndsFrom(server, c, n + 1);
    } else {
      assert VerdictAfter(server, c, n + 1).Stop?;
    }
  }

  lemma LimitZeroEnds<R(!new)>(server: Server<R>, c: Config)
    requires c.limit == Some(0)
    ensures VerdictAfter(server, c, 1).Stop?
  {
    assert VerdictAfter(server, c, 0).Again?;
  }

  /** Answers every request with no records. */
  function Silent<R>(): Server<R> {
    (n: nat, w: Window) => Page([], None)
  }

  lemma {:induction false} SilentSpins<R(!new)>(c: Config, n: nat)
    requires !MustEnd(c)
    ensures VerdictAfter(Silent<R>(), c, n) == Again(Progress([], c.offset, None))
  {
    if n == 0 {
    } else {
      SilentSpins<R>(c, n - 1);
    }
  }

  /** The fetch ends against every server if and only if the page size is at least one or
    * the limit is zero. Otherwise a server without records keeps it asking forever. */
  lemma EndsExactlyWhenItMust<R(!new)>(c: Config)
    ensures (forall server: Server<R> :: Ends(server, c)) <==> MustEnd(c)
    ensures !MustEnd(c) ==> forall n: nat :: VerdictAfter(Silent<R>(), c, n).Again?
  {
    if MustEnd(c) {
      forall server: Server<R> ensures Ends(server, c) {
        if c.limit == Some(0) {
          LimitZeroEnds(server, c);
        } else {
          EndsFrom(server, c, 0);
        }
      }
    } else {
      forall n: nat ensures VerdictAfter(Silent<R>(), c, n).Again? {
        SilentSpins<R>(c, n);
      }
      assert !Ends(Silent<R>(), c);
    }
  }

  lemma {:induction false} RoundsAreTheVerdict<R(!new)>(server: Server<R>, c: Config, n: nat)
    requires c.pageSize >= 1 && VerdictAfter(server, c, n).Again?
    ensures exists m: nat :: VerdictAfter(server, c, m) == Stop(Rounds(server, n, c, VerdictAfter(server, c, n).progress).result)
    decreases MAX - VerdictAfter(server, c, n).progress.offset
  {
    var p := VerdictAfter(server, c, n).progress;
    match Step(c, p, server(n, Window(p.offset, RequestSize(c, |p.records|))))
    case Stop(result) =>
      assert VerdictAfter(server, c, n + 1) == Stop(result);
    case Again(q) =>
      assert VerdictAfter(server, c, n + 1) == Again(q);
      RoundsAreTheVerdict(server, c, n + 1);
  }

  /** Those verdicts end in what the fetch returns. */
  lemma VerdictsEndInTheFetch<R(!new)>(server: Server<R>, c: Config)
    requires c.pageSize >= 1
    ensures exists m: nat :: VerdictAfter(server, c, m) == Stop(Fetch(server, 0, c).result)
  {
    RoundsAreTheVerdict(server, c, 0);
  }

  // --- An honest server --------------------------------------------------------------

  function Slice<R>(list: seq<R>, offset: nat, size: nat): seq<R> {
    if offset >= |list| then [] else list[offset..Min(offset + size, |list|)]
  }

  /** Serves windows of one unchanging list, with or without its length. */
  ghost predicate Honest<R>(server: Server<R>, list: seq<R>) {
    && |list| <= MAX
    && forall n: nat, w: Window ::
      && server(n, w).Page? && server(n, w).records == Slice(list, w.offset, w.size)
      && (server(n, w).total.Some? ==> server(n, w).total.value == |list|)
  }

  function Wanted<R>(list: seq<R>, c: Config): seq<R> {
    Slice(list, c.offset, if c.limit.Some? then c.limit.value else |list|)
  }

  /** Progress made against an honest server: a slice of the list, still below the limit. */
  ghost predicate OnTrack<R>(list: seq<R>, c: Config, p: Progress<R>) {
    && p.offset == c.offset + |p.records| && p.records == Slice(list, c.offset, |p.records|)
    && (c.limit.Some? ==> |p.records| < c.limit.value || p.records == [])
    && (p.total.Some? ==> p.total.value == |list|)
  }

  /** The wanted slice. With a total, `truncated` says whether rows are missing behind a
    * non-empty result; without one, whether the limit was reached. */
  ghost predicate Exact<R>(list: seq<R>, c: Config, r: Result<ListResult<R>, Error>) {
    && r.Ok? && r.value.records == Wanted(list, c) && r.value.offset == c.offset
    && (r.value.total.Some? ==> r.value.total.value == |list|)
    && (r.value.truncated <==>
      if r.value.total.Some? then r.value.records != [] && c.offset + |r.value.records| < |list|
      else c.limit.Some? && |r.value.records| == c.limit.value)
  }

  lemma SlicesJoin<R>(list: seq<R>, offset: nat, have: nat, size: nat)
    ensures |Slice(list, offset, have)| == have ==>
      Slice(list, offset, have) + Slice(list, offset + have, size) == Slice(list, offset, have + size)
    ensures |Slice(list, offset, size)| == if offset >= |list| then 0 else Min(size, |list| - offset)
  {
  }

  lemma HonestStep<R>(list: seq<R>, c: Config, p: Progress<R>, reply: Reply<R>)
    requires c.pageSize >= 1 && |list| <= MAX && OnTrack(list, c, p)
    requires reply.Page? && reply.records == Slice(list, p.offset, RequestSize(c, |p.records|))
    requires reply.total.Some? ==> reply.total.value == |list|
    ensures match Step(c, p, reply)
            case Again(q) => OnTrack(list, c, q) && q.offset > p.offset
            case Stop(r) => Exact(list, c, r)
  {
    hide Slice, Step, Exact, OnTrack;
    OnTrackFacts(list, c, p);
    var have, size := |p.records|, RequestSize(c, |p.records|);
    var all := p.records + reply.records;
    SlicesJoin(list, c.offset, have, size);
    SlicesJoin(list, p.offset, 0, size);
    var total := if p.total.None? then reply.total else p.total;
    StepUnfolded(c, p, reply);
    if c.limit.Some? && |all| >= c.limit.value {
      assert all[..|all|] == all;
      FinishedExact(list, c, Progress(all, p.offset, total), true);
    } else if |reply.records| < size {
      SliceToEnd(list, c.offset, have + size);
      FinishedExact(list, c, Progress(all, p.offset, total), false);
    } else {
      FullPageOnTrack(list, c, Progress(all, p.offset + size, total));
    }
  }

  lemma OnTrackFacts<R>(list: seq<R>, c: Config, p: Progress<R>)
    requires OnTrack(list, c, p)
    ensures p.offset == c.offset + |p.records| && p.records == Slice(list, c.offset, |p.records|)
    ensures c.limit.Some? ==> |p.records| < c.limit.value || p.records == []
    ensures p.total.Some? ==> p.total.value == |list|
  {
  }

  lemma StepUnfolded<R>(c: Config, p: Progress<R>, reply: Reply<R>)
    requires reply.Page?
    ensures var size := RequestSize(c, |p.records|);
            var q := Progress(p.records + reply.records, p.offset, if p.total.None? then reply.total else p.total);
            Step(c, p, reply) ==
              if c.limit.Some? && |q.records| >= c.limit.value then
                Stop(Ok(Finish(c, q.(records := q.records[..c.limit.value]), |q.records| > c.limit.value || |reply.records| == size)))
              else if |reply.records| < size then Stop(Ok(Finish(c, q, false)))
              else if p.offset + size > MAX then Stop(Err(OffsetOverflow))
              else Again(q.(offset := p.offset + size))
  {
  }

  lemma SliceToEnd<R>(list: seq<R>, offset: nat, size: nat)
    requires |Slice(list, offset, size)| < size
    ensures forall more: nat :: more >= |Slice(list, offset, size)| ==> Slice(list, offset, more) == Slice(list, offset, size)
    ensures Slice(list, offset, |list|) == Slice(list, offset, size)
    ensures offset + |Slice(list, offset, size)| >= |list|
  {
  }

  lemma FullPageOnTrack<R>(list: seq<R>, c: Config, p: Progress<R>)
    requires p.offset == c.offset + |p.records| && p.records == Slice(list, c.offset, |p.records|)
    requires c.limit.Some? ==> |p.records| < c.limit.value
    requires p.total.Some? ==> p.total.value == |list|
    ensures OnTrack(list, c, p)
  {
  }

  lemma FinishedExact<R>(list: seq<R>, c: Config, p: Progress<R>, atLimit: bool)
    requires |list| <= MAX && p.records == Wanted(list, c) && (p.total.Some? ==> p.total.value == |list|)
    requires atLimit <==> c.limit.Some? && |p.records| == c.limit.value
    ensures Exact(list, c, Ok(Finish(c, p, atLimit)))
  {
  }

  lemma {:induction false} HonestRounds<R>(server: Server<R>, list: seq<R>, n: nat, c: Config, p: Progress<R>)
    requires c.pageSize >= 1 && Honest(server, list) && OnTrack(list, c, p)
    ensures Exact(list, c, Rounds(server, n, c, p).result)
    decreases MAX - p.offset
  {
    var w := Window(p.offset, RequestSize(c, |p.records|));
    var reply := server(n, w);
    HonestStep(list, c, p, reply);
    hide Step, OnTrack, Exact, Slice;
    match Step(c, p, reply)
    case Again(q) => HonestRounds(server, list, n + 1, c, q);
    case Stop(_) =>
  }

  /** Against an honest server the fetch never fails, and without a total no incomplete
    * result passes for a complete one. */
  lemma FetchFromHonestServer<R>(server: Server<R>, list: seq<R>, n: nat, c: Config)
    requires c.pageSize >= 1 && Honest(server, list)
    ensures var r := Fetch(server, n, c).result;
            && Exact(list, c, r)
            && (r.value.total.None? && c.offset + |r.value.records| < |list| ==> r.value.truncated)
  {
    HonestRounds(server, list, n, c, Progress([], c.offset, None));
  }

  // --- Walking ------------------------------------------------------------------------

  function Flatten<R>(pages: seq<seq<R>>): seq<R> {
    if pages == [] then [] else pages[0] + Flatten(pages[1..])
  }

  /** One bounded fetch after another, each from where the last one said to go on. */
  function Walk<R>(server: Server<R>, n: nat, c: Config): (pages: seq<seq<R>>)
    requires c.pageSize >= 1
    decreases MAX - c.offset
  {
    var f := Fetch(server, n, c);
    if f.result.Err? then []
    else
      match f.result.value.NextOffset()
      case Some(next) =>
        [f.result.value.records] + Walk(server, n + |f.sent|, c.(offset := next))
      case None => [f.result.value.records]
  }

  function Rest<R>(list: seq<R>, offset: nat): seq<R> {
    if offset >= |list| then [] else list[offset..]
  }

  lemma PageAndRest<R>(list: seq<R>, c: Config, r: ListResult<R>)
    requires |list| <= MAX && Exact(list, c, Ok(r)) && c.limit != Some(0)
    ensures match r.NextOffset()
            case None => r.records == Rest(list, c.offset)
            case Some(next) => r.records + Rest(list, next) == Rest(list, c.offset)
  {
  }

  /** The pages of a walk are the list from the start offset, each row once. */
  lemma {:induction false} WalkCoversTheList<R>(server: Server<R>, list: seq<R>, n: nat, c: Config)
    requires c.pageSize >= 1 && Honest(server, list) && c.limit != Some(0)
    ensures Flatten(Walk(server, n, c)) == Rest(list, c.offset)
    decreases MAX - c.offset
  {
    hide Fetch, Exact, Rest;
    var f := Fetch(server, n, c);
    FetchFromHonestServer(server, list, n, c);
    var r := ExactResult(list, c, f.result);
    PageAndRest(list, c, r);
    var pages := Walk(server, n, c);
    match r.NextOffset()
    case None =>
      assert pages == [r.records] && pages[1..] == [];
      assert Flatten(pages) == r.records + [];
    case Some(next) =>
      var rest := Walk(server, n + |f.sent|, c.(offset := next));
      WalkCoversTheList(server, list, n + |f.sent|, c.(offset := next));
      assert pages == [r.records] + rest && pages[1..] == rest;
  }

  lemma ExactResult<R>(list: seq<R>, c: Config, result: Result<ListResult<R>, Error>) returns (r: ListResult<R>)
    requires Exact(list, c, result)
    ensures result == Ok(r) && r.offset == c.offset
  {
    r := result.value;
  }
}
