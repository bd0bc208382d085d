/** What every step of the bridge keeps, and what follows for whole runs. */
module BridgeInvariants {
  import opened Prelude
  import opened Gates
  import opened Bridge

  // --- The invariant -------------------------------------------------------

  /** Installed generations only grow, and the status never runs ahead of them. */
  ghost predicate GenerationsOk(b: State) {
    && (b.conn.Some? ==> b.conn.value == b.installed && 1 <= b.installed)
    && b.status.generation <= b.installed
    && (match b.attach
        case Idle => b.counter == b.installed == b.status.generation
        case Numbered(g) => b.counter == g == b.installed + 1 && b.status.generation == b.installed
        case Installed(g, previous) =>
          && b.counter == g == b.installed && b.status.generation < g
          && (previous.Some? ==> previous.value < g)
        case Drained(g) => b.counter == g == b.installed && b.status.generation < g)
    && (forall g :: g in b.detaching ==> g <= b.installed && b.conn != Some(g) && Previous(b) != Some(g))
    && (forall g :: g in b.retired ==> g <= b.installed && !Alive(b, g))
  }

  function Previous(b: State): Option<nat> {
    if b.attach.Installed? then b.attach.previous else None
  }

  /** The generation is installed, or its teardown has not failed its waiters yet. A teardown
    * entered from the reader aborts its own task; when that cancels it at the lock on the
    * waiters it never fails them, and the generation stays here for good. */
  ghost predicate Alive(b: State, generation: nat) {
    || b.conn == Some(generation)
    || generation in b.detaching
    || Previous(b) == Some(generation)
  }

  ghost predicate Increasing(ws: seq<Waiter>) {
    forall i, j :: 0 <= i < j < |ws| ==> ws[i].id < ws[j].id
  }

  /** Every waiter ever registered is either pending, once, or closed. */
  ghost predicate WaitersOk(b: State) {
    && (forall i :: 0 <= i < |b.registered| ==> b.registered[i].id == i)
    && (forall i :: 0 <= i < |b.registered| ==> (i in b.closed <==> b.registered[i] !in b.waiters))
    && (forall i :: i in b.closed ==> i < |b.registered|)
    && (forall w :: w in b.waiters ==> w.id < |b.registered| && w == b.registered[w.id])
    && Increasing(b.waiters)
  }

  ghost predicate PendingOk(b: State) {
    forall w :: w in b.waiters && w.generation.Some? ==> Alive(b, w.generation.value)
  }

  /** An id the bridge generates names the one request that carries it. */
  ghost predicate OwnId(id: RequestId, request: nat) {
    id.Client? || id.request == request
  }

  ghost predicate FrameOk(b: State, f: Frame) {
    && f.waiter < |b.registered|
    && b.registered[f.waiter].generation == Some(f.generation)
    && 1 <= f.generation <= b.installed
    && (f.correlation.Some? ==> OwnId(f.correlation.value, f.waiter))
  }

  /** A request is enqueued at most once, right when it is registered. */
  ghost predicate Ordered(frames: seq<Frame>) {
    forall i, j :: 0 <= i < j < |frames| ==> frames[i].waiter < frames[j].waiter
  }

  ghost predicate IdsOk(b: State) {
    && (forall f :: f in b.frames ==> FrameOk(b, f))
    && (forall i :: 0 <= i < |b.registered| && b.registered[i].matcher.Correlation? ==>
          OwnId(b.registered[i].matcher.id, i))
    && (forall g :: g in b.reading && b.reading[g].message.requestId.Some? ==>
          Heard(b, g, b.reading[g].message.requestId.value))
  }

  ghost predicate ClosingOk(b: State, request: nat, closing: Closing) {
    && request < |b.registered|
    && match closing
       case Failed => b.registered[request].generation.Some?
       case Swept => request in b.abandoned
       case Answered(m, from) =>
         && b.registered[request].matcher.Matches(m) && m in b.delivered
         && (m.requestId.Some? ==> Heard(b, from, m.requestId.value))
  }

  ghost predicate ClosedOk(b: State) {
    forall i :: i in b.closed ==> ClosingOk(b, i, b.closed[i])
  }

  /** The observation shows a helper of this generation to have gates. */
  predicate Shows(o: Observation, generation: nat) {
    match o
    case Pushed(from, status, m) =>
      from == status == generation && m.metadata.BuildInfo? && m.metadata.gateVersion.Some? && m.metadata.gateVersion.value > 0
    case Reported(status, _) => status == generation
  }

  ghost predicate ShownGates(observed: seq<Observation>, generation: nat) {
    exists o :: o in observed && Shows(o, generation)
  }

  /** The last build info the generation's own reader inspected while the status was its own. */
  function LastBuild(observed: seq<Observation>, generation: nat): Option<Option<nat>> {
    if observed == [] then None
    else
      match observed[|observed| - 1]
      case Pushed(from, status, m) =>
        if from == status == generation && m.metadata.BuildInfo? then Some(m.metadata.gateVersion)
        else LastBuild(observed[..|observed| - 1], generation)
      case Reported(_, _) => LastBuild(observed[..|observed| - 1], generation)
  }

  /** The gates an observation brings for one origin. */
  function SnapshotOf(o: Observation, generation: nat, origin: Origin): seq<GateSnapshot> {
    match o
    case Pushed(from, status, m) =>
      if from == status == generation && m.metadata.GateUpdate? && m.metadata.origin == Some(origin) then [m.metadata.snapshot]
      else []
    case Reported(status, report) =>
      if status == generation && origin in report.instanceGates then [report.instanceGates[origin]] else []
  }

  /** All gates of one origin in this generation, in the order they came. */
  function Snapshots(observed: seq<Observation>, generation: nat, origin: Origin): seq<GateSnapshot> {
    if observed == [] then []
    else
      var n := |observed| - 1;
      Snapshots(observed[..n], generation, origin) + SnapshotOf(observed[n], generation, origin)
  }

  /** The status is what its generation's observations make of a fresh one. */
  ghost predicate StatusFits(s: HelperStatus, observed: seq<Observation>) {
    && s.build == LastBuild(observed, s.generation)
    && (s.support.Gated? <==> ShownGates(observed, s.generation))
    && (forall o :: o in observed ==> o.status <= s.generation)
    && (forall origin :: origin in s.instanceGates <==> Snapshots(observed, s.generation, origin) != [])
    && (forall origin :: origin in s.instanceGates ==>
          s.instanceGates[origin] == Winner(Snapshots(observed, s.generation, origin)))
  }

  ghost predicate StatusOk(b: State) {
    StatusFits(b.status, b.observed)
  }

  /** Some reader inspected the message before anything else was done with it. */
  ghost predicate WasRead(observed: seq<Observation>, m: Message) {
    exists o :: o in observed && o.Pushed? && o.message == m
  }

  function Tokens(ms: seq<Message>): seq<SnuInstance> {
    if ms == [] then []
    else
      var m := ms[|ms| - 1];
      Tokens(ms[..|ms| - 1]) + if m.CarriesSession() then [m.instance.value] else []
  }

  ghost predicate StreamOk(b: State) {
    && b.captured == Tokens(b.delivered)
    && (forall g :: g in b.reading && b.reading[g].Announced? ==> b.reading[g].message in b.delivered)
    && (forall g :: g in b.reading ==> WasRead(b.observed, b.reading[g].message))
    && (forall m :: m in b.delivered ==> WasRead(b.observed, m))
  }

  ghost predicate Inv(b: State) {
    && GenerationsOk(b) && WaitersOk(b) && PendingOk(b) && IdsOk(b) && ClosedOk(b) && StatusOk(b) && StreamOk(b) && Ordered(b.frames)
  }

  // --- What a step never takes back ---------------------------------------

  /** The facts other tasks rely on: histories only extend, generations only grow. */
  ghost predicate Later(b: State, b': State) {
    && b.installed <= b'.installed
    && b.registered <= b'.registered
    && b.frames <= b'.frames
    && (forall k :: |b.frames| <= k < |b'.frames| ==> b'.frames[k].generation !in b.retired)
    && (forall i :: i in b.closed ==> i in b'.closed && b'.closed[i] == b.closed[i])
    && b.retired <= b'.retired
    && b.abandoned <= b'.abandoned
    && b.delivered <= b'.delivered
    && b.observed <= b'.observed
    && b.status.generation <= b'.status.generation
    && (b.status.generation == b'.status.generation ==> StatusAdvances(b.status, b'.status))
  }

  /** Within a generation support only climbs and no origin's revision drops. */
  ghost predicate StatusAdvances(s: HelperStatus, s': HelperStatus) {
    && s.support.Rank() <= s'.support.Rank()
    && (forall o :: o in s.instanceGates ==>
          o in s'.instanceGates && s.instanceGates[o].revision <= s'.instanceGates[o].revision)
  }

  lemma LaterTransitive(a: State, b: State, c: State)
    requires Later(a, b) && Later(b, c)
    ensures Later(a, c)
  {
  }

  // --- Removing waiters ----------------------------------------------------

  lemma {:induction false} KeptIncreasing(ws: seq<Waiter>, cause: Cause)
    requires Increasing(ws)
    ensures Increasing(Kept(ws, cause))
  {
    if ws == [] {
    } else {
      var n := |ws| - 1;
      KeptIncreasing(ws[..n], cause);
      var rest := Kept(ws[..n], cause);
      forall i | 0 <= i < |rest| ensures rest[i].id < ws[n].id {
        assert rest[i] in ws[..n];
      }
    }
  }

  /** Removal splits the pending list: nothing is lost, doubled or reordered. */
  lemma RemoveKeepsWaiters(b: State, cause: Cause)
    requires WaitersOk(b)
    ensures WaitersOk(Remove(b, cause))
    ensures forall i :: i in b.closed ==> Remove(b, cause).closed[i] == b.closed[i]
    ensures forall i :: i in Remove(b, cause).closed && i !in b.closed ==>
              i < |b.registered| && cause.Takes(b.registered[i]) && Remove(b, cause).closed[i] == cause.Closing()
  {
    hide Cause.Takes, Cause.Closing, Increasing, Kept, Closed;
    KeptIncreasing(b.waiters, cause);
    var b' := Remove(b, cause);
    ClosedByNumber(b, cause);
  }

  lemma ClosedByNumber(b: State, cause: Cause)
    requires WaitersOk(b)
    ensures forall i :: 0 <= i < |b.registered| ==>
              (i in Closed(b.waiters, cause) <==> b.registered[i] in b.waiters && cause.Takes(b.registered[i]))
    ensures forall i :: i in Closed(b.waiters, cause) ==> i < |b.registered|
  {
    hide Cause.Takes, Cause.Closing, Increasing, Closed;
  }

  lemma RemoveKeeps(b: State, cause: Cause)
    requires WaitersOk(b) && PendingOk(b) && IdsOk(b) && ClosedOk(b)
    requires forall i :: 0 <= i < |b.registered| && cause.Takes(b.registered[i]) ==> ClosingOk(b, i, cause.Closing())
    ensures var b' := Remove(b, cause); WaitersOk(b') && PendingOk(b') && IdsOk(b') && ClosedOk(b')
    ensures forall i :: i in b.closed ==> i in Remove(b, cause).closed && Remove(b, cause).closed[i] == b.closed[i]
  {
    hide Cause.Takes, Cause.Closing, WaitersOk, IdsOk, PendingOk, Kept, Closed, ClosingOk;
    var b' := Remove(b, cause);
    RemoveKeepsWaiters(b, cause);
    ControlSame(b, b');
    IdsKeep(b, b');
    forall i | i in b'.closed ensures ClosingOk(b', i, b'.closed[i]) {
      assert ClosingOk(b, i, b'.closed[i]);
      ClosingKeeps(b, b', i, b'.closed[i]);
    }
  }

  lemma HeardLater(b: State, b': State)
    requires b.frames <= b'.frames
    ensures forall g, id :: Heard(b, g, id) ==> Heard(b', g, id)
  {
    forall g, id | Heard(b, g, id) ensures Heard(b', g, id) {
      var f :| f in b.frames && f.generation == g && f.correlation == Some(id);
      assert f in b'.frames;
    }
  }

  lemma ClosingKeeps(b: State, b': State, request: nat, closing: Closing)
    requires ClosingOk(b, request, closing)
    requires b.registered <= b'.registered && b.frames <= b'.frames && b.abandoned <= b'.abandoned && b.delivered <= b'.delivered
    ensures ClosingOk(b', request, closing)
  {
    hide Heard;
    HeardLater(b, b');
  }

  // --- Facets of the invariant -----------------------------------------------

  /** The queues and their records are those of `b`; readers may have finished. */
  ghost predicate SameQueues(b: State, b': State) {
    && b'.waiters == b.waiters && b'.registered == b.registered && b'.closed == b.closed
    && b'.frames == b.frames && b'.abandoned == b.abandoned && b.installed <= b'.installed
    && b.delivered <= b'.delivered
    && (forall g :: g in b'.reading ==> g in b.reading && b'.reading[g].message == b.reading[g].message)
  }

  lemma IdsKeep(b: State, b': State)
    requires IdsOk(b) && b'.registered == b.registered && b'.frames == b.frames && b.installed <= b'.installed
    requires forall g :: g in b'.reading ==> g in b.reading && b'.reading[g].message == b.reading[g].message
    ensures IdsOk(b')
  {
    hide Heard, OwnId;
    HeardLater(b, b');
    forall f | f in b'.frames ensures FrameOk(b', f) {
      assert FrameOk(b, f);
    }
  }

  lemma ClosedKeeps(b: State, b': State)
    requires ClosedOk(b) && b'.closed == b.closed
    requires b.registered <= b'.registered && b.frames <= b'.frames && b.abandoned <= b'.abandoned && b.delivered <= b'.delivered
    ensures ClosedOk(b')
  {
    hide ClosingOk;
    forall i | i in b'.closed ensures ClosingOk(b', i, b'.closed[i]) {
      ClosingKeeps(b, b', i, b.closed[i]);
    }
  }

  lemma QueuesKeep(b: State, b': State)
    requires WaitersOk(b) && IdsOk(b) && ClosedOk(b) && SameQueues(b, b')
    ensures WaitersOk(b') && IdsOk(b') && ClosedOk(b')
  {
    IdsKeep(b, b');
    ClosedKeeps(b, b');
    hide IdsOk, ClosedOk;
  }

  /** Connections, teardowns and generations are those of `b`. */
  ghost predicate SameControl(b: State, b': State) {
    && b'.counter == b.counter && b'.conn == b.conn && b'.attach == b.attach && b'.detaching == b.detaching
    && b'.retired == b.retired && b'.installed == b.installed && b'.status.generation == b.status.generation
  }

  lemma ControlSame(b: State, b': State)
    requires SameControl(b, b')
    ensures GenerationsOk(b) ==> GenerationsOk(b')
    ensures PendingOk(b) && (forall w :: w in b'.waiters ==> w in b.waiters) ==> PendingOk(b')
  {
  }

  lemma StatusSame(b: State, b': State)
    requires StatusOk(b) && b'.status == b.status && b'.observed == b.observed
    ensures StatusOk(b')
  {
  }

  /** Nothing was announced or delivered; readers may have finished. */
  ghost predicate SameStream(b: State, b': State) {
    && b'.captured == b.captured && b'.delivered == b.delivered && b.observed <= b'.observed
    && (forall g :: g in b'.reading ==> g in b.reading && b'.reading[g] == b.reading[g])
  }

  lemma StreamKeeps(b: State, b': State)
    requires StreamOk(b) && SameStream(b, b')
    ensures StreamOk(b')
  {
    hide Tokens;
    assert forall o :: o in b.observed ==> o in b'.observed;
  }

  ghost predicate StatusLater(s: HelperStatus, s': HelperStatus) {
    s.generation <= s'.generation && (s.generation == s'.generation ==> StatusAdvances(s, s'))
  }

  lemma StatusStays(s: HelperStatus)
    ensures StatusLater(s, s)
  {
  }

  /** A step that leaves queues and stream alone keeps all but what it moved. */
  lemma MovesKeep(b: State, b': State)
    requires Inv(b) && SameQueues(b, b') && SameStream(b, b')
    requires GenerationsOk(b') && PendingOk(b') && StatusOk(b')
    requires StatusLater(b.status, b'.status) && b.retired <= b'.retired
    ensures Inv(b') && Later(b, b')
  {
    hide GenerationsOk, WaitersOk, PendingOk, IdsOk, ClosedOk, StatusOk, StreamOk, Ordered, StatusAdvances;
    QueuesKeep(b, b');
    StreamKeeps(b, b');
  }

  /** The same for a step that answers some waiters. */
  lemma AnswersKeep(b: State, b': State)
    requires Inv(b) && SameStream(b, b')
    requires b'.registered == b.registered && b'.frames == b.frames && b'.abandoned == b.abandoned && b'.installed == b.installed
    requires b'.status == b.status && b'.observed == b.observed && b.retired <= b'.retired
    requires forall i :: i in b.closed ==> i in b'.closed && b'.closed[i] == b.closed[i]
    requires GenerationsOk(b') && WaitersOk(b') && PendingOk(b') && IdsOk(b') && ClosedOk(b')
    ensures Inv(b') && Later(b, b')
  {
    hide GenerationsOk, WaitersOk, PendingOk, IdsOk, ClosedOk, StatusOk, StreamOk, Ordered, StatusAdvances;
    StatusSame(b, b');
    StatusStays(b.status);
    StreamKeeps(b, b');
  }

  // --- Each step keeps the invariant ---------------------------------------

  lemma FailKeeps(b: State, generation: nat)
    requires WaitersOk(b) && PendingOk(b) && IdsOk(b) && ClosedOk(b)
    ensures var b' := FailWaiters(b, generation); WaitersOk(b') && PendingOk(b') && IdsOk(b') && ClosedOk(b')
    ensures forall i :: i in b.closed ==> i in FailWaiters(b, generation).closed && FailWaiters(b, generation).closed[i] == b.closed[i]
    ensures forall w :: w in FailWaiters(b, generation).waiters ==> w.generation != Some(generation)
  {
    RemoveKeeps(b, Teardown(generation));
    hide WaitersOk, IdsOk, ClosedOk;
    QueuesKeep(Remove(b, Teardown(generation)), FailWaiters(b, generation));
  }

  lemma FailPreviousQueues(b: State)
    requires WaitersOk(b) && PendingOk(b) && IdsOk(b) && ClosedOk(b) && b.attach.Installed?
    ensures var b' := FailPrevious(b); WaitersOk(b') && PendingOk(b') && IdsOk(b') && ClosedOk(b')
    ensures forall i :: i in b.closed ==> i in FailPrevious(b).closed && FailPrevious(b).closed[i] == b.closed[i]
  {
    hide WaitersOk, IdsOk, ClosedOk, FailWaiters;
    if b.attach.previous.Some? {
      FailKeeps(b, b.attach.previous.value);
      assert FailWaiters(b, b.attach.previous.value).attach == b.attach by { FailFrames(b, b.attach.previous.value); }
      QueuesKeep(FailWaiters(b, b.attach.previous.value), FailPrevious(b));
    } else {
      QueuesKeep(b, FailPrevious(b));
    }
  }

  lemma FailFrames(b: State, generation: nat)
    ensures FailWaiters(b, generation)
         == b.(waiters := FailWaiters(b, generation).waiters,
               closed := FailWaiters(b, generation).closed,
               retired := b.retired + {generation})
  {
  }

  lemma FailPreviousGenerations(b: State)
    requires GenerationsOk(b) && b.attach.Installed?
    ensures GenerationsOk(FailPrevious(b))
  {
    hide FailWaiters;
    if b.attach.previous.Some? {
      FailFrames(b, b.attach.previous.value);
    }
  }

  lemma FailPreviousKeeps(b: State)
    requires Inv(b) && b.attach.Installed?
    ensures Inv(FailPrevious(b)) && Later(b, FailPrevious(b))
  {
    hide GenerationsOk, WaitersOk, PendingOk, IdsOk, ClosedOk, StatusOk, StreamOk, Ordered, FailWaiters, Later;
    FailPreviousQueues(b);
    FailPreviousGenerations(b);
    if b.attach.previous.Some? {
      FailFrames(b, b.attach.previous.value);
    }
    AnswersKeep(b, FailPrevious(b));
  }

  lemma FailDetachedGenerations(b: State, generation: nat)
    requires GenerationsOk(b) && generation in b.detaching
    ensures GenerationsOk(FailDetached(b, generation))
  {
    hide FailWaiters;
    FailFrames(b, generation);
  }

  lemma FailDetachedPending(b: State, generation: nat)
    requires PendingOk(FailWaiters(b, generation))
    requires forall w :: w in FailWaiters(b, generation).waiters ==> w.generation != Some(generation)
    ensures PendingOk(FailDetached(b, generation))
  {
    hide FailWaiters;
    FailFrames(b, generation);
  }

  lemma FailDetachedKeeps(b: State, generation: nat)
    requires Inv(b) && generation in b.detaching
    ensures Inv(FailDetached(b, generation)) && Later(b, FailDetached(b, generation))
  {
    hide GenerationsOk, WaitersOk, PendingOk, IdsOk, ClosedOk, StatusOk, StreamOk, Ordered, FailWaiters, Later;
    FailKeeps(b, generation);
    FailFrames(b, generation);
    QueuesKeep(FailWaiters(b, generation), FailDetached(b, generation));
    FailDetachedGenerations(b, generation);
    FailDetachedPending(b, generation);
    AnswersKeep(b, FailDetached(b, generation));
  }

  lemma NumberKeeps(b: State)
    requires Inv(b) && b.attach.Idle?
    ensures Inv(Number(b)) && Later(b, Number(b))
  {
    hide Later, StatusOk;
    StatusStays(b.status);
    StatusSame(b, Number(b));
    MovesKeep(b, Number(b));
  }

  lemma InstallKeeps(b: State)
    requires Inv(b) && b.attach.Numbered?
    ensures Inv(Install(b)) && Later(b, Install(b))
  {
    hide Later, StatusOk, WaitersOk, IdsOk, ClosedOk, StreamOk, Ordered, StatusLater;
    StatusStays(b.status);
    StatusSame(b, Install(b));
    assert GenerationsOk(Install(b)) && PendingOk(Install(b));
    hide GenerationsOk, PendingOk;
    MovesKeep(b, Install(b));
  }

  lemma ResetStatusKeeps(b: State)
    requires Inv(b) && b.attach.Drained?
    ensures Inv(ResetStatus(b)) && Later(b, ResetStatus(b))
  {
    hide Later, WaitersOk, IdsOk, ClosedOk, StreamOk, Ordered, Snapshots, LastBuild, ShownGates;
    Unobserved(b.observed, b.attach.generation);
    assert GenerationsOk(ResetStatus(b)) && PendingOk(ResetStatus(b)) && StatusOk(ResetStatus(b));
    assert StatusLater(b.status, ResetStatus(b).status);
    hide GenerationsOk, PendingOk, StatusOk, StatusLater;
    MovesKeep(b, ResetStatus(b));
  }

  lemma DetachKeeps(b: State, generation: nat)
    requires Inv(b)
    ensures Inv(Detach(b, generation)) && Later(b, Detach(b, generation))
  {
    hide Later, StatusOk, WaitersOk, IdsOk, ClosedOk, StreamOk, Ordered, StatusLater;
    StatusStays(b.status);
    StatusSame(b, Detach(b, generation));
    assert GenerationsOk(Detach(b, generation));
    assert PendingOk(Detach(b, generation));
    hide GenerationsOk, PendingOk;
    MovesKeep(b, Detach(b, generation));
  }

  lemma ObservedMore(observed: seq<Observation>, o: Observation, generation: nat)
    ensures ShownGates(observed + [o], generation) <==> ShownGates(observed, generation) || Shows(o, generation)
    ensures LastBuild(observed + [o], generation) ==
            if o.Pushed? && o.from == o.status == generation && o.message.metadata.BuildInfo? then Some(o.message.metadata.gateVersion)
            else LastBuild(observed, generation)
    ensures forall origin :: Snapshots(observed + [o], generation, origin) ==
                             Snapshots(observed, generation, origin) + SnapshotOf(o, generation, origin)
  {
    hide Shows, SnapshotOf;
    var all := observed + [o];
    assert all[..|all| - 1] == observed && all[|all| - 1] == o;
    if ShownGates(observed, generation) {
      var x :| x in observed && Shows(x, generation);
      assert x in all;
    }
    if Shows(o, generation) {
      assert o in all;
    }
  }

  lemma WinnerSnoc(history: seq<GateSnapshot>, x: GateSnapshot)
    ensures Winner(history + [x]) == if history == [] || x.revision > Winner(history).revision then x else Winner(history)
  {
    assert (history + [x])[..|history|] == history;
  }

  /** One more observation of a status: its gates by the revision rule, the rest as it says. */
  lemma FitsMore(s: HelperStatus, observed: seq<Observation>, o: Observation, s': HelperStatus)
    requires StatusFits(s, observed) && s'.generation == s.generation && o.status <= s.generation
    requires s'.build == if o.Pushed? && o.from == o.status == s.generation && o.message.metadata.BuildInfo?
                         then Some(o.message.metadata.gateVersion) else s.build
    requires s'.support.Gated? <==> s.support.Gated? || Shows(o, s.generation)
    requires forall origin ::
      var brought := SnapshotOf(o, s.generation, origin);
      if brought == [] then (origin in s'.instanceGates <==> origin in s.instanceGates)
                            && (origin in s.instanceGates ==> s'.instanceGates[origin] == s.instanceGates[origin])
      else origin in s'.instanceGates && s'.instanceGates[origin] ==
             (if origin !in s.instanceGates || brought[0].revision > s.instanceGates[origin].revision then brought[0]
              else s.instanceGates[origin])
    ensures StatusFits(s', observed + [o])
  {
    ObservedMore(observed, o, s.generation);
    OneBrought(o, s.generation);
    hide Shows, SnapshotOf, Snapshots, LastBuild, ShownGates, Winner;
    forall origin
      ensures origin in s'.instanceGates <==> Snapshots(observed + [o], s.generation, origin) != []
      ensures origin in s'.instanceGates ==> s'.instanceGates[origin] == Winner(Snapshots(observed + [o], s.generation, origin))
    {
      var history, brought := Snapshots(observed, s.generation, origin), SnapshotOf(o, s.generation, origin);
      if brought == [] {
        assert history + brought == history;
      } else {
        WinnerSnoc(history, brought[0]);
        assert brought == [brought[0]];
      }
    }
  }

  lemma OneBrought(o: Observation, generation: nat)
    ensures forall origin :: |SnapshotOf(o, generation, origin)| <= 1
  {
  }

  lemma CaptureKeeps(b: State, m: Message, generation: nat)
    requires StatusOk(b)
    ensures var s := Capture(b, m, generation).status;
            && StatusFits(s, b.observed + [Pushed(generation, b.status.generation, m)])
            && s.generation == b.status.generation && StatusAdvances(b.status, s)
    ensures Capture(b, m, generation) == b.(status := Capture(b, m, generation).status)
  {
    hide StatusFits;
    var o := Pushed(generation, b.status.generation, m);
    if b.status.generation == generation && m.metadata.GateUpdate? && m.metadata.origin.Some? {
      SnapshotKeeps(b.status, b.observed, o, m.metadata.origin.value);
    } else {
      BuildKeeps(b, m, generation);
    }
  }

  /** Gates pushed for one origin. */
  lemma SnapshotKeeps(s: HelperStatus, observed: seq<Observation>, o: Observation, origin: Origin)
    requires StatusFits(s, observed) && o.Pushed? && o.from == o.status == s.generation
    requires o.message.metadata.GateUpdate? && o.message.metadata.origin == Some(origin)
    ensures var s' := s.ApplySnapshot(origin, o.message.metadata.snapshot);
            StatusFits(s', observed + [o]) && StatusAdvances(s, s')
  {
    hide StatusFits;
    FitsMore(s, observed, o, s.ApplySnapshot(origin, o.message.metadata.snapshot));
  }

  /** Build info, and messages that say nothing of the helper. */
  lemma BuildKeeps(b: State, m: Message, generation: nat)
    requires StatusOk(b)
    requires !(b.status.generation == generation && m.metadata.GateUpdate? && m.metadata.origin.Some?)
    ensures var s := Capture(b, m, generation).status;
            StatusFits(s, b.observed + [Pushed(generation, b.status.generation, m)]) && StatusAdvances(b.status, s)
  {
    hide StatusFits, HelperStatus.ApplySnapshot;
    FitsMore(b.status, b.observed, Pushed(generation, b.status.generation, m), Capture(b, m, generation).status);
  }

  lemma ReportKeeps(b: State, report: Report)
    requires StatusOk(b)
    ensures StatusOk(CommitGated(b, report)) && StatusAdvances(b.status, CommitGated(b, report).status)
  {
    hide StatusFits;
    FitsMore(b.status, b.observed, Reported(b.status.generation, report), CommitGated(b, report).status);
  }

  /** Nothing has been observed of a generation the status has not reached. */
  lemma {:induction false} Unobserved(observed: seq<Observation>, generation: nat)
    requires forall o :: o in observed ==> o.status < generation
    ensures LastBuild(observed, generation) == None && !ShownGates(observed, generation)
    ensures forall origin :: Snapshots(observed, generation, origin) == []
  {
    if observed == [] {
    } else {
      var n := |observed| - 1;
      assert observed[n] in observed;
      Unobserved(observed[..n], generation);
    }
  }

  lemma {:induction false} LastBuildShows(observed: seq<Observation>, generation: nat)
    requires LastBuild(observed, generation).Some? && LastBuild(observed, generation).value.Some?
             && LastBuild(observed, generation).value.value > 0
    ensures ShownGates(observed, generation)
  {
    var n := |observed| - 1;
    var o := observed[n];
    if o.Pushed? && o.from == o.status == generation && o.message.metadata.BuildInfo? {
      assert Shows(o, generation);
    } else {
      LastBuildShows(observed[..n], generation);
      var x :| x in observed[..n] && Shows(x, generation);
      assert x in observed;
    }
  }

  lemma ReceiveKeeps(b: State, generation: nat, m: Message)
    requires Inv(b) && Enabled(b, DoReceive(generation, m))
    ensures Inv(Receive(b, generation, m)) && Later(b, Receive(b, generation, m))
  {
    hide GenerationsOk, WaitersOk, PendingOk, IdsOk, ClosedOk, StatusFits, StreamOk, Ordered, StatusAdvances, Later, Capture, Enabled;
    StatusParts(b);
    CaptureKeeps(b, m, generation);
    ReadMore(b, Receive(b, generation, m), generation, m);
  }

  lemma StatusParts(b: State)
    requires Inv(b)
    ensures StatusOk(b)
  {
    hide StatusOk, GenerationsOk, WaitersOk, PendingOk, IdsOk, ClosedOk, StreamOk, Ordered;
  }

  /** A reader takes one more message off its socket. */
  ghost predicate Reads(b: State, generation: nat, m: Message, b': State) {
    b' == b.(status := b'.status,
             reading := b.reading[generation := Inspected(m)],
             observed := b.observed + [Pushed(generation, b.status.generation, m)])
  }

  lemma ReadIds(b: State, b': State, generation: nat, m: Message)
    requires IdsOk(b) && Enabled(b, DoReceive(generation, m)) && Reads(b, generation, m, b')
    ensures IdsOk(b')
  {
    hide Heard;
    HeardLater(b, b');
    forall f | f in b'.frames ensures FrameOk(b', f) {
      assert FrameOk(b, f);
    }
  }

  lemma ReadQueues(b: State, b': State, generation: nat, m: Message)
    requires GenerationsOk(b) && PendingOk(b) && WaitersOk(b)
    requires Reads(b, generation, m, b') && b'.status.generation == b.status.generation
    ensures GenerationsOk(b') && PendingOk(b') && WaitersOk(b')
  {
    hide Increasing;
  }

  lemma ReadStream(b: State, b': State, generation: nat, m: Message)
    requires StreamOk(b) && Reads(b, generation, m, b')
    ensures StreamOk(b')
  {
    hide Tokens;
    var o := Pushed(generation, b.status.generation, m);
    assert o in b'.observed && (forall x :: x in b.observed ==> x in b'.observed);
    assert WasRead(b'.observed, m);
  }

  lemma ReadMore(b: State, b': State, generation: nat, m: Message)
    requires Inv(b) && Enabled(b, DoReceive(generation, m)) && Reads(b, generation, m, b')
    requires b'.status.generation == b.status.generation && StatusAdvances(b.status, b'.status) && StatusOk(b')
    ensures Inv(b') && Later(b, b')
  {
    hide GenerationsOk, WaitersOk, PendingOk, IdsOk, ClosedOk, StatusOk, StreamOk, Ordered, StatusAdvances, Enabled;
    ReadIds(b, b', generation, m);
    ReadQueues(b, b', generation, m);
    ReadStream(b, b', generation, m);
    ClosedKeeps(b, b');
  }

  lemma AnnounceStream(b: State, generation: nat)
    requires StreamOk(b) && generation in b.reading
    ensures StreamOk(Announce(b, generation))
  {
    var m := b.reading[generation].message;
    assert (b.delivered + [m])[..|b.delivered|] == b.delivered;
    assert m in b.delivered + [m];
    assert forall n :: n in b.delivered ==> n in b.delivered + [m];
  }

  lemma AnnounceKeeps(b: State, generation: nat)
    requires Inv(b) && generation in b.reading
    ensures Inv(Announce(b, generation)) && Later(b, Announce(b, generation))
  {
    hide GenerationsOk, WaitersOk, PendingOk, IdsOk, ClosedOk, StatusOk, StreamOk, Ordered, StatusAdvances, Later;
    var b' := Announce(b, generation);
    AnnounceStream(b, generation);
    AnnounceLater(b, generation);
    ControlSame(b, b');
    StatusSame(b, b');
    QueuesKeep(b, b');
  }

  lemma AnnounceLater(b: State, generation: nat)
    requires generation in b.reading
    ensures Later(b, Announce(b, generation))
  {
    hide StatusAdvances;
    StatusStays(b.status);
  }

  lemma DeliverClosings(b: State, generation: nat)
    requires IdsOk(b) && StreamOk(b) && generation in b.reading && b.reading[generation].Announced?
    ensures var cause := Reply(b.reading[generation].message, generation);
            forall i :: 0 <= i < |b.registered| && cause.Takes(b.registered[i]) ==> ClosingOk(b, i, cause.Closing())
  {
    hide Heard, Tokens;
  }

  lemma DeliverKeeps(b: State, generation: nat)
    requires Inv(b) && generation in b.reading && b.reading[generation].Announced?
    ensures Inv(Deliver(b, generation)) && Later(b, Deliver(b, generation))
  {
    hide GenerationsOk, WaitersOk, PendingOk, IdsOk, ClosedOk, StatusOk, StreamOk, Ordered, StatusAdvances, Later, ClosingOk,
         Kept, Closed, Cause.Takes, Cause.Closing;
    var cause := Reply(b.reading[generation].message, generation);
    var b' := Deliver(b, generation);
    DeliverClosings(b, generation);
    RemoveKeeps(b, cause);
    QueuesKeep(Remove(b, cause), b');
    ControlSame(b, b');
    ControlSame(Remove(b, cause), b');
    AnswersKeep(b, b');
  }

  lemma SweepClosings(b: State)
    requires WaitersOk(b)
    ensures var cause := Cleanup(b.abandoned);
            forall i :: 0 <= i < |b.registered| && cause.Takes(b.registered[i]) ==> ClosingOk(b, i, cause.Closing())
  {
  }

  lemma SweepKeeps(b: State)
    requires Inv(b)
    ensures Inv(Sweep(b)) && Later(b, Sweep(b))
  {
    hide GenerationsOk, WaitersOk, PendingOk, IdsOk, ClosedOk, StatusOk, StreamOk, Ordered, StatusAdvances, Later, ClosingOk,
         Kept, Closed, Cause.Takes, Cause.Closing;
    SweepClosings(b);
    RemoveKeeps(b, Cleanup(b.abandoned));
    ControlSame(b, Sweep(b));
    AnswersKeep(b, Sweep(b));
  }

  lemma RegisterWaiters(b: State, generation: Option<nat>, matcher: Matcher)
    requires WaitersOk(b) && PendingOk(b) && (generation.Some? ==> Alive(b, generation.value))
    ensures WaitersOk(Register(b, generation, matcher)) && PendingOk(Register(b, generation, matcher))
  {
    hide Increasing, Alive;
    var w := Waiter(|b.registered|, generation, matcher);
    var b' := Register(b, generation, matcher);
    IncreasingSnoc(b.waiters, w);
    assert forall v :: v in b'.waiters <==> v in b.waiters || v == w;
    AliveSame(b, b');
    forall i | 0 <= i < |b'.registered| ensures i in b'.closed <==> b'.registered[i] !in b'.waiters {
      if i < |b.registered| {
        assert b'.registered[i] == b.registered[i];
      }
    }
  }

  lemma IncreasingSnoc(ws: seq<Waiter>, w: Waiter)
    requires Increasing(ws) && forall v :: v in ws ==> v.id < w.id
    ensures Increasing(ws + [w])
  {
  }

  lemma AliveSame(b: State, b': State)
    requires b'.conn == b.conn && b'.detaching == b.detaching && b'.attach == b.attach
    ensures forall g :: Alive(b', g) <==> Alive(b, g)
  {
  }

  /** Registering a waiter, enqueueing its frame or not, and giving up on it or not. */
  ghost predicate Registers(b: State, generation: Option<nat>, matcher: Matcher, b': State) {
    && b' == Register(b, generation, matcher).(frames := b'.frames, abandoned := b'.abandoned)
    && b.abandoned <= b'.abandoned
    && (b'.frames == b.frames
        || exists f: Frame :: b'.frames == b.frames + [f] && f.waiter == |b.registered| && FrameOk(b', f) && f.generation !in b.retired)
  }

  lemma RegistersFrames(b: State, generation: Option<nat>, matcher: Matcher, b': State)
    requires IdsOk(b) && Ordered(b.frames) && Registers(b, generation, matcher, b')
    ensures b.frames <= b'.frames && b.registered <= b'.registered && Ordered(b'.frames)
    ensures forall f :: f in b'.frames ==> FrameOk(b', f)
    ensures forall k :: |b.frames| <= k < |b'.frames| ==> b'.frames[k].generation !in b.retired
  {
    hide Heard, OwnId;
    forall f | f in b.frames ensures FrameOk(b', f) && f.waiter < |b.registered| {
      assert FrameOk(b, f);
    }
    if b'.frames != b.frames {
      var f: Frame :| b'.frames == b.frames + [f] && f.waiter == |b.registered| && FrameOk(b', f) && f.generation !in b.retired;
      assert forall i :: 0 <= i < |b.frames| ==> b'.frames[i] == b.frames[i] && b.frames[i] in b.frames;
    }
  }

  lemma RegistersIds(b: State, generation: Option<nat>, matcher: Matcher, b': State)
    requires IdsOk(b) && Ordered(b.frames) && Registers(b, generation, matcher, b')
    requires matcher.Correlation? ==> OwnId(matcher.id, |b.registered|)
    ensures IdsOk(b')
  {
    RegistersFrames(b, generation, matcher, b');
    hide FrameOk, Heard, OwnId, Ordered;
    HeardLater(b, b');
  }

  lemma RegisterKeeps(b: State, generation: Option<nat>, matcher: Matcher, b': State)
    requires Inv(b) && Registers(b, generation, matcher, b')
    requires generation.Some? ==> Alive(b, generation.value)
    requires matcher.Correlation? ==> OwnId(matcher.id, |b.registered|)
    ensures Inv(b') && Later(b, b')
  {
    RegisterWaiters(b, generation, matcher);
    RegisterMoves(b, generation, matcher, b');
    hide GenerationsOk, WaitersOk, PendingOk, IdsOk, ClosedOk, StatusOk, StreamOk, Ordered, StatusAdvances, FrameOk, OwnId;
    RegistersFrames(b, generation, matcher, b');
    RegistersIds(b, generation, matcher, b');
    ClosedKeeps(b, b');
    StatusSame(b, b');
    StatusStays(b.status);
    StreamKeeps(b, b');
  }

  lemma RegisterMoves(b: State, generation: Option<nat>, matcher: Matcher, b': State)
    requires GenerationsOk(b) && WaitersOk(Register(b, generation, matcher)) && PendingOk(Register(b, generation, matcher))
    requires Registers(b, generation, matcher, b')
    ensures GenerationsOk(b') && WaitersOk(b') && PendingOk(b')
  {
    hide FrameOk, Increasing;
  }

  lemma EnqueueKeeps(b: State, ask: Ask)
    requires Inv(b) && b.conn.Some?
    ensures Inv(Enqueue(b, ask)) && Later(b, Enqueue(b, ask))
  {
    hide WaitersOk, PendingOk, IdsOk, ClosedOk, StatusOk, StreamOk, Ordered, StatusAdvances, Later;
    var id, b' := |b.registered|, Enqueue(b, ask);
    var f := Frame(b.conn.value, id, ask.Id(id), ask.Content());
    hide Ask.Content;
    assert FrameOk(b', f) && f.generation !in b.retired;
    assert Registers(b, b.conn, ask.Matcher(id), b');
    hide Registers;
    RegisterKeeps(b, b.conn, ask.Matcher(id), b');
  }

  lemma EnqueueRefusedKeeps(b: State, ask: Ask)
    requires Inv(b) && b.conn.Some?
    ensures Inv(EnqueueRefused(b, ask)) && Later(b, EnqueueRefused(b, ask))
  {
    hide GenerationsOk, WaitersOk, PendingOk, IdsOk, ClosedOk, StatusOk, StreamOk, Ordered, StatusAdvances, Later;
    RegisterKeeps(b, b.conn, ask.Matcher(|b.registered|), EnqueueRefused(b, ask));
  }

  lemma AwaitSessionKeeps(b: State, origin: Option<Origin>)
    requires Inv(b)
    ensures Inv(AwaitSession(b, origin)) && Later(b, AwaitSession(b, origin))
  {
    hide GenerationsOk, WaitersOk, PendingOk, IdsOk, ClosedOk, StatusOk, StreamOk, Ordered, StatusAdvances, Later;
    RegisterKeeps(b, None, Session(origin), AwaitSession(b, origin));
  }

  lemma AbandonKeeps(b: State, request: nat)
    requires Inv(b)
    ensures Inv(Abandon(b, request)) && Later(b, Abandon(b, request))
  {
    var b' := Abandon(b, request);
    ControlSame(b, b');
    hide GenerationsOk, WaitersOk, PendingOk, IdsOk, ClosedOk, StatusOk, StreamOk, Ordered, StatusAdvances;
    AbandonWaiters(b, request);
    IdsKeep(b, b');
    ClosedKeeps(b, b');
    StatusSame(b, b');
    StatusStays(b.status);
    StreamKeeps(b, b');
  }

  lemma AbandonWaiters(b: State, request: nat)
    requires WaitersOk(b)
    ensures WaitersOk(Abandon(b, request))
  {
    hide Increasing;
  }

  lemma CommitLegacyKeeps(b: State)
    requires Inv(b) && MayTurnLegacy(b.status)
    ensures Inv(CommitLegacy(b)) && Later(b, CommitLegacy(b))
  {
    hide WaitersOk, IdsOk, ClosedOk, StreamOk, Ordered, Later, Winner, Snapshots, LastBuild, ShownGates;
    assert StatusOk(CommitLegacy(b)) && PendingOk(CommitLegacy(b));
    MovesKeep(b, CommitLegacy(b));
  }

  lemma CommitGatedKeeps(b: State, report: Report)
    requires Inv(b)
    ensures Inv(CommitGated(b, report)) && Later(b, CommitGated(b, report))
  {
    hide WaitersOk, IdsOk, ClosedOk, StreamOk, Ordered, Later, StatusOk, StatusAdvances, MergeGates;
    StatusParts(b);
    ReportKeeps(b, report);
    var b' := CommitGated(b, report);
    assert GenerationsOk(b') && PendingOk(b');
    hide GenerationsOk, PendingOk;
    MovesKeep(b, b');
  }

  /** Every critical section keeps the invariant and only extends the history. */
  lemma StepKeeps(b: State, step: Step)
    requires Inv(b) && Enabled(b, step)
    ensures Inv(Apply(b, step)) && Later(b, Apply(b, step))
  {
    hide Inv, Later, Capture, Remove;
    match step
    case DoFailPrevious => FailPreviousKeeps(b);
    case DoFailDetached(g) => FailDetachedKeeps(b, g);
    case DoReceive(g, m) => ReceiveKeeps(b, g, m);
    case DoAnnounce(g) => AnnounceKeeps(b, g);
    case DoDeliver(g) => DeliverKeeps(b, g);
    case DoSweep => SweepKeeps(b);
    case DoEnqueue(ask) => EnqueueKeeps(b, ask);
    case DoEnqueueRefused(ask) => EnqueueRefusedKeeps(b, ask);
    case DoAwaitSession(origin) => AwaitSessionKeeps(b, origin);
    case DoAbandon(r) => AbandonKeeps(b, r);
    case DoCommitLegacy => CommitLegacyKeeps(b);
    case DoCommitGated(report) => CommitGatedKeeps(b, report);
    case DoNumber => NumberKeeps(b);
    case DoInstall => InstallKeeps(b);
    case DoResetStatus => ResetStatusKeeps(b);
    case DoDetach(g) => DetachKeeps(b, g);
  }

  // --- Whole runs -----------------------------------------------------------

  lemma {:induction false} Reachable(run: seq<State>, k: nat)
    requires IsRun(run) && k < |run|
    ensures Inv(run[k])
  {
    if k == 0 {
    } else {
      Reachable(run, k - 1);
      assert Next(run[k - 1], run[k]);
      var step :| Enabled(run[k - 1], step) && run[k] == Apply(run[k - 1], step);
      StepKeeps(run[k - 1], step);
    }
  }

  lemma RunStep(run: seq<State>, k: nat) returns (step: Step)
    requires IsRun(run) && k + 1 < |run|
    ensures Inv(run[k]) && Enabled(run[k], step) && run[k + 1] == Apply(run[k], step) && Later(run[k], run[k + 1])
  {
    Reachable(run, k);
    assert Next(run[k + 1 - 1], run[k + 1]);
    step :| Enabled(run[k], step) && run[k + 1] == Apply(run[k], step);
    StepKeeps(run[k], step);
  }

  lemma OneStepLater(run: seq<State>, k: nat)
    requires IsRun(run) && k + 1 < |run|
    ensures Later(run[k], run[k + 1])
  {
    var _ := RunStep(run, k);
  }

  lemma RunExtends(run: seq<State>, i: nat, j: nat)
    requires IsRun(run) && i <= j < |run|
    ensures Later(run[i], run[j])
  {
    forall k | 0 < k < |run| ensures Later(run[k - 1], run[k]) {
      OneStepLater(run, k - 1);
    }
    ChainExtends(run, i, j);
  }

  lemma {:induction false} ChainExtends(run: seq<State>, i: nat, j: nat)
    requires i <= j < |run|
    requires forall k :: 0 < k < |run| ==> Later(run[k - 1], run[k])
    ensures Later(run[i], run[j])
    decreases j - i
  {
    if i < j {
      ChainExtends(run, i, j - 1);
      LaterTransitive(run[i], run[j - 1], run[j]);
    }
  }

  lemma LaterReflexive(b: State)
    ensures Later(b, b)
  {
  }
}
