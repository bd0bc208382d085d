/** The guarantees of dispatch in every run of the whole system. */
module DispatchTheorems {
  import opened Prelude
  import opened Gates
  import opened Dispatch
  import opened DispatchInvariants
  import opened DispatchProofs
  import opened DispatchEvidence
  import B = Bridge
  import I = BridgeInvariants
  import T = BridgeTheorems
  import S = SessionCache

  ghost predicate SystemInv(s: System) {
    && I.Inv(s.world.bridge)
    && (forall tid :: tid in s.tasks ==> TaskInv(s.world.bridge, tid, s.tasks[tid]))
    && (forall tid :: tid !in s.tasks ==> Mine(s.world.bridge.frames, tid) == [])
  }

  lemma AcceptKeeps(s: System, tid: nat, request: Request)
    requires SystemInv(s) && tid !in s.tasks
    ensures SystemInv(s.(tasks := s.tasks[tid := NewTask(request)]))
  {
    hide I.Inv;
  }

  lemma OthersStay(s: System, b': B.State, tid: nat, other: nat)
    requires SystemInv(s) && BridgeKeeps(s.world.bridge, b', tid) && other in s.tasks && other != tid
    ensures TaskInv(b', other, s.tasks[other])
  {
    KeepsIsLater(s.world.bridge, b', tid);
    hide I.Inv, TaskInv, I.Later;
    TaskStays(s.world.bridge, b', other, s.tasks[other]);
  }

  lemma OthersUnwritten(s: System, b': B.State, tid: nat, other: nat)
    requires SystemInv(s) && BridgeKeeps(s.world.bridge, b', tid) && other !in s.tasks && other != tid
    ensures Mine(b'.frames, other) == []
  {
    hide I.Inv, I.Later, TaskInv;
  }

  lemma RunKeeps(s: System, tid: nat, choice: Choice)
    requires SystemInv(s) && tid in s.tasks
    ensures var m := StepTask(s.world, tid, s.tasks[tid], choice); SystemInv(System(m.world, s.tasks[tid := m.task], choice.now))
  {
    hide I.Inv, TaskInv, StepTask, BridgeKeeps;
    var m := StepTask(s.world, tid, s.tasks[tid], choice);
    TaskKeeps(s.world, tid, s.tasks[tid], choice);
    KeepsIsInv(s.world.bridge, m.world.bridge, tid);
    forall other | other in s.tasks && other != tid ensures TaskInv(m.world.bridge, other, s.tasks[other]) {
      OthersStay(s, m.world.bridge, tid, other);
    }
    forall other | other !in s.tasks ensures Mine(m.world.bridge.frames, other) == [] {
      OthersUnwritten(s, m.world.bridge, tid, other);
    }
  }

  lemma KeepsIsInv(b: B.State, b': B.State, tid: nat)
    requires BridgeKeeps(b, b', tid)
    ensures I.Inv(b')
  {
    hide I.Inv, I.Later;
  }

  lemma AmbientFrames(b: B.State, step: B.Step)
    requires Ambient(step) && B.Enabled(b, step)
    ensures var b' := B.Apply(b, step);
            || b'.frames == b.frames
            || exists f: B.Frame :: !f.content.UserAction? && b'.frames == b.frames + [f]
  {
    if step.DoEnqueue? {
      assert B.Apply(b, step).frames
          == b.frames + [B.Frame(b.conn.value, |b.registered|, step.ask.Id(|b.registered|), step.ask.Content())];
    }
  }

  lemma AmbientMine(b: B.State, b': B.State, tid: nat)
    requires b'.frames == b.frames || exists f: B.Frame :: !f.content.UserAction? && b'.frames == b.frames + [f]
    ensures Mine(b'.frames, tid) == Mine(b.frames, tid)
  {
    if b'.frames != b.frames {
      var f: B.Frame :| !f.content.UserAction? && b'.frames == b.frames + [f];
      MineSnoc(b.frames, f, tid);
    }
  }

  lemma AmbientQuiet(b: B.State, step: B.Step, tid: nat)
    requires I.Inv(b) && Ambient(step) && B.Enabled(b, step)
    ensures Quiet(b, B.Apply(b, step), tid)
  {
    hide I.Inv, I.Later, B.Enabled, B.Apply, Ambient;
    I.StepKeeps(b, step);
    AmbientFrames(b, step);
    forall any ensures Mine(B.Apply(b, step).frames, any) == Mine(b.frames, any) {
      AmbientMine(b, B.Apply(b, step), any);
    }
  }

  lemma BridgeStepKeeps(s: System, step: B.Step)
    requires SystemInv(s) && Ambient(step) && B.Enabled(s.world.bridge, step)
    ensures SystemInv(s.(world := s.world.(bridge := B.Apply(s.world.bridge, step))))
  {
    hide I.Inv, TaskInv, BridgeKeeps, B.Enabled, B.Apply, Ambient;
    var b, b' := s.world.bridge, B.Apply(s.world.bridge, step);
    AmbientInv(b, step);
    forall tid | tid in s.tasks ensures TaskInv(b', tid, s.tasks[tid]) {
      AmbientQuiet(b, step, tid);
      QuietKeeps(b, b', tid, s.tasks[tid]);
    }
    forall tid ensures Mine(b'.frames, tid) == Mine(b.frames, tid) {
      AmbientQuiet(b, step, tid);
    }
  }

  lemma AmbientInv(b: B.State, step: B.Step)
    requires I.Inv(b) && B.Enabled(b, step)
    ensures I.Inv(B.Apply(b, step))
  {
    hide I.Inv, I.Later, B.Enabled, B.Apply;
    I.StepKeeps(b, step);
  }

  lemma SystemKeeps(s: System, step: SystemStep, s': System)
    requires SystemInv(s) && SystemNext(s, step, s')
    ensures SystemInv(s')
  {
    hide SystemInv, StepTask;
    match step
    case Accept(tid, request) => AcceptKeeps(s, tid, request);
    case Run(tid, choice) => RunKeeps(s, tid, choice);
    case Bridge(step) => BridgeStepKeeps(s, step);
    case Client(call) => ClientKeeps(s, s');
  }

  lemma ClientKeeps(s: System, s': System)
    requires SystemInv(s) && s'.world.bridge == s.world.bridge && s'.tasks == s.tasks
    ensures SystemInv(s')
  {
    hide I.Inv, TaskInv;
  }

  // --- Own evidence in every run -------------------------------------------------

  ghost predicate SystemOwns(s: System) {
    forall tid :: tid in s.tasks ==> OwnInv(s.world.bridge, tid, s.tasks[tid])
  }

  lemma NewTaskOwns(b: B.State, tid: nat, request: Request)
    requires Mine(b.frames, tid) == []
    ensures OwnInv(b, tid, NewTask(request))
  {
    hide Mine;
  }

  lemma AcceptOwns(s: System, tid: nat, request: Request)
    requires SystemInv(s) && SystemOwns(s) && tid !in s.tasks
    ensures SystemOwns(s.(tasks := s.tasks[tid := NewTask(request)]))
  {
    hide I.Inv, TaskInv, OwnInv;
    NewTaskOwns(s.world.bridge, tid, request);
  }

  lemma RunOwns(s: System, tid: nat, choice: Choice)
    requires SystemInv(s) && SystemOwns(s) && tid in s.tasks
    ensures var m := StepTask(s.world, tid, s.tasks[tid], choice); SystemOwns(System(m.world, s.tasks[tid := m.task], choice.now))
  {
    hide I.Inv, I.Later, TaskInv, OwnInv, StepTask, BridgeKeeps, Mine;
    var m := StepTask(s.world, tid, s.tasks[tid], choice);
    TaskOwns(s.world, tid, s.tasks[tid], choice);
    TaskKeeps(s.world, tid, s.tasks[tid], choice);
    KeepsIsLater(s.world.bridge, m.world.bridge, tid);
    forall other | other in s.tasks && other != tid ensures OwnInv(m.world.bridge, other, s.tasks[other]) {
      OthersMine(s.world.bridge, m.world.bridge, tid, other);
      OwnLater(s.world.bridge, m.world.bridge, other, s.tasks[other]);
    }
  }

  lemma OthersMine(b: B.State, b': B.State, tid: nat, other: nat)
    requires BridgeKeeps(b, b', tid) && other != tid
    ensures Mine(b'.frames, other) == Mine(b.frames, other)
  {
    hide I.Inv, I.Later, Mine;
  }

  lemma BridgeStepOwns(s: System, step: B.Step)
    requires SystemInv(s) && SystemOwns(s) && Ambient(step) && B.Enabled(s.world.bridge, step)
    ensures SystemOwns(s.(world := s.world.(bridge := B.Apply(s.world.bridge, step))))
  {
    hide I.Inv, I.Later, TaskInv, OwnInv, B.Enabled, B.Apply, Ambient, Mine;
    forall tid | tid in s.tasks ensures OwnInv(B.Apply(s.world.bridge, step), tid, s.tasks[tid]) {
      AmbientQuiet(s.world.bridge, step, tid);
      QuietParts(s.world.bridge, B.Apply(s.world.bridge, step), tid);
      OwnLater(s.world.bridge, B.Apply(s.world.bridge, step), tid, s.tasks[tid]);
    }
  }

  lemma SystemOwnsOn(s: System, step: SystemStep, s': System)
    requires SystemInv(s) && SystemOwns(s) && SystemNext(s, step, s')
    ensures SystemOwns(s')
  {
    hide SystemInv, StepTask, OwnInv, B.Apply, B.Enabled, Ambient;
    match step
    case Accept(tid, request) => AcceptOwns(s, tid, request);
    case Run(tid, choice) => RunOwns(s, tid, choice);
    case Bridge(step) => BridgeStepOwns(s, step);
    case Client(call) =>
  }

  lemma {:induction false} ReachableOwns(run: seq<System>, steps: seq<SystemStep>, k: nat)
    requires IsRun(run, steps) && k < |run|
    ensures SystemInv(run[k]) && SystemOwns(run[k])
  {
    hide SystemInv, SystemNext, OwnInv;
    ReachableSystem(run, steps, k);
    if k == 0 {
    } else {
      ReachableOwns(run, steps, k - 1);
      SystemOwnsOn(run[k - 1], steps[k - 1], run[k]);
    }
  }

  lemma OwnerOwns(s: System, tid: nat)
    requires SystemOwns(s) && tid in s.tasks
    ensures OwnInv(s.world.bridge, tid, s.tasks[tid])
  {
    hide OwnInv;
  }

  lemma {:induction false} ReachableSystem(run: seq<System>, steps: seq<SystemStep>, k: nat)
    requires IsRun(run, steps) && k < |run|
    ensures SystemInv(run[k])
  {
    hide SystemInv, SystemNext;
    if k == 0 {
      InitialSystem();
    } else {
      ReachableSystem(run, steps, k - 1);
      SystemKeeps(run[k - 1], steps[k - 1], run[k]);
    }
  }

  lemma InitialSystem()
    ensures SystemInv(INITIAL)
  {
  }

  // --- Main results -------------------------------------------------------------

  lemma OwnerKnown(s: System, f: B.Frame)
    requires SystemInv(s) && f in s.world.bridge.frames && f.content.UserAction?
    ensures f in Mine(s.world.bridge.frames, f.content.task)
    ensures f.content.task in s.tasks && TaskInv(s.world.bridge, f.content.task, s.tasks[f.content.task])
  {
    hide I.Inv, TaskInv;
  }

  lemma FrameIsAuthorised(b: B.State, tid: nat, t: Task, f: ActionFrame) returns (i: nat)
    requires TaskInv(b, tid, t) && f in Mine(b.frames, tid)
    ensures i < |Mine(b.frames, tid)| == |t.sent| && Mine(b.frames, tid)[i] == f && Bound(b, t.sent[i], f)
  {
    hide Bound, ProtocolOk, PhaseOk, StageOk, LogOk, Mine;
    var frames := Mine(b.frames, tid);
    i :| 0 <= i < |frames| && frames[i] == f;
  }

  lemma WriteIsSpent(b: B.State, tid: nat, t: Task, i: nat)
    requires OwnInv(b, tid, t) && i < |Mine(b.frames, tid)|
    ensures |t.sent| == |Mine(b.frames, tid)| && Spent(b, tid, Mine(b.frames, tid), t.sent[i], i)
  {
    hide Spent, PhaseOwn, LogOwn, WireOk, Mine;
  }

  lemma InvOf(s: System)
    requires SystemInv(s)
    ensures I.Inv(s.world.bridge)
  {
    hide I.Inv, TaskInv;
  }

  /** Whatever reconnects, timeouts and other requests interleave: the i-th write of a
    * gated action, on the socket of generation g, used the i-th preflight of its own
    * dispatch, negotiated with g. That preflight's capability query was enqueued for this
    * dispatch and no other, on g's socket, after the write before and before this one;
    * and either g's own helper answered it with a report that allows this payload, or
    * g's own helper answered without gates, or the query went unanswered until its
    * timeout. */
  lemma GatedActionsAreBoundToTheirHelper(run: seq<System>, steps: seq<SystemStep>, k: nat, f: B.Frame) returns (i: nat)
    requires IsRun(run, steps) && k < |run| && f in run[k].world.bridge.frames
    requires f.content.UserAction? && GateForPayload(f.content.payload).Some?
    ensures f.content.task in run[k].tasks
    ensures var b, writes := run[k].world.bridge, Mine(run[k].world.bridge.frames, f.content.task);
            var sent := run[k].tasks[f.content.task].sent;
            && |sent| == |writes| && i < |writes| && writes[i] == f
            && sent[i].generation == Some(f.generation)
            && AskedBy(b, f.content.task, sent[i].query)
            && (forall other :: AskedBy(b, other, sent[i].query) ==> other == f.content.task)
            && sent[i].query < f.waiter && (i > 0 ==> writes[i - 1].waiter < sent[i].query)
            && B.Heard(b, f.generation, B.Capability(sent[i].query))
            && Justified(b, f, sent[i])
  {
    hide SystemInv, TaskInv, IsRun, I.Inv, GateForPayload, Allows, Mine, OwnInv, AskedBy;
    var b, tid := run[k].world.bridge, f.content.task;
    ReachableOwns(run, steps, k);
    InvOf(run[k]);
    OwnerKnown(run[k], f);
    i := FrameIsAuthorised(b, tid, run[k].tasks[tid], f);
    OwnerOwns(run[k], tid);
    WriteIsSpent(b, tid, run[k].tasks[tid], i);
    var p := run[k].tasks[tid].sent[i];
    forall other | AskedBy(b, other, p.query) ensures other == tid {
      QueriesAreNotShared(b, p.query, tid, other);
    }
    if p.query in b.closed && b.closed[p.query].Answered? {
      T.RepliesComeFromTheSameGeneration(b, p.query);
    }
  }

  /** The evidence behind a decision: a report of the frame's own helper, or its silence. */
  ghost predicate Justified(b: B.State, f: B.Frame, p: Preflight)
    requires f.content.UserAction?
  {
    var answered := p.query in b.closed && b.closed[p.query].Answered? && b.closed[p.query].from == f.generation
                    && b.closed[p.query].message.report.Some?;
    match p.decision
    case NotGated => false
    case LegacyAllowed =>
      p.query in b.abandoned || (answered && !HasGates(b.closed[p.query].message.report.value))
    case _ => answered && Allows(b.closed[p.query].message.report.value, f.content.payload, p.decision)
  }

  /** One request puts its action on sockets at most twice. The second time only
    * after the helper's own reply reported that the first one failed. */
  lemma ActionsAreWrittenAtMostTwice(run: seq<System>, steps: seq<SystemStep>, k: nat, tid: nat)
    requires IsRun(run, steps) && k < |run| && tid in run[k].tasks
    ensures var b := run[k].world.bridge; var writes := Mine(b.frames, tid);
            && |writes| <= 2
            && (|writes| == 2 ==>
                  && RefusedBy(b, writes[0].waiter)
                  && |run[k].tasks[tid].log| > 2 && run[k].tasks[tid].log[1] == Refused(writes[0].waiter))
    ensures forall f :: f in run[k].world.bridge.frames && f.content.UserAction? && f.content.task == tid
              <==> f in Mine(run[k].world.bridge.frames, tid)
  {
    hide IsRun, SystemInv, TaskInv, Mine, RefusedBy;
    ReachableSystem(run, steps, k);
    TaskOf(run[k], tid);
    LogWritesTwice(run[k].world.bridge, tid, run[k].tasks[tid]);
  }

  lemma LogWritesTwice(b: B.State, tid: nat, t: Task)
    requires TaskInv(b, tid, t)
    ensures var writes := Mine(b.frames, tid);
            && |writes| <= 2
            && (|writes| == 2 ==> RefusedBy(b, writes[0].waiter) && |t.log| > 2 && t.log[1] == Refused(writes[0].waiter))
  {
    hide SentOk, PhaseOk, ProtocolOk, StageOk, RefusedBy, RejectedBy, Mine;
  }

  /** All writes of a request use one protocol: either all carry and await the request's
    * own id, or all carry none and await its one expected action. They differ from one of
    * the two submitted payloads in the session alone, and a retry without an eviction
    * repeats the very same payload. */
  lemma OneProtocolPerRequest(run: seq<System>, steps: seq<SystemStep>, k: nat, tid: nat)
    requires IsRun(run, steps) && k < |run| && tid in run[k].tasks
    ensures OneWire(run[k].world.bridge, run[k].tasks[tid].request, Mine(run[k].world.bridge.frames, tid))
    ensures var writes := Mine(run[k].world.bridge.frames, tid); var request := run[k].tasks[tid].request;
            || (forall f :: f in writes ==> SameAction(f.content.payload, request.payload))
            || (request.SendActionWithLegacyFallback? && forall f :: f in writes ==> SameAction(f.content.payload, request.legacy))
    ensures var writes := Mine(run[k].world.bridge.frames, tid); var log := run[k].tasks[tid].log;
            |writes| == 2 && !(exists o :: Evicted(o) in log) ==> writes[0].content.payload == writes[1].content.payload
    ensures var writes := Mine(run[k].world.bridge.frames, tid); var log := run[k].tasks[tid].log;
            |writes| == 2 && |log| > 3 ==>
              && log[3].Evicted? && writes[0].content.payload.instance.Some?
              && log[3].origin == writes[0].content.payload.instance.value.url.origin
              && SameTarget(log[3].origin, writes[1].content.payload)
  {
    hide IsRun, SystemInv, TaskInv, LogOk, SameAction, SameTarget, OwnInv, OneWire;
    ReachableOwns(run, steps, k);
    TaskOf(run[k], tid);
    OwnerOwns(run[k], tid);
    WritesUseOneWire(run[k].world.bridge, tid, run[k].tasks[tid]);
    ProtocolOf(run[k].world.bridge, tid, run[k].tasks[tid]);
    LogEvicts(run[k].world.bridge, tid, run[k].tasks[tid]);
  }

  /** The action whose reply a request without a usable id waits for. */
  function Expected(request: Request): string
    requires !request.SendAction?
  {
    if request.SendActionForAction? then request.expectedAction else request.legacyAction
  }

  /** The writes all speak the correlated protocol, or all the one without ids. */
  ghost predicate OneWire(b: B.State, request: Request, writes: seq<ActionFrame>) {
    || (!request.SendActionForAction? && forall f :: f in writes ==>
          f.correlation == Some(B.Client(request.id))
          && f.waiter < |b.registered| && b.registered[f.waiter].matcher == B.Correlation(B.Client(request.id)))
    || (!request.SendAction? && forall f :: f in writes ==>
          f.correlation == None
          && f.waiter < |b.registered| && b.registered[f.waiter].matcher == B.Action(Expected(request)))
  }

  lemma WritesUseOneWire(b: B.State, tid: nat, t: Task)
    requires OwnInv(b, tid, t)
    ensures OneWire(b, t.request, Mine(b.frames, tid))
  {
    hide Mine, SentOwn, PhaseOwn, LogOwn;
  }

  lemma ProtocolOf(b: B.State, tid: nat, t: Task)
    requires TaskInv(b, tid, t)
    ensures || (forall f :: f in Mine(b.frames, tid) ==> SameAction(f.content.payload, t.request.payload))
            || (t.request.SendActionWithLegacyFallback? && forall f :: f in Mine(b.frames, tid) ==> SameAction(f.content.payload, t.request.legacy))
  {
    hide SentOk, PhaseOk, StageOk, LogOk, SameAction;
  }

  lemma TaskOf(s: System, tid: nat)
    requires SystemInv(s) && tid in s.tasks
    ensures TaskInv(s.world.bridge, tid, s.tasks[tid])
  {
    hide I.Inv, TaskInv;
  }

  lemma LogEvicts(b: B.State, tid: nat, t: Task)
    requires TaskInv(b, tid, t)
    ensures var writes := Mine(b.frames, tid); var log := t.log;
            && (|writes| == 2 && !(exists o :: Evicted(o) in log) ==> writes[0].content.payload == writes[1].content.payload)
            && (|writes| == 2 && |log| > 3 ==>
                  && log[3].Evicted? && writes[0].content.payload.instance.Some?
                  && log[3].origin == writes[0].content.payload.instance.value.url.origin
                  && SameTarget(log[3].origin, writes[1].content.payload))
  {
    hide SentOk, PhaseOk, StageOk, ProtocolOk, SameTarget, RefusedBy, RejectedBy;
    if |t.log| > 3 {
      assert t.log[3] in t.log;
    }
  }

  /** Dispatch evicts a cached session only when its own probe, sent for this dispatch with
    * the very session it goes on to evict, was rejected; and then only that session's
    * origin, unless it has none. */
  lemma EvictionNeedsARejectedProbe(run: seq<System>, steps: seq<SystemStep>, k: nat, origin: Origin)
    requires IsRun(run, steps) && k + 1 < |run|
    requires origin in run[k].world.cache.sessions && !steps[k].Client?
    requires origin !in run[k + 1].world.cache.sessions || run[k + 1].world.cache.sessions[origin] != run[k].world.cache.sessions[origin]
    ensures steps[k].Run? && steps[k].tid in run[k].tasks
    ensures var t := run[k].tasks[steps[k].tid];
            || (t.phase.Evicting?
                && |t.log| == 3 && t.log[2].ProbeRejected? && RejectedBy(run[k].world.bridge, t.log[2].probe)
                && ProbedBy(run[k].world.bridge, steps[k].tid, t.phase.session, t.log[2].probe)
                && (t.phase.session.url.origin.Some? ==> t.phase.session.url.origin == Some(origin)))
            || (t.phase.AwaitingToken? && origin in run[k + 1].world.cache.sessions)
  {
    ReachableOwns(run, steps, k);
    assert SystemNext(run[k + 1 - 1], steps[k + 1 - 1], run[k + 1]);
    var s, step := run[k], steps[k];
    hide SystemInv, I.Inv, IsRun, OwnInv, ProbedBy, RejectedBy;
    if step.Run? {
      var t := s.tasks[step.tid];
      TaskOf(s, step.tid);
      OwnerOwns(s, step.tid);
      if t.phase.Evicting? {
        EvictedWasProbed(s.world.bridge, step.tid, t);
      }
      CacheChanges(s.world, step.tid, t, step.choice, origin);
    }
  }

  lemma EvictedWasProbed(b: B.State, tid: nat, t: Task)
    requires TaskInv(b, tid, t) && OwnInv(b, tid, t) && t.phase.Evicting?
    ensures |t.log| == 3 && t.log[2].ProbeRejected? && ProbedBy(b, tid, t.phase.session, t.log[2].probe)
  {
    EvictingRecord(b, tid, t);
    RecordedSoFar(b, tid, t);
    hide TaskInv, SentOwn, PhaseOwn, WireOk, ProbedBy, Mine;
  }

  lemma CacheChanges(w: World, tid: nat, t: Task, choice: Choice, origin: Origin)
    requires TaskInv(w.bridge, tid, t) && origin in w.cache.sessions
    ensures var w' := StepTask(w, tid, t, choice).world;
            || (origin in w'.cache.sessions && w'.cache.sessions[origin] == w.cache.sessions[origin])
            || (t.phase.AwaitingToken? && origin in w'.cache.sessions)
            || (t.phase.Evicting?
                && |t.log| == 3 && t.log[2].ProbeRejected? && RejectedBy(w.bridge, t.log[2].probe)
                && (t.phase.session.url.origin.Some? ==> t.phase.session.url.origin == Some(origin)))
  {
    hide TaskInv, RejectedBy;
    if t.phase.Evicting? {
      EvictingRecord(w.bridge, tid, t);
    } else if !t.phase.AwaitingToken? && !t.phase.AwaitingReply? {
      CacheUntouched(w, tid, t, choice);
    }
  }

  lemma EvictingRecord(b: B.State, tid: nat, t: Task)
    requires TaskInv(b, tid, t) && t.phase.Evicting?
    ensures |t.log| == 3 && t.log[2].ProbeRejected? && RejectedBy(b, t.log[2].probe)
  {
    hide SentOk, PhaseOk, ProtocolOk, RejectedBy, RefusedBy;
  }

  lemma CacheUntouched(w: World, tid: nat, t: Task, choice: Choice)
    requires !t.phase.Evicting? && !t.phase.AwaitingToken? && !t.phase.AwaitingReply?
    ensures StepTask(w, tid, t, choice).world.cache == w.cache
  {
    hide B.CommitGated, B.CommitLegacy, B.Enqueue, B.EnqueueRefused, B.Abandon, B.AwaitSession, GateForPayload, Judge, S.Remember, S.ClearOrigin, QueryError;
  }

  /** A legacy action is enqueued only while the installed helper is classified
    * legacy in that same generation. */
  lemma LegacyWritesNeedALegacyHelper(w: World, tid: nat, t: Task, choice: Choice)
    requires TaskInv(w.bridge, tid, t) && t.protocol.Some? && t.protocol.value.Legacy?
    requires var b' := StepTask(w, tid, t, choice).world.bridge; |Mine(b'.frames, tid)| > |Mine(w.bridge.frames, tid)|
    ensures w.bridge.conn == Some(w.bridge.status.generation) && w.bridge.status.support == LegacyUnrestricted
    ensures var b' := StepTask(w, tid, t, choice).world.bridge;
            b'.frames != w.bridge.frames && b'.frames[|b'.frames| - 1].generation == w.bridge.status.generation
  {
    hide TaskInv, StepTask, StepSending, B.Enqueue, B.EnqueueRefused, AskFor, Mine;
    WritesOnlyWhenSending(w, tid, t, choice);
    SendingIsStep(w, tid, t, choice);
    SendingCases(w, tid, t, choice);
    if StepSending(w, tid, t, choice).task.phase.Done? {
      EndsUnwritten(w, tid, t, choice);
    } else {
      EnqueuedLast(w.bridge, AskFor(tid, t));
    }
  }

  lemma EndsUnwritten(w: World, tid: nat, t: Task, choice: Choice)
    requires t.phase.Sending? && StepSending(w, tid, t, choice).task.phase.Done?
    ensures StepSending(w, tid, t, choice).world.bridge.frames == w.bridge.frames
  {
    SendingCases(w, tid, t, choice);
    hide StepSending, AskFor;
  }

  lemma EnqueuedLast(b: B.State, ask: B.Ask)
    requires b.conn.Some?
    ensures var frames := B.Enqueue(b, ask).frames;
            frames != b.frames && frames[|frames| - 1].generation == b.conn.value
  {
    assert |B.Enqueue(b, ask).frames| == |b.frames| + 1;
  }

  /** A verdict the move settles on is true of the state it leaves. */
  ghost predicate VerdictIsCurrent(m: Moved) {
    var status := m.world.bridge.status;
    && (m.task.phase.Queued? ==>
          && m.task.phase.preflight.decision == LegacyAllowed
          && m.task.phase.preflight.generation == Some(status.generation) && status.support == LegacyUnrestricted)
    && (m.task.phase.Sending? && m.task.phase.preflight.decision == LegacyAllowed ==>
          m.task.phase.preflight.generation == Some(status.generation) && status.support == LegacyUnrestricted)
    && (m.task.phase.Sending? && m.task.phase.preflight.decision != LegacyAllowed && m.task.phase.preflight.generation.Some? ==>
          m.task.phase.preflight.generation == Some(status.generation) && status.support == Gated)
  }

  /** A verdict is given only for the generation the status then has: a legacy one in the
    * instant the status reads legacy, one from gates in the instant it reads gated. */
  lemma VerdictsAreCurrent(w: World, tid: nat, t: Task, choice: Choice)
    requires Preflighting(t.phase)
    ensures VerdictIsCurrent(StepTask(w, tid, t, choice))
  {
    hide StepQuerying, StepProbing, StepSending, StepAwaitingReply, StepAwaitingToken, StepAwaitingProbe, StepEvicting,
         StepPrompting, StepQueued, StepRefreshing, StepAwaitingReport, GateForPayload, CommitLegacy;
    match t.phase
    case Querying(_, _) => QueryingIsNoVerdict(w, tid, t, choice);
    case AwaitingReport(_, _, _) => ReportVerdict(w, tid, t, choice);
    case ConfirmingSilence(attempt, before, query) => CommitVerdict(w, tid, t, attempt, before, query);
    case _ =>
  }

  lemma QueryingIsNoVerdict(w: World, tid: nat, t: Task, choice: Choice)
    requires t.phase.Querying?
    ensures VerdictIsCurrent(StepQuerying(w, tid, t, choice))
  {
    hide TryEnqueue, QueryError;
  }

  lemma CommitVerdict(w: World, tid: nat, t: Task, attempt: Attempt, before: HelperStatus, query: nat)
    requires !t.phase.Queued? && !t.phase.Sending?
    ensures VerdictIsCurrent(CommitLegacy(w, tid, t, attempt, before, query))
  {
  }

  lemma ReportVerdict(w: World, tid: nat, t: Task, choice: Choice)
    requires t.phase.AwaitingReport?
    ensures VerdictIsCurrent(StepAwaitingReport(w, tid, t, choice))
  {
    hide CommitLegacy, QueryError, B.CommitGated, GateForPayload, Judge;
    var AwaitingReport(attempt, before, query) := t.phase;
    CommitVerdict(w, tid, t, attempt, before, query);
    GatedVerdict(w, tid, t, attempt, before, query);
  }

  lemma GatedVerdict(w: World, tid: nat, t: Task, attempt: Attempt, before: HelperStatus, query: nat)
    requires t.phase.AwaitingReport?
    ensures forall report :: VerdictIsCurrent(CommitGated(w, tid, t, attempt, before, query, report))
  {
    hide GateForPayload, MergeGates;
  }
}
