/** Whose evidence a dispatch acts on: its queries and probes are its own, and fresh. */
module DispatchEvidence {
  import opened Prelude
  import opened Gates
  import opened Dispatch
  import opened DispatchInvariants
  import opened DispatchProofs
  import B = Bridge
  import I = BridgeInvariants
  import S = SessionCache

  // --- Writes -------------------------------------------------------------------

  lemma WritesOnlyWhenSending(w: World, tid: nat, t: Task, choice: Choice)
    ensures t.phase.Sending? || Mine(StepTask(w, tid, t, choice).world.bridge.frames, tid) == Mine(w.bridge.frames, tid)
  {
    hide B.CommitGated, B.CommitLegacy, GateForPayload, Judge, S.Remember, S.ClearOrigin, QueryError, Mine;
    if t.phase.Querying? {
      AskMine(w.bridge, B.AskCapabilities(Some(tid)), choice, tid);
    } else if t.phase.Probing? {
      AskMine(w.bridge, B.AskProbe(Some(tid), t.phase.session), choice, tid);
    } else if !t.phase.Sending? {
      FramesUntouched(w, tid, t, choice);
    }
  }

  lemma AskMine(b: B.State, ask: B.Ask, choice: Choice, tid: nat)
    requires !ask.Content().UserAction?
    ensures Mine(TryEnqueue(b, ask, choice).0.frames, tid) == Mine(b.frames, tid)
  {
    if b.conn.Some? {
      MineSnoc(b.frames, B.Frame(b.conn.value, |b.registered|, ask.Id(|b.registered|), ask.Content()), tid);
    }
  }

  lemma FramesUntouched(w: World, tid: nat, t: Task, choice: Choice)
    requires !t.phase.Querying? && !t.phase.Probing? && !t.phase.Sending?
    ensures StepTask(w, tid, t, choice).world.bridge.frames == w.bridge.frames
  {
    hide GateForPayload, Judge, S.Remember, S.ClearOrigin, QueryError, B.Enqueue, B.EnqueueRefused, MergeGates;
    if Preflighting(t.phase) {
      PreflightFrames(w, tid, t, choice);
    }
  }

  lemma PreflightFrames(w: World, tid: nat, t: Task, choice: Choice)
    requires Preflighting(t.phase) && !t.phase.Querying?
    ensures StepTask(w, tid, t, choice).world.bridge.frames == w.bridge.frames
  {
    hide GateForPayload, Judge, QueryError, MergeGates, StepQuerying, StepProbing, StepSending, StepAwaitingReply,
         StepAwaitingToken, StepAwaitingProbe, StepEvicting, StepPrompting, StepQueued, StepRefreshing;
  }

  // --- What a dispatch owns --------------------------------------------------------

  /** The capability query was enqueued for this very dispatch. */
  ghost predicate AskedBy(b: B.State, tid: nat, query: nat) {
    exists f: B.Frame :: f in b.frames && f.waiter == query && f.content == B.CapabilityQuery(Some(tid))
  }

  /** The probe was enqueued for this very dispatch, with this very session. */
  ghost predicate ProbedBy(b: B.State, tid: nat, session: SnuInstance, probe: nat) {
    exists f: B.Frame :: f in b.frames && f.waiter == probe && f.content == B.ProbeQuery(Some(tid), session)
  }

  /** The query came after everything the dispatch has written. */
  predicate Behind(frames: seq<ActionFrame>, query: nat) {
    frames == [] || frames[|frames| - 1].waiter < query
  }

  /** A preflight not used yet: asked by this dispatch, after its last write. */
  ghost predicate Own(b: B.State, tid: nat, frames: seq<ActionFrame>, p: Preflight) {
    p.generation.Some? ==> AskedBy(b, tid, p.query) && Behind(frames, p.query)
  }

  /** The preflight of one write: asked by this dispatch between the write before and it. */
  ghost predicate Spent(b: B.State, tid: nat, frames: seq<ActionFrame>, p: Preflight, i: nat)
    requires i < |frames|
  {
    p.generation.Some? ==> AskedBy(b, tid, p.query) && p.query < frames[i].waiter && Behind(frames[..i], p.query)
  }

  /** The protocol is the one the request fixes, or one of the two it offers. */
  predicate Fits(t: Task) {
    match t.protocol
    case None => t.request.SendActionWithLegacyFallback?
    case Some(Correlated(id)) => !t.request.SendActionForAction? && id == t.request.id
    case Some(ByAction(expected)) => t.request.SendActionForAction? && expected == t.request.expectedAction
    case Some(Legacy(expected)) => t.request.SendActionWithLegacyFallback? && expected == t.request.legacyAction
  }

  /** The write carries and awaits what its protocol says. */
  ghost predicate Speaks(b: B.State, protocol: Protocol, f: ActionFrame) {
    && f.waiter < |b.registered|
    && match protocol
       case Correlated(id) =>
         f.correlation == Some(B.Client(id)) && b.registered[f.waiter].matcher == B.Correlation(B.Client(id))
       case ByAction(expected) => f.correlation == None && b.registered[f.waiter].matcher == B.Action(expected)
       case Legacy(expected) => f.correlation == None && b.registered[f.waiter].matcher == B.Action(expected)
  }

  ghost predicate WireOk(b: B.State, t: Task, frames: seq<ActionFrame>) {
    Fits(t) && forall f :: f in frames ==> t.protocol.Some? && Speaks(b, t.protocol.value, f)
  }

  ghost predicate PhaseOwn(b: B.State, tid: nat, t: Task, frames: seq<ActionFrame>) {
    match t.phase
    case AwaitingReport(_, _, query) => AskedBy(b, tid, query) && Behind(frames, query)
    case ReportTimedOut(_, _, query) => AskedBy(b, tid, query) && Behind(frames, query)
    case ConfirmingSilence(_, _, query) => AskedBy(b, tid, query) && Behind(frames, query)
    case Queued(p) => Own(b, tid, frames, p)
    case Refreshing(p) => Own(b, tid, frames, p)
    case Sending(_, p) => Own(b, tid, frames, p)
    case AwaitingProbe(session, probe) => ProbedBy(b, tid, session, probe)
    case _ => true
  }

  /** A recorded rejection is of the session the first write carried. */
  ghost predicate LogOwn(b: B.State, tid: nat, log: seq<Event>, frames: seq<ActionFrame>) {
    |log| >= 3 && log[2].ProbeRejected? ==>
      && frames != [] && frames[0].content.payload.instance.Some?
      && ProbedBy(b, tid, frames[0].content.payload.instance.value, log[2].probe)
  }

  ghost predicate SentOwn(b: B.State, tid: nat, sent: seq<Preflight>, frames: seq<ActionFrame>) {
    |sent| == |frames| && forall i :: 0 <= i < |frames| ==> Spent(b, tid, frames, sent[i], i)
  }

  ghost predicate OwnInv(b: B.State, tid: nat, t: Task) {
    var frames := Mine(b.frames, tid);
    && SentOwn(b, tid, t.sent, frames)
    && PhaseOwn(b, tid, t, frames)
    && LogOwn(b, tid, t.log, frames)
    && WireOk(b, t, frames)
  }

  // --- Time does not take it away --------------------------------------------------

  lemma EvidenceLater(b: B.State, b': B.State, tid: nat)
    requires b.frames <= b'.frames
    ensures forall query :: AskedBy(b, tid, query) ==> AskedBy(b', tid, query)
    ensures forall session, probe :: ProbedBy(b, tid, session, probe) ==> ProbedBy(b', tid, session, probe)
  {
    assert forall f :: f in b.frames ==> f in b'.frames;
    forall query | AskedBy(b, tid, query) ensures AskedBy(b', tid, query) {
      var f: B.Frame :| f in b.frames && f.waiter == query && f.content == B.CapabilityQuery(Some(tid));
      assert f in b'.frames;
    }
    forall session, probe | ProbedBy(b, tid, session, probe) ensures ProbedBy(b', tid, session, probe) {
      var f: B.Frame :| f in b.frames && f.waiter == probe && f.content == B.ProbeQuery(Some(tid), session);
      assert f in b'.frames;
    }
  }

  lemma SentLater(b: B.State, b': B.State, tid: nat, sent: seq<Preflight>, frames: seq<ActionFrame>)
    requires b.frames <= b'.frames && SentOwn(b, tid, sent, frames)
    ensures SentOwn(b', tid, sent, frames)
  {
    EvidenceLater(b, b', tid);
    hide AskedBy, ProbedBy, Behind;
    forall i | 0 <= i < |frames| ensures Spent(b', tid, frames, sent[i], i) {
      assert Spent(b, tid, frames, sent[i], i);
    }
  }

  lemma WireLater(b: B.State, b': B.State, t: Task, frames: seq<ActionFrame>)
    requires b.registered <= b'.registered && WireOk(b, t, frames)
    ensures WireOk(b', t, frames)
  {
    hide Fits;
    forall f | f in frames ensures t.protocol.Some? && Speaks(b', t.protocol.value, f) {
      assert Speaks(b, t.protocol.value, f);
    }
  }

  lemma PhaseOwnLater(b: B.State, b': B.State, tid: nat, t: Task, frames: seq<ActionFrame>)
    requires b.frames <= b'.frames && PhaseOwn(b, tid, t, frames)
    ensures PhaseOwn(b', tid, t, frames)
  {
    EvidenceLater(b, b', tid);
    hide AskedBy, ProbedBy, Behind;
  }

  lemma LogOwnLater(b: B.State, b': B.State, tid: nat, log: seq<Event>, frames: seq<ActionFrame>)
    requires b.frames <= b'.frames && LogOwn(b, tid, log, frames)
    ensures LogOwn(b', tid, log, frames)
  {
    EvidenceLater(b, b', tid);
    hide AskedBy, ProbedBy;
  }

  lemma OwnLater(b: B.State, b': B.State, tid: nat, t: Task)
    requires I.Later(b, b') && Mine(b'.frames, tid) == Mine(b.frames, tid) && OwnInv(b, tid, t)
    ensures OwnInv(b', tid, t)
  {
    hide I.Later, Mine, SentOwn, PhaseOwn, LogOwn, WireOk;
    HistoryLater(b, b');
    var frames := Mine(b.frames, tid);
    SentLater(b, b', tid, t.sent, frames);
    PhaseOwnLater(b, b', tid, t, frames);
    LogOwnLater(b, b', tid, t.log, frames);
    WireLater(b, b', t, frames);
  }

  lemma HistoryLater(b: B.State, b': B.State)
    requires I.Later(b, b')
    ensures b.frames <= b'.frames && b.registered <= b'.registered
  {
  }

  // --- Each phase keeps it ------------------------------------------------------------

  /** What a move that writes nothing must leave behind. */
  ghost predicate Settled(b: B.State, tid: nat, t: Task, t': Task) {
    var frames := Mine(b.frames, tid);
    && t'.sent == t.sent
    && PhaseOwn(b, tid, t', frames) && LogOwn(b, tid, t'.log, frames) && WireOk(b, t', frames)
  }

  lemma SettledOwns(b: B.State, tid: nat, t: Task, t': Task)
    requires OwnInv(b, tid, t) && Settled(b, tid, t, t')
    ensures OwnInv(b, tid, t')
  {
    hide SentOwn, PhaseOwn, LogOwn, WireOk, Mine;
  }

  /** A dispatch still on its first attempt has written nothing. */
  ghost predicate FirstIsUnwritten(b: B.State, tid: nat, t: Task) {
    Preflighting(t.phase) && t.phase.attempt == First ==> Mine(b.frames, tid) == []
  }

  lemma FirstUnwritten(b: B.State, tid: nat, t: Task)
    requires TaskInv(b, tid, t)
    ensures FirstIsUnwritten(b, tid, t)
  {
    hide SentOk, PhaseOk, ProtocolOk, Mine;
  }

  lemma PassSettles(w: World, tid: nat, t: Task, attempt: Attempt, p: Preflight)
    requires OwnInv(w.bridge, tid, t) && Preflighting(t.phase) && t.phase.attempt == attempt
    requires FirstIsUnwritten(w.bridge, tid, t) && Own(w.bridge, tid, Mine(w.bridge.frames, tid), p)
    ensures Settled(w.bridge, tid, t, Pass(w, tid, t, attempt, p).task)
  {
    hide Mine, LogOwn, Own, Speaks, SentOwn;
  }

  lemma FinishSettles(w: World, tid: nat, t: Task, outcome: Outcome)
    requires OwnInv(w.bridge, tid, t)
    ensures Settled(w.bridge, tid, t, Finish(w, tid, t, outcome).task)
  {
    hide Mine, LogOwn, SentOwn, Speaks, Fits;
    var t' := Finish(w, tid, t, outcome).task;
    ProtocolStays(w.bridge, t, t', Mine(w.bridge.frames, tid));
  }

  lemma ProtocolStays(b: B.State, t: Task, t': Task, frames: seq<ActionFrame>)
    requires WireOk(b, t, frames) && t'.protocol == t.protocol && t'.request == t.request
    ensures WireOk(b, t', frames)
  {
    hide Speaks;
  }

  /** The bridge after the move holds what the task needs; `b` is that bridge. */
  ghost predicate Prepared(b: B.State, tid: nat, t: Task) {
    OwnInv(b, tid, t) && FirstIsUnwritten(b, tid, t)
  }

  lemma CommitsSettle(w: World, tid: nat, t: Task, attempt: Attempt, before: HelperStatus, query: nat, report: Report)
    requires Preflighting(t.phase) && t.phase.attempt == attempt
    requires AskedBy(w.bridge, tid, query) && Behind(Mine(w.bridge.frames, tid), query) && Prepared(w.bridge, tid, t)
    ensures var m := CommitLegacy(w, tid, t, attempt, before, query); Settled(m.world.bridge, tid, t, m.task)
    ensures var m := CommitGated(w, tid, t, attempt, before, query, report); Settled(m.world.bridge, tid, t, m.task)
  {
    hide OwnInv, Settled, AskedBy, Behind, Pass, Mine, Judge, MergeGates;
    var legacy, gated := w.(bridge := B.CommitLegacy(w.bridge)), w.(bridge := B.CommitGated(w.bridge, report));
    StatusOnly(w.bridge, legacy.bridge, tid, t, query);
    StatusOnly(w.bridge, gated.bridge, tid, t, query);
    FinishSettles(w, tid, t, Disconnected);
    FinishSettles(w, tid, t, GateStateUnavailable);
    var generation := Some(w.bridge.status.generation);
    PassSettles(legacy, tid, t, attempt, Preflight(t.payload, generation, LegacyAllowed, query));
    PassBridge(legacy, tid, t, attempt, Preflight(t.payload, generation, LegacyAllowed, query));
    match Judge(report, t.payload)
    case Err(outcome) => FinishSettles(gated, tid, t, outcome);
    case Ok(decision) =>
      PassSettles(gated, tid, t, attempt, Preflight(t.payload, generation, decision, query));
      PassBridge(gated, tid, t, attempt, Preflight(t.payload, generation, decision, query));
  }

  lemma PassBridge(w: World, tid: nat, t: Task, attempt: Attempt, p: Preflight)
    ensures Pass(w, tid, t, attempt, p).world.bridge == w.bridge
  {
  }

  lemma StatusOnly(b: B.State, b': B.State, tid: nat, t: Task, query: nat)
    requires b'.frames == b.frames && b'.registered == b.registered && Prepared(b, tid, t)
    requires AskedBy(b, tid, query) && Behind(Mine(b.frames, tid), query)
    ensures Prepared(b', tid, t) && AskedBy(b', tid, query) && Behind(Mine(b'.frames, tid), query)
  {
    hide Mine, SentOwn, WireOk, Behind;
    EvidenceLater(b, b', tid);
    SentLater(b, b', tid, t.sent, Mine(b.frames, tid));
    WireLater(b, b', t, Mine(b.frames, tid));
    hide AskedBy, ProbedBy;
  }

  lemma OwnParts(b: B.State, tid: nat, t: Task)
    requires OwnInv(b, tid, t)
    ensures var frames := Mine(b.frames, tid);
            SentOwn(b, tid, t.sent, frames) && PhaseOwn(b, tid, t, frames) && LogOwn(b, tid, t.log, frames) && WireOk(b, t, frames)
  {
    hide SentOwn, PhaseOwn, LogOwn, WireOk, Mine;
  }

  /** A move to another phase that records nothing. */
  lemma PhaseSettles(b: B.State, tid: nat, t: Task, t': Task)
    requires OwnInv(b, tid, t) && PhaseOwn(b, tid, t', Mine(b.frames, tid))
    requires t'.sent == t.sent && t'.log == t.log && t'.protocol == t.protocol && t'.request == t.request
    ensures Settled(b, tid, t, t')
  {
    hide SentOwn, PhaseOwn, LogOwn, WireOk, Mine;
    ProtocolStays(b, t, t', Mine(b.frames, tid));
  }

  /** A move that records one more event. */
  lemma LogSettles(b: B.State, tid: nat, t: Task, t': Task)
    requires OwnInv(b, tid, t) && PhaseOwn(b, tid, t', Mine(b.frames, tid))
    requires t'.sent == t.sent && t'.protocol == t.protocol && t'.request == t.request
    requires |t'.log| == |t.log| + 1 && t.log <= t'.log
    requires |t.log| == 2 ==> LogOwn(b, tid, t'.log, Mine(b.frames, tid))
    ensures Settled(b, tid, t, t')
  {
    hide SentOwn, PhaseOwn, WireOk, Mine, ProbedBy;
    ProtocolStays(b, t, t', Mine(b.frames, tid));
  }

  /** A new request comes after everything already written. */
  lemma NewIsBehind(b: B.State, tid: nat)
    requires I.Inv(b)
    ensures Behind(Mine(b.frames, tid), |b.registered|)
  {
    FramesRegistered(b);
    hide I.Inv, Mine;
    var frames := Mine(b.frames, tid);
    if frames != [] {
      assert frames[|frames| - 1] in frames;
    }
  }

  lemma FramesRegistered(b: B.State)
    requires I.Inv(b)
    ensures forall f :: f in b.frames ==> f.waiter < |b.registered|
  {
    hide I.GenerationsOk, I.WaitersOk, I.PendingOk, I.ClosedOk, I.StatusOk, I.StreamOk, I.Ordered, I.OwnId, B.Heard;
    forall f | f in b.frames ensures f.waiter < |b.registered| {
      assert I.FrameOk(b, f);
    }
  }

  lemma QuerySettles(w: World, tid: nat, t: Task, choice: Choice)
    requires I.Inv(w.bridge) && t.phase.Querying?
    requires var m := StepQuerying(w, tid, t, choice); OwnInv(m.world.bridge, tid, t) && Mine(m.world.bridge.frames, tid) == Mine(w.bridge.frames, tid)
    ensures var m := StepQuerying(w, tid, t, choice); Settled(m.world.bridge, tid, t, m.task)
  {
    hide I.Inv, OwnInv, Settled, Mine, Behind, AskedBy;
    var b, b' := w.bridge, StepQuerying(w, tid, t, choice).world.bridge;
    NewIsBehind(b, tid);
    var ask := B.AskCapabilities(Some(tid));
    if TryEnqueue(b, ask, choice).1 {
      AskedNow(b, tid);
      PhaseSettles(b', tid, t, StepQuerying(w, tid, t, choice).task);
    } else {
      FinishSettles(w.(bridge := b'), tid, t, StepQuerying(w, tid, t, choice).task.phase.outcome);
    }
  }

  lemma AskedNow(b: B.State, tid: nat)
    requires b.conn.Some?
    ensures AskedBy(B.Enqueue(b, B.AskCapabilities(Some(tid))), tid, |b.registered|)
  {
    var b' := B.Enqueue(b, B.AskCapabilities(Some(tid)));
    assert b'.frames[|b.frames|] in b'.frames;
  }

  lemma ProbedNow(b: B.State, tid: nat, session: SnuInstance)
    requires b.conn.Some?
    ensures ProbedBy(B.Enqueue(b, B.AskProbe(Some(tid), session)), tid, session, |b.registered|)
  {
    var b' := B.Enqueue(b, B.AskProbe(Some(tid), session));
    assert b'.frames[|b.frames|] in b'.frames;
  }

  lemma ProbeSettles(w: World, tid: nat, t: Task, choice: Choice)
    requires t.phase.Probing?
    requires var m := StepProbing(w, tid, t, choice); OwnInv(m.world.bridge, tid, t)
    ensures var m := StepProbing(w, tid, t, choice); Settled(m.world.bridge, tid, t, m.task)
  {
    hide OwnInv, Settled, Mine, ProbedBy;
    var b, b' := w.bridge, StepProbing(w, tid, t, choice).world.bridge;
    if TryEnqueue(b, B.AskProbe(Some(tid), t.phase.session), choice).1 {
      ProbedNow(b, tid, t.phase.session);
      PhaseSettles(b', tid, t, StepProbing(w, tid, t, choice).task);
    } else {
      FinishSettles(w.(bridge := b'), tid, t, StepProbing(w, tid, t, choice).task.phase.outcome);
    }
  }

  lemma CheckingSettles(w: World, tid: nat, t: Task, choice: Choice)
    requires t.phase.Checking? && Prepared(w.bridge, tid, t)
    ensures var m := StepChecking(w, tid, t, choice); Settled(m.world.bridge, tid, t, m.task)
  {
    hide OwnInv, Settled, Mine, Pass, GateForPayload, Behind, AskedBy;
    var p := Preflight(t.payload, None, NotGated, 0);
    PassSettles(w, tid, t, t.phase.attempt, p);
    PassBridge(w, tid, t, t.phase.attempt, p);
    FinishSettles(w, tid, t, NotConnected);
    PhaseSettles(w.bridge, tid, t, t.(phase := Querying(t.phase.attempt, w.bridge.status)));
  }

  lemma ReportSettles(w: World, tid: nat, t: Task, choice: Choice)
    requires t.phase.AwaitingReport? && Prepared(w.bridge, tid, t)
    requires var m := StepAwaitingReport(w, tid, t, choice); OwnInv(m.world.bridge, tid, t)
    ensures var m := StepAwaitingReport(w, tid, t, choice); Settled(m.world.bridge, tid, t, m.task)
  {
    hide OwnInv, Settled, Mine, Behind, AskedBy, CommitLegacy, CommitGated;
    var AwaitingReport(attempt, before, query) := t.phase;
    var b := w.bridge;
    var m := StepAwaitingReport(w, tid, t, choice);
    OwnParts(b, tid, t);
    OwnParts(m.world.bridge, tid, t);
    if query !in b.closed {
      PhaseSettles(m.world.bridge, tid, t, m.task);
    } else if b.closed[query].Answered? && b.closed[query].message.report.Some? {
      CommitsSettle(w, tid, t, attempt, before, query, b.closed[query].message.report.value);
      if m.task.phase.Done? {
        PhaseSettles(m.world.bridge, tid, t, t.(phase := m.task.phase));
        ReportEnds(w, tid, t, choice);
      }
    } else {
      PhaseSettles(m.world.bridge, tid, t, m.task);
    }
  }

  /** A report that ends the dispatch leaves its record as it was. */
  lemma ReportEnds(w: World, tid: nat, t: Task, choice: Choice)
    requires t.phase.AwaitingReport? && StepAwaitingReport(w, tid, t, choice).task.phase.Done?
    ensures StepAwaitingReport(w, tid, t, choice).task == t.(phase := StepAwaitingReport(w, tid, t, choice).task.phase)
  {
    hide GateForPayload, Judge, MergeGates, B.MayTurnLegacy;
  }

  lemma SilenceSettles(w: World, tid: nat, t: Task)
    requires t.phase.ReportTimedOut? && OwnInv(w.bridge, tid, t)
    ensures var m := StepReportTimedOut(w, tid, t); Settled(m.world.bridge, tid, t, m.task)
  {
    hide OwnInv, Settled, Mine, Behind, AskedBy;
    OwnParts(w.bridge, tid, t);
    PhaseSettles(w.bridge, tid, t, StepReportTimedOut(w, tid, t).task);
  }

  lemma ConfirmedSettles(w: World, tid: nat, t: Task)
    requires t.phase.ConfirmingSilence? && Prepared(w.bridge, tid, t)
    ensures var m := CommitLegacy(w, tid, t, t.phase.attempt, t.phase.before, t.phase.query);
            Settled(m.world.bridge, tid, t, m.task)
  {
    hide OwnInv, Settled, Mine, Behind, AskedBy, CommitLegacy, CommitGated;
    OwnParts(w.bridge, tid, t);
    CommitsSettle(w, tid, t, t.phase.attempt, t.phase.before, t.phase.query, Report(None, map[]));
  }

  lemma QueueSettles(w: World, tid: nat, t: Task)
    requires OwnInv(w.bridge, tid, t)
    ensures t.phase.Queued? ==> Settled(w.bridge, tid, t, StepQueued(w, tid, t).task)
    ensures t.phase.Refreshing? ==> Settled(w.bridge, tid, t, StepRefreshing(w, t).task)
  {
    hide OwnInv, Settled, Mine, Own;
    OwnParts(w.bridge, tid, t);
    if t.phase.Queued? {
      PhaseSettles(w.bridge, tid, t, StepQueued(w, tid, t).task);
    } else if t.phase.Refreshing? {
      PhaseSettles(w.bridge, tid, t, StepRefreshing(w, t).task);
    }
  }

  /** What the record says in the phases that add to it. */
  lemma RecordedSoFar(b: B.State, tid: nat, t: Task)
    requires TaskInv(b, tid, t)
    ensures t.phase.AwaitingReply? && t.phase.attempt == First ==> |t.log| == 1
    ensures t.phase.AwaitingProbe? ==> |t.log| == 2
    ensures t.phase.Evicting? ==> |t.log| == 3
    ensures t.phase.AwaitingProbe? || t.phase.Evicting? ==>
              |Mine(b.frames, tid)| == 1 && Mine(b.frames, tid)[0].content.payload.instance == Some(t.phase.session)
  {
    hide SentOk, PhaseOk, ProtocolOk, LogOk, Mine;
  }

  lemma ReplySettles(w: World, tid: nat, t: Task, choice: Choice)
    requires TaskInv(w.bridge, tid, t) && t.phase.AwaitingReply?
    requires var m := StepAwaitingReply(w, tid, t, choice); OwnInv(m.world.bridge, tid, t)
    ensures var m := StepAwaitingReply(w, tid, t, choice); Settled(m.world.bridge, tid, t, m.task)
  {
    hide TaskInv, OwnInv, Settled, Mine, LogOwn, Verified;
    RecordedSoFar(w.bridge, tid, t);
    var m := StepAwaitingReply(w, tid, t, choice);
    if m.task.log == t.log {
      PhaseSettles(m.world.bridge, tid, t, m.task);
    } else {
      LogSettles(m.world.bridge, tid, t, m.task);
    }
  }

  lemma VerdictSettles(w: World, tid: nat, t: Task, choice: Choice)
    requires TaskInv(w.bridge, tid, t) && t.phase.AwaitingProbe?
    requires var m := StepAwaitingProbe(w, tid, t, choice);
             OwnInv(m.world.bridge, tid, t) && Mine(m.world.bridge.frames, tid) == Mine(w.bridge.frames, tid)
    ensures var m := StepAwaitingProbe(w, tid, t, choice); Settled(m.world.bridge, tid, t, m.task)
  {
    hide TaskInv, OwnInv, Settled, Mine, Rejects, ProbedBy;
    RecordedSoFar(w.bridge, tid, t);
    var m := StepAwaitingProbe(w, tid, t, choice);
    OwnParts(m.world.bridge, tid, t);
    if m.task.log == t.log {
      PhaseSettles(m.world.bridge, tid, t, m.task);
    } else {
      LogSettles(m.world.bridge, tid, t, m.task);
    }
  }

  lemma EvictionSettles(w: World, tid: nat, t: Task, choice: Choice)
    requires TaskInv(w.bridge, tid, t) && OwnInv(w.bridge, tid, t) && t.phase.Evicting?
    ensures Settled(w.bridge, tid, t, StepEvicting(w, t, choice).task)
  {
    hide TaskInv, OwnInv, Settled, Mine, LogOwn, S.ClearOrigin;
    RecordedSoFar(w.bridge, tid, t);
    LogSettles(w.bridge, tid, t, StepEvicting(w, t, choice).task);
  }

  lemma PromptSettles(w: World, tid: nat, t: Task)
    requires t.phase.Prompting?
    requires var m := StepPrompting(w, t); OwnInv(m.world.bridge, tid, t)
    ensures var m := StepPrompting(w, t); Settled(m.world.bridge, tid, t, m.task)
  {
    hide OwnInv, Settled, Mine, B.AwaitSession;
    PhaseSettles(StepPrompting(w, t).world.bridge, tid, t, StepPrompting(w, t).task);
  }

  lemma TokenSettles(w: World, tid: nat, t: Task, choice: Choice)
    requires t.phase.AwaitingToken?
    requires var m := StepAwaitingToken(w, tid, t, choice); OwnInv(m.world.bridge, tid, t)
    ensures var m := StepAwaitingToken(w, tid, t, choice); Settled(m.world.bridge, tid, t, m.task)
  {
    hide OwnInv, Settled, Mine, S.Remember, B.Abandon;
    PhaseSettles(StepAwaitingToken(w, tid, t, choice).world.bridge, tid, t, StepAwaitingToken(w, tid, t, choice).task);
  }

  // --- Writing ------------------------------------------------------------------------

  lemma WriteSpends(b: B.State, tid: nat, sent: seq<Preflight>, frames: seq<ActionFrame>, p: Preflight, f: ActionFrame)
    requires SentOwn(b, tid, sent, frames) && Own(b, tid, frames, p)
    requires p.generation.Some? ==> p.query < f.waiter
    ensures SentOwn(b, tid, sent + [p], frames + [f])
  {
    hide AskedBy, Behind;
    var more := frames + [f];
    forall i | 0 <= i < |more| ensures Spent(b, tid, more, (sent + [p])[i], i) {
      if i < |frames| {
        assert Spent(b, tid, frames, sent[i], i);
        assert more[..i] == frames[..i] && more[i] == frames[i];
      } else {
        assert more[..i] == frames;
      }
    }
  }

  lemma QueriedBefore(b: B.State, tid: nat, query: nat)
    requires I.Inv(b) && AskedBy(b, tid, query)
    ensures query < |b.registered|
  {
    FramesRegistered(b);
  }

  lemma WriteSpeaks(b: B.State, b': B.State, t: Task, frames: seq<ActionFrame>, f: ActionFrame)
    requires WireOk(b, t, frames) && b.registered <= b'.registered
    requires t.protocol.Some? && Speaks(b', t.protocol.value, f)
    ensures WireOk(b', t, frames + [f])
  {
    hide Fits;
    WireLater(b, b', t, frames);
  }

  lemma FrameSpeaks(b: B.State, tid: nat, t: Task)
    requires b.conn.Some? && t.protocol.Some?
    ensures var ask := AskFor(tid, t);
            Speaks(B.Enqueue(b, ask), t.protocol.value, B.Frame(b.conn.value, |b.registered|, ask.Id(|b.registered|), ask.Content()))
  {
  }

  lemma LogWrites(b: B.State, b': B.State, tid: nat, log: seq<Event>, frames: seq<ActionFrame>, f: ActionFrame, e: Event)
    requires b.frames <= b'.frames && LogOwn(b, tid, log, frames) && e.Wrote?
    ensures LogOwn(b', tid, log + [e], frames + [f])
  {
    hide ProbedBy;
    EvidenceLater(b, b', tid);
  }

  lemma SendingOwns(w: World, tid: nat, t: Task, choice: Choice)
    requires I.Inv(w.bridge) && OwnInv(w.bridge, tid, t) && t.phase.Sending?
    ensures var m := StepSending(w, tid, t, choice); OwnInv(m.world.bridge, tid, m.task)
  {
    hide I.Inv, I.Later, OwnInv, StepSending, B.Enqueue, B.EnqueueRefused, AskFor, Written;
    SendingCases(w, tid, t, choice);
    if StepSending(w, tid, t, choice).task.phase.Done? {
      FinishOwns(w, tid, t, choice);
    } else {
      WriteOwns(w.bridge, tid, t);
    }
  }

  lemma WriteOwns(b: B.State, tid: nat, t: Task)
    requires I.Inv(b) && OwnInv(b, tid, t) && t.phase.Sending? && t.protocol.Some? && b.conn.Some?
    ensures OwnInv(B.Enqueue(b, AskFor(tid, t)), tid, Written(t, |b.registered|))
  {
    hide I.Inv, I.Later, OwnInv, SentOwn, WireOk, LogOwn, AskedBy, Behind, Speaks, Mine, AskFor, B.Enqueue, BridgeKeeps, Own, PhaseOwn;
    AsksForAction(tid, t);
    OwnParts(b, tid, t);
    SendingPreflight(b, tid, t, Mine(b.frames, tid));
    var ask := AskFor(tid, t);
    var b', t' := B.Enqueue(b, ask), Written(t, |b.registered|);
    var f: ActionFrame := B.Frame(b.conn.value, |b.registered|, ask.Id(|b.registered|), ask.Content());
    var frames, p := Mine(b.frames, tid), t.phase.preflight;
    WriteMoves(b, ask, tid);
    EnqueueExtends(b, ask);
    PreflightBefore(b, tid, frames, p);
    WriteSpends(b, tid, t.sent, frames, p, f);
    SentLater(b, b', tid, t'.sent, frames + [f]);
    FrameSpeaks(b, tid, t);
    WriteSpeaks(b, b', t, frames, f);
    ProtocolStays(b', t, t', frames + [f]);
    LogWrites(b, b', tid, t.log, frames, f, Wrote(f.waiter));
    AssembleOwn(b', tid, t', frames + [f]);
  }

  lemma SendingPreflight(b: B.State, tid: nat, t: Task, frames: seq<ActionFrame>)
    requires PhaseOwn(b, tid, t, frames) && t.phase.Sending?
    ensures Own(b, tid, frames, t.phase.preflight)
  {
    hide Own;
  }

  lemma PreflightBefore(b: B.State, tid: nat, frames: seq<ActionFrame>, p: Preflight)
    requires I.Inv(b) && Own(b, tid, frames, p)
    ensures p.generation.Some? ==> p.query < |b.registered|
  {
    hide I.Inv, AskedBy, Behind;
    if p.generation.Some? {
      QueriedBefore(b, tid, p.query);
    }
  }

  lemma AssembleOwn(b: B.State, tid: nat, t: Task, frames: seq<ActionFrame>)
    requires Mine(b.frames, tid) == frames && t.phase.AwaitingReply?
    requires SentOwn(b, tid, t.sent, frames) && LogOwn(b, tid, t.log, frames) && WireOk(b, t, frames)
    ensures OwnInv(b, tid, t)
  {
    hide SentOwn, WireOk, LogOwn, Mine;
  }

  lemma EnqueueExtends(b: B.State, ask: B.Ask)
    requires b.conn.Some?
    ensures b.frames <= B.Enqueue(b, ask).frames && b.registered <= B.Enqueue(b, ask).registered
  {
  }

  lemma FinishOwns(w: World, tid: nat, t: Task, choice: Choice)
    requires I.Inv(w.bridge) && OwnInv(w.bridge, tid, t) && t.phase.Sending? && StepSending(w, tid, t, choice).task.phase.Done?
    ensures var m := StepSending(w, tid, t, choice); OwnInv(m.world.bridge, tid, m.task)
  {
    hide I.Inv, I.Later, OwnInv, Mine, Settled, StepSending, Quiet, B.EnqueueRefused, AskFor;
    var b, m := w.bridge, StepSending(w, tid, t, choice);
    SendingCases(w, tid, t, choice);
    if m.world.bridge == b {
      NothingMoves(b, tid);
    } else {
      RefusedQuiet(b, AskFor(tid, t), tid);
    }
    QuietParts(b, m.world.bridge, tid);
    OwnLater(b, m.world.bridge, tid, t);
    FinishSettles(w.(bridge := m.world.bridge), tid, t, m.task.phase.outcome);
    SettledOwns(m.world.bridge, tid, t, m.task);
  }

  lemma QuietParts(b: B.State, b': B.State, tid: nat)
    requires Quiet(b, b', tid)
    ensures I.Later(b, b') && Mine(b'.frames, tid) == Mine(b.frames, tid)
  {
    hide I.Inv, I.Later, Mine;
  }

  // --- Every phase -----------------------------------------------------------------------

  lemma StepSettles(w: World, tid: nat, t: Task, choice: Choice)
    requires I.Inv(w.bridge) && TaskInv(w.bridge, tid, t) && Prepared(w.bridge, tid, t) && !t.phase.Sending?
    requires var m := StepTask(w, tid, t, choice);
             OwnInv(m.world.bridge, tid, t) && Mine(m.world.bridge.frames, tid) == Mine(w.bridge.frames, tid)
    ensures var m := StepTask(w, tid, t, choice); Settled(m.world.bridge, tid, t, m.task)
  {
    hide I.Inv, TaskInv, OwnInv, Settled, Mine, FirstIsUnwritten, CommitLegacy, StepChecking, StepQuerying, StepAwaitingReport,
         StepReportTimedOut, StepQueued, StepRefreshing, StepSending, StepAwaitingReply, StepProbing, StepAwaitingProbe,
         StepEvicting, StepPrompting, StepAwaitingToken;
    match t.phase
    case Checking(_) => CheckingSettles(w, tid, t, choice);
    case Querying(_, _) => QuerySettles(w, tid, t, choice);
    case AwaitingReport(_, _, _) => ReportSettles(w, tid, t, choice);
    case ReportTimedOut(_, _, _) =>
      SilenceSettles(w, tid, t);
      LocalBridge(w, tid, t, choice);
    case ConfirmingSilence(_, _, _) => ConfirmedSettles(w, tid, t);
    case Queued(_) =>
      QueueSettles(w, tid, t);
      LocalBridge(w, tid, t, choice);
    case Refreshing(_) =>
      QueueSettles(w, tid, t);
      LocalBridge(w, tid, t, choice);
    case AwaitingReply(_, _) => ReplySettles(w, tid, t, choice);
    case Probing(_) => ProbeSettles(w, tid, t, choice);
    case AwaitingProbe(_, _) => VerdictSettles(w, tid, t, choice);
    case Evicting(_) =>
      EvictionSettles(w, tid, t, choice);
      LocalBridge(w, tid, t, choice);
    case Prompting(_) => PromptSettles(w, tid, t);
    case AwaitingToken(_, _) => TokenSettles(w, tid, t, choice);
    case Done(_) => PhaseSettles(w.bridge, tid, t, t);
  }

  /** These phases leave the bridge alone. */
  lemma LocalBridge(w: World, tid: nat, t: Task, choice: Choice)
    ensures t.phase.ReportTimedOut? ==> StepReportTimedOut(w, tid, t).world.bridge == w.bridge
    ensures t.phase.Queued? ==> StepQueued(w, tid, t).world.bridge == w.bridge
    ensures t.phase.Refreshing? ==> StepRefreshing(w, t).world.bridge == w.bridge
    ensures t.phase.Evicting? ==> StepEvicting(w, t, choice).world.bridge == w.bridge
  {
    hide S.ClearOrigin;
  }

  lemma SendingIsStep(w: World, tid: nat, t: Task, choice: Choice)
    requires t.phase.Sending?
    ensures StepTask(w, tid, t, choice) == StepSending(w, tid, t, choice)
  {
    hide StepSending;
  }

  /** Each phase of a dispatch keeps its evidence its own, and fresh. */
  lemma TaskOwns(w: World, tid: nat, t: Task, choice: Choice)
    requires I.Inv(w.bridge) && TaskInv(w.bridge, tid, t) && OwnInv(w.bridge, tid, t)
    ensures var m := StepTask(w, tid, t, choice); OwnInv(m.world.bridge, tid, m.task)
  {
    hide I.Inv, I.Later, TaskInv, OwnInv, Settled, Mine, StepTask, BridgeKeeps;
    if t.phase.Sending? {
      SendingIsStep(w, tid, t, choice);
      SendingOwns(w, tid, t, choice);
    } else {
      var m := StepTask(w, tid, t, choice);
      TaskKeeps(w, tid, t, choice);
      KeepsIsLater(w.bridge, m.world.bridge, tid);
      WritesOnlyWhenSending(w, tid, t, choice);
      OwnLater(w.bridge, m.world.bridge, tid, t);
      FirstUnwritten(w.bridge, tid, t);
      StepSettles(w, tid, t, choice);
      SettledOwns(m.world.bridge, tid, t, m.task);
    }
  }

  // --- One owner ----------------------------------------------------------------------------

  /** A query belongs to one dispatch only. */
  lemma QueriesAreNotShared(b: B.State, query: nat, tid: nat, other: nat)
    requires I.Inv(b) && AskedBy(b, tid, query) && AskedBy(b, other, query)
    ensures tid == other
  {
    FramesAreOrdered(b);
    hide I.Inv;
    var f: B.Frame :| f in b.frames && f.waiter == query && f.content == B.CapabilityQuery(Some(tid));
    var g: B.Frame :| g in b.frames && g.waiter == query && g.content == B.CapabilityQuery(Some(other));
    var i :| 0 <= i < |b.frames| && b.frames[i] == f;
    var j :| 0 <= j < |b.frames| && b.frames[j] == g;
    assert i == j;
  }

  lemma FramesAreOrdered(b: B.State)
    requires I.Inv(b)
    ensures I.Ordered(b.frames)
  {
    hide I.GenerationsOk, I.WaitersOk, I.PendingOk, I.IdsOk, I.ClosedOk, I.StatusOk, I.StreamOk;
  }
}
