/** Each phase of a task keeps the invariants of the bridge and of every task. */
module DispatchProofs {
  import opened Prelude
  import opened Gates
  import opened Dispatch
  import opened DispatchInvariants
  import B = Bridge
  import I = BridgeInvariants
  import T = BridgeTheorems
  import S = SessionCache

  /** The move extends the bridge and, but for `tid`, nobody's frames change. */
  ghost predicate BridgeKeeps(b: B.State, b': B.State, tid: nat) {
    && I.Inv(b') && I.Later(b, b')
    && forall other :: other != tid ==> Mine(b'.frames, other) == Mine(b.frames, other)
  }

  /** ... nor those of `tid`. */
  ghost predicate Quiet(b: B.State, b': B.State, tid: nat) {
    BridgeKeeps(b, b', tid) && Mine(b'.frames, tid) == Mine(b.frames, tid)
  }

  ghost predicate Keeps(w: World, tid: nat, m: Moved) {
    BridgeKeeps(w.bridge, m.world.bridge, tid) && TaskInv(m.world.bridge, tid, m.task)
  }

  lemma NothingMoves(b: B.State, tid: nat)
    requires I.Inv(b)
    ensures Quiet(b, b, tid)
  {
    I.LaterReflexive(b);
  }

  lemma QuietKeeps(b: B.State, b': B.State, tid: nat, t: Task)
    requires TaskInv(b, tid, t) && Quiet(b, b', tid)
    ensures TaskInv(b', tid, t)
  {
    hide I.Inv, TaskInv;
    TaskStays(b, b', tid, t);
  }

  // --- Moves of the task alone -------------------------------------------------

  lemma EndKeeps(b: B.State, tid: nat, t: Task, outcome: Outcome)
    requires TaskInv(b, tid, t)
    ensures TaskInv(b, tid, t.(phase := Done(outcome)))
  {
  }

  lemma FinishKeeps(w: World, w': World, tid: nat, t: Task, outcome: Outcome)
    requires TaskInv(w.bridge, tid, t) && Quiet(w.bridge, w'.bridge, tid)
    ensures Keeps(w, tid, Finish(w', tid, t, outcome))
  {
    hide BridgeKeeps, TaskInv;
    QuietKeeps(w.bridge, w'.bridge, tid, t);
    EndKeeps(w'.bridge, tid, t, outcome);
  }

  /** The phases of a preflight, up to and including its last one. */
  predicate Preflighting(phase: Phase) {
    phase.Checking? || phase.Querying? || phase.AwaitingReport? || phase.ReportTimedOut? || phase.ConfirmingSilence?
  }

  /** A first preflight is for the payload the client asked to send. */
  ghost predicate AsRequested(t: Task) {
    Preflighting(t.phase) && t.phase.attempt == First ==> t.payload == t.request.payload
  }

  lemma PassProtocol(w: World, tid: nat, t: Task, attempt: Attempt, p: Preflight)
    requires TaskInv(w.bridge, tid, t) && Preflighting(t.phase) && t.phase.attempt == attempt && AsRequested(t)
    ensures ProtocolOk(Mine(w.bridge.frames, tid), Pass(w, tid, t, attempt, p).task)
  {
    hide SentOk, PhaseOk, Mine;
    assert attempt == First ==> Mine(w.bridge.frames, tid) == [];
  }

  lemma PassStage(w: World, tid: nat, t: Task, attempt: Attempt, p: Preflight)
    requires TaskInv(w.bridge, tid, t) && Preflighting(t.phase) && t.phase.attempt == attempt
    requires Passed(w.bridge, p) && p.payload == t.payload
    ensures PhaseOk(w.bridge, Pass(w, tid, t, attempt, p).task)
    ensures StageOk(Pass(w, tid, t, attempt, p).task, Mine(w.bridge.frames, tid))
  {
    hide Passed, SentOk, ProtocolOk, LogOk, Mine;
  }

  lemma PassTask(w: World, tid: nat, t: Task, attempt: Attempt, p: Preflight)
    requires TaskInv(w.bridge, tid, t) && Preflighting(t.phase) && t.phase.attempt == attempt && AsRequested(t)
    requires Passed(w.bridge, p) && p.payload == t.payload
    ensures TaskInv(w.bridge, tid, Pass(w, tid, t, attempt, p).task)
  {
    hide Passed, ProtocolOk, PhaseOk, StageOk, LogOk, Mine, Bound;
    PassProtocol(w, tid, t, attempt, p);
    PassStage(w, tid, t, attempt, p);
    var t' := Pass(w, tid, t, attempt, p).task;
    assert t'.sent == t.sent && t'.log == t.log;
  }

  lemma PassKeeps(w: World, w': World, tid: nat, t: Task, attempt: Attempt, p: Preflight)
    requires TaskInv(w.bridge, tid, t) && Preflighting(t.phase) && t.phase.attempt == attempt && AsRequested(t)
    requires Quiet(w.bridge, w'.bridge, tid)
    requires Passed(w'.bridge, p) && p.payload == t.payload
    ensures Keeps(w, tid, Pass(w', tid, t, attempt, p))
  {
    hide BridgeKeeps, TaskInv, Passed;
    QuietKeeps(w.bridge, w'.bridge, tid, t);
    PassTask(w', tid, t, attempt, p);
  }

  /** A move between phases that records nothing new. */
  lemma GoToKeeps(w: World, w': World, tid: nat, t: Task, phase: Phase)
    requires TaskInv(w.bridge, tid, t) && Quiet(w.bridge, w'.bridge, tid)
    requires PhaseOk(w'.bridge, t.(phase := phase))
    requires StageOk(t, Mine(w.bridge.frames, tid)) ==> StageOk(t.(phase := phase), Mine(w.bridge.frames, tid))
    requires phase.Queued? || phase.Refreshing? ==> t.protocol.Some? && t.protocol.value.Legacy?
    requires t.protocol.None? ==> Undecided(phase)
    requires Undecided(phase) && !phase.Done? ==> Undecided(t.phase) && !t.phase.Done?
    ensures Keeps(w, tid, GoTo(w', t, phase))
  {
    QuietKeeps(w.bridge, w'.bridge, tid, t);
    hide BridgeKeeps, PhaseOk, StageOk, SentOk, LogOk;
  }

  lemma CheckingKeeps(w: World, tid: nat, t: Task, choice: Choice)
    requires I.Inv(w.bridge) && TaskInv(w.bridge, tid, t) && t.phase.Checking? && AsRequested(t)
    ensures Keeps(w, tid, StepChecking(w, tid, t, choice))
  {
    NothingMoves(w.bridge, tid);
    if GateForPayload(t.payload).None? {
      hide BridgeKeeps, TaskInv;
      PassKeeps(w, w, tid, t, t.phase.attempt, Preflight(t.payload, None, NotGated, 0));
    } else if choice.NoHelper? {
      hide BridgeKeeps, TaskInv;
      FinishKeeps(w, w, tid, t, NotConnected);
    } else {
      assert I.GenerationsOk(w.bridge);
      hide BridgeKeeps, I.Inv;
      GoToKeeps(w, w, tid, t, Querying(t.phase.attempt, w.bridge.status));
    }
  }

  /** Queries and probes add nothing to any task's frames. */
  lemma AskKeeps(b: B.State, ask: B.Ask, choice: Choice, tid: nat)
    requires I.Inv(b) && !ask.Content().UserAction?
    ensures Quiet(b, TryEnqueue(b, ask, choice).0, tid)
  {
    if choice.NoHelper? || b.conn.None? {
      NothingMoves(b, tid);
    } else if choice.WriterGone? {
      I.EnqueueRefusedKeeps(b, ask);
      hide I.Inv, I.Later;
    } else {
      I.EnqueueKeeps(b, ask);
      hide I.Inv, I.Later;
      var f := B.Frame(b.conn.value, |b.registered|, ask.Id(|b.registered|), ask.Content());
      forall any ensures Mine(b.frames + [f], any) == Mine(b.frames, any) {
        MineSnoc(b.frames, f, any);
      }
    }
  }

  lemma QueryIsAsked(b: B.State, before: HelperStatus, asker: Option<nat>)
    requires b.conn.Some? && b.conn.value == b.installed && before.generation <= b.installed
    ensures Asked(B.Enqueue(b, B.AskCapabilities(asker)), before, |b.registered|)
  {
    var b' := B.Enqueue(b, B.AskCapabilities(asker));
    assert b'.frames[|b.frames|] in b'.frames;
  }

  lemma QueryingFacts(b: B.State, tid: nat, t: Task)
    requires I.Inv(b) && TaskInv(b, tid, t) && t.phase.Querying?
    ensures t.phase.before.generation <= b.installed && (b.conn.Some? ==> b.conn.value == b.installed)
  {
    hide SentOk, ProtocolOk, LogOk, StageOk;
  }

  lemma QueryingKeeps(w: World, tid: nat, t: Task, choice: Choice)
    requires I.Inv(w.bridge) && TaskInv(w.bridge, tid, t) && t.phase.Querying?
    ensures Keeps(w, tid, StepQuerying(w, tid, t, choice))
  {
    hide BridgeKeeps, I.Inv, TaskInv, Mine, Quiet, Asked, QueryError;
    var b := w.bridge;
    var (b', sent) := TryEnqueue(b, B.AskCapabilities(Some(tid)), choice);
    AskKeeps(b, B.AskCapabilities(Some(tid)), choice, tid);
    if sent {
      QueryingFacts(b, tid, t);
      QueryIsAsked(b, t.phase.before, Some(tid));
      Undecidedness(b, tid, t);
      GoToKeeps(w, w.(bridge := b'), tid, t, AwaitingReport(t.phase.attempt, t.phase.before, |b.registered|));
    } else {
      FinishKeeps(w, w.(bridge := b'), tid, t, QueryError(w, t.phase.before, if choice.NoHelper? then NotConnected else Disconnected));
    }
  }

  lemma WasAsked(b: B.State, tid: nat, t: Task)
    requires TaskInv(b, tid, t) && (t.phase.AwaitingReport? || t.phase.ReportTimedOut? || t.phase.ConfirmingSilence?)
    ensures Asked(b, t.phase.before, t.phase.query)
    ensures !t.phase.AwaitingReport? ==> t.phase.query in b.abandoned
  {
    hide SentOk, ProtocolOk, LogOk, StageOk, Asked;
  }

  lemma StatusCommitQuiet(b: B.State, report: Option<Report>, tid: nat)
    requires I.Inv(b) && (report.None? ==> B.MayTurnLegacy(b.status))
    ensures report.None? ==> Quiet(b, B.CommitLegacy(b), tid)
    ensures report.Some? ==> Quiet(b, B.CommitGated(b, report.value), tid)
  {
    if report.None? {
      I.CommitLegacyKeeps(b);
    } else {
      I.CommitGatedKeeps(b, report.value);
    }
    hide I.Inv, I.Later;
  }

  lemma QuietIsLater(b: B.State, b': B.State, tid: nat)
    requires Quiet(b, b', tid)
    ensures I.Later(b, b')
  {
    hide I.Inv, I.Later;
  }

  /** A preflight concluded now is backed in the state its commit leaves. */
  lemma CommitPasses(b: B.State, b': B.State, tid: nat, before: HelperStatus, p: Preflight)
    requires Asked(b, before, p.query) && p.generation == Some(before.generation) && Quiet(b, b', tid)
    requires Supported(b, p)
    ensures Passed(b', p)
  {
    QuietIsLater(b, b', tid);
    hide BridgeKeeps;
    assert Passed(b, p);
    PassedStays(b, b', p);
  }

  lemma CommitLegacyStep(w: World, tid: nat, t: Task, attempt: Attempt, before: HelperStatus, query: nat)
    requires I.Inv(w.bridge) && TaskInv(w.bridge, tid, t) && AsRequested(t)
    requires t.phase == AwaitingReport(attempt, before, query) || t.phase == ConfirmingSilence(attempt, before, query)
    requires query in w.bridge.abandoned || exists report :: Answer(w.bridge, query, report) && !report.SupportsGates()
    ensures Keeps(w, tid, CommitLegacy(w, tid, t, attempt, before, query))
  {
    hide BridgeKeeps, TaskInv, I.Inv, Passed, Asked;
    var b := w.bridge;
    if b.status.generation != before.generation {
      NothingMoves(b, tid);
      FinishKeeps(w, w, tid, t, Disconnected);
    } else if !B.MayTurnLegacy(b.status) {
      NothingMoves(b, tid);
      FinishKeeps(w, w, tid, t, GateStateUnavailable);
    } else {
      WasAsked(b, tid, t);
      StatusCommitQuiet(b, None, tid);
      var p := Preflight(t.payload, Some(b.status.generation), LegacyAllowed, query);
      LegacyIsSupported(b, before, p);
      CommitPasses(b, B.CommitLegacy(b), tid, before, p);
      PassKeeps(w, w.(bridge := B.CommitLegacy(b)), tid, t, attempt, p);
    }
  }

  lemma LegacyIsSupported(b: B.State, before: HelperStatus, p: Preflight)
    requires Asked(b, before, p.query) && p.decision == LegacyAllowed
    requires p.query in b.abandoned || exists report :: Answer(b, p.query, report) && !report.SupportsGates()
    ensures Supported(b, p)
  {
  }

  lemma GatedIsSupported(b: B.State, before: HelperStatus, p: Preflight, report: Report)
    requires Asked(b, before, p.query) && Answer(b, p.query, report) && report.SupportsGates()
    requires Judge(report, p.payload) == Ok(p.decision)
    ensures Supported(b, p)
  {
    assert Allows(report, p.payload, p.decision);
  }

  lemma CommitGatedStep(w: World, tid: nat, t: Task, attempt: Attempt, before: HelperStatus, query: nat, report: Report)
    requires I.Inv(w.bridge) && TaskInv(w.bridge, tid, t) && AsRequested(t)
    requires t.phase == AwaitingReport(attempt, before, query)
    requires Answer(w.bridge, query, report) && report.SupportsGates()
    ensures Keeps(w, tid, CommitGated(w, tid, t, attempt, before, query, report))
  {
    hide BridgeKeeps, TaskInv, I.Inv, Passed, Asked, Answer, Judge;
    var b := w.bridge;
    if b.status.generation != before.generation {
      NothingMoves(b, tid);
      FinishKeeps(w, w, tid, t, Disconnected);
    } else {
      WasAsked(b, tid, t);
      StatusCommitQuiet(b, Some(report), tid);
      var w' := w.(bridge := B.CommitGated(b, report));
      match Judge(report, t.payload)
      case Err(outcome) =>
        FinishKeeps(w, w', tid, t, outcome);
      case Ok(decision) =>
        var p := Preflight(t.payload, Some(b.status.generation), decision, query);
        GatedIsSupported(b, before, p, report);
        CommitPasses(b, w'.bridge, tid, before, p);
        PassKeeps(w, w', tid, t, attempt, p);
    }
  }

  lemma AbandonQuiet(b: B.State, request: nat, tid: nat)
    requires I.Inv(b)
    ensures Quiet(b, B.Abandon(b, request), tid)
  {
    I.AbandonKeeps(b, request);
    hide I.Inv, I.Later;
  }

  /** Giving up on a query leaves it asked, and marks it abandoned. */
  lemma TimedOutKeeps(w: World, tid: nat, t: Task)
    requires I.Inv(w.bridge) && TaskInv(w.bridge, tid, t) && t.phase.AwaitingReport?
    ensures var w' := w.(bridge := B.Abandon(w.bridge, t.phase.query));
            Keeps(w, tid, GoTo(w', t, ReportTimedOut(t.phase.attempt, t.phase.before, t.phase.query)))
  {
    hide BridgeKeeps, TaskInv, I.Inv;
    var b' := B.Abandon(w.bridge, t.phase.query);
    WasAsked(w.bridge, tid, t);
    AbandonQuiet(w.bridge, t.phase.query, tid);
    QuietIsLater(w.bridge, b', tid);
    AskedStays(w.bridge, b', t.phase.before, t.phase.query);
    Undecidedness(w.bridge, tid, t);
    GoToKeeps(w, w.(bridge := b'), tid, t, ReportTimedOut(t.phase.attempt, t.phase.before, t.phase.query));
  }

  lemma Undecidedness(b: B.State, tid: nat, t: Task)
    requires TaskInv(b, tid, t)
    ensures t.protocol.None? ==> Undecided(t.phase)
    ensures AsRequested(t)
  {
    hide SentOk, LogOk, StageOk, PhaseOk;
  }

  lemma AwaitingReportKeeps(w: World, tid: nat, t: Task, choice: Choice)
    requires I.Inv(w.bridge) && TaskInv(w.bridge, tid, t) && t.phase.AwaitingReport? && AsRequested(t)
    ensures Keeps(w, tid, StepAwaitingReport(w, tid, t, choice))
  {
    hide BridgeKeeps, TaskInv, I.Inv;
    var AwaitingReport(attempt, before, query) := t.phase;
    var b := w.bridge;
    var m := if query in b.closed && b.closed[query].Answered? then b.closed[query].message else NO_MESSAGE;
    NothingMoves(b, tid);
    if query !in b.closed {
      if choice.TimeOut? {
        TimedOutKeeps(w, tid, t);
      }
    } else if !b.closed[query].Answered? || m.ReportsFailure() || m.report.None? {
      FinishKeeps(w, w, tid, t, StepAwaitingReport(w, tid, t, choice).task.phase.outcome);
    } else {
      var report := m.report.value;
      assert Answer(b, query, report);
      if report.SupportsGates() {
        CommitGatedStep(w, tid, t, attempt, before, query, report);
      } else if before.AdvertisesGates() || before.support == Gated {
        FinishKeeps(w, w, tid, t, GateStateUnavailable);
      } else {
        CommitLegacyStep(w, tid, t, attempt, before, query);
      }
    }
  }

  const NO_MESSAGE: B.Message := B.Message(None, None, None, None, None, false, B.NoMetadata, None)

  lemma ReportTimedOutKeeps(w: World, tid: nat, t: Task)
    requires I.Inv(w.bridge) && TaskInv(w.bridge, tid, t) && t.phase.ReportTimedOut?
    ensures Keeps(w, tid, StepReportTimedOut(w, tid, t))
  {
    hide BridgeKeeps, TaskInv, I.Inv;
    NothingMoves(w.bridge, tid);
    var m := StepReportTimedOut(w, tid, t);
    if m.task.phase.Done? {
      FinishKeeps(w, w, tid, t, m.task.phase.outcome);
    } else {
      WasAsked(w.bridge, tid, t);
      Undecidedness(w.bridge, tid, t);
      GoToKeeps(w, w, tid, t, m.task.phase);
    }
  }

  // --- Sending ------------------------------------------------------------------

  lemma QueuedKeeps(w: World, tid: nat, t: Task)
    requires I.Inv(w.bridge) && TaskInv(w.bridge, tid, t) && t.phase.Queued?
    ensures Keeps(w, tid, StepQueued(w, tid, t))
  {
    NothingMoves(w.bridge, tid);
    hide BridgeKeeps, TaskInv, I.Inv;
    if w.lock.None? {
      QueuedParts(w.bridge, tid, t);
      GoToKeeps(w, w.(lock := Some(tid)), tid, t, Refreshing(t.phase.preflight));
    }
  }

  lemma QueuedParts(b: B.State, tid: nat, t: Task)
    requires TaskInv(b, tid, t) && t.phase.Queued?
    ensures var t' := t.(phase := Refreshing(t.phase.preflight));
            PhaseOk(b, t') && (StageOk(t, Mine(b.frames, tid)) ==> StageOk(t', Mine(b.frames, tid)))
    ensures t.protocol.Some? && t.protocol.value.Legacy?
  {
    hide SentOk, LogOk, Passed, Mine;
  }

  /** Only the session differs, and a legacy preflight does not depend on it. */
  lemma RefreshedTask(b: B.State, tid: nat, t: Task, t': Task)
    requires TaskInv(b, tid, t) && t.phase.Refreshing?
    requires t' == t.(payload := t'.payload, phase := Sending(First, t.phase.preflight)) && SameAction(t'.payload, t.payload)
    ensures TaskInv(b, tid, t')
  {
    hide Passed, LogOk, Bound;
  }

  lemma RefreshingKeeps(w: World, tid: nat, t: Task)
    requires I.Inv(w.bridge) && TaskInv(w.bridge, tid, t) && t.phase.Refreshing?
    ensures Keeps(w, tid, StepRefreshing(w, t))
  {
    hide BridgeKeeps, TaskInv, I.Inv;
    NothingMoves(w.bridge, tid);
    RefreshedTask(w.bridge, tid, t, StepRefreshing(w, t).task);
  }

  /** The generation test under the connection lock: since installed generations
    * only grow, the query went to the very connection now being written to. */
  lemma FrameIsBound(b: B.State, tid: nat, t: Task)
    requires I.GenerationsOk(b) && t.phase.Sending? && PhaseOk(b, t) && t.protocol.Some?
    requires b.conn.Some? && (t.phase.preflight.generation.Some? ==> t.phase.preflight.generation == b.conn)
    ensures Bound(b, t.phase.preflight, B.Frame(b.conn.value, |b.registered|, AskFor(tid, t).Id(|b.registered|), B.UserAction(tid, t.payload)))
  {
  }

  lemma WriteMoves(b: B.State, ask: B.Ask, tid: nat)
    requires I.Inv(b) && b.conn.Some? && ask.Content().UserAction? && ask.Content().task == tid
    ensures var b' := B.Enqueue(b, ask);
            && BridgeKeeps(b, b', tid)
            && Mine(b'.frames, tid) == Mine(b.frames, tid) + [B.Frame(b.conn.value, |b.registered|, ask.Id(|b.registered|), ask.Content())]
  {
    I.EnqueueKeeps(b, ask);
    hide I.Inv, I.Later;
    var f := B.Frame(b.conn.value, |b.registered|, ask.Id(|b.registered|), ask.Content());
    forall any ensures Mine(b.frames + [f], any) == Mine(b.frames, any) + if any == tid then [f] else [] {
      MineSnoc(b.frames, f, any);
    }
  }

  lemma WroteSent(b: B.State, b': B.State, tid: nat, t: Task, p: Preflight, f: ActionFrame)
    requires SentOk(b, tid, t) && Bound(b, p, f) && I.Later(b, b')
    requires Mine(b'.frames, tid) == Mine(b.frames, tid) + [f]
    ensures SentOk(b', tid, t.(sent := t.sent + [p]))
  {
    var frames, frames' := Mine(b.frames, tid), Mine(b'.frames, tid);
    var sent := t.sent + [p];
    forall i | 0 <= i < |frames'| ensures Bound(b', sent[i], frames'[i]) {
      BoundStays(b, b', if i < |frames| then t.sent[i] else p, if i < |frames| then frames[i] else f);
    }
  }

  lemma WroteRecord(b: B.State, tid: nat, t: Task, frames: seq<ActionFrame>, f: ActionFrame)
    requires t.phase.Sending? && LogOk(b, t.log, frames) && StageOk(t, frames) && ProtocolOk(frames, t)
    requires f.content.payload == t.payload
    ensures var t' := t.(phase := AwaitingReply(t.phase.attempt, f.waiter), log := t.log + [Wrote(f.waiter)]);
            LogOk(b, t'.log, frames + [f]) && StageOk(t', frames + [f]) && ProtocolOk(frames + [f], t')
  {
  }

  lemma FirstSendAllowed(b: B.State, tid: nat, t: Task)
    requires TaskInv(b, tid, t) && t.phase.Sending?
    ensures t.protocol.Some? && PhaseOk(b, t) && SentOk(b, tid, t)
    ensures LogOk(b, t.log, Mine(b.frames, tid)) && StageOk(t, Mine(b.frames, tid)) && ProtocolOk(Mine(b.frames, tid), t)
  {
  }

  /** What writing the action makes of the task. */
  function Written(t: Task, request: nat): Task
    requires t.phase.Sending?
  {
    t.(phase := AwaitingReply(t.phase.attempt, request),
       sent := t.sent + [t.phase.preflight],
       log := t.log + [Wrote(request)])
  }

  /** A task sends by writing its action, or ends: before or after the writer is found gone. */
  lemma SendingCases(w: World, tid: nat, t: Task, choice: Choice)
    requires t.phase.Sending?
    ensures var (b, m) := (w.bridge, StepSending(w, tid, t, choice));
            if m.task.phase.Done? then
              var outcome := m.task.phase.outcome;
              || m == Finish(w, tid, t, outcome)
              || (b.conn.Some? && t.protocol.Some?
                  && m == Finish(w.(bridge := B.EnqueueRefused(b, AskFor(tid, t))), tid, t, outcome))
            else
              && t.protocol.Some? && b.conn.Some?
              && (t.phase.preflight.generation.Some? ==> t.phase.preflight.generation == b.conn)
              && (t.protocol.value.Legacy? ==> b.status.generation == b.conn.value && b.status.support == LegacyUnrestricted)
              && m == Moved(w.(bridge := B.Enqueue(b, AskFor(tid, t))), Written(t, |b.registered|))
  {
    hide AskFor, B.Enqueue, B.EnqueueRefused;
  }

  lemma SendingKeeps(w: World, tid: nat, t: Task, choice: Choice)
    requires I.Inv(w.bridge) && TaskInv(w.bridge, tid, t) && t.phase.Sending?
    ensures Keeps(w, tid, StepSending(w, tid, t, choice))
  {
    hide *;
    var b := w.bridge;
    var m := StepSending(w, tid, t, choice);
    SendingCases(w, tid, t, choice);
    if m.task.phase.Done? {
      var outcome := m.task.phase.outcome;
      if m == Finish(w, tid, t, outcome) {
        NothingMoves(b, tid);
        FinishKeeps(w, w, tid, t, outcome);
      } else {
        RefusedQuiet(b, AskFor(tid, t), tid);
        FinishKeeps(w, w.(bridge := B.EnqueueRefused(b, AskFor(tid, t))), tid, t, outcome);
      }
    } else {
      WriteKeeps(w, tid, t);
    }
  }

  lemma WriteKeeps(w: World, tid: nat, t: Task)
    requires I.Inv(w.bridge) && TaskInv(w.bridge, tid, t) && t.phase.Sending? && t.protocol.Some?
    requires w.bridge.conn.Some? && (t.phase.preflight.generation.Some? ==> t.phase.preflight.generation == w.bridge.conn)
    ensures var b := w.bridge;
            Keeps(w, tid, Moved(w.(bridge := B.Enqueue(b, AskFor(tid, t))), Written(t, |b.registered|)))
  {
    AsksForAction(tid, t);
    hide I.Inv, TaskInv, BridgeKeeps, B.Enqueue, AskFor, Written, Mine;
    WriteTask(w.bridge, tid, t);
    WriteMoves(w.bridge, AskFor(tid, t), tid);
  }

  lemma AsksForAction(tid: nat, t: Task)
    requires t.protocol.Some?
    ensures AskFor(tid, t).Content() == B.UserAction(tid, t.payload)
  {
  }

  lemma RefusedQuiet(b: B.State, ask: B.Ask, tid: nat)
    requires I.Inv(b) && b.conn.Some?
    ensures Quiet(b, B.EnqueueRefused(b, ask), tid)
  {
    I.EnqueueRefusedKeeps(b, ask);
    hide I.Inv, I.Later;
  }

  lemma WriteTask(b: B.State, tid: nat, t: Task)
    requires I.Inv(b) && TaskInv(b, tid, t) && t.phase.Sending? && t.protocol.Some?
    requires b.conn.Some? && (t.phase.preflight.generation.Some? ==> t.phase.preflight.generation == b.conn)
    ensures TaskInv(B.Enqueue(b, AskFor(tid, t)), tid, Written(t, |b.registered|))
  {
    hide I.Inv, TaskInv, I.Later, BridgeKeeps, I.GenerationsOk, SentOk, LogOk, StageOk, PhaseOk, ProtocolOk, Bound;
    var ask := AskFor(tid, t);
    var b' := B.Enqueue(b, ask);
    var f: ActionFrame := B.Frame(b.conn.value, |b.registered|, ask.Id(|b.registered|), ask.Content());
    InvGenerations(b);
    FirstSendAllowed(b, tid, t);
    WriteMoves(b, ask, tid);
    FrameIsBound(b, tid, t);
    KeepsIsLater(b, b', tid);
    WroteSent(b, b', tid, t, t.phase.preflight, f);
    LogStays(b, b', t.log, Mine(b.frames, tid));
    WroteRecord(b', tid, t, Mine(b.frames, tid), f);
    AssembleWrite(b', tid, t, f);
  }

  lemma AssembleWrite(b: B.State, tid: nat, t: Task, f: ActionFrame)
    requires t.phase.Sending? && SentOk(b, tid, t.(sent := t.sent + [t.phase.preflight]))
    requires var t' := t.(phase := AwaitingReply(t.phase.attempt, f.waiter), log := t.log + [Wrote(f.waiter)]);
             LogOk(b, t'.log, Mine(b.frames, tid)) && StageOk(t', Mine(b.frames, tid)) && ProtocolOk(Mine(b.frames, tid), t')
    ensures TaskInv(b, tid, Written(t, f.waiter))
  {
    hide LogOk, Bound;
  }

  lemma InvGenerations(b: B.State)
    requires I.Inv(b)
    ensures I.GenerationsOk(b)
  {
    hide I.GenerationsOk;
  }

  lemma KeepsIsLater(b: B.State, b': B.State, tid: nat)
    requires BridgeKeeps(b, b', tid)
    ensures I.Later(b, b')
  {
    hide I.Inv, I.Later;
  }

  // --- Replies, probes and fresh sessions -----------------------------------------

  /** A refusal is recorded together with the message that made it. */
  lemma RefusedTask(b: B.State, tid: nat, t: Task, phase: Phase)
    requires TaskInv(b, tid, t) && t.phase.AwaitingReply? && t.phase.attempt == First
    requires RefusedBy(b, t.phase.request)
    requires phase == Checking(AfterTransient) || (t.payload.instance.Some? && phase == Probing(t.payload.instance.value))
    ensures TaskInv(b, tid, t.(phase := phase, log := t.log + [Refused(t.phase.request)]))
  {
    TaskParts(b, tid, t);
    hide TaskInv, SentOk, Mine, RefusedBy, RejectedBy;
    RefusalRecord(b, t, Mine(b.frames, tid), phase);
    Assemble(b, tid, t, t.(phase := phase, log := t.log + [Refused(t.phase.request)]));
  }

  lemma TaskParts(b: B.State, tid: nat, t: Task)
    requires TaskInv(b, tid, t)
    ensures var frames := Mine(b.frames, tid);
            SentOk(b, tid, t) && PhaseOk(b, t) && ProtocolOk(frames, t) && LogOk(b, t.log, frames) && StageOk(t, frames)
  {
    hide SentOk, PhaseOk, ProtocolOk, LogOk, StageOk, Mine;
  }

  /** A task that has sent the same is as good as its record and its phase. */
  lemma Assemble(b: B.State, tid: nat, t: Task, t': Task)
    requires SentOk(b, tid, t) && t'.sent == t.sent
    requires var frames := Mine(b.frames, tid);
             PhaseOk(b, t') && ProtocolOk(frames, t') && LogOk(b, t'.log, frames) && StageOk(t', frames)
    ensures TaskInv(b, tid, t')
  {
    hide PhaseOk, ProtocolOk, LogOk, StageOk, Mine, Bound;
  }

  lemma RefusalRecord(b: B.State, t: Task, frames: seq<ActionFrame>, phase: Phase)
    requires t.phase.AwaitingReply? && t.phase.attempt == First && RefusedBy(b, t.phase.request)
    requires LogOk(b, t.log, frames) && StageOk(t, frames) && ProtocolOk(frames, t)
    requires phase == Checking(AfterTransient) || (t.payload.instance.Some? && phase == Probing(t.payload.instance.value))
    ensures var t' := t.(phase := phase, log := t.log + [Refused(t.phase.request)]);
            PhaseOk(b, t') && LogOk(b, t'.log, frames) && StageOk(t', frames) && ProtocolOk(frames, t')
  {
    hide RefusedBy, RejectedBy, SameAction, SameTarget;
  }

  lemma AwaitingReplyKeeps(w: World, tid: nat, t: Task, choice: Choice)
    requires I.Inv(w.bridge) && TaskInv(w.bridge, tid, t) && t.phase.AwaitingReply?
    ensures Keeps(w, tid, StepAwaitingReply(w, tid, t, choice))
  {
    hide BridgeKeeps, I.Inv, TaskInv;
    var b := w.bridge;
    NothingMoves(b, tid);
    var m := StepAwaitingReply(w, tid, t, choice);
    if t.phase.request !in b.closed && choice.TimeOut? {
      AbandonQuiet(b, t.phase.request, tid);
      FinishKeeps(w, w.(bridge := m.world.bridge), tid, t, TimedOut);
    } else if m.task.phase.Done? {
      FinishKeeps(w, w.(cache := m.world.cache), tid, t, m.task.phase.outcome);
    } else if m.task != t {
      RefusedTask(b, tid, t, m.task.phase);
    }
  }

  lemma ProbingKeeps(w: World, tid: nat, t: Task, choice: Choice)
    requires I.Inv(w.bridge) && TaskInv(w.bridge, tid, t) && t.phase.Probing?
    ensures Keeps(w, tid, StepProbing(w, tid, t, choice))
  {
    hide BridgeKeeps, I.Inv, TaskInv, Mine, Quiet;
    var b := w.bridge;
    var (b', sent) := TryEnqueue(b, B.AskProbe(Some(tid), t.phase.session), choice);
    AskKeeps(b, B.AskProbe(Some(tid), t.phase.session), choice, tid);
    if sent {
      Undecidedness(b, tid, t);
      GoToKeeps(w, w.(bridge := b'), tid, t, AwaitingProbe(t.phase.session, |b.registered|));
    } else {
      FinishKeeps(w, w.(bridge := b'), tid, t, ProbeFailed);
    }
  }

  lemma RejectedTask(b: B.State, tid: nat, t: Task)
    requires TaskInv(b, tid, t) && t.phase.AwaitingProbe?
    requires t.phase.probe in b.closed && b.closed[t.phase.probe].Answered? && Rejects(b.closed[t.phase.probe].message)
    ensures TaskInv(b, tid, t.(phase := Evicting(t.phase.session), log := t.log + [ProbeRejected(t.phase.probe)]))
  {
    TaskParts(b, tid, t);
    hide TaskInv, SentOk, Mine, Rejects;
    assert RejectedBy(b, t.phase.probe);
    RejectionRecord(b, t, Mine(b.frames, tid));
    Assemble(b, tid, t, t.(phase := Evicting(t.phase.session), log := t.log + [ProbeRejected(t.phase.probe)]));
  }

  lemma RejectionRecord(b: B.State, t: Task, frames: seq<ActionFrame>)
    requires t.phase.AwaitingProbe? && RejectedBy(b, t.phase.probe)
    requires LogOk(b, t.log, frames) && StageOk(t, frames) && ProtocolOk(frames, t)
    ensures var t' := t.(phase := Evicting(t.phase.session), log := t.log + [ProbeRejected(t.phase.probe)]);
            PhaseOk(b, t') && LogOk(b, t'.log, frames) && StageOk(t', frames) && ProtocolOk(frames, t')
  {
    hide RefusedBy, RejectedBy, SameAction, SameTarget;
  }

  lemma AwaitingProbeKeeps(w: World, tid: nat, t: Task, choice: Choice)
    requires I.Inv(w.bridge) && TaskInv(w.bridge, tid, t) && t.phase.AwaitingProbe?
    ensures Keeps(w, tid, StepAwaitingProbe(w, tid, t, choice))
  {
    hide BridgeKeeps, I.Inv, TaskInv;
    var b := w.bridge;
    NothingMoves(b, tid);
    var m := StepAwaitingProbe(w, tid, t, choice);
    if t.phase.probe !in b.closed && choice.TimeOut? {
      AbandonQuiet(b, t.phase.probe, tid);
      FinishKeeps(w, w.(bridge := m.world.bridge), tid, t, ProbeFailed);
    } else if m.task.phase.Done? {
      FinishKeeps(w, w, tid, t, m.task.phase.outcome);
    } else if m.task != t {
      RejectedTask(b, tid, t);
    }
  }

  lemma EvictedTask(b: B.State, tid: nat, t: Task)
    requires TaskInv(b, tid, t) && t.phase.Evicting?
    ensures TaskInv(b, tid, t.(phase := Prompting(t.phase.session), log := t.log + [Evicted(t.phase.session.url.origin)]))
  {
    TaskParts(b, tid, t);
    hide TaskInv, SentOk, Mine;
    EvictionRecord(b, t, Mine(b.frames, tid));
    Assemble(b, tid, t, t.(phase := Prompting(t.phase.session), log := t.log + [Evicted(t.phase.session.url.origin)]));
  }

  lemma EvictionRecord(b: B.State, t: Task, frames: seq<ActionFrame>)
    requires t.phase.Evicting?
    requires LogOk(b, t.log, frames) && StageOk(t, frames) && ProtocolOk(frames, t)
    ensures var t' := t.(phase := Prompting(t.phase.session), log := t.log + [Evicted(t.phase.session.url.origin)]);
            PhaseOk(b, t') && LogOk(b, t'.log, frames) && StageOk(t', frames) && ProtocolOk(frames, t')
  {
    hide RefusedBy, RejectedBy, SameAction, SameTarget;
  }

  lemma EvictingKeeps(w: World, tid: nat, t: Task, choice: Choice)
    requires I.Inv(w.bridge) && TaskInv(w.bridge, tid, t) && t.phase.Evicting?
    ensures Keeps(w, tid, StepEvicting(w, t, choice))
  {
    hide BridgeKeeps, I.Inv, TaskInv;
    NothingMoves(w.bridge, tid);
    EvictedTask(w.bridge, tid, t);
  }

  lemma AwaitSessionQuiet(b: B.State, origin: Option<Origin>, tid: nat)
    requires I.Inv(b)
    ensures Quiet(b, B.AwaitSession(b, origin), tid)
  {
    I.AwaitSessionKeeps(b, origin);
    hide I.Inv, I.Later;
  }

  lemma PromptingKeeps(w: World, tid: nat, t: Task)
    requires I.Inv(w.bridge) && TaskInv(w.bridge, tid, t) && t.phase.Prompting?
    ensures Keeps(w, tid, StepPrompting(w, t))
  {
    hide BridgeKeeps, I.Inv, TaskInv;
    var b := w.bridge;
    var origin := t.phase.session.url.origin;
    AwaitSessionQuiet(b, origin, tid);
    Undecidedness(b, tid, t);
    GoToKeeps(w, w.(bridge := B.AwaitSession(b, origin)), tid, t, AwaitingToken(t.phase.session, |b.registered|));
  }

  /** Only a token for the evicted origin ends the wait, so the retry cannot be
    * redirected to another instance. */
  lemma RenewedTask(b: B.State, tid: nat, t: Task, renewed: SnuInstance)
    requires TaskInv(b, tid, t) && t.phase.AwaitingToken?
    requires t.phase.session.url.origin.Some? ==> renewed.url.origin == t.phase.session.url.origin
    ensures TaskInv(b, tid, t.(payload := t.payload.(instance := Some(renewed)), phase := Checking(AfterRefresh)))
  {
    TaskParts(b, tid, t);
    hide TaskInv, SentOk, Mine;
    RenewalRecord(b, t, Mine(b.frames, tid), renewed);
    Assemble(b, tid, t, t.(payload := t.payload.(instance := Some(renewed)), phase := Checking(AfterRefresh)));
  }

  lemma RenewalRecord(b: B.State, t: Task, frames: seq<ActionFrame>, renewed: SnuInstance)
    requires t.phase.AwaitingToken?
    requires t.phase.session.url.origin.Some? ==> renewed.url.origin == t.phase.session.url.origin
    requires LogOk(b, t.log, frames) && StageOk(t, frames) && ProtocolOk(frames, t)
    ensures var t' := t.(payload := t.payload.(instance := Some(renewed)), phase := Checking(AfterRefresh));
            PhaseOk(b, t') && LogOk(b, t'.log, frames) && StageOk(t', frames) && ProtocolOk(frames, t')
  {
    hide RefusedBy, RejectedBy;
  }

  lemma TokenMatches(b: B.State, tid: nat, t: Task)
    requires I.Inv(b) && TaskInv(b, tid, t) && t.phase.AwaitingToken?
    requires t.phase.waiter in b.closed && b.closed[t.phase.waiter].Answered?
    ensures B.Session(t.phase.session.url.origin).Matches(b.closed[t.phase.waiter].message)
  {
    TokenWaiter(b, tid, t);
    InvClosed(b);
    hide I.Inv, TaskInv, B.Matcher.Matches;
    assert I.ClosingOk(b, t.phase.waiter, b.closed[t.phase.waiter]);
  }

  lemma InvClosed(b: B.State)
    requires I.Inv(b)
    ensures I.ClosedOk(b)
  {
    hide I.GenerationsOk, I.WaitersOk, I.PendingOk, I.IdsOk, I.ClosedOk, I.StatusOk, I.StreamOk, I.Ordered;
  }

  lemma TokenWaiter(b: B.State, tid: nat, t: Task)
    requires TaskInv(b, tid, t) && t.phase.AwaitingToken?
    ensures t.phase.waiter < |b.registered| && b.registered[t.phase.waiter].matcher == B.Session(t.phase.session.url.origin)
  {
    hide SentOk, LogOk, StageOk, ProtocolOk, Mine;
  }

  lemma AwaitingTokenKeeps(w: World, tid: nat, t: Task, choice: Choice)
    requires I.Inv(w.bridge) && TaskInv(w.bridge, tid, t) && t.phase.AwaitingToken?
    ensures Keeps(w, tid, StepAwaitingToken(w, tid, t, choice))
  {
    hide BridgeKeeps, I.Inv, TaskInv;
    var b := w.bridge;
    NothingMoves(b, tid);
    var m := StepAwaitingToken(w, tid, t, choice);
    if t.phase.waiter !in b.closed && m.task.phase.Done? {
      AbandonQuiet(b, t.phase.waiter, tid);
      FinishKeeps(w, w.(bridge := m.world.bridge), tid, t, m.task.phase.outcome);
    } else if m.task.phase.Done? {
      FinishKeeps(w, w, tid, t, m.task.phase.outcome);
    } else if m.task != t {
      TokenMatches(b, tid, t);
      RenewedTask(b, tid, t, b.closed[t.phase.waiter].message.instance.value);
    }
  }

  lemma DoneKeeps(w: World, tid: nat, t: Task)
    requires I.Inv(w.bridge) && TaskInv(w.bridge, tid, t)
    ensures Keeps(w, tid, Moved(w, t))
  {
    NothingMoves(w.bridge, tid);
    hide I.Inv, TaskInv, BridgeKeeps;
  }

  // --- Every phase ------------------------------------------------------------------

  lemma TaskKeeps(w: World, tid: nat, t: Task, choice: Choice)
    requires I.Inv(w.bridge) && TaskInv(w.bridge, tid, t)
    ensures Keeps(w, tid, StepTask(w, tid, t, choice))
  {
    hide Keeps, I.Inv, TaskInv, CommitLegacy, StepChecking, StepQuerying, StepAwaitingReport, StepReportTimedOut, StepQueued,
         StepRefreshing, StepSending, StepAwaitingReply, StepProbing, StepAwaitingProbe, StepEvicting, StepPrompting,
         StepAwaitingToken;
    Undecidedness(w.bridge, tid, t);
    match t.phase
    case Checking(_) => CheckingKeeps(w, tid, t, choice);
    case Querying(_, _) => QueryingKeeps(w, tid, t, choice);
    case AwaitingReport(_, _, _) => AwaitingReportKeeps(w, tid, t, choice);
    case ReportTimedOut(_, _, _) => ReportTimedOutKeeps(w, tid, t);
    case ConfirmingSilence(attempt, before, query) =>
      WasAsked(w.bridge, tid, t);
      CommitLegacyStep(w, tid, t, attempt, before, query);
    case Queued(_) => QueuedKeeps(w, tid, t);
    case Refreshing(_) => RefreshingKeeps(w, tid, t);
    case Sending(_, _) => SendingKeeps(w, tid, t, choice);
    case AwaitingReply(_, _) => AwaitingReplyKeeps(w, tid, t, choice);
    case Probing(_) => ProbingKeeps(w, tid, t, choice);
    case AwaitingProbe(_, _) => AwaitingProbeKeeps(w, tid, t, choice);
    case Evicting(_) => EvictingKeeps(w, tid, t, choice);
    case Prompting(_) => PromptingKeeps(w, tid, t);
    case AwaitingToken(_, _) => AwaitingTokenKeeps(w, tid, t, choice);
    case Done(_) => DoneKeeps(w, tid, t);
  }
}
