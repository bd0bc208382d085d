/** No dispatch fails without a cause in the state it fails in. */
module DispatchCauses {
  import opened Prelude
  import opened Gates
  import opened Dispatch
  import opened DispatchInvariants
  import opened DispatchEvidence
  import opened DispatchTheorems
  import opened DispatchOutcomes
  import B = Bridge
  import S = SessionCache

  /** The request the phase waits for. */
  function Awaited(phase: Phase): Option<nat> {
    match phase
    case AwaitingReport(_, _, query) => Some(query)
    case AwaitingReply(_, request) => Some(request)
    case AwaitingProbe(_, probe) => Some(probe)
    case AwaitingToken(_, waiter) => Some(waiter)
    case _ => None
  }

  /** It was closed without a reply: by a teardown or by the sweep. */
  predicate Dropped(b: B.State, phase: Phase) {
    Awaited(phase).Some? && Awaited(phase).value in b.closed && !b.closed[Awaited(phase).value].Answered?
  }

  predicate Reported(b: B.State, phase: Phase, m: B.Message) {
    Awaited(phase).Some? && ReplyTo(b, Awaited(phase).value) == Some(m)
  }

  /** The helper had advertised gates when the dispatch asked it, or has since. */
  predicate Advertised(b: B.State, before: HelperStatus) {
    before.AdvertisesGates() || b.status.AdvertisesGates()
  }

  predicate KnownGated(b: B.State, before: HelperStatus) {
    before.AdvertisesGates() || before.support == Gated || b.status.AdvertisesGates() || b.status.support == Gated
  }

  /** The generation a dispatch relies on is not the one there any more. */
  predicate Superseded(b: B.State, phase: Phase) {
    match phase
    case AwaitingReport(_, before, _) => b.status.generation != before.generation
    case ReportTimedOut(_, before, _) => b.status.generation != before.generation
    case ConfirmingSilence(_, before, _) => b.status.generation != before.generation
    case Sending(_, p) => p.generation.Some? && p.generation != b.conn
    case _ => false
  }

  /** What the gates of a dispatch may fail closed on, phase by phase. */
  ghost predicate Unsettled(b: B.State, t: Task, choice: Choice) {
    match t.phase
    case Querying(_, before) => Advertised(b, before) && (choice.NoHelper? || choice.WriterGone? || b.conn.None?)
    case AwaitingReport(_, before, query) =>
      || (Dropped(b, t.phase) && Advertised(b, before))
      || exists m :: Reported(b, t.phase, m) &&
           if Failing(m) then !m.paused && Advertised(b, before)
           else m.report.None?
                || (if HasGates(m.report.value) then t.payload.TargetOrigin().None? || GateForPayload(t.payload).None?
                    else KnownGated(b, before))
    case ReportTimedOut(_, before, _) => Advertised(b, before)
    case ConfirmingSilence(_, before, _) => b.status.AdvertisesGates() || b.status.support == Gated
    case Sending(_, _) =>
      && t.protocol.Some? && t.protocol.value.Legacy?
      && (b.conn != Some(b.status.generation) || b.status.support != LegacyUnrestricted)
    case _ => false
  }

  /** Why a dispatch may end with this outcome now. */
  ghost predicate Cause(b: B.State, t: Task, choice: Choice, outcome: Outcome) {
    match outcome
    case Succeeded => exists m :: Reported(b, t.phase, m) && !Failing(m) && t.phase.AwaitingReply?
    case NotConnected => choice.NoHelper?
    case Disconnected =>
      || b.conn.None? || choice.WriterGone? || Superseded(b, t.phase) || Dropped(b, t.phase)
      || (t.phase.Sending? && t.protocol.None?)
      || (t.phase.AwaitingToken? && exists m :: Reported(b, t.phase, m) && m.instance.None?)
    case TimedOut => choice.TimeOut? && Awaited(t.phase).Some? && Awaited(t.phase).value !in b.closed
    case Paused => exists m :: Reported(b, t.phase, m) && Failing(m) && m.paused
    case ActionFailed => exists m :: Reported(b, t.phase, m) && Failing(m) && !m.paused
    case GateStateUnavailable => Unsettled(b, t, choice)
    case GateUnauthorized => exists m :: Reported(b, t.phase, m) && m.report.Some? && Unlisted(m.report.value, t.payload)
    case GateBlocked => exists m :: Reported(b, t.phase, m) && m.report.Some? && Blocks(m.report.value, t.payload)
    case ProtocolChanged => t.protocol.Some? && t.protocol.value.Legacy? && !t.phase.ConfirmingSilence?
    case AccessDenied => t.phase.AwaitingProbe? && exists m :: Reported(b, t.phase, m) && !Failing(m)
    case ProbeFailed =>
      || (t.phase.Probing? && (choice.NoHelper? || choice.WriterGone? || b.conn.None?))
      || (t.phase.AwaitingProbe?
          && (Dropped(b, t.phase) || choice.TimeOut? || exists m :: Reported(b, t.phase, m) && Failing(m) && !Denied(m)))
  }

  /** The helper answered a probe by saying that the session's token is stale. */
  predicate Denied(m: B.Message) {
    Failing(m) && !m.paused && m.error.Some? && m.error.value.probeStale
  }

  ghost predicate Ends(w: World, t: Task, choice: Choice, m: Moved) {
    m.task.phase.Done? && !t.phase.Done? ==> Cause(w.bridge, t, choice, m.task.phase.outcome)
  }

  lemma CheckingEnds(w: World, tid: nat, t: Task, choice: Choice)
    requires t.phase.Checking?
    ensures Ends(w, t, choice, StepChecking(w, tid, t, choice))
  {
    hide GateForPayload;
  }

  lemma QueryingEnds(w: World, tid: nat, t: Task, choice: Choice)
    requires t.phase.Querying?
    ensures Ends(w, t, choice, StepQuerying(w, tid, t, choice))
  {
    hide B.Enqueue, B.EnqueueRefused, HelperStatus.AdvertisesGates;
  }

  lemma LegacyEnds(w: World, tid: nat, t: Task, choice: Choice, attempt: Attempt, before: HelperStatus, query: nat)
    requires t.phase == ConfirmingSilence(attempt, before, query) || t.phase == AwaitingReport(attempt, before, query)
    requires t.phase.AwaitingReport? ==>
               exists m :: Reported(w.bridge, t.phase, m) && !Failing(m) && m.report.Some? && !m.report.value.SupportsGates()
    ensures Ends(w, t, choice, CommitLegacy(w, tid, t, attempt, before, query))
  {
    hide GateForPayload, Reported, Failing;
  }

  lemma GatedEnds(w: World, tid: nat, t: Task, choice: Choice, attempt: Attempt, before: HelperStatus, query: nat, m: B.Message)
    requires t.phase == AwaitingReport(attempt, before, query)
    requires Reported(w.bridge, t.phase, m) && !Failing(m) && m.report.Some? && m.report.value.SupportsGates()
    ensures Ends(w, t, choice, CommitGated(w, tid, t, attempt, before, query, m.report.value))
  {
    hide GateForPayload, Reported, Failing, MergeGates;
  }

  lemma FailedQueryEnds(w: World, tid: nat, t: Task, choice: Choice)
    requires t.phase.AwaitingReport?
    requires var query := t.phase.query;
             query in w.bridge.closed && (w.bridge.closed[query].Answered? ==> Failing(w.bridge.closed[query].message))
    ensures Ends(w, t, choice, StepAwaitingReport(w, tid, t, choice))
  {
    hide CommitGated, CommitLegacy, GateForPayload, HelperStatus.AdvertisesGates, KnownGated;
    var query := t.phase.query;
    if w.bridge.closed[query].Answered? {
      assert Reported(w.bridge, t.phase, w.bridge.closed[query].message);
    }
  }

  lemma EmptyReportEnds(w: World, tid: nat, t: Task, choice: Choice, m: B.Message)
    requires t.phase.AwaitingReport? && Reported(w.bridge, t.phase, m) && !Failing(m)
    requires m.report.None? || (!m.report.value.SupportsGates() && KnownGated(w.bridge, t.phase.before))
    ensures Unsettled(w.bridge, t, choice)
  {
    hide GateForPayload, Failing, Reported, KnownGated;
  }

  lemma QueryEnds(w: World, tid: nat, t: Task, choice: Choice)
    requires t.phase.AwaitingReport?
    ensures Ends(w, t, choice, StepAwaitingReport(w, tid, t, choice))
  {
    var AwaitingReport(attempt, before, query) := t.phase;
    if query !in w.bridge.closed {
      UnansweredReport(w, tid, t, choice);
      hide StepAwaitingReport, Cause;
    } else if !w.bridge.closed[query].Answered? || Failing(w.bridge.closed[query].message) {
      FailedQueryEnds(w, tid, t, choice);
    } else {
      var m := w.bridge.closed[query].message;
      ReportCases(w, tid, t, choice, m);
      assert Reported(w.bridge, t.phase, m);
      hide StepAwaitingReport, CommitGated, CommitLegacy, Reported, Unsettled;
      if m.report.Some? && m.report.value.SupportsGates() {
        GatedEnds(w, tid, t, choice, attempt, before, query, m);
      } else if m.report.None? || before.AdvertisesGates() || before.support == Gated {
        EmptyReportEnds(w, tid, t, choice, m);
      } else {
        LegacyEnds(w, tid, t, choice, attempt, before, query);
      }
    }
  }

  lemma SilenceEnds(w: World, tid: nat, t: Task, choice: Choice)
    requires t.phase.ReportTimedOut?
    ensures Ends(w, t, choice, StepReportTimedOut(w, tid, t))
  {
    hide HelperStatus.AdvertisesGates;
  }

  lemma SendingEnds(w: World, tid: nat, t: Task, choice: Choice)
    requires t.phase.Sending?
    ensures Ends(w, t, choice, StepSending(w, tid, t, choice))
  {
    hide AskFor, B.Enqueue, B.EnqueueRefused;
  }

  lemma ReplyEnds(w: World, tid: nat, t: Task, choice: Choice)
    requires t.phase.AwaitingReply? && t.protocol.Some?
    ensures Ends(w, t, choice, StepAwaitingReply(w, tid, t, choice))
  {
    if ReplyTo(w.bridge, t.phase.request).Some? {
      var m := w.bridge.closed[t.phase.request].message;
      assert Reported(w.bridge, t.phase, m);
      if Failing(m) {
        FailedReply(w, tid, t, choice, m);
      } else {
        SuccessReply(w, tid, t, choice, m);
      }
      hide StepAwaitingReply, Transient, Stale;
    } else {
      UnansweredReply(w, tid, t, choice);
      hide StepAwaitingReply;
    }
  }

  lemma ProbingEnds(w: World, tid: nat, t: Task, choice: Choice)
    requires t.phase.Probing?
    ensures Ends(w, t, choice, StepProbing(w, tid, t, choice))
  {
    hide B.Enqueue, B.EnqueueRefused;
  }

  lemma VerdictEnds(w: World, tid: nat, t: Task, choice: Choice)
    requires t.phase.AwaitingProbe?
    ensures Ends(w, t, choice, StepAwaitingProbe(w, tid, t, choice))
  {
    ProbeCases(w, tid, t, choice);
    var reply := ReplyTo(w.bridge, t.phase.probe);
    if reply.Some? {
      assert Reported(w.bridge, t.phase, reply.value);
      assert Rejects(reply.value) <==> Denied(reply.value);
    }
    hide StepAwaitingProbe, Rejects, Denied;
  }

  lemma TokenEnds(w: World, tid: nat, t: Task, choice: Choice)
    requires t.phase.AwaitingToken?
    ensures Ends(w, t, choice, StepAwaitingToken(w, tid, t, choice))
  {
    TokenCases(w, tid, t, choice);
    var reply := ReplyTo(w.bridge, t.phase.waiter);
    if reply.Some? {
      assert Reported(w.bridge, t.phase, reply.value);
    }
    hide StepAwaitingToken, S.Remember, B.Abandon;
  }

  lemma LocalNeverEnds(w: World, tid: nat, t: Task, choice: Choice)
    ensures t.phase.Queued? ==> !StepQueued(w, tid, t).task.phase.Done?
    ensures t.phase.Refreshing? ==> !StepRefreshing(w, t).task.phase.Done?
    ensures t.phase.Evicting? ==> !StepEvicting(w, t, choice).task.phase.Done?
    ensures t.phase.Prompting? ==> !StepPrompting(w, t).task.phase.Done?
  {
    hide S.ClearOrigin, B.AwaitSession;
  }

  lemma TaskEnds(w: World, tid: nat, t: Task, choice: Choice)
    requires t.phase.AwaitingReply? ==> t.protocol.Some?
    ensures Ends(w, t, choice, StepTask(w, tid, t, choice))
  {
    hide Cause, CommitLegacy, StepChecking, StepQuerying, StepAwaitingReport, StepReportTimedOut, StepQueued,
         StepRefreshing, StepSending, StepAwaitingReply, StepProbing, StepAwaitingProbe, StepEvicting, StepPrompting,
         StepAwaitingToken;
    match t.phase
    case Checking(_) => CheckingEnds(w, tid, t, choice);
    case Querying(_, _) => QueryingEnds(w, tid, t, choice);
    case AwaitingReport(_, _, _) => QueryEnds(w, tid, t, choice);
    case ReportTimedOut(_, _, _) => SilenceEnds(w, tid, t, choice);
    case ConfirmingSilence(attempt, before, query) => LegacyEnds(w, tid, t, choice, attempt, before, query);
    case Sending(_, _) => SendingEnds(w, tid, t, choice);
    case AwaitingReply(_, _) => ReplyEnds(w, tid, t, choice);
    case Probing(_) => ProbingEnds(w, tid, t, choice);
    case AwaitingProbe(_, _) => VerdictEnds(w, tid, t, choice);
    case AwaitingToken(_, _) => TokenEnds(w, tid, t, choice);
    case _ => LocalNeverEnds(w, tid, t, choice);
  }

  /** In every run, a dispatch ends only for a cause in the state it ends in: it is disconnected
    * only when the connection, its generation or the awaited waiter is gone; it fails closed
    * only when the helper is known to have gates or what it reported cannot settle the
    * payload, and so on for every outcome. */
  lemma EndsHaveCauses(run: seq<System>, steps: seq<SystemStep>, k: nat)
    requires IsRun(run, steps) && k + 1 < |run| && steps[k].Run?
    ensures steps[k].tid in run[k].tasks && steps[k].tid in run[k + 1].tasks
    ensures var t, t' := run[k].tasks[steps[k].tid], run[k + 1].tasks[steps[k].tid];
            t'.phase.Done? && !t.phase.Done? ==> Cause(run[k].world.bridge, t, steps[k].choice, t'.phase.outcome)
  {
    ReachableProtocol(run, steps, k);
    assert SystemNext(run[k + 1 - 1], steps[k + 1 - 1], run[k + 1]);
    hide IsRun, Cause, StepTask;
    TaskEnds(run[k].world, steps[k].tid, run[k].tasks[steps[k].tid], steps[k].choice);
  }

  lemma ReachableProtocol(run: seq<System>, steps: seq<SystemStep>, k: nat)
    requires IsRun(run, steps) && k < |run|
    ensures forall tid :: tid in run[k].tasks && run[k].tasks[tid].phase.AwaitingReply? ==> run[k].tasks[tid].protocol.Some?
  {
    hide SystemInv, IsRun, SystemOwns, TaskInv, OwnInv, Awaits;
    ReachableOwns(run, steps, k);
    forall tid | tid in run[k].tasks && run[k].tasks[tid].phase.AwaitingReply? ensures run[k].tasks[tid].protocol.Some? {
      TaskOf(run[k], tid);
      OwnerOwns(run[k], tid);
      AwaitedWrite(run[k].world.bridge, tid, run[k].tasks[tid]);
      AwaitsProtocol(run[k].world.bridge, tid, run[k].tasks[tid]);
    }
  }
}
