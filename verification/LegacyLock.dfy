/** Legacy replies carry no usable id, so legacy actions are serialized. */
module LegacyLock {
  import opened Prelude
  import opened Gates
  import opened Dispatch
  import opened DispatchProofs
  import B = Bridge
  import S = SessionCache

  /** The task has been admitted to the legacy protocol and has not finished. */
  predicate Admitted(t: Task) {
    t.protocol.Some? && t.protocol.value.Legacy? && !t.phase.Queued? && !t.phase.Done?
  }

  ghost predicate LockOk(tid: nat, t: Task, lock: Option<nat>) {
    && (Admitted(t) <==> lock == Some(tid))
    && (t.phase.Queued? ==> t.protocol.Some? && t.protocol.value.Legacy?)
    && (Preflighting(t.phase) && t.phase.attempt == First && t.request.SendActionWithLegacyFallback? ==> t.protocol.None?)
    && (t.protocol.Some? && t.protocol.value.Legacy? ==> t.request.SendActionWithLegacyFallback?)
  }

  /** The lock changes hands only from nobody to this task and back. */
  ghost predicate Handed(tid: nat, before: Option<nat>, after: Option<nat>) {
    after == before || (before == None && after == Some(tid)) || (before == Some(tid) && after == None)
  }

  ghost predicate Fair(lock: Option<nat>, tid: nat, m: Moved) {
    LockOk(tid, m.task, m.world.lock) && Handed(tid, lock, m.world.lock)
  }

  lemma PassFair(w: World, tid: nat, t: Task, attempt: Attempt, p: Preflight)
    requires LockOk(tid, t, w.lock) && Preflighting(t.phase) && t.phase.attempt == attempt
    ensures Fair(w.lock, tid, Pass(w, tid, t, attempt, p))
  {
  }

  lemma FinishFair(w: World, tid: nat, t: Task, outcome: Outcome)
    requires LockOk(tid, t, w.lock)
    ensures Fair(w.lock, tid, Finish(w, tid, t, outcome))
  {
  }

  lemma CommitsFair(w: World, tid: nat, t: Task, attempt: Attempt, before: HelperStatus, query: nat, report: Report)
    requires LockOk(tid, t, w.lock) && Preflighting(t.phase) && t.phase.attempt == attempt
    ensures Fair(w.lock, tid, CommitLegacy(w, tid, t, attempt, before, query))
    ensures Fair(w.lock, tid, CommitGated(w, tid, t, attempt, before, query, report))
  {
    hide Pass, Finish, Fair, GateForPayload, B.CommitLegacy, B.CommitGated;
    var generation := Some(w.bridge.status.generation);
    var legacy, gated := w.(bridge := B.CommitLegacy(w.bridge)), w.(bridge := B.CommitGated(w.bridge, report));
    FinishFair(w, tid, t, Disconnected);
    FinishFair(w, tid, t, GateStateUnavailable);
    PassFair(legacy, tid, t, attempt, Preflight(t.payload, generation, LegacyAllowed, query));
    match Judge(report, t.payload)
    case Err(outcome) => FinishFair(gated, tid, t, outcome);
    case Ok(decision) => PassFair(gated, tid, t, attempt, Preflight(t.payload, generation, decision, query));
  }

  lemma CheckFair(w: World, tid: nat, t: Task, choice: Choice)
    requires LockOk(tid, t, w.lock) && t.phase.Checking?
    ensures Fair(w.lock, tid, StepChecking(w, tid, t, choice))
  {
    hide Pass, Finish, GateForPayload;
    PassFair(w, tid, t, t.phase.attempt, Preflight(t.payload, None, NotGated, 0));
    FinishFair(w, tid, t, NotConnected);
  }

  lemma QueryFair(w: World, tid: nat, t: Task, choice: Choice)
    requires LockOk(tid, t, w.lock) && t.phase.Querying?
    ensures Fair(w.lock, tid, StepQuerying(w, tid, t, choice))
  {
    hide TryEnqueue, QueryError;
  }

  lemma ReportFair(w: World, tid: nat, t: Task, choice: Choice)
    requires LockOk(tid, t, w.lock) && t.phase.AwaitingReport?
    ensures Fair(w.lock, tid, StepAwaitingReport(w, tid, t, choice))
  {
    hide CommitLegacy, CommitGated, QueryError, B.Abandon;
    var AwaitingReport(attempt, before, query) := t.phase;
    forall report
      ensures Fair(w.lock, tid, CommitLegacy(w, tid, t, attempt, before, query))
      ensures Fair(w.lock, tid, CommitGated(w, tid, t, attempt, before, query, report))
    {
      CommitsFair(w, tid, t, attempt, before, query, report);
    }
    CommitsFair(w, tid, t, attempt, before, query, Report(None, map[]));
  }

  lemma SilenceFair(w: World, tid: nat, t: Task)
    requires LockOk(tid, t, w.lock) && t.phase.ReportTimedOut?
    ensures Fair(w.lock, tid, StepReportTimedOut(w, tid, t))
  {
  }

  lemma SendFair(w: World, tid: nat, t: Task, choice: Choice)
    requires LockOk(tid, t, w.lock) && t.phase.Sending?
    ensures Fair(w.lock, tid, StepSending(w, tid, t, choice))
  {
    hide TryEnqueue, AskFor;
  }

  lemma ReplyFair(w: World, tid: nat, t: Task, choice: Choice)
    requires LockOk(tid, t, w.lock) && t.phase.AwaitingReply?
    ensures Fair(w.lock, tid, StepAwaitingReply(w, tid, t, choice))
  {
    hide B.Abandon, Verified;
  }

  lemma ProbeFair(w: World, tid: nat, t: Task, choice: Choice)
    requires LockOk(tid, t, w.lock) && t.phase.Probing?
    ensures Fair(w.lock, tid, StepProbing(w, tid, t, choice))
  {
    hide TryEnqueue;
  }

  lemma VerdictFair(w: World, tid: nat, t: Task, choice: Choice)
    requires LockOk(tid, t, w.lock) && t.phase.AwaitingProbe?
    ensures Fair(w.lock, tid, StepAwaitingProbe(w, tid, t, choice))
  {
    hide B.Abandon, Rejects;
  }

  lemma TokenFair(w: World, tid: nat, t: Task, choice: Choice)
    requires LockOk(tid, t, w.lock) && t.phase.AwaitingToken?
    ensures Fair(w.lock, tid, StepAwaitingToken(w, tid, t, choice))
  {
    hide B.Abandon, S.Remember;
  }

  lemma LocalFair(w: World, tid: nat, t: Task, choice: Choice)
    requires LockOk(tid, t, w.lock)
    ensures t.phase.Queued? ==> Fair(w.lock, tid, StepQueued(w, tid, t))
    ensures t.phase.Refreshing? ==> Fair(w.lock, tid, StepRefreshing(w, t))
    ensures t.phase.Evicting? ==> Fair(w.lock, tid, StepEvicting(w, t, choice))
    ensures t.phase.Prompting? ==> Fair(w.lock, tid, StepPrompting(w, t))
    ensures t.phase.Done? ==> Fair(w.lock, tid, Moved(w, t))
  {
    hide B.AwaitSession, S.ClearOrigin;
  }

  lemma TaskFair(w: World, tid: nat, t: Task, choice: Choice)
    requires LockOk(tid, t, w.lock)
    ensures Fair(w.lock, tid, StepTask(w, tid, t, choice))
  {
    hide LockOk, Fair, CommitLegacy, StepChecking, StepQuerying, StepAwaitingReport, StepReportTimedOut, StepQueued,
         StepRefreshing, StepSending, StepAwaitingReply, StepProbing, StepAwaitingProbe, StepEvicting, StepPrompting,
         StepAwaitingToken;
    match t.phase
    case Checking(_) => CheckFair(w, tid, t, choice);
    case Querying(_, _) => QueryFair(w, tid, t, choice);
    case AwaitingReport(_, _, _) => ReportFair(w, tid, t, choice);
    case ReportTimedOut(_, _, _) => SilenceFair(w, tid, t);
    case ConfirmingSilence(attempt, before, query) =>
      CommitsFair(w, tid, t, attempt, before, query, Report(None, map[]));
    case Sending(_, _) => SendFair(w, tid, t, choice);
    case AwaitingReply(_, _) => ReplyFair(w, tid, t, choice);
    case Probing(_) => ProbeFair(w, tid, t, choice);
    case AwaitingProbe(_, _) => VerdictFair(w, tid, t, choice);
    case AwaitingToken(_, _) => TokenFair(w, tid, t, choice);
    case _ => LocalFair(w, tid, t, choice);
  }

  ghost predicate SystemFair(s: System) {
    && (forall tid :: tid in s.tasks ==> LockOk(tid, s.tasks[tid], s.world.lock))
    && (s.world.lock.Some? ==> s.world.lock.value in s.tasks)
  }

  lemma SystemStaysFair(s: System, step: SystemStep, s': System)
    requires SystemFair(s) && SystemNext(s, step, s')
    ensures SystemFair(s')
  {
    hide StepTask, B.Apply, B.Enabled;
    if step.Run? {
      TaskFair(s.world, step.tid, s.tasks[step.tid], step.choice);
    }
  }

  lemma {:induction false} ReachableFair(run: seq<System>, steps: seq<SystemStep>, k: nat)
    requires IsRun(run, steps) && k < |run|
    ensures SystemFair(run[k])
  {
    if k == 0 {
    } else {
      ReachableFair(run, steps, k - 1);
      SystemStaysFair(run[k - 1], steps[k - 1], run[k]);
    }
  }

  /** From its first legacy write to its end, a task is the only one admitted to
    * the legacy protocol; a task that finished never holds the lock. */
  lemma LegacyActionsAreExclusive(run: seq<System>, steps: seq<SystemStep>, k: nat, a: nat, b: nat)
    requires IsRun(run, steps) && k < |run| && a in run[k].tasks && b in run[k].tasks
    ensures Admitted(run[k].tasks[a]) && Admitted(run[k].tasks[b]) ==> a == b
    ensures run[k].tasks[a].phase.Done? ==> run[k].world.lock != Some(a)
  {
    ReachableFair(run, steps, k);
  }
}
