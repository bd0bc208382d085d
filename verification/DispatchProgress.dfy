/** A dispatch never idles and never goes back: it makes a bounded number of moves. */
module DispatchProgress {
  import opened Prelude
  import opened Gates
  import opened Dispatch
  import opened DispatchProofs
  import B = Bridge
  import S = SessionCache

  /** How far a phase is from the end of its attempt. */
  function Local(phase: Phase): nat {
    match phase
    case Checking(_) => 9
    case Querying(_, _) => 8
    case AwaitingReport(_, _, _) => 7
    case ReportTimedOut(_, _, _) => 6
    case ConfirmingSilence(_, _, _) => 5
    case Queued(_) => 4
    case Refreshing(_) => 3
    case Sending(_, _) => 2
    case AwaitingReply(_, _) => 1
    case _ => 0
  }

  function AttemptOf(phase: Phase): Attempt {
    match phase
    case Checking(a) => a
    case Querying(a, _) => a
    case AwaitingReport(a, _, _) => a
    case ReportTimedOut(a, _, _) => a
    case ConfirmingSilence(a, _, _) => a
    case Sending(a, _) => a
    case AwaitingReply(a, _) => a
    case _ => First
  }

  /** How many moves a dispatch has left at most. */
  function Rank(phase: Phase): nat {
    match phase
    case Done(_) => 0
    case AwaitingToken(_, _) => 10
    case Prompting(_) => 11
    case Evicting(_) => 12
    case AwaitingProbe(_, _) => 13
    case Probing(_) => 14
    case _ => Local(phase) + if AttemptOf(phase) == First then 14 else 0
  }

  /** The dispatch waits: for the lock, or for a request that is not closed and whose wait
    * the environment does not end. */
  ghost predicate Waits(w: World, phase: Phase, choice: Choice) {
    match phase
    case Queued(_) => w.lock.Some?
    case AwaitingReport(_, _, query) => query !in w.bridge.closed && !choice.TimeOut?
    case AwaitingReply(_, request) => request !in w.bridge.closed && !choice.TimeOut?
    case AwaitingProbe(_, probe) => probe !in w.bridge.closed && !choice.TimeOut?
    case AwaitingToken(_, waiter) => waiter !in w.bridge.closed && !choice.TimeOut? && !choice.NoHelper?
    case Done(_) => true
    case _ => false
  }

  /** The move stays in its phase exactly when the dispatch waits, and else gets nearer the end. */
  ghost predicate Advances(w: World, t: Task, choice: Choice, m: Moved) {
    if Waits(w, t.phase, choice) then m.task == t else Rank(m.task.phase) < Rank(t.phase)
  }

  lemma PassAdvances(w: World, tid: nat, t: Task, attempt: Attempt, p: Preflight)
    requires Preflighting(t.phase) && t.phase.attempt == attempt
    ensures Rank(Pass(w, tid, t, attempt, p).task.phase) < Rank(t.phase)
  {
  }

  lemma CheckingAdvances(w: World, tid: nat, t: Task, choice: Choice)
    requires t.phase.Checking?
    ensures Advances(w, t, choice, StepChecking(w, tid, t, choice))
  {
    hide Pass, GateForPayload;
    PassAdvances(w, tid, t, t.phase.attempt, Preflight(t.payload, None, NotGated, 0));
  }

  lemma QueryingAdvances(w: World, tid: nat, t: Task, choice: Choice)
    requires t.phase.Querying?
    ensures Advances(w, t, choice, StepQuerying(w, tid, t, choice))
  {
    hide TryEnqueue, QueryError;
  }

  lemma LegacyAdvances(w: World, tid: nat, t: Task, attempt: Attempt, before: HelperStatus, query: nat)
    requires Preflighting(t.phase) && t.phase.attempt == attempt
    ensures Rank(CommitLegacy(w, tid, t, attempt, before, query).task.phase) < Rank(t.phase)
  {
    hide Pass, B.CommitLegacy;
    PassAdvances(w.(bridge := B.CommitLegacy(w.bridge)), tid, t, attempt,
                 Preflight(t.payload, Some(w.bridge.status.generation), LegacyAllowed, query));
  }

  lemma GatedAdvances(w: World, tid: nat, t: Task, attempt: Attempt, before: HelperStatus, query: nat, report: Report)
    requires Preflighting(t.phase) && t.phase.attempt == attempt
    ensures Rank(CommitGated(w, tid, t, attempt, before, query, report).task.phase) < Rank(t.phase)
  {
    hide Pass, B.CommitGated, GateForPayload;
    match Judge(report, t.payload)
    case Err(_) =>
    case Ok(decision) =>
      PassAdvances(w.(bridge := B.CommitGated(w.bridge, report)), tid, t, attempt,
                   Preflight(t.payload, Some(w.bridge.status.generation), decision, query));
  }

  lemma ReportAdvances(w: World, tid: nat, t: Task, choice: Choice)
    requires t.phase.AwaitingReport?
    ensures Advances(w, t, choice, StepAwaitingReport(w, tid, t, choice))
  {
    hide CommitLegacy, CommitGated, QueryError, B.Abandon;
    var AwaitingReport(attempt, before, query) := t.phase;
    LegacyAdvances(w, tid, t, attempt, before, query);
    forall report ensures Rank(CommitGated(w, tid, t, attempt, before, query, report).task.phase) < Rank(t.phase) {
      GatedAdvances(w, tid, t, attempt, before, query, report);
    }
  }

  lemma SendingAdvances(w: World, tid: nat, t: Task, choice: Choice)
    requires t.phase.Sending?
    ensures Advances(w, t, choice, StepSending(w, tid, t, choice))
  {
    hide TryEnqueue, AskFor;
  }

  lemma ReplyAdvances(w: World, tid: nat, t: Task, choice: Choice)
    requires t.phase.AwaitingReply?
    ensures Advances(w, t, choice, StepAwaitingReply(w, tid, t, choice))
  {
    hide Verified, B.Abandon;
  }

  lemma ProbeAdvances(w: World, tid: nat, t: Task, choice: Choice)
    ensures t.phase.Probing? ==> Advances(w, t, choice, StepProbing(w, tid, t, choice))
    ensures t.phase.AwaitingProbe? ==> Advances(w, t, choice, StepAwaitingProbe(w, tid, t, choice))
  {
    hide TryEnqueue, Rejects, B.Abandon;
  }

  lemma SessionAdvances(w: World, tid: nat, t: Task, choice: Choice)
    ensures t.phase.Evicting? ==> Advances(w, t, choice, StepEvicting(w, t, choice))
    ensures t.phase.Prompting? ==> Advances(w, t, choice, StepPrompting(w, t))
    ensures t.phase.AwaitingToken? ==> Advances(w, t, choice, StepAwaitingToken(w, tid, t, choice))
  {
    hide S.ClearOrigin, S.Remember, B.AwaitSession, B.Abandon;
  }

  lemma QueueAdvances(w: World, tid: nat, t: Task, choice: Choice)
    ensures t.phase.ReportTimedOut? ==> Advances(w, t, choice, StepReportTimedOut(w, tid, t))
    ensures t.phase.Queued? ==> Advances(w, t, choice, StepQueued(w, tid, t))
    ensures t.phase.Refreshing? ==> Advances(w, t, choice, StepRefreshing(w, t))
  {
  }

  /** A dispatch that has its turn moves on, unless it is done, the lock is taken, or it awaits
    * a request that is not closed yet; and every move brings it nearer its end. */
  lemma MovesUnlessWaiting(w: World, tid: nat, t: Task, choice: Choice)
    ensures Advances(w, t, choice, StepTask(w, tid, t, choice))
  {
    hide Rank, Waits, Advances, CommitLegacy, StepChecking, StepQuerying, StepAwaitingReport, StepReportTimedOut, StepQueued,
         StepRefreshing, StepSending, StepAwaitingReply, StepProbing, StepAwaitingProbe, StepEvicting, StepPrompting,
         StepAwaitingToken;
    match t.phase
    case Checking(_) => CheckingAdvances(w, tid, t, choice);
    case Querying(_, _) => QueryingAdvances(w, tid, t, choice);
    case AwaitingReport(_, _, _) => ReportAdvances(w, tid, t, choice);
    case ConfirmingSilence(attempt, before, query) =>
      LegacyAdvances(w, tid, t, attempt, before, query);
      SilenceWaits(w, t, choice, CommitLegacy(w, tid, t, attempt, before, query));
    case Sending(_, _) => SendingAdvances(w, tid, t, choice);
    case AwaitingReply(_, _) => ReplyAdvances(w, tid, t, choice);
    case Probing(_) => ProbeAdvances(w, tid, t, choice);
    case AwaitingProbe(_, _) => ProbeAdvances(w, tid, t, choice);
    case Evicting(_) => SessionAdvances(w, tid, t, choice);
    case Prompting(_) => SessionAdvances(w, tid, t, choice);
    case AwaitingToken(_, _) => SessionAdvances(w, tid, t, choice);
    case Done(_) => DoneWaits(w, t, choice);
    case _ => QueueAdvances(w, tid, t, choice);
  }

  lemma SilenceWaits(w: World, t: Task, choice: Choice, m: Moved)
    requires t.phase.ConfirmingSilence? && Rank(m.task.phase) < Rank(t.phase)
    ensures Advances(w, t, choice, m)
  {
    hide Rank;
  }

  lemma DoneWaits(w: World, t: Task, choice: Choice)
    requires t.phase.Done?
    ensures Advances(w, t, choice, Moved(w, t))
  {
    hide Rank;
  }

  /** How often the dispatch has changed its phase in the first `k` steps of a run. */
  function Moves(run: seq<System>, tid: nat, k: nat): nat
    requires k < |run|
  {
    if k == 0 then 0
    else
      Moves(run, tid, k - 1)
      + if tid in run[k - 1].tasks && tid in run[k].tasks && run[k - 1].tasks[tid].phase != run[k].tasks[tid].phase then 1 else 0
  }

  lemma StepMoves(s: System, step: SystemStep, s': System, tid: nat)
    requires SystemNext(s, step, s')
    ensures tid in s.tasks ==> tid in s'.tasks && Rank(s'.tasks[tid].phase) <= Rank(s.tasks[tid].phase)
    ensures tid in s.tasks && s'.tasks[tid].phase != s.tasks[tid].phase ==>
              Rank(s'.tasks[tid].phase) < Rank(s.tasks[tid].phase)
    ensures tid !in s.tasks && tid in s'.tasks ==> Rank(s'.tasks[tid].phase) == 23
  {
    hide StepTask, B.Enabled, B.Apply, Ambient, Waits;
    if step.Run? && step.tid == tid {
      MovesUnlessWaiting(s.world, tid, s.tasks[tid], step.choice);
    }
  }

  /** In every run, whatever happens around it, a dispatch moves at most 23 times. */
  lemma {:induction false} DispatchesAreBounded(run: seq<System>, steps: seq<SystemStep>, k: nat, tid: nat)
    requires IsRun(run, steps) && k < |run|
    ensures tid in run[k].tasks ==> Moves(run, tid, k) + Rank(run[k].tasks[tid].phase) <= 23
    ensures tid !in run[k].tasks ==> Moves(run, tid, k) == 0
  {
    hide SystemNext, Rank;
    if k == 0 {
    } else {
      DispatchesAreBounded(run, steps, k - 1, tid);
      assert SystemNext(run[k - 1], steps[k - 1], run[k]);
      StepMoves(run[k - 1], steps[k - 1], run[k], tid);
    }
  }
}
