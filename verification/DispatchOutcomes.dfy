/** What a dispatch answers its client is earned: each outcome has its cause on record. */
module DispatchOutcomes {
  import opened Prelude
  import opened Gates
  import opened Dispatch
  import opened DispatchInvariants
  import opened DispatchProofs
  import opened DispatchEvidence
  import opened DispatchTheorems
  import B = Bridge
  import I = BridgeInvariants
  import S = SessionCache

  /** The reply that closed a request, if one did. */
  function ReplyTo(b: B.State, request: nat): Option<B.Message> {
    if request in b.closed && b.closed[request].Answered? then Some(b.closed[request].message) else None
  }

  /** The helper says that the action failed. */
  predicate Failing(m: B.Message) {
    m.success == Some(false) || m.error.Some?
  }

  /** ... for a reason of its own, and with a text of one of the two kinds acted on. */
  predicate Transient(m: B.Message) {
    Failing(m) && !m.paused && m.error.Some? && m.error.value.transient
  }

  predicate Stale(m: B.Message) {
    Failing(m) && !m.paused && m.error.Some? && !m.error.value.transient && m.error.value.stale
  }

  /** The dispatch's last write was answered so. */
  ghost predicate WriteAnswered(b: B.State, frames: seq<ActionFrame>, m: B.Message) {
    frames != [] && ReplyTo(b, frames[|frames| - 1].waiter) == Some(m)
  }

  /** A capability query of this dispatch, newer than all its writes, was answered so. */
  ghost predicate QueryAnswered(b: B.State, tid: nat, frames: seq<ActionFrame>, m: B.Message) {
    exists query :: AskedBy(b, tid, query) && Behind(frames, query) && ReplyTo(b, query) == Some(m)
  }

  /** The reply answers the request: by its id, or else by the action it expects. */
  predicate Answers(request: Request, f: ActionFrame, m: B.Message) {
    match f.correlation
    case Some(id) => m.requestId == Some(id)
    case None => !request.SendAction? && m.action == Some(Expected(request))
  }

  /** A failing reply that is neither retried nor probed. */
  predicate Final(request: Request, frames: seq<ActionFrame>, m: B.Message)
    requires frames != []
  {
    || |frames| > 1 || request.SendActionForAction? || m.error.None?
    || (!m.error.value.transient && !(m.error.value.stale && frames[0].content.payload.instance.Some?))
  }

  /** Such a report refuses the payload: its origin is not listed, or its gate is off. */
  predicate Unlisted(report: Report, payload: Payload) {
    HasGates(report) && payload.TargetOrigin().Some? && payload.TargetOrigin().value !in report.instanceGates
  }

  predicate Blocks(report: Report, payload: Payload) {
    && HasGates(report) && payload.TargetOrigin().Some? && GateForPayload(payload).Some?
    && payload.TargetOrigin().value in report.instanceGates
    && report.instanceGates[payload.TargetOrigin().value].gates.Mode(GateForPayload(payload).value).Off?
  }

  /** The first write was refused for this reason. */
  ghost predicate FirstRefused(b: B.State, frames: seq<ActionFrame>, transient: bool) {
    && frames != [] && ReplyTo(b, frames[0].waiter).Some?
    && var m := ReplyTo(b, frames[0].waiter).value;
       if transient then Transient(m) else Stale(m) && frames[0].content.payload.instance.Some?
  }

  /** Some wait for a fresh session of this origin was given up. */
  ghost predicate WaitGivenUp(b: B.State, origin: Option<Origin>) {
    exists w :: w in b.abandoned && w < |b.registered| && b.registered[w].matcher == B.Session(origin)
  }

  /** A probe of this session, sent for this dispatch, was answered without a failure. */
  ghost predicate ProbeAccepted(b: B.State, tid: nat, session: SnuInstance) {
    exists probe, m :: ProbedBy(b, tid, session, probe) && ReplyTo(b, probe) == Some(m) && !Failing(m)
  }

  /** What must have happened for this outcome. */
  ghost predicate Earned(b: B.State, tid: nat, t: Task, outcome: Outcome) {
    var frames := Mine(b.frames, tid);
    match outcome
    case Succeeded =>
      exists m :: WriteAnswered(b, frames, m) && !Failing(m) && Answers(t.request, frames[|frames| - 1], m)
    case Paused =>
      exists m :: (WriteAnswered(b, frames, m) || QueryAnswered(b, tid, frames, m)) && Failing(m) && m.paused
    case ActionFailed =>
      exists m :: Failing(m) && !m.paused
        && (QueryAnswered(b, tid, frames, m) || (WriteAnswered(b, frames, m) && Final(t.request, frames, m)))
    case TimedOut =>
      || (frames != [] && frames[|frames| - 1].waiter in b.abandoned)
      || (|t.log| == 4 && t.log[3].Evicted? && WaitGivenUp(b, t.log[3].origin))
    case AccessDenied =>
      FirstRefused(b, frames, false) && |frames| == 1 && ProbeAccepted(b, tid, frames[0].content.payload.instance.value)
    case ProbeFailed => FirstRefused(b, frames, false) && |frames| == 1
    case GateUnauthorized => exists m :: QueryAnswered(b, tid, frames, m) && m.report.Some? && Unlisted(m.report.value, t.payload)
    case GateBlocked => exists m :: QueryAnswered(b, tid, frames, m) && m.report.Some? && Blocks(m.report.value, t.payload)
    case GateStateUnavailable => GateForPayload(t.payload).Some? || (t.protocol.Some? && t.protocol.value.Legacy?)
    case ProtocolChanged =>
      && t.protocol.Some? && t.protocol.value.Legacy? && |frames| == 1
      && (GateForPayload(t.payload).Some? ==>
            exists m :: QueryAnswered(b, tid, frames, m) && m.report.Some? && HasGates(m.report.value))
    case _ => true
  }

  // --- The invariant ----------------------------------------------------------------------

  /** The dispatch repeats, or has repeated, an action whose first write failed transiently. */
  predicate OnRetry(t: Task) {
    || (Preflighting(t.phase) && t.phase.attempt == AfterTransient)
    || ((t.phase.Sending? || t.phase.AwaitingReply?) && t.phase.attempt == AfterTransient)
    || (|t.log| >= 3 && t.log[2].Wrote?)
  }

  /** It probes, or has probed, the session of an action whose first write was denied. */
  predicate OnRefresh(t: Task) {
    || (Preflighting(t.phase) && t.phase.attempt == AfterRefresh)
    || ((t.phase.Sending? || t.phase.AwaitingReply?) && t.phase.attempt == AfterRefresh)
    || t.phase.Probing? || t.phase.AwaitingProbe? || t.phase.Evicting? || t.phase.Prompting? || t.phase.AwaitingToken?
    || (|t.log| >= 3 && t.log[2].ProbeRejected?)
  }

  ghost predicate KindOk(b: B.State, tid: nat, t: Task) {
    && (OnRetry(t) ==> FirstRefused(b, Mine(b.frames, tid), true))
    && (OnRefresh(t) ==> FirstRefused(b, Mine(b.frames, tid), false))
  }

  /** Only gated payloads are asked about. */
  predicate GatedOk(t: Task) {
    t.phase.Querying? || t.phase.AwaitingReport? || t.phase.ReportTimedOut? || t.phase.ConfirmingSilence? ==>
      GateForPayload(t.payload).Some?
  }

  ghost predicate OutcomeInv(b: B.State, tid: nat, t: Task) {
    && KindOk(b, tid, t) && GatedOk(t)
    && (t.phase.Done? ==> Earned(b, tid, t, t.phase.outcome))
  }

  // --- Time does not take it away --------------------------------------------------------------

  lemma RepliesStay(b: B.State, b': B.State)
    requires I.Later(b, b')
    ensures forall r :: ReplyTo(b, r).Some? ==> ReplyTo(b', r) == ReplyTo(b, r)
    ensures b.frames <= b'.frames && b.abandoned <= b'.abandoned && b.registered <= b'.registered
  {
  }

  lemma AnswersStay(b: B.State, b': B.State, tid: nat, frames: seq<ActionFrame>)
    requires I.Later(b, b')
    ensures forall m :: WriteAnswered(b, frames, m) ==> WriteAnswered(b', frames, m)
    ensures forall m :: QueryAnswered(b, tid, frames, m) ==> QueryAnswered(b', tid, frames, m)
    ensures forall transient :: FirstRefused(b, frames, transient) ==> FirstRefused(b', frames, transient)
  {
    RepliesStay(b, b');
    EvidenceLater(b, b', tid);
    hide I.Later, AskedBy, ProbedBy, Behind, ReplyTo, Stale, Transient;
    forall m | QueryAnswered(b, tid, frames, m) ensures QueryAnswered(b', tid, frames, m) {
      var query :| AskedBy(b, tid, query) && Behind(frames, query) && ReplyTo(b, query) == Some(m);
    }
  }

  lemma ProbesStay(b: B.State, b': B.State, tid: nat)
    requires I.Later(b, b')
    ensures forall session :: ProbeAccepted(b, tid, session) ==> ProbeAccepted(b', tid, session)
    ensures forall origin :: WaitGivenUp(b, origin) ==> WaitGivenUp(b', origin)
  {
    RepliesStay(b, b');
    EvidenceLater(b, b', tid);
    hide I.Later, ProbedBy, Failing, ReplyTo;
    forall session | ProbeAccepted(b, tid, session) ensures ProbeAccepted(b', tid, session) {
      var probe, m :| ProbedBy(b, tid, session, probe) && ReplyTo(b, probe) == Some(m) && !Failing(m);
      assert ReplyTo(b', probe) == Some(m);
    }
  }

  lemma EarnedStays(b: B.State, b': B.State, tid: nat, t: Task, outcome: Outcome)
    requires I.Later(b, b') && Mine(b'.frames, tid) == Mine(b.frames, tid) && Earned(b, tid, t, outcome)
    ensures Earned(b', tid, t, outcome)
  {
    AnswersStay(b, b', tid, Mine(b.frames, tid));
    ProbesStay(b, b', tid);
    RepliesStay(b, b');
    hide I.Later, Mine, Failing, Answers, Final, Unlisted, Blocks, HasGates, ReplyTo, GateForPayload, FirstRefused,
         QueryAnswered, WriteAnswered, WaitGivenUp, ProbeAccepted;
  }

  lemma OutcomeStays(b: B.State, b': B.State, tid: nat, t: Task)
    requires I.Later(b, b') && Mine(b'.frames, tid) == Mine(b.frames, tid) && OutcomeInv(b, tid, t)
    ensures OutcomeInv(b', tid, t)
  {
    RepliesStay(b, b');
    hide I.Later, Mine, Earned, ReplyTo, GateForPayload;
    if t.phase.Done? {
      EarnedStays(b, b', tid, t, t.phase.outcome);
    }
  }

  // --- Moves of one task --------------------------------------------------------------------------

  lemma Concludes(b: B.State, tid: nat, t: Task, outcome: Outcome)
    requires OutcomeInv(b, tid, t) && Earned(b, tid, t, outcome)
    ensures OutcomeInv(b, tid, t.(phase := Done(outcome)))
  {
    EarnedWithout(b, tid, t, t.(phase := Done(outcome)), outcome);
    hide Earned, Mine, FirstRefused, GateForPayload;
  }

  /** Evidence does not depend on the phase. */
  lemma EarnedWithout(b: B.State, tid: nat, t: Task, t': Task, outcome: Outcome)
    requires Earned(b, tid, t, outcome) && t' == t.(phase := t'.phase)
    ensures Earned(b, tid, t', outcome)
  {
    hide Mine, FirstRefused, GateForPayload, QueryAnswered, WriteAnswered, Answers, Final, Failing, Unlisted, Blocks, WaitGivenUp;
  }

  /** A move that does not end the dispatch nor begin a retry or a probe. */
  lemma Proceeds(b: B.State, tid: nat, t: Task, t': Task)
    requires OutcomeInv(b, tid, t) && !t'.phase.Done? && GatedOk(t')
    requires (OnRetry(t') ==> OnRetry(t)) && (OnRefresh(t') ==> OnRefresh(t))
    ensures OutcomeInv(b, tid, t')
  {
    hide Earned, Mine, FirstRefused, OnRetry, OnRefresh, GatedOk;
  }

  /** Outcomes that speak for themselves. */
  lemma PlainlyEarned(b: B.State, tid: nat, t: Task, outcome: Outcome)
    requires outcome == NotConnected || outcome == Disconnected
             || (outcome == GateStateUnavailable
                 && (GateForPayload(t.payload).Some? || (t.protocol.Some? && t.protocol.value.Legacy?)))
    ensures Earned(b, tid, t, outcome)
  {
    hide Mine, GateForPayload;
  }

  lemma PassOutcome(w: World, tid: nat, t: Task, attempt: Attempt, p: Preflight)
    requires OutcomeInv(w.bridge, tid, t) && Preflighting(t.phase) && t.phase.attempt == attempt
    requires (t.protocol.Some? && t.protocol.value.Legacy? ==> t.request.SendActionWithLegacyFallback?)
    requires attempt != First && t.protocol.Some? && t.protocol.value.Legacy? && p.decision != LegacyAllowed ==>
               Earned(w.bridge, tid, t, ProtocolChanged)
    ensures OutcomeInv(w.bridge, tid, Pass(w, tid, t, attempt, p).task)
  {
    hide OutcomeInv, Earned;
    var t' := Pass(w, tid, t, attempt, p).task;
    if t'.phase.Done? {
      Concludes(w.bridge, tid, t, ProtocolChanged);
    } else {
      Proceeds(w.bridge, tid, t, t');
    }
  }

  /** A second preflight follows exactly one write. */
  lemma RetryFrames(b: B.State, tid: nat, t: Task)
    requires TaskInv(b, tid, t)
    ensures Preflighting(t.phase) && t.phase.attempt != First ==> |Mine(b.frames, tid)| == 1
    ensures t.protocol.Some? && t.protocol.value.Legacy? ==> t.request.SendActionWithLegacyFallback?
  {
    hide SentOk, PhaseOk, Mine, RefusedBy, RejectedBy, SameAction, SameTarget;
  }

  lemma ChangedEarned(b: B.State, tid: nat, t: Task)
    requires t.protocol.Some? && t.protocol.value.Legacy? && |Mine(b.frames, tid)| == 1
    requires GateForPayload(t.payload).Some? ==>
               exists m :: QueryAnswered(b, tid, Mine(b.frames, tid), m) && m.report.Some? && m.report.value.SupportsGates()
    ensures Earned(b, tid, t, ProtocolChanged)
  {
    hide Mine, GateForPayload, QueryAnswered;
  }

  lemma CheckingEarns(w: World, tid: nat, t: Task, choice: Choice)
    requires TaskInv(w.bridge, tid, t) && OutcomeInv(w.bridge, tid, t) && t.phase.Checking?
    ensures OutcomeInv(w.bridge, tid, StepChecking(w, tid, t, choice).task)
  {
    RetryFrames(w.bridge, tid, t);
    hide TaskInv, OutcomeInv, Earned, Mine, GateForPayload, Pass;
    if GateForPayload(t.payload).None? {
      if t.phase.attempt != First && t.protocol.Some? && t.protocol.value.Legacy? {
        ChangedEarned(w.bridge, tid, t);
      }
      PassOutcome(w, tid, t, t.phase.attempt, Preflight(t.payload, None, NotGated, 0));
    } else if choice.NoHelper? {
      PlainlyEarned(w.bridge, tid, t, NotConnected);
      Concludes(w.bridge, tid, t, NotConnected);
    } else {
      Proceeds(w.bridge, tid, t, t.(phase := Querying(t.phase.attempt, w.bridge.status)));
    }
  }

  lemma GatedPayload(b: B.State, tid: nat, t: Task)
    requires OutcomeInv(b, tid, t) && (t.phase.Querying? || t.phase.AwaitingReport? || t.phase.ReportTimedOut? || t.phase.ConfirmingSilence?)
    ensures GateForPayload(t.payload).Some?
  {
    hide Earned, KindOk, GateForPayload;
  }

  lemma QueryingEarns(w: World, tid: nat, t: Task, choice: Choice)
    requires t.phase.Querying?
    requires var m := StepQuerying(w, tid, t, choice); OutcomeInv(m.world.bridge, tid, t)
    ensures var m := StepQuerying(w, tid, t, choice); OutcomeInv(m.world.bridge, tid, m.task)
  {
    hide OutcomeInv, Earned, GateForPayload, TryEnqueue;
    var m := StepQuerying(w, tid, t, choice);
    GatedPayload(m.world.bridge, tid, t);
    if m.task.phase.Done? {
      PlainlyEarned(m.world.bridge, tid, t, m.task.phase.outcome);
      Concludes(m.world.bridge, tid, t, m.task.phase.outcome);
    } else {
      Proceeds(m.world.bridge, tid, t, m.task);
    }
  }

  lemma SilenceEarns(w: World, tid: nat, t: Task)
    requires t.phase.ReportTimedOut? && OutcomeInv(w.bridge, tid, t)
    ensures OutcomeInv(w.bridge, tid, StepReportTimedOut(w, tid, t).task)
  {
    hide OutcomeInv, Earned, GateForPayload;
    var t' := StepReportTimedOut(w, tid, t).task;
    GatedPayload(w.bridge, tid, t);
    if t'.phase.Done? {
      PlainlyEarned(w.bridge, tid, t, t'.phase.outcome);
      Concludes(w.bridge, tid, t, t'.phase.outcome);
    } else {
      Proceeds(w.bridge, tid, t, t');
    }
  }

  lemma LegacyEarns(w: World, tid: nat, t: Task, attempt: Attempt, before: HelperStatus, query: nat)
    requires TaskInv(w.bridge, tid, t) && OutcomeInv(w.bridge, tid, t)
    requires (t.phase.AwaitingReport? || t.phase.ConfirmingSilence?) && t.phase.attempt == attempt
    requires var m := CommitLegacy(w, tid, t, attempt, before, query); OutcomeInv(m.world.bridge, tid, t)
    ensures var m := CommitLegacy(w, tid, t, attempt, before, query); OutcomeInv(m.world.bridge, tid, m.task)
  {
    RetryFrames(w.bridge, tid, t);
    GatedPayload(w.bridge, tid, t);
    hide TaskInv, OutcomeInv, Earned, Mine, GateForPayload, Pass, B.CommitLegacy;
    var status := w.bridge.status;
    if status.generation != before.generation {
      PlainlyEarned(w.bridge, tid, t, Disconnected);
      Concludes(w.bridge, tid, t, Disconnected);
    } else if !B.MayTurnLegacy(status) {
      PlainlyEarned(w.bridge, tid, t, GateStateUnavailable);
      Concludes(w.bridge, tid, t, GateStateUnavailable);
    } else {
      var w' := w.(bridge := B.CommitLegacy(w.bridge));
      var p := Preflight(t.payload, Some(status.generation), LegacyAllowed, query);
      PassBridge(w', tid, t, attempt, p);
      PassOutcome(w', tid, t, attempt, p);
    }
  }

  /** What a report says of the payload, as evidence for a refusal. */
  lemma JudgedEarned(b: B.State, tid: nat, t: Task, m: B.Message)
    requires GateForPayload(t.payload).Some? && m.report.Some? && m.report.value.SupportsGates()
    requires QueryAnswered(b, tid, Mine(b.frames, tid), m)
    ensures Judge(m.report.value, t.payload).Err? ==> Earned(b, tid, t, Judge(m.report.value, t.payload).error)
  {
    hide Mine, GateForPayload, QueryAnswered;
  }

  lemma GatedEarns(w: World, tid: nat, t: Task, attempt: Attempt, before: HelperStatus, query: nat, m: B.Message)
    requires TaskInv(w.bridge, tid, t) && OutcomeInv(w.bridge, tid, t) && t.phase == AwaitingReport(attempt, before, query)
    requires m.report.Some? && m.report.value.SupportsGates()
    requires QueryAnswered(w.bridge, tid, Mine(w.bridge.frames, tid), m)
    requires var r := CommitGated(w, tid, t, attempt, before, query, m.report.value); OutcomeInv(r.world.bridge, tid, t)
    ensures var r := CommitGated(w, tid, t, attempt, before, query, m.report.value); OutcomeInv(r.world.bridge, tid, r.task)
  {
    RetryFrames(w.bridge, tid, t);
    GatedPayload(w.bridge, tid, t);
    var report, generation := m.report.value, w.bridge.status.generation;
    var w' := w.(bridge := B.CommitGated(w.bridge, report));
    StatusAnswers(w.bridge, w'.bridge, tid, m);
    hide TaskInv, OutcomeInv, Earned, Mine, GateForPayload, Pass, B.CommitGated, Judge, QueryAnswered;
    if generation != before.generation {
      PlainlyEarned(w.bridge, tid, t, Disconnected);
      Concludes(w.bridge, tid, t, Disconnected);
    } else {
      JudgedEarned(w'.bridge, tid, t, m);
      match Judge(report, t.payload)
      case Err(outcome) =>
        Concludes(w'.bridge, tid, t, outcome);
      case Ok(decision) =>
        var p := Preflight(t.payload, Some(generation), decision, query);
        PassBridge(w', tid, t, attempt, p);
        if attempt != First && t.protocol.Some? && t.protocol.value.Legacy? {
          ChangedEarned(w'.bridge, tid, t);
        }
        PassOutcome(w', tid, t, attempt, p);
    }
  }

  /** A commit to the status leaves frames and answers alone. */
  lemma StatusAnswers(b: B.State, b': B.State, tid: nat, m: B.Message)
    requires b'.frames == b.frames && b'.closed == b.closed && QueryAnswered(b, tid, Mine(b.frames, tid), m)
    ensures b'.frames == b.frames && QueryAnswered(b', tid, Mine(b'.frames, tid), m)
  {
    hide Mine, Behind;
    var query :| AskedBy(b, tid, query) && Behind(Mine(b.frames, tid), query) && ReplyTo(b, query) == Some(m);
    assert AskedBy(b', tid, query);
    hide AskedBy;
  }

  lemma QueryFailed(b: B.State, tid: nat, t: Task, m: B.Message)
    requires QueryAnswered(b, tid, Mine(b.frames, tid), m) && m.ReportsFailure()
    ensures Earned(b, tid, t, if m.paused then Paused else ActionFailed)
  {
    hide Mine, QueryAnswered, WriteAnswered, Final;
    assert Failing(m);
  }

  lemma ReportEarns(w: World, tid: nat, t: Task, choice: Choice)
    requires TaskInv(w.bridge, tid, t) && OwnInv(w.bridge, tid, t) && OutcomeInv(w.bridge, tid, t) && t.phase.AwaitingReport?
    requires var m := StepAwaitingReport(w, tid, t, choice); OutcomeInv(m.world.bridge, tid, t)
    ensures var m := StepAwaitingReport(w, tid, t, choice); OutcomeInv(m.world.bridge, tid, m.task)
  {
    GatedPayload(w.bridge, tid, t);
    hide TaskInv, OwnInv, OutcomeInv, Earned, Mine, GateForPayload, StepAwaitingReport, B.Abandon;
    var b, query := w.bridge, t.phase.query;
    if query in b.closed && b.closed[query].Answered? {
      ReportedEarns(w, tid, t, choice, b.closed[query].message);
    } else {
      UnansweredReport(w, tid, t, choice);
      var r := StepAwaitingReport(w, tid, t, choice);
      if r.task.phase.Done? {
        PlainlyEarned(b, tid, t, r.task.phase.outcome);
        Concludes(b, tid, t, r.task.phase.outcome);
      } else {
        Proceeds(r.world.bridge, tid, t, r.task);
      }
    }
  }

  lemma UnansweredReport(w: World, tid: nat, t: Task, choice: Choice)
    requires t.phase.AwaitingReport?
    requires !(t.phase.query in w.bridge.closed && w.bridge.closed[t.phase.query].Answered?)
    ensures var AwaitingReport(attempt, before, query) := t.phase;
            var r := StepAwaitingReport(w, tid, t, choice);
            if query in w.bridge.closed then
              && r.world.bridge == w.bridge && r.task == t.(phase := r.task.phase) && r.task.phase.Done?
              && (r.task.phase.outcome == Disconnected || r.task.phase.outcome == GateStateUnavailable)
            else if choice.TimeOut? then r.task == t.(phase := ReportTimedOut(attempt, before, query))
            else r.task == t
  {
    hide B.Abandon;
  }

  /** What an answer to the query leads to. */
  lemma ReportCases(w: World, tid: nat, t: Task, choice: Choice, m: B.Message)
    requires t.phase.AwaitingReport? && t.phase.query in w.bridge.closed
    requires w.bridge.closed[t.phase.query].Answered? && w.bridge.closed[t.phase.query].message == m
    ensures var AwaitingReport(attempt, before, query) := t.phase;
            var r := StepAwaitingReport(w, tid, t, choice);
            if m.ReportsFailure() then
              && r.world.bridge == w.bridge && r.task == t.(phase := r.task.phase) && r.task.phase.Done?
              && (r.task.phase.outcome == (if m.paused then Paused else ActionFailed)
                  || (!m.paused && r.task.phase.outcome == GateStateUnavailable))
            else if m.report.Some? && m.report.value.SupportsGates() then
              r == CommitGated(w, tid, t, attempt, before, query, m.report.value)
            else if m.report.None? || before.AdvertisesGates() || before.support == Gated then
              r.world.bridge == w.bridge && r.task == t.(phase := Done(GateStateUnavailable))
            else r == CommitLegacy(w, tid, t, attempt, before, query)
  {
    hide CommitGated, CommitLegacy;
  }

  lemma ReportedEarns(w: World, tid: nat, t: Task, choice: Choice, m: B.Message)
    requires TaskInv(w.bridge, tid, t) && OwnInv(w.bridge, tid, t) && OutcomeInv(w.bridge, tid, t) && t.phase.AwaitingReport?
    requires t.phase.query in w.bridge.closed && w.bridge.closed[t.phase.query].Answered?
    requires w.bridge.closed[t.phase.query].message == m
    requires var r := StepAwaitingReport(w, tid, t, choice); OutcomeInv(r.world.bridge, tid, t)
    ensures var r := StepAwaitingReport(w, tid, t, choice); OutcomeInv(r.world.bridge, tid, r.task)
  {
    GatedPayload(w.bridge, tid, t);
    OwnParts(w.bridge, tid, t);
    ReportCases(w, tid, t, choice, m);
    hide TaskInv, OwnInv, OutcomeInv, Earned, Mine, GateForPayload, CommitLegacy, CommitGated, QueryAnswered, AskedBy, Behind,
         SentOwn, LogOwn, WireOk, StepAwaitingReport;
    var AwaitingReport(attempt, before, query) := t.phase;
    var b := w.bridge;
    var r := StepAwaitingReport(w, tid, t, choice);
    AnsweredNow(b, tid, query, m);
    PlainlyEarned(b, tid, t, GateStateUnavailable);
    if m.ReportsFailure() {
      QueryFailed(b, tid, t, m);
      Concludes(b, tid, t, r.task.phase.outcome);
    } else if m.report.Some? && m.report.value.SupportsGates() {
      GatedEarns(w, tid, t, attempt, before, query, m);
    } else if m.report.None? || before.AdvertisesGates() || before.support == Gated {
      Concludes(b, tid, t, GateStateUnavailable);
    } else {
      LegacyEarns(w, tid, t, attempt, before, query);
    }
  }

  lemma AnsweredNow(b: B.State, tid: nat, query: nat, m: B.Message)
    requires AskedBy(b, tid, query) && Behind(Mine(b.frames, tid), query) && query in b.closed && b.closed[query].Answered?
    requires m == b.closed[query].message
    ensures QueryAnswered(b, tid, Mine(b.frames, tid), m)
  {
    hide AskedBy, Behind, Mine;
    assert ReplyTo(b, query) == Some(m);
  }

  // --- Writes and their replies ----------------------------------------------------------------

  /** What is known of the write a dispatch awaits the reply to. */
  ghost predicate Awaits(b: B.State, tid: nat, t: Task) {
    var frames := Mine(b.frames, tid);
    && t.phase.AwaitingReply? && frames != []
    && frames[|frames| - 1].waiter == t.phase.request && frames[|frames| - 1].content.payload == t.payload
    && (t.phase.attempt == First <==> |frames| == 1) && |frames| <= 2 && (t.phase.attempt == First ==> |t.log| == 1)
    && t.protocol.Some? && Fits(t) && Speaks(b, t.protocol.value, frames[|frames| - 1])
  }

  lemma AwaitedWrite(b: B.State, tid: nat, t: Task)
    requires TaskInv(b, tid, t) && OwnInv(b, tid, t) && t.phase.AwaitingReply?
    ensures Awaits(b, tid, t)
  {
    hide SentOk, PhaseOk, ProtocolOk, Mine, RefusedBy, RejectedBy, SameTarget, SentOwn, PhaseOwn, LogOwn, Speaks, Fits;
    var frames := Mine(b.frames, tid);
    assert frames[|frames| - 1] in frames;
  }

  /** A reply that closed a write is one to its request. */
  lemma ReplyAnswers(b: B.State, tid: nat, t: Task)
    requires I.ClosedOk(b) && Awaits(b, tid, t) && t.phase.request in b.closed && b.closed[t.phase.request].Answered?
    ensures var frames := Mine(b.frames, tid); Answers(t.request, frames[|frames| - 1], b.closed[t.phase.request].message)
  {
    hide Mine, B.Heard;
    assert I.ClosingOk(b, t.phase.request, b.closed[t.phase.request]);
  }

  lemma SuccessEarned(b: B.State, tid: nat, t: Task)
    requires I.ClosedOk(b) && Awaits(b, tid, t) && t.phase.request in b.closed && b.closed[t.phase.request].Answered?
    requires !b.closed[t.phase.request].message.ReportsFailure()
    ensures Earned(b, tid, t, Succeeded)
  {
    ReplyAnswers(b, tid, t);
    hide Mine, Answers, I.ClosedOk, Speaks, Fits;
    var m := b.closed[t.phase.request].message;
    assert WriteAnswered(b, Mine(b.frames, tid), m) && !Failing(m);
  }

  lemma FailureEarned(b: B.State, tid: nat, t: Task)
    requires Awaits(b, tid, t) && t.phase.request in b.closed && b.closed[t.phase.request].Answered?
    requires b.closed[t.phase.request].message.ReportsFailure()
    ensures var m := b.closed[t.phase.request].message;
            && (m.paused ==> Earned(b, tid, t, Paused))
            && (!m.paused && Final(t.request, Mine(b.frames, tid), m) ==> Earned(b, tid, t, ActionFailed))
  {
    hide Mine, Final, QueryAnswered, Speaks, Fits;
    var m := b.closed[t.phase.request].message;
    assert WriteAnswered(b, Mine(b.frames, tid), m) && Failing(m);
  }

  /** Which failing replies a dispatch leaves it at. */
  lemma FinalReply(b: B.State, tid: nat, t: Task, m: B.Message)
    requires Awaits(b, tid, t)
    ensures Final(t.request, Mine(b.frames, tid), m) <==>
              t.phase.attempt != First || t.protocol.value.ByAction? || m.error.None?
              || (!m.error.value.transient && !(m.error.value.stale && t.payload.instance.Some?))
  {
    hide Mine, Speaks;
  }

  /** The refusal of the first write begins a retry or a probe. */
  lemma Turns(b: B.State, tid: nat, t: Task, t': Task)
    requires Awaits(b, tid, t) && t.phase.attempt == First && t.phase.request in b.closed && b.closed[t.phase.request].Answered?
    requires var m := b.closed[t.phase.request].message;
             || (t'.phase == Checking(AfterTransient) && Transient(m))
             || (t.payload.instance.Some? && t'.phase == Probing(t.payload.instance.value) && Stale(m))
    requires t' == t.(phase := t'.phase, log := t.log + [Refused(t.phase.request)])
    ensures OutcomeInv(b, tid, t')
  {
    hide Mine, Speaks, Fits, Transient, Stale;
  }

  lemma AnsweredEarns(w: World, tid: nat, t: Task, choice: Choice)
    requires I.ClosedOk(w.bridge) && Awaits(w.bridge, tid, t) && OutcomeInv(w.bridge, tid, t)
    requires t.phase.request in w.bridge.closed && w.bridge.closed[t.phase.request].Answered?
    ensures var m := StepAwaitingReply(w, tid, t, choice); m.world.bridge == w.bridge && OutcomeInv(w.bridge, tid, m.task)
  {
    var b, m := w.bridge, w.bridge.closed[t.phase.request].message;
    AwaitsProtocol(b, tid, t);
    if !m.ReportsFailure() {
      SuccessReply(w, tid, t, choice, m);
      hide I.ClosedOk, OutcomeInv, Earned, Awaits, StepAwaitingReply;
      SuccessEarned(b, tid, t);
      Concludes(b, tid, t, Succeeded);
    } else {
      FailedReply(w, tid, t, choice, m);
      hide I.ClosedOk, OutcomeInv, Earned, Awaits, StepAwaitingReply, Final, Transient, Stale;
      FailureEarned(b, tid, t);
      FinalReply(b, tid, t, m);
      var t' := StepAwaitingReply(w, tid, t, choice).task;
      if t'.phase.Done? {
        Concludes(b, tid, t, t'.phase.outcome);
      } else {
        Turns(b, tid, t, t');
      }
    }
  }

  lemma SuccessReply(w: World, tid: nat, t: Task, choice: Choice, m: B.Message)
    requires t.phase.AwaitingReply? && t.phase.request in w.bridge.closed
    requires w.bridge.closed[t.phase.request].Answered? && w.bridge.closed[t.phase.request].message == m && !m.ReportsFailure()
    ensures var r := StepAwaitingReply(w, tid, t, choice); r.world.bridge == w.bridge && r.task == t.(phase := Done(Succeeded))
  {
    hide Verified;
  }

  lemma ReplyEarns(w: World, tid: nat, t: Task, choice: Choice)
    requires I.Inv(w.bridge) && TaskInv(w.bridge, tid, t) && OwnInv(w.bridge, tid, t) && t.phase.AwaitingReply?
    requires OutcomeInv(w.bridge, tid, t)
    requires var m := StepAwaitingReply(w, tid, t, choice); OutcomeInv(m.world.bridge, tid, t)
    ensures var m := StepAwaitingReply(w, tid, t, choice); OutcomeInv(m.world.bridge, tid, m.task)
  {
    AwaitedWrite(w.bridge, tid, t);
    InvClosed(w.bridge);
    hide I.Inv, I.ClosedOk, TaskInv, OwnInv, OutcomeInv, Earned, Mine, Awaits;
    var b := w.bridge;
    if t.phase.request in b.closed && b.closed[t.phase.request].Answered? {
      AnsweredEarns(w, tid, t, choice);
    } else {
      UnansweredReply(w, tid, t, choice);
      hide StepAwaitingReply;
      if t.phase.request !in b.closed {
        AbandonedEarned(b, tid, t);
        if choice.TimeOut? {
          Concludes(B.Abandon(b, t.phase.request), tid, t, TimedOut);
        }
      } else {
        PlainlyEarned(b, tid, t, Disconnected);
        Concludes(b, tid, t, Disconnected);
      }
    }
  }

  lemma UnansweredReply(w: World, tid: nat, t: Task, choice: Choice)
    requires t.phase.AwaitingReply? && !(t.phase.request in w.bridge.closed && w.bridge.closed[t.phase.request].Answered?)
    ensures var r := StepAwaitingReply(w, tid, t, choice);
            if t.phase.request in w.bridge.closed then r.world.bridge == w.bridge && r.task == t.(phase := Done(Disconnected))
            else if choice.TimeOut? then r.world.bridge == B.Abandon(w.bridge, t.phase.request) && r.task == t.(phase := Done(TimedOut))
            else r == Moved(w, t)
  {
    hide Verified;
  }

  lemma AwaitsProtocol(b: B.State, tid: nat, t: Task)
    requires Awaits(b, tid, t)
    ensures t.protocol.Some?
  {
    hide Mine, Speaks, Fits;
  }

  lemma AbandonedEarned(b: B.State, tid: nat, t: Task)
    requires Awaits(b, tid, t)
    ensures Earned(B.Abandon(b, t.phase.request), tid, t, TimedOut)
  {
    hide Mine, Speaks, Fits, WaitGivenUp;
  }

  /** What a failing reply leads to, told by the message. */
  lemma FailedReply(w: World, tid: nat, t: Task, choice: Choice, m: B.Message)
    requires t.phase.AwaitingReply? && t.protocol.Some? && t.phase.request in w.bridge.closed
    requires w.bridge.closed[t.phase.request].Answered? && w.bridge.closed[t.phase.request].message == m && m.ReportsFailure()
    ensures var r := StepAwaitingReply(w, tid, t, choice);
            var leftAt := t.phase.attempt != First || t.protocol.value.ByAction? || m.error.None?
                          || (!m.error.value.transient && !(m.error.value.stale && t.payload.instance.Some?));
            && r.world.bridge == w.bridge
            && (if m.paused then r.task == t.(phase := Done(Paused))
                else if leftAt then r.task == t.(phase := Done(ActionFailed))
                else if Transient(m) then
                  r.task == t.(phase := Checking(AfterTransient), log := t.log + [Refused(t.phase.request)])
                else Stale(m) && t.payload.instance.Some?
                     && r.task == t.(phase := Probing(t.payload.instance.value), log := t.log + [Refused(t.phase.request)]))
  {
    hide Verified;
  }

  lemma WriteEarns(b: B.State, tid: nat, t: Task)
    requires I.Inv(b) && TaskInv(b, tid, t) && OutcomeInv(b, tid, t) && t.phase.Sending? && t.protocol.Some? && b.conn.Some?
    ensures OutcomeInv(B.Enqueue(b, AskFor(tid, t)), tid, Written(t, |b.registered|))
  {
    WritesSoFar(b, tid, t);
    WrittenKinds(t, |b.registered|);
    AsksForAction(tid, t);
    hide I.Inv, I.Later, TaskInv, BridgeKeeps, Mine, Earned, B.Enqueue, AskFor, ReplyTo, Written, OnRetry, OnRefresh, FirstRefused, GatedOk;
    var b', frames := B.Enqueue(b, AskFor(tid, t)), Mine(b.frames, tid);
    WriteMoves(b, AskFor(tid, t), tid);
    KeepsIsLater(b, b', tid);
    var f: ActionFrame := B.Frame(b.conn.value, |b.registered|, AskFor(tid, t).Id(|b.registered|), AskFor(tid, t).Content());
    RefusalStays(b, b', frames, f);
  }

  lemma RefusalStays(b: B.State, b': B.State, frames: seq<ActionFrame>, f: ActionFrame)
    requires I.Later(b, b')
    ensures forall transient :: FirstRefused(b, frames, transient) ==> FirstRefused(b', frames + [f], transient)
  {
    RepliesStay(b, b');
    hide I.Later, ReplyTo, Transient, Stale;
  }

  lemma WrittenKinds(t: Task, request: nat)
    requires t.phase.Sending?
    requires t.phase.attempt == First ==> t.log == []
    requires t.phase.attempt == AfterTransient ==> |t.log| == 2
    requires t.phase.attempt == AfterRefresh ==> |t.log| == 4 && t.log[2].ProbeRejected?
    ensures OnRetry(Written(t, request)) ==> OnRetry(t)
    ensures OnRefresh(Written(t, request)) ==> OnRefresh(t)
    ensures GatedOk(Written(t, request)) && !Written(t, request).phase.Done?
  {
  }

  /** What is on record when a task is about to write. */
  lemma WritesSoFar(b: B.State, tid: nat, t: Task)
    requires TaskInv(b, tid, t) && t.phase.Sending?
    ensures t.phase.attempt == First ==> t.log == []
    ensures t.phase.attempt != First ==> |Mine(b.frames, tid)| == 1
    ensures t.phase.attempt == AfterTransient ==> |t.log| == 2
    ensures t.phase.attempt == AfterRefresh ==> |t.log| == 4 && t.log[2].ProbeRejected?
  {
    hide SentOk, PhaseOk, ProtocolOk, Mine, RefusedBy, RejectedBy, SameTarget;
  }

  lemma SendingEarns(w: World, tid: nat, t: Task, choice: Choice)
    requires I.Inv(w.bridge) && TaskInv(w.bridge, tid, t) && OutcomeInv(w.bridge, tid, t) && t.phase.Sending?
    ensures var m := StepSending(w, tid, t, choice); OutcomeInv(m.world.bridge, tid, m.task)
  {
    SendingCases(w, tid, t, choice);
    if StepSending(w, tid, t, choice).task.phase.Done? {
      SendingOutcome(w, tid, t, choice);
    }
    hide I.Inv, TaskInv, OutcomeInv, StepSending, B.Enqueue, B.EnqueueRefused, AskFor, Written, Earned, Quiet;
    var b, m := w.bridge, StepSending(w, tid, t, choice);
    if m.task.phase.Done? {
      if m.world.bridge == b {
        NothingMoves(b, tid);
      } else {
        RefusedQuiet(b, AskFor(tid, t), tid);
      }
      QuietParts(b, m.world.bridge, tid);
      OutcomeStays(b, m.world.bridge, tid, t);
      PlainlyEarned(m.world.bridge, tid, t, m.task.phase.outcome);
      Concludes(m.world.bridge, tid, t, m.task.phase.outcome);
    } else {
      WriteEarns(b, tid, t);
    }
  }

  lemma SendingOutcome(w: World, tid: nat, t: Task, choice: Choice)
    requires t.phase.Sending? && StepSending(w, tid, t, choice).task.phase.Done?
    ensures var outcome := StepSending(w, tid, t, choice).task.phase.outcome;
            || outcome == NotConnected || outcome == Disconnected
            || (outcome == GateStateUnavailable && t.protocol.Some? && t.protocol.value.Legacy?)
  {
    hide TryEnqueue, AskFor;
  }

  // --- Probes and fresh sessions ------------------------------------------------------------------

  lemma ProbingCases(w: World, tid: nat, t: Task, choice: Choice)
    requires t.phase.Probing?
    ensures var t' := StepProbing(w, tid, t, choice).task;
            t' == t.(phase := Done(ProbeFailed)) || t' == t.(phase := AwaitingProbe(t.phase.session, |w.bridge.registered|))
  {
    hide TryEnqueue;
  }

  lemma ProbingEarns(w: World, tid: nat, t: Task, choice: Choice)
    requires TaskInv(w.bridge, tid, t) && t.phase.Probing?
    requires var m := StepProbing(w, tid, t, choice);
             OutcomeInv(m.world.bridge, tid, t) && Mine(m.world.bridge.frames, tid) == Mine(w.bridge.frames, tid)
    ensures var m := StepProbing(w, tid, t, choice); OutcomeInv(m.world.bridge, tid, m.task)
  {
    OneFrame(w.bridge, tid, t);
    ProbingCases(w, tid, t, choice);
    hide TaskInv, OutcomeInv, Earned, Mine, StepProbing;
    var m := StepProbing(w, tid, t, choice);
    if m.task.phase.Done? {
      ProbeFailedEarned(m.world.bridge, tid, t);
      Concludes(m.world.bridge, tid, t, ProbeFailed);
    } else {
      Proceeds(m.world.bridge, tid, t, m.task);
    }
  }

  lemma OneFrame(b: B.State, tid: nat, t: Task)
    requires TaskInv(b, tid, t)
    ensures t.phase.Probing? || t.phase.AwaitingProbe? || t.phase.AwaitingToken? ==>
              |Mine(b.frames, tid)| == 1
    ensures t.phase.Probing? || t.phase.AwaitingProbe? || t.phase.AwaitingToken? ==>
              Mine(b.frames, tid)[0].content.payload.instance == Some(t.phase.session)
    ensures t.phase.AwaitingToken? ==> |t.log| == 4 && t.log[3] == Evicted(t.phase.session.url.origin)
    ensures t.phase.AwaitingToken? ==>
              t.phase.waiter < |b.registered| && b.registered[t.phase.waiter].matcher == B.Session(t.phase.session.url.origin)
  {
    hide SentOk, ProtocolOk, Mine, RefusedBy, RejectedBy, SameTarget;
  }

  lemma ProbeFailedEarned(b: B.State, tid: nat, t: Task)
    requires OutcomeInv(b, tid, t) && |Mine(b.frames, tid)| == 1 && (t.phase.Probing? || t.phase.AwaitingProbe?)
    ensures Earned(b, tid, t, ProbeFailed)
  {
    hide Mine, FirstRefused;
  }

  lemma AccessDeniedEarned(b: B.State, tid: nat, t: Task)
    requires OutcomeInv(b, tid, t) && t.phase.AwaitingProbe? && ProbedBy(b, tid, t.phase.session, t.phase.probe)
    requires |Mine(b.frames, tid)| == 1 && Mine(b.frames, tid)[0].content.payload.instance == Some(t.phase.session)
    requires ReplyTo(b, t.phase.probe).Some? && !Failing(ReplyTo(b, t.phase.probe).value)
    ensures Earned(b, tid, t, AccessDenied)
  {
    hide Mine, FirstRefused, ProbedBy, ReplyTo, Failing;
  }

  /** What becomes of a probe, told by its closing. */
  lemma ProbeCases(w: World, tid: nat, t: Task, choice: Choice)
    requires t.phase.AwaitingProbe?
    ensures var AwaitingProbe(session, probe) := t.phase;
            var r := StepAwaitingProbe(w, tid, t, choice);
            if ReplyTo(w.bridge, probe).Some? then
              var m := ReplyTo(w.bridge, probe).value;
              && r.world.bridge == w.bridge
              && r.task == if !Failing(m) then t.(phase := Done(AccessDenied))
                           else if Rejects(m) then t.(phase := Evicting(session), log := t.log + [ProbeRejected(probe)])
                           else t.(phase := Done(ProbeFailed))
            else if probe in w.bridge.closed || choice.TimeOut? then r.task == t.(phase := Done(ProbeFailed))
            else r == Moved(w, t)
  {
    hide B.Abandon;
  }

  lemma VerdictEarns(w: World, tid: nat, t: Task, choice: Choice)
    requires TaskInv(w.bridge, tid, t) && OwnInv(w.bridge, tid, t) && OutcomeInv(w.bridge, tid, t) && t.phase.AwaitingProbe?
    requires var m := StepAwaitingProbe(w, tid, t, choice);
             OutcomeInv(m.world.bridge, tid, t) && Mine(m.world.bridge.frames, tid) == Mine(w.bridge.frames, tid)
    ensures var m := StepAwaitingProbe(w, tid, t, choice); OutcomeInv(m.world.bridge, tid, m.task)
  {
    OneFrame(w.bridge, tid, t);
    OwnProbe(w.bridge, tid, t);
    RecordedSoFar(w.bridge, tid, t);
    ProbeCases(w, tid, t, choice);
    hide TaskInv, OwnInv, OutcomeInv, Earned, Mine, ProbedBy, Rejects, StepAwaitingProbe;
    var m := StepAwaitingProbe(w, tid, t, choice);
    if m.task.phase.Done? {
      if m.task.phase.outcome == AccessDenied {
        AccessDeniedEarned(w.bridge, tid, t);
      } else {
        ProbeFailedEarned(m.world.bridge, tid, t);
      }
      Concludes(m.world.bridge, tid, t, m.task.phase.outcome);
    } else if m.task != t {
      ProbeProceeds(t);
      Proceeds(m.world.bridge, tid, t, m.task);
    }
  }

  lemma ProbeProceeds(t: Task)
    requires t.phase.AwaitingProbe? && |t.log| == 2
    ensures var t' := t.(phase := Evicting(t.phase.session), log := t.log + [ProbeRejected(t.phase.probe)]);
            GatedOk(t') && (OnRetry(t') ==> OnRetry(t)) && (OnRefresh(t') ==> OnRefresh(t))
  {
  }

  lemma OwnProbe(b: B.State, tid: nat, t: Task)
    requires OwnInv(b, tid, t) && t.phase.AwaitingProbe?
    ensures ProbedBy(b, tid, t.phase.session, t.phase.probe)
  {
    hide SentOwn, LogOwn, WireOk, Mine, ProbedBy;
  }

  lemma EvictionEarns(w: World, tid: nat, t: Task, choice: Choice)
    requires TaskInv(w.bridge, tid, t) && OutcomeInv(w.bridge, tid, t) && t.phase.Evicting?
    ensures OutcomeInv(w.bridge, tid, StepEvicting(w, t, choice).task)
  {
    RecordedSoFar(w.bridge, tid, t);
    hide TaskInv, OutcomeInv, Mine, S.ClearOrigin;
    Proceeds(w.bridge, tid, t, StepEvicting(w, t, choice).task);
  }

  lemma PromptEarns(w: World, tid: nat, t: Task)
    requires t.phase.Prompting?
    requires var m := StepPrompting(w, t); OutcomeInv(m.world.bridge, tid, t)
    ensures var m := StepPrompting(w, t); OutcomeInv(m.world.bridge, tid, m.task)
  {
    hide OutcomeInv, B.AwaitSession;
    Proceeds(StepPrompting(w, t).world.bridge, tid, t, StepPrompting(w, t).task);
  }

  lemma GivenUpEarned(b: B.State, tid: nat, t: Task)
    requires t.phase.AwaitingToken? && |t.log| == 4 && t.log[3] == Evicted(t.phase.session.url.origin)
    requires t.phase.waiter < |b.registered| && b.registered[t.phase.waiter].matcher == B.Session(t.phase.session.url.origin)
    ensures Earned(B.Abandon(b, t.phase.waiter), tid, t, TimedOut)
  {
    hide Mine;
    assert t.phase.waiter in B.Abandon(b, t.phase.waiter).abandoned;
  }

  /** What becomes of a wait for a fresh session, told by its closing. */
  lemma TokenCases(w: World, tid: nat, t: Task, choice: Choice)
    requires t.phase.AwaitingToken?
    ensures var waiter := t.phase.waiter;
            var r := StepAwaitingToken(w, tid, t, choice);
            if ReplyTo(w.bridge, waiter).Some? && ReplyTo(w.bridge, waiter).value.instance.Some? then
              var renewed := ReplyTo(w.bridge, waiter).value.instance.value;
              && r.world == w.(cache := S.Remember(w.cache, renewed, choice.now))
              && r.task == t.(payload := t.payload.(instance := Some(renewed)), phase := Checking(AfterRefresh))
            else if waiter in w.bridge.closed then r.world.bridge == w.bridge && r.task == t.(phase := Done(Disconnected))
            else if choice.TimeOut? then
              r.world.bridge == B.Abandon(w.bridge, waiter) && r.task == t.(phase := Done(TimedOut))
            else if choice.NoHelper? then r.task == t.(phase := Done(NotConnected))
            else r == Moved(w, t)
  {
    hide S.Remember, B.Abandon;
  }

  lemma TokenProceeds(t: Task, t': Task)
    requires t.phase.AwaitingToken? && t'.phase == Checking(AfterRefresh) && t'.log == t.log
    ensures GatedOk(t') && (OnRetry(t') ==> OnRetry(t)) && (OnRefresh(t') ==> OnRefresh(t))
  {
  }

  lemma TokenEarns(w: World, tid: nat, t: Task, choice: Choice)
    requires TaskInv(w.bridge, tid, t) && t.phase.AwaitingToken?
    requires var m := StepAwaitingToken(w, tid, t, choice); OutcomeInv(m.world.bridge, tid, t)
    ensures var m := StepAwaitingToken(w, tid, t, choice); OutcomeInv(m.world.bridge, tid, m.task)
  {
    OneFrame(w.bridge, tid, t);
    TokenCases(w, tid, t, choice);
    hide TaskInv, OutcomeInv, Earned, Mine, S.Remember, B.Abandon, StepAwaitingToken, ReplyTo;
    var m := StepAwaitingToken(w, tid, t, choice);
    if m.task.phase.Done? {
      if m.task.phase.outcome == TimedOut {
        GivenUpEarned(w.bridge, tid, t);
      } else {
        PlainlyEarned(m.world.bridge, tid, t, m.task.phase.outcome);
      }
      Concludes(m.world.bridge, tid, t, m.task.phase.outcome);
    } else if m.task != t {
      TokenProceeds(t, m.task);
      Proceeds(m.world.bridge, tid, t, m.task);
    }
  }

  lemma QueueEarns(w: World, tid: nat, t: Task)
    requires OutcomeInv(w.bridge, tid, t)
    ensures t.phase.Queued? ==> OutcomeInv(w.bridge, tid, StepQueued(w, tid, t).task)
    ensures t.phase.Refreshing? ==> OutcomeInv(w.bridge, tid, StepRefreshing(w, t).task)
  {
    hide OutcomeInv;
    if t.phase.Queued? {
      Proceeds(w.bridge, tid, t, StepQueued(w, tid, t).task);
    } else if t.phase.Refreshing? {
      Proceeds(w.bridge, tid, t, StepRefreshing(w, t).task);
    }
  }

  // --- Every phase, every run ---------------------------------------------------------------------------

  lemma QuietEarns(w: World, tid: nat, t: Task, choice: Choice)
    requires I.Inv(w.bridge) && TaskInv(w.bridge, tid, t) && OwnInv(w.bridge, tid, t) && OutcomeInv(w.bridge, tid, t)
    requires !t.phase.Sending?
    requires var m := StepTask(w, tid, t, choice);
             OutcomeInv(m.world.bridge, tid, t) && Mine(m.world.bridge.frames, tid) == Mine(w.bridge.frames, tid)
    ensures var m := StepTask(w, tid, t, choice); OutcomeInv(m.world.bridge, tid, m.task)
  {
    hide I.Inv, TaskInv, OwnInv, OutcomeInv, Mine, CommitLegacy, StepChecking, StepQuerying, StepAwaitingReport,
         StepReportTimedOut, StepQueued, StepRefreshing, StepSending, StepAwaitingReply, StepProbing, StepAwaitingProbe,
         StepEvicting, StepPrompting, StepAwaitingToken;
    LocalBridge(w, tid, t, choice);
    match t.phase
    case Checking(_) =>
      CheckingBridge(w, tid, t, choice);
      CheckingEarns(w, tid, t, choice);
    case Querying(_, _) => QueryingEarns(w, tid, t, choice);
    case AwaitingReport(_, _, _) => ReportEarns(w, tid, t, choice);
    case ReportTimedOut(_, _, _) => SilenceEarns(w, tid, t);
    case ConfirmingSilence(attempt, before, query) => LegacyEarns(w, tid, t, attempt, before, query);
    case Queued(_) => QueueEarns(w, tid, t);
    case Refreshing(_) => QueueEarns(w, tid, t);
    case AwaitingReply(_, _) => ReplyEarns(w, tid, t, choice);
    case Probing(_) => ProbingEarns(w, tid, t, choice);
    case AwaitingProbe(_, _) => VerdictEarns(w, tid, t, choice);
    case Evicting(_) => EvictionEarns(w, tid, t, choice);
    case Prompting(_) => PromptEarns(w, tid, t);
    case AwaitingToken(_, _) => TokenEarns(w, tid, t, choice);
    case Done(_) =>
  }

  lemma CheckingBridge(w: World, tid: nat, t: Task, choice: Choice)
    requires t.phase.Checking?
    ensures StepChecking(w, tid, t, choice).world.bridge == w.bridge
  {
    hide GateForPayload;
  }

  lemma TaskEarns(w: World, tid: nat, t: Task, choice: Choice)
    requires I.Inv(w.bridge) && TaskInv(w.bridge, tid, t) && OwnInv(w.bridge, tid, t) && OutcomeInv(w.bridge, tid, t)
    ensures var m := StepTask(w, tid, t, choice); OutcomeInv(m.world.bridge, tid, m.task)
  {
    hide I.Inv, I.Later, TaskInv, OwnInv, OutcomeInv, Mine, StepTask, BridgeKeeps;
    if t.phase.Sending? {
      SendingIsStep(w, tid, t, choice);
      SendingEarns(w, tid, t, choice);
    } else {
      var m := StepTask(w, tid, t, choice);
      TaskKeeps(w, tid, t, choice);
      KeepsIsLater(w.bridge, m.world.bridge, tid);
      WritesOnlyWhenSending(w, tid, t, choice);
      OutcomeStays(w.bridge, m.world.bridge, tid, t);
      QuietEarns(w, tid, t, choice);
    }
  }

  ghost predicate SystemEarns(s: System) {
    forall tid :: tid in s.tasks ==> OutcomeInv(s.world.bridge, tid, s.tasks[tid])
  }

  lemma RunEarns(s: System, tid: nat, choice: Choice)
    requires SystemInv(s) && SystemOwns(s) && SystemEarns(s) && tid in s.tasks
    ensures var m := StepTask(s.world, tid, s.tasks[tid], choice); SystemEarns(System(m.world, s.tasks[tid := m.task], choice.now))
  {
    hide I.Inv, I.Later, TaskInv, OwnInv, OutcomeInv, StepTask, BridgeKeeps, Mine;
    var m := StepTask(s.world, tid, s.tasks[tid], choice);
    TaskEarns(s.world, tid, s.tasks[tid], choice);
    TaskKeeps(s.world, tid, s.tasks[tid], choice);
    KeepsIsLater(s.world.bridge, m.world.bridge, tid);
    forall other | other in s.tasks && other != tid ensures OutcomeInv(m.world.bridge, other, s.tasks[other]) {
      OthersMine(s.world.bridge, m.world.bridge, tid, other);
      OutcomeStays(s.world.bridge, m.world.bridge, other, s.tasks[other]);
    }
  }

  lemma BridgeStepEarns(s: System, step: B.Step)
    requires SystemInv(s) && SystemEarns(s) && Ambient(step) && B.Enabled(s.world.bridge, step)
    ensures SystemEarns(s.(world := s.world.(bridge := B.Apply(s.world.bridge, step))))
  {
    hide I.Inv, I.Later, TaskInv, OutcomeInv, B.Enabled, B.Apply, Ambient, Mine;
    forall tid | tid in s.tasks ensures OutcomeInv(B.Apply(s.world.bridge, step), tid, s.tasks[tid]) {
      AmbientQuiet(s.world.bridge, step, tid);
      QuietParts(s.world.bridge, B.Apply(s.world.bridge, step), tid);
      OutcomeStays(s.world.bridge, B.Apply(s.world.bridge, step), tid, s.tasks[tid]);
    }
  }

  lemma NewTaskEarns(b: B.State, tid: nat, request: Request)
    ensures OutcomeInv(b, tid, NewTask(request))
  {
    hide Mine, FirstRefused;
  }

  lemma SystemEarnsOn(s: System, step: SystemStep, s': System)
    requires SystemInv(s) && SystemOwns(s) && SystemEarns(s) && SystemNext(s, step, s')
    ensures SystemEarns(s')
  {
    hide SystemInv, SystemOwns, StepTask, OutcomeInv, B.Apply, B.Enabled, Ambient;
    match step
    case Accept(tid, request) => NewTaskEarns(s.world.bridge, tid, request);
    case Run(tid, choice) => RunEarns(s, tid, choice);
    case Bridge(step) => BridgeStepEarns(s, step);
    case Client(call) =>
  }

  lemma {:induction false} ReachableEarns(run: seq<System>, steps: seq<SystemStep>, k: nat)
    requires IsRun(run, steps) && k < |run|
    ensures SystemInv(run[k]) && SystemOwns(run[k]) && SystemEarns(run[k])
  {
    hide SystemInv, SystemOwns, SystemNext, OutcomeInv;
    ReachableOwns(run, steps, k);
    if k == 0 {
    } else {
      ReachableEarns(run, steps, k - 1);
      SystemEarnsOn(run[k - 1], steps[k - 1], run[k]);
    }
  }

  /** In every run, the answer a dispatch gives its client has its cause on record. Success: the
    * helper answered the last write, with a reply to this very request, that reports no
    * failure. A failed action: a reply to the last write, or to a capability query of this
    * dispatch, reports a failure that is neither retried nor probed. Paused: such a reply
    * says so. Timed out: the last write, or the wait for a fresh session of the evicted
    * origin, was given up. Access denied: the first write was refused as stale and a probe of
    * its session by this dispatch was accepted. A gate refused: a report that answered this
    * dispatch's query does not list the origin, or has the gate off. */
  lemma OutcomesAreEarned(run: seq<System>, steps: seq<SystemStep>, k: nat, tid: nat)
    requires IsRun(run, steps) && k < |run| && tid in run[k].tasks && run[k].tasks[tid].phase.Done?
    ensures Earned(run[k].world.bridge, tid, run[k].tasks[tid], run[k].tasks[tid].phase.outcome)
  {
    hide SystemInv, SystemOwns, IsRun, Earned, KindOk;
    ReachableEarns(run, steps, k);
  }

  /** A second write without an eviction repeats an action that failed transiently; a session
    * is probed, and evicted, only for an action that was refused as stale. */
  lemma RetriesAreEarned(run: seq<System>, steps: seq<SystemStep>, k: nat, tid: nat)
    requires IsRun(run, steps) && k < |run| && tid in run[k].tasks
    ensures var b, log := run[k].world.bridge, run[k].tasks[tid].log;
            && (|log| >= 3 && log[2].Wrote? ==> FirstRefused(b, Mine(b.frames, tid), true))
            && (|log| >= 3 && log[2].ProbeRejected? ==> FirstRefused(b, Mine(b.frames, tid), false))
  {
    hide SystemInv, SystemOwns, IsRun, Earned, FirstRefused;
    ReachableEarns(run, steps, k);
  }

  /** Once the write a dispatch awaits was answered, its next move is decided by the reply:
    * success exactly when it reports no failure, and otherwise a pause, a retry of a transient
    * first failure, a probe after a stale one, or the failure itself. */
  lemma RepliesDecide(run: seq<System>, steps: seq<SystemStep>, k: nat, tid: nat, m: B.Message)
    requires IsRun(run, steps) && k + 1 < |run| && steps[k].Run? && steps[k].tid == tid && tid in run[k].tasks
    requires run[k].tasks[tid].phase.AwaitingReply? && ReplyTo(run[k].world.bridge, run[k].tasks[tid].phase.request) == Some(m)
    ensures tid in run[k + 1].tasks
    ensures var t, phase := run[k].tasks[tid], run[k + 1].tasks[tid].phase;
            var again := t.phase.attempt == First && !t.request.SendActionForAction?;
            && (phase == Done(Succeeded) <==> !Failing(m))
            && (phase == Done(Paused) <==> Failing(m) && m.paused)
            && (phase == Checking(AfterTransient) <==> again && Transient(m))
            && (forall session :: phase == Probing(session) <==> again && Stale(m) && t.payload.instance == Some(session))
            && (phase == Done(ActionFailed) <==>
                  Failing(m) && !m.paused && !(again && (Transient(m) || (Stale(m) && t.payload.instance.Some?))))
  {
    ReachableOwns(run, steps, k);
    assert SystemNext(run[k + 1 - 1], steps[k + 1 - 1], run[k + 1]);
    var s, t := run[k], run[k].tasks[tid];
    TaskOf(s, tid);
    OwnerOwns(s, tid);
    ReplyStep(s.world, tid, t, steps[k].choice);
    ReplyDecides(s.world, tid, t, steps[k].choice, m);
    hide *;
  }

  lemma ReplyStep(w: World, tid: nat, t: Task, choice: Choice)
    requires t.phase.AwaitingReply?
    ensures StepTask(w, tid, t, choice) == StepAwaitingReply(w, tid, t, choice)
  {
    hide StepAwaitingReply;
  }

  lemma ReplyDecides(w: World, tid: nat, t: Task, choice: Choice, m: B.Message)
    requires TaskInv(w.bridge, tid, t) && OwnInv(w.bridge, tid, t)
    requires t.phase.AwaitingReply? && ReplyTo(w.bridge, t.phase.request) == Some(m)
    ensures var phase := StepAwaitingReply(w, tid, t, choice).task.phase;
            var again := t.phase.attempt == First && !t.request.SendActionForAction?;
            && (phase == Done(Succeeded) <==> !Failing(m))
            && (phase == Done(Paused) <==> Failing(m) && m.paused)
            && (phase == Checking(AfterTransient) <==> again && Transient(m))
            && (forall session :: phase == Probing(session) <==> again && Stale(m) && t.payload.instance == Some(session))
            && (phase == Done(ActionFailed) <==>
                  Failing(m) && !m.paused && !(again && (Transient(m) || (Stale(m) && t.payload.instance.Some?))))
  {
    AwaitedWrite(w.bridge, tid, t);
    ProtocolKind(w.bridge, tid, t);
    hide OwnInv, TaskInv, Awaits;
    if m.ReportsFailure() {
      FailedReply(w, tid, t, choice, m);
    } else {
      SuccessReply(w, tid, t, choice, m);
    }
    hide StepAwaitingReply;
  }

  lemma ProtocolKind(b: B.State, tid: nat, t: Task)
    requires Awaits(b, tid, t)
    ensures t.protocol.Some? && (t.protocol.value.ByAction? <==> t.request.SendActionForAction?)
  {
    hide Mine, Speaks;
  }
}
