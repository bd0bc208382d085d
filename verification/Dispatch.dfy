/**
 * The broker's dispatch of action requests, as concurrent tasks over the bridge.
 * Each phase ends at a critical section or an await, so other tasks, the accept
 * loop and the readers may act between any two phases.
 */
module Dispatch {
  import opened Prelude
  import opened Gates
  import B = Bridge
  import S = SessionCache

  datatype Request =
    | SendAction(payload: Payload, id: string)
    | SendActionForAction(payload: Payload, expectedAction: string)
    | SendActionWithLegacyFallback(payload: Payload, id: string, legacy: Payload, legacyAction: string)

  /** How the action is sent; a fallback request chooses once, after its preflight. */
  datatype Protocol = Correlated(id: string) | ByAction(expected: string) | Legacy(expected: string)

  datatype Decision = NotGated | LegacyAllowed | ApprovalRequired | Automatic

  /** A passed preflight: the generation it binds to and the query behind it. */
  datatype Preflight = Preflight(payload: Payload, generation: Option<nat>, decision: Decision, query: nat)

  datatype Attempt = First | AfterTransient | AfterRefresh

  datatype Outcome =
    | Succeeded | NotConnected | Disconnected | TimedOut | Paused | ActionFailed
    | GateStateUnavailable | GateUnauthorized | GateBlocked | ProtocolChanged
    | AccessDenied | ProbeFailed

  datatype Phase =
    | Checking(attempt: Attempt)
    | Querying(attempt: Attempt, before: HelperStatus)
    | AwaitingReport(attempt: Attempt, before: HelperStatus, query: nat)
    | ReportTimedOut(attempt: Attempt, before: HelperStatus, query: nat)
    | ConfirmingSilence(attempt: Attempt, before: HelperStatus, query: nat)
    | Queued(preflight: Preflight)
    | Refreshing(preflight: Preflight)
    | Sending(attempt: Attempt, preflight: Preflight)
    | AwaitingReply(attempt: Attempt, request: nat)
    | Probing(session: SnuInstance)
    | AwaitingProbe(session: SnuInstance, probe: nat)
    | Evicting(session: SnuInstance)
    | Prompting(session: SnuInstance)
    | AwaitingToken(session: SnuInstance, waiter: nat)
    | Done(outcome: Outcome)

  /** What a task did and learned, in order. */
  datatype Event =
    | Wrote(request: nat)
    | Refused(request: nat)
    | ProbeRejected(probe: nat)
    | Evicted(origin: Option<Origin>)

  datatype Task = Task(
    request: Request,
    protocol: Option<Protocol>,
    payload: Payload,
    phase: Phase,
    sent: seq<Preflight>,
    log: seq<Event>)

  datatype World = World(bridge: B.State, cache: S.Cache, lock: Option<nat>)

  datatype Moved = Moved(world: World, task: Task)

  /** What the environment decides at a phase: let it proceed, end its wait, find
    * no helper tab or find the writer gone; and what time it is, and which session
    * would come next to be the latest. */
  datatype Choice =
    | Proceed(now: nat, pick: Option<Origin>)
    | TimeOut(now: nat, pick: Option<Origin>)
    | NoHelper(now: nat, pick: Option<Origin>)
    | WriterGone(now: nat, pick: Option<Origin>)

  function NewTask(request: Request): Task {
    var protocol := match request
      case SendAction(_, id) => Some(Correlated(id))
      case SendActionForAction(_, expected) => Some(ByAction(expected))
      case SendActionWithLegacyFallback(_, _, _, _) => None;
    Task(request, protocol, request.payload, Checking(First), [], [])
  }

  /** A finished task gives up the legacy lock it may hold. */
  function Finish(w: World, tid: nat, t: Task, outcome: Outcome): Moved {
    Moved(w.(lock := if w.lock == Some(tid) then None else w.lock), t.(phase := Done(outcome)))
  }

  function GoTo(w: World, t: Task, phase: Phase): Moved {
    Moved(w, t.(phase := phase))
  }

  // --- Preflight ------------------------------------------------------------

  /** Continue with a preflight that does not block the action. */
  function Pass(w: World, tid: nat, t: Task, attempt: Attempt, p: Preflight): Moved {
    if attempt == First && t.request.SendActionWithLegacyFallback? then
      if p.decision == LegacyAllowed then
        Moved(w, t.(protocol := Some(Legacy(t.request.legacyAction)), payload := t.request.legacy, phase := Queued(p)))
      else
        Moved(w, t.(protocol := Some(Correlated(t.request.id)), phase := Sending(First, p)))
    else if t.protocol.Some? && t.protocol.value.Legacy? && p.decision != LegacyAllowed then
      Finish(w, tid, t, ProtocolChanged)
    else
      GoTo(w, t, Sending(attempt, p))
  }

  function StepChecking(w: World, tid: nat, t: Task, choice: Choice): Moved
    requires t.phase.Checking?
  {
    if GateForPayload(t.payload).None? then
      Pass(w, tid, t, t.phase.attempt, Preflight(t.payload, None, NotGated, 0))
    else if choice.NoHelper? then
      Finish(w, tid, t, NotConnected)
    else
      GoTo(w, t, Querying(t.phase.attempt, w.bridge.status))
  }

  /** Enqueue on the installed connection, or leave the bridge as it is. */
  function TryEnqueue(b: B.State, ask: B.Ask, choice: Choice): (r: (B.State, bool))
  {
    if choice.NoHelper? || b.conn.None? then (b, false)
    else if choice.WriterGone? then (B.EnqueueRefused(b, ask), false)
    else (B.Enqueue(b, ask), true)
  }

  function StepQuerying(w: World, tid: nat, t: Task, choice: Choice): Moved
    requires t.phase.Querying?
  {
    var (b, sent) := TryEnqueue(w.bridge, B.AskCapabilities(Some(tid)), choice);
    if sent then
      GoTo(w.(bridge := b), t, AwaitingReport(t.phase.attempt, t.phase.before, |w.bridge.registered|))
    else
      Finish(w.(bridge := b), tid, t, QueryError(w, t.phase.before, if choice.NoHelper? then NotConnected else Disconnected))
  }

  /** A failed refresh of a helper known to advertise gates fails closed. */
  function QueryError(w: World, before: HelperStatus, error: Outcome): Outcome {
    if before.AdvertisesGates() || w.bridge.status.AdvertisesGates() then GateStateUnavailable else error
  }

  /** Classify the helper as legacy, unless it has shown gates in the meantime. */
  function CommitLegacy(w: World, tid: nat, t: Task, attempt: Attempt, before: HelperStatus, query: nat): Moved {
    var status := w.bridge.status;
    if status.generation != before.generation then Finish(w, tid, t, Disconnected)
    else if !B.MayTurnLegacy(status) then Finish(w, tid, t, GateStateUnavailable)
    else
      Pass(w.(bridge := B.CommitLegacy(w.bridge)), tid, t, attempt,
           Preflight(t.payload, Some(status.generation), LegacyAllowed, query))
  }

  /** Decide from the gates of this very report; an omitted origin is unauthorized. */
  function Judge(report: Report, payload: Payload): Result<Decision, Outcome> {
    var origin, gate := payload.TargetOrigin(), GateForPayload(payload);
    if origin.None? || gate.None? then Err(GateStateUnavailable)
    else if origin.value !in report.instanceGates then Err(GateUnauthorized)
    else
      match report.instanceGates[origin.value].gates.Mode(gate.value)
      case Off => Err(GateBlocked)
      case Approve => Ok(ApprovalRequired)
      case Auto => Ok(Automatic)
  }

  function CommitGated(w: World, tid: nat, t: Task, attempt: Attempt, before: HelperStatus, query: nat, report: Report): Moved {
    var generation := w.bridge.status.generation;
    if generation != before.generation then Finish(w, tid, t, Disconnected)
    else
      var w' := w.(bridge := B.CommitGated(w.bridge, report));
      match Judge(report, t.payload)
      case Err(outcome) => Finish(w', tid, t, outcome)
      case Ok(decision) => Pass(w', tid, t, attempt, Preflight(t.payload, Some(generation), decision, query))
  }

  function StepAwaitingReport(w: World, tid: nat, t: Task, choice: Choice): Moved
    requires t.phase.AwaitingReport?
  {
    var AwaitingReport(attempt, before, query) := t.phase;
    if query in w.bridge.closed then
      match w.bridge.closed[query]
      case Answered(m, _) =>
        if m.ReportsFailure() then
          Finish(w, tid, t, if m.paused then Paused else QueryError(w, before, ActionFailed))
        else if m.report.None? then
          Finish(w, tid, t, GateStateUnavailable)
        else if m.report.value.SupportsGates() then
          CommitGated(w, tid, t, attempt, before, query, m.report.value)
        else if before.AdvertisesGates() || before.support == Gated then
          Finish(w, tid, t, GateStateUnavailable)
        else
          CommitLegacy(w, tid, t, attempt, before, query)
      case _ => Finish(w, tid, t, QueryError(w, before, Disconnected))
    else if choice.TimeOut? then
      GoTo(w.(bridge := B.Abandon(w.bridge, query)), t, ReportTimedOut(attempt, before, query))
    else
      Moved(w, t)
  }

  function StepReportTimedOut(w: World, tid: nat, t: Task): Moved
    requires t.phase.ReportTimedOut?
  {
    var ReportTimedOut(attempt, before, query) := t.phase;
    var after := w.bridge.status;
    if after.generation != before.generation then Finish(w, tid, t, Disconnected)
    else if before.AdvertisesGates() || after.AdvertisesGates() then Finish(w, tid, t, GateStateUnavailable)
    else GoTo(w, t, ConfirmingSilence(attempt, before, query))
  }

  // --- Sending --------------------------------------------------------------

  function StepQueued(w: World, tid: nat, t: Task): Moved
    requires t.phase.Queued?
  {
    if w.lock.Some? then Moved(w, t)
    else GoTo(w.(lock := Some(tid)), t, Refreshing(t.phase.preflight))
  }

  /** An earlier legacy caller may have refreshed the token meanwhile. */
  function StepRefreshing(w: World, t: Task): Moved
    requires t.phase.Refreshing?
  {
    var origin := if t.payload.instance.Some? then t.payload.instance.value.url.origin else None;
    var payload :=
      if origin.Some? && origin.value in w.cache.sessions then
        t.payload.(instance := Some(w.cache.sessions[origin.value]))
      else t.payload;
    Moved(w, t.(payload := payload, phase := Sending(First, t.phase.preflight)))
  }

  function AskFor(tid: nat, t: Task): B.Ask
    requires t.protocol.Some?
  {
    match t.protocol.value
    case Correlated(id) => B.AskCorrelated(tid, t.payload, id)
    case ByAction(expected) => B.AskByAction(tid, t.payload, expected)
    case Legacy(expected) => B.AskByAction(tid, t.payload, expected)
  }

  function StepSending(w: World, tid: nat, t: Task, choice: Choice): Moved
    requires t.phase.Sending?
  {
    var Sending(attempt, p) := t.phase;
    var b := w.bridge;
    if choice.NoHelper? then Finish(w, tid, t, NotConnected)
    else if b.conn.None? || t.protocol.None? then Finish(w, tid, t, Disconnected)
    else if p.generation.Some? && p.generation != b.conn then Finish(w, tid, t, Disconnected)
    else if t.protocol.value.Legacy? && (b.status.generation != b.conn.value || b.status.support != LegacyUnrestricted) then
      Finish(w, tid, t, GateStateUnavailable)
    else
      var (b', sent) := TryEnqueue(b, AskFor(tid, t), choice);
      if sent then
        Moved(w.(bridge := b'),
              t.(phase := AwaitingReply(attempt, |b.registered|), sent := t.sent + [p], log := t.log + [Wrote(|b.registered|)]))
      else
        Finish(w.(bridge := b'), tid, t, Disconnected)
  }

  function Verified(c: S.Cache, t: Task, now: nat): S.Cache {
    if t.protocol.Some? && !t.protocol.value.ByAction? && t.payload.instance.Some? && t.payload.instance.value.url.origin.Some? then
      S.MarkVerified(c, t.payload.instance.value.url.origin.value, now)
    else c
  }

  function StepAwaitingReply(w: World, tid: nat, t: Task, choice: Choice): Moved
    requires t.phase.AwaitingReply?
  {
    var AwaitingReply(attempt, request) := t.phase;
    if request in w.bridge.closed then
      match w.bridge.closed[request]
      case Answered(m, _) =>
        if !m.ReportsFailure() then
          Finish(w.(cache := Verified(w.cache, t, choice.now)), tid, t, Succeeded)
        else if m.paused then Finish(w, tid, t, Paused)
        else if attempt != First || t.protocol.None? || t.protocol.value.ByAction? || m.error.None? then
          Finish(w, tid, t, ActionFailed)
        else if m.error.value.transient then
          Moved(w, t.(phase := Checking(AfterTransient), log := t.log + [Refused(request)]))
        else if t.payload.instance.Some? && m.error.value.stale then
          Moved(w, t.(phase := Probing(t.payload.instance.value), log := t.log + [Refused(request)]))
        else
          Finish(w, tid, t, ActionFailed)
      case _ => Finish(w, tid, t, Disconnected)
    else if choice.TimeOut? then
      Finish(w.(bridge := B.Abandon(w.bridge, request)), tid, t, TimedOut)
    else
      Moved(w, t)
  }

  // --- Probing and refreshing the session -----------------------------------

  function StepProbing(w: World, tid: nat, t: Task, choice: Choice): Moved
    requires t.phase.Probing?
  {
    var (b, sent) := TryEnqueue(w.bridge, B.AskProbe(Some(tid), t.phase.session), choice);
    if sent then GoTo(w.(bridge := b), t, AwaitingProbe(t.phase.session, |w.bridge.registered|))
    else Finish(w.(bridge := b), tid, t, ProbeFailed)
  }

  /** Only a reply that reports a stale token counts as a rejection. */
  predicate Rejects(m: B.Message) {
    m.ReportsFailure() && !m.paused && m.error.Some? && m.error.value.probeStale
  }

  function StepAwaitingProbe(w: World, tid: nat, t: Task, choice: Choice): Moved
    requires t.phase.AwaitingProbe?
  {
    var AwaitingProbe(session, probe) := t.phase;
    if probe in w.bridge.closed then
      match w.bridge.closed[probe]
      case Answered(m, _) =>
        if !m.ReportsFailure() then Finish(w, tid, t, AccessDenied)
        else if Rejects(m) then Moved(w, t.(phase := Evicting(session), log := t.log + [ProbeRejected(probe)]))
        else Finish(w, tid, t, ProbeFailed)
      case _ => Finish(w, tid, t, ProbeFailed)
    else if choice.TimeOut? then
      Finish(w.(bridge := B.Abandon(w.bridge, probe)), tid, t, ProbeFailed)
    else
      Moved(w, t)
  }

  /** Evict the targeted origin only; every session when the URL has no origin. */
  function StepEvicting(w: World, t: Task, choice: Choice): Moved
    requires t.phase.Evicting?
  {
    var session := t.phase.session;
    var origin := session.url.origin;
    var cache := if origin.Some? then S.ClearOrigin(w.cache, origin.value, choice.pick) else S.EMPTY;
    Moved(w.(cache := cache), t.(phase := Prompting(session), log := t.log + [Evicted(origin)]))
  }

  function StepPrompting(w: World, t: Task): Moved
    requires t.phase.Prompting?
  {
    var session := t.phase.session;
    GoTo(w.(bridge := B.AwaitSession(w.bridge, session.url.origin)), t, AwaitingToken(session, |w.bridge.registered|))
  }

  function StepAwaitingToken(w: World, tid: nat, t: Task, choice: Choice): Moved
    requires t.phase.AwaitingToken?
  {
    var AwaitingToken(session, waiter) := t.phase;
    if waiter in w.bridge.closed then
      match w.bridge.closed[waiter]
      case Answered(m, _) =>
        if m.instance.None? then Finish(w, tid, t, Disconnected)
        else
          var renewed := m.instance.value;
          Moved(w.(cache := S.Remember(w.cache, renewed, choice.now)),
                t.(payload := t.payload.(instance := Some(renewed)), phase := Checking(AfterRefresh)))
      case _ => Finish(w, tid, t, Disconnected)
    else if choice.TimeOut? || choice.NoHelper? then
      Finish(w.(bridge := B.Abandon(w.bridge, waiter)), tid, t, if choice.TimeOut? then TimedOut else NotConnected)
    else
      Moved(w, t)
  }

  function StepTask(w: World, tid: nat, t: Task, choice: Choice): Moved {
    match t.phase
    case Checking(_) => StepChecking(w, tid, t, choice)
    case Querying(_, _) => StepQuerying(w, tid, t, choice)
    case AwaitingReport(_, _, _) => StepAwaitingReport(w, tid, t, choice)
    case ReportTimedOut(_, _, _) => StepReportTimedOut(w, tid, t)
    case ConfirmingSilence(attempt, before, query) => CommitLegacy(w, tid, t, attempt, before, query)
    case Queued(_) => StepQueued(w, tid, t)
    case Refreshing(_) => StepRefreshing(w, t)
    case Sending(_, _) => StepSending(w, tid, t, choice)
    case AwaitingReply(_, _) => StepAwaitingReply(w, tid, t, choice)
    case Probing(_) => StepProbing(w, tid, t, choice)
    case AwaitingProbe(_, _) => StepAwaitingProbe(w, tid, t, choice)
    case Evicting(_) => StepEvicting(w, t, choice)
    case Prompting(_) => StepPrompting(w, t)
    case AwaitingToken(_, _) => StepAwaitingToken(w, tid, t, choice)
    case Done(_) => Moved(w, t)
  }

  // --- The system -----------------------------------------------------------

  datatype System = System(world: World, tasks: map<nat, Task>, clock: nat)

  datatype SystemStep =
    | Accept(tid: nat, request: Request)
    | Run(tid: nat, choice: Choice)
    | Bridge(step: B.Step)
    | Client(call: S.Call)

  /** Sent for no dispatch: a status refresh or a session check of a client. */
  predicate Unasked(content: B.Content) {
    !content.UserAction? && content.asker.None?
  }

  /** Everything the bridge does on its own or for other requests; only tasks
    * put user actions, and queries for them, on a socket. */
  predicate Ambient(step: B.Step) {
    match step
    case DoEnqueue(ask) => Unasked(ask.Content())
    case DoEnqueueRefused(ask) => Unasked(ask.Content())
    case _ => true
  }

  ghost predicate SystemNext(s: System, step: SystemStep, s': System) {
    match step
    case Accept(tid, request) =>
      && tid !in s.tasks
      && s' == s.(tasks := s.tasks[tid := NewTask(request)])
    case Run(tid, choice) =>
      && tid in s.tasks
      && s.clock <= choice.now
      && (s.tasks[tid].phase.Evicting? && s.tasks[tid].phase.session.url.origin.Some? ==>
            S.Allowed(s.world.cache, S.CallClear(s.tasks[tid].phase.session.url.origin.value, choice.pick)))
      && var m := StepTask(s.world, tid, s.tasks[tid], choice);
         s' == System(m.world, s.tasks[tid := m.task], choice.now)
    case Bridge(step) =>
      && Ambient(step) && B.Enabled(s.world.bridge, step)
      && s' == s.(world := s.world.(bridge := B.Apply(s.world.bridge, step)))
    case Client(call) =>
      && S.Allowed(s.world.cache, call)
      && (call.CallRemember? || call.CallVerify? ==> s.clock <= S.Time(call))
      && s' == System(s.world.(cache := S.Perform(s.world.cache, call)), s.tasks,
                      if call.CallRemember? || call.CallVerify? then S.Time(call) else s.clock)
  }

  const INITIAL: System := System(World(B.START, S.EMPTY, None), map[], 0)

  ghost predicate IsRun(run: seq<System>, steps: seq<SystemStep>) {
    && |run| == |steps| + 1
    && run[0] == INITIAL
    && forall i :: 0 < i < |run| ==> SystemNext(run[i - 1], steps[i - 1], run[i])
  }
}
