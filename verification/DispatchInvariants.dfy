/** What every phase of a dispatched action keeps, whatever runs in between. */
module DispatchInvariants {
  import opened Prelude
  import opened Gates
  import opened Dispatch
  import B = Bridge
  import I = BridgeInvariants
  import T = BridgeTheorems

  type ActionFrame = f: B.Frame | f.content.UserAction?
    witness B.Frame(0, 0, None, B.UserAction(0, Payload(None, None, None, None, "")))

  /** The frames a task put on any socket, in order. */
  function Mine(frames: seq<B.Frame>, tid: nat): (r: seq<ActionFrame>)
    ensures forall f :: f in r <==> f in frames && f.content.UserAction? && f.content.task == tid
  {
    if frames == [] then []
    else
      var n := |frames| - 1;
      var f := frames[n];
      assert frames == frames[..n] + [f];
      Mine(frames[..n], tid) + if f.content.UserAction? && f.content.task == tid then [f] else []
  }

  lemma MineSnoc(frames: seq<B.Frame>, f: B.Frame, tid: nat)
    ensures Mine(frames + [f], tid) == Mine(frames, tid) + if f.content.UserAction? && f.content.task == tid then [f] else []
  {
    assert (frames + [f])[..|frames|] == frames;
  }

  // --- Evidence behind a preflight -------------------------------------------

  /** A capability query, enqueued on the socket of its waiter's generation. */
  ghost predicate QuerySent(b: B.State, query: nat) {
    && query < |b.registered|
    && b.registered[query].matcher == B.Correlation(B.Capability(query))
    && b.registered[query].generation.Some?
    && b.registered[query].generation.value <= b.installed
    && B.Heard(b, b.registered[query].generation.value, B.Capability(query))
  }

  ghost predicate Asked(b: B.State, before: HelperStatus, query: nat) {
    QuerySent(b, query) && before.generation <= b.registered[query].generation.value
  }

  /** The report that answered the query, if one did. */
  ghost predicate Answer(b: B.State, query: nat, report: Report) {
    && query in b.closed && b.closed[query].Answered?
    && b.closed[query].message.report == Some(report)
    && !b.closed[query].message.ReportsFailure()
  }

  /** The report names a version of the gates. */
  predicate HasGates(report: Report) {
    report.gateVersion.Some? && report.gateVersion.value != 0
  }

  /** The report allows the gated payload: its origin is listed, its gate not off. */
  ghost predicate Allows(report: Report, payload: Payload, decision: Decision) {
    && HasGates(report)
    && GateForPayload(payload).Some? && payload.TargetOrigin().Some?
    && payload.TargetOrigin().value in report.instanceGates
    && match report.instanceGates[payload.TargetOrigin().value].gates.Mode(GateForPayload(payload).value)
       case Off => false
       case Approve => decision == ApprovalRequired
       case Auto => decision == Automatic
  }

  ghost predicate Supported(b: B.State, p: Preflight) {
    && QuerySent(b, p.query)
    && match p.decision
       case NotGated => false
       case LegacyAllowed =>
         p.query in b.abandoned || exists report :: Answer(b, p.query, report) && !HasGates(report)
       case _ => exists report :: Answer(b, p.query, report) && Allows(report, p.payload, p.decision)
  }

  /** A preflight that passed but has not been used yet. */
  ghost predicate Passed(b: B.State, p: Preflight) {
    match p.generation
    case None => p.decision == NotGated && GateForPayload(p.payload).None?
    case Some(g) => Supported(b, p) && g <= b.registered[p.query].generation.value
  }

  /** A gated frame went to the generation its preflight was negotiated with. */
  ghost predicate Bound(b: B.State, p: Preflight, f: ActionFrame) {
    && (p.generation.Some? ==> p.generation == Some(f.generation))
    && (GateForPayload(f.content.payload).Some? ==>
          && p.generation == Some(f.generation)
          && Supported(b, p)
          && b.registered[p.query].generation == Some(f.generation)
          && (p.decision != LegacyAllowed ==> p.payload == f.content.payload))
  }

  // --- The task invariant ----------------------------------------------------

  ghost predicate SentOk(b: B.State, tid: nat, t: Task) {
    var frames := Mine(b.frames, tid);
    && |t.sent| == |frames|
    && forall i :: 0 <= i < |frames| ==> Bound(b, t.sent[i], frames[i])
  }

  ghost predicate PhaseOk(b: B.State, t: Task) {
    match t.phase
    case Querying(_, before) => before.generation <= b.installed
    case AwaitingReport(_, before, query) => Asked(b, before, query)
    case ReportTimedOut(_, before, query) => Asked(b, before, query) && query in b.abandoned
    case ConfirmingSilence(_, before, query) => Asked(b, before, query) && query in b.abandoned
    case Queued(p) => Passed(b, p) && p.decision == LegacyAllowed
    case Refreshing(p) => Passed(b, p) && p.decision == LegacyAllowed
    case Sending(_, p) =>
      && Passed(b, p) && (p.decision == LegacyAllowed || t.payload == p.payload)
      && (t.protocol.Some? && t.protocol.value.Legacy? ==> p.decision == LegacyAllowed)
    case AwaitingProbe(_, probe) =>
      probe < |b.registered| && b.registered[probe].matcher == B.Correlation(B.Probe(probe))
    case AwaitingToken(session, waiter) =>
      waiter < |b.registered| && b.registered[waiter].matcher == B.Session(session.url.origin)
    case _ => true
  }

  /** Everything but the session a payload carries. */
  predicate SameAction(p: Payload, q: Payload) {
    p.(instance := None) == q.(instance := None)
  }

  /** The payload of the one protocol the task has settled on. */
  function Chosen(t: Task): Payload {
    if t.protocol.Some? && t.protocol.value.Legacy? && t.request.SendActionWithLegacyFallback? then t.request.legacy
    else t.request.payload
  }

  predicate Undecided(phase: Phase) {
    match phase
    case Checking(a) => a == First
    case Querying(a, _) => a == First
    case AwaitingReport(a, _, _) => a == First
    case ReportTimedOut(a, _, _) => a == First
    case ConfirmingSilence(a, _, _) => a == First
    case Done(_) => true
    case _ => false
  }

  ghost predicate ProtocolOk(frames: seq<ActionFrame>, t: Task) {
    && (t.protocol.None? ==> t.request.SendActionWithLegacyFallback? && Undecided(t.phase) && frames == [])
    && (t.protocol.Some? && t.protocol.value.Legacy? ==> t.request.SendActionWithLegacyFallback?)
    && ((t.phase.Queued? || t.phase.Refreshing?) ==> t.protocol.Some? && t.protocol.value.Legacy?)
    && (Undecided(t.phase) && !t.phase.Done? ==> t.payload == t.request.payload)
    && SameAction(t.payload, Chosen(t))
    && forall f :: f in frames ==> SameAction(f.content.payload, Chosen(t))
  }

  ghost predicate RefusedBy(b: B.State, request: nat) {
    && request in b.closed && b.closed[request].Answered?
    && b.closed[request].message.ReportsFailure()
    && !b.closed[request].message.paused
  }

  ghost predicate RejectedBy(b: B.State, probe: nat) {
    && probe < |b.registered| && b.registered[probe].matcher == B.Correlation(B.Probe(probe))
    && probe in b.closed && b.closed[probe].Answered?
    && var m := b.closed[probe].message;
       m.ReportsFailure() && !m.paused && m.error.Some? && m.error.value.probeStale
  }

  /** The only histories: write; refusal; then either the same action again, or a
    * rejected probe, an eviction and the action with a fresh session. */
  ghost predicate LogOk(b: B.State, log: seq<Event>, frames: seq<ActionFrame>) {
    && |log| <= 5
    && |frames| == (if |log| == 0 then 0 else if |log| == 5 || (|log| == 3 && log[2].Wrote?) then 2 else 1)
    && (|log| >= 1 ==> log[0] == Wrote(frames[0].waiter))
    && (|log| >= 2 ==> log[1] == Refused(frames[0].waiter) && RefusedBy(b, frames[0].waiter))
    && (|log| == 3 && log[2].Wrote? ==>
          log[2] == Wrote(frames[1].waiter) && frames[1].content.payload == frames[0].content.payload)
    && (|log| >= 3 && !log[2].Wrote? ==> log[2].ProbeRejected? && RejectedBy(b, log[2].probe))
    && (|log| >= 4 ==>
          && log[2].ProbeRejected? && frames[0].content.payload.instance.Some?
          && log[3] == Evicted(frames[0].content.payload.instance.value.url.origin))
    && (|log| == 5 ==>
          && log[4] == Wrote(frames[1].waiter)
          && SameTarget(log[3].origin, frames[1].content.payload))
  }

  /** The session goes to the evicted origin, when there is one. */
  predicate SameTarget(origin: Option<Origin>, payload: Payload) {
    origin.Some? ==> payload.instance.Some? && payload.instance.value.url.origin == origin
  }

  /** The first write has been refused and the payload is still the one written. */
  ghost predicate Stalled(t: Task, frames: seq<ActionFrame>, events: nat) {
    && |t.log| == events && |frames| == 1
    && t.payload == frames[0].content.payload
  }

  ghost predicate Ready(t: Task, frames: seq<ActionFrame>, attempt: Attempt) {
    match attempt
    case First => t.log == []
    case AfterTransient => Stalled(t, frames, 2)
    case AfterRefresh => |t.log| == 4 && t.log[3].Evicted? && SameTarget(t.log[3].origin, t.payload)
  }

  ghost predicate StageOk(t: Task, frames: seq<ActionFrame>) {
    match t.phase
    case Checking(a) => Ready(t, frames, a)
    case Querying(a, _) => Ready(t, frames, a)
    case AwaitingReport(a, _, _) => Ready(t, frames, a)
    case ReportTimedOut(a, _, _) => Ready(t, frames, a)
    case ConfirmingSilence(a, _, _) => Ready(t, frames, a)
    case Queued(_) => t.log == []
    case Refreshing(_) => t.log == []
    case Sending(a, _) => Ready(t, frames, a)
    case AwaitingReply(a, request) =>
      && frames != [] && frames[|frames| - 1].waiter == request
      && frames[|frames| - 1].content.payload == t.payload
      && |t.log| == (match a case First => 1 case AfterTransient => 3 case AfterRefresh => 5)
      && |frames| == (if a == First then 1 else 2)
    case Probing(s) => Stalled(t, frames, 2) && t.payload.instance == Some(s)
    case AwaitingProbe(s, _) => Stalled(t, frames, 2) && t.payload.instance == Some(s)
    case Evicting(s) => Stalled(t, frames, 3) && t.payload.instance == Some(s)
    case Prompting(s) => Stalled(t, frames, 4) && t.payload.instance == Some(s)
    case AwaitingToken(s, _) => Stalled(t, frames, 4) && t.payload.instance == Some(s)
    case Done(_) => true
  }

  ghost predicate TaskInv(b: B.State, tid: nat, t: Task) {
    var frames := Mine(b.frames, tid);
    && SentOk(b, tid, t)
    && PhaseOk(b, t)
    && ProtocolOk(frames, t)
    && LogOk(b, t.log, frames)
    && StageOk(t, frames)
  }

  // --- Other steps do not disturb a task --------------------------------------

  lemma EvidenceStays(b: B.State, b': B.State, p: Preflight)
    requires I.Later(b, b') && Supported(b, p)
    ensures Supported(b', p) && b'.registered[p.query] == b.registered[p.query]
  {
    I.HeardLater(b, b');
    if exists report :: Answer(b, p.query, report) && !report.SupportsGates() {
      var report :| Answer(b, p.query, report) && !report.SupportsGates();
      assert Answer(b', p.query, report);
    }
    if exists report :: Answer(b, p.query, report) && Allows(report, p.payload, p.decision) {
      var report :| Answer(b, p.query, report) && Allows(report, p.payload, p.decision);
      assert Answer(b', p.query, report);
    }
  }

  lemma PassedStays(b: B.State, b': B.State, p: Preflight)
    requires I.Later(b, b') && Passed(b, p)
    ensures Passed(b', p)
  {
    if p.generation.Some? {
      EvidenceStays(b, b', p);
    }
  }

  lemma BoundStays(b: B.State, b': B.State, p: Preflight, f: ActionFrame)
    requires I.Later(b, b') && Bound(b, p, f)
    ensures Bound(b', p, f)
  {
    if GateForPayload(f.content.payload).Some? {
      EvidenceStays(b, b', p);
    }
  }

  lemma AskedStays(b: B.State, b': B.State, before: HelperStatus, query: nat)
    requires I.Later(b, b') && Asked(b, before, query)
    ensures Asked(b', before, query)
  {
    I.HeardLater(b, b');
  }

  lemma PhaseStays(b: B.State, b': B.State, t: Task)
    requires I.Later(b, b') && PhaseOk(b, t)
    ensures PhaseOk(b', t)
  {
    match t.phase
    case AwaitingReport(_, before, query) => AskedStays(b, b', before, query);
    case ReportTimedOut(_, before, query) => AskedStays(b, b', before, query);
    case ConfirmingSilence(_, before, query) => AskedStays(b, b', before, query);
    case Queued(p) => PassedStays(b, b', p);
    case Refreshing(p) => PassedStays(b, b', p);
    case Sending(_, p) => PassedStays(b, b', p);
    case _ =>
  }

  lemma LogStays(b: B.State, b': B.State, log: seq<Event>, frames: seq<ActionFrame>)
    requires I.Later(b, b') && LogOk(b, log, frames)
    ensures LogOk(b', log, frames)
  {
  }

  lemma SentStays(b: B.State, b': B.State, tid: nat, t: Task)
    requires I.Later(b, b') && SentOk(b, tid, t) && Mine(b'.frames, tid) == Mine(b.frames, tid)
    ensures SentOk(b', tid, t)
  {
    var frames := Mine(b.frames, tid);
    forall i | 0 <= i < |frames| ensures Bound(b', t.sent[i], frames[i]) {
      BoundStays(b, b', t.sent[i], frames[i]);
    }
  }

  lemma TaskStays(b: B.State, b': B.State, tid: nat, t: Task)
    requires I.Later(b, b') && TaskInv(b, tid, t) && Mine(b'.frames, tid) == Mine(b.frames, tid)
    ensures TaskInv(b', tid, t)
  {
    SentStays(b, b', tid, t);
    PhaseStays(b, b', t);
    LogStays(b, b', t.log, Mine(b.frames, tid));
  }
}
