/**
 * The helper-tab bridge as a state machine. Each step is one critical section
 * of the connection manager, so every interleaving of its tasks is a run.
 */
module Bridge {
  import opened Prelude
  import opened Gates

  /** Correlation ids. Capability and probe ids are generated per request and
    * never reused; a client chooses its own. */
  datatype RequestId = Capability(request: nat) | Probe(request: nat) | Client(text: string)

  /** The part of a message's extra fields that helper metadata is read from. */
  datatype Metadata =
    | NoMetadata
    | BuildInfo(gateVersion: Option<nat>)
    | GateUpdate(origin: Option<Origin>, snapshot: GateSnapshot)

  /** Error text of a failed action, with the verdicts of the three text tests. */
  datatype FailureText = FailureText(text: string, transient: bool, stale: bool, probeStale: bool)

  datatype Message = Message(
    action: Option<string>,
    requestId: Option<RequestId>,
    instance: Option<SnuInstance>,
    success: Option<bool>,
    error: Option<FailureText>,
    paused: bool,
    metadata: Metadata,
    report: Option<Report>)
  {
    /** The helper's convention for reporting that an action failed. */
    predicate ReportsFailure() {
      success == Some(false) || error.Some?
    }

    predicate CarriesSession() {
      instance.Some? && instance.value.HasToken()
    }
  }

  datatype Matcher =
    | Correlation(id: RequestId)
    | Action(name: string)
    | Session(origin: Option<Origin>)
  {
    predicate Matches(m: Message) {
      match this
      case Correlation(id) => m.requestId == Some(id)
      case Action(name) => m.action == Some(name)
      case Session(origin) =>
        m.CarriesSession() && (origin.Some? ==> m.instance.value.url.origin == origin)
    }
  }

  /** A pending request; `generation` is None for waiters that survive reconnects. */
  datatype Waiter = Waiter(id: nat, generation: Option<nat>, matcher: Matcher)

  /** How a waiter left the pending list. */
  datatype Closing =
    | Failed
    | Answered(message: Message, from: nat)
    | Swept

  /** What a frame says; queries and probes name the dispatch they are for, if any. */
  datatype Content =
    | CapabilityQuery(asker: Option<nat>)
    | ProbeQuery(asker: Option<nat>, session: SnuInstance)
    | UserAction(task: nat, payload: Payload)

  /** One request enqueued on the socket of one connection generation. */
  datatype Frame = Frame(generation: nat, waiter: nat, correlation: Option<RequestId>, content: Content)

  /** What a caller asks to be sent, before ids are assigned. */
  datatype Ask =
    | AskCapabilities(asker: Option<nat>)
    | AskProbe(asker: Option<nat>, session: SnuInstance)
    | AskCorrelated(task: nat, payload: Payload, id: string)
    | AskByAction(task: nat, payload: Payload, expectedAction: string)
  {
    function Content(): Content {
      match this
      case AskCapabilities(asker) => CapabilityQuery(asker)
      case AskProbe(asker, session) => ProbeQuery(asker, session)
      case AskCorrelated(task, payload, _) => UserAction(task, payload)
      case AskByAction(task, payload, _) => UserAction(task, payload)
    }

    function Id(request: nat): Option<RequestId> {
      match this
      case AskCapabilities(_) => Some(Capability(request))
      case AskProbe(_, _) => Some(Probe(request))
      case AskCorrelated(_, _, id) => Some(Client(id))
      case AskByAction(_, _, _) => None
    }

    function Matcher(request: nat): Matcher {
      match this
      case AskCapabilities(_) => Correlation(Capability(request))
      case AskProbe(_, _) => Correlation(Probe(request))
      case AskCorrelated(_, _, id) => Correlation(Client(id))
      case AskByAction(_, _, expected) => Action(expected)
    }
  }

  /** Where the one accept loop stands in attaching a connection. */
  datatype Attach =
    | Idle
    | Numbered(generation: nat)
    | Installed(generation: nat, previous: Option<nat>)
    | Drained(generation: nat)

  /** A message a reader has taken off its socket but not finished routing. */
  datatype Delivery = Inspected(message: Message) | Announced(message: Message)

  /** What the helper's status is worth: a message a reader inspected, with the generation
    * the status then had, or a report that was committed to the status. */
  datatype Observation =
    | Pushed(from: nat, status: nat, message: Message)
    | Reported(status: nat, report: Report)

  datatype State = State(
    counter: nat,
    conn: Option<nat>,
    status: HelperStatus,
    waiters: seq<Waiter>,
    frames: seq<Frame>,
    captured: seq<SnuInstance>,
    // Control state of the accept loop, the detaching tasks and the readers.
    attach: Attach,
    detaching: set<nat>,
    reading: map<nat, Delivery>,
    // History: nothing above depends on it.
    installed: nat,
    retired: set<nat>,
    registered: seq<Waiter>,
    closed: map<nat, Closing>,
    abandoned: set<nat>,
    delivered: seq<Message>,
    observed: seq<Observation>)

  const START: State := State(0, None, FreshStatus(0), [], [], [], Idle, {}, map[], 0, {}, [], map[], {}, [], [])

  /** Why waiters leave the pending list, which ones, and what they are told. */
  datatype Cause =
    | Teardown(generation: nat)
    | Reply(message: Message, from: nat)
    | Cleanup(abandoned: set<nat>)
  {
    predicate Takes(w: Waiter) {
      match this
      case Teardown(g) => w.generation == Some(g)
      case Reply(m, _) => w.matcher.Matches(m)
      case Cleanup(abandoned) => w.id in abandoned
    }

    function Closing(): Closing {
      match this
      case Teardown(_) => Failed
      case Reply(m, from) => Answered(m, from)
      case Cleanup(_) => Swept
    }
  }

  /** The waiters `cause` leaves pending, in order. */
  function Kept(ws: seq<Waiter>, cause: Cause): (r: seq<Waiter>)
    ensures forall w :: w in r <==> w in ws && !cause.Takes(w)
  {
    if ws == [] then []
    else
      var n := |ws| - 1;
      assert ws == ws[..n] + [ws[n]];
      Kept(ws[..n], cause) + if cause.Takes(ws[n]) then [] else [ws[n]]
  }

  /** The closings `cause` brings, one for every waiter it takes. */
  function Closed(ws: seq<Waiter>, cause: Cause): (r: map<nat, Closing>)
    ensures forall i :: i in r <==> exists w :: w in ws && cause.Takes(w) && w.id == i
    ensures forall i :: i in r ==> r[i] == cause.Closing()
  {
    map w | w in ws && cause.Takes(w) :: w.id := cause.Closing()
  }

  function Remove(b: State, cause: Cause): State {
    b.(waiters := Kept(b.waiters, cause), closed := b.closed + Closed(b.waiters, cause))
  }

  // --- Attaching and detaching -------------------------------------------

  function Number(b: State): State {
    b.(counter := b.counter + 1, attach := Numbered(b.counter + 1))
  }

  function Install(b: State): State
    requires b.attach.Numbered?
  {
    var g := b.attach.generation;
    b.(conn := Some(g), attach := Installed(g, b.conn), installed := g)
  }

  function FailWaiters(b: State, generation: nat): State {
    Remove(b, Teardown(generation)).(retired := b.retired + {generation})
  }

  function FailPrevious(b: State): State
    requires b.attach.Installed?
  {
    var drained := match b.attach.previous
      case Some(p) => FailWaiters(b, p)
      case None => b;
    drained.(attach := Drained(b.attach.generation))
  }

  function ResetStatus(b: State): State
    requires b.attach.Drained?
  {
    b.(status := FreshStatus(b.attach.generation), attach := Idle)
  }

  function Detach(b: State, generation: nat): State {
    if b.conn == Some(generation) then
      b.(conn := None, detaching := b.detaching + {generation})
    else
      b
  }

  function FailDetached(b: State, generation: nat): State {
    FailWaiters(b, generation).(detaching := b.detaching - {generation})
  }

  // --- Delivering ---------------------------------------------------------

  /** Metadata is read only while the status still belongs to this reader's generation. */
  function Capture(b: State, m: Message, generation: nat): State {
    if b.status.generation != generation then b
    else
      match m.metadata
      case NoMetadata => b
      case BuildInfo(version) =>
        var built := b.status.(build := Some(version));
        b.(status := if built.AdvertisesGates() then built.(support := Gated) else built)
      case GateUpdate(origin, snapshot) =>
        if origin.None? then b
        else b.(status := b.status.ApplySnapshot(origin.value, snapshot))
  }

  function Receive(b: State, generation: nat, m: Message): State {
    Capture(b, m, generation).(
      reading := b.reading[generation := Inspected(m)],
      observed := b.observed + [Pushed(generation, b.status.generation, m)])
  }

  /** Any message carrying a token reaches the session stream. */
  function Announce(b: State, generation: nat): State
    requires generation in b.reading
  {
    var m := b.reading[generation].message;
    b.(captured := b.captured + (if m.CarriesSession() then [m.instance.value] else []),
       delivered := b.delivered + [m],
       reading := b.reading[generation := Announced(m)])
  }

  function Deliver(b: State, generation: nat): State
    requires generation in b.reading
  {
    var m := b.reading[generation].message;
    Remove(b, Reply(m, generation)).(reading := b.reading - {generation})
  }

  function Sweep(b: State): State {
    Remove(b, Cleanup(b.abandoned))
  }

  // --- Requesting ---------------------------------------------------------

  function Register(b: State, generation: Option<nat>, matcher: Matcher): State {
    var w := Waiter(|b.registered|, generation, matcher);
    b.(waiters := b.waiters + [w], registered := b.registered + [w])
  }

  /** Register the waiter and enqueue the frame on the installed connection. */
  function Enqueue(b: State, ask: Ask): State
    requires b.conn.Some?
  {
    var id := |b.registered|;
    Register(b, b.conn, ask.Matcher(id))
      .(frames := b.frames + [Frame(b.conn.value, id, ask.Id(id), ask.Content())])
  }

  /** The writer is already gone: the waiter is registered but nothing is sent. */
  function EnqueueRefused(b: State, ask: Ask): State
    requires b.conn.Some?
  {
    Register(b, b.conn, ask.Matcher(|b.registered|)).(abandoned := b.abandoned + {|b.registered|})
  }

  function AwaitSession(b: State, origin: Option<Origin>): State {
    Register(b, None, Session(origin))
  }

  function Abandon(b: State, request: nat): State {
    b.(abandoned := b.abandoned + {request})
  }

  // --- Committing a negotiation -------------------------------------------

  predicate MayTurnLegacy(s: HelperStatus) {
    !s.AdvertisesGates() && s.support != Gated
  }

  function CommitLegacy(b: State): State {
    b.(status := b.status.(support := LegacyUnrestricted))
  }

  function CommitGated(b: State, report: Report): State {
    b.(status := b.status.(support := Gated, instanceGates := MergeGates(b.status.instanceGates, report.instanceGates)),
       observed := b.observed + [Reported(b.status.generation, report)])
  }

  // --- Steps --------------------------------------------------------------

  datatype Step =
    | DoNumber | DoInstall | DoFailPrevious | DoResetStatus
    | DoDetach(generation: nat) | DoFailDetached(generation: nat)
    | DoReceive(generation: nat, message: Message) | DoAnnounce(generation: nat) | DoDeliver(generation: nat)
    | DoSweep
    | DoEnqueue(ask: Ask) | DoEnqueueRefused(ask: Ask) | DoAwaitSession(origin: Option<Origin>) | DoAbandon(request: nat)
    | DoCommitLegacy | DoCommitGated(report: Report)

  /** Some frame carrying this id went out on this generation's socket. */
  ghost predicate Heard(b: State, generation: nat, id: RequestId) {
    exists f :: f in b.frames && f.generation == generation && f.correlation == Some(id)
  }

  /** The one assumption about helpers: a reply id is an id that helper received. */
  ghost predicate Enabled(b: State, step: Step) {
    match step
    case DoNumber => b.attach.Idle?
    case DoInstall => b.attach.Numbered?
    case DoFailPrevious => b.attach.Installed?
    case DoResetStatus => b.attach.Drained?
    case DoDetach(_) => true
    case DoFailDetached(g) => g in b.detaching
    case DoReceive(g, m) =>
      && 1 <= g <= b.counter && g !in b.reading
      && (m.requestId.Some? ==> Heard(b, g, m.requestId.value))
    case DoAnnounce(g) => g in b.reading && b.reading[g].Inspected?
    case DoDeliver(g) => g in b.reading && b.reading[g].Announced?
    case DoSweep => true
    case DoEnqueue(_) => b.conn.Some?
    case DoEnqueueRefused(_) => b.conn.Some?
    case DoAwaitSession(_) => true
    case DoAbandon(r) => r < |b.registered|
    case DoCommitLegacy => MayTurnLegacy(b.status)
    case DoCommitGated(_) => true
  }

  ghost function Apply(b: State, step: Step): State
    requires Enabled(b, step)
  {
    match step
    case DoNumber => Number(b)
    case DoInstall => Install(b)
    case DoFailPrevious => FailPrevious(b)
    case DoResetStatus => ResetStatus(b)
    case DoDetach(g) => Detach(b, g)
    case DoFailDetached(g) => FailDetached(b, g)
    case DoReceive(g, m) => Receive(b, g, m)
    case DoAnnounce(g) => Announce(b, g)
    case DoDeliver(g) => Deliver(b, g)
    case DoSweep => Sweep(b)
    case DoEnqueue(ask) => Enqueue(b, ask)
    case DoEnqueueRefused(ask) => EnqueueRefused(b, ask)
    case DoAwaitSession(origin) => AwaitSession(b, origin)
    case DoAbandon(r) => Abandon(b, r)
    case DoCommitLegacy => CommitLegacy(b)
    case DoCommitGated(report) => CommitGated(b, report)
  }

  ghost predicate Next(b: State, b': State) {
    exists step: Step :: Enabled(b, step) && b' == Apply(b, step)
  }

  /** A run from the initial state: one state per step taken, in order. */
  ghost predicate IsRun(run: seq<State>) {
    && run != []
    && run[0] == START
    && forall i :: 0 < i < |run| ==> Next(run[i - 1], run[i])
  }
}
