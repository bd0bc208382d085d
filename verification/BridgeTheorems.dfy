/** The bridge's guarantees over every interleaving of its tasks. */
module BridgeTheorems {
  import opened Prelude
  import opened Gates
  import opened Bridge
  import opened BridgeInvariants

  /** A request waiter is pending only while its generation is installed or being
    * torn down. Once its waiters were failed, the generation never again has a
    * pending waiter nor receives another request. */
  lemma WaitersDieWithTheirGeneration(run: seq<State>, i: nat, j: nat)
    requires IsRun(run) && i <= j < |run|
    ensures forall w :: w in run[j].waiters && w.generation.Some? ==> Alive(run[j], w.generation.value)
    ensures forall g, w :: g in run[i].retired && w in run[j].waiters ==> w.generation != Some(g)
    ensures forall k :: |run[i].frames| <= k < |run[j].frames| ==> run[j].frames[k].generation !in run[i].retired
  {
    Reachable(run, i);
    Reachable(run, j);
    RunExtends(run, i, j);
  }

  /** A waiter gets at most one outcome, keeps it, and is not pending beside it;
    * every waiter is accounted for. */
  lemma OneOutcomeEach(run: seq<State>, i: nat, j: nat, request: nat)
    requires IsRun(run) && i <= j < |run| && request < |run[i].registered|
    ensures request < |run[j].registered| && run[j].registered[request] == run[i].registered[request]
    ensures run[j].registered[request] in run[j].waiters <==> request !in run[j].closed
    ensures request in run[i].closed ==> request in run[j].closed && run[j].closed[request] == run[i].closed[request]
    ensures forall k, l :: 0 <= k < l < |run[j].waiters| ==> run[j].waiters[k].id != run[j].waiters[l].id
  {
    Reachable(run, j);
    RunExtends(run, i, j);
  }

  /** A session waiter is closed only by a token message it accepts or, once its
    * caller gave up, by the sweep: no reconnect ever fails it. */
  lemma SessionWaitersSurviveReconnects(run: seq<State>, k: nat, request: nat)
    requires IsRun(run) && k < |run| && request < |run[k].registered|
    requires run[k].registered[request].generation.None?
    ensures request in run[k].closed ==>
              match run[k].closed[request]
              case Failed => false
              case Swept => request in run[k].abandoned
              case Answered(m, _) => run[k].registered[request].matcher.Matches(m)
    ensures request !in run[k].closed ==> run[k].registered[request] in run[k].waiters
  {
    Reachable(run, k);
    if request in run[k].closed {
      assert ClosingOk(run[k], request, run[k].closed[request]);
    }
  }

  /** No token is dropped, invented or reordered on its way to the session stream, and
    * every message that answered a waiter was announced first: a token that ends a wait
    * for a session is in the stream as well. */
  lemma SessionStreamIsExact(run: seq<State>, i: nat, j: nat)
    requires IsRun(run) && i <= j < |run|
    ensures run[j].captured == Tokens(run[j].delivered)
    ensures run[i].delivered <= run[j].delivered
    ensures run[i].captured <= run[j].captured
    ensures forall r :: r in run[j].closed && run[j].closed[r].Answered? ==>
              var m := run[j].closed[r].message;
              m in run[j].delivered && (m.CarriesSession() ==> m.instance.value in run[j].captured)
  {
    Reachable(run, i);
    Reachable(run, j);
    RunExtends(run, i, j);
    TokensExtend(run[i].delivered, run[j].delivered);
    forall r | r in run[j].closed && run[j].closed[r].Answered?
      ensures run[j].closed[r].message in run[j].delivered
      ensures run[j].closed[r].message.CarriesSession() ==> run[j].closed[r].message.instance.value in run[j].captured
    {
      assert ClosingOk(run[j], r, run[j].closed[r]);
      if run[j].closed[r].message.CarriesSession() {
        TokenKept(run[j].delivered, run[j].closed[r].message);
      }
    }
  }

  lemma {:induction false} TokenKept(ms: seq<Message>, m: Message)
    requires m in ms && m.CarriesSession()
    ensures m.instance.value in Tokens(ms)
  {
    var n := |ms| - 1;
    assert ms == ms[..n] + [ms[n]];
    if m in ms[..n] {
      TokenKept(ms[..n], m);
    } else {
      assert m == ms[n];
    }
  }

  lemma {:induction false} TokensExtend(a: seq<Message>, b: seq<Message>)
    requires a <= b
    ensures Tokens(a) <= Tokens(b)
  {
    if |a| < |b| {
      TokensExtend(a, b[..|b| - 1]);
    } else {
      assert a == b;
    }
  }

  /** Within one generation support climbs Unknown, Legacy, Gated and stays at
    * Gated; an advertised gate version means Gated; revisions never drop. */
  lemma SupportOnlyClimbs(run: seq<State>, i: nat, j: nat)
    requires IsRun(run) && i <= j < |run| && run[i].status.generation == run[j].status.generation
    ensures run[i].status.support.Rank() <= run[j].status.support.Rank()
    ensures run[i].status.support == Gated ==> run[j].status.support == Gated
    ensures run[j].status.AdvertisesGates() ==> run[j].status.support == Gated
    ensures forall o :: o in run[i].status.instanceGates ==>
              o in run[j].status.instanceGates
              && run[i].status.instanceGates[o].revision <= run[j].status.instanceGates[o].revision
  {
    Reachable(run, j);
    RunExtends(run, i, j);
    if run[j].status.AdvertisesGates() {
      LastBuildShows(run[j].observed, run[j].status.generation);
    }
  }

  /** The status is exactly what was observed of its generation: the build is the last build
    * info its own reader inspected while the status was its own, support is Gated if and only
    * if some such build info had gates or a gated report was committed, and gates are stored
    * for the origins some observation brought gates for. Every message that was delivered
    * had been inspected. */
  lemma StatusIsWhatWasObserved(run: seq<State>, j: nat)
    requires IsRun(run) && j < |run|
    ensures var b := run[j]; var g := b.status.generation;
            && b.status.build == LastBuild(b.observed, g)
            && (b.status.AdvertisesGates() <==> LastBuild(b.observed, g).Some? && LastBuild(b.observed, g).value.Some?
                                                && LastBuild(b.observed, g).value.value > 0)
            && (b.status.support.Gated? <==> ShownGates(b.observed, g))
            && (forall origin :: origin in b.status.instanceGates <==> Snapshots(b.observed, g, origin) != [])
    ensures forall m :: m in run[j].delivered ==> WasRead(run[j].observed, m)
  {
    Reachable(run, j);
  }

  /** Build info with gates, inspected while the status was its generation's, settles that
    * generation: whatever comes later, its support is Gated and it never turns legacy. */
  lemma PushedGatesStick(run: seq<State>, i: nat, j: nat, o: Observation)
    requires IsRun(run) && i <= j < |run| && o in run[i].observed && o.Pushed? && o.from == o.status
    requires o.message.metadata.BuildInfo? && o.message.metadata.gateVersion.Some? && o.message.metadata.gateVersion.value > 0
    requires run[j].status.generation == o.from
    ensures run[j].status.support == Gated && !MayTurnLegacy(run[j].status)
  {
    Reachable(run, j);
    RunExtends(run, i, j);
    assert o in run[j].observed && Shows(o, o.from);
  }

  function Last(run: seq<State>): State
    requires run != []
  {
    run[|run| - 1]
  }

  lemma Further(run: seq<State>, step: Step) returns (longer: seq<State>)
    requires run != [] && IsRun(run) && Enabled(Last(run), step)
    ensures longer != [] && IsRun(longer) && Last(longer) == Apply(Last(run), step)
  {
    hide Apply, Enabled;
    longer := run + [Apply(Last(run), step)];
    assert Next(Last(run), Apply(Last(run), step));
    forall i | 0 < i < |longer| ensures Next(longer[i - 1], longer[i]) {
      if i < |run| {
        assert Next(run[i - 1], run[i]);
      }
    }
  }

  lemma Attached() returns (run: seq<State>)
    ensures run != [] && IsRun(run) && Last(run).status == FreshStatus(1) && Last(run).counter == 1 && Last(run).reading == map[]
  {
    run := [START];
    assert IsRun(run);
    hide IsRun, Kept, Closed;
    run := Further(run, DoNumber);
    run := Further(run, DoInstall);
    run := Further(run, DoFailPrevious);
    run := Further(run, DoResetStatus);
  }

  function BuildMessage(version: Option<nat>): Message {
    Message(None, None, None, None, None, false, BuildInfo(version), None)
  }

  lemma Pushes(run: seq<State>, version: Option<nat>) returns (longer: seq<State>)
    requires run != [] && IsRun(run) && Last(run).counter == 1 && Last(run).reading == map[] && Last(run).status.generation == 1
    ensures longer != [] && IsRun(longer) && Last(longer).counter == 1 && Last(longer).reading == map[]
    ensures Last(longer).status == Capture(Last(run), BuildMessage(version), 1).status
    ensures Last(longer).observed == Last(run).observed + [Pushed(1, 1, BuildMessage(version))]
  {
    hide IsRun, Kept, Closed, Cause.Takes;
    longer := Further(run, DoReceive(1, BuildMessage(version)));
    longer := Further(longer, DoAnnounce(1));
    longer := Further(longer, DoDeliver(1));
    assert Last(longer).reading == map[];
  }

  /** A helper may push build info without gates after one with gates: from then on it does
    * not advertise gates, but its support stays Gated. */
  lemma AdvertisementCanBeWithdrawn() returns (run: seq<State>)
    ensures run != [] && IsRun(run)
    ensures var b := Last(run);
            && (exists o :: o in b.observed && o.Pushed? && o.from == o.status == b.status.generation
                  && o.message.metadata == BuildInfo(Some(1)))
            && !b.status.AdvertisesGates() && b.status.support == Gated
  {
    hide IsRun;
    run := Attached();
    var none := Last(run).observed;
    run := Pushes(run, Some(1));
    run := Pushes(run, None);
    assert Last(run).observed[|none|] == Pushed(1, 1, BuildMessage(Some(1)));
    assert Last(run).observed[|none|] in Last(run).observed;
  }

  /** Each origin's stored gates are the first snapshot of maximal revision among
    * all that arrived in this generation. */
  lemma StoredGatesAreFirstMaximal(run: seq<State>, j: nat, origin: Origin) returns (k: nat)
    requires IsRun(run) && j < |run|
    requires Snapshots(run[j].observed, run[j].status.generation, origin) != []
    ensures var history := Snapshots(run[j].observed, run[j].status.generation, origin);
            && origin in run[j].status.instanceGates && k < |history|
            && run[j].status.instanceGates[origin] == history[k]
            && (forall l :: 0 <= l < |history| ==> history[l].revision <= history[k].revision)
            && (forall l :: 0 <= l < k ==> history[l].revision < history[k].revision)
  {
    Reachable(run, j);
    k := WinnerIsFirstMaximal(Snapshots(run[j].observed, run[j].status.generation, origin));
  }

  /** A request whose id the bridge generated is answered only by the helper of
    * the very connection it was enqueued on. */
  lemma RepliesComeFromTheSameGeneration(b: State, request: nat)
    requires Inv(b) && request in b.closed && b.closed[request].Answered?
    requires b.registered[request].matcher.Correlation? && !b.registered[request].matcher.id.Client?
    ensures b.registered[request].generation == Some(b.closed[request].from)
  {
    var id := b.registered[request].matcher.id;
    assert ClosingOk(b, request, b.closed[request]);
    assert Heard(b, b.closed[request].from, id);
    var f :| f in b.frames && f.generation == b.closed[request].from && f.correlation == Some(id);
    assert FrameOk(b, f);
  }

  /** The message is what the waiter waits for: a reply by its id, a reply to its action, or a
    * token, of its origin if it names one. */
  predicate Accepts(matcher: Matcher, m: Message) {
    match matcher
    case Correlation(id) => m.requestId == Some(id)
    case Action(name) => m.action == Some(name)
    case Session(origin) =>
      && m.instance.Some? && m.instance.value.token.Some? && m.instance.value.token.value != ""
      && (origin.Some? ==> m.instance.value.url.origin == origin)
  }

  /** A delivered message answers every pending waiter that waits for it, and no other. */
  lemma DeliveryAnswersEveryMatch(b: State, generation: nat)
    requires Inv(b) && Enabled(b, DoDeliver(generation))
    ensures var b', m := Apply(b, DoDeliver(generation)), b.reading[generation].message;
            && (forall w :: w in b'.waiters <==> w in b.waiters && !Accepts(w.matcher, m))
            && (forall w :: w in b.waiters && Accepts(w.matcher, m) ==>
                  w.id in b'.closed && b'.closed[w.id] == Answered(m, generation))
            && (forall i :: i in b'.closed && i !in b.closed ==> exists w :: w in b.waiters && w.id == i && Accepts(w.matcher, m))
  {
    hide Inv;
    var m := b.reading[generation].message;
    forall w: Waiter ensures Reply(m, generation).Takes(w) <==> Accepts(w.matcher, m) {
    }
    hide Cause.Takes, Accepts;
  }

  /** A teardown fails every pending waiter of its generation, and no other. */
  lemma TeardownFailsItsWaiters(b: State, generation: nat)
    requires Inv(b) && Enabled(b, DoFailDetached(generation))
    ensures var b' := Apply(b, DoFailDetached(generation));
            && (forall w :: w in b'.waiters <==> w in b.waiters && w.generation != Some(generation))
            && (forall w :: w in b.waiters && w.generation == Some(generation) ==> w.id in b'.closed && b'.closed[w.id] == Failed)
            && (forall i :: i in b'.closed && i !in b.closed ==> exists w :: w in b.waiters && w.id == i && w.generation == Some(generation))
  {
    hide Inv;
    forall w: Waiter ensures Teardown(generation).Takes(w) <==> w.generation == Some(generation) {
    }
    hide Cause.Takes;
  }

  /** The request went out on the socket of its generation, or its caller gave it up. */
  ghost predicate SentOrGivenUp(b: State, request: nat)
    requires request < |b.registered|
  {
    b.registered[request].generation.Some? ==>
      request in b.abandoned
      || exists f :: f in b.frames && f.waiter == request && b.registered[request].generation == Some(f.generation)
  }

  lemma StillSent(b: State, b': State, request: nat)
    requires request < |b.registered| && SentOrGivenUp(b, request)
    requires b.registered <= b'.registered && b.frames <= b'.frames && b.abandoned <= b'.abandoned
    ensures SentOrGivenUp(b', request)
  {
    if b.registered[request].generation.Some? && request !in b.abandoned {
      var f :| f in b.frames && f.waiter == request && b.registered[request].generation == Some(f.generation);
      assert f in b'.frames;
    }
  }

  lemma NewlySent(b: State, step: Step)
    requires Enabled(b, step)
    ensures var b' := Apply(b, step);
            || b'.registered == b.registered
            || (|b'.registered| == |b.registered| + 1 && SentOrGivenUp(b', |b.registered|))
  {
    hide Capture, Kept, Closed;
    match step
    case DoEnqueue(ask) =>
      var b' := Enqueue(b, ask);
      assert b'.frames[|b.frames|] in b'.frames;
    case DoReceive(g, m) => CaptureLeavesRequests(b, m, g);
    case _ =>
  }

  lemma CaptureLeavesRequests(b: State, m: Message, generation: nat)
    ensures Capture(b, m, generation).registered == b.registered
  {
  }

  /** No request is left behind unsent: in every state of every run each one registered for a
    * connection was put on that connection's socket, or has been given up and awaits the
    * sweep. */
  lemma {:induction false} RequestsAreSentOrGivenUp(run: seq<State>, k: nat, request: nat)
    requires IsRun(run) && k < |run| && request < |run[k].registered|
    ensures SentOrGivenUp(run[k], request)
  {
    hide SentOrGivenUp, Inv;
    if k == 0 {
    } else {
      var step := RunStep(run, k - 1);
      hide IsRun;
      NewlySent(run[k - 1], step);
      hide Apply, Enabled;
      if request < |run[k - 1].registered| {
        RequestsAreSentOrGivenUp(run, k - 1, request);
        StillSent(run[k - 1], run[k], request);
      }
    }
  }

  /** The sweep removes every pending waiter whose caller gave up, and no other. */
  lemma SweepRemovesTheAbandoned(b: State)
    requires Inv(b)
    ensures var b' := Apply(b, DoSweep);
            && (forall w :: w in b'.waiters <==> w in b.waiters && w.id !in b.abandoned)
            && (forall w :: w in b.waiters && w.id in b.abandoned ==> w.id in b'.closed && b'.closed[w.id] == Swept)
  {
    hide Inv;
    forall w: Waiter ensures Cleanup(b.abandoned).Takes(w) <==> w.id in b.abandoned {
    }
    hide Cause.Takes;
  }
}
