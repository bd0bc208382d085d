/** The connection manager's critical sections, in place, against the step functions. */
module BridgeManager {
  import opened Prelude
  import opened Gates
  import opened Bridge

  datatype Refusal = NotConnected | OtherGeneration | SupportChanged | WriterGone

  lemma KeptSnoc(ws: seq<Waiter>, i: nat, cause: Cause)
    requires i < |ws|
    ensures Kept(ws[..i + 1], cause) == Kept(ws[..i], cause) + if cause.Takes(ws[i]) then [] else [ws[i]]
  {
    assert ws[..i + 1][..i] == ws[..i];
  }

  lemma ClosedSnoc(ws: seq<Waiter>, i: nat, cause: Cause)
    requires i < |ws|
    ensures Closed(ws[..i + 1], cause)
         == if cause.Takes(ws[i]) then Closed(ws[..i], cause)[ws[i].id := cause.Closing()] else Closed(ws[..i], cause)
  {
    hide Cause.Takes, Cause.Closing;
    assert ws[..i + 1] == ws[..i] + [ws[i]];
    var more := Closed(ws[..i + 1], cause);
    forall k ensures k in more <==> k in Closed(ws[..i], cause) || (cause.Takes(ws[i]) && k == ws[i].id) {
    }
  }

  lemma NothingClosed(ws: seq<Waiter>, cause: Cause)
    ensures Kept(ws[..0], cause) == [] && Closed(ws[..0], cause) == map[]
  {
    assert ws[..0] == [];
  }

  /** The pending list as far as the drain has come. */
  ghost predicate DrainedSoFar(
      ws: seq<Waiter>, i: nat, cause: Cause, remaining: seq<Waiter>, before: map<nat, Closing>, closed: map<nat, Closing>)
  {
    i <= |ws| && remaining == Kept(ws[..i], cause) && closed == before + Closed(ws[..i], cause)
  }

  lemma DrainStarts(ws: seq<Waiter>, cause: Cause, before: map<nat, Closing>)
    ensures DrainedSoFar(ws, 0, cause, [], before, before)
  {
    NothingClosed(ws, cause);
  }

  lemma DrainStep(
      ws: seq<Waiter>, i: nat, cause: Cause, remaining: seq<Waiter>, before: map<nat, Closing>, closed: map<nat, Closing>)
    requires i < |ws| && DrainedSoFar(ws, i, cause, remaining, before, closed)
    ensures cause.Takes(ws[i]) ==> DrainedSoFar(ws, i + 1, cause, remaining, before, closed[ws[i].id := cause.Closing()])
    ensures !cause.Takes(ws[i]) ==> DrainedSoFar(ws, i + 1, cause, remaining + [ws[i]], before, closed)
  {
    KeptSnoc(ws, i, cause);
    ClosedSnoc(ws, i, cause);
    hide Kept, Closed, Cause.Takes, Cause.Closing;
    var k := Closed(ws[..i], cause);
    if cause.Takes(ws[i]) {
      UpdateLast(before, k, ws[i].id, cause.Closing());
      NothingMore(Kept(ws[..i], cause));
    }
  }

  lemma UpdateLast(before: map<nat, Closing>, closed: map<nat, Closing>, id: nat, c: Closing)
    ensures (before + closed)[id := c] == before + closed[id := c]
  {
  }

  lemma NothingMore(ws: seq<Waiter>)
    ensures ws + [] == ws
  {
  }

  lemma DrainEnds(ws: seq<Waiter>, cause: Cause, remaining: seq<Waiter>, before: map<nat, Closing>, closed: map<nat, Closing>)
    requires DrainedSoFar(ws, |ws|, cause, remaining, before, closed)
    ensures remaining == Kept(ws, cause) && closed == before + Closed(ws, cause)
  {
    hide Kept, Closed;
    assert ws[..|ws|] == ws;
  }

  /** An undisturbed attach fails exactly the waiters of the connection it replaced. */
  lemma AttachFailsOnlyReplaced(b: State, w: Waiter)
    requires b.attach.Idle?
    ensures w in FailPrevious(Install(Number(b))).waiters <==> w in b.waiters && (w.generation.None? || w.generation != b.conn)
  {
  }

  lemma NothingMerged(start: HelperStatus, report: map<Origin, GateSnapshot>)
    ensures start == start.(instanceGates := MergeGates(start.instanceGates, report - report.Keys))
  {
    assert MergeGates(start.instanceGates, report - report.Keys) == start.instanceGates;
  }

  lemma OneMoreMerged(start: HelperStatus, report: map<Origin, GateSnapshot>, left: set<Origin>, origin: Origin)
    requires left <= report.Keys && origin in left
    ensures start.(instanceGates := MergeGates(start.instanceGates, report - left)).ApplySnapshot(origin, report[origin])
         == start.(instanceGates := MergeGates(start.instanceGates, report - (left - {origin})))
  {
    var merged := start.(instanceGates := MergeGates(start.instanceGates, report - left));
    assert merged.ApplySnapshot(origin, report[origin]).instanceGates == MergeGates(start.instanceGates, report - (left - {origin}));
  }

  class Manager {
    var counter: nat
    var conn: Option<nat>
    var status: HelperStatus
    var waiters: seq<Waiter>
    // What the oneshot, outbound and session channels carried.
    var closed: map<nat, Closing>
    var frames: seq<Frame>
    var captured: seq<SnuInstance>
    var requests: nat
    var attach: Attach
    ghost var detaching: set<nat>
    ghost var reading: map<nat, Delivery>
    ghost var installed: nat
    ghost var retired: set<nat>
    ghost var registered: seq<Waiter>
    var abandoned: set<nat>
    ghost var delivered: seq<Message>
    ghost var observed: seq<Observation>

    ghost predicate Valid()
      reads this
    {
      requests == |registered|
    }

    ghost function State(): State
      reads this
    {
      Bridge.State.State(counter, conn, status, waiters, frames, captured, attach, detaching, reading,
                         installed, retired, registered, closed, abandoned, delivered, observed)
    }

    constructor ()
      ensures Valid() && State() == START
    {
      counter, conn, status, waiters := 0, None, FreshStatus(0), [];
      closed, frames, captured, requests, abandoned := map[], [], [], 0, {};
      attach, detaching, reading, installed, retired := Idle, {}, map[], 0, {};
      registered, delivered, observed := [], [], [];
    }

    /** Drain the pending list, answering those `cause` takes and keeping the rest. */
    method CloseWaiters(cause: Cause)
      requires Valid()
      modifies `waiters, `closed
      ensures Valid() && State() == Remove(old(State()), cause)
    {
      hide Kept, Closed, Cause.Takes, Cause.Closing, DrainedSoFar;
      var remaining: seq<Waiter> := [];
      ghost var before := closed;
      var i := 0;
      DrainStarts(waiters, cause, before);
      while i < |waiters|
        invariant 0 <= i <= |waiters| && waiters == old(waiters)
        invariant DrainedSoFar(waiters, i, cause, remaining, before, closed)
      {
        DrainStep(waiters, i, cause, remaining, before, closed);
        if cause.Takes(waiters[i]) {
          closed := closed[waiters[i].id := cause.Closing()];
        } else {
          remaining := remaining + [waiters[i]];
        }
        i := i + 1;
      }
      DrainEnds(waiters, cause, remaining, before, closed);
      waiters := remaining;
    }

    method FailWaitersForGeneration(generation: nat)
      requires Valid()
      modifies `waiters, `closed, `retired
      ensures Valid() && State() == FailWaiters(old(State()), generation)
    {
      CloseWaiters(Teardown(generation));
      retired := retired + {generation};
    }

    method NumberConnection() returns (generation: nat)
      requires Valid() && attach.Idle?
      modifies `counter, `attach
      ensures Valid() && State() == Number(old(State())) && generation == old(counter) + 1
    {
      counter := counter + 1;
      generation, attach := counter, Numbered(counter);
    }

    method InstallConnection()
      requires Valid() && attach.Numbered?
      modifies `conn, `attach, `installed
      ensures Valid() && State() == Install(old(State()))
      ensures conn == Some(old(attach).generation)
    {
      var generation := attach.generation;
      attach := Installed(generation, conn);
      conn, installed := Some(generation), generation;
    }

    method FailReplaced()
      requires Valid() && attach.Installed?
      modifies this
      ensures Valid() && State() == FailPrevious(old(State()))
    {
      hide Remove;
      var generation := attach.generation;
      if attach.previous.Some? {
        FailWaitersForGeneration(attach.previous.value);
      }
      attach := Drained(generation);
    }

    method ResetHelperStatus()
      requires Valid() && attach.Drained?
      modifies this
      ensures Valid() && State() == ResetStatus(old(State()))
    {
      status, attach := FreshStatus(attach.generation), Idle;
    }

    /** Undisturbed, an attach installs the newest generation with a fresh status. */
    method AttachConnection() returns (generation: nat)
      requires Valid() && attach.Idle?
      modifies this
      ensures Valid() && State() == ResetStatus(FailPrevious(Install(Number(old(State())))))
      ensures generation == old(counter) + 1
    {
      hide FailWaiters;
      generation := NumberConnection();
      InstallConnection();
      FailReplaced();
      ResetHelperStatus();
    }

    /** Taking the connection is a no-op once another generation replaced it. */
    method TakeConnection(generation: nat) returns (taken: bool)
      requires Valid()
      modifies `conn, `detaching
      ensures Valid() && State() == Detach(old(State()), generation)
      ensures taken <==> old(conn) == Some(generation)
    {
      taken := conn == Some(generation);
      if taken {
        conn, detaching := None, detaching + {generation};
      }
    }

    method DetachConnection(generation: nat)
      requires Valid()
      modifies this
      ensures Valid()
      ensures State() == if old(conn) == Some(generation) then FailDetached(Detach(old(State()), generation), generation) else old(State())
    {
      var taken := TakeConnection(generation);
      if taken {
        FailWaitersForGeneration(generation);
        detaching := detaching - {generation};
      }
    }

    method CaptureHelperMetadata(m: Message, generation: nat)
      requires Valid()
      modifies `status
      ensures Valid() && State() == Capture(old(State()), m, generation)
    {
      if status.generation != generation {
        return;
      }
      match m.metadata
      case NoMetadata =>
      case BuildInfo(version) =>
        if version.Some? && version.value > 0 {
          status := status.(support := Gated);
        }
        status := status.(build := Some(version));
      case GateUpdate(origin, snapshot) =>
        if origin.Some? {
          status := status.ApplySnapshot(origin.value, snapshot);
        }
    }

    /** Any message carrying a token reaches the session stream. */
    method AnnounceMessage(m: Message, generation: nat)
      requires Valid() && generation in reading && reading[generation].message == m
      modifies `captured, `delivered, `reading
      ensures Valid() && State() == Announce(old(State()), generation)
    {
      if m.instance.Some? && m.instance.value.HasToken() {
        captured := captured + [m.instance.value];
      }
      delivered, reading := delivered + [m], reading[generation := Announced(m)];
    }

    /** Undisturbed, a delivery inspects, announces and routes one message. */
    method DeliverMessage(m: Message, generation: nat)
      requires Valid() && generation !in reading
      modifies this
      ensures Valid() && State() == Deliver(Announce(Receive(old(State()), generation, m), generation), generation)
    {
      hide Capture, Remove, Message.CarriesSession;
      ghost var pushed := Pushed(generation, status.generation, m);
      CaptureHelperMetadata(m, generation);
      observed := observed + [pushed];
      reading := reading[generation := Inspected(m)];
      AnnounceMessage(m, generation);
      CloseWaiters(Reply(m, generation));
      reading := reading - {generation};
    }

    method SweepAbandoned()
      requires Valid()
      modifies `waiters, `closed
      ensures Valid() && State() == Sweep(old(State()))
    {
      CloseWaiters(Cleanup(abandoned));
    }

    /** Queue a waiter under the next request number. */
    method RegisterWaiter(generation: Option<nat>, matcher: Matcher) returns (id: nat)
      requires Valid()
      modifies `waiters, `registered, `requests
      ensures Valid() && id == |old(registered)| && State() == Register(old(State()), generation, matcher)
    {
      id := requests;
      var waiter := Waiter(id, generation, matcher);
      waiters, registered, requests := waiters + [waiter], registered + [waiter], requests + 1;
    }

    /** The section of a request under the connection lock: check the generation and
      * the support the caller relies on, register the waiter, enqueue the frame. */
    method RequestBound(ask: Ask, expectedGeneration: Option<nat>, expectedSupport: Option<Support>, writerGone: bool)
      returns (r: Result<nat, Refusal>)
      requires Valid()
      modifies this
      ensures Valid()
      ensures r.Ok? <==>
              && old(conn).Some? && !writerGone
              && (expectedGeneration.Some? ==> expectedGeneration == old(conn))
              && (expectedSupport.Some? ==> old(conn) == Some(old(status).generation) && old(status).support == expectedSupport.value)
      ensures match r
              case Ok(request) => State() == Enqueue(old(State()), ask) && request == |old(registered)|
              case Err(WriterGone) => old(conn).Some? && State() == EnqueueRefused(old(State()), ask)
              case Err(_) => State() == old(State())
    {
      hide Ask.Matcher, Ask.Id, Ask.Content;
      if conn.None? {
        return Err(NotConnected);
      }
      if expectedGeneration.Some? && expectedGeneration != conn {
        return Err(OtherGeneration);
      }
      if expectedSupport.Some? && (status.generation != conn.value || status.support != expectedSupport.value) {
        return Err(SupportChanged);
      }
      var id := RegisterWaiter(conn, ask.Matcher(requests));
      if writerGone {
        abandoned := abandoned + {id};
        return Err(WriterGone);
      }
      frames := frames + [Frame(conn.value, id, ask.Id(id), ask.Content())];
      return Ok(id);
    }

    /** Commit a legacy verdict only if the status still belongs to the generation
      * read before the query and has shown no gates since. */
    method CommitLegacyVerdict(before: HelperStatus) returns (committed: bool)
      requires Valid()
      modifies `status
      ensures Valid()
      ensures committed <==> old(status).generation == before.generation && MayTurnLegacy(old(status))
      ensures State() == if committed then CommitLegacy(old(State())) else old(State())
    {
      committed := status.generation == before.generation && !status.AdvertisesGates() && status.support != Gated;
      if committed {
        status := status.(support := LegacyUnrestricted);
      }
    }

    /** Commit a gated report: its snapshots are applied one by one, in any order,
      * and each origin keeps the higher revision. */
    method CommitReport(before: HelperStatus, report: Report) returns (committed: bool)
      requires Valid()
      modifies `status, `observed
      ensures Valid() && (committed <==> old(status).generation == before.generation)
      ensures State() == if committed then CommitGated(old(State()), report) else old(State())
    {
      hide HelperStatus.AdvertisesGates, HelperStatus.ApplySnapshot, MergeGates;
      if status.generation != before.generation {
        return false;
      }
      status := status.(support := Gated);
      ghost var start := status;
      var left := report.instanceGates.Keys;
      NothingMerged(start, report.instanceGates);
      while left != {}
        invariant left <= report.instanceGates.Keys
        invariant status == start.(instanceGates := MergeGates(start.instanceGates, report.instanceGates - left))
        invariant observed == old(observed)
        decreases left
      {
        var origin :| origin in left;
        OneMoreMerged(start, report.instanceGates, left, origin);
        status := status.ApplySnapshot(origin, report.instanceGates[origin]);
        left := left - {origin};
      }
      assert report.instanceGates - left == report.instanceGates;
      observed := observed + [Reported(status.generation, report)];
      return true;
    }
  }
}
