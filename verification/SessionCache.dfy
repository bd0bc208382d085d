/** The broker's session cache: values, laws over call sequences, and the class. */
module SessionCache {
  import opened Prelude
  import opened Gates

  /** Freshness of one origin's token, in epoch seconds. */
  datatype Freshness = Freshness(capturedAt: Option<nat>, verifiedAt: Option<nat>)

  datatype Cache = Cache(
    sessions: map<Origin, SnuInstance>,
    freshness: map<Origin, Freshness>,
    latest: Option<Origin>)

  const EMPTY: Cache := Cache(map[], map[], None)

  function Remember(c: Cache, instance: SnuInstance, now: nat): Cache {
    if instance.url.origin.None? then c
    else
      var o := instance.url.origin.value;
      var changed := o !in c.sessions || c.sessions[o].token != instance.token;
      Cache(c.sessions[o := instance],
            if changed then c.freshness[o := Freshness(Some(now), None)] else c.freshness,
            Some(o))
  }

  function MarkVerified(c: Cache, origin: Origin, now: nat): Cache {
    if origin !in c.sessions then c
    else
      var f := if origin in c.freshness then c.freshness[origin] else Freshness(None, None);
      c.(freshness := c.freshness[origin := f.(verifiedAt := Some(now))])
  }

  /** Any remaining origin may become the latest one; none only if none remains. */
  ghost predicate MayFollow(sessions: map<Origin, SnuInstance>, pick: Option<Origin>) {
    match pick
    case None => sessions == map[]
    case Some(o) => o in sessions
  }

  function ClearOrigin(c: Cache, origin: Origin, pick: Option<Origin>): Cache {
    Cache(c.sessions - {origin},
          c.freshness - {origin},
          if c.latest == Some(origin) then pick else c.latest)
  }

  /** Seeding at startup: an empty snapshot changes nothing. */
  function Restore(c: Cache, sessions: map<Origin, SnuInstance>, latest: Option<Origin>, pick: Option<Origin>): Cache {
    if sessions == map[] then c
    else
      c.(sessions := sessions, latest := if latest.Some? && latest.value in sessions then latest else pick)
  }

  // --- Laws over every sequence of calls -----------------------------------

  datatype Call =
    | CallRemember(instance: SnuInstance, now: nat)
    | CallVerify(origin: Origin, now: nat)
    | CallClear(origin: Origin, pick: Option<Origin>)
    | CallClearAll

  ghost predicate Allowed(c: Cache, call: Call) {
    call.CallClear? && c.latest == Some(call.origin) ==> MayFollow(c.sessions - {call.origin}, call.pick)
  }

  function Perform(c: Cache, call: Call): Cache {
    match call
    case CallRemember(instance, now) => Remember(c, instance, now)
    case CallVerify(origin, now) => MarkVerified(c, origin, now)
    case CallClear(origin, pick) => ClearOrigin(c, origin, pick)
    case CallClearAll => EMPTY
  }

  function Time(call: Call): nat {
    match call
    case CallRemember(_, now) => now
    case CallVerify(_, now) => now
    case _ => 0
  }

  /** One call, under a clock that never steps back and that the call reads. */
  ghost predicate Calls(c: Cache, call: Call, c': Cache, before: nat, after: nat) {
    && Allowed(c, call)
    && c' == Perform(c, call)
    && before <= after
    && (call.CallRemember? || call.CallVerify? ==> after == Time(call))
  }

  ghost predicate IsRun(caches: seq<Cache>, calls: seq<Call>, clock: seq<nat>) {
    && |caches| == |calls| + 1 && |clock| == |calls| + 1
    && forall i :: 0 < i < |caches| ==> Calls(caches[i - 1], calls[i - 1], caches[i], clock[i - 1], clock[i])
  }

  /** The latest origin is missing exactly when nothing is cached and otherwise
    * names a cached session; freshness is kept for cached origins only, and a
    * verification is never older than the capture it vouches for. */
  ghost predicate Coherent(c: Cache, clock: nat) {
    && (c.latest.None? <==> c.sessions == map[])
    && (c.latest.Some? ==> c.latest.value in c.sessions)
    && c.freshness.Keys <= c.sessions.Keys
    && forall o :: o in c.freshness ==>
         var f := c.freshness[o];
         && (f.capturedAt.Some? ==> f.capturedAt.value <= clock)
         && (f.capturedAt.Some? && f.verifiedAt.Some? ==> f.capturedAt.value <= f.verifiedAt.value)
  }

  lemma CallKeepsCoherent(c: Cache, call: Call, before: nat, after: nat)
    requires Coherent(c, before) && Allowed(c, call) && before <= after
    requires call.CallRemember? || call.CallVerify? ==> after == Time(call)
    ensures Coherent(Perform(c, call), after)
  {
    if call.CallRemember? && call.instance.url.origin.Some? {
      assert call.instance.url.origin.value in Perform(c, call).sessions;
    }
    if call.CallClear? && c.latest.Some? && c.latest != Some(call.origin) {
      assert c.latest.value in Perform(c, call).sessions;
    }
  }

  /** Every cache reachable from an empty or restored one is coherent. */
  lemma {:induction false} ReachableCachesAreCoherent(caches: seq<Cache>, calls: seq<Call>, clock: seq<nat>, k: nat)
    requires IsRun(caches, calls, clock) && k < |caches|
    requires exists sessions, latest, pick :: MayFollow(sessions, pick) && caches[0] == Restore(EMPTY, sessions, latest, pick)
    ensures Coherent(caches[k], clock[k])
  {
    if k == 0 {
    } else {
      ReachableCachesAreCoherent(caches, calls, clock, k - 1);
      CallKeepsCoherent(caches[k - 1], calls[k - 1], clock[k - 1], clock[k]);
    }
  }

  /** No call on behalf of one origin changes what is cached for another; an
    * unchanged token keeps its capture and verification times. */
  lemma CallsFrameOtherOrigins(c: Cache, call: Call, other: Origin)
    requires !call.CallClearAll?
    requires call.CallRemember? ==> call.instance.url.origin != Some(other)
    requires call.CallVerify? || call.CallClear? ==> call.origin != other
    ensures var c' := Perform(c, call);
            && (other in c'.sessions <==> other in c.sessions)
            && (other in c.sessions ==> c'.sessions[other] == c.sessions[other])
            && (other in c'.freshness <==> other in c.freshness)
            && (other in c.freshness ==> c'.freshness[other] == c.freshness[other])
    ensures call.CallVerify? ==> Perform(c, call).sessions == c.sessions && Perform(c, call).latest == c.latest
  {
  }

  lemma RememberingAgainKeepsFreshness(c: Cache, instance: SnuInstance, now: nat)
    requires instance.url.origin.Some?
    requires instance.url.origin.value in c.sessions && c.sessions[instance.url.origin.value].token == instance.token
    ensures Remember(c, instance, now).freshness == c.freshness
    ensures Remember(Remember(c, instance, now), instance, now + 1) == Remember(c, instance, now)
  {
  }

  // --- The cache as its history ---------------------------------------------------

  /** The session last remembered for an origin and not cleared since. */
  function Served(calls: seq<Call>, o: Origin): Option<SnuInstance> {
    if calls == [] then None
    else
      var earlier := Served(calls[..|calls| - 1], o);
      match calls[|calls| - 1]
      case CallRemember(instance, _) => if instance.url.origin == Some(o) then Some(instance) else earlier
      case CallVerify(_, _) => earlier
      case CallClear(origin, _) => if origin == o then None else earlier
      case CallClearAll => None
  }

  /** When the token now served was first remembered, and when it was last verified. */
  function Times(calls: seq<Call>, o: Origin): Option<Freshness> {
    if calls == [] then None
    else
      var before := calls[..|calls| - 1];
      match calls[|calls| - 1]
      case CallRemember(instance, now) =>
        if instance.url.origin != Some(o) || (Served(before, o).Some? && Served(before, o).value.token == instance.token)
        then Times(before, o) else Some(Freshness(Some(now), None))
      case CallVerify(origin, now) =>
        if origin != o || Served(before, o).None? then Times(before, o)
        else Some(Freshness(if Times(before, o).Some? then Times(before, o).value.capturedAt else None, Some(now)))
      case CallClear(origin, _) => if origin == o then None else Times(before, o)
      case CallClearAll => None
  }

  /** The origin last remembered, until it is cleared. */
  function Newest(calls: seq<Call>): Option<Origin> {
    if calls == [] then None
    else
      var earlier := Newest(calls[..|calls| - 1]);
      match calls[|calls| - 1]
      case CallRemember(instance, _) => if instance.url.origin.Some? then instance.url.origin else earlier
      case CallVerify(_, _) => earlier
      case CallClear(origin, _) => if earlier == Some(origin) then None else earlier
      case CallClearAll => None
  }

  /** From an empty cache, after any calls: what is cached for an origin is the session last
    * remembered for it and not cleared since; its times are those of that session's token; and
    * the origin last remembered is the latest until it is cleared. */
  lemma {:induction false} CacheIsItsHistory(caches: seq<Cache>, calls: seq<Call>, clock: seq<nat>, k: nat, o: Origin)
    requires IsRun(caches, calls, clock) && k < |caches| && caches[0] == EMPTY
    ensures var c, past := caches[k], calls[..k];
            && (if o in c.sessions then Served(past, o) == Some(c.sessions[o]) else Served(past, o) == None)
            && (if o in c.freshness then Times(past, o) == Some(c.freshness[o]) else Times(past, o) == None)
            && (Newest(past).Some? ==> c.latest == Newest(past))
  {
    if k == 0 {
    } else {
      CacheIsItsHistory(caches, calls, clock, k - 1, o);
      assert calls[..k][..k - 1] == calls[..k - 1] && calls[..k][k - 1] == calls[k - 1];
      assert Calls(caches[k - 1], calls[k - 1], caches[k], clock[k - 1], clock[k]);
    }
  }

  // --- The cache in place ---------------------------------------------------------

  class BrokerState {
    var sessions: map<Origin, SnuInstance>
    var freshness: map<Origin, Freshness>
    var latest: Option<Origin>

    ghost function State(): Cache
      reads this
    {
      Cache(sessions, freshness, latest)
    }

    constructor ()
      ensures State() == EMPTY
    {
      sessions, freshness, latest := map[], map[], None;
    }

    method RememberSession(instance: SnuInstance, now: nat)
      modifies this
      ensures State() == Remember(old(State()), instance, now)
    {
      if instance.url.origin.Some? {
        var o := instance.url.origin.value;
        if o !in sessions || sessions[o].token != instance.token {
          freshness := freshness[o := Freshness(Some(now), None)];
        }
        sessions := sessions[o := instance];
        latest := Some(o);
      }
    }

    method MarkSessionVerified(origin: Origin, now: nat)
      modifies `freshness
      ensures State() == MarkVerified(old(State()), origin, now)
    {
      if origin in sessions {
        var f := if origin in freshness then freshness[origin] else Freshness(None, None);
        freshness := freshness[origin := f.(verifiedAt := Some(now))];
      }
    }

    method ClearOneOrigin(origin: Origin) returns (removed: bool)
      modifies this
      ensures removed <==> origin in old(sessions)
      ensures State() == ClearOrigin(old(State()), origin, latest)
      ensures Allowed(old(State()), CallClear(origin, latest))
    {
      removed := origin in sessions;
      sessions := sessions - {origin};
      freshness := freshness - {origin};
      if latest == Some(origin) {
        if sessions.Keys == {} {
          latest := None;
        } else {
          var successor :| successor in sessions.Keys;
          latest := Some(successor);
        }
      }
    }

    method ClearAll() returns (cleared: set<Origin>)
      modifies this
      ensures State() == EMPTY && cleared == old(sessions).Keys
    {
      cleared := sessions.Keys;
      sessions, freshness, latest := map[], map[], None;
    }

    method RestoreSessions(persisted: map<Origin, SnuInstance>, persistedLatest: Option<Origin>)
      modifies this
      ensures State() == Restore(old(State()), persisted, persistedLatest, latest)
      ensures persisted != map[] ==> sessions == persisted && latest.Some? && latest.value in persisted
      ensures persistedLatest.Some? && persistedLatest.value in persisted ==> latest == persistedLatest
      ensures persisted == map[] ==> State() == old(State())
    {
      if persisted.Keys == {} {
        assert persisted == map[];
        return;
      }
      if persistedLatest.Some? && persistedLatest.value in persisted {
        latest := persistedLatest;
      } else {
        var some :| some in persisted.Keys;
        latest := Some(some);
      }
      sessions := persisted;
    }
  }
}
