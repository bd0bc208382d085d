/** The session cache under dispatch: refreshes and verdicts keep it coherent. */
module DispatchSessions {
  import opened Prelude
  import opened Gates
  import opened Dispatch
  import opened DispatchTheorems
  import B = Bridge
  import S = SessionCache

  lemma CoherentLater(c: S.Cache, before: nat, after: nat)
    requires S.Coherent(c, before) && before <= after
    ensures S.Coherent(c, after)
  {
  }

  /** Reading the clock at `now`, a call keeps the cache coherent. */
  lemma CallAt(c: S.Cache, call: S.Call, before: nat, now: nat)
    requires S.Coherent(c, before) && S.Allowed(c, call) && before <= now
    requires call.CallRemember? || call.CallVerify? ==> S.Time(call) == now
    ensures S.Coherent(S.Perform(c, call), now)
  {
    hide S.Coherent, S.Perform;
    S.CallKeepsCoherent(c, call, before, now);
  }

  /** The choice may repoint the latest origin as the cache itself might. */
  ghost predicate MayEvict(w: World, t: Task, choice: Choice) {
    t.phase.Evicting? && t.phase.session.url.origin.Some? ==>
      S.Allowed(w.cache, S.CallClear(t.phase.session.url.origin.value, choice.pick))
  }

  lemma VerdictKeepsCoherent(w: World, tid: nat, t: Task, choice: Choice, clock: nat)
    requires S.Coherent(w.cache, clock) && clock <= choice.now && t.phase.AwaitingReply?
    ensures S.Coherent(StepTask(w, tid, t, choice).world.cache, choice.now)
  {
    hide S.Coherent, S.MarkVerified;
    CoherentLater(w.cache, clock, choice.now);
    var instance := t.payload.instance;
    if instance.Some? && instance.value.url.origin.Some? {
      CallAt(w.cache, S.CallVerify(instance.value.url.origin.value, choice.now), clock, choice.now);
    }
  }

  lemma TokenKeepsCoherent(w: World, tid: nat, t: Task, choice: Choice, clock: nat)
    requires S.Coherent(w.cache, clock) && clock <= choice.now && t.phase.AwaitingToken?
    ensures S.Coherent(StepTask(w, tid, t, choice).world.cache, choice.now)
  {
    hide S.Coherent, S.Remember;
    CoherentLater(w.cache, clock, choice.now);
    var waiter := t.phase.waiter;
    if waiter in w.bridge.closed && w.bridge.closed[waiter].Answered? && w.bridge.closed[waiter].message.instance.Some? {
      CallAt(w.cache, S.CallRemember(w.bridge.closed[waiter].message.instance.value, choice.now), clock, choice.now);
    }
  }

  lemma EvictionKeepsCoherent(w: World, tid: nat, t: Task, choice: Choice, clock: nat)
    requires S.Coherent(w.cache, clock) && clock <= choice.now && t.phase.Evicting? && MayEvict(w, t, choice)
    ensures S.Coherent(StepTask(w, tid, t, choice).world.cache, choice.now)
  {
    hide S.Coherent, S.ClearOrigin, S.MayFollow;
    var origin := t.phase.session.url.origin;
    if origin.Some? {
      CallAt(w.cache, S.CallClear(origin.value, choice.pick), clock, choice.now);
    } else {
      CallAt(w.cache, S.CallClearAll, clock, choice.now);
    }
  }

  lemma TaskKeepsCoherent(w: World, tid: nat, t: Task, choice: Choice, clock: nat)
    requires S.Coherent(w.cache, clock) && clock <= choice.now && MayEvict(w, t, choice)
    ensures S.Coherent(StepTask(w, tid, t, choice).world.cache, choice.now)
  {
    hide S.Coherent, StepTask, MayEvict;
    if t.phase.AwaitingReply? {
      VerdictKeepsCoherent(w, tid, t, choice, clock);
    } else if t.phase.AwaitingToken? {
      TokenKeepsCoherent(w, tid, t, choice, clock);
    } else if t.phase.Evicting? {
      EvictionKeepsCoherent(w, tid, t, choice, clock);
    } else {
      CacheUntouched(w, tid, t, choice);
      CoherentLater(w.cache, clock, choice.now);
    }
  }

  lemma StepKeepsCoherent(s: System, step: SystemStep, s': System)
    requires S.Coherent(s.world.cache, s.clock) && SystemNext(s, step, s')
    ensures S.Coherent(s'.world.cache, s'.clock)
  {
    hide S.Coherent, S.Perform, StepTask, S.Allowed;
    match step
    case Accept(_, _) =>
    case Run(tid, choice) => TaskKeepsCoherent(s.world, tid, s.tasks[tid], choice, s.clock);
    case Bridge(_) =>
    case Client(call) => CallAt(s.world.cache, call, s.clock, s'.clock);
  }

  lemma NothingCached()
    ensures S.Coherent(S.EMPTY, 0)
  {
  }

  /** In every run of dispatches, reconnects and client calls, under a clock that never
    * steps back, the cache stays coherent. */
  lemma {:induction false} CacheStaysCoherent(run: seq<System>, steps: seq<SystemStep>, k: nat)
    requires IsRun(run, steps) && k < |run|
    ensures S.Coherent(run[k].world.cache, run[k].clock)
  {
    hide S.Coherent, SystemNext;
    if k == 0 {
      NothingCached();
    } else {
      CacheStaysCoherent(run, steps, k - 1);
      StepKeepsCoherent(run[k - 1], steps[k - 1], run[k]);
    }
  }

  // --- What dispatch does to the cache --------------------------------------------------------

  /** The session cached for the payload's own origin, when there is one. */
  function CachedFor(c: S.Cache, payload: Payload): Option<SnuInstance> {
    if payload.instance.Some? && payload.instance.value.url.origin.Some? && payload.instance.value.url.origin.value in c.sessions
    then Some(c.sessions[payload.instance.value.url.origin.value]) else None
  }

  /** A legacy action is sent with the newest session cached for its origin when it got the
    * lock, which an earlier caller may have renewed. */
  lemma LegacyActionsUseTheNewestSession(w: World, tid: nat, t: Task, choice: Choice)
    requires t.phase.Refreshing?
    ensures var m := StepTask(w, tid, t, choice);
            && m.task.phase.Sending? && m.world == w
            && m.task.payload.instance == (if CachedFor(w.cache, t.payload).Some? then CachedFor(w.cache, t.payload) else t.payload.instance)
            && m.task.payload.(instance := None) == t.payload.(instance := None)
  {
    hide StepChecking, StepQuerying, StepAwaitingReport, StepReportTimedOut, CommitLegacy, StepQueued, StepSending,
         StepAwaitingReply, StepProbing, StepAwaitingProbe, StepEvicting, StepPrompting, StepAwaitingToken;
  }

  /** Success of an action that carries an id, or of a legacy one, verifies its cached session
    * at that time; no other reply does, and none changes which sessions are cached. */
  lemma SuccessVerifiesTheSession(w: World, tid: nat, t: Task, choice: Choice)
    requires t.phase.AwaitingReply? && t.protocol.Some?
    ensures var c, c', t' := w.cache, StepTask(w, tid, t, choice).world.cache, StepTask(w, tid, t, choice).task;
            && c'.sessions == c.sessions && c'.latest == c.latest
            && (if t'.phase == Done(Succeeded) && !t.protocol.value.ByAction? && CachedFor(c, t.payload).Some? then
                  var o := t.payload.instance.value.url.origin.value;
                  && o in c'.freshness && c'.freshness[o].verifiedAt == Some(choice.now)
                  && (o in c.freshness ==> c'.freshness[o].capturedAt == c.freshness[o].capturedAt)
                  && c'.freshness - {o} == c.freshness - {o}
                else c' == c)
  {
    hide StepChecking, StepQuerying, StepAwaitingReport, StepReportTimedOut, CommitLegacy, StepQueued, StepRefreshing, StepSending,
         StepProbing, StepAwaitingProbe, StepEvicting, StepPrompting, StepAwaitingToken, B.Abandon;
  }

  /** An eviction removes the session of the origin, or without an origin every session; and
    * the session that ends the wait behind it is cached, is the latest, and is the one the
    * action is sent with again. */
  lemma RefreshReplacesTheSession(w: World, tid: nat, t: Task, choice: Choice)
    ensures t.phase.Evicting? ==>
              var c', origin := StepTask(w, tid, t, choice).world.cache, t.phase.session.url.origin;
              if origin.Some? then c'.sessions == w.cache.sessions - {origin.value} else c'.sessions == map[]
    ensures var m := StepTask(w, tid, t, choice);
            t.phase.AwaitingToken? && m.task.phase == Checking(AfterRefresh) ==>
              && t.phase.waiter in w.bridge.closed && w.bridge.closed[t.phase.waiter].Answered?
              && m.task.payload.instance.Some? && m.task.payload.instance == w.bridge.closed[t.phase.waiter].message.instance
              && (m.task.payload.instance.value.url.origin.Some? ==>
                    && CachedFor(m.world.cache, m.task.payload) == m.task.payload.instance
                    && m.world.cache.latest == m.task.payload.instance.value.url.origin)
  {
    hide StepChecking, StepQuerying, StepAwaitingReport, StepReportTimedOut, CommitLegacy, StepQueued, StepRefreshing, StepSending,
         StepAwaitingReply, StepProbing, StepAwaitingProbe, StepPrompting, B.Abandon;
  }
}
