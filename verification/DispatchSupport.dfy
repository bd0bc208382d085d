/** A helper that has shown gates is never again treated as one without them. */
module DispatchSupport {
  import opened Prelude
  import opened Gates
  import opened Dispatch
  import opened DispatchInvariants
  import opened DispatchProofs
  import opened DispatchEvidence
  import opened DispatchTheorems
  import B = Bridge
  import I = BridgeInvariants
  import T = BridgeTheorems

  /** The bridge of a system only moves on. */
  lemma StepExtends(s: System, step: SystemStep, s': System)
    requires SystemInv(s) && SystemNext(s, step, s')
    ensures s.world.bridge.observed <= s'.world.bridge.observed
  {
    hide SystemInv, StepTask, B.Enabled, B.Apply, Ambient, I.Inv, I.Later, TaskInv, BridgeKeeps;
    InvOf(s);
    match step
    case Accept(_, _) =>
    case Run(tid, choice) =>
      TaskOf(s, tid);
      TaskKeeps(s.world, tid, s.tasks[tid], choice);
      KeepsIsLater(s.world.bridge, s'.world.bridge, tid);
      ObservedLater(s.world.bridge, s'.world.bridge);
    case Bridge(step) =>
      I.StepKeeps(s.world.bridge, step);
      ObservedLater(s.world.bridge, s'.world.bridge);
    case Client(_) =>
  }

  lemma ObservedLater(b: B.State, b': B.State)
    requires I.Later(b, b')
    ensures b.observed <= b'.observed
  {
  }

  lemma {:induction false} SystemExtends(run: seq<System>, steps: seq<SystemStep>, i: nat, j: nat)
    requires IsRun(run, steps) && i <= j < |run|
    ensures run[i].world.bridge.observed <= run[j].world.bridge.observed
    decreases j - i
  {
    hide SystemInv, SystemNext;
    if i == j {
    } else {
      SystemExtends(run, steps, i, j - 1);
      ReachableSystem(run, steps, j - 1);
      assert SystemNext(run[j - 1], steps[j - 1], run[j]);
      StepExtends(run[j - 1], steps[j - 1], run[j]);
    }
  }

  /** Build info with gates, pushed to the status of the reader's own generation. */
  predicate Advertises(o: B.Observation) {
    && o.Pushed? && o.from == o.status && o.message.metadata.BuildInfo?
    && o.message.metadata.gateVersion.Some? && o.message.metadata.gateVersion.value > 0
  }

  lemma AdvertisedIsGated(b: B.State, o: B.Observation)
    requires I.Inv(b) && o in b.observed && Advertises(o) && b.status.generation == o.from
    ensures b.status.support == Gated && !B.MayTurnLegacy(b.status)
  {
    hide I.GenerationsOk, I.WaitersOk, I.PendingOk, I.IdsOk, I.ClosedOk, I.StreamOk, I.Ordered, I.LastBuild, I.Snapshots;
    assert I.Shows(o, o.from);
  }

  /** What a move of a dispatch must not do to a generation that has shown gates: settle on a
    * legacy verdict for it, write a legacy action to it, or take its silence for legacy. */
  ghost predicate FailsClosed(generation: nat, tid: nat, b: B.State, t: Task, b': B.State, t': Task) {
    && (Preflighting(t.phase) && (t'.phase.Queued? || t'.phase.Sending?) && t'.phase.preflight.decision == LegacyAllowed ==>
          t'.phase.preflight.generation != Some(generation))
    && (t.protocol.Some? && t.protocol.value.Legacy? && |Mine(b'.frames, tid)| > |Mine(b.frames, tid)| ==>
          b.conn != Some(generation) && b'.frames != [] && b'.frames[|b'.frames| - 1].generation != generation)
    && (t.phase.ConfirmingSilence? && t.phase.before.generation == b.status.generation == generation ==>
          t'.phase == Done(GateStateUnavailable))
  }

  /** From the moment a helper's build info with gates was inspected, in every run: its
    * generation reads gated whenever it is the status's; no dispatch is given a legacy
    * verdict for it, none writes a legacy action to it, and one whose query it left
    * unanswered fails closed. */
  lemma AdvertisedHelpersAreNeverLegacy(run: seq<System>, steps: seq<SystemStep>, i: nat, j: nat, o: B.Observation)
    requires IsRun(run, steps) && i <= j && j + 1 < |run|
    requires o in run[i].world.bridge.observed && Advertises(o)
    ensures run[j].world.bridge.status.generation == o.from ==> run[j].world.bridge.status.support == Gated
    ensures steps[j].Run? ==> steps[j].tid in run[j].tasks && steps[j].tid in run[j + 1].tasks
    ensures steps[j].Run? ==>
              FailsClosed(o.from, steps[j].tid, run[j].world.bridge, run[j].tasks[steps[j].tid],
                          run[j + 1].world.bridge, run[j + 1].tasks[steps[j].tid])
  {
    hide SystemInv, I.Inv, FailsClosed, StepTask, Ambient, B.Enabled, B.Apply;
    ReachableSystem(run, steps, j);
    ReachableSystem(run, steps, j + 1);
    SystemExtends(run, steps, i, j);
    SystemExtends(run, steps, j, j + 1);
    assert SystemNext(run[j + 1 - 1], steps[j + 1 - 1], run[j + 1]);
    hide IsRun;
    AdvertisedAround(run[j], steps[j], run[j + 1], o);
  }

  lemma AdvertisedAround(s: System, step: SystemStep, s': System, o: B.Observation)
    requires SystemInv(s) && SystemInv(s') && SystemNext(s, step, s') && Advertises(o)
    requires o in s.world.bridge.observed && s.world.bridge.observed <= s'.world.bridge.observed
    ensures s.world.bridge.status.generation == o.from ==> s.world.bridge.status.support == Gated
    ensures step.Run? ==> step.tid in s.tasks && step.tid in s'.tasks
                          && FailsClosed(o.from, step.tid, s.world.bridge, s.tasks[step.tid], s'.world.bridge, s'.tasks[step.tid])
  {
    hide SystemInv, I.Inv, FailsClosed, StepTask, Ambient, B.Enabled, B.Apply, B.MayTurnLegacy, TaskInv;
    InvOf(s);
    InvOf(s');
    NeverLegacyOnce(s, o);
    NeverLegacyOnce(s', o);
    if step.Run? {
      TaskOf(s, step.tid);
      AdvertisedStep(s.world, step.tid, s.tasks[step.tid], step.choice, o);
    }
  }

  lemma NeverLegacyOnce(s: System, o: B.Observation)
    requires I.Inv(s.world.bridge) && o in s.world.bridge.observed && Advertises(o)
    ensures s.world.bridge.status.generation == o.from ==>
              s.world.bridge.status.support == Gated && !B.MayTurnLegacy(s.world.bridge.status)
  {
    hide I.Inv;
    if s.world.bridge.status.generation == o.from {
      AdvertisedIsGated(s.world.bridge, o);
    }
  }

  /** One move of a dispatch, when the states around it read the generation as gated. */
  lemma AdvertisedStep(w: World, tid: nat, t: Task, choice: Choice, o: B.Observation)
    requires TaskInv(w.bridge, tid, t) && o.Pushed?
    requires var status := w.bridge.status; status.generation == o.from ==> status.support == Gated && !B.MayTurnLegacy(status)
    requires var status := StepTask(w, tid, t, choice).world.bridge.status; status.generation == o.from ==> status.support == Gated
    ensures var m := StepTask(w, tid, t, choice); FailsClosed(o.from, tid, w.bridge, t, m.world.bridge, m.task)
  {
    if Preflighting(t.phase) {
      VerdictsAreCurrent(w, tid, t, choice);
      NoLegacyVerdict(StepTask(w, tid, t, choice), o.from);
    }
    if t.phase.ConfirmingSilence? {
      SilenceFailsClosed(w, tid, t, choice);
    }
    hide TaskInv, StepTask, Mine, VerdictIsCurrent, B.MayTurnLegacy;
    var m := StepTask(w, tid, t, choice);
    if t.protocol.Some? && t.protocol.value.Legacy? && |Mine(m.world.bridge.frames, tid)| > |Mine(w.bridge.frames, tid)| {
      LegacyWritesNeedALegacyHelper(w, tid, t, choice);
      MoreFrames(w.bridge, m.world.bridge, tid);
    }
  }

  lemma NoLegacyVerdict(m: Moved, generation: nat)
    requires VerdictIsCurrent(m)
    requires m.world.bridge.status.generation == generation ==> m.world.bridge.status.support == Gated
    ensures (m.task.phase.Queued? || m.task.phase.Sending?) && m.task.phase.preflight.decision == LegacyAllowed ==>
              m.task.phase.preflight.generation != Some(generation)
  {
  }

  lemma MoreFrames(b: B.State, b': B.State, tid: nat)
    requires |Mine(b'.frames, tid)| > |Mine(b.frames, tid)|
    ensures b'.frames != []
  {
  }

  lemma SilenceFailsClosed(w: World, tid: nat, t: Task, choice: Choice)
    requires t.phase.ConfirmingSilence?
    ensures t.phase.before.generation == w.bridge.status.generation && !B.MayTurnLegacy(w.bridge.status) ==>
              StepTask(w, tid, t, choice).task.phase == Done(GateStateUnavailable)
  {
    hide B.MayTurnLegacy, Pass;
  }
}
