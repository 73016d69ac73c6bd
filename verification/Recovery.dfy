/**
 After pod errors: when the cluster recovers once they cease, and when it never does. A first
 configuration that is corrected after data nodes were started may be stuck for good.
 */
module Recovery {
  import opened Wrappers
  import opened StatefulSets
  import opened Reconcile
  import opened ReconcileRuns
  import opened ReconcileSuccess
  import opened ReconcilePaths
  import opened ReconcileUpdates
  import opened UpdateRuns
  import opened PodErrorRuns
  import opened Convergence
  import opened RoundsExist
  import ClusterStatus
  import Rollout

  // ----- recovery

  /**
   No started data node was left behind with a restart ahead: each is in a group, or they are
   announced and nothing else is due, or all run what the configuration asks for.
   */
  ghost predicate NoneLeftBehind(w: World) {
    && Unhindered(w)
    && (w.data.Some? && Stale(w) != {} ==> forall o :: 0 <= o < w.data.value.replicas ==> o in w.inducted)
  }

  /** The state once the errors have ceased and the controllers have caught up. */
  ghost predicate Calmed(w: World) {
    Standing(w) && !w.ndb.syncError && Quiet(w)
  }

  /** A sync that does not fail, with no pod in error, and then the controllers. */
  ghost predicate ErrorFreeRound(w: World, round: Round)
    requires w.redundancy > 0
  {
    && Sync(w, round.answers).1 != Error && !round.answers.podErrors && !round.answers.statusUpdateFails
    && (forall s :: s in round.environment ==> Environment(s)) && Quiet(AfterRound(w, round))
  }

  lemma ErrorFreeRoundCalms(w: World, round: Round)
    requires Standing(w) && w.redundancy > 0 && ErrorFreeRound(w, round)
    ensures Calmed(AfterRound(w, round))
  {
    hide Standing, Quiet, After, Sync, SyncHandler, Steady;
    ErrorsCease(w, round.answers);
    EnvironmentStands(SyncHandler(w, round.answers), round.environment);
    SteadyResource(SyncHandler(w, round.answers), AfterRound(w, round));
  }

  lemma CalmedIsMended(w: World)
    requires Calmed(w) && w.ndb.processed > 0 && NoneLeftBehind(w) && Renderable(w.ndb.spec)
    ensures Mended(w)
  {
    hide Sound, UpdateComplete, ClusterStatus.Range, Stale;
    StandingFacts(w);
  }

  /**
   After any run with pod errors, failing calls and corrected specifications: once some
   configuration has been processed and no started data node was left behind, the errors may cease
   at any time, and the latest specification takes effect, in as many rounds as without errors.
   Such rounds exist.
   */
  lemma RecoveryCompletes(spec: Spec, redundancy: nat, steps: seq<Step>, round: Round)
    requires redundancy > 0 && ValidSpec(spec, redundancy)
    requires ErrorFreeRound(After(Initial(spec, redundancy), steps), round)
    requires var v := AfterRound(After(Initial(spec, redundancy), steps), round);
             Renderable(v.ndb.spec) && NoneLeftBehind(v) && v.ndb.processed > 0
    ensures var v := AfterRound(After(Initial(spec, redundancy), steps), round);
            && (exists rounds :: GoodRounds(v, rounds) && |rounds| > 3 * v.ndb.spec.numData + 12)
            && (forall rounds :: GoodRounds(v, rounds) && |rounds| > 3 * v.ndb.spec.numData + 12 ==> TakesEffect(v, rounds))
  {
    hide Standing, After, AfterRound, ErrorFreeRound, NoneLeftBehind, GoodRounds, TakesEffect, ValidSpec, Mended, KeepsConfigs, Undisturbed;
    AlwaysStanding(spec, redundancy, steps);
    var w := After(Initial(spec, redundancy), steps);
    var v := AfterRound(w, round);
    ErrorFreeRoundCalms(w, round);
    CalmedIsMended(v);
    var some := GoodRoundsExist(v, 3 * v.ndb.spec.numData + 13);
    forall rounds | GoodRounds(v, rounds) && |rounds| > 3 * v.ndb.spec.numData + 12 ensures TakesEffect(v, rounds) {
      UpdateCompletes(v, rounds);
    }
  }

  // ----- a data node that was left behind

  /** Neither the user corrects the specification, nor somebody removes the pod. */
  predicate Untouched(step: Step, o: int) {
    !step.SpecStep? && (step.StopPod? ==> step.ordinal != o)
  }

  /** The management server does not report data node `o` in a node group, and nobody steps in. */
  ghost predicate PassesOver(m: int, step: Step, o: int) {
    && Untouched(step, o)
    && (step.SyncStep? && step.answers.status.Some? ==>
          var cs := step.answers.status.value;
          forall x :: x in cs && Rollout.OrdinalOf(x, m) == o ==> !ClusterStatus.Inducted(cs[x]))
  }

  /** The configuration is written, and the pod of data node `o` is not what it asks for. */
  ghost predicate Outdated(w: World, o: int) {
    && w.cm.Some? && w.cm.value.generation == w.ndb.generation
    && o in w.pods && w.pods[o] != FinalTemplate(w.cm.value)
  }

  /** A written configuration keeps everything but its flag. */
  lemma {:induction false} WrittenStays(j: nat, c: Ctx, a: Answers)
    requires j <= LAST && c.w.cm.Some? && c.w.cm.value.generation == c.w.ndb.generation && (j > 0 ==> c.cs == c.w.cm.value)
    ensures var v := RunFrom(j, c, a).0.w;
            v.cm.Some? && v.cm.value == c.w.cm.value.(initialRestart := v.cm.value.initialRestart)
    decreases LAST - j
  {
    hide Phase;
    PhaseKeepsRedundancy(j, c, a);
    WrittenStaysInPhase(j, c, a);
    if j < LAST && Phase(j, c, a).1 == Continue {
      WrittenStays(j + 1, Phase(j, c, a).0, a);
    }
  }

  lemma WrittenStaysInPhase(j: nat, c: Ctx, a: Answers)
    requires j <= LAST && c.w.cm.Some? && c.w.cm.value.generation == c.w.ndb.generation && (j > 0 ==> c.cs == c.w.cm.value)
    ensures var (c', r) := Phase(j, c, a);
            && c'.w.cm.Some? && c'.w.cm.value == c.w.cm.value.(initialRestart := c'.w.cm.value.initialRestart)
            && (j < LAST && r == Continue ==> c'.cs == c'.w.cm.value)
  {
    hide Patched, UpdateComplete, Ready, Rollout.EnsurePods, Rebuilt, RebuiltData;
  }

  lemma StepPassesOver(w: World, step: Step, o: int)
    requires w.redundancy > 0 && Outdated(w, o) && PassesOver(ManagementNodes(w), step, o)
    ensures Outdated(Next(w, step), o)
  {
    hide RunFrom, UpToDate;
    if step.SyncStep? {
      var a := step.answers;
      WrittenStays(0, Start(w), a);
      RunKeepsRedundancy(0, Start(w), a);
      var complete, view := SyncDeletesBy(0, Start(w), a);
      if o !in SyncHandler(w, a).pods {
        var x, y := SyncDeletesOnePerGroup(w, a, o, o);
      }
      assert DeletesBy(w, SyncHandler(w, a), a, complete, view);
    }
  }

  lemma {:induction false} StandingAfter(w: World, steps: seq<Step>)
    requires Standing(w) && w.redundancy > 0
    ensures Standing(After(w, steps))
    decreases |steps|
  {
    hide Next, Standing;
    if steps != [] {
      var n := |steps| - 1;
      StandingAfter(w, steps[..n]);
      StandingStep(After(w, steps[..n]), steps[n]);
    }
  }

  /**
   A data node that is never reported in a node group is never restarted: as long as nobody else
   steps in, its pod stays as it is, and a configuration that asks for another one is never in effect.
   */
  lemma {:induction false} LeftBehindStaysOutdated(w: World, steps: seq<Step>, o: int)
    requires Standing(w) && w.redundancy > 0 && Outdated(w, o)
    requires forall s :: s in steps ==> PassesOver(ManagementNodes(w), s, o)
    ensures Outdated(After(w, steps), o) && !InEffect(After(w, steps))
    decreases |steps|
  {
    hide Next, Standing, Outdated, PassesOver, InEffect;
    if steps != [] {
      var n := |steps| - 1;
      LeftBehindStaysOutdated(w, steps[..n], o);
      assert ManagementNodes(After(w, steps[..n])) == ManagementNodes(w) && steps[n] in steps;
      StepPassesOver(After(w, steps[..n]), steps[n], o);
    }
    StandingAfter(w, steps);
    OutdatedIsNoEffect(After(w, steps), o);
  }

  lemma OutdatedIsNoEffect(w: World, o: int)
    requires Standing(w) && Outdated(w, o)
    ensures !InEffect(w)
  {
    hide Standing;
    StandingFacts(w);
    assert InEffect(w) ==> o !in Stale(w);
  }

  // ----- the first configuration

  /**
   During the first configuration, a data node pod that is not what the configuration in the
   config map asks for, or that a restart with --initial would have to replace.
   */
  ghost predicate LeftOver(w: World, o: int) {
    && w.ndb.processed == 0 && w.cm.Some? && w.cm.value.generation == w.ndb.generation && w.data.Some? && o in w.pods
    && var cm := w.cm.value;
       || w.pods[o] != FinalTemplate(cm)
       || cm.initialRestart
       || (w.data.value.applied == cm.generation && w.data.value.template.initial)
  }

  /** With a complete update every pod runs the template. */
  lemma CompletePods(w: World)
    requires Sound(w) && w.data.Some? && UpdateComplete(w.data.value)
    ensures forall o :: o in w.pods ==> w.pods[o] == w.data.value.template
  {
    hide ConfigFirst;
  }

  ghost predicate LeftOverStage(j: nat, c: Ctx, o: int) {
    && StandingStage(j, c) && LeftOver(c.w, o)
    && (j > 2 ==> UpdateComplete(c.data.value) && c.w.pods[o] == c.w.data.value.template)
  }

  /** Up to the phases that look at the data nodes' pods. */
  lemma LeftOverEarly(j: nat, c: Ctx, a: Answers, o: int)
    requires j <= 2 && LeftOverStage(j, c, o)
    ensures var (c', r) := Phase(j, c, a); LeftOver(c'.w, o) && !c'.success && (r == Continue ==> LeftOverStage(j + 1, c', o))
  {
    hide Sound, Stage, ConfigFirst, UpdateComplete, Patched, Standing;
    StandingPhase(j, c, a);
    StandingFacts(c.w);
    StandingMeans(j, c);
    if j == 0 {
      NothingReadYet(c);
    } else {
      StageIsOriented(j, c);
    }
    if j == 2 {
      ExactPatch(c.w.data, c.w.data.value, RebuiltData(c.w.data.value, c.cs, c.w), PatchData in a.fails);
      if UpdateComplete(c.w.data.value) {
        CompletePods(c.w);
      }
    }
  }

  /** Phases that leave the data nodes alone. */
  lemma LeftOverElsewhere(j: nat, c: Ctx, a: Answers, o: int)
    requires j in {3, 4, 5, 6, 9, 11} && LeftOverStage(j, c, o)
    ensures var (c', r) := Phase(j, c, a); LeftOver(c'.w, o) && !c'.success && (r == Continue ==> LeftOverStage(j + 1, c', o))
  {
    hide Sound, Stage, ConfigFirst, UpdateComplete, Ready, Patched, Standing;
    StandingPhase(j, c, a);
    StandingMeans(j, c);
    StageIsOriented(j, c);
  }

  lemma LeftOverPatch(c: Ctx, a: Answers, o: int)
    requires LeftOverStage(7, c, o)
    ensures var (c', r) := Phase(7, c, a); LeftOver(c'.w, o) && !c'.success && (r == Continue ==> LeftOverStage(8, c', o))
  {
    hide Sound, Stage, ConfigFirst, UpdateComplete, Patched, Standing;
    StandingPhase(7, c, a);
    StandingFacts(c.w);
    StandingMeans(7, c);
    StageIsOriented(7, c);
    ExactPatch(c.w.data, c.data.value, RebuiltData(c.data.value, c.cs, c.w), PatchData in a.fails);
  }

  /** The update is complete, so no pod is deleted. */
  lemma LeftOverPods(c: Ctx, a: Answers, o: int)
    requires LeftOverStage(8, c, o)
    ensures var (c', r) := Phase(8, c, a); LeftOver(c'.w, o) && !c'.success && (r == Continue ==> LeftOverStage(9, c', o))
  {
    hide Sound, Stage, ConfigFirst, UpdateComplete, Standing, LeftOver, Rollout.EnsurePods;
    StandingPhase(8, c, a);
    StageIsOriented(8, c);
    NothingToRestart(a.status, c.w.redundancy, Rollout.View(a.cache, c.data.value.status.updateRevision, a.refusing, ManagementNodes(c.w)));
    assert Rollout.Ordinals([], ManagementNodes(c.w)) == {};
    assert c.w.pods - {} == c.w.pods;
    assert c.w.(pods := c.w.pods) == c.w;
    assert Phase(8, c, a) == (c, Continue);
  }

  lemma LeftOverAddNode(c: Ctx, a: Answers, o: int)
    requires LeftOverStage(10, c, o)
    ensures var (c', r) := Phase(10, c, a); LeftOver(c'.w, o) && !c'.success && (r == Continue ==> LeftOverStage(11, c', o))
  {
    hide Sound, Stage, ConfigFirst, UpdateComplete, Patched, Standing;
    StandingPhase(10, c, a);
    StageIsOriented(10, c);
    var s := c.data.value;
    if s.addNode {
      if s.replicas != c.cs.spec.numData {
        ScalePatch(c.w.data, s, c.cs.spec.numData, ScaleData in a.fails);
      }
      ClearPatch(c.w.data, s, ClearAddNode in a.fails);
    }
  }

  /** The flag may be cleared, then the pod still runs with --initial; success is out of reach. */
  lemma LeftOverFinish(c: Ctx, a: Answers, o: int)
    requires LeftOverStage(LAST, c, o)
    ensures var c' := Phase(LAST, c, a).0; LeftOver(c'.w, o) && !c'.success
  {
    hide Sound, Stage, ConfigFirst, UpdateComplete, Patched, Standing;
    StandingFacts(c.w);
    StandingMeans(LAST, c);
    StageIsOriented(LAST, c);
  }

  lemma LeftOverPhase(j: nat, c: Ctx, a: Answers, o: int)
    requires j <= LAST && LeftOverStage(j, c, o)
    ensures var (c', r) := Phase(j, c, a);
            LeftOver(c'.w, o) && !c'.success && (j < LAST && r == Continue ==> LeftOverStage(j + 1, c', o))
  {
    hide Phase, LeftOverStage, LeftOver;
    if j <= 2 {
      LeftOverEarly(j, c, a, o);
    } else if j == 7 {
      LeftOverPatch(c, a, o);
    } else if j == 8 {
      LeftOverPods(c, a, o);
    } else if j == 10 {
      LeftOverAddNode(c, a, o);
    } else if j == LAST {
      LeftOverFinish(c, a, o);
    } else {
      LeftOverElsewhere(j, c, a, o);
    }
  }

  lemma {:induction false} LeftOverRun(j: nat, c: Ctx, a: Answers, o: int)
    requires j <= LAST && LeftOverStage(j, c, o)
    ensures var c' := RunFrom(j, c, a).0; LeftOver(c'.w, o) && !c'.success
    decreases LAST - j
  {
    hide Phase, LeftOverStage, LeftOver;
    LeftOverPhase(j, c, a, o);
    if j < LAST && Phase(j, c, a).1 == Continue {
      LeftOverRun(j + 1, Phase(j, c, a).0, a, o);
    }
  }

  /** No call of sync gets rid of such a pod, and none succeeds. */
  lemma SyncLeavesOver(w: World, a: Answers, o: int)
    requires Standing(w) && LeftOver(w, o)
    ensures LeftOver(SyncHandler(w, a), o) && !Sync(w, a).0.success
  {
    hide RunFrom, Standing, StandingStage;
    StandingStart(w);
    LeftOverRun(0, Start(w), a, o);
  }

  lemma StepLeavesOver(w: World, step: Step, o: int)
    requires Standing(w) && LeftOver(w, o) && Untouched(step, o)
    ensures w.redundancy > 0 && LeftOver(Next(w, step), o)
  {
    hide SyncHandler, Sync, Standing, UpToDate;
    StandingFacts(w);
    if step.SyncStep? {
      SyncLeavesOver(w, step.answers, o);
    }
  }

  /**
   Whatever the environment answers, with or without further errors: unless the specification is
   changed again or the pod is removed from outside, it stays, and no sync reports success.
   */
  lemma {:induction false} FirstConfigurationBlocks(w: World, steps: seq<Step>, o: int)
    requires Standing(w) && w.redundancy > 0 && LeftOver(w, o) && forall s :: s in steps ==> Untouched(s, o)
    ensures LeftOver(After(w, steps), o) && forall a :: !Sync(After(w, steps), a).0.success
    decreases |steps|
  {
    hide Next, Standing, LeftOver, Sync;
    ghost var v := After(w, steps);
    if steps != [] {
      var n := |steps| - 1;
      FirstConfigurationBlocks(w, steps[..n], o);
      StandingAfter(w, steps[..n]);
      StepLeavesOver(After(w, steps[..n]), steps[n], o);
    }
    StandingAfter(w, steps);
    forall a ensures !Sync(v, a).0.success {
      SyncLeavesOver(v, a, o);
    }
  }

  // ----- the flag of the initial restart

  /**
   During the first configuration the flag is set and no data node pod runs yet. All pods will run
   with --initial, and the patch that takes it away will leave them over.
   */
  ghost predicate Flagged(w: World) {
    && w.ndb.processed == 0 && w.cm.Some? && w.cm.value.generation == w.ndb.generation && w.cm.value.initialRestart
    && w.pods == map[] && (w.data.Some? ==> w.data.value.status.replicas == 0)
  }

  /** The sync ends before the pods are looked at. */
  lemma FlaggedPhase(j: nat, c: Ctx, a: Answers)
    requires j <= 2 && StandingStage(j, c) && Flagged(c.w)
    ensures var (c', r) := Phase(j, c, a); Flagged(c'.w) && !c'.success && (j == 2 ==> r != Continue)
  {
    hide Sound, Stage, ConfigFirst, Patched, Standing;
    StandingFacts(c.w);
    StandingMeans(j, c);
    if j == 0 {
      NothingReadYet(c);
    } else {
      StageIsOriented(j, c);
    }
    if c.w.cm.Some? {
      ConfigBehind(c.w);
    }
    if j == 2 && c.w.data.Some? {
      ExactPatch(c.w.data, c.w.data.value, RebuiltData(c.w.data.value, c.cs, c.w), PatchData in a.fails);
    }
  }

  lemma {:induction false} FlaggedRun(j: nat, c: Ctx, a: Answers)
    requires j <= 2 && StandingStage(j, c) && Flagged(c.w)
    ensures var c' := RunFrom(j, c, a).0; Flagged(c'.w) && !c'.success
    decreases 2 - j
  {
    hide Phase, StandingStage, Flagged;
    FlaggedPhase(j, c, a);
    StandingPhase(j, c, a);
    if Phase(j, c, a).1 == Continue {
      FlaggedRun(j + 1, Phase(j, c, a).0, a);
    }
  }

  lemma SyncStaysFlagged(w: World, a: Answers)
    requires Standing(w) && Flagged(w)
    ensures Flagged(SyncHandler(w, a)) && !Sync(w, a).0.success
  {
    hide RunFrom, Standing, StandingStage;
    StandingStart(w);
    FlaggedRun(0, Start(w), a);
  }

  /** There is no config map, and none can be written. */
  predicate Unwritable(w: World) {
    w.ndb.processed == 0 && w.cm.None? && !Renderable(w.ndb.spec)
  }

  lemma SyncStaysUnwritable(w: World, a: Answers)
    requires Unwritable(w)
    ensures Unwritable(SyncHandler(w, a)) && !Sync(w, a).0.success
  {
    assert EnsureConfig(Start(w), a) == (Start(w), Error);
  }

  /** The first configuration cannot be written, is stuck, or will be once its data nodes run. */
  ghost predicate Stuck(w: World) {
    Unwritable(w) || Flagged(w) || exists o :: LeftOver(w, o)
  }

  /** Neither the user corrects the specification, nor does anybody remove a data node pod. */
  predicate Untended(step: Step) {
    !step.SpecStep? && !step.StopPod?
  }

  lemma FlaggedStep(w: World, step: Step)
    requires Standing(w) && Flagged(w) && Untended(step)
    ensures w.redundancy > 0 && Stuck(Next(w, step))
  {
    hide SyncHandler, Sync, Standing;
    StandingFacts(w);
    match step
    case SyncStep(a) => SyncStaysFlagged(w, a);
    case StartPod(o, _) =>
      if Next(w, step) != w {
        assert LeftOver(Next(w, step), o);
      }
    case ObserveData(_) =>
      assert |w.pods| == 0;
    case _ =>
  }

  lemma UnwritableStep(w: World, step: Step)
    requires w.redundancy > 0 && Unwritable(w) && Untended(step)
    ensures Unwritable(Next(w, step))
  {
    hide SyncHandler, Sync;
    if step.SyncStep? {
      SyncStaysUnwritable(w, step.answers);
    }
  }

  lemma StuckStep(w: World, step: Step)
    requires Standing(w) && Stuck(w) && Untended(step)
    ensures w.redundancy > 0 && Stuck(Next(w, step))
  {
    hide Next, Standing, LeftOver, Flagged, Unwritable;
    StandingMeansSound(w);
    if Unwritable(w) {
      UnwritableStep(w, step);
    } else if Flagged(w) {
      FlaggedStep(w, step);
    } else {
      var o :| LeftOver(w, o);
      StepLeavesOver(w, step, o);
    }
  }

  lemma StuckSync(w: World, a: Answers)
    requires Standing(w) && Stuck(w)
    ensures !Sync(w, a).0.success
  {
    hide Sync, Standing, LeftOver, Flagged, Unwritable;
    if Unwritable(w) {
      SyncStaysUnwritable(w, a);
    } else if Flagged(w) {
      SyncStaysFlagged(w, a);
    } else {
      var o :| LeftOver(w, o);
      SyncLeavesOver(w, a, o);
    }
  }

  /** Whatever the environment answers, a stuck first configuration stays stuck as long as nobody else steps in. */
  lemma {:induction false} StuckForGood(w: World, steps: seq<Step>)
    requires Standing(w) && w.redundancy > 0 && Stuck(w) && forall s :: s in steps ==> Untended(s)
    ensures Standing(After(w, steps)) && Stuck(After(w, steps)) && forall a :: !Sync(After(w, steps), a).0.success
    decreases |steps|
  {
    hide Next, Standing, Stuck, Sync;
    ghost var v := After(w, steps);
    if steps != [] {
      var n := |steps| - 1;
      StuckForGood(w, steps[..n]);
      StuckStep(After(w, steps[..n]), steps[n]);
    }
    StandingAfter(w, steps);
    forall a ensures !Sync(v, a).0.success {
      StuckSync(v, a);
    }
  }

  // ----- when the first configuration completes

  ghost predicate CompletesUndisturbed(w: World, rounds: seq<Round>)
    requires w.redundancy > 0
  {
    GoodRounds(w, rounds) && TakesEffect(w, rounds) && forall r :: r in rounds ==> Undisturbed(r)
  }

  lemma StuckAfterRound(w: World, round: Round)
    requires Standing(w) && w.redundancy > 0 && Stuck(w) && GoodRound(w, round) && Undisturbed(round)
    ensures Standing(AfterRound(w, round)) && Stuck(AfterRound(w, round)) && !InEffect(AfterRound(w, round))
  {
    hide Standing, SyncHandler, Friendly, Quiet, PodsFollow, After, Stale, Stuck;
    StuckStep(w, SyncStep(round.answers));
    SyncStands(w, round.answers);
    NextKeepsRedundancy(w, SyncStep(round.answers));
    forall s | s in round.environment ensures Untended(s) {
      assert Environment(s);
    }
    StuckForGood(SyncHandler(w, round.answers), round.environment);
    StandingMeansSound(AfterRound(w, round));
    StuckIsFirst(AfterRound(w, round));
  }

  lemma StuckIsFirst(w: World)
    requires Stuck(w)
    ensures w.ndb.processed == 0
  {
  }

  lemma {:induction false} StuckAfterRounds(w: World, rounds: seq<Round>)
    requires Standing(w) && w.redundancy > 0 && Stuck(w)
    requires GoodRounds(w, rounds) && forall r :: r in rounds ==> Undisturbed(r)
    ensures !TakesEffect(w, rounds)
    decreases |rounds|
  {
    hide Standing, Stuck, GoodRound, AfterRound, InEffect, Undisturbed;
    if rounds != [] {
      StuckAfterRound(w, rounds[0]);
      StuckAfterRounds(AfterRound(w, rounds[0]), rounds[1..]);
    }
  }

  /** All pods run what the configuration asks for, and only the StatefulSet has to be patched to it. */
  ghost predicate OnlyUnpatched(w: World) {
    && w.cm.Some? && w.data.Some? && w.data.value.applied != w.cm.value.generation && Stale(w) != {}
    && !w.cm.value.initialRestart && forall o :: o in w.pods ==> w.pods[o] == FinalTemplate(w.cm.value)
  }

  /** Not stuck: from here updates complete, or the StatefulSet has to be patched first. */
  lemma NotStuck(w: World)
    requires Calmed(w) && w.ndb.processed == 0 && !Stuck(w)
    ensures Mended(w) || OnlyUnpatched(w)
  {
    hide Sound, UpdateComplete;
    StandingFacts(w);
    assert w.cm.Some? ==> w.cm.value.spec == w.ndb.spec;
    if w.data.Some? {
      ClusterStatus.RangeIs(w.data.value.replicas);
      assert 0 in w.pods;
      assert !LeftOver(w, 0);
      forall o | o in w.pods ensures w.pods[o] == FinalTemplate(w.cm.value) {
        assert !LeftOver(w, o);
      }
      if w.data.value.applied == w.cm.value.generation {
        assert w.data.value.template == FinalTemplate(w.cm.value);
        assert Stale(w) == {};
      } else if Stale(w) == {} {
        assert 0 !in Stale(w);
        assert w.data.value.template == FinalTemplate(w.cm.value);
      }
    }
  }

  /** One good round patches the StatefulSet, and no pod has to be restarted. */
  lemma PatchRound(w: World) returns (round: Round)
    requires Calmed(w) && w.redundancy > 0 && w.ndb.processed == 0 && OnlyUnpatched(w)
    ensures GoodRound(w, round) && Undisturbed(round) && Mended(AfterRound(w, round))
  {
    hide After, Quiet, PodsFollow, SyncHandler, Sync, Environment, Friendly, Standing, Orderly, Unhindered, Steady, InRange;
    assert InRange(w) by { ConfigBehind(w); }
    var a := FriendlyAnswer(w);
    var v := SyncHandler(w, a);
    PatchSync(w, a);
    NextKeepsRedundancy(w, SyncStep(a));
    var env := CatchUp(v);
    round := Round(a, env);
    EnvironmentStands(v, env);
    CaughtUp(v, AfterRound(w, round));
    SteadyUnhindered(v, AfterRound(w, round));
    SteadyResource(v, AfterRound(w, round));
  }

  lemma PatchSync(w: World, a: Answers)
    requires Calmed(w) && w.redundancy > 0 && w.ndb.processed == 0 && OnlyUnpatched(w) && Friendly(w, a)
    ensures var v := SyncHandler(w, a); Standing(v) && !v.ndb.syncError && Unhindered(v) && Orderly(v)
  {
    hide RunFrom, Standing, Sound, Informed, Rollout.Covers, Patched, UpdateComplete;
    SyncStands(w, a);
    StandingFacts(w);
    ConfigBehind(w);
    CompleteIfFresh(w);
    var c1 := EnsureConfig(Start(w), a).0;
    var c2 := EnsureMgmd(c1, a).0;
    var s := w.data.value;
    ExactPatch(w.data, s, RebuiltData(s, w.cm.value, w), false);
    SyncEnds(w, a, c1, c2, EnsureData(c2, a));
    var v := SyncHandler(w, a);
    assert v == w.(data := v.data);
    assert v.data.value.template == FinalTemplate(w.cm.value);
    forall o ensures o !in Stale(v) {
    }
    assert Stale(v) == {};
  }

  /**
   The first configuration, once the errors have ceased: left to itself it takes effect exactly if
   no pod is left over, the flag of the initial restart is not set before the data nodes are
   created, and the config map exists or can be written.
   */
  lemma FirstConfigurationCompletes(w: World)
    requires Calmed(w) && w.redundancy > 0 && w.ndb.processed == 0
    ensures (exists rounds :: CompletesUndisturbed(w, rounds))
       <==> && (forall o :: !LeftOver(w, o))
            && !(w.cm.Some? && w.data.None? && w.cm.value.initialRestart)
            && (w.cm.Some? || Renderable(w.ndb.spec))
  {
    hide LeftOver, GoodRounds, TakesEffect, Undisturbed, Mended, Stale, KeepsConfigs, Stuck, Calmed, OnlyUnpatched;
    StuckExactly(w);
    if Stuck(w) {
      forall rounds ensures !CompletesUndisturbed(w, rounds) {
        if CompletesUndisturbed(w, rounds) {
          StuckAfterRounds(w, rounds);
        }
      }
    } else {
      NotStuck(w);
      var rounds := CompletingRounds(w);
      assert CompletesUndisturbed(w, rounds);
    }
  }

  lemma StuckExactly(w: World)
    requires Calmed(w) && w.ndb.processed == 0
    ensures Standing(w)
    ensures Stuck(w)
       <==> || (exists o :: LeftOver(w, o)) || (w.cm.Some? && w.data.None? && w.cm.value.initialRestart)
            || (w.cm.None? && !Renderable(w.ndb.spec))
  {
    hide Sound, UpdateComplete, ClusterStatus.Range, LeftOver;
    StandingFacts(w);
    if w.data.Some? {
      ClusterStatus.RangeIs(w.data.value.replicas);
      assert 0 in w.pods;
    }
  }

  lemma CompletingRounds(w: World) returns (rounds: seq<Round>)
    requires Calmed(w) && w.redundancy > 0 && w.ndb.processed == 0 && (Mended(w) || OnlyUnpatched(w))
    ensures CompletesUndisturbed(w, rounds)
  {
    hide GoodRound, AfterRound, GoodRounds, TakesEffect, Undisturbed, Mended, KeepsConfigs, Calmed, OnlyUnpatched, InEffect;
    if Mended(w) {
      rounds := CanTakeEffect(w);
    } else {
      var first := PatchRound(w);
      var rest := CanTakeEffect(AfterRound(w, first));
      rounds := [first] + rest;
      OneMoreRound(w, first, rest);
    }
  }

  lemma OneMoreRound(w: World, first: Round, rest: seq<Round>)
    requires w.redundancy > 0 && GoodRound(w, first)
    requires GoodRounds(AfterRound(w, first), rest) && TakesEffect(AfterRound(w, first), rest)
    ensures GoodRounds(w, [first] + rest) && TakesEffect(w, [first] + rest)
  {
    hide GoodRound, AfterRound, InEffect;
    assert ([first] + rest)[1..] == rest;
  }

  // ----- runs that get stuck

  /** Answers in which no call fails. */
  function Smoothly(podErrors: bool): Answers {
    Answers({}, true, true, None, map[], {}, {}, podErrors, false)
  }

  lemma SyncEnds(w: World, a: Answers, c1: Ctx, c2: Ctx, r: (Ctx, Reconcile.Result))
    requires EnsureConfig(Start(w), a) == (c1, Continue) && EnsureMgmd(c1, a) == (c2, Continue) && EnsureData(c2, a) == r
    requires r.1 == Finish
    ensures Sync(w, a) == r
  {
    assert RunFrom(2, c2, a) == r;
    assert RunFrom(1, c1, a) == r;
  }

  lemma SyncEndsEarly(w: World, a: Answers, c1: Ctx, r: (Ctx, Reconcile.Result))
    requires EnsureConfig(Start(w), a) == (c1, Continue) && EnsureMgmd(c1, a) == r && r.1 == Finish
    ensures Sync(w, a) == r
  {
    assert RunFrom(1, c1, a) == r;
  }

  /** A cluster whose first data node has just been started for `spec`. */
  ghost predicate Starting(w: World, spec: Spec, redundancy: nat) {
    && w.redundancy == redundancy && w.ndb.generation == 1 && w.ndb.spec == spec && w.ndb.processed == 0
    && w.cm == Some(ConfigMap(1, spec, false, 1, 1))
    && w.mgmd.Some? && UpdateComplete(w.mgmd.value)
    && w.data.Some? && !UpdateComplete(w.data.value) && w.data.value.applied == 1
    && 0 in w.pods && w.pods[0] == FinalTemplate(w.cm.value)
  }

  lemma FirstSync(spec: Spec, redundancy: nat)
    requires redundancy > 0 && Renderable(spec)
    ensures var w := Initial(spec, redundancy);
            var cm := ConfigMap(1, spec, false, 1, 1);
            SyncHandler(w, Smoothly(false)) == w.(cm := Some(cm), mgmd := Some(NewMgmd(cm, w)))
  {
    hide UpdateComplete;
    var w, a := Initial(spec, redundancy), Smoothly(false);
    var c1 := EnsureConfig(Start(w), a).0;
    SyncEndsEarly(w, a, c1, EnsureMgmd(c1, a));
  }

  lemma SecondSync(w: World, cm: ConfigMap)
    requires w.cm == Some(cm) && !w.ndb.syncError && w.mgmd.Some? && UpdateComplete(w.mgmd.value) && w.data.None?
    ensures SyncHandler(w, Smoothly(false)) == w.(data := Some(NewData(cm, w)), inducted := ClusterStatus.Range(cm.spec.numData))
  {
    hide UpdateComplete, NewData, ClusterStatus.Range;
    var a := Smoothly(false);
    var c1 := EnsureConfig(Start(w), a).0;
    var c2 := EnsureMgmd(c1, a).0;
    SyncEnds(w, a, c1, c2, EnsureData(c2, a));
  }

  lemma FailingSync(w: World, spec: Spec, redundancy: nat)
    requires Starting(w, spec, redundancy) && !w.ndb.syncError
    ensures SyncHandler(w, Smoothly(true)) == w.(ndb := w.ndb.(syncError := true))
  {
    hide UpdateComplete;
    var a := Smoothly(true);
    var c1 := EnsureConfig(Start(w), a).0;
    var c2 := EnsureMgmd(c1, a).0;
    SyncEnds(w, a, c1, c2, EnsureData(c2, a));
  }

  lemma CorrectingSync(w: World)
    requires w.cm.Some? && w.ndb.syncError && w.cm.value.generation != w.ndb.generation && Renderable(w.ndb.spec)
    ensures var a := Smoothly(false);
            SyncHandler(w, a) == w.(cm := Some(WithSpec(w.cm.value, w.ndb, a)), ndb := w.ndb.(syncError := false))
  {
    hide WithSpec;
    var a := Smoothly(false);
    assert EnsureConfig(Start(w), a).1 == Finish;
  }

  /** From the creation on, without failing calls, to the start of the first data node. */
  lemma StartingRun(spec: Spec, redundancy: nat) returns (steps: seq<Step>)
    requires redundancy > 0 && ValidSpec(spec, redundancy) && Renderable(spec)
    ensures NoCallFailsIn(steps)
    ensures Starting(After(Initial(spec, redundancy), steps), spec, redundancy)
    ensures !After(Initial(spec, redundancy), steps).ndb.syncError
  {
    hide After, SyncHandler, UpdateComplete, ClusterStatus.Range;
    var w0, cm, smooth := Initial(spec, redundancy), ConfigMap(1, spec, false, 1, 1), SyncStep(Smoothly(false));
    FirstSync(spec, redundancy);
    var w1 := Next(w0, smooth);
    var observe := ObserveMgmd(Complete(w1.mgmd.value));
    var w2 := Next(w1, observe);
    assert UpdateComplete(w2.mgmd.value) by { CompleteIsComplete(w1.mgmd.value); }
    SecondSync(w2, cm);
    var w3 := Next(w2, smooth);
    var start := StartPod(0, FinalTemplate(cm));
    var w4 := Next(w3, start);
    assert !UpdateComplete(w3.data.value) by { NewIsIncomplete(cm, w2); }
    AfterOne(w0, smooth);
    AfterOne(w1, observe);
    AfterOne(w2, smooth);
    AfterOne(w3, start);
    AfterBoth(w0, [smooth], [observe]);
    AfterBoth(w0, [smooth] + [observe], [smooth]);
    AfterBoth(w0, [smooth] + [observe] + [smooth], [start]);
    steps := [smooth] + [observe] + [smooth] + [start];
  }

  lemma CompleteIsComplete(s: StatefulSet)
    ensures UpdateComplete(s.(status := Complete(s)))
  {
  }

  lemma NewIsIncomplete(cm: ConfigMap, w: World)
    ensures !UpdateComplete(NewData(cm, w))
  {
  }

  /**
   For all specifications whose data node pods differ there is a run without failing calls, in
   which a pod error lets the specification be corrected during the first configuration, just after
   the first data node pod has started: the pod is left over, with the errors gone.
   */
  lemma CorrectionGetsStuck(spec: Spec, spec': Spec, redundancy: nat) returns (steps: seq<Step>)
    requires redundancy > 1 && ValidSpec(spec, redundancy) && ValidSpec(spec', redundancy)
    requires Renderable(spec) && Renderable(spec')
    requires spec.numData <= spec'.numData && spec.pool <= spec'.pool && spec.shape != spec'.shape
    ensures NoCallFailsIn(steps)
    ensures var w := After(Initial(spec, redundancy), steps);
            && w.ndb.spec == spec' && !w.ndb.syncError && LeftOver(w, 0)
            && forall later: seq<Step>, a: Answers ::
                 (forall s :: s in later ==> Untouched(s, 0)) ==> !Sync(After(w, later), a).0.success
  {
    hide After, SyncHandler, Sync, UpdateComplete, ValidSpec, Standing;
    var begun := StartingRun(spec, redundancy);
    var w0 := Initial(spec, redundancy);
    var w4 := After(w0, begun);
    var error, update, correct := SyncStep(Smoothly(true)), SpecStep(spec'), SyncStep(Smoothly(false));
    FailingSync(w4, spec, redundancy);
    var w5 := Next(w4, error);
    var w6 := Next(w5, update);
    CorrectingSync(w6);
    var w7 := Next(w6, correct);
    AfterOne(w4, error);
    AfterOne(w5, update);
    AfterOne(w6, correct);
    AfterBoth(w0, begun, [error]);
    AfterBoth(w0, begun + [error], [update]);
    AfterBoth(w0, begun + [error] + [update], [correct]);
    steps := begun + [error] + [update] + [correct];
    assert LeftOver(w7, 0);
    AlwaysStanding(spec, redundancy, steps);
    forall later: seq<Step>, a: Answers | forall s :: s in later ==> Untouched(s, 0)
      ensures !Sync(After(w7, later), a).0.success
    {
      FirstConfigurationBlocks(w7, later, 0);
    }
  }

  /** The management nodes are not ready, and one of their pods reports an error. */
  lemma WaitingSync(w: World, cm: ConfigMap)
    requires w.cm == Some(cm) && !w.ndb.syncError && w.ndb.processed == 0 && w.mgmd == Some(NewMgmd(cm, w))
    ensures SyncHandler(w, Smoothly(true)) == w.(ndb := w.ndb.(syncError := true))
  {
    var a := Smoothly(true);
    var c1 := EnsureConfig(Start(w), a).0;
    SyncEndsEarly(w, a, c1, EnsureMgmd(c1, a));
  }

  /**
   For all specifications with different secrets there is a run without failing calls, in which a
   pod error of a management node lets the secret be corrected before the data nodes are created:
   the errors are gone and no pod is left over, and still the first configuration is stuck.
   */
  lemma SecretCorrectionGetsStuck(spec: Spec, spec': Spec, redundancy: nat) returns (steps: seq<Step>)
    requires redundancy > 1 && ValidSpec(spec, redundancy) && ValidSpec(spec', redundancy)
    requires Renderable(spec) && Renderable(spec')
    requires spec.numData <= spec'.numData && spec.pool <= spec'.pool && spec.tde != spec'.tde
    ensures NoCallFailsIn(steps)
    ensures var w := After(Initial(spec, redundancy), steps);
            && w.ndb.spec == spec' && Calmed(w) && w.ndb.processed == 0 && (forall o :: !LeftOver(w, o))
            && w.cm.Some? && w.data.None? && w.cm.value.initialRestart
            && forall later: seq<Step>, a: Answers ::
                 (forall s :: s in later ==> Untended(s)) ==> !Sync(After(w, later), a).0.success
  {
    hide After, SyncHandler, Sync, UpdateComplete, ValidSpec, Standing;
    var w0, cm := Initial(spec, redundancy), ConfigMap(1, spec, false, 1, 1);
    var create, error, update, correct :=
      SyncStep(Smoothly(false)), SyncStep(Smoothly(true)), SpecStep(spec'), SyncStep(Smoothly(false));
    FirstSync(spec, redundancy);
    var w1 := Next(w0, create);
    WaitingSync(w1, cm);
    var w2 := Next(w1, error);
    var w3 := Next(w2, update);
    CorrectingSync(w3);
    var w4 := Next(w3, correct);
    var observe := ObserveMgmd(Complete(w4.mgmd.value));
    var w5 := Next(w4, observe);
    CompleteIsComplete(w4.mgmd.value);
    AfterOne(w0, create);
    AfterOne(w1, error);
    AfterOne(w2, update);
    AfterOne(w3, correct);
    AfterOne(w4, observe);
    AfterBoth(w0, [create], [error]);
    AfterBoth(w0, [create] + [error], [update]);
    AfterBoth(w0, [create] + [error] + [update], [correct]);
    AfterBoth(w0, [create] + [error] + [update] + [correct], [observe]);
    steps := [create] + [error] + [update] + [correct] + [observe];
    AlwaysStanding(spec, redundancy, steps);
    assert Flagged(w5);
    forall later: seq<Step>, a: Answers | forall s :: s in later ==> Untended(s)
      ensures !Sync(After(w5, later), a).0.success
    {
      StuckForGood(w5, later);
    }
  }
}
