/**
 A run that ends in success with a data node in no node group: nodes are added, a pod error is reported while
 the new nodes start, a change of the pods is let in, and its patch takes the announcement away.
 */
module UngroupedRun {
  import opened Wrappers
  import opened StatefulSets
  import opened Reconcile
  import opened ReconcileRuns
  import opened ReconcileSuccess
  import opened ReconcilePaths
  import opened ReconcileUpdates
  import opened UpdateRuns
  import opened TwoPhaseRestart
  import opened Convergence
  import opened PodErrorRuns
  import opened RoundsExist
  import opened ReconcileLimits
  import ClusterStatus
  import Rollout
  import UngroupedNodes

  // ----- phases that have nothing to do

  /** Phase `i` finds nothing to do in this state. */
  predicate Idle(i: nat, w: World) {
    && w.cm.Some? && w.mgmd.Some? && w.data.Some? && w.mysqld.Some? && w.ndb.processed > 0
    && var g := w.cm.value.generation;
       match i
       case 0 => !w.ndb.syncError
       case 1 => true
       case 2 => true
       case 3 => UpdateComplete(w.mysqld.value)
       case 4 => !Waits(w.mgmd, g, UpdateComplete(w.mgmd.value)) && !Waits(w.data, g, Ready(w.data.value))
                 && !Waits(w.mysqld, g, UpdateComplete(w.mysqld.value))
       case 5 => UpdateComplete(w.mysqld.value) && w.mysqld.value.status.replicas <= w.cm.value.spec.numMySQL
       case 6 => w.mgmd.value.applied == g
       case 7 => w.data.value.applied == g && !w.data.value.template.initial
       case 8 => UpdateComplete(w.data.value)
       case 9 => w.mysqld.value.applied == g
       case _ => !w.data.value.addNode
  }

  lemma IdlePhase(i: nat, w: World, a: Answers)
    requires i <= 10 && Idle(i, w)
    ensures Phase(i, Resting(i, w), a) == (Resting(i + 1, w), Continue)
  {
    hide Patched, UpdateComplete, Ready;
    if i == 8 {
      assert Rollout.Ordinals([], ManagementNodes(w)) == {};
      assert w.pods - {} == w.pods;
      IdlePods(w, a);
    }
  }

  lemma IdlePods(w: World, a: Answers)
    requires w.data.Some? && UpdateComplete(w.data.value)
    ensures EnsureDataPods(Resting(8, w), a)
         == (Resting(8, w).(w := w.(pods := w.pods - Rollout.Ordinals([], ManagementNodes(w)))), Continue)
  {
    hide UpdateComplete;
    NothingToRestart(a.status, w.redundancy, Rollout.View(a.cache, w.data.value.status.updateRevision, a.refusing, ManagementNodes(w)));
  }

  lemma {:induction false} IdleUntil(i: nat, j: nat, w: World, a: Answers)
    requires i <= j <= 11 && forall k :: i <= k < j ==> Idle(k, w)
    ensures RunFrom(i, Resting(i, w), a) == RunFrom(j, Resting(j, w), a)
    decreases j - i
  {
    hide Phase, Idle, Resting;
    if i < j {
      IdlePhase(i, w, a);
      IdleUntil(i + 1, j, w, a);
    }
  }

  /** A sync in which the phases before `j` have nothing to do, and phase `j` ends it. */
  lemma SyncEndsAt(j: nat, w: World, a: Answers)
    requires j <= 11 && (forall k :: 0 <= k < j ==> Idle(k, w)) && Phase(j, Resting(j, w), a).1 != Continue
    ensures Sync(w, a) == Phase(j, Resting(j, w), a)
  {
    hide Phase, Idle;
    StartIsResting(w);
    IdleUntil(0, j, w, a);
  }

  // ----- the round in which the new data nodes are started

  /** No secret changes, so no data node restarts with --initial. */
  predicate NoRestart(w: World) {
    && (w.cm.Some? ==> !w.cm.value.initialRestart && w.cm.value.spec.tde == w.ndb.spec.tde)
    && (w.data.Some? ==> !w.data.value.template.initial)
  }

  lemma NoRestartConfig(c: Ctx, a: Answers)
    requires NoRestart(c.w)
    ensures var (c', r) := EnsureConfig(c, a); NoRestart(c'.w) && (r == Continue ==> c'.w.cm == Some(c'.cs))
    ensures c.w.cm == Some(c.cs) ==> NoRestart(FinishSync(c, a).0.w) && FinishSync(c, a).1 != Continue
  {
  }

  lemma NoRestartPatch(c: Ctx, a: Answers)
    requires NoRestart(c.w) && c.w.cm == Some(c.cs)
    ensures NoRestart(ReconcileData(c, a).0.w)
  {
  }

  lemma NoRestartAddNode(c: Ctx, a: Answers)
    requires NoRestart(c.w)
    ensures NoRestart(HandleAddNode(c, a).0.w)
  {
    hide Patched;
    if c.data.Some? {
      var s := c.data.value;
      TemplateKept(c.w.data, s, s.(replicas := c.cs.spec.numData), ScaleData in a.fails);
      var w := StartNewDataNodes(c, a).0.w;
      TemplateKept(w.data, s, s.(addNode := false), ClearAddNode in a.fails);
    }
  }

  lemma TemplateKept(stored: Option<StatefulSet>, existing: StatefulSet, updated: StatefulSet, fails: bool)
    requires updated.template == existing.template
    ensures var s := Patched(stored, existing, updated, fails).0;
            (s.Some? <==> stored.Some?) && (s.Some? ==> s.value.template == stored.value.template)
  {
  }

  lemma NoRestartCreation(c: Ctx, a: Answers)
    requires NoRestart(c.w) && c.w.cm == Some(c.cs)
    ensures NoRestart(Phase(2, c, a).0.w)
  {
    hide UpdateComplete, ReconcileData, ClusterStatus.Range;
    NoRestartPatch(c.(data := c.w.data), a);
  }

  lemma CopyStays(j: nat, c: Ctx, a: Answers)
    requires 0 < j < LAST
    ensures Phase(j, c, a).0.cs == c.cs
  {
    hide Patched, UpdateComplete, Ready, Rollout.EnsurePods, Rebuilt, ClusterStatus.Range;
  }

  lemma NoRestartPhase(j: nat, c: Ctx, a: Answers)
    requires j <= LAST && NoRestart(c.w) && (j > 0 ==> c.w.cm == Some(c.cs))
    ensures var (c', r) := Phase(j, c, a); NoRestart(c'.w) && (r == Continue ==> c'.w.cm == Some(c'.cs))
  {
    hide Phase, ReconcileData, HandleAddNode, EnsureConfig, FinishSync;
    UngroupedNodes.PhasesByName(c, a);
    if j == 0 || j == LAST {
      NoRestartConfig(c, a);
      ConfigPhases(c, a);
    } else {
      UngroupedNodes.SameConfig(j, c, a);
      CopyStays(j, c, a);
      if j == 2 {
        NoRestartCreation(c, a);
      } else if j == 7 {
        NoRestartPatch(c, a);
      } else if j == 10 {
        NoRestartAddNode(c, a);
      } else {
        UngroupedNodes.Untouched(j, c, a);
      }
    }
  }

  lemma ConfigPhases(c: Ctx, a: Answers)
    ensures Phase(0, c, a) == EnsureConfig(c, a) && Phase(LAST, c, a) == FinishSync(c, a)
  {
  }

  lemma {:induction false} NoRestartRun(j: nat, c: Ctx, a: Answers)
    requires j <= LAST && NoRestart(c.w) && (j > 0 ==> c.w.cm == Some(c.cs))
    ensures NoRestart(RunFrom(j, c, a).0.w)
    decreases LAST - j
  {
    hide Phase, NoRestart;
    NoRestartPhase(j, c, a);
    if j < LAST && Phase(j, c, a).1 == Continue {
      NoRestartRun(j + 1, Phase(j, c, a).0, a);
    }
  }

  lemma {:induction false} CalmlyReached(j: nat, w: World, a: Answers)
    requires Tidy(w) && Friendly(w, a) && j <= LAST && Reached(0, j, Start(w), a).Some?
    ensures Calmly(j, Reached(0, j, Start(w), a).value, a)
    decreases j
  {
    hide Phase, Measure, Friendly, Calmly, Forward, Tidy;
    if j == 0 {
      StartIsCalmly(w, a);
    } else {
      ReachedEarlier(0, j - 1, j, Start(w), a);
      CalmlyReached(j - 1, w, a);
      var d := Reached(0, j - 1, Start(w), a).value;
      assert Smooth(j - 1, d, a) by { CalmlyMeans(j - 1, d, a); }
      ForwardPhase(j - 1, d, a);
      CalmlyNext(j - 1, d, a);
    }
  }

  lemma StartIsCalmly(w: World, a: Answers)
    requires Tidy(w) && Friendly(w, a)
    ensures Calmly(0, Start(w), a)
  {
    hide CalmStage, StandingStage, GroupsInStep, Quiet, Orderly, Informed, Rollout.Covers, Calm, Standing, Unhindered, Stale;
    CalmStart(w);
    TidyIsMended(w);
    StandingStart(w);
  }

  /** New data nodes are declared, configured and announced, and in no node group; nothing else is under way. */
  ghost predicate Adding(w: World, o: nat) {
    && w.redundancy > 0 && !w.ndb.syncError && w.ndb.processed > 0 && w.ndb.generation == w.ndb.processed + 1
    && ValidSpec(w.ndb.spec, w.redundancy) && Renderable(w.ndb.spec) && NoRestart(w)
    && w.cm.Some? && w.cm.value.generation == w.ndb.generation && w.cm.value.spec == w.ndb.spec
    && w.mgmd.Some? && UpdateComplete(w.mgmd.value) && w.mgmd.value.applied == w.ndb.generation
    && w.mysqld.Some? && UpdateComplete(w.mysqld.value) && w.mysqld.value.applied == w.ndb.generation
    && w.mysqld.value.replicas == w.ndb.spec.numMySQL
    && w.data.Some?
    && var s := w.data.value;
       && s.applied == w.ndb.generation && s.addNode && s.onDelete && s.replicas == w.ndb.spec.numData && Stale(w) == {}
       && (forall p :: p in w.pods ==> 0 <= p < s.replicas) && (forall p :: p in w.inducted ==> 0 <= p < s.replicas)
       && o < s.replicas && o !in w.inducted
  }

  /** They have just been started. */
  ghost predicate Scaled(w: World, o: nat) {
    Adding(w, o) && w.data.value.status.observed < w.data.value.generation
  }

  lemma ScaledByPhase(d: Ctx, a: Answers)
    requires Calmly(10, d, a) && NoRestart(d.w) && d.w.ndb.processed > 0
    requires Phase(10, d, a).0.w.data.Some? && Phase(10, d, a).0.w.data.value.replicas > d.w.data.value.replicas
    ensures Phase(10, d, a).1 == Finish && !Phase(10, d, a).0.success
    ensures Scaled(Phase(10, d, a).0.w, d.w.data.value.replicas)
  {
    hide Sound, Stage, Patched, ServersSound, UpdateComplete, Friendly, GroupsInStep, Orderly, Stale, ServersInStep;
    StageIsOriented(10, d);
    ConfigMapIsBehind(d.w);
    CalmFacts(d.w);
    var s := d.data.value;
    ClusterStatus.RangeIs(s.replicas);
    StandingFacts(d.w);
    OrderlyNodes(d.w);
    if s.addNode {
      ExactPatch(d.w.data, s, s.(replicas := d.cs.spec.numData), false);
      ExactPatch(d.w.data, s, s.(addNode := false), false);
      SameTemplate(d.w, Phase(10, d, a).0.w);
    }
  }

  lemma OrderlyNodes(w: World)
    requires Orderly(w) && w.data.Some?
    ensures Renderable(w.ndb.spec)
    ensures forall p :: p in w.inducted ==> 0 <= p < w.data.value.replicas
  {
    hide Stale;
  }

  lemma SameTemplate(w: World, v: World)
    requires w.data.Some? && v.data.Some? && v.data.value.template == w.data.value.template && v.pods == w.pods
    ensures Stale(v) == Stale(w)
  {
  }

  lemma ScaledBySync(w: World, a: Answers)
    requires Tidy(w) && Friendly(w, a) && NoRestart(w) && w.ndb.processed > 0 && w.data.Some?
    requires SyncHandler(w, a).data.Some? && SyncHandler(w, a).data.value.replicas > w.data.value.replicas
    ensures Scaled(SyncHandler(w, a), w.data.value.replicas)
  {
    assert !a.podErrors;
    hide Phase, Calm, GroupsInStep, Quiet, Orderly, Friendly, CalmStage, Calmly, Stale, Sound, Stage, RunFrom, Scaled;
    var j := EndsSomewhere(0, Start(w), a);
    CalmlyReached(j, w, a);
    CalmSound(w);
    StartStage(w);
    ReachedKept(0, j, Start(w), a);
    var d := Reached(0, j, Start(w), a).value;
    assert CalmStage(j, d) by { CalmlyMeans(j, d, a); }
    ReplicasRiseInAddNode(j, d, a);
    assert Phase(j, d, a).0.w.data == SyncHandler(w, a).data;
    ReachedNoRestart(j, w, a);
    ScaledByPhase(d, a);
    StatusKept(Phase(10, d, a).0, a, w.data.value.replicas);
  }

  lemma CalmlyMeans(j: nat, d: Ctx, a: Answers)
    requires Calmly(j, d, a)
    ensures CalmStage(j, d) && Smooth(j, d, a)
  {
    hide CalmStage, Smooth, GroupsInStep;
  }

  lemma {:induction false} ReachedNoRestart(j: nat, w: World, a: Answers)
    requires NoRestart(w) && j <= LAST && Reached(0, j, Start(w), a).Some?
    ensures var d := Reached(0, j, Start(w), a).value; NoRestart(d.w) && (j > 0 ==> d.w.cm == Some(d.cs))
    decreases j
  {
    hide Phase, NoRestart;
    if j == 0 {
      assert NoRestart(Start(w).w);
    } else {
      ReachedEarlier(0, j - 1, j, Start(w), a);
      ReachedNoRestart(j - 1, w, a);
      NoRestartPhase(j - 1, Reached(0, j - 1, Start(w), a).value, a);
    }
  }

  lemma StatusKept(c: Ctx, a: Answers, o: nat)
    requires Scaled(c.w, o) && !c.success && !a.podErrors
    ensures Reported(c, Finish, a) == c.w
  {
    hide Stale, UpdateComplete;
  }

  /** On the way from fewer data nodes to more, some round starts the new ones. */
  lemma {:induction false} RiseFound(w: World, rounds: seq<Round>) returns (steps: seq<Step>, a: Answers)
    requires Tidy(w) && w.redundancy > 0 && GoodRounds(w, rounds) && TakesEffect(w, rounds)
    requires NoRestart(w) && w.ndb.processed > 0 && w.data.Some? && w.data.value.replicas < w.ndb.spec.numData
    ensures AttentiveRun(w, steps) && Attentive(After(w, steps), SyncStep(a)) && NoCallFailsIn(steps + [SyncStep(a)])
    ensures var x := SyncHandler(After(w, steps), a);
            exists o: nat :: Scaled(x, o) && x.redundancy == w.redundancy && x.ndb.spec == w.ndb.spec
    decreases |rounds|
  {
    hide Calm, GroupsInStep, Quiet, Orderly, Friendly, AfterRound, InEffect, After, Measure, SyncHandler, NoRestart, Scaled, PodsFollow;
    var round := rounds[0];
    a := round.answers;
    var v := SyncHandler(w, a);
    TidyRoundProgresses(w, round);
    RoundIsAttentive(w, round);
    RoundFailsNowhere(w, round);
    RoundKeepsSpec(w, round);
    RoundKeepsData(w, round);
    if v.data.value.replicas > w.data.value.replicas {
      steps := [];
      NoSteps(w);
      assert AttentiveRun(w, []);
      FriendlyIsAttentive(w, a);
      FriendlyFailsNowhere(w, a);
      ScaledBySync(w, a);
      KeepsResource(w, a);
      assert Scaled(v, w.data.value.replicas);
    } else {
      var next := AfterRound(w, round);
      NotYetInEffect(next);
      var rest;
      rest, a := RiseFound(next, rounds[1..]);
      steps := [SyncStep(round.answers)] + round.environment + rest;
      AfterBoth(w, [SyncStep(round.answers)] + round.environment, rest);
      AttentiveBoth(w, [SyncStep(round.answers)] + round.environment, rest);
    }
  }

  lemma FriendlyFailsNowhere(w: World, a: Answers)
    requires Friendly(w, a)
    ensures NoCallFailsIn([SyncStep(a)])
  {
    hide Informed, Rollout.Covers;
  }

  lemma NotYetInEffect(w: World)
    requires w.data.Some? && w.data.value.replicas < w.ndb.spec.numData
    ensures !InEffect(w)
  {
    hide Stale;
  }

  lemma KeepsResource(w: World, a: Answers)
    ensures SyncHandler(w, a).redundancy == w.redundancy && SyncHandler(w, a).ndb.spec == w.ndb.spec
    ensures SyncHandler(w, a).ndb.generation == w.ndb.generation
    ensures w.ndb.processed <= w.ndb.generation ==> SyncHandler(w, a).ndb.processed >= w.ndb.processed
  {
    hide RunFrom;
    RunKeepsRedundancy(0, Start(w), a);
  }

  /** A good round keeps the data nodes, and no restart with --initial comes up. */
  lemma RoundKeepsData(w: World, round: Round)
    requires Tidy(w) && w.redundancy > 0 && GoodRound(w, round) && NoRestart(w) && w.data.Some? && w.ndb.processed > 0
    ensures var v, v' := SyncHandler(w, round.answers), AfterRound(w, round);
            && v.data.Some? && v'.data.Some? && v'.data.value.replicas == v.data.value.replicas
            && NoRestart(v') && v'.ndb.processed > 0
  {
    hide After, Calm, GroupsInStep, Quiet, Orderly, PodsFollow, RunFrom, Informed, Rollout.Covers, NoRestart;
    var a := round.answers;
    FriendlyGroupsAll(w, a);
    StepIsCalm(w, SyncStep(a));
    StepKeepsGroups(w, SyncStep(a));
    var v := SyncHandler(w, a);
    EnvironmentSteps(v, round.environment);
    ReplicasRiseAfterRestart(w, a);
    ConfigMapIsBehind(w) by { CalmSound(w); }
    KeepsResource(w, a);
    NoRestartRun(0, Start(w), a);
    ReportedNoRestart(Sync(w, a).0, Sync(w, a).1, a);
    SteadyNoRestart(v, AfterRound(w, round));
  }

  lemma ReportedNoRestart(c: Ctx, r: Reconcile.Result, a: Answers)
    requires NoRestart(c.w)
    ensures NoRestart(Reported(c, r, a))
  {
  }

  lemma SteadyNoRestart(v: World, v': World)
    requires NoRestart(v) && Steady(v, v')
    ensures NoRestart(v')
  {
  }

  // ----- an error report, and a change of the pods

  /** The environment answers, nothing fails; `podErrors` is what the pods report. */
  function Answering(w: World, podErrors: bool): Answers {
    Answers({}, true, true, None, w.pods, {}, w.pods.Keys, podErrors, false)
  }

  /** While the new data nodes start, a sync ends early; it reports the error of a pod. */
  lemma ErrorReported(w: World, o: nat)
    requires Scaled(w, o)
    ensures SyncHandler(w, Answering(w, true)) == w.(ndb := w.ndb.(syncError := true))
  {
    hide UpdateComplete, Stale;
    var a := Answering(w, true);
    forall k | 0 <= k < 4 ensures Idle(k, w) {
    }
    assert !Ready(w.data.value);
    SyncEndsAt(4, w, a);
  }

  /** With the error in the status, the change goes straight into the config map. */
  lemma ChangeWritten(w: World, spec: Spec)
    requires w.cm.Some? && w.ndb.syncError && w.ndb.spec == spec && Renderable(spec) && w.cm.value.generation != w.ndb.generation
    ensures var a := Answering(w, false);
            SyncHandler(w, a) == w.(cm := Some(WithSpec(w.cm.value, w.ndb, a)), ndb := w.ndb.(syncError := false))
  {
    var a := Answering(w, false);
    var c := EnsureConfig(Start(w), a).0;
    assert RunFrom(0, Start(w), a) == EnsureConfig(Start(w), a);
  }

  /** The change is in the config map and has reached the first `k` StatefulSets; node `o` has no group. */
  predicate Changing(k: nat, w: World, o: nat) {
    && w.redundancy > 0 && !w.ndb.syncError && w.ndb.processed > 0
    && ValidSpec(w.ndb.spec, w.redundancy) && Renderable(w.ndb.spec)
    && w.cm.Some? && w.cm.value.generation == w.ndb.generation && w.cm.value.spec == w.ndb.spec && !w.cm.value.initialRestart
    && w.mgmd.Some? && UpdateComplete(w.mgmd.value)
    && w.mysqld.Some? && UpdateComplete(w.mysqld.value) && w.mysqld.value.replicas <= w.ndb.spec.numMySQL
    && w.data.Some?
    && var s := w.data.value;
       && s.onDelete && s.replicas == w.ndb.spec.numData && !s.template.initial && o < s.replicas && o !in w.inducted
       && (forall p :: p in w.pods ==> 0 <= p < s.replicas) && (forall p :: p in w.inducted ==> 0 <= p < s.replicas)
       && Stale(w) == {}
       && (if k > 0 then w.mgmd.value.applied == w.ndb.generation
           else w.mgmd.value.applied != w.ndb.generation && w.mgmd.value.template.shape != w.ndb.spec.shape)
       && (if k > 1 then s.applied == w.ndb.generation && !s.addNode
           else s.applied != w.ndb.generation && s.template.shape != w.ndb.spec.shape)
       && (if k > 2 then w.mysqld.value.applied == w.ndb.generation && w.mysqld.value.replicas == w.ndb.spec.numMySQL
           else w.mysqld.value.applied != w.ndb.generation && w.mysqld.value.template.shape != w.ndb.spec.shape)
  }

  /** The data node pods run and the status says so. */
  predicate DataUp(w: World) {
    w.data.Some? && UpdateComplete(w.data.value) && Ready(w.data.value)
  }

  /** The same change with pods that differ from all that run now. */
  function NewShape(w: World): int
    requires w.mgmd.Some? && w.data.Some? && w.mysqld.Some?
  {
    var a, b, c := w.mgmd.value.template.shape, w.data.value.template.shape, w.mysqld.value.template.shape;
    1 + (if a > b && a > c then a else if b > c then b else c)
  }

  lemma ChangeLetIn(w: World, o: nat) returns (steps: seq<Step>)
    requires Scaled(w, o) && w.redundancy != 1
    ensures var spec := w.ndb.spec.(shape := NewShape(w));
            Changing(0, After(w, steps), o) && After(w, steps).ndb.spec == spec && NoCallFailsIn(steps)
  {
    hide After, UpdateComplete, Stale, SyncHandler, ValidSpec, WithSpec;
    var spec := w.ndb.spec.(shape := NewShape(w));
    ErrorReported(w, o);
    var s1 := SyncStep(Answering(w, true));
    AfterOne(w, s1);
    var w1 := w.(ndb := w.ndb.(syncError := true));
    var s2 := SpecStep(spec);
    assert AdmittedUpdate(w1, spec) by { SameCounts(w, spec); }
    AfterOne(w1, s2);
    var w2 := w1.(ndb := w1.ndb.(generation := w1.ndb.generation + 1, spec := spec));
    ChangeWritten(w2, spec);
    var s3 := SyncStep(Answering(w2, false));
    AfterOne(w2, s3);
    var w3 := SyncHandler(w2, Answering(w2, false));
    Written(w2, w3);
    AfterBoth(w, [s1], [s2]);
    AfterBoth(w, [s1] + [s2], [s3]);
    steps := [s1] + [s2] + [s3];
    assert Changing(0, w3, o) by { SameCounts(w, spec); StaleSame(w, w3); }
  }

  lemma SameCounts(w: World, spec: Spec)
    requires w.redundancy > 0 && spec == w.ndb.spec.(shape := spec.shape)
    ensures ValidSpec(spec, w.redundancy) <==> ValidSpec(w.ndb.spec, w.redundancy)
  {
  }

  lemma StaleSame(w: World, v: World)
    requires v.pods == w.pods && v.data == w.data
    ensures Stale(v) == Stale(w)
  {
  }

  lemma Written(w: World, v: World)
    requires w.cm.Some? && v.cm == Some(WithSpec(w.cm.value, w.ndb, Answering(w, false)))
    ensures v.cm.value.generation == w.ndb.generation && v.cm.value.spec == w.ndb.spec
    ensures v.cm.value.initialRestart == (w.cm.value.initialRestart || w.cm.value.spec.tde != w.ndb.spec.tde)
  {
  }

  // ----- the change reaches the StatefulSets one by one

  lemma {:induction false} EnvironmentKeeps(v: World, steps: seq<Step>)
    requires v.redundancy > 0 && forall s :: s in steps ==> Environment(s)
    ensures var u := After(v, steps);
            SameButStatus(v.mysqld, u.mysqld) && SameButStatus(v.mgmd, u.mgmd) && SameButStatus(v.data, u.data)
    decreases |steps|
  {
    hide Next;
    if steps != [] {
      var n := |steps| - 1;
      EnvironmentKeeps(v, steps[..n]);
      EnvironmentStep(After(v, steps[..n]), steps[n]);
    }
  }

  /** The data nodes catch up; nothing else moves. */
  lemma DataSettles(k: nat, w: World, o: nat) returns (steps: seq<Step>)
    requires k <= 2 && Changing(k, w, o)
    ensures NoCallFailsIn(steps)
    ensures Changing(k, After(w, steps), o) && DataUp(After(w, steps)) && After(w, steps).ndb == w.ndb
  {
    hide After, Stale, UpToDate, ClusterStatus.Range;
    ChangingIsOrderly(k, w, o);
    steps := DataCatchUp(w);
    var v := After(w, steps);
    EnvironmentKeeps(w, steps);
    FollowersAreFresh(w, v);
    ClusterStatus.RangeIs(v.data.value.replicas);
    NoneMissing(v);
  }

  lemma ChangingIsOrderly(k: nat, w: World, o: nat)
    requires Changing(k, w, o) && k <= 2
    ensures Orderly(w)
  {
  }

  lemma FollowersAreFresh(w: World, v: World)
    requires PodsFollow(w, v) && Stale(w) == {} && w.data.Some? && v.data.Some? && v.data.value.template == w.data.value.template
    ensures Stale(v) == {}
  {
    forall o ensures o !in Stale(v) {
      if o in w.pods {
        assert o !in Stale(w);
      }
    }
  }

  lemma NoneMissing(w: World)
    requires w.data.Some? && w.data.value.onDelete && Stale(w) == {}
    requires var s := w.data.value;
             && w.pods.Keys == ClusterStatus.Range(s.replicas)
             && s.status == Status(s.generation, s.replicas, s.replicas, |UpToDate(w.pods, s.template)|, 0, s.template)
    ensures DataUp(w)
  {
    hide ClusterStatus.Range;
    var s := w.data.value;
    ClusterStatus.RangeIs(s.replicas);
    assert |w.pods.Keys| == s.replicas;
    forall o ensures o in UpToDate(w.pods, s.template) <==> o in w.pods.Keys {
      assert o !in Stale(w);
    }
    assert UpToDate(w.pods, s.template) == w.pods.Keys;
  }

  /** The management nodes are patched, and restarted. */
  lemma MgmdChanges(w: World, o: nat) returns (steps: seq<Step>)
    requires Changing(0, w, o) && DataUp(w)
    ensures NoCallFailsIn(steps)
    ensures Changing(1, After(w, steps), o) && DataUp(After(w, steps)) && After(w, steps).ndb == w.ndb
  {
    hide After, Stale, UpdateComplete, Patched, SyncHandler, ValidSpec;
    var a := Answering(w, false);
    MgmdPatched(w, o);
    AfterOne(w, SyncStep(a));
    var v := SyncHandler(w, a);
    StaleSame(w, v);
    var env := MgmdCatchUp(v);
    steps := [SyncStep(a)] + env;
    AfterBoth(w, [SyncStep(a)], env);
    EnvironmentKeeps(v, env);
    StaleSame(w, After(v, env));
  }

  lemma MgmdPatched(w: World, o: nat)
    requires Changing(0, w, o) && DataUp(w)
    ensures var v := SyncHandler(w, Answering(w, false));
            v == w.(mgmd := v.mgmd) && v.mgmd.Some? && v.mgmd.value.applied == w.ndb.generation
  {
    hide UpdateComplete, Patched, Stale, ValidSpec;
    var a := Answering(w, false);
    forall k | 0 <= k < 6 ensures Idle(k, w) {
      ServersStand(w);
    }
    var s := w.mgmd.value;
    ExactPatch(w.mgmd, s, Rebuilt(s, NewMgmd(w.cm.value, w)), false);
    SyncEndsAt(6, w, a);
  }

  lemma ServersStand(w: World)
    requires w.mysqld.Some? && UpdateComplete(w.mysqld.value)
    ensures w.mysqld.value.status.replicas == w.mysqld.value.replicas
  {
  }

  /** The data nodes are patched: here the announcement gets lost. Then all their pods are restarted. */
  lemma DataChanges(w: World, o: nat) returns (steps: seq<Step>)
    requires Changing(1, w, o) && DataUp(w)
    ensures NoCallFailsIn(steps)
    ensures Changing(2, After(w, steps), o) && DataUp(After(w, steps)) && After(w, steps).ndb == w.ndb
  {
    hide After, Stale, UpdateComplete, Patched, SyncHandler, ValidSpec;
    var a := Answering(w, false);
    DataPatched(w, o);
    AfterOne(w, SyncStep(a));
    var v := SyncHandler(w, a);
    var n := v.data.value.replicas;
    var stops := Stops(n);
    PodsStop(v, n);
    var u := After(v, stops);
    assert u.pods == map[] by { NoPods(v, n); }
    assert Stale(u) == {} by { NothingStale(u); }
    var env := DataSettles(2, u, o);
    steps := [SyncStep(a)] + stops + env;
    AfterBoth(w, [SyncStep(a)], stops);
    AfterBoth(w, [SyncStep(a)] + stops, env);
  }

  lemma DataPatched(w: World, o: nat)
    requires Changing(1, w, o) && DataUp(w)
    ensures var v := SyncHandler(w, Answering(w, false));
            && v == w.(data := v.data) && v.data.Some?
            && v.data == Some(RebuiltData(w.data.value, w.cm.value, w).(generation := v.data.value.generation))
  {
    hide UpdateComplete, Patched, Stale, ValidSpec;
    var a := Answering(w, false);
    forall k | 0 <= k < 7 ensures Idle(k, w) {
      ServersStand(w);
    }
    var s := w.data.value;
    ExactPatch(w.data, s, RebuiltData(s, w.cm.value, w), false);
    SyncEndsAt(7, w, a);
  }

  function Stops(n: nat): (s: seq<Step>)
    ensures |s| == n && forall o :: 0 <= o < n ==> s[o] == StopPod(o)
  {
    seq(n, o requires 0 <= o < n => StopPod(o))
  }

  lemma {:induction false} PodsStop(w: World, n: nat)
    requires w.redundancy > 0
    ensures After(w, Stops(n)) == w.(pods := w.pods - ClusterStatus.Range(n))
  {
    hide After;
    if n == 0 {
      NoSteps(w);
      assert w.pods - {} == w.pods;
    } else {
      hide Stale;
      PodsStop(w, n - 1);
      assert Stops(n)[..n - 1] == Stops(n - 1);
      LastStep(w, Stops(n));
      assert ClusterStatus.Range(n) == ClusterStatus.Range(n - 1) + {n - 1};
      PodsWithout(w.pods, ClusterStatus.Range(n - 1), n - 1);
    }
  }

  lemma PodsWithout(pods: map<int, Template>, gone: set<int>, o: int)
    ensures pods - gone - {o} == pods - (gone + {o})
  {
  }

  lemma NoPods(w: World, n: nat)
    requires forall p :: p in w.pods ==> 0 <= p < n
    ensures w.pods - ClusterStatus.Range(n) == map[]
  {
    ClusterStatus.RangeIs(n);
    var left := w.pods - ClusterStatus.Range(n);
    assert forall p :: p !in left;
  }

  lemma NothingStale(w: World)
    requires w.pods == map[]
    ensures Stale(w) == {}
  {
  }

  /** The MySQL servers are patched, and restarted. */
  lemma MysqldChanges(w: World, o: nat) returns (steps: seq<Step>)
    requires Changing(2, w, o) && DataUp(w)
    ensures NoCallFailsIn(steps)
    ensures Changing(3, After(w, steps), o) && DataUp(After(w, steps)) && After(w, steps).ndb == w.ndb
  {
    hide After, Stale, UpdateComplete, Patched, SyncHandler, ValidSpec;
    var a := Answering(w, false);
    MysqldPatched(w, o);
    AfterOne(w, SyncStep(a));
    var v := SyncHandler(w, a);
    StaleSame(w, v);
    var env := MysqldCatchUp(v);
    steps := [SyncStep(a)] + env;
    AfterBoth(w, [SyncStep(a)], env);
    var u := After(v, env);
    StaleSame(w, u);
    EnvironmentKeeps(v, env);
  }

  lemma MysqldPatched(w: World, o: nat)
    requires Changing(2, w, o) && DataUp(w)
    ensures var v := SyncHandler(w, Answering(w, false));
            && v == w.(mysqld := v.mysqld, ceiling := v.ceiling) && v.mysqld.Some?
            && v.mysqld.value.applied == w.ndb.generation && v.mysqld.value.replicas == w.ndb.spec.numMySQL
  {
    hide UpdateComplete, Patched, Stale, ValidSpec;
    var a := Answering(w, false);
    forall k | 0 <= k < 9 ensures Idle(k, w) {
      ServersStand(w);
    }
    var s := w.mysqld.value;
    ExactPatch(w.mysqld, s, Rebuilt(s, NewMysqld(w.cm.value, w)), false);
    SyncEndsAt(9, w, a);
  }

  /** Nothing is left to do but the root user: the sync reports success. */
  lemma SuccessReported(w: World, o: nat)
    requires Changing(3, w, o) && DataUp(w)
    ensures var a := Answering(w, false);
            && Sync(w, a).0.success
            && SyncHandler(w, a).data == w.data && SyncHandler(w, a).inducted == w.inducted
  {
    hide UpdateComplete, Patched, Stale, ValidSpec;
    var a := Answering(w, false);
    forall k | 0 <= k < 11 ensures Idle(k, w) {
      ServersStand(w);
    }
    StartIsResting(w);
    IdleUntil(0, 11, w, a);
    var c := Resting(11, w);
    var s := w.mysqld.value;
    var t := s.(rootHost := Some(w.ndb.spec.rootHost), rootGen := Some(w.cm.value.generation));
    AnnotationPatch(w.mysqld, s, t, false);
    PatchSucceeds(w.mysqld, s, t);
    var (d, r) := Phase(11, c, a);
    assert r == Continue && d.w == c.w.(mysqld := d.w.mysqld, rootUsers := d.w.rootUsers) && d == c.(w := d.w);
    assert RunFrom(11, c, a) == RunFrom(12, d, a);
    assert RunFrom(12, d, a) == FinishSync(d, a);
  }

  // ----- a node that is passed over

  lemma AddingSettles(w: World, o: nat) returns (steps: seq<Step>)
    requires Adding(w, o)
    ensures forall s :: s in steps ==> Environment(s)
    ensures Adding(After(w, steps), o) && DataUp(After(w, steps)) && After(w, steps).ndb == w.ndb
  {
    hide After, Stale, UpToDate, ClusterStatus.Range, UpdateComplete;
    AddingIsOrderly(w, o);
    steps := DataCatchUp(w);
    var v := After(w, steps);
    EnvironmentKeeps(w, steps);
    FollowersAreFresh(w, v);
    ClusterStatus.RangeIs(v.data.value.replicas);
    NoneMissing(v);
  }

  lemma AddingIsOrderly(w: World, o: nat)
    requires Adding(w, o)
    ensures Orderly(w)
  {
    hide UpdateComplete;
  }

  /** The management server finds none of the new data nodes connected. */
  function PassingOver(w: World): Answers {
    Answering(w, false).(newGroups := {})
  }

  /** Nothing fails, the new data nodes are passed over, and the sync reports success. */
  lemma PassedOver(w: World, o: nat)
    requires Adding(w, o) && DataUp(w)
    ensures var a := PassingOver(w);
            && Sync(w, a).0.success
            && SyncHandler(w, a).data.Some? && !SyncHandler(w, a).data.value.addNode
            && SyncHandler(w, a).data.value.replicas == w.data.value.replicas && SyncHandler(w, a).inducted == w.inducted
  {
    hide UpdateComplete, Patched, Stale, ValidSpec;
    var a := PassingOver(w);
    forall k | 0 <= k < 10 ensures Idle(k, w) {
      ServersStand(w);
    }
    StartIsResting(w);
    IdleUntil(0, 10, w, a);
    var c, s := Resting(10, w), w.data.value;
    ExactPatch(w.data, s, s.(addNode := false), false);
    assert w.inducted + {} * w.pods.Keys == w.inducted;
    var (d, r) := Phase(10, c, a);
    assert r == Continue && d == c.(w := w.(data := Some(s.(addNode := false))));
    assert RunFrom(10, c, a) == RunFrom(11, d, a);
    RootFollows(d, a);
  }

  /** What is left to do is the root user's host. */
  lemma RootFollows(d: Ctx, a: Answers)
    requires a.fails == {} && d.mysqld.Some? && d.w.mysqld == d.mysqld && d.cs.generation == d.w.ndb.generation
    requires !IsInitialFlagSet(d.data) && !d.success
    ensures var (c, r) := RunFrom(11, d, a);
            c.success && r == Finish && c.w == d.w.(mysqld := c.w.mysqld, rootUsers := c.w.rootUsers)
  {
    hide Patched;
    var s := d.mysqld.value;
    var t := s.(rootHost := Some(d.w.ndb.spec.rootHost), rootGen := Some(d.cs.generation));
    AnnotationPatch(d.w.mysqld, s, t, false);
    PatchSucceeds(d.w.mysqld, s, t);
    var (e, r) := Phase(11, d, a);
    assert r == Continue && e.w == d.w.(mysqld := e.w.mysqld, rootUsers := e.w.rootUsers) && e == d.(w := e.w);
    assert RunFrom(11, d, a) == RunFrom(12, e, a);
    assert RunFrom(12, e, a) == FinishSync(e, a);
  }

  // ----- the whole run

  /**
   For all valid specifications that add data nodes there is a run without a failing call and without
   any pod error in which a sync reports success while a started data node is in no node group.
   */
  lemma SuccessWithMissedNode(spec: Spec, spec': Spec, redundancy: nat) returns (steps: seq<Step>, a: Answers, o: nat)
    requires redundancy > 1 && ValidSpec(spec, redundancy) && ValidSpec(spec', redundancy)
    requires spec.numData < spec'.numData && spec.pool <= spec'.pool && spec.tde == spec'.tde
    requires Renderable(spec) && Renderable(spec')
    ensures AttentiveRun(Initial(spec, redundancy), steps) && NoCallFailsIn(steps)
    ensures var w := After(Initial(spec, redundancy), steps);
            && Sync(w, a).0.success && a.fails == {} && !a.podErrors
            && SyncHandler(w, a).data.Some? && o < SyncHandler(w, a).data.value.replicas && o !in SyncHandler(w, a).inducted
  {
    hide After, Tidy, GoodRounds, Mended, TakesEffect, InEffect, ValidSpec, NoRestart, Adding, SyncHandler, Sync, DataUp, AttentiveRun,
         Attentive;
    var w0 := Initial(spec, redundancy);
    StartsTidy(spec, redundancy);
    TidyIsMended(w0);
    var rounds := CanTakeEffect(w0);
    var first, n := RoundsRun(w0, rounds);
    var w1 := After(w0, first);
    var second, b := AdditionStarts(w1, spec');
    var w2 := After(w1, second);
    var x := SyncHandler(w2, b);
    var p: nat :| Scaled(x, p) && x.redundancy == redundancy && x.ndb.spec == spec';
    o := p;
    AfterOne(w2, SyncStep(b));
    var third := AddingSettles(x, o);
    var w := After(x, third);
    a := PassingOver(w);
    PassedOver(w, o);
    AddingUngrouped(w, o);
    var to1 := first + second;
    var to2 := to1 + [SyncStep(b)];
    AfterBoth(w0, first, second);
    AfterBoth(w0, to1, [SyncStep(b)]);
    AfterBoth(w0, to2, third);
    AttentiveBoth(w0, first, second);
    SyncIsAttentive(w2, b);
    AttentiveBoth(w0, to1, [SyncStep(b)]);
    EnvironmentIsAttentive(x, third);
    AttentiveBoth(w0, to2, third);
    steps := to2 + third;
  }

  lemma AddingUngrouped(w: World, o: nat)
    requires Adding(w, o)
    ensures w.data.Some? && o < w.data.value.replicas && o !in w.inducted
  {
    hide UpdateComplete, Stale, ValidSpec, NoRestart;
  }

  lemma SyncIsAttentive(w: World, a: Answers)
    requires w.redundancy > 0 && Attentive(w, SyncStep(a))
    ensures AttentiveRun(w, [SyncStep(a)])
  {
    hide Attentive;
    assert [SyncStep(a)][..0] == [];
    NoSteps(w);
  }

  /**
   For all valid specifications that add data nodes there is a run, without a failing call, that adds
   them, and in which a pod error and a change of the pods make a sync report success while a started data node
   is in no node group.
   */
  lemma SuccessWithUngroupedNode(spec: Spec, spec': Spec, redundancy: nat) returns (steps: seq<Step>, a: Answers, o: nat)
    requires redundancy > 1 && ValidSpec(spec, redundancy) && ValidSpec(spec', redundancy)
    requires spec.numData < spec'.numData && spec.pool <= spec'.pool && spec.tde == spec'.tde
    requires Renderable(spec) && Renderable(spec')
    ensures NoCallFailsIn(steps)
    ensures var w := After(Initial(spec, redundancy), steps);
            && Sync(w, a).0.success && a.fails == {} && !a.podErrors
            && SyncHandler(w, a).data.Some? && o < SyncHandler(w, a).data.value.replicas && o !in SyncHandler(w, a).inducted
  {
    hide After, Tidy, GoodRounds, Mended, TakesEffect, InEffect, ValidSpec, NoRestart, Scaled, Changing, SyncHandler, Sync, DataUp;
    var w0 := Initial(spec, redundancy);
    StartsTidy(spec, redundancy);
    TidyIsMended(w0);
    var rounds := CanTakeEffect(w0);
    var first, n := RoundsRun(w0, rounds);
    var w1 := After(w0, first);
    var second, b := AdditionStarts(w1, spec');
    var x := SyncHandler(After(w1, second), b);
    var p: nat :| Scaled(x, p) && x.redundancy == redundancy && x.ndb.spec == spec';
    o := p;
    AfterOne(After(w1, second), SyncStep(b));
    var third := ChangeLetIn(x, o);
    var fourth := RestOfRun(After(x, third), o);
    var w := After(After(x, third), fourth);
    a := Answering(w, false);
    SuccessReported(w, o);
    assert SyncHandler(w, a).data.Some? && o < SyncHandler(w, a).data.value.replicas && o !in SyncHandler(w, a).inducted by {
      StillUngrouped(w, o);
    }
    var to1 := first + second;
    var to2 := to1 + [SyncStep(b)];
    AfterBoth(w0, first, second);
    AfterBoth(w0, to1, [SyncStep(b)]);
    AfterBoth(w0, to2, third);
    AfterBoth(w0, to2 + third, fourth);
    steps := to2 + third + fourth;
  }

  lemma StillUngrouped(w: World, o: nat)
    requires Changing(3, w, o)
    ensures w.data.Some? && o < w.data.value.replicas && o !in w.inducted
  {
    hide UpdateComplete, Stale, ValidSpec;
  }

  lemma AdditionStarts(w: World, spec: Spec) returns (steps: seq<Step>, a: Answers)
    requires Tidy(w) && InEffect(w) && w.redundancy > 1 && ValidSpec(spec, w.redundancy) && Renderable(spec)
    requires w.ndb.spec.numData < spec.numData && w.ndb.spec.pool <= spec.pool && w.ndb.spec.tde == spec.tde
    ensures AttentiveRun(w, steps) && Attentive(After(w, steps), SyncStep(a)) && NoCallFailsIn(steps + [SyncStep(a)])
    ensures var x := SyncHandler(After(w, steps), a);
            exists o: nat :: Scaled(x, o) && x.redundancy == w.redundancy && x.ndb.spec == spec
  {
    hide After, GoodRounds, Mended, TakesEffect, ValidSpec, Calm, GroupsInStep, Quiet, Orderly, Scaled, SyncHandler, Stale;
    var update := SpecStep(spec);
    UpdateStaysTidy(w, spec);
    AfterOne(w, update);
    var u := Next(w, update);
    assert w.ndb.generation > 0 by { CalmSound(w); SpecifiedOnce(w); }
    TidyIsMended(u);
    var rounds := CanTakeEffect(u);
    var rest;
    rest, a := RiseFound(u, rounds);
    steps := [update] + rest;
    AfterBoth(w, [update], rest);
    UpdateIsAttentive(w, update);
    AttentiveBoth(w, [update], rest);
  }

  lemma RestOfRun(w: World, o: nat) returns (steps: seq<Step>)
    requires Changing(0, w, o)
    ensures NoCallFailsIn(steps)
    ensures Changing(3, After(w, steps), o) && DataUp(After(w, steps))
  {
    hide After, Changing, DataUp;
    assert w.redundancy > 0 by { HasNodes(w, o); }
    var s1 := DataSettles(0, w, o);
    var s2 := MgmdChanges(After(w, s1), o);
    AfterBoth(w, s1, s2);
    var s3 := DataChanges(After(w, s1 + s2), o);
    AfterBoth(w, s1 + s2, s3);
    var s4 := MysqldChanges(After(w, s1 + s2 + s3), o);
    AfterBoth(w, s1 + s2 + s3, s4);
    steps := s1 + s2 + s3 + s4;
  }

  lemma HasNodes(w: World, o: nat)
    requires Changing(0, w, o)
    ensures w.redundancy > 0
  {
  }
}
