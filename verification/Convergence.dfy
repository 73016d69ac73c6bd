/**
 Updates complete. In a round, a sync without failing calls is followed by controllers and pods catching up.
 Every round either reports success or comes closer to it by a measure that is linear in the number of data
 nodes, so every admitted specification is put into effect.
 */
module Convergence {
  import opened Wrappers
  import opened StatefulSets
  import opened Reconcile
  import opened ReconcileRuns
  import opened ReconcileSuccess
  import opened ReconcileUpdates
  import opened UpdateRuns
  import opened PodErrorRuns
  import ClusterStatus
  import Rollout
  import TwoPhaseRestart

  // ----- rounds

  predicate Environment(step: Step) {
    !step.SyncStep? && !step.SpecStep?
  }

  /** Data node pods that do not run the current template. */
  function Stale(w: World): set<int> {
    if w.data.None? then {} else Rollout.Outdated(w.pods, w.data.value.template)
  }

  /** The controllers have seen the current objects, every pod runs, and the statuses say so. */
  predicate Quiet(w: World) {
    && (w.mgmd.Some? ==> UpdateComplete(w.mgmd.value))
    && (w.mysqld.Some? ==> UpdateComplete(w.mysqld.value))
    && (w.data.Some? ==>
          var s := w.data.value;
          && w.pods.Keys == ClusterStatus.Range(s.replicas)
          && s.status == Status(s.generation, s.replicas, s.replicas, |UpToDate(w.pods, s.template)|, 0, s.template))
  }

  /** No call fails, reads are fresh, and new data nodes are grouped when asked for. */
  ghost predicate Friendly(w: World, a: Answers) {
    && a.fails == {} && a.refusing == {} && !a.podErrors && !a.statusUpdateFails
    && Informed(w, a) && w.pods.Keys <= a.newGroups
    && (Stale(w) != {} ==>
          && a.status.Some? && !Rollout.AnyMissing(a.status.value)
          && Rollout.Covers(Rollout.GroupsOf(a.status.value), w.redundancy, w.pods, ManagementNodes(w)))
  }

  datatype Round = Round(answers: Answers, environment: seq<Step>)

  ghost function AfterRound(w: World, round: Round): World
    requires w.redundancy > 0
    ensures AfterRound(w, round).redundancy == w.redundancy
  {
    NextKeepsRedundancy(w, SyncStep(round.answers));
    After(SyncHandler(w, round.answers), round.environment)
  }

  /** Pods that are started run the current template. */
  predicate PodsFollow(v: World, v': World) {
    v'.data.Some? ==> forall o :: o in v'.pods ==> v'.pods[o] == v'.data.value.template || (o in v.pods && v'.pods[o] == v.pods[o])
  }

  ghost predicate GoodRound(w: World, round: Round)
    requires w.redundancy > 0
  {
    && Friendly(w, round.answers) && (forall s :: s in round.environment ==> Environment(s))
    && Quiet(AfterRound(w, round)) && PodsFollow(SyncHandler(w, round.answers), AfterRound(w, round))
  }

  // ----- the state between rounds, and how far it is from success

  ghost predicate Orderly(w: World) {
    && Renderable(w.ndb.spec) && (w.cm.Some? ==> Renderable(w.cm.value.spec))
    && (w.data.None? ==> w.pods == map[])
    && (w.data.Some? ==>
          var n := w.data.value.replicas;
          && (forall o :: o in w.pods ==> 0 <= o < n)
          && (forall o :: o in w.inducted ==> 0 <= o < n)
          && (Stale(w) != {} ==> forall o :: 0 <= o < n ==> o in w.inducted)
          && w.redundancy > 0 && 0 < n && n % w.redundancy == 0)
    && (w.cm.Some? && w.mysqld.Some? && w.mysqld.value.applied == w.cm.value.generation ==>
          w.mysqld.value.replicas == w.cm.value.spec.numMySQL)
    && (w.ndb.processed == 0 && w.cm.Some? ==>
          && !w.cm.value.initialRestart
          && (w.data.Some? ==> w.data.value.template == FinalTemplate(w.cm.value) && Stale(w) == {}))
  }

  ghost predicate Tidy(w: World) {
    Calm(w) && GroupsInStep(w) && Quiet(w) && Orderly(w)
  }

  predicate PatchDue(s: StatefulSet, cm: ConfigMap) {
    s.applied != cm.generation || (s.template.initial && !cm.initialRestart)
  }

  /**
   Every started data node is in a group, or is announced and next to be grouped, or no pod of a
   data node has to be restarted any more.
   */
  ghost predicate Unhindered(w: World) {
    w.data.Some? && w.cm.Some? ==>
      var s := w.data.value;
      || (forall o :: 0 <= o < s.replicas ==> o in w.inducted)
      || (s.addNode && !PatchDue(s, w.cm.value) && s.replicas == w.cm.value.spec.numData)
      || (w.cm.value.generation == w.ndb.generation && !w.cm.value.initialRestart
          && s.template == FinalTemplate(w.cm.value) && Stale(w) == {})
  }

  /** Whatever happened before: without a sync error now, and in a state from which updates complete. */
  ghost predicate Mended(w: World) {
    Standing(w) && !w.ndb.syncError && Unhindered(w) && Quiet(w) && Orderly(w)
  }

  function One(b: bool): nat {
    if b then 1 else 0
  }

  /** What is left to do for the configuration in the config map, in rounds. */
  function Work(w: World, cm: ConfigMap): nat {
    var n := w.ndb.spec.numData;
    One(w.mgmd.None? || w.mgmd.value.applied != cm.generation)
    + One(w.data.None? || w.data.value.replicas < cm.spec.numData)
    + One(w.mysqld.None? || w.mysqld.value.applied != cm.generation)
    + One(w.mysqld.Some? && w.mysqld.value.replicas > cm.spec.numMySQL)
    + (if w.data.Some? && PatchDue(w.data.value, cm) then n + 1 else 0)
    + (if cm.initialRestart then n + 2 else 0)
    + |Stale(w)|
  }

  function Measure(w: World): nat {
    var n := w.ndb.spec.numData;
    match w.cm
    case None => 2 * n + 12
    case Some(cm) => (if cm.generation != w.ndb.generation then 2 * n + 9 else 0) + Work(w, cm)
  }

  // ----- one phase

  ghost predicate Smooth(j: nat, c: Ctx, a: Answers) {
    && StandingStage(j, c) && !c.w.ndb.syncError && Unhindered(c.w) && Quiet(c.w) && Orderly(c.w)
    && (j <= 10 ==> Friendly(c.w, a)) && a.fails == {} && !a.podErrors
    && (j > 8 ==> Stale(c.w) == {})
  }

  /** A phase does not fail; what it finishes is progress, and what it continues with is no setback. */
  ghost predicate Forward(j: nat, c: Ctx, r: (Ctx, Reconcile.Result), a: Answers) {
    && r.1 != Error
    && (r.1 == Continue ==>
          && Quiet(r.0.w) && Orderly(r.0.w) && Measure(r.0.w) <= Measure(c.w)
          && (j < 10 ==> Friendly(r.0.w, a)) && (j >= 8 ==> Stale(r.0.w) == {}))
    && (r.1 == Finish && !r.0.success ==> Orderly(r.0.w) && Measure(r.0.w) < Measure(c.w))
    && (r.0.success ==> r.0.w == c.w && Stale(c.w) == {})
  }

  /** With every pod running, the update is complete exactly if no pod is stale. */
  lemma CompleteIfFresh(w: World)
    requires Quiet(w) && w.data.Some? && w.data.value.onDelete
    ensures UpdateComplete(w.data.value) <==> Stale(w) == {}
    ensures |Stale(w)| <= |w.pods| == w.data.value.replicas
  {
    var s := w.data.value;
    var updated := UpToDate(w.pods, s.template);
    ClusterStatus.RangeIs(s.replicas);
    assert |w.pods| == |w.pods.Keys| == s.replicas;
    assert w.pods.Keys == updated + Stale(w) && updated !! Stale(w);
  }

  lemma CalmFacts(w: World)
    requires Calm(w)
    ensures w.redundancy > 0 && !w.ndb.syncError
    ensures w.cm.None? ==> w.mgmd.None? && w.data.None? && w.mysqld.None? && w.ndb.processed == 0
    ensures w.data.Some? ==> w.cm.Some? && w.data.value.onDelete && w.data.value.replicas <= w.cm.value.spec.numData <= w.ndb.spec.numData
    ensures w.cm.Some? ==>
              var cm := w.cm.value;
              && ValidSpec(cm.spec, w.redundancy) && 0 < cm.generation <= w.ndb.generation <= w.ndb.processed + 1
              && (cm.generation == w.ndb.generation ==> cm.spec == w.ndb.spec)
              && (cm.generation != w.ndb.generation ==> Settled(w, cm))
  {
    ConfigMapIsBehind(w);
  }

  lemma StandingFacts(w: World)
    requires Standing(w)
    ensures w.redundancy > 0
    ensures w.cm.None? ==> w.mgmd.None? && w.data.None? && w.mysqld.None? && w.ndb.processed == 0
    ensures w.data.Some? ==> w.cm.Some? && w.data.value.onDelete && w.data.value.replicas <= w.cm.value.spec.numData <= w.ndb.spec.numData
    ensures w.cm.Some? ==>
              var cm := w.cm.value;
              && ValidSpec(cm.spec, w.redundancy) && 0 < cm.generation <= w.ndb.generation
              && (cm.generation == w.ndb.generation ==> cm.spec == w.ndb.spec)
              && (cm.generation != w.ndb.generation && !w.ndb.syncError ==> Settled(w, cm) && w.ndb.processed > 0)
              && AppliedUpTo(w.data, cm.generation) && AppliedUpTo(w.mysqld, cm.generation)
              && DataStands(w.data, cm) && MysqldStands(w.mysqld, cm)
  {
    ConfigMapIsBehind(w);
  }

  /** What makes answers friendly does not involve the management nodes or the MySQL servers. */
  lemma StillFriendly(w: World, v: World, a: Answers)
    requires Friendly(w, a) && v.redundancy == w.redundancy && v.pods == w.pods && v.inducted == w.inducted && v.data == w.data
    ensures Friendly(v, a) && Stale(v) == Stale(w)
  {
    hide Rollout.Covers, Rollout.AnyMissing, InGroup;
    assert ManagementNodes(v) == ManagementNodes(w);
    assert Stale(v) == Stale(w);
    assert Informed(v, a);
  }

  lemma MgmdProgress(w: World, v: World)
    requires Orderly(w) && v == w.(mgmd := v.mgmd)
    requires w.cm.Some? && v.mgmd.Some? && v.mgmd.value.applied == w.cm.value.generation
    ensures Orderly(v) && Measure(v) <= Measure(w)
    ensures w.mgmd.None? || w.mgmd.value.applied != w.cm.value.generation ==> Measure(v) < Measure(w)
  {
    assert Stale(v) == Stale(w);
    hide Stale;
  }

  /** The StatefulSet of the MySQL servers catches up, in its generation or in the number of servers. */
  lemma MysqldProgress(w: World, v: World)
    requires Orderly(w) && v == w.(mysqld := v.mysqld, ceiling := v.ceiling)
    requires w.cm.Some? && v.mysqld.Some? && v.mysqld.value.replicas == w.cm.value.spec.numMySQL
    requires || v.mysqld.value.applied == w.cm.value.generation
             || (w.mysqld.Some? && v.mysqld.value.applied == w.mysqld.value.applied)
    requires || w.mysqld.None? || v.mysqld.value.applied != w.mysqld.value.applied
             || w.mysqld.value.replicas > w.cm.value.spec.numMySQL
    ensures Orderly(v) && Measure(v) < Measure(w)
  {
    assert Stale(v) == Stale(w);
    hide Stale;
  }

  lemma ForwardConfig(c: Ctx, a: Answers)
    requires Smooth(0, c, a)
    ensures Forward(0, c, Phase(0, c, a), a)
  {
    hide Sound, ConfigFirst, Standing, UpdateComplete;
    StandingFacts(c.w);
  }

  lemma ForwardMgmd(c: Ctx, a: Answers)
    requires Smooth(1, c, a)
    ensures Forward(1, c, Phase(1, c, a), a)
  {
    hide Sound, Stage, ConfigFirst, Standing, UpdateComplete, Friendly, Unhindered, Stale;
    StandingFacts(c.w);
    StageIsOriented(1, c);
    StillFriendly(c.w, Phase(1, c, a).0.w, a);
  }

  lemma ForwardData(c: Ctx, a: Answers)
    requires Smooth(2, c, a)
    ensures Forward(2, c, Phase(2, c, a), a)
  {
    hide Sound, Stage, ConfigFirst, Standing, UpdateComplete, ClusterStatus.Range;
    StandingFacts(c.w);
    StageIsOriented(2, c);
    if c.w.data.Some? {
      CompleteIfFresh(c.w);
    } else {
      ClusterStatus.RangeIs(c.cs.spec.numData);
    }
  }

  /** Nothing is waited for. */
  lemma ForwardReads(j: nat, c: Ctx, a: Answers)
    requires 3 <= j <= 4 && Smooth(j, c, a)
    ensures Forward(j, c, Phase(j, c, a), a)
  {
    hide Sound, Stage, ConfigFirst, Standing, UpdateComplete;
    StandingFacts(c.w);
    StageIsOriented(j, c);
  }

  lemma ForwardScaleDown(c: Ctx, a: Answers)
    requires Smooth(5, c, a)
    ensures Forward(5, c, Phase(5, c, a), a)
  {
    hide Sound, Stage, ConfigFirst, Standing, Patched, Friendly, Unhindered, Stale, Measure, Orderly;
    StandingFacts(c.w);
    StageIsOriented(5, c);
    if c.mysqld.Some? {
      ExactPatch(c.w.mysqld, c.mysqld.value, c.mysqld.value.(replicas := c.cs.spec.numMySQL), false);
    }
    StillFriendly(c.w, Phase(5, c, a).0.w, a);
    if c.mysqld.Some? && c.mysqld.value.status.replicas > c.cs.spec.numMySQL {
      MysqldProgress(c.w, Phase(5, c, a).0.w);
    }
  }

  lemma ForwardUpdateMgmd(c: Ctx, a: Answers)
    requires Smooth(6, c, a)
    ensures Forward(6, c, Phase(6, c, a), a)
  {
    hide Sound, Stage, ConfigFirst, Standing, Patched, Friendly, Unhindered, Stale, Measure, Orderly;
    StandingFacts(c.w);
    StageIsOriented(6, c);
    ExactPatch(c.w.mgmd, c.mgmd.value, Rebuilt(c.mgmd.value, NewMgmd(c.cs, c.w)), false);
    StillFriendly(c.w, Phase(6, c, a).0.w, a);
    if !HasGeneration(c.mgmd.value, c.cs.generation) {
      MgmdProgress(c.w, Phase(6, c, a).0.w);
    }
  }

  lemma ForwardDataPatch(c: Ctx, a: Answers)
    requires Smooth(7, c, a)
    ensures Forward(7, c, Phase(7, c, a), a)
  {
    hide Sound, Stage, ConfigFirst, Standing, Patched, UpdateComplete;
    StandingFacts(c.w);
    StageIsOriented(7, c);
    if PatchDue(c.data.value, c.cs) {
      ExactPatch(c.w.data, c.data.value, RebuiltData(c.data.value, c.cs, c.w), false);
      PatchedForward(c, ReconcileData(c, a).0.w, ReconcileData(c, a).1);
    }
  }

  /** A patch may make every data node pod stale, but it is paid for. */
  lemma PatchedForward(c: Ctx, v: World, r: Reconcile.Result)
    requires Standing(c.w) && !c.w.ndb.syncError && Unhindered(c.w) && Quiet(c.w) && Orderly(c.w)
    requires c.w.cm == Some(c.cs) && c.data.Some? && c.data == c.w.data && PatchDue(c.data.value, c.cs)
    requires v == c.w.(data := v.data) && v.data.Some? && r != Error
    requires v.data == Some(RebuiltData(c.data.value, c.cs, c.w).(generation := v.data.value.generation))
    requires r == Continue ==>
               && v.data.value.generation == c.data.value.generation && v.data.value.template == c.data.value.template
               && v.data.value.replicas == c.data.value.replicas
    ensures Orderly(v) && Measure(v) < Measure(c.w)
    ensures r == Continue ==> Quiet(v) && Stale(v) == Stale(c.w)
  {
    hide Sound, Standing;
    StandingFacts(c.w);
    CompleteIfFresh(c.w);
    StaleArePods(v);
  }

  lemma StaleArePods(w: World)
    ensures Stale(w) <= w.pods.Keys && |Stale(w)| <= |w.pods|
  {
    Fewer(Stale(w), w.pods.Keys);
  }

  lemma Fewer<T>(a: set<T>, b: set<T>)
    requires a <= b
    ensures |a| <= |b|
  {
    assert b == a + (b - a);
  }

  lemma ForwardPods(c: Ctx, a: Answers)
    requires Smooth(8, c, a)
    ensures Forward(8, c, Phase(8, c, a), a)
  {
    hide Sound, Stage, ConfigFirst, Standing, UpdateComplete, Rollout.EnsurePods, Rollout.Covers, Informed, Unhindered, Friendly, Stale;
    StandingFacts(c.w);
    StageIsOriented(8, c);
    CompleteIfFresh(c.w);
    SameCompleteness(c.data, c.w.data);
    if Stale(c.w) == {} {
      assert Rollout.Ordinals([], ManagementNodes(c.w)) == {};
      assert c.w.pods - {} == c.w.pods;
      NothingToRestart(a.status, c.w.redundancy, Rollout.View(a.cache, c.data.value.status.updateRevision, a.refusing, ManagementNodes(c.w)));
      assert EnsureDataPods(c, a) == (c, Continue);
    } else {
      WaveForward(c, a);
    }
  }

  lemma NothingToRestart(status: Option<ClusterStatus.Cluster>, redundancy: nat, v: Rollout.View)
    ensures Rollout.EnsurePods(true, status, redundancy, v) == ([], Rollout.Continue)
  {
  }

  lemma SameCompleteness(copy: Option<StatefulSet>, stored: Option<StatefulSet>)
    requires SameObject(copy, stored) && stored.Some?
    ensures UpdateComplete(copy.value) <==> UpdateComplete(stored.value)
  {
  }

  /** One wave of the rollout leaves fewer stale pods. */
  lemma WaveForward(c: Ctx, a: Answers)
    requires c.data.Some? && c.w.data.Some? && c.w.redundancy > 0 && Quiet(c.w) && Friendly(c.w, a) && Stale(c.w) != {}
    requires c.data.value.status == c.w.data.value.status && !UpdateComplete(c.data.value)
    ensures var (c', r) := EnsureDataPods(c, a);
            && r == Finish && c' == c.(w := c.w.(pods := c'.w.pods)) && c'.w.pods.Keys <= c.w.pods.Keys
            && Stale(c'.w) <= Stale(c.w) && |Stale(c'.w)| < |Stale(c.w)|
  {
    hide UpdateComplete, Rollout.EnsureFrom, Rollout.Covers, Rollout.Ordinals;
    var pods, desired, m := c.w.pods, c.w.data.value.template, ManagementNodes(c.w);
    var groups := Rollout.GroupsOf(a.status.value);
    assert Rollout.CleanBelow(groups, c.w.redundancy, 0, pods, desired, m) by {
      FullGroups(groups, c.w.redundancy, pods, m);
    }
    Rollout.WaveProgresses(groups, c.w.redundancy, pods, desired, m, 0);
    var gone := Rollout.Ordinals(Rollout.EnsureFrom(groups, 0, c.w.redundancy, Rollout.View(pods, desired, {}, m)).0, m);
    Rollout.RestartOutdated(pods, gone, desired);
    assert Rollout.Outdated(pods - gone, desired) == Rollout.Outdated(pods, desired) - gone;
  }

  lemma FullGroups(groups: seq<seq<int>>, redundancy: nat, pods: map<int, Template>, m: int)
    requires Rollout.Covers(groups, redundancy, pods, m)
    ensures forall j :: 0 <= j < |groups| ==> |groups[j]| == redundancy
  {
  }

  lemma ForwardMysqld(c: Ctx, a: Answers)
    requires Smooth(9, c, a)
    ensures Forward(9, c, Phase(9, c, a), a)
  {
    hide Sound, Stage, ConfigFirst, Standing, Patched, Friendly, Unhindered, Stale, Measure, Orderly;
    StandingFacts(c.w);
    StageIsOriented(9, c);
    if c.mysqld.Some? {
      ExactPatch(c.w.mysqld, c.mysqld.value, Rebuilt(c.mysqld.value, NewMysqld(c.cs, c.w)), false);
    }
    StillFriendly(c.w, Phase(9, c, a).0.w, a);
    if c.mysqld.None? || !HasGeneration(c.mysqld.value, c.cs.generation) {
      MysqldProgress(c.w, Phase(9, c, a).0.w);
    }
  }

  lemma ForwardAddNode(c: Ctx, a: Answers)
    requires Smooth(10, c, a)
    ensures Forward(10, c, Phase(10, c, a), a)
  {
    hide Sound, Stage, ConfigFirst, Standing, Patched, UpdateComplete, Informed, Rollout.Covers, ClusterStatus.Range, UpToDate;
    StandingFacts(c.w);
    StageIsOriented(10, c);
    var s := c.data.value;
    if s.addNode {
      if s.replicas != c.cs.spec.numData {
        ScalePatch(c.w.data, s, c.cs.spec.numData, false);
      }
      ClearPatch(c.w.data, s, false);
    }
  }

  lemma ForwardRoot(c: Ctx, a: Answers)
    requires Smooth(11, c, a)
    ensures Forward(11, c, Phase(11, c, a), a)
  {
    hide Sound, Stage, ConfigFirst, Standing, Patched, Informed;
    StandingFacts(c.w);
    StageIsOriented(11, c);
    if c.mysqld.Some? {
      var s := c.mysqld.value;
      var t := s.(rootHost := Some(c.w.ndb.spec.rootHost), rootGen := Some(c.cs.generation));
      AnnotationPatch(c.w.mysqld, s, t, false);
      PatchSucceeds(c.w.mysqld, s, t);
    }
  }

  lemma PatchSucceeds(stored: Option<StatefulSet>, existing: StatefulSet, updated: StatefulSet)
    requires stored.Some?
    ensures Patched(stored, existing, updated, false).1 != Error
  {
  }

  lemma ForwardFinish(c: Ctx, a: Answers)
    requires Smooth(LAST, c, a)
    ensures Forward(LAST, c, Phase(LAST, c, a), a)
  {
    hide Sound, ConfigFirst, Standing, UpdateComplete, Informed;
    StandingFacts(c.w);
    StageIsOriented(LAST, c);
    if c.cs.generation != c.w.ndb.generation {
      assert Orderly(Phase(LAST, c, a).0.w);
      assert Measure(Phase(LAST, c, a).0.w) < Measure(c.w);
    } else if IsInitialFlagSet(c.data) {
      assert Orderly(Phase(LAST, c, a).0.w);
      assert Measure(Phase(LAST, c, a).0.w) < Measure(c.w);
    }
  }

  // ----- one sync

  lemma ForwardPhase(j: nat, c: Ctx, a: Answers)
    requires j <= LAST && Smooth(j, c, a)
    ensures Forward(j, c, Phase(j, c, a), a)
  {
    hide Phase, Smooth, Forward;
    match j
    case 0 => ForwardConfig(c, a);
    case 1 => ForwardMgmd(c, a);
    case 2 => ForwardData(c, a);
    case 3 => ForwardReads(3, c, a);
    case 4 => ForwardReads(4, c, a);
    case 5 => ForwardScaleDown(c, a);
    case 6 => ForwardUpdateMgmd(c, a);
    case 7 => ForwardDataPatch(c, a);
    case 8 => ForwardPods(c, a);
    case 9 => ForwardMysqld(c, a);
    case 10 => ForwardAddNode(c, a);
    case 11 => ForwardRoot(c, a);
    case _ => ForwardFinish(c, a);
  }

  lemma SmoothNext(j: nat, c: Ctx, a: Answers)
    requires j < LAST && Smooth(j, c, a) && Forward(j, c, Phase(j, c, a), a) && Phase(j, c, a).1 == Continue
    ensures Smooth(j + 1, Phase(j, c, a).0, a)
  {
    hide Phase, StandingStage, Unhindered, Quiet, Orderly, Measure;
    StandingPhase(j, c, a);
    PhaseKeepsRedundancy(j, c, a);
    StaysUnhindered(j, c, a);
  }

  /** In a run without pod errors. */
  ghost predicate Calmly(j: nat, c: Ctx, a: Answers) {
    CalmStage(j, c) && GroupsInStep(c.w) && Smooth(j, c, a)
  }

  lemma CalmlyNext(j: nat, c: Ctx, a: Answers)
    requires j < LAST && Calmly(j, c, a) && Forward(j, c, Phase(j, c, a), a) && Phase(j, c, a).1 == Continue
    ensures Calmly(j + 1, Phase(j, c, a).0, a)
  {
    hide Phase, CalmStage, GroupsInStep, Smooth;
    SmoothNext(j, c, a);
    CalmPhase(j, c, a);
    if j == 10 {
      SmoothGroupsAll(c, a);
    }
    GroupsKept(j, c, a);
  }

  lemma SmoothGroupsAll(c: Ctx, a: Answers)
    requires Smooth(10, c, a)
    ensures GroupsAll(c.w, a)
  {
    hide StandingStage, Quiet, Orderly, Unhindered, Friendly, GroupsAll;
    FriendlyGroupsAll(c.w, a);
  }

  lemma SameNodes(w: World, v: World)
    requires Unhindered(w) && v.ndb == w.ndb && v.cm == w.cm && v.inducted == w.inducted && v.data == w.data
    requires v.pods.Keys <= w.pods.Keys && forall o :: o in v.pods ==> v.pods[o] == w.pods[o]
    ensures Unhindered(v)
  {
    forall o | o in Stale(v) ensures o in Stale(w) {
    }
  }

  lemma StaysUnhindered(j: nat, c: Ctx, a: Answers)
    requires j <= LAST && Smooth(j, c, a)
    ensures Unhindered(Phase(j, c, a).0.w)
  {
    hide Phase, Sound, Stage, Standing, Quiet, Orderly, Unhindered, Stale, Informed, Rollout.Covers, Measure;
    match j
    case 0 => UnhinderedByConfig(c, a);
    case 2 => UnhinderedByData(c, a);
    case 7 => UnhinderedByPatch(c, a);
    case 10 => UnhinderedByAddNode(c, a);
    case 12 => UnhinderedByFinish(c, a);
    case _ =>
      NodesKept(j, c, a);
      SameNodes(c.w, Phase(j, c, a).0.w);
  }

  lemma NodesKept(j: nat, c: Ctx, a: Answers)
    requires j < LAST && j !in {0, 2, 7, 10}
    ensures var v := Phase(j, c, a).0.w;
            && v.ndb == c.w.ndb && v.cm == c.w.cm && v.inducted == c.w.inducted && v.data == c.w.data
            && v.pods.Keys <= c.w.pods.Keys && forall o :: o in v.pods ==> v.pods[o] == c.w.pods[o]
  {
    hide Patched, UpdateComplete, Ready, Rollout.EnsurePods;
  }

  lemma UnhinderedByConfig(c: Ctx, a: Answers)
    requires Smooth(0, c, a)
    ensures Unhindered(Phase(0, c, a).0.w)
  {
    hide Sound, Stage, ConfigFirst, Standing, Quiet, Orderly, Stale, Informed, Rollout.Covers;
    StandingFacts(c.w);
  }

  lemma UnhinderedByData(c: Ctx, a: Answers)
    requires Smooth(2, c, a)
    ensures Unhindered(Phase(2, c, a).0.w)
  {
    hide Sound, Stage, ConfigFirst, Standing, Informed, Rollout.Covers, UpdateComplete, ClusterStatus.Range;
    StandingFacts(c.w);
    StageIsOriented(2, c);
    if c.w.data.Some? {
      CompleteIfFresh(c.w);
    } else {
      ClusterStatus.RangeIs(c.cs.spec.numData);
    }
  }

  lemma UnhinderedByPatch(c: Ctx, a: Answers)
    requires Smooth(7, c, a)
    ensures Unhindered(Phase(7, c, a).0.w)
  {
    hide Sound, Stage, ConfigFirst, Standing, Quiet, Orderly, Stale, Informed, Rollout.Covers, Patched;
    StandingFacts(c.w);
    StageIsOriented(7, c);
    if PatchDue(c.data.value, c.cs) {
      ExactPatch(c.w.data, c.data.value, RebuiltData(c.data.value, c.cs, c.w), false);
      SameStale(c.w, Phase(7, c, a).0.w);
    }
  }

  lemma SameStale(w: World, v: World)
    requires w.data.Some? && v.data.Some? && v.pods == w.pods
    ensures v.data.value.template == w.data.value.template ==> Stale(v) == Stale(w)
  {
  }

  lemma UnhinderedByAddNode(c: Ctx, a: Answers)
    requires Smooth(10, c, a)
    ensures Unhindered(Phase(10, c, a).0.w)
  {
    hide Sound, Stage, ConfigFirst, Standing, Orderly, Stale, Informed, Rollout.Covers, Patched, UpdateComplete, ClusterStatus.Range;
    StandingFacts(c.w);
    StageIsOriented(10, c);
    var s := c.data.value;
    if s.addNode {
      ClusterStatus.RangeIs(s.replicas);
      if s.replicas != c.cs.spec.numData {
        ScalePatch(c.w.data, s, c.cs.spec.numData, false);
      }
      ClearPatch(c.w.data, s, false);
    }
  }

  lemma UnhinderedByFinish(c: Ctx, a: Answers)
    requires Smooth(LAST, c, a)
    ensures Unhindered(Phase(LAST, c, a).0.w)
  {
    hide Sound, Stage, ConfigFirst, Standing, Quiet, Stale, Informed, Rollout.Covers;
    StandingFacts(c.w);
    StageIsOriented(LAST, c);
  }

  lemma FriendlyGroupsAll(w: World, a: Answers)
    requires Quiet(w) && Friendly(w, a)
    ensures GroupsAll(w, a)
  {
    hide Informed, UpdateComplete, Rollout.Covers;
    if w.data.Some? {
      ClusterStatus.RangeIs(w.data.value.replicas);
    }
  }

  /** A sync of a mended state succeeds, or it leaves less to do. */
  lemma {:induction false} SyncForward(j: nat, c: Ctx, a: Answers)
    requires j <= LAST && Smooth(j, c, a)
    ensures var (c', r) := RunFrom(j, c, a);
            && r == Finish && Orderly(c'.w) && Unhindered(c'.w) && Measure(c'.w) <= Measure(c.w)
            && (if c'.success then Stale(c'.w) == {} else Measure(c'.w) < Measure(c.w))
    decreases LAST - j
  {
    hide Phase, StandingStage, Unhindered, Quiet, Orderly, Measure, Friendly;
    ForwardPhase(j, c, a);
    StaysUnhindered(j, c, a);
    if Phase(j, c, a).1 == Continue {
      if j == LAST {
        LastFinishes(c, a);
      } else {
        SmoothNext(j, c, a);
        SyncForward(j + 1, Phase(j, c, a).0, a);
      }
    }
  }

  lemma LastFinishes(c: Ctx, a: Answers)
    ensures Phase(LAST, c, a).1 != Continue
  {
  }

  lemma StatusReported(w: World, v: World)
    requires Orderly(w) && v == w.(ndb := v.ndb)
    requires v.ndb.spec == w.ndb.spec && v.ndb.generation == w.ndb.generation && (v.ndb.processed == 0 ==> w.ndb.processed == 0)
    ensures Orderly(v) && Measure(v) == Measure(w) && Stale(v) == Stale(w)
  {
    assert Stale(v) == Stale(w);
    hide Stale;
  }

  lemma ReportForward(c: Ctx, a: Answers)
    requires Orderly(c.w) && c.w.ndb.generation > 0
    ensures Orderly(Reported(c, Finish, a)) && Measure(Reported(c, Finish, a)) == Measure(c.w)
    ensures Stale(Reported(c, Finish, a)) == Stale(c.w)
  {
    hide Orderly, Measure, Stale;
    StatusReported(c.w, Reported(c, Finish, a));
  }

  lemma ReportedUnhindered(c: Ctx, r: Reconcile.Result, a: Answers)
    requires Unhindered(c.w) && c.w.ndb.generation > 0 && !c.w.ndb.syncError && !a.podErrors
    ensures Unhindered(Reported(c, r, a)) && !Reported(c, r, a).ndb.syncError
  {
  }

  lemma StandingMeansSound(w: World)
    requires Standing(w)
    ensures Sound(w) && w.redundancy > 0 && w.ndb.generation > 0
  {
  }

  lemma HandlerForward(w: World, a: Answers)
    requires Mended(w) && Friendly(w, a)
    ensures var v := SyncHandler(w, a);
            && Standing(v) && !v.ndb.syncError && Unhindered(v) && Orderly(v)
            && Sync(w, a).1 == Finish && (if Sync(w, a).0.success then Stale(v) == {} else Measure(v) < Measure(w))
  {
    hide Stale, RunFrom, Standing, Unhindered, Quiet, Orderly, Measure, Reported, Informed, Rollout.Covers, StandingStage, Sound;
    StandingStart(w);
    SyncForward(0, Start(w), a);
    SyncStands(w, a);
    var (c, r) := Sync(w, a);
    StandingMeansSound(w);
    RunKeepsRedundancy(0, Start(w), a);
    ReportForward(c, a);
    ReportedUnhindered(c, r, a);
  }

  /** Without pod errors nothing has to be mended. */
  lemma TidyIsMended(w: World)
    requires Tidy(w)
    ensures Mended(w)
  {
    hide Sound, ServersSound, ServersInStep, UpdateComplete, Stale, ClusterStatus.Range, UpToDate;
    ConfigMapIsBehind(w);
  }

  // ----- what the environment does

  predicate SameButStatus(s: Option<StatefulSet>, t: Option<StatefulSet>) {
    (s.Some? <==> t.Some?) && (s.Some? ==> t.value == s.value.(status := t.value.status))
  }

  /** Controllers and pods leave the resource, the config map and the StatefulSets' definitions alone. */
  predicate Steady(v: World, v': World) {
    && v'.ndb == v.ndb && v'.cm == v.cm && v'.redundancy == v.redundancy && v'.inducted == v.inducted
    && v'.rootUsers == v.rootUsers
    && SameButStatus(v.mgmd, v'.mgmd) && SameButStatus(v.data, v'.data) && SameButStatus(v.mysqld, v'.mysqld)
    && (v.data.None? ==> v'.pods.Keys <= v.pods.Keys)
  }

  lemma EnvironmentStep(w: World, step: Step)
    requires w.redundancy > 0 && Environment(step)
    ensures Steady(w, Next(w, step))
  {
  }

  lemma {:induction false} EnvironmentSteps(v: World, steps: seq<Step>)
    requires Calm(v) && GroupsInStep(v) && forall s :: s in steps ==> Environment(s)
    ensures v.redundancy > 0 && Steady(v, After(v, steps)) && Calm(After(v, steps)) && GroupsInStep(After(v, steps))
    decreases |steps|
  {
    hide Next, Calm, GroupsInStep;
    CalmFacts(v);
    if steps != [] {
      var n := |steps| - 1;
      EnvironmentSteps(v, steps[..n]);
      var w := After(v, steps[..n]);
      EnvironmentStep(w, steps[n]);
      StepIsCalm(w, steps[n]);
      StepKeepsGroups(w, steps[n]);
    }
  }

  lemma {:induction false} EnvironmentStands(v: World, steps: seq<Step>)
    requires Standing(v) && forall s :: s in steps ==> Environment(s)
    ensures v.redundancy > 0 && Steady(v, After(v, steps)) && Standing(After(v, steps))
    decreases |steps|
  {
    hide Next, Standing;
    StandingMeansSound(v);
    if steps != [] {
      var n := |steps| - 1;
      EnvironmentStands(v, steps[..n]);
      var w := After(v, steps[..n]);
      EnvironmentStep(w, steps[n]);
      StandingStep(w, steps[n]);
    }
  }

  lemma SteadyUnhindered(v: World, v': World)
    requires Unhindered(v) && Steady(v, v') && PodsFollow(v, v')
    ensures Unhindered(v')
  {
    if v.data.Some? && Stale(v) == {} {
      forall o ensures o !in Stale(v') {
        assert o !in Stale(v);
      }
    }
  }

  lemma CaughtUp(v: World, v': World)
    requires Orderly(v) && Steady(v, v') && Quiet(v') && PodsFollow(v, v')
    ensures Orderly(v') && Measure(v') <= Measure(v)
  {
    hide UpdateComplete, ClusterStatus.Range;
    forall o | o in Stale(v') ensures o in Stale(v) {
      assert o in v'.pods;
    }
    Fewer(Stale(v'), Stale(v));
    if v'.data.Some? {
      ClusterStatus.RangeIs(v'.data.value.replicas);
    }
  }

  /** The specification is in effect, everywhere, and nothing is under way. */
  predicate InEffect(w: World) {
    && w.ndb.processed == w.ndb.generation
    && w.cm.Some? && w.cm.value.spec == w.ndb.spec && Settled(w, w.cm.value) && w.cm.value.generation == w.ndb.generation
    && w.data.value.replicas == w.ndb.spec.numData && w.data.value.template.secret == w.ndb.spec.tde
    && w.data.value.template.version == w.cm.value.version
    && w.mysqld.value.replicas == w.ndb.spec.numMySQL && w.mysqld.value.rootGen == Some(w.ndb.generation)
    && Stale(w) == {}
  }

  lemma SuccessTakesEffect(w: World, a: Answers)
    requires Mended(w) && Friendly(w, a) && Sync(w, a).0.success
    ensures InEffect(SyncHandler(w, a))
  {
    hide RunFrom, Sound, Unhindered, Quiet, Orderly, Measure, Informed, Rollout.Covers, Stale, StandingStage, ConfigFirst, Standing;
    HandlerForward(w, a);
    StandingStart(w);
    StandingRun(0, Start(w), a);
    StandingFacts(SyncHandler(w, a));
  }

  lemma EffectStays(v: World, v': World)
    requires InEffect(v) && Steady(v, v') && PodsFollow(v, v')
    ensures InEffect(v')
  {
    forall o ensures o !in Stale(v') {
      if o in v.pods && o in v'.pods {
        assert o !in Stale(v);
      }
    }
  }

  /** Every good round keeps the state mended; the specification takes effect, or less is left to do. */
  lemma RoundProgresses(w: World, round: Round)
    requires Mended(w) && w.redundancy > 0 && GoodRound(w, round)
    ensures Mended(AfterRound(w, round))
    ensures InEffect(AfterRound(w, round)) || Measure(AfterRound(w, round)) < Measure(w)
  {
    hide After, Standing, Unhindered, Quiet, Orderly, Measure, Steady, PodsFollow, SyncHandler, Sync, Informed, Rollout.Covers, InEffect;
    HandlerForward(w, round.answers);
    var v := SyncHandler(w, round.answers);
    EnvironmentStands(v, round.environment);
    CaughtUp(v, AfterRound(w, round));
    SteadyUnhindered(v, AfterRound(w, round));
    SteadyResource(v, AfterRound(w, round));
    if Sync(w, round.answers).0.success {
      SuccessTakesEffect(w, round.answers);
      EffectStays(v, AfterRound(w, round));
    }
  }

  lemma SteadyResource(v: World, v': World)
    requires Steady(v, v')
    ensures v'.ndb == v.ndb
  {
  }

  /** And a tidy state tidy. */
  lemma TidyRoundProgresses(w: World, round: Round)
    requires Tidy(w) && w.redundancy > 0 && GoodRound(w, round)
    ensures Tidy(AfterRound(w, round))
    ensures InEffect(AfterRound(w, round)) || Measure(AfterRound(w, round)) < Measure(w)
  {
    hide After, Calm, GroupsInStep, Quiet, Orderly, Measure, Steady, PodsFollow, SyncHandler, Sync, Informed, Rollout.Covers, Mended, InEffect;
    TidyIsMended(w);
    RoundProgresses(w, round);
    assert Orderly(AfterRound(w, round)) by { MendedMeans(AfterRound(w, round)); }
    FriendlyGroupsAll(w, round.answers);
    StepIsCalm(w, SyncStep(round.answers));
    StepKeepsGroups(w, SyncStep(round.answers));
    EnvironmentSteps(SyncHandler(w, round.answers), round.environment);
  }

  lemma MendedMeans(w: World)
    requires Mended(w)
    ensures Quiet(w) && Orderly(w) && w.redundancy > 0 && InRange(w)
  {
  }

  // ----- many rounds

  ghost predicate GoodRounds(w: World, rounds: seq<Round>)
    requires w.redundancy > 0
    decreases |rounds|
  {
    rounds != [] ==> GoodRound(w, rounds[0]) && GoodRounds(AfterRound(w, rounds[0]), rounds[1..])
  }

  ghost function AfterRounds(w: World, rounds: seq<Round>): World
    requires w.redundancy > 0
    ensures AfterRounds(w, rounds).redundancy == w.redundancy
    decreases |rounds|
  {
    if rounds == [] then w else AfterRounds(AfterRound(w, rounds[0]), rounds[1..])
  }

  /** Some state between the rounds has the specification in effect. */
  ghost predicate TakesEffect(w: World, rounds: seq<Round>)
    requires w.redundancy > 0
    decreases |rounds|
  {
    rounds != [] && (InEffect(AfterRound(w, rounds[0])) || TakesEffect(AfterRound(w, rounds[0]), rounds[1..]))
  }

  lemma {:induction false} RoundsComplete(w: World, rounds: seq<Round>)
    requires Mended(w) && w.redundancy > 0 && GoodRounds(w, rounds) && |rounds| > Measure(w)
    ensures TakesEffect(w, rounds)
    decreases |rounds|
  {
    hide Mended, GoodRound, AfterRound, InEffect, Measure;
    RoundProgresses(w, rounds[0]);
    if !InEffect(AfterRound(w, rounds[0])) {
      RoundsComplete(AfterRound(w, rounds[0]), rounds[1..]);
    }
  }

  lemma WorkIsBounded(w: World, cm: ConfigMap)
    requires |Stale(w)| <= w.ndb.spec.numData
    ensures Work(w, cm) <= 3 * w.ndb.spec.numData + 7
    ensures Settled(w, cm) ==> Work(w, cm) <= w.ndb.spec.numData + 2
  {
    hide Stale;
  }

  lemma MeasureIsLinear(w: World)
    requires Mended(w)
    ensures Measure(w) <= 3 * w.ndb.spec.numData + 12
  {
    hide Standing, Unhindered, UpdateComplete, Orderly, Work, Settled;
    StandingFacts(w);
    if w.data.Some? {
      CompleteIfFresh(w);
    }
    if w.cm.Some? {
      WorkIsBounded(w, w.cm.value);
    }
  }

  /** Without failures an admitted specification is in effect after a number of rounds that is linear in the data nodes. */
  lemma UpdateCompletes(w: World, rounds: seq<Round>)
    requires Mended(w) && w.redundancy > 0 && GoodRounds(w, rounds) && |rounds| > 3 * w.ndb.spec.numData + 12
    ensures TakesEffect(w, rounds)
  {
    hide Mended, GoodRounds, TakesEffect;
    MeasureIsLinear(w);
    RoundsComplete(w, rounds);
  }

  lemma StartsTidy(spec: Spec, redundancy: nat)
    requires redundancy > 0 && ValidSpec(spec, redundancy) && Renderable(spec)
    ensures Tidy(Initial(spec, redundancy))
  {
    StartsCalm(spec, redundancy);
    TwoPhaseRestart.StartsGrouped(spec, redundancy);
  }

  /** An admitted update for which a configuration can be written leaves the state tidy. */
  lemma UpdateStaysTidy(w: World, spec: Spec)
    requires Tidy(w) && w.redundancy > 0 && Renderable(spec)
    ensures Tidy(Next(w, SpecStep(spec)))
  {
    hide Calm;
    StepIsCalm(w, SpecStep(spec));
  }
}
