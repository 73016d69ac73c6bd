/**
 Where reconciliation comes to rest, and what the rollout phase compares pods with.
 */
module ReconcileLimits {
  import opened Wrappers
  import opened StatefulSets
  import opened Reconcile
  import opened ReconcileRuns
  import opened ReconcileSuccess
  import opened ReconcileUpdates
  import Rollout

  // ----- the resting point

  /** Everything carries the generation of the specification, and every status is complete. */
  predicate AtRest(w: World) {
    && w.cm.Some?
    && var cm := w.cm.value;
       && cm.generation == w.ndb.generation && cm.generation > 0
       && w.mgmd.Some? && w.mgmd.value.applied == cm.generation && UpdateComplete(w.mgmd.value)
       && w.data.Some? && w.data.value.applied == cm.generation && UpdateComplete(w.data.value) && Ready(w.data.value)
       && !w.data.value.addNode && !w.data.value.template.initial
       && (w.mysqld.None? ==> cm.spec.numMySQL == 0)
       && (w.mysqld.Some? ==>
             var s := w.mysqld.value;
             && s.applied == cm.generation && UpdateComplete(s) && s.rootGen == Some(cm.generation)
             && s.status.replicas <= cm.spec.numMySQL)
  }

  /** The sync that has read everything of a state at rest. */
  function Resting(i: nat, w: World): Ctx {
    Ctx(w, if i > 0 && w.cm.Some? then w.cm.value else Start(w).cs,
        if i > 1 then w.mgmd else None, if i > 2 then w.data else None, if i > 3 then w.mysqld else None, false)
  }

  lemma RestingPhase(i: nat, w: World, a: Answers)
    requires i < LAST && AtRest(w)
    ensures Phase(i, Resting(i, w), a) == (Resting(i + 1, w), Continue)
  {
    hide Patched, UpdateComplete, Ready;
    if i == 8 {
      RestingPods(w, a);
    }
  }

  lemma RestingPods(w: World, a: Answers)
    requires AtRest(w)
    ensures EnsureDataPods(Resting(8, w), a) == (Resting(9, w), Continue)
  {
    hide UpdateComplete, Ready;
    assert Rollout.Ordinals([], ManagementNodes(w)) == {};
    assert w.pods - {} == w.pods;
  }

  lemma {:induction false} RestingRun(i: nat, w: World, a: Answers)
    requires i <= LAST && AtRest(w)
    ensures RunFrom(i, Resting(i, w), a) == (Resting(LAST, w).(success := true), Finish)
    decreases LAST - i
  {
    hide Phase, AtRest;
    if i == LAST {
      RestingFinish(w, a);
    } else {
      RestingPhase(i, w, a);
      RestingRun(i + 1, w, a);
    }
  }

  lemma RestingFinish(w: World, a: Answers)
    requires AtRest(w)
    ensures Phase(LAST, Resting(LAST, w), a) == (Resting(LAST, w).(success := true), Finish)
  {
    hide UpdateComplete, Ready;
  }

  /**
   At rest a sync changes nothing, whatever the environment would answer, and reports success: the
   state is a fixed point, and success is reached as soon as nothing is left to do.
   */
  lemma RestIsStable(w: World, a: Answers)
    requires AtRest(w)
    ensures Sync(w, a).0.w == w && Sync(w, a).0.success
    ensures !a.statusUpdateFails ==> SyncHandler(w, a) == w.(ndb := w.ndb.(processed := w.ndb.generation, syncError := false))
  {
    hide RunFrom, AtRest;
    RestingRun(0, w, a);
    StartIsResting(w);
  }

  lemma StartIsResting(w: World)
    ensures Start(w) == Resting(0, w)
  {
  }

  // ----- the annotation of an addition

  /** The StatefulSet of the data nodes is patched by the reconcile phase. */
  predicate NeedsPatch(c: Ctx)
    requires c.data.Some?
  {
    c.data.value.applied != c.cs.generation || (c.data.value.template.initial && !c.cs.initialRestart)
  }

  /**
   Without sync errors no patch is due while data nodes are being added, so their announcement stays; with sync
   errors it can get lost.
   */
  lemma AnnotationSafeWhenCalm(c: Ctx, a: Answers)
    requires CalmStage(7, c) && c.data.Some? && c.data.value.addNode
    ensures !NeedsPatch(c) && ReconcileData(c, a) == (c, Continue)
  {
    hide Sound, Stage, ConfigFirst;
    StageIsOriented(7, c);
    ConfigMapIsBehind(c.w);
  }

  // ----- a status that is not current

  lemma CleanColumnsPass(groups: seq<seq<int>>, redundancy: nat, v: Rollout.View)
    requires v.refusing == {} && Rollout.Covers(groups, redundancy, v.cache, v.numOfManagementNodes)
    ensures Rollout.EnsureFrom(groups, 0, redundancy, v).1 == Rollout.Continue <==> Rollout.Outdated(v.cache, v.desired) == {}
  {
    hide Rollout.EnsureFrom;
    var c := Rollout.FirstColumn(groups, 0, redundancy, v);
    if c == redundancy {
      Rollout.NothingOutdated(groups, redundancy, v.cache, v.desired, v.numOfManagementNodes);
    } else {
      var gone := Rollout.EnsureFrom(groups, 0, redundancy, v).0;
      Rollout.GoneNotEmpty(gone, v.numOfManagementNodes);
    }
  }

  /**
   With fresh reads and no failures, the rollout phase of an incomplete StatefulSet continues exactly
   if all pods run the revision its status names. That is the template once the controller has
   seen the current object, and before that an older revision, whose pods then pass.
   */
  lemma RolloutComparesWithStatus(c: Ctx, a: Answers)
    requires c.data.Some? && !UpdateComplete(c.data.value)
    requires a.status.Some? && !Rollout.AnyMissing(a.status.value) && a.refusing == {} && a.cache == c.w.pods
    requires Rollout.Covers(Rollout.GroupsOf(a.status.value), c.w.redundancy, c.w.pods, ManagementNodes(c.w))
    ensures EnsureDataPods(c, a).1 == Continue <==>
              forall o :: o in c.w.pods ==> c.w.pods[o] == c.data.value.status.updateRevision
  {
    var desired := c.data.value.status.updateRevision;
    var v := Rollout.View(a.cache, desired, a.refusing, ManagementNodes(c.w));
    CleanColumnsPass(Rollout.GroupsOf(a.status.value), c.w.redundancy, v);
    if Rollout.Outdated(c.w.pods, desired) == {} {
      forall o | o in c.w.pods ensures c.w.pods[o] == desired {
        assert o !in Rollout.Outdated(c.w.pods, desired);
      }
    }
    if forall o :: o in c.w.pods ==> c.w.pods[o] == desired {
      assert Rollout.Outdated(c.w.pods, desired) == {};
    }
  }
}
