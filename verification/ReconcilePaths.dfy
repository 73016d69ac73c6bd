/**
 How far a sync gets, and what it has left alone until then.
 */
module ReconcilePaths {
  import opened Wrappers
  import opened StatefulSets
  import opened Reconcile
  import opened ReconcileRuns
  import opened ReconcileSuccess
  import ClusterStatus
  import Rollout

  /** The sync as it stands when phase `j` starts, if it gets that far. */
  ghost function Reached(i: nat, j: nat, c: Ctx, a: Answers): Option<Ctx>
    requires i <= j <= LAST
    decreases j - i
  {
    if i == j then Some(c)
    else
      var r := Phase(i, c, a);
      if r.1 == Continue then Reached(i + 1, j, r.0, a) else None
  }

  /** A sync ends in the last phase it reaches. */
  lemma {:induction false} EndsSomewhere(i: nat, c: Ctx, a: Answers) returns (j: nat)
    requires i <= LAST
    ensures i <= j <= LAST && Reached(i, j, c, a).Some?
    ensures RunFrom(i, c, a) == Phase(j, Reached(i, j, c, a).value, a)
    ensures j < LAST ==> RunFrom(i, c, a).1 != Continue
    decreases LAST - i
  {
    hide Phase;
    j := i;
    if i < LAST && Phase(i, c, a).1 == Continue {
      j := EndsSomewhere(i + 1, Phase(i, c, a).0, a);
    }
  }

  lemma {:induction false} ReachedEarlier(i: nat, k: nat, j: nat, c: Ctx, a: Answers)
    requires i <= k <= j <= LAST && Reached(i, j, c, a).Some?
    ensures Reached(i, k, c, a).Some? && Reached(k, j, Reached(i, k, c, a).value, a) == Reached(i, j, c, a)
    decreases k - i
  {
    hide Phase;
    if i < k {
      ReachedEarlier(i + 1, k, j, Phase(i, c, a).0, a);
    }
  }

  /** A phase in the middle of a sync changes the data nodes' StatefulSet at most in its annotations. */
  predicate Kept(before: World, after: World) {
    && after.ndb == before.ndb && after.redundancy == before.redundancy
    && (before.cm.Some? ==> after.cm == before.cm)
    && (before.data.Some? ==> SameObject(before.data, after.data))
  }

  lemma PhaseKept(i: nat, c: Ctx, a: Answers)
    requires i < LAST && Sound(c.w) && Stage(i, c) && Phase(i, c, a).1 == Continue
    ensures var c' := Phase(i, c, a).0;
            && Sound(c'.w) && Stage(i + 1, c') && Kept(c.w, c'.w)
            && (i != 8 ==> c'.w.pods == c.w.pods)
            && (i != 10 ==> c'.w.inducted == c.w.inducted)
            && (i >= 3 ==> c'.data == c.data) && (i < 7 ==> c'.w.data == c.w.data) && (i == 2 ==> c.w.data.Some?)
  {
    hide Phase, Sound, Stage, Patched;
    if i <= 2 {
      EarlyStages(i, c, a);
    } else if i <= 6 {
      MiddleStages(i, c, a);
    } else {
      LateStages(i, c, a);
    }
    PhaseKeepsRedundancy(i, c, a);
    if i == 7 {
      KeptByDataPatch(c, a);
    } else if i == 8 {
      KeptByRollout(c, a);
    } else if i == 10 {
      KeptByAddNode(c, a);
    } else {
      KeptByOthers(i, c, a);
    }
  }

  lemma KeptByDataPatch(c: Ctx, a: Answers)
    requires Sound(c.w) && Stage(7, c) && Phase(7, c, a).1 == Continue
    ensures var c' := Phase(7, c, a).0;
            Kept(c.w, c'.w) && c'.w.pods == c.w.pods && c'.w.inducted == c.w.inducted && c'.data == c.data
  {
    hide ConfigFirst, ReconcileData;
    DataPatchAnnounces(c, a);
  }

  lemma KeptByRollout(c: Ctx, a: Answers)
    requires Stage(8, c)
    ensures var c' := Phase(8, c, a).0; Kept(c.w, c'.w) && c'.w.inducted == c.w.inducted && c'.data == c.data
  {
    hide Rollout.EnsurePods, UpdateComplete;
  }

  lemma KeptByAddNode(c: Ctx, a: Answers)
    requires Sound(c.w) && Stage(10, c) && Phase(10, c, a).1 == Continue
    ensures var c' := Phase(10, c, a).0; Kept(c.w, c'.w) && c'.w.pods == c.w.pods && c'.data == c.data
  {
    hide ConfigFirst, Patched;
    var s := c.data.value;
    if s.replicas == c.cs.spec.numData {
      Unchanged(c.w.data, s, s.(addNode := false), ClearAddNode in a.fails);
    } else {
      ScaledAnnounces(c.w.data, s, c.cs, ScaleData in a.fails);
    }
  }

  lemma KeptByOthers(i: nat, c: Ctx, a: Answers)
    requires i < LAST && i != 7 && i != 8 && i != 10 && Stage(i, c) && Phase(i, c, a).1 == Continue
    ensures var c' := Phase(i, c, a).0;
            && Kept(c.w, c'.w) && c'.w.pods == c.w.pods && c'.w.inducted == c.w.inducted && c'.w.data == c.w.data
            && (i >= 3 ==> c'.data == c.data) && (i == 2 ==> c.w.data.Some?)
  {
    hide ConfigFirst, UpdateComplete, Ready, Patched;
  }

  /** Everything up to phase `j`, in one statement. */
  lemma {:induction false} ReachedKept(i: nat, j: nat, c: Ctx, a: Answers)
    requires i <= j <= LAST && Sound(c.w) && Stage(i, c) && Reached(i, j, c, a).Some?
    ensures var d := Reached(i, j, c, a).value;
            && Sound(d.w) && Stage(j, d) && Kept(c.w, d.w)
            && (j <= 8 ==> d.w.pods == c.w.pods) && (j <= 10 ==> d.w.inducted == c.w.inducted)
            && (3 <= i ==> d.data == c.data) && (j <= 7 ==> d.w.data == c.w.data)
            && (i <= 2 < j ==> c.w.data.Some?)
    decreases j - i
  {
    hide Phase, Sound, Stage;
    if i < j {
      PhaseKept(i, c, a);
      ReachedKept(i + 1, j, Phase(i, c, a).0, a);
    }
  }

  /** A sync that gets past the rollout phase has seen the current template on every inducted node. */
  lemma PastRollout(w: World, a: Answers, j: nat)
    requires Sound(w) && 8 < j <= LAST && Reached(0, j, Start(w), a).Some?
    requires Informed(w, a) && Observed(w)
    ensures PodsCurrent(w, w.inducted)
    ensures Reached(0, j, Start(w), a).value.w.pods == w.pods
  {
    hide Sound, Stage, Phase, RunFrom, Observed, Informed;
    var c := Start(w);
    StartStage(w);
    ReachedEarlier(0, 8, j, c, a);
    var d := Reached(0, 8, c, a).value;
    ReachedKept(0, 8, c, a);
    ObservedStays(w, d.w);
    StaysInformed(c, d, a, w.inducted);
    RolloutContinues(d, j, a);
    RolloutPasses(d, a);
    SamePods(w, d.w, Phase(8, d, a).0.w);
    AfterRollout(9, j, Phase(8, d, a).0, a);
  }

  lemma RolloutContinues(d: Ctx, j: nat, a: Answers)
    requires 8 < j <= LAST && Reached(8, j, d, a).Some?
    ensures Phase(8, d, a).1 == Continue && Reached(9, j, Phase(8, d, a).0, a) == Reached(8, j, d, a)
    ensures Phase(8, d, a) == EnsureDataPods(d, a)
    ensures Sound(d.w) && Stage(8, d) ==> Sound(Phase(8, d, a).0.w) && Stage(9, Phase(8, d, a).0)
  {
    hide Sound, Stage, Rollout.EnsurePods;
    if Sound(d.w) && Stage(8, d) {
      LateStages(8, d, a);
    }
  }

  lemma {:induction false} AfterRollout(i: nat, j: nat, c: Ctx, a: Answers)
    requires 9 <= i <= j <= LAST && Sound(c.w) && Stage(i, c) && Reached(i, j, c, a).Some?
    ensures Reached(i, j, c, a).value.w.pods == c.w.pods
    decreases j - i
  {
    hide Phase, Sound, Stage;
    if i < j {
      PhaseKept(i, c, a);
      AfterRollout(i + 1, j, Phase(i, c, a).0, a);
    }
  }

  lemma StartStage(w: World)
    ensures Stage(0, Start(w))
  {
  }

  lemma ObservedStays(w: World, v: World)
    requires Observed(w) && Kept(w, v) && w.data.Some?
    ensures Observed(v)
  {
  }

  lemma SamePods(w: World, v: World, u: World)
    requires Kept(w, v) && u.pods == v.pods && v.pods == w.pods && v.inducted == w.inducted
    requires PodsCurrent(u, v.inducted) && u.data == v.data && w.data.Some?
    ensures PodsCurrent(w, w.inducted) && u.pods == w.pods
  {
  }

  // ----- the pods a sync deletes

  lemma OnlyRolloutDeletes(i: nat, c: Ctx, a: Answers)
    requires i <= LAST && i != 8
    ensures Phase(i, c, a).0.w.pods == c.w.pods && Phase(i, c, a).0.w.redundancy == c.w.redundancy
  {
    hide Patched, UpdateComplete, Ready, UpdatedConfigMap, RebuiltData, Rebuilt;
    PhaseKeepsRedundancy(i, c, a);
  }

  /** What the rollout phase deletes, if the sync gets there; the sync deletes nothing else. */
  ghost predicate DeletesBy(w: World, v: World, a: Answers, complete: bool, view: Rollout.View) {
    && view.numOfManagementNodes == ManagementNodes(w)
    && v.pods == w.pods - Rollout.Ordinals(Rollout.EnsurePods(complete, a.status, w.redundancy, view).0, ManagementNodes(w))
  }

  lemma NothingToDelete(w: World, a: Answers) returns (view: Rollout.View)
    ensures DeletesBy(w, w, a, true, view)
  {
    view := Rollout.View(map[], NO_STATUS.updateRevision, {}, ManagementNodes(w));
    assert Rollout.Ordinals([], ManagementNodes(w)) == {};
  }

  lemma {:induction false} SyncDeletesBy(i: nat, c: Ctx, a: Answers) returns (complete: bool, view: Rollout.View)
    requires i <= LAST
    ensures DeletesBy(c.w, RunFrom(i, c, a).0.w, a, complete, view)
    decreases LAST - i
  {
    hide Phase, DeletesBy;
    var c' := Phase(i, c, a).0;
    if i == 8 {
      complete, view := RolloutDeletesBy(c, a);
      if Phase(i, c, a).1 == Continue {
        LaterPods(9, c', a);
        SameDeletions(c.w, c'.w, RunFrom(9, c', a).0.w, a, complete, view);
      }
    } else {
      OnlyRolloutDeletes(i, c, a);
      if i == LAST || Phase(i, c, a).1 != Continue {
        complete := true;
        view := NothingToDelete(c.w, a);
        SameDeletions(c.w, c.w, c'.w, a, complete, view);
      } else {
        complete, view := SyncDeletesBy(i + 1, c', a);
        EarlierPods(c.w, c'.w, RunFrom(i + 1, c', a).0.w, a, complete, view);
      }
    }
  }

  lemma RolloutDeletesBy(c: Ctx, a: Answers) returns (complete: bool, view: Rollout.View)
    ensures DeletesBy(c.w, Phase(8, c, a).0.w, a, complete, view)
  {
    hide Rollout.EnsurePods, UpdateComplete;
    if c.data.None? {
      complete := true;
      view := NothingToDelete(c.w, a);
    } else {
      complete := UpdateComplete(c.data.value);
      view := Rollout.View(a.cache, c.data.value.status.updateRevision, a.refusing, ManagementNodes(c.w));
    }
  }

  lemma {:induction false} LaterPods(i: nat, c: Ctx, a: Answers)
    requires 9 <= i <= LAST
    ensures RunFrom(i, c, a).0.w.pods == c.w.pods
    decreases LAST - i
  {
    hide Phase;
    OnlyRolloutDeletes(i, c, a);
    if i < LAST && Phase(i, c, a).1 == Continue {
      LaterPods(i + 1, Phase(i, c, a).0, a);
    }
  }

  lemma SameDeletions(w: World, v: World, u: World, a: Answers, complete: bool, view: Rollout.View)
    requires DeletesBy(w, v, a, complete, view) && u.pods == v.pods
    ensures DeletesBy(w, u, a, complete, view)
  {
  }

  lemma EarlierPods(w: World, w': World, v: World, a: Answers, complete: bool, view: Rollout.View)
    requires DeletesBy(w', v, a, complete, view) && w'.pods == w.pods && w'.redundancy == w.redundancy
    ensures DeletesBy(w, v, a, complete, view)
  {
  }

  /**
   In every state, whatever has failed and however stale the cached pods are: if one sync deletes
   the pods of data nodes `x` and `y`, every inducted data node was connected, and `x` and `y` are the same node
   or belong to different node groups.
   */
  lemma SyncDeletesOnePerGroup(w: World, a: Answers, o1: int, o2: int) returns (x: int, y: int)
    requires o1 in w.pods && o1 !in SyncHandler(w, a).pods && o2 in w.pods && o2 !in SyncHandler(w, a).pods
    ensures a.status.Some? && !Rollout.AnyMissing(a.status.value)
    ensures var cs := a.status.value;
            && x in cs && y in cs && Rollout.OrdinalOf(x, ManagementNodes(w)) == o1 && Rollout.OrdinalOf(y, ManagementNodes(w)) == o2
            && ClusterStatus.Inducted(cs[x]) && ClusterStatus.Inducted(cs[y])
            && (cs[x].nodeGroup == cs[y].nodeGroup ==> o1 == o2)
  {
    hide RunFrom, Rollout.EnsurePods;
    var complete, view := SyncDeletesBy(0, Start(w), a);
    var gone := Rollout.EnsurePods(complete, a.status, w.redundancy, view).0;
    var m := ManagementNodes(w);
    assert o1 in Rollout.Ordinals(gone, m) && o2 in Rollout.Ordinals(gone, m);
    var k1 :| 0 <= k1 < |gone| && Rollout.OrdinalOf(gone[k1], m) == o1;
    var k2 :| 0 <= k2 < |gone| && Rollout.OrdinalOf(gone[k2], m) == o2;
    x, y := gone[k1], gone[k2];
    NoStatusNoDeletion(complete, a, w.redundancy, view);
    Rollout.AtMostOnePerGroup(complete, a.status.value, w.redundancy, view, x, y);
  }

  /**
   With redundancy no sync takes a node group down: of any two reported members of a group whose
   pods exist, one keeps its pod, whatever fails and however stale the cached pods are.
   */
  lemma SyncKeepsGroupsAlive(w: World, a: Answers, x: int, y: int)
    requires a.status.Some?
    requires var cs := a.status.value;
             x in cs && y in cs && ClusterStatus.Inducted(cs[x]) && ClusterStatus.Inducted(cs[y])
             && cs[x].nodeGroup == cs[y].nodeGroup && x != y
    requires var m := ManagementNodes(w); Rollout.OrdinalOf(x, m) in w.pods && Rollout.OrdinalOf(y, m) in w.pods
    ensures var v, m := SyncHandler(w, a), ManagementNodes(w);
            Rollout.OrdinalOf(x, m) in v.pods || Rollout.OrdinalOf(y, m) in v.pods
  {
    hide SyncHandler;
    var m := ManagementNodes(w);
    var o1, o2 := Rollout.OrdinalOf(x, m), Rollout.OrdinalOf(y, m);
    if o1 !in SyncHandler(w, a).pods && o2 !in SyncHandler(w, a).pods {
      var x', y' := SyncDeletesOnePerGroup(w, a, o1, o2);
    }
  }

  lemma NoStatusNoDeletion(complete: bool, a: Answers, redundancy: nat, view: Rollout.View)
    ensures Rollout.EnsurePods(complete, a.status, redundancy, view).0 != [] ==> a.status.Some?
  {
  }
}
