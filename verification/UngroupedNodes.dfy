/**
 Data nodes that run without a node group. The annotation that announces an addition is all that
 remembers them; here is when it gets lost, over all runs, with sync errors and failing calls.
 */
module UngroupedNodes {
  import opened Wrappers
  import opened StatefulSets
  import opened Reconcile
  import opened ReconcileRuns
  import opened ReconcileSuccess
  import opened ReconcilePaths
  import opened UpdateRuns
  import opened TwoPhaseRestart
  import opened ReconcileUpdates
  import ClusterStatus
  import ReconcileLimits
  import Rollout

  // ----- started, but in no node group

  ghost predicate Ungrouped(w: World) {
    w.data.Some? && exists o :: 0 <= o < w.data.value.replicas && o !in w.inducted
  }

  /** The StatefulSet of the data nodes was patched for a configuration. */
  predicate Redefined(w: World, v: World) {
    && w.data.Some? && v.data.Some?
    && (v.data.value.applied != w.data.value.applied || v.data.value.template != w.data.value.template)
  }

  /** All new data nodes are started and announced, and some of them wait for their group. */
  ghost predicate Waiting(w: World) {
    && w.data.Some? && w.cm.Some? && w.data.value.addNode && w.data.value.replicas >= w.cm.value.spec.numData
    && Ungrouped(w)
  }

  /** The sync patches the StatefulSet while data nodes wait for their group. */
  ghost predicate Forgets(w: World, a: Answers) {
    Waiting(w) && Redefined(w, SyncHandler(w, a))
  }

  /** The sync makes node groups, and the management server puts every data node into one. */
  ghost predicate GroupsMade(w: World, a: Answers) {
    && Reached(0, 10, Start(w), a).Some?
    && var d := Reached(0, 10, Start(w), a).value;
       && d.data.Some? && d.data.value.addNode && d.data.value.replicas == d.cs.spec.numData
       && forall o :: 0 <= o < d.data.value.replicas ==> o in d.w.inducted + a.newGroups * d.w.pods.Keys
  }

  /**
   The sync makes node groups and takes the announcement away, but a data node stays without a group:
   one that was not connected at that moment, say, is passed over without an error.
   */
  ghost predicate Misses(w: World, a: Answers) {
    && MakeGroups !in a.fails
    && Reached(0, 10, Start(w), a).Some?
    && var d := Reached(0, 10, Start(w), a).value;
       && d.data.Some? && d.data.value.addNode && d.data.value.replicas == d.cs.spec.numData
       && (exists o :: 0 <= o < d.data.value.replicas && o !in d.w.inducted + a.newGroups * d.w.pods.Keys)
       && var v := HandleAddNode(d, a).0.w; v.data.Some? && !v.data.value.addNode
  }

  /** At some step data nodes were forgotten or missed, and no later sync has put all of them into groups. */
  ghost predicate LeftBehind(w: World, steps: seq<Step>)
    requires w.redundancy > 0
    decreases |steps|
  {
    steps != []
    && var n := |steps| - 1;
       match steps[n]
       case SyncStep(a) =>
         && (LeftBehind(w, steps[..n]) || Forgets(After(w, steps[..n]), a) || Misses(After(w, steps[..n]), a))
         && !GroupsMade(After(w, steps[..n]), a)
       case _ => LeftBehind(w, steps[..n])
  }

  // ----- never more data nodes than configured

  predicate Bounded(w: World) {
    && (w.data.Some? ==> w.cm.Some? && w.data.value.replicas <= w.cm.value.spec.numData)
    && (w.cm.Some? ==> w.cm.value.spec.numData <= w.ndb.spec.numData)
  }

  /** Only three phases have to do with data nodes and groups. */
  lemma Untouched(j: nat, c: Ctx, a: Answers)
    requires j <= LAST && j != 2 && j != 7 && j != 10
    ensures var v := Phase(j, c, a).0.w; v.data == c.w.data && v.inducted == c.w.inducted
  {
    hide Patched, UpdateComplete, Ready, Rollout.EnsurePods, UpdatedConfigMap, Rebuilt;
  }

  lemma SameConfig(j: nat, c: Ctx, a: Answers)
    requires 0 < j < LAST
    ensures Phase(j, c, a).0.w.cm == c.w.cm && Phase(j, c, a).0.w.ndb == c.w.ndb
  {
    hide Patched, UpdateComplete, Ready, Rollout.EnsurePods, Rebuilt, ClusterStatus.Range;
  }

  lemma BoundedConfig(j: nat, c: Ctx, a: Answers)
    requires (j == 0 || j == LAST) && Bounded(c.w) && (j > 0 ==> Oriented(c))
    requires c.w.cm.None? ==> c.w.data.None?
    ensures Bounded(Phase(j, c, a).0.w)
  {
    hide AppliedUpTo;
  }

  lemma BoundedData(c: Ctx, a: Answers)
    requires Bounded(c.w) && c.w.cm == Some(c.cs) && c.data == c.w.data
    ensures Bounded(ReconcileData(c, a).0.w)
  {
  }

  lemma BoundedAddNode(c: Ctx, a: Answers)
    requires Bounded(c.w) && c.w.cm == Some(c.cs) && SameObject(c.data, c.w.data)
    ensures Bounded(HandleAddNode(c, a).0.w)
  {
  }

  lemma BoundedPhase(j: nat, c: Ctx, a: Answers)
    requires j <= LAST && Sound(c.w) && Stage(j, c) && Bounded(c.w)
    ensures Bounded(Phase(j, c, a).0.w)
  {
    hide Phase, UpdateComplete, Ready, ReconcileData, HandleAddNode, StatusSound, RootBehind;
    if j == 0 || j == LAST {
      BoundedConfig(j, c, a);
    } else {
      SameConfig(j, c, a);
      if j == 2 {
        BoundedCreation(c, a);
      } else if j == 7 {
        BoundedData(c, a);
        PhasesByName(c, a);
      } else if j == 10 {
        BoundedAddNode(c, a);
        PhasesByName(c, a);
      } else {
        Untouched(j, c, a);
      }
    }
  }

  lemma PhasesByName(c: Ctx, a: Answers)
    ensures Phase(2, c, a) == EnsureData(c, a) && Phase(7, c, a) == ReconcileData(c, a) && Phase(10, c, a) == HandleAddNode(c, a)
  {
  }

  lemma BoundedCreation(c: Ctx, a: Answers)
    requires Bounded(c.w) && c.w.cm == Some(c.cs)
    ensures Bounded(Phase(2, c, a).0.w)
  {
    hide UpdateComplete, ReconcileData, ClusterStatus.Range;
    if c.w.data.Some? {
      BoundedData(c.(data := c.w.data), a);
    }
  }

  // ----- one sync

  /** The state during a sync that started with `w`; `left` are nodes forgotten before. */
  ghost predicate Midway(j: nat, c: Ctx, w: World, a: Answers, left: bool) {
    && j <= LAST && Sound(c.w) && Stage(j, c) && Bounded(c.w) && Reached(0, j, Start(w), a) == Some(c)
    && w.data.Some? && w.cm.Some? && c.w.data.Some? && c.w.cm == w.cm && c.w.ndb == w.ndb
    && SameObject(w.data, c.w.data)
    && (j > 2 ==> c.data == w.data)
    && (j <= 7 ==> c.w.data == w.data)
    && (j <= 10 ==> c.w.inducted == w.inducted && c.w.pods == w.pods)
    && (j <= 10 && w.data.value.addNode && w.data.value.replicas < w.cm.value.spec.numData ==> c.w.data.value.addNode)
    && (j > 10 && GroupsMade(w, a) ==> !Ungrouped(c.w))
    && (j > 10 && Misses(w, a) ==> Ungrouped(c.w))
    && Held(w, c.w, a, left)
  }

  ghost predicate Held(w: World, v: World, a: Answers, left: bool) {
    && (Ungrouped(v) ==> v.data.value.addNode || left || Misses(w, a) || (Waiting(w) && Redefined(w, v)))
    && (Ungrouped(w) && !GroupsMade(w, a) ==> Ungrouped(v))
  }

  /** What a phase leaves behind when it ends the sync. */
  ghost predicate Ended(w: World, v: World, a: Answers, left: bool) {
    && v.data.Some? && Bounded(v) && Held(w, v, a, left)
    && (GroupsMade(w, a) ==> !Ungrouped(v))
    && (Misses(w, a) ==> Ungrouped(v) && !GroupsMade(w, a))
  }

  ghost predicate Carried(j: nat, c: Ctx, w: World, a: Answers, left: bool)
    requires j <= LAST
  {
    var (c', r) := Phase(j, c, a);
    if r == Continue && j < LAST then Midway(j + 1, c', w, a, left) else Ended(w, c'.w, a, left)
  }

  lemma {:induction false} ReachedNext(i: nat, j: nat, c: Ctx, a: Answers)
    requires i <= j < LAST && Reached(i, j, c, a).Some?
    ensures var d := Reached(i, j, c, a).value;
            Reached(i, j + 1, c, a) == if Phase(j, d, a).1 == Continue then Some(Phase(j, d, a).0) else None
    decreases j - i
  {
    hide Phase;
    if i < j {
      ReachedNext(i + 1, j, Phase(i, c, a).0, a);
    }
  }

  lemma {:induction false} NotReached(i: nat, j: nat, k: nat, c: Ctx, a: Answers)
    requires i <= j <= k <= LAST && Reached(i, j, c, a).None?
    ensures Reached(i, k, c, a).None?
    decreases j - i
  {
    hide Phase;
    if i < j && Phase(i, c, a).1 == Continue {
      NotReached(i + 1, j, k, Phase(i, c, a).0, a);
    }
  }

  /** A sync that ends before phase 10 makes no groups, and misses no node. */
  lemma EndsEarly(j: nat, c: Ctx, w: World, a: Answers)
    requires j < 10 && Reached(0, j, Start(w), a) == Some(c) && Phase(j, c, a).1 != Continue
    ensures !GroupsMade(w, a) && !Misses(w, a)
  {
    hide Phase, Reached;
    ReachedNext(0, j, Start(w), a);
    NotReached(0, j + 1, 10, Start(w), a);
  }

  lemma SameGroups(w: World, u: World, v: World, a: Answers, left: bool)
    requires Held(w, u, a, left) && u.data.Some? && v.data == u.data && v.inducted == u.inducted
    ensures Held(w, v, a, left) && (Ungrouped(v) <==> Ungrouped(u))
  {
  }

  lemma GoesOn(j: nat, c: Ctx, a: Answers)
    requires j < LAST && Sound(c.w) && Stage(j, c) && Phase(j, c, a).1 == Continue
    requires c.w.data.Some? && c.w.cm.Some?
    ensures var c' := Phase(j, c, a).0;
            && Sound(c'.w) && Stage(j + 1, c') && c'.w.ndb == c.w.ndb && c'.w.cm == c.w.cm
            && SameObject(c.w.data, c'.w.data)
            && (j != 8 ==> c'.w.pods == c.w.pods) && (j >= 3 ==> c'.data == c.data)
  {
    hide Phase, Sound, Stage;
    PhaseKept(j, c, a);
  }

  lemma SameObjectChain(a: Option<StatefulSet>, b: Option<StatefulSet>, c: Option<StatefulSet>)
    requires SameObject(a, b) && SameObject(b, c)
    ensures SameObject(a, c)
  {
  }

  lemma CopyRead(j: nat, c: Ctx)
    requires 2 < j <= 7 && Stage(j, c)
    ensures c.data == c.w.data
  {
  }

  lemma CarriedUntouched(j: nat, c: Ctx, w: World, a: Answers, left: bool)
    requires j <= LAST && j != 2 && j != 7 && j != 10 && Midway(j, c, w, a, left)
    ensures Carried(j, c, w, a, left)
  {
    hide Phase, Sound, Stage, Held, GroupsMade, Misses, Reached, Ungrouped;
    Untouched(j, c, a);
    BoundedPhase(j, c, a);
    SameGroups(w, c.w, Phase(j, c, a).0.w, a, left);
    if Phase(j, c, a).1 == Continue && j < LAST {
      GoesOn(j, c, a);
      ReachedNext(0, j, Start(w), a);
      SameObjectChain(w.data, c.w.data, Phase(j, c, a).0.w.data);
      if 2 < j + 1 <= 7 {
        CopyRead(j + 1, Phase(j, c, a).0);
      }
      if j == 8 {
        PodsKept(c, a);
      }
    } else if j < 10 {
      EndsEarly(j, c, w, a);
    }
  }

  lemma PodsKept(c: Ctx, a: Answers)
    requires Phase(8, c, a).1 == Continue
    ensures Phase(8, c, a).0.w.pods == c.w.pods
  {
    NothingDeleted(c, a);
  }

  /** The patch keeps or sets the annotation only for data nodes that are not started yet. */
  lemma PatchHeld(c: Ctx, w: World, a: Answers, left: bool)
    requires c.data == c.w.data == w.data && w.data.Some? && w.cm == Some(c.cs) && c.w.inducted == w.inducted
    requires Bounded(w) && Held(w, c.w, a, left)
    ensures var v := ReconcileData(c, a).0.w;
            && Held(w, v, a, left) && v.inducted == c.w.inducted && v.data.Some?
            && (w.data.value.addNode && w.data.value.replicas < w.cm.value.spec.numData ==> v.data.value.addNode)
  {
    hide GroupsMade, Misses;
    var s := c.data.value;
    if !(HasGeneration(s, c.cs.generation) && !(s.template.initial && !c.cs.initialRestart)) && PatchData !in a.fails {
      var v := ReconcileData(c, a).0.w;
      assert v.data.value.replicas == s.replicas;
      assert v.data.value.addNode <==> s.replicas < c.cs.spec.numData;
      assert Redefined(w, v);
      assert Ungrouped(v) <==> Ungrouped(w);
    }
  }

  lemma CarriedPatch(c: Ctx, w: World, a: Answers, left: bool)
    requires Midway(7, c, w, a, left)
    ensures Carried(7, c, w, a, left)
  {
    hide Sound, Held, GroupsMade, Misses, Reached, Ungrouped, Patched, ReconcileData, ConfigFirst;
    BoundedPhase(7, c, a);
    WasBounded(c, w);
    PatchHeld(c, w, a, left);
    if Phase(7, c, a).1 == Continue {
      GoesOn(7, c, a);
      ReachedNext(0, 7, Start(w), a);
      SameObjectChain(w.data, c.w.data, Phase(7, c, a).0.w.data);
    } else {
      EndsEarly(7, c, w, a);
    }
  }

  lemma WasBounded(c: Ctx, w: World)
    requires Bounded(c.w) && c.w.cm == w.cm && c.w.ndb == w.ndb && SameObject(w.data, c.w.data)
    ensures Bounded(w)
  {
  }

  lemma CarriedData(c: Ctx, w: World, a: Answers, left: bool)
    requires Midway(2, c, w, a, left)
    ensures Carried(2, c, w, a, left)
  {
    hide Sound, Held, GroupsMade, Misses, Reached, Ungrouped, Patched, ReconcileData, ConfigFirst, UpdateComplete;
    BoundedPhase(2, c, a);
    WasBounded(c, w);
    PatchHeld(c.(data := c.w.data), w, a, left);
    if Phase(2, c, a).1 == Continue {
      GoesOn(2, c, a);
      ReachedNext(0, 2, Start(w), a);
      SameObjectChain(w.data, c.w.data, Phase(2, c, a).0.w.data);
    } else {
      EndsEarly(2, c, w, a);
    }
  }

  /** What the add-node phase does, in terms of data nodes and groups. */
  lemma AddNodeOutcome(c: Ctx, a: Answers)
    requires c.data.Some? && SameObject(c.data, c.w.data)
    ensures var v := HandleAddNode(c, a).0.w; var s, t := c.data.value, c.w.data.value;
            && v.data.Some?
            && (!s.addNode ==> v.data == c.w.data && v.inducted == c.w.inducted)
            && (s.addNode && s.replicas != c.cs.spec.numData ==>
                  && v.inducted == c.w.inducted && v.data.value.addNode == t.addNode
                  && (v.data.value.replicas == t.replicas || v.data.value.replicas == c.cs.spec.numData)
                  && v.data.value.applied == t.applied && v.data.value.template == t.template
                  && HandleAddNode(c, a).1 != Continue)
            && (s.addNode && s.replicas == c.cs.spec.numData ==>
                  && v.inducted == c.w.inducted + a.newGroups * c.w.pods.Keys
                  && v.data.value.replicas == t.replicas
                  && v.data.value.applied == t.applied && v.data.value.template == t.template
                  && (MakeGroups in a.fails ==> v.data.value.addNode == t.addNode && HandleAddNode(c, a).1 != Continue))
  {
  }

  lemma CarriedAddNode(c: Ctx, w: World, a: Answers, left: bool)
    requires Midway(10, c, w, a, left)
    ensures Carried(10, c, w, a, left)
  {
    hide Sound, Stage, Reached, HandleAddNode, ConfigFirst, UpdateComplete;
    BoundedPhase(10, c, a);
    WasBounded(c, w);
    AddNodeOutcome(c, a);
    var v := Phase(10, c, a).0.w;
    assert Phase(10, c, a) == HandleAddNode(c, a);
    assert GroupsMade(w, a) <==>
        && c.data.value.addNode && c.data.value.replicas == c.cs.spec.numData
        && forall o :: 0 <= o < c.data.value.replicas ==> o in c.w.inducted + a.newGroups * c.w.pods.Keys;
    CopyIsCurrent(10, c);
    assert Held(w, v, a, left);
    assert GroupsMade(w, a) ==> !Ungrouped(v);
    if Phase(10, c, a).1 == Continue {
      GoesOn(10, c, a);
      ReachedNext(0, 10, Start(w), a);
      SameObjectChain(w.data, c.w.data, v.data);
    }
  }

  lemma CopyIsCurrent(j: nat, c: Ctx)
    requires j > 0 && Stage(j, c)
    ensures c.w.cm == Some(c.cs)
  {
  }

  lemma CarriedPhase(j: nat, c: Ctx, w: World, a: Answers, left: bool)
    requires Midway(j, c, w, a, left)
    ensures Carried(j, c, w, a, left)
  {
    hide Phase, Midway, Carried;
    assert j <= LAST by { IsPhase(j, c, w, a, left); }
    if j == 2 {
      CarriedData(c, w, a, left);
    } else if j == 7 {
      CarriedPatch(c, w, a, left);
    } else if j == 10 {
      CarriedAddNode(c, w, a, left);
    } else {
      CarriedUntouched(j, c, w, a, left);
    }
  }

  lemma IsPhase(j: nat, c: Ctx, w: World, a: Answers, left: bool)
    requires Midway(j, c, w, a, left)
    ensures j <= LAST
  {
    hide Sound, Stage, Held;
  }

  lemma {:induction false} CarriedRun(j: nat, c: Ctx, w: World, a: Answers, left: bool)
    requires j <= LAST && Midway(j, c, w, a, left)
    ensures Ended(w, RunFrom(j, c, a).0.w, a, left)
    decreases LAST - j
  {
    hide Phase, Midway, Ended;
    CarriedPhase(j, c, w, a, left);
    if j < LAST && Phase(j, c, a).1 == Continue {
      CarriedRun(j + 1, Phase(j, c, a).0, w, a, left);
    }
  }

  // ----- one step

  /** Data nodes without a group are announced, or left behind. */
  ghost predicate Accounted(w: World, left: bool) {
    Sound(w) && Bounded(w) && (left ==> Ungrouped(w)) && (Ungrouped(w) ==> w.data.value.addNode || left)
  }

  ghost predicate LeftAfter(w: World, left: bool, step: Step) {
    match step
    case SyncStep(a) => (left || Forgets(w, a) || Misses(w, a)) && !GroupsMade(w, a)
    case _ => left
  }

  lemma FirstDataNodes(j: nat, c: Ctx, a: Answers)
    requires j <= LAST && c.w.data.None? && c.data.None?
    ensures var (c', r) := Phase(j, c, a);
            && (r == Continue ==> c'.w.data.None? && c'.data.None?)
            && !Ungrouped(c'.w)
  {
    hide Patched, UpdateComplete, Ready, UpdatedConfigMap, Rebuilt, ClusterStatus.Range;
    if j == 2 {
      ClusterStatus.RangeIs(c.cs.spec.numData);
    }
  }

  lemma {:induction false} FirstSync(j: nat, c: Ctx, a: Answers)
    requires j <= LAST && c.w.data.None? && c.data.None?
    ensures !Ungrouped(RunFrom(j, c, a).0.w)
    ensures j <= 10 && Reached(j, 10, c, a).Some? ==> Reached(j, 10, c, a).value.data.None?
    decreases LAST - j
  {
    hide Phase, Ungrouped;
    FirstDataNodes(j, c, a);
    if j < LAST && Phase(j, c, a).1 == Continue {
      FirstSync(j + 1, Phase(j, c, a).0, a);
    }
  }

  lemma {:induction false} BoundedRun(j: nat, c: Ctx, a: Answers)
    requires j <= LAST && Sound(c.w) && Stage(j, c) && Bounded(c.w)
    ensures Bounded(RunFrom(j, c, a).0.w)
    decreases LAST - j
  {
    hide Phase, Sound, Stage, Bounded;
    BoundedPhase(j, c, a);
    if j < LAST && Phase(j, c, a).1 == Continue {
      NextStage(j, c, a);
      BoundedRun(j + 1, Phase(j, c, a).0, a);
    }
  }

  lemma NextStage(j: nat, c: Ctx, a: Answers)
    requires j < LAST && Sound(c.w) && Stage(j, c) && Phase(j, c, a).1 == Continue
    ensures Sound(Phase(j, c, a).0.w) && Stage(j + 1, Phase(j, c, a).0)
  {
    hide Phase, Sound, Stage;
    if j <= 2 {
      EarlyStages(j, c, a);
    } else if j <= 6 {
      MiddleStages(j, c, a);
    } else {
      LateStages(j, c, a);
    }
  }

  lemma SyncAccounted(w: World, a: Answers, left: bool)
    requires w.redundancy > 0 && Accounted(w, left)
    ensures Accounted(SyncHandler(w, a), LeftAfter(w, left, SyncStep(a)))
  {
    hide RunFrom, Sound, Stage, Reached, HandleAddNode;
    StepIsSound(w, SyncStep(a));
    StartStage(w);
    BoundedRun(0, Start(w), a);
    if w.data.Some? {
      assert Midway(0, Start(w), w, a, left) by { Begins(w, a, left); }
      CarriedRun(0, Start(w), w, a, left);
      SameGroupsReported(Sync(w, a).0, Sync(w, a).1, a);
    } else {
      FirstSync(0, Start(w), a);
      SameGroupsReported(Sync(w, a).0, Sync(w, a).1, a);
    }
  }

  lemma Begins(w: World, a: Answers, left: bool)
    requires Accounted(w, left) && w.data.Some?
    ensures Midway(0, Start(w), w, a, left)
  {
    hide Sound, GroupsMade, Misses;
    StartStage(w);
  }

  lemma SameGroupsReported(c: Ctx, r: Reconcile.Result, a: Answers)
    ensures var v := Reported(c, r, a);
            && v.data == c.w.data && v.inducted == c.w.inducted
            && (Bounded(v) <==> Bounded(c.w)) && (Ungrouped(v) <==> Ungrouped(c.w))
  {
  }

  lemma OtherAccounted(w: World, step: Step, left: bool)
    requires w.redundancy > 0 && Accounted(w, left) && !step.SyncStep?
    ensures Accounted(Next(w, step), left)
  {
    hide Sound, UpToDate;
    StepIsSound(w, step);
  }

  // ----- all runs

  lemma {:induction false} AlwaysAccounted(spec: Spec, redundancy: nat, steps: seq<Step>)
    requires redundancy > 0
    ensures Accounted(After(Initial(spec, redundancy), steps), LeftBehind(Initial(spec, redundancy), steps))
    decreases |steps|
  {
    hide Next, Accounted, Forgets, GroupsMade, Misses;
    var w0 := Initial(spec, redundancy);
    if steps == [] {
      StartsAccounted(spec, redundancy);
    } else {
      var n := |steps| - 1;
      AlwaysAccounted(spec, redundancy, steps[..n]);
      var w := After(w0, steps[..n]);
      LastStep(w0, steps);
      if steps[n].SyncStep? {
        SyncAccounted(w, steps[n].answers, LeftBehind(w0, steps[..n]));
        assert Next(w, steps[n]) == SyncHandler(w, steps[n].answers) by { IsSync(w, steps[n]); }
      } else {
        OtherAccounted(w, steps[n], LeftBehind(w0, steps[..n]));
      }
    }
  }

  lemma IsSync(w: World, step: Step)
    requires w.redundancy > 0 && step.SyncStep?
    ensures Next(w, step) == SyncHandler(w, step.answers)
  {
  }

  lemma StartsAccounted(spec: Spec, redundancy: nat)
    requires redundancy > 0
    ensures Accounted(Initial(spec, redundancy), false)
  {
    StartsSound(spec, redundancy);
  }

  /**
   In every run, with any sync errors and failures: after a sync that reports success every started data node
   is in a node group exactly if none has been left behind, that is, if no sync patched the StatefulSet while data
   nodes waited for their group, and none passed one over and took the announcement away, or all of them were
   put into groups later.
   */
  lemma SuccessGroupsAllUnlessLeftBehind(spec: Spec, redundancy: nat, steps: seq<Step>, a: Answers)
    requires redundancy > 0
    requires Sync(After(Initial(spec, redundancy), steps), a).0.success
    ensures var w0 := Initial(spec, redundancy);
            !Ungrouped(After(w0, steps + [SyncStep(a)])) <==> !LeftBehind(w0, steps + [SyncStep(a)])
  {
    hide After, RunFrom, Sound, LeftBehind, Bounded, InSync, Ungrouped;
    var w0, all := Initial(spec, redundancy), steps + [SyncStep(a)];
    AlwaysAccounted(spec, redundancy, all);
    AlwaysSound(spec, redundancy, steps);
    var w := After(w0, steps);
    StepIsSound(w, SyncStep(a));
    LastStep(w0, all);
    assert all[..|all| - 1] == steps;
    NotAnnounced(w, a);
  }

  lemma NotAnnounced(w: World, a: Answers)
    requires InSync(Sync(w, a).0.w)
    ensures var v := SyncHandler(w, a); v.data.Some? && !v.data.value.addNode
  {
    hide RunFrom;
  }

  // ----- without pod errors nothing is left behind

  /** During a sync that finds an addition announced, the StatefulSet is not patched for a configuration. */
  ghost predicate Unpatched(j: nat, c: Ctx, w: World) {
    && CalmStage(j, c) && w.data.Some? && w.data.value.addNode && c.w.data.Some?
    && c.w.data.value.applied == w.data.value.applied && c.w.data.value.template == w.data.value.template
    && (j <= 7 ==> c.w.data == w.data)
  }

  lemma UnpatchedPhase(j: nat, c: Ctx, a: Answers, w: World)
    requires j <= LAST && Unpatched(j, c, w)
    ensures var (c', r) := Phase(j, c, a);
            && c'.w.data.Some? && c'.w.data.value.applied == w.data.value.applied
            && c'.w.data.value.template == w.data.value.template
            && (r == Continue && j < LAST ==> Unpatched(j + 1, c', w))
  {
    hide Phase, CalmStage, HandleAddNode, ReconcileData;
    PhasesByName(c, a);
    if j < LAST {
      CalmPhase(j, c, a);
    }
    if j == 2 {
      CreationPatchesNothing(c, a);
    } else if j == 7 {
      assert c.data == c.w.data by { CalmCopies(7, c); }
      ReconcileLimits.AnnotationSafeWhenCalm(c, a);
    } else if j == 10 {
      CalmCopies(10, c);
      AddNodeOutcome(c, a);
    } else {
      Untouched(j, c, a);
    }
  }

  lemma CalmCopies(j: nat, c: Ctx)
    requires CalmStage(j, c) && 2 < j
    ensures c.data.Some? && SameObject(c.data, c.w.data) && (j <= 7 ==> c.data == c.w.data)
  {
    hide Sound, Stage, Calm, UpdateComplete, Ready;
    StageIsOriented(j, c);
  }

  lemma CreationPatchesNothing(c: Ctx, a: Answers)
    requires CalmStage(2, c) && c.w.data.Some? && c.w.data.value.addNode
    ensures Phase(2, c, a).0.w == c.w
  {
    hide Sound, Stage, ConfigFirst, UpdateComplete, ServersSound, ServersInStep, ReconcileData;
    StageIsOriented(2, c);
    ConfigMapIsBehind(c.w);
  }

  lemma {:induction false} UnpatchedRun(j: nat, c: Ctx, a: Answers, w: World)
    requires j <= LAST && Unpatched(j, c, w)
    ensures var v := RunFrom(j, c, a).0.w;
            v.data.Some? && v.data.value.applied == w.data.value.applied && v.data.value.template == w.data.value.template
    decreases LAST - j
  {
    hide Phase, Unpatched;
    UnpatchedPhase(j, c, a, w);
    if j < LAST && Phase(j, c, a).1 == Continue {
      UnpatchedRun(j + 1, Phase(j, c, a).0, a, w);
    }
  }

  lemma CalmForgetsNothing(w: World, a: Answers)
    requires Calm(w)
    ensures !Forgets(w, a)
  {
    hide Calm, RunFrom, CalmStage, Ungrouped;
    if Waiting(w) {
      CalmStart(w);
      UnpatchedRun(0, Start(w), a, w);
    }
  }

  /** At some step a data node was missed, and no later sync has put all of them into groups. */
  ghost predicate Missed(w: World, steps: seq<Step>)
    requires w.redundancy > 0
    decreases |steps|
  {
    steps != []
    && var n := |steps| - 1;
       match steps[n]
       case SyncStep(a) =>
         (Missed(w, steps[..n]) || Misses(After(w, steps[..n]), a)) && !GroupsMade(After(w, steps[..n]), a)
       case _ => Missed(w, steps[..n])
  }

  lemma {:induction false} OnlyMissed(spec: Spec, redundancy: nat, steps: seq<Step>)
    requires redundancy > 0 && ValidSpec(spec, redundancy) && forall s :: s in steps ==> WithoutPodErrors(s)
    ensures LeftBehind(Initial(spec, redundancy), steps) <==> Missed(Initial(spec, redundancy), steps)
    decreases |steps|
  {
    hide Forgets, GroupsMade, Misses, WithoutPodErrors, After;
    if steps != [] {
      var n := |steps| - 1;
      OnlyMissed(spec, redundancy, steps[..n]);
      if steps[n].SyncStep? {
        AlwaysCalm(spec, redundancy, steps[..n]);
        CalmForgetsNothing(After(Initial(spec, redundancy), steps[..n]), steps[n].answers);
      }
    }
  }

  /**
   In every run without pod errors, success means that every started data node is in a node group exactly if
   no sync has passed one over, or all of them were put into groups later.
   */
  lemma CalmSuccessGroupsAllUnlessMissed(spec: Spec, redundancy: nat, steps: seq<Step>, a: Answers)
    requires redundancy > 0 && ValidSpec(spec, redundancy)
    requires (forall s :: s in steps ==> WithoutPodErrors(s)) && !a.podErrors
    requires Sync(After(Initial(spec, redundancy), steps), a).0.success
    ensures var w0 := Initial(spec, redundancy);
            !Ungrouped(After(w0, steps + [SyncStep(a)])) <==> !Missed(w0, steps + [SyncStep(a)])
  {
    hide After, RunFrom, Ungrouped, LeftBehind, Missed;
    SuccessGroupsAllUnlessLeftBehind(spec, redundancy, steps, a);
    OnlyMissed(spec, redundancy, steps + [SyncStep(a)]);
  }

  /** Successful calls that group every data node miss none. */
  lemma GroupsAllMissesNone(w: World, a: Answers)
    requires Sound(w) && GroupsAll(w, a)
    ensures !Misses(w, a)
  {
    hide Sound, Stage, Reached;
    if w.data.None? {
      FirstSync(0, Start(w), a);
    } else
    if Reached(0, 10, Start(w), a).Some? {
      var d := Reached(0, 10, Start(w), a).value;
      StartStage(w);
      ReachedKept(0, 10, Start(w), a);
      PodsThroughRollout(w, 10, a);
      ReachedEarlier(0, 3, 10, Start(w), a);
      ReachedKept(0, 3, Start(w), a);
      ReachedKept(3, 10, Reached(0, 3, Start(w), a).value, a);
      CopyRead(3, Reached(0, 3, Start(w), a).value);
      assert d.data == w.data;
      CopyMatches(10, d);
      AddNodeOutcome(d, a);
    }
  }

  lemma CopyMatches(j: nat, c: Ctx)
    requires j > 2 && Stage(j, c)
    ensures c.data.Some? && SameObject(c.data, c.w.data)
  {
  }

  lemma {:induction false} GroupingMissesNone(spec: Spec, redundancy: nat, steps: seq<Step>)
    requires redundancy > 0 && GroupingRun(Initial(spec, redundancy), steps)
    ensures !Missed(Initial(spec, redundancy), steps)
    decreases |steps|
  {
    hide GroupsMade, Misses, After, GroupsAll, Sound;
    if steps != [] {
      var n := |steps| - 1;
      var w0 := Initial(spec, redundancy);
      GroupingPrefix(w0, steps, n);
      GroupingMissesNone(spec, redundancy, steps[..n]);
      if steps[n].SyncStep? {
        AlwaysSound(spec, redundancy, steps[..n]);
        GroupsAllMissesNone(After(w0, steps[..n]), steps[n].answers);
      }
    }
  }
}
