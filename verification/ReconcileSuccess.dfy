/**
 What a sync that reports success has established, in every run.
 */
module ReconcileSuccess {
  import opened Wrappers
  import opened StatefulSets
  import opened Reconcile
  import opened ReconcileRuns
  import Rollout

  // ----- invariants of the objects

  /** The in-memory copy of a StatefulSet differs from the stored one at most in its annotations. */
  predicate SameObject(copy: Option<StatefulSet>, stored: Option<StatefulSet>) {
    && (copy.Some? <==> stored.Some?)
    && (copy.Some? ==>
          && copy.value.generation == stored.value.generation && copy.value.replicas == stored.value.replicas
          && copy.value.template == stored.value.template && copy.value.status == stored.value.status
          && copy.value.onDelete == stored.value.onDelete)
  }

  /** The root user is never marked for a generation that the StatefulSet itself has not got. */
  predicate RootBehind(s: Option<StatefulSet>) {
    s.Some? && s.value.rootGen.Some? ==> s.value.rootGen.value <= s.value.applied
  }

  /** Data nodes that the current config.ini declares but that do not run yet are announced by the annotation. */
  predicate AdditionAnnounced(data: Option<StatefulSet>, cm: ConfigMap) {
    data.Some? ==>
      && data.value.template.version <= cm.version
      && (data.value.template.version == cm.version ==> data.value.replicas >= cm.spec.numData || data.value.addNode)
  }

  /** What the status of the data nodes says about the pods, once it is about the current object. */
  ghost predicate StatusSound(w: World) {
    w.data.Some? ==>
      var s := w.data.value;
      && s.status.observed <= s.generation && s.onDelete
      && (s.status.observed == s.generation ==>
            && s.status.updateRevision == s.template
            && (s.status.updated == s.replicas == s.status.replicas ==> forall o :: o in w.pods ==> w.pods[o] == s.template))
  }

  ghost predicate Sound(w: World) {
    && ConfigFirst(w) && RootBehind(w.mysqld) && StatusSound(w)
    && (w.cm.Some? ==> AdditionAnnounced(w.data, w.cm.value))
  }

  // ----- what each phase has established when the next one starts

  /** Facts that hold when phase `i` starts. */
  ghost predicate Stage(i: nat, c: Ctx) {
    && (i > 0 ==> Oriented(c))
    && (i > 1 ==> c.w.mgmd.Some? && SameObject(c.mgmd, c.w.mgmd))
    && (i > 2 ==> c.w.data.Some? && SameObject(c.data, c.w.data))
    && (1 < i <= 6 ==> c.mgmd == c.w.mgmd)
    && (2 < i <= 7 ==> c.data == c.w.data)
    && (i > 3 ==> SameObject(c.mysqld, c.w.mysqld) && RootBehind(c.mysqld))
    && (3 < i <= 9 ==> c.mysqld == c.w.mysqld)
    && (i > 6 ==> c.w.mgmd.value.applied == c.cs.generation)
    && (i > 7 ==>
          && c.w.data.value.applied == c.cs.generation
          && (!c.data.value.addNode ==> !c.w.data.value.addNode))
    && (i > 9 && c.w.mysqld.Some? ==>
          && c.w.mysqld.value.applied == c.cs.generation
          && (c.mysqld.value.rootGen != Some(c.cs.generation) || c.w.mysqld == c.mysqld))
    && (i > 10 ==> !c.w.data.value.addNode)
    && (i > 11 && c.w.mysqld.Some? ==> c.w.mysqld.value.rootGen == Some(c.cs.generation))
    && (i <= 1 ==> c.mgmd.None?)
    && (i <= 2 ==> c.data.None?)
    && (i <= 3 ==> c.mysqld.None?)
    && !c.success
  }

  lemma Unchanged(stored: Option<StatefulSet>, existing: StatefulSet, updated: StatefulSet, fails: bool)
    requires SameObject(Some(existing), stored)
    requires updated.generation == existing.generation && updated.status == existing.status && updated.onDelete == existing.onDelete
    ensures var (s, r) := Patched(stored, existing, updated, fails);
            && s.Some?
            && (r == Continue ==>
                  && SameObject(Some(existing), s) && updated.template == existing.template && updated.replicas == existing.replicas
                  && s.value.applied == (if updated.applied != existing.applied then updated.applied else stored.value.applied)
                  && s.value.addNode == (if updated.addNode != existing.addNode then updated.addNode else stored.value.addNode)
                  && s.value.rootGen == (if updated.rootGen != existing.rootGen then updated.rootGen else stored.value.rootGen))
            && (r == Finish ==>
                  && s.value.generation == existing.generation + 1
                  && s.value.template == updated.template && s.value.replicas == updated.replicas && s.value.status == existing.status
                  && s.value.onDelete == existing.onDelete)
            && (r == Error ==> s == stored)
  {
  }

  lemma EarlyStages(i: nat, c: Ctx, a: Answers)
    requires i <= 2 && Sound(c.w) && Stage(i, c)
    ensures var (c', r) := Phase(i, c, a); Sound(c'.w) && (r == Continue ==> Stage(i + 1, c')) && !c'.success
  {
    hide ConfigFirst, UpdateComplete, Ready, ReconcileMgmd, ReconcileData;
    ConfigFirstEarly(i, c, a);
    match i
    case 0 => ConfigStage(c, a);
    case 1 => MgmdStage(c, a);
    case 2 => DataStage(c, a);
  }

  lemma ConfigStage(c: Ctx, a: Answers)
    requires Sound(c.w) && Stage(0, c)
    ensures var (c', r) := EnsureConfig(c, a); Sound(c'.w) && (r == Continue ==> Stage(1, c')) && !c'.success
  {
    hide UpdateComplete, Ready;
    ConfigFirstEarly(0, c, a);
  }

  lemma MgmdStage(c: Ctx, a: Answers)
    requires Sound(c.w) && Stage(1, c)
    ensures var (c', r) := EnsureMgmd(c, a); Sound(c'.w) && (r == Continue ==> Stage(2, c')) && !c'.success
  {
    hide ConfigFirst, UpdateComplete, Ready, Patched;
    ConfigFirstEarly(1, c, a);
  }

  /** RebuiltData announces new data nodes, so patching with it keeps the announcement right. */
  lemma DataPatchAnnounces(c: Ctx, a: Answers)
    requires Sound(c.w) && c.w.cm == Some(c.cs) && c.data.Some? && c.data == c.w.data
    ensures var (c', r) := ReconcileData(c, a);
            && AdditionAnnounced(c'.w.data, c.cs) && StatusSound(c'.w) && c'.w.data.Some?
            && (r == Continue ==>
                  && SameObject(c.data, c'.w.data)
                  && c'.w.data.value.applied == c.cs.generation
                  && (!c.data.value.addNode ==> !c'.w.data.value.addNode)
                  && (c'.w.data.value.template.initial ==> c.cs.initialRestart))
            && c'.w == c.w.(data := c'.w.data) && c' == c.(w := c'.w)
  {
    hide ConfigFirst;
    if !(HasGeneration(c.data.value, c.cs.generation) && !(c.data.value.template.initial && !c.cs.initialRestart)) {
      Unchanged(c.w.data, c.data.value, RebuiltData(c.data.value, c.cs, c.w), PatchData in a.fails);
    }
  }

  lemma DataStage(c: Ctx, a: Answers)
    requires Sound(c.w) && Stage(2, c)
    ensures var (c', r) := EnsureData(c, a); Sound(c'.w) && (r == Continue ==> Stage(3, c')) && !c'.success
  {
    hide ConfigFirst, UpdateComplete, Ready, ReconcileData, HasGeneration;
    ConfigFirstEarly(2, c, a);
    if c.w.data.Some? {
      DataPatchAnnounces(c.(data := c.w.data), a);
    }
  }

  lemma MiddleStages(i: nat, c: Ctx, a: Answers)
    requires 3 <= i <= 6 && Sound(c.w) && Stage(i, c)
    ensures var (c', r) := Phase(i, c, a); Sound(c'.w) && (r == Continue ==> Stage(i + 1, c')) && !c'.success
  {
    hide ConfigFirst, UpdateComplete, Ready, Patched;
    match i
    case 3 => ConfigFirstEarly(3, c, a);
    case 4 => ConfigFirstEarly(4, c, a);
    case 5 =>
      ConfigFirstEarly(5, c, a);
      if c.mysqld.Some? && c.mysqld.value.status.replicas > c.cs.spec.numMySQL {
        ScaleKeepsRoot(c, a);
      }
    case 6 =>
      ConfigFirstLate(6, c, a);
      Unchanged(c.w.mgmd, c.mgmd.value, Rebuilt(c.mgmd.value, NewMgmd(c.cs, c.w)), PatchMgmd in a.fails);
  }

  lemma ScaleKeepsRoot(c: Ctx, a: Answers)
    requires c.mysqld.Some? && c.mysqld == c.w.mysqld && RootBehind(c.w.mysqld)
    requires c.mysqld.value.status.replicas > c.cs.spec.numMySQL
    ensures var s := c.mysqld.value;
            var (t, r) := Patched(c.w.mysqld, s, s.(replicas := c.cs.spec.numMySQL), PatchMysqld in a.fails);
            && RootBehind(t) && t.Some?
            && (r == Continue ==> t == c.mysqld)
  {
  }

  lemma LateStages(i: nat, c: Ctx, a: Answers)
    requires 7 <= i < LAST && Sound(c.w) && Stage(i, c)
    ensures var (c', r) := Phase(i, c, a); Sound(c'.w) && (r == Continue ==> Stage(i + 1, c')) && !c'.success
  {
    hide ConfigFirst, UpdateComplete, Ready, Patched, ReconcileData, Rollout.EnsurePods;
    ConfigFirstLate(i, c, a);
    match i
    case 7 => DataPatchAnnounces(c, a);
    case 8 =>
    case 9 =>
      if c.mysqld.Some? && !HasGeneration(c.mysqld.value, c.cs.generation) {
        MysqldPatch(c, a);
      }
    case 10 => AddNodeStage(c, a);
    case 11 => RootStage(c, a);
  }

  lemma MysqldPatch(c: Ctx, a: Answers)
    requires Oriented(c) && c.mysqld.Some? && c.mysqld == c.w.mysqld && RootBehind(c.w.mysqld)
    requires !HasGeneration(c.mysqld.value, c.cs.generation)
    ensures var s := c.mysqld.value;
            var (t, r) := Patched(c.w.mysqld, s, Rebuilt(s, NewMysqld(c.cs, c.w)), PatchMysqld in a.fails);
            && RootBehind(t) && t.Some?
            && (r == Continue ==> SameObject(c.mysqld, t) && t.value.applied == c.cs.generation)
            && s.rootGen != Some(c.cs.generation)
  {
  }

  lemma AddNodeStage(c: Ctx, a: Answers)
    requires Sound(c.w) && Stage(10, c)
    ensures var (c', r) := HandleAddNode(c, a); Sound(c'.w) && (r == Continue ==> Stage(11, c')) && !c'.success
  {
    hide ConfigFirst, UpdateComplete, Ready, Patched;
    ConfigFirstLate(10, c, a);
    var s := c.data.value;
    Unchanged(c.w.data, s, s.(replicas := c.cs.spec.numData), ScaleData in a.fails);
    if s.replicas != c.cs.spec.numData {
      ScaledAnnounces(c.w.data, s, c.cs, ScaleData in a.fails);
    } else {
      Unchanged(c.w.data, s, s.(addNode := false), ClearAddNode in a.fails);
    }
  }

  lemma ScaledAnnounces(stored: Option<StatefulSet>, s: StatefulSet, cs: ConfigMap, fails: bool)
    requires SameObject(Some(s), stored) && AdditionAnnounced(stored, cs) && s.replicas != cs.spec.numData
    ensures var (t, r) := Patched(stored, s, s.(replicas := cs.spec.numData), fails); AdditionAnnounced(t, cs) && r != Continue
  {
  }

  lemma RootStage(c: Ctx, a: Answers)
    requires Sound(c.w) && Stage(11, c)
    ensures var (c', r) := ReconcileRoot(c, a); Sound(c'.w) && (r == Continue ==> Stage(12, c')) && !c'.success
  {
    hide ConfigFirst, UpdateComplete, Ready, Patched;
    ConfigFirstLate(11, c, a);
    GenerationPositive(c);
    if c.mysqld.Some? && c.mysqld.value.rootGen != Some(c.cs.generation) {
      var s := c.mysqld.value;
      RootPatch(c.w.mysqld, s, c.w.ndb.spec.rootHost, c.cs.generation, PatchRoot in a.fails);
    }
  }

  lemma GenerationPositive(c: Ctx)
    requires ConfigFirst(c.w) && Oriented(c)
    ensures c.cs.generation > 0
  {
  }

  lemma RootPatch(stored: Option<StatefulSet>, s: StatefulSet, host: string, g: nat, fails: bool)
    requires SameObject(Some(s), stored) && stored.value.applied == g && RootBehind(stored) && s.rootGen != Some(g)
    ensures var (t, r) := Patched(stored, s, s.(rootHost := Some(host), rootGen := Some(g)), fails);
            && RootBehind(t) && t.Some?
            && (r == Continue ==> SameObject(Some(s), t) && t.value.rootGen == Some(g) && t.value.applied == g)
  {
  }

  lemma LastStage(c: Ctx, a: Answers)
    requires Sound(c.w) && Stage(LAST, c)
    ensures var (c', r) := Phase(LAST, c, a); Sound(c'.w) && (c'.success ==> InSync(c'.w) && r == Finish)
  {
    hide UpdateComplete, Ready, Patched;
    ConfigFirstLate(LAST, c, a);
  }

  // ----- success

  /** Everything carries the generation of the specification, and nothing is under way. */
  ghost predicate InSync(w: World) {
    && w.cm.Some? && w.cm.value.generation == w.ndb.generation
    && w.mgmd.Some? && w.mgmd.value.applied == w.ndb.generation
    && w.data.Some? && w.data.value.applied == w.ndb.generation
    && !w.data.value.addNode && !w.data.value.template.initial
    && (w.mysqld.Some? ==> w.mysqld.value.applied == w.ndb.generation && w.mysqld.value.rootGen == Some(w.ndb.generation))
  }

  lemma {:induction false} SyncSucceedsInSync(i: nat, c: Ctx, a: Answers)
    requires i <= LAST && Sound(c.w) && Stage(i, c)
    ensures var (c', r) := RunFrom(i, c, a); Sound(c'.w) && (c'.success ==> InSync(c'.w) && r == Finish)
    decreases LAST - i
  {
    hide Phase, Sound, Stage, InSync;
    if i == LAST {
      LastStage(c, a);
    } else {
      if i <= 2 {
        EarlyStages(i, c, a);
      } else if i <= 6 {
        MiddleStages(i, c, a);
      } else {
        LateStages(i, c, a);
      }
      if Phase(i, c, a).1 == Continue {
        SyncSucceedsInSync(i + 1, Phase(i, c, a).0, a);
      }
    }
  }

  // ----- every run

  lemma {:induction false} SameSizeSubset(a: set<int>, b: set<int>)
    requires a <= b && |a| == |b|
    ensures a == b
  {
    assert b == a + (b - a);
  }

  lemma ObservationIsSound(w: World, ready: nat)
    requires w.redundancy > 0 && StatusSound(w)
    ensures StatusSound(Next(w, ObserveData(ready)))
  {
    if w.data.Some? {
      var t := w.data.value.template;
      if |UpToDate(w.pods, t)| == |w.pods| {
        assert |w.pods.Keys| == |w.pods|;
        SameSizeSubset(UpToDate(w.pods, t), w.pods.Keys);
        forall o | o in w.pods ensures w.pods[o] == t {
          assert o in UpToDate(w.pods, t);
        }
      }
    }
  }

  lemma StepIsSound(w: World, step: Step)
    requires w.redundancy > 0 && Sound(w)
    ensures Sound(Next(w, step))
    ensures step.SyncStep? && Sync(w, step.answers).0.success ==> InSync(Sync(w, step.answers).0.w)
  {
    hide RunFrom, ConfigFirst, InSync;
    StepIsConfigFirst(w, step);
    if step.SyncStep? {
      SyncSucceedsInSync(0, Start(w), step.answers);
      RunKeepsRedundancy(0, Start(w), step.answers);
    } else if step.ObserveData? {
      ObservationIsSound(w, step.ready);
    }
  }

  lemma {:induction false} AlwaysSound(spec: Spec, redundancy: nat, steps: seq<Step>)
    requires redundancy > 0
    ensures Sound(After(Initial(spec, redundancy), steps))
    decreases |steps|
  {
    hide Next, Sound;
    if steps == [] {
      StartsSound(spec, redundancy);
    } else {
      var n := |steps| - 1;
      AlwaysSound(spec, redundancy, steps[..n]);
      StepIsSound(After(Initial(spec, redundancy), steps[..n]), steps[n]);
    }
  }

  lemma StartsSound(spec: Spec, redundancy: nat)
    ensures Sound(Initial(spec, redundancy))
  {
  }

  /**
   In every run, with or without errors, a sync reports success only if the config map and every
   existing workload carry the generation of the specification, the root user has been brought to
   it, no data nodes are being added, and the data nodes' template is without --initial.
   */
  lemma SuccessMeansInSync(spec: Spec, redundancy: nat, steps: seq<Step>, a: Answers)
    requires redundancy > 0
    ensures var w := After(Initial(spec, redundancy), steps);
            Sync(w, a).0.success ==> InSync(Sync(w, a).0.w)
  {
    hide Sync, Next, Sound, InSync;
    AlwaysSound(spec, redundancy, steps);
    var w := After(Initial(spec, redundancy), steps);
    StepIsSound(w, SyncStep(a));
  }

  // ----- the pods

  /** Fresh reads: the cached pods are the pods, and every inducted node appears in a reported node group. */
  ghost predicate Informed(w: World, a: Answers) {
    && a.cache == w.pods
    && (a.status.Some? && !Rollout.AnyMissing(a.status.value) ==>
          forall o :: o in w.inducted ==> InGroup(Rollout.GroupsOf(a.status.value), w.redundancy, o, ManagementNodes(w)))
  }

  ghost predicate InGroup(groups: seq<seq<int>>, redundancy: nat, o: int, m: int) {
    exists j, c :: 0 <= j < |groups| && 0 <= c < redundancy && c < |groups[j]| && Rollout.OrdinalOf(groups[j][c], m) == o
  }

  ghost predicate PodsCurrent(w: World, nodes: set<int>) {
    w.data.Some? && forall o :: o in nodes && o in w.pods ==> w.pods[o] == w.data.value.template
  }

  ghost predicate Observed(w: World) {
    w.data.Some? ==> w.data.value.status.observed == w.data.value.generation
  }

  /** The rollout phase lets the sync continue only when the grouped pods run the current template. */
  lemma RolloutPasses(c: Ctx, a: Answers)
    requires Sound(c.w) && Stage(8, c) && Observed(c.w) && Informed(c.w, a)
    ensures var (c', r) := EnsureDataPods(c, a);
            r == Continue ==> PodsCurrent(c'.w, c.w.inducted) && c'.w.pods == c.w.pods
  {
    hide ConfigFirst, InGroup;
    var s := c.data.value;
    var m := ManagementNodes(c.w);
    var view := Rollout.View(a.cache, s.status.updateRevision, a.refusing, m);
    var (gone, outcome) := Rollout.EnsurePods(UpdateComplete(s), a.status, c.w.redundancy, view);
    if outcome == Rollout.Continue {
      if !UpdateComplete(s) {
        var groups := Rollout.GroupsOf(a.status.value);
        Rollout.ContinueMeansClean(groups, 0, c.w.redundancy, view);
        forall o | o in c.w.inducted ensures o in c.w.pods && c.w.pods[o] == s.template {
          FoundClean(groups, c.w.redundancy, view, o);
        }
      }
      assert gone == [];
      assert Rollout.Ordinals([], m) == {};
    }
  }

  lemma FoundClean(groups: seq<seq<int>>, redundancy: nat, v: Rollout.View, o: int)
    requires InGroup(groups, redundancy, o, v.numOfManagementNodes)
    requires forall j, c :: 0 <= j < |groups| && 0 <= c < redundancy && c < |groups[j]| ==>
               var p := Rollout.OrdinalOf(groups[j][c], v.numOfManagementNodes); p in v.cache && v.cache[p] == v.desired
    ensures o in v.cache && v.cache[o] == v.desired
  {
  }

  /** Before the rollout phase pods and groups are left alone, after it the template is. */
  lemma PodsUntouched(i: nat, c: Ctx, a: Answers)
    requires i <= LAST && i != 8 && Sound(c.w) && Stage(i, c) && Phase(i, c, a).1 == Continue
    ensures var c' := Phase(i, c, a).0;
            && c'.w.pods == c.w.pods
            && (i < 8 ==> c'.w.inducted == c.w.inducted && (Observed(c.w) ==> Observed(c'.w)))
            && (i > 8 ==> c'.w.data.Some? && c'.w.data.value.template == c.w.data.value.template)
  {
    hide ConfigFirst, UpdateComplete, Ready, Patched, Rollout.EnsurePods;
    if i == 7 {
      DataPatchAnnounces(c, a);
    } else if i == 10 {
      var s := c.data.value;
      if s.replicas == c.cs.spec.numData {
        Unchanged(c.w.data, s, s.(addNode := false), ClearAddNode in a.fails);
      } else {
        ScaledAnnounces(c.w.data, s, c.cs, ScaleData in a.fails);
      }
    } else {
      DataUntouched(i, c, a);
    }
  }

  lemma DataUntouched(i: nat, c: Ctx, a: Answers)
    requires i <= LAST && i != 7 && i != 8 && i != 10 && Stage(i, c) && Phase(i, c, a).1 == Continue
    ensures var c' := Phase(i, c, a).0;
            c'.w.pods == c.w.pods && c'.w.inducted == c.w.inducted && c'.w.data == c.w.data
  {
    hide ConfigFirst, UpdateComplete, Ready, Patched, Rollout.EnsurePods;
  }

  lemma {:induction false} SuccessNeedsPods(i: nat, c: Ctx, a: Answers, nodes: set<int>)
    requires i <= LAST && Sound(c.w) && Stage(i, c)
    requires i <= 8 ==> Observed(c.w) && Informed(c.w, a) && nodes == c.w.inducted
    requires i > 8 ==> PodsCurrent(c.w, nodes)
    ensures var c' := RunFrom(i, c, a).0; c'.success ==> PodsCurrent(c'.w, nodes)
    decreases LAST - i
  {
    hide Phase, Sound, Stage, PodsCurrent, Observed, Informed;
    if i == LAST {
      LastKeepsPods(c, a, nodes);
    } else if Phase(i, c, a).1 == Continue {
      if i <= 2 {
        EarlyStages(i, c, a);
      } else if i <= 6 {
        MiddleStages(i, c, a);
      } else {
        LateStages(i, c, a);
      }
      if i == 8 {
        RolloutPhase(c, a);
      } else {
        PodsUntouched(i, c, a);
        PhaseKeepsRedundancy(i, c, a);
        StaysInformed(c, Phase(i, c, a).0, a, nodes);
      }
      SuccessNeedsPods(i + 1, Phase(i, c, a).0, a, nodes);
    } else {
      NoSuccessYet(i, c, a);
    }
  }

  lemma RolloutPhase(c: Ctx, a: Answers)
    requires Sound(c.w) && Stage(8, c) && Observed(c.w) && Informed(c.w, a) && Phase(8, c, a).1 == Continue
    ensures PodsCurrent(Phase(8, c, a).0.w, c.w.inducted)
  {
    RolloutPasses(c, a);
  }

  lemma NoSuccessYet(i: nat, c: Ctx, a: Answers)
    requires i < LAST && Sound(c.w) && Stage(i, c)
    ensures !Phase(i, c, a).0.success
  {
    hide Phase, Sound, Stage;
    if i <= 2 {
      EarlyStages(i, c, a);
    } else if i <= 6 {
      MiddleStages(i, c, a);
    } else {
      LateStages(i, c, a);
    }
  }

  lemma StaysInformed(c: Ctx, c': Ctx, a: Answers, nodes: set<int>)
    requires c'.w.pods == c.w.pods && c'.w.redundancy == c.w.redundancy
    ensures Informed(c.w, a) && c'.w.inducted == c.w.inducted ==> Informed(c'.w, a)
    ensures PodsCurrent(c.w, nodes) && c'.w.data.Some? && c'.w.data.value.template == c.w.data.value.template ==> PodsCurrent(c'.w, nodes)
  {
    hide InGroup;
  }

  lemma LastKeepsPods(c: Ctx, a: Answers, nodes: set<int>)
    requires PodsCurrent(c.w, nodes) && Stage(LAST, c)
    ensures var c' := Phase(LAST, c, a).0; c'.success ==> PodsCurrent(c'.w, nodes)
  {
  }

  /**
   With fresh reads, and once the StatefulSet controller has seen the data nodes' StatefulSet as
   it is, success also means that every inducted data node runs the current template.
   */
  lemma SuccessMeansPodsCurrent(spec: Spec, redundancy: nat, steps: seq<Step>, a: Answers)
    requires redundancy > 0
    requires var w := After(Initial(spec, redundancy), steps); Observed(w) && Informed(w, a)
    ensures var w := After(Initial(spec, redundancy), steps);
            Sync(w, a).0.success ==> PodsCurrent(Sync(w, a).0.w, w.inducted)
  {
    hide RunFrom, Next, Sound, PodsCurrent, Observed, Informed;
    AlwaysSound(spec, redundancy, steps);
    var w := After(Initial(spec, redundancy), steps);
    SuccessNeedsPods(0, Start(w), a, w.inducted);
  }
}
