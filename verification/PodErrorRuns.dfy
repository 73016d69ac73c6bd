/**
 What holds over every run, with pod errors, early patches under a sync error, and failing calls.
 */
module PodErrorRuns {
  import opened Wrappers
  import opened StatefulSets
  import opened Reconcile
  import opened ReconcileRuns
  import opened ReconcileSuccess
  import opened ReconcileUpdates
  import ClusterStatus
  import Rollout

  // ----- the invariant

  /** Data nodes come in full groups; pods and groups are those of started nodes. */
  predicate InRange(w: World)
    requires w.redundancy > 0
  {
    && (w.data.None? ==> w.pods == map[])
    && (w.data.Some? ==>
          var n := w.data.value.replicas;
          && 0 < n && n % w.redundancy == 0
          && (forall o :: o in w.pods ==> 0 <= o < n) && (forall o :: o in w.inducted ==> 0 <= o < n))
  }

  /** A StatefulSet that carries the generation of the config map is built from its specification. */
  predicate DataStands(data: Option<StatefulSet>, cm: ConfigMap) {
    data.Some? ==>
      var s := data.value;
      && s.replicas <= cm.spec.numData
      && (s.applied == cm.generation ==>
            && s.template == FinalTemplate(cm).(initial := s.template.initial)
            && (cm.initialRestart ==> s.template.initial)
            && (!s.addNode ==> s.replicas == cm.spec.numData)
            && (s.template.initial && !cm.initialRestart ==> !s.addNode))
  }

  predicate MysqldStands(mysqld: Option<StatefulSet>, cm: ConfigMap) {
    mysqld.Some? && mysqld.value.applied == cm.generation ==> mysqld.value.replicas == cm.spec.numMySQL
  }

  /** Without a sync error the config map is behind only when everything carries the processed generation. */
  predicate ConfigStands(w: World, cm: ConfigMap)
    requires w.redundancy > 0
  {
    && ValidSpec(cm.spec, w.redundancy) && Renderable(cm.spec) && cm.spec.numData <= w.ndb.spec.numData
    && (cm.generation == w.ndb.generation ==> cm.spec == w.ndb.spec)
    && (cm.generation != w.ndb.generation && !w.ndb.syncError ==> cm.generation == w.ndb.processed)
    && (cm.generation == w.ndb.processed ==> Settled(w, cm))
    && DataStands(w.data, cm) && MysqldStands(w.mysqld, cm)
  }

  ghost predicate Standing(w: World) {
    && Sound(w) && w.redundancy > 0 && ValidSpec(w.ndb.spec, w.redundancy) && CreatedInOrder(w) && InRange(w)
    && (w.cm.Some? ==> ConfigStands(w, w.cm.value))
  }

  /** Facts that hold when phase `i` starts. */
  ghost predicate StandingStage(i: nat, c: Ctx) {
    && Standing(c.w) && Stage(i, c)
    && (i > 0 && c.w.ndb.syncError ==> c.cs.generation == c.w.ndb.generation)
    && (i > 7 && c.w.data.value.template.initial ==> c.cs.initialRestart)
    && (i > 9 ==> c.w.mysqld.Some?)
  }

  /** A sync that does not fail under a sync error has brought the config map up to date. */
  predicate UpToDateUnderError(w: World) {
    w.ndb.syncError ==> w.cm.Some? && w.cm.value.generation == w.ndb.generation
  }

  ghost predicate StaysStanding(i: nat, r: (Ctx, Reconcile.Result)) {
    && Standing(r.0.w)
    && (r.1 == Continue ==> i < LAST && StandingStage(i + 1, r.0))
    && (r.1 != Error ==> UpToDateUnderError(r.0.w))
  }

  // ----- phases

  lemma ConfigBehind(w: World)
    requires Standing(w) && w.cm.Some?
    ensures w.redundancy > 0 && ConfigStands(w, w.cm.value) && InRange(w) && CreatedInOrder(w) && ValidSpec(w.ndb.spec, w.redundancy)
    ensures w.ndb.processed <= w.cm.value.generation <= w.ndb.generation && 0 < w.cm.value.generation
    ensures AppliedUpTo(w.mgmd, w.cm.value.generation) && AppliedUpTo(w.data, w.cm.value.generation)
            && AppliedUpTo(w.mysqld, w.cm.value.generation)
  {
    ConfigMapIsBehind(w);
  }

  lemma SpecifiedOnce(w: World)
    requires Sound(w)
    ensures w.ndb.generation > 0
  {
  }

  lemma NothingReadYet(c: Ctx)
    requires Stage(0, c)
    ensures c.data.None?
  {
  }

  lemma StandingConfig(c: Ctx, a: Answers)
    requires StandingStage(0, c)
    ensures StaysStanding(0, Phase(0, c, a))
  {
    hide Sound, Stage, ConfigFirst;
    EarlyStages(0, c, a);
    ConfigMapIsBehind(c.w);
    SpecifiedOnce(c.w);
    NothingReadYet(c);
  }

  lemma StandingMgmd(c: Ctx, a: Answers)
    requires StandingStage(1, c)
    ensures StaysStanding(1, Phase(1, c, a))
  {
    hide Sound, Stage, ConfigFirst, UpdateComplete, Patched;
    EarlyStages(1, c, a);
    StageIsOriented(1, c);
    ConfigBehind(c.w);
    if c.w.mgmd.Some? {
      ExactPatch(c.w.mgmd, c.w.mgmd.value, Rebuilt(c.w.mgmd.value, NewMgmd(c.cs, c.w)), PatchMgmd in a.fails);
    }
  }

  /** Patching the data nodes' StatefulSet, in either phase that may do it. */
  lemma StandingDataPatch(c: Ctx, a: Answers)
    requires Standing(c.w) && c.w.cm == Some(c.cs) && c.data.Some? && c.data == c.w.data
    requires c.cs.generation == c.w.ndb.generation || !c.w.ndb.syncError
    ensures var (c', r) := ReconcileData(c, a);
            && c'.w == c.w.(data := c'.w.data) && c' == c.(w := c'.w) && c'.w.data.Some?
            && DataStands(c'.w.data, c.cs) && InRange(c'.w)
            && (c.cs.generation == c.w.ndb.processed ==> c'.w == c.w)
            && (r == Continue ==> (c'.w.data.value.template.initial ==> c.cs.initialRestart))
  {
    hide Sound;
    ConfigBehind(c.w);
    var s := c.data.value;
    if !(HasGeneration(s, c.cs.generation) && !(s.template.initial && !c.cs.initialRestart)) {
      ExactPatch(c.w.data, s, RebuiltData(s, c.cs, c.w), PatchData in a.fails);
    }
  }

  lemma StandingData(c: Ctx, a: Answers)
    requires StandingStage(2, c)
    ensures StaysStanding(2, Phase(2, c, a))
  {
    hide Sound, Stage, ConfigFirst, UpdateComplete, Patched, ReconcileData, ClusterStatus.Range;
    EarlyStages(2, c, a);
    StageIsOriented(2, c);
    ConfigBehind(c.w);
    ClusterStatus.RangeIs(c.cs.spec.numData);
    if c.w.data.Some? {
      StandingDataPatch(c.(data := c.w.data), a);
    }
  }

  lemma StandingReads(i: nat, c: Ctx, a: Answers)
    requires 3 <= i <= 4 && StandingStage(i, c)
    ensures StaysStanding(i, Phase(i, c, a))
  {
    hide Sound, Stage, ConfigFirst, UpdateComplete, Ready, ConfigStands, InRange;
    MiddleStages(i, c, a);
    StageIsOriented(i, c);
  }

  lemma StandingScaleDown(c: Ctx, a: Answers)
    requires StandingStage(5, c)
    ensures StaysStanding(5, Phase(5, c, a))
  {
    hide Sound, Stage, ConfigFirst, UpdateComplete, DataStands, Patched;
    MiddleStages(5, c, a);
    StageIsOriented(5, c);
    ConfigBehind(c.w);
    if c.mysqld.Some? {
      ExactPatch(c.w.mysqld, c.mysqld.value, c.mysqld.value.(replicas := c.cs.spec.numMySQL), PatchMysqld in a.fails);
    }
  }

  lemma StandingUpdateMgmd(c: Ctx, a: Answers)
    requires StandingStage(6, c)
    ensures StaysStanding(6, Phase(6, c, a))
  {
    hide Sound, Stage, ConfigFirst, UpdateComplete, DataStands, Patched;
    MiddleStages(6, c, a);
    StageIsOriented(6, c);
    ConfigBehind(c.w);
    ExactPatch(c.w.mgmd, c.mgmd.value, Rebuilt(c.mgmd.value, NewMgmd(c.cs, c.w)), PatchMgmd in a.fails);
  }

  lemma StandingReconcileData(c: Ctx, a: Answers)
    requires StandingStage(7, c)
    ensures StaysStanding(7, Phase(7, c, a))
  {
    hide Sound, Stage, ConfigFirst, UpdateComplete, ReconcileData;
    LateStages(7, c, a);
    StageIsOriented(7, c);
    ConfigBehind(c.w);
    StandingDataPatch(c, a);
  }

  lemma StandingPods(c: Ctx, a: Answers)
    requires StandingStage(8, c)
    ensures StaysStanding(8, Phase(8, c, a))
  {
    hide Sound, Stage, ConfigFirst, UpdateComplete, Rollout.EnsurePods, DataStands;
    LateStages(8, c, a);
    StageIsOriented(8, c);
  }

  lemma StandingMysqld(c: Ctx, a: Answers)
    requires StandingStage(9, c)
    ensures StaysStanding(9, Phase(9, c, a))
  {
    hide Sound, Stage, ConfigFirst, DataStands, Patched;
    LateStages(9, c, a);
    StageIsOriented(9, c);
    ConfigBehind(c.w);
    if c.mysqld.Some? {
      ExactPatch(c.w.mysqld, c.mysqld.value, Rebuilt(c.mysqld.value, NewMysqld(c.cs, c.w)), PatchMysqld in a.fails);
    }
  }

  /** New nodes are started, or grouped, or not announced any more. */
  lemma AddNodeEffects(c: Ctx, a: Answers)
    requires c.data.Some? && SameObject(c.data, c.w.data)
    ensures var (c', r) := HandleAddNode(c, a);
            && c' == c.(w := c.w.(data := c'.w.data, inducted := c'.w.inducted))
            && c.w.inducted <= c'.w.inducted <= c.w.inducted + c.w.pods.Keys
            && c'.w.data.Some?
            && var s, t := c.w.data.value, c'.w.data.value;
               || t == s
               || (t == s.(replicas := c.cs.spec.numData, generation := t.generation) && c.data.value.addNode && r == Finish)
               || (t == s.(addNode := false) && s.replicas == c.cs.spec.numData)
  {
    hide Patched;
    var s := c.data.value;
    if s.addNode {
      if s.replicas != c.cs.spec.numData {
        ScalePatch(c.w.data, s, c.cs.spec.numData, ScaleData in a.fails);
      }
      ClearPatch(c.w.data, s, ClearAddNode in a.fails);
    }
  }

  lemma StandingAddNode(c: Ctx, a: Answers)
    requires StandingStage(10, c)
    ensures StaysStanding(10, Phase(10, c, a))
  {
    hide Sound, Stage, ConfigFirst, UpdateComplete, HandleAddNode;
    LateStages(10, c, a);
    StageIsOriented(10, c);
    ConfigBehind(c.w);
    AddNodeEffects(c, a);
  }

  lemma ScalePatch(stored: Option<StatefulSet>, s: StatefulSet, n: nat, fails: bool)
    requires SameObject(Some(s), stored) && s.replicas != n
    ensures Patched(stored, s, s.(replicas := n), fails)
         == if fails then (stored, Error)
            else (Some(stored.value.(replicas := n, generation := stored.value.generation + 1)), Finish)
  {
  }

  lemma ClearPatch(stored: Option<StatefulSet>, s: StatefulSet, fails: bool)
    requires SameObject(Some(s), stored) && s.addNode
    ensures Patched(stored, s, s.(addNode := false), fails)
         == if fails then (stored, Error) else (Some(stored.value.(addNode := false)), Continue)
  {
  }

  lemma StandingRoot(c: Ctx, a: Answers)
    requires StandingStage(11, c)
    ensures StaysStanding(11, Phase(11, c, a))
  {
    hide Sound, Stage, ConfigFirst, UpdateComplete, DataStands, Patched;
    LateStages(11, c, a);
    StageIsOriented(11, c);
    ConfigBehind(c.w);
    if c.mysqld.Some? {
      var s := c.mysqld.value;
      AnnotationPatch(c.w.mysqld, s, s.(rootHost := Some(c.w.ndb.spec.rootHost), rootGen := Some(c.cs.generation)), PatchRoot in a.fails);
    }
  }

  lemma StandingFinish(c: Ctx, a: Answers)
    requires StandingStage(LAST, c)
    ensures StaysStanding(LAST, Phase(LAST, c, a))
    ensures var (c', r) := Phase(LAST, c, a);
            c'.success ==> InSync(c'.w) && c'.w.cm.Some? && Settled(c'.w, c'.w.cm.value)
  {
    hide Sound, Stage, ConfigFirst, UpdateComplete, Ready;
    LastStage(c, a);
    StageIsOriented(LAST, c);
    ConfigBehind(c.w);
  }

  // ----- every run

  lemma StandingPhase(i: nat, c: Ctx, a: Answers)
    requires i <= LAST && StandingStage(i, c)
    ensures StaysStanding(i, Phase(i, c, a))
  {
    hide Phase, StandingStage, StaysStanding;
    match i
    case 0 => StandingConfig(c, a);
    case 1 => StandingMgmd(c, a);
    case 2 => StandingData(c, a);
    case 3 => StandingReads(3, c, a);
    case 4 => StandingReads(4, c, a);
    case 5 => StandingScaleDown(c, a);
    case 6 => StandingUpdateMgmd(c, a);
    case 7 => StandingReconcileData(c, a);
    case 8 => StandingPods(c, a);
    case 9 => StandingMysqld(c, a);
    case 10 => StandingAddNode(c, a);
    case 11 => StandingRoot(c, a);
    case _ => StandingFinish(c, a);
  }

  lemma {:induction false} StandingRun(i: nat, c: Ctx, a: Answers)
    requires i <= LAST && StandingStage(i, c)
    ensures var (c', r) := RunFrom(i, c, a);
            && Standing(c'.w) && (r != Error ==> UpToDateUnderError(c'.w))
            && (c'.success ==> InSync(c'.w) && c'.w.cm.Some? && Settled(c'.w, c'.w.cm.value))
    decreases LAST - i
  {
    hide Phase, Standing, StandingStage, UpToDateUnderError, InSync, Settled, Sound, Stage;
    StandingPhase(i, c, a);
    if i == LAST {
      StandingFinish(c, a);
    } else if Phase(i, c, a).1 == Continue {
      StandingRun(i + 1, Phase(i, c, a).0, a);
    } else {
      assert Sound(c.w) && Stage(i, c) by { StandingMeans(i, c); }
      NoSuccessYet(i, c, a);
    }
  }

  lemma StandingMeans(i: nat, c: Ctx)
    requires StandingStage(i, c)
    ensures Sound(c.w) && Stage(i, c)
  {
  }

  lemma StandingReport(c: Ctx, r: Reconcile.Result, a: Answers)
    requires Standing(c.w) && (r != Error ==> UpToDateUnderError(c.w))
    requires c.success ==> InSync(c.w) && c.w.cm.Some? && Settled(c.w, c.w.cm.value)
    ensures Standing(Reported(c, r, a))
  {
    hide Sound, DataStands, ConfigFirst;
    SoundReport(c, r, a);
    ConfigMapIsBehind(c.w);
  }

  lemma SoundReport(c: Ctx, r: Reconcile.Result, a: Answers)
    requires Sound(c.w) && (c.success ==> InSync(c.w))
    ensures Sound(Reported(c, r, a))
  {
  }

  lemma SyncStands(w: World, a: Answers)
    requires Standing(w)
    ensures Standing(SyncHandler(w, a))
  {
    hide Standing, RunFrom, Reported, UpToDateUnderError, InSync, Settled;
    assert StandingStage(0, Start(w)) by { StandingStart(w); }
    StandingRun(0, Start(w), a);
    StandingReport(Sync(w, a).0, Sync(w, a).1, a);
  }

  lemma StandingStart(w: World)
    requires Standing(w)
    ensures StandingStage(0, Start(w))
  {
    hide Standing;
  }

  lemma StandingStep(w: World, step: Step)
    requires Standing(w)
    ensures w.redundancy > 0 && Standing(Next(w, step))
  {
    hide SyncHandler, Sound, ConfigFirst, UpToDate;
    if step.SyncStep? {
      SyncStands(w, step.answers);
    } else {
      StepIsSound(w, step);
      ConfigMapIsBehind(w);
    }
  }

  lemma StartsStanding(spec: Spec, redundancy: nat)
    requires redundancy > 0 && ValidSpec(spec, redundancy)
    ensures Standing(Initial(spec, redundancy))
  {
    StartsSound(spec, redundancy);
  }

  /**
   In every run, with or without pod errors, whatever fails: the config map holds a specification
   for which a configuration can be generated; a workload that carries its generation is built from it; without a sync error the config
   map is behind the specification only when everything carries the processed generation; and
   data nodes come in full groups.
   */
  lemma {:induction false} AlwaysStanding(spec: Spec, redundancy: nat, steps: seq<Step>)
    requires redundancy > 0 && ValidSpec(spec, redundancy)
    ensures Standing(After(Initial(spec, redundancy), steps))
    decreases |steps|
  {
    hide Next, Standing;
    if steps == [] {
      StartsStanding(spec, redundancy);
    } else {
      var n := |steps| - 1;
      AlwaysStanding(spec, redundancy, steps[..n]);
      StandingStep(After(Initial(spec, redundancy), steps[..n]), steps[n]);
    }
  }

  /** A sync that does not fail, during which no pod has an error, leaves a state without a sync error. */
  lemma ErrorsCease(w: World, a: Answers)
    requires Standing(w) && Sync(w, a).1 != Error && !a.podErrors && !a.statusUpdateFails
    ensures Standing(SyncHandler(w, a)) && !SyncHandler(w, a).ndb.syncError
  {
    hide Standing, Sync;
    SyncStands(w, a);
  }
}
