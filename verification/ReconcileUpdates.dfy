/**
 Updates without sync errors: the strong invariants, over every run in which no pod reports an
 error. Calls to the API server may still fail at any point.
 */
module ReconcileUpdates {
  import opened Wrappers
  import opened StatefulSets
  import opened Reconcile
  import opened ReconcileRuns
  import opened ReconcileSuccess

  // ----- the invariant

  /** A workload carries the generation of the config map or the one before. */
  predicate AppliedRecently(s: Option<StatefulSet>, g: nat) {
    s.Some? ==> 0 < s.value.applied && g <= s.value.applied + 1
  }

  /** The state between updates: everything carries the processed generation. */
  predicate Settled(w: World, cm: ConfigMap) {
    && w.mgmd.Some? && w.mgmd.value.applied == cm.generation
    && w.data.Some? && w.data.value.applied == cm.generation
    && !w.data.value.addNode && !w.data.value.template.initial && !cm.initialRestart
    && w.mysqld.Some? && w.mysqld.value.applied == cm.generation
  }

  /** What data nodes run once the configuration is in effect. */
  function FinalTemplate(cm: ConfigMap): Template {
    Template(cm.version, 0, 0, cm.spec.tde, false, cm.spec.shape)
  }

  predicate DataInStep(data: Option<StatefulSet>, cm: ConfigMap) {
    data.Some? ==>
      var s := data.value;
      && s.replicas <= cm.spec.numData
      && (s.applied < cm.generation ==> !s.addNode && !s.template.initial && s.status.observed == s.generation)
      && (s.applied == cm.generation ==>
            && s.template == FinalTemplate(cm).(initial := s.template.initial)
            && (cm.initialRestart ==> s.template.initial)
            && (!s.addNode ==> s.replicas == cm.spec.numData)
            && (s.template.initial && !cm.initialRestart ==> !s.addNode))
  }

  /** What the status of the MySQL StatefulSet says about running servers, once it is about the current object. */
  predicate ServersSound(w: World) {
    w.mysqld.Some? ==>
      var s := w.mysqld.value;
      && s.status.observed <= s.generation
      && (s.status.observed == s.generation ==>
            w.ceiling <= s.replicas && (w.servers <= s.replicas || w.servers <= s.status.replicas))
  }

  predicate ServersInStep(w: World, cm: ConfigMap) {
    && (w.mysqld.None? ==> w.servers == 0 && w.ceiling == 0)
    && (w.mysqld.Some? ==> w.mysqld.value.template.pool <= cm.spec.pool)
    && (w.mgmd.Some? && w.mgmd.value.applied == cm.generation ==>
          && w.ceiling <= cm.spec.numMySQL && w.servers <= cm.spec.numMySQL
          && (w.mysqld.Some? ==> w.mysqld.value.replicas <= cm.spec.numMySQL))
  }

  predicate CreatedInOrder(w: World) {
    (w.mgmd.None? ==> w.data.None?) && (w.data.None? ==> w.mysqld.None?)
  }

  ghost predicate Calm(w: World) {
    && Sound(w) && w.redundancy > 0
    && !w.ndb.syncError && ValidSpec(w.ndb.spec, w.redundancy)
    && w.ndb.generation <= w.ndb.processed + 1
    && ServersSound(w) && CreatedInOrder(w)
    && match w.cm
       case None => w.ndb.generation == 1 && w.servers == 0 && w.ceiling == 0
       case Some(cm) =>
         && ValidSpec(cm.spec, w.redundancy)
         && cm.spec.numData <= w.ndb.spec.numData && cm.spec.pool <= w.ndb.spec.pool
         && (cm.generation == w.ndb.generation ==> cm.spec == w.ndb.spec)
         && (cm.generation == w.ndb.processed ==> Settled(w, cm))
         && AppliedRecently(w.mgmd, cm.generation) && AppliedRecently(w.data, cm.generation)
         && AppliedRecently(w.mysqld, cm.generation)
         && DataInStep(w.data, cm) && ServersInStep(w, cm)
  }

  /** Facts that hold when phase `i` starts, beyond those of every run. */
  ghost predicate CalmStage(i: nat, c: Ctx) {
    && Calm(c.w) && Stage(i, c)
    && (3 < i && c.mysqld.Some? ==> UpdateComplete(c.mysqld.value))
    && (4 < i && c.data.value.applied == c.cs.generation ==> Ready(c.data.value))
    && (5 < i && c.mysqld.Some? ==> c.mysqld.value.status.replicas <= c.cs.spec.numMySQL)
    && (7 < i ==>
          && c.data.value.status.observed == c.data.value.generation
          && (c.data.value.applied == c.cs.generation && i <= 10 ==> c.w.data == c.data)
          && (c.data.value.applied != c.cs.generation ==> !c.data.value.addNode && !c.data.value.template.initial)
          && (c.w.data.value.template.initial ==> c.cs.initialRestart))
    && (9 < i ==> c.w.mysqld.Some?)
  }

  // ----- patches, in a form that is cheap to use

  /** When the in-memory copy is exact, a successful patch stores the updated object. */
  lemma ExactPatch(stored: Option<StatefulSet>, existing: StatefulSet, updated: StatefulSet, fails: bool)
    requires stored == Some(existing)
    requires updated.generation == existing.generation && updated.status == existing.status && updated.onDelete == existing.onDelete
    ensures var (s, r) := Patched(stored, existing, updated, fails);
            && (fails ==> s == stored && r == Error)
            && (!fails ==>
                  && s == Some(updated.(generation := s.value.generation))
                  && (r == Continue <==> updated.replicas == existing.replicas && updated.template == existing.template)
                  && (r == Continue ==> s.value.generation == existing.generation)
                  && (r != Continue ==> r == Finish && s.value.generation == existing.generation + 1))
  {
  }

  // ----- phases

  lemma CalmConfig(c: Ctx, a: Answers)
    requires CalmStage(0, c)
    ensures var (c', r) := Phase(0, c, a); Calm(c'.w) && (r == Continue ==> CalmStage(1, c'))
  {
    hide Sound, Stage, ConfigFirst;
    EarlyStages(0, c, a);
    ConfigMapIsBehind(c.w);
  }

  lemma ConfigMapIsBehind(w: World)
    requires Sound(w)
    ensures w.ndb.processed <= w.ndb.generation
    ensures w.cm.Some? ==> w.ndb.processed <= w.cm.value.generation <= w.ndb.generation && 0 < w.cm.value.generation
    ensures w.cm.None? ==> w.mgmd.None? && w.data.None? && w.mysqld.None? && w.ndb.processed == 0
    ensures w.cm.Some? ==> AppliedUpTo(w.mgmd, w.cm.value.generation) && AppliedUpTo(w.data, w.cm.value.generation)
                           && AppliedUpTo(w.mysqld, w.cm.value.generation)
  {
  }

  lemma StageIsOriented(i: nat, c: Ctx)
    requires Stage(i, c) && i > 0
    ensures c.w.cm == Some(c.cs)
    ensures i > 1 ==> c.w.mgmd.Some? && c.mgmd.Some?
    ensures 1 < i <= 6 ==> c.mgmd == c.w.mgmd
    ensures i > 2 ==> c.w.data.Some? && c.data.Some?
    ensures 2 < i <= 7 ==> c.data == c.w.data
    ensures i > 2 ==> SameObject(c.data, c.w.data)
    ensures i > 3 ==> SameObject(c.mysqld, c.w.mysqld)
    ensures 3 < i <= 9 ==> c.mysqld == c.w.mysqld
    ensures i > 6 ==> c.w.mgmd.value.applied == c.cs.generation
    ensures i > 7 ==> c.w.data.value.applied == c.cs.generation
    ensures i > 9 && c.w.mysqld.Some? ==> c.w.mysqld.value.applied == c.cs.generation
    ensures i > 10 ==> !c.w.data.value.addNode
    ensures !c.success
  {
  }

  lemma CalmMgmd(c: Ctx, a: Answers)
    requires CalmStage(1, c)
    ensures var (c', r) := Phase(1, c, a); Calm(c'.w) && (r == Continue ==> CalmStage(2, c'))
  {
    hide Sound, Stage, ConfigFirst, UpdateComplete, Patched;
    EarlyStages(1, c, a);
    ConfigMapIsBehind(c.w);
    StageIsOriented(1, c);
  }

  /** Patching the data nodes' StatefulSet, in either phase that may do it. */
  lemma CalmDataPatch(c: Ctx, a: Answers)
    requires Calm(c.w) && c.w.cm == Some(c.cs) && c.data.Some? && c.data == c.w.data
    ensures var (c', r) := ReconcileData(c, a);
            && c'.w == c.w.(data := c'.w.data) && c' == c.(w := c'.w) && c'.w.data.Some?
            && DataInStep(c'.w.data, c.cs) && AppliedRecently(c'.w.data, c.cs.generation)
            && (c.cs.generation == c.w.ndb.processed ==> c'.w == c.w)
            && (r == Continue ==>
                  && (c.data.value.applied == c.cs.generation ==> c'.w.data == c.data)
                  && (c'.w.data.value.template.initial ==> c.cs.initialRestart))
  {
    hide Sound, ServersSound, ServersInStep;
    ConfigMapIsBehind(c.w);
    var s := c.data.value;
    if !(HasGeneration(s, c.cs.generation) && !(s.template.initial && !c.cs.initialRestart)) {
      ExactPatch(c.w.data, s, RebuiltData(s, c.cs, c.w), PatchData in a.fails);
    }
  }

  lemma CalmData(c: Ctx, a: Answers)
    requires CalmStage(2, c)
    ensures var (c', r) := Phase(2, c, a); Calm(c'.w) && (r == Continue ==> CalmStage(3, c'))
  {
    hide Sound, Stage, ConfigFirst, UpdateComplete, Patched, ReconcileData;
    EarlyStages(2, c, a);
    ConfigMapIsBehind(c.w);
    StageIsOriented(2, c);
    if c.w.data.Some? {
      CalmDataPatch(c.(data := c.w.data), a);
    }
  }

  lemma CalmReads(i: nat, c: Ctx, a: Answers)
    requires 3 <= i <= 4 && CalmStage(i, c)
    ensures var (c', r) := Phase(i, c, a); Calm(c'.w) && (r == Continue ==> CalmStage(i + 1, c'))
  {
    hide Sound, ConfigFirst, UpdateComplete, Ready;
    MiddleStages(i, c, a);
    StageIsOriented(i, c);
  }

  lemma CalmScaleDown(c: Ctx, a: Answers)
    requires CalmStage(5, c)
    ensures var (c', r) := Phase(5, c, a); Calm(c'.w) && (r == Continue ==> CalmStage(6, c'))
  {
    hide Sound, Stage, ConfigFirst, Ready, DataInStep;
    MiddleStages(5, c, a);
    StageIsOriented(5, c);
    ConfigMapIsBehind(c.w);
    if c.mysqld.Some? {
      ExactPatch(c.w.mysqld, c.mysqld.value, c.mysqld.value.(replicas := c.cs.spec.numMySQL), PatchMysqld in a.fails);
    }
  }

  /** Reaching the management nodes, no more servers run than are configured. */
  lemma ServersScaledDown(c: Ctx)
    requires CalmStage(6, c)
    ensures c.w.mysqld.None? || (UpdateComplete(c.w.mysqld.value) && c.w.mysqld.value.replicas <= c.cs.spec.numMySQL)
    ensures c.w.servers <= c.cs.spec.numMySQL && c.w.ceiling <= c.cs.spec.numMySQL
  {
    hide Sound, ConfigFirst, DataInStep;
  }

  lemma CalmUpdateMgmd(c: Ctx, a: Answers)
    requires CalmStage(6, c)
    ensures var (c', r) := Phase(6, c, a); Calm(c'.w) && (r == Continue ==> CalmStage(7, c'))
  {
    hide Sound, Stage, ConfigFirst, UpdateComplete, Ready, DataInStep;
    MiddleStages(6, c, a);
    StageIsOriented(6, c);
    ConfigMapIsBehind(c.w);
    ServersScaledDown(c);
    if !HasGeneration(c.mgmd.value, c.cs.generation) {
      ExactPatch(c.w.mgmd, c.mgmd.value, Rebuilt(c.mgmd.value, NewMgmd(c.cs, c.w)), PatchMgmd in a.fails);
    }
  }

  lemma CalmReconcileData(c: Ctx, a: Answers)
    requires CalmStage(7, c)
    ensures var (c', r) := Phase(7, c, a); Calm(c'.w) && (r == Continue ==> CalmStage(8, c'))
  {
    hide Sound, Stage, ConfigFirst, UpdateComplete, ReconcileData, ServersSound, ServersInStep;
    LateStages(7, c, a);
    StageIsOriented(7, c);
    ConfigMapIsBehind(c.w);
    CalmDataPatch(c, a);
    ServersUnaffected(c, a);
  }

  lemma ServersUnaffected(c: Ctx, a: Answers)
    requires c.w.cm == Some(c.cs) && c.data.Some? && ServersSound(c.w) && ServersInStep(c.w, c.cs)
    ensures var w' := ReconcileData(c, a).0.w; ServersSound(w') && ServersInStep(w', c.cs)
  {
    hide Patched;
  }

  lemma CalmPods(c: Ctx, a: Answers)
    requires CalmStage(8, c)
    ensures var (c', r) := Phase(8, c, a); Calm(c'.w) && (r == Continue ==> CalmStage(9, c'))
  {
    hide Sound, Stage, ConfigFirst, UpdateComplete, Ready, Rollout.EnsurePods;
    LateStages(8, c, a);
    StageIsOriented(8, c);
  }

  lemma CalmMysqld(c: Ctx, a: Answers)
    requires CalmStage(9, c)
    ensures var (c', r) := Phase(9, c, a); Calm(c'.w) && (r == Continue ==> CalmStage(10, c'))
  {
    hide Sound, Stage, ConfigFirst, Ready, DataInStep, Patched;
    LateStages(9, c, a);
    StageIsOriented(9, c);
    ConfigMapIsBehind(c.w);
    if c.mysqld.Some? && !HasGeneration(c.mysqld.value, c.cs.generation) {
      ExactPatch(c.w.mysqld, c.mysqld.value, Rebuilt(c.mysqld.value, NewMysqld(c.cs, c.w)), PatchMysqld in a.fails);
    }
  }

  lemma CalmAddNode(c: Ctx, a: Answers)
    requires CalmStage(10, c)
    ensures var (c', r) := Phase(10, c, a); Calm(c'.w) && (r == Continue ==> CalmStage(11, c'))
  {
    hide Sound, Stage, ConfigFirst, UpdateComplete, Ready, ServersSound, ServersInStep, Patched;
    LateStages(10, c, a);
    StageIsOriented(10, c);
    ConfigMapIsBehind(c.w);
    var s := c.data.value;
    if s.addNode {
      ExactPatch(c.w.data, s, s.(replicas := c.cs.spec.numData), ScaleData in a.fails);
      ExactPatch(c.w.data, s, s.(addNode := false), ClearAddNode in a.fails);
    }
    AddNodeLeavesServers(c, a);
  }

  lemma AddNodeLeavesServers(c: Ctx, a: Answers)
    requires ServersSound(c.w) && (c.w.cm == Some(c.cs) ==> ServersInStep(c.w, c.cs))
    ensures var w' := HandleAddNode(c, a).0.w;
            ServersSound(w') && (c.w.cm == Some(c.cs) ==> ServersInStep(w', c.cs)) && w'.mysqld == c.w.mysqld && w'.mgmd == c.w.mgmd
  {
    hide Patched;
  }

  lemma CalmRoot(c: Ctx, a: Answers)
    requires CalmStage(11, c)
    ensures var (c', r) := Phase(11, c, a); Calm(c'.w) && (r == Continue ==> CalmStage(12, c'))
  {
    hide Sound, Stage, ConfigFirst, UpdateComplete, Ready, DataInStep, Patched;
    LateStages(11, c, a);
    StageIsOriented(11, c);
    ConfigMapIsBehind(c.w);
    if c.mysqld.Some? {
      var s := c.mysqld.value;
      AnnotationPatch(c.w.mysqld, s, s.(rootHost := Some(c.w.ndb.spec.rootHost), rootGen := Some(c.cs.generation)), PatchRoot in a.fails);
    }
  }

  /** A patch of the root user's annotations leaves everything else alone. */
  lemma AnnotationPatch(stored: Option<StatefulSet>, existing: StatefulSet, updated: StatefulSet, fails: bool)
    requires SameObject(Some(existing), stored)
    requires updated == existing.(rootHost := updated.rootHost, rootGen := updated.rootGen)
    ensures var (s, r) := Patched(stored, existing, updated, fails);
            && s.Some? && s.value == stored.value.(rootHost := s.value.rootHost, rootGen := s.value.rootGen)
            && r != Finish
  {
  }

  /** The end of a sync: the config map moves on, its flag is cleared, or everything is settled. */
  lemma CalmFinish(c: Ctx, a: Answers)
    requires CalmStage(LAST, c)
    ensures var (c', r) := Phase(LAST, c, a); Calm(Reported(c', r, a.(podErrors := false)))
  {
    hide Sound, Stage, ConfigFirst, UpdateComplete, Ready;
    LastStage(c, a);
    StageIsOriented(LAST, c);
    ConfigMapIsBehind(c.w);
    var (c', r) := Phase(LAST, c, a);
    ReportIsSound(c, c', r, a.(podErrors := false));
  }

  lemma ReportIsSound(c: Ctx, c': Ctx, r: Reconcile.Result, a: Answers)
    requires Sound(c'.w) && (c'.success ==> InSync(c'.w))
    ensures Sound(Reported(c', r, a))
  {
  }

  lemma {:induction false} CalmRun(i: nat, c: Ctx, a: Answers)
    requires i <= LAST && CalmStage(i, c) && !a.podErrors
    ensures var (c', r) := RunFrom(i, c, a); Calm(Reported(c', r, a))
    decreases LAST - i
  {
    hide Phase, Calm, CalmStage, Reported;
    assert a.(podErrors := false) == a;
    if i == LAST {
      CalmFinish(c, a);
    } else {
      CalmPhase(i, c, a);
      if Phase(i, c, a).1 == Continue {
        CalmRun(i + 1, Phase(i, c, a).0, a);
      } else {
        ReportStaysCalm(i, c, a);
      }
    }
  }

  lemma CalmPhase(i: nat, c: Ctx, a: Answers)
    requires i < LAST && CalmStage(i, c)
    ensures var (c', r) := Phase(i, c, a); Calm(c'.w) && (r == Continue ==> CalmStage(i + 1, c'))
  {
    hide Phase, Calm, CalmStage;
    match i
    case 0 => CalmConfig(c, a);
    case 1 => CalmMgmd(c, a);
    case 2 => CalmData(c, a);
    case 3 => CalmReads(3, c, a);
    case 4 => CalmReads(4, c, a);
    case 5 => CalmScaleDown(c, a);
    case 6 => CalmUpdateMgmd(c, a);
    case 7 => CalmReconcileData(c, a);
    case 8 => CalmPods(c, a);
    case 9 => CalmMysqld(c, a);
    case 10 => CalmAddNode(c, a);
    case _ => CalmRoot(c, a);
  }

  lemma ReportStaysCalm(i: nat, c: Ctx, a: Answers)
    requires i < LAST && CalmStage(i, c) && !a.podErrors && Calm(Phase(i, c, a).0.w)
    ensures Calm(Reported(Phase(i, c, a).0, Phase(i, c, a).1, a))
  {
    hide Phase, Sound, ConfigFirst, UpdateComplete, Ready, Stage;
    NoSuccessYet(i, c, a);
    var c' := Phase(i, c, a).0;
    ReportIsSound(c, c', Phase(i, c, a).1, a);
  }
}
