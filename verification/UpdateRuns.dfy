/**
 What holds over every run without pod errors: the config map waits for the workloads, data nodes
 are added and removed from disk in phases, and servers leave before their slots do.
 */
module UpdateRuns {
  import opened Wrappers
  import opened Arithmetic
  import opened StatefulSets
  import opened Reconcile
  import opened ReconcileRuns
  import opened ReconcileSuccess
  import opened ReconcilePaths
  import opened ReconcileUpdates
  import ClusterStatus
  import Rollout

  predicate WithoutPodErrors(step: Step) {
    step.SyncStep? ==> !step.answers.podErrors
  }

  predicate NoCallFails(step: Step) {
    step.SyncStep? ==> step.answers.fails == {}
  }

  predicate NoCallFailsIn(steps: seq<Step>) {
    forall s :: s in steps ==> NoCallFails(s)
  }

  // ----- the invariant holds in every state

  lemma {:induction false} CalmReached(i: nat, j: nat, c: Ctx, a: Answers)
    requires i <= j <= LAST && CalmStage(i, c) && Reached(i, j, c, a).Some?
    ensures CalmStage(j, Reached(i, j, c, a).value)
    decreases j - i
  {
    hide Phase, CalmStage;
    if i < j {
      CalmPhase(i, c, a);
      CalmReached(i + 1, j, Phase(i, c, a).0, a);
    }
  }

  lemma CalmStart(w: World)
    requires Calm(w)
    ensures CalmStage(0, Start(w))
  {
    hide Calm;
  }

  lemma SpecStepIsCalm(w: World, spec: Spec)
    requires Calm(w)
    ensures Calm(Next(w, SpecStep(spec)))
  {
    hide Sound, ConfigFirst, DataInStep;
    StepIsSound(w, SpecStep(spec));
    ConfigMapIsBehind(w);
  }

  lemma OtherStepIsCalm(w: World, step: Step)
    requires Calm(w) && !step.SyncStep? && !step.SpecStep?
    ensures Calm(Next(w, step))
  {
    hide Sound, ConfigFirst, UpToDate;
    StepIsSound(w, step);
    match step
    case ObserveMgmd(_) =>
    case ObserveData(_) =>
    case ObserveMysqld(status) =>
      ConfigMapIsBehind(w);
      var v := Next(w, step);
      assert ServersSound(v);
      assert w.cm.Some? ==> ServersInStep(v, w.cm.value);
    case StartPod(_, _) =>
    case StopPod(_) =>
    case StartServer =>
    case StopServer =>
  }

  lemma StepIsCalm(w: World, step: Step)
    requires Calm(w) && WithoutPodErrors(step)
    ensures w.redundancy > 0 && Calm(Next(w, step))
  {
    hide Sound, RunFrom, Reported;
    if step.SyncStep? {
      CalmStart(w);
      CalmRun(0, Start(w), step.answers);
    } else if step.SpecStep? {
      SpecStepIsCalm(w, step.spec);
    } else {
      OtherStepIsCalm(w, step);
    }
  }

  lemma StartsCalm(spec: Spec, redundancy: nat)
    requires redundancy > 0 && ValidSpec(spec, redundancy)
    ensures Calm(Initial(spec, redundancy))
  {
    StartsSound(spec, redundancy);
  }

  lemma {:induction false} AlwaysCalm(spec: Spec, redundancy: nat, steps: seq<Step>)
    requires redundancy > 0 && ValidSpec(spec, redundancy) && forall s :: s in steps ==> WithoutPodErrors(s)
    ensures Calm(After(Initial(spec, redundancy), steps))
    decreases |steps|
  {
    hide Next, Calm, WithoutPodErrors;
    if steps == [] {
      StartsCalm(spec, redundancy);
    } else {
      var n := |steps| - 1;
      AlwaysCalm(spec, redundancy, steps[..n]);
      StepIsCalm(After(Initial(spec, redundancy), steps[..n]), steps[n]);
    }
  }

  // ----- the config map waits

  /**
   Every workload carries the generation of the config map or the one before, and the
   processed generation is at most one behind the specification.
   */
  lemma WorkloadsKeepUp(spec: Spec, redundancy: nat, steps: seq<Step>)
    requires redundancy > 0 && ValidSpec(spec, redundancy) && forall s :: s in steps ==> WithoutPodErrors(s)
    ensures var w := After(Initial(spec, redundancy), steps);
            && w.ndb.processed <= w.ndb.generation <= w.ndb.processed + 1
            && (w.cm.Some? ==>
                  var g := w.cm.value.generation;
                  && (w.mgmd.Some? ==> w.mgmd.value.applied == g || w.mgmd.value.applied + 1 == g)
                  && (w.data.Some? ==> w.data.value.applied == g || w.data.value.applied + 1 == g)
                  && (w.mysqld.Some? ==> w.mysqld.value.applied == g || w.mysqld.value.applied + 1 == g))
  {
    hide Sound, ConfigFirst, After;
    AlwaysCalm(spec, redundancy, steps);
    ConfigMapIsBehind(After(Initial(spec, redundancy), steps));
  }

  /** Only the last phase of a sync moves an existing config map. */
  lemma ConfigMapMoves(j: nat, c: Ctx, a: Answers)
    requires j <= LAST && CalmStage(j, c) && c.w.cm.Some? && Phase(j, c, a).0.w.cm != c.w.cm
    ensures j == LAST
  {
    hide Patched, UpdateComplete, Ready, Rollout.EnsurePods, ConfigFirst;
  }

  /** A sync moves the config map to the next generation only when every workload carries the current one. */
  lemma ConfigMapWaits(w: World, a: Answers)
    requires Calm(w) && w.cm.Some? && !a.podErrors
    ensures var v := SyncHandler(w, a);
            v.cm.Some? && v.cm.value.generation != w.cm.value.generation ==>
              && v.cm.value.generation == w.cm.value.generation + 1 == w.ndb.generation
              && v.mgmd.Some? && v.data.Some? && v.mysqld.Some?
              && v.mgmd.value.applied == v.data.value.applied == v.mysqld.value.applied == w.cm.value.generation
  {
    hide Phase, RunFrom, CalmStage, Sound, ConfigFirst, Stage;
    CalmStart(w);
    var j := EndsSomewhere(0, Start(w), a);
    var d := Reached(0, j, Start(w), a).value;
    CalmReached(0, j, Start(w), a);
    StartStage(w);
    ReachedKept(0, j, Start(w), a);
    if Phase(j, d, a).0.w.cm != d.w.cm {
      ConfigMapMoves(j, d, a);
      MovesWhenCaughtUp(d, a);
    }
  }

  lemma MovesWhenCaughtUp(d: Ctx, a: Answers)
    requires CalmStage(LAST, d)
    ensures var v := Phase(LAST, d, a).0.w;
            && d.w.cm.Some? && v.cm.Some?
            && (v.cm.value.generation != d.w.cm.value.generation ==>
                  && v.cm.value.generation == d.w.cm.value.generation + 1 == d.w.ndb.generation
                  && v.mgmd.Some? && v.data.Some? && v.mysqld.Some?
                  && v.mgmd.value.applied == v.data.value.applied == v.mysqld.value.applied == d.w.cm.value.generation)
  {
    hide Sound, Stage, ConfigFirst, UpdateComplete, Ready;
    StageIsOriented(LAST, d);
    ConfigMapIsBehind(d.w);
  }

  // ----- servers leave before their slots

  lemma SlotsSuffice(servers: nat, pool: nat, cm: ConfigMap)
    requires servers <= cm.spec.numMySQL <= cm.spec.maxMySQL && pool <= cm.spec.pool
    ensures servers * pool <= Slots(cm.spec)
  {
    ProductGrows(servers, cm.spec.maxMySQL, pool);
    ProductGrows(pool, cm.spec.pool, cm.spec.maxMySQL);
    assert cm.spec.maxMySQL * pool == pool * cm.spec.maxMySQL;
    assert cm.spec.maxMySQL * cm.spec.pool == cm.spec.pool * cm.spec.maxMySQL;
  }

  /**
   Whenever a sync gets to the management nodes, the MySQL StatefulSet is absent or complete with
   at most the configured number of servers, and the servers that run fit the slots of the
   configuration about to be applied.
   */
  lemma ScaledDownBeforeApplying(w: World, a: Answers)
    requires Calm(w) && Reached(0, 6, Start(w), a).Some?
    ensures var v := Reached(0, 6, Start(w), a).value.w;
            && v.cm.Some?
            && (v.mysqld.None? || (UpdateComplete(v.mysqld.value) && v.mysqld.value.replicas <= v.cm.value.spec.numMySQL))
            && v.servers <= v.cm.value.spec.numMySQL
            && (v.mysqld.Some? ==> v.servers * v.mysqld.value.template.pool <= Slots(v.cm.value.spec))
  {
    hide Phase, Sound, ConfigFirst, Stage, Slots;
    CalmStart(w);
    CalmReached(0, 6, Start(w), a);
    var d := Reached(0, 6, Start(w), a).value;
    StageIsOriented(6, d);
    ServersScaledDown(d);
    if d.w.mysqld.Some? {
      SlotsSuffice(d.w.servers, d.w.mysqld.value.template.pool, d.cs);
    }
  }

  /** From then until the config map moves on, the running servers fit its slots in every state. */
  lemma ServersFitSlots(spec: Spec, redundancy: nat, steps: seq<Step>)
    requires redundancy > 0 && ValidSpec(spec, redundancy) && forall s :: s in steps ==> WithoutPodErrors(s)
    ensures var w := After(Initial(spec, redundancy), steps);
            w.cm.Some? && w.mysqld.Some? && w.mgmd.Some? && w.mgmd.value.applied == w.cm.value.generation ==>
              w.servers * w.mysqld.value.template.pool <= Slots(w.cm.value.spec)
  {
    hide Sound, ConfigFirst, After, Slots;
    AlwaysCalm(spec, redundancy, steps);
    var w := After(Initial(spec, redundancy), steps);
    if w.cm.Some? && w.mysqld.Some? && w.mgmd.Some? && w.mgmd.value.applied == w.cm.value.generation {
      SlotsSuffice(w.servers, w.mysqld.value.template.pool, w.cm.value);
    }
  }

  // ----- adding data nodes online

  /** While nothing is being added, or the added nodes are not started yet, every node up to the replica count has a group. */
  ghost predicate GroupsInStep(w: World) {
    w.data.Some? && w.cm.Some? && (w.data.value.replicas < w.cm.value.spec.numData || !w.data.value.addNode) ==>
      forall o :: 0 <= o < w.data.value.replicas ==> o in w.inducted
  }

  /** A successful call groups every data node without a group: all of them are connected by then. */
  ghost predicate GroupsAll(w: World, a: Answers) {
    w.data.Some? && MakeGroups !in a.fails ==>
      forall o :: 0 <= o < w.data.value.replicas ==> o in w.inducted + a.newGroups * w.pods.Keys
  }

  /** Fresh reads, and no pod error. */
  ghost predicate Attentive(w: World, step: Step) {
    step.SyncStep? ==> !step.answers.podErrors && Informed(w, step.answers)
  }

  lemma GroupsKept(j: nat, c: Ctx, a: Answers)
    requires j <= LAST && CalmStage(j, c) && GroupsInStep(c.w)
    requires GroupsAll(c.w, a) || j != 10
    ensures GroupsInStep(Phase(j, c, a).0.w)
  {
    hide Sound, Stage, ConfigFirst, UpdateComplete, Ready, Rollout.EnsurePods, ServersInStep, ServersSound, Patched;
    ConfigMapIsBehind(c.w);
    if j > 0 {
      StageIsOriented(j, c);
    }
    if j == 2 {
      GroupsKeptByCreation(c, a);
    } else if j == 7 {
      GroupsKeptByPatch(c, a);
    } else if j == 10 {
      GroupsKeptByAddNode(c, a);
    } else if j == LAST {
      GroupsKeptByFinish(c, a);
    }
  }

  lemma GroupsKeptByPatch(c: Ctx, a: Answers)
    requires Calm(c.w) && GroupsInStep(c.w) && c.w.cm == Some(c.cs) && c.data.Some? && c.data == c.w.data
    ensures GroupsInStep(ReconcileData(c, a).0.w)
  {
    hide Sound, ServersInStep, ServersSound;
    ConfigMapIsBehind(c.w);
    var s := c.data.value;
    if !(HasGeneration(s, c.cs.generation) && !(s.template.initial && !c.cs.initialRestart)) {
      ExactPatch(c.w.data, s, RebuiltData(s, c.cs, c.w), PatchData in a.fails);
    }
  }

  lemma GroupsKeptByCreation(c: Ctx, a: Answers)
    requires CalmStage(2, c) && GroupsInStep(c.w)
    ensures GroupsInStep(EnsureData(c, a).0.w)
  {
    hide Sound, Stage, ConfigFirst, UpdateComplete, ServersInStep, ServersSound, ReconcileData, ClusterStatus.Range;
    StageIsOriented(2, c);
    if c.w.data.Some? {
      GroupsKeptByPatch(c.(data := c.w.data), a);
    } else {
      ClusterStatus.RangeIs(c.cs.spec.numData);
    }
  }

  lemma GroupsKeptByAddNode(c: Ctx, a: Answers)
    requires CalmStage(10, c) && GroupsInStep(c.w) && GroupsAll(c.w, a)
    ensures GroupsInStep(HandleAddNode(c, a).0.w)
  {
    hide Sound, Stage, ConfigFirst, UpdateComplete, Ready, ServersInStep, ServersSound, Patched;
    StageIsOriented(10, c);
    ConfigMapIsBehind(c.w);
    var s := c.data.value;
    if s.addNode {
      ExactPatch(c.w.data, s, s.(replicas := c.cs.spec.numData), ScaleData in a.fails);
      ExactPatch(c.w.data, s, s.(addNode := false), ClearAddNode in a.fails);
    }
  }

  lemma GroupsKeptByFinish(c: Ctx, a: Answers)
    requires CalmStage(LAST, c) && GroupsInStep(c.w)
    ensures GroupsInStep(Phase(LAST, c, a).0.w)
  {
    hide Sound, Stage, ConfigFirst, UpdateComplete, Ready, ServersInStep, ServersSound;
    StageIsOriented(LAST, c);
  }

  lemma GroupsReached(w: World, j: nat, a: Answers)
    requires Calm(w) && j <= LAST && Reached(0, j, Start(w), a).Some? && GroupsInStep(w) && GroupsAll(w, a)
    ensures var d := Reached(0, j, Start(w), a).value; GroupsInStep(d.w) && (j <= 10 ==> GroupsAll(d.w, a))
    decreases j
  {
    hide Phase, Sound, Stage, Calm, CalmStage, GroupsInStep;
    if j > 0 {
      ReachedEarlier(0, j - 1, j, Start(w), a);
      GroupsReached(w, j - 1, a);
      CalmStart(w);
      CalmReached(0, j - 1, Start(w), a);
      var d := Reached(0, j - 1, Start(w), a).value;
      GroupsKept(j - 1, d, a);
      if j <= 10 {
        GroupsStayAll(w, j, a);
      }
    }
  }

  lemma GroupsStayAll(w: World, j: nat, a: Answers)
    requires Calm(w) && 0 < j <= 10 && Reached(0, j, Start(w), a).Some? && GroupsAll(w, a)
    ensures GroupsAll(Reached(0, j, Start(w), a).value.w, a)
  {
    hide Phase, Stage, ConfigFirst, RunFrom;
    StartStage(w);
    ReachedKept(0, j, Start(w), a);
    if j > 8 {
      PodsThroughRollout(w, j, a);
    }
  }

  /** A sync that gets past the rollout phase has deleted no pods. */
  lemma PodsThroughRollout(w: World, j: nat, a: Answers)
    requires Sound(w) && 8 < j <= LAST && Reached(0, j, Start(w), a).Some?
    ensures Reached(0, j, Start(w), a).value.w.pods == w.pods
  {
    hide Phase, Stage, Sound;
    StartStage(w);
    ReachedEarlier(0, 8, j, Start(w), a);
    var d := Reached(0, 8, Start(w), a).value;
    ReachedKept(0, 8, Start(w), a);
    RolloutContinues(d, j, a);
    NothingDeleted(d, a);
    AfterRollout(9, j, Phase(8, d, a).0, a);
  }

  lemma NothingDeleted(d: Ctx, a: Answers)
    requires EnsureDataPods(d, a).1 == Continue
    ensures EnsureDataPods(d, a).0.w.pods == d.w.pods
  {
    var m := ManagementNodes(d.w);
    var view := Rollout.View(a.cache, d.data.value.status.updateRevision, a.refusing, m);
    if !UpdateComplete(d.data.value) {
      Rollout.ContinueMeansClean(Rollout.GroupsOf(a.status.value), 0, d.w.redundancy, view);
    }
    assert Rollout.Ordinals([], m) == {};
  }

  lemma StepKeepsGroups(w: World, step: Step)
    requires Calm(w) && GroupsInStep(w) && WithoutPodErrors(step)
    requires step.SyncStep? ==> GroupsAll(w, step.answers)
    ensures w.redundancy > 0 && GroupsInStep(Next(w, step))
  {
    hide Phase, RunFrom, Sound, Stage, ConfigFirst, CalmStage;
    if step.SyncStep? {
      var j := EndsSomewhere(0, Start(w), step.answers);
      GroupsReached(w, j, step.answers);
      CalmStart(w);
      CalmReached(0, j, Start(w), step.answers);
      GroupsKept(j, Reached(0, j, Start(w), step.answers).value, step.answers);
    }
  }

  /** Only the add-node phase starts more data nodes, and only with the annotation set. */
  lemma ReplicasRiseInAddNode(j: nat, c: Ctx, a: Answers)
    requires j <= LAST && CalmStage(j, c) && c.w.data.Some?
    ensures var v := Phase(j, c, a).0.w;
            && v.data.Some?
            && (v.data.value.replicas > c.w.data.value.replicas ==> j == 10 && c.data == c.w.data && c.data.value.addNode)
  {
    hide Sound, Stage, ConfigFirst, UpdateComplete, Ready, Rollout.EnsurePods, ServersInStep, ServersSound, Patched, ReconcileData;
    if j > 0 {
      StageIsOriented(j, c);
    }
    if j == 2 {
      ReplicasFixed(c.(data := c.w.data), a);
    } else if j == 7 {
      ReplicasFixed(c, a);
    } else if j == 10 {
      AnnotatedRise(c, a);
    }
  }

  lemma ReplicasFixed(c: Ctx, a: Answers)
    requires Calm(c.w) && c.w.cm == Some(c.cs) && c.data.Some? && c.data == c.w.data
    ensures var v := ReconcileData(c, a).0.w; v.data.Some? && v.data.value.replicas <= c.data.value.replicas
  {
    hide Sound, ServersSound, ServersInStep;
    var s := c.data.value;
    if !(HasGeneration(s, c.cs.generation) && !(s.template.initial && !c.cs.initialRestart)) {
      ExactPatch(c.w.data, s, RebuiltData(s, c.cs, c.w), PatchData in a.fails);
    }
  }

  lemma AnnotatedRise(c: Ctx, a: Answers)
    requires CalmStage(10, c)
    ensures var v := HandleAddNode(c, a).0.w;
            && v.data.Some?
            && (v.data.value.replicas > c.w.data.value.replicas ==> c.data == c.w.data && c.data.value.addNode)
  {
    hide Sound, Stage, ConfigFirst, UpdateComplete, Ready, ServersInStep, ServersSound, Patched;
    StageIsOriented(10, c);
    var s := c.data.value;
    if s.addNode {
      ExactPatch(c.w.data, s, s.(replicas := c.cs.spec.numData), ScaleData in a.fails);
      ExactPatch(c.w.data, s, s.(addNode := false), ClearAddNode in a.fails);
    }
  }

  /** Past the readiness check, an up-to-date StatefulSet of the data nodes is ready, and its status is current. */
  lemma ReadyWhenReached(w: World, j: nat, a: Answers)
    requires Calm(w) && 5 <= j <= LAST && Reached(0, j, Start(w), a).Some?
    ensures w.data.Some? && w.cm.Some?
    ensures w.data.value.applied == w.cm.value.generation ==> Ready(w.data.value) && Observed(w)
    ensures Reached(0, j, Start(w), a).value.data == w.data
    ensures Reached(0, j, Start(w), a).value.w.cm == w.cm
  {
    hide Phase, Sound, Stage, ConfigFirst, Calm;
    CalmStart(w);
    StartStage(w);
    CalmSound(w);
    ReachedEarlier(0, 5, j, Start(w), a);
    var d := Reached(0, 5, Start(w), a).value;
    ReachedKept(0, 5, Start(w), a);
    ReachedKept(0, j, Start(w), a);
    CalmReached(0, 5, Start(w), a);
    StageIsOriented(5, d);
    ReachedKept(5, j, d, a);
    CalmWithData(w);
  }

  lemma CalmSound(w: World)
    requires Calm(w)
    ensures Sound(w)
  {
  }

  lemma CalmWithData(w: World)
    requires Calm(w)
    ensures w.data.Some? ==> w.cm.Some?
  {
    ConfigMapIsBehind(w);
  }

  /**
   The replicas of the data nodes rise only in a sync that has seen every data node with a node group run the
   revision of the current configuration; and if none had been left without a group, every old one.
   */
  lemma ReplicasRiseAfterRestart(w: World, a: Answers)
    requires Calm(w) && Attentive(w, SyncStep(a)) && w.data.Some?
    ensures var v := SyncHandler(w, a);
            && v.data.Some?
            && (v.data.value.replicas > w.data.value.replicas ==>
                  && w.cm.Some? && w.data.value.applied == w.cm.value.generation
                  && w.data.value.template.version == w.cm.value.version
                  && (forall o :: o in w.inducted && o in w.pods ==> w.pods[o] == w.data.value.template)
                  && (GroupsInStep(w) ==>
                        forall o :: 0 <= o < w.data.value.replicas && o in w.pods ==> w.pods[o] == w.data.value.template))
  {
    hide Phase, RunFrom, Sound, Stage, ConfigFirst, CalmStage, Informed;
    CalmStart(w);
    StartStage(w);
    var j := EndsSomewhere(0, Start(w), a);
    var d := Reached(0, j, Start(w), a).value;
    CalmReached(0, j, Start(w), a);
    ReachedKept(0, j, Start(w), a);
    ReplicasRiseInAddNode(j, d, a);
    if Phase(j, d, a).0.w.data.value.replicas > d.w.data.value.replicas {
      ReadyWhenReached(w, j, a);
      AddingMeansApplied(w);
      PastRollout(w, a, j);
      NotAllStarted(d, a, w);
    }
  }

  lemma AddingMeansApplied(w: World)
    requires Calm(w) && w.data.Some? && w.data.value.addNode
    ensures w.cm.Some? && w.data.value.applied == w.cm.value.generation && w.data.value.template.version == w.cm.value.version
  {
    ConfigMapIsBehind(w);
  }

  lemma NotAllStarted(d: Ctx, a: Answers, w: World)
    requires Calm(w) && CalmStage(10, d) && d.data == d.w.data && d.w.data.Some? && w.data == d.data && d.w.cm == w.cm
    requires Phase(10, d, a).0.w.data.Some? && Phase(10, d, a).0.w.data.value.replicas > d.w.data.value.replicas
    ensures w.cm.Some? && w.data.value.replicas < w.cm.value.spec.numData
  {
    hide Sound, Stage, ConfigFirst, UpdateComplete, Ready, ServersInStep, ServersSound;
    StageIsOriented(10, d);
  }

  /** Node groups are created only once all new data nodes are started and ready. */
  lemma GroupsAfterReady(w: World, a: Answers)
    requires Calm(w) && w.data.Some?
    ensures SyncHandler(w, a).inducted != w.inducted ==>
              && w.cm.Some? && w.data.value.addNode
              && w.data.value.replicas == w.cm.value.spec.numData && Ready(w.data.value)
  {
    hide Phase, RunFrom, Sound, Stage, ConfigFirst, CalmStage;
    CalmStart(w);
    StartStage(w);
    var j := EndsSomewhere(0, Start(w), a);
    var d := Reached(0, j, Start(w), a).value;
    CalmReached(0, j, Start(w), a);
    ReachedKept(0, j, Start(w), a);
    if Phase(j, d, a).0.w.inducted != d.w.inducted {
      GroupedInAddNode(j, d, a);
      ReadyWhenReached(w, j, a);
      AddingMeansApplied(w);
    } else if d.w.inducted != w.inducted {
      ReachedEarlier(0, 11, j, Start(w), a);
      ReachedEarlier(0, 10, 11, Start(w), a);
      var e := Reached(0, 10, Start(w), a).value;
      CalmReached(0, 10, Start(w), a);
      ReachedKept(0, 10, Start(w), a);
      LaterGroupsKept(w, j, a);
      GroupedInAddNode(10, e, a);
      ReadyWhenReached(w, 10, a);
      AddingMeansApplied(w);
    }
  }

  lemma GroupedInAddNode(j: nat, c: Ctx, a: Answers)
    requires j <= LAST && CalmStage(j, c) && c.w.data.Some? && Phase(j, c, a).0.w.inducted != c.w.inducted
    ensures j == 10 && c.data.Some? && c.data.value.addNode && c.data.value.replicas == c.cs.spec.numData && c.w.cm == Some(c.cs)
  {
    hide Sound, ConfigFirst, UpdateComplete, Ready, Rollout.EnsurePods, ServersInStep, ServersSound, Patched, Calm;
    if j > 0 {
      StageIsOriented(j, c);
    }
    if j == 10 {
      Unchanged(c.w.data, c.data.value, c.data.value.(replicas := c.cs.spec.numData), ScaleData in a.fails);
    }
  }

  lemma LaterGroupsKept(w: World, j: nat, a: Answers)
    requires Calm(w) && 11 <= j <= LAST && Reached(0, j, Start(w), a).Some? && Reached(0, 10, Start(w), a).Some?
    requires Reached(0, j, Start(w), a).value.w.inducted != w.inducted
    ensures var e := Reached(0, 10, Start(w), a).value; Phase(10, e, a).0.w.inducted != e.w.inducted && e.w.inducted == w.inducted
  {
    hide Phase, RunFrom, Sound, Stage, Calm;
    CalmSound(w);
    StartStage(w);
    ReachedEarlier(0, 10, j, Start(w), a);
    var e := Reached(0, 10, Start(w), a).value;
    ReachedKept(0, 10, Start(w), a);
    PhaseKept(10, e, a);
    GroupsUntouched(11, j, Phase(10, e, a).0, a);
  }

  lemma {:induction false} GroupsUntouched(i: nat, j: nat, c: Ctx, a: Answers)
    requires 11 <= i <= j <= LAST && Sound(c.w) && Stage(i, c) && Reached(i, j, c, a).Some?
    ensures Reached(i, j, c, a).value.w.inducted == c.w.inducted
    decreases j - i
  {
    hide Phase, Sound, Stage;
    if i < j {
      PhaseKept(i, c, a);
      GroupsUntouched(i + 1, j, Phase(i, c, a).0, a);
    }
  }

  /** At the generation of the config map and with no addition in progress, all configured data nodes are declared. */
  lemma AdditionCompletes(spec: Spec, redundancy: nat, steps: seq<Step>)
    requires redundancy > 0 && ValidSpec(spec, redundancy) && forall s :: s in steps ==> WithoutPodErrors(s)
    ensures var w := After(Initial(spec, redundancy), steps);
            w.cm.Some? && w.data.Some? && w.data.value.applied == w.cm.value.generation && !w.data.value.addNode ==>
              w.data.value.replicas == w.cm.value.spec.numData
  {
    hide Sound, ConfigFirst, After;
    AlwaysCalm(spec, redundancy, steps);
  }
}
