/**
 Runs of the whole system: sync calls interleaved with the StatefulSet controllers, pods that come
 and go, and specification updates that admission lets through.
 */
module ReconcileRuns {
  import opened Wrappers
  import opened StatefulSets
  import opened Reconcile

  // ----- steps

  datatype Step =
    | SyncStep(answers: Answers)
    | SpecStep(spec: Spec)
    | ObserveMgmd(status: Status)
    | ObserveData(ready: nat)
    | ObserveMysqld(status: Status)
    | StartPod(ordinal: nat, revision: Template)
    | StopPod(ordinal: nat)
    | StartServer
    | StopServer

  /** What admission demands of the fields at hand. */
  predicate ValidSpec(spec: Spec, redundancy: nat)
    requires redundancy > 0
  {
    && spec.numData > 0 && spec.numData % redundancy == 0
    && 1 <= spec.numMySQL <= spec.maxMySQL && 1 <= spec.pool
  }

  predicate AdmittedUpdate(w: World, spec: Spec)
    requires w.redundancy > 0
  {
    && w.redundancy != 1
    && (w.ndb.processed == w.ndb.generation || w.ndb.syncError)
    && ValidSpec(spec, w.redundancy)
    && w.ndb.spec.numData <= spec.numData && w.ndb.spec.pool <= spec.pool
  }

  function UpToDate(pods: map<int, Template>, t: Template): set<int> {
    set o | o in pods && pods[o] == t
  }

  /** A controller that has seen the current object starts pods from its template, one that has not, from an older one. */
  ghost function Next(w: World, step: Step): World
    requires w.redundancy > 0
  {
    match step
    case SyncStep(a) => SyncHandler(w, a)
    case SpecStep(spec) =>
      if AdmittedUpdate(w, spec) then w.(ndb := w.ndb.(generation := w.ndb.generation + 1, spec := spec)) else w
    case ObserveMgmd(status) =>
      if w.mgmd.Some? && status.observed <= w.mgmd.value.generation then w.(mgmd := Some(w.mgmd.value.(status := status))) else w
    case ObserveData(ready) =>
      if w.data.None? || ready > |w.pods| then w
      else
        var s := w.data.value;
        w.(data := Some(s.(status := Status(s.generation, |w.pods|, ready, |UpToDate(w.pods, s.template)|, 0, s.template))))
    case ObserveMysqld(status) =>
      if w.mysqld.Some? && status.observed == w.mysqld.value.generation && status.replicas == w.servers
      then w.(mysqld := Some(w.mysqld.value.(status := status)), ceiling := w.mysqld.value.replicas)
      else w
    case StartPod(o, revision) =>
      if w.data.Some? && o < w.data.value.replicas && o !in w.pods
         && (w.data.value.status.observed == w.data.value.generation ==> revision == w.data.value.template)
      then w.(pods := w.pods[o := revision]) else w
    case StopPod(o) => w.(pods := w.pods - {o})
    case StartServer => if w.mysqld.Some? && w.servers < w.ceiling then w.(servers := w.servers + 1) else w
    case StopServer => if w.servers > 0 then w.(servers := w.servers - 1) else w
  }

  /** A newly created resource. */
  function Initial(spec: Spec, redundancy: nat): World {
    World(redundancy, Ndb(1, spec, 0, false), None, None, None, None, map[], {}, 0, 0, {})
  }

  ghost function After(w: World, steps: seq<Step>): World
    requires w.redundancy > 0
    ensures After(w, steps).redundancy == w.redundancy
    decreases |steps|
  {
    if steps == [] then w
    else
      var before := After(w, steps[..|steps| - 1]);
      NextKeepsRedundancy(before, steps[|steps| - 1]);
      Next(before, steps[|steps| - 1])
  }

  lemma PhaseKeepsRedundancy(i: nat, c: Ctx, a: Answers)
    requires i <= LAST
    ensures Phase(i, c, a).0.w.redundancy == c.w.redundancy
    ensures Phase(i, c, a).0.w.ndb == c.w.ndb
  {
    hide Patched, UpdateComplete, UpdatedConfigMap, RebuiltData, Rebuilt;
  }

  lemma {:induction false} RunKeepsRedundancy(i: nat, c: Ctx, a: Answers)
    requires i <= LAST
    ensures RunFrom(i, c, a).0.w.redundancy == c.w.redundancy
    ensures RunFrom(i, c, a).0.w.ndb == c.w.ndb
    decreases LAST - i
  {
    hide Phase;
    PhaseKeepsRedundancy(i, c, a);
    if i < LAST && Phase(i, c, a).1 == Continue {
      RunKeepsRedundancy(i + 1, Phase(i, c, a).0, a);
    }
  }

  lemma NextKeepsRedundancy(w: World, step: Step)
    requires w.redundancy > 0
    ensures Next(w, step).redundancy == w.redundancy
  {
    hide RunFrom;
    if step.SyncStep? {
      RunKeepsRedundancy(0, Start(w), step.answers);
    }
  }

  // ----- the weak invariant: applied <= config map <= specification

  predicate AppliedUpTo(s: Option<StatefulSet>, g: nat) {
    s.Some? ==> s.value.applied <= g && (s.value.rootGen.Some? ==> s.value.rootGen.value <= g)
  }

  predicate ConfigFirst(w: World) {
    && w.ndb.processed <= w.ndb.generation && w.ndb.generation > 0
    && match w.cm
       case None => w.mgmd.None? && w.data.None? && w.mysqld.None? && w.ndb.processed == 0
       case Some(cm) =>
         && 0 < cm.generation <= w.ndb.generation && w.ndb.processed <= cm.generation
         && AppliedUpTo(w.mgmd, cm.generation) && AppliedUpTo(w.data, cm.generation) && AppliedUpTo(w.mysqld, cm.generation)
  }

  /** The sync has read the config map and StatefulSets that fit it. */
  predicate Oriented(c: Ctx) {
    && c.w.cm == Some(c.cs) && !c.success
    && AppliedUpTo(c.mgmd, c.cs.generation) && AppliedUpTo(c.data, c.cs.generation) && AppliedUpTo(c.mysqld, c.cs.generation)
  }

  lemma PatchedUpTo(stored: Option<StatefulSet>, existing: StatefulSet, updated: StatefulSet, fails: bool, g: nat)
    requires AppliedUpTo(stored, g) && AppliedUpTo(Some(existing), g) && AppliedUpTo(Some(updated), g)
    ensures AppliedUpTo(Patched(stored, existing, updated, fails).0, g)
  {
  }

  lemma ConfigFirstEarly(i: nat, c: Ctx, a: Answers)
    requires i <= 5 && ConfigFirst(c.w) && (i == 0 || Oriented(c))
    requires i == 0 ==> c.mgmd.None? && c.data.None? && c.mysqld.None? && !c.success
    ensures var (c', r) := Phase(i, c, a); ConfigFirst(c'.w) && (r == Continue ==> Oriented(c')) && !c'.success
  {
    hide EnsureConfig, EnsureMgmd, EnsureData, FindMysqld, CheckReadiness, HandleScaleDown, ConfigFirst;
    match i
    case 0 => ConfigFirstConfig(c, a);
    case 1 => ConfigFirstMgmd(c, a);
    case 2 => ConfigFirstData(c, a);
    case 3 => ConfigFirstReads(c);
    case 4 => ConfigFirstReads(c);
    case 5 => ConfigFirstScaleDown(c, a);
  }

  lemma ConfigFirstConfig(c: Ctx, a: Answers)
    requires ConfigFirst(c.w) && c.mgmd.None? && c.data.None? && c.mysqld.None? && !c.success
    ensures var (c', r) := EnsureConfig(c, a); ConfigFirst(c'.w) && (r == Continue ==> Oriented(c')) && !c'.success
  {
  }

  lemma ConfigFirstMgmd(c: Ctx, a: Answers)
    requires ConfigFirst(c.w) && Oriented(c)
    ensures var (c', r) := EnsureMgmd(c, a); ConfigFirst(c'.w) && (r == Continue ==> Oriented(c')) && !c'.success
  {
    hide Patched, UpdateComplete;
    if c.w.mgmd.Some? {
      PatchedUpTo(c.w.mgmd, c.w.mgmd.value, Rebuilt(c.w.mgmd.value, NewMgmd(c.cs, c.w)), PatchMgmd in a.fails, c.cs.generation);
    }
  }

  lemma ConfigFirstData(c: Ctx, a: Answers)
    requires ConfigFirst(c.w) && Oriented(c)
    ensures var (c', r) := EnsureData(c, a); ConfigFirst(c'.w) && (r == Continue ==> Oriented(c')) && !c'.success
  {
    hide Patched, UpdateComplete;
    if c.w.data.Some? {
      PatchedUpTo(c.w.data, c.w.data.value, RebuiltData(c.w.data.value, c.cs, c.w), PatchData in a.fails, c.cs.generation);
    }
  }

  lemma ConfigFirstReads(c: Ctx)
    requires ConfigFirst(c.w) && Oriented(c)
    ensures ConfigFirst(FindMysqld(c).0.w) && Oriented(FindMysqld(c).0)
    ensures ConfigFirst(CheckReadiness(c).0.w) && Oriented(CheckReadiness(c).0)
  {
    hide UpdateComplete, Ready;
  }

  lemma ConfigFirstScaleDown(c: Ctx, a: Answers)
    requires ConfigFirst(c.w) && Oriented(c)
    ensures var (c', r) := HandleScaleDown(c, a); ConfigFirst(c'.w) && (r == Continue ==> Oriented(c')) && !c'.success
  {
    hide Patched, UpdateComplete;
    if c.mysqld.Some? {
      PatchedUpTo(c.w.mysqld, c.mysqld.value, c.mysqld.value.(replicas := c.cs.spec.numMySQL), PatchMysqld in a.fails, c.cs.generation);
    }
  }

  lemma ConfigFirstLate(i: nat, c: Ctx, a: Answers)
    requires 6 <= i <= LAST && ConfigFirst(c.w) && Oriented(c)
    ensures var (c', r) := Phase(i, c, a);
            && ConfigFirst(c'.w) && (r == Continue ==> Oriented(c'))
            && (c'.success ==> i == LAST && c'.w.cm == Some(c.cs) && c.cs.generation == c.w.ndb.generation)
  {
    hide Patched, UpdateComplete, Ready, Rollout.EnsurePods;
    var g := c.cs.generation;
    match i
    case 6 =>
      if c.mgmd.Some? {
        PatchedUpTo(c.w.mgmd, c.mgmd.value, Rebuilt(c.mgmd.value, NewMgmd(c.cs, c.w)), PatchMgmd in a.fails, g);
      }
    case 7 =>
      if c.data.Some? {
        PatchedUpTo(c.w.data, c.data.value, RebuiltData(c.data.value, c.cs, c.w), PatchData in a.fails, g);
      }
    case 8 =>
    case 9 =>
      if c.mysqld.Some? {
        PatchedUpTo(c.w.mysqld, c.mysqld.value, Rebuilt(c.mysqld.value, NewMysqld(c.cs, c.w)), PatchMysqld in a.fails, g);
      }
    case 10 => AddNodeUpTo(c, a);
    case 11 =>
      if c.mysqld.Some? {
        var s := c.mysqld.value;
        PatchedUpTo(c.w.mysqld, s, s.(rootHost := Some(c.w.ndb.spec.rootHost), rootGen := Some(g)), PatchRoot in a.fails, g);
      }
    case _ =>
  }

  lemma AddNodeUpTo(c: Ctx, a: Answers)
    requires ConfigFirst(c.w) && Oriented(c)
    ensures var (c', r) := HandleAddNode(c, a); ConfigFirst(c'.w) && Oriented(c')
  {
    hide Patched, ConfigFirst, Oriented, AppliedUpTo;
    if c.data.Some? {
      ConfigFirstParts(c);
      AddNodeTouchesData(c, a);
      var s := c.data.value;
      PatchedUpTo(c.w.data, s, s.(replicas := c.cs.spec.numData), ScaleData in a.fails, c.cs.generation);
      PatchedUpTo(StartNewDataNodes(c, a).0.w.data, s, s.(addNode := false), ClearAddNode in a.fails, c.cs.generation);
      DataReplaced(c, HandleAddNode(c, a).0);
    } else {
      assert HandleAddNode(c, a).0 == c;
    }
  }

  lemma AddNodeTouchesData(c: Ctx, a: Answers)
    ensures var c' := HandleAddNode(c, a).0;
            c'.w == c.w.(data := c'.w.data, inducted := c'.w.inducted) && c' == c.(w := c'.w)
  {
    hide Patched;
  }

  lemma ConfigFirstParts(c: Ctx)
    requires ConfigFirst(c.w) && Oriented(c)
    ensures AppliedUpTo(c.w.data, c.cs.generation) && AppliedUpTo(c.data, c.cs.generation)
    ensures c.data.Some? ==>
              forall n: nat, b: bool ::
                AppliedUpTo(Some(c.data.value.(replicas := n)), c.cs.generation)
                && AppliedUpTo(Some(c.data.value.(addNode := b)), c.cs.generation)
  {
  }

  lemma DataReplaced(c: Ctx, c': Ctx)
    requires ConfigFirst(c.w) && Oriented(c) && AppliedUpTo(c'.w.data, c.cs.generation)
    requires c'.w == c.w.(data := c'.w.data, inducted := c'.w.inducted) && c' == c.(w := c'.w)
    ensures ConfigFirst(c'.w) && Oriented(c')
  {
  }

  lemma {:induction false} SyncIsConfigFirst(i: nat, c: Ctx, a: Answers)
    requires i <= LAST && ConfigFirst(c.w) && (i == 0 || Oriented(c))
    requires i == 0 ==> c.mgmd.None? && c.data.None? && c.mysqld.None? && !c.success
    ensures var (c', r) := RunFrom(i, c, a);
            && ConfigFirst(c'.w)
            && (c'.success ==> c'.w.cm.Some? && c'.w.cm.value.generation == c'.w.ndb.generation)
    decreases LAST - i
  {
    hide Phase, ConfigFirst, Oriented;
    if i <= 5 {
      ConfigFirstEarly(i, c, a);
    } else {
      ConfigFirstLate(i, c, a);
      PhaseKeepsRedundancy(i, c, a);
    }
    if i < LAST && Phase(i, c, a).1 == Continue {
      SyncIsConfigFirst(i + 1, Phase(i, c, a).0, a);
    }
  }

  lemma StepIsConfigFirst(w: World, step: Step)
    requires w.redundancy > 0 && ConfigFirst(w)
    ensures ConfigFirst(Next(w, step))
  {
    hide RunFrom;
    if step.SyncStep? {
      SyncIsConfigFirst(0, Start(w), step.answers);
      RunKeepsRedundancy(0, Start(w), step.answers);
    }
  }

  /**
   In every run, with or without sync errors, whatever fails and in whatever order things
   happen: no workload is ahead of the config map, and the config map is not ahead of the
   specification.
   */
  lemma {:induction false} AlwaysConfigFirst(spec: Spec, redundancy: nat, steps: seq<Step>)
    requires redundancy > 0
    ensures ConfigFirst(After(Initial(spec, redundancy), steps))
    decreases |steps|
  {
    hide Next, ConfigFirst;
    if steps == [] {
      StartsConfigFirst(spec, redundancy);
    } else {
      var n := |steps| - 1;
      AlwaysConfigFirst(spec, redundancy, steps[..n]);
      StepIsConfigFirst(After(Initial(spec, redundancy), steps[..n]), steps[n]);
    }
  }

  lemma StartsConfigFirst(spec: Spec, redundancy: nat)
    ensures ConfigFirst(Initial(spec, redundancy))
  {
  }
}
