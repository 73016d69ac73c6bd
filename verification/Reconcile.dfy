/**
 The reconcile loop (pkg/controllers/sync_context.go, pkg/controllers/statefulset_control.go and the
 StatefulSet controllers): one `sync` call as a sequence of phases on the state of the cluster.
 Each phase is a function of the state and of what the environment answers during the call;
 the imperative code is proved to follow these functions.
 */
module Reconcile {
  import opened Wrappers
  import opened StatefulSets
  import ClusterStatus
  import Rollout

  // ----- the state

  /** The fields of the specification that reconciliation distinguishes. */
  datatype Spec = Spec(
    numData: nat, numMySQL: nat, maxMySQL: nat, pool: nat, tde: string, rootHost: string, freeSlots: int,
    shape: int)  // everything else that shapes pods

  datatype Ndb = Ndb(generation: nat, spec: Spec, processed: nat, syncError: bool)

  /** The config map: the specification it was generated from, by the history theorem of its contents. */
  datatype ConfigMap = ConfigMap(generation: nat, spec: Spec, initialRestart: bool, version: nat, cnfVersion: nat)

  datatype World = World(
    redundancy: nat,
    ndb: Ndb,
    cm: Option<ConfigMap>,
    mgmd: Option<StatefulSet>,
    data: Option<StatefulSet>,
    mysqld: Option<StatefulSet>,
    pods: map<int, Template>,  // data node pods by ordinal, with the revision they run
    inducted: set<int>,        // ordinals of data nodes that belong to a node group
    servers: nat,              // running MySQL servers
    ceiling: nat,              // how many the StatefulSet controller may still start
    rootUsers: set<string>)    // hosts with a root user

  function ManagementNodes(w: World): nat {
    if w.redundancy == 1 then 1 else 2
  }

  function Slots(spec: Spec): nat {
    spec.maxMySQL * spec.pool
  }

  /** The template of config.ini fails for a negative number of free API slots, and with it every attempt to write the config map. */
  predicate Renderable(spec: Spec) {
    0 <= spec.freeSlots
  }

  datatype Call =
    | CreateConfigMap | CreateMgmd | CreateData | CreateMysqld
    | PatchMgmd | PatchData | PatchMysqld | DeleteMysqld | DeletePod
    | ScaleData | MakeGroups | Reorganise | ClearAddNode | RootUser | PatchRoot | PatchConfig

  /** How the environment answers during one call of sync. */
  datatype Answers = Answers(
    fails: set<Call>,
    keepsConfig: bool,                         // does config.ini stay as it is, if the counts allow?
    keepsCnf: bool,
    status: Option<ClusterStatus.Cluster>,     // as the management server reports it
    cache: map<int, Template>,                 // data node pods as the operator sees them
    refusing: set<int>,                        // pods that cannot be deleted
    newGroups: set<int>,                       // new nodes the management server groups
    podErrors: bool,
    statusUpdateFails: bool)

  datatype Result = Continue | Finish | Error

  /** A sync in progress: the state of the cluster and what the SyncContext has read of it. */
  datatype Ctx = Ctx(
    w: World, cs: ConfigMap, mgmd: Option<StatefulSet>, data: Option<StatefulSet>, mysqld: Option<StatefulSet>, success: bool)

  // ----- StatefulSets and patches

  const NO_STATUS := Status(0, 0, 0, 0, 0, Template(0, 0, 0, "", false, 0))

  function NewMgmd(cs: ConfigMap, w: World): StatefulSet {
    StatefulSet(1, cs.generation, false, None, None, ManagementNodes(w),
                Template(cs.version, 0, 0, "", false, w.ndb.spec.shape), false, NO_STATUS)
  }

  function NewData(cs: ConfigMap, w: World): StatefulSet {
    StatefulSet(1, cs.generation, false, None, None, cs.spec.numData,
                Template(cs.version, 0, 0, w.ndb.spec.tde, cs.initialRestart, w.ndb.spec.shape), true, NO_STATUS)
  }

  /** The number of servers comes from the specification, not from the config map. */
  function NewMysqld(cs: ConfigMap, w: World): StatefulSet {
    StatefulSet(1, cs.generation, false, None, None, w.ndb.spec.numMySQL,
                Template(cs.version, cs.cnfVersion, w.ndb.spec.pool, "", false, w.ndb.spec.shape), false, NO_STATUS)
  }

  /** A merge patch: what differs between the two objects is applied to the stored one. */
  function ApplyDiff(stored: StatefulSet, existing: StatefulSet, updated: StatefulSet): StatefulSet {
    var replicas := if updated.replicas != existing.replicas then updated.replicas else stored.replicas;
    var template := if updated.template != existing.template then updated.template else stored.template;
    stored.(
      applied := if updated.applied != existing.applied then updated.applied else stored.applied,
      addNode := if updated.addNode != existing.addNode then updated.addNode else stored.addNode,
      rootGen := if updated.rootGen != existing.rootGen then updated.rootGen else stored.rootGen,
      rootHost := if updated.rootHost != existing.rootHost then updated.rootHost else stored.rootHost,
      replicas := replicas,
      template := template,
      generation := if replicas != stored.replicas || template != stored.template then stored.generation + 1 else stored.generation)
  }

  /** The stored object after a patch, and whether reconciliation goes on: yes, if only annotations changed. */
  function Patched(stored: Option<StatefulSet>, existing: StatefulSet, updated: StatefulSet, fails: bool): (Option<StatefulSet>, Result) {
    if fails || stored.None? then (stored, Error)
    else
      var s := ApplyDiff(stored.value, existing, updated);
      (Some(s), if s.generation == existing.generation then Continue else Finish)
  }

  /** A rebuilt object takes over what the API server owns. */
  function Rebuilt(existing: StatefulSet, built: StatefulSet): StatefulSet {
    built.(generation := existing.generation, status := existing.status, onDelete := existing.onDelete)
  }

  /** New data nodes are not started yet when the configuration is first applied. */
  function RebuiltData(existing: StatefulSet, cs: ConfigMap, w: World): StatefulSet {
    var s := Rebuilt(existing, NewData(cs, w));
    if existing.replicas < s.replicas then s.(replicas := existing.replicas, addNode := true) else s
  }

  /** The config map once the specification has been written to it; config.ini stays only if the counts agree. */
  function WithSpec(cm: ConfigMap, ndb: Ndb, a: Answers): ConfigMap {
    var kept := a.keepsConfig && cm.spec.numData >= ndb.spec.numData && Slots(cm.spec) == Slots(ndb.spec)
                && cm.spec.freeSlots == ndb.spec.freeSlots
                && (cm.spec.tde == "" <==> ndb.spec.tde == "");
    ConfigMap(ndb.generation, ndb.spec, cm.initialRestart || cm.spec.tde != ndb.spec.tde,
              if kept then cm.version else cm.version + 1, if a.keepsCnf then cm.cnfVersion else cm.cnfVersion + 1)
  }

  function UpdatedConfigMap(cm: ConfigMap, ndb: Ndb, a: Answers): ConfigMap {
    if cm.generation == ndb.generation then cm.(initialRestart := false) else WithSpec(cm, ndb, a)
  }

  // ----- the phases of one sync

  /** patchConfigMap; None when there was nothing to patch. */
  function PatchTheConfigMap(c: Ctx, a: Answers): Option<(Ctx, Result)> {
    if c.cs.generation != c.w.ndb.generation || IsInitialFlagSet(c.data) then
      if PatchConfig in a.fails || c.w.cm.None? || (c.cs.generation != c.w.ndb.generation && !Renderable(c.w.ndb.spec))
      then Some((c, Error))
      else Some((c.(w := c.w.(cm := Some(UpdatedConfigMap(c.w.cm.value, c.w.ndb, a)))), Finish))
    else None
  }

  function EnsureConfig(c: Ctx, a: Answers): (Ctx, Result) {
    if c.w.cm.None? && (CreateConfigMap in a.fails || !Renderable(c.w.ndb.spec)) then (c, Error)
    else
      var cm := if c.w.cm.Some? then c.w.cm.value else ConfigMap(c.w.ndb.generation, c.w.ndb.spec, false, 1, 1);
      var c := c.(w := c.w.(cm := Some(cm)), cs := cm);
      if c.w.ndb.syncError then
        match PatchTheConfigMap(c, a)
        case Some(r) => r
        case None => (c, Continue)
      else (c, Continue)
  }

  function EnsureMgmd(c: Ctx, a: Answers): (Ctx, Result) {
    if c.w.mgmd.None? then
      if CreateMgmd in a.fails then (c, Error)
      else var s := Some(NewMgmd(c.cs, c.w)); (c.(w := c.w.(mgmd := s), mgmd := s), Finish)
    else
      var c := c.(mgmd := c.w.mgmd);
      if c.w.ndb.processed == 0 && !UpdateComplete(c.mgmd.value) then
        if !HasGeneration(c.mgmd.value, c.cs.generation) then
          match ReconcileMgmd(c, a)
          case (c', Error) => (c', Error)
          case (c', Finish) => (c', if DeletePod in a.fails then Error else Finish)
          case (c', Continue) => (c', Finish)
        else (c, Finish)
      else (c, Continue)
  }

  /** The data nodes of the first configuration form node groups on their own. */
  function EnsureData(c: Ctx, a: Answers): (Ctx, Result) {
    if c.w.data.None? then
      if CreateData in a.fails then (c, Error)
      else
        var s := Some(NewData(c.cs, c.w));
        (c.(w := c.w.(data := s, inducted := ClusterStatus.Range(c.cs.spec.numData)), data := s), Finish)
    else
      var c := c.(data := c.w.data);
      if c.w.ndb.processed == 0 && !UpdateComplete(c.data.value) then
        if !HasGeneration(c.data.value, c.cs.generation) then
          match ReconcileData(c, a)
          case (c', Continue) => (c', Finish)
          case r => r
        else (c, Finish)
      else (c, Continue)
  }

  function FindMysqld(c: Ctx): (Ctx, Result) {
    var c := c.(mysqld := c.w.mysqld);
    (c, if c.mysqld.Some? && !UpdateComplete(c.mysqld.value) && !c.w.ndb.syncError then Finish else Continue)
  }

  predicate Waits(s: Option<StatefulSet>, generation: nat, done: bool) {
    s.Some? && HasGeneration(s.value, generation) && !done
  }

  function CheckReadiness(c: Ctx): (Ctx, Result) {
    var g := c.cs.generation;
    (c, if || Waits(c.mgmd, g, c.mgmd.Some? && UpdateComplete(c.mgmd.value))
           || Waits(c.data, g, c.data.Some? && Ready(c.data.value))
           || Waits(c.mysqld, g, c.mysqld.Some? && UpdateComplete(c.mysqld.value))
        then Finish else Continue)
  }

  function HandleScaleDown(c: Ctx, a: Answers): (Ctx, Result) {
    if c.mysqld.None? then (c, Continue)
    else if Waits(c.mysqld, c.cs.generation, UpdateComplete(c.mysqld.value)) then (c, Finish)
    else if c.mysqld.value.status.replicas <= c.cs.spec.numMySQL then (c, Continue)
    else if c.cs.spec.numMySQL == 0 then
      if RootUser in a.fails then (c, Error)
      else
        var host := c.mysqld.value.rootHost;
        var c := c.(w := c.w.(rootUsers := c.w.rootUsers - if host.Some? then {host.value} else {}));
        if DeleteMysqld in a.fails then (c, Error) else (c.(w := c.w.(mysqld := None)), Finish)
    else
      var (s, r) := Patched(c.w.mysqld, c.mysqld.value, c.mysqld.value.(replicas := c.cs.spec.numMySQL), PatchMysqld in a.fails);
      (c.(w := WithMysqld(c.w, s)), r)
  }

  /** A scaled StatefulSet may start servers up to the larger count until its controller has seen the change. */
  function WithMysqld(w: World, s: Option<StatefulSet>): World {
    w.(mysqld := s, ceiling := if s.Some? && s.value.replicas > w.ceiling then s.value.replicas else w.ceiling)
  }

  function ReconcileMgmd(c: Ctx, a: Answers): (Ctx, Result) {
    if c.mgmd.None? then (c, Error)
    else if HasGeneration(c.mgmd.value, c.cs.generation) then (c, Continue)
    else
      var (s, r) := Patched(c.w.mgmd, c.mgmd.value, Rebuilt(c.mgmd.value, NewMgmd(c.cs, c.w)), PatchMgmd in a.fails);
      (c.(w := c.w.(mgmd := s)), r)
  }

  /** With a sync error, a pod of the management nodes is deleted to speed the update up. */
  function UpdateMgmd(c: Ctx, a: Answers): (Ctx, Result) {
    match ReconcileMgmd(c, a)
    case (c', Finish) => (c', if c.w.ndb.syncError && DeletePod in a.fails then Error else Finish)
    case r => r
  }

  function ReconcileData(c: Ctx, a: Answers): (Ctx, Result) {
    if c.data.None? then (c, Error)
    else if HasGeneration(c.data.value, c.cs.generation) && !(c.data.value.template.initial && !c.cs.initialRestart) then (c, Continue)
    else
      var (s, r) := Patched(c.w.data, c.data.value, RebuiltData(c.data.value, c.cs, c.w), PatchData in a.fails);
      (c.(w := c.w.(data := s)), r)
  }

  ghost function EnsureDataPods(c: Ctx, a: Answers): (Ctx, Result) {
    if c.data.None? then (c, Error)
    else
      var view := Rollout.View(a.cache, c.data.value.status.updateRevision, a.refusing, ManagementNodes(c.w));
      var (gone, outcome) := Rollout.EnsurePods(UpdateComplete(c.data.value), a.status, c.w.redundancy, view);
      var ordinals := Rollout.Ordinals(gone, ManagementNodes(c.w));
      (c.(w := c.w.(pods := c.w.pods - ordinals)),
       match outcome
       case Continue => Continue
       case Finish => Finish
       case _ => Error)
  }

  function UpdateMysqld(c: Ctx, a: Answers): (Ctx, Result) {
    if c.mysqld.None? then
      if c.cs.spec.numMySQL == 0 then (c, Continue)
      else if CreateMysqld in a.fails then (c, Error)
      else (c.(w := WithMysqld(c.w, Some(NewMysqld(c.cs, c.w)))), Finish)
    else if HasGeneration(c.mysqld.value, c.cs.generation) then (c, Continue)
    else
      var (s, r) := Patched(c.w.mysqld, c.mysqld.value, Rebuilt(c.mysqld.value, NewMysqld(c.cs, c.w)), PatchMysqld in a.fails);
      (c.(w := WithMysqld(c.w, s)), r)
  }

  function StartNewDataNodes(c: Ctx, a: Answers): (Ctx, Result)
    requires c.data.Some?
  {
    if c.data.value.replicas == c.cs.spec.numData then (c, Continue)
    else
      var (s, r) := Patched(c.w.data, c.data.value, c.data.value.(replicas := c.cs.spec.numData), ScaleData in a.fails);
      (c.(w := c.w.(data := s)), r)
  }

  /** New node groups; some may exist even if the call fails midway. */
  function CreateNodeGroups(c: Ctx, a: Answers): (Ctx, Result) {
    (c.(w := c.w.(inducted := c.w.inducted + a.newGroups * c.w.pods.Keys)), if MakeGroups in a.fails then Error else Continue)
  }

  function HandleAddNode(c: Ctx, a: Answers): (Ctx, Result) {
    if c.data.None? then (c, Error)
    else if !c.data.value.addNode then (c, Continue)
    else
      match StartNewDataNodes(c, a)
      case (c1, Continue) =>
        (match CreateNodeGroups(c1, a)
         case (c2, Continue) =>
           if c.mysqld.None? || Reorganise in a.fails then (c2, Error)
           else
             var (s, r) := Patched(c2.w.data, c.data.value, c.data.value.(addNode := false), ClearAddNode in a.fails);
             (c2.(w := c2.w.(data := s)), r)
         case r => r)
      case r => r
  }

  function RootUsersAfter(users: set<string>, existing: Option<string>, host: string): set<string> {
    match existing
    case None => users + {host}
    case Some(h) => if h != host then users - {h} + {host} else users
  }

  function ReconcileRoot(c: Ctx, a: Answers): (Ctx, Result) {
    if c.mysqld.None? then (c, Continue)
    else
      var s := c.mysqld.value;
      var rootGen := if s.rootGen.Some? then s.rootGen.value else 0;
      if rootGen == c.cs.generation then (c, Continue)
      else if RootUser in a.fails then (c, Error)
      else
        var host := c.w.ndb.spec.rootHost;
        var (t, r) := Patched(c.w.mysqld, s, s.(rootHost := Some(host), rootGen := Some(c.cs.generation)), PatchRoot in a.fails);
        (c.(w := c.w.(mysqld := t, rootUsers := RootUsersAfter(c.w.rootUsers, s.rootHost, host))), r)
  }

  function FinishSync(c: Ctx, a: Answers): (Ctx, Result) {
    match PatchTheConfigMap(c, a)
    case Some(r) => r
    case None => (c.(success := true), Finish)
  }

  const LAST := 12

  ghost function Phase(i: nat, c: Ctx, a: Answers): (Ctx, Result)
    requires i <= LAST
  {
    match i
    case 0 => EnsureConfig(c, a)
    case 1 => EnsureMgmd(c, a)
    case 2 => EnsureData(c, a)
    case 3 => FindMysqld(c)
    case 4 => CheckReadiness(c)
    case 5 => HandleScaleDown(c, a)
    case 6 => UpdateMgmd(c, a)
    case 7 => ReconcileData(c, a)
    case 8 => EnsureDataPods(c, a)
    case 9 => UpdateMysqld(c, a)
    case 10 => HandleAddNode(c, a)
    case 11 => ReconcileRoot(c, a)
    case _ => FinishSync(c, a)
  }

  /** The phases from `i` on, up to the first that does not continue. */
  ghost function RunFrom(i: nat, c: Ctx, a: Answers): (Ctx, Result)
    requires i <= LAST
    decreases LAST - i
  {
    var r := Phase(i, c, a);
    if i == LAST || r.1 != Continue then r else RunFrom(i + 1, r.0, a)
  }

  function Start(w: World): Ctx {
    Ctx(w, ConfigMap(0, w.ndb.spec, false, 0, 0), None, None, None, false)
  }

  ghost function Sync(w: World, a: Answers): (Ctx, Result) {
    RunFrom(0, Start(w), a)
  }

  /** syncHandler: an error leaves the status alone, otherwise the status reports the outcome. */
  function Reported(c: Ctx, r: Result, a: Answers): World {
    if r == Error || a.statusUpdateFails then c.w
    else if c.success then c.w.(ndb := c.w.ndb.(processed := c.w.ndb.generation, syncError := false))
    else c.w.(ndb := c.w.ndb.(syncError := a.podErrors))
  }

  ghost function SyncHandler(w: World, a: Answers): World {
    var (c, r) := Sync(w, a);
    Reported(c, r, a)
  }
}
