/**
 The reconcile loop in its own form (pkg/controllers/sync_context.go): an object that reads the
 cluster piece by piece, patches it, and stops at the first step that does not continue. Every
 method is proved to do what the phase functions say.
 */
module SyncContext {
  import opened Wrappers
  import opened StatefulSets
  import opened Reconcile
  import ClusterStatus
  import Rollout

  class SyncContext {
    const answers: Answers
    var w: World  // the objects in the API server, and what runs in the cluster
    var configSummary: ConfigMap
    var mgmdNodeSfset: Option<StatefulSet>
    var dataNodeSfSet: Option<StatefulSet>
    var mysqldSfset: Option<StatefulSet>
    var syncSuccess: bool

    ghost function State(): Ctx
      reads this
    {
      Ctx(w, configSummary, mgmdNodeSfset, dataNodeSfSet, mysqldSfset, syncSuccess)
    }

    constructor (w: World, answers: Answers)
      ensures this.answers == answers && State() == Start(w)
    {
      this.w, this.answers := w, answers;
      configSummary := ConfigMap(0, w.ndb.spec, false, 0, 0);
      mgmdNodeSfset, dataNodeSfSet, mysqldSfset, syncSuccess := None, None, None, false;
    }

    method CallFails(call: Call) returns (fails: bool)
      ensures fails <==> call in answers.fails
    {
      fails := call in answers.fails;
    }

    /** The annotations of the object, with the differences between the two versions applied. */
    method PatchAnnotations(stored: StatefulSet, existing: StatefulSet, updated: StatefulSet) returns (s: StatefulSet)
      ensures var d := ApplyDiff(stored, existing, updated);
              s == d.(generation := stored.generation, replicas := stored.replicas, template := stored.template)
    {
      var applied, addNode, rootGen, rootHost := stored.applied, stored.addNode, stored.rootGen, stored.rootHost;
      if updated.applied != existing.applied {
        applied := updated.applied;
      }
      if updated.addNode != existing.addNode {
        addNode := updated.addNode;
      }
      if updated.rootGen != existing.rootGen {
        rootGen := updated.rootGen;
      }
      if updated.rootHost != existing.rootHost {
        rootHost := updated.rootHost;
      }
      s := stored.(applied := applied, addNode := addNode, rootGen := rootGen, rootHost := rootHost);
    }

    /** patchStatefulSet: goes on only if the generation of the object stays the same. */
    method PatchStatefulSet(stored: Option<StatefulSet>, existing: StatefulSet, updated: StatefulSet, call: Call)
      returns (patched: Option<StatefulSet>, r: Reconcile.Result)
      ensures (patched, r) == Patched(stored, existing, updated, call in answers.fails)
    {
      var fails := CallFails(call);
      if fails || stored.None? {
        return stored, Error;
      }
      var s := PatchAnnotations(stored.value, existing, updated);
      var replicas := if updated.replicas != existing.replicas then updated.replicas else s.replicas;
      var template := if updated.template != existing.template then updated.template else s.template;
      if replicas != s.replicas || template != s.template {
        s := s.(replicas := replicas, template := template, generation := s.generation + 1);
      }
      return Some(s), if s.generation == existing.generation then Continue else Finish;
    }

    method PatchConfigMap() returns (done: bool, r: Reconcile.Result)
      modifies this`w
      ensures match PatchTheConfigMap(old(State()), answers)
              case None => !done && State() == old(State())
              case Some((c, r')) => done && r == r' && State() == c
    {
      if configSummary.generation == w.ndb.generation && !IsInitialFlagSet(dataNodeSfSet) {
        return false, Continue;
      }
      var fails := CallFails(PatchConfig);
      if fails || w.cm.None? || (configSummary.generation != w.ndb.generation && !Renderable(w.ndb.spec)) {
        return true, Error;
      }
      w := w.(cm := Some(UpdatedConfigMap(w.cm.value, w.ndb, answers)));
      return true, Finish;
    }

    method EnsureConfigMap() returns (r: Reconcile.Result)
      modifies this
      ensures (State(), r) == EnsureConfig(old(State()), answers)
    {
      if w.cm.None? {
        var fails := CallFails(CreateConfigMap);
        if fails || !Renderable(w.ndb.spec) {
          return Error;
        }
        w := w.(cm := Some(ConfigMap(w.ndb.generation, w.ndb.spec, false, 1, 1)));
      }
      configSummary := w.cm.value;
      if w.ndb.syncError {
        var done, result := PatchConfigMap();
        if done {
          return result;
        }
      }
      r := Continue;
    }

    method EnsureManagementServerStatefulSet() returns (r: Reconcile.Result)
      modifies this
      ensures (State(), r) == EnsureMgmd(old(State()), answers)
    {
      if w.mgmd.None? {
        var fails := CallFails(CreateMgmd);
        if fails {
          return Error;
        }
        mgmdNodeSfset := Some(NewMgmd(configSummary, w));
        w := w.(mgmd := mgmdNodeSfset);
        return Finish;
      }
      mgmdNodeSfset := w.mgmd;
      if w.ndb.processed == 0 && !UpdateComplete(mgmdNodeSfset.value) {
        if !HasGeneration(mgmdNodeSfset.value, configSummary.generation) {
          r := ReconcileManagementNodeStatefulSet();
          if r == Finish {
            var fails := CallFails(DeletePod);
            return if fails then Error else Finish;
          } else if r == Error {
            return;
          }
        }
        return Finish;
      }
      r := Continue;
    }

    method EnsureDataNodeStatefulSet() returns (r: Reconcile.Result)
      modifies this
      ensures (State(), r) == EnsureData(old(State()), answers)
    {
      if w.data.None? {
        var fails := CallFails(CreateData);
        if fails {
          return Error;
        }
        dataNodeSfSet := Some(NewData(configSummary, w));
        w := w.(data := dataNodeSfSet, inducted := ClusterStatus.Range(configSummary.spec.numData));
        return Finish;
      }
      dataNodeSfSet := w.data;
      if w.ndb.processed == 0 && !UpdateComplete(dataNodeSfSet.value) {
        if !HasGeneration(dataNodeSfSet.value, configSummary.generation) {
          r := ReconcileDataNodeStatefulSet();
          if r != Continue {
            return;
          }
        }
        return Finish;
      }
      r := Continue;
    }

    method FindMySQLServerStatefulSet() returns (r: Reconcile.Result)
      modifies this`mysqldSfset
      ensures (State(), r) == FindMysqld(old(State()))
    {
      mysqldSfset := w.mysqld;
      if mysqldSfset.Some? && !UpdateComplete(mysqldSfset.value) && !w.ndb.syncError {
        return Finish;
      }
      r := Continue;
    }

    method EnsureAllResources() returns (r: Reconcile.Result)
      modifies this
      ensures r == Continue ==> RunFrom(0, old(State()), answers) == RunFrom(4, State(), answers)
      ensures r != Continue ==> RunFrom(0, old(State()), answers) == (State(), r)
    {
      hide EnsureConfig, EnsureMgmd, EnsureData, FindMysqld;
      ghost var c := State();
      r := EnsureConfigMap();
      Unfold(0, c, answers);
      if r != Continue {
        return;
      }
      c := State();
      r := EnsureManagementServerStatefulSet();
      Unfold(1, c, answers);
      if r != Continue {
        return;
      }
      c := State();
      r := EnsureDataNodeStatefulSet();
      Unfold(2, c, answers);
      if r != Continue {
        return;
      }
      c := State();
      r := FindMySQLServerStatefulSet();
      Unfold(3, c, answers);
    }

    method IsStatefulsetUpdated(sfset: Option<StatefulSet>, complete: bool) returns (updated: bool)
      ensures updated <==>
        !Waits(sfset, configSummary.generation,
               sfset.Some? && if complete then UpdateComplete(sfset.value) else Ready(sfset.value))
    {
      if sfset.None? {
        return true;
      }
      if !HasGeneration(sfset.value, configSummary.generation) {
        return true;
      }
      updated := if complete then UpdateComplete(sfset.value) else Ready(sfset.value);
    }

    method EnsureWorkloadsReadiness() returns (r: Reconcile.Result)
      ensures (State(), r) == CheckReadiness(State())
    {
      var mgmd := IsStatefulsetUpdated(mgmdNodeSfset, true);
      var data := IsStatefulsetUpdated(dataNodeSfSet, false);
      var mysqld := IsStatefulsetUpdated(mysqldSfset, true);
      r := if mgmd && data && mysqld then Continue else Finish;
    }

    method ScaleDownMySQLServers() returns (r: Reconcile.Result)
      modifies this`w
      ensures (State(), r) == HandleScaleDown(old(State()), answers)
    {
      if mysqldSfset.None? {
        return Continue;
      }
      var updated := IsStatefulsetUpdated(mysqldSfset, true);
      if !updated {
        return Finish;
      }
      var mysqldNodeCount := configSummary.spec.numMySQL;
      if mysqldSfset.value.status.replicas <= mysqldNodeCount {
        return Continue;
      }
      if mysqldNodeCount == 0 {
        var fails := CallFails(RootUser);
        if fails {
          return Error;
        }
        var host := mysqldSfset.value.rootHost;
        w := w.(rootUsers := w.rootUsers - if host.Some? then {host.value} else {});
        fails := CallFails(DeleteMysqld);
        if fails {
          return Error;
        }
        w := w.(mysqld := None);
        return Finish;
      }
      var s;
      s, r := PatchStatefulSet(w.mysqld, mysqldSfset.value, mysqldSfset.value.(replicas := mysqldNodeCount), PatchMysqld);
      w := WithMysqld(w, s);
    }

    method ReconcileManagementNodeStatefulSet() returns (r: Reconcile.Result)
      modifies this`w
      ensures (State(), r) == ReconcileMgmd(old(State()), answers)
    {
      if mgmdNodeSfset.None? {
        return Error;
      }
      if HasGeneration(mgmdNodeSfset.value, configSummary.generation) {
        return Continue;
      }
      var s;
      s, r := PatchStatefulSet(w.mgmd, mgmdNodeSfset.value,
                               Rebuilt(mgmdNodeSfset.value, NewMgmd(configSummary, w)), PatchMgmd);
      w := w.(mgmd := s);
    }

    method UpdateManagementNodes() returns (r: Reconcile.Result)
      modifies this`w
      ensures (State(), r) == UpdateMgmd(old(State()), answers)
    {
      r := ReconcileManagementNodeStatefulSet();
      if r == Finish && w.ndb.syncError {
        var fails := CallFails(DeletePod);
        if fails {
          return Error;
        }
      }
    }

    method ReconcileDataNodeStatefulSet() returns (r: Reconcile.Result)
      modifies this`w
      ensures (State(), r) == ReconcileData(old(State()), answers)
    {
      if dataNodeSfSet.None? {
        return Error;
      }
      var sfset := dataNodeSfSet.value;
      if HasGeneration(sfset, configSummary.generation) {
        if !(sfset.template.initial && !configSummary.initialRestart) {
          return Continue;
        }
      }
      var updated := Rebuilt(sfset, NewData(configSummary, w));
      if sfset.replicas < updated.replicas {
        updated := updated.(replicas := sfset.replicas);
        updated := updated.(addNode := true);
      }
      var s;
      s, r := PatchStatefulSet(w.data, sfset, updated, PatchData);
      w := w.(data := s);
    }

    method EnsureDataNodePodVersion() returns (r: Reconcile.Result)
      modifies this`w
      ensures (State(), r) == EnsureDataPods(old(State()), answers)
    {
      if dataNodeSfSet.None? {
        return Error;
      }
      var m := ManagementNodes(w);
      var client := new Rollout.PodClient(
        Rollout.View(answers.cache, dataNodeSfSet.value.status.updateRevision, answers.refusing, m));
      var outcome := client.EnsureDataNodePodVersion(dataNodeSfSet.value, answers.status, w.redundancy);
      ghost var gone := Rollout.EnsurePods(UpdateComplete(dataNodeSfSet.value), answers.status, w.redundancy, client.view).0;
      assert client.deleted == [] + gone == gone;
      w := w.(pods := w.pods - Rollout.Ordinals(client.deleted, m));
      match outcome {
        case Continue => r := Continue;
        case Finish => r := Finish;
        case _ => r := Error;
      }
    }

    method ReconcileMySQLServers() returns (r: Reconcile.Result)
      modifies this`w
      ensures (State(), r) == UpdateMysqld(old(State()), answers)
    {
      if mysqldSfset.None? {
        if configSummary.spec.numMySQL == 0 {
          return Continue;
        }
        var fails := CallFails(CreateMysqld);
        if fails {
          return Error;
        }
        w := WithMysqld(w, Some(NewMysqld(configSummary, w)));
        return Finish;
      }
      if HasGeneration(mysqldSfset.value, configSummary.generation) {
        return Continue;
      }
      var s;
      s, r := PatchStatefulSet(w.mysqld, mysqldSfset.value,
                               Rebuilt(mysqldSfset.value, NewMysqld(configSummary, w)), PatchMysqld);
      w := WithMysqld(w, s);
    }

    method HandleAddNodeOnline() returns (r: Reconcile.Result)
      modifies this`w
      ensures (State(), r) == HandleAddNode(old(State()), answers)
    {
      if dataNodeSfSet.None? {
        return Error;
      }
      var sfset := dataNodeSfSet.value;
      if !sfset.addNode {
        return Continue;
      }
      var s;
      if sfset.replicas != configSummary.spec.numData {
        s, r := PatchStatefulSet(w.data, sfset, sfset.(replicas := configSummary.spec.numData), ScaleData);
        w := w.(data := s);
        if r != Continue {
          return;
        }
      }
      w := w.(inducted := w.inducted + answers.newGroups * w.pods.Keys);
      var fails := CallFails(MakeGroups);
      if fails {
        return Error;
      }
      fails := CallFails(Reorganise);
      if mysqldSfset.None? || fails {
        return Error;
      }
      s, r := PatchStatefulSet(w.data, sfset, sfset.(addNode := false), ClearAddNode);
      w := w.(data := s);
    }

    method ReconcileRootUser() returns (r: Reconcile.Result)
      modifies this`w
      ensures (State(), r) == ReconcileRoot(old(State()), answers)
    {
      if mysqldSfset.None? {
        return Continue;
      }
      var sfset := mysqldSfset.value;
      var rootUserGen := 0;
      if sfset.rootGen.Some? {
        rootUserGen := sfset.rootGen.value;
      }
      if rootUserGen == configSummary.generation {
        return Continue;
      }
      var newRootHost := w.ndb.spec.rootHost;
      var fails := CallFails(RootUser);
      if fails {
        return Error;
      }
      if sfset.rootHost.None? {
        w := w.(rootUsers := w.rootUsers + {newRootHost});
      } else if sfset.rootHost.value != newRootHost {
        w := w.(rootUsers := w.rootUsers - {sfset.rootHost.value} + {newRootHost});
      }
      var s;
      s, r := PatchStatefulSet(w.mysqld, sfset,
                               sfset.(rootHost := Some(newRootHost), rootGen := Some(configSummary.generation)), PatchRoot);
      w := w.(mysqld := s);
    }

    method EndSync() returns (r: Reconcile.Result)
      modifies this
      ensures (State(), r) == FinishSync(old(State()), answers)
    {
      var done, result := PatchConfigMap();
      if done {
        return result;
      }
      syncSuccess := true;
      r := Finish;
    }

    method Synchronize() returns (r: Reconcile.Result)
      requires State() == Start(w)
      modifies this
      ensures (State(), r) == Reconcile.Sync(old(w), answers)
    {
      hide EnsureConfig, EnsureMgmd, EnsureData, FindMysqld, CheckReadiness, HandleScaleDown, UpdateMgmd, ReconcileData, EnsureDataPods,
        UpdateMysqld, HandleAddNode, ReconcileRoot, FinishSync, RunFrom;
      r := EnsureAllResources();
      if r != Continue {
        return;
      }
      r := EnsureWorkloadsReadiness();
      Unfold(4, State(), answers);
      if r != Continue {
        return;
      }
      ghost var c := State();
      r := ScaleDownMySQLServers();
      Unfold(5, c, answers);
      if r != Continue {
        return;
      }
      c := State();
      r := UpdateManagementNodes();
      Unfold(6, c, answers);
      if r != Continue {
        return;
      }
      c := State();
      r := ReconcileDataNodeStatefulSet();
      Unfold(7, c, answers);
      if r != Continue {
        return;
      }
      c := State();
      r := EnsureDataNodePodVersion();
      Unfold(8, c, answers);
      if r != Continue {
        return;
      }
      c := State();
      r := ReconcileMySQLServers();
      Unfold(9, c, answers);
      if r != Continue {
        return;
      }
      c := State();
      r := HandleAddNodeOnline();
      Unfold(10, c, answers);
      if r != Continue {
        return;
      }
      c := State();
      r := ReconcileRootUser();
      Unfold(11, c, answers);
      if r != Continue {
        return;
      }
      c := State();
      r := EndSync();
      Unfold(12, c, answers);
    }

    /** syncHandler: runs the sync and reports the status unless it failed. */
    method HandleSync() returns (r: Reconcile.Result)
      requires State() == Start(w)
      modifies this
      ensures w == SyncHandler(old(w), answers)
    {
      hide Reconcile.Sync;
      r := Synchronize();
      if r == Error || answers.statusUpdateFails {
        return;
      }
      if syncSuccess {
        w := w.(ndb := w.ndb.(processed := w.ndb.generation, syncError := false));
      } else {
        w := w.(ndb := w.ndb.(syncError := answers.podErrors));
      }
    }
  }

  lemma Unfold(i: nat, c: Ctx, a: Answers)
    requires i <= LAST
    ensures RunFrom(i, c, a)
         == var r := Phase(i, c, a); if i == LAST || r.1 != Continue then r else RunFrom(i + 1, r.0, a)
  {
    hide Phase;
  }
}
