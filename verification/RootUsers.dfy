/**
 The root user over a whole update. The annotation that records the root user's host is dropped
 whenever the StatefulSet of the MySQL servers is rebuilt, so whether the old root user goes away
 depends on whether the same sync still sees the old copy of the object.
 */
module RootUsers {
  import opened Wrappers
  import opened StatefulSets
  import opened Reconcile
  import opened ReconcileRuns
  import opened ReconcileSuccess
  import opened ReconcilePaths
  import opened ReconcileUpdates
  import opened UpdateRuns
  import opened TwoPhaseRestart
  import opened Convergence
  import opened RoundsExist
  import Rollout

  // ----- the StatefulSet of the MySQL servers, and the configuration it carries

  function MysqldTemplate(cm: ConfigMap): Template {
    Template(cm.version, cm.cnfVersion, cm.spec.pool, "", false, cm.spec.shape)
  }

  /** Up to date means the current template and number of servers; with an older generation but the current config.ini no data node is waiting. */
  predicate Versioned(w: World) {
    w.cm.Some? && w.mysqld.Some? ==>
      var s, cm := w.mysqld.value, w.cm.value;
      && s.template.version <= cm.version
      && (s.applied == cm.generation ==> s.template == MysqldTemplate(cm) && s.replicas == cm.spec.numMySQL)
      && (s.applied != cm.generation && s.template.version == cm.version && w.data.Some? ==>
            w.data.value.replicas >= cm.spec.numData && !w.data.value.addNode)
  }

  // ----- the story of one update

  /** How things stood before the update: root users, recorded host, template and number of servers. */
  datatype Origin = Origin(users: set<string>, record: Option<string>, template: Option<Template>, servers: nat)

  /** The update reaches the servers by annotations alone. */
  predicate InPlace(o: Origin, t: Template, servers: nat) {
    o.template == Some(t) && servers <= o.servers
  }

  /**
   One sync rebuilds the StatefulSet in place while the host is recorded, and gets the root-user statement
   through: then it reads the record from its old copy and moves the root user.
   */
  predicate Moves(w: World, v: World, a: Answers) {
    && w.mysqld.Some? && v.mysqld.Some? && RootUser !in a.fails
    && var s, t := w.mysqld.value, v.mysqld.value;
       && s.rootHost.Some? && s.applied != w.ndb.generation && t.applied == w.ndb.generation
       && t.template == s.template && t.replicas == s.replicas
  }

  function UsersAfter(o: Origin, moved: bool, host: string): set<string> {
    RootUsersAfter(o.users, if moved then o.record else None, host)
  }

  /** The new record is a difference to the old copy, so an equal one is not written again. */
  function RecordAfter(o: Origin, inPlace: bool, host: string): Option<string> {
    if inPlace && o.record == Some(host) then None else Some(host)
  }

  /** The update has not reached the servers yet, except that superfluous ones may be gone. */
  predicate Before(s: StatefulSet, w: World, o: Origin) {
    && o.template == Some(s.template) && w.rootUsers == o.users
    && s.rootHost == o.record && s.rootGen == Some(s.applied)
    && (s.replicas == o.servers || (s.replicas == w.ndb.spec.numMySQL && w.ndb.spec.numMySQL < o.servers))
  }

  /** The servers are patched, but the root user is not recorded as done. */
  predicate Between(s: StatefulSet, w: World, o: Origin, moved: bool) {
    && s.rootHost.None? && s.rootGen.None?
    && (w.rootUsers == UsersAfter(o, moved, w.ndb.spec.rootHost) || (!moved && w.rootUsers == o.users))
  }

  predicate Done(s: StatefulSet, w: World, o: Origin, moved: bool) {
    && w.rootUsers == UsersAfter(o, moved, w.ndb.spec.rootHost)
    && (s.rootHost == Some(w.ndb.spec.rootHost) || s.rootHost == RecordAfter(o, InPlace(o, s.template, w.ndb.spec.numMySQL), w.ndb.spec.rootHost))
  }

  /** With no call failing on the way, an update in place moves the root user and leaves nothing in between. */
  predicate Clean(s: StatefulSet, w: World, o: Origin, moved: bool) {
    var inPlace := InPlace(o, s.template, w.ndb.spec.numMySQL);
    if s.rootGen == Some(w.ndb.generation) then
      (inPlace && o.record.Some? ==> moved) && s.rootHost == RecordAfter(o, inPlace, w.ndb.spec.rootHost)
    else
      !inPlace && !moved && w.rootUsers == o.users
  }

  /** Where the update stands; `moved` says whether a sync has moved the root user, `clean` whether no call has failed. */
  predicate Story(w: World, o: Origin, moved: bool, clean: bool) {
    && (o.record.Some? ==> o.record.value in o.users)
    && match w.mysqld
       case None => o.template.None? && w.rootUsers == o.users && !moved
       case Some(s) =>
         if s.applied != w.ndb.generation then Before(s, w, o) && !moved
         else
           && (moved ==> o.record.Some? && InPlace(o, s.template, w.ndb.spec.numMySQL))
           && (if s.rootGen == Some(w.ndb.generation) then Done(s, w, o, moved) else Between(s, w, o, moved))
           && (clean ==> Clean(s, w, o, moved))
  }

  /** The servers were patched earlier in this sync, and the copy at hand still has the record. */
  predicate Pending(c: Ctx, w: World, o: Origin, moved: bool) {
    && (o.record.Some? ==> o.record.value in o.users)
    && !moved && w.mysqld.Some? && c.w.mysqld.Some? && c.mysqld == w.mysqld && c.data.Some?
    && c.cs.generation == c.w.ndb.generation
    && w.mysqld.value.applied != c.w.ndb.generation && Before(w.mysqld.value, c.w, o)
    && c.w.mysqld.value == w.mysqld.value.(applied := c.w.ndb.generation, rootGen := None, rootHost := None, addNode := c.w.mysqld.value.addNode)
    && InPlace(o, c.w.mysqld.value.template, c.w.ndb.spec.numMySQL)
    && !c.data.value.addNode
  }

  /** A sync that started with `w`, when phase `j` starts. */
  ghost predicate Told(j: nat, c: Ctx, w: World, a: Answers, o: Origin, moved: bool, clean: bool) {
    && Versioned(c.w) && c.w.ndb == w.ndb
    && (j <= 9 ==> c.w.mysqld == w.mysqld && Story(c.w, o, moved, clean))
    && (10 <= j <= 11 ==>
          || (c.w.mysqld == w.mysqld && c.mysqld == w.mysqld && Story(c.w, o, moved, clean))
          || Pending(c, w, o, moved))
    && (j > 11 ==> Story(c.w, o, moved || Moves(w, c.w, a), clean && a.fails == {}))
  }

  ghost predicate Continues(j: nat, r: (Ctx, Reconcile.Result), w: World, a: Answers, o: Origin, moved: bool, clean: bool) {
    && (r.1 == Continue ==> Told(j + 1, r.0, w, a, o, moved, clean))
    && (r.1 != Continue ==>
          Versioned(r.0.w) && Story(r.0.w, o, moved || Moves(w, r.0.w, a), clean && a.fails == {}))
  }

  // ----- the phases

  lemma SameServers(w: World, v: World, o: Origin, moved: bool, clean: bool)
    requires Story(w, o, moved, clean) && v.mysqld == w.mysqld && v.rootUsers == w.rootUsers
    requires v.ndb.generation == w.ndb.generation && v.ndb.spec == w.ndb.spec
    ensures Story(v, o, moved, clean)
  {
  }

  lemma LessClean(w: World, o: Origin, moved: bool, clean: bool, clean': bool)
    requires Story(w, o, moved, clean) && (clean' ==> clean)
    ensures Story(w, o, moved, clean')
  {
  }

  /** A phase that leaves the servers alone. */
  lemma ServersAlone(j: nat, c: Ctx, w: World, a: Answers, o: Origin, moved: bool, clean: bool)
    requires j <= 8 && Told(j, c, w, a, o, moved, clean)
    requires var v := Phase(j, c, a).0.w;
             Versioned(v) && v.mysqld == c.w.mysqld && v.rootUsers == c.w.rootUsers && v.ndb == c.w.ndb
    ensures Continues(j, Phase(j, c, a), w, a, o, moved, clean)
  {
    hide Phase, Story, Versioned;
    var v := Phase(j, c, a).0.w;
    SameServers(c.w, v, o, moved, clean);
    LessClean(v, o, moved, clean, clean && a.fails == {});
  }

  lemma ToldEarly(j: nat, c: Ctx, w: World, a: Answers, o: Origin, moved: bool, clean: bool)
    requires j <= 4 && CalmStage(j, c) && Told(j, c, w, a, o, moved, clean)
    ensures Continues(j, Phase(j, c, a), w, a, o, moved, clean)
  {
    hide Sound, Stage, ConfigFirst, Calm, UpdateComplete, Ready, Story, Patched, ReconcileData;
    CalmFacts(c.w);
    if j > 0 {
      StageIsOriented(j, c);
    }
    if j == 2 && c.w.data.Some? {
      DataPatchVersioned(c.(data := c.w.data), a);
    }
    ServersAlone(j, c, w, a, o, moved, clean);
  }

  lemma DataPatchVersioned(c: Ctx, a: Answers)
    requires Versioned(c.w) && c.w.cm == Some(c.cs) && c.data.Some? && c.data == c.w.data
    ensures var v := ReconcileData(c, a).0.w;
            Versioned(v) && v.mysqld == c.w.mysqld && v.rootUsers == c.w.rootUsers && v.ndb == c.w.ndb
  {
    ExactPatch(c.w.data, c.data.value, RebuiltData(c.data.value, c.cs, c.w), PatchData in a.fails);
  }

  lemma ToldScaleDown(c: Ctx, w: World, a: Answers, o: Origin, moved: bool, clean: bool)
    requires CalmStage(5, c) && Told(5, c, w, a, o, moved, clean)
    ensures Continues(5, Phase(5, c, a), w, a, o, moved, clean)
  {
    hide Sound, Stage, ConfigFirst, Calm, Patched, Story;
    CalmFacts(c.w);
    StageIsOriented(5, c);
    if c.mysqld.Some? && c.mysqld.value.status.replicas > c.cs.spec.numMySQL && UpdateComplete(c.mysqld.value) {
      var s := c.mysqld.value;
      ExactPatch(c.w.mysqld, s, s.(replicas := c.cs.spec.numMySQL), PatchMysqld in a.fails);
      ConfigIsBehind(c.w);
      var v := Phase(5, c, a).0.w;
      ScaledStory(c.w, v, o, moved, clean);
      LessClean(v, o, moved, clean, clean && a.fails == {});
      assert !Moves(w, v, a);
    } else {
      ServersAlone(5, c, w, a, o, moved, clean);
    }
  }

  /** Servers that are scaled down keep their annotations. */
  lemma ScaledStory(w: World, v: World, o: Origin, moved: bool, clean: bool)
    requires Story(w, o, moved, clean) && w.mysqld.Some? && v.mysqld.Some? && v.rootUsers == w.rootUsers && v.ndb == w.ndb
    requires var s, t := w.mysqld.value, v.mysqld.value;
             && t == s.(replicas := t.replicas, generation := t.generation)
             && (t.replicas == s.replicas || (t.replicas == w.ndb.spec.numMySQL && w.ndb.spec.numMySQL < s.replicas))
    ensures Story(v, o, moved, clean)
  {
  }

  /** While the config map lags behind, the servers carry its generation and need no scaling. */
  lemma ConfigIsBehind(w: World)
    requires Calm(w) && w.cm.Some?
    ensures w.cm.value.generation != w.ndb.generation ==>
              && w.mysqld.Some? && w.mysqld.value.applied == w.cm.value.generation
              && w.mysqld.value.replicas <= w.cm.value.spec.numMySQL
  {
    hide Sound, ServersSound, DataInStep;
    CalmFacts(w);
  }

  lemma ToldMiddle(j: nat, c: Ctx, w: World, a: Answers, o: Origin, moved: bool, clean: bool)
    requires 6 <= j <= 8 && CalmStage(j, c) && Told(j, c, w, a, o, moved, clean)
    ensures Continues(j, Phase(j, c, a), w, a, o, moved, clean)
  {
    hide Sound, Stage, ConfigFirst, Calm, UpdateComplete, Ready, Story, Patched, Rollout.EnsurePods, ReconcileData;
    CalmFacts(c.w);
    StageIsOriented(j, c);
    if j == 7 {
      DataPatchVersioned(c, a);
    }
    ServersAlone(j, c, w, a, o, moved, clean);
  }

  lemma ToldMysqld(c: Ctx, w: World, a: Answers, o: Origin, moved: bool, clean: bool)
    requires CalmStage(9, c) && Told(9, c, w, a, o, moved, clean)
    ensures Continues(9, Phase(9, c, a), w, a, o, moved, clean)
  {
    hide Sound, Stage, ConfigFirst, Calm, Patched;
    CalmFacts(c.w);
    StageIsOriented(9, c);
    ConfigIsBehind(c.w);
    if c.mysqld.Some? {
      ExactPatch(c.w.mysqld, c.mysqld.value, Rebuilt(c.mysqld.value, NewMysqld(c.cs, c.w)), PatchMysqld in a.fails);
      ServersFit(c);
    }
  }

  lemma ServersFit(c: Ctx)
    requires CalmStage(9, c) && c.w.mysqld.Some? && c.w.cm == Some(c.cs)
    ensures c.w.mysqld.value.replicas <= c.cs.spec.numMySQL
  {
    hide Sound, Stage, ServersSound, DataInStep;
    StageIsOriented(9, c);
  }

  lemma ToldAddNode(c: Ctx, w: World, a: Answers, o: Origin, moved: bool, clean: bool)
    requires CalmStage(10, c) && Told(10, c, w, a, o, moved, clean)
    ensures Continues(10, Phase(10, c, a), w, a, o, moved, clean)
  {
    hide Sound, Stage, ConfigFirst, Calm, Patched, UpdateComplete, Ready, Story, Before;
    CalmFacts(c.w);
    StageIsOriented(10, c);
    if !c.data.value.addNode {
      assert Phase(10, c, a) == (c, Continue);
    } else {
      var s := c.data.value;
      ExactPatch(c.w.data, s, s.(replicas := c.cs.spec.numData), ScaleData in a.fails);
      ExactPatch(c.w.data, s, s.(addNode := false), ClearAddNode in a.fails);
      var v := Phase(10, c, a).0.w;
      SameServers(c.w, v, o, moved, clean);
      LessClean(v, o, moved, clean, clean && a.fails == {});
    }
  }

  lemma ToldRoot(c: Ctx, w: World, a: Answers, o: Origin, moved: bool, clean: bool)
    requires CalmStage(11, c) && Told(11, c, w, a, o, moved, clean)
    ensures Continues(11, Phase(11, c, a), w, a, o, moved, clean)
  {
    hide Sound, Stage, ConfigFirst, Calm, UpdateComplete, Ready;
    CalmFacts(c.w);
    StageIsOriented(11, c);
    ConfigIsBehind(c.w);
    if Pending(c, w, o, moved) {
      RootWhilePending(c, w, a, o, moved, clean);
    } else {
      RootLater(c, w, a, o, moved, clean);
    }
  }

  /** In the sync that has patched the servers in place. */
  lemma RootWhilePending(c: Ctx, w: World, a: Answers, o: Origin, moved: bool, clean: bool)
    requires Pending(c, w, o, moved) && Versioned(c.w) && c.w.ndb == w.ndb && c.w.ndb.generation > 0
    requires c.w.cm.Some? && c.w.cm.value.generation == c.w.ndb.generation
    ensures Continues(11, ReconcileRoot(c, a), w, a, o, moved, clean)
  {
    hide MysqldTemplate;
  }

  lemma RootLater(c: Ctx, w: World, a: Answers, o: Origin, moved: bool, clean: bool)
    requires Told(11, c, w, a, o, moved, clean) && c.w.mysqld == w.mysqld && c.mysqld == w.mysqld && Story(c.w, o, moved, clean)
    requires c.w.cm == Some(c.cs) && c.w.ndb.generation > 0
    requires c.mysqld.Some? ==> c.mysqld.value.applied == c.cs.generation
    ensures Continues(11, ReconcileRoot(c, a), w, a, o, moved, clean)
  {
    hide MysqldTemplate;
    var host := c.w.ndb.spec.rootHost;
    UserIsThere(o, moved, host);
    if c.mysqld.Some? && c.mysqld.value.applied == c.w.ndb.generation && c.mysqld.value.rootGen != Some(c.w.ndb.generation) {
      assert RootUsersAfter(c.w.rootUsers, None, host) == UsersAfter(o, moved, host);
      assert !Moves(w, ReconcileRoot(c, a).0.w, a);
    }
  }

  lemma UserIsThere(o: Origin, moved: bool, host: string)
    requires o.record.Some? ==> o.record.value in o.users
    ensures host in UsersAfter(o, moved, host) && UsersAfter(o, moved, host) + {host} == UsersAfter(o, moved, host)
  {
  }

  lemma ToldFinish(c: Ctx, w: World, a: Answers, o: Origin, moved: bool, clean: bool)
    requires CalmStage(LAST, c) && Told(LAST, c, w, a, o, moved, clean)
    ensures Continues(LAST, Phase(LAST, c, a), w, a, o, moved, clean)
  {
    hide Sound, ConfigFirst, Calm, UpdateComplete, Ready, Story, Before;
    CalmFacts(c.w);
    StageIsOriented(LAST, c);
    AllStarted(c.w);
    SameServers(c.w, Phase(LAST, c, a).0.w, o, moved || Moves(w, c.w, a), clean && a.fails == {});
  }

  lemma AllStarted(w: World)
    requires Calm(w) && w.cm.Some? && w.data.Some? && w.data.value.applied == w.cm.value.generation && !w.data.value.addNode
    ensures w.data.value.replicas == w.cm.value.spec.numData
  {
    hide Sound, ServersSound, ServersInStep;
  }

  // ----- one sync, one step, a whole run

  lemma ToldPhase(j: nat, c: Ctx, w: World, a: Answers, o: Origin, moved: bool, clean: bool)
    requires j <= LAST && CalmStage(j, c) && Told(j, c, w, a, o, moved, clean)
    ensures Continues(j, Phase(j, c, a), w, a, o, moved, clean)
  {
    hide Phase, CalmStage, Told, Continues;
    if j <= 4 {
      ToldEarly(j, c, w, a, o, moved, clean);
    } else if j == 5 {
      ToldScaleDown(c, w, a, o, moved, clean);
    } else if j <= 8 {
      ToldMiddle(j, c, w, a, o, moved, clean);
    } else if j == 9 {
      ToldMysqld(c, w, a, o, moved, clean);
    } else if j == 10 {
      ToldAddNode(c, w, a, o, moved, clean);
    } else if j == 11 {
      ToldRoot(c, w, a, o, moved, clean);
    } else {
      ToldFinish(c, w, a, o, moved, clean);
    }
  }

  lemma {:induction false} ToldRun(j: nat, c: Ctx, w: World, a: Answers, o: Origin, moved: bool, clean: bool)
    requires j <= LAST && CalmStage(j, c) && Told(j, c, w, a, o, moved, clean)
    ensures var v := RunFrom(j, c, a).0.w;
            Versioned(v) && Story(v, o, moved || Moves(w, v, a), clean && a.fails == {})
    decreases LAST - j
  {
    hide Phase, CalmStage, Told, Versioned, Story, Moves;
    ToldPhase(j, c, w, a, o, moved, clean);
    if j == LAST {
      LastFinishes(c, a);
    } else if Phase(j, c, a).1 == Continue {
      CalmPhase(j, c, a);
      ToldRun(j + 1, Phase(j, c, a).0, w, a, o, moved, clean);
    }
  }

  lemma ReportedStory(c: Ctx, r: Reconcile.Result, w: World, a: Answers, o: Origin, moved: bool, clean: bool)
    requires Versioned(c.w) && Story(c.w, o, moved, clean)
    ensures Versioned(Reported(c, r, a)) && Story(Reported(c, r, a), o, moved, clean)
    ensures Moves(w, Reported(c, r, a), a) <==> Moves(w, c.w, a)
  {
  }

  lemma HandlerTold(w: World, a: Answers, o: Origin, moved: bool, clean: bool)
    requires Calm(w) && Versioned(w) && Story(w, o, moved, clean)
    ensures var v := SyncHandler(w, a);
            Versioned(v) && Story(v, o, moved || Moves(w, v, a), clean && a.fails == {})
  {
    hide Calm, CalmStage, Versioned, Story, Moves, RunFrom, Reported;
    CalmStart(w);
    ToldRun(0, Start(w), w, a, o, moved, clean);
    var (c, r) := Sync(w, a);
    ReportedStory(c, r, w, a, o, moved || Moves(w, c.w, a), clean && a.fails == {});
  }

  lemma SteadyStory(v: World, v': World, o: Origin, moved: bool, clean: bool)
    requires Versioned(v) && Story(v, o, moved, clean) && Steady(v, v')
    ensures Versioned(v') && Story(v', o, moved, clean)
  {
  }

  predicate MovesIn(w: World, v: World, step: Step) {
    step.SyncStep? && Moves(w, v, step.answers)
  }

  lemma StepTold(w: World, step: Step, o: Origin, moved: bool, clean: bool)
    requires Calm(w) && w.redundancy > 0 && WithoutPodErrors(step) && Versioned(w) && Story(w, o, moved, clean)
    requires Next(w, step).ndb.generation == w.ndb.generation
    ensures var v := Next(w, step);
            && Versioned(v) && Story(v, o, moved || MovesIn(w, v, step), clean && NoCallFails(step))
            && v.ndb.spec == w.ndb.spec
  {
    hide Calm, Versioned, Story, Moves, SyncHandler, AdmittedUpdate;
    if step.SyncStep? {
      HandlerTold(w, step.answers, o, moved, clean);
      KeepsSpec(w, step.answers);
    } else if !step.SpecStep? {
      EnvironmentStep(w, step);
      SteadyStory(w, Next(w, step), o, moved, clean);
    }
  }

  lemma KeepsSpec(w: World, a: Answers)
    ensures SyncHandler(w, a).ndb.spec == w.ndb.spec && SyncHandler(w, a).ndb.generation == w.ndb.generation
  {
    hide RunFrom;
    RunKeepsRedundancy(0, Start(w), a);
  }

  lemma GenerationGrows(w: World, step: Step)
    requires w.redundancy > 0
    ensures Next(w, step).ndb.generation >= w.ndb.generation
  {
    hide SyncHandler;
    if step.SyncStep? {
      KeepsSpec(w, step.answers);
    }
  }

  lemma {:induction false} GenerationsGrow(w: World, steps: seq<Step>)
    requires w.redundancy > 0
    ensures After(w, steps).ndb.generation >= w.ndb.generation
    decreases |steps|
  {
    hide Next;
    if steps != [] {
      var n := |steps| - 1;
      GenerationsGrow(w, steps[..n]);
      GenerationGrows(After(w, steps[..n]), steps[n]);
    }
  }

  /** Some sync has moved the root user. */
  ghost predicate MovedIn(w: World, steps: seq<Step>)
    requires w.redundancy > 0
    decreases |steps|
  {
    steps != []
    && var n := |steps| - 1;
       MovedIn(w, steps[..n]) || MovesIn(After(w, steps[..n]), After(w, steps), steps[n])
  }

  lemma {:induction false} RunTold(u: World, steps: seq<Step>, o: Origin, moved: bool, clean: bool)
    requires Calm(u) && u.redundancy > 0 && Versioned(u) && Story(u, o, moved, clean)
    requires (forall s :: s in steps ==> WithoutPodErrors(s)) && After(u, steps).ndb.generation == u.ndb.generation
    ensures var v := After(u, steps);
            && Calm(v) && Versioned(v) && Story(v, o, moved || MovedIn(u, steps), clean && NoCallFailsIn(steps))
            && v.ndb.spec == u.ndb.spec
    decreases |steps|
  {
    hide Next, Calm, Versioned, Story, MovesIn, WithoutPodErrors, NoCallFails;
    if steps != [] {
      var n := |steps| - 1;
      var w := After(u, steps[..n]);
      LastStep(u, steps);
      GenerationsGrow(u, steps[..n]);
      GenerationGrows(w, steps[n]);
      RunTold(u, steps[..n], o, moved, clean);
      StepTold(w, steps[n], o, moved || MovedIn(u, steps[..n]), clean && NoCallFailsIn(steps[..n]));
      StepIsCalm(w, steps[n]);
      assert NoCallFailsIn(steps) <==> NoCallFailsIn(steps[..n]) && NoCallFails(steps[n]) by { LastToo(steps); }
    }
  }

  lemma LastToo(steps: seq<Step>)
    requires steps != []
    ensures NoCallFailsIn(steps) <==> NoCallFailsIn(steps[..|steps| - 1]) && NoCallFails(steps[|steps| - 1])
  {
    hide NoCallFails;
    var n := |steps| - 1;
    assert forall s :: s in steps <==> s in steps[..n] || s == steps[n];
  }

  // ----- from one specification in effect to the next

  predicate Recorded(w: World)
    requires w.mysqld.Some?
  {
    w.mysqld.value.rootHost == Some(w.ndb.spec.rootHost)
  }

  /** The servers carry the generation of the specification, and so does the root user. */
  predicate RootDone(w: World) {
    && w.cm.Some? && w.cm.value.generation == w.ndb.generation
    && w.mysqld.Some? && w.mysqld.value.applied == w.ndb.generation && w.mysqld.value.rootGen == Some(w.ndb.generation)
  }

  /** The update leaves the servers' template and does not add servers. */
  predicate KeepsServers(w: World, v: World)
    requires w.mysqld.Some? && v.mysqld.Some?
  {
    v.mysqld.value.template == w.mysqld.value.template && v.ndb.spec.numMySQL <= w.ndb.spec.numMySQL
  }

  function OriginOf(w: World): Origin {
    if w.mysqld.None? then Origin(w.rootUsers, None, None, 0)
    else Origin(w.rootUsers, w.mysqld.value.rootHost, Some(w.mysqld.value.template), w.mysqld.value.replicas)
  }

  /** A new cluster gets the root user of its specification and records it, whatever calls fail on the way. */
  lemma FirstRootUser(spec: Spec, redundancy: nat, steps: seq<Step>)
    requires redundancy > 0 && ValidSpec(spec, redundancy) && forall s :: s in steps ==> WithoutPodErrors(s)
    requires var v := After(Initial(spec, redundancy), steps); v.ndb.generation == 1 && RootDone(v)
    ensures var v := After(Initial(spec, redundancy), steps);
            Calm(v) && Versioned(v) && v.ndb.spec == spec && v.rootUsers == {spec.rootHost} && Recorded(v)
  {
    hide After, ValidSpec, Calm;
    StartsCalm(spec, redundancy);
    var w := Initial(spec, redundancy);
    RunTold(w, steps, OriginOf(w), false, true);
  }

  /**
   Over a whole update without pod errors, whichever calls fail: once the root user is done, only the one of
   the specified host remains exactly if the host stays the same, or one sync rebuilt the StatefulSet in place while the host
   was recorded and got the root-user statement through. Otherwise the old root user stays too. If no call
   fails, that is: if the servers keep their template and do not grow in number, and the host was recorded.
   */
  lemma RootUsersAfterUpdate(w: World, spec: Spec, steps: seq<Step>)
    requires Calm(w) && w.redundancy > 0 && Versioned(w) && RootDone(w) && AdmittedUpdate(w, spec)
    requires w.rootUsers == {w.ndb.spec.rootHost} && (Recorded(w) || w.mysqld.value.rootHost.None?)
    requires forall s :: s in steps ==> WithoutPodErrors(s)
    requires var u, v := Next(w, SpecStep(spec)), After(Next(w, SpecStep(spec)), steps);
             v.ndb.generation == u.ndb.generation && RootDone(v)
    ensures var u, v, old' := Next(w, SpecStep(spec)), After(Next(w, SpecStep(spec)), steps), w.ndb.spec.rootHost;
            && Calm(v) && Versioned(v) && v.ndb.spec == spec
            && (v.rootUsers == {spec.rootHost} <==> spec.rootHost == old' || MovedIn(u, steps))
            && (v.rootUsers != {spec.rootHost} ==> v.rootUsers == {old', spec.rootHost})
            && (Recorded(v) || v.mysqld.value.rootHost.None?)
            && (MovedIn(u, steps) ==> KeepsServers(w, v) && Recorded(w))
            && (NoCallFailsIn(steps) ==>
                  && (MovedIn(u, steps) <==> KeepsServers(w, v) && Recorded(w))
                  && (Recorded(v) <==> !(KeepsServers(w, v) && Recorded(w) && spec.rootHost == old')))
  {
    hide After, ValidSpec, MovedIn, NoCallFailsIn, Calm;
    var u := Next(w, SpecStep(spec));
    var o := OriginOf(w);
    StepIsCalm(w, SpecStep(spec));
    ConfigIsCurrent(w);
    RunTold(u, steps, o, false, true);
    UsersDiffer(w.ndb.spec.rootHost, spec.rootHost);
  }

  lemma ConfigIsCurrent(w: World)
    requires Calm(w) && RootDone(w)
    ensures w.cm.value.spec == w.ndb.spec
  {
    CalmFacts(w);
  }

  lemma UsersDiffer(a: string, b: string)
    ensures {a} + {b} == {a, b} && {a} - {a} + {b} == {b} && ({a, b} == {b} <==> a == b)
  {
    if a != b {
      assert a in {a, b} && a !in {b};
    }
  }

  /** The servers keep their template exactly if neither configuration is rewritten and no pod changes. */
  lemma KeptTemplate(w: World, v: World)
    requires Calm(w) && Calm(v) && Versioned(w) && Versioned(v) && RootDone(w) && RootDone(v)
    ensures v.mysqld.value.template == w.mysqld.value.template
       <==> && v.cm.value.version == w.cm.value.version && v.cm.value.cnfVersion == w.cm.value.cnfVersion
            && v.ndb.spec.pool == w.ndb.spec.pool && v.ndb.spec.shape == w.ndb.spec.shape
  {
    hide Calm;
    ConfigIsCurrent(w);
    ConfigIsCurrent(v);
  }

  /** Success means that the root user is done. */
  lemma SuccessMeansRootDone(w: World, a: Answers)
    requires Calm(w) && !a.podErrors && Sync(w, a).0.success
    ensures RootDone(SyncHandler(w, a))
  {
    hide RunFrom, Sound, ServersSound, ServersInStep, DataInStep;
    CalmSound(w);
    StepIsSound(w, SyncStep(a));
    StepIsCalm(w, SyncStep(a));
    SucceededServers(w, a);
  }

  lemma SucceededServers(w: World, a: Answers)
    requires Calm(w) && Sync(w, a).0.success
    ensures Sync(w, a).0.w.mysqld.Some?
  {
    hide Phase, RunFrom, Calm, CalmStage, Stage, Sound;
    CalmStart(w);
    var j := EndsSomewhere(0, Start(w), a);
    CalmReached(0, j, Start(w), a);
    var d := Reached(0, j, Start(w), a).value;
    SucceedsLast(j, d, a);
    ServersAtTheEnd(d);
  }

  lemma ServersAtTheEnd(d: Ctx)
    requires CalmStage(LAST, d)
    ensures d.w.mysqld.Some?
  {
    hide Calm, Stage;
  }

  /** The same after a sync that reports success, which means that the root user is done. */
  lemma RootUsersAfterSuccess(w: World, spec: Spec, steps: seq<Step>, a: Answers)
    requires Calm(w) && w.redundancy > 0 && Versioned(w) && RootDone(w) && AdmittedUpdate(w, spec)
    requires w.rootUsers == {w.ndb.spec.rootHost} && (Recorded(w) || w.mysqld.value.rootHost.None?)
    requires !a.podErrors && forall s :: s in steps ==> WithoutPodErrors(s)
    requires var u, v := Next(w, SpecStep(spec)), After(Next(w, SpecStep(spec)), steps);
             v.ndb.generation == u.ndb.generation && Sync(v, a).0.success
    ensures var u, all := Next(w, SpecStep(spec)), steps + [SyncStep(a)];
            After(u, all).rootUsers == {spec.rootHost} <==> spec.rootHost == w.ndb.spec.rootHost || MovedIn(u, all)
  {
    hide After, ValidSpec, MovedIn, NoCallFailsIn, Calm, Sync, SyncHandler, Versioned, RootDone, Recorded, KeepsServers;
    var u, all := Next(w, SpecStep(spec)), steps + [SyncStep(a)];
    StepIsCalm(w, SpecStep(spec));
    CalmAfter(u, steps);
    var v := After(u, steps);
    AfterBoth(u, steps, [SyncStep(a)]);
    AfterOne(v, SyncStep(a));
    SuccessMeansRootDone(v, a);
    SameGeneration(v, a);
    RootUsersAfterUpdate(w, spec, all);
  }

  lemma SameGeneration(w: World, a: Answers)
    ensures SyncHandler(w, a).ndb.generation == w.ndb.generation
  {
    hide RunFrom;
    RunKeepsRedundancy(0, Start(w), a);
  }

  lemma {:induction false} CalmAfter(w: World, steps: seq<Step>)
    requires Calm(w) && w.redundancy > 0 && forall s :: s in steps ==> WithoutPodErrors(s)
    ensures Calm(After(w, steps))
    decreases |steps|
  {
    hide Next, Calm, WithoutPodErrors;
    if steps != [] {
      var n := |steps| - 1;
      CalmAfter(w, steps[..n]);
      StepIsCalm(After(w, steps[..n]), steps[n]);
    }
  }
}
