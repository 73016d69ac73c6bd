/**
 Runs that end in success with two root users: one in which the servers get new pods, and one in which a single
 root-user call fails.
 */
module RootUserRuns {
  import opened Wrappers
  import opened StatefulSets
  import opened Reconcile
  import opened ReconcileRuns
  import opened ReconcileSuccess
  import opened ReconcileUpdates
  import opened UpdateRuns
  import opened TwoPhaseRestart
  import opened Convergence
  import opened RoundsExist
  import opened RootUsers
  import Rollout
  import UngroupedNodes
  import UngroupedRun

  lemma AttentiveWithoutErrors(w: World, steps: seq<Step>)
    requires w.redundancy > 0 && AttentiveRun(w, steps)
    ensures forall s :: s in steps ==> WithoutPodErrors(s)
  {
    hide After, Informed;
    forall i | 0 <= i < |steps| ensures WithoutPodErrors(steps[i]) {
      assert Attentive(After(w, steps[..i]), steps[i]);
    }
  }

  lemma EffectIsDone(w: World)
    requires InEffect(w)
    ensures RootDone(w)
  {
    hide Stale;
  }

  /** A run from the creation on that puts the specification into effect. */
  lemma FirstRun(spec: Spec, redundancy: nat) returns (steps: seq<Step>)
    requires redundancy > 0 && ValidSpec(spec, redundancy) && Renderable(spec)
    ensures AttentiveRun(Initial(spec, redundancy), steps) && NoCallFailsIn(steps)
    ensures var w := After(Initial(spec, redundancy), steps);
            && Tidy(w) && InEffect(w) && Versioned(w) && RootDone(w)
            && w.ndb.spec == spec && w.rootUsers == {spec.rootHost} && Recorded(w)
  {
    hide Tidy, GoodRounds, Mended, TakesEffect, After, AttentiveRun, ValidSpec, AfterRounds, InEffect, Versioned;
    var w0 := Initial(spec, redundancy);
    StartsTidy(spec, redundancy);
    TidyIsMended(w0);
    var rounds := CanTakeEffect(w0);
    var n;
    steps, n := RoundsRun(w0, rounds);
    AttentiveWithoutErrors(w0, steps);
    EffectIsDone(After(w0, steps));
    RoundsKeepGeneration(w0, rounds[..n]);
    FirstRootUser(spec, redundancy, steps);
  }

  lemma {:induction false} RoundsKeepGeneration(w: World, rounds: seq<Round>)
    requires Tidy(w) && w.redundancy > 0 && GoodRounds(w, rounds)
    ensures AfterRounds(w, rounds).ndb.generation == w.ndb.generation
    decreases |rounds|
  {
    hide Tidy, GoodRound, AfterRound, InEffect, Measure;
    if rounds != [] {
      TidyRoundProgresses(w, rounds[0]);
      RoundKeepsSpec(w, rounds[0]);
      RoundsKeepGeneration(AfterRound(w, rounds[0]), rounds[1..]);
    }
  }

  /** An update and rounds until it is in effect. */
  lemma UpdateRun(w: World, spec: Spec) returns (steps: seq<Step>)
    requires Tidy(w) && InEffect(w) && w.redundancy > 0 && AdmittedUpdate(w, spec) && Renderable(spec)
    ensures var u := Next(w, SpecStep(spec));
            && AttentiveRun(u, steps) && NoCallFailsIn(steps) && Tidy(After(u, steps)) && InEffect(After(u, steps))
            && After(u, steps).ndb.generation == u.ndb.generation && After(u, steps).ndb.spec == spec
  {
    hide Tidy, GoodRounds, Mended, TakesEffect, After, AttentiveRun, ValidSpec, AfterRounds, InEffect;
    UpdateStaysTidy(w, spec);
    var u := Next(w, SpecStep(spec));
    TidyIsMended(u);
    var rounds := CanTakeEffect(u);
    var n;
    steps, n := RoundsRun(u, rounds);
    RoundsKeepGeneration(u, rounds[..n]);
  }

  lemma TidyIsCalm(w: World)
    requires Tidy(w)
    ensures Calm(w)
  {
    hide Calm, GroupsInStep, Quiet, Orderly;
  }

  /**
   For all valid specifications with different root hosts whose servers differ in their pods, there is a run
   without failing calls that ends in success and with both root users.
   */
  lemma BothRootUsersRemain(spec: Spec, spec': Spec, redundancy: nat) returns (steps: seq<Step>)
    requires redundancy > 1 && ValidSpec(spec, redundancy) && ValidSpec(spec', redundancy)
    requires spec.numData <= spec'.numData && spec.pool <= spec'.pool && Renderable(spec) && Renderable(spec')
    requires spec.rootHost != spec'.rootHost
    requires spec'.numMySQL > spec.numMySQL || spec'.pool != spec.pool || spec'.shape != spec.shape
    ensures AttentiveRun(Initial(spec, redundancy), steps) && NoCallFailsIn(steps)
    ensures var v := After(Initial(spec, redundancy), steps);
            InEffect(v) && v.ndb.spec == spec' && v.rootUsers == {spec.rootHost, spec'.rootHost}
  {
    hide Tidy, After, AttentiveRun, ValidSpec, Versioned, InEffect, RootDone, Calm, MovedIn, NoCallFailsIn, KeepsServers;
    var w0 := Initial(spec, redundancy);
    var first := FirstRun(spec, redundancy);
    var w := After(w0, first);
    var update := SpecStep(spec');
    EffectIsProcessed(w);
    var later := UpdateRun(w, spec');
    AfterOne(w, update);
    var u := Next(w, update);
    var v := After(u, later);
    AttentiveWithoutErrors(u, later);
    EffectIsDone(v);
    TidyIsCalm(w);
    RootUsersAfterUpdate(w, spec', later);
    ServersChange(w, v);
    UpdateIsAttentive(w, update);
    AttentiveBoth(w, [update], later);
    AfterBoth(w, [update], later);
    AttentiveBoth(w0, first, [update] + later);
    AfterBoth(w0, first, [update] + later);
    steps := first + ([update] + later);
    UpdateFailsNowhere(first, update, later);
  }

  lemma UpdateFailsNowhere(first: seq<Step>, update: Step, later: seq<Step>)
    requires NoCallFailsIn(first) && NoCallFailsIn(later) && update.SpecStep?
    ensures NoCallFailsIn(first + ([update] + later))
  {
  }

  lemma EffectIsProcessed(w: World)
    requires InEffect(w)
    ensures w.ndb.processed == w.ndb.generation
  {
    hide Stale, Settled;
  }

  lemma ServersChange(w: World, v: World)
    requires Calm(w) && Calm(v) && Versioned(w) && Versioned(v) && RootDone(w) && RootDone(v)
    requires v.ndb.spec.numMySQL > w.ndb.spec.numMySQL || v.ndb.spec.pool != w.ndb.spec.pool || v.ndb.spec.shape != w.ndb.spec.shape
    ensures !KeepsServers(w, v)
  {
    hide Calm, Versioned;
    KeptTemplate(w, v);
  }

  // ----- one failing call

  /** The config map keeps its versions: its specification and the resource's differ at most in the root host. */
  predicate Kept(w: World, version: nat, cnfVersion: nat) {
    && w.cm.Some? && w.cm.value.version == version && w.cm.value.cnfVersion == cnfVersion
    && w.cm.value.spec.(rootHost := w.ndb.spec.rootHost) == w.ndb.spec
  }

  lemma KeptPhase(j: nat, c: Ctx, a: Answers, version: nat, cnfVersion: nat)
    requires j <= LAST && a.keepsConfig && a.keepsCnf && Kept(c.w, version, cnfVersion) && (j > 0 ==> c.w.cm == Some(c.cs))
    ensures var (c', r) := Phase(j, c, a); Kept(c'.w, version, cnfVersion) && (r == Continue ==> c'.w.cm == Some(c'.cs))
  {
    hide Phase;
    if j == 0 || j == LAST {
      KeptConfig(c, a, version, cnfVersion);
      UngroupedRun.ConfigPhases(c, a);
    } else {
      UngroupedNodes.SameConfig(j, c, a);
      UngroupedRun.CopyStays(j, c, a);
    }
  }

  lemma KeptConfig(c: Ctx, a: Answers, version: nat, cnfVersion: nat)
    requires a.keepsConfig && a.keepsCnf && Kept(c.w, version, cnfVersion)
    ensures var (c', r) := EnsureConfig(c, a); Kept(c'.w, version, cnfVersion) && (r == Continue ==> c'.w.cm == Some(c'.cs))
    ensures Kept(FinishSync(c, a).0.w, version, cnfVersion) && FinishSync(c, a).1 != Continue
  {
  }

  lemma {:induction false} KeptRun(j: nat, c: Ctx, a: Answers, version: nat, cnfVersion: nat)
    requires j <= LAST && a.keepsConfig && a.keepsCnf && Kept(c.w, version, cnfVersion) && (j > 0 ==> c.w.cm == Some(c.cs))
    ensures Kept(RunFrom(j, c, a).0.w, version, cnfVersion)
    decreases LAST - j
  {
    hide Phase, Kept;
    KeptPhase(j, c, a, version, cnfVersion);
    if j < LAST && Phase(j, c, a).1 == Continue {
      KeptRun(j + 1, Phase(j, c, a).0, a, version, cnfVersion);
    }
  }

  lemma KeptHandler(w: World, a: Answers, version: nat, cnfVersion: nat)
    requires a.keepsConfig && a.keepsCnf && Kept(w, version, cnfVersion)
    ensures Kept(SyncHandler(w, a), version, cnfVersion)
  {
    hide RunFrom, Kept;
    KeptRun(0, Start(w), a, version, cnfVersion);
    SameConfigReported(Sync(w, a).0, Sync(w, a).1, a, version, cnfVersion);
  }

  lemma SameConfigReported(c: Ctx, r: Reconcile.Result, a: Answers, version: nat, cnfVersion: nat)
    requires Kept(c.w, version, cnfVersion)
    ensures Kept(Reported(c, r, a), version, cnfVersion)
  {
  }

  /** The update has not been applied to the servers. */
  ghost predicate Unapplied(w: World, o: Origin, version: nat, cnfVersion: nat) {
    && Tidy(w) && w.redundancy > 0 && Versioned(w) && Story(w, o, false, true) && Kept(w, version, cnfVersion)
    && w.mysqld.Some? && w.mysqld.value.applied != w.ndb.generation
  }

  predicate Applied(w: World) {
    w.mysqld.Some? && w.mysqld.value.applied == w.ndb.generation
  }

  lemma RoundStaysUnapplied(w: World, round: Round, o: Origin, version: nat, cnfVersion: nat)
    requires Unapplied(w, o, version, cnfVersion) && GoodRound(w, round) && KeepsConfigs(round)
    requires !Applied(SyncHandler(w, round.answers))
    ensures Unapplied(AfterRound(w, round), o, version, cnfVersion)
    ensures AfterRound(w, round).ndb.generation == w.ndb.generation && AfterRound(w, round).ndb.spec == w.ndb.spec
  {
    hide After, Calm, GroupsInStep, Quiet, Orderly, Measure, PodsFollow, SyncHandler, Informed, Rollout.Covers, Story, Versioned,
         Kept, InEffect;
    var a := round.answers;
    TidyRoundProgresses(w, round);
    RoundKeepsSpec(w, round);
    HandlerTold(w, a, o, false, true);
    KeptHandler(w, a, version, cnfVersion);
    KeepsSpec(w, a);
    FriendlyGroupsAll(w, a);
    StepIsCalm(w, SyncStep(a));
    StepKeepsGroups(w, SyncStep(a));
    var v := SyncHandler(w, a);
    assert !Moves(w, v, a);
    EnvironmentSteps(v, round.environment);
    SteadyStory(v, AfterRound(w, round), o, false, true);
    ServersStay(w, v, o);
    SteadyKept(v, AfterRound(w, round), version, cnfVersion);
  }

  lemma ServersStay(w: World, v: World, o: Origin)
    requires Story(v, o, false, true) && Story(w, o, false, true) && w.mysqld.Some? && w.mysqld.value.applied != w.ndb.generation
    ensures v.mysqld.Some?
  {
  }

  lemma SteadyKept(v: World, v': World, version: nat, cnfVersion: nat)
    requires Kept(v, version, cnfVersion) && Steady(v, v')
    ensures Kept(v', version, cnfVersion)
  {
  }

  /** Some round applies the update to the servers. */
  lemma {:induction false} PatchFound(u: World, rounds: seq<Round>, o: Origin, version: nat, cnfVersion: nat)
    returns (steps: seq<Step>, a: Answers)
    requires Unapplied(u, o, version, cnfVersion) && GoodRounds(u, rounds) && TakesEffect(u, rounds)
    requires forall r :: r in rounds ==> KeepsConfigs(r)
    ensures var x := After(u, steps);
            && AttentiveRun(u, steps) && NoCallFailsIn(steps) && Unapplied(x, o, version, cnfVersion) && Friendly(x, a) && Applied(SyncHandler(x, a))
            && Kept(SyncHandler(x, a), version, cnfVersion)
            && x.ndb.generation == u.ndb.generation && x.ndb.spec == u.ndb.spec
    decreases |rounds|
  {
    assert u.redundancy > 0 && Tidy(u) && Quiet(u);
    hide After, AfterRound, Unapplied, InEffect, SyncHandler, Applied, KeepsConfigs, AttentiveRun, Friendly, Quiet, Tidy, Kept, PodsFollow;
    var round := rounds[0];
    assert round in rounds && KeepsConfigs(round);
    a := round.answers;
    if Applied(SyncHandler(u, a)) {
      steps := [];
      NoSteps(u);
      NoStepsAttentive(u);
      KeptByRound(u, round, o, version, cnfVersion);
    } else {
      RoundStaysUnapplied(u, round, o, version, cnfVersion);
      RoundIsAttentive(u, round);
      RoundFailsNowhere(u, round);
      UnappliedIsNotInEffect(AfterRound(u, round), o, version, cnfVersion);
      var rest;
      rest, a := PatchFound(AfterRound(u, round), rounds[1..], o, version, cnfVersion);
      var first := [SyncStep(round.answers)] + round.environment;
      AfterBoth(u, first, rest);
      AttentiveBoth(u, first, rest);
      steps := first + rest;
    }
  }

  lemma KeptByRound(w: World, round: Round, o: Origin, version: nat, cnfVersion: nat)
    requires Unapplied(w, o, version, cnfVersion) && KeepsConfigs(round)
    ensures Kept(SyncHandler(w, round.answers), version, cnfVersion)
  {
    hide SyncHandler, Tidy, Story, Versioned, Kept;
    KeptHandler(w, round.answers, version, cnfVersion);
  }

  lemma NoStepsAttentive(w: World)
    requires w.redundancy > 0
    ensures AttentiveRun(w, [])
  {
  }

  lemma UnappliedIsNotInEffect(w: World, o: Origin, version: nat, cnfVersion: nat)
    requires Unapplied(w, o, version, cnfVersion)
    ensures !InEffect(w) && Tidy(w) && w.redundancy > 0 && Quiet(w)
  {
    hide Calm, GroupsInStep, Quiet, Orderly, Story, Versioned, Stale;
  }

  // ----- the same sync with the failing call

  const FAILING: set<Call> := {RootUser}

  lemma SamePhase(j: nat, c: Ctx, a: Answers)
    requires j <= 10 && a.fails == {} && (j == 5 ==> c.cs.spec.numMySQL > 0)
    ensures Phase(j, c, a.(fails := FAILING)) == Phase(j, c, a)
  {
    hide Patched, UpdateComplete, Ready, Rollout.EnsurePods, Rebuilt, RebuiltData;
  }

  /** Before phase 11 the root user is not done. */
  lemma NotDoneEarlier(j: nat, c: Ctx, w: World, a: Answers, o: Origin)
    requires j <= 10 && CalmStage(j, c) && Told(j, c, w, a, o, false, true)
    requires w.mysqld.Some? && w.mysqld.value.applied != w.ndb.generation
    ensures var v := Phase(j, c, a).0.w; v.mysqld.Some? ==> v.mysqld.value.rootGen != Some(w.ndb.generation)
  {
    hide Sound, Stage, Calm, Patched, UpdateComplete, Ready, Versioned;
    CalmFacts(c.w);
    if j > 0 {
      StageIsOriented(j, c);
    }
    if j == 5 && c.mysqld.Some? {
      ExactPatch(c.w.mysqld, c.mysqld.value, c.mysqld.value.(replicas := c.cs.spec.numMySQL), PatchMysqld in a.fails);
    } else if j == 9 && c.mysqld.Some? {
      ExactPatch(c.w.mysqld, c.mysqld.value, Rebuilt(c.mysqld.value, NewMysqld(c.cs, c.w)), PatchMysqld in a.fails);
    } else if j != 5 && j != 9 {
      ServersUntouched(j, c, a);
    }
  }

  lemma ServersUntouched(j: nat, c: Ctx, a: Answers)
    requires j <= LAST && j != 5 && j != 9 && j != 11
    ensures Phase(j, c, a).0.w.mysqld == c.w.mysqld
  {
    hide Patched, UpdateComplete, Ready, Rollout.EnsurePods, Rebuilt, RebuiltData, UpdatedConfigMap;
  }

  /** Patched servers, and the root user as before. */
  predicate Interrupted(w: World, o: Origin) {
    && w.mysqld.Some? && w.mysqld.value.applied == w.ndb.generation
    && w.mysqld.value.rootGen.None? && w.mysqld.value.rootHost.None? && w.rootUsers == o.users
  }

  lemma {:induction false} FailingRun(j: nat, c: Ctx, w: World, a: Answers, o: Origin)
    requires j <= 11 && Calmly(j, c, a) && Told(j, c, w, a, o, false, true)
    requires w.mysqld.Some? && w.mysqld.value.applied != w.ndb.generation && o.record.Some?
    requires var v := RunFrom(j, c, a).0.w; v.mysqld.Some? && v.mysqld.value.rootGen == Some(w.ndb.generation)
    ensures var (c', r) := RunFrom(j, c, a.(fails := FAILING));
            && r == Error && Orderly(c'.w) && Interrupted(c'.w, o) && c'.w.ndb == w.ndb
    decreases LAST - j
  {
    hide Phase, CalmStage, GroupsInStep, Quiet, Orderly, Measure, Friendly, Told, Calm;
    var a' := a.(fails := FAILING);
    if j <= 10 {
      CalmlyFacts(j, c, a);
      NotDoneEarlier(j, c, w, a, o);
      SamePhase(j, c, a);
      ToldPhase(j, c, w, a, o, false, true);
      ForwardPhase(j, c, a);
      CalmlyNext(j, c, a);
      FailingRun(j + 1, Phase(j, c, a).0, w, a, o);
    } else {
      InterruptedAtRoot(c, w, a, o);
    }
  }

  lemma CalmlyFacts(j: nat, c: Ctx, a: Answers)
    requires Calmly(j, c, a)
    ensures CalmStage(j, c) && a.fails == {} && Orderly(c.w) && GroupsInStep(c.w)
    ensures j > 0 ==> c.w.cm == Some(c.cs) && c.cs.spec.numMySQL > 0
  {
    hide Sound, Stage, Calm, GroupsInStep, Quiet, Orderly, Friendly, UpdateComplete, Ready;
    CalmFacts(c.w);
    if j > 0 {
      StageIsOriented(j, c);
    }
  }

  lemma InterruptedAtRoot(c: Ctx, w: World, a: Answers, o: Origin)
    requires Calmly(11, c, a) && Told(11, c, w, a, o, false, true) && o.record.Some?
    requires w.mysqld.Some? && w.mysqld.value.applied != w.ndb.generation
    requires var v := RunFrom(11, c, a).0.w; v.mysqld.Some? && v.mysqld.value.rootGen == Some(w.ndb.generation)
    ensures var (c', r) := RunFrom(11, c, a.(fails := FAILING));
            && r == Error && Orderly(c'.w) && Interrupted(c'.w, o) && c'.w.ndb == w.ndb
  {
    hide Sound, Stage, Calm, GroupsInStep, Quiet, Orderly, Friendly, UpdateComplete, Ready, Patched, Versioned;
    CalmlyFacts(11, c, a);
    StageIsOriented(11, c);
    CalmFacts(c.w);
    if !Pending(c, w, o, false) {
      assert Phase(11, c, a) == (c, Continue);
      ServersUntouched(12, c, a);
      assert false;
    }
    assert Phase(11, c, a.(fails := FAILING)) == (c, Error);
  }

  /** The sync is interrupted; afterwards everything catches up. */
  lemma InterruptedSync(x: World, a: Answers, o: Origin, version: nat, cnfVersion: nat)
    requires Unapplied(x, o, version, cnfVersion) && Friendly(x, a) && Applied(SyncHandler(x, a))
    requires Kept(SyncHandler(x, a), version, cnfVersion)
    requires o.record.Some? && o.servers == x.ndb.spec.numMySQL
    requires o.template == Some(Template(version, cnfVersion, x.ndb.spec.pool, "", false, x.ndb.spec.shape))
    ensures var y := SyncHandler(x, a.(fails := FAILING));
            && Calm(y) && GroupsInStep(y) && Orderly(y) && Interrupted(y, o) && y.ndb == x.ndb && y.redundancy == x.redundancy
  {
    assert !a.podErrors && a.fails == {};
    hide Phase, CalmStage, GroupsInStep, Quiet, Orderly, Measure, Friendly, Told, Calm, RunFrom, Versioned, Story, Kept;
    var v := SyncHandler(x, a);
    HandlerTold(x, a, o, false, true);
    StepIsCalm(x, SyncStep(a));
    KeepsSpec(x, a);
    DoneInPlace(x, v, a, o, version, cnfVersion);
    UngroupedRun.StartIsCalmly(x, a);
    ToldFromStart(x, a, o);
    SameServersReported(Sync(x, a).0, Sync(x, a).1, a);
    FailingRun(0, Start(x), x, a, o);
    var a' := a.(fails := FAILING);
    StepIsCalm(x, SyncStep(a'));
    FriendlyGroups(x, a);
    StepKeepsGroups(x, SyncStep(a'));
    KeepsSpec(x, a');
    NextKeepsRedundancy(x, SyncStep(a'));
  }

  lemma FriendlyGroups(x: World, a: Answers)
    requires Tidy(x) && Friendly(x, a)
    ensures GroupsAll(x, a.(fails := FAILING))
  {
    hide Calm, GroupsInStep, Orderly, Informed, Rollout.Covers, UpdateComplete;
    FriendlyGroupsAll(x, a);
  }

  lemma ToldFromStart(x: World, a: Answers, o: Origin)
    requires Versioned(x) && Story(x, o, false, true)
    ensures Told(0, Start(x), x, a, o, false, true)
  {
    hide Versioned, Story;
  }

  lemma SameServersReported(c: Ctx, r: Reconcile.Result, a: Answers)
    ensures Reported(c, r, a).mysqld == c.w.mysqld
  {
  }

  /** An update that keeps template and servers is done in place, and completely. */
  lemma DoneInPlace(x: World, v: World, a: Answers, o: Origin, version: nat, cnfVersion: nat)
    requires Calm(v) && Versioned(v) && Applied(v) && Kept(v, version, cnfVersion)
    requires Story(v, o, Moves(x, v, a), true)
    requires o.record.Some? && o.servers == v.ndb.spec.numMySQL
    requires o.template == Some(Template(version, cnfVersion, v.ndb.spec.pool, "", false, v.ndb.spec.shape))
    ensures v.mysqld.value.rootGen == Some(v.ndb.generation)
  {
    hide Sound, ServersSound, ServersInStep, DataInStep;
    CalmFacts(v);
    AppliedUpToConfig(v);
  }

  lemma AppliedUpToConfig(v: World)
    requires Calm(v) && Applied(v) && v.cm.Some?
    ensures v.cm.value.generation == v.ndb.generation
  {
    hide Sound, ServersSound, ServersInStep, DataInStep;
    ConfigMapIsBehind(v);
  }

  // ----- afterwards

  lemma AppliedPhase(j: nat, c: Ctx, a: Answers)
    requires j <= LAST && CalmStage(j, c) && Applied(c.w)
    ensures Applied(Phase(j, c, a).0.w) && Phase(j, c, a).0.w.ndb == c.w.ndb
  {
    hide Sound, Stage, Calm, Patched, UpdateComplete, Ready, CalmStage;
    PhaseKeepsRedundancy(j, c, a);
    if j == 5 || j == 9 || j == 11 {
      AppliedServers(j, c, a);
    } else {
      ServersUntouched(j, c, a);
    }
  }

  lemma AppliedServers(j: nat, c: Ctx, a: Answers)
    requires (j == 5 || j == 9 || j == 11) && CalmStage(j, c) && Applied(c.w)
    ensures Applied(Phase(j, c, a).0.w)
  {
    hide Sound, Stage, Calm, Patched, UpdateComplete, Ready;
    StageIsOriented(j, c);
    CalmFacts(c.w);
    AppliedUpToConfig(c.w);
    PhaseKeepsRedundancy(j, c, a);
    var s := c.mysqld.value;
    if j == 5 {
      ExactPatch(c.w.mysqld, s, s.(replicas := c.cs.spec.numMySQL), PatchMysqld in a.fails);
    } else if j == 11 {
      AnnotationPatch(c.w.mysqld, s, s.(rootHost := Some(c.w.ndb.spec.rootHost), rootGen := Some(c.cs.generation)), PatchRoot in a.fails);
    }
  }

  lemma {:induction false} AppliedRun(j: nat, c: Ctx, a: Answers)
    requires j <= LAST && CalmStage(j, c) && Applied(c.w)
    ensures Applied(RunFrom(j, c, a).0.w)
    decreases LAST - j
  {
    hide Phase, CalmStage, Applied;
    AppliedPhase(j, c, a);
    if j < LAST && Phase(j, c, a).1 == Continue {
      CalmPhase(j, c, a);
      AppliedRun(j + 1, Phase(j, c, a).0, a);
    }
  }

  lemma AppliedStep(w: World, step: Step)
    requires Calm(w) && w.redundancy > 0 && Applied(w) && WithoutPodErrors(step)
    requires Next(w, step).ndb.generation == w.ndb.generation
    ensures Applied(Next(w, step))
  {
    hide Calm, CalmStage, RunFrom, AdmittedUpdate;
    if step.SyncStep? {
      CalmStart(w);
      AppliedRun(0, Start(w), step.answers);
      RunKeepsRedundancy(0, Start(w), step.answers);
    } else if !step.SpecStep? {
      EnvironmentStep(w, step);
    }
  }

  /** Once the update is applied to the servers, no sync moves the root user any more. */
  lemma {:induction false} NoLaterMoves(z: World, steps: seq<Step>)
    requires Calm(z) && z.redundancy > 0 && Applied(z) && (forall s :: s in steps ==> WithoutPodErrors(s))
    requires After(z, steps).ndb.generation == z.ndb.generation
    ensures Calm(After(z, steps)) && Applied(After(z, steps)) && !MovedIn(z, steps)
    decreases |steps|
  {
    hide Next, Calm, WithoutPodErrors;
    if steps != [] {
      var n := |steps| - 1;
      LastStep(z, steps);
      GenerationsGrow(z, steps[..n]);
      var w := After(z, steps[..n]);
      GenerationGrows(w, steps[n]);
      NoLaterMoves(z, steps[..n]);
      AppliedStep(w, steps[n]);
      StepIsCalm(w, steps[n]);
    }
  }

  // ----- the whole run

  /** From the interrupted state on, good rounds put the specification into effect and keep the old root user. */
  lemma AfterInterruption(y: World, o: Origin, old': string) returns (steps: seq<Step>)
    requires Calm(y) && GroupsInStep(y) && Orderly(y) && Versioned(y) && Interrupted(y, o) && y.redundancy > 0
    requires o.users == {old'} && o.record == Some(old')
    ensures AttentiveRun(y, steps) && NoCallFailsIn(steps)
    ensures var v := After(y, steps);
            && InEffect(v) && v.ndb.spec == y.ndb.spec && v.rootUsers == {old', y.ndb.spec.rootHost}
  {
    hide Calm, GroupsInStep, Quiet, Orderly, After, AttentiveRun, Versioned, InEffect, GoodRounds, Mended, TakesEffect, AfterRounds, PodsFollow,
         Measure;
    var env := CatchUp(y);
    var z := After(y, env);
    EnvironmentSteps(y, env);
    CaughtUp(y, z);
    TidyIsMended(z);
    var rounds := CanTakeEffect(z);
    var rest, n := RoundsRun(z, rounds);
    RoundsKeepGeneration(z, rounds[..n]);
    var v := After(z, rest);
    InterruptedStory(y, o);
    SteadyStory(y, z, o, false, false);
    StillApplied(y, z, o);
    AttentiveWithoutErrors(z, rest);
    RunTold(z, rest, o, false, false);
    NoLaterMoves(z, rest);
    EffectIsDone(v);
    UsersDiffer(old', y.ndb.spec.rootHost);
    EnvironmentIsAttentive(y, env);
    EnvironmentFailsNowhere(env);
    AttentiveBoth(y, env, rest);
    AfterBoth(y, env, rest);
    steps := env + rest;
  }

  lemma InterruptedStory(y: World, o: Origin)
    requires Interrupted(y, o) && (o.record.Some? ==> o.record.value in o.users)
    ensures Story(y, o, false, false)
  {
  }

  lemma StillApplied(y: World, z: World, o: Origin)
    requires Interrupted(y, o) && Steady(y, z)
    ensures Applied(z)
  {
  }

  /** The update that changes nothing but the root user's host. */
  lemma HostUpdate(w: World, host: string)
    requires Tidy(w) && InEffect(w) && Versioned(w) && Recorded(w) && w.rootUsers == {w.ndb.spec.rootHost} && w.redundancy > 1
    ensures var spec, cm := w.ndb.spec.(rootHost := host), w.cm.value;
            && AdmittedUpdate(w, spec) && Renderable(spec)
            && Unapplied(Next(w, SpecStep(spec)), OriginOf(w), cm.version, cm.cnfVersion)
            && OriginOf(w).template == Some(Template(cm.version, cm.cnfVersion, spec.pool, "", false, spec.shape))
            && OriginOf(w).servers == spec.numMySQL && OriginOf(w).record == Some(w.ndb.spec.rootHost)
  {
    hide Calm, GroupsInStep, Quiet, Stale;
    TidyIsCalm(w);
    CalmFacts(w);
    SameCountsValid(w);
    var spec := w.ndb.spec.(rootHost := host);
    UpdateStaysTidy(w, spec);
  }

  lemma SameCountsValid(w: World)
    requires Calm(w)
    ensures ValidSpec(w.ndb.spec, w.redundancy)
  {
    hide Sound, ServersSound, ServersInStep, DataInStep;
  }

  /**
   For all valid specifications there is a run without pod errors in which only one call ever fails, the root-user
   statement of an update that changes nothing but the host: it ends in success and with both root users.
   */
  lemma OneFailureKeepsBoth(spec: Spec, host: string, redundancy: nat) returns (steps: seq<Step>, k: nat)
    requires redundancy > 1 && ValidSpec(spec, redundancy) && Renderable(spec) && host != spec.rootHost
    ensures AttentiveRun(Initial(spec, redundancy), steps)
    ensures k < |steps| && steps[k].SyncStep? && steps[k].answers.fails == {RootUser}
    ensures NoCallFailsIn(steps[..k]) && NoCallFailsIn(steps[k + 1..])
    ensures var v := After(Initial(spec, redundancy), steps);
            && InEffect(v) && v.ndb.spec == spec.(rootHost := host) && v.rootUsers == {spec.rootHost, host}
  {
    hide Calm, GroupsInStep, Quiet, Orderly, After, AttentiveRun, Versioned, InEffect, GoodRounds, Mended, TakesEffect, ValidSpec, Unapplied,
         Interrupted, Kept, SyncHandler, Applied, Friendly, Attentive, Story, AdmittedUpdate;
    var w0 := Initial(spec, redundancy);
    var first := FirstRun(spec, redundancy);
    var w := After(w0, first);
    var spec' := spec.(rootHost := host);
    HostUpdate(w, host);
    var update := SpecStep(spec');
    UpdateIsAttentive(w, update);
    AfterOne(w, update);
    var u, o := Next(w, update), OriginOf(w);
    var version, cnfVersion := w.cm.value.version, w.cm.value.cnfVersion;
    UnappliedIsNotInEffect(u, o, version, cnfVersion);
    TidyIsMended(u);
    var rounds := CanTakeEffect(u);
    var second, a := PatchFound(u, rounds, o, version, cnfVersion);
    var x := After(u, second);
    InterruptedSync(x, a, o, version, cnfVersion);
    var a' := a.(fails := FAILING);
    var third := [SyncStep(a')];
    AfterOne(x, third[0]);
    FailingIsAttentive(x, a);
    var y := SyncHandler(x, a');
    VersionedAfter(x, a', o, version, cnfVersion);
    var fourth := AfterInterruption(y, o, spec.rootHost);
    var later := [update] + second + third + fourth;
    AttentiveBoth(w, [update], second);
    AfterBoth(w, [update], second);
    AttentiveBoth(w, [update] + second, third);
    AfterBoth(w, [update] + second, third);
    AttentiveBoth(w, [update] + second + third, fourth);
    AfterBoth(w, [update] + second + third, fourth);
    AttentiveBoth(w0, first, later);
    AfterBoth(w0, first, later);
    steps, k := first + later, |first| + 1 + |second|;
    assert steps[..k] == first + [update] + second && steps[k] == third[0] && steps[k + 1..] == fourth;
  }

  lemma VersionedAfter(x: World, a: Answers, o: Origin, version: nat, cnfVersion: nat)
    requires Unapplied(x, o, version, cnfVersion)
    ensures Versioned(SyncHandler(x, a))
  {
    hide Calm, GroupsInStep, Quiet, Orderly, SyncHandler, Story, Versioned, Kept;
    HandlerTold(x, a, o, false, true);
  }

  lemma FailingIsAttentive(x: World, a: Answers)
    requires Friendly(x, a) && x.redundancy > 0
    ensures AttentiveRun(x, [SyncStep(a.(fails := FAILING))])
  {
    hide Rollout.Covers;
    assert [SyncStep(a.(fails := FAILING))][..0] == [];
    NoSteps(x);
    SameInformation(x, a);
  }

  lemma SameInformation(x: World, a: Answers)
    requires Informed(x, a)
    ensures Informed(x, a.(fails := FAILING))
  {
    hide InGroup;
  }
}
