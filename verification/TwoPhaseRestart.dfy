/**
 A change of the file system's password secret: the data nodes are first all restarted with --initial,
 then the flag is taken back, then they are all restarted without it; and the run-level form of
 adding data nodes online.
 */
module TwoPhaseRestart {
  import opened Wrappers
  import opened StatefulSets
  import opened Reconcile
  import opened ReconcileRuns
  import opened ReconcileSuccess
  import opened ReconcilePaths
  import opened ReconcileUpdates
  import opened UpdateRuns

  // ----- attentive runs

  ghost predicate AttentiveRun(w: World, steps: seq<Step>)
    requires w.redundancy > 0
  {
    forall i :: 0 <= i < |steps| ==> Attentive(After(w, steps[..i]), steps[i])
  }

  lemma AttentivePrefix(w: World, steps: seq<Step>, n: nat)
    requires w.redundancy > 0 && AttentiveRun(w, steps) && n <= |steps|
    ensures AttentiveRun(w, steps[..n])
  {
    forall i | 0 <= i < n ensures Attentive(After(w, steps[..n][..i]), steps[..n][i]) {
      assert steps[..n][..i] == steps[..i];
    }
  }

  lemma {:induction false} AttentiveIsCalm(spec: Spec, redundancy: nat, steps: seq<Step>)
    requires redundancy > 0 && ValidSpec(spec, redundancy) && AttentiveRun(Initial(spec, redundancy), steps)
    ensures Calm(After(Initial(spec, redundancy), steps))
    decreases |steps|
  {
    hide Next, Calm, Informed, ValidSpec;
    if steps == [] {
      StartsCalm(spec, redundancy);
    } else {
      var n := |steps| - 1;
      AttentivePrefix(Initial(spec, redundancy), steps, n);
      AttentiveIsCalm(spec, redundancy, steps[..n]);
      var w := After(Initial(spec, redundancy), steps[..n]);
      assert Attentive(w, steps[n]);
      StepIsCalm(w, steps[n]);
    }
  }

  lemma StartsGrouped(spec: Spec, redundancy: nat)
    ensures GroupsInStep(Initial(spec, redundancy))
  {
  }

  /** Every successful call to make node groups finds all new data nodes connected. */
  ghost predicate GroupingRun(w: World, steps: seq<Step>)
    requires w.redundancy > 0
  {
    forall i :: 0 <= i < |steps| && steps[i].SyncStep? ==> GroupsAll(After(w, steps[..i]), steps[i].answers)
  }

  lemma GroupingPrefix(w: World, steps: seq<Step>, n: nat)
    requires w.redundancy > 0 && GroupingRun(w, steps) && n <= |steps|
    ensures GroupingRun(w, steps[..n])
  {
    hide GroupsAll, After;
    forall i | 0 <= i < n && steps[..n][i].SyncStep? ensures GroupsAll(After(w, steps[..n][..i]), steps[..n][i].answers) {
      assert steps[..n][..i] == steps[..i];
    }
  }

  lemma {:induction false} GroupingStaysInStep(spec: Spec, redundancy: nat, steps: seq<Step>)
    requires redundancy > 0 && ValidSpec(spec, redundancy)
    requires AttentiveRun(Initial(spec, redundancy), steps) && GroupingRun(Initial(spec, redundancy), steps)
    ensures GroupsInStep(After(Initial(spec, redundancy), steps))
    decreases |steps|
  {
    hide Next, Calm, GroupsInStep, Informed, GroupsAll, ValidSpec;
    if steps == [] {
      StartsGrouped(spec, redundancy);
    } else {
      var n := |steps| - 1;
      AttentivePrefix(Initial(spec, redundancy), steps, n);
      GroupingPrefix(Initial(spec, redundancy), steps, n);
      GroupingStaysInStep(spec, redundancy, steps[..n]);
      AttentiveIsCalm(spec, redundancy, steps[..n]);
      var w := After(Initial(spec, redundancy), steps[..n]);
      assert Attentive(w, steps[n]);
      StepKeepsGroups(w, steps[n]);
    }
  }

  /**
   In every attentive run, new data nodes are started only after all data nodes with a node group run the
   current revision; that is all old ones, if successful calls have grouped all new data nodes.
   */
  lemma NewNodesAfterRestart(spec: Spec, redundancy: nat, steps: seq<Step>, a: Answers)
    requires redundancy > 0 && ValidSpec(spec, redundancy) && AttentiveRun(Initial(spec, redundancy), steps)
    requires Attentive(After(Initial(spec, redundancy), steps), SyncStep(a))
    ensures var w := After(Initial(spec, redundancy), steps);
            var v := SyncHandler(w, a);
            w.data.Some? && v.data.Some? && v.data.value.replicas > w.data.value.replicas ==>
              && w.cm.Some? && w.data.value.applied == w.cm.value.generation
              && w.data.value.template.version == w.cm.value.version
              && (forall o :: o in w.inducted && o in w.pods ==> w.pods[o] == w.data.value.template)
              && (GroupingRun(Initial(spec, redundancy), steps) ==>
                    forall o :: 0 <= o < w.data.value.replicas && o in w.pods ==> w.pods[o] == w.data.value.template)
  {
    hide After, Calm, GroupsInStep, Attentive, SyncHandler, GroupingRun;
    AttentiveIsCalm(spec, redundancy, steps);
    var w := After(Initial(spec, redundancy), steps);
    if w.data.Some? {
      ReplicasRiseAfterRestart(w, a);
      if GroupingRun(Initial(spec, redundancy), steps) {
        GroupingStaysInStep(spec, redundancy, steps);
      }
    }
  }

  // ----- one sync

  ghost predicate FlagCleared(w: World, v: World) {
    w.cm.Some? && v.cm.Some? && w.cm.value.initialRestart && !v.cm.value.initialRestart
  }

  /** Every inducted data node runs a template with --initial and the secret. */
  ghost predicate InitialRolloutDone(w: World, secret: string) {
    && w.data.Some? && w.data.value.template.initial && w.data.value.template.secret == secret
    && PodsCurrent(w, w.inducted)
  }

  /** What happens to an existing config map in one sync. */
  lemma ConfigMapChange(w: World, a: Answers)
    requires Calm(w) && w.cm.Some? && !a.podErrors && Informed(w, a)
    ensures var v := SyncHandler(w, a);
            && v.cm.Some?
            && (|| v.cm == w.cm
                || (&& v.cm.value.spec == w.ndb.spec
                    && v.cm.value.initialRestart == (w.cm.value.initialRestart || w.cm.value.spec.tde != w.ndb.spec.tde))
                || (&& v.cm.value == w.cm.value.(initialRestart := false)
                    && InitialRolloutDone(w, w.cm.value.spec.tde)))
  {
    hide Phase, RunFrom, CalmStage, Sound, ConfigFirst, Stage, Calm, Informed, InitialRolloutDone;
    CalmStart(w);
    StartStage(w);
    CalmSound(w);
    var j := EndsSomewhere(0, Start(w), a);
    var d := Reached(0, j, Start(w), a).value;
    CalmReached(0, j, Start(w), a);
    ReachedKept(0, j, Start(w), a);
    if Phase(j, d, a).0.w.cm != d.w.cm {
      ConfigMapMoves(j, d, a);
      ReadyWhenReached(w, j, a);
      FinishChange(d, a);
      if IsInitialFlagSet(d.data) {
        InitialIsApplied(d);
        PastRollout(w, a, j);
        InitialDone(w, d);
      }
    }
  }

  lemma FinishChange(d: Ctx, a: Answers)
    requires CalmStage(LAST, d)
    ensures d.w.cm == Some(d.cs)
    ensures var v := Phase(LAST, d, a).0.w;
            && v.cm.Some?
            && (|| v.cm == d.w.cm
                || (&& v.cm.value.spec == d.w.ndb.spec
                    && v.cm.value.initialRestart == (d.cs.initialRestart || d.cs.spec.tde != d.w.ndb.spec.tde))
                || (v.cm.value == d.cs.(initialRestart := false) && IsInitialFlagSet(d.data)))
  {
    hide Sound, Stage, Calm, UpdateComplete, Ready;
    StageIsOriented(LAST, d);
  }

  lemma InitialIsApplied(d: Ctx)
    requires CalmStage(LAST, d) && IsInitialFlagSet(d.data)
    ensures d.data.Some? && d.data.value.applied == d.cs.generation
  {
    hide Sound, Stage, Calm;
    StageIsOriented(LAST, d);
  }

  lemma InitialDone(w: World, d: Ctx)
    requires Calm(w) && w.data == d.data && IsInitialFlagSet(d.data) && w.cm == Some(d.cs)
    requires d.data.value.applied == d.cs.generation && PodsCurrent(w, w.inducted)
    ensures InitialRolloutDone(w, w.cm.value.spec.tde)
  {
    hide Sound, PodsCurrent;
  }

  /** The flag never clears before every inducted node has been restarted with --initial and the new secret. */
  lemma FlagClearsAfterRollout(w: World, a: Answers)
    requires Calm(w) && !a.podErrors && Informed(w, a)
    ensures FlagCleared(w, SyncHandler(w, a)) ==> InitialRolloutDone(w, w.cm.value.spec.tde)
  {
    hide SyncHandler, Calm, Informed, InitialRolloutDone;
    if w.cm.Some? {
      ConfigMapChange(w, a);
    }
  }

  /** Past the rollout phase the status of the data nodes is current in any case. */
  lemma ObservedPastRollout(w: World, j: nat, a: Answers)
    requires Calm(w) && 8 <= j <= LAST && Reached(0, j, Start(w), a).Some?
    ensures Observed(w)
  {
    hide Phase, Sound, Stage, Calm;
    CalmStart(w);
    CalmReached(0, j, Start(w), a);
    ReadyWhenReached(w, j, a);
  }

  /** Success: the flag is gone, and every inducted data node runs the secret of the specification without --initial. */
  lemma SuccessAfterSecondRollout(w: World, a: Answers)
    requires Calm(w) && !a.podErrors && Informed(w, a) && Sync(w, a).0.success
    ensures var v := Sync(w, a).0.w;
            && InSync(v) && !v.cm.value.initialRestart
            && v.cm.value.spec.tde == w.ndb.spec.tde && v.data.value.template.secret == w.ndb.spec.tde
            && PodsCurrent(v, w.inducted)
  {
    hide Phase, RunFrom, Sound, Stage, Informed, ConfigFirst, InSync;
    CalmStart(w);
    StartStage(w);
    var j := EndsSomewhere(0, Start(w), a);
    var d := Reached(0, j, Start(w), a).value;
    CalmReached(0, j, Start(w), a);
    ReachedKept(0, j, Start(w), a);
    StepIsSound(w, SyncStep(a));
    SucceedsLast(j, d, a);
    ObservedPastRollout(w, j, a);
    PastRollout(w, a, j);
    CurrentThroughout(w, d, Phase(j, d, a).0.w);
  }

  lemma SucceedsLast(j: nat, d: Ctx, a: Answers)
    requires j <= LAST && CalmStage(j, d) && Phase(j, d, a).0.success
    ensures j == LAST && Phase(j, d, a).0.w == d.w
    ensures d.w.cm.Some? && d.w.data.Some?
    ensures !d.w.cm.value.initialRestart && d.w.cm.value.spec == d.w.ndb.spec
    ensures d.w.data.value.template.secret == d.w.ndb.spec.tde
  {
    hide Sound, Stage, UpdateComplete, Ready;
    if j < LAST {
      NotYet(j, d, a);
    } else {
      StageIsOriented(LAST, d);
    }
  }

  lemma NotYet(j: nat, d: Ctx, a: Answers)
    requires j < LAST && CalmStage(j, d)
    ensures !Phase(j, d, a).0.success
  {
    hide Phase, Sound, Stage;
    NoSuccessYet(j, d, a);
  }

  lemma CurrentThroughout(w: World, d: Ctx, v: World)
    requires PodsCurrent(w, w.inducted) && v == d.w && d.w.pods == w.pods && Kept(w, d.w)
    ensures PodsCurrent(v, w.inducted)
  {
  }

  // ----- a whole run

  /** Somewhere from step `i` on, the flag was cleared after a full rollout with --initial and the secret. */
  ghost predicate ClearedSince(w: World, steps: seq<Step>, i: nat, secret: string)
    requires w.redundancy > 0
  {
    exists k :: i <= k < |steps| && ClearedAt(w, steps, k, secret)
  }

  ghost predicate ClearedAt(w: World, steps: seq<Step>, k: nat, secret: string)
    requires w.redundancy > 0 && k < |steps|
  {
    && FlagCleared(After(w, steps[..k]), After(w, steps[..k + 1]))
    && InitialRolloutDone(After(w, steps[..k]), secret)
  }

  lemma ClearedEarlier(w: World, steps: seq<Step>, n: nat, i: nat, secret: string)
    requires w.redundancy > 0 && n <= |steps| && ClearedSince(w, steps[..n], i, secret)
    ensures ClearedSince(w, steps, i, secret)
  {
    hide After, FlagCleared, InitialRolloutDone;
    var k :| i <= k < n && ClearedAt(w, steps[..n], k, secret);
    assert steps[..n][..k] == steps[..k] && steps[..n][..k + 1] == steps[..k + 1];
    assert ClearedAt(w, steps, k, secret);
  }

  /** Since step `i` the secret is the same, or the flag is set, or it has been cleared properly. */
  ghost predicate SecretTracked(w: World, steps: seq<Step>, i: nat)
    requires w.redundancy > 0 && i <= |steps|
  {
    var then', now := After(w, steps[..i]), After(w, steps);
    then'.cm.Some? ==>
      && now.cm.Some?
      && (|| now.cm.value.spec.tde == then'.cm.value.spec.tde
          || now.cm.value.initialRestart
          || ClearedSince(w, steps, i, now.cm.value.spec.tde))
  }

  lemma {:induction false} SecretIsTracked(spec: Spec, redundancy: nat, steps: seq<Step>, i: nat)
    requires redundancy > 0 && ValidSpec(spec, redundancy) && AttentiveRun(Initial(spec, redundancy), steps) && i <= |steps|
    ensures SecretTracked(Initial(spec, redundancy), steps, i)
    decreases |steps|
  {
    hide Next, ClearedSince, Attentive, ValidSpec;
    var w0 := Initial(spec, redundancy);
    if i == |steps| {
      assert steps[..i] == steps;
    } else {
      var n := |steps| - 1;
      AttentivePrefix(w0, steps, n);
      SecretIsTracked(spec, redundancy, steps[..n], i);
      assert steps[..n][..i] == steps[..i];
      AttentiveIsCalm(spec, redundancy, steps[..n]);
      SecretStep(w0, steps, i);
    }
  }

  lemma SecretStep(w0: World, steps: seq<Step>, i: nat)
    requires w0.redundancy > 0 && steps != [] && i < |steps| && Calm(After(w0, steps[..|steps| - 1]))
    requires Attentive(After(w0, steps[..|steps| - 1]), steps[|steps| - 1])
    requires SecretTracked(w0, steps[..|steps| - 1], i)
    ensures SecretTracked(w0, steps, i)
  {
    hide After, Next, Calm, ClearedSince, SyncHandler, InitialRolloutDone, Attentive;
    var n := |steps| - 1;
    assert steps[..n][..i] == steps[..i];
    var before, step := After(w0, steps[..n]), steps[n];
    LastStep(w0, steps);
    if After(w0, steps[..i]).cm.Some? {
      var secret := before.cm.value.spec.tde;
      if ClearedSince(w0, steps[..n], i, secret) {
        ClearedEarlier(w0, steps, n, i, secret);
      }
      NextConfigMap(before, step);
      if FlagCleared(before, Next(before, step)) {
        ClearedNow(w0, steps, i, secret);
      }
    }
  }

  lemma LastStep(w0: World, steps: seq<Step>)
    requires w0.redundancy > 0 && steps != []
    ensures After(w0, steps) == Next(After(w0, steps[..|steps| - 1]), steps[|steps| - 1])
  {
  }

  lemma NextConfigMap(w: World, step: Step)
    requires Calm(w) && w.cm.Some? && Attentive(w, step)
    ensures var v := Next(w, step);
            && v.cm.Some?
            && (|| v.cm == w.cm
                || v.cm.value.initialRestart
                || v.cm.value.spec.tde == w.cm.value.spec.tde)
            && (v.cm.value.spec.tde != w.cm.value.spec.tde ==> v.cm.value.initialRestart)
            && (FlagCleared(w, v) ==> InitialRolloutDone(w, w.cm.value.spec.tde))
  {
    hide SyncHandler, Calm, InitialRolloutDone, Informed;
    if step.SyncStep? {
      ConfigMapChange(w, step.answers);
    }
  }

  lemma ClearedNow(w0: World, steps: seq<Step>, i: nat, secret: string)
    requires w0.redundancy > 0 && steps != [] && i < |steps|
    requires FlagCleared(After(w0, steps[..|steps| - 1]), After(w0, steps))
    requires InitialRolloutDone(After(w0, steps[..|steps| - 1]), secret)
    ensures ClearedSince(w0, steps, i, secret)
  {
    hide After, FlagCleared, InitialRolloutDone;
    var k := |steps| - 1;
    assert steps[..k + 1] == steps;
    assert ClearedAt(w0, steps, k, secret);
  }

  /**
   In every attentive run: if the secret of the config map was another one at step `i`, then a sync
   that reports success comes after a full rollout with --initial and the new secret, after
   which the flag was cleared, and after a second full rollout without --initial.
   */
  lemma SecretChangeTakesTwoRollouts(spec: Spec, redundancy: nat, steps: seq<Step>, i: nat, a: Answers)
    requires redundancy > 0 && ValidSpec(spec, redundancy) && AttentiveRun(Initial(spec, redundancy), steps) && i <= |steps|
    requires var w := After(Initial(spec, redundancy), steps); Attentive(w, SyncStep(a)) && Sync(w, a).0.success
    requires var then' := After(Initial(spec, redundancy), steps[..i]);
             var w := After(Initial(spec, redundancy), steps);
             then'.cm.Some? && then'.cm.value.spec.tde != w.ndb.spec.tde
    ensures var w := After(Initial(spec, redundancy), steps);
            var v := Sync(w, a).0.w;
            && ClearedSince(Initial(spec, redundancy), steps, i, w.ndb.spec.tde)
            && v.data.Some? && !v.data.value.template.initial && v.data.value.template.secret == w.ndb.spec.tde
            && PodsCurrent(v, w.inducted)
  {
    hide Next, Calm, ClearedSince, Sync, Informed, ValidSpec, PodsCurrent, AttentiveRun;
    var w := After(Initial(spec, redundancy), steps);
    AttentiveIsCalm(spec, redundancy, steps);
    SecretIsTracked(spec, redundancy, steps, i);
    SuccessAfterSecondRollout(w, a);
    SuccessKeepsFlag(w, a);
  }

  /** A successful sync leaves the config map as it found it. */
  lemma SuccessKeepsFlag(w: World, a: Answers)
    requires Calm(w) && w.cm.Some? && Sync(w, a).0.success
    ensures Sync(w, a).0.w.cm == w.cm
  {
    hide Phase, RunFrom, CalmStage, Sound, ConfigFirst, Stage, Calm;
    CalmStart(w);
    StartStage(w);
    CalmSound(w);
    var j := EndsSomewhere(0, Start(w), a);
    var d := Reached(0, j, Start(w), a).value;
    CalmReached(0, j, Start(w), a);
    ReachedKept(0, j, Start(w), a);
    SucceedsLast(j, d, a);
  }
}
