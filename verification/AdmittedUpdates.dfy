/**
 From admission to effect: what the webhook lets through is what reconciliation expects, and an
 admitted specification takes effect in some run exactly if a configuration can be generated for it.
 */
module AdmittedUpdates {
  import opened Wrappers
  import opened Arithmetic
  import opened Reconcile
  import opened ReconcileRuns
  import opened ReconcileSuccess
  import opened ReconcileUpdates
  import opened UpdateRuns
  import opened TwoPhaseRestart
  import opened Convergence
  import opened RoundsExist
  import Admission
  import ConfigGenerator
  import NdbCluster

  // ----- the abstraction

  /** Counts that are not negative, and a section for MySQL servers. */
  predicate Counted(spec: NdbCluster.Spec) {
    && 0 <= spec.dataNode.nodeCount
    && spec.mysqlNode.Some?
    && var m := spec.mysqlNode.value; 0 <= m.nodeCount && 0 <= m.maxNodeCount && 0 <= m.connectionPoolSize
  }

  /** What reconciliation sees of a specification; `shapeOf` stands for everything else that shapes pods. */
  function SpecOf(spec: NdbCluster.Spec, shapeOf: NdbCluster.Spec -> int): Spec
    requires Counted(spec)
  {
    var m := spec.mysqlNode.value;
    Spec(spec.dataNode.nodeCount, m.nodeCount, m.maxNodeCount, m.connectionPoolSize, spec.tdeSecretName,
         m.rootHost, spec.freeAPISlots, shapeOf(spec))
  }

  predicate Represents(w: World, nc: NdbCluster.NdbCluster, shapeOf: NdbCluster.Spec -> int) {
    && Counted(nc.spec)
    && w.redundancy == nc.spec.redundancyLevel
    && w.ndb.generation == nc.generation && w.ndb.processed == nc.status.processedGeneration
    && w.ndb.syncError == nc.HasSyncError()
    && w.ndb.spec == SpecOf(nc.spec, shapeOf)
  }

  lemma AdmittedIsValid(nc: NdbCluster.NdbCluster, shapeOf: NdbCluster.Spec -> int)
    requires Admission.Admitted(nc)
    ensures Counted(nc.spec) && ValidSpec(SpecOf(nc.spec, shapeOf), nc.spec.redundancyLevel)
  {
  }

  /** The resource after a request that the webhook lets through and that changes the specification. */
  ghost predicate Updates(old': NdbCluster.NdbCluster, request: NdbCluster.NdbCluster, nc: NdbCluster.NdbCluster) {
    && Admission.Admitted(old')
    && Admission.Apply(Some(old'), Admission.UpdateRequest(request)) == Some(nc)
    && nc.spec != old'.spec
  }

  /** Whatever change the webhook lets through, reconciliation is ready for it. */
  lemma UpdateIsAdmitted(w: World, old': NdbCluster.NdbCluster, request: NdbCluster.NdbCluster, nc: NdbCluster.NdbCluster,
                         shapeOf: NdbCluster.Spec -> int)
    requires Represents(w, old', shapeOf) && Updates(old', request, nc)
    ensures w.redundancy > 0 && Admission.Admitted(nc) && Counted(nc.spec)
    ensures AdmittedUpdate(w, SpecOf(nc.spec, shapeOf))
    ensures Represents(Next(w, SpecStep(SpecOf(nc.spec, shapeOf))), nc, shapeOf)
  {
    hide Admission.UpdateAllowed, Admission.Mutated, Admission.SchemaValid;
    Admission.AdmittedStep(old', Admission.UpdateRequest(request));
    AllowedMeansSettled(old', old');
    Admission.StepEvolves(old', Admission.UpdateRequest(request));
    AdmittedIsValid(nc, shapeOf);
    AdmittedIsValid(old', shapeOf);
    AllowedMeansSettled(old', nc);
  }

  lemma AllowedMeansSettled(old': NdbCluster.NdbCluster, nc: NdbCluster.NdbCluster)
    requires Admission.Admitted(nc) && Admission.Admitted(old')
    ensures Admission.UpdateAllowed(old', nc) ==>
              && old'.spec.redundancyLevel != 1
              && (old'.status.processedGeneration == old'.generation || old'.HasSyncError())
    ensures old'.spec.redundancyLevel > 0 && nc.spec.redundancyLevel > 0
  {
  }

  // ----- when a configuration can be generated

  /** Within the limit of nodes, the number of free API slots alone decides whether the template can be executed. */
  lemma SizableIfNotNegative(nc: NdbCluster.NdbCluster)
    requires Admission.Admitted(nc) && Admission.AllNodes(nc) <= NdbCluster.MAX_NUMBER_OF_NODES
    ensures ConfigGenerator.Sizable(nc) <==> 0 <= nc.spec.freeAPISlots
  {
    if 0 <= nc.spec.freeAPISlots {
      var m := nc.spec.mysqlNode.value;
      assert m.maxNodeCount <= 256;
      ProductGrows(m.maxNodeCount, 256, m.connectionPoolSize);
    }
  }

  /** A config map whose specification could not have been rendered is an old one. */
  predicate RenderedSince(w: World, g: nat) {
    w.cm.Some? && !Renderable(w.cm.value.spec) ==> w.cm.value.generation <= g
  }

  lemma PhaseRenders(i: nat, c: Ctx, a: Answers, g: nat)
    requires i <= LAST && RenderedSince(c.w, g) && (i > 0 ==> c.w.cm == Some(c.cs))
    ensures var (c', r) := Phase(i, c, a); RenderedSince(c'.w, g) && (r == Continue ==> c'.w.cm == Some(c'.cs))
  {
    hide Patched, RebuiltData, Rebuilt;
  }

  lemma {:induction false} RunRenders(i: nat, c: Ctx, a: Answers, g: nat)
    requires i <= LAST && RenderedSince(c.w, g) && (i > 0 ==> c.w.cm == Some(c.cs))
    ensures RenderedSince(RunFrom(i, c, a).0.w, g)
    decreases LAST - i
  {
    hide Phase;
    PhaseRenders(i, c, a, g);
    if i < LAST && Phase(i, c, a).1 == Continue {
      RunRenders(i + 1, Phase(i, c, a).0, a, g);
    }
  }

  lemma StepRenders(w: World, step: Step, g: nat)
    requires w.redundancy > 0 && RenderedSince(w, g)
    ensures RenderedSince(Next(w, step), g) && Next(w, step).ndb.generation >= w.ndb.generation
  {
    hide RunFrom;
    if step.SyncStep? {
      RunRenders(0, Start(w), step.answers, g);
      RunKeepsRedundancy(0, Start(w), step.answers);
    }
  }

  lemma {:induction false} StepsRender(w: World, steps: seq<Step>, g: nat)
    requires w.redundancy > 0 && RenderedSince(w, g)
    ensures RenderedSince(After(w, steps), g) && After(w, steps).ndb.generation >= w.ndb.generation
    decreases |steps|
  {
    hide Next, RenderedSince;
    if steps != [] {
      var n := |steps| - 1;
      StepsRender(w, steps[..n], g);
      StepRenders(After(w, steps[..n]), steps[n], g);
    }
  }

  /** In every run, whatever fails: the config map holds only specifications with a configuration. */
  lemma AlwaysRendered(spec: Spec, redundancy: nat, steps: seq<Step>)
    requires redundancy > 0
    ensures var w := After(Initial(spec, redundancy), steps); w.cm.Some? ==> Renderable(w.cm.value.spec)
  {
    hide After;
    StepsRender(Initial(spec, redundancy), steps, 0);
    AlwaysSound(spec, redundancy, steps);
    var w := After(Initial(spec, redundancy), steps);
    ConfigMapIsBehind(w);
  }

  // ----- from admission to effect

  /** A run that begins with the update and ends with the specification in effect. */
  ghost predicate PutsIntoEffect(w: World, spec: Spec, steps: seq<Step>)
    requires w.redundancy > 0
  {
    && steps != [] && steps[0] == SpecStep(spec) && AttentiveRun(w, steps)
    && InEffect(After(w, steps)) && After(w, steps).ndb.spec == spec
  }

  lemma NotRenderedNotInEffect(w: World, spec: Spec, steps: seq<Step>)
    requires Tidy(w) && w.redundancy > 0 && AdmittedUpdate(w, spec) && !Renderable(spec)
    ensures !PutsIntoEffect(w, spec, steps)
  {
    hide After, Calm, GroupsInStep, Quiet, Orderly, AttentiveRun;
    if PutsIntoEffect(w, spec, steps) {
      var first := [steps[0]];
      assert steps == first + steps[1..];
      AfterBoth(w, first, steps[1..]);
      AfterOne(w, steps[0]);
      ConfigMapIsBehind(w) by { CalmSound(w); }
      StepRenders(w, steps[0], w.ndb.generation);
      StepsRender(Next(w, steps[0]), steps[1..], w.ndb.generation);
    }
  }

  /**
   An update that the webhook lets through, with a sum of nodes that does not wrap, takes effect in some run
   exactly if a configuration can be generated for it. A negative number of free API slots is let through, and
   never takes effect.
   */
  lemma UpdateHappens(w: World, old': NdbCluster.NdbCluster, request: NdbCluster.NdbCluster, nc: NdbCluster.NdbCluster,
                      shapeOf: NdbCluster.Spec -> int)
    requires Tidy(w) && Represents(w, old', shapeOf) && Updates(old', request, nc)
    ensures w.redundancy > 0 && Admission.Admitted(nc) && Counted(nc.spec)
    ensures Admission.AllNodes(nc) <= NdbCluster.MAX_NUMBER_OF_NODES ==>
              ((exists steps :: PutsIntoEffect(w, SpecOf(nc.spec, shapeOf), steps)) <==> ConfigGenerator.Sizable(nc))
    ensures nc.spec.freeAPISlots < 0 ==> !exists steps :: PutsIntoEffect(w, SpecOf(nc.spec, shapeOf), steps)
  {
    hide Tidy, Updates, Represents, Admission.Admitted, AdmittedUpdate, PutsIntoEffect, ConfigGenerator.Sizable, Admission.AllNodes;
    UpdateIsAdmitted(w, old', request, nc, shapeOf);
    var spec := SpecOf(nc.spec, shapeOf);
    if Renderable(spec) {
      var steps := EveryUpdateHappens(w, spec);
      assert PutsIntoEffect(w, spec, steps) by { EffectIsReached(w, spec, steps); }
    } else {
      forall steps ensures !PutsIntoEffect(w, spec, steps) {
        NotRenderedNotInEffect(w, spec, steps);
      }
    }
    if Admission.AllNodes(nc) <= NdbCluster.MAX_NUMBER_OF_NODES {
      SizableIfNotNegative(nc);
    }
  }

  lemma EffectIsReached(w: World, spec: Spec, steps: seq<Step>)
    requires w.redundancy > 0 && steps != [] && steps[0] == SpecStep(spec) && AttentiveRun(w, steps)
    requires InEffect(After(w, steps)) && After(w, steps).ndb.spec == spec
    ensures PutsIntoEffect(w, spec, steps)
  {
  }

  /** The same for a resource that was just created. */
  lemma CreationHappens(request: NdbCluster.NdbCluster, nc: NdbCluster.NdbCluster, shapeOf: NdbCluster.Spec -> int)
    requires Admission.Apply(None, Admission.CreateRequest(request)) == Some(nc)
    ensures Admission.Admitted(nc) && Counted(nc.spec) && nc.spec.redundancyLevel > 0
    ensures var w := Initial(SpecOf(nc.spec, shapeOf), nc.spec.redundancyLevel);
            var happens := exists steps :: AttentiveRun(w, steps) && InEffect(After(w, steps)) && After(w, steps).ndb.spec == w.ndb.spec;
            && (Admission.AllNodes(nc) <= NdbCluster.MAX_NUMBER_OF_NODES ==> (happens <==> ConfigGenerator.Sizable(nc)))
            && (nc.spec.freeAPISlots < 0 ==> !happens)
  {
    hide After, AttentiveRun, Tidy, GoodRounds, Mended, TakesEffect, Admission.Admitted, Admission.Apply, ConfigGenerator.Sizable, Admission.AllNodes;
    Admission.CreatedIsAdmitted(request);
    if Admission.AllNodes(nc) <= NdbCluster.MAX_NUMBER_OF_NODES {
      SizableIfNotNegative(nc);
    }
    AdmittedIsValid(nc, shapeOf);
    assert nc.spec.redundancyLevel > 0 by { AllowedMeansSettled(nc, nc); }
    var spec := SpecOf(nc.spec, shapeOf);
    var w := Initial(spec, nc.spec.redundancyLevel);
    if Renderable(spec) {
      StartsTidy(spec, nc.spec.redundancyLevel);
      TidyIsMended(w);
      var rounds := CanTakeEffect(w);
      var steps, n := RoundsRun(w, rounds);
    } else {
      forall steps ensures !(InEffect(After(w, steps)) && After(w, steps).ndb.spec == spec) {
        AlwaysRendered(spec, nc.spec.redundancyLevel, steps);
      }
    }
  }

  // ----- what a specification without a configuration does to the cluster

  /** The update is stuck: not applied, never successful, and admitting no other one. */
  predicate Stuck(w: World, spec: Spec, g: nat) {
    && w.ndb.spec == spec && w.ndb.generation == g + 1 && w.ndb.processed <= g && !w.ndb.syncError
    && RenderedSince(w, g)
  }

  lemma StuckStep(w: World, spec: Spec, g: nat, step: Step)
    requires Calm(w) && w.redundancy > 0 && Stuck(w, spec, g) && !Renderable(spec) && WithoutPodErrors(step)
    ensures Stuck(Next(w, step), spec, g)
    ensures step.SyncStep? ==> !Sync(w, step.answers).0.success
  {
    hide RunFrom, Sound, ServersSound, ServersInStep, DataInStep;
    StepRenders(w, step, g);
    StepIsCalm(w, step);
    if step.SyncStep? {
      RunKeepsRedundancy(0, Start(w), step.answers);
      RunRenders(0, Start(w), step.answers, g);
      StepIsSound(w, step);
      if Sync(w, step.answers).0.success {
        SuccessKeepsGeneration(w, step.answers);
      }
    }
  }

  /** Success would need the config map to carry the specification. */
  lemma SuccessKeepsGeneration(w: World, a: Answers)
    requires Calm(w) && !a.podErrors && Sync(w, a).0.success
    ensures var v := Sync(w, a).0.w; v.cm.Some? && v.cm.value.generation == w.ndb.generation && v.cm.value.spec == w.ndb.spec
  {
    hide RunFrom, Sound, ServersSound, ServersInStep, DataInStep, Settled, InSync;
    CalmSound(w);
    StepIsSound(w, SyncStep(a));
    StepIsCalm(w, SyncStep(a));
    RunKeepsRedundancy(0, Start(w), a);
    assert InSync(Sync(w, a).0.w);
    InSyncGeneration(Sync(w, a).0.w);
  }

  lemma InSyncGeneration(w: World)
    requires InSync(w)
    ensures w.cm.Some? && w.cm.value.generation == w.ndb.generation
  {
  }

  lemma {:induction false} StaysStuck(w: World, spec: Spec, g: nat, steps: seq<Step>)
    requires Calm(w) && w.redundancy > 0 && Stuck(w, spec, g) && !Renderable(spec)
    requires forall s :: s in steps ==> WithoutPodErrors(s)
    ensures Calm(After(w, steps)) && Stuck(After(w, steps), spec, g)
    decreases |steps|
  {
    hide Next, Calm, Stuck, WithoutPodErrors;
    if steps != [] {
      var n := |steps| - 1;
      StaysStuck(w, spec, g, steps[..n]);
      StepIsCalm(After(w, steps[..n]), steps[n]);
      StuckStep(After(w, steps[..n]), spec, g, steps[n]);
    }
  }

  /**
   Once the webhook has let a negative number of free API slots through, nothing goes on without a pod
   error: no sync succeeds, the config map stays where it was, and every other update is refused.
   */
  lemma NegativeSlotsBlock(w: World, spec: Spec, steps: seq<Step>, a: Answers, other: Spec)
    requires Tidy(w) && w.redundancy > 0 && AdmittedUpdate(w, spec) && !Renderable(spec) && !a.podErrors
    requires forall s :: s in steps ==> WithoutPodErrors(s)
    ensures var v := After(Next(w, SpecStep(spec)), steps);
            && !Sync(v, a).0.success && !AdmittedUpdate(v, other)
            && v.ndb.spec == spec && (v.cm.Some? ==> v.cm.value.generation < v.ndb.generation)
  {
    hide After, Sync, RunFrom, GroupsInStep, Quiet, Orderly, Sound, ServersSound, ServersInStep, DataInStep, ValidSpec;
    var g := w.ndb.generation;
    ConfigMapIsBehind(w);
    StepIsCalm(w, SpecStep(spec));
    var u := Next(w, SpecStep(spec));
    assert Stuck(u, spec, g);
    StaysStuck(u, spec, g, steps);
    var v := After(u, steps);
    StuckStep(v, spec, g, SyncStep(a));
    StuckConfig(v, spec, g);
  }

  lemma StuckConfig(v: World, spec: Spec, g: nat)
    requires Calm(v) && Stuck(v, spec, g) && !Renderable(spec)
    ensures v.cm.Some? ==> v.cm.value.generation <= g
  {
    hide Sound, ServersSound, ServersInStep, DataInStep;
    ConfigMapIsBehind(v);
  }
}
