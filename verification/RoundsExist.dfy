/**
 Good rounds exist from every tidy state: a management server that answers, and controllers that
 catch up. So every admitted specification can be put into effect, in a run of the model.
 */
module RoundsExist {
  import opened Wrappers
  import opened Arithmetic
  import opened StatefulSets
  import opened Reconcile
  import opened ReconcileRuns
  import opened ReconcileSuccess
  import opened ReconcileUpdates
  import opened UpdateRuns
  import opened PodErrorRuns
  import opened Convergence
  import ClusterStatus
  import Rollout
  import opened TwoPhaseRestart

  // ----- an answer of the management server

  /** `n` connected data nodes in groups of `r`, after `m` management nodes. */
  function Connected(n: nat, r: nat, m: nat): ClusterStatus.Cluster
    requires r > 0
  {
    var ids := ClusterStatus.Range(m + 1 + n) - ClusterStatus.Range(m + 1);
    map id | id in ids :: ClusterStatus.NodeStatus(ClusterStatus.NDB, true, (id - m - 1) / r, "")
  }

  lemma NotNegative(x: nat, r: nat)
    requires r > 0
    ensures x / r >= 0
  {
  }

  lemma ConnectedNode(n: nat, r: nat, m: nat, id: int)
    requires r > 0
    ensures id in Connected(n, r, m) <==> m < id < m + 1 + n
    ensures m < id < m + 1 + n ==>
              var ns := Connected(n, r, m)[id]; ClusterStatus.Inducted(ns) && ns.isConnected && ns.nodeGroup == (id - m - 1) / r
  {
    hide ClusterStatus.Range;
    ClusterStatus.RangeIs(m + 1 + n);
    ClusterStatus.RangeIs(m + 1);
    if m < id < m + 1 + n {
      NotNegative(id - m - 1, r);
    }
  }

  /** The node ids of group `g`. */
  function GroupList(g: nat, r: nat, m: nat): (s: seq<int>)
    ensures |s| == r && forall i :: 0 <= i < r ==> s[i] == m + 1 + (g * r + i)
  {
    seq(r, i requires 0 <= i < r => m + 1 + (g * r + i))
  }

  lemma Within(g: nat, k: nat, r: nat, i: nat)
    requires g < k && i < r
    ensures g * r + i < k * r && (g * r + i) / r == g
  {
    QuotientOf(g, r, i);
    ProductGrows(g + 1, k, r);
    assert (g + 1) * r == g * r + r;
  }

  lemma Position(o: nat, k: nat, r: nat) returns (g: nat, i: nat)
    requires r > 0 && o < k * r
    ensures g < k && i < r && o == g * r + i && g == o / r
  {
    g, i := o / r, o % r;
    assert o == g * r + i;
    if g >= k {
      ProductGrows(k, g, r);
    }
  }

  lemma IsMember(k: nat, r: nat, m: nat, g: nat, i: nat)
    requires r > 0 && g < k && i < r
    ensures m + 1 + (g * r + i) in ClusterStatus.Members(Connected(k * r, r, m), g)
    ensures g in ClusterStatus.GroupIds(Connected(k * r, r, m))
  {
    hide Connected, ClusterStatus.Inducted;
    Within(g, k, r, i);
    ConnectedNode(k * r, r, m, m + 1 + (g * r + i));
  }

  lemma MemberIs(k: nat, r: nat, m: nat, g: int, id: int) returns (i: nat)
    requires r > 0 && id in ClusterStatus.Members(Connected(k * r, r, m), g)
    ensures 0 <= g < k && i < r && id == m + 1 + (g * r + i)
  {
    hide Connected, ClusterStatus.Inducted;
    ConnectedNode(k * r, r, m, id);
    var g';
    g', i := Position(id - m - 1, k, r);
  }

  lemma MemberList(k: nat, r: nat, m: nat, g: nat)
    requires r > 0 && g < k
    ensures ClusterStatus.ListsSorted(GroupList(g, r, m), ClusterStatus.Members(Connected(k * r, r, m), g))
  {
    hide Connected, ClusterStatus.Members;
    var members, s := ClusterStatus.Members(Connected(k * r, r, m), g), GroupList(g, r, m);
    forall x ensures x in s <==> x in members {
      if x in s {
        var i :| 0 <= i < r && s[i] == x;
        IsMember(k, r, m, g, i);
      }
      if x in members {
        var i := MemberIs(k, r, m, g, x);
        assert s[i] == x;
      }
    }
  }

  lemma GroupNumbers(k: nat, r: nat, m: nat)
    requires r > 0
    ensures ClusterStatus.GroupIds(Connected(k * r, r, m)) == ClusterStatus.Range(k)
  {
    hide Connected, ClusterStatus.Inducted, ClusterStatus.Range;
    var cs := Connected(k * r, r, m);
    ClusterStatus.RangeIs(k);
    forall g ensures g in ClusterStatus.GroupIds(cs) <==> 0 <= g < k {
      if 0 <= g < k {
        IsMember(k, r, m, g, 0);
      }
      if g in ClusterStatus.GroupIds(cs) {
        var id :| id in cs && ClusterStatus.Inducted(cs[id]) && cs[id].nodeGroup == g;
        assert id in ClusterStatus.Members(cs, g);
        var i := MemberIs(k, r, m, g, id);
      }
    }
  }

  lemma ConnectedGroups(k: nat, r: nat, m: nat)
    requires r > 0
    ensures var groups := Rollout.GroupsOf(Connected(k * r, r, m));
            |groups| == k && forall g :: 0 <= g < k ==> groups[g] == GroupList(g, r, m)
  {
    hide ClusterStatus.ListsSorted, ClusterStatus.Members, ClusterStatus.GroupIds;
    var cs := Connected(k * r, r, m);
    GroupNumbers(k, r, m);
    ClusterStatus.RangeIs(k);
    var groups := Rollout.GroupsOf(cs);
    assert |groups| == k;
    forall g | 0 <= g < k ensures groups[g] == GroupList(g, r, m) {
      MemberList(k, r, m, g);
      ClusterStatus.SortedListIsUnique(groups[g], GroupList(g, r, m), ClusterStatus.Members(cs, g));
    }
  }

  lemma Grouped(k: nat, r: nat, m: nat, o: nat) returns (g: nat, i: nat)
    requires r > 0 && o < k * r
    ensures var groups := Rollout.GroupsOf(Connected(k * r, r, m));
            g < |groups| && i < r && |groups[g]| == r && Rollout.OrdinalOf(groups[g][i], m) == o
  {
    ConnectedGroups(k, r, m);
    g, i := Position(o, k, r);
  }

  lemma ConnectedCovers(k: nat, r: nat, m: nat, pods: map<int, Template>)
    requires r > 0 && forall o :: o in pods <==> 0 <= o < k * r
    ensures Rollout.Covers(Rollout.GroupsOf(Connected(k * r, r, m)), r, pods, m)
  {
    ConnectedGroups(k, r, m);
    var groups := Rollout.GroupsOf(Connected(k * r, r, m));
    forall j, i | 0 <= j < |groups| && 0 <= i < r ensures Rollout.OrdinalOf(groups[j][i], m) in pods {
      Within(j, k, r, i);
    }
    forall o | o in pods ensures exists j, i :: 0 <= j < |groups| && 0 <= i < r && Rollout.OrdinalOf(groups[j][i], m) == o {
      var g, i := Grouped(k, r, m, o);
    }
  }

  /** An answer for a state with stale pods, in which all data nodes are grouped. */
  lemma StaleAnswer(w: World) returns (a: Answers)
    requires Quiet(w) && w.redundancy > 0 && InRange(w) && w.data.Some? && Stale(w) != {}
    ensures Friendly(w, a) && a.keepsConfig && a.keepsCnf
  {
    hide UpdateComplete, Connected, Stale, Rollout.AnyMissing, Rollout.Covers, InGroup, ClusterStatus.Range, UpToDate;
    var n, r, m := w.data.value.replicas, w.redundancy, ManagementNodes(w);
    ClusterStatus.RangeIs(n);
    var k := n / r;
    assert n == k * r;
    var cs := Connected(k * r, r, m);
    a := Answers({}, true, true, Some(cs), w.pods, {}, w.pods.Keys, false, false);
    AllConnected(k * r, r, m);
    ConnectedCovers(k, r, m, w.pods);
    forall o | o in w.inducted ensures InGroup(Rollout.GroupsOf(cs), r, o, m) {
      GroupedIsInGroup(k, r, m, o);
    }
  }

  lemma GroupedIsInGroup(k: nat, r: nat, m: nat, o: nat)
    requires r > 0 && o < k * r
    ensures InGroup(Rollout.GroupsOf(Connected(k * r, r, m)), r, o, m)
  {
    hide Connected;
    var g, i := Grouped(k, r, m, o);
  }

  lemma FriendlyAnswer(w: World) returns (a: Answers)
    requires Quiet(w) && w.redundancy > 0 && InRange(w)
    ensures Friendly(w, a) && a.keepsConfig && a.keepsCnf
  {
    hide Quiet, Rollout.Covers;
    if Stale(w) == {} {
      a := Answers({}, true, true, None, w.pods, {}, w.pods.Keys, false, false);
    } else {
      a := StaleAnswer(w);
    }
  }

  lemma AllConnected(n: nat, r: nat, m: nat)
    requires r > 0
    ensures !Rollout.AnyMissing(Connected(n, r, m))
  {
    hide Connected;
    forall id ensures id in Connected(n, r, m) ==> !ClusterStatus.Missing(Connected(n, r, m)[id]) {
      ConnectedNode(n, r, m, id);
    }
  }

  // ----- controllers that catch up

  lemma {:induction false} AfterBoth(w: World, s: seq<Step>, t: seq<Step>)
    requires w.redundancy > 0
    ensures After(w, s + t) == After(After(w, s), t)
    decreases |t|
  {
    hide Next;
    if t == [] {
      assert s + t == s;
    } else {
      var n := |t| - 1;
      AfterBoth(w, s, t[..n]);
      assert (s + t)[..|s + t| - 1] == s + t[..n];
    }
  }

  lemma AfterOne(w: World, step: Step)
    requires w.redundancy > 0
    ensures After(w, [step]) == Next(w, step)
  {
    hide Next;
    assert [step][..0] == [];
    assert After(w, []) == w;
  }

  function Repeated(step: Step, n: nat): seq<Step> {
    seq(n, _ => step)
  }

  function Starts(t: Template, n: nat): (s: seq<Step>)
    ensures |s| == n && forall o :: 0 <= o < n ==> s[o] == StartPod(o, t)
  {
    seq(n, o requires 0 <= o < n => StartPod(o, t))
  }

  /** The pods below `n`, those that were missing with the current template. */
  function Filled(pods: map<int, Template>, t: Template, n: nat): map<int, Template> {
    map o | o in pods.Keys + ClusterStatus.Range(n) :: if o in pods then pods[o] else t
  }

  lemma FilledOneMore(pods: map<int, Template>, t: Template, n: nat)
    requires n > 0
    ensures var before := Filled(pods, t, n - 1);
            Filled(pods, t, n) == if n - 1 in before then before else before[n - 1 := t]
  {
    var smaller, larger := ClusterStatus.Range(n - 1), ClusterStatus.Range(n);
    assert larger == smaller + {n - 1};
    hide ClusterStatus.Range;
    var before, after := Filled(pods, t, n - 1), Filled(pods, t, n);
    assert after.Keys == before.Keys + {n - 1};
  }

  lemma {:induction false} PodsStart(w: World, n: nat)
    requires w.redundancy > 0 && w.data.Some? && n <= w.data.value.replicas
    ensures var t := w.data.value.template; After(w, Starts(t, n)) == w.(pods := Filled(w.pods, t, n))
  {
    hide After, Filled;
    var t := w.data.value.template;
    if n == 0 {
      assert Filled(w.pods, t, 0) == w.pods by { NothingFilled(w.pods, t); }
      assert After(w, []) == w by { NoSteps(w); }
    } else {
      PodsStart(w, n - 1);
      assert Starts(t, n)[..n - 1] == Starts(t, n - 1);
      FilledOneMore(w.pods, t, n);
      LastStep(w, Starts(t, n));
    }
  }

  lemma NothingFilled(pods: map<int, Template>, t: Template)
    ensures Filled(pods, t, 0) == pods
  {
  }

  lemma NoSteps(w: World)
    requires w.redundancy > 0
    ensures After(w, []) == w
  {
  }

  lemma {:induction false} ServersStop(w: World, n: nat)
    requires w.redundancy > 0 && n <= w.servers
    ensures After(w, Repeated(StopServer, n)) == w.(servers := w.servers - n)
  {
    if n > 0 {
      ServersStop(w, n - 1);
      assert Repeated(StopServer, n)[..n - 1] == Repeated(StopServer, n - 1);
    }
  }

  lemma {:induction false} ServersStart(w: World, n: nat)
    requires w.redundancy > 0 && w.mysqld.Some? && w.servers + n <= w.ceiling
    ensures After(w, Repeated(StartServer, n)) == w.(servers := w.servers + n)
  {
    if n > 0 {
      ServersStart(w, n - 1);
      assert Repeated(StartServer, n)[..n - 1] == Repeated(StartServer, n - 1);
    }
  }

  lemma FilledPods(w: World)
    requires Orderly(w) && w.data.Some?
    ensures var s := w.data.value;
            var pods := Filled(w.pods, s.template, s.replicas);
            && pods.Keys == ClusterStatus.Range(s.replicas) && |pods| == s.replicas
            && forall o :: o in pods ==> pods[o] == s.template || (o in w.pods && pods[o] == w.pods[o])
  {
    hide Stale, ClusterStatus.Range;
    var s := w.data.value;
    var pods := Filled(w.pods, s.template, s.replicas);
    ClusterStatus.RangeIs(s.replicas);
    forall o ensures o in pods.Keys <==> o in ClusterStatus.Range(s.replicas) {
      assert o in w.pods ==> 0 <= o < s.replicas;
    }
    assert |pods| == |pods.Keys|;
  }

  /** Every data node pod runs, and the status of the data nodes says so. */
  lemma DataCatchUp(w: World) returns (env: seq<Step>)
    requires w.redundancy > 0 && Orderly(w)
    ensures forall s :: s in env ==> Environment(s) && !s.StopPod?
    ensures var v := After(w, env);
            && v == w.(pods := v.pods, data := v.data) && PodsFollow(w, v)
            && (v.data.Some? ==>
                  var s := v.data.value;
                  && v.pods.Keys == ClusterStatus.Range(s.replicas)
                  && s.status == Status(s.generation, s.replicas, s.replicas, |UpToDate(v.pods, s.template)|, 0, s.template))
  {
    hide After, UpToDate, Stale, ClusterStatus.Range, Filled, Starts;
    if w.data.None? {
      env := [];
      NoSteps(w);
    } else {
      var s := w.data.value;
      var starts := Starts(s.template, s.replicas);
      PodsStart(w, s.replicas);
      ClusterStatus.RangeIs(s.replicas);
      var v := w.(pods := Filled(w.pods, s.template, s.replicas));
      FilledPods(w);
      env := starts + [ObserveData(s.replicas)];
      AfterBoth(w, starts, [ObserveData(s.replicas)]);
      AfterOne(v, ObserveData(s.replicas));
    }
  }

  function Complete(s: StatefulSet): Status {
    Status(s.generation, s.replicas, s.replicas, s.replicas, s.replicas, s.template)
  }

  lemma MgmdCatchUp(w: World) returns (env: seq<Step>)
    requires w.redundancy > 0
    ensures forall s :: s in env ==> Environment(s) && !s.StopPod?
    ensures var v := After(w, env); v == w.(mgmd := v.mgmd) && (v.mgmd.Some? ==> UpdateComplete(v.mgmd.value))
  {
    hide After;
    if w.mgmd.None? {
      env := [];
      NoSteps(w);
    } else {
      env := [ObserveMgmd(Complete(w.mgmd.value))];
      AfterOne(w, env[0]);
    }
  }

  /** All servers stop, and as many as configured start. */
  lemma MysqldCatchUp(w: World) returns (env: seq<Step>)
    requires w.redundancy > 0
    ensures forall s :: s in env ==> Environment(s) && !s.StopPod?
    ensures var v := After(w, env);
            && v == w.(mysqld := v.mysqld, servers := v.servers, ceiling := v.ceiling)
            && (v.mysqld.Some? ==> UpdateComplete(v.mysqld.value))
  {
    hide After;
    if w.mysqld.None? {
      env := [];
      NoSteps(w);
    } else {
      var s := w.mysqld.value;
      var down, up := Repeated(StopServer, w.servers), Repeated(StartServer, s.replicas);
      var idle, busy := ObserveMysqld(Status(s.generation, 0, 0, 0, 0, s.template)), ObserveMysqld(Complete(s));
      ServersStop(w, w.servers);
      var w1 := w.(servers := 0);
      AfterOne(w1, idle);
      var w2 := Next(w1, idle);
      ServersStart(w2, s.replicas);
      var w3 := w2.(servers := s.replicas);
      AfterOne(w3, busy);
      AfterBoth(w, down, [idle]);
      AfterBoth(w, down + [idle], up);
      AfterBoth(w, down + [idle] + up, [busy]);
      env := down + [idle] + up + [busy];
    }
  }

  /** After any sync the controllers can catch up. */
  lemma CatchUp(v: World) returns (env: seq<Step>)
    requires v.redundancy > 0 && Orderly(v)
    ensures forall s :: s in env ==> Environment(s) && !s.StopPod?
    ensures Quiet(After(v, env)) && PodsFollow(v, After(v, env))
  {
    hide After, Orderly, UpdateComplete, UpToDate, ClusterStatus.Range, Environment;
    var e1 := DataCatchUp(v);
    var v1 := After(v, e1);
    var e2 := MgmdCatchUp(v1);
    var v2 := After(v1, e2);
    var e3 := MysqldCatchUp(v2);
    env := e1 + e2 + e3;
    AfterBoth(v, e1, e2);
    AfterBoth(v, e1 + e2, e3);
  }

  // ----- rounds

  /** The configurations are rewritten only when they have to be. */
  predicate KeepsConfigs(round: Round) {
    round.answers.keepsConfig && round.answers.keepsCnf
  }

  /** Nobody but the operator removes a pod. */
  predicate Undisturbed(round: Round) {
    forall s :: s in round.environment ==> !s.StopPod?
  }

  lemma GoodRoundExists(w: World) returns (round: Round)
    requires Mended(w) && w.redundancy > 0
    ensures GoodRound(w, round) && KeepsConfigs(round) && Undisturbed(round)
  {
    hide Mended, Friendly, After, Quiet, Orderly, PodsFollow, SyncHandler, Environment, Measure, Stale;
    MendedMeans(w);
    var a := FriendlyAnswer(w);
    HandlerForward(w, a);
    NextKeepsRedundancy(w, SyncStep(a));
    var env := CatchUp(SyncHandler(w, a));
    round := Round(a, env);
  }

  lemma {:induction false} GoodRoundsExist(w: World, n: nat) returns (rounds: seq<Round>)
    requires Mended(w) && w.redundancy > 0
    ensures |rounds| == n && GoodRounds(w, rounds) && forall r :: r in rounds ==> KeepsConfigs(r) && Undisturbed(r)
    decreases n
  {
    hide Mended, GoodRound, AfterRound, Measure, InEffect, KeepsConfigs, Undisturbed;
    rounds := [];
    if n > 0 {
      var round := GoodRoundExists(w);
      RoundProgresses(w, round);
      var rest := GoodRoundsExist(AfterRound(w, round), n - 1);
      rounds := [round] + rest;
      assert rounds[1..] == rest;
    }
  }

  /** Every admitted specification can be put into effect: some rounds do, and 3n + 13 good ones always do. */
  lemma CanTakeEffect(w: World) returns (rounds: seq<Round>)
    requires Mended(w) && w.redundancy > 0
    ensures GoodRounds(w, rounds) && TakesEffect(w, rounds) && forall r :: r in rounds ==> KeepsConfigs(r) && Undisturbed(r)
  {
    hide Mended, GoodRounds, TakesEffect, KeepsConfigs, Undisturbed;
    rounds := GoodRoundsExist(w, 3 * w.ndb.spec.numData + 13);
    UpdateCompletes(w, rounds);
  }

  // ----- runs

  lemma AttentiveBoth(w: World, s: seq<Step>, t: seq<Step>)
    requires w.redundancy > 0 && AttentiveRun(w, s) && AttentiveRun(After(w, s), t)
    ensures AttentiveRun(w, s + t)
  {
    hide After, Attentive;
    forall i | 0 <= i < |s + t| ensures Attentive(After(w, (s + t)[..i]), (s + t)[i]) {
      if i < |s| {
        assert (s + t)[..i] == s[..i];
      } else {
        assert (s + t)[..i] == s + t[..i - |s|];
        AfterBoth(w, s, t[..i - |s|]);
      }
    }
  }

  lemma EnvironmentIsAttentive(w: World, steps: seq<Step>)
    requires w.redundancy > 0 && forall s :: s in steps ==> Environment(s)
    ensures AttentiveRun(w, steps)
  {
    hide After;
    forall i | 0 <= i < |steps| ensures Attentive(After(w, steps[..i]), steps[i]) {
      assert Environment(steps[i]);
    }
  }

  lemma RoundIsAttentive(w: World, round: Round)
    requires w.redundancy > 0 && Quiet(w) && GoodRound(w, round)
    ensures var steps := [SyncStep(round.answers)] + round.environment;
            AttentiveRun(w, steps) && After(w, steps) == AfterRound(w, round)
  {
    hide SyncHandler, Quiet, Informed, GroupsAll, Rollout.Covers, PodsFollow;
    var first := [SyncStep(round.answers)];
    FriendlyGroupsAll(w, round.answers);
    assert first[..0] == [];
    AfterOne(w, first[0]);
    EnvironmentIsAttentive(After(w, first), round.environment);
    AttentiveBoth(w, first, round.environment);
    AfterBoth(w, first, round.environment);
  }

  /** Good rounds in which the specification takes effect are, up to then, the steps of a run. */
  lemma {:induction false} RoundsRun(w: World, rounds: seq<Round>) returns (steps: seq<Step>, n: nat)
    requires Tidy(w) && w.redundancy > 0 && GoodRounds(w, rounds) && TakesEffect(w, rounds)
    ensures AttentiveRun(w, steps) && Tidy(After(w, steps)) && InEffect(After(w, steps))
    ensures After(w, steps).ndb.spec == w.ndb.spec
    ensures NoCallFailsIn(steps)
    ensures n <= |rounds| && GoodRounds(w, rounds[..n]) && After(w, steps) == AfterRounds(w, rounds[..n])
    decreases |rounds|
  {
    hide Calm, GroupsInStep, Quiet, Orderly, GoodRound, AfterRound, InEffect, AttentiveRun, After, Measure;
    steps, n := [SyncStep(rounds[0].answers)] + rounds[0].environment, 1;
    TidyRoundProgresses(w, rounds[0]);
    RoundIsAttentive(w, rounds[0]);
    RoundFailsNowhere(w, rounds[0]);
    RoundKeepsSpec(w, rounds[0]);
    var next := AfterRound(w, rounds[0]);
    if InEffect(next) {
      assert rounds[..1] == [rounds[0]];
      OneRound(w, rounds[0]);
    } else {
      var rest, m := RoundsRun(next, rounds[1..]);
      AttentiveBoth(w, steps, rest);
      AfterBoth(w, steps, rest);
      steps, n := steps + rest, m + 1;
      assert rounds[..n][1..] == rounds[1..][..m];
    }
  }

  lemma RoundFailsNowhere(w: World, round: Round)
    requires w.redundancy > 0 && GoodRound(w, round)
    ensures NoCallFailsIn([SyncStep(round.answers)] + round.environment)
  {
    hide AfterRound, Quiet, PodsFollow;
    EnvironmentFailsNowhere(round.environment);
  }

  lemma EnvironmentFailsNowhere(steps: seq<Step>)
    requires forall s :: s in steps ==> Environment(s)
    ensures NoCallFailsIn(steps)
  {
    forall s | s in steps ensures NoCallFails(s) {
      assert Environment(s);
    }
  }

  lemma OneRound(w: World, round: Round)
    requires w.redundancy > 0 && GoodRound(w, round)
    ensures GoodRounds(w, [round]) && AfterRounds(w, [round]) == AfterRound(w, round)
  {
    hide GoodRound, AfterRound;
    assert [round][1..] == [];
    assert GoodRounds(AfterRound(w, round), []);
  }

  lemma RoundKeepsSpec(w: World, round: Round)
    requires Tidy(w) && w.redundancy > 0 && GoodRound(w, round)
    ensures AfterRound(w, round).ndb.spec == w.ndb.spec && AfterRound(w, round).ndb.generation == w.ndb.generation
  {
    hide Calm, GroupsInStep, Quiet, Orderly, RunFrom, After, PodsFollow, Informed, Rollout.Covers;
    RunKeepsRedundancy(0, Start(w), round.answers);
    FriendlyGroupsAll(w, round.answers);
    StepIsCalm(w, SyncStep(round.answers));
    StepKeepsGroups(w, SyncStep(round.answers));
    EnvironmentSteps(SyncHandler(w, round.answers), round.environment);
  }

  /** Every specification that admission lets through takes effect in some run. */
  lemma EveryUpdateHappens(w: World, spec: Spec) returns (steps: seq<Step>)
    requires Tidy(w) && w.redundancy > 0 && AdmittedUpdate(w, spec) && Renderable(spec)
    ensures steps != [] && steps[0] == SpecStep(spec) && AttentiveRun(w, steps)
    ensures NoCallFailsIn(steps)
    ensures var v := After(w, steps); Tidy(v) && InEffect(v) && v.ndb.spec == spec
  {
    hide Tidy, Mended, GoodRounds, TakesEffect, InEffect, After, AttentiveRun;
    var update := SpecStep(spec);
    UpdateStaysTidy(w, spec);
    AfterOne(w, update);
    var v := Next(w, update);
    TidyIsMended(v);
    var rounds := CanTakeEffect(v);
    var rest, n := RoundsRun(v, rounds);
    assert AttentiveRun(w, [update]) by { UpdateIsAttentive(w, update); }
    AttentiveBoth(w, [update], rest);
    AfterBoth(w, [update], rest);
    steps := [update] + rest;
  }

  lemma UpdateIsAttentive(w: World, step: Step)
    requires w.redundancy > 0 && step.SpecStep?
    ensures AttentiveRun(w, [step])
  {
    hide After;
  }

  /** In effect means that nothing is left to do: the next sync reports success. */
  lemma InEffectSucceeds(w: World, a: Answers)
    requires Tidy(w) && InEffect(w) && Friendly(w, a)
    ensures Sync(w, a).0.success
  {
    hide RunFrom, Calm, GroupsInStep, Quiet, Orderly, Informed, Rollout.Covers, Stale, CalmStage, Mended;
    NothingLeft(w);
    TidyIsMended(w);
    HandlerForward(w, a);
  }

  lemma NothingLeft(w: World)
    requires Tidy(w) && InEffect(w)
    ensures Measure(w) == 0
  {
    hide GroupsInStep, Quiet, Orderly, Stale, Sound, UpdateComplete, ServersSound;
  }

  /**
   Runs with a change of the secret in the middle and success at the end exist for all valid
   specifications: the theorem about the two rollouts is about something.
   */
  lemma SecretChangeHappens(spec: Spec, spec': Spec, redundancy: nat) returns (steps: seq<Step>, i: nat, a: Answers)
    requires redundancy > 1 && ValidSpec(spec, redundancy) && ValidSpec(spec', redundancy)
    requires spec.numData <= spec'.numData && spec.pool <= spec'.pool && spec.tde != spec'.tde
    requires Renderable(spec) && Renderable(spec')
    ensures i <= |steps| && AttentiveRun(Initial(spec, redundancy), steps) && NoCallFailsIn(steps)
    ensures var w := After(Initial(spec, redundancy), steps);
            Attentive(w, SyncStep(a)) && Sync(w, a).0.success && w.ndb.spec == spec'
    ensures var then' := After(Initial(spec, redundancy), steps[..i]);
            then'.cm.Some? && then'.cm.value.spec.tde == spec.tde
  {
    hide Tidy, Mended, GoodRounds, TakesEffect, After, AttentiveRun, ValidSpec, Friendly, Stale;
    var w0 := Initial(spec, redundancy);
    StartsTidy(spec, redundancy);
    TidyIsMended(w0);
    var rounds := CanTakeEffect(w0);
    var before, n := RoundsRun(w0, rounds);
    var w1 := After(w0, before);
    var later := EveryUpdateHappens(w1, spec');
    AttentiveBoth(w0, before, later);
    AfterBoth(w0, before, later);
    steps, i := before + later, |before|;
    assert steps[..i] == before;
    TidyIsMended(After(w0, steps));
    MendedMeans(After(w0, steps));
    a := FriendlyAnswer(After(w0, steps));
    InEffectSucceeds(After(w0, steps), a);
    FriendlyIsAttentive(After(w0, steps), a);
  }

  lemma FriendlyIsAttentive(w: World, a: Answers)
    requires Tidy(w) && Friendly(w, a)
    ensures Attentive(w, SyncStep(a))
  {
    hide Calm, GroupsInStep, Quiet, Orderly, Informed, GroupsAll, Rollout.Covers, Stale;
    FriendlyGroupsAll(w, a);
  }
}
