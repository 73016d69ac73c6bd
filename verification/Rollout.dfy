/**
 The rolling restart of data nodes (pkg/controllers/sync_context.go): one node of every node
 group at a time. Safety holds for arbitrarily stale reads of pods and for failing deletions;
 progress for fresh reads.
 */
module Rollout {
  import opened Wrappers
  import opened ClusterStatus
  import opened NodeGroups
  import opened StatefulSets

  datatype Outcome = Continue | Finish | Error | Panic

  // ----- what one pass does

  /** The pod of a data node, by ordinal. */
  function OrdinalOf(nodeId: int, numOfManagementNodes: int): int {
    nodeId - 1 - numOfManagementNodes
  }

  /** The node ids whose pods were deleted, and whether all calls succeeded. */
  datatype Wave = Wave(deleted: seq<int>, ok: bool)

  /** What the operator sees and can do: cached pod revisions, pods that cannot be deleted. */
  datatype View = View(cache: map<int, Template>, desired: Template, refusing: set<int>, numOfManagementNodes: int)

  function EnsureNodes(nodeIds: seq<int>, v: View): Wave {
    if nodeIds == [] then Wave([], true)
    else
      var pod := OrdinalOf(nodeIds[0], v.numOfManagementNodes);
      if pod !in v.cache then Wave([], false)
      else if v.cache[pod] == v.desired then EnsureNodes(nodeIds[1..], v)
      else if pod in v.refusing then Wave([], false)
      else var rest := EnsureNodes(nodeIds[1..], v); Wave([nodeIds[0]] + rest.deleted, rest.ok)
  }

  predicate HasColumn(groups: seq<seq<int>>, i: nat) {
    forall j :: 0 <= j < |groups| ==> i < |groups[j]|
  }

  function Column(groups: seq<seq<int>>, i: nat): (c: seq<int>)
    requires HasColumn(groups, i)
    ensures |c| == |groups|
  {
    seq(|groups|, j requires 0 <= j < |groups| => groups[j][i])
  }

  function EnsureFrom(groups: seq<seq<int>>, i: nat, redundancy: nat, v: View): (seq<int>, Outcome)
    decreases redundancy - i
  {
    if i >= redundancy then ([], Continue)
    else if !HasColumn(groups, i) then ([], Panic)
    else
      var w := EnsureNodes(Column(groups, i), v);
      if !w.ok then (w.deleted, Error)
      else if w.deleted != [] then (w.deleted, Finish)
      else EnsureFrom(groups, i + 1, redundancy, v)
  }

  /** The groups as GetNodesGroupedByNodegroup returns them. */
  ghost function GroupsOf(cs: Cluster): (groups: seq<seq<int>>)
    ensures Grouping(groups, cs)
  {
    seq(|GroupIds(cs)|, i => Sorted(Members(cs, i)))
  }

  lemma GroupingIsUnique(groups: seq<seq<int>>, cs: Cluster)
    requires Grouping(groups, cs)
    ensures groups == GroupsOf(cs)
  {
    forall i | 0 <= i < |groups| ensures groups[i] == GroupsOf(cs)[i] {
      SortedListIsUnique(groups[i], GroupsOf(cs)[i], Members(cs, i));
    }
  }

  ghost predicate AnyMissing(cs: Cluster) {
    exists id :: id in cs && Missing(cs[id])
  }

  ghost function EnsurePods(complete: bool, status: Option<Cluster>, redundancy: nat, v: View): (seq<int>, Outcome) {
    if complete then ([], Continue)
    else if status.None? || AnyMissing(status.value) then ([], Error)
    else EnsureFrom(GroupsOf(status.value), 0, redundancy, v)
  }

  class PodClient {
    const view: View
    var deleted: seq<int>

    constructor (view: View)
      ensures this.view == view && deleted == []
    {
      this.view := view;
      deleted := [];
    }

    /** None on an error, else whether the pod was deleted. */
    method EnsurePodVersion(nodeId: int) returns (podDeleted: Option<bool>)
      modifies this`deleted
      ensures var pod := OrdinalOf(nodeId, view.numOfManagementNodes);
              var outdated := pod in view.cache && view.cache[pod] != view.desired;
              && (podDeleted.None? <==> pod !in view.cache || (outdated && pod in view.refusing))
              && (podDeleted.Some? ==> podDeleted.value == outdated)
              && deleted == old(deleted) + (if podDeleted == Some(true) then [nodeId] else [])
    {
      var pod := OrdinalOf(nodeId, view.numOfManagementNodes);
      if pod !in view.cache {
        return None;
      }
      if view.cache[pod] == view.desired {
        return Some(false);
      }
      if pod in view.refusing {
        return None;
      }
      deleted := deleted + [nodeId];
      podDeleted := Some(true);
    }

    method EnsureColumn(candidateNodeIds: seq<int>) returns (ok: bool, nodesBeingUpdated: seq<int>)
      modifies this`deleted
      ensures Wave(nodesBeingUpdated, ok) == EnsureNodes(candidateNodeIds, view)
      ensures deleted == old(deleted) + nodesBeingUpdated
    {
      nodesBeingUpdated := [];
      ghost var all := EnsureNodes(candidateNodeIds, view);
      var k := 0;
      while k < |candidateNodeIds|
        invariant 0 <= k <= |candidateNodeIds|
        invariant deleted == old(deleted) + nodesBeingUpdated
        invariant var rest := EnsureNodes(candidateNodeIds[k..], view);
                  all == Wave(nodesBeingUpdated + rest.deleted, rest.ok)
      {
        assert candidateNodeIds[k..][1..] == candidateNodeIds[k + 1..];
        var podDeleted := EnsurePodVersion(candidateNodeIds[k]);
        if podDeleted.None? {
          return false, nodesBeingUpdated;
        }
        if podDeleted.value {
          nodesBeingUpdated := nodesBeingUpdated + [candidateNodeIds[k]];
        }
        k := k + 1;
      }
      ok := true;
    }

    method EnsureDataNodePodVersion(sfset: StatefulSet, status: Option<Cluster>, redundancyLevel: nat) returns (outcome: Outcome)
      modifies this`deleted
      ensures var (gone, o) := EnsurePods(UpdateComplete(sfset), status, redundancyLevel, view);
              outcome == o && deleted == old(deleted) + gone
    {
      if UpdateComplete(sfset) {
        return Continue;
      }
      if status.None? {
        return Error;
      }
      var groups := GetNodesGroupedByNodegroup(status.value);
      if groups.None? {
        return Error;
      }
      GroupingIsUnique(groups.value, status.value);
      outcome := EnsureColumns(groups.value, redundancyLevel);
    }

    method EnsureColumns(groups: seq<seq<int>>, redundancyLevel: nat) returns (outcome: Outcome)
      modifies this`deleted
      ensures var (gone, o) := EnsureFrom(groups, 0, redundancyLevel, view);
              outcome == o && deleted == old(deleted) + gone
    {
      var i := 0;
      while i < redundancyLevel
        invariant 0 <= i <= redundancyLevel
        invariant deleted == old(deleted)
        invariant EnsureFrom(groups, 0, redundancyLevel, view) == EnsureFrom(groups, i, redundancyLevel, view)
      {
        var candidateNodeIds: seq<int> := [];
        var j := 0;
        while j < |groups|
          invariant 0 <= j <= |groups|
          invariant forall k :: 0 <= k < j ==> i < |groups[k]|
          invariant candidateNodeIds == seq(j, k requires 0 <= k < j => groups[k][i])
        {
          if i >= |groups[j]| {
            return Panic;
          }
          candidateNodeIds := candidateNodeIds + [groups[j][i]];
          j := j + 1;
        }
        assert candidateNodeIds == Column(groups, i);
        var ok, nodesBeingUpdated := EnsureColumn(candidateNodeIds);
        if !ok {
          return Error;
        }
        if nodesBeingUpdated != [] {
          return Finish;
        }
        i := i + 1;
      }
      outcome := Continue;
    }
  }

  // ----- safety

  lemma {:induction false} DeletedAreCandidates(nodeIds: seq<int>, v: View)
    ensures forall x :: x in EnsureNodes(nodeIds, v).deleted ==> x in nodeIds
    decreases |nodeIds|
  {
    if nodeIds != [] {
      DeletedAreCandidates(nodeIds[1..], v);
    }
  }

  /** All deletions of one pass come from one column of the grouping. */
  lemma {:induction false} OneColumn(groups: seq<seq<int>>, i: nat, redundancy: nat, v: View) returns (c: nat)
    ensures var gone := EnsureFrom(groups, i, redundancy, v).0;
            gone != [] ==> i <= c < redundancy && HasColumn(groups, c) && forall x :: x in gone ==> x in Column(groups, c)
    decreases redundancy - i
  {
    c := i;
    if i < redundancy && HasColumn(groups, i) {
      DeletedAreCandidates(Column(groups, i), v);
      var w := EnsureNodes(Column(groups, i), v);
      if w.ok && w.deleted == [] {
        c := OneColumn(groups, i + 1, redundancy, v);
      }
    }
  }

  /**
   Whatever the cached pods look like and whichever deletions fail: if a pass deletes pods at
   all, every inducted data node was connected when it started, and it takes at most one node
   out of each node group.
   */
  lemma AtMostOnePerGroup(complete: bool, cs: Cluster, redundancy: nat, v: View, x: int, y: int)
    requires var gone := EnsurePods(complete, Some(cs), redundancy, v).0; x in gone && y in gone
    ensures !AnyMissing(cs)
    ensures x in cs && y in cs && Inducted(cs[x]) && Inducted(cs[y])
    ensures cs[x].nodeGroup == cs[y].nodeGroup ==> x == y
  {
    var groups := GroupsOf(cs);
    var c := OneColumn(groups, 0, redundancy, v);
    var column := Column(groups, c);
    var j :| 0 <= j < |column| && column[j] == x;
    var k :| 0 <= k < |column| && column[k] == y;
    assert groups[j][c] == x && groups[k][c] == y;
    assert x in groups[j] && y in groups[k];
    assert x in Members(cs, j) && y in Members(cs, k);
  }

  lemma TwoMembers(ids: set<int>) returns (a: int, b: int)
    requires |ids| >= 2
    ensures a in ids && b in ids && a != b
  {
    HasElement(ids);
    a :| a in ids;
    var rest := ids - {a};
    assert |rest| >= 1;
    HasElement(rest);
    b :| b in rest;
  }

  /** With redundancy, every node group keeps a node that was connected and is not restarted. */
  lemma GroupsStayAlive(complete: bool, cs: Cluster, redundancy: nat, v: View, ng: int) returns (survivor: int)
    requires |Members(cs, ng)| >= 2
    ensures survivor in Members(cs, ng) && cs[survivor].isConnected
    ensures survivor !in EnsurePods(complete, Some(cs), redundancy, v).0
  {
    var gone := EnsurePods(complete, Some(cs), redundancy, v).0;
    var a, b := TwoMembers(Members(cs, ng));
    if a in gone && b in gone {
      AtMostOnePerGroup(complete, cs, redundancy, v, a, b);
    }
    survivor := if a in gone then b else a;
  }

  // ----- the index out of range

  /** Every node runs the wanted revision. */
  predicate Passes(nodeIds: seq<int>, v: View) {
    forall x :: x in nodeIds ==>
      var pod := OrdinalOf(x, v.numOfManagementNodes); pod in v.cache && v.cache[pod] == v.desired
  }

  lemma {:induction false} PassesWithoutDeletion(nodeIds: seq<int>, v: View)
    ensures EnsureNodes(nodeIds, v) == Wave([], true) <==> Passes(nodeIds, v)
    decreases |nodeIds|
  {
    if nodeIds != [] {
      PassesWithoutDeletion(nodeIds[1..], v);
      assert forall x :: x in nodeIds <==> x == nodeIds[0] || x in nodeIds[1..];
    }
  }

  /** Column `c` is the first to have no node in some group or a node that is not clean, and it is the former. */
  ghost predicate RunsOut(groups: seq<seq<int>>, i: nat, c: nat, v: View) {
    && i <= c && !HasColumn(groups, c)
    && forall b :: i <= b < c ==> HasColumn(groups, b) && Passes(Column(groups, b), v)
  }

  lemma {:induction false} PanicsFrom(groups: seq<seq<int>>, i: nat, redundancy: nat, v: View)
    ensures EnsureFrom(groups, i, redundancy, v).1 == Panic <==> exists c: nat :: c < redundancy && RunsOut(groups, i, c, v)
    decreases redundancy - i
  {
    hide EnsureNodes, Passes;
    if i < redundancy {
      if !HasColumn(groups, i) {
        assert RunsOut(groups, i, i, v);
      } else {
        PassesWithoutDeletion(Column(groups, i), v);
        PanicsFrom(groups, i + 1, redundancy, v);
        if c: nat :| c < redundancy && RunsOut(groups, i, c, v) {
          assert Passes(Column(groups, i), v);
          assert RunsOut(groups, i + 1, c, v);
        }
        var next := i + 1;
        if c: nat :| c < redundancy && RunsOut(groups, next, c, v) {
          if Passes(Column(groups, i), v) {
            assert RunsOut(groups, i, c, v);
          }
        }
      }
    }
  }

  /**
   A pass indexes a group out of range exactly if some group is too short for a column that is reached,
   and every column before it is clean.
   */
  lemma PanicsOnShortGroup(complete: bool, status: Option<Cluster>, redundancy: nat, v: View)
    ensures EnsurePods(complete, status, redundancy, v).1 == Panic
       <==> && !complete && status.Some? && !AnyMissing(status.value)
            && exists c: nat :: c < redundancy && RunsOut(GroupsOf(status.value), 0, c, v)
  {
    hide EnsureFrom, RunsOut;
    if status.Some? {
      PanicsFrom(GroupsOf(status.value), 0, redundancy, v);
    }
  }

  /** A gap in the group numbers is such a case, whatever the pods run. */
  lemma GapsPanic(cs: Cluster, redundancy: nat, v: View)
    requires redundancy > 0 && !AnyMissing(cs)
    requires !(forall ng :: ng in GroupIds(cs) <==> 0 <= ng < |GroupIds(cs)|)
    ensures EnsurePods(false, Some(cs), redundancy, v).1 == Panic
  {
    var groups := GroupsOf(cs);
    var k := |GroupIds(cs)|;
    RangeIs(k);
    if forall ng :: 0 <= ng < k ==> ng in GroupIds(cs) {
      assert Range(k) <= GroupIds(cs);
      SubsetSameSize(Range(k), GroupIds(cs));
    }
    var ng :| 0 <= ng < k && ng !in GroupIds(cs);
    NoSuchGroup(cs, ng);
    assert ListsSorted(groups[ng], Members(cs, ng));
    NothingListed(groups[ng], Members(cs, ng));
    assert !HasColumn(groups, 0);
    assert EnsureFrom(groups, 0, redundancy, v).1 == Panic;
  }

  // ----- progress

  /** Ordinals of pods that do not run the wanted revision. */
  function Outdated(pods: map<int, Template>, desired: Template): set<int> {
    set o | o in pods && pods[o] != desired
  }

  /** The deleted pods come back with the wanted revision. */
  function Restarted(pods: map<int, Template>, gone: set<int>, desired: Template): map<int, Template> {
    map o | o in pods :: if o in gone then desired else pods[o]
  }

  function Ordinals(nodeIds: seq<int>, m: int): set<int> {
    set k | 0 <= k < |nodeIds| :: OrdinalOf(nodeIds[k], m)
  }

  /** Full groups, in which every data pod appears. */
  ghost predicate Covers(groups: seq<seq<int>>, redundancy: nat, pods: map<int, Template>, m: int) {
    && (forall j :: 0 <= j < |groups| ==> |groups[j]| == redundancy)
    && (forall j, i :: 0 <= j < |groups| && 0 <= i < redundancy ==> OrdinalOf(groups[j][i], m) in pods)
    && (forall o :: o in pods ==> exists j, i :: 0 <= j < |groups| && 0 <= i < redundancy && OrdinalOf(groups[j][i], m) == o)
  }

  /** No deletion fails and the cache is fresh: a column is cleared entirely. */
  lemma {:induction false} ColumnCleared(nodeIds: seq<int>, v: View)
    requires v.refusing == {} && forall k :: 0 <= k < |nodeIds| ==> OrdinalOf(nodeIds[k], v.numOfManagementNodes) in v.cache
    ensures EnsureNodes(nodeIds, v).ok
    ensures Ordinals(EnsureNodes(nodeIds, v).deleted, v.numOfManagementNodes)
         == Ordinals(nodeIds, v.numOfManagementNodes) * Outdated(v.cache, v.desired)
    ensures EnsureNodes(nodeIds, v).deleted == [] <==>
              Ordinals(nodeIds, v.numOfManagementNodes) * Outdated(v.cache, v.desired) == {}
    decreases |nodeIds|
  {
    var m := v.numOfManagementNodes;
    if nodeIds != [] {
      var rest := nodeIds[1..];
      ColumnCleared(rest, v);
      OrdinalsCons(nodeIds[0], rest, m);
      assert nodeIds == [nodeIds[0]] + rest;
      OrdinalsCons(nodeIds[0], EnsureNodes(rest, v).deleted, m);
    }
  }

  lemma OrdinalsCons(x: int, rest: seq<int>, m: int)
    ensures Ordinals([x] + rest, m) == {OrdinalOf(x, m)} + Ordinals(rest, m)
  {
    var all := [x] + rest;
    forall o ensures o in Ordinals(all, m) <==> o in {OrdinalOf(x, m)} + Ordinals(rest, m) {
      if o in Ordinals(rest, m) {
        var k :| 0 <= k < |rest| && OrdinalOf(rest[k], m) == o;
        assert all[k + 1] == rest[k];
      }
      if o == OrdinalOf(x, m) {
        assert all[0] == x;
      }
    }
  }

  /** The pods in column `i`. */
  function ColumnPods(groups: seq<seq<int>>, i: nat, m: int): set<int>
    requires HasColumn(groups, i)
  {
    Ordinals(Column(groups, i), m)
  }

  /** Is nothing outdated in the columns below `i`? */
  ghost predicate CleanBelow(groups: seq<seq<int>>, redundancy: nat, i: nat, pods: map<int, Template>, desired: Template, m: int)
    requires i <= redundancy && forall j :: 0 <= j < |groups| ==> |groups[j]| == redundancy
  {
    forall j, c :: 0 <= j < |groups| && 0 <= c < i ==> OrdinalOf(groups[j][c], m) !in Outdated(pods, desired)
  }

  lemma ColumnPodsIn(groups: seq<seq<int>>, c: nat, m: int, o: int)
    requires HasColumn(groups, c)
    ensures o in ColumnPods(groups, c, m) <==> exists j :: 0 <= j < |groups| && OrdinalOf(groups[j][c], m) == o
  {
    var column := Column(groups, c);
    if j :| 0 <= j < |groups| && OrdinalOf(groups[j][c], m) == o {
      assert column[j] == groups[j][c];
    }
  }

  lemma NotInBoth(a: set<int>, b: set<int>, o: int)
    requires a * b == {} && o in a
    ensures o !in b
  {
    assert o !in a * b;
  }

  lemma OneMoreClean(groups: seq<seq<int>>, redundancy: nat, i: nat, pods: map<int, Template>, desired: Template, m: int)
    requires i < redundancy && HasColumn(groups, i) && forall j :: 0 <= j < |groups| ==> |groups[j]| == redundancy
    requires CleanBelow(groups, redundancy, i, pods, desired, m)
    requires ColumnPods(groups, i, m) * Outdated(pods, desired) == {}
    ensures CleanBelow(groups, redundancy, i + 1, pods, desired, m)
  {
    hide Outdated, ColumnPods;
    forall j | 0 <= j < |groups| ensures OrdinalOf(groups[j][i], m) !in Outdated(pods, desired) {
      var o := OrdinalOf(groups[j][i], m);
      ColumnPodsIn(groups, i, m, o);
      NotInBoth(ColumnPods(groups, i, m), Outdated(pods, desired), o);
    }
  }

  /** The pass deletes exactly what is outdated in the first column with anything outdated. */
  lemma {:induction false} FirstColumn(groups: seq<seq<int>>, i: nat, redundancy: nat, v: View) returns (c: nat)
    requires v.refusing == {} && Covers(groups, redundancy, v.cache, v.numOfManagementNodes) && i <= redundancy
    requires CleanBelow(groups, redundancy, i, v.cache, v.desired, v.numOfManagementNodes)
    ensures i <= c <= redundancy
    ensures CleanBelow(groups, redundancy, c, v.cache, v.desired, v.numOfManagementNodes)
    ensures var (gone, outcome) := EnsureFrom(groups, i, redundancy, v);
            if c == redundancy then gone == [] && outcome == Continue
            else && outcome == Finish && gone != [] && HasColumn(groups, c)
                 && Ordinals(gone, v.numOfManagementNodes)
                    == ColumnPods(groups, c, v.numOfManagementNodes) * Outdated(v.cache, v.desired)
    decreases redundancy - i
  {
    hide Outdated, Ordinals, EnsureNodes;
    c := i;
    if i < redundancy {
      var column := Column(groups, i);
      assert forall k :: 0 <= k < |column| ==> column[k] == groups[k][i];
      ColumnCleared(column, v);
      if EnsureNodes(column, v).deleted == [] {
        OneMoreClean(groups, redundancy, i, v.cache, v.desired, v.numOfManagementNodes);
        c := FirstColumn(groups, i + 1, redundancy, v);
      }
    }
  }

  lemma NothingOutdated(groups: seq<seq<int>>, redundancy: nat, pods: map<int, Template>, desired: Template, m: int)
    requires Covers(groups, redundancy, pods, m) && CleanBelow(groups, redundancy, redundancy, pods, desired, m)
    ensures Outdated(pods, desired) == {}
  {
    forall o ensures o !in Outdated(pods, desired) {
      if o in pods {
        var j, i :| 0 <= j < |groups| && 0 <= i < redundancy && OrdinalOf(groups[j][i], m) == o;
        assert OrdinalOf(groups[j][i], m) !in Outdated(pods, desired);
      }
    }
  }

  lemma RestartOutdated(pods: map<int, Template>, gone: set<int>, desired: Template)
    ensures Outdated(Restarted(pods, gone, desired), desired) == Outdated(pods, desired) - gone
    ensures Restarted(pods, gone, desired).Keys == pods.Keys
  {
  }

  lemma RestartCovers(groups: seq<seq<int>>, redundancy: nat, pods: map<int, Template>, gone: set<int>, desired: Template, m: int)
    requires Covers(groups, redundancy, pods, m)
    ensures Covers(groups, redundancy, Restarted(pods, gone, desired), m)
  {
    var after := Restarted(pods, gone, desired);
    assert forall o :: o in after <==> o in pods;
  }

  /** The pods after a pass and the restarts it causes. */
  function AfterWave(groups: seq<seq<int>>, redundancy: nat, pods: map<int, Template>, desired: Template, m: int): map<int, Template> {
    Restarted(pods, Ordinals(EnsureFrom(groups, 0, redundancy, View(pods, desired, {}, m)).0, m), desired)
  }

  function AfterWaves(groups: seq<seq<int>>, redundancy: nat, pods: map<int, Template>, desired: Template, m: int, n: nat): map<int, Template> {
    if n == 0 then pods else AfterWave(groups, redundancy, AfterWaves(groups, redundancy, pods, desired, m, n - 1), desired, m)
  }

  /** A pass over pods that are not all up to date makes strictly fewer of them outdated, and never says continue. */
  lemma WaveProgresses(groups: seq<seq<int>>, redundancy: nat, pods: map<int, Template>, desired: Template, m: int, clean: nat)
    requires Covers(groups, redundancy, pods, m) && clean <= redundancy
    requires CleanBelow(groups, redundancy, clean, pods, desired, m)
    ensures Covers(groups, redundancy, AfterWave(groups, redundancy, pods, desired, m), m)
    ensures clean < redundancy ==> CleanBelow(groups, redundancy, clean + 1, AfterWave(groups, redundancy, pods, desired, m), desired, m)
    ensures Outdated(AfterWave(groups, redundancy, pods, desired, m), desired) <= Outdated(pods, desired)
    ensures Outdated(pods, desired) != {} ==>
              && EnsureFrom(groups, 0, redundancy, View(pods, desired, {}, m)).1 == Finish
              && |Outdated(AfterWave(groups, redundancy, pods, desired, m), desired)| < |Outdated(pods, desired)|
  {
    hide EnsureFrom;
    var v := View(pods, desired, {}, m);
    var c := FirstColumn(groups, 0, redundancy, v);
    var gone := Ordinals(EnsureFrom(groups, 0, redundancy, v).0, m);
    RestartOutdated(pods, gone, desired);
    RestartCovers(groups, redundancy, pods, gone, desired, m);
    if c == redundancy {
      NothingOutdated(groups, redundancy, pods, desired, m);
    } else {
      GoneNotEmpty(EnsureFrom(groups, 0, redundancy, v).0, m);
      if clean < redundancy {
        ColumnIsClean(groups, redundancy, clean, c, pods, gone, desired, m);
      }
      Shrinks(Outdated(pods, desired), gone);
    }
  }

  lemma GoneNotEmpty(nodeIds: seq<int>, m: int)
    requires nodeIds != []
    ensures Ordinals(nodeIds, m) != {}
  {
    assert OrdinalOf(nodeIds[0], m) in Ordinals(nodeIds, m);
  }

  lemma Shrinks(all: set<int>, gone: set<int>)
    requires gone != {} && gone <= all
    ensures |all - gone| < |all|
  {
    assert all == (all - gone) + gone;
  }

  lemma ColumnIsClean(
    groups: seq<seq<int>>, redundancy: nat, clean: nat, c: nat, pods: map<int, Template>, gone: set<int>, desired: Template, m: int)
    requires (forall j :: 0 <= j < |groups| ==> |groups[j]| == redundancy) && clean < redundancy && c < redundancy
    requires CleanBelow(groups, redundancy, clean, pods, desired, m) && CleanBelow(groups, redundancy, c, pods, desired, m)
    requires gone == ColumnPods(groups, c, m) * Outdated(pods, desired) && gone != {}
    ensures clean <= c
    ensures CleanBelow(groups, redundancy, clean + 1, Restarted(pods, gone, desired), desired, m)
  {
    hide Outdated, ColumnPods, Restarted;
    HasElement(gone);
    var o :| o in gone;
    ColumnPodsIn(groups, c, m, o);
    RestartOutdated(pods, gone, desired);
    var after := Outdated(Restarted(pods, gone, desired), desired);
    forall j, k | 0 <= j < |groups| && 0 <= k < clean + 1 ensures OrdinalOf(groups[j][k], m) !in after {
      var x := OrdinalOf(groups[j][k], m);
      assert after == Outdated(pods, desired) - gone;
      if k == c {
        ColumnPodsIn(groups, c, m, x);
        assert x in ColumnPods(groups, c, m);
      } else if k < clean {
        assert x !in Outdated(pods, desired);
      } else {
        assert k < c && x !in Outdated(pods, desired);
      }
    }
  }

  lemma {:induction false} WavesClean(groups: seq<seq<int>>, redundancy: nat, pods: map<int, Template>, desired: Template, m: int, n: nat)
    requires Covers(groups, redundancy, pods, m) && n <= redundancy
    ensures Covers(groups, redundancy, AfterWaves(groups, redundancy, pods, desired, m, n), m)
    ensures CleanBelow(groups, redundancy, n, AfterWaves(groups, redundancy, pods, desired, m, n), desired, m)
    decreases n
  {
    hide AfterWave, Covers;
    if n > 0 {
      WavesClean(groups, redundancy, pods, desired, m, n - 1);
      WaveProgresses(groups, redundancy, AfterWaves(groups, redundancy, pods, desired, m, n - 1), desired, m, n - 1);
    }
  }

  /** As many passes as the redundancy level bring every data pod up to date. */
  lemma RedundancyBoundsWaves(groups: seq<seq<int>>, redundancy: nat, pods: map<int, Template>, desired: Template, m: int)
    requires Covers(groups, redundancy, pods, m)
    ensures Outdated(AfterWaves(groups, redundancy, pods, desired, m, redundancy), desired) == {}
  {
    WavesClean(groups, redundancy, pods, desired, m, redundancy);
    NothingOutdated(groups, redundancy, AfterWaves(groups, redundancy, pods, desired, m, redundancy), desired, m);
  }

  /** The counters of the StatefulSet are those of its pods. */
  ghost predicate CountersMatch(s: StatefulSet, pods: map<int, Template>, desired: Template) {
    && s.status.replicas == |pods| == s.replicas && s.status.ready == s.replicas
    && s.status.updated == |pods| - |Outdated(pods, desired)|
    && s.status.observed >= s.generation && s.onDelete
  }

  /** With matching counters the pass never falls through: either the update was complete, or pods are restarted. */
  lemma NeverFallsThrough(s: StatefulSet, cs: Cluster, redundancy: nat, pods: map<int, Template>, desired: Template, m: int)
    requires CountersMatch(s, pods, desired) && !AnyMissing(cs)
    requires Covers(GroupsOf(cs), redundancy, pods, m)
    ensures EnsurePods(UpdateComplete(s), Some(cs), redundancy, View(pods, desired, {}, m)).1
         == if UpdateComplete(s) then Continue else Finish
    ensures UpdateComplete(s) <==> Outdated(pods, desired) == {}
  {
    if !UpdateComplete(s) {
      WaveProgresses(GroupsOf(cs), redundancy, pods, desired, m, 0);
    }
  }

  // ----- what passing means

  lemma {:induction false} PassedNodes(nodeIds: seq<int>, v: View)
    requires EnsureNodes(nodeIds, v).ok && EnsureNodes(nodeIds, v).deleted == []
    ensures forall k :: 0 <= k < |nodeIds| ==>
              var o := OrdinalOf(nodeIds[k], v.numOfManagementNodes); o in v.cache && v.cache[o] == v.desired
    decreases |nodeIds|
  {
    if nodeIds != [] {
      PassedNodes(nodeIds[1..], v);
    }
  }

  /** A pass that continues has seen the wanted revision on every grouped node, and deletes nothing. */
  lemma {:induction false} ContinueMeansClean(groups: seq<seq<int>>, i: nat, redundancy: nat, v: View)
    requires EnsureFrom(groups, i, redundancy, v).1 == Continue
    ensures EnsureFrom(groups, i, redundancy, v).0 == []
    ensures forall j, c :: 0 <= j < |groups| && i <= c < redundancy && c < |groups[j]| ==>
              var o := OrdinalOf(groups[j][c], v.numOfManagementNodes); o in v.cache && v.cache[o] == v.desired
    decreases redundancy - i
  {
    if i < redundancy {
      var column := Column(groups, i);
      PassedNodes(column, v);
      ContinueMeansClean(groups, i + 1, redundancy, v);
      forall j, c | 0 <= j < |groups| && i <= c < redundancy && c < |groups[j]|
        ensures var o := OrdinalOf(groups[j][c], v.numOfManagementNodes); o in v.cache && v.cache[o] == v.desired
      {
        if c == i {
          assert column[j] == groups[j][c];
        }
      }
    }
  }
}
