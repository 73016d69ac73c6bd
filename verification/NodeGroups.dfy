/**
 Induction of new data nodes into node groups (pkg/controllers/ndbmtd_statefulset_controller.go),
 with requests that fail midway and are retried.
 */
module NodeGroups {
  import opened Arithmetic
  import opened ClusterStatus

  /** How a request to create a node group can end; the reply may get lost after the group was made. */
  datatype Outcome = Created | Refused | Unacknowledged

  /** The node groups made so far, and the data nodes still without one. */
  datatype Grouped = Grouped(groups: seq<seq<int>>, rest: set<int>)

  function ToSet(s: seq<int>): set<int> {
    set x | x in s
  }

  // ----- sorted lists and chunks

  lemma {:induction false} Sortable(ids: set<int>)
    ensures exists s :: ListsSorted(s, ids)
    decreases ids
  {
    if ids == {} {
      assert ListsSorted([], ids);
    } else {
      var greatest := Greatest(ids);
      Sortable(ids - {greatest});
      var s :| ListsSorted(s, ids - {greatest});
      AppendGreatest(s, ids - {greatest}, greatest);
      assert ids - {greatest} + {greatest} == ids;
    }
  }

  lemma {:induction false} Greatest(ids: set<int>) returns (x: int)
    requires ids != {}
    ensures x in ids && forall y :: y in ids ==> y <= x
    decreases ids
  {
    HasElement(ids);
    x :| x in ids;
    assert forall z :: z in ids ==> z == x || z in ids - {x};
    if ids != {x} {
      var y := Greatest(ids - {x});
      if y > x {
        x := y;
      }
    }
  }

  /** The ids in ascending order. */
  ghost function Sorted(ids: set<int>): (s: seq<int>)
    ensures ListsSorted(s, ids)
  {
    Sortable(ids);
    var s :| ListsSorted(s, ids);
    s
  }

  /** Successive runs of `r` ids; a shorter rest is left over. */
  function Chunks(s: seq<int>, r: nat): seq<seq<int>>
    requires r > 0
    decreases |s|
  {
    if |s| < r then [] else [s[..r]] + Chunks(s[r..], r)
  }

  function Leftover(s: seq<int>, r: nat): seq<int>
    requires r > 0
    decreases |s|
  {
    if |s| < r then s else Leftover(s[r..], r)
  }

  function Flatten(groups: seq<seq<int>>): seq<int> {
    if groups == [] then [] else groups[0] + Flatten(groups[1..])
  }

  /** Nothing is lost or reordered by cutting a list up. */
  lemma {:induction false} ChunksFlatten(s: seq<int>, r: nat)
    requires r > 0
    ensures Flatten(Chunks(s, r)) + Leftover(s, r) == s
    ensures forall g :: g in Chunks(s, r) ==> |g| == r
    decreases |s|
  {
    hide Leftover, Chunks;
    ChunksUnfold(s, r);
    if |s| >= r {
      ChunksFlatten(s[r..], r);
      var f, l := Flatten(Chunks(s[r..], r)), Leftover(s[r..], r);
      assert Chunks(s, r)[1..] == Chunks(s[r..], r);
      assert Flatten(Chunks(s, r)) == s[..r] + f;
      assert s[..r] + f + l == s[..r] + (f + l);
    }
  }

  lemma ChunksUnfold(s: seq<int>, r: nat)
    requires r > 0
    ensures |s| < r ==> Chunks(s, r) == [] && Leftover(s, r) == s
    ensures |s| >= r ==> Chunks(s, r) == [s[..r]] + Chunks(s[r..], r) && Leftover(s, r) == Leftover(s[r..], r)
  {
  }

  lemma {:induction false} ChunksCount(s: seq<int>, r: nat, q: nat)
    requires r > 0 && |s| == q * r
    ensures |Chunks(s, r)| == q && Leftover(s, r) == []
    decreases q
  {
    if q > 0 {
      assert q * r == (q - 1) * r + r;
      assert 0 <= (q - 1) * r;
      ChunksCount(s[r..], r, q - 1);
    }
  }

  // ----- one attempt

  /** How many of `n` requests make a group, and whether the attempt succeeds. */
  function Made(n: nat, outcomes: seq<Outcome>): (r: (nat, bool))
    ensures r.0 <= n && (r.1 ==> r.0 == n)
    decreases n
  {
    if n == 0 then (0, true)
    else
      match (if outcomes == [] then Created else outcomes[0])
      case Refused => (0, false)
      case Unacknowledged => (1, false)
      case Created => var (m, ok) := Made(n - 1, if outcomes == [] then [] else outcomes[1..]); (m + 1, ok)
  }

  /** The state after an attempt during which the given nodes are connected. */
  ghost function After(st: Grouped, connected: set<int>, r: nat, outcomes: seq<Outcome>): (Grouped, bool)
    requires r > 0
  {
    var chunks := Chunks(Sorted(st.rest * connected), r);
    var (made, ok) := Made(|chunks|, outcomes);
    (Grouped(st.groups + chunks[..made], st.rest - ToSet(Flatten(chunks[..made]))), ok)
  }

  class ManagementServer {
    var groups: seq<seq<int>>
    var rest: set<int>
    var pending: seq<Outcome>  // of the requests to come

    ghost function State(): Grouped
      reads this
    {
      Grouped(groups, rest)
    }

    constructor (newNodes: set<int>)
      ensures State() == Grouped([], newNodes)
    {
      groups, rest, pending := [], newNodes, [];
    }

    method CreateNodeGroup(nodeIds: seq<int>) returns (ok: bool)
      modifies this
      ensures var outcome := if old(pending) == [] then Created else old(pending)[0];
              && pending == (if old(pending) == [] then [] else old(pending)[1..])
              && State() == (if outcome == Refused then old(State())
                             else Grouped(old(groups) + [nodeIds], old(rest) - ToSet(nodeIds)))
              && (ok <==> outcome == Created)
    {
      var outcome := if pending == [] then Created else pending[0];
      pending := if pending == [] then [] else pending[1..];
      if outcome != Refused {
        groups := groups + [nodeIds];
        rest := rest - ToSet(nodeIds);
      }
      ok := outcome == Created;
    }

    /** createNodeGroups: accumulates node ids and makes a group whenever there are enough. */
    method CreateNodeGroups(connected: set<int>, redundancyLevel: nat) returns (ok: bool)
      requires redundancyLevel > 0
      modifies this
      ensures (State(), ok) == After(old(State()), connected, redundancyLevel, old(pending))
    {
      hide Made, Chunks, Flatten, ToSet, Midway, MadeSoFar, ListsSorted;
      ghost var before, outcomes := State(), pending;
      var newDataNodeIds := SortIds(rest * connected);
      SortedListIsUnique(newDataNodeIds, Sorted(rest * connected), rest * connected);
      ghost var chunks := Chunks(newDataNodeIds, redundancyLevel);
      var nodeIds: seq<int> := [];
      ghost var made := 0;
      var i := 0;
      Beginning(before, newDataNodeIds, redundancyLevel, outcomes);
      while i < |newDataNodeIds|
        invariant 0 <= i <= |newDataNodeIds| && made <= |chunks|
        invariant |nodeIds| < redundancyLevel && |nodeIds| <= i
        invariant nodeIds == newDataNodeIds[i - |nodeIds|..i]
        invariant Chunks(newDataNodeIds[i - |nodeIds|..], redundancyLevel) == chunks[made..]
        invariant State() == Midway(before, chunks, made)
        invariant MadeSoFar(|chunks|, outcomes, made, pending)
      {
        nodeIds := nodeIds + [newDataNodeIds[i]];
        i := i + 1;
        if |nodeIds| == redundancyLevel {
          assert nodeIds == newDataNodeIds[i - redundancyLevel..i];
          NextChunk(newDataNodeIds, i - redundancyLevel, redundancyLevel, chunks, made);
          MidwayStep(before, chunks, made);
          MadeStep(|chunks|, outcomes, made, pending);
          var created := CreateNodeGroup(nodeIds);
          if !created {
            FailedMidway(before, chunks, outcomes);
            return false;
          }
          made := made + 1;
          nodeIds := [];
        }
      }
      assert newDataNodeIds[i - |nodeIds|..] == nodeIds;
      End(before, nodeIds, redundancyLevel, chunks, outcomes, made, pending);
      ok := true;
    }
  }

  /** The state once the first `made` chunks have become groups. */
  ghost function Midway(before: Grouped, chunks: seq<seq<int>>, made: nat): Grouped
    requires made <= |chunks|
  {
    Grouped(before.groups + chunks[..made], before.rest - ToSet(Flatten(chunks[..made])))
  }

  ghost predicate MadeSoFar(n: nat, outcomes: seq<Outcome>, made: nat, pending: seq<Outcome>)
    requires made <= n
  {
    Made(n, outcomes) == (made + Made(n - made, pending).0, Made(n - made, pending).1)
  }

  lemma Beginning(before: Grouped, s: seq<int>, r: nat, outcomes: seq<Outcome>)
    requires r > 0
    ensures s[0..0] == [] && Chunks(s[0..], r) == Chunks(s, r)[0..]
    ensures Midway(before, Chunks(s, r), 0) == before
    ensures MadeSoFar(|Chunks(s, r)|, outcomes, 0, outcomes)
  {
    hide Chunks;
    StartsWhole(s, r);
    assert before.groups + [] == before.groups;
  }

  lemma MidwayStep(before: Grouped, chunks: seq<seq<int>>, made: nat)
    requires made < |chunks|
    ensures Midway(before, chunks, made + 1)
         == var st := Midway(before, chunks, made);
            Grouped(st.groups + [chunks[made]], st.rest - ToSet(chunks[made]))
  {
    hide Flatten, ToSet;
    FlattenSnoc(chunks, made);
    assert before.groups + chunks[..made] + [chunks[made]] == before.groups + chunks[..made + 1];
  }

  lemma MadeStep(n: nat, outcomes: seq<Outcome>, made: nat, pending: seq<Outcome>)
    requires made < n && MadeSoFar(n, outcomes, made, pending)
    ensures match (if pending == [] then Created else pending[0])
            case Created => MadeSoFar(n, outcomes, made + 1, if pending == [] then [] else pending[1..])
            case Refused => Made(n, outcomes) == (made, false)
            case Unacknowledged => Made(n, outcomes) == (made + 1, false)
  {
  }

  lemma FailedMidway(before: Grouped, chunks: seq<seq<int>>, outcomes: seq<Outcome>)
    ensures var m := Made(|chunks|, outcomes).0;
            Midway(before, chunks, m)
            == Grouped(before.groups + chunks[..m], before.rest - ToSet(Flatten(chunks[..m])))
  {
  }

  lemma End(before: Grouped, s: seq<int>, r: nat, chunks: seq<seq<int>>, outcomes: seq<Outcome>, made: nat, pending: seq<Outcome>)
    requires r > 0 && |s| < r && made <= |chunks| && Chunks(s, r) == chunks[made..]
    requires MadeSoFar(|chunks|, outcomes, made, pending)
    ensures made == |chunks| && Made(|chunks|, outcomes) == (made, true)
    ensures Midway(before, chunks, made)
         == Grouped(before.groups + chunks[..made], before.rest - ToSet(Flatten(chunks[..made])))
  {
    assert |chunks[made..]| == 0;
  }

  lemma StartsWhole(s: seq<int>, r: nat)
    requires r > 0
    ensures s[0..] == s && Chunks(s, r)[0..] == Chunks(s, r) && Chunks(s, r)[..0] == [] && ToSet(Flatten([])) == {}
    ensures forall rest: set<int> :: rest - ToSet(Flatten([])) == rest
  {
    assert ToSet([]) == {};
  }

  lemma NextChunk(s: seq<int>, start: nat, r: nat, chunks: seq<seq<int>>, made: nat)
    requires r > 0 && start + r <= |s| && made <= |chunks| && Chunks(s[start..], r) == chunks[made..]
    ensures made < |chunks| && chunks[made] == s[start..start + r]
    ensures Chunks(s[start + r..], r) == chunks[made + 1..]
  {
    var t := s[start..];
    assert t[..r] == s[start..start + r] && t[r..] == s[start + r..];
    assert chunks[made..][0] == t[..r];
    assert chunks[made..][1..] == chunks[made + 1..];
  }

  lemma {:induction false} FlattenConcat(a: seq<seq<int>>, b: seq<seq<int>>)
    ensures Flatten(a + b) == Flatten(a) + Flatten(b)
    decreases |a|
  {
    if a == [] {
      assert a + b == b;
    } else {
      assert (a + b)[1..] == a[1..] + b;
      FlattenConcat(a[1..], b);
    }
  }

  lemma FlattenSnoc(chunks: seq<seq<int>>, made: nat)
    requires made < |chunks|
    ensures chunks[..made + 1] == chunks[..made] + [chunks[made]]
    ensures ToSet(Flatten(chunks[..made + 1])) == ToSet(Flatten(chunks[..made])) + ToSet(chunks[made])
    ensures forall rest: set<int> :: rest - ToSet(Flatten(chunks[..made])) - ToSet(chunks[made]) == rest - ToSet(Flatten(chunks[..made + 1]))
  {
    FlattenConcat(chunks[..made], [chunks[made]]);
    assert chunks[..made + 1] == chunks[..made] + [chunks[made]];
    assert Flatten([chunks[made]]) == chunks[made];
  }

  // ----- any number of attempts

  datatype Attempt = Attempt(connected: set<int>, outcomes: seq<Outcome>)

  ghost function Attempts(st: Grouped, r: nat, attempts: seq<Attempt>): Grouped
    requires r > 0
    decreases |attempts|
  {
    if attempts == [] then st
    else
      var n := |attempts| - 1;
      After(Attempts(st, r, attempts[..n]), attempts[n].connected, r, attempts[n].outcomes).0
  }

  /** The last attempt reported success. */
  ghost predicate LastSucceeds(st: Grouped, r: nat, attempts: seq<Attempt>)
    requires r > 0 && attempts != []
  {
    var n := |attempts| - 1;
    After(Attempts(st, r, attempts[..n]), attempts[n].connected, r, attempts[n].outcomes).1
  }

  ghost predicate NoRepeats(s: seq<int>) {
    forall i, j :: 0 <= i < j < |s| ==> s[i] != s[j]
  }

  /** Every group has `r` members, no node is in two groups, and groups and rest make up the new nodes. */
  ghost predicate Partitioned(st: Grouped, newNodes: set<int>, r: nat) {
    && (forall g :: g in st.groups ==> |g| == r)
    && NoRepeats(Flatten(st.groups))
    && ToSet(Flatten(st.groups)) !! st.rest
    && ToSet(Flatten(st.groups)) + st.rest == newNodes
  }

  lemma ChunksOf(ids: set<int>, r: nat)
    requires r > 0
    ensures var chunks := Chunks(Sorted(ids), r);
            && (forall g :: g in chunks ==> |g| == r)
            && NoRepeats(Flatten(chunks)) && ToSet(Flatten(chunks)) <= ids
  {
    var s := Sorted(ids);
    ChunksFlatten(s, r);
    var f := Flatten(Chunks(s, r));
    forall i | 0 <= i < |f| ensures f[i] == s[i] {
      assert (f + Leftover(s, r))[i] == f[i];
    }
  }

  lemma PrefixOfChunks(chunks: seq<seq<int>>, made: nat)
    requires made <= |chunks| && NoRepeats(Flatten(chunks))
    ensures NoRepeats(Flatten(chunks[..made])) && ToSet(Flatten(chunks[..made])) <= ToSet(Flatten(chunks))
  {
    FlattenConcat(chunks[..made], chunks[made..]);
    assert chunks == chunks[..made] + chunks[made..];
    var a, b := Flatten(chunks[..made]), Flatten(chunks[made..]);
    assert forall i :: 0 <= i < |a| ==> a[i] == (a + b)[i];
  }

  lemma JoinWithoutRepeats(f: seq<int>, g: seq<int>)
    requires NoRepeats(f) && NoRepeats(g) && ToSet(f) !! ToSet(g)
    ensures NoRepeats(f + g) && ToSet(f + g) == ToSet(f) + ToSet(g)
  {
    forall i, j | 0 <= i < j < |f + g| ensures (f + g)[i] != (f + g)[j] {
      if i < |f| <= j {
        assert f[i] in ToSet(f) && g[j - |f|] in ToSet(g);
      }
    }
  }

  lemma GroupsJoin(st: Grouped, newNodes: set<int>, r: nat, more: seq<seq<int>>)
    requires Partitioned(st, newNodes, r) && NoRepeats(Flatten(more)) && ToSet(Flatten(more)) <= st.rest
    requires forall g :: g in more ==> |g| == r
    ensures Partitioned(Grouped(st.groups + more, st.rest - ToSet(Flatten(more))), newNodes, r)
  {
    hide Flatten, ToSet, NoRepeats;
    FlattenConcat(st.groups, more);
    JoinWithoutRepeats(Flatten(st.groups), Flatten(more));
  }

  lemma PartitionStays(st: Grouped, newNodes: set<int>, connected: set<int>, r: nat, outcomes: seq<Outcome>)
    requires r > 0 && Partitioned(st, newNodes, r)
    ensures Partitioned(After(st, connected, r, outcomes).0, newNodes, r)
  {
    hide Partitioned, NoRepeats, ToSet, Flatten, Chunks, Sorted;
    var chunks := Chunks(Sorted(st.rest * connected), r);
    var made := Made(|chunks|, outcomes).0;
    ChunksOf(st.rest * connected, r);
    PrefixOfChunks(chunks, made);
    GroupsJoin(st, newNodes, r, chunks[..made]);
  }

  /** Whatever fails and whichever nodes are connected, the groups stay disjoint, full, and part of the new nodes. */
  lemma {:induction false} GroupsStayDisjoint(newNodes: set<int>, r: nat, attempts: seq<Attempt>)
    requires r > 0
    ensures Partitioned(Attempts(Grouped([], newNodes), r, attempts), newNodes, r)
    decreases |attempts|
  {
    hide Partitioned, After;
    if attempts == [] {
      StartsPartitioned(newNodes, r);
    } else {
      var n := |attempts| - 1;
      GroupsStayDisjoint(newNodes, r, attempts[..n]);
      PartitionStays(Attempts(Grouped([], newNodes), r, attempts[..n]), newNodes, attempts[n].connected, r, attempts[n].outcomes);
    }
  }

  lemma StartsPartitioned(newNodes: set<int>, r: nat)
    ensures Partitioned(Grouped([], newNodes), newNodes, r)
  {
    assert ToSet(Flatten([])) == {};
  }

  lemma {:induction false} LeftoverSize(s: seq<int>, r: nat)
    requires r > 0
    ensures |Leftover(s, r)| == |s| % r
    decreases |s|
  {
    if |s| >= r {
      LeftoverSize(s[r..], r);
      ModuloStep(|s|, r);
    }
  }

  lemma SortedSize(ids: set<int>)
    ensures |Sorted(ids)| == |ids|
  {
    ListSize(Sorted(ids), ids);
  }

  lemma {:induction false} ListSize(s: seq<int>, ids: set<int>)
    requires ListsSorted(s, ids)
    ensures |s| == |ids|
    decreases |s|
  {
    if s == [] {
      assert ids == {} by {
        forall x ensures x !in ids {
        }
      }
    } else {
      var n := |s| - 1;
      DropLast(s, ids);
      assert s[n] in s && s[n] in ids;
      ListSize(s[..n], ids - {s[n]});
    }
  }

  /**
   An attempt that reports success leaves no new node out exactly if all of them were
   connected at the time and their number is a multiple of the redundancy level.
   */
  lemma SuccessLeavesNone(st: Grouped, connected: set<int>, r: nat, outcomes: seq<Outcome>)
    requires r > 0 && After(st, connected, r, outcomes).1
    ensures After(st, connected, r, outcomes).0.rest == {} <==> st.rest <= connected && |st.rest| % r == 0
  {
    var ids := st.rest * connected;
    var s := Sorted(ids);
    var chunks := Chunks(s, r);
    ChunksFlatten(s, r);
    LeftoverSize(s, r);
    SortedSize(ids);
    assert chunks[..|chunks|] == chunks;
    var f, l := Flatten(chunks), Leftover(s, r);
    var rest := st.rest - ToSet(f);
    if rest == {} {
      NothingLeft(s, f, l, ids, st.rest, connected);
    }
    if st.rest <= connected && |st.rest| % r == 0 {
      assert ids == st.rest;
      assert l == [] && f == s;
      forall x ensures x !in rest {
        assert x in s <==> x in ids;
      }
      assert rest == {};
    }
  }

  lemma NothingLeft(s: seq<int>, f: seq<int>, l: seq<int>, ids: set<int>, all: set<int>, connected: set<int>)
    requires ListsSorted(s, ids) && f + l == s && ids == all * connected && all - ToSet(f) == {}
    ensures all <= connected && l == [] && ids == all
  {
    forall x | x in all ensures x in ids {
      assert x !in all - ToSet(f);
      assert x in f;
      var i :| 0 <= i < |f| && f[i] == x;
      assert s[i] == x;
    }
    assert ids == all;
    if l != [] {
      var x := s[|f|];
      assert x in s && x in all;
      forall i | 0 <= i < |f| ensures f[i] != x {
        assert s[i] == f[i];
      }
      StillThere(x, all, f);
    }
  }

  lemma StillThere(x: int, all: set<int>, f: seq<int>)
    requires x in all && forall i :: 0 <= i < |f| ==> f[i] != x
    ensures all - ToSet(f) != {}
  {
    assert x in all - ToSet(f);
  }

  // ----- retries while every new node is connected

  ghost predicate AllConnected(newNodes: set<int>, attempts: seq<Attempt>) {
    forall i :: 0 <= i < |attempts| ==> newNodes <= attempts[i].connected
  }

  /** The state once the first `made` of the chunks exist. */
  ghost function Prefix(newNodes: set<int>, r: nat, made: nat): Grouped
    requires r > 0 && made <= |Chunks(Sorted(newNodes), r)|
  {
    var s := Sorted(newNodes);
    Grouped(Chunks(s, r)[..made], newNodes - ToSet(Flatten(Chunks(s, r)[..made])))
  }

  lemma {:induction false} DropChunks(s: seq<int>, r: nat, made: nat)
    requires r > 0 && made <= |Chunks(s, r)|
    ensures |Flatten(Chunks(s, r)[..made])| <= |s|
    ensures Flatten(Chunks(s, r)[..made]) == s[..|Flatten(Chunks(s, r)[..made])|]
    ensures Chunks(s[|Flatten(Chunks(s, r)[..made])|..], r) == Chunks(s, r)[made..]
    decreases made
  {
    if made > 0 {
      var rest := s[r..];
      DropChunks(rest, r, made - 1);
      var k := |Flatten(Chunks(rest, r)[..made - 1])|;
      var cs := Chunks(s, r);
      assert cs[..made] == [s[..r]] + Chunks(rest, r)[..made - 1];
      assert cs[..made][1..] == Chunks(rest, r)[..made - 1];
      assert Flatten(cs[..made]) == s[..r] + rest[..k];
      assert s[..r] + rest[..k] == s[..r + k];
      assert rest[k..] == s[r + k..];
      assert cs[made..] == Chunks(rest, r)[made - 1..];
    } else {
      assert s[0..] == s;
    }
  }

  /** What is left of a sorted list is the sorted list of what is left. */
  lemma RestIsSorted(ids: set<int>, k: nat)
    requires k <= |Sorted(ids)|
    ensures Sorted(ids - ToSet(Sorted(ids)[..k])) == Sorted(ids)[k..]
  {
    var s := Sorted(ids);
    var rest := ids - ToSet(s[..k]);
    forall x ensures x in s[k..] <==> x in rest {
      if x in s[k..] {
        var i :| 0 <= i < |s[k..]| && s[k..][i] == x;
        assert s[k + i] == x && x in s;
      }
      if x in rest {
        forall j | 0 <= j < k ensures s[j] != x {
          assert s[..k][j] == s[j];
        }
        var i :| 0 <= i < |s| && s[i] == x;
        assert s[k..][i - k] == x;
      }
    }
    assert ListsSorted(s[k..], rest);
    SortedListIsUnique(s[k..], Sorted(rest), rest);
  }

  lemma RetryContinues(newNodes: set<int>, r: nat, made: nat, connected: set<int>, outcomes: seq<Outcome>) returns (made': nat)
    requires r > 0 && made <= |Chunks(Sorted(newNodes), r)| && newNodes <= connected
    ensures made <= made' <= |Chunks(Sorted(newNodes), r)|
    ensures After(Prefix(newNodes, r, made), connected, r, outcomes).0 == Prefix(newNodes, r, made')
    ensures After(Prefix(newNodes, r, made), connected, r, outcomes).1 ==> made' == |Chunks(Sorted(newNodes), r)|
  {
    var s := Sorted(newNodes);
    var chunks := Chunks(s, r);
    DropChunks(s, r, made);
    var k := |Flatten(chunks[..made])|;
    RestIsSorted(newNodes, k);
    var st := Prefix(newNodes, r, made);
    assert st.rest * connected == st.rest;
    assert Chunks(Sorted(st.rest), r) == chunks[made..];
    var n := Made(|chunks[made..]|, outcomes).0;
    made' := made + n;
    assert chunks[..made'] == chunks[..made] + chunks[made..][..n];
    FlattenConcat(chunks[..made], chunks[made..][..n]);
    var a, b := Flatten(chunks[..made]), Flatten(chunks[made..][..n]);
    assert ToSet(a + b) == ToSet(a) + ToSet(b);
    assert newNodes - ToSet(a) - ToSet(b) == newNodes - ToSet(a + b);
  }

  /** However often requests fail, what exists is always the same division, up to some point. */
  lemma {:induction false} RetriesAgree(newNodes: set<int>, r: nat, attempts: seq<Attempt>) returns (made: nat)
    requires r > 0 && AllConnected(newNodes, attempts)
    ensures made <= |Chunks(Sorted(newNodes), r)|
    ensures Attempts(Grouped([], newNodes), r, attempts) == Prefix(newNodes, r, made)
    ensures attempts != [] && LastSucceeds(Grouped([], newNodes), r, attempts) ==> made == |Chunks(Sorted(newNodes), r)|
    decreases |attempts|
  {
    hide After, Prefix, Sorted, Chunks;
    if attempts == [] {
      made := 0;
      NothingMade(newNodes, r);
    } else {
      var n := |attempts| - 1;
      var m := RetriesAgree(newNodes, r, attempts[..n]);
      made := RetryContinues(newNodes, r, m, attempts[n].connected, attempts[n].outcomes);
    }
  }

  lemma NothingMade(newNodes: set<int>, r: nat)
    requires r > 0
    ensures Prefix(newNodes, r, 0) == Grouped([], newNodes)
  {
    StartsWhole(Sorted(newNodes), r);
  }

  lemma {:induction false} FullGroups(groups: seq<seq<int>>, r: nat)
    requires forall g :: g in groups ==> |g| == r
    ensures |Flatten(groups)| == |groups| * r
    decreases |groups|
  {
    if groups != [] {
      assert groups[0] in groups;
      FullGroups(groups[1..], r);
      assert |groups| * r == r + (|groups| - 1) * r;
    }
  }

  lemma {:induction false} DistinctSize(s: seq<int>)
    requires NoRepeats(s)
    ensures |ToSet(s)| == |s|
    decreases |s|
  {
    if s == [] {
      assert ToSet(s) == {};
    } else {
      DistinctSize(s[1..]);
      assert ToSet(s) == {s[0]} + ToSet(s[1..]);
      assert s[0] !in ToSet(s[1..]);
    }
  }

  /** Groups of nodes make up a multiple of the redundancy level, so the rest does too. */
  lemma SameRemainder(total: nat, groups: nat, rest: nat, r: nat)
    requires r > 0 && total == groups * r + rest
    ensures total % r == rest % r
  {
    var p := rest / r;
    assert rest == p * r + rest % r;
    assert (groups + p) * r == groups * r + p * r;
    QuotientOf(groups + p, r, rest % r);
  }

  lemma PartitionCounts(st: Grouped, newNodes: set<int>, r: nat)
    requires r > 0 && Partitioned(st, newNodes, r)
    ensures |newNodes| == |st.groups| * r + |st.rest| && |newNodes| % r == |st.rest| % r
  {
    hide Flatten, ToSet, NoRepeats;
    FullGroups(st.groups, r);
    DistinctSize(Flatten(st.groups));
    var grouped := ToSet(Flatten(st.groups));
    assert |grouped + st.rest| == |grouped| + |st.rest|;
    SameRemainder(|newNodes|, |st.groups|, |st.rest|, r);
  }

  /**
   Old and new counts are multiples of the redundancy level, so is the number of added nodes.
   After any number of failed attempts, success with all new nodes connected means: exactly
   added/redundancy full and disjoint groups, with no node left out. If the nodes were connected
   all along, the groups are those of the nodes in ascending order, however often requests failed.
   */
  lemma RetriesComplete(newNodes: set<int>, r: nat, old': nat, new': nat, attempts: seq<Attempt>)
    requires r > 0 && attempts != [] && newNodes <= attempts[|attempts| - 1].connected
    requires old' % r == 0 && new' % r == 0 && old' <= new' && |newNodes| == new' - old'
    requires LastSucceeds(Grouped([], newNodes), r, attempts)
    ensures var st := Attempts(Grouped([], newNodes), r, attempts);
            && st.rest == {} && Partitioned(st, newNodes, r)
            && |st.groups| == (new' - old') / r
            && (AllConnected(newNodes, attempts) ==>
                  st.groups == Chunks(Sorted(newNodes), r) && Flatten(st.groups) == Sorted(newNodes))
  {
    hide Partitioned, AllConnected, After, Chunks;
    var n := |attempts| - 1;
    var before := Attempts(Grouped([], newNodes), r, attempts[..n]);
    GroupsStayDisjoint(newNodes, r, attempts[..n]);
    GroupsStayDisjoint(newNodes, r, attempts);
    MultiplesDiffer(old', new', r);
    var k := (new' - old') / r;
    QuotientOf(k, r, 0);
    PartitionCounts(before, newNodes, r);
    RestIsNew(before, newNodes, r);
    SuccessLeavesNone(before, attempts[n].connected, r, attempts[n].outcomes);
    var st := Attempts(Grouped([], newNodes), r, attempts);
    PartitionCounts(st, newNodes, r);
    QuotientOf(|st.groups|, r, 0);
    if AllConnected(newNodes, attempts) {
      RetriesInOrder(newNodes, r, attempts, k);
    }
  }

  lemma RestIsNew(st: Grouped, newNodes: set<int>, r: nat)
    requires Partitioned(st, newNodes, r)
    ensures st.rest <= newNodes
  {
    hide NoRepeats, Flatten, ToSet;
  }

  lemma RetriesInOrder(newNodes: set<int>, r: nat, attempts: seq<Attempt>, count: nat)
    requires r > 0 && AllConnected(newNodes, attempts) && attempts != []
    requires |newNodes| == count * r && LastSucceeds(Grouped([], newNodes), r, attempts)
    ensures var st := Attempts(Grouped([], newNodes), r, attempts);
            st.groups == Chunks(Sorted(newNodes), r) && Flatten(st.groups) == Sorted(newNodes)
  {
    hide Attempts, LastSucceeds, AllConnected;
    var made := RetriesAgree(newNodes, r, attempts);
    var s := Sorted(newNodes);
    var chunks := Chunks(s, r);
    SortedSize(newNodes);
    ChunksCount(s, r, count);
    ChunksFlatten(s, r);
    assert chunks[..made] == chunks;
    assert Flatten(chunks) + [] == Flatten(chunks);
  }
}
