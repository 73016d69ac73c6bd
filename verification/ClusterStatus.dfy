/**
 The status of the cluster as reported by the management server, and what the operator
 reads out of it (pkg/mgmapi/mgmapi.go, pkg/mgmapi/clusterstatus.go). Go ranges over maps in
 no particular order; the order is made explicit here.
 */
module ClusterStatus {
  import opened Wrappers
  import opened Text

  const MAX_NUMBER_OF_NODES := 256
  const NEW_DISCONNECTED := 65536
  const NEW_CONNECTED := -256

  datatype NodeType = NDB | API | MGM

  datatype NodeStatus = NodeStatus(nodeType: NodeType, isConnected: bool, nodeGroup: int, softwareVersion: string)

  /** Node statuses by node id. */
  type Cluster = map<int, NodeStatus>

  /** The zero value a node gets when it is first mentioned. */
  const UNKNOWN := NodeStatus(NDB, false, 0, "")

  // ----- reading a reply

  datatype Key = Key(nodeId: int, field: string)

  /** `node.<id>.<field>`, split at the first two dots, with an id in range. */
  function ParseKey(key: string): Option<Key> {
    var i := IndexOf(key, '.');
    if i == |key| || key[..i] != "node" then None
    else
      var rest := key[i + 1..];
      var j := IndexOf(rest, '.');
      if j == |rest| then None
      else
        match Atoi(rest[..j])
        case None => None
        case Some(nodeId) => if 1 <= nodeId < MAX_NUMBER_OF_NODES then Some(Key(nodeId, rest[j + 1..])) else None
  }

  function NodeKey(nodeId: nat, field: string): string {
    "node." + Itoa(nodeId) + "." + field
  }

  function Value(reply: map<string, string>, key: string): string {
    if key in reply then reply[key] else ""
  }

  function TypeFromTLA(tla: string): Option<NodeType> {
    match tla
    case "NDB" => Some(NDB)
    case "MGM" => Some(MGM)
    case "API" => Some(API)
    case _ => None
  }

  function MySQLVersionString(v: int): string {
    if v == 0 then "" else Itoa(v / 0x1_0000 % 0x100) + "." + Itoa(v / 0x100 % 0x100) + "." + Itoa(v % 0x100)
  }

  /** The node group of a data node: from the reply when it runs, else from its configuration. */
  function NodeGroupOf(reply: map<string, string>, config: map<int, int>, nodeId: nat, connected: bool): Option<int> {
    if connected then Atoi(Value(reply, NodeKey(nodeId, "node_group")))
    else if nodeId in config then Some(config[nodeId])
    else None
  }

  /** What a type line does to a node, together with the lines it looks up. */
  function WithType(ns: NodeStatus, reply: map<string, string>, config: map<int, int>, nodeId: nat, tla: string): Option<NodeStatus> {
    match TypeFromTLA(tla)
    case None => None
    case Some(nodeType) =>
      var status := Value(reply, NodeKey(nodeId, "status"));
      var connected := ns.isConnected || (if nodeType == NDB then status == "STARTED" else status == "CONNECTED");
      var typed := ns.(nodeType := nodeType, isConnected := connected);
      if nodeType != NDB then Some(typed)
      else
        match NodeGroupOf(reply, config, nodeId, connected)
        case None => None
        case Some(ng) => Some(typed.(nodeGroup := ng))
  }

  /** The statuses so far, and the nodes whose type is known. */
  datatype Progress = Progress(cs: Cluster, typed: set<int>)

  function Step(p: Progress, reply: map<string, string>, config: map<int, int>, key: string): Option<Progress> {
    match ParseKey(key)
    case None => None
    case Some(Key(nodeId, field)) =>
      var ns := if nodeId in p.cs then p.cs[nodeId] else UNKNOWN;
      if field == "type" then
        match WithType(ns, reply, config, nodeId, Value(reply, key))
        case None => None
        case Some(ns') => Some(Progress(p.cs[nodeId := ns'], p.typed + {nodeId}))
      else if field == "version" then
        match Atoi(Value(reply, key))
        case None => None
        case Some(v) => Some(p.(cs := p.cs[nodeId := ns.(softwareVersion := MySQLVersionString(v))]))
      else Some(p.(cs := p.cs[nodeId := ns]))
  }

  function Steps(reply: map<string, string>, config: map<int, int>, order: seq<string>): Option<Progress> {
    if order == [] then Some(Progress(map[], {}))
    else
      match Steps(reply, config, order[..|order| - 1])
      case None => None
      case Some(p) => Step(p, reply, config, order[|order| - 1])
  }

  function Lines(reply: map<string, string>): set<string> {
    reply.Keys - {"nodes"}
  }

  /** The order lists each of the keys once. */
  ghost predicate Enumerates(order: seq<string>, keys: set<string>) {
    && (forall k :: k in order <==> k in keys)
    && forall i, j :: 0 <= i < j < |order| ==> order[i] != order[j]
  }

  function DeclaredNodes(reply: map<string, string>): Option<int> {
    match Atoi(Value(reply, "nodes"))
    case None => None
    case Some(n) => if 1 <= n <= MAX_NUMBER_OF_NODES then Some(n) else None
  }

  /** The outcome when the lines of the reply come in the given order. */
  function StatusInOrder(reply: map<string, string>, config: map<int, int>, order: seq<string>): Option<Cluster> {
    if DeclaredNodes(reply).None? then None
    else
      match Steps(reply - {"nodes"}, config, order)
      case None => None
      case Some(p) => if |p.cs| == |p.typed| == DeclaredNodes(reply).value then Some(p.cs) else None
  }

  lemma {:induction false} FailureStays(reply: map<string, string>, config: map<int, int>, order: seq<string>, more: seq<string>)
    requires Steps(reply, config, order).None?
    ensures Steps(reply, config, order + more).None?
    decreases |more|
  {
    if more == [] {
      assert order + more == order;
    } else {
      var all, n := order + more, |more| - 1;
      assert all[..|all| - 1] == order + more[..n];
      FailureStays(reply, config, order, more[..n]);
    }
  }

  lemma {:induction false} CanEnumerate(keys: set<string>) returns (order: seq<string>)
    ensures Enumerates(order, keys)
    decreases keys
  {
    if keys == {} {
      order := [];
    } else {
      var k :| k in keys;
      var rest := CanEnumerate(keys - {k});
      order := [k] + rest;
    }
  }

  lemma EnumeratesMore(order: seq<string>, done: set<string>, key: string)
    requires Enumerates(order, done) && key !in done
    ensures Enumerates(order + [key], done + {key})
  {
  }

  lemma EnumeratesJoin(a: seq<string>, x: set<string>, b: seq<string>, y: set<string>)
    requires Enumerates(a, x) && Enumerates(b, y) && x !! y
    ensures Enumerates(a + b, x + y)
  {
    forall i, j | 0 <= i < j < |a + b| ensures (a + b)[i] != (a + b)[j] {
      if i < |a| <= j {
        assert a[i] in x && b[j - |a|] in y;
      }
    }
  }

  lemma StepsSnoc(reply: map<string, string>, config: map<int, int>, seen: seq<string>, key: string)
    ensures Steps(reply, config, seen + [key])
         == match Steps(reply, config, seen)
            case None => None
            case Some(p) => Step(p, reply, config, key)
  {
    hide Step;
    assert (seen + [key])[..|seen|] == seen;
  }

  lemma OneMore(reply: map<string, string>, config: map<int, int>, seen: seq<string>, done: set<string>, key: string)
    requires Enumerates(seen, done) && key !in done
    ensures Enumerates(seen + [key], done + {key})
    ensures Steps(reply, config, seen + [key])
         == match Steps(reply, config, seen)
            case None => None
            case Some(p) => Step(p, reply, config, key)
  {
    hide Step, Steps;
    EnumeratesMore(seen, done, key);
    StepsSnoc(reply, config, seen, key);
  }

  lemma Failed(reply: map<string, string>, config: map<int, int>, seen: seq<string>, done: set<string>, rest: set<string>)
    returns (order: seq<string>)
    requires Enumerates(seen, done) && done !! rest && Steps(reply, config, seen).None?
    ensures Enumerates(order, done + rest) && Steps(reply, config, order).None?
  {
    var more := CanEnumerate(rest);
    EnumeratesJoin(seen, done, more, rest);
    FailureStays(reply, config, seen, more);
    order := seen + more;
  }

  /** Runs through the lines in whatever order the map yields them; that order is the ghost result. */
  method ReadLines(lines: map<string, string>, config: map<int, int>) returns (r: Option<Progress>, ghost order: seq<string>)
    ensures Enumerates(order, lines.Keys) && r == Steps(lines, config, order)
  {
    hide Step, Enumerates, Steps;
    NoLines(lines, config);
    var p := Progress(map[], {});
    var keys := lines.Keys;
    order := [];
    while keys != {}
      invariant keys <= lines.Keys
      invariant Enumerates(order, lines.Keys - keys)
      invariant Steps(lines, config, order) == Some(p)
      decreases keys
    {
      var key :| key in keys;
      OneMore(lines, config, order, lines.Keys - keys, key);
      assert lines.Keys - keys + {key} == lines.Keys - (keys - {key});
      order := order + [key];
      keys := keys - {key};
      var next := ReadLine(p, lines, config, key);
      if next.None? {
        assert lines.Keys - keys + keys == lines.Keys;
        order := Failed(lines, config, order, lines.Keys - keys, keys);
        return None, order;
      }
      p := next.value;
    }
    assert lines.Keys - keys == lines.Keys;
    r := Some(p);
  }

  lemma NoLines(lines: map<string, string>, config: map<int, int>)
    ensures Enumerates([], lines.Keys - lines.Keys) && Steps(lines, config, []) == Some(Progress(map[], {}))
  {
  }

  method GetStatus(reply: map<string, string>, config: map<int, int>) returns (r: Option<Cluster>, ghost order: seq<string>)
    ensures Enumerates(order, Lines(reply))
    ensures r == StatusInOrder(reply, config, order)
  {
    hide Enumerates, Steps;
    var nodeCount := Atoi(Value(reply, "nodes"));
    if nodeCount.None? || nodeCount.value < 1 || nodeCount.value > MAX_NUMBER_OF_NODES {
      order := CanEnumerate(Lines(reply));
      return None, order;
    }
    var lines := reply - {"nodes"};
    assert lines.Keys == Lines(reply);
    var p;
    p, order := ReadLines(lines, config);
    if p.None? || |p.value.cs| != nodeCount.value || |p.value.typed| != nodeCount.value {
      return None, order;
    }
    r := Some(p.value.cs);
  }

  /** One pass of the loop: finds or makes the entry of the node and assigns its fields. */
  method ReadLine(p: Progress, reply: map<string, string>, config: map<int, int>, key: string) returns (next: Option<Progress>)
    ensures next == Step(p, reply, config, key)
  {
    hide MySQLVersionString;
    var parsed := ParseKey(key);
    if parsed.None? {
      return None;
    }
    var Key(nodeId, field) := parsed.value;
    var cs, typed := p.cs, p.typed;
    if nodeId !in cs {
      cs := cs[nodeId := UNKNOWN];
    }
    var ns := cs[nodeId];
    if field == "type" {
      var nodeType := TypeFromTLA(Value(reply, key));
      if nodeType.None? {
        return None;
      }
      ns := ns.(nodeType := nodeType.value);
      typed := typed + {nodeId};
      var status := Value(reply, NodeKey(nodeId, "status"));
      if (ns.nodeType == NDB && status == "STARTED") || (ns.nodeType != NDB && status == "CONNECTED") {
        ns := ns.(isConnected := true);
      }
      if ns.nodeType == NDB {
        if ns.isConnected {
          var ng := Atoi(Value(reply, NodeKey(nodeId, "node_group")));
          if ng.None? {
            return None;
          }
          ns := ns.(nodeGroup := ng.value);
        } else {
          if nodeId !in config {
            return None;
          }
          ns := ns.(nodeGroup := config[nodeId]);
        }
      }
    } else if field == "version" {
      var version := Atoi(Value(reply, key));
      if version.None? {
        return None;
      }
      ns := ns.(softwareVersion := MySQLVersionString(version.value));
    }
    assert cs[nodeId := ns] == p.cs[nodeId := ns];
    next := Some(Progress(cs[nodeId := ns], typed));
  }

  // ----- what a success guarantees, in any order

  function IdsOf(keys: set<string>): set<int> {
    set k | k in keys && ParseKey(k).Some? :: ParseKey(k).value.nodeId
  }

  function TypedIdsOf(keys: set<string>): set<int> {
    set k | k in keys && ParseKey(k).Some? && ParseKey(k).value.field == "type" :: ParseKey(k).value.nodeId
  }

  function KeysIn(order: seq<string>): set<string> {
    set k | k in order
  }

  lemma {:induction false} StepsCover(reply: map<string, string>, config: map<int, int>, order: seq<string>)
    requires Steps(reply, config, order).Some?
    ensures forall k :: k in order ==> ParseKey(k).Some?
    ensures Steps(reply, config, order).value.cs.Keys == IdsOf(KeysIn(order))
    ensures Steps(reply, config, order).value.typed == TypedIdsOf(KeysIn(order))
    decreases |order|
  {
    hide ParseKey, WithType;
    if order != [] {
      var n := |order| - 1;
      StepsCover(reply, config, order[..n]);
      var key := order[n];
      assert KeysIn(order) == KeysIn(order[..n]) + {key};
      assert ParseKey(key).Some?;
      assert IdsOf(KeysIn(order)) == IdsOf(KeysIn(order[..n])) + {ParseKey(key).value.nodeId};
    }
  }

  lemma ParsedIdInRange(key: string)
    requires ParseKey(key).Some?
    ensures 1 <= ParseKey(key).value.nodeId < MAX_NUMBER_OF_NODES
  {
  }

  lemma SubsetSameSize(a: set<int>, b: set<int>)
    requires a <= b && |a| == |b|
    ensures a == b
  {
    assert b == a + (b - a);
  }

  /** Whatever the order and however the ids are spelled: exactly the declared number of nodes, all typed and in range. */
  lemma SuccessIsComplete(reply: map<string, string>, config: map<int, int>, order: seq<string>)
    requires Enumerates(order, Lines(reply)) && StatusInOrder(reply, config, order).Some?
    ensures var cs := StatusInOrder(reply, config, order).value;
            && DeclaredNodes(reply) == Some(|cs|)
            && cs.Keys == TypedIdsOf(Lines(reply))
            && forall id :: id in cs ==> 1 <= id < MAX_NUMBER_OF_NODES
  {
    hide ParseKey, Step;
    var lines := reply - {"nodes"};
    StepsCover(lines, config, order);
    assert KeysIn(order) == Lines(reply);
    var p := Steps(lines, config, order).value;
    assert p.typed <= p.cs.Keys;
    assert |p.cs.Keys| == |p.cs|;
    SubsetSameSize(p.typed, p.cs.Keys);
    forall id | id in p.cs ensures 1 <= id < MAX_NUMBER_OF_NODES {
      var k :| k in Lines(reply) && ParseKey(k).Some? && ParseKey(k).value.nodeId == id;
      ParsedIdInRange(k);
    }
  }

  // ----- independence of the order

  /** Every node id is spelled the one way the status lines are looked up. */
  predicate Canonical(reply: map<string, string>) {
    forall k :: k in Lines(reply) ==> CanonicalKey(k)
  }

  predicate CanonicalKey(k: string) {
    ParseKey(k).Some? ==> k == NodeKey(ParseKey(k).value.nodeId, ParseKey(k).value.field)
  }

  /** The line is one that does not fail the command. */
  predicate LineOk(reply: map<string, string>, config: map<int, int>, key: string) {
    match ParseKey(key)
    case None => false
    case Some(Key(nodeId, field)) =>
      && (field == "type" ==> WithType(UNKNOWN, reply, config, nodeId, Value(reply, key)).Some?)
      && (field == "version" ==> Atoi(Value(reply, key)).Some?)
  }

  /** The status of a node once some of the lines have been read. */
  function NodeAfter(reply: map<string, string>, config: map<int, int>, done: set<string>, nodeId: nat): NodeStatus {
    var typeKey, versionKey := NodeKey(nodeId, "type"), NodeKey(nodeId, "version");
    var ns := if typeKey !in done then UNKNOWN
              else
                match WithType(UNKNOWN, reply, config, nodeId, Value(reply, typeKey))
                case None => UNKNOWN
                case Some(ns) => ns;
    if versionKey !in done then ns
    else
      match Atoi(Value(reply, versionKey))
      case None => ns
      case Some(v) => ns.(softwareVersion := MySQLVersionString(v))
  }

  function ProgressAfter(reply: map<string, string>, config: map<int, int>, done: set<string>): Progress {
    Progress(map id | id in IdsOf(done) && id >= 0 :: NodeAfter(reply, config, done, id), TypedIdsOf(done))
  }

  /** The outcome, without reference to an order. */
  ghost function StatusOf(reply: map<string, string>, config: map<int, int>): Option<Cluster> {
    var lines := reply - {"nodes"};
    if DeclaredNodes(reply).None? || exists k :: k in lines && !LineOk(lines, config, k) then None
    else
      var p := ProgressAfter(lines, config, lines.Keys);
      if |p.cs| == |p.typed| == DeclaredNodes(reply).value then Some(p.cs) else None
  }

  /** A key with any spelling of the id. */
  lemma SplitsTo(spelling: string, id: int, field: string)
    requires Atoi(spelling) == Some(id) && '.' !in spelling && 1 <= id < MAX_NUMBER_OF_NODES
    ensures ParseKey("node." + spelling + "." + field) == Some(Key(id, field))
  {
    hide Itoa, Atoi, IndexOf;
    var key, rest := "node." + spelling + "." + field, spelling + ['.'] + field;
    var node := "node";
    assert node + ['.'] == "node.";
    assert key == node + ['.'] + rest;
    IndexOfConcat(node, '.', rest);
    assert key[..4] == node && key[5..] == rest;
    IndexOfConcat(spelling, '.', field);
    assert rest[..|spelling|] == spelling && rest[|spelling| + 1..] == field;
  }

  lemma ParseNodeKey(nodeId: nat, field: string)
    requires 1 <= nodeId < MAX_NUMBER_OF_NODES
    ensures ParseKey(NodeKey(nodeId, field)) == Some(Key(nodeId, field))
  {
    hide Itoa, Atoi, ParseKey;
    assert '.' !in Itoa(nodeId);
    ParseItoa(nodeId);
    SplitsTo(Itoa(nodeId), nodeId, field);
  }

  function NodeIn(p: Progress, nodeId: int): NodeStatus {
    if nodeId in p.cs then p.cs[nodeId] else UNKNOWN
  }

  lemma NodeKnown(reply: map<string, string>, config: map<int, int>, done: set<string>, nodeId: nat)
    requires 1 <= nodeId < MAX_NUMBER_OF_NODES
    ensures NodeIn(ProgressAfter(reply, config, done), nodeId) == NodeAfter(reply, config, done, nodeId)
  {
    hide NodeAfter, IdsOf;
    if nodeId !in IdsOf(done) {
      Unmentioned(reply, config, done, nodeId);
    }
  }

  lemma IdsGrow(done: set<string>, key: string)
    requires ParseKey(key).Some?
    ensures IdsOf(done + {key}) == IdsOf(done) + {ParseKey(key).value.nodeId}
    ensures TypedIdsOf(done + {key})
         == TypedIdsOf(done) + if ParseKey(key).value.field == "type" then {ParseKey(key).value.nodeId} else {}
  {
    hide ParseKey;
  }

  lemma ProgressGrows(reply: map<string, string>, config: map<int, int>, done: set<string>, key: string)
    requires ParseKey(key).Some?
    ensures var Key(nodeId, field) := ParseKey(key).value;
            var p := ProgressAfter(reply, config, done);
            ProgressAfter(reply, config, done + {key})
            == Progress(p.cs[nodeId := NodeAfter(reply, config, done + {key}, nodeId)],
                        p.typed + if field == "type" then {nodeId} else {})
  {
    hide ParseKey, NodeAfter, IdsOf, TypedIdsOf;
    var Key(nodeId, field) := ParseKey(key).value;
    ParsedIdInRange(key);
    IdsGrow(done, key);
    var p, p' := ProgressAfter(reply, config, done), ProgressAfter(reply, config, done + {key});
    forall id: nat | id in IdsOf(done) && id != nodeId
      ensures NodeAfter(reply, config, done + {key}, id) == NodeAfter(reply, config, done, id)
    {
      OtherNode(reply, config, done, key, id);
    }
    assert p'.cs == p.cs[nodeId := NodeAfter(reply, config, done + {key}, nodeId)];
  }

  /** Reading one more line of a canonical reply. */
  lemma StepIsSet(reply: map<string, string>, config: map<int, int>, done: set<string>, key: string)
    requires forall k :: k in done + {key} ==> LineOk(reply, config, k)
    requires CanonicalKey(key)
    requires key !in done
    ensures Step(ProgressAfter(reply, config, done), reply, config, key) == Some(ProgressAfter(reply, config, done + {key}))
  {
    hide ParseKey, NodeKey, WithType, MySQLVersionString, NodeAfter, ProgressAfter, CanonicalKey, Atoi;
    assert LineOk(reply, config, key);
    var Key(nodeId, field) := ParseKey(key).value;
    ParsedIdInRange(key);
    ProgressGrows(reply, config, done, key);
    NodeKnown(reply, config, done, nodeId);
    OwnNode(reply, config, done, key);
    var typed := ProgressAfter(reply, config, done).typed;
    assert typed + {} == typed;
  }

  lemma InRangeIn(done: set<string>, id: int)
    requires id in IdsOf(done)
    ensures 1 <= id < MAX_NUMBER_OF_NODES
  {
    hide ParseKey;
    var k :| k in done && ParseKey(k).Some? && ParseKey(k).value.nodeId == id;
    ParsedIdInRange(k);
  }

  lemma OtherNode(reply: map<string, string>, config: map<int, int>, done: set<string>, key: string, id: nat)
    requires ParseKey(key).Some? && ParseKey(key).value.nodeId != id && id in IdsOf(done)
    ensures NodeAfter(reply, config, done + {key}, id) == NodeAfter(reply, config, done, id)
  {
    hide ParseKey, NodeKey, WithType, MySQLVersionString, Atoi;
    InRangeIn(done, id);
    ParseNodeKey(id, "type");
    ParseNodeKey(id, "version");
  }

  lemma Unmentioned(reply: map<string, string>, config: map<int, int>, done: set<string>, nodeId: nat)
    requires 1 <= nodeId < MAX_NUMBER_OF_NODES && nodeId !in IdsOf(done)
    ensures NodeAfter(reply, config, done, nodeId) == UNKNOWN
  {
    hide ParseKey, NodeKey, WithType, MySQLVersionString, Atoi;
    ParseNodeKey(nodeId, "type");
    ParseNodeKey(nodeId, "version");
  }

  /** Type and version lines commute: each sets its own fields. */
  lemma OwnNode(reply: map<string, string>, config: map<int, int>, done: set<string>, key: string)
    requires LineOk(reply, config, key) && key !in done
    requires forall k :: k in done ==> LineOk(reply, config, k)
    requires CanonicalKey(key)
    ensures var Key(nodeId, field) := ParseKey(key).value;
            var ns := NodeAfter(reply, config, done, nodeId);
            NodeAfter(reply, config, done + {key}, nodeId)
            == if field == "type" then WithType(ns, reply, config, nodeId, Value(reply, key)).value
               else if field == "version" then ns.(softwareVersion := MySQLVersionString(Atoi(Value(reply, key)).value))
               else ns
    ensures var Key(nodeId, field) := ParseKey(key).value;
            field == "type" ==> WithType(NodeAfter(reply, config, done, nodeId), reply, config, nodeId, Value(reply, key)).Some?
  {
    hide ParseKey, NodeKey, MySQLVersionString, Atoi, TypeFromTLA, NodeGroupOf;
    var Key(nodeId, field) := ParseKey(key).value;
    ParsedIdInRange(key);
    ParseNodeKey(nodeId, "type");
    ParseNodeKey(nodeId, "version");
  }

  lemma {:induction false} StepsAreSet(reply: map<string, string>, config: map<int, int>, order: seq<string>)
    requires forall i, j :: 0 <= i < j < |order| ==> order[i] != order[j]
    requires forall k :: k in order ==> CanonicalKey(k)
    ensures if forall k :: k in order ==> LineOk(reply, config, k)
            then Steps(reply, config, order) == Some(ProgressAfter(reply, config, KeysIn(order)))
            else Steps(reply, config, order) == None
    decreases |order|
  {
    hide ParseKey, LineOk, NodeKey, ProgressAfter, Step, CanonicalKey;
    if order == [] {
      NothingRead(reply, config);
      assert KeysIn(order) == {};
    } else {
      var n := |order| - 1;
      var key := order[n];
      StepsAreSet(reply, config, order[..n]);
      assert KeysIn(order) == KeysIn(order[..n]) + {key};
      assert forall k :: k in order <==> k in order[..n] || k == key;
      if forall k :: k in order[..n] ==> LineOk(reply, config, k) {
        if LineOk(reply, config, key) {
          LinesParse(reply, config, KeysIn(order));
          StepIsSet(reply, config, KeysIn(order[..n]), key);
        } else {
          BadLine(reply, config, KeysIn(order[..n]), key);
        }
      }
    }
  }

  lemma NothingRead(reply: map<string, string>, config: map<int, int>)
    ensures ProgressAfter(reply, config, {}) == Progress(map[], {})
  {
    assert IdsOf({}) == {};
    assert TypedIdsOf({}) == {};
  }

  lemma LinesParse(reply: map<string, string>, config: map<int, int>, keys: set<string>)
    requires forall k :: k in keys ==> LineOk(reply, config, k)
    ensures forall k :: k in keys ==> ParseKey(k).Some?
  {
    hide ParseKey;
  }

  lemma BadLine(reply: map<string, string>, config: map<int, int>, done: set<string>, key: string)
    requires !LineOk(reply, config, key) && key !in done
    requires forall k :: k in done ==> LineOk(reply, config, k)
    requires CanonicalKey(key)
    ensures Step(ProgressAfter(reply, config, done), reply, config, key) == None
  {
    hide ParseKey, NodeKey, MySQLVersionString, Atoi, TypeFromTLA, NodeGroupOf;
    if ParseKey(key).Some? {
      var nodeId := ParseKey(key).value.nodeId;
      ParsedIdInRange(key);
      if nodeId !in IdsOf(done) {
        Unmentioned(reply, config, done, nodeId);
      }
    }
  }

  /**
   For replies with canonical node ids every order of the lines gives the same outcome:
   the same failure or the same status.
   */
  lemma OrderDoesNotMatter(reply: map<string, string>, config: map<int, int>, order: seq<string>)
    requires Canonical(reply) && Enumerates(order, Lines(reply))
    ensures StatusInOrder(reply, config, order) == StatusOf(reply, config)
  {
    hide ParseKey, LineOk, NodeKey, ProgressAfter, DeclaredNodes, Steps, CanonicalKey;
    var lines := reply - {"nodes"};
    assert lines.Keys == Lines(reply);
    StepsAreSet(lines, config, order);
    assert KeysIn(order) == lines.Keys;
  }

  /** The status of a node in a successful outcome, line by line. */
  lemma StatusByNode(reply: map<string, string>, config: map<int, int>, id: nat)
    requires Canonical(reply) && StatusOf(reply, config).Some? && id in StatusOf(reply, config).value
    ensures var lines := reply - {"nodes"}; var ns := StatusOf(reply, config).value[id];
            && TypeFromTLA(Value(lines, NodeKey(id, "type"))) == Some(ns.nodeType)
            && (ns.isConnected <==> Value(lines, NodeKey(id, "status")) == if ns.nodeType == NDB then "STARTED" else "CONNECTED")
            && (ns.nodeType == NDB ==> NodeGroupOf(lines, config, id, ns.isConnected) == Some(ns.nodeGroup))
            && (NodeKey(id, "version") in lines ==>
                  Atoi(lines[NodeKey(id, "version")]).Some?
                  && ns.softwareVersion == MySQLVersionString(Atoi(lines[NodeKey(id, "version")]).value))
  {
    hide ParseKey, NodeKey, MySQLVersionString, Atoi, TypeFromTLA, NodeGroupOf, DeclaredNodes, Canonical;
    var lines := reply - {"nodes"};
    TypedNode(reply, config, id);
    assert LineOk(lines, config, NodeKey(id, "type"));
    ParseNodeKey(id, "type");
    ParseNodeKey(id, "version");
    if NodeKey(id, "version") in lines {
      assert LineOk(lines, config, NodeKey(id, "version"));
    }
  }

  lemma TypedNode(reply: map<string, string>, config: map<int, int>, id: nat)
    requires Canonical(reply) && StatusOf(reply, config).Some? && id in StatusOf(reply, config).value
    ensures NodeKey(id, "type") in reply - {"nodes"} && 1 <= id < MAX_NUMBER_OF_NODES
  {
    hide ParseKey, NodeKey, DeclaredNodes;
    var lines := reply - {"nodes"};
    var p := ProgressAfter(lines, config, lines.Keys);
    InRangeIn(lines.Keys, id);
    AllIdsKept(lines, config, lines.Keys);
    assert p.typed <= IdsOf(lines.Keys);
    SubsetSameSize(p.typed, p.cs.Keys);
    var k :| k in lines.Keys && ParseKey(k).Some? && ParseKey(k).value.field == "type" && ParseKey(k).value.nodeId == id;
    assert k in Lines(reply);
  }

  lemma AllIdsKept(reply: map<string, string>, config: map<int, int>, done: set<string>)
    ensures ProgressAfter(reply, config, done).cs.Keys == IdsOf(done)
    ensures |ProgressAfter(reply, config, done).cs| == |IdsOf(done)|
  {
    hide ParseKey, NodeAfter, IdsOf, TypedIdsOf;
    var cs := ProgressAfter(reply, config, done).cs;
    forall id | id in IdsOf(done) ensures id in cs {
      InRangeIn(done, id);
    }
    assert cs.Keys == IdsOf(done);
    assert |cs.Keys| == |cs|;
  }

  // ----- health and grouping

  ghost predicate Healthy(cs: Cluster) {
    forall id :: id in cs ==>
      && (cs[id].nodeType == MGM ==> cs[id].isConnected)
      && (cs[id].nodeType == NDB ==> cs[id].isConnected || cs[id].nodeGroup == NEW_DISCONNECTED)
  }

  lemma HasElement(ids: set<int>)
    requires ids != {}
    ensures exists id :: id in ids
  {
    assert (forall id :: id !in ids) ==> ids == {};
  }

  method IsHealthy(cs: Cluster) returns (healthy: bool)
    ensures healthy <==> Healthy(cs)
  {
    var ids := cs.Keys;
    while ids != {}
      invariant ids <= cs.Keys
      invariant Healthy(map id | id in cs.Keys - ids :: cs[id])
      decreases ids
    {
      HasElement(ids);
      var id :| id in ids;
      var ns := cs[id];
      if ns.nodeType == MGM && !ns.isConnected {
        return false;
      }
      if ns.nodeType == NDB && !ns.isConnected && ns.nodeGroup != NEW_DISCONNECTED {
        return false;
      }
      ids := ids - {id};
    }
    assert (map id | id in cs.Keys - ids :: cs[id]) == cs;
    healthy := true;
  }

  ghost predicate Ascending(s: seq<int>) {
    forall i, j :: 0 <= i < j < |s| ==> s[i] < s[j]
  }

  ghost predicate ListsSorted(s: seq<int>, ids: set<int>) {
    Ascending(s) && forall x :: x in s <==> x in ids
  }

  /** There is only one such list, in whatever order the ids were found. */
  lemma {:induction false} SortedListIsUnique(s: seq<int>, t: seq<int>, ids: set<int>)
    requires ListsSorted(s, ids) && ListsSorted(t, ids)
    ensures s == t
    decreases |s|
  {
    if s == [] {
      NothingListed(t, ids);
    } else {
      var x := s[|s| - 1];
      assert x in t && |t| > 0;
      var y := t[|t| - 1];
      assert y in s;
      LastIsGreatest(s, y);
      LastIsGreatest(t, x);
      DropLast(s, ids);
      DropLast(t, ids);
      SortedListIsUnique(s[..|s| - 1], t[..|t| - 1], ids - {x});
      assert s == s[..|s| - 1] + [x] && t == t[..|t| - 1] + [x];
    }
  }

  lemma FirstIsListed(t: seq<int>)
    ensures |t| > 0 ==> t[0] in t
  {
  }

  lemma NothingListed(t: seq<int>, ids: set<int>)
    requires ListsSorted([], ids) && ListsSorted(t, ids)
    ensures t == []
  {
    FirstIsListed(t);
  }

  lemma LastIsGreatest(s: seq<int>, x: int)
    requires Ascending(s) && x in s
    ensures x <= s[|s| - 1]
  {
  }

  lemma DropLast(s: seq<int>, ids: set<int>)
    requires ListsSorted(s, ids) && s != []
    ensures ListsSorted(s[..|s| - 1], ids - {s[|s| - 1]})
  {
    var n := |s| - 1;
    forall x ensures x in s[..n] <==> x in ids - {s[n]} {
      if x in s && x != s[n] {
        var i :| 0 <= i < |s| && s[i] == x;
        assert s[..n][i] == x;
      }
    }
  }

  /** `sort.Ints` on a list without repetitions. */
  method SortIds(ids: set<int>) returns (s: seq<int>)
    ensures ListsSorted(s, ids)
  {
    s := [];
    var rest := ids;
    while rest != {}
      invariant rest <= ids
      invariant ListsSorted(s, ids - rest)
      invariant forall x, y :: x in s && y in rest ==> x < y
      decreases rest
    {
      HasElement(rest);
      var least :| least in rest;
      var others := rest - {least};
      while others != {}
        invariant others <= rest && least in rest
        invariant forall o :: o in rest && o !in others ==> least <= o
        decreases others
      {
        HasElement(others);
        var o :| o in others;
        if o < least {
          least := o;
        }
        others := others - {o};
      }
      AppendGreatest(s, ids - rest, least);
      assert ids - (rest - {least}) == ids - rest + {least};
      s := s + [least];
      rest := rest - {least};
    }
    assert ids - rest == ids;
  }

  lemma AppendGreatest(s: seq<int>, done: set<int>, x: int)
    requires ListsSorted(s, done) && forall y :: y in s ==> y < x
    ensures ListsSorted(s + [x], done + {x})
  {
    forall i, j | 0 <= i < j < |s + [x]| ensures (s + [x])[i] < (s + [x])[j] {
      assert s[i] in s;
    }
    forall y ensures y in s + [x] <==> y in done + {x} {
      assert y in s <==> y in done;
    }
  }

  /** A data node that should be up but is not. */
  predicate Missing(ns: NodeStatus) {
    ns.nodeType == NDB && !ns.isConnected && ns.nodeGroup != NEW_DISCONNECTED
  }

  predicate Inducted(ns: NodeStatus) {
    ns.nodeType == NDB && ns.isConnected && ns.nodeGroup != NEW_CONNECTED
  }

  /** The inducted data nodes of a node group. */
  function Members(cs: Cluster, ng: int): set<int> {
    set id | id in cs && Inducted(cs[id]) && cs[id].nodeGroup == ng
  }

  function GroupIds(cs: Cluster): set<int> {
    set id | id in cs && Inducted(cs[id]) :: cs[id].nodeGroup
  }

  /** The same among the nodes seen so far. */
  function MembersIn(cs: Cluster, seen: set<int>, ng: int): set<int> {
    set id | id in seen && id in cs && Inducted(cs[id]) && cs[id].nodeGroup == ng
  }

  function GroupIdsIn(cs: Cluster, seen: set<int>): set<int> {
    set id | id in seen && id in cs && Inducted(cs[id]) :: cs[id].nodeGroup
  }

  lemma OneMoreSeen(cs: Cluster, seen: set<int>, id: int)
    requires id in cs && id !in seen
    ensures GroupIdsIn(cs, seen + {id}) == GroupIdsIn(cs, seen) + (if Inducted(cs[id]) then {cs[id].nodeGroup} else {})
    ensures forall ng :: MembersIn(cs, seen + {id}, ng)
                      == MembersIn(cs, seen, ng) + (if Inducted(cs[id]) && cs[id].nodeGroup == ng then {id} else {})
  {
    var ng := cs[id].nodeGroup;
    var more := GroupIdsIn(cs, seen + {id});
    if Inducted(cs[id]) {
      assert ng in more;
    }
    forall x ensures x in more <==> x in GroupIdsIn(cs, seen) || (Inducted(cs[id]) && x == ng) {
    }
  }

  lemma AllSeen(cs: Cluster)
    ensures GroupIdsIn(cs, cs.Keys) == GroupIds(cs)
    ensures forall ng :: MembersIn(cs, cs.Keys, ng) == Members(cs, ng)
  {
  }

  /** What the grouping returns: at each position the members of the group with that number. */
  ghost predicate Grouping(groups: seq<seq<int>>, cs: Cluster) {
    |groups| == |GroupIds(cs)| && forall i :: 0 <= i < |groups| ==> ListsSorted(groups[i], Members(cs, i))
  }

  lemma NoneSeen(cs: Cluster)
    ensures GroupIdsIn(cs, cs.Keys - cs.Keys) == {}
    ensures forall ng :: MembersIn(cs, cs.Keys - cs.Keys, ng) == {}
  {
  }

  /** The inducted data nodes by group; None when a data node is missing. */
  method CollectGroups(cs: Cluster) returns (r: Option<map<int, set<int>>>)
    ensures r.None? <==> exists id :: id in cs && Missing(cs[id])
    ensures r.Some? ==> r.value.Keys == GroupIds(cs) && forall ng :: ng in r.value ==> r.value[ng] == Members(cs, ng)
  {
    hide Inducted, MembersIn, GroupIdsIn, Members, GroupIds;
    var inGroup: map<int, set<int>> := map[];
    var ids := cs.Keys;
    NoneSeen(cs);
    while ids != {}
      invariant ids <= cs.Keys
      invariant forall id :: id in cs.Keys - ids ==> !Missing(cs[id])
      invariant inGroup.Keys == GroupIdsIn(cs, cs.Keys - ids)
      invariant forall ng :: (if ng in inGroup then inGroup[ng] else {}) == MembersIn(cs, cs.Keys - ids, ng)
      decreases ids
    {
      HasElement(ids);
      var id :| id in ids;
      var node := cs[id];
      if Missing(node) {
        return None;
      }
      OneMoreSeen(cs, cs.Keys - ids, id);
      assert cs.Keys - (ids - {id}) == cs.Keys - ids + {id};
      ids := ids - {id};
      if Inducted(node) {
        var ng := node.nodeGroup;
        inGroup := inGroup[ng := (if ng in inGroup then inGroup[ng] else {}) + {id}];
      }
    }
    AllSeen(cs);
    assert cs.Keys - ids == cs.Keys;
    r := Some(inGroup);
  }

  method GetNodesGroupedByNodegroup(cs: Cluster) returns (groups: Option<seq<seq<int>>>)
    ensures groups.None? <==> exists id :: id in cs && Missing(cs[id])
    ensures groups.Some? ==> Grouping(groups.value, cs)
  {
    hide ListsSorted, Members, GroupIds, Missing;
    var inGroup := CollectGroups(cs);
    if inGroup.None? {
      return None;
    }
    assert |inGroup.value.Keys| == |inGroup.value|;
    var sorted: seq<seq<int>> := [];
    while |sorted| < |inGroup.value|
      invariant |sorted| <= |inGroup.value|
      invariant forall i :: 0 <= i < |sorted| ==> ListsSorted(sorted[i], Members(cs, i))
    {
      var i := |sorted|;
      if i !in inGroup.value {
        NoSuchGroup(cs, i);
      }
      var list := SortIds(if i in inGroup.value then inGroup.value[i] else {});
      sorted := sorted + [list];
    }
    groups := Some(sorted);
  }

  lemma NoSuchGroup(cs: Cluster, ng: int)
    requires ng !in GroupIds(cs)
    ensures Members(cs, ng) == {}
  {
    forall id ensures id !in Members(cs, ng) {
    }
  }

  function Range(k: nat): set<int> {
    if k == 0 then {} else Range(k - 1) + {k - 1}
  }

  lemma {:induction false} RangeIs(k: nat)
    ensures |Range(k)| == k && forall x :: x in Range(k) <==> 0 <= x < k
  {
    if k > 0 {
      RangeIs(k - 1);
    }
  }

  /**
   The grouping looks groups up by position. It shows every inducted data node exactly when
   the node groups are numbered from 0 without a gap.
   */
  lemma GroupingIsComplete(groups: seq<seq<int>>, cs: Cluster)
    requires Grouping(groups, cs)
    ensures (forall id :: id in cs && Inducted(cs[id]) ==> exists i :: 0 <= i < |groups| && id in groups[i])
       <==> (forall ng :: ng in GroupIds(cs) <==> 0 <= ng < |GroupIds(cs)|)
  {
    var k := |GroupIds(cs)|;
    if forall id :: id in cs && Inducted(cs[id]) ==> exists i :: 0 <= i < |groups| && id in groups[i] {
      forall ng | ng in GroupIds(cs) ensures 0 <= ng < k {
        var id :| id in cs && Inducted(cs[id]) && cs[id].nodeGroup == ng;
        var i :| 0 <= i < |groups| && id in groups[i];
        assert id in Members(cs, i);
      }
      RangeIs(k);
      assert GroupIds(cs) <= Range(k);
      SubsetSameSize(GroupIds(cs), Range(k));
    }
    if forall ng :: ng in GroupIds(cs) <==> 0 <= ng < k {
      forall id | id in cs && Inducted(cs[id]) ensures exists i :: 0 <= i < |groups| && id in groups[i] {
        assert cs[id].nodeGroup in GroupIds(cs);
        assert id in Members(cs, cs[id].nodeGroup);
        assert id in groups[cs[id].nodeGroup];
      }
    }
  }

  function DataNodesIn(cs: Cluster, ng: int): set<int> {
    set id | id in cs && cs[id].nodeType == NDB && cs[id].nodeGroup == ng
  }

  /** The connected data nodes of a group; nothing when one of them is not connected. */
  method GetConnectedDataNodesWithNodeGroup(cs: Cluster, ng: int) returns (s: seq<int>)
    ensures if exists id :: id in DataNodesIn(cs, ng) && !cs[id].isConnected then s == [] else ListsSorted(s, DataNodesIn(cs, ng))
  {
    var found: set<int> := {};
    var ids := cs.Keys;
    while ids != {}
      invariant ids <= cs.Keys
      invariant forall id :: id in found <==> id in cs.Keys - ids && cs[id].nodeType == NDB && cs[id].nodeGroup == ng
      invariant forall id :: id in found ==> cs[id].isConnected
      decreases ids
    {
      HasElement(ids);
      var id :| id in ids;
      ids := ids - {id};
      if cs[id].nodeType != NDB || cs[id].nodeGroup != ng {
        continue;
      }
      if !cs[id].isConnected {
        return [];
      }
      found := found + {id};
    }
    forall id ensures id in found <==> id in DataNodesIn(cs, ng) {
    }
    assert found == DataNodesIn(cs, ng);
    s := SortIds(found);
  }

  // ----- exactly when the order does not matter

  /** What a version line says. */
  function VersionOf(v: string): Option<string> {
    match Atoi(v)
    case None => None
    case Some(n) => Some(MySQLVersionString(n))
  }

  /** Two lines about the same node that say different things about its type or its version. */
  predicate Conflicting(lines: map<string, string>, k1: string, k2: string) {
    && k1 in lines && k2 in lines && ParseKey(k1).Some? && ParseKey(k1) == ParseKey(k2)
    && match ParseKey(k1).value.field
       case "type" => TypeFromTLA(lines[k1]) != TypeFromTLA(lines[k2])
       case "version" => VersionOf(lines[k1]) != VersionOf(lines[k2])
       case _ => false
  }

  ghost predicate Consistent(lines: map<string, string>) {
    forall k1, k2 :: k1 in lines && k2 in lines ==> !Conflicting(lines, k1, k2)
  }

  predicate IsLine(key: string, id: int, field: string) {
    ParseKey(key) == Some(Key(id, field))
  }

  /** What the lines read so far say about a node, in whatever order they came. */
  ghost predicate SaysOf(ns: NodeStatus, lines: map<string, string>, config: map<int, int>, done: set<string>, id: nat) {
    && (forall k :: k in done && IsLine(k, id, "type") ==>
          WithType(UNKNOWN, lines, config, id, Value(lines, k)) == Some(ns.(softwareVersion := "")))
    && ((forall k :: k in done ==> !IsLine(k, id, "type")) ==> ns.(softwareVersion := "") == UNKNOWN)
    && (forall k :: k in done && IsLine(k, id, "version") ==> VersionOf(Value(lines, k)) == Some(ns.softwareVersion))
    && ((forall k :: k in done ==> !IsLine(k, id, "version")) ==> ns.softwareVersion == "")
  }

  ghost predicate Says(p: Progress, lines: map<string, string>, config: map<int, int>, done: set<string>) {
    && p.cs.Keys == IdsOf(done) && p.typed == TypedIdsOf(done)
    && forall id: nat :: id in p.cs ==> SaysOf(p.cs[id], lines, config, done, id)
  }

  lemma SaidOnce(a: NodeStatus, b: NodeStatus, lines: map<string, string>, config: map<int, int>, done: set<string>, id: nat)
    requires SaysOf(a, lines, config, done, id) && SaysOf(b, lines, config, done, id)
    ensures a == b
  {
    hide WithType, IsLine, VersionOf;
    assert a.(softwareVersion := "") == b.(softwareVersion := "");
    assert a.softwareVersion == b.softwareVersion;
    assert a == a.(softwareVersion := "").(softwareVersion := a.softwareVersion);
  }

  lemma SaidAllOnce(p: Progress, q: Progress, lines: map<string, string>, config: map<int, int>, done: set<string>)
    requires Says(p, lines, config, done) && Says(q, lines, config, done)
    ensures p == q
  {
    hide SaysOf, IdsOf, TypedIdsOf;
    forall id | id in p.cs ensures p.cs[id] == q.cs[id] {
      InRangeIn(done, id);
      SaidOnce(p.cs[id], q.cs[id], lines, config, done, id);
    }
  }

  /** A second type line that agrees changes nothing. */
  lemma TypeAgain(ns: NodeStatus, lines: map<string, string>, config: map<int, int>, id: nat, tla: string, typed: bool)
    requires if typed then WithType(UNKNOWN, lines, config, id, tla) == Some(ns.(softwareVersion := ""))
             else ns.(softwareVersion := "") == UNKNOWN
    ensures WithType(ns, lines, config, id, tla)
         == match WithType(UNKNOWN, lines, config, id, tla)
            case None => None
            case Some(t) => Some(t.(softwareVersion := ns.softwareVersion))
    ensures match WithType(UNKNOWN, lines, config, id, tla)
            case None => true
            case Some(t) => t.softwareVersion == ""
  {
    hide NodeGroupOf, TypeFromTLA, NodeKey;
  }

  lemma StepSays(p: Progress, lines: map<string, string>, config: map<int, int>, done: set<string>, key: string)
    requires Says(p, lines, config, done) && Consistent(lines) && done <= lines.Keys && key in lines
    ensures Step(p, lines, config, key).Some? <==> LineOk(lines, config, key)
    ensures Step(p, lines, config, key).Some? ==> Says(Step(p, lines, config, key).value, lines, config, done + {key})
  {
    hide ParseKey, WithType, Atoi, MySQLVersionString, TypeFromTLA, IdsOf, TypedIdsOf, SaysOf;
    if ParseKey(key).Some? {
      var Key(id, field) := ParseKey(key).value;
      ParsedIdInRange(key);
      IdsGrow(done, key);
      var ns := NodeIn(p, id);
      if id !in p.cs {
        NothingSaid(lines, config, done, id);
      }
      NodeStep(ns, lines, config, done, key);
      forall other: nat | other in p.cs && other != id ensures SaysOf(p.cs[other], lines, config, done + {key}, other) {
        SaidElsewhere(p.cs[other], lines, config, done, key, other);
      }
    }
  }

  lemma NothingSaid(lines: map<string, string>, config: map<int, int>, done: set<string>, id: nat)
    requires id !in IdsOf(done)
    ensures SaysOf(UNKNOWN, lines, config, done, id)
  {
    hide ParseKey, WithType, Atoi;
    forall k | k in done ensures ParseKey(k).Some? ==> ParseKey(k).value.nodeId != id {
    }
  }

  lemma SaidElsewhere(ns: NodeStatus, lines: map<string, string>, config: map<int, int>, done: set<string>, key: string, id: nat)
    requires SaysOf(ns, lines, config, done, id) && ParseKey(key).Some? && ParseKey(key).value.nodeId != id
    ensures SaysOf(ns, lines, config, done + {key}, id)
  {
    hide ParseKey, WithType, Atoi, MySQLVersionString;
  }

  /** One line about a node, in a consistent reply. */
  lemma NodeStep(ns: NodeStatus, lines: map<string, string>, config: map<int, int>, done: set<string>, key: string)
    requires ParseKey(key).Some? && ParseKey(key).value.nodeId >= 0
    requires SaysOf(ns, lines, config, done, ParseKey(key).value.nodeId)
    requires Consistent(lines) && done <= lines.Keys && key in lines
    ensures var Key(id, field) := ParseKey(key).value;
            if field == "type" then
              && (WithType(ns, lines, config, id, Value(lines, key)).Some? <==> LineOk(lines, config, key))
              && (LineOk(lines, config, key) ==> SaysOf(WithType(ns, lines, config, id, Value(lines, key)).value, lines, config, done + {key}, id))
            else if field == "version" then
              LineOk(lines, config, key) ==>
                SaysOf(ns.(softwareVersion := MySQLVersionString(Atoi(Value(lines, key)).value)), lines, config, done + {key}, id)
            else SaysOf(ns, lines, config, done + {key}, id)
  {
    hide ParseKey, Atoi, MySQLVersionString;
    var Key(id, field) := ParseKey(key).value;
    if field == "type" {
      TypeStep(ns, lines, config, done, key, id);
    } else if field == "version" {
      if LineOk(lines, config, key) {
        VersionStep(ns, lines, config, done, key, id);
      }
    }
  }

  lemma TypeStep(ns: NodeStatus, lines: map<string, string>, config: map<int, int>, done: set<string>, key: string, id: nat)
    requires IsLine(key, id, "type") && SaysOf(ns, lines, config, done, id)
    requires Consistent(lines) && done <= lines.Keys && key in lines
    ensures WithType(ns, lines, config, id, Value(lines, key)).Some? <==> LineOk(lines, config, key)
    ensures LineOk(lines, config, key) ==>
              SaysOf(WithType(ns, lines, config, id, Value(lines, key)).value, lines, config, done + {key}, id)
  {
    hide ParseKey, Atoi, MySQLVersionString, WithType, TypeFromTLA;
    var tla := Value(lines, key);
    if k :| k in done && IsLine(k, id, "type") {
      assert !Conflicting(lines, k, key);
      SameTypes(lines, config, id, Value(lines, k), tla);
      TypeAgain(ns, lines, config, id, tla, true);
      assert WithType(ns, lines, config, id, tla) == Some(ns);
    } else {
      TypeAgain(ns, lines, config, id, tla, false);
      if LineOk(lines, config, key) {
        var t := WithType(UNKNOWN, lines, config, id, tla).value;
        assert t.(softwareVersion := ns.softwareVersion).(softwareVersion := "") == t;
        assert forall k :: k in done + {key} && IsLine(k, id, "type") ==> k == key;
      }
    }
  }

  lemma SameTypes(lines: map<string, string>, config: map<int, int>, id: nat, tla1: string, tla2: string)
    requires TypeFromTLA(tla1) == TypeFromTLA(tla2)
    ensures WithType(UNKNOWN, lines, config, id, tla1) == WithType(UNKNOWN, lines, config, id, tla2)
  {
  }

  lemma VersionStep(ns: NodeStatus, lines: map<string, string>, config: map<int, int>, done: set<string>, key: string, id: nat)
    requires IsLine(key, id, "version") && SaysOf(ns, lines, config, done, id) && LineOk(lines, config, key)
    requires Consistent(lines) && done <= lines.Keys && key in lines
    ensures SaysOf(ns.(softwareVersion := MySQLVersionString(Atoi(Value(lines, key)).value)), lines, config, done + {key}, id)
  {
    hide ParseKey, Atoi, MySQLVersionString, WithType, TypeFromTLA;
    forall k | k in done && IsLine(k, id, "version") ensures VersionOf(Value(lines, k)) == VersionOf(Value(lines, key)) {
      assert !Conflicting(lines, k, key);
    }
  }

  /** In a consistent reply every order says the same. */
  lemma {:induction false} StepsSay(lines: map<string, string>, config: map<int, int>, order: seq<string>)
    requires Consistent(lines) && forall k :: k in order ==> k in lines
    ensures Steps(lines, config, order).Some? <==> forall k :: k in order ==> LineOk(lines, config, k)
    ensures Steps(lines, config, order).Some? ==> Says(Steps(lines, config, order).value, lines, config, KeysIn(order))
    decreases |order|
  {
    hide LineOk, Step, Says, Consistent;
    if order == [] {
      NothingSays(lines, config);
      assert KeysIn(order) == {};
    } else {
      var n := |order| - 1;
      StepsSay(lines, config, order[..n]);
      assert KeysIn(order) == KeysIn(order[..n]) + {order[n]};
      assert forall k :: k in order <==> k in order[..n] || k == order[n];
      if Steps(lines, config, order[..n]).Some? {
        StepSays(Steps(lines, config, order[..n]).value, lines, config, KeysIn(order[..n]), order[n]);
      }
    }
  }

  lemma NothingSays(lines: map<string, string>, config: map<int, int>)
    ensures Says(Progress(map[], {}), lines, config, {})
  {
    assert IdsOf({}) == {} && TypedIdsOf({}) == {};
  }

  /** Every order of a consistent reply has the same outcome. */
  lemma ConsistentAgrees(reply: map<string, string>, config: map<int, int>, a: seq<string>, b: seq<string>)
    requires Consistent(reply - {"nodes"}) && Enumerates(a, Lines(reply)) && Enumerates(b, Lines(reply))
    ensures StatusInOrder(reply, config, a) == StatusInOrder(reply, config, b)
  {
    hide LineOk, Says, Consistent, Steps, DeclaredNodes;
    var lines := reply - {"nodes"};
    assert lines.Keys == Lines(reply);
    StepsSay(lines, config, a);
    StepsSay(lines, config, b);
    assert KeysIn(a) == KeysIn(b) == lines.Keys;
    if Steps(lines, config, a).Some? {
      SaidAllOnce(Steps(lines, config, a).value, Steps(lines, config, b).value, lines, config, lines.Keys);
    }
  }

  /** The last line read about a node has the last word. */
  lemma LastLineDecides(reply: map<string, string>, config: map<int, int>, key: string) returns (order: seq<string>)
    requires key in Lines(reply) && ParseKey(key).Some?
    ensures Enumerates(order, Lines(reply))
    ensures StatusInOrder(reply, config, order).Some? ==>
              var Key(id, field) := ParseKey(key).value;
              var cs := StatusInOrder(reply, config, order).value;
              && id in cs
              && (field == "type" ==> TypeFromTLA(reply[key]) == Some(cs[id].nodeType))
              && (field == "version" ==> VersionOf(reply[key]) == Some(cs[id].softwareVersion))
  {
    hide ParseKey, Atoi, MySQLVersionString, NodeGroupOf, TypeFromTLA;
    var lines := reply - {"nodes"};
    var before := CanEnumerate(Lines(reply) - {key});
    OneMore(lines, config, before, Lines(reply) - {key}, key);
    order := before + [key];
    assert Lines(reply) - {key} + {key} == Lines(reply);
  }

  ghost predicate OrdersAgree(reply: map<string, string>, config: map<int, int>) {
    forall a, b :: Enumerates(a, Lines(reply)) && Enumerates(b, Lines(reply)) ==>
      StatusInOrder(reply, config, a) == StatusInOrder(reply, config, b)
  }

  /**
   For a reply that some order accepts: all orders give the same status exactly if no two lines
   say different things about the type or the version of the same node. Other spellings of a
   node id alone do no harm.
   */
  lemma OrderMatters(reply: map<string, string>, config: map<int, int>, order: seq<string>)
    requires Enumerates(order, Lines(reply)) && StatusInOrder(reply, config, order).Some?
    ensures OrdersAgree(reply, config) <==> Consistent(reply - {"nodes"})
  {
    hide StatusInOrder, Enumerates, Conflicting;
    var lines := reply - {"nodes"};
    if Consistent(lines) {
      forall a, b | Enumerates(a, Lines(reply)) && Enumerates(b, Lines(reply))
        ensures StatusInOrder(reply, config, a) == StatusInOrder(reply, config, b)
      {
        ConsistentAgrees(reply, config, a, b);
      }
    } else {
      var k1, k2 :| k1 in lines && k2 in lines && Conflicting(lines, k1, k2);
      ConflictShows(reply, config, order, k1, k2);
    }
  }

  lemma ConflictShows(reply: map<string, string>, config: map<int, int>, order: seq<string>, k1: string, k2: string)
    requires Conflicting(reply - {"nodes"}, k1, k2)
    requires Enumerates(order, Lines(reply)) && StatusInOrder(reply, config, order).Some?
    ensures !OrdersAgree(reply, config)
  {
    hide StatusInOrder, Enumerates, ParseKey, VersionOf, TypeFromTLA;
    assert k1 in Lines(reply) && k2 in Lines(reply);
    var a := LastLineDecides(reply, config, k1);
    var b := LastLineDecides(reply, config, k2);
    assert StatusInOrder(reply, config, a) != StatusInOrder(reply, config, order)
        || StatusInOrder(reply, config, b) != StatusInOrder(reply, config, order);
  }

  // ----- an example of a conflict

  const TWO_SPELLINGS: map<string, string> :=
    map["nodes" := "1", "node.2.type" := "API", "node.02.type" := "MGM"]

  /** With a node id spelled in two ways, the order of the lines decides the type of the node. */
  lemma OrderCanMatter()
    ensures var a, b := ["node.2.type", "node.02.type"], ["node.02.type", "node.2.type"];
            && Enumerates(a, Lines(TWO_SPELLINGS)) && Enumerates(b, Lines(TWO_SPELLINGS))
            && StatusInOrder(TWO_SPELLINGS, map[], a) == Some(map[2 := UNKNOWN.(nodeType := MGM)])
            && StatusInOrder(TWO_SPELLINGS, map[], b) == Some(map[2 := UNKNOWN.(nodeType := API)])
  {
    hide ParseKey, NodeKey, Step, Atoi;
    var first, second := "node.2.type", "node.02.type";
    var lines := TWO_SPELLINGS - {"nodes"};
    Spellings();
    TwoLines(lines, first, "API", API, second, "MGM", MGM);
    TwoLines(lines, second, "MGM", MGM, first, "API", API);
    assert Atoi("1") == Some(1) by {
      OneParses();
    }
    assert Value(TWO_SPELLINGS, "nodes") == "1";
  }

  lemma OneParses()
    ensures Atoi("1") == Some(1)
  {
    assert Itoa(1) == "1";
    ParseItoa(1);
  }

  /** Of two type lines for a node the last one wins. */
  lemma TwoLines(
    lines: map<string, string>, first: string, tla1: string, type1: NodeType, second: string, tla2: string, type2: NodeType)
    requires lines == TWO_SPELLINGS - {"nodes"} && first in lines && lines[first] == tla1 && second in lines && lines[second] == tla2
    requires ParseKey(first) == Some(Key(2, "type")) && ParseKey(second) == Some(Key(2, "type"))
    requires TypeFromTLA(tla1) == Some(type1) && type1 != NDB && TypeFromTLA(tla2) == Some(type2) && type2 != NDB
    ensures Steps(lines, map[], [first, second]) == Some(Progress(map[2 := UNKNOWN.(nodeType := type2)], {2}))
  {
    hide ParseKey, NodeKey, Step, Steps, TypeFromTLA;
    var p0, p1 := Progress(map[], {}), Progress(map[2 := UNKNOWN.(nodeType := type1)], {2});
    OneStep(p0, lines, first, tla1, type1);
    OneStep(p1, lines, second, tla2, type2);
    StepsSnoc(lines, map[], [], first);
    StepsSnoc(lines, map[], [first], second);
    StartsEmpty(lines);
    assert [] + [first] == [first] && [first] + [second] == [first, second];
    assert p0.cs[2 := UNKNOWN.(nodeType := type1)] == p1.cs;
    assert p1.cs[2 := p1.cs[2].(nodeType := type2)] == map[2 := UNKNOWN.(nodeType := type2)];
    assert p0.typed + {2} == p1.typed == p1.typed + {2};
  }

  lemma StartsEmpty(lines: map<string, string>)
    ensures Steps(lines, map[], []) == Some(Progress(map[], {}))
  {
  }

  lemma Spellings()
    ensures ParseKey("node.2.type") == Some(Key(2, "type")) && ParseKey("node.02.type") == Some(Key(2, "type"))
    ensures Lines(TWO_SPELLINGS) == {"node.2.type", "node.02.type"}
    ensures "node.2.type" != "node.02.type"
  {
    hide ParseKey;
    SplitsTo("2", 2, "type");
    assert "node.2.type" == "node." + "2" + "." + "type";
    assert ParseDigits("02") == Some(2) by {
      assert "02"[..1] == "0";
    }
    SplitsTo("02", 2, "type");
    assert "node.02.type" == "node." + "02" + "." + "type";
    assert "node.2.type"[5] != "node.02.type"[5];
  }

  /** An API or management node without a status line stays unconnected. */
  lemma OneStep(p: Progress, lines: map<string, string>, key: string, tla: string, nodeType: NodeType)
    requires lines == TWO_SPELLINGS - {"nodes"} && key in lines && lines[key] == tla
    requires ParseKey(key) == Some(Key(2, "type")) && TypeFromTLA(tla) == Some(nodeType) && nodeType != NDB
    requires 2 in p.cs ==> !p.cs[2].isConnected
    ensures Step(p, lines, map[], key)
         == Some(Progress(p.cs[2 := (if 2 in p.cs then p.cs[2] else UNKNOWN).(nodeType := nodeType)], p.typed + {2}))
  {
    hide ParseKey;
    assert NodeKey(2, "status") !in lines by {
      assert NodeKey(2, "status") == "node.2.status";
    }
  }
}
