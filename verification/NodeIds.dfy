/**
 Node ids: those config.ini assigns to hosts, those a pod works out for itself
 (cmd/ndb-pod-initializer/main.go), and the operator's way back from an id to a pod.
 */
module NodeIds {
  import opened Wrappers
  import opened Text
  import opened Arithmetic
  import opened NdbCluster
  import opened IniParser
  import opened IniDocument
  import opened ConfigSummary
  import opened ConfigGenerator
  import opened GeneratedConfig
  import opened ConfigPipeline
  import opened ConfigStability

  // ----- the connect string

  function ManagementHost(nc: NdbCluster, i: nat): string {
    nc.name + "-mgmd" + "-" + Itoa(i) + "." + nc.name + "-mgmd" + "." + nc.namespace + ".svc:1186"
  }

  /** The addresses of the first `n` management nodes, separated by commas. */
  function Connectstring(nc: NdbCluster, n: nat): string {
    if n == 0 then "" else if n == 1 then ManagementHost(nc, 0) else Connectstring(nc, n - 1) + "," + ManagementHost(nc, n - 1)
  }

  method GetConnectstring(nc: NdbCluster) returns (connectstring: string)
    ensures connectstring == Connectstring(nc, nc.GetManagementNodeCount())
  {
    connectstring := "";
    for i := 0 to nc.GetManagementNodeCount()
      invariant connectstring == Connectstring(nc, i)
    {
      if i > 0 {
        connectstring := connectstring + ",";
      }
      connectstring := connectstring + ManagementHost(nc, i);
    }
  }

  /** NDB_CONNECTSTRING of every pod: the operator's node id in front. */
  function PodConnectstring(nc: NdbCluster): string {
    "nodeid=147," + Connectstring(nc, nc.GetManagementNodeCount())
  }

  /** Splitting a joined text splits both sides. */
  lemma {:induction false} SplitJoin(a: string, c: char, b: string)
    ensures Split(a + [c] + b, c) == Split(a, c) + Split(b, c)
    decreases |a|
  {
    hide Split, IndexOf;
    var i := IndexOf(a, c);
    if i == |a| {
      assert forall j :: 0 <= j < |a| ==> a[j] != c;
      SplitCons(a, c, b);
      SplitOne(a, c);
    } else {
      var head, tail := a[..i], a[i + 1..];
      assert forall j :: 0 <= j < |head| ==> head[j] != c;
      assert a == head + [c] + tail;
      Regroup(head, [c], tail, b);
      SplitCons(head, c, tail + [c] + b);
      SplitCons(head, c, tail);
      SplitJoin(tail, c, b);
      assert [head] + (Split(tail, c) + Split(b, c)) == [head] + Split(tail, c) + Split(b, c);
    }
  }

  lemma Regroup(head: string, sep: string, tail: string, b: string)
    ensures head + sep + tail + sep + b == head + sep + (tail + sep + b)
  {
  }

  lemma NoChar(i: nat, c: char)
    requires !('0' <= c <= '9')
    ensures c !in Itoa(i)
  {
  }

  lemma HostHasNoComma(nc: NdbCluster, i: nat)
    requires ',' !in nc.name && ',' !in nc.namespace
    ensures ',' !in ManagementHost(nc, i)
  {
    NoChar(i, ',');
    var a := nc.name + "-mgmd" + "-" + Itoa(i);
    var b := "." + nc.name + "-mgmd" + "." + nc.namespace;
    assert ',' !in a && ',' !in b && ',' !in ".svc:1186";
    assert ManagementHost(nc, i) == a + b + ".svc:1186";
  }

  lemma {:induction false} ConnectstringParts(nc: NdbCluster, n: nat)
    requires n > 0 && ',' !in nc.name && ',' !in nc.namespace
    ensures |Split(Connectstring(nc, n), ',')| == n
    decreases n
  {
    hide ManagementHost, Split;
    HostHasNoComma(nc, n - 1);
    SplitOne(ManagementHost(nc, n - 1), ',');
    if n > 1 {
      ConnectstringParts(nc, n - 1);
      SplitJoin(Connectstring(nc, n - 1), ',', ManagementHost(nc, n - 1));
    }
  }

  /** A pod can count the management nodes from the connect string it is given. */
  lemma ManagementNodesCounted(nc: NdbCluster)
    requires ',' !in nc.name && ',' !in nc.namespace
    ensures |Split(PodConnectstring(nc), ',')| - 1 == nc.GetManagementNodeCount()
  {
    hide Connectstring, Split;
    var m := nc.GetManagementNodeCount();
    assert PodConnectstring(nc) == "nodeid=147" + [','] + Connectstring(nc, m);
    SplitJoin("nodeid=147", ',', Connectstring(nc, m));
    SplitOne("nodeid=147", ',');
    ConnectstringParts(nc, m);
  }

  // ----- the pod initializer

  datatype NodeTypeEnum = NodeTypeNDB | NodeTypeAPI | NodeTypeMGM

  /** What the initializer works out, and the text it writes to the node id file. */
  datatype Identity = Identity(nodeId: int, nodeIdPool: seq<int>, nodeType: NodeTypeEnum, nodeIdText: string)

  function FormatInt(n: int): string {
    if n < 0 then "-" + Itoa(-n) else Itoa(n)
  }

  function Join(ids: seq<int>): string {
    if ids == [] then "" else Join(ids[..|ids| - 1]) + FormatInt(ids[|ids| - 1]) + ","
  }

  /** The ids of one server: a run as long as its connection pool. */
  function ServerPool(pool: int, ordinal: int): seq<int> {
    IdRun(API_START_NODE_ID + pool * ordinal, pool)
  }

  function IdRun(first: int, count: int): seq<int> {
    if count <= 0 then [] else seq(count as nat, j => first + j)
  }

  function StartNodeId(nodeType: string, connectstring: string): int {
    if nodeType == "mgmd" then 1 else if nodeType == "ndbmtd" then |Split(connectstring, ',')| - 1 + 1 else 0
  }

  function TypeOf(nodeType: string): NodeTypeEnum {
    if nodeType == "mgmd" then NodeTypeMGM else if nodeType == "mysqld" then NodeTypeAPI else NodeTypeNDB
  }

  /** None where the initializer panics: a hostname in one piece, or a server without a pool. */
  function IdentityOf(hostname: string, connectstring: string, poolSize: string): Option<Identity> {
    var tokens := Split(hostname, '-');
    if |tokens| < 2 then None
    else
      var nodeType := tokens[|tokens| - 2];
      var ordinal := ParseInt32(tokens[|tokens| - 1]);
      if TypeOf(nodeType) == NodeTypeAPI then
        var pool := ServerPool(ParseInt32(poolSize), ordinal);
        if pool == [] then None
        else
          var text := Join(pool);
          Some(Identity(0, pool, NodeTypeAPI, if text == "" then "" else text[..|text| - 1]))
      else
        var nodeId := StartNodeId(nodeType, connectstring) + ordinal;
        Some(Identity(nodeId, [], TypeOf(nodeType), FormatInt(nodeId)))
  }

  method WriteNodeIDToFile(hostname: string, ndbConnectString: string, poolSizeEnv: string) returns (r: Option<Identity>)
    ensures r == IdentityOf(hostname, ndbConnectString, poolSizeEnv)
  {
    hide Split, ParseInt32, Join, IdRun, FormatInt;
    var tokens := Split(hostname, '-');
    if |tokens| < 2 {
      return None;
    }
    var startNodeIdOfSameNodeType := 0;
    var nodeType := NodeTypeNDB;
    match tokens[|tokens| - 2] {
      case "mgmd" =>
        startNodeIdOfSameNodeType := 1;
        nodeType := NodeTypeMGM;
      case "ndbmtd" =>
        var numOfManagementNode := |Split(ndbConnectString, ',')| - 1;
        startNodeIdOfSameNodeType := numOfManagementNode + 1;
      case "mysqld" =>
        nodeType := NodeTypeAPI;
      case _ =>
    }
    var podOrdinalIndex := ParseInt32(tokens[|tokens| - 1]);
    if nodeType == NodeTypeAPI {
      var pool := ParseInt32(poolSizeEnv);
      var nodeIdPool, nodeIdText := ServerIds(API_START_NODE_ID + pool * podOrdinalIndex, pool);
      if nodeIdText == "" {
        return None;
      }
      return Some(Identity(0, nodeIdPool, nodeType, nodeIdText[..|nodeIdText| - 1]));
    }
    var nodeId := startNodeIdOfSameNodeType + podOrdinalIndex;
    r := Some(Identity(nodeId, [], nodeType, FormatInt(nodeId)));
  }

  method ServerIds(first: int, pool: int) returns (nodeIdPool: seq<int>, nodeIdText: string)
    ensures nodeIdPool == IdRun(first, pool) && nodeIdText == Join(nodeIdPool)
    ensures nodeIdText == "" <==> nodeIdPool == []
  {
    hide FormatInt;
    nodeIdPool, nodeIdText := [], "";
    var startNodeId := first;
    var endNodeId := startNodeId + pool;
    while startNodeId < endNodeId
      invariant startNodeId == first + |nodeIdPool|
      invariant if pool > 0 then startNodeId <= endNodeId else nodeIdPool == []
      invariant nodeIdPool == seq(|nodeIdPool|, j => first + j)
      invariant nodeIdText == Join(nodeIdPool)
      invariant nodeIdText == "" <==> nodeIdPool == []
    {
      JoinSnoc(nodeIdPool, startNodeId);
      nodeIdPool := nodeIdPool + [startNodeId];
      nodeIdText := nodeIdText + (FormatInt(startNodeId) + ",");
      startNodeId := startNodeId + 1;
    }
  }

  lemma JoinSnoc(ids: seq<int>, id: int)
    ensures Join(ids + [id]) == Join(ids) + (FormatInt(id) + ",")
    ensures Join(ids + [id]) != ""
  {
    hide FormatInt;
    assert (ids + [id])[..|ids|] == ids;
    assert Join(ids) + FormatInt(id) + "," == Join(ids) + (FormatInt(id) + ",");
  }

  // ----- ids in a generated configuration

  const NODE_SECTIONS: set<string> := {"ndb_mgmd", "ndbd", "mysqld", "api"}

  function PodName(nc: NdbCluster, nodeType: string, ordinal: nat): string {
    nc.name + "-" + nodeType + "-" + Itoa(ordinal)
  }

  /** Does the section declare a node on that host? */
  predicate OnHost(s: Section, host: string) {
    "nodeid" in s && "hostname" in s && s["hostname"] == host
  }

  /** The ids that a configuration gives to nodes on a host. */
  ghost function HostIds(ini: ConfigIni, host: string): set<string> {
    set name, i | name in NODE_SECTIONS && 0 <= i < |Group(ini, name)| && OnHost(Group(ini, name)[i], host)
      :: Group(ini, name)[i]["nodeid"]
  }

  function ApiSection(nodeId: nat): Section {
    map["nodeid" := Itoa(nodeId)]
  }

  lemma ApiSectionIs(nodeId: nat)
    ensures BodyOf(ApiBlock(nodeId)) == ApiSection(nodeId)
  {
    hide ToLower, Fill, Itoa;
    LowerNodeParams();
    assert ApiBlock(nodeId).body == [Param("NodeId", Itoa(nodeId))] + [Blank];
    FillOne(map[], "NodeId", Itoa(nodeId), [Blank]);
    var s: Section := map["nodeid" := Itoa(nodeId)];
    assert map[]["nodeid" := Itoa(nodeId)] == s;
    FillSkip(s, Blank, []);
  }

  lemma OperatorSectionIs()
    ensures Fill(map[], OPERATOR_BLOCKS[1].body) == map["nodeid" := "147", "dedicated" := "1"]
  {
    hide ToLower, Fill;
    LowerNodeParams();
    LowerIs("Dedicated", "dedicated");
    assert OPERATOR_BLOCKS[1].body == [Param("NodeId", "147")] + ([Param("Dedicated", "1")] + [Blank]);
    FillOne(map[], "NodeId", "147", [Param("Dedicated", "1")] + [Blank]);
    var s: Section := map["nodeid" := "147"];
    assert map[]["nodeid" := "147"] == s;
    FillOne(s, "Dedicated", "1", [Blank]);
    FillSkip(s["dedicated" := "1"], Blank, []);
  }

  lemma ManagementSectionIs(nc: NdbCluster, suffix: string, ordinal: nat, nodeId: nat)
    ensures BodyOf(ManagementBlock(nc, suffix, ordinal, nodeId)) == NodeSection(nodeId, Hostname(nc, "mgmd", ordinal, suffix))
  {
    hide ToLower, Fill, Itoa, Hostname;
    var hostname := Hostname(nc, "mgmd", ordinal, suffix);
    assert ManagementBlock(nc, suffix, ordinal, nodeId).body
        == [Param("NodeId", Itoa(nodeId)), Param("Hostname", hostname), Param("DataDir", DATA_DIR)] + [Blank];
    NodeFilled(nodeId, hostname, [Blank]);
    FillSkip(NodeSection(nodeId, hostname), Blank, []);
  }

  /** Each node section of a generated configuration: its id, its host, its group mark. */
  datatype Node = Node(id: nat, host: Option<string>, isNew: bool)

  ghost function NodeAt(nc: NdbCluster, old': Option<ConfigSummary>, suffix: string, name: string, i: nat): Node
    requires Sizable(nc) && (name == "mysqld" ==> i < nc.MySQLSlots())
  {
    var m := nc.GetManagementNodeCount();
    SlotsAreProduct(nc);
    match name
    case "ndb_mgmd" => Node(1 + i, Some(Hostname(nc, "mgmd", i, suffix)), false)
    case "ndbd" => Node(m + 1 + i, Some(Hostname(nc, "ndbmtd", i, suffix)), IsNewDataNode(NewDataNodeStart(nc, old'), m + 1 + i))
    case "mysqld" =>
      Node(API_START_NODE_ID + i, Some(Hostname(nc, "mysqld", i / nc.GetMySQLServerConnectionPoolSize(), suffix)), false)
    case _ => Node(if i == 0 then OPERATOR_NODE_ID else API_START_NODE_ID + nc.MySQLSlots() + i - 1, None, false)
  }

  function NodeCount(nc: NdbCluster, name: string): int {
    match name
    case "ndb_mgmd" => nc.GetManagementNodeCount()
    case "ndbd" => nc.spec.dataNode.nodeCount
    case "mysqld" => nc.MySQLSlots()
    case _ => nc.spec.freeAPISlots + 1
  }

  ghost predicate Declares(s: Section, node: Node) {
    && "nodeid" in s && s["nodeid"] == Itoa(node.id)
    && ("hostname" in s <==> node.host.Some?)
    && (node.host.Some? ==> s["hostname"] == node.host.value)
    && ("nodegroup" in s <==> node.isNew)
    && (node.isNew ==> s["nodegroup"] == "65536")
  }

  lemma ManagementDeclared(nc: NdbCluster, suffix: string, i: nat)
    requires i < nc.GetManagementNodeCount()
    ensures Declares(Bodies(ManagementBlocks(nc, suffix, nc.GetManagementNodeCount()))[i],
                     Node(1 + i, Some(Hostname(nc, "mgmd", i, suffix)), false))
  {
    hide Hostname, Itoa, Fill;
    assert ManagementBlocks(nc, suffix, nc.GetManagementNodeCount())[i] == ManagementBlock(nc, suffix, i, 1 + i);
    ManagementSectionIs(nc, suffix, i, 1 + i);
  }

  lemma DataNodeDeclared(nc: NdbCluster, suffix: string, start: int, first: nat, count: nat, i: nat)
    requires i < count
    ensures Declares(Bodies(DataNodeBlocks(nc, suffix, start, first, count))[i],
                     Node(first + i, Some(Hostname(nc, "ndbmtd", i, suffix)), IsNewDataNode(start, first + i)))
  {
    hide Hostname, Itoa, Fill;
    assert DataNodeBlocks(nc, suffix, start, first, count)[i] == DataNodeBlock(nc, suffix, start, i, first + i);
    DataNodeSectionIs(nc, suffix, start, i, first + i);
  }

  lemma SlotIs(nc: NdbCluster, suffix: string, i: nat)
    requires SlotsFit(nc) && i < nc.MySQLSlots() && nc.GetMySQLServerConnectionPoolSize() > 0
    ensures Bodies(ServerBlocks(nc, suffix))[i]
         == BodyOf(MysqldBlock(nc, suffix, i / nc.GetMySQLServerConnectionPoolSize(), API_START_NODE_ID + i))
  {
    hide BodyOf, MysqldBlock;
    SlotsAreProduct(nc);
  }

  lemma ServerSectionDeclares(nc: NdbCluster, suffix: string, ordinal: nat, nodeId: nat)
    ensures Declares(BodyOf(MysqldBlock(nc, suffix, ordinal, nodeId)), Node(nodeId, Some(Hostname(nc, "mysqld", ordinal, suffix)), false))
  {
    hide Itoa, Hostname, Fill, BodyOf;
    MysqldSectionIs(nc, suffix, ordinal, nodeId);
  }

  lemma OperatorIdText()
    ensures Itoa(OPERATOR_NODE_ID) == "147"
  {
    assert Itoa(14) == Itoa(1) + "4" == "14";
    assert Itoa(147) == Itoa(14) + "7";
  }

  lemma ApiDeclared(nc: NdbCluster, i: nat)
    requires Sizable(nc) && i <= nc.spec.freeAPISlots
    ensures nc.MySQLSlots() >= 0
    ensures Declares(([Fill(map[], OPERATOR_BLOCKS[1].body)] + Bodies(FreeBlocks(nc)))[i],
                     Node(if i == 0 then OPERATOR_NODE_ID else API_START_NODE_ID + nc.MySQLSlots() + i - 1, None, false))
  {
    hide Fill, Itoa;
    SlotsAreProduct(nc);
    if i == 0 {
      OperatorSectionIs();
      OperatorIdText();
    } else {
      var id := API_START_NODE_ID + nc.MySQLSlots() + (i - 1);
      assert FreeBlocks(nc)[i - 1] == ApiBlock(id);
      ApiSectionIs(id);
    }
  }

  lemma SlotsNotNegative(nc: NdbCluster)
    requires SlotsFit(nc)
    ensures nc.MySQLSlots() >= 0
  {
    SlotsAreProduct(nc);
  }

  lemma ServerNodeDeclared(nc: NdbCluster, old': Option<ConfigSummary>, suffix: string, i: nat)
    requires Sizable(nc) && i < nc.MySQLSlots()
    ensures i < |Bodies(ServerBlocks(nc, suffix))|
    ensures Declares(Bodies(ServerBlocks(nc, suffix))[i], NodeAt(nc, old', suffix, "mysqld", i))
  {
    hide Itoa, Hostname, Declares, MysqldBlock, Bodies, BodyOf, ServerBlocks, SlotsFit, Int32;
    Sizes(nc, old', suffix);
    PoolFits(nc);
    SlotIs(nc, suffix, i);
    ServerSectionDeclares(nc, suffix, i / nc.GetMySQLServerConnectionPoolSize(), API_START_NODE_ID + i);
  }

  /** config.ini declares the nodes above, in this order, and no others. */
  lemma NodesDeclared(nc: NdbCluster, old': Option<ConfigSummary>, suffix: string, name: string)
    requires Sizable(nc) && ConfigVersion(old') >= 0 && name in NODE_SECTIONS
    ensures var group := Group(GeneratedIni(nc, old', suffix), name);
            && |group| == NodeCount(nc, name)
            && forall i :: 0 <= i < |group| ==> Declares(group[i], NodeAt(nc, old', suffix, name, i))
  {
    hide GeneratedIni, Bodies, BodyOf, ManagementBlocks, DataNodeBlocks, ServerBlocks, FreeBlocks, Hostname, Itoa, Declares, Fill, NewDataNodeStart, SlotsFit, Int32;
    SlotsNotNegative(nc);
    GeneratedGroups(nc, old', suffix, name);
    var m := nc.GetManagementNodeCount();
    var group := Group(GeneratedIni(nc, old', suffix), name);
    Sizes(nc, old', suffix);
    forall i | 0 <= i < |group| ensures Declares(group[i], NodeAt(nc, old', suffix, name, i)) {
      match name
      case "ndb_mgmd" => ManagementDeclared(nc, suffix, i);
      case "ndbd" => DataNodeDeclared(nc, suffix, NewDataNodeStart(nc, old'), m + 1, nc.spec.dataNode.nodeCount, i);
      case "mysqld" => ServerNodeDeclared(nc, old', suffix, i);
      case _ => ApiDeclared(nc, i);
    }
  }

  lemma Sizes(nc: NdbCluster, old': Option<ConfigSummary>, suffix: string)
    requires Sizable(nc)
    ensures |Bodies(ManagementBlocks(nc, suffix, nc.GetManagementNodeCount()))| == nc.GetManagementNodeCount()
    ensures |Bodies(DataNodeBlocks(nc, suffix, NewDataNodeStart(nc, old'), nc.GetManagementNodeCount() + 1, nc.spec.dataNode.nodeCount))|
         == nc.spec.dataNode.nodeCount
    ensures |Bodies(ServerBlocks(nc, suffix))| == nc.MySQLSlots()
    ensures |Bodies(FreeBlocks(nc))| == nc.spec.freeAPISlots
  {
    hide Itoa, Hostname, Fill;
    SlotsAreProduct(nc);
  }

  // ----- no id twice

  lemma IdsOfNodesDiffer(nc: NdbCluster, old': Option<ConfigSummary>, suffix: string, n1: string, i1: nat, n2: string, i2: nat)
    requires Sizable(nc) && n1 in NODE_SECTIONS && n2 in NODE_SECTIONS
    requires i1 < NodeCount(nc, n1) && i2 < NodeCount(nc, n2)
    requires NodeAt(nc, old', suffix, n1, i1).id == NodeAt(nc, old', suffix, n2, i2).id
    ensures n1 == n2 && i1 == i2
  {
    hide Hostname, SlotsFit;
    SlotsAreProduct(nc);
  }

  /**
   No two nodes of a generated configuration have the same id. The bound of 144 on data nodes,
   which the schema enforces, keeps them below the operator's own id.
   */
  lemma IdsAreDistinct(nc: NdbCluster, old': Option<ConfigSummary>, suffix: string, n1: string, i1: nat, n2: string, i2: nat)
    requires Sizable(nc) && ConfigVersion(old') >= 0
    requires n1 in NODE_SECTIONS && n2 in NODE_SECTIONS
    requires var ini := GeneratedIni(nc, old', suffix); i1 < |Group(ini, n1)| && i2 < |Group(ini, n2)|
    ensures var s1, s2 := Group(GeneratedIni(nc, old', suffix), n1)[i1], Group(GeneratedIni(nc, old', suffix), n2)[i2];
            "nodeid" in s1 && "nodeid" in s2 && (s1["nodeid"] == s2["nodeid"] ==> n1 == n2 && i1 == i2)
  {
    hide GeneratedIni, NodeAt, Itoa, Sizable, Hostname;
    NodesDeclared(nc, old', suffix, n1);
    NodesDeclared(nc, old', suffix, n2);
    var d1, d2 := NodeAt(nc, old', suffix, n1, i1), NodeAt(nc, old', suffix, n2, i2);
    if Itoa(d1.id) == Itoa(d2.id) {
      ItoaInjective(d1.id, d2.id);
      IdsOfNodesDiffer(nc, old', suffix, n1, i1, n2, i2);
    }
  }

  // ----- hosts and pods

  /** A host name determines the type and the ordinal of its pod. */
  lemma HostnameInjective(nc: NdbCluster, t1: string, o1: nat, t2: string, o2: nat, suffix: string)
    requires NodeTypeName(t1) && NodeTypeName(t2)
    requires Hostname(nc, t1, o1, suffix) == Hostname(nc, t2, o2, suffix)
    ensures t1 == t2 && o1 == o2
  {
    hide Itoa, Hostname;
    var front := nc.name + "-";
    var r1, r2 := ServiceHost(nc, t1, suffix), ServiceHost(nc, t2, suffix);
    var x1, x2 := Itoa(o1) + ['.'] + r1, Itoa(o2) + ['.'] + r2;
    HostnameShape(nc, t1, o1, suffix);
    HostnameShape(nc, t2, o2, suffix);
    SameRest(front, t1 + ['-'] + x1, t2 + ['-'] + x2);
    SameFirstPart(t1, t2, '-', x1, x2);
    NoChar(o1, '.');
    NoChar(o2, '.');
    SameFirstPart(Itoa(o1), Itoa(o2), '.', r1, r2);
    ItoaInjective(o1, o2);
  }

  function ServiceHost(nc: NdbCluster, nodeType: string, suffix: string): string {
    nc.name + "-" + nodeType + "." + suffix
  }

  lemma HostnameShape(nc: NdbCluster, nodeType: string, ordinal: nat, suffix: string)
    ensures Hostname(nc, nodeType, ordinal, suffix)
         == (nc.name + "-") + (nodeType + ['-'] + (Itoa(ordinal) + ['.'] + ServiceHost(nc, nodeType, suffix)))
  {
    hide Itoa;
    var o, r := Itoa(ordinal), ServiceHost(nc, nodeType, suffix);
    calc {
      Hostname(nc, nodeType, ordinal, suffix);
      (nc.name + "-") + nodeType + "-" + o + "." + r;
      (nc.name + "-") + (nodeType + ['-'] + (o + ['.'] + r));
    }
  }

  lemma SameRest(a: string, b: string, c: string)
    requires a + b == a + c
    ensures b == c
  {
    assert b == (a + b)[|a|..] && c == (a + c)[|a|..];
  }

  lemma SameFirstPart(a1: string, a2: string, c: char, b1: string, b2: string)
    requires c !in a1 && c !in a2 && a1 + [c] + b1 == a2 + [c] + b2
    ensures a1 == a2 && b1 == b2
  {
    IndexOfConcat(a1, c, b1);
    IndexOfConcat(a2, c, b2);
    var s := a1 + [c] + b1;
    assert a1 == s[..|a1|] && a2 == s[..|a2|];
    assert b1 == s[|a1| + 1..] && b2 == s[|a2| + 1..];
  }

  /** The identity a pod of the cluster works out for itself. */
  ghost function PodIdentity(nc: NdbCluster, nodeType: string, ordinal: nat): Option<Identity>
    requires nc.GetMySQLServerConnectionPoolSize() >= 0
  {
    IdentityOf(PodName(nc, nodeType, ordinal), PodConnectstring(nc), Itoa(nc.GetMySQLServerConnectionPoolSize()))
  }

  lemma PodTokens(nc: NdbCluster, nodeType: string, ordinal: nat)
    requires NodeTypeName(nodeType)
    ensures var tokens := Split(PodName(nc, nodeType, ordinal), '-');
            |tokens| >= 2 && tokens[|tokens| - 1] == Itoa(ordinal) && tokens[|tokens| - 2] == nodeType
  {
    hide Split, Itoa;
    assert PodName(nc, nodeType, ordinal) == nc.name + ['-'] + (nodeType + ['-'] + Itoa(ordinal));
    SplitJoin(nc.name, '-', nodeType + ['-'] + Itoa(ordinal));
    SplitJoin(nodeType, '-', Itoa(ordinal));
    NoChar(ordinal, '-');
    SplitOne(Itoa(ordinal), '-');
    SplitOne(nodeType, '-');
  }

  /** What a pod of each type works out. */
  lemma PodIdentityIs(nc: NdbCluster, nodeType: string, ordinal: nat)
    requires NodeTypeName(nodeType) && ordinal <= MAX_INT32 && 0 <= nc.GetMySQLServerConnectionPoolSize() <= MAX_INT32
    requires ',' !in nc.name && ',' !in nc.namespace
    ensures var id := PodIdentity(nc, nodeType, ordinal);
            match nodeType
            case "mgmd" => id == Some(Identity(1 + ordinal, [], NodeTypeMGM, Itoa(1 + ordinal)))
            case "ndbmtd" =>
              var n := nc.GetManagementNodeCount() + 1 + ordinal;
              id == Some(Identity(n, [], NodeTypeNDB, Itoa(n)))
            case _ =>
              var pool := ServerPool(nc.GetMySQLServerConnectionPoolSize(), ordinal);
              (id.None? <==> pool == []) && (id.Some? ==> id.value.nodeIdPool == pool && id.value.nodeType == NodeTypeAPI)
  {
    hide Split, Itoa, PodName, PodConnectstring, ParseInt32, Join;
    PodTokens(nc, nodeType, ordinal);
    ManagementNodesCounted(nc);
    ParseItoa(ordinal);
    ParseItoa(nc.GetMySQLServerConnectionPoolSize());
  }

  /** The ids a pod claims. */
  function Claims(id: Identity): set<string> {
    if id.nodeType == NodeTypeAPI then set n | n in id.nodeIdPool :: FormatInt(n) else {FormatInt(id.nodeId)}
  }

  ghost predicate PodExists(nc: NdbCluster, nodeType: string, ordinal: nat) {
    match nodeType
    case "mgmd" => ordinal < nc.GetManagementNodeCount()
    case "ndbmtd" => ordinal < nc.spec.dataNode.nodeCount
    case "mysqld" => ordinal < nc.GetMySQLServerMaxNodeCount() && nc.GetMySQLServerConnectionPoolSize() > 0
    case _ => false
  }

  function SectionName(nodeType: string): string {
    match nodeType
    case "mgmd" => "ndb_mgmd"
    case "ndbmtd" => "ndbd"
    case _ => "mysqld"
  }

  /** On the host of a pod there are nodes only of the pod's own type. */
  lemma OnlyOwnType(nc: NdbCluster, old': Option<ConfigSummary>, suffix: string, nodeType: string, ordinal: nat, name: string, i: nat)
    requires Sizable(nc) && NodeTypeName(nodeType) && name in NODE_SECTIONS && i < NodeCount(nc, name)
    ensures NodeAt(nc, old', suffix, name, i).host == Some(Hostname(nc, nodeType, ordinal, suffix)) <==>
              && name == SectionName(nodeType)
              && (nodeType == "mysqld" ==>
                    nc.GetMySQLServerConnectionPoolSize() > 0 && i / nc.GetMySQLServerConnectionPoolSize() == ordinal)
              && (nodeType != "mysqld" ==> i == ordinal)
  {
    hide Hostname;
    SlotsAreProduct(nc);
    var node := NodeAt(nc, old', suffix, name, i);
    if node.host == Some(Hostname(nc, nodeType, ordinal, suffix)) {
      match name
      case "ndb_mgmd" => HostnameInjective(nc, "mgmd", i, nodeType, ordinal, suffix);
      case "ndbd" => HostnameInjective(nc, "ndbmtd", i, nodeType, ordinal, suffix);
      case "mysqld" => HostnameInjective(nc, "mysqld", i / nc.GetMySQLServerConnectionPoolSize(), nodeType, ordinal, suffix);
      case _ =>
    }
  }

  /** Among the nodes of the pod's type, one on its host has the id. */
  ghost predicate HasNodeWithId(nc: NdbCluster, old': Option<ConfigSummary>, suffix: string, nodeType: string, ordinal: nat, id: string)
    requires Sizable(nc)
  {
    var name := SectionName(nodeType);
    exists i: nat ::
      && i < NodeCount(nc, name)
      && NodeAt(nc, old', suffix, name, i).host == Some(Hostname(nc, nodeType, ordinal, suffix))
      && id == Itoa(NodeAt(nc, old', suffix, name, i).id)
  }

  /** The node ids on a host, by position. */
  lemma HostIdsAre(nc: NdbCluster, old': Option<ConfigSummary>, suffix: string, nodeType: string, ordinal: nat, id: string)
    requires Sizable(nc) && ConfigVersion(old') >= 0 && NodeTypeName(nodeType) && PodExists(nc, nodeType, ordinal)
    ensures id in HostIds(GeneratedIni(nc, old', suffix), Hostname(nc, nodeType, ordinal, suffix))
       <==> HasNodeWithId(nc, old', suffix, nodeType, ordinal, id)
  {
    hide GeneratedIni, Itoa, Hostname;
    SlotsAreProduct(nc);
    var ini, host := GeneratedIni(nc, old', suffix), Hostname(nc, nodeType, ordinal, suffix);
    var name := SectionName(nodeType);
    NodesDeclared(nc, old', suffix, name);
    if id in HostIds(ini, host) {
      var n, i :| n in NODE_SECTIONS && 0 <= i < |Group(ini, n)| && OnHost(Group(ini, n)[i], host) && id == Group(ini, n)[i]["nodeid"];
      NodesDeclared(nc, old', suffix, n);
      OnlyOwnType(nc, old', suffix, nodeType, ordinal, n, i);
    }
    if i: nat :| && i < NodeCount(nc, name)
                 && NodeAt(nc, old', suffix, name, i).host == Some(host)
                 && id == Itoa(NodeAt(nc, old', suffix, name, i).id)
    {
      assert OnHost(Group(ini, name)[i], host);
    }
  }

  lemma SlotsOfServer(max: nat, pool: nat, ordinal: nat, i: int)
    requires pool > 0 && ordinal < max
    ensures 0 <= i < max * pool && i / pool == ordinal <==> pool * ordinal <= i < pool * ordinal + pool
  {
    ProductGrows(ordinal + 1, max, pool);
    assert (ordinal + 1) * pool == pool * ordinal + pool;
    if pool * ordinal <= i < pool * ordinal + pool {
      QuotientOf(ordinal, pool, i - pool * ordinal);
      assert ordinal * pool == pool * ordinal;
    }
    if 0 <= i && i / pool == ordinal {
      assert i == i / pool * pool + i % pool;
    }
  }

  /**
   A pod claims exactly the ids that config.ini gives to its host: one for a management or a
   data node, a whole pool for a MySQL server.
   */
  lemma InitializerAgrees(nc: NdbCluster, old': Option<ConfigSummary>, suffix: string, nodeType: string, ordinal: nat)
    requires Sizable(nc) && ConfigVersion(old') >= 0 && NodeTypeName(nodeType) && PodExists(nc, nodeType, ordinal)
    requires ',' !in nc.name && ',' !in nc.namespace
    requires nc.GetMySQLServerConnectionPoolSize() <= MAX_INT32 && ordinal <= MAX_INT32
    ensures PodIdentity(nc, nodeType, ordinal).Some?
    ensures Claims(PodIdentity(nc, nodeType, ordinal).value)
         == HostIds(GeneratedIni(nc, old', suffix), Hostname(nc, nodeType, ordinal, suffix))
  {
    hide GeneratedIni, Itoa, Hostname, HostIds, Claims, PodIdentity, HasNodeWithId;
    PodIdentityIs(nc, nodeType, ordinal);
    ServerPoolNonempty(nc, nodeType, ordinal);
    var claims := Claims(PodIdentity(nc, nodeType, ordinal).value);
    var host := Hostname(nc, nodeType, ordinal, suffix);
    forall id ensures id in claims <==> id in HostIds(GeneratedIni(nc, old', suffix), host) {
      HostIdsAre(nc, old', suffix, nodeType, ordinal, id);
      if nodeType == "mysqld" {
        ServerClaims(nc, old', suffix, ordinal, id);
      } else {
        NodeClaims(nc, old', suffix, nodeType, ordinal, id);
      }
    }
  }

  lemma ServerPoolNonempty(nc: NdbCluster, nodeType: string, ordinal: nat)
    requires PodExists(nc, nodeType, ordinal)
    ensures nodeType == "mysqld" ==> ServerPool(nc.GetMySQLServerConnectionPoolSize(), ordinal) != []
  {
    if nodeType == "mysqld" {
      assert |ServerPool(nc.GetMySQLServerConnectionPoolSize(), ordinal)| == nc.GetMySQLServerConnectionPoolSize();
    }
  }

  lemma NodeClaims(nc: NdbCluster, old': Option<ConfigSummary>, suffix: string, nodeType: string, ordinal: nat, id: string)
    requires Sizable(nc) && (nodeType == "mgmd" || nodeType == "ndbmtd") && PodExists(nc, nodeType, ordinal)
    requires ',' !in nc.name && ',' !in nc.namespace
    requires 0 <= nc.GetMySQLServerConnectionPoolSize() <= MAX_INT32 && ordinal <= MAX_INT32
    ensures PodIdentity(nc, nodeType, ordinal).Some?
    ensures id in Claims(PodIdentity(nc, nodeType, ordinal).value) <==> HasNodeWithId(nc, old', suffix, nodeType, ordinal, id)
  {
    hide Itoa, Hostname, PodIdentity, Sizable;
    var name := SectionName(nodeType);
    PodIdentityIs(nc, nodeType, ordinal);
    forall i: nat | i < NodeCount(nc, name)
      ensures NodeAt(nc, old', suffix, name, i).host == Some(Hostname(nc, nodeType, ordinal, suffix)) <==> i == ordinal
    {
      OnlyOwnType(nc, old', suffix, nodeType, ordinal, name, i);
    }
    assert ordinal < NodeCount(nc, name);
    assert id in Claims(PodIdentity(nc, nodeType, ordinal).value) <==> id == Itoa(NodeAt(nc, old', suffix, name, ordinal).id);
  }

  lemma ServerClaims(nc: NdbCluster, old': Option<ConfigSummary>, suffix: string, ordinal: nat, id: string)
    requires Sizable(nc) && PodExists(nc, "mysqld", ordinal)
    requires ',' !in nc.name && ',' !in nc.namespace
    requires nc.GetMySQLServerConnectionPoolSize() <= MAX_INT32 && ordinal <= MAX_INT32
    ensures PodIdentity(nc, "mysqld", ordinal).Some?
    ensures id in Claims(PodIdentity(nc, "mysqld", ordinal).value) <==> HasNodeWithId(nc, old', suffix, "mysqld", ordinal, id)
  {
    hide Itoa, Hostname, PodIdentity;
    PodIdentityIs(nc, "mysqld", ordinal);
    SlotsAreProduct(nc);
    ServerPoolNonempty(nc, "mysqld", ordinal);
    var max, p := nc.GetMySQLServerMaxNodeCount(), nc.GetMySQLServerConnectionPoolSize();
    var pool := ServerPool(p, ordinal);
    assert PodIdentity(nc, "mysqld", ordinal).value.nodeIdPool == pool;
    assert 0 <= p * ordinal;
    if id in Claims(PodIdentity(nc, "mysqld", ordinal).value) {
      var n :| n in pool && id == FormatInt(n);
      var j :| 0 <= j < |pool| && pool[j] == n;
      var i := p * ordinal + j;
      SlotsOfServer(max, p, ordinal, i);
      OnlyOwnType(nc, old', suffix, "mysqld", ordinal, "mysqld", i);
      assert NodeAt(nc, old', suffix, "mysqld", i).id == n;
    }
    if i: nat :| && i < NodeCount(nc, "mysqld")
                 && NodeAt(nc, old', suffix, "mysqld", i).host == Some(Hostname(nc, "mysqld", ordinal, suffix))
                 && id == Itoa(NodeAt(nc, old', suffix, "mysqld", i).id)
    {
      OnlyOwnType(nc, old', suffix, "mysqld", ordinal, "mysqld", i);
      SlotsOfServer(max, p, ordinal, i);
      var j := i - p * ordinal;
      assert pool[j] == API_START_NODE_ID + i;
      assert FormatInt(pool[j]) == id;
    }
  }

  // ----- the way back, and changes over time

  /** The pod the operator deletes to restart a data node. */
  function PodOfDataNode(nc: NdbCluster, nodeId: int, numOfManagementNodes: int): string {
    nc.name + "-ndbmtd" + "-" + FormatInt(nodeId - 1 - numOfManagementNodes)
  }

  /** It is the one whose initializer claims that id. */
  lemma OperatorFindsPod(nc: NdbCluster, ordinal: nat, nodeId: int)
    requires ordinal <= MAX_INT32 && 0 <= nc.GetMySQLServerConnectionPoolSize() <= MAX_INT32
    requires ',' !in nc.name && ',' !in nc.namespace && nodeId > nc.GetManagementNodeCount()
    ensures PodIdentity(nc, "ndbmtd", ordinal).Some?
    ensures PodOfDataNode(nc, nodeId, nc.GetManagementNodeCount()) == PodName(nc, "ndbmtd", ordinal)
       <==> PodIdentity(nc, "ndbmtd", ordinal).value.nodeId == nodeId
  {
    hide Itoa, PodIdentity;
    PodIdentityIs(nc, "ndbmtd", ordinal);
    var o := nodeId - 1 - nc.GetManagementNodeCount();
    var front := nc.name + "-ndbmtd" + "-";
    assert PodName(nc, "ndbmtd", ordinal) == front + Itoa(ordinal);
    assert PodOfDataNode(nc, nodeId, nc.GetManagementNodeCount()) == front + Itoa(o);
    assert (front + Itoa(ordinal))[|front|..] == Itoa(ordinal) && (front + Itoa(o))[|front|..] == Itoa(o);
    if Itoa(o) == Itoa(ordinal) {
      ItoaInjective(o, ordinal);
    }
  }

  /**
   When data nodes are added, every management node and every old data node keeps its id and
   its host, and exactly the added data nodes are marked with node group 65536.
   */
  lemma IdsStayPut(a: NdbCluster, b: NdbCluster, olda: Option<ConfigSummary>, cs: ConfigSummary, suffix: string, name: string, i: nat)
    requires Sizable(a) && Sizable(b) && ConfigVersion(olda) >= 0 && ConfigVersion(Some(cs)) >= 0
    requires b.name == a.name && b.spec.redundancyLevel == a.spec.redundancyLevel
    requires cs.numOfDataNodes == a.spec.dataNode.nodeCount <= b.spec.dataNode.nodeCount
    requires name == "ndb_mgmd" || name == "ndbd"
    requires i < NodeCount(b, name)
    ensures NodeCount(a, name) <= |Group(GeneratedIni(b, Some(cs), suffix), name)| == NodeCount(b, name)
    ensures |Group(GeneratedIni(a, olda, suffix), name)| == NodeCount(a, name)
    ensures var sb := Group(GeneratedIni(b, Some(cs), suffix), name)[i];
            && "nodeid" in sb && "hostname" in sb
            && ("nodegroup" in sb <==> name == "ndbd" && i >= a.spec.dataNode.nodeCount)
            && ("nodegroup" in sb ==> sb["nodegroup"] == "65536")
            && (i < NodeCount(a, name) ==>
                  var sa := Group(GeneratedIni(a, olda, suffix), name)[i];
                  && "nodeid" in sa && sa["nodeid"] == sb["nodeid"]
                  && "hostname" in sa && sa["hostname"] == sb["hostname"])
  {
    hide GeneratedIni, Itoa;
    NodesDeclared(a, olda, suffix, name);
    NodesDeclared(b, Some(cs), suffix, name);
    NewExactly(a, b, cs, i);
  }

  lemma NewExactly(a: NdbCluster, b: NdbCluster, cs: ConfigSummary, i: nat)
    requires Sizable(a) && Sizable(b) && b.spec.redundancyLevel == a.spec.redundancyLevel
    requires cs.numOfDataNodes == a.spec.dataNode.nodeCount <= b.spec.dataNode.nodeCount
    ensures i < b.spec.dataNode.nodeCount ==>
              (IsNewDataNode(NewDataNodeStart(b, Some(cs)), b.GetManagementNodeCount() + 1 + i) <==> i >= a.spec.dataNode.nodeCount)
  {
    SmallInt32(b.GetManagementNodeCount() + cs.numOfDataNodes);
    SmallInt32(b.GetManagementNodeCount() + cs.numOfDataNodes + 1);
  }
}
