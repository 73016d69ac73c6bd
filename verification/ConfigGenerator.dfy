/**
 Generation of config.ini and my.cnf (pkg/ndbconfig/config_generators.go). The text is
 described as blocks; the template, executed line by line with its counters, is proved to
 produce exactly the text of those blocks.
 */
module ConfigGenerator {
  import opened Wrappers
  import opened Text
  import opened Arithmetic
  import opened NdbCluster
  import opened IniDocument
  import opened ConfigSummary

  const OPERATOR_NODE_ID := 147
  const API_START_NODE_ID := 148

  const BANNER := "Auto generated config.ini - DO NOT EDIT"
  const DATA_DIR := "/var/lib/ndb/data"

  // ----- names in a sorted order, as templates iterate over maps

  /** Go's order on strings. */
  predicate StringLeq(a: string, b: string) {
    a == "" || (b != "" && (a[0] < b[0] || (a[0] == b[0] && StringLeq(a[1..], b[1..]))))
  }

  lemma {:induction false} StringLeqTotal(a: string, b: string)
    ensures StringLeq(a, b) || StringLeq(b, a)
    ensures StringLeq(a, b) && StringLeq(b, a) ==> a == b
  {
    if a != "" && b != "" && a[0] == b[0] {
      StringLeqTotal(a[1..], b[1..]);
      assert a == [a[0]] + a[1..] && b == [b[0]] + b[1..];
    }
  }

  lemma {:induction false} StringLeqTransitive(a: string, b: string, c: string)
    requires StringLeq(a, b) && StringLeq(b, c)
    ensures StringLeq(a, c)
  {
    if a != "" && a[0] == b[0] == c[0] {
      StringLeqTransitive(a[1..], b[1..], c[1..]);
    }
  }

  ghost predicate IsLeast(k: string, keys: set<string>) {
    k in keys && forall o :: o in keys ==> StringLeq(k, o)
  }

  lemma {:induction false} LeastExists(keys: set<string>)
    requires keys != {}
    ensures exists k :: IsLeast(k, keys)
  {
    var x :| x in keys;
    if keys == {x} {
      StringLeqTotal(x, x);
      assert IsLeast(x, keys);
    } else {
      var rest := keys - {x};
      LeastExists(rest);
      var y :| IsLeast(y, rest);
      StringLeqTotal(x, y);
      StringLeqTotal(x, x);
      if StringLeq(x, y) {
        forall o | o in keys ensures StringLeq(x, o) {
          if o != x {
            StringLeqTransitive(x, y, o);
          }
        }
        assert IsLeast(x, keys);
      } else {
        assert IsLeast(y, keys);
      }
    }
  }

  ghost function Least(keys: set<string>): (k: string)
    requires keys != {}
    ensures IsLeast(k, keys)
  {
    LeastExists(keys);
    var k :| IsLeast(k, keys);
    k
  }

  /** The keys in ascending order, each once. */
  ghost function SortedKeys(keys: set<string>): seq<string>
  {
    if keys == {} then [] else var k := Least(keys); [k] + SortedKeys(keys - {k})
  }

  /** `sort.Strings` on the keys of a map. */
  method SortKeys(keys: set<string>) returns (sorted: seq<string>)
    ensures sorted == SortedKeys(keys)
  {
    sorted := [];
    var rest := keys;
    while rest != {}
      invariant SortedKeys(keys) == sorted + SortedKeys(rest)
      decreases rest
    {
      var k :| k in rest;
      var others := rest - {k};
      StringLeqTotal(k, k);
      while others != {}
        invariant others <= rest && k in rest
        invariant forall o :: o in rest && o !in others ==> StringLeq(k, o)
        decreases others
      {
        var o :| o in others;
        StringLeqTotal(o, o);
        StringLeqTotal(k, o);
        if StringLeq(o, k) {
          forall p | p in rest && p !in others ensures StringLeq(o, p) {
            StringLeqTransitive(o, k, p);
          }
          k := o;
        }
        others := others - {o};
      }
      StringLeqTotal(k, Least(rest));
      assert k == Least(rest);
      sorted := sorted + [k];
      rest := rest - {k};
    }
  }

  // ----- the blocks of config.ini

  ghost function Params(config: map<string, string>, keys: seq<string>): seq<Line>
    requires forall k :: k in keys ==> k in config
  {
    if keys == [] then [] else [Param(keys[0], config[keys[0]])] + Params(config, keys[1..])
  }

  lemma {:induction false} SortedKeysAreKeys(keys: set<string>)
    ensures forall k :: k in SortedKeys(keys) <==> k in keys
    ensures |SortedKeys(keys)| == |keys|
  {
    if keys != {} {
      var k := Least(keys);
      SortedKeysAreKeys(keys - {k});
    }
  }

  ghost function ConfigParams(config: map<string, string>): seq<Line> {
    SortedKeysAreKeys(config.Keys);
    Params(config, SortedKeys(config.Keys))
  }

  function ConfigVersion(old': Option<ConfigSummary>): int {
    if old'.None? then 1 else Int32(old'.value.mySQLClusterConfigVersion + 1)
  }

  /** The id from which on data nodes are new, 0 when none is. */
  function NewDataNodeStart(nc: NdbCluster, old': Option<ConfigSummary>): int {
    if old'.Some? && old'.value.numOfDataNodes < nc.spec.dataNode.nodeCount
    then Int32(Int32(nc.GetManagementNodeCount() + old'.value.numOfDataNodes) + 1)
    else 0
  }

  predicate IsNewDataNode(start: int, nodeId: int) {
    start != 0 && nodeId >= start
  }

  function ManagementConfig(nc: NdbCluster): map<string, string> {
    if nc.spec.managementNode.None? then map[] else nc.spec.managementNode.value.config
  }

  function SystemBody(nc: NdbCluster, version: nat): seq<Line> {
    [Param("ConfigGenerationNumber", Itoa(version)), Param("Name", nc.name), Blank]
  }

  /** [system], and [ndb_mgmd default] if there is a management configuration. */
  ghost function LeadingBlocks(nc: NdbCluster, version: nat): seq<Block> {
    if ManagementConfig(nc) == map[] then [Block("system", SystemBody(nc, version) + [Blank, Blank])]
    else
      [Block("system", SystemBody(nc, version)),
       Block("ndb_mgmd default", ConfigParams(ManagementConfig(nc)) + [Blank])]
  }

  function OperatorParams(nc: NdbCluster): seq<Line>
    requires nc.spec.redundancyLevel >= 0
  {
    [Param("NoOfReplicas", Itoa(nc.spec.redundancyLevel)),
     Remark("Use a fixed ServerPort for all data nodes"),
     Param("ServerPort", "1186")]
    + if nc.spec.tdeSecretName != "" then [Param("EncryptedFileSystem", "1"), Blank] else []
  }

  ghost function NdbdDefaultBlock(nc: NdbCluster): Block
    requires nc.spec.redundancyLevel >= 0
  {
    Block("ndbd default", OperatorParams(nc) + ConfigParams(nc.spec.dataNode.config) + [Blank])
  }

  const TCP_DEFAULT_BLOCK := Block("tcp default", [Param("AllowUnresolvedHostnames", "1"), Blank])

  /** The DNS name of a pod of the cluster. */
  function Hostname(nc: NdbCluster, nodeType: string, ordinal: nat, suffix: string): string {
    nc.name + "-" + nodeType + "-" + Itoa(ordinal) + "." + nc.name + "-" + nodeType + "." + suffix
  }

  function ManagementBlock(nc: NdbCluster, suffix: string, ordinal: nat, nodeId: nat): Block {
    Block("ndb_mgmd",
      [Param("NodeId", Itoa(nodeId)), Param("Hostname", Hostname(nc, "mgmd", ordinal, suffix)),
       Param("DataDir", DATA_DIR), Blank])
  }

  function DataNodeBlock(nc: NdbCluster, suffix: string, start: int, ordinal: nat, nodeId: nat): Block {
    Block("ndbd",
      [Param("NodeId", Itoa(nodeId)), Param("Hostname", Hostname(nc, "ndbmtd", ordinal, suffix)),
       Param("DataDir", DATA_DIR)]
      + (if IsNewDataNode(start, nodeId) then [Param("NodeGroup", "65536")] else [])
      + [Blank])
  }

  const OPERATOR_BLOCKS := [
    Note("Dedicated API section to be used by NDB Operator"),
    Block("api", [Param("NodeId", "147"), Param("Dedicated", "1"), Blank]),
    Note("MySQLD sections to be used exclusively by MySQL Servers")
  ]

  function MysqldBlock(nc: NdbCluster, suffix: string, ordinal: nat, nodeId: nat): Block {
    Block("mysqld",
      [Param("NodeId", Itoa(nodeId)), Param("Hostname", Hostname(nc, "mysqld", ordinal, suffix)), Blank])
  }

  const API_NOTE := Note("API sections to be used by generic NDBAPI applications")

  function ApiBlock(nodeId: nat): Block {
    Block("api", [Param("NodeId", Itoa(nodeId)), Blank])
  }

  function ManagementBlocks(nc: NdbCluster, suffix: string, count: nat): (bs: seq<Block>)
    ensures |bs| == count
  {
    seq(count, i requires 0 <= i < count => ManagementBlock(nc, suffix, i, 1 + i))
  }

  function DataNodeBlocks(nc: NdbCluster, suffix: string, start: int, first: nat, count: nat): (bs: seq<Block>)
    ensures |bs| == count
  {
    seq(count, i requires 0 <= i < count => DataNodeBlock(nc, suffix, start, i, first + i))
  }

  /** Successive runs of `pool` node ids belong to the same server. */
  function MysqldBlocks(nc: NdbCluster, suffix: string, pool: nat, count: nat): (bs: seq<Block>)
    requires count > 0 ==> pool > 0
    ensures |bs| == count
  {
    seq(count, i requires 0 <= i < count => MysqldBlock(nc, suffix, i / pool, API_START_NODE_ID + i))
  }

  function ApiBlocks(first: nat, count: nat): (bs: seq<Block>)
    ensures |bs| == count
  {
    seq(count, i requires 0 <= i < count => ApiBlock(first + i))
  }

  /** Counts the template can render: none negative, and no product that wraps. */
  predicate Sizable(nc: NdbCluster) {
    Shaped(nc) && 0 <= nc.spec.freeAPISlots
  }

  predicate Shaped(nc: NdbCluster) {
    && 1 <= nc.spec.redundancyLevel <= 4
    && 1 <= nc.spec.dataNode.nodeCount <= MAX_NUMBER_OF_DATA_NODES
    && nc.spec.freeAPISlots < MAX_INT32
    && SlotsFit(nc)
  }

  predicate SlotsFit(nc: NdbCluster) {
    && 0 <= nc.GetMySQLServerMaxNodeCount() && 0 <= nc.GetMySQLServerConnectionPoolSize()
    && nc.GetMySQLServerMaxNodeCount() * nc.GetMySQLServerConnectionPoolSize() <= MAX_INT32
  }

  lemma SlotsAreProduct(nc: NdbCluster)
    requires SlotsFit(nc)
    ensures nc.MySQLSlots() == nc.GetMySQLServerMaxNodeCount() * nc.GetMySQLServerConnectionPoolSize()
    ensures 0 <= nc.MySQLSlots() <= MAX_INT32
    ensures nc.MySQLSlots() > 0 ==> nc.GetMySQLServerConnectionPoolSize() > 0
  {
    var n, p := nc.GetMySQLServerMaxNodeCount(), nc.GetMySQLServerConnectionPoolSize();
    assert 0 <= n * p;
  }

  ghost function ServerBlocks(nc: NdbCluster, suffix: string): seq<Block>
    requires SlotsFit(nc)
  {
    SlotsAreProduct(nc);
    MysqldBlocks(nc, suffix, nc.GetMySQLServerConnectionPoolSize(), nc.MySQLSlots())
  }

  ghost function FreeBlocks(nc: NdbCluster): seq<Block>
    requires Sizable(nc)
  {
    SlotsAreProduct(nc);
    ApiBlocks(API_START_NODE_ID + nc.MySQLSlots(), nc.spec.freeAPISlots)
  }

  ghost function NodeBlocks(nc: NdbCluster, old': Option<ConfigSummary>, suffix: string): seq<Block>
    requires Sizable(nc)
  {
    var m := nc.GetManagementNodeCount();
    ManagementBlocks(nc, suffix, m)
    + DataNodeBlocks(nc, suffix, NewDataNodeStart(nc, old'), m + 1, nc.spec.dataNode.nodeCount)
  }

  /** The whole of config.ini below its banner. */
  ghost function ConfigBlocks(nc: NdbCluster, old': Option<ConfigSummary>, suffix: string): seq<Block>
    requires Sizable(nc) && ConfigVersion(old') >= 0
  {
    LeadingBlocks(nc, ConfigVersion(old')) + [NdbdDefaultBlock(nc), TCP_DEFAULT_BLOCK]
    + NodeBlocks(nc, old', suffix) + OPERATOR_BLOCKS
    + ServerBlocks(nc, suffix) + [API_NOTE] + FreeBlocks(nc)
  }

  ghost function ConfigText(nc: NdbCluster, old': Option<ConfigSummary>, suffix: string): string
    requires Sizable(nc) && ConfigVersion(old') >= 0
  {
    Unlines(DocumentLines(BANNER, ConfigBlocks(nc, old', suffix)))
  }

  // ----- the id-allocating closures

  datatype NodeType = Mgmd | Ndbmtd | Mysqld | Api

  /** The two counters the closures of the template share. */
  class NodeIdAllocator {
    var ndbdMgmdStartNodeId: int
    var apiStartNodeId: int

    constructor ()
      ensures ndbdMgmdStartNodeId == 1 && apiStartNodeId == API_START_NODE_ID
    {
      ndbdMgmdStartNodeId, apiStartNodeId := 1, API_START_NODE_ID;
    }

    function NumberOfNodes(nodeType: NodeType, nc: NdbCluster): int {
      match nodeType
      case Mgmd => nc.GetManagementNodeCount()
      case Ndbmtd => nc.spec.dataNode.nodeCount
      case Mysqld => nc.MySQLSlots()
      case Api => nc.spec.freeAPISlots
    }

    function Start(nodeType: NodeType): int
      reads this
    {
      if nodeType.Mgmd? || nodeType.Ndbmtd? then ndbdMgmdStartNodeId else apiStartNodeId
    }

    /** The next ids of the type; making a slice of negative length fails the template. */
    method GetNodeIds(nodeType: NodeType, nc: NdbCluster) returns (r: Option<seq<int>>)
      modifies this
      ensures r.None? <==> NumberOfNodes(nodeType, nc) < 0
      ensures r.Some? ==> r.value == seq(NumberOfNodes(nodeType, nc) as nat, i => old(Start(nodeType)) + i)
      ensures r.Some? ==> Start(nodeType) == old(Start(nodeType)) + NumberOfNodes(nodeType, nc)
      ensures nodeType.Mgmd? || nodeType.Ndbmtd? ==> apiStartNodeId == old(apiStartNodeId)
      ensures nodeType.Mysqld? || nodeType.Api? ==> ndbdMgmdStartNodeId == old(ndbdMgmdStartNodeId)
    {
      var numberOfNodes := NumberOfNodes(nodeType, nc);
      if numberOfNodes < 0 {
        return None;
      }
      var nodeIds: seq<int> := [];
      while |nodeIds| < numberOfNodes
        invariant |nodeIds| <= numberOfNodes
        invariant nodeIds == seq(|nodeIds|, i => old(Start(nodeType)) + i)
        invariant Start(nodeType) == old(Start(nodeType)) + |nodeIds|
        invariant nodeType.Mgmd? || nodeType.Ndbmtd? ==> apiStartNodeId == old(apiStartNodeId)
        invariant nodeType.Mysqld? || nodeType.Api? ==> ndbdMgmdStartNodeId == old(ndbdMgmdStartNodeId)
      {
        if nodeType.Mgmd? || nodeType.Ndbmtd? {
          nodeIds := nodeIds + [ndbdMgmdStartNodeId];
          ndbdMgmdStartNodeId := ndbdMgmdStartNodeId + 1;
        } else {
          nodeIds := nodeIds + [apiStartNodeId];
          apiStartNodeId := apiStartNodeId + 1;
        }
      }
      r := Some(nodeIds);
    }

    /** Which pod each id of a server belongs to. */
    method GetMySQLServerNodeIds(nc: NdbCluster) returns (nodeIdToPodIdx: map<int, int>)
      requires SlotsFit(nc)
      modifies this`apiStartNodeId
      ensures apiStartNodeId == old(apiStartNodeId) + nc.MySQLSlots()
      ensures forall id :: id in nodeIdToPodIdx <==> old(apiStartNodeId) <= id < apiStartNodeId
      ensures forall id :: id in nodeIdToPodIdx ==>
                nc.GetMySQLServerConnectionPoolSize() > 0
                && nodeIdToPodIdx[id] == (id - old(apiStartNodeId)) / nc.GetMySQLServerConnectionPoolSize()
    {
      var numberOfNodeIds := nc.MySQLSlots();
      var pool := nc.GetMySQLServerConnectionPoolSize();
      ghost var max := nc.GetMySQLServerMaxNodeCount();
      SlotsAreProduct(nc);
      nodeIdToPodIdx := map[];
      var podIdx := 0;
      var i := 0;
      while i < numberOfNodeIds
        invariant 0 <= podIdx <= max && i == podIdx * pool <= numberOfNodeIds
        invariant apiStartNodeId == old(apiStartNodeId) + i
        invariant forall id :: id in nodeIdToPodIdx <==> old(apiStartNodeId) <= id < apiStartNodeId
        invariant forall id :: id in nodeIdToPodIdx ==>
                    pool > 0 && nodeIdToPodIdx[id] == (id - old(apiStartNodeId)) / pool
        decreases numberOfNodeIds - i
      {
        assert podIdx < max && podIdx * pool + pool <= numberOfNodeIds by {
          RoomForOneMore(podIdx, max, pool);
        }
        for j := 0 to pool
          invariant apiStartNodeId == old(apiStartNodeId) + i + j
          invariant forall id :: id in nodeIdToPodIdx <==> old(apiStartNodeId) <= id < apiStartNodeId
          invariant forall id :: id in nodeIdToPodIdx ==>
                      nodeIdToPodIdx[id] == (id - old(apiStartNodeId)) / pool
        {
          QuotientOf(podIdx, pool, j);
          nodeIdToPodIdx := nodeIdToPodIdx[apiStartNodeId := podIdx];
          apiStartNodeId := apiStartNodeId + 1;
        }
        podIdx := podIdx + 1;
        i := i + pool;
      }
    }
  }

  lemma RoomForOneMore(pod: nat, max: nat, pool: nat)
    requires pod * pool < max * pool
    ensures pod < max && pod * pool + pool <= max * pool
  {
    if pod >= max {
      ProductGrows(max, pod, pool);
    } else {
      ProductGrows(pod + 1, max, pool);
      assert (pod + 1) * pool == pod * pool + pool;
    }
  }

  // ----- the template

  method EmitParams(config: map<string, string>) returns (lines: seq<string>)
    ensures lines == RenderBody(ConfigParams(config))
  {
    hide SortedKeys, RenderBody;
    var keys := SortKeys(config.Keys);
    SortedKeysAreKeys(config.Keys);
    lines := [];
    assert keys[0..] == keys;
    for i := 0 to |keys|
      invariant RenderBody(Params(config, keys)) == lines + RenderBody(Params(config, keys[i..]))
    {
      NextParam(config, keys[i..]);
      assert keys[i..][1..] == keys[i + 1..];
      lines := lines + [keys[i] + "=" + config[keys[i]]];
    }
    NextParam(config, keys[|keys|..]);
  }

  lemma NextParam(config: map<string, string>, keys: seq<string>)
    requires forall k :: k in keys ==> k in config
    ensures RenderBody(Params(config, keys))
         == if keys == [] then [] else [keys[0] + "=" + config[keys[0]]] + RenderBody(Params(config, keys[1..]))
  {
  }

  lemma {:induction false} RenderBodyConcat(a: seq<Line>, b: seq<Line>)
    ensures RenderBody(a + b) == RenderBody(a) + RenderBody(b)
    decreases |a|
  {
    if a == [] {
      assert a + b == b;
    } else {
      assert (a + b)[0] == a[0] && (a + b)[1..] == a[1..] + b;
      RenderBodyConcat(a[1..], b);
    }
  }

  lemma RenderOne(b: Block)
    ensures RenderBlocks([b]) == RenderBlock(b)
  {
    assert [b][1..] == [];
  }

  method EmitLeading(nc: NdbCluster, version: nat) returns (lines: seq<string>)
    ensures lines == RenderBlocks(LeadingBlocks(nc, version))
  {
    lines := [Heading("system")] + RenderBody(SystemBody(nc, version));
    if ManagementConfig(nc) == map[] {
      RenderBodyConcat(SystemBody(nc, version), [Blank, Blank]);
      RenderOne(LeadingBlocks(nc, version)[0]);
      lines := lines + RenderBody([Blank, Blank]);
    } else {
      var params := EmitParams(ManagementConfig(nc));
      RenderBodyConcat(ConfigParams(ManagementConfig(nc)), [Blank]);
      var bs := LeadingBlocks(nc, version);
      assert bs == [bs[0]] + [bs[1]];
      RenderBlocksConcat([bs[0]], [bs[1]]);
      RenderOne(bs[0]);
      RenderOne(bs[1]);
      lines := lines + ([Heading("ndb_mgmd default")] + (params + RenderBody([Blank])));
    }
  }

  method EmitNdbdDefault(nc: NdbCluster) returns (lines: seq<string>)
    requires nc.spec.redundancyLevel >= 0
    ensures lines == RenderBlock(NdbdDefaultBlock(nc))
  {
    var params := EmitParams(nc.spec.dataNode.config);
    RenderBodyConcat(OperatorParams(nc), ConfigParams(nc.spec.dataNode.config));
    RenderBodyConcat(OperatorParams(nc) + ConfigParams(nc.spec.dataNode.config), [Blank]);
    lines := [Heading("ndbd default")] + (RenderBody(OperatorParams(nc)) + params + RenderBody([Blank]));
  }

  lemma AppendBlock(bs: seq<Block>, b: Block, all: seq<Block>)
    requires all == bs + [b]
    ensures RenderBlocks(all) == RenderBlocks(bs) + RenderBlock(b)
  {
    RenderBlocksConcat(bs, [b]);
    RenderOne(b);
  }

  method EmitManagementNodes(nc: NdbCluster, suffix: string, nodeIds: seq<int>) returns (lines: seq<string>)
    requires nodeIds == seq(nc.GetManagementNodeCount() as nat, i => 1 + i)
    ensures lines == RenderBlocks(ManagementBlocks(nc, suffix, nc.GetManagementNodeCount()))
  {
    lines := [];
    for idx := 0 to |nodeIds|
      invariant lines == RenderBlocks(ManagementBlocks(nc, suffix, idx))
    {
      var b := ManagementBlock(nc, suffix, idx, nodeIds[idx]);
      AppendBlock(ManagementBlocks(nc, suffix, idx), b, ManagementBlocks(nc, suffix, idx + 1));
      lines := lines + RenderBlock(b);
    }
  }

  method EmitDataNodes(nc: NdbCluster, old': Option<ConfigSummary>, suffix: string, nodeIds: seq<int>)
    returns (lines: seq<string>)
    requires nc.spec.dataNode.nodeCount >= 0
    requires nodeIds == seq(nc.spec.dataNode.nodeCount as nat, i => nc.GetManagementNodeCount() + 1 + i)
    ensures lines == RenderBlocks(DataNodeBlocks(nc, suffix, NewDataNodeStart(nc, old'),
                                                 nc.GetManagementNodeCount() + 1, nc.spec.dataNode.nodeCount))
  {
    var newDataNodeStartId := NewDataNodeStart(nc, old');
    ghost var first := nc.GetManagementNodeCount() + 1;
    lines := [];
    for idx := 0 to |nodeIds|
      invariant lines == RenderBlocks(DataNodeBlocks(nc, suffix, newDataNodeStartId, first, idx))
    {
      assert nodeIds[idx] == first + idx;
      var b := DataNodeBlock(nc, suffix, newDataNodeStartId, idx, nodeIds[idx]);
      AppendBlock(DataNodeBlocks(nc, suffix, newDataNodeStartId, first, idx), b,
                  DataNodeBlocks(nc, suffix, newDataNodeStartId, first, idx + 1));
      lines := lines + RenderBlock(b);
    }
  }

  /** The template ranges over the map in the order of its keys. */
  method EmitServers(nc: NdbCluster, suffix: string, nodeIdToPodIdx: map<int, int>) returns (lines: seq<string>)
    requires SlotsFit(nc)
    requires forall id :: id in nodeIdToPodIdx <==> API_START_NODE_ID <= id < API_START_NODE_ID + nc.MySQLSlots()
    requires forall id :: id in nodeIdToPodIdx ==>
               nc.GetMySQLServerConnectionPoolSize() > 0
               && nodeIdToPodIdx[id] == (id - API_START_NODE_ID) / nc.GetMySQLServerConnectionPoolSize()
    ensures lines == RenderBlocks(ServerBlocks(nc, suffix))
  {
    hide RenderBlock, RenderBlocks, MysqldBlocks, MysqldBlock, SlotsFit, Int32;
    SlotsNotNegative(nc);
    ghost var pool := nc.GetMySQLServerConnectionPoolSize();
    lines := [];
    var nodeId := API_START_NODE_ID;
    NoServers(nc, suffix, pool);
    RenderNothing();
    while nodeId in nodeIdToPodIdx
      invariant API_START_NODE_ID <= nodeId <= API_START_NODE_ID + nc.MySQLSlots()
      invariant nodeId > API_START_NODE_ID ==> pool > 0
      invariant lines == RenderBlocks(MysqldBlocks(nc, suffix, pool, nodeId - API_START_NODE_ID))
      decreases API_START_NODE_ID + nc.MySQLSlots() - nodeId
    {
      ghost var k := nodeId - API_START_NODE_ID;
      var b := MysqldBlock(nc, suffix, nodeIdToPodIdx[nodeId], nodeId);
      OneMoreServer(nc, suffix, pool, k);
      AppendBlock(MysqldBlocks(nc, suffix, pool, k), b, MysqldBlocks(nc, suffix, pool, k + 1));
      lines := lines + RenderBlock(b);
      nodeId := nodeId + 1;
    }
  }

  lemma SlotsNotNegative(nc: NdbCluster)
    requires SlotsFit(nc)
    ensures 0 <= nc.MySQLSlots() <= MAX_INT32 && 0 <= nc.GetMySQLServerConnectionPoolSize()
    ensures nc.MySQLSlots() > 0 ==> nc.GetMySQLServerConnectionPoolSize() > 0
  {
    SlotsAreProduct(nc);
  }

  lemma NoServers(nc: NdbCluster, suffix: string, pool: nat)
    ensures MysqldBlocks(nc, suffix, pool, 0) == []
  {
  }

  lemma OneMoreServer(nc: NdbCluster, suffix: string, pool: nat, k: nat)
    requires pool > 0
    ensures MysqldBlocks(nc, suffix, pool, k + 1)
         == MysqldBlocks(nc, suffix, pool, k) + [MysqldBlock(nc, suffix, k / pool, API_START_NODE_ID + k)]
  {
    hide MysqldBlock;
  }

  lemma RenderNothing()
    ensures RenderBlocks([]) == []
  {
  }

  method EmitFreeSlots(nc: NdbCluster, nodeIds: seq<int>) returns (lines: seq<string>)
    requires Sizable(nc)
    requires nodeIds == seq(nc.spec.freeAPISlots as nat, i => API_START_NODE_ID + nc.MySQLSlots() + i)
    ensures lines == RenderBlocks(FreeBlocks(nc))
  {
    hide RenderBlock, RenderBlocks, SlotsFit, Int32;
    SlotsNotNegative(nc);
    ghost var first := API_START_NODE_ID + nc.MySQLSlots();
    lines := [];
    RenderNothing();
    for idx := 0 to |nodeIds|
      invariant lines == RenderBlocks(ApiBlocks(first, idx))
    {
      var b := ApiBlock(nodeIds[idx]);
      AppendBlock(ApiBlocks(first, idx), b, ApiBlocks(first, idx + 1));
      lines := lines + RenderBlock(b);
    }
  }

  /**
   Executes the template. A negative number of free slots fails it; every other
   specification yields the text of its blocks.
   */
  method GetConfigString(nc: NdbCluster, old': Option<ConfigSummary>, suffix: string) returns (r: Option<string>)
    requires Shaped(nc) && ConfigVersion(old') >= 0
    ensures r.None? <==> nc.spec.freeAPISlots < 0
    ensures r.Some? ==> Sizable(nc) && r.value == ConfigText(nc, old', suffix)
  {
    hide RenderBlock, RenderBlocks, Unlines, DocumentLines;
    SlotsAreProduct(nc);
    var ids := new NodeIdAllocator();
    var leading := EmitLeading(nc, ConfigVersion(old'));
    var ndbd := EmitNdbdDefault(nc);
    var mgmdIds := ids.GetNodeIds(Mgmd, nc);
    var mgmd := EmitManagementNodes(nc, suffix, mgmdIds.value);
    var dataIds := ids.GetNodeIds(Ndbmtd, nc);
    var data := EmitDataNodes(nc, old', suffix, dataIds.value);
    var serverIds := ids.GetMySQLServerNodeIds(nc);
    var servers := EmitServers(nc, suffix, serverIds);
    var apiIds := ids.GetNodeIds(Api, nc);
    if apiIds.None? {
      return None;
    }
    var free := EmitFreeSlots(nc, apiIds.value);
    Assemble(nc, old', suffix);
    var lines := ["# " + BANNER, ""]
               + (leading + (ndbd + RenderBlock(TCP_DEFAULT_BLOCK)) + (mgmd + data)
                  + RenderBlocks(OPERATOR_BLOCKS) + servers + RenderBlock(API_NOTE) + free);
    r := Some(Unlines(lines));
    assert lines == DocumentLines(BANNER, ConfigBlocks(nc, old', suffix)) by {
      DocumentIs(BANNER, ConfigBlocks(nc, old', suffix));
    }
  }

  lemma DocumentIs(banner: string, blocks: seq<Block>)
    ensures DocumentLines(banner, blocks) == ["# " + banner, ""] + RenderBlocks(blocks)
  {
    hide RenderBlocks;
  }

  lemma Assemble(nc: NdbCluster, old': Option<ConfigSummary>, suffix: string)
    requires Sizable(nc) && ConfigVersion(old') >= 0
    ensures RenderBlocks(ConfigBlocks(nc, old', suffix))
         == RenderBlocks(LeadingBlocks(nc, ConfigVersion(old')))
            + (RenderBlock(NdbdDefaultBlock(nc)) + RenderBlock(TCP_DEFAULT_BLOCK))
            + (RenderBlocks(ManagementBlocks(nc, suffix, nc.GetManagementNodeCount()))
               + RenderBlocks(DataNodeBlocks(nc, suffix, NewDataNodeStart(nc, old'),
                                             nc.GetManagementNodeCount() + 1, nc.spec.dataNode.nodeCount)))
            + RenderBlocks(OPERATOR_BLOCKS) + RenderBlocks(ServerBlocks(nc, suffix))
            + RenderBlock(API_NOTE) + RenderBlocks(FreeBlocks(nc))
  {
    hide RenderBlock, RenderBlocks, LeadingBlocks, NdbdDefaultBlock, ManagementBlocks, DataNodeBlocks, ServerBlocks, FreeBlocks;
    var a := LeadingBlocks(nc, ConfigVersion(old'));
    var b := [NdbdDefaultBlock(nc), TCP_DEFAULT_BLOCK];
    var c1 := ManagementBlocks(nc, suffix, nc.GetManagementNodeCount());
    var c2 := DataNodeBlocks(nc, suffix, NewDataNodeStart(nc, old'), nc.GetManagementNodeCount() + 1, nc.spec.dataNode.nodeCount);
    var d := ServerBlocks(nc, suffix);
    RenderOne(NdbdDefaultBlock(nc));
    AppendBlock([NdbdDefaultBlock(nc)], TCP_DEFAULT_BLOCK, b);
    RenderBlocksConcat(a, b);
    RenderBlocksConcat(c1, c2);
    RenderBlocksConcat(a + b, c1 + c2);
    RenderBlocksConcat(a + b + (c1 + c2), OPERATOR_BLOCKS);
    RenderBlocksConcat(a + b + (c1 + c2) + OPERATOR_BLOCKS, d);
    AppendBlock(a + b + (c1 + c2) + OPERATOR_BLOCKS + d, API_NOTE, a + b + (c1 + c2) + OPERATOR_BLOCKS + d + [API_NOTE]);
    RenderBlocksConcat(a + b + (c1 + c2) + OPERATOR_BLOCKS + d + [API_NOTE], FreeBlocks(nc));
  }
}
