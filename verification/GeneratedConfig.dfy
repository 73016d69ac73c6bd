/**
 What parsing a generated config.ini yields: the sections under each name, in terms of the
 specification (pkg/ndbconfig/config_generators.go read by pkg/ndbconfig/configparser).
 */
module GeneratedConfig {
  import opened Wrappers
  import opened Text
  import opened Arithmetic
  import opened NdbCluster
  import opened IniParser
  import opened IniDocument
  import opened ConfigSummary
  import opened ConfigGenerator

  // ----- plain specifications

  predicate PlainParams(config: map<string, string>) {
    forall k :: k in config ==> PlainKey(k) && PlainValue(config[k]) && |k| + |config[k]| < MAX_LINE
  }

  /** Every token of the specification that reaches config.ini fits on one line of its own. */
  predicate PlainSpec(nc: NdbCluster, suffix: string) {
    && PlainValue(nc.name) && |nc.name| <= 253
    && PlainValue(suffix) && |suffix| <= 1024
    && PlainParams(nc.spec.dataNode.config)
    && PlainParams(ManagementConfig(nc))
  }

  function Pow10(k: nat): nat {
    if k == 0 then 1 else 10 * Pow10(k - 1)
  }

  lemma {:induction false} ItoaLength(n: nat, k: nat)
    requires k > 0 && n < Pow10(k)
    ensures |Itoa(n)| <= k
  {
    if n >= 10 && k > 1 {
      ItoaLength(n / 10, k - 1);
    }
  }

  lemma ElevenDigits()
    ensures Pow10(11) == 100_000_000_000
  {
    assert Pow10(3) == 1000;
    assert Pow10(6) == 1000 * Pow10(3);
    assert Pow10(9) == 1000 * Pow10(6);
    assert Pow10(11) == 100 * Pow10(9);
  }

  lemma PlainParam(key: string, value: string)
    requires PlainKey(key) && PlainValue(value) && |key| + |value| < MAX_LINE
    ensures PlainLine(Param(key, value))
  {
    assert |key + "=" + value| == |key| + 1 + |value|;
  }

  lemma PlainNumber(key: string, n: nat)
    requires PlainKey(key) && |key| <= 100 && n <= 10_000_000_000
    ensures PlainLine(Param(key, Itoa(n)))
  {
    ElevenDigits();
    ItoaLength(n, 11);
    PlainDigits(n);
    PlainParam(key, Itoa(n));
  }

  lemma PlainDigits(n: nat)
    ensures PlainValue(Itoa(n))
  {
    forall c | c in Itoa(n) ensures '0' <= c <= '9' {
      var i :| 0 <= i < |Itoa(n)| && Itoa(n)[i] == c;
    }
  }

  predicate NodeTypeName(t: string) {
    t == "mgmd" || t == "ndbmtd" || t == "mysqld"
  }

  /** A plain value stays plain behind text without line breaks. */
  lemma PlainSuffix(a: string, b: string)
    requires '\n' !in a && PlainValue(b)
    ensures PlainValue(a + b)
  {
    assert (a + b)[|a + b| - 1] == b[|b| - 1];
  }

  lemma HostnameIsPlain()
    ensures PlainKey("Hostname")
  {
  }

  lemma PlainHostname(nc: NdbCluster, nodeType: string, ordinal: nat, suffix: string)
    requires PlainSpec(nc, suffix) && NodeTypeName(nodeType) && ordinal <= 10_000_000_000
    ensures PlainLine(Param("Hostname", Hostname(nc, nodeType, ordinal, suffix)))
  {
    hide PlainParams, PlainLine, Pow10, IsSpace;
    ElevenDigits();
    ItoaLength(ordinal, 11);
    PlainDigits(ordinal);
    var a, b := nc.name + "-" + nodeType + "-", "." + nc.name + "-" + nodeType + ".";
    assert '\n' !in a && '\n' !in b;
    var h := Hostname(nc, nodeType, ordinal, suffix);
    assert h == a + Itoa(ordinal) + b + suffix;
    assert '\n' !in a + Itoa(ordinal) + b;
    PlainSuffix(a + Itoa(ordinal) + b, suffix);
    assert |a| <= 262 && |b| <= 262;
    assert |h| == |a| + |Itoa(ordinal)| + |b| + |suffix|;
    HostnameIsPlain();
    PlainParam("Hostname", h);
  }

  ghost predicate PlainBody(body: seq<Line>) {
    forall line :: line in body ==> PlainLine(line)
  }

  lemma PlainBodies(a: seq<Line>, b: seq<Line>)
    requires PlainBody(a) && PlainBody(b)
    ensures PlainBody(a + b)
  {
  }

  lemma PlainBlank()
    ensures PlainLine(Blank)
  {
  }

  lemma PlainSection(name: string, body: seq<Line>)
    requires '\n' !in name && |name| < 100 && name != HEADER && PlainBody(body)
    ensures PlainBlock(Block(name, body))
  {
  }

  lemma {:induction false} PlainConfigParams(config: map<string, string>, keys: seq<string>)
    requires PlainParams(config) && forall k :: k in keys ==> k in config
    ensures PlainBody(Params(config, keys))
    decreases |keys|
  {
    hide PlainKey, PlainValue, PlainLine;
    if keys != [] {
      assert keys[0] in keys;
      PlainParam(keys[0], config[keys[0]]);
      PlainConfigParams(config, keys[1..]);
    }
  }

  lemma PlainConfig(config: map<string, string>)
    requires PlainParams(config)
    ensures PlainBody(ConfigParams(config))
  {
    SortedKeysAreKeys(config.Keys);
    PlainConfigParams(config, SortedKeys(config.Keys));
  }

  lemma PlainSystem(nc: NdbCluster, version: nat, suffix: string)
    requires PlainSpec(nc, suffix) && version <= MAX_INT32
    ensures PlainBody(SystemBody(nc, version)) && PlainBody([Blank, Blank]) && PlainBody([Blank])
  {
    hide PlainLine, PlainParams;
    PlainBlank();
    PlainNumber("ConfigGenerationNumber", version);
    PlainParam("Name", nc.name);
  }

  lemma PlainLeading(nc: NdbCluster, version: nat, suffix: string)
    requires PlainSpec(nc, suffix) && version <= MAX_INT32
    ensures forall b :: b in LeadingBlocks(nc, version) ==> PlainBlock(b)
  {
    hide PlainLine, PlainBlock, PlainBody, PlainParams, ConfigParams, SystemBody;
    PlainSystem(nc, version, suffix);
    var system, params := SystemBody(nc, version), ConfigParams(ManagementConfig(nc));
    if ManagementConfig(nc) == map[] {
      PlainBodies(system, [Blank, Blank]);
      PlainSection("system", system + [Blank, Blank]);
    } else {
      PlainConfig(ManagementConfig(nc));
      PlainBodies(params, [Blank]);
      PlainSection("system", system);
      PlainSection("ndb_mgmd default", params + [Blank]);
    }
  }

  lemma PlainEncryption()
    ensures PlainBody([Param("EncryptedFileSystem", "1"), Blank]) && PlainBody([])
  {
    hide PlainLine;
    PlainBlank();
    PlainParam("EncryptedFileSystem", "1");
  }

  lemma PlainPort(redundancy: nat)
    requires redundancy <= 10_000_000_000
    ensures PlainBody([Param("NoOfReplicas", Itoa(redundancy)), Remark("Use a fixed ServerPort for all data nodes"), Param("ServerPort", "1186")])
  {
    hide PlainLine, Itoa;
    PlainReplicas(redundancy);
    PlainPortNote();
  }

  lemma PlainReplicas(redundancy: nat)
    requires redundancy <= 10_000_000_000
    ensures PlainLine(Param("NoOfReplicas", Itoa(redundancy)))
  {
    hide PlainLine, Itoa;
    PlainNumber("NoOfReplicas", redundancy);
  }

  lemma PlainPortNote()
    ensures PlainLine(Remark("Use a fixed ServerPort for all data nodes"))
    ensures PlainLine(Param("ServerPort", "1186"))
  {
    hide PlainLine;
    PlainParam("ServerPort", "1186");
    PlainRemark("Use a fixed ServerPort for all data nodes");
  }

  lemma PlainOperatorParams(nc: NdbCluster)
    requires Shaped(nc)
    ensures PlainBody(OperatorParams(nc))
  {
    hide PlainBody, Itoa;
    PlainEncryption();
    PlainPort(nc.spec.redundancyLevel);
    var port := [Param("NoOfReplicas", Itoa(nc.spec.redundancyLevel)), Remark("Use a fixed ServerPort for all data nodes"), Param("ServerPort", "1186")];
    PlainBodies(port, if nc.spec.tdeSecretName != "" then [Param("EncryptedFileSystem", "1"), Blank] else []);
  }

  lemma PlainRemark(t: string)
    requires PlainValue(t) && !IsSpace(t[0]) && t[0] != ';' && t[0] != '#' && |t| < 100
    ensures PlainLine(Remark(t))
  {
  }

  lemma PlainNdbdDefault(nc: NdbCluster, suffix: string)
    requires PlainSpec(nc, suffix) && Shaped(nc)
    ensures PlainBlock(NdbdDefaultBlock(nc)) && PlainBlock(TCP_DEFAULT_BLOCK)
  {
    hide PlainLine, PlainBlock, PlainParams, PlainBody, PlainValue, OperatorParams, ConfigParams;
    PlainDirectory();
    PlainOperatorParams(nc);
    PlainConfig(nc.spec.dataNode.config);
    PlainBodies(OperatorParams(nc), ConfigParams(nc.spec.dataNode.config));
    PlainBodies(OperatorParams(nc) + ConfigParams(nc.spec.dataNode.config), [Blank]);
    PlainSection("ndbd default", OperatorParams(nc) + ConfigParams(nc.spec.dataNode.config) + [Blank]);
    PlainTcpDefault();
  }

  lemma PlainTcpDefault()
    ensures PlainBlock(TCP_DEFAULT_BLOCK)
  {
    hide PlainLine, PlainBlock;
    PlainBlank();
    PlainParam("AllowUnresolvedHostnames", "1");
    PlainSection("tcp default", [Param("AllowUnresolvedHostnames", "1"), Blank]);
  }

  lemma PlainNode(nc: NdbCluster, nodeType: string, ordinal: nat, nodeId: nat, suffix: string)
    requires PlainSpec(nc, suffix) && NodeTypeName(nodeType)
    requires ordinal <= 10_000_000_000 && nodeId <= 10_000_000_000
    ensures PlainBody([Param("NodeId", Itoa(nodeId)), Param("Hostname", Hostname(nc, nodeType, ordinal, suffix))])
  {
    hide PlainLine, PlainSpec;
    PlainNumber("NodeId", nodeId);
    PlainHostname(nc, nodeType, ordinal, suffix);
  }

  lemma PlainManagement(nc: NdbCluster, suffix: string, count: nat)
    requires PlainSpec(nc, suffix) && count <= 2
    ensures forall b :: b in ManagementBlocks(nc, suffix, count) ==> PlainBlock(b)
  {
    hide PlainLine, PlainSpec, PlainBlock, Hostname, PlainBody;
    var bs := ManagementBlocks(nc, suffix, count);
    forall i | 0 <= i < count ensures PlainBlock(bs[i]) {
      PlainNode(nc, "mgmd", i, 1 + i, suffix);
      PlainDirectory();
      var node := [Param("NodeId", Itoa(1 + i)), Param("Hostname", Hostname(nc, "mgmd", i, suffix))];
      PlainBodies(node, [Param("DataDir", DATA_DIR), Blank]);
      assert bs[i].body == node + [Param("DataDir", DATA_DIR), Blank];
      PlainSection("ndb_mgmd", bs[i].body);
    }
  }

  lemma PlainDirectory()
    ensures PlainBody([Param("DataDir", DATA_DIR), Blank])
    ensures PlainBody([Param("DataDir", DATA_DIR), Param("NodeGroup", "65536"), Blank])
    ensures PlainBody([Blank])
  {
    hide PlainLine;
    PlainBlank();
    PlainParam("DataDir", DATA_DIR);
    PlainParam("NodeGroup", "65536");
  }

  lemma PlainDataNodes(nc: NdbCluster, suffix: string, start: int, first: nat, count: nat)
    requires PlainSpec(nc, suffix) && first <= 3 && count <= MAX_NUMBER_OF_DATA_NODES
    ensures forall b :: b in DataNodeBlocks(nc, suffix, start, first, count) ==> PlainBlock(b)
  {
    hide PlainLine, PlainSpec, PlainBlock, Hostname, PlainBody;
    var bs := DataNodeBlocks(nc, suffix, start, first, count);
    forall i | 0 <= i < count ensures PlainBlock(bs[i]) {
      PlainNode(nc, "ndbmtd", i, first + i, suffix);
      PlainDirectory();
      var node := [Param("NodeId", Itoa(first + i)), Param("Hostname", Hostname(nc, "ndbmtd", i, suffix))];
      var rest := if IsNewDataNode(start, first + i)
                  then [Param("DataDir", DATA_DIR), Param("NodeGroup", "65536"), Blank]
                  else [Param("DataDir", DATA_DIR), Blank];
      PlainBodies(node, rest);
      assert bs[i] == DataNodeBlock(nc, suffix, start, i, first + i);
      assert bs[i].body == node + rest;
      PlainSection("ndbd", bs[i].body);
    }
  }

  lemma PlainServers(nc: NdbCluster, suffix: string, pool: nat, count: nat)
    requires PlainSpec(nc, suffix) && (count > 0 ==> pool > 0) && count <= MAX_INT32
    ensures forall b :: b in MysqldBlocks(nc, suffix, pool, count) ==> PlainBlock(b)
  {
    hide Itoa, PlainLine, PlainSpec, PlainBlock, Hostname, PlainBody;
    var bs := MysqldBlocks(nc, suffix, pool, count);
    forall i | 0 <= i < count ensures PlainBlock(bs[i]) {
      QuotientSmall(i, pool);
      PlainServer(nc, suffix, i / pool, API_START_NODE_ID + i, bs[i]);
    }
  }

  lemma PlainServer(nc: NdbCluster, suffix: string, ordinal: nat, nodeId: nat, b: Block)
    requires PlainSpec(nc, suffix) && ordinal <= 10_000_000_000 && nodeId <= 10_000_000_000
    requires b == Block("mysqld", [Param("NodeId", Itoa(nodeId)), Param("Hostname", Hostname(nc, "mysqld", ordinal, suffix)), Blank])
    ensures PlainBlock(b)
  {
    hide PlainLine, PlainSpec, PlainBlock, Hostname, PlainBody, Itoa;
    PlainNode(nc, "mysqld", ordinal, nodeId, suffix);
    PlainDirectory();
    var node := [Param("NodeId", Itoa(nodeId)), Param("Hostname", Hostname(nc, "mysqld", ordinal, suffix))];
    PlainBodies(node, [Blank]);
    assert b.body == node + [Blank];
    PlainSection("mysqld", b.body);
  }

  lemma QuotientSmall(i: nat, pool: nat)
    requires pool > 0
    ensures i / pool <= i
  {
    var q := i / pool;
    assert i == q * pool + i % pool;
    ProductGrows(1, pool, q);
  }

  lemma PlainFree(first: nat, count: nat)
    requires first <= MAX_INT32 + 148 && count <= MAX_INT32
    ensures forall b :: b in ApiBlocks(first, count) ==> PlainBlock(b)
  {
    hide PlainLine, PlainBlock;
    var bs := ApiBlocks(first, count);
    forall i | 0 <= i < count ensures PlainBlock(bs[i]) {
      PlainNumber("NodeId", first + i);
      PlainBlank();
      assert bs[i] == ApiBlock(first + i);
      PlainSection("api", bs[i].body);
    }
  }

  lemma PlainNotes()
    ensures PlainLine(Remark(OPERATOR_BLOCKS[0].text))
    ensures PlainLine(Remark(OPERATOR_BLOCKS[2].text))
    ensures PlainLine(Remark(API_NOTE.text))
  {
    hide PlainLine, PlainValue;
    OperatorNoteInTwo();
    ServersNoteInTwo();
    ApplicationsNoteInTwo();
    PlainRemarkInTwo("Dedicated API section ", "to be used by NDB Operator");
    PlainRemarkInTwo("MySQLD sections to be used ", "exclusively by MySQL Servers");
    PlainRemarkInTwo("API sections to be used ", "by generic NDBAPI applications");
  }

  /** A long remark, in two parts that the solver can take one at a time. */
  lemma PlainRemarkInTwo(a: string, b: string)
    requires a != "" && b != "" && |a| + |b| < 100
    requires forall i :: 0 <= i < |a| ==> a[i] != '\n'
    requires forall i :: 0 <= i < |b| ==> b[i] != '\n'
    requires 'A' <= a[0] <= 'z' && 'A' <= b[|b| - 1] <= 'z'
    ensures PlainLine(Remark(a + b))
  {
    PlainSuffix(a, b);
    PlainRemark(a + b);
  }

  lemma OperatorNoteInTwo()
    ensures "Dedicated API section to be used by NDB Operator" == "Dedicated API section " + "to be used by NDB Operator"
  {
  }

  lemma ServersNoteInTwo()
    ensures "MySQLD sections to be used exclusively by MySQL Servers"
         == "MySQLD sections to be used " + "exclusively by MySQL Servers"
  {
  }

  lemma ApplicationsNoteInTwo()
    ensures "API sections to be used by generic NDBAPI applications"
         == "API sections to be used " + "by generic NDBAPI applications"
  {
  }

  lemma PlainOperatorBlocks()
    ensures forall b :: b in OPERATOR_BLOCKS ==> PlainBlock(b)
    ensures PlainBlock(API_NOTE)
  {
    hide PlainLine;
    PlainNotes();
    PlainParam("NodeId", "147");
    PlainParam("Dedicated", "1");
    PlainBlank();
  }

  lemma PlainGenerated(nc: NdbCluster, old': Option<ConfigSummary>, suffix: string)
    requires PlainSpec(nc, suffix) && Sizable(nc) && ConfigVersion(old') >= 0
    ensures forall b :: b in ConfigBlocks(nc, old', suffix) ==> PlainBlock(b)
  {
    hide PlainBlock, PlainSpec, LeadingBlocks, NdbdDefaultBlock, ManagementBlocks, DataNodeBlocks, MysqldBlocks, ApiBlocks;
    SlotsAreProduct(nc);
    PlainLeading(nc, ConfigVersion(old'), suffix);
    PlainNdbdDefault(nc, suffix);
    PlainManagement(nc, suffix, nc.GetManagementNodeCount());
    PlainDataNodes(nc, suffix, NewDataNodeStart(nc, old'), nc.GetManagementNodeCount() + 1, nc.spec.dataNode.nodeCount);
    PlainOperatorBlocks();
    PlainServers(nc, suffix, nc.GetMySQLServerConnectionPoolSize(), nc.MySQLSlots());
    PlainFree(API_START_NODE_ID + nc.MySQLSlots(), nc.spec.freeAPISlots);
  }

  const EMPTY_HEADER: ConfigIni := map[HEADER := [map[]]]

  ghost function GeneratedIni(nc: NdbCluster, old': Option<ConfigSummary>, suffix: string): ConfigIni
    requires Sizable(nc) && ConfigVersion(old') >= 0
  {
    AddBlocks(EMPTY_HEADER, ConfigBlocks(nc, old', suffix))
  }

  /** The parser accepts every generated text and finds the blocks of the specification in it. */
  lemma GeneratedParses(nc: NdbCluster, old': Option<ConfigSummary>, suffix: string)
    requires PlainSpec(nc, suffix) && Sizable(nc) && ConfigVersion(old') >= 0
    ensures Parse(ConfigText(nc, old', suffix)) == Ok(GeneratedIni(nc, old', suffix))
  {
    hide PlainBlock, PlainSpec, Parse, AddBlocks, DocumentLines, Unlines, Sizable, ConfigBlocks, PlainLine, ToLower;
    PlainGenerated(nc, old', suffix);
    SystemComesFirst(nc, old', suffix);
    PlainBanner();
    LowerNames();
    DocumentReads(BANNER, ConfigBlocks(nc, old', suffix));
  }

  lemma SystemComesFirst(nc: NdbCluster, old': Option<ConfigSummary>, suffix: string)
    requires Sizable(nc) && ConfigVersion(old') >= 0
    ensures var bs := ConfigBlocks(nc, old', suffix); bs != [] && bs[0].Block? && bs[0].name == "system"
  {
    hide NdbdDefaultBlock, NodeBlocks, ServerBlocks, FreeBlocks, SystemBody, ConfigParams;
    assert ConfigBlocks(nc, old', suffix)[0] == LeadingBlocks(nc, ConfigVersion(old'))[0];
  }

  lemma PlainBanner()
    ensures PlainLine(Remark(BANNER)) && '=' !in BANNER
  {
    hide PlainLine, PlainValue;
    assert BANNER == "Auto generated config.ini " + "- DO NOT EDIT";
    PlainRemarkInTwo("Auto generated config.ini ", "- DO NOT EDIT");
  }

  // ----- the sections under one name

  function Matches(b: Block, key: string): bool {
    b.Block? && ToLower(b.name) == key
  }

  /** The sections that the blocks add under the lower-case name `key`. */
  function Sections(blocks: seq<Block>, key: string): seq<Section> {
    if blocks == [] then []
    else (if Matches(blocks[0], key) then [Fill(map[], blocks[0].body)] else []) + Sections(blocks[1..], key)
  }

  function Group(ini: ConfigIni, key: string): seq<Section> {
    if key in ini then ini[key] else []
  }

  lemma {:induction false} AddBlocksGroup(ini: ConfigIni, blocks: seq<Block>, key: string)
    ensures Group(AddBlocks(ini, blocks), key) == Group(ini, key) + Sections(blocks, key)
    ensures key in AddBlocks(ini, blocks) <==> key in ini || Sections(blocks, key) != []
    decreases |blocks|
  {
    hide Fill, ToLower;
    if blocks != [] {
      AddBlocksGroup(AddBlock(ini, blocks[0]), blocks[1..], key);
    }
  }

  lemma NoSections(key: string)
    ensures Sections([], key) == []
  {
  }

  lemma SectionsStep(blocks: seq<Block>, key: string)
    requires blocks != []
    ensures Sections(blocks, key) == Sections([blocks[0]], key) + Sections(blocks[1..], key)
  {
    hide Fill, ToLower, Matches;
    assert Sections([blocks[0]][1..], key) == [];
  }

  lemma {:induction false} SectionsConcat(a: seq<Block>, b: seq<Block>, key: string)
    ensures Sections(a + b, key) == Sections(a, key) + Sections(b, key)
    decreases |a|
  {
    hide Sections;
    if a == [] {
      assert a + b == b;
      assert Sections([], key) == [] by { NoSections(key); }
    } else {
      assert (a + b)[0] == a[0] && (a + b)[1..] == a[1..] + b;
      SectionsConcat(a[1..], b, key);
      var first := Sections([a[0]], key);
      SectionsStep(a, key);
      SectionsStep(a + b, key);
      assert first + (Sections(a[1..], key) + Sections(b, key)) == first + Sections(a[1..], key) + Sections(b, key);
    }
  }

  ghost predicate AllNamed(blocks: seq<Block>, name: string) {
    forall i :: 0 <= i < |blocks| ==> blocks[i].Block? && blocks[i].name == name
  }

  function BodyOf(b: Block): Section {
    if b.Block? then Fill(map[], b.body) else map[]
  }

  function Bodies(blocks: seq<Block>): (r: seq<Section>)
    ensures |r| == |blocks|
  {
    seq(|blocks|, i requires 0 <= i < |blocks| => BodyOf(blocks[i]))
  }

  lemma {:induction false} UniformSections(blocks: seq<Block>, name: string, key: string)
    requires AllNamed(blocks, name)
    ensures Sections(blocks, key) == if ToLower(name) == key then Bodies(blocks) else []
    decreases |blocks|
  {
    hide Fill, ToLower;
    if blocks != [] {
      UniformSections(blocks[1..], name, key);
      assert blocks[0].name == name;
      if ToLower(name) == key {
        assert Bodies(blocks) == [Fill(map[], blocks[0].body)] + Bodies(blocks[1..]);
      }
    }
  }

  lemma OneSection(b: Block, key: string)
    ensures Sections([b], key) == if Matches(b, key) then [Fill(map[], b.body)] else []
  {
    assert [b][1..] == [];
  }

  lemma LowerNames()
    ensures ToLower("system") == "system" && ToLower("ndb_mgmd default") == "ndb_mgmd default"
    ensures ToLower("ndbd default") == "ndbd default" && ToLower("tcp default") == "tcp default"
    ensures ToLower("ndb_mgmd") == "ndb_mgmd" && ToLower("ndbd") == "ndbd" && ToLower("api") == "api"
    ensures ToLower("mysqld") == "mysqld" && ToLower(HEADER) == HEADER && ToLower("mgmd default") == "mgmd default"
  {
    hide ToLower;
    LowerNodeNames();
    LowerDefaultNames();
  }

  lemma LowerNodeNames()
    ensures ToLower("ndb_mgmd") == "ndb_mgmd" && ToLower("ndbd") == "ndbd" && ToLower("api") == "api"
    ensures ToLower("mysqld") == "mysqld" && ToLower(HEADER) == HEADER
  {
    hide ToLower;
    LowerIdentity("ndb_mgmd");
    LowerIdentity("ndbd");
    LowerIdentity("api");
    LowerIdentity("mysqld");
    LowerIdentity(HEADER);
  }

  lemma LowerDefaultNames()
    ensures ToLower("system") == "system" && ToLower("ndb_mgmd default") == "ndb_mgmd default"
    ensures ToLower("ndbd default") == "ndbd default" && ToLower("tcp default") == "tcp default"
    ensures ToLower("mgmd default") == "mgmd default"
  {
    hide ToLower;
    LowerIdentity("system");
    LowerIdentity("ndb_mgmd default");
    LowerIdentity("ndbd default");
    LowerIdentity("tcp default");
    LowerIdentity("mgmd default");
  }

  lemma SectionsInParts(nc: NdbCluster, old': Option<ConfigSummary>, suffix: string, key: string)
    requires Sizable(nc) && ConfigVersion(old') >= 0
    ensures Sections(ConfigBlocks(nc, old', suffix), key)
         == Sections(LeadingBlocks(nc, ConfigVersion(old')), key)
            + Sections([NdbdDefaultBlock(nc), TCP_DEFAULT_BLOCK], key)
            + (Sections(ManagementBlocks(nc, suffix, nc.GetManagementNodeCount()), key)
               + Sections(DataNodeBlocks(nc, suffix, NewDataNodeStart(nc, old'),
                                         nc.GetManagementNodeCount() + 1, nc.spec.dataNode.nodeCount), key))
            + Sections(OPERATOR_BLOCKS, key) + Sections(ServerBlocks(nc, suffix), key)
            + Sections([API_NOTE], key) + Sections(FreeBlocks(nc), key)
  {
    hide Sections, LeadingBlocks, NdbdDefaultBlock, ManagementBlocks, DataNodeBlocks, ServerBlocks, FreeBlocks;
    var a := LeadingBlocks(nc, ConfigVersion(old'));
    var b := [NdbdDefaultBlock(nc), TCP_DEFAULT_BLOCK];
    var c1 := ManagementBlocks(nc, suffix, nc.GetManagementNodeCount());
    var c2 := DataNodeBlocks(nc, suffix, NewDataNodeStart(nc, old'), nc.GetManagementNodeCount() + 1, nc.spec.dataNode.nodeCount);
    var d := ServerBlocks(nc, suffix);
    SectionsConcat(a, b, key);
    SectionsConcat(c1, c2, key);
    SectionsConcat(a + b, c1 + c2, key);
    SectionsConcat(a + b + (c1 + c2), OPERATOR_BLOCKS, key);
    SectionsConcat(a + b + (c1 + c2) + OPERATOR_BLOCKS, d, key);
    SectionsConcat(a + b + (c1 + c2) + OPERATOR_BLOCKS + d, [API_NOTE], key);
    SectionsConcat(a + b + (c1 + c2) + OPERATOR_BLOCKS + d + [API_NOTE], FreeBlocks(nc), key);
  }

  ghost function NdbdDefaultSection(nc: NdbCluster): Section
    requires nc.spec.redundancyLevel >= 0
  {
    Fill(map[], NdbdDefaultBlock(nc).body)
  }

  ghost function LeadingSections(nc: NdbCluster, version: nat, key: string): seq<Section> {
    if key == "system" then [Fill(map[], LeadingBlocks(nc, version)[0].body)]
    else if key == "ndb_mgmd default" && ManagementConfig(nc) != map[]
    then [Fill(map[], LeadingBlocks(nc, version)[1].body)]
    else []
  }

  lemma LeadingSectionsAre(nc: NdbCluster, version: nat, key: string)
    ensures Sections(LeadingBlocks(nc, version), key) == LeadingSections(nc, version, key)
  {
    hide Fill, ToLower;
    LowerNames();
    var bs := LeadingBlocks(nc, version);
    OneSection(bs[0], key);
    if |bs| == 2 {
      assert bs == [bs[0]] + [bs[1]];
      SectionsConcat([bs[0]], [bs[1]], key);
      OneSection(bs[1], key);
    } else {
      assert bs == [bs[0]];
    }
  }

  lemma DefaultSectionsAre(nc: NdbCluster, key: string)
    requires nc.spec.redundancyLevel >= 0
    ensures Sections([NdbdDefaultBlock(nc), TCP_DEFAULT_BLOCK], key)
         == if key == "ndbd default" then [NdbdDefaultSection(nc)]
            else if key == "tcp default" then [Fill(map[], TCP_DEFAULT_BLOCK.body)] else []
  {
    hide Fill, ToLower;
    LowerNames();
    var x, y := NdbdDefaultBlock(nc), TCP_DEFAULT_BLOCK;
    assert [x, y] == [x] + [y];
    SectionsConcat([x], [y], key);
    OneSection(x, key);
    OneSection(y, key);
  }

  lemma OperatorSectionsAre(key: string)
    ensures Sections(OPERATOR_BLOCKS, key)
         == if key == "api" then [Fill(map[], OPERATOR_BLOCKS[1].body)] else []
    ensures Sections([API_NOTE], key) == []
  {
    hide Fill, ToLower;
    LowerNames();
    var bs := OPERATOR_BLOCKS;
    assert bs == [bs[0]] + [bs[1]] + [bs[2]];
    SectionsConcat([bs[0]], [bs[1]], key);
    SectionsConcat([bs[0]] + [bs[1]], [bs[2]], key);
    OneSection(bs[0], key);
    OneSection(bs[1], key);
    OneSection(bs[2], key);
    OneSection(API_NOTE, key);
  }

  /** The sections of each name in a generated configuration. */
  ghost function ExpectedSections(nc: NdbCluster, old': Option<ConfigSummary>, suffix: string, key: string): seq<Section>
    requires Sizable(nc) && ConfigVersion(old') >= 0
  {
    match key
    case "ndbd default" => [NdbdDefaultSection(nc)]
    case "tcp default" => [Fill(map[], TCP_DEFAULT_BLOCK.body)]
    case "ndb_mgmd" => Bodies(ManagementBlocks(nc, suffix, nc.GetManagementNodeCount()))
    case "ndbd" => Bodies(DataNodeBlocks(nc, suffix, NewDataNodeStart(nc, old'),
                                         nc.GetManagementNodeCount() + 1, nc.spec.dataNode.nodeCount))
    case "mysqld" => Bodies(ServerBlocks(nc, suffix))
    case "api" => [Fill(map[], OPERATOR_BLOCKS[1].body)] + Bodies(FreeBlocks(nc))
    case _ => LeadingSections(nc, ConfigVersion(old'), key)
  }

  lemma NodesNamed(nc: NdbCluster, old': Option<ConfigSummary>, suffix: string)
    requires Sizable(nc)
    ensures AllNamed(ManagementBlocks(nc, suffix, nc.GetManagementNodeCount()), "ndb_mgmd")
    ensures AllNamed(DataNodeBlocks(nc, suffix, NewDataNodeStart(nc, old'),
                                    nc.GetManagementNodeCount() + 1, nc.spec.dataNode.nodeCount), "ndbd")
    ensures AllNamed(ServerBlocks(nc, suffix), "mysqld")
    ensures AllNamed(FreeBlocks(nc), "api")
  {
    hide Hostname;
    var start, first := NewDataNodeStart(nc, old'), nc.GetManagementNodeCount() + 1;
    var n := DataNodeBlocks(nc, suffix, start, first, nc.spec.dataNode.nodeCount);
    forall i | 0 <= i < |n| ensures n[i].Block? && n[i].name == "ndbd" {
      assert n[i] == DataNodeBlock(nc, suffix, start, i, first + i);
    }
    var free := FreeBlocks(nc);
    forall i | 0 <= i < |free| ensures free[i].Block? && free[i].name == "api" {
      assert free[i] == ApiBlock(API_START_NODE_ID + nc.MySQLSlots() + i);
    }
  }

  lemma NodeSectionsAre(nc: NdbCluster, old': Option<ConfigSummary>, suffix: string, key: string)
    requires Sizable(nc)
    ensures var m := ManagementBlocks(nc, suffix, nc.GetManagementNodeCount());
            Sections(m, key) == if key == "ndb_mgmd" then Bodies(m) else []
    ensures var n := DataNodeBlocks(nc, suffix, NewDataNodeStart(nc, old'), nc.GetManagementNodeCount() + 1, nc.spec.dataNode.nodeCount);
            Sections(n, key) == if key == "ndbd" then Bodies(n) else []
    ensures Sections(ServerBlocks(nc, suffix), key) == if key == "mysqld" then Bodies(ServerBlocks(nc, suffix)) else []
    ensures Sections(FreeBlocks(nc), key) == if key == "api" then Bodies(FreeBlocks(nc)) else []
  {
    hide ToLower, Sections, Bodies, AllNamed, ServerBlocks, FreeBlocks, DataNodeBlocks, ManagementBlocks;
    LowerNodeNames();
    NodesNamed(nc, old', suffix);
    UniformSections(ManagementBlocks(nc, suffix, nc.GetManagementNodeCount()), "ndb_mgmd", key);
    UniformSections(DataNodeBlocks(nc, suffix, NewDataNodeStart(nc, old'), nc.GetManagementNodeCount() + 1, nc.spec.dataNode.nodeCount),
                    "ndbd", key);
    UniformSections(ServerBlocks(nc, suffix), "mysqld", key);
    UniformSections(FreeBlocks(nc), "api", key);
  }

  lemma SectionsAre(nc: NdbCluster, old': Option<ConfigSummary>, suffix: string, key: string)
    requires Sizable(nc) && ConfigVersion(old') >= 0
    ensures Sections(ConfigBlocks(nc, old', suffix), key) == ExpectedSections(nc, old', suffix, key)
  {
    hide Fill, Sections, LeadingSections, Bodies, ServerBlocks, FreeBlocks, DataNodeBlocks, ManagementBlocks, NdbdDefaultSection, LeadingBlocks, NdbdDefaultBlock, ConfigBlocks;
    SectionsInParts(nc, old', suffix, key);
    LeadingSectionsAre(nc, ConfigVersion(old'), key);
    DefaultSectionsAre(nc, key);
    NodeSectionsAre(nc, old', suffix, key);
    OperatorSectionsAre(key);
    NoLeading(nc, ConfigVersion(old'), key);
  }

  lemma NoLeading(nc: NdbCluster, version: nat, key: string)
    ensures key != "system" && key != "ndb_mgmd default" ==> LeadingSections(nc, version, key) == []
  {
    hide Fill;
  }

  /** The parsed configuration, name by name: the header, and what the specification says. */
  lemma GeneratedGroups(nc: NdbCluster, old': Option<ConfigSummary>, suffix: string, key: string)
    requires Sizable(nc) && ConfigVersion(old') >= 0
    ensures Group(GeneratedIni(nc, old', suffix), key)
         == if key == HEADER then [map[]] else ExpectedSections(nc, old', suffix, key)
    ensures key in GeneratedIni(nc, old', suffix)
       <==> key == HEADER || ExpectedSections(nc, old', suffix, key) != []
  {
    hide AddBlocks, ConfigBlocks, ExpectedSections, Sections;
    AddBlocksGroup(EMPTY_HEADER, ConfigBlocks(nc, old', suffix), key);
    SectionsAre(nc, old', suffix, key);
    HeaderIsNotGenerated(nc, old', suffix);
  }

  lemma HeaderIsNotGenerated(nc: NdbCluster, old': Option<ConfigSummary>, suffix: string)
    requires Sizable(nc) && ConfigVersion(old') >= 0
    ensures ExpectedSections(nc, old', suffix, HEADER) == []
  {
    NoLeading(nc, ConfigVersion(old'), HEADER);
  }
}
