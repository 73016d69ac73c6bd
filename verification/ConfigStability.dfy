/**
 When a stored config.ini may be kept: what the check against a new specification establishes,
 and what it leaves open (pkg/ndbconfig/config_summary.go, pkg/resources/configmap.go).
 */
module ConfigStability {
  import opened Wrappers
  import opened Text
  import opened Arithmetic
  import opened NdbCluster
  import opened IniParser
  import opened IniDocument
  import opened ConfigSummary
  import opened ConfigGenerator
  import opened GeneratedConfig
  import opened ConfigPipeline

  // ----- what a summary recovers

  /** The summary's counts and default section are those of the specification. */
  ghost predicate DescribesConfig(cs: ConfigSummary, nc: NdbCluster)
    requires nc.spec.redundancyLevel >= 0
  {
    && cs.numOfManagementNodes == nc.GetManagementNodeCount()
    && cs.numOfDataNodes == nc.spec.dataNode.nodeCount
    && cs.numOfMySQLServerSlots == nc.MySQLSlots()
    && cs.numOfFreeApiSlots == nc.spec.freeAPISlots + 1
    && cs.redundancyLevel == nc.spec.redundancyLevel
    && cs.defaultNdbdSection == Some(NdbdDefaultSection(nc))
    && cs.defaultMgmdSection == None
  }

  lemma TrackedGroup(ini: ConfigIni, nc: NdbCluster, suffix: string, key: string)
    requires Sizable(nc) && Tracks(ini, nc, suffix) && key != HEADER
    ensures |Group(ini, key)| == |ExpectedSections(nc, None, suffix, key)|
    ensures key != "system" && key != "ndbd" ==> Group(ini, key) == ExpectedSections(nc, None, suffix, key)
  {
    hide GeneratedIni, ExpectedSections, Essence;
    EssenceGroups(ini, GeneratedIni(nc, None, suffix), key);
    GeneratedGroups(nc, None, suffix, key);
  }

  lemma GroupSizes(ini: ConfigIni, nc: NdbCluster, suffix: string)
    requires Sizable(nc) && Tracks(ini, nc, suffix)
    ensures GetNumberOfSections(ini, "ndb_mgmd") == nc.GetManagementNodeCount()
    ensures GetNumberOfSections(ini, "ndbd") == nc.spec.dataNode.nodeCount
    ensures GetNumberOfSections(ini, "mysqld") == nc.MySQLSlots()
    ensures GetNumberOfSections(ini, "api") == nc.spec.freeAPISlots + 1
    ensures GetSection(ini, "mgmd default") == Ok(None)
    ensures GetSection(ini, "ndbd default") == Ok(Some(NdbdDefaultSection(nc)))
  {
    hide Tracks, ToLower, Bodies, Fill, NdbdDefaultSection, LeadingBlocks, ManagementBlocks, DataNodeBlocks, MysqldBlocks, ApiBlocks;
    LowerNames();
    SlotsAreProduct(nc);
    TrackedGroup(ini, nc, suffix, "ndb_mgmd");
    TrackedGroup(ini, nc, suffix, "ndbd");
    TrackedGroup(ini, nc, suffix, "mysqld");
    TrackedGroup(ini, nc, suffix, "api");
    TrackedGroup(ini, nc, suffix, "mgmd default");
    TrackedGroup(ini, nc, suffix, "ndbd default");
  }

  lemma SmallInt32(x: int)
    requires 0 <= x <= MAX_INT32
    ensures Int32(x) == x
  {
  }

  lemma ReplicasFound(nc: NdbCluster)
    requires Shaped(nc) && ParamsAllowed(nc)
    ensures GetValue(NdbdDefaultSection(nc), "NoOfReplicas") == Some(Itoa(nc.spec.redundancyLevel))
    ensures ParseInt32(Itoa(nc.spec.redundancyLevel)) == nc.spec.redundancyLevel
  {
    hide NdbdDefaultSection, ToLower, Itoa, Lowers, ParseInt32;
    LowerOperatorNames();
    NdbdDefaultFacts(nc);
    ParseItoa(nc.spec.redundancyLevel);
  }

  /** Summarising any configuration that tracks a specification recovers the numbers of the specification. */
  lemma TrackedSummary(data: map<string, string>, ini: ConfigIni, nc: NdbCluster, suffix: string, cs: ConfigSummary)
    requires Sizable(nc) && ParamsAllowed(nc) && Tracks(ini, nc, suffix)
    requires Parse(Datum(data, CONFIG_INI)) == Ok(ini) && NewConfigSummary(data) == Ok(cs)
    ensures DescribesConfig(cs, nc)
  {
    hide Tracks, Parse, NdbdDefaultSection, ParseInt32, BoolOf, GetValueFromSection, GetNumberOfSections, GetSection, GetValue, MyCnfOf,
      MyCnfVersion, ParamsAllowed, Itoa;
    GroupSizes(ini, nc, suffix);
    SlotsAreProduct(nc);
    ReplicasFound(nc);
    SmallInt32(nc.GetManagementNodeCount());
    SmallInt32(nc.spec.dataNode.nodeCount);
    SmallInt32(nc.MySQLSlots());
    SmallInt32(nc.spec.freeAPISlots + 1);
  }

  // ----- the fixed point

  lemma Unmanaged(cs: ConfigSummary, nc: NdbCluster)
    requires cs.defaultMgmdSection == None
    ensures (nc.spec.managementNode.Some? ==>
              && |nc.spec.managementNode.value.config| == SectionSize(cs.defaultMgmdSection)
              && StoresAll(cs.defaultMgmdSection, nc.spec.managementNode.value.config))
       <==> ManagementConfig(nc) == map[]
  {
  }

  lemma CleanIsStored(nc: NdbCluster)
    requires nc.spec.redundancyLevel >= 0 && ParamsAllowed(nc) && Clean(nc)
    ensures StoresAll(Some(NdbdDefaultSection(nc)), nc.spec.dataNode.config)
  {
    hide NdbdDefaultSection, ToLower, Itoa, Lowers, ParamsAllowed;
    NdbdDefaultFacts(nc);
  }

  /**
   Checked against the very specification it was generated from, a stored configuration is
   found current exactly if that specification has no management configuration and its data
   node parameters are clean. In all other cases every update regenerates it.
   */
  lemma FixedPoint(cs: ConfigSummary, nc: NdbCluster)
    requires Sizable(nc) && ParamsAllowed(nc)
    requires DescribesConfig(cs, nc) && cs.tdePasswordSecretName == nc.spec.tdeSecretName
    ensures SameClusterConfig(cs, nc) <==> ManagementConfig(nc) == map[] && Clean(nc)
  {
    hide NdbdDefaultSection, StoresAll, ParamsAllowed, Clean, ManagementConfig;
    NdbdDefaultSize(nc);
    Unmanaged(cs, nc);
    SmallInt32(nc.spec.freeAPISlots + 1);
    assert |Encrypted(nc)| == if cs.tdePasswordSecretName != "" then 1 else 0;
    if Clean(nc) {
      CleanIsStored(nc);
    }
  }

  // ----- when the check keeps the configuration

  lemma EncryptedSize(nc: NdbCluster)
    ensures |Encrypted(nc)| == if nc.spec.tdeSecretName != "" then 1 else 0
  {
  }

  /** A default section that passes the check for `b` is the one generated for `b` only if ... */
  lemma SectionKept(a: NdbCluster, b: NdbCluster)
    requires a.spec.redundancyLevel == b.spec.redundancyLevel >= 0 && ParamsAllowed(a) && ParamsAllowed(b)
    requires a.spec.tdeSecretName == "" <==> b.spec.tdeSecretName == ""
    requires |b.spec.dataNode.config| + NUM_OF_OPERATOR_SET_CONFIGS + |Encrypted(b)| == |NdbdDefaultSection(a)|
    requires StoresAll(Some(NdbdDefaultSection(a)), b.spec.dataNode.config)
    ensures NdbdDefaultSection(a) == NdbdDefaultSection(b) <==>
              Clean(b) && (b.spec.tdeSecretName != "" ==> EncryptionOn(NdbdDefaultSection(a)))
  {
    hide NdbdDefaultSection, StoresAll, ParamsAllowed, Clean, ToLower, Lowers, Itoa;
    var fa, fb := NdbdDefaultSection(a), NdbdDefaultSection(b);
    NdbdDefaultSize(b);
    NdbdDefaultFacts(a);
    NdbdDefaultFacts(b);
    CleanMeans(b);
    if Clean(b) && (b.spec.tdeSecretName != "" ==> EncryptionOn(fa)) {
      KeysKept(a, b);
      forall key | key in fb.Keys ensures fa[key] == fb[key] {
        ValueKept(a, b, key);
      }
      assert fa == fb;
    }
  }

  predicate EncryptionOn(section: Section) {
    ENCRYPTED in section && section[ENCRYPTED] == "1"
  }

  lemma StoredKeys(section: Section, config: map<string, string>)
    requires StoresAll(Some(section), config)
    ensures Lowers(config.Keys) <= section.Keys
    ensures forall k :: k in config ==> ToLower(k) in section && section[ToLower(k)] == config[k]
  {
    hide ToLower;
    forall k | k in config ensures ToLower(k) in section && section[ToLower(k)] == config[k] {
      assert Stores(Some(section), k, config[k]);
    }
  }

  lemma KeysKept(a: NdbCluster, b: NdbCluster)
    requires a.spec.redundancyLevel == b.spec.redundancyLevel >= 0 && ParamsAllowed(a) && ParamsAllowed(b)
    requires a.spec.tdeSecretName == "" <==> b.spec.tdeSecretName == ""
    requires |NdbdDefaultSection(a)| == |NdbdDefaultSection(b)|
    requires StoresAll(Some(NdbdDefaultSection(a)), b.spec.dataNode.config)
    ensures NdbdDefaultSection(a).Keys == NdbdDefaultSection(b).Keys
  {
    hide NdbdDefaultSection, StoresAll, ParamsAllowed, ToLower, Lowers, Itoa;
    var fa, fb := NdbdDefaultSection(a), NdbdDefaultSection(b);
    NdbdDefaultFacts(a);
    NdbdDefaultFacts(b);
    StoredKeys(fa, b.spec.dataNode.config);
    assert fb.Keys <= fa.Keys;
    assert |fa.Keys| == |fa| && |fb.Keys| == |fb|;
    SubsetOfSameSize(fb.Keys, fa.Keys);
  }

  lemma ValueKept(a: NdbCluster, b: NdbCluster, key: string)
    requires a.spec.redundancyLevel == b.spec.redundancyLevel >= 0 && ParamsAllowed(a) && ParamsAllowed(b) && Clean(b)
    requires b.spec.tdeSecretName != "" ==> EncryptionOn(NdbdDefaultSection(a))
    requires StoresAll(Some(NdbdDefaultSection(a)), b.spec.dataNode.config)
    requires key in NdbdDefaultSection(a) && key in NdbdDefaultSection(b)
    ensures NdbdDefaultSection(a)[key] == NdbdDefaultSection(b)[key]
  {
    hide NdbdDefaultSection, StoresAll, ParamsAllowed, ToLower, Lowers, Itoa;
    NdbdDefaultFacts(a);
    NdbdDefaultFacts(b);
    CleanMeans(b);
    StoredKeys(NdbdDefaultSection(a), b.spec.dataNode.config);
    if key in Lowers(b.spec.dataNode.config.Keys) {
      LoweredFrom(b.spec.dataNode.config, key);
    }
  }

  lemma LoweredFrom(config: map<string, string>, key: string)
    requires key in Lowers(config.Keys)
    ensures exists k :: k in config && ToLower(k) == key
  {
    hide ToLower;
    var k :| k in config.Keys && ToLower(k) == key;
    assert k in config;
  }

  // ----- the essences of two specifications

  lemma SameNodeBlocks(a: NdbCluster, b: NdbCluster, suffix: string, first: nat, m: nat, n: nat)
    requires a.name == b.name
    ensures ManagementBlocks(a, suffix, m) == ManagementBlocks(b, suffix, m)
    ensures DataNodeBlocks(a, suffix, 0, first, n) == DataNodeBlocks(b, suffix, 0, first, n)
  {
    hide Itoa;
    var ma, mb := ManagementBlocks(a, suffix, m), ManagementBlocks(b, suffix, m);
    forall i | 0 <= i < m ensures ma[i] == mb[i] {
      assert ma[i] == ManagementBlock(a, suffix, i, 1 + i);
      assert mb[i] == ManagementBlock(b, suffix, i, 1 + i);
    }
    assert ma == mb;
    var da, db := DataNodeBlocks(a, suffix, 0, first, n), DataNodeBlocks(b, suffix, 0, first, n);
    forall i | 0 <= i < n ensures da[i] == db[i] {
      assert da[i] == DataNodeBlock(a, suffix, 0, i, first + i);
      assert db[i] == DataNodeBlock(b, suffix, 0, i, first + i);
    }
    assert da == db;
  }

  lemma SameServers(a: NdbCluster, b: NdbCluster, suffix: string)
    requires a.name == b.name && SlotsFit(a) && SlotsFit(b) && a.MySQLSlots() == b.MySQLSlots()
    requires a.MySQLSlots() == 0 || a.GetMySQLServerConnectionPoolSize() == b.GetMySQLServerConnectionPoolSize()
    ensures ServerBlocks(a, suffix) == ServerBlocks(b, suffix)
  {
    hide Itoa;
    SlotsAreProduct(a);
    SlotsAreProduct(b);
    var sa, sb := ServerBlocks(a, suffix), ServerBlocks(b, suffix);
    forall i | 0 <= i < |sa| ensures sa[i] == sb[i] {
    }
  }

  lemma MysqldSectionIs(nc: NdbCluster, suffix: string, ordinal: nat, nodeId: nat)
    ensures BodyOf(MysqldBlock(nc, suffix, ordinal, nodeId))
         == map["nodeid" := Itoa(nodeId), "hostname" := Hostname(nc, "mysqld", ordinal, suffix)]
  {
    hide ToLower, Fill, Itoa, Hostname;
    LowerNodeParams();
    var hostname := Hostname(nc, "mysqld", ordinal, suffix);
    var x, y := Param("NodeId", Itoa(nodeId)), Param("Hostname", hostname);
    assert MysqldBlock(nc, suffix, ordinal, nodeId).body == [x] + ([y] + [Blank]);
    FillOne(map[], "NodeId", Itoa(nodeId), [y] + [Blank]);
    var s1: Section := map["nodeid" := Itoa(nodeId)];
    assert map[]["nodeid" := Itoa(nodeId)] == s1;
    FillOne(s1, "Hostname", hostname, [Blank]);
    FillSkip(s1["hostname" := hostname], Blank, []);
  }

  /** Slot `p` is the first of the second server when `p` is the pool size, and of the first when it is smaller. */
  lemma PoolsShow(a: NdbCluster, b: NdbCluster, suffix: string)
    requires a.name == b.name && SlotsFit(a) && SlotsFit(b) && a.MySQLSlots() == b.MySQLSlots() > 0
    requires a.GetMySQLServerConnectionPoolSize() < b.GetMySQLServerConnectionPoolSize()
    ensures Bodies(ServerBlocks(a, suffix)) != Bodies(ServerBlocks(b, suffix))
  {
    hide Itoa, Hostname, Fill, BodyOf, SlotsFit, MysqldBlock, MysqldBlocks, Int32;
    PoolFits(a);
    PoolFits(b);
    var p := a.GetMySQLServerConnectionPoolSize();
    Quotients(p, b.GetMySQLServerConnectionPoolSize());
    SlotHost(a, suffix, p, a.MySQLSlots(), p, 1);
    SlotHost(b, suffix, b.GetMySQLServerConnectionPoolSize(), b.MySQLSlots(), p, 0);
    HostsDiffer(a, b, suffix);
    var sa, sb := Bodies(ServerBlocks(a, suffix)), Bodies(ServerBlocks(b, suffix));
    assert sa[p]["hostname"] != sb[p]["hostname"];
  }

  lemma Quotients(p: nat, q: nat)
    requires 0 < p < q
    ensures p / p == 1 && p / q == 0
  {
  }

  /** A pool is never larger than the number of slots. */
  lemma PoolFits(nc: NdbCluster)
    requires SlotsFit(nc) && nc.MySQLSlots() > 0
    ensures 0 < nc.GetMySQLServerConnectionPoolSize() <= nc.MySQLSlots()
  {
    SlotsAreProduct(nc);
    var n, p := nc.GetMySQLServerMaxNodeCount(), nc.GetMySQLServerConnectionPoolSize();
    ProductGrows(1, n, p);
  }

  lemma SlotHost(nc: NdbCluster, suffix: string, pool: nat, count: nat, i: nat, ordinal: nat)
    requires pool > 0 && i < count && i / pool == ordinal
    ensures i < |MysqldBlocks(nc, suffix, pool, count)|
    ensures var s := BodyOf(MysqldBlocks(nc, suffix, pool, count)[i]);
            "hostname" in s && s["hostname"] == Hostname(nc, "mysqld", ordinal, suffix)
  {
    hide Itoa, Hostname, Fill;
    assert MysqldBlocks(nc, suffix, pool, count)[i] == MysqldBlock(nc, suffix, ordinal, API_START_NODE_ID + i);
    MysqldSectionIs(nc, suffix, ordinal, API_START_NODE_ID + i);
  }

  lemma HostsDiffer(a: NdbCluster, b: NdbCluster, suffix: string)
    requires a.name == b.name
    ensures Hostname(a, "mysqld", 1, suffix) != Hostname(b, "mysqld", 0, suffix)
  {
    assert Itoa(1) == "1" && Itoa(0) == "0";
    var front := a.name + "-" + "mysqld" + "-";
    var rest := "." + a.name + "-" + "mysqld" + "." + suffix;
    assert Hostname(a, "mysqld", 1, suffix) == front + "1" + rest;
    assert Hostname(b, "mysqld", 0, suffix) == front + "0" + rest;
    assert (front + "1" + rest)[|front|] == '1';
    assert (front + "0" + rest)[|front|] == '0';
  }

  /** Two specifications that agree on name, redundancy and all counts. */
  ghost predicate SameCounts(a: NdbCluster, b: NdbCluster) {
    && Sizable(a) && Sizable(b)
    && a.name == b.name && a.spec.redundancyLevel == b.spec.redundancyLevel
    && a.spec.dataNode.nodeCount == b.spec.dataNode.nodeCount
    && a.MySQLSlots() == b.MySQLSlots() && a.spec.freeAPISlots == b.spec.freeAPISlots
  }

  ghost predicate SamePools(a: NdbCluster, b: NdbCluster) {
    b.MySQLSlots() == 0 || a.GetMySQLServerConnectionPoolSize() == b.GetMySQLServerConnectionPoolSize()
  }

  lemma EssencesAgree(a: NdbCluster, b: NdbCluster, suffix: string)
    requires SameCounts(a, b) && ManagementConfig(a) == map[] && ManagementConfig(b) == map[]
    requires NdbdDefaultSection(a) == NdbdDefaultSection(b) && SamePools(a, b)
    ensures EssenceOf(a, suffix) == EssenceOf(b, suffix)
  {
    hide GeneratedIni, Stripped, ExpectedSections;
    var x, y := GeneratedIni(a, None, suffix), GeneratedIni(b, None, suffix);
    forall key
      ensures key in x <==> key in y
      ensures Group(x, key) == Group(y, key)
    {
      GeneratedGroups(a, None, suffix, key);
      GeneratedGroups(b, None, suffix, key);
      ExpectedAgree(a, b, suffix, key);
    }
    SameEssence(x, y);
  }

  lemma ExpectedAgree(a: NdbCluster, b: NdbCluster, suffix: string, key: string)
    requires SameCounts(a, b) && ManagementConfig(a) == map[] && ManagementConfig(b) == map[]
    requires NdbdDefaultSection(a) == NdbdDefaultSection(b) && SamePools(a, b)
    ensures ExpectedSections(a, None, suffix, key) == ExpectedSections(b, None, suffix, key)
  {
    hide Bodies, ManagementBlocks, DataNodeBlocks, ServerBlocks, ApiBlocks, NdbdDefaultSection, Fill, LeadingSections, Hostname, Itoa;
    SystemSectionIs(a, 1);
    SystemSectionIs(b, 1);
    if key != "system" {
      LeadingAgree(a, b, key);
    }
    SameNodeBlocks(a, b, suffix, a.GetManagementNodeCount() + 1, a.GetManagementNodeCount(), a.spec.dataNode.nodeCount);
    SameServers(a, b, suffix);
  }

  lemma LeadingAgree(a: NdbCluster, b: NdbCluster, key: string)
    requires ManagementConfig(a) == map[] && ManagementConfig(b) == map[] && key != "system"
    ensures LeadingSections(a, 1, key) == LeadingSections(b, 1, key) == []
  {
    hide Fill;
  }

  lemma EssencesShow(a: NdbCluster, b: NdbCluster, suffix: string)
    requires SameCounts(a, b) && ManagementConfig(b) == map[] && EssenceOf(a, suffix) == EssenceOf(b, suffix)
    ensures ManagementConfig(a) == map[] && NdbdDefaultSection(a) == NdbdDefaultSection(b) && SamePools(a, b)
  {
    hide GeneratedIni, Essence, Bodies, ManagementBlocks, DataNodeBlocks, ServerBlocks, ApiBlocks, NdbdDefaultSection, Fill, LeadingBlocks;
    var y := GeneratedIni(b, None, suffix);
    TrackedGroup(y, a, suffix, "ndb_mgmd default");
    TrackedGroup(y, b, suffix, "ndb_mgmd default");
    TrackedGroup(y, a, suffix, "ndbd default");
    TrackedGroup(y, b, suffix, "ndbd default");
    TrackedGroup(y, a, suffix, "mysqld");
    TrackedGroup(y, b, suffix, "mysqld");
    var p, q := a.GetMySQLServerConnectionPoolSize(), b.GetMySQLServerConnectionPoolSize();
    if b.MySQLSlots() != 0 {
      SlotsAreProduct(b);
      if p < q {
        PoolsShow(a, b, suffix);
      } else if q < p {
        PoolsShow(b, a, suffix);
      }
    }
  }

  /** What the check leaves open about a data node section that passes it. */
  ghost predicate DefaultsAreCurrent(cs: ConfigSummary, b: NdbCluster) {
    && Clean(b)
    && (b.spec.tdeSecretName != "" ==> cs.defaultNdbdSection.Some? && EncryptionOn(cs.defaultNdbdSection.value))
  }

  /** What the check leaves open: the conditions under which a configuration that passes it is current. */
  ghost predicate KeptIsCurrent(cs: ConfigSummary, a: NdbCluster, b: NdbCluster) {
    ManagementConfig(a) == map[] && SamePools(a, b) && DefaultsAreCurrent(cs, b)
  }

  /** A summary that passes the check for `b` describes `b` exactly if its data node section is the one generated for `b`. */
  lemma KeptDefaults(cs: ConfigSummary, a: NdbCluster, b: NdbCluster)
    requires Sizable(a) && Sizable(b) && ParamsAllowed(a) && ParamsAllowed(b)
    requires DescribesConfig(cs, a) && (cs.tdePasswordSecretName == "" <==> a.spec.tdeSecretName == "")
    requires b.spec.redundancyLevel == a.spec.redundancyLevel && a.spec.dataNode.nodeCount <= b.spec.dataNode.nodeCount
    requires SameClusterConfig(cs, b)
    ensures DescribesConfig(cs, b) <==> DefaultsAreCurrent(cs, b)
  {
    hide NdbdDefaultSection, StoresAll, ParamsAllowed, Clean;
    SmallInt32(b.spec.freeAPISlots + 1);
    EncryptedSize(b);
    SectionKept(a, b);
  }

  /**
   The stored configuration of `a` passes the check for `b`. It then equals what would be
   generated for `b`, up to the version and the marks of new data nodes, exactly under the
   conditions above.
   */
  lemma KeptConfiguration(ini: ConfigIni, cs: ConfigSummary, a: NdbCluster, b: NdbCluster, suffix: string)
    requires Sizable(a) && Sizable(b) && ParamsAllowed(a) && ParamsAllowed(b)
    requires Tracks(ini, a, suffix) && DescribesConfig(cs, a) && (cs.tdePasswordSecretName == "" <==> a.spec.tdeSecretName == "")
    requires b.name == a.name && b.spec.redundancyLevel == a.spec.redundancyLevel
    requires a.spec.dataNode.nodeCount <= b.spec.dataNode.nodeCount
    requires SameClusterConfig(cs, b)
    ensures Tracks(ini, b, suffix) <==> KeptIsCurrent(cs, a, b)
  {
    hide EssenceOf, Essence, NdbdDefaultSection, StoresAll, ParamsAllowed, Clean, ManagementConfig, SamePools;
    Unmanaged(cs, b);
    SmallInt32(b.spec.freeAPISlots + 1);
    EncryptedSize(b);
    SectionKept(a, b);
    if Tracks(ini, b, suffix) {
      EssencesShow(a, b, suffix);
    }
    if KeptIsCurrent(cs, a, b) {
      EssencesAgree(a, b, suffix);
    }
  }

  /** Four servers with one connection each, or two with two: the check sees no difference, the hosts of the slots change. */
  lemma MissedRegrouping(ini: ConfigIni, cs: ConfigSummary, a: NdbCluster, b: NdbCluster, suffix: string)
    requires Sizable(a) && Sizable(b) && ParamsAllowed(a) && Clean(a) && ManagementConfig(a) == map[]
    requires Tracks(ini, a, suffix) && DescribesConfig(cs, a) && cs.tdePasswordSecretName == a.spec.tdeSecretName
    requires a.spec.mysqlNode.Some? && a.GetMySQLServerMaxNodeCount() == 4 && a.GetMySQLServerConnectionPoolSize() == 1
    requires b == a.(spec := a.spec.(mysqlNode := Some(a.spec.mysqlNode.value.(maxNodeCount := 2, connectionPoolSize := 2))))
    ensures SameClusterConfig(cs, b) && !Tracks(ini, b, suffix)
  {
    hide EssenceOf, Essence, NdbdDefaultSection, StoresAll, ParamsAllowed, Clean;
    assert ParamsAllowed(b) by {
      SameParams(a, b);
    }
    FixedPoint(cs, a);
    KeptConfiguration(ini, cs, a, b, suffix);
  }

  lemma SameParams(a: NdbCluster, b: NdbCluster)
    requires ParamsAllowed(a) && a.spec.dataNode == b.spec.dataNode
    ensures ParamsAllowed(b)
  {
    hide ToLower;
  }
}
