/**
 From specification to config.ini and back: what a summary of a generated configuration says,
 and when the check for a needed update can be trusted
 (pkg/ndbconfig/config_summary.go, pkg/resources/configmap.go).
 */
module ConfigPipeline {
  import opened Wrappers
  import opened Text
  import opened NdbCluster
  import opened IniParser
  import opened IniDocument
  import opened ConfigSummary
  import opened ConfigGenerator
  import opened GeneratedConfig
  import Admission

  const REPLICAS := "noofreplicas"
  const SERVER_PORT := "serverport"
  const ENCRYPTED := "encryptedfilesystem"

  // ----- parameter names, in any case

  ghost function Lowers(keys: set<string>): set<string> {
    set k | k in keys :: ToLower(k)
  }

  predicate CaseDistinct(config: map<string, string>) {
    forall j, k :: j in config && k in config && ToLower(j) == ToLower(k) ==> j == k
  }

  ghost predicate DistinctKeys(keys: set<string>) {
    forall j, k :: j in keys && k in keys && ToLower(j) == ToLower(k) ==> j == k
  }

  /** Lower-casing loses a name exactly when two names differ only in case. */
  lemma {:induction false} LowersCount(keys: set<string>)
    ensures |Lowers(keys)| <= |keys|
    ensures |Lowers(keys)| == |keys| <==> DistinctKeys(keys)
    decreases keys
  {
    hide ToLower;
    if keys != {} {
      var k :| k in keys;
      var rest := keys - {k};
      LowersCount(rest);
      assert Lowers(keys) == Lowers(rest) + {ToLower(k)};
      if ToLower(k) in Lowers(rest) {
        var j :| j in rest && ToLower(j) == ToLower(k);
        assert !DistinctKeys(keys);
        assert Lowers(keys) == Lowers(rest);
      } else {
        assert DistinctKeys(keys) <==> DistinctKeys(rest);
      }
    } else {
      assert Lowers(keys) == {};
    }
  }

  predicate ParamsAllowed(nc: NdbCluster) {
    forall k :: k in nc.spec.dataNode.config ==> ToLower(k) !in Admission.DISALLOWED_PARAMS
  }

  /** No name twice, not even in another case, and none the operator sets itself. */
  predicate Clean(nc: NdbCluster) {
    && CaseDistinct(nc.spec.dataNode.config)
    && (nc.spec.tdeSecretName != "" ==> forall k :: k in nc.spec.dataNode.config ==> ToLower(k) != ENCRYPTED)
  }

  // ----- filling a section

  lemma {:induction false} FillConcat(section: Section, a: seq<Line>, b: seq<Line>)
    ensures Fill(section, a + b) == Fill(Fill(section, a), b)
    decreases |a|
  {
    hide ToLower;
    if a == [] {
      assert a + b == b;
    } else {
      assert (a + b)[0] == a[0] && (a + b)[1..] == a[1..] + b;
      match a[0]
      case Param(k, v) => FillConcat(section[ToLower(k) := v], a[1..], b);
      case _ => FillConcat(section, a[1..], b);
    }
  }

  ghost predicate LowersTo(keys: seq<string>, key: string) {
    exists i :: 0 <= i < |keys| && ToLower(keys[i]) == key
  }

  lemma {:induction false} FillKey(section: Section, config: map<string, string>, keys: seq<string>, key: string)
    requires forall k :: k in keys ==> k in config
    ensures var filled := Fill(section, Params(config, keys));
            && (key in filled <==> key in section || LowersTo(keys, key))
            && (key in section && !LowersTo(keys, key) ==> filled[key] == section[key])
    decreases |keys|
  {
    hide ToLower, LowersTo, Fill;
    if keys == [] {
      NoParams(section, key);
    } else {
      var k, rest := keys[0], keys[1..];
      var next := section[ToLower(k) := config[k]];
      FillOne(section, k, config[k], Params(config, rest));
      FillKey(next, config, rest, key);
      LowersToCons(keys, key);
    }
  }

  lemma NoParams(section: Section, key: string)
    ensures Fill(section, []) == section && !LowersTo([], key)
  {
  }

  lemma FillParams(section: Section, config: map<string, string>, keys: seq<string>)
    requires forall k :: k in keys ==> k in config
    ensures var filled := Fill(section, Params(config, keys));
            && (forall key :: key in filled <==> key in section || LowersTo(keys, key))
            && (forall key :: key in section && !LowersTo(keys, key) ==> filled[key] == section[key])
  {
    hide ToLower, LowersTo, Fill, Params;
    var filled := Fill(section, Params(config, keys));
    forall key
      ensures key in filled <==> key in section || LowersTo(keys, key)
      ensures key in section && !LowersTo(keys, key) ==> filled[key] == section[key]
    {
      FillKey(section, config, keys, key);
    }
  }

  lemma LowersToCons(keys: seq<string>, key: string)
    requires keys != []
    ensures LowersTo(keys, key) <==> key == ToLower(keys[0]) || LowersTo(keys[1..], key)
  {
    hide ToLower;
    if LowersTo(keys[1..], key) {
      var i :| 0 <= i < |keys[1..]| && ToLower(keys[1..][i]) == key;
      assert ToLower(keys[i + 1]) == key;
    }
    if key == ToLower(keys[0]) {
      assert LowersTo(keys, key);
    }
  }

  lemma {:induction false} FillValues(section: Section, config: map<string, string>, keys: seq<string>, k: string)
    requires CaseDistinct(config) && k in keys && forall j :: j in keys ==> j in config
    ensures var filled := Fill(section, Params(config, keys));
            ToLower(k) in filled && filled[ToLower(k)] == config[k]
    decreases |keys|
  {
    hide ToLower, Fill, LowersTo;
    var rest := keys[1..];
    var next := section[ToLower(keys[0]) := config[keys[0]]];
    FillOne(section, keys[0], config[keys[0]], Params(config, rest));
    if k in rest {
      FillValues(next, config, rest, k);
    } else {
      assert k == keys[0];
      NotAgain(config, keys);
      FillKey(next, config, rest, ToLower(k));
    }
  }

  lemma NotAgain(config: map<string, string>, keys: seq<string>)
    requires CaseDistinct(config) && keys != [] && keys[0] !in keys[1..] && forall j :: j in keys ==> j in config
    ensures !LowersTo(keys[1..], ToLower(keys[0]))
  {
    hide ToLower;
    forall i | 0 <= i < |keys[1..]| ensures ToLower(keys[1..][i]) != ToLower(keys[0]) {
      assert keys[1..][i] in keys[1..] && keys[1..][i] in keys;
    }
  }

  lemma LowersOfSorted(keys: set<string>, key: string)
    ensures LowersTo(SortedKeys(keys), key) <==> key in Lowers(keys)
  {
    hide ToLower, SortedKeys;
    SortedKeysAreKeys(keys);
    var sorted := SortedKeys(keys);
    if key in Lowers(keys) {
      var k :| k in keys && ToLower(k) == key;
      assert k in sorted;
    }
    if LowersTo(sorted, key) {
      var i :| 0 <= i < |sorted| && ToLower(sorted[i]) == key;
      assert sorted[i] in sorted;
    }
  }

  /** What adding the sorted parameters of a configuration does to a section. */
  lemma ConfigFilled(section: Section, config: map<string, string>)
    ensures var filled := Fill(section, ConfigParams(config));
            && filled.Keys == section.Keys + Lowers(config.Keys)
            && (forall key :: key in section && key !in Lowers(config.Keys) ==> filled[key] == section[key])
            && (CaseDistinct(config) ==> forall k :: k in config ==> ToLower(k) in filled && filled[ToLower(k)] == config[k])
  {
    hide ToLower, Fill, Params, SortedKeys, LowersTo, Lowers, CaseDistinct;
    var keys := SortedKeys(config.Keys);
    SortedKeysAreKeys(config.Keys);
    SortedFilled(section, config, keys);
    if CaseDistinct(config) {
      forall k | k in config
        ensures ToLower(k) in Fill(section, ConfigParams(config)) && Fill(section, ConfigParams(config))[ToLower(k)] == config[k]
      {
        FillValues(section, config, keys, k);
      }
    }
  }

  lemma SortedFilled(section: Section, config: map<string, string>, keys: seq<string>)
    requires keys == SortedKeys(config.Keys) && forall k :: k in keys ==> k in config
    ensures var filled := Fill(section, Params(config, keys));
            && filled.Keys == section.Keys + Lowers(config.Keys)
            && forall key :: key in section && key !in Lowers(config.Keys) ==> filled[key] == section[key]
  {
    hide ToLower, Fill, Params, SortedKeys, LowersTo, Lowers;
    FillParams(section, config, keys);
    var filled := Fill(section, Params(config, keys));
    forall key
      ensures key in filled.Keys <==> key in section.Keys + Lowers(config.Keys)
      ensures key in section && key !in Lowers(config.Keys) ==> filled[key] == section[key]
    {
      LowersOfSorted(config.Keys, key);
    }
  }

  // ----- the [ndbd default] section

  function OperatorSection(nc: NdbCluster): Section
    requires nc.spec.redundancyLevel >= 0
  {
    var both := map[REPLICAS := Itoa(nc.spec.redundancyLevel), SERVER_PORT := "1186"];
    if nc.spec.tdeSecretName != "" then both[ENCRYPTED := "1"] else both
  }

  lemma LowerOperatorNames()
    ensures ToLower("NoOfReplicas") == REPLICAS && ToLower("ServerPort") == SERVER_PORT
    ensures ToLower("EncryptedFileSystem") == ENCRYPTED
  {
    hide ToLower;
    LowerIs("NoOfReplicas", REPLICAS);
    LowerIs("ServerPort", SERVER_PORT);
    LowerIs("EncryptedFileSystem", ENCRYPTED);
  }

  lemma FillOne(section: Section, k: string, v: string, rest: seq<Line>)
    ensures Fill(section, [Param(k, v)] + rest) == Fill(section[ToLower(k) := v], rest)
  {
    assert ([Param(k, v)] + rest)[1..] == rest;
  }

  lemma FillSkip(section: Section, line: Line, rest: seq<Line>)
    requires !line.Param?
    ensures Fill(section, [line] + rest) == Fill(section, rest)
    ensures Fill(section, [line]) == section && Fill(section, []) == section
  {
    assert ([line] + rest)[1..] == rest;
    assert [line][1..] == [];
  }

  lemma OperatorFilled(nc: NdbCluster)
    requires nc.spec.redundancyLevel >= 0
    ensures Fill(map[], OperatorParams(nc)) == OperatorSection(nc)
  {
    hide ToLower, Fill, Itoa;
    LowerOperatorNames();
    var replicas := Itoa(nc.spec.redundancyLevel);
    var remark := Remark("Use a fixed ServerPort for all data nodes");
    var tde := if nc.spec.tdeSecretName != "" then [Param("EncryptedFileSystem", "1")] + [Blank] else [];
    assert OperatorParams(nc) == [Param("NoOfReplicas", replicas)] + ([remark] + ([Param("ServerPort", "1186")] + tde));
    FillOne(map[], "NoOfReplicas", replicas, [remark] + ([Param("ServerPort", "1186")] + tde));
    var s1: Section := map[REPLICAS := replicas];
    assert map[][REPLICAS := replicas] == s1;
    FillSkip(s1, remark, [Param("ServerPort", "1186")] + tde);
    FillOne(s1, "ServerPort", "1186", tde);
    var s2 := s1[SERVER_PORT := "1186"];
    FillOne(s2, "EncryptedFileSystem", "1", [Blank]);
    FillSkip(s2[ENCRYPTED := "1"], Blank, []);
    FillSkip(s2, Blank, []);
  }

  /** The operator's own parameters with those of the specification on top. */
  lemma NdbdDefaultIs(nc: NdbCluster)
    requires nc.spec.redundancyLevel >= 0
    ensures NdbdDefaultSection(nc) == Fill(OperatorSection(nc), ConfigParams(nc.spec.dataNode.config))
  {
    hide Fill, OperatorParams, OperatorSection, ConfigParams;
    FillConcat(map[], OperatorParams(nc), ConfigParams(nc.spec.dataNode.config));
    FillConcat(map[], OperatorParams(nc) + ConfigParams(nc.spec.dataNode.config), [Blank]);
    FillSkip(NdbdDefaultSection(nc), Blank, []);
    FillSkip(Fill(OperatorSection(nc), ConfigParams(nc.spec.dataNode.config)), Blank, []);
    OperatorFilled(nc);
  }

  lemma NdbdDefaultFacts(nc: NdbCluster)
    requires nc.spec.redundancyLevel >= 0 && ParamsAllowed(nc)
    ensures var f := NdbdDefaultSection(nc); var c := nc.spec.dataNode.config;
            && f.Keys == OperatorSection(nc).Keys + Lowers(c.Keys)
            && REPLICAS in f && f[REPLICAS] == Itoa(nc.spec.redundancyLevel)
            && SERVER_PORT in f && f[SERVER_PORT] == "1186"
            && (nc.spec.tdeSecretName != "" ==> ENCRYPTED in f)
            && (nc.spec.tdeSecretName != "" && ENCRYPTED !in Lowers(c.Keys) ==> f[ENCRYPTED] == "1")
            && (CaseDistinct(c) ==> forall k :: k in c ==> ToLower(k) in f && f[ToLower(k)] == c[k])
  {
    hide ToLower, Fill, ConfigParams, NdbdDefaultSection, Itoa;
    NdbdDefaultIs(nc);
    ConfigFilled(OperatorSection(nc), nc.spec.dataNode.config);
    OperatorNamesFree(nc);
  }

  lemma OperatorNamesFree(nc: NdbCluster)
    requires ParamsAllowed(nc)
    ensures REPLICAS !in Lowers(nc.spec.dataNode.config.Keys) && SERVER_PORT !in Lowers(nc.spec.dataNode.config.Keys)
  {
    hide ToLower;
  }

  function Encrypted(nc: NdbCluster): set<string> {
    if nc.spec.tdeSecretName != "" then {ENCRYPTED} else {}
  }

  /** Its size is the one the update check expects exactly for clean specifications; it is never larger. */
  lemma NdbdDefaultSize(nc: NdbCluster)
    requires nc.spec.redundancyLevel >= 0 && ParamsAllowed(nc)
    ensures var expected := |nc.spec.dataNode.config| + NUM_OF_OPERATOR_SET_CONFIGS + |Encrypted(nc)|;
            |NdbdDefaultSection(nc)| <= expected && (|NdbdDefaultSection(nc)| == expected <==> Clean(nc))
  {
    hide ToLower, NdbdDefaultSection, Lowers, ParamsAllowed, Itoa;
    NdbdDefaultFacts(nc);
    OperatorNamesFree(nc);
    var lowers := Lowers(nc.spec.dataNode.config.Keys);
    var f := NdbdDefaultSection(nc);
    assert |f| == |f.Keys|;
    assert f.Keys == {REPLICAS, SERVER_PORT} + (Encrypted(nc) + lowers);
    DisjointUnion({REPLICAS, SERVER_PORT}, Encrypted(nc) + lowers);
    LowersCount(nc.spec.dataNode.config.Keys);
    CleanMeans(nc);
    if ENCRYPTED in lowers && nc.spec.tdeSecretName != "" {
      assert Encrypted(nc) + lowers == lowers;
    } else {
      DisjointUnion(Encrypted(nc), lowers);
    }
  }

  lemma DisjointUnion(a: set<string>, b: set<string>)
    requires a !! b
    ensures |a + b| == |a| + |b|
  {
  }

  lemma CleanMeans(nc: NdbCluster)
    ensures var keys := nc.spec.dataNode.config.Keys;
            Clean(nc) <==> (DistinctKeys(keys) && (nc.spec.tdeSecretName != "" ==> ENCRYPTED !in Lowers(keys)))
  {
    hide ToLower;
  }

  // ----- what matters of a configuration

  /** The group without the version of the configuration and the marks of new data nodes. */
  function Stripped(key: string, group: seq<Section>): (r: seq<Section>)
    ensures |r| == |group|
  {
    if key == "system" then seq(|group|, i requires 0 <= i < |group| => group[i] - {"configgenerationnumber"})
    else if key == "ndbd" then seq(|group|, i requires 0 <= i < |group| => group[i] - {"nodegroup"})
    else group
  }

  /** A configuration up to its version and the NodeGroup parameters of new data nodes. */
  function Essence(ini: ConfigIni): ConfigIni {
    map key | key in ini :: Stripped(key, ini[key])
  }

  ghost function EssenceOf(nc: NdbCluster, suffix: string): ConfigIni
    requires Sizable(nc)
  {
    Essence(GeneratedIni(nc, None, suffix))
  }

  ghost predicate Tracks(ini: ConfigIni, nc: NdbCluster, suffix: string)
    requires Sizable(nc)
  {
    Essence(ini) == EssenceOf(nc, suffix)
  }

  lemma SameEssence(a: ConfigIni, b: ConfigIni)
    requires forall key :: key in a <==> key in b
    requires forall key :: key in a ==> Stripped(key, Group(a, key)) == Stripped(key, Group(b, key))
    ensures Essence(a) == Essence(b)
  {
    hide Stripped;
    forall key | key in a ensures Essence(a)[key] == Essence(b)[key] {
      assert Stripped(key, Group(a, key)) == Stripped(key, Group(b, key));
    }
  }

  lemma EssenceGroups(a: ConfigIni, b: ConfigIni, key: string)
    requires Essence(a) == Essence(b)
    ensures key in a <==> key in b
    ensures Stripped(key, Group(a, key)) == Stripped(key, Group(b, key))
  {
    hide Stripped;
    assert key in a <==> key in Essence(a);
    assert key in b <==> key in Essence(b);
  }

  /** The version and the old summary leave no other trace than what the essence leaves out. */
  lemma GeneratedTracks(nc: NdbCluster, old': Option<ConfigSummary>, suffix: string)
    requires Sizable(nc) && ConfigVersion(old') >= 0
    ensures Tracks(GeneratedIni(nc, old', suffix), nc, suffix)
  {
    hide GeneratedIni, ExpectedSections, Stripped;
    var a, b := GeneratedIni(nc, old', suffix), GeneratedIni(nc, None, suffix);
    forall key
      ensures key in a <==> key in b
      ensures Stripped(key, Group(a, key)) == Stripped(key, Group(b, key))
    {
      GeneratedGroups(nc, old', suffix, key);
      GeneratedGroups(nc, None, suffix, key);
      SameExpected(nc, old', suffix, key);
      StrippedEmpty(key, ExpectedSections(nc, old', suffix, key), ExpectedSections(nc, None, suffix, key));
    }
    SameEssence(a, b);
  }

  lemma StrippedEmpty(key: string, a: seq<Section>, b: seq<Section>)
    requires Stripped(key, a) == Stripped(key, b)
    ensures a == [] <==> b == []
  {
    assert |Stripped(key, a)| == |a| && |Stripped(key, b)| == |b|;
  }

  lemma SameExpected(nc: NdbCluster, old': Option<ConfigSummary>, suffix: string, key: string)
    requires Sizable(nc) && ConfigVersion(old') >= 0
    ensures Stripped(key, ExpectedSections(nc, old', suffix, key)) == Stripped(key, ExpectedSections(nc, None, suffix, key))
  {
    hide Bodies, ManagementBlocks, DataNodeBlocks, ServerBlocks, FreeBlocks, NdbdDefaultSection, Fill, LeadingSections, Stripped;
    if key == "system" || key == "ndb_mgmd default" {
      SameLeading(nc, ConfigVersion(old'), 1, key);
    } else if key == "ndbd" {
      SameDataNodes(nc, NewDataNodeStart(nc, old'), suffix);
    } else {
      NoLeading(nc, ConfigVersion(old'), key);
      NoLeading(nc, 1, key);
    }
  }

  /** The [system] section is the version and the name of the cluster. */
  lemma SystemSectionIs(nc: NdbCluster, version: nat)
    ensures LeadingSections(nc, version, "system")
         == [map["configgenerationnumber" := Itoa(version), "name" := nc.name]]
  {
    hide ToLower, Fill, Itoa, ConfigParams;
    LowerSystemNames();
    var body := LeadingBlocks(nc, version)[0].body;
    var rest := if ManagementConfig(nc) == map[] then [Blank] + ([Blank] + [Blank]) else [Blank];
    assert body == [Param("ConfigGenerationNumber", Itoa(version))] + ([Param("Name", nc.name)] + rest);
    var s1: Section := map["configgenerationnumber" := Itoa(version)];
    assert map[]["configgenerationnumber" := Itoa(version)] == s1;
    FillOne(map[], "ConfigGenerationNumber", Itoa(version), [Param("Name", nc.name)] + rest);
    FillOne(s1, "Name", nc.name, rest);
    var s2 := s1["name" := nc.name];
    FillSkip(s2, Blank, [Blank] + [Blank]);
    FillSkip(s2, Blank, [Blank]);
  }

  lemma LowerSystemNames()
    ensures ToLower("ConfigGenerationNumber") == "configgenerationnumber" && ToLower("Name") == "name"
  {
    hide ToLower;
    LowerIs("ConfigGenerationNumber", "configgenerationnumber");
    LowerIs("Name", "name");
  }

  lemma SameLeading(nc: NdbCluster, v: nat, w: nat, key: string)
    requires key == "system" || key == "ndb_mgmd default"
    ensures Stripped(key, LeadingSections(nc, v, key)) == Stripped(key, LeadingSections(nc, w, key))
  {
    hide Fill, Itoa, ConfigParams;
    if key == "system" {
      SystemSectionIs(nc, v);
      SystemSectionIs(nc, w);
      var a, b := LeadingSections(nc, v, key)[0], LeadingSections(nc, w, key)[0];
      assert a - {"configgenerationnumber"} == map["name" := nc.name] == b - {"configgenerationnumber"};
    }
  }

  lemma SameDataNodes(nc: NdbCluster, start: int, suffix: string)
    requires nc.spec.dataNode.nodeCount >= 0
    ensures var first, n := nc.GetManagementNodeCount() + 1, nc.spec.dataNode.nodeCount;
            Stripped("ndbd", Bodies(DataNodeBlocks(nc, suffix, start, first, n)))
            == Stripped("ndbd", Bodies(DataNodeBlocks(nc, suffix, 0, first, n)))
  {
    hide Hostname, Itoa, Fill;
    var first, n := nc.GetManagementNodeCount() + 1, nc.spec.dataNode.nodeCount;
    var a, b := DataNodeBlocks(nc, suffix, start, first, n), DataNodeBlocks(nc, suffix, 0, first, n);
    forall i | 0 <= i < n ensures BodyOf(a[i]) - {"nodegroup"} == BodyOf(b[i]) - {"nodegroup"} {
      assert a[i] == DataNodeBlock(nc, suffix, start, i, first + i);
      assert b[i] == DataNodeBlock(nc, suffix, 0, i, first + i);
      DataNodeSectionIs(nc, suffix, start, i, first + i);
      DataNodeSectionIs(nc, suffix, 0, i, first + i);
    }
  }

  function NodeSection(nodeId: nat, hostname: string): Section {
    map["nodeid" := Itoa(nodeId), "hostname" := hostname, "datadir" := DATA_DIR]
  }

  lemma LowerNodeParams()
    ensures ToLower("NodeId") == "nodeid" && ToLower("Hostname") == "hostname" && ToLower("DataDir") == "datadir"
    ensures ToLower("NodeGroup") == "nodegroup"
  {
    hide ToLower;
    LowerIs("NodeId", "nodeid");
    LowerIs("Hostname", "hostname");
    LowerIs("DataDir", "datadir");
    LowerIs("NodeGroup", "nodegroup");
  }

  lemma NodeFilled(nodeId: nat, hostname: string, rest: seq<Line>)
    ensures Fill(map[], [Param("NodeId", Itoa(nodeId)), Param("Hostname", hostname), Param("DataDir", DATA_DIR)] + rest)
         == Fill(NodeSection(nodeId, hostname), rest)
  {
    hide ToLower, Fill, Itoa;
    LowerNodeParams();
    var x, y, z := Param("NodeId", Itoa(nodeId)), Param("Hostname", hostname), Param("DataDir", DATA_DIR);
    assert [x, y, z] + rest == [x] + ([y] + ([z] + rest));
    FillOne(map[], "NodeId", Itoa(nodeId), [y] + ([z] + rest));
    var s1: Section := map["nodeid" := Itoa(nodeId)];
    assert map[]["nodeid" := Itoa(nodeId)] == s1;
    FillOne(s1, "Hostname", hostname, [z] + rest);
    var s2 := s1["hostname" := hostname];
    FillOne(s2, "DataDir", DATA_DIR, rest);
    assert s2["datadir" := DATA_DIR] == NodeSection(nodeId, hostname);
  }

  /** The section of a data node; only new ones have a NodeGroup. */
  lemma DataNodeSectionIs(nc: NdbCluster, suffix: string, start: int, ordinal: nat, nodeId: nat)
    ensures BodyOf(DataNodeBlock(nc, suffix, start, ordinal, nodeId))
         == var s := NodeSection(nodeId, Hostname(nc, "ndbmtd", ordinal, suffix));
            if IsNewDataNode(start, nodeId) then s["nodegroup" := "65536"] else s
  {
    hide ToLower, Fill, Itoa, Hostname;
    LowerNodeParams();
    var hostname := Hostname(nc, "ndbmtd", ordinal, suffix);
    var front := [Param("NodeId", Itoa(nodeId)), Param("Hostname", hostname), Param("DataDir", DATA_DIR)];
    var s := NodeSection(nodeId, hostname);
    var body := DataNodeBlock(nc, suffix, start, ordinal, nodeId).body;
    if IsNewDataNode(start, nodeId) {
      assert body == front + ([Param("NodeGroup", "65536")] + [Blank]);
      NodeFilled(nodeId, hostname, [Param("NodeGroup", "65536")] + [Blank]);
      FillOne(s, "NodeGroup", "65536", [Blank]);
      FillSkip(s["nodegroup" := "65536"], Blank, []);
    } else {
      assert body == front + [Blank];
      NodeFilled(nodeId, hostname, [Blank]);
      FillSkip(s, Blank, []);
    }
  }
}
