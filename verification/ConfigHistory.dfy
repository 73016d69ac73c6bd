/**
 The config map over a whole history of specifications: created for the first, updated for
 each of the others, and exactly when it describes the latest.
 */
module ConfigHistory {
  import opened Wrappers
  import opened Text
  import opened NdbCluster
  import opened IniParser
  import opened IniDocument
  import opened ConfigSummary
  import opened ConfigGenerator
  import opened ConfigMaps
  import opened GeneratedConfig
  import opened ConfigPipeline
  import opened ConfigStability
  import opened MyCnf

  // ----- the data of the config map, key by key

  /** The entries that hold one setting each, as written for a specification. */
  ghost predicate SettingsFor(data: map<string, string>, nc: NdbCluster)
    requires 0 <= nc.GetMySQLServerNodeCount() && 0 <= nc.generation
  {
    && Datum(data, NDB_GENERATION) == Itoa(nc.generation)
    && Datum(data, NUM_OF_MYSQL_SERVERS) == Itoa(nc.GetMySQLServerNodeCount())
    && Datum(data, MANAGEMENT_LOAD_BALANCER) == FormatBool(nc.ManagementLoadBalancerEnabled())
    && Datum(data, MYSQL_LOAD_BALANCER) == FormatBool(nc.spec.mysqlNode.Some? && nc.spec.mysqlNode.value.enableLoadBalancer)
    && Datum(data, MYSQL_ROOT_HOST) == (if nc.spec.mysqlNode.Some? then nc.spec.mysqlNode.value.rootHost else "")
    && Datum(data, TDE_SECRET) == nc.spec.tdeSecretName
  }

  function StoredCnf(nc: NdbCluster, version: nat): string {
    if nc.GetMySQLCnf() == "" then "" else Unlines(MyCnfPreamble(version)) + (nc.GetMySQLCnf() + "\n")
  }

  /**
   The data holds the settings of `nc`, a config.ini that was written for `base`, and the given
   versions of config.ini and my.cnf.
   */
  ghost predicate StoredFor(
    data: map<string, string>, base: NdbCluster, nc: NdbCluster, suffix: string, version: nat, cnfVersion: nat)
    requires Sizable(base) && 0 <= nc.GetMySQLServerNodeCount() && 0 <= nc.generation
  {
    && SettingsFor(data, nc)
    && Parse(Datum(data, CONFIG_INI)).Ok?
    && Tracks(Parse(Datum(data, CONFIG_INI)).value, base, suffix)
    && GetValueFromSection(Parse(Datum(data, CONFIG_INI)).value, "system", "ConfigGenerationNumber") == Ok(Itoa(version))
    && Datum(data, MY_CNF) == StoredCnf(nc, cnfVersion)
  }

  /** What a specification needs for its configuration to be read back faithfully. */
  ghost predicate Acceptable(nc: NdbCluster, suffix: string) {
    && Sizable(nc) && PlainSpec(nc, suffix) && ParamsAllowed(nc)
    && 0 <= nc.GetMySQLServerNodeCount() <= MAX_INT32
    && 0 <= nc.generation <= MAX_INT32
    && (nc.GetMySQLCnf() == "" || ValidCnf(nc.GetMySQLCnf()))
  }

  lemma KeysDiffer()
    ensures CONFIG_INI !in {NUM_OF_MYSQL_SERVERS, NDB_GENERATION, MANAGEMENT_LOAD_BALANCER, MYSQL_LOAD_BALANCER, MY_CNF,
                            MYSQL_ROOT_HOST, TDE_SECRET, INITIAL_RESTART}
    ensures NUM_OF_MYSQL_SERVERS !in {NDB_GENERATION, MANAGEMENT_LOAD_BALANCER, MYSQL_LOAD_BALANCER, MY_CNF,
                                      MYSQL_ROOT_HOST, TDE_SECRET, INITIAL_RESTART}
    ensures NDB_GENERATION !in {MANAGEMENT_LOAD_BALANCER, MYSQL_LOAD_BALANCER, MY_CNF, MYSQL_ROOT_HOST, TDE_SECRET, INITIAL_RESTART}
    ensures MANAGEMENT_LOAD_BALANCER !in {MYSQL_LOAD_BALANCER, MY_CNF, MYSQL_ROOT_HOST, TDE_SECRET, INITIAL_RESTART}
    ensures MYSQL_LOAD_BALANCER !in {MY_CNF, MYSQL_ROOT_HOST, TDE_SECRET, INITIAL_RESTART}
    ensures MY_CNF !in {MYSQL_ROOT_HOST, TDE_SECRET, INITIAL_RESTART}
    ensures MYSQL_ROOT_HOST !in {TDE_SECRET, INITIAL_RESTART}
    ensures TDE_SECRET != INITIAL_RESTART
  {
  }

  lemma ManagementDatum(nc: NdbCluster, suffix: string, data: map<string, string>, old': Option<ConfigSummary>)
    requires Storable(nc, old')
    ensures var d := ManagementData(nc, suffix, data, old');
            && Datum(d, CONFIG_INI)
               == (if old'.Some? && SameClusterConfig(old'.value, nc) then Datum(data, CONFIG_INI) else ConfigText(nc, old', suffix))
            && Datum(d, NUM_OF_MYSQL_SERVERS) == Itoa(nc.GetMySQLServerNodeCount())
            && Datum(d, MANAGEMENT_LOAD_BALANCER) == FormatBool(nc.ManagementLoadBalancerEnabled())
            && Datum(d, TDE_SECRET) == nc.spec.tdeSecretName
            && Datum(d, MY_CNF) == Datum(data, MY_CNF)
  {
    hide ConfigText, SameClusterConfig, Itoa, Countable, ConfigFails, CnfFails;
    KeysDiffer();
  }

  lemma MySQLDatum(nc: NdbCluster, data: map<string, string>, old': Option<ConfigSummary>)
    requires Storable(nc, old')
    ensures var d := MySQLData(nc, data, old');
            && Datum(d, CONFIG_INI) == Datum(data, CONFIG_INI)
            && Datum(d, NUM_OF_MYSQL_SERVERS) == Datum(data, NUM_OF_MYSQL_SERVERS)
            && Datum(d, MANAGEMENT_LOAD_BALANCER) == Datum(data, MANAGEMENT_LOAD_BALANCER)
            && Datum(d, TDE_SECRET) == Datum(data, TDE_SECRET)
            && Datum(d, MYSQL_LOAD_BALANCER) == FormatBool(nc.spec.mysqlNode.Some? && nc.spec.mysqlNode.value.enableLoadBalancer)
            && Datum(d, MYSQL_ROOT_HOST) == (if nc.spec.mysqlNode.Some? then nc.spec.mysqlNode.value.rootHost else "")
            && Datum(d, MY_CNF) == (if MyCnfDiffers(old', nc.GetMySQLCnf()) then MyCnfText(nc, old') else Datum(data, MY_CNF))
  {
    hide MyCnfText, MyCnfDiffers, Countable, ConfigFails, CnfFails;
    KeysDiffer();
  }

  // ----- creation

  lemma StorableFirst(nc: NdbCluster, suffix: string)
    requires Acceptable(nc, suffix)
    ensures Storable(nc, None)
  {
    hide Shaped, SameClusterConfig, PlainSpec, ParamsAllowed, Parse;
  }

  lemma VersionFound(nc: NdbCluster, old': Option<ConfigSummary>, suffix: string)
    requires Sizable(nc) && ConfigVersion(old') >= 0
    ensures GetValueFromSection(GeneratedIni(nc, old', suffix), "system", "ConfigGenerationNumber")
         == Ok(Itoa(ConfigVersion(old')))
  {
    hide GeneratedIni, Fill, ToLower, Itoa, LeadingBlocks;
    LowerNames();
    LowerSystemNames();
    GeneratedGroups(nc, old', suffix, "system");
    SystemSectionIs(nc, ConfigVersion(old'));
  }

  /** A freshly generated text is stored for the specification, with the next version. */
  lemma Regenerated(data: map<string, string>, nc: NdbCluster, old': Option<ConfigSummary>, suffix: string)
    requires Acceptable(nc, suffix) && ConfigVersion(old') >= 0
    requires Datum(data, CONFIG_INI) == ConfigText(nc, old', suffix)
    ensures Parse(Datum(data, CONFIG_INI)) == Ok(GeneratedIni(nc, old', suffix))
    ensures Tracks(GeneratedIni(nc, old', suffix), nc, suffix)
    ensures GetValueFromSection(GeneratedIni(nc, old', suffix), "system", "ConfigGenerationNumber")
         == Ok(Itoa(ConfigVersion(old')))
  {
    hide GeneratedIni, ConfigText, Parse, Tracks, Sizable, PlainSpec, GetValueFromSection;
    GeneratedParses(nc, old', suffix);
    GeneratedTracks(nc, old', suffix);
    VersionFound(nc, old', suffix);
  }

  lemma CreatedSettings(nc: NdbCluster, suffix: string)
    requires Storable(nc, None)
    ensures var d := CreatedData(nc, suffix);
            && SettingsFor(d, nc)
            && Datum(d, CONFIG_INI) == ConfigText(nc, None, suffix)
            && Datum(d, MY_CNF) == (if MyCnfDiffers(None, nc.GetMySQLCnf()) then MyCnfText(nc, None) else "")
  {
    hide ConfigText, MyCnfText, MyCnfDiffers, ManagementData, MySQLData, Itoa, FormatBool, Countable, ConfigFails, CnfFails;
    var m := ManagementData(nc, suffix, map[], None);
    ManagementDatum(nc, suffix, map[], None);
    MySQLDatum(nc, m, None);
    KeysDiffer();
  }

  lemma CreatedIsStored(nc: NdbCluster, suffix: string)
    requires Acceptable(nc, suffix)
    ensures Storable(nc, None)
    ensures StoredFor(CreatedData(nc, suffix), nc, nc, suffix, 1, 1)
  {
    hide CreatedData, ConfigText, GeneratedIni, Parse, Tracks, GetValueFromSection, Storable, SettingsFor, Unlines;
    StorableFirst(nc, suffix);
    CreatedSettings(nc, suffix);
    Regenerated(CreatedData(nc, suffix), nc, None, suffix);
  }

  // ----- reading back

  /** The settings of the summary are those of the specification. */
  ghost predicate DescribesSettings(cs: ConfigSummary, nc: NdbCluster) {
    && cs.ndbClusterGeneration == nc.generation
    && cs.numOfMySQLServers == nc.GetMySQLServerNodeCount()
    && cs.managementLoadBalancer == nc.ManagementLoadBalancerEnabled()
    && cs.mySQLLoadBalancer == (nc.spec.mysqlNode.Some? && nc.spec.mysqlNode.value.enableLoadBalancer)
    && cs.mySQLRootHost == (if nc.spec.mysqlNode.Some? then nc.spec.mysqlNode.value.rootHost else "")
    && cs.tdePasswordSecretName == nc.spec.tdeSecretName
  }

  /** The summary as a whole describes the specification. */
  ghost predicate Describes(cs: ConfigSummary, nc: NdbCluster)
    requires nc.spec.redundancyLevel >= 0
  {
    DescribesConfig(cs, nc) && DescribesSettings(cs, nc)
  }

  lemma BoolRecovered(b: bool)
    ensures BoolOf(FormatBool(b)) == b
  {
  }

  lemma CnfRecovered(nc: NdbCluster, version: nat)
    requires version <= MAX_INT32 && (nc.GetMySQLCnf() == "" || ValidCnf(nc.GetMySQLCnf()))
    ensures var c := MyCnfOf(StoredCnf(nc, version));
            && c.Ok? && MyCnfVersion(c.value) == Ok(if nc.GetMySQLCnf() == "" then 0 else version)
            && (c.value.None? <==> nc.GetMySQLCnf() == "")
  {
    hide Parse, Unlines, MyCnfPreamble, GetValueFromSection;
    if nc.GetMySQLCnf() != "" {
      VersionRecovered(nc.GetMySQLCnf(), version);
    }
  }

  lemma SummaryExists(
    data: map<string, string>, base: NdbCluster, nc: NdbCluster, suffix: string, version: nat, cnfVersion: nat)
    requires Acceptable(base, suffix) && Acceptable(nc, suffix) && version <= MAX_INT32 && cnfVersion <= MAX_INT32
    requires StoredFor(data, base, nc, suffix, version, cnfVersion)
    ensures NewConfigSummary(data).Ok?
    ensures var cs := NewConfigSummary(data).value;
            && cs.mySQLClusterConfigVersion == version
            && cs.mySQLServerConfigVersion == (if nc.GetMySQLCnf() == "" then 0 else cnfVersion)
            && MyCnfOf(StoredCnf(nc, cnfVersion)) == Ok(cs.myCnfConfig)
  {
    hide Parse, Tracks, Sizable, PlainSpec, ParamsAllowed, GetValueFromSection, GetSection, SettingsFor, MyCnfVersion, MyCnfOf, StoredCnf,
      ParseInt32, BoolOf, GetNumberOfSections, GetValue, Itoa, NdbdDefaultSection;
    var ini := Parse(Datum(data, CONFIG_INI)).value;
    GroupSizes(ini, base, suffix);
    CnfRecovered(nc, cnfVersion);
    ParseItoa(version);
  }

  /** Reading back what was stored describes the specification that config.ini was written for, and the latest settings. */
  lemma SummaryDescribes(
    data: map<string, string>, base: NdbCluster, nc: NdbCluster, suffix: string, version: nat, cnfVersion: nat)
    requires Acceptable(base, suffix) && Acceptable(nc, suffix) && version <= MAX_INT32 && cnfVersion <= MAX_INT32
    requires StoredFor(data, base, nc, suffix, version, cnfVersion)
    ensures NewConfigSummary(data).Ok? && base.spec.redundancyLevel >= 0
    ensures DescribesConfig(NewConfigSummary(data).value, base)
    ensures DescribesSettings(NewConfigSummary(data).value, nc)
  {
    hide Parse, Tracks, Sizable, PlainSpec, ParamsAllowed, GetValueFromSection, GetSection, MyCnfVersion, MyCnfOf, StoredCnf,
      ParseInt32, BoolOf, GetNumberOfSections, GetValue, Itoa, FormatBool, DescribesConfig;
    AcceptableIsShaped(base, suffix);
    SummaryExists(data, base, nc, suffix, version, cnfVersion);
    TrackedSummary(data, Parse(Datum(data, CONFIG_INI)).value, base, suffix, NewConfigSummary(data).value);
    ParseItoa(nc.generation);
    ParseItoa(nc.GetMySQLServerNodeCount());
    BoolRecovered(nc.ManagementLoadBalancerEnabled());
    BoolRecovered(nc.spec.mysqlNode.Some? && nc.spec.mysqlNode.value.enableLoadBalancer);
  }

  // ----- updates

  /** How the next specification may differ, as admission allows. */
  ghost predicate Follows(a: NdbCluster, b: NdbCluster) {
    || b == a
    || (&& b.name == a.name && b.spec.redundancyLevel == a.spec.redundancyLevel
        && a.spec.dataNode.nodeCount <= b.spec.dataNode.nodeCount
        && a.generation < b.generation)
  }

  /** config.ini was written for `base` and has passed the check for every specification up to `nc`. */
  ghost predicate KeptFor(cs: ConfigSummary, base: NdbCluster, nc: NdbCluster) {
    || nc == base
    || (&& Follows(base, nc)
        && (base.spec.tdeSecretName == "" <==> nc.spec.tdeSecretName == "")
        && SameClusterConfig(cs, nc))
  }

  /** Stored and, if kept, rightly so by the check. */
  ghost predicate HeldFor(
    data: map<string, string>, base: NdbCluster, nc: NdbCluster, suffix: string, version: nat, cnfVersion: nat)
  {
    && Acceptable(base, suffix) && Acceptable(nc, suffix)
    && StoredFor(data, base, nc, suffix, version, cnfVersion)
    && NewConfigSummary(data).Ok? && KeptFor(NewConfigSummary(data).value, base, nc)
  }

  /** The check depends on what a summary says about config.ini, and on whether there is a secret. */
  lemma CheckAgrees(cs: ConfigSummary, cs': ConfigSummary, base: NdbCluster, nc: NdbCluster)
    requires base.spec.redundancyLevel >= 0 && DescribesConfig(cs, base) && DescribesConfig(cs', base)
    requires cs.tdePasswordSecretName == "" <==> cs'.tdePasswordSecretName == ""
    ensures SameClusterConfig(cs, nc) <==> SameClusterConfig(cs', nc)
  {
    hide NdbdDefaultSection, StoresAll;
  }

  lemma ConfigRegenerated(text: string, cs: ConfigSummary, b: NdbCluster, suffix: string, version: nat)
    requires Acceptable(b, suffix) && Sizable(b) && cs.mySQLClusterConfigVersion == version < MAX_INT32
    requires ConfigVersion(Some(cs)) >= 0 && text == ConfigText(b, Some(cs), suffix)
    ensures Parse(text).Ok? && Tracks(Parse(text).value, b, suffix)
    ensures GetValueFromSection(Parse(text).value, "system", "ConfigGenerationNumber") == Ok(Itoa(version + 1))
  {
    hide Parse, Tracks, Sizable, Acceptable, GetValueFromSection, Itoa, ConfigText, Int32, GeneratedIni;
    SmallInt32(version + 1);
    var data := map[CONFIG_INI := text];
    assert Datum(data, CONFIG_INI) == text;
    Regenerated(data, b, Some(cs), suffix);
  }

  lemma KeptKeepsSlots(cs: ConfigSummary, a: NdbCluster, b: NdbCluster)
    requires a.spec.redundancyLevel >= 0 && DescribesConfig(cs, a) && SameClusterConfig(cs, b)
    ensures a.MySQLSlots() == b.MySQLSlots()
    ensures cs.tdePasswordSecretName == "" <==> b.spec.tdeSecretName == ""
  {
    hide NdbdDefaultSection, StoresAll;
  }

  lemma UpdatedSettings(nc: NdbCluster, suffix: string, data: map<string, string>, cs: ConfigSummary)
    requires Storable(nc, Some(cs)) && cs.ndbClusterGeneration != nc.generation
    ensures var d := UpdatedData(nc, suffix, data, cs);
            && SettingsFor(d, nc)
            && Datum(d, CONFIG_INI)
               == (if SameClusterConfig(cs, nc) then Datum(data, CONFIG_INI) else ConfigText(nc, Some(cs), suffix))
            && Datum(d, MY_CNF)
               == (if MyCnfDiffers(Some(cs), nc.GetMySQLCnf()) then MyCnfText(nc, Some(cs)) else Datum(data, MY_CNF))
  {
    hide ConfigText, MyCnfText, MyCnfDiffers, ManagementData, MySQLData, Itoa, FormatBool, Countable, ConfigFails, CnfFails, SameClusterConfig;
    var m := ManagementData(nc, suffix, data, Some(cs));
    ManagementDatum(nc, suffix, data, Some(cs));
    MySQLDatum(nc, m, Some(cs));
    KeysDiffer();
  }

  /** my.cnf after an update is that of the new specification, whatever was stored. */
  lemma CnfUpdated(cs: ConfigSummary, a: NdbCluster, b: NdbCluster, cnfVersion: nat)
    requires a.GetMySQLCnf() == "" || ValidCnf(a.GetMySQLCnf())
    requires b.GetMySQLCnf() == "" || ValidCnf(b.GetMySQLCnf())
    requires cnfVersion < MAX_INT32 && MyCnfOf(StoredCnf(a, cnfVersion)) == Ok(cs.myCnfConfig)
    requires cs.mySQLServerConfigVersion == if a.GetMySQLCnf() == "" then 0 else cnfVersion
    ensures var next := MyCnfVersionOf(Some(cs));
            && 0 <= next <= cnfVersion + 1
            && (if MyCnfDiffers(Some(cs), b.GetMySQLCnf()) then MyCnfText(b, Some(cs)) else StoredCnf(a, cnfVersion))
               == StoredCnf(b, next)
  {
    hide Parse, Unlines, MyCnfPreamble, SameSections, ValidCnf;
    SmallInt32(cs.mySQLServerConfigVersion + 1);
    CnfRecovered(a, cnfVersion);
    if b.GetMySQLCnf() != "" {
      if a.GetMySQLCnf() != "" {
        CnfAlwaysRewritten(cs, b, a.GetMySQLCnf(), cnfVersion);
      } else {
        CnfAppears(cs, b);
      }
    }
  }

  lemma CnfAppears(cs: ConfigSummary, b: NdbCluster)
    requires cs.myCnfConfig == None && b.GetMySQLCnf() != "" && ValidCnf(b.GetMySQLCnf())
    ensures MyCnfDiffers(Some(cs), b.GetMySQLCnf())
  {
    hide Parse;
    ValidCnfKeys(b.GetMySQLCnf());
    assert MYSQLD in Parse(b.GetMySQLCnf()).value.Keys;
  }

  lemma StorableNext(b: NdbCluster, cs: ConfigSummary, suffix: string)
    requires Acceptable(b, suffix)
    requires 0 <= cs.mySQLClusterConfigVersion < MAX_INT32 && 0 <= cs.mySQLServerConfigVersion < MAX_INT32
    ensures Storable(b, Some(cs))
  {
    hide Shaped, SameClusterConfig, PlainSpec, ParamsAllowed, Parse;
    SmallInt32(cs.mySQLClusterConfigVersion + 1);
    SmallInt32(cs.mySQLServerConfigVersion + 1);
  }

  /**
   One update writes config.ini for the new specification, or keeps it because it passes the
   check; everything else is that of the new specification. No version grows by more than one.
   */
  lemma UpdateIsStored(
    data: map<string, string>, base: NdbCluster, a: NdbCluster, b: NdbCluster, suffix: string, version: nat, cnfVersion: nat)
    returns (version': nat, cnfVersion': nat)
    requires HeldFor(data, base, a, suffix, version, cnfVersion) && Acceptable(b, suffix) && Follows(a, b)
    requires version < MAX_INT32 && cnfVersion < MAX_INT32
    ensures NewConfigSummary(data).Ok? && Storable(b, Some(NewConfigSummary(data).value))
    ensures version' <= version + 1 && cnfVersion' <= cnfVersion + 1
    ensures HeldFor(UpdatedData(b, suffix, data, NewConfigSummary(data).value), Written(NewConfigSummary(data).value, base, b), b,
                    suffix, version', cnfVersion')
  {
    hide Parse, Tracks, Sizable, PlainSpec, ParamsAllowed, GetValueFromSection, StoredCnf, Storable, SettingsFor, NewConfigSummary, UpdatedData,
      MyCnfOf, MyCnfDiffers, MyCnfText, ConfigText, DescribesConfig, SameClusterConfig, ValidCnf, KeptFor;
    SummaryExists(data, base, a, suffix, version, cnfVersion);
    SummaryDescribes(data, base, a, suffix, version, cnfVersion);
    var cs := NewConfigSummary(data).value;
    StorableNext(b, cs, suffix);
    var data' := UpdatedData(b, suffix, data, cs);
    var base' := Written(cs, base, b);
    if b == a {
      version', cnfVersion' := version, cnfVersion;
      FlagCleared(data, a, suffix, cs);
    } else {
      UpdatedSettings(b, suffix, data, cs);
      if !SameClusterConfig(cs, b) {
        ConfigRegenerated(Datum(data', CONFIG_INI), cs, b, suffix, version);
      }
      CnfUpdated(cs, a, b, cnfVersion);
      version' := if SameClusterConfig(cs, b) then version else version + 1;
      cnfVersion' := MyCnfVersionOf(Some(cs));
    }
    AcceptableIsShaped(base, suffix);
    AcceptableIsShaped(b, suffix);
    SummaryDescribes(data', base', b, suffix, version', cnfVersion');
    StillKept(cs, NewConfigSummary(data').value, base, a, b);
  }

  /** The specification that config.ini is written for after an update to `nc`. */
  ghost function Written(cs: ConfigSummary, base: NdbCluster, nc: NdbCluster): NdbCluster {
    if cs.ndbClusterGeneration == nc.generation || SameClusterConfig(cs, nc) then base else nc
  }

  lemma StillKept(cs: ConfigSummary, cs': ConfigSummary, base: NdbCluster, a: NdbCluster, b: NdbCluster)
    requires base.spec.redundancyLevel >= 0 && b.spec.redundancyLevel >= 0
    requires DescribesConfig(cs, base) && DescribesSettings(cs, a) && KeptFor(cs, base, a) && Follows(a, b)
    requires DescribesConfig(cs', Written(cs, base, b)) && DescribesSettings(cs', b)
    ensures KeptFor(cs', Written(cs, base, b), b)
  {
    hide DescribesConfig, SameClusterConfig;
    if SameClusterConfig(cs, b) {
      KeptKeepsSlots(cs, base, b);
    }
    if Written(cs, base, b) == base && (SameClusterConfig(cs, b) || b == a) {
      CheckAgrees(cs, cs', base, b);
    }
  }

  lemma FlagCleared(data: map<string, string>, nc: NdbCluster, suffix: string, cs: ConfigSummary)
    requires Storable(nc, Some(cs)) && cs.ndbClusterGeneration == nc.generation
    ensures var d := UpdatedData(nc, suffix, data, cs);
            && (SettingsFor(data, nc) ==> SettingsFor(d, nc))
            && Datum(d, CONFIG_INI) == Datum(data, CONFIG_INI) && Datum(d, MY_CNF) == Datum(data, MY_CNF)
  {
    hide Storable, MySQLData, ManagementData, Itoa, FormatBool;
    KeysDiffer();
  }

  // ----- histories

  /** The config map after a history of specifications; None if reading it back ever failed. */
  ghost function DataAfter(specs: seq<NdbCluster>, suffix: string): Option<map<string, string>>
    requires specs != []
  {
    var n := |specs| - 1;
    if n == 0 then (if Storable(specs[0], None) then Some(CreatedData(specs[0], suffix)) else None)
    else
      match DataAfter(specs[..n], suffix)
      case None => None
      case Some(data) =>
        match NewConfigSummary(data)
        case Err(_) => None
        case Ok(cs) => if Storable(specs[n], Some(cs)) then Some(UpdatedData(specs[n], suffix, data, cs)) else None
  }

  /** The specification that config.ini was last written for. */
  ghost function LastWritten(specs: seq<NdbCluster>, suffix: string): NdbCluster
    requires specs != [] && DataAfter(specs, suffix).Some?
  {
    var n := |specs| - 1;
    if n == 0 then specs[0]
    else
      var cs := NewConfigSummary(DataAfter(specs[..n], suffix).value).value;
      Written(cs, LastWritten(specs[..n], suffix), specs[n])
  }

  ghost predicate ValidHistory(specs: seq<NdbCluster>, suffix: string) {
    && 0 < |specs| < MAX_INT32
    && (forall i :: 0 <= i < |specs| ==> Acceptable(specs[i], suffix))
    && (forall i :: 0 < i < |specs| ==> Follows(specs[i - 1], specs[i]))
  }

  lemma {:induction false} HistoryIsHeld(specs: seq<NdbCluster>, suffix: string) returns (version: nat, cnfVersion: nat)
    requires ValidHistory(specs, suffix)
    ensures version <= |specs| && cnfVersion <= |specs|
    ensures DataAfter(specs, suffix).Some?
    ensures HeldFor(DataAfter(specs, suffix).value, LastWritten(specs, suffix), specs[|specs| - 1], suffix, version, cnfVersion)
    decreases |specs|
  {
    hide Acceptable, Follows, StoredFor, Storable, CreatedData, UpdatedData, NewConfigSummary, Written;
    var n := |specs| - 1;
    if n == 0 {
      CreatedIsStored(specs[0], suffix);
      SummaryExists(CreatedData(specs[0], suffix), specs[0], specs[0], suffix, 1, 1);
      version, cnfVersion := 1, 1;
    } else {
      var before := specs[..n];
      assert ValidHistory(before, suffix);
      assert before[|before| - 1] == specs[n - 1];
      var v, w := HistoryIsHeld(before, suffix);
      version, cnfVersion := UpdateIsStored(DataAfter(before, suffix).value, LastWritten(before, suffix), specs[n - 1], specs[n], suffix, v, w);
    }
  }

  /**
   After any history the config map can be read back and has the settings of the latest
   specification. Its config.ini is the one for that specification, up to the version and the
   marks of new data nodes, exactly if it was written for it or was rightly kept; and the
   summary's counts and data node parameters are the latest ones exactly if the data node
   section was.
   */
  lemma HistoryDescribed(specs: seq<NdbCluster>, suffix: string)
    requires ValidHistory(specs, suffix)
    ensures DataAfter(specs, suffix).Some? && NewConfigSummary(DataAfter(specs, suffix).value).Ok?
    ensures var data, last := DataAfter(specs, suffix).value, specs[|specs| - 1];
            var cs, base := NewConfigSummary(data).value, LastWritten(specs, suffix);
            && Sizable(last) && last.spec.redundancyLevel >= 0
            && DescribesSettings(cs, last)
            && Parse(Datum(data, CONFIG_INI)).Ok?
            && (Tracks(Parse(Datum(data, CONFIG_INI)).value, last, suffix) <==> base == last || KeptIsCurrent(cs, base, last))
            && (Describes(cs, last) <==> base == last || DefaultsAreCurrent(cs, last))
  {
    hide PlainSpec, ParamsAllowed, Sizable, SettingsFor, DataAfter, LastWritten, NewConfigSummary, DescribesConfig, SameClusterConfig,
      DefaultsAreCurrent, KeptIsCurrent, Parse, Tracks, GetValueFromSection, StoredCnf, ValidCnf;
    var version, cnfVersion := HistoryIsHeld(specs, suffix);
    var data, base, last := DataAfter(specs, suffix).value, LastWritten(specs, suffix), specs[|specs| - 1];
    SummaryDescribes(data, base, last, suffix, version, cnfVersion);
    AcceptableIsShaped(last, suffix);
    AcceptableIsShaped(base, suffix);
    var cs := NewConfigSummary(data).value;
    if base != last {
      KeptConfiguration(Parse(Datum(data, CONFIG_INI)).value, cs, base, last, suffix);
      KeptDefaults(cs, base, last);
    }
  }

  lemma EncryptionStaysOn(a: NdbCluster)
    requires a.spec.redundancyLevel >= 0 && ParamsAllowed(a) && Clean(a)
    ensures a.spec.tdeSecretName != "" ==> EncryptionOn(NdbdDefaultSection(a))
  {
    hide NdbdDefaultSection, ToLower, Lowers, ParamsAllowed, Itoa;
    NdbdDefaultFacts(a);
    CleanMeans(a);
  }

  lemma {:induction false} WrittenForOne(specs: seq<NdbCluster>, suffix: string)
    requires specs != [] && DataAfter(specs, suffix).Some?
    ensures exists i :: 0 <= i < |specs| && specs[i] == LastWritten(specs, suffix)
    decreases |specs|
  {
    hide Storable, CreatedData, UpdatedData, NewConfigSummary, Written;
    var n := |specs| - 1;
    if n == 0 {
      assert specs[0] == LastWritten(specs, suffix);
    } else {
      WrittenForOne(specs[..n], suffix);
      var i :| 0 <= i < n && specs[..n][i] == LastWritten(specs[..n], suffix);
      assert specs[i] == specs[..n][i];
      WrittenForEither(specs, suffix);
      assert specs[n] == LastWritten(specs, suffix) || specs[i] == LastWritten(specs, suffix);
    }
  }

  lemma WrittenForEither(specs: seq<NdbCluster>, suffix: string)
    requires |specs| > 1 && DataAfter(specs, suffix).Some?
    ensures DataAfter(specs[..|specs| - 1], suffix).Some?
    ensures LastWritten(specs, suffix) in {LastWritten(specs[..|specs| - 1], suffix), specs[|specs| - 1]}
  {
    hide Storable, CreatedData, UpdatedData, NewConfigSummary, SameClusterConfig;
  }

  /**
   Without management configuration, with clean data node parameters, and when the connections
   of the servers are only regrouped where the check sees it, every latest specification is
   described, and has its config.ini.
   */
  lemma CleanHistoryDescribed(specs: seq<NdbCluster>, suffix: string)
    requires ValidHistory(specs, suffix)
    requires forall i :: 0 <= i < |specs| ==> Clean(specs[i])
    ensures DataAfter(specs, suffix).Some? && NewConfigSummary(DataAfter(specs, suffix).value).Ok?
    ensures var data, last := DataAfter(specs, suffix).value, specs[|specs| - 1];
            && Sizable(last) && last.spec.redundancyLevel >= 0
            && Describes(NewConfigSummary(data).value, last)
            && (Unregrouped(specs) && (forall i :: 0 <= i < |specs| ==> ManagementConfig(specs[i]) == map[]) ==>
                  && Parse(Datum(data, CONFIG_INI)).Ok?
                  && Tracks(Parse(Datum(data, CONFIG_INI)).value, last, suffix))
  {
    hide Acceptable, DataAfter, LastWritten, NewConfigSummary, SameClusterConfig, Clean, StoredFor, Tracks, Parse,
      NdbdDefaultSection, Follows, Sizable, SamePools, ManagementConfig, Unregrouped;
    HistoryDescribed(specs, suffix);
    var version, cnfVersion := HistoryIsHeld(specs, suffix);
    var data, base, last := DataAfter(specs, suffix).value, LastWritten(specs, suffix), specs[|specs| - 1];
    SummaryDescribes(data, base, last, suffix, version, cnfVersion);
    WrittenForOne(specs, suffix);
    AcceptableIsShaped(base, suffix);
    EncryptionStaysOn(base);
    if Unregrouped(specs) {
      PoolsStay(specs, suffix);
    }
  }

  /** Where two specifications in a row have the same number of slots, they have the same pools. */
  ghost predicate Unregrouped(specs: seq<NdbCluster>) {
    forall i :: 0 < i < |specs| && specs[i - 1].MySQLSlots() == specs[i].MySQLSlots() ==> SamePools(specs[i - 1], specs[i])
  }

  lemma SlotsStay(specs: seq<NdbCluster>, suffix: string)
    requires ValidHistory(specs, suffix)
    ensures DataAfter(specs, suffix).Some?
    ensures LastWritten(specs, suffix).MySQLSlots() == specs[|specs| - 1].MySQLSlots()
  {
    hide Acceptable, Follows, StoredFor, DataAfter, LastWritten, NewConfigSummary, SameClusterConfig, DescribesConfig;
    var version, cnfVersion := HistoryIsHeld(specs, suffix);
    var data, base, last := DataAfter(specs, suffix).value, LastWritten(specs, suffix), specs[|specs| - 1];
    SummaryDescribes(data, base, last, suffix, version, cnfVersion);
    if base != last {
      KeptKeepsSlots(NewConfigSummary(data).value, base, last);
    }
  }

  lemma {:induction false} PoolsStay(specs: seq<NdbCluster>, suffix: string)
    requires ValidHistory(specs, suffix) && Unregrouped(specs)
    ensures DataAfter(specs, suffix).Some?
    ensures SamePools(LastWritten(specs, suffix), specs[|specs| - 1])
    decreases |specs|
  {
    hide Acceptable, Follows, DataAfter, NewConfigSummary, Written;
    var n := |specs| - 1;
    SlotsStay(specs, suffix);
    if n > 0 {
      var before := specs[..n];
      assert ValidHistory(before, suffix) && Unregrouped(before) && before[|before| - 1] == specs[n - 1];
      PoolsStay(before, suffix);
      SlotsStay(before, suffix);
      WrittenForEither(specs, suffix);
    }
  }

  lemma AcceptableIsShaped(nc: NdbCluster, suffix: string)
    requires Acceptable(nc, suffix)
    ensures Sizable(nc) && ParamsAllowed(nc) && nc.spec.redundancyLevel >= 0
  {
    hide PlainSpec, ParamsAllowed;
  }

  /**
   The round trip of one specification: generated, parsed and summarised, a valid specification
   with plain parameters gives back its counts, its redundancy, version 1, and every parameter
   of its data nodes.
   */
  lemma CreatedRoundTrip(nc: NdbCluster, suffix: string)
    requires Acceptable(nc, suffix)
    ensures Storable(nc, None) && NewConfigSummary(CreatedData(nc, suffix)).Ok?
    ensures var cs := NewConfigSummary(CreatedData(nc, suffix)).value;
            && nc.spec.redundancyLevel >= 0 && Describes(cs, nc)
            && cs.mySQLClusterConfigVersion == 1
            && (CaseDistinct(nc.spec.dataNode.config) ==> StoresAll(cs.defaultNdbdSection, nc.spec.dataNode.config))
  {
    hide Sizable, PlainSpec, Parse, StoredFor, CreatedData, NewConfigSummary, Storable, StoresAll, NdbdDefaultSection, CaseDistinct, ParamsAllowed;
    CreatedIsStored(nc, suffix);
    SummaryExists(CreatedData(nc, suffix), nc, nc, suffix, 1, 1);
    SummaryDescribes(CreatedData(nc, suffix), nc, nc, suffix, 1, 1);
    AcceptableIsShaped(nc, suffix);
    if CaseDistinct(nc.spec.dataNode.config) {
      ParametersStored(nc);
    }
  }

  lemma ParametersStored(nc: NdbCluster)
    requires nc.spec.redundancyLevel >= 0 && ParamsAllowed(nc) && CaseDistinct(nc.spec.dataNode.config)
    ensures StoresAll(Some(NdbdDefaultSection(nc)), nc.spec.dataNode.config)
  {
    hide NdbdDefaultSection, ToLower, Itoa, Lowers, ParamsAllowed;
    NdbdDefaultFacts(nc);
  }
}
