/**
 The config map that carries the configuration between reconciliations
 (pkg/resources/configmap.go).
 */
module ConfigMaps {
  import opened Wrappers
  import opened Text
  import opened NdbCluster
  import opened ConfigSummary
  import opened ConfigGenerator
  import IniParser

  // ----- my.cnf

  function MyCnfVersionOf(old': Option<ConfigSummary>): int {
    if old'.None? then 1 else Int32(old'.value.mySQLServerConfigVersion + 1)
  }

  function MyCnfPreamble(version: nat): seq<string> {
    ["# " + BANNER, "# ConfigVersion=" + Itoa(version), ""]
  }

  /** GetMySQLConfigString. */
  function MyCnfText(nc: NdbCluster, old': Option<ConfigSummary>): string
    requires MyCnfVersionOf(old') >= 0
  {
    if nc.GetMySQLCnf() == "" then ""
    else Unlines(MyCnfPreamble(MyCnfVersionOf(old'))) + (nc.GetMySQLCnf() + "\n")
  }

  // ----- the data

  /** Counts and versions that fit their integers. */
  predicate Countable(nc: NdbCluster, old': Option<ConfigSummary>) {
    && Shaped(nc)
    && 0 <= nc.GetMySQLServerNodeCount() && 0 <= nc.generation
    && ConfigVersion(old') >= 0 && MyCnfVersionOf(old') >= 0
  }

  /** A new config.ini is due, and the template fails. */
  predicate ConfigFails(nc: NdbCluster, old': Option<ConfigSummary>) {
    (old'.None? || !SameClusterConfig(old'.value, nc)) && nc.spec.freeAPISlots < 0
  }

  predicate CnfFails(nc: NdbCluster, old': Option<ConfigSummary>) {
    old'.Some? && nc.GetMySQLCnf() != "" && IniParser.Parse(nc.GetMySQLCnf()).Err?
  }

  /** The specification can be written to the config map. */
  predicate Storable(nc: NdbCluster, old': Option<ConfigSummary>) {
    Countable(nc, old') && !ConfigFails(nc, old') && !CnfFails(nc, old')
  }

  ghost function ManagementData(nc: NdbCluster, suffix: string, data: map<string, string>, old': Option<ConfigSummary>)
    : map<string, string>
    requires Countable(nc, old') && !ConfigFails(nc, old')
  {
    var d1 := if old'.Some? && SameClusterConfig(old'.value, nc) then data
              else data[CONFIG_INI := ConfigText(nc, old', suffix)];
    var d2 := if old'.Some? && old'.value.tdePasswordSecretName != nc.spec.tdeSecretName
              then d1[INITIAL_RESTART := "true"] else d1;
    d2[NUM_OF_MYSQL_SERVERS := Itoa(nc.GetMySQLServerNodeCount())]
      [MANAGEMENT_LOAD_BALANCER := FormatBool(nc.ManagementLoadBalancerEnabled())]
      [TDE_SECRET := nc.spec.tdeSecretName]
  }

  ghost function MySQLData(nc: NdbCluster, data: map<string, string>, old': Option<ConfigSummary>): map<string, string>
    requires MyCnfVersionOf(old') >= 0
  {
    var d1 := if MyCnfDiffers(old', nc.GetMySQLCnf()) then data[MY_CNF := MyCnfText(nc, old')] else data;
    match nc.spec.mysqlNode
    case None => d1[MYSQL_ROOT_HOST := ""][MYSQL_LOAD_BALANCER := "false"]
    case Some(m) => d1[MYSQL_ROOT_HOST := m.rootHost][MYSQL_LOAD_BALANCER := FormatBool(m.enableLoadBalancer)]
  }

  /** A patch for the generation already stored only clears the flag of the initial restart. */
  ghost function UpdatedData(nc: NdbCluster, suffix: string, data: map<string, string>, old': ConfigSummary)
    : map<string, string>
    requires old'.ndbClusterGeneration == nc.generation || Storable(nc, Some(old'))
  {
    if old'.ndbClusterGeneration == nc.generation then data[INITIAL_RESTART := "false"]
    else
      MySQLData(nc, ManagementData(nc, suffix, data, Some(old')), Some(old'))[NDB_GENERATION := Itoa(nc.generation)]
  }

  ghost function CreatedData(nc: NdbCluster, suffix: string): map<string, string>
    requires Storable(nc, None)
  {
    MySQLData(nc, ManagementData(nc, suffix, map[], None), None)
      [INITIAL_RESTART := "false"][NDB_GENERATION := Itoa(nc.generation)]
  }

  class ConfigMap {
    var data: map<string, string>

    constructor (data: map<string, string>)
      ensures this.data == data
    {
      this.data := data;
    }

    /** Fails before anything is written if the template fails. */
    method UpdateManagementConfig(nc: NdbCluster, suffix: string, oldConfigSummary: Option<ConfigSummary>) returns (ok: bool)
      requires Countable(nc, oldConfigSummary)
      modifies this
      ensures ok <==> !ConfigFails(nc, oldConfigSummary)
      ensures data == if ok then ManagementData(nc, suffix, old(data), oldConfigSummary) else old(data)
    {
      var needsUpdate := true;
      if oldConfigSummary.Some? {
        needsUpdate := MySQLClusterConfigNeedsUpdate(oldConfigSummary.value, nc);
      }
      if needsUpdate {
        var configString := GetConfigString(nc, oldConfigSummary, suffix);
        if configString.None? {
          return false;
        }
        data := data[CONFIG_INI := configString.value];
      }
      if oldConfigSummary.Some? && oldConfigSummary.value.tdePasswordSecretName != nc.spec.tdeSecretName {
        data := data[INITIAL_RESTART := "true"];
      }
      data := data[NUM_OF_MYSQL_SERVERS := Itoa(nc.GetMySQLServerNodeCount())];
      data := data[MANAGEMENT_LOAD_BALANCER := FormatBool(nc.ManagementLoadBalancerEnabled())];
      data := data[TDE_SECRET := nc.spec.tdeSecretName];
      ok := true;
    }

    method UpdateMySQLConfig(nc: NdbCluster, oldConfigSummary: Option<ConfigSummary>) returns (ok: bool)
      requires MyCnfVersionOf(oldConfigSummary) >= 0
      modifies this
      ensures ok <==> !CnfFails(nc, oldConfigSummary)
      ensures data == if ok then MySQLData(nc, old(data), oldConfigSummary) else old(data)
    {
      hide IniParser.Parse, Shaped;
      var needsUpdate := MySQLCnfNeedsUpdate(oldConfigSummary, nc);
      if needsUpdate.Err? {
        return false;
      }
      if needsUpdate.value {
        data := data[MY_CNF := MyCnfText(nc, oldConfigSummary)];
      }
      if nc.spec.mysqlNode.Some? {
        data := data[MYSQL_ROOT_HOST := nc.spec.mysqlNode.value.rootHost];
        data := data[MYSQL_LOAD_BALANCER := FormatBool(nc.spec.mysqlNode.value.enableLoadBalancer)];
      } else {
        data := data[MYSQL_ROOT_HOST := ""];
        data := data[MYSQL_LOAD_BALANCER := "false"];
      }
      ok := true;
    }

    /** An updated copy, or nothing if the specification cannot be written. */
    method GetUpdatedConfigMap(nc: NdbCluster, suffix: string, oldConfigSummary: ConfigSummary)
      returns (updatedCm: Option<ConfigMap>)
      requires Countable(nc, Some(oldConfigSummary))
      ensures updatedCm.None? <==> oldConfigSummary.ndbClusterGeneration != nc.generation && !Storable(nc, Some(oldConfigSummary))
      ensures updatedCm.Some? ==>
                fresh(updatedCm.value) && updatedCm.value.data == UpdatedData(nc, suffix, data, oldConfigSummary)
    {
      hide Countable, ConfigFails, CnfFails, ManagementData, MySQLData, Itoa;
      var cm := new ConfigMap(data);
      if oldConfigSummary.ndbClusterGeneration == nc.generation {
        cm.data := cm.data[INITIAL_RESTART := "false"];
        return Some(cm);
      }
      var ok := cm.UpdateManagementConfig(nc, suffix, Some(oldConfigSummary));
      if !ok {
        return None;
      }
      NotNegative(nc, Some(oldConfigSummary));
      ok := cm.UpdateMySQLConfig(nc, Some(oldConfigSummary));
      if !ok {
        return None;
      }
      cm.data := cm.data[NDB_GENERATION := Itoa(nc.generation)];
      updatedCm := Some(cm);
    }
  }

  lemma NotNegative(nc: NdbCluster, old': Option<ConfigSummary>)
    requires Countable(nc, old')
    ensures 0 <= nc.generation && MyCnfVersionOf(old') >= 0
  {
  }

  method CreateConfigMap(nc: NdbCluster, suffix: string) returns (cm: Option<ConfigMap>)
    requires Countable(nc, None)
    ensures cm.None? <==> nc.spec.freeAPISlots < 0
    ensures cm.Some? ==> Storable(nc, None) && fresh(cm.value) && cm.value.data == CreatedData(nc, suffix)
  {
    hide Countable, ManagementData, MySQLData, Itoa;
    var created := new ConfigMap(map[]);
    var ok := created.UpdateManagementConfig(nc, suffix, None);
    if !ok {
      return None;
    }
    ok := created.UpdateMySQLConfig(nc, None);
    NotNegative(nc, None);
    created.data := created.data[INITIAL_RESTART := "false"];
    created.data := created.data[NDB_GENERATION := Itoa(nc.generation)];
    cm := Some(created);
  }
}
