/**
 The summary of a stored configuration and the checks of a new specification against it
 (pkg/ndbconfig/config_summary.go).
 */
module ConfigSummary {
  import opened Wrappers
  import opened Text
  import opened NdbCluster
  import opened IniParser

  // keys of the config map
  const CONFIG_INI := "config.ini"
  const NUM_OF_MYSQL_SERVERS := "numOfMySQLServers"
  const NDB_GENERATION := "ndb.generation"
  const MANAGEMENT_LOAD_BALANCER := "managementLoadBalancer"
  const MYSQL_LOAD_BALANCER := "mysqlLoadBalancer"
  const MY_CNF := "my.cnf"
  const MYSQL_ROOT_HOST := "mysqlRootHost"
  const TDE_SECRET := "tdePasswordSecretName"
  const INITIAL_RESTART := "dataNodeInitialRestart"

  /** NoOfReplicas and ServerPort, which the operator always sets in [ndbd default]. */
  const NUM_OF_OPERATOR_SET_CONFIGS := 2

  datatype ConfigSummary = ConfigSummary(
    ndbClusterGeneration: int,
    mySQLClusterConfigVersion: int,
    mySQLServerConfigVersion: int,
    numOfManagementNodes: int,
    numOfDataNodes: int,
    numOfMySQLServers: int,
    numOfMySQLServerSlots: int,
    numOfFreeApiSlots: int,
    redundancyLevel: int,
    defaultNdbdSection: Option<Section>,
    defaultMgmdSection: Option<Section>,
    mySQLLoadBalancer: bool,
    managementLoadBalancer: bool,
    myCnfConfig: Option<ConfigIni>,
    mySQLRootHost: string,
    tdePasswordSecretName: string,
    dataNodeInitialRestart: bool)

  /** Reading an absent key of a Go map gives "". */
  function Datum(data: map<string, string>, key: string): string {
    if key in data then data[key] else ""
  }

  /** parseBool: false when the text is not a boolean. */
  function BoolOf(s: string): bool {
    ParseBool(s) == Some(true)
  }

  function MyCnfOf(text: string): Result<Option<ConfigIni>, ParseError> {
    if text == "" then Ok(None)
    else
      match Parse(text)
      case Err(e) => Err(e)
      case Ok(ini) => Ok(Some(ini))
  }

  function MyCnfVersion(cnf: Option<ConfigIni>): Result<int, ParseError> {
    if cnf.None? then Ok(0)
    else
      match GetValueFromSection(cnf.value, HEADER, "ConfigVersion")
      case Err(e) => Err(e)
      case Ok(v) => Ok(ParseInt32(v))
  }

  function NewConfigSummary(data: map<string, string>): Result<ConfigSummary, ParseError> {
    match Parse(Datum(data, CONFIG_INI))
    case Err(e) => Err(e)
    case Ok(config) =>
      match GetValueFromSection(config, "system", "ConfigGenerationNumber")
      case Err(e) => Err(e)
      case Ok(version) =>
        match GetSection(config, "ndbd default")
        case Err(e) => Err(e)
        case Ok(ndbd) =>
          match GetSection(config, "mgmd default")
          case Err(e) => Err(e)
          case Ok(mgmd) =>
            match MyCnfOf(Datum(data, MY_CNF))
            case Err(e) => Err(e)
            case Ok(myCnf) =>
              match MyCnfVersion(myCnf)
              case Err(e) => Err(e)
              case Ok(myCnfVersion) => Ok(Summarised(data, config, version, ndbd, mgmd, myCnf, myCnfVersion))
  }

  function Summarised(data: map<string, string>, config: ConfigIni, version: string, ndbd: Option<Section>,
                      mgmd: Option<Section>, myCnf: Option<ConfigIni>, myCnfVersion: int): ConfigSummary
  {
    var replicas := if ndbd.None? then None else GetValue(ndbd.value, "NoOfReplicas");
    ConfigSummary(
      ParseInt32(Datum(data, NDB_GENERATION)),
      ParseInt32(version),
      myCnfVersion,
      Int32(GetNumberOfSections(config, "ndb_mgmd")),
      Int32(GetNumberOfSections(config, "ndbd")),
      ParseInt32(Datum(data, NUM_OF_MYSQL_SERVERS)),
      Int32(GetNumberOfSections(config, "mysqld")),
      Int32(GetNumberOfSections(config, "api")),
      if replicas.None? then 0 else ParseInt32(replicas.value),
      ndbd, mgmd,
      BoolOf(Datum(data, MYSQL_LOAD_BALANCER)),
      BoolOf(Datum(data, MANAGEMENT_LOAD_BALANCER)),
      myCnf,
      Datum(data, MYSQL_ROOT_HOST),
      Datum(data, TDE_SECRET),
      BoolOf(Datum(data, INITIAL_RESTART)))
  }

  // ----- does config.ini have to change?

  function SectionSize(s: Option<Section>): nat {
    if s.None? then 0 else |s.value|
  }

  /** The stored section has the key with that value. */
  predicate Stores(s: Option<Section>, key: string, value: string) {
    s.Some? && GetValue(s.value, key) == Some(value)
  }

  predicate StoresAll(s: Option<Section>, config: map<string, string>) {
    forall k :: k in config ==> Stores(s, k, config[k])
  }

  /** What has to agree for config.ini to be kept. */
  predicate SameClusterConfig(cs: ConfigSummary, nc: NdbCluster) {
    && |nc.spec.dataNode.config| + NUM_OF_OPERATOR_SET_CONFIGS + (if cs.tdePasswordSecretName != "" then 1 else 0)
       == SectionSize(cs.defaultNdbdSection)
    && StoresAll(cs.defaultNdbdSection, nc.spec.dataNode.config)
    && cs.numOfDataNodes >= nc.spec.dataNode.nodeCount
    && cs.numOfMySQLServerSlots == nc.MySQLSlots()
    && (cs.tdePasswordSecretName == "" <==> nc.spec.tdeSecretName == "")
    && cs.numOfFreeApiSlots == Int32(nc.spec.freeAPISlots + 1)
    && (nc.spec.managementNode.Some? ==>
          && |nc.spec.managementNode.value.config| == SectionSize(cs.defaultMgmdSection)
          && StoresAll(cs.defaultMgmdSection, nc.spec.managementNode.value.config))
  }

  /** The comparing loop: is there a parameter that the section lacks or has with another value? */
  method Differs(s: Option<Section>, config: map<string, string>) returns (differs: bool)
    ensures differs <==> !StoresAll(s, config)
  {
    var keys := config.Keys;
    while keys != {}
      invariant keys <= config.Keys
      invariant forall k :: k in config.Keys - keys ==> Stores(s, k, config[k])
      decreases keys
    {
      var k :| k in keys;
      if !Stores(s, k, config[k]) {
        return true;
      }
      keys := keys - {k};
    }
    differs := false;
  }

  method MySQLClusterConfigNeedsUpdate(cs: ConfigSummary, nc: NdbCluster) returns (needsUpdate: bool)
    ensures needsUpdate <==> !SameClusterConfig(cs, nc)
  {
    var totalNdbdConfig := |nc.spec.dataNode.config| + NUM_OF_OPERATOR_SET_CONFIGS;
    if cs.tdePasswordSecretName != "" {
      totalNdbdConfig := totalNdbdConfig + 1;
    }
    if totalNdbdConfig != SectionSize(cs.defaultNdbdSection) {
      return true;
    }
    var differs := Differs(cs.defaultNdbdSection, nc.spec.dataNode.config);
    if differs {
      return true;
    }
    if cs.numOfDataNodes < nc.spec.dataNode.nodeCount {
      return true;
    }
    if cs.numOfMySQLServerSlots != nc.MySQLSlots() {
      return true;
    }
    if cs.tdePasswordSecretName != nc.spec.tdeSecretName {
      if cs.tdePasswordSecretName == "" || nc.spec.tdeSecretName == "" {
        return true;
      }
    }
    if cs.numOfFreeApiSlots != Int32(nc.spec.freeAPISlots + 1) {
      return true;
    }
    if nc.spec.managementNode.Some? {
      var newMgmdConfig := nc.spec.managementNode.value.config;
      if |newMgmdConfig| != SectionSize(cs.defaultMgmdSection) {
        return true;
      }
      differs := Differs(cs.defaultMgmdSection, newMgmdConfig);
      if differs {
        return true;
      }
    }
    needsUpdate := false;
  }

  // ----- does my.cnf have to change?

  /** A nil configuration compares like an empty one. */
  function IniOf(c: Option<ConfigIni>): ConfigIni {
    if c.None? then map[] else c.value
  }

  ghost predicate MyCnfDiffers(cs: Option<ConfigSummary>, myCnf: string) {
    if cs.None? then myCnf != ""
    else if myCnf == "" then cs.value.myCnfConfig.Some?
    else Parse(myCnf).Ok? && !SameSections(IniOf(cs.value.myCnfConfig), Parse(myCnf).value)
  }

  method MySQLCnfNeedsUpdate(cs: Option<ConfigSummary>, nc: NdbCluster) returns (r: Result<bool, ParseError>)
    ensures r.Ok? ==> (r.value <==> MyCnfDiffers(cs, nc.GetMySQLCnf()))
    ensures r.Err? <==> cs.Some? && nc.GetMySQLCnf() != "" && Parse(nc.GetMySQLCnf()).Err?
  {
    hide Parse;
    var myCnf := nc.GetMySQLCnf();
    if cs.None? {
      return Ok(myCnf != "");
    }
    if myCnf == "" {
      return Ok(cs.value.myCnfConfig.Some?);
    }
    var parsed := ParseString(myCnf);
    if parsed.Err? {
      return Err(parsed.error);
    }
    var equal := IsEqual(IniOf(cs.value.myCnfConfig), parsed.value);
    r := Ok(!equal);
  }
}
