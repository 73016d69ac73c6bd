/**
 The NdbCluster resource and its derived quantities (pkg/apis/ndbcontroller/v1/types.go).
 */
module NdbCluster {
  import opened Wrappers
  import opened Text
  import IniParser

  const MAX_NUMBER_OF_NODES := 256
  const MAX_NUMBER_OF_DATA_NODES := 144

  const POLICY_ANNOTATION := "mysql.oracle.com/enable-management-network-policy"

  const SYNC_ERROR := "SyncError"

  /** Two's complement 32-bit result of an int32 operation. */
  function Int32(x: int): int {
    (x + 0x8000_0000) % 0x1_0000_0000 - 0x8000_0000
  }

  /** The parts of a pod specification that matter here: its fixed resources, and everything else. */
  datatype PodSpec = PodSpec(resources: Option<string>, other: string)

  datatype ManagementNodeSpec = ManagementNodeSpec(
    config: map<string, string>, podSpec: Option<PodSpec>, enableLoadBalancer: bool)

  datatype DataNodeSpec = DataNodeSpec(config: map<string, string>, podSpec: Option<PodSpec>, nodeCount: int)

  datatype MysqldSpec = MysqldSpec(
    nodeCount: int, maxNodeCount: int, connectionPoolSize: int, rootPasswordSecretName: string,
    rootHost: string, myCnf: string, enableLoadBalancer: bool, podSpec: Option<PodSpec>)

  datatype Spec = Spec(
    redundancyLevel: int, managementNode: Option<ManagementNodeSpec>, dataNode: DataNodeSpec,
    mysqlNode: Option<MysqldSpec>, freeAPISlots: int, tdeSecretName: string)

  datatype Status = Status(processedGeneration: int, upToDateReason: Option<string>)

  datatype NdbCluster = NdbCluster(
    name: string, namespace: string, annotations: map<string, string>, generation: int, spec: Spec, status: Status)
  {
    function GetManagementNodeCount(): int {
      if spec.redundancyLevel == 1 then 1 else 2
    }

    function GetMySQLServerNodeCount(): int {
      if spec.mysqlNode.None? then 0 else spec.mysqlNode.value.nodeCount
    }

    function GetMySQLServerMaxNodeCount(): int {
      if spec.mysqlNode.None? then 0 else spec.mysqlNode.value.maxNodeCount
    }

    function GetMySQLServerConnectionPoolSize(): int {
      if spec.mysqlNode.None? then 0 else spec.mysqlNode.value.connectionPoolSize
    }

    /** GetNumOfSectionsRequiredForMySQLServers (pkg/ndbconfig/common.go:9-13). */
    function MySQLSlots(): int {
      Int32(GetMySQLServerMaxNodeCount() * GetMySQLServerConnectionPoolSize())
    }

    predicate ManagementLoadBalancerEnabled() {
      spec.managementNode.Some? && spec.managementNode.value.enableLoadBalancer
    }

    predicate ManagementNetworkPolicyExpected() {
      POLICY_ANNOTATION in annotations ==> ParseBool(annotations[POLICY_ANNOTATION]) != Some(false)
    }

    predicate HasSyncError() {
      status.upToDateReason == Some(SYNC_ERROR)
    }

    /** The my.cnf of the spec, under a [mysqld] heading if it starts without any. */
    function GetMySQLCnf(): string {
      if spec.mysqlNode.None? || spec.mysqlNode.value.myCnf == "" then ""
      else
        var myCnf := spec.mysqlNode.value.myCnf;
        match IniParser.Parse(myCnf)
        case Err(LineWithoutSection(_, _)) => "[mysqld]\n" + myCnf
        case _ => myCnf
    }
  }
}
