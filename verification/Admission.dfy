/**
 Validation and mutation of NdbCluster requests (pkg/apis/ndbcontroller/v1/validation.go,
 pkg/webhook/ndb_admission_controller.go), and what holds over every sequence of them.
 */
module Admission {
  import opened Wrappers
  import opened Text
  import opened NdbCluster
  import IniParser

  const DISALLOWED_PARAMS: set<string> := {
    "noofreplicas", "nodeid", "hostname", "serverport", "executeoncomputer", "nodegroup", "portnumber", "datadir"
  }

  datatype FieldError =
    | NodeCountNotMultiple
    | TooManyNodes
    | DisallowedDataParam(key: string)
    | DisallowedManagementParam(key: string)
    | ManagementLoadBalancer
    | BadRootPasswordSecret
    | MaxNodeCountTooSmall
    | UnparsableMyCnf
    | MyCnfSections
    | BadPolicyAnnotation
    | PolicyDisabledOnCreate
    | SingleReplicaUpdate
    | NodeCountReduced
    | RedundancyChanged
    | ManagementResourcesChanged
    | DataResourcesChanged
    | MysqldResourcesChanged
    | PoolSizeReduced
    | LoadBalancerNewlyEnabled
    | PolicyDisabled

  /** What the schema of the resource guarantees before validation runs. */
  predicate SchemaValid(nc: NdbCluster) {
    && 1 <= nc.spec.redundancyLevel <= 4
    && 1 <= nc.spec.dataNode.nodeCount <= MAX_NUMBER_OF_DATA_NODES
    && MIN_INT32 <= nc.spec.freeAPISlots <= MAX_INT32
    && (nc.spec.mysqlNode.Some? ==>
          var m := nc.spec.mysqlNode.value;
          && 1 <= m.nodeCount <= MAX_INT32
          && MIN_INT32 <= m.maxNodeCount <= MAX_INT32
          && 1 <= m.connectionPoolSize <= 63)
  }

  // ----- a valid specification

  predicate AlphaNumeric(c: char) {
    'a' <= c <= 'z' || '0' <= c <= '9'
  }

  /** k8s.io/apimachinery IsDNS1123Subdomain. */
  predicate IsDNS1123Subdomain(s: string) {
    |s| <= 253 && forall part :: part in Split(s, '.') ==>
      && part != "" && AlphaNumeric(part[0]) && AlphaNumeric(part[|part| - 1])
      && forall c :: c in part ==> AlphaNumeric(c) || c == '-'
  }

  function TotalNodes(nc: NdbCluster): int {
    Int32(nc.GetManagementNodeCount() + nc.spec.dataNode.nodeCount + nc.GetMySQLServerMaxNodeCount() + nc.spec.freeAPISlots + 1)
  }

  /** Which errors a specification has; on creation a management load balancer is one of them. */
  predicate SpecViolates(nc: NdbCluster, creating: bool, e: FieldError)
    requires nc.spec.redundancyLevel > 0
  {
    match e
    case NodeCountNotMultiple => nc.spec.dataNode.nodeCount % nc.spec.redundancyLevel != 0
    case TooManyNodes => TotalNodes(nc) > MAX_NUMBER_OF_NODES
    case DisallowedDataParam(key) => key in nc.spec.dataNode.config && ToLower(key) in DISALLOWED_PARAMS
    case DisallowedManagementParam(key) =>
      nc.spec.managementNode.Some? && key in nc.spec.managementNode.value.config && ToLower(key) in DISALLOWED_PARAMS
    case ManagementLoadBalancer => creating && nc.ManagementLoadBalancerEnabled()
    case BadRootPasswordSecret =>
      && nc.spec.mysqlNode.Some? && nc.spec.mysqlNode.value.rootPasswordSecretName != ""
      && !IsDNS1123Subdomain(nc.spec.mysqlNode.value.rootPasswordSecretName)
    case MaxNodeCountTooSmall =>
      && nc.spec.mysqlNode.Some? && nc.spec.mysqlNode.value.maxNodeCount != 0
      && nc.spec.mysqlNode.value.maxNodeCount < nc.spec.mysqlNode.value.nodeCount
    case UnparsableMyCnf => nc.GetMySQLCnf() != "" && IniParser.Parse(nc.GetMySQLCnf()).Err?
    case MyCnfSections =>
      && nc.GetMySQLCnf() != "" && IniParser.Parse(nc.GetMySQLCnf()).Ok?
      && var ini := IniParser.Parse(nc.GetMySQLCnf()).value;
         |ini| != 1 || IniParser.GetNumberOfSections(ini, "mysqld") != 1
    case _ => false
  }

  predicate AnnotationViolates(nc: NdbCluster, creating: bool, e: FieldError) {
    && POLICY_ANNOTATION in nc.annotations
    && match e
       case BadPolicyAnnotation => ParseBool(nc.annotations[POLICY_ANNOTATION]) == None
       case PolicyDisabledOnCreate => creating && ParseBool(nc.annotations[POLICY_ANNOTATION]) == Some(false)
       case _ => false
  }

  function Resources(p: Option<PodSpec>): Option<string> {
    if p.Some? then p.value.resources else None
  }

  /** Which errors a change has, apart from those of the new specification itself. */
  predicate UpdateViolates(old': NdbCluster, nc: NdbCluster, e: FieldError) {
    match e
    case NodeCountReduced => old'.spec.dataNode.nodeCount > nc.spec.dataNode.nodeCount
    case RedundancyChanged => old'.spec.redundancyLevel != nc.spec.redundancyLevel
    case ManagementResourcesChanged =>
      && old'.spec.managementNode.Some? && nc.spec.managementNode.Some?
      && Resources(old'.spec.managementNode.value.podSpec) != Resources(nc.spec.managementNode.value.podSpec)
    case DataResourcesChanged => Resources(old'.spec.dataNode.podSpec) != Resources(nc.spec.dataNode.podSpec)
    case MysqldResourcesChanged =>
      && old'.GetMySQLServerNodeCount() != 0 && nc.GetMySQLServerNodeCount() != 0
      && Resources(old'.spec.mysqlNode.value.podSpec) != Resources(nc.spec.mysqlNode.value.podSpec)
    case PoolSizeReduced => old'.GetMySQLServerConnectionPoolSize() > nc.GetMySQLServerConnectionPoolSize()
    case LoadBalancerNewlyEnabled => !old'.ManagementLoadBalancerEnabled() && nc.ManagementLoadBalancerEnabled()
    case PolicyDisabled => old'.ManagementNetworkPolicyExpected() && !nc.ManagementNetworkPolicyExpected()
    case _ => false
  }

  // ----- the validators, which collect errors

  method ValidateConfigParams(config: map<string, string>) returns (bad: seq<string>)
    ensures forall k :: k in bad <==> k in config && ToLower(k) in DISALLOWED_PARAMS
  {
    bad := [];
    var keys := config.Keys;
    while keys != {}
      invariant keys <= config.Keys
      invariant forall k :: k in bad <==> k in config.Keys - keys && ToLower(k) in DISALLOWED_PARAMS
      decreases keys
    {
      var k :| k in keys;
      if ToLower(k) in DISALLOWED_PARAMS {
        bad := bad + [k];
      }
      keys := keys - {k};
    }
  }

  method DisallowedParams(nc: NdbCluster) returns (errList: seq<FieldError>)
    ensures forall e :: e in errList <==>
      || (e.DisallowedDataParam? && e.key in nc.spec.dataNode.config && ToLower(e.key) in DISALLOWED_PARAMS)
      || (e.DisallowedManagementParam? && nc.spec.managementNode.Some?
          && e.key in nc.spec.managementNode.value.config && ToLower(e.key) in DISALLOWED_PARAMS)
  {
    var bad := ValidateConfigParams(nc.spec.dataNode.config);
    var data := seq(|bad|, i requires 0 <= i < |bad| => DisallowedDataParam(bad[i]));
    assert forall k :: k in bad ==> exists i :: 0 <= i < |bad| && bad[i] == k && data[i] == DisallowedDataParam(k);
    errList := data;
    if nc.spec.managementNode.Some? {
      var bad' := ValidateConfigParams(nc.spec.managementNode.value.config);
      var management := seq(|bad'|, i requires 0 <= i < |bad'| => DisallowedManagementParam(bad'[i]));
      assert forall k :: k in bad' ==> exists i :: 0 <= i < |bad'| && bad'[i] == k && management[i] == DisallowedManagementParam(k);
      errList := data + management;
    }
  }

  method CountErrors(nc: NdbCluster, disallowManagementLoadBalancer: bool) returns (errList: seq<FieldError>)
    requires nc.spec.redundancyLevel > 0
    ensures forall e :: e in errList <==>
      (e.NodeCountNotMultiple? || e.TooManyNodes? || e.ManagementLoadBalancer?) && SpecViolates(nc, disallowManagementLoadBalancer, e)
  {
    errList := [];
    if nc.spec.dataNode.nodeCount % nc.spec.redundancyLevel != 0 {
      errList := errList + [NodeCountNotMultiple];
    }
    if TotalNodes(nc) > MAX_NUMBER_OF_NODES {
      errList := errList + [TooManyNodes];
    }
    if nc.spec.managementNode.Some? && disallowManagementLoadBalancer && nc.ManagementLoadBalancerEnabled() {
      errList := errList + [ManagementLoadBalancer];
    }
  }

  method MysqldErrors(nc: NdbCluster) returns (errList: seq<FieldError>)
    requires nc.spec.redundancyLevel > 0
    ensures forall e :: e in errList <==>
      (e.BadRootPasswordSecret? || e.MaxNodeCountTooSmall?) && SpecViolates(nc, false, e)
  {
    hide IsDNS1123Subdomain, IniParser.Parse, IniParser.GetNumberOfSections, TotalNodes, ToLower;
    errList := [];
    if nc.spec.mysqlNode.Some? {
      var m := nc.spec.mysqlNode.value;
      if m.rootPasswordSecretName != "" && !IsDNS1123Subdomain(m.rootPasswordSecretName) {
        errList := errList + [BadRootPasswordSecret];
      }
      if m.maxNodeCount != 0 && m.maxNodeCount < m.nodeCount {
        errList := errList + [MaxNodeCountTooSmall];
      }
    }
  }

  method MyCnfErrors(nc: NdbCluster) returns (errList: seq<FieldError>)
    requires nc.spec.redundancyLevel > 0
    ensures forall e :: e in errList <==> (e.UnparsableMyCnf? || e.MyCnfSections?) && SpecViolates(nc, false, e)
  {
    errList := [];
    var myCnfString := nc.GetMySQLCnf();
    if myCnfString != "" {
      var myCnf := IniParser.ParseString(myCnfString);
      if myCnf.Err? {
        errList := [UnparsableMyCnf];
      } else if |myCnf.value| != 1 || IniParser.GetNumberOfSections(myCnf.value, "mysqld") != 1 {
        errList := [MyCnfSections];
      }
    }
  }

  method HasValidSpec(nc: NdbCluster, disallowManagementLoadBalancer: bool) returns (errList: seq<FieldError>)
    requires nc.spec.redundancyLevel > 0
    ensures forall e :: e in errList <==> SpecViolates(nc, disallowManagementLoadBalancer, e)
  {
    errList := CountErrors(nc, disallowManagementLoadBalancer);
    var params := DisallowedParams(nc);
    var mysqld := MysqldErrors(nc);
    var myCnf := MyCnfErrors(nc);
    errList := errList + params + mysqld + myCnf;
  }

  method ValidateManagementNetworkPolicyAnnotation(nc: NdbCluster, disallowDisabled: bool) returns (errList: seq<FieldError>)
    ensures forall e :: e in errList <==> AnnotationViolates(nc, disallowDisabled, e)
  {
    if POLICY_ANNOTATION !in nc.annotations {
      return [];
    }
    match ParseBool(nc.annotations[POLICY_ANNOTATION]) {
      case None => errList := [BadPolicyAnnotation];
      case Some(enabled) => errList := if disallowDisabled && !enabled then [PolicyDisabledOnCreate] else [];
    }
  }

  /** The outcome of a review; validation crashes when it dereferences a section that is gone. */
  datatype Review = Allowed | Denied(errors: seq<FieldError>) | TooManyRequests | Crashed

  predicate CreateViolates(nc: NdbCluster, e: FieldError)
    requires nc.spec.redundancyLevel > 0
  {
    SpecViolates(nc, true, e) || AnnotationViolates(nc, true, e)
  }

  method ValidateCreate(nc: NdbCluster) returns (review: Review)
    requires nc.spec.redundancyLevel > 0
    ensures review == Allowed <==> forall e :: !CreateViolates(nc, e)
    ensures review.Denied? ==> forall e :: e in review.errors <==> CreateViolates(nc, e)
    ensures review.Allowed? || review.Denied?
  {
    var errList := HasValidSpec(nc, true);
    var more := ValidateManagementNetworkPolicyAnnotation(nc, true);
    errList := errList + more;
    if errList == [] {
      assert forall e :: e !in errList;
      return Allowed;
    }
    assert errList[0] in errList && CreateViolates(nc, errList[0]);
    return Denied(errList);
  }

  predicate ChangeViolates(old': NdbCluster, nc: NdbCluster, e: FieldError)
    requires nc.spec.redundancyLevel > 0
  {
    UpdateViolates(old', nc, e) || AnnotationViolates(nc, false, e) || SpecViolates(nc, false, e)
  }

  method ResourceErrors(old': NdbCluster, nc: NdbCluster) returns (errList: seq<FieldError>)
    requires old'.spec.managementNode.Some? ==> nc.spec.managementNode.Some?
    ensures forall e :: e in errList <==>
      (e.ManagementResourcesChanged? || e.DataResourcesChanged? || e.MysqldResourcesChanged?) && UpdateViolates(old', nc, e)
  {
    errList := [];
    if old'.spec.managementNode.Some? {
      if Resources(old'.spec.managementNode.value.podSpec) != Resources(nc.spec.managementNode.value.podSpec) {
        errList := errList + [ManagementResourcesChanged];
      }
    }
    if Resources(old'.spec.dataNode.podSpec) != Resources(nc.spec.dataNode.podSpec) {
      errList := errList + [DataResourcesChanged];
    }
    if old'.GetMySQLServerNodeCount() != 0 && nc.GetMySQLServerNodeCount() != 0 {
      if Resources(old'.spec.mysqlNode.value.podSpec) != Resources(nc.spec.mysqlNode.value.podSpec) {
        errList := errList + [MysqldResourcesChanged];
      }
    }
  }

  method ShapeErrors(old': NdbCluster, nc: NdbCluster) returns (errList: seq<FieldError>)
    ensures forall e :: e in errList <==>
      (e.NodeCountReduced? || e.RedundancyChanged? || e.PoolSizeReduced?) && UpdateViolates(old', nc, e)
  {
    errList := [];
    if old'.spec.dataNode.nodeCount > nc.spec.dataNode.nodeCount {
      errList := errList + [NodeCountReduced];
    }
    if old'.spec.redundancyLevel != nc.spec.redundancyLevel {
      errList := errList + [RedundancyChanged];
    }
    if old'.GetMySQLServerConnectionPoolSize() > nc.GetMySQLServerConnectionPoolSize() {
      errList := errList + [PoolSizeReduced];
    }
  }

  method ExposureErrors(old': NdbCluster, nc: NdbCluster) returns (errList: seq<FieldError>)
    ensures forall e :: e in errList <==> (e.LoadBalancerNewlyEnabled? || e.PolicyDisabled?) && UpdateViolates(old', nc, e)
  {
    errList := [];
    if !old'.ManagementLoadBalancerEnabled() && nc.ManagementLoadBalancerEnabled() {
      errList := errList + [LoadBalancerNewlyEnabled];
    }
    if old'.ManagementNetworkPolicyExpected() && !nc.ManagementNetworkPolicyExpected() {
      errList := errList + [PolicyDisabled];
    }
  }

  method IsValidSpecUpdate(old': NdbCluster, nc: NdbCluster) returns (review: Review)
    requires nc.spec.redundancyLevel > 0
    ensures review == Allowed <==>
      && old'.spec.redundancyLevel != 1
      && (old'.spec.managementNode.Some? ==> nc.spec.managementNode.Some?)
      && forall e :: !ChangeViolates(old', nc, e)
    ensures review != TooManyRequests
    ensures review == Crashed <==>
      old'.spec.redundancyLevel != 1 && old'.spec.managementNode.Some? && nc.spec.managementNode.None?
  {
    if old'.spec.redundancyLevel == 1 {
      return Denied([SingleReplicaUpdate]);
    }
    if old'.spec.managementNode.Some? && nc.spec.managementNode.None? {
      return Crashed;
    }
    var errList := ShapeErrors(old', nc);
    var more := ResourceErrors(old', nc);
    errList := errList + more;
    more := ExposureErrors(old', nc);
    errList := errList + more;
    more := ValidateManagementNetworkPolicyAnnotation(nc, false);
    errList := errList + more;
    more := HasValidSpec(nc, false);
    errList := errList + more;
    if errList == [] {
      assert forall e :: e !in errList;
      return Allowed;
    }
    assert errList[0] in errList && ChangeViolates(old', nc, errList[0]);
    return Denied(errList);
  }

  /** An update waits for the previous one, unless that one ran into an error. */
  predicate Settled(nc: NdbCluster) {
    nc.status.processedGeneration == nc.generation || nc.HasSyncError()
  }

  ghost predicate UpdateAllowed(old': NdbCluster, nc: NdbCluster)
    requires nc.spec.redundancyLevel > 0
  {
    && Settled(old')
    && old'.spec.redundancyLevel != 1
    && (old'.spec.managementNode.Some? ==> nc.spec.managementNode.Some?)
    && forall e :: !ChangeViolates(old', nc, e)
  }

  method ValidateUpdate(old': NdbCluster, nc: NdbCluster) returns (review: Review)
    requires nc.spec.redundancyLevel > 0
    ensures review == Allowed <==> UpdateAllowed(old', nc)
    ensures review == TooManyRequests <==> !Settled(old')
  {
    if old'.status.processedGeneration != old'.generation && !old'.HasSyncError() {
      return TooManyRequests;
    }
    review := IsValidSpecUpdate(old', nc);
  }

  // ----- mutation

  datatype Operation = Create | Update

  /** The server a mutated request gets by default; the schema fills in pool size and root host. */
  const DEFAULT_MYSQLD := MysqldSpec(1, 1, 1, "", "%", "", false, None)

  datatype PatchOp =
    | SetPolicyAnnotation
    | AddMysqlNode
    | ReplaceNodeCount(count: int)
    | ReplaceMaxNodeCount(count: int)

  function ApplyOp(nc: NdbCluster, op: PatchOp): NdbCluster {
    match op
    case SetPolicyAnnotation => nc.(annotations := nc.annotations[POLICY_ANNOTATION := "true"])
    case AddMysqlNode => nc.(spec := nc.spec.(mysqlNode := Some(DEFAULT_MYSQLD)))
    case ReplaceNodeCount(n) =>
      if nc.spec.mysqlNode.None? then nc
      else nc.(spec := nc.spec.(mysqlNode := Some(nc.spec.mysqlNode.value.(nodeCount := n))))
    case ReplaceMaxNodeCount(n) =>
      if nc.spec.mysqlNode.None? then nc
      else nc.(spec := nc.spec.(mysqlNode := Some(nc.spec.mysqlNode.value.(maxNodeCount := n))))
  }

  function ApplyOps(nc: NdbCluster, ops: seq<PatchOp>): NdbCluster
    decreases |ops|
  {
    if ops == [] then nc else ApplyOps(ApplyOp(nc, ops[0]), ops[1..])
  }

  /** A mutated request asks for at least one server and always declares a maximum. */
  function Mutated(nc: NdbCluster, operation: Operation): NdbCluster {
    var nc := if operation.Create? then ApplyOp(nc, SetPolicyAnnotation) else nc;
    match nc.spec.mysqlNode
    case None => nc.(spec := nc.spec.(mysqlNode := Some(DEFAULT_MYSQLD)))
    case Some(m) =>
      var m' :=
        if m.nodeCount == 0 then m.(nodeCount := 1, maxNodeCount := if m.maxNodeCount == 0 then 1 else m.maxNodeCount)
        else if m.maxNodeCount == 0 then m.(maxNodeCount := Int32(m.nodeCount + 2))
        else m;
      nc.(spec := nc.spec.(mysqlNode := Some(m')))
  }

  method Mutate(nc: NdbCluster, operation: Operation) returns (patchOps: seq<PatchOp>)
    ensures ApplyOps(nc, patchOps) == Mutated(nc, operation)
  {
    patchOps := [];
    if operation.Create? {
      patchOps := patchOps + [SetPolicyAnnotation];
    }
    ghost var first := patchOps;
    ghost var nc1 := if operation.Create? then ApplyOp(nc, SetPolicyAnnotation) else nc;
    ghost var rest: seq<PatchOp> := [];
    if nc.spec.mysqlNode.None? {
      patchOps := patchOps + [AddMysqlNode];
      rest := [AddMysqlNode];
    } else if nc.spec.mysqlNode.value.nodeCount == 0 {
      patchOps := patchOps + [ReplaceNodeCount(1)];
      rest := [ReplaceNodeCount(1)];
      if nc.spec.mysqlNode.value.maxNodeCount == 0 {
        patchOps := patchOps + [ReplaceMaxNodeCount(1)];
        rest := rest + [ReplaceMaxNodeCount(1)];
        assert ApplyOps(ApplyOp(nc1, ReplaceNodeCount(1)), [ReplaceMaxNodeCount(1)])
            == ApplyOp(ApplyOp(nc1, ReplaceNodeCount(1)), ReplaceMaxNodeCount(1));
      }
    } else if nc.spec.mysqlNode.value.maxNodeCount == 0 {
      patchOps := patchOps + [ReplaceMaxNodeCount(Int32(nc.spec.mysqlNode.value.nodeCount + 2))];
      rest := [ReplaceMaxNodeCount(Int32(nc.spec.mysqlNode.value.nodeCount + 2))];
    }
    assert patchOps == first + rest;
    assert rest != [] ==> ApplyOps(nc1, rest) == ApplyOps(ApplyOp(nc1, rest[0]), rest[1..]);
    assert ApplyOps(nc1, rest) == Mutated(nc, operation);
    if operation.Create? {
      assert patchOps[1..] == rest;
    } else {
      assert patchOps == rest;
    }
  }

  // ----- runs of requests

  /** What happens to one resource: requests from users, and status reports from the operator. */
  datatype Event =
    | CreateRequest(nc: NdbCluster)
    | UpdateRequest(nc: NdbCluster)
    | Report(processed: int, reason: Option<string>)

  /** The stored resource after a request was mutated, checked against the schema, and reviewed. */
  ghost function Apply(stored: Option<NdbCluster>, event: Event): Option<NdbCluster> {
    match event
    case CreateRequest(request) =>
      var nc := Mutated(request, Create).(generation := 1, status := Status(0, None));
      if stored.None? && SchemaValid(nc) && forall e :: !CreateViolates(nc, e) then Some(nc) else stored
    case UpdateRequest(request) =>
      if stored.None? then stored
      else
        var old' := stored.value;
        var asked := Mutated(request, Update).(name := old'.name, namespace := old'.namespace, status := old'.status);
        var nc := asked.(generation := if asked.spec == old'.spec then old'.generation else old'.generation + 1);
        if SchemaValid(nc) && UpdateAllowed(old', nc) then Some(nc) else stored
    case Report(processed, reason) =>
      if stored.Some? && stored.value.status.processedGeneration <= processed <= stored.value.generation
      then Some(stored.value.(status := Status(processed, reason)))
      else stored
  }

  ghost function Run(stored: Option<NdbCluster>, events: seq<Event>): Option<NdbCluster>
    decreases |events|
  {
    if events == [] then stored else Apply(Run(stored, events[..|events| - 1]), events[|events| - 1])
  }

  /** What every resource admitted by the webhook satisfies. */
  predicate Admitted(nc: NdbCluster) {
    && SchemaValid(nc)
    && nc.spec.dataNode.nodeCount % nc.spec.redundancyLevel == 0
    && nc.spec.mysqlNode.Some?
    && 1 <= nc.GetMySQLServerNodeCount() <= nc.GetMySQLServerMaxNodeCount()
    && nc.ManagementNetworkPolicyExpected()
    && !nc.ManagementLoadBalancerEnabled()
    && 0 <= nc.status.processedGeneration <= nc.generation
  }

  /** How a resource may differ from what it was earlier in a run. */
  predicate Evolves(a: NdbCluster, b: NdbCluster) {
    && b.name == a.name && b.namespace == a.namespace
    && b.spec.redundancyLevel == a.spec.redundancyLevel
    && a.spec.dataNode.nodeCount <= b.spec.dataNode.nodeCount
    && a.GetMySQLServerConnectionPoolSize() <= b.GetMySQLServerConnectionPoolSize()
    && a.generation <= b.generation
    && a.status.processedGeneration <= b.status.processedGeneration
    && (a.spec.managementNode.Some? ==> b.spec.managementNode.Some?)
    && (!a.ManagementLoadBalancerEnabled() ==> !b.ManagementLoadBalancerEnabled())
    && (a.ManagementNetworkPolicyExpected() ==> b.ManagementNetworkPolicyExpected())
    && (a.spec.redundancyLevel == 1 ==> b.spec == a.spec)
  }

  lemma CreatedIsAdmitted(request: NdbCluster)
    requires Apply(None, CreateRequest(request)).Some?
    ensures Admitted(Apply(None, CreateRequest(request)).value)
    ensures Apply(None, CreateRequest(request)).value.generation == 1
  {
    var nc := Apply(None, CreateRequest(request)).value;
    assert !CreateViolates(nc, NodeCountNotMultiple);
    assert !CreateViolates(nc, MaxNodeCountTooSmall);
    assert !CreateViolates(nc, ManagementLoadBalancer);
    MutatedHasServers(request, Create);
  }

  /** The default maximum wraps to 0 for no request that fits the schema. */
  lemma MutatedHasServers(request: NdbCluster, operation: Operation)
    requires SchemaValid(Mutated(request, operation))
    ensures Mutated(request, operation).spec.mysqlNode.Some?
    ensures Mutated(request, operation).GetMySQLServerMaxNodeCount() != 0
  {
  }

  /** An accepted change satisfies the specification rules again and moves only in the permitted directions. */
  lemma AllowedEvolves(a: NdbCluster, b: NdbCluster)
    requires a.spec.redundancyLevel > 0 && b.spec.redundancyLevel > 0 && UpdateAllowed(a, b)
    requires b.name == a.name && b.namespace == a.namespace && b.status == a.status && a.generation <= b.generation
    ensures Evolves(a, b)
    ensures b.spec.dataNode.nodeCount % b.spec.redundancyLevel == 0
    ensures b.spec.mysqlNode.Some? && b.GetMySQLServerMaxNodeCount() != 0 ==>
              b.GetMySQLServerNodeCount() <= b.GetMySQLServerMaxNodeCount()
  {
    assert !ChangeViolates(a, b, NodeCountReduced);
    assert !ChangeViolates(a, b, RedundancyChanged);
    assert !ChangeViolates(a, b, PoolSizeReduced);
    assert !ChangeViolates(a, b, LoadBalancerNewlyEnabled);
    assert !ChangeViolates(a, b, PolicyDisabled);
    assert !ChangeViolates(a, b, NodeCountNotMultiple);
    assert !ChangeViolates(a, b, MaxNodeCountTooSmall);
  }

  lemma StepEvolves(nc: NdbCluster, event: Event)
    requires nc.spec.redundancyLevel > 0 && nc.status.processedGeneration <= nc.generation
    ensures var next := Apply(Some(nc), event);
            next.Some? && Evolves(nc, next.value) && next.value.status.processedGeneration <= next.value.generation
    ensures Admitted(nc) ==> Admitted(Apply(Some(nc), event).value)
  {
    hide UpdateAllowed, Mutated;
    if event.UpdateRequest? {
      var next := Apply(Some(nc), event).value;
      if next != nc {
        AllowedEvolves(nc, next);
        ChangedHasServers(nc, event.nc, next);
      }
    }
  }

  lemma ChangedHasServers(nc: NdbCluster, request: NdbCluster, next: NdbCluster)
    requires next.spec == Mutated(request, Update).spec && SchemaValid(next)
    ensures next.spec.mysqlNode.Some? && next.GetMySQLServerMaxNodeCount() != 0
  {
    assert SchemaValid(Mutated(request, Update));
    MutatedHasServers(request, Update);
  }

  /** Over any sequence of requests and reports the resource only evolves in the permitted directions. */
  lemma {:induction false} RunEvolves(nc: NdbCluster, events: seq<Event>)
    requires nc.spec.redundancyLevel > 0 && nc.status.processedGeneration <= nc.generation
    ensures var last := Run(Some(nc), events);
            last.Some? && Evolves(nc, last.value) && last.value.status.processedGeneration <= last.value.generation
    ensures Admitted(nc) ==> Admitted(Run(Some(nc), events).value)
    decreases |events|
  {
    hide Apply, Admitted;
    if events != [] {
      var n := |events| - 1;
      RunEvolves(nc, events[..n]);
      StepEvolves(Run(Some(nc), events[..n]).value, events[n]);
    }
  }

  /** A resource that exists at all was created through the webhook, and satisfies what it guarantees. */
  lemma {:induction false} RunIsAdmitted(events: seq<Event>)
    ensures Run(None, events).Some? ==> Admitted(Run(None, events).value)
    decreases |events|
  {
    hide Admitted;
    if events != [] {
      var n := |events| - 1;
      RunIsAdmitted(events[..n]);
      match Run(None, events[..n]) {
        case None =>
          match events[n] {
            case CreateRequest(request) =>
              if Run(None, events).Some? {
                CreatedIsAdmitted(request);
              }
            case _ =>
          }
        case Some(nc) => AdmittedStep(nc, events[n]);
      }
    }
  }

  lemma AdmittedStep(nc: NdbCluster, event: Event)
    requires Admitted(nc)
    ensures Apply(Some(nc), event).Some? && Admitted(Apply(Some(nc), event).value)
  {
    StepEvolves(nc, event);
  }

  /** As long as no report carries an error, at most one generation is waiting to be processed. */
  lemma {:induction false} OneUnprocessedGeneration(events: seq<Event>)
    requires forall i :: 0 <= i < |events| && events[i].Report? ==> events[i].reason != Some(SYNC_ERROR)
    ensures Run(None, events).Some? ==>
      var nc := Run(None, events).value;
      !nc.HasSyncError() && nc.generation <= nc.status.processedGeneration + 1
    decreases |events|
  {
    if events != [] {
      OneUnprocessedGeneration(events[..|events| - 1]);
    }
  }

  // ----- an error lifts that bound

  /** A small cluster whose free API slots alternate, so that each version of it is a change. */
  function Example(k: nat): NdbCluster {
    var mysqld := MysqldSpec(1, 2, 1, "", "%", "", false, None);
    NdbCluster("ndb", "default", map[], 0,
               Spec(2, None, DataNodeSpec(map[], None, 2), Some(mysqld), k % 2, ""), Status(0, None))
  }

  function Updates(n: nat): (events: seq<Event>)
    ensures |events| == n && forall i :: 0 <= i < n ==> events[i] == UpdateRequest(Example(i + 1))
  {
    seq(n, i requires 0 <= i < n => UpdateRequest(Example(i + 1)))
  }

  lemma ExampleCreated()
    ensures Apply(None, CreateRequest(Example(0)))
         == Some(Example(0).(annotations := map[POLICY_ANNOTATION := "true"], generation := 1))
  {
    var nc := Mutated(Example(0), Create).(generation := 1, status := Status(0, None));
    assert ParseBool("true") == Some(true);
    forall e ensures !CreateViolates(nc, e) {
      ExampleIsValid(nc, 0, true, e);
    }
  }

  lemma ExampleIsValid(nc: NdbCluster, k: nat, creating: bool, e: FieldError)
    requires nc.spec == Example(k).spec
    ensures !SpecViolates(nc, creating, e)
  {
  }

  lemma ExampleChanges(old': NdbCluster, k: nat)
    requires old'.spec == Example(k).spec && old'.HasSyncError() && old'.name == "ndb" && old'.namespace == "default"
    ensures Apply(Some(old'), UpdateRequest(Example(k + 1)))
         == Some(Example(k + 1).(generation := old'.generation + 1, status := old'.status))
  {
    var nc := Example(k + 1).(generation := old'.generation + 1, status := old'.status);
    assert k % 2 != (k + 1) % 2;
    forall e ensures !ChangeViolates(old', nc, e) {
      ExampleIsValid(nc, k + 1, false, e);
    }
  }

  /**
   One error report is enough to queue any number of generations: it stays in the status, and every further
   update gets past the check. Without it there is at most one.
   */
  lemma {:induction false} ErrorsQueueGenerations(n: nat)
    ensures var events := [CreateRequest(Example(0)), Report(0, Some(SYNC_ERROR))] + Updates(n);
            var last := Run(None, events);
            && last.Some? && last.value.HasSyncError() && last.value.spec == Example(n).spec
            && last.value.name == "ndb" && last.value.namespace == "default"
            && last.value.generation == last.value.status.processedGeneration + n + 1
  {
    hide Apply;
    var begin := [CreateRequest(Example(0)), Report(0, Some(SYNC_ERROR))];
    var events := begin + Updates(n);
    if n == 0 {
      assert events[..1] == [CreateRequest(Example(0))] && events[..1][..0] == [];
      ExampleCreated();
      assert Run(None, events[..1]) == Apply(None, CreateRequest(Example(0)));
      ExampleReported();
    } else {
      ErrorsQueueGenerations(n - 1);
      assert events[..|events| - 1] == begin + Updates(n - 1);
      ExampleChanges(Run(None, begin + Updates(n - 1)).value, n - 1);
    }
  }

  lemma ExampleReported()
    ensures var nc := Example(0).(annotations := map[POLICY_ANNOTATION := "true"], generation := 1);
            Apply(Some(nc), Report(0, Some(SYNC_ERROR))) == Some(nc.(status := Status(0, Some(SYNC_ERROR))))
  {
  }

  // ----- the number of nodes

  /** All nodes, counted without wrap-around. */
  function AllNodes(nc: NdbCluster): int {
    nc.GetManagementNodeCount() + nc.spec.dataNode.nodeCount + nc.GetMySQLServerMaxNodeCount() + nc.spec.freeAPISlots + 1
  }

  /** An accepted specification stays within the limit of nodes exactly if the 32-bit sum does not wrap. */
  lemma LimitHoldsWithoutWrap(nc: NdbCluster, creating: bool)
    requires SchemaValid(nc) && forall e :: !SpecViolates(nc, creating, e)
    ensures AllNodes(nc) <= MAX_NUMBER_OF_NODES <==> TotalNodes(nc) == AllNodes(nc)
  {
    assert !SpecViolates(nc, creating, TooManyNodes);
    assert !SpecViolates(nc, creating, MaxNodeCountTooSmall);
  }

  /** The largest maximum of servers is such a case: it is created without complaint. */
  lemma WrappedTotal()
    ensures var servers := Some(Example(0).spec.mysqlNode.value.(maxNodeCount := MAX_INT32));
            var request := Example(0).(spec := Example(0).spec.(mysqlNode := servers));
            Apply(None, CreateRequest(request)).Some? && AllNodes(request) > MAX_NUMBER_OF_NODES
  {
    var servers := Some(Example(0).spec.mysqlNode.value.(maxNodeCount := MAX_INT32));
    var request := Example(0).(spec := Example(0).spec.(mysqlNode := servers));
    var nc := Mutated(request, Create).(generation := 1, status := Status(0, None));
    assert ParseBool("true") == Some(true);
    forall e ensures !CreateViolates(nc, e) {
    }
  }
}
