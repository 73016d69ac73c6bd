# NDB Operator: a verified model

The NDB Operator runs MySQL NDB Cluster inside Kubernetes. A user describes a cluster in an
NdbCluster resource; a webhook admits or refuses changes; the operator writes the configuration into
a config map, and drives three StatefulSets (management nodes, data nodes, MySQL servers) to
it over many calls of `sync`.

This project models the operator's logic in Dafny and proves what holds over all inputs, all
orders of map iteration, and all runs. `dafny verify dfyconfig.toml` checks everything.

## How it is organised

- `Wrappers`, `Text`, `Arithmetic`: results, the parts of Go's `strings`, `strconv` and `bufio`
  that are leaned on, and facts about products and quotients.
- `ConfigReader`, `ConfigWire`: the binary configuration that the management server sends. The reader is a
  class that advances an offset over machine integers; it is proved equal to functions of the bytes,
  and to answer every query about an encoded layout as a lookup that does not mention bytes.
- `IniParser`, `IniDocument`, `NdbCluster`, `ConfigSummary`, `ConfigGenerator`, `ConfigMaps`: the parser of
  config.ini and my.cnf, the resource, the summary, the generator with its id-allocating closures, and the
  config map that is updated in place.
- `GeneratedConfig`, `MyCnf`, `ConfigPipeline`, `ConfigStability`, `ConfigHistory`: what comes back when a
  generated configuration is parsed and summarised, when the check for a needed update is right,
  and what the stored configuration says after any history of specifications.
- `NodeIds`: ids in config.ini, ids that pods work out for themselves, and the operator's way back.
- `Admission`: validation, mutation, and runs of requests.
- `ClusterStatus`, `NodeGroups`, `StatefulSets`, `Rollout`: the status reply, grouping, induction of new
  data nodes with failing requests, and the rolling restart.
- `Reconcile`, `SyncContext`: one `sync` as functions of the state, and the imperative object that is
  proved to follow them.
- `ReconcileRuns`, `ReconcileSuccess`, `ReconcilePaths`, `ReconcileUpdates`, `UpdateRuns`, `TwoPhaseRestart`,
  `ReconcileLimits`: runs in which syncs interleave with controllers, pods and specification updates; the
  invariants of every run, the stronger ones of runs without pod errors, and the limits.
- `PodErrorRuns`: the invariants that survive pod errors, early patches and failing calls.
- `Convergence`, `RoundsExist`: progress. When calls do not fail and the controllers catch up between syncs, every
  sync either succeeds or comes closer to success by a measure that is linear in the number of data nodes; and
  such rounds exist.
- `Recovery`: what pod errors leave behind, and the first configuration that gets stuck.
- `AdmittedUpdates`: admission and reconciliation joined; which admitted specifications take effect.
- `RootUsers`, `RootUserRuns`, `UngroupedNodes`, `UngroupedRun`: what success does not promise about root users and
  node groups, exactly and by runs.

## Where the code and its intentions part

Each shortfall comes with the exact condition under which the intended property holds, or with a run or input
in which it fails.

- The summary looks for "mgmd default" while the generator writes "ndb_mgmd default", and the check
  counts parameters without regard to case or to parameters the operator sets itself. A configuration is
  found current right after it was generated exactly if there is no management configuration and the data
  node parameters are clean (`ConfigStability.FixedPoint`).
- The check compares only the product of server maximum and pool size, and does not compare the stored
  EncryptedFileSystem. `ConfigStability.KeptConfiguration` gives the condition under which a configuration
  that passes the check is current, `ConfigStability.MissedRegrouping` an input that is missed, and
  `ConfigHistory.HistoryDescribed` says after any history whether the config map describes the latest specification.
- A stored my.cnf has a header, a specified one cannot: every update rewrites it
  (`MyCnf.CnfAlwaysRewritten`).
- Grouping by node group looks groups up by position: it is complete exactly if the groups are
  numbered from 0 without a gap (`ClusterStatus.GroupingIsComplete`). The rollout then indexes a group out of
  range exactly if some group is too short for a column that it reaches (`Rollout.PanicsOnShortGroup`), and at
  once if there is a gap (`Rollout.GapsPanic`).
- A status reply that is accepted is accepted with the same status in every order exactly if no two lines say different
  things about the type or the version of a node, under whatever spellings of its id
  (`ClusterStatus.OrderMatters`).
- A successful creation of node groups leaves no new data node out exactly if all of them are connected
  at that moment and their number is a multiple of the redundancy level (`NodeGroups.SuccessLeavesNone`).
- Success does not look at node groups. Over all runs, a successful sync leaves every started data node in a group
  exactly if no sync patched the StatefulSet while data nodes waited for their group, none passed a node
  over that was not connected and took the announcement away, or all were put into groups later
  (`UngroupedNodes.SuccessGroupsAllUnlessLeftBehind`). Without pod errors it is exactly if none was passed over
  (`UngroupedNodes.CalmSuccessGroupsAllUnlessMissed`). Both happen in runs without failing calls, one without any
  error (`UngroupedRun.SuccessWithMissedNode`), one with a pod error (`UngroupedRun.SuccessWithUngroupedNode`).
- During the first configuration a sync waits for data node pods that it never restarts. If a pod error lets the
  specification be corrected after data nodes were started, a pod that is not what the new configuration asks for
  stays, and no sync succeeds until it is removed from outside or the specification changes again
  (`Recovery.FirstConfigurationBlocks`). If it lets the secret be corrected before the data nodes are created, they are
  created with --initial, and no pod is restarted when that is taken away (`Recovery.StuckForGood`). Once the errors have
  ceased, and left to itself, the first configuration takes effect exactly if no pod is left over, the flag of the
  initial restart is not set before the data nodes are created, and the config map exists or can be written
  (`Recovery.FirstConfigurationCompletes`). Runs that get
  stuck in either way exist (`Recovery.CorrectionGetsStuck`, `Recovery.SecretCorrectionGetsStuck`).
- After the first configuration the cluster recovers from pod errors if no started data node was left behind with a
  restart ahead (`Recovery.RecoveryCompletes`). One that is never reported in a node group is never restarted,
  and a configuration that asks for another pod is not in effect (`Recovery.LeftBehindStaysOutdated`).
- The rollout phase compares pods with the revision in the StatefulSet's status, which is the template
  only once the controller has seen the current object (`ReconcileLimits.RolloutComparesWithStatus`).
- Every patch for a new configuration drops the record of the root user's host. After an update without pod errors,
  whichever calls fail on the way, only the specified root user remains exactly if the host stays the same, or one sync both
  rebuilt the StatefulSet in place while the record was there and went through with the root user's statement
  (`RootUsers.RootUsersAfterUpdate`, `RootUsers.RootUsersAfterSuccess`). If no call fails, that is the case exactly if the record is there and the MySQL
  servers keep their template and do not grow in number. Otherwise the old root user stays: runs exist for all specifications
  without a failing call (`RootUserRuns.BothRootUsersRemain`), and for a mere change of the host with a single one
  (`RootUserRuns.OneFailureKeepsBoth`).
- Validation of an update dereferences the new management node section if the old one exists; without it
  the review ends in a crash (`Admission.IsValidSpecUpdate`).
- The limit on the number of nodes is compared with a 32-bit sum; it holds exactly if the sum does not
  wrap (`Admission.LimitHoldsWithoutWrap`, `Admission.WrappedTotal`).
- A negative number of free API slots passes validation and then fails the template, so the config map cannot
  be written. Where there have been no pod errors, an admitted update takes effect in some run exactly if its
  configuration can be generated (`AdmittedUpdates.UpdateHappens`), and as long as there are none, one that cannot be
  generated blocks the cluster and all further updates (`AdmittedUpdates.NegativeSlotsBlock`).
- One error report lets any number of further generations in (`Admission.ErrorsQueueGenerations`).

## Model

| member | source | states |
|---|---|---|
| ConfigReader.ConfigReader.ReadUint32 | pkg/mgmapi/config_reader.go:46-57 | reads a big-endian word below the limit or fails; never leaves the data |
| ConfigReader.ConfigReader.ReadString | pkg/mgmapi/config_reader.go:60-104 | reads a terminated, padded string, or names the defect; the offset stays word-aligned |
| ConfigReader.ConfigReader.ReadEntry | pkg/mgmapi/config_reader.go:107-145 | reads one entry of a known type, at least two words long |
| ConfigReader.ConfigReader.ReadEntries | pkg/mgmapi/config_reader.go:188-227 | reads entries until all wanted are found or the declared count is used up; the reads are bounded by the bytes consumed, whatever count is declared |
| ConfigReader.ConfigReader.ReadEntryFromSection | pkg/mgmapi/config_reader.go:164-259 | one section's effect on the value held, and whether reading stops; reads are linear in the bytes consumed |
| ConfigReader.ConfigReader.ReadHeader | pkg/mgmapi/config_reader.go:304-355 | the header's counts, refused when the sections they declare cannot fit |
| ConfigReader.ConfigReader.ReadConfig | pkg/mgmapi/config_reader.go:262-406 | total on every byte sequence, resets the offset, and reads at most a linear number of entries and sections |
| ConfigReader.ConfigReader.ReadDefaultSections | pkg/mgmapi/config_reader.go:372-377 | a later matching default replaces an earlier one |
| ConfigReader.ConfigReader.ReadNodeSections | pkg/mgmapi/config_reader.go:391-406 | the first wanted node decides the answer |
| ConfigWire.EntryReads | pkg/mgmapi/config_reader.go:107-145 | an encoded entry of any type is read back, whatever its padding holds |
| ConfigWire.ScanReads | pkg/mgmapi/config_reader.go:188-227 | with unique keys the early exit does not change what is found |
| ConfigWire.SectionReads | pkg/mgmapi/config_reader.go:164-259 | an encoded section has the effect its entries call for; payloads of other kinds have none |
| ConfigWire.ReaderAnswersLookup | pkg/mgmapi/config_reader.go:262-406 | for every well-formed configuration the reader returns the node's value, else the matching default, else not found; node 0 means the first of its kind |
| IniParser.Builder.AddSection | pkg/ndbconfig/configparser/config_parser.go:76-96 | a new section under the lower-case name; the header section is reused |
| IniParser.Builder.ParseLine | pkg/ndbconfig/configparser/config_parser.go:152-209 | the effect of one line, comments and errors included |
| IniParser.ParseString | pkg/ndbconfig/configparser/config_parser.go:140-218 | the whole parser, as the fold of its lines |
| IniParser.AfterLinesConcat | pkg/ndbconfig/configparser/config_parser.go:152-209 | parsing two texts in a row is parsing the second from the state the first leaves |
| IniParser.SameGroup | pkg/ndbconfig/configparser/config_parser.go:114-133 | the greedy matching succeeds exactly if both groups are the same multiset |
| IniParser.IsEqual | pkg/ndbconfig/configparser/config_parser.go:99-137 | true exactly if both have the same section names and under each the same multiset of sections |
| IniDocument.BodyReads | pkg/ndbconfig/configparser/config_parser.go:152-209 | plain parameters, remarks and blank lines fill the current section and nothing else |
| IniDocument.DocumentReads | pkg/ndbconfig/configparser/config_parser.go:140-218 | parsing the text of plain blocks gives exactly those blocks, under an empty header section |
| ConfigSummary.Differs | pkg/ndbconfig/config_summary.go:138-143 | in whatever order the map is ranged over, finds a parameter that is missing or changed exactly if there is one |
| ConfigSummary.MySQLClusterConfigNeedsUpdate | pkg/ndbconfig/config_summary.go:121-191 | false exactly if sizes, parameters, counts, encryption and management section agree |
| ConfigSummary.MySQLCnfNeedsUpdate | pkg/ndbconfig/config_summary.go:194-217 | compares section multisets, and fails only on a my.cnf that does not parse |
| ConfigGenerator.SortKeys | pkg/ndbconfig/config_generators.go:29-45 | templates range over maps in ascending order of the keys |
| ConfigGenerator.NodeIdAllocator.GetNodeIds | pkg/ndbconfig/config_generators.go:111-136 | the next run of ids from the shared counter, which it advances; fails for a negative count |
| ConfigGenerator.NodeIdAllocator.GetMySQLServerNodeIds | pkg/ndbconfig/config_generators.go:137-153 | each run of pool-size ids belongs to the next server pod |
| ConfigGenerator.GetConfigString | pkg/ndbconfig/config_generators.go:91-198 | executes the template line by line: the text of the configuration's blocks, or nothing for negative free slots |
| ConfigMaps.ConfigMap.UpdateManagementConfig | pkg/resources/configmap.go:27-63 | the new contents of the map: config.ini only if needed, the flag of the initial restart on a changed secret; an error before anything is written exactly if the template is needed and fails |
| ConfigMaps.ConfigMap.UpdateMySQLConfig | pkg/resources/configmap.go:66-90 | the new contents of the map for the MySQL servers; an error exactly for a my.cnf that cannot be compared |
| ConfigMaps.ConfigMap.GetUpdatedConfigMap | pkg/resources/configmap.go:115-150 | an updated copy: for the stored generation only the flag is cleared, otherwise everything follows the specification; nothing exactly if it cannot be written |
| ConfigMaps.CreateConfigMap | pkg/resources/configmap.go:153-205 | the first contents of the map, or nothing for negative free slots |
| GeneratedConfig.GeneratedParses | pkg/ndbconfig/config_generators.go:22-198 | the parser accepts every generated text of plain tokens and finds its blocks in it |
| GeneratedConfig.GeneratedGroups | pkg/ndbconfig/config_generators.go:22-85 | the sections under every name of a generated configuration, in terms of the specification |
| MyCnf.StoredCnfParses | pkg/ndbconfig/config_generators.go:201-241 | a stored my.cnf parses to the specified sections plus a header with the version |
| MyCnf.VersionRecovered | pkg/ndbconfig/config_summary.go:105-116 | the version of a stored my.cnf is read back |
| MyCnf.CnfAlwaysRewritten | pkg/ndbconfig/config_summary.go:194-217 | a stored my.cnf never compares equal to a specified one |
| ConfigPipeline.LowersCount | pkg/ndbconfig/configparser/config_parser.go:31-36 | lower-casing loses a parameter exactly if two names differ only in case |
| ConfigPipeline.NdbdDefaultFacts | pkg/ndbconfig/config_generators.go:33-45 | the parsed default section of data nodes holds the operator's and the user's parameters |
| ConfigPipeline.NdbdDefaultSize | pkg/ndbconfig/config_summary.go:123-134 | its size is the one the check expects exactly for clean parameters |
| ConfigPipeline.GeneratedTracks | pkg/ndbconfig/config_generators.go:91-184 | the old summary influences only the version and the marks of new data nodes |
| ConfigPipeline.DataNodeSectionIs | pkg/ndbconfig/config_generators.go:59-67 | the parsed section of a data node; only new ones have a node group |
| ConfigStability.TrackedSummary | pkg/ndbconfig/config_summary.go:77-119 | summarising recovers all counts, the redundancy level and the default section |
| ConfigStability.FixedPoint | pkg/ndbconfig/config_summary.go:121-191 | a fresh configuration is found current exactly without management configuration and with clean parameters |
| ConfigStability.SectionKept | pkg/ndbconfig/config_summary.go:123-143 | when a default section that passes the check is the one that would be generated |
| ConfigStability.PoolsShow | pkg/ndbconfig/config_generators.go:137-152 | with equal slots, different pool sizes put some slot on another host |
| ConfigStability.KeptConfiguration | pkg/ndbconfig/config_summary.go:121-191 | a configuration that passes the check for an admitted change is current, up to version and new-node marks, exactly under four conditions |
| ConfigStability.MissedRegrouping | pkg/ndbconfig/config_summary.go:150-154 | four servers of one connection against two of two: not noticed, although hosts change |
| ConfigHistory.CreatedRoundTrip | pkg/resources/configmap.go:153-205 | generate, parse and summarise recovers every count, setting and parameter of the specification |
| ConfigHistory.UpdateIsStored | pkg/resources/configmap.go:115-150 | one update of any accepted specification writes config.ini for it or keeps it by the check, brings everything else in step, and raises no version by more than one |
| ConfigHistory.HistoryDescribed | pkg/resources/configmap.go:27-150 | after any history the map has the latest settings; its config.ini is the latest one exactly if it was last written for it or rightly kept, and its summary describes the latest counts and parameters exactly if its data node section was |
| ConfigHistory.CleanHistoryDescribed | pkg/ndbconfig/config_summary.go:121-189 | with clean parameters the latest specification is always described; without management configuration or hidden regrouping it always has its config.ini |
| NodeIds.GetConnectstring | pkg/apis/ndbcontroller/v1/types.go:436-452 | the addresses of all management nodes |
| NodeIds.ManagementNodesCounted | cmd/ndb-pod-initializer/main.go:154-158 | a pod can count the management nodes from its connect string |
| NodeIds.WriteNodeIDToFile | cmd/ndb-pod-initializer/main.go:141-196 | the id or pool of a pod, or the panic for a name without pieces or a pool without ids |
| NodeIds.PodIdentityIs | cmd/ndb-pod-initializer/main.go:141-184 | what a pod of each type works out, in terms of type and ordinal |
| NodeIds.NodesDeclared | pkg/ndbconfig/config_generators.go:50-84 | exactly which nodes a parsed configuration declares: id, host and node group of each |
| NodeIds.IdsAreDistinct | pkg/ndbconfig/config_generators.go:94-152 | no two nodes of a configuration have the same id |
| NodeIds.HostnameInjective | pkg/ndbconfig/config_generators.go:53-80 | a host name determines the type and the ordinal of its pod |
| NodeIds.InitializerAgrees | cmd/ndb-pod-initializer/main.go:141-184 | a pod claims exactly the ids that config.ini gives to its host |
| NodeIds.OperatorFindsPod | pkg/controllers/sync_context.go:238-243 | the pod the operator restarts for a node id is the one that claims this id |
| NodeIds.IdsStayPut | pkg/ndbconfig/config_generators.go:94-107 | across an addition of data nodes ids and hosts stay, and exactly the added nodes are marked |
| Admission.ValidateConfigParams | pkg/apis/ndbcontroller/v1/validation.go:41-54 | reports exactly the parameters that may not be set |
| Admission.HasValidSpec | pkg/apis/ndbcontroller/v1/validation.go:86-181 | reports exactly the rules a specification breaks |
| Admission.ValidateManagementNetworkPolicyAnnotation | pkg/apis/ndbcontroller/v1/validation.go:65-84 | reports a value that is no boolean, and a disabled policy on creation |
| Admission.IsValidSpecUpdate | pkg/apis/ndbcontroller/v1/validation.go:207-286 | allows exactly the changes that break no rule; crashes exactly if the management node section disappears |
| Admission.ValidateCreate | pkg/webhook/ndb_admission_controller.go:45-53 | allows exactly the specifications without errors |
| Admission.ValidateUpdate | pkg/webhook/ndb_admission_controller.go:55-77 | allows a change only when the previous one is processed or has an error |
| Admission.Mutate | pkg/webhook/ndb_admission_controller.go:79-114 | the patch operations lead to a resource with a policy annotation, at least one server and a maximum |
| Admission.CreatedIsAdmitted | pkg/webhook/ndb_admission_controller.go:45-114 | what every created resource satisfies |
| Admission.RunEvolves | pkg/apis/ndbcontroller/v1/validation.go:207-286 | over every sequence of requests and reports, redundancy is constant, data nodes and pool never shrink, and exposure only tightens |
| Admission.RunIsAdmitted | pkg/webhook/ndb_admission_controller.go:45-114 | every resource that exists satisfies the admission rules |
| Admission.OneUnprocessedGeneration | pkg/webhook/ndb_admission_controller.go:60-70 | without errors at most one generation waits to be processed |
| Admission.ErrorsQueueGenerations | pkg/webhook/ndb_admission_controller.go:60-70 | for every n, a run from the creation on with one error report in which n + 1 generations wait |
| Admission.LimitHoldsWithoutWrap | pkg/apis/ndbcontroller/v1/validation.go:96-109 | an accepted specification has at most 256 nodes exactly if the 32-bit sum does not wrap |
| Admission.WrappedTotal | pkg/apis/ndbcontroller/v1/validation.go:106-109 | the largest maximum of servers is created although it exceeds the limit |
| ClusterStatus.GetStatus | pkg/mgmapi/mgmapi.go:411-507 | the outcome of reading the reply in the order in which the map yields it |
| ClusterStatus.SuccessIsComplete | pkg/mgmapi/mgmapi.go:499-504 | in any order, success means exactly the declared number of nodes, all typed and in range |
| ClusterStatus.OrderDoesNotMatter | pkg/mgmapi/mgmapi.go:428-497 | for canonical node ids every order gives the same failure or the same status |
| ClusterStatus.StatusByNode | pkg/mgmapi/mgmapi.go:448-496 | type, connection, node group and version of every node, in terms of the lines of the reply |
| ClusterStatus.OrderMatters | pkg/mgmapi/mgmapi.go:428-497 | an accepted reply has the same status in every order exactly if no two lines conflict about the type or version of a node |
| ClusterStatus.OrderCanMatter | pkg/mgmapi/mgmapi.go:428-497 | two conflicting type lines, and the status that each order gives |
| ClusterStatus.IsHealthy | pkg/mgmapi/clusterstatus.go:120-141 | true exactly if all management nodes and all inducted data nodes are connected |
| ClusterStatus.GetNodesGroupedByNodegroup | pkg/mgmapi/clusterstatus.go:145-194 | nothing if a data node is missing, else at each position the sorted members of the group with that number |
| ClusterStatus.SortedListIsUnique | pkg/mgmapi/clusterstatus.go:174-185 | sorting makes the result independent of the order in which nodes were found |
| ClusterStatus.GroupingIsComplete | pkg/mgmapi/clusterstatus.go:187-191 | every inducted data node is shown exactly if groups are numbered without a gap |
| ClusterStatus.GetConnectedDataNodesWithNodeGroup | pkg/mgmapi/clusterstatus.go:198-220 | the sorted members of a group, nothing if one is not connected |
| NodeGroups.ManagementServer.CreateNodeGroups | pkg/controllers/ndbmtd_statefulset_controller.go:64-110 | which groups exist after a pass in which any request may fail or lose its reply |
| NodeGroups.ChunksFlatten | pkg/controllers/ndbmtd_statefulset_controller.go:86-104 | groups take the new nodes in ascending order, each of redundancy size |
| NodeGroups.GroupsStayDisjoint | pkg/controllers/ndbmtd_statefulset_controller.go:64-110 | over any attempts, groups are full, disjoint and made of new nodes; none gets lost |
| NodeGroups.SuccessLeavesNone | pkg/controllers/ndbmtd_statefulset_controller.go:79-109 | the exact condition under which a successful pass leaves no node out |
| NodeGroups.RetriesComplete | pkg/controllers/ndbmtd_statefulset_controller.go:79-109 | after any failed attempts, success with all new nodes connected means exactly added/redundancy full groups and no node left; in ascending order if they were connected all along |
| Rollout.PodClient.EnsurePodVersion | pkg/controllers/sync_context.go:143-176 | deletes a pod exactly if its cached revision is another one and the deletion succeeds |
| Rollout.PodClient.EnsureDataNodePodVersion | pkg/controllers/sync_context.go:190-273 | which pods a pass deletes and how it ends |
| Rollout.AtMostOnePerGroup | pkg/controllers/sync_context.go:190-270 | with any cache and any failures, deletions need every inducted node connected, and take at most one per group |
| Rollout.GroupsStayAlive | pkg/controllers/sync_context.go:180-189 | with redundancy every group keeps a connected member |
| Rollout.WaveProgresses | pkg/controllers/sync_context.go:225-269 | with fresh reads each pass makes strictly fewer pods outdated |
| Rollout.RedundancyBoundsWaves | pkg/controllers/sync_context.go:225-269 | as many passes as the redundancy level update every pod |
| Rollout.NeverFallsThrough | pkg/controllers/sync_context.go:271-273 | with matching counters the end of the method is not reached |
| Rollout.ContinueMeansClean | pkg/controllers/sync_context.go:225-269 | a pass that continues has seen the wanted revision everywhere |
| Rollout.PanicsOnShortGroup | pkg/controllers/sync_context.go:229-233 | a pass indexes a group out of range exactly if some group is shorter than the first column that is not clean |
| Rollout.GapsPanic | pkg/mgmapi/clusterstatus.go:187-191 | a gap in the group numbers is such a case |
| SyncContext.SyncContext.PatchStatefulSet | pkg/controllers/statefulset_control.go:161-216 | applies the differences of two versions, and goes on exactly if the generation stays |
| SyncContext.SyncContext.PatchConfigMap | pkg/controllers/sync_context.go:670-692 | a new generation first, then the flag of the initial restart |
| SyncContext.SyncContext.EnsureAllResources | pkg/controllers/sync_context.go:281-438 | the first phases of a sync, with the early patch under a sync error |
| SyncContext.SyncContext.EnsureWorkloadsReadiness | pkg/controllers/sync_context.go:482-504 | waits only for workloads that carry the generation of the config map |
| SyncContext.SyncContext.ScaleDownMySQLServers | pkg/controllers/mysqld_statefulset_controller.go:56-135 | the first pass over the MySQL servers |
| SyncContext.SyncContext.ReconcileDataNodeStatefulSet | pkg/controllers/statefulset_control.go:218-260 | patches for a new generation or to remove --initial; new data nodes are only announced |
| SyncContext.SyncContext.ReconcileMySQLServers | pkg/controllers/mysqld_statefulset_controller.go:140-194 | the second pass over the MySQL servers |
| SyncContext.SyncContext.HandleAddNodeOnline | pkg/controllers/ndbmtd_statefulset_controller.go:194-221 | scale up, make groups, redistribute, take the annotation away |
| SyncContext.SyncContext.ReconcileRootUser | pkg/controllers/mysqld_statefulset_controller.go:197-258 | creates or moves the root user and records it in annotations |
| SyncContext.SyncContext.Synchronize | pkg/controllers/sync_context.go:510-613 | the whole sync follows the phase functions, whatever fails |
| SyncContext.SyncContext.HandleSync | pkg/controllers/controller.go:585-652 | the status is reported unless the sync failed |
| ReconcileRuns.AlwaysConfigFirst | pkg/controllers/controller.go:570-584 | in every run, applied generations are at most the config map's, and that is at most the specification's |
| ReconcileSuccess.AlwaysSound | pkg/controllers/statefulset_control.go:218-260 | in every run, data nodes that are configured but not started are announced, and statuses are right about pods |
| ReconcileSuccess.SuccessMeansInSync | pkg/controllers/sync_context.go:542-612 | in every run, success means that everything carries the specification's generation and nothing is under way |
| ReconcileSuccess.SuccessMeansPodsCurrent | pkg/controllers/sync_context.go:576-579 | and, with fresh reads, that inducted data nodes run the current template |
| ReconcilePaths.SyncDeletesOnePerGroup | pkg/controllers/sync_context.go:190-270 | in every state a sync that deletes data node pods takes at most one per node group, with all inducted nodes connected |
| ReconcilePaths.SyncKeepsGroupsAlive | pkg/controllers/sync_context.go:180-189 | of any two members of a group whose pods exist, a whole sync leaves one its pod |
| ReconcileUpdates.CalmRun | pkg/controllers/sync_context.go:510-613 | a sync keeps the strong invariant, whichever call to the API server fails |
| ReconcileUpdates.ServersScaledDown | pkg/controllers/sync_context.go:546-552 | reaching the management nodes, the servers are scaled down |
| UpdateRuns.WorkloadsKeepUp | pkg/controllers/sync_context.go:526-538 | without pod errors every workload carries the config map's generation or the one before |
| UpdateRuns.ConfigMapWaits | pkg/controllers/sync_context.go:590-607 | the config map moves on only when every workload has caught up |
| UpdateRuns.ScaledDownBeforeApplying | pkg/controllers/mysqld_statefulset_controller.go:49-56 | before a configuration is applied the running servers fit its slots |
| UpdateRuns.ServersFitSlots | pkg/controllers/mysqld_statefulset_controller.go:49-56 | and they keep fitting them in every state |
| UpdateRuns.ReplicasRiseAfterRestart | pkg/controllers/ndbmtd_statefulset_controller.go:45-61 | the replicas of data nodes rise only after all inducted pods run the new revision, which are all old pods if none is without a group |
| UpdateRuns.GroupsAfterReady | pkg/controllers/ndbmtd_statefulset_controller.go:194-212 | groups are made only when all new data nodes are started and ready |
| UpdateRuns.AdditionCompletes | pkg/controllers/statefulset_control.go:250-259 | at the config map's generation without the annotation, the replicas are the configured data nodes |
| TwoPhaseRestart.NewNodesAfterRestart | pkg/controllers/ndbmtd_statefulset_controller.go:45-61 | the same over whole runs with fresh reads: all old pods if no grouping has missed a node |
| TwoPhaseRestart.FlagClearsAfterRollout | pkg/controllers/sync_context.go:681-688 | the flag never clears before every inducted node was restarted with --initial and the new secret |
| TwoPhaseRestart.SuccessAfterSecondRollout | pkg/controllers/statefulset_control.go:223-235 | success means every inducted node runs the secret without --initial |
| TwoPhaseRestart.SecretChangeTakesTwoRollouts | pkg/resources/configmap.go:46-50 | over whole runs, a changed secret takes a rollout with --initial, a cleared flag, and a rollout without |
| Convergence.WaveForward | pkg/controllers/sync_context.go:225-269 | within a sync, a wave of the rollout leaves strictly fewer stale pods |
| Convergence.SyncForward | pkg/controllers/sync_context.go:510-613 | a sync of a mended state never fails; it reports success with no stale pod, or leaves less to do |
| Convergence.SuccessTakesEffect | pkg/controllers/sync_context.go:590-607 | success means that size, secret, configuration version and pods of all workloads are those of the specification |
| Convergence.RoundProgresses | pkg/controllers/sync_context.go:510-613 | every round keeps the state mended, and the specification takes effect or the measure falls |
| Convergence.UpdateCompletes | pkg/controllers/controller.go:570-584 | after more than 3n + 12 rounds for n data nodes the specification has taken effect, whatever was under way and whatever errors there had been |
| Convergence.TidyIsMended | pkg/controllers/sync_context.go:510-613 | without pod errors every state between rounds is of that kind |
| Convergence.UpdateStaysTidy | pkg/webhook/ndb_admission_controller.go:55-77 | an admitted update with a configuration may arrive at any tidy state |
| RoundsExist.ConnectedCovers | pkg/mgmapi/clusterstatus.go:145-194 | the status of a connected cluster in full groups is grouped so that every data node is found |
| RoundsExist.GoodRoundExists | pkg/controllers/sync_context.go:510-613 | from every mended state there is a round in which nothing fails and everything catches up |
| RoundsExist.EveryUpdateHappens | pkg/controllers/controller.go:570-584 | an update for which a configuration can be generated takes effect in some run from every tidy state |
| RoundsExist.SecretChangeHappens | pkg/resources/configmap.go:46-50 | for all valid specifications there are runs in which the secret changes and success follows |
| PodErrorRuns.AlwaysStanding | pkg/controllers/sync_context.go:335-343 | in every run, a workload that carries the config map's generation is built from its specification, and without a sync error the config map is behind only when everything is settled |
| PodErrorRuns.ErrorsCease | pkg/controllers/controller.go:615-628 | one sync that does not fail and sees no pod error leaves a sync error behind |
| Recovery.RecoveryCompletes | pkg/controllers/sync_context.go:335-343 | after any run with pod errors and failing calls, the latest specification, if it can be generated, takes effect once errors cease, provided that some configuration was processed and no started data node was left behind with a restart ahead |
| Recovery.FirstConfigurationBlocks | pkg/controllers/sync_context.go:403-419 | a data node pod left over during the first configuration stays through every sync, and none reports success |
| Recovery.StuckForGood | pkg/controllers/sync_context.go:403-419 | a first configuration with a pod left over, with the flag of the initial restart set before pods run, or that cannot be written, stays stuck through every run in which nobody else steps in |
| Recovery.FirstConfigurationCompletes | pkg/controllers/sync_context.go:403-419 | from every state of the first configuration once the errors have ceased, it takes effect in some rounds in which nobody else removes a pod exactly if no pod is left over, the flag of the initial restart is not set before the data nodes are created, and the config map exists or can be written |
| Recovery.SecretCorrectionGetsStuck | pkg/resources/configmap.go:46-50 | for all specifications with different secrets, a run without failing calls in which a correction before the data nodes are created gets stuck, with no pod left over |
| Recovery.LeftBehindStaysOutdated | pkg/controllers/sync_context.go:199-233 | through every run, a data node that is never reported in a node group keeps its pod, and a configuration that asks for another one is never in effect |
| Recovery.CorrectionGetsStuck | pkg/controllers/sync_context.go:403-419 | for all specifications with different data node pods, a run without failing calls in which a correction of the first configuration gets stuck |
| ReconcileLimits.RestIsStable | pkg/controllers/sync_context.go:510-613 | at rest a sync changes nothing and reports success, whatever the environment answers |
| ReconcileLimits.AnnotationSafeWhenCalm | pkg/controllers/statefulset_control.go:223-235 | without sync errors the data nodes' StatefulSet is not patched while an addition is announced |
| ReconcileLimits.RolloutComparesWithStatus | pkg/controllers/sync_context.go:199-200 | what the rollout phase really compares pods with |
| UngroupedNodes.SuccessGroupsAllUnlessLeftBehind | pkg/controllers/statefulset_control.go:245-259 | over all runs, success leaves every started data node grouped exactly if none was left behind, by a patch that drops the announcement or by a grouping that passes it over, without being grouped later |
| UngroupedNodes.CalmSuccessGroupsAllUnlessMissed | pkg/controllers/ndbmtd_statefulset_controller.go:194-221 | without pod errors it is exactly if no grouping passed a node over without its being grouped later |
| UngroupedRun.SuccessWithMissedNode | pkg/controllers/ndbmtd_statefulset_controller.go:79-84 | for all specifications that add data nodes, a run without failing calls or pod errors in which success leaves a node ungrouped that was not connected when the groups were made |
| UngroupedRun.SuccessWithUngroupedNode | pkg/controllers/sync_context.go:335-343 | for all specifications that add data nodes, a run without failing calls in which success leaves a started data node without a group |
| RootUsers.FirstRootUser | pkg/controllers/mysqld_statefulset_controller.go:229-248 | whatever calls fail, a new cluster has the root user of its specification and records it |
| RootUsers.RootUsersAfterUpdate | pkg/controllers/mysqld_statefulset_controller.go:180-258 | over a whole update without pod errors, with any failing calls, exactly when only the specified root user remains; without failing calls, in terms of the servers' template and number, and exactly when the host is recorded |
| RootUsers.RootUsersAfterSuccess | pkg/controllers/mysqld_statefulset_controller.go:180-258 | the same for an update that ends with a sync that reports success |
| RootUserRuns.BothRootUsersRemain | pkg/controllers/mysqld_statefulset_controller.go:229-248 | runs from the creation on, without failing calls, that end in success with the old and the new root user |
| RootUserRuns.OneFailureKeepsBoth | pkg/controllers/mysqld_statefulset_controller.go:229-258 | a run in which only the host changes and one root user statement fails once, and both root users remain |
| AdmittedUpdates.UpdateIsAdmitted | pkg/webhook/ndb_admission_controller.go:55-77 | what the webhook lets through meets what reconciliation expects of an update |
| AdmittedUpdates.SizableIfNotNegative | pkg/ndbconfig/config_generators.go:125-132 | within the limit of nodes, a configuration can be generated exactly if the free API slots are not negative |
| AdmittedUpdates.AlwaysRendered | pkg/resources/configmap.go:131-135 | in every run the config map holds only specifications with a configuration |
| AdmittedUpdates.UpdateHappens | pkg/webhook/ndb_admission_controller.go:55-77 | where there have been no pod errors, an update that the webhook lets through takes effect in some run exactly if its configuration can be generated, as long as the sum of nodes does not wrap; with negative free slots never |
| AdmittedUpdates.CreationHappens | pkg/webhook/ndb_admission_controller.go:45-53 | the same for a resource that was just created |
| AdmittedUpdates.NegativeSlotsBlock | pkg/controllers/configmap_controller.go:106-113 | after an update with negative free slots no sync succeeds and no other update is admitted, without pod errors |

## Left out

- Kubernetes clients, listers, informers, the workqueue and events: reads and writes of the state; reads are fresh except for the pods and statuses that `Answers` supplies.
- Sockets, time-outs, framing of commands, and base64 decoding of the configuration (section 4 of RFC 4648): the model starts from the reply map and the decoded bytes.
- Node statuses and node group lists are values in a map, not objects shared through pointers; the aliasing of entries is not captured.
- SQL: table redistribution and root user statements succeed or fail as a whole.
- Encoding of JSON patches (section 4 of RFC 6902) and strategic-merge patches: a patch replaces the fields that differ.
- Pod specifications, volumes, probes, affinities, services, security contexts, certificates, passwords and disruption budgets: one number stands for everything that shapes a pod besides the modelled fields, and it is a function of the specification.
- The memory request of data node pods, which depends on the running configuration when the template is built.
- The cluster domain lookup in the generator: the host name suffix is a parameter.
- Go's template engine: the template is a sequence of emitted lines. Multi-line or padded tokens are excluded from the round trips by `PlainSpec`.
- Non-ASCII text: upper and lower case and white space are those of ASCII.
- Helper scripts in the config map, network policy drift, status conditions and pod error messages.
- A config map volume that a restarting pod reads before its StatefulSet was patched: the configuration being applied is that of the patch.
- Counts that overflow an int32 when multiplied or incremented: `SlotsFit` and `Countable` exclude them where a text is generated. Generations are read back as int32 and assumed to fit.
- ConfigGenerator.GetConfigString: excludes a product of server maximum and pool size beyond an int32, which admission lets through only when the sum of nodes wraps or the free API slots are negative; the id loop need not end there.
- ConfigMaps.ConfigMap.UpdateManagementConfig: excludes the same products, because it generates the text.
- ConfigMaps.ConfigMap.GetUpdatedConfigMap: excludes the same products, because it generates the text.
- ConfigMaps.CreateConfigMap: excludes the same products, because it generates the text.
- In `Reconcile`, a config map is represented by the specification it was last patched for, which `ConfigHistory.HistoryDescribed` justifies exactly where it says that the map describes it, and by its versions.
- Pods of management nodes and the order of a rolling update by Kubernetes: only their statuses are modelled, and those are arbitrary.
- Crashes of the operator: an index out of range in the rollout, and the nil config map of a specification without a configuration, are calls that fail and change nothing.
- Debug builds, in which the operator panics where it otherwise returns an error.
- ReconcileSuccess.SuccessMeansPodsCurrent: needs the StatefulSet controller to have seen the current object; `ReconcileLimits.RolloutComparesWithStatus` shows what happens before, and runs without pod errors do not need it.
- Convergence.UpdateCompletes: is about rounds without failing calls in which started pods run the current template; with a call that fails for ever there is no progress to state.
- Recovery.RecoveryCompletes: says nothing about states with a data node that was left behind without a group and has a restart ahead; it may still take effect when later data nodes are added, which puts all of them into groups. `UngroupedNodes.SuccessGroupsAllUnlessLeftBehind` is exact about when a node is left behind, and `Recovery.LeftBehindStaysOutdated` says what becomes of it until it is in a group.
