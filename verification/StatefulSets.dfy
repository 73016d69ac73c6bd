/**
 StatefulSets as far as the operator looks at them (pkg/controllers/common_utils.go,
 pkg/resources/statefulset).
 */
module StatefulSets {
  import opened Wrappers

  /** What distinguishes one pod definition from another. */
  datatype Template = Template(
    version: nat,     // of config.ini, an annotation
    cnfVersion: nat,  // of my.cnf, an annotation; MySQL servers only
    pool: nat,        // connection pool size; MySQL servers only
    secret: string,   // password secret of the file system; data nodes only
    initial: bool,    // is --initial on the command line? data nodes only
    shape: int)       // all the rest

  datatype Status = Status(observed: nat, replicas: nat, ready: nat, updated: nat, current: nat, updateRevision: Template)

  datatype StatefulSet = StatefulSet(
    generation: nat,
    applied: nat,              // annotation: the generation of the configuration it was last patched for
    addNode: bool,             // annotation: new data nodes are being added
    rootGen: Option<nat>,      // annotation: the generation last applied to the root user
    rootHost: Option<string>,  // annotation: the host of the root user
    replicas: nat,
    template: Template,
    onDelete: bool,            // pods are updated only when deleted
    status: Status)

  predicate UpdateComplete(s: StatefulSet) {
    && s.status.replicas == s.replicas && s.status.ready == s.replicas && s.status.updated == s.replicas
    && s.status.observed >= s.generation
    && (s.onDelete || s.status.current == s.replicas)
  }

  predicate Ready(s: StatefulSet) {
    s.status.ready == s.replicas && s.status.observed == s.generation
  }

  predicate HasGeneration(s: StatefulSet, generation: nat) {
    s.applied == generation
  }

  predicate IsInitialFlagSet(s: Option<StatefulSet>) {
    s.Some? && s.value.template.initial
  }
}
