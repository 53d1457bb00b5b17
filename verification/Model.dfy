/** The records that controllers, stores, agents and MySQL servers exchange (internal/model/model.go). */
module Model {

  datatype Option<+T> = None | Some(value: T)

  /** Node and operation identifiers are strings; the empty string stands for "none". */
  type NodeId = string
  type OperationId = string

  /** The value of a record's primary before bootstrap. */
  const NOBODY: NodeId := ""

  /** One transaction of a GTID set; a GTID set is a set of these. */
  type Txn = nat

  datatype Role = RoleUnknown | RolePrimary | RoleReplica

  datatype ReplicaStatus = ReplicaStatus(ioRunning: bool, sqlRunning: bool, secondsBehind: Option<int>)

  datatype NodeStatus = NodeStatus(
    reachable: bool,
    healthy: bool,
    role: Role,
    readOnly: bool,
    superReadOnly: bool,
    replica: Option<ReplicaStatus>,
    failureCount: nat)

  /** The status of a node that did not answer. */
  const UNREACHABLE := NodeStatus(false, false, RoleUnknown, false, false, None, 0)

  datatype ClusterState = ClusterState(primary: NodeId, epoch: nat, autoFailover: bool)

  datatype SwitchAuthorization = SwitchAuthorization(operation: OperationId, fromEpoch: nat, toEpoch: nat)

  /** What a store accepts as the authority for a role change (internal/store/store.go:98-108). */
  predicate Authorizes(cluster: ClusterState, operation: Option<SwitchAuthorization>, auth: SwitchAuthorization) {
    operation == Some(auth) && (cluster.epoch == auth.fromEpoch || cluster.epoch == auth.toEpoch)
  }

  datatype TaskState = TaskRunning | TaskDryRun | TaskFailed | TaskCompleted
}
