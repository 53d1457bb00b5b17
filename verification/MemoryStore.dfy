/** The in-memory store (internal/store/store.go:31-136). The mutex makes each method one critical section; taking
    and giving back a switch lock are two sections each, and so are two calls here. */
module MemoryStore {
  import opened Model

  datatype SwitchTask = SwitchTask(id: OperationId, from: NodeId, to: NodeId, automatic: bool, dryRun: bool,
      state: TaskState)

  class MemoryStore {
    var cluster: ClusterState
    var locked: bool
    var operation: Option<SwitchAuthorization>
    var tasks: map<OperationId, SwitchTask>

    constructor ()
      ensures cluster == ClusterState(NOBODY, 0, false) && !locked && operation.None? && tasks == map[]
    {
      cluster, locked, operation, tasks := ClusterState(NOBODY, 0, false), false, None, map[];
    }

    method GetCluster() returns (state: ClusterState)
      ensures state == cluster
    {
      state := cluster;
    }

    method PutCluster(state: ClusterState)
      modifies this`cluster
      ensures cluster == state
    {
      cluster := state;
    }

    method PutClusterIfEpoch(expected: nat, state: ClusterState) returns (ok: bool)
      modifies this`cluster
      ensures ok <==> old(cluster).epoch == expected
      ensures cluster == if ok then state else old(cluster)
    {
      if cluster.epoch != expected {
        return false;
      }
      cluster := state;
      ok := true;
    }

    method AcquireLock() returns (ok: bool)
      modifies this`locked
      ensures ok <==> !old(locked)
      ensures locked
    {
      if locked {
        return false;
      }
      locked := true;
      ok := true;
    }

    method ReleaseLock()
      modifies this`locked
      ensures !locked
    {
      locked := false;
    }

    /** The second section of AcquireSwitchLock. */
    method PlaceOperation(auth: SwitchAuthorization)
      modifies this`operation
      ensures operation == Some(auth)
    {
      operation := Some(auth);
    }

    /** The first section of a switch lock's release. */
    method ClearOperation()
      modifies this`operation
      ensures operation.None?
    {
      operation := None;
    }

    method VerifySwitchOperation(auth: SwitchAuthorization) returns (ok: bool)
      ensures ok <==> Authorizes(cluster, operation, auth)
    {
      if operation != Some(auth) {
        return false;
      }
      if cluster.epoch != auth.fromEpoch && cluster.epoch != auth.toEpoch {
        return false;
      }
      ok := true;
    }

    method PutTask(task: SwitchTask)
      modifies this`tasks
      ensures tasks == old(tasks)[task.id := task]
    {
      tasks := tasks[task.id := task];
    }
  }
}
