/** The agent beside one MySQL server (internal/agent/server.go): it asks the store before it waits or changes
    a role. */
module Agent {
  import opened Model
  import opened MySql
  import opened MySqlClient
  import opened MemoryStore

  class Agent {
    const nodeId: NodeId
    const db: Server
    const store: MemoryStore

    constructor (nodeId: NodeId, db: Server, store: MemoryStore)
      ensures this.nodeId == nodeId && this.db == db && this.store == store
    {
      this.nodeId, this.db, this.store := nodeId, db, store;
    }

    /** Passes exactly a named operation that the store accepts, if the store is `reached`. */
    method Authorize(auth: SwitchAuthorization) returns (ok: bool, ghost reached: bool)
      ensures ok <==> auth.operation != "" && Authorizes(store.cluster, store.operation, auth) && reached
      ensures db.faultless ==> reached
      ensures ok ==> auth.operation != "" && Authorizes(store.cluster, store.operation, auth)
      ensures db.faultless && auth.operation != "" && Authorizes(store.cluster, store.operation, auth) ==> ok
    {
      var answered: bool := *;
      answered := answered || db.faultless;
      reached := answered;
      if auth.operation == "" {
        return false, reached;
      }
      ok := store.VerifySwitchOperation(auth);
      ok := ok && answered;
    }

    method WaitGTID(auth: SwitchAuthorization, gtid: set<Txn>, timeoutSeconds: int)
      returns (ok: bool, ghost reached: bool, ghost heard: bool)
      modifies db`executed
      ensures old(db.executed) <= db.executed
      ensures (db.mode.source.None? || !db.mode.started) ==> db.executed == old(db.executed)
      ensures ok <==>
              && auth.operation != "" && Authorizes(store.cluster, store.operation, auth) && reached
              && 1 <= timeoutSeconds <= 60 && gtid != {} && gtid <= db.executed && heard
      ensures db.faultless && db.mode.source.Some? && db.mode.started ==>
                (ok <==>
                 && auth.operation != "" && Authorizes(store.cluster, store.operation, auth)
                 && 1 <= timeoutSeconds <= 60 && gtid != {})
    {
      heard := false;
      ok, reached := Authorize(auth);
      if !ok {
        return;
      }
      if timeoutSeconds < 1 || timeoutSeconds > 60 || gtid == {} {
        return false, reached, heard;
      }
      ok, heard := db.WaitForGTID(gtid);
    }

    /** `entered` says that the agent passed its check; exactly then it sends the script, of which `ran` statements take
        effect. */
    method Demote(auth: SwitchAuthorization)
      returns (ok: bool, ghost entered: bool, ghost ran: nat, ghost reached: bool)
      requires db.Valid()
      modifies db`mode, db`sent
      ensures db.Valid() && ran <= |DEMOTE| && (ok ==> entered && ran == |DEMOTE|) && (!entered ==> ran == 0)
      ensures entered <==> auth.operation != "" && Authorizes(store.cluster, store.operation, auth) && reached
      ensures old(db.sent) <= db.sent
      ensures if entered then Carried(Since(old(db.sent), db.sent), DEMOTE, ok) else !ok && db.sent == old(db.sent)
      ensures db.mode == After(old(db.mode), DEMOTE, ran)
      ensures db.faultless ==> (ok <==> auth.operation != "" && Authorizes(store.cluster, store.operation, auth))
    {
      entered, ran := false, 0;
      ok, reached := Authorize(auth);
      if !ok {
        return;
      }
      entered := true;
      ok, ran := db.Demote();
    }

    /** Promotes exactly a server that it has just `seen` to be a healthy replica with running threads and no lag, and
        confirms from the status `after` that it became writable. */
    method Promote(auth: SwitchAuthorization)
      returns (ok: bool, ghost entered: bool, ghost ran: nat, ghost reached: bool, ghost seen: NodeStatus,
               ghost done: bool, ghost after: NodeStatus)
      requires db.Valid()
      modifies db`mode, db`sent
      ensures db.Valid() && ran <= |PROMOTE| && (ok ==> entered && ran == |PROMOTE|) && (!entered ==> ran == 0)
      ensures Describes(seen, old(db.mode)) && Describes(after, db.mode)
      ensures entered <==>
              && auth.operation != "" && Authorizes(store.cluster, store.operation, auth) && reached
              && seen.healthy && seen.role == RoleReplica && seen.replica.Some? && seen.replica.value.ioRunning
              && seen.replica.value.sqlRunning && seen.replica.value.secondsBehind == Some(0)
      ensures entered ==> ReportsReplica(old(db.mode))
      ensures old(db.sent) <= db.sent
      ensures if entered then Carried(Since(old(db.sent), db.sent), PROMOTE, done) else !done && db.sent == old(db.sent)
      ensures ok <==> done && after.healthy && after.role == RolePrimary
      ensures db.mode == After(old(db.mode), PROMOTE, ran)
      ensures db.faultless ==>
                (ok <==>
                 && auth.operation != "" && Authorizes(store.cluster, store.operation, auth)
                 && ReportsReplica(old(db.mode)) && old(db.mode).started)
    {
      entered, ran, seen, done, after := false, 0, UNREACHABLE, false, UNREACHABLE;
      ok, reached := Authorize(auth);
      if !ok {
        return;
      }
      ghost var ping, scanned, shown;
      var status;
      status, ping, scanned, shown := db.Status();
      seen := status;
      if !status.healthy || status.role != RoleReplica || status.replica.None? || !status.replica.value.ioRunning
         || !status.replica.value.sqlRunning || status.replica.value.secondsBehind != Some(0)
      {
        ok := false;
        return;
      }
      entered := true;
      ok, ran := db.Promote();
      done := ok;
      if !ok {
        return;
      }
      PromoteProgress(old(db.mode), ran);
      status, ping, scanned, shown := db.Status();
      after := status;
      ok := status.healthy && status.role == RolePrimary;
    }

    /** Repoints the server and polls it once a second until it is seen to be a running replica, the caller is gone, or
        a minute has passed. */
    method Replica(auth: SwitchAuthorization, to: NodeId, address: string, credentials: bool)
      returns (ok: bool, ghost entered: bool, ghost ran: nat, ghost reached: bool, ghost done: bool,
               ghost polls: seq<NodeStatus>)
      requires db.Valid()
      modifies db`mode, db`sent
      ensures db.Valid() && ran <= 6 && (ok ==> entered && ran == 6) && (!entered ==> ran == 0)
      ensures entered <==>
              && auth.operation != "" && Authorizes(store.cluster, store.operation, auth) && reached
              && to != "" && to != nodeId && address != ""
      ensures old(db.sent) <= db.sent && (!entered ==> !done && db.sent == old(db.sent))
      ensures entered && credentials ==> Carried(Since(old(db.sent), db.sent), Link(to), done)
      ensures entered && !credentials ==> !done
      ensures forall st <- polls :: Describes(st, db.mode)
      ensures forall i | 0 <= i < |polls| - 1 :: !Replicating(polls[i])
      ensures ok <==> done && polls != [] && Replicating(polls[|polls| - 1])
      ensures db.mode == After(old(db.mode), Link(to), ran)
      ensures db.faultless && credentials ==>
                (ok <==>
                 && auth.operation != "" && Authorizes(store.cluster, store.operation, auth)
                 && to != "" && to != nodeId && address != "")
    {
      entered, ran, done, polls := false, 0, false, [];
      ok, reached := Authorize(auth);
      if !ok {
        return;
      }
      if to == "" || to == nodeId || address == "" {
        ok := false;
        return;
      }
      entered := true;
      ghost var dropped;
      ok, ran, dropped := db.ReconfigureReplica(to, credentials);
      done := ok;
      if !ok {
        return;
      }
      LinkProgress(old(db.mode), to, ran);
      ok, polls := Poll();
    }

    /** A healthy replica whose threads run. */
    ghost predicate Replicating(st: NodeStatus) {
      && st.healthy && st.role == RoleReplica && st.replica.Some? && st.replica.value.ioRunning
      && st.replica.value.sqlRunning
    }

    /** At most one status a second for a minute. */
    method Poll() returns (ok: bool, ghost polls: seq<NodeStatus>)
      requires db.Valid()
      ensures forall st <- polls :: Describes(st, db.mode)
      ensures forall i | 0 <= i < |polls| - 1 :: !Replicating(polls[i])
      ensures ok <==> polls != [] && Replicating(polls[|polls| - 1])
      ensures db.faultless && ReportsReplica(db.mode) && db.mode.started ==> ok
    {
      polls := [];
      for tick := 0 to 61
        invariant forall st <- polls :: Describes(st, db.mode) && !Replicating(st)
        invariant db.faultless && ReportsReplica(db.mode) && db.mode.started ==> tick == 0
      {
        ghost var ping, scanned, shown;
        var status;
        status, ping, scanned, shown := db.Status();
        polls := polls + [status];
        if status.healthy && status.role == RoleReplica && status.replica.Some?
           && status.replica.value.ioRunning && status.replica.value.sqlRunning
        {
          ok := true;
          return;
        }
        var cancelled: bool := *;
        if cancelled {
          ok := false;
          return;
        }
      }
      ok := false;
    }
  }
}
