/** The controller's view of the configured nodes (internal/agent/client.go:25-33): each call reaches the node's agent
    or not, and its reply may be lost. */
module Fleet {
  import opened Model
  import opened MySql
  import opened MySqlClient
  import opened MemoryStore
  import opened Agent

  class Fleet {
    const store: MemoryStore
    const addresses: map<NodeId, string>
    const faultless: bool                        // every call is answered and every server works
    var modes: map<NodeId, Mode>
    var executed: map<NodeId, set<Txn>>

    constructor (store: MemoryStore, addresses: map<NodeId, string>, faultless: bool, modes: map<NodeId, Mode>,
                 executed: map<NodeId, set<Txn>>)
      ensures this.store == store && this.addresses == addresses && this.faultless == faultless
      ensures this.modes == modes && this.executed == executed
    {
      this.store, this.addresses, this.faultless := store, addresses, faultless;
      this.modes, this.executed := modes, executed;
    }

    ghost predicate Valid()
      reads this
    {
      && modes.Keys == executed.Keys == addresses.Keys && NOBODY !in modes
      && forall n <- modes :: modes[n].source.None? ==> !modes[n].started
    }

    /** A node that does not answer is reported as unreachable. */
    method Status(n: NodeId) returns (st: NodeStatus, ghost heard: bool, ghost ping: bool, ghost scanned: bool)
      requires Valid() && n in modes
      ensures Describes(st, modes[n]) && st.failureCount == 0 && (faultless ==> st == Plain(modes[n]))
      ensures st.reachable == (heard && ping) && (!(heard && ping && scanned) <==> st.role.RoleUnknown?)
    {
      var db := new Server(faultless, modes[n], executed[n]);
      ghost var shown;
      st, ping, scanned, shown := db.Status();
      var answered: bool := *;
      answered := answered || faultless;
      heard := answered;
      if !answered {
        st := UNREACHABLE;
      }
    }

    method ExecutedGTID(n: NodeId) returns (ok: bool, gtid: set<Txn>)
      requires Valid() && n in modes
      ensures (ok ==> gtid == executed[n]) && (faultless ==> ok)
    {
      var db := new Server(faultless, modes[n], executed[n]);
      ok, gtid := db.ExecutedGTID();
    }

    method WaitForGTID(n: NodeId, auth: SwitchAuthorization, gtid: set<Txn>, timeoutSeconds: int)
      returns (ok: bool, ghost heard: bool)
      requires Valid() && n in modes
      modifies this`executed
      ensures Valid() && executed == old(executed)[n := executed[n]] && old(executed)[n] <= executed[n]
      ensures executed[n] == old(executed)[n] || (modes[n].source.Some? && modes[n].started)
      ensures ok <==>
              && auth.operation != "" && Authorizes(store.cluster, store.operation, auth)
              && 1 <= timeoutSeconds <= 60 && gtid != {} && gtid <= executed[n] && heard
      ensures faultless && modes[n].source.Some? && modes[n].started ==>
                (ok <==>
                 && auth.operation != "" && Authorizes(store.cluster, store.operation, auth)
                 && 1 <= timeoutSeconds <= 60 && gtid != {})
    {
      var db := new Server(faultless, modes[n], executed[n]);
      var agent := new Agent(n, db, store);
      ghost var reached, answered;
      ok, reached, answered := agent.WaitGTID(auth, gtid, timeoutSeconds);
      executed := executed[n := db.executed];
      var replied: bool := *;
      replied := replied || faultless;
      heard := reached && answered && replied;
      ok := ok && replied;
    }

    /** `entered` says that the agent passed its own checks, `ran` how many statements took effect, `said` what the
        agent answered, and `heard` whether that reached the caller. */
    method Demote(n: NodeId, auth: SwitchAuthorization)
      returns (ok: bool, ghost entered: bool, ghost ran: nat, ghost said: bool, ghost heard: bool)
      requires Valid() && n in modes
      modifies this`modes
      ensures Valid() && ran <= |DEMOTE| && (ok <==> said && heard) && (said ==> entered && ran == |DEMOTE|)
      ensures if entered then Authorizes(store.cluster, store.operation, auth) else ran == 0
      ensures modes == old(modes)[n := After(old(modes)[n], DEMOTE, ran)]
      ensures faultless ==> (ok <==> auth.operation != "" && Authorizes(store.cluster, store.operation, auth))
    {
      var db := new Server(faultless, modes[n], executed[n]);
      var agent := new Agent(n, db, store);
      ghost var reached;
      ok, entered, ran, reached := agent.Demote(auth);
      modes := modes[n := db.mode];
      var replied: bool := *;
      replied := replied || faultless;
      said, heard := ok, replied;
      ok := ok && replied;
    }

    method Promote(n: NodeId, auth: SwitchAuthorization)
      returns (ok: bool, ghost entered: bool, ghost ran: nat, ghost said: bool, ghost heard: bool)
      requires Valid() && n in modes
      modifies this`modes
      ensures Valid() && ran <= |PROMOTE| && (ok <==> said && heard) && (said ==> entered && ran == |PROMOTE|)
      ensures if entered then Authorizes(store.cluster, store.operation, auth) else ran == 0
      ensures entered ==> ReportsReplica(old(modes)[n])
      ensures modes == old(modes)[n := After(old(modes)[n], PROMOTE, ran)]
      ensures faultless ==>
                (ok <==>
                 && auth.operation != "" && Authorizes(store.cluster, store.operation, auth)
                 && ReportsReplica(old(modes)[n]) && old(modes)[n].started)
    {
      var db := new Server(faultless, modes[n], executed[n]);
      var agent := new Agent(n, db, store);
      ghost var reached, seen, done, after;
      ok, entered, ran, reached, seen, done, after := agent.Promote(auth);
      modes := modes[n := db.mode];
      var replied: bool := *;
      replied := replied || faultless;
      said, heard := ok, replied;
      ok := ok && replied;
    }

    method ReconfigureReplica(n: NodeId, auth: SwitchAuthorization, to: NodeId)
      returns (ok: bool, ghost entered: bool, ghost ran: nat, ghost said: bool, ghost heard: bool)
      requires Valid() && n in modes && to in addresses
      modifies this`modes
      ensures Valid() && ran <= 6 && (ok <==> said && heard) && (said ==> entered && ran == 6)
      ensures if entered then Authorizes(store.cluster, store.operation, auth) && to != n else ran == 0
      ensures modes == old(modes)[n := After(old(modes)[n], Link(to), ran)]
      ensures faultless ==>
                (ok <==>
                 && auth.operation != "" && Authorizes(store.cluster, store.operation, auth)
                 && to != "" && to != n && addresses[to] != "")
    {
      var db := new Server(faultless, modes[n], executed[n]);
      var agent := new Agent(n, db, store);
      var credentials: bool := *;
      credentials := credentials || faultless;
      ghost var reached, done, polls;
      ok, entered, ran, reached, done, polls := agent.Replica(auth, to, addresses[to], credentials);
      modes := modes[n := db.mode];
      var replied: bool := *;
      replied := replied || faultless;
      said, heard := ok, replied;
      ok := ok && replied;
    }
  }
}
