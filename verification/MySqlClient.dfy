/** The agent's MySQL client (internal/mysql/client.go): role changes as sequences of statements, each of which
    may fail before or after it took effect. */
module MySqlClient {
  import opened Model
  import opened MySql

  /** A statement's reply. ChannelAbsent stands for the errors that replicaChannelAbsent recognises: there was nothing
      to stop or to reset. */
  datatype Reply = Done | ChannelAbsent | Broken

  /** A statement and how the server answered it. */
  datatype Sent = Sent(statement: Statement, reply: Reply)

  /** STOP REPLICA and RESET REPLICA ALL may find nothing to do; every other statement has to succeed. */
  ghost predicate Accepted(x: Sent) {
    x.reply.Done? || (x.reply.ChannelAbsent? && (x.statement.StopReplica? || x.statement.ResetReplica?))
  }

  /** The client sent the script's statements, in order, up to the end or to the first one that was not accepted; and
      says which of the two it was. */
  ghost predicate Carried(sent: seq<Sent>, script: seq<Statement>, ok: bool) {
    && |sent| <= |script| && (forall i | 0 <= i < |sent| :: sent[i].statement == script[i])
    && (forall i | 0 <= i < |sent| - 1 :: Accepted(sent[i]))
    && if ok then |sent| == |script| && (sent != [] ==> Accepted(sent[|sent| - 1]))
       else sent != [] && !Accepted(sent[|sent| - 1])
  }

  lemma CarriedBoth(a: seq<Sent>, first: seq<Statement>, b: seq<Sent>, second: seq<Statement>, ok: bool)
    requires Carried(a, first, true) && Carried(b, second, ok)
    ensures Carried(a + b, first + second, ok)
  {}

  lemma CarriedFirst(a: seq<Sent>, first: seq<Statement>, second: seq<Statement>)
    requires Carried(a, first, false)
    ensures Carried(a, first + second, false)
  {}

  /** What was sent since. */
  ghost function Since<T>(before: seq<T>, now: seq<T>): seq<T> {
    if before <= now then now[|before|..] else []
  }

  lemma SinceTwice<T>(a: seq<T>, b: seq<T>, c: seq<T>)
    requires a <= b <= c
    ensures a <= c && Since(a, c) == Since(a, b) + Since(b, c)
  {}

  /** SetReadOnly's statements. */
  function SetAccess(on: bool): (script: seq<Statement>)
    ensures |script| == 2
  {
    [SetSuperReadOnly(on), SetReadOnly(on)]
  }

  /** A script that is interrupted in its second part has run all of its first. */
  lemma {:induction false} AfterBoth(m: Mode, a: seq<Statement>, b: seq<Statement>, ran: nat)
    requires ran <= |b|
    ensures After(m, a + b, |a| + ran) == After(After(m, a, |a|), b, ran)
  {
    if ran > 0 {
      AfterBoth(m, a, b, ran - 1);
    } else {
      AfterFirst(m, a, b, |a|);
    }
  }

  lemma {:induction false} AfterFirst(m: Mode, a: seq<Statement>, b: seq<Statement>, ran: nat)
    requires ran <= |a|
    ensures After(m, a + b, ran) == After(m, a, ran)
  {
    if ran > 0 { AfterFirst(m, a, b, ran - 1); }
  }

  /** What a status may say about a server in mode `m`. A call that fails on the way says less, never more. */
  ghost predicate Describes(st: NodeStatus, m: Mode) {
    && (st.readOnly ==> !m.access.Open?)
    && (st.superReadOnly ==> m.access.SuperReadOnly?)
    && (st.role.RolePrimary? ==> Writable(m) && st.healthy && st.replica.None?)
    && (st.role.RoleReplica? ==> !Writable(m))
    && (st.replica.Some? ==> m.source.Some?)
    && (!st.role.RoleUnknown? ==> st.readOnly == !m.access.Open? && st.superReadOnly == m.access.SuperReadOnly?)
    && WellFormed(st)
  }

  /** The shape of every status that Status builds, seen without the server. */
  predicate WellFormed(st: NodeStatus) {
    && (st.healthy || st.role.RoleReplica? ==> st.reachable)
    && (st.replica.Some? ==> st.role.RoleReplica?)
    && (st.role.RoleUnknown? ==> !st.healthy)
    && (st.role.RoleReplica? ==>
          (st.healthy <==> st.replica.Some? && st.replica.value.ioRunning && st.replica.value.sqlRunning
                           && st.replica.value.secondsBehind.Some?))
  }

  /** The status of a server that answers every query and whose replication keeps up. */
  ghost function Plain(m: Mode): NodeStatus {
    if m.access.Open? then NodeStatus(true, true, RolePrimary, false, false, None, 0)
    else
      var replica := if m.source.Some? then Some(ReplicaStatus(m.started, m.started, Some(0))) else None;
      NodeStatus(true, m.source.Some? && m.started, RoleReplica, true, m.access.SuperReadOnly?, replica, 0)
  }

  class Server {
    const faultless: bool                        // every query is answered, every statement works, replication keeps up
    var mode: Mode
    var executed: set<Txn>
    ghost var sent: seq<Sent>                    // every statement the client sent, with the answer

    constructor (faultless: bool, mode: Mode, executed: set<Txn>)
      ensures this.faultless == faultless && this.mode == mode && this.executed == executed && sent == []
    {
      this.faultless, this.mode, this.executed, sent := faultless, mode, executed, [];
    }

    /** A server without a channel runs no replication threads. */
    ghost predicate Valid()
      reads this
    {
      mode.source.None? ==> !mode.started
    }

    /** One statement: an error leaves open whether it took effect. */
    method Exec(st: Statement) returns (reply: Reply)
      requires Valid()
      modifies this`mode, this`sent
      ensures Valid() && sent == old(sent) + [Sent(st, reply)]
      ensures reply.Done? ==> mode == Apply(old(mode), st)
      ensures reply.ChannelAbsent? ==> mode == old(mode) == Apply(old(mode), st)
      ensures reply.ChannelAbsent? ==> st.StopReplica? || st.ResetReplica?
      ensures reply.Broken? ==> !faultless && (mode == old(mode) || mode == Apply(old(mode), st))
    {
      var complains: bool, reached: bool, heard: bool := *, *, *;
      if complains && ((st.StopReplica? && !mode.started) || (st.ResetReplica? && mode.source.None?)) {
        reply := ChannelAbsent;
      } else if !reached && !faultless {
        reply := Broken;
      } else {
        mode := Apply(mode, st);
        reply := if heard || faultless then Done else Broken;
      }
      sent := sent + [Sent(st, reply)];
    }

    /** Both flags, super_read_only first. `ran` counts the statements that took effect. */
    method SetAccessFlags(on: bool) returns (ok: bool, ghost ran: nat)
      requires Valid()
      modifies this`mode, this`sent
      ensures Valid() && ran <= 2 && (ok ==> ran == 2) && mode == After(old(mode), SetAccess(on), ran)
      ensures faultless ==> ok
      ensures old(sent) <= sent && Carried(Since(old(sent), sent), [SetSuperReadOnly(on), SetReadOnly(on)], ok)
    {
      ghost var m0 := mode;
      var reply := Exec(SetSuperReadOnly(on));
      assert After(m0, SetAccess(on), 0) == m0;
      if !reply.Done? {
        ran := if mode == m0 then 0 else 1;
        return false, ran;
      }
      ghost var m1 := mode;
      assert m1 == After(m0, SetAccess(on), 1);
      reply := Exec(SetReadOnly(on));
      ran := if reply.Broken? && mode == m1 then 1 else 2;
      ok := reply.Done?;
    }

    method Demote() returns (ok: bool, ghost ran: nat)
      requires Valid()
      modifies this`mode, this`sent
      ensures Valid() && ran <= |DEMOTE| && (ok ==> ran == |DEMOTE|) && mode == After(old(mode), DEMOTE, ran)
      ensures old(sent) <= sent && Carried(Since(old(sent), sent), DEMOTE, ok)
      ensures faultless ==> ok
    {
      ok, ran := SetAccessFlags(true);
    }

    /** STOP REPLICA and RESET REPLICA ALL, tolerating a missing channel. */
    method DropChannel() returns (ok: bool, ghost ran: nat)
      requires Valid()
      modifies this`mode, this`sent
      ensures Valid() && ran <= 2 && (ok ==> ran == 2) && mode == After(old(mode), [StopReplica, ResetReplica], ran)
      ensures old(sent) <= sent && Carried(Since(old(sent), sent), [StopReplica, ResetReplica], ok)
      ensures faultless ==> ok
    {
      ghost var script := [StopReplica, ResetReplica];
      ghost var m0 := mode;
      var reply := Exec(StopReplica);
      assert After(m0, script, 0) == m0;
      if reply.Broken? {
        ran := if mode == m0 then 0 else 1;
        return false, ran;
      }
      ghost var m1 := mode;
      assert m1 == After(m0, script, 1);
      reply := Exec(ResetReplica);
      ran := if reply.Broken? && mode == m1 then 1 else 2;
      ok := !reply.Broken?;
    }

    method Promote() returns (ok: bool, ghost ran: nat)
      requires Valid()
      modifies this`mode, this`sent
      ensures Valid() && ran <= |PROMOTE| && (ok ==> ran == |PROMOTE|) && mode == After(old(mode), PROMOTE, ran)
      ensures old(sent) <= sent && Carried(Since(old(sent), sent), PROMOTE, ok)
      ensures faultless ==> ok
    {
      ghost var m0, drop := mode, [StopReplica, ResetReplica];
      assert PROMOTE == drop + SetAccess(false);
      ok, ran := DropChannel();
      AfterFirst(m0, drop, SetAccess(false), ran);
      if !ok {
        CarriedFirst(Since(old(sent), sent), drop, SetAccess(false));
        return;
      }
      ghost var sent1 := sent;
      ok, ran := SetAccessFlags(false);
      AfterBoth(m0, drop, SetAccess(false), ran);
      ran := 2 + ran;
      CarriedBoth(Since(old(sent), sent1), drop, Since(sent1, sent), SetAccess(false), ok);
      SinceTwice(old(sent), sent1, sent);
    }

    /** Points the server at a new source and closes it. `credentials` says whether the replication user and password
        are configured; without them it stops after the old channel is gone. */
    method ReconfigureReplica(to: NodeId, credentials: bool) returns (ok: bool, ghost ran: nat, ghost dropped: bool)
      requires Valid()
      modifies this`mode, this`sent
      ensures Valid() && ran <= 6 && (ok ==> ran == 6) && mode == After(old(mode), Link(to), ran)
      ensures old(sent) <= sent
      ensures credentials ==> Carried(Since(old(sent), sent), Link(to), ok)
      ensures faultless && credentials ==> ok
      ensures !credentials ==> !ok && Carried(Since(old(sent), sent), [StopReplica, ResetReplica], dropped)
    {
      ghost var m0, drop := mode, [StopReplica, ResetReplica];
      ghost var rest := [ChangeSource(to), StartReplica] + SetAccess(true);
      assert Link(to) == drop + rest;
      ok, ran := DropChannel();
      dropped := ok;
      AfterFirst(m0, drop, rest, ran);
      if !ok {
        CarriedFirst(Since(old(sent), sent), drop, rest);
        return;
      }
      if !credentials {
        return false, ran, dropped;
      }
      ghost var sent1 := sent;
      ok, ran := Follow(to);
      AfterBoth(m0, drop, rest, ran);
      ran := 2 + ran;
      CarriedBoth(Since(old(sent), sent1), drop, Since(sent1, sent), rest, ok);
      SinceTwice(old(sent), sent1, sent);
    }

    /** The new channel, and then the flags. */
    method Follow(to: NodeId) returns (ok: bool, ghost ran: nat)
      requires Valid()
      modifies this`mode, this`sent
      ensures Valid() && ran <= 4 && (ok ==> ran == 4)
      ensures mode == After(old(mode), [ChangeSource(to), StartReplica] + SetAccess(true), ran)
      ensures old(sent) <= sent
      ensures Carried(Since(old(sent), sent), [ChangeSource(to), StartReplica] + SetAccess(true), ok)
      ensures faultless ==> ok
    {
      ghost var m0, attach := mode, [ChangeSource(to), StartReplica];
      ok, ran := Attach(to);
      AfterFirst(m0, attach, SetAccess(true), ran);
      if !ok {
        CarriedFirst(Since(old(sent), sent), attach, SetAccess(true));
        return;
      }
      ghost var sent1 := sent;
      ok, ran := SetAccessFlags(true);
      AfterBoth(m0, attach, SetAccess(true), ran);
      ran := 2 + ran;
      CarriedBoth(Since(old(sent), sent1), attach, Since(sent1, sent), SetAccess(true), ok);
      SinceTwice(old(sent), sent1, sent);
    }

    method Attach(to: NodeId) returns (ok: bool, ghost ran: nat)
      requires Valid()
      modifies this`mode, this`sent
      ensures Valid() && ran <= 2 && (ok ==> ran == 2)
      ensures mode == After(old(mode), [ChangeSource(to), StartReplica], ran)
      ensures old(sent) <= sent && Carried(Since(old(sent), sent), [ChangeSource(to), StartReplica], ok)
      ensures faultless ==> ok
    {
      ghost var script := [ChangeSource(to), StartReplica];
      ghost var m0 := mode;
      var reply := Exec(ChangeSource(to));
      assert After(m0, script, 0) == m0;
      if !reply.Done? {
        ran := if mode == m0 then 0 else 1;
        return false, ran;
      }
      ghost var m1 := mode;
      assert m1 == After(m0, script, 1);
      reply := Exec(StartReplica);
      ran := if reply.Broken? && mode == m1 then 1 else 2;
      ok := reply.Done?;
    }

    /** Reads the server; any of the three queries may fail. `ping` and `scanned` say whether the first two were
        answered, `shown` what the third one showed. */
    method Status() returns (st: NodeStatus, ghost ping: bool, ghost scanned: bool, ghost shown: Option<ReplicaStatus>)
      requires Valid()
      ensures Describes(st, mode) && st.failureCount == 0 && (faultless ==> st == Plain(mode))
      ensures st.reachable == ping && (shown.Some? ==> mode.source.Some?)
      ensures !ping || !scanned ==>
                st.role.RoleUnknown? && !st.healthy && st.replica.None? && !st.readOnly && !st.superReadOnly
      ensures ping && scanned && mode.access.Open? ==> st.role.RolePrimary? && st.healthy
      ensures ping && scanned && !mode.access.Open? ==>
                && st.role.RoleReplica? && st.replica == shown
                && (st.healthy <==> shown.Some? && shown.value.ioRunning && shown.value.sqlRunning
                                    && shown.value.secondsBehind.Some?)
    {
      ping, scanned, shown := false, false, None;
      st := UNREACHABLE;
      var pinged: bool := *;
      if !pinged && !faultless {
        return;
      }
      ping := true;
      st := st.(reachable := true);
      var read: bool := *;
      if !read && !faultless {
        return;
      }
      scanned := true;
      st := st.(readOnly := !mode.access.Open?, superReadOnly := mode.access.SuperReadOnly?);
      if !st.readOnly && !st.superReadOnly {
        st := st.(role := RolePrimary, healthy := true);
        return;
      }
      st := st.(role := RoleReplica);
      var replica := ShowReplicaStatus();
      shown := replica;
      if replica.None? {
        return;
      }
      var r := replica.value;
      st := st.(replica := replica, healthy := r.ioRunning && r.sqlRunning && r.secondsBehind.Some?);
    }

    /** SHOW REPLICA STATUS: no row without a channel; threads and lag are whatever the server says. */
    method ShowReplicaStatus() returns (r: Option<ReplicaStatus>)
      ensures r.Some? ==> mode.source.Some?
      ensures faultless && mode.source.Some? ==> r == Some(ReplicaStatus(mode.started, mode.started, Some(0)))
    {
      var answered: bool := *;
      if mode.source.None? || (!answered && !faultless) {
        return None;
      }
      if faultless {
        return Some(ReplicaStatus(mode.started, mode.started, Some(0)));
      }
      var io: bool, sql: bool, lag: Option<int> := *, *, *;
      r := Some(ReplicaStatus(io, sql, lag));
    }

    method ExecutedGTID() returns (ok: bool, gtid: set<Txn>)
      ensures (ok ==> gtid == executed) && (faultless ==> ok)
    {
      ok := *;
      ok := ok || faultless;
      gtid := executed;
    }

    /** Waits while replication goes on; succeeds exactly if the set is not empty, all of it is executed here at the
        end, and the answer is `heard`. */
    method WaitForGTID(gtid: set<Txn>) returns (ok: bool, ghost heard: bool)
      modifies this`executed
      ensures old(executed) <= executed
      ensures (mode.source.None? || !mode.started) ==> executed == old(executed)
      ensures ok <==> gtid != {} && gtid <= executed && heard
      ensures faultless ==> heard && (gtid <= executed || mode.source.None? || !mode.started)
    {
      var answered: bool := *;
      answered := answered || faultless;
      heard := answered;
      if gtid == {} {
        return false, heard;
      }
      var replicated: set<Txn> := *;
      if mode.source.Some? && mode.started {
        executed := executed + if faultless then gtid else replicated;
      }
      ok := answered && gtid <= executed;
    }
  }
}
