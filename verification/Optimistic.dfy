/** The protocol on the Etcd store (internal/store/store.go:192-223): where `Protocol` compares the epoch and writes the
    record in one step, a switch or a toggle here reads the key, checks the epoch it read, and later commits a
    transaction on the revision it read, while everybody else goes on. Every run of it is a run of `Protocol`. */
module Optimistic {
  import opened Model
  import opened Protocol
  import opened Invariant
  import opened Durability
  import opened Epochs
  import Etcd

  // --- A thread's write ---

  /** The thread's next call is PutClusterIfEpoch. */
  predicate AtWrite(th: Thread) {
    match th
    case Switcher(_, _, _, pc) => pc.Promoted?
    case Toggler(_, phase) => phase.Read?
  }

  function Snap(th: Thread): ClusterState
    requires AtWrite(th)
  {
    if th.Switcher? then th.snap else th.phase.snap
  }

  /** The record that the call is given. */
  function Intended(th: Thread): ClusterState
    requires AtWrite(th)
  {
    if th.Switcher? then th.snap.(primary := th.target, epoch := th.snap.epoch + 1)
    else th.phase.snap.(autoFailover := th.enabled)
  }

  /** Where the thread goes on after success. */
  function Done(th: Thread): Thread {
    if th.Switcher? then th.(pc := Linking({})) else th.(phase := Written)
  }

  /** Where it goes on after an error. */
  function GivenUp(th: Thread): Thread {
    if th.Switcher? then th.(pc := Finished(Outcome(Failed, th.pc))) else th.(phase := Written)
  }

  // --- The system ---

  /** `core` holds everything but the key; `pending` the calls between their read and their transaction. */
  datatype Shared = Shared(core: State, key: Etcd.Key, pending: map<OperationId, Etcd.Pending>)

  datatype Move =
    | Plain(event: Event)             // anything but a conditional write
    | Look(id: OperationId)           // the call's read finds the expected epoch
    | Transact(id: OperationId)       // the transaction reaches the store
    | Drop(id: OperationId)           // the transaction never gets there

  ghost predicate Can(s: Shared, m: Move) {
    match m
    case Plain(e) =>
      && Enabled(s.core, e)
      && (Mover(e).Some? ==> Mover(e).value !in s.pending)
      && (e.Advance? || e.AdvanceToggle? ==> !AtWrite(s.core.threads[e.id]))
    case Look(id) =>
      && id in s.core.threads && AtWrite(s.core.threads[id]) && id !in s.pending
      && Etcd.Record(s.key).epoch == Snap(s.core.threads[id]).epoch
    case Transact(id) => id in s.pending && id in s.core.threads
    case Drop(id) => id in s.pending && id in s.core.threads
  }

  ghost function Step(s: Shared, m: Move): Shared
    requires Can(s, m)
  {
    match m
    case Plain(e) =>
      s.(core := Next(s.core, e), key := if e.ProbePut? then Etcd.Put(s.key, s.core.probe.pending) else s.key)
    case Look(id) =>
      var th := s.core.threads[id];
      s.(pending := s.pending[id := Etcd.Pending(Snap(th).epoch, Intended(th), Etcd.CompareOf(s.key))])
    case Transact(id) =>
      var th, call := s.core.threads[id], s.pending[id];
      if Etcd.Holds(s.key, call.compare)
      then Shared(s.core.(record := call.next, threads := s.core.threads[id := Done(th)]),
                  Etcd.Put(s.key, call.next), s.pending - {id})
      else s.(core := s.core.(threads := s.core.threads[id := GivenUp(th)]), pending := s.pending - {id})
    case Drop(id) =>
      s.(core := s.core.(threads := s.core.threads[id := GivenUp(s.core.threads[id])]), pending := s.pending - {id})
  }

  /** A call in flight is what its thread asked for, and its comparison can only hold for the epoch it read. */
  ghost predicate InFlight(s: Shared, id: OperationId)
    requires id in s.pending
  {
    && id in s.core.threads && AtWrite(s.core.threads[id])
    && var th, call := s.core.threads[id], s.pending[id];
       call.expected == Snap(th).epoch && call.next == Intended(th) && Etcd.Fresh(s.key, call)
  }

  /** The key holds the record. */
  ghost predicate Tied(s: Shared) {
    && Etcd.Sane(s.key) && Etcd.Record(s.key) == s.core.record
    && forall id <- s.pending :: InFlight(s, id)
  }

  // --- One move ---

  /** The moves of `Protocol` that a move amounts to. */
  ghost function Amounts(s: Shared, m: Move): seq<Event>
    requires Can(s, m)
  {
    match m
    case Plain(e) => [e]
    case Look(_) => []
    case Transact(id) =>
      var switch := s.core.threads[id].Switcher?;
      if Etcd.Holds(s.key, s.pending[id].compare) then [if switch then Advance(id) else AdvanceToggle(id)]
      else [if switch then Fail(id) else FailToggle(id)]
    case Drop(id) => [if s.core.threads[id].Switcher? then Fail(id) else FailToggle(id)]
  }

  /** It is that one move, or nothing. */
  ghost predicate Simulates(s: Shared, m: Move)
    requires Can(s, m)
  {
    var core', es := Step(s, m).core, Amounts(s, m);
    if es == [] then core' == s.core else |es| == 1 && Enabled(s.core, es[0]) && core' == Next(s.core, es[0])
  }

  lemma TransactSimulates(s: Shared, m: Move)
    requires Tied(s) && Can(s, m) && (m.Transact? || m.Drop?)
    ensures Simulates(s, m)
  {
    assert InFlight(s, m.id);
  }

  lemma MoveSimulates(s: Shared, m: Move)
    requires Tied(s) && Can(s, m)
    ensures Simulates(s, m)
  {
    if m.Transact? || m.Drop? { TransactSimulates(s, m); }
  }

  /** Only the probe's put writes the record without a comparison. */
  lemma PlainRecord(core: State, e: Event)
    requires Enabled(core, e) && (e.Advance? || e.AdvanceToggle? ==> !AtWrite(core.threads[e.id]))
    ensures Next(core, e).record == if e.ProbePut? then core.probe.pending else core.record
  {}

  lemma PlainStaysTied(s: Shared, m: Move)
    requires Tied(s) && Can(s, m) && m.Plain?
    ensures Tied(Step(s, m))
  {
    PlainRecord(s.core, m.event);
    MovesOne(s.core, m.event);
    forall id <- s.pending ensures InFlight(Step(s, m), id) {
      assert InFlight(s, id);
    }
  }

  lemma StaysTied(s: Shared, m: Move)
    requires Tied(s) && Can(s, m)
    ensures Tied(Step(s, m))
  {
    if m.Plain? {
      PlainStaysTied(s, m);
    } else {
      forall id <- Step(s, m).pending ensures InFlight(Step(s, m), id) {
        assert id in s.pending ==> InFlight(s, id);
      }
    }
  }

  // --- Every run ---

  ghost predicate RunOf(s: Shared, ms: seq<Move>)
    decreases |ms|, 0
  {
    ms == [] || (RunOf(s, Front(ms)) && Can(ReachOf(s, Front(ms)), Last(ms)))
  }

  ghost function ReachOf(s: Shared, ms: seq<Move>): Shared
    requires RunOf(s, ms)
    decreases |ms|, 1
  {
    if ms == [] then s else Step(ReachOf(s, Front(ms)), Last(ms))
  }

  lemma {:induction false} PrefixOf(s: Shared, ms: seq<Move>, i: nat)
    requires RunOf(s, ms) && i <= |ms|
    ensures RunOf(s, ms[..i])
    decreases |ms|
  {
    if i == |ms| {
      assert ms[..i] == ms;
    } else {
      PrefixOf(s, Front(ms), i);
      assert Front(ms)[..i] == ms[..i];
    }
  }

  /** The run of `Protocol` that a run amounts to. */
  ghost function Abstraction(s: Shared, ms: seq<Move>): seq<Event>
    requires RunOf(s, ms)
    decreases |ms|
  {
    if ms == [] then [] else Abstraction(s, Front(ms)) + Amounts(ReachOf(s, Front(ms)), Last(ms))
  }

  lemma {:induction false} AbstractionIsExclusive(s: Shared, ms: seq<Move>)
    requires RunOf(s, ms) && Plain(Lapse) !in ms
    ensures Exclusive(Abstraction(s, ms))
    decreases |ms|
  {
    if ms != [] {
      assert Last(ms) in ms;
      AbstractionIsExclusive(s, Front(ms));
    }
  }

  /** Everything that holds of all runs of `Protocol` holds of the protocol on Etcd: its core moves through the states
      of such a run. */
  lemma {:induction false} OptimisticRunRefines(s: Shared, ms: seq<Move>)
    requires Tied(s) && RunOf(s, ms)
    ensures Tied(ReachOf(s, ms))
    ensures var es := Abstraction(s, ms); Run(s.core, es) && Reach(s.core, es) == ReachOf(s, ms).core
    decreases |ms|
  {
    if ms != [] {
      OptimisticRunRefines(s, Front(ms));
      var g, m := ReachOf(s, Front(ms)), Last(ms);
      StaysTied(g, m);
      MoveSimulates(g, m);
      var before, es := Abstraction(s, Front(ms)), Amounts(g, m);
      if es == [] {
        assert before + es == before;
      } else {
        Extend(s.core, before, es[0]);
        assert es == [es[0]];
      }
    }
  }

  /** How many switches have committed their record. */
  ghost function CommitCount(s: Shared, ms: seq<Move>): nat
    requires RunOf(s, ms)
    decreases |ms|
  {
    if ms == [] then 0
    else
      var g, m := ReachOf(s, Front(ms)), Last(ms);
      CommitCount(s, Front(ms)) +
      if m.Transact? && g.core.threads[m.id].Switcher? && Etcd.Holds(g.key, g.pending[m.id].compare) then 1 else 0
  }

  lemma {:induction false} CommitsAreRecords(s: Shared, ms: seq<Move>)
    requires Tied(s) && RunOf(s, ms)
    ensures Run(s.core, Abstraction(s, ms)) && RecordCount(s.core, Abstraction(s, ms)) == CommitCount(s, ms)
    decreases |ms|
  {
    OptimisticRunRefines(s, ms);
    if ms != [] {
      CommitsAreRecords(s, Front(ms));
      OptimisticRunRefines(s, Front(ms));
      var g, m := ReachOf(s, Front(ms)), Last(ms);
      MoveSimulates(g, m);
      var before, es := Abstraction(s, Front(ms)), Amounts(g, m);
      if es == [] {
        assert before + es == before;
      } else {
        assert Front(before + es) == before && Last(before + es) == es[0];
        assert m.Transact? ==> InFlight(g, m.id);
      }
    }
  }

  lemma {:induction false} PrefixAbstraction(s: Shared, ms: seq<Move>, i: nat)
    requires RunOf(s, ms) && i <= |ms|
    ensures RunOf(s, ms[..i]) && Abstraction(s, ms[..i]) <= Abstraction(s, ms)
    decreases |ms|
  {
    PrefixOf(s, ms, i);
    if i == |ms| {
      assert ms[..i] == ms;
    } else {
      PrefixAbstraction(s, Front(ms), i);
      assert Front(ms)[..i] == ms[..i];
    }
  }

  /** The epoch history on Etcd: after bootstrap, with reads, transactions and lapses interleaved at will, the epoch
      never falls, each committed switch raises it by one and nothing else does, and each epoch has one primary. */
  lemma EtcdEpochHistory(s: Shared, ms: seq<Move>, i: nat)
    requires Tied(s) && Recorded(s.core) && Agreeing(s.core) && RunOf(s, ms) && i <= |ms|
    ensures RunOf(s, ms[..i])
    ensures var before, now := Etcd.Record(ReachOf(s, ms[..i]).key), Etcd.Record(ReachOf(s, ms).key);
            && before.epoch <= now.epoch
            && (before.epoch == now.epoch ==> before.primary == now.primary)
            && now.epoch == before.epoch + (CommitCount(s, ms) - CommitCount(s, ms[..i]))
  {
    PrefixAbstraction(s, ms, i);
    OptimisticRunRefines(s, ms);
    OptimisticRunRefines(s, ms[..i]);
    CommitsAreRecords(s, ms);
    CommitsAreRecords(s, ms[..i]);
    var es, n := Abstraction(s, ms), |Abstraction(s, ms[..i])|;
    assert es[..n] == Abstraction(s, ms[..i]);
    EpochHistoryIsAFunction(s.core, es, n);
  }

  /** Every acknowledged write survives, at every moment of the run. */
  ghost predicate AlwaysSafeOf(s: Shared, ms: seq<Move>)
    requires RunOf(s, ms)
    decreases |ms|
  {
    Safe(ReachOf(s, ms).core) && (ms == [] || AlwaysSafeOf(s, Front(ms)))
  }

  lemma {:induction false} AlwaysSafeAlike(s: Shared, ms: seq<Move>)
    requires Tied(s) && RunOf(s, ms)
    ensures Run(s.core, Abstraction(s, ms)) && (AlwaysSafeOf(s, ms) <==> AlwaysSafe(s.core, Abstraction(s, ms)))
    decreases |ms|
  {
    OptimisticRunRefines(s, ms);
    if ms != [] {
      AlwaysSafeAlike(s, Front(ms));
      OptimisticRunRefines(s, Front(ms));
      var g, m := ReachOf(s, Front(ms)), Last(ms);
      MoveSimulates(g, m);
      var before, es := Abstraction(s, Front(ms)), Amounts(g, m);
      if es == [] {
        assert before + es == before;
      } else {
        assert Front(before + es) == before;
      }
    }
  }

  /** So does durability, with the lock kept and from the empty key on: acknowledged writes survive at every moment
      exactly when no toggle's transaction erases the primary under one. */
  lemma EtcdSafeExactlyWithoutErasure(s: Shared, ms: seq<Move>)
    requires Tied(s) && Initial(s.core) && s.core.acked == {} && RunOf(s, ms) && Plain(Lapse) !in ms
    ensures Run(s.core, Abstraction(s, ms))
    ensures AlwaysSafeOf(s, ms) <==> NeverLoses(s.core, Abstraction(s, ms))
  {
    AlwaysSafeAlike(s, ms);
    AbstractionIsExclusive(s, ms);
    SafeExactlyWithoutErasure(s.core, Abstraction(s, ms));
  }

  /** From a settled state on, no acknowledged write is ever missing from the primary in the key. */
  lemma EtcdLosesNoWrite(s: Shared, ms: seq<Move>)
    requires Tied(s) && Inv(s.core) && Durable(s.core) && Settled(s.core) && RunOf(s, ms) && Plain(Lapse) !in ms
    ensures var f := ReachOf(s, ms); Safe(f.core) && Etcd.Record(f.key) == f.core.record
  {
    OptimisticRunRefines(s, ms);
    AbstractionIsExclusive(s, ms);
    var es := Abstraction(s, ms);
    SettledRun(s.core, es);
    RunDurable(s.core, es);
    DurableIsSafe(Reach(s.core, es));
  }
}
