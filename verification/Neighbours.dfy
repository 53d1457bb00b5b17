/** Everybody else who uses the store and the servers: other switches and toggles, the probe loop, clients and
    replication. Between two calls of the controller they make any moves the protocol allows. */
module Neighbours {
  import opened Model
  import opened MySql
  import opened MemoryStore
  import opened Fleet
  import opened Protocol
  import opened Bursts

  // --- One move, seen without the caller's own threads ---

  /** `s` is `t` without some of its threads, the lock holder's name and the history variables. */
  ghost predicate Sees(s: State, t: State) {
    && t == s.(threads := t.threads, holder := t.holder, acked := t.acked, base := t.base)
    && (s.holder.Some? <==> t.holder.Some?)
    && forall i <- s.threads :: i in t.threads && t.threads[i] == s.threads[i]
  }

  lemma SeenIsEnabled(s: State, t: State, e: Event)
    requires Sees(s, t) && Enabled(s, e)
             && (Mover(e).Some? ==> Mover(e).value in s.threads || Mover(e).value !in t.threads)
    ensures Enabled(t, e)
  {}

  /** The two states after a move agree on all that the mover and the others see. */
  ghost predicate Alike(s': State, t': State, e: Event) {
    && t' == s'.(threads := t'.threads, holder := t'.holder, acked := t'.acked, base := t'.base)
    && (s'.holder.Some? <==> t'.holder.Some?)
    && (Mover(e).Some? ==>
          Mover(e).value in s'.threads && Mover(e).value in t'.threads
          && t'.threads[Mover(e).value] == s'.threads[Mover(e).value])
  }

  lemma AdvanceAlike(s: State, t: State, id: OperationId)
    requires Sees(s, t) && id in s.threads && CanAdvance(s, id) && CanAdvance(t, id)
    ensures Alike(DoAdvance(s, id), DoAdvance(t, id), Advance(id))
  {}

  lemma ToggleAlike(s: State, t: State, id: OperationId)
    requires Sees(s, t) && id in s.threads && CanToggle(s, id) && CanToggle(t, id)
    ensures Alike(DoToggle(s, id), DoToggle(t, id), AdvanceToggle(id))
  {}

  lemma MoveAlike(s: State, t: State, e: Event)
    requires Sees(s, t) && Enabled(s, e) && Enabled(t, e)
    ensures Alike(Next(s, e), Next(t, e), e)
  {
    match e
    case Advance(id) => AdvanceAlike(s, t, id);
    case AdvanceToggle(id) => ToggleAlike(s, t, id);
    case _ =>
  }

  /** A move that the others see enabled is enabled, and they see its effect. */
  lemma SeenMove(s: State, t: State, e: Event)
    requires Sees(s, t) && Enabled(s, e)
             && (Mover(e).Some? ==> Mover(e).value in s.threads || Mover(e).value !in t.threads)
    ensures Enabled(t, e) && Sees(Next(s, e), Next(t, e))
    ensures Next(t, e).threads.Keys == t.threads.Keys + (if Mover(e).Some? then {Mover(e).value} else {})
    ensures forall i <- t.threads :: Some(i) != Mover(e) ==> Next(t, e).threads[i] == t.threads[i]
  {
    SeenIsEnabled(s, t, e);
    MoveAlike(s, t, e);
    MovesOne(s, e);
    MovesOne(t, e);
  }

  /** A move writes no other switch's task. */
  lemma TaskOfMover(s: State, e: Event, id: OperationId)
    requires Enabled(s, e) && Mover(e) != Some(id) && id in s.tasks
    ensures id in Next(s, e).tasks && Next(s, e).tasks[id] == s.tasks[id]
  {}

  predicate OfProbe(e: Event) {
    e.ProbeRead? || e.ProbePut? || e.ProbeMiss?
  }

  lemma ProbeStays(s: State, e: Event)
    requires Enabled(s, e) && !OfProbe(e)
    ensures Next(s, e).probe == s.probe
  {}

  predicate Channel(m: Mode) {
    m.source.None? ==> !m.started
  }

  lemma ChannelsStay(s: State, e: Event)
    requires Enabled(s, e) && forall n <- s.modes :: Channel(s.modes[n])
    ensures Next(s, e).modes.Keys == s.modes.Keys && forall n <- s.modes :: Channel(Next(s, e).modes[n])
  {
    MovesModes(s, e);
  }

  lemma MovesModes(s: State, e: Event)
    requires Enabled(s, e)
    ensures Next(s, e).modes == if e.Advance? then RunPending(s.modes, Pending(s.threads[e.id])) else s.modes
    ensures s.executed.Keys == s.modes.Keys ==> Next(s, e).executed.Keys == s.modes.Keys
  {}

  /** All that a move leaves to a caller `id` who is not its mover. */
  ghost predicate Spared(s: State, s': State, e: Event, id: OperationId) {
    && id !in s'.threads
    && (id in s.tasks ==> id in s'.tasks && s'.tasks[id] == s.tasks[id])
    && s'.executed.Keys == s'.modes.Keys == s.modes.Keys && (forall n <- s'.modes :: Channel(s'.modes[n]))
    && (!OfProbe(e) ==> s'.probe == s.probe)
  }

  lemma MoveSpares(s: State, e: Event, id: OperationId)
    requires Enabled(s, e) && Mover(e) != Some(id) && id !in s.threads
    requires s.executed.Keys == s.modes.Keys && forall n <- s.modes :: Channel(s.modes[n])
    ensures Spared(s, Next(s, e), e, id)
  {
    MovesOne(s, e);
    ChannelsStay(s, e);
    MovesModes(s, e);
    if id in s.tasks { TaskOfMover(s, e, id); }
    if !OfProbe(e) { ProbeStays(s, e); }
  }

  // --- Stored tasks ---

  function TaskStates(tasks: map<OperationId, SwitchTask>): map<OperationId, TaskState> {
    map id | id in tasks :: tasks[id].state
  }

  /** The tasks once their states are `states`; `th` is the switch whose task may be new. */
  function Restate(tasks: map<OperationId, SwitchTask>, states: map<OperationId, TaskState>,
                   threads: map<OperationId, Thread>): (r: map<OperationId, SwitchTask>)
    ensures TaskStates(r) == states
    ensures forall id | id in tasks && id in states && tasks[id].state == states[id] :: r[id] == tasks[id]
  {
    map id | id in states ::
      if id in tasks then tasks[id].(state := states[id])
      else if id in threads && threads[id].Switcher? then
        SwitchTask(id, threads[id].snap.primary, threads[id].target, false, threads[id].dryRun, states[id])
      else SwitchTask(id, NOBODY, NOBODY, false, false, states[id])
  }

  // --- Everything there is ---

  /** The store, the servers, the others and the probe loop at one moment. */
  datatype Setting = Setting(
    record: ClusterState,
    locked: bool,
    operation: Option<SwitchAuthorization>,
    tasks: map<OperationId, SwitchTask>,
    modes: map<NodeId, Mode>,
    executed: map<NodeId, set<Txn>>,
    threads: map<OperationId, Thread>,
    used: set<OperationId>,
    probe: Probe)

  /** The setting is that of the protocol state `s`. */
  ghost predicate Matches(c: Setting, s: State) {
    && s.record == c.record && s.operation == c.operation && (s.holder.Some? <==> c.locked)
    && s.tasks == TaskStates(c.tasks) && s.modes == c.modes && s.executed == c.executed
    && s.probe == c.probe && s.threads.Keys == c.used
    && forall i <- c.threads :: i in s.threads && s.threads[i] == c.threads[i]
  }

  /** What the moves of the others leave to the caller `id`. */
  ghost predicate Spares(c: Setting, c': Setting, id: OperationId, probing: bool, before: State, after: State) {
    && id !in c'.threads
    && (id in before.threads <==> id in after.threads)
    && (id in before.threads ==> after.threads[id] == before.threads[id])
    && (id in c.tasks ==> id in c'.tasks && c'.tasks[id] == c.tasks[id])
    && (probing ==> c'.probe == c.probe)
  }

  // --- The others ---

  /** The move `e` from `s`, which the others see of the end of the log. */
  method Foresee(s: State, e: Event, id: OperationId, ghost log0: Log) returns (s': State, ghost log: Log)
    requires Sound(log0) && Sees(s, Now(log0)) && Enabled(s, e) && !e.Lapse? && Mover(e) != Some(id) && id !in s.threads
    requires Mover(e).Some? ==> Mover(e).value in s.threads || Mover(e).value !in Now(log0).threads
    requires s.executed.Keys == s.modes.Keys && forall n <- s.modes :: Channel(s.modes[n])
    ensures SameStart(log, log0) && Sees(s', Now(log))
    ensures Now(log).threads.Keys == Now(log0).threads.Keys + s'.threads.Keys
    ensures Spared(s, s', e, id) && (id in Now(log0).threads ==> Now(log).threads[id] == Now(log0).threads[id])
  {
    ghost var t := Now(log0);
    SeenMove(s, t, e);
    MoveSpares(s, e, id);
    log := Append(log0, e);
    s' := Next(s, e);
  }

  class Neighbours {
    const alone: bool                            // there are no others
    const store: MemoryStore
    const fleet: Fleet
    var threads: map<OperationId, Thread>        // their switches and toggles
    var used: set<OperationId>                   // operation ids that are taken, by anybody
    var probe: Probe                             // where the probe loop stands

    constructor (alone: bool, fleet: Fleet)
      ensures this.alone == alone && this.fleet == fleet && this.store == fleet.store
      ensures threads == map[] && used == {} && probe == Idle
    {
      this.alone, this.fleet, this.store := alone, fleet, fleet.store;
      threads, used, probe := map[], {}, Idle;
    }

    ghost predicate Valid()
      reads fleet
    {
      fleet.store == store && fleet.Valid()
    }

    ghost function Current(): Setting
      reads this, store, fleet
    {
      Setting(store.cluster, store.locked, store.operation, store.tasks, fleet.modes, fleet.executed,
              threads, used, probe)
    }

    /** What they see. */
    function View(): State
      reads this, store, fleet
    {
      State(store.cluster, if store.locked then Some("") else None, store.operation, TaskStates(store.tasks),
            fleet.modes, fleet.executed, threads, probe, {}, map[])
    }

    /** They may make this move: it is not the caller's, nor the probe loop's if that is the caller, and no lease
        lapses. */
    predicate MayMove(e: Event, id: OperationId, probing: bool)
      reads this
    {
      && !alone && !e.Lapse? && !(probing && OfProbe(e))
      && (Mover(e).Some? ==> Mover(e).value != id && (Mover(e).value in threads || Mover(e).value !in used))
    }

    /** Writes the outcome of a move back. */
    method Install(s: State)
      modifies this, store, fleet
      ensures store.cluster == s.record && store.operation == s.operation && (store.locked <==> s.holder.Some?)
      ensures store.tasks == Restate(old(store.tasks), s.tasks, s.threads)
      ensures fleet.modes == s.modes && fleet.executed == s.executed
      ensures threads == s.threads && used == old(used) + s.threads.Keys && probe == s.probe
    {
      store.cluster, store.operation, store.locked := s.record, s.operation, s.holder.Some?;
      store.tasks := Restate(store.tasks, s.tasks, s.threads);
      fleet.modes, fleet.executed := s.modes, s.executed;
      threads, used, probe := s.threads, used + s.threads.Keys, s.probe;
    }

    method Move(e: Event, id: OperationId, probing: bool, ghost log0: Log) returns (ghost log: Log)
      requires Valid() && Sound(log0) && Matches(Current(), Now(log0)) && id !in threads
      modifies this, store, fleet
      ensures Valid() && SameStart(log, log0) && Matches(Current(), Now(log))
      ensures Spares(old(Current()), Current(), id, probing, Now(log0), Now(log))
      ensures alone ==> unchanged(this) && unchanged(store) && unchanged(fleet) && log == log0
    {
      log := log0;
      if MayMove(e, id, probing) && Enabled(View(), e) {
        var s;
        s, log := Foresee(View(), e, id, log0);
        Install(s);
      }
    }

    /** Any number of moves, between two calls of the switch `id`. */
    method Pause(id: OperationId, probing: bool, ghost log0: Log) returns (ghost log: Log)
      requires Valid() && Sound(log0) && Matches(Current(), Now(log0)) && id !in threads
      modifies this, store, fleet
      ensures Valid() && SameStart(log, log0) && Matches(Current(), Now(log))
      ensures Spares(old(Current()), Current(), id, probing, Now(log0), Now(log))
      ensures alone ==> unchanged(this) && unchanged(store) && unchanged(fleet) && log == log0
    {
      log := log0;
      var moves :| 0 <= moves;
      for i := 0 to moves
        invariant Valid() && SameStart(log, log0) && Matches(Current(), Now(log))
        invariant Spares(old(Current()), Current(), id, probing, Now(log0), Now(log))
        invariant alone ==> unchanged(this) && unchanged(store) && unchanged(fleet) && log == log0
      {
        var e: Event := *;
        log := Move(e, id, probing, log);
      }
    }
  }
}
