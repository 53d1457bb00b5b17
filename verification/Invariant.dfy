/** What every event keeps while the lock is exclusive. The heart is `Expected`: the modes of all
    servers are, at every point of a switch, one fixed function of the modes at lock time. */
module Invariant {
  import opened Model
  import opened MySql
  import opened Protocol

  // --- The servers' modes as a function of where the switch stands ---

  function DemotedModes(base: map<NodeId, Mode>, from: NodeId, ran: nat): map<NodeId, Mode>
    requires from in base && ran <= |DEMOTE|
  {
    base[from := After(base[from], DEMOTE, ran)]
  }

  function PromotedModes(base: map<NodeId, Mode>, from: NodeId, target: NodeId, ran: nat): map<NodeId, Mode>
    requires from in base && target in base && ran <= |PROMOTE|
  {
    DemotedModes(base, from, |DEMOTE|)[target := After(base[target], PROMOTE, ran)]
  }

  function LinkedModes(base: map<NodeId, Mode>, from: NodeId, target: NodeId, done: set<NodeId>): map<NodeId, Mode>
    requires from in base && target in base
  {
    var promoted := PromotedModes(base, from, target, |PROMOTE|);
    map n | n in promoted :: if n in done then Linked(target) else promoted[n]
  }

  /** The shape of a working point: counters in range, loop sets within the configuration. */
  predicate PcShape(keys: set<NodeId>, from: NodeId, target: NodeId, pc: Pc) {
    match pc
    case Demoting(k) => from in keys && k <= |DEMOTE|
    case Confirmed => from in keys
    case Measured(_) => from in keys
    case CaughtUp(_) => from in keys
    case Promoting(k) => from in keys && k <= |PROMOTE|
    case Promoted => from in keys
    case Linking(done) => from in keys && done <= keys && target !in done
    case Relinking(done, n, k) =>
      from in keys && done <= keys && target !in done && n in keys && n != target && n !in done && k <= 6
    case Finished(_) => false
    case Stored(_) => false
    case Cleared(_) => false
    case Released(_) => false
    case _ => true
  }

  function Expected(base: map<NodeId, Mode>, from: NodeId, target: NodeId, pc: Pc): map<NodeId, Mode>
    requires target in base && PcShape(base.Keys, from, target, pc)
  {
    match pc
    case Demoting(k) => DemotedModes(base, from, k)
    case Confirmed => DemotedModes(base, from, |DEMOTE|)
    case Measured(_) => DemotedModes(base, from, |DEMOTE|)
    case CaughtUp(_) => DemotedModes(base, from, |DEMOTE|)
    case Promoting(k) => PromotedModes(base, from, target, k)
    case Promoted => PromotedModes(base, from, target, |PROMOTE|)
    case Linking(done) => LinkedModes(base, from, target, done)
    case Relinking(done, n, k) =>
      var promoted := PromotedModes(base, from, target, |PROMOTE|);
      LinkedModes(base, from, target, done)[n := After(promoted[n], Link(target), k)]
    case _ => base
  }

  // --- Regions ---

  /** The re-read under the lock has agreed with the snapshot. */
  predicate PastReread(pc: Pc) {
    !pc.Ready? && !pc.Locked? && !pc.Authorized?
  }

  /** So has the look at the candidate. */
  predicate PastCheck(pc: Pc) {
    PastReread(pc) && !pc.Agreed?
  }

  /** The new primary is in the record. */
  predicate PastRecord(pc: Pc) {
    pc.Linking? || pc.Relinking?
  }

  /** The task is in the store as running. */
  predicate TaskOpen(pc: Pc) {
    PastCheck(pc) && !pc.Checked? && !pc.Stored? && !pc.Cleared? && !pc.Released?
  }

  // --- The invariant ---

  /** What the switch that holds the lock relies on. */
  ghost predicate SwitchInv(s: State, th: Thread)
    requires th.Switcher?
  {
    var from, target, at := th.snap.primary, th.target, At(th.pc);
    && s.base.Keys == s.modes.Keys
    && target in s.modes
    && PcShape(s.modes.Keys, from, target, at)
    && s.modes == Expected(s.base, from, target, at)
    && (PastReread(at) ==> from != NOBODY && target != from)
    && (PastCheck(at) ==> ReportsReplica(s.base[target]))
    && (PastReread(at) && !PastRecord(at) ==> s.record.primary == from && s.record.epoch == th.snap.epoch)
    && (PastRecord(at) ==> s.record.primary == target && s.record.epoch == th.snap.epoch + 1)
  }

  /** An exit remembers a working point that fits its verdict. */
  predicate OutcomeShape(keys: set<NodeId>, th: Thread)
    requires th.Switcher?
  {
    Exiting(th.pc) ==>
      var o := th.pc.outcome;
      && !Exiting(o.at)
      && (th.pc.Finished? ==> !o.verdict.Aborted?)
      && (th.pc.Stored? ==> !o.at.Ready? && !o.at.Locked?)
      && (o.verdict.Aborted? <==> o.at.Ready? || o.at.Locked? || o.at.Authorized? || o.at.Agreed? || o.at.Checked?)
      && (o.verdict.DryRan? ==> o.at.Started?)
      && (o.verdict.Succeeded? ==> o.at.Linking? && keys <= o.at.done + {th.target})
  }

  function ActiveOperation(s: State): Option<SwitchAuthorization> {
    if s.holder.Some? && s.holder.value in s.threads && HoldsOperation(s.threads[s.holder.value])
    then Some(AuthOf(s.holder.value, s.threads[s.holder.value]))
    else None
  }

  /** The lock has the one holder that thinks it holds it, and the operation slot is the holder's. */
  ghost predicate LockInv(s: State) {
    && (forall id <- s.threads :: HoldsLock(s.threads[id]) <==> s.holder == Some(id))
    && (s.holder.Some? ==> s.holder.value in s.threads)
    && s.operation == ActiveOperation(s)
  }

  /** The task of one thread is stored as running while the switch works, in its final state once the
      switch leaves, and not at all if the switch never got that far. */
  predicate TaskOf(tasks: map<OperationId, TaskState>, keys: set<NodeId>, id: OperationId, th: Thread) {
    match th
    case Toggler(_, _) => id !in tasks
    case Switcher(_, _, _, pc) =>
      && OutcomeShape(keys, th)
      && if TaskOpen(pc) then id in tasks && tasks[id] == TaskRunning
         else if Exiting(pc) && !pc.outcome.verdict.Aborted? then id in tasks && tasks[id] == Final(pc.outcome.verdict)
         else id !in tasks
  }

  ghost predicate TaskInv(s: State) {
    && s.tasks.Keys <= s.threads.Keys
    && forall id <- s.threads :: TaskOf(s.tasks, s.modes.Keys, id, s.threads[id])
  }

  /** Bootstrap: an epoch above zero has a primary, a pending put still meets the empty record it read,
      and a toggle's snapshot is outdated only by a bootstrap. */
  ghost predicate BootInv(s: State) {
    && (s.record.epoch > 0 ==> s.record.primary != NOBODY)
    && (s.probe.Booting? ==> s.record.primary == NOBODY && s.record.epoch == s.probe.pending.epoch == 0)
    && (s.holder.Some? && s.holder.value in s.threads ==>
          var th := s.threads[s.holder.value];
          th.Toggler? && th.phase.Read? ==>
            && th.phase.snap.epoch == s.record.epoch
            && (th.phase.snap.epoch > 0 ==> th.phase.snap.primary != NOBODY)
            && (th.phase.snap.primary != NOBODY ==> th.phase.snap.primary == s.record.primary))
  }

  ghost predicate Inv(s: State) {
    && s.executed.Keys == s.modes.Keys && NOBODY !in s.modes
    && (forall id <- s.threads :: s.threads[id].Switcher? ==> s.threads[id].target in s.modes)
    && LockInv(s) && TaskInv(s) && BootInv(s)
    && (s.holder.Some? && s.threads[s.holder.value].Switcher? ==> SwitchInv(s, s.threads[s.holder.value]))
  }

  // --- Every event keeps it ---

  lemma InitialInv(s: State)
    requires Initial(s)
    ensures Inv(s)
  {}

  /** All that one thread's move does to the lock and to the operation slot. */
  ghost predicate LockMove(s: State, s': State, id: OperationId) {
    && id in s'.threads
    && s'.threads == s.threads[id := s'.threads[id]]
    && var th' := s'.threads[id];
       var before, after := id in s.threads && HoldsLock(s.threads[id]), HoldsLock(th');
       && (before && after ==> s'.holder == s.holder)
       && (before && !after ==> s'.holder == None && s'.operation == None)
       && (!before && after ==> s.holder.None? && s'.holder == Some(id))
       && (!before && !after ==> s'.holder == s.holder && s'.operation == s.operation)
       && (after ==> s'.operation == if HoldsOperation(th') then Some(AuthOf(id, th')) else None)
  }

  lemma LockMoveKeeps(s: State, s': State, id: OperationId)
    requires LockInv(s) && LockMove(s, s', id)
    ensures LockInv(s')
  {}

  lemma AdvanceKeepsLock(s: State, id: OperationId)
    requires LockInv(s) && CanAdvance(s, id)
    ensures LockInv(DoAdvance(s, id))
  {
    assert HoldsLock(s.threads[id]) <==> s.holder == Some(id);
    LockMoveKeeps(s, DoAdvance(s, id), id);
  }

  lemma TurnKeepsLock(s: State, id: OperationId, pc': Pc)
    requires LockInv(s) && id in s.threads && s.threads[id].Switcher?
    requires var th := s.threads[id];
             && HoldsLock(th.(pc := pc')) == HoldsLock(th)
             && HoldsOperation(th.(pc := pc')) == HoldsOperation(th)
    ensures LockInv(SetPc(s, id, pc'))
  {}

  lemma ToggleKeepsLock(s: State, id: OperationId)
    requires LockInv(s) && CanToggle(s, id)
    ensures LockInv(DoToggle(s, id))
  {
    assert HoldsLock(s.threads[id]) <==> s.holder == Some(id);
    LockMoveKeeps(s, DoToggle(s, id), id);
  }

  /** A move touches no other thread's task. */
  ghost predicate TaskMove(s: State, s': State, id: OperationId) {
    && id in s'.threads
    && s'.modes.Keys == s.modes.Keys && s'.threads == s.threads[id := s'.threads[id]]
    && (s'.tasks == s.tasks || (id in s'.tasks && s'.tasks == s.tasks[id := s'.tasks[id]]))
  }

  lemma TaskMoveKeeps(s: State, s': State, id: OperationId)
    requires TaskInv(s) && TaskMove(s, s', id) && TaskOf(s'.tasks, s'.modes.Keys, id, s'.threads[id])
    ensures TaskInv(s')
  {}

  lemma AdvancedTask(s: State, id: OperationId)
    requires CanAdvance(s, id) && TaskOf(s.tasks, s.modes.Keys, id, s.threads[id])
    ensures var s' := DoAdvance(s, id); TaskOf(s'.tasks, s'.modes.Keys, id, s'.threads[id])
  {}

  lemma AdvanceKeepsTask(s: State, id: OperationId)
    requires TaskInv(s) && CanAdvance(s, id)
    ensures TaskInv(DoAdvance(s, id))
  {
    AdvancedTask(s, id);
    TaskMoveKeeps(s, DoAdvance(s, id), id);
  }

  lemma TurnKeepsTask(s: State, id: OperationId, pc': Pc)
    requires TaskInv(s) && id in s.threads && s.threads[id].Switcher?
    requires TaskOf(s.tasks, s.modes.Keys, id, s.threads[id]) ==>
               TaskOf(s.tasks, s.modes.Keys, id, s.threads[id].(pc := pc'))
    ensures TaskInv(SetPc(s, id, pc'))
  {}

  lemma ToggleKeepsTask(s: State, id: OperationId)
    requires TaskInv(s) && CanToggle(s, id)
    ensures TaskInv(DoToggle(s, id))
  {}

  /** What a successful call at a working point does to the modes, seen through `Expected`. */
  ghost predicate StepsTo(s: State, th: Thread, pc': Pc)
    requires th.Switcher? && th.target in s.base
  {
    && PcShape(s.modes.Keys, th.snap.primary, th.target, pc') && s.base.Keys == s.modes.Keys
    && RunPending(s.modes, Pending(th)) == Expected(s.base, th.snap.primary, th.target, pc')
  }

  lemma StepRelink(s: State, th: Thread)
    requires th.Switcher? && SwitchInv(s, th) && th.pc.Relinking?
    ensures StepsTo(s, th, NextPc(s, th))
  {
    var from, target, done, n := th.snap.primary, th.target, th.pc.done, th.pc.node;
    if th.pc.ran == 6 {
      LinkProgress(PromotedModes(s.base, from, target, |PROMOTE|)[n], target, 6);
      assert s.modes == LinkedModes(s.base, from, target, done + {n});
    }
  }

  lemma StepModes(s: State, th: Thread)
    requires th.Switcher? && SwitchInv(s, th) && !Exiting(th.pc) && !th.pc.Relinking?
    requires th.pc.Confirmed? ==> th.snap.primary in s.executed
    requires th.pc.Started? && !th.dryRun ==> th.snap.primary in s.modes
    ensures StepsTo(s, th, At(NextPc(s, th)))
  {}

  /** The switch that moves stays in step with the servers and the record. */
  lemma AdvanceKeepsModes(s: State, id: OperationId)
    requires CanAdvance(s, id) && HoldsLock(s.threads[id])
    requires SwitchInv(s, s.threads[id]) && OutcomeShape(s.modes.Keys, s.threads[id])
    ensures var s' := DoAdvance(s, id); SwitchInv(s', s'.threads[id])
  {
    var th := s.threads[id];
    assert DoAdvance(s, id).threads[id] == th.(pc := NextPc(s, th));
    if th.pc.Relinking? { StepRelink(s, th); } else if !Exiting(th.pc) { StepModes(s, th); }
  }

  lemma AdvanceKeeps(s: State, id: OperationId)
    requires Inv(s) && CanAdvance(s, id)
    ensures Inv(DoAdvance(s, id))
  {
    var s', th := DoAdvance(s, id), s.threads[id];
    assert TaskOf(s.tasks, s.modes.Keys, id, th);
    AdvanceKeepsLock(s, id);
    AdvanceKeepsTask(s, id);
    assert HoldsLock(th) <==> s.holder == Some(id);
    if HoldsLock(th) { AdvanceKeepsModes(s, id); }
  }

  lemma PickKeeps(s: State, id: OperationId, n: NodeId)
    requires Inv(s) && CanPick(s, id, n)
    ensures Inv(DoPick(s, id, n))
  {
    var th := s.threads[id];
    var pc' := Relinking(th.pc.done, n, 0);
    TurnKeepsLock(s, id, pc');
    TurnKeepsTask(s, id, pc');
    assert HoldsLock(th) <==> s.holder == Some(id);
    assert s.modes == Expected(s.base, th.snap.primary, th.target, pc');
  }

  lemma FailKeeps(s: State, id: OperationId)
    requires Inv(s) && CanFail(s, id)
    ensures Inv(DoFail(s, id))
  {
    var s', th := DoFail(s, id), s.threads[id];
    assert HoldsLock(th) <==> s.holder == Some(id);
    LockMoveKeeps(s, s', id);
    TurnKeepsTask(s, id, FailPc(th.pc));
  }

  lemma ToggleKeeps(s: State, id: OperationId)
    requires Inv(s) && CanToggle(s, id)
    ensures Inv(DoToggle(s, id))
  {
    var s' := DoToggle(s, id);
    assert HoldsLock(s.threads[id]) <==> s.holder == Some(id);
    ToggleKeepsLock(s, id);
    ToggleKeepsTask(s, id);
  }

  lemma FailToggleKeeps(s: State, e: Event)
    requires Inv(s) && Enabled(s, e) && e.FailToggle?
    ensures Inv(Next(s, e))
  {
    assert HoldsLock(s.threads[e.id]) <==> s.holder == Some(e.id);
    assert TaskOf(s.tasks, s.modes.Keys, e.id, s.threads[e.id]);
    LockMoveKeeps(s, Next(s, e), e.id);
    TaskMoveKeeps(s, Next(s, e), e.id);
  }

  /** A thread enters. */
  lemma EnterKeeps(s: State, e: Event)
    requires Inv(s) && Enabled(s, e) && (e.Begin? || e.BeginToggle?)
    ensures Inv(Next(s, e))
  {
    LockMoveKeeps(s, Next(s, e), e.id);
    TaskMoveKeeps(s, Next(s, e), e.id);
  }

  /** Probes touch neither threads nor modes, */
  lemma ProbeKeeps(s: State, e: Event)
    requires Inv(s) && Enabled(s, e) && (e.ProbeRead? || e.ProbePut? || e.ProbeMiss?)
    ensures Inv(Next(s, e))
  {}

  /** and commits and replication not even the store. */
  lemma DataKeeps(s: State, e: Event)
    requires Inv(s) && Enabled(s, e) && (e.Commit? || e.Replicate?)
    ensures Inv(Next(s, e))
  {}

  /** One event. */
  lemma Keep(s: State, e: Event)
    requires Inv(s) && Enabled(s, e) && !e.Lapse?
    ensures Inv(Next(s, e))
  {
    match e
    case Advance(id) => AdvanceKeeps(s, id);
    case Pick(id, n) => PickKeeps(s, id, n);
    case Fail(id) => FailKeeps(s, id);
    case AdvanceToggle(id) => ToggleKeeps(s, id);
    case FailToggle(_) => FailToggleKeeps(s, e);
    case Begin(_, _, _) => EnterKeeps(s, e);
    case BeginToggle(_, _) => EnterKeeps(s, e);
    case Commit(_, _) => DataKeeps(s, e);
    case Replicate(_, _) => DataKeeps(s, e);
    case _ => ProbeKeeps(s, e);
  }

  /** Every run. */
  lemma {:induction false} RunInv(s: State, es: seq<Event>)
    requires Inv(s) && Run(s, es) && Exclusive(es)
    ensures Inv(Reach(s, es))
    decreases |es|
  {
    if es != [] {
      assert Last(es) in es;
      RunInv(s, Front(es));
      Keep(Reach(s, Front(es)), Last(es));
    }
  }
}
