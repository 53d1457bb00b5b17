/** The switchover protocol as a labelled transition system: any number of switches and flag toggles,
    one probe loop, client commits and replication, interleaved at the granularity of one store
    operation or one SQL statement. An `Event` names the move, `Enabled` its guard, `Next` its effect. */
module Protocol {
  import opened Model
  import opened MySql

  // --- A switch (internal/ha/controller.go:289-425) ---

  /** Where one switch stands. Numbers count the statements of a script that have already run. */
  datatype Pc =
    | Ready                                                    // snapshot read, target accepted
    | Locked                                                   // lock held, operation not yet placed
    | Authorized                                               // operation placed
    | Agreed                                                   // re-read agrees with the snapshot
    | Checked                                                  // candidate eligible
    | Started                                                  // task stored as running
    | Demoting(ran: nat)
    | Confirmed                                                // old primary seen read-only
    | Measured(gtid: set<Txn>)                                 // its executed set read
    | CaughtUp(gtid: set<Txn>)                                 // target waited for it
    | Promoting(ran: nat)
    | Promoted                                                 // target seen writable
    | Linking(done: set<NodeId>)                               // record written, repointing loop
    | Relinking(done: set<NodeId>, node: NodeId, ran: nat)
    | Finished(outcome: Outcome)                               // verdict known, task not yet stored
    | Stored(outcome: Outcome)                                 // final task stored
    | Cleared(outcome: Outcome)                                // operation slot emptied
    | Released(outcome: Outcome)                               // lock given back

  datatype Verdict = Aborted | DryRan | Failed | Succeeded

  /** `at` is the last point the switch reached before it turned to its exit. */
  datatype Outcome = Outcome(verdict: Verdict, at: Pc)

  /** A flag toggle (internal/ha/controller.go:264-287). */
  datatype Phase = Holding | Read(snap: ClusterState) | Written | Gone

  datatype Thread =
    | Switcher(target: NodeId, snap: ClusterState, dryRun: bool, pc: Pc)
    | Toggler(enabled: bool, phase: Phase)

  /** The probe loop's bootstrap: between its read and its unconditional put. */
  datatype Probe = Idle | Booting(pending: ClusterState)

  datatype State = State(
    record: ClusterState,
    holder: Option<OperationId>,
    operation: Option<SwitchAuthorization>,
    tasks: map<OperationId, TaskState>,
    modes: map<NodeId, Mode>,
    executed: map<NodeId, set<Txn>>,
    threads: map<OperationId, Thread>,
    probe: Probe,
    acked: set<Txn>,               // history: transactions committed by the recorded primary
    base: map<NodeId, Mode>)       // history: modes when a switch last took the lock

  datatype Event =
    | Begin(id: OperationId, target: NodeId, dryRun: bool)
    | Advance(id: OperationId)                       // the pending call succeeds
    | Pick(id: OperationId, node: NodeId)            // the repointing loop turns to a node
    | Fail(id: OperationId)                          // the pending call returns an error
    | BeginToggle(id: OperationId, enabled: bool)
    | AdvanceToggle(id: OperationId)
    | FailToggle(id: OperationId)                    // its read or its write has no effect
    | ProbeRead(found: NodeId)
    | ProbePut
    | ProbeMiss                                      // the put has no effect
    | Commit(node: NodeId, txn: Txn)
    | Replicate(node: NodeId, txns: set<Txn>)
    | Lapse                                          // the lock's lease runs out

  // --- Authority ---

  function AuthOf(id: OperationId, th: Thread): SwitchAuthorization
    requires th.Switcher?
  {
    SwitchAuthorization(id, th.snap.epoch, th.snap.epoch + 1)
  }

  predicate Verify(s: State, auth: SwitchAuthorization) {
    Authorizes(s.record, s.operation, auth)
  }

  // --- Small updates ---

  function SetPc(s: State, id: OperationId, pc: Pc): State
    requires id in s.threads && s.threads[id].Switcher?
  {
    s.(threads := s.threads[id := s.threads[id].(pc := pc)])
  }

  function SetPhase(s: State, id: OperationId, phase: Phase): State
    requires id in s.threads && s.threads[id].Toggler?
  {
    s.(threads := s.threads[id := s.threads[id].(phase := phase)])
  }

  function Final(verdict: Verdict): TaskState {
    match verdict
    case Aborted => TaskFailed
    case DryRan => TaskDryRun
    case Failed => TaskFailed
    case Succeeded => TaskCompleted
  }

  // --- The switch's moves ---

  /** The guard of a successful call at the switch's current point. */
  predicate CanAdvance(s: State, id: OperationId) {
    && id in s.threads && s.threads[id].Switcher?
    && var th := s.threads[id];
       var from, target, auth := th.snap.primary, th.target, AuthOf(id, th);
       match th.pc
       case Ready => s.holder.None?
       case Locked => true
       case Authorized =>
         && s.record.epoch == th.snap.epoch && s.record.primary == from
         && s.record.primary != NOBODY && target != s.record.primary
       case Agreed => target in s.modes && ReportsReplica(s.modes[target])
       case Checked => true
       case Started => th.dryRun || (from in s.modes && Verify(s, auth))
       case Demoting(k) =>
         && from in s.modes
         && (k < |DEMOTE| || (s.modes[from].access.SuperReadOnly?))
       case Confirmed => from in s.executed
       case Measured(g) => Verify(s, auth) && g != {} && target in s.executed && g <= s.executed[target]
       case CaughtUp(_) => Verify(s, auth) && target in s.modes && ReportsReplica(s.modes[target])
       case Promoting(k) => target in s.modes && (k < |PROMOTE| || Writable(s.modes[target]))
       case Promoted => s.record.epoch == th.snap.epoch
       case Linking(done) => s.modes.Keys <= done + {target}
       case Relinking(_, n, k) => n in s.modes && (k < 6 || ReportsReplica(s.modes[n]))
       case Finished(_) => true
       case Stored(_) => true
       case Cleared(_) => true
       case Released(_) => false
  }

  /** Where a successful call takes the switch. */
  function NextPc(s: State, th: Thread): Pc
    requires th.Switcher? && (th.pc.Confirmed? ==> th.snap.primary in s.executed)
  {
    match th.pc
    case Ready => Locked
    case Locked => Authorized
    case Authorized => Agreed
    case Agreed => Checked
    case Checked => Started
    case Started => if th.dryRun then Finished(Outcome(DryRan, Started)) else Demoting(0)
    case Demoting(k) => if k < |DEMOTE| then Demoting(k + 1) else Confirmed
    case Confirmed => Measured(s.executed[th.snap.primary])
    case Measured(g) => CaughtUp(g)
    case CaughtUp(_) => Promoting(0)
    case Promoting(k) => if k < |PROMOTE| then Promoting(k + 1) else Promoted
    case Promoted => Linking({})
    case Linking(_) => Finished(Outcome(Succeeded, th.pc))
    case Relinking(done, n, k) => if k < 6 then Relinking(done, n, k + 1) else Linking(done + {n})
    case Finished(o) => Stored(o)
    case Stored(o) => Cleared(o)
    case Cleared(o) => Released(o)
    case Released(o) => th.pc
  }

  datatype Call = Call(node: NodeId, statement: Statement)

  /** The SQL statement that an agent is about to run for the switch, if it is inside a role change. */
  function Pending(th: Thread): Option<Call>
    requires th.Switcher?
  {
    match th.pc
    case Demoting(k) => if k < |DEMOTE| then Some(Call(th.snap.primary, DEMOTE[k])) else None
    case Promoting(k) => if k < |PROMOTE| then Some(Call(th.target, PROMOTE[k])) else None
    case Relinking(_, n, k) => if k < 6 then Some(Call(n, Link(th.target)[k])) else None
    case _ => None
  }

  function RunPending(modes: map<NodeId, Mode>, call: Option<Call>): map<NodeId, Mode> {
    if call.Some? && call.value.node in modes
    then modes[call.value.node := Apply(modes[call.value.node], call.value.statement)]
    else modes
  }

  /** The pending call takes effect: on the lock and the operation slot (internal/store/store.go:66-96),
      on the stored task, on one server, or on the record (internal/ha/controller.go:401-406, which
      writes the snapshot's flag back). */
  function DoAdvance(s: State, id: OperationId): State
    requires CanAdvance(s, id)
  {
    var th := s.threads[id];
    State(
      if th.pc.Promoted? then th.snap.(primary := th.target, epoch := th.snap.epoch + 1) else s.record,
      if th.pc.Ready? then Some(id) else if th.pc.Cleared? then None else s.holder,
      if th.pc.Locked? then Some(AuthOf(id, th)) else if th.pc.Stored? then None else s.operation,
      if th.pc.Checked? then s.tasks[id := TaskRunning]
      else if th.pc.Finished? then s.tasks[id := Final(th.pc.outcome.verdict)]
      else s.tasks,
      RunPending(s.modes, Pending(th)),
      s.executed,
      s.threads[id := th.(pc := NextPc(s, th))],
      s.probe,
      s.acked,
      if th.pc.Ready? then s.modes else s.base)
  }

  predicate CanPick(s: State, id: OperationId, n: NodeId) {
    && id in s.threads && s.threads[id].Switcher?
    && var th := s.threads[id];
       && th.pc.Linking? && n in s.modes && n != th.target && n !in th.pc.done
       && Verify(s, AuthOf(id, th))
  }

  function DoPick(s: State, id: OperationId, n: NodeId): State
    requires CanPick(s, id, n)
  {
    SetPc(s, id, Relinking(s.threads[id].pc.done, n, 0))
  }

  predicate CanFail(s: State, id: OperationId) {
    && id in s.threads && s.threads[id].Switcher?
    && !Exiting(s.threads[id].pc)
  }

  /** Errors before the task exists leave without one; later errors go through finishTask. */
  function FailPc(pc: Pc): Pc
    requires !Exiting(pc)
  {
    match pc
    case Ready => Released(Outcome(Aborted, pc))
    case Locked => Cleared(Outcome(Aborted, pc))
    case Authorized => Stored(Outcome(Aborted, pc))
    case Agreed => Stored(Outcome(Aborted, pc))
    case Checked => Stored(Outcome(Aborted, pc))
    case _ => Finished(Outcome(Failed, pc))
  }

  function DoFail(s: State, id: OperationId): State
    requires CanFail(s, id)
  {
    SetPc(s, id, FailPc(s.threads[id].pc))
  }

  // --- The toggle's moves ---

  predicate CanToggle(s: State, id: OperationId) {
    id in s.threads && s.threads[id].Toggler? && !s.threads[id].phase.Gone?
  }

  function NextPhase(s: State, phase: Phase): Phase {
    match phase
    case Holding => Read(s.record)
    case Read(_) => Written
    case Written => Gone
    case Gone => Gone
  }

  /** The write is accepted if the epoch is still the one that was read. */
  function DoToggle(s: State, id: OperationId): State
    requires CanToggle(s, id)
  {
    var th := s.threads[id];
    State(
      if th.phase.Read? && s.record.epoch == th.phase.snap.epoch
      then th.phase.snap.(autoFailover := th.enabled)
      else s.record,
      if th.phase.Written? then None else s.holder,
      s.operation, s.tasks, s.modes, s.executed,
      s.threads[id := th.(phase := NextPhase(s, th.phase))],
      s.probe, s.acked, s.base)
  }

  // --- All moves ---

  predicate Enabled(s: State, e: Event) {
    match e
    case Begin(id, target, _) =>
      id != "" && id !in s.threads && target in s.modes && target != s.record.primary
    case Advance(id) => CanAdvance(s, id)
    case Pick(id, n) => CanPick(s, id, n)
    case Fail(id) => CanFail(s, id)
    case BeginToggle(id, _) => id !in s.threads && s.holder.None?
    case AdvanceToggle(id) => CanToggle(s, id)
    case FailToggle(id) => CanToggle(s, id) && !s.threads[id].phase.Written?
    case ProbeRead(found) => s.probe.Idle? && (found == NOBODY || found in s.modes)
    case ProbePut => s.probe.Booting?
    case ProbeMiss => s.probe.Booting?
    case Commit(n, _) => n in s.modes && n in s.executed && !s.modes[n].access.SuperReadOnly?
    case Replicate(n, _) => n in s.modes && n in s.executed && s.modes[n].source.Some? && s.modes[n].started
    case Lapse => true
  }

  function Next(s: State, e: Event): State
    requires Enabled(s, e)
  {
    match e
    case Begin(id, target, dryRun) => s.(threads := s.threads[id := Switcher(target, s.record, dryRun, Ready)])
    case Advance(id) => DoAdvance(s, id)
    case Pick(id, n) => DoPick(s, id, n)
    case Fail(id) => DoFail(s, id)
    case BeginToggle(id, enabled) => s.(threads := s.threads[id := Toggler(enabled, Holding)], holder := Some(id))
    case AdvanceToggle(id) => DoToggle(s, id)
    case FailToggle(id) => SetPhase(s, id, Written)
    case ProbeRead(found) =>
      if s.record.primary == NOBODY then s.(probe := Booting(s.record.(primary := found))) else s
    case ProbePut => s.(record := s.probe.pending, probe := Idle)
    case ProbeMiss => s.(probe := Idle)
    case Commit(n, x) =>
      s.(executed := s.executed[n := s.executed[n] + {x}],
         acked := if n == s.record.primary then s.acked + {x} else s.acked)
    case Replicate(n, xs) => s.(executed := s.executed[n := s.executed[n] + xs])
    case Lapse => s.(holder := None, operation := None)
  }

  /** The thread that an event moves. */
  function Mover(e: Event): Option<OperationId> {
    match e
    case Begin(id, _, _) => Some(id)
    case Advance(id) => Some(id)
    case Pick(id, _) => Some(id)
    case Fail(id) => Some(id)
    case BeginToggle(id, _) => Some(id)
    case AdvanceToggle(id) => Some(id)
    case FailToggle(id) => Some(id)
    case _ => None
  }

  /** It moves no other. */
  lemma MovesOne(s: State, e: Event)
    requires Enabled(s, e)
    ensures if Mover(e).None? then Next(s, e).threads == s.threads
            else
              var id := Mover(e).value;
              id in Next(s, e).threads && Next(s, e).threads == s.threads[id := Next(s, e).threads[id]]
  {}

  // --- Runs ---

  /** Every event of the run is enabled where it happens. */
  ghost predicate Run(s: State, es: seq<Event>)
    decreases |es|, 0
  {
    es == [] || (Run(s, Front(es)) && Enabled(Reach(s, Front(es)), Last(es)))
  }

  /** The state a run ends in. */
  ghost function Reach(s: State, es: seq<Event>): State
    requires Run(s, es)
    decreases |es|, 1
  {
    if es == [] then s else Next(Reach(s, Front(es)), Last(es))
  }

  function Front<T>(xs: seq<T>): seq<T>
    requires xs != []
  {
    xs[..|xs| - 1]
  }

  function Last<T>(xs: seq<T>): T
    requires xs != []
  {
    xs[|xs| - 1]
  }

  lemma Extend(s: State, es: seq<Event>, e: Event)
    requires Run(s, es) && Enabled(Reach(s, es), e)
    ensures Run(s, es + [e]) && Reach(s, es + [e]) == Next(Reach(s, es), e)
  {}

  /** Every prefix of a run is a run. */
  lemma {:induction false} PrefixRun(s: State, es: seq<Event>, i: nat)
    requires Run(s, es) && i <= |es|
    ensures Run(s, es[..i])
    decreases |es|
  {
    if i == |es| {
      assert es[..i] == es;
    } else {
      PrefixRun(s, Front(es), i);
      assert Front(es)[..i] == es[..i];
    }
  }

  /** The lock stays exclusive: no lease ever lapses. */
  predicate Exclusive(es: seq<Event>) {
    Lapse !in es
  }

  ghost predicate Initial(s: State) {
    && s.threads == map[] && s.tasks == map[] && s.holder.None? && s.operation.None? && s.probe.Idle?
    && s.executed.Keys == s.modes.Keys && NOBODY !in s.modes
    && (s.record.epoch > 0 ==> s.record.primary != NOBODY)
  }

  // --- Regions of the switch ---

  /** The switch has turned to its exit. */
  predicate Exiting(pc: Pc) {
    pc.Finished? || pc.Stored? || pc.Cleared? || pc.Released?
  }

  /** The last working point the switch reached. */
  function At(pc: Pc): Pc {
    if Exiting(pc) then pc.outcome.at else pc
  }

  predicate HoldsLock(th: Thread) {
    match th
    case Switcher(_, _, _, pc) => !pc.Ready? && !pc.Released?
    case Toggler(_, phase) => !phase.Gone?
  }

  predicate HoldsOperation(th: Thread) {
    th.Switcher? && !th.pc.Ready? && !th.pc.Locked? && !th.pc.Cleared? && !th.pc.Released?
  }
}
