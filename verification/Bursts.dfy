/** One agent call as steps of the protocol: statements that ran inside the call are that many moves of its switch. */
module Bursts {
  import opened Model
  import opened MySql
  import opened Protocol

  /** A role change with `ran` statements behind it. */
  function Ran(pc: Pc, ran: nat): Pc {
    match pc
    case Demoting(_) => Demoting(ran)
    case Promoting(_) => Promoting(ran)
    case Relinking(done, n, _) => Relinking(done, n, ran)
    case _ => pc
  }

  function ScriptOf(th: Thread): seq<Statement>
    requires th.Switcher?
  {
    match th.pc
    case Demoting(_) => DEMOTE
    case Promoting(_) => PROMOTE
    case Relinking(_, _, _) => Link(th.target)
    case _ => []
  }

  function NodeOf(th: Thread): NodeId
    requires th.Switcher?
  {
    match th.pc
    case Demoting(_) => th.snap.primary
    case Promoting(_) => th.target
    case Relinking(_, n, _) => n
    case _ => NOBODY
  }

  /** The state once `ran` statements of the switch's current role change have run. */
  ghost function Burst(s: State, id: OperationId, ran: nat): State
    requires id in s.threads && s.threads[id].Switcher? && NodeOf(s.threads[id]) in s.modes
    requires ran <= |ScriptOf(s.threads[id])|
  {
    var th, n := s.threads[id], NodeOf(s.threads[id]);
    s.(threads := s.threads[id := th.(pc := Ran(th.pc, ran))],
       modes := s.modes[n := After(s.modes[n], ScriptOf(th), ran)])
  }

  lemma OneMore(s: State, id: OperationId, ran: nat)
    requires id in s.threads && s.threads[id].Switcher? && NodeOf(s.threads[id]) in s.modes
    requires ran < |ScriptOf(s.threads[id])|
    ensures CanAdvance(Burst(s, id, ran), id)
    ensures DoAdvance(Burst(s, id, ran), id) == Burst(s, id, ran + 1)
  {
    var th, n := s.threads[id], NodeOf(s.threads[id]);
    var b, c := Burst(s, id, ran), Burst(s, id, ran + 1);
    assert DoAdvance(b, id).modes == c.modes;
    assert DoAdvance(b, id).threads == c.threads;
  }

  // --- Logs ---

  /** A run written down with all its states. */
  datatype Log = Log(states: seq<State>, events: seq<Event>)

  ghost predicate StepAt(log: Log, i: nat)
    requires i < |log.events| && |log.states| == |log.events| + 1
  {
    var e := log.events[i];
    !e.Lapse? && Enabled(log.states[i], e) && log.states[i + 1] == Next(log.states[i], e)
  }

  ghost predicate Sound(log: Log) {
    |log.states| == |log.events| + 1 && forall i: nat | i < |log.events| :: StepAt(log, i)
  }

  ghost function Now(log: Log): State
    requires Sound(log)
  {
    log.states[|log.events|]
  }

  /** Two logs from the same state. */
  ghost predicate SameStart(log: Log, earlier: Log) {
    Sound(log) && Sound(earlier) && log.states[0] == earlier.states[0]
  }

  /** A log that is still empty. */
  ghost function Fresh(s: State): (log: Log)
    ensures Sound(log) && Now(log) == s
  {
    Log([s], [])
  }

  lemma Append(log: Log, e: Event) returns (log': Log)
    requires Sound(log) && Enabled(Now(log), e) && !e.Lapse?
    ensures SameStart(log', log) && Now(log') == Next(Now(log), e)
    ensures |log'.events| == |log.events| + 1 && log'.states[|log.events|] == Now(log)
  {
    log' := Log(log.states + [Next(Now(log), e)], log.events + [e]);
    forall i: nat | i < |log'.events| ensures StepAt(log', i) {
      assert i < |log.events| ==> StepAt(log, i);
    }
  }

  /** Two logs, the second from where the first ends. */
  lemma Join(a: Log, b: Log) returns (log: Log)
    requires Sound(a) && Sound(b) && Now(a) == b.states[0]
    ensures SameStart(log, a) && Now(log) == Now(b) && Now(a) in log.states
  {
    log := Log(a.states + b.states[1..], a.events + b.events);
    forall i: nat | i < |log.events| ensures StepAt(log, i) {
      if i < |a.events| { assert StepAt(a, i); } else { assert StepAt(b, i - |a.events|); }
    }
  }

  /** A log is a run. */
  lemma {:induction false} SoundIsRun(log: Log, n: nat)
    requires Sound(log) && n <= |log.events|
    ensures Run(log.states[0], log.events[..n]) && Exclusive(log.events[..n])
    ensures Reach(log.states[0], log.events[..n]) == log.states[n]
  {
    if n > 0 {
      SoundIsRun(log, n - 1);
      assert StepAt(log, n - 1);
      assert log.events[..n] == log.events[..n - 1] + [log.events[n - 1]];
      Extend(log.states[0], log.events[..n - 1], log.events[n - 1]);
    }
  }

  lemma {:induction false} BurstIsRun(log: Log, id: OperationId, ran: nat) returns (log': Log)
    requires Sound(log)
    requires var s := Now(log);
             && id in s.threads && s.threads[id].Switcher? && s.threads[id].pc == Ran(s.threads[id].pc, 0)
             && NodeOf(s.threads[id]) in s.modes && ran <= |ScriptOf(s.threads[id])|
    ensures SameStart(log', log) && Now(log') == Burst(Now(log), id, ran)
  {
    var s := Now(log);
    if ran == 0 {
      log' := log;
      assert s.threads[id := s.threads[id]] == s.threads;
      assert s.modes[NodeOf(s.threads[id]) := s.modes[NodeOf(s.threads[id])]] == s.modes;
    } else {
      var before := BurstIsRun(log, id, ran - 1);
      OneMore(s, id, ran - 1);
      log' := Append(before, Advance(id));
    }
  }

  // --- The calls of a switch, each as the moves it amounts to ---

  /** The switch `id` stands at `pc`. */
  ghost predicate Stands(log: Log, id: OperationId, pc: Pc) {
    Sound(log) && id in Now(log).threads && Now(log).threads[id].Switcher? && Now(log).threads[id].pc == pc
  }

  /** The state with the switch `id` at `pc` and node `n` in mode `m`. */
  ghost function Moved(s: State, id: OperationId, pc: Pc, n: NodeId, m: Mode): State
    requires id in s.threads && s.threads[id].Switcher?
  {
    s.(threads := s.threads[id := s.threads[id].(pc := pc)], modes := s.modes[n := m])
  }

  lemma Unmoved(s: State, id: OperationId, n: NodeId)
    requires id in s.threads && s.threads[id].Switcher? && n in s.modes
    ensures Moved(s, id, s.threads[id].pc, n, s.modes[n]) == s
  {}

  /** The record is read and the target accepted. */
  lemma BeginPhase(log: Log, id: OperationId, target: NodeId, dryRun: bool) returns (log': Log)
    requires Sound(log) && id != "" && id !in Now(log).threads && target in Now(log).modes
    requires target != Now(log).record.primary
    ensures SameStart(log', log)
    ensures var s := Now(log); Now(log') == s.(threads := s.threads[id := Switcher(target, s.record, dryRun, Ready)])
  {
    log' := Append(log, Begin(id, target, dryRun));
  }

  /** The lock is free, */
  lemma LockPhase(log: Log, id: OperationId) returns (log': Log)
    requires Stands(log, id, Ready) && Now(log).holder.None?
    ensures SameStart(log', log)
    ensures var s := Now(log); Now(log') == SetPc(s, id, Locked).(holder := Some(id), base := s.modes)
  {
    log' := Append(log, Advance(id));
  }

  /** or taken. */
  lemma RefusePhase(log: Log, id: OperationId) returns (log': Log)
    requires Stands(log, id, Ready)
    ensures SameStart(log', log) && Now(log') == SetPc(Now(log), id, Released(Outcome(Aborted, Ready)))
  {
    log' := Append(log, Fail(id));
  }

  /** The operation is placed. */
  lemma PlacePhase(log: Log, id: OperationId) returns (log': Log)
    requires Stands(log, id, Locked)
    ensures SameStart(log', log)
    ensures var s := Now(log); Now(log') == SetPc(s, id, Authorized).(operation := Some(AuthOf(id, s.threads[id])))
  {
    log' := Append(log, Advance(id));
  }

  /** The re-read agrees. */
  lemma RereadPhase(log: Log, id: OperationId) returns (log': Log)
    requires Stands(log, id, Authorized)
    requires var s, th := Now(log), Now(log).threads[id];
             && s.record.epoch == th.snap.epoch && s.record.primary == th.snap.primary && s.record.primary != NOBODY
             && th.target != s.record.primary
    ensures SameStart(log', log) && Now(log') == SetPc(Now(log), id, Agreed)
  {
    log' := Append(log, Advance(id));
  }

  /** The candidate is eligible. */
  lemma CheckPhase(log: Log, id: OperationId) returns (log': Log)
    requires Stands(log, id, Agreed)
    requires var s, th := Now(log), Now(log).threads[id]; th.target in s.modes && ReportsReplica(s.modes[th.target])
    ensures SameStart(log', log) && Now(log') == SetPc(Now(log), id, Checked)
  {
    log' := Append(log, Advance(id));
  }

  lemma AbortPhase(log: Log, id: OperationId) returns (log': Log)
    requires Stands(log, id, Authorized) || Stands(log, id, Agreed)
    ensures SameStart(log', log) && Now(log') == SetPc(Now(log), id, Stored(Outcome(Aborted, Now(log).threads[id].pc)))
  {
    log' := Append(log, Fail(id));
  }

  lemma OpenPhase(log: Log, id: OperationId) returns (log': Log)
    requires Stands(log, id, Checked)
    ensures SameStart(log', log)
    ensures Now(log') == SetPc(Now(log), id, Started).(tasks := Now(log).tasks[id := TaskRunning])
  {
    log' := Append(log, Advance(id));
  }

  /** The old primary's agent lets the switch in or not, and runs `ran` statements. */
  lemma DemotePhase(log: Log, id: OperationId, entered: bool, ran: nat) returns (log': Log, at: Pc)
    requires Stands(log, id, Started) && ran <= |DEMOTE| && (!entered ==> ran == 0)
    requires var s, th := Now(log), Now(log).threads[id];
             !th.dryRun && th.snap.primary in s.modes && (entered ==> Verify(s, AuthOf(id, th)))
    ensures SameStart(log', log) && at == if entered then Demoting(ran) else Started
    ensures var s := Now(log);
            var n := s.threads[id].snap.primary;
            Now(log') == Moved(s, id, at, n, After(s.modes[n], DEMOTE, ran))
  {
    if entered {
      log' := Append(log, Advance(id));
      log' := BurstIsRun(log', id, ran);
      at := Demoting(ran);
    } else {
      log', at := log, Started;
      Unmoved(Now(log), id, Now(log).threads[id].snap.primary);
    }
  }

  /** It is seen read-only. */
  lemma DemotedPhase(log: Log, id: OperationId) returns (log': Log)
    requires Stands(log, id, Demoting(|DEMOTE|))
    requires var s, n := Now(log), Now(log).threads[id].snap.primary; n in s.modes && s.modes[n].access.SuperReadOnly?
    ensures SameStart(log', log) && Now(log') == SetPc(Now(log), id, Confirmed)
  {
    log' := Append(log, Advance(id));
  }

  /** Its GTID set is read. */
  lemma MeasurePhase(log: Log, id: OperationId) returns (log': Log)
    requires Stands(log, id, Confirmed) && Now(log).threads[id].snap.primary in Now(log).executed
    ensures SameStart(log', log)
    ensures var s := Now(log); Now(log') == SetPc(s, id, Measured(s.executed[s.threads[id].snap.primary]))
  {
    log' := Append(log, Advance(id));
  }

  /** The target replicates up to `now`, and may then have caught up. */
  lemma CatchUpPhase(log: Log, id: OperationId, g: set<Txn>, now: set<Txn>, caught: bool) returns (log': Log, at: Pc)
    requires Stands(log, id, Measured(g))
    requires var s, th := Now(log), Now(log).threads[id];
             && th.target in s.executed && th.target in s.modes && s.executed[th.target] <= now
             && (now != s.executed[th.target] ==> s.modes[th.target].source.Some? && s.modes[th.target].started)
             && (caught ==> Verify(s, AuthOf(id, th)) && g != {} && g <= now)
    ensures SameStart(log', log) && at == if caught then CaughtUp(g) else Measured(g)
    ensures var s := Now(log); Now(log') == SetPc(s, id, at).(executed := s.executed[s.threads[id].target := now])
  {
    var s, th := Now(log), Now(log).threads[id];
    log', at := log, th.pc;
    if now != s.executed[th.target] {
      log' := Append(log, Replicate(th.target, now));
      assert s.executed[th.target] + now == now;
    }
    assert Now(log') == s.(executed := s.executed[th.target := now]);
    if caught {
      log' := Append(log', Advance(id));
      at := CaughtUp(g);
    } else {
      assert s.threads[id := th] == s.threads;
    }
  }

  /** The target's agent lets the switch in or not, and runs `ran` statements. */
  lemma PromotePhase(log: Log, id: OperationId, entered: bool, ran: nat) returns (log': Log, at: Pc)
    requires Sound(log) && ran <= |PROMOTE| && (!entered ==> ran == 0)
    requires id in Now(log).threads && Now(log).threads[id].Switcher?
    requires var s, th := Now(log), Now(log).threads[id];
             && th.pc.CaughtUp? && th.target in s.modes
             && (entered ==> ReportsReplica(s.modes[th.target]) && Verify(s, AuthOf(id, th)))
    ensures SameStart(log', log) && at == if entered then Promoting(ran) else Now(log).threads[id].pc
    ensures var s := Now(log);
            var n := s.threads[id].target;
            Now(log') == Moved(s, id, at, n, After(s.modes[n], PROMOTE, ran))
  {
    if entered {
      log' := Append(log, Advance(id));
      log' := BurstIsRun(log', id, ran);
      at := Promoting(ran);
    } else {
      log', at := log, Now(log).threads[id].pc;
      Unmoved(Now(log), id, Now(log).threads[id].target);
    }
  }

  /** It is seen writable. */
  lemma PromotedPhase(log: Log, id: OperationId) returns (log': Log)
    requires Stands(log, id, Promoting(|PROMOTE|))
    requires var s, n := Now(log), Now(log).threads[id].target; n in s.modes && Writable(s.modes[n])
    ensures SameStart(log', log) && Now(log') == SetPc(Now(log), id, Promoted)
  {
    log' := Append(log, Advance(id));
  }

  lemma RecordPhase(log: Log, id: OperationId) returns (log': Log)
    requires Stands(log, id, Promoted) && Now(log).record.epoch == Now(log).threads[id].snap.epoch
    ensures SameStart(log', log)
    ensures var s, th := Now(log), Now(log).threads[id];
            Now(log') ==
            SetPc(s, id, Linking({})).(record := th.snap.(primary := th.target, epoch := th.snap.epoch + 1))
  {
    log' := Append(log, Advance(id));
  }

  /** Another node's agent lets the switch in or not, and runs `ran` statements. */
  lemma RelinkPhase(log: Log, id: OperationId, n: NodeId, ran: nat) returns (log': Log)
    requires Sound(log) && ran <= 6 && id in Now(log).threads && Now(log).threads[id].Switcher?
    requires var s, th := Now(log), Now(log).threads[id];
             && th.pc.Linking? && n in s.modes && n != th.target && n !in th.pc.done && Verify(s, AuthOf(id, th))
    ensures SameStart(log', log)
    ensures var s, th := Now(log), Now(log).threads[id];
            Now(log') == Moved(s, id, Relinking(th.pc.done, n, ran), n, After(s.modes[n], Link(th.target), ran))
  {
    log' := Append(log, Pick(id, n));
    log' := BurstIsRun(log', id, ran);
  }

  /** The agent then sees it replicating. */
  lemma RelinkedPhase(log: Log, id: OperationId, done: set<NodeId>, n: NodeId) returns (log': Log)
    requires Stands(log, id, Relinking(done, n, 6)) && n in Now(log).modes && ReportsReplica(Now(log).modes[n])
    ensures SameStart(log', log) && Now(log') == SetPc(Now(log), id, Linking(done + {n}))
  {
    log' := Append(log, Advance(id));
  }

  /** One agent call of the repointing loop. */
  lemma LinkPhase(log: Log, id: OperationId, n: NodeId, entered: bool, ran: nat, confirmed: bool)
    returns (log': Log, at: Pc)
    requires Sound(log) && ran <= 6 && (confirmed ==> entered && ran == 6) && (!entered ==> ran == 0)
    requires id in Now(log).threads && Now(log).threads[id].Switcher?
    requires var s, th := Now(log), Now(log).threads[id];
             && th.pc.Linking? && n in s.modes && n != th.target && n !in th.pc.done
             && (entered ==> Verify(s, AuthOf(id, th)))
    ensures SameStart(log', log)
    ensures var pc := Now(log).threads[id].pc;
            at == if confirmed then Linking(pc.done + {n}) else if entered then Relinking(pc.done, n, ran) else pc
    ensures var s := Now(log);
            Now(log') == Moved(s, id, at, n, After(s.modes[n], Link(s.threads[id].target), ran))
  {
    var s, th := Now(log), Now(log).threads[id];
    log', at := log, th.pc;
    if entered {
      log' := RelinkPhase(log, id, n, ran);
      at := Relinking(th.pc.done, n, ran);
      if confirmed {
        LinkProgress(s.modes[n], th.target, ran);
        log' := RelinkedPhase(log', id, th.pc.done, n);
        at := Linking(th.pc.done + {n});
      }
    } else {
      Unmoved(s, id, n);
    }
  }

  /** The task is open and the work has not ended. */
  predicate Working(pc: Pc) {
    match pc
    case Started => true
    case Demoting(_) => true
    case Confirmed => true
    case Measured(_) => true
    case CaughtUp(_) => true
    case Promoting(_) => true
    case Promoted => true
    case Linking(_) => true
    case Relinking(_, _, _) => true
    case _ => false
  }

  /** The verdict `v` fits a switch whose work ended at `th`. */
  ghost predicate Fits(v: Verdict, th: Thread, keys: set<NodeId>)
    requires th.Switcher?
  {
    && Working(th.pc) && !v.Aborted? && (v.DryRan? ==> th.pc.Started? && th.dryRun)
    && (v.Succeeded? ==> th.pc.Linking? && keys <= th.pc.done + {th.target})
  }

  /** The work has ended, */
  lemma VerdictPhase(log: Log, id: OperationId, v: Verdict) returns (log': Log)
    requires Sound(log) && id in Now(log).threads && Now(log).threads[id].Switcher?
    requires Fits(v, Now(log).threads[id], Now(log).modes.Keys)
    ensures SameStart(log', log)
    ensures var s := Now(log); Now(log') == SetPc(s, id, Finished(Outcome(v, s.threads[id].pc)))
  {
    log' := Append(log, if v.Failed? then Fail(id) else Advance(id));
  }

  /** and the task is stored in its final state. */
  lemma ClosePhase(log: Log, id: OperationId, v: Verdict) returns (log': Log)
    requires Sound(log) && id in Now(log).threads && Now(log).threads[id].Switcher?
    requires Fits(v, Now(log).threads[id], Now(log).modes.Keys)
    ensures SameStart(log', log)
    ensures var s := Now(log);
            Now(log') == SetPc(s, id, Stored(Outcome(v, s.threads[id].pc))).(tasks := s.tasks[id := Final(v)])
  {
    log' := VerdictPhase(log, id, v);
    log' := Append(log', Advance(id));
  }

  /** The operation slot is emptied, */
  lemma ClearPhase(log: Log, id: OperationId, o: Outcome) returns (log': Log)
    requires Stands(log, id, Stored(o))
    ensures SameStart(log', log) && Now(log') == SetPc(Now(log), id, Cleared(o)).(operation := None)
  {
    log' := Append(log, Advance(id));
  }

  /** and the lock given back. */
  lemma ReleasePhase(log: Log, id: OperationId, o: Outcome) returns (log': Log)
    requires Stands(log, id, Cleared(o))
    ensures SameStart(log', log) && Now(log') == SetPc(Now(log), id, Released(o)).(holder := None) && Ends(log', id, o)
  {
    log' := Append(log, Advance(id));
  }

  /** The last event of the log is that the switch `id` gives the lock back. */
  ghost predicate Ends(log: Log, id: OperationId, o: Outcome) {
    && Sound(log) && |log.events| > 0
    && var s := log.states[|log.events| - 1];
       && id in s.threads && s.threads[id].Switcher? && s.threads[id].pc == Cleared(o)
       && Now(log) == SetPc(s, id, Released(o)).(holder := None)
  }

  /** The log without its last event. */
  lemma OneLess(log: Log) returns (log': Log)
    requires Sound(log) && |log.events| > 0
    ensures SameStart(log', log) && Now(log') == log.states[|log.events| - 1]
  {
    var n := |log.events| - 1;
    log' := Log(log.states[..n + 1], log.events[..n]);
    forall i: nat | i < n ensures StepAt(log', i) {
      assert StepAt(log, i);
    }
  }

  // --- The calls of a toggle ---

  lemma HoldPhase(log: Log, id: OperationId, enabled: bool) returns (log': Log)
    requires Sound(log) && id !in Now(log).threads && Now(log).holder.None?
    ensures SameStart(log', log)
    ensures var s := Now(log);
            Now(log') == s.(threads := s.threads[id := Toggler(enabled, Holding)], holder := Some(id))
  {
    log' := Append(log, BeginToggle(id, enabled));
  }

  lemma TogglePhase(log: Log, id: OperationId) returns (log': Log)
    requires Sound(log) && CanToggle(Now(log), id)
    ensures SameStart(log', log) && Now(log') == DoToggle(Now(log), id)
  {
    log' := Append(log, AdvanceToggle(id));
  }

  // --- The bootstrap of a probe ---

  lemma BootReadPhase(log: Log, found: NodeId) returns (log': Log)
    requires Sound(log) && Now(log).probe.Idle? && (found == NOBODY || found in Now(log).modes)
    requires Now(log).record.primary == NOBODY
    ensures SameStart(log', log) && Now(log') == Now(log).(probe := Booting(Now(log).record.(primary := found)))
  {
    log' := Append(log, ProbeRead(found));
  }

  lemma BootPutPhase(log: Log) returns (log': Log)
    requires Sound(log) && Now(log).probe.Booting?
    ensures SameStart(log', log) && Now(log') == Now(log).(record := Now(log).probe.pending, probe := Idle)
  {
    log' := Append(log, ProbePut);
  }
}
