/** The protocol is not stuck: a switch whose calls all succeed completes. And the bound on strays is attained: a switch
    that gives up right after the promotion leaves one. */
module Progress {
  import opened Model
  import opened MySql
  import opened Protocol
  import opened Invariant
  import opened Durability
  import opened Bursts
  import opened Writers

  /** A free lock, a recorded and configured primary, and a replica that has everything the primary executed. */
  ghost predicate Promising(p: State, id: OperationId, target: NodeId) {
    && p.holder.None? && id != "" && id !in p.threads
    && p.executed.Keys == p.modes.Keys && NOBODY !in p.modes && p.record.primary in p.modes
    && target in p.modes && target != p.record.primary && ReportsReplica(p.modes[target])
    && p.executed[p.record.primary] != {} && p.executed[p.record.primary] <= p.executed[target]
  }

  /** The state with the switch `id` at `pc`, its operation placed and its task running. */
  ghost function Running(p: State, id: OperationId, target: NodeId, pc: Pc, modes: map<NodeId, Mode>): State {
    var th := Switcher(target, p.record, false, pc);
    p.(holder := Some(id), operation := Some(AuthOf(id, th)), base := p.modes, tasks := p.tasks[id := TaskRunning],
       threads := p.threads[id := th], modes := modes)
  }

  lemma Lock(p: State, id: OperationId, target: NodeId) returns (log: Log)
    requires Promising(p, id, target)
    ensures SameStart(log, Fresh(p))
    ensures Now(log) ==
            p.(holder := Some(id), base := p.modes,
               threads := p.threads[id := Switcher(target, p.record, false, Locked)])
  {
    log := BeginPhase(Fresh(p), id, target, false);
    log := LockPhase(log, id);
    assert Now(log).threads == p.threads[id := Switcher(target, p.record, false, Locked)];
  }

  lemma Start(p: State, id: OperationId, target: NodeId) returns (log: Log)
    requires Promising(p, id, target)
    ensures SameStart(log, Fresh(p)) && Now(log) == Running(p, id, target, Started, p.modes)
  {
    log := Lock(p, id, target);
    log := PlacePhase(log, id);
    log := RereadPhase(log, id);
    log := CheckPhase(log, id);
    log := OpenPhase(log, id);
    assert Now(log).threads == p.threads[id := Switcher(target, p.record, false, Started)];
  }

  ghost function Demoted(p: State): map<NodeId, Mode>
    requires p.record.primary in p.modes
  {
    p.modes[p.record.primary := After(p.modes[p.record.primary], DEMOTE, |DEMOTE|)]
  }

  lemma CloseOld(p: State, id: OperationId, target: NodeId) returns (log: Log)
    requires Promising(p, id, target)
    ensures SameStart(log, Fresh(p)) && Now(log) == Running(p, id, target, Confirmed, Demoted(p))
  {
    log := Start(p, id, target);
    var at;
    log, at := DemotePhase(log, id, true, |DEMOTE|);
    DemoteProgress(p.modes[p.record.primary], |DEMOTE|);
    log := DemotedPhase(log, id);
    assert Now(log).threads == p.threads[id := Switcher(target, p.record, false, Confirmed)];
  }

  lemma CatchUpTo(p: State, id: OperationId, target: NodeId) returns (log: Log)
    requires Promising(p, id, target)
    ensures SameStart(log, Fresh(p))
    ensures Now(log) == Running(p, id, target, CaughtUp(p.executed[p.record.primary]), Demoted(p))
  {
    log := CloseOld(p, id, target);
    var at;
    log := MeasurePhase(log, id);
    log, at := CatchUpPhase(log, id, p.executed[p.record.primary], p.executed[target], true);
    assert Now(log).executed == p.executed;
    assert Now(log).threads == p.threads[id := Switcher(target, p.record, false, at)];
  }

  // --- Counting leaks ---

  predicate HasExited(s: State, id: OperationId) {
    id in s.threads && s.threads[id].Switcher? && Exiting(s.threads[id].pc)
  }

  /** The switches that turned to their exit between `s` and `f`. */
  ghost function Departures(s: State, f: State): set<OperationId> {
    set id | id in f.threads && HasExited(f, id) && !HasExited(s, id)
  }

  lemma ExitedStays(s: State, e: Event, id: OperationId)
    requires Enabled(s, e) && HasExited(s, id)
    ensures HasExited(Next(s, e), id)
  {
    MovesOne(s, e);
  }

  lemma {:induction false} ExitedRun(s: State, es: seq<Event>, id: OperationId)
    requires Run(s, es) && HasExited(s, id)
    ensures HasExited(Reach(s, es), id)
    decreases |es|
  {
    if es != [] {
      ExitedRun(s, Front(es), id);
      ExitedStays(Reach(s, Front(es)), Last(es), id);
    }
  }

  /** A switch leaks at most once, on its way out. */
  lemma {:induction false} LeaksAreExits(s: State, es: seq<Event>)
    requires Run(s, es)
    ensures LeakCount(s, es) <= |Departures(s, Reach(s, es))|
    decreases |es|
  {
    if es != [] {
      LeaksAreExits(s, Front(es));
      var m, e := Reach(s, Front(es)), Last(es);
      var m' := Next(m, e);
      forall id <- Departures(s, m) ensures id in Departures(s, m') { ExitedStays(m, e, id); }
      SubsetSize(Departures(s, m), Departures(s, m'));
      if Leaks(m, e) {
        if HasExited(s, e.id) { ExitedRun(s, Front(es), e.id); }
        SubsetSize(Departures(s, m) + {e.id}, Departures(s, m'));
      }
    }
  }

  /** If the run of the log adds one stray and only the switch `id` exits in it, then it leaks exactly once. */
  lemma LeaksOnce(log: Log, id: OperationId, target: NodeId)
    requires Sound(log) && Inv(log.states[0]) && Settled(log.states[0]) && Slack(log.states[0]) == Slack(Now(log)) == 0
    requires Departures(log.states[0], Now(log)) == {id}
    requires target !in Strays(log.states[0]) && Strays(Now(log)) == Strays(log.states[0]) + {target}
    ensures Run(log.states[0], log.events) && LeakCount(log.states[0], log.events) == 1
  {
    SoundIsRun(log, |log.events|);
    assert log.events[..|log.events|] == log.events;
    LeaksAreExits(log.states[0], log.events);
    SettledStrays(log.states[0], log.events);
  }

  /** With the old primary closed and the target open, the target is the one stray more. */
  lemma OneStrayMore(p: State, f: State, id: OperationId, target: NodeId)
    requires Promising(p, id, target) && f.record == p.record
    requires f.modes == Demoted(p)[target := After(p.modes[target], PROMOTE, |PROMOTE|)]
    ensures Strays(f) == Strays(p) + {target} && f.record.primary !in OpenNodes(f.modes)
  {
    PromoteProgress(p.modes[target], |PROMOTE|);
    DemoteProgress(p.modes[p.record.primary], |DEMOTE|);
  }

  /** A switch whose call fails stores a failed task, and gives its operation and its lock back. */
  lemma GiveUp(log: Log, id: OperationId) returns (log': Log)
    requires Sound(log) && id in Now(log).threads && Now(log).threads[id].Switcher? && Working(Now(log).threads[id].pc)
    ensures SameStart(log', log)
    ensures var s, th := Now(log), Now(log).threads[id];
            Now(log') == s.(threads := s.threads[id := th.(pc := Released(Outcome(Failed, th.pc)))],
                            tasks := s.tasks[id := TaskFailed], operation := None, holder := None)
  {
    var s, o := Now(log), Outcome(Failed, Now(log).threads[id].pc);
    log' := ClosePhase(log, id, Failed);
    log' := ClearPhase(log', id, o);
    log' := ReleasePhase(log', id, o);
    assert Now(log').threads == s.threads[id := s.threads[id].(pc := Released(o))];
  }

  /** The log of a promotion whose last statement runs and whose reply is lost. */
  lemma LostPromotion(p: State, id: OperationId, target: NodeId) returns (log: Log)
    requires Promising(p, id, target)
    ensures SameStart(log, Fresh(p))
    ensures var f := Now(log);
            && f.record == p.record && f.tasks == p.tasks[id := TaskFailed] && f.holder.None?
            && Strays(f) == Strays(p) + {target} && f.record.primary !in OpenNodes(f.modes)
            && id in f.threads && HasExited(f, id) && f.threads == p.threads[id := f.threads[id]]
  {
    log := CatchUpTo(p, id, target);
    var at;
    log, at := PromotePhase(log, id, true, |PROMOTE|);
    log := GiveUp(log, id);
    OneStrayMore(p, Now(log), id, target);
    assert Now(log).tasks == p.tasks[id := TaskFailed];
  }

  /** The bound is tight: the target is one stray more, while the record still names a primary that is now closed; and
      in a reachable state the run has leaked exactly once. */
  lemma LostPromotionLeaks(p: State, id: OperationId, target: NodeId) returns (log: Log)
    requires Promising(p, id, target) && Inv(p)
    ensures SameStart(log, Fresh(p)) && Run(p, log.events)
    ensures var f := Now(log);
            && f.record == p.record && f.tasks == p.tasks[id := TaskFailed] && f.holder.None?
            && Strays(f) == Strays(p) + {target} && f.record.primary !in OpenNodes(f.modes)
            && LeakCount(p, log.events) == 1 && |Strays(f)| == |Strays(p)| + LeakCount(p, log.events)
  {
    log := LostPromotion(p, id, target);
    assert Departures(p, Now(log)) == {id};
    LeaksOnce(log, id, target);
  }

  /** The repointing loop runs through. */
  lemma {:induction false} LinkRest(log: Log, id: OperationId, rest: set<NodeId>) returns (log': Log)
    requires Sound(log) && id in Now(log).threads && Now(log).threads[id].Switcher?
    requires var s, th := Now(log), Now(log).threads[id];
             && th.pc.Linking? && Verify(s, AuthOf(id, th)) && th.target in s.modes
             && rest !! th.pc.done && th.target !in rest && rest <= s.modes.Keys
             && s.modes.Keys <= rest + th.pc.done + {th.target}
    ensures SameStart(log', log)
    ensures var s, s', th := Now(log), Now(log'), Now(log).threads[id];
            && s'.modes.Keys == s.modes.Keys && id in s'.threads
            && s' == s.(modes := s'.modes, threads := s.threads[id := s'.threads[id]])
            && s'.threads[id] == th.(pc := Linking(th.pc.done + rest))
    decreases rest
  {
    if rest == {} {
      log' := log;
      assert Now(log).threads[id].pc.done + rest == Now(log).threads[id].pc.done;
      assert Now(log).threads == Now(log).threads[id := Now(log).threads[id]];
    } else {
      var n :| n in rest;
      var at, one;
      one, at := LinkPhase(log, id, n, true, 6, true);
      log' := LinkRest(one, id, rest - {n});
      assert Now(log).threads[id].pc.done + {n} + (rest - {n}) == Now(log).threads[id].pc.done + rest;
      assert Now(log').threads == Now(log).threads[id := Now(log').threads[id]];
    }
  }

  lemma RecordIt(p: State, id: OperationId, target: NodeId) returns (log: Log)
    requires Promising(p, id, target)
    ensures SameStart(log, Fresh(p))
    ensures var f := Now(log);
            && f.modes.Keys == p.modes.Keys
            && f.record == p.record.(primary := target, epoch := p.record.epoch + 1)
            && f == Running(p, id, target, Linking({}), f.modes).(record := f.record)
  {
    log := CatchUpTo(p, id, target);
    var at;
    log, at := PromotePhase(log, id, true, |PROMOTE|);
    PromoteProgress(p.modes[target], |PROMOTE|);
    log := PromotedPhase(log, id);
    log := RecordPhase(log, id);
    assert Now(log).threads == p.threads[id := Switcher(target, p.record, false, Linking({}))];
  }

  /** If every call succeeds, the switch completes: the target is recorded one epoch later and the lock is free. */
  lemma UndisturbedSwitchCompletes(p: State, id: OperationId, target: NodeId) returns (log: Log)
    requires Promising(p, id, target)
    ensures SameStart(log, Fresh(p))
    ensures var f := Now(log);
            && f.record == p.record.(primary := target, epoch := p.record.epoch + 1)
            && f.tasks == p.tasks[id := TaskCompleted] && f.holder.None? && f.operation.None?
            && id in f.threads && f.threads[id].Switcher? && f.threads[id].pc.Released?
            && f.threads[id].pc.outcome.verdict.Succeeded?
  {
    log := RecordIt(p, id, target);
    log := LinkRest(log, id, p.modes.Keys - {target});
    log := ClosePhase(log, id, Succeeded);
    log := ClearPhase(log, id, Now(log).threads[id].pc.outcome);
    log := ReleasePhase(log, id, Now(log).threads[id].pc.outcome);
    assert Now(log).tasks == p.tasks[id := TaskCompleted];
  }
}
