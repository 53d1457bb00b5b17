/** The controller (internal/ha/controller.go) as imperative code over one store and one agent per node. Its `Switch` is
    proved to be part of a run of the protocol in which everybody else moves at will between its calls. */
module Controller {
  import opened Model
  import opened MySql
  import opened MySqlClient
  import opened MemoryStore
  import opened Fleet
  import opened Neighbours
  import opened Protocol
  import opened Invariant
  import opened Exits
  import opened Bursts
  import opened Targets
  import opened Alerts
  import opened Monitor
  import opened DryRuns

  datatype Config = Config(executeActions: bool, autoFailoverExecute: bool, failureThreshold: nat, maxReplicaLag: int)

  lemma Overwrite<K, V>(m: map<K, V>, k: K, a: V, b: V)
    ensures m[k := a][k := b] == m[k := b]
  {}

  /** A log that starts in a state that satisfies the invariant ends in one. */
  lemma LogKeeps(log: Log)
    requires Sound(log) && Inv(log.states[0])
    ensures Inv(Now(log))
  {
    SoundIsRun(log, |log.events|);
    RunInv(log.states[0], log.events[..|log.events|]);
  }

  /** What the switch has made of the cluster from lock time `s` to `f`, if `p` was reachable: the lock was taken in a
      reachable state, and the class of the switch's last point says what was done since. */
  ghost predicate Accounts(p: State, s: State, f: State, id: OperationId, at: Pc) {
    Inv(p) ==> TookLock(s, id) && Accounted(s, f, id, at)
  }

  /** A switch that got the lock at the end of `before` and gave it back at the end of `log`. */
  lemma SwitchAccounts(before: Log, log: Log, id: OperationId, o: Outcome)
    requires Stands(before, id, Locked) && Now(before).holder == Some(id)
    requires SameStart(log, Fresh(Now(before))) && Ends(log, id, o)
    ensures Accounts(before.states[0], Now(before), Now(log), id, o.at)
  {
    if Inv(before.states[0]) {
      LogKeeps(before);
      var held := OneLess(log);
      HeldLogHasItsClass(Now(before), id, held, o);
    }
  }

  /** A log from lock time on, before the lock is given back, has done what its class says. */
  lemma HeldLogHasItsClass(s: State, id: OperationId, log: Log, o: Outcome)
    requires TookLock(s, id) && SameStart(log, Fresh(s)) && Stands(log, id, Cleared(o))
    ensures Accounted(s, Now(log), id, o.at)
  {
    var es := log.events[..|log.events|];
    SoundIsRun(log, |log.events|);
    RunInv(s, es);
    assert HoldsLock(Now(log).threads[id]) <==> Now(log).holder == Some(id);
    EveryExitHasItsClass(s, es, id);
  }

  /** The log of a whole call of Switch from `p` on: if the switch got the lock, then in the state `locked`, and what it
      did from there to the release is accounted for. */
  ghost predicate Explains(log: Log, id: OperationId, p: State, locked: Option<State>, outcome: Outcome) {
    && SameStart(log, Fresh(p))
    && (locked.Some? ==>
          && locked.value in log.states && id in Now(log).threads && Now(log).threads[id].Switcher?
          && Now(log).threads[id].snap == p.record && Now(log).threads[id].pc == Released(outcome)
          && Accounts(p, locked.value, Now(log), id, outcome.at))
  }

  /** The log of a switch up to the lock, and its log from there to the release. */
  ghost predicate Spans(p: State, before: Log, rest: Log, id: OperationId, o: Outcome) {
    && SameStart(before, Fresh(p)) && Stands(before, id, Locked) && Now(before).holder == Some(id)
    && Now(before).threads[id].snap == p.record && SameStart(rest, Fresh(Now(before))) && Ends(rest, id, o)
    && id in Now(rest).threads && Now(rest).threads[id] == Now(before).threads[id].(pc := Released(o))
  }

  /** Both in one. */
  lemma JoinExplains(p: State, before: Log, rest: Log, id: OperationId, o: Outcome) returns (log: Log)
    requires Spans(p, before, rest, id, o)
    ensures Explains(log, id, p, Some(Now(before)), o) && Now(log) == Now(rest)
  {
    SwitchAccounts(before, rest, id, o);
    log := Join(before, rest);
  }

  /** The log has led to the setting `c`, and the thread `id`, which is none of the others, stands at `th`. */
  ghost predicate Tracks(c: Setting, log: Log, id: OperationId, th: Thread) {
    Sound(log) && Matches(c, Now(log)) && id in Now(log).threads && Now(log).threads[id] == th && id !in c.threads
  }

  /** The log has led to the setting `c`, and the id `id` is not in use. */
  ghost predicate Free(c: Setting, log: Log, id: OperationId) {
    Sound(log) && Matches(c, Now(log)) && id !in Now(log).threads
  }

  /** A move of the thread `id` that changes one server leaves everything else where it was. */
  lemma TracksOn(c: Setting, c': Setting, log0: Log, log: Log, id: OperationId, th: Thread, pc: Pc, n: NodeId, m: Mode)
    requires Tracks(c, log0, id, th) && th.Switcher? && Sound(log) && c' == c.(modes := c.modes[n := m])
    requires Now(log) == Moved(Now(log0), id, pc, n, m)
    ensures Tracks(c', log, id, th.(pc := pc))
  {}

  /** So does one during which a server replicated. */
  lemma TracksGrown(c: Setting, c': Setting, log0: Log, log: Log, id: OperationId, th: Thread, pc: Pc, n: NodeId,
                    now: set<Txn>)
    requires Tracks(c, log0, id, th) && th.Switcher? && Sound(log) && c' == c.(executed := c.executed[n := now])
    requires Now(log) == SetPc(Now(log0), id, pc).(executed := Now(log0).executed[n := now])
    ensures Tracks(c', log, id, th.(pc := pc))
  {}

  /** What a call of Switch leaves behind in the setting `c`, whatever the others did meanwhile: its log is a run of the
      protocol and ends in `c`; a refusal under the lock has touched nothing; a task is stored in its final state, which
      is "completed" exactly if the repointing loop came to its end; and the log accounts for the switch, with or
      without a task, from the state `locked` on in which it got the lock. */
  ghost predicate Settles(c: Setting, id: OperationId, p: State, result: Option<SwitchTask>, log: Log, outcome: Outcome,
                          locked: Option<State>)
  {
    && Explains(log, id, p, locked, outcome) && Matches(c, Now(log)) && id !in c.threads && (locked.Some? ==> !c.locked)
    && (result.None? ==> outcome.verdict.Aborted? && ClassOf(outcome.at).Untouched?)
    && (result.Some? ==>
          var task := result.value;
          && locked.Some? && task.id == id && (task.dryRun <==> task.state.TaskDryRun?)
          && task.state == Final(outcome.verdict) && id in c.tasks && c.tasks[id] == task
          && (task.state.TaskCompleted? <==> outcome.at == Linking(c.modes.Keys - {task.to}))
          && Now(log).threads[id].target == task.to && Now(log).threads[id].dryRun == task.dryRun)
  }

  /** What the code itself knows of the result, on the nodes `keys`. */
  ghost predicate Returns(tasks: map<OperationId, SwitchTask>, keys: set<NodeId>, task: SwitchTask,
                          result: Option<SwitchTask>, outcome: Outcome)
  {
    if result.None? then outcome.verdict.Aborted? && ClassOf(outcome.at).Untouched?
    else
      && result.value == task.(state := Final(outcome.verdict)) && task.id in tasks && tasks[task.id] == result.value
      && (task.dryRun <==> outcome.verdict.DryRan?)
      && (outcome.verdict.Succeeded? <==> outcome.at == Linking(keys - {task.to})) && Working(outcome.at)
  }

  /** The target of a switch, if there is one: for the leader another configured node that is asked for or, if none is,
      the best replica. Without one the controller does not lead, or the node asked for will not do, or no replica is
      eligible, or one that is not configured. */
  ghost predicate Aimed(cfg: Config, statuses: map<NodeId, NodeStatus>, nodes: set<NodeId>, leader: bool,
                        requested: NodeId, primary: NodeId, target: Option<NodeId>)
  {
    match target
    case Some(to) =>
      && leader && to in nodes && to != primary
      && if requested != NOBODY then to == requested else Best(statuses, primary, cfg.maxReplicaLag, to)
    case None =>
      || !leader
      || if requested != NOBODY then requested !in nodes || requested == primary
         else
           || (forall id <- nodes :: !Eligible(statuses, primary, cfg.maxReplicaLag, id))
           || exists id :: id !in nodes && Eligible(statuses, primary, cfg.maxReplicaLag, id)
  }

  /** A switch stores a task exactly for a candidate that passes, if it gets as far as looking at one. */
  ghost predicate Judged(seen: NodeStatus, lax: bool, maxLag: int, result: Option<SwitchTask>, outcome: Outcome) {
    && (result.Some? ==> Passes(seen, lax, maxLag))
    && (outcome.at.Agreed? ==> result.None? && !Passes(seen, lax, maxLag))
  }

  ghost predicate Completed(result: Option<SwitchTask>) {
    result.Some? && result.value.state.TaskCompleted?
  }

  /** What a switch that finds the lock free comes to when nobody interferes, from the record, modes and executed sets
      of `c`: it stores a task exactly for a candidate that passes; and if moreover every call is answered, the switch
      is not a dry run and `named` says that the target's address is configured, then it completes exactly if the target
      runs as a replica and the primary is configured and has executed something. */
  ghost predicate Foreseen(c: Setting, free: bool, faultless: bool, named: bool, maxLag: int, draft: SwitchTask,
                           result: Option<SwitchTask>, outcome: Outcome, seen: NodeStatus)
    requires draft.to in c.modes
  {
    var m, from := c.modes[draft.to], c.record.primary;
    && (result.Some? || outcome.at.Agreed? ==> Describes(seen, m) && (faultless ==> seen == Plain(m)))
    && (result.Some? || outcome.at.Agreed? <==> free && from != NOBODY)
    && (faultless && !draft.dryRun ==>
          (Completed(result) <==>
           && free && ReportsReplica(m) && m.started && 0 <= maxLag && named
           && from != NOBODY && from in c.executed && c.executed[from] != {}))
  }

  /** The two settings have the same record and servers. */
  ghost predicate SameScene(c: Setting, d: Setting) {
    c.record == d.record && c.modes == d.modes && c.executed == d.executed
  }

  /** If the lock was taken, then with the record and the modes of `c`. */
  ghost predicate TakenIn(c: Setting, locked: Option<State>) {
    locked.Some? ==> locked.value.modes == c.modes && locked.value.record == c.record
  }

  lemma RefusalForeseen(c: Setting, faultless: bool, named: bool, maxLag: int, draft: SwitchTask, at: Pc,
                        seen: NodeStatus)
    requires draft.to in c.modes && (if c.record.primary == NOBODY then at.Authorized? else at.Agreed?)
    requires at.Agreed? ==>
               && !Passes(seen, draft.dryRun && draft.automatic, maxLag) && Describes(seen, c.modes[draft.to])
               && (faultless ==> seen == Plain(c.modes[draft.to]))
    ensures Foreseen(c, true, faultless, named, maxLag, draft, None, Outcome(Aborted, at), seen)
  {}

  lemma TaskForeseen(c: Setting, faultless: bool, named: bool, maxLag: int, draft: SwitchTask, task: SwitchTask,
                     outcome: Outcome, seen: NodeStatus)
    requires draft.to in c.modes && c.record.primary != NOBODY
    requires Passes(seen, draft.dryRun && draft.automatic, maxLag) && Describes(seen, c.modes[draft.to])
    requires faultless ==> seen == Plain(c.modes[draft.to])
    requires faultless && !draft.dryRun ==>
               (task.state.TaskCompleted? <==>
                named && c.record.primary in c.executed && c.executed[c.record.primary] != {})
    ensures Foreseen(c, true, faultless, named, maxLag, draft, Some(task), outcome, seen)
  {}

  /** A switch with an accepted target has run its course in the setting `c`, in two logs if it found the lock free. */
  ghost predicate Conducted(c: Setting, p: State, before: Log, rest: Option<Log>, draft: SwitchTask,
                            result: Option<SwitchTask>, outcome: Outcome)
  {
    && Returns(c.tasks, c.modes.Keys, draft, result, outcome)
    && var th := Switcher(draft.to, p.record, draft.dryRun, Released(outcome));
       if rest.None? then result.None? && SameStart(before, Fresh(p)) && Tracks(c, before, draft.id, th)
       else !c.locked && Spans(p, before, rest.value, draft.id, outcome) && Tracks(c, rest.value, draft.id, th)
  }

  /** From the lock on, in the log `log`. */
  ghost predicate RanLocked(c: Setting, log0: Log, log: Log, snap: ClusterState, draft: SwitchTask,
                            result: Option<SwitchTask>, outcome: Outcome)
  {
    && SameStart(log, log0) && Ends(log, draft.id, outcome) && !c.locked
    && Returns(c.tasks, c.modes.Keys, draft, result, outcome)
    && Tracks(c, log, draft.id, Switcher(draft.to, snap, draft.dryRun, Released(outcome)))
  }

  lemma RanFromTheLock(c: Setting, log0: Log, mid: Log, log: Log, snap: ClusterState, draft: SwitchTask,
                       result: Option<SwitchTask>, outcome: Outcome)
    requires SameStart(mid, log0) && RanLocked(c, mid, log, snap, draft, result, outcome)
    ensures RanLocked(c, log0, log, snap, draft, result, outcome)
  {}

  lemma TaskRan(c: Setting, log0: Log, log: Log, snap: ClusterState, running: SwitchTask, task: SwitchTask, v: Verdict,
                at: Pc)
    requires SameStart(log, log0) && Ends(log, running.id, Outcome(v, at)) && !c.locked && Working(at)
    requires Tracks(c, log, running.id, Switcher(running.to, snap, running.dryRun, Released(Outcome(v, at))))
    requires task == running.(state := Final(v)) && running.id in c.tasks && c.tasks[running.id] == task
    requires (v.DryRan? <==> running.dryRun) && (v.Succeeded? <==> at == Linking(c.modes.Keys - {running.to}))
    ensures RanLocked(c, log0, log, snap, running, Some(task), Outcome(v, at))
  {}

  lemma RefusalRan(c: Setting, log0: Log, log: Log, snap: ClusterState, draft: SwitchTask, at: Pc)
    requires SameStart(log, log0) && Ends(log, draft.id, Outcome(Aborted, at)) && !c.locked
    requires at.Authorized? || at.Agreed?
    requires Tracks(c, log, draft.id, Switcher(draft.to, snap, draft.dryRun, Released(Outcome(Aborted, at))))
    ensures RanLocked(c, log0, log, snap, draft, None, Outcome(Aborted, at))
  {}

  lemma LockedIsConducted(c0: Setting, c: Setting, p: State, before: Log, log: Log, draft: SwitchTask,
                          result: Option<SwitchTask>, outcome: Outcome)
    requires SameStart(before, Fresh(p)) && Now(before).holder == Some(draft.id)
    requires Tracks(c0, before, draft.id, Switcher(draft.to, p.record, draft.dryRun, Locked))
    requires RanLocked(c, Fresh(Now(before)), log, p.record, draft, result, outcome)
    ensures Conducted(c, p, before, Some(log), draft, result, outcome)
  {}

  lemma RefusedIsConducted(c: Setting, p: State, before: Log, draft: SwitchTask)
    requires SameStart(before, Fresh(p))
    requires Tracks(c, before, draft.id, Switcher(draft.to, p.record, draft.dryRun, Released(Outcome(Aborted, Ready))))
    ensures Conducted(c, p, before, None, draft, None, Outcome(Aborted, Ready))
  {}

  /** A switch that never began leaves everything as it was. */
  lemma UnbegunSettles(c: Setting, id: OperationId, p: State)
    requires Free(c, Fresh(p), id)
    ensures Settles(c, id, p, None, Fresh(p), Outcome(Aborted, Ready), None)
  {}

  lemma ConductedSettles(c: Setting, p: State, before: Log, rest: Option<Log>, draft: SwitchTask,
                         result: Option<SwitchTask>, outcome: Outcome)
    returns (log: Log, locked: Option<State>)
    requires Conducted(c, p, before, rest, draft, result, outcome)
    ensures Settles(c, draft.id, p, result, log, outcome, locked) && draft.id in Now(log).threads
    ensures Now(log).threads[draft.id] == Switcher(draft.to, p.record, draft.dryRun, Released(outcome))
    ensures locked == if rest.Some? then Some(Now(before)) else None
  {
    if rest.Some? {
      log := JoinExplains(p, before, rest.value, draft.id, outcome);
      locked := Some(Now(before));
    } else {
      log, locked := before, None;
    }
  }

  // --- Automatic failover, in terms of the remembered statuses ---

  /** The primary has failed as often as it takes. */
  ghost predicate Failing(cfg: Config, statuses: map<NodeId, NodeStatus>, primary: NodeId) {
    primary in statuses && !statuses[primary].healthy && statuses[primary].failureCount >= cfg.failureThreshold
  }

  /** The replica to turn to. */
  ghost predicate Chosen(cfg: Config, statuses: map<NodeId, NodeStatus>, primary: NodeId, target: NodeId) {
    if cfg.autoFailoverExecute then Best(statuses, primary, cfg.maxReplicaLag, target)
    else BestReport(statuses, primary, target)
  }

  /** There is one. */
  ghost predicate HasChoice(cfg: Config, statuses: map<NodeId, NodeStatus>, primary: NodeId) {
    if cfg.autoFailoverExecute then exists id :: Eligible(statuses, primary, cfg.maxReplicaLag, id)
    else exists id <- statuses :: id != primary && CanReport(statuses, id)
  }

  /** When an automatic failover is attempted: the primary is failing, no switch was `under` way, it was not the one
      reported `last` unless the controller acts, and there is a replica to turn to. */
  ghost predicate Due(cfg: Config, statuses: map<NodeId, NodeStatus>, primary: NodeId, under: bool, last: NodeId) {
    && Failing(cfg, statuses, primary) && !under && (cfg.autoFailoverExecute || last != primary)
    && HasChoice(cfg, statuses, primary)
  }

  /** The switch `id` was attempted, from the primary to the replica of choice. */
  ghost predicate Attempted(cfg: Config, statuses: map<NodeId, NodeStatus>, primary: NodeId, id: OperationId,
                            threads: map<OperationId, Thread>)
  {
    && id in threads && threads[id].Switcher? && threads[id].snap.primary == primary
    && Chosen(cfg, statuses, primary, threads[id].target)
  }

  /** A task that an automatic failover stores is about a primary that is failing and the replica of choice. */
  ghost predicate Justified(cfg: Config, statuses: map<NodeId, NodeStatus>, tasks: map<OperationId, SwitchTask>,
                            primary: NodeId, id: OperationId, task: SwitchTask)
  {
    && task.id == id && task.automatic && Failing(cfg, statuses, primary) && Chosen(cfg, statuses, primary, task.to)
    && id in tasks && tasks[id] == task && (!cfg.autoFailoverExecute ==> task.state.TaskDryRun?)
  }

  /** What a probe without others does about the record `r` it finds: with a primary and the flag on, the leader
      attempts a failover exactly when it is due; without a primary nobody does, and `primary` is what the statuses
      show. */
  ghost predicate Responds(cfg: Config, statuses: map<NodeId, NodeStatus>, r: ClusterState, leader: bool, under: bool,
                           last: NodeId, id: OperationId, threads: map<OperationId, Thread>, primary: NodeId)
  {
    && (if r.primary != NOBODY then primary == r.primary else Detected(statuses, primary))
    && if r.primary != NOBODY && r.autoFailover && leader && Due(cfg, statuses, primary, under, last)
       then Attempted(cfg, statuses, primary, id, threads)
       else id !in threads
  }

  class Controller {
    const cfg: Config
    const fleet: Fleet
    const store: MemoryStore
    const others: Neighbours                          // everybody else
    const monitor: Monitor
    var leader: bool
    var probing: bool                                 // the probe loop is the caller
    var tripping: bool
    var lastTask: Option<SwitchTask>
    var lastDryRunPrimary: NodeId

    constructor (cfg: Config, fleet: Fleet, others: Neighbours, monitor: Monitor)
      ensures this.cfg == cfg && this.fleet == fleet && this.store == fleet.store && this.others == others
      ensures this.monitor == monitor
      ensures !leader && !probing && !tripping && lastTask.None? && lastDryRunPrimary == NOBODY
    {
      this.cfg, this.fleet, this.store, this.others := cfg, fleet, fleet.store, others;
      this.monitor := monitor;
      leader, probing, tripping, lastTask, lastDryRunPrimary := false, false, false, None, NOBODY;
    }

    /** The probe loop's bootstrap is over when the loop makes a call. */
    ghost predicate Valid()
      reads this`probing, others, fleet
    {
      && others.store == store && others.fleet == fleet
      && monitor.nodes == fleet.addresses.Keys && monitor.threshold == cfg.failureThreshold
      && others.Valid() && (probing ==> others.probe.Idle?)
    }

    ghost function Current(): Setting
      reads others, others.store, others.fleet
    {
      others.Current()
    }

    twostate predicate Quiet()
      reads others, store, fleet
    {
      unchanged(fleet) && unchanged(store`cluster) && unchanged(others`used)
    }

    /** Without others nothing but the caller's own place has changed. */
    twostate predicate Calm()
      reads others, store, fleet
    {
      others.alone ==> Quiet() && unchanged(store`tasks)
    }

    /** The others move, between two calls of the thread `id`. */
    method Pause(id: OperationId, ghost log0: Log, ghost th: Thread) returns (ghost log: Log)
      requires Valid() && Tracks(Current(), log0, id, th)
      modifies others, store, fleet
      ensures Valid() && SameStart(log, log0) && Tracks(Current(), log, id, th)
      ensures id in old(store.tasks) ==> id in store.tasks && store.tasks[id] == old(store.tasks)[id]
      ensures others.alone ==> unchanged(others) && unchanged(store) && unchanged(fleet)
    {
      log := others.Pause(id, probing, log0);
    }

    /** Nobody interferes, every call is answered and the store accepts the operation. */
    ghost predicate Smooth(auth: SwitchAuthorization)
      reads store
    {
      others.alone && fleet.faultless && auth.operation != "" && Authorizes(store.cluster, store.operation, auth)
    }

    /** A read-only replica with a running channel. */
    ghost predicate Replicates(n: NodeId)
      reads fleet
    {
      n in fleet.modes && ReportsReplica(fleet.modes[n]) && fleet.modes[n].started
    }

    /** Without others only the mode of `n` has changed. */
    twostate predicate OnlyMode(n: NodeId)
      reads others, store, fleet
    {
      others.alone ==>
        && unchanged(store) && unchanged(fleet`executed)
        && (n in fleet.modes ==> fleet.modes == old(fleet.modes)[n := fleet.modes[n]])
    }

    // --- Demotion (internal/ha/controller.go:381-387) ---

    /** `entered` says that the agent let the switch in. */
    method CallDemote(from: NodeId, auth: SwitchAuthorization, id: OperationId, ghost log0: Log, ghost th: Thread)
      returns (ok: bool, ghost log: Log, ghost at: Pc, ghost entered: bool)
      requires Valid() && Tracks(Current(), log0, id, th) && th.Switcher? && th.pc.Started? && !th.dryRun
      requires from in fleet.addresses && from == th.snap.primary && auth == AuthOf(id, th)
      modifies fleet`modes
      ensures Valid() && SameStart(log, log0) && Tracks(Current(), log, id, th.(pc := at))
      ensures if ok then at == Demoting(|DEMOTE|) else at.Started? || at.Demoting?
      ensures (entered <==> at.Demoting?) && fleet.modes == old(fleet.modes)[from := fleet.modes[from]]
      ensures ok ==> fleet.modes[from].access.SuperReadOnly?
      ensures Smooth(auth) ==> ok
    {
      ghost var c, ran, said, heard := Current(), 0, false, false;
      ok, entered, ran, said, heard := fleet.Demote(from, auth);
      DemoteProgress(c.modes[from], ran);
      log, at := DemotePhase(log0, id, entered, ran);
      TracksOn(c, Current(), log0, log, id, th, at, from, After(c.modes[from], DEMOTE, ran));
    }

    method Demote(from: NodeId, auth: SwitchAuthorization, id: OperationId, ghost log0: Log, ghost th: Thread)
      returns (ok: bool, ghost log: Log, ghost at: Pc, ghost entered: bool)
      requires Valid() && Tracks(Current(), log0, id, th) && th.Switcher? && th.pc.Started? && !th.dryRun
      requires from in fleet.addresses && from == th.snap.primary && auth == AuthOf(id, th)
      modifies others, store, fleet
      ensures Valid() && SameStart(log, log0) && Tracks(Current(), log, id, th.(pc := at))
      ensures if ok then at == Demoting(|DEMOTE|) else at.Started? || at.Demoting?
      ensures (entered <==> at.Demoting?) && OnlyMode(from) && (ok ==> fleet.modes[from].access.SuperReadOnly?)
      ensures old(Smooth(auth)) ==> ok
    {
      log := Pause(id, log0, th);
      ok, log, at, entered := CallDemote(from, auth, id, log, th);
    }

    method SeeDemoted(from: NodeId, id: OperationId, ghost log0: Log, ghost th: Thread)
      returns (ok: bool, ghost log: Log, ghost at: Pc, ghost seen: NodeStatus)
      requires Valid() && Tracks(Current(), log0, id, th) && th.Switcher? && th.pc == Demoting(|DEMOTE|)
      requires from in fleet.addresses && from == th.snap.primary
      ensures Valid() && SameStart(log, log0) && Tracks(Current(), log, id, th.(pc := at))
      ensures if ok then at.Confirmed? else at.Demoting?
      ensures Describes(seen, fleet.modes[from]) && (ok <==> seen.reachable && seen.readOnly && seen.superReadOnly)
      ensures fleet.faultless && fleet.modes[from].access.SuperReadOnly? ==> ok
    {
      log, at := log0, th.pc;
      ghost var heard, ping, scanned;
      var demoted;
      demoted, heard, ping, scanned := fleet.Status(from);
      seen := demoted;
      ok := demoted.reachable && demoted.readOnly && demoted.superReadOnly;
      if ok {
        log := DemotedPhase(log, id);
        at := Confirmed;
      }
    }

    method ConfirmDemoted(from: NodeId, id: OperationId, ghost log0: Log, ghost th: Thread)
      returns (ok: bool, ghost log: Log, ghost at: Pc, ghost seen: NodeStatus)
      requires Valid() && Tracks(Current(), log0, id, th) && th.Switcher? && th.pc == Demoting(|DEMOTE|)
      requires from in fleet.addresses && from == th.snap.primary
      modifies others, store, fleet
      ensures Valid() && SameStart(log, log0) && Tracks(Current(), log, id, th.(pc := at))
      ensures if ok then at.Confirmed? else at.Demoting?
      ensures Describes(seen, fleet.modes[from]) && (ok <==> seen.reachable && seen.readOnly && seen.superReadOnly)
      ensures others.alone ==> unchanged(store) && unchanged(fleet)
      ensures others.alone && fleet.faultless && old(fleet.modes)[from].access.SuperReadOnly? ==> ok
    {
      log := Pause(id, log0, th);
      ok, log, at, seen := SeeDemoted(from, id, log, th);
    }

    // --- Catching up (internal/ha/controller.go:388-394) ---

    method CallExecutedGTID(from: NodeId, id: OperationId, ghost log0: Log, ghost th: Thread)
      returns (ok: bool, gtid: set<Txn>, ghost log: Log, ghost at: Pc)
      requires Valid() && Tracks(Current(), log0, id, th) && th.Switcher? && th.pc.Confirmed?
      requires from in fleet.addresses && from == th.snap.primary
      ensures Valid() && SameStart(log, log0) && Tracks(Current(), log, id, th.(pc := at))
      ensures if ok then at.Measured? && at.gtid == gtid == fleet.executed[from] else at.Confirmed?
      ensures fleet.faultless ==> ok
    {
      ok, gtid := fleet.ExecutedGTID(from);
      log, at := log0, th.pc;
      if ok {
        log := MeasurePhase(log, id);
        at := Measured(gtid);
      }
    }

    method Measure(from: NodeId, id: OperationId, ghost log0: Log, ghost th: Thread)
      returns (ok: bool, gtid: set<Txn>, ghost log: Log, ghost at: Pc)
      requires Valid() && Tracks(Current(), log0, id, th) && th.Switcher? && th.pc.Confirmed?
      requires from in fleet.addresses && from == th.snap.primary
      modifies others, store, fleet
      ensures Valid() && SameStart(log, log0) && Tracks(Current(), log, id, th.(pc := at))
      ensures if ok then at.Measured? && at.gtid == gtid == fleet.executed[from] else at.Confirmed?
      ensures others.alone ==> unchanged(store) && unchanged(fleet)
      ensures fleet.faultless ==> ok
    {
      log := Pause(id, log0, th);
      ok, gtid, log, at := CallExecutedGTID(from, id, log, th);
    }

    method CallWaitForGTID(target: NodeId, gtid: set<Txn>, auth: SwitchAuthorization, id: OperationId, ghost log0: Log,
                           ghost th: Thread)
      returns (ok: bool, ghost log: Log, ghost at: Pc)
      requires Valid() && Tracks(Current(), log0, id, th) && th.Switcher? && th.pc == Measured(gtid)
      requires target in fleet.addresses && target == th.target && auth == AuthOf(id, th)
      modifies fleet`executed
      ensures Valid() && SameStart(log, log0) && Tracks(Current(), log, id, th.(pc := at))
      ensures if ok then at.CaughtUp? else at.Measured?
      ensures Smooth(auth) && Replicates(target) ==> (ok <==> gtid != {})
    {
      ghost var c := Current();
      ghost var heard;
      ok, heard := fleet.WaitForGTID(target, auth, gtid, 30);
      log, at := CatchUpPhase(log0, id, gtid, fleet.executed[target], ok);
      TracksGrown(c, Current(), log0, log, id, th, at, target, fleet.executed[target]);
    }

    method CatchUp(target: NodeId, gtid: set<Txn>, auth: SwitchAuthorization, id: OperationId, ghost log0: Log,
                   ghost th: Thread)
      returns (ok: bool, ghost log: Log, ghost at: Pc)
      requires Valid() && Tracks(Current(), log0, id, th) && th.Switcher? && th.pc == Measured(gtid)
      requires target in fleet.addresses && target == th.target && auth == AuthOf(id, th)
      modifies others, store, fleet
      ensures Valid() && SameStart(log, log0) && Tracks(Current(), log, id, th.(pc := at))
      ensures if ok then at.CaughtUp? else at.Measured?
      ensures others.alone ==> unchanged(store) && unchanged(fleet`modes)
      ensures old(Smooth(auth)) && old(Replicates(target)) ==> (ok <==> gtid != {})
    {
      log := Pause(id, log0, th);
      ok, log, at := CallWaitForGTID(target, gtid, auth, id, log, th);
    }

    // --- Promotion (internal/ha/controller.go:395-400) ---

    method CallPromote(target: NodeId, auth: SwitchAuthorization, id: OperationId, ghost log0: Log, ghost th: Thread)
      returns (ok: bool, ghost log: Log, ghost at: Pc)
      requires Valid() && Tracks(Current(), log0, id, th) && th.Switcher? && th.pc.CaughtUp?
      requires target in fleet.addresses && target == th.target && auth == AuthOf(id, th)
      modifies fleet`modes
      ensures Valid() && SameStart(log, log0) && Tracks(Current(), log, id, th.(pc := at))
      ensures if ok then at == Promoting(|PROMOTE|) else at.CaughtUp? || at.Promoting?
      ensures ok ==> fleet.modes[target].access.Open?
      ensures Smooth(auth) && old(Replicates(target)) ==> ok
    {
      ghost var c, entered, ran, said, heard := Current(), false, 0, false, false;
      ok, entered, ran, said, heard := fleet.Promote(target, auth);
      PromoteProgress(c.modes[target], ran);
      log, at := PromotePhase(log0, id, entered, ran);
      TracksOn(c, Current(), log0, log, id, th, at, target, After(c.modes[target], PROMOTE, ran));
    }

    method Promote(target: NodeId, auth: SwitchAuthorization, id: OperationId, ghost log0: Log, ghost th: Thread)
      returns (ok: bool, ghost log: Log, ghost at: Pc)
      requires Valid() && Tracks(Current(), log0, id, th) && th.Switcher? && th.pc.CaughtUp?
      requires target in fleet.addresses && target == th.target && auth == AuthOf(id, th)
      modifies others, store, fleet
      ensures Valid() && SameStart(log, log0) && Tracks(Current(), log, id, th.(pc := at))
      ensures if ok then at == Promoting(|PROMOTE|) else at.CaughtUp? || at.Promoting?
      ensures others.alone ==> unchanged(store)
      ensures ok ==> fleet.modes[target].access.Open?
      ensures old(Smooth(auth)) && old(Replicates(target)) ==> ok
    {
      log := Pause(id, log0, th);
      ok, log, at := CallPromote(target, auth, id, log, th);
    }

    method SeePromoted(target: NodeId, id: OperationId, ghost log0: Log, ghost th: Thread)
      returns (ok: bool, ghost log: Log, ghost at: Pc)
      requires Valid() && Tracks(Current(), log0, id, th) && th.Switcher? && th.pc == Promoting(|PROMOTE|)
      requires target in fleet.addresses && target == th.target
      ensures Valid() && SameStart(log, log0) && Tracks(Current(), log, id, th.(pc := at))
      ensures if ok then at.Promoted? else at.Promoting?
      ensures fleet.faultless && fleet.modes[target].access.Open? ==> ok
    {
      log, at := log0, th.pc;
      ghost var heard, ping, scanned;
      var promoted;
      promoted, heard, ping, scanned := fleet.Status(target);
      ok := promoted.healthy && promoted.role == RolePrimary;
      if ok {
        log := PromotedPhase(log, id);
        at := Promoted;
      }
    }

    method ConfirmPromoted(target: NodeId, id: OperationId, ghost log0: Log, ghost th: Thread)
      returns (ok: bool, ghost log: Log, ghost at: Pc)
      requires Valid() && Tracks(Current(), log0, id, th) && th.Switcher? && th.pc == Promoting(|PROMOTE|)
      requires target in fleet.addresses && target == th.target
      modifies others, store, fleet
      ensures Valid() && SameStart(log, log0) && Tracks(Current(), log, id, th.(pc := at))
      ensures if ok then at.Promoted? else at.Promoting?
      ensures others.alone ==> unchanged(store) && unchanged(fleet)
      ensures others.alone && fleet.faultless && old(fleet.modes)[target].access.Open? ==> ok
    {
      log := Pause(id, log0, th);
      ok, log, at := SeePromoted(target, id, log, th);
    }

    // --- The record (internal/ha/controller.go:401-406) ---

    method CallPutClusterIfEpoch(snap: ClusterState, target: NodeId, id: OperationId, ghost log0: Log, ghost th: Thread)
      returns (ok: bool, ghost log: Log, ghost at: Pc)
      requires Valid() && Tracks(Current(), log0, id, th) && th.Switcher? && th.pc.Promoted? && th.snap == snap
      requires th.target == target
      modifies store`cluster
      ensures Valid() && SameStart(log, log0) && Tracks(Current(), log, id, th.(pc := at))
      ensures if ok then at == Linking({}) else at.Promoted?
      ensures ok <==> old(store.cluster).epoch == snap.epoch
      ensures store.cluster ==
              if ok then ClusterState(target, snap.epoch + 1, snap.autoFailover) else old(store.cluster)
    {
      log, at := log0, th.pc;
      ok := store.PutClusterIfEpoch(snap.epoch, snap.(primary := target, epoch := snap.epoch + 1));
      if ok {
        log := RecordPhase(log, id);
        at := Linking({});
      }
    }

    method RecordTarget(snap: ClusterState, target: NodeId, id: OperationId, ghost log0: Log, ghost th: Thread)
      returns (ok: bool, ghost log: Log, ghost at: Pc)
      requires Valid() && Tracks(Current(), log0, id, th) && th.Switcher? && th.pc.Promoted? && th.snap == snap
      requires th.target == target
      modifies others, store, fleet
      ensures Valid() && SameStart(log, log0) && Tracks(Current(), log, id, th.(pc := at))
      ensures if ok then at == Linking({}) else at.Promoted?
      ensures ok ==> store.cluster == ClusterState(target, snap.epoch + 1, snap.autoFailover)
      ensures others.alone ==> (ok <==> old(store.cluster).epoch == snap.epoch)
      ensures ok && old(Smooth(AuthOf(id, th))) ==> Smooth(AuthOf(id, th))
    {
      log := Pause(id, log0, th);
      ok, log, at := CallPutClusterIfEpoch(snap, target, id, log, th);
    }

    // --- Repointing (internal/ha/controller.go:410-417) ---

    method CallReconfigureReplica(n: NodeId, target: NodeId, auth: SwitchAuthorization, id: OperationId,
                                  ghost log0: Log, ghost th: Thread)
      returns (ok: bool, ghost log: Log, ghost at: Pc)
      requires Valid() && Tracks(Current(), log0, id, th) && th.Switcher? && th.pc.Linking? && n !in th.pc.done
      requires n in fleet.addresses && n != target && target in fleet.addresses && target == th.target
      requires auth == AuthOf(id, th)
      modifies fleet`modes
      ensures Valid() && SameStart(log, log0) && Tracks(Current(), log, id, th.(pc := at))
      ensures if ok then at == Linking(th.pc.done + {n}) else PastRecord(at) && (at == th.pc || at.Relinking?)
      ensures Smooth(auth) ==> (ok <==> fleet.addresses[target] != "")
    {
      ghost var c, entered, ran, said, heard := Current(), false, 0, false, false;
      ok, entered, ran, said, heard := fleet.ReconfigureReplica(n, auth, target);
      log, at := LinkPhase(log0, id, n, entered, ran, ok);
      TracksOn(c, Current(), log0, log, id, th, at, n, After(c.modes[n], Link(target), ran));
    }

    method Repoint(n: NodeId, target: NodeId, auth: SwitchAuthorization, id: OperationId, ghost log0: Log,
                   ghost th: Thread)
      returns (ok: bool, ghost log: Log, ghost at: Pc)
      requires Valid() && Tracks(Current(), log0, id, th) && th.Switcher? && th.pc.Linking? && n !in th.pc.done
      requires n in fleet.addresses && n != target && target in fleet.addresses && target == th.target
      requires auth == AuthOf(id, th)
      modifies others, store, fleet
      ensures Valid() && SameStart(log, log0) && Tracks(Current(), log, id, th.(pc := at))
      ensures if ok then at == Linking(th.pc.done + {n}) else PastRecord(at) && (at == th.pc || at.Relinking?)
      ensures others.alone ==> unchanged(store)
      ensures old(Smooth(auth)) ==> (ok <==> fleet.addresses[target] != "")
    {
      log := Pause(id, log0, th);
      ok, log, at := CallReconfigureReplica(n, target, auth, id, log, th);
    }

    /** Ranges over the nodes in any order and stops at the first failure. */
    method RepointOthers(target: NodeId, auth: SwitchAuthorization, id: OperationId, ghost log0: Log, ghost th: Thread)
      returns (ok: bool, ghost log: Log, ghost at: Pc)
      requires Valid() && Tracks(Current(), log0, id, th) && th.Switcher? && th.pc == Linking({})
      requires target in fleet.addresses && target == th.target && auth == AuthOf(id, th)
      modifies others, store, fleet
      ensures Valid() && SameStart(log, log0) && Tracks(Current(), log, id, th.(pc := at))
      ensures PastRecord(at) && (ok <==> at == Linking(fleet.addresses.Keys - {target}))
      ensures others.alone ==> unchanged(store)
      ensures old(Smooth(auth)) ==> (ok <==> fleet.addresses.Keys - {target} == {} || fleet.addresses[target] != "")
    {
      log := log0;
      var rest := fleet.addresses.Keys - {target};
      ghost var done: set<NodeId> := {};
      while rest != {}
        invariant Valid() && SameStart(log, log0) && Tracks(Current(), log, id, th.(pc := Linking(done)))
        invariant Splits(fleet.addresses.Keys - {target}, done, rest)
        invariant others.alone ==> unchanged(store)
        invariant old(Smooth(auth)) && fleet.addresses[target] == "" ==> done == {}
        decreases rest
      {
        var n :| n in rest;
        OneDone(fleet.addresses.Keys - {target}, done, rest, n);
        rest := rest - {n};
        ok, log, at := Repoint(n, target, auth, id, log, th.(pc := Linking(done)));
        if !ok {
          return;
        }
        done := done + {n};
      }
      ok, at := true, Linking(done);
    }

    // --- The work of a switch (internal/ha/controller.go:374-424) ---

    /** From the running task to a primary that is seen closed. */
    method CloseOld(from: NodeId, auth: SwitchAuthorization, id: OperationId, ghost log0: Log, ghost th: Thread)
      returns (ok: bool, ghost log: Log, ghost at: Pc, ghost entered: bool, ghost told: bool, ghost seen: NodeStatus)
      requires Valid() && Tracks(Current(), log0, id, th) && th.Switcher? && th.pc.Started? && !th.dryRun
      requires from == th.snap.primary && auth == AuthOf(id, th)
      modifies others, store, fleet
      ensures Valid() && SameStart(log, log0) && Tracks(Current(), log, id, th.(pc := at))
      ensures if ok then at.Confirmed? && from in fleet.addresses else at.Started? || at.Demoting?
      ensures at.Started? <==> from !in fleet.addresses || !entered
      ensures ok <==> from in fleet.addresses && told && seen.reachable && seen.readOnly && seen.superReadOnly
      ensures from in fleet.addresses && told ==> Describes(seen, fleet.modes[from])
      ensures OnlyMode(from)
      ensures old(Smooth(auth)) ==> (ok <==> from in fleet.addresses)
    {
      entered, told, seen := false, false, UNREACHABLE;
      if from !in fleet.addresses {
        return false, log0, th.pc, entered, told, seen;
      }
      ok, log, at, entered := Demote(from, auth, id, log0, th);
      told := ok;
      if !ok {
        return;
      }
      ok, log, at, seen := ConfirmDemoted(from, id, log, th.(pc := at));
    }

    /** From there to a target that has caught up. */
    method Follow(from: NodeId, target: NodeId, auth: SwitchAuthorization, id: OperationId, ghost log0: Log,
                  ghost th: Thread)
      returns (ok: bool, ghost log: Log, ghost at: Pc)
      requires Valid() && Tracks(Current(), log0, id, th) && th.Switcher? && th.pc.Confirmed?
      requires from in fleet.addresses && from == th.snap.primary
      requires target in fleet.addresses && target == th.target && auth == AuthOf(id, th)
      modifies others, store, fleet
      ensures Valid() && SameStart(log, log0) && Tracks(Current(), log, id, th.(pc := at))
      ensures if ok then at.CaughtUp? else at.Confirmed? || at.Measured?
      ensures others.alone ==> unchanged(store) && unchanged(fleet`modes)
      ensures old(Smooth(auth)) && old(Replicates(target)) ==> (ok <==> old(fleet.executed)[from] != {})
    {
      var gtid;
      ok, gtid, log, at := Measure(from, id, log0, th);
      if !ok {
        return;
      }
      ok, log, at := CatchUp(target, gtid, auth, id, log, th.(pc := at));
    }

    /** From there to one that is seen open. */
    method OpenTarget(target: NodeId, auth: SwitchAuthorization, id: OperationId, ghost log0: Log, ghost th: Thread)
      returns (ok: bool, ghost log: Log, ghost at: Pc)
      requires Valid() && Tracks(Current(), log0, id, th) && th.Switcher? && th.pc.CaughtUp?
      requires target in fleet.addresses && target == th.target && auth == AuthOf(id, th)
      modifies others, store, fleet
      ensures Valid() && SameStart(log, log0) && Tracks(Current(), log, id, th.(pc := at))
      ensures if ok then at.Promoted? else at.CaughtUp? || at.Promoting?
      ensures others.alone ==> unchanged(store)
      ensures old(Smooth(auth)) && old(Replicates(target)) ==> ok
    {
      ok, log, at := Promote(target, auth, id, log0, th);
      if !ok {
        return;
      }
      ok, log, at := ConfirmPromoted(target, id, log, th.(pc := at));
    }

    /** Both together. */
    method Raise(from: NodeId, target: NodeId, auth: SwitchAuthorization, id: OperationId, ghost log0: Log,
                 ghost th: Thread)
      returns (ok: bool, ghost log: Log, ghost at: Pc)
      requires Valid() && Tracks(Current(), log0, id, th) && th.Switcher? && th.pc.Confirmed?
      requires from in fleet.addresses && from == th.snap.primary
      requires target in fleet.addresses && target == th.target && auth == AuthOf(id, th)
      modifies others, store, fleet
      ensures Valid() && SameStart(log, log0) && Tracks(Current(), log, id, th.(pc := at))
      ensures Working(at) && !at.Linking? && (ok ==> at.Promoted?)
      ensures others.alone ==> unchanged(store)
      ensures old(Smooth(auth)) && old(Replicates(target)) ==> (ok <==> old(fleet.executed)[from] != {})
    {
      ok, log, at := Follow(from, target, auth, id, log0, th);
      if !ok {
        return;
      }
      ok, log, at := OpenTarget(target, auth, id, log, th.(pc := at));
    }

    /** The three together. */
    method HandOver(from: NodeId, target: NodeId, auth: SwitchAuthorization, id: OperationId, ghost log0: Log,
                    ghost th: Thread)
      returns (ok: bool, ghost log: Log, ghost at: Pc)
      requires Valid() && Tracks(Current(), log0, id, th) && th.Switcher? && th.pc.Started? && !th.dryRun
      requires from == th.snap.primary && target in fleet.addresses && target == th.target && auth == AuthOf(id, th)
      modifies others, store, fleet
      ensures Valid() && SameStart(log, log0) && Tracks(Current(), log, id, th.(pc := at))
      ensures Working(at) && !at.Linking? && (ok ==> at.Promoted?)
      ensures others.alone ==> unchanged(store)
      ensures old(Smooth(auth)) && old(Replicates(target)) && from != target ==>
                (ok <==> from in fleet.addresses && old(fleet.executed)[from] != {})
    {
      ghost var entered, told, seen;
      ok, log, at, entered, told, seen := CloseOld(from, auth, id, log0, th);
      if !ok {
        return;
      }
      ok, log, at := Raise(from, target, auth, id, log, th.(pc := at));
    }

    /** From there to the end of the repointing loop. */
    method Establish(snap: ClusterState, target: NodeId, auth: SwitchAuthorization, id: OperationId, ghost log0: Log,
                     ghost th: Thread)
      returns (ok: bool, ghost log: Log, ghost at: Pc)
      requires Valid() && Tracks(Current(), log0, id, th) && th.Switcher? && th.pc.Promoted?
      requires th.snap == snap && target in fleet.addresses && target == th.target && auth == AuthOf(id, th)
      modifies others, store, fleet
      ensures Valid() && SameStart(log, log0) && Tracks(Current(), log, id, th.(pc := at)) && Working(at)
      ensures ok <==> at == Linking(fleet.addresses.Keys - {target})
      ensures old(Smooth(auth)) && old(store.cluster).epoch == snap.epoch ==>
                (ok <==> fleet.addresses.Keys - {target} == {} || fleet.addresses[target] != "")
    {
      ok, log, at := RecordTarget(snap, target, id, log0, th);
      if !ok {
        return;
      }
      ok, log, at := RepointOthers(target, auth, id, log, Switcher(target, snap, th.dryRun, Linking({})));
    }

    /** What the servers and the configuration have to offer for a switch to complete. */
    ghost predicate Serviceable(from: NodeId, target: NodeId)
      reads fleet
    {
      && from in fleet.addresses && from in fleet.executed && fleet.executed[from] != {}
      && target in fleet.addresses && fleet.addresses[target] != ""
    }

    /** `at` is the last point reached: the end of the repointing loop, or where a call failed. */
    method Work(snap: ClusterState, target: NodeId, auth: SwitchAuthorization, id: OperationId, ghost log0: Log,
                ghost th: Thread)
      returns (ok: bool, ghost log: Log, ghost at: Pc)
      requires Valid() && Tracks(Current(), log0, id, th) && th.Switcher? && th.pc.Started? && !th.dryRun
      requires th.snap == snap && target in fleet.addresses && target == th.target && auth == AuthOf(id, th)
      modifies others, store, fleet
      ensures Valid() && SameStart(log, log0) && Tracks(Current(), log, id, th.(pc := at))
      ensures Working(at)
      ensures ok <==> at == Linking(fleet.addresses.Keys - {target})
      ensures old(Smooth(auth)) && old(Replicates(target)) && old(store.cluster).epoch == snap.epoch ==>
                snap.primary != target ==> (ok <==> old(Serviceable(snap.primary, target)))
    {
      ok, log, at := HandOver(snap.primary, target, auth, id, log0, th);
      if !ok {
        return;
      }
      ok, log, at := Establish(snap, target, auth, id, log, th.(pc := at));
      assert snap.primary in fleet.addresses && snap.primary != target ==>
               snap.primary in fleet.addresses.Keys - {target};
    }

    // --- Under the lock (internal/ha/controller.go:317-372 and 422-435) ---

    method Place(auth: SwitchAuthorization, id: OperationId, ghost log0: Log, ghost th: Thread) returns (ghost log: Log)
      requires Valid() && Tracks(Current(), log0, id, th) && th.Switcher? && th.pc.Locked? && auth == AuthOf(id, th)
      modifies store`operation
      ensures Valid() && SameStart(log, log0) && Tracks(Current(), log, id, th.(pc := Authorized))
      ensures store.operation == Some(auth)
    {
      store.PlaceOperation(auth);
      log := PlacePhase(log0, id);
    }

    method Compare(snap: ClusterState, target: NodeId, id: OperationId, ghost log0: Log, ghost th: Thread)
      returns (ok: bool, ghost log: Log, ghost at: Pc)
      requires Valid() && Tracks(Current(), log0, id, th) && th.Switcher? && th.pc.Authorized? && th.snap == snap
      requires target == th.target
      ensures SameStart(log, log0) && Tracks(Current(), log, id, th.(pc := at))
      ensures if ok then at.Agreed? else at.Authorized?
      ensures ok <==>
              && store.cluster.epoch == snap.epoch && store.cluster.primary == snap.primary
              && store.cluster.primary != NOBODY && target != store.cluster.primary
    {
      log, at := log0, th.pc;
      var now := store.GetCluster();
      ok := !(now.epoch != snap.epoch || now.primary != snap.primary || now.primary == NOBODY || target == now.primary);
      if ok {
        log := RereadPhase(log, id);
        at := Agreed;
      }
    }

    /** Places the operation, */
    method Announce(auth: SwitchAuthorization, id: OperationId, ghost log0: Log, ghost th: Thread)
      returns (ghost log: Log)
      requires Valid() && Tracks(Current(), log0, id, th) && th.Switcher? && th.pc.Locked? && auth == AuthOf(id, th)
      modifies others, store, fleet
      ensures Valid() && SameStart(log, log0) && Tracks(Current(), log, id, th.(pc := Authorized)) && Calm()
      ensures store.operation == Some(auth)
    {
      log := Pause(id, log0, th);
      log := Place(auth, id, log, th);
    }

    /** and re-reads the record. */
    method Reread(snap: ClusterState, target: NodeId, id: OperationId, ghost log0: Log, ghost th: Thread)
      returns (ok: bool, ghost log: Log, ghost at: Pc)
      requires Valid() && Tracks(Current(), log0, id, th) && th.Switcher? && th.pc.Authorized? && th.snap == snap
      requires target == th.target
      modifies others, store, fleet
      ensures Valid() && SameStart(log, log0) && Tracks(Current(), log, id, th.(pc := at)) && Calm()
      ensures if ok then at.Agreed? else at.Authorized?
      ensures ok <==>
              && store.cluster.epoch == snap.epoch && store.cluster.primary == snap.primary
              && store.cluster.primary != NOBODY && target != store.cluster.primary
      ensures others.alone ==> unchanged(store`operation)
    {
      log := Pause(id, log0, th);
      ok, log, at := Compare(snap, target, id, log, th);
    }

    method Look(target: NodeId, automatic: bool, dryRun: bool, id: OperationId, ghost log0: Log, ghost th: Thread)
      returns (ok: bool, ghost log: Log, ghost at: Pc, ghost seen: NodeStatus)
      requires Valid() && Tracks(Current(), log0, id, th) && th.Switcher? && th.pc.Agreed?
      requires target in fleet.addresses && target == th.target
      ensures SameStart(log, log0) && Tracks(Current(), log, id, th.(pc := at))
      ensures if ok then at.Checked? else at.Agreed?
      ensures Describes(seen, fleet.modes[target]) && (fleet.faultless ==> seen == Plain(fleet.modes[target]))
      ensures !(dryRun && automatic) ==>
                (ok <==>
                 && seen.healthy && seen.role == RoleReplica && seen.replica.Some? && seen.replica.value.ioRunning
                 && seen.replica.value.sqlRunning && seen.replica.value.secondsBehind.Some?
                 && seen.replica.value.secondsBehind.value <= cfg.maxReplicaLag)
      ensures dryRun && automatic ==>
                (ok <==>
                 && seen.reachable && seen.role == RoleReplica && seen.replica.Some?
                 && seen.replica.value.sqlRunning)
      ensures ok ==> ReportsReplica(fleet.modes[target])
      ensures fleet.faultless ==>
                (ok <==>
                 && ReportsReplica(fleet.modes[target]) && fleet.modes[target].started
                 && ((dryRun && automatic) || 0 <= cfg.maxReplicaLag))
    {
      log, at := log0, th.pc;
      ghost var heard, ping, scanned;
      var candidate;
      candidate, heard, ping, scanned := fleet.Status(target);
      seen := candidate;
      var eligible :=
        && candidate.healthy && candidate.replica.Some? && candidate.replica.value.ioRunning
        && candidate.replica.value.sqlRunning && candidate.replica.value.secondsBehind.Some?
        && candidate.replica.value.secondsBehind.value <= cfg.maxReplicaLag;
      if dryRun && automatic {
        eligible := candidate.reachable && candidate.role == RoleReplica && candidate.replica.Some?
                    && candidate.replica.value.sqlRunning;
      }
      ok := eligible && candidate.role == RoleReplica;
      if ok {
        log := CheckPhase(log, id);
        at := Checked;
      }
    }

    /** Looks at the candidate. */
    method Check(target: NodeId, automatic: bool, dryRun: bool, id: OperationId, ghost log0: Log, ghost th: Thread)
      returns (ok: bool, ghost log: Log, ghost at: Pc, ghost seen: NodeStatus)
      requires Valid() && Tracks(Current(), log0, id, th) && th.Switcher? && th.pc.Agreed?
      requires target in fleet.addresses && target == th.target
      modifies others, store, fleet
      ensures Valid() && SameStart(log, log0) && Tracks(Current(), log, id, th.(pc := at)) && Calm()
      ensures if ok then at.Checked? else at.Agreed?
      ensures Describes(seen, fleet.modes[target]) && (fleet.faultless ==> seen == Plain(fleet.modes[target]))
      ensures ok <==> Passes(seen, dryRun && automatic, cfg.maxReplicaLag)
      ensures others.alone ==> unchanged(store`operation)
    {
      log := Pause(id, log0, th);
      ok, log, at, seen := Look(target, automatic, dryRun, id, log, th);
    }

    method OpenTask(task: SwitchTask, ghost log0: Log, ghost th: Thread) returns (ghost log: Log)
      requires Valid() && Tracks(Current(), log0, task.id, th) && th.Switcher? && th.pc.Checked?
      requires task.state.TaskRunning?
      modifies this`tripping, this`lastTask, store`tasks
      ensures SameStart(log, log0) && Tracks(Current(), log, task.id, th.(pc := Started))
      ensures tripping && lastTask == Some(task) && store.tasks == old(store.tasks)[task.id := task]
    {
      tripping, lastTask := true, Some(task);
      store.PutTask(task);
      log := OpenPhase(log0, task.id);
    }

    /** The deferred write; `th` stands at the last point of its work. */
    method CloseTask(task: SwitchTask, ghost v: Verdict, ghost log0: Log, ghost th: Thread) returns (ghost log: Log)
      requires Valid() && Tracks(Current(), log0, task.id, th) && th.Switcher? && task.state == Final(v)
      requires Fits(v, th, fleet.addresses.Keys)
      modifies this`tripping, this`lastTask, store`tasks
      ensures SameStart(log, log0) && Tracks(Current(), log, task.id, th.(pc := Stored(Outcome(v, th.pc))))
      ensures !tripping && lastTask == Some(task) && store.tasks == old(store.tasks)[task.id := task]
    {
      tripping, lastTask := false, Some(task);
      store.PutTask(task);
      log := ClosePhase(log0, task.id, v);
    }

    /** The task is stored as running, */
    method StartTask(task: SwitchTask, ghost log0: Log, ghost th: Thread) returns (ghost log: Log)
      requires Valid() && Tracks(Current(), log0, task.id, th) && th.Switcher? && th.pc.Checked?
      requires task.state.TaskRunning?
      modifies this`tripping, this`lastTask, others, store, fleet
      ensures Valid() && SameStart(log, log0) && Tracks(Current(), log, task.id, th.(pc := Started))
      ensures others.alone ==>
                && Quiet() && unchanged(store`operation)
                && store.tasks == old(store.tasks)[task.id := task]
    {
      log := Pause(task.id, log0, th);
      log := OpenTask(task, log, th);
    }

    /** and in its final state. */
    method FinishTask(task: SwitchTask, ghost v: Verdict, ghost log0: Log, ghost th: Thread) returns (ghost log: Log)
      requires Valid() && Tracks(Current(), log0, task.id, th) && th.Switcher? && task.state == Final(v)
      requires Fits(v, th, fleet.addresses.Keys)
      modifies this`tripping, this`lastTask, others, store, fleet
      ensures Valid() && SameStart(log, log0) && Tracks(Current(), log, task.id, th.(pc := Stored(Outcome(v, th.pc))))
      ensures !tripping && lastTask == Some(task) && task.id in store.tasks && store.tasks[task.id] == task
      ensures others.alone ==>
                && Quiet()
                && store.tasks == old(store.tasks)[task.id := task]
    {
      log := Pause(task.id, log0, th);
      log := CloseTask(task, v, log, th);
    }

    method Clear(id: OperationId, ghost log0: Log, ghost th: Thread, ghost o: Outcome) returns (ghost log: Log)
      requires Valid() && Tracks(Current(), log0, id, th) && th.Switcher? && th.pc == Stored(o)
      modifies store`operation
      ensures Valid() && SameStart(log, log0) && Tracks(Current(), log, id, th.(pc := Cleared(o)))
    {
      store.ClearOperation();
      log := ClearPhase(log0, id, o);
    }

    method Release(id: OperationId, ghost log0: Log, ghost th: Thread, ghost o: Outcome) returns (ghost log: Log)
      requires Valid() && Tracks(Current(), log0, id, th) && th.Switcher? && th.pc == Cleared(o)
      modifies store`locked
      ensures Valid() && SameStart(log, log0) && Tracks(Current(), log, id, th.(pc := Released(o))) && !store.locked
      ensures Ends(log, id, o)
    {
      store.ReleaseLock();
      log := ReleasePhase(log0, id, o);
    }

    /** Empties the operation slot, */
    method Withdraw(id: OperationId, ghost log0: Log, ghost th: Thread, ghost o: Outcome) returns (ghost log: Log)
      requires Valid() && Tracks(Current(), log0, id, th) && th.Switcher? && th.pc == Stored(o)
      modifies others, store, fleet
      ensures Valid() && SameStart(log, log0) && Tracks(Current(), log, id, th.(pc := Cleared(o))) && Calm()
      ensures id in old(store.tasks) ==> id in store.tasks && store.tasks[id] == old(store.tasks)[id]
    {
      log := Pause(id, log0, th);
      log := Clear(id, log, th, o);
      log := Pause(id, log, th.(pc := Cleared(o)));
    }

    /** and gives the lock back. */
    method Leave(id: OperationId, ghost log0: Log, ghost th: Thread, ghost o: Outcome) returns (ghost log: Log)
      requires Valid() && Tracks(Current(), log0, id, th) && th.Switcher? && th.pc == Stored(o)
      modifies others, store, fleet
      ensures Valid() && SameStart(log, log0) && Tracks(Current(), log, id, th.(pc := Released(o))) && !store.locked
      ensures Calm()
      ensures Ends(log, id, o)
      ensures id in old(store.tasks) ==> id in store.tasks && store.tasks[id] == old(store.tasks)[id]
    {
      log := Withdraw(id, log0, th, o);
      log := Release(id, log, th.(pc := Cleared(o)), o);
    }

    /** The final write and the release of the lock. */
    method Conclude(task: SwitchTask, ghost v: Verdict, ghost log0: Log, ghost th: Thread) returns (ghost log: Log)
      requires Valid() && Tracks(Current(), log0, task.id, th) && th.Switcher? && task.state == Final(v)
      requires Fits(v, th, fleet.addresses.Keys)
      modifies this`tripping, this`lastTask, others, store, fleet
      ensures Valid() && SameStart(log, log0) && Tracks(Current(), log, task.id, th.(pc := Released(Outcome(v, th.pc))))
      ensures !store.locked && Ends(log, task.id, Outcome(v, th.pc))
      ensures !tripping && lastTask == Some(task) && task.id in store.tasks && store.tasks[task.id] == task
      ensures others.alone ==> Quiet() && store.tasks == old(store.tasks)[task.id := task]
    {
      log := FinishTask(task, v, log0, th);
      log := Leave(task.id, log, th.(pc := Stored(Outcome(v, th.pc))), Outcome(v, th.pc));
    }

    /** A dry run is over at once, */
    method CloseDryTask(running: SwitchTask, snap: ClusterState, ghost log0: Log)
      returns (task: SwitchTask, ghost log: Log, ghost outcome: Outcome)
      requires Valid() && Tracks(Current(), log0, running.id, Switcher(running.to, snap, true, Started))
      requires running.dryRun
      modifies this`tripping, this`lastTask, others, store, fleet
      ensures Valid() && !tripping && lastTask == Some(task)
      ensures RanLocked(Current(), log0, log, snap, running, Some(task), outcome)
      ensures others.alone ==> Quiet() && store.tasks == old(store.tasks)[running.id := task]
    {
      task := running.(state := TaskDryRun);
      log := Conclude(task, DryRan, log0, Switcher(running.to, snap, true, Started));
      outcome := Outcome(DryRan, Started);
      TaskRan(Current(), log0, log, snap, running, task, DryRan, Started);
    }

    /** and only remembers the primary. */
    method DryTask(running: SwitchTask, snap: ClusterState, ghost log0: Log)
      returns (task: SwitchTask, ghost log: Log, ghost outcome: Outcome)
      requires Valid() && Tracks(Current(), log0, running.id, Switcher(running.to, snap, true, Started))
      requires running.dryRun
      modifies this`tripping, this`lastTask, this`lastDryRunPrimary, others, store, fleet
      ensures Valid() && !tripping && lastTask == Some(task)
      ensures RanLocked(Current(), log0, log, snap, running, Some(task), outcome)
      ensures others.alone ==> Quiet() && store.tasks == old(store.tasks)[running.id := task]
      ensures lastDryRunPrimary == snap.primary
    {
      lastDryRunPrimary := snap.primary;
      task, log, outcome := CloseDryTask(running, snap, log0);
    }

    /** Otherwise the work is done. */
    method WorkTask(running: SwitchTask, snap: ClusterState, auth: SwitchAuthorization, ghost log0: Log)
      returns (task: SwitchTask, ghost log: Log, ghost outcome: Outcome)
      requires Valid() && Tracks(Current(), log0, running.id, Switcher(running.to, snap, false, Started))
      requires auth == SwitchAuthorization(running.id, snap.epoch, snap.epoch + 1) && running.to in fleet.addresses
      requires !running.dryRun
      modifies this`tripping, this`lastTask, others, store, fleet
      ensures Valid() && !tripping && lastTask == Some(task)
      ensures RanLocked(Current(), log0, log, snap, running, Some(task), outcome)
      ensures old(Smooth(auth)) && old(Replicates(running.to)) && old(store.cluster).epoch == snap.epoch ==>
                snap.primary != running.to ==>
                  (task.state.TaskCompleted? <==> old(Serviceable(snap.primary, running.to)))
    {
      var ok;
      ghost var at;
      ok, log, at := Work(snap, running.to, auth, running.id, log0, Switcher(running.to, snap, false, Started));
      task := running.(state := if ok then TaskCompleted else TaskFailed);
      ghost var v := if ok then Succeeded else Failed;
      log := Conclude(task, v, log, Switcher(running.to, snap, false, at));
      outcome := Outcome(v, at);
      TaskRan(Current(), log0, log, snap, running, task, v, at);
    }

    /** The task from its first to its final write, and the release of the lock. */
    method RunTask(running: SwitchTask, snap: ClusterState, auth: SwitchAuthorization, ghost log0: Log)
      returns (task: SwitchTask, ghost log: Log, ghost outcome: Outcome)
      requires Valid() && Tracks(Current(), log0, running.id, Switcher(running.to, snap, running.dryRun, Checked))
      requires auth == SwitchAuthorization(running.id, snap.epoch, snap.epoch + 1) && running.to in fleet.addresses
      requires running.state.TaskRunning?
      modifies this`tripping, this`lastTask, this`lastDryRunPrimary, others, store, fleet
      ensures Valid() && !tripping && lastTask == Some(task)
      ensures RanLocked(Current(), log0, log, snap, running, Some(task), outcome)
      ensures others.alone && running.dryRun ==> Quiet() && store.tasks == old(store.tasks)[running.id := task]
      ensures lastDryRunPrimary == if running.dryRun then snap.primary else old(lastDryRunPrimary)
      ensures old(Smooth(auth)) && old(Replicates(running.to)) && old(store.cluster).epoch == snap.epoch ==>
                snap.primary != running.to && !running.dryRun ==>
                  (task.state.TaskCompleted? <==> old(Serviceable(snap.primary, running.to)))
    {
      ghost var mid := StartTask(running, log0, Switcher(running.to, snap, running.dryRun, Checked));
      if running.dryRun {
        task, log, outcome := DryTask(running, snap, mid);
        Overwrite(old(store.tasks), running.id, running, task);
      } else {
        task, log, outcome := WorkTask(running, snap, auth, mid);
      }
      RanFromTheLock(Current(), log0, mid, log, snap, running, Some(task), outcome);
    }

    /** The checks, */
    method Qualify(snap: ClusterState, draft: SwitchTask, auth: SwitchAuthorization, ghost log0: Log)
      returns (ok: bool, ghost log: Log, ghost at: Pc, ghost seen: NodeStatus)
      requires Valid() && Tracks(Current(), log0, draft.id, Switcher(draft.to, snap, draft.dryRun, Locked))
      requires draft.to in fleet.addresses && auth == SwitchAuthorization(draft.id, snap.epoch, snap.epoch + 1)
      modifies others, store, fleet
      ensures Valid() && SameStart(log, log0) && Calm()
      ensures Tracks(Current(), log, draft.id, Switcher(draft.to, snap, draft.dryRun, at))
      ensures if ok then at.Checked? else at.Authorized? || at.Agreed?
      ensures !at.Authorized? ==> Judges(draft, seen, ok)
      ensures others.alone ==>
                && store.operation == Some(auth)
                && (at.Authorized? <==>
                    || old(store.cluster).epoch != snap.epoch || old(store.cluster).primary != snap.primary
                    || old(store.cluster).primary == NOBODY || draft.to == old(store.cluster).primary)
    {
      seen := UNREACHABLE;
      log := Announce(auth, draft.id, log0, Switcher(draft.to, snap, draft.dryRun, Locked));
      ok, log, at := Reread(snap, draft.to, draft.id, log, Switcher(draft.to, snap, draft.dryRun, Authorized));
      if !ok {
        return;
      }
      ok, log, at, seen :=
        Check(draft.to, draft.automatic, draft.dryRun, draft.id, log, Switcher(draft.to, snap, draft.dryRun, Agreed));
    }

    /** and the refusal. */
    method Refuse(id: OperationId, ghost log0: Log, ghost th: Thread) returns (ghost log: Log, ghost outcome: Outcome)
      requires Valid() && Tracks(Current(), log0, id, th) && th.Switcher? && (th.pc.Authorized? || th.pc.Agreed?)
      modifies others, store, fleet
      ensures Valid() && SameStart(log, log0) && Tracks(Current(), log, id, th.(pc := Released(outcome)))
      ensures !store.locked
      ensures Calm() && Ends(log, id, outcome) && outcome == Outcome(Aborted, th.pc)
    {
      outcome := Outcome(Aborted, th.pc);
      log := AbortPhase(log0, id);
      log := Leave(id, log, th.(pc := Stored(outcome)), outcome);
    }

    // --- Switch (internal/ha/controller.go:289-425) ---

    /** The target asked for, or the best one; refused if unknown or already the primary. */
    method AcceptTarget(requested: NodeId, primary: NodeId) returns (target: Option<NodeId>)
      requires Valid()
      ensures target.Some? ==> target.value in fleet.addresses && target.value != primary
      ensures target.Some? && requested != NOBODY ==> target.value == requested
      ensures target.Some? && requested == NOBODY ==> Best(monitor.statuses, primary, cfg.maxReplicaLag, target.value)
      ensures requested != NOBODY ==> (target.None? <==> requested !in fleet.addresses || requested == primary)
      ensures requested == NOBODY ==>
                (target.None? <==>
                 || (forall id :: !Eligible(monitor.statuses, primary, cfg.maxReplicaLag, id))
                 || exists id :: Best(monitor.statuses, primary, cfg.maxReplicaLag, id) && id !in fleet.addresses)
    {
      target := Some(requested);
      if requested == NOBODY {
        target := ChooseTarget(monitor.statuses, primary, cfg.maxReplicaLag);
        if target.None? {
          return;
        }
        forall other | Best(monitor.statuses, primary, cfg.maxReplicaLag, other) ensures other == target.value {
          BestIsUnique(monitor.statuses, primary, cfg.maxReplicaLag, other, target.value);
        }
      }
      if target.value !in fleet.addresses || target.value == primary {
        return None;
      }
    }

    /** A task is remembered as the last one. */
    twostate predicate Remembered(new result: Option<SwitchTask>)
      reads this
    {
      if result.Some? then lastTask == result && !tripping else unchanged(this`lastTask) && unchanged(this`tripping)
    }

    /** A refusal, from the checks to the release of the lock. */
    method Decline(draft: SwitchTask, snap: ClusterState, ghost log0: Log, ghost mid: Log, ghost at: Pc,
                   ghost c: Setting, ghost seen: NodeStatus)
      returns (ghost log: Log, ghost outcome: Outcome)
      requires Valid() && SameStart(mid, log0) && (at.Authorized? || at.Agreed?) && draft.to in fleet.addresses
      requires Tracks(Current(), mid, draft.id, Switcher(draft.to, snap, draft.dryRun, at))
      requires at.Agreed? ==> Judges(draft, seen, false)
      modifies others, store, fleet
      ensures Valid() && Calm() && outcome == Outcome(Aborted, at)
      ensures RanLocked(Current(), log0, log, snap, draft, None, outcome)
      ensures SameScene(c, old(Current())) && (c.record.primary == NOBODY <==> at.Authorized?) ==>
                Foreseen(c, true, fleet.faultless, fleet.addresses[draft.to] != "", cfg.maxReplicaLag, draft, None,
                         outcome, seen)
    {
      if SameScene(c, Current()) && (c.record.primary == NOBODY <==> at.Authorized?) {
        RefusalForeseen(c, fleet.faultless, fleet.addresses[draft.to] != "", cfg.maxReplicaLag, draft, at, seen);
      }
      log, outcome := Refuse(draft.id, mid, Switcher(draft.to, snap, draft.dryRun, at));
      RefusalRan(Current(), log0, log, snap, draft, at);
    }

    /** A task, likewise. */
    method Perform(draft: SwitchTask, snap: ClusterState, auth: SwitchAuthorization, ghost log0: Log, ghost mid: Log,
                   ghost c: Setting, ghost seen: NodeStatus)
      returns (result: Option<SwitchTask>, ghost log: Log, ghost outcome: Outcome)
      requires Valid() && SameStart(mid, log0) && draft.to in fleet.addresses && draft.state.TaskRunning?
      requires Tracks(Current(), mid, draft.id, Switcher(draft.to, snap, draft.dryRun, Checked))
      requires auth == SwitchAuthorization(draft.id, snap.epoch, snap.epoch + 1) && draft.id != ""
      requires Judges(draft, seen, true)
      modifies this`tripping, this`lastTask, this`lastDryRunPrimary, others, store, fleet
      ensures Valid() && Remembered(result) && result.Some?
      ensures RanLocked(Current(), log0, log, snap, draft, result, outcome)
      ensures others.alone && draft.dryRun ==> Quiet() && store.tasks == old(store.tasks)[draft.id := result.value]
      ensures lastDryRunPrimary == if draft.dryRun then snap.primary else old(lastDryRunPrimary)
      ensures others.alone && SameScene(c, old(Current())) && c.record == snap && old(store.operation) == Some(auth) ==>
                snap.primary != draft.to && snap.primary != NOBODY ==>
                  Foreseen(c, true, fleet.faultless, fleet.addresses[draft.to] != "", cfg.maxReplicaLag, draft,
                           result, outcome, seen)
    {
      var task;
      task, log, outcome := RunTask(draft, snap, auth, mid);
      result := Some(task);
      RanFromTheLock(Current(), log0, mid, log, snap, draft, Some(task), outcome);
      if others.alone && SameScene(c, old(Current())) && c.record == snap && old(store.operation) == Some(auth)
         && snap.primary != draft.to && snap.primary != NOBODY
      {
        TaskForeseen(c, fleet.faultless, fleet.addresses[draft.to] != "", cfg.maxReplicaLag, draft, task, outcome,
                     seen);
      }
    }

    /** The target has answered with the status `seen`, and that passes or not. */
    ghost predicate Judges(draft: SwitchTask, seen: NodeStatus, ok: bool)
      reads fleet
    {
      && draft.to in fleet.modes && (ok <==> Passes(seen, draft.dryRun && draft.automatic, cfg.maxReplicaLag))
      && Describes(seen, fleet.modes[draft.to]) && (fleet.faultless ==> seen == Plain(fleet.modes[draft.to]))
    }

    /** One or the other, as the checks came out. */
    method Proceed(ok: bool, draft: SwitchTask, snap: ClusterState, auth: SwitchAuthorization, ghost log0: Log,
                   ghost mid: Log, ghost at: Pc, ghost c: Setting, ghost seen: NodeStatus)
      returns (result: Option<SwitchTask>, ghost log: Log, ghost outcome: Outcome)
      requires Valid() && SameStart(mid, log0) && draft.to in fleet.addresses && draft.state.TaskRunning?
      requires Tracks(Current(), mid, draft.id, Switcher(draft.to, snap, draft.dryRun, at))
      requires auth == SwitchAuthorization(draft.id, snap.epoch, snap.epoch + 1) && draft.id != ""
      requires if ok then at.Checked? else at.Authorized? || at.Agreed?
      requires !at.Authorized? ==> Judges(draft, seen, ok)
      modifies this`tripping, this`lastTask, this`lastDryRunPrimary, others, store, fleet
      ensures Valid() && Remembered(result)
      ensures RanLocked(Current(), log0, log, snap, draft, result, outcome)
      ensures others.alone && (result.None? || draft.dryRun) ==>
                && Quiet()
                && (result.None? ==> unchanged(store`tasks))
                && (result.Some? ==> store.tasks == old(store.tasks)[draft.id := result.value])
      ensures lastDryRunPrimary == if draft.dryRun && result.Some? then snap.primary else old(lastDryRunPrimary)
      ensures Judged(seen, draft.dryRun && draft.automatic, cfg.maxReplicaLag, result, outcome)
      ensures others.alone && SameScene(c, old(Current())) && c.record == snap && old(store.operation) == Some(auth) ==>
                snap.primary != draft.to && (at.Authorized? <==> snap.primary == NOBODY) ==>
                  Foreseen(c, true, fleet.faultless, fleet.addresses[draft.to] != "", cfg.maxReplicaLag, draft, result,
                           outcome, seen)
    {
      if !ok {
        result := None;
        log, outcome := Decline(draft, snap, log0, mid, at, c, seen);
        return;
      }
      result, log, outcome := Perform(draft, snap, auth, log0, mid, c, seen);
    }

    /** Everything between taking the lock and having given it back; `draft` is the task as it would be stored first. */
    method RunLocked(draft: SwitchTask, snap: ClusterState, ghost log0: Log)
      returns (result: Option<SwitchTask>, ghost log: Log, ghost outcome: Outcome, ghost seen: NodeStatus)
      requires Valid() && Tracks(Current(), log0, draft.id, Switcher(draft.to, snap, draft.dryRun, Locked))
      requires draft.to in fleet.addresses && draft.id != "" && draft.state.TaskRunning?
      modifies this`tripping, this`lastTask, this`lastDryRunPrimary, others, store, fleet
      ensures Valid() && Remembered(result)
      ensures RanLocked(Current(), log0, log, snap, draft, result, outcome)
      ensures others.alone && (result.None? || draft.dryRun) ==>
                && Quiet()
                && (result.None? ==> unchanged(store`tasks))
                && (result.Some? ==> store.tasks == old(store.tasks)[draft.id := result.value])
      ensures lastDryRunPrimary == if draft.dryRun && result.Some? then snap.primary else old(lastDryRunPrimary)
      ensures Judged(seen, draft.dryRun && draft.automatic, cfg.maxReplicaLag, result, outcome)
      ensures others.alone && old(store.cluster) == snap && snap.primary != draft.to ==>
                Foreseen(old(Current()), true, fleet.faultless, fleet.addresses[draft.to] != "", cfg.maxReplicaLag,
                         draft, result, outcome, seen)
    {
      var ok;
      ghost var at, mid;
      ghost var c := Current();
      var auth := SwitchAuthorization(draft.id, snap.epoch, snap.epoch + 1);
      ok, mid, at, seen := Qualify(snap, draft, auth, log0);
      result, log, outcome := Proceed(ok, draft, snap, auth, log0, mid, at, c, seen);
    }

    /** The snapshot is taken and the id is in use. */
    method Enlist(target: NodeId, ghost dryRun: bool, id: OperationId, ghost log0: Log) returns (ghost log: Log)
      requires Valid() && Free(Current(), log0, id) && id != "" && target in fleet.addresses
      requires target != store.cluster.primary
      modifies others`used
      ensures Valid() && SameStart(log, log0)
      ensures Tracks(Current(), log, id, Switcher(target, store.cluster, dryRun, Ready))
      ensures others.used == old(others.used) + {id}
    {
      others.used := others.used + {id};
      log := BeginPhase(log0, id, target, dryRun);
    }

    /** `ok` says that the lock was free. */
    method TakeLock(id: OperationId, ghost log0: Log, ghost th: Thread) returns (ok: bool, ghost log: Log)
      requires Valid() && Tracks(Current(), log0, id, th) && th.Switcher? && th.pc.Ready?
      modifies store`locked
      ensures Valid() && SameStart(log, log0) && (ok <==> !old(store.locked)) && store.locked
      ensures Tracks(Current(), log, id, th.(pc := if ok then Locked else Released(Outcome(Aborted, Ready))))
      ensures ok ==> Now(log).holder == Some(id)
    {
      ok := store.AcquireLock();
      if ok {
        log := LockPhase(log0, id);
      } else {
        log := RefusePhase(log0, id);
      }
    }

    /** Nothing changes but the ids in use and the tasks, by at most one. */
    twostate predicate OnlyTasks(id: OperationId, new stored: Option<SwitchTask>)
      reads others, store, fleet
    {
      && unchanged(fleet) && others.used <= old(others.used) + {id}
      && (stored.None? ==> unchanged(store`tasks))
      && (stored.Some? ==> store.tasks == old(store.tasks)[id := stored.value])
    }

    /** And without others: nothing but a real switch changes the servers or the record. */
    twostate predicate SettlesAlone(id: OperationId, new result: Option<SwitchTask>)
      reads this, others, store, fleet
    {
      others.alone ==>
        && store.locked == old(store.locked)
        && (result.None? || result.value.dryRun ==> OnlyTasks(id, result) && unchanged(store`cluster))
    }

    method Prepare(snap: ClusterState, target: NodeId, ghost dryRun: bool, id: OperationId, ghost p: State)
      returns (ghost log: Log)
      requires Valid() && Free(Current(), Fresh(p), id) && id != "" && snap == store.cluster
      requires target in fleet.addresses
      requires target != snap.primary
      modifies others, store, fleet
      ensures Valid() && SameStart(log, Fresh(p)) && Tracks(Current(), log, id, Switcher(target, snap, dryRun, Ready))
      ensures others.alone ==> unchanged(fleet) && unchanged(store) && others.used == old(others.used) + {id}
    {
      log := Enlist(target, dryRun, id, Fresh(p));
      log := Pause(id, log, Switcher(target, snap, dryRun, Ready));
    }

    /** From the accepted target to the lock. */
    method Approach(snap: ClusterState, target: NodeId, ghost dryRun: bool, id: OperationId, ghost p: State)
      returns (ok: bool, ghost log: Log)
      requires Valid() && Free(Current(), Fresh(p), id) && id != "" && snap == store.cluster
      requires target in fleet.addresses
      requires target != snap.primary
      modifies others, store, fleet
      ensures Valid() && SameStart(log, Fresh(p)) && store.locked
      ensures var pc := if ok then Locked else Released(Outcome(Aborted, Ready));
              Tracks(Current(), log, id, Switcher(target, snap, dryRun, pc))
      ensures ok ==> Now(log).holder == Some(id)
      ensures others.alone ==>
                && (ok <==> !old(store.locked)) && unchanged(fleet) && unchanged(store`cluster)
                && unchanged(store`tasks) && others.used == old(others.used) + {id}
    {
      log := Prepare(snap, target, dryRun, id, p);
      ok, log := TakeLock(id, log, Switcher(target, snap, dryRun, Ready));
    }

    /** From the lock to the end. */
    method Conduct(draft: SwitchTask, snap: ClusterState, ghost p: State, ghost before: Log)
      returns (result: Option<SwitchTask>, ghost rest: Log, ghost outcome: Outcome, ghost seen: NodeStatus)
      requires Valid() && SameStart(before, Fresh(p)) && Now(before).holder == Some(draft.id) && snap == p.record
      requires Tracks(Current(), before, draft.id, Switcher(draft.to, snap, draft.dryRun, Locked))
      requires draft.to in fleet.addresses && draft.id != "" && draft.state.TaskRunning?
      modifies this`tripping, this`lastTask, this`lastDryRunPrimary, others, store, fleet
      ensures Valid() && Remembered(result) && !store.locked
      ensures Conducted(Current(), p, before, Some(rest), draft, result, outcome)
      ensures others.alone && (result.None? || draft.dryRun) ==>
                && Quiet()
                && (result.None? ==> unchanged(store`tasks))
                && (result.Some? ==> store.tasks == old(store.tasks)[draft.id := result.value])
      ensures lastDryRunPrimary == if draft.dryRun && result.Some? then snap.primary else old(lastDryRunPrimary)
      ensures Judged(seen, draft.dryRun && draft.automatic, cfg.maxReplicaLag, result, outcome)
      ensures others.alone && old(store.cluster) == snap && snap.primary != draft.to ==>
                Foreseen(old(Current()), true, fleet.faultless, fleet.addresses[draft.to] != "", cfg.maxReplicaLag,
                         draft, result, outcome, seen)
    {
      ghost var c0 := Current();
      result, rest, outcome, seen := RunLocked(draft, snap, Fresh(Now(before)));
      LockedIsConducted(c0, Current(), p, before, rest, draft, result, outcome);
    }

    /** From the accepted target to the end. */
    method Engage(draft: SwitchTask, snap: ClusterState, ghost p: State)
      returns (result: Option<SwitchTask>, ghost before: Log, ghost rest: Option<Log>, ghost outcome: Outcome,
               ghost seen: NodeStatus)
      requires Valid() && Free(Current(), Fresh(p), draft.id) && draft.id != "" && snap == store.cluster
      requires draft.to in fleet.addresses && draft.to != snap.primary && draft.state.TaskRunning?
      modifies this`tripping, this`lastTask, this`lastDryRunPrimary, others, store, fleet
      ensures Valid() && Remembered(result) && SettlesAlone(draft.id, result)
      ensures Conducted(Current(), p, before, rest, draft, result, outcome)
      ensures others.alone && rest.Some? ==>
                Now(before).modes == old(fleet.modes) && Now(before).record == old(store.cluster)
      ensures lastDryRunPrimary == if draft.dryRun && result.Some? then snap.primary else old(lastDryRunPrimary)
      ensures Judged(seen, draft.dryRun && draft.automatic, cfg.maxReplicaLag, result, outcome)
      ensures others.alone ==>
                Foreseen(old(Current()), !old(store.locked), fleet.faultless, fleet.addresses[draft.to] != "",
                         cfg.maxReplicaLag, draft, result, outcome, seen)
    {
      var ok;
      ok, before := Approach(snap, draft.to, draft.dryRun, draft.id, p);
      if !ok {
        result, rest, outcome, seen := None, None, Outcome(Aborted, Ready), UNREACHABLE;
        RefusedIsConducted(Current(), p, before, draft);
        return;
      }
      ghost var log;
      result, log, outcome, seen := Conduct(draft, snap, p, before);
      rest := Some(log);
    }

    /** The switch whose target is accepted. */
    method Enter(draft: SwitchTask, snap: ClusterState, ghost p: State)
      returns (result: Option<SwitchTask>, ghost log: Log, ghost outcome: Outcome, ghost locked: Option<State>,
               ghost seen: NodeStatus)
      requires Valid() && Free(Current(), Fresh(p), draft.id) && draft.id != "" && snap == store.cluster
      requires draft.to in fleet.addresses && draft.to != snap.primary && draft.state.TaskRunning?
      modifies this`tripping, this`lastTask, this`lastDryRunPrimary, others, store, fleet
      ensures Valid() && Remembered(result) && SettlesAlone(draft.id, result)
      ensures Settles(Current(), draft.id, p, result, log, outcome, locked)
      ensures others.alone ==> TakenIn(old(Current()), locked)
      ensures result.Some? ==> result.value == draft.(state := result.value.state)
      ensures lastDryRunPrimary == if draft.dryRun && result.Some? then snap.primary else old(lastDryRunPrimary)
      ensures draft.id in Now(log).threads
      ensures Now(log).threads[draft.id] == Switcher(draft.to, snap, draft.dryRun, Released(outcome))
      ensures Judged(seen, draft.dryRun && draft.automatic, cfg.maxReplicaLag, result, outcome)
      ensures others.alone ==>
                Foreseen(old(Current()), !old(store.locked), fleet.faultless, fleet.addresses[draft.to] != "",
                         cfg.maxReplicaLag, draft, result, outcome, seen)
    {
      ghost var before, rest;
      result, before, rest, outcome, seen := Engage(draft, snap, p);
      log, locked := ConductedSettles(Current(), p, before, rest, draft, result, outcome);
    }

    /** The snapshot, and the target if this controller leads. */
    method Aim(requested: NodeId) returns (snap: ClusterState, target: Option<NodeId>)
      requires Valid()
      ensures snap == store.cluster
      ensures Aimed(cfg, monitor.statuses, fleet.addresses.Keys, leader, requested, snap.primary, target)
      ensures target.Some? ==> target.value in fleet.addresses && target.value != snap.primary
    {
      snap := store.GetCluster();
      if !leader {
        return snap, None;
      }
      target := AcceptTarget(requested, snap.primary);
    }

    /** The switch to the target, if there is one. */
    method Attempt(snap: ClusterState, target: Option<NodeId>, automatic: bool, dryRun: bool, id: OperationId,
                   ghost p: State)
      returns (result: Option<SwitchTask>, ghost log: Log, ghost outcome: Outcome, ghost locked: Option<State>,
               ghost seen: NodeStatus)
      requires Valid() && Free(Current(), Fresh(p), id) && id != "" && snap == store.cluster
      requires target.Some? ==> target.value in fleet.addresses && target.value != store.cluster.primary
      modifies this`tripping, this`lastTask, this`lastDryRunPrimary, others, store, fleet
      ensures Settles(Current(), id, p, result, log, outcome, locked) && SettlesAlone(id, result)
      ensures Valid() && Remembered(result)
      ensures others.alone ==> TakenIn(old(Current()), locked)
      ensures target.None? ==> result.None? && unchanged(others) && unchanged(store) && unchanged(fleet)
      ensures target.None? ==> id !in Now(log).threads
      ensures target.Some? ==>
                && target.value in fleet.addresses && id in Now(log).threads
                && Now(log).threads[id] == Switcher(target.value, old(store.cluster), dryRun, Released(outcome))
      ensures result.Some? ==>
                && target.Some?
                && result.value == SwitchTask(id, old(store.cluster).primary, target.value, automatic, dryRun,
                                              result.value.state)
      ensures lastDryRunPrimary ==
              if dryRun && result.Some? then old(store.cluster).primary else old(lastDryRunPrimary)
      ensures Judged(seen, dryRun && automatic, cfg.maxReplicaLag, result, outcome)
      ensures others.alone && target.Some? ==>
                Foreseen(old(Current()), !old(store.locked), fleet.faultless, fleet.addresses[target.value] != "",
                         cfg.maxReplicaLag,
                         SwitchTask(id, old(store.cluster).primary, target.value, automatic, dryRun, TaskRunning),
                         result, outcome, seen)
    {
      if target.None? {
        result, log, outcome, locked, seen := None, Fresh(p), Outcome(Aborted, Ready), None, UNREACHABLE;
        UnbegunSettles(Current(), id, p);
        return;
      }
      var draft := SwitchTask(id, snap.primary, target.value, automatic, dryRun, TaskRunning);
      result, log, outcome, locked, seen := Enter(draft, snap, p);
    }

    /** A switch. `p` is the state of the protocol in which it starts, `target` the node it turns to, if any, and `seen`
        what that answered. */
    method Switch(requested: NodeId, automatic: bool, id: OperationId, ghost p: State)
      returns (result: Option<SwitchTask>, ghost log: Log, ghost outcome: Outcome, ghost locked: Option<State>,
               ghost target: Option<NodeId>, ghost seen: NodeStatus)
      requires Valid() && Free(Current(), Fresh(p), id) && id != ""
      modifies this`tripping, this`lastTask, this`lastDryRunPrimary, others, store, fleet
      ensures Settles(Current(), id, p, result, log, outcome, locked) && SettlesAlone(id, result)
      ensures Valid() && Remembered(result)
      ensures others.alone ==> TakenIn(old(Current()), locked)
      // It begins exactly if this controller leads and there is a target, and touches nothing otherwise.
      ensures Aimed(cfg, old(monitor.statuses), fleet.addresses.Keys, old(leader), requested,
                    old(store.cluster).primary, target)
      ensures target.None? ==> result.None? && unchanged(others) && unchanged(store) && unchanged(fleet)
      ensures target.None? ==> id !in Now(log).threads
      ensures target.Some? ==>
                var dryRun := !cfg.executeActions || (automatic && !cfg.autoFailoverExecute);
                && target.value in fleet.addresses && id in Now(log).threads
                && Now(log).threads[id] == Switcher(target.value, old(store.cluster), dryRun, Released(outcome))
      ensures result.Some? ==>
                && result.value.from == old(store.cluster).primary && Some(result.value.to) == target
                && result.value.automatic == automatic
                && result.value.dryRun == (!cfg.executeActions || (automatic && !cfg.autoFailoverExecute))
      ensures !cfg.executeActions && result.Some? ==> result.value.state.TaskDryRun?
      ensures !cfg.executeActions && others.alone ==> unchanged(fleet) && unchanged(store`cluster)
      ensures lastDryRunPrimary ==
              if result.Some? && result.value.state.TaskDryRun? then result.value.from else old(lastDryRunPrimary)
      // The candidate decides whether there is a task, and what the servers offer whether it completes.
      ensures Judged(seen, automatic && !(cfg.executeActions && cfg.autoFailoverExecute), cfg.maxReplicaLag, result,
                     outcome)
      ensures others.alone && target.Some? ==>
                var dryRun := !cfg.executeActions || (automatic && !cfg.autoFailoverExecute);
                var draft := SwitchTask(id, old(store.cluster).primary, target.value, automatic, dryRun, TaskRunning);
                Foreseen(old(Current()), !old(store.locked), fleet.faultless, fleet.addresses[target.value] != "",
                         cfg.maxReplicaLag, draft, result, outcome, seen)
    {
      var dryRun := !cfg.executeActions || (automatic && !cfg.autoFailoverExecute);
      var snap, to := Aim(requested);
      target := to;
      result, log, outcome, locked, seen := Attempt(snap, to, automatic, dryRun, id, p);
    }

    // --- The failover flag (internal/ha/controller.go:264-287) ---

    method HoldToggle(enabled: bool, id: OperationId, ghost log0: Log) returns (ok: bool, ghost log: Log)
      requires Valid() && Free(Current(), log0, id)
      modifies others`used, store`locked
      ensures Valid() && SameStart(log, log0) && (ok <==> !old(store.locked)) && store.locked
      ensures if ok then Tracks(Current(), log, id, Toggler(enabled, Holding)) else Free(Current(), log, id)
      ensures !ok ==> unchanged(others) && unchanged(store)
    {
      log := log0;
      ok := store.AcquireLock();
      if ok {
        others.used := others.used + {id};
        log := HoldPhase(log, id, enabled);
      }
    }

    method ReadToggle(id: OperationId, ghost log0: Log, ghost th: Thread) returns (state: ClusterState, ghost log: Log)
      requires Valid() && Tracks(Current(), log0, id, th) && th.Toggler? && th.phase.Holding?
      ensures SameStart(log, log0) && Tracks(Current(), log, id, th.(phase := Read(state))) && state == store.cluster
    {
      state := store.GetCluster();
      log := TogglePhase(log0, id);
    }

    method WriteToggle(enabled: bool, state: ClusterState, id: OperationId, ghost log0: Log, ghost th: Thread)
      returns (ok: bool, ghost log: Log)
      requires Valid() && Tracks(Current(), log0, id, th) && th == Toggler(enabled, Read(state))
      modifies store`cluster
      ensures Valid() && SameStart(log, log0) && Tracks(Current(), log, id, Toggler(enabled, Written))
      ensures ok <==> old(store.cluster).epoch == state.epoch
      ensures store.cluster == if ok then state.(autoFailover := enabled) else old(store.cluster)
    {
      ok := store.PutClusterIfEpoch(state.epoch, state.(autoFailover := enabled));
      log := TogglePhase(log0, id);
    }

    method FreeToggle(id: OperationId, ghost log0: Log, ghost th: Thread) returns (ghost log: Log)
      requires Valid() && Tracks(Current(), log0, id, th) && th.Toggler? && th.phase.Written?
      modifies store`locked
      ensures Valid() && SameStart(log, log0) && Tracks(Current(), log, id, th.(phase := Gone)) && !store.locked
    {
      store.ReleaseLock();
      log := TogglePhase(log0, id);
    }

    /** Reads and writes, with the lock in hand. */
    method Rewrite(enabled: bool, id: OperationId, ghost log0: Log) returns (ok: bool, ghost log: Log)
      requires Valid() && Tracks(Current(), log0, id, Toggler(enabled, Holding))
      modifies others, store, fleet
      ensures Valid() && SameStart(log, log0) && Tracks(Current(), log, id, Toggler(enabled, Written))
      ensures others.alone ==> ok && store.cluster == old(store.cluster).(autoFailover := enabled)
    {
      var state;
      log := Pause(id, log0, Toggler(enabled, Holding));
      state, log := ReadToggle(id, log, Toggler(enabled, Holding));
      log := Pause(id, log, Toggler(enabled, Read(state)));
      ok, log := WriteToggle(enabled, state, id, log, Toggler(enabled, Read(state)));
    }

    /** And gives the lock back. */
    method Toggle(enabled: bool, id: OperationId, ghost log0: Log) returns (ok: bool, ghost log: Log)
      requires Valid() && Tracks(Current(), log0, id, Toggler(enabled, Holding))
      modifies others, store, fleet
      ensures Valid() && SameStart(log, log0) && Tracks(Current(), log, id, Toggler(enabled, Gone)) && !store.locked
      ensures others.alone ==> ok && store.cluster == old(store.cluster).(autoFailover := enabled)
    {
      ok, log := Rewrite(enabled, id, log0);
      log := Pause(id, log, Toggler(enabled, Written));
      log := FreeToggle(id, log, Toggler(enabled, Written));
    }

    /** The toggle is a run of the protocol, also with a bootstrap between its read and its write. */
    method SetAutoFailover(enabled: bool, id: OperationId, ghost p: State) returns (ok: bool, ghost log: Log)
      requires Valid() && Free(Current(), Fresh(p), id)
      modifies others, store, fleet
      ensures Valid() && SameStart(log, Fresh(p)) && Matches(Current(), Now(log)) && id !in others.threads
      ensures leader && !old(store.locked) ==>
                id in Now(log).threads && Now(log).threads[id] == Toggler(enabled, Gone) && !store.locked
      ensures !leader || old(store.locked) ==> !ok && unchanged(others) && unchanged(store) && unchanged(fleet)
      ensures others.alone ==> (ok <==> leader && !old(store.locked)) && store.locked == old(store.locked)
      ensures others.alone ==>
                store.cluster == if ok then old(store.cluster).(autoFailover := enabled) else old(store.cluster)
    {
      log := Fresh(p);
      if !leader {
        return false, log;
      }
      ok, log := HoldToggle(enabled, id, log);
      if !ok {
        return;
      }
      ok, log := Toggle(enabled, id, log);
    }

    // --- Probing (internal/ha/controller.go:110-155) ---

    /** The others move, before the thread `id` exists. */
    method Wait(id: OperationId, ghost log0: Log) returns (ghost log: Log)
      requires Valid() && Free(Current(), log0, id)
      modifies others, store, fleet
      ensures Valid() && SameStart(log, log0) && Free(Current(), log, id)
      ensures others.alone ==> unchanged(others) && unchanged(store) && unchanged(fleet)
      ensures probing ==> others.probe == old(others.probe)
    {
      log := others.Pause(id, probing, log0);
    }

    /** Asks the node, some time after the node before. */
    method Ask(n: NodeId, id: OperationId, ghost log0: Log) returns (status: NodeStatus, ghost log: Log)
      requires Valid() && Free(Current(), log0, id) && n in monitor.nodes
      modifies others, store, fleet
      ensures Valid() && SameStart(log, log0) && Free(Current(), log, id) && Describes(status, fleet.modes[n])
      ensures fleet.faultless ==> status == Plain(fleet.modes[n])
      ensures others.alone ==> unchanged(others) && unchanged(store) && unchanged(fleet)
    {
      log := Wait(id, log0);
      ghost var heard, ping, scanned;
      status, heard, ping, scanned := fleet.Status(n);
    }

    method ObserveNode(n: NodeId, id: OperationId, ghost log0: Log) returns (alerts: seq<Alert>, ghost log: Log)
      requires Valid() && monitor.Valid() && Free(Current(), log0, id) && n in monitor.nodes
      modifies monitor, others, store, fleet
      ensures Valid() && SameStart(log, log0) && Free(Current(), log, id)
      ensures others.alone ==> unchanged(others) && unchanged(store) && unchanged(fleet)
      ensures monitor.Valid() && n in monitor.statuses && WellFormed(monitor.statuses[n])
      ensures Shows(monitor.statuses[n], fleet.modes[n], fleet.faultless)
      ensures monitor.Known() == Entered(old(monitor.Known()), n, monitor.statuses[n], monitor.alertedNodes, alerts)
    {
      var status;
      status, log := Ask(n, id, log0);
      alerts := monitor.Note(n, status);
    }

    /** One round over all nodes, in any order. */
    method ObserveNodes(id: OperationId, ghost log0: Log) returns (alerts: map<NodeId, seq<Alert>>, ghost log: Log)
      requires Valid() && monitor.Valid() && Free(Current(), log0, id)
      modifies monitor, others, store, fleet
      ensures Valid() && SameStart(log, log0) && Free(Current(), log, id)
      ensures others.alone ==> unchanged(others) && unchanged(store) && unchanged(fleet)
      ensures monitor.Valid() && Noted(monitor.nodes, old(monitor.Known()), monitor.Known(), alerts)
      ensures others.alone ==> ShowAll(monitor.nodes, monitor.statuses, fleet.modes, fleet.faultless)
    {
      alerts, log := map[], log0;
      var rest := monitor.nodes;
      ghost var done: set<NodeId> := {};
      ghost var book := monitor.Known();
      while rest != {}
        invariant Valid() && SameStart(log, log0) && Free(Current(), log, id)
        invariant others.alone ==> unchanged(others) && unchanged(store) && unchanged(fleet)
        invariant monitor.Valid() && Splits(monitor.nodes, done, rest)
        invariant Ahead(rest, book, monitor.Known()) && Noted(done, book, monitor.Known(), alerts)
        invariant others.alone ==> ShowAll(done, monitor.statuses, fleet.modes, fleet.faultless)
        decreases rest
      {
        var n :| n in rest;
        OneDone(monitor.nodes, done, rest, n);
        ghost var before := monitor.Known();
        var more;
        more, log := ObserveNode(n, id, log);
        NoteOne(done, rest, n, book, before, alerts, monitor.statuses[n], monitor.alertedNodes, more);
        if others.alone {
          ShowOne(done, n, before.statuses, monitor.statuses[n], fleet.modes, fleet.faultless);
        }
        alerts := alerts[n := more];
        rest, done := rest - {n}, done + {n};
      }
      assert done == monitor.nodes;
    }

    /** Reads the record and, while it has no primary, writes what the statuses suggest, unconditionally. */
    method Bootstrap(id: OperationId, ghost log0: Log) returns (state: ClusterState, ghost log: Log)
      requires Valid() && Free(Current(), log0, id) && probing && monitor.statuses.Keys <= monitor.nodes
      modifies others, store, fleet
      ensures Valid() && SameStart(log, log0) && Free(Current(), log, id) && store.cluster == state
      ensures state == old(store.cluster).(primary := state.primary)
      ensures if old(store.cluster).primary != NOBODY then state == old(store.cluster)
              else Detected(monitor.statuses, state.primary)
      ensures others.alone ==> unchanged(fleet) && unchanged(store`tasks) && unchanged(others`used)
    {
      log := log0;
      state := store.GetCluster();
      if state.primary != NOBODY {
        return;
      }
      var found := monitor.DetectPrimary();
      state := state.(primary := found);
      log := Boot(state, found, id, log);
    }

    /** The bootstrap's write, some time after its read. */
    method Boot(state: ClusterState, found: NodeId, id: OperationId, ghost log0: Log) returns (ghost log: Log)
      requires Valid() && Free(Current(), log0, id) && probing && store.cluster.primary == NOBODY
      requires state == store.cluster.(primary := found) && (found == NOBODY || found in fleet.addresses)
      modifies others, store, fleet
      ensures Valid() && SameStart(log, log0) && Free(Current(), log, id) && store.cluster == state
      ensures others.alone ==> unchanged(fleet) && unchanged(store`tasks) && unchanged(others`used)
    {
      log := BootReadPhase(log0, found);
      others.probe := Booting(state);
      log := others.Pause(id, true, log);
      log := BootPutPhase(log);
      store.PutCluster(state);
      others.probe := Idle;
    }

    // --- Automatic failover (internal/ha/controller.go:182-214) ---

    /** Nobody else acts, and neither does this controller. */
    ghost predicate Watching() {
      others.alone && !cfg.autoFailoverExecute
    }

    ghost predicate SeenHealthy(primary: NodeId)
      reads monitor
    {
      primary in monitor.statuses && monitor.statuses[primary].healthy
    }

    /** A primary seen healthy may be reported again. */
    method IsDown(primary: NodeId) returns (down: bool)
      modifies this`lastDryRunPrimary
      ensures down <==> Failing(cfg, monitor.statuses, primary) && !tripping
      ensures lastDryRunPrimary == if SeenHealthy(primary) then NOBODY else old(lastDryRunPrimary)
    {
      if primary !in monitor.statuses || monitor.statuses[primary].healthy
         || monitor.statuses[primary].failureCount < cfg.failureThreshold || tripping
      {
        if primary in monitor.statuses && monitor.statuses[primary].healthy {
          lastDryRunPrimary := NOBODY;
        }
        return false;
      }
      down := true;
    }

    method AutomaticTarget(primary: NodeId) returns (target: Option<NodeId>)
      ensures target.Some? ==> Chosen(cfg, monitor.statuses, primary, target.value)
      ensures target.Some? <==> HasChoice(cfg, monitor.statuses, primary)
    {
      if cfg.autoFailoverExecute {
        target := ChooseTarget(monitor.statuses, primary, cfg.maxReplicaLag);
      } else {
        target := ChooseDryRunTarget(monitor.statuses, primary);
      }
    }

    /** An automatic switch to a given target. */
    method TurnTo(target: NodeId, id: OperationId, ghost p: State)
      returns (stored: Option<SwitchTask>, ghost log: Log, ghost aimed: Option<NodeId>)
      requires Valid() && Free(Current(), Fresh(p), id) && id != ""
      modifies this`tripping, this`lastTask, this`lastDryRunPrimary, others, store, fleet
      ensures Valid() && SameStart(log, Fresh(p)) && Matches(Current(), Now(log)) && id !in others.threads
      ensures Remembered(stored)
      ensures stored.Some? ==>
                var task := stored.value;
                && task.id == id && task.automatic && task.from == old(store.cluster).primary && aimed == Some(task.to)
                && id in store.tasks && store.tasks[id] == task
                && (task.dryRun <==> task.state.TaskDryRun?) && (!cfg.autoFailoverExecute ==> task.dryRun)
      ensures SettlesAlone(id, stored)
      ensures lastDryRunPrimary ==
              if stored.Some? && stored.value.state.TaskDryRun? then stored.value.from else old(lastDryRunPrimary)
      ensures Aimed(cfg, old(monitor.statuses), fleet.addresses.Keys, old(leader), target, old(store.cluster).primary,
                    aimed)
      ensures aimed.None? ==> id !in Now(log).threads
      ensures aimed.Some? ==>
                var threads := Now(log).threads;
                && id in threads && threads[id].Switcher? && threads[id].snap == old(store.cluster)
                && threads[id].target == aimed.value
    {
      ghost var outcome, locked, seen;
      stored, log, outcome, locked, aimed, seen := Switch(target, true, id, p);
    }

    /** Switches automatically, or stores a dry run. */
    method FailOver(target: NodeId, primary: NodeId, id: OperationId, ghost log0: Log)
      returns (stored: Option<SwitchTask>, ghost log: Log)
      requires Valid() && Free(Current(), log0, id) && id != ""
      requires Failing(cfg, monitor.statuses, primary) && Chosen(cfg, monitor.statuses, primary, target)
      requires target in fleet.addresses && (others.alone ==> primary == store.cluster.primary)
      modifies this`tripping, this`lastTask, this`lastDryRunPrimary, others, store, fleet
      ensures Valid() && SameStart(log, log0) && Matches(Current(), Now(log)) && id !in others.threads
      ensures Remembered(stored)
      ensures stored.Some? ==> Justified(cfg, monitor.statuses, store.tasks, primary, id, stored.value)
      ensures stored.Some? && others.alone ==> stored.value.from == primary
      ensures Watching() ==> OnlyTasks(id, stored) && unchanged(store`cluster)
      ensures lastDryRunPrimary ==
              if stored.Some? && stored.value.state.TaskDryRun? then stored.value.from else old(lastDryRunPrimary)
      ensures others.alone ==>
                if leader then Attempted(cfg, monitor.statuses, primary, id, Now(log).threads)
                else id !in Now(log).threads
    {
      ghost var aimed;
      stored, log, aimed := TurnTo(target, id, Now(log0));
      log := Join(log0, log);
    }

    /** Whether to fail over, and to which replica. */
    method Decide(primary: NodeId) returns (target: Option<NodeId>)
      modifies this`lastDryRunPrimary
      ensures target.Some? <==> Due(cfg, monitor.statuses, primary, tripping, old(lastDryRunPrimary))
      ensures target.Some? ==> Chosen(cfg, monitor.statuses, primary, target.value)
      ensures lastDryRunPrimary == if SeenHealthy(primary) then NOBODY else old(lastDryRunPrimary)
    {
      var down := IsDown(primary);
      if !down || (!cfg.autoFailoverExecute && lastDryRunPrimary == primary) {
        return None;
      }
      target := AutomaticTarget(primary);
    }

    /** What one probe has shown and stored. */
    ghost function Glimpsed(record: ClusterState, stored: Option<SwitchTask>): Glimpse
      reads monitor
    {
      Glimpse(record, record.autoFailover && SeenHealthy(record.primary), stored)
    }

    /** Without others the attempt is made exactly when it is due. */
    method TryAutomaticFailover(primary: NodeId, id: OperationId, ghost log0: Log)
      returns (stored: Option<SwitchTask>, ghost log: Log)
      requires Valid() && Free(Current(), log0, id) && id != "" && primary != NOBODY
      requires monitor.statuses.Keys <= monitor.nodes
      requires others.alone ==> primary == store.cluster.primary && store.cluster.autoFailover
      modifies this`tripping, this`lastTask, this`lastDryRunPrimary, others, store, fleet
      ensures Valid() && SameStart(log, log0) && Matches(Current(), Now(log)) && id !in others.threads
      ensures Remembered(stored)
      ensures stored.Some? ==> Justified(cfg, monitor.statuses, store.tasks, primary, id, stored.value)
      ensures stored.Some? && others.alone ==> stored.value.from == primary
      ensures stored.Some? ==> Due(cfg, monitor.statuses, primary, old(tripping), old(lastDryRunPrimary))
      ensures lastDryRunPrimary ==
              if stored.Some? && stored.value.state.TaskDryRun? then stored.value.from
              else if SeenHealthy(primary) then NOBODY
              else old(lastDryRunPrimary)
      ensures Watching() ==> OnlyTasks(id, stored) && unchanged(store`cluster)
      ensures Watching() ==>
                var g := Glimpsed(store.cluster, stored);
                Possible(old(lastDryRunPrimary), g) && lastDryRunPrimary == Remember(old(lastDryRunPrimary), g)
      ensures others.alone ==>
                if leader && Due(cfg, monitor.statuses, primary, old(tripping), old(lastDryRunPrimary))
                then Attempted(cfg, monitor.statuses, primary, id, Now(log).threads)
                else id !in Now(log).threads
    {
      stored, log := None, log0;
      var target := Decide(primary);
      if target.Some? {
        stored, log := FailOver(target.value, primary, id, log0);
      }
    }

    /** What a probe may do without others and without execution: touch no server, leave the epoch and a recorded
        primary, and store at most one dry run, for a primary that it does not remember. */
    twostate predicate Watched(id: OperationId, new stored: Option<SwitchTask>)
      reads this, monitor, others, store, fleet
    {
      var g := Glimpsed(store.cluster, stored);
      && OnlyTasks(id, stored) && Onward(old(store.cluster), store.cluster)
      && Possible(old(lastDryRunPrimary), g) && lastDryRunPrimary == Remember(old(lastDryRunPrimary), g)
    }

    /** Fails over if the record that was read asks for it. */
    method Consider(state: ClusterState, id: OperationId, ghost log0: Log)
      returns (stored: Option<SwitchTask>, ghost log: Log)
      requires Valid() && Free(Current(), log0, id) && id != "" && monitor.statuses.Keys <= monitor.nodes
      requires state == store.cluster
      modifies this`tripping, this`lastTask, this`lastDryRunPrimary, others, store, fleet
      ensures Valid() && SameStart(log, log0) && Matches(Current(), Now(log)) && id !in others.threads
      ensures stored.Some? ==> Justified(cfg, monitor.statuses, store.tasks, state.primary, id, stored.value)
      ensures stored.Some? && others.alone ==> stored.value.from == state.primary
      ensures stored.Some? ==> Due(cfg, monitor.statuses, state.primary, old(tripping), old(lastDryRunPrimary))
      ensures Watching() ==> OnlyTasks(id, stored) && unchanged(store`cluster)
      ensures Watching() ==>
                var g := Glimpsed(state, stored);
                Possible(old(lastDryRunPrimary), g) && lastDryRunPrimary == Remember(old(lastDryRunPrimary), g)
      ensures others.alone ==>
                if state.primary != NOBODY && state.autoFailover && old(leader)
                   && Due(cfg, monitor.statuses, state.primary, old(tripping), old(lastDryRunPrimary))
                then Attempted(cfg, monitor.statuses, state.primary, id, Now(log).threads)
                else id !in Now(log).threads
    {
      stored, log := None, log0;
      if state.autoFailover && state.primary != NOBODY {
        log := Wait(id, log);
        stored, log := TryAutomaticFailover(state.primary, id, log);
      }
    }

    /** Bootstraps, and fails over if the record asks for it; `primary` is the one in the record it read. */
    method React(id: OperationId, ghost log0: Log)
      returns (stored: Option<SwitchTask>, ghost log: Log, ghost primary: NodeId)
      requires Valid() && Free(Current(), log0, id) && id != "" && probing && monitor.statuses.Keys <= monitor.nodes
      modifies this`tripping, this`lastTask, this`lastDryRunPrimary, others, store, fleet
      ensures Valid() && SameStart(log, log0) && Matches(Current(), Now(log)) && id !in others.threads
      ensures stored.Some? ==> Justified(cfg, monitor.statuses, store.tasks, primary, id, stored.value)
      ensures stored.Some? && others.alone ==> stored.value.from == primary
      ensures stored.Some? ==> Due(cfg, monitor.statuses, primary, old(tripping), old(lastDryRunPrimary))
      ensures Watching() ==> Watched(id, stored)
      ensures others.alone ==>
                Responds(cfg, monitor.statuses, old(store.cluster), old(leader), old(tripping), old(lastDryRunPrimary),
                         id, Now(log).threads, primary)
    {
      var state;
      state, log := Bootstrap(id, log0);
      primary := state.primary;
      stored, log := Consider(state, id, log);
    }

    /** One probe. The alerts of every node always follow from its history. */
    method Probe(id: OperationId, ghost log0: Log)
      returns (alerts: map<NodeId, seq<Alert>>, stored: Option<SwitchTask>, ghost log: Log, ghost primary: NodeId)
      requires Valid() && Free(Current(), log0, id) && id != "" && probing && monitor.Valid()
      modifies this, monitor, others, store, fleet
      ensures Valid() && SameStart(log, log0) && Matches(Current(), Now(log)) && id !in others.threads && probing
      ensures leader == old(leader)
      ensures monitor.Valid() && Noted(monitor.nodes, old(monitor.Known()), monitor.Known(), alerts)
      ensures stored.Some? ==> Justified(cfg, monitor.statuses, store.tasks, primary, id, stored.value)
      ensures stored.Some? && others.alone ==> stored.value.from == primary
      ensures stored.Some? ==> LongDown(primary)
      ensures stored.Some? ==> Due(cfg, monitor.statuses, primary, old(tripping), old(lastDryRunPrimary))
      ensures Watching() ==> Watched(id, stored)
      ensures others.alone ==>
                Responds(cfg, monitor.statuses, old(store.cluster), old(leader), old(tripping), old(lastDryRunPrimary),
                         id, Now(log).threads, primary)
    {
      alerts, log := ObserveNodes(id, log0);
      stored, log, primary := React(id, log);
      if stored.Some? {
        RunIsCounted(monitor.Known(), primary, monitor.threshold);
      }
    }

    /** The last observations of the primary, as many as the threshold or more, were all unhealthy. */
    ghost predicate LongDown(primary: NodeId)
      reads monitor
    {
      && primary in monitor.statuses && primary in monitor.history
      && TrailingRun(monitor.history[primary], monitor.statuses[primary].failureCount)
      && monitor.statuses[primary].failureCount >= cfg.failureThreshold
    }

    /** Fresh operation ids. */
    ghost predicate Unused(ids: seq<OperationId>, from: nat)
      reads others
    {
      forall i | from <= i < |ids| :: ids[i] !in others.used
    }

    /** The glimpses so far are of this controller's record, memory, tasks and observations. */
    twostate predicate Shown(ids: seq<OperationId>, gs: seq<Glimpse>)
      requires |gs| <= |ids|
      reads this, monitor, store
    {
      && AllPossible(old(store.cluster), old(lastDryRunPrimary), gs)
      && store.cluster == Latest(old(store.cluster), gs)
      && lastDryRunPrimary == RememberAll(old(lastDryRunPrimary), gs)
      && store.tasks == TasksAfter(old(store.tasks), ids, gs)
      && Witnessed(monitor.nodes, old(monitor.Known()), monitor.Known(), gs)
    }

    /** One probe without others and with automatic execution off. */
    method Glance(id: OperationId, ghost log0: Log)
      returns (alerts: map<NodeId, seq<Alert>>, stored: Option<SwitchTask>, ghost log: Log)
      requires Valid() && Free(Current(), log0, id) && id != "" && probing && monitor.Valid() && Watching()
      modifies this, monitor, others, store, fleet
      ensures Valid() && SameStart(log, log0) && Matches(Current(), Now(log)) && id !in others.threads && probing
      ensures monitor.Valid() && Noted(monitor.nodes, old(monitor.Known()), monitor.Known(), alerts)
      ensures Watched(id, stored)
    {
      ghost var primary;
      alerts, stored, log, primary := Probe(id, log0);
    }

    /** A run of them, one operation id each. */
    method Watch(ids: seq<OperationId>, ghost log0: Log)
      returns (reports: seq<SwitchTask>, ghost glimpses: seq<Glimpse>, ghost log: Log)
      requires Valid() && Sound(log0) && Matches(Current(), Now(log0)) && probing && monitor.Valid() && Watching()
      requires "" !in ids && Unused(ids, 0) && forall i, j | 0 <= i < j < |ids| :: ids[i] != ids[j]
      modifies this, monitor, others, store, fleet
      ensures Valid() && SameStart(log, log0) && Matches(Current(), Now(log)) && probing && monitor.Valid()
      ensures unchanged(fleet) && others.used <= old(others.used) + set id | id in ids
      ensures |glimpses| == |ids| && Shown(ids, glimpses) && reports == Reports(glimpses)
    {
      reports, glimpses, log := [], [], log0;
      for k := 0 to |ids|
        invariant Valid() && SameStart(log, log0) && Matches(Current(), Now(log)) && probing && monitor.Valid()
        invariant unchanged(fleet) && others.used <= old(others.used) + (set id | id in ids) && Unused(ids, k)
        invariant |glimpses| == k && Shown(ids, glimpses) && reports == Reports(glimpses)
      {
        ghost var before := monitor.Known();
        var alerts, stored;
        alerts, stored, log := Glance(ids[k], log);
        ghost var g := Glimpsed(store.cluster, stored);
        OneMoreGlimpse(old(store.cluster), old(lastDryRunPrimary), glimpses, g);
        OneMoreTask(old(store.tasks), ids, glimpses, g);
        WitnessOne(monitor.nodes, old(monitor.Known()), before, monitor.Known(), glimpses, g, alerts);
        OneMoreReport(glimpses, g);
        glimpses := glimpses + [g];
        if stored.Some? {
          reports := reports + [stored.value];
        }
      }
    }

    /** The leader's loop (internal/ha/controller.go:86-108), without others and with automatic execution off. It
        touches no server. A glimpse per probe says what the record was, whether the observation of its primary was a
        healthy one, and which task was stored: the epoch stays, and so does a primary from the probe on that recorded
        it; the stored tasks are exactly those of the glimpses, and all dry runs; and between any two of them the
        primary was seen healthy. Leadership may be taken up again. */
    method RunAsLeader(ids: seq<OperationId>, ghost log0: Log)
      returns (reports: seq<SwitchTask>, ghost glimpses: seq<Glimpse>, ghost log: Log)
      requires Valid() && Sound(log0) && Matches(Current(), Now(log0)) && others.probe.Idle? && monitor.Valid()
      requires Watching()
      requires "" !in ids && Unused(ids, 0) && forall i, j | 0 <= i < j < |ids| :: ids[i] != ids[j]
      modifies this, monitor, others, store, fleet
      ensures Valid() && SameStart(log, log0) && Matches(Current(), Now(log)) && others.probe.Idle? && monitor.Valid()
      ensures !leader
      ensures unchanged(fleet) && others.used <= old(others.used) + set id | id in ids
      ensures |glimpses| == |ids| && store.cluster == Latest(old(store.cluster), glimpses)
      ensures reports == Reports(glimpses) && StoredExactly(old(store.tasks), store.tasks, ids, glimpses)
      ensures Witnessed(monitor.nodes, old(monitor.Known()), monitor.Known(), glimpses)
      ensures forall i | 0 <= i < |glimpses| :: Onward(old(store.cluster), glimpses[i].record)
      ensures forall i, j | 0 <= i <= j < |glimpses| :: Onward(glimpses[i].record, glimpses[j].record)
      ensures forall i | 0 <= i < |glimpses| && glimpses[i].stored.Some? ::
                var task := glimpses[i].stored.value;
                task.state.TaskDryRun? && task.from == glimpses[i].record.primary
      ensures Separated(old(lastDryRunPrimary), glimpses)
      ensures lastDryRunPrimary == RememberAll(old(lastDryRunPrimary), glimpses)
    {
      leader, probing := true, true;
      reports, glimpses, log := Watch(ids, log0);
      OnwardThroughout(old(store.cluster), old(lastDryRunPrimary), glimpses);
      AllAreDryRuns(old(store.cluster), old(lastDryRunPrimary), glimpses);
      DryRunsAreSeparated(old(store.cluster), old(lastDryRunPrimary), glimpses);
      TasksAfterExactly(old(store.tasks), ids, glimpses);
      leader, probing := false, false;
    }
  }
}
