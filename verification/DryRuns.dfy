/** Runs of probes with automatic execution off (internal/ha/controller.go:142-155 and 182-214): what the record
    becomes, when a dry run is stored, and what the controller remembers in between. */
module DryRuns {
  import opened Model
  import opened MemoryStore
  import opened Protocol
  import opened Alerts
  import opened Monitor

  /** One probe, seen from outside: the record it left, whether it looked at the recorded primary and found it healthy,
      and the task it stored. */
  datatype Glimpse = Glimpse(record: ClusterState, saw: bool, stored: Option<SwitchTask>)

  // --- One probe ---

  /** What a probe may do to the record: the epoch stays, and so does a recorded primary. */
  predicate Onward(before: ClusterState, after: ClusterState) {
    after.epoch == before.epoch && (before.primary != NOBODY ==> after == before)
  }

  /** The primary that the controller remembers as reported. */
  function Remember(last: NodeId, g: Glimpse): NodeId {
    if g.saw then NOBODY else if g.stored.Some? then g.record.primary else last
  }

  /** A probe that remembers `last` stores at most a dry run, for a recorded primary that it did not see healthy and
      that is not the one it remembers. */
  predicate Possible(last: NodeId, g: Glimpse) {
    g.stored.Some? ==>
      && !g.saw && g.record.primary != NOBODY && g.record.primary != last
      && g.stored.value.state.TaskDryRun? && g.stored.value.from == g.record.primary
  }

  // --- A run of probes ---

  function Latest(r0: ClusterState, gs: seq<Glimpse>): ClusterState {
    if gs == [] then r0 else Last(gs).record
  }

  function RememberAll(last: NodeId, gs: seq<Glimpse>): NodeId {
    if gs == [] then last else Remember(RememberAll(last, Front(gs)), Last(gs))
  }

  predicate AllPossible(r0: ClusterState, last: NodeId, gs: seq<Glimpse>) {
    gs == [] ||
    (AllPossible(r0, last, Front(gs)) && Onward(Latest(r0, Front(gs)), Last(gs).record)
     && Possible(RememberAll(last, Front(gs)), Last(gs)))
  }

  lemma OneMoreGlimpse(r0: ClusterState, last: NodeId, gs: seq<Glimpse>, g: Glimpse)
    requires AllPossible(r0, last, gs) && Onward(Latest(r0, gs), g.record) && Possible(RememberAll(last, gs), g)
    ensures AllPossible(r0, last, gs + [g]) && RememberAll(last, gs + [g]) == Remember(RememberAll(last, gs), g)
  {
    assert Front(gs + [g]) == gs;
  }

  /** The epoch stays, and so does the whole record from the moment it has a primary. */
  lemma {:induction false} OnwardThroughout(r0: ClusterState, last: NodeId, gs: seq<Glimpse>)
    requires AllPossible(r0, last, gs)
    ensures forall i | 0 <= i < |gs| :: Onward(r0, gs[i].record)
    ensures forall i, j | 0 <= i <= j < |gs| :: Onward(gs[i].record, gs[j].record)
  {
    if gs != [] {
      var front := Front(gs);
      OnwardThroughout(r0, last, front);
      forall i, j | 0 <= i <= j < |gs| ensures Onward(gs[i].record, gs[j].record) {
        if i < |front| {
          assert front[i] == gs[i] && (j < |front| ==> front[j] == gs[j]);
          assert Onward(front[i].record, front[|front| - 1].record);
        }
      }
    }
  }

  /** A dry run is remembered until the primary is seen healthy. */
  lemma {:induction false} Lingers(r0: ClusterState, last: NodeId, gs: seq<Glimpse>, i: nat)
    requires AllPossible(r0, last, gs) && i < |gs| && gs[i].stored.Some? && forall k | i < k < |gs| :: !gs[k].saw
    ensures RememberAll(last, gs) == Last(gs).record.primary
    decreases |gs|
  {
    if i < |gs| - 1 {
      var front := Front(gs);
      Lingers(r0, last, front, i);
      OnwardThroughout(r0, last, front);
      assert front[i].stored == gs[i].stored && Possible(RememberAll(last, front[..i]), front[i]) by {
        PrefixPossible(r0, last, front, i);
      }
      assert Onward(front[i].record, Last(front).record);
    } else {
      PrefixPossible(r0, last, gs, i);
    }
  }

  lemma {:induction false} PrefixPossible(r0: ClusterState, last: NodeId, gs: seq<Glimpse>, i: nat)
    requires AllPossible(r0, last, gs) && i < |gs|
    ensures AllPossible(r0, last, gs[..i]) && Possible(RememberAll(last, gs[..i]), gs[i])
    decreases |gs|
  {
    if i < |gs| - 1 {
      PrefixPossible(r0, last, Front(gs), i);
      assert Front(gs)[..i] == gs[..i];
    } else {
      assert gs[..i] == Front(gs);
    }
  }

  /** Every stored task is a dry run for the primary recorded then. */
  lemma AllAreDryRuns(r0: ClusterState, last: NodeId, gs: seq<Glimpse>)
    requires AllPossible(r0, last, gs)
    ensures forall i | 0 <= i < |gs| && gs[i].stored.Some? ::
              gs[i].stored.value.state.TaskDryRun? && gs[i].stored.value.from == gs[i].record.primary
  {
    forall i | 0 <= i < |gs| && gs[i].stored.Some?
      ensures gs[i].stored.value.state.TaskDryRun? && gs[i].stored.value.from == gs[i].record.primary
    {
      PrefixPossible(r0, last, gs, i);
    }
  }

  /** Between any two dry runs of the run a probe saw the recorded primary healthy; and before the first one for the
      primary that was remembered at the start, too. */
  ghost predicate Separated(last: NodeId, gs: seq<Glimpse>) {
    && (forall i, j | 0 <= i < j < |gs| && gs[i].stored.Some? && gs[j].stored.Some? ::
          exists k :: i < k < j && gs[k].saw)
    && (forall j | 0 <= j < |gs| && gs[j].stored.Some? && gs[j].record.primary == last ::
          exists k :: 0 <= k < j && gs[k].saw)
  }

  lemma SeparatedAt(r0: ClusterState, last: NodeId, gs: seq<Glimpse>, i: nat, j: nat)
    requires AllPossible(r0, last, gs) && i < j < |gs| && gs[i].stored.Some? && gs[j].stored.Some?
    ensures exists k :: i < k < j && gs[k].saw
  {
    PrefixPossible(r0, last, gs, i);
    PrefixPossible(r0, last, gs, j);
    OnwardThroughout(r0, last, gs);
    assert Onward(gs[i].record, gs[j - 1].record) && Onward(gs[i].record, gs[j].record);
    if forall k | i < k < j :: !gs[k].saw {
      Lingers(r0, last, gs[..j], i);
      assert false;
    }
  }

  /** The remembered primary is either still remembered or has been seen healthy or replaced. */
  lemma {:induction false} StillRemembered(r0: ClusterState, last: NodeId, gs: seq<Glimpse>)
    requires AllPossible(r0, last, gs) && forall k | 0 <= k < |gs| :: !gs[k].saw && gs[k].stored.None?
    ensures RememberAll(last, gs) == last
  {
    if gs != [] {
      assert forall k | 0 <= k < |gs| - 1 :: Front(gs)[k] == gs[k];
      StillRemembered(r0, last, Front(gs));
    }
  }

  lemma SeparatedFromStart(r0: ClusterState, last: NodeId, gs: seq<Glimpse>, j: nat)
    requires AllPossible(r0, last, gs) && j < |gs| && gs[j].stored.Some? && gs[j].record.primary == last
    ensures exists k :: 0 <= k < j && gs[k].saw
  {
    PrefixPossible(r0, last, gs, j);
    if i :| 0 <= i < j && gs[i].stored.Some? {
      SeparatedAt(r0, last, gs, i, j);
    } else if forall k | 0 <= k < j :: !gs[k].saw {
      StillRemembered(r0, last, gs[..j]);
      assert false;
    }
  }

  lemma DryRunsAreSeparated(r0: ClusterState, last: NodeId, gs: seq<Glimpse>)
    requires AllPossible(r0, last, gs)
    ensures Separated(last, gs)
  {
    forall i, j | 0 <= i < j < |gs| && gs[i].stored.Some? && gs[j].stored.Some?
      ensures exists k :: i < k < j && gs[k].saw
    {
      SeparatedAt(r0, last, gs, i, j);
    }
    forall j | 0 <= j < |gs| && gs[j].stored.Some? && gs[j].record.primary == last
      ensures exists k :: 0 <= k < j && gs[k].saw
    {
      SeparatedFromStart(r0, last, gs, j);
    }
  }

  // --- What the glimpses are of ---

  /** Since the book `b0`, every node was observed once per probe; and a glimpse says that the primary was seen healthy
      exactly if the failover flag was on and that probe's observation of the primary was a healthy one. */
  ghost predicate Witnessed(nodes: set<NodeId>, b0: Book, b: Book, gs: seq<Glimpse>) {
    && (forall n <- nodes :: Observed(b0, b, n, |gs|))
    && (forall i | 0 <= i < |gs| ::
          gs[i].saw <==> gs[i].record.autoFailover && SawUp(nodes, b0, b, gs[i].record.primary, i))
  }

  ghost predicate Observed(b0: Book, b: Book, n: NodeId, times: nat) {
    n in b0.history && n in b.history && b0.history[n] <= b.history[n] && |b.history[n]| == |b0.history[n]| + times
  }

  /** The observation of node `n` number `i` since the book `b0` was a healthy one. */
  ghost predicate SawUp(nodes: set<NodeId>, b0: Book, b: Book, n: NodeId, i: nat) {
    && n in nodes && n in b0.history && n in b.history
    && |b0.history[n]| + i < |b.history[n]| && b.history[n][|b0.history[n]| + i]
  }

  lemma WitnessOne(nodes: set<NodeId>, b0: Book, b: Book, b': Book, gs: seq<Glimpse>, g: Glimpse,
                   alerts: map<NodeId, seq<Alert>>)
    requires Witnessed(nodes, b0, b, gs) && Noted(nodes, b, b', alerts) && b'.statuses.Keys <= nodes
    requires var p := g.record.primary;
             g.saw <==> g.record.autoFailover && p in b'.statuses && b'.statuses[p].healthy
    ensures Witnessed(nodes, b0, b', gs + [g])
  {
    forall n <- nodes ensures Observed(b0, b', n, |gs| + 1) {
      assert Observed(b0, b, n, |gs|);
    }
    var all := gs + [g];
    forall i | 0 <= i < |all|
      ensures all[i].saw <==> all[i].record.autoFailover && SawUp(nodes, b0, b', all[i].record.primary, i)
    {
      var p := all[i].record.primary;
      if p in nodes { assert Observed(b0, b, p, |gs|); }
      if i < |gs| { assert all[i] == gs[i]; }
    }
  }

  // --- The stored tasks ---

  /** The tasks once the probes have stored theirs, probe `i` under the id `ids[i]`. */
  function TasksAfter(tasks: map<OperationId, SwitchTask>, ids: seq<OperationId>, gs: seq<Glimpse>):
    map<OperationId, SwitchTask>
    requires |gs| <= |ids|
  {
    if gs == [] then tasks
    else
      var before := TasksAfter(tasks, ids, Front(gs));
      if Last(gs).stored.Some? then before[ids[|gs| - 1] := Last(gs).stored.value] else before
  }

  lemma OneMoreTask(tasks: map<OperationId, SwitchTask>, ids: seq<OperationId>, gs: seq<Glimpse>, g: Glimpse)
    requires |gs| < |ids|
    ensures var before := TasksAfter(tasks, ids, gs);
            TasksAfter(tasks, ids, gs + [g]) == if g.stored.Some? then before[ids[|gs|] := g.stored.value] else before
  {
    assert Front(gs + [g]) == gs;
  }

  /** The tasks are exactly the old ones and the dry runs of the probes that stored one. */
  ghost predicate StoredExactly(tasks: map<OperationId, SwitchTask>, tasks': map<OperationId, SwitchTask>,
                                ids: seq<OperationId>, gs: seq<Glimpse>)
    requires |gs| <= |ids|
  {
    && (forall i | 0 <= i < |gs| && gs[i].stored.Some? :: ids[i] in tasks' && tasks'[ids[i]] == gs[i].stored.value)
    && (forall id | (forall i | 0 <= i < |gs| && ids[i] == id :: gs[i].stored.None?) ::
          (id in tasks' <==> id in tasks) && (id in tasks ==> tasks'[id] == tasks[id]))
  }

  lemma {:induction false} OthersKept(tasks: map<OperationId, SwitchTask>, ids: seq<OperationId>, gs: seq<Glimpse>,
                                      id: OperationId)
    requires |gs| <= |ids| && forall i | 0 <= i < |gs| && ids[i] == id :: gs[i].stored.None?
    ensures var tasks' := TasksAfter(tasks, ids, gs);
            (id in tasks' <==> id in tasks) && (id in tasks ==> tasks'[id] == tasks[id])
  {
    if gs != [] {
      assert forall i | 0 <= i < |gs| - 1 :: Front(gs)[i] == gs[i];
      OthersKept(tasks, ids, Front(gs), id);
    }
  }

  lemma {:induction false} OwnStored(tasks: map<OperationId, SwitchTask>, ids: seq<OperationId>, gs: seq<Glimpse>,
                                     i: nat)
    requires i < |gs| <= |ids| && gs[i].stored.Some? && forall k, j | 0 <= k < j < |ids| :: ids[k] != ids[j]
    ensures var tasks' := TasksAfter(tasks, ids, gs); ids[i] in tasks' && tasks'[ids[i]] == gs[i].stored.value
    decreases |gs|
  {
    if i < |gs| - 1 { OwnStored(tasks, ids, Front(gs), i); }
  }

  lemma TasksAfterExactly(tasks: map<OperationId, SwitchTask>, ids: seq<OperationId>, gs: seq<Glimpse>)
    requires |gs| <= |ids| && forall i, j | 0 <= i < j < |ids| :: ids[i] != ids[j]
    ensures StoredExactly(tasks, TasksAfter(tasks, ids, gs), ids, gs)
  {
    var tasks' := TasksAfter(tasks, ids, gs);
    forall i | 0 <= i < |gs| && gs[i].stored.Some? ensures ids[i] in tasks' && tasks'[ids[i]] == gs[i].stored.value {
      OwnStored(tasks, ids, gs, i);
    }
    forall id | (forall i | 0 <= i < |gs| && ids[i] == id :: gs[i].stored.None?)
      ensures (id in tasks' <==> id in tasks) && (id in tasks ==> tasks'[id] == tasks[id])
    {
      OthersKept(tasks, ids, gs, id);
    }
  }

  /** What the probes reported, in order. */
  function Reports(gs: seq<Glimpse>): seq<SwitchTask> {
    if gs == [] then []
    else if Last(gs).stored.Some? then Reports(Front(gs)) + [Last(gs).stored.value]
    else Reports(Front(gs))
  }

  lemma OneMoreReport(gs: seq<Glimpse>, g: Glimpse)
    ensures Reports(gs + [g]) == if g.stored.Some? then Reports(gs) + [g.stored.value] else Reports(gs)
  {
    assert Front(gs + [g]) == gs;
  }
}
