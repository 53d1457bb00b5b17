/** Who may change a server, until when, and what the stored task says about it. */
module Authority {
  import opened Model
  import opened Protocol
  import opened Invariant
  import opened Epochs
  import opened Exits
  import opened Replication

  /** In every interleaving of the two-step acquire and release, an active operation belongs to the switch that
      placed it, and that switch holds the lock. */
  lemma ActiveOperationHoldsLock(s: State, es: seq<Event>)
    requires Initial(s) && Run(s, es) && Exclusive(es)
    ensures var f := Reach(s, es);
            f.operation.Some? ==>
              var id := f.operation.value.operation;
              && f.holder == Some(id) && id in f.threads && f.threads[id].Switcher?
              && f.operation.value == AuthOf(id, f.threads[id])
  {
    InitialInv(s);
    RunInv(s, es);
  }

  /** Every single statement that changes a server runs while its switch's authorization is still valid, not only
      the moment its agent checked it. */
  lemma RoleChangesAreAuthorized(s: State, e: Event)
    requires Inv(s) && Enabled(s, e) && !e.Lapse? && Next(s, e).modes != s.modes
    ensures e.Advance? && s.holder == Some(e.id) && Verify(s, AuthOf(e.id, s.threads[e.id]))
  {
    if !e.Advance? { OtherAcyclic(s, e); } else { StatementIsAuthorized(s, e.id); }
  }

  lemma StatementIsAuthorized(s: State, id: OperationId)
    requires Inv(s) && CanAdvance(s, id) && RunPending(s.modes, Pending(s.threads[id])) != s.modes
    ensures s.holder == Some(id) && Verify(s, AuthOf(id, s.threads[id]))
  {}

  /** From the re-read under the lock to the final task, a switch's authorization is valid at every moment, so it does
      not matter whether an agent's check reads the epoch and the operation together or one after the other. */
  lemma AuthorizedThroughout(s: State, es: seq<Event>, id: OperationId)
    requires Initial(s) && Run(s, es) && Exclusive(es)
    requires var f := Reach(s, es);
             id in f.threads && HoldsOperation(f.threads[id]) && PastReread(At(f.threads[id].pc))
    ensures Verify(Reach(s, es), AuthOf(id, Reach(s, es).threads[id]))
  {
    InitialInv(s);
    RunInv(s, es);
    var f := Reach(s, es);
    assert HoldsLock(f.threads[id]) <==> f.holder == Some(id);
  }

  /** The switch has emptied the operation slot. */
  predicate Resigned(pc: Pc) {
    pc.Cleared? || pc.Released?
  }

  lemma ResignedStays(s: State, e: Event, id: OperationId)
    requires Underway(s, id) && Resigned(s.threads[id].pc) && Enabled(s, e)
    ensures id in Next(s, e).threads && Next(s, e).threads[id].Switcher? && Resigned(Next(s, e).threads[id].pc)
  {
    UnderwayStays(s, e, id);
  }

  /** Once a switch has resigned, its authorization is refused in every later state. */
  lemma {:induction false} RefusedEverAfter(s: State, es: seq<Event>, id: OperationId)
    requires Inv(s) && Underway(s, id) && Resigned(s.threads[id].pc) && Run(s, es) && Exclusive(es)
    ensures var f := Reach(s, es);
            Underway(f, id) && Resigned(f.threads[id].pc) && !Verify(f, AuthOf(id, s.threads[id]))
    decreases |es|
  {
    UnderwayRun(s, es, id);
    RunInv(s, es);
    if es != [] {
      assert Last(es) in es;
      UnderwayRun(s, Front(es), id);
      RefusedEverAfter(s, Front(es), id);
      ResignedStays(Reach(s, Front(es)), Last(es), id);
    }
    var f := Reach(s, es);
    assert HoldsLock(f.threads[id]) <==> f.holder == Some(id);
  }

  // --- Tasks ---

  /** How often the switch `id` has written the record. */
  ghost function RecordsBy(s: State, es: seq<Event>, id: OperationId): nat
    requires Run(s, es)
    decreases |es|
  {
    if es == [] then 0
    else
      var m, e := Reach(s, Front(es)), Last(es);
      RecordsBy(s, Front(es), id) + if Records(m, e) && e.id == id then 1 else 0
  }

  ghost predicate HasRecorded(s: State, id: OperationId) {
    id in s.threads && s.threads[id].Switcher? && PastRecord(At(s.threads[id].pc))
  }

  lemma AdvanceRecords(s: State, mover: OperationId, id: OperationId)
    requires TaskInv(s) && CanAdvance(s, mover)
    ensures HasRecorded(DoAdvance(s, mover), id) <==>
            HasRecorded(s, id) || (s.threads[mover].pc.Promoted? && mover == id)
  {}

  lemma OthersDoNotRecord(s: State, e: Event, id: OperationId)
    requires Enabled(s, e) && !e.Advance?
    ensures HasRecorded(Next(s, e), id) <==> HasRecorded(s, id)
  {}

  lemma {:induction false} RecordsAtMostOnce(s: State, es: seq<Event>, id: OperationId)
    requires Initial(s) && Run(s, es) && Exclusive(es)
    ensures RecordsBy(s, es, id) == if HasRecorded(Reach(s, es), id) then 1 else 0
    decreases |es|
  {
    if es != [] {
      assert Last(es) in es;
      RecordsAtMostOnce(s, Front(es), id);
      InitialInv(s);
      RunInv(s, Front(es));
      var m, e := Reach(s, Front(es)), Last(es);
      if e.Advance? { AdvanceRecords(m, e.id, id); } else { OthersDoNotRecord(m, e, id); }
    }
  }

  /** A stored task tells the truth: one stored as running belongs to a switch that still holds the lock, so every
      switch stores a final state before it gives the lock back; a completed task means the switch wrote the record
      exactly once, a dry run that it never did. */
  lemma StoredTasksAreTrue(s: State, es: seq<Event>, id: OperationId)
    requires Initial(s) && Run(s, es) && Exclusive(es) && id in Reach(s, es).tasks
    ensures var f := Reach(s, es);
            && Underway(f, id)
            && (f.tasks[id] == TaskRunning ==> f.holder == Some(id))
            && (f.tasks[id] == TaskCompleted ==> RecordsBy(s, es, id) == 1)
            && (f.tasks[id] == TaskDryRun ==> RecordsBy(s, es, id) == 0)
            && (f.threads[id].pc.Released? ==> f.tasks[id] == Final(f.threads[id].pc.outcome.verdict))
  {
    InitialInv(s);
    RunInv(s, es);
    RecordsAtMostOnce(s, es, id);
    var f := Reach(s, es);
    assert id in f.threads && TaskOf(f.tasks, f.modes.Keys, id, f.threads[id]);
    assert HoldsLock(f.threads[id]) <==> f.holder == Some(id);
  }
}
