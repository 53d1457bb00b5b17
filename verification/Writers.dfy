/** Which servers accept writes: counted over every run, bounded within one switch, repaired by a completed one. */
module Writers {
  import opened Model
  import opened MySql
  import opened Protocol
  import opened Invariant
  import opened Durability

  function OpenNodes(modes: map<NodeId, Mode>): set<NodeId> {
    set n | n in modes && Writable(modes[n])
  }

  /** Writers that the record does not name. */
  function Strays(s: State): set<NodeId> {
    OpenNodes(s.modes) - {s.record.primary}
  }

  /** The target accepts writes and is not yet recorded. */
  predicate Window(pc: Pc) {
    pc == Promoting(|PROMOTE|) || pc.Promoted?
  }

  predicate InWindow(s: State) {
    && s.holder.Some? && s.holder.value in s.threads
    && var th := s.threads[s.holder.value]; th.Switcher? && Window(th.pc)
  }

  lemma {:induction false} SubsetSize<T>(a: set<T>, b: set<T>)
    requires a <= b
    ensures |a| <= |b|
    decreases a
  {
    if x :| x in a { SubsetSize(a - {x}, b - {x}); }
  }

  // --- Exactly who is open at each point of a switch ---

  lemma ExpectedOpen(base: map<NodeId, Mode>, from: NodeId, target: NodeId, pc: Pc)
    requires target in base && PcShape(base.Keys, from, target, pc) && target != from && !Writable(base[target])
    ensures OpenNodes(Expected(base, from, target, pc)) ==
            match pc
            case Demoting(k) => if k == 0 then OpenNodes(base) else OpenNodes(base) - {from}
            case Confirmed => OpenNodes(base) - {from}
            case Measured(_) => OpenNodes(base) - {from}
            case CaughtUp(_) => OpenNodes(base) - {from}
            case Promoting(k) => if k < |PROMOTE| then OpenNodes(base) - {from} else OpenNodes(base) - {from} + {target}
            case Promoted => OpenNodes(base) - {from} + {target}
            case Linking(done) => OpenNodes(base) - {from} - done + {target}
            case Relinking(done, n, k) => OpenNodes(base) - {from} - done - (if k < 5 then {} else {n}) + {target}
            case _ => OpenNodes(base)
  {
    if from in base { DemoteProgress(base[from], |DEMOTE|); }
    PromoteProgress(base[target], |PROMOTE|);
    match pc
    case Demoting(k) => DemoteProgress(base[from], k);
    case Promoting(k) => PromoteProgress(base[target], k);
    case Relinking(done, n, k) => LinkProgress(PromotedModes(base, from, target, |PROMOTE|)[n], target, k);
    case _ =>
  }

  // --- Counting strays over a run ---

  /** A switch gives up between the promotion's effect and the record. */
  predicate Leaks(s: State, e: Event) {
    e.Fail? && CanFail(s, e.id) && Window(s.threads[e.id].pc)
  }

  /** A switch has repointed every other node. */
  predicate Completes(s: State, e: Event) {
    e.Advance? && CanAdvance(s, e.id) && s.threads[e.id].pc.Linking?
  }

  /** How many switches leaked since the last completed one. */
  ghost function LeakCount(s: State, es: seq<Event>): nat
    requires Run(s, es)
    decreases |es|
  {
    if es == [] then 0
    else
      var m, e := Reach(s, Front(es)), Last(es);
      if Completes(m, e) then 0
      else LeakCount(s, Front(es)) + if Leaks(m, e) then 1 else 0
  }

  /** How many toggles erased a bootstrapped primary since the last completed switch. */
  ghost function EraseCount(s: State, es: seq<Event>): nat
    requires Run(s, es)
    decreases |es|
  {
    if es == [] then 0
    else
      var m, e := Reach(s, Front(es)), Last(es);
      if Completes(m, e) then 0
      else EraseCount(s, Front(es)) + if Erases(m, e) then 1 else 0
  }

  /** Only the last statement of a promotion opens a server. */
  lemma PendingOpens(modes: map<NodeId, Mode>, th: Thread)
    requires th.Switcher?
    ensures OpenNodes(RunPending(modes, Pending(th))) <=
            OpenNodes(modes) + if th.pc == Promoting(|PROMOTE| - 1) then {th.target} else {}
  {}

  /** What a switch's success does to the strays. */
  lemma AdvanceStrays(s: State, id: OperationId)
    requires Inv(s) && CanAdvance(s, id)
    ensures var s', pc := DoAdvance(s, id), s.threads[id].pc;
            && (pc == Promoting(|PROMOTE| - 1) ==> Strays(s') <= Strays(s) + {s.threads[id].target})
            && (pc.Promoted? ==> s.threads[id].target in Strays(s) && Strays(s') <= Strays(s) - {s.threads[id].target})
            && (pc.Linking? ==> Strays(s') == {})
            && (pc != Promoting(|PROMOTE| - 1) ==> Strays(s') <= Strays(s))
  {
    var th := s.threads[id];
    assert HoldsLock(th) <==> s.holder == Some(id);
    PendingOpens(s.modes, th);
    if th.pc.Promoted? {
      FrozenPrimary(s, th);
      ExpectedOpen(s.base, th.snap.primary, th.target, th.pc);
    } else if th.pc.Linking? {
      ExpectedOpen(s.base, th.snap.primary, th.target, th.pc);
    }
  }

  function Slack(s: State): nat {
    if InWindow(s) then 1 else 0
  }

  /** A switch enters its window with the last promotion statement and leaves it with the record. */
  lemma AdvanceWindow(s: State, id: OperationId)
    requires LockInv(s) && CanAdvance(s, id) && (s.threads[id].pc.Promoting? ==> s.threads[id].pc.ran <= |PROMOTE|)
    ensures var pc := s.threads[id].pc;
            Slack(DoAdvance(s, id)) ==
            if pc == Promoting(|PROMOTE| - 1) then 1 else if pc.Promoted? then 0 else Slack(s)
    ensures s.threads[id].pc.Promoted? ==> Slack(s) == 1
  {
    assert HoldsLock(s.threads[id]) <==> s.holder == Some(id);
  }

  lemma AdvanceCount(s: State, id: OperationId)
    requires Inv(s) && CanAdvance(s, id) && !s.threads[id].pc.Linking?
    ensures var s' := DoAdvance(s, id); |Strays(s')| + Slack(s) <= |Strays(s)| + Slack(s')
  {
    var s', th := DoAdvance(s, id), s.threads[id];
    assert th.pc.Promoting? ==> th.pc.ran <= |PROMOTE| by { assert HoldsLock(th) <==> s.holder == Some(id); }
    AdvanceWindow(s, id);
    AdvanceStrays(s, id);
    if th.pc == Promoting(|PROMOTE| - 1) {
      assert Slack(s) == 0 by { assert HoldsLock(th) <==> s.holder == Some(id); }
      SubsetSize(Strays(s'), Strays(s) + {th.target});
    } else if th.pc.Promoted? {
      SubsetSize(Strays(s'), Strays(s) - {th.target});
    } else {
      SubsetSize(Strays(s'), Strays(s));
    }
  }

  lemma OtherWindow(s: State, e: Event)
    requires LockInv(s) && Enabled(s, e) && !e.Lapse? && !e.Advance?
    ensures Slack(s) <= Slack(Next(s, e)) + if Leaks(s, e) then 1 else 0
  {}

  /** An erasure takes the recorded primary out of the record: if it is writable, it is one stray more. */
  lemma ErasureStrays(s: State, e: Event)
    requires Enabled(s, e) && Erases(s, e)
    ensures Strays(Next(s, e)) <= Strays(s) + {s.record.primary}
    ensures s.record.primary in OpenNodes(s.modes) && NOBODY !in s.modes ==>
              s.record.primary !in Strays(s) && Strays(Next(s, e)) == Strays(s) + {s.record.primary}
  {}

  lemma OtherStrays(s: State, e: Event)
    requires Inv(s) && Enabled(s, e) && !e.Lapse? && !e.Advance? && !Erases(s, e)
    ensures Strays(Next(s, e)) <= Strays(s)
  {
    assert e.AdvanceToggle? ==> (HoldsLock(s.threads[e.id]) <==> s.holder == Some(e.id));
  }

  lemma OtherCount(s: State, e: Event)
    requires Inv(s) && Enabled(s, e) && !e.Lapse? && !e.Advance?
    ensures var s' := Next(s, e);
            |Strays(s')| + Slack(s) <=
            |Strays(s)| + Slack(s') + (if Leaks(s, e) then 1 else 0) + (if Erases(s, e) then 1 else 0)
  {
    OtherWindow(s, e);
    if Erases(s, e) {
      ErasureStrays(s, e);
      SubsetSize(Strays(Next(s, e)), Strays(s) + {s.record.primary});
    } else {
      OtherStrays(s, e);
      SubsetSize(Strays(Next(s, e)), Strays(s));
    }
  }

  /** The target of a switch inside its window is a stray. */
  lemma WindowHasAStray(s: State)
    requires Inv(s)
    ensures Slack(s) <= |Strays(s)|
  {
    if InWindow(s) {
      var th := s.threads[s.holder.value];
      ExpectedOpen(s.base, th.snap.primary, th.target, th.pc);
      SubsetSize({th.target}, Strays(s));
    }
  }

  /** Over every run, from every state the protocol can be in: writers outside the record never outnumber those at the
      start, plus the switches that leaked and the toggles that erased the primary since the last completed switch (and
      the target of a switch inside its window). No other failure adds one. */
  lemma {:induction false} StraysAreCounted(s: State, es: seq<Event>)
    requires Inv(s) && Run(s, es) && Exclusive(es)
    ensures var f := Reach(s, es);
            |Strays(f)| + Slack(s) <= |Strays(s)| + LeakCount(s, es) + EraseCount(s, es) + Slack(f)
    decreases |es|
  {
    if es != [] {
      assert Last(es) in es;
      var m, e := Reach(s, Front(es)), Last(es);
      StraysAreCounted(s, Front(es));
      RunInv(s, Front(es));
      if Completes(m, e) { AdvanceStrays(m, e.id); WindowHasAStray(s); }
      else if e.Advance? { AdvanceCount(m, e.id); }
      else { OtherCount(m, e); }
    }
  }

  /** Once a primary is recorded and no toggle is about to write an older, empty one, only leaks count. */
  lemma {:induction false} SettledStrays(s: State, es: seq<Event>)
    requires Inv(s) && Settled(s) && Run(s, es) && Exclusive(es)
    ensures EraseCount(s, es) == 0
    ensures var f := Reach(s, es); |Strays(f)| + Slack(s) <= |Strays(s)| + LeakCount(s, es) + Slack(f)
    decreases |es|
  {
    StraysAreCounted(s, es);
    if es != [] {
      assert Last(es) in es;
      SettledStrays(s, Front(es));
      RunInv(s, Front(es));
      SettledRun(s, Front(es));
      SettledStays(Reach(s, Front(es)), Last(es));
    }
  }

  /** The erasures have to be counted: every erasure of a writable primary adds a writer that the record does not name,
      although no switch leaks. */
  lemma ErasureAttainsTheBound(s: State, e: Event)
    requires Inv(s) && Enabled(s, e) && Erases(s, e) && s.record.primary in OpenNodes(s.modes)
    ensures Run(s, [e]) && LeakCount(s, [e]) == 0 && EraseCount(s, [e]) == 1 && Slack(s) == Slack(Reach(s, [e])) == 0
    ensures |Strays(Reach(s, [e]))| == |Strays(s)| + 1
  {
    Extend(s, [], e);
    assert [] + [e] == [e] && Front([e]) == [];
    assert HoldsLock(s.threads[e.id]) <==> s.holder == Some(e.id);
    ErasureStrays(s, e);
  }

  /** Such a state is reached from the empty record, by a bootstrap behind the back of a toggle. */
  lemma ErasureAddsAWriter() returns (s: State, es: seq<Event>, e: Event)
    ensures Initial(s) && Run(s, es) && Exclusive(es)
    ensures var f := Reach(s, es); Inv(f) && Enabled(f, e) && Erases(f, e) && f.record.primary in OpenNodes(f.modes)
  {
    s, e := TwoOpenServers(), AdvanceToggle("t");
    es := BootstrapBehindToggle();
    InitialInv(s);
    RunInv(s, es);
    ToggleErases(Reach(s, es));
  }
}
