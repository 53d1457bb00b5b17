/** One switch from the moment it takes the lock: what it has changed at every point and at every exit. */
module Exits {
  import opened Model
  import opened MySql
  import opened Protocol
  import opened Invariant
  import opened Writers

  /** A switch that has left its starting point. */
  ghost predicate Underway(s: State, id: OperationId) {
    id in s.threads && s.threads[id].Switcher? && !s.threads[id].pc.Ready?
  }

  lemma UnderwayStays(s: State, e: Event, id: OperationId)
    requires Underway(s, id) && Enabled(s, e)
    ensures var s' := Next(s, e);
            Underway(s', id) && s'.threads[id] == s.threads[id].(pc := s'.threads[id].pc)
  {}

  /** The record `r` is, up to its flag, the record `r0`, unless that was still empty and may have been bootstrapped. */
  predicate Found(r0: ClusterState, r: ClusterState) {
    (r.primary == r0.primary && r.epoch == r0.epoch) || (r0.primary == NOBODY && r0.epoch == r.epoch == 0)
  }

  /** One event leaves the lock with the switch `id`: it was there before, the modes at lock time stay remembered, and
      the record changes only by the switch's own write or, while it is empty, by a bootstrap. */
  ghost predicate Holds(s: State, s': State, id: OperationId)
    requires Underway(s, id)
  {
    && s.holder == Some(id) && s'.base == s.base && Underway(s', id)
    && var at, at' := At(s.threads[id].pc), At(s'.threads[id].pc);
       && (PastRecord(at) ==> PastRecord(at')) && (PastReread(at) ==> PastReread(at'))
       && (PastRecord(at') ==> PastReread(at))
       && (PastReread(at') && !PastReread(at) ==> s.record.primary == s.threads[id].snap.primary
                                                  && s.record.epoch == s.threads[id].snap.epoch)
       && (!PastRecord(at') ==>
             s'.record == s.record || (s.record.primary == NOBODY && s.record.epoch == s'.record.epoch == 0))
  }

  lemma OnlyTheHolderAdvances(s: State, mover: OperationId, id: OperationId)
    requires LockInv(s) && CanAdvance(s, mover) && Underway(s, id) && DoAdvance(s, mover).holder == Some(id)
    ensures mover == id && s.holder == Some(id)
  {
    assert HoldsLock(s.threads[mover]) <==> s.holder == Some(mover);
  }

  lemma OwnAdvance(s: State, id: OperationId)
    requires CanAdvance(s, id) && s.holder == Some(id) && Underway(s, id) && OutcomeShape(s.modes.Keys, s.threads[id])
    ensures Holds(s, DoAdvance(s, id), id)
  {}

  lemma HeldAdvance(s: State, mover: OperationId, id: OperationId)
    requires Inv(s) && CanAdvance(s, mover) && Underway(s, id) && DoAdvance(s, mover).holder == Some(id)
    ensures Holds(s, DoAdvance(s, mover), id)
  {
    OnlyTheHolderAdvances(s, mover, id);
    assert TaskOf(s.tasks, s.modes.Keys, id, s.threads[id]);
    OwnAdvance(s, id);
  }

  lemma HeldToggle(s: State, mover: OperationId, id: OperationId)
    requires Inv(s) && CanToggle(s, mover) && Underway(s, id)
    ensures DoToggle(s, mover).holder != Some(id)
  {
    assert HoldsLock(s.threads[mover]) <==> s.holder == Some(mover);
  }

  lemma HeldOther(s: State, e: Event, id: OperationId)
    requires BootInv(s) && Enabled(s, e) && !e.Lapse? && !e.Advance? && !e.AdvanceToggle?
    requires Underway(s, id) && Next(s, e).holder == Some(id)
    ensures Holds(s, Next(s, e), id)
  {}

  /** The switch `id` has just taken the lock. */
  ghost predicate TookLock(s: State, id: OperationId) {
    Inv(s) && s.holder == Some(id) && id in s.threads && s.threads[id].Switcher? && s.threads[id].pc.Locked?
  }

  lemma {:induction false} UnderwayRun(s: State, es: seq<Event>, id: OperationId)
    requires Underway(s, id) && Run(s, es)
    ensures var f := Reach(s, es);
            Underway(f, id) && f.threads[id] == s.threads[id].(pc := f.threads[id].pc)
    decreases |es|
  {
    if es != [] {
      UnderwayRun(s, Front(es), id);
      UnderwayStays(Reach(s, Front(es)), Last(es), id);
    }
  }

  /** What a switch that still holds the lock found: the record has been left alone, but for a bootstrap, until the
      switch wrote it; and that was on the record its snapshot had agreed with. */
  ghost predicate Untampered(s: State, f: State, id: OperationId)
    requires Underway(f, id)
  {
    var th := f.threads[id];
    && (PastReread(At(th.pc)) ==> Found(s.record, th.snap))
    && (!PastRecord(At(th.pc)) ==>
          f.record == s.record || (s.record.primary == NOBODY && s.record.epoch == f.record.epoch == 0))
  }

  lemma HoldsUntampered(s: State, m: State, f: State, id: OperationId)
    requires Underway(m, id) && Untampered(s, m, id) && Holds(m, f, id)
    requires f.threads[id] == m.threads[id].(pc := f.threads[id].pc)
    ensures Untampered(s, f, id)
  {}

  lemma HeldStep(s: State, e: Event, id: OperationId)
    requires Inv(s) && Enabled(s, e) && !e.Lapse? && Underway(s, id) && Next(s, e).holder == Some(id)
    ensures Holds(s, Next(s, e), id)
  {
    if e.Advance? { HeldAdvance(s, e.id, id); }
    else if e.AdvanceToggle? { HeldToggle(s, e.id, id); }
    else { HeldOther(s, e, id); }
  }

  lemma {:induction false} HeldRun(s: State, es: seq<Event>, id: OperationId)
    requires TookLock(s, id) && Run(s, es) && Exclusive(es) && Reach(s, es).holder == Some(id)
    ensures var f := Reach(s, es);
            && f.base == s.base && Underway(f, id) && f.threads[id] == s.threads[id].(pc := f.threads[id].pc)
            && Untampered(s, f, id)
    decreases |es|
  {
    UnderwayRun(s, es, id);
    if es != [] {
      assert Last(es) in es;
      var m, e := Reach(s, Front(es)), Last(es);
      UnderwayRun(s, Front(es), id);
      RunInv(s, Front(es));
      HeldStep(m, e, id);
      HeldRun(s, Front(es), id);
      UnderwayStays(m, e, id);
      HoldsUntampered(s, m, Next(m, e), id);
    }
  }

  /** The servers are as expected from their modes at lock time, */
  lemma HeldModes(s: State, f: State, id: OperationId)
    requires TookLock(s, id) && Inv(f) && f.holder == Some(id) && Underway(f, id) && f.base == s.base
    requires f.threads[id] == s.threads[id].(pc := f.threads[id].pc)
    ensures var from, target, at := s.threads[id].snap.primary, s.threads[id].target, At(f.threads[id].pc);
            && target in s.modes && PcShape(s.modes.Keys, from, target, at)
            && f.modes == Expected(s.modes, from, target, at)
            && (PastCheck(at) ==> target != from && !Writable(s.modes[target]))
  {
    assert s.base == s.modes;
  }

  /** and the record is the switch's own, or still the one its snapshot agreed with. */
  lemma HeldRecord(f: State, id: OperationId)
    requires Inv(f) && f.holder == Some(id) && Underway(f, id) && PastReread(At(f.threads[id].pc))
    ensures var th := f.threads[id];
            if PastRecord(At(th.pc)) then f.record.primary == th.target && f.record.epoch == th.snap.epoch + 1
            else f.record.primary == th.snap.primary && f.record.epoch == th.snap.epoch
  {}

  /** For as long as a switch holds the lock, whatever else happens: the modes of all servers are the ones expected from
      those at lock time; and the record is untouched but for a bootstrap, or it is the one that the switch found with
      the target one epoch later. */
  lemma SwitchEffects(s: State, es: seq<Event>, id: OperationId)
    requires TookLock(s, id) && Run(s, es) && Exclusive(es) && Reach(s, es).holder == Some(id)
    ensures var f := Reach(s, es);
            && Underway(f, id) && f.threads[id] == s.threads[id].(pc := f.threads[id].pc) && Untampered(s, f, id)
            && var th, at := f.threads[id], At(f.threads[id].pc);
               && th.target in s.modes && PcShape(s.modes.Keys, th.snap.primary, th.target, at)
               && f.modes == Expected(s.modes, th.snap.primary, th.target, at)
               && (PastCheck(at) ==> th.target != th.snap.primary && !Writable(s.modes[th.target]))
               && (PastReread(at) ==>
                     if PastRecord(at) then f.record.primary == th.target && f.record.epoch == th.snap.epoch + 1
                     else f.record.primary == th.snap.primary && f.record.epoch == th.snap.epoch)
  {
    HeldRun(s, es, id);
    RunInv(s, es);
    var f := Reach(s, es);
    HeldModes(s, f, id);
    if PastReread(At(f.threads[id].pc)) { HeldRecord(f, id); }
  }

  // --- The exits (internal/ha/controller.go:327-435) ---

  datatype ExitClass = Untouched | OldClosed | TargetOpened | NewRecorded

  /** Every point of a switch belongs to one class. */
  function ClassOf(at: Pc): ExitClass {
    match at
    case Demoting(k) => if k == 0 then Untouched else OldClosed
    case Confirmed => OldClosed
    case Measured(_) => OldClosed
    case CaughtUp(_) => OldClosed
    case Promoting(k) => if k < |PROMOTE| then OldClosed else TargetOpened
    case Promoted => TargetOpened
    case Linking(_) => NewRecorded
    case Relinking(_, _, _) => NewRecorded
    case _ => Untouched
  }

  /** What a switch of class `c` has made of the modes and the record it found. */
  ghost predicate Did(modes: map<NodeId, Mode>, record: ClusterState, modes': map<NodeId, Mode>, record': ClusterState,
                      target: NodeId, c: ExitClass)
  {
    var from := record.primary;
    match c
    case Untouched => modes' == modes && record' == record
    case OldClosed =>
      && record' == record && from in modes' && modes'[from].access.SuperReadOnly?
      && OpenNodes(modes') == OpenNodes(modes) - {from}
      && modes'.Keys == modes.Keys && (forall n <- modes :: n != from && n != target ==> modes'[n] == modes[n])
    case TargetOpened =>
      && record' == record && from in modes' && modes'[from].access.SuperReadOnly?
      && OpenNodes(modes') == OpenNodes(modes) - {from} + {target} && target !in OpenNodes(modes)
      && modes'.Keys == modes.Keys && (forall n <- modes :: n != from && n != target ==> modes'[n] == modes[n])
    case NewRecorded =>
      && record'.primary == target && record'.epoch == record.epoch + 1
      && target in OpenNodes(modes') && OpenNodes(modes') <= OpenNodes(modes) - {from} + {target}
  }

  /** The record that the switch met: the one that is still there, or the one it replaced. */
  ghost function Met(f: State, id: OperationId, at: Pc): ClusterState
    requires id in f.threads && f.threads[id].Switcher?
  {
    if PastRecord(at) then f.threads[id].snap else f.record
  }

  /** What the switch `id` has done from lock time `s` to `f`, its last point being `at`: on the record it met, exactly
      what the class of that point says; and that record was the one at lock time, or one that a bootstrap put in its
      place. */
  ghost predicate Accounted(s: State, f: State, id: OperationId, at: Pc) {
    && id in s.threads && s.threads[id].Switcher? && id in f.threads && f.threads[id].Switcher?
    && Found(s.record, Met(f, id, at))
    && (!PastRecord(at) && s.record.primary != NOBODY ==> f.record == s.record)
    && Did(s.modes, Met(f, id, at), f.modes, f.record, f.threads[id].target, ClassOf(at))
  }

  /** Wherever a switch stands or gives up under the lock, from whatever cluster: it has done exactly what the class of
      its last point says. */
  lemma EveryExitHasItsClass(s: State, es: seq<Event>, id: OperationId)
    requires TookLock(s, id) && Run(s, es) && Exclusive(es) && Reach(s, es).holder == Some(id)
    ensures var f := Reach(s, es); Underway(f, id) && Accounted(s, f, id, At(f.threads[id].pc))
  {
    SwitchEffects(s, es, id);
    var f := Reach(s, es);
    var th := f.threads[id];
    ClassEffects(s.modes, f, Met(f, id, At(th.pc)), th.snap.primary, th.target, At(th.pc));
  }

  lemma ClassEffects(modes: map<NodeId, Mode>, f: State, met: ClusterState, from: NodeId, target: NodeId, at: Pc)
    requires target in modes && PcShape(modes.Keys, from, target, at)
    requires PastCheck(at) ==> from == met.primary && target != from && !Writable(modes[target])
    requires f.modes == Expected(modes, from, target, at)
    requires if PastRecord(at) then f.record.primary == target && f.record.epoch == met.epoch + 1 else f.record == met
    ensures Did(modes, met, f.modes, f.record, target, ClassOf(at))
  {
    if PastCheck(at) {
      ExpectedOpen(modes, from, target, at);
      if from in modes {
        DemoteProgress(modes[from], |DEMOTE|);
        if at.Demoting? { DemoteProgress(modes[from], at.ran); }
      }
    }
  }

  /** If the record had a primary when the switch took the lock, the classes are about that record. */
  lemma SettledExit(s: State, f: State, id: OperationId, at: Pc)
    requires Accounted(s, f, id, at) && s.record.primary != NOBODY
    ensures Did(s.modes, s.record, f.modes, f.record, f.threads[id].target, ClassOf(at))
  {}

  lemma OneWriter(s: State, f: State, id: OperationId, at: Pc)
    requires Accounted(s, f, id, at) && OpenNodes(s.modes) <= {s.record.primary} && NOBODY !in s.modes
    ensures |OpenNodes(f.modes)| <= 1
  {
    var target := f.threads[id].target;
    assert s.record.primary == NOBODY ==> OpenNodes(s.modes) == {};
    assert OpenNodes(f.modes) <= {s.record.primary} || OpenNodes(f.modes) <= {target};
    SubsetSize(OpenNodes(f.modes), if OpenNodes(f.modes) <= {target} then {target} else {s.record.primary});
  }

  /** If at most the recorded primary accepts writes when a switch takes the lock, then until it gives the lock back at
      most one node does, wherever a call fails, stops half way or loses its reply. */
  lemma AtMostOneWriter(s: State, es: seq<Event>, id: OperationId)
    requires TookLock(s, id) && OpenNodes(s.modes) <= {s.record.primary}
    requires Run(s, es) && Exclusive(es) && Reach(s, es).holder == Some(id)
    ensures |OpenNodes(Reach(s, es).modes)| <= 1
  {
    EveryExitHasItsClass(s, es, id);
    OneWriter(s, Reach(s, es), id, At(Reach(s, es).threads[id].pc));
  }

  /** A completed switch repairs the cluster from any state it found: the target is the only writable node and
      the recorded primary, and every other node is a running read-only replica of it, in whatever order the
      loop visited them. */
  lemma CompletedSwitchRepairs(s: State, es: seq<Event>, id: OperationId)
    requires Initial(s) && Run(s, es) && Exclusive(es)
    requires var f := Reach(s, es);
             && id in f.threads && f.threads[id].Switcher? && HoldsLock(f.threads[id])
             && Exiting(f.threads[id].pc) && f.threads[id].pc.outcome.verdict.Succeeded?
    ensures var f := Reach(s, es); var target := f.threads[id].target;
            && f.record.primary == target && f.record.epoch == f.threads[id].snap.epoch + 1
            && OpenNodes(f.modes) == {target} && f.modes[target].source.None?
            && forall n <- f.modes :: n != target ==> f.modes[n] == Linked(target)
  {
    InitialInv(s);
    RunInv(s, es);
    var f := Reach(s, es);
    var th := f.threads[id];
    assert TaskOf(f.tasks, f.modes.Keys, id, th);
    assert HoldsLock(th) <==> f.holder == Some(id);
    PromoteProgress(f.base[th.target], |PROMOTE|);
  }
}
