/** The epoch history: with any number of controllers, and even when locks lapse, each epoch has one primary. */
module Epochs {
  import opened Model
  import opened Protocol
  import opened Invariant
  import opened Durability

  /** A primary is recorded, no bootstrap write is pending, and no toggle in flight has read an epoch from the
      future. */
  ghost predicate Recorded(s: State) {
    && s.record.primary != NOBODY && s.probe.Idle? && NOBODY !in s.modes
    && forall id <- s.threads :: InThePast(s, s.threads[id])
  }

  predicate InThePast(s: State, th: Thread) {
    match th
    case Switcher(target, _, _, _) => target in s.modes
    case Toggler(_, phase) => phase.Read? ==> phase.snap.epoch <= s.record.epoch
  }

  /** A toggle in flight whose write the epoch comparison would let through means to write the recorded primary. */
  ghost predicate Agreeing(s: State) {
    forall id <- s.threads :: Agrees(s.record, s.threads[id])
  }

  predicate Agrees(r: ClusterState, th: Thread) {
    th.Toggler? && th.phase.Read? && th.phase.snap.epoch == r.epoch ==> th.phase.snap.primary == r.primary
  }

  /** The event that records a switch. */
  predicate Records(s: State, e: Event) {
    e.Advance? && CanAdvance(s, e.id) && s.threads[e.id].pc.Promoted?
  }

  /** What one event does to the record. */
  lemma StepEpoch(s: State, e: Event)
    requires Recorded(s) && Agreeing(s) && Enabled(s, e)
    ensures var r, r' := s.record, Next(s, e).record;
            if Records(s, e) then r'.epoch == r.epoch + 1 && r'.primary in s.modes
            else r'.epoch == r.epoch && r'.primary == r.primary
  {
    if e.AdvanceToggle? { assert Agrees(s.record, s.threads[e.id]); }
    if e.Advance? { assert InThePast(s, s.threads[e.id]); }
  }

  /** One thread moves; what the others read stays in the past. */
  lemma MoveKeepsEpochs(s: State, s': State, id: OperationId)
    requires Recorded(s) && Agreeing(s) && id in s'.threads
    requires s'.threads == s.threads[id := s'.threads[id]] && s'.modes.Keys == s.modes.Keys && s'.probe.Idle?
    requires (s'.record.epoch == s.record.epoch && s'.record.primary == s.record.primary)
          || (s'.record.epoch == s.record.epoch + 1 && s'.record.primary in s.modes)
    requires InThePast(s', s'.threads[id]) && Agrees(s'.record, s'.threads[id])
    ensures Recorded(s') && Agreeing(s')
  {
    forall i <- s'.threads ensures InThePast(s', s'.threads[i]) && Agrees(s'.record, s'.threads[i]) {
      assert i != id ==> InThePast(s, s.threads[i]) && Agrees(s.record, s.threads[i]);
    }
  }

  lemma SwitchKeepsEpochs(s: State, e: Event)
    requires Recorded(s) && Agreeing(s) && Enabled(s, e) && (e.Advance? || e.Pick? || e.Fail?)
    ensures Recorded(Next(s, e)) && Agreeing(Next(s, e))
  {
    StepEpoch(s, e);
    assert InThePast(s, s.threads[e.id]);
    MoveKeepsEpochs(s, Next(s, e), e.id);
  }

  lemma ToggleKeepsEpochs(s: State, id: OperationId)
    requires Recorded(s) && Agreeing(s) && CanToggle(s, id)
    ensures Recorded(DoToggle(s, id)) && Agreeing(DoToggle(s, id))
  {
    StepEpoch(s, AdvanceToggle(id));
    var s' := DoToggle(s, id);
    if s.threads[id].phase.Holding? {
      assert s'.threads[id].phase == Read(s.record);
    } else {
      assert !s'.threads[id].phase.Read?;
    }
    MoveKeepsEpochs(s, s', id);
  }

  lemma EnterKeepsEpochs(s: State, e: Event)
    requires Recorded(s) && Agreeing(s) && Enabled(s, e) && (e.Begin? || e.BeginToggle? || e.FailToggle?)
    ensures Recorded(Next(s, e)) && Agreeing(Next(s, e))
  {
    MoveKeepsEpochs(s, Next(s, e), e.id);
  }

  lemma QuietKeepsEpochs(s: State, e: Event)
    requires Recorded(s) && Agreeing(s) && Enabled(s, e)
    requires e.ProbeRead? || e.ProbePut? || e.ProbeMiss? || e.Commit? || e.Replicate? || e.Lapse?
    ensures Recorded(Next(s, e)) && Agreeing(Next(s, e))
  {
    forall i <- s.threads ensures InThePast(Next(s, e), s.threads[i]) && Agrees(Next(s, e).record, s.threads[i]) {
      assert InThePast(s, s.threads[i]) && Agrees(s.record, s.threads[i]);
    }
  }

  /** Every event, a lapse of the lock included. */
  lemma KeepEpochs(s: State, e: Event)
    requires Recorded(s) && Agreeing(s) && Enabled(s, e)
    ensures Recorded(Next(s, e)) && Agreeing(Next(s, e))
  {
    if e.Advance? || e.Pick? || e.Fail? { SwitchKeepsEpochs(s, e); }
    else if e.AdvanceToggle? { ToggleKeepsEpochs(s, e.id); }
    else if e.Begin? || e.BeginToggle? || e.FailToggle? { EnterKeepsEpochs(s, e); }
    else { QuietKeepsEpochs(s, e); }
  }

  lemma {:induction false} RunEpochs(s: State, es: seq<Event>)
    requires Recorded(s) && Agreeing(s) && Run(s, es)
    ensures Recorded(Reach(s, es)) && Agreeing(Reach(s, es))
    decreases |es|
  {
    if es != [] {
      RunEpochs(s, Front(es));
      KeepEpochs(Reach(s, Front(es)), Last(es));
    }
  }

  /** How many switches the run has recorded. */
  ghost function RecordCount(s: State, es: seq<Event>): nat
    requires Run(s, es)
    decreases |es|
  {
    if es == [] then 0
    else RecordCount(s, Front(es)) + if Records(Reach(s, Front(es)), Last(es)) then 1 else 0
  }

  /** Between the moment after `i` events and the end of the run: the epoch has not fallen, each recorded switch has
      raised it by one and nothing else has, and if it is the same, so is the primary. */
  ghost predicate OnePrimaryPerEpoch(s: State, es: seq<Event>, i: nat)
    requires Run(s, es) && i <= |es|
  {
    PrefixRun(s, es, i);
    var before, now := Reach(s, es[..i]).record, Reach(s, es).record;
    && before.epoch <= now.epoch
    && (before.epoch == now.epoch ==> before.primary == now.primary)
    && now.epoch == before.epoch + (RecordCount(s, es) - RecordCount(s, es[..i]))
  }

  /** After bootstrap, whatever switches and toggles from any number of controllers are already in flight, under every
      interleaving and even when locks lapse, the epoch history is a function. */
  lemma {:induction false} EpochHistoryIsAFunction(s: State, es: seq<Event>, i: nat)
    requires Recorded(s) && Agreeing(s) && Run(s, es) && i <= |es|
    ensures OnePrimaryPerEpoch(s, es, i)
    decreases |es|
  {
    PrefixRun(s, es, i);
    if i == |es| {
      assert es[..i] == es;
    } else {
      EpochHistoryIsAFunction(s, Front(es), i);
      assert Front(es)[..i] == es[..i];
      RunEpochs(s, Front(es));
      StepEpoch(Reach(s, Front(es)), Last(es));
    }
  }

  lemma DisagreementSplits(s: State, id: OperationId)
    requires id in s.threads && !Agrees(s.record, s.threads[id])
    ensures Run(s, [AdvanceToggle(id)]) && !OnePrimaryPerEpoch(s, [AdvanceToggle(id)], 0)
  {
    var es := [AdvanceToggle(id)];
    Extend(s, [], AdvanceToggle(id));
    assert [] + [AdvanceToggle(id)] == es && es[..0] == [];
  }

  /** The condition is exact: a toggle in flight that disagrees with the record at the current epoch gives that epoch a
      second primary in one step. */
  lemma EpochHistoryExactly(s: State)
    requires Recorded(s)
    ensures Agreeing(s) <==> forall es, i: nat | Run(s, es) && i <= |es| :: OnePrimaryPerEpoch(s, es, i)
  {
    if Agreeing(s) {
      forall es, i: nat | Run(s, es) && i <= |es| ensures OnePrimaryPerEpoch(s, es, i) {
        EpochHistoryIsAFunction(s, es, i);
      }
    } else {
      var id :| id in s.threads && !Agrees(s.record, s.threads[id]);
      DisagreementSplits(s, id);
    }
  }

  /** With an exclusive lock, a cluster that has bootstrapped meets the condition as soon as it is settled. */
  lemma SettledIsAgreeing(s: State)
    requires Inv(s) && Settled(s)
    ensures Recorded(s) && Agreeing(s)
  {
    forall id <- s.threads ensures InThePast(s, s.threads[id]) && Agrees(s.record, s.threads[id]) {
      assert HoldsLock(s.threads[id]) <==> s.holder == Some(id);
    }
  }

  /** A toggle never changes the primary, from such a state on and with or without a valid lock. */
  lemma ToggleKeepsPrimary(s: State, es: seq<Event>, id: OperationId)
    requires Recorded(s) && Agreeing(s) && Run(s, es) && CanToggle(Reach(s, es), id)
    ensures var f := Reach(s, es);
            DoToggle(f, id).record == f.record.(autoFailover := DoToggle(f, id).record.autoFailover)
  {
    RunEpochs(s, es);
    StepEpoch(Reach(s, es), AdvanceToggle(id));
  }

  // --- Bootstrap, from the empty record and under the lock ---

  /** What one event can do to the record. The probe's unconditional put happens only while the primary is still
      empty and the epoch still zero, so it lowers no epoch and replaces no switch's result. */
  lemma BootstrapStep(s: State, e: Event)
    requires Inv(s) && Enabled(s, e) && !e.Lapse?
    ensures var r, r' := s.record, Next(s, e).record;
            && r'.epoch == r.epoch + (if Records(s, e) then 1 else 0)
            && (e.ProbePut? ==> r.primary == NOBODY && r.epoch == 0)
            && (Erases(s, e) ==> r.epoch == 0)
            && (r'.primary != r.primary ==> Records(s, e) || e.ProbePut? || Erases(s, e))
  {
    if e.Advance? || e.AdvanceToggle? { assert HoldsLock(s.threads[e.id]) <==> s.holder == Some(e.id); }
  }

  /** Over every run from the empty record: the epoch counts the recorded switches, and an epoch above zero has a
      primary that only a recorded switch can change. */
  lemma {:induction false} BootstrapIsSafe(s: State, es: seq<Event>)
    requires Initial(s) && Run(s, es) && Exclusive(es)
    ensures var f := Reach(s, es);
            && f.record.epoch == s.record.epoch + RecordCount(s, es)
            && (f.record.epoch > 0 ==> f.record.primary != NOBODY)
            && forall e | Enabled(f, e) && !e.Lapse? && f.record.epoch > 0 && !Records(f, e) ::
                 Next(f, e).record.primary == f.record.primary && Next(f, e).record.epoch == f.record.epoch
    decreases |es|
  {
    InitialInv(s);
    RunInv(s, es);
    var f := Reach(s, es);
    forall e | Enabled(f, e) && !e.Lapse? && f.record.epoch > 0 && !Records(f, e)
      ensures Next(f, e).record.primary == f.record.primary && Next(f, e).record.epoch == f.record.epoch
    {
      BootstrapStep(f, e);
    }
    if es != [] {
      assert Last(es) in es;
      BootstrapIsSafe(s, Front(es));
      RunInv(s, Front(es));
      BootstrapStep(Reach(s, Front(es)), Last(es));
    }
  }
}
