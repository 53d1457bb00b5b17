/** No acknowledged write is lost: whatever the recorded primary committed is in every later recorded primary. */
module Durability {
  import opened Model
  import opened MySql
  import opened Protocol
  import opened Invariant

  /** The switch has seen the old primary read-only and has not yet recorded the new one. */
  predicate Frozen(pc: Pc) {
    pc.Confirmed? || pc.Measured? || pc.CaughtUp? || pc.Promoting? || pc.Promoted?
  }

  /** The switch's target has caught up and is not yet recorded. */
  predicate Succeeding(pc: Pc) {
    pc.CaughtUp? || pc.Promoting? || pc.Promoted?
  }

  ghost predicate Durable(s: State) {
    && (if s.record.primary in s.executed then s.acked <= s.executed[s.record.primary] else s.acked == {})
    && (s.holder.Some? && s.holder.value in s.threads && s.threads[s.holder.value].Switcher? ==>
          var th := s.threads[s.holder.value];
          && (th.pc.Measured? ==> s.acked <= th.pc.gtid)
          && (Succeeding(th.pc) && th.target in s.executed ==> s.acked <= s.executed[th.target]))
  }

  /** A flag toggle that read the record before bootstrap writes that empty primary over the bootstrapped one:
      both records carry epoch 0, so the epoch comparison lets it through. */
  ghost predicate Erases(s: State, e: Event) {
    && e.AdvanceToggle? && CanToggle(s, e.id) && s.threads[e.id].phase.Read?
    && var snap := s.threads[e.id].phase.snap;
       snap.epoch == s.record.epoch && snap.primary == NOBODY && s.record.primary != NOBODY
  }

  /** Such an erasure while some write is acknowledged. */
  ghost predicate Loses(s: State, e: Event) {
    Erases(s, e) && s.acked != {}
  }

  // --- One event ---

  /** While frozen, the recorded primary accepts no writes, not even privileged ones. */
  lemma FrozenPrimary(s: State, th: Thread)
    requires th.Switcher? && SwitchInv(s, th) && Frozen(At(th.pc))
    ensures var p := s.record.primary;
            p in s.modes && s.modes[p].access.SuperReadOnly?
  {
    DemoteProgress(s.base[th.snap.primary], |DEMOTE|);
  }

  /** The new primary is recorded only with everything that was acknowledged. */
  lemma RecordDurable(s: State, id: OperationId)
    requires LockInv(s) && Durable(s) && CanAdvance(s, id) && s.threads[id].pc.Promoted?
    requires s.threads[id].target in s.executed
    ensures Durable(DoAdvance(s, id))
  {
    assert HoldsLock(s.threads[id]) <==> s.holder == Some(id);
  }

  /** Up to there the old primary has it all, and so has whatever was measured and whoever has waited. */
  lemma WorkDurable(s: State, id: OperationId)
    requires Inv(s) && Durable(s) && CanAdvance(s, id) && !s.threads[id].pc.Promoted?
    ensures Durable(DoAdvance(s, id))
  {
    assert HoldsLock(s.threads[id]) <==> s.holder == Some(id);
  }

  lemma AdvanceDurable(s: State, id: OperationId)
    requires Inv(s) && Durable(s) && CanAdvance(s, id)
    ensures Durable(DoAdvance(s, id))
  {
    if s.threads[id].pc.Promoted? { RecordDurable(s, id); } else { WorkDurable(s, id); }
  }

  lemma ToggleDurable(s: State, id: OperationId)
    requires Inv(s) && Durable(s) && CanToggle(s, id) && !Loses(s, AdvanceToggle(id))
    ensures Durable(DoToggle(s, id))
  {}

  lemma CommitDurable(s: State, e: Event)
    requires Inv(s) && Durable(s) && Enabled(s, e) && e.Commit?
    ensures Durable(Next(s, e))
  {
    if s.holder.Some? && s.threads[s.holder.value].Switcher? && Frozen(s.threads[s.holder.value].pc) {
      FrozenPrimary(s, s.threads[s.holder.value]);
    }
  }

  lemma ThreadDurable(s: State, e: Event)
    requires Inv(s) && Durable(s) && Enabled(s, e)
    requires e.Begin? || e.Pick? || e.Fail? || e.BeginToggle? || e.FailToggle?
    ensures Durable(Next(s, e))
  {}

  lemma OtherDurable(s: State, e: Event)
    requires Inv(s) && Durable(s) && Enabled(s, e)
    requires e.ProbeRead? || e.ProbePut? || e.ProbeMiss? || e.Replicate?
    ensures Durable(Next(s, e))
  {}

  // --- Every run ---

  /** No toggle of the run erases the primary once a write is acknowledged. */
  ghost predicate NeverLoses(s: State, es: seq<Event>)
    requires Run(s, es)
    decreases |es|
  {
    es == [] || (NeverLoses(s, Front(es)) && !Loses(Reach(s, Front(es)), Last(es)))
  }

  lemma StepDurable(s: State, e: Event)
    requires Inv(s) && Durable(s) && Enabled(s, e) && !e.Lapse? && !Loses(s, e)
    ensures Durable(Next(s, e))
  {
    match e
    case Advance(id) => AdvanceDurable(s, id);
    case AdvanceToggle(id) => ToggleDurable(s, id);
    case Commit(_, _) => CommitDurable(s, e);
    case Replicate(_, _) => OtherDurable(s, e);
    case ProbeRead(_) => OtherDurable(s, e);
    case ProbePut => OtherDurable(s, e);
    case ProbeMiss => OtherDurable(s, e);
    case _ => ThreadDurable(s, e);
  }

  lemma {:induction false} RunDurable(s: State, es: seq<Event>)
    requires Inv(s) && Durable(s) && Run(s, es) && Exclusive(es) && NeverLoses(s, es)
    ensures var f := Reach(s, es); Inv(f) && Durable(f)
    decreases |es|
  {
    RunInv(s, es);
    if es != [] {
      assert Last(es) in es;
      RunDurable(s, Front(es));
      StepDurable(Reach(s, Front(es)), Last(es));
    }
  }

  /** Bootstrap is over: a primary is recorded and nobody is about to write an older, empty one. */
  ghost predicate Settled(s: State) {
    && s.record.primary != NOBODY && s.probe.Idle?
    && (s.holder.Some? && s.holder.value in s.threads ==>
          var th := s.threads[s.holder.value];
          th.Toggler? && th.phase.Read? ==> th.phase.snap.primary != NOBODY)
  }

  lemma SettledStays(s: State, e: Event)
    requires Inv(s) && Settled(s) && Enabled(s, e) && !e.Lapse?
    ensures Settled(Next(s, e)) && !Erases(s, e)
  {
    assert e.Advance? || e.AdvanceToggle? || e.FailToggle? || e.Fail? || e.Pick? ==>
             (HoldsLock(s.threads[e.id]) <==> s.holder == Some(e.id));
  }

  /** After bootstrap no toggle ever erases the primary. */
  lemma {:induction false} SettledRun(s: State, es: seq<Event>)
    requires Inv(s) && Settled(s) && Run(s, es) && Exclusive(es)
    ensures Settled(Reach(s, es)) && NeverLoses(s, es)
    decreases |es|
  {
    if es != [] {
      assert Last(es) in es;
      SettledRun(s, Front(es));
      RunInv(s, Front(es));
      SettledStays(Reach(s, Front(es)), Last(es));
    }
  }

  /** The i-th event is a commit by the node that the record names at that moment. */
  ghost predicate Acknowledged(s: State, es: seq<Event>, i: nat)
    requires Run(s, es) && i < |es|
  {
    PrefixRun(s, es, i);
    es[i].Commit? && es[i].node == Reach(s, es[..i]).record.primary
  }

  lemma AckedGrows(s: State, e: Event)
    requires Enabled(s, e)
    ensures s.acked <= Next(s, e).acked
  {}

  /** The history variable holds what the events say was acknowledged. */
  lemma {:induction false} AcknowledgedIsKept(s: State, es: seq<Event>, i: nat)
    requires Run(s, es) && i < |es| && Acknowledged(s, es, i)
    ensures es[i].txn in Reach(s, es).acked
    decreases |es|
  {
    if i == |es| - 1 {
      assert es[..i] == Front(es);
    } else {
      assert Front(es)[..i] == es[..i];
      AcknowledgedIsKept(s, Front(es), i);
      AckedGrows(Reach(s, Front(es)), Last(es));
    }
  }

  /** A transaction is safe: executed on the recorded primary and on the target of every switch past its wait. */
  ghost predicate Survives(f: State, x: Txn) {
    && f.record.primary in f.executed && x in f.executed[f.record.primary]
    && forall id <- f.threads :: f.threads[id].Switcher? && Succeeding(f.threads[id].pc) ==>
         f.threads[id].target in f.executed && x in f.executed[f.threads[id].target]
  }

  /** Every acknowledged write survives, here. */
  ghost predicate Safe(f: State) {
    forall x <- f.acked :: Survives(f, x)
  }

  lemma DurableIsSafe(f: State)
    requires Inv(f) && Durable(f)
    ensures Safe(f)
  {}

  lemma LossIsUnsafe(s: State, e: Event)
    requires Inv(s) && Enabled(s, e) && Loses(s, e)
    ensures !Safe(Next(s, e))
  {}

  /** Every acknowledged write survives, at every moment of the run. */
  ghost predicate AlwaysSafe(s: State, es: seq<Event>)
    requires Run(s, es)
    decreases |es|
  {
    Safe(Reach(s, es)) && (es == [] || AlwaysSafe(s, Front(es)))
  }

  /** Over every run with an exclusive lock, through any number of switches failing anywhere and from the empty
      record on: acknowledged writes survive at every moment exactly when no toggle erases the primary under one. */
  lemma {:induction false} SafeExactlyWithoutErasure(s: State, es: seq<Event>)
    requires Initial(s) && s.acked == {} && Run(s, es) && Exclusive(es)
    ensures AlwaysSafe(s, es) <==> NeverLoses(s, es)
    decreases |es|
  {
    InitialInv(s);
    RunInv(s, es);
    if NeverLoses(s, es) {
      RunDurable(s, es);
      DurableIsSafe(Reach(s, es));
    }
    if es != [] {
      SafeExactlyWithoutErasure(s, Front(es));
      RunInv(s, Front(es));
      if Loses(Reach(s, Front(es)), Last(es)) { LossIsUnsafe(Reach(s, Front(es)), Last(es)); }
    }
  }

  /** Once a primary is recorded, an acknowledged write survives every run without condition. */
  lemma NoAcknowledgedWriteLost(s: State, es: seq<Event>, i: nat)
    requires Initial(s) && s.record.primary != NOBODY && s.acked == {}
    requires Run(s, es) && Exclusive(es) && i < |es| && Acknowledged(s, es, i)
    ensures Survives(Reach(s, es), es[i].txn)
  {
    InitialInv(s);
    SettledRun(s, es);
    RunDurable(s, es);
    DurableIsSafe(Reach(s, es));
    AcknowledgedIsKept(s, es, i);
  }

  /** Two servers, both open, and no record. */
  ghost function TwoOpenServers(): State {
    var open := Mode(Open, None, false);
    State(ClusterState(NOBODY, 0, false), None, None, map[], map["a" := open, "b" := open],
          map["a" := {}, "b" := {}], map[], Idle, {}, map[])
  }

  /** The same once a toggle has read the empty record, and the record is `r`. */
  ghost function Misled(r: ClusterState): State {
    var s := TwoOpenServers();
    s.(record := r, holder := Some("t"), threads := map["t" := Toggler(true, Read(s.record))])
  }

  lemma ToggleReadsFirst() returns (es: seq<Event>)
    ensures Run(TwoOpenServers(), es) && Exclusive(es) && Reach(TwoOpenServers(), es) == Misled(TwoOpenServers().record)
  {
    var s := TwoOpenServers();
    es := [BeginToggle("t", true)];
    Extend(s, [], BeginToggle("t", true));
    assert [] + [BeginToggle("t", true)] == es;
    Extend(s, es, AdvanceToggle("t"));
    es := es + [AdvanceToggle("t")];
  }

  /** A run that bootstraps node "a" behind the back of a toggle. */
  lemma BootstrapBehindToggle() returns (es: seq<Event>)
    ensures Run(TwoOpenServers(), es) && Exclusive(es)
    ensures Reach(TwoOpenServers(), es) == Misled(ClusterState("a", 0, false))
  {
    var s := TwoOpenServers();
    es := ToggleReadsFirst();
    Extend(s, es, ProbeRead("a"));
    es := es + [ProbeRead("a")];
    Extend(s, es, ProbePut);
    es := es + [ProbePut];
  }

  /** Node "a" acknowledges a write, */
  ghost function Acknowledging(): State {
    var s := Misled(ClusterState("a", 0, false));
    s.(executed := s.executed["a" := {7}], acked := {7})
  }

  lemma WriteArrives()
    ensures var s, e := Misled(ClusterState("a", 0, false)), Commit("a", 7);
            Enabled(s, e) && Next(s, e) == Acknowledging()
  {
    var s := Misled(ClusterState("a", 0, false));
    assert s.executed["a"] + {7} == {7} && s.acked + {7} == {7};
  }

  /** and is then erased. */
  lemma ToggleErases(s: State)
    requires s == Misled(ClusterState("a", 0, false)) || s == Acknowledging()
    ensures Enabled(s, AdvanceToggle("t")) && Erases(s, AdvanceToggle("t"))
    ensures Next(s, AdvanceToggle("t")) ==
            s.(record := ClusterState(NOBODY, 0, true), threads := s.threads["t" := Toggler(true, Written)])
  {}

  lemma EraseAfterWrite() returns (es: seq<Event>, i: nat)
    ensures Run(TwoOpenServers(), es) && Exclusive(es) && i < |es| && es[i] == Commit("a", 7)
    ensures Acknowledged(TwoOpenServers(), es, i)
    ensures Reach(TwoOpenServers(), es) == Next(Acknowledging(), AdvanceToggle("t"))
  {
    var s := TwoOpenServers();
    var boot := BootstrapBehindToggle();
    i := |boot|;
    WriteArrives();
    Extend(s, boot, Commit("a", 7));
    es := boot + [Commit("a", 7)];
    ToggleErases(Acknowledging());
    Extend(s, es, AdvanceToggle("t"));
    es := es + [AdvanceToggle("t")];
    assert es[..i] == boot;
  }

  /** The condition is needed: the toggle erases "a", the next probe records "b", and the write that "a"
      acknowledged is on no recorded primary any more. */
  lemma ErasureLosesAWrite() returns (s: State, es: seq<Event>, i: nat)
    ensures Initial(s) && s.acked == {} && Run(s, es) && Exclusive(es)
    ensures i < |es| && Acknowledged(s, es, i) && Reach(s, es).record.primary == "b"
    ensures !Survives(Reach(s, es), es[i].txn)
  {
    s := TwoOpenServers();
    var erased;
    erased, i := EraseAfterWrite();
    ToggleErases(Acknowledging());
    Extend(s, erased, ProbeRead("b"));
    es := erased + [ProbeRead("b")];
    Extend(s, es, ProbePut);
    es := es + [ProbePut];
    assert es[..i] == erased[..i] && es[i] == erased[i];
  }
}
