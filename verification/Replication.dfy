/** The replication graph, from each node to the source it replicates from, never has a cycle. */
module Replication {
  import opened Model
  import opened MySql
  import opened Protocol
  import opened Invariant

  predicate Edge(modes: map<NodeId, Mode>, a: NodeId, b: NodeId) {
    a in modes && modes[a].source == Some(b)
  }

  /** A non-empty walk along sources that returns to where it began. */
  predicate Cycle(modes: map<NodeId, Mode>, path: seq<NodeId>) {
    && |path| >= 2 && path[0] == path[|path| - 1]
    && forall i | 0 <= i < |path| - 1 :: Edge(modes, path[i], path[i + 1])
  }

  ghost predicate Acyclic(modes: map<NodeId, Mode>) {
    forall path :: !Cycle(modes, path)
  }

  /** Taking edges away keeps the graph acyclic. */
  lemma FewerEdges(modes: map<NodeId, Mode>, modes': map<NodeId, Mode>)
    requires Acyclic(modes)
    requires forall a, b :: Edge(modes', a, b) ==> Edge(modes, a, b)
    ensures Acyclic(modes')
  {
    forall path ensures !Cycle(modes', path) {
      if Cycle(modes', path) { assert Cycle(modes, path); }
    }
  }

  /** So does an edge to a node without a source: no walk can leave that node again. */
  lemma EdgeToRoot(modes: map<NodeId, Mode>, modes': map<NodeId, Mode>, root: NodeId)
    requires Acyclic(modes) && root in modes' && modes'[root].source.None?
    requires forall a, b :: Edge(modes', a, b) ==> Edge(modes, a, b) || b == root
    ensures Acyclic(modes')
  {
    forall path ensures !Cycle(modes', path) {
      if Cycle(modes', path) {
        forall i | 0 <= i < |path| - 1 ensures path[i] != root {
          assert Edge(modes', path[i], path[i + 1]);
        }
        forall i | 0 <= i < |path| - 1 ensures Edge(modes, path[i], path[i + 1]) {
          assert Edge(modes', path[i], path[i + 1]);
          assert i + 1 == |path| - 1 || path[i + 1] != root;
        }
        assert Cycle(modes, path);
      }
    }
  }

  /** The target of a switch in its repointing loop has no source. */
  lemma TargetIsRoot(s: State, th: Thread)
    requires th.Switcher? && th.pc.Relinking? && SwitchInv(s, th)
    ensures th.target in s.modes && s.modes[th.target].source.None? && th.pc.node != th.target
  {
    PromoteProgress(s.base[th.target], |PROMOTE|);
  }

  /** The only statement that adds an edge is CHANGE REPLICATION SOURCE, and its source is the promoted target. */
  lemma PendingEdges(modes: map<NodeId, Mode>, th: Thread, a: NodeId, b: NodeId)
    requires th.Switcher? && Edge(RunPending(modes, Pending(th)), a, b)
    ensures Edge(modes, a, b) || (th.pc.Relinking? && b == th.target)
  {}

  lemma AdvanceAcyclic(s: State, id: OperationId)
    requires Inv(s) && Acyclic(s.modes) && CanAdvance(s, id)
    ensures Acyclic(DoAdvance(s, id).modes)
  {
    var th := s.threads[id];
    var modes' := RunPending(s.modes, Pending(th));
    forall a, b | Edge(modes', a, b) ensures Edge(s.modes, a, b) || (th.pc.Relinking? && b == th.target) {
      PendingEdges(s.modes, th, a, b);
    }
    if th.pc.Relinking? {
      assert HoldsLock(th) <==> s.holder == Some(id);
      TargetIsRoot(s, th);
      EdgeToRoot(s.modes, modes', th.target);
    } else {
      FewerEdges(s.modes, modes');
    }
  }

  lemma OtherAcyclic(s: State, e: Event)
    requires Enabled(s, e) && !e.Advance?
    ensures Next(s, e).modes == s.modes
  {}

  /** Every reachable state, after half-finished loops and repeated failed switches alike. */
  lemma {:induction false} NeverACycle(s: State, es: seq<Event>)
    requires Inv(s) && Acyclic(s.modes) && Run(s, es) && Exclusive(es)
    ensures Acyclic(Reach(s, es).modes)
    decreases |es|
  {
    if es != [] {
      assert Last(es) in es;
      NeverACycle(s, Front(es));
      RunInv(s, Front(es));
      if Last(es).Advance? {
        AdvanceAcyclic(Reach(s, Front(es)), Last(es).id);
      } else {
        OtherAcyclic(Reach(s, Front(es)), Last(es));
      }
    }
  }
}
