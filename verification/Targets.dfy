/** Choosing the replica to promote or to report (internal/ha/controller.go:437-486). */
module Targets {
  import opened Model
  import opened MySqlClient

  // --- Order ---

  /** Go's order on strings. */
  predicate Less(a: string, b: string) {
    b != [] && (a == [] || a[0] < b[0] || (a[0] == b[0] && Less(a[1..], b[1..])))
  }

  lemma {:induction false} LessTotal(a: string, b: string)
    ensures a == b || Less(a, b) || Less(b, a)
    ensures !(Less(a, b) && Less(b, a)) && !Less(a, a)
  {
    if a != [] && b != [] && a[0] == b[0] {
      LessTotal(a[1..], b[1..]);
      LessTotal(a[1..], a[1..]);
      assert a == [a[0]] + a[1..] && b == [b[0]] + b[1..];
    } else if a != [] {
      LessTotal(a[1..], a[1..]);
    }
  }

  lemma {:induction false} LessTransitive(a: string, b: string, c: string)
    requires Less(a, b) && Less(b, c)
    ensures Less(a, c)
  {
    if a != [] && a[0] == b[0] && b[0] == c[0] { LessTransitive(a[1..], b[1..], c[1..]); }
  }

  datatype Candidate = Candidate(id: NodeId, lag: int)

  /** The smaller of two strings is a proper prefix of the other or has the smaller character where they first differ.
      */
  ghost predicate Precedes(a: string, b: string) {
    exists k: nat :: k <= |a| && k < |b| && a[..k] == b[..k] && (k == |a| || a[k] < b[k])
  }

  lemma SamePrefix(a: string, b: string, k: nat)
    requires 0 < k <= |a| && k <= |b| && a[..k] == b[..k]
    ensures a[0] == b[0]
  {
    assert a[..k][0] == b[..k][0];
  }

  lemma {:induction false} LessIsFirstDifference(a: string, b: string)
    ensures Less(a, b) <==> Precedes(a, b)
  {
    forall k: nat | 0 < k <= |a| && k <= |b| && a[..k] == b[..k] ensures a[0] == b[0] { SamePrefix(a, b, k); }
    if a != [] && b != [] && a[0] == b[0] {
      LessIsFirstDifference(a[1..], b[1..]);
      if Less(a, b) {
        var k: nat :| k <= |a[1..]| && k < |b[1..]| && a[1..][..k] == b[1..][..k]
                      && (k == |a[1..]| || a[1..][k] < b[1..][k]);
        assert a[..k + 1] == [a[0]] + a[1..][..k] && b[..k + 1] == [b[0]] + b[1..][..k];
      }
      if Precedes(a, b) {
        var k: nat :| k <= |a| && k < |b| && a[..k] == b[..k] && (k == |a| || a[k] < b[k]);
        assert k > 0;
        assert a[1..][..k - 1] == a[..k][1..] == b[..k][1..] == b[1..][..k - 1];
        assert Precedes(a[1..], b[1..]);
      }
    } else if Less(a, b) {
      assert a[..0] == b[..0];
    }
  }

  /** How sort.Slice compares: lower lag first, then the smaller id. */
  predicate Before(a: Candidate, b: Candidate) {
    a.lag < b.lag || (a.lag == b.lag && Less(a.id, b.id))
  }

  /** The order that is meant. */
  ghost predicate Ordered(a: Candidate, b: Candidate) {
    a.lag < b.lag || (a.lag == b.lag && (a.id == b.id || Precedes(a.id, b.id)))
  }

  lemma NotBeforeIsOrdered(a: Candidate, b: Candidate)
    ensures !Before(b, a) <==> Ordered(a, b)
  {
    LessTotal(a.id, b.id);
    LessTotal(a.id, a.id);
    LessIsFirstDifference(a.id, b.id);
  }

  lemma BeforeTotal(a: Candidate, b: Candidate)
    ensures a == b || Before(a, b) || Before(b, a)
    ensures !(Before(a, b) && Before(b, a)) && !Before(a, a)
  {
    LessTotal(a.id, b.id);
    LessTotal(a.id, a.id);
  }

  lemma BeforeTransitive(a: Candidate, b: Candidate, c: Candidate)
    requires Before(a, b) && Before(b, c)
    ensures Before(a, c)
  {
    if a.lag == b.lag == c.lag { LessTransitive(a.id, b.id, c.id); }
  }

  // --- Sorting ---

  ghost predicate Sorted(cs: seq<Candidate>) {
    forall i, j | 0 <= i < j < |cs| :: !Before(cs[j], cs[i])
  }

  function Insert(c: Candidate, cs: seq<Candidate>): seq<Candidate> {
    if cs == [] || Before(c, cs[0]) then [c] + cs else [cs[0]] + Insert(c, cs[1..])
  }

  lemma {:induction false} InsertPermutes(c: Candidate, cs: seq<Candidate>)
    ensures multiset(Insert(c, cs)) == multiset(cs) + multiset{c}
  {
    if cs != [] && !Before(c, cs[0]) {
      InsertPermutes(c, cs[1..]);
      assert cs == [cs[0]] + cs[1..];
    }
  }

  lemma {:induction false} InsertSorts(c: Candidate, cs: seq<Candidate>)
    requires Sorted(cs)
    ensures Sorted(Insert(c, cs))
  {
    if cs == [] {
    } else if Before(c, cs[0]) {
      forall j | 0 <= j < |cs| ensures !Before(cs[j], c) {
        if Before(cs[j], c) {
          BeforeTransitive(cs[j], c, cs[0]);
          BeforeTotal(cs[j], cs[0]);
        }
      }
    } else {
      var rest := Insert(c, cs[1..]);
      InsertSorts(c, cs[1..]);
      InsertPermutes(c, cs[1..]);
      forall x | x in rest ensures !Before(x, cs[0]) {
        assert x in multiset(rest);
        assert x == c || x in cs[1..];
      }
    }
  }

  /** sort.Slice, as an insertion sort: by lag, and by id at equal lag. */
  method Sort(cs: seq<Candidate>) returns (sorted: seq<Candidate>)
    ensures multiset(sorted) == multiset(cs)
    ensures forall i, j | 0 <= i < j < |sorted| :: sorted[i].lag <= sorted[j].lag
    ensures forall i, j | 0 <= i < j < |sorted| && sorted[i].lag == sorted[j].lag ::
              sorted[i].id == sorted[j].id || Precedes(sorted[i].id, sorted[j].id)
  {
    sorted := [];
    for i := 0 to |cs|
      invariant Sorted(sorted) && multiset(sorted) == multiset(cs[..i])
    {
      InsertSorts(cs[i], sorted);
      InsertPermutes(cs[i], sorted);
      assert cs[..i + 1] == cs[..i] + [cs[i]];
      sorted := Insert(cs[i], sorted);
    }
    assert cs[..|cs|] == cs;
    forall i, j | 0 <= i < j < |sorted| ensures Ordered(sorted[i], sorted[j]) {
      NotBeforeIsOrdered(sorted[i], sorted[j]);
    }
  }

  // --- Promotion ---

  function LagOf(st: NodeStatus): int {
    if st.replica.Some? && st.replica.value.secondsBehind.Some? then st.replica.value.secondsBehind.value else 0
  }

  ghost predicate Eligible(statuses: map<NodeId, NodeStatus>, exclude: NodeId, maxLag: int, id: NodeId) {
    && id in statuses && id != exclude
    && statuses[id].healthy && statuses[id].role.RoleReplica? && LagOf(statuses[id]) <= maxLag
  }

  /** The eligible replica with the least lag, and among those with that lag the one with the smallest id. */
  ghost predicate Best(statuses: map<NodeId, NodeStatus>, exclude: NodeId, maxLag: int, id: NodeId) {
    && Eligible(statuses, exclude, maxLag, id)
    && forall other | Eligible(statuses, exclude, maxLag, other) && other != id ::
         && LagOf(statuses[id]) <= LagOf(statuses[other])
         && (LagOf(statuses[id]) == LagOf(statuses[other]) ==> Precedes(id, other))
  }

  /** Ranges over the map in any order, collects, sorts and takes the first. */
  method ChooseTarget(statuses: map<NodeId, NodeStatus>, exclude: NodeId, maxLag: int) returns (choice: Option<NodeId>)
    ensures choice.None? <==> forall id :: !Eligible(statuses, exclude, maxLag, id)
    ensures choice.Some? ==> Best(statuses, exclude, maxLag, choice.value)
  {
    var candidates: seq<Candidate> := [];
    var rest := statuses.Keys;
    while rest != {}
      invariant rest <= statuses.Keys
      invariant forall c <- candidates :: Eligible(statuses, exclude, maxLag, c.id) && c.lag == LagOf(statuses[c.id])
      invariant forall id <- statuses ::
                  || id in rest || !Eligible(statuses, exclude, maxLag, id)
                  || Candidate(id, LagOf(statuses[id])) in candidates
      decreases rest
    {
      var id :| id in rest;
      rest := rest - {id};
      var st := statuses[id];
      if !(id == exclude || !st.healthy || st.role != RoleReplica) {
        var lag := 0;
        if st.replica.Some? && st.replica.value.secondsBehind.Some? {
          lag := st.replica.value.secondsBehind.value;
        }
        if lag <= maxLag {
          candidates := candidates + [Candidate(id, lag)];
        }
      }
    }
    if candidates == [] {
      return None;
    }
    var sorted := Sort(candidates);
    assert |multiset(sorted)| == |multiset(candidates)|;
    assert sorted[0] in multiset(sorted);
    choice := Some(sorted[0].id);
    forall other | Eligible(statuses, exclude, maxLag, other) && other != sorted[0].id
      ensures Ordered(sorted[0], Candidate(other, LagOf(statuses[other])))
    {
      var c := Candidate(other, LagOf(statuses[other]));
      assert c in multiset(candidates);
      var j :| 0 <= j < |sorted| && sorted[j] == c;
    }
  }

  /** There is only one best replica, so the choice does not depend on the order of the map. */
  lemma BestIsUnique(statuses: map<NodeId, NodeStatus>, exclude: NodeId, maxLag: int, a: NodeId, b: NodeId)
    requires Best(statuses, exclude, maxLag, a) && Best(statuses, exclude, maxLag, b)
    ensures a == b
  {
    LessIsFirstDifference(a, b);
    LessIsFirstDifference(b, a);
    LessTotal(a, b);
  }

  /** Switch's own check of a candidate it means to promote (internal/ha/controller.go:338-344). */
  ghost predicate Promotable(st: NodeStatus, maxLag: int) {
    && st.healthy && st.role.RoleReplica? && st.replica.Some? && st.replica.value.ioRunning
    && st.replica.value.sqlRunning
    && st.replica.value.secondsBehind.Some? && st.replica.value.secondsBehind.value <= maxLag
  }

  /** Its laxer check in an automatic dry run. */
  ghost predicate Reportable(st: NodeStatus) {
    st.reachable && st.role.RoleReplica? && st.replica.Some? && st.replica.value.sqlRunning
  }

  /** What Switch asks of the candidate; `lax` in an automatic dry run. */
  ghost predicate Passes(st: NodeStatus, lax: bool, maxLag: int) {
    if lax then Reportable(st) else Promotable(st, maxLag)
  }

  // --- Dry run ---

  /** The smallest id among the reachable replicas, other than `exclude`, whose SQL thread runs. */
  ghost predicate BestReport(statuses: map<NodeId, NodeStatus>, exclude: NodeId, id: NodeId) {
    && id != exclude && CanReport(statuses, id)
    && forall other <- statuses :: other != exclude && CanReport(statuses, other) && other != id ==> Precedes(id, other)
  }

  ghost predicate CanReport(statuses: map<NodeId, NodeStatus>, id: NodeId) {
    id in statuses && Reportable(statuses[id])
  }

  method ChooseDryRunTarget(statuses: map<NodeId, NodeStatus>, exclude: NodeId) returns (choice: Option<NodeId>)
    ensures choice.None? <==> forall id <- statuses :: id != exclude ==> !CanReport(statuses, id)
    ensures choice.Some? ==> BestReport(statuses, exclude, choice.value)
  {
    var ids: seq<Candidate> := [];
    var rest := statuses.Keys;
    while rest != {}
      invariant rest <= statuses.Keys
      invariant forall c <- ids :: c.id in statuses && c.id != exclude && Reportable(statuses[c.id]) && c.lag == 0
      invariant forall id <- statuses ::
                  id in rest || id == exclude || !Reportable(statuses[id]) || Candidate(id, 0) in ids
      decreases rest
    {
      var id :| id in rest;
      rest := rest - {id};
      var st := statuses[id];
      if id != exclude && st.reachable && st.role == RoleReplica && st.replica.Some? && st.replica.value.sqlRunning {
        ids := ids + [Candidate(id, 0)];
      }
    }
    var sorted := Sort(ids);
    assert |multiset(sorted)| == |multiset(ids)|;
    if ids == [] {
      return None;
    }
    assert sorted[0] in multiset(sorted);
    choice := Some(sorted[0].id);
    forall other <- statuses | other != exclude && CanReport(statuses, other) && other != sorted[0].id
      ensures Precedes(sorted[0].id, other)
    {
      assert Candidate(other, 0) in multiset(ids);
      var j :| 0 <= j < |sorted| && sorted[j] == Candidate(other, 0);
    }
  }

  // --- The two choosers and Switch's checks agree ---

  lemma {:induction false} SmallestExists(ids: set<NodeId>) returns (least: NodeId)
    requires ids != {}
    ensures least in ids && forall other <- ids :: other != least ==> Less(least, other)
    decreases ids
  {
    var x :| x in ids;
    if ids == {x} {
      least := x;
    } else {
      assert ids == (ids - {x}) + {x};
      least := SmallestExists(ids - {x});
      LessTotal(x, least);
      if Less(x, least) {
        forall other <- ids | other != x ensures Less(x, other) {
          if other != least { LessTransitive(x, least, other); }
        }
        least := x;
      }
    }
  }

  /** On statuses that the MySQL client built, a chosen replica passes the stricter check that Switch makes, although
      the chooser never looks at the replication threads and takes an unknown lag for zero; and then a dry run has a
      replica to report as well. */
  lemma ChoiceIsPromotable(statuses: map<NodeId, NodeStatus>, exclude: NodeId, maxLag: int, id: NodeId)
    requires Eligible(statuses, exclude, maxLag, id) && WellFormed(statuses[id])
    ensures Promotable(statuses[id], maxLag) && exists report :: BestReport(statuses, exclude, report)
  {
    var reportable := set n | n in statuses && n != exclude && CanReport(statuses, n);
    assert id in reportable;
    var report := SmallestExists(reportable);
    forall other <- statuses | other != exclude && CanReport(statuses, other) && other != report
      ensures Precedes(report, other)
    {
      LessIsFirstDifference(report, other);
    }
    assert BestReport(statuses, exclude, report);
  }
}
