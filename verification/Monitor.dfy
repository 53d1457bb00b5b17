/** What the probe loop remembers of the nodes (internal/ha/controller.go:110-134): the last status of each with its
    failure count, and which nodes it has alerted about. */
module Monitor {
  import opened Model
  import opened MySql
  import opened MySqlClient
  import opened Alerts

  /** All that is known about the nodes: what the controller remembers, and every observation (oldest first) and every
      alert so far. */
  datatype Book = Book(statuses: map<NodeId, NodeStatus>, alerted: set<NodeId>, history: map<NodeId, History>,
      sent: map<NodeId, seq<Alert>>)

  /** The remembered count and latch of a node. */
  function TrackIn(b: Book, n: NodeId): Track {
    Track(if n in b.statuses then b.statuses[n].failureCount else 0, n in b.alerted)
  }

  /** They and all alerts about the node are those of its history. */
  ghost predicate Follows(b: Book, n: NodeId, threshold: nat) {
    && n in b.history && n in b.sent
    && TrackIn(b, n) == TrackOf(b.history[n], threshold) && b.sent[n] == AlertsOf(b.history[n], threshold)
  }

  ghost predicate FollowAll(b: Book, threshold: nat) {
    forall n {:trigger Follows(b, n, threshold)} | n in b.history :: Follows(b, n, threshold)
  }

  /** The remembered count is the length of the unhealthy run that ends the history. */
  lemma RunIsCounted(b: Book, n: NodeId, threshold: nat)
    requires FollowAll(b, threshold) && n in b.history && n in b.statuses
    ensures TrailingRun(b.history[n], b.statuses[n].failureCount)
  {
    assert Follows(b, n, threshold);
    CountsAndLatches(b.history[n], threshold);
  }

  /** The book with one more observation of `n`. */
  function Entered(b: Book, n: NodeId, status: NodeStatus, alerted: set<NodeId>, alerts: seq<Alert>): Book
    requires n in b.history && n in b.sent
  {
    Book(b.statuses[n := status], alerted,
         b.history[n := b.history[n] + [status.healthy]], b.sent[n := b.sent[n] + alerts])
  }

  /** It leaves every other node as it was. */
  lemma FollowsOn(b: Book, n: NodeId, status: NodeStatus, alerted: set<NodeId>, alerts: seq<Alert>, threshold: nat)
    requires FollowAll(b, threshold) && n in b.history && n in b.sent && alerted - {n} == b.alerted - {n}
    requires Track(status.failureCount, n in alerted) == Observe(TrackIn(b, n), status.healthy, threshold)
    requires alerts == Sends(TrackIn(b, n), status.healthy, threshold)
    ensures FollowAll(Entered(b, n, status, alerted, alerts), threshold)
  {
    OneMoreProbe(b.history[n], status.healthy, threshold);
    assert Follows(b, n, threshold);
    var b' := Entered(b, n, status, alerted, alerts);
    forall m <- b'.history ensures Follows(b', m, threshold) {
      if m != n {
        assert Follows(b, m, threshold);
        assert m in alerted - {n} <==> m in b.alerted - {n};
      }
    }
  }

  /** Between `b0` and `b`, a round has made one observation of each node in `done`, and `alerts` are the alerts it
      took. */
  ghost predicate Noted(done: set<NodeId>, b0: Book, b: Book, alerts: map<NodeId, seq<Alert>>) {
    forall n <- done ::
      && n in b.statuses && WellFormed(b.statuses[n])
      && n in b0.history && n in b.history && b.history[n] == b0.history[n] + [b.statuses[n].healthy]
      && n in alerts && n in b0.sent && n in b.sent && b.sent[n] == b0.sent[n] + alerts[n]
  }

  /** It has not come to the nodes in `rest` yet. */
  ghost predicate Ahead(rest: set<NodeId>, b0: Book, b: Book) {
    forall n <- rest ::
      && n in b0.history && n in b.history && b.history[n] == b0.history[n]
      && n in b0.sent && n in b.sent && b.sent[n] == b0.sent[n]
  }

  lemma NoteOne(done: set<NodeId>, rest: set<NodeId>, n: NodeId, b0: Book, b: Book, alerts: map<NodeId, seq<Alert>>,
                status: NodeStatus, alerted: set<NodeId>, more: seq<Alert>)
    requires Noted(done, b0, b, alerts) && Ahead(rest, b0, b) && n in rest && n !in done && WellFormed(status)
    ensures var b' := Entered(b, n, status, alerted, more);
            Noted(done + {n}, b0, b', alerts[n := more]) && Ahead(rest - {n}, b0, b')
  {}

  /** The remembered status `st` is what a server in mode `m` answered; exactly that if every query is answered. */
  ghost predicate Shows(st: NodeStatus, m: Mode, faultless: bool) {
    Describes(st, m) && (faultless ==> st.(failureCount := 0) == Plain(m))
  }

  ghost predicate ShowAll(nodes: set<NodeId>, statuses: map<NodeId, NodeStatus>, modes: map<NodeId, Mode>,
                          faultless: bool)
  {
    forall n <- nodes :: n in statuses && n in modes && Shows(statuses[n], modes[n], faultless)
  }

  lemma ShowOne(done: set<NodeId>, n: NodeId, statuses: map<NodeId, NodeStatus>, st: NodeStatus,
                modes: map<NodeId, Mode>, faultless: bool)
    requires ShowAll(done, statuses, modes, faultless) && n in modes && Shows(st, modes[n], faultless)
    ensures ShowAll(done + {n}, statuses[n := st], modes, faultless)
  {}

  /** A loop over a set has one element less ahead. */
  ghost predicate Splits<T>(all: set<T>, done: set<T>, rest: set<T>) {
    done !! rest && done + rest == all
  }

  lemma OneDone<T>(all: set<T>, done: set<T>, rest: set<T>, n: T)
    requires Splits(all, done, rest) && n in rest
    ensures Splits(all, done + {n}, rest - {n}) && n !in done && n in all
  {}

  /** The primary that the statuses show: a healthy one, or nobody if there is none. */
  ghost predicate Detected(statuses: map<NodeId, NodeStatus>, found: NodeId) {
    if found == NOBODY then forall n <- statuses :: !(statuses[n].healthy && statuses[n].role.RolePrimary?)
    else found in statuses && statuses[found].healthy && statuses[found].role.RolePrimary?
  }

  class Monitor {
    const nodes: set<NodeId>
    const threshold: nat
    var statuses: map<NodeId, NodeStatus>
    var alertedNodes: set<NodeId>
    ghost var history: map<NodeId, History>           // every observation of a node, oldest first
    ghost var sent: map<NodeId, seq<Alert>>           // every alert about a node

    constructor (nodes: set<NodeId>, threshold: nat)
      ensures this.nodes == nodes && this.threshold == threshold && statuses == map[] && Valid()
    {
      this.nodes, this.threshold, statuses, alertedNodes := nodes, threshold, map[], {};
      history := map n | n in nodes :: [];
      sent := map n | n in nodes :: [];
    }

    ghost function Known(): Book
      reads this
    {
      Book(statuses, alertedNodes, history, sent)
    }

    ghost predicate Valid()
      reads this
    {
      history.Keys == sent.Keys == nodes && statuses.Keys <= nodes && FollowAll(Known(), threshold)
    }

    function FailuresOf(n: NodeId): nat
      reads this
    {
      if n in statuses then statuses[n].failureCount else 0
    }

    /** Latches or releases the node and says which alert that takes. */
    method Latch(n: NodeId, ghost previous: nat, status: NodeStatus) returns (alerted: set<NodeId>, alerts: seq<Alert>)
      requires status.failureCount == if status.healthy then 0 else previous + 1
      ensures alerted - {n} == alertedNodes - {n}
      ensures var t := Track(previous, n in alertedNodes);
              && Track(status.failureCount, n in alerted) == Observe(t, status.healthy, threshold)
              && alerts == Sends(t, status.healthy, threshold)
    {
      alerted, alerts := alertedNodes, [];
      if status.failureCount >= threshold && n !in alertedNodes {
        alerted, alerts := alertedNodes + {n}, [FailureAlert];
      } else if status.healthy && n in alertedNodes {
        alerted, alerts := alertedNodes - {n}, [RecoveryAlert];
      }
    }

    /** Counts, latches and alerts for one observation. */
    method Note(n: NodeId, seen: NodeStatus) returns (alerts: seq<Alert>)
      requires Valid() && n in nodes
      modifies this
      ensures Valid() && n in statuses && (WellFormed(seen) ==> WellFormed(statuses[n]))
      ensures statuses[n] == seen.(failureCount := if seen.healthy then 0 else old(FailuresOf(n)) + 1)
      ensures Known() == Entered(old(Known()), n, statuses[n], alertedNodes, alerts)
    {
      var status := seen.(failureCount := if seen.healthy then 0 else FailuresOf(n) + 1);
      var alerted;
      alerted, alerts := Latch(n, FailuresOf(n), status);
      FollowsOn(Known(), n, status, alerted, alerts, threshold);
      statuses, alertedNodes := statuses[n := status], alerted;
      history, sent := history[n := history[n] + [status.healthy]], sent[n := sent[n] + alerts];
    }

    method DetectPrimary() returns (found: NodeId)
      requires NOBODY !in statuses
      ensures Detected(statuses, found)
    {
      var rest := statuses.Keys;
      while rest != {}
        invariant rest <= statuses.Keys
        invariant forall n <- statuses :: n in rest || !(statuses[n].healthy && statuses[n].role.RolePrimary?)
        decreases rest
      {
        var n :| n in rest;
        rest := rest - {n};
        if statuses[n].healthy && statuses[n].role == RolePrimary {
          return n;
        }
      }
      found := NOBODY;
    }
  }
}
