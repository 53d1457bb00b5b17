/** The Etcd store's epoch comparison (internal/store/store.go:168-223): a read, a local check and a transaction on
    the revision that was read. It refines the one-step comparison of the memory store. */
module Etcd {
  import opened Model

  /** One key of a linearizable store: every write gets a new revision and stamps the value with it. */
  datatype Entry = Entry(value: ClusterState, modRevision: nat)
  datatype Key = Key(entry: Option<Entry>, revision: nat)

  /** No value carries a revision from the future. */
  predicate Sane(k: Key) {
    k.entry.Some? ==> k.entry.value.modRevision <= k.revision
  }

  function Put(k: Key, v: ClusterState): Key {
    Key(Some(Entry(v, k.revision + 1)), k.revision + 1)
  }

  function Delete(k: Key): Key {
    Key(None, k.revision + 1)
  }

  /** What GetCluster makes of the key: an absent record has no primary and epoch 0. */
  function Record(k: Key): ClusterState {
    if k.entry.Some? then k.entry.value.value else ClusterState(NOBODY, 0, false)
  }

  // --- The optimistic form ---

  /** What the transaction compares: "still absent" or "still at this revision". */
  datatype Compare = StillAbsent | StillAt(modRevision: nat)

  predicate Holds(k: Key, c: Compare) {
    match c
    case StillAbsent => k.entry.None?
    case StillAt(r) => k.entry.Some? && k.entry.value.modRevision == r
  }

  function CompareOf(k: Key): Compare {
    if k.entry.Some? then StillAt(k.entry.value.modRevision) else StillAbsent
  }

  function Commit(k: Key, c: Compare, v: ClusterState): Key {
    if Holds(k, c) then Put(k, v) else k
  }

  // --- The atomic form (internal/store/store.go:56-64) ---

  function AtomicCas(r: ClusterState, expected: nat, v: ClusterState): ClusterState {
    if r.epoch == expected then v else r
  }

  // --- Any number of clients ---

  /** A client between its read and its transaction. */
  datatype Pending = Pending(expected: nat, next: ClusterState, compare: Compare)

  datatype State = State(key: Key, pending: map<nat, Pending>)

  datatype Event =
    | ReadEpoch(client: nat, expected: nat, next: ClusterState)   // the read found the expected epoch
    | Transact(client: nat)
    | PutAny(value: ClusterState)                                 // PutCluster, by anyone
    | Remove                                                      // deletion, by anyone

  ghost predicate Enabled(s: State, e: Event) {
    match e
    case ReadEpoch(c, expected, _) => c !in s.pending && Record(s.key).epoch == expected
    case Transact(c) => c in s.pending
    case PutAny(_) => true
    case Remove => true
  }

  ghost function Next(s: State, e: Event): State
    requires Enabled(s, e)
  {
    match e
    case ReadEpoch(c, expected, next) => s.(pending := s.pending[c := Pending(expected, next, CompareOf(s.key))])
    case Transact(c) => State(Commit(s.key, s.pending[c].compare, s.pending[c].next), s.pending - {c})
    case PutAny(v) => s.(key := Put(s.key, v))
    case Remove => s.(key := Delete(s.key))
  }

  /** A revision is never reused: a comparison that would hold now is a comparison with the value that was read. */
  ghost predicate Fresh(k: Key, p: Pending) {
    && (match p.compare case StillAbsent => p.expected == 0 case StillAt(r) => r <= k.revision)
    && (Holds(k, p.compare) ==> Record(k).epoch == p.expected)
  }

  ghost predicate Inv(s: State) {
    Sane(s.key) && forall c <- s.pending :: Fresh(s.key, s.pending[c])
  }

  lemma Keep(s: State, e: Event)
    requires Inv(s) && Enabled(s, e)
    ensures Inv(Next(s, e))
  {}

  /** One event of the optimistic store is, on the record, one atomic operation or nothing at all. */
  lemma StepRefines(s: State, e: Event)
    requires Inv(s) && Enabled(s, e)
    ensures var r, r' := Record(s.key), Record(Next(s, e).key);
            match e
            case Transact(c) =>
              var p := s.pending[c];
              if Holds(s.key, p.compare)
              then r.epoch == p.expected && r' == p.next == AtomicCas(r, p.expected, p.next)
              else Next(s, e).key == s.key
            case ReadEpoch(_, _, _) => r' == r
            case PutAny(v) => r' == v
            case Remove => r' == ClusterState(NOBODY, 0, false)
  {}

  // --- Whole runs ---

  ghost predicate Run(s: State, es: seq<Event>)
    decreases |es|
  {
    es == [] || (Enabled(s, es[0]) && Run(Next(s, es[0]), es[1..]))
  }

  ghost function Reach(s: State, es: seq<Event>): State
    requires Run(s, es)
    decreases |es|
  {
    if es == [] then s else Reach(Next(s, es[0]), es[1..])
  }

  /** The operations of a store with an atomic comparison. */
  datatype AtomicOp = Cas(expected: nat, next: ClusterState) | Write(value: ClusterState)

  function DoAtomic(r: ClusterState, op: AtomicOp): ClusterState {
    match op
    case Cas(expected, next) => AtomicCas(r, expected, next)
    case Write(v) => v
  }

  function DoAll(r: ClusterState, ops: seq<AtomicOp>): ClusterState
    decreases |ops|
  {
    if ops == [] then r else DoAll(DoAtomic(r, ops[0]), ops[1..])
  }

  /** The atomic operations a run amounts to: successful transactions and plain writes, in commit order. */
  ghost function Abstract(s: State, es: seq<Event>): seq<AtomicOp>
    requires Run(s, es)
    decreases |es|
  {
    if es == [] then []
    else
      (match es[0]
       case Transact(c) =>
         if Holds(s.key, s.pending[c].compare) then [Cas(s.pending[c].expected, s.pending[c].next)] else []
       case ReadEpoch(_, _, _) => []
       case PutAny(v) => [Write(v)]
       case Remove => [Write(ClusterState(NOBODY, 0, false))])
      + Abstract(Next(s, es[0]), es[1..])
  }

  /** Every comparison of the sequence succeeds where it stands. */
  predicate AllSucceed(r: ClusterState, ops: seq<AtomicOp>)
    decreases |ops|
  {
    ops == [] || ((ops[0].Cas? ==> r.epoch == ops[0].expected) && AllSucceed(DoAtomic(r, ops[0]), ops[1..]))
  }

  /** The optimistic store, under all interleavings of all clients, behaves like the atomic one: its record is what
      the atomic operations of the run leave, and every transaction that reported success is an atomic comparison
      that succeeds at that instant. */
  lemma {:induction false} OptimisticRefinesAtomic(s: State, es: seq<Event>)
    requires Inv(s) && Run(s, es)
    ensures Record(Reach(s, es).key) == DoAll(Record(s.key), Abstract(s, es))
    ensures AllSucceed(Record(s.key), Abstract(s, es))
    decreases |es|
  {
    if es != [] {
      Keep(s, es[0]);
      StepRefines(s, es[0]);
      var s' := Next(s, es[0]);
      OptimisticRefinesAtomic(s', es[1..]);
      var tail := Abstract(s', es[1..]);
      if Abstract(s, es) == tail {
        assert Record(s'.key) == Record(s.key);
      } else {
        assert Abstract(s, es)[1..] == tail;
      }
    }
  }

  // --- One call, as the code makes it ---

  class EtcdStore {
    var key: Key

    /** Other clients write and delete, any number of times. */
    method Interfere()
      requires Sane(key)
      modifies this
      ensures Sane(key) && old(key).revision <= key.revision
      ensures key == old(key) || key.entry.None? || old(key).revision < key.entry.value.modRevision
    {
      var writes :| 0 <= writes;
      for i := 0 to writes
        invariant Sane(key) && old(key).revision <= key.revision
        invariant key == old(key) || key.entry.None? || old(key).revision < key.entry.value.modRevision
      {
        var v: ClusterState, deletes: bool := *, *;
        key := if deletes then Delete(key) else Put(key, v);
      }
    }

    /** PutClusterIfEpoch. `instant` is the key at the moment the call committed or gave up, `unheard` says that the
        store's answer to the read or to the transaction was lost. Success means that the stored epoch was the expected
        one right then and the new state replaced it; a refusal changes nothing, and its cause is another epoch or an
        interfering write; a lost answer means one or the other. */
    method PutClusterIfEpoch(expected: nat, state: ClusterState)
      returns (ok: bool, ghost instant: Key, ghost unheard: bool)
      requires Sane(key)
      modifies this
      ensures Sane(key) && (unheard ==> !ok)
      ensures key == instant || (Record(instant).epoch == expected && key == Put(instant, state))
      ensures key != instant ==> Record(key) == AtomicCas(Record(instant), expected, state)
      ensures key != instant ==> CompareOf(instant) == CompareOf(old(key)) && Record(instant) == Record(old(key))
      ensures ok ==> key != instant
      ensures !ok && !unheard ==> key == instant
      ensures !ok && !unheard ==> Record(old(key)).epoch != expected || CompareOf(instant) != CompareOf(old(key))
      ensures instant == old(key) || instant.entry.None? || old(key).revision < instant.entry.value.modRevision
    {
      instant, unheard := key, false;
      var answered: bool := *;
      if !answered {
        return false, key, true;
      }
      var seen := key;
      var compare := StillAbsent;
      if seen.entry.Some? {
        if seen.entry.value.value.epoch != expected {
          return false, key, false;
        }
        compare := StillAt(seen.entry.value.modRevision);
      } else if expected != 0 {
        return false, key, false;
      }
      Interfere();
      instant := key;
      var reached: bool := *;
      if reached {
        ok := Holds(key, compare);
        key := Commit(key, compare, state);
      }
      answered := *;
      if !reached || !answered {
        return false, instant, true;
      }
    }
  }
}
