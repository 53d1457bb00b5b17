/** The part of a MySQL server that the agent's client reads and changes (internal/mysql/client.go). */
module MySql {
  import opened Model

  /** The legal values of the pair (read_only, super_read_only): super_read_only is never on with read_only off. */
  datatype Access = Open | ReadOnly | SuperReadOnly

  /** Access and the replication channel: `source` is None when no channel is configured,
      `started` says whether START REPLICA was the last channel command. */
  datatype Mode = Mode(access: Access, source: Option<NodeId>, started: bool)

  /** What Status reports as role "primary". */
  predicate Writable(m: Mode) {
    m.access.Open?
  }

  /** Status reports role "replica" with a non-nil replica section. */
  predicate ReportsReplica(m: Mode) {
    !Writable(m) && m.source.Some?
  }

  datatype Statement =
    | StopReplica
    | ResetReplica
    | ChangeSource(source: NodeId)
    | StartReplica
    | SetSuperReadOnly(on: bool)
    | SetReadOnly(on: bool)

  /** The server's own rules: switching super_read_only on switches read_only on,
      switching read_only off switches super_read_only off. */
  function Apply(m: Mode, st: Statement): Mode {
    match st
    case StopReplica => m.(started := false)
    case ResetReplica => m.(source := None, started := false)
    case ChangeSource(n) => m.(source := Some(n))
    case StartReplica => m.(started := m.source.Some?)
    case SetSuperReadOnly(on) =>
      m.(access := if on then SuperReadOnly else if m.access.SuperReadOnly? then ReadOnly else m.access)
    case SetReadOnly(on) =>
      m.(access := if !on then Open else if m.access.Open? then ReadOnly else m.access)
  }

  const DEMOTE: seq<Statement> := [SetSuperReadOnly(true), SetReadOnly(true)]

  const PROMOTE: seq<Statement> := [StopReplica, ResetReplica, SetSuperReadOnly(false), SetReadOnly(false)]

  function Link(source: NodeId): (script: seq<Statement>)
    ensures |script| == 6
  {
    [StopReplica, ResetReplica, ChangeSource(source), StartReplica, SetSuperReadOnly(true), SetReadOnly(true)]
  }

  /** The mode once the first `ran` statements of a script have run. */
  function After(m: Mode, script: seq<Statement>, ran: nat): Mode
    requires ran <= |script|
  {
    if ran == 0 then m else Apply(After(m, script, ran - 1), script[ran - 1])
  }

  /** A read-only replica of `source`, whatever the server was before. */
  function Linked(source: NodeId): Mode {
    Mode(SuperReadOnly, Some(source), true)
  }

  /** Demotion is decided by its first statement: from then on both flags are on and the channel is untouched. */
  lemma DemoteProgress(m: Mode, ran: nat)
    requires ran <= |DEMOTE|
    ensures After(m, DEMOTE, ran) == if ran == 0 then m else m.(access := SuperReadOnly)
  {}

  /** Promotion opens the server for writes only with its last statement, and by then the channel is gone. */
  lemma PromoteProgress(m: Mode, ran: nat)
    requires ran <= |PROMOTE|
    ensures var a := After(m, PROMOTE, ran);
            && (ran < 2 ==> a.source == m.source)
            && (ran >= 2 ==> a.source == None && !a.started)
            && (ran < 3 ==> a.access == m.access)
            && (ran == 3 ==> (a.access.Open? <==> m.access.Open?) && !a.access.SuperReadOnly?)
            && (ran == 4 ==> a == Mode(Open, None, false))
  {}

  /** Linking to a source never opens a server, and ends in the same mode from every start. */
  lemma LinkProgress(m: Mode, source: NodeId, ran: nat)
    requires ran <= 6
    ensures var a := After(m, Link(source), ran);
            && (ran < 2 ==> a.source == m.source)
            && (ran == 2 ==> a.source == None)
            && (ran > 2 ==> a.source == Some(source))
            && (ran > 3 ==> a.started)
            && (ran < 5 ==> a.access == m.access)
            && (ran >= 5 ==> a == Linked(source))
  {}
}
