/** Quoting for CHANGE REPLICATION SOURCE (internal/mysql/client.go:171-175 and 193-196), read back under section
    11.1.1 (String Literals) of the MySQL 8.0 Reference Manual, with backslash escapes on. */
module Quoting {
  import opened Model

  const QUOTE: char := '\''
  const BACKSLASH: char := '\\'

  // --- The writer ---

  /** strings.ReplaceAll for a pattern of one character. */
  function ReplaceAll(s: string, c: char, sub: string): string {
    if s == [] then []
    else (if s[0] == c then sub else [s[0]]) + ReplaceAll(s[1..], c, sub)
  }

  function QuoteSql(v: string): string {
    ReplaceAll(ReplaceAll(v, BACKSLASH, [BACKSLASH, BACKSLASH]), QUOTE, [BACKSLASH, QUOTE])
  }

  /** One pass, character by character. */
  function Escape(v: string): string {
    if v == [] then []
    else (if v[0] == BACKSLASH || v[0] == QUOTE then [BACKSLASH, v[0]] else [v[0]]) + Escape(v[1..])
  }

  lemma {:induction false} ReplaceAllConcat(a: string, b: string, c: char, sub: string)
    ensures ReplaceAll(a + b, c, sub) == ReplaceAll(a, c, sub) + ReplaceAll(b, c, sub)
  {
    if a == [] {
      assert a + b == b;
    } else {
      assert (a + b)[1..] == a[1..] + b;
      ReplaceAllConcat(a[1..], b, c, sub);
    }
  }

  /** The two replace passes never touch what the other wrote: together they are one per-character map. */
  lemma {:induction false} TwoPassesAreOne(v: string)
    ensures QuoteSql(v) == Escape(v)
  {
    if v != [] {
      TwoPassesAreOne(v[1..]);
      var first := if v[0] == BACKSLASH then [BACKSLASH, BACKSLASH] else [v[0]];
      var rest := ReplaceAll(v[1..], BACKSLASH, [BACKSLASH, BACKSLASH]);
      ReplaceAllConcat(first, rest, QUOTE, [BACKSLASH, QUOTE]);
      if v[0] == BACKSLASH {
        assert first[1..] == [BACKSLASH] && first[1..][1..] == [];
        assert ReplaceAll([BACKSLASH], QUOTE, [BACKSLASH, QUOTE]) == [BACKSLASH];
        assert ReplaceAll(first, QUOTE, [BACKSLASH, QUOTE]) == first;
      } else {
        assert first[1..] == [];
      }
    }
  }

  // --- The reader ---

  datatype Literal = Literal(value: string, rest: string)

  /** What a backslash and the character after it stand for. */
  function Unescape(c: char): string {
    match c
    case '0' => ['\0']
    case 'b' => [8 as char]
    case 'n' => ['\n']
    case 'r' => ['\r']
    case 't' => ['\t']
    case 'Z' => [26 as char]
    case '%' => [BACKSLASH, '%']
    case '_' => [BACKSLASH, '_']
    case _ => [c]
  }

  function Prepend(v: string, r: Option<Literal>): Option<Literal> {
    if r.Some? then Some(Literal(v + r.value.value, r.value.rest)) else None
  }

  /** Reads a single-quoted literal from just after its opening quote: a doubled quote stands for one quote, a
      single one closes. None if the text ends first. */
  function ReadLiteral(s: string): Option<Literal> {
    if s == [] then None
    else if s[0] == BACKSLASH then
      if |s| == 1 then None else Prepend(Unescape(s[1]), ReadLiteral(s[2..]))
    else if s[0] == QUOTE then
      if |s| > 1 && s[1] == QUOTE then Prepend([QUOTE], ReadLiteral(s[2..])) else Some(Literal([], s[1..]))
    else Prepend([s[0]], ReadLiteral(s[1..]))
  }

  /** Reading past the escape of one character. */
  lemma ReadOne(c: char, tail: string)
    ensures ReadLiteral(Escape([c]) + tail) == Prepend([c], ReadLiteral(tail))
  {
    var first := if c == BACKSLASH || c == QUOTE then [BACKSLASH, c] else [c];
    assert Escape([c][1..]) == [];
    assert Escape([c]) == first + [] == first;
    var text := first + tail;
    assert text[|first|..] == tail;
  }

  lemma PrependBoth(a: string, b: string, r: Option<Literal>)
    ensures Prepend(a, Prepend(b, r)) == Prepend(a + b, r)
  {
    if r.Some? { assert a + (b + r.value.value) == (a + b) + r.value.value; }
  }

  /** Reading an escaped value gives the value back and goes on behind it. */
  lemma {:induction false} ReadEscaped(v: string, t: string)
    ensures ReadLiteral(Escape(v) + t) == Prepend(v, ReadLiteral(t))
  {
    if v == [] {
      assert Escape(v) + t == t;
      if ReadLiteral(t).Some? { assert [] + ReadLiteral(t).value.value == ReadLiteral(t).value.value; }
    } else {
      var c, w := v[0], v[1..];
      assert Escape(v) + t == Escape([c]) + (Escape(w) + t);
      ReadOne(c, Escape(w) + t);
      ReadEscaped(w, t);
      PrependBoth([c], w, ReadLiteral(t));
      assert [c] + w == v;
    }
  }

  /** The quoted value, a closing quote and a suffix read back as exactly the value and exactly the suffix, if and
      only if the suffix does not itself begin with a quote (which would pair up with the closing one). */
  lemma RoundTripExactly(v: string, suffix: string)
    ensures ReadLiteral(QuoteSql(v) + [QUOTE] + suffix) == Some(Literal(v, suffix))
            <==> (suffix == [] || suffix[0] != QUOTE)
  {
    TwoPassesAreOne(v);
    var t := [QUOTE] + suffix;
    assert QuoteSql(v) + [QUOTE] + suffix == Escape(v) + t;
    ReadEscaped(v, t);
    if suffix == [] || suffix[0] != QUOTE {
      assert t[1..] == suffix;
      assert v + [] == v;
    } else {
      assert t[2..] == suffix[1..];
    }
  }

  /** The failing family is not empty: a host followed by another quote does not end where it should. */
  lemma DoubledQuoteRunsOn()
    ensures ReadLiteral(QuoteSql("db") + [QUOTE] + [QUOTE]) != Some(Literal("db", [QUOTE]))
  {
    RoundTripExactly("db", [QUOTE]);
  }

  // --- The whole statement ---

  datatype Source = Source(host: string, port: string, user: string, password: string)

  /** A assignment in single quotes, and the next one behind it. */
  function QuotedThen(name: string, v: string, rest: string): string {
    name + (" = " + (([QUOTE] + QuoteSql(v) + [QUOTE]) + (", " + rest)))
  }

  function NumberThen(name: string, v: string, rest: string): string {
    name + (" = " + (v + (", " + rest)))
  }

  function FromPassword(c: Source): string {
    QuotedThen("SOURCE_PASSWORD", c.password, "SOURCE_AUTO_POSITION" + (" = " + "1"))
  }

  function FromPort(c: Source): string {
    NumberThen("SOURCE_PORT", c.port, QuotedThen("SOURCE_USER", c.user, FromPassword(c)))
  }

  /** The text that ReconfigureReplica executes; `port` is the rendered number. */
  function Render(c: Source): string {
    "CHANGE REPLICATION SOURCE TO " + QuotedThen("SOURCE_HOST", c.host, FromPort(c))
  }

  // --- How the server reads it, whatever the options are ---

  function Expect(word: string, s: string): Option<string> {
    if word <= s then Some(s[|word|..]) else None
  }

  /** The characters before the first `stop`, and the text from there on. */
  function UpTo(stop: char, s: string): Literal {
    if s == [] || s[0] == stop then Literal([], s)
    else var r := UpTo(stop, s[1..]); Literal([s[0]] + r.value, r.rest)
  }

  datatype Assignment = Assignment(name: string, value: string)

  /** A value is a quoted literal or runs up to a comma. */
  function ReadValue(s: string): Option<Literal> {
    if s != [] && s[0] == QUOTE then ReadLiteral(s[1..]) else Some(UpTo(',', s))
  }

  /** Assignments of the form NAME = value, separated by commas, up to the end of the text. At most `count` of them. */
  function ReadAssignments(s: string, count: nat): Option<seq<Assignment>>
    decreases count
  {
    if count == 0 then None else
    var name := UpTo(' ', s);
    var value := Expect(" = ", name.rest);
    if value.None? then None else
    var v := ReadValue(value.value);
    if v.None? then None
    else if v.value.rest == [] then Some([Assignment(name.value, v.value.value)])
    else
      var next := Expect(", ", v.value.rest);
      var more := if next.Some? then ReadAssignments(next.value, count - 1) else None;
      if more.Some? then Some([Assignment(name.value, v.value.value)] + more.value) else None
  }

  function ReadStatement(s: string, count: nat): Option<seq<Assignment>> {
    var assignments := Expect("CHANGE REPLICATION SOURCE TO ", s);
    if assignments.Some? then ReadAssignments(assignments.value, count) else None
  }

  lemma {:induction false} UpToBack(stop: char, p: string, suffix: string)
    requires stop !in p && (suffix == [] || suffix[0] == stop)
    ensures UpTo(stop, p + suffix) == Literal(p, suffix)
  {
    if p == [] {
      assert p + suffix == suffix;
    } else {
      assert (p + suffix)[1..] == p[1..] + suffix;
      UpToBack(stop, p[1..], suffix);
    }
  }

  /** One assignment, read back from in front of whatever follows. */
  lemma ReadAssignmentBack(name: string, text: string, value: string, suffix: string)
    requires ' ' !in name && ReadValue(text + suffix) == Some(Literal(value, suffix))
    ensures var s := name + (" = " + (text + suffix));
            && UpTo(' ', s) == Literal(name, " = " + (text + suffix))
            && Expect(" = ", " = " + (text + suffix)) == Some(text + suffix)
  {
    UpToBack(' ', name, " = " + (text + suffix));
  }

  /** The last assignment, */
  lemma ReadLast(name: string, text: string, value: string, count: nat)
    requires ' ' !in name && ReadValue(text) == Some(Literal(value, [])) && count > 0
    ensures ReadAssignments(name + (" = " + text), count) == Some([Assignment(name, value)])
  {
    assert text + [] == text;
    ReadAssignmentBack(name, text, value, []);
  }

  /** and one before others. */
  lemma ReadNext(name: string, text: string, value: string, rest: string, more: seq<Assignment>, count: nat)
    requires ' ' !in name && ReadValue(text + (", " + rest)) == Some(Literal(value, ", " + rest)) && count > 0
    requires ReadAssignments(rest, count - 1) == Some(more)
    ensures ReadAssignments(name + (" = " + (text + (", " + rest))), count) == Some([Assignment(name, value)] + more)
  {
    ReadAssignmentBack(name, text, value, ", " + rest);
    assert Expect(", ", ", " + rest) == Some(rest);
  }

  lemma ReadQuotedBack(v: string, suffix: string)
    requires suffix == [] || suffix[0] != QUOTE
    ensures ReadValue(([QUOTE] + QuoteSql(v) + [QUOTE]) + suffix) == Some(Literal(v, suffix))
  {
    assert (([QUOTE] + QuoteSql(v) + [QUOTE]) + suffix)[1..] == QuoteSql(v) + [QUOTE] + suffix;
    RoundTripExactly(v, suffix);
  }

  lemma ReadQuoted(name: string, v: string, rest: string, more: seq<Assignment>, count: nat)
    requires ' ' !in name && count > 0 && ReadAssignments(rest, count - 1) == Some(more)
    ensures ReadAssignments(QuotedThen(name, v, rest), count) == Some([Assignment(name, v)] + more)
  {
    ReadQuotedBack(v, ", " + rest);
    ReadNext(name, [QUOTE] + QuoteSql(v) + [QUOTE], v, rest, more, count);
  }

  lemma ReadNumber(name: string, v: string, rest: string, more: seq<Assignment>, count: nat)
    requires ' ' !in name && count > 0 && ReadAssignments(rest, count - 1) == Some(more)
    requires v != [] && ',' !in v && v[0] != QUOTE
    ensures ReadAssignments(NumberThen(name, v, rest), count) == Some([Assignment(name, v)] + more)
  {
    UpToBack(',', v, ", " + rest);
    ReadNext(name, v, v, rest, more, count);
  }

  lemma ReadPosition(count: nat)
    requires count > 0
    ensures ReadAssignments("SOURCE_AUTO_POSITION" + (" = " + "1"), count) ==
            Some([Assignment("SOURCE_AUTO_POSITION", "1")])
  {
    UpToBack(',', "1", []);
    assert "1" + [] == "1";
    ReadLast("SOURCE_AUTO_POSITION", "1", "1", count);
  }

  lemma ReadPassword(c: Source)
    ensures ReadAssignments(FromPassword(c), 2) ==
            Some([Assignment("SOURCE_PASSWORD", c.password)] + [Assignment("SOURCE_AUTO_POSITION", "1")])
  {
    ReadPosition(1);
    ReadQuoted("SOURCE_PASSWORD", c.password, "SOURCE_AUTO_POSITION" + (" = " + "1"),
               [Assignment("SOURCE_AUTO_POSITION", "1")], 2);
  }

  lemma ReadUser(c: Source, more: seq<Assignment>)
    requires ReadAssignments(FromPassword(c), 2) == Some(more)
    ensures ReadAssignments(QuotedThen("SOURCE_USER", c.user, FromPassword(c)), 3) ==
            Some([Assignment("SOURCE_USER", c.user)] + more)
  {
    ReadQuoted("SOURCE_USER", c.user, FromPassword(c), more, 3);
  }

  lemma ReadPort(c: Source, more: seq<Assignment>)
    requires c.port != [] && forall d <- c.port :: '0' <= d <= '9'
    requires ReadAssignments(QuotedThen("SOURCE_USER", c.user, FromPassword(c)), 3) == Some(more)
    ensures ReadAssignments(FromPort(c), 4) == Some([Assignment("SOURCE_PORT", c.port)] + more)
  {
    assert c.port[0] in c.port && ',' !in c.port;
    ReadNumber("SOURCE_PORT", c.port, QuotedThen("SOURCE_USER", c.user, FromPassword(c)), more, 4);
  }

  lemma ReadHost(c: Source, more: seq<Assignment>)
    requires ReadAssignments(FromPort(c), 4) == Some(more)
    ensures ReadStatement(Render(c), 5) == Some([Assignment("SOURCE_HOST", c.host)] + more)
  {
    var host := QuotedThen("SOURCE_HOST", c.host, FromPort(c));
    ReadQuoted("SOURCE_HOST", c.host, FromPort(c), more, 5);
    ExpectBack("CHANGE REPLICATION SOURCE TO ", host);
  }

  lemma Five<T>(a: T, b: T, c: T, d: T, e: T)
    ensures [a] + ([b] + ([c] + ([d] + [e]))) == [a, b, c, d, e]
  {}

  /** The five assignments of the statement. */
  function Assignments(c: Source): seq<Assignment> {
    [Assignment("SOURCE_HOST", c.host), Assignment("SOURCE_PORT", c.port), Assignment("SOURCE_USER", c.user),
     Assignment("SOURCE_PASSWORD", c.password), Assignment("SOURCE_AUTO_POSITION", "1")]
  }

  lemma ExpectBack(word: string, s: string)
    ensures Expect(word, word + s) == Some(s)
  {}

  /** Whatever the host, user and password contain, the server reads exactly five assignments with exactly these values.
      */
  lemma StatementRoundTrip(c: Source)
    requires c.port != [] && forall d <- c.port :: '0' <= d <= '9'
    ensures ReadStatement(Render(c), 5) == Some(Assignments(c))
  {
    ReadPassword(c);
    var fromPassword := [Assignment("SOURCE_PASSWORD", c.password)] + [Assignment("SOURCE_AUTO_POSITION", "1")];
    ReadUser(c, fromPassword);
    ReadPort(c, [Assignment("SOURCE_USER", c.user)] + fromPassword);
    ReadHost(c, [Assignment("SOURCE_PORT", c.port)] + ([Assignment("SOURCE_USER", c.user)] + fromPassword));
    Five(Assignment("SOURCE_HOST", c.host), Assignment("SOURCE_PORT", c.port), Assignment("SOURCE_USER", c.user),
         Assignment("SOURCE_PASSWORD", c.password), Assignment("SOURCE_AUTO_POSITION", "1"));
  }
}
