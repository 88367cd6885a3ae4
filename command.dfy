/**
  The command vocabulary of the handler: four literal command texts, tried by
  exact string equality in a fixed order (api/main.go:36, 47, 58, 69).
 */
module Command {
  import opened Wrappers

  /** The recognised commands: status query, start, stop and reboot. */
  datatype Command = Server | Start | Stop | Reboot

  /** The exact text that selects each command. */
  function Literal(c: Command): string
  {
    match c
    case Server => "!conoha server"
    case Start => "!conoha start"
    case Stop => "!conoha stop"
    case Reboot => "!conoha reboot"
  }

  /** The order in which the handler tests the literals. */
  const SourceOrder: seq<Command> := [Server, Start, Stop, Reboot]

  /** No two commands share a literal. */
  lemma LiteralsDistinct(a: Command, b: Command)
    ensures Literal(a) == Literal(b) <==> a == b
  {
    assert Literal(Server)[8] == 's' && Literal(Reboot)[8] == 'r';
    assert Literal(Start)[10] == 'a' && Literal(Stop)[10] == 'o';
  }

  /**
    Tests `cmd` against the literals of `order`, first to last, and yields the
    first command whose literal equals `cmd`, or None when none does.
   */
  function ParseInOrder(cmd: string, order: seq<Command>): (r: Option<Command>)
    ensures r.Some? ==> r.value in order && cmd == Literal(r.value)
    ensures r.None? ==> forall c :: c in order ==> cmd != Literal(c)
  {
    if order == [] then None
    else if cmd == Literal(order[0]) then Some(order[0])
    else ParseInOrder(cmd, order[1..])
  }

  /**
    The literals `ParseInOrder(cmd, order)` compares `cmd` with: a prefix of
    `order` that stops at the first match, or all of `order` when none matches.
   */
  function Tried(cmd: string, order: seq<Command>): (t: seq<Command>)
    ensures |t| <= |order| && t == order[..|t|]
    ensures ParseInOrder(cmd, order).Some? <==> 0 < |t| && cmd == Literal(t[|t| - 1])
    ensures ParseInOrder(cmd, order).Some? ==> t[|t| - 1] == ParseInOrder(cmd, order).value
    ensures ParseInOrder(cmd, order).None? ==> t == order
    ensures forall i :: 0 <= i < |t| - 1 ==> cmd != Literal(t[i])
  {
    if order == [] then []
    else if cmd == Literal(order[0]) then [order[0]]
    else [order[0]] + Tried(cmd, order[1..])
  }

  /**
    The command the handler recognises in `cmd`. Matching is exact: a command
    is recognised exactly when `cmd` equals its literal.
   */
  function Parse(cmd: string): (r: Option<Command>)
    ensures forall c :: r == Some(c) <==> cmd == Literal(c)
  {
    ParseInOrder(cmd, SourceOrder)
  }

  /** Every literal parses back to its own command. */
  lemma ParseLiteral(c: Command)
    ensures Parse(Literal(c)) == Some(c)
  {
  }

  /**
    Since the literals are distinct, the order of the tests decides nothing:
    trying the literals in any order that lists every command recognises the
    same command as the handler's order.
   */
  lemma OrderIrrelevant(cmd: string, order: seq<Command>)
    requires forall c: Command :: c in order
    ensures ParseInOrder(cmd, order) == Parse(cmd)
  {
  }

  /** A command the handler does not recognise is compared with all four literals. */
  lemma UnrecognisedTriesAll(cmd: string)
    requires Parse(cmd) == None
    ensures Tried(cmd, SourceOrder) == SourceOrder
  {
  }

  /** A recognised command is compared with the literals up to and including its own. */
  lemma RecognisedTriesUpTo(cmd: string, c: Command)
    requires Parse(cmd) == Some(c)
    ensures Tried(cmd, SourceOrder) == SourceOrder[..Position(c) + 1]
  {
  }

  /** Where a command's test stands in the handler's chain. */
  function Position(c: Command): (i: nat)
    ensures i < |SourceOrder| && SourceOrder[i] == c
  {
    match c
    case Server => 0
    case Start => 1
    case Stop => 2
    case Reboot => 3
  }

  /** Whether a character is white space (space, tab, line feed, carriage return). */
  predicate IsSpace(ch: char)
  {
    ch == ' ' || ch == '\t' || ch == '\n' || ch == '\r'
  }

  /** No trimming: a command with leading or trailing white space is not recognised. */
  lemma SurroundingSpaceRejected(cmd: string, ch: char)
    requires IsSpace(ch)
    ensures Parse([ch] + cmd) == None
    ensures Parse(cmd + [ch]) == None
  {
    forall c: Command
      ensures [ch] + cmd != Literal(c) && cmd + [ch] != Literal(c)
    {
      var lit := Literal(c);
      assert lit[0] == '!' && !IsSpace(lit[|lit| - 1]);
      assert ([ch] + cmd)[0] == ch;
      assert (cmd + [ch])[|cmd + [ch]| - 1] == ch;
    }
  }

  /** Whether a character is an upper-case ASCII letter. */
  predicate IsUpper(ch: char)
  {
    'A' <= ch <= 'Z'
  }

  /** Case-sensitive: a text holding any upper-case letter is not recognised. */
  lemma UpperCaseRejected(cmd: string, i: nat)
    requires i < |cmd| && IsUpper(cmd[i])
    ensures Parse(cmd) == None
  {
  }
}
