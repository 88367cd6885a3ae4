/**
  The request handler `Minecraft` (api/main.go:33-82): it fetches a token,
  recognises the command, makes the one provider call the command names,
  and answers on the stream with one response or with one error.

  The provider and the stream are outside the model. Each provider operation
  is represented by the reply it gives (a `Cloud` value holds one reply per
  operation), and the stream's `Send` by its outcome (`None` when the response
  went out, `Some(cause)` when sending failed). What the handler does with
  them is recorded as a sequence of events.

  In api/main.go the start, stop and reboot branches (lines 53-56, 64-67,
  75-78) and the fallthrough (line 81) return two values although `Minecraft`
  is declared to return only `error` (line 33), so those lines do not compile
  as written. They are modelled by their evident intent, the way the status
  branch works (lines 39-44): every recognised command sends exactly one
  response on the stream, a failed send is the request's error, and an
  unrecognised command sends nothing and ends with the unimplemented error.
 */
module Handler {
  import opened Wrappers
  import opened StatusLabel
  import opened Command

  /** The provider's "accepted, in progress" code for start, stop and reboot. */
  const AcceptedCode: int := 202

  /** The message of the error for a command outside the vocabulary. */
  const UnknownCommandMessage: string := "登録されていないコマンドです"

  /** What one provider operation returns: a status text and an HTTP-like code. */
  datatype Reply = Reply(text: string, code: int)

  /** The reply each provider operation gives during one request. */
  datatype Cloud = Cloud(status: Reply, start: Reply, stop: Reply, reboot: Reply)

  /** The steps of one request: the token fetch, one literal test, one provider call. */
  datatype Event = FetchToken | Compare(literal: Command) | Call(op: Command)

  /** The message streamed back to the caller. */
  datatype Response = Response(message: string, isNormal: bool)

  /** The error a request ends with: an unknown command, or a failed send. */
  datatype RpcError = Unimplemented(message: string) | SendFailed(cause: string)

  /** What one request did: its steps, the responses sent, and its error if any. */
  datatype Handled = Handled(events: seq<Event>, sent: seq<Response>, err: Option<RpcError>)

  /** The provider operation a command calls, as the reply it gives. */
  function Operation(cloud: Cloud, c: Command): Reply
  {
    match c
    case Server => cloud.status
    case Start => cloud.start
    case Stop => cloud.stop
    case Reboot => cloud.reboot
  }

  /**
    The response built from a command's provider reply. The status query
    shows the status label and is always normal; the code it receives is
    ignored. Start, stop and reboot pass the provider text through and are
    normal exactly when the provider accepted the action.
   */
  function Respond(c: Command, reply: Reply): (resp: Response)
    ensures c == Server ==> resp.isNormal && resp.message == Label(reply.text)
    ensures c != Server ==> resp.message == reply.text
    ensures c != Server ==> (resp.isNormal <==> reply.code == AcceptedCode)
  {
    if c == Server then
      Response(Label(reply.text), true)
    else
      var isNormal := reply.code == AcceptedCode;
      Response(reply.text, isNormal)
  }

  /** One comparison event per literal tested, in the order tested. */
  function Compares(tried: seq<Command>): seq<Event>
  {
    seq(|tried|, i requires 0 <= i < |tried| => Compare(tried[i]))
  }

  /**
    Handles one request carrying `cmd`. The stream answers with exactly one
    response or exactly one error; the token is fetched once, before any
    literal is tested; at most one provider call is made, as the last step;
    and the request fails as unimplemented exactly when the command is not
    recognised.
   */
  function Minecraft(cmd: string, cloud: Cloud, send: Option<string>): (h: Handled)
    ensures (|h.sent| == 1 && h.err == None) || (h.sent == [] && h.err != None)
    ensures 0 < |h.events| && h.events[0] == FetchToken
    ensures forall i :: 0 < i < |h.events| ==> h.events[i] != FetchToken
    ensures forall i :: 0 <= i < |h.events| - 1 ==> !h.events[i].Call?
    ensures h.err == Some(Unimplemented(UnknownCommandMessage)) <==> Parse(cmd) == None
  {
    var compares := Compares(Tried(cmd, SourceOrder));
    match Parse(cmd)
    case None =>
      Handled([FetchToken] + compares, [], Some(Unimplemented(UnknownCommandMessage)))
    case Some(c) =>
      var resp := Respond(c, Operation(cloud, c));
      var events := [FetchToken] + compares + [Call(c)];
      match send
      case None => Handled(events, [resp], None)
      case Some(cause) => Handled(events, [], Some(SendFailed(cause)))
  }

  /**
    `!conoha server`: the token fetch, one literal test, the status query,
    then the status label with the normal flag set, whatever the status and
    its code; a failed send becomes the request's error.
   */
  lemma ServerQuery(cloud: Cloud, send: Option<string>)
    ensures Minecraft(Literal(Server), cloud, send).events ==
      [FetchToken, Compare(Server), Call(Server)]
    ensures send == None ==>
      Minecraft(Literal(Server), cloud, send) ==
        Handled([FetchToken, Compare(Server), Call(Server)], [Response(Label(cloud.status.text), true)], None)
    ensures send != None ==>
      Minecraft(Literal(Server), cloud, send).sent == [] &&
      Minecraft(Literal(Server), cloud, send).err == Some(SendFailed(send.value))
  {
    RecognisedTriesUpTo(Literal(Server), Server);
  }

  /**
    `!conoha start`, `!conoha stop`, `!conoha reboot`: after the literals up to
    its own are tested, the matching provider operation is called once, and
    the response carries its text unchanged and is normal exactly when the
    code is 202; a failed send becomes the request's error.
   */
  lemma AcceptedRule(c: Command, cloud: Cloud, send: Option<string>)
    requires c != Server
    ensures Minecraft(Literal(c), cloud, send).events ==
      [FetchToken] + Compares(SourceOrder[..Position(c) + 1]) + [Call(c)]
    ensures send == None ==>
      Minecraft(Literal(c), cloud, send).sent ==
        [Response(Operation(cloud, c).text, Operation(cloud, c).code == AcceptedCode)] &&
      Minecraft(Literal(c), cloud, send).err == None
    ensures send != None ==>
      Minecraft(Literal(c), cloud, send).sent == [] &&
      Minecraft(Literal(c), cloud, send).err == Some(SendFailed(send.value))
  {
    RecognisedTriesUpTo(Literal(c), c);
  }

  /**
    Anything but the four literals: all four are tested, no provider call is
    made, nothing is sent, and the request ends with the unimplemented error,
    whatever the provider and the stream would have done.
   */
  lemma UnrecognisedRejected(cmd: string, cloud: Cloud, send: Option<string>)
    requires forall c :: cmd != Literal(c)
    ensures Minecraft(cmd, cloud, send) ==
      Handled([FetchToken, Compare(Server), Compare(Start), Compare(Stop), Compare(Reboot)],
              [], Some(Unimplemented(UnknownCommandMessage)))
  {
    UnrecognisedTriesAll(cmd);
  }

  /**
    Exactly one provider operation is used by a recognised command, the one
    its literal names: the other operations' replies, and for the status query
    the reply's code, do not affect the request.
   */
  lemma OnlyItsOperation(c: Command, cloud1: Cloud, cloud2: Cloud, send: Option<string>)
    requires Operation(cloud1, c).text == Operation(cloud2, c).text
    requires c != Server ==> Operation(cloud1, c).code == Operation(cloud2, c).code
    ensures Minecraft(Literal(c), cloud1, send) == Minecraft(Literal(c), cloud2, send)
    ensures Call(c) in Minecraft(Literal(c), cloud1, send).events
    ensures forall e :: e in Minecraft(Literal(c), cloud1, send).events && e.Call? ==> e == Call(c)
  {
    RecognisedTriesUpTo(Literal(c), c);
  }

  /** A status query while the instance runs shows its label as a normal response. */
  lemma ScenarioActive()
    ensures Minecraft(Literal(Server), Cloud(Reply("ACTIVE", 200), Reply("", 0), Reply("", 0), Reply("", 0)), None).sent
      == [Response("起動してるよ", true)]
  {
    ServerQuery(Cloud(Reply("ACTIVE", 200), Reply("", 0), Reply("", 0), Reply("", 0)), None);
    KnownLabels();
  }

  /** An accepted start is normal; a stop refused with 409 is not; both echo the provider text. */
  lemma ScenarioCodes(text: string)
    ensures Minecraft(Literal(Start), Cloud(Reply("", 0), Reply(text, 202), Reply("", 0), Reply("", 0)), None).sent
      == [Response(text, true)]
    ensures Minecraft(Literal(Stop), Cloud(Reply("", 0), Reply("", 0), Reply(text, 409), Reply("", 0)), None).sent
      == [Response(text, false)]
  {
    AcceptedRule(Start, Cloud(Reply("", 0), Reply(text, 202), Reply("", 0), Reply("", 0)), None);
    AcceptedRule(Stop, Cloud(Reply("", 0), Reply("", 0), Reply(text, 409), Reply("", 0)), None);
  }

  /** An unknown command, the empty text and a case variant are all refused. */
  lemma ScenarioUnknown(cloud: Cloud, send: Option<string>)
    ensures Minecraft("!unknown", cloud, send).err == Some(Unimplemented(UnknownCommandMessage))
    ensures Minecraft("", cloud, send).err == Some(Unimplemented(UnknownCommandMessage))
    ensures Minecraft("!Conoha server", cloud, send).err == Some(Unimplemented(UnknownCommandMessage))
  {
    forall c: Command ensures "!unknown" != Literal(c) && "" != Literal(c) {
      assert |"!unknown"| < |Literal(c)|;
    }
    UpperCaseRejected("!Conoha server", 1);
  }
}
