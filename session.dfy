/** The channel session of src/repl.rs (`handle_connection`): it opens one
    channel to an actor over the management connection, then runs an event
    loop that forwards front-end commands onto the channel and delivers the
    front-end messages that arrive on it.

    `tokio::select!` between the command queue and the connection is an
    arbitrary sequence of events. Each event carries the outcome of the I/O
    that handling it performs: whether writing the resulting frame succeeded,
    and whether the message queue still had a receiver. */
module Session {
  import opened Wrappers
  import opened Json
  import opened Protocol
  import opened Serde
  import opened Wire
  import opened Sequences

  /** Why `handle_connection` returns an error. */
  datatype SessionError =
    | WriteFailed             // a `framed.send(..)` failed
    | ConnectionClosed        // "Connection closed": no reply to `OpenChannel`
    | FrameFailed(reason: string) // the codec failed on the reply
    | Unparsable              // the reply is not a `ManagementResponse`
    | Rejected(message: string)   // "Failed to open channel: {message}"
    | UnexpectedResponse      // "Unexpected response"

  /** `Running` while the loop goes on; `Finished` once it has broken out,
      which `handle_connection` reports as `Ok(())`; `Failed` when it
      returned an error instead. */
  datatype Status = Running | Finished | Failed(error: SessionError)

  /** One turn of the loop: a command taken from the command queue, or a
      read from the connection. */
  datatype Event =
    | CommandReady(command: FrontendCommand, writeOk: bool)
    | FrameReady(read: Read, deliverOk: bool)

  /** Everything the session has done so far: the channel it holds, the
      requests it wrote in order, the messages it put on the message queue
      in order, and whether it is still running. */
  datatype Snapshot = Snapshot(
    channelId: string,
    sent: seq<ManagementCommand>,
    delivered: seq<FrontendMessage>,
    status: Status)

  // ----- handshake -----

  /** `{"client_type": "frontend"}`, the first message on the channel. */
  const InitialMessage: Payload := Text(JObject(map["client_type" := JString("frontend")]))

  function OpenRequest(actorId: string): ManagementCommand {
    OpenChannel(Actor(actorId), InitialMessage)
  }

  /** The one reply the handshake reads: only `ChannelOpened` opens the
      channel, and every other outcome is fatal. */
  function ClassifyOpenReply(reply: Read): (r: Result<string, SessionError>)
    ensures r.Ok? <==> reply.Got? && reply.frame.Decodes? && reply.frame.response.ChannelOpened?
    ensures r.Ok? ==> r.value == reply.frame.response.channelId
    ensures r == Err(ConnectionClosed) <==> reply.EndOfStream?
    ensures r == Err(Unparsable) <==> reply.Got? && reply.frame.Undecodable?
    ensures r.Err? && r.error.Rejected? <==> reply.Got? && reply.frame.Decodes? && reply.frame.response.Error?
    ensures reply.Got? && reply.frame.Decodes? && reply.frame.response.Error?
      ==> r == Err(Rejected(reply.frame.response.errorMessage))
    ensures r.Err? && r.error.FrameFailed? <==> reply.FrameError?
    ensures reply.FrameError? ==> r == Err(FrameFailed(reply.reason))
    ensures r == Err(UnexpectedResponse) <==>
      reply.Got? && reply.frame.Decodes?
      && !reply.frame.response.ChannelOpened? && !reply.frame.response.Error?
  {
    match reply
    case EndOfStream => Err(ConnectionClosed)
    case FrameError(reason) => Err(FrameFailed(reason))
    case Got(Undecodable(_)) => Err(Unparsable)
    case Got(Decodes(response)) =>
      match response
      case ChannelOpened(channelId, _) => Ok(channelId)
      case Error(message) => Err(Rejected(message))
      case _ => Err(UnexpectedResponse)
  }

  /** The state after the handshake: `OpenChannel` written (if the write
      succeeded) and the reply classified. */
  function Handshake(actorId: string, openWriteOk: bool, reply: Read): (r: Snapshot)
    ensures r.sent == (if openWriteOk then [OpenRequest(actorId)] else []) && r.delivered == []
    ensures r.status.Running? <==> openWriteOk && ClassifyOpenReply(reply).Ok?
    ensures r.status.Running? ==> r.channelId == ClassifyOpenReply(reply).value
  {
    if !openWriteOk then Snapshot("", [], [], Failed(WriteFailed))
    else
      match ClassifyOpenReply(reply)
      case Ok(channelId) => Snapshot(channelId, [OpenRequest(actorId)], [], Running)
      case Err(e) => Snapshot("", [OpenRequest(actorId)], [], Failed(e))
  }

  // ----- event loop, one step at a time -----

  /** The request a command becomes on the channel. */
  function Envelope(channelId: string, c: FrontendCommand): (r: ManagementCommand)
    ensures r.CloseChannel? <==> c.Disconnect?
    ensures r.SendOnChannel? <==> !c.Disconnect?
    ensures r.channelId == channelId
  {
    if c.Disconnect? then CloseChannel(channelId)
    else SendOnChannel(channelId, Text(EncodeCommand(c)))
  }

  function DecodePayload(p: Payload): Option<FrontendMessage> {
    match p
    case Text(j) => DecodeMessage(j)
    case Garbage(_) => None
  }

  /** One turn of the loop; a stopped session ignores every event. */
  function Step(s: Snapshot, e: Event): (r: Snapshot)
    ensures r.channelId == s.channelId
    ensures s.sent <= r.sent && |r.sent| <= |s.sent| + 1
    ensures s.delivered <= r.delivered && |r.delivered| <= |s.delivered| + 1
    ensures !s.status.Running? ==> r == s
    ensures s.status.Running? && r.status.Failed? ==> r.status == Failed(WriteFailed)
  {
    if !s.status.Running? then s
    else
      match e
      case CommandReady(c, writeOk) =>
        if !writeOk then s.(status := Failed(WriteFailed))
        else s.(sent := s.sent + [Envelope(s.channelId, c)],
                status := if c.Disconnect? then Finished else Running)
      case FrameReady(read, deliverOk) =>
        match read
        case Got(Decodes(ChannelMessage(_, _, payload))) =>
          (match DecodePayload(payload)
           case Some(msg) =>
             if deliverOk then s.(delivered := s.delivered + [msg]) else s.(status := Finished)
           case None => s)
        case Got(Decodes(ChannelClosed(_))) => s.(status := Finished)
        case Got(_) => s
        case FrameError(_) => s.(status := Finished)
        case EndOfStream => s.(status := Finished)
  }

  /** The loop run over a sequence of events, until it stops. */
  function Loop(s: Snapshot, events: seq<Event>): (r: Snapshot)
    ensures r.channelId == s.channelId
    ensures s.sent <= r.sent && |r.sent| <= |s.sent| + |events|
    ensures s.delivered <= r.delivered && |r.delivered| <= |s.delivered| + |events|
    ensures !s.status.Running? ==> r == s
    ensures s.status.Running? && r.status.Failed? ==> r.status == Failed(WriteFailed)
    decreases |events|
  {
    if events == [] || !s.status.Running? then s
    else Loop(Step(s, events[0]), events[1..])
  }

  /** `handle_connection`: the handshake, then the loop. */
  function Connection(actorId: string, openWriteOk: bool, reply: Read, events: seq<Event>): Snapshot {
    Loop(Handshake(actorId, openWriteOk, reply), events)
  }

  // ----- the same loop, described event by event -----

  /** Handling `e` breaks out of the loop or fails it. */
  predicate Ends(e: Event) {
    match e
    case CommandReady(c, writeOk) => !writeOk || c.Disconnect?
    case FrameReady(read, deliverOk) =>
      match read
      case Got(Decodes(ChannelMessage(_, _, payload))) => DecodePayload(payload).Some? && !deliverOk
      case Got(Decodes(ChannelClosed(_))) => true
      case Got(_) => false
      case FrameError(_) => true
      case EndOfStream => true
  }

  /** The requests written while handling `e`. */
  function Emitted(channelId: string, e: Event): seq<ManagementCommand> {
    if e.CommandReady? && e.writeOk then [Envelope(channelId, e.command)] else []
  }

  /** The messages delivered while handling `e`: the decodable payload of a
      `ChannelMessage`, whatever channel id it names. */
  function Delivery(e: Event): seq<FrontendMessage> {
    if e.FrameReady? && e.deliverOk && e.read.Got? && e.read.frame.Decodes?
       && e.read.frame.response.ChannelMessage? && DecodePayload(e.read.frame.response.message).Some?
    then [DecodePayload(e.read.frame.response.message).value]
    else []
  }

  /** How many events the loop handles: up to and including the first one
      that ends it. */
  function Handled(events: seq<Event>): (n: nat)
    ensures n <= |events|
  {
    if events == [] then 0
    else if Ends(events[0]) then 1
    else 1 + Handled(events[1..])
  }

  function Processed(events: seq<Event>): seq<Event> {
    events[..Handled(events)]
  }

  function AllEmitted(channelId: string, events: seq<Event>): seq<ManagementCommand> {
    if events == [] then [] else Emitted(channelId, events[0]) + AllEmitted(channelId, events[1..])
  }

  function AllDelivered(events: seq<Event>): seq<FrontendMessage> {
    if events == [] then [] else Delivery(events[0]) + AllDelivered(events[1..])
  }

  /** How the loop ends: running if no event ends it, failed if the first
      that does is a failed write, finished otherwise. */
  function Outcome(events: seq<Event>): Status {
    if events == [] then Running
    else if Ends(events[0]) then EndStatus(events[0])
    else Outcome(events[1..])
  }

  function EndStatus(e: Event): Status {
    if e.CommandReady? && !e.writeOk then Failed(WriteFailed) else Finished
  }

  /** One turn of the loop, described by the event alone. */
  lemma StepMatchesEvent(s: Snapshot, e: Event)
    requires s.status.Running?
    ensures Step(s, e) == Snapshot(
      s.channelId,
      s.sent + Emitted(s.channelId, e),
      s.delivered + Delivery(e),
      if Ends(e) then EndStatus(e) else Running)
  {
  }

  /** The loop, run from a running state, writes the envelopes of the
      accepted commands and delivers the decodable channel messages, in
      order, among the events it handles, and ends as `Outcome` says. */
  lemma {:induction false} LoopMatchesEvents(s: Snapshot, events: seq<Event>)
    requires s.status.Running?
    ensures Loop(s, events) == Snapshot(
      s.channelId,
      s.sent + AllEmitted(s.channelId, Processed(events)),
      s.delivered + AllDelivered(Processed(events)),
      Outcome(events))
    decreases |events|
  {
    if events == [] {
      assert Processed(events) == [];
    } else {
      var e, rest := events[0], events[1..];
      var next := Step(s, e);
      StepMatchesEvent(s, e);
      assert Loop(s, events) == Loop(next, rest);
      if Ends(e) {
        assert Processed(events) == [e];
        SingleEvent(s.channelId, e);
      } else {
        LoopMatchesEvents(next, rest);
        assert Processed(events) == [e] + Processed(rest);
        Prepend(s, e, next, Processed(rest));
      }
    }
  }

  lemma SingleEvent(channelId: string, e: Event)
    ensures AllEmitted(channelId, [e]) == Emitted(channelId, e)
    ensures AllDelivered([e]) == Delivery(e)
  {
    assert [e][1..] == [];
  }

  lemma AllEmittedCons(channelId: string, e: Event, done: seq<Event>)
    ensures AllEmitted(channelId, [e] + done) == Emitted(channelId, e) + AllEmitted(channelId, done)
  {
    assert ([e] + done)[1..] == done;
  }

  lemma AllDeliveredCons(e: Event, done: seq<Event>)
    ensures AllDelivered([e] + done) == Delivery(e) + AllDelivered(done)
  {
    assert ([e] + done)[1..] == done;
  }

  /** What the rest of the loop does comes after what the first event did. */
  lemma Prepend(s: Snapshot, e: Event, next: Snapshot, done: seq<Event>)
    requires next.channelId == s.channelId
    requires next.sent == s.sent + Emitted(s.channelId, e)
    requires next.delivered == s.delivered + Delivery(e)
    ensures next.sent + AllEmitted(s.channelId, done) == s.sent + AllEmitted(s.channelId, [e] + done)
    ensures next.delivered + AllDelivered(done) == s.delivered + AllDelivered([e] + done)
  {
    AllEmittedCons(s.channelId, e, done);
    AllDeliveredCons(e, done);
    Associative(s.sent, Emitted(s.channelId, e), AllEmitted(s.channelId, done));
    Associative(s.delivered, Delivery(e), AllDelivered(done));
  }

  // ----- the session as the source runs it: state updated in place -----

  /** The state `handle_connection` threads through its loop: the channel id
      it obtained, what it has written to the connection, what it has put on
      the message queue, and whether it is still looping. */
  class ChannelSession {
    var channelId: string
    var sent: seq<ManagementCommand>
    var delivered: seq<FrontendMessage>
    var status: Status

    function View(): Snapshot
      reads this
    {
      Snapshot(channelId, sent, delivered, status)
    }

    /** The handshake: write `OpenChannel` to the actor, then read one reply. */
    constructor Open(actorId: string, openWriteOk: bool, reply: Read)
      ensures View() == Handshake(actorId, openWriteOk, reply)
    {
      channelId, sent, delivered, status := "", [], [], Running;
      if !openWriteOk {
        status := Failed(WriteFailed);
      } else {
        sent := [OpenRequest(actorId)];
        match ClassifyOpenReply(reply)
        case Ok(id) => channelId := id;
        case Err(e) => status := Failed(e);
      }
    }

    /** One turn of the loop. */
    method Handle(e: Event)
      requires status.Running?
      modifies this
      ensures View() == Step(old(View()), e)
    {
      match e
      case CommandReady(command, writeOk) =>
        var request := Envelope(channelId, command);
        if !writeOk {
          status := Failed(WriteFailed);
        } else {
          sent := sent + [request];
          if command.Disconnect? {
            status := Finished;
          }
        }
      case FrameReady(read, deliverOk) =>
        match read
        case EndOfStream =>
          status := Finished;
        case FrameError(_) =>
          status := Finished;
        case Got(Undecodable(_)) =>
        case Got(Decodes(response)) =>
          if response.ChannelMessage? {
            var msg := DecodePayload(response.message);
            if msg.Some? {
              if deliverOk {
                delivered := delivered + [msg.value];
              } else {
                status := Finished;
              }
            }
          } else if response.ChannelClosed? {
            status := Finished;
          }
    }

    /** The loop: handle events until one stops it or none are left; returns
        how many events it took. */
    method Run(events: seq<Event>) returns (taken: nat)
      modifies this
      ensures taken <= |events|
      ensures View() == Loop(old(View()), events)
      ensures old(status).Running? ==> taken == Handled(events)
    {
      taken := 0;
      assert events[taken..] == events;
      while taken < |events| && status.Running?
        invariant taken <= |events|
        invariant Loop(View(), events[taken..]) == Loop(old(View()), events)
        invariant old(status).Running? && status.Running? ==> Handled(events) == taken + Handled(events[taken..])
        invariant old(status).Running? && !status.Running? ==> taken == Handled(events)
      {
        var e := events[taken];
        StepMatchesEvent(View(), e);
        assert events[taken..][1..] == events[taken + 1..];
        Handle(e);
        taken := taken + 1;
      }
    }
  }

  /** `handle_connection`: open the channel, then run the loop if the
      channel opened; returns the end state of the session. */
  method HandleConnection(actorId: string, openWriteOk: bool, reply: Read, events: seq<Event>)
    returns (status: Status, sent: seq<ManagementCommand>, delivered: seq<FrontendMessage>)
    ensures Snapshot(Connection(actorId, openWriteOk, reply, events).channelId, sent, delivered, status)
      == Connection(actorId, openWriteOk, reply, events)
  {
    var session := new ChannelSession.Open(actorId, openWriteOk, reply);
    if session.status.Running? {
      var _ := session.Run(events);
    }
    status, sent, delivered := session.status, session.sent, session.delivered;
  }
}
