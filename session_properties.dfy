/** What `handle_connection` (src/repl.rs) guarantees about the requests it
    writes and the messages it delivers, over every sequence of events. */
module SessionProperties {
  import opened Wrappers
  import opened Json
  import opened Protocol
  import opened Serde
  import opened Wire
  import opened Session

  // ----- what a request carries to the actor -----

  /** The front-end command a request hands to the actor on the channel:
      the decoded payload of `SendOnChannel`, or the disconnect that
      `CloseChannel` stands for. */
  function Carried(request: ManagementCommand): Option<FrontendCommand> {
    match request
    case SendOnChannel(_, Text(j)) => DecodeCommand(j)
    case CloseChannel(_) => Some(Disconnect)
    case _ => None
  }

  /** Every envelope names the channel, carries its command intact, and is a
      `CloseChannel` exactly for `Disconnect`, a `SendOnChannel` otherwise. */
  lemma EnvelopeCarriesCommand(channelId: string, c: FrontendCommand)
    ensures Carried(Envelope(channelId, c)) == Some(c)
    ensures Envelope(channelId, c).CloseChannel? <==> c.Disconnect?
    ensures Envelope(channelId, c).SendOnChannel? <==> !c.Disconnect?
    ensures Envelope(channelId, c).channelId == channelId
  {
    CommandRoundTrip(c);
  }

  /** The commands the loop took from the command queue and wrote. */
  function Submitted(events: seq<Event>): seq<FrontendCommand> {
    if events == [] then []
    else Accepted(events[0]) + Submitted(events[1..])
  }

  function Accepted(e: Event): seq<FrontendCommand> {
    if e.CommandReady? && e.writeOk then [e.command] else []
  }

  function Envelopes(channelId: string, commands: seq<FrontendCommand>): seq<ManagementCommand> {
    seq(|commands|, i requires 0 <= i < |commands| => Envelope(channelId, commands[i]))
  }

  /** One request per written command, in the order the commands came. */
  lemma {:induction false} EmittedAreEnvelopes(channelId: string, events: seq<Event>)
    ensures AllEmitted(channelId, events) == Envelopes(channelId, Submitted(events))
  {
    if events != [] {
      EmittedAreEnvelopes(channelId, events[1..]);
      var rest := Submitted(events[1..]);
      var all := Accepted(events[0]) + rest;
      assert Emitted(channelId, events[0]) == Envelopes(channelId, Accepted(events[0]));
      EnvelopesAppend(channelId, Accepted(events[0]), rest);
    }
  }

  lemma EnvelopesAppend(channelId: string, a: seq<FrontendCommand>, b: seq<FrontendCommand>)
    ensures Envelopes(channelId, a + b) == Envelopes(channelId, a) + Envelopes(channelId, b)
  {
    assert forall i :: 0 <= i < |a + b| ==> Envelopes(channelId, a + b)[i] == (Envelopes(channelId, a) + Envelopes(channelId, b))[i];
  }

  // ----- the whole session -----

  /** The handshake succeeded: the write went through and the reply was
      `ChannelOpened`. */
  predicate Opened(openWriteOk: bool, reply: Read) {
    openWriteOk && ClassifyOpenReply(reply).Ok?
  }

  /** Everything `handle_connection` does after a successful handshake: it
      wrote `OpenChannel` and then one envelope per command it handled, it
      delivered the decodable channel messages among the events it handled,
      and it ends as the first ending event says. */
  lemma Transcript(actorId: string, openWriteOk: bool, reply: Read, events: seq<Event>)
    requires Opened(openWriteOk, reply)
    ensures var c := Connection(actorId, openWriteOk, reply, events);
      var channelId := ClassifyOpenReply(reply).value;
      && c.channelId == channelId
      && c.sent == [OpenRequest(actorId)] + Envelopes(channelId, Submitted(Processed(events)))
      && c.delivered == AllDelivered(Processed(events))
      && c.status == Outcome(events)
  {
    var s := Handshake(actorId, openWriteOk, reply);
    LoopMatchesEvents(s, events);
    EmittedAreEnvelopes(s.channelId, Processed(events));
  }

  /** A handshake that fails ends the session there: nothing but the
      `OpenChannel` (if it was written) is sent, nothing is delivered, and
      the error is the classification of the reply. */
  lemma FailedHandshakeStops(actorId: string, openWriteOk: bool, reply: Read, events: seq<Event>)
    requires !Opened(openWriteOk, reply)
    ensures var c := Connection(actorId, openWriteOk, reply, events);
      && c.sent == (if openWriteOk then [OpenRequest(actorId)] else [])
      && c.delivered == []
      && c.status == Failed(if openWriteOk then ClassifyOpenReply(reply).error else WriteFailed)
  {
  }

  /** `OpenChannel` to `Actor(actorId)` is the first request, and the only
      one: nothing else the session writes opens a channel. */
  lemma OpenChannelFirstAndOnce(actorId: string, openWriteOk: bool, reply: Read, events: seq<Event>)
    ensures var c := Connection(actorId, openWriteOk, reply, events);
      && (openWriteOk <==> |c.sent| > 0)
      && (openWriteOk ==> c.sent[0] == OpenChannel(Actor(actorId), InitialMessage))
      && forall i :: 1 <= i < |c.sent| ==> !c.sent[i].OpenChannel?
  {
    if Opened(openWriteOk, reply) {
      Transcript(actorId, openWriteOk, reply, events);
      var c := Connection(actorId, openWriteOk, reply, events);
      var channelId := ClassifyOpenReply(reply).value;
      var commands := Submitted(Processed(events));
      forall i | 1 <= i < |c.sent|
        ensures !c.sent[i].OpenChannel?
      {
        EnvelopeCarriesCommand(channelId, commands[i - 1]);
      }
    }
  }

  /** Every request after the handshake is a `SendOnChannel` or a
      `CloseChannel` naming the channel id the handshake obtained. */
  lemma RequestsUseChannelId(actorId: string, openWriteOk: bool, reply: Read, events: seq<Event>)
    requires Opened(openWriteOk, reply)
    ensures var c := Connection(actorId, openWriteOk, reply, events);
      forall i :: 1 <= i < |c.sent| ==>
        (c.sent[i].SendOnChannel? || c.sent[i].CloseChannel?) && c.sent[i].channelId == ClassifyOpenReply(reply).value
  {
    Transcript(actorId, openWriteOk, reply, events);
    var c := Connection(actorId, openWriteOk, reply, events);
    var channelId := ClassifyOpenReply(reply).value;
    var commands := Submitted(Processed(events));
    forall i | 1 <= i < |c.sent|
      ensures (c.sent[i].SendOnChannel? || c.sent[i].CloseChannel?) && c.sent[i].channelId == channelId
    {
      EnvelopeCarriesCommand(channelId, commands[i - 1]);
    }
  }

  /** The actor receives the commands in the order the loop took them, one
      request per command, each intact; `Disconnect` travels only as
      `CloseChannel`, never inside `SendOnChannel`. */
  lemma CommandsArriveInOrder(actorId: string, openWriteOk: bool, reply: Read, events: seq<Event>)
    requires Opened(openWriteOk, reply)
    ensures var c := Connection(actorId, openWriteOk, reply, events);
      var commands := Submitted(Processed(events));
      && |c.sent| == 1 + |commands|
      && (forall i :: 0 <= i < |commands| ==> Carried(c.sent[i + 1]) == Some(commands[i]))
      && (forall i :: 1 <= i < |c.sent| ==> (c.sent[i].SendOnChannel? <==> !commands[i - 1].Disconnect?))
  {
    Transcript(actorId, openWriteOk, reply, events);
    var c := Connection(actorId, openWriteOk, reply, events);
    var channelId := ClassifyOpenReply(reply).value;
    var commands := Submitted(Processed(events));
    forall i | 0 <= i < |commands|
      ensures Carried(c.sent[i + 1]) == Some(commands[i])
      ensures c.sent[i + 1].SendOnChannel? <==> !commands[i].Disconnect?
    {
      EnvelopeCarriesCommand(channelId, commands[i]);
    }
  }

  // ----- how the loop ends -----

  /** Among the commands the loop wrote, `Disconnect` can only be the last,
      and when it is written the session finishes. */
  lemma {:induction false} DisconnectOnlyLast(events: seq<Event>)
    ensures var commands := Submitted(Processed(events));
      forall i :: 0 <= i < |commands| && commands[i].Disconnect? ==>
        i == |commands| - 1 && Outcome(events) == Finished
  {
    if events != [] {
      var e, rest := events[0], events[1..];
      if Ends(e) {
        assert Processed(events) == [e];
        assert Submitted([e]) == Accepted(e) by {
          assert [e][1..] == [];
        }
      } else {
        DisconnectOnlyLast(rest);
        assert var commands := Submitted(Processed(rest));
          forall i :: 0 <= i < |commands| && commands[i].Disconnect? ==>
            i == |commands| - 1 && Outcome(rest) == Finished;
        assert Processed(events) == [e] + Processed(rest);
        assert ([e] + Processed(rest))[1..] == Processed(rest);
        var head: seq<FrontendCommand>, tail: seq<FrontendCommand> := Accepted(e), Submitted(Processed(rest));
        assert Outcome(events) == Outcome(rest);
        assert Submitted(Processed(events)) == head + tail;
        assert forall j :: 0 <= j < |head| ==> !(head + tail)[j].Disconnect?;
        forall i | 0 <= i < |head + tail| && (head + tail)[i].Disconnect?
          ensures i == |head + tail| - 1 && Outcome(events) == Finished
        {
          var k := i - |head|;
          assert (head + tail)[i] == tail[k];
          assert k == |tail| - 1 && Outcome(rest) == Finished;
        }
      }
    }
  }

  /** Once `CloseChannel` is written, the session is over: it is the last
      request, there is exactly one, and the session finished normally. */
  lemma CloseChannelIsLast(actorId: string, openWriteOk: bool, reply: Read, events: seq<Event>)
    ensures var c := Connection(actorId, openWriteOk, reply, events);
      forall i :: 0 <= i < |c.sent| && c.sent[i].CloseChannel? ==>
        i == |c.sent| - 1 && c.status == Finished
  {
    if Opened(openWriteOk, reply) {
      CommandsArriveInOrder(actorId, openWriteOk, reply, events);
      Transcript(actorId, openWriteOk, reply, events);
      DisconnectOnlyLast(events);
      var c := Connection(actorId, openWriteOk, reply, events);
      var channelId := ClassifyOpenReply(reply).value;
      var commands := Submitted(Processed(events));
      forall i | 0 <= i < |c.sent| && c.sent[i].CloseChannel?
        ensures i == |c.sent| - 1 && c.status == Finished
      {
        EnvelopeCarriesCommand(channelId, commands[i - 1]);
      }
    }
  }

  /** The session is still looping exactly when the handshake succeeded and
      no event so far has ended it. */
  lemma {:induction false} OutcomeRunning(events: seq<Event>)
    ensures Outcome(events) == Running <==> forall i :: 0 <= i < |events| ==> !Ends(events[i])
  {
    if events != [] {
      OutcomeRunning(events[1..]);
      assert forall i :: 1 <= i < |events| ==> events[i] == events[1..][i - 1];
    }
  }

  lemma StillRunning(actorId: string, openWriteOk: bool, reply: Read, events: seq<Event>)
    ensures Connection(actorId, openWriteOk, reply, events).status.Running? <==>
      Opened(openWriteOk, reply) && forall i :: 0 <= i < |events| ==> !Ends(events[i])
  {
    if Opened(openWriteOk, reply) {
      Transcript(actorId, openWriteOk, reply, events);
      OutcomeRunning(events);
    }
  }

  /** A session that has stopped ignores whatever comes next. */
  lemma {:induction false} LoopAppend(s: Snapshot, first: seq<Event>, next: seq<Event>)
    ensures Loop(s, first + next) == Loop(Loop(s, first), next)
    decreases |first|
  {
    if first == [] {
      assert first + next == next;
    } else if s.status.Running? {
      assert (first + next)[1..] == first[1..] + next;
      LoopAppend(Step(s, first[0]), first[1..], next);
    } else {
      StoppedStaysStopped(s, next);
    }
  }

  lemma {:induction false} StoppedStaysStopped(s: Snapshot, events: seq<Event>)
    requires !s.status.Running?
    ensures Loop(s, events) == s
  {
  }

  /** A written `Disconnect` sends exactly one `CloseChannel` on the session's
      channel and ends the loop: whatever follows sends and delivers nothing. */
  lemma DisconnectEndsSession(s: Snapshot, before: seq<Event>, after: seq<Event>)
    requires Loop(s, before).status.Running?
    ensures var t := Loop(s, before);
      Loop(s, before + [CommandReady(Disconnect, true)] + after)
        == Snapshot(t.channelId, t.sent + [CloseChannel(t.channelId)], t.delivered, Finished)
  {
    var t := Loop(s, before);
    LoopAppend(s, before + [CommandReady(Disconnect, true)], after);
    LoopAppend(s, before, [CommandReady(Disconnect, true)]);
    var u := Loop(t, [CommandReady(Disconnect, true)]);
    assert u == Step(t, CommandReady(Disconnect, true));
    StoppedStaysStopped(u, after);
  }

  // ----- inbound channel ids are not checked -----

  /** The same frame with another channel id on `ChannelMessage` and
      `ChannelClosed`. */
  function Relabel(e: Event, channelId: string): Event {
    match e
    case FrameReady(Got(Decodes(ChannelMessage(_, sender, payload))), ok) =>
      FrameReady(Got(Decodes(ChannelMessage(channelId, sender, payload))), ok)
    case FrameReady(Got(Decodes(ChannelClosed(_))), ok) =>
      FrameReady(Got(Decodes(ChannelClosed(channelId))), ok)
    case _ => e
  }

  function RelabelAll(events: seq<Event>, channelId: string): seq<Event> {
    seq(|events|, i requires 0 <= i < |events| => Relabel(events[i], channelId))
  }

  /** The loop never compares an inbound channel id with its own: messages
      on any channel are delivered, and a close of any channel ends it. */
  lemma {:induction false} InboundChannelIdIgnored(s: Snapshot, events: seq<Event>, channelId: string)
    ensures Loop(s, RelabelAll(events, channelId)) == Loop(s, events)
    decreases |events|
  {
    if events != [] && s.status.Running? {
      var relabelled := RelabelAll(events, channelId);
      assert relabelled[0] == Relabel(events[0], channelId);
      assert relabelled[1..] == RelabelAll(events[1..], channelId);
      assert Step(s, relabelled[0]) == Step(s, events[0]);
      InboundChannelIdIgnored(Step(s, events[0]), events[1..], channelId);
    }
  }

  // ----- scenarios -----

  /** The server answers `OpenChannel` with `ChannelOpened("c1", Actor("a1"))`:
      the session holds channel "c1" and has written only the request. */
  lemma HandshakeSucceeds()
    ensures Connection("a1", true, Got(Decodes(ChannelOpened("c1", Actor("a1")))), [])
      == Snapshot("c1", [OpenChannel(Actor("a1"), InitialMessage)], [], Running)
  {
  }

  /** The server refusing the channel ends the connection with its own
      message, after `OpenChannel` and nothing else. */
  lemma HandshakeRejected(events: seq<Event>)
    ensures var refused := Got(Decodes(ManagementResponse.Error("actor not found")));
      Connection("a1", true, refused, events)
      == Snapshot("", [OpenChannel(Actor("a1"), InitialMessage)], [], Failed(Rejected("actor not found")))
  {
  }

  /** A message on a channel other than the session's own is still
      delivered. */
  lemma ForeignChannelMessageDelivered(m: FrontendMessage)
    requires FloatsFinite(m)
    ensures var accepted := Got(Decodes(ChannelOpened("c1", Actor("a1"))));
      var foreign := Got(Decodes(ChannelMessage("c2", External, Text(EncodeMessage(m)))));
      Connection("a1", true, accepted, [FrameReady(foreign, true)]).delivered == [m]
  {
    MessageRoundTrip(m);
    var s := Snapshot("c1", [OpenChannel(Actor("a1"), InitialMessage)], [], Running);
    var e := FrameReady(Got(Decodes(ChannelMessage("c2", External, Text(EncodeMessage(m))))), true);
    assert Step(s, e) == s.(delivered := [m]);
    assert Loop(s, [e]) == Loop(Step(s, e), []);
  }

  /** A payload that is not a front-end message is dropped and the session
      goes on to deliver the next one. */
  lemma MalformedPayloadTolerated(junk: seq<byte>, m: FrontendMessage)
    requires FloatsFinite(m)
    ensures var accepted := Got(Decodes(ChannelOpened("c1", Actor("a1"))));
      var bad := Got(Decodes(ChannelMessage("c1", External, Garbage(junk))));
      var good := Got(Decodes(ChannelMessage("c1", External, Text(EncodeMessage(m)))));
      var c := Connection("a1", true, accepted, [FrameReady(bad, true), FrameReady(good, true)]);
      c.delivered == [m] && c.status == Running
  {
    MessageRoundTrip(m);
    var s := Snapshot("c1", [OpenChannel(Actor("a1"), InitialMessage)], [], Running);
    var bad := FrameReady(Got(Decodes(ChannelMessage("c1", External, Garbage(junk)))), true);
    var good := FrameReady(Got(Decodes(ChannelMessage("c1", External, Text(EncodeMessage(m))))), true);
    assert Step(s, bad) == s;
    assert Step(s, good) == s.(delivered := [m]);
    assert [bad, good][1..] == [good];
    assert Loop(s, [bad, good]) == Loop(s, [good]);
    assert Loop(s, [good]) == Loop(Step(s, good), []);
  }
}
