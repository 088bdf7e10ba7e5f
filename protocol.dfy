/**
 * One connection served by `ServerThread`: the shared-key handshake, the
 * READY step, the dispatch on the operation tag, the publish request it
 * builds and the terminal status frame.
 *
 * The client's messages are the texts its frames carry, in order; a message
 * the client never sends is a read that throws. JSON decoding of the event
 * payload and the outcome of the publish call are inputs.
 */
module Protocol {
  import opened Wrappers
  import opened Strings

  /** `EventPingInfo`, the JSON record an "E" message carries. */
  datatype EventPingInfo = EventPingInfo(eventName: Text, eventDescription: Text, eventLink: Option<Text>)

  /** A link facet: the UTF-8 byte range `[start, end)` of the body that links to `link`. */
  datatype Facet = Facet(start: int, end: int, link: Text)

  /** An external link card shown under the post. */
  datatype Embed = External(title: Text, description: Text, uri: Text)

  /** The arguments of `CreatePostAsync`. */
  datatype PublishRequest = PublishRequest(body: Text, facets: seq<Facet>, embed: Option<Embed>)

  /**
   * How the publish call ends: a success result, an error result, or an
   * exception thrown out of `Wait()`.
   */
  datatype PublishOutcome = Posted | Refused | Faulted

  /** What the switch on the operation tag decides. */
  datatype Dispatch = Publish(request: PublishRequest) | InvalidOperation | MalformedEvent

  /** Why the connection ended. */
  datatype Ending =
    | Completed        // a terminal SUCCESS or FAILURE frame was written
    | Unauthorized     // the key did not match
    | UnknownTag       // the operation tag was none of A, E, U
    | MalformedPayload // the "E" message did not decode
    | PublishFaulted   // the publish call threw
    | ChannelClosed    // the client sent fewer than three messages

  /** The frames the server wrote, the publish request it made, and why it stopped. */
  datatype Session = Session(frames: seq<Text>, request: Option<PublishRequest>, ending: Ending)

  const NoKeyFound: Text := Units("no key found")
  const UnauthorizedReply: Text := Units("Unauthorized client!")
  const ReadyReply: Text := Units("READY")
  const SuccessReply: Text := Units("SUCCESS")
  const FailureReply: Text := Units("FAILURE")

  const TagAnnouncement: Text := Units("A")
  const TagEvent: Text := Units("E")
  const TagUpdate: Text := Units("U")

  const UpdatePrefix: Text := Units("Update: ")
  const EventBody: Text := Units("An event is starting!")
  const JoinSuffix: Text := Units(" Join Here!")
  const JoinPrompt: Text := Units("Join Here!")
  const CurrentEventUri: Text := Units("https://thenergeticon.com/Events/currentevent")

  /** The key a client must present: the `TECKEY` variable, or "no key found" when it is unset. */
  function ExpectedKey(teckey: Option<Text>): (k: Text)
    ensures teckey.Some? ==> k == teckey.value
    ensures teckey.None? ==> k == NoKeyFound
  {
    teckey.GetOr(NoKeyFound)
  }

  /**
   * The post for an event ping: the fixed announcement with a card for the
   * current event, and, when the event has a link, " Join Here!" appended and
   * a facet over "Join Here!" that points to the link.
   */
  function EventRequest(info: EventPingInfo): PublishRequest {
    var embed := External(info.eventName, info.eventDescription, CurrentEventUri);
    match info.eventLink
    case None => PublishRequest(EventBody, [], Some(embed))
    case Some(link) =>
      var post := EventBody + JoinSuffix;
      var promptStart := IndexOf(post, JoinPrompt);
      var promptEnd := promptStart + Utf8Length(JoinPrompt);
      PublishRequest(post, [Facet(promptStart, promptEnd, link)], Some(embed))
  }

  /** The switch on the operation tag, given how the "E" message decodes. */
  function DispatchRequest(operation: Text, message: Text, decodeEvent: Text -> Option<EventPingInfo>): (d: Dispatch)
    ensures d.InvalidOperation? <==> operation !in {TagAnnouncement, TagEvent, TagUpdate}
    ensures d.MalformedEvent? <==> operation == TagEvent && decodeEvent(message).None?
    ensures operation == TagAnnouncement ==> d == Publish(PublishRequest(message, [], None))
    ensures operation == TagUpdate ==> d == Publish(PublishRequest(UpdatePrefix + message, [], None))
    ensures operation == TagEvent && decodeEvent(message).Some? ==> d == Publish(EventRequest(decodeEvent(message).value))
  {
    assert TagAnnouncement[0] != TagEvent[0] && TagAnnouncement[0] != TagUpdate[0] && TagEvent[0] != TagUpdate[0];
    if operation == TagAnnouncement then
      Publish(PublishRequest(message, [], None))
    else if operation == TagEvent then
      match decodeEvent(message)
      case None => MalformedEvent
      case Some(info) => Publish(EventRequest(info))
    else if operation == TagUpdate then
      Publish(PublishRequest(UpdatePrefix + message, [], None))
    else
      InvalidOperation
  }

  /**
   * The whole connection. `teckey` is the configured key, `client` the
   * messages the client sends, `decodeEvent` the JSON decoder (None where it
   * throws or yields null) and `outcome` how the publish call ends.
   */
  function Serve(teckey: Option<Text>, client: seq<Text>, decodeEvent: Text -> Option<EventPingInfo>,
                 outcome: PublishOutcome): (s: Session)
    ensures |s.frames| <= 3
  {
    var authkey := ExpectedKey(teckey);
    if |client| < 1 then Session([], None, ChannelClosed)
    else if client[0] != authkey then Session([UnauthorizedReply], None, Unauthorized)
    else if |client| < 2 then Session([authkey], None, ChannelClosed)
    else if |client| < 3 then Session([authkey, ReadyReply], None, ChannelClosed)
    else
      match DispatchRequest(client[1], client[2], decodeEvent)
      case InvalidOperation => Session([authkey, ReadyReply], None, UnknownTag)
      case MalformedEvent => Session([authkey, ReadyReply], None, MalformedPayload)
      case Publish(request) =>
        match outcome
        case Posted => Session([authkey, ReadyReply, SuccessReply], Some(request), Completed)
        case Refused => Session([authkey, ReadyReply, FailureReply], Some(request), Completed)
        case Faulted => Session([authkey, ReadyReply], Some(request), PublishFaulted)
  }

  /** The event body with a link is "An event is starting! Join Here!", 32 ASCII units. */
  lemma EventPostText()
    ensures EventBody + JoinSuffix == Units("An event is starting! Join Here!")
    ensures |EventBody + JoinSuffix| == 32
  {
  }

  /** "Join Here!" occupies units 22 to 32 of the event body with a link. */
  lemma EventPromptAt()
    ensures (EventBody + JoinSuffix)[22..32] == JoinPrompt
  {
  }

  /** Every unit of the event body with a link is ASCII. */
  lemma EventPostAscii()
    ensures forall i | 0 <= i < |EventBody + JoinSuffix| :: (EventBody + JoinSuffix)[i] < 0x80
  {
  }

  /** In the event body with a link, "Join Here!" first occurs at unit 22. */
  lemma EventPromptIndex()
    ensures IndexOf(EventBody + JoinSuffix, JoinPrompt) == 22
  {
    EventPostText();
    EventPromptAt();
    var post := EventBody + JoinSuffix;
    assert post[..22] == Units("An event is starting! ");
    IndexOfFirstUnit(post, JoinPrompt, 22);
  }

  /** The event body with a link is ASCII, so "Join Here!" spans UTF-8 bytes 22 to 32. */
  lemma EventPromptBytes()
    ensures var post := EventBody + JoinSuffix;
      && Utf8Length(JoinPrompt) == 10
      && Utf8Length(post[..22]) == 22
      && Utf8Length(post[..32]) == 32
  {
    EventPostText();
    EventPromptAt();
    EventPostAscii();
    var post := EventBody + JoinSuffix;
    AsciiUtf8Length(post[22..32]);
    AsciiUtf8Length(post[..22]);
    assert post[..32] == post;
    AsciiUtf8Length(post);
  }

  /**
   * With a link, the body is "An event is starting! Join Here!" and its one
   * facet spans bytes 22 to 32, exactly the UTF-8 bytes of "Join Here!".
   */
  lemma EventLinkFacet(info: EventPingInfo)
    requires info.eventLink.Some?
    ensures var r := EventRequest(info);
      && r.body == Units("An event is starting! Join Here!")
      && r.facets == [Facet(22, 32, info.eventLink.value)]
      && r.body[22..32] == JoinPrompt
      && Utf8Length(r.body[..22]) == 22 && Utf8Length(r.body[..32]) == 32
      && r.embed == Some(External(info.eventName, info.eventDescription, CurrentEventUri))
  {
    EventPostText();
    EventPromptAt();
    EventPromptIndex();
    EventPromptBytes();
  }

  /** Without a link, the body is "An event is starting!" with a card and no facet. */
  lemma EventWithoutLink(info: EventPingInfo)
    requires info.eventLink.None?
    ensures EventRequest(info) == PublishRequest(Units("An event is starting!"), [], Some(External(info.eventName, info.eventDescription, CurrentEventUri)))
  {
  }

  /**
   * A client whose first message differs from the key gets the single
   * "Unauthorized client!" frame and nothing else; one that matches gets the
   * key back, then READY once it has sent its operation tag.
   */
  lemma AuthGate(teckey: Option<Text>, client: seq<Text>, decodeEvent: Text -> Option<EventPingInfo>, outcome: PublishOutcome)
    requires |client| >= 1
    ensures var s := Serve(teckey, client, decodeEvent, outcome);
      && (s.ending == Unauthorized <==> client[0] != ExpectedKey(teckey))
      && (client[0] != ExpectedKey(teckey) ==> s == Session([UnauthorizedReply], None, Unauthorized))
      && (client[0] == ExpectedKey(teckey) ==> 1 <= |s.frames| && s.frames[0] == client[0])
      && (client[0] == ExpectedKey(teckey) && |client| >= 2 ==> |s.frames| >= 2 && s.frames[1] == ReadyReply)
  {
  }

  /** With `TECKEY` unset, exactly the clients that send "no key found" get past the handshake. */
  lemma UnsetKeyAcceptsSentinel(client: seq<Text>, decodeEvent: Text -> Option<EventPingInfo>, outcome: PublishOutcome)
    requires |client| >= 1
    ensures Serve(None, client, decodeEvent, outcome).ending != Unauthorized <==> client[0] == Units("no key found")
  {
  }

  /**
   * A publish request is made exactly when the handshake passed, all three
   * messages arrived and the dispatch chose to publish, and it is the request
   * the dispatch built.
   */
  lemma PublishMatchesDispatch(teckey: Option<Text>, client: seq<Text>, decodeEvent: Text -> Option<EventPingInfo>, outcome: PublishOutcome)
    ensures var s := Serve(teckey, client, decodeEvent, outcome);
      s.request.Some? <==>
        |client| >= 3 && client[0] == ExpectedKey(teckey) && DispatchRequest(client[1], client[2], decodeEvent).Publish?
    ensures var s := Serve(teckey, client, decodeEvent, outcome);
      s.request.Some? ==> Publish(s.request.value) == DispatchRequest(client[1], client[2], decodeEvent)
  {
  }

  /**
   * A terminal frame is written exactly when the publish call returned: the
   * third frame, SUCCESS for a success result and FAILURE for an error result.
   */
  lemma TerminalFrame(teckey: Option<Text>, client: seq<Text>, decodeEvent: Text -> Option<EventPingInfo>, outcome: PublishOutcome)
    ensures var s := Serve(teckey, client, decodeEvent, outcome);
      (|s.frames| == 3 <==> s.request.Some? && outcome != Faulted)
      && (|s.frames| == 3 ==> s.ending == Completed && s.frames[2] == (if outcome == Posted then SuccessReply else FailureReply))
  {
  }

  /** An unknown tag still gets READY and its message is read, but nothing is published and no status follows. */
  lemma UnknownTagIsSilent(teckey: Option<Text>, client: seq<Text>, decodeEvent: Text -> Option<EventPingInfo>, outcome: PublishOutcome)
    requires |client| >= 3 && client[0] == ExpectedKey(teckey)
    requires client[1] !in {TagAnnouncement, TagEvent, TagUpdate}
    ensures Serve(teckey, client, decodeEvent, outcome) == Session([client[0], ReadyReply], None, UnknownTag)
  {
  }

  /** An "E" message that does not decode ends the connection with no publish and no status. */
  lemma MalformedEventIsSilent(teckey: Option<Text>, client: seq<Text>, decodeEvent: Text -> Option<EventPingInfo>, outcome: PublishOutcome)
    requires |client| >= 3 && client[0] == ExpectedKey(teckey)
    requires client[1] == TagEvent && decodeEvent(client[2]).None?
    ensures Serve(teckey, client, decodeEvent, outcome) == Session([client[0], ReadyReply], None, MalformedPayload)
  {
  }
}
