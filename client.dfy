/** The console client: the envelope it announces itself with, how it treats
    an incoming frame and how it wraps console input typed by its user. */
module Client {
  import opened Json
  import opened Envelope
  import Text
  import Server

  /** The text of the announcement ("a new client has connected"). */
  const AnnouncementText: string := "Новый клиент подключился"

  /** The one envelope the `open` handler sends. */
  function OnOpen(): (r: Json)
    ensures Classify(r) == Recognised(Connection)
    ensures Member(r, "message") == Defined(JString(AnnouncementText))
  {
    var r := Make(Connection, AnnouncementText);
    MakeIsRecognised(Connection, AnnouncementText);
    r
  }

  /** What the client does with one incoming frame. */
  datatype Reaction =
    | Show(text: Access)   // console.log of `${parsedMessage.message}`
    | Ignore               // the event is not one of the two kinds
    | LogError             // an exception was caught and logged

  /** The `message` handler on the result of `JSON.parse` (None when it
      throws). A recognised envelope has its `message` shown; reading
      `event` of `null`, or turning a message that cannot become text into
      text, throws and is logged; any other event is ignored. */
  function OnIncoming(decoded: Option<Json>): (r: Reaction)
    ensures r.Show? ==>
      decoded.Some? && Classify(decoded.value).Recognised? && r.text == Member(decoded.value, "message")
    ensures decoded.Some? && Classify(decoded.value).Recognised? &&
            (Member(decoded.value, "message").Defined? ==> Printable(Member(decoded.value, "message").value)) ==>
      r.Show?
    ensures r.Ignore? <==> decoded.Some? && Classify(decoded.value).Unrecognised?
    ensures r.Show? && r.text.Defined? ==> Printable(r.text.value)
    ensures r.LogError? <==>
      decoded.None? || decoded.value.JNull? ||
      (Classify(decoded.value).Recognised? && Member(decoded.value, "message").Defined? &&
       !Printable(Member(decoded.value, "message").value))
  {
    match decoded
    case None => LogError
    case Some(v) =>
      match Classify(v)
      case Threw => LogError
      case Unrecognised => Ignore
      case Recognised(_) =>
        match Member(v, "message")
        case Defined(m) => if Printable(m) then Show(Defined(m)) else LogError
        case other => Show(other)
  }

  /** The standard-input handler: the envelope sent for a chunk of
      typed input, which may hold several lines or part of one. */
  function OnInput(data: string): (r: Json)
    ensures Classify(r) == Recognised(Message)
    ensures Member(r, "message") == Defined(JString(Text.Trim(data)))
    ensures Text.Trimmed(Text.Trim(data)) && Text.Trim(Text.Trim(data)) == Text.Trim(data)
  {
    MakeIsRecognised(Message, Text.Trim(data));
    Text.TrimIdempotent(data);
    TextMessage(data)
  }

  /** Client and relay share one filter: the relay forwards a parsed value
      exactly when a client would not ignore it as unknown, and both only
      log a frame that does not parse or parses to `null`. */
  lemma {:induction false} SameFilterBothEnds(decoded: Option<Json>, from: Server.PeerId)
    ensures Server.Dispatch(decoded, from).Forward? <==>
            decoded.Some? && !decoded.value.JNull? && !OnIncoming(decoded).Ignore?
    ensures Server.Dispatch(decoded, from).Dropped? <==> OnIncoming(decoded).Ignore?
    ensures Server.Dispatch(decoded, from).Logged? ==> OnIncoming(decoded).LogError?
  {
    if decoded.Some? {
      var verdict := Classify(decoded.value);
      assert verdict.Threw? <==> decoded.value.JNull?;
    }
  }

  /** Input typed at one client, when the printer and parser agree on it,
      is forwarded by the relay from that client and shown trimmed by every
      client that receives it. */
  lemma {:induction false} TypedLineReachesOthers(data: string, from: Server.PeerId,
                                                  parse: string -> Option<Json>, encode: Json -> string)
    requires parse(encode(OnInput(data))) == Some(OnInput(data))
    ensures Server.Dispatch(parse(encode(OnInput(data))), from) == Server.Forward(OnInput(data), from)
    ensures OnIncoming(parse(encode(OnInput(data)))) == Show(Defined(JString(Text.Trim(data))))
  {
    var v := OnInput(data);
    assert Member(v, "message") == Defined(JString(Text.Trim(data)));
    assert Printable(JString(Text.Trim(data)));
  }

  /** The announcement, once parsed back, is forwarded by the relay and shown
      by the clients that receive it. */
  lemma {:induction false} AnnouncementReachesOthers(from: Server.PeerId,
                                                     parse: string -> Option<Json>, encode: Json -> string)
    requires parse(encode(OnOpen())) == Some(OnOpen())
    ensures Server.Dispatch(parse(encode(OnOpen())), from) == Server.Forward(OnOpen(), from)
    ensures OnIncoming(parse(encode(OnOpen()))) == Show(Defined(JString(AnnouncementText)))
  {
    assert Printable(JString(AnnouncementText));
  }
}
