/** The message envelope `{event, message}` both programs exchange, and how a
    parsed value is recognised as one. */
module Envelope {
  import opened Json
  import Text

  /** The two recognised values of `event`. */
  datatype Kind = Message | Connection

  function EventName(k: Kind): string {
    match k
    case Message => "message"
    case Connection => "connection"
  }

  /** How a handler classifies a parsed value by reading its `event`:
      one of the two kinds (compared with `===`), anything else, or the
      `TypeError` of reading a property of `null`. */
  datatype Verdict = Recognised(kind: Kind) | Unrecognised | Threw

  /** The object literal `{event: ..., message: text}`. */
  function Make(kind: Kind, text: string): (r: Json)
    ensures Member(r, "event") == Defined(JString(EventName(kind)))
    ensures Member(r, "message") == Defined(JString(text))
  {
    var fields := [("event", JString(EventName(kind))), ("message", JString(text))];
    assert "message" != "event" by { assert "message"[0] != "event"[0]; }
    assert fields[..1] == [("event", JString(EventName(kind)))];
    assert Lookup(fields, "event") == Lookup(fields[..1], "event") == Some(JString(EventName(kind)));
    JObject(fields)
  }

  /** A chunk of console input as both programs send it:
      `{event: 'message', message: data.toString().trim()}`. */
  function TextMessage(data: string): (r: Json)
    ensures Member(r, "event") == Defined(JString("message"))
    ensures exists t :: Member(r, "message") == Defined(JString(t)) &&
                        t == Text.Trim(data) && Text.Trimmed(t)
  {
    Make(Message, Text.Trim(data))
  }

  /** `v.event === 'message'` or `v.event === 'connection'`; `null` throws. */
  function Classify(v: Json): (r: Verdict)
    ensures r.Threw? <==> v.JNull?
    ensures r.Recognised? ==> Member(v, "event") == Defined(JString(EventName(r.kind)))
    ensures forall k :: Member(v, "event") == Defined(JString(EventName(k))) ==> r == Recognised(k)
  {
    match Member(v, "event")
    case TypeError => Threw
    case Defined(JString(s)) =>
      if s == "message" then Recognised(Message)
      else if s == "connection" then Recognised(Connection)
      else Unrecognised
    case _ => Unrecognised
  }

  /** Whether a template literal `${v}` can turn `v` into text. An object
      whose own member "toString" is data, not a function, makes the
      conversion throw a `TypeError` (its inherited `valueOf` returns the
      object itself); an array converts each element in turn. */
  predicate Printable(v: Json): (ok: bool)
    ensures !v.JObject? && !v.JArray? ==> ok
    ensures v.JObject? ==> (ok <==> Lookup(v.fields, "toString").None?)
    ensures v.JArray? && ok ==>
      forall i :: 0 <= i < |v.items| ==>
        !(v.items[i].JObject? && Lookup(v.items[i].fields, "toString").Some?)
    decreases v
  {
    match v
    case JObject(fields) => forall i :: 0 <= i < |fields| ==> fields[i].0 != "toString"
    case JArray(items) => forall i :: 0 <= i < |items| ==> Printable(items[i])
    case _ => true
  }

  /** Every envelope either program builds is recognised as its own kind,
      whatever its text. */
  lemma {:induction false} MakeIsRecognised(kind: Kind, text: string)
    ensures Classify(Make(kind, text)) == Recognised(kind)
    ensures Printable(Make(kind, text))
  {
    var r := Make(kind, text);
    assert Member(r, "event") == Defined(JString(EventName(kind)));
  }
}
