/** The relay server: the registry of connected sockets, the broadcast that
    fans a message out to them, the dispatch of an incoming frame and the
    wrapping of operator console input. */
module Server {
  import opened Json
  import opened Envelope

  /** A socket's identity; `client !== sender` compares identities. */
  type PeerId = nat

  /** The WebSocket `readyState` values. */
  datatype ReadyState = Connecting | Open | Closing | Closed

  /** One connected client as the broadcast sees it: its identity, its
      state and the frames sent to it so far, in order. */
  datatype Peer = Peer(id: PeerId, state: ReadyState, outbox: seq<string>)

  predicate DistinctIds(peers: seq<Peer>) {
    forall i, j :: 0 <= i < j < |peers| ==> peers[i].id != peers[j].id
  }

  /** The test broadcastMessage applies to each client. */
  predicate Receives(p: Peer, sender: Option<PeerId>) {
    sender != Some(p.id) && p.state == Open
  }

  /** One client after one step of the broadcast. */
  function SendTo(p: Peer, sender: Option<PeerId>, payload: string): Peer {
    if Receives(p, sender) then p.(outbox := p.outbox + [payload]) else p
  }

  /** The clients after broadcastMessage has visited each of them in order. */
  function Fanout(peers: seq<Peer>, sender: Option<PeerId>, payload: string): (r: seq<Peer>)
    ensures |r| == |peers|
  {
    if peers == [] then []
    else Fanout(peers[..|peers| - 1], sender, payload) + [SendTo(peers[|peers| - 1], sender, payload)]
  }

  /** The broadcast treats each client on its own. */
  lemma {:induction false} FanoutAt(peers: seq<Peer>, sender: Option<PeerId>, payload: string, i: nat)
    requires i < |peers|
    ensures Fanout(peers, sender, payload)[i] == SendTo(peers[i], sender, payload)
  {
    if i < |peers| - 1 {
      FanoutAt(peers[..|peers| - 1], sender, payload, i);
    }
  }

  /** Exactly the open clients other than the sender receive the payload,
      one copy each appended after what they had; every other client is
      left exactly as it was. */
  lemma {:induction false} FanoutDelivers(peers: seq<Peer>, sender: Option<PeerId>, payload: string)
    ensures |Fanout(peers, sender, payload)| == |peers|
    ensures forall i :: 0 <= i < |peers| && peers[i].state == Open && sender != Some(peers[i].id) ==>
      Fanout(peers, sender, payload)[i] == peers[i].(outbox := peers[i].outbox + [payload])
    ensures forall i :: 0 <= i < |peers| && (peers[i].state != Open || sender == Some(peers[i].id)) ==>
      Fanout(peers, sender, payload)[i] == peers[i]
  {
    forall i | 0 <= i < |peers| ensures Fanout(peers, sender, payload)[i] == SendTo(peers[i], sender, payload) {
      FanoutAt(peers, sender, payload, i);
    }
  }

  /** A broadcast changes no identity and no state, so the registry keeps
      its members, in the same order. */
  lemma {:induction false} FanoutKeepsMembers(peers: seq<Peer>, sender: Option<PeerId>, payload: string)
    ensures |Fanout(peers, sender, payload)| == |peers|
    ensures forall i :: 0 <= i < |peers| ==>
      Fanout(peers, sender, payload)[i].id == peers[i].id &&
      Fanout(peers, sender, payload)[i].state == peers[i].state
    ensures DistinctIds(peers) ==> DistinctIds(Fanout(peers, sender, payload))
  {
    FanoutDelivers(peers, sender, payload);
  }

  /** The sender never receives its own broadcast. */
  lemma {:induction false} SenderExcluded(peers: seq<Peer>, sender: PeerId, payload: string, i: nat)
    requires i < |peers| && peers[i].id == sender
    ensures Fanout(peers, Some(sender), payload)[i] == peers[i]
  {
    FanoutAt(peers, Some(sender), payload, i);
  }

  /** With distinct identities, the sender is one client: every other open
      client receives the payload exactly once. */
  lemma {:induction false} OnlySenderSkipped(peers: seq<Peer>, sender: PeerId, payload: string, i: nat)
    requires DistinctIds(peers) && i < |peers| && peers[i].id == sender
    ensures forall j :: 0 <= j < |peers| && j != i && peers[j].state == Open ==>
      Fanout(peers, Some(sender), payload)[j].outbox == peers[j].outbox + [payload]
  {
    FanoutDelivers(peers, Some(sender), payload);
    forall j | 0 <= j < |peers| && j != i && peers[j].state == Open
      ensures Some(sender) != Some(peers[j].id)
    {
      if j < i { assert peers[j].id != peers[i].id; } else { assert peers[i].id != peers[j].id; }
    }
  }

  /** A message with no sender (operator input) reaches every open client
      exactly once, and no client that is connecting, closing or closed. */
  lemma {:induction false} NoSenderReachesAllOpen(peers: seq<Peer>, payload: string, i: nat)
    requires i < |peers|
    ensures peers[i].state == Open ==>
      Fanout(peers, None, payload)[i].outbox == peers[i].outbox + [payload]
    ensures peers[i].state != Open ==> Fanout(peers, None, payload)[i] == peers[i]
  {
    FanoutAt(peers, None, payload, i);
  }

  /** Two broadcasts from the same sender reach each recipient in the order
      they were made. */
  lemma {:induction false} SameSenderInOrder(peers: seq<Peer>, sender: Option<PeerId>, first: string, second: string, i: nat)
    requires i < |peers| && Receives(peers[i], sender)
    ensures Fanout(Fanout(peers, sender, first), sender, second)[i].outbox == peers[i].outbox + [first, second]
  {
    var mid := Fanout(peers, sender, first);
    FanoutAt(peers, sender, first, i);
    assert mid[i] == peers[i].(outbox := peers[i].outbox + [first]);
    FanoutAt(mid, sender, second, i);
    assert Fanout(mid, sender, second)[i] == mid[i].(outbox := mid[i].outbox + [second]);
  }

  /** What the `message` handler does with one frame. */
  datatype Outcome =
    | Forward(value: Json, from: PeerId)   // broadcastMessage(message, ws)
    | Dropped                              // the switch matched no case
    | Logged                               // an exception was caught and logged

  /** The `message` handler on the result of `JSON.parse` (None when it
      throws): a value whose `event` is one of the two kinds is forwarded
      whole from the receiving socket; any other value is dropped; a parse
      failure or a parsed `null` is only logged. */
  function Dispatch(decoded: Option<Json>, from: PeerId): (r: Outcome)
    ensures r.Forward? <==> decoded.Some? && Classify(decoded.value).Recognised?
    ensures r.Forward? ==> r.value == decoded.value && r.from == from
    ensures r.Logged? <==> decoded.None? || decoded.value.JNull?
    ensures r.Dropped? <==> decoded.Some? && Classify(decoded.value).Unrecognised?
  {
    match decoded
    case None => Logged
    case Some(v) =>
      match Classify(v)
      case Recognised(_) => Forward(v, from)
      case Unrecognised => Dropped
      case Threw => Logged
  }

  /** The clients after one frame from `from` has been handled. Unless the
      frame is forwarded nothing changes, not even for the sender: an
      unknown event or a bad frame closes no connection. */
  function AfterFrame(peers: seq<Peer>, decoded: Option<Json>, from: PeerId, encode: Json -> string): (r: seq<Peer>)
    ensures !Dispatch(decoded, from).Forward? ==> r == peers
    ensures |r| == |peers|
    ensures forall i :: 0 <= i < |peers| ==> r[i].id == peers[i].id && r[i].state == peers[i].state
    ensures forall i :: 0 <= i < |peers| && peers[i].id == from ==> r[i] == peers[i]
  {
    match Dispatch(decoded, from)
    case Forward(v, _) =>
      FanoutKeepsMembers(peers, Some(from), encode(v));
      FanoutDelivers(peers, Some(from), encode(v));
      Fanout(peers, Some(from), encode(v))
    case _ => peers
  }

  /** A forwarded frame reaches every open client other than its sender
      with the whole parsed value, extra members included. */
  lemma {:induction false} ForwardCarriesWholeValue(peers: seq<Peer>, v: Json, from: PeerId, encode: Json -> string, i: nat)
    requires Classify(v).Recognised?
    requires i < |peers| && peers[i].state == Open && peers[i].id != from
    ensures AfterFrame(peers, Some(v), from, encode)[i].outbox == peers[i].outbox + [encode(v)]
  {
    FanoutAt(peers, Some(from), encode(v), i);
  }

  /** Visiting one more client extends the broadcast by that client's step;
      stated on the registry being updated in place at index `i`. */
  lemma {:induction false} FanoutExtend(peers: seq<Peer>, sender: Option<PeerId>, payload: string, i: nat)
    requires i < |peers|
    ensures (Fanout(peers[..i], sender, payload) + peers[i..])[i := SendTo(peers[i], sender, payload)]
            == Fanout(peers[..i + 1], sender, payload) + peers[i + 1..]
  {
    assert peers[..i + 1][..i] == peers[..i];
    var done := Fanout(peers[..i], sender, payload);
    assert |done| == i;
    assert peers[i..] == [peers[i]] + peers[i + 1..];
  }

  /** The `server.clients` set; each member has its own identity. */
  class Registry {
    var clients: seq<Peer>

    ghost predicate Valid()
      reads this
    {
      DistinctIds(clients)
    }

    constructor (initial: seq<Peer>)
      requires DistinctIds(initial)
      ensures Valid() && clients == initial
    {
      clients := initial;
    }

    /** broadcastMessage: send `JSON.stringify(message)` to every client
        that is not the sender and is open. */
    method Broadcast(message: Json, sender: Option<PeerId>, encode: Json -> string)
      requires Valid()
      modifies this
      ensures Valid()
      ensures clients == Fanout(old(clients), sender, encode(message))
    {
      ghost var before := clients;
      var i := 0;
      while i < |clients|
        invariant 0 <= i <= |clients| == |before|
        invariant clients == Fanout(before[..i], sender, encode(message)) + before[i..]
      {
        FanoutExtend(before, sender, encode(message), i);
        var client := clients[i];
        assert client == before[i];
        if client.state == Open && sender != Some(client.id) {
          clients := clients[i := client.(outbox := client.outbox + [encode(message)])];
        } else {
          assert clients == clients[i := SendTo(client, sender, encode(message))];
        }
        i := i + 1;
      }
      assert before[..i] == before;
      assert clients == Fanout(before, sender, encode(message));
      FanoutKeepsMembers(before, sender, encode(message));
      assert DistinctIds(clients);
    }

    /** The `message` handler: parse the frame and broadcast it from the
        receiving socket when its event is recognised. */
    method OnFrame(frame: string, from: PeerId, parse: string -> Option<Json>, encode: Json -> string)
      returns (outcome: Outcome)
      requires Valid()
      modifies this
      ensures Valid()
      ensures outcome == Dispatch(parse(frame), from)
      ensures clients == AfterFrame(old(clients), parse(frame), from, encode)
    {
      outcome := Dispatch(parse(frame), from);
      if outcome.Forward? {
        Broadcast(outcome.value, Some(from), encode);
      }
    }

    /** The standard-input handler: wrap the trimmed chunk as a message
        envelope and broadcast it with no sender. */
    method OnOperatorInput(data: string, encode: Json -> string)
      requires Valid()
      modifies this
      ensures Valid()
      ensures clients == Fanout(old(clients), None, encode(TextMessage(data)))
    {
      Broadcast(TextMessage(data), None, encode);
    }
  }
}
