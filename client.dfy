/**
 * The client side of the tunnel.  Every accepted local connection gets the next id
 * of a counter that starts at 1, is registered in the table and announced to the
 * configured peer with a Connect frame.  Frames from the transport are looked up by
 * id alone; frames for ids not in the table are dropped.
 *
 * Encoding an id of 2^32 or more throws inside encodePacket.  The step functions
 * give the state as far as the handler got before that throw; `Encodable` says
 * whether it got to the end.  The class `Client` performs the same steps in place.
 */
module ClientDispatcher {
  import opened Wrappers
  import opened Codec
  import opened Tunnel

  /** nextConnId: the counter; sockets: the `clientSockets` table; outbox: effects so far. */
  datatype ClientState = ClientState(nextConnId: nat, sockets: map<nat, Handle>, outbox: seq<Effect>)

  const InitialClient: ClientState := ClientState(1, map[], [])

  /** Ids start at 1, and every id in the table was handed out already. */
  ghost predicate ClientInv(s: ClientState)
  {
    && s.nextConnId >= 1
    && forall id :: id in s.sockets ==> 1 <= id < s.nextConnId
  }

  /** Whether encodePacket accepts the id, so that a handler sending a frame for it completes. */
  predicate Encodable(id: nat)
  {
    id < U32Limit
  }

  /** The connection listener: take the next id, register the socket, announce it. */
  function AcceptStep(s: ClientState, target: PeerId, socket: Handle): (r: ClientState)
    ensures r.nextConnId == s.nextConnId + 1
    ensures ClientInv(s) ==> ClientInv(r)
  {
    var id := s.nextConnId;
    var announce := if Encodable(id) then [SendFrame(target, PacketConnect, id, None)] else [];
    ClientState(id + 1, s.sockets[id := socket], s.outbox + announce)
  }

  /** A local socket's 'data' callback: forward the bytes as a Data frame. */
  function LocalDataStep(s: ClientState, target: PeerId, id: nat, bytes: seq<Byte>): (r: ClientState)
    ensures r.sockets == s.sockets && r.nextConnId == s.nextConnId
    ensures Encodable(id) ==> |r.outbox| == |s.outbox| + 1 && r.outbox[..|s.outbox|] == s.outbox
    ensures Encodable(id) ==> r.outbox[|s.outbox|].Send? && r.outbox[|s.outbox|].channel == SendChannel
    ensures Encodable(id) ==> r.outbox[|s.outbox|].peer == target
    ensures Encodable(id) ==> DecodePacket(r.outbox[|s.outbox|].frame) == Some(Frame(PacketData, id, bytes))
    ensures !Encodable(id) ==> r == s
  {
    if Encodable(id) then s.(outbox := s.outbox + [SendFrame(target, PacketData, id, Some(bytes))])
    else s
  }

  /** A local socket's 'close' callback: send Disconnect, then forget the id. */
  function LocalCloseStep(s: ClientState, target: PeerId, id: nat): (r: ClientState)
    ensures r.nextConnId == s.nextConnId
    ensures ClientInv(s) ==> ClientInv(r)
  {
    if Encodable(id) then
      s.(sockets := s.sockets - {id},
         outbox := s.outbox + [SendFrame(target, PacketDisconnect, id, None)])
    else s
  }

  /** The frame handler of the receive loop; frames for unknown ids are dropped. */
  function FrameStep(s: ClientState, f: Frame): (r: ClientState)
    ensures r.nextConnId == s.nextConnId && r.sockets.Keys <= s.sockets.Keys
    ensures ClientInv(s) ==> ClientInv(r)
  {
    if f.connId !in s.sockets then s
    else if f.kind == PacketData then
      s.(outbox := s.outbox + [Write(s.sockets[f.connId], f.payload)])
    else if f.kind == PacketDisconnect then
      s.(sockets := s.sockets - {f.connId}, outbox := s.outbox + [Destroy(s.sockets[f.connId])])
    else
      s
  }

  /** One iteration of the receive loop; the sender of a datagram is not consulted. */
  function DatagramStep(s: ClientState, d: Option<Datagram>): (r: ClientState)
    ensures r.nextConnId == s.nextConnId
    ensures ClientInv(s) ==> ClientInv(r)
  {
    match d
    case None => s
    case Some(dg) =>
      match DecodePacket(dg.data)
      case None => s
      case Some(f) => FrameStep(s, f)
  }

  /** The whole receive loop over the datagrams available in one tick, in order. */
  function Run(s: ClientState, queue: seq<Option<Datagram>>): (r: ClientState)
    ensures r.nextConnId == s.nextConnId
    ensures ClientInv(s) ==> ClientInv(r)
  {
    if queue == [] then s
    else DatagramStep(Run(s, queue[..|queue| - 1]), queue[|queue| - 1])
  }

  /** Everything that can happen to the client, in the order it happens. */
  datatype ClientEvent =
    | Accepted(socket: Handle)
    | LocalData(connId: nat, bytes: seq<Byte>)
    | LocalClosed(connId: nat)
    | Tick(queue: seq<Option<Datagram>>)

  /** One event; only an accept moves the counter, and it moves it by one. */
  function Apply(s: ClientState, target: PeerId, e: ClientEvent): (r: ClientState)
    ensures r.nextConnId == s.nextConnId + (if e.Accepted? then 1 else 0)
    ensures ClientInv(s) ==> ClientInv(r)
  {
    match e
    case Accepted(socket) => AcceptStep(s, target, socket)
    case LocalData(id, bytes) => LocalDataStep(s, target, id, bytes)
    case LocalClosed(id) => LocalCloseStep(s, target, id)
    case Tick(queue) => Run(s, queue)
  }

  /** A process run: the events applied one after the other. */
  function Replay(s: ClientState, target: PeerId, events: seq<ClientEvent>): (r: ClientState)
    ensures s.nextConnId <= r.nextConnId
    ensures ClientInv(s) ==> ClientInv(r)
  {
    if events == [] then s
    else Apply(Replay(s, target, events[..|events| - 1]), target, events[|events| - 1])
  }

  // ---------------------------------------------------------------------------
  // Properties of the id allocator

  /**
   * Accept hands out the current counter value, which is at least 1 and not in the
   * table, maps it to the new socket, keeps every other entry, and announces it.
   */
  lemma AcceptAssignsFreshId(s: ClientState, target: PeerId, socket: Handle)
    requires ClientInv(s)
    ensures var id := s.nextConnId;
      var r := AcceptStep(s, target, socket);
      && 1 <= id && id !in s.sockets
      && r.sockets == s.sockets[id := socket] && |r.sockets| == |s.sockets| + 1
      && r.nextConnId == id + 1
      && (Encodable(id) ==> r.outbox == s.outbox + [SendFrame(target, PacketConnect, id, None)])
  {
  }

  /** Replaying one batch of events after another is replaying their concatenation. */
  lemma {:induction false} ReplayAppend(s: ClientState, target: PeerId, e1: seq<ClientEvent>, e2: seq<ClientEvent>)
    ensures Replay(s, target, e1 + e2) == Replay(Replay(s, target, e1), target, e2)
  {
    if e2 != [] {
      var es := e1 + e2;
      assert es[..|es| - 1] == e1 + e2[..|e2| - 1];
      assert es[|es| - 1] == e2[|e2| - 1];
      ReplayAppend(s, target, e1, e2[..|e2| - 1]);
    } else {
      assert e1 + e2 == e1;
    }
  }

  /**
   * Ids are never reused within a run: of two accepts in a run, the later one is
   * handed a strictly larger id, whatever happened in between.
   */
  lemma AcceptedIdsIncrease(s: ClientState, target: PeerId, events: seq<ClientEvent>, i: nat, j: nat)
    requires i < j < |events| && events[i].Accepted? && events[j].Accepted?
    ensures Replay(s, target, events[..i]).nextConnId < Replay(s, target, events[..j]).nextConnId
  {
    var afterI := Replay(s, target, events[..i + 1]);
    assert events[..i + 1][..i] == events[..i];
    assert afterI.nextConnId == Replay(s, target, events[..i]).nextConnId + 1;
    assert events[..j] == events[..i + 1] + events[i + 1..j];
    ReplayAppend(s, target, events[..i + 1], events[i + 1..j]);
  }

  // ---------------------------------------------------------------------------
  // Properties of the frame handler and the close callback

  /** A frame whose id is not in the table changes nothing and does nothing. */
  lemma UnknownIdDropped(s: ClientState, f: Frame)
    requires f.connId !in s.sockets
    ensures FrameStep(s, f) == s
  {
  }

  /** A frame of a kind other than Data, Connect and Disconnect does nothing, even for a known id. */
  lemma UnknownKindIgnored(s: ClientState, f: Frame)
    requires f.kind !in {PacketData, PacketConnect, PacketDisconnect}
    ensures FrameStep(s, f) == s
  {
  }

  /** The host's Connect acknowledgement changes nothing. */
  lemma ConnectIsAcknowledgementOnly(s: ClientState, id: U32, payload: seq<Byte>)
    ensures FrameStep(s, Frame(PacketConnect, id, payload)) == s
  {
  }

  /** Data for a known id writes exactly the payload to that id's socket. */
  lemma DataWritesPayload(s: ClientState, id: U32, payload: seq<Byte>)
    requires id in s.sockets
    ensures FrameStep(s, Frame(PacketData, id, payload))
         == s.(outbox := s.outbox + [Write(s.sockets[id], payload)])
  {
  }

  /** The host's Disconnect destroys the socket and removes the id; a repeat does nothing. */
  lemma DisconnectRemoves(s: ClientState, id: U32, a: seq<Byte>, b: seq<Byte>)
    ensures var r := FrameStep(s, Frame(PacketDisconnect, id, a));
      && r.sockets == s.sockets - {id}
      && r.outbox == (if id in s.sockets then s.outbox + [Destroy(s.sockets[id])] else s.outbox)
      && FrameStep(r, Frame(PacketDisconnect, id, b)) == r
  {
  }

  /** Closing a local connection sends one Disconnect for its id to the peer and forgets the id. */
  lemma LocalCloseSendsDisconnect(s: ClientState, target: PeerId, id: U32)
    ensures var r := LocalCloseStep(s, target, id);
      && r.sockets == s.sockets - {id}
      && |r.outbox| == |s.outbox| + 1 && r.outbox[..|s.outbox|] == s.outbox
      && r.outbox[|s.outbox|].peer == target && r.outbox[|s.outbox|].channel == SendChannel
      && DecodePacket(r.outbox[|s.outbox|].frame) == Some(Frame(PacketDisconnect, id, []))
  {
  }

  /** The client does not look at who sent a datagram. */
  lemma SenderIgnored(s: ClientState, p: PeerId, q: PeerId, data: seq<Byte>)
    ensures DatagramStep(s, Some(Datagram(p, data))) == DatagramStep(s, Some(Datagram(q, data)))
  {
  }

  // ---------------------------------------------------------------------------
  // Properties of the receive loop

  /** Draining two batches one after the other is draining their concatenation. */
  lemma {:induction false} RunAppend(s: ClientState, q1: seq<Option<Datagram>>, q2: seq<Option<Datagram>>)
    ensures Run(s, q1 + q2) == Run(Run(s, q1), q2)
  {
    if q2 != [] {
      var q := q1 + q2;
      assert q[..|q| - 1] == q1 + q2[..|q2| - 1];
      assert q[|q| - 1] == q2[|q2| - 1];
      RunAppend(s, q1, q2[..|q2| - 1]);
    } else {
      assert q1 + q2 == q1;
    }
  }

  /** A failed read or a datagram shorter than a header is skipped and the loop goes on. */
  lemma SkipUnreadable(s: ClientState, q1: seq<Option<Datagram>>, d: Option<Datagram>, q2: seq<Option<Datagram>>)
    requires d.None? || |d.value.data| < HeaderSize
    ensures Run(s, q1 + [d] + q2) == Run(s, q1 + q2)
  {
    RunAppend(s, q1 + [d], q2);
    RunAppend(s, q1, [d]);
    assert Run(Run(s, q1), [d]) == DatagramStep(Run(Run(s, q1), []), d);
    RunAppend(s, q1, q2);
  }

  // ---------------------------------------------------------------------------
  // The client, updating its table and counter in place

  class Client {
    const target: PeerId
    var nextConnId: nat
    var clientSockets: map<nat, Handle>
    var outbox: seq<Effect>

    function State(): (s: ClientState)
      reads this
    {
      ClientState(nextConnId, clientSockets, outbox)
    }

    ghost predicate Valid()
      reads this
    {
      ClientInv(State())
    }

    constructor (target: PeerId)
      ensures Valid() && this.target == target && State() == InitialClient
    {
      this.target := target;
      nextConnId, clientSockets, outbox := 1, map[], [];
    }

    /** The connection listener; `completed` is false when encoding the id throws. */
    method Accept(socket: Handle) returns (connId: nat, completed: bool)
      requires Valid()
      modifies this
      ensures Valid() && State() == AcceptStep(old(State()), target, socket)
      ensures connId == old(nextConnId) && 1 <= connId && connId !in old(clientSockets)
      ensures completed == Encodable(connId)
    {
      connId := nextConnId;
      nextConnId := nextConnId + 1;
      clientSockets := clientSockets[connId := socket];
      completed := Encodable(connId);
      if completed {
        outbox := outbox + [SendFrame(target, PacketConnect, connId, None)];
      }
    }

    /** The 'data' callback of the socket accepted as `connId`. */
    method OnSocketData(connId: nat, bytes: seq<Byte>) returns (completed: bool)
      requires Valid()
      modifies this
      ensures Valid() && State() == LocalDataStep(old(State()), target, connId, bytes)
      ensures completed == Encodable(connId)
    {
      completed := Encodable(connId);
      if completed {
        outbox := outbox + [SendFrame(target, PacketData, connId, Some(bytes))];
      }
    }

    /** The 'close' callback of the socket accepted as `connId`. */
    method OnSocketClose(connId: nat) returns (completed: bool)
      requires Valid()
      modifies this
      ensures Valid() && State() == LocalCloseStep(old(State()), target, connId)
      ensures completed == Encodable(connId)
    {
      completed := Encodable(connId);
      if completed {
        outbox := outbox + [SendFrame(target, PacketDisconnect, connId, None)];
        clientSockets := clientSockets - {connId};
      }
    }

    /** The frame handler of the receive loop. */
    method HandleFrame(f: Frame)
      requires Valid()
      modifies this
      ensures Valid() && State() == FrameStep(old(State()), f)
    {
      if f.connId !in clientSockets {
        return;
      }
      var socket := clientSockets[f.connId];
      if f.kind == PacketData {
        outbox := outbox + [Write(socket, f.payload)];
      } else if f.kind == PacketDisconnect {
        outbox := outbox + [Destroy(socket)];
        clientSockets := clientSockets - {f.connId};
      }
    }

    /** One tick: read every available datagram, skipping failed reads and short ones. */
    method Drain(queue: seq<Option<Datagram>>)
      requires Valid()
      modifies this
      ensures Valid() && State() == Run(old(State()), queue)
    {
      var i := 0;
      while i < |queue|
        invariant 0 <= i <= |queue|
        invariant Valid()
        invariant State() == Run(old(State()), queue[..i])
      {
        var packet := queue[i];
        i := i + 1;
        assert queue[..i][..i - 1] == queue[..i - 1];
        if packet.None? {
          continue;
        }
        var data := packet.value.data;
        if |data| < HeaderSize {
          continue;
        }
        var frame := DecodePacket(data).value;
        HandleFrame(frame);
      }
      assert queue[..|queue|] == queue;
    }
  }
}
