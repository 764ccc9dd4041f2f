/**
 * The host side of the tunnel.  Frames from many peers are demultiplexed on the
 * composite key (sender, connection id); a Connect opens a fresh local socket to
 * the service, Data is written to the key's socket, Disconnect destroys it.  Each
 * socket's callbacks remember the sender and id they were created for (`origin`).
 *
 * The step functions are the specification; class `Host` performs the same steps
 * by updating its maps in place.
 */
module HostDispatcher {
  import opened Wrappers
  import opened Codec
  import opened Tunnel

  /** The `${remoteSteamId}-${connId}` key of the socket table, as a pair. */
  type Key = (PeerId, U32)

  /**
   * sockets: the live table; origin: for every socket ever created, the key its
   * callbacks captured; nextHandle: the next fresh socket; outbox: effects so far.
   */
  datatype HostState = HostState(
    sockets: map<Key, Handle>,
    origin: map<Handle, Key>,
    nextHandle: nat,
    outbox: seq<Effect>)

  const InitialHost: HostState := HostState(map[], map[], 0, [])

  /** Handles are fresh, and the table maps each key to a socket created for that key. */
  ghost predicate HostInv(s: HostState)
  {
    && (forall h :: h in s.origin ==> h < s.nextHandle)
    && (forall k :: k in s.sockets ==> s.sockets[k] in s.origin && s.origin[s.sockets[k]] == k)
  }

  /** Every socket the host has destroyed was created before the next fresh handle. */
  ghost predicate DestroysAreOld(s: HostState)
  {
    forall i :: 0 <= i < |s.outbox| && s.outbox[i].Destroy? ==> s.outbox[i].socket < s.nextHandle
  }

  /** No connection both remains in the table and has a destroyed local socket. */
  ghost predicate NoLiveDestroyed(s: HostState)
  {
    forall k :: k in s.sockets ==> Destroy(s.sockets[k]) !in s.outbox
  }

  /** The table invariant together with lifecycle closure. */
  ghost predicate LifecycleInv(s: HostState)
  {
    HostInv(s) && DestroysAreOld(s) && NoLiveDestroyed(s)
  }

  /** The frame handler, for one decoded frame from `peer`. */
  function FrameStep(s: HostState, peer: PeerId, f: Frame): (r: HostState)
    ensures s.outbox <= r.outbox && |r.outbox| <= |s.outbox| + 1
    ensures HostInv(s) ==> HostInv(r)
    ensures LifecycleInv(s) ==> LifecycleInv(r)
  {
    var key := (peer, f.connId);
    if f.kind == PacketConnect then
      var socket := s.nextHandle;
      HostState(s.sockets[key := socket], s.origin[socket := key], socket + 1,
                s.outbox + [Dial(socket, ServicePort, Loopback)])
    else if f.kind == PacketData then
      if key in s.sockets then s.(outbox := s.outbox + [Write(s.sockets[key], f.payload)]) else s
    else if f.kind == PacketDisconnect then
      if key in s.sockets then
        s.(sockets := s.sockets - {key}, outbox := s.outbox + [Destroy(s.sockets[key])])
      else s
    else
      s
  }

  /** One iteration of the receive loop: failed reads and short datagrams are skipped. */
  function DatagramStep(s: HostState, d: Option<Datagram>): (r: HostState)
    ensures HostInv(s) ==> HostInv(r)
    ensures LifecycleInv(s) ==> LifecycleInv(r)
  {
    match d
    case None => s
    case Some(dg) =>
      match DecodePacket(dg.data)
      case None => s
      case Some(f) => FrameStep(s, dg.sender, f)
  }

  /** The whole receive loop over the datagrams available in one tick, in order. */
  function Run(s: HostState, queue: seq<Option<Datagram>>): (r: HostState)
    ensures HostInv(s) ==> HostInv(r)
    ensures LifecycleInv(s) ==> LifecycleInv(r)
    ensures s.outbox <= r.outbox
    ensures s.nextHandle <= r.nextHandle
  {
    if queue == [] then s
    else DatagramStep(Run(s, queue[..|queue| - 1]), queue[|queue| - 1])
  }

  /** The dial callback: the connection to the service is up, acknowledge it to the peer. */
  function DialStep(s: HostState, socket: Handle): (r: HostState)
    requires socket in s.origin
    ensures r.sockets == s.sockets && r.origin == s.origin && r.nextHandle == s.nextHandle
    ensures |r.outbox| == |s.outbox| + 1 && r.outbox[..|s.outbox|] == s.outbox
    ensures r.outbox[|s.outbox|].Send? && r.outbox[|s.outbox|].channel == SendChannel
    ensures r.outbox[|s.outbox|].peer == s.origin[socket].0
    ensures DecodePacket(r.outbox[|s.outbox|].frame) == Some(Frame(PacketConnect, s.origin[socket].1, []))
    ensures LifecycleInv(s) ==> LifecycleInv(r)
  {
    s.(outbox := s.outbox + [SendFrame(s.origin[socket].0, PacketConnect, s.origin[socket].1, None)])
  }

  /** The socket's 'data' callback: forward what the service sent as a Data frame. */
  function SocketDataStep(s: HostState, socket: Handle, bytes: seq<Byte>): (r: HostState)
    requires socket in s.origin
    ensures r.sockets == s.sockets && r.origin == s.origin && r.nextHandle == s.nextHandle
    ensures |r.outbox| == |s.outbox| + 1 && r.outbox[..|s.outbox|] == s.outbox
    ensures r.outbox[|s.outbox|].Send? && r.outbox[|s.outbox|].channel == SendChannel
    ensures r.outbox[|s.outbox|].peer == s.origin[socket].0
    ensures DecodePacket(r.outbox[|s.outbox|].frame) == Some(Frame(PacketData, s.origin[socket].1, bytes))
    ensures LifecycleInv(s) ==> LifecycleInv(r)
  {
    s.(outbox := s.outbox + [SendFrame(s.origin[socket].0, PacketData, s.origin[socket].1, Some(bytes))])
  }

  /**
   * The socket's 'close' callback: tell the peer, and forget the key the socket was
   * created for, whatever that key now maps to.
   */
  function CloseStep(s: HostState, socket: Handle): (r: HostState)
    requires socket in s.origin
    ensures HostInv(s) ==> HostInv(r)
    ensures LifecycleInv(s) ==> LifecycleInv(r)
  {
    var key := s.origin[socket];
    s.(sockets := s.sockets - {key},
       outbox := s.outbox + [SendFrame(key.0, PacketDisconnect, key.1, None)])
  }

  // ---------------------------------------------------------------------------
  // Properties of the frame handler

  /**
   * Connect maps (peer, id) to a socket never seen before, replacing any existing
   * entry, dials the service, and leaves every other key as it was.
   */
  lemma ConnectOverwrites(s: HostState, peer: PeerId, id: U32, payload: seq<Byte>)
    requires HostInv(s)
    ensures var r := FrameStep(s, peer, Frame(PacketConnect, id, payload));
      && (peer, id) in r.sockets
      && r.sockets[(peer, id)] !in s.origin
      && ((peer, id) in s.sockets ==> r.sockets[(peer, id)] != s.sockets[(peer, id)])
      && r.origin[r.sockets[(peer, id)]] == (peer, id)
      && (forall k :: k != (peer, id) ==> (k in r.sockets <==> k in s.sockets))
      && (forall k :: k != (peer, id) && k in s.sockets ==> r.sockets[k] == s.sockets[k])
      && r.outbox == s.outbox + [Dial(r.sockets[(peer, id)], ServicePort, Loopback)]
  {
  }

  /** The same id from two different peers names two different connections. */
  lemma PeersDoNotCollide(s: HostState, p: PeerId, q: PeerId, id: U32, a: seq<Byte>, b: seq<Byte>)
    requires HostInv(s) && p != q
    ensures var r := FrameStep(FrameStep(s, p, Frame(PacketConnect, id, a)), q, Frame(PacketConnect, id, b));
      && (p, id) in r.sockets && (q, id) in r.sockets
      && r.sockets[(p, id)] != r.sockets[(q, id)]
  {
  }

  /** Data and Disconnect for a key the host does not hold change nothing and do nothing. */
  lemma UnknownKeyIgnored(s: HostState, peer: PeerId, f: Frame)
    requires f.kind != PacketConnect && (peer, f.connId) !in s.sockets
    ensures FrameStep(s, peer, f) == s
  {
  }

  /** A frame of a kind other than Data, Connect and Disconnect does nothing, even for a held key. */
  lemma UnknownKindIgnored(s: HostState, peer: PeerId, f: Frame)
    requires f.kind !in {PacketData, PacketConnect, PacketDisconnect}
    ensures FrameStep(s, peer, f) == s
  {
  }

  /** Data for a held key writes exactly the payload to that key's socket. */
  lemma DataWritesPayload(s: HostState, peer: PeerId, id: U32, payload: seq<Byte>)
    requires (peer, id) in s.sockets
    ensures FrameStep(s, peer, Frame(PacketData, id, payload))
         == s.(outbox := s.outbox + [Write(s.sockets[(peer, id)], payload)])
  {
  }

  /** Disconnect for a held key destroys its socket and removes the key, and nothing else. */
  lemma DisconnectRemoves(s: HostState, peer: PeerId, id: U32, payload: seq<Byte>)
    requires (peer, id) in s.sockets
    ensures var r := FrameStep(s, peer, Frame(PacketDisconnect, id, payload));
      && r.sockets.Keys == s.sockets.Keys - {(peer, id)}
      && (forall k :: k in r.sockets ==> r.sockets[k] == s.sockets[k])
      && r.outbox == s.outbox + [Destroy(s.sockets[(peer, id)])]
  {
  }

  /** A second Disconnect for the same key is a no-op. */
  lemma DisconnectIdempotent(s: HostState, peer: PeerId, id: U32, a: seq<Byte>, b: seq<Byte>)
    ensures var r := FrameStep(s, peer, Frame(PacketDisconnect, id, a));
      && (peer, id) !in r.sockets
      && FrameStep(r, peer, Frame(PacketDisconnect, id, b)) == r
  {
  }

  /**
   * The local service closing a socket sends exactly one Disconnect for its id to the
   * peer it was opened for and forgets the key; Data that arrives afterwards is dropped.
   */
  lemma CloseSendsDisconnect(s: HostState, socket: Handle, payload: seq<Byte>)
    requires socket in s.origin
    ensures var (peer, id) := s.origin[socket];
      var r := CloseStep(s, socket);
      && |r.outbox| == |s.outbox| + 1 && r.outbox[..|s.outbox|] == s.outbox
      && r.outbox[|s.outbox|].peer == peer && r.outbox[|s.outbox|].channel == SendChannel
      && DecodePacket(r.outbox[|s.outbox|].frame) == Some(Frame(PacketDisconnect, id, []))
      && (peer, id) !in r.sockets
      && r.sockets == s.sockets - {(peer, id)}
      && r.origin == s.origin && r.nextHandle == s.nextHandle
      && FrameStep(r, peer, Frame(PacketData, id, payload)) == r
  {
  }

  /**
   * The close callback forgets its key even when a later Connect has replaced the
   * socket under that key: the replacement stays open but is no longer reachable.
   */
  lemma StaleCloseForgetsReplacement(s: HostState, socket: Handle)
    requires HostInv(s) && socket in s.origin
    requires s.origin[socket] in s.sockets && s.sockets[s.origin[socket]] != socket
    ensures var r := CloseStep(s, socket);
      && s.origin[socket] !in r.sockets
      && s.sockets[s.origin[socket]] !in r.sockets.Values
  {
  }

  /**
   * Lifecycle closure across a receive tick: if no live entry names a destroyed socket
   * before the tick, none does after it.  The socket callbacks keep the same invariant
   * (see the contracts of DialStep, SocketDataStep and CloseStep).
   */
  lemma DrainKeepsNoDestroyedEntry(s: HostState, queue: seq<Option<Datagram>>)
    requires LifecycleInv(s)
    ensures var r := Run(s, queue);
      forall k :: k in r.sockets ==> Destroy(r.sockets[k]) !in r.outbox
  {
  }

  /** The initial host satisfies the lifecycle invariant. */
  lemma InitialHostLifecycle()
    ensures LifecycleInv(InitialHost)
  {
  }

  // ---------------------------------------------------------------------------
  // Properties of the receive loop

  /** Draining two batches one after the other is draining their concatenation. */
  lemma {:induction false} RunAppend(s: HostState, q1: seq<Option<Datagram>>, q2: seq<Option<Datagram>>)
    ensures Run(s, q1 + q2) == Run(Run(s, q1), q2)
  {
    if q2 != [] {
      var q, front := q1 + q2, q2[..|q2| - 1];
      assert q[..|q| - 1] == q1 + front;
      calc {
        Run(s, q);
        DatagramStep(Run(s, q1 + front), q2[|q2| - 1]);
        { RunAppend(s, q1, front); }
        DatagramStep(Run(Run(s, q1), front), q2[|q2| - 1]);
        Run(Run(s, q1), q2);
      }
    } else {
      assert q1 + q2 == q1;
    }
  }

  /** A failed read or a datagram shorter than a header is skipped and the loop goes on. */
  lemma SkipUnreadable(s: HostState, q1: seq<Option<Datagram>>, d: Option<Datagram>, q2: seq<Option<Datagram>>)
    requires d.None? || |d.value.data| < HeaderSize
    ensures Run(s, q1 + [d] + q2) == Run(s, q1 + q2)
  {
    RunAppend(s, q1 + [d], q2);
    RunAppend(s, q1, [d]);
    assert Run(Run(s, q1), [d]) == DatagramStep(Run(Run(s, q1), []), d);
    RunAppend(s, q1, q2);
  }

  // ---------------------------------------------------------------------------
  // The host, updating its tables in place

  class Host {
    var sockets: map<Key, Handle>
    var origin: map<Handle, Key>
    var nextHandle: nat
    var outbox: seq<Effect>

    function State(): (s: HostState)
      reads this
    {
      HostState(sockets, origin, nextHandle, outbox)
    }

    ghost predicate Valid()
      reads this
    {
      LifecycleInv(State())
    }

    constructor ()
      ensures Valid() && State() == InitialHost
    {
      sockets, origin, nextHandle, outbox := map[], map[], 0, [];
    }

    /** The frame handler of the receive loop. */
    method HandleFrame(peer: PeerId, f: Frame)
      requires Valid()
      modifies this
      ensures Valid() && State() == FrameStep(old(State()), peer, f)
    {
      var key := (peer, f.connId);
      if f.kind == PacketConnect {
        var socket := nextHandle;
        nextHandle := nextHandle + 1;
        outbox := outbox + [Dial(socket, ServicePort, Loopback)];
        origin := origin[socket := key];
        sockets := sockets[key := socket];
      } else if f.kind == PacketData {
        if key in sockets {
          outbox := outbox + [Write(sockets[key], f.payload)];
        }
      } else if f.kind == PacketDisconnect {
        if key in sockets {
          outbox := outbox + [Destroy(sockets[key])];
          sockets := sockets - {key};
        }
      }
    }

    /** One tick: read every available datagram, skipping failed reads and short ones. */
    method Drain(queue: seq<Option<Datagram>>)
      requires Valid()
      modifies this
      ensures Valid() && State() == Run(old(State()), queue)
    {
      var i := 0;
      while i < |queue|
        invariant 0 <= i <= |queue|
        invariant Valid()
        invariant State() == Run(old(State()), queue[..i])
      {
        var packet := queue[i];
        i := i + 1;
        assert queue[..i][..i - 1] == queue[..i - 1];
        if packet.None? {
          continue;
        }
        var data := packet.value.data;
        if |data| < HeaderSize {
          continue;
        }
        var frame := DecodePacket(data).value;
        HandleFrame(packet.value.sender, frame);
      }
      assert queue[..|queue|] == queue;
    }

    /** The dial callback of a socket this host created. */
    method OnDialSuccess(socket: Handle)
      requires Valid() && socket in origin
      modifies this
      ensures Valid() && State() == DialStep(old(State()), socket)
    {
      var (peer, id) := origin[socket];
      outbox := outbox + [SendFrame(peer, PacketConnect, id, None)];
    }

    /** The 'data' callback of a socket this host created. */
    method OnSocketData(socket: Handle, bytes: seq<Byte>)
      requires Valid() && socket in origin
      modifies this
      ensures Valid() && State() == SocketDataStep(old(State()), socket, bytes)
    {
      var (peer, id) := origin[socket];
      outbox := outbox + [SendFrame(peer, PacketData, id, Some(bytes))];
    }

    /** The 'close' callback of a socket this host created. */
    method OnSocketClose(socket: Handle)
      requires Valid() && socket in origin
      modifies this
      ensures Valid() && State() == CloseStep(old(State()), socket)
    {
      var (peer, id) := origin[socket];
      outbox := outbox + [SendFrame(peer, PacketDisconnect, id, None)];
      sockets := sockets - {(peer, id)};
    }
  }
}
