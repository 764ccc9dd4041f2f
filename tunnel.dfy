/**
 * What both dispatchers share: the datagrams the peer-to-peer transport hands them,
 * the effects they have on local sockets and on the transport, and the fixed
 * ports and channels.  Sockets are abstract handles; an effect is recorded in an
 * outbox instead of being performed.
 */
module Tunnel {
  import opened Wrappers
  import opened Codec

  /** A 64-bit Steam id, as the transport reports a sender and as the client is configured. */
  type PeerId = nat

  /** A local TCP socket (a `net.Socket` object), by identity. */
  type Handle = nat

  /** Channel the receive loops poll. */
  const ReadChannel: nat := 0
  /** Channel every frame is sent on. */
  const SendChannel: nat := 2
  /** Port of the local service the host dials, and the port the client listens on. */
  const ServicePort: nat := 25565
  const ListenPort: nat := 25565
  const Loopback: string := "127.0.0.1"

  datatype Effect =
    | Dial(socket: Handle, port: nat, address: string)   // socket.connect(port, address)
    | Write(socket: Handle, bytes: seq<Byte>)              // socket.write(bytes)
    | Destroy(socket: Handle)                              // socket.destroy()
    | Send(peer: PeerId, channel: nat, frame: seq<Byte>)   // sendP2PPacket(peer, channel, frame)

  /** One packet returned by readP2PPacket: its sender and its bytes. */
  datatype Datagram = Datagram(sender: PeerId, data: seq<Byte>)

  /**
   * `sendP2PPacket(peer, 2, encodePacket(kind, connId, payload))` for an id the
   * encoder accepts: the bytes sent decode, at the other end, to exactly that frame.
   */
  function SendFrame(peer: PeerId, kind: Byte, connId: U32, payload: Option<seq<Byte>>): (e: Effect)
    ensures e.Send? && e.peer == peer && e.channel == SendChannel
    ensures DecodePacket(e.frame) == Some(Frame(kind, connId, PayloadOf(payload)))
  {
    DecodeEncode(kind, connId, payload);
    Send(peer, SendChannel, EncodePacket(kind, connId, payload).value)
  }
}
