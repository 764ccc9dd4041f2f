/**
 * End-to-end runs of the two dispatchers against each other, through the wire
 * encoding: one client and one host, each seeing the other's frames as datagrams.
 */
module Scenarios {
  import opened Wrappers
  import opened Codec
  import opened Tunnel
  import HostDispatcher
  import ClientDispatcher

  /**
   * A fresh client accepts a local connection and announces id 1; the host opens one
   * socket for (client, 1) and, once its dial succeeds, acknowledges with Connect(1);
   * the acknowledgement leaves the client's state as it was.
   */
  lemma ConnectHandshake(clientId: PeerId, hostId: PeerId, local: Handle)
    ensures var c := ClientDispatcher.AcceptStep(ClientDispatcher.InitialClient, hostId, local);
      && c.sockets == map[1 := local]
      && |c.outbox| == 1 && c.outbox[0].Send? && c.outbox[0].peer == hostId
      && var h := HostDispatcher.Run(HostDispatcher.InitialHost, [Some(Datagram(clientId, c.outbox[0].frame))]);
      && h.sockets == map[(clientId, 1) := 0]
      && h.outbox == [Dial(0, ServicePort, Loopback)]
      && 0 in h.origin
      && var h' := HostDispatcher.DialStep(h, 0);
      && |h'.outbox| == 2 && h'.outbox[1].Send? && h'.outbox[1].peer == clientId
      && ClientDispatcher.Run(c, [Some(Datagram(hostId, h'.outbox[1].frame))]) == c
  {
    var c := ClientDispatcher.AcceptStep(ClientDispatcher.InitialClient, hostId, local);
    var request := [Some(Datagram(clientId, c.outbox[0].frame))];
    assert HostDispatcher.Run(HostDispatcher.InitialHost, request)
        == HostDispatcher.DatagramStep(HostDispatcher.Run(HostDispatcher.InitialHost, []), request[0]);
    var h := HostDispatcher.Run(HostDispatcher.InitialHost, request);
    var h' := HostDispatcher.DialStep(h, 0);
    var reply := [Some(Datagram(hostId, h'.outbox[1].frame))];
    assert ClientDispatcher.Run(c, reply) == ClientDispatcher.DatagramStep(ClientDispatcher.Run(c, []), reply[0]);
  }

  /** Data for a connection the host has never seen is dropped without any effect. */
  lemma DataBeforeConnectDropped(peer: PeerId)
    ensures var ping := EncodePacket(PacketData, 7, Some([112, 105, 110, 103])).value;
      HostDispatcher.Run(HostDispatcher.InitialHost, [Some(Datagram(peer, ping))]) == HostDispatcher.InitialHost
  {
    DecodeEncode(PacketData, 7, Some([112, 105, 110, 103]));
    var ping := EncodePacket(PacketData, 7, Some([112, 105, 110, 103])).value;
    var q := [Some(Datagram(peer, ping))];
    assert HostDispatcher.Run(HostDispatcher.InitialHost, q)
        == HostDispatcher.DatagramStep(HostDispatcher.Run(HostDispatcher.InitialHost, []), q[0]);
  }

  /**
   * After Connect(7) from a peer, the service closing the socket sends that peer
   * exactly one Disconnect(7), empties the table, and a later Data(7) is dropped.
   */
  lemma ServiceCloseThenData(peer: PeerId, bytes: seq<Byte>)
    ensures var h := HostDispatcher.FrameStep(HostDispatcher.InitialHost, peer, Frame(PacketConnect, 7, []));
      && 0 in h.origin
      && var closed := HostDispatcher.CloseStep(h, 0);
      && closed.sockets == map[]
      && |closed.outbox| == 2 && closed.outbox[1].peer == peer
      && DecodePacket(closed.outbox[1].frame) == Some(Frame(PacketDisconnect, 7, []))
      && HostDispatcher.FrameStep(closed, peer, Frame(PacketData, 7, bytes)) == closed
  {
  }
}
