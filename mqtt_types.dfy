/**
 * Values shared by the model of the connection lifecycle of the paho MQTT
 * Ruby client: connection states, abstract sockets, packet tags, the ordered
 * log of effects on the network and on the collaborators, and errors.
 */
module MqttTypes {

  datatype Option<T> = None | Some(value: T)

  /** The connection states this component distinguishes:
      MQTT_CS_DISCONNECT and MQTT_CS_CONNECTED. */
  datatype ConnState = Disconnected | Connected

  /** Plain TCP, or TLS over TCP; `handshaken` records whether the TLS
      connect on the socket completed. */
  datatype Transport = Tcp | Tls(handshaken: bool)

  /** A socket object; `id` stands for its identity (a TLS socket carries the
      identity of the TCP socket it wraps and closes with it). Whether a
      socket is closed belongs to the object, not to a reference to it, so it
      is kept apart, as a set of closed identities. */
  datatype Sock = Sock(id: nat, transport: Transport)

  /** The packets this component hands to the sender, as tags. */
  datatype PacketKind = ConnectPacket | DisconnectPacket | PingreqPacket

  /** Effects on the network and on the collaborators, in the order they happen. */
  datatype Effect =
    | TcpOpened(id: nat)            // a TCP connection was opened as socket `id`
    | TcpFailed                     // opening the TCP connection failed
    | TlsConnect(id: nat, ok: bool) // the TLS handshake over socket `id`, and whether it succeeded
    | SocketClosed(id: nat)
    | CleanSessionSet(clean: bool)  // the handler is told the clean-session flag
    | PacketSent(kind: PacketKind)  // a packet is handed to the sender
    | SenderFlushed                 // the sender's flush_waiting_packet is called
    | ThreadKilled                  // the background MQTT thread is killed
    | PublisherFlushed              // the publisher's flush_publisher is called

  /** The exceptions this component raises. */
  datatype Error =
    | InvalidHost        // host= given nil or ""
    | InvalidPort        // port= given a value whose to_i is not positive
    | MissingSslContext  // TLS requested with a nil context
    | TlsSocketError     // the TLS socket could not be built or connected
    | ConnackTimeout     // no CONNACK before the deadline on a first connection

  /** Either the value an operation returns, or the exception it raises. */
  datatype Result<T> = Ok(value: T) | Raised(error: Error)

  /** The packets handed to the sender, in order, as recorded in an effect log. */
  function Sent(trace: seq<Effect>): (r: seq<PacketKind>)
    ensures |r| <= |trace|
  {
    if trace == [] then []
    else
      var init, last := trace[..|trace| - 1], trace[|trace| - 1];
      assert trace == init + [last];
      if last.PacketSent? then Sent(init) + [last.kind] else Sent(init)
  }

  /** The packet log of a concatenation of effect logs is the concatenation
      of their packet logs. */
  lemma {:induction false} SentConcat(a: seq<Effect>, b: seq<Effect>)
    ensures Sent(a + b) == Sent(a) + Sent(b)
    decreases |b|
  {
    if b == [] {
      assert a + b == a;
    } else {
      var init := b[..|b| - 1];
      assert (a + b)[..|a + b| - 1] == a + init;
      assert (a + b)[|a + b| - 1] == b[|b| - 1];
      SentConcat(a, init);
    }
  }

  lemma ConcatAssoc<T>(a: seq<T>, b: seq<T>, c: seq<T>)
    ensures (a + b) + c == a + (b + c)
  {
  }

  /** A log with no packet effect sends no packet. */
  lemma {:induction false} SentNone(trace: seq<Effect>)
    requires forall i :: 0 <= i < |trace| ==> !trace[i].PacketSent?
    ensures Sent(trace) == []
    decreases |trace|
  {
    if trace != [] {
      SentNone(trace[..|trace| - 1]);
    }
  }
}
