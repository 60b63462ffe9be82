/**
 * PahoMqtt::ConnectionHelper: the connection-lifecycle state machine of the
 * paho MQTT Ruby client. The helper owns the connection state, the socket and
 * the addressing fields; the packet sender, the packet handler, the publisher
 * and the background thread are collaborators, seen only through the ghost
 * fields that record what the helper does to them.
 *
 * I/O is abstract: whether the TCP open and the TLS connect succeed is given
 * by the parameters `tcpOk` and `tlsOk`, the handler's results by `replies`,
 * and the clock by integer time parameters.
 */
module PahoMqtt {
  import opened MqttTypes
  import opened RubyCoercion
  import opened ConnackWait

  /** The `mqtt_thread` argument of do_disconnect: nil, or a thread that is
      alive or has finished. */
  datatype MqttThread = NoThread | Thread(alive: bool)

  /** What host= accepts: anything but nil and the empty string. */
  predicate ValidHost(h: Option<string>) {
    h.Some? && h.value != ""
  }

  /** What port= accepts: a value whose to_i is positive. */
  predicate ValidPort(p: PortValue) {
    ToI(p) > 0
  }

  /** Closing the socket `s` unless it is nil or already closed, when the
      sockets `closed` are closed. */
  function CloseEffect(s: Option<Sock>, closed: set<nat>): seq<Effect> {
    if s.Some? && s.value.id !in closed then [SocketClosed(s.value.id)] else []
  }

  /** The closed sockets once `s`, unless nil, is closed. */
  function AfterClose(s: Option<Sock>, closed: set<nat>): set<nat> {
    if s.Some? then closed + {s.value.id} else closed
  }

  /** The steps of explicit_disconnect, in order. */
  function ExplicitEffects(thread: MqttThread, hasPublisher: bool): seq<Effect> {
    [SenderFlushed, PacketSent(DisconnectPacket)] + KillEffect(thread) + FlushEffect(hasPublisher)
  }

  /** Killing the MQTT thread if it is present and alive. */
  function KillEffect(thread: MqttThread): seq<Effect> {
    if thread.Thread? && thread.alive then [ThreadKilled] else []
  }

  /** Flushing the publisher unless it is nil. */
  function FlushEffect(hasPublisher: bool): seq<Effect> {
    if hasPublisher then [PublisherFlushed] else []
  }

  /** The effects of config_socket when the new TCP socket would be `id`. */
  function OpenEffects(id: nat, ssl: bool, hasCtx: bool, tcpOk: bool, tlsOk: bool): seq<Effect> {
    [if tcpOk then TcpOpened(id) else TcpFailed]
    + (if ssl && hasCtx && tcpOk then [TlsConnect(id, tlsOk)] else [])
  }

  /** `@socket` after config_socket, starting from `before`. */
  function OpenedSocket(id: nat, ssl: bool, hasCtx: bool, tcpOk: bool, tlsOk: bool, before: Option<Sock>): Option<Sock> {
    if !ssl then (if tcpOk then Some(Sock(id, Tcp)) else None)
    else if hasCtx && tcpOk then Some(Sock(id, Tls(tlsOk)))
    else before
  }

  /** How config_socket ends: the TCP failure is swallowed on the plain path. */
  function OpenResult(ssl: bool, hasCtx: bool, tcpOk: bool, tlsOk: bool): Result<()> {
    if !ssl then Ok(())
    else if !hasCtx then Raised(MissingSslContext)
    else if tcpOk && tlsOk then Ok(())
    else Raised(TlsSocketError)
  }

  /** How setup_connection ends for the stored host and port. */
  function SetupResult(host: Option<string>, port: PortValue, ssl: bool, hasCtx: bool, tcpOk: bool, tlsOk: bool): Result<()> {
    if !ValidHost(host) then Raised(InvalidHost)
    else if !ValidPort(port) then Raised(InvalidPort)
    else OpenResult(ssl, hasCtx, tcpOk, tlsOk)
  }

  /** The effects of setup_connection: nothing when the stored host or port
      is refused, otherwise closing the old socket and then opening a new one. */
  function SetupEffects(validAddress: bool, before: Option<Sock>, closed: set<nat>, id: nat,
                        ssl: bool, hasCtx: bool, tcpOk: bool, tlsOk: bool): seq<Effect> {
    if validAddress then CloseEffect(before, closed) + OpenEffects(id, ssl, hasCtx, tcpOk, tlsOk) else []
  }

  /** Setting the connection up hands no packet to the sender. */
  lemma SetupSendsNothing(validAddress: bool, before: Option<Sock>, closed: set<nat>, id: nat,
                          ssl: bool, hasCtx: bool, tcpOk: bool, tlsOk: bool)
    ensures Sent(SetupEffects(validAddress, before, closed, id, ssl, hasCtx, tcpOk, tlsOk)) == []
  {
    var open := OpenEffects(id, ssl, hasCtx, tcpOk, tlsOk);
    SentNone(CloseEffect(before, closed));
    SentNone(open);
    SentConcat(CloseEffect(before, closed), open);
  }

  /** Effects that send nothing, followed by `more`, add to the packet log what `more` sends. */
  lemma SentAfter(t: seq<Effect>, quiet: seq<Effect>, more: seq<Effect>)
    requires Sent(quiet) == []
    ensures Sent(t + quiet + more) == Sent(t) + Sent(more)
  {
    SentConcat(t, quiet);
    SentConcat(t + quiet, more);
  }

  /** The explicit path hands exactly one packet to the sender: DISCONNECT. */
  lemma SentExplicitEffects(thread: MqttThread, hasPublisher: bool)
    ensures Sent(ExplicitEffects(thread, hasPublisher)) == [DisconnectPacket]
  {
    var killed, flushed := KillEffect(thread), FlushEffect(hasPublisher);
    SentNone(killed);
    SentNone(flushed);
    SentConcat([SenderFlushed, PacketSent(DisconnectPacket)], killed);
    SentConcat([SenderFlushed, PacketSent(DisconnectPacket)] + killed, flushed);
  }

  /** Telling the handler the clean-session flag sends nothing; the CONNECT
      that follows is the one packet. */
  lemma SentConnect(cleanSession: bool)
    ensures Sent([CleanSessionSet(cleanSession), PacketSent(ConnectPacket)]) == [ConnectPacket]
  {
  }

  predicate IdBelow(s: Option<Sock>, n: nat) {
    s.None? || s.value.id < n
  }

  /** `s` is nil or a socket other than `id`. */
  predicate Other(s: Option<Sock>, id: nat) {
    s.None? || s.value.id != id
  }

  class ConnectionHelper {
    var cs: ConnState
    var socket: Option<Sock>
    var host: Option<string>
    var port: PortValue
    var ssl: bool
    var hasSslContext: bool
    /** Stored as given; its effect on do_connect is the length of `replies`. */
    var ackTimeout: int
    /** The identity the next socket opened will get; a counter of this
        model standing for the identity of Ruby objects. */
    var nextSocketId: nat

    /** The socket this helper last handed to the sender, and to the handler
        (None while it has handed none, whatever the handler held before it
        was passed in): the same objects `@socket` refers to, so closing one
        closes what they hold. */
    ghost var senderSocket: Option<Sock>
    ghost var handlerSocket: Option<Sock>
    /** The identities of the sockets closed so far. */
    ghost var closedIds: set<nat>
    /** Everything done to the network and the collaborators, in order. */
    ghost var trace: seq<Effect>

    /** Every socket held here or handed out was opened by this helper. */
    ghost predicate Valid()
      reads this
    {
      IdBelow(socket, nextSocketId) && IdBelow(senderSocket, nextSocketId) && IdBelow(handlerSocket, nextSocketId)
    }

    /** initialize: disconnected, no socket; host and port are stored unchecked. */
    constructor (host: Option<string>, port: PortValue, ssl: bool, hasSslContext: bool, ackTimeout: int)
      ensures Valid()
      ensures cs == Disconnected && socket == None
      ensures this.host == host && this.port == port
      ensures this.ssl == ssl && this.hasSslContext == hasSslContext && this.ackTimeout == ackTimeout
      ensures senderSocket == None && handlerSocket == None && closedIds == {} && trace == []
    {
      cs := Disconnected;
      socket := None;
      this.host := host;
      this.port := port;
      this.ssl := ssl;
      this.hasSslContext := hasSslContext;
      this.ackTimeout := ackTimeout;
      nextSocketId := 0;
      senderSocket := None;
      handlerSocket := None;
      closedIds := {};
      trace := [];
    }

    /** is_connected? */
    predicate IsConnected()
      reads this
    {
      cs == Connected
    }

    /** do_connect: hands the socket to the handler, then polls the handler
        until connected or until the deadline; a first connection that ends
        unconnected raises, a reconnection returns the state. */
    method DoConnect(reconnection: bool, replies: seq<ConnState>) returns (r: Result<ConnState>, ghost polls: nat)
      requires Valid()
      modifies this`cs, this`handlerSocket
      ensures Valid()
      ensures handlerSocket == socket
      ensures cs == Await(old(cs), replies) && polls == Polls(old(cs), replies)
      ensures IsConnected() <==> old(cs) == Connected || Connected in replies
      ensures old(cs) == Connected ==> polls == 0
      ensures r == if IsConnected() || reconnection then Ok(cs) else Raised(ConnackTimeout)
    {
      handlerSocket := socket;
      var i := 0;
      while i < |replies| && !IsConnected()
        modifies this`cs
        invariant 0 <= i <= |replies|
        invariant Await(cs, replies[i..]) == Await(old(cs), replies)
        invariant i + Polls(cs, replies[i..]) == Polls(old(cs), replies)
        invariant old(cs) == Connected ==> i == 0
        decreases |replies| - i
      {
        assert replies[i..][1..] == replies[i + 1..];
        cs := replies[i];
        i := i + 1;
      }
      polls := i;
      AwaitConnectedIff(old(cs), replies);
      if !IsConnected() && !reconnection {
        r := Raised(ConnackTimeout);
      } else {
        r := Ok(cs);
      }
    }

    /** do_disconnect: the explicit path first runs explicit_disconnect; both
        paths close a socket not closed yet and clear `@socket`. */
    method DoDisconnect(hasPublisher: bool, explicit: bool, thread: MqttThread)
      requires Valid()
      modifies this`socket, this`trace, this`closedIds
      ensures Valid()
      ensures socket == None
      ensures closedIds == AfterClose(old(socket), old(closedIds))
      ensures trace == old(trace) + (if explicit then ExplicitEffects(thread, hasPublisher) else [])
                                  + CloseEffect(old(socket), old(closedIds))
      ensures Sent(trace) == Sent(old(trace)) + (if explicit then [DisconnectPacket] else [])
    {
      if explicit {
        ExplicitDisconnect(hasPublisher, thread);
      }
      ghost var mid := trace;
      if socket.Some? && socket.value.id !in closedIds {
        trace := trace + [SocketClosed(socket.value.id)];
        closedIds := closedIds + {socket.value.id};
      }
      socket := None;
      SentConcat(mid, CloseEffect(old(socket), old(closedIds)));
    }

    /** explicit_disconnect: flush the sender, send DISCONNECT, kill a live
        thread, flush a present publisher, in that order. */
    method ExplicitDisconnect(hasPublisher: bool, thread: MqttThread)
      modifies this`trace
      ensures trace == old(trace) + ExplicitEffects(thread, hasPublisher)
      ensures Sent(trace) == Sent(old(trace)) + [DisconnectPacket]
    {
      trace := trace + [SenderFlushed];
      SendDisconnect();
      KillThread(thread);
      FlushPublisher(hasPublisher);
      ghost var notified: seq<Effect> := [SenderFlushed, PacketSent(DisconnectPacket)];
      assert [SenderFlushed] + [PacketSent(DisconnectPacket)] == notified;
      ConcatAssoc(old(trace), [SenderFlushed], [PacketSent(DisconnectPacket)]);
      ConcatAssoc(old(trace), notified, KillEffect(thread));
      ConcatAssoc(old(trace), notified + KillEffect(thread), FlushEffect(hasPublisher));
      SentExplicitEffects(thread, hasPublisher);
      SentConcat(old(trace), ExplicitEffects(thread, hasPublisher));
    }

    /** `mqtt_thread.kill if mqtt_thread && mqtt_thread.alive?` */
    method KillThread(thread: MqttThread)
      modifies this`trace
      ensures trace == old(trace) + KillEffect(thread)
    {
      if thread.Thread? && thread.alive {
        trace := trace + [ThreadKilled];
      }
    }

    /** `publisher.flush_publisher unless publisher.nil?` */
    method FlushPublisher(hasPublisher: bool)
      modifies this`trace
      ensures trace == old(trace) + FlushEffect(hasPublisher)
    {
      if hasPublisher {
        trace := trace + [PublisherFlushed];
      }
    }

    /** setup_connection: validate the stored host and port, drop the old
        socket, open a new one, and hand it to the sender if there is one. */
    method SetupConnection(tcpOk: bool, tlsOk: bool) returns (r: Result<()>)
      requires Valid()
      modifies this`host, this`port, this`socket, this`trace, this`closedIds, this`nextSocketId, this`senderSocket
      ensures Valid()
      ensures host == old(host) && port == old(port)
      ensures r == SetupResult(old(host), old(port), ssl, hasSslContext, tcpOk, tlsOk)
      ensures trace == old(trace) + SetupEffects(ValidHost(old(host)) && ValidPort(old(port)), old(socket),
                                                 old(closedIds), old(nextSocketId), ssl, hasSslContext, tcpOk, tlsOk)
      ensures closedIds == if ValidHost(old(host)) && ValidPort(old(port)) then AfterClose(old(socket), old(closedIds))
                           else old(closedIds)
      ensures !(ValidHost(old(host)) && ValidPort(old(port))) ==>
        socket == old(socket) && nextSocketId == old(nextSocketId)
      ensures ValidHost(old(host)) && ValidPort(old(port)) ==>
        socket == OpenedSocket(old(nextSocketId), ssl, hasSslContext, tcpOk, tlsOk, None) &&
        nextSocketId == old(nextSocketId) + (if tcpOk then 1 else 0)
      ensures ssl && !hasSslContext ==> r.Raised? && (socket == None || socket == old(socket))
      ensures socket.Some? && socket != old(socket) ==>
        Other(old(socket), socket.value.id) && Other(old(senderSocket), socket.value.id) &&
        Other(handlerSocket, socket.value.id)
      ensures senderSocket == if r.Ok? && socket.Some? then socket else old(senderSocket)
    {
      r := CleanStart(host, port);
      if r.Raised? {
        return;
      }
      ghost var cleaned := trace;
      r := ConfigSocket(tcpOk, tlsOk);
      ConcatAssoc(old(trace), cleaned[|old(trace)|..], trace[|cleaned|..]);
      if r.Raised? {
        return;
      }
      if socket.Some? {
        senderSocket := socket;
      }
    }

    /** config_socket: open a TCP socket (a failure is only logged), then
        either wrap it in TLS or store it, possibly nil, in `@socket`. A
        socket newly stored is none held or handed out before. */
    method ConfigSocket(tcpOk: bool, tlsOk: bool) returns (r: Result<()>)
      requires Valid()
      modifies this`socket, this`trace, this`nextSocketId
      ensures Valid()
      ensures nextSocketId == old(nextSocketId) + (if tcpOk then 1 else 0)
      ensures trace == old(trace) + OpenEffects(old(nextSocketId), ssl, hasSslContext, tcpOk, tlsOk)
      ensures socket == OpenedSocket(old(nextSocketId), ssl, hasSslContext, tcpOk, tlsOk, old(socket))
      ensures r == OpenResult(ssl, hasSslContext, tcpOk, tlsOk)
      ensures socket.Some? && socket != old(socket) ==>
        Other(old(socket), socket.value.id) && Other(senderSocket, socket.value.id) &&
        Other(handlerSocket, socket.value.id)
    {
      var tcp: Option<Sock> := None;
      if tcpOk {
        tcp := Some(Sock(nextSocketId, Tcp));
        nextSocketId := nextSocketId + 1;
        trace := trace + [TcpOpened(tcp.value.id)];
      } else {
        trace := trace + [TcpFailed];
      }
      if ssl {
        r := EncryptedSocket(tcp, tlsOk);
      } else {
        socket := tcp;
        r := Ok(());
      }
    }

    /** encrypted_socket: a nil context raises before any TLS socket exists;
        otherwise the TLS socket is stored and then connected, which raises
        if the handshake fails. Wrapping a nil TCP socket raises too. */
    method EncryptedSocket(tcp: Option<Sock>, tlsOk: bool) returns (r: Result<()>)
      requires Valid()
      requires tcp.Some? ==> tcp.value.id < nextSocketId
      modifies this`socket, this`trace
      ensures Valid()
      ensures !hasSslContext ==> r == Raised(MissingSslContext) && socket == old(socket) && trace == old(trace)
      ensures hasSslContext && tcp.None? ==> r == Raised(TlsSocketError) && socket == old(socket) && trace == old(trace)
      ensures hasSslContext && tcp.Some? ==>
        socket == Some(Sock(tcp.value.id, Tls(tlsOk))) &&
        trace == old(trace) + [TlsConnect(tcp.value.id, tlsOk)] &&
        r == if tlsOk then Ok(()) else Raised(TlsSocketError)
    {
      if !hasSslContext {
        r := Raised(MissingSslContext);
      } else if tcp.None? {
        r := Raised(TlsSocketError);
      } else {
        socket := Some(Sock(tcp.value.id, Tls(tlsOk)));
        trace := trace + [TlsConnect(tcp.value.id, tlsOk)];
        r := if tlsOk then Ok(()) else Raised(TlsSocketError);
      }
    }

    /** clean_start: set host and port through their setters, then close
        (unless already closed) and clear any previous socket. */
    method CleanStart(newHost: Option<string>, newPort: PortValue) returns (r: Result<()>)
      requires Valid()
      modifies this`host, this`port, this`socket, this`trace, this`closedIds
      ensures Valid()
      ensures r == if !ValidHost(newHost) then Raised(InvalidHost)
                   else if !ValidPort(newPort) then Raised(InvalidPort)
                   else Ok(())
      ensures host == if ValidHost(newHost) then newHost else old(host)
      ensures port == if r.Ok? then newPort else old(port)
      ensures socket == if r.Ok? then None else old(socket)
      ensures closedIds == if r.Ok? then AfterClose(old(socket), old(closedIds)) else old(closedIds)
      ensures trace == if r.Ok? then old(trace) + CloseEffect(old(socket), old(closedIds)) else old(trace)
    {
      r := SetHost(newHost);
      if r.Raised? {
        return;
      }
      r := SetPort(newPort);
      if r.Raised? {
        return;
      }
      assert ValidHost(newHost) && ValidPort(newPort);
      if socket.Some? {
        if socket.value.id !in closedIds {
          trace := trace + [SocketClosed(socket.value.id)];
          closedIds := closedIds + {socket.value.id};
        }
        socket := None;
      }
    }

    /** host=: nil and "" raise and leave the host as it was. */
    method SetHost(newHost: Option<string>) returns (r: Result<()>)
      modifies this`host
      ensures r == if ValidHost(newHost) then Ok(()) else Raised(InvalidHost)
      ensures host == if ValidHost(newHost) then newHost else old(host)
    {
      if newHost.None? || newHost.value == "" {
        r := Raised(InvalidHost);
      } else {
        host := newHost;
        r := Ok(());
      }
    }

    /** port=: a value whose to_i is not positive raises and leaves the port
        as it was; otherwise the value itself, not its to_i, is stored. */
    method SetPort(newPort: PortValue) returns (r: Result<()>)
      modifies this`port
      ensures r == if ValidPort(newPort) then Ok(()) else Raised(InvalidPort)
      ensures port == if ValidPort(newPort) then newPort else old(port)
    {
      if ToI(newPort) <= 0 {
        r := Raised(InvalidPort);
      } else {
        port := newPort;
        r := Ok(());
      }
    }

    /** send_connect: set the connection up, tell the handler the
        clean-session flag, then hand a CONNECT packet to the sender. An
        exception from the setup propagates and nothing is sent. */
    method SendConnect(cleanSession: bool, tcpOk: bool, tlsOk: bool) returns (r: Result<()>)
      requires Valid()
      modifies this`host, this`port, this`socket, this`trace, this`closedIds, this`nextSocketId, this`senderSocket
      ensures Valid()
      ensures host == old(host) && port == old(port)
      ensures r == SetupResult(old(host), old(port), ssl, hasSslContext, tcpOk, tlsOk)
      ensures trace == old(trace) + SetupEffects(ValidHost(old(host)) && ValidPort(old(port)), old(socket),
                                                 old(closedIds), old(nextSocketId), ssl, hasSslContext, tcpOk, tlsOk)
                                   + (if r.Ok? then [CleanSessionSet(cleanSession), PacketSent(ConnectPacket)] else [])
      ensures closedIds == if ValidHost(old(host)) && ValidPort(old(port)) then AfterClose(old(socket), old(closedIds))
                           else old(closedIds)
      ensures !(ValidHost(old(host)) && ValidPort(old(port))) ==>
        socket == old(socket) && nextSocketId == old(nextSocketId)
      ensures ValidHost(old(host)) && ValidPort(old(port)) ==>
        socket == OpenedSocket(old(nextSocketId), ssl, hasSslContext, tcpOk, tlsOk, None) &&
        nextSocketId == old(nextSocketId) + (if tcpOk then 1 else 0)
      ensures Sent(trace) == Sent(old(trace)) + (if r.Ok? then [ConnectPacket] else [])
      ensures senderSocket == if r.Ok? && socket.Some? then socket else old(senderSocket)
    {
      ghost var valid, before, closed, id := ValidHost(host) && ValidPort(port), socket, closedIds, nextSocketId;
      r := SetupConnection(tcpOk, tlsOk);
      ghost var setup := SetupEffects(valid, before, closed, id, ssl, hasSslContext, tcpOk, tlsOk);
      assert trace == old(trace) + setup;
      SetupSendsNothing(valid, before, closed, id, ssl, hasSslContext, tcpOk, tlsOk);
      if r.Raised? {
        SentAfter(old(trace), setup, []);
        return;
      }
      assert valid;
      NotifyAndSend(cleanSession);
      SentAfter(old(trace), setup, [CleanSessionSet(cleanSession), PacketSent(ConnectPacket)]);
      SentConnect(cleanSession);
    }

    /** `@handler.clean_session = clean_session`, then
        `@sender.send_packet(packet)` with the CONNECT packet. */
    method NotifyAndSend(cleanSession: bool)
      modifies this`trace
      ensures trace == old(trace) + [CleanSessionSet(cleanSession), PacketSent(ConnectPacket)]
    {
      trace := trace + [CleanSessionSet(cleanSession), PacketSent(ConnectPacket)];
    }

    /** send_disconnect: hand a DISCONNECT packet to the sender. */
    method SendDisconnect()
      modifies this`trace
      ensures trace == old(trace) + [PacketSent(DisconnectPacket)]
      ensures Sent(trace) == Sent(old(trace)) + [DisconnectPacket]
    {
      trace := trace + [PacketSent(DisconnectPacket)];
      SentConcat(old(trace), [PacketSent(DisconnectPacket)]);
    }

    /** send_pingreq: hand a PINGREQ packet to the sender. */
    method SendPingreq()
      modifies this`trace
      ensures trace == old(trace) + [PacketSent(PingreqPacket)]
      ensures Sent(trace) == Sent(old(trace)) + [PingreqPacket]
    {
      trace := trace + [PacketSent(PingreqPacket)];
      SentConcat(old(trace), [PacketSent(PingreqPacket)]);
    }

    /** check_keep_alive at time `now`: a PINGREQ is due when the session is
        persistent and `reqOffset(keepAlive)` has passed since the last
        request; the connection is dropped when `respOffset(keepAlive)` has
        passed since the last response. The two checks are independent. The
        offsets stand for the ceilings of 0.7 and 1.1 times the interval. */
    method CheckKeepAlive(persistent: bool, lastPingReq: int, lastPingResp: int, keepAlive: int, now: int,
                          reqOffset: int -> int, respOffset: int -> int) returns (r: ConnState)
      requires Valid()
      modifies this`cs, this`trace
      ensures Valid()
      ensures trace == old(trace) +
        (if persistent && lastPingReq + reqOffset(keepAlive) <= now then [PacketSent(PingreqPacket)] else [])
      ensures Sent(trace) == Sent(old(trace)) +
        (if persistent && lastPingReq + reqOffset(keepAlive) <= now then [PingreqPacket] else [])
      ensures cs == if lastPingResp + respOffset(keepAlive) <= now then Disconnected else old(cs)
      ensures r == cs
    {
      var timeoutReq := lastPingReq + reqOffset(keepAlive);
      if timeoutReq <= now && persistent {
        SendPingreq();
      }
      var timeoutResp := lastPingResp + respOffset(keepAlive);
      if timeoutResp <= now {
        cs := Disconnected;
      }
      r := cs;
    }
  }

  /** Disconnecting twice leaves no socket and the socket closed once. The
      explicit path flushes and sends DISCONNECT again on the second call; on
      the implicit path the second call does nothing at all. */
  method DisconnectTwice(h: ConnectionHelper, hasPublisher: bool, explicit: bool, thread: MqttThread)
    requires h.Valid()
    modifies h`socket, h`trace, h`closedIds
    ensures h.Valid()
    ensures h.socket == None && h.closedIds == AfterClose(old(h.socket), old(h.closedIds))
    ensures h.trace == old(h.trace) + (if explicit then ExplicitEffects(thread, hasPublisher) else [])
                                    + CloseEffect(old(h.socket), old(h.closedIds))
                                    + (if explicit then ExplicitEffects(thread, hasPublisher) else [])
    ensures Sent(h.trace) == Sent(old(h.trace)) + (if explicit then [DisconnectPacket, DisconnectPacket] else [])
  {
    h.DoDisconnect(hasPublisher, explicit, thread);
    h.DoDisconnect(hasPublisher, explicit, thread);
  }

  /** When the plain TCP open fails, send_connect still succeeds and sends
      CONNECT, while `@socket` is nil and the sender still holds its old
      socket, which setup has just closed. */
  method ConnectAfterSwallowedFailure(h: ConnectionHelper, s: Sock, cleanSession: bool) returns (r: Result<()>)
    requires h.Valid()
    requires !h.ssl && ValidHost(h.host) && ValidPort(h.port)
    requires h.socket == Some(s) && h.senderSocket == Some(s) && s.id !in h.closedIds
    modifies h`host, h`port, h`socket, h`trace, h`closedIds, h`nextSocketId, h`senderSocket
    ensures r == Ok(())
    ensures h.socket == None && h.senderSocket == Some(s) && s.id in h.closedIds
    ensures h.trace == old(h.trace) + [SocketClosed(s.id), TcpFailed, CleanSessionSet(cleanSession), PacketSent(ConnectPacket)]
  {
    r := h.SendConnect(cleanSession, false, false);
  }

  /** With a keep-alive interval of 10 whose offsets are 7 and 12 (the
      double-precision ceilings of 0.7 * 10 and 1.1 * 10), a request 8 and a
      response 5 time units ago give a PINGREQ and keep the state. */
  method KeepAlivePingOnly(h: ConnectionHelper, now: int, reqOffset: int -> int, respOffset: int -> int)
    requires h.Valid()
    requires reqOffset(10) == 7 && respOffset(10) == 12
    modifies h`cs, h`trace
    ensures h.cs == old(h.cs)
    ensures h.trace == old(h.trace) + [PacketSent(PingreqPacket)]
  {
    var r := h.CheckKeepAlive(true, now - 8, now - 5, 10, now, reqOffset, respOffset);
  }

  /** With the same offsets, a request and a response 12 units ago give a
      PINGREQ and a drop to Disconnected in the same call. */
  method KeepAlivePingAndDrop(h: ConnectionHelper, now: int, reqOffset: int -> int, respOffset: int -> int)
    requires h.Valid()
    requires reqOffset(10) == 7 && respOffset(10) == 12
    modifies h`cs, h`trace
    ensures h.cs == Disconnected
    ensures h.trace == old(h.trace) + [PacketSent(PingreqPacket)]
  {
    var r := h.CheckKeepAlive(true, now - 12, now - 12, 10, now, reqOffset, respOffset);
  }
}
