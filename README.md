# Connection lifecycle of the paho MQTT Ruby client, in Dafny

This project models `PahoMqtt::ConnectionHelper`, the connection-lifecycle
state machine of the paho MQTT Ruby client. The helper does five things:

- it validates and stores the broker's host and port;
- it closes any old socket and opens a TCP socket, wrapped in TLS when asked;
- it sends CONNECT and then waits, until a deadline, for the handler to report
  the connection as established;
- it runs the keep-alive check: send a PINGREQ when one is due, and drop the
  connection state when the broker has been silent too long;
- it tears the connection down, explicitly (call the sender's
  `flush_waiting_packet`, send DISCONNECT, kill the thread, call the
  publisher's `flush_publisher`) or implicitly (just release the socket).

The model is a Dafny class, `PahoMqtt.ConnectionHelper`. Its fields are the
Ruby object's: `cs`, `socket`, `host`, `port`, `ssl`, whether there is an SSL
context, and `ackTimeout`. One more field, `nextSocketId`, has no Ruby
counterpart: it is the counter that gives each socket opened its identity. The
collaborators (the packet sender, the packet
handler, the publisher and the background thread) are abstract. The class
sees them only through four ghost fields:

- `trace`: every effect on the network and on the collaborators, in order. It
  records sockets opened and closed, TLS handshakes, packets handed to the
  sender, the calls of `flush_waiting_packet` and `flush_publisher`, and
  thread kills. `MqttTypes.Sent(trace)` is the log of
  packets sent.
- `senderSocket`: the socket this helper last handed to the sender.
- `handlerSocket`: the socket this helper last handed to the handler. It
  starts as `None` because the helper has handed none yet; whatever the
  handler passed to the constructor already held is not modelled.
- `closedIds`: the identities of the sockets closed so far.

A socket is a value `Sock(id, transport)`, and `socket`, `senderSocket` and
`handlerSocket` hold `Option<Sock>`, nil being `None`. The `id` stands for the
identity of the Ruby object. In Ruby the three references share one object, so
whether a socket is closed belongs to that object: it is `id in closedIds`,
and closing `@socket` closes what the sender and the handler hold too.
`Valid()` keeps every id held below `nextSocketId`. `ConfigSocket` and
`SetupConnection` state that a socket they newly store is none of the sockets
held by the helper, the sender or the handler before. Exceptions become
`Result.Raised(error)`. The state changes made before a raise are kept, as they
are in Ruby.

Files:

- `mqtt_types.dfy`: connection states, sockets, packet tags, the effect log,
  errors, and `Sent` with its lemmas.
- `ruby_coercion.dfy`: `port.to_i` for Integer, String and nil ports.
- `connack_wait.dfy`: the CONNACK wait loop as the functions `Await` and
  `Polls`, with lemmas about where it stops.
- `connection_helper.dfy`: the class, and two client methods that state
  properties of call sequences.

Behaviour of the Ruby code worth knowing:

- `do_disconnect` does not set `@cs` to DISCONNECT. `DoDisconnect` does not
  have `cs` in its frame.
- With TLS on and no SSL context, `config_socket` opens the TCP connection
  first and only then raises in `encrypted_socket`. It never stores or closes
  that socket: it leaks. `ConfigSocket` records the `TcpOpened` effect before
  the `MissingSslContext` error.
- On the plain path a failed TCP open is only logged. `@socket` becomes nil,
  `setup_connection` returns normally and `send_connect` still hands CONNECT
  to the sender. The sender keeps the socket it had, which `clean_start` has
  just closed. `ConnectAfterSwallowedFailure` states this.
- An explicit disconnect repeated calls `flush_waiting_packet` and sends
  DISCONNECT again; only the socket close happens once. `DisconnectTwice` states this.
- There is no "connecting" state in this file. The constructor does not
  validate host or port; `setup_connection` validates the stored values.
- The explicit disconnect sends DISCONNECT even when no socket is held.

Only `DoConnect` can make the state Connected, and only from a receiver result.
`CheckKeepAlive` can only lower the state to Disconnected. No other method has
`cs` in its frame.

## Model

| member | source | states |
|---|---|---|
| `PahoMqtt.ConnectionHelper.constructor` | lib/paho_mqtt/connection_helper.rb:8-18 | starts disconnected with no socket; the host, port, TLS flag, context presence and ack timeout are stored as given, unvalidated; nothing has been sent or handed out |
| `PahoMqtt.ConnectionHelper.DoConnect` | lib/paho_mqtt/connection_helper.rb:20-33 | the handler gets the current socket. The final state is the loop's result `Await(old cs, replies)` after `Polls(old cs, replies)` receiver calls, and it is Connected iff it already was or some poll before the deadline returned Connected. Already connected means no poll at all. When it ends unconnected it raises exactly when `reconnection` is false; otherwise it returns the state. |
| `PahoMqtt.ConnectionHelper.IsConnected` | lib/paho_mqtt/connection_helper.rb:35-37 | the connection counts as connected exactly when the state is Connected |
| `ConnackWait.Await` | lib/paho_mqtt/connection_helper.rb:24-27 | the state the wait loop ends in is the state before it or one the receiver returned, and a connection already established stays established |
| `ConnackWait.Polls` | lib/paho_mqtt/connection_helper.rb:24-27 | the loop never polls more often than the deadline admits, and does not poll at all when already connected |
| `ConnackWait.AwaitConnectedIff` | lib/paho_mqtt/connection_helper.rb:24-28 | the wait ends connected iff the state was Connected before it or some receiver result before the deadline was Connected |
| `ConnackWait.AwaitStopsAtFirstConnected` | lib/paho_mqtt/connection_helper.rb:24-27 | starting unconnected, if poll k is the first to return Connected, the loop stops after exactly k+1 polls and the state is Connected |
| `ConnackWait.AwaitTimesOut` | lib/paho_mqtt/connection_helper.rb:24-28 | starting unconnected, with no Connected result, the loop polls until the deadline (every admitted poll) and ends Disconnected |
| `PahoMqtt.ConnectionHelper.DoDisconnect` | lib/paho_mqtt/connection_helper.rb:39-46 | on both paths the socket is cleared, and a socket not closed yet is closed (its identity joins the closed ones), after the explicit steps. The log grows by the explicit steps only when `explicit` holds. Exactly one DISCONNECT is sent when explicit and no packet otherwise. `cs` is outside the frame. |
| `PahoMqtt.DisconnectTwice` | lib/paho_mqtt/connection_helper.rb:39-46 | calling do_disconnect twice closes the socket once and leaves none. On the explicit path the log holds the explicit steps, the close, then the explicit steps again, so two DISCONNECT packets are sent; on the implicit path the second call adds nothing. Only the socket, the log and the closed sockets change. |
| `PahoMqtt.ConnectionHelper.ExplicitDisconnect` | lib/paho_mqtt/connection_helper.rb:48-53 | the log grows by exactly: the sender's `flush_waiting_packet`, DISCONNECT, a thread kill only if a thread is present and alive, the publisher's `flush_publisher` only if a publisher is present, in that order; the packet log grows by exactly one DISCONNECT |
| `PahoMqtt.SentExplicitEffects` | lib/paho_mqtt/connection_helper.rb:48-53 | the explicit steps hand exactly one packet, DISCONNECT, to the sender, whatever the thread and publisher are |
| `PahoMqtt.ConnectionHelper.KillThread` | lib/paho_mqtt/connection_helper.rb:51 | the thread is killed exactly when it is present and alive |
| `PahoMqtt.ConnectionHelper.FlushPublisher` | lib/paho_mqtt/connection_helper.rb:52 | `flush_publisher` is called exactly when the publisher is not nil |
| `PahoMqtt.ConnectionHelper.SetupConnection` | lib/paho_mqtt/connection_helper.rb:55-61 | an invalid stored host or port raises with the socket, the log and the id counter untouched (validation comes first). Otherwise the log grows by the close of an old socket not closed yet followed by the open effects, the old socket counts as closed, and the socket is the newly opened one or nil, never one held or handed out before. Host and port keep their values. TLS without a context raises and assigns no TLS socket. The sender gets the new socket only on success and only if it is not nil. |
| `PahoMqtt.SetupSendsNothing` | lib/paho_mqtt/connection_helper.rb:55-95 | setting up the connection, on any path, hands no packet to the sender |
| `PahoMqtt.ConnectionHelper.ConfigSocket` | lib/paho_mqtt/connection_helper.rb:63-75 | a TCP open is always attempted first. Without TLS, a failure is swallowed and the socket becomes nil. With TLS and no context it raises `MissingSslContext` after the TCP open, leaving the socket as it was. With TLS, a context and a TCP socket, the TLS socket is stored, then connected, and it raises if the handshake fails. A failed TCP open on the TLS path raises. A socket newly stored is none of the sockets held by the helper, the sender or the handler before. |
| `PahoMqtt.ConnectionHelper.EncryptedSocket` | lib/paho_mqtt/connection_helper.rb:77-86 | a nil context raises with no socket assigned and nothing done. A nil TCP socket raises the same way. Otherwise the TLS socket over that TCP socket is stored before the handshake, and the call raises exactly when the handshake fails. The `requires` only says the TCP socket is one this helper opened. |
| `PahoMqtt.ConnectionHelper.CleanStart` | lib/paho_mqtt/connection_helper.rb:88-95 | the host is validated first, then the port, and the first invalid one raises. A valid host is set even when the port then fails. Only when both are valid is the socket closed, unless already closed, and cleared. |
| `PahoMqtt.ConnectionHelper.SetHost` | lib/paho_mqtt/connection_helper.rb:97-104 | nil or "" raises and leaves the host unchanged; anything else becomes the host |
| `PahoMqtt.ConnectionHelper.SetPort` | lib/paho_mqtt/connection_helper.rb:106-113 | a value whose to_i is at most 0 raises and leaves the port unchanged; otherwise the value itself, not its to_i, is stored |
| `RubyCoercion.StringToI` | lib/paho_mqtt/connection_helper.rb:107 | String#to_i in base 10 (white space, sign, optional `0d` prefix, leading digits): the result is negative only after a leading minus sign, and never positive after one |
| `RubyCoercion.DecimalPrefixExample` | lib/paho_mqtt/connection_helper.rb:107 | `"0d1883".to_i` is 1883: the radix prefix is skipped, so `port=` accepts that string |
| `RubyCoercion.StringPortPositive` | lib/paho_mqtt/connection_helper.rb:107 | a string port passes `to_i > 0` exactly when, after leading white space, it has no minus sign and the digits after an optional plus sign and an optional `0d` prefix are not all zeros |
| `RubyCoercion.PortPositive` | lib/paho_mqtt/connection_helper.rb:107 | `port.to_i` is positive exactly for a positive Integer or an accepted String, and never for nil |
| `RubyCoercion.DecimalValuePositive` | lib/paho_mqtt/connection_helper.rb:107 | a digit string denotes a positive number exactly when one of its digits is not 0 |
| `PahoMqtt.ConnectionHelper.SendConnect` | lib/paho_mqtt/connection_helper.rb:115-133 | the result is the setup's. On success the log grows by the setup effects, then the handler is told the clean-session flag, then CONNECT is sent, and exactly one CONNECT is added to the packet log. When setup raises, no packet is sent. An invalid stored host or port leaves the socket and the id counter as they were; otherwise the old socket counts as closed, the socket is the newly opened one or nil (the TLS socket even when its handshake fails), and the counter grows by one exactly when the TCP open succeeds. |
| `PahoMqtt.ConnectionHelper.NotifyAndSend` | lib/paho_mqtt/connection_helper.rb:130-131 | the handler is told the clean-session flag, then CONNECT is handed to the sender, and nothing else happens |
| `PahoMqtt.SentConnect` | lib/paho_mqtt/connection_helper.rb:130-131 | those two steps hand exactly one packet, CONNECT, to the sender |
| `PahoMqtt.ConnectAfterSwallowedFailure` | lib/paho_mqtt/connection_helper.rb:55-95 | when the plain TCP open fails, send_connect returns success: the old socket is closed, the socket is nil, and CONNECT is sent while the sender still holds the old socket, now closed |
| `PahoMqtt.ConnectionHelper.SendDisconnect` | lib/paho_mqtt/connection_helper.rb:135-139 | exactly one DISCONNECT is handed to the sender, and nothing else happens |
| `PahoMqtt.ConnectionHelper.SendPingreq` | lib/paho_mqtt/connection_helper.rb:141-145 | exactly one PINGREQ is handed to the sender, and nothing else happens |
| `PahoMqtt.ConnectionHelper.CheckKeepAlive` | lib/paho_mqtt/connection_helper.rb:147-160 | exactly one PINGREQ is sent when the session is persistent and `lastPingReq + reqOffset(keepAlive) <= now`; otherwise nothing is sent. The state becomes Disconnected exactly when `lastPingResp + respOffset(keepAlive) <= now`, whatever `persistent` is, and otherwise stays as it was. The two checks are independent, so both can fire in one call. The call returns the resulting state. |
| `PahoMqtt.KeepAlivePingOnly` | lib/paho_mqtt/connection_helper.rb:147-160 | with offsets 7 and 12 for an interval of 10, a last request 8 and a last response 5 units ago send one PINGREQ and keep the state |
| `PahoMqtt.KeepAlivePingAndDrop` | lib/paho_mqtt/connection_helper.rb:147-160 | with the same offsets, a last request and a last response 12 units ago send one PINGREQ and drop the state to Disconnected in the same call |
| `MqttTypes.SentConcat` | lib/paho_mqtt/connection_helper.rb:131 | the packets sent by two stretches of activity are those of the first followed by those of the second |

## Left out

- Real sockets and TLS (lines 66, 79-81). Whether the TCP open and the TLS
  handshake succeed is given by the parameters `tcpOk` and `tlsOk`.
  `sync_close` is represented by the TLS socket keeping the TCP socket's
  identity.
- Wrapping a nil TCP socket in TLS (line 79, after a failed TCP open) is
  modelled as raising before `@socket` is assigned. Whether `SSLSocket.new`
  or its `connect` raises depends on the OpenSSL binding, which is not part
  of this model.
- The clock and `sleep` of the wait loop (lines 23-26). The receiver's results
  are a sequence with one entry per poll before the deadline, so `ackTimeout`
  matters only through its length. Time stamps in `CheckKeepAlive` are
  integers.
- `(keep_alive * 0.7).ceil` and `(keep_alive * 1.1).ceil`
  (lines 149, 154): floating point. They are the function parameters
  `reqOffset` and `respOffset`, supplied by the caller.
- `Thread#kill` and all concurrency (line 51): only the `ThreadKilled`
  effect is recorded.
- The logger calls: diagnostics only.
- Building the CONNECT, DISCONNECT and PINGREQ packets (lines 118-129, 136,
  142): packets are tags. `SendConnect` takes only the clean-session flag.
  The other CONNECT fields (version, keep-alive, client id, credentials, will)
  only feed the packet, and byte encoding is not part of this model.
- The return value `MQTT_ERR_SUCCESS` of the `send_*` methods.
  `SendDisconnect` and `SendPingreq` return nothing; `SendConnect` returns
  `Ok(())`.
- The internals of the sender, handler and publisher. This covers
  `send_packet`, `receive_packet`, `flush_waiting_packet`, `flush_publisher`,
  `@sender.last_ping_req` and failures inside them. `lastPingReq` is a
  parameter of `CheckKeepAlive`. The `sender` accessor (line 6) and the
  constructor's `Sender.new` are represented by `senderSocket` only.
- The distinction between Ruby's `ArgumentError` and `Exception`: both are
  `Error` tags.
- Connection states other than DISCONNECT and CONNECTED that the handler
  might return. The wait loop treats every non-connected value alike.
- `RubyCoercion.StringToI` does not model underscores between digits
  (`"1_883".to_i` is 1883 in Ruby). A port given as a String with
  underscores may be treated differently from Ruby.
- Ports given as Floats or other objects responding to `to_i`, and hosts that
  are not Strings, are not modelled.
