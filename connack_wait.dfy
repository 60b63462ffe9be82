/**
 * The wait for a CONNACK in do_connect, as functions of the state before the
 * wait and of the receiver's results. The clock is abstract: `replies` holds
 * what the handler's receive_packet returns at each poll the deadline still
 * admits, in order, so the deadline passes when `replies` is used up.
 */
module ConnackWait {
  import opened MqttTypes

  /** The connection state when the wait loop ends: the loop stops as soon as
      the state is Connected, and otherwise when the deadline has passed.
      The final state is the one before the wait or one the receiver returned,
      and a connection already established stays so. */
  function Await(cs: ConnState, replies: seq<ConnState>): (r: ConnState)
    ensures r == cs || r in replies
    ensures cs == Connected ==> r == Connected
    decreases |replies|
  {
    if cs == Connected || replies == [] then cs else Await(replies[0], replies[1..])
  }

  /** How many times the wait loop calls the receiver. */
  function Polls(cs: ConnState, replies: seq<ConnState>): (n: nat)
    ensures n <= |replies|
    ensures cs == Connected ==> n == 0
    decreases |replies|
  {
    if cs == Connected || replies == [] then 0 else 1 + Polls(replies[0], replies[1..])
  }

  /** The wait ends connected exactly when the state already was Connected or
      some poll before the deadline returned Connected. */
  lemma {:induction false} AwaitConnectedIff(cs: ConnState, replies: seq<ConnState>)
    ensures Await(cs, replies) == Connected <==> cs == Connected || Connected in replies
    decreases |replies|
  {
    if cs != Connected && replies != [] {
      assert replies == [replies[0]] + replies[1..];
      AwaitConnectedIff(replies[0], replies[1..]);
    }
  }

  /** When not yet connected, the loop stops right after the first poll that
      returns Connected, and polls no further. */
  lemma {:induction false} AwaitStopsAtFirstConnected(cs: ConnState, replies: seq<ConnState>, k: nat)
    requires cs != Connected
    requires k < |replies| && replies[k] == Connected
    requires forall j :: 0 <= j < k ==> replies[j] != Connected
    ensures Await(cs, replies) == Connected
    ensures Polls(cs, replies) == k + 1
    decreases k
  {
    if k > 0 {
      assert replies[0] != Connected;
      forall j | 0 <= j < k - 1
        ensures replies[1..][j] != Connected
      {
        assert replies[1..][j] == replies[j + 1];
      }
      AwaitStopsAtFirstConnected(replies[0], replies[1..], k - 1);
    }
  }

  /** When no poll returns Connected, the loop polls until the deadline and
      ends disconnected. */
  lemma {:induction false} AwaitTimesOut(cs: ConnState, replies: seq<ConnState>)
    requires cs != Connected && Connected !in replies
    ensures Polls(cs, replies) == |replies|
    ensures Await(cs, replies) == Disconnected
    decreases |replies|
  {
    if replies != [] {
      assert replies == [replies[0]] + replies[1..];
      AwaitTimesOut(replies[0], replies[1..]);
    }
  }
}
