/**
 * The signaling broker: the nested `handler` of `start_signaling_server`
 * (webrtc_wrapper.py:65-106) over the shared `clients` and `message_queue`
 * maps (webrtc_wrapper.py:35-37).
 *
 * Each handler event is taken as one atomic step of a pure state machine that
 * also yields the messages the step sends. Channels are opaque ids; the model
 * has no action that closes a channel: the handler never closes a superseded one,
 * and the connection a refused declaration ends on is closed by the server.
 */
module Broker {
  import opened Wrappers
  import opened Roles

  /** An opaque id of one WebSocket connection. */
  type Channel = nat

  /** The reply a channel gets when its first message is not a role token. */
  const INVALID_ROLE: string := "Invalid role"

  /**
   * The broker's shared state, keyed by role token as in the source:
   * `clients` maps a role to its bound channel, if any, and `queues` maps a
   * role to the messages waiting for it, oldest first.
   */
  datatype State = State(clients: map<string, Option<Channel>>, queues: map<string, seq<string>>)

  /** One send the broker performs on a channel. */
  datatype Send =
    | Reject(chan: Channel)                          // the "Invalid role" reply
    | Forward(chan: Channel, to: Role, msg: string)  // a message handed to the channel taken from slot `to`
  {
    /** The text that goes over the channel. */
    function Text(): string {
      match this
      case Reject(_) => INVALID_ROLE
      case Forward(_, _, m) => m
    }
  }

  /** What one handler step observes: a message on a channel, or the channel's closure. */
  datatype Event =
    | Declare(chan: Channel, text: string)          // the first message on a channel
    | Relay(chan: Channel, from: Role, msg: string)  // a later message on a channel declared as `from`
    | Disconnect(chan: Channel, role: Role)         // ConnectionClosed in a handler declared as `role`

  /** The state after a step together with the sends it performed, in order. */
  datatype Outcome = Outcome(next: State, sends: seq<Send>)

  /** Both maps have exactly the two role tokens as keys. */
  predicate WellKeyed(b: State) {
    b.clients.Keys == RoleNames && b.queues.Keys == RoleNames
  }

  /** The channel bound to role `r`, if any. */
  function Slot(b: State, r: Role): Option<Channel>
    requires WellKeyed(b)
  {
    b.clients[Name(r)]
  }

  /** The messages waiting for role `r`, oldest first. */
  function Queue(b: State, r: Role): seq<string>
    requires WellKeyed(b)
  {
    b.queues[Name(r)]
  }

  /** A role's queue holds messages only while its slot is unbound. */
  predicate QueuedOnlyWhileUnbound(b: State, r: Role)
    requires WellKeyed(b)
  {
    Queue(b, r) != [] ==> Slot(b, r) == None
  }

  /** The broker invariant: the fixed key sets, and queue-iff-unbound for both roles. */
  predicate Inv(b: State) {
    && WellKeyed(b)
    && QueuedOnlyWhileUnbound(b, Sender)
    && QueuedOnlyWhileUnbound(b, Receiver)
  }

  /** Under the invariant, a bound role has nothing waiting. */
  lemma BoundQueueEmpty(b: State, r: Role)
    requires Inv(b) && Slot(b, r).Some?
    ensures Queue(b, r) == []
  {
    assert QueuedOnlyWhileUnbound(b, r) by {
      if r == Sender {} else {}
    }
  }

  /** The state `__init__` creates: no channel bound, nothing queued (webrtc_wrapper.py:35-37). */
  function Init(): (b: State)
    ensures Inv(b)
    ensures forall r: Role :: Slot(b, r) == None && Queue(b, r) == []
  {
    State(map[SENDER := None, RECEIVER := None], map[SENDER := [], RECEIVER := []])
  }

  /** The sends of a drain: every queued message, in queue order, to channel `chan` as role `to`. */
  function Deliveries(chan: Channel, to: Role, q: seq<string>): (d: seq<Send>)
    ensures |d| == |q|
    ensures forall i :: 0 <= i < |q| ==> d[i] == Forward(chan, to, q[i])
  {
    if q == [] then [] else [Forward(chan, to, q[0])] + Deliveries(chan, to, q[1..])
  }

  /**
   * The drain loop run when a role is bound (webrtc_wrapper.py:86-87): pop the
   * head of the queue and send it on the new channel until the queue is empty.
   */
  method Drain(chan: Channel, to: Role, queue: seq<string>) returns (sent: seq<Send>, rest: seq<string>)
    ensures rest == []
    ensures sent == Deliveries(chan, to, queue)
    ensures |sent| == |queue|
    ensures forall i :: 0 <= i < |queue| ==> sent[i] == Forward(chan, to, queue[i])
  {
    sent := [];
    rest := queue;
    while rest != []
      invariant |sent| + |rest| == |queue|
      invariant rest == queue[|sent|..]
      invariant forall i :: 0 <= i < |sent| ==> sent[i] == Forward(chan, to, queue[i])
      decreases |rest|
    {
      sent := sent + [Forward(chan, to, rest[0])];
      rest := rest[1..];
    }
  }

  /**
   * The first message on a channel (webrtc_wrapper.py:74-87). A text that is
   * not a role token gets the reply "Invalid role" and nothing else changes.
   * A role token binds its slot to the channel, overwriting any earlier
   * binding without closing it, and drains that role's queue to the channel.
   */
  function OnDeclare(b: State, chan: Channel, text: string): (o: Outcome)
    requires WellKeyed(b)
    ensures WellKeyed(o.next)
    ensures text !in RoleNames ==> o.next == b && o.sends == [Reject(chan)]
    ensures text in RoleNames ==>
      var r := ParseRole(text).value;
      && Slot(o.next, r) == Some(chan)
      && Slot(o.next, Opposite(r)) == Slot(b, Opposite(r))
      && Queue(o.next, r) == []
      && Queue(o.next, Opposite(r)) == Queue(b, Opposite(r))
      && |o.sends| == |Queue(b, r)|
      && (forall i :: 0 <= i < |o.sends| ==> o.sends[i] == Forward(chan, r, Queue(b, r)[i]))
  {
    match ParseRole(text)
    case None => Outcome(b, [Reject(chan)])
    case Some(r) =>
      Outcome(State(b.clients[text := Some(chan)], b.queues[text := []]),
              Deliveries(chan, r, Queue(b, r)))
  }

  /**
   * A later message on a channel declared as `from` (webrtc_wrapper.py:90-101):
   * it goes to the opposite role, sent at once when that slot is bound and
   * appended to that role's queue otherwise.
   */
  function OnRelay(b: State, from: Role, msg: string): (o: Outcome)
    requires WellKeyed(b)
    ensures WellKeyed(o.next)
    ensures o.next.clients == b.clients
    ensures Queue(o.next, from) == Queue(b, from)
    ensures Slot(b, Opposite(from)).Some? ==>
      o.next == b && o.sends == [Forward(Slot(b, Opposite(from)).value, Opposite(from), msg)]
    ensures Slot(b, Opposite(from)).None? ==>
      o.sends == [] && Queue(o.next, Opposite(from)) == Queue(b, Opposite(from)) + [msg]
  {
    var target := Opposite(from);
    match Slot(b, target)
    case Some(c) => Outcome(b, [Forward(c, target, msg)])
    case None => Outcome(b.(queues := b.queues[Name(target) := Queue(b, target) + [msg]]), [])
  }

  /**
   * ConnectionClosed in a handler declared as `role` (webrtc_wrapper.py:103-106):
   * the role's slot is cleared, whichever channel the handler was serving.
   */
  function OnDisconnect(b: State, role: Role): (o: Outcome)
    requires WellKeyed(b)
    ensures WellKeyed(o.next)
    ensures Slot(o.next, role) == None
    ensures Slot(o.next, Opposite(role)) == Slot(b, Opposite(role))
    ensures o.next.queues == b.queues
    ensures o.sends == []
  {
    Outcome(b.(clients := b.clients[Name(role) := None]), [])
  }

  /** One atomic handler step. */
  function Step(b: State, e: Event): (o: Outcome)
    requires WellKeyed(b)
    ensures WellKeyed(o.next)
    ensures Inv(b) ==> Inv(o.next)
    // every forwarded message goes to the channel its target slot holds after the step
    ensures forall s :: s in o.sends && s.Forward? ==> Slot(o.next, s.to) == Some(s.chan)
  {
    match e
    case Declare(chan, text) => OnDeclare(b, chan, text)
    case Relay(_, from, msg) => OnRelay(b, from, msg)
    case Disconnect(_, role) => OnDisconnect(b, role)
  }
}
