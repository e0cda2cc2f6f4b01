/**
 * Runs of the broker over a sequence of atomic events, and the per-role
 * delivery order they guarantee. Events are atomic here; nothing below is a
 * claim about handlers that interleave at their await points.
 */
module Traces {
  import opened Wrappers
  import opened Roles
  import opened Broker

  /** The state reached and all sends performed, in order, by a run of events. */
  function Run(b: State, evs: seq<Event>): (o: Outcome)
    requires WellKeyed(b)
    ensures WellKeyed(o.next)
    ensures Inv(b) ==> Inv(o.next)
    decreases |evs|
  {
    if evs == [] then Outcome(b, [])
    else
      var first := Step(b, evs[0]);
      var rest := Run(first.next, evs[1..]);
      Outcome(rest.next, first.sends + rest.sends)
  }

  /** The messages a send log hands to role `r`'s channel, in send order. */
  function DeliveredTo(sends: seq<Send>, r: Role): seq<string>
  {
    if sends == [] then []
    else (if sends[0].Forward? && sends[0].to == r then [sends[0].msg] else []) + DeliveredTo(sends[1..], r)
  }

  /** The messages one event addresses to role `r`: a relay from the opposite role. */
  function AddressedIn(e: Event, r: Role): seq<string>
  {
    if e.Relay? && Opposite(e.from) == r then [e.msg] else []
  }

  /** The messages a run of events addresses to role `r`, in arrival order. */
  function AddressedTo(evs: seq<Event>, r: Role): seq<string>
  {
    if evs == [] then [] else AddressedIn(evs[0], r) + AddressedTo(evs[1..], r)
  }

  lemma {:induction false} DeliveredToAppend(a: seq<Send>, c: seq<Send>, r: Role)
    ensures DeliveredTo(a + c, r) == DeliveredTo(a, r) + DeliveredTo(c, r)
    decreases |a|
  {
    if a == [] {
      assert a + c == c;
    } else {
      assert (a + c)[1..] == a[1..] + c;
      DeliveredToAppend(a[1..], c, r);
    }
  }

  /** A drain hands exactly the drained queue to its role, and nothing to the other role. */
  lemma {:induction false} DeliveredByDrain(chan: Channel, to: Role, q: seq<string>, r: Role)
    ensures DeliveredTo(Deliveries(chan, to, q), r) == (if r == to then q else [])
    decreases |q|
  {
    if q != [] {
      var d := Deliveries(chan, to, q);
      assert d[1..] == Deliveries(chan, to, q[1..]);
      DeliveredByDrain(chan, to, q[1..], r);
      if r == to {
        assert q == [q[0]] + q[1..];
      }
    }
  }

  /**
   * One step conserves role `r`'s traffic in order: what was queued for `r`,
   * followed by what the event addresses to `r`, equals what the step hands to
   * `r`, followed by what stays queued for `r`.
   */
  lemma StepConservesOrder(b: State, e: Event, r: Role)
    requires Inv(b)
    ensures Queue(b, r) + AddressedIn(e, r) == DeliveredTo(Step(b, e).sends, r) + Queue(Step(b, e).next, r)
  {
    match e
    case Declare(chan, text) =>
      match ParseRole(text) {
        case None =>
          assert DeliveredTo([Reject(chan)], r) == [];
        case Some(t) =>
          DeliveredByDrain(chan, t, Queue(b, t), r);
          NameInjective(t, r);
      }
    case Relay(_, from, msg) =>
      var target := Opposite(from);
      var sends := Step(b, e).sends;
      if Slot(b, target).Some? {
        assert DeliveredTo(sends, r) == DeliveredTo(sends[1..], r) + (if target == r then [msg] else []);
      } else {
        assert sends == [];
        NameInjective(target, r);
      }
    case Disconnect(_, role) =>
  }

  /** Two conservation equations in a row compose into one. */
  lemma ChainConservation(q0: seq<string>, a0: seq<string>, a1: seq<string>, d0: seq<string>,
                          q1: seq<string>, d1: seq<string>, q2: seq<string>)
    requires q0 + a0 == d0 + q1
    requires q1 + a1 == d1 + q2
    ensures q0 + (a0 + a1) == (d0 + d1) + q2
  {
    calc {
      q0 + (a0 + a1);
      (q0 + a0) + a1;
      (d0 + q1) + a1;
      d0 + (q1 + a1);
      d0 + (d1 + q2);
      (d0 + d1) + q2;
    }
  }

  /**
   * Per-role FIFO delivery over any run from a state satisfying the invariant:
   * the messages for role `r` that were queued, followed by those addressed to
   * `r` during the run, are exactly the messages handed to `r`'s channels, in
   * the same order, followed by those still queued. No message for `r` is lost,
   * duplicated, invented or reordered, whether it was forwarded at once or
   * drained from the queue when `r` was bound.
   */
  lemma {:induction false} FifoPerRole(b: State, evs: seq<Event>, r: Role)
    requires Inv(b)
    ensures Queue(b, r) + AddressedTo(evs, r) == DeliveredTo(Run(b, evs).sends, r) + Queue(Run(b, evs).next, r)
    decreases |evs|
  {
    if evs != [] {
      var first := Step(b, evs[0]);
      var rest := Run(first.next, evs[1..]);
      assert Run(b, evs) == Outcome(rest.next, first.sends + rest.sends);
      var q0, a0, d0, q1 := Queue(b, r), AddressedIn(evs[0], r), DeliveredTo(first.sends, r), Queue(first.next, r);
      var a1, d1, q2 := AddressedTo(evs[1..], r), DeliveredTo(rest.sends, r), Queue(rest.next, r);
      assert AddressedTo(evs, r) == a0 + a1;
      StepConservesOrder(b, evs[0], r);
      assert q0 + a0 == d0 + q1;
      FifoPerRole(first.next, evs[1..], r);
      assert q1 + a1 == d1 + q2;
      DeliveredToAppend(first.sends, rest.sends, r);
      ChainConservation(q0, a0, a1, d0, q1, d1, q2);
    }
  }

  /**
   * What a run hands to role `r` is a prefix of what was queued for `r`
   * followed by what the run addressed to `r`; from the initial state, a prefix
   * of what the run addressed to `r`.
   */
  lemma DeliveredIsPrefix(b: State, evs: seq<Event>, r: Role)
    requires Inv(b)
    ensures DeliveredTo(Run(b, evs).sends, r) <= Queue(b, r) + AddressedTo(evs, r)
  {
    FifoPerRole(b, evs, r);
  }

  /**
   * A run from a state where nothing waits for `r` (the initial state is one)
   * that ends with `r` bound has handed `r` every message addressed to it, in
   * arrival order.
   */
  lemma AllDeliveredOnceBound(b: State, evs: seq<Event>, r: Role)
    requires Inv(b) && Queue(b, r) == []
    requires Slot(Run(b, evs).next, r).Some?
    ensures DeliveredTo(Run(b, evs).sends, r) == AddressedTo(evs, r)
  {
    var o := Run(b, evs);
    FifoPerRole(b, evs, r);
    BoundQueueEmpty(o.next, r);
    assert AddressedTo(evs, r) == [] + AddressedTo(evs, r);
    assert DeliveredTo(o.sends, r) == DeliveredTo(o.sends, r) + [];
  }

  /** A closure changes the state the same way whichever channel reports it. */
  lemma DisconnectIgnoresChannel(b: State, c1: Channel, c2: Channel, r: Role)
    requires WellKeyed(b)
    ensures Step(b, Disconnect(c1, r)) == Step(b, Disconnect(c2, r))
  {
  }

  /**
   * The source as written: channel c1 binds "sender", channel c2 rebinds it
   * (c1 is not closed), then c1 closes. The closure clears the slot c2 holds,
   * so a message the receiver sends next is queued instead of reaching c2.
   */
  lemma StaleDisconnectUnbindsSuccessor(b: State, c1: Channel, c2: Channel, m: string)
    requires WellKeyed(b)
    ensures var s1 := Step(b, Declare(c1, SENDER)).next;
      var s2 := Step(s1, Declare(c2, SENDER)).next;
      var s3 := Step(s2, Disconnect(c1, Sender)).next;
      var last := Step(s3, Relay(c2, Receiver, m));
      && Slot(s2, Sender) == Some(c2)
      && Slot(s3, Sender) == None
      && last.sends == []
      && Queue(last.next, Sender) == Queue(s3, Sender) + [m]
  {
    var s1 := Step(b, Declare(c1, SENDER)).next;
    var s2 := Step(s1, Declare(c2, SENDER)).next;
    assert Slot(s2, Sender) == Some(c2);
    var s3 := Step(s2, Disconnect(c1, Sender)).next;
    assert Slot(s3, Sender) == None;
  }
}
