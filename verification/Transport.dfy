/** A pair of in-memory channels that hand messages over later, one by one, in order. */
module Transport {
  import opened Options

  /** One direction: messages handed over but not yet arrived, messages that wait for a handler, and
      messages that the handler got. */
  datatype Lane<M> = Lane(inTransit: seq<M>, queue: seq<M>, hasHandler: bool, delivered: seq<M>)

  /** Everything that was accepted, in the order in which the handler gets it. */
  function Whole<M>(l: Lane<M>): seq<M> {
    l.delivered + l.queue + l.inTransit
  }

  /** With a handler nothing waits in the queue; without one nothing has been delivered. */
  ghost predicate LaneOk<M>(l: Lane<M>) {
    if l.hasHandler then l.queue == [] else l.delivered == []
  }

  class LinkedChannels<H, G> {
    var toHost: Lane<H>
    var toHarness: Lane<G>
    var closed: bool

    ghost predicate Valid()
      reads this
    {
      LaneOk(toHost) && LaneOk(toHarness)
    }

    constructor ()
      ensures Valid() && !closed && Whole(toHost) == [] && Whole(toHarness) == []
    {
      toHost, toHarness, closed := Lane([], [], false, []), Lane([], [], false, []), false;
    }

    /** A closed pair accepts nothing more, from either side. */
    method HarnessSend(m: H)
      requires Valid()
      modifies this`toHost
      ensures Valid() && toHost.delivered == old(toHost.delivered)
      ensures Whole(toHost) == if closed then old(Whole(toHost)) else old(Whole(toHost)) + [m]
    {
      if !closed { toHost := toHost.(inTransit := toHost.inTransit + [m]); }
    }

    method HostSend(m: G)
      requires Valid()
      modifies this`toHarness
      ensures Valid() && toHarness.delivered == old(toHarness.delivered)
      ensures Whole(toHarness) == if closed then old(Whole(toHarness)) else old(Whole(toHarness)) + [m]
    {
      if !closed { toHarness := toHarness.(inTransit := toHarness.inTransit + [m]); }
    }

    /** The oldest message in transit arrives. */
    static method Arrive<M>(l: Lane<M>) returns (r: Lane<M>)
      requires LaneOk(l) && l.inTransit != []
      ensures LaneOk(r) && Whole(r) == Whole(l) && r.inTransit == l.inTransit[1..] && r.hasHandler == l.hasHandler
      ensures l.hasHandler ==> r.delivered == l.delivered + [l.inTransit[0]]
    {
      var m := l.inTransit[0];
      assert l.inTransit == [m] + l.inTransit[1..];
      if l.hasHandler {
        r := l.(inTransit := l.inTransit[1..], delivered := l.delivered + [m]);
      } else {
        r := l.(inTransit := l.inTransit[1..], queue := l.queue + [m]);
      }
    }

    /** A handler first gets what has been waiting for it. */
    static method Register<M>(l: Lane<M>) returns (r: Lane<M>)
      requires LaneOk(l)
      ensures LaneOk(r) && r.hasHandler && Whole(r) == Whole(l) && r.inTransit == l.inTransit
    {
      r := l.(hasHandler := true);
      while r.queue != []
        invariant r.hasHandler && r.inTransit == l.inTransit && r.delivered + r.queue == l.delivered + l.queue
        decreases |r.queue|
      {
        assert r.queue == [r.queue[0]] + r.queue[1..];
        r := r.(delivered := r.delivered + [r.queue[0]], queue := r.queue[1..]);
      }
      assert r.delivered + r.queue == r.delivered;
    }

    method HostArrive()
      requires Valid() && toHost.inTransit != []
      modifies this`toHost
      ensures Valid() && Whole(toHost) == old(Whole(toHost)) && toHost.inTransit == old(toHost.inTransit)[1..]
    {
      toHost := Arrive(toHost);
    }

    method HarnessArrive()
      requires Valid() && toHarness.inTransit != []
      modifies this`toHarness
      ensures Valid() && Whole(toHarness) == old(Whole(toHarness)) && toHarness.inTransit == old(toHarness.inTransit)[1..]
    {
      toHarness := Arrive(toHarness);
    }

    method OnHostMessage()
      requires Valid()
      modifies this`toHost
      ensures Valid() && toHost.hasHandler && Whole(toHost) == old(Whole(toHost))
    {
      toHost := Register(toHost);
    }

    method OnHarnessMessage()
      requires Valid()
      modifies this`toHarness
      ensures Valid() && toHarness.hasHandler && Whole(toHarness) == old(Whole(toHarness))
    {
      toHarness := Register(toHarness);
    }

    method Close()
      requires Valid()
      modifies this`closed
      ensures Valid() && closed
    {
      closed := true;
    }
  }

  /** Once nothing is in transit, a handler has got everything that was accepted, in order. */
  lemma {:induction false} AllDelivered<M>(l: Lane<M>)
    requires LaneOk(l) && l.inTransit == []
    ensures l.hasHandler ==> l.delivered == Whole(l)
    ensures !l.hasHandler ==> l.queue == Whole(l)
  {
    assert l.delivered + l.queue + l.inTransit == l.delivered + l.queue;
  }
}
