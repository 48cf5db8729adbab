/** The running message system as an object: posting a message, and `handle_msg` publishing it to
    every subscriber. Each method is a schedule of the transition system in `MessageNet`. */
module MessageSystem {
  import opened MessageNet

  /** A handler call of `b` and the deliveries of its publication along the first `k` subscriptions. */
  ghost function Publication<M>(g: Graph, b: nat, k: nat): seq<Step<M>>
    requires k <= |g.edges|
  {
    if k == 0 then [Handle(b)]
    else if g.edges[k - 1].src == b then Publication(g, b, k - 1) + [Deliver(k - 1)]
    else Publication(g, b, k - 1)
  }

  /** `steps` is a handler call of `b` followed by the deliveries along its subscriptions below `k`,
      all of them, in subscription order. */
  ghost predicate InOrder<M>(g: Graph, b: nat, k: nat, steps: seq<Step<M>>)
    requires k <= |g.edges|
  {
    && steps != [] && steps[0] == Handle(b)
    && (forall i :: 0 < i < |steps| ==> steps[i].Deliver? && steps[i].edge < k && g.edges[steps[i].edge].src == b)
    && (forall i, j :: 0 < i < j < |steps| ==> steps[i].edge < steps[j].edge)
    && forall e: nat :: e < k && g.edges[e].src == b ==> Deliver(e) in steps
  }

  lemma InOrderNext<M>(g: Graph, b: nat, k: nat, steps: seq<Step<M>>, after: seq<Step<M>>)
    requires 0 < k <= |g.edges| && InOrder(g, b, k - 1, steps)
    requires after == if g.edges[k - 1].src == b then steps + [Deliver(k - 1)] else steps
    ensures InOrder(g, b, k, after)
  {
    forall e: nat | e < k && g.edges[e].src == b
      ensures Deliver(e) in after
    {
      if e < k - 1 { assert Deliver(e) in steps; }
    }
  }

  lemma {:induction false} PublicationInOrder<M>(g: Graph, b: nat, k: nat)
    requires k <= |g.edges|
    ensures InOrder<M>(g, b, k, Publication(g, b, k))
  {
    if k > 0 {
      PublicationInOrder<M>(g, b, k - 1);
      InOrderNext<M>(g, b, k, Publication(g, b, k - 1), Publication(g, b, k));
    }
  }

  lemma {:induction false} RunsSnoc<M>(g: Graph, s: State<M>, steps: seq<Step<M>>, t: State<M>, step: Step<M>)
    requires Fits(g, s) && Fits(g, t) && Runs(g, s, steps, t) && Enabled(g, t, step)
    ensures Runs(g, s, steps + [step], Apply(g, t, step))
    decreases |steps|
  {
    if steps == [] {
      assert Runs(g, Apply(g, s, step), [], Apply(g, t, step));
    } else {
      assert (steps + [step])[0] == steps[0] && (steps + [step])[1..] == steps[1..] + [step];
      RunsSnoc(g, Apply(g, s, steps[0]), steps[1..], t, step);
    }
  }

  /** Block `b` has handled `pdu` last and delivered it along its subscriptions below `k` only. */
  ghost predicate Publishing<M>(g: Graph, s: State<M>, b: nat, pdu: M, k: nat)
    requires Fits(g, s) && b < g.size
  {
    && s.handled[b] != [] && s.handled[b][|s.handled[b]| - 1] == pdu
    && forall e :: 0 <= e < |g.edges| && g.edges[e].src == b ==>
        s.sent[e] == if e < k then |s.handled[b]| else |s.handled[b]| - 1
  }

  /** `s` is reached from `start` by the first `k` deliveries of a publication of `pdu` by `b`. */
  ghost predicate Published<M>(g: Graph, start: State<M>, b: nat, pdu: M, k: nat, s: State<M>)
    requires Fits(g, start) && b < g.size && k <= |g.edges|
  {
    Fits(g, s) && Publishing(g, s, b, pdu, k) && Runs(g, start, Publication(g, b, k), s)
  }

  lemma PublishFirst<M>(g: Graph, start: State<M>, b: nat)
    requires Fits(g, start) && Enabled(g, start, Handle(b))
    ensures Published(g, start, b, start.queue[b][0], 0, Apply(g, start, Handle(b)))
  {
    RunsSnoc(g, start, [], start, Handle(b));
    assert [] + [Handle(b)] == Publication<M>(g, b, 0);
  }

  lemma PublishNext<M>(g: Graph, start: State<M>, b: nat, pdu: M, k: nat, s: State<M>)
    requires Fits(g, start) && b < g.size && k < |g.edges| && Published(g, start, b, pdu, k, s)
    ensures g.edges[k].src == b ==>
      && Enabled(g, s, Deliver(k)) && s.handled[b][s.sent[k]] == pdu
      && Published(g, start, b, pdu, k + 1, Apply(g, s, Deliver(k)))
    ensures g.edges[k].src != b ==> Published(g, start, b, pdu, k + 1, s)
  {
    if g.edges[k].src == b {
      RunsSnoc(g, start, Publication(g, b, k), s, Deliver(k));
    }
  }

  class MsgSystem<M> {
    const g: Graph
    ghost var posted: seq<seq<M>>
    ghost var handled: seq<seq<M>>
    ghost var sent: seq<nat>
    var queue: seq<seq<M>>

    ghost function Snapshot(): State<M>
      reads this
    {
      State(posted, queue, handled, sent)
    }

    ghost predicate Valid()
      reads this
    {
      Fits(g, Snapshot())
    }

    constructor (g: Graph)
      requires WellFormed(g)
      ensures this.g == g && Valid() && Snapshot() == Init(g)
    {
      this.g := g;
      posted, handled := seq(g.size, i => []), seq(g.size, i => []);
      queue := seq(g.size, i => []);
      sent := seq(|g.edges|, e => 0);
    }

    /** `runner->src->post(...)`. */
    method PostMsg(b: nat, m: M)
      requires Valid() && b < g.size
      modifies this
      ensures Valid() && Snapshot() == Apply(g, old(Snapshot()), Post(b, m))
    {
      queue := queue[b := queue[b] + [m]];
      posted := posted[b := posted[b] + [m]];
    }

    method TakeHead(b: nat) returns (pdu: M)
      requires Valid() && b < g.size && queue[b] != [] && Idle(g, Snapshot(), b)
      modifies this
      ensures Valid() && Snapshot() == Apply(g, old(Snapshot()), Handle(b))
      ensures pdu == old(queue[b][0])
    {
      pdu := queue[b][0];
      queue := queue[b := queue[b][1..]];
      handled := handled[b := handled[b] + [pdu]];
    }

    method Insert(k: nat, pdu: M)
      requires Valid() && Enabled(g, Snapshot(), Deliver(k))
      requires handled[g.edges[k].src][sent[k]] == pdu
      modifies this
      ensures Valid() && Snapshot() == Apply(g, old(Snapshot()), Deliver(k))
    {
      var d := g.edges[k].dst;
      queue := queue[d := queue[d] + [pdu]];
      sent := sent[k := sent[k] + 1];
    }

    /** The subscriber of subscription `k`, if it is one of `b`, gets the message. */
    method PublishTo(b: nat, k: nat, pdu: M, ghost start: State<M>)
      requires Valid() && b < g.size && k < |g.edges| && Fits(g, start)
      requires Published(g, start, b, pdu, k, Snapshot())
      modifies this
      ensures Valid() && Published(g, start, b, pdu, k + 1, Snapshot())
    {
      PublishNext(g, start, b, pdu, k, Snapshot());
      if g.edges[k].src == b {
        Insert(k, pdu);
      }
    }

    /** One handler call: take the head of the queue and publish it to every subscriber in
        subscription order. The result is what the schedule `Handle(b)` followed by all of the
        deliveries leads to (`PublicationInOrder`), and the block is ready for its next message. */
    method HandleMsg(b: nat)
      requires Valid() && b < g.size && queue[b] != [] && Idle(g, Snapshot(), b)
      modifies this
      ensures Valid() && Idle(g, Snapshot(), b)
      ensures Runs(g, old(Snapshot()), Publication(g, b, |g.edges|), Snapshot())
    {
      ghost var start := Snapshot();
      PublishFirst(g, start, b);
      var pdu := TakeHead(b);
      var k := 0;
      while k < |g.edges|
        invariant 0 <= k <= |g.edges| && Valid() && Published(g, start, b, pdu, k, Snapshot())
      {
        PublishTo(b, k, pdu, start);
        k := k + 1;
      }
    }
  }
}
