/** The message-passing runtime as a transition system over an arbitrary graph of
    `msg_forward` blocks, and what every schedule of it keeps.

    Handling a message and delivering its copies to the subscribers are separate
    steps: between two deliveries of one publication any other block may run. */
module MessageNet {
  import opened Strides

  /** One subscription: what block `src` publishes on "out" arrives at "in" of `dst`. */
  datatype Edge = Edge(src: nat, dst: nat)

  datatype Graph = Graph(size: nat, edges: seq<Edge>)

  ghost predicate WellFormed(g: Graph) {
    forall e :: 0 <= e < |g.edges| ==> g.edges[e].src < g.size && g.edges[e].dst < g.size
  }

  /** `posted` and `handled` are the logs of a block's external posts and handler calls;
      `sent[e]` counts the publications already delivered along subscription `e`. */
  datatype State<M> = State(
    posted: seq<seq<M>>,
    queue: seq<seq<M>>,
    handled: seq<seq<M>>,
    sent: seq<nat>)

  datatype Step<M> =
    | Post(block: nat, msg: M)
    | Handle(block: nat)
    | Deliver(edge: nat)

  ghost predicate Fits<M>(g: Graph, s: State<M>) {
    && |s.posted| == |s.queue| == |s.handled| == g.size
    && |s.sent| == |g.edges|
    && forall e :: 0 <= e < |g.edges| ==>
        g.edges[e].src < g.size && g.edges[e].dst < g.size
        && s.sent[e] <= |s.handled[g.edges[e].src]|
  }

  function Init<M>(g: Graph): State<M> {
    State(seq(g.size, i => []), seq(g.size, i => []), seq(g.size, i => []), seq(|g.edges|, e => 0))
  }

  /** A block calls its handler again only after it has published the last message to everyone. */
  ghost predicate Idle<M>(g: Graph, s: State<M>, b: nat)
    requires Fits(g, s) && b < g.size
  {
    forall e :: 0 <= e < |g.edges| && g.edges[e].src == b ==> s.sent[e] == |s.handled[b]|
  }

  ghost predicate Enabled<M>(g: Graph, s: State<M>, step: Step<M>)
    requires Fits(g, s)
  {
    match step
    case Post(b, _) => b < g.size
    case Handle(b) => b < g.size && s.queue[b] != [] && Idle(g, s, b)
    case Deliver(e) => e < |g.edges| && s.sent[e] < |s.handled[g.edges[e].src]|
  }

  ghost function Apply<M>(g: Graph, s: State<M>, step: Step<M>): (s': State<M>)
    requires Fits(g, s) && Enabled(g, s, step)
    ensures Fits(g, s')
  {
    match step
    case Post(b, m) =>
      s.(posted := s.posted[b := s.posted[b] + [m]], queue := s.queue[b := s.queue[b] + [m]])
    case Handle(b) =>
      s.(queue := s.queue[b := s.queue[b][1..]],
         handled := s.handled[b := s.handled[b] + [s.queue[b][0]]])
    case Deliver(e) =>
      var Edge(a, d) := g.edges[e];
      s.(queue := s.queue[d := s.queue[d] + [s.handled[a][s.sent[e]]]],
         sent := s.sent[e := s.sent[e] + 1])
  }

  /** `Runs(g, s, steps, s')`: the schedule `steps` leads from `s` to `s'`. */
  ghost predicate Runs<M>(g: Graph, s: State<M>, steps: seq<Step<M>>, s': State<M>)
    requires Fits(g, s)
    decreases |steps|
  {
    if steps == [] then s' == s
    else Enabled(g, s, steps[0]) && Runs(g, Apply(g, s, steps[0]), steps[1..], s')
  }

  // ---------------------------------------------------------------------------------------
  // Every schedule: a block's arrivals interleave what its publishers have delivered.
  // ---------------------------------------------------------------------------------------

  const POSTED := -1

  /** The subsequence of `s` whose elements carry tag `t`. */
  ghost function Select<M>(s: seq<M>, tags: seq<int>, t: int): seq<M>
    requires |s| == |tags|
  {
    if s == [] then []
    else Select(s[..|s| - 1], tags[..|s| - 1], t) + (if tags[|s| - 1] == t then [s[|s| - 1]] else [])
  }

  ghost function Arrived<M>(s: State<M>, b: nat): seq<M>
    requires b < |s.handled| && b < |s.queue|
  {
    s.handled[b] + s.queue[b]
  }

  ghost predicate Interleaves<M>(g: Graph, s: State<M>, b: nat, tags: seq<int>)
    requires Fits(g, s) && b < g.size
  {
    && |tags| == |Arrived(s, b)|
    && (forall i :: 0 <= i < |tags| ==>
         tags[i] == POSTED || (0 <= tags[i] < |g.edges| && g.edges[tags[i]].dst == b))
    && Select(Arrived(s, b), tags, POSTED) == s.posted[b]
    && (forall e :: 0 <= e < |g.edges| && g.edges[e].dst == b ==>
         Select(Arrived(s, b), tags, e) == s.handled[g.edges[e].src][..s.sent[e]])
  }

  ghost predicate Interleaved<M>(g: Graph, s: State<M>, b: nat)
    requires Fits(g, s) && b < g.size
  {
    exists tags :: Interleaves(g, s, b, tags)
  }

  ghost predicate Inv<M>(g: Graph, s: State<M>) {
    Fits(g, s) && forall b :: 0 <= b < g.size ==> Interleaved(g, s, b)
  }

  lemma SelectSnoc<M>(s: seq<M>, tags: seq<int>, t: int, m: M, tag: int)
    requires |s| == |tags|
    ensures Select(s + [m], tags + [tag], t) == Select(s, tags, t) + (if tag == t then [m] else [])
  {
    assert (s + [m])[..|s|] == s && (tags + [tag])[..|s|] == tags;
  }

  lemma InitInv<M>(g: Graph)
    requires WellFormed(g)
    ensures Inv<M>(g, Init(g))
  {
    var s := Init<M>(g);
    forall b | 0 <= b < g.size
      ensures Interleaved(g, s, b)
    {
      assert Interleaves(g, s, b, []);
    }
  }

  /** A message arriving at `d` with tag `tag` extends exactly the stream with that tag. */
  lemma ArrivalInterleaves<M>(g: Graph, s: State<M>, s': State<M>, d: nat, m: M, tag: int)
    requires Inv(g, s) && Fits(g, s') && d < g.size
    requires tag == POSTED || (0 <= tag < |g.edges| && g.edges[tag].dst == d)
    requires s'.handled == s.handled && s'.queue[d] == s.queue[d] + [m]
    requires s'.posted[d] == s.posted[d] + (if tag == POSTED then [m] else [])
    requires forall e :: 0 <= e < |g.edges| && g.edges[e].dst == d ==>
      s'.handled[g.edges[e].src][..s'.sent[e]]
      == s.handled[g.edges[e].src][..s.sent[e]] + (if tag == e then [m] else [])
    ensures Interleaved(g, s', d)
  {
    assert Interleaved(g, s, d);
    var tags :| Interleaves(g, s, d, tags);
    assert Arrived(s', d) == Arrived(s, d) + [m];
    forall t | t == POSTED || 0 <= t < |g.edges|
      ensures Select(Arrived(s', d), tags + [tag], t)
        == Select(Arrived(s, d), tags, t) + (if tag == t then [m] else [])
    {
      SelectSnoc(Arrived(s, d), tags, t, m, tag);
    }
    assert Interleaves(g, s', d, tags + [tag]);
  }

  lemma StepInv<M>(g: Graph, s: State<M>, step: Step<M>)
    requires Inv(g, s) && Enabled(g, s, step)
    ensures Inv(g, Apply(g, s, step))
  {
    var s' := Apply(g, s, step);
    forall b | 0 <= b < g.size
      ensures Interleaved(g, s', b)
    {
      assert Interleaved(g, s, b);
      var tags :| Interleaves(g, s, b, tags);
      match step
      case Post(d, m) =>
        if b == d { ArrivalInterleaves(g, s, s', d, m, POSTED); } else { assert Interleaves(g, s', b, tags); }
      case Handle(d) =>
        assert Arrived(s', b) == Arrived(s, b);
        forall e | 0 <= e < |g.edges|
          ensures s'.handled[g.edges[e].src][..s.sent[e]] == s.handled[g.edges[e].src][..s.sent[e]]
        {
        }
        assert Interleaves(g, s', b, tags);
      case Deliver(e) =>
        var Edge(a, d) := g.edges[e];
        if b == d {
          assert s.handled[a][..s.sent[e] + 1] == s.handled[a][..s.sent[e]] + [s.handled[a][s.sent[e]]];
          ArrivalInterleaves(g, s, s', d, s.handled[a][s.sent[e]], e);
        } else {
          assert Interleaves(g, s', b, tags);
        }
    }
  }

  /** Every reachable state: each block's handled log plus its queue is an interleaving of its
      posts and, per subscription, of a prefix of the publisher's log in publication order. */
  lemma {:induction false} RunInv<M>(g: Graph, s: State<M>, steps: seq<Step<M>>, s': State<M>)
    requires Inv(g, s) && Runs(g, s, steps, s')
    ensures Inv(g, s')
    decreases |steps|
  {
    if steps != [] {
      StepInv(g, s, steps[0]);
      RunInv(g, Apply(g, s, steps[0]), steps[1..], s');
    }
  }

  ghost predicate OnlyInput(g: Graph, b: nat, e: nat) {
    && e < |g.edges| && g.edges[e].dst == b
    && forall e' :: 0 <= e' < |g.edges| && g.edges[e'].dst == b ==> e' == e
  }

  lemma {:induction false} SelectUniform<M>(s: seq<M>, tags: seq<int>, t: int)
    requires |s| == |tags|
    requires forall i :: 0 <= i < |tags| ==> tags[i] == t
    ensures Select(s, tags, t) == s
  {
    if s != [] {
      SelectUniform(s[..|s| - 1], tags[..|s| - 1], t);
    }
  }

  lemma {:induction false} SelectNothing<M>(s: seq<M>, tags: seq<int>, t: int)
    requires |s| == |tags|
    requires Select(s, tags, t) == []
    ensures forall i :: 0 <= i < |tags| ==> tags[i] != t
  {
    if s != [] {
      SelectNothing(s[..|s| - 1], tags[..|s| - 1], t);
    }
  }

  /** A block with a single publisher and no posts sees that publisher's log in FIFO order. */
  lemma SinglePublisherFifo<M>(g: Graph, s: State<M>, b: nat, e: nat)
    requires Inv(g, s) && b < g.size && OnlyInput(g, b, e) && s.posted[b] == []
    ensures Arrived(s, b) == s.handled[g.edges[e].src][..s.sent[e]]
  {
    assert Interleaved(g, s, b);
    var tags :| Interleaves(g, s, b, tags);
    SelectNothing(Arrived(s, b), tags, POSTED);
    SelectUniform(Arrived(s, b), tags, e);
  }

  /** A block nobody publishes to sees exactly its posts, in posted order. */
  lemma PostsOnlyFifo<M>(g: Graph, s: State<M>, b: nat)
    requires Inv(g, s) && b < g.size
    requires forall e :: 0 <= e < |g.edges| ==> g.edges[e].dst != b
    ensures Arrived(s, b) == s.posted[b]
  {
    assert Interleaved(g, s, b);
    var tags :| Interleaves(g, s, b, tags);
    SelectUniform(Arrived(s, b), tags, POSTED);
  }

  // ---------------------------------------------------------------------------------------
  // Multiplicities: how often a message arrives does not depend on the schedule.
  // ---------------------------------------------------------------------------------------

  /** How often `x` occurs in `s`. */
  ghost function Copies<M>(s: seq<M>, x: M): nat {
    if s == [] then 0 else Copies(s[..|s| - 1], x) + if s[|s| - 1] == x then 1 else 0
  }

  lemma CopiesSnoc<M>(s: seq<M>, m: M, x: M)
    ensures Copies(s + [m], x) == Copies(s, x) + if m == x then 1 else 0
  {
    assert (s + [m])[..|s|] == s;
  }

  lemma {:induction false} CopiesIsMultiplicity<M>(s: seq<M>, x: M)
    ensures Copies(s, x) == multiset(s)[x]
  {
    if s != [] {
      CopiesIsMultiplicity(s[..|s| - 1], x);
      assert s == s[..|s| - 1] + [s[|s| - 1]];
    }
  }

  /** What subscription `e` has delivered to `b`. */
  ghost function DeliveredOn<M>(g: Graph, s: State<M>, b: nat, e: nat): seq<M>
    requires Fits(g, s) && e < |g.edges|
  {
    if g.edges[e].dst == b then s.handled[g.edges[e].src][..s.sent[e]] else []
  }

  /** The streams delivered to `b`, one per subscription of the graph. */
  ghost function Streams<M>(g: Graph, s: State<M>, b: nat): seq<seq<M>>
    requires Fits(g, s)
  {
    seq(|g.edges|, e requires 0 <= e < |g.edges| => DeliveredOn(g, s, b, e))
  }

  /** Occurrences of `x` in the first `k` streams. */
  ghost function TotalCopies<M>(streams: seq<seq<M>>, x: M, k: nat): nat
    requires k <= |streams|
  {
    if k == 0 then 0 else TotalCopies(streams, x, k - 1) + Copies(streams[k - 1], x)
  }

  ghost function CopiesIn<M>(g: Graph, s: State<M>, b: nat, x: M): nat
    requires Fits(g, s)
  {
    TotalCopies(Streams(g, s, b), x, |g.edges|)
  }

  /** The `n` streams that the tags `0 .. n` select from `s`. */
  ghost function Split<M>(s: seq<M>, tags: seq<int>, n: nat): seq<seq<M>>
    requires |s| == |tags|
  {
    seq(n, e requires 0 <= e < n => Select(s, tags, e))
  }

  lemma SplitSnoc<M>(s: seq<M>, tags: seq<int>, m: M, tag: int, n: nat, e: nat, x: M)
    requires |s| == |tags| && e < n
    ensures Copies(Split(s + [m], tags + [tag], n)[e], x)
      == Copies(Split(s, tags, n)[e], x) + if tag == e && m == x then 1 else 0
  {
    SelectSnoc(s, tags, e, m, tag);
    if tag == e { CopiesSnoc(Select(s, tags, e), m, x); }
    else { assert Select(s, tags, e) + [] == Select(s, tags, e); }
  }

  /** Stream `e` of `after` holds one more `x` than that of `before` if it is the one marked by `tag`. */
  ghost predicate OneMore<M>(before: seq<seq<M>>, after: seq<seq<M>>, x: M, tag: int, one: nat, e: nat) {
    && e < |before| == |after|
    && Copies(after[e], x) == Copies(before[e], x) + if tag == e then one else 0
  }

  lemma {:induction false} TotalOneMore<M>(
    before: seq<seq<M>>, after: seq<seq<M>>, x: M, tag: int, one: nat, k: nat)
    requires k <= |before| == |after| && forall e: nat :: e < |before| ==> OneMore(before, after, x, tag, one, e)
    ensures TotalCopies(after, x, k) == TotalCopies(before, x, k) + if 0 <= tag < k then one else 0
    decreases k
  {
    if k > 0 {
      assert OneMore(before, after, x, tag, one, k - 1);
      TotalOneMore(before, after, x, tag, one, k - 1);
    }
  }

  lemma SplitCopiesSnoc<M>(s: seq<M>, tags: seq<int>, m: M, tag: int, x: M, n: nat)
    requires |s| == |tags|
    ensures TotalCopies(Split(s + [m], tags + [tag], n), x, n)
      == TotalCopies(Split(s, tags, n), x, n) + if 0 <= tag < n && m == x then 1 else 0
  {
    var before, after := Split(s, tags, n), Split(s + [m], tags + [tag], n);
    var one: nat := if m == x then 1 else 0;
    forall e: nat | e < n
      ensures OneMore(before, after, x, tag, one, e)
    {
      SplitSnoc(s, tags, m, tag, n, e, x);
    }
    TotalOneMore(before, after, x, tag, one, n);
  }

  lemma {:induction false} SplitCopiesEmpty<M>(x: M, n: nat, k: nat)
    requires k <= n
    ensures TotalCopies(Split([], [], n), x, k) == 0
    decreases k
  {
    if k > 0 { SplitCopiesEmpty(x, n, k - 1); }
  }

  /** The streams selected by the tags partition the sequence. */
  lemma {:induction false} SelectPartitions<M>(s: seq<M>, tags: seq<int>, x: M, n: nat)
    requires |s| == |tags|
    requires forall i :: 0 <= i < |tags| ==> POSTED <= tags[i] < n
    ensures Copies(s, x) == Copies(Select(s, tags, POSTED), x) + TotalCopies(Split(s, tags, n), x, n)
    decreases |s|
  {
    if s == [] {
      SplitCopiesEmpty(x, n, n);
    } else {
      var l := |s| - 1;
      assert s == s[..l] + [s[l]] && tags == tags[..l] + [tags[l]];
      SelectPartitions(s[..l], tags[..l], x, n);
      SplitCopiesSnoc(s[..l], tags[..l], s[l], tags[l], x, n);
      SelectSnoc(s[..l], tags[..l], POSTED, s[l], tags[l]);
      var posted := Select(s[..l], tags[..l], POSTED);
      CopiesSnoc(posted, s[l], x);
      assert posted + [] == posted;
    }
  }

  lemma {:induction false} SelectAbsent<M>(s: seq<M>, tags: seq<int>, t: int)
    requires |s| == |tags|
    requires forall i :: 0 <= i < |tags| ==> tags[i] != t
    ensures Select(s, tags, t) == []
  {
    if s != [] {
      SelectAbsent(s[..|s| - 1], tags[..|s| - 1], t);
    }
  }

  /** Conservation at every block of any graph, in every reachable state. */
  lemma ArrivalsConserved<M>(g: Graph, s: State<M>, b: nat, x: M)
    requires Inv(g, s) && b < g.size
    ensures Copies(Arrived(s, b), x) == Copies(s.posted[b], x) + CopiesIn(g, s, b, x)
  {
    assert Interleaved(g, s, b);
    var tags :| Interleaves(g, s, b, tags);
    SelectPartitions(Arrived(s, b), tags, x, |g.edges|);
    forall e | 0 <= e < |g.edges|
      ensures Select(Arrived(s, b), tags, e) == DeliveredOn(g, s, b, e)
    {
      if g.edges[e].dst != b { SelectAbsent(Arrived(s, b), tags, e); }
    }
    assert Split(Arrived(s, b), tags, |g.edges|) == Streams(g, s, b);
  }

  /** No message is queued and no publication is unfinished. */
  ghost predicate Quiescent<M>(g: Graph, s: State<M>)
    requires Fits(g, s)
  {
    && (forall b :: 0 <= b < g.size ==> s.queue[b] == [])
    && (forall e :: 0 <= e < |g.edges| ==> s.sent[e] == |s.handled[g.edges[e].src]|)
  }

  /** A layering of the graph: every subscription leads to a higher rank. */
  ghost predicate Layered(g: Graph, rank: seq<nat>) {
    && WellFormed(g) && |rank| == g.size
    && (forall b :: 0 <= b < g.size ==> rank[b] < g.size)
    && forall e :: 0 <= e < |g.edges| ==> rank[g.edges[e].src] < rank[g.edges[e].dst]
  }

  lemma {:induction false} SameMultiplicity<M>(
    g: Graph, rank: seq<nat>, s: State<M>, t: State<M>, b: nat, x: M)
    requires Layered(g, rank) && b < g.size
    requires Inv(g, s) && Inv(g, t) && Quiescent(g, s) && Quiescent(g, t) && s.posted == t.posted
    ensures Copies(s.handled[b], x) == Copies(t.handled[b], x)
    decreases rank[b], |g.edges| + 1
  {
    ArrivalsConserved(g, s, b, x);
    ArrivalsConserved(g, t, b, x);
    assert Arrived(s, b) == s.handled[b] && Arrived(t, b) == t.handled[b];
    SameCopiesIn(g, rank, s, t, b, x, |g.edges|);
  }

  lemma {:induction false} SameCopiesIn<M>(
    g: Graph, rank: seq<nat>, s: State<M>, t: State<M>, b: nat, x: M, k: nat)
    requires Layered(g, rank) && b < g.size && k <= |g.edges|
    requires Inv(g, s) && Inv(g, t) && Quiescent(g, s) && Quiescent(g, t) && s.posted == t.posted
    ensures TotalCopies(Streams(g, s, b), x, k) == TotalCopies(Streams(g, t, b), x, k)
    decreases rank[b], k
  {
    if k > 0 {
      SameCopiesIn(g, rank, s, t, b, x, k - 1);
      var Edge(a, d) := g.edges[k - 1];
      if d == b {
        SameMultiplicity(g, rank, s, t, a, x);
        assert Streams(g, s, b)[k - 1] == s.handled[a];
        assert Streams(g, t, b)[k - 1] == t.handled[a];
      }
    }
  }

  /** Schedule independence on any acyclic graph: complete runs with the same posts end with the
      same multiset of handled messages at every block, joined or not. */
  lemma SameHandledMultisets<M>(g: Graph, rank: seq<nat>, s: State<M>, t: State<M>, b: nat)
    requires Layered(g, rank) && b < g.size
    requires Inv(g, s) && Inv(g, t) && Quiescent(g, s) && Quiescent(g, t) && s.posted == t.posted
    ensures multiset(s.handled[b]) == multiset(t.handled[b])
  {
    forall x: M
      ensures multiset(s.handled[b])[x] == multiset(t.handled[b])[x]
    {
      SameMultiplicity(g, rank, s, t, b, x);
      CopiesIsMultiplicity(s.handled[b], x);
      CopiesIsMultiplicity(t.handled[b], x);
    }
  }

  /** `b` is reached from `root` by a chain of subscriptions that nothing else joins. */
  ghost predicate Unjoined<M>(g: Graph, rank: seq<nat>, s: State<M>, root: nat, b: nat)
    requires Layered(g, rank) && Fits(g, s) && b < g.size
    decreases rank[b]
  {
    if b == root then
      forall e :: 0 <= e < |g.edges| ==> g.edges[e].dst != root
    else
      && s.posted[b] == []
      && exists e: nat :: OnlyInput(g, b, e) && Unjoined(g, rank, s, root, g.edges[e].src)
  }

  /** Below a posted block and above any join, every block handles a prefix of the posts in posted
      order, in every reachable state, and all of them at quiescence, whatever the schedule. */
  lemma {:induction false} UnjoinedHandlesPosts<M>(g: Graph, rank: seq<nat>, s: State<M>, root: nat, b: nat)
    requires Layered(g, rank) && Inv(g, s) && root < g.size && b < g.size && Unjoined(g, rank, s, root, b)
    ensures Arrived(s, b) <= s.posted[root]
    ensures Quiescent(g, s) ==> s.handled[b] == s.posted[root]
    decreases rank[b]
  {
    if b == root {
      PostsOnlyFifo(g, s, root);
    } else {
      var e: nat :| OnlyInput(g, b, e) && Unjoined(g, rank, s, root, g.edges[e].src);
      SinglePublisherFifo(g, s, b, e);
      UnjoinedHandlesPosts(g, rank, s, root, g.edges[e].src);
    }
  }

  // ---------------------------------------------------------------------------------------
  // Termination: an exact account of the work still to be done.
  // ---------------------------------------------------------------------------------------

  /** Work one message causes once it is queued at `b`: each handler call counts 1 and each
      delivery counts `c` (`c` is 0 to count calls only, 1 to count scheduler steps). */
  ghost function Cost(g: Graph, rank: seq<nat>, c: nat, b: nat): nat
    requires Layered(g, rank) && b < g.size
    decreases g.size - rank[b], |g.edges| + 1
  {
    1 + CostOut(g, rank, c, b, |g.edges|)
  }

  ghost function CostOut(g: Graph, rank: seq<nat>, c: nat, b: nat, k: nat): nat
    requires Layered(g, rank) && b < g.size && k <= |g.edges|
    decreases g.size - rank[b], k
  {
    if k == 0 then 0 else
      CostOut(g, rank, c, b, k - 1)
      + (if g.edges[k - 1].src == b then c + Cost(g, rank, c, g.edges[k - 1].dst) else 0)
  }

  ghost function QueuedWork<M>(g: Graph, rank: seq<nat>, c: nat, qs: seq<seq<M>>, k: nat): nat
    requires Layered(g, rank) && |qs| == g.size && k <= g.size
    decreases k
  {
    if k == 0 then 0
    else QueuedWork(g, rank, c, qs, k - 1) + Times(|qs[k - 1]|, Cost(g, rank, c, k - 1))
  }

  ghost function PendingWork<M>(g: Graph, rank: seq<nat>, c: nat, s: State<M>, k: nat): nat
    requires Layered(g, rank) && Fits(g, s) && k <= |g.edges|
    decreases k
  {
    if k == 0 then 0 else
      PendingWork(g, rank, c, s, k - 1)
      + Times(|s.handled[g.edges[k - 1].src]| - s.sent[k - 1], c + Cost(g, rank, c, g.edges[k - 1].dst))
  }

  ghost function Calls<M>(handled: seq<seq<M>>, k: nat): nat
    requires k <= |handled|
    decreases k
  {
    if k == 0 then 0 else Calls(handled, k - 1) + |handled[k - 1]|
  }

  ghost function Deliveries(sent: seq<nat>, k: nat): nat
    requires k <= |sent|
    decreases k
  {
    if k == 0 then 0 else Deliveries(sent, k - 1) + sent[k - 1]
  }

  ghost function Remaining<M>(g: Graph, rank: seq<nat>, c: nat, s: State<M>): nat
    requires Layered(g, rank) && Fits(g, s)
  {
    QueuedWork(g, rank, c, s.queue, g.size) + PendingWork(g, rank, c, s, |g.edges|)
  }

  ghost function Done<M>(g: Graph, c: nat, s: State<M>): nat
    requires Fits(g, s)
  {
    Calls(s.handled, g.size) + Times(Deliveries(s.sent, |g.edges|), c)
  }

  lemma {:induction false} QueuedWorkUpdate<M>(
    g: Graph, rank: seq<nat>, c: nat, qs: seq<seq<M>>, b: nat, q: seq<M>, k: nat)
    requires Layered(g, rank) && |qs| == g.size && k <= g.size && b < g.size
    requires |q| == |qs[b]| + 1
    ensures QueuedWork(g, rank, c, qs[b := q], k)
      == QueuedWork(g, rank, c, qs, k) + if b < k then Cost(g, rank, c, b) else 0
    decreases k
  {
    if k > 0 {
      QueuedWorkUpdate(g, rank, c, qs, b, q, k - 1);
      assert Times(|qs[b]| + 1, Cost(g, rank, c, b)) == Times(|qs[b]|, Cost(g, rank, c, b)) + Cost(g, rank, c, b);
    }
  }

  /** One more message handled at `b` is one more pending delivery on each of its subscriptions. */
  lemma {:induction false} PendingAfterHandle<M>(
    g: Graph, rank: seq<nat>, c: nat, s: State<M>, s': State<M>, b: nat, k: nat)
    requires Layered(g, rank) && Fits(g, s) && Fits(g, s') && b < g.size && k <= |g.edges|
    requires s'.sent == s.sent
    requires |s'.handled[b]| == |s.handled[b]| + 1
    requires forall a :: 0 <= a < g.size && a != b ==> s'.handled[a] == s.handled[a]
    ensures PendingWork(g, rank, c, s', k) == PendingWork(g, rank, c, s, k) + CostOut(g, rank, c, b, k)
    decreases k
  {
    if k > 0 {
      PendingAfterHandle(g, rank, c, s, s', b, k - 1);
      var w := c + Cost(g, rank, c, g.edges[k - 1].dst);
      var p := |s.handled[g.edges[k - 1].src]| - s.sent[k - 1];
      assert Times(p + 1, w) == Times(p, w) + w;
    }
  }

  lemma {:induction false} PendingAfterDeliver<M>(
    g: Graph, rank: seq<nat>, c: nat, s: State<M>, s': State<M>, e: nat, k: nat)
    requires Layered(g, rank) && Fits(g, s) && Fits(g, s') && e < |g.edges| && k <= |g.edges|
    requires s'.handled == s.handled && s'.sent == s.sent[e := s.sent[e] + 1]
    ensures PendingWork(g, rank, c, s, k)
      == PendingWork(g, rank, c, s', k) + if e < k then c + Cost(g, rank, c, g.edges[e].dst) else 0
    decreases k
  {
    if k > 0 {
      PendingAfterDeliver(g, rank, c, s, s', e, k - 1);
      var w := c + Cost(g, rank, c, g.edges[k - 1].dst);
      var p := |s'.handled[g.edges[k - 1].src]| - s'.sent[k - 1];
      assert Times(p + 1, w) == Times(p, w) + w;
    }
  }

  lemma {:induction false} PendingUnchanged<M>(
    g: Graph, rank: seq<nat>, c: nat, s: State<M>, s': State<M>, k: nat)
    requires Layered(g, rank) && Fits(g, s) && Fits(g, s') && k <= |g.edges|
    requires s'.handled == s.handled && s'.sent == s.sent
    ensures PendingWork(g, rank, c, s', k) == PendingWork(g, rank, c, s, k)
    decreases k
  {
    if k > 0 { PendingUnchanged(g, rank, c, s, s', k - 1); }
  }

  lemma {:induction false} CallsUpdate<M>(handled: seq<seq<M>>, b: nat, h: seq<M>, k: nat)
    requires b < |handled| && k <= |handled| && |h| == |handled[b]| + 1
    ensures Calls(handled[b := h], k) == Calls(handled, k) + if b < k then 1 else 0
    decreases k
  {
    if k > 0 { CallsUpdate(handled, b, h, k - 1); }
  }

  lemma {:induction false} DeliveriesUpdate(sent: seq<nat>, e: nat, k: nat)
    requires e < |sent| && k <= |sent|
    ensures Deliveries(sent[e := sent[e] + 1], k) == Deliveries(sent, k) + if e < k then 1 else 0
    decreases k
  {
    if k > 0 { DeliveriesUpdate(sent, e, k - 1); }
  }

  /** Work done plus work remaining changes by nothing but the cost of a post: each handler call
      removes exactly one unit and each delivery exactly `c`. */
  lemma StepWork<M>(g: Graph, rank: seq<nat>, c: nat, s: State<M>, step: Step<M>)
    requires Layered(g, rank) && Fits(g, s) && Enabled(g, s, step)
    ensures var s' := Apply(g, s, step);
      && Done(g, c, s') == Done(g, c, s) + (match step case Post(_, _) => 0 case Handle(_) => 1 case Deliver(_) => c)
      && Done(g, c, s') + Remaining(g, rank, c, s')
         == Done(g, c, s) + Remaining(g, rank, c, s) + if step.Post? then Cost(g, rank, c, step.block) else 0
  {
    match step
    case Post(_, _) => PostWork(g, rank, c, s, step);
    case Handle(_) => HandleWork(g, rank, c, s, step);
    case Deliver(_) => DeliverWork(g, rank, c, s, step);
  }

  lemma PostWork<M>(g: Graph, rank: seq<nat>, c: nat, s: State<M>, step: Step<M>)
    requires Layered(g, rank) && Fits(g, s) && Enabled(g, s, step) && step.Post?
    ensures Done(g, c, Apply(g, s, step)) == Done(g, c, s)
    ensures Remaining(g, rank, c, Apply(g, s, step)) == Remaining(g, rank, c, s) + Cost(g, rank, c, step.block)
  {
    var s' := Apply(g, s, step);
    QueuedWorkUpdate(g, rank, c, s.queue, step.block, s'.queue[step.block], g.size);
    PendingUnchanged(g, rank, c, s, s', |g.edges|);
  }

  lemma HandleWork<M>(g: Graph, rank: seq<nat>, c: nat, s: State<M>, step: Step<M>)
    requires Layered(g, rank) && Fits(g, s) && Enabled(g, s, step) && step.Handle?
    ensures Done(g, c, Apply(g, s, step)) == Done(g, c, s) + 1
    ensures Remaining(g, rank, c, Apply(g, s, step)) + 1 == Remaining(g, rank, c, s)
  {
    var b, s' := step.block, Apply(g, s, step);
    assert s'.queue[b := s.queue[b]] == s.queue;
    QueuedWorkUpdate(g, rank, c, s'.queue, b, s.queue[b], g.size);
    PendingAfterHandle(g, rank, c, s, s', b, |g.edges|);
    CallsUpdate(s.handled, b, s'.handled[b], g.size);
  }

  lemma DeliverWork<M>(g: Graph, rank: seq<nat>, c: nat, s: State<M>, step: Step<M>)
    requires Layered(g, rank) && Fits(g, s) && Enabled(g, s, step) && step.Deliver?
    ensures Done(g, c, Apply(g, s, step)) == Done(g, c, s) + c
    ensures Remaining(g, rank, c, Apply(g, s, step)) + c == Remaining(g, rank, c, s)
  {
    var e, s' := step.edge, Apply(g, s, step);
    var d := g.edges[e].dst;
    QueuedWorkUpdate(g, rank, c, s.queue, d, s'.queue[d], g.size);
    PendingAfterDeliver(g, rank, c, s, s', e, |g.edges|);
    DeliveriesUpdate(s.sent, e, |g.edges|);
  }

  ghost function PostCost<M>(g: Graph, rank: seq<nat>, c: nat, steps: seq<Step<M>>): nat
    requires Layered(g, rank)
  {
    if steps == [] then 0 else
      PostCost(g, rank, c, steps[1..])
      + (if steps[0].Post? && steps[0].block < g.size then Cost(g, rank, c, steps[0].block) else 0)
  }

  ghost function Posts<M>(steps: seq<Step<M>>): nat {
    if steps == [] then 0 else Posts(steps[1..]) + if steps[0].Post? then 1 else 0
  }

  /** The account over whole runs. With `c == 1` the work done is the number of scheduler steps. */
  lemma {:induction false} RunWork<M>(
    g: Graph, rank: seq<nat>, c: nat, s: State<M>, steps: seq<Step<M>>, s': State<M>)
    requires Layered(g, rank) && Fits(g, s) && Runs(g, s, steps, s')
    ensures Fits(g, s')
    ensures Done(g, c, s') + Remaining(g, rank, c, s')
      == Done(g, c, s) + Remaining(g, rank, c, s) + PostCost(g, rank, c, steps)
    ensures c == 1 ==> Done(g, c, s') + Posts(steps) == Done(g, c, s) + |steps|
    decreases |steps|
  {
    if steps != [] {
      StepWork(g, rank, c, s, steps[0]);
      RunWork(g, rank, c, Apply(g, s, steps[0]), steps[1..], s');
    }
  }

  /** No deadlock: unless everything is handled, some block can handle or deliver. */
  lemma Progress<M>(g: Graph, s: State<M>)
    requires Fits(g, s) && !Quiescent(g, s)
    ensures exists step: Step<M> :: !step.Post? && Enabled(g, s, step)
  {
    if e :| 0 <= e < |g.edges| && s.sent[e] != |s.handled[g.edges[e].src]| {
      assert Enabled(g, s, Step<M>.Deliver(e));
    } else {
      var b :| 0 <= b < g.size && s.queue[b] != [];
      assert Enabled(g, s, Step<M>.Handle(b));
    }
  }

  lemma {:induction false} QueuedWorkZero<M>(g: Graph, rank: seq<nat>, c: nat, qs: seq<seq<M>>, k: nat)
    requires Layered(g, rank) && |qs| == g.size && k <= g.size
    ensures QueuedWork(g, rank, c, qs, k) == 0 <==> forall b :: 0 <= b < k ==> qs[b] == []
    decreases k
  {
    if k > 0 {
      QueuedWorkZero(g, rank, c, qs, k - 1);
      WorkZero(|qs[k - 1]|, Cost(g, rank, c, k - 1));
    }
  }

  lemma WorkZero(n: nat, w: nat)
    requires w > 0
    ensures Times(n, w) == 0 <==> n == 0
  {
  }

  lemma {:induction false} PendingWorkZero<M>(g: Graph, rank: seq<nat>, c: nat, s: State<M>, k: nat)
    requires Layered(g, rank) && Fits(g, s) && k <= |g.edges|
    ensures PendingWork(g, rank, c, s, k) == 0
      <==> forall e :: 0 <= e < k ==> s.sent[e] == |s.handled[g.edges[e].src]|
    decreases k
  {
    if k > 0 {
      PendingWorkZero(g, rank, c, s, k - 1);
      WorkZero(|s.handled[g.edges[k - 1].src]| - s.sent[k - 1], c + Cost(g, rank, c, g.edges[k - 1].dst));
    }
  }

  lemma RemainingZero<M>(g: Graph, rank: seq<nat>, c: nat, s: State<M>)
    requires Layered(g, rank) && Fits(g, s)
    ensures Remaining(g, rank, c, s) == 0 <==> Quiescent(g, s)
  {
    QueuedWorkZero(g, rank, c, s.queue, g.size);
    PendingWorkZero(g, rank, c, s, |g.edges|);
  }

  ghost predicate NoPosts<M>(steps: seq<Step<M>>) {
    forall i :: 0 <= i < |steps| ==> !steps[i].Post?
  }

  /** From every state the network can finish what it has been given, and it takes exactly as many
      steps as there is work remaining. */
  lemma {:induction false} CanFinish<M>(g: Graph, rank: seq<nat>, s: State<M>) returns (steps: seq<Step<M>>, s': State<M>)
    requires Layered(g, rank) && Fits(g, s)
    ensures Runs(g, s, steps, s') && NoPosts(steps)
    ensures Fits(g, s') && Quiescent(g, s') && |steps| == Remaining(g, rank, 1, s)
    decreases Remaining(g, rank, 1, s)
  {
    RemainingZero(g, rank, 1, s);
    if Quiescent(g, s) {
      steps, s' := [], s;
    } else {
      Progress(g, s);
      var step: Step<M> :| !step.Post? && Enabled(g, s, step);
      StepWork(g, rank, 1, s, step);
      var rest, last := CanFinish(g, rank, Apply(g, s, step));
      steps, s' := [step] + rest, last;
      assert steps[1..] == rest;
    }
  }

  lemma {:induction false} InitCounts<M>(g: Graph, rank: seq<nat>, c: nat)
    requires Layered(g, rank)
    ensures Done<M>(g, c, Init(g)) == 0 && Remaining<M>(g, rank, c, Init(g)) == 0
  {
    var s := Init<M>(g);
    RemainingZero(g, rank, c, s);
    assert Calls(s.handled, g.size) == 0 by { NoCalls(s.handled, g.size); }
    assert Deliveries(s.sent, |g.edges|) == 0 by { NoDeliveries(s.sent, |g.edges|); }
  }

  lemma {:induction false} NoCalls<M>(handled: seq<seq<M>>, k: nat)
    requires k <= |handled| && forall b :: 0 <= b < |handled| ==> handled[b] == []
    ensures Calls(handled, k) == 0
    decreases k
  {
    if k > 0 { NoCalls(handled, k - 1); }
  }

  lemma {:induction false} NoDeliveries(sent: seq<nat>, k: nat)
    requires k <= |sent| && forall e :: 0 <= e < |sent| ==> sent[e] == 0
    ensures Deliveries(sent, k) == 0
    decreases k
  {
    if k > 0 { NoDeliveries(sent, k - 1); }
  }

  lemma {:induction false} PostCostAtSource<M>(g: Graph, rank: seq<nat>, c: nat, steps: seq<Step<M>>, b: nat)
    requires Layered(g, rank) && b < g.size
    requires forall i :: 0 <= i < |steps| && steps[i].Post? ==> steps[i].block == b
    ensures PostCost(g, rank, c, steps) == Times(Posts(steps), Cost(g, rank, c, b))
    decreases |steps|
  {
    if steps != [] {
      PostCostAtSource(g, rank, c, steps[1..], b);
    }
  }

  lemma RunAccount<M>(g: Graph, rank: seq<nat>, c: nat, steps: seq<Step<M>>, s: State<M>, src: nat)
    requires Layered(g, rank) && src < g.size && Runs(g, Init(g), steps, s)
    requires forall i :: 0 <= i < |steps| && steps[i].Post? ==> steps[i].block == src
    ensures Fits(g, s)
    ensures Done(g, c, s) + Remaining(g, rank, c, s) == Times(Posts(steps), Cost(g, rank, c, src))
    ensures Quiescent(g, s) <==> Done(g, c, s) == Times(Posts(steps), Cost(g, rank, c, src))
  {
    InitCounts<M>(g, rank, c);
    RunWork(g, rank, c, Init(g), steps, s);
    PostCostAtSource(g, rank, c, steps, src);
    RemainingZero(g, rank, c, s);
  }

  /** The handler calls of a schedule. */
  ghost function HandlerCalls<M>(steps: seq<Step<M>>): (n: nat)
    ensures n <= |steps|
  {
    if steps == [] then 0 else HandlerCalls(steps[1..]) + if steps[0].Handle? then 1 else 0
  }

  /** The logs of handled messages have grown by one message per handler call. */
  lemma {:induction false} CallsLogged<M>(g: Graph, s: State<M>, steps: seq<Step<M>>, s': State<M>)
    requires Fits(g, s) && Runs(g, s, steps, s')
    ensures Fits(g, s') && Calls(s'.handled, g.size) == Calls(s.handled, g.size) + HandlerCalls(steps)
    decreases |steps|
  {
    if steps != [] {
      var next := Apply(g, s, steps[0]);
      if steps[0].Handle? { CallsUpdate(s.handled, steps[0].block, next.handled[steps[0].block], g.size); }
      CallsLogged(g, next, steps[1..], s');
    }
  }

  /** Any run that posts only at `src`, where a message costs `w` calls, makes at most as many handler calls
      as the posts fix, and exactly that many when it is quiescent. */
  lemma RunCalls<M>(g: Graph, rank: seq<nat>, steps: seq<Step<M>>, s: State<M>, src: nat, w: nat)
    requires Layered(g, rank) && src < g.size && Runs(g, Init(g), steps, s)
    requires forall i :: 0 <= i < |steps| && steps[i].Post? ==> steps[i].block == src
    requires Cost(g, rank, 0, src) == w
    ensures Fits(g, s) && HandlerCalls(steps) <= Times(Posts(steps), w)
    ensures Quiescent(g, s) <==> HandlerCalls(steps) == Times(Posts(steps), w)
  {
    RunAccount(g, rank, 0, steps, s, src);
    TimesZero(Deliveries(s.sent, |g.edges|));
    InitCounts<M>(g, rank, 0);
    CallsLogged(g, Init(g), steps, s);
  }

  /** Every run that posts only at `src` has at most as many steps as the posts fix, and exactly
      that many when it is quiescent: no schedule runs forever and all complete runs are equally long. */
  lemma RunLength<M>(g: Graph, rank: seq<nat>, steps: seq<Step<M>>, s: State<M>, src: nat, w: nat)
    requires Layered(g, rank) && src < g.size && Runs(g, Init(g), steps, s)
    requires forall i :: 0 <= i < |steps| && steps[i].Post? ==> steps[i].block == src
    requires Cost(g, rank, 1, src) == w
    ensures Fits(g, s) && |steps| <= Posts(steps) + Times(Posts(steps), w)
    ensures Quiescent(g, s) <==> |steps| == Posts(steps) + Times(Posts(steps), w)
  {
    InitCounts<M>(g, rank, 1);
    RunAccount(g, rank, 1, steps, s, src);
    RunWork(g, rank, 1, Init(g), steps, s);
  }

  /** A run of the benchmark: from the empty network, posting only at block 0. */
  ghost predicate BurstRun<M>(g: Graph, steps: seq<Step<M>>, s: State<M>) {
    && WellFormed(g) && 0 < g.size
    && Runs(g, Init(g), steps, s)
    && forall i :: 0 <= i < |steps| && steps[i].Post? ==> steps[i].block == 0
  }

  lemma BurstLength<M>(g: Graph, rank: seq<nat>, steps: seq<Step<M>>, s: State<M>, w: nat)
    requires BurstRun(g, steps, s) && Layered(g, rank) && Cost(g, rank, 1, 0) == w
    ensures Fits(g, s) && |steps| <= Posts(steps) + Times(Posts(steps), w)
    ensures Quiescent(g, s) <==> |steps| == Posts(steps) + Times(Posts(steps), w)
  {
    RunLength(g, rank, steps, s, 0, w);
  }

  lemma {:induction false} PostedByRun<M>(g: Graph, s: State<M>, steps: seq<Step<M>>, s': State<M>, b: nat)
    requires Fits(g, s) && Runs(g, s, steps, s') && b < g.size
    requires forall i :: 0 <= i < |steps| && steps[i].Post? ==> steps[i].block == 0
    ensures Fits(g, s') && |s'.posted[b]| == |s.posted[b]| + if b == 0 then Posts(steps) else 0
    decreases |steps|
  {
    if steps != [] {
      PostedByRun(g, Apply(g, s, steps[0]), steps[1..], s', b);
    }
  }

  lemma BurstInv<M>(g: Graph, steps: seq<Step<M>>, s: State<M>)
    requires BurstRun(g, steps, s)
    ensures Inv(g, s) && |s.posted[0]| == Posts(steps)
    ensures forall b :: 0 < b < g.size ==> s.posted[b] == []
  {
    InitInv<M>(g);
    RunInv(g, Init(g), steps, s);
    forall b | 0 <= b < g.size
      ensures |s.posted[b]| == if b == 0 then Posts(steps) else 0
    {
      PostedByRun(g, Init(g), steps, s, b);
    }
  }
}
