/** What every run of the fork and diamond message flowgraphs delivers, for any number of pipes and
    stages, any burst and any schedule. */
module MessageRuns {
  import opened MessageNet
  import opened MessageFlowgraph
  import opened Strides

  // ---------------------------------------------------------------------------------------
  // Fork
  // ---------------------------------------------------------------------------------------

  lemma {:induction false} ForkUnjoined<M>(pipes: nat, n: nat, s: State<M>, b: nat)
    requires n > 0 && Fits(Fork(pipes, n), s) && b < Fork(pipes, n).size
    requires forall a :: 0 < a < Fork(pipes, n).size ==> s.posted[a] == []
    ensures Layered(Fork(pipes, n), ForkRank(pipes, n))
    ensures Unjoined(Fork(pipes, n), ForkRank(pipes, n), s, 0, b)
    decreases b
  {
    ForkLayered(pipes, n);
    var g := Fork(pipes, n);
    if b > 0 {
      assert OnlyInput(g, b, b - 1);
      ForkUnjoined(pipes, n, s, g.edges[b - 1].src);
    }
  }

  /** At every state of every run each block of the fork has handled a prefix of the burst in posted
      order; at quiescence each has handled the whole burst. */
  lemma ForkDelivers<M>(pipes: nat, n: nat, steps: seq<Step<M>>, s: State<M>, b: nat)
    requires n > 0 && BurstRun(Fork(pipes, n), steps, s) && b < Fork(pipes, n).size
    ensures Inv(Fork(pipes, n), s) && Arrived(s, b) <= s.posted[0]
    ensures Quiescent(Fork(pipes, n), s) ==> s.handled[b] == s.posted[0]
  {
    BurstInv(Fork(pipes, n), steps, s);
    ForkUnjoined(pipes, n, s, b);
    UnjoinedHandlesPosts(Fork(pipes, n), ForkRank(pipes, n), s, 0, b);
  }

  /** A burst of B messages costs at most B * (1 + pipes * n) handler calls under any schedule, and
      exactly that many once the fork is quiescent. */
  lemma ForkCalls<M>(pipes: nat, n: nat, steps: seq<Step<M>>, s: State<M>)
    requires n > 0 && BurstRun(Fork(pipes, n), steps, s)
    ensures Fits(Fork(pipes, n), s)
    ensures HandlerCalls(steps) <= Times(Posts(steps), 1 + Times(pipes, n))
    ensures Quiescent(Fork(pipes, n), s)
      <==> HandlerCalls(steps) == Times(Posts(steps), 1 + Times(pipes, n))
  {
    ForkMessageCost(pipes, n);
    RunCalls(Fork(pipes, n), ForkRank(pipes, n), steps, s, 0, 1 + Times(pipes, n));
  }

  /** Every schedule of the fork terminates, and all complete schedules are equally long. */
  lemma ForkTerminates<M>(pipes: nat, n: nat, steps: seq<Step<M>>, s: State<M>)
    requires n > 0 && BurstRun(Fork(pipes, n), steps, s)
    ensures Fits(Fork(pipes, n), s)
    ensures |steps| <= Posts(steps) + Times(Posts(steps), 1 + Times(pipes, n) + Times(pipes, n))
    ensures Quiescent(Fork(pipes, n), s)
      <==> |steps| == Posts(steps) + Times(Posts(steps), 1 + Times(pipes, n) + Times(pipes, n))
  {
    ForkMessageCost(pipes, n);
    BurstLength(Fork(pipes, n), ForkRank(pipes, n), steps, s, 1 + Times(pipes, n) + Times(pipes, n));
  }

  // ---------------------------------------------------------------------------------------
  // Diamond
  // ---------------------------------------------------------------------------------------

  /** Pipe `p`'s subscription into the sink, and the block that publishes on it. */
  function SinkEdge(n: nat, p: nat): nat { Times(p, n + 1) + n }

  function LastBlock(n: nat, p: nat): nat { 1 + Times(p, n) + n }

  lemma DiamondSinkEdge(pipes: nat, n: nat, p: nat)
    requires n > 0 && p < pipes
    ensures SinkEdge(n, p) < |Diamond(pipes, n).edges| && LastBlock(n, p) < Diamond(pipes, n).size
    ensures Diamond(pipes, n).edges[SinkEdge(n, p)] == Edge(LastBlock(n, p), 1)
  {
    RowInside(p, n + 1, pipes);
    RowInside(p, n, pipes);
    RowColumn(p, n + 1, n);
  }

  lemma {:induction false} DiamondUnjoined<M>(pipes: nat, n: nat, s: State<M>, p: nat, j: nat)
    requires p < pipes && j < n && Fits(Diamond(pipes, n), s)
    requires forall a :: 0 < a < Diamond(pipes, n).size ==> s.posted[a] == []
    ensures Layered(Diamond(pipes, n), DiamondRank(pipes, n)) && 2 + Times(p, n) + j < Diamond(pipes, n).size
    ensures Unjoined(Diamond(pipes, n), DiamondRank(pipes, n), s, 0, 2 + Times(p, n) + j)
    decreases j
  {
    DiamondLayered(pipes, n);
    DiamondOnlyInput(pipes, n, p, j);
    RowColumn(p, n + 1, j);
    if j > 0 {
      DiamondUnjoined(pipes, n, s, p, j - 1);
    } else {
      DiamondSourceUnjoined(pipes, n, s);
    }
  }

  lemma DiamondSourceUnjoined<M>(pipes: nat, n: nat, s: State<M>)
    requires n > 0 && Fits(Diamond(pipes, n), s)
    ensures Layered(Diamond(pipes, n), DiamondRank(pipes, n))
    ensures Unjoined(Diamond(pipes, n), DiamondRank(pipes, n), s, 0, 0)
  {
    DiamondLayered(pipes, n);
    forall e | 0 <= e < |Diamond(pipes, n).edges|
      ensures Diamond(pipes, n).edges[e].dst != 0
    {
      DiamondEdgeInPipe(pipes, n, e);
    }
  }

  /** At every state of every run each block of a diamond pipe has handled a prefix of the burst in
      posted order, and the whole burst at quiescence. */
  lemma DiamondPipeDelivers<M>(pipes: nat, n: nat, steps: seq<Step<M>>, s: State<M>, p: nat, j: nat)
    requires BurstRun(Diamond(pipes, n), steps, s) && p < pipes && j < n
    ensures Inv(Diamond(pipes, n), s) && 2 + Times(p, n) + j < Diamond(pipes, n).size
    ensures Arrived(s, 2 + Times(p, n) + j) <= s.posted[0]
    ensures Quiescent(Diamond(pipes, n), s) ==> s.handled[2 + Times(p, n) + j] == s.posted[0]
  {
    BurstInv(Diamond(pipes, n), steps, s);
    DiamondUnjoined(pipes, n, s, p, j);
    UnjoinedHandlesPosts(Diamond(pipes, n), DiamondRank(pipes, n), s, 0, 2 + Times(p, n) + j);
  }

  /** Which pipe each arrival at the sink came through. */
  ghost predicate SinkShuffle<M>(arrived: seq<M>, from: seq<int>, pipes: nat, n: nat, streams: seq<seq<M>>) {
    && |from| == |arrived| && |streams| == pipes
    && (forall i :: 0 <= i < |from| ==> exists p: nat :: p < pipes && from[i] == SinkEdge(n, p))
    && forall p :: 0 <= p < pipes ==> Select(arrived, from, SinkEdge(n, p)) == streams[p]
  }

  /** What each pipe has delivered to the sink so far. */
  ghost function PipeStreams<M>(pipes: nat, n: nat, s: State<M>): seq<seq<M>>
    requires n > 0 && Fits(Diamond(pipes, n), s)
  {
    seq(pipes, p requires 0 <= p < pipes =>
      DiamondSinkEdge(pipes, n, p);
      s.handled[LastBlock(n, p)][..s.sent[SinkEdge(n, p)]])
  }

  /** In every run the sink's handled log plus its queue is a shuffle of one prefix of the burst per
      pipe; at quiescence it is a shuffle of exactly `pipes` copies of the whole burst. */
  lemma DiamondSinkShuffles<M>(pipes: nat, n: nat, steps: seq<Step<M>>, s: State<M>)
    requires n > 0 && BurstRun(Diamond(pipes, n), steps, s)
    ensures Inv(Diamond(pipes, n), s)
    ensures exists from :: SinkShuffle(Arrived(s, 1), from, pipes, n, PipeStreams(pipes, n, s))
    ensures forall p :: 0 <= p < pipes ==> PipeStreams(pipes, n, s)[p] <= s.posted[0]
    ensures Quiescent(Diamond(pipes, n), s) ==>
      forall p :: 0 <= p < pipes ==> PipeStreams(pipes, n, s)[p] == s.posted[0]
  {
    BurstInv(Diamond(pipes, n), steps, s);
    assert Interleaved(Diamond(pipes, n), s, 1);
    var from :| Interleaves(Diamond(pipes, n), s, 1, from);
    SinkTags(pipes, n, s, from);
    forall p | 0 <= p < pipes
      ensures PipeStreams(pipes, n, s)[p] <= s.posted[0]
      ensures Quiescent(Diamond(pipes, n), s) ==> PipeStreams(pipes, n, s)[p] == s.posted[0]
    {
      PipeStreamDelivers(pipes, n, steps, s, p);
    }
  }

  lemma PipeStreamDelivers<M>(pipes: nat, n: nat, steps: seq<Step<M>>, s: State<M>, p: nat)
    requires n > 0 && BurstRun(Diamond(pipes, n), steps, s) && Inv(Diamond(pipes, n), s) && p < pipes
    ensures PipeStreams(pipes, n, s)[p] <= s.posted[0]
    ensures Quiescent(Diamond(pipes, n), s) ==> PipeStreams(pipes, n, s)[p] == s.posted[0]
  {
    DiamondSinkEdge(pipes, n, p);
    DiamondPipeDelivers(pipes, n, steps, s, p, n - 1);
  }

  lemma SinkTags<M>(pipes: nat, n: nat, s: State<M>, from: seq<int>)
    requires n > 0 && Fits(Diamond(pipes, n), s) && s.posted[1] == [] && Interleaves(Diamond(pipes, n), s, 1, from)
    ensures SinkShuffle(Arrived(s, 1), from, pipes, n, PipeStreams(pipes, n, s))
  {
    SelectNothing(Arrived(s, 1), from, POSTED);
    forall i | 0 <= i < |from|
      ensures exists p: nat :: p < pipes && from[i] == SinkEdge(n, p)
    {
      var e := from[i] + 0;
      DiamondEdgeInPipe(pipes, n, e);
      assert from[i] == SinkEdge(n, Row(e, n + 1));
    }
    forall p | 0 <= p < pipes
      ensures Select(Arrived(s, 1), from, SinkEdge(n, p)) == PipeStreams(pipes, n, s)[p]
    {
      DiamondSinkEdge(pipes, n, p);
    }
  }

  /** Stream `e` holds `u` copies if it ends a row of `w`, and none otherwise. */
  ghost predicate RowEnd<M>(streams: seq<seq<M>>, x: M, w: nat, u: nat, e: nat)
    requires w > 0
  {
    e < |streams| && Copies(streams[e], x) == if Col(e, w) == w - 1 then u else 0
  }

  /** Streams that hold `u` copies in the last entry of every row of `w` and none elsewhere. */
  lemma {:induction false} TotalCopiesRowEnds<M>(streams: seq<seq<M>>, x: M, w: nat, u: nat, k: nat)
    requires w > 0 && k <= |streams| && forall e: nat :: e < |streams| ==> RowEnd(streams, x, w, u, e)
    ensures TotalCopies(streams, x, k) == Times(Row(k, w), u)
    decreases k
  {
    if k > 0 {
      assert RowEnd(streams, x, w, u, k - 1);
      TotalCopiesRowEnds(streams, x, w, u, k - 1);
      RowNext(k - 1, w);
    }
  }

  lemma TotalCopiesOfRows<M>(streams: seq<seq<M>>, x: M, w: nat, u: nat, rows: nat)
    requires w > 0 && |streams| == Times(rows, w) && forall e: nat :: e < |streams| ==> RowEnd(streams, x, w, u, e)
    ensures TotalCopies(streams, x, |streams|) == Times(rows, u)
  {
    TotalCopiesRowEnds(streams, x, w, u, |streams|);
    RowColumn(rows, w, 0);
  }

  lemma DiamondStreamCopies<M>(pipes: nat, n: nat, steps: seq<Step<M>>, s: State<M>, x: M, e: nat)
    requires n > 0 && BurstRun(Diamond(pipes, n), steps, s) && e < Times(pipes, n + 1)
    requires Fits(Diamond(pipes, n), s) && Quiescent(Diamond(pipes, n), s)
    ensures RowEnd(Streams(Diamond(pipes, n), s, 1), x, n + 1, Copies(s.posted[0], x), e)
  {
    DiamondSinkStream(pipes, n, steps, s, e);
  }

  lemma DiamondSinkArrivals<M>(pipes: nat, n: nat, steps: seq<Step<M>>, s: State<M>, x: M)
    requires n > 0 && BurstRun(Diamond(pipes, n), steps, s)
    requires Fits(Diamond(pipes, n), s) && Quiescent(Diamond(pipes, n), s)
    ensures Copies(s.handled[1], x) == CopiesIn(Diamond(pipes, n), s, 1, x)
  {
    BurstInv(Diamond(pipes, n), steps, s);
    ArrivalsConserved(Diamond(pipes, n), s, 1, x);
    assert Arrived(s, 1) == s.handled[1];
  }

  lemma DiamondSinkCopies<M>(pipes: nat, n: nat, steps: seq<Step<M>>, s: State<M>, x: M)
    requires n > 0 && BurstRun(Diamond(pipes, n), steps, s)
    requires Fits(Diamond(pipes, n), s) && Quiescent(Diamond(pipes, n), s)
    ensures Copies(s.handled[1], x) == Times(pipes, Copies(s.posted[0], x))
  {
    var streams, w, u := Streams(Diamond(pipes, n), s, 1), n + 1, Copies(s.posted[0], x);
    DiamondSinkArrivals(pipes, n, steps, s, x);
    forall e: nat | e < |streams|
      ensures RowEnd(streams, x, w, u, e)
    {
      DiamondStreamCopies(pipes, n, steps, s, x, e);
    }
    TotalCopiesOfRows(streams, x, w, u, pipes);
  }

  /** Every posted message arrives at the diamond's sink exactly `pipes` times. */
  lemma DiamondSinkMultiset<M>(pipes: nat, n: nat, steps: seq<Step<M>>, s: State<M>, x: M)
    requires n > 0 && BurstRun(Diamond(pipes, n), steps, s)
    requires Fits(Diamond(pipes, n), s) && Quiescent(Diamond(pipes, n), s)
    ensures multiset(s.handled[1])[x] == pipes * multiset(s.posted[0])[x]
  {
    DiamondSinkCopies(pipes, n, steps, s, x);
    TimesIsProduct(pipes, Copies(s.posted[0], x));
    CopiesIsMultiplicity(s.handled[1], x);
    CopiesIsMultiplicity(s.posted[0], x);
  }

  lemma DiamondSinkStream<M>(pipes: nat, n: nat, steps: seq<Step<M>>, s: State<M>, e: nat)
    requires n > 0 && BurstRun(Diamond(pipes, n), steps, s) && e < Times(pipes, n + 1)
    requires Fits(Diamond(pipes, n), s) && Quiescent(Diamond(pipes, n), s)
    ensures Streams(Diamond(pipes, n), s, 1)[e] == if Col(e, n + 1) == n then s.posted[0] else []
  {
    DiamondEdgeInPipe(pipes, n, e);
    if Col(e, n + 1) == n {
      DiamondPipeDelivers(pipes, n, steps, s, Row(e, n + 1), n - 1);
    }
  }

  /** A burst of B messages costs at most B * (1 + pipes * n + pipes) handler calls under any schedule,
      and exactly that many once the diamond is quiescent. */
  lemma DiamondCalls<M>(pipes: nat, n: nat, steps: seq<Step<M>>, s: State<M>)
    requires n > 0 && BurstRun(Diamond(pipes, n), steps, s)
    ensures Fits(Diamond(pipes, n), s)
    ensures HandlerCalls(steps) <= Times(Posts(steps), 1 + Times(pipes, n + 1))
    ensures Quiescent(Diamond(pipes, n), s)
      <==> HandlerCalls(steps) == Times(Posts(steps), 1 + Times(pipes, n + 1))
  {
    DiamondMessageCalls(pipes, n);
    RunCalls(Diamond(pipes, n), DiamondRank(pipes, n), steps, s, 0, 1 + Times(pipes, n + 1));
  }

  /** Every schedule of the diamond terminates, and all complete schedules are equally long. */
  lemma DiamondTerminates<M>(pipes: nat, n: nat, steps: seq<Step<M>>, s: State<M>)
    requires n > 0 && BurstRun(Diamond(pipes, n), steps, s)
    ensures Fits(Diamond(pipes, n), s)
    ensures |steps| <= Posts(steps) + Times(Posts(steps), 1 + Times(pipes, n + 1) + Times(pipes, n + 1))
    ensures Quiescent(Diamond(pipes, n), s)
      <==> |steps| == Posts(steps) + Times(Posts(steps), 1 + Times(pipes, n + 1) + Times(pipes, n + 1))
  {
    DiamondMessageSteps(pipes, n);
    BurstLength(Diamond(pipes, n), DiamondRank(pipes, n), steps, s, 1 + Times(pipes, n + 1) + Times(pipes, n + 1));
  }

  /** Two complete runs of the diamond from the same burst, under any two schedules: every pipe block
      ends with the same log and the sink with the same multiset. */
  lemma DiamondScheduleIndependent<M>(
    pipes: nat, n: nat, ss: seq<Step<M>>, s: State<M>, ts: seq<Step<M>>, t: State<M>, b: nat)
    requires n > 0 && BurstRun(Diamond(pipes, n), ss, s) && BurstRun(Diamond(pipes, n), ts, t)
    requires Fits(Diamond(pipes, n), s) && Quiescent(Diamond(pipes, n), s)
    requires Fits(Diamond(pipes, n), t) && Quiescent(Diamond(pipes, n), t)
    requires s.posted[0] == t.posted[0] && b < Diamond(pipes, n).size
    ensures b != 1 ==> s.handled[b] == t.handled[b]
    ensures multiset(s.handled[b]) == multiset(t.handled[b])
  {
    var g := Diamond(pipes, n);
    BurstInv(g, ss, s);
    BurstInv(g, ts, t);
    assert s.posted == t.posted;
    DiamondLayered(pipes, n);
    SameHandledMultisets(g, DiamondRank(pipes, n), s, t, b);
    if b == 0 {
      DiamondSourceUnjoined(pipes, n, s);
      DiamondSourceUnjoined(pipes, n, t);
      UnjoinedHandlesPosts(g, DiamondRank(pipes, n), s, 0, 0);
      UnjoinedHandlesPosts(g, DiamondRank(pipes, n), t, 0, 0);
    } else if b >= 2 {
      IndexSplit(b - 2, n, pipes);
      DiamondPipeDelivers(pipes, n, ss, s, Row(b - 2, n), Col(b - 2, n));
      DiamondPipeDelivers(pipes, n, ts, t, Row(b - 2, n), Col(b - 2, n));
    }
  }
}
