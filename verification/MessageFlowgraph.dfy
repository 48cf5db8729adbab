/** The fork and diamond topologies that `run_msg_flowgraph` builds from `msg_forward` blocks,
    and what every run of them delivers. */
module MessageFlowgraph {
  import opened MessageNet
  import opened Strides

  /** Pipe-major layout: the block at position `j` of pipe `p` is block `1 + p * n + j`, and the
      subscription that feeds it is number `p * n + j`. Block 0 is the source. */
  function ForkEdge(n: nat, k: nat): Edge
    requires n > 0
  {
    Edge(if Col(k, n) == 0 then 0 else k, k + 1)
  }

  function Fork(pipes: nat, n: nat): Graph
    requires n > 0
  {
    Graph(1 + Times(pipes, n), seq(Times(pipes, n), k requires k >= 0 => ForkEdge(n, k)))
  }

  /** Block 0 is the source and block 1 the sink; position `j` of pipe `p` is block
      `2 + p * n + j`. A pipe owns `n + 1` subscriptions, the last one into the sink. */
  function DiamondEdge(n: nat, k: nat): Edge {
    var p, j := Row(k, n + 1), Col(k, n + 1);
    Edge(if j == 0 then 0 else 1 + Times(p, n) + j, if j == n then 1 else 2 + Times(p, n) + j)
  }

  function Diamond(pipes: nat, n: nat): Graph {
    Graph(2 + Times(pipes, n), seq(Times(pipes, n + 1), k requires k >= 0 => DiamondEdge(n, k)))
  }

  ghost predicate ForkLaid(n: nat, es: seq<Edge>)
    requires n > 0
  {
    forall k :: 0 <= k < |es| ==> es[k] == ForkEdge(n, k)
  }

  ghost predicate DiamondLaid(n: nat, es: seq<Edge>) {
    forall k :: 0 <= k < |es| ==> es[k] == DiamondEdge(n, k)
  }

  lemma ForkLaidNext(n: nat, es: seq<Edge>, p: nat, j: nat)
    requires j < n && ForkLaid(n, es) && |es| == Times(p, n) + j
    ensures ForkLaid(n, es + [Edge(if j == 0 then 0 else |es|, |es| + 1)])
  {
    RowColumn(p, n, j);
  }

  lemma DiamondLaidNext(n: nat, es: seq<Edge>, p: nat, j: nat)
    requires j <= n && DiamondLaid(n, es) && |es| == Times(p, n + 1) + j
    ensures DiamondLaid(n,
      es + [Edge(if j == 0 then 0 else 1 + Times(p, n) + j, if j == n then 1 else 2 + Times(p, n) + j)])
  {
    RowColumn(p, n + 1, j);
  }

  datatype Config<T> = Known(graph: T) | Unknown

  class MsgFlowgraph {
    const pipes: int
    const stages: int
    var blocks: nat
    var subscriptions: seq<Edge>
    var src: nat

    constructor (pipes: int, stages: int)
      ensures this.pipes == pipes && this.stages == stages
      ensures blocks == 0 && subscriptions == []
    {
      this.pipes, this.stages := pipes, stages;
      blocks, subscriptions, src := 0, [], 0;
    }

    function Built(): Graph
      reads this
    {
      Graph(blocks, subscriptions)
    }

    method MakeBlock() returns (b: nat)
      modifies this`blocks
      ensures b == old(blocks) && blocks == old(blocks) + 1
    {
      b := blocks;
      blocks := blocks + 1;
    }

    method MsgConnect(a: nat, d: nat)
      requires a < blocks && d < blocks
      modifies this`subscriptions
      ensures subscriptions == old(subscriptions) + [Edge(a, d)]
    {
      subscriptions := subscriptions + [Edge(a, d)];
    }

    method CreateFork()
      requires blocks == 0 && subscriptions == []
      modifies this
      ensures src == 0 && Built() == Fork(PipeCount(pipes), PipeLength(stages))
    {
      ghost var n := PipeLength(stages);
      src := MakeBlock();
      var pipe := 0;
      while pipe < pipes
        invariant 0 <= pipe <= PipeCount(pipes)
        invariant src == 0 && |subscriptions| == Times(pipe, n) && blocks == 1 + Times(pipe, n)
        invariant ForkLaid(n, subscriptions)
      {
        ForkLaidNext(n, subscriptions, pipe, 0);
        var prev := MakeBlock();
        MsgConnect(src, prev);
        var stage := 1;
        while stage < stages
          invariant 1 <= stage <= n
          invariant src == 0 && |subscriptions| == Times(pipe, n) + stage && blocks == 1 + Times(pipe, n) + stage
          invariant prev == blocks - 1
          invariant ForkLaid(n, subscriptions)
          decreases stages - stage
        {
          ForkLaidNext(n, subscriptions, pipe, stage);
          var block := MakeBlock();
          MsgConnect(prev, block);
          prev := block;
          stage := stage + 1;
        }
        pipe := pipe + 1;
      }
      assert pipe == PipeCount(pipes);
    }

    method CreateDiamond()
      requires blocks == 0 && subscriptions == []
      modifies this
      ensures src == 0 && Built() == Diamond(PipeCount(pipes), PipeLength(stages))
    {
      ghost var n := PipeLength(stages);
      src := MakeBlock();
      var snk := MakeBlock();
      var pipe := 0;
      while pipe < pipes
        invariant 0 <= pipe <= PipeCount(pipes)
        invariant src == 0 && snk == 1 && |subscriptions| == Times(pipe, n + 1) && blocks == 2 + Times(pipe, n)
        invariant DiamondLaid(n, subscriptions)
      {
        DiamondLaidNext(n, subscriptions, pipe, 0);
        var prev := MakeBlock();
        MsgConnect(src, prev);
        var stage := 1;
        while stage < stages
          invariant 1 <= stage <= n
          invariant src == 0 && snk == 1
          invariant |subscriptions| == Times(pipe, n + 1) + stage && blocks == 2 + Times(pipe, n) + stage
          invariant prev == blocks - 1
          invariant DiamondLaid(n, subscriptions)
          decreases stages - stage
        {
          DiamondLaidNext(n, subscriptions, pipe, stage);
          var block := MakeBlock();
          MsgConnect(prev, block);
          prev := block;
          stage := stage + 1;
        }
        DiamondLaidNext(n, subscriptions, pipe, n);
        MsgConnect(prev, snk);
        pipe := pipe + 1;
      }
      assert pipe == PipeCount(pipes);
    }
  }

  /** The constructor's choice of topology; an unknown name is its `invalid_argument`. */
  method MakeFlowgraph(pipes: int, stages: int, config: string) returns (r: Config<Graph>)
    ensures r.Unknown? <==> config != "fork" && config != "diamond"
    ensures config == "fork" ==> IsFork(r.graph, if pipes > 0 then pipes else 0, if stages > 1 then stages else 1)
    ensures config == "diamond" ==>
      IsDiamond(r.graph, if pipes > 0 then pipes else 0, if stages > 1 then stages else 1)
    ensures config == "fork" ==> r == Known(Fork(PipeCount(pipes), PipeLength(stages)))
    ensures config == "diamond" ==> r == Known(Diamond(PipeCount(pipes), PipeLength(stages)))
  {
    var fg := new MsgFlowgraph(pipes, stages);
    if config == "fork" {
      fg.CreateFork();
      ForkIsFork(PipeCount(pipes), PipeLength(stages));
      r := Known(fg.Built());
    } else if config == "diamond" {
      fg.CreateDiamond();
      DiamondIsDiamond(PipeCount(pipes), PipeLength(stages));
      r := Known(fg.Built());
    } else {
      r := Unknown;
    }
  }

  // ---------------------------------------------------------------------------------------
  // Who publishes to whom
  // ---------------------------------------------------------------------------------------

  /** The publishers of block `b`, one entry per subscription, among the first `k` subscriptions. */
  function Publishers(es: seq<Edge>, b: nat, k: nat): seq<nat>
    requires k <= |es|
  {
    if k == 0 then [] else Publishers(es, b, k - 1) + if es[k - 1].dst == b then [es[k - 1].src] else []
  }

  /** Position `j` of pipe `p`, when the pipes of `n` blocks begin at block `first`, subscribes to the block
      before it and to nothing else; the first position subscribes to block 0. */
  predicate Chained(g: Graph, first: nat, n: nat, p: nat, j: nat) {
    var b := first + Times(p, n) + j;
    b < g.size && Publishers(g.edges, b, |g.edges|) == [if j == 0 then 0 else b - 1]
  }

  /** A source and `pipes` chains of `n` blocks behind it. */
  ghost predicate IsFork(g: Graph, pipes: nat, n: nat) {
    && g.size == 1 + pipes * n && |g.edges| == pipes * n
    && Publishers(g.edges, 0, |g.edges|) == []
    && forall p: nat, j: nat :: p < pipes && j < n ==> Chained(g, 1, n, p, j)
  }

  /** ... with a sink, block 1, that subscribes to the last block of every chain. */
  ghost predicate IsDiamond(g: Graph, pipes: nat, n: nat) {
    && g.size == 2 + pipes * n && |g.edges| == pipes * (n + 1)
    && Publishers(g.edges, 0, |g.edges|) == []
    && Publishers(g.edges, 1, |g.edges|) == seq(pipes, p requires p >= 0 => 1 + Times(p + 1, n))
    && forall p: nat, j: nat :: p < pipes && j < n ==> Chained(g, 2, n, p, j)
  }

  lemma {:induction false} PublishersSkip(es: seq<Edge>, b: nat, k: nat, l: nat)
    requires k <= l <= |es| && forall e :: k <= e < l ==> es[e].dst != b
    ensures Publishers(es, b, l) == Publishers(es, b, k)
    decreases l
  {
    if k < l { PublishersSkip(es, b, k, l - 1); }
  }

  lemma PublishersNone(es: seq<Edge>, b: nat)
    requires forall e :: 0 <= e < |es| ==> es[e].dst != b
    ensures Publishers(es, b, |es|) == []
  {
    PublishersSkip(es, b, 0, |es|);
  }

  lemma PublisherOnly(g: Graph, b: nat, e: nat)
    requires OnlyInput(g, b, e)
    ensures Publishers(g.edges, b, |g.edges|) == [g.edges[e].src]
  {
    PublishersSkip(g.edges, b, 0, e);
    PublishersSkip(g.edges, b, e + 1, |g.edges|);
  }

  lemma ForkIsFork(pipes: nat, n: nat)
    requires n > 0
    ensures IsFork(Fork(pipes, n), pipes, n)
  {
    var g := Fork(pipes, n);
    TimesIsProduct(pipes, n);
    PublishersNone(g.edges, 0);
    forall p: nat, j: nat | p < pipes && j < n
      ensures Chained(g, 1, n, p, j)
    {
      RowInside(p, n, pipes);
      RowColumn(p, n, j);
      PublisherOnly(g, 1 + Times(p, n) + j, Times(p, n) + j);
    }
  }

  lemma DiamondIsDiamond(pipes: nat, n: nat)
    requires n > 0
    ensures IsDiamond(Diamond(pipes, n), pipes, n)
  {
    DiamondSize(pipes, n);
    DiamondSourceFirst(pipes, n);
    SinkPublishers(pipes, n, pipes);
    forall p: nat, j: nat | p < pipes && j < n
      ensures Chained(Diamond(pipes, n), 2, n, p, j)
    {
      DiamondChained(pipes, n, p, j);
    }
  }

  lemma DiamondSize(pipes: nat, n: nat)
    ensures Diamond(pipes, n).size == 2 + pipes * n && |Diamond(pipes, n).edges| == pipes * (n + 1)
  {
    TimesIsProduct(pipes, n);
    TimesIsProduct(pipes, n + 1);
  }

  lemma DiamondSourceFirst(pipes: nat, n: nat)
    requires n > 0
    ensures Publishers(Diamond(pipes, n).edges, 0, |Diamond(pipes, n).edges|) == []
  {
    var es := Diamond(pipes, n).edges;
    forall e | 0 <= e < |es|
      ensures es[e].dst != 0
    {
      DiamondEdgeInPipe(pipes, n, e);
    }
    PublishersNone(es, 0);
  }

  lemma DiamondChained(pipes: nat, n: nat, p: nat, j: nat)
    requires p < pipes && j < n
    ensures Chained(Diamond(pipes, n), 2, n, p, j)
  {
    DiamondOnlyInput(pipes, n, p, j);
    DiamondEdgeAt(pipes, n, p, j);
    PublisherOnly(Diamond(pipes, n), 2 + Times(p, n) + j, Times(p, n + 1) + j);
  }

  lemma DiamondEdgeAt(pipes: nat, n: nat, p: nat, j: nat)
    requires p < pipes && j <= n
    ensures Times(p, n + 1) + n + 1 <= |Diamond(pipes, n).edges|
    ensures Diamond(pipes, n).edges[Times(p, n + 1) + j]
      == Edge(if j == 0 then 0 else 1 + Times(p, n) + j, if j == n then 1 else 2 + Times(p, n) + j)
  {
    RowInside(p, n + 1, pipes);
    RowColumn(p, n + 1, j);
  }

  /** In every pipe the last subscription, and no other, is the sink's. */
  lemma SinkRow(pipes: nat, n: nat, p: nat)
    requires n > 0 && p < pipes
    ensures Times(p, n + 1) + n + 1 <= |Diamond(pipes, n).edges|
    ensures Publishers(Diamond(pipes, n).edges, 1, Times(p, n + 1) + n + 1)
      == Publishers(Diamond(pipes, n).edges, 1, Times(p, n + 1)) + [1 + Times(p, n) + n]
  {
    var es, start := Diamond(pipes, n).edges, Times(p, n + 1);
    DiamondEdgeAt(pipes, n, p, n);
    forall e | start <= e < start + n
      ensures es[e].dst != 1
    {
      DiamondEdgeAt(pipes, n, p, e - start);
    }
    PublishersSkip(es, 1, start, start + n);
  }

  lemma {:induction false} SinkPublishers(pipes: nat, n: nat, k: nat)
    requires n > 0 && k <= pipes
    ensures Times(k, n + 1) <= |Diamond(pipes, n).edges|
    ensures Publishers(Diamond(pipes, n).edges, 1, Times(k, n + 1))
      == seq(k, p requires p >= 0 => 1 + Times(p + 1, n))
    decreases k
  {
    if k > 0 {
      SinkPublishers(pipes, n, k - 1);
      SinkRow(pipes, n, k - 1);
    }
  }

  lemma DiamondOnlyInput(pipes: nat, n: nat, p: nat, j: nat)
    requires p < pipes && j < n
    ensures Times(p, n) + n <= Times(pipes, n)
    ensures OnlyInput(Diamond(pipes, n), 2 + Times(p, n) + j, Times(p, n + 1) + j)
  {
    RowInside(p, n, pipes);
    RowInside(p, n + 1, pipes);
    RowColumn(p, n + 1, j);
    forall e | 0 <= e < |Diamond(pipes, n).edges| && Diamond(pipes, n).edges[e].dst == 2 + Times(p, n) + j
      ensures e == Times(p, n + 1) + j
    {
      DiamondEdgeInPipe(pipes, n, e);
      PositionUnique(n, p, j, Row(e, n + 1), Col(e, n + 1));
    }
  }

  // ---------------------------------------------------------------------------------------
  // Fork
  // ---------------------------------------------------------------------------------------

  ghost function ForkRank(pipes: nat, n: nat): seq<nat> {
    seq(1 + Times(pipes, n), b requires b >= 0 => b)
  }

  lemma ForkLayered(pipes: nat, n: nat)
    requires n > 0
    ensures Layered(Fork(pipes, n), ForkRank(pipes, n))
  {
    var g := Fork(pipes, n);
    forall e | 0 <= e < |g.edges|
      ensures g.edges[e].src < g.edges[e].dst < g.size
    {
      assert g.edges[e] == ForkEdge(n, e);
    }
  }

  /** The cost of a block with the single subscription `e`. */
  lemma {:induction false} CostOutSingle(g: Graph, rank: seq<nat>, c: nat, b: nat, e: nat, k: nat)
    requires Layered(g, rank) && b < g.size && e < |g.edges| && k <= |g.edges|
    requires forall i :: 0 <= i < |g.edges| ==> (g.edges[i].src == b <==> i == e)
    ensures CostOut(g, rank, c, b, k) == if e < k then c + Cost(g, rank, c, g.edges[e].dst) else 0
    decreases k
  {
    if k > 0 { CostOutSingle(g, rank, c, b, e, k - 1); }
  }

  lemma CostSingle(g: Graph, rank: seq<nat>, c: nat, b: nat, e: nat)
    requires Layered(g, rank) && b < g.size && e < |g.edges|
    requires forall i :: 0 <= i < |g.edges| ==> (g.edges[i].src == b <==> i == e)
    ensures Cost(g, rank, c, b) == 1 + c + Cost(g, rank, c, g.edges[e].dst)
  {
    CostOutSingle(g, rank, c, b, e, |g.edges|);
  }

  lemma CostNone(g: Graph, rank: seq<nat>, c: nat, b: nat)
    requires Layered(g, rank) && b < g.size
    requires forall i :: 0 <= i < |g.edges| ==> g.edges[i].src != b
    ensures Cost(g, rank, c, b) == 1
  {
    CostOutNone(g, rank, c, b, |g.edges|);
  }

  lemma {:induction false} CostOutNone(g: Graph, rank: seq<nat>, c: nat, b: nat, k: nat)
    requires Layered(g, rank) && b < g.size && k <= |g.edges|
    requires forall i :: 0 <= i < |g.edges| ==> g.edges[i].src != b
    ensures CostOut(g, rank, c, b, k) == 0
    decreases k
  {
    if k > 0 { CostOutNone(g, rank, c, b, k - 1); }
  }

  lemma ForkInnerCost(pipes: nat, n: nat, c: nat, p: nat, j: nat)
    requires p < pipes && j + 1 < n
    ensures Layered(Fork(pipes, n), ForkRank(pipes, n)) && 1 + Times(p, n) + j + 1 < 1 + Times(pipes, n)
    ensures Cost(Fork(pipes, n), ForkRank(pipes, n), c, 1 + Times(p, n) + j)
      == 1 + c + Cost(Fork(pipes, n), ForkRank(pipes, n), c, 1 + Times(p, n) + j + 1)
  {
    ForkLayered(pipes, n);
    RowInside(p, n, pipes);
    RowColumn(p, n, j + 1);
    CostSingle(Fork(pipes, n), ForkRank(pipes, n), c, 1 + Times(p, n) + j, 1 + Times(p, n) + j);
  }

  lemma ForkLastCost(pipes: nat, n: nat, c: nat, p: nat)
    requires p < pipes && n > 0
    ensures Layered(Fork(pipes, n), ForkRank(pipes, n)) && Times(p, n) + n < 1 + Times(pipes, n)
    ensures Cost(Fork(pipes, n), ForkRank(pipes, n), c, Times(p, n) + n) == 1
  {
    ForkLayered(pipes, n);
    RowInside(p, n, pipes);
    assert Times(p, n) + n == Times(p + 1, n) + 0;
    RowColumn(p + 1, n, 0);
    CostNone(Fork(pipes, n), ForkRank(pipes, n), c, Times(p, n) + n);
  }

  /** From position `j` of a fork pipe: the `n - j` calls and `n - j - 1` deliveries still ahead. */
  lemma {:induction false} ForkPipeCost(pipes: nat, n: nat, c: nat, p: nat, j: nat)
    requires p < pipes && j < n
    ensures Layered(Fork(pipes, n), ForkRank(pipes, n)) && 1 + Times(p, n) + j < 1 + Times(pipes, n)
    ensures Cost(Fork(pipes, n), ForkRank(pipes, n), c, 1 + Times(p, n) + j) == (n - j) + Times(n - j - 1, c)
    decreases n - j
  {
    if j + 1 < n {
      ForkInnerCost(pipes, n, c, p, j);
      ForkPipeCost(pipes, n, c, p, j + 1);
    } else {
      ForkLastCost(pipes, n, c, p);
      assert 1 + Times(p, n) + j == Times(p, n) + n;
    }
  }

  /** Subscription `e` is one to block `b` if it begins a row of `w`, and then costs `u`. */
  ghost predicate RowEdge(g: Graph, rank: seq<nat>, c: nat, b: nat, w: nat, u: nat, e: nat)
    requires Layered(g, rank) && w > 0
  {
    && e < |g.edges| && (g.edges[e].src == b <==> Col(e, w) == 0)
    && (Col(e, w) == 0 ==> c + Cost(g, rank, c, g.edges[e].dst) == u)
  }

  /** A block subscribed to by the first entry of every row of `w` subscriptions, each costing `u`. */
  lemma {:induction false} CostOutRows(g: Graph, rank: seq<nat>, c: nat, b: nat, w: nat, u: nat, k: nat)
    requires Layered(g, rank) && b < g.size && w > 0 && k <= |g.edges|
    requires forall e: nat :: e < |g.edges| ==> RowEdge(g, rank, c, b, w, u, e)
    ensures CostOut(g, rank, c, b, k) == Times(RowStarts(k, w), u)
    decreases k
  {
    if k > 0 {
      assert RowEdge(g, rank, c, b, w, u, k - 1);
      CostOutRows(g, rank, c, b, w, u, k - 1);
    }
  }

  /** A source publishing to the first entry of each of `rows` rows, each costing `u`. */
  lemma SourceCost(g: Graph, rank: seq<nat>, c: nat, w: nat, u: nat, rows: nat)
    requires Layered(g, rank) && 0 < g.size && w > 0 && |g.edges| == Times(rows, w)
    requires forall e: nat :: e < |g.edges| ==> RowEdge(g, rank, c, 0, w, u, e)
    ensures Cost(g, rank, c, 0) == 1 + Times(rows, u)
  {
    CostOutRows(g, rank, c, 0, w, u, |g.edges|);
    RowStartsOfRows(rows, w, 0);
  }

  lemma ForkHead(pipes: nat, n: nat, c: nat, e: nat)
    requires n > 0 && e < Times(pipes, n)
    ensures Layered(Fork(pipes, n), ForkRank(pipes, n))
    ensures RowEdge(Fork(pipes, n), ForkRank(pipes, n), c, 0, n, n + Times(n, c), e)
  {
    ForkLayered(pipes, n);
    IndexSplit(e, n, pipes);
    ForkPipeCost(pipes, n, c, Row(e, n), 0);
    assert Times(n, c) == Times(n - 1, c) + c;
  }

  lemma ForkCost(pipes: nat, n: nat, c: nat)
    requires n > 0
    ensures Layered(Fork(pipes, n), ForkRank(pipes, n))
    ensures Cost(Fork(pipes, n), ForkRank(pipes, n), c, 0) == 1 + Times(pipes, n + Times(n, c))
  {
    ForkLayered(pipes, n);
    var g, rank := Fork(pipes, n), ForkRank(pipes, n);
    var u := n + Times(n, c);
    forall e: nat | e < |g.edges|
      ensures RowEdge(g, rank, c, 0, n, u, e)
    {
      ForkHead(pipes, n, c, e);
    }
    SourceCost(g, rank, c, n, u, pipes);
  }

  /** One message posted at the source of a fork causes `1 + pipes * n` handler calls, and one
      delivery for each of those calls but the source's. */
  lemma ForkMessageCost(pipes: nat, n: nat)
    requires n > 0
    ensures Layered(Fork(pipes, n), ForkRank(pipes, n))
    ensures Cost(Fork(pipes, n), ForkRank(pipes, n), 0, 0) == 1 + Times(pipes, n)
    ensures Cost(Fork(pipes, n), ForkRank(pipes, n), 1, 0) == 1 + Times(pipes, n) + Times(pipes, n)
  {
    ForkCost(pipes, n, 0);
    ForkCost(pipes, n, 1);
    TimesZero(n);
    TimesOne(n);
    TimesAdd(pipes, n, n);
  }

  // ---------------------------------------------------------------------------------------
  // Diamond
  // ---------------------------------------------------------------------------------------

  /** The sink is created before the pipes but is fed by all of them. */
  ghost function DiamondRank(pipes: nat, n: nat): seq<nat> {
    seq(2 + Times(pipes, n), b requires b >= 0 =>
      if b == 0 then 0 else if b == 1 then 1 + Times(pipes, n) else b - 1)
  }

  /** Subscription `j` of pipe `p`, for every index of the diamond. */
  lemma DiamondEdgeInPipe(pipes: nat, n: nat, e: nat)
    requires e < Times(pipes, n + 1)
    ensures var p, j := Row(e, n + 1), Col(e, n + 1);
      && p < pipes && j <= n && e == Times(p, n + 1) + j && Times(p, n) + n <= Times(pipes, n)
      && Diamond(pipes, n).edges[e]
         == Edge(if j == 0 then 0 else 1 + Times(p, n) + j, if j == n then 1 else 2 + Times(p, n) + j)
  {
    IndexSplit(e, n + 1, pipes);
    RowInside(Row(e, n + 1), n, pipes);
  }

  lemma DiamondLayered(pipes: nat, n: nat)
    requires n > 0
    ensures Layered(Diamond(pipes, n), DiamondRank(pipes, n))
  {
    var g, rank := Diamond(pipes, n), DiamondRank(pipes, n);
    forall e | 0 <= e < |g.edges|
      ensures g.edges[e].src < g.size && g.edges[e].dst < g.size
      ensures rank[g.edges[e].src] < rank[g.edges[e].dst]
    {
      DiamondEdgeInPipe(pipes, n, e);
    }
  }

  /** The block at position `j` of pipe `p` publishes along subscription `j + 1` of that pipe only. */
  lemma DiamondPublishes(pipes: nat, n: nat, p: nat, j: nat)
    requires p < pipes && j < n
    ensures var b, out := 2 + Times(p, n) + j, Times(p, n + 1) + j + 1;
      && out < |Diamond(pipes, n).edges|
      && Diamond(pipes, n).edges[out].dst == (if j + 1 == n then 1 else b + 1)
      && forall e :: 0 <= e < |Diamond(pipes, n).edges| ==>
           (Diamond(pipes, n).edges[e].src == b <==> e == out)
  {
    var b, out := 2 + Times(p, n) + j, Times(p, n + 1) + j + 1;
    RowInside(p, n + 1, pipes);
    RowColumn(p, n + 1, j + 1);
    forall e | 0 <= e < |Diamond(pipes, n).edges|
      ensures Diamond(pipes, n).edges[e].src == b <==> e == out
    {
      DiamondEdgeInPipe(pipes, n, e);
      var p', j' := Row(e, n + 1), Col(e, n + 1);
      if Diamond(pipes, n).edges[e].src == b {
        PositionUnique(n, p, j, p', j' - 1);
      }
    }
  }

  /** A diamond pipe block costs its call, a delivery, and what its subscriber costs. */
  lemma DiamondStepCost(pipes: nat, n: nat, c: nat, p: nat, j: nat)
    requires p < pipes && j < n
    ensures Layered(Diamond(pipes, n), DiamondRank(pipes, n)) && Times(p, n) + n <= Times(pipes, n)
    ensures Cost(Diamond(pipes, n), DiamondRank(pipes, n), c, 2 + Times(p, n) + j)
      == 1 + c + Cost(Diamond(pipes, n), DiamondRank(pipes, n), c, if j + 1 < n then 2 + Times(p, n) + j + 1 else 1)
  {
    DiamondLayered(pipes, n);
    RowInside(p, n, pipes);
    DiamondPublishes(pipes, n, p, j);
    CostSingle(Diamond(pipes, n), DiamondRank(pipes, n), c, 2 + Times(p, n) + j, Times(p, n + 1) + j + 1);
  }

  /** From position `j` of a diamond pipe: the calls up to and including the sink's, and the
      deliveries between them. */
  lemma {:induction false} DiamondPipeCost(pipes: nat, n: nat, c: nat, p: nat, j: nat)
    requires p < pipes && j < n
    ensures Layered(Diamond(pipes, n), DiamondRank(pipes, n)) && Times(p, n) + j < Times(pipes, n)
    ensures Cost(Diamond(pipes, n), DiamondRank(pipes, n), c, 2 + Times(p, n) + j)
      == (n - j + 1) + Times(n - j, c)
    decreases n - j
  {
    DiamondStepCost(pipes, n, c, p, j);
    if j + 1 < n {
      DiamondPipeCost(pipes, n, c, p, j + 1);
    } else {
      SinkCost(pipes, n, c);
      assert Times(1, c) == c;
    }
  }

  lemma SinkCost(pipes: nat, n: nat, c: nat)
    requires n > 0
    ensures Layered(Diamond(pipes, n), DiamondRank(pipes, n))
    ensures Cost(Diamond(pipes, n), DiamondRank(pipes, n), c, 1) == 1
  {
    DiamondLayered(pipes, n);
    var g := Diamond(pipes, n);
    forall e | 0 <= e < |g.edges|
      ensures g.edges[e].src != 1
    {
      DiamondEdgeInPipe(pipes, n, e);
    }
    CostNone(g, DiamondRank(pipes, n), c, 1);
  }

  lemma DiamondHead(pipes: nat, n: nat, c: nat, e: nat)
    requires n > 0 && e < Times(pipes, n + 1)
    ensures Layered(Diamond(pipes, n), DiamondRank(pipes, n))
    ensures RowEdge(Diamond(pipes, n), DiamondRank(pipes, n), c, 0, n + 1, n + 1 + Times(n + 1, c), e)
  {
    DiamondEdgeInPipe(pipes, n, e);
    DiamondLayered(pipes, n);
    if Col(e, n + 1) == 0 { DiamondPipeCost(pipes, n, c, Row(e, n + 1), 0); }
  }

  lemma DiamondCost(pipes: nat, n: nat, c: nat)
    requires n > 0
    ensures Layered(Diamond(pipes, n), DiamondRank(pipes, n))
    ensures Cost(Diamond(pipes, n), DiamondRank(pipes, n), c, 0) == 1 + Times(pipes, n + 1 + Times(n + 1, c))
  {
    DiamondLayered(pipes, n);
    var g, rank := Diamond(pipes, n), DiamondRank(pipes, n);
    var w, u := n + 1, n + 1 + Times(n + 1, c);
    forall e: nat | e < |g.edges|
      ensures RowEdge(g, rank, c, 0, w, u, e)
    {
      DiamondHead(pipes, n, c, e);
    }
    SourceCost(g, rank, c, w, u, pipes);
  }

  /** One message posted at the source of a diamond causes `1 + pipes * (n + 1)` handler calls:
      the source's, one per pipe block, and the sink's once per pipe. */
  lemma DiamondMessageCalls(pipes: nat, n: nat)
    requires n > 0
    ensures Layered(Diamond(pipes, n), DiamondRank(pipes, n))
    ensures Cost(Diamond(pipes, n), DiamondRank(pipes, n), 0, 0) == 1 + Times(pipes, n + 1)
  {
    DiamondCost(pipes, n, 0);
    TimesZero(n + 1);
  }

  /** ... and one delivery for each of those calls but the source's. */
  lemma DiamondMessageSteps(pipes: nat, n: nat)
    requires n > 0
    ensures Layered(Diamond(pipes, n), DiamondRank(pipes, n))
    ensures Cost(Diamond(pipes, n), DiamondRank(pipes, n), 1, 0) == 1 + Times(pipes, n + 1) + Times(pipes, n + 1)
  {
    DiamondCost(pipes, n, 1);
    TimesOne(n + 1);
    TimesAdd(pipes, n + 1, n + 1);
  }
}
