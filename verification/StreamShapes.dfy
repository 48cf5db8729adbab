/** The shape of the built stream flowgraphs: how many connections there are, and that every pipe is a
    path of its own with exactly the intended number of copies. */
module StreamShapes {
  import opened Strides
  import opened StreamNet
  import opened StreamGraphs
  import opened StreamDrain
  import opened StreamRuns
  import opened StreamDiamond

  /** The connections into the first `k` blocks. */
  function Connections(inputs: seq<seq<nat>>, k: nat): nat
    requires k <= |inputs|
  {
    if k == 0 then 0 else Connections(inputs, k - 1) + |inputs[k - 1]|
  }

  lemma {:induction false} SingleInputs(inputs: seq<seq<nat>>, k: nat)
    requires 1 <= k <= |inputs| && inputs[0] == []
    requires forall b :: 0 < b < k ==> |inputs[b]| == 1
    ensures Connections(inputs, k) == k - 1
  {
    if k > 1 { SingleInputs(inputs, k - 1); }
  }

  /** The fork has 1 + pipes * (stages + 1) connections. */
  lemma ForkConnections(pipes: nat, n: nat, samples: nat)
    ensures var inputs := Fork(pipes, n, samples).inputs;
      Connections(inputs, |inputs|) == 1 + Times(pipes, n + 1)
  {
    var inputs := Fork(pipes, n, samples).inputs;
    SingleInputs(inputs, |inputs|);
  }

  /** The diamond has 2 + pipes * (stages + 1) connections. */
  lemma DiamondConnections(pipes: nat, n: nat, samples: nat, whole: bool)
    requires n > 0
    ensures var inputs := Diamond(pipes, n, samples, whole).inputs;
      Connections(inputs, |inputs|) == 2 + Times(pipes, n + 1)
  {
    var inputs, join := Diamond(pipes, n, samples, whole).inputs, Join(pipes, n);
    SingleInputs(inputs, join);
    assert Connections(inputs, join + 1) == Connections(inputs, join) + |Ends(pipes, n)|;
    TimesAdd(pipes, n, 1);
    TimesOne(pipes);
  }

  /** A flowgraph of disjoint pipes has one connection less than blocks in every pipe. */
  lemma {:induction false} PipeConnections(pipes: nat, w: nat, samples: nat, middle: Kind, k: nat)
    requires w >= 3 && k <= Times(pipes, w)
    ensures Connections(Pipes(pipes, w, samples, middle).inputs, k) + RowStarts(k, w) == k
  {
    if k > 0 {
      PipeConnections(pipes, w, samples, middle, k - 1);
      PipeBlock(pipes, w, samples, middle, k - 1);
    }
  }

  lemma PipesConnections(pipes: nat, w: nat, samples: nat, middle: Kind)
    requires w >= 3
    ensures var inputs := Pipes(pipes, w, samples, middle).inputs;
      Connections(inputs, |inputs|) + pipes == Times(pipes, w)
  {
    PipeConnections(pipes, w, samples, middle, Times(pipes, w));
    RowStartsOfRows(pipes, w, 0);
  }

  lemma ForkBlock(pipes: nat, n: nat, samples: nat, p: nat, j: nat)
    requires p < pipes && j <= n
    ensures var g, b := Fork(pipes, n, samples), 2 + Times(p, n + 1) + j;
      && b < |g.kinds| == |g.inputs| && g.kinds[b] == (if j == n then NullSink else Copy)
      && g.inputs[b] == [if j == 0 then 1 else b - 1]
  {
    RowInside(p, n + 1, pipes);
    RowColumn(p, n + 1, j);
  }

  lemma ForkFront(pipes: nat, n: nat, samples: nat)
    ensures var g := Fork(pipes, n, samples); WellFormed(g) && |g.kinds| >= 2 && CopiesUpTo(g, 1) == 0
  {
    ForkHeaded(pipes, n, samples);
    assert CopiesUpTo(Fork(pipes, n, samples), 0) == 0;
  }

  /** In the fork, position `j` of pipe `p` is reached from the source over the head and the earlier
      positions of the same pipe only; so its sink, position `n`, is reached over exactly `n` copies. */
  lemma {:induction false} ForkPath(pipes: nat, n: nat, samples: nat, p: nat, j: nat)
    requires p < pipes && j <= n
    ensures var g := Fork(pipes, n, samples);
      && WellFormed(g) && 2 + Times(p, n + 1) + j < |g.kinds|
      && CopiesUpTo(g, 2 + Times(p, n + 1) + j) == if j < n then j + 1 else n
  {
    ForkFront(pipes, n, samples);
    ForkBlock(pipes, n, samples, p, j);
    if j > 0 { ForkPath(pipes, n, samples, p, j - 1); }
  }

  /** In every reachable state every item a sink of the fork has received has been copied `n` times. */
  lemma ForkItemsCopied<T>(pipes: nat, n: nat, samples: nat, r: Runtime<T>, s: Net<T>, p: nat, i: nat)
    requires p < pipes && Sane(Fork(pipes, n, samples), r) && Fits(Fork(pipes, n, samples), s)
    requires Inv(Fork(pipes, n, samples), r, s)
    ensures var sink := 2 + Times(p, n + 1) + n;
      sink < |s.log| == |s.hops| && (i < |s.log[sink]| ==> i < |s.hops[sink]| && s.hops[sink][i] == n)
  {
    ForkHeaded(pipes, n, samples);
    ForkPath(pipes, n, samples, p, n);
    var sink := 2 + Times(p, n + 1) + n;
    if i < |s.log[sink]| { HopsFromRoot(Fork(pipes, n, samples), r, s, sink, i); }
  }

  /** In the diamond, position `j` of pipe `p` is reached over the head and `j` earlier copies; so the
      interleaver reads every pipe behind exactly `n` copies. */
  lemma {:induction false} DiamondPath(pipes: nat, n: nat, samples: nat, whole: bool, p: nat, j: nat)
    requires p < pipes && j < n
    ensures var g := Diamond(pipes, n, samples, whole);
      && WellFormed(g) && Position(n, p, j) < |g.kinds|
      && CopiesUpTo(g, Position(n, p, j)) == j + 1
  {
    DiamondWellFormed(pipes, n, samples, whole);
    DiamondCopy(pipes, n, samples, whole, p, j);
    var g := Diamond(pipes, n, samples, whole);
    assert CopiesUpTo(g, 1) == CopiesUpTo(g, 0) == 0;
    if j > 0 { DiamondPath(pipes, n, samples, whole, p, j - 1); }
  }

  lemma {:induction false} DiamondPipeHops<T>(
    pipes: nat, n: nat, samples: nat, whole: bool, r: Runtime<T>, s: Net<T>, p: nat, j: nat, i: nat)
    requires Running(pipes, n, samples, whole, r, s) && p < pipes && j < n
    requires Position(n, p, j) < |s.log| && i < |s.log[Position(n, p, j)]|
    ensures s.hops[Position(n, p, j)][i] == j + 1
    decreases j
  {
    var g := Diamond(pipes, n, samples, whole);
    DiamondCopy(pipes, n, samples, whole, p, j);
    assert Traced(g, s, Position(n, p, j)) && HopsAt(g, s, Position(n, p, j), i);
    if j > 0 {
      DiamondPipeHops(pipes, n, samples, whole, r, s, p, j - 1, i);
    } else {
      assert Traced(g, s, 1) && HopsAt(g, s, 1, i);
      assert Traced(g, s, 0) && HopsAt(g, s, 0, i);
    }
  }

  /** In every reachable state every item the diamond's sink has received has been copied `n` times. */
  lemma DiamondItemsCopied<T>(pipes: nat, n: nat, samples: nat, whole: bool, r: Runtime<T>, s: Net<T>, k: nat)
    requires Running(pipes, n, samples, whole, r, s)
    ensures var sink := Join(pipes, n) + 1;
      sink < |s.log| == |s.hops| && (k < |s.log[sink]| ==> k < |s.hops[sink]| && s.hops[sink][k] == n)
  {
    var g, join := Diamond(pipes, n, samples, whole), Join(pipes, n);
    if k < |s.log[join + 1]| {
      assert Traced(g, s, join + 1) && HopsAt(g, s, join + 1, k);
      assert Traced(g, s, join) && HopsAt(g, s, join, k);
      DiamondCopy(pipes, n, samples, whole, Col(k, pipes), n - 1);
      assert g.inputs[join][Col(k, pipes)] == LastOf(n, Col(k, pipes));
      DiamondPipeHops(pipes, n, samples, whole, r, s, Col(k, pipes), n - 1, Row(k, pipes));
    }
  }

  lemma PipePosition(pipes: nat, w: nat, samples: nat, middle: Kind, p: nat, j: nat)
    requires w >= 3 && PipeMiddle(middle) && p < pipes && j < w
    ensures var g, k := Pipes(pipes, w, samples, middle), Times(p, w) + j;
      && WellFormed(g) && k < |g.kinds| && g.inputs[k] == (if j == 0 then [] else [k - 1])
      && g.kinds[k] == if j == 0 then Source else if j == 1 then Head(samples)
        else if j == w - 1 then NullSink else middle
  {
    PipesWellFormed(pipes, w, samples, middle);
    RowInside(p, w, pipes);
    RowColumn(p, w, j);
    PipeBlock(pipes, w, samples, middle, Times(p, w) + j);
  }

  /** In a flowgraph of disjoint pipes, position `j` is reached over the blocks between the head and it. */
  lemma {:induction false} PipePath(pipes: nat, w: nat, samples: nat, middle: Kind, p: nat, j: nat)
    requires w >= 3 && PipeMiddle(middle) && p < pipes && j < w
    ensures var g := Pipes(pipes, w, samples, middle);
      && WellFormed(g) && Times(p, w) + j < |g.kinds|
      && CopiesUpTo(g, Times(p, w) + j)
         == Times(if j <= 1 then 0 else if j < w - 1 then j - 1 else w - 3, CopiesPerItem(middle))
  {
    PipePosition(pipes, w, samples, middle, p, j);
    if j > 0 { PipePath(pipes, w, samples, middle, p, j - 1); }
  }

  /** In every reachable state every item a sink has received has been copied once by each copy of its
      pipe, or `n` times by its one `ncopy(n)`. */
  lemma PipeItemsCopied<T>(
    pipes: nat, w: nat, samples: nat, middle: Kind, r: Runtime<T>, s: Net<T>, p: nat, i: nat)
    requires w >= 3 && PipeMiddle(middle) && p < pipes
    requires Sane(Pipes(pipes, w, samples, middle), r) && Fits(Pipes(pipes, w, samples, middle), s)
    requires Inv(Pipes(pipes, w, samples, middle), r, s)
    ensures var sink := Times(p, w) + (w - 1);
      && sink < |s.log| == |s.hops|
      && (i < |s.log[sink]| ==> i < |s.hops[sink]| && s.hops[sink][i] == Times(w - 3, CopiesPerItem(middle)))
  {
    var g, sink := Pipes(pipes, w, samples, middle), Times(p, w) + (w - 1);
    PipesHeaded(pipes, w, samples, middle);
    PipePath(pipes, w, samples, middle, p, w - 1);
    if i < |s.log[sink]| { HopsFromRoot(g, r, s, sink, i); }
  }
}
