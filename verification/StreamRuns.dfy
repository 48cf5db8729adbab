/** What every run of the built stream flowgraphs without a join delivers: the fork, and the chains of
    `run_opti_flowgraph` in all three configurations. */
module StreamRuns {
  import opened Strides
  import opened StreamNet
  import opened StreamGraphs
  import opened StreamDrain
  import opened CopyBlocks

  // ---------------------------------------------------------------------------------------
  // Fork
  // ---------------------------------------------------------------------------------------

  lemma ForkHeaded(pipes: nat, n: nat, samples: nat)
    ensures Headed(Fork(pipes, n, samples)) && Moving(Fork(pipes, n, samples))
  {
    var g := Fork(pipes, n, samples);
    assert Reads(g, 1, 0, 0);
    forall b: nat | b < |g.kinds|
      ensures TreeBlock(g, b) && HeadedBlock(g, b)
    {
    }
  }

  lemma {:induction false} ForkLimit(pipes: nat, n: nat, samples: nat, b: nat)
    requires 1 <= b < |Fork(pipes, n, samples).kinds|
    ensures Headed(Fork(pipes, n, samples))
    ensures Limit(Fork(pipes, n, samples), b) == samples && Root(Fork(pipes, n, samples), b) == 0
    decreases b
  {
    ForkHeaded(pipes, n, samples);
    var g := Fork(pipes, n, samples);
    if b == 1 {
      assert Root(g, 0) == 0;
    } else {
      ForkLimit(pipes, n, samples, g.inputs[b][0]);
    }
  }

  /** In every reachable state each block of the fork has a prefix of the source's first `samples`
      items; once nothing can be called any more, every copy and every sink has all of them. */
  lemma ForkDelivers<T>(pipes: nat, n: nat, samples: nat, r: Runtime<T>, s: Net<T>, b: nat)
    requires Sane(Fork(pipes, n, samples), r) && Fits(Fork(pipes, n, samples), s)
    requires Inv(Fork(pipes, n, samples), r, s) && 1 <= b < |Fork(pipes, n, samples).kinds|
    ensures |s.log[b]| <= samples && From(r, 0, s.log[b])
    ensures Quiet(Fork(pipes, n, samples), r, s) ==> |s.log[b]| == samples
  {
    ForkHeaded(pipes, n, samples);
    ForkLimit(pipes, n, samples, b);
    Delivers(Fork(pipes, n, samples), r, s, b);
  }

  // ---------------------------------------------------------------------------------------
  // Disjoint pipes
  // ---------------------------------------------------------------------------------------

  ghost predicate PipeMiddle(middle: Kind) {
    middle == Copy || (middle.NCopy? && middle.times <= 99)
  }

  /** What block `k` of a pipe graph is and what it reads. */
  lemma PipeBlock(pipes: nat, w: nat, samples: nat, middle: Kind, k: nat)
    requires w >= 3 && k < Times(pipes, w)
    ensures var g := Pipes(pipes, w, samples, middle);
      && k == Times(Row(k, w), w) + Col(k, w) && Row(k, w) < pipes
      && g.kinds[k] == PipeKind(w, samples, middle, k)
      && g.inputs[k] == (if Col(k, w) == 0 then [] else [k - 1])
      && (k > 0 ==> Col(k - 1, w) == if Col(k, w) > 0 then Col(k, w) - 1 else w - 1)
  {
    IndexSplit(k, w, pipes);
    if k > 0 {
      if Col(k, w) > 0 {
        RowColumn(Row(k, w), w, Col(k, w) - 1);
      } else {
        assert Row(k, w) > 0;
        RowColumn(Row(k, w) - 1, w, w - 1);
      }
    }
  }

  lemma PipesWellFormed(pipes: nat, w: nat, samples: nat, middle: Kind)
    requires w >= 3 && PipeMiddle(middle)
    ensures WellFormed(Pipes(pipes, w, samples, middle))
  {
    var g := Pipes(pipes, w, samples, middle);
    forall k | 0 <= k < |g.kinds|
      ensures KindOk(g.kinds[k]) && ArityOk(g.kinds[k], |g.inputs[k]|)
      ensures forall p :: 0 <= p < |g.inputs[k]| ==> g.inputs[k][p] < k
    {
      PipeBlock(pipes, w, samples, middle, k);
    }
  }

  lemma PipeHeads(pipes: nat, w: nat, samples: nat, middle: Kind, k: nat)
    requires w >= 3 && PipeMiddle(middle) && 0 < k < Times(pipes, w)
    ensures var g := Pipes(pipes, w, samples, middle);
      g.inputs[k] != [] ==> (g.kinds[k].Head? <==> IsSource(g.kinds[k - 1]))
  {
    PipeBlock(pipes, w, samples, middle, k);
    PipeBlock(pipes, w, samples, middle, k - 1);
  }

  lemma PipeSourceRead(pipes: nat, w: nat, samples: nat, middle: Kind, k: nat)
    requires w >= 3 && k < Times(pipes, w) && Col(k, w) == 0
    ensures Reads(Pipes(pipes, w, samples, middle), k + 1, 0, k)
  {
    PipeBlock(pipes, w, samples, middle, k);
    RowInside(Row(k, w), w, pipes);
    RowColumn(Row(k, w), w, 1);
    PipeBlock(pipes, w, samples, middle, k + 1);
  }

  lemma PipeReader(pipes: nat, w: nat, samples: nat, middle: Kind, d: nat, p: nat, b: nat)
    requires w >= 3 && PipeMiddle(middle) && Reads(Pipes(pipes, w, samples, middle), d, p, b)
    ensures d == b + 1
  {
    PipeBlock(pipes, w, samples, middle, d);
  }

  lemma PipesHeaded(pipes: nat, w: nat, samples: nat, middle: Kind)
    requires w >= 3 && PipeMiddle(middle)
    ensures Headed(Pipes(pipes, w, samples, middle)) && Moving(Pipes(pipes, w, samples, middle))
  {
    var g := Pipes(pipes, w, samples, middle);
    PipesWellFormed(pipes, w, samples, middle);
    forall k: nat | k < |g.kinds|
      ensures TreeBlock(g, k) && HeadedBlock(g, k)
    {
      PipeTree(pipes, w, samples, middle, k);
    }
    forall k | 0 <= k < |g.kinds|
      ensures !g.kinds[k].CopyRand?
    {
      PipeBlock(pipes, w, samples, middle, k);
    }
  }

  lemma PipeTree(pipes: nat, w: nat, samples: nat, middle: Kind, k: nat)
    requires w >= 3 && PipeMiddle(middle) && k < Times(pipes, w)
    ensures WellFormed(Pipes(pipes, w, samples, middle))
    ensures TreeBlock(Pipes(pipes, w, samples, middle), k) && HeadedBlock(Pipes(pipes, w, samples, middle), k)
  {
    var g := Pipes(pipes, w, samples, middle);
    PipesWellFormed(pipes, w, samples, middle);
    PipeBlock(pipes, w, samples, middle, k);
    if Col(k, w) == 0 {
      PipeSourceRead(pipes, w, samples, middle, k);
    } else {
      PipeHeads(pipes, w, samples, middle, k);
      var a := k - 1;
      forall d: nat, p: nat | Reads(g, d, p, a)
        ensures d == k
      {
        PipeReader(pipes, w, samples, middle, d, p, a);
      }
    }
  }

  lemma {:induction false} PipeLimit(pipes: nat, w: nat, samples: nat, middle: Kind, p: nat, j: nat)
    requires w >= 3 && PipeMiddle(middle) && p < pipes && 1 <= j < w
    ensures Headed(Pipes(pipes, w, samples, middle)) && Times(p, w) + j < Times(pipes, w)
    ensures !IsSource(Pipes(pipes, w, samples, middle).kinds[Times(p, w) + j])
    ensures Limit(Pipes(pipes, w, samples, middle), Times(p, w) + j) == samples
    ensures Root(Pipes(pipes, w, samples, middle), Times(p, w) + j) == Times(p, w)
    decreases j
  {
    var g := Pipes(pipes, w, samples, middle);
    PipesHeaded(pipes, w, samples, middle);
    RowInside(p, w, pipes);
    RowColumn(p, w, j);
    PipeBlock(pipes, w, samples, middle, Times(p, w) + j);
    if j == 1 {
      RowColumn(p, w, 0);
      PipeBlock(pipes, w, samples, middle, Times(p, w));
    } else {
      PipeLimit(pipes, w, samples, middle, p, j - 1);
    }
  }

  /** Position `j` of pipe `p`: a prefix of the source's first `samples` items in every reachable
      state, and all of them once nothing can be called any more. */
  lemma PipeDelivers<T>(
    pipes: nat, w: nat, samples: nat, middle: Kind, r: Runtime<T>, s: Net<T>, p: nat, j: nat)
    requires w >= 3 && PipeMiddle(middle) && p < pipes && 1 <= j < w
    requires Sane(Pipes(pipes, w, samples, middle), r) && Fits(Pipes(pipes, w, samples, middle), s)
    requires Inv(Pipes(pipes, w, samples, middle), r, s)
    ensures Times(p, w) + j < |s.log|
    ensures |s.log[Times(p, w) + j]| <= samples
    ensures From(r, Times(p, w), s.log[Times(p, w) + j])
    ensures Quiet(Pipes(pipes, w, samples, middle), r, s) ==> |s.log[Times(p, w) + j]| == samples
  {
    PipesHeaded(pipes, w, samples, middle);
    PipeLimit(pipes, w, samples, middle, p, j);
    Delivers(Pipes(pipes, w, samples, middle), r, s, Times(p, w) + j);
  }

  lemma SameStream<T>(q: Runtime<T>, a: nat, xs: seq<T>, r: Runtime<T>, b: nat, ys: seq<T>, samples: nat)
    requires From(q, a, xs) && From(r, b, ys) && |xs| == |ys| <= samples
    requires forall i: nat :: i < samples ==> q.feed(a, i) == r.feed(b, i)
    ensures xs == ys
  {
  }

  lemma SinkReceives<T>(pipes: nat, w: nat, samples: nat, middle: Kind, r: Runtime<T>, s: Net<T>, p: nat)
    requires w >= 3 && PipeMiddle(middle) && p < pipes
    requires Sane(Pipes(pipes, w, samples, middle), r) && Fits(Pipes(pipes, w, samples, middle), s)
    requires Inv(Pipes(pipes, w, samples, middle), r, s)
    ensures Times(p, w) + (w - 1) < |s.log| && |s.log[Times(p, w) + (w - 1)]| <= samples
    ensures From(r, Times(p, w), s.log[Times(p, w) + (w - 1)])
    ensures Quiet(Pipes(pipes, w, samples, middle), r, s) ==> |s.log[Times(p, w) + (w - 1)]| == samples
  {
    PipeDelivers(pipes, w, samples, middle, r, s, p, w - 1);
  }

  // ---------------------------------------------------------------------------------------
  // The rows of `ncopy` are long enough
  // ---------------------------------------------------------------------------------------

  lemma {:induction false} CallsWithinChunk<T>(g: Graph, r: Runtime<T>, s: Net<T>, calls: seq<Call>, s': Net<T>, i: nat)
    requires Sane(g, r) && Fits(g, s) && Inv(g, r, s) && Runs(g, r, s, calls, s') && i < |calls|
    ensures 1 <= calls[i].items <= r.chunk
    decreases |calls|
  {
    var Call(b, m) := calls[0];
    FireInv(g, r, s, b, m);
    if i > 0 { CallsWithinChunk(g, r, Fire(g, r, s, b, m), calls[1..], s', i - 1); }
  }

  /** Under the limit that `create_perf` sets, every call in every run, so every call of `ncopy.work`,
      is for no more items than a row holds. */
  lemma PerfCallsFit<T>(pipes: nat, n: nat, samples: nat, r: Runtime<T>, calls: seq<Call>, s: Net<T>, i: nat)
    requires n <= 99 && Sane(Perf(pipes, n, samples), r) && Reaches(Perf(pipes, n, samples), r, calls, s)
    requires r.chunk <= 8192 && i < |calls|
    ensures 1 <= calls[i].items <= COLUMNS
  {
    StartInv<T>(Perf(pipes, n, samples), r);
    CallsWithinChunk(Perf(pipes, n, samples), r, Start(Perf(pipes, n, samples)), calls, s, i);
  }
}
