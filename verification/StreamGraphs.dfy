/** The stream topologies that `run_buf_flowgraph` and `run_opti_flowgraph` build, and the builders. */
module StreamGraphs {
  import opened Strides
  import opened StreamNet

  // ---------------------------------------------------------------------------------------
  // Topologies
  // ---------------------------------------------------------------------------------------

  /** Blocks 0 and 1 are the source and the head. Row `p` of the fork holds the `n` copies of pipe `p`
      and its sink. */
  function ForkInput(n: nat, k: nat): seq<nat> {
    [if Col(k, n + 1) == 0 then 1 else 1 + k]
  }

  function ForkKind(n: nat, k: nat): Kind {
    if Col(k, n + 1) == n then NullSink else Copy
  }

  function Fork(pipes: nat, n: nat, samples: nat): Graph {
    var size := 2 + Times(pipes, n + 1);
    Graph(seq(size, b requires b >= 0 =>
            if b == 0 then Source else if b == 1 then Head(samples) else ForkKind(n, b - 2)),
          seq(size, b requires b >= 0 => if b == 0 then [] else if b == 1 then [0] else ForkInput(n, b - 2)))
  }

  /** Row `p` of the diamond holds the `n` copies of pipe `p`; the join and the sink come last. */
  function DiamondInput(n: nat, k: nat): seq<nat>
    requires n > 0
  {
    [if Col(k, n) == 0 then 1 else 1 + k]
  }

  function Position(n: nat, p: nat, j: nat): nat { 2 + Times(p, n) + j }

  function LastOf(n: nat, p: nat): nat
    requires n > 0
  {
    Position(n, p, n - 1)
  }

  function Join(pipes: nat, n: nat): nat { 2 + Times(pipes, n) }

  /** The vector `ends`: the last copy of each pipe. */
  function Ends(pipes: nat, n: nat): seq<nat>
    requires n > 0
  {
    seq(pipes, p requires p >= 0 => LastOf(n, p))
  }

  function DiamondKind(pipes: nat, n: nat, samples: nat, whole: bool, b: nat): Kind {
    if b == 0 then Source else if b == 1 then Head(samples)
    else if b < Join(pipes, n) then Copy
    else if b == Join(pipes, n) then Interleave(whole) else NullSink
  }

  function DiamondInputs(pipes: nat, n: nat, b: nat): seq<nat>
    requires n > 0
  {
    if b == 0 then [] else if b == 1 then [0]
    else if b < Join(pipes, n) then DiamondInput(n, b - 2)
    else if b == Join(pipes, n) then Ends(pipes, n)
    else [Join(pipes, n)]
  }

  function Diamond(pipes: nat, n: nat, samples: nat, whole: bool): Graph
    requires n > 0
  {
    Graph(seq(Join(pipes, n) + 2, b requires b >= 0 => DiamondKind(pipes, n, samples, whole, b)),
          seq(Join(pipes, n) + 2, b requires b >= 0 => DiamondInputs(pipes, n, b)))
  }

  /** Disjoint pipes of `w` blocks each: a source, a head, `middle` at the positions between, a sink. */
  function PipeKind(w: nat, samples: nat, middle: Kind, k: nat): Kind
    requires w > 0
  {
    var j := Col(k, w);
    if j == 0 then Source else if j == 1 then Head(samples) else if j == w - 1 then NullSink else middle
  }

  function PipeInput(w: nat, k: nat): seq<nat>
    requires w > 0
  {
    if Col(k, w) == 0 || k == 0 then [] else [k - 1]
  }

  function Pipes(pipes: nat, w: nat, samples: nat, middle: Kind): Graph
    requires w > 0
  {
    Graph(seq(Times(pipes, w), k requires k >= 0 => PipeKind(w, samples, middle, k)),
          seq(Times(pipes, w), k requires k >= 0 => PipeInput(w, k)))
  }

  /** `create_default` and `create_opti`: a chain of `n` copies per pipe. */
  function Chains(pipes: nat, n: nat, samples: nat): Graph {
    Pipes(pipes, n + 3, samples, Copy)
  }

  /** `create_perf`: a single `ncopy(stages)` per pipe. */
  function Perf(pipes: nat, stages: int, samples: nat): Graph {
    Pipes(pipes, 4, samples, NCopy(stages))
  }

  // ---------------------------------------------------------------------------------------
  // Builders
  // ---------------------------------------------------------------------------------------

  class TopBlock {
    var kinds: seq<Kind>
    var inputs: seq<seq<nat>>

    constructor ()
      ensures kinds == [] && inputs == []
    {
      kinds, inputs := [], [];
    }

    /** `...::make(...)`: a new block without connections. */
    method Make(k: Kind) returns (b: nat)
      modifies this
      ensures b == |old(kinds)| && kinds == old(kinds) + [k] && inputs == old(inputs) + [[]]
    {
      b := |kinds|;
      kinds, inputs := kinds + [k], inputs + [[]];
    }

    /** `tb->connect(a, 0, d, port)`. An input port may be connected only once. */
    method Connect(a: nat, d: nat, port: nat)
      requires |inputs| == |kinds| && a < |kinds| && d < |kinds| && port == |inputs[d]|
      modifies this`inputs
      ensures inputs == old(inputs)[d := old(inputs[d]) + [a]]
    {
      inputs := inputs[d := inputs[d] + [a]];
    }
  }

  /** A new block whose single input is `a`. */
  method MakeBehind(tb: TopBlock, k: Kind, a: nat) returns (b: nat)
    requires |tb.inputs| == |tb.kinds| && a < |tb.kinds|
    modifies tb
    ensures b == |old(tb.kinds)|
    ensures tb.kinds == old(tb.kinds) + [k] && tb.inputs == old(tb.inputs) + [[a]]
  {
    b := tb.Make(k);
    tb.Connect(a, b, 0);
    assert [] + [a] == [a];
  }

  ghost predicate ForkLaid(n: nat, samples: nat, kinds: seq<Kind>, inputs: seq<seq<nat>>) {
    && |kinds| == |inputs| && |kinds| >= 2
    && kinds[0] == Source && kinds[1] == Head(samples) && inputs[0] == [] && inputs[1] == [0]
    && forall b :: 2 <= b < |kinds| ==> kinds[b] == ForkKind(n, b - 2) && inputs[b] == ForkInput(n, b - 2)
  }

  lemma ForkNext(n: nat, samples: nat, kinds: seq<Kind>, inputs: seq<seq<nat>>, p: nat, j: nat)
    requires ForkLaid(n, samples, kinds, inputs) && j <= n && |kinds| == 2 + Times(p, n + 1) + j
    ensures ForkLaid(n, samples, kinds + [if j == n then NullSink else Copy],
      inputs + [[if j == 0 then 1 else |kinds| - 1]])
  {
    RowColumn(p, n + 1, j);
  }

  ghost predicate CopiesLaid(n: nat, samples: nat, kinds: seq<Kind>, inputs: seq<seq<nat>>)
    requires n > 0
  {
    && |kinds| == |inputs| && |kinds| >= 2
    && kinds[0] == Source && kinds[1] == Head(samples) && inputs[0] == [] && inputs[1] == [0]
    && forall b :: 2 <= b < |kinds| ==> kinds[b] == Copy && inputs[b] == DiamondInput(n, b - 2)
  }

  lemma CopiesNext(n: nat, samples: nat, kinds: seq<Kind>, inputs: seq<seq<nat>>, p: nat, j: nat)
    requires n > 0 && CopiesLaid(n, samples, kinds, inputs) && j < n && |kinds| == 2 + Times(p, n) + j
    ensures CopiesLaid(n, samples, kinds + [Copy], inputs + [[if j == 0 then 1 else |kinds| - 1]])
  {
    RowColumn(p, n, j);
  }

  class BufFlowgraph {
    const pipes: int
    const stages: int
    const samples: nat
    const tb: TopBlock
    var blocks: seq<nat>

    constructor (pipes: int, stages: int, samples: nat)
      ensures this.pipes == pipes && this.stages == stages && this.samples == samples
      ensures blocks == [] && fresh(tb) && tb.kinds == [] && tb.inputs == []
    {
      this.pipes, this.stages, this.samples := pipes, stages, samples;
      tb := new TopBlock();
      blocks := [];
    }

    method CreateFork()
      requires tb.kinds == [] && tb.inputs == [] && blocks == []
      modifies this, tb
      ensures Graph(tb.kinds, tb.inputs) == Fork(PipeCount(pipes), PipeLength(stages), samples)
      ensures |blocks| == Times(PipeCount(pipes), PipeLength(stages))
    {
      ghost var n := PipeLength(stages);
      var src := tb.Make(Source);
      var head := MakeBehind(tb, Head(samples), src);
      var pipe := 0;
      while pipe < pipes
        invariant 0 <= pipe <= PipeCount(pipes) && src == 0 && head == 1
        invariant ForkLaid(n, samples, tb.kinds, tb.inputs)
        invariant |tb.kinds| == 2 + Times(pipe, n + 1) && |blocks| == Times(pipe, n)
      {
        ForkPipe(head, pipe);
        pipe := pipe + 1;
      }
    }

    /** The copies of one pipe of the fork, and its sink. */
    method ForkPipe(head: nat, ghost pipe: nat)
      requires head == 1 && ForkLaid(PipeLength(stages), samples, tb.kinds, tb.inputs)
      requires |tb.kinds| == 2 + Times(pipe, PipeLength(stages) + 1) && |blocks| == Times(pipe, PipeLength(stages))
      modifies this, tb
      ensures ForkLaid(PipeLength(stages), samples, tb.kinds, tb.inputs)
      ensures |tb.kinds| == 2 + Times(pipe + 1, PipeLength(stages) + 1)
      ensures |blocks| == Times(pipe + 1, PipeLength(stages))
    {
      ghost var n := PipeLength(stages);
      ForkNext(n, samples, tb.kinds, tb.inputs, pipe, 0);
      var block := MakeBehind(tb, Copy, head);
      blocks := blocks + [block];
      var stage := 1;
      while stage < stages
        invariant 1 <= stage <= n
        invariant ForkLaid(n, samples, tb.kinds, tb.inputs)
        invariant |tb.kinds| == 2 + Times(pipe, n + 1) + stage && |blocks| == Times(pipe, n) + stage
        invariant blocks[|blocks| - 1] == |tb.kinds| - 1
        decreases stages - stage
      {
        ForkNext(n, samples, tb.kinds, tb.inputs, pipe, stage);
        block := MakeBehind(tb, Copy, blocks[|blocks| - 1]);
        blocks := blocks + [block];
        stage := stage + 1;
      }
      ForkNext(n, samples, tb.kinds, tb.inputs, pipe, n);
      var sink := MakeBehind(tb, NullSink, blocks[|blocks| - 1]);
    }

    method CreateDiamond(whole: bool)
      requires tb.kinds == [] && tb.inputs == [] && blocks == []
      modifies this, tb
      ensures Graph(tb.kinds, tb.inputs) == Diamond(PipeCount(pipes), PipeLength(stages), samples, whole)
      ensures |blocks| == Times(PipeCount(pipes), PipeLength(stages))
    {
      ghost var n := PipeLength(stages);
      var src := tb.Make(Source);
      var head := MakeBehind(tb, Head(samples), src);
      var ends := [];
      var pipe := 0;
      while pipe < pipes
        invariant 0 <= pipe <= PipeCount(pipes) && src == 0 && head == 1
        invariant CopiesLaid(n, samples, tb.kinds, tb.inputs)
        invariant |tb.kinds| == 2 + Times(pipe, n) && |blocks| == Times(pipe, n)
        invariant |ends| == pipe && forall i :: 0 <= i < |ends| ==> ends[i] == LastOf(n, i)
      {
        var block := DiamondPipe(head, pipe);
        ends := ends + [block];
        pipe := pipe + 1;
      }
      EndsFit(ends, PipeCount(pipes), n);
      JoinEnds(tb, ends, whole);
    }

    /** The copies of one pipe of the diamond. */
    method DiamondPipe(head: nat, ghost pipe: nat) returns (block: nat)
      requires head == 1 && CopiesLaid(PipeLength(stages), samples, tb.kinds, tb.inputs)
      requires |tb.kinds| == 2 + Times(pipe, PipeLength(stages)) && |blocks| == Times(pipe, PipeLength(stages))
      modifies this, tb
      ensures CopiesLaid(PipeLength(stages), samples, tb.kinds, tb.inputs)
      ensures |tb.kinds| == 2 + Times(pipe + 1, PipeLength(stages)) && |blocks| == Times(pipe + 1, PipeLength(stages))
      ensures block == LastOf(PipeLength(stages), pipe)
    {
      ghost var n := PipeLength(stages);
      CopiesNext(n, samples, tb.kinds, tb.inputs, pipe, 0);
      block := MakeBehind(tb, Copy, head);
      blocks := blocks + [block];
      var stage := 1;
      while stage < stages
        invariant 1 <= stage <= n
        invariant CopiesLaid(n, samples, tb.kinds, tb.inputs)
        invariant |tb.kinds| == 2 + Times(pipe, n) + stage && |blocks| == Times(pipe, n) + stage
        invariant blocks[|blocks| - 1] == block == |tb.kinds| - 1
        decreases stages - stage
      {
        CopiesNext(n, samples, tb.kinds, tb.inputs, pipe, stage);
        block := MakeBehind(tb, Copy, blocks[|blocks| - 1]);
        blocks := blocks + [block];
        stage := stage + 1;
      }
    }
  }

  lemma EndsFit(ends: seq<nat>, pipes: nat, n: nat)
    requires n > 0 && |ends| == pipes && forall i :: 0 <= i < |ends| ==> ends[i] == LastOf(n, i)
    ensures ends == Ends(pipes, n) && forall i :: 0 <= i < |ends| ==> ends[i] < Join(pipes, n)
  {
    forall i | 0 <= i < |ends|
      ensures ends[i] < Join(pipes, n)
    {
      RowInside(i, n, pipes);
    }
  }

  /** The `interleave` block, its connections and the sink. */
  method JoinEnds(tb: TopBlock, ends: seq<nat>, whole: bool)
    requires |tb.inputs| == |tb.kinds|
    requires forall i :: 0 <= i < |ends| ==> ends[i] < |tb.kinds|
    modifies tb
    ensures tb.kinds == old(tb.kinds) + [Interleave(whole), NullSink]
    ensures tb.inputs == old(tb.inputs) + [ends, [|old(tb.kinds)|]]
  {
    ghost var kinds, inputs := tb.kinds, tb.inputs;
    var interleave := tb.Make(Interleave(whole));
    var i := 0;
    while i < |ends|
      invariant 0 <= i <= |ends| && interleave == |kinds|
      invariant tb.kinds == kinds + [Interleave(whole)] && tb.inputs == inputs + [ends[..i]]
    {
      tb.Connect(ends[i], interleave, i);
      assert ends[..i + 1] == ends[..i] + [ends[i]];
      i := i + 1;
    }
    var sink := MakeBehind(tb, NullSink, interleave);
    assert ends[..|ends|] == ends;
  }

  ghost predicate PipesLaid(w: nat, samples: nat, middle: Kind, kinds: seq<Kind>, inputs: seq<seq<nat>>)
    requires w > 0
  {
    && |kinds| == |inputs|
    && forall k :: 0 <= k < |kinds| ==>
        kinds[k] == PipeKind(w, samples, middle, k) && inputs[k] == PipeInput(w, k)
  }

  lemma PipesNext(w: nat, samples: nat, middle: Kind, kinds: seq<Kind>, inputs: seq<seq<nat>>, p: nat, j: nat)
    requires w >= 3 && PipesLaid(w, samples, middle, kinds, inputs) && j < w && |kinds| == Times(p, w) + j
    ensures PipesLaid(w, samples, middle,
      kinds + [if j == 0 then Source else if j == 1 then Head(samples) else if j == w - 1 then NullSink else middle],
      inputs + [if j == 0 then [] else [|kinds| - 1]])
  {
    RowColumn(p, w, j);
  }

  /** The source and the head of one pipe. */
  method MakeHead(tb: TopBlock, samples: nat, ghost w: nat, ghost middle: Kind, ghost pipe: nat) returns (head: nat)
    requires w >= 3 && PipesLaid(w, samples, middle, tb.kinds, tb.inputs) && |tb.kinds| == Times(pipe, w)
    modifies tb
    ensures PipesLaid(w, samples, middle, tb.kinds, tb.inputs)
    ensures |tb.kinds| == head + 1 == Times(pipe, w) + 2
  {
    PipesNext(w, samples, middle, tb.kinds, tb.inputs, pipe, 0);
    var src := tb.Make(Source);
    PipesNext(w, samples, middle, tb.kinds, tb.inputs, pipe, 1);
    head := MakeBehind(tb, Head(samples), src);
  }

  /** How a builder ends: with the graph; with the exception of `ncopy` for more than 99 copies; or where
      its behaviour is undefined, at `d_blocks.back()` of an empty vector or past the end of `cpu_map`. */
  datatype Outcome = Built | BadAlloc | EmptyBack | OutsideMap

  const CPU_MAP := [2, 3, 6, 7]

  class OptiFlowgraph {
    const pipes: int
    const stages: int
    const samples: nat
    const tb: TopBlock
    var blocks: seq<nat>
    var maxNoutput: nat
    var maxBuffer: nat

    constructor (pipes: int, stages: int, samples: nat)
      ensures this.pipes == pipes && this.stages == stages && this.samples == samples
      ensures blocks == [] && fresh(tb) && tb.kinds == [] && tb.inputs == []
    {
      this.pipes, this.stages, this.samples := pipes, stages, samples;
      tb := new TopBlock();
      blocks, maxNoutput, maxBuffer := [], 0, 0;
    }

    /** The loops of `create_default` and, with `mapped`, of `create_opti`. */
    method CreateChains(mapped: bool) returns (r: Outcome)
      requires tb.kinds == [] && tb.inputs == [] && blocks == []
      modifies this`blocks, tb
      ensures r == if pipes >= 1 && stages < 1 then EmptyBack
        else if mapped && pipes > 4 then OutsideMap else Built
      ensures r == Built ==> Graph(tb.kinds, tb.inputs) == Chains(PipeCount(pipes), PipeLength(stages), samples)
    {
      ghost var w := PipeLength(stages) + 3;
      var pipe := 0;
      while pipe < pipes
        invariant 0 <= pipe <= PipeCount(pipes) && (mapped ==> pipe <= |CPU_MAP|)
        invariant if pipe > 0 then stages >= 1 else blocks == []
        invariant PipesLaid(w, samples, Copy, tb.kinds, tb.inputs) && |tb.kinds| == Times(pipe, w)
      {
        if mapped && pipe >= |CPU_MAP| {
          return OutsideMap;
        }
        var ok := ChainPipe(pipe);
        if !ok {
          return EmptyBack;
        }
        pipe := pipe + 1;
      }
      r := Built;
    }

    /** One pipe: source, head, copies, sink. Without a copy there is no block to connect the sink to. */
    method ChainPipe(ghost pipe: nat) returns (ok: bool)
      requires PipesLaid(PipeLength(stages) + 3, samples, Copy, tb.kinds, tb.inputs)
      requires |tb.kinds| == Times(pipe, PipeLength(stages) + 3) && (stages < 1 ==> blocks == [])
      modifies this`blocks, tb
      ensures ok <==> stages >= 1
      ensures ok ==> PipesLaid(stages + 3, samples, Copy, tb.kinds, tb.inputs)
      ensures ok ==> |tb.kinds| == Times(pipe + 1, stages + 3)
    {
      ghost var w := PipeLength(stages) + 3;
      var head := MakeHead(tb, samples, w, Copy, pipe);
      ChainCopies(head, pipe);
      if |blocks| == 0 {
        return false;
      }
      PipesNext(w, samples, Copy, tb.kinds, tb.inputs, pipe, stages + 2);
      var sink := MakeBehind(tb, NullSink, blocks[|blocks| - 1]);
      ok := true;
    }

    /** The loop over the stages of one pipe. */
    method ChainCopies(head: nat, ghost pipe: nat)
      requires PipesLaid(PipeLength(stages) + 3, samples, Copy, tb.kinds, tb.inputs)
      requires |tb.kinds| == head + 1 == Times(pipe, PipeLength(stages) + 3) + 2
      modifies this`blocks, tb
      ensures PipesLaid(PipeLength(stages) + 3, samples, Copy, tb.kinds, tb.inputs)
      ensures |tb.kinds| == head + 1 + PipeCount(stages)
      ensures if stages < 1 then blocks == old(blocks) else blocks != [] && blocks[|blocks| - 1] == |tb.kinds| - 1
    {
      ghost var w := PipeLength(stages) + 3;
      var stage := 0;
      while stage < stages
        invariant 0 <= stage <= PipeCount(stages)
        invariant PipesLaid(w, samples, Copy, tb.kinds, tb.inputs)
        invariant |tb.kinds| == head + 1 + stage
        invariant if stage == 0 then blocks == old(blocks) else blocks != [] && blocks[|blocks| - 1] == |tb.kinds| - 1
      {
        PipesNext(w, samples, Copy, tb.kinds, tb.inputs, pipe, stage + 2);
        var block := MakeBehind(tb, Copy, if stage == 0 then head else blocks[|blocks| - 1]);
        blocks := blocks + [block];
        stage := stage + 1;
      }
    }

    method CreateDefault() returns (r: Outcome)
      requires tb.kinds == [] && tb.inputs == [] && blocks == []
      modifies this`blocks, tb
      ensures r == if pipes >= 1 && stages < 1 then EmptyBack else Built
      ensures r == Built ==> Graph(tb.kinds, tb.inputs) == Chains(PipeCount(pipes), PipeLength(stages), samples)
    {
      r := CreateChains(false);
    }

    method CreateOpti() returns (r: Outcome)
      requires tb.kinds == [] && tb.inputs == [] && blocks == []
      modifies this, tb
      ensures r == if pipes >= 1 && stages < 1 then EmptyBack else if pipes > 4 then OutsideMap else Built
      ensures r == Built ==> Graph(tb.kinds, tb.inputs) == Chains(PipeCount(pipes), PipeLength(stages), samples)
      ensures maxNoutput == 8192 && maxBuffer == 16384
    {
      maxNoutput, maxBuffer := 32768 / 4, 32768 / 2;
      r := CreateChains(true);
    }

    /** `ncopy` throws `bad_alloc` for more than 99 copies; nothing is built for that pipe or later. */
    method CreatePerf() returns (r: Outcome)
      requires tb.kinds == [] && tb.inputs == [] && blocks == []
      modifies this, tb
      ensures r == if pipes >= 1 && stages > 99 then BadAlloc else if pipes > 4 then OutsideMap else Built
      ensures r == Built ==> Graph(tb.kinds, tb.inputs) == Perf(PipeCount(pipes), stages, samples)
      ensures maxNoutput == 8192 && maxBuffer == 8192 && blocks == []
    {
      maxNoutput, maxBuffer := 32768 / 4, 32768 / 4;
      var pipe := 0;
      while pipe < pipes
        invariant 0 <= pipe <= PipeCount(pipes) && pipe <= |CPU_MAP| && (pipe > 0 ==> stages <= 99)
        invariant PipesLaid(4, samples, NCopy(stages), tb.kinds, tb.inputs) && |tb.kinds| == Times(pipe, 4)
        invariant maxNoutput == 8192 && maxBuffer == 8192 && blocks == []
      {
        if pipe >= |CPU_MAP| {
          return OutsideMap;
        }
        var ok := PerfPipe(pipe);
        if !ok {
          return BadAlloc;
        }
        pipe := pipe + 1;
      }
      r := Built;
    }

    /** One pipe: source, head, `ncopy`, sink. */
    method PerfPipe(ghost pipe: nat) returns (ok: bool)
      requires PipesLaid(4, samples, NCopy(stages), tb.kinds, tb.inputs) && |tb.kinds| == Times(pipe, 4)
      modifies tb
      ensures ok <==> stages <= 99
      ensures ok ==> PipesLaid(4, samples, NCopy(stages), tb.kinds, tb.inputs) && |tb.kinds| == Times(pipe + 1, 4)
    {
      var middle := NCopy(stages);
      var head := MakeHead(tb, samples, 4, middle, pipe);
      if stages > 99 {
        return false;
      }
      PipesNext(4, samples, middle, tb.kinds, tb.inputs, pipe, 2);
      var copy := MakeBehind(tb, middle, head);
      PipesNext(4, samples, middle, tb.kinds, tb.inputs, pipe, 3);
      var sink := MakeBehind(tb, NullSink, copy);
      ok := true;
    }
  }
}
