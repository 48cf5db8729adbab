/** `create_perf` against `create_default` and `create_opti`, and pipe flowgraphs in general: which streams
    their sinks can have received does not depend on the copies in the pipes, the buffers or the chunk
    limit, and every run of one is matched, call by call, by a run of the other.

    In a graph of disjoint pipes the logs are determined by their lengths, so runs are constructed on
    lengths alone and then carried over to the stream graph. */
module PerfRefinement {
  import opened Strides
  import opened StreamNet
  import opened StreamGraphs
  import opened StreamDrain
  import opened StreamRuns
  import opened StreamShapes

  // ---------------------------------------------------------------------------------------
  // Runs of pipe graphs as runs on lengths
  // ---------------------------------------------------------------------------------------

  /** What the length machine needs to know: pipes of `w` blocks, head counts, chunk size, buffers. */
  datatype Setup = Setup(w: nat, samples: nat, chunk: nat, cap: seq<nat>)

  /** Block `b` may handle `m` items when the blocks have logged `lens`. */
  ghost predicate May(x: Setup, lens: seq<nat>, b: nat, m: nat)
    requires x.w >= 3 && |lens| == |x.cap|
  {
    && b < |lens| && 1 <= m <= x.chunk
    && (Col(b, x.w) + 1 < x.w ==> b + 1 < |lens| && lens[b] + m <= lens[b + 1] + x.cap[b])
    && (Col(b, x.w) > 0 ==> b > 0 && lens[b] + m <= lens[b - 1])
    && (Col(b, x.w) == 1 ==> lens[b] + m <= x.samples)
  }

  /** The lengths after a call. */
  function Logged(lens: seq<nat>, call: Call): seq<nat>
    requires call.block < |lens|
  {
    lens[call.block := lens[call.block] + call.items]
  }

  ghost predicate LengthRuns(x: Setup, lens: seq<nat>, calls: seq<Call>, lens': seq<nat>)
    requires x.w >= 3 && |lens| == |x.cap|
    decreases |calls|
  {
    if calls == [] then lens' == lens
    else
      && May(x, lens, calls[0].block, calls[0].items)
      && LengthRuns(x, Logged(lens, calls[0]), calls[1..], lens')
  }

  lemma {:induction false} LengthRunsAppend(
    x: Setup, a: seq<nat>, xs: seq<Call>, b: seq<nat>, ys: seq<Call>, c: seq<nat>)
    requires x.w >= 3 && |a| == |b| == |x.cap|
    requires LengthRuns(x, a, xs, b) && LengthRuns(x, b, ys, c)
    ensures LengthRuns(x, a, xs + ys, c)
    decreases |xs|
  {
    if xs == [] {
      assert xs + ys == ys;
    } else {
      assert (xs + ys)[0] == xs[0] && (xs + ys)[1..] == xs[1..] + ys;
      LengthRunsAppend(x, Logged(a, xs[0]), xs[1..], b, ys, c);
    }
  }

  lemma LengthRunsSnoc(x: Setup, a: seq<nat>, xs: seq<Call>, b: seq<nat>, call: Call)
    requires x.w >= 3 && |a| == |b| == |x.cap|
    requires LengthRuns(x, a, xs, b) && May(x, b, call.block, call.items)
    ensures LengthRuns(x, a, xs + [call], Logged(b, call))
  {
    var c := Logged(b, call);
    assert [call][1..] == [] && LengthRuns(x, c, [], c);
    LengthRunsAppend(x, a, xs, b, [call], c);
  }

  ghost predicate PipeState<T>(pipes: nat, w: nat, samples: nat, middle: Kind, r: Runtime<T>, s: Net<T>) {
    && w >= 3 && PipeMiddle(middle)
    && Sane(Pipes(pipes, w, samples, middle), r)
    && Fits(Pipes(pipes, w, samples, middle), s)
    && Inv(Pipes(pipes, w, samples, middle), r, s)
  }

  ghost function Lens<T>(s: Net<T>): seq<nat> {
    seq(|s.log|, b requires 0 <= b < |s.log| => |s.log[b]|)
  }

  ghost function SetupOf<T>(w: nat, samples: nat, r: Runtime<T>): Setup {
    Setup(w, samples, r.chunk, r.cap)
  }

  /** Behind the source of a pipe every block has logged exactly what it has read. */
  lemma PipeReads<T>(pipes: nat, w: nat, samples: nat, middle: Kind, r: Runtime<T>, s: Net<T>, b: nat)
    requires PipeState(pipes, w, samples, middle, r, s) && b < |s.log| && Col(b, w) > 0
    ensures b > 0 && Reads(Pipes(pipes, w, samples, middle), b, 0, b - 1) && s.rd[b][0] == |s.log[b]|
  {
    PipeBlock(pipes, w, samples, middle, b);
    assert Faithful(Pipes(pipes, w, samples, middle), r, s, b);
  }

  lemma RoomForOne<T>(g: Graph, r: Runtime<T>, s: Net<T>, b: nat, m: nat, d: nat)
    requires Sane(g, r) && Fits(g, s) && b < |g.kinds| && Reads(g, d, 0, b)
    requires forall e: nat, q: nat :: Reads(g, e, q, b) ==> e == d && q == 0
    ensures Room(g, r, s, b, m) <==> |s.log[b]| + m <= s.rd[d][0] + r.cap[b]
  {
  }

  /** Every block of a pipe but the sink is read by the next one and by nothing else. */
  lemma OnlyReader(pipes: nat, w: nat, samples: nat, middle: Kind, b: nat)
    requires w >= 3 && PipeMiddle(middle) && b < Times(pipes, w) && Col(b, w) + 1 < w
    ensures b + 1 < Times(pipes, w) && Col(b + 1, w) == Col(b, w) + 1
    ensures forall d: nat, q: nat :: Reads(Pipes(pipes, w, samples, middle), d, q, b) ==> d == b + 1 && q == 0
  {
    IndexSplit(b, w, pipes);
    RowInside(Row(b, w), w, pipes);
    RowColumn(Row(b, w), w, Col(b, w) + 1);
    forall d: nat, q: nat | Reads(Pipes(pipes, w, samples, middle), d, q, b)
      ensures d == b + 1 && q == 0
    {
      PipeReader(pipes, w, samples, middle, d, q, b);
      PipeBlock(pipes, w, samples, middle, d);
    }
  }

  lemma RoomInside<T>(
    pipes: nat, w: nat, samples: nat, middle: Kind, r: Runtime<T>, s: Net<T>, b: nat, m: nat)
    requires PipeState(pipes, w, samples, middle, r, s) && b < |s.log| && Col(b, w) + 1 < w
    ensures b + 1 < |s.log|
    ensures Room(Pipes(pipes, w, samples, middle), r, s, b, m)
      <==> |s.log[b]| + m <= |s.log[b + 1]| + r.cap[b]
  {
    OnlyReader(pipes, w, samples, middle, b);
    PipeReads(pipes, w, samples, middle, r, s, b + 1);
    RoomForOne(Pipes(pipes, w, samples, middle), r, s, b, m, b + 1);
  }

  lemma RoomAtSink<T>(
    pipes: nat, w: nat, samples: nat, middle: Kind, r: Runtime<T>, s: Net<T>, b: nat, m: nat)
    requires PipeState(pipes, w, samples, middle, r, s) && b < |s.log| && Col(b, w) + 1 == w
    ensures Room(Pipes(pipes, w, samples, middle), r, s, b, m)
  {
    var g := Pipes(pipes, w, samples, middle);
    forall d: nat, q: nat
      ensures !Reads(g, d, q, b)
    {
      if Reads(g, d, q, b) {
        PipeReader(pipes, w, samples, middle, d, q, b);
        PipeBlock(pipes, w, samples, middle, b + 1);
      }
    }
  }

  lemma RoomIff<T>(
    pipes: nat, w: nat, samples: nat, middle: Kind, r: Runtime<T>, s: Net<T>, b: nat, m: nat)
    requires PipeState(pipes, w, samples, middle, r, s) && b < |s.log|
    ensures Room(Pipes(pipes, w, samples, middle), r, s, b, m)
      <==> (Col(b, w) + 1 < w ==> b + 1 < |s.log| && |s.log[b]| + m <= |s.log[b + 1]| + r.cap[b])
  {
    if Col(b, w) + 1 < w {
      RoomInside(pipes, w, samples, middle, r, s, b, m);
    } else {
      RoomAtSink(pipes, w, samples, middle, r, s, b, m);
    }
  }

  lemma WillingIff<T>(
    pipes: nat, w: nat, samples: nat, middle: Kind, r: Runtime<T>, s: Net<T>, b: nat, m: nat)
    requires PipeState(pipes, w, samples, middle, r, s) && b < |s.log|
    ensures Willing(Pipes(pipes, w, samples, middle), s, b, m)
      <==> ((Col(b, w) > 0 ==> b > 0 && |s.log[b]| + m <= |s.log[b - 1]|)
        && (Col(b, w) == 1 ==> |s.log[b]| + m <= samples))
  {
    PipeBlock(pipes, w, samples, middle, b);
    if Col(b, w) > 0 { PipeReads(pipes, w, samples, middle, r, s, b); }
  }

  lemma StateSize<T>(pipes: nat, w: nat, samples: nat, middle: Kind, r: Runtime<T>, s: Net<T>)
    requires PipeState(pipes, w, samples, middle, r, s)
    ensures |s.log| == |r.cap| == Times(pipes, w)
  {
  }

  lemma MayOfLens<T>(x: Setup, s: Net<T>, b: nat, m: nat)
    requires x.w >= 3 && |s.log| == |x.cap|
    ensures May(x, Lens(s), b, m) <==>
      && b < |s.log| && 1 <= m <= x.chunk
      && (Col(b, x.w) + 1 < x.w ==> b + 1 < |s.log| && |s.log[b]| + m <= |s.log[b + 1]| + x.cap[b])
      && (Col(b, x.w) > 0 ==> b > 0 && |s.log[b]| + m <= |s.log[b - 1]|)
      && (Col(b, x.w) == 1 ==> |s.log[b]| + m <= x.samples)
  {
  }

  lemma ReadyIff<T>(
    pipes: nat, w: nat, samples: nat, middle: Kind, r: Runtime<T>, s: Net<T>, b: nat, m: nat)
    requires PipeState(pipes, w, samples, middle, r, s) && |s.log| == |r.cap|
    ensures Ready(Pipes(pipes, w, samples, middle), r, s, b, m) <==> May(SetupOf(w, samples, r), Lens(s), b, m)
  {
    MayOfLens(SetupOf(w, samples, r), s, b, m);
    if b < |s.log| {
      RoomIff(pipes, w, samples, middle, r, s, b, m);
      WillingIff(pipes, w, samples, middle, r, s, b, m);
    }
  }

  lemma FireLens<T>(
    pipes: nat, w: nat, samples: nat, middle: Kind, r: Runtime<T>, s: Net<T>, b: nat, m: nat)
    requires PipeState(pipes, w, samples, middle, r, s) && Ready(Pipes(pipes, w, samples, middle), r, s, b, m)
    ensures var s' := Fire(Pipes(pipes, w, samples, middle), r, s, b, m);
      PipeState(pipes, w, samples, middle, r, s') && Lens(s') == Logged(Lens(s), Call(b, m))
  {
    FireInv(Pipes(pipes, w, samples, middle), r, s, b, m);
  }

  lemma FirstCall<T>(
    pipes: nat, w: nat, samples: nat, middle: Kind, r: Runtime<T>, s: Net<T>, calls: seq<Call>, s': Net<T>)
    returns (mid: Net<T>)
    requires PipeState(pipes, w, samples, middle, r, s) && |s.log| == |r.cap| && calls != []
    requires Runs(Pipes(pipes, w, samples, middle), r, s, calls, s')
    ensures May(SetupOf(w, samples, r), Lens(s), calls[0].block, calls[0].items)
    ensures PipeState(pipes, w, samples, middle, r, mid)
    ensures Runs(Pipes(pipes, w, samples, middle), r, mid, calls[1..], s')
    ensures Lens(mid) == Logged(Lens(s), calls[0])
  {
    var b, m := calls[0].block, calls[0].items;
    ReadyIff(pipes, w, samples, middle, r, s, b, m);
    FireLens(pipes, w, samples, middle, r, s, b, m);
    mid := Fire(Pipes(pipes, w, samples, middle), r, s, b, m);
  }

  /** A run of the stream graph is a run on lengths. */
  lemma {:induction false} RunToLengths<T>(
    pipes: nat, w: nat, samples: nat, middle: Kind, r: Runtime<T>, s: Net<T>, calls: seq<Call>, s': Net<T>)
    requires PipeState(pipes, w, samples, middle, r, s)
    requires Runs(Pipes(pipes, w, samples, middle), r, s, calls, s')
    ensures PipeState(pipes, w, samples, middle, r, s') && |s.log| == |s'.log| == |r.cap|
    ensures LengthRuns(SetupOf(w, samples, r), Lens(s), calls, Lens(s'))
    decreases |calls|
  {
    StateSize(pipes, w, samples, middle, r, s);
    if calls != [] {
      var mid := FirstCall(pipes, w, samples, middle, r, s, calls, s');
      RunToLengths(pipes, w, samples, middle, r, mid, calls[1..], s');
    }
  }

  lemma FireRun<T>(
    pipes: nat, w: nat, samples: nat, middle: Kind, r: Runtime<T>, s: Net<T>, call: Call)
    returns (mid: Net<T>)
    requires PipeState(pipes, w, samples, middle, r, s)
    requires Ready(Pipes(pipes, w, samples, middle), r, s, call.block, call.items)
    ensures PipeState(pipes, w, samples, middle, r, mid)
    ensures Lens(mid) == Logged(Lens(s), call)
    ensures Runs(Pipes(pipes, w, samples, middle), r, s, [call], mid)
  {
    FireLens(pipes, w, samples, middle, r, s, call.block, call.items);
    RunsOnce(Pipes(pipes, w, samples, middle), r, s, call.block, call.items);
    mid := Fire(Pipes(pipes, w, samples, middle), r, s, call.block, call.items);
  }

  lemma LengthsFire<T>(
    pipes: nat, w: nat, samples: nat, middle: Kind, r: Runtime<T>, s: Net<T>, call: Call)
    returns (mid: Net<T>)
    requires PipeState(pipes, w, samples, middle, r, s) && |s.log| == |r.cap|
    requires May(SetupOf(w, samples, r), Lens(s), call.block, call.items)
    ensures PipeState(pipes, w, samples, middle, r, mid)
    ensures Lens(mid) == Logged(Lens(s), call)
    ensures Runs(Pipes(pipes, w, samples, middle), r, s, [call], mid)
  {
    ReadyIff(pipes, w, samples, middle, r, s, call.block, call.items);
    mid := FireRun(pipes, w, samples, middle, r, s, call);
  }

  /** A run on lengths is the trace of a run of the stream graph. */
  lemma {:induction false} LengthsToRun<T>(
    pipes: nat, w: nat, samples: nat, middle: Kind, r: Runtime<T>, s: Net<T>, calls: seq<Call>, lens': seq<nat>)
    returns (s': Net<T>)
    requires PipeState(pipes, w, samples, middle, r, s) && |s.log| == |r.cap|
    requires LengthRuns(SetupOf(w, samples, r), Lens(s), calls, lens')
    ensures PipeState(pipes, w, samples, middle, r, s') && Lens(s') == lens'
    ensures Runs(Pipes(pipes, w, samples, middle), r, s, calls, s')
    decreases |calls|
  {
    if calls == [] {
      s' := s;
    } else {
      var mid := LengthsFire(pipes, w, samples, middle, r, s, calls[0]);
      s' := LengthsToRun(pipes, w, samples, middle, r, mid, calls[1..], lens');
      RunsVia(Pipes(pipes, w, samples, middle), r, s, mid, calls, s');
    }
  }

  // ---------------------------------------------------------------------------------------
  // A flat pipe passes items through one at a time
  // ---------------------------------------------------------------------------------------

  /** Blocks `lo` to `hi - 1` logged `m` items more. */
  ghost function Raised(lens: seq<nat>, lo: nat, hi: nat, m: nat): seq<nat> {
    seq(|lens|, k requires 0 <= k < |lens| => if lo <= k < hi then lens[k] + m else lens[k])
  }

  /** All blocks of pipe `p` have logged `l` items: nothing is buffered between them. */
  ghost predicate Flat(w: nat, lens: seq<nat>, p: nat, l: nat) {
    Times(p, w) + w <= |lens| && forall k: nat :: Times(p, w) <= k < Times(p, w) + w ==> lens[k] == l
  }

  /** Buffers and chunks hold at least one item, as in every runtime. */
  ghost predicate Roomy(pipes: nat, x: Setup) {
    && x.w >= 3 && x.chunk >= 1 && |x.cap| == Times(pipes, x.w)
    && forall b :: 0 <= b < |x.cap| ==> x.cap[b] >= 1
  }

  lemma FlowNext(pipes: nat, x: Setup, lens: seq<nat>, p: nat, l: nat, j: nat)
    requires Roomy(pipes, x) && |lens| == |x.cap| && Flat(x.w, lens, p, l) && l < x.samples && j < x.w
    ensures var y := Times(p, x.w);
      var before, b := Raised(lens, y, y + j, 1), y + j;
      May(x, before, b, 1) && Logged(before, Call(b, 1)) == Raised(lens, y, y + (j + 1), 1)
  {
    RowColumn(p, x.w, j);
  }

  lemma FlowStep(pipes: nat, x: Setup, lens: seq<nat>, p: nat, l: nat, j: nat, xs: seq<Call>)
    requires Roomy(pipes, x) && |lens| == |x.cap| && Flat(x.w, lens, p, l) && l < x.samples && j < x.w
    requires LengthRuns(x, lens, xs, Raised(lens, Times(p, x.w), Times(p, x.w) + j, 1))
    ensures LengthRuns(x, lens, xs + [Call(Times(p, x.w) + j, 1)],
      Raised(lens, Times(p, x.w), Times(p, x.w) + (j + 1), 1))
  {
    var y := Times(p, x.w);
    FlowNext(pipes, x, lens, p, l, j);
    LengthRunsSnoc(x, lens, xs, Raised(lens, y, y + j, 1), Call(y + j, 1));
  }

  /** One item passes through the first `upto` blocks of a flat pipe. */
  lemma {:induction false} FlowPart(pipes: nat, x: Setup, lens: seq<nat>, p: nat, l: nat, upto: nat)
    returns (calls: seq<Call>)
    requires Roomy(pipes, x) && |lens| == |x.cap| && Flat(x.w, lens, p, l) && l < x.samples && upto <= x.w
    ensures LengthRuns(x, lens, calls, Raised(lens, Times(p, x.w), Times(p, x.w) + upto, 1)) && |calls| == upto
    decreases upto
  {
    if upto == 0 {
      calls := [];
      assert Raised(lens, Times(p, x.w), Times(p, x.w), 1) == lens;
    } else {
      var xs := FlowPart(pipes, x, lens, p, l, upto - 1);
      FlowStep(pipes, x, lens, p, l, upto - 1, xs);
      calls := xs + [Call(Times(p, x.w) + (upto - 1), 1)];
    }
  }

  /** `m` items pass through a flat pipe, one after the other, and leave it flat. */
  lemma {:induction false} FlowItems(pipes: nat, x: Setup, lens: seq<nat>, p: nat, l: nat, m: nat)
    returns (calls: seq<Call>)
    requires Roomy(pipes, x) && |lens| == |x.cap| && Flat(x.w, lens, p, l) && l + m <= x.samples
    ensures LengthRuns(x, lens, calls, Raised(lens, Times(p, x.w), Times(p, x.w) + x.w, m))
    ensures |calls| == Times(m, x.w)
    decreases m
  {
    var y := Times(p, x.w);
    if m == 0 {
      calls := [];
      assert Raised(lens, y, y + x.w, 0) == lens;
    } else {
      var xs := FlowPart(pipes, x, lens, p, l, x.w);
      var mid := Raised(lens, y, y + x.w, 1);
      var ys := FlowItems(pipes, x, mid, p, l + 1, m - 1);
      assert Raised(mid, y, y + x.w, m - 1) == Raised(lens, y, y + x.w, m);
      LengthRunsAppend(x, lens, xs, mid, ys, Raised(lens, y, y + x.w, m));
      calls := xs + ys;
    }
  }

  lemma RaisedFlat(w: nat, lens: seq<nat>, p: nat, m: nat, k: nat, l: nat)
    requires Flat(w, lens, k, l) && Times(p, w) + w <= |lens|
    ensures Flat(w, Raised(lens, Times(p, w), Times(p, w) + w, m), k, if k == p then l + m else l)
  {
    if k < p { RowInside(k, w, p); }
    if p < k { RowInside(p, w, k); }
  }

  // ---------------------------------------------------------------------------------------
  // The streams that the sinks can have received
  // ---------------------------------------------------------------------------------------

  /** The sink of pipe `p` has received `stream`. */
  ghost predicate SinkHas<T>(w: nat, s: Net<T>, p: nat, stream: seq<T>)
    requires w > 0
  {
    Times(p, w) + (w - 1) < |s.log| && s.log[Times(p, w) + (w - 1)] == stream
  }

  ghost predicate SinksHave<T>(w: nat, s: Net<T>, streams: seq<seq<T>>)
    requires w > 0
  {
    forall p: nat :: p < |streams| ==> SinkHas(w, s, p, streams[p])
  }

  /** Some run from the start ends with these streams at the sinks. */
  ghost predicate Deliverable<T(!new)>(
    pipes: nat, w: nat, samples: nat, middle: Kind, r: Runtime<T>, streams: seq<seq<T>>)
    requires w > 0 && Sane(Pipes(pipes, w, samples, middle), r)
  {
    && |streams| == pipes
    && exists calls, s :: Reaches(Pipes(pipes, w, samples, middle), r, calls, s) && SinksHave(w, s, streams)
  }

  ghost predicate Offered<T>(w: nat, samples: nat, r: Runtime<T>, p: nat, stream: seq<T>) {
    |stream| <= samples && From(r, Times(p, w), stream)
  }

  /** The first `k` pipes have passed on what is wanted, the others nothing. */
  ghost predicate Filled<T>(w: nat, lens: seq<nat>, streams: seq<seq<T>>, k: nat, p: nat)
    requires p < |streams|
  {
    Flat(w, lens, p, if p < k then |streams[p]| else 0)
  }

  ghost predicate AllFilled<T>(w: nat, lens: seq<nat>, streams: seq<seq<T>>, k: nat) {
    forall p: nat :: p < |streams| ==> Filled(w, lens, streams, k, p)
  }

  /** Pipe `k` is next. */
  lemma FillNext<T>(w: nat, lens: seq<nat>, streams: seq<seq<T>>, k: nat)
    requires AllFilled(w, lens, streams, k) && k < |streams| && Times(k, w) + w <= |lens|
    ensures AllFilled(w, Raised(lens, Times(k, w), Times(k, w) + w, |streams[k]|), streams, k + 1)
  {
    var after, done := Raised(lens, Times(k, w), Times(k, w) + w, |streams[k]|), k + 1;
    forall p: nat | p < |streams|
      ensures Filled(w, after, streams, done, p)
    {
      assert Filled(w, lens, streams, k, p);
      RaisedFlat(w, lens, k, |streams[k]|, p, if p < k then |streams[p]| else 0);
    }
  }

  lemma {:induction false} FillPipes<T>(pipes: nat, x: Setup, start: seq<nat>, streams: seq<seq<T>>, k: nat)
    returns (calls: seq<Call>, lens: seq<nat>)
    requires Roomy(pipes, x) && |start| == |x.cap| && k <= pipes == |streams|
    requires AllFilled(x.w, start, streams, 0) && forall p: nat :: p < pipes ==> |streams[p]| <= x.samples
    ensures LengthRuns(x, start, calls, lens) && |lens| == |start|
    ensures AllFilled(x.w, lens, streams, k)
    decreases k
  {
    if k == 0 {
      calls, lens := [], start;
    } else {
      var xs, mid := FillPipes(pipes, x, start, streams, k - 1);
      assert Filled(x.w, mid, streams, k - 1, k - 1);
      var ys := FlowItems(pipes, x, mid, k - 1, 0, |streams[k - 1]|);
      FillNext(x.w, mid, streams, k - 1);
      lens := Raised(mid, Times(k - 1, x.w), Times(k - 1, x.w) + x.w, |streams[k - 1]|);
      LengthRunsAppend(x, start, xs, mid, ys, lens);
      calls := xs + ys;
    }
  }

  lemma NothingFilled<T>(pipes: nat, w: nat, lens: seq<nat>, streams: seq<seq<T>>)
    requires |lens| == Times(pipes, w) && |streams| == pipes && forall b :: 0 <= b < |lens| ==> lens[b] == 0
    ensures AllFilled(w, lens, streams, 0)
  {
    forall p: nat | p < pipes
      ensures Filled(w, lens, streams, 0, p)
    {
      RowInside(p, w, pipes);
    }
  }

  lemma StateRoomy<T>(pipes: nat, w: nat, samples: nat, middle: Kind, r: Runtime<T>, s: Net<T>)
    requires PipeState(pipes, w, samples, middle, r, s)
    ensures Roomy(pipes, SetupOf(w, samples, r)) && |s.log| == |r.cap|
  {
  }

  lemma StartState<T>(pipes: nat, w: nat, samples: nat, middle: Kind, r: Runtime<T>)
    requires w >= 3 && PipeMiddle(middle) && Sane(Pipes(pipes, w, samples, middle), r)
    ensures PipeState(pipes, w, samples, middle, r, Start(Pipes(pipes, w, samples, middle)))
    ensures var lens := Lens<T>(Start(Pipes(pipes, w, samples, middle)));
      |lens| == Times(pipes, w) && forall b :: 0 <= b < |lens| ==> lens[b] == 0
  {
    StartInv(Pipes(pipes, w, samples, middle), r);
  }

  lemma OnlyOffered<T>(
    pipes: nat, w: nat, samples: nat, middle: Kind, r: Runtime<T>, s: Net<T>, streams: seq<seq<T>>, p: nat)
    requires PipeState(pipes, w, samples, middle, r, s) && p < |streams| == pipes && SinksHave(w, s, streams)
    ensures Offered(w, samples, r, p, streams[p])
  {
    assert SinkHas(w, s, p, streams[p]);
    SinkReceives(pipes, w, samples, middle, r, s, p);
  }

  lemma FilledSink<T>(
    pipes: nat, w: nat, samples: nat, middle: Kind, r: Runtime<T>, s: Net<T>, streams: seq<seq<T>>, p: nat)
    requires PipeState(pipes, w, samples, middle, r, s) && p < |streams| == pipes
    requires Filled(w, Lens(s), streams, pipes, p) && Offered(w, samples, r, p, streams[p])
    ensures SinkHas(w, s, p, streams[p])
  {
    SinkReceives(pipes, w, samples, middle, r, s, p);
    var sink := Times(p, w) + (w - 1);
    assert Lens(s)[sink] == |s.log[sink]|;
    SameStream(r, Times(p, w), s.log[sink], r, Times(p, w), streams[p], samples);
  }

  lemma CanDeliver<T>(
    pipes: nat, w: nat, samples: nat, middle: Kind, r: Runtime<T>, streams: seq<seq<T>>)
    returns (calls: seq<Call>, s: Net<T>)
    requires w >= 3 && PipeMiddle(middle) && Sane(Pipes(pipes, w, samples, middle), r) && |streams| == pipes
    requires forall p: nat :: p < pipes ==> Offered(w, samples, r, p, streams[p])
    ensures Reaches(Pipes(pipes, w, samples, middle), r, calls, s) && SinksHave(w, s, streams)
  {
    var start := Start<T>(Pipes(pipes, w, samples, middle));
    StartState(pipes, w, samples, middle, r);
    StateRoomy(pipes, w, samples, middle, r, start);
    forall p: nat | p < pipes
      ensures |streams[p]| <= samples
    {
      assert Offered(w, samples, r, p, streams[p]);
    }
    NothingFilled(pipes, w, Lens(start), streams);
    var lens;
    calls, lens := FillPipes(pipes, SetupOf(w, samples, r), Lens(start), streams, pipes);
    s := LengthsToRun(pipes, w, samples, middle, r, start, calls, lens);
    forall p: nat | p < pipes
      ensures SinkHas(w, s, p, streams[p])
    {
      assert Filled(w, lens, streams, pipes, p) && Offered(w, samples, r, p, streams[p]);
      FilledSink(pipes, w, samples, middle, r, s, streams, p);
    }
  }

  /** What the sinks can have received, whatever the copies, buffers and chunk limit: exactly, for every
      pipe independently, any beginning of its source's first `samples` items. */
  lemma DeliverableIff<T(!new)>(pipes: nat, w: nat, samples: nat, middle: Kind, r: Runtime<T>, streams: seq<seq<T>>)
    requires w >= 3 && PipeMiddle(middle) && Sane(Pipes(pipes, w, samples, middle), r) && |streams| == pipes
    ensures Deliverable(pipes, w, samples, middle, r, streams)
      <==> forall p: nat :: p < pipes ==> Offered(w, samples, r, p, streams[p])
  {
    if Deliverable(pipes, w, samples, middle, r, streams) {
      var calls, s :| Reaches(Pipes(pipes, w, samples, middle), r, calls, s) && SinksHave(w, s, streams);
      ReachesInv(Pipes(pipes, w, samples, middle), r, calls, s);
      forall p: nat | p < pipes
        ensures Offered(w, samples, r, p, streams[p])
      {
        OnlyOffered(pipes, w, samples, middle, r, s, streams, p);
      }
    }
    if forall p: nat :: p < pipes ==> Offered(w, samples, r, p, streams[p]) {
      var calls, s := CanDeliver(pipes, w, samples, middle, r, streams);
    }
  }

  /** The sources of pipe `p` offer the same items on both sides. */
  ghost predicate SameFeed<T>(v: nat, q: Runtime<T>, w: nat, r: Runtime<T>, samples: nat, p: nat) {
    forall i: nat :: i < samples ==> q.feed(Times(p, v), i) == r.feed(Times(p, w), i)
  }

  ghost predicate SameFeeds<T>(pipes: nat, v: nat, q: Runtime<T>, w: nat, r: Runtime<T>, samples: nat) {
    forall p: nat :: p < pipes ==> SameFeed(v, q, w, r, samples, p)
  }

  lemma SameOffer<T>(v: nat, q: Runtime<T>, w: nat, r: Runtime<T>, samples: nat, p: nat, stream: seq<T>)
    requires SameFeed(v, q, w, r, samples, p)
    ensures Offered(v, samples, q, p, stream) <==> Offered(w, samples, r, p, stream)
  {
  }

  /** `create_perf` and `create_default` or `create_opti` can deliver exactly the same streams, for any
      chunk limits and buffers on either side. */
  lemma PerfDeliversSame<T(!new)>(
    pipes: nat, n: nat, samples: nat, q: Runtime<T>, r: Runtime<T>, streams: seq<seq<T>>)
    requires 1 <= n <= 99 && Sane(Perf(pipes, n, samples), q) && Sane(Chains(pipes, n, samples), r)
    requires SameFeeds(pipes, 4, q, n + 3, r, samples)
    ensures Deliverable(pipes, 4, samples, NCopy(n), q, streams)
      <==> Deliverable(pipes, n + 3, samples, Copy, r, streams)
  {
    if |streams| == pipes {
      var w := n + 3;
      DeliverableIff(pipes, 4, samples, NCopy(n), q, streams);
      DeliverableIff(pipes, w, samples, Copy, r, streams);
      forall p: nat | p < pipes
        ensures Offered(4, samples, q, p, streams[p]) <==> Offered(w, samples, r, p, streams[p])
      {
        assert SameFeed(4, q, w, r, samples, p);
        SameOffer(4, q, w, r, samples, p, streams[p]);
      }
    }
  }

  // ---------------------------------------------------------------------------------------
  // The simulation
  // ---------------------------------------------------------------------------------------

  /** Pipe `p` of the matching flowgraph is flat at what the sink of the matched one has received. */
  ghost predicate MatchedPipe(v: nat, left: seq<nat>, w: nat, right: seq<nat>, p: nat)
    requires v > 0
  {
    Times(p, v) + v <= |left| && Flat(w, right, p, left[Times(p, v) + (v - 1)])
  }

  ghost predicate Matched(pipes: nat, v: nat, left: seq<nat>, w: nat, right: seq<nat>)
    requires v > 0
  {
    forall p: nat :: p < pipes ==> MatchedPipe(v, left, w, right, p)
  }

  /** Block `b` of the matched flowgraph logs `m` items. A sink is matched by that many items flowing
      through the pipe, any other block by nothing. */
  lemma MatchCall(pipes: nat, v: nat, left: seq<nat>, b: nat, m: nat, z: Setup, right: seq<nat>)
    returns (calls: seq<Call>, right': seq<nat>)
    requires v > 0 && Roomy(pipes, z) && |right| == |z.cap| && b < |left| == Times(pipes, v)
    requires Matched(pipes, v, left, z.w, right) && (Col(b, v) == v - 1 ==> left[b] + m <= z.samples)
    ensures LengthRuns(z, right, calls, right') && |right'| == |right|
    ensures Matched(pipes, v, Logged(left, Call(b, m)), z.w, right')
    ensures |calls| == if Col(b, v) == v - 1 then Times(m, z.w) else 0
  {
    var p := Row(b, v);
    IndexSplit(b, v, pipes);
    var left' := Logged(left, Call(b, m));
    if Col(b, v) == v - 1 {
      assert MatchedPipe(v, left, z.w, right, p);
      calls := FlowItems(pipes, z, right, p, left[b], m);
      right' := Raised(right, Times(p, z.w), Times(p, z.w) + z.w, m);
      forall k: nat | k < pipes
        ensures MatchedPipe(v, left', z.w, right', k)
      {
        assert MatchedPipe(v, left, z.w, right, k);
        RaisedFlat(z.w, right, p, m, k, left[Times(k, v) + (v - 1)]);
        OtherSink(v, p, v - 1, k);
      }
    } else {
      calls, right' := [], right;
      forall k: nat | k < pipes
        ensures MatchedPipe(v, left', z.w, right', k)
      {
        assert MatchedPipe(v, left, z.w, right, k);
        OtherSink(v, p, Col(b, v), k);
      }
    }
  }

  lemma OtherSink(v: nat, p: nat, j: nat, k: nat)
    requires j < v
    ensures Times(p, v) + j == Times(k, v) + (v - 1) <==> p == k && j == v - 1
  {
    if Times(p, v) + j == Times(k, v) + (v - 1) { PositionUnique(v, p, j, k, v - 1); }
  }

  lemma {:induction false} LengthsGrow(x: Setup, lens: seq<nat>, calls: seq<Call>, lens': seq<nat>)
    requires x.w >= 3 && |lens| == |x.cap| && LengthRuns(x, lens, calls, lens')
    ensures |lens'| == |lens| && forall b :: 0 <= b < |lens| ==> lens[b] <= lens'[b]
    decreases |calls|
  {
    if calls != [] {
      var next := Logged(lens, calls[0]);
      LengthsGrow(x, next, calls[1..], lens');
      assert forall b :: 0 <= b < |lens| ==> lens[b] <= next[b];
    }
  }

  /** No sink has logged more than `samples`. */
  ghost predicate SinksWithin(v: nat, lens: seq<nat>, samples: nat)
    requires v > 0
  {
    forall b: nat :: b < |lens| && Col(b, v) == v - 1 ==> lens[b] <= samples
  }

  lemma {:induction false} MatchRun(
    pipes: nat, x: Setup, left: seq<nat>, calls: seq<Call>, left': seq<nat>, z: Setup, right: seq<nat>)
    returns (matched: seq<Call>, right': seq<nat>)
    requires x.w >= 3 && |left| == |x.cap| == Times(pipes, x.w) && LengthRuns(x, left, calls, left')
    requires SinksWithin(x.w, left', z.samples) && Roomy(pipes, z) && |right| == |z.cap|
    requires Matched(pipes, x.w, left, z.w, right)
    ensures LengthRuns(z, right, matched, right') && |right'| == |right|
    ensures Matched(pipes, x.w, left', z.w, right')
    decreases |calls|
  {
    if calls == [] {
      matched, right' := [], right;
    } else {
      var b, m := calls[0].block, calls[0].items;
      var next := Logged(left, calls[0]);
      LengthsGrow(x, next, calls[1..], left');
      assert next[b] <= left'[b];
      var xs, mid := MatchCall(pipes, x.w, left, b, m, z, right);
      var ys, last := MatchRun(pipes, x, next, calls[1..], left', z, mid);
      LengthRunsAppend(z, right, xs, mid, ys, last);
      matched, right' := xs + ys, last;
    }
  }

  lemma StateSinksWithin<T>(pipes: nat, v: nat, samples: nat, middle: Kind, q: Runtime<T>, t: Net<T>)
    requires PipeState(pipes, v, samples, middle, q, t)
    ensures SinksWithin(v, Lens(t), samples)
  {
    forall b: nat | b < |t.log| && Col(b, v) == v - 1
      ensures |t.log[b]| <= samples
    {
      IndexSplit(b, v, pipes);
      SinkReceives(pipes, v, samples, middle, q, t, Row(b, v));
    }
  }

  /** Every run of a pipe flowgraph is matched by a run of any other with as many pipes and samples,
      whatever the two runtimes, from matching to matching states. */
  lemma PipesSimulate<T>(
    pipes: nat, samples: nat, v: nat, first: Kind, q: Runtime<T>, t: Net<T>, calls: seq<Call>, t': Net<T>,
    w: nat, second: Kind, r: Runtime<T>, s: Net<T>)
    returns (matched: seq<Call>, s': Net<T>)
    requires PipeState(pipes, v, samples, first, q, t) && PipeState(pipes, w, samples, second, r, s)
    requires Matched(pipes, v, Lens(t), w, Lens(s)) && Runs(Pipes(pipes, v, samples, first), q, t, calls, t')
    ensures PipeState(pipes, w, samples, second, r, s')
    ensures Runs(Pipes(pipes, w, samples, second), r, s, matched, s')
    ensures Matched(pipes, v, Lens(t'), w, Lens(s'))
  {
    RunToLengths(pipes, v, samples, first, q, t, calls, t');
    StateSinksWithin(pipes, v, samples, first, q, t');
    StateRoomy(pipes, v, samples, first, q, t);
    StateRoomy(pipes, w, samples, second, r, s);
    var lens;
    matched, lens := MatchRun(pipes, SetupOf(v, samples, q), Lens(t), calls, Lens(t'),
      SetupOf(w, samples, r), Lens(s));
    s' := LengthsToRun(pipes, w, samples, second, r, s, matched, lens);
  }

  /** The refinement: for every run of the `ncopy` flowgraph there is a run of the chain flowgraph, from
      matching states, that ends in matching states. */
  lemma PerfRefinesChains<T>(
    pipes: nat, n: nat, samples: nat, q: Runtime<T>, t: Net<T>, calls: seq<Call>, t': Net<T>, r: Runtime<T>, s: Net<T>)
    returns (matched: seq<Call>, s': Net<T>)
    requires 1 <= n <= 99
    requires PipeState(pipes, 4, samples, NCopy(n), q, t) && PipeState(pipes, n + 3, samples, Copy, r, s)
    requires Matched(pipes, 4, Lens(t), n + 3, Lens(s)) && Runs(Perf(pipes, n, samples), q, t, calls, t')
    ensures PipeState(pipes, n + 3, samples, Copy, r, s') && Runs(Chains(pipes, n, samples), r, s, matched, s')
    ensures Matched(pipes, 4, Lens(t'), n + 3, Lens(s'))
  {
    matched, s' := PipesSimulate(pipes, samples, 4, NCopy(n), q, t, calls, t', n + 3, Copy, r, s);
  }

  /** ... and the other way round. */
  lemma ChainsRefinePerf<T>(
    pipes: nat, n: nat, samples: nat, r: Runtime<T>, s: Net<T>, calls: seq<Call>, s': Net<T>, q: Runtime<T>, t: Net<T>)
    returns (matched: seq<Call>, t': Net<T>)
    requires 1 <= n <= 99
    requires PipeState(pipes, n + 3, samples, Copy, r, s) && PipeState(pipes, 4, samples, NCopy(n), q, t)
    requires Matched(pipes, n + 3, Lens(s), 4, Lens(t)) && Runs(Chains(pipes, n, samples), r, s, calls, s')
    ensures PipeState(pipes, 4, samples, NCopy(n), q, t') && Runs(Perf(pipes, n, samples), q, t, matched, t')
    ensures Matched(pipes, n + 3, Lens(s'), 4, Lens(t'))
  {
    matched, t' := PipesSimulate(pipes, samples, n + 3, Copy, r, s, calls, s', 4, NCopy(n), q, t);
  }

  /** The sinks of pipe `p` have received the same stream. */
  ghost predicate SameSink<T>(v: nat, t: Net<T>, w: nat, s: Net<T>, p: nat)
    requires v > 0 && w > 0
  {
    && Times(p, v) + (v - 1) < |t.log| && Times(p, w) + (w - 1) < |s.log|
    && t.log[Times(p, v) + (v - 1)] == s.log[Times(p, w) + (w - 1)]
  }

  ghost predicate SameSinks<T>(pipes: nat, v: nat, t: Net<T>, w: nat, s: Net<T>)
    requires v > 0 && w > 0
  {
    forall p: nat :: p < pipes ==> SameSink(v, t, w, s, p)
  }

  /** In matching states the sinks have received the same streams, item for item. */
  lemma MatchedSinksAgree<T>(
    pipes: nat, samples: nat, v: nat, first: Kind, q: Runtime<T>, t: Net<T>,
    w: nat, second: Kind, r: Runtime<T>, s: Net<T>, p: nat)
    requires PipeState(pipes, v, samples, first, q, t) && PipeState(pipes, w, samples, second, r, s)
    requires p < pipes && Matched(pipes, v, Lens(t), w, Lens(s)) && SameFeed(v, q, w, r, samples, p)
    ensures SameSink(v, t, w, s, p)
  {
    SinkReceives(pipes, v, samples, first, q, t, p);
    SinkReceives(pipes, w, samples, second, r, s, p);
    assert MatchedPipe(v, Lens(t), w, Lens(s), p);
    var sink := Times(p, w) + (w - 1);
    assert Lens(s)[sink] == Lens(t)[Times(p, v) + (v - 1)];
    SameStream(q, Times(p, v), t.log[Times(p, v) + (v - 1)], r, Times(p, w), s.log[Times(p, w) + (w - 1)], samples);
  }

  lemma PipesSameOutcome<T>(
    pipes: nat, samples: nat, v: nat, first: Kind, q: Runtime<T>, t: Net<T>,
    w: nat, second: Kind, r: Runtime<T>, s: Net<T>, p: nat)
    requires PipeState(pipes, v, samples, first, q, t) && Quiet(Pipes(pipes, v, samples, first), q, t)
    requires PipeState(pipes, w, samples, second, r, s) && Quiet(Pipes(pipes, w, samples, second), r, s)
    requires p < pipes && SameFeed(v, q, w, r, samples, p)
    ensures SameSink(v, t, w, s, p) && |t.log[Times(p, v) + (v - 1)]| == samples
  {
    SinkReceives(pipes, v, samples, first, q, t, p);
    SinkReceives(pipes, w, samples, second, r, s, p);
    SameStream(q, Times(p, v), t.log[Times(p, v) + (v - 1)], r, Times(p, w), s.log[Times(p, w) + (w - 1)], samples);
  }

  /** Complete runs of `create_perf` and of `create_default` or `create_opti` deliver the same stream
      to the sink of every pipe, whatever the buffer sizes, chunk sizes and schedules on either side. */
  lemma PerfSameOutcome<T>(
    pipes: nat, n: nat, samples: nat, q: Runtime<T>, t: Net<T>, r: Runtime<T>, s: Net<T>, p: nat)
    requires 1 <= n <= 99 && p < pipes && SameFeed(4, q, n + 3, r, samples, p)
    requires PipeState(pipes, 4, samples, NCopy(n), q, t) && Quiet(Perf(pipes, n, samples), q, t)
    requires PipeState(pipes, n + 3, samples, Copy, r, s) && Quiet(Chains(pipes, n, samples), r, s)
    ensures SameSink(4, t, n + 3, s, p) && |t.log[Times(p, 4) + 3]| == samples
  {
    PipesSameOutcome(pipes, samples, 4, NCopy(n), q, t, n + 3, Copy, r, s, p);
  }

  lemma StartsMatch<T>(
    pipes: nat, samples: nat, v: nat, first: Kind, q: Runtime<T>, w: nat, second: Kind, r: Runtime<T>)
    requires v >= 3 && w >= 3 && PipeMiddle(first) && PipeMiddle(second)
    requires Sane(Pipes(pipes, v, samples, first), q) && Sane(Pipes(pipes, w, samples, second), r)
    ensures Matched(pipes, v, Lens<T>(Start(Pipes(pipes, v, samples, first))),
      w, Lens<T>(Start(Pipes(pipes, w, samples, second))))
  {
    var left, right := Lens<T>(Start(Pipes(pipes, v, samples, first))), Lens<T>(Start(Pipes(pipes, w, samples, second)));
    StartState(pipes, v, samples, first, q);
    StartState(pipes, w, samples, second, r);
    forall p: nat | p < pipes
      ensures MatchedPipe(v, left, w, right, p)
    {
      RowInside(p, v, pipes);
      RowInside(p, w, pipes);
    }
  }

  lemma SimulationAgrees<T>(
    pipes: nat, samples: nat, v: nat, first: Kind, q: Runtime<T>, t: Net<T>,
    w: nat, second: Kind, r: Runtime<T>, s: Net<T>)
    requires PipeState(pipes, v, samples, first, q, t) && PipeState(pipes, w, samples, second, r, s)
    requires Matched(pipes, v, Lens(t), w, Lens(s)) && SameFeeds(pipes, v, q, w, r, samples)
    ensures SameSinks(pipes, v, t, w, s)
  {
    forall p: nat | p < pipes
      ensures SameSink(v, t, w, s, p)
    {
      assert SameFeed(v, q, w, r, samples, p);
      MatchedSinksAgree(pipes, samples, v, first, q, t, w, second, r, s, p);
    }
  }

  lemma ReachesState<T>(
    pipes: nat, w: nat, samples: nat, middle: Kind, r: Runtime<T>, calls: seq<Call>, s: Net<T>)
    requires w >= 3 && PipeMiddle(middle) && Sane(Pipes(pipes, w, samples, middle), r)
    requires Reaches(Pipes(pipes, w, samples, middle), r, calls, s)
    ensures PipeState(pipes, w, samples, middle, r, s)
  {
    ReachesInv(Pipes(pipes, w, samples, middle), r, calls, s);
  }

  /** Whatever one pipe flowgraph has delivered at some moment of some run, any other with as many pipes
      and samples can deliver, for any chunk limits and buffers on either side. */
  lemma PipesBehaveAlike<T>(
    pipes: nat, samples: nat, v: nat, first: Kind, q: Runtime<T>, calls: seq<Call>, t: Net<T>,
    w: nat, second: Kind, r: Runtime<T>)
    returns (matched: seq<Call>, s: Net<T>)
    requires v >= 3 && w >= 3 && PipeMiddle(first) && PipeMiddle(second)
    requires Sane(Pipes(pipes, v, samples, first), q) && Sane(Pipes(pipes, w, samples, second), r)
    requires SameFeeds(pipes, v, q, w, r, samples) && Reaches(Pipes(pipes, v, samples, first), q, calls, t)
    ensures Reaches(Pipes(pipes, w, samples, second), r, matched, s) && SameSinks(pipes, v, t, w, s)
  {
    StartsMatch(pipes, samples, v, first, q, w, second, r);
    StartState(pipes, v, samples, first, q);
    StartState(pipes, w, samples, second, r);
    matched, s := PipesSimulate(pipes, samples, v, first, q, Start(Pipes(pipes, v, samples, first)), calls, t,
      w, second, r, Start(Pipes(pipes, w, samples, second)));
    ReachesState(pipes, v, samples, first, q, calls, t);
    SimulationAgrees(pipes, samples, v, first, q, t, w, second, r, s);
  }

  /** Whatever the `ncopy` flowgraph has delivered at some moment of some run, the chain flowgraph can
      deliver, for any chunk limits and buffers on either side. */
  lemma PerfBehavesLikeChains<T>(
    pipes: nat, n: nat, samples: nat, q: Runtime<T>, calls: seq<Call>, t: Net<T>, r: Runtime<T>)
    returns (matched: seq<Call>, s: Net<T>)
    requires 1 <= n <= 99 && Sane(Perf(pipes, n, samples), q) && Sane(Chains(pipes, n, samples), r)
    requires SameFeeds(pipes, 4, q, n + 3, r, samples) && Reaches(Perf(pipes, n, samples), q, calls, t)
    ensures Reaches(Chains(pipes, n, samples), r, matched, s) && SameSinks(pipes, 4, t, n + 3, s)
  {
    matched, s := PipesBehaveAlike(pipes, samples, 4, NCopy(n), q, calls, t, n + 3, Copy, r);
  }

  /** ... and the other way round. */
  lemma ChainsBehaveLikePerf<T>(
    pipes: nat, n: nat, samples: nat, r: Runtime<T>, calls: seq<Call>, s: Net<T>, q: Runtime<T>)
    returns (matched: seq<Call>, t: Net<T>)
    requires 1 <= n <= 99 && Sane(Perf(pipes, n, samples), q) && Sane(Chains(pipes, n, samples), r)
    requires SameFeeds(pipes, n + 3, r, 4, q, samples) && Reaches(Chains(pipes, n, samples), r, calls, s)
    ensures Reaches(Perf(pipes, n, samples), q, matched, t) && SameSinks(pipes, n + 3, s, 4, t)
  {
    matched, t := PipesBehaveAlike(pipes, samples, n + 3, Copy, r, calls, s, 4, NCopy(n), q);
  }

  // ---------------------------------------------------------------------------------------
  // How often every sample is copied
  // ---------------------------------------------------------------------------------------

  /** The single-sample copies that the calls of blocks `lo` to `hi - 1` have made. */
  ghost function CopiesBetween<T>(s: Net<T>, lo: nat, hi: nat): nat
    requires lo <= hi <= |s.copied|
    decreases hi
  {
    if hi == lo then 0 else CopiesBetween(s, lo, hi - 1) + s.copied[hi - 1]
  }

  lemma {:induction false} EqualCopies<T>(s: Net<T>, lo: nat, hi: nat, c: nat)
    requires lo <= hi <= |s.copied| && forall k: nat :: lo <= k < hi ==> s.copied[k] == c
    ensures CopiesBetween(s, lo, hi) == Times(hi - lo, c)
    decreases hi
  {
    if hi > lo { EqualCopies(s, lo, hi - 1, c); }
  }

  lemma CopiedAt<T>(pipes: nat, w: nat, samples: nat, middle: Kind, r: Runtime<T>, s: Net<T>, p: nat, j: nat)
    requires PipeState(pipes, w, samples, middle, r, s) && p < pipes && j < w
    ensures Times(p, w) + w <= |s.copied| == |s.log|
    ensures s.copied[Times(p, w) + j] == Times(|s.log[Times(p, w) + j]|,
      CopiesPerItem(if j <= 1 || j == w - 1 then Source else middle))
  {
    RowInside(p, w, pipes);
    RowColumn(p, w, j);
    PipeBlock(pipes, w, samples, middle, Times(p, w) + j);
    assert Counted(Pipes(pipes, w, samples, middle), s, Times(p, w) + j);
  }

  lemma MiddleCopied<T>(pipes: nat, w: nat, samples: nat, middle: Kind, r: Runtime<T>, s: Net<T>, p: nat, j: nat)
    requires PipeState(pipes, w, samples, middle, r, s) && Quiet(Pipes(pipes, w, samples, middle), r, s)
    requires p < pipes && 2 <= j < w - 1
    ensures Times(p, w) + j < |s.copied| && s.copied[Times(p, w) + j] == Times(samples, CopiesPerItem(middle))
  {
    PipeDelivers(pipes, w, samples, middle, r, s, p, j);
    CopiedAt(pipes, w, samples, middle, r, s, p, j);
  }

  /** A complete run has made, in every pipe, one copy of each of the `samples` items per copy block, or
      as many as the `ncopy` stands for. */
  lemma PipeCopies<T>(pipes: nat, w: nat, samples: nat, middle: Kind, r: Runtime<T>, s: Net<T>, p: nat)
    requires PipeState(pipes, w, samples, middle, r, s) && Quiet(Pipes(pipes, w, samples, middle), r, s) && p < pipes
    ensures Times(p, w) + w <= |s.copied|
    ensures CopiesBetween(s, Times(p, w), Times(p, w) + w) == Times(w - 3, Times(samples, CopiesPerItem(middle)))
  {
    var y, c := Times(p, w), Times(samples, CopiesPerItem(middle));
    RowInside(p, w, pipes);
    forall k: nat | y + 2 <= k < y + (w - 1)
      ensures s.copied[k] == c
    {
      MiddleCopied(pipes, w, samples, middle, r, s, p, k - y);
    }
    OuterCopied(pipes, w, samples, middle, r, s, p, 0);
    OuterCopied(pipes, w, samples, middle, r, s, p, 1);
    OuterCopied(pipes, w, samples, middle, r, s, p, w - 1);
    EqualCopies(s, y, y + 2, 0);
    TimesZero(2);
    CopiesSplit(s, y, y + 2, y + (w - 1));
    EqualCopies(s, y + 2, y + (w - 1), c);
    assert CopiesBetween(s, y, y + w) == CopiesBetween(s, y, y + (w - 1)) + s.copied[y + (w - 1)];
  }

  lemma {:induction false} CopiesSplit<T>(s: Net<T>, lo: nat, mid: nat, hi: nat)
    requires lo <= mid <= hi <= |s.copied|
    ensures CopiesBetween(s, lo, hi) == CopiesBetween(s, lo, mid) + CopiesBetween(s, mid, hi)
    decreases hi
  {
    if hi > mid { CopiesSplit(s, lo, mid, hi - 1); }
  }

  lemma OuterCopied<T>(pipes: nat, w: nat, samples: nat, middle: Kind, r: Runtime<T>, s: Net<T>, p: nat, j: nat)
    requires PipeState(pipes, w, samples, middle, r, s) && p < pipes && (j == 0 || j == 1 || j == w - 1)
    ensures Times(p, w) + w <= |s.copied| && s.copied[Times(p, w) + j] == 0
  {
    CopiedAt(pipes, w, samples, middle, r, s, p, j);
    TimesZero(|s.log[Times(p, w) + j]|);
  }

  lemma PerfCopies<T>(pipes: nat, n: nat, samples: nat, q: Runtime<T>, t: Net<T>, p: nat)
    requires 1 <= n <= 99 && p < pipes
    requires PipeState(pipes, 4, samples, NCopy(n), q, t) && Quiet(Perf(pipes, n, samples), q, t)
    ensures Times(p, 4) + 4 <= |t.copied|
    ensures CopiesBetween(t, Times(p, 4), Times(p, 4) + 4) == n * samples
  {
    PipeCopies(pipes, 4, samples, NCopy(n), q, t, p);
    CopiesProduct(n, samples);
  }

  lemma ChainCopies<T>(pipes: nat, n: nat, samples: nat, r: Runtime<T>, s: Net<T>, p: nat)
    requires 1 <= n <= 99 && p < pipes
    requires PipeState(pipes, n + 3, samples, Copy, r, s) && Quiet(Chains(pipes, n, samples), r, s)
    ensures Times(p, n + 3) + (n + 3) <= |s.copied|
    ensures CopiesBetween(s, Times(p, n + 3), Times(p, n + 3) + (n + 3)) == n * samples
  {
    PipeCopies(pipes, n + 3, samples, Copy, r, s, p);
    CopiesProduct(n, samples);
  }

  /** Any two complete runs, under any two runtimes, have made `n * samples` copies in every pipe. */
  lemma SameCopies<T>(pipes: nat, n: nat, samples: nat, q: Runtime<T>, t: Net<T>, r: Runtime<T>, s: Net<T>, p: nat)
    requires 1 <= n <= 99 && p < pipes
    requires PipeState(pipes, 4, samples, NCopy(n), q, t) && Quiet(Perf(pipes, n, samples), q, t)
    requires PipeState(pipes, n + 3, samples, Copy, r, s) && Quiet(Chains(pipes, n, samples), r, s)
    ensures Times(p, 4) + 4 <= |t.copied| && Times(p, n + 3) + (n + 3) <= |s.copied|
    ensures CopiesBetween(t, Times(p, 4), Times(p, 4) + 4)
      == CopiesBetween(s, Times(p, n + 3), Times(p, n + 3) + (n + 3))
      == n * samples
  {
    PerfCopies(pipes, n, samples, q, t, p);
    ChainCopies(pipes, n, samples, r, s, p);
  }

  /** One block that makes `n` copies of each sample copies as often as `n` blocks that make one. */
  lemma CopiesProduct(n: nat, samples: nat)
    ensures Times(1, Times(samples, n)) == Times(n, Times(samples, 1)) == n * samples
  {
    TimesIsProduct(1, Times(samples, n));
    TimesIsProduct(samples, n);
    TimesOne(samples);
    TimesIsProduct(n, samples);
  }

  /** In every reachable state of the `ncopy` flowgraph every item at a sink has been copied `n` times. */
  lemma PerfItemsCopied<T>(pipes: nat, n: nat, samples: nat, q: Runtime<T>, t: Net<T>, p: nat, i: nat)
    requires 1 <= n <= 99 && p < pipes && PipeState(pipes, 4, samples, NCopy(n), q, t)
    ensures Times(p, 4) + 3 < |t.log| == |t.hops|
    ensures i < |t.log[Times(p, 4) + 3]| ==>
      i < |t.hops[Times(p, 4) + 3]| && t.hops[Times(p, 4) + 3][i] == n
  {
    PipeItemsCopied(pipes, 4, samples, NCopy(n), q, t, p, i);
    assert Times(1, n) == n;
  }

  /** ... and in every reachable state of the chain flowgraph. */
  lemma ChainItemsCopied<T>(pipes: nat, n: nat, samples: nat, r: Runtime<T>, s: Net<T>, p: nat, i: nat)
    requires 1 <= n <= 99 && p < pipes && PipeState(pipes, n + 3, samples, Copy, r, s)
    ensures Times(p, n + 3) + (n + 2) < |s.log| == |s.hops|
    ensures i < |s.log[Times(p, n + 3) + (n + 2)]| ==>
      i < |s.hops[Times(p, n + 3) + (n + 2)]| && s.hops[Times(p, n + 3) + (n + 2)][i] == n
  {
    PipeItemsCopied(pipes, n + 3, samples, Copy, r, s, p, i);
    assert Times(n + 3 - 3, CopiesPerItem(Copy)) == n by { TimesOne(n); }
  }
}
