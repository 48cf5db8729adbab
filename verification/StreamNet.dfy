/** Stream graphs under an arbitrary scheduler. A block may be called whenever its bounded output
    buffer has room and its inputs hold enough items, with any chunk size the runtime may choose.

    Every output has one writer and any number of readers. A buffer is represented by the complete
    log of its writer and, per reader, how far that reader has read; what is physically buffered is
    the part of the log beyond the slowest reader. */
module StreamNet {
  import opened Strides
  import opened Latency
  import opened CopyBlocks

  datatype Kind =
    | Source                          // null_source
    | LatencySource(granularity: nat) // null_source_latency
    | Head(count: nat)                // head: passes the first `count` items
    | Copy                            // copy: passes on what it is given
    | CopyRand(max: nat)              // copy_rand: moves 1 up to `max` items, as the draw decides
    | NCopy(times: int)               // ncopy: one block for a chain of `times` copies
    | NullSink                        // null_sink: takes what it is given
    | LatencySink(granularity: nat)   // null_sink_latency
    | Interleave(whole: bool)         // interleave(.., 1): round-robin; `whole` if only in full rounds

  /** `inputs[b][port]` is the block connected to that input port of block `b`. */
  datatype Graph = Graph(kinds: seq<Kind>, inputs: seq<seq<nat>>)

  predicate IsSource(k: Kind) { k.Source? || k.LatencySource? }

  predicate ArityOk(k: Kind, ports: nat) {
    if IsSource(k) then ports == 0 else if k.Interleave? then ports >= 1 else ports == 1
  }

  predicate KindOk(k: Kind) {
    match k
    case LatencySource(g) => g > 0
    case LatencySink(g) => g > 0
    case NCopy(n) => n <= 99
    case _ => true
  }

  /** Every input port is connected once, to a block created earlier. */
  ghost predicate WellFormed(g: Graph) {
    && |g.inputs| == |g.kinds|
    && forall b :: 0 <= b < |g.kinds| ==>
        && KindOk(g.kinds[b]) && ArityOk(g.kinds[b], |g.inputs[b]|)
        && forall p :: 0 <= p < |g.inputs[b]| ==> g.inputs[b][p] < b
  }

  /** Buffer capacities (in items, per block), the largest chunk of one call, and what the sources
      would produce. The null sources are the case where `feed` is constantly zero. */
  datatype Runtime<T> = Runtime(cap: seq<nat>, chunk: nat, feed: (nat, nat) -> T)

  ghost predicate Sane<T>(g: Graph, r: Runtime<T>) {
    && WellFormed(g) && |r.cap| == |g.kinds| && r.chunk >= 1
    && forall b :: 0 <= b < |r.cap| ==> r.cap[b] >= 1
  }

  /** How often a copying block copies each sample it passes on (`CopyBlocks.NCopy.Work`). */
  function CopiesPerItem(k: Kind): nat {
    match k
    case Copy => 1
    case CopyRand(_) => 1
    case NCopy(n) => CopiesPerCall(n)
    case _ => 0
  }

  /** `log[b]`: the items block `b` has produced (for a sink: received). `rd[b][p]`: the items it has
      read at port `p`. `marks[b]`: its tracepoints. `calls[b]`: how often it was called. `copied[b]`:
      the single-sample copies its calls have made. `hops[b][i]`: how often item `i` of its log has been
      copied on its way. */
  datatype Net<T> = Net(
    log: seq<seq<T>>,
    rd: seq<seq<nat>>,
    marks: seq<seq<nat>>,
    calls: seq<nat>,
    copied: seq<nat>,
    hops: seq<seq<nat>>)

  function Start<T>(g: Graph): Net<T>
    requires |g.inputs| == |g.kinds|
  {
    var n := |g.kinds|;
    Net(seq(n, b => []), seq(n, b requires 0 <= b < n => seq(|g.inputs[b]|, p => 0)),
        seq(n, b => []), seq(n, b => 0), seq(n, b => 0), seq(n, b => []))
  }

  ghost predicate Fits<T>(g: Graph, s: Net<T>) {
    && |s.log| == |s.rd| == |s.marks| == |s.calls| == |s.copied| == |s.hops| == |g.kinds| == |g.inputs|
    && forall b :: 0 <= b < |g.kinds| ==> |s.rd[b]| == |g.inputs[b]| && |s.hops[b]| == |s.log[b]|
  }

  /** Items an interleaver with `ports` inputs has taken from port `p` after `t` items of output. */
  function Taken(t: nat, ports: nat, p: nat): nat
    requires p < ports
  {
    Row(t + ports - 1 - p, ports)
  }

  ghost predicate Reads(g: Graph, d: nat, p: nat, b: nat) {
    d < |g.inputs| && p < |g.inputs[d]| && g.inputs[d][p] == b
  }

  ghost predicate Room<T>(g: Graph, r: Runtime<T>, s: Net<T>, b: nat, m: nat)
    requires Sane(g, r) && Fits(g, s) && b < |g.kinds|
  {
    forall d: nat, p: nat :: Reads(g, d, p, b) ==> |s.log[b]| + m <= s.rd[d][p] + r.cap[b]
  }

  /** Port `p` of `b` holds everything up to absolute item number `upto`. */
  ghost predicate Holds<T>(g: Graph, s: Net<T>, b: nat, p: nat, upto: nat)
    requires WellFormed(g) && Fits(g, s) && b < |g.kinds| && p < |g.inputs[b]|
  {
    upto <= |s.log[g.inputs[b][p]]|
  }

  /** Port `p` of an interleaver holds its share of the next `m` output items. */
  ghost predicate HoldsRounds<T>(g: Graph, s: Net<T>, b: nat, p: nat, m: nat)
    requires WellFormed(g) && Fits(g, s) && b < |g.kinds| && p < |g.inputs[b]|
  {
    Holds(g, s, b, p, Taken(|s.log[b]| + m, |g.inputs[b]|, p))
  }

  /** The block itself is willing to handle `m` items. */
  ghost predicate Willing<T>(g: Graph, s: Net<T>, b: nat, m: nat)
    requires WellFormed(g) && Fits(g, s) && b < |g.kinds|
  {
    match g.kinds[b]
    case Source => true
    case LatencySource(_) => true
    case Head(count) => Holds(g, s, b, 0, s.rd[b][0] + m) && |s.log[b]| + m <= count
    case CopyRand(max) => Holds(g, s, b, 0, s.rd[b][0] + m) && m <= max
    case Interleave(whole) =>
      var ports := |g.inputs[b]|;
      && (whole ==> Col(m, ports) == 0)
      && forall p :: 0 <= p < ports ==> HoldsRounds(g, s, b, p, m)
    case _ => Holds(g, s, b, 0, s.rd[b][0] + m)
  }

  /** The scheduler may call `b` so that it handles `m` items. */
  ghost predicate Ready<T>(g: Graph, r: Runtime<T>, s: Net<T>, b: nat, m: nat)
    requires Sane(g, r) && Fits(g, s)
  {
    b < |g.kinds| && 1 <= m <= r.chunk && Room(g, r, s, b, m) && Willing(g, s, b, m)
  }

  ghost function Produced<T>(g: Graph, r: Runtime<T>, s: Net<T>, b: nat, m: nat): (items: seq<T>)
    requires Sane(g, r) && Fits(g, s) && Inv(g, r, s) && Ready(g, r, s, b, m)
    ensures |items| == m
  {
    if IsSource(g.kinds[b]) then
      seq(m, i requires 0 <= i < m => r.feed(b, |s.log[b]| + i))
    else if g.kinds[b].Interleave? then
      var ports := |g.inputs[b]|;
      seq(m, i requires 0 <= i < m =>
        RoundItem(g, s, b, m, |s.log[b]| + i);
        s.log[g.inputs[b][Col(|s.log[b]| + i, ports)]][Row(|s.log[b]| + i, ports)])
    else
      s.log[g.inputs[b][0]][s.rd[b][0]..s.rd[b][0] + m]
  }

  /** Item `k` of the output needs item `Row(k)` of port `Col(k)`. */
  lemma RoundAvailable(k: nat, t: nat, ports: nat)
    requires k < t && ports > 0
    ensures Row(k, ports) < Taken(t, ports, Col(k, ports))
  {
    var p := Col(k, ports);
    IndexSplit(k, ports, k + 1) by { TimesAtLeast(k + 1, ports); }
    assert k + ports - p == Times(Row(k, ports) + 1, ports);
    RowColumn(Row(k, ports) + 1, ports, 0);
    RowMonotone(k + ports - p, t + ports - 1 - p, ports);
  }

  lemma RoundItem<T>(g: Graph, s: Net<T>, b: nat, m: nat, k: nat)
    requires WellFormed(g) && Fits(g, s) && b < |g.kinds| && g.kinds[b].Interleave? && Willing(g, s, b, m)
    requires k < |s.log[b]| + m
    ensures |g.inputs[b]| > 0
    ensures Row(k, |g.inputs[b]|) < |s.log[g.inputs[b][Col(k, |g.inputs[b]|)]]|
  {
    RoundAvailable(k, |s.log[b]| + m, |g.inputs[b]|);
    assert HoldsRounds(g, s, b, Col(k, |g.inputs[b]|), m);
  }

  ghost function ReadAfter<T>(g: Graph, s: Net<T>, b: nat, m: nat): seq<nat>
    requires WellFormed(g) && Fits(g, s) && b < |g.kinds|
  {
    var ports := |g.inputs[b]|;
    if g.kinds[b].Interleave? then seq(ports, p requires 0 <= p < ports => Taken(|s.log[b]| + m, ports, p))
    else seq(ports, p requires 0 <= p < ports => s.rd[b][p] + m)
  }

  /** The tracepoints of a call: the source counts items written, the sink items read. */
  ghost function Marked<T>(g: Graph, s: Net<T>, b: nat, m: nat): seq<nat>
    requires WellFormed(g) && Fits(g, s) && b < |g.kinds|
  {
    match g.kinds[b]
    case LatencySource(gran) => CallMarkers(|s.log[b]|, m, gran)
    case LatencySink(gran) => CallMarkers(s.rd[b][0], m, gran)
    case _ => []
  }

  /** How often the next `m` items of `b` have been copied when `b` has passed them on. */
  ghost function Copies<T>(g: Graph, r: Runtime<T>, s: Net<T>, b: nat, m: nat): (hops: seq<nat>)
    requires Sane(g, r) && Fits(g, s) && Inv(g, r, s) && Ready(g, r, s, b, m)
    ensures |hops| == m
  {
    seq(m, i requires 0 <= i < m => NextHops(g, r, s, b, m, i))
  }

  ghost function NextHops<T>(g: Graph, r: Runtime<T>, s: Net<T>, b: nat, m: nat, i: nat): nat
    requires Sane(g, r) && Fits(g, s) && Inv(g, r, s) && Ready(g, r, s, b, m) && i < m
  {
    var k := |s.log[b]| + i;
    if IsSource(g.kinds[b]) then 0
    else if g.kinds[b].Interleave? then
      RoundItem(g, s, b, m, k);
      s.hops[g.inputs[b][Col(k, |g.inputs[b]|)]][Row(k, |g.inputs[b]|)]
    else
      assert Faithful(g, r, s, b);
      s.hops[g.inputs[b][0]][k] + CopiesPerItem(g.kinds[b])
  }

  ghost function Fire<T>(g: Graph, r: Runtime<T>, s: Net<T>, b: nat, m: nat): (s': Net<T>)
    requires Sane(g, r) && Fits(g, s) && Inv(g, r, s) && Ready(g, r, s, b, m)
    ensures Fits(g, s')
  {
    Net(s.log[b := s.log[b] + Produced(g, r, s, b, m)],
        s.rd[b := ReadAfter(g, s, b, m)],
        s.marks[b := s.marks[b] + Marked(g, s, b, m)],
        s.calls[b := s.calls[b] + 1],
        s.copied[b := s.copied[b] + Times(m, CopiesPerItem(g.kinds[b]))],
        s.hops[b := s.hops[b] + Copies(g, r, s, b, m)])
  }

  // ---------------------------------------------------------------------------------------
  // The invariant
  // ---------------------------------------------------------------------------------------

  /** What a block's output is, as a function of how much of it there is. */
  ghost predicate Faithful<T>(g: Graph, r: Runtime<T>, s: Net<T>, b: nat)
    requires WellFormed(g) && Fits(g, s) && b < |g.kinds|
  {
    if IsSource(g.kinds[b]) then
      forall i :: 0 <= i < |s.log[b]| ==> s.log[b][i] == r.feed(b, i)
    else if g.kinds[b].Interleave? then
      var ports := |g.inputs[b]|;
      && (forall p :: 0 <= p < ports ==>
           s.rd[b][p] == Taken(|s.log[b]|, ports, p) <= |s.log[g.inputs[b][p]]|)
      && (g.kinds[b].whole ==> Col(|s.log[b]|, ports) == 0)
      && (forall k :: 0 <= k < |s.log[b]| ==> RoundRobin(g, s, b, k))
    else
      && s.rd[b][0] == |s.log[b]|
      && s.log[b] <= s.log[g.inputs[b][0]]
      && (g.kinds[b].Head? ==> |s.log[b]| <= g.kinds[b].count)
  }

  ghost predicate RoundRobin<T>(g: Graph, s: Net<T>, b: nat, k: nat)
    requires WellFormed(g) && Fits(g, s) && b < |g.kinds| && k < |s.log[b]| && |g.inputs[b]| > 0
  {
    var ports := |g.inputs[b]|;
    var a := g.inputs[b][Col(k, ports)];
    Row(k, ports) < |s.log[a]| && s.log[b][k] == s.log[a][Row(k, ports)]
  }

  /** The tracepoints due after a block has handled `items` items. */
  function MarksDue(k: Kind, items: nat): seq<nat>
    requires KindOk(k)
  {
    match k
    case LatencySource(gran) => MarkersAt(items, gran)
    case LatencySink(gran) => MarkersAt(items, gran)
    case _ => []
  }

  ghost predicate Marks<T>(g: Graph, s: Net<T>, b: nat)
    requires WellFormed(g) && Fits(g, s) && b < |g.kinds|
  {
    s.marks[b] == MarksDue(g.kinds[b], |s.log[b]|)
  }

  ghost predicate Counted<T>(g: Graph, s: Net<T>, b: nat)
    requires WellFormed(g) && Fits(g, s) && b < |g.kinds|
  {
    && s.calls[b] <= |s.log[b]|
    && (g.kinds[b].CopyRand? ==> |s.log[b]| <= Times(s.calls[b], g.kinds[b].max))
    && s.copied[b] == Times(|s.log[b]|, CopiesPerItem(g.kinds[b]))
  }

  /** Item `i` of `b` has been copied as often as it had been where `b` took it from, and by `b`. */
  ghost predicate HopsAt<T>(g: Graph, s: Net<T>, b: nat, i: nat)
    requires WellFormed(g) && Fits(g, s) && b < |g.kinds| && i < |s.hops[b]|
  {
    if IsSource(g.kinds[b]) then s.hops[b][i] == 0
    else if g.kinds[b].Interleave? then
      var ports := |g.inputs[b]|;
      var a := g.inputs[b][Col(i, ports)];
      Row(i, ports) < |s.hops[a]| && s.hops[b][i] == s.hops[a][Row(i, ports)]
    else
      var a := g.inputs[b][0];
      i < |s.hops[a]| && s.hops[b][i] == s.hops[a][i] + CopiesPerItem(g.kinds[b])
  }

  ghost predicate Traced<T>(g: Graph, s: Net<T>, b: nat)
    requires WellFormed(g) && Fits(g, s) && b < |g.kinds|
  {
    forall i: nat :: i < |s.hops[b]| ==> HopsAt(g, s, b, i)
  }

  ghost predicate Inv<T>(g: Graph, r: Runtime<T>, s: Net<T>)
    requires Sane(g, r) && Fits(g, s)
  {
    && (forall b :: 0 <= b < |g.kinds| ==> Faithful(g, r, s, b))
    && (forall b :: 0 <= b < |g.kinds| ==> Marks(g, s, b))
    && (forall b :: 0 <= b < |g.kinds| ==> Counted(g, s, b))
    && (forall b :: 0 <= b < |g.kinds| ==> Traced(g, s, b))
    && (forall b: nat, d: nat, p: nat :: b < |g.kinds| && Reads(g, d, p, b) ==>
         s.rd[d][p] <= |s.log[b]| <= s.rd[d][p] + r.cap[b])
  }

  lemma StartInv<T>(g: Graph, r: Runtime<T>)
    requires Sane(g, r)
    ensures Fits<T>(g, Start(g)) && Inv(g, r, Start(g))
  {
    var s := Start<T>(g);
    forall b | 0 <= b < |g.kinds|
      ensures Faithful(g, r, s, b) && Marks(g, s, b) && Counted(g, s, b) && Traced(g, s, b)
    {
    }
  }

  lemma MarkedNext<T>(g: Graph, r: Runtime<T>, s: Net<T>, b: nat, m: nat)
    requires WellFormed(g) && Fits(g, s) && b < |g.kinds| && Faithful(g, r, s, b)
    ensures MarksDue(g.kinds[b], |s.log[b]|) + Marked(g, s, b, m) == MarksDue(g.kinds[b], |s.log[b]| + m)
  {
    match g.kinds[b]
    case LatencySource(gran) => CallContinues(|s.log[b]|, m, gran);
    case LatencySink(gran) => CallContinues(|s.log[b]|, m, gran);
    case _ =>
  }

  lemma MarksAppend<T>(g: Graph, r: Runtime<T>, s: Net<T>, s': Net<T>, b: nat, m: nat)
    requires WellFormed(g) && Fits(g, s) && Fits(g, s') && b < |g.kinds| && Faithful(g, r, s, b) && Marks(g, s, b)
    requires s'.marks[b] == s.marks[b] + Marked(g, s, b, m) && |s'.log[b]| == |s.log[b]| + m
    ensures Marks(g, s', b)
  {
    MarkedNext(g, r, s, b, m);
  }

  lemma FireFaithful<T>(g: Graph, r: Runtime<T>, s: Net<T>, b: nat, m: nat)
    requires Sane(g, r) && Fits(g, s) && Inv(g, r, s) && Ready(g, r, s, b, m)
    ensures Faithful(g, r, Fire(g, r, s, b, m), b)
  {
    if g.kinds[b].Interleave? {
      FireInterleaves(g, r, s, b, m);
    } else if !IsSource(g.kinds[b]) {
      FireCopies(g, r, s, b, m);
    } else {
      assert Faithful(g, r, s, b);
    }
  }

  lemma FireCopies<T>(g: Graph, r: Runtime<T>, s: Net<T>, b: nat, m: nat)
    requires Sane(g, r) && Fits(g, s) && Inv(g, r, s) && Ready(g, r, s, b, m)
    requires !IsSource(g.kinds[b]) && !g.kinds[b].Interleave?
    ensures Faithful(g, r, Fire(g, r, s, b, m), b)
  {
    assert Faithful(g, r, s, b);
    var a, n := g.inputs[b][0], |s.log[b]|;
    assert n + m <= |s.log[a]|;
    assert s.log[b] == s.log[a][..n];
    assert s.log[b] + s.log[a][n..n + m] == s.log[a][..n + m];
  }

  lemma FireInterleaves<T>(g: Graph, r: Runtime<T>, s: Net<T>, b: nat, m: nat)
    requires Sane(g, r) && Fits(g, s) && Inv(g, r, s) && Ready(g, r, s, b, m)
    requires g.kinds[b].Interleave?
    ensures Faithful(g, r, Fire(g, r, s, b, m), b)
  {
    assert Faithful(g, r, s, b);
    FireRounds(g, r, s, b, m);
    FirePorts(g, r, s, b, m);
    if g.kinds[b].whole { ColSum(|s.log[b]|, m, |g.inputs[b]|); }
  }

  lemma FirePorts<T>(g: Graph, r: Runtime<T>, s: Net<T>, b: nat, m: nat)
    requires Sane(g, r) && Fits(g, s) && Inv(g, r, s) && Ready(g, r, s, b, m)
    requires g.kinds[b].Interleave?
    ensures var s', ports := Fire(g, r, s, b, m), |g.inputs[b]|;
      forall p :: 0 <= p < ports ==>
        s'.rd[b][p] == Taken(|s'.log[b]|, ports, p) <= |s'.log[g.inputs[b][p]]|
  {
    var s' := Fire(g, r, s, b, m);
    var ports := |g.inputs[b]|;
    forall p | 0 <= p < ports
      ensures s'.rd[b][p] == Taken(|s'.log[b]|, ports, p) <= |s'.log[g.inputs[b][p]]|
    {
      assert HoldsRounds(g, s, b, p, m);
    }
  }

  lemma FireRounds<T>(g: Graph, r: Runtime<T>, s: Net<T>, b: nat, m: nat)
    requires Sane(g, r) && Fits(g, s) && Inv(g, r, s) && Ready(g, r, s, b, m)
    requires g.kinds[b].Interleave?
    ensures var s' := Fire(g, r, s, b, m);
      forall k :: 0 <= k < |s'.log[b]| ==> RoundRobin(g, s', b, k)
  {
    var s' := Fire(g, r, s, b, m);
    forall k | 0 <= k < |s'.log[b]|
      ensures RoundRobin(g, s', b, k)
    {
      FireRound(g, r, s, b, m, k);
    }
  }

  lemma FireRound<T>(g: Graph, r: Runtime<T>, s: Net<T>, b: nat, m: nat, k: nat)
    requires Sane(g, r) && Fits(g, s) && Inv(g, r, s) && Ready(g, r, s, b, m)
    requires g.kinds[b].Interleave? && k < |s.log[b]| + m
    ensures RoundRobin(g, Fire(g, r, s, b, m), b, k)
  {
    RoundItem(g, s, b, m, k);
    assert Faithful(g, r, s, b);
    if k < |s.log[b]| {
      assert RoundRobin(g, s, b, k);
    } else {
      assert Produced(g, r, s, b, m)[k - |s.log[b]|]
        == s.log[g.inputs[b][Col(k, |g.inputs[b]|)]][Row(k, |g.inputs[b]|)];
    }
  }

  lemma FireOthers<T>(g: Graph, r: Runtime<T>, s: Net<T>, b: nat, m: nat, d: nat)
    requires Sane(g, r) && Fits(g, s) && Inv(g, r, s) && Ready(g, r, s, b, m)
    requires d < |g.kinds| && d != b
    ensures Faithful(g, r, Fire(g, r, s, b, m), d)
  {
    var s' := Fire(g, r, s, b, m);
    assert Faithful(g, r, s, d);
    if g.kinds[d].Interleave? {
      forall k | 0 <= k < |s'.log[d]|
        ensures RoundRobin(g, s', d, k)
      {
        assert RoundRobin(g, s, d, k);
      }
    }
  }

  lemma FireCounted<T>(g: Graph, r: Runtime<T>, s: Net<T>, b: nat, m: nat, d: nat)
    requires Sane(g, r) && Fits(g, s) && Inv(g, r, s) && Ready(g, r, s, b, m) && d < |g.kinds|
    ensures Counted(g, Fire(g, r, s, b, m), d)
  {
    assert Counted(g, s, d);
    TimesSum(|s.log[b]|, m, CopiesPerItem(g.kinds[b]));
  }

  lemma FireTraced<T>(g: Graph, r: Runtime<T>, s: Net<T>, b: nat, m: nat, d: nat)
    requires Sane(g, r) && Fits(g, s) && Inv(g, r, s) && Ready(g, r, s, b, m) && d < |g.kinds|
    ensures Traced(g, Fire(g, r, s, b, m), d)
  {
    var s' := Fire(g, r, s, b, m);
    assert Traced(g, s, d);
    forall i: nat | i < |s'.hops[d]|
      ensures HopsAt(g, s', d, i)
    {
      if i < |s.hops[d]| {
        assert HopsAt(g, s, d, i);
      } else {
        NewHops(g, r, s, b, m, i);
      }
    }
  }

  lemma NewHops<T>(g: Graph, r: Runtime<T>, s: Net<T>, b: nat, m: nat, k: nat)
    requires Sane(g, r) && Fits(g, s) && Inv(g, r, s) && Ready(g, r, s, b, m)
    requires |s.log[b]| <= k < |s.log[b]| + m
    ensures HopsAt(g, Fire(g, r, s, b, m), b, k)
  {
    assert Copies(g, r, s, b, m)[k - |s.log[b]|] == NextHops(g, r, s, b, m, k - |s.log[b]|);
    if g.kinds[b].Interleave? {
      JoinedHops(g, r, s, b, m, k);
    } else {
      PassedHops(g, r, s, b, m, k);
    }
  }

  lemma JoinedHops<T>(g: Graph, r: Runtime<T>, s: Net<T>, b: nat, m: nat, k: nat)
    requires Sane(g, r) && Fits(g, s) && Inv(g, r, s) && Ready(g, r, s, b, m) && g.kinds[b].Interleave?
    requires |s.log[b]| <= k < |s.log[b]| + m
    requires Fire(g, r, s, b, m).hops[b][k] == NextHops(g, r, s, b, m, k - |s.log[b]|)
    ensures HopsAt(g, Fire(g, r, s, b, m), b, k)
  {
    RoundItem(g, s, b, m, k);
  }

  lemma PassedHops<T>(g: Graph, r: Runtime<T>, s: Net<T>, b: nat, m: nat, k: nat)
    requires Sane(g, r) && Fits(g, s) && Inv(g, r, s) && Ready(g, r, s, b, m) && !g.kinds[b].Interleave?
    requires |s.log[b]| <= k < |s.log[b]| + m
    requires Fire(g, r, s, b, m).hops[b][k] == NextHops(g, r, s, b, m, k - |s.log[b]|)
    ensures HopsAt(g, Fire(g, r, s, b, m), b, k)
  {
    assert Faithful(g, r, s, b);
  }

  /** A call reads what its port holds, and never takes anything back. */
  lemma ReadsOn<T>(g: Graph, r: Runtime<T>, s: Net<T>, b: nat, m: nat, p: nat)
    requires WellFormed(g) && Fits(g, s) && b < |g.kinds| && p < |g.inputs[b]|
    requires Faithful(g, r, s, b) && Willing(g, s, b, m)
    ensures s.rd[b][p] <= ReadAfter(g, s, b, m)[p] <= |s.log[g.inputs[b][p]]|
  {
    if g.kinds[b].Interleave? {
      var ports := |g.inputs[b]|;
      RowMonotone(|s.log[b]| + ports - 1 - p, |s.log[b]| + m + ports - 1 - p, ports);
      assert HoldsRounds(g, s, b, p, m);
    }
  }

  lemma FireBuffers<T>(g: Graph, r: Runtime<T>, s: Net<T>, b: nat, m: nat, a: nat, d: nat, p: nat)
    requires Sane(g, r) && Fits(g, s) && Inv(g, r, s) && Ready(g, r, s, b, m)
    requires a < |g.kinds| && Reads(g, d, p, a)
    ensures var s' := Fire(g, r, s, b, m); s'.rd[d][p] <= |s'.log[a]| <= s'.rd[d][p] + r.cap[a]
  {
    assert a < d;
    if d == b { ReadsOn(g, r, s, b, m, p); }
  }

  lemma FireBlock<T>(g: Graph, r: Runtime<T>, s: Net<T>, b: nat, m: nat, d: nat)
    requires Sane(g, r) && Fits(g, s) && Inv(g, r, s) && Ready(g, r, s, b, m) && d < |g.kinds|
    ensures var s' := Fire(g, r, s, b, m);
      Faithful(g, r, s', d) && Marks(g, s', d) && Counted(g, s', d) && Traced(g, s', d)
  {
    assert Marks(g, s, d);
    FireTraced(g, r, s, b, m, d);
    FireCounted(g, r, s, b, m, d);
    if d == b {
      FireFaithful(g, r, s, b, m);
      MarksAppend(g, r, s, Fire(g, r, s, b, m), b, m);
    } else {
      FireOthers(g, r, s, b, m, d);
    }
  }

  /** Every call of every block keeps the invariant. */
  lemma FireInv<T>(g: Graph, r: Runtime<T>, s: Net<T>, b: nat, m: nat)
    requires Sane(g, r) && Fits(g, s) && Inv(g, r, s) && Ready(g, r, s, b, m)
    ensures Inv(g, r, Fire(g, r, s, b, m))
  {
    var s' := Fire(g, r, s, b, m);
    forall d | 0 <= d < |g.kinds|
      ensures Faithful(g, r, s', d) && Marks(g, s', d) && Counted(g, s', d) && Traced(g, s', d)
    {
      FireBlock(g, r, s, b, m, d);
    }
    forall a: nat, d: nat, p: nat | a < |g.kinds| && Reads(g, d, p, a)
      ensures s'.rd[d][p] <= |s'.log[a]| <= s'.rd[d][p] + r.cap[a]
    {
      FireBuffers(g, r, s, b, m, a, d, p);
    }
  }

  datatype Call = Call(block: nat, items: nat)

  /** `Runs(g, r, s, calls, s')`: the schedule `calls` leads from `s` to `s'`. */
  ghost predicate Runs<T>(g: Graph, r: Runtime<T>, s: Net<T>, calls: seq<Call>, s': Net<T>)
    requires Sane(g, r) && Fits(g, s) && Inv(g, r, s)
    decreases |calls|
  {
    if calls == [] then s' == s
    else
      var Call(b, m) := calls[0];
      && Ready(g, r, s, b, m)
      && (FireInv(g, r, s, b, m); Runs(g, r, Fire(g, r, s, b, m), calls[1..], s'))
  }

  lemma {:induction false} RunInv<T>(g: Graph, r: Runtime<T>, s: Net<T>, calls: seq<Call>, s': Net<T>)
    requires Sane(g, r) && Fits(g, s) && Inv(g, r, s) && Runs(g, r, s, calls, s')
    ensures Fits(g, s') && Inv(g, r, s')
    decreases |calls|
  {
    if calls != [] {
      var Call(b, m) := calls[0];
      FireInv(g, r, s, b, m);
      RunInv(g, r, Fire(g, r, s, b, m), calls[1..], s');
    }
  }

  lemma RunsOnce<T>(g: Graph, r: Runtime<T>, s: Net<T>, b: nat, m: nat)
    requires Sane(g, r) && Fits(g, s) && Inv(g, r, s) && Ready(g, r, s, b, m)
    ensures Runs(g, r, s, [Call(b, m)], Fire(g, r, s, b, m))
  {
    FireInv(g, r, s, b, m);
    assert [Call(b, m)][1..] == [];
  }

  lemma RunsVia<T>(g: Graph, r: Runtime<T>, s: Net<T>, mid: Net<T>, calls: seq<Call>, s': Net<T>)
    requires Sane(g, r) && Fits(g, s) && Inv(g, r, s) && Fits(g, mid) && Inv(g, r, mid) && calls != []
    requires Runs(g, r, s, [calls[0]], mid) && Runs(g, r, mid, calls[1..], s')
    ensures Runs(g, r, s, calls, s')
  {
    assert [calls[0]][1..] == [];
  }

  lemma RunsThen<T>(g: Graph, r: Runtime<T>, s: Net<T>, call: Call, mid: Net<T>, rest: seq<Call>, s': Net<T>)
    requires Sane(g, r) && Fits(g, s) && Inv(g, r, s) && Fits(g, mid) && Inv(g, r, mid)
    requires Runs(g, r, s, [call], mid) && Runs(g, r, mid, rest, s')
    ensures Runs(g, r, s, [call] + rest, s')
  {
    assert ([call] + rest)[1..] == rest;
    RunsVia(g, r, s, mid, [call] + rest, s');
  }

  /** `s` is reached from the empty network by the schedule `calls`. */
  ghost predicate Reaches<T>(g: Graph, r: Runtime<T>, calls: seq<Call>, s: Net<T>)
    requires Sane(g, r)
  {
    StartInv(g, r);
    Runs(g, r, Start(g), calls, s)
  }

  /** Whatever holds of every state that satisfies the invariant holds of every reachable state. */
  lemma ReachesInv<T>(g: Graph, r: Runtime<T>, calls: seq<Call>, s: Net<T>)
    requires Sane(g, r) && Reaches(g, r, calls, s)
    ensures Fits(g, s) && Inv(g, r, s)
  {
    StartInv<T>(g, r);
    RunInv(g, r, Start(g), calls, s);
  }
}
