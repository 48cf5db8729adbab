/** The stream diamond: `head` feeds every pipe, `interleave` joins their ends. Any number of pipes and
    stages, any buffer sizes, any schedule. */
module StreamDiamond {
  import opened Strides
  import opened StreamNet
  import opened StreamGraphs
  import opened StreamDrain

  // ---------------------------------------------------------------------------------------
  // Shape
  // ---------------------------------------------------------------------------------------

  /** The block that feeds position `j` of pipe `p`. */
  function Feeder(n: nat, p: nat, j: nat): nat {
    if j == 0 then 1 else Position(n, p, j - 1)
  }

  lemma DiamondCopy(pipes: nat, n: nat, samples: nat, whole: bool, p: nat, j: nat)
    requires p < pipes && j < n
    ensures Position(n, p, j) < Join(pipes, n)
    ensures var g := Diamond(pipes, n, samples, whole);
      g.kinds[Position(n, p, j)] == Copy && g.inputs[Position(n, p, j)] == [Feeder(n, p, j)]
  {
    RowInside(p, n, pipes);
    RowColumn(p, n, j);
  }

  /** Every block between the head and the join is a position of a pipe. */
  lemma DiamondPosition(pipes: nat, n: nat, b: nat)
    requires n > 0 && 2 <= b < Join(pipes, n)
    ensures Row(b - 2, n) < pipes && b == Position(n, Row(b - 2, n), Col(b - 2, n))
  {
    IndexSplit(b - 2, n, pipes);
  }

  lemma DiamondWellFormed(pipes: nat, n: nat, samples: nat, whole: bool)
    requires pipes > 0 && n > 0
    ensures WellFormed(Diamond(pipes, n, samples, whole))
  {
    var g := Diamond(pipes, n, samples, whole);
    forall b | 0 <= b < |g.kinds|
      ensures KindOk(g.kinds[b]) && ArityOk(g.kinds[b], |g.inputs[b]|)
      ensures forall p :: 0 <= p < |g.inputs[b]| ==> g.inputs[b][p] < b
    {
      if b == Join(pipes, n) {
        forall p | 0 <= p < pipes
          ensures g.inputs[b][p] < b
        {
          RowInside(p, n, pipes);
        }
      }
    }
  }

  /** Who reads position `j` of pipe `p`: the next stage, or port `p` of the join. */
  lemma DiamondReader(pipes: nat, n: nat, samples: nat, whole: bool, p: nat, j: nat, d: nat, q: nat)
    requires p < pipes && j < n
    requires Reads(Diamond(pipes, n, samples, whole), d, q, Position(n, p, j))
    ensures j + 1 < n ==> d == Position(n, p, j + 1) && q == 0
    ensures j + 1 == n ==> d == Join(pipes, n) && q == p
  {
    DiamondCopy(pipes, n, samples, whole, p, j);
    if 2 <= d < Join(pipes, n) {
      DiamondPosition(pipes, n, d);
      DiamondCopy(pipes, n, samples, whole, Row(d - 2, n), Col(d - 2, n));
      PositionUnique(n, p, j, Row(d - 2, n), Col(d - 2, n) - 1);
    } else if d == Join(pipes, n) {
      PositionUnique(n, p, j, q, n - 1);
    }
  }

  // ---------------------------------------------------------------------------------------
  // Round-robin arithmetic
  // ---------------------------------------------------------------------------------------

  lemma TakenAtLeast(t: nat, ports: nat, p: nat)
    requires p < ports
    ensures Taken(t, ports, p) >= Row(t, ports)
  {
    RowMonotone(t, t + ports - 1 - p, ports);
  }

  /** The output steps an interleaver may take: single items, or whole rounds between whole rounds. */
  predicate Quantum(t: nat, q: nat, ports: nat)
    requires ports > 0
  {
    q == 1 || (q == ports && Col(t, ports) == 0)
  }

  /** A port whose turn falls into the next quantum has given exactly `Row(t)` items so far. */
  lemma TurnNext(t: nat, q: nat, ports: nat, p: nat)
    requires p < ports && Quantum(t, q, ports) && Taken(t + q, ports, p) > Taken(t, ports, p)
    ensures Taken(t, ports, p) == Row(t, ports) && Taken(t + q, ports, p) == Row(t, ports) + 1
  {
    var k := t + ports - 1 - p;
    RowMonotone(k + q, k + ports, ports);
    IndexSplit(t, ports, t + 1) by { TimesAtLeast(t + 1, ports); }
    if Col(t, ports) == 0 && q == ports {
      RowColumn(Row(t, ports), ports, ports - 1 - p);
    } else {
      RowNext(k, ports);
      IndexSplit(k, ports, k + 1) by { TimesAtLeast(k + 1, ports); }
      RowColumn(Row(k, ports), ports, p);
    }
  }

  /** After n items from the first port at most n rounds are complete. */
  lemma RoundsBounded(t: nat, ports: nat, n: nat)
    requires ports > 0 && Taken(t, ports, 0) <= n
    ensures t <= Times(n, ports)
  {
    if t > Times(n, ports) {
      RowMonotone(Times(n + 1, ports) + 0, t + ports - 1, ports);
      RowColumn(n + 1, ports, 0);
    }
  }

  lemma RoundsComplete(n: nat, ports: nat, p: nat)
    requires p < ports
    ensures Taken(Times(n, ports), ports, p) == n && Row(Times(n, ports), ports) == n
  {
    RowColumn(n, ports, ports - 1 - p);
    RowColumn(n, ports, 0);
  }

  // ---------------------------------------------------------------------------------------
  // Every reachable state
  // ---------------------------------------------------------------------------------------

  ghost predicate Running<T>(pipes: nat, n: nat, samples: nat, whole: bool, r: Runtime<T>, s: Net<T>) {
    && pipes > 0 && n > 0
    && Sane(Diamond(pipes, n, samples, whole), r)
    && Fits(Diamond(pipes, n, samples, whole), s)
    && Inv(Diamond(pipes, n, samples, whole), r, s)
  }

  lemma CopyFacts<T>(pipes: nat, n: nat, samples: nat, whole: bool, r: Runtime<T>, s: Net<T>, p: nat, j: nat)
    requires Running(pipes, n, samples, whole, r, s) && p < pipes && j < n
    ensures Position(n, p, j) < |s.log| && Feeder(n, p, j) < |s.log| && |s.rd[Position(n, p, j)]| == 1
    ensures s.rd[Position(n, p, j)][0] == |s.log[Position(n, p, j)]|
    ensures s.log[Position(n, p, j)] <= s.log[Feeder(n, p, j)]
  {
    DiamondCopy(pipes, n, samples, whole, p, j);
    assert Faithful(Diamond(pipes, n, samples, whole), r, s, Position(n, p, j));
  }

  /** Each pipe block holds a prefix of what the head let through. */
  lemma {:induction false} PipePrefix<T>(
    pipes: nat, n: nat, samples: nat, whole: bool, r: Runtime<T>, s: Net<T>, p: nat, j: nat)
    requires Running(pipes, n, samples, whole, r, s) && p < pipes && j < n
    ensures Position(n, p, j) < |s.log|
    ensures s.log[Position(n, p, j)] <= s.log[Position(n, p, 0)] <= s.log[1]
    decreases j
  {
    CopyFacts(pipes, n, samples, whole, r, s, p, j);
    if j > 0 { PipePrefix(pipes, n, samples, whole, r, s, p, j - 1); }
  }

  lemma JoinFacts<T>(pipes: nat, n: nat, samples: nat, whole: bool, r: Runtime<T>, s: Net<T>, p: nat)
    requires Running(pipes, n, samples, whole, r, s) && p < pipes
    ensures var join := Join(pipes, n);
      && join < |s.log| && LastOf(n, p) < join && |s.rd[join]| == pipes
      && s.rd[join][p] == Taken(|s.log[join]|, pipes, p) <= |s.log[LastOf(n, p)]|
      && (whole ==> Col(|s.log[join]|, pipes) == 0)
  {
    RowInside(p, n, pipes);
    var g := Diamond(pipes, n, samples, whole);
    assert Faithful(g, r, s, Join(pipes, n));
    assert g.inputs[Join(pipes, n)][p] == LastOf(n, p);
  }

  lemma HeadFacts<T>(pipes: nat, n: nat, samples: nat, whole: bool, r: Runtime<T>, s: Net<T>)
    requires Running(pipes, n, samples, whole, r, s)
    ensures |s.log| == Join(pipes, n) + 2 && |s.rd[1]| == 1 && s.rd[1][0] == |s.log[1]| <= samples
    ensures s.log[1] <= s.log[0] && |s.rd[Join(pipes, n) + 1]| == 1
    ensures forall i :: 0 <= i < |s.log[0]| ==> s.log[0][i] == r.feed(0, i)
    ensures s.rd[Join(pipes, n) + 1][0] == |s.log[Join(pipes, n) + 1]|
    ensures s.log[Join(pipes, n) + 1] <= s.log[Join(pipes, n)]
  {
    var g := Diamond(pipes, n, samples, whole);
    assert Faithful(g, r, s, 0) && Faithful(g, r, s, 1) && Faithful(g, r, s, Join(pipes, n) + 1);
  }

  /** In every reachable state, item `k` at the sink is head item floor(k / pipes): `ends[i]` is the
      last block of pipe `i` and every pipe preserves order. */
  lemma SinkItem<T>(pipes: nat, n: nat, samples: nat, whole: bool, r: Runtime<T>, s: Net<T>, k: nat)
    requires Running(pipes, n, samples, whole, r, s) && k < |s.log[Join(pipes, n) + 1]|
    ensures k / pipes < |s.log[1]| && k / pipes < samples
    ensures s.log[Join(pipes, n) + 1][k] == s.log[1][k / pipes] == r.feed(0, k / pipes)
  {
    HeadFacts(pipes, n, samples, whole, r, s);
    RowIsQuotient(k, pipes);
    var g, join, p := Diamond(pipes, n, samples, whole), Join(pipes, n), Col(k, pipes);
    assert Faithful(g, r, s, join) && RoundRobin(g, s, join, k);
    assert g.inputs[join][p] == LastOf(n, p);
    PipePrefix(pipes, n, samples, whole, r, s, p, n - 1);
  }

  // ---------------------------------------------------------------------------------------
  // Deadlock freedom
  // ---------------------------------------------------------------------------------------

  /** The join can ever fire: its buffer and the chunk limit admit one quantum. */
  ghost predicate JoinFits<T>(pipes: nat, n: nat, whole: bool, r: Runtime<T>)
    requires |r.cap| == Join(pipes, n) + 2
  {
    whole ==> pipes <= r.chunk && pipes <= r.cap[Join(pipes, n)]
  }

  ghost predicate Stuck<T>(pipes: nat, n: nat, samples: nat, whole: bool, r: Runtime<T>, s: Net<T>) {
    Running(pipes, n, samples, whole, r, s) && Quiet(Diamond(pipes, n, samples, whole), r, s)
  }

  /** A position whose only reader has read everything passes on all of its input. */
  lemma CopyDrains<T>(pipes: nat, n: nat, samples: nat, whole: bool, r: Runtime<T>, s: Net<T>, p: nat, j: nat)
    requires Stuck(pipes, n, samples, whole, r, s) && p < pipes && j < n
    requires Position(n, p, j) < |s.log|
    requires forall d: nat, q: nat :: Reads(Diamond(pipes, n, samples, whole), d, q, Position(n, p, j)) ==>
      s.rd[d][q] == |s.log[Position(n, p, j)]|
    ensures Feeder(n, p, j) < |s.log|
    ensures |s.log[Position(n, p, j)]| == |s.log[Feeder(n, p, j)]|
  {
    var g, b := Diamond(pipes, n, samples, whole), Position(n, p, j);
    CopyFacts(pipes, n, samples, whole, r, s, p, j);
    DiamondCopy(pipes, n, samples, whole, p, j);
    assert Room(g, r, s, b, 1);
    assert !Ready(g, r, s, b, 1);
  }

  /** If the next position has passed on everything, or the join has read everything, nothing is
      buffered behind position `j`. */
  lemma PositionRead<T>(pipes: nat, n: nat, samples: nat, whole: bool, r: Runtime<T>, s: Net<T>, p: nat, j: nat)
    requires Running(pipes, n, samples, whole, r, s) && p < pipes && j < n
    requires Position(n, p, j) < |s.log| && Join(pipes, n) < |s.log|
    requires if j + 1 == n then Taken(|s.log[Join(pipes, n)]|, pipes, p) == |s.log[Position(n, p, j)]|
      else Position(n, p, j + 1) < |s.log| && |s.log[Position(n, p, j + 1)]| == |s.log[Position(n, p, j)]|
    ensures forall d: nat, q: nat :: Reads(Diamond(pipes, n, samples, whole), d, q, Position(n, p, j)) ==>
      s.rd[d][q] == |s.log[Position(n, p, j)]|
  {
    if j + 1 == n {
      JoinFacts(pipes, n, samples, whole, r, s, p);
    } else {
      CopyFacts(pipes, n, samples, whole, r, s, p, j + 1);
    }
    forall d: nat, q: nat | Reads(Diamond(pipes, n, samples, whole), d, q, Position(n, p, j))
      ensures s.rd[d][q] == |s.log[Position(n, p, j)]|
    {
      DiamondReader(pipes, n, samples, whole, p, j, d, q);
    }
  }

  /** If the join has read pipe `p` empty, all of pipe `p` is drained up to the head. */
  lemma {:induction false} PipeDrains<T>(
    pipes: nat, n: nat, samples: nat, whole: bool, r: Runtime<T>, s: Net<T>, p: nat, j: nat)
    requires Stuck(pipes, n, samples, whole, r, s) && p < pipes && j < n
    requires Join(pipes, n) < |s.log| && LastOf(n, p) < |s.log|
    requires Taken(|s.log[Join(pipes, n)]|, pipes, p) == |s.log[LastOf(n, p)]|
    ensures Position(n, p, j) < |s.log| && Feeder(n, p, j) < |s.log|
    ensures |s.log[Position(n, p, j)]| == |s.log[Feeder(n, p, j)]| == |s.log[LastOf(n, p)]|
    decreases n - j
  {
    CopyFacts(pipes, n, samples, whole, r, s, p, j);
    if j + 1 < n { PipeDrains(pipes, n, samples, whole, r, s, p, j + 1); }
    PositionRead(pipes, n, samples, whole, r, s, p, j);
    CopyDrains(pipes, n, samples, whole, r, s, p, j);
  }

  lemma SinkDrains<T>(pipes: nat, n: nat, samples: nat, whole: bool, r: Runtime<T>, s: Net<T>)
    requires Stuck(pipes, n, samples, whole, r, s)
    ensures |s.log| == Join(pipes, n) + 2
    ensures |s.log[Join(pipes, n) + 1]| == |s.log[Join(pipes, n)]|
  {
    var g, sink := Diamond(pipes, n, samples, whole), Join(pipes, n) + 1;
    HeadFacts(pipes, n, samples, whole, r, s);
    assert forall d: nat, q: nat :: !Reads(g, d, q, sink);
    assert Room(g, r, s, sink, 1);
    assert !Ready(g, r, s, sink, 1);
  }

  lemma JoinReader(pipes: nat, n: nat, samples: nat, whole: bool, d: nat, q: nat)
    requires pipes > 0 && n > 0 && Reads(Diamond(pipes, n, samples, whole), d, q, Join(pipes, n))
    ensures d == Join(pipes, n) + 1 && q == 0
  {
    DiamondWellFormed(pipes, n, samples, whole);
  }

  lemma HeadReader(pipes: nat, n: nat, samples: nat, whole: bool, d: nat, q: nat)
    requires pipes > 0 && n > 0 && Reads(Diamond(pipes, n, samples, whole), d, q, 1)
    ensures 2 <= d < Join(pipes, n) && q == 0
    ensures Row(d - 2, n) < pipes && d == Position(n, Row(d - 2, n), 0)
  {
    if 2 <= d < Join(pipes, n) {
      DiamondPosition(pipes, n, d);
      DiamondCopy(pipes, n, samples, whole, Row(d - 2, n), Col(d - 2, n));
    }
  }

  /** The smallest amount of output the join can be called for. */
  function JoinStep(pipes: nat, whole: bool): nat {
    if whole then pipes else 1
  }

  /** The sink has read everything, so the whole output buffer of the join is free. */
  lemma JoinHasRoom<T>(pipes: nat, n: nat, samples: nat, whole: bool, r: Runtime<T>, s: Net<T>, m: nat)
    requires Stuck(pipes, n, samples, whole, r, s) && m <= r.cap[Join(pipes, n)]
    ensures Room(Diamond(pipes, n, samples, whole), r, s, Join(pipes, n), m)
  {
    SinkDrains(pipes, n, samples, whole, r, s);
    HeadFacts(pipes, n, samples, whole, r, s);
    var join := Join(pipes, n);
    forall d: nat, i: nat | Reads(Diamond(pipes, n, samples, whole), d, i, join)
      ensures |s.log[join]| + m <= s.rd[d][i] + r.cap[join]
    {
      JoinReader(pipes, n, samples, whole, d, i);
    }
  }

  lemma JoinWaits<T>(pipes: nat, n: nat, samples: nat, whole: bool, r: Runtime<T>, s: Net<T>) returns (p: nat)
    requires Stuck(pipes, n, samples, whole, r, s) && JoinFits(pipes, n, whole, r)
    ensures p < pipes
    ensures !HoldsRounds(Diamond(pipes, n, samples, whole), s, Join(pipes, n), p, JoinStep(pipes, whole))
  {
    var g, join, m := Diamond(pipes, n, samples, whole), Join(pipes, n), JoinStep(pipes, whole);
    JoinHasRoom(pipes, n, samples, whole, r, s, m);
    assert !Ready(g, r, s, join, m);
    assert Col(pipes, pipes) == 0;
    p :| p < pipes && !HoldsRounds(g, s, join, p, m);
  }

  /** When the join cannot fire, some pipe owes it the next item, and that pipe has given exactly the
      complete rounds. */
  lemma JoinStarves<T>(pipes: nat, n: nat, samples: nat, whole: bool, r: Runtime<T>, s: Net<T>) returns (p: nat)
    requires Stuck(pipes, n, samples, whole, r, s) && JoinFits(pipes, n, whole, r)
    ensures Join(pipes, n) < |s.log| && p < pipes && LastOf(n, p) < |s.log|
    ensures Taken(|s.log[Join(pipes, n)]|, pipes, p) == |s.log[LastOf(n, p)]| == Row(|s.log[Join(pipes, n)]|, pipes)
  {
    p := JoinWaits(pipes, n, samples, whole, r, s);
    JoinFacts(pipes, n, samples, whole, r, s, p);
    assert Diamond(pipes, n, samples, whole).inputs[Join(pipes, n)][p] == LastOf(n, p);
    TurnNext(|s.log[Join(pipes, n)]|, JoinStep(pipes, whole), pipes, p);
  }

  /** The head is never held back for good: a pipe that blocks it would be behind the join. */
  lemma HeadDone<T>(pipes: nat, n: nat, samples: nat, whole: bool, r: Runtime<T>, s: Net<T>, p: nat)
    requires Stuck(pipes, n, samples, whole, r, s) && p < pipes
    requires Join(pipes, n) < |s.log| && LastOf(n, p) < |s.log|
    requires Taken(|s.log[Join(pipes, n)]|, pipes, p) == |s.log[LastOf(n, p)]| == Row(|s.log[Join(pipes, n)]|, pipes)
    ensures |s.log[LastOf(n, p)]| == |s.log[1]| == samples
  {
    var g := Diamond(pipes, n, samples, whole);
    PipeDrains(pipes, n, samples, whole, r, s, p, 0);
    HeadFacts(pipes, n, samples, whole, r, s);
    forall d: nat, q: nat | Reads(g, d, q, 1)
      ensures |s.log[1]| + 1 <= s.rd[d][q] + r.cap[1]
    {
      HeadReader(pipes, n, samples, whole, d, q);
      var p' := Row(d - 2, n);
      CopyFacts(pipes, n, samples, whole, r, s, p', 0);
      PipePrefix(pipes, n, samples, whole, r, s, p', n - 1);
      JoinFacts(pipes, n, samples, whole, r, s, p');
      TakenAtLeast(|s.log[Join(pipes, n)]|, pipes, p');
    }
    assert Room(g, r, s, 1, 1) && !Ready(g, r, s, 1, 1);
    if |s.log[1]| == |s.log[0]| { SourceFeeds(pipes, n, samples, whole, r, s); }
  }

  lemma SourceFeeds<T>(pipes: nat, n: nat, samples: nat, whole: bool, r: Runtime<T>, s: Net<T>)
    requires Stuck(pipes, n, samples, whole, r, s) && |s.log| > 1
    ensures |s.log[1]| != |s.log[0]|
  {
    var g := Diamond(pipes, n, samples, whole);
    HeadFacts(pipes, n, samples, whole, r, s);
    if |s.log[1]| == |s.log[0]| {
      forall d: nat, q: nat | Reads(g, d, q, 0)
        ensures d == 1 && q == 0
      {
        if 2 <= d < Join(pipes, n) {
          DiamondPosition(pipes, n, d);
        }
      }
      assert Room(g, r, s, 0, 1) && Willing(g, s, 0, 1);
      assert Ready(g, r, s, 0, 1);
    }
  }

  /** The starving pipe has passed on all samples, so every round is complete. */
  lemma JoinComplete<T>(pipes: nat, n: nat, samples: nat, whole: bool, r: Runtime<T>, s: Net<T>)
    requires Stuck(pipes, n, samples, whole, r, s) && JoinFits(pipes, n, whole, r)
    ensures |s.log| == Join(pipes, n) + 2 && |s.log[1]| == samples
    ensures |s.log[Join(pipes, n) + 1]| == |s.log[Join(pipes, n)]| == Times(samples, pipes)
  {
    var starved := JoinStarves(pipes, n, samples, whole, r, s);
    HeadDone(pipes, n, samples, whole, r, s, starved);
    SinkDrains(pipes, n, samples, whole, r, s);
    var t := |s.log[Join(pipes, n)]|;
    JoinFacts(pipes, n, samples, whole, r, s, 0);
    PipePrefix(pipes, n, samples, whole, r, s, 0, n - 1);
    RoundsBounded(t, pipes, samples);
    IndexSplit(t, pipes, t + 1) by { TimesAtLeast(t + 1, pipes); }
  }

  /** The bounded-buffer diamond never deadlocks: once nothing can be called any more, the head has let
      all its samples through, every pipe has passed all of them on, and the join and the sink have
      handled `samples * pipes` items. */
  lemma DiamondCompletes<T>(pipes: nat, n: nat, samples: nat, whole: bool, r: Runtime<T>, s: Net<T>, p: nat, j: nat)
    requires Stuck(pipes, n, samples, whole, r, s) && JoinFits(pipes, n, whole, r)
    requires p < pipes && j < n
    ensures |s.log| == Join(pipes, n) + 2 && Position(n, p, j) < Join(pipes, n)
    ensures |s.log[1]| == |s.log[Position(n, p, j)]| == samples
    ensures |s.log[Join(pipes, n) + 1]| == |s.log[Join(pipes, n)]| == samples * pipes
  {
    JoinComplete(pipes, n, samples, whole, r, s);
    TimesIsProduct(samples, pipes);
    RoundsComplete(samples, pipes, p);
    JoinFacts(pipes, n, samples, whole, r, s, p);
    PipePrefix(pipes, n, samples, whole, r, s, p, n - 1);
    PipePrefix(pipes, n, samples, whole, r, s, p, j);
    AtLeastLast(pipes, n, samples, whole, r, s, p, j);
  }

  lemma {:induction false} AtLeastLast<T>(
    pipes: nat, n: nat, samples: nat, whole: bool, r: Runtime<T>, s: Net<T>, p: nat, j: nat)
    requires Running(pipes, n, samples, whole, r, s) && p < pipes && j < n
    ensures LastOf(n, p) < |s.log| && Position(n, p, j) < |s.log|
    ensures |s.log[LastOf(n, p)]| <= |s.log[Position(n, p, j)]|
    decreases n - j
  {
    if j + 1 < n {
      AtLeastLast(pipes, n, samples, whole, r, s, p, j + 1);
      CopyFacts(pipes, n, samples, whole, r, s, p, j + 1);
    } else {
      CopyFacts(pipes, n, samples, whole, r, s, p, j);
    }
  }

  // ---------------------------------------------------------------------------------------
  // The one condition
  // ---------------------------------------------------------------------------------------

  /** An interleaver that insists on whole rounds can never be called when a round is longer than a
      chunk or than its output buffer. */
  lemma JoinNeverReady<T>(pipes: nat, n: nat, samples: nat, whole: bool, r: Runtime<T>, s: Net<T>, m: nat)
    requires Running(pipes, n, samples, whole, r, s) && !JoinFits(pipes, n, whole, r)
    ensures !Ready(Diamond(pipes, n, samples, whole), r, s, Join(pipes, n), m)
  {
    var g, join := Diamond(pipes, n, samples, whole), Join(pipes, n);
    HeadFacts(pipes, n, samples, whole, r, s);
    assert Reads(g, join + 1, 0, join);
    if Ready(g, r, s, join, m) {
      WholeRounds(m, pipes);
    }
  }

  lemma WholeRounds(m: nat, ports: nat)
    requires ports > 0 && m > 0 && Col(m, ports) == 0
    ensures m >= ports
  {
  }

  lemma {:induction false} JoinNeverFires<T>(
    pipes: nat, n: nat, samples: nat, whole: bool, r: Runtime<T>, s: Net<T>, calls: seq<Call>, s': Net<T>)
    requires Running(pipes, n, samples, whole, r, s) && !JoinFits(pipes, n, whole, r)
    requires Runs(Diamond(pipes, n, samples, whole), r, s, calls, s')
    ensures Join(pipes, n) < |s.log| == |s'.log| && s'.log[Join(pipes, n)] == s.log[Join(pipes, n)]
    decreases |calls|
  {
    if calls != [] {
      var g, b, m := Diamond(pipes, n, samples, whole), calls[0].block, calls[0].items;
      JoinNeverReady(pipes, n, samples, whole, r, s, m);
      FireInv(g, r, s, b, m);
      JoinNeverFires(pipes, n, samples, whole, r, Fire(g, r, s, b, m), calls[1..], s');
    }
  }

  /** A run that ends with nothing left to call has delivered everything if and only if the join fits
      (or there was nothing to deliver). The built flowgraph satisfies this with an item-wise join for
      every buffer size, and with a round-wise one as soon as buffer and chunk hold one round. */
  lemma DiamondCompletesIff<T>(
    pipes: nat, n: nat, samples: nat, whole: bool, r: Runtime<T>, calls: seq<Call>, s: Net<T>)
    requires pipes > 0 && n > 0 && Sane(Diamond(pipes, n, samples, whole), r)
    requires Reaches(Diamond(pipes, n, samples, whole), r, calls, s)
    requires Stuck(pipes, n, samples, whole, r, s)
    ensures Join(pipes, n) + 1 < |s.log|
    ensures |s.log[Join(pipes, n) + 1]| == samples * pipes <==> samples == 0 || JoinFits(pipes, n, whole, r)
  {
    var g := Diamond(pipes, n, samples, whole);
    HeadFacts(pipes, n, samples, whole, r, s);
    if JoinFits(pipes, n, whole, r) {
      DiamondCompletes(pipes, n, samples, whole, r, s, 0, 0);
    } else {
      StartInv<T>(g, r);
      JoinNeverFires(pipes, n, samples, whole, r, Start(g), calls, s);
      assert |s.log[Join(pipes, n) + 1]| == 0;
      ProductZero(samples, pipes);
    }
  }

  lemma ProductZero(a: nat, b: nat)
    requires b > 0
    ensures a * b == 0 <==> a == 0
  {
  }

  // ---------------------------------------------------------------------------------------
  // Termination
  // ---------------------------------------------------------------------------------------

  ghost function DiamondCeiling<T>(pipes: nat, n: nat, samples: nat, r: Runtime<T>, b: nat): nat
    requires |r.cap| > 0
  {
    if b == 0 then samples + r.cap[0] else if b < Join(pipes, n) then samples else Times(samples, pipes)
  }

  ghost function DiamondCeilings<T>(pipes: nat, n: nat, samples: nat, r: Runtime<T>): seq<nat>
    requires |r.cap| > 0
  {
    seq(Join(pipes, n) + 2, b requires b >= 0 => DiamondCeiling(pipes, n, samples, r, b))
  }

  lemma BelowCeiling<T>(pipes: nat, n: nat, samples: nat, whole: bool, r: Runtime<T>, s: Net<T>, b: nat)
    requires Running(pipes, n, samples, whole, r, s) && b < |s.log|
    ensures b < |DiamondCeilings(pipes, n, samples, r)|
    ensures |s.log[b]| <= DiamondCeilings(pipes, n, samples, r)[b]
  {
    HeadFacts(pipes, n, samples, whole, r, s);
    if b == 0 {
      assert Reads(Diamond(pipes, n, samples, whole), 1, 0, 0);
    } else if 2 <= b < Join(pipes, n) {
      DiamondPosition(pipes, n, b);
      PipePrefix(pipes, n, samples, whole, r, s, Row(b - 2, n), Col(b - 2, n));
    } else if b >= Join(pipes, n) {
      JoinFacts(pipes, n, samples, whole, r, s, 0);
      PipePrefix(pipes, n, samples, whole, r, s, 0, n - 1);
      RoundsBounded(|s.log[Join(pipes, n)]|, pipes, samples);
    }
  }

  lemma BelowCeilings<T>(pipes: nat, n: nat, samples: nat, whole: bool, r: Runtime<T>, s: Net<T>)
    requires Running(pipes, n, samples, whole, r, s)
    ensures Items(s.log, |s.log|) <= Sum(DiamondCeilings(pipes, n, samples, r), Join(pipes, n) + 2)
  {
    forall b | 0 <= b < |s.log|
      ensures |s.log[b]| <= DiamondCeilings(pipes, n, samples, r)[b]
    {
      BelowCeiling(pipes, n, samples, whole, r, s, b);
    }
    ItemsBounded(s.log, DiamondCeilings(pipes, n, samples, r), |s.log|);
  }

  /** No schedule of the diamond runs forever: the number of calls is bounded before the run starts. */
  lemma DiamondEnds<T>(pipes: nat, n: nat, samples: nat, whole: bool, r: Runtime<T>, calls: seq<Call>, s: Net<T>)
    requires pipes > 0 && n > 0 && Sane(Diamond(pipes, n, samples, whole), r)
    requires Reaches(Diamond(pipes, n, samples, whole), r, calls, s)
    ensures |calls| <= Sum(DiamondCeilings(pipes, n, samples, r), Join(pipes, n) + 2)
  {
    var g := Diamond(pipes, n, samples, whole);
    ReachesInv(g, r, calls, s);
    StartInv<T>(g, r);
    RunMovesItems(g, r, Start(g), calls, s);
    BelowCeilings(pipes, n, samples, whole, r, s);
  }

  lemma {:induction false} DiamondCanStop<T>(pipes: nat, n: nat, samples: nat, whole: bool, r: Runtime<T>, s: Net<T>)
    returns (calls: seq<Call>, s': Net<T>)
    requires Running(pipes, n, samples, whole, r, s)
    ensures Runs(Diamond(pipes, n, samples, whole), r, s, calls, s') && Stuck(pipes, n, samples, whole, r, s')
    decreases Sum(DiamondCeilings(pipes, n, samples, r), Join(pipes, n) + 2) - Items(s.log, |s.log|)
  {
    var g := Diamond(pipes, n, samples, whole);
    if b: nat, m: nat :| Ready(g, r, s, b, m) {
      FireInv(g, r, s, b, m);
      FireMoves(g, r, s, b, m);
      BelowCeilings(pipes, n, samples, whole, r, Fire(g, r, s, b, m));
      var rest, last := DiamondCanStop(pipes, n, samples, whole, r, Fire(g, r, s, b, m));
      RunsFirst(g, r, s, b, m, rest, last);
      calls, s' := [Call(b, m)] + rest, last;
    } else {
      calls, s' := [], s;
    }
  }

  /** From every reachable state some schedule delivers all `samples * pipes` items to the sink. */
  lemma DiamondCanComplete<T>(pipes: nat, n: nat, samples: nat, whole: bool, r: Runtime<T>, s: Net<T>)
    returns (calls: seq<Call>, s': Net<T>)
    requires Running(pipes, n, samples, whole, r, s) && JoinFits(pipes, n, whole, r)
    ensures Runs(Diamond(pipes, n, samples, whole), r, s, calls, s')
    ensures Join(pipes, n) + 1 < |s'.log| && |s'.log[Join(pipes, n) + 1]| == samples * pipes
  {
    calls, s' := DiamondCanStop(pipes, n, samples, whole, r, s);
    DiamondCompletes(pipes, n, samples, whole, r, s', 0, 0);
  }
}
