/** Termination and draining of stream graphs without a join: whatever the scheduler, the chunk
    sizes, the buffer sizes and the random draws, every block ends with the same log. */
module StreamDrain {
  import opened Strides
  import opened StreamNet

  // ---------------------------------------------------------------------------------------
  // Counting calls
  // ---------------------------------------------------------------------------------------

  /** Items logged by the first `k` blocks. */
  ghost function Items<T>(logs: seq<seq<T>>, k: nat): nat
    requires k <= |logs|
  {
    if k == 0 then 0 else Items(logs, k - 1) + |logs[k - 1]|
  }

  lemma {:induction false} ItemsUpdate<T>(logs: seq<seq<T>>, b: nat, log: seq<T>, k: nat)
    requires b < |logs| && k <= |logs| && |log| >= |logs[b]|
    ensures Items(logs[b := log], k) == Items(logs, k) + if b < k then |log| - |logs[b]| else 0
    decreases k
  {
    if k > 0 { ItemsUpdate(logs, b, log, k - 1); }
  }

  /** Every call moves at least one item, so a run has no more calls than items were logged. */
  lemma {:induction false} RunMovesItems<T>(g: Graph, r: Runtime<T>, s: Net<T>, calls: seq<Call>, s': Net<T>)
    requires Sane(g, r) && Fits(g, s) && Inv(g, r, s) && Runs(g, r, s, calls, s')
    ensures Fits(g, s') && Items(s.log, |g.kinds|) + |calls| <= Items(s'.log, |g.kinds|)
    decreases |calls|
  {
    if calls != [] {
      var Call(b, m) := calls[0];
      FireInv(g, r, s, b, m);
      var next := Fire(g, r, s, b, m);
      ItemsUpdate(s.log, b, next.log[b], |g.kinds|);
      RunMovesItems(g, r, next, calls[1..], s');
    }
  }

  /** How many calls of a schedule are calls of block `b`. */
  ghost function CallsOf(calls: seq<Call>, b: nat): (n: nat)
    ensures n <= |calls|
  {
    if calls == [] then 0 else (if calls[0].block == b then 1 else 0) + CallsOf(calls[1..], b)
  }

  /** The counter of block `b` counts the calls of the schedule. */
  lemma {:induction false} CallsCounted<T>(g: Graph, r: Runtime<T>, s: Net<T>, calls: seq<Call>, s': Net<T>, b: nat)
    requires Sane(g, r) && Fits(g, s) && Inv(g, r, s) && Runs(g, r, s, calls, s') && b < |g.kinds|
    ensures Fits(g, s') && s'.calls[b] == s.calls[b] + CallsOf(calls, b)
    decreases |calls|
  {
    if calls != [] {
      var Call(c, m) := calls[0];
      FireInv(g, r, s, c, m);
      CallsCounted(g, r, Fire(g, r, s, c, m), calls[1..], s', b);
    }
  }

  /** How often a schedule calls each block: at least `items / max` times and at most once per item. */
  lemma CallBounds<T>(g: Graph, r: Runtime<T>, calls: seq<Call>, s: Net<T>, b: nat)
    requires Sane(g, r) && Reaches(g, r, calls, s) && b < |g.kinds|
    ensures Fits(g, s) && CallsOf(calls, b) <= |s.log[b]|
    ensures g.kinds[b].CopyRand? ==> |s.log[b]| <= CallsOf(calls, b) * g.kinds[b].max
  {
    StartInv<T>(g, r);
    ReachesInv(g, r, calls, s);
    CallsCounted(g, r, Start(g), calls, s, b);
    assert Counted(g, s, b);
    if g.kinds[b].CopyRand? { TimesIsProduct(s.calls[b], g.kinds[b].max); }
  }

  // ---------------------------------------------------------------------------------------
  // Draining
  // ---------------------------------------------------------------------------------------

  /** No block but a source can be called. */
  ghost predicate Settled<T>(g: Graph, r: Runtime<T>, s: Net<T>)
    requires Sane(g, r) && Fits(g, s)
  {
    forall b, m :: 0 <= b < |g.kinds| && !IsSource(g.kinds[b]) ==> !Ready(g, r, s, b, m)
  }

  /** No block at all can be called. */
  ghost predicate Quiet<T>(g: Graph, r: Runtime<T>, s: Net<T>)
    requires Sane(g, r) && Fits(g, s)
  {
    forall b, m :: !Ready(g, r, s, b, m)
  }

  ghost predicate TreeBlock(g: Graph, b: nat)
    requires WellFormed(g) && b < |g.kinds|
  {
    && !g.kinds[b].Interleave?
    && (g.kinds[b].Head? ==>
         && IsSource(g.kinds[g.inputs[b][0]])
         && forall d: nat, p: nat :: Reads(g, d, p, g.inputs[b][0]) ==> d == b)
  }

  /** No joins; a `head` sits directly behind a source and is its only reader. */
  ghost predicate Forest(g: Graph) {
    WellFormed(g) && forall b: nat :: b < |g.kinds| ==> TreeBlock(g, b)
  }

  /** Every `copy_rand` below `b` may move something. */
  ghost predicate Moving(g: Graph) {
    forall b :: 0 <= b < |g.kinds| && g.kinds[b].CopyRand? ==> g.kinds[b].max >= 1
  }

  /** In a settled forest every block has passed on everything it was offered; a `head` everything
      up to its count. Proved from the ends of the graph backwards: a block whose readers are all
      caught up has room, so it can only be waiting for input. */
  lemma {:induction false} CaughtUp<T>(g: Graph, r: Runtime<T>, s: Net<T>, b: nat)
    requires Sane(g, r) && Forest(g) && Moving(g) && Fits(g, s) && Inv(g, r, s) && Settled(g, r, s)
    requires b < |g.kinds| && !IsSource(g.kinds[b])
    ensures |s.log[b]| == |s.log[g.inputs[b][0]]| || (g.kinds[b].Head? && |s.log[b]| == g.kinds[b].count)
    decreases |g.kinds| - b
  {
    assert TreeBlock(g, b);
    forall d: nat, p: nat | Reads(g, d, p, b)
      ensures |s.log[b]| + 1 <= s.rd[d][p] + r.cap[b]
    {
      assert TreeBlock(g, d);
      CaughtUp(g, r, s, d);
      assert Faithful(g, r, s, d);
    }
    assert Room(g, r, s, b, 1);
    assert !Ready(g, r, s, b, 1);
    assert Faithful(g, r, s, b);
  }

  /** How many items a block can ever log: the count of the `head` above it. */
  ghost function Limit(g: Graph, b: nat): nat
    requires Headed(g) && b < |g.kinds| && !IsSource(g.kinds[b])
    decreases b
  {
    assert TreeBlock(g, b) && HeadedBlock(g, b);
    if g.kinds[b].Head? then g.kinds[b].count else Limit(g, g.inputs[b][0])
  }

  /** The source above `b`. */
  ghost function Root(g: Graph, b: nat): nat
    requires Forest(g) && b < |g.kinds|
    decreases b
  {
    if IsSource(g.kinds[b]) then b else Root(g, g.inputs[b][0])
  }

  ghost predicate HeadedBlock(g: Graph, b: nat)
    requires WellFormed(g) && b < |g.kinds|
  {
    if IsSource(g.kinds[b]) then exists d: nat :: Reads(g, d, 0, b)
    else IsSource(g.kinds[g.inputs[b][0]]) ==> g.kinds[b].Head?
  }

  /** Every source is read by a `head` and by nothing else. */
  ghost predicate Headed(g: Graph) {
    Forest(g) && forall b: nat :: b < |g.kinds| ==> HeadedBlock(g, b)
  }

  /** Every block's log is a prefix of what its source produces, in every reachable state. */
  lemma {:induction false} LogFromRoot<T>(g: Graph, r: Runtime<T>, s: Net<T>, b: nat, i: nat)
    requires Sane(g, r) && Forest(g) && Fits(g, s) && Inv(g, r, s) && b < |g.kinds| && i < |s.log[b]|
    ensures s.log[b][i] == r.feed(Root(g, b), i)
    decreases b
  {
    assert Faithful(g, r, s, b) && TreeBlock(g, b);
    if !IsSource(g.kinds[b]) {
      LogFromRoot(g, r, s, g.inputs[b][0], i);
    }
  }

  /** How often an item is copied on its way from the source to block `b`, by `b` included. */
  ghost function CopiesUpTo(g: Graph, b: nat): nat
    requires WellFormed(g) && b < |g.kinds|
    decreases b
  {
    if g.inputs[b] == [] then 0 else CopiesUpTo(g, g.inputs[b][0]) + CopiesPerItem(g.kinds[b])
  }

  /** Every item in every log of every reachable state has been copied just as often as the graph says. */
  lemma {:induction false} HopsFromRoot<T>(g: Graph, r: Runtime<T>, s: Net<T>, b: nat, i: nat)
    requires Sane(g, r) && Forest(g) && Fits(g, s) && Inv(g, r, s) && b < |g.kinds| && i < |s.log[b]|
    ensures s.hops[b][i] == CopiesUpTo(g, b)
    decreases b
  {
    assert Traced(g, s, b) && HopsAt(g, s, b, i) && TreeBlock(g, b);
    if !IsSource(g.kinds[b]) { HopsFromRoot(g, r, s, g.inputs[b][0], i); }
  }

  lemma {:induction false} WithinLimit<T>(g: Graph, r: Runtime<T>, s: Net<T>, b: nat)
    requires Sane(g, r) && Headed(g) && Fits(g, s) && Inv(g, r, s)
    requires b < |g.kinds| && !IsSource(g.kinds[b])
    ensures |s.log[b]| <= Limit(g, b)
    decreases b
  {
    assert Faithful(g, r, s, b) && TreeBlock(g, b) && HeadedBlock(g, b);
    if !g.kinds[b].Head? { WithinLimit(g, r, s, g.inputs[b][0]); }
  }

  /** Deadlock freedom: when nothing can be called any more, every block has logged everything. */
  lemma {:induction false} QuietMeansDone<T>(g: Graph, r: Runtime<T>, s: Net<T>, b: nat)
    requires Sane(g, r) && Headed(g) && Moving(g) && Fits(g, s) && Inv(g, r, s) && Quiet(g, r, s)
    requires b < |g.kinds| && !IsSource(g.kinds[b])
    ensures |s.log[b]| == Limit(g, b)
    decreases b
  {
    CaughtUp(g, r, s, b);
    assert TreeBlock(g, b) && HeadedBlock(g, b);
    if g.kinds[b].Head? {
      HeadFinishes(g, r, s, b);
    } else {
      QuietMeansDone(g, r, s, g.inputs[b][0]);
    }
  }

  /** A `head` short of its count whose input is empty leaves its source room to go on. */
  lemma HeadFinishes<T>(g: Graph, r: Runtime<T>, s: Net<T>, b: nat)
    requires Sane(g, r) && Headed(g) && Fits(g, s) && Inv(g, r, s) && Quiet(g, r, s)
    requires b < |g.kinds| && g.kinds[b].Head?
    requires |s.log[b]| == |s.log[g.inputs[b][0]]| || |s.log[b]| == g.kinds[b].count
    ensures |s.log[b]| == g.kinds[b].count
  {
    assert Faithful(g, r, s, b) && TreeBlock(g, b);
    var a := g.inputs[b][0];
    if |s.log[b]| == |s.log[a]| {
      assert forall d: nat, p: nat :: Reads(g, d, p, a) ==> d == b;
      assert Room(g, r, s, a, 1) && Willing(g, s, a, 1);
      assert Ready(g, r, s, a, 1);
    }
  }

  /** `log` is the beginning of what source `a` produces. */
  ghost predicate From<T>(r: Runtime<T>, a: nat, log: seq<T>) {
    forall i :: 0 <= i < |log| ==> log[i] == r.feed(a, i)
  }

  /** What block `b` has delivered in every reachable state, whatever the `copy_rand` blocks can move. */
  lemma DeliversPrefix<T>(g: Graph, r: Runtime<T>, s: Net<T>, b: nat)
    requires Sane(g, r) && Headed(g) && Fits(g, s) && Inv(g, r, s)
    requires b < |g.kinds| && !IsSource(g.kinds[b])
    ensures |s.log[b]| <= Limit(g, b)
    ensures From(r, Root(g, b), s.log[b])
  {
    WithinLimit(g, r, s, b);
    forall i | 0 <= i < |s.log[b]|
      ensures s.log[b][i] == r.feed(Root(g, b), i)
    {
      LogFromRoot(g, r, s, b, i);
    }
  }

  /** What block `b` has delivered, in every reachable state and at the end of a run. */
  lemma Delivers<T>(g: Graph, r: Runtime<T>, s: Net<T>, b: nat)
    requires Sane(g, r) && Headed(g) && Moving(g) && Fits(g, s) && Inv(g, r, s)
    requires b < |g.kinds| && !IsSource(g.kinds[b])
    ensures |s.log[b]| <= Limit(g, b)
    ensures From(r, Root(g, b), s.log[b])
    ensures Quiet(g, r, s) ==> |s.log[b]| == Limit(g, b)
  {
    DeliversPrefix(g, r, s, b);
    if Quiet(g, r, s) { QuietMeansDone(g, r, s, b); }
  }

  /** The outcome of a complete run is one function of the graph: the log of block `b` is the first
      `Limit(g, b)` items of its source. Two complete runs, under any two schedules and buffer sizes,
      end with equal logs. */
  lemma SameOutcome<T>(g: Graph, r: Runtime<T>, s: Net<T>, q: Runtime<T>, t: Net<T>, b: nat)
    requires Sane(g, r) && Headed(g) && Moving(g) && Fits(g, s) && Inv(g, r, s) && Quiet(g, r, s)
    requires Sane(g, q) && Fits(g, t) && Inv(g, q, t) && Quiet(g, q, t)
    requires r.feed == q.feed && b < |g.kinds| && !IsSource(g.kinds[b])
    ensures s.log[b] == t.log[b]
  {
    QuietMeansDone(g, r, s, b);
    QuietMeansDone(g, q, t, b);
    forall i | 0 <= i < |s.log[b]|
      ensures s.log[b][i] == t.log[b][i]
    {
      LogFromRoot(g, r, s, b, i);
      LogFromRoot(g, q, t, b, i);
    }
  }

  ghost function HeadOf(g: Graph, a: nat): (d: nat)
    requires Headed(g) && a < |g.kinds| && IsSource(g.kinds[a])
    ensures Reads(g, d, 0, a)
  {
    assert HeadedBlock(g, a);
    var d: nat :| Reads(g, d, 0, a); d
  }

  /** What a block can log at most; a source runs ahead of its `head` by one buffer. */
  ghost function Ceiling<T>(g: Graph, r: Runtime<T>, b: nat): nat
    requires Sane(g, r) && Headed(g) && b < |g.kinds|
  {
    if IsSource(g.kinds[b]) then Limit(g, HeadOf(g, b)) + r.cap[b] else Limit(g, b)
  }

  ghost function Ceilings<T>(g: Graph, r: Runtime<T>): seq<nat>
    requires Sane(g, r) && Headed(g)
  {
    seq(|g.kinds|, b requires 0 <= b < |g.kinds| => Ceiling(g, r, b))
  }

  ghost function Sum(ns: seq<nat>, k: nat): nat
    requires k <= |ns|
  {
    if k == 0 then 0 else Sum(ns, k - 1) + ns[k - 1]
  }

  lemma WithinCeiling<T>(g: Graph, r: Runtime<T>, s: Net<T>, b: nat)
    requires Sane(g, r) && Headed(g) && Fits(g, s) && Inv(g, r, s) && b < |g.kinds|
    ensures |s.log[b]| <= Ceiling(g, r, b)
  {
    if IsSource(g.kinds[b]) {
      var d := HeadOf(g, b);
      assert TreeBlock(g, d) && HeadedBlock(g, d);
      WithinLimit(g, r, s, d);
      assert Faithful(g, r, s, d);
    } else {
      WithinLimit(g, r, s, b);
    }
  }

  lemma {:induction false} ItemsBounded<T>(logs: seq<seq<T>>, bounds: seq<nat>, k: nat)
    requires |logs| == |bounds| && k <= |logs|
    requires forall b :: 0 <= b < |logs| ==> |logs[b]| <= bounds[b]
    ensures Items(logs, k) <= Sum(bounds, k)
    decreases k
  {
    if k > 0 { ItemsBounded(logs, bounds, k - 1); }
  }

  /** No schedule runs forever: the number of calls is bounded before the run starts. */
  lemma RunEnds<T>(g: Graph, r: Runtime<T>, calls: seq<Call>, s: Net<T>)
    requires Sane(g, r) && Headed(g) && Reaches(g, r, calls, s)
    ensures |calls| <= Sum(Ceilings(g, r), |g.kinds|)
  {
    ReachesInv(g, r, calls, s);
    StartInv<T>(g, r);
    RunMovesItems(g, r, Start(g), calls, s);
    WithinCeilings(g, r, s);
  }

  lemma WithinCeilings<T>(g: Graph, r: Runtime<T>, s: Net<T>)
    requires Sane(g, r) && Headed(g) && Fits(g, s) && Inv(g, r, s)
    ensures Items(s.log, |g.kinds|) <= Sum(Ceilings(g, r), |g.kinds|)
  {
    forall b | 0 <= b < |s.log|
      ensures |s.log[b]| <= Ceilings(g, r)[b]
    {
      WithinCeiling(g, r, s, b);
    }
    ItemsBounded(s.log, Ceilings(g, r), |g.kinds|);
  }

  lemma FireMoves<T>(g: Graph, r: Runtime<T>, s: Net<T>, b: nat, m: nat)
    requires Sane(g, r) && Fits(g, s) && Inv(g, r, s) && Ready(g, r, s, b, m)
    ensures Items(Fire(g, r, s, b, m).log, |g.kinds|) == Items(s.log, |g.kinds|) + m
  {
    ItemsUpdate(s.log, b, Fire(g, r, s, b, m).log[b], |g.kinds|);
  }

  lemma RunsFirst<T>(g: Graph, r: Runtime<T>, s: Net<T>, b: nat, m: nat, rest: seq<Call>, s': Net<T>)
    requires Sane(g, r) && Fits(g, s) && Inv(g, r, s) && Ready(g, r, s, b, m)
    requires Inv(g, r, Fire(g, r, s, b, m)) && Runs(g, r, Fire(g, r, s, b, m), rest, s')
    ensures Runs(g, r, s, [Call(b, m)] + rest, s')
  {
    assert ([Call(b, m)] + rest)[1..] == rest;
  }

  /** From every reachable state some schedule leads to one in which nothing can be called any more. */
  lemma {:induction false} CanFinish<T>(g: Graph, r: Runtime<T>, s: Net<T>) returns (calls: seq<Call>, s': Net<T>)
    requires Sane(g, r) && Headed(g) && Fits(g, s) && Inv(g, r, s)
    ensures Runs(g, r, s, calls, s') && Fits(g, s') && Inv(g, r, s') && Quiet(g, r, s')
    decreases Sum(Ceilings(g, r), |g.kinds|) - Items(s.log, |g.kinds|)
  {
    if b: nat, m: nat :| Ready(g, r, s, b, m) {
      FireInv(g, r, s, b, m);
      FireMoves(g, r, s, b, m);
      WithinCeilings(g, r, Fire(g, r, s, b, m));
      var rest, last := CanFinish(g, r, Fire(g, r, s, b, m));
      RunsFirst(g, r, s, b, m, rest, last);
      calls, s' := [Call(b, m)] + rest, last;
    } else {
      calls, s' := [], s;
    }
  }

  /** A `copy_rand` with `max_copy == 0` never passes anything on. */
  lemma MaxZeroBlocks<T>(g: Graph, r: Runtime<T>, s: Net<T>, b: nat)
    requires Sane(g, r) && Fits(g, s) && Inv(g, r, s) && b < |g.kinds|
    requires g.kinds[b] == CopyRand(0)
    ensures s.log[b] == []
  {
    assert Counted(g, s, b);
    TimesZero(s.calls[b]);
  }
}
