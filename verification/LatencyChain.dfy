/** `null_source_latency` -> any number of `copy_rand` -> `null_sink_latency`: conservation, matching
    markers, draining and the number of `copy_rand` calls, under every schedule and every draw. */
module LatencyChain {
  import opened Latency
  import opened StreamNet
  import opened StreamDrain

  /** Block 0 is the source, block `i` the `copy_rand` with limit `maxes[i - 1]`, the last the sink. */
  function Chain(maxes: seq<nat>, gran: nat): Graph {
    var n := |maxes|;
    Graph(seq(n + 2, b requires 0 <= b < n + 2 =>
            if b == 0 then LatencySource(gran) else if b <= n then CopyRand(maxes[b - 1]) else LatencySink(gran)),
          seq(n + 2, b requires 0 <= b => if b == 0 then [] else [b - 1]))
  }

  lemma ChainForest(maxes: seq<nat>, gran: nat)
    requires gran > 0
    ensures Forest(Chain(maxes, gran))
    ensures Moving(Chain(maxes, gran)) <==> forall i :: 0 <= i < |maxes| ==> maxes[i] >= 1
  {
    var g := Chain(maxes, gran);
    forall b: nat | b < |g.kinds|
      ensures TreeBlock(g, b)
    {
    }
    if Moving(g) {
      forall i | 0 <= i < |maxes|
        ensures maxes[i] >= 1
      {
        assert g.kinds[i + 1] == CopyRand(maxes[i]);
      }
    }
  }

  /** `s` satisfies the invariant of the chain, as every reachable state does. */
  ghost predicate ChainState<T>(maxes: seq<nat>, gran: nat, r: Runtime<T>, s: Net<T>) {
    gran > 0 && Sane(Chain(maxes, gran), r) && Fits(Chain(maxes, gran), s) && Inv(Chain(maxes, gran), r, s)
  }

  /** What reader `b` of the chain has not yet read of its input. */
  ghost function Buffered<T>(s: Net<T>, b: nat): seq<T>
    requires 0 < b < |s.log| && b < |s.rd| && |s.rd[b]| == 1 && s.rd[b][0] <= |s.log[b - 1]|
  {
    s.log[b - 1][s.rd[b][0]..]
  }

  /** Everything buffered between the source and block `b`, oldest items first. */
  ghost function InTransit<T>(maxes: seq<nat>, gran: nat, r: Runtime<T>, s: Net<T>, b: nat): seq<T>
    requires ChainState(maxes, gran, r, s) && b < |maxes| + 2
    decreases b
  {
    if b == 0 then [] else
      assert Reads(Chain(maxes, gran), b, 0, b - 1);
      Buffered(s, b) + InTransit(maxes, gran, r, s, b - 1)
  }

  /** Nothing is lost, duplicated or reordered: in every reachable state, what block `b` has passed on,
      followed by what is buffered before it, is exactly what the source has produced. */
  lemma {:induction false} ChainConserves<T>(maxes: seq<nat>, gran: nat, r: Runtime<T>, s: Net<T>, b: nat)
    requires ChainState(maxes, gran, r, s) && b < |maxes| + 2
    ensures s.log[b] + InTransit(maxes, gran, r, s, b) == s.log[0]
    decreases b
  {
    if b > 0 {
      var g := Chain(maxes, gran);
      assert Faithful(g, r, s, b) && Reads(g, b, 0, b - 1);
      ChainConserves(maxes, gran, r, s, b - 1);
      Rejoin(s.log[b], s.log[b - 1], InTransit(maxes, gran, r, s, b - 1), s.log[0]);
    }
  }

  lemma Rejoin<T>(done: seq<T>, offered: seq<T>, rest: seq<T>, all: seq<T>)
    requires done <= offered && offered + rest == all
    ensures done + (offered[|done|..] + rest) == all
  {
    assert done + offered[|done|..] == offered;
    assert done + (offered[|done|..] + rest) == (done + offered[|done|..]) + rest;
  }

  lemma ChainMarks<T>(maxes: seq<nat>, gran: nat, r: Runtime<T>, s: Net<T>)
    requires ChainState(maxes, gran, r, s)
    ensures s.marks[0] == MarkersAt(|s.log[0]|, gran)
    ensures s.marks[|maxes| + 1] == MarkersAt(|s.log[|maxes| + 1]|, gran)
    ensures |s.log[0]| == |s.log[|maxes| + 1]| + |InTransit(maxes, gran, r, s, |maxes| + 1)|
  {
    var g, last := Chain(maxes, gran), |maxes| + 1;
    assert Marks(g, s, 0) && Marks(g, s, last);
    ChainConserves(maxes, gran, r, s, last);
  }

  /** The received markers are at every state a prefix of the sent ones, numbered 1, 2, 3, ...; with B
      items in transit between floor(B / g) and ceil(B / g) markers are outstanding. */
  lemma ChainMarkers<T>(maxes: seq<nat>, gran: nat, r: Runtime<T>, s: Net<T>)
    requires ChainState(maxes, gran, r, s)
    ensures var tx, rx, b := s.marks[0], s.marks[|maxes| + 1], |InTransit(maxes, gran, r, s, |maxes| + 1)|;
      && tx == MarkersAt(|s.log[0]|, gran)
      && rx <= tx
      && b / gran <= |tx| - |rx| <= (b + gran - 1) / gran
  {
    ChainMarks(maxes, gran, r, s);
    MarkersInFlight(|s.log[|maxes| + 1]|, |InTransit(maxes, gran, r, s, |maxes| + 1)|, gran);
  }

  /** A settled chain that was offered something has delivered all of it exactly when no `copy_rand`
      was built with `max_copy` 0. */
  lemma ChainDrains<T>(maxes: seq<nat>, gran: nat, r: Runtime<T>, s: Net<T>)
    requires ChainState(maxes, gran, r, s) && Settled(Chain(maxes, gran), r, s) && s.log[0] != []
    ensures s.log[|maxes| + 1] == s.log[0] <==> forall i :: 0 <= i < |maxes| ==> maxes[i] >= 1
    ensures (forall i :: 0 <= i < |maxes| ==> maxes[i] >= 1) ==> s.marks[|maxes| + 1] == s.marks[0]
  {
    if i :| 0 <= i < |maxes| && maxes[i] == 0 {
      NothingPasses(maxes, gran, r, s, i);
    } else {
      ChainForest(maxes, gran);
      AllDelivered(maxes, gran, r, s);
    }
  }

  /** Behind a `copy_rand` with limit 0 nothing arrives, settled or not. */
  lemma NothingPasses<T>(maxes: seq<nat>, gran: nat, r: Runtime<T>, s: Net<T>, i: nat)
    requires ChainState(maxes, gran, r, s) && i < |maxes| && maxes[i] == 0
    ensures s.log[|maxes| + 1] == []
  {
    MaxZeroBlocks(Chain(maxes, gran), r, s, i + 1);
    Monotone(maxes, gran, r, s, i + 1, |maxes| + 1);
  }

  lemma AllDelivered<T>(maxes: seq<nat>, gran: nat, r: Runtime<T>, s: Net<T>)
    requires ChainState(maxes, gran, r, s) && Settled(Chain(maxes, gran), r, s) && Moving(Chain(maxes, gran))
    ensures s.log[|maxes| + 1] == s.log[0] && s.marks[|maxes| + 1] == s.marks[0]
  {
    var g, last := Chain(maxes, gran), |maxes| + 1;
    AllCaughtUp(maxes, gran, r, s, last);
    ChainConserves(maxes, gran, r, s, last);
    assert Marks(g, s, 0) && Marks(g, s, last);
  }

  lemma {:induction false} AllCaughtUp<T>(maxes: seq<nat>, gran: nat, r: Runtime<T>, s: Net<T>, b: nat)
    requires ChainState(maxes, gran, r, s) && Settled(Chain(maxes, gran), r, s)
    requires b < |maxes| + 2 && Moving(Chain(maxes, gran))
    ensures |s.log[b]| == |s.log[0]|
    decreases b
  {
    if b > 0 {
      ChainForest(maxes, gran);
      CaughtUp(Chain(maxes, gran), r, s, b);
      AllCaughtUp(maxes, gran, r, s, b - 1);
    }
  }

  lemma {:induction false} Monotone<T>(maxes: seq<nat>, gran: nat, r: Runtime<T>, s: Net<T>, a: nat, b: nat)
    requires ChainState(maxes, gran, r, s) && a <= b < |maxes| + 2
    ensures |s.log[b]| <= |s.log[a]|
    decreases b
  {
    if a < b {
      assert Faithful(Chain(maxes, gran), r, s, b);
      Monotone(maxes, gran, r, s, a, b - 1);
    }
  }

  lemma ChainReaches<T>(maxes: seq<nat>, gran: nat, r: Runtime<T>, calls: seq<Call>, s: Net<T>)
    requires gran > 0 && Sane(Chain(maxes, gran), r) && Reaches(Chain(maxes, gran), r, calls, s)
    ensures ChainState(maxes, gran, r, s)
  {
    ReachesInv(Chain(maxes, gran), r, calls, s);
  }

  /** Every schedule calls a `copy_rand` at most once per item the source has produced; to drain N items
      it calls it at least ceil(N / max_copy) times. */
  lemma ChainCalls<T>(maxes: seq<nat>, gran: nat, r: Runtime<T>, calls: seq<Call>, s: Net<T>, b: nat)
    requires gran > 0 && Sane(Chain(maxes, gran), r) && Reaches(Chain(maxes, gran), r, calls, s)
    requires 1 <= b <= |maxes|
    ensures ChainState(maxes, gran, r, s) && CallsOf(calls, b) <= |s.log[0]|
    ensures Settled(Chain(maxes, gran), r, s) && (forall i :: 0 <= i < |maxes| ==> maxes[i] >= 1) ==>
      |s.log[0]| <= CallsOf(calls, b) * maxes[b - 1]
  {
    ChainReaches(maxes, gran, r, calls, s);
    ChainForest(maxes, gran);
    CallBounds(Chain(maxes, gran), r, calls, s, b);
    Monotone(maxes, gran, r, s, 0, b);
    if Settled(Chain(maxes, gran), r, s) && Moving(Chain(maxes, gran)) {
      AllCaughtUp(maxes, gran, r, s, b);
    }
  }

  // ---------------------------------------------------------------------------------------
  // Schedules without the source
  // ---------------------------------------------------------------------------------------

  /** The hops that items the source has produced still have to make through blocks 1 to `k - 1`. */
  ghost function Hops<T>(s: Net<T>, k: nat): int
    requires 1 <= k <= |s.log|
    decreases k
  {
    if k == 1 then 0 else Hops(s, k - 1) + |s.log[0]| - |s.log[k - 1]|
  }

  /** The hops that are left before the chain has delivered everything. */
  ghost function HopsLeft<T>(s: Net<T>): int
    requires s.log != []
  {
    Hops(s, |s.log|)
  }

  lemma {:induction false} HopsBounded<T>(maxes: seq<nat>, gran: nat, r: Runtime<T>, s: Net<T>, k: nat)
    requires ChainState(maxes, gran, r, s) && 1 <= k <= |maxes| + 2
    ensures Hops(s, k) >= 0
    ensures k > 1 && Hops(s, k) == 0 ==> |s.log[k - 1]| == |s.log[0]|
    decreases k
  {
    if k > 1 {
      HopsBounded(maxes, gran, r, s, k - 1);
      Monotone(maxes, gran, r, s, 0, k - 1);
    }
  }

  lemma {:induction false} HopsMade<T>(s: Net<T>, s': Net<T>, b: nat, m: nat, k: nat)
    requires 1 <= k <= |s.log| == |s'.log| && 0 < b < |s.log| && |s'.log[b]| == |s.log[b]| + m
    requires forall a :: 0 <= a < |s.log| && a != b ==> s'.log[a] == s.log[a]
    ensures Hops(s', k) == Hops(s, k) - if b < k then m else 0
    decreases k
  {
    if k > 1 { HopsMade(s, s', b, m, k - 1); }
  }

  ghost predicate NotTheSource(calls: seq<Call>) {
    forall i :: 0 <= i < |calls| ==> calls[i].block > 0
  }

  /** The items a schedule moves. */
  ghost function Moved(calls: seq<Call>): nat {
    if calls == [] then 0 else calls[0].items + Moved(calls[1..])
  }

  lemma HopMade<T>(maxes: seq<nat>, gran: nat, r: Runtime<T>, s: Net<T>, b: nat, m: nat)
    requires ChainState(maxes, gran, r, s) && b > 0 && Ready(Chain(maxes, gran), r, s, b, m)
    ensures var s' := Fire(Chain(maxes, gran), r, s, b, m);
      && ChainState(maxes, gran, r, s') && s'.log[0] == s.log[0]
      && HopsLeft(s') == HopsLeft(s) - m && HopsLeft(s') >= 0
  {
    var s' := Fire(Chain(maxes, gran), r, s, b, m);
    FireInv(Chain(maxes, gran), r, s, b, m);
    HopsMade(s, s', b, m, |s.log|);
    HopsBounded(maxes, gran, r, s', |s.log|);
  }

  /** Every schedule without the source uses up the hops that were left, at least one per call, whatever
      the draws: it ends. */
  lemma {:induction false} ChainEnds<T>(
    maxes: seq<nat>, gran: nat, r: Runtime<T>, s: Net<T>, calls: seq<Call>, s': Net<T>)
    requires ChainState(maxes, gran, r, s) && NotTheSource(calls)
    requires Runs(Chain(maxes, gran), r, s, calls, s')
    ensures ChainState(maxes, gran, r, s') && s'.log[0] == s.log[0]
    ensures |calls| <= Moved(calls) && Moved(calls) + HopsLeft(s') == HopsLeft(s)
    ensures HopsLeft(s') >= 0
    decreases |calls|
  {
    if calls == [] {
      HopsBounded(maxes, gran, r, s, |s.log|);
    } else {
      var Call(b, m) := calls[0];
      HopMade(maxes, gran, r, s, b, m);
      ChainEnds(maxes, gran, r, Fire(Chain(maxes, gran), r, s, b, m), calls[1..], s');
    }
  }

  /** With all limits at least 1, a schedule without the source can be extended no further exactly when
      it has moved as many items as hops were left, and exactly when everything is delivered. */
  lemma ChainDelivers<T>(maxes: seq<nat>, gran: nat, r: Runtime<T>, s: Net<T>, calls: seq<Call>, s': Net<T>)
    requires ChainState(maxes, gran, r, s) && NotTheSource(calls)
    requires Runs(Chain(maxes, gran), r, s, calls, s')
    requires forall i :: 0 <= i < |maxes| ==> maxes[i] >= 1
    ensures ChainState(maxes, gran, r, s')
    ensures Settled(Chain(maxes, gran), r, s') <==> Moved(calls) == HopsLeft(s)
    ensures Settled(Chain(maxes, gran), r, s') <==> s'.log[|maxes| + 1] == s.log[0]
  {
    ChainEnds(maxes, gran, r, s, calls, s');
    SettledIff(maxes, gran, r, s');
  }

  /** Behind a source that rests the chain is settled exactly when everything is delivered. */
  lemma SettledIff<T>(maxes: seq<nat>, gran: nat, r: Runtime<T>, s: Net<T>)
    requires ChainState(maxes, gran, r, s) && forall i :: 0 <= i < |maxes| ==> maxes[i] >= 1
    ensures Settled(Chain(maxes, gran), r, s) <==> HopsLeft(s) == 0
    ensures Settled(Chain(maxes, gran), r, s) <==> s.log[|maxes| + 1] == s.log[0]
  {
    ChainForest(maxes, gran);
    HopsBounded(maxes, gran, r, s, |s.log|);
    if Settled(Chain(maxes, gran), r, s) {
      AllDelivered(maxes, gran, r, s);
      NoHopsLeft(maxes, gran, r, s, |s.log|);
    } else {
      var b: nat, m: nat :| b > 0 && Ready(Chain(maxes, gran), r, s, b, m);
      HopMade(maxes, gran, r, s, b, m);
      Undelivered(maxes, gran, r, s, b, m);
    }
  }

  lemma {:induction false} NoHopsLeft<T>(maxes: seq<nat>, gran: nat, r: Runtime<T>, s: Net<T>, k: nat)
    requires ChainState(maxes, gran, r, s) && Settled(Chain(maxes, gran), r, s) && Moving(Chain(maxes, gran))
    requires 1 <= k <= |maxes| + 2
    ensures Hops(s, k) == 0
    decreases k
  {
    if k > 1 {
      NoHopsLeft(maxes, gran, r, s, k - 1);
      AllCaughtUp(maxes, gran, r, s, k - 1);
    }
  }

  /** A block that can still be called holds items back from the sink. */
  lemma Undelivered<T>(maxes: seq<nat>, gran: nat, r: Runtime<T>, s: Net<T>, b: nat, m: nat)
    requires ChainState(maxes, gran, r, s) && b > 0 && Ready(Chain(maxes, gran), r, s, b, m)
    ensures |s.log[|maxes| + 1]| < |s.log[0]|
  {
    assert Faithful(Chain(maxes, gran), r, s, b);
    Monotone(maxes, gran, r, s, 0, b - 1);
    Monotone(maxes, gran, r, s, b, |maxes| + 1);
  }

  lemma SomeHop<T>(maxes: seq<nat>, gran: nat, r: Runtime<T>, s: Net<T>) returns (call: Call, next: Net<T>)
    requires ChainState(maxes, gran, r, s) && !Settled(Chain(maxes, gran), r, s)
    ensures call.block > 0 && Runs(Chain(maxes, gran), r, s, [call], next)
    ensures ChainState(maxes, gran, r, next) && 0 <= HopsLeft(next) < HopsLeft(s)
  {
    var b: nat, m: nat :| b > 0 && Ready(Chain(maxes, gran), r, s, b, m);
    HopMade(maxes, gran, r, s, b, m);
    RunsOnce(Chain(maxes, gran), r, s, b, m);
    call, next := Call(b, m), Fire(Chain(maxes, gran), r, s, b, m);
  }

  /** From every reachable state the chain can settle without the source producing anything more. */
  lemma {:induction false} ChainCanSettle<T>(maxes: seq<nat>, gran: nat, r: Runtime<T>, s: Net<T>)
    returns (calls: seq<Call>, s': Net<T>)
    requires ChainState(maxes, gran, r, s)
    ensures Runs(Chain(maxes, gran), r, s, calls, s') && NotTheSource(calls)
    ensures ChainState(maxes, gran, r, s') && Settled(Chain(maxes, gran), r, s')
    decreases HopsLeft(s)
  {
    if Settled(Chain(maxes, gran), r, s) {
      calls, s' := [], s;
    } else {
      var call, next := SomeHop(maxes, gran, r, s);
      var rest;
      rest, s' := ChainCanSettle(maxes, gran, r, next);
      RunsThen(Chain(maxes, gran), r, s, call, next, rest, s');
      calls := [call] + rest;
    }
  }

  /** With all limits at least 1 the chain is free of deadlock: from every reachable state it can deliver
      everything the source has produced, in at most one call per hop, with all markers. */
  lemma ChainCanDrain<T>(maxes: seq<nat>, gran: nat, r: Runtime<T>, s: Net<T>)
    returns (calls: seq<Call>, s': Net<T>)
    requires ChainState(maxes, gran, r, s) && forall i :: 0 <= i < |maxes| ==> maxes[i] >= 1
    ensures Runs(Chain(maxes, gran), r, s, calls, s') && NotTheSource(calls) && |calls| <= HopsLeft(s)
    ensures ChainState(maxes, gran, r, s') && s'.log[|maxes| + 1] == s'.log[0] == s.log[0]
    ensures s'.marks[|maxes| + 1] == s'.marks[0]
  {
    var g, last := Chain(maxes, gran), |maxes| + 1;
    calls, s' := ChainCanSettle(maxes, gran, r, s);
    ChainEnds(maxes, gran, r, s, calls, s');
    SettledIff(maxes, gran, r, s');
    assert Marks(g, s', 0) && Marks(g, s', last);
  }
}
