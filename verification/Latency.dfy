/** Latency markers: `null_source_latency` and `null_sink_latency` number every `granularity`-th
    item with a tracepoint. A marker log depends only on how many items went by, not on how the
    runtime chunked the calls. */
module Latency {
  import opened Strides

  const UINT64_END: int := 0x1_0000_0000_0000_0000
  const INT_MAX: int := 0x7fff_ffff

  newtype uint64 = x: int | 0 <= x < 0x1_0000_0000_0000_0000
  newtype int32 = x: int | -0x8000_0000 <= x <= 0x7fff_ffff

  /** Tracepoints 1, 2, ..., n. */
  function Markers(n: nat): (log: seq<nat>)
    ensures |log| == n && forall k :: 0 <= k < n ==> log[k] == k + 1
  {
    seq<nat>(n, i requires 0 <= i => i + 1)
  }

  /** The markers due after `items` items. */
  function MarkersAt(items: nat, g: nat): seq<nat>
    requires g > 0
  {
    Markers(items / g)
  }

  lemma QuotientIs(k: nat, w: nat, q: nat)
    requires w > 0 && Times(q, w) <= k < Times(q, w) + w
    ensures k / w == q
  {
    RowColumn(q, w, k - Times(q, w));
    RowIsQuotient(k, w);
  }

  lemma QuotientBounds(k: nat, w: nat)
    requires w > 0
    ensures Times(k / w, w) <= k < Times(k / w, w) + w
  {
    RowIsQuotient(k, w);
    IndexSplit(k, w, k + 1) by { TimesAtLeast(k + 1, w); }
  }

  /** Splitting a count in two loses at most one whole granule. */
  lemma QuotientSum(a: nat, b: nat, g: nat)
    requires g > 0
    ensures a / g + b / g <= (a + b) / g <= a / g + (b + g - 1) / g
  {
    var p, q := a / g, b / g;
    QuotientBounds(a, g);
    QuotientBounds(b, g);
    QuotientBounds(b + g - 1, g);
    TimesSum(p, q, g);
    if a + b < Times(p + q, g) + g {
      QuotientIs(a + b, g, p + q);
      QuotientMonotone(b, b + g - 1, g);
    } else {
      assert Times(p + q + 1, g) == Times(p + q, g) + g;
      QuotientIs(a + b, g, p + q + 1);
      assert Times(q + 1, g) == Times(q, g) + g;
      QuotientIs(b + g - 1, g, q + 1);
    }
  }

  lemma QuotientMonotone(a: nat, b: nat, g: nat)
    requires g > 0 && a <= b
    ensures a / g <= b / g
  {
    QuotientBounds(a, g);
    QuotientBounds(b, g);
    if b / g < a / g { RowInside(b / g, g, a / g); }
  }

  /** The markers one `work` call emits when `items` items went by before it. */
  function CallMarkers(items: nat, n: nat, g: nat): seq<nat>
    requires g > 0
  {
    QuotientMonotone(items, items + n, g);
    var before, after := items / g, (items + n) / g;
    seq(after - before, i => before + i + 1)
  }

  /** A call continues the numbering exactly where the previous calls stopped. */
  lemma CallContinues(items: nat, n: nat, g: nat)
    requires g > 0
    ensures MarkersAt(items, g) + CallMarkers(items, n, g) == MarkersAt(items + n, g)
  {
    QuotientMonotone(items, items + n, g);
  }

  ghost function Total(ns: seq<nat>): nat {
    if ns == [] then 0 else Total(ns[..|ns| - 1]) + ns[|ns| - 1]
  }

  ghost function ChunkedLog(ns: seq<nat>, g: nat): seq<nat>
    requires g > 0
  {
    if ns == [] then [] else
      ChunkedLog(ns[..|ns| - 1], g) + CallMarkers(Total(ns[..|ns| - 1]), ns[|ns| - 1], g)
  }

  /** Any chunking of W items logs exactly 1, 2, ..., floor(W / g). */
  lemma {:induction false} ChunkingIrrelevant(ns: seq<nat>, g: nat)
    requires g > 0
    ensures ChunkedLog(ns, g) == Markers(Total(ns) / g)
    decreases |ns|
  {
    if ns != [] {
      var init := ns[..|ns| - 1];
      ChunkingIrrelevant(init, g);
      CallContinues(Total(init), ns[|ns| - 1], g);
    }
  }

  /** With `read` items past the sink and `buffered` more past the source, the received markers are
      a prefix of the sent ones; the outstanding markers lie between floor(B / g) and ceil(B / g)
      for the B buffered items. */
  lemma MarkersInFlight(read: nat, buffered: nat, g: nat)
    requires g > 0
    ensures MarkersAt(read, g) <= MarkersAt(read + buffered, g)
    ensures buffered / g
      <= |MarkersAt(read + buffered, g)| - |MarkersAt(read, g)|
      <= (buffered + g - 1) / g
  {
    QuotientSum(read, buffered, g);
    PrefixMarkers(read / g, (read + buffered) / g);
  }

  lemma PrefixMarkers(m: nat, n: nat)
    requires m <= n
    ensures Markers(m) <= Markers(n) && |Markers(n)| - |Markers(m)| == n - m
  {
  }

  // ---------------------------------------------------------------------------------------
  // The counters' machine integers
  // ---------------------------------------------------------------------------------------

  /** The number of tracepoints a call emits as the code computes it, in wrapping 64-bit arithmetic. */
  function MachineCount(items: nat, n: nat, g: nat): nat
    requires g > 0 && items < UINT64_END
  {
    (((items + n) % UINT64_END) / g - items / g) % UINT64_END
  }

  /** The `int` loop counter, which ends one past the number of tracepoints, stays in range exactly
      unless the granularity is 1 and a single call covers INT_MAX items. */
  lemma CounterInRange(items: nat, n: nat, g: nat)
    requires g > 0 && n <= INT_MAX
    ensures |CallMarkers(items, n, g)| <= (n + g - 1) / g
    ensures |CallMarkers(items, n, g)| + 1 <= INT_MAX <==> g > 1 || n < INT_MAX
  {
    QuotientSum(items, n, g);
    if g > 1 { CeilingHalves(n, g); }
  }

  lemma CeilingHalves(n: nat, g: nat)
    requires g > 1
    ensures 2 * ((n + g - 1) / g) <= n + 1
  {
    QuotientBounds(n + g - 1, g);
    var q := (n + g - 1) / g;
    if q > 0 {
      assert Times(q, g) == Times(q - 1, g) + g;
      TimesPair(q - 1, g);
    }
  }

  lemma {:induction false} TimesPair(p: nat, w: nat)
    requires w >= 2
    ensures Times(p, w) >= p + p
  {
    if p > 0 { TimesPair(p - 1, w); }
  }

  /** After a wrap the quotient misses some, but never all, of the 64-bit values. */
  lemma WrapMisses(low: nat, g: nat)
    requires 1 < g < UINT64_END
    ensures 0 < (low + UINT64_END) / g - low / g < UINT64_END
  {
    QuotientSum(low, UINT64_END, g);
    CeilingHalves(UINT64_END, g);
    QuotientBounds(UINT64_END, g);
  }

  /** Counting in 64 bits is right exactly when the item counter does not wrap, or the granularity
      is 1 (where the quotients wrap along with it). */
  lemma WrapCondition(items: nat, n: nat, g: nat)
    requires 0 < g < UINT64_END && items < UINT64_END && n <= INT_MAX
    ensures MachineCount(items, n, g) == |CallMarkers(items, n, g)|
      <==> g == 1 || items + n < UINT64_END
  {
    FewMarkers(items, n, g);
    if items + n < UINT64_END {
      NoWrap(items, n, g);
    } else if g > 1 {
      Wrap(items, n, g);
    }
  }

  lemma FewMarkers(items: nat, n: nat, g: nat)
    requires g > 0 && n <= INT_MAX
    ensures |CallMarkers(items, n, g)| <= INT_MAX
    ensures items / g + |CallMarkers(items, n, g)| == (items + n) / g
  {
    CounterInRange(items, n, g);
    QuotientMonotone(items, items + n, g);
    if g > 1 { CeilingHalves(n, g); }
  }

  lemma NoWrap(items: nat, n: nat, g: nat)
    requires g > 0 && items + n < UINT64_END && n <= INT_MAX
    ensures MachineCount(items, n, g) == |CallMarkers(items, n, g)|
  {
    FewMarkers(items, n, g);
    WrappedSame(|CallMarkers(items, n, g)|);
    assert (items + n) % UINT64_END == items + n;
  }

  lemma Wrap(items: nat, n: nat, g: nat)
    requires 1 < g < UINT64_END && items < UINT64_END <= items + n && n <= INT_MAX
    ensures MachineCount(items, n, g) != |CallMarkers(items, n, g)|
  {
    FewMarkers(items, n, g);
    var low := items + n - UINT64_END;
    assert (items + n) % UINT64_END == low;
    WrapMisses(low, g);
    assert low + UINT64_END == items + n;
    WrappedDiffers(|CallMarkers(items, n, g)|, (items + n) / g - low / g);
  }

  lemma WrappedSame(ideal: nat)
    requires ideal < UINT64_END
    ensures ideal % UINT64_END == ideal
  {
  }

  lemma WrappedDiffers(ideal: nat, missing: nat)
    requires ideal < UINT64_END && 0 < missing < UINT64_END
    ensures (ideal - missing) % UINT64_END != ideal
  {
  }

  // ---------------------------------------------------------------------------------------
  // All calls with a defined outcome
  // ---------------------------------------------------------------------------------------

  /** `count` markers after number `before`, counted in 64 bits. */
  function Numbers(before: nat, count: nat): (markers: seq<nat>)
    ensures |markers| == count && forall i :: 0 <= i < count ==> markers[i] == (before + i + 1) % UINT64_END
  {
    seq<nat>(count, i requires 0 <= i < count => MarkerNumber(before, i + 1))
  }

  function MarkerNumber(before: nat, i: nat): nat {
    (before + i) % UINT64_END
  }

  /** The tracepoints the loop emits. */
  function MachineMarkers(items: nat, n: nat, g: nat): seq<nat>
    requires g > 0 && items < UINT64_END
  {
    Numbers(items / g, MachineCount(items, n, g))
  }

  /** A call has a defined outcome if it does not divide by zero and its `int` counter stays in range. */
  ghost predicate Defined(items: nat, n: nat, g: nat)
    requires items < UINT64_END
  {
    g > 0 && MachineCount(items, n, g) + 1 <= INT_MAX
  }

  lemma NumbersExact(before: nat, due: seq<nat>)
    requires before + |due| < UINT64_END && forall i :: 0 <= i < |due| ==> due[i] == before + i + 1
    ensures Numbers(before, |due|) == due
  {
    forall i | 0 <= i < |due|
      ensures Numbers(before, |due|)[i] == due[i]
    {
      WrappedSame(before + i + 1);
    }
  }

  lemma QuotientSmall(a: nat, g: nat)
    requires g > 0
    ensures 0 <= a / g <= a
  {
    RowIsQuotient(a, g);
    QuotientBounds(a, g);
    TimesAtLeast(a / g, g);
  }

  lemma Smaller(a: nat)
    ensures a % UINT64_END < UINT64_END
  {
  }

  lemma OnesWrap(items: nat, n: nat)
    requires items < UINT64_END <= items + n
    ensures Numbers(items, n)[n - 1] != items + n
  {
    Smaller(items + n);
    assert items + (n - 1) + 1 == items + n;
  }

  lemma PerItem(items: nat, n: nat)
    ensures |CallMarkers(items, n, 1)| == n && items / 1 == items
    ensures n > 0 ==> CallMarkers(items, n, 1)[n - 1] == items + n
  {
  }

  lemma ExactWithoutWrap(items: nat, n: nat, g: nat)
    requires 0 < g < UINT64_END && items + n < UINT64_END && n <= INT_MAX
    ensures MachineMarkers(items, n, g) == CallMarkers(items, n, g)
  {
    NoWrap(items, n, g);
    FewMarkers(items, n, g);
    QuotientSmall(items, g);
    QuotientSmall(items + n, g);
    NumbersExact(items / g, CallMarkers(items, n, g));
  }

  lemma InexactAfterWrap(items: nat, n: nat, g: nat)
    requires 1 < g < UINT64_END && items < UINT64_END <= items + n && n <= INT_MAX
    ensures |MachineMarkers(items, n, g)| != |CallMarkers(items, n, g)|
  {
    Wrap(items, n, g);
  }

  lemma InexactPerItem(items: nat, n: nat)
    requires items < UINT64_END <= items + n && n <= INT_MAX
    ensures MachineMarkers(items, n, 1) != CallMarkers(items, n, 1)
  {
    WrapCondition(items, n, 1);
    PerItem(items, n);
    OnesWrap(items, n);
  }

  /** The machine emits the markers that are due exactly when the 64-bit item counter does not wrap. */
  lemma ExactIff(items: nat, n: nat, g: nat)
    requires 0 < g < UINT64_END && items < UINT64_END && n <= INT_MAX
    ensures MachineMarkers(items, n, g) == CallMarkers(items, n, g) <==> items + n < UINT64_END
  {
    if items + n < UINT64_END {
      ExactWithoutWrap(items, n, g);
    } else if g == 1 {
      InexactPerItem(items, n);
    } else {
      InexactAfterWrap(items, n, g);
    }
  }

  /** Which calls these are. When the item counter wraps, only granularity 1 or one too large to have been
      reached keep the loop from overrunning its counter. */
  lemma DefinedIff(items: nat, n: nat, g: nat)
    requires 0 < g < UINT64_END && items < UINT64_END && n <= INT_MAX
    ensures Defined(items, n, g) <==>
      if items + n < UINT64_END then g > 1 || n < INT_MAX else g > items || (g == 1 && n < INT_MAX)
  {
    WrapCondition(items, n, g);
    CounterInRange(items, n, g);
    if items + n >= UINT64_END {
      if g == 1 {
        PerItem(items, n);
      } else if g > items {
        WrapUnreached(items, n, g);
      } else {
        WrapOverruns(items, n, g);
      }
    }
  }

  lemma WrapUnreached(items: nat, n: nat, g: nat)
    requires items < UINT64_END <= items + n && n <= INT_MAX && items < g
    ensures MachineCount(items, n, g) == 0
  {
    var low := items + n - UINT64_END;
    WrappedCount(items, n, g, low);
    QuotientIs(items, g, 0);
    QuotientIs(low, g, 0);
  }

  lemma WrappedCount(items: nat, n: nat, g: nat, low: nat)
    requires g > 0 && items < UINT64_END && low < UINT64_END && low + UINT64_END == items + n
    ensures MachineCount(items, n, g) == (low / g - items / g) % UINT64_END
  {
    assert (items + n) % UINT64_END == low;
  }

  lemma Overruns(count: int, after: int, before: int)
    requires count == (after - before) % UINT64_END && after < before && before + before < UINT64_END && after >= 0
    ensures count > INT_MAX
  {
    WrappedNegative(before - after);
    assert after - before == 0 - (before - after);
  }

  lemma WrapOverruns(items: nat, n: nat, g: nat)
    requires items < UINT64_END <= items + n && n <= INT_MAX && 1 < g <= items
    ensures MachineCount(items, n, g) > INT_MAX
  {
    var low := items + n - UINT64_END;
    WrappedCount(items, n, g, low);
    LowerQuotient(items, low, n, g);
    HalfQuotient(items, g);
    QuotientSmall(low, g);
    Overruns(MachineCount(items, n, g), low / g, items / g);
  }

  lemma HalfQuotient(a: nat, g: nat)
    requires g > 1
    ensures a / g + a / g <= a
  {
    QuotientBounds(a, g);
    TimesPair(a / g, g);
  }

  lemma LowerQuotient(items: nat, low: nat, n: nat, g: nat)
    requires 1 < g <= items && n <= INT_MAX && low + UINT64_END == items + n && items < UINT64_END
    ensures low / g < items / g
  {
    QuotientMonotone(g, items, g);
    QuotientIs(g, g, 1) by { assert Times(1, g) == g; assert Times(2, g) == g + g; }
    if g > UINT64_END - n {
      QuotientIs(low, g, 0);
    } else {
      QuotientMonotone(g, UINT64_END - n, g);
      QuotientSum(low, UINT64_END - n, g);
      assert low + (UINT64_END - n) == items;
    }
  }

  lemma WrappedNegative(k: int)
    requires 0 < k <= UINT64_END / 2
    ensures (0 - k) % UINT64_END == UINT64_END - k > INT_MAX
  {
  }
}
