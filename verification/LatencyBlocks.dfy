/** The two latency blocks as objects: `work` updates a running item counter and emits tracepoints. */
module LatencyBlocks {
  import opened Common
  import opened Latency

  /** The calls of `work` that the language defines (see `DefinedIff`). */
  ghost predicate DefinedCall(items: uint64, noutput: int32, g: uint64) {
    noutput >= 0 && Defined(items as nat, noutput as nat, g as nat)
  }

  /** 64-bit addition and subtraction. */
  function Plus(a: uint64, n: int32): (r: uint64)
    requires n >= 0
    ensures r as int == (a as int + n as int) % UINT64_END
  {
    ((a as int + n as int) % UINT64_END) as uint64
  }

  function Minus(a: uint64, b: uint64): (r: uint64)
    ensures r as int == (a as int - b as int) % UINT64_END
  {
    ((a as int - b as int) % UINT64_END) as uint64
  }

  function Quotient(a: uint64, g: uint64): (r: uint64)
    requires g > 0
    ensures r as int == a as int / g as int
  {
    QuotientSmall(a as nat, g as nat);
    (a as int / g as int) as uint64
  }

  /** The loop: `count` tracepoints numbered from `before + 1`. */
  method EmitNumbers(log: seq<nat>, before: uint64, count: uint64) returns (log': seq<nat>)
    requires count as int + 1 <= INT_MAX
    ensures log' == log + Numbers(before as nat, count as nat)
  {
    ghost var emitted := Numbers(before as nat, count as nat);
    log' := log;
    var i: int32 := 1;
    while i as uint64 <= count
      invariant 1 <= i as int <= count as int + 1
      invariant log' == log + emitted[..i as int - 1]
      decreases count as int + 1 - i as int
    {
      assert emitted[..i as int] == emitted[..i as int - 1] + [emitted[i as int - 1]];
      log' := log' + [Plus(before, i) as nat];
      i := i + 1;
    }
    assert emitted[..|emitted|] == emitted;
  }

  /** The marking that both blocks share, in machine arithmetic. */
  method EmitTracepoints(log: seq<nat>, items: uint64, noutput: int32, g: uint64) returns (log': seq<nat>)
    requires DefinedCall(items, noutput, g)
    ensures log' == LogAfter(log, items, noutput, g)
  {
    var before := Quotient(items, g);
    var after := Quotient(Plus(items, noutput), g);
    var count := Minus(after, before);
    assert count as int == MachineCount(items as nat, noutput as nat, g as nat);
    log' := EmitNumbers(log, before, count);
  }

  /** The log holds the markers due for the items so far. */
  ghost predicate LogOk(log: seq<nat>, items: uint64, g: uint64) {
    g > 0 ==> log == MarkersAt(items as nat, g as nat)
  }

  ghost function LogAfter(log: seq<nat>, items: uint64, n: int32, g: uint64): seq<nat>
    requires DefinedCall(items, n, g)
  {
    log + MachineMarkers(items as nat, n as nat, g as nat)
  }

  /** ... and still does after a call in which the counter does not wrap. */
  lemma CallKeepsLog(log: seq<nat>, items: uint64, n: int32, g: uint64)
    requires DefinedCall(items, n, g) && items as int + n as int < UINT64_END && LogOk(log, items, g)
    ensures LogOk(LogAfter(log, items, n, g), Plus(items, n), g)
  {
    ExactIff(items as nat, n as nat, g as nat);
    CallContinues(items as nat, n as nat, g as nat);
    WrappedSame(items as nat + n as nat);
  }

  class NullSourceLatency {
    const itemSize: nat
    const granularity: uint64
    var itemsWritten: uint64
    var tx: seq<nat>

    ghost predicate Valid()
      reads this
    {
      LogOk(tx, itemsWritten, granularity)
    }

    /** Any granularity is accepted, zero too; `work` then divides by it. */
    constructor (itemSize: nat, granularity: uint64)
      ensures Valid() && itemsWritten == 0 && tx == []
      ensures this.itemSize == itemSize && this.granularity == granularity
    {
      this.itemSize, this.granularity := itemSize, granularity;
      itemsWritten, tx := 0, [];
    }

    /** Zero the output and mark it; the runtime then advances `nitems_written` by the result. */
    method Work(noutput: int32, out: array<byte>) returns (produced: int32)
      requires DefinedCall(itemsWritten, noutput, granularity) && Bytes(noutput as nat, itemSize) <= out.Length
      modifies this, out
      ensures produced == noutput
      ensures itemsWritten == Plus(old(itemsWritten), noutput)
      ensures tx == LogAfter(old(tx), old(itemsWritten), noutput, granularity)
      ensures old(Valid()) && old(itemsWritten) as int + noutput as int < UINT64_END ==> Valid()
      ensures forall k :: 0 <= k < out.Length ==>
        out[k] == if k < Bytes(noutput as nat, itemSize) then 0 else old(out[k])
    {
      Memset(out, Bytes(noutput as nat, itemSize));
      if Valid() && itemsWritten as int + noutput as int < UINT64_END {
        CallKeepsLog(tx, itemsWritten, noutput, granularity);
      }
      tx := EmitTracepoints(tx, itemsWritten, noutput, granularity);
      itemsWritten := Plus(itemsWritten, noutput);
      produced := noutput;
    }
  }

  method Memset(out: array<byte>, size: nat)
    requires size <= out.Length
    modifies out
    ensures forall k :: 0 <= k < out.Length ==> out[k] == if k < size then 0 else old(out[k])
  {
    var k := 0;
    while k < size
      invariant 0 <= k <= size
      invariant forall l :: 0 <= l < out.Length ==> out[l] == if l < k then 0 else old(out[l])
    {
      out[k] := 0;
      k := k + 1;
    }
  }

  class NullSinkLatency {
    const granularity: uint64
    var itemsRead: uint64
    var rx: seq<nat>

    ghost predicate Valid()
      reads this
    {
      LogOk(rx, itemsRead, granularity)
    }

    /** Any granularity is accepted, zero too; `work` then divides by it. */
    constructor (granularity: uint64)
      ensures Valid() && itemsRead == 0 && rx == [] && this.granularity == granularity
    {
      this.granularity := granularity;
      itemsRead, rx := 0, [];
    }

    /** Drop the input and mark it; the runtime then advances `nitems_read` by the result. */
    method Work(noutput: int32) returns (consumed: int32)
      requires DefinedCall(itemsRead, noutput, granularity)
      modifies this
      ensures consumed == noutput
      ensures itemsRead == Plus(old(itemsRead), noutput)
      ensures rx == LogAfter(old(rx), old(itemsRead), noutput, granularity)
      ensures old(Valid()) && old(itemsRead) as int + noutput as int < UINT64_END ==> Valid()
    {
      if Valid() && itemsRead as int + noutput as int < UINT64_END {
        CallKeepsLog(rx, itemsRead, noutput, granularity);
      }
      rx := EmitTracepoints(rx, itemsRead, noutput, granularity);
      itemsRead := Plus(itemsRead, noutput);
      consumed := noutput;
    }
  }
}
