/** The objects of `CopyBlocks` and `LatencyBlocks` as blocks of a stream graph: a work call on the runtime's
    buffers is one step of the transition system, and conservation holds byte for byte. */
module BlockSteps {
  import opened Common
  import opened Strides
  import opened StreamNet
  import opened Latency
  import opened LatencyChain
  import CopyBlocks
  import LatencyBlocks

  // ---------------------------------------------------------------------------------------
  // Items as bytes
  // ---------------------------------------------------------------------------------------

  /** A buffer of items as the bytes it occupies. */
  ghost function Flatten(items: seq<seq<byte>>): seq<byte> {
    if items == [] then [] else Flatten(items[..|items| - 1]) + items[|items| - 1]
  }

  ghost predicate Sized(items: seq<seq<byte>>, size: nat) {
    forall i :: 0 <= i < |items| ==> |items[i]| == size
  }

  lemma {:induction false} FlattenAppend(a: seq<seq<byte>>, b: seq<seq<byte>>)
    ensures Flatten(a + b) == Flatten(a) + Flatten(b)
    decreases |b|
  {
    if b == [] {
      assert a + b == a;
    } else {
      var init, last := b[..|b| - 1], b[|b| - 1];
      FlattenAppend(a, init);
      assert (a + b)[..|a + b| - 1] == a + init && (a + b)[|a + b| - 1] == last;
      assert Flatten(a) + Flatten(init) + last == Flatten(a) + (Flatten(init) + last);
    }
  }

  lemma {:induction false} FlattenLength(items: seq<seq<byte>>, size: nat)
    requires Sized(items, size)
    ensures |Flatten(items)| == Times(|items|, size)
    decreases |items|
  {
    if items != [] { FlattenLength(items[..|items| - 1], size); }
  }

  lemma FlattenPrefix(items: seq<seq<byte>>, m: nat, size: nat)
    requires Sized(items, size) && m <= |items|
    ensures Bytes(m, size) <= |Flatten(items)| && Flatten(items)[..Bytes(m, size)] == Flatten(items[..m])
  {
    FlattenAppend(items[..m], items[m..]);
    assert items[..m] + items[m..] == items;
    FlattenLength(items[..m], size);
    TimesIsProduct(m, size);
  }

  /** Sources that produce items of `size` bytes. */
  ghost predicate Feeds(r: Runtime<seq<byte>>, size: nat) {
    forall a: nat, i: nat :: |r.feed(a, i)| == size
  }

  lemma {:induction false} LogSized(g: Graph, r: Runtime<seq<byte>>, s: Net<seq<byte>>, b: nat, size: nat)
    requires Sane(g, r) && Fits(g, s) && Inv(g, r, s) && b < |g.kinds| && Feeds(r, size)
    ensures Sized(s.log[b], size)
    decreases b
  {
    assert Faithful(g, r, s, b);
    forall k | 0 <= k < |s.log[b]|
      ensures |s.log[b][k]| == size
    {
      if g.kinds[b].Interleave? {
        assert RoundRobin(g, s, b, k);
        LogSized(g, r, s, g.inputs[b][Col(k, |g.inputs[b]|)], size);
      } else if !IsSource(g.kinds[b]) {
        LogSized(g, r, s, g.inputs[b][0], size);
      }
    }
  }

  // ---------------------------------------------------------------------------------------
  // Work calls as steps
  // ---------------------------------------------------------------------------------------

  /** Block `b` has a single input port, which holds `k` items. */
  ghost predicate Offers<T>(g: Graph, s: Net<T>, b: nat, k: nat) {
    && WellFormed(g) && Fits(g, s) && b < |g.kinds| && |g.inputs[b]| == 1
    && Holds(g, s, b, 0, s.rd[b][0] + k)
  }

  /** These items. */
  ghost function Unread<T>(g: Graph, s: Net<T>, b: nat, k: nat): seq<T>
    requires Offers(g, s, b, k)
  {
    s.log[g.inputs[b][0]][s.rd[b][0]..s.rd[b][0] + k]
  }

  /** Whatever part of them is drawn, a `copy_rand` can be called for it. */
  lemma CopyRandFires<T>(g: Graph, r: Runtime<T>, s: Net<T>, b: nat, noutput: nat, ninput: nat, m: nat)
    returns (s': Net<T>)
    requires Sane(g, r) && Fits(g, s) && Inv(g, r, s) && b < |g.kinds| && g.kinds[b].CopyRand?
    requires noutput <= r.chunk && Room(g, r, s, b, noutput) && Offers(g, s, b, ninput)
    requires 1 <= m <= noutput && m <= ninput && m <= g.kinds[b].max
    ensures Ready(g, r, s, b, m) && s' == Fire(g, r, s, b, m) && Inv(g, r, s')
    ensures s'.log[b] == s.log[b] + Unread(g, s, b, ninput)[..m]
  {
    assert Room(g, r, s, b, m);
    var log, n := s.log[g.inputs[b][0]], s.rd[b][0];
    assert log[n..n + ninput][..m] == log[n..n + m];
    s' := Fire(g, r, s, b, m);
    FireInv(g, r, s, b, m);
  }

  /** The first `m` of the unread items, appended to what was logged. */
  lemma AppendBytes(log: seq<seq<byte>>, unread: seq<seq<byte>>, m: nat, size: nat)
    requires Sized(unread, size) && m <= |unread|
    ensures Bytes(m, size) <= |Flatten(unread)|
    ensures Flatten(log + unread[..m]) == Flatten(log) + Flatten(unread)[..Bytes(m, size)]
  {
    FlattenAppend(log, unread[..m]);
    FlattenPrefix(unread, m, size);
  }

  /** `general_work` of a `copy_rand` in any graph of items of `itemSize` bytes: with the unread items in
      the input buffer and room for `noutput` items behind it, the call is a step of the transition
      system for as many items as are drawn, or none, and what it writes are the bytes of the items that
      the step logs. */
  method CopyRandStep(
    ghost g: Graph, ghost r: Runtime<seq<byte>>, ghost s: Net<seq<byte>>, ghost b: nat,
    block: CopyBlocks.CopyRand, noutput: nat, ninput: nat, drawn: nat, input: array<byte>, output: array<byte>)
    returns (m: nat, ghost s': Net<seq<byte>>)
    requires Sane(g, r) && Fits(g, s) && Inv(g, r, s) && b < |g.kinds| && g.kinds[b] == CopyRand(block.maxCopy)
    requires Feeds(r, block.itemSize) && input != output
    requires noutput <= r.chunk && Room(g, r, s, b, noutput) && Bytes(noutput, block.itemSize) <= output.Length
    requires Offers(g, s, b, ninput) && Bytes(ninput, block.itemSize) <= input.Length
    requires input[..Bytes(ninput, block.itemSize)] == Flatten(Unread(g, s, b, ninput))
    requires noutput > 0 && ninput > 0 && block.maxCopy > 0 ==>
      1 <= drawn <= noutput && drawn <= ninput && drawn <= block.maxCopy
    modifies block, output
    ensures m == if noutput == 0 || ninput == 0 || block.maxCopy == 0 then 0 else drawn
    ensures if m == 0 then s' == s else Ready(g, r, s, b, m) && s' == Fire(g, r, s, b, m)
    ensures Fits(g, s') && Inv(g, r, s') && Bytes(m, block.itemSize) <= output.Length
    ensures Flatten(s'.log[b]) == Flatten(s.log[b]) + output[..Bytes(m, block.itemSize)]
    ensures output[Bytes(m, block.itemSize)..] == old(output[Bytes(m, block.itemSize)..])
    ensures s'.rd[b][0] == s.rd[b][0] + m
    ensures s'.copied[b] == s.copied[b] + m && block.moved == old(block.moved) + Bytes(m, block.itemSize)
  {
    ghost var unread, bytes := Unread(g, s, b, ninput), input[..Bytes(ninput, block.itemSize)];
    var consumed;
    m, consumed := block.GeneralWork(noutput, ninput, drawn, input, output);
    if m == 0 {
      s' := s;
    } else {
      LogSized(g, r, s, g.inputs[b][0], block.itemSize);
      AppendBytes(s.log[b], unread, m, block.itemSize);
      assert output[..Bytes(m, block.itemSize)] == bytes[..Bytes(m, block.itemSize)];
      s' := CopyRandFires(g, r, s, b, noutput, ninput, m);
      TimesOne(m);
    }
  }

  /** `work` of an `ncopy` in any graph: the step for `noutput` items, with as many single copies in the
      block as the step counts. */
  method NCopyStep<T(0)>(
    ghost g: Graph, ghost r: Runtime<T>, ghost s: Net<T>, ghost b: nat,
    block: CopyBlocks.NCopy<T>, noutput: nat, input: array<T>, output: array<T>)
    returns (ghost s': Net<T>)
    requires Sane(g, r) && Fits(g, s) && Inv(g, r, s) && b < |g.kinds| && g.kinds[b] == NCopy(block.n)
    requires 1 <= noutput <= r.chunk && Room(g, r, s, b, noutput) && Offers(g, s, b, noutput)
    requires block.Valid() && input != output
    requires noutput <= input.Length && noutput <= output.Length && (block.n < 2 || noutput <= CopyBlocks.COLUMNS)
    requires input[..noutput] == Unread(g, s, b, noutput)
    modifies block`moved, block.buffers, output
    ensures Ready(g, r, s, b, noutput) && s' == Fire(g, r, s, b, noutput) && Inv(g, r, s')
    ensures s'.log[b] == s.log[b] + output[..noutput]
    ensures output[noutput..] == old(output[noutput..])
    ensures s'.copied[b] - s.copied[b] == block.moved - old(block.moved)
  {
    var produced := block.Work(noutput, input, output);
    s' := Fire(g, r, s, b, noutput);
    FireInv(g, r, s, b, noutput);
    TimesIsProduct(noutput, CopyBlocks.CopiesPerCall(block.n));
  }

  /** Items of zero bytes. */
  function Zeros(size: nat): seq<byte> {
    seq<byte>(size, i => 0)
  }

  lemma {:induction false} FlattenZeros(items: seq<seq<byte>>, size: nat)
    requires forall i :: 0 <= i < |items| ==> items[i] == Zeros(size)
    ensures Flatten(items) == Zeros(Bytes(|items|, size))
    decreases |items|
  {
    FlattenLength(items, size);
    TimesIsProduct(|items|, size);
    if items != [] {
      FlattenZeros(items[..|items| - 1], size);
    }
  }

  lemma SourceFires(g: Graph, r: Runtime<seq<byte>>, s: Net<seq<byte>>, b: nat, size: nat, m: nat)
    returns (s': Net<seq<byte>>)
    requires Sane(g, r) && Fits(g, s) && Inv(g, r, s) && b < |g.kinds| && g.kinds[b].LatencySource?
    requires 1 <= m <= r.chunk && Room(g, r, s, b, m) && forall i: nat :: r.feed(b, i) == Zeros(size)
    ensures Ready(g, r, s, b, m) && s' == Fire(g, r, s, b, m) && Inv(g, r, s') && |s'.log[b]| == |s.log[b]| + m
    ensures Flatten(s'.log[b]) == Flatten(s.log[b]) + Zeros(Bytes(m, size))
    ensures s'.marks[b] == MarkersAt(|s'.log[b]|, g.kinds[b].granularity)
  {
    assert Ready(g, r, s, b, m);
    s' := Fire(g, r, s, b, m);
    FireInv(g, r, s, b, m);
    FlattenAppend(s.log[b], Produced(g, r, s, b, m));
    FlattenZeros(Produced(g, r, s, b, m), size);
    assert Marks(g, s', b);
  }

  /** `work` of a `null_source_latency` in any graph: the step for `noutput` items of zeros, and the
      tracepoints of the object are those of the step. */
  method SourceStep(
    ghost g: Graph, ghost r: Runtime<seq<byte>>, ghost s: Net<seq<byte>>, ghost b: nat,
    block: LatencyBlocks.NullSourceLatency, noutput: int32, out: array<byte>)
    returns (ghost s': Net<seq<byte>>)
    requires Sane(g, r) && Fits(g, s) && Inv(g, r, s) && b < |g.kinds|
    requires g.kinds[b] == LatencySource(block.granularity as nat)
    requires forall i: nat :: r.feed(b, i) == Zeros(block.itemSize)
    requires 1 <= noutput as int <= r.chunk && Room(g, r, s, b, noutput as nat)
    requires Bytes(noutput as nat, block.itemSize) <= out.Length
    requires block.itemsWritten as nat == |s.log[b]| && block.tx == s.marks[b]
    requires LatencyBlocks.DefinedCall(block.itemsWritten, noutput, block.granularity)
    requires block.itemsWritten as int + noutput as int < UINT64_END
    modifies block, out
    ensures Ready(g, r, s, b, noutput as nat) && s' == Fire(g, r, s, b, noutput as nat) && Inv(g, r, s')
    ensures block.itemsWritten as nat == |s'.log[b]| && block.tx == s'.marks[b]
    ensures Flatten(s'.log[b]) == Flatten(s.log[b]) + out[..Bytes(noutput as nat, block.itemSize)]
  {
    s' := SourceFires(g, r, s, b, block.itemSize, noutput as nat);
    assert Marks(g, s, b);
    var produced := block.Work(noutput, out);
    assert out[..Bytes(noutput as nat, block.itemSize)] == Zeros(Bytes(noutput as nat, block.itemSize));
  }

  lemma SinkFires<T>(g: Graph, r: Runtime<T>, s: Net<T>, b: nat, m: nat) returns (s': Net<T>)
    requires Sane(g, r) && Fits(g, s) && Inv(g, r, s) && b < |g.kinds| && g.kinds[b].LatencySink?
    requires 1 <= m <= r.chunk && Room(g, r, s, b, m) && Offers(g, s, b, m)
    ensures Ready(g, r, s, b, m) && s' == Fire(g, r, s, b, m) && Inv(g, r, s')
    ensures |s'.log[b]| == s'.rd[b][0] == s.rd[b][0] + m
    ensures s'.marks[b] == MarkersAt(|s'.log[b]|, g.kinds[b].granularity)
  {
    s' := Fire(g, r, s, b, m);
    FireInv(g, r, s, b, m);
    assert Marks(g, s', b) && Faithful(g, r, s', b);
  }

  /** `work` of a `null_sink_latency` in any graph: the step that reads `noutput` items. */
  method SinkStep<T>(
    ghost g: Graph, ghost r: Runtime<T>, ghost s: Net<T>, ghost b: nat,
    block: LatencyBlocks.NullSinkLatency, noutput: int32)
    returns (ghost s': Net<T>)
    requires Sane(g, r) && Fits(g, s) && Inv(g, r, s) && b < |g.kinds|
    requires g.kinds[b] == LatencySink(block.granularity as nat)
    requires 1 <= noutput as int <= r.chunk && Room(g, r, s, b, noutput as nat) && Offers(g, s, b, noutput as nat)
    requires block.itemsRead as nat == s.rd[b][0] && block.rx == s.marks[b]
    requires LatencyBlocks.DefinedCall(block.itemsRead, noutput, block.granularity)
    requires block.itemsRead as int + noutput as int < UINT64_END
    modifies block
    ensures Ready(g, r, s, b, noutput as nat) && s' == Fire(g, r, s, b, noutput as nat) && Inv(g, r, s')
    ensures block.itemsRead as nat == s'.rd[b][0] && block.rx == s'.marks[b]
  {
    s' := SinkFires(g, r, s, b, noutput as nat);
    assert Marks(g, s, b) && Faithful(g, r, s, b);
    var consumed := block.Work(noutput);
  }

  /** Byte for byte, what a block of the latency chain has passed on followed by everything buffered before
      it is what the source has produced. */
  lemma BytesConserved(maxes: seq<nat>, gran: nat, r: Runtime<seq<byte>>, s: Net<seq<byte>>, b: nat)
    requires ChainState(maxes, gran, r, s) && b < |maxes| + 2
    ensures Flatten(s.log[b]) + Flatten(InTransit(maxes, gran, r, s, b)) == Flatten(s.log[0])
  {
    ChainConserves(maxes, gran, r, s, b);
    FlattenAppend(s.log[b], InTransit(maxes, gran, r, s, b));
  }
}
