/** The two copying blocks as objects working on the runtime's buffers. */
module CopyBlocks {
  import opened Common

  function Min(a: nat, b: nat): nat { if a < b then a else b }

  class CopyRand {
    const itemSize: nat
    const maxCopy: nat
    ghost var moved: nat // bytes copied by all calls so far

    constructor (itemSize: nat, maxCopy: nat)
      ensures this.itemSize == itemSize && this.maxCopy == maxCopy && moved == 0
    {
      this.itemSize, this.maxCopy, moved := itemSize, maxCopy, 0;
    }

    /** The most items one call can move. */
    function Limit(noutput: nat, ninput: nat): nat {
      Min(Min(noutput, ninput), maxCopy)
    }

    /** `general_work`: draw how many items to move, copy their bytes, consume as many as produced. What
        the generator draws is `drawn`, any value from 1 to the limit. */
    method GeneralWork(noutput: nat, ninput: nat, drawn: nat, input: array<byte>, output: array<byte>)
      returns (produced: nat, consumed: nat)
      requires Limit(noutput, ninput) > 0 ==> 1 <= drawn <= Limit(noutput, ninput)
      requires input != output
      requires Bytes(ninput, itemSize) <= input.Length && Bytes(noutput, itemSize) <= output.Length
      modifies this, output
      ensures consumed == produced
      ensures produced == if noutput == 0 || ninput == 0 || maxCopy == 0 then 0 else drawn
      ensures Bytes(produced, itemSize) <= input.Length && Bytes(produced, itemSize) <= output.Length
      ensures output[..Bytes(produced, itemSize)] == input[..Bytes(produced, itemSize)]
      ensures output[Bytes(produced, itemSize)..] == old(output[Bytes(produced, itemSize)..])
      ensures moved == old(moved) + Bytes(produced, itemSize)
    {
      var m := Limit(noutput, ninput);
      if m > 0 {
        m := drawn;
        Scaled(m, ninput, itemSize);
        Scaled(m, noutput, itemSize);
        ghost var copied := Memcpy(output, input, Bytes(m, itemSize));
        moved := moved + copied;
      }
      produced, consumed := m, m;
    }
  }

  lemma Scaled(a: nat, b: nat, k: nat)
    requires a <= b
    ensures Bytes(a, k) <= Bytes(b, k)
  {
  }

  method Memcpy<T>(dst: array<T>, src: array<T>, n: nat) returns (ghost moved: nat)
    requires dst != src && n <= dst.Length && n <= src.Length
    modifies dst
    ensures dst[..n] == src[..n] && dst[n..] == old(dst[n..]) && moved == n
  {
    moved := 0;
    var i := 0;
    while i < n
      invariant 0 <= i <= n && dst[..i] == src[..i] && dst[i..] == old(dst[i..]) && moved == i
    {
      dst[i] := src[i];
      moved := moved + 1;
      i := i + 1;
    }
  }

  const ROWS := 100
  const COLUMNS := 32768

  /** The block copies of one `work` call: one per stage it stands for, and at least one. */
  function CopiesPerCall(n: int): (c: nat)
    ensures c >= 1
  {
    if n < 2 then 1 else n
  }

  class NCopy<T(0)> {
    const n: int
    const buffers: array2<T>
    ghost var moved: nat // samples copied by all block copies so far

    ghost predicate Valid()
      reads this
    {
      n <= 99 && buffers.Length0 == ROWS && buffers.Length1 == COLUMNS
    }

    /** The rows start with whatever the memory holds. */
    constructor (ntimes: int)
      requires ntimes <= 99
      ensures Valid() && n == ntimes && fresh(buffers) && moved == 0
      ensures buffers.Length0 == 100 && buffers.Length1 == 32768
    {
      n := ntimes;
      buffers := new T[ROWS, COLUMNS];
      moved := 0;
    }

    /** Row `row` starts with the first `k` elements of `s`. */
    ghost predicate RowHolds(row: nat, s: seq<T>)
      requires row < buffers.Length0 && |s| <= buffers.Length1
      reads buffers
    {
      forall c :: 0 <= c < |s| ==> buffers[row, c] == s[c]
    }

    method CopyIn(input: array<T>, k: nat)
      requires Valid() && k <= input.Length && k <= COLUMNS
      modifies this`moved, buffers
      ensures RowHolds(0, input[..k]) && moved == old(moved) + k
      ensures forall r, c :: 0 <= r < ROWS && 0 <= c < COLUMNS && (r != 0 || c >= k) ==>
        buffers[r, c] == old(buffers[r, c])
    {
      var i := 0;
      while i < k
        invariant 0 <= i <= k && RowHolds(0, input[..i]) && moved == old(moved) + i
        invariant forall r, c :: 0 <= r < ROWS && 0 <= c < COLUMNS && (r != 0 || c >= i) ==>
          buffers[r, c] == old(buffers[r, c])
      {
        buffers[0, i] := input[i];
        moved := moved + 1;
        i := i + 1;
      }
    }

    method CopyRow(row: nat, k: nat, ghost s: seq<T>)
      requires Valid() && row + 1 < ROWS && |s| == k <= COLUMNS && RowHolds(row, s)
      modifies this`moved, buffers
      ensures RowHolds(row + 1, s) && moved == old(moved) + k
      ensures forall r, c :: 0 <= r < ROWS && 0 <= c < COLUMNS && (r != row + 1 || c >= k) ==>
        buffers[r, c] == old(buffers[r, c])
    {
      var i := 0;
      while i < k
        invariant 0 <= i <= k && RowHolds(row, s) && RowHolds(row + 1, s[..i]) && moved == old(moved) + i
        invariant forall r, c :: 0 <= r < ROWS && 0 <= c < COLUMNS && (r != row + 1 || c >= i) ==>
          buffers[r, c] == old(buffers[r, c])
      {
        buffers[row + 1, i] := buffers[row, i];
        moved := moved + 1;
        i := i + 1;
      }
    }

    method CopyOut(row: nat, output: array<T>, k: nat, ghost s: seq<T>)
      requires Valid() && row < ROWS && |s| == k <= COLUMNS && RowHolds(row, s) && k <= output.Length
      modifies this`moved, output
      ensures output[..k] == s && output[k..] == old(output[k..]) && moved == old(moved) + k
    {
      var i := 0;
      while i < k
        invariant 0 <= i <= k && output[..i] == s[..i] && output[i..] == old(output[i..])
        invariant moved == old(moved) + i && RowHolds(row, s)
      {
        output[i] := buffers[row, i];
        moved := moved + 1;
        i := i + 1;
      }
    }

    /** `work`: whatever the rows held before, the output is the current input. Only rows
        0 .. n - 2 are touched, and of those only the first `noutput` entries. Every sample is copied
        `CopiesPerCall(n)` times. */
    method Work(noutput: nat, input: array<T>, output: array<T>) returns (produced: nat)
      requires Valid() && input != output
      requires noutput <= input.Length && noutput <= output.Length && (n < 2 || noutput <= COLUMNS)
      modifies this`moved, buffers, output
      ensures Valid() && produced == noutput
      ensures output[..noutput] == input[..noutput] && output[noutput..] == old(output[noutput..])
      ensures moved == old(moved) + noutput * CopiesPerCall(n)
      ensures forall r, c :: 0 <= r < ROWS && 0 <= c < COLUMNS && (r > n - 2 || c >= noutput) ==>
        buffers[r, c] == old(buffers[r, c])
    {
      produced := noutput;
      if n < 2 {
        ghost var copied := Memcpy(output, input, noutput);
        moved := moved + copied;
        return;
      }
      ghost var s := input[..noutput];
      CopyIn(input, noutput);
      var i := 0;
      while i < n - 2
        invariant 0 <= i <= n - 2 && RowHolds(i, s) && input[..noutput] == s
        invariant moved == old(moved) + noutput * (i + 1)
        invariant forall r, c :: 0 <= r < ROWS && 0 <= c < COLUMNS && (r > i || c >= noutput) ==>
          buffers[r, c] == old(buffers[r, c])
        invariant output[..] == old(output[..])
      {
        CopyRow(i, noutput, s);
        assert noutput * (i + 2) == noutput * (i + 1) + noutput;
        i := i + 1;
      }
      CopyOut(n - 2, output, noutput, s);
      assert noutput * n == noutput * (n - 1) + noutput;
    }
  }

  /** `ncopy::make`: more than 99 copies would not fit the member array. */
  method Make<T(0)>(ntimes: int) returns (r: Option<NCopy<T>>)
    ensures r.Some? <==> ntimes <= 99
    ensures r.Some? ==> fresh(r.value) && fresh(r.value.buffers) && r.value.Valid() && r.value.n == ntimes
  {
    if ntimes > 99 {
      return None;
    }
    var block := new NCopy<T>(ntimes);
    r := Some(block);
  }
}
