/** Positions in a row-major layout, entry `j` of row `p` when rows have `w` entries.
    Products and quotients are defined by repeated addition so that proofs about layouts
    stay linear; `TimesIsProduct` and `RowIsQuotient` connect them to `*`, `/` and `%`. */
module Strides {

  /** The sizes that a builder's `for` loops over `int` bounds amount to: no pipe when `pipes` is not
      positive, and a first block in every pipe even when `stages` is below one. */
  function PipeCount(pipes: int): nat {
    if pipes < 0 then 0 else pipes
  }

  function PipeLength(stages: int): (n: nat)
    ensures n >= 1
  {
    if stages < 1 then 1 else stages
  }

  function Times(p: nat, w: nat): nat {
    if p == 0 then 0 else Times(p - 1, w) + w
  }

  function Row(k: nat, w: nat): nat
    requires w > 0
  {
    if k < w then 0 else 1 + Row(k - w, w)
  }

  function Col(k: nat, w: nat): (j: nat)
    requires w > 0
    ensures j < w
  {
    if k < w then k else Col(k - w, w)
  }

  lemma {:induction false} TimesIsProduct(p: nat, w: nat)
    ensures Times(p, w) == p * w
  {
    if p > 0 {
      TimesIsProduct(p - 1, w);
      assert (p - 1) * w + w == p * w;
    }
  }

  lemma {:induction false} TimesZero(p: nat)
    ensures Times(p, 0) == 0
  {
    if p > 0 { TimesZero(p - 1); }
  }

  lemma {:induction false} TimesOne(p: nat)
    ensures Times(p, 1) == p
  {
    if p > 0 { TimesOne(p - 1); }
  }

  lemma {:induction false} TimesAdd(p: nat, v: nat, w: nat)
    ensures Times(p, v + w) == Times(p, v) + Times(p, w)
  {
    if p > 0 { TimesAdd(p - 1, v, w); }
  }

  lemma {:induction false} RowColumn(p: nat, w: nat, j: nat)
    requires j < w
    ensures Row(Times(p, w) + j, w) == p && Col(Times(p, w) + j, w) == j
  {
    if p > 0 { RowColumn(p - 1, w, j); }
  }

  lemma {:induction false} RowInside(p: nat, w: nat, rows: nat)
    requires p < rows
    ensures Times(p, w) + w <= Times(rows, w)
  {
    if p < rows - 1 { RowInside(p, w, rows - 1); }
  }

  /** Two positions share an index only if they are the same position. */
  lemma PositionUnique(w: nat, p: nat, j: nat, p': nat, j': nat)
    requires j < w && j' < w && Times(p, w) + j == Times(p', w) + j'
    ensures p == p' && j == j'
  {
    RowColumn(p, w, j);
    RowColumn(p', w, j');
  }

  /** How many rows begin before index `k`. */
  function RowStarts(k: nat, w: nat): nat
    requires w > 0
  {
    if k == 0 then 0 else RowStarts(k - 1, w) + if Col(k - 1, w) == 0 then 1 else 0
  }

  lemma {:induction false} RowStartsOfRows(p: nat, w: nat, j: nat)
    requires j < w
    ensures RowStarts(Times(p, w) + j, w) == if j > 0 then p + 1 else p
    decreases p, j
  {
    if j > 0 {
      RowStartsOfRows(p, w, j - 1);
      RowColumn(p, w, j - 1);
    } else if p > 0 {
      RowStartsOfRows(p - 1, w, w - 1);
      RowColumn(p - 1, w, w - 1);
    }
  }

  lemma {:induction false} TimesAtLeast(p: nat, w: nat)
    requires w > 0
    ensures Times(p, w) >= p
  {
    if p > 0 { TimesAtLeast(p - 1, w); }
  }

  lemma {:induction false} TimesSum(p: nat, q: nat, w: nat)
    ensures Times(p + q, w) == Times(p, w) + Times(q, w)
  {
    if q > 0 { TimesSum(p, q - 1, w); }
  }

  lemma {:induction false} RowMonotone(k: nat, l: nat, w: nat)
    requires w > 0 && k <= l
    ensures Row(k, w) <= Row(l, w)
  {
    if k >= w { RowMonotone(k - w, l - w, w); }
  }

  lemma {:induction false} ColSum(k: nat, l: nat, w: nat)
    requires w > 0 && Col(k, w) == 0 && Col(l, w) == 0
    ensures Col(k + l, w) == 0
  {
    if k >= w { ColSum(k - w, l, w); }
  }

  lemma {:induction false} RowNext(k: nat, w: nat)
    requires w > 0
    ensures Row(k + 1, w) == Row(k, w) + if Col(k, w) == w - 1 then 1 else 0
  {
    if k >= w { RowNext(k - w, w); }
  }

  /** Every index below `rows * w` is a column of one of the rows. */
  lemma {:induction false} IndexSplit(k: nat, w: nat, rows: nat)
    requires k < Times(rows, w)
    ensures w > 0 && Row(k, w) < rows && k == Times(Row(k, w), w) + Col(k, w)
  {
    if k >= w {
      if w == 0 { TimesZero(rows); }
      IndexSplit(k - w, w, rows - 1);
    }
  }

  lemma {:induction false} RowIsQuotient(k: nat, w: nat)
    requires w > 0
    ensures Row(k, w) == k / w && Col(k, w) == k % w
  {
    if k >= w {
      RowIsQuotient(k - w, w);
      QuotientStep(k - w, w);
    }
  }

  lemma QuotientStep(k: nat, w: nat)
    requires w > 0
    ensures (k + w) / w == k / w + 1 && (k + w) % w == k % w
  {
    var q, r := k / w, k % w;
    assert k + w == (q + 1) * w + r;
    DivisionUnique(k + w, w, q + 1, r);
  }

  lemma DivisionUnique(k: nat, w: nat, q: nat, r: nat)
    requires r < w && k == q * w + r
    ensures k / w == q && k % w == r
  {
    SameProduct(w, q, r, k / w, k % w);
  }

  lemma SameProduct(w: nat, q: nat, r: nat, q': nat, r': nat)
    requires r < w && r' < w && q * w + r == q' * w + r'
    ensures q == q' && r == r'
  {
    if q < q' { ProductGrows(q, q', w); }
    if q' < q { ProductGrows(q', q, w); }
  }

  lemma ProductGrows(q: nat, q': nat, w: nat)
    requires q < q'
    ensures q * w + w <= q' * w
  {
    TimesIsProduct(q, w);
    TimesIsProduct(q', w);
    RowInside(q, w, q');
  }
}
