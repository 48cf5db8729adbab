/** The sliding windows of the migration and cache monitors: one vector of the last `nvals` samples per
    name, shifted at every tick, added when a new name shows up, removed once it has faded to zero. */
module Monitor {

  type Samples = map<string, nat>
  type Windows = map<string, seq<nat>>

  // ---------------------------------------------------------------------------------------
  // What the plot should show: the full history
  // ---------------------------------------------------------------------------------------

  /** The count of `k` at tick `t`; names that were not reported count zero, and so does the time
      before the first tick. */
  function SampleAt(h: seq<Samples>, k: string, t: int): nat {
    if 0 <= t < |h| && k in h[t] then h[t][k] else 0
  }

  /** The last `n` samples of `k`. */
  function Window(h: seq<Samples>, k: string, n: nat): (v: seq<nat>)
    ensures |v| == n && forall i :: 0 <= i < n ==> v[i] == SampleAt(h, k, |h| - n + i)
  {
    seq<nat>(n, i requires 0 <= i < n => SampleAt(h, k, |h| - n + i))
  }

  predicate Flat(v: seq<nat>) {
    forall i :: 0 <= i < |v| ==> v[i] == 0
  }

  /** The dictionary agrees with the history: a name is present exactly if one of its last `n` samples
      is not zero, and then with exactly these samples. */
  ghost predicate Agrees(data: Windows, h: seq<Samples>, n: nat) {
    && (forall k :: k in data <==> !Flat(Window(h, k, n)))
    && forall k :: k in data ==> data[k] == Window(h, k, n)
  }

  // ---------------------------------------------------------------------------------------
  // What one tick does to the dictionary
  // ---------------------------------------------------------------------------------------

  function Shifted(v: seq<nat>, x: nat): seq<nat> {
    if v == [] then [x] else v[1..] + [x]
  }

  /** The window of a name that shows up with `x`. */
  function Entering(x: nat, n: nat): seq<nat>
    requires n >= 1
  {
    seq<nat>(n, i requires 0 <= i < n => if i == n - 1 then x else 0)
  }

  function CountIn(d: Samples, k: string): nat {
    if k in d then d[k] else 0
  }

  /** All windows moved on by the samples `d`, before pruning. */
  function Moved(data: Windows, d: Samples, n: nat): Windows
    requires n >= 1
  {
    map k | k in data.Keys + d.Keys ::
      if k in data then Shifted(data[k], CountIn(d, k)) else Entering(CountIn(d, k), n)
  }

  function Pruned(data: Windows): Windows {
    map k | k in data && !Flat(data[k]) :: data[k]
  }

  function Tick(data: Windows, d: Samples, n: nat): Windows
    requires n >= 1
  {
    Pruned(Moved(data, d, n))
  }

  function Ticks(h: seq<Samples>, n: nat): Windows
    requires n >= 1
  {
    if h == [] then map[] else Tick(Ticks(h[..|h| - 1], n), h[|h| - 1], n)
  }

  /** The dictionary that never forgets a name. */
  function NeverPruned(h: seq<Samples>, n: nat): Windows
    requires n >= 1
  {
    if h == [] then map[] else Moved(NeverPruned(h[..|h| - 1], n), h[|h| - 1], n)
  }

  /** What updating the old names and then adding the remaining ones amounts to. */
  lemma TwoLoopsMove(before: Windows, d0: Samples, d: Samples, after: Windows, n: nat)
    requires n >= 1 && forall k :: k in after <==> k in before || k in d
    requires forall k :: k in d <==> k in d0 && k !in before
    requires forall k :: k in d ==> d[k] == d0[k]
    requires forall k :: k in before ==> after[k] == Shifted(before[k], CountIn(d0, k))
    requires forall k :: k in d ==> after[k] == Entering(d[k], n)
    ensures after == Moved(before, d0, n)
    ensures (forall k :: k in before ==> |before[k]| == n) ==> forall k :: k in after ==> |after[k]| == n
  {
    assert after.Keys == before.Keys + d0.Keys;
  }

  lemma WindowShifts(h: seq<Samples>, d: Samples, k: string, n: nat)
    requires n >= 1
    ensures Window(h + [d], k, n) == Shifted(Window(h, k, n), CountIn(d, k))
    ensures Flat(Window(h, k, n)) ==> Window(h + [d], k, n) == Entering(CountIn(d, k), n)
  {
    var now, before := Window(h + [d], k, n), Window(h, k, n);
    forall i | 0 <= i < n
      ensures now[i] == Shifted(before, CountIn(d, k))[i]
    {
      var t := |h| + 1 - n + i;
      if i < n - 1 {
        assert before[1..][i] == before[i + 1] == SampleAt(h, k, t);
        assert SampleAt(h + [d], k, t) == SampleAt(h, k, t);
      }
    }
    if Flat(before) {
      forall i | 0 <= i < n - 1
        ensures now[i] == 0
      {
        assert now[i] == before[i + 1];
      }
      assert now == Entering(CountIn(d, k), n);
    }
  }

  lemma TickAgrees(data: Windows, h: seq<Samples>, d: Samples, n: nat)
    requires n >= 1 && Agrees(data, h, n)
    ensures Agrees(Tick(data, d, n), h + [d], n)
  {
    forall k
      ensures k in Tick(data, d, n) <==> !Flat(Window(h + [d], k, n))
      ensures k in Tick(data, d, n) ==> Tick(data, d, n)[k] == Window(h + [d], k, n)
    {
      WindowShifts(h, d, k, n);
      if k !in data && k !in d {
        assert Flat(Entering(0, n));
      }
    }
  }

  /** After any ticks the pruned dictionary agrees with the full history. */
  lemma {:induction false} TicksAgree(h: seq<Samples>, n: nat)
    requires n >= 1
    ensures Agrees(Ticks(h, n), h, n)
  {
    if h == [] {
      forall k: string
        ensures Flat(Window(h, k, n))
      {
      }
    } else {
      TicksAgree(h[..|h| - 1], n);
      TickAgrees(Ticks(h[..|h| - 1], n), h[..|h| - 1], h[|h| - 1], n);
      assert h[..|h| - 1] + [h[|h| - 1]] == h;
    }
  }

  /** `data` has the right window of `k`, or none while it would be flat. */
  predicate Shows(data: Windows, h: seq<Samples>, k: string, n: nat) {
    if k in data then data[k] == Window(h, k, n) else Flat(Window(h, k, n))
  }

  lemma MovedShows(data: Windows, h: seq<Samples>, d: Samples, k: string, n: nat)
    requires n >= 1 && Shows(data, h, k, n)
    ensures Shows(Moved(data, d, n), h + [d], k, n)
  {
    WindowShifts(h, d, k, n);
    if k !in data && k !in d {
      assert Flat(Entering(0, n));
    }
  }

  lemma {:induction false} NeverPrunedShows(h: seq<Samples>, n: nat, k: string)
    requires n >= 1
    ensures Shows(NeverPruned(h, n), h, k, n)
  {
    if h != [] {
      NeverPrunedShows(h[..|h| - 1], n, k);
      MovedShows(NeverPruned(h[..|h| - 1], n), h[..|h| - 1], h[|h| - 1], k, n);
      assert h[..|h| - 1] + [h[|h| - 1]] == h;
    }
  }

  /** Pruning is invisible: deleting names and adding them again later shows the same curves as never
      deleting any, and only flat curves are missing. */
  lemma PruningInvisible(h: seq<Samples>, n: nat, k: string)
    requires n >= 1
    ensures k in Ticks(h, n) <==> k in NeverPruned(h, n) && !Flat(NeverPruned(h, n)[k])
    ensures k in Ticks(h, n) ==> Ticks(h, n)[k] == NeverPruned(h, n)[k]
  {
    TicksAgree(h, n);
    NeverPrunedShows(h, n, k);
  }

  // ---------------------------------------------------------------------------------------
  // The code
  // ---------------------------------------------------------------------------------------

  predicate Watched(k: string) {
    "copy" <= k || "head" <= k || "null_sink" <= k || "null_source" <= k
  }

  method FilterDict(d: Samples) returns (ret: Samples)
    ensures forall k :: k in ret <==>
      k in d && ("copy" <= k || "head" <= k || "null_sink" <= k || "null_source" <= k)
    ensures forall k :: k in ret ==> ret[k] == d[k]
  {
    ret := map[];
    var todo := d.Keys;
    while todo != {}
      invariant todo <= d.Keys
      invariant forall k :: k in ret <==> k in d && k !in todo && Watched(k)
      invariant forall k :: k in ret ==> ret[k] == d[k]
      decreases |todo|
    {
      var k :| k in todo;
      if "copy" <= k {
        ret := ret[k := d[k]];
      } else if "head" <= k {
        ret := ret[k := d[k]];
      } else if "null_sink" <= k {
        ret := ret[k := d[k]];
      } else if "null_source" <= k {
        ret := ret[k := d[k]];
      }
      todo := todo - {k};
    }
  }

  /** The largest entry. */
  method Max(v: seq<nat>) returns (m: nat)
    requires v != []
    ensures m in v && forall i :: 0 <= i < |v| ==> v[i] <= m
  {
    m := v[0];
    for i := 1 to |v|
      invariant m in v && forall j :: 0 <= j < i ==> v[j] <= m
    {
      if v[i] > m { m := v[i]; }
    }
  }

  /** The names outside `todo` have been shifted and taken off the samples, the others not. */
  ghost predicate Updated(before: Windows, d0: Samples, data: Windows, d: Samples, todo: set<string>) {
    && todo <= before.Keys == data.Keys
    && (forall k :: k in before ==>
         data[k] == if k in todo then before[k] else Shifted(before[k], CountIn(d0, k)))
    && (forall k :: k in d <==> k in d0 && (k in todo || k !in before))
    && (forall k :: k in d ==> d[k] == d0[k])
  }

  lemma UpdatedNext(before: Windows, d0: Samples, data: Windows, d: Samples, todo: set<string>, k: string)
    requires Updated(before, d0, data, d, todo) && k in todo
    ensures Updated(before, d0, data[k := Shifted(data[k], CountIn(d, k))], d - {k}, todo - {k})
    ensures data[k] == before[k]
  {
  }

  class Plot {
    const nvals: nat
    var data: Windows
    var legend: set<string>
    ghost var history: seq<Samples>

    /** What is plotted is what the history says, and the legend names exactly the curves. */
    ghost predicate Valid()
      reads this
    {
      nvals >= 1 && legend == data.Keys && Agrees(data, history, nvals)
    }

    lemma WindowLengths()
      requires Valid()
      ensures forall k :: k in data ==> |data[k]| == nvals
    {
    }

    constructor (nvals: nat)
      requires nvals >= 1
      ensures Valid() && this.nvals == nvals && data == map[] && history == []
    {
      this.nvals, data, legend, history := nvals, map[], {}, [];
      new;
      TicksAgree([], nvals);
    }

    method UpdateOne(k: string, d0: Samples) returns (d: Samples)
      requires k in data && data[k] != []
      modifies this`data
      ensures data == old(data)[k := Shifted(old(data[k]), CountIn(d0, k))]
      ensures d == d0 - {k}
    {
      d := d0;
      var v := data[k];
      if k in d {
        data := data[k := v[1..] + [d[k]]];
        d := d - {k};
      } else {
        data := data[k := v[1..] + [0]];
        assert d == d - {k};
      }
    }

    /** The loop over the existing names: shift in the new count, or zero, and take the name off `d`. */
    method UpdateExisting(d0: Samples) returns (d: Samples)
      requires forall k :: k in data ==> data[k] != []
      modifies this`data
      ensures data.Keys == old(data.Keys)
      ensures forall k :: k in data ==> data[k] == Shifted(old(data[k]), CountIn(d0, k))
      ensures forall k :: k in d <==> k in d0 && k !in data
      ensures forall k :: k in d ==> d[k] == d0[k]
    {
      d := d0;
      var todo := data.Keys;
      while todo != {}
        invariant Updated(old(data), d0, data, d, todo)
        decreases |todo|
      {
        var k :| k in todo;
        UpdatedNext(old(data), d0, data, d, todo, k);
        d := UpdateOne(k, d);
        todo := todo - {k};
      }
    }

    method AddOne(k: string, x: nat)
      requires nvals >= 1 && legend == data.Keys
      modifies this`data, this`legend
      ensures legend == data.Keys && data == old(data)[k := Entering(x, nvals)]
    {
      legend := legend + {k};
      data := data[k := Entering(x, nvals)];
    }

    /** The loop over what is left in `d`: a curve of zeros with the new count at the end. */
    method AddNew(d: Samples)
      requires nvals >= 1 && legend == data.Keys && d.Keys !! data.Keys
      modifies this`data, this`legend
      ensures legend == data.Keys && forall k :: k in data <==> k in old(data) || k in d
      ensures forall k :: k in old(data) ==> data[k] == old(data[k])
      ensures forall k :: k in d ==> data[k] == Entering(d[k], nvals)
    {
      var todo := d.Keys;
      while todo != {}
        invariant todo <= d.Keys && legend == data.Keys
        invariant forall k :: k in data <==> k in old(data) || (k in d && k !in todo)
        invariant forall k :: k in old(data) ==> data[k] == old(data[k])
        invariant forall k :: k in d && k !in todo ==> data[k] == Entering(d[k], nvals)
        decreases |todo|
      {
        var k :| k in todo;
        AddOne(k, d[k]);
        todo := todo - {k};
      }
    }

    /** The loop that removes the curves whose maximum is zero. */
    method DeleteOutdated()
      requires legend == data.Keys && forall k :: k in data ==> data[k] != []
      modifies this`data, this`legend
      ensures legend == data.Keys && data == Pruned(old(data))
    {
      var todo := data.Keys;
      while todo != {}
        invariant todo <= data.Keys <= old(data.Keys) && legend == data.Keys
        invariant forall k :: k in old(data) && k !in todo ==> (k in data <==> !Flat(old(data[k])))
        invariant forall k :: k in data ==> data[k] == old(data[k])
        decreases |todo|
      {
        var k :| k in todo;
        var m := Max(data[k]);
        if m == 0 {
          legend := legend - {k};
          data := data - {k};
        }
        todo := todo - {k};
      }
      assert forall k :: k in data <==> k in Pruned(old(data));
    }

    /** `repaint` of the cache monitor. */
    method Repaint(d0: Samples)
      requires Valid()
      modifies this
      ensures Valid() && history == old(history) + [d0]
      ensures data == Tick(old(data), d0, nvals)
    {
      WindowLengths();
      var d := UpdateExisting(d0);
      AddNew(d);
      TwoLoopsMove(old(data), d0, d, data, nvals);
      DeleteOutdated();
      TickAgrees(old(data), history, d0, nvals);
      history := history + [d0];
    }

    /** `repaint` of the migration monitor: only the counts of the watched threads are plotted. */
    method RepaintWatched(d0: Samples)
      requires Valid()
      modifies this
      ensures Valid() && |history| == |old(history)| + 1 && old(history) <= history
      ensures forall k :: SampleAt(history, k, |old(history)|) == if Watched(k) then CountIn(d0, k) else 0
      ensures forall k :: k in data ==> Watched(k) || k in old(data)
    {
      var d := FilterDict(d0);
      Repaint(d);
    }
  }
}
