/** Splitting names at `::`, from left to right and without overlaps, and joining them again. */
module DoxyPaths {

  predicate SepAt(s: string, i: nat) {
    i + 2 <= |s| && s[i] == ':' && s[i + 1] == ':'
  }

  /** The first separator from position `i` on, or the end of the string. */
  function FindSep(s: string, i: nat): (r: nat)
    requires i <= |s|
    ensures i <= r <= |s| && forall j :: i <= j < r ==> !SepAt(s, j)
    ensures r < |s| ==> SepAt(s, r)
    decreases |s| - i
  {
    if i == |s| || SepAt(s, i) then i else FindSep(s, i + 1)
  }

  function Split(s: string): (bits: seq<string>)
    ensures |bits| >= 1
    decreases |s|
  {
    var k := FindSep(s, 0);
    if k == |s| then [s] else [s[..k]] + Split(s[k + 2..])
  }

  function Join(bits: seq<string>): string {
    if bits == [] then "" else if |bits| == 1 then bits[0] else bits[0] + "::" + Join(bits[1..])
  }

  lemma {:induction false} JoinSplit(s: string)
    ensures Join(Split(s)) == s
    decreases |s|
  {
    var k := FindSep(s, 0);
    if k < |s| {
      JoinSplit(s[k + 2..]);
      assert Split(s)[1..] == Split(s[k + 2..]);
      assert s == s[..k] + "::" + s[k + 2..];
    }
  }

  /** The rest of a path, joined and split again, is the rest of the path: so a lookup that recurses on
      the joined rest recurses on the remaining components. */
  lemma RestSplits(s: string)
    ensures var bits := Split(s); |bits| > 1 ==> Split(Join(bits[1..])) == bits[1..] && |Join(bits[1..])| < |s|
    ensures var bits := Split(s); Join(bits[1..]) == "" <==> bits[1..] == [] || bits[1..] == [""]
  {
    var k := FindSep(s, 0);
    if k < |s| {
      assert Split(s)[1..] == Split(s[k + 2..]);
      JoinSplit(s[k + 2..]);
    }
  }

  /** A component that survives: no separator inside, and no colon before the separator that follows. */
  predicate Plain(bit: string, last: bool) {
    (forall j: nat :: j < |bit| ==> !SepAt(bit, j)) && (!last && bit != "" ==> bit[|bit| - 1] != ':')
  }

  /** No two colons in a row. */
  predicate NoColons(s: string) {
    forall j :: 0 <= j < |s| - 1 ==> s[j] != ':' || s[j + 1] != ':'
  }

  lemma PlainMeans(s: string)
    ensures Plain(s, true) <==> NoColons(s)
  {
    if Plain(s, true) {
      forall j: nat | j < |s| - 1
        ensures s[j] != ':' || s[j + 1] != ':'
      {
        assert !SepAt(s, j);
      }
    }
    if NoColons(s) {
      forall j: nat | j < |s|
        ensures !SepAt(s, j)
      {
        if j + 1 < |s| { assert s[j] != ':' || s[j + 1] != ':'; }
      }
    }
  }

  /** No component of a split name holds a separator. */
  lemma {:induction false} SplitPlain(s: string, i: nat)
    requires i < |Split(s)|
    ensures Plain(Split(s)[i], true)
    decreases |s|
  {
    var k := FindSep(s, 0);
    if k < |s| && i > 0 {
      SplitPlain(s[k + 2..], i - 1);
    } else {
      forall j: nat | j < k
        ensures !SepAt(s[..k], j)
      {
        assert !SepAt(s, j);
      }
    }
  }

  lemma FirstSep(bit: string, rest: string)
    ensures FindSep(bit + "::" + rest, 0) == |bit| <==> Plain(bit, false)
  {
    var s := bit + "::" + rest;
    var k := FindSep(s, 0);
    assert SepAt(s, |bit|);
    if Plain(bit, false) {
      forall j: nat | j < |bit|
        ensures !SepAt(s, j)
      {
        assert !SepAt(bit, j);
      }
    } else if bit != "" && bit[|bit| - 1] == ':' {
      assert SepAt(s, |bit| - 1);
    } else {
      var j: nat :| j < |bit| && SepAt(bit, j);
      assert SepAt(s, j);
    }
  }

  /** A plain component is split off in front of a separator, anything else is not. */
  lemma SplitFront(b: string, rest: string)
    ensures Plain(b, false) ==> Split(b + "::" + rest) == [b] + Split(rest)
    ensures !Plain(b, false) ==> Split(b + "::" + rest)[0] != b
  {
    FirstSep(b, rest);
    var s := b + "::" + rest;
    var k := FindSep(s, 0);
    assert SepAt(s, |b|);
    if k == |b| {
      assert s[..k] == b && s[k + 2..] == rest;
    } else {
      assert |Split(s)[0]| == k;
    }
  }

  /** Exactly the lists of plain components come back from joining and splitting. */
  lemma {:induction false} SplitJoin(bits: seq<string>)
    requires bits != []
    ensures Split(Join(bits)) == bits <==> forall i :: 0 <= i < |bits| ==> Plain(bits[i], i == |bits| - 1)
    decreases |bits|
  {
    var b := bits[0];
    if |bits| == 1 {
      SplitAlone(b);
      assert bits == [b];
    } else {
      var rest := bits[1..];
      SplitJoin(rest);
      SplitFront(b, Join(rest));
      if Plain(b, false) {
        assert bits == [b] + rest;
        PlainTail(bits);
      } else {
        assert !Plain(bits[0], 0 == |bits| - 1);
      }
    }
  }

  lemma SplitAlone(b: string)
    ensures Split(b) == [b] <==> Plain(b, true)
  {
    var k := FindSep(b, 0);
    if Plain(b, true) {
      assert SepAt(b, k) ==> k >= |b|;
    } else {
      var j: nat :| j < |b| && SepAt(b, j);
      assert |Split(b)| > 1;
    }
  }

  lemma PlainTail(bits: seq<string>)
    requires |bits| > 1 && Plain(bits[0], false)
    ensures (forall i :: 0 <= i < |bits| ==> Plain(bits[i], i == |bits| - 1))
      <==> (forall i :: 0 <= i < |bits[1..]| ==> Plain(bits[1..][i], i == |bits[1..]| - 1))
  {
    var rest := bits[1..];
    if forall i :: 0 <= i < |rest| ==> Plain(rest[i], i == |rest| - 1) {
      forall i | 0 <= i < |bits|
        ensures Plain(bits[i], i == |bits| - 1)
      {
        if i > 0 { assert Plain(rest[i - 1], i - 1 == |rest| - 1); }
      }
    }
    if forall i :: 0 <= i < |bits| ==> Plain(bits[i], i == |bits| - 1) {
      forall i | 0 <= i < |rest|
        ensures Plain(rest[i], i == |rest| - 1)
      {
        assert Plain(bits[i + 1], i + 1 == |bits| - 1);
      }
    }
  }
}
