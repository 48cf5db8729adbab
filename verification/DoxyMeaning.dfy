/** What the members of an object are and what a lookup answers, said in terms of positions, names, kinds
    and classes: the meaning of the resolver in `DoxyDocs`. */
module DoxyMeaning {
  import opened Common
  import opened DoxyDocs

  // ---------------------------------------------------------------------------------------
  // Categories
  // ---------------------------------------------------------------------------------------

  /** `out` holds the elements of `ms` at the positions `ps`, in their order. */
  ghost predicate Picked<T>(ms: seq<T>, ps: seq<nat>, out: seq<T>) {
    && |ps| == |out|
    && (forall i :: 0 <= i < |ps| ==> ps[i] < |ms| && out[i] == ms[ps[i]])
    && forall i, j :: 0 <= i < j < |ps| ==> ps[i] < ps[j]
  }

  /** `x` is an instance of the category. */
  ghost predicate Belongs(d: Docs, x: Item, cat: Option<Cat>) {
    match cat
    case None => true
    case Some(Base) => true
    case Some(CompMem) =>
      ClassOf(d, x) in {DoxyFunction, DoxyFriend, DoxyClass, DoxyFile, DoxyNamespace, DoxyGroup}
    case Some(Compounds) => ClassOf(d, x) in {DoxyClass, DoxyFile, DoxyNamespace, DoxyGroup}
    case Some(Members) => ClassOf(d, x) in {DoxyFunction, DoxyFriend}
    case Some(Exactly(c)) => ClassOf(d, x) == c
  }

  /** ... and has the name, if one is given. */
  ghost predicate Wanted(d: Docs, x: Item, cat: Option<Cat>, name: Option<string>) {
    Belongs(d, x, cat) && (name.Some? ==> NameOf(d, x) == name)
  }

  /** What the resolver makes of the members `ms`: those of a category, or those of it with a name. */
  ghost function Filtered(d: Docs, ms: seq<Item>, cat: Option<Cat>, name: Option<string>): seq<Item> {
    if name.None? then InCat(d, ms, cat) else Named(d, InCat(d, ms, cat), name.value)
  }

  ghost predicate WantedPicked(
    d: Docs, ms: seq<Item>, cat: Option<Cat>, name: Option<string>, ps: seq<nat>, out: seq<Item>)
  {
    Picked(ms, ps, out) && forall k: nat :: k < |ms| ==> (k in ps <==> Wanted(d, ms[k], cat, name))
  }

  lemma WantedNext(
    d: Docs, ms: seq<Item>, cat: Option<Cat>, name: Option<string>, ps: seq<nat>, out: seq<Item>, x: Item)
    requires WantedPicked(d, ms, cat, name, ps, out)
    ensures Wanted(d, x, cat, name) ==> WantedPicked(d, ms + [x], cat, name, ps + [|ms|], out + [x])
    ensures !Wanted(d, x, cat, name) ==> WantedPicked(d, ms + [x], cat, name, ps, out)
  {
    assert |ms| !in ps;
  }

  lemma BelongsIs(d: Docs, x: Item, cat: Cat)
    ensures Belongs(d, x, Some(cat)) <==> Includes(cat, ClassOf(d, x))
  {
  }

  lemma CategoryNext(d: Docs, ms: seq<Item>, x: Item, cat: Option<Cat>)
    ensures InCat(d, ms + [x], cat) == InCat(d, ms, cat) + if Belongs(d, x, cat) then [x] else []
  {
    if cat.Some? {
      BelongsIs(d, x, cat.value);
      InCatSnoc(d, ms, x, cat.value);
    }
  }

  lemma FilteredNext(d: Docs, ms: seq<Item>, x: Item, cat: Option<Cat>, name: Option<string>)
    ensures Wanted(d, x, cat, name) ==> Filtered(d, ms + [x], cat, name) == Filtered(d, ms, cat, name) + [x]
    ensures !Wanted(d, x, cat, name) ==> Filtered(d, ms + [x], cat, name) == Filtered(d, ms, cat, name)
  {
    CategoryNext(d, ms, x, cat);
    if name.Some? {
      NamedSnoc(d, InCat(d, ms, cat), x, name.value);
      assert Named(d, InCat(d, ms, cat), name.value) + [] == Named(d, InCat(d, ms, cat), name.value);
    }
    assert InCat(d, ms, cat) + [] == InCat(d, ms, cat);
  }

  /** The members of a category, or those of it with a name, are the members that are instances of it, and
      have the name, each as often as it is a member and in the order of the members. */
  lemma {:induction false} FilterPicks(d: Docs, ms: seq<Item>, cat: Option<Cat>, name: Option<string>)
    returns (ps: seq<nat>)
    ensures WantedPicked(d, ms, cat, name, ps, Filtered(d, ms, cat, name))
    decreases |ms|
  {
    if ms == [] {
      ps := [];
      NothingFiltered(d, cat, name);
    } else {
      var init, last := ms[..|ms| - 1], ms[|ms| - 1];
      assert ms == init + [last];
      ps := FilterPicks(d, init, cat, name);
      WantedNext(d, init, cat, name, ps, Filtered(d, init, cat, name), last);
      FilteredNext(d, init, last, cat, name);
      if Wanted(d, last, cat, name) { ps := ps + [|init|]; }
    }
  }

  lemma NothingFiltered(d: Docs, cat: Option<Cat>, name: Option<string>)
    ensures Filtered(d, [], cat, name) == []
  {
    assert InCat(d, [], cat) == [];
  }

  lemma CategoryHolds(d: Docs, ms: seq<Item>, cat: Option<Cat>, y: Item)
    ensures y in InCat(d, ms, cat) <==> y in ms && Belongs(d, y, cat)
  {
    var out := InCat(d, ms, cat);
    var ps := FilterPicks(d, ms, cat, None);
    if y in out {
      var i: nat :| i < |out| && out[i] == y;
      assert ps[i] in ps;
    }
    if y in ms && Belongs(d, y, cat) {
      var k: nat :| k < |ms| && ms[k] == y;
      var i: nat :| i < |ps| && ps[i] == k;
    }
  }

  // ---------------------------------------------------------------------------------------
  // One component
  // ---------------------------------------------------------------------------------------

  /** Member `j` of `x` is of the category and has the name. */
  ghost predicate Has(d: Docs, x: Item, name: string, cat: Option<Cat>, j: nat) {
    var ms := MembersOf(d, x);
    j < |ms| && Belongs(d, ms[j], cat) && NameOf(d, ms[j]) == Some(name)
  }

  /** ... and no other member is and has. */
  ghost predicate OnlyAt(d: Docs, x: Item, name: string, cat: Option<Cat>, j: nat) {
    Has(d, x, name, cat, j) && forall k: nat :: Has(d, x, name, cat, k) ==> k == j
  }

  /** Some member of the category has no name to ask for. */
  ghost predicate Unnamed(d: Docs, x: Item, cat: Option<Cat>) {
    exists y :: y in MembersOf(d, x) && Belongs(d, y, cat) && NameOf(d, y).None?
  }

  /** What asking `x` for a member called `name` comes to. */
  ghost predicate LevelSays(d: Docs, x: Item, name: string, cat: Option<Cat>, r: Lookup<Item>) {
    if Unnamed(d, x, cat) then r == AttributeError
    else
      match r
      case Found(y) => exists j: nat :: OnlyAt(d, x, name, cat, j) && MembersOf(d, x)[j] == y
      case NoSuchMember => forall j: nat :: !Has(d, x, name, cat, j)
      case Duplicate => exists j: nat, k: nat :: j < k && Has(d, x, name, cat, j) && Has(d, x, name, cat, k)
      case AttributeError => false
  }

  lemma NamelessIsUnnamed(d: Docs, x: Item, cat: Option<Cat>)
    ensures Nameless(d, InCat(d, MembersOf(d, x), cat)) <==> Unnamed(d, x, cat)
  {
    var ms, out := MembersOf(d, x), InCat(d, MembersOf(d, x), cat);
    if Nameless(d, out) {
      var k :| 0 <= k < |out| && NameOf(d, out[k]).None?;
      CategoryHolds(d, ms, cat, out[k]);
    }
    if Unnamed(d, x, cat) {
      var y :| y in ms && Belongs(d, y, cat) && NameOf(d, y).None?;
      CategoryHolds(d, ms, cat, y);
    }
  }

  /** A single component is found if exactly one position of the category has the name, is a duplicate if
      two have it, and is missing if none has; and a member without a name makes any of this an error. */
  lemma LevelIs(d: Docs, x: Item, name: string, cat: Option<Cat>)
    ensures LevelSays(d, x, name, cat, Level(d, x, name, cat))
  {
    NamelessIsUnnamed(d, x, cat);
    if !Unnamed(d, x, cat) {
      var ms, out := MembersOf(d, x), Matches(d, x, name, cat);
      var ps := FilterPicks(d, ms, cat, Some(name));
      forall k: nat
        ensures Has(d, x, name, cat, k) <==> k in ps
      {
        if k in ps { var i :| 0 <= i < |ps| && ps[i] == k; }
      }
      if |out| >= 2 {
        assert ps[0] in ps && ps[1] in ps;
        assert ps[0] < ps[1] && Has(d, x, name, cat, ps[0]) && Has(d, x, name, cat, ps[1]);
      } else if |out| == 1 {
        assert ps[0] in ps && OnlyAt(d, x, name, cat, ps[0]) && ms[ps[0]] == out[0];
      }
    }
  }

  /** Only one answer fits. */
  lemma LevelOnly(d: Docs, x: Item, name: string, cat: Option<Cat>, r: Lookup<Item>, r': Lookup<Item>)
    requires LevelSays(d, x, name, cat, r) && LevelSays(d, x, name, cat, r')
    ensures r == r'
  {
    if !Unnamed(d, x, cat) && r.Found? && r'.Found? {
      var j: nat :| OnlyAt(d, x, name, cat, j) && MembersOf(d, x)[j] == r.value;
    }
  }

  // ---------------------------------------------------------------------------------------
  // Paths
  // ---------------------------------------------------------------------------------------

  /** The components that are asked for: all, but for an empty one at the end of a longer path. */
  function Asked(bits: seq<string>): (names: seq<string>)
    requires bits != []
    ensures names != []
  {
    if |bits| > 1 && bits[|bits| - 1] == "" then bits[..|bits| - 1] else bits
  }

  /** Looking up `names` at `xs[0]` reaches the levels `xs`: each is what the level before it found, and the
      last one decides. It is the level of the last name, or one at which the lookup fails. */
  ghost predicate PathSays(d: Docs, names: seq<string>, cat: Option<Cat>, xs: seq<Item>, r: Lookup<Item>) {
    && 1 <= |xs| <= |names|
    && (forall k: nat :: k + 1 < |xs| ==> LevelSays(d, xs[k], names[k], cat, Found(xs[k + 1])))
    && LevelSays(d, xs[|xs| - 1], names[|xs| - 1], cat, r)
    && (r.Found? ==> |xs| == |names|)
  }

  /** The resolver's answer is that of the first level that fails, or of the last one. */
  lemma {:induction false} PathIs(d: Docs, it: Item, bits: seq<string>, cat: Option<Cat>) returns (xs: seq<Item>)
    requires bits != []
    ensures PathSays(d, Asked(bits), cat, xs, Resolve(d, it, bits, cat)) && xs[0] == it
    decreases |bits|
  {
    LevelIs(d, it, bits[0], cat);
    var first := Level(d, it, bits[0], cat);
    ResolveStep(d, it, bits, bits[1..], cat);
    if !first.Found? || AtEnd(bits[1..]) {
      xs := [it];
    } else {
      var rest := PathIs(d, first.value, bits[1..], cat);
      AskedRest(bits);
      xs := [it] + rest;
      PathLonger(d, Asked(bits), cat, it, rest, Resolve(d, it, bits, cat));
    }
  }

  lemma AskedRest(bits: seq<string>)
    requires bits != [] && !AtEnd(bits[1..])
    ensures bits[1..] != [] && Asked(bits)[0] == bits[0] && Asked(bits)[1..] == Asked(bits[1..])
  {
  }

  lemma PathLonger(d: Docs, names: seq<string>, cat: Option<Cat>, it: Item, rest: seq<Item>, r: Lookup<Item>)
    requires names != [] && PathSays(d, names[1..], cat, rest, r)
    requires LevelSays(d, it, names[0], cat, Found(rest[0]))
    ensures PathSays(d, names, cat, [it] + rest, r)
  {
    var xs := [it] + rest;
    forall k: nat | k + 1 < |xs|
      ensures LevelSays(d, xs[k], names[k], cat, Found(xs[k + 1]))
    {
      if k > 0 { assert LevelSays(d, rest[k - 1], names[1..][k - 1], cat, Found(rest[k - 1 + 1])); }
    }
  }

  lemma PathShorter(d: Docs, names: seq<string>, cat: Option<Cat>, xs: seq<Item>, r: Lookup<Item>)
    requires PathSays(d, names, cat, xs, r) && |xs| > 1
    ensures PathSays(d, names[1..], cat, xs[1..], r) && LevelSays(d, xs[0], names[0], cat, Found(xs[1]))
  {
    var rest := xs[1..];
    assert LevelSays(d, xs[0], names[0], cat, Found(xs[0 + 1]));
    forall k: nat | k + 1 < |rest|
      ensures LevelSays(d, rest[k], names[1..][k], cat, Found(rest[k + 1]))
    {
      assert LevelSays(d, xs[k + 1], names[k + 1], cat, Found(xs[(k + 1) + 1]));
    }
  }

  /** ... and no other answer has such levels. */
  lemma {:induction false} PathOnly(
    d: Docs, it: Item, bits: seq<string>, cat: Option<Cat>, xs: seq<Item>, r: Lookup<Item>)
    requires bits != [] && PathSays(d, Asked(bits), cat, xs, r) && xs[0] == it
    ensures r == Resolve(d, it, bits, cat)
    decreases |bits|
  {
    LevelIs(d, it, bits[0], cat);
    var first := Level(d, it, bits[0], cat);
    ResolveStep(d, it, bits, bits[1..], cat);
    if |xs| == 1 {
      LevelOnly(d, it, bits[0], cat, r, first);
    } else {
      PathShorter(d, Asked(bits), cat, xs, r);
      LevelOnly(d, it, bits[0], cat, Found(xs[1]), first);
      AskedRest(bits);
      PathOnly(d, xs[1], bits[1..], cat, xs[1..], r);
    }
  }

  // ---------------------------------------------------------------------------------------
  // The members of the index
  // ---------------------------------------------------------------------------------------

  predicate EndsInH(name: string) {
    |name| >= 2 && name[|name| - 2] == '.' && name[|name| - 1] == 'h'
  }

  /** The contents of headers and namespaces are members of the index. */
  predicate Opened(e: Entry) {
    e.kind == Namespace || (e.kind == File && EndsInH(e.name))
  }

  /** The members of the index that stand for entry `e`: nothing for a file that is no header, the members of
      a header or namespace followed by itself, and the compound alone for anything else. */
  ghost predicate Stands(d: Docs, e: Entry, part: seq<Item>) {
    if Opened(e) then
      && |part| == |MembersOf(d, Compound(e.refid))| + 1 && part[|part| - 1] == Compound(e.refid)
      && forall i :: 0 <= i < |part| - 1 ==> part[i] == MembersOf(d, Compound(e.refid))[i]
    else part == if e.kind == File then [] else [Compound(e.refid)]
  }

  /** Entry `k` of the index stands at positions `cuts[k]` to `cuts[k + 1]`. */
  ghost predicate StandsAt(d: Docs, ms: seq<Item>, cuts: seq<nat>, k: nat) {
    && k < |d.index| && k + 1 < |cuts| && cuts[k] <= cuts[k + 1] <= |ms|
    && Stands(d, d.index[k], ms[cuts[k]..cuts[k + 1]])
  }

  /** One group after the other, in the order of the index, and nothing else. */
  ghost predicate Laid(d: Docs, n: nat, ms: seq<Item>, cuts: seq<nat>) {
    && n <= |d.index| && |cuts| == n + 1 && cuts[0] == 0 && cuts[n] == |ms|
    && forall k: nat :: k < n ==> StandsAt(d, ms, cuts, k)
  }

  lemma ContributionStands(d: Docs, e: Entry)
    requires Sensible(d) && e in d.index
    ensures Stands(d, e, Contribution(d, e))
  {
  }

  lemma LaidNext(d: Docs, n: nat, ms: seq<Item>, cuts: seq<nat>, part: seq<Item>, ms': seq<Item>)
    requires Laid(d, n, ms, cuts) && n < |d.index| && Stands(d, d.index[n], part) && ms' == ms + part
    ensures Laid(d, n + 1, ms', cuts + [|ms'|])
  {
    var cuts' := cuts + [|ms'|];
    forall k: nat | k < n + 1
      ensures StandsAt(d, ms', cuts', k)
    {
      if k < n {
        assert StandsAt(d, ms, cuts, k);
        assert ms'[cuts'[k]..cuts'[k + 1]] == ms[cuts[k]..cuts[k + 1]];
      } else {
        assert ms'[cuts'[n]..cuts'[n + 1]] == part;
      }
    }
  }

  lemma IndexLaidNext(d: Docs, n: nat, cuts: seq<nat>) returns (cuts': seq<nat>)
    requires Sensible(d) && 0 < n <= |d.index| && Laid(d, n - 1, IndexMembers(d, n - 1), cuts)
    ensures Laid(d, n, IndexMembers(d, n), cuts')
  {
    ContributionStands(d, d.index[n - 1]);
    IndexMembersNext(d, n - 1);
    LaidNext(d, n - 1, IndexMembers(d, n - 1), cuts, Contribution(d, d.index[n - 1]), IndexMembers(d, n));
    cuts' := cuts + [|IndexMembers(d, n)|];
  }

  lemma NothingLaid(d: Docs)
    ensures Laid(d, 0, IndexMembers(d, 0), [0])
  {
    assert IndexMembers(d, 0) == [];
  }

  /** The index has a group of members for every entry, in the order of the entries. */
  lemma {:induction false} IndexLaid(d: Docs, n: nat) returns (cuts: seq<nat>)
    requires Sensible(d) && n <= |d.index|
    ensures Laid(d, n, IndexMembers(d, n), cuts)
  {
    if n == 0 {
      NothingLaid(d);
      cuts := [0];
    } else {
      cuts := IndexLaid(d, n - 1);
      cuts := IndexLaidNext(d, n, cuts);
    }
  }

  /** `x` is a member of the index on account of entry `e`. */
  ghost predicate Through(d: Docs, e: Entry, x: Item) {
    || (x == Compound(e.refid) && (e.kind == File ==> EndsInH(e.name)))
    || (Opened(e) && x in MembersOf(d, Compound(e.refid)))
  }

  lemma StandsHolds(d: Docs, e: Entry, part: seq<Item>, x: Item)
    requires Stands(d, e, part)
    ensures x in part <==> Through(d, e, x)
  {
    if Opened(e) {
      var ms := MembersOf(d, Compound(e.refid));
      if x in ms {
        var i :| 0 <= i < |ms| && ms[i] == x;
        assert part[i] == x;
      }
    }
  }

  /** The members of the index are the compounds it lists, but for files that are no headers, and the members
      of the headers and namespaces it lists. */
  lemma IndexHolds(d: Docs, x: Item)
    requires Sensible(d)
    ensures x in MembersOf(d, Top) <==> exists k :: 0 <= k < |d.index| && Through(d, d.index[k], x)
  {
    var n, ms := |d.index|, MembersOf(d, Top);
    var parts := Contributions(d, n);
    IndexMembersTotal(d, n);
    InTotal(parts, x);
    forall k: nat | k < n
      ensures x in parts[k] <==> Through(d, d.index[k], x)
    {
      ContributionStands(d, d.index[k]);
      StandsHolds(d, d.index[k], parts[k], x);
    }
  }

  // ---------------------------------------------------------------------------------------
  // The members of compounds
  // ---------------------------------------------------------------------------------------

  /** No definition before `k` has its name. */
  predicate First(defs: seq<MemberDef>, k: nat) {
    k < |defs| && forall j :: 0 <= j < k ==> defs[j].name != defs[k].name
  }

  /** `ms` are the definitions that `r` keeps: those at the ascending positions `ps`, the first of every name. */
  ghost predicate FirstOnes(r: string, defs: seq<MemberDef>, n: nat, ms: seq<Item>, ps: seq<nat>) {
    && |ps| == |ms| && (forall i :: 0 <= i < |ps| ==> ms[i] == Def(r, ps[i]))
    && (forall i, j :: 0 <= i < j < |ps| ==> ps[i] < ps[j])
    && forall k: nat :: k in ps <==> k < n && First(defs, k)
  }

  lemma KeptNext(r: string, defs: seq<MemberDef>, n: nat, ms: seq<Item>, ps: seq<nat>)
    requires n < |defs| && FirstOnes(r, defs, n, ms, ps)
    ensures First(defs, n) ==> FirstOnes(r, defs, n + 1, ms + [Def(r, n)], ps + [n])
    ensures !First(defs, n) ==> FirstOnes(r, defs, n + 1, ms, ps)
  {
    forall i | 0 <= i < |ps|
      ensures ps[i] < n
    {
      assert ps[i] in ps;
    }
  }

  lemma FirstDefsNext(r: string, defs: seq<MemberDef>, n: nat)
    requires n < |defs|
    ensures First(defs, n) ==> FirstDefs(r, defs, n + 1) == FirstDefs(r, defs, n) + [Def(r, n)]
    ensures !First(defs, n) ==> FirstDefs(r, defs, n + 1) == FirstDefs(r, defs, n)
  {
    assert First(defs, n) <==> !HasName(defs, n, defs[n].name);
    assert FirstDefs(r, defs, n) + [] == FirstDefs(r, defs, n);
  }

  lemma {:induction false} DefsKept(r: string, defs: seq<MemberDef>, n: nat) returns (ps: seq<nat>)
    requires n <= |defs|
    ensures FirstOnes(r, defs, n, FirstDefs(r, defs, n), ps)
  {
    if n == 0 {
      ps := [];
    } else {
      var k := n - 1;
      ps := DefsKept(r, defs, k);
      KeptNext(r, defs, k, FirstDefs(r, defs, k), ps);
      FirstDefsNext(r, defs, k);
      if First(defs, k) { ps := ps + [k]; }
    }
  }

  /** What a compound's members are: of a group its inner groups, its inner classes and its definitions, of a
      class, file or namespace its definitions, and of anything else nothing. */
  ghost predicate CompoundLaid(d: Docs, r: string, ms: seq<Item>, ps: seq<nat>) {
    var doc, defs := d.file(r), Defs(d, r);
    var g, c := |doc.groups|, |doc.classes|;
    match ClassOf(d, Compound(r))
    case DoxyGroup =>
      && |ms| == g + c + |ps|
      && (forall i :: 0 <= i < g ==> ms[i] == Compound(doc.groups[i]))
      && (forall i :: 0 <= i < c ==> ms[g + i] == Compound(doc.classes[i]))
      && FirstOnes(r, defs, |defs|, ms[g + c..], ps)
    case DoxyClass => FirstOnes(r, defs, |defs|, ms, ps)
    case DoxyFile => FirstOnes(r, defs, |defs|, ms, ps)
    case DoxyNamespace => FirstOnes(r, defs, |defs|, ms, ps)
    case _ => ms == []
  }

  lemma {:induction false} CompoundsAt(rs: seq<string>, k: nat)
    requires k <= |rs|
    ensures |AllCompounds(rs, k)| == k && forall i :: 0 <= i < k ==> AllCompounds(rs, k)[i] == Compound(rs[i])
  {
    if k > 0 { CompoundsAt(rs, k - 1); }
  }

  lemma CompoundMembersLaid(d: Docs, r: string) returns (ps: seq<nat>)
    ensures CompoundLaid(d, r, MembersOf(d, Compound(r)), ps)
  {
    var doc, defs := d.file(r), Defs(d, r);
    ps := DefsKept(r, defs, |defs|);
    if ClassOf(d, Compound(r)) == DoxyGroup {
      CompoundsAt(doc.groups, |doc.groups|);
      CompoundsAt(doc.classes, |doc.classes|);
      assert MembersOf(d, Compound(r))[|doc.groups| + |doc.classes|..] == FirstDefs(r, defs, |defs|);
    }
  }

  /** Where section `k` of a compound begins among its definitions. */
  function Offset<T>(parts: seq<seq<T>>, k: nat): nat
    requires k <= |parts|
  {
    if k == 0 then 0 else Offset(parts, k - 1) + |parts[k - 1]|
  }

  /** The definitions of a compound are those of its sections, one section after the other. */
  lemma {:induction false} SectionsInOrder<T>(parts: seq<seq<T>>, k: nat, j: nat)
    requires k < |parts| && j < |parts[k]|
    ensures |Total(parts)| == Offset(parts, |parts|) && Offset(parts, k) + j < |Total(parts)|
    ensures Total(parts)[Offset(parts, k) + j] == parts[k][j]
    decreases |parts|
  {
    var init := parts[..|parts| - 1];
    TotalLength(parts);
    TotalLength(init);
    OffsetPrefix(parts, init, |init|);
    if k < |init| {
      OffsetPrefix(parts, init, k);
      SectionsInOrder(init, k, j);
    }
  }

  lemma {:induction false} TotalLength<T>(parts: seq<seq<T>>)
    ensures |Total(parts)| == Offset(parts, |parts|)
    decreases |parts|
  {
    if parts != [] {
      var init := parts[..|parts| - 1];
      TotalLength(init);
      OffsetPrefix(parts, init, |init|);
    }
  }

  lemma {:induction false} OffsetPrefix<T>(parts: seq<seq<T>>, init: seq<seq<T>>, k: nat)
    requires init <= parts && k <= |init|
    ensures Offset(parts, k) == Offset(init, k)
  {
    if k > 0 { OffsetPrefix(parts, init, k - 1); }
  }

  // ---------------------------------------------------------------------------------------
  // Classes and names
  // ---------------------------------------------------------------------------------------

  /** A listed compound has the class of its kind and the name the index gives. */
  lemma EntryIs(d: Docs, k: nat)
    requires Sensible(d) && k < |d.index|
    ensures NameOf(d, Compound(d.index[k].refid)) == Some(d.index[k].name)
    ensures var c, kind := ClassOf(d, Compound(d.index[k].refid)), d.index[k].kind;
      && (c == DoxyClass <==> kind == Class) && (c == DoxyFile <==> kind == File)
      && (c == DoxyNamespace <==> kind == Namespace) && (c == DoxyGroup <==> kind == Group)
      && (c == DoxyOther <==> kind !in {Class, File, Namespace, Group})
  {
    IndexedClass(d, k);
  }

  /** A compound met only inside groups has the class of the list it is in, and no name. */
  lemma InnerIs(d: Docs, o: string, r: string)
    requires Sensible(d) && !Indexed(d, r)
    ensures NameOf(d, Compound(r)) == None
    ensures r in d.file(o).groups ==> ClassOf(d, Compound(r)) == DoxyGroup
    ensures r in d.file(o).classes ==> ClassOf(d, Compound(r)) == DoxyClass
  {
  }

  /** A member definition has the class of its kind and its own name. */
  lemma DefIs(d: Docs, r: string, k: nat)
    requires Sensible(d) && k < |Defs(d, r)|
    ensures NameOf(d, Def(r, k)) == Some(Defs(d, r)[k].name) && MembersOf(d, Def(r, k)) == []
    ensures var c, kind := ClassOf(d, Def(r, k)), Defs(d, r)[k].kind;
      && (c == DoxyFunction <==> kind == Function) && (c == DoxyFriend <==> kind == Friend)
      && (c == DoxyOther <==> kind !in {Function, Friend})
  {
    assert KindsKnown(d, r);
  }
}
