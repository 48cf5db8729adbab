/** The documentation a doxygen run left behind, and what names in it mean: a resolver without caches,
    parsing or object identities. */
module DoxyDocs {
  import opened Common
  import opened DoxyPaths

  datatype Cls = DoxyIndex | DoxyFunction | DoxyClass | DoxyFile | DoxyNamespace | DoxyGroup | DoxyFriend | DoxyOther

  /** A `cat` argument: one of the classes members are filtered by with `isinstance`. */
  datatype Cat = Base | CompMem | Compounds | Members | Exactly(cls: Cls)

  predicate Includes(cat: Cat, c: Cls) {
    match cat
    case Base => true
    case CompMem => c != DoxyIndex && c != DoxyOther
    case Compounds => c == DoxyClass || c == DoxyFile || c == DoxyNamespace || c == DoxyGroup
    case Members => c == DoxyFunction || c == DoxyFriend
    case Exactly(cls) => c == cls
  }

  /** The `kind` attribute of a compound or member definition. */
  datatype Kind =
    | Function | Class | File | Namespace | Group | Friend
    | Variable | Struct | Union | Define | Typedef | Enum | Dir | Page | Signal | SlotKind | Property
    | AnyOther(text: string)

  /** `get_cls`: the class that can parse the kind. */
  function GetCls(kind: Kind): Option<Cls> {
    match kind
    case Function => Some(DoxyFunction)
    case Class => Some(DoxyClass)
    case File => Some(DoxyFile)
    case Namespace => Some(DoxyNamespace)
    case Group => Some(DoxyGroup)
    case Friend => Some(DoxyFriend)
    case AnyOther(_) => None
    case _ => Some(DoxyOther)
  }

  datatype Entry = Entry(refid: string, name: string, kind: Kind)
  datatype MemberDef = MemberDef(name: string, kind: Kind)
  datatype Doc = Doc(groups: seq<string>, classes: seq<string>, sections: seq<seq<MemberDef>>)

  /** `index.xml` and, per refid, the file of the compound. */
  datatype Docs = Docs(index: seq<Entry>, file: string -> Doc)

  ghost predicate KindsKnown(d: Docs, r: string) {
    forall k :: 0 <= k < |Defs(d, r)| ==>
      GetCls(Defs(d, r)[k].kind).Some? && !Includes(Compounds, GetCls(Defs(d, r)[k].kind).value)
  }

  ghost predicate Indexed(d: Docs, r: string) {
    exists k :: 0 <= k < |d.index| && d.index[k].refid == r
  }

  ghost predicate InnerGroup(d: Docs, r: string) {
    exists o: string :: r in d.file(o).groups
  }

  ghost predicate InnerClass(d: Docs, r: string) {
    exists o: string :: r in d.file(o).classes
  }

  /** Kinds the index lists: compounds and what only `DoxyOther` parses. */
  predicate Indexable(kind: Kind) {
    GetCls(kind).Some? && (Includes(Compounds, GetCls(kind).value) || GetCls(kind).value == DoxyOther)
  }

  /** What doxygen guarantees: refids are unique, the index lists compounds and member definitions are none,
      all kinds are known, and a compound that the index does not list is not both an inner group and an
      inner class. */
  ghost predicate Sensible(d: Docs) {
    && (forall k :: 0 <= k < |d.index| ==> Indexable(d.index[k].kind))
    && (forall j, k :: 0 <= j < k < |d.index| ==> d.index[j].refid != d.index[k].refid)
    && (forall r: string :: KindsKnown(d, r))
    && (forall r: string :: !Indexed(d, r) ==> !(InnerGroup(d, r) && InnerClass(d, r)))
  }

  // ---------------------------------------------------------------------------------------
  // Items and their members
  // ---------------------------------------------------------------------------------------

  /** What an object stands for: the index, a compound, or a member definition of a compound. */
  datatype Item = Top | Compound(refid: string) | Def(owner: string, pos: nat)

  function Total<T>(parts: seq<seq<T>>): seq<T> {
    if parts == [] then [] else Total(parts[..|parts| - 1]) + parts[|parts| - 1]
  }

  function Defs(d: Docs, r: string): seq<MemberDef> {
    Total(d.file(r).sections)
  }

  function Find(index: seq<Entry>, r: string): (e: Option<Entry>)
    ensures e.Some? <==> exists k :: 0 <= k < |index| && index[k].refid == r
    ensures e.Some? ==> e.value in index && e.value.refid == r
  {
    if index == [] then None
    else if index[0].refid == r then Some(index[0])
    else
      var e := Find(index[1..], r);
      assert forall k :: 1 <= k < |index| ==> index[k] == index[1..][k - 1];
      e
  }

  /** An indexed compound has the class of its kind; any other was met as an inner group or class. */
  ghost function ClassOf(d: Docs, it: Item): Cls {
    match it
    case Top => DoxyIndex
    case Compound(r) =>
      var e := Find(d.index, r);
      if e.Some? then (if GetCls(e.value.kind).Some? then GetCls(e.value.kind).value else DoxyOther)
      else if InnerGroup(d, r) then DoxyGroup else DoxyClass
    case Def(r, pos) =>
      if pos < |Defs(d, r)| && GetCls(Defs(d, r)[pos].kind).Some? then GetCls(Defs(d, r)[pos].kind).value
      else DoxyOther
  }

  /** The name the parse data gives. Objects made from a refid have none, and the record parsed from their
      file has no attribute `name` either, so asking them is an error. The same holds for the index. */
  function NameOf(d: Docs, it: Item): Option<string> {
    match it
    case Top => None
    case Compound(r) =>
      var e := Find(d.index, r);
      if e.Some? then Some(e.value.name) else None
    case Def(r, pos) => Some(if pos < |Defs(d, r)| then Defs(d, r)[pos].name else "")
  }

  predicate HasName(defs: seq<MemberDef>, k: nat, name: string)
    requires k <= |defs|
  {
    exists j :: 0 <= j < k && defs[j].name == name
  }

  /** The definitions of a compound, the first of every name. */
  function FirstDefs(r: string, defs: seq<MemberDef>, k: nat): seq<Item>
    requires k <= |defs|
  {
    if k == 0 then []
    else FirstDefs(r, defs, k - 1) + (if HasName(defs, k - 1, defs[k - 1].name) then [] else [Def(r, k - 1)])
  }

  function AllCompounds(rs: seq<string>, k: nat): seq<Item>
    requires k <= |rs|
  {
    if k == 0 then [] else AllCompounds(rs, k - 1) + [Compound(rs[k - 1])]
  }

  ghost function CompoundMembers(d: Docs, r: string): seq<Item> {
    var doc, defs := d.file(r), Defs(d, r);
    match ClassOf(d, Compound(r))
    case DoxyGroup =>
      AllCompounds(doc.groups, |doc.groups|) + AllCompounds(doc.classes, |doc.classes|) + FirstDefs(r, defs, |defs|)
    case DoxyClass => FirstDefs(r, defs, |defs|)
    case DoxyFile => FirstDefs(r, defs, |defs|)
    case DoxyNamespace => FirstDefs(r, defs, |defs|)
    case _ => []
  }

  predicate IsHeader(name: string) {
    |name| >= 2 && name[|name| - 2..] == ".h"
  }

  /** What an index entry adds to the members of the index: files and namespaces with their contents
      first, and of the files only the headers. */
  ghost function Contribution(d: Docs, e: Entry): seq<Item> {
    if GetCls(e.kind) == Some(DoxyFile) then
      if IsHeader(e.name) then CompoundMembers(d, e.refid) + [Compound(e.refid)] else []
    else if GetCls(e.kind) == Some(DoxyNamespace) then CompoundMembers(d, e.refid) + [Compound(e.refid)]
    else [Compound(e.refid)]
  }

  ghost function IndexMembers(d: Docs, k: nat): seq<Item>
    requires k <= |d.index|
  {
    if k == 0 then [] else IndexMembers(d, k - 1) + Contribution(d, d.index[k - 1])
  }

  ghost function Contributions(d: Docs, k: nat): (parts: seq<seq<Item>>)
    requires k <= |d.index|
    ensures |parts| == k && forall j: nat :: j < k ==> parts[j] == Contribution(d, d.index[j])
  {
    seq(k, j requires 0 <= j < k => Contribution(d, d.index[j]))
  }

  lemma IndexMembersNext(d: Docs, k: nat)
    requires k < |d.index|
    ensures IndexMembers(d, k + 1) == IndexMembers(d, k) + Contribution(d, d.index[k])
  {
  }

  lemma {:induction false} IndexMembersTotal(d: Docs, k: nat)
    requires k <= |d.index|
    ensures IndexMembers(d, k) == Total(Contributions(d, k))
  {
    if k > 0 {
      IndexMembersTotal(d, k - 1);
      assert Contributions(d, k)[..k - 1] == Contributions(d, k - 1);
    }
  }

  ghost function MembersOf(d: Docs, it: Item): seq<Item> {
    match it
    case Top => IndexMembers(d, |d.index|)
    case Compound(r) => CompoundMembers(d, r)
    case Def(_, _) => []
  }

  // ---------------------------------------------------------------------------------------
  // The resolver
  // ---------------------------------------------------------------------------------------

  ghost function InCat(d: Docs, ms: seq<Item>, cat: Option<Cat>): seq<Item> {
    if cat.None? then ms
    else if ms == [] then []
    else
      var last := ms[|ms| - 1];
      InCat(d, ms[..|ms| - 1], cat) + if Includes(cat.value, ClassOf(d, last)) then [last] else []
  }

  function Named(d: Docs, ms: seq<Item>, name: string): seq<Item> {
    if ms == [] then []
    else
      var last := ms[|ms| - 1];
      Named(d, ms[..|ms| - 1], name) + if NameOf(d, last) == Some(name) then [last] else []
  }

  /** A result, or the exception raised instead. */
  datatype Lookup<T> = Found(value: T) | NoSuchMember | Duplicate | AttributeError

  function Unique<T>(ms: seq<T>): Lookup<T> {
    if ms == [] then NoSuchMember else if |ms| == 1 then Found(ms[0]) else Duplicate
  }

  ghost function Matches(d: Docs, it: Item, name: string, cat: Option<Cat>): seq<Item> {
    Named(d, InCat(d, MembersOf(d, it), cat), name)
  }

  /** Some of these have no name to ask for. */
  ghost predicate Nameless(d: Docs, ms: seq<Item>) {
    exists k :: 0 <= k < |ms| && NameOf(d, ms[k]).None?
  }

  /** One component: every member of the category is asked for its name, whatever is looked for. */
  ghost function Level(d: Docs, it: Item, name: string, cat: Option<Cat>): Lookup<Item> {
    if Nameless(d, InCat(d, MembersOf(d, it), cat)) then AttributeError else Unique(Matches(d, it, name, cat))
  }

  /** What is left to look up after the first component; a trailing `::` asks for nothing more. */
  predicate AtEnd(rest: seq<string>) {
    rest == [] || rest == [""]
  }

  /** Component by component, each filtered by the category and each required to be unambiguous. */
  ghost function Resolve(d: Docs, it: Item, bits: seq<string>, cat: Option<Cat>): Lookup<Item>
    requires bits != []
    decreases |bits|
  {
    var first := Level(d, it, bits[0], cat);
    if !first.Found? || AtEnd(bits[1..]) then first else Resolve(d, first.value, bits[1..], cat)
  }

  // ---------------------------------------------------------------------------------------
  // Facts about the resolver
  // ---------------------------------------------------------------------------------------

  lemma ResolveStep(d: Docs, it: Item, bits: seq<string>, rest: seq<string>, cat: Option<Cat>)
    requires bits != [] && bits[1..] == rest
    ensures var first := Level(d, it, bits[0], cat);
      Resolve(d, it, bits, cat) == if !first.Found? || AtEnd(rest) then first else Resolve(d, first.value, rest, cat)
  {
  }

  /** Going on with `bits` from what has been found. */
  ghost function ResolveFrom(d: Docs, found: Lookup<Item>, bits: seq<string>, cat: Option<Cat>): Lookup<Item>
    requires bits != []
  {
    match found
    case Found(x) => Resolve(d, x, bits, cat)
    case e => e
  }

  lemma ResolveFirst(d: Docs, it: Item, bits: seq<string>, rest: seq<string>, cat: Option<Cat>)
    requires bits != [] && bits[1..] == rest && rest != [] && !AtEnd(rest)
    ensures Resolve(d, it, bits, cat) == ResolveFrom(d, Level(d, it, bits[0], cat), rest, cat)
  {
    ResolveStep(d, it, bits, rest, cat);
  }

  lemma ResolveOne(d: Docs, it: Item, bit: string, ys: seq<string>, cat: Option<Cat>)
    requires ys != [] && ys != [""]
    ensures Resolve(d, it, [bit] + ys, cat) == ResolveFrom(d, Resolve(d, it, [bit], cat), ys, cat)
  {
    assert ([bit] + ys)[1..] == ys && ([bit] + ys)[0] == bit;
    ResolveFirst(d, it, [bit] + ys, ys, cat);
    ResolveStep(d, it, [bit], [], cat);
  }

  /** Looking up a path in two parts is looking up the whole path. */
  lemma {:induction false} ResolveInParts(d: Docs, it: Item, xs: seq<string>, ys: seq<string>, cat: Option<Cat>)
    requires xs != [] && ys != [] && ys != [""] && (|xs| > 1 ==> xs[|xs| - 1] != "")
    ensures Resolve(d, it, xs + ys, cat) == ResolveFrom(d, Resolve(d, it, xs, cat), ys, cat)
    decreases |xs|, 0
  {
    if |xs| == 1 {
      assert xs == [xs[0]];
      ResolveOne(d, it, xs[0], ys, cat);
    } else {
      var rest := xs[1..];
      assert (xs + ys)[0] == xs[0] && (xs + ys)[1..] == rest + ys;
      assert rest[|rest| - 1] != "" && !AtEnd(rest) && !AtEnd(rest + ys);
      ResolveFirst(d, it, xs, rest, cat);
      ResolveFirst(d, it, xs + ys, rest + ys, cat);
      FromInParts(d, Level(d, it, xs[0], cat), rest, ys, cat);
    }
  }

  lemma {:induction false} FromInParts(
    d: Docs, found: Lookup<Item>, xs: seq<string>, ys: seq<string>, cat: Option<Cat>)
    requires xs != [] && ys != [] && ys != [""] && xs[|xs| - 1] != ""
    ensures ResolveFrom(d, found, xs + ys, cat) == ResolveFrom(d, ResolveFrom(d, found, xs, cat), ys, cat)
    decreases |xs|, 1
  {
    if found.Found? { ResolveInParts(d, found.value, xs, ys, cat); }
  }

  lemma NamedSnoc(d: Docs, ms: seq<Item>, x: Item, name: string)
    ensures Named(d, ms + [x], name) == Named(d, ms, name) + if NameOf(d, x) == Some(name) then [x] else []
  {
    assert (ms + [x])[..|ms|] == ms;
  }

  lemma InCatSnoc(d: Docs, ms: seq<Item>, x: Item, cat: Cat)
    ensures InCat(d, ms + [x], Some(cat)) == InCat(d, ms, Some(cat)) + if Includes(cat, ClassOf(d, x)) then [x] else []
  {
    assert (ms + [x])[..|ms|] == ms;
  }

  lemma {:induction false} NamedInCat(d: Docs, ms: seq<Item>, name: string, cat: Option<Cat>)
    ensures |Named(d, InCat(d, ms, cat), name)| <= |Named(d, ms, name)|
    decreases |ms|
  {
    if cat.Some? && ms != [] {
      var init, last := ms[..|ms| - 1], ms[|ms| - 1];
      assert ms == init + [last];
      NamedInCat(d, init, name, cat);
      NamedSnoc(d, init, last, name);
      InCatSnoc(d, init, last, cat.value);
      if Includes(cat.value, ClassOf(d, last)) {
        NamedSnoc(d, InCat(d, init, cat), last, name);
      } else {
        assert InCat(d, ms, cat) == InCat(d, init, cat);
      }
    }
  }

  lemma HasNameNext(defs: seq<MemberDef>, k: nat, name: string)
    requires 0 < k <= |defs|
    ensures HasName(defs, k, name) <==> HasName(defs, k - 1, name) || defs[k - 1].name == name
  {
  }

  /** What definition `k - 1` adds to the members of some name. */
  lemma FirstDefNamed(d: Docs, r: string, defs: seq<MemberDef>, k: nat, name: string)
    requires defs == Defs(d, r) && 0 < k <= |defs|
    ensures |Named(d, FirstDefs(r, defs, k), name)| == |Named(d, FirstDefs(r, defs, k - 1), name)|
      + if defs[k - 1].name == name && !HasName(defs, k - 1, name) then 1 else 0
  {
    var before, it := FirstDefs(r, defs, k - 1), Def(r, k - 1);
    assert NameOf(d, it) == Some(defs[k - 1].name);
    NamedSnoc(d, before, it, name);
    assert before + [] == before;
  }

  /** Of every name exactly one definition is kept. */
  lemma {:induction false} FirstDefsNamed(d: Docs, r: string, defs: seq<MemberDef>, k: nat, name: string)
    requires defs == Defs(d, r) && k <= |defs|
    ensures |Named(d, FirstDefs(r, defs, k), name)| == if HasName(defs, k, name) then 1 else 0
    decreases k
  {
    if k == 0 {
      assert FirstDefs(r, defs, 0) == [];
    } else {
      FirstDefNamed(d, r, defs, k, name);
      FirstDefsNamed(d, r, defs, k - 1, name);
      HasNameNext(defs, k, name);
    }
  }

  lemma {:induction false} InCatFewer(d: Docs, ms: seq<Item>, cat: Option<Cat>, x: Item)
    ensures x in InCat(d, ms, cat) ==> x in ms
    decreases |ms|
  {
    if cat.Some? && ms != [] { InCatFewer(d, ms[..|ms| - 1], cat, x); }
  }

  lemma DefsAreNamed(d: Docs, r: string, cat: Option<Cat>)
    ensures !Nameless(d, InCat(d, FirstDefs(r, Defs(d, r), |Defs(d, r)|), cat))
  {
    var ms := FirstDefs(r, Defs(d, r), |Defs(d, r)|);
    forall k | 0 <= k < |InCat(d, ms, cat)|
      ensures NameOf(d, InCat(d, ms, cat)[k]).Some?
    {
      var x := InCat(d, ms, cat)[k];
      InCatFewer(d, ms, cat, x);
      FirstDefsOnly(r, Defs(d, r), |Defs(d, r)|, x);
    }
  }

  lemma {:induction false} FirstDefsOnly(r: string, defs: seq<MemberDef>, k: nat, x: Item)
    requires k <= |defs|
    ensures x in FirstDefs(r, defs, k) ==> x.Def?
  {
    if k > 0 { FirstDefsOnly(r, defs, k - 1, x); }
  }

  /** Overloads are no ambiguity: inside a class, file or namespace no name is a duplicate, whatever the
      category, and without a category every defined name is found. */
  lemma NoDuplicatesInside(d: Docs, r: string, name: string, cat: Option<Cat>)
    requires ClassOf(d, Compound(r)) in {DoxyClass, DoxyFile, DoxyNamespace}
    ensures var found := Resolve(d, Compound(r), [name], cat); found.Found? || found.NoSuchMember?
    ensures cat.None? ==> (Resolve(d, Compound(r), [name], cat).Found?
      <==> HasName(Defs(d, r), |Defs(d, r)|, name))
  {
    var ms := MembersOf(d, Compound(r));
    assert ms == FirstDefs(r, Defs(d, r), |Defs(d, r)|);
    FirstDefsNamed(d, r, Defs(d, r), |Defs(d, r)|, name);
    NamedInCat(d, ms, name, cat);
    assert |Matches(d, Compound(r), name, cat)| <= 1;
    DefsAreNamed(d, r, cat);
    assert AtEnd([name][1..]);
  }

  predicate Lists(e: Entry, r: string) {
    e.refid == r && (GetCls(e.kind) == Some(DoxyFile) ==> IsHeader(e.name))
  }

  lemma ContributionLists(d: Docs, j: nat, r: string)
    requires Sensible(d) && j < |d.index|
    ensures Compound(r) in Contribution(d, d.index[j]) <==> Lists(d.index[j], r)
  {
    var e := d.index[j];
    FirstDefsOnly(e.refid, Defs(d, e.refid), |Defs(d, e.refid)|, Compound(r));
    IndexedClass(d, j);
  }

  lemma IndexedClass(d: Docs, j: nat)
    requires Sensible(d) && j < |d.index|
    ensures Find(d.index, d.index[j].refid) == Some(d.index[j])
    ensures ClassOf(d, Compound(d.index[j].refid)) == GetCls(d.index[j].kind).value
  {
    var e := Find(d.index, d.index[j].refid);
    var k :| 0 <= k < |d.index| && d.index[k] == e.value;
    assert k == j;
  }

  ghost predicate Listed(d: Docs, k: nat, r: string)
    requires k <= |d.index|
  {
    exists j :: 0 <= j < k && Lists(d.index[j], r)
  }

  lemma {:induction false} InTotal<T>(parts: seq<seq<T>>, x: T)
    ensures x in Total(parts) <==> exists j :: 0 <= j < |parts| && x in parts[j]
    decreases |parts|
  {
    if parts != [] {
      var init := parts[..|parts| - 1];
      InTotal(init, x);
      forall j | 0 <= j < |parts| - 1
        ensures init[j] == parts[j]
      {
      }
    }
  }

  /** The index lists every compound that is not a file, and of the files exactly the headers. */
  lemma IndexListsHeaders(d: Docs, k: nat, r: string)
    requires Sensible(d) && k <= |d.index|
    ensures Compound(r) in IndexMembers(d, k) <==> Listed(d, k, r)
  {
    var parts := Contributions(d, k);
    IndexMembersTotal(d, k);
    InTotal(parts, Compound(r));
    forall j: nat | j < k
      ensures Compound(r) in parts[j] <==> Lists(d.index[j], r)
    {
      ContributionLists(d, j, r);
    }
  }

  lemma {:induction false} NoTopInCompounds(rs: seq<string>, k: nat)
    requires k <= |rs|
    ensures Top !in AllCompounds(rs, k)
  {
    if k > 0 { NoTopInCompounds(rs, k - 1); }
  }

  lemma NoTopInMembers(d: Docs, r: string)
    ensures Top !in CompoundMembers(d, r)
  {
    FirstDefsOnly(r, Defs(d, r), |Defs(d, r)|, Top);
    NoTopInCompounds(d.file(r).groups, |d.file(r).groups|);
    NoTopInCompounds(d.file(r).classes, |d.file(r).classes|);
  }

  /** Nothing has the index as a member. */
  lemma NoTop(d: Docs, it: Item, cat: Option<Cat>)
    ensures Top !in InCat(d, MembersOf(d, it), cat)
  {
    InCatFewer(d, MembersOf(d, it), cat, Top);
    if it.Compound? { NoTopInMembers(d, it.refid); }
    if it.Top? { NoTopInIndex(d); }
  }

  lemma NoTopInContribution(d: Docs, e: Entry)
    ensures Top !in Contribution(d, e)
  {
    NoTopInMembers(d, e.refid);
  }

  lemma NoTopInIndex(d: Docs)
    ensures Top !in IndexMembers(d, |d.index|)
  {
    var parts := Contributions(d, |d.index|);
    forall j: nat | j < |parts|
      ensures Top !in parts[j]
    {
      NoTopInContribution(d, d.index[j]);
    }
    InTotal(parts, Top);
    IndexMembersTotal(d, |d.index|);
  }

  // ---------------------------------------------------------------------------------------
  // When lookups fail with an AttributeError
  // ---------------------------------------------------------------------------------------

  /** Looking up `bits` at `it` gets to ask the members of `x` for component `k`. */
  ghost predicate Reached(d: Docs, it: Item, bits: seq<string>, cat: Option<Cat>, k: nat, x: Item)
    requires bits != []
    decreases k
  {
    if k == 0 then x == it
    else
      var first := Level(d, it, bits[0], cat);
      first.Found? && !AtEnd(bits[1..]) && Reached(d, first.value, bits[1..], cat, k - 1, x)
  }

  /** Among the members of `x` in the category is a compound that the index does not list. */
  ghost predicate HoldsUnindexed(d: Docs, x: Item, cat: Option<Cat>) {
    exists r: string :: Compound(r) in InCat(d, MembersOf(d, x), cat) && !Indexed(d, r)
  }

  lemma NamelessIff(d: Docs, x: Item, cat: Option<Cat>)
    ensures Nameless(d, InCat(d, MembersOf(d, x), cat)) <==> HoldsUnindexed(d, x, cat)
  {
    var ms := InCat(d, MembersOf(d, x), cat);
    NoTop(d, x, cat);
    if Nameless(d, ms) {
      var k :| 0 <= k < |ms| && NameOf(d, ms[k]).None?;
      assert ms[k] in ms;
      assert ms[k].Compound? && !Indexed(d, ms[k].refid);
    }
    if HoldsUnindexed(d, x, cat) {
      var r: string :| Compound(r) in ms && !Indexed(d, r);
      var k :| 0 <= k < |ms| && ms[k] == Compound(r);
      assert NameOf(d, ms[k]).None?;
    }
  }

  ghost predicate FailsAt(d: Docs, it: Item, bits: seq<string>, cat: Option<Cat>, k: nat, x: Item)
    requires bits != []
  {
    Reached(d, it, bits, cat, k, x) && HoldsUnindexed(d, x, cat)
  }

  /** A lookup fails with an AttributeError if and only if some level it reaches holds, in the category, a
      compound that the index does not list. */
  lemma {:induction false} FailsIff(d: Docs, it: Item, bits: seq<string>, cat: Option<Cat>)
    requires bits != []
    ensures Resolve(d, it, bits, cat) == AttributeError <==> exists k: nat, x: Item :: FailsAt(d, it, bits, cat, k, x)
    decreases |bits|
  {
    NamelessIff(d, it, cat);
    var first := Level(d, it, bits[0], cat);
    if HoldsUnindexed(d, it, cat) {
      assert FailsAt(d, it, bits, cat, 0, it);
    } else if first.Found? && !AtEnd(bits[1..]) {
      FailsIff(d, first.value, bits[1..], cat);
      FailsLater(d, it, bits, cat, first.value);
    } else {
      forall k: nat, x: Item
        ensures !FailsAt(d, it, bits, cat, k, x)
      {
        OnlyLevel(d, it, bits, cat, k, x);
      }
    }
  }

  lemma OnlyLevel(d: Docs, it: Item, bits: seq<string>, cat: Option<Cat>, k: nat, x: Item)
    requires bits != [] && !HoldsUnindexed(d, it, cat)
    requires !Level(d, it, bits[0], cat).Found? || AtEnd(bits[1..])
    ensures !FailsAt(d, it, bits, cat, k, x)
  {
  }

  lemma FailsNext(d: Docs, it: Item, bits: seq<string>, cat: Option<Cat>, next: Item, k: nat, x: Item)
    requires bits != [] && Level(d, it, bits[0], cat) == Found(next) && !AtEnd(bits[1..])
    ensures FailsAt(d, it, bits, cat, k + 1, x) <==> FailsAt(d, next, bits[1..], cat, k, x)
  {
  }

  lemma FailsLater(d: Docs, it: Item, bits: seq<string>, cat: Option<Cat>, next: Item)
    requires bits != [] && Level(d, it, bits[0], cat) == Found(next) && !AtEnd(bits[1..])
    requires !HoldsUnindexed(d, it, cat)
    ensures (exists k: nat, x: Item :: FailsAt(d, it, bits, cat, k, x))
      <==> (exists k: nat, x: Item :: FailsAt(d, next, bits[1..], cat, k, x))
  {
    if k: nat, x: Item :| FailsAt(d, it, bits, cat, k, x) {
      assert k > 0;
      FailsNext(d, it, bits, cat, next, k - 1, x);
      assert FailsAt(d, next, bits[1..], cat, k - 1, x);
    }
    if k: nat, x: Item :| FailsAt(d, next, bits[1..], cat, k, x) {
      FailsNext(d, it, bits, cat, next, k, x);
      assert FailsAt(d, it, bits, cat, k + 1, x);
    }
  }

  /** Every inner group and inner class of a group is in the index. */
  ghost predicate InnersIndexed(d: Docs) {
    forall o: string :: ClassOf(d, Compound(o)) == DoxyGroup ==> GroupIndexed(d, o)
  }

  ghost predicate GroupIndexed(d: Docs, o: string) {
    && (forall k :: 0 <= k < |d.file(o).groups| ==> Indexed(d, d.file(o).groups[k]))
    && (forall k :: 0 <= k < |d.file(o).classes| ==> Indexed(d, d.file(o).classes[k]))
  }

  ghost predicate NeverFails(d: Docs) {
    forall it: Item, bits: seq<string>, cat: Option<Cat> :: bits != [] ==> Resolve(d, it, bits, cat) != AttributeError
  }

  /** No lookup anywhere fails with an AttributeError if and only if the index lists every inner group and
      every inner class. */
  lemma NeverFailsIff(d: Docs)
    requires Sensible(d)
    ensures NeverFails(d) <==> InnersIndexed(d)
  {
    if InnersIndexed(d) {
      forall it: Item, bits: seq<string>, cat: Option<Cat> | bits != []
        ensures Resolve(d, it, bits, cat) != AttributeError
      {
        FailsIff(d, it, bits, cat);
        forall k: nat, x: Item
          ensures !FailsAt(d, it, bits, cat, k, x)
        {
          IndexedInside(d, x, cat);
        }
      }
    }
    if NeverFails(d) {
      forall o: string | ClassOf(d, Compound(o)) == DoxyGroup
        ensures GroupIndexed(d, o)
      {
        assert Resolve(d, Compound(o), [""], None) != AttributeError;
        NamelessIff(d, Compound(o), None);
        GroupHolds(d, o);
      }
    }
  }

  lemma {:induction false} InAllCompounds(rs: seq<string>, k: nat, r: string)
    requires k <= |rs|
    ensures Compound(r) in AllCompounds(rs, k) <==> exists j :: 0 <= j < k && rs[j] == r
  {
    if k > 0 { InAllCompounds(rs, k - 1, r); }
  }

  lemma GroupHolds(d: Docs, o: string)
    requires ClassOf(d, Compound(o)) == DoxyGroup && !HoldsUnindexed(d, Compound(o), None)
    ensures GroupIndexed(d, o)
  {
    var doc := d.file(o);
    forall k | 0 <= k < |doc.groups|
      ensures Indexed(d, doc.groups[k])
    {
      InAllCompounds(doc.groups, |doc.groups|, doc.groups[k]);
      assert Compound(doc.groups[k]) in InCat(d, MembersOf(d, Compound(o)), None);
    }
    forall k | 0 <= k < |doc.classes|
      ensures Indexed(d, doc.classes[k])
    {
      InAllCompounds(doc.classes, |doc.classes|, doc.classes[k]);
      assert Compound(doc.classes[k]) in InCat(d, MembersOf(d, Compound(o)), None);
    }
  }

  lemma IndexedInside(d: Docs, x: Item, cat: Option<Cat>)
    requires Sensible(d) && (x.Compound? && ClassOf(d, x) == DoxyGroup ==> GroupIndexed(d, x.refid))
    ensures !HoldsUnindexed(d, x, cat)
  {
    forall r: string | Compound(r) in InCat(d, MembersOf(d, x), cat)
      ensures Indexed(d, r)
    {
      InCatFewer(d, MembersOf(d, x), cat, Compound(r));
      if x.Top? { IndexListsHeaders(d, |d.index|, r); }
      if x.Compound? { IndexedMember(d, x.refid, r); }
    }
  }

  lemma IndexedMember(d: Docs, o: string, r: string)
    requires Compound(r) in CompoundMembers(d, o)
    requires ClassOf(d, Compound(o)) == DoxyGroup ==> GroupIndexed(d, o)
    ensures Indexed(d, r)
  {
    var doc := d.file(o);
    FirstDefsOnly(o, Defs(d, o), |Defs(d, o)|, Compound(r));
    InAllCompounds(doc.groups, |doc.groups|, r);
    InAllCompounds(doc.classes, |doc.classes|, r);
  }

  /** A lookup of a single component at the index itself never fails this way. */
  lemma IndexLevelNeverFails(d: Docs, name: string, cat: Option<Cat>)
    requires Sensible(d)
    ensures Level(d, Top, name, cat) != AttributeError
  {
    NamelessIff(d, Top, cat);
    IndexedInside(d, Top, cat);
  }

  /** One group, `G`, with one inner class that the index does not list. */
  function UnlistedClass(): Docs {
    Docs([Entry("g", "G", Group)], r => if r == "g" then Doc([], ["c"], []) else Doc([], [], []))
  }

  lemma UnlistedLevels(name: string)
    ensures Level(UnlistedClass(), Compound("g"), name, None) == AttributeError
    ensures Level(UnlistedClass(), Top, "G", None) == Found(Compound("g"))
  {
    var d := UnlistedClass();
    UnlistedIsSensible();
    assert d.index[0].refid == "g";
    UnlistedInside();
    NamelessIff(d, Compound("g"), None);
    assert IndexMembers(d, 1) == IndexMembers(d, 0) + [Compound("g")] == [Compound("g")];
    NamedSnoc(d, [], Compound("g"), "G");
    IndexLevelNeverFails(d, "G", None);
  }

  lemma UnlistedInside()
    ensures HoldsUnindexed(UnlistedClass(), Compound("g"), None)
  {
    var d := UnlistedClass();
    assert d.index[0].refid == "g";
    assert ClassOf(d, Compound("g")) == DoxyGroup;
    assert !Indexed(d, "c") && d.file("g").classes == ["c"];
    InAllCompounds(["c"], 1, "c");
    assert Compound("c") in InCat(d, MembersOf(d, Compound("g")), None);
  }

  /** In this documentation the lookup of any name inside `G` fails, from the index as well. */
  lemma UnlistedClassFails(name: string)
    ensures Sensible(UnlistedClass())
    ensures Resolve(UnlistedClass(), Compound("g"), [name], None) == AttributeError
    ensures name != "" ==> Resolve(UnlistedClass(), Top, ["G", name], None) == AttributeError
  {
    UnlistedIsSensible();
    UnlistedLevels(name);
    ResolveStep(UnlistedClass(), Compound("g"), [name], [], None);
    ResolveStep(UnlistedClass(), Top, ["G", name], [name], None);
  }

  lemma UnlistedIsSensible()
    ensures Sensible(UnlistedClass())
  {
    var d := UnlistedClass();
    forall r: string
      ensures KindsKnown(d, r) && !InnerGroup(d, r)
    {
      assert Defs(d, r) == [];
    }
  }

  // ---------------------------------------------------------------------------------------
  // Looking an object up by its own name
  // ---------------------------------------------------------------------------------------

  lemma {:induction false} NamedOnly(d: Docs, ms: seq<Item>, name: string, x: Item)
    ensures x in Named(d, ms, name) ==> NameOf(d, x) == Some(name)
    decreases |ms|
  {
    if ms != [] { NamedOnly(d, ms[..|ms| - 1], name, x); }
  }

  lemma {:induction false} FoundIsNamed(d: Docs, it: Item, bits: seq<string>, cat: Option<Cat>, x: Item)
    requires bits != [] && Resolve(d, it, bits, cat) == Found(x)
    ensures exists i :: 0 <= i < |bits| && NameOf(d, x) == Some(bits[i])
    decreases |bits|
  {
    var first := Level(d, it, bits[0], cat);
    if AtEnd(bits[1..]) {
      NamedOnly(d, InCat(d, MembersOf(d, it), cat), bits[0], x);
    } else {
      FoundIsNamed(d, first.value, bits[1..], cat, x);
      var i :| 0 <= i < |bits[1..]| && NameOf(d, x) == Some(bits[1..][i]);
      assert bits[i + 1] == bits[1..][i];
    }
  }

  /** A member is found under its own name if and only if the name holds no `::` and is unambiguous: one
      with a qualified name can never be found by it. */
  lemma FoundByOwnName(d: Docs, it: Item, x: Item, name: string, cat: Option<Cat>)
    requires NameOf(d, x) == Some(name)
    ensures Resolve(d, it, Split(name), cat) == Found(x)
      <==> (NoColons(name)
        && !HoldsUnindexed(d, it, cat) && Matches(d, it, name, cat) == [x])
  {
    NamelessIff(d, it, cat);
    SplitAlone(name);
    PlainMeans(name);
    if Plain(name, true) {
      assert AtEnd([name][1..]);
    } else if Resolve(d, it, Split(name), cat) == Found(x) {
      FoundIsNamed(d, it, Split(name), cat, x);
      var i :| 0 <= i < |Split(name)| && NameOf(d, x) == Some(Split(name)[i]);
      SplitPlain(name, i);
    }
  }
}
