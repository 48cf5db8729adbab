/** The object graph over the documentation: objects are parsed when they are first asked for something,
    compounds are found again by refid, and the members of an object are cached per category. Objects
    are indices into the table of their tree. */
module DoxyTree {
  import opened Common
  import opened DoxyPaths
  import opened DoxyDocs
  import opened DoxyMeaning

  /** What a name is mapped to: a member, or the mark for a name that several members have. */
  datatype Slot = One(id: nat) | Many

  datatype Obj = Obj(
    cls: Cls,
    refid: Option<string>,
    parseName: Option<string>, // the name in the parse data, if there is parse data
    parsed: bool,
    members: seq<nat>,
    inCategory: map<Cat, seq<nat>>,
    dictMembers: map<Option<Cat>, map<string, Slot>>)

  function Unparsed(cls: Cls, refid: Option<string>, parseName: Option<string>): Obj {
    Obj(cls, refid, parseName, false, [], map[], map[])
  }

  ghost predicate Within(ids: seq<nat>, n: nat) {
    forall k :: 0 <= k < |ids| ==> ids[k] < n
  }

  ghost function ItemsOf(ids: seq<nat>, items: seq<Item>): seq<Item>
    requires Within(ids, |items|)
  {
    seq(|ids|, k requires 0 <= k < |ids| => items[ids[k]])
  }

  // ---------------------------------------------------------------------------------------
  // The invariant
  // ---------------------------------------------------------------------------------------

  ghost predicate SlotOk(d: Docs, dict: map<string, Slot>, its: seq<Item>, name: string, items: seq<Item>) {
    var found := Named(d, its, name);
    && (name in dict <==> found != [])
    && (name in dict ==>
         match dict[name]
         case One(id) => id < |items| && found == [items[id]]
         case Many => |found| >= 2)
  }

  ghost predicate DictOk(d: Docs, dict: map<string, Slot>, its: seq<Item>, items: seq<Item>) {
    forall name :: SlotOk(d, dict, its, name, items)
  }

  ghost predicate CategoryOk(d: Docs, ids: seq<nat>, members: seq<nat>, cat: Option<Cat>, items: seq<Item>) {
    && Within(ids, |items|) && Within(members, |items|)
    && ItemsOf(ids, items) == InCat(d, ItemsOf(members, items), cat)
  }

  ghost predicate CachesOk(d: Docs, o: Obj, items: seq<Item>) {
    && Within(o.members, |items|)
    && (forall c :: c in o.inCategory ==> CategoryOk(d, o.inCategory[c], o.members, Some(c), items))
    && (forall c :: c in o.dictMembers ==>
         !Nameless(d, InCat(d, ItemsOf(o.members, items), c))
         && DictOk(d, o.dictMembers[c], InCat(d, ItemsOf(o.members, items), c), items))
  }

  /** Object `o` stands for `it`. While it is being parsed its members are incomplete. */
  ghost predicate ObjOk(d: Docs, o: Obj, it: Item, items: seq<Item>, busy: bool) {
    && o.cls == ClassOf(d, it)
    && o.refid == (if it.Compound? then Some(it.refid) else None)
    && o.parseName == NameOf(d, it)
    && CachesOk(d, o, items)
    && (o.parsed && !busy ==> ItemsOf(o.members, items) == MembersOf(d, it))
    && (busy ==> o.parsed)
    && (busy || !o.parsed ==> o.inCategory == map[] && o.dictMembers == map[])
    && (!o.parsed ==> o.members == [])
  }

  datatype View = View(objs: seq<Obj>, refs: map<string, nat>, items: seq<Item>)

  ghost predicate DefKnown(v: View, it: Item) {
    it.Def? ==> it.owner in v.refs && v.refs[it.owner] < |v.objs| && v.objs[v.refs[it.owner]].parsed
  }

  ghost predicate RefOk(v: View, r: string)
    requires r in v.refs
  {
    v.refs[r] < |v.items| && v.items[v.refs[r]] == Compound(r)
  }

  ghost predicate IndexedUpTo(d: Docs, refs: map<string, nat>, k: nat) {
    forall j :: 0 <= j < k && j < |d.index| ==> d.index[j].refid in refs
  }

  ghost predicate AllIndexed(d: Docs, refs: map<string, nat>) {
    IndexedUpTo(d, refs, |d.index|)
  }

  /** No two objects stand for the same item, and `refs` finds the object of every compound. */
  ghost predicate Identity(v: View) {
    && (forall i: nat, j: nat :: i < j < |v.items| ==> Differ(v.items, i, j))
    && (forall r :: r in v.refs ==> RefOk(v, r))
    && (forall i: nat :: i < |v.items| ==> KnownAt(v, i))
  }

  ghost predicate Differ(items: seq<Item>, i: nat, j: nat)
    requires i < |items| && j < |items|
  {
    items[i] != items[j]
  }

  ghost predicate KnownAt(v: View, i: nat)
    requires i < |v.items|
  {
    (v.items[i].Compound? ==> v.items[i].refid in v.refs) && DefKnown(v, v.items[i])
  }

  ghost predicate ObjsOk(d: Docs, v: View, open: set<nat>) {
    && |v.items| == |v.objs|
    && forall i: nat :: i < |v.objs| ==> ObjOkAt(d, v, open, i)
  }

  ghost predicate ObjOkAt(d: Docs, v: View, open: set<nat>, i: nat)
    requires i < |v.objs| == |v.items|
  {
    ObjOk(d, v.objs[i], v.items[i], v.items, i in open)
  }

  ghost predicate Sound(d: Docs, v: View, open: set<nat>) {
    && Sensible(d) && ObjsOk(d, v, open) && |v.objs| > 0 && v.items[0] == Top && Identity(v)
    && (|v.objs| > 1 ==> v.objs[0].parsed)
    && (v.objs[0].parsed && 0 !in open ==> AllIndexed(d, v.refs))
  }

  /** What no operation takes back: objects keep what they stand for, refids keep their objects, and a
      parsed object keeps its members. Objects that are being parsed are left alone, except `mine`. */
  ghost predicate Later(v: View, w: View, open: set<nat>, mine: set<nat>) {
    && v.items <= w.items && |v.objs| <= |w.objs|
    && (forall r :: r in v.refs ==> r in w.refs && w.refs[r] == v.refs[r])
    && (forall i: nat :: i < |v.objs| && i !in mine ==> KeptAt(v, w, open, i))
  }

  ghost predicate KeptAt(v: View, w: View, open: set<nat>, i: nat)
    requires i < |v.objs| <= |w.objs|
  {
    Kept(v.objs[i], w.objs[i], i in open)
  }

  ghost predicate Kept(o: Obj, o': Obj, busy: bool) {
    (o.parsed ==> o'.parsed && o'.members == o.members) && (busy ==> o' == o)
  }

  lemma LaterTwice(u: View, v: View, w: View, open: set<nat>, mine: set<nat>)
    requires Later(u, v, open, mine) && Later(v, w, open, mine)
    ensures Later(u, w, open, mine)
  {
    forall i: nat | i < |u.objs| && i !in mine
      ensures KeptAt(u, w, open, i)
    {
      assert KeptAt(u, v, open, i) && KeptAt(v, w, open, i);
    }
  }

  lemma ItemsOfGrows(ids: seq<nat>, items: seq<Item>, items': seq<Item>)
    requires items <= items' && Within(ids, |items|)
    ensures Within(ids, |items'|) && ItemsOf(ids, items') == ItemsOf(ids, items)
  {
  }

  lemma SlotGrows(d: Docs, dict: map<string, Slot>, its: seq<Item>, items: seq<Item>, items': seq<Item>)
    requires items <= items' && DictOk(d, dict, its, items)
    ensures DictOk(d, dict, its, items')
  {
    forall name
      ensures SlotOk(d, dict, its, name, items')
    {
      assert SlotOk(d, dict, its, name, items);
    }
  }

  lemma ObjGrows(d: Docs, o: Obj, it: Item, items: seq<Item>, items': seq<Item>, busy: bool)
    requires items <= items' && ObjOk(d, o, it, items, busy)
    ensures ObjOk(d, o, it, items', busy)
  {
    ItemsOfGrows(o.members, items, items');
    forall c | c in o.inCategory
      ensures CategoryOk(d, o.inCategory[c], o.members, Some(c), items')
    {
      assert CategoryOk(d, o.inCategory[c], o.members, Some(c), items);
      ItemsOfGrows(o.inCategory[c], items, items');
    }
    forall c | c in o.dictMembers
      ensures DictOk(d, o.dictMembers[c], InCat(d, ItemsOf(o.members, items'), c), items')
    {
      SlotGrows(d, o.dictMembers[c], InCat(d, ItemsOf(o.members, items), c), items, items');
    }
  }

  lemma AddObjs(d: Docs, v: View, open: set<nat>, o: Obj, it: Item, refs': map<string, nat>)
    requires ObjsOk(d, v, open) && |v.objs| !in open && ObjOk(d, o, it, v.items, false)
    ensures ObjsOk(d, View(v.objs + [o], refs', v.items + [it]), open)
  {
    var w := View(v.objs + [o], refs', v.items + [it]);
    forall i: nat | i < |w.objs|
      ensures ObjOkAt(d, w, open, i)
    {
      if i < |v.objs| { assert ObjOkAt(d, v, open, i); }
      ObjGrows(d, w.objs[i], w.items[i], v.items, w.items, i in open);
    }
  }

  lemma AddIdentity(v: View, o: Obj, it: Item, refs': map<string, nat>)
    requires |v.items| == |v.objs| && Identity(v) && it !in v.items
    requires match it case Compound(r) => refs' == v.refs[r := |v.objs|] case _ => refs' == v.refs
    requires it.Def? ==> DefKnown(v, it)
    ensures Identity(View(v.objs + [o], refs', v.items + [it]))
    ensures forall r :: r in v.refs ==> r in refs' && refs'[r] == v.refs[r]
  {
    var w := View(v.objs + [o], refs', v.items + [it]);
    forall r | r in v.refs
      ensures r in refs' && refs'[r] == v.refs[r]
    {
      assert RefOk(v, r);
    }
    forall r | r in w.refs
      ensures RefOk(w, r)
    {
      if r in v.refs { assert RefOk(v, r); }
    }
    forall i: nat | i < |w.items|
      ensures KnownAt(w, i)
    {
      if i < |v.items| { assert KnownAt(v, i); }
      if w.items[i].Def? && w.items[i].owner in v.refs { assert RefOk(v, w.items[i].owner); }
    }
    forall i: nat, j: nat | i < j < |w.items|
      ensures Differ(w.items, i, j)
    {
      if j < |v.items| { assert Differ(v.items, i, j); }
    }
  }

  /** A new object for a new item. */
  lemma AddSound(d: Docs, v: View, open: set<nat>, o: Obj, it: Item, refs': map<string, nat>)
    requires Sound(d, v, open) && v.objs[0].parsed && it !in v.items && |v.objs| !in open
    requires ObjOk(d, o, it, v.items, false)
    requires match it case Compound(r) => refs' == v.refs[r := |v.objs|] case _ => refs' == v.refs
    requires it.Def? ==> DefKnown(v, it)
    ensures Sound(d, View(v.objs + [o], refs', v.items + [it]), open)
  {
    AddObjs(d, v, open, o, it, refs');
    AddIdentity(v, o, it, refs');
    MoreIndexed(d, v.refs, refs');
  }

  lemma AddLater(v: View, open: set<nat>, o: Obj, it: Item, refs': map<string, nat>)
    requires forall r :: r in v.refs ==> r in refs' && refs'[r] == v.refs[r]
    ensures Later(v, View(v.objs + [o], refs', v.items + [it]), open, {})
  {
    var w := View(v.objs + [o], refs', v.items + [it]);
    forall i: nat | i < |v.objs|
      ensures KeptAt(v, w, open, i)
    {
    }
  }

  lemma MoreIndexed(d: Docs, refs: map<string, nat>, refs': map<string, nat>)
    requires forall r :: r in refs ==> r in refs'
    ensures AllIndexed(d, refs) ==> AllIndexed(d, refs')
  {
  }

  lemma PutIdentity(v: View, i: nat, o: Obj)
    requires |v.items| == |v.objs| && Identity(v) && i < |v.objs| && (v.objs[i].parsed ==> o.parsed)
    ensures Identity(v.(objs := v.objs[i := o]))
  {
    var w := v.(objs := v.objs[i := o]);
    forall j: nat | j < |w.items|
      ensures KnownAt(w, j)
    {
      assert KnownAt(v, j);
    }
    forall r | r in w.refs
      ensures RefOk(w, r)
    {
      assert RefOk(v, r);
    }
  }

  lemma PutObjs(d: Docs, v: View, open: set<nat>, open': set<nat>, i: nat, o: Obj)
    requires ObjsOk(d, v, open) && i < |v.objs| && ObjOk(d, o, v.items[i], v.items, i in open')
    requires forall j :: j != i ==> (j in open <==> j in open')
    ensures ObjsOk(d, v.(objs := v.objs[i := o]), open')
  {
    var w := v.(objs := v.objs[i := o]);
    forall j: nat | j < |w.objs|
      ensures ObjOkAt(d, w, open', j)
    {
      if j != i { assert ObjOkAt(d, v, open, j); }
    }
  }

  /** A new state of one object, which may start or end being parsed. */
  lemma PutSound(d: Docs, v: View, open: set<nat>, open': set<nat>, i: nat, o: Obj)
    requires Sound(d, v, open) && i < |v.objs| && ObjOk(d, o, v.items[i], v.items, i in open')
    requires forall j :: j != i ==> (j in open <==> j in open')
    requires v.objs[i].parsed ==> o.parsed
    requires i == 0 && o.parsed && 0 !in open' ==> AllIndexed(d, v.refs)
    ensures Sound(d, v.(objs := v.objs[i := o]), open')
  {
    PutObjs(d, v, open, open', i, o);
    PutIdentity(v, i, o);
  }

  lemma UnboundIsNew(v: View, r: string)
    requires Identity(v) && r !in v.refs
    ensures Compound(r) !in v.items
  {
    forall i: nat | i < |v.items|
      ensures v.items[i] != Compound(r)
    {
      assert KnownAt(v, i);
    }
  }

  lemma EntryOk(d: Docs, k: nat, items: seq<Item>)
    requires Sensible(d) && k < |d.index|
    ensures GetCls(d.index[k].kind).Some?
    ensures ObjOk(d, Unparsed(GetCls(d.index[k].kind).value, Some(d.index[k].refid), Some(d.index[k].name)),
      Compound(d.index[k].refid), items, false)
  {
    IndexedClass(d, k);
  }

  lemma InnerOk(d: Docs, r: string, items: seq<Item>)
    requires !Indexed(d, r)
    ensures ObjOk(d, Unparsed(ClassOf(d, Compound(r)), Some(r), None), Compound(r), items, false)
  {
  }

  lemma DefOk(d: Docs, r: string, pos: nat, items: seq<Item>)
    requires Sensible(d) && pos < |Defs(d, r)|
    ensures GetCls(Defs(d, r)[pos].kind).Some?
    ensures ObjOk(d, Unparsed(GetCls(Defs(d, r)[pos].kind).value, None, Some(Defs(d, r)[pos].name)),
      Def(r, pos), items, false)
  {
    assert KindsKnown(d, r);
  }

  lemma DifferentItems(v: View, i: nat, k: nat)
    requires Identity(v) && i < |v.items| && k < |v.items| && i != k
    ensures v.items[i] != v.items[k]
  {
    if i < k {
      assert Differ(v.items, i, k);
    } else {
      assert Differ(v.items, k, i);
    }
  }

  /** The object that stands for a compound is the one bound to its refid. */
  lemma RefsFind(v: View, i: nat)
    requires Identity(v) && i < |v.items| && v.items[i].Compound?
    ensures v.items[i].refid in v.refs && v.refs[v.items[i].refid] == i
  {
    assert KnownAt(v, i) && RefOk(v, v.items[i].refid);
    var k := v.refs[v.items[i].refid];
    if k != i { DifferentItems(v, i, k); }
  }

  /** Of compound `r` the first `k` definitions at most have been converted. */
  ghost predicate DefsBelow(items: seq<Item>, r: string, k: nat) {
    forall j :: 0 <= j < |items| && items[j].Def? && items[j].owner == r ==> items[j].pos < k
  }

  /** The definitions of a compound have no objects before the compound is parsed. */
  lemma UnparsedNoDefs(v: View, i: nat, r: string)
    requires Identity(v) && i < |v.items| == |v.objs| && v.items[i] == Compound(r) && !v.objs[i].parsed
    ensures DefsBelow(v.items, r, 0)
  {
    RefsFind(v, i);
    forall j: nat | j < |v.items| && v.items[j].Def?
      ensures v.items[j].owner != r
    {
      assert KnownAt(v, j);
    }
  }

  lemma PutLater(v: View, open: set<nat>, i: nat, o: Obj)
    requires i < |v.objs|
    ensures Later(v, v.(objs := v.objs[i := o]), open, {i})
  {
    var w := v.(objs := v.objs[i := o]);
    forall j: nat | j < |v.objs| && j != i
      ensures KeptAt(v, w, open, j)
    {
    }
  }

  lemma ObjAt(d: Docs, v: View, open: set<nat>, i: nat)
    requires Sound(d, v, open) && i < |v.objs|
    ensures i < |v.items| && ObjOk(d, v.objs[i], v.items[i], v.items, i in open)
  {
    assert ObjOkAt(d, v, open, i);
  }

  lemma ClsAt(d: Docs, v: View, open: set<nat>, i: nat)
    requires Sound(d, v, open) && i < |v.objs|
    ensures i < |v.items| && v.objs[i].cls == ClassOf(d, v.items[i])
  {
    assert ObjOkAt(d, v, open, i);
  }

  lemma BeginSound(d: Docs, v: View, open: set<nat>, i: nat)
    requires Sound(d, v, open) && i < |v.objs| && !v.objs[i].parsed
    ensures i !in open
    ensures Sound(d, v.(objs := v.objs[i := v.objs[i].(parsed := true)]), open + {i})
  {
    ObjAt(d, v, open, i);
    PutSound(d, v, open, open + {i}, i, v.objs[i].(parsed := true));
  }

  lemma ExtendOk(d: Docs, o: Obj, it: Item, items: seq<Item>, ids: seq<nat>)
    requires ObjOk(d, o, it, items, true) && Within(ids, |items|)
    ensures ObjOk(d, o.(members := o.members + ids), it, items, true)
    ensures ItemsOf(o.members + ids, items) == ItemsOf(o.members, items) + ItemsOf(ids, items)
  {
  }

  lemma ExtendSound(d: Docs, v: View, open: set<nat>, i: nat, ids: seq<nat>)
    requires Sound(d, v, open) && i in open && i < |v.objs| && Within(ids, |v.items|)
    ensures Within(v.objs[i].members, |v.items|) && Within(v.objs[i].members + ids, |v.items|)
    ensures ItemsOf(v.objs[i].members + ids, v.items) == ItemsOf(v.objs[i].members, v.items) + ItemsOf(ids, v.items)
    ensures Sound(d, v.(objs := v.objs[i := v.objs[i].(members := v.objs[i].members + ids)]), open)
  {
    ObjAt(d, v, open, i);
    ExtendOk(d, v.objs[i], v.items[i], v.items, ids);
    PutSound(d, v, open, open, i, v.objs[i].(members := v.objs[i].members + ids));
  }

  lemma CloseSound(d: Docs, v: View, open: set<nat>, i: nat)
    requires Sound(d, v, open) && i in open && i < |v.objs| && Within(v.objs[i].members, |v.items|)
    requires ItemsOf(v.objs[i].members, v.items) == MembersOf(d, v.items[i])
    requires i == 0 ==> AllIndexed(d, v.refs)
    ensures Sound(d, v, open - {i})
  {
    ObjAt(d, v, open, i);
    PutSound(d, v, open, open - {i}, i, v.objs[i]);
    assert v.objs[i := v.objs[i]] == v.objs;
  }

  /** The object whose parse has ended counts as kept: it was not parsed before. */
  lemma LaterDone(v: View, w: View, open: set<nat>, i: nat)
    requires Later(v, w, open + {i}, {i}) && i !in open && i < |v.objs| && !v.objs[i].parsed
    ensures Later(v, w, open, {})
  {
    forall j: nat | j < |v.objs|
      ensures KeptAt(v, w, open, j)
    {
      assert j != i ==> KeptAt(v, w, open + {i}, j);
    }
  }

  class Tree {
    const docs: Docs
    var objs: seq<Obj>
    var refs: map<string, nat>
    ghost var items: seq<Item> // what the objects stand for
    ghost var open: set<nat> // the objects that are being parsed

    ghost function Now(): View
      reads this
    {
      View(objs, refs, items)
    }

    ghost predicate Valid()
      reads this
    {
      Sound(docs, Now(), open) && forall i :: i in open ==> i < |objs|
    }

    constructor (docs: Docs)
      requires Sensible(docs)
      ensures Valid() && this.docs == docs && items == [Top] && open == {} && refs == map[]
    {
      this.docs, refs, items, open := docs, map[], [Top], {};
      objs := [Unparsed(DoxyIndex, None, None)];
      new;
      assert ObjOkAt(docs, Now(), {}, 0);
    }

    /** `__init__`, and `add_ref` where there is a refid. */
    method New(o: Obj, ghost it: Item) returns (id: nat)
      requires Valid() && objs[0].parsed && it !in items && ObjOk(docs, o, it, items, false)
      requires o.refid == match it case Compound(r) => Some(r) case _ => None
      requires it.Def? ==> DefKnown(Now(), it)
      modifies this`objs, this`refs, this`items
      ensures Valid() && id == |old(objs)| && objs == old(objs) + [o] && items == old(items) + [it]
      ensures refs == if o.refid.Some? then old(refs)[o.refid.value := id] else old(refs)
      ensures Later(old(Now()), Now(), open, {})
    {
      ghost var before := Now();
      id := |objs|;
      ghost var refs' := match it case Compound(r) => refs[r := id] case _ => refs;
      AddSound(docs, before, open, o, it, refs');
      AddIdentity(before, o, it, refs');
      AddLater(before, open, o, it, refs');
      objs, items := objs + [o], items + [it];
      if o.refid.Some? {
        refs := refs[o.refid.value := id];
      }
    }

    /** `from_refid`: the object bound to the refid, or a new one without parse data. */
    method FromRefid(cls: Cls, refid: string) returns (id: nat)
      requires Valid() && objs[0].parsed
      requires refid in refs || (!Indexed(docs, refid) && cls == ClassOf(docs, Compound(refid)))
      modifies this`objs, this`refs, this`items
      ensures Valid() && id < |items| && items[id] == Compound(refid)
      ensures items == old(items) || items == old(items) + [Compound(refid)]
      ensures Later(old(Now()), Now(), open, {}) && old(objs) <= objs
    {
      if refid in refs {
        assert RefOk(Now(), refid);
        return refs[refid];
      }
      UnboundIsNew(Now(), refid);
      InnerOk(docs, refid, items);
      id := New(Unparsed(cls, Some(refid), None), Compound(refid));
    }

    /** `convert_mem` of an index entry: the object bound to its refid, or a new one. */
    method ConvertEntry(k: nat) returns (id: nat)
      requires Valid() && objs[0].parsed && k < |docs.index|
      modifies this`objs, this`refs, this`items
      ensures Valid() && id < |items| && items[id] == Compound(docs.index[k].refid)
      ensures docs.index[k].refid in refs
      ensures Later(old(Now()), Now(), open, {}) && old(objs) <= objs
    {
      var mem := docs.index[k];
      if mem.refid in refs {
        assert RefOk(Now(), mem.refid);
        return refs[mem.refid];
      }
      UnboundIsNew(Now(), mem.refid);
      EntryOk(docs, k, items);
      id := New(Unparsed(GetCls(mem.kind).value, Some(mem.refid), Some(mem.name)), Compound(mem.refid));
    }

    /** `convert_mem` of a member definition, which has no refid: always a new object. */
    method ConvertDef(ghost owner: string, ghost pos: nat, mem: MemberDef) returns (id: nat)
      requires Valid() && objs[0].parsed && Def(owner, pos) !in items && DefKnown(Now(), Def(owner, pos))
      requires pos < |Defs(docs, owner)| && Defs(docs, owner)[pos] == mem
      modifies this`objs, this`refs, this`items
      ensures Valid() && items == old(items) + [Def(owner, pos)] && id == |old(items)|
      ensures Later(old(Now()), Now(), open, {}) && old(objs) <= objs && refs == old(refs)
    {
      DefOk(docs, owner, pos, items);
      id := New(Unparsed(GetCls(mem.kind).value, None, Some(mem.name)), Def(owner, pos));
    }

    /** The base `_parse`: from now on the object counts as parsed. */
    method Begin(i: nat)
      requires Valid() && i < |objs| && !objs[i].parsed
      modifies this`objs, this`open
      ensures Valid() && objs == old(objs)[i := old(objs[i]).(parsed := true)] && open == old(open) + {i}
      ensures Later(old(Now()), Now(), open, {i}) && i !in old(open)
    {
      BeginSound(docs, Now(), open, i);
      PutLater(Now(), open + {i}, i, objs[i].(parsed := true));
      open := open + {i};
      objs := objs[i := objs[i].(parsed := true)];
    }

    method Extend(i: nat, ids: seq<nat>)
      requires Valid() && i in open && Within(ids, |items|)
      modifies this`objs
      ensures Valid() && objs == old(objs)[i := old(objs[i]).(members := old(objs[i]).members + ids)]
      ensures Within(objs[i].members, |items|) && Within(old(objs[i].members), |items|)
      ensures ItemsOf(objs[i].members, items) == ItemsOf(old(objs[i].members), items) + ItemsOf(ids, items)
      ensures Later(old(Now()), Now(), open, {i})
    {
      ExtendSound(docs, Now(), open, i, ids);
      PutLater(Now(), open, i, objs[i].(members := objs[i].members + ids));
      objs := objs[i := objs[i].(members := objs[i].members + ids)];
    }

    method Append(i: nat, id: nat)
      requires Valid() && i in open && id < |items|
      modifies this`objs
      ensures Valid() && objs == old(objs)[i := old(objs[i]).(members := old(objs[i]).members + [id])]
      ensures Within(objs[i].members, |items|) && Within(old(objs[i].members), |items|)
      ensures ItemsOf(objs[i].members, items) == ItemsOf(old(objs[i].members), items) + [items[id]]
      ensures Later(old(Now()), Now(), open, {i})
    {
      assert ItemsOf([id], items) == [items[id]];
      Extend(i, [id]);
    }

    ghost method Close(i: nat)
      requires Valid() && i in open && Within(objs[i].members, |items|)
      requires ItemsOf(objs[i].members, items) == MembersOf(docs, items[i])
      requires i == 0 ==> AllIndexed(docs, refs)
      modifies this`open
      ensures Valid() && open == old(open) - {i}
    {
      CloseSound(docs, Now(), open, i);
      open := open - {i};
    }

    ghost predicate Busy(i: nat)
      reads this
    {
      Valid() && i in open && i < |objs| == |items| && objs[i].parsed && Within(objs[i].members, |items|)
    }

    /** What the members of object `i` stand for. */
    ghost function MemberItems(i: nat): seq<Item>
      requires i < |objs| && Within(objs[i].members, |items|)
      reads this
    {
      ItemsOf(objs[i].members, items)
    }

    /** One round of the loop over the member definitions. */
    method AddDef(i: nat, ghost r: string, ghost k: nat, mem: MemberDef, uniques: set<string>)
      returns (uniques': set<string>)
      requires Busy(i) && objs[0].parsed && items[i] == Compound(r) && DefsBelow(items, r, k)
      requires k < |Defs(docs, r)| && Defs(docs, r)[k] == mem
      modifies this`objs, this`refs, this`items
      ensures Busy(i) && Later(old(Now()), Now(), open, {i}) && objs[0].parsed
      ensures items == old(items) + [Def(r, k)] && uniques' == uniques + {mem.name}
      ensures MemberItems(i) == old(MemberItems(i)) + (if mem.name in uniques then [] else [Def(r, k)])
    {
      ItemsOfGrows(objs[i].members, items, items + [Def(r, k)]);
      RefsFind(Now(), i);
      ghost var before := Now();
      var converted := ConvertDef(r, k, mem);
      uniques' := uniques;
      if mem.name !in uniques {
        uniques' := uniques' + {mem.name};
        ghost var mid := Now();
        Append(i, converted);
        LaterTwice(before, mid, Now(), open, {i});
      }
    }

    /** `mdtss`: the member definitions of all sections. */
    method Memberdefs(refid: string) returns (mdtss: seq<MemberDef>)
      ensures mdtss == Defs(docs, refid)
    {
      var secs := docs.file(refid).sections;
      mdtss := [];
      for k := 0 to |secs|
        invariant mdtss == Total(secs[..k])
      {
        assert secs[..k + 1][..k] == secs[..k];
        mdtss := mdtss + secs[k];
      }
      assert secs[..|secs|] == secs;
    }

    /** The first `k` definitions have been converted. */
    ghost predicate Converting(
      i: nat, r: string, defs: seq<MemberDef>, uniques: set<string>, k: nat, start: seq<Item>, before: View)
      reads this
    {
      && Busy(i) && objs[0].parsed && items[i] == Compound(r) && Later(before, Now(), open, {i})
      && k <= |defs| && defs == Defs(docs, r) && DefsBelow(items, r, k) && NamesAre(uniques, defs, k)
      && MemberItems(i) == start + FirstDefs(r, defs, k)
    }

    method ConvertNext(
      i: nat, ghost r: string, mdtss: seq<MemberDef>, uniques: set<string>, k: nat,
      ghost start: seq<Item>, ghost before: View)
      returns (uniques': set<string>)
      requires k < |mdtss| && Converting(i, r, mdtss, uniques, k, start, before)
      modifies this`objs, this`refs, this`items
      ensures Converting(i, r, mdtss, uniques', k + 1, start, before)
    {
      ghost var mid := Now();
      uniques' := AddDef(i, r, k, mdtss[k], uniques);
      LaterTwice(before, mid, Now(), open, {i});
      NextNames(uniques, mdtss, k);
      Regroup(start, FirstDefs(r, mdtss, k), if mdtss[k].name in uniques then [] else [Def(r, k)]);
    }

    /** `process_memberdefs`: an object for every definition, the first of every name a member. */
    method ProcessMemberdefs(i: nat, r: string)
      requires Busy(i) && objs[0].parsed && items[i] == Compound(r) && DefsBelow(items, r, 0)
      modifies this`objs, this`refs, this`items
      ensures Busy(i) && Later(old(Now()), Now(), open, {i})
      ensures MemberItems(i) == old(MemberItems(i)) + FirstDefs(r, Defs(docs, r), |Defs(docs, r)|)
    {
      var mdtss := Memberdefs(r);
      var uniques: set<string> := {};
      ghost var before, start := Now(), MemberItems(i);
      assert start + [] == start;
      SameView(before, open, {i});
      for k := 0 to |mdtss|
        invariant Converting(i, r, mdtss, uniques, k, start, before)
      {
        uniques := ConvertNext(i, r, mdtss, uniques, k, start, before);
      }
    }

    method AddInner(i: nat, cls: Cls, refid: string, ghost r: string)
      requires Busy(i) && objs[0].parsed && 0 !in open && InnerFits(docs, cls, refid) && DefsBelow(items, r, 0)
      modifies this`objs, this`refs, this`items
      ensures Busy(i) && Later(old(Now()), Now(), open, {i}) && objs[0].parsed && DefsBelow(items, r, 0)
      ensures MemberItems(i) == old(MemberItems(i)) + [Compound(refid)]
    {
      ItemsOfGrows(objs[i].members, items, items + [Compound(refid)]);
      if Indexed(docs, refid) { IndexedBound(docs, refs, refid); }
      ghost var before := Now();
      var converted := FromRefid(cls, refid);
      ghost var mid := Now();
      Append(i, converted);
      LaterTwice(before, mid, Now(), open, {i});
    }

    /** The first `k` inner compounds have been added. */
    ghost predicate Adding(i: nat, rs: seq<string>, k: nat, r: string, start: seq<Item>, before: View)
      reads this
    {
      && Busy(i) && objs[0].parsed && Later(before, Now(), open, {i}) && DefsBelow(items, r, 0)
      && k <= |rs| && MemberItems(i) == start + AllCompounds(rs, k)
    }

    method AddNext(i: nat, cls: Cls, rs: seq<string>, k: nat, ghost r: string, ghost start: seq<Item>, ghost before: View)
      requires k < |rs| && Adding(i, rs, k, r, start, before) && 0 !in open && AllFit(docs, cls, rs)
      modifies this`objs, this`refs, this`items
      ensures Adding(i, rs, k + 1, r, start, before)
    {
      assert InnerFitsAt(docs, cls, rs, k);
      ghost var mid := Now();
      AddInner(i, cls, rs[k], r);
      LaterTwice(before, mid, Now(), open, {i});
      Regroup(start, AllCompounds(rs, k), [Compound(rs[k])]);
    }

    /** The loops over the inner groups and over the inner classes. */
    method AddInners(i: nat, cls: Cls, rs: seq<string>, ghost r: string)
      requires Busy(i) && objs[0].parsed && 0 !in open && DefsBelow(items, r, 0)
      requires AllFit(docs, cls, rs)
      modifies this`objs, this`refs, this`items
      ensures Busy(i) && Later(old(Now()), Now(), open, {i}) && objs[0].parsed && DefsBelow(items, r, 0)
      ensures MemberItems(i) == old(MemberItems(i)) + AllCompounds(rs, |rs|)
    {
      ghost var before, start := Now(), MemberItems(i);
      assert start + [] == start;
      SameView(before, open, {i});
      for k := 0 to |rs|
        invariant Adding(i, rs, k, r, start, before)
      {
        AddNext(i, cls, rs, k, r, start, before);
      }
    }

    /** `DoxyGroup._parse`: inner groups, inner classes, member definitions. */
    method FillGroup(i: nat, r: string)
      requires Busy(i) && objs[0].parsed && items[i] == Compound(r) && DefsBelow(items, r, 0) && 0 !in open
      modifies this`objs, this`refs, this`items
      ensures Busy(i) && Later(old(Now()), Now(), open, {i})
      ensures var doc, defs := docs.file(r), Defs(docs, r);
        MemberItems(i) == old(MemberItems(i)) + AllCompounds(doc.groups, |doc.groups|)
          + AllCompounds(doc.classes, |doc.classes|) + FirstDefs(r, defs, |defs|)
    {
      ghost var before := Now();
      var grps, klasses := docs.file(r).groups, docs.file(r).classes;
      InnersFit(docs, r);
      AddInners(i, DoxyGroup, grps, r);
      ghost var mid := Now();
      AddInners(i, DoxyClass, klasses, r);
      LaterTwice(before, mid, Now(), open, {i});
      mid := Now();
      ProcessMemberdefs(i, r);
      LaterTwice(before, mid, Now(), open, {i});
    }

    /** The `_parse` methods, after the object has been marked as parsed. */
    method FillMembers(i: nat, r: string)
      requires Busy(i) && objs[0].parsed && items[i] == Compound(r) && DefsBelow(items, r, 0)
      requires objs[i].members == [] && (objs[i].cls.DoxyGroup? ==> 0 !in open)
      modifies this`objs, this`refs, this`items
      ensures Busy(i) && Later(old(Now()), Now(), open, {i})
      ensures MemberItems(i) == CompoundMembers(docs, r)
    {
      ClsAt(docs, Now(), open, i);
      assert MemberItems(i) == [];
      if objs[i].cls == DoxyGroup {
        GroupMembers(docs, r);
        EmptyFront(AllCompounds(docs.file(r).groups, |docs.file(r).groups|));
        FillGroup(i, r);
      } else {
        PlainMembers(docs, r);
        FillPlain(i, r);
      }
    }

    /** `DoxyClass._parse`, `DoxyFile._parse`, `DoxyNamespace._parse` and the base `_parse`. */
    method FillPlain(i: nat, r: string)
      requires Busy(i) && objs[0].parsed && items[i] == Compound(r) && DefsBelow(items, r, 0) && MemberItems(i) == []
      modifies this`objs, this`refs, this`items
      ensures Busy(i) && Later(old(Now()), Now(), open, {i})
      ensures MemberItems(i) ==
        if Includes(Compounds, old(objs[i].cls)) then FirstDefs(r, Defs(docs, r), |Defs(docs, r)|) else []
    {
      if Includes(Compounds, objs[i].cls) {
        EmptyFront(FirstDefs(r, Defs(docs, r), |Defs(docs, r)|));
        ProcessMemberdefs(i, r);
      } else {
        SameView(Now(), open, {i});
      }
    }

    /** `check_parsed` of an object other than the index. */
    method CheckCompound(i: nat)
      requires Valid() && 0 < i < |objs| && i !in open && (objs[i].cls.DoxyGroup? ==> 0 !in open)
      modifies this
      ensures Valid() && open == old(open) && Later(old(Now()), Now(), open, {})
      ensures i < |objs| == |items| && objs[i].parsed && Within(objs[i].members, |items|)
      ensures MemberItems(i) == MembersOf(docs, items[i])
    {
      ObjAt(docs, Now(), open, i);
      ghost var before := Now();
      if objs[i].parsed {
        SameView(Now(), open, {});
        return;
      }
      TopAlone(Now(), i);
      if items[i].Compound? { UnparsedNoDefs(Now(), i, items[i].refid); }
      assert objs[i].members == [];
      Begin(i);
      ghost var mid := Now();
      if objs[i].refid.Some? {
        FillMembers(i, objs[i].refid.value);
        LaterTwice(before, mid, Now(), open, {i});
      } else {
        assert MemberItems(i) == [];
      }
      LaterDone(before, Now(), open - {i}, i);
      Close(i);
    }

    /** The index has been marked and is being filled. */
    ghost predicate Indexing()
      reads this
    {
      Busy(0) && open == {0}
    }

    /** A file or namespace of the index: its contents become members, then it does. */
    method AddContents(ghost k: nat, converted: nat)
      requires Indexing() && k < |docs.index| && 0 < converted < |items|
      requires items[converted] == Compound(docs.index[k].refid)
      requires GetCls(docs.index[k].kind).value in {DoxyFile, DoxyNamespace}
      modifies this
      ensures Indexing() && Later(old(Now()), Now(), {0}, {0})
      ensures MemberItems(0) == old(MemberItems(0))
        + (CompoundMembers(docs, docs.index[k].refid) + [Compound(docs.index[k].refid)])
    {
      ghost var before, start := Now(), MemberItems(0);
      ClsAt(docs, Now(), open, converted);
      IndexedClass(docs, k);
      CheckCompound(converted);
      ghost var mid := Now();
      assert KeptAt(before, mid, {0}, 0);
      ItemsOfGrows(before.objs[0].members, before.items, items);
      Extend(0, objs[converted].members);
      LaterTwice(before, mid, Now(), {0}, {0});
      mid := Now();
      Append(0, converted);
      LaterTwice(before, mid, Now(), {0}, {0});
    }

    /** One round of the loop over the compounds of the index. */
    method AddCompound(k: nat)
      requires Filled(k) && k < |docs.index|
      modifies this
      ensures Filled(k + 1) && Later(old(Now()), Now(), {0}, {0})
    {
      ghost var before, known := MemberItems(0), refs;
      AddEntry(k);
      FilledNext(docs, k, before, MemberItems(0), known, refs);
    }

    method AddEntry(k: nat)
      requires Indexing() && k < |docs.index|
      modifies this
      ensures Indexing() && Later(old(Now()), Now(), {0}, {0}) && docs.index[k].refid in refs
      ensures MemberItems(0) == old(MemberItems(0)) + Contribution(docs, docs.index[k])
    {
      ghost var before, start := Now(), MemberItems(0);
      var mem := docs.index[k];
      var converted := ConvertEntry(k);
      ghost var mid := Now();
      ItemsOfGrows(before.objs[0].members, before.items, items);
      assert mem.refid in mid.refs;
      if GetCls(mem.kind) == Some(DoxyFile) {
        if IsHeader(mem.name) {
          AddContents(k, converted);
          LaterTwice(before, mid, Now(), {0}, {0});
        } else {
          assert start + [] == start;
        }
      } else if GetCls(mem.kind) == Some(DoxyNamespace) {
        AddContents(k, converted);
        LaterTwice(before, mid, Now(), {0}, {0});
      } else {
        Append(0, converted);
        LaterTwice(before, mid, Now(), {0}, {0});
      }
    }

    /** The first `k` compounds of the index have been added. */
    ghost predicate Filled(k: nat)
      reads this
    {
      Indexing() && k <= |docs.index| && MemberItems(0) == IndexMembers(docs, k) && IndexedUpTo(docs, refs, k)
    }

    /** The loop over the compounds of the index. */
    method FillIndex()
      requires Filled(0)
      modifies this
      ensures Filled(|docs.index|) && Later(old(Now()), Now(), {0}, {0})
    {
      ghost var before := Now();
      SameView(Now(), {0}, {0});
      for k := 0 to |docs.index|
        invariant Filled(k) && Later(before, Now(), {0}, {0})
      {
        ghost var mid := Now();
        AddCompound(k);
        LaterTwice(before, mid, Now(), {0}, {0});
      }
    }

    /** `DoxyIndex._parse`. */
    method ParseIndex()
      requires Valid() && !objs[0].parsed && open == {}
      modifies this
      ensures Valid() && open == {} && Later(old(Now()), Now(), {}, {})
      ensures objs[0].parsed && Within(objs[0].members, |items|)
      ensures MemberItems(0) == MembersOf(docs, Top)
      ensures exists cuts :: Laid(docs, |docs.index|, MemberItems(0), cuts)
    {
      ObjAt(docs, Now(), open, 0);
      ghost var before := Now();
      Begin(0);
      ghost var mid := Now();
      assert open == {0} && MemberItems(0) == [];
      FillIndex();
      LaterTwice(before, mid, Now(), {0}, {0});
      assert {} + {0} == {0};
      LaterDone(before, Now(), {}, 0);
      Close(0);
      ghost var cuts := IndexLaid(docs, |docs.index|);
    }

    /** No parse is under way: the state in which the methods below are called and leave the tree. */
    ghost predicate Ready()
      reads this
    {
      Valid() && open == {}
    }

    method CheckParsed(i: nat)
      requires Ready() && i < |objs|
      modifies this
      ensures Ready() && Later(old(Now()), Now(), {}, {})
      ensures i < |objs| == |items| && objs[i].parsed && Within(objs[i].members, |items|)
      ensures MemberItems(i) == MembersOf(docs, items[i])
    {
      if i > 0 {
        CheckCompound(i);
      } else if !objs[0].parsed {
        ParseIndex();
      } else {
        ObjAt(docs, Now(), open, 0);
        SameView(Now(), {}, {});
      }
    }

    /** `name`: from the parse data. Without parse data the object is parsed, but the record read from its
        file has no attribute `name`, so the call fails. */
    method Name(i: nat) returns (name: Option<string>)
      requires Ready() && 0 < i < |objs|
      modifies this
      ensures Ready() && Later(old(Now()), Now(), {}, {}) && i < |items| && name == NameOf(docs, items[i])
    {
      ObjAt(docs, Now(), open, i);
      name := objs[i].parseName;
      if name.None? {
        CheckCompound(i);
      } else {
        SameView(Now(), {}, {});
      }
    }

    /** `in_category`. */
    method InCategory(i: nat, cat: Option<Cat>) returns (ids: seq<nat>)
      requires Ready() && i < |objs|
      modifies this
      ensures Ready() && Later(old(Now()), Now(), {}, {}) && i < |objs| == |items| && objs[i].parsed
      ensures Within(ids, |items|) && ItemsOf(ids, items) == InCat(docs, MembersOf(docs, items[i]), cat)
    {
      CheckParsed(i);
      if cat.None? {
        return objs[i].members;
      }
      ghost var mid := Now();
      ids := Category(i, cat.value);
      LaterTwice(old(Now()), mid, Now(), {}, {});
    }

    /** The cached members of a category, filtered when they are first asked for. */
    method Category(i: nat, cat: Cat) returns (ids: seq<nat>)
      requires Ready() && i < |objs| && objs[i].parsed
      modifies this`objs
      ensures Ready() && Later(old(Now()), Now(), {}, {}) && i < |objs| == |items| && objs[i].parsed
      ensures Within(ids, |items|) && ItemsOf(ids, items) == InCat(docs, MembersOf(docs, items[i]), Some(cat))
    {
      ObjAt(docs, Now(), open, i);
      if cat in objs[i].inCategory {
        assert CategoryOk(docs, objs[i].inCategory[cat], objs[i].members, Some(cat), items);
        SameView(Now(), {}, {});
        return objs[i].inCategory[cat];
      }
      forall k: nat | k < |objs[i].members|
        ensures ClsKnown(docs, objs, items, objs[i].members[k])
      {
        ClsAt(docs, Now(), open, objs[i].members[k]);
      }
      ids := FilterMembers(docs, objs, items, objs[i].members, cat);
      var o := objs[i].(inCategory := objs[i].inCategory[cat := ids]);
      PutCaches(docs, Now(), open, i, o);
      objs := objs[i := o];
    }

    /** One round of the loop below. */
    method Enter(mem: nat, dict: map<string, Slot>, ghost its: seq<Item>) returns (r: Option<map<string, Slot>>)
      requires Ready() && mem < |items| && items[mem] != Top && DictOk(docs, dict, its, items)
      modifies this
      ensures Ready() && Later(old(Now()), Now(), {}, {})
      ensures r.None? <==> NameOf(docs, old(items[mem])).None?
      ensures r.Some? ==> DictOk(docs, r.value, its + [old(items[mem])], items)
    {
      ghost var before := items;
      var name := Name(mem);
      if name.None? {
        return None;
      }
      SlotGrows(docs, dict, its, before, items);
      DictNext(docs, dict, its, items, mem, name.value);
      if name.value !in dict {
        r := Some(dict[name.value := One(mem)]);
      } else {
        r := Some(dict[name.value := Many]);
      }
    }

    /** The first `k` of the listed members, which stand for `its`, are in the dictionary. */
    ghost predicate Entered(ids: seq<nat>, its: seq<Item>, dict: map<string, Slot>, k: nat, before: View)
      reads this
    {
      && Ready() && Later(before, Now(), {}, {}) && k <= |its| == |ids|
      && (forall j :: 0 <= j < |ids| ==> ids[j] < |before.items| && before.items[ids[j]] == its[j])
      && Top !in its && DictOk(docs, dict, its[..k], items) && AllNamed(docs, its, k)
    }

    method EnterNext(ids: seq<nat>, ghost its: seq<Item>, dict: map<string, Slot>, k: nat, ghost before: View)
      returns (r: Option<map<string, Slot>>)
      requires k < |ids| && Entered(ids, its, dict, k, before)
      modifies this
      ensures Ready() && Later(before, Now(), {}, {})
      ensures r.None? ==> NameOf(docs, its[k]).None?
      ensures r.Some? ==> Entered(ids, its, r.value, k + 1, before)
    {
      ghost var mid := Now();
      assert its[k] == items[ids[k]] && its[k] in its;
      r := Enter(ids[k], dict, its[..k]);
      LaterTwice(before, mid, Now(), {}, {});
      assert its[..k] + [its[k]] == its[..k + 1];
    }

    /** The loop that builds the dictionary of the listed members; it fails at a member without a name. */
    method MakeDict(ids: seq<nat>) returns (r: Option<map<string, Slot>>)
      requires Ready() && Within(ids, |items|) && Top !in ItemsOf(ids, items)
      modifies this
      ensures Ready() && Later(old(Now()), Now(), {}, {})
      ensures r.None? <==> Nameless(docs, old(ItemsOf(ids, items)))
      ensures r.Some? ==> DictOk(docs, r.value, old(ItemsOf(ids, items)), items)
    {
      ghost var before, its := Now(), ItemsOf(ids, items);
      var dict: map<string, Slot> := map[];
      SameView(Now(), {}, {});
      for k := 0 to |ids|
        invariant Entered(ids, its, dict, k, before)
      {
        var entered := EnterNext(ids, its, dict, k, before);
        if entered.None? {
          return None;
        }
        dict := entered.value;
      }
      assert its[..|ids|] == its;
      r := Some(dict);
    }

    /** `_get_dict_members`. */
    method GetDictMembers(i: nat, cat: Option<Cat>) returns (r: Option<map<string, Slot>>)
      requires Ready() && i < |objs|
      modifies this
      ensures Ready() && Later(old(Now()), Now(), {}, {}) && i < |items|
      ensures r.None? <==> Nameless(docs, InCat(docs, MembersOf(docs, items[i]), cat))
      ensures r.Some? ==> DictOk(docs, r.value, InCat(docs, MembersOf(docs, items[i]), cat), items)
    {
      ghost var before := Now();
      CheckParsed(i);
      ghost var mid := Now();
      if cat in objs[i].dictMembers {
        ObjAt(docs, Now(), open, i);
        return Some(objs[i].dictMembers[cat]);
      }
      var ids := InCategory(i, cat);
      LaterTwice(before, mid, Now(), {}, {});
      NoTop(docs, items[i], cat);
      mid := Now();
      r := MakeDict(ids);
      LaterTwice(before, mid, Now(), {}, {});
      assert KeptAt(mid, Now(), {}, i);
      if r.Some? {
        mid := Now();
        StoreDict(i, cat, r.value);
        LaterTwice(before, mid, Now(), {}, {});
      }
    }

    method StoreDict(i: nat, cat: Option<Cat>, dict: map<string, Slot>)
      requires Ready() && i < |objs| && objs[i].parsed && i < |items|
      requires !Nameless(docs, InCat(docs, MembersOf(docs, items[i]), cat))
      requires DictOk(docs, dict, InCat(docs, MembersOf(docs, items[i]), cat), items)
      modifies this`objs
      ensures Ready() && Later(old(Now()), Now(), {}, {}) && |objs| == |old(objs)|
    {
      ObjAt(docs, Now(), open, i);
      var o := objs[i].(dictMembers := objs[i].dictMembers[cat := dict]);
      PutCaches(docs, Now(), open, i, o);
      objs := objs[i := o];
    }

    /** `get_member` for a single component. */
    method LookUp(i: nat, first: string, cat: Option<Cat>) returns (r: Lookup<nat>)
      requires Ready() && i < |objs|
      modifies this
      ensures Ready() && Later(old(Now()), Now(), {}, {}) && i < |items|
      ensures Answers(r, Level(docs, items[i], first, cat), items)
    {
      var known := GetDictMembers(i, cat);
      if known.None? {
        return AttributeError;
      }
      var dict := known.value;
      assert SlotOk(docs, dict, InCat(docs, MembersOf(docs, items[i]), cat), first, items);
      if first !in dict {
        return NoSuchMember;
      }
      match dict[first]
      case Many => r := Duplicate;
      case One(member) => r := Found(member);
    }

    /** `get_member`: exactly what the resolver says, on every path and in every state of the caches; and
        the object found is the one object that stands for the item. */
    method GetMember(i: nat, name: string, cat: Option<Cat>) returns (r: Lookup<nat>)
      requires Ready() && i < |objs|
      modifies this
      ensures Ready() && Later(old(Now()), Now(), {}, {}) && i < |items|
      ensures Answers(r, Resolve(docs, items[i], Split(name), cat), items)
      decreases |name|
    {
      var bits := Split(name);
      var rest := Join(bits[1..]);
      RestSplits(name);
      ghost var before, it := Now(), items[i];
      r := LookUp(i, bits[0], cat);
      ResolveStep(docs, it, bits, bits[1..], cat);
      if r.Found? && rest != "" {
        ghost var mid := Now();
        r := GetMember(r.value, rest, cat);
        LaterTwice(before, mid, Now(), {}, {});
      }
    }

    /** `has_member`: only the absence of a member is answered, all other exceptions get through. */
    method HasMember(i: nat, name: string, cat: Option<Cat>) returns (r: Lookup<bool>)
      requires Ready() && i < |objs|
      modifies this
      ensures Ready() && Later(old(Now()), Now(), {}, {}) && i < |items|
      ensures r == match Resolve(docs, items[i], Split(name), cat)
        case Found(_) => Found(true)
        case NoSuchMember => Found(false)
        case Duplicate => Duplicate
        case AttributeError => AttributeError
    {
      var mem := GetMember(i, name, cat);
      match mem
      case Found(_) => r := Found(true);
      case NoSuchMember => r := Found(false);
      case Duplicate => r := Duplicate;
      case AttributeError => r := AttributeError;
    }
  }

  ghost predicate AllNamed(d: Docs, its: seq<Item>, k: nat)
    requires k <= |its|
  {
    forall j :: 0 <= j < k ==> NameOf(d, its[j]).Some?
  }

  ghost predicate ClsKnown(d: Docs, objs: seq<Obj>, items: seq<Item>, id: nat) {
    id < |objs| == |items| && objs[id].cls == ClassOf(d, items[id])
  }

  /** The members that are instances of the category, in order. */
  method FilterMembers(ghost d: Docs, objs: seq<Obj>, ghost items: seq<Item>, members: seq<nat>, cat: Cat)
    returns (ids: seq<nat>)
    requires forall k: nat :: k < |members| ==> ClsKnown(d, objs, items, members[k])
    ensures CategoryOk(d, ids, members, Some(cat), items)
  {
    ids := [];
    for k := 0 to |members|
      invariant Within(ids, |items|)
      invariant ItemsOf(ids, items) == InCat(d, ItemsOf(members[..k], items), Some(cat))
    {
      InCatNext(d, members, items, k, cat);
      if Includes(cat, objs[members[k]].cls) {
        ids := ids + [members[k]];
      }
    }
    assert members[..|members|] == members;
  }

  datatype Query = Query(name: string, cat: Option<Cat>)

  /** Any sequence of lookups from the index: every answer is the resolver's, whatever was looked up,
      parsed and cached before. */
  method LookUpAll(t: Tree, queries: seq<Query>) returns (rs: seq<Lookup<nat>>)
    requires t.Ready()
    modifies t
    ensures t.Ready() && AllAnswered(t.docs, queries, rs, t.items) && |rs| == |queries|
  {
    rs := [];
    for k := 0 to |queries|
      invariant t.Ready() && |rs| == k && AllAnswered(t.docs, queries, rs, t.items)
    {
      ghost var items := t.items;
      var r := t.GetMember(0, queries[k].name, queries[k].cat);
      NextAnswered(t.docs, queries, rs, r, items, t.items);
      rs := rs + [r];
    }
  }

  /** The results so far are the resolver's answers to the first queries. */
  ghost predicate AllAnswered(d: Docs, queries: seq<Query>, rs: seq<Lookup<nat>>, items: seq<Item>) {
    |rs| <= |queries| && forall k :: 0 <= k < |rs| ==> Answered(d, queries[k], rs[k], items)
  }

  lemma NextAnswered(
    d: Docs, queries: seq<Query>, rs: seq<Lookup<nat>>, r: Lookup<nat>, items: seq<Item>, items': seq<Item>)
    requires AllAnswered(d, queries, rs, items) && items <= items' && |rs| < |queries|
    requires Answered(d, queries[|rs|], r, items')
    ensures AllAnswered(d, queries, rs + [r], items')
  {
    forall j | 0 <= j < |rs|
      ensures Answered(d, queries[j], rs[j], items')
    {
      AnswerStands(d, queries[j], rs[j], items, items');
    }
  }

  /** The answer to a question put to the index. */
  ghost predicate Answered(d: Docs, q: Query, r: Lookup<nat>, items: seq<Item>) {
    Answers(r, Resolve(d, Top, Split(q.name), q.cat), items)
  }

  lemma AnswerStands(d: Docs, q: Query, r: Lookup<nat>, items: seq<Item>, items': seq<Item>)
    requires Answered(d, q, r, items) && items <= items'
    ensures Answered(d, q, r, items')
  {
  }

  /** Equal questions get the same object. */
  lemma SameObject(v: View, r: Lookup<nat>, r': Lookup<nat>, want: Lookup<Item>)
    requires Identity(v) && Answers(r, want, v.items) && Answers(r', want, v.items)
    ensures r == r'
  {
    if r.Found? && r'.Found? && r.value != r'.value {
      DifferentItems(v, r.value, r'.value);
    }
  }

  ghost predicate Answers(r: Lookup<nat>, want: Lookup<Item>, items: seq<Item>) {
    match r
    case Found(id) => id < |items| && want == Found(items[id])
    case NoSuchMember => want == NoSuchMember
    case Duplicate => want == Duplicate
    case AttributeError => want == AttributeError
  }

  /** Only the first object stands for the index. */
  lemma TopAlone(v: View, i: nat)
    requires Identity(v) && 0 < i < |v.items| && v.items[0] == Top
    ensures v.items[i] != Top
  {
    assert Differ(v.items, 0, i);
  }

  lemma PutCaches(d: Docs, v: View, open: set<nat>, i: nat, o: Obj)
    requires Sound(d, v, open) && i < |v.objs| && v.objs[i].parsed && i !in open
    requires o.(inCategory := map[], dictMembers := map[]) == v.objs[i].(inCategory := map[], dictMembers := map[])
    requires CachesOk(d, o, v.items)
    ensures Sound(d, v.(objs := v.objs[i := o]), open) && Later(v, v.(objs := v.objs[i := o]), open, {})
  {
    ObjAt(d, v, open, i);
    PutSound(d, v, open, open, i, o);
    var w := v.(objs := v.objs[i := o]);
    forall j: nat | j < |v.objs|
      ensures KeptAt(v, w, open, j)
    {
    }
  }

  lemma InCatNext(d: Docs, ids: seq<nat>, items: seq<Item>, k: nat, cat: Cat)
    requires Within(ids, |items|) && k < |ids|
    ensures InCat(d, ItemsOf(ids[..k + 1], items), Some(cat)) == InCat(d, ItemsOf(ids[..k], items), Some(cat))
      + (if Includes(cat, ClassOf(d, items[ids[k]])) then [items[ids[k]]] else [])
  {
    assert ItemsOf(ids[..k + 1], items) == ItemsOf(ids[..k], items) + [items[ids[k]]];
    InCatSnoc(d, ItemsOf(ids[..k], items), items[ids[k]], cat);
  }

  lemma DictNext(d: Docs, dict: map<string, Slot>, its: seq<Item>, items: seq<Item>, id: nat, name: string)
    requires DictOk(d, dict, its, items) && id < |items| && NameOf(d, items[id]) == Some(name)
    ensures DictOk(d, dict[name := if name in dict then Many else One(id)], its + [items[id]], items)
  {
    var dict' := dict[name := if name in dict then Many else One(id)];
    forall n
      ensures SlotOk(d, dict', its + [items[id]], n, items)
    {
      assert SlotOk(d, dict, its, n, items);
      NamedSnoc(d, its, items[id], n);
    }
  }

  lemma FilledNext(
    d: Docs, k: nat, before: seq<Item>, after: seq<Item>, refs: map<string, nat>, refs': map<string, nat>)
    requires k < |d.index| && before == IndexMembers(d, k) && after == before + Contribution(d, d.index[k])
    requires IndexedUpTo(d, refs, k) && d.index[k].refid in refs' && forall r :: r in refs ==> r in refs'
    ensures after == IndexMembers(d, k + 1) && IndexedUpTo(d, refs', k + 1)
  {
    IndexMembersNext(d, k);
    IndexedNext(d, refs, refs', k);
  }

  lemma IndexedNext(d: Docs, refs: map<string, nat>, refs': map<string, nat>, k: nat)
    requires IndexedUpTo(d, refs, k) && k < |d.index| && d.index[k].refid in refs'
    requires forall r :: r in refs ==> r in refs'
    ensures IndexedUpTo(d, refs', k + 1)
  {
  }

  lemma GroupMembers(d: Docs, r: string)
    requires ClassOf(d, Compound(r)) == DoxyGroup
    ensures var doc, firsts := d.file(r), FirstDefs(r, Defs(d, r), |Defs(d, r)|);
      CompoundMembers(d, r) == AllCompounds(doc.groups, |doc.groups|) + AllCompounds(doc.classes, |doc.classes|) + firsts
  {
  }

  lemma PlainMembers(d: Docs, r: string)
    requires ClassOf(d, Compound(r)) != DoxyGroup
    ensures CompoundMembers(d, r) ==
      if Includes(Compounds, ClassOf(d, Compound(r))) then FirstDefs(r, Defs(d, r), |Defs(d, r)|) else []
  {
  }

  lemma EmptyFront<T>(a: seq<T>)
    ensures [] + a == a
  {
  }

  lemma SameView(v: View, open: set<nat>, mine: set<nat>)
    ensures Later(v, v, open, mine)
  {
  }

  /** `uniques` holds the names of the first `k` definitions. */
  ghost predicate NamesAre(uniques: set<string>, defs: seq<MemberDef>, k: nat)
    requires k <= |defs|
  {
    forall n :: n in uniques <==> HasName(defs, k, n)
  }

  lemma NextNames(uniques: set<string>, defs: seq<MemberDef>, k: nat)
    requires k < |defs| && NamesAre(uniques, defs, k)
    ensures NamesAre(uniques + {defs[k].name}, defs, k + 1)
  {
    forall n
      ensures n in uniques + {defs[k].name} <==> HasName(defs, k + 1, n)
    {
      HasNameNext(defs, k + 1, n);
    }
  }

  /** `from_refid` with class `cls` yields an object of the right class. */
  ghost predicate InnerFits(d: Docs, cls: Cls, refid: string) {
    Indexed(d, refid) || cls == ClassOf(d, Compound(refid))
  }

  ghost predicate InnerFitsAt(d: Docs, cls: Cls, rs: seq<string>, k: nat)
    requires k < |rs|
  {
    InnerFits(d, cls, rs[k])
  }

  lemma Regroup<T>(a: seq<T>, b: seq<T>, c: seq<T>)
    ensures (a + b) + c == a + (b + c)
  {
  }

  lemma IndexedBound(d: Docs, refs: map<string, nat>, refid: string)
    requires AllIndexed(d, refs) && Indexed(d, refid)
    ensures refid in refs
  {
  }

  ghost predicate AllFit(d: Docs, cls: Cls, rs: seq<string>) {
    forall k: nat :: k < |rs| ==> InnerFitsAt(d, cls, rs, k)
  }

  lemma InnersFit(d: Docs, r: string)
    requires Sensible(d)
    ensures AllFit(d, DoxyGroup, d.file(r).groups) && AllFit(d, DoxyClass, d.file(r).classes)
  {
    forall k: nat | k < |d.file(r).groups|
      ensures InnerFitsAt(d, DoxyGroup, d.file(r).groups, k)
    {
      assert d.file(r).groups[k] in d.file(r).groups;
    }
    forall k: nat | k < |d.file(r).classes|
      ensures InnerFitsAt(d, DoxyClass, d.file(r).classes, k)
    {
      assert d.file(r).classes[k] in d.file(r).classes;
    }
  }
}
