/**
 * deep_prefetch_related_objects: the traversal engine. It drains the
 * buffer group by group; for each group it resolves the head attribute of
 * the lookup, short-circuits members whose cache is already known, makes at
 * most one batched fetch for the rest, writes the results into the
 * members' caches and into `seen`, and re-queues what it found under the
 * rest of the lookup.
 */
module Engine {
  import opened Wrappers
  import opened Helpers
  import opened Lookups
  import opened Objects
  import opened Seen
  import opened Buffers

  /** One popped group: its lookup, class key, members, the member sampled
      to find the prefetcher, and the owners of the batched fetch if one was
      made. */
  datatype Round = Round(lookup: Lookup, model: Cls, members: set<Obj>, sample: Obj, fetched: Option<set<Obj>>)

  /** What every round satisfies: the sample is a member, and a fetch, when
      made, is for a non-empty subset of the members. */
  predicate RoundOk(g: Round)
  {
    g.sample in g.members && (g.fetched.Some? ==> g.fetched.value != {} && g.fetched.value <= g.members)
  }

  /** How a run ends: the buffer drained, an exception, or the round bound. */
  datatype Run = Done | Raised(error: Error) | OutOfFuel

  /** The fetched objects whose related key is k, in query order. */
  function Matching(discovered: seq<Obj>, relKey: Obj -> Key, k: Key): seq<Obj>
    decreases |discovered|
  {
    if discovered == [] then []
    else
      var n := |discovered| - 1;
      Matching(discovered[..n], relKey, k) + (if relKey(discovered[n]) == k then [discovered[n]] else [])
  }

  /** An owner's cache holds exactly the fetched objects whose related key
      is its owner key, and is never longer than the query result. */
  lemma {:induction false} MatchingMembers(discovered: seq<Obj>, relKey: Obj -> Key, k: Key)
    ensures |Matching(discovered, relKey, k)| <= |discovered|
    ensures forall x :: x in Matching(discovered, relKey, k) <==> x in discovered && relKey(x) == k
    decreases |discovered|
  {
    if discovered != [] {
      var n := |discovered| - 1;
      MatchingMembers(discovered[..n], relKey, k);
      assert discovered == discovered[..n] + [discovered[n]];
    }
  }

  /** Matching keeps query order: it distributes over concatenation. */
  lemma {:induction false} MatchingConcat(a: seq<Obj>, b: seq<Obj>, relKey: Obj -> Key, k: Key)
    ensures Matching(a + b, relKey, k) == Matching(a, relKey, k) + Matching(b, relKey, k)
    decreases |b|
  {
    if b != [] {
      var n := |b| - 1;
      assert (a + b)[..|a + b| - 1] == a + b[..n];
      MatchingConcat(a, b[..n], relKey, k);
    } else {
      assert a + b == a;
    }
  }

  /** The cache an owner receives: `rel_to_cur.get(val, [])`. */
  function CacheFor(index: map<Key, seq<Obj>>, k: Key): seq<Obj>
  {
    if k in index then index[k] else []
  }

  /** `rel_to_cur`: the fetched objects grouped by related key. Looking a
      key up yields the objects carrying it in query order, and only keys
      some object carries are present. */
  method GroupByKey(discovered: seq<Obj>, relKey: Obj -> Key) returns (index: map<Key, seq<Obj>>)
    ensures forall k :: CacheFor(index, k) == Matching(discovered, relKey, k)
    ensures forall k :: k in index ==> index[k] != []
  {
    index := map[];
    for i := 0 to |discovered|
      invariant forall k :: CacheFor(index, k) == Matching(discovered[..i], relKey, k)
      invariant forall k :: k in index ==> index[k] != []
    {
      assert discovered[..i + 1][..i] == discovered[..i];
      var o := discovered[i];
      var v := relKey(o);
      index := index[v := CacheFor(index, v) + [o]];
    }
    assert discovered[..|discovered|] == discovered;
  }

  /** The non-None values of a plain attribute over a group. */
  function PlainTargets(w: World, current: set<Obj>, attr: Attr): set<Obj>
  {
    set o | o in current && w.attrValue(o, attr).Some? :: w.attrValue(o, attr).value
  }

  /** Adding one member adds its value, if it has one. */
  lemma PlainTargetsAdd(w: World, done: set<Obj>, o: Obj, attr: Attr)
    ensures PlainTargets(w, done + {o}, attr) ==
      PlainTargets(w, done, attr) + (if w.attrValue(o, attr).Some? then {w.attrValue(o, attr).value} else {})
  {
  }

  /** Some member of the group lacks the attribute, so `getattr` raises. */
  predicate LacksAttr(w: World, current: set<Obj>, attr: Attr)
  {
    exists o :: o in current && w.prefetcher(o, attr).NotFound?
  }

  /** `filter(is_not_none, [getattr(o, attr) for _, o in current])`, in the
      set's iteration order. The group may mix classes, so a member without
      the attribute makes `getattr` raise AttributeError. */
  method CollectPlain(w: World, current: set<Obj>, attr: Attr) returns (r: Outcome<Error>, values: seq<Obj>)
    ensures r.Fail? <==> LacksAttr(w, current, attr)
    ensures r.Fail? ==> r.error == NoAttr(attr)
    ensures r.Pass? ==> Elements(values) == PlainTargets(w, current, attr)
    ensures |values| <= |current|
  {
    values := [];
    var todo := current;
    while todo != {}
      invariant todo <= current
      invariant forall o :: o in current - todo ==> !w.prefetcher(o, attr).NotFound?
      invariant Elements(values) == PlainTargets(w, current - todo, attr)
      invariant |values| <= |current - todo|
      decreases todo
    {
      var o :| o in todo;
      if w.prefetcher(o, attr).NotFound? {
        return Fail(NoAttr(attr)), values;
      }
      var x := w.attrValue(o, attr);
      assert current - (todo - {o}) == (current - todo) + {o};
      PlainTargetsAdd(w, current - todo, o, attr);
      if IsNotNone(x) {
        values := values + [x.value];
      }
      todo := todo - {o};
    }
    assert current - todo == current;
    r := Pass;
  }

  /** The lookups discovered objects are re-queued under: the clipped
      lookup, if any, then the extra lookups of the fetched query set. */
  function LookupsForDiscovered(lookup: Lookup, extra: seq<Lookup>): (r: seq<Lookup>)
    ensures forall l :: l in r <==> l in extra || ClipLookup(lookup) == Some(l)
    ensures |r| == |extra| + (if ClipLookup(lookup).Some? then 1 else 0)
    ensures r[|r| - |extra|..] == extra
    ensures r == [] <==> extra == [] && ClipLookup(lookup).None?
  {
    match ClipLookup(lookup)
    case Some(c) => [c] + extra
    case None => extra
  }

  /** The clipped lookup is filed last, so, when it is new to the buffer and
      not among the extra lookups, it is the next lookup processed. */
  lemma ClippedGoesNext(keys: seq<Lookup>, lookup: Lookup, extra: seq<Lookup>)
    requires ClipLookup(lookup).Some?
    requires ClipLookup(lookup).value !in keys && ClipLookup(lookup).value !in extra
    ensures Last(Appended(keys, Reverse(LookupsForDiscovered(lookup, extra)))) == ClipLookup(lookup)
  {
    var ls := LookupsForDiscovered(lookup, extra);
    assert ls[1..] == extra;
    LastFiledFirst(keys, ls);
  }

  /** base.py lines 267-275: a plain attribute in a lookup with a separator. Its
      non-None values are filed under the clipped lookup, under the class of
      the first of them; no fetch is made. */
  method FollowPlain(w: World, buffer: Buffer, lookup: Lookup, attr: Attr, current: set<Obj>)
    returns (r: Outcome<Error>, values: seq<Obj>)
    requires buffer.Valid()
    modifies buffer
    ensures buffer.Valid()
    ensures ClipLookup(lookup).None? ==> r.Pass? && unchanged(buffer)
    ensures ClipLookup(lookup).Some? ==>
      (r.Fail? <==> LacksAttr(w, current, attr) || PlainTargets(w, current, attr) == {})
    ensures r.Fail? ==>
      r.error == (if LacksAttr(w, current, attr) then NoAttr(attr) else EmptyObjects) &&
      buffer.keys == old(buffer.keys) && buffer.groups == old(buffer.groups)
    ensures r.Pass? && ClipLookup(lookup).Some? ==>
      Elements(values) == PlainTargets(w, current, attr) &&
      buffer.keys == Appended(old(buffer.keys), [ClipLookup(lookup).value]) &&
      buffer.groups == Filed(old(buffer.groups), [ClipLookup(lookup).value], values[0].cls, PlainTargets(w, current, attr))
  {
    values := [];
    var clipped := ClipLookup(lookup);
    if clipped.Some? {
      r, values := CollectPlain(w, current, attr);
      if r.Fail? {
        return;
      }
      assert values != [] ==> values[0] in Elements(values);
      r := buffer.Update(values, [clipped.value]);
    } else {
      r := Pass;
    }
  }

  /** A member set aside without a fetch: its relation was already cached
      on the instance (the cache read back), or its value was recorded in
      `seen` (the recorded pair and cache, then set on the instance). */
  datatype SetAside = Cached(cache: seq<Obj>) | Recalled(meta: Option<CacheInfo>, cache: seq<Obj>)

  /** `if clipped: update_buffer(buffer, cache, [clipped])`: the buffer goes
      from (keys, groups) to (keys', groups'), with outcome r. */
  ghost predicate Requeued(keys: seq<Lookup>, groups: Groups, keys': seq<Lookup>, groups': Groups,
                           clipped: Option<Lookup>, cache: seq<Obj>, r: Outcome<Error>)
  {
    if clipped.None? then
      r.Pass? && keys' == keys && groups' == groups
    else if cache == [] then
      r == Fail(EmptyObjects) && keys' == keys && groups' == groups
    else
      r.Pass? && keys' == Appended(keys, [clipped.value]) &&
      groups' == Filed(groups, [clipped.value], cache[0].cls, Elements(cache))
  }

  /** Why setting member e aside can raise, given its caches st when the
      group was popped: get_cache fails on a cached relation, set_cache
      needs `.all()` on a recorded one, or an empty cache is re-queued. */
  ghost predicate SetAsideError(w: World, st: ObjState, clipped: Option<Lookup>, attr: Attr, e: Obj, err: Error)
  {
    var p := w.prefetcher(e, attr);
    if IsFetched(st, p) then
      GetCache(st, p.rel) == Err(err) || (err == EmptyObjects && clipped.Some? && GetCache(st, p.rel) == Ok([]))
    else
      (err == NoAll(attr) && !HasAll(w, e, attr)) || (err == EmptyObjects && clipped.Some?)
  }

  /** What holds of a set-aside member afterwards, given its caches st
      before and st' after, and the tree t' (both parts below). */
  ghost predicate SetAsideFacts(w: World, st: ObjState, st': ObjState, t': Tree, model: Cls, attr: Attr, e: Obj, s: SetAside)
  {
    SetAsideCaches(w, st, st', attr, e, s) && SetAsideSeen(t', model, attr, e, s)
  }

  /** A cached relation was read back and left unchanged; a recorded cache
      was set on the instance, which set_cache could do. */
  ghost predicate SetAsideCaches(w: World, st: ObjState, st': ObjState, attr: Attr, e: Obj, s: SetAside)
  {
    var p := w.prefetcher(e, attr);
    match s
    case Cached(cache) => IsFetched(st, p) && GetCache(st, p.rel) == Ok(cache) && st' == st
    case Recalled(meta, cache) =>
      !IsFetched(st, p) && !(MultiBranch(meta) && !HasAll(w, e, attr)) && WrittenOn(st, st', meta, cache)
  }

  /** A cached member's value is now recorded; a recalled one still hits. */
  ghost predicate SetAsideSeen(t': Tree, model: Cls, attr: Attr, e: Obj, s: SetAside)
  {
    if s.Cached? then Recorded(t', model, attr, ValueOf(e)) else Hit(t', model, attr, e)
  }

  /** set_cache took an instance's caches from st to st'. */
  ghost predicate WrittenOn(st: ObjState, st': ObjState, meta: Option<CacheInfo>, cache: seq<Obj>)
  {
    st' == Written(st, meta, cache)
  }

  /** One member's turn of the set-aside pass (base.py lines 281-296) when
      it raises nothing: from the tree t and the pair carried so far, the
      new tree, the new carried pair and what the member is set aside with,
      if anything. An already-cached relation is read back and recorded with
      the carried pair; otherwise a `seen` hit yields the pair and cache
      recorded for the instance's value, and the pair is carried on;
      otherwise the probe only creates its level. */
  function Turn(w: World, st: ObjState, model: Cls, attr: Attr, t: Tree, meta: Option<CacheInfo>, e: Obj)
    : (Tree, Option<CacheInfo>, Option<SetAside>)
  {
    var p := w.prefetcher(e, attr);
    if IsFetched(st, p) then
      var cache := if GetCache(st, p.rel).Ok? then GetCache(st, p.rel).value else [];
      (Updated(t, model, attr, meta, e, cache), meta, Some(Cached(cache)))
    else if Hit(t, model, attr, e) then
      var entry := t[e.cls][attr];
      (t, entry.meta, Some(Recalled(entry.meta, entry.cache[ValueOf(e)])))
    else
      (Probed(t, model, e), meta, None)
  }

  /** What the set-aside pass carries from member to member: the `seen`
      tree, the (single, cache_name) pair and the members set aside. */
  datatype Carried = Carried(tree: Tree, meta: Option<CacheInfo>, setAside: map<Obj, SetAside>)

  /** The set-aside pass over the members in the given order, starting from
      the tree t0 and the pair None (base.py line 277), each member taking
      its turn with the caches it had when the group was popped. */
  ghost function Swept(w: World, objs: map<Obj, ObjState>, model: Cls, attr: Attr, t0: Tree, order: seq<Obj>): Carried
    decreases |order|
  {
    if order == [] then Carried(t0, None, map[])
    else
      var n := |order| - 1;
      var c := Swept(w, objs, model, attr, t0, order[..n]);
      var e := order[n];
      var turn := Turn(w, StateOf(objs, e), model, attr, c.tree, c.meta, e);
      Carried(turn.0, turn.1, if turn.2.Some? then c.setAside[e := turn.2.value] else c.setAside)
  }

  /** Taking one more member extends the pass by that member's turn. */
  lemma SweptSnoc(w: World, objs: map<Obj, ObjState>, model: Cls, attr: Attr, t0: Tree, order: seq<Obj>, e: Obj)
    ensures var c := Swept(w, objs, model, attr, t0, order);
      var turn := Turn(w, StateOf(objs, e), model, attr, c.tree, c.meta, e);
      Swept(w, objs, model, attr, t0, order + [e]) ==
        Carried(turn.0, turn.1, if turn.2.Some? then c.setAside[e := turn.2.value] else c.setAside)
  {
    assert (order + [e])[..|order|] == order;
  }

  /** When no member's relation is cached on the instance, `seen` gains only
      empty levels, so every member set aside is recalled with exactly the
      pair and cache the tree recorded for its value when the pass began. */
  lemma {:induction false} SweptRecallsOld(w: World, objs: map<Obj, ObjState>, model: Cls, attr: Attr, t0: Tree, order: seq<Obj>)
    requires forall i :: 0 <= i < |order| ==> !IsFetched(StateOf(objs, order[i]), w.prefetcher(order[i], attr))
    ensures var c := Swept(w, objs, model, attr, t0, order);
      forall e :: e in c.setAside ==>
        Hit(t0, model, attr, e) && c.setAside[e] == Recalled(t0[e.cls][attr].meta, t0[e.cls][attr].cache[ValueOf(e)])
    ensures var c := Swept(w, objs, model, attr, t0, order);
      (model in c.tree <==> model in t0) &&
      forall k, a :: k in c.tree && a in c.tree[k] ==> k in t0 && a in t0[k] && c.tree[k][a] == t0[k][a]
    decreases |order|
  {
    if order != [] {
      var n := |order| - 1;
      SweptRecallsOld(w, objs, model, attr, t0, order[..n]);
    }
  }

  /** When every member set aside was cached on the instance, no `seen` hit
      set the carried pair, so it is still None and the relation's entry in
      `seen` records None as its (single, cache_name) pair. */
  lemma {:induction false} SweptCachedOnly(w: World, objs: map<Obj, ObjState>, model: Cls, attr: Attr, t0: Tree, order: seq<Obj>)
    requires Distinct(order)
    ensures Swept(w, objs, model, attr, t0, order).setAside.Keys <= Elements(order)
    ensures var c := Swept(w, objs, model, attr, t0, order);
      (forall e :: e in c.setAside ==> c.setAside[e].Cached?) ==>
        c.meta == None &&
        (c.setAside != map[] ==> model in c.tree && attr in c.tree[model] && c.tree[model][attr].meta == None)
    decreases |order|
  {
    if order != [] {
      var n := |order| - 1;
      var pre, e := order[..n], order[n];
      assert Distinct(pre);
      SweptCachedOnly(w, objs, model, attr, t0, pre);
      assert e !in Elements(pre);
      var cp := Swept(w, objs, model, attr, t0, pre);
      var c := Swept(w, objs, model, attr, t0, order);
      var turn := Turn(w, StateOf(objs, e), model, attr, cp.tree, cp.meta, e);
      if forall x :: x in c.setAside ==> c.setAside[x].Cached? {
        forall x | x in cp.setAside
          ensures cp.setAside[x].Cached?
        {
          assert x != e && c.setAside[x] == cp.setAside[x];
        }
        assert turn.2.Some? ==> c.setAside[e] == turn.2.value;
        assert turn.1 == cp.meta;
      }
    }
  }

  /** The pass only grows `seen`, sets aside only members it visited, and a
      member it visited but did not set aside was neither cached on the
      instance nor recorded in the tree the pass began with. */
  lemma {:induction false} SweptGrows(w: World, objs: map<Obj, ObjState>, model: Cls, attr: Attr, t0: Tree, order: seq<Obj>)
    ensures var c := Swept(w, objs, model, attr, t0, order);
      Grows(t0, c.tree) && c.setAside.Keys <= Elements(order)
    ensures var c := Swept(w, objs, model, attr, t0, order);
      forall e :: e in order && e !in c.setAside ==>
        !IsFetched(StateOf(objs, e), w.prefetcher(e, attr)) && !Hit(t0, model, attr, e)
    ensures var c := Swept(w, objs, model, attr, t0, order);
      forall e :: e in c.setAside ==> SetAsideSeen(c.tree, model, attr, e, c.setAside[e])
    decreases |order|
  {
    if order != [] {
      var n := |order| - 1;
      var pre, e := order[..n], order[n];
      SweptGrows(w, objs, model, attr, t0, pre);
      var cp := Swept(w, objs, model, attr, t0, pre);
      var turn := Turn(w, StateOf(objs, e), model, attr, cp.tree, cp.meta, e);
      if IsFetched(StateOf(objs, e), w.prefetcher(e, attr)) {
        UpdatedRecords(cp.tree, model, attr, cp.meta, e, turn.2.value.cache);
      } else if !Hit(cp.tree, model, attr, e) {
        ProbedKeepsHits(cp.tree, model, e);
      }
      GrowsTrans(t0, cp.tree, turn.0);
      assert forall x :: x in order && x != e ==> x in pre;
      forall x | x in cp.setAside && x != e
        ensures SetAsideSeen(turn.0, model, attr, x, cp.setAside[x])
      {
        assert SetAsideSeen(cp.tree, model, attr, x, cp.setAside[x]);
      }
    }
  }

  /** Appending a new member keeps an order free of repeats. */
  lemma DistinctSnoc(order: seq<Obj>, e: Obj)
    requires Distinct(order) && e !in Elements(order)
    ensures Distinct(order + [e]) && Elements(order + [e]) == Elements(order) + {e}
  {
    assert forall i :: 0 <= i < |order| ==> (order + [e])[i] == order[i];
  }

  /** No member of `current` has its relation cached on it in the snapshot objs. */
  ghost predicate NoneCached(w: World, objs: map<Obj, ObjState>, attr: Attr, current: set<Obj>)
  {
    forall e :: e in current ==> !IsFetched(StateOf(objs, e), w.prefetcher(e, attr))
  }

  /** Every member set aside was recalled with exactly the pair and the
      cache that t0 records for its value under its own class. */
  ghost predicate RecalledFrom(t0: Tree, model: Cls, attr: Attr, setAside: map<Obj, SetAside>)
  {
    forall e :: e in setAside ==>
      Hit(t0, model, attr, e) && setAside[e] == Recalled(t0[e.cls][attr].meta, t0[e.cls][attr].cache[ValueOf(e)])
  }

  /** At least one member was set aside, and every one of them was cached on the instance. */
  ghost predicate AllCached(setAside: map<Obj, SetAside>)
  {
    setAside != map[] && forall e :: e in setAside ==> setAside[e].Cached?
  }

  /** `seen[model][attr]` exists and records the pair None. */
  ghost predicate PairUnset(t: Tree, model: Cls, attr: Attr)
  {
    model in t && attr in t[model] && t[model][attr].meta == None
  }

  /** setAside is what a pass over every member of `current`, in some order, sets aside. */
  ghost predicate SweptBy(w: World, objs: map<Obj, ObjState>, model: Cls, attr: Attr, t0: Tree,
                          current: set<Obj>, setAside: map<Obj, SetAside>)
  {
    exists order :: Distinct(order) && Elements(order) == current &&
      setAside == Swept(w, objs, model, attr, t0, order).setAside
  }

  /** The two facts above for a pass over a whole group, each member once. */
  lemma SweptFacts(w: World, objs: map<Obj, ObjState>, model: Cls, attr: Attr, t0: Tree, order: seq<Obj>, current: set<Obj>)
    requires Distinct(order) && Elements(order) == current
    ensures var c := Swept(w, objs, model, attr, t0, order);
      NoneCached(w, objs, attr, current) ==> RecalledFrom(t0, model, attr, c.setAside)
    ensures var c := Swept(w, objs, model, attr, t0, order);
      AllCached(c.setAside) ==> PairUnset(c.tree, model, attr)
    ensures var c := Swept(w, objs, model, attr, t0, order);
      Grows(t0, c.tree) && c.setAside.Keys <= current &&
      forall e :: e in current && e !in c.setAside ==>
        !IsFetched(StateOf(objs, e), w.prefetcher(e, attr)) && !Hit(t0, model, attr, e)
    ensures var c := Swept(w, objs, model, attr, t0, order);
      forall e :: e in c.setAside ==> SetAsideSeen(c.tree, model, attr, e, c.setAside[e])
  {
    SweptGrows(w, objs, model, attr, t0, order);
    if NoneCached(w, objs, attr, current) {
      forall i | 0 <= i < |order|
        ensures !IsFetched(StateOf(objs, order[i]), w.prefetcher(order[i], attr))
      {
        assert order[i] in Elements(order);
      }
      SweptRecallsOld(w, objs, model, attr, t0, order);
    }
    SweptCachedOnly(w, objs, model, attr, t0, order);
  }

  /** base.py lines 285-302 for one member `e`: when its relation is already
      cached on it, the cache is read back and recorded in `seen` with the
      metadata carried so far; otherwise, when `seen` already holds its
      value, the recorded cache is set on it and its metadata is carried
      on. Either way the cache is re-queued under the clipped lookup and
      the member is set aside (`found`). */
  method DiscardOne(w: World, buffer: Buffer, seen: SeenTree, caches: Caches,
                    clipped: Option<Lookup>, model: Cls, attr: Attr, meta: Option<CacheInfo>, e: Obj)
    returns (r: Outcome<Error>, found: Option<SetAside>, meta': Option<CacheInfo>)
    requires buffer.Valid()
    modifies buffer, seen, caches
    ensures buffer.Valid()
    ensures Grows(old(seen.tree), seen.tree)
    ensures forall x :: x != e ==> caches.Of(x) == old(caches.Of(x))
    ensures r.Pass? ==>
      (found.Some? <==> IsFetched(old(caches.Of(e)), w.prefetcher(e, attr)) || Hit(old(seen.tree), model, attr, e))
    ensures found.None? && r.Pass? ==>
      meta' == meta && caches.objs == old(caches.objs) && unchanged(buffer) && seen.tree == Probed(old(seen.tree), model, e)
    ensures found.Some? && found.value.Cached? ==>
      meta' == meta && caches.objs == old(caches.objs) &&
      seen.tree == Updated(old(seen.tree), model, attr, meta, e, found.value.cache)
    ensures found.Some? && found.value.Recalled? ==>
      Hit(old(seen.tree), model, attr, e) && seen.tree == old(seen.tree) && meta' == found.value.meta &&
      found.value == Recalled(old(seen.tree)[e.cls][attr].meta, old(seen.tree)[e.cls][attr].cache[ValueOf(e)])
    ensures r.Fail? ==> SetAsideError(w, old(caches.Of(e)), clipped, attr, e, r.error)
    ensures r.Pass? ==> (seen.tree, meta', found) == Turn(w, old(caches.Of(e)), model, attr, old(seen.tree), meta, e)
    ensures clipped.None? ==> buffer.keys == old(buffer.keys) && buffer.groups == old(buffer.groups)
    ensures r.Pass? && found.Some? ==>
      SetAsideFacts(w, old(caches.Of(e)), caches.Of(e), seen.tree, model, attr, e, found.value) &&
      Requeued(old(buffer.keys), old(buffer.groups), buffer.keys, buffer.groups, clipped, found.value.cache, r)
  {
    meta' := meta;
    r := Pass;
    found := None;
    var p := w.prefetcher(e, attr);
    if IsFetched(caches.Of(e), p) {
      var got := GetCache(caches.Of(e), p.rel);
      if got.Err? {
        return Fail(got.error), None, meta';
      }
      UpdatedRecords(seen.tree, model, attr, meta, e, got.value);
      seen.Update(model, attr, meta, e, got.value);
      found := Some(Cached(got.value));
    } else {
      ProbedKeepsHits(seen.tree, model, e);
      var hit := seen.Probe(model, attr, e);
      if hit.Some? {
        meta' := hit.value.0;
        found := Some(Recalled(hit.value.0, hit.value.1));
        r := caches.SetCache(w, e, meta', hit.value.1, attr);
        if r.Fail? {
          return;
        }
      }
    }
    if found.Some? && clipped.Some? {
      r := buffer.Update(found.value.cache, [clipped.value]);
    }
  }

  /** What holds of a set-aside member survives later growth of `seen`. */
  lemma SetAsideFactsGrow(w: World, st: ObjState, st': ObjState, t: Tree, t': Tree, model: Cls, attr: Attr, e: Obj, s: SetAside)
    requires SetAsideFacts(w, st, st', t, model, attr, e, s) && Grows(t, t')
    ensures SetAsideFacts(w, st, st', t', model, attr, e, s)
  {
  }

  /** SetAsideFacts for every member set aside, with objs0 and objs the
      snapshots of all instances' caches before and after. */
  ghost predicate AllSetAside(w: World, objs0: map<Obj, ObjState>, objs: map<Obj, ObjState>, t': Tree,
                              model: Cls, attr: Attr, setAside: map<Obj, SetAside>)
  {
    forall e :: e in setAside ==>
      SetAsideFacts(w, StateOf(objs0, e), StateOf(objs, e), t', model, attr, e, setAside[e])
  }

  /** The facts of the members set aside survive a later step that only
      grows `seen` and touches other instances' caches. */
  lemma AllSetAsideKept(w: World, objs0: map<Obj, ObjState>, objs: map<Obj, ObjState>, objs': map<Obj, ObjState>,
                        t: Tree, t': Tree, model: Cls, attr: Attr, setAside: map<Obj, SetAside>, touched: set<Obj>)
    requires AllSetAside(w, objs0, objs, t, model, attr, setAside) && Grows(t, t')
    requires forall x :: x !in touched ==> StateOf(objs', x) == StateOf(objs, x)
    requires forall e :: e in setAside ==> e !in touched
    ensures AllSetAside(w, objs0, objs', t', model, attr, setAside)
  {
    forall e | e in setAside
      ensures SetAsideFacts(w, StateOf(objs0, e), StateOf(objs', e), t', model, attr, e, setAside[e])
    {
      SetAsideFactsGrow(w, StateOf(objs0, e), StateOf(objs, e), t, t', model, attr, e, setAside[e]);
    }
  }

  /** The objects the set-aside members re-queued under class d: each
      member's cache goes under the class of its first object. */
  ghost function Contributions(q: map<Obj, SetAside>, d: Cls): set<Obj>
  {
    set e, x | e in q && x in q[e].cache && q[e].cache[0].cls == d :: x
  }

  lemma ContributionsAdd(q: map<Obj, SetAside>, e: Obj, s: SetAside, d: Cls)
    requires e !in q
    ensures Contributions(q[e := s], d) ==
      Contributions(q, d) + (if s.cache != [] && s.cache[0].cls == d then Elements(s.cache) else {})
  {
    var q' := q[e := s];
    var added := if s.cache != [] && s.cache[0].cls == d then Elements(s.cache) else {};
    forall x | x in Contributions(q', d)
      ensures x in Contributions(q, d) + added
    {
      var e' :| e' in q' && x in q'[e'].cache && q'[e'].cache[0].cls == d;
      if e' != e {
        assert x in Contributions(q, d);
      }
    }
    forall x | x in Contributions(q, d)
      ensures x in Contributions(q', d)
    {
      var e' :| e' in q && x in q[e'].cache && q[e'].cache[0].cls == d;
      assert e' != e && q'[e'] == q[e'];
    }
    forall x | x in added
      ensures x in Contributions(q', d)
    {
      assert e in q' && x in q'[e].cache && q'[e].cache[0].cls == d;
    }
  }

  /** One more set-aside member keeps the buffer accounted for by Queued. */
  lemma QueuedStep(keys: seq<Lookup>, groups: Groups, k1: seq<Lookup>, g1: Groups, k2: seq<Lookup>, g2: Groups,
                   clipped: Option<Lookup>, q: map<Obj, SetAside>, e: Obj, s: SetAside)
    requires e !in q
    requires Queued(keys, groups, k1, g1, clipped, q, [], [])
    requires Requeued(k1, g1, k2, g2, clipped, s.cache, Pass)
    ensures Queued(keys, groups, k2, g2, clipped, q[e := s], [], [])
  {
    assert Reverse<Lookup>([]) == [];
    if clipped.Some? {
      var c := clipped.value;
      if q != map[] {
        AppendedAgain(keys, c);
      }
      assert k2 == Appended(keys, [c]);
      ContributedGroups(groups, g1, g2, c, q, e, s);
    }
  }

  /** The groups part of QueuedStep: filing one more set-aside cache under
      the clipped lookup adds it to that lookup's contributions. */
  lemma ContributedGroups(groups: Groups, g1: Groups, g2: Groups, c: Lookup, q: map<Obj, SetAside>, e: Obj, s: SetAside)
    requires e !in q && s.cache != []
    requires forall l, d :: GroupOf(g1, l, d) == GroupOf(groups, l, d) + (if l == c then Contributions(q, d) else {})
    requires g2 == Filed(g1, [c], s.cache[0].cls, Elements(s.cache))
    ensures forall l, d :: GroupOf(g2, l, d) == GroupOf(groups, l, d) + (if l == c then Contributions(q[e := s], d) else {})
  {
    FiledAt(g1, [c], s.cache[0].cls, Elements(s.cache));
    forall l, d
      ensures GroupOf(g2, l, d) == GroupOf(groups, l, d) + (if l == c then Contributions(q[e := s], d) else {})
    {
      ContributionsAdd(q, e, s, d);
    }
  }

  /** The buffer after a group (keys, groups before; keys', groups' after):
      the set-aside members' caches went under the clipped lookup, then the
      fetched objects `found` under the lookups `ls` in reverse, each batch
      under the class of its first object. */
  ghost predicate Queued(keys: seq<Lookup>, groups: Groups, keys': seq<Lookup>, groups': Groups,
                         clipped: Option<Lookup>, q: map<Obj, SetAside>, ls: seq<Lookup>, found: seq<Obj>)
  {
    var k1 := if clipped.Some? && q != map[] then Appended(keys, [clipped.value]) else keys;
    && keys' == Appended(k1, Reverse(ls))
    && (forall l, d :: GroupOf(groups', l, d) ==
         GroupOf(groups, l, d)
         + (if clipped.Some? && l == clipped.value then Contributions(q, d) else {})
         + (if l in ls && found != [] && d == found[0].cls then Elements(found) else {}))
  }

  /** Filing the fetched objects under `ls` after the set-aside phase
      completes the account Queued gives of the round. */
  lemma QueuedFetch(keys: seq<Lookup>, groups: Groups, k1: seq<Lookup>, g1: Groups, k2: seq<Lookup>, g2: Groups,
                    clipped: Option<Lookup>, q: map<Obj, SetAside>, ls: seq<Lookup>, found: seq<Obj>)
    requires Queued(keys, groups, k1, g1, clipped, q, [], [])
    requires ls == [] ==> k2 == k1 && g2 == g1
    requires ls != [] ==> found != []
    requires ls != [] ==> k2 == Appended(k1, Reverse(ls))
    requires ls != [] ==> g2 == Filed(g1, Reverse(ls), found[0].cls, Elements(found))
    ensures Queued(keys, groups, k2, g2, clipped, q, ls, found)
  {
    if ls != [] {
      FiledAt(g1, Reverse(ls), found[0].cls, Elements(found));
      forall l
        ensures l in Reverse(ls) <==> l in ls
      {
        if l in ls {
          var i :| 0 <= i < |ls| && ls[i] == l;
          assert Reverse(ls)[|ls| - 1 - i] == l;
        }
      }
    }
  }

  /** The caches and the buffer after the members set aside so far have
      taken their turns: objs0, keys0 and groups0 are the caches and buffer
      when the group was popped, objs, keys and groups the current ones. */
  ghost predicate SweepKept(w: World, objs0: map<Obj, ObjState>, keys0: seq<Lookup>, groups0: Groups,
                            objs: map<Obj, ObjState>, keys: seq<Lookup>, groups: Groups,
                            clipped: Option<Lookup>, attr: Attr, setAside: map<Obj, SetAside>)
  {
    && (forall x :: x !in setAside ==> StateOf(objs, x) == StateOf(objs0, x))
    && (forall e :: e in setAside ==> SetAsideCaches(w, StateOf(objs0, e), StateOf(objs, e), attr, e, setAside[e]))
    && (clipped.Some? ==> forall e :: e in setAside ==> setAside[e].cache != [])
    && Queued(keys0, groups0, keys, groups, clipped, setAside, [], [])
    && (clipped.None? ==> keys == keys0 && groups == groups0)
  }

  /** One more member's turn on DiscardOne's success path keeps SweepKept. */
  lemma SweepKeptStep(w: World, objs0: map<Obj, ObjState>, keys0: seq<Lookup>, groups0: Groups,
                      objs: map<Obj, ObjState>, keys: seq<Lookup>, groups: Groups,
                      objs': map<Obj, ObjState>, keys': seq<Lookup>, groups': Groups,
                      clipped: Option<Lookup>, attr: Attr, setAside: map<Obj, SetAside>, e: Obj, found: Option<SetAside>)
    requires SweepKept(w, objs0, keys0, groups0, objs, keys, groups, clipped, attr, setAside)
    requires e !in setAside
    requires forall x :: x != e ==> StateOf(objs', x) == StateOf(objs, x)
    requires found.None? ==> objs' == objs && keys' == keys && groups' == groups
    requires found.Some? ==> SetAsideCaches(w, StateOf(objs, e), StateOf(objs', e), attr, e, found.value)
    requires found.Some? ==> Requeued(keys, groups, keys', groups', clipped, found.value.cache, Pass)
    ensures SweepKept(w, objs0, keys0, groups0, objs', keys', groups', clipped, attr,
                      if found.Some? then setAside[e := found.value] else setAside)
  {
    if found.Some? {
      assert StateOf(objs, e) == StateOf(objs0, e);
      QueuedStep(keys0, groups0, keys, groups, keys', groups', clipped, setAside, e, found.value);
    }
  }

  /** The pass so far is the one Swept describes for `order`, taken from
      the tree t0 and the caches objs0 the group was popped with. */
  ghost predicate SweepTrace(w: World, objs0: map<Obj, ObjState>, t0: Tree, t: Tree, meta: Option<CacheInfo>,
                             model: Cls, attr: Attr, setAside: map<Obj, SetAside>, order: seq<Obj>)
  {
    && Distinct(order)
    && Carried(t, meta, setAside) == Swept(w, objs0, model, attr, t0, order)
  }

  /** One more member's turn extends the trace by that member. */
  lemma SweepTraceStep(w: World, objs0: map<Obj, ObjState>, t0: Tree, t: Tree, meta: Option<CacheInfo>,
                       t': Tree, meta': Option<CacheInfo>,
                       model: Cls, attr: Attr, setAside: map<Obj, SetAside>, order: seq<Obj>, e: Obj, found: Option<SetAside>)
    requires SweepTrace(w, objs0, t0, t, meta, model, attr, setAside, order)
    requires e !in Elements(order)
    requires (t', meta', found) == Turn(w, StateOf(objs0, e), model, attr, t, meta, e)
    ensures SweepTrace(w, objs0, t0, t', meta', model, attr,
                       if found.Some? then setAside[e := found.value] else setAside, order + [e])
    ensures Elements(order + [e]) == Elements(order) + {e}
  {
    SweptSnoc(w, objs0, model, attr, t0, order, e);
    DistinctSnoc(order, e);
  }

  /** base.py lines 280-301: every member takes its turn (DiscardOne), carrying
      the (single, cache_name) pair from one turn to the next, starting
      from None; `order` is the order the members were taken in, and the
      pass is the one Swept describes for it. */
  method SweepMembers(w: World, buffer: Buffer, seen: SeenTree, caches: Caches,
                      clipped: Option<Lookup>, model: Cls, attr: Attr, current: set<Obj>)
    returns (r: Outcome<Error>, setAside: map<Obj, SetAside>, ghost order: seq<Obj>)
    requires buffer.Valid()
    modifies buffer, seen, caches
    ensures buffer.Valid()
    ensures setAside.Keys <= current
    ensures forall x :: x !in current ==> caches.Of(x) == old(caches.Of(x))
    ensures r.Pass? ==> forall x :: x !in setAside ==> caches.Of(x) == old(caches.Of(x))
    ensures forall e :: e in setAside ==> SetAsideCaches(w, old(caches.Of(e)), caches.Of(e), attr, e, setAside[e])
    ensures clipped.None? ==> buffer.keys == old(buffer.keys) && buffer.groups == old(buffer.groups)
    ensures r.Fail? ==> Grows(old(seen.tree), seen.tree)
    ensures r.Fail? ==> exists e :: e in current && SetAsideError(w, old(caches.Of(e)), clipped, attr, e, r.error)
    ensures r.Pass? && clipped.Some? ==> forall e :: e in setAside ==> setAside[e].cache != []
    ensures r.Pass? ==> Queued(old(buffer.keys), old(buffer.groups), buffer.keys, buffer.groups, clipped, setAside, [], [])
    ensures r.Pass? ==> Distinct(order) && Elements(order) == current
    ensures r.Pass? ==> var c := Swept(w, old(caches.objs), model, attr, old(seen.tree), order);
      seen.tree == c.tree && setAside == c.setAside
  {
    var meta: Option<CacheInfo> := None;
    order := [];
    setAside := map[];
    r := Pass;
    var todo := current;
    while todo != {}
      invariant r.Pass? && buffer.Valid()
      invariant todo <= current && Elements(order) == current - todo && setAside.Keys <= Elements(order)
      invariant SweepKept(w, old(caches.objs), old(buffer.keys), old(buffer.groups),
                          caches.objs, buffer.keys, buffer.groups, clipped, attr, setAside)
      invariant SweepTrace(w, old(caches.objs), old(seen.tree), seen.tree, meta, model, attr, setAside, order)
      decreases todo
    {
      var e :| e in todo;
      todo := todo - {e};
      ghost var o1, t1, k1, g1, m1 := caches.objs, seen.tree, buffer.keys, buffer.groups, meta;
      assert StateOf(o1, e) == StateOf(old(caches.objs), e);
      label before:
      var found;
      r, found, meta := DiscardOne(w, buffer, seen, caches, clipped, model, attr, meta, e);
      forall x | x != e
        ensures StateOf(caches.objs, x) == StateOf(o1, x)
      {
        assert caches.Of(x) == old@before(caches.Of(x));
      }
      if r.Fail? {
        SweptGrows(w, old(caches.objs), model, attr, old(seen.tree), order);
        GrowsTrans(old(seen.tree), t1, seen.tree);
        assert e in current && SetAsideError(w, old(caches.Of(e)), clipped, attr, e, r.error);
        return;
      }
      SweepKeptStep(w, old(caches.objs), old(buffer.keys), old(buffer.groups), o1, k1, g1,
                    caches.objs, buffer.keys, buffer.groups, clipped, attr, setAside, e, found);
      SweepTraceStep(w, old(caches.objs), old(seen.tree), t1, m1, seen.tree, meta, model, attr, setAside, order, e, found);
      if found.Some? {
        setAside := setAside[e := found.value];
      }
      order := order + [e];
    }
  }

  /** base.py lines 279-302: members whose relation is already cached on them, or
      whose value is already recorded in `seen`, are set aside (`setAside`
      holds what each contributed); their caches are re-queued under the
      clipped lookup. The remaining members were neither cached nor
      recorded when the group was popped. `order` is the order in which
      the members took their turns (SweepMembers). */
  method DiscardResolved(w: World, buffer: Buffer, seen: SeenTree, caches: Caches,
                         lookup: Lookup, model: Cls, attr: Attr, current: set<Obj>)
    returns (r: Outcome<Error>, remaining: set<Obj>, setAside: map<Obj, SetAside>, ghost order: seq<Obj>)
    requires buffer.Valid()
    modifies buffer, seen, caches
    ensures buffer.Valid()
    ensures remaining <= current
    ensures Grows(old(seen.tree), seen.tree)
    ensures forall x :: x !in current || x in remaining ==> caches.Of(x) == old(caches.Of(x))
    ensures forall e :: e in remaining ==>
      !IsFetched(old(caches.Of(e)), w.prefetcher(e, attr)) && !Hit(old(seen.tree), model, attr, e)
    ensures r.Fail? ==> remaining == {}
    ensures r.Fail? ==> exists e :: e in current && SetAsideError(w, old(caches.Of(e)), ClipLookup(lookup), attr, e, r.error)
    ensures r.Pass? ==> setAside.Keys == current - remaining
    ensures r.Pass? ==> AllSetAside(w, old(caches.objs), caches.objs, seen.tree, model, attr, setAside)
    ensures r.Pass? && ClipLookup(lookup).Some? ==> forall e :: e in setAside ==> setAside[e].cache != []
    ensures r.Pass? ==> Queued(old(buffer.keys), old(buffer.groups), buffer.keys, buffer.groups, ClipLookup(lookup), setAside, [], [])
    ensures ClipLookup(lookup).None? ==> buffer.keys == old(buffer.keys) && buffer.groups == old(buffer.groups)
    // the pass took every member once, in some order, as Swept describes
    ensures r.Pass? ==> Distinct(order) && Elements(order) == current
    ensures r.Pass? ==> var c := Swept(w, old(caches.objs), model, attr, old(seen.tree), order);
      seen.tree == c.tree && setAside == c.setAside
    ensures r.Pass? && NoneCached(w, old(caches.objs), attr, current) ==> RecalledFrom(old(seen.tree), model, attr, setAside)
    ensures r.Pass? && AllCached(setAside) ==> PairUnset(seen.tree, model, attr)
  {
    r, setAside, order := SweepMembers(w, buffer, seen, caches, ClipLookup(lookup), model, attr, current);
    if r.Fail? {
      return r, {}, setAside, order;
    }
    remaining := current - setAside.Keys;
    SweptFacts(w, old(caches.objs), model, attr, old(seen.tree), order, current);
  }

  /** base.py lines 304-323 for the members left: one batched fetch, whose objects
      are re-queued under the clipped lookup and the extra lookups of the
      query set. */
  method FetchAndQueue(w: World, buffer: Buffer, lookup: Lookup, rel: Rel, remaining: set<Obj>)
    returns (r: Outcome<Error>)
    requires buffer.Valid()
    modifies buffer
    ensures buffer.Valid()
    ensures var f := w.fetch(rel, remaining); var ls := LookupsForDiscovered(lookup, f.extra);
      (r.Fail? <==> ls != [] && f.discovered == []) &&
      (r.Fail? ==> r.error == EmptyObjects) &&
      (ls == [] || r.Fail? ==> buffer.keys == old(buffer.keys) && buffer.groups == old(buffer.groups)) &&
      (ls != [] && r.Pass? ==>
        buffer.keys == Appended(old(buffer.keys), Reverse(ls)) &&
        buffer.groups == Filed(old(buffer.groups), Reverse(ls), f.discovered[0].cls, Elements(f.discovered)))
  {
    var f := w.fetch(rel, remaining);
    var ls := LookupsForDiscovered(lookup, f.extra);
    r := Pass;
    if ls != [] {
      r := buffer.Update(f.discovered, Reverse(ls));
    }
  }

  /** base.py lines 331-336 for one member: record its cache in `seen` under its
      value, then set it on the member; set_cache can only fail on a
      multi-valued relation whose attribute has no `.all()`, after the
      record is made. */
  method FillOne(w: World, seen: SeenTree, caches: Caches, model: Cls, attr: Attr,
                 info: CacheInfo, e: Obj, cache: seq<Obj>)
    returns (r: Outcome<Error>)
    modifies seen, caches
    ensures seen.tree == Updated(old(seen.tree), model, attr, Some(info), e, cache)
    ensures Grows(old(seen.tree), seen.tree)
    ensures seen.tree[model][attr].meta == Some(info)
    ensures forall x :: x != e ==> caches.Of(x) == old(caches.Of(x))
    ensures r.Fail? <==> !info.single && !HasAll(w, e, attr)
    ensures r.Fail? ==> r.error == NoAll(attr) && caches.objs == old(caches.objs)
    ensures r.Pass? ==> caches.Of(e) == Written(old(caches.Of(e)), Some(info), cache)
  {
    UpdatedRecords(seen.tree, model, attr, Some(info), e, cache);
    seen.Update(model, attr, Some(info), e, cache);
    r := caches.SetCache(w, e, Some(info), cache, attr);
  }

  /** The cache `seen` records for e's value is the cache of a value-equal
      member of the batch: the last of them filled overwrites the others. */
  ghost predicate RecordedFromBatch(t: Tree, model: Cls, attr: Attr, f: Fetched, batch: set<Obj>, e: Obj)
  {
    && Recorded(t, model, attr, ValueOf(e))
    && exists e' :: e' in batch && ValueOf(e') == ValueOf(e) &&
         t[model][attr].cache[ValueOf(e)] == Matching(f.discovered, f.relKey, f.ownerKey(e'))
  }

  /** The tree after `update_seen` for each member of `order` in turn, each
      with its matching objects. */
  ghost function FilledTree(t: Tree, model: Cls, attr: Attr, info: CacheInfo, f: Fetched, order: seq<Obj>): Tree
    decreases |order|
  {
    if order == [] then t
    else
      var n := |order| - 1;
      Updated(FilledTree(t, model, attr, info, f, order[..n]), model, attr, Some(info), order[n],
              Matching(f.discovered, f.relKey, f.ownerKey(order[n])))
  }

  /** Filling members in any order loses no record, leaves the fetch's
      pair on the relation, and records for each member's value the cache
      of some value-equal member (the last one filled). */
  lemma {:induction false} FilledTreeRecords(t: Tree, model: Cls, attr: Attr, info: CacheInfo, f: Fetched,
                                             order: seq<Obj>, batch: set<Obj>)
    requires forall x :: x in order ==> x in batch
    ensures Grows(t, FilledTree(t, model, attr, info, f, order))
    ensures order != [] ==>
      var t' := FilledTree(t, model, attr, info, f, order);
      model in t' && attr in t'[model] && t'[model][attr].meta == Some(info)
    ensures forall x :: x in order ==> RecordedFromBatch(FilledTree(t, model, attr, info, f, order), model, attr, f, batch, x)
    decreases |order|
  {
    if order != [] {
      var n := |order| - 1;
      var init := order[..n];
      var last := order[n];
      var t0 := FilledTree(t, model, attr, info, f, init);
      var cache := Matching(f.discovered, f.relKey, f.ownerKey(last));
      var t1 := Updated(t0, model, attr, Some(info), last, cache);
      FilledTreeRecords(t, model, attr, info, f, init, batch);
      UpdatedRecords(t0, model, attr, Some(info), last, cache);
      GrowsTrans(t, t0, t1);
      forall x | x in order
        ensures RecordedFromBatch(t1, model, attr, f, batch, x)
      {
        if ValueOf(x) == ValueOf(last) {
          assert last in batch && t1[model][attr].cache[ValueOf(x)] == cache;
        } else {
          assert x in init;
          var x' :| x' in batch && ValueOf(x') == ValueOf(x) &&
            t0[model][attr].cache[ValueOf(x)] == Matching(f.discovered, f.relKey, f.ownerKey(x'));
          assert t1[model][attr].cache[ValueOf(x)] == t0[model][attr].cache[ValueOf(x)];
        }
      }
    }
  }

  /** A member's caches after the fill: set_cache wrote the fetched objects
      whose join key matches the member's. */
  ghost predicate FilledFrom(before: ObjState, after: ObjState, f: Fetched, e: Obj)
  {
    after == Written(before, Some(CacheInfo(f.single, f.cacheName)), Matching(f.discovered, f.relKey, f.ownerKey(e)))
  }

  /** base.py lines 326-336: each member's cache becomes the fetched objects whose
      related key equals its owner key, in query order; it is recorded in
      `seen` under the member's value, with the fetch's cache metadata. The
      loop stops at the first member whose set_cache fails. */
  method Fill(w: World, seen: SeenTree, caches: Caches, model: Cls, attr: Attr,
              f: Fetched, remaining: set<Obj>)
    returns (r: Outcome<Error>)
    requires remaining != {}
    modifies seen, caches
    ensures Grows(old(seen.tree), seen.tree)
    ensures forall x :: x !in remaining ==> caches.Of(x) == old(caches.Of(x))
    ensures r.Fail? <==> !f.single && exists e :: e in remaining && !HasAll(w, e, attr)
    ensures r.Fail? ==> r.error == NoAll(attr)
    ensures r.Pass? ==> forall e :: e in remaining ==>
      FilledFrom(old(caches.Of(e)), caches.Of(e), f, e)
    ensures r.Pass? ==> forall e :: e in remaining ==> RecordedFromBatch(seen.tree, model, attr, f, remaining, e)
    ensures r.Pass? ==>
      (model in seen.tree && attr in seen.tree[model] && seen.tree[model][attr].meta == Some(CacheInfo(f.single, f.cacheName)))
  {
    var info := CacheInfo(f.single, f.cacheName);
    var index := GroupByKey(f.discovered, f.relKey);
    var todo := remaining;
    ghost var order: seq<Obj> := [];
    while todo != {}
      invariant todo <= remaining
      invariant forall x :: if x in remaining && x !in todo then
          x in order && (f.single || HasAll(w, x, attr)) &&
          FilledFrom(old(caches.Of(x)), caches.Of(x), f, x)
        else caches.Of(x) == old(caches.Of(x))
      invariant forall x :: x in order ==> x in remaining
      invariant seen.tree == FilledTree(old(seen.tree), model, attr, info, f, order)
      decreases todo
    {
      var e :| e in todo;
      todo := todo - {e};
      r := FillOne(w, seen, caches, model, attr, info, e, CacheFor(index, f.ownerKey(e)));
      assert (order + [e])[..|order|] == order;
      order := order + [e];
      if r.Fail? {
        FilledTreeRecords(old(seen.tree), model, attr, info, f, order, remaining);
        assert e in remaining && !HasAll(w, e, attr);
        return;
      }
    }
    r := Pass;
    FilledTreeRecords(old(seen.tree), model, attr, info, f, order, remaining);
  }

  /** The members a fetch was made for, if any. */
  function FetchedFor(fetched: Option<set<Obj>>): set<Obj>
  {
    if fetched.Some? then fetched.value else {}
  }

  /** base.py lines 304-336 for the members left: one batched fetch, its
      objects re-queued, then every member's cache filled from it. */
  method FetchRest(w: World, buffer: Buffer, seen: SeenTree, caches: Caches,
                   lookup: Lookup, model: Cls, attr: Attr, rel: Rel, remaining: set<Obj>)
    returns (r: Outcome<Error>)
    requires buffer.Valid() && remaining != {}
    modifies buffer, seen, caches
    ensures buffer.Valid()
    ensures Grows(old(seen.tree), seen.tree)
    ensures forall x :: x !in remaining ==> caches.Of(x) == old(caches.Of(x))
    ensures var f := w.fetch(rel, remaining);
      r.Fail? <==>
        (LookupsForDiscovered(lookup, f.extra) != [] && f.discovered == []) ||
        (!f.single && exists e :: e in remaining && !HasAll(w, e, attr))
    ensures var f := w.fetch(rel, remaining);
      r.Fail? ==>
        r.error == if LookupsForDiscovered(lookup, f.extra) != [] && f.discovered == [] then EmptyObjects else NoAll(attr)
    ensures var f := w.fetch(rel, remaining); var ls := LookupsForDiscovered(lookup, f.extra);
      r.Pass? ==>
        (ls == [] ==> buffer.keys == old(buffer.keys) && buffer.groups == old(buffer.groups)) &&
        (ls != [] ==>
          f.discovered != [] &&
          buffer.keys == Appended(old(buffer.keys), Reverse(ls)) &&
          buffer.groups == Filed(old(buffer.groups), Reverse(ls), f.discovered[0].cls, Elements(f.discovered)))
    ensures r.Pass? ==>
      var f := w.fetch(rel, remaining);
      forall e :: e in remaining ==>
        FilledFrom(old(caches.Of(e)), caches.Of(e), f, e) &&
        RecordedFromBatch(seen.tree, model, attr, f, remaining, e)
  {
    var f := w.fetch(rel, remaining);
    r := FetchAndQueue(w, buffer, lookup, rel, remaining);
    if r.Fail? {
      return;
    }
    r := Fill(w, seen, caches, model, attr, f, remaining);
  }

  /** base.py lines 277-336, for a group whose head attribute is prefetchable: set
      aside the members already resolved, then, if any member is left, make
      one batched fetch for them, re-queue what it found and fill their
      caches. */
  method FetchGroup(w: World, buffer: Buffer, seen: SeenTree, caches: Caches,
                    lookup: Lookup, model: Cls, attr: Attr, rel: Rel, current: set<Obj>)
    returns (r: Outcome<Error>, fetched: Option<set<Obj>>, setAside: map<Obj, SetAside>)
    requires buffer.Valid()
    modifies buffer, seen, caches
    ensures buffer.Valid()
    ensures Grows(old(seen.tree), seen.tree)
    ensures forall x :: x !in current ==> caches.Of(x) == old(caches.Of(x))
    ensures fetched.Some? ==> fetched.value != {} && fetched.value <= current
    ensures fetched.Some? ==> forall e :: e in fetched.value ==>
      !IsFetched(old(caches.Of(e)), w.prefetcher(e, attr)) && !Hit(old(seen.tree), model, attr, e)
    ensures fetched.None? && r.Fail? ==>
      exists e :: e in current && SetAsideError(w, old(caches.Of(e)), ClipLookup(lookup), attr, e, r.error)
    ensures fetched.Some? ==>
      var f := w.fetch(rel, fetched.value);
      r.Fail? <==>
        (LookupsForDiscovered(lookup, f.extra) != [] && f.discovered == []) ||
        (!f.single && exists e :: e in fetched.value && !HasAll(w, e, attr))
    ensures fetched.Some? && r.Fail? ==>
      var f := w.fetch(rel, fetched.value);
      r.error == if LookupsForDiscovered(lookup, f.extra) != [] && f.discovered == [] then EmptyObjects else NoAll(attr)
    ensures r.Fail? ==> !r.error.InvalidLookup?
    ensures r.Pass? ==> setAside.Keys == current - FetchedFor(fetched)
    ensures r.Pass? ==> AllSetAside(w, old(caches.objs), caches.objs, seen.tree, model, attr, setAside)
    ensures r.Pass? && ClipLookup(lookup).Some? ==> forall e :: e in setAside ==> setAside[e].cache != []
    ensures r.Pass? ==>
      var ls := if fetched.Some? then LookupsForDiscovered(lookup, w.fetch(rel, fetched.value).extra) else [];
      var found := if fetched.Some? then w.fetch(rel, fetched.value).discovered else [];
      Queued(old(buffer.keys), old(buffer.groups), buffer.keys, buffer.groups, ClipLookup(lookup), setAside, ls, found)
    ensures r.Pass? && fetched.Some? ==>
      var f := w.fetch(rel, fetched.value);
      forall e :: e in fetched.value ==>
        FilledFrom(old(caches.Of(e)), caches.Of(e), f, e) &&
        RecordedFromBatch(seen.tree, model, attr, f, fetched.value, e)
    // the members set aside are those of a pass over every member, in some order
    ensures r.Pass? ==> SweptBy(w, old(caches.objs), model, attr, old(seen.tree), current, setAside)
    ensures r.Pass? && NoneCached(w, old(caches.objs), attr, current) ==> RecalledFrom(old(seen.tree), model, attr, setAside)
    ensures r.Pass? && fetched.None? && AllCached(setAside) ==> PairUnset(seen.tree, model, attr)
  {
    fetched := None;
    var remaining;
    ghost var order;
    r, remaining, setAside, order := DiscardResolved(w, buffer, seen, caches, lookup, model, attr, current);
    if r.Pass? && remaining != {} {
      ghost var t1, o1 := seen.tree, caches.objs;
      ghost var k1, g1 := buffer.keys, buffer.groups;
      fetched := Some(remaining);
      var f := w.fetch(rel, remaining);
      r := FetchRest(w, buffer, seen, caches, lookup, model, attr, rel, remaining);
      GrowsTrans(old(seen.tree), t1, seen.tree);
      if r.Pass? {
        QueuedFetch(old(buffer.keys), old(buffer.groups), k1, g1, buffer.keys, buffer.groups, ClipLookup(lookup),
                    setAside, LookupsForDiscovered(lookup, f.extra), f.discovered);
        AllSetAsideKept(w, old(caches.objs), o1, caches.objs, t1, seen.tree, model, attr, setAside, remaining);
      }
    }
  }

  /** base.py lines 249-336 for one popped group: resolve the head attribute on a
      sampled member, skip the group when it is absent, reject a lookup
      without a separator that names a plain attribute, follow a plain
      attribute without fetching, and otherwise set aside the resolved
      members and fetch for the rest. */
  method ProcessGroup(w: World, buffer: Buffer, seen: SeenTree, caches: Caches,
                      lookup: Lookup, model: Cls, current: set<Obj>, sample: Obj)
    returns (r: Outcome<Error>, fetched: Option<set<Obj>>, setAside: map<Obj, SetAside>)
    requires buffer.Valid() && sample in current
    modifies buffer, seen, caches
    ensures buffer.Valid()
    ensures Grows(old(seen.tree), seen.tree)
    ensures fetched.Some? ==> fetched.value != {} && fetched.value <= current
    ensures forall x :: x !in current ==> caches.Of(x) == old(caches.Of(x))
    ensures r.Fail? && r.error.InvalidLookup? ==> r.error.lookup == lookup && !HasSep(lookup)
    // a missing attribute: the group is dropped
    ensures var p := w.prefetcher(sample, HeadAttr(lookup));
      p.NotFound? ==> r.Pass? && fetched.None? && unchanged(buffer, seen, caches)
    // a plain attribute: no fetch; values re-queued under the clipped lookup
    ensures var p := w.prefetcher(sample, HeadAttr(lookup));
      p.Plain? ==> fetched.None? && unchanged(seen, caches)
    ensures var p := w.prefetcher(sample, HeadAttr(lookup));
      p.Plain? && !HasSep(lookup) ==> r == Fail(InvalidLookup(lookup)) && unchanged(buffer)
    ensures var attr := HeadAttr(lookup); var p := w.prefetcher(sample, attr); var c := ClipLookup(lookup);
      p.Plain? && HasSep(lookup) ==>
        (c.None? ==> r.Pass? && unchanged(buffer)) &&
        (c.Some? ==> (r.Fail? <==> LacksAttr(w, current, attr) || PlainTargets(w, current, attr) == {})) &&
        (r.Fail? ==> r.error == if LacksAttr(w, current, attr) then NoAttr(attr) else EmptyObjects) &&
        (r.Pass? && c.Some? ==>
          buffer.keys == Appended(old(buffer.keys), [c.value]) &&
          exists v :: v in PlainTargets(w, current, attr) &&
            buffer.groups == Filed(old(buffer.groups), [c.value], v.cls, PlainTargets(w, current, attr)))
    // a prefetchable attribute: set aside, fetch, re-queue, fill
    ensures var attr := HeadAttr(lookup);
      fetched.Some? ==> forall e :: e in fetched.value ==>
        !IsFetched(old(caches.Of(e)), w.prefetcher(e, attr)) && !Hit(old(seen.tree), model, attr, e)
    ensures var attr := HeadAttr(lookup); var p := w.prefetcher(sample, attr);
      p.Fetcher? && fetched.None? && r.Fail? ==>
        exists e :: e in current && SetAsideError(w, old(caches.Of(e)), ClipLookup(lookup), attr, e, r.error)
    ensures var attr := HeadAttr(lookup); var p := w.prefetcher(sample, attr);
      p.Fetcher? && fetched.Some? ==>
        var f := w.fetch(p.rel, fetched.value);
        r.Fail? <==>
          (LookupsForDiscovered(lookup, f.extra) != [] && f.discovered == []) ||
          (!f.single && exists e :: e in fetched.value && !HasAll(w, e, attr))
    ensures var attr := HeadAttr(lookup); var p := w.prefetcher(sample, attr);
      p.Fetcher? && fetched.Some? && r.Fail? ==>
        var f := w.fetch(p.rel, fetched.value);
        r.error == if LookupsForDiscovered(lookup, f.extra) != [] && f.discovered == [] then EmptyObjects else NoAll(attr)
    ensures var attr := HeadAttr(lookup); var p := w.prefetcher(sample, attr);
      p.Fetcher? && r.Pass? ==>
        setAside.Keys == current - FetchedFor(fetched) &&
        AllSetAside(w, old(caches.objs), caches.objs, seen.tree, model, attr, setAside) &&
        (ClipLookup(lookup).Some? ==> forall e :: e in setAside ==> setAside[e].cache != [])
    ensures var attr := HeadAttr(lookup); var p := w.prefetcher(sample, attr);
      p.Fetcher? && r.Pass? ==>
        var ls := if fetched.Some? then LookupsForDiscovered(lookup, w.fetch(p.rel, fetched.value).extra) else [];
        var found := if fetched.Some? then w.fetch(p.rel, fetched.value).discovered else [];
        Queued(old(buffer.keys), old(buffer.groups), buffer.keys, buffer.groups, ClipLookup(lookup), setAside, ls, found)
    ensures var attr := HeadAttr(lookup); var p := w.prefetcher(sample, attr);
      p.Fetcher? && r.Pass? && fetched.Some? ==>
        var f := w.fetch(p.rel, fetched.value);
        forall e :: e in fetched.value ==>
          FilledFrom(old(caches.Of(e)), caches.Of(e), f, e) &&
          RecordedFromBatch(seen.tree, model, attr, f, fetched.value, e)
    ensures var attr := HeadAttr(lookup); var p := w.prefetcher(sample, attr);
      p.Fetcher? && r.Pass? ==>
        SweptBy(w, old(caches.objs), model, attr, old(seen.tree), current, setAside) &&
        (NoneCached(w, old(caches.objs), attr, current) ==> RecalledFrom(old(seen.tree), model, attr, setAside)) &&
        (fetched.None? && AllCached(setAside) ==> PairUnset(seen.tree, model, attr))
  {
    fetched, setAside := None, map[];
    var attr := HeadAttr(lookup);
    var p := w.prefetcher(sample, attr);
    if p.NotFound? {
      return Pass, None, map[];
    }
    if !HasSep(lookup) && p.Plain? {
      return Fail(InvalidLookup(lookup)), None, map[];
    }
    if p.Plain? {
      var values;
      r, values := FollowPlain(w, buffer, lookup, attr, current);
      if r.Pass? && ClipLookup(lookup).Some? {
        assert values[0] in Elements(values);
      }
      return;
    }
    r, fetched, setAside := FetchGroup(w, buffer, seen, caches, lookup, model, attr, p.rel, current);
  }

  /** The buffer right after `update_buffer(buffer, objects, reversed(lookups))`. */
  ghost predicate Seeded(keys: seq<Lookup>, groups: Groups, lookups: seq<Lookup>, c: Cls, members: set<Obj>)
  {
    keys == Appended([], Reverse(lookups)) && groups == Filed(map[], Reverse(lookups), c, members)
  }

  /** base.py lines 229-231: a new buffer holding the roots under every lookup,
      filed in reverse. */
  method NewBuffer(objects: seq<Obj>, lookups: seq<Lookup>) returns (buffer: Buffer)
    requires objects != []
    ensures fresh(buffer) && buffer.Valid()
    ensures forall l :: l in buffer.keys <==> l in lookups
    ensures buffer.keys == [] <==> lookups == []
    ensures lookups != [] && lookups[0] !in lookups[1..] ==> buffer.keys[|buffer.keys| - 1] == lookups[0]
    ensures forall l :: l in buffer.keys ==> buffer.groups[l] == map[objects[0].cls := Elements(objects)]
  {
    buffer := new Buffer();
    var seeded := buffer.Update(objects, Reverse(lookups));
    SeededKeys(buffer.keys, buffer.groups, lookups, objects[0].cls, Elements(objects));
    AppendedHas([], Reverse(lookups));
    forall l | l in lookups
      ensures l in Reverse(lookups)
    {
      var i :| 0 <= i < |lookups| && lookups[i] == l;
      assert Reverse(lookups)[|lookups| - 1 - i] == l;
    }
    forall l | l in buffer.keys
      ensures buffer.groups[l] == map[objects[0].cls := Elements(objects)]
    {
      SeededGroup(buffer.keys, buffer.groups, lookups, objects[0].cls, Elements(objects), l);
    }
  }

  /** The seeded buffer is empty exactly when no lookup was given, and
      its last key is the first lookup unless that one is declared again
      later. */
  lemma SeededKeys(keys: seq<Lookup>, groups: Groups, lookups: seq<Lookup>, c: Cls, members: set<Obj>)
    requires Seeded(keys, groups, lookups, c, members)
    ensures keys == [] <==> lookups == []
    ensures lookups != [] && lookups[0] !in lookups[1..] ==> keys[|keys| - 1] == lookups[0]
  {
    var seed := Reverse(lookups);
    AppendedHas([], seed);
    if lookups != [] {
      assert lookups[0] == seed[|seed| - 1];
      if lookups[0] !in lookups[1..] {
        SeedOrder(lookups);
      }
    }
  }

  /** Every key of the seeded buffer holds the objects under their class. */
  lemma SeededGroup(keys: seq<Lookup>, groups: Groups, lookups: seq<Lookup>, c: Cls, members: set<Obj>, l: Lookup)
    requires Seeded(keys, groups, lookups, c, members) && l in keys
    ensures l in groups && groups[l] == map[c := members]
  {
    var seed := Reverse(lookups);
    AppendedHas([], seed);
    FiledAt(map[], seed, c, members);
    assert l in seed;
    assert forall d :: d in groups[l] <==> d == c;
    assert GroupOf(groups, l, c) == members;
  }

  /** base.py lines 240-249 and the group's processing: pop one group of the last
      lookup, or delete the lookup when it has no group left (None). */
  method TakeRound(w: World, buffer: Buffer, seen: SeenTree, caches: Caches, lookup: Lookup)
    returns (round: Option<Round>, r: Outcome<Error>)
    requires buffer.Valid() && lookup in buffer.keys
    modifies buffer, seen, caches
    ensures buffer.Valid()
    ensures round.None? <==> old(buffer.groups)[lookup] == map[]
    ensures round.None? ==>
      r.Pass? && unchanged(seen, caches) &&
      buffer.groups == old(buffer.groups) - {lookup} && buffer.keys == Without(old(buffer.keys), lookup)
    ensures round.Some? ==>
      var g := round.value;
      g.lookup == lookup && g.model in old(buffer.groups)[lookup] &&
      g.members == old(buffer.groups)[lookup][g.model] && RoundOk(g)
    ensures r.Fail? && r.error.InvalidLookup? ==> r.error.lookup == lookup && !HasSep(lookup)
  {
    var popped := buffer.PopItem(lookup);
    if popped.None? {
      buffer.Delete(lookup);
      return None, Pass;
    }
    var model := popped.value.0;
    var current := popped.value.1;
    var sample :| sample in current;
    var fetched, setAside;
    r, fetched, setAside := ProcessGroup(w, buffer, seen, caches, lookup, model, current, sample);
    round := Some(Round(lookup, model, current, sample, fetched));
  }

  /** `deep_prefetch_related_objects(objects, lookups)`, bounded by `fuel`
      rounds. `trace` lists the groups popped, in order. */
  method DeepPrefetchRelatedObjects(w: World, caches: Caches, objects: seq<Obj>, lookups: seq<Lookup>, fuel: nat)
    returns (r: Run, trace: seq<Round>)
    modifies caches
    ensures objects == [] || lookups == [] ==> r == Done && trace == [] && caches.objs == old(caches.objs)
    ensures objects != [] && lookups != [] && lookups[0] !in lookups[1..] && fuel > 0 ==>
      trace != [] && trace[0].lookup == lookups[0] && trace[0].model == objects[0].cls &&
      trace[0].members == Elements(objects)
    ensures forall i :: 0 <= i < |trace| ==> RoundOk(trace[i])
    ensures r.Raised? && r.error.InvalidLookup? ==>
      trace != [] && r.error.lookup == trace[|trace| - 1].lookup && !HasSep(r.error.lookup)
    ensures r.OutOfFuel? ==> |trace| <= fuel
  {
    trace := [];
    if objects == [] {
      return Done, [];
    }
    var buffer := NewBuffer(objects, lookups);
    var seen := new SeenTree();
    ghost var cls0 := objects[0].cls;
    ghost var members0 := Elements(objects);
    ghost var keys0, groups0 := buffer.keys, buffer.groups;
    var rounds: nat := 0;
    while true
      invariant buffer.Valid() && fresh(buffer) && fresh(seen)
      invariant rounds <= fuel
      invariant |trace| <= rounds
      invariant forall i :: 0 <= i < |trace| ==> RoundOk(trace[i])
      invariant trace == [] ==>
        (rounds == 0 && caches.objs == old(caches.objs) &&
         buffer.keys == keys0 && buffer.groups == groups0)
      invariant lookups == [] ==> trace == []
      invariant lookups != [] && lookups[0] !in lookups[1..] && trace != [] ==>
        trace[0].lookup == lookups[0] && trace[0].model == cls0 && trace[0].members == members0
      decreases fuel - rounds
    {
      var key := buffer.LastKey();
      if key.None? {
        break;
      }
      if rounds == fuel {
        return OutOfFuel, trace;
      }
      rounds := rounds + 1;
      var lookup := key.value;
      ghost var groupsBefore := buffer.groups;
      assert trace == [] ==> cls0 in groupsBefore[lookup];
      var round, step := TakeRound(w, buffer, seen, caches, lookup);
      if round.None? {
        continue;
      }
      if trace == [] {
        assert round.value.model == cls0 && round.value.members == members0;
      }
      trace := trace + [round.value];
      if step.Fail? {
        return Raised(step.error), trace;
      }
    }
    r := Done;
  }
}
