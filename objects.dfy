/**
 * Model instances, the collaborators the engine consults (Django's
 * get_prefetcher, getattr and get_prefetch_query_set) and the relation
 * caches the engine reads and writes on instances.
 */
module Objects {
  import opened Wrappers
  import opened Lookups

  type Cls = string   // `obj.__class__`
  type Attr = string  // one lookup segment
  type Name = string  // a cache slot name
  type Key = int      // a join key, compared by equality only

  /** A model instance. `id` is Python's `id(obj)`; the whole record is the
      `(id(obj), obj)` pair the buffer stores, so two records are equal only
      when they are the same physical instance. */
  datatype Obj = Obj(id: nat, cls: Cls, pk: int)

  /** What Django's `==` and `hash` look at: the class and the primary key. */
  datatype ObjValue = ObjValue(cls: Cls, pk: int)

  function ValueOf(o: Obj): ObjValue
  {
    ObjValue(o.cls, o.pk)
  }

  /** The `(single, cache_name)` pair of a relation. */
  datatype CacheInfo = CacheInfo(single: bool, name: Name)

  /** A prefetcher found by get_prefetcher. `kind` is its class name;
      `probe` is the slot its `is_cached` test looks for (None when it has
      no such test, as for related managers); `info` is the entry of the
      DESCRIPTORS table for `kind` (None when the kind is not in it);
      `manager` tells whether `getattr(obj, attr)` is a manager with `.all()`. */
  datatype Rel = Rel(kind: string, probe: Option<Name>, info: Option<CacheInfo>, manager: bool)

  /** get_prefetcher's verdict on one instance and attribute: the attribute
      is missing, present but plain (no prefetcher), or prefetchable. */
  datatype Prefetcher = NotFound | Plain | Fetcher(rel: Rel)

  /** What `get_prefetch_query_set` returns: the fetched objects in query
      order, the join key of a fetched object and of an owner, whether the
      relation is single-valued, its cache name, and the prefetch lookups the
      returned query set carries. */
  datatype Fetched = Fetched(
    discovered: seq<Obj>,
    relKey: Obj -> Key,
    ownerKey: Obj -> Key,
    single: bool,
    cacheName: Name,
    extra: seq<Lookup>)

  /** The collaborators: `prefetcher` is get_prefetcher without its
      `is_fetched` part (which depends on the caches, see IsFetched); its
      NotFound is also what makes `getattr(obj, attr)` raise AttributeError.
      `attrValue` is `getattr(obj, attr)` where the attribute exists, and
      `fetch` is the prefetcher's batched query over a set of owners. */
  datatype World = World(
    prefetcher: (Obj, Attr) -> Prefetcher,
    attrValue: (Obj, Attr) -> Option<Obj>,
    fetch: (Rel, set<Obj>) -> Fetched)

  /** The exceptions the engine can raise. */
  datatype Error =
    | EmptyObjects              // ValueError('"objects" are empty!') in update_buffer
    | InvalidLookup(lookup: Lookup)  // ValueError: not an item that supports prefetching
    | CacheUnset                // ValueError('Cache is unset!') in get_cache
    | CacheKeyMissing           // the KeyError branch of get_cache (debugger, then ValueError)
    | NoAll(attr: Attr)         // AttributeError from `getattr(obj, attr).all()` in set_cache
    | NoAttr(attr: Attr)        // AttributeError from `getattr(obj, attr)` on a plain attribute

  /** The caches one instance carries: plain attributes written through
      `obj.__dict__` and, once created, `obj._prefetched_objects_cache`. */
  datatype ObjState = ObjState(attrs: map<Name, Obj>, prefetched: Option<map<Option<Name>, seq<Obj>>>)

  const Fresh := ObjState(map[], None)

  /** get_prefetcher's `is_fetched`: the prefetcher's `is_cached` slot is set. */
  predicate IsFetched(st: ObjState, p: Prefetcher)
  {
    p.Fetcher? && p.rel.probe.Some? && p.rel.probe.value in st.attrs
  }

  /** Whether `getattr(obj, attr).all()` can be evaluated. */
  predicate HasAll(w: World, o: Obj, attr: Attr)
  {
    w.prefetcher(o, attr).Fetcher? && w.prefetcher(o, attr).rel.manager
  }

  /** set_cache takes the multi-valued branch (`elif not single`), which also
      covers a `single` of None. */
  predicate MultiBranch(meta: Option<CacheInfo>)
  {
    meta.None? || !meta.value.single
  }

  /** The key set_cache stores a multi-valued cache under (None when
      cache_name is None). */
  function MultiKey(meta: Option<CacheInfo>): Option<Name>
  {
    if meta.None? then None else Some(meta.value.name)
  }

  /** The caches of one instance after a successful `set_cache`. */
  function Written(st: ObjState, meta: Option<CacheInfo>, cache: seq<Obj>): (r: ObjState)
    ensures meta.Some? && meta.value.single && cache == [] ==> r == st
    ensures meta.Some? && meta.value.single && cache != [] ==>
      r.prefetched == st.prefetched && r.attrs.Keys == st.attrs.Keys + {meta.value.name} &&
      r.attrs[meta.value.name] == cache[0] &&
      forall n :: n in st.attrs && n != meta.value.name ==> r.attrs[n] == st.attrs[n]
    ensures MultiBranch(meta) ==>
      r.attrs == st.attrs && r.prefetched.Some? &&
      r.prefetched.value.Keys == (if st.prefetched.Some? then st.prefetched.value.Keys else {}) + {MultiKey(meta)} &&
      r.prefetched.value[MultiKey(meta)] == cache &&
      forall n :: st.prefetched.Some? && n in st.prefetched.value && n != MultiKey(meta) ==>
        r.prefetched.value[n] == st.prefetched.value[n]
  {
    if meta.Some? && meta.value.single then
      if cache != [] then st.(attrs := st.attrs[meta.value.name := cache[0]]) else st
    else
      var m := if st.prefetched.Some? then st.prefetched.value else map[];
      st.(prefetched := Some(m[MultiKey(meta) := cache]))
  }

  /** `get_cache(obj, prefetcher, descriptor, attr)`: the objects cached for
      the relation, read back as a list. */
  function GetCache(st: ObjState, rel: Rel): (r: Result<seq<Obj>, Error>)
    ensures rel.info.None? ==> r == Err(CacheKeyMissing)
    ensures rel.info.Some? && rel.info.value.single ==>
      (r.Ok? <==> rel.info.value.name in st.attrs) &&
      (r.Ok? ==> r.value == [st.attrs[rel.info.value.name]]) &&
      (r.Err? ==> r.error == CacheUnset)
    ensures rel.info.Some? && !rel.info.value.single ==>
      (st.prefetched.None? ==> r == Err(CacheUnset)) &&
      (st.prefetched.Some? && Some(rel.info.value.name) !in st.prefetched.value ==> r == Err(CacheKeyMissing)) &&
      (st.prefetched.Some? && Some(rel.info.value.name) in st.prefetched.value ==>
        r == Ok(st.prefetched.value[Some(rel.info.value.name)]))
  {
    match rel.info
    case None => Err(CacheKeyMissing)
    case Some(CacheInfo(single, name)) =>
      if single then
        if name in st.attrs then Ok([st.attrs[name]]) else Err(CacheUnset)
      else if st.prefetched.None? then Err(CacheUnset)
      else if Some(name) !in st.prefetched.value then Err(CacheKeyMissing)
      else Ok(st.prefetched.value[Some(name)])
  }

  /** What set_cache writes for a relation, get_cache reads back: the whole
      list for a multi-valued relation, its first object for a single one. */
  lemma SetThenGet(st: ObjState, rel: Rel, cache: seq<Obj>)
    requires rel.info.Some?
    requires rel.info.value.single ==> cache != []
    ensures GetCache(Written(st, rel.info, cache), rel) ==
      Ok(if rel.info.value.single then [cache[0]] else cache)
  {
  }

  /** Writing the same cache twice leaves what writing it once leaves. */
  lemma WrittenIdempotent(st: ObjState, meta: Option<CacheInfo>, cache: seq<Obj>)
    ensures Written(Written(st, meta, cache), meta, cache) == Written(st, meta, cache)
  {
    var once := Written(st, meta, cache);
    if meta.Some? && meta.value.single {
      if cache != [] {
        assert once.attrs[meta.value.name := cache[0]] == once.attrs;
      }
    } else {
      var m := once.prefetched.value;
      assert m[MultiKey(meta) := cache] == m;
    }
  }

  /** The caches of instance o in a snapshot objs of all instances' caches
      (an instance never touched has none). */
  function StateOf(objs: map<Obj, ObjState>, o: Obj): ObjState
  {
    if o in objs then objs[o] else Fresh
  }

  /** The relation caches of every instance: the instances' mutable state. */
  class Caches {
    var objs: map<Obj, ObjState>

    constructor (initial: map<Obj, ObjState>)
      ensures objs == initial
    {
      objs := initial;
    }

    /** The caches of one instance. */
    function Of(o: Obj): ObjState
      reads this
    {
      StateOf(objs, o)
    }

    /** `setdefaultattr(obj, '_prefetched_objects_cache', {})`: create the
        instance's prefetched-objects dictionary unless it exists, and return it. */
    method SetDefaultPrefetched(o: Obj) returns (m: map<Option<Name>, seq<Obj>>)
      modifies this
      ensures Of(o).attrs == old(Of(o)).attrs
      ensures Of(o).prefetched == Some(m)
      ensures old(Of(o)).prefetched.Some? ==> Of(o) == old(Of(o))
      ensures old(Of(o)).prefetched.None? ==> m == map[]
      ensures forall x :: x != o ==> Of(x) == old(Of(x))
    {
      var st := Of(o);
      if st.prefetched.None? {
        objs := objs[o := st.(prefetched := Some(map[]))];
      }
      m := Of(o).prefetched.value;
    }

    /** `set_cache(obj, single, cache, cache_name, attr)`: a single-valued
        relation stores `cache[0]` in the instance's attribute (nothing when
        the cache is empty); otherwise the list goes into the instance's
        prefetched-objects dictionary, which needs `getattr(obj, attr).all()`. */
    method SetCache(w: World, o: Obj, meta: Option<CacheInfo>, cache: seq<Obj>, attr: Attr)
      returns (r: Outcome<Error>)
      modifies this
      ensures r.Fail? <==> MultiBranch(meta) && !HasAll(w, o, attr)
      ensures r.Fail? ==> r.error == NoAll(attr) && objs == old(objs)
      ensures r.Pass? ==> Of(o) == Written(old(Of(o)), meta, cache)
      ensures forall x :: x != o ==> Of(x) == old(Of(x))
    {
      if meta.Some? && meta.value.single {
        if cache != [] {
          var st := Of(o);
          objs := objs[o := st.(attrs := st.attrs[meta.value.name := cache[0]])];
        }
        r := Pass;
      } else if !HasAll(w, o, attr) {
        r := Fail(NoAll(attr));
      } else {
        var m := SetDefaultPrefetched(o);
        var st := Of(o);
        objs := objs[o := st.(prefetched := Some(m[MultiKey(meta) := cache]))];
        r := Pass;
      }
    }
  }
}
