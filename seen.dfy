/**
 * The `seen` tree of deep_prefetch_related_objects: class -> attribute ->
 * (single, cache_name, value -> cache). It is built with `tree()`, a
 * defaultdict that creates any missing level on lookup, and it is keyed by
 * instance VALUE, so value-equal instances share one recorded cache.
 */
module Seen {
  import opened Wrappers
  import opened Objects

  /** `seen[model][attr]`. */
  datatype Entry = Entry(meta: Option<CacheInfo>, cache: map<ObjValue, seq<Obj>>)

  type Tree = map<Cls, map<Attr, Entry>>

  /** A cache is recorded for value v under class c and attribute attr. */
  predicate Recorded(t: Tree, c: Cls, attr: Attr, v: ObjValue)
  {
    c in t && attr in t[c] && v in t[c][attr].cache
  }

  /** The probe of the seen branch: it tests `model in seen` for the group's
      class, but looks the entry up under the instance's own class. */
  predicate Hit(t: Tree, model: Cls, attr: Attr, o: Obj)
  {
    model in t && Recorded(t, o.cls, attr, ValueOf(o))
  }

  /** Nothing recorded is ever lost and no class key disappears. */
  ghost predicate Grows(t: Tree, t': Tree)
  {
    && (forall c :: c in t ==> c in t')
    && (forall c, a, v :: Recorded(t, c, a, v) ==> Recorded(t', c, a, v))
  }

  /** Growth composes. */
  lemma GrowsTrans(t0: Tree, t1: Tree, t2: Tree)
    requires Grows(t0, t1) && Grows(t1, t2)
    ensures Grows(t0, t2)
  {
  }

  /** The tree after `update_seen(seen, model, attr, single, cache_name, obj, cache)`. */
  function Updated(t: Tree, model: Cls, attr: Attr, meta: Option<CacheInfo>, o: Obj, cache: seq<Obj>): Tree
  {
    var byAttr := if model in t then t[model] else map[];
    var prior := if attr in byAttr then byAttr[attr].cache else map[];
    t[model := byAttr[attr := Entry(meta, prior[ValueOf(o) := cache])]]
  }

  /** The tree after the probe: indexing `seen[obj_model]` creates an empty
      level for the instance's class once `model in seen` held. */
  function Probed(t: Tree, model: Cls, o: Obj): Tree
  {
    if model in t && o.cls !in t then t[o.cls := map[]] else t
  }

  /** update_seen records exactly one more value, overwrites the relation's
      (single, cache_name) pair, and keeps every other record as it was. */
  lemma UpdatedRecords(t: Tree, model: Cls, attr: Attr, meta: Option<CacheInfo>, o: Obj, cache: seq<Obj>)
    ensures forall c, a, v :: Recorded(Updated(t, model, attr, meta, o, cache), c, a, v) <==>
      Recorded(t, c, a, v) || (c == model && a == attr && v == ValueOf(o))
    ensures Updated(t, model, attr, meta, o, cache)[model][attr].meta == meta
    ensures Updated(t, model, attr, meta, o, cache)[model][attr].cache[ValueOf(o)] == cache
    ensures forall c, a, v :: Recorded(t, c, a, v) && (c, a, v) != (model, attr, ValueOf(o)) ==>
      Updated(t, model, attr, meta, o, cache)[c][a].cache[v] == t[c][a].cache[v]
    ensures Grows(t, Updated(t, model, attr, meta, o, cache))
  {
  }

  /** The probe's side effect adds no record; the empty level it may create
      for the instance's class can make a later probe against that class hit,
      and changes no other probe's answer. */
  lemma ProbedKeepsHits(t: Tree, model: Cls, o: Obj)
    ensures forall c, a, v :: Recorded(Probed(t, model, o), c, a, v) <==> Recorded(t, c, a, v)
    ensures forall m, a, x :: Hit(Probed(t, model, o), m, a, x) <==> Hit(t, m, a, x) || (m == o.cls && model in t && o.cls !in t && Recorded(t, x.cls, a, ValueOf(x)))
    ensures Grows(t, Probed(t, model, o))
  {
  }

  class SeenTree {
    var tree: Tree

    constructor ()
      ensures tree == map[]
    {
      tree := map[];
    }

    /** `update_seen(seen, model, attr, single, cache_name, obj, cache)`. */
    method Update(model: Cls, attr: Attr, meta: Option<CacheInfo>, o: Obj, cache: seq<Obj>)
      modifies this
      ensures tree == Updated(old(tree), model, attr, meta, o, cache)
    {
      var byAttr := if model in tree then tree[model] else map[];
      var prior := if attr in byAttr then byAttr[attr].cache else map[];
      tree := tree[model := byAttr[attr := Entry(meta, prior[ValueOf(o) := cache])]];
    }

    /** The seen branch's test and read: the recorded (single, cache_name)
        pair and cache for the instance's value, if the probe hits. */
    method Probe(model: Cls, attr: Attr, o: Obj) returns (hit: Option<(Option<CacheInfo>, seq<Obj>)>)
      modifies this
      ensures hit.Some? <==> Hit(old(tree), model, attr, o)
      ensures hit.Some? ==> hit.value.0 == old(tree)[o.cls][attr].meta
      ensures hit.Some? ==> hit.value.1 == old(tree)[o.cls][attr].cache[ValueOf(o)]
      ensures tree == Probed(old(tree), model, o)
    {
      if model !in tree {
        return None;
      }
      if o.cls !in tree {
        tree := tree[o.cls := map[]];
      }
      var byAttr := tree[o.cls];
      if attr !in byAttr {
        return None;
      }
      var e := byAttr[attr];
      if ValueOf(o) !in e.cache {
        return None;
      }
      hit := Some((e.meta, e.cache[ValueOf(o)]));
    }
  }
}
