/**
 * The work buffer of deep_prefetch_related_objects: a DefaultOrderedDict
 * lookup -> class -> set of instances, remembering the order in which its
 * lookups were first inserted, and `update_buffer`, which fills it.
 */
module Buffers {
  import opened Wrappers
  import opened Helpers
  import opened Lookups
  import opened Objects

  type Groups = map<Lookup, map<Cls, set<Obj>>>

  predicate Distinct<T(==)>(s: seq<T>)
  {
    forall i, j :: 0 <= i < j < |s| ==> s[i] != s[j]
  }

  /** The `(id(o), o)` pairs of a list of instances, as a set. */
  function Elements(s: seq<Obj>): set<Obj>
  {
    set o | o in s
  }

  /** The insertion order after `buffer[l]` for each l of ls in turn: a
      lookup not yet present goes to the end, one present keeps its place. */
  function Appended(keys: seq<Lookup>, ls: seq<Lookup>): seq<Lookup>
    decreases |ls|
  {
    if ls == [] then keys
    else
      var k := Appended(keys, ls[..|ls| - 1]);
      if ls[|ls| - 1] in k then k else k + [ls[|ls| - 1]]
  }

  lemma {:induction false} AppendedHas(keys: seq<Lookup>, ls: seq<Lookup>)
    ensures forall l :: l in Appended(keys, ls) <==> l in keys || l in ls
    ensures keys <= Appended(keys, ls)
    ensures Distinct(keys) ==> Distinct(Appended(keys, ls))
    decreases |ls|
  {
    if ls != [] {
      var init := ls[..|ls| - 1];
      AppendedHas(keys, init);
      assert forall l :: l in ls <==> l in init || l == ls[|ls| - 1];
    }
  }

  /** Inserting a lookup that was just inserted changes nothing. */
  lemma AppendedAgain(keys: seq<Lookup>, l: Lookup)
    ensures Appended(Appended(keys, [l]), [l]) == Appended(keys, [l])
  {
    assert [l][..0] == [];
  }

  /** Filing under `reversed(ls)` puts ls[0] last in the insertion order
      when it is new, so the next round takes it. */
  lemma LastFiledFirst(keys: seq<Lookup>, ls: seq<Lookup>)
    requires ls != [] && ls[0] !in keys && ls[0] !in ls[1..]
    ensures Last(Appended(keys, Reverse(ls))) == Some(ls[0])
  {
    var r := Reverse(ls);
    var n := |r|;
    var init := r[..n - 1];
    assert r == init + [ls[0]];
    forall j | 0 <= j < |init|
      ensures init[j] != ls[0]
    {
      assert init[j] == ls[n - 1 - j] == ls[1..][n - 2 - j];
    }
    AppendedHas(keys, init);
    assert ls[0] !in Appended(keys, init);
  }

  /** Lookups are seeded in reverse, so the last key of the seeded buffer,
      the one processed first, is the first lookup declared, unless it is
      declared again later. */
  lemma SeedOrder(lookups: seq<Lookup>)
    requires lookups != [] && lookups[0] !in lookups[1..]
    ensures Last(Appended([], Reverse(lookups))) == Some(lookups[0])
  {
    LastFiledFirst([], lookups);
  }

  /** The instances filed under lookup l and class c (empty when absent). */
  function GroupOf(g: Groups, l: Lookup, c: Cls): set<Obj>
  {
    if l in g && c in g[l] then g[l][c] else {}
  }

  /** `buffer[l][c].update(objs)`. */
  function FileOne(g: Groups, l: Lookup, c: Cls, objs: set<Obj>): Groups
  {
    var byCls := if l in g then g[l] else map[];
    g[l := byCls[c := GroupOf(g, l, c) + objs]]
  }

  /** `buffer[l][c].update(objs)` for each l of ls in turn. */
  function Filed(g: Groups, ls: seq<Lookup>, c: Cls, objs: set<Obj>): Groups
    decreases |ls|
  {
    if ls == [] then g else FileOne(Filed(g, ls[..|ls| - 1], c, objs), ls[|ls| - 1], c, objs)
  }

  /** Filing adds objs to the group of class c under every given lookup and
      changes no other group. */
  lemma {:induction false} FiledAt(g: Groups, ls: seq<Lookup>, c: Cls, objs: set<Obj>)
    ensures forall l :: l in Filed(g, ls, c, objs) <==> l in g || l in ls
    ensures forall l, d :: l in Filed(g, ls, c, objs) && d in Filed(g, ls, c, objs)[l] <==>
      (l in g && d in g[l]) || (l in ls && d == c)
    ensures forall l, d ::
      GroupOf(Filed(g, ls, c, objs), l, d) == GroupOf(g, l, d) + (if l in ls && d == c then objs else {})
    decreases |ls|
  {
    if ls != [] {
      var init := ls[..|ls| - 1];
      FiledAt(g, init, c, objs);
      assert forall l :: l in ls <==> l in init || l == ls[|ls| - 1];
    }
  }

  /** The lookups of `ls` with `x` removed, order kept. */
  function Without(s: seq<Lookup>, x: Lookup): seq<Lookup>
  {
    if s == [] then [] else (if s[0] == x then [] else [s[0]]) + Without(s[1..], x)
  }

  lemma {:induction false} WithoutAt(s: seq<Lookup>, i: nat)
    requires i < |s| && Distinct(s)
    ensures Without(s, s[i]) == s[..i] + s[i + 1..]
  {
    if i == 0 {
      WithoutAbsent(s[1..], s[0]);
    } else {
      WithoutAt(s[1..], i - 1);
      assert s[1..][i - 1] == s[i];
      assert s[1..][..i - 1] + s[1..][i..] == s[1..i] + s[i + 1..];
    }
  }

  lemma {:induction false} WithoutAbsent(s: seq<Lookup>, x: Lookup)
    requires x !in s
    ensures Without(s, x) == s
  {
    if s != [] {
      WithoutAbsent(s[1..], x);
    }
  }

  class Buffer {
    /** The lookups in insertion order (the OrderedDict's key order). */
    var keys: seq<Lookup>
    var groups: Groups

    /** The keys are the dictionary's keys, each once, and no class maps to
        an empty set (update_buffer never files an empty list), so popping
        a sample from a group always succeeds. */
    ghost predicate Valid()
      reads this
    {
      && Distinct(keys)
      && (forall l :: l in groups <==> l in keys)
      && (forall l, c :: l in groups && c in groups[l] ==> groups[l][c] != {})
    }

    /** `DefaultOrderedDict(lambda: defaultdict(set))`. */
    constructor ()
      ensures Valid() && keys == [] && groups == map[]
    {
      keys := [];
      groups := map[];
    }

    /** `buffer[key]`: `__getitem__`, which calls `__missing__` to insert an
        empty class map at the end of the order when the key is absent. */
    method GetItem(key: Lookup) returns (byCls: map<Cls, set<Obj>>)
      requires Valid()
      modifies this
      ensures Valid()
      ensures keys == Appended(old(keys), [key])
      ensures groups == if key in old(groups) then old(groups) else old(groups)[key := map[]]
      ensures byCls == groups[key]
    {
      assert [key][..0] == [];
      if key !in groups {
        keys := keys + [key];
        groups := groups[key := map[]];
      }
      byCls := groups[key];
    }

    /** `last(buffer.keys())`; None stands for the TypeError that ends the loop. */
    method LastKey() returns (r: Option<Lookup>)
      ensures r.None? <==> keys == []
      ensures r.Some? ==> r.value == keys[|keys| - 1]
    {
      r := Last(keys);
    }

    /** `buffer[key].popitem()`: some class and its instances, removed from
        the buffer; None stands for the KeyError of an empty class map. */
    method PopItem(key: Lookup) returns (r: Option<(Cls, set<Obj>)>)
      requires Valid() && key in groups
      modifies this
      ensures Valid()
      ensures keys == old(keys)
      ensures r.None? <==> old(groups)[key] == map[]
      ensures r.None? ==> groups == old(groups)
      ensures r.Some? ==> r.value.0 in old(groups)[key] && r.value.1 == old(groups)[key][r.value.0]
      ensures r.Some? ==> r.value.1 != {}
      ensures r.Some? ==> groups == old(groups)[key := old(groups)[key] - {r.value.0}]
    {
      var byCls := groups[key];
      if byCls == map[] {
        return None;
      }
      var c :| c in byCls;
      r := Some((c, byCls[c]));
      groups := groups[key := byCls - {c}];
    }

    /** `del buffer[key]`. */
    method Delete(key: Lookup)
      requires Valid() && key in groups
      modifies this
      ensures Valid()
      ensures groups == old(groups) - {key}
      ensures keys == Without(old(keys), key)
    {
      var i :| 0 <= i < |keys| && keys[i] == key;
      WithoutAt(keys, i);
      keys := keys[..i] + keys[i + 1..];
      groups := groups - {key};
    }

    /** `buffer[l][c].update(objs)` for a non-empty set of instances. */
    method AddTo(l: Lookup, c: Cls, objs: set<Obj>)
      requires Valid() && objs != {}
      modifies this
      ensures Valid()
      ensures keys == Appended(old(keys), [l])
      ensures groups == FileOne(old(groups), l, c, objs)
    {
      var byCls := GetItem(l);
      assert GroupOf(groups, l, c) == GroupOf(old(groups), l, c);
      groups := groups[l := byCls[c := GroupOf(groups, l, c) + objs]];
      assert forall x :: x in groups <==> x in old(groups) || x == l;
      assert forall x, d :: x in groups && d in groups[x] ==>
        groups[x][d] != {} by {
        forall x, d | x in groups && d in groups[x]
          ensures groups[x][d] != {}
        {
          if x == l && d == c {
            assert objs <= groups[x][d];
          }
        }
      }
    }

    /** `update_buffer(buffer, objects, lookups)`: files every instance under
        the class of the FIRST one, for each lookup in turn; raises on an
        empty list before touching the buffer. */
    method Update(objects: seq<Obj>, lookups: seq<Lookup>) returns (r: Outcome<Error>)
      requires Valid()
      modifies this
      ensures Valid()
      ensures r.Fail? <==> objects == []
      ensures r.Fail? ==> r.error == EmptyObjects && keys == old(keys) && groups == old(groups)
      ensures r.Pass? ==> keys == Appended(old(keys), lookups)
      ensures r.Pass? ==> groups == Filed(old(groups), lookups, objects[0].cls, Elements(objects))
    {
      if objects == [] {
        return Fail(EmptyObjects);
      }
      var model := objects[0].cls;
      var s := Elements(objects);
      assert objects[0] in s;
      var i := 0;
      while i < |lookups|
        invariant 0 <= i <= |lookups|
        invariant Valid()
        invariant keys == Appended(old(keys), lookups[..i])
        invariant groups == Filed(old(groups), lookups[..i], model, s)
      {
        assert lookups[..i + 1][..i] == lookups[..i];
        AddTo(lookups[i], model, s);
        i := i + 1;
      }
      assert lookups[..|lookups|] == lookups;
      r := Pass;
    }
  }
}
