# deep_prefetch traversal engine in Dafny

This project models `deep_prefetch_related_objects` from
`deep_prefetch/base.py`, together with the helpers it uses. The function
populates the relation caches of a list of Django model instances. It walks
`__`-separated prefetch lookups such as `"content_object__comments"`, and
it can also follow "non-strict" lookups through generic foreign keys, whose
targets are of mixed classes.

## How the engine works

- **The buffer.** Work flows through an insertion-ordered buffer
  `lookup -> class -> set of (id(obj), obj)` (module `Buffers`, class
  `Buffer`).
- **Seeding.** The root objects are filed under the lookups in reverse
  order.
- **Rounds.** Each round pops one class group from the last key. A key
  whose class map is empty is deleted.
- **Resolving the head attribute.** The engine resolves the head attribute
  of the lookup on one sampled member of the group:
  - a missing attribute drops the group;
  - a plain attribute in a one-segment lookup raises `ValueError`;
  - a plain attribute in a longer lookup re-queues its non-None values under
    the rest of the lookup, with no query.
- **Fetching.** For a prefetchable attribute, the engine first sets aside
  members that are already cached on the instance, or whose *value* is
  already recorded in the `seen` tree (module `Seen`). It then makes one
  batched fetch for the rest.
- **Re-queueing.** The fetched objects are re-queued under the clipped
  lookup and under the extra lookups of the fetched query set.
- **Writing caches.** Each remaining member receives the fetched objects
  whose join key equals its own, in query order (`set_cache`, class
  `Objects.Caches`).

## Two equality notions

- **Identity.** An instance is `Obj(id, cls, pk)`. Its `id` stands for
  Python's `id()`, so buffer sets distinguish instances by identity.
- **Value.** `seen` is keyed by `ObjValue(cls, pk)`, which is what Django's
  `==` and `hash` compare.

## Collaborators

The Django parts are parameters collected in `Objects.World`:

- `prefetcher` is `get_prefetcher`, answering NotFound, Plain or Fetcher;
- `attrValue` is `getattr` on a plain attribute; `getattr` raises
  AttributeError on an instance whose `prefetcher` answer is NotFound;
- `fetch` is `get_prefetch_query_set`, returning the fetched objects, the
  two key functions, the `single`/`cache_name` pair and the extra lookups.

A relation's entry in the `DESCRIPTORS` table is given with the relation as
`Rel.info`.

## Reproduced behaviours

These behaviours of the source are reproduced as written:

- `update_buffer` files every object under the class of the first object.
- `update_buffer` raises on an empty list (`Error.EmptyObjects`). The engine
  reaches this in three cases:
  - all values of a plain attribute are None;
  - a recorded or already-cached relation is empty;
  - a fetch finds nothing while lookups remain.

  In the last case the raise happens before any member's cache is written.
- The `seen` probe tests `model in seen` for the group's class but reads
  `seen[obj_model]` for the instance's class. Reading creates an empty level
  for `obj_model` (`Seen.Probed`).
- The already-cached path records the `single`/`cache_name` pair carried so
  far. That pair is None until a `seen` hit in the same group sets it.
- A `seen` hit calls `set_cache` with the recorded pair. A pair of None
  takes the multi-valued branch, which needs `getattr(obj, attr).all()`
  (`Error.NoAll` when the attribute is not a manager).
- A group can mix classes (everything is filed under the first object's
  class), so `getattr(o, attr)` on the plain path can raise AttributeError
  on a member other than the sample (`Error.NoAttr`).
- `drop` and `tail` keep the first n elements; see Findings.

## Model

| member | source | states |
|---|---|---|
| Helpers.Reverse | deep_prefetch/base.py:66 | `reversed(xs)` has the same length and holds the elements in the opposite order |
| Helpers.Head | deep_prefetch/base.py:53-55 | `head` yields nothing (StopIteration) exactly on an empty sequence, else the first element |
| Helpers.Last | deep_prefetch/base.py:64-68 | `last` fails (TypeError) exactly on an empty sequence, else yields the final element |
| Helpers.Drop | deep_prefetch/base.py:70-72 | `drop(n, xs)` is a prefix of xs with min(n, \|xs\|) elements: it keeps, not drops, the first n |
| Helpers.Tail | deep_prefetch/base.py:57-59 | `tail(xs)` is empty on an empty sequence and otherwise is the first element alone |
| Helpers.Rest | deep_prefetch/base.py:57-58 | the documented `tail`: the first element followed by the result gives the input back |
| Helpers.TailKeepsHead | deep_prefetch/base.py:57-72 | on `[1, 2]`, `tail` gives `[1]`, which differs from the documented result (the input of the Findings row) |
| Helpers.IsNotNone | deep_prefetch/base.py:45-46 | `is_not_none(x)` holds exactly for a present value |
| Lookups.FindSep | deep_prefetch/base.py:175 | the separator `str.split` cuts at is the leftmost one: no separator starts before it |
| Lookups.Split | deep_prefetch/base.py:175 | `lookup.split(LOOKUP_SEP)` has at least one piece; no piece holds a separator, and no piece but the last ends in `_` (that `_` and the separator after it would have been an earlier separator) |
| Lookups.Join | deep_prefetch/base.py:175 | `LOOKUP_SEP.join(parts)` starts with the first piece, has a separator right after it when there are several pieces, and is empty exactly for no pieces or a single empty piece (which is what makes `or None` fire) |
| Lookups.JoinSplit | deep_prefetch/base.py:175 | joining the pieces of a split with `__` gives the lookup back |
| Lookups.SplitJoin | deep_prefetch/base.py:175 | conversely, splitting the join of pieces a split can produce returns exactly those pieces, so `split` and `join` are inverse on them |
| Lookups.HasSep | deep_prefetch/base.py:262 | `LOOKUP_SEP in lookup` holds exactly when a separator occurs, exactly when the lookup has more than one segment |
| Lookups.HeadAttr | deep_prefetch/base.py:249 | the attribute a round resolves is a prefix of the lookup without any separator, and no separator of the lookup starts inside it; a separator follows it when the lookup has one (so it ends at the first separator), and it is the whole lookup otherwise |
| Lookups.SplitRest | deep_prefetch/base.py:318 | the pieces after the first separator join back to the text after it, and the lookup is head + `__` + that text |
| Lookups.ClipLookup | deep_prefetch/base.py:174-175 | `clip_lookup`: the lookup is head + `__` + result; the result splits into the lookup's pieces but the first, so it has one segment fewer; None exactly when there is no separator or nothing follows the first one |
| Objects.Written | deep_prefetch/base.py:112-120 | `set_cache`: single with an empty cache changes nothing; single stores `cache[0]` under the cache name and keeps every other attribute; multi (also for a None `single`) stores the whole list under the cache name, creating the dictionary when missing, and keeps every other entry |
| Objects.GetCache | deep_prefetch/base.py:96-110 | `get_cache`: an unknown descriptor kind fails with the KeyError branch; single reads `[attribute]` or fails "Cache is unset"; multi fails "unset" without a prefetched dictionary and with the KeyError branch when the name is missing, else reads the stored list |
| Objects.SetThenGet | deep_prefetch/base.py:96-120 | what `set_cache` writes for a described relation, `get_cache` reads back: the list, or its first object for a single relation |
| Objects.WrittenIdempotent | deep_prefetch/base.py:112-120 | writing the same cache twice leaves what writing it once leaves |
| Objects.Caches.SetDefaultPrefetched | deep_prefetch/base.py:48-51 | `setdefaultattr(obj, '_prefetched_objects_cache', {})` creates an empty dictionary only when none exists, returns the instance's dictionary and changes no other instance |
| Objects.Caches.SetCache | deep_prefetch/base.py:112-120 | fails with NoAll exactly on the multi branch when `getattr(obj, attr)` has no `.all()`, changing nothing; otherwise the instance's caches become `Written(old, meta, cache)`; no other instance changes |
| Seen.UpdatedRecords | deep_prefetch/base.py:169-172 | `update_seen` records exactly one more value, sets the relation's `single`/`cache_name` pair and that value's cache, keeps every other record, and loses nothing |
| Seen.ProbedKeepsHits | deep_prefetch/base.py:289-291 | the level the probe creates adds no record and loses nothing; a later probe can newly hit only when it tests the instance's class, which the created level puts into `seen` |
| Seen.SeenTree.constructor | deep_prefetch/base.py:232 | `seen = tree()` starts empty |
| Seen.SeenTree.Update | deep_prefetch/base.py:169-172 | the tree becomes `Updated(old tree, ...)` |
| Seen.SeenTree.Probe | deep_prefetch/base.py:289-294 | hits exactly when the group's class is in `seen` and the instance's class, attribute and value are recorded; returns the recorded pair and cache; the tree gains at most the empty level the lookup creates |
| Buffers.AppendedHas | deep_prefetch/base.py:142-146 | after `buffer[l]` for each l in turn, the keys are the old ones and the new lookups, the old order is a prefix, and no key repeats |
| Buffers.AppendedAgain | deep_prefetch/base.py:136-146 | looking up a key that was just inserted does not insert it again |
| Buffers.LastFiledFirst | deep_prefetch/base.py:320-323 | filing under `reversed(ls)` makes ls[0] the last key when it is new and not repeated, so it is processed next |
| Buffers.SeedOrder | deep_prefetch/base.py:231-240 | the first declared lookup is the first popped, unless it is declared again later |
| Buffers.FiledAt | deep_prefetch/base.py:93-94 | filing adds the objects to the group of the given class under every given lookup and changes no other group |
| Buffers.WithoutAt | deep_prefetch/base.py:246 | deleting a key removes exactly its position from the insertion order |
| Buffers.Buffer.constructor | deep_prefetch/base.py:229 | the buffer starts empty and consistent |
| Buffers.Buffer.GetItem | deep_prefetch/base.py:136-146 | `buffer[key]`: a missing key is appended at the end with an empty class map, which is returned |
| Buffers.Buffer.LastKey | deep_prefetch/base.py:240-242 | `last(buffer.keys())` is the newest key, and fails exactly when the buffer is empty |
| Buffers.Buffer.PopItem | deep_prefetch/base.py:243-245 | `buffer[key].popitem()` removes one class and returns its non-empty set; fails (KeyError) exactly when the class map is empty |
| Buffers.Buffer.Delete | deep_prefetch/base.py:246 | `del buffer[key]` removes the key from the groups and from the insertion order |
| Buffers.Buffer.AddTo | deep_prefetch/base.py:94 | `buffer[l][c].update(objs)` appends l when new and adds objs to the group of c |
| Buffers.Buffer.Update | deep_prefetch/base.py:87-94 | `update_buffer` fails ("objects are empty") exactly on an empty list, changing nothing; otherwise it appends new lookups in order and files every object under the first object's class for every lookup |
| Engine.MatchingMembers | deep_prefetch/base.py:331-334 | a member's cache holds exactly the fetched objects whose related key equals its owner key, and no more than were fetched |
| Engine.MatchingConcat | deep_prefetch/base.py:328-330 | the per-key lists keep query order: grouping distributes over concatenation |
| Engine.GroupByKey | deep_prefetch/base.py:326-334 | `rel_to_cur.get(val, [])` is, for every key, the fetched objects with that key in query order; only keys some object carries are present |
| Engine.CollectPlain | deep_prefetch/base.py:272-273 | `getattr` raises AttributeError (NoAttr) exactly when some member of the group lacks the attribute (groups can mix classes); otherwise the filtered list holds exactly the non-None values over the group, at most one per member |
| Engine.ClippedGoesNext | deep_prefetch/base.py:317-323 | when the clipped lookup is new and not among the extra lookups, the discovered objects are processed next under it |
| Engine.FollowPlain | deep_prefetch/base.py:267-275 | with nothing left to clip, nothing changes and no attribute is read; otherwise it fails exactly when some member lacks the attribute (NoAttr, taking precedence) or all values are None (EmptyObjects), leaving the buffer unchanged, and else appends the clipped lookup and files exactly the non-None values under it and the class of the first value |
| Engine.LookupsForDiscovered | deep_prefetch/base.py:317-321 | the lookups for discovered objects are exactly the extra lookups plus the clipped lookup when there is one, the extra lookups form its end, and it is empty exactly when there are no extra lookups and nothing to clip |
| Engine.DiscardOne | deep_prefetch/base.py:280-300 | a member is set aside exactly when it was cached or its value was recorded. A cached member yields its `get_cache` list, recorded in `seen` under its value with the pair carried so far, and leaves its caches alone. A hit yields the recorded pair and cache, which becomes the carried pair and is written by `set_cache`. A kept member only probes `seen`. On success the new tree, carried pair and set-aside result are exactly one `Turn`. The set-aside cache is filed under the clipped lookup (`update_buffer`). It fails with `get_cache`'s error, with NoAll when `set_cache` needs a missing `.all()`, or with EmptyObjects when an empty cache is to be re-queued. No other instance changes |
| Engine.SweepMembers | deep_prefetch/base.py:277-301 | on success the members were taken in some order, each once, and the tree and set-aside members are exactly those of `Swept` for that order, starting from the pair None; each set-aside member's caches are as its turn leaves them (`SetAsideCaches`), the buffer is the set-aside caches under the clipped lookup (`Queued`); a failure is some member's set-aside error, with `seen` only grown; only set-aside members' caches change |
| Engine.DiscardResolved | deep_prefetch/base.py:277-302 | the members left were neither cached nor recorded when the group was popped; the set-aside members and the tree are those of `Swept` over every member in some order; each set-aside member's caches are as its turn leaves them and its value is recorded (cached) or still hits (recalled) in the final tree; when no member was cached, every recalled member has exactly the pair and cache recorded for its value when the group was popped; when every member set aside was cached, the recorded pair is None; the buffer gains the clipped lookup and, under it, every set-aside cache filed under its first object's class (`Queued`); a failure is a set-aside error of some member; only set-aside members' caches change and `seen` only grows |
| Engine.SetAsideFactsGrow | deep_prefetch/base.py:285-296 | what is known about a set-aside member stays true while `seen` grows later in the group |
| Engine.AllSetAsideKept | deep_prefetch/base.py:285-336 | the facts of every member set aside survive the fetch and fill that follow, which only grow `seen` and write other instances' caches |
| Engine.SweptSnoc | deep_prefetch/base.py:280-301 | one more member extends the pass by exactly that member's turn |
| Engine.SweptGrows | deep_prefetch/base.py:280-301 | over any order, the pass only grows `seen`, sets aside only members it took, keeps only members that were neither cached nor recorded at the start, and leaves every cached member recorded and every recalled member hitting |
| Engine.SweptRecallsOld | deep_prefetch/base.py:285-296 | when no member is cached, `seen` gains only empty levels, so every member set aside is recalled with exactly the pair and cache recorded for its value at the start |
| Engine.SweptCachedOnly | deep_prefetch/base.py:277-287 | when every member set aside was cached, the pair carried and recorded is still the initial None |
| Engine.SweptFacts | deep_prefetch/base.py:277-302 | for a pass over every member: the facts above for the whole group |
| Engine.SweepKeptStep | deep_prefetch/base.py:280-300 | one more successful turn keeps the account of caches and buffer (`SweepKept`) |
| Engine.SweepTraceStep | deep_prefetch/base.py:280-301 | one more successful turn extends the trace of the pass (`SweepTrace`) by that member |
| Engine.ContributionsAdd | deep_prefetch/base.py:297-300 | setting one more member aside adds its non-empty cache to the contributions of its first object's class and to no other class |
| Engine.QueuedStep | deep_prefetch/base.py:297-300 | re-queueing one more set-aside cache under the clipped lookup keeps the buffer equal to the account `Queued` gives |
| Engine.ContributedGroups | deep_prefetch/base.py:297-300 | the groups part of that step: every group is the original plus the contributions under the clipped lookup |
| Engine.FetchAndQueue | deep_prefetch/base.py:304-323 | fails exactly when lookups remain for an empty result; otherwise files the fetched objects under `reversed([clipped] + extra)` |
| Engine.FetchRest | deep_prefetch/base.py:304-336 | the fetch for the members left fails exactly when lookups remain for an empty result (EmptyObjects) or the relation is multi-valued and a member lacks `.all()` (NoAll); on success the fetched objects are filed under `reversed(lookups)` and every member holds its matching objects, recorded from the batch; `seen` only grows and no other instance changes |
| Engine.QueuedFetch | deep_prefetch/base.py:317-323 | filing the fetched objects under `reversed(lookups)` after the set-aside phase gives the buffer `Queued` describes for the whole round |
| Engine.FillOne | deep_prefetch/base.py:331-336 | `seen` becomes the old tree with the member's value recorded with the fetch's pair and exactly this cache; it fails (NoAll) exactly for a multi-valued relation whose attribute has no `.all()`, after the record and with caches unchanged; else the member's caches are written; no other instance changes |
| Engine.Fill | deep_prefetch/base.py:326-336 | fails (NoAll) exactly when the relation is multi-valued and some member lacks `.all()`; on success every member's caches become `Written(old, (single, cache_name), objects with its owner key in query order)`, its value is recorded with the fetch's pair, and the recorded cache is the matching list of some value-equal member of the batch; no other instance changes |
| Engine.FilledTreeRecords | deep_prefetch/base.py:331-335 | filling members in some order records each member's value with the matching list of a value-equal member of the batch, and only grows `seen` |
| Engine.ProcessGroup | deep_prefetch/base.py:249-336 | a missing attribute changes nothing; a plain attribute in a one-segment lookup raises the invalid-lookup error; a plain attribute never fetches and carries FollowPlain's buffer effect and raise conditions; a prefetchable attribute carries FetchGroup's contract: fetch for a non-empty subset none of which was cached or recorded, buffer as `Queued` gives it, raise conditions and errors, caches and records of fetched and set-aside members, the set-aside members as `Swept` gives them, recalled members holding the records of the popped tree when none was cached, and the pair None when all were cached and nothing was fetched; no other instance changes |
| Engine.FetchGroup | deep_prefetch/base.py:277-336 | without a fetch, a failure is a set-aside error of some member; with one, it fails exactly when lookups remain for an empty result (EmptyObjects) or the relation is multi-valued and a fetched member lacks `.all()` (NoAll); on success the set-aside members are the others and are those `Swept` gives for some order of the members, each recalled one holding the record of the popped tree when no member was cached, and the recorded pair is None when all were cached and nothing was fetched; the buffer is the set-aside caches under the clipped lookup then the fetched objects under `reversed(lookups)`; every fetched member holds its matching objects, recorded from the batch |
| Engine.NewBuffer | deep_prefetch/base.py:229-231 | the new buffer's keys are exactly the lookups, none when there are none; the first declared lookup is its last key unless repeated; every key holds exactly the roots under the first root's class |
| Engine.SeededKeys | deep_prefetch/base.py:231-242 | the seeded buffer is empty exactly when there are no lookups, and its last key is the first declared lookup unless repeated |
| Engine.SeededGroup | deep_prefetch/base.py:231-244 | every seeded key holds exactly the root objects under the first root's class |
| Engine.TakeRound | deep_prefetch/base.py:243-249 | an empty class map deletes the key and changes nothing else; otherwise a group of the key is popped and processed, and the sample is a member |
| Engine.DeepPrefetchRelatedObjects | deep_prefetch/base.py:178-336 | empty roots (or no lookups) return at once, leaving caches untouched; when the first declared lookup is not declared again later, the first round takes it with all roots under the first root's class; each round's fetch is for a non-empty subset of its group; an invalid-lookup error names a lookup without separator |

## Findings

| source | as written | input that shows it | evidently intended | confidence | as-written member | corrected member |
|---|---|---|---|---|---|---|
| deep_prefetch/base.py:57-72 | `tail(xs)` is `drop(1, xs)`, i.e. `islice(xs, 1)`: only the first element | `tail([1, 2])` is `[1]` | all elements but the first (`[2]`), as the doc comments of `tail` and `drop` say | high; not executed | Helpers.TailKeepsHead | Helpers.Rest |

The engine calls neither `tail` nor `drop`, so the corrected `Rest` has no
caller in the model either.

## Left out

- Engine.DeepPrefetchRelatedObjects: runs at most `fuel` rounds and returns `OutOfFuel` with work left. The source loops until the buffer drains. That need not happen when a fetch keeps declaring extra lookups; without them, every re-queued lookup has one segment fewer (`Lookups.ClipLookup`). Termination is not proved.
- Engine.DeepPrefetchRelatedObjects: its contract states the run-level facts listed above. The final cache contents are stated per group (Engine.ProcessGroup, Engine.Fill) and are not composed over the whole run.
- Engine.TakeRound: does not pass on the cache and `seen` facts of Engine.ProcessGroup; it states the pop and the round record only.
- Django's `get_prefetcher`, `getattr` and `get_prefetch_query_set` are parameters (`World`), not code. `is_fetched` is modelled as the relation's cached slot being present on the instance.
- The `DESCRIPTORS` table and its `cache_attr` lambdas (deep_prefetch/base.py:16-42) read Django descriptor internals. A relation's `(single, cache_attr)` entry is given as `Rel.info`.
- A single-valued cache holding None (a cached null foreign key) is not representable, because cached attributes hold instances only.
- The QuerySet built by `set_cache` (`.all()`, `_result_cache`, `_prefetch_done`) is modelled as the list it holds. Clearing `_prefetch_related_lookups` on the fetched query set (deep_prefetch/base.py:314-315) is not modelled.
- The debugger call in `get_cache` (deep_prefetch/base.py:109) is modelled only as its error outcome.
- Python `id()` is the `id` field of an instance. Reuse of ids after collection is not modelled.
- Python set iteration order and `popitem` order are left open: the model chooses an arbitrary member or class.
- `init`, `put`, `concat` and `find` (deep_prefetch/base.py:61-84) are not used by the engine.
- The `DefaultOrderedDict` constructor check and its pickling, copy and repr methods (deep_prefetch/base.py:130-134, 148-167) are not modelled. The buffer is created with a default factory.
- deep_prefetch/utils.py (the QuerySet and Manager patches that call the engine) and the test project are not part of this model.
