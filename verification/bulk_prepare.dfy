/**
 * The bulk loaders first serialise every source item into a dictionary keyed
 * by the item's `id`, then issue one stream create per dictionary entry.
 * Adding a key twice throws; the loader's catch absorbs the exception, so no
 * create at all is sent for that container. A stream create the store
 * refuses does not throw: its status is only logged.
 */
module BulkPrepare {
  import opened Wrappers
  import opened Schema
  import opened Store

  /**
   * The prepared dictionary: its keys in the order they were added (the
   * order the loader enumerates them in) and the document under each key.
   */
  datatype ItemDictionary = ItemDictionary(order: seq<string>, entries: map<string, Doc>) {
    ghost predicate Valid() {
      && (forall i, j :: 0 <= i < j < |order| ==> order[i] != order[j])
      && (forall k :: k in entries <==> k in order)
    }
  }

  /** The exception `Add` throws: the position of the item and the key already present. */
  datatype DuplicateKey = DuplicateKey(index: nat, key: string)

  /** `e` names the first item whose `id` an earlier item already has. */
  ghost predicate IsFirstDuplicate(items: seq<Doc>, e: DuplicateKey) {
    && e.index < |items|
    && e.key == items[e.index].id
    && DistinctPrefix(items, e.index)
    && exists k :: 0 <= k < e.index && items[k].id == e.key
  }

  /** After `i` additions: the first `i` items are added in order under their ids, and nothing else. */
  ghost predicate PreparedUpTo(items: seq<Doc>, i: nat, order: seq<string>, entries: map<string, Doc>) {
    && i <= |items|
    && DistinctPrefix(items, i)
    && |order| == i && (forall k :: 0 <= k < i ==> order[k] == items[k].id)
    && (forall k :: 0 <= k < i ==> items[k].id in entries && entries[items[k].id] == items[k])
    && (forall key :: key in entries ==> key in order)
    && |entries| == i
  }

  /** Adding an id not yet present extends the prepared prefix by one item. */
  lemma PreparedStep(items: seq<Doc>, i: nat, order: seq<string>, entries: map<string, Doc>)
    requires PreparedUpTo(items, i, order, entries) && i < |items| && items[i].id !in entries
    ensures PreparedUpTo(items, i + 1, order + [items[i].id], entries[items[i].id := items[i]])
  {
    forall a, b | 0 <= a < b < i + 1
      ensures items[a].id != items[b].id
    {
      if b == i {
        assert items[a].id in entries;
      }
    }
  }

  /** An id already present makes the current item the first duplicate. */
  lemma PreparedDuplicate(items: seq<Doc>, i: nat, order: seq<string>, entries: map<string, Doc>)
    requires PreparedUpTo(items, i, order, entries) && i < |items| && items[i].id in entries
    ensures IsFirstDuplicate(items, DuplicateKey(i, items[i].id))
    ensures !DistinctIds(items)
  {
    var k :| 0 <= k < |order| && order[k] == items[i].id;
    assert items[k].id == items[i].id;
  }

  /**
   * "Prepare items for insertion": add each item under its `id`, in list
   * order. Succeeds with one entry per item exactly when the ids are
   * distinct; otherwise stops at the first repeated id.
   */
  method PrepareItems(items: seq<Doc>) returns (r: Result<ItemDictionary, DuplicateKey>)
    ensures r.Success? <==> DistinctIds(items)
    ensures r.Success? ==>
      && r.value.Valid()
      && |r.value.order| == |r.value.entries| == |items|
      && (forall k :: 0 <= k < |items| ==> r.value.order[k] == items[k].id)
      && (forall k :: 0 <= k < |items| ==> r.value.entries[items[k].id] == items[k])
    ensures r.Failure? ==> IsFirstDuplicate(items, r.error)
  {
    var order: seq<string> := [];
    var entries: map<string, Doc> := map[];
    var i := 0;
    while i < |items|
      invariant PreparedUpTo(items, i, order, entries)
    {
      var item := items[i];
      if item.id in entries {
        PreparedDuplicate(items, i, order, entries);
        return Failure(DuplicateKey(i, item.id));
      }
      PreparedStep(items, i, order, entries);
      entries := entries[item.id := item];
      order := order + [item.id];
      i := i + 1;
    }
    r := Success(ItemDictionary(order, entries));
  }

  /** The creates the launch loop issues: one per entry, in enumeration order. */
  function Launches(c: Container, d: ItemDictionary): (r: seq<Write>)
    requires d.Valid()
  {
    seq(|d.order|, i requires 0 <= i < |d.order| => Write(c, d.order[i], d.entries[d.order[i]]))
  }

  /**
   * The launch loop: one stream create per dictionary entry, collected in a
   * task list. A refused stream create only has its status logged, so every
   * entry is sent whatever the store answers.
   */
  method LaunchAll(store: Store, c: Container, d: ItemDictionary) returns (tasks: seq<Write>)
    requires d.Valid()
    modifies store
    ensures tasks == Launches(c, d)
    ensures store.paths == old(store.paths)
    ensures store.log == old(store.log) + tasks
    ensures store.stored == Apply(store.paths, old(store.stored), tasks)
  {
    ghost var s0 := store.stored;
    ghost var ws := Launches(c, d);
    tasks := [];
    var i := 0;
    while i < |d.order|
      invariant 0 <= i <= |d.order|
      invariant tasks == ws[..i]
      invariant store.paths == old(store.paths) && store.log == old(store.log) + tasks
      invariant store.stored == Apply(store.paths, s0, tasks)
    {
      var key := d.order[i];
      var w := Write(c, key, d.entries[key]);
      var _ := Send(store, w, s0, ws, i);
      tasks := tasks + [w];
      i := i + 1;
    }
  }

  /** A dictionary prepared from `items` launches exactly the creates keyed by `id`, in list order. */
  lemma LaunchesArePreparedWrites(c: Container, items: seq<Doc>, d: ItemDictionary)
    requires d.Valid() && |d.order| == |items|
    requires forall k :: 0 <= k < |items| ==> d.order[k] == items[k].id
    requires forall k :: 0 <= k < |items| ==> items[k].id in d.entries && d.entries[items[k].id] == items[k]
    ensures Launches(c, d) == Writes(c, Id, items)
  {
    forall k | 0 <= k < |items|
      ensures Launches(c, d)[k] == Writes(c, Id, items)[k]
    {
      WritesAt(c, Id, items, k);
    }
  }

  /**
   * Prepare, then launch, into an existing container. A repeated id throws
   * out of the prepare step into the loader's catch, so nothing is sent;
   * otherwise every item is sent once, keyed by `id`, and the source count
   * is reported.
   */
  method BulkInsert(store: Store, c: Container, items: seq<Doc>) returns (outcome: Result<nat, DuplicateKey>)
    modifies store
    ensures store.paths == old(store.paths)
    ensures outcome.Success? <==> DistinctIds(items)
    ensures outcome.Success? ==>
      && outcome.value == |items|
      && store.log == old(store.log) + Writes(c, Id, items)
      && store.stored == Apply(store.paths, old(store.stored), Writes(c, Id, items))
    ensures outcome.Failure? ==>
      IsFirstDuplicate(items, outcome.error) && store.log == old(store.log) && store.stored == old(store.stored)
  {
    var prepared := PrepareItems(items);
    if prepared.Failure? {
      return Failure(prepared.error);
    }
    var tasks := LaunchAll(store, c, prepared.value);
    LaunchesArePreparedWrites(c, items, prepared.value);
    outcome := Success(|items|);
  }

  /**
   * One bulk container load: create the container with its path unless it
   * exists, then prepare and launch.
   */
  method BulkLoadContainer(store: Store, c: Container, path: Field, items: seq<Doc>)
    returns (outcome: Result<nat, DuplicateKey>)
    modifies store
    ensures store.paths == WithContainer(old(store.paths), c, path)
    ensures outcome.Success? <==> DistinctIds(items)
    ensures outcome.Success? ==>
      && outcome.value == |items|
      && store.log == old(store.log) + Writes(c, Id, items)
      && store.stored == Apply(store.paths, old(store.stored), Writes(c, Id, items))
    ensures outcome.Failure? ==>
      IsFirstDuplicate(items, outcome.error) && store.log == old(store.log) && store.stored == old(store.stored)
  {
    store.CreateContainer(c, path);
    outcome := BulkInsert(store, c, items);
  }

  /** Two items with one id: the second is reported and nothing is prepared. */
  lemma DuplicateIdIsFirstDuplicate(a: Doc, b: Doc)
    requires a.id == b.id
    ensures !DistinctIds([a, b])
    ensures IsFirstDuplicate([a, b], DuplicateKey(1, b.id))
  {
    assert [a, b][0].id == [a, b][1].id;
  }
}
