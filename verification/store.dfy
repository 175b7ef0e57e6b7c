/**
 * The document store, seen through the creates the loader sends it. The
 * store knows the partition-key path of every container created so far and
 * holds the documents it accepted. It refuses a create into a container that
 * does not exist, one whose partition key is not the value at the
 * container's path, and one for an item it already holds. Item loads fill a
 * task array with one create per source item.
 */
module Store {
  import opened Wrappers
  import opened Schema

  /** One create request: the container, the partition key passed with it, and the document. */
  datatype Write = Write(container: Container, key: string, doc: Doc)

  function WriteOf(c: Container, f: Field, d: Doc): Write {
    Write(c, Value(d, f), d)
  }

  /** The creates for `items`, in order, each keyed by the item's property `f`. */
  function Writes(c: Container, f: Field, items: seq<Doc>): (r: seq<Write>)
    ensures |r| == |items|
  {
    if items == [] then []
    else Writes(c, f, items[..|items| - 1]) + [WriteOf(c, f, items[|items| - 1])]
  }

  /** The i-th create is for the i-th item: one create per item, in list order. */
  lemma {:induction false} WritesAt(c: Container, f: Field, items: seq<Doc>, i: nat)
    requires i < |items|
    ensures Writes(c, f, items)[i] == WriteOf(c, f, items[i])
  {
    if i < |items| - 1 {
      WritesAt(c, f, items[..|items| - 1], i);
    }
  }

  /** Every create for `items` goes to `c`, carries one of the items, and is keyed by that item's property `f`. */
  lemma {:induction false} WritesMember(c: Container, f: Field, items: seq<Doc>)
    ensures forall w :: w in Writes(c, f, items) ==> w.container == c && w.doc in items && w.key == Value(w.doc, f)
  {
    if items != [] {
      WritesMember(c, f, items[..|items| - 1]);
      assert forall d :: d in items[..|items| - 1] ==> d in items;
    }
  }

  /** Two writes are for the same item: one container, one partition key, one id. */
  predicate SameItem(a: Write, b: Write) {
    a.container == b.container && a.key == b.key && a.doc.id == b.doc.id
  }

  /**
   * The store's verdict on a create: the container exists, the partition key
   * sent with the document is the value at the container's path, and the
   * store does not hold that item yet.
   */
  predicate Accepts(paths: map<Container, Field>, stored: seq<Write>, w: Write) {
    && w.container in paths
    && w.key == Value(w.doc, paths[w.container])
    && !Holds(stored, w)
  }

  /** The store already holds the item `w` creates. */
  predicate Holds(stored: seq<Write>, w: Write) {
    exists i :: 0 <= i < |stored| && SameItem(stored[i], w)
  }

  /** What the store holds after `ws` are sent in order: an accepted create is kept, a refused one dropped. */
  function Apply(paths: map<Container, Field>, stored: seq<Write>, ws: seq<Write>): (r: seq<Write>)
    ensures |stored| <= |r| <= |stored| + |ws| && r[..|stored|] == stored
    decreases |ws|
  {
    if ws == [] then stored
    else
      var before := Apply(paths, stored, ws[..|ws| - 1]);
      if Accepts(paths, before, ws[|ws| - 1]) then before + [ws[|ws| - 1]] else before
  }

  /** Every create in `ws`, sent in order, is accepted. */
  predicate AllAccepted(paths: map<Container, Field>, stored: seq<Write>, ws: seq<Write>)
    decreases |ws|
  {
    ws == [] ||
    (AllAccepted(paths, stored, ws[..|ws| - 1]) && Accepts(paths, Apply(paths, stored, ws[..|ws| - 1]), ws[|ws| - 1]))
  }

  /** Sending one more create: the store keeps it exactly when it accepts it. */
  lemma ApplySnoc(paths: map<Container, Field>, s: seq<Write>, ws: seq<Write>, w: Write)
    ensures var before := Apply(paths, s, ws);
      && Apply(paths, s, ws + [w]) == (if Accepts(paths, before, w) then before + [w] else before)
      && (AllAccepted(paths, s, ws + [w]) <==> AllAccepted(paths, s, ws) && Accepts(paths, before, w))
  {
    assert (ws + [w])[..|ws|] == ws;
  }

  /** Every create is accepted exactly when the store ends up holding all of them after what it held. */
  lemma {:induction false} AllAcceptedIff(paths: map<Container, Field>, s: seq<Write>, ws: seq<Write>)
    ensures AllAccepted(paths, s, ws) <==> Apply(paths, s, ws) == s + ws
  {
    if ws != [] {
      var init, w := ws[..|ws| - 1], ws[|ws| - 1];
      AllAcceptedIff(paths, s, init);
      var before := Apply(paths, s, init);
      assert s + ws == (s + init) + [w];
      if Apply(paths, s, ws) == s + ws {
        assert |Apply(paths, s, ws)| == |s| + |init| + 1;
        assert Accepts(paths, before, w);
        assert before == (before + [w])[..|before|];
      }
    }
  }

  /** One refused create is enough for a load not to be all accepted. */
  lemma RefusalFailsLoad(paths: map<Container, Field>, s: seq<Write>, ws: seq<Write>, n: nat)
    requires n < |ws| && !Accepts(paths, Apply(paths, s, ws[..n]), ws[n])
    ensures !AllAccepted(paths, s, ws)
  {
    ApplyAppend(paths, s, ws[..n + 1], ws[n + 1..]);
    assert ws[..n + 1] + ws[n + 1..] == ws;
    ApplySnoc(paths, s, ws[..n], ws[n]);
    assert ws[..n] + [ws[n]] == ws[..n + 1];
  }

  /** Logging `a` and then `b` is logging `a + b`. */
  lemma LogTwice(l0: seq<Write>, a: seq<Write>, b: seq<Write>, l1: seq<Write>, l2: seq<Write>)
    requires l1 == l0 + a && l2 == l1 + b
    ensures l2 == l0 + (a + b)
  {
    assert (l0 + a) + b == l0 + (a + b);
  }

  /** Sending `a` and then `b` is sending `a + b`. */
  lemma {:induction false} ApplyAppend(paths: map<Container, Field>, s: seq<Write>, a: seq<Write>, b: seq<Write>)
    ensures Apply(paths, s, a + b) == Apply(paths, Apply(paths, s, a), b)
    ensures AllAccepted(paths, s, a + b) <==> AllAccepted(paths, s, a) && AllAccepted(paths, Apply(paths, s, a), b)
    decreases |b|
  {
    if b == [] {
      assert a + b == a;
    } else {
      ApplyAppend(paths, s, a, b[..|b| - 1]);
      assert (a + b)[..|a + b| - 1] == a + b[..|b| - 1];
      assert (a + b)[|a + b| - 1] == b[|b| - 1];
    }
  }

  /**
   * What a store holds is consistent: every document sits in an existing
   * container under the value at that container's path, and no item is held
   * twice.
   */
  ghost predicate Consistent(paths: map<Container, Field>, stored: seq<Write>) {
    && (forall i :: 0 <= i < |stored| ==>
          stored[i].container in paths && stored[i].key == Value(stored[i].doc, paths[stored[i].container]))
    && (forall i, j :: 0 <= i < j < |stored| ==> !SameItem(stored[i], stored[j]))
  }

  /** The store's verdicts keep what it holds consistent, whatever it is sent. */
  lemma {:induction false} ApplyKeepsConsistent(paths: map<Container, Field>, s: seq<Write>, ws: seq<Write>)
    requires Consistent(paths, s)
    ensures Consistent(paths, Apply(paths, s, ws))
    decreases |ws|
  {
    if ws != [] {
      ApplyKeepsConsistent(paths, s, ws[..|ws| - 1]);
    }
  }

  /**
   * A first load: into a container that holds nothing yet, creates keyed by
   * the container's own path are all accepted when the ids are distinct.
   */
  lemma {:induction false} FirstLoadAccepted(paths: map<Container, Field>, s: seq<Write>, c: Container, items: seq<Doc>)
    requires c in paths
    requires forall i :: 0 <= i < |s| ==> s[i].container != c
    requires DistinctIds(items)
    ensures AllAccepted(paths, s, Writes(c, paths[c], items))
    ensures Apply(paths, s, Writes(c, paths[c], items)) == s + Writes(c, paths[c], items)
    decreases |items|
  {
    var ws := Writes(c, paths[c], items);
    if items != [] {
      var init := items[..|items| - 1];
      var w := WriteOf(c, paths[c], items[|items| - 1]);
      DistinctIdsPrefix(items, |items| - 1);
      var before := Writes(c, paths[c], init);
      FirstLoadAccepted(paths, s, c, init);
      NewIdNotHeld(s, c, paths[c], items);
      ApplySnoc(paths, s, before, w);
      assert ws == before + [w];
    }
    AllAcceptedIff(paths, s, ws);
  }

  /** The last of a list of distinct ids is not held by a store that has nothing in `c` but the creates for the others. */
  lemma NewIdNotHeld(s: seq<Write>, c: Container, f: Field, items: seq<Doc>)
    requires items != [] && DistinctIds(items)
    requires forall i :: 0 <= i < |s| ==> s[i].container != c
    ensures !Holds(s + Writes(c, f, items[..|items| - 1]), WriteOf(c, f, items[|items| - 1]))
  {
    var init := items[..|items| - 1];
    var before := Writes(c, f, init);
    forall i | 0 <= i < |s + before|
      ensures !SameItem((s + before)[i], WriteOf(c, f, items[|items| - 1]))
    {
      if i >= |s| {
        WritesAt(c, f, init, i - |s|);
        assert init[i - |s|] == items[i - |s|];
      }
    }
  }

  /** A create whose key is not the value at its container's path is refused, so such creates store nothing. */
  lemma {:induction false} OffPathCreatesStoreNothing(
    paths: map<Container, Field>, s: seq<Write>, c: Container, f: Field, items: seq<Doc>)
    requires c in paths
    requires forall i :: 0 <= i < |items| ==> Value(items[i], f) != Value(items[i], paths[c])
    ensures Apply(paths, s, Writes(c, f, items)) == s
    decreases |items|
  {
    if items != [] {
      var init := items[..|items| - 1];
      OffPathCreatesStoreNothing(paths, s, c, f, init);
      assert Writes(c, f, items)[..|items| - 1] == Writes(c, f, init);
    }
  }

  /**
   * Loading the same creates a second time fails: the store already holds the
   * first item, so a re-run has its first create refused.
   */
  lemma RerunRefused(paths: map<Container, Field>, s: seq<Write>, ws: seq<Write>)
    requires ws != [] && AllAccepted(paths, s, ws)
    ensures !AllAccepted(paths, Apply(paths, s, ws), ws)
  {
    AllAcceptedIff(paths, s, ws);
    var t := Apply(paths, s, ws);
    assert t[|s|] == ws[0];
    assert !Accepts(paths, t, ws[0]);
    ApplyAppend(paths, t, [ws[0]], ws[1..]);
    assert [ws[0]] + ws[1..] == ws;
    assert [ws[0]][..0] == [];
  }

  /** The container table after creating `c` with `path` unless a container of that name exists. */
  function WithContainer(paths: map<Container, Field>, c: Container, path: Field): map<Container, Field> {
    if c in paths then paths else paths[c := path]
  }

  class Store {
    /** The partition-key path of every container created so far. */
    var paths: map<Container, Field>
    /** The documents the store holds, in the order it accepted them. */
    var stored: seq<Write>
    /** Every create sent to the store, accepted or not. */
    var log: seq<Write>

    /** A database with no containers yet. */
    constructor ()
      ensures paths == map[] && stored == [] && log == []
    {
      paths := map[];
      stored := [];
      log := [];
    }

    /** Create a container unless one of that name exists; an existing container keeps its path. */
    method CreateContainer(c: Container, path: Field)
      modifies this
      ensures paths == WithContainer(old(paths), c, path)
      ensures stored == old(stored) && log == old(log)
    {
      if c !in paths {
        paths := paths[c := path];
      }
    }

    /** Send one create; the store keeps the document exactly when it accepts it. */
    method CreateItem(w: Write) returns (accepted: bool)
      modifies this
      ensures accepted == Accepts(old(paths), old(stored), w)
      ensures stored == if accepted then old(stored) + [w] else old(stored)
      ensures paths == old(paths) && log == old(log) + [w]
    {
      log := log + [w];
      accepted := Accepts(paths, stored, w);
      if accepted {
        stored := stored + [w];
      }
    }
  }

  /**
   * Send `w`, the i-th create of a load `ws` that began on `s0`: what the
   * store holds and whether every create so far was accepted advance by one
   * step.
   */
  method Send(store: Store, w: Write, ghost s0: seq<Write>, ghost ws: seq<Write>, ghost i: nat) returns (accepted: bool)
    requires i < |ws| && ws[i] == w && store.stored == Apply(store.paths, s0, ws[..i])
    modifies store
    ensures accepted == Accepts(old(store.paths), old(store.stored), w)
    ensures store.paths == old(store.paths) && store.log == old(store.log) + [w]
    ensures store.stored == if accepted then old(store.stored) + [w] else old(store.stored)
    ensures store.stored == Apply(store.paths, s0, ws[..i + 1])
    ensures AllAccepted(store.paths, s0, ws[..i + 1]) <==> AllAccepted(store.paths, s0, ws[..i]) && accepted
  {
    accepted := store.CreateItem(w);
    assert ws[..i + 1] == ws[..i] + [w];
    ApplySnoc(store.paths, s0, ws[..i], w);
  }

  /**
   * Send the create for item `i` of an item load into `c` keyed by `f`,
   * after the creates for the items before it.
   */
  method SendItem(store: Store, c: Container, f: Field, items: seq<Doc>, i: nat, ghost s0: seq<Write>, ghost log0: seq<Write>)
    returns (w: Write, accepted: bool)
    requires i < |items|
    requires store.stored == Apply(store.paths, s0, Writes(c, f, items)[..i])
    requires store.log == log0 + Writes(c, f, items)[..i]
    modifies store
    ensures w == WriteOf(c, f, items[i]) == Writes(c, f, items)[i]
    ensures accepted == Accepts(old(store.paths), old(store.stored), w)
    ensures store.paths == old(store.paths)
    ensures store.stored == if accepted then old(store.stored) + [w] else old(store.stored)
    ensures store.stored == Apply(store.paths, s0, Writes(c, f, items)[..i + 1])
    ensures store.log == log0 + Writes(c, f, items)[..i + 1]
    ensures AllAccepted(store.paths, s0, Writes(c, f, items)[..i + 1]) <==>
              AllAccepted(store.paths, s0, Writes(c, f, items)[..i]) && accepted
  {
    ghost var ws := Writes(c, f, items);
    WritesAt(c, f, items, i);
    w := WriteOf(c, f, items[i]);
    accepted := Send(store, w, s0, ws, i);
    assert ws[..i + 1] == ws[..i] + [w];
  }

  /**
   * The concurrent item load: a task array sized to the list, filled through
   * a running index, one create per item keyed by the item's property `f`.
   * Every create is sent before any is awaited; waiting for all of them then
   * fails when the store refused any.
   */
  method FanOut(store: Store, c: Container, f: Field, items: seq<Doc>) returns (tasks: array<Write>, failed: bool)
    modifies store
    ensures fresh(tasks) && tasks.Length == |items|
    ensures tasks[..] == Writes(c, f, items)
    ensures store.paths == old(store.paths)
    ensures store.log == old(store.log) + tasks[..]
    ensures store.stored == Apply(store.paths, old(store.stored), tasks[..])
    ensures failed <==> !AllAccepted(store.paths, old(store.stored), tasks[..])
  {
    ghost var s0 := store.stored;
    ghost var ws := Writes(c, f, items);
    tasks := new Write[|items|];
    failed := false;
    var taskCount := 0;
    while taskCount < |items|
      invariant 0 <= taskCount <= |items|
      invariant tasks[..taskCount] == ws[..taskCount]
      invariant store.paths == old(store.paths) && store.log == old(store.log) + ws[..taskCount]
      invariant store.stored == Apply(store.paths, s0, ws[..taskCount])
      invariant failed <==> !AllAccepted(store.paths, s0, ws[..taskCount])
    {
      var w, accepted := SendItem(store, c, f, items, taskCount, s0, old(store.log));
      tasks[taskCount] := w;
      assert tasks[..taskCount + 1] == ws[..taskCount + 1];
      failed := failed || !accepted;
      taskCount := taskCount + 1;
    }
    assert ws[..taskCount] == ws;
    assert tasks[..taskCount] == tasks[..];
  }

  /**
   * The one-at-a-time item load: each create is awaited before the next, and
   * the store takes the key from the container's path. A refused create
   * throws out of the loop, so no later item is sent; the counter holds the
   * creates accepted.
   */
  method CreateEach(store: Store, c: Container, items: seq<Doc>) returns (count: nat, failed: bool)
    requires c in store.paths
    modifies store
    ensures store.paths == old(store.paths)
    ensures count <= |items| && (failed <==> count < |items|)
    ensures failed <==> !AllAccepted(store.paths, old(store.stored), Writes(c, store.paths[c], items))
    ensures var ws := Writes(c, store.paths[c], items);
      && store.stored == old(store.stored) + ws[..count]
      && AllAccepted(store.paths, old(store.stored), ws[..count])
      && store.log == old(store.log) + ws[..if failed then count + 1 else count]
      && (failed ==> !Accepts(store.paths, store.stored, ws[count]))
  {
    var path := store.paths[c];
    ghost var s0 := store.stored;
    ghost var ws := Writes(c, path, items);
    count := 0;
    while count < |items|
      invariant 0 <= count <= |items|
      invariant store.paths == old(store.paths)
      invariant store.stored == Apply(store.paths, s0, ws[..count])
      invariant AllAccepted(store.paths, s0, ws[..count])
      invariant store.log == old(store.log) + ws[..count]
    {
      var w, accepted := SendItem(store, c, path, items, count, s0, old(store.log));
      if !accepted {
        AllAcceptedIff(store.paths, s0, ws[..count]);
        RefusalFailsLoad(store.paths, s0, ws, count);
        failed := true;
        return;
      }
      count := count + 1;
    }
    failed := false;
    assert ws[..|items|] == ws;
    AllAcceptedIff(store.paths, s0, ws);
  }

  /**
   * The helper that writes a customer list keyed by `id`. Its error counter is
   * never updated, so it reports zero errors when it returns; when the store
   * refused a create, waiting for the tasks throws and nothing is returned.
   */
  method WriteItems(store: Store, c: Container, docs: seq<Doc>) returns (errorCount: Option<int>)
    modifies store
    ensures store.paths == old(store.paths)
    ensures store.log == old(store.log) + Writes(c, Id, docs)
    ensures store.stored == Apply(store.paths, old(store.stored), Writes(c, Id, docs))
    ensures errorCount == if AllAccepted(store.paths, old(store.stored), Writes(c, Id, docs)) then Some(0) else None
  {
    var errorCtr := 0;
    var tasks, failed := FanOut(store, c, Id, docs);
    if failed {
      return None;
    }
    errorCount := Some(errorCtr);
  }
}
