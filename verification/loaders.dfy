/**
 * One container load of any database loader: create the container with the
 * path its layout entry declares, then write the fixture the way the entry
 * says. Item loads send every item through a task array (`Store.FanOut`)
 * or one at a time (`Store.CreateEach`); bulk loads prepare a dictionary
 * by `id` and stream it (`BulkPrepare.BulkLoadContainer`); the v4
 * "customer" container takes both customers and sales orders from one
 * fixture (`LoaderV4`).
 */
module Loaders {
  import opened Wrappers
  import opened Schema
  import opened Store
  import opened TypeSplit
  import opened BulkPrepare
  import opened LoaderV4

  /** Every write goes to `c`, for one of `items`, keyed by that document's value at `f`. */
  ghost predicate KeyedBy(sent: seq<Write>, c: Container, f: Field, items: seq<Doc>) {
    forall w :: w in sent ==> w.container == c && w.doc in items && w.key == Value(w.doc, f)
  }

  lemma WritesKeyedBy(c: Container, f: Field, items: seq<Doc>, n: nat)
    requires n <= |items|
    ensures KeyedBy(Writes(c, f, items)[..n], c, f, items)
  {
    WritesMember(c, f, items);
    forall w | w in Writes(c, f, items)[..n]
      ensures w in Writes(c, f, items)
    {
    }
  }

  lemma KeyedByAppend(a: seq<Write>, b: seq<Write>, c: Container, f: Field, items: seq<Doc>)
    requires KeyedBy(a, c, f, items) && KeyedBy(b, c, f, items)
    ensures KeyedBy(a + b, c, f, items)
  {
  }

  /** The writes of the v4 customer container's two lists are keyed by `f` and are no more than the fixture. */
  lemma V4WritesKeyedBy(f: Field, source: seq<Doc>)
    ensures var cw := Writes(Customer, f, OfType(source, CustomerType));
      var ow := Writes(Customer, f, OfType(source, SalesOrderType));
      && KeyedBy(cw, Customer, f, source) && KeyedBy(ow, Customer, f, source)
      && KeyedBy(cw + ow, Customer, f, source)
      && |cw| + |ow| <= |source|
  {
    var cs, os := OfType(source, CustomerType), OfType(source, SalesOrderType);
    WritesMember(Customer, f, cs);
    WritesMember(Customer, f, os);
    forall d | d in cs
      ensures d in source
    {
      OfTypeMember(source, CustomerType, d);
    }
    forall d | d in os
      ensures d in source
    {
      OfTypeMember(source, SalesOrderType, d);
    }
    V4ItemReportCountsDropped(source);
  }

  /** Two loads in a row leave the store as one load of both lists would. */
  lemma ApplyTwice(paths: map<Container, Field>, s0: seq<Write>, a: seq<Write>, b: seq<Write>, s1: seq<Write>, s2: seq<Write>)
    requires s1 == Apply(paths, s0, a) && s2 == Apply(paths, s1, b)
    ensures s2 == Apply(paths, s0, a + b)
  {
    ApplyAppend(paths, s0, a, b);
  }

  /** Whichever of the two v4 bulk passes get past their prepare step, what they send is keyed by `id`. */
  lemma BulkPassesKeyedBy(source: seq<Doc>, cw: seq<Write>, ow: seq<Write>)
    requires cw == [] || cw == Writes(Customer, Id, OfType(source, CustomerType))
    requires ow == [] || ow == Writes(Customer, Id, OfType(source, SalesOrderType))
    ensures |cw + ow| <= |source| && KeyedBy(cw + ow, Customer, Id, source)
  {
    V4WritesKeyedBy(Id, source);
    KeyedByAppend(cw, ow, Customer, Id, source);
  }

  /**
   * A container load. The store ends with the container's path as the
   * layout declares it (or as it was, when the container existed), the
   * creates sent are logged, and the store keeps those it accepts. Every
   * create goes to the container, for a fixture document, and no more
   * creates are sent than there are documents. An item load keys every
   * create by the value the container's path reads; a bulk load keys
   * every create by `id`; a container that is only created gets no write.
   */
  method LoadContainer(store: Store, v: Version, m: Mode, c: Container, items: seq<Doc>) returns (sent: seq<Write>)
    requires Layout(v, m, c).Some?
    modifies store
    ensures var e := Layout(v, m, c).value;
      && store.paths == WithContainer(old(store.paths), c, e.path)
      && store.log == old(store.log) + sent
      && store.stored == Apply(store.paths, old(store.stored), sent)
      && |sent| <= |items|
      && (e.key.NoWrites? ==> sent == [])
      && (m == ItemLoad && store.paths[c] == e.path ==> KeyedBy(sent, c, store.paths[c], items))
      && (m == BulkLoad ==> KeyedBy(sent, c, Id, items))
  {
    var e := Layout(v, m, c).value;
    if e.key.NoWrites? {
      store.CreateContainer(c, e.path);
      return [];
    }
    if v == V4 && c == Customer {
      sent := LoadV4CustomerContainer(store, m, items);
    } else if m == BulkLoad {
      sent := LoadBulk(store, c, e.path, items);
    } else {
      ItemLoadKeysMatchPaths(v, c);
      store.CreateContainer(c, e.path);
      sent := LoadItems(store, c, e.key, items);
    }
  }

  /** A bulk container load, reduced to the creates it sends: every item keyed by `id`, or none. */
  method LoadBulk(store: Store, c: Container, path: Field, items: seq<Doc>) returns (sent: seq<Write>)
    modifies store
    ensures store.paths == WithContainer(old(store.paths), c, path)
    ensures store.log == old(store.log) + sent
    ensures store.stored == Apply(store.paths, old(store.stored), sent)
    ensures |sent| <= |items|
    ensures KeyedBy(sent, c, Id, items)
  {
    var loaded := BulkLoadContainer(store, c, path, items);
    sent := if loaded.Success? then Writes(c, Id, items) else [];
    if loaded.Failure? {
      assert Apply(store.paths, old(store.stored), []) == old(store.stored);
    }
    WritesKeyedBy(c, Id, items, |items|);
    assert Writes(c, Id, items)[..|items|] == Writes(c, Id, items);
  }

  /**
   * The item load of a container that exists: a task array for a key the
   * loader names, one create at a time for a key taken from the path.
   */
  method LoadItems(store: Store, c: Container, key: KeySource, items: seq<Doc>) returns (sent: seq<Write>)
    requires c in store.paths && !key.NoWrites?
    modifies store
    ensures store.paths == old(store.paths)
    ensures store.log == old(store.log) + sent
    ensures store.stored == Apply(store.paths, old(store.stored), sent)
    ensures |sent| <= |items|
    ensures KeyedBy(sent, c, if key.Explicit? then key.field else store.paths[c], items)
  {
    if key.Explicit? {
      var tasks, _ := FanOut(store, c, key.field, items);
      sent := tasks[..];
      WritesKeyedBy(c, key.field, items, |items|);
      assert Writes(c, key.field, items)[..|items|] == Writes(c, key.field, items);
    } else {
      sent := LoadOneAtATime(store, c, items);
    }
  }

  /** The one-at-a-time item load, reduced to the creates it sends: a prefix of the list's creates, keyed by the path. */
  method LoadOneAtATime(store: Store, c: Container, items: seq<Doc>) returns (sent: seq<Write>)
    requires c in store.paths
    modifies store
    ensures store.paths == old(store.paths)
    ensures store.log == old(store.log) + sent
    ensures store.stored == Apply(store.paths, old(store.stored), sent)
    ensures sent <= Writes(c, store.paths[c], items)
    ensures KeyedBy(sent, c, store.paths[c], items)
  {
    ghost var s0 := store.stored;
    var count, failed := CreateEach(store, c, items);
    var ws := Writes(c, store.paths[c], items);
    sent := ws[..if failed then count + 1 else count];
    AllAcceptedIff(store.paths, s0, ws[..count]);
    if failed {
      ApplySnoc(store.paths, s0, ws[..count], ws[count]);
      assert ws[..count] + [ws[count]] == sent;
    }
    WritesKeyedBy(c, store.paths[c], items, |sent|);
  }

  /**
   * The v4 "customer" container: the item load, or the bulk customer pass
   * followed by the bulk sales-order pass.
   */
  method LoadV4CustomerContainer(store: Store, m: Mode, items: seq<Doc>) returns (sent: seq<Write>)
    modifies store
    ensures store.paths == WithContainer(old(store.paths), Customer, CustomerId)
    ensures store.log == old(store.log) + sent
    ensures store.stored == Apply(store.paths, old(store.stored), sent)
    ensures |sent| <= |items|
    ensures m == ItemLoad ==> KeyedBy(sent, Customer, CustomerId, items)
    ensures m == BulkLoad ==> KeyedBy(sent, Customer, Id, items)
  {
    if m == ItemLoad {
      sent := LoadV4CustomerItems(store, items);
    } else {
      sent := LoadV4CustomerBulk(store, items);
    }
  }

  /** The v4 item load, reduced to the creates it sends. */
  method LoadV4CustomerItems(store: Store, items: seq<Doc>) returns (sent: seq<Write>)
    modifies store
    ensures store.paths == WithContainer(old(store.paths), Customer, CustomerId)
    ensures store.log == old(store.log) + sent
    ensures store.stored == Apply(store.paths, old(store.stored), sent)
    ensures |sent| <= |items|
    ensures KeyedBy(sent, Customer, CustomerId, items)
  {
    var log0 := store.log;
    var _ := LoadV4Customer(store, items);
    ghost var cw := Writes(Customer, CustomerId, OfType(items, CustomerType));
    ghost var ow := Writes(Customer, CustomerId, OfType(items, SalesOrderType));
    sent := store.log[|log0|..];
    assert sent == cw + ow || sent == cw;
    V4WritesKeyedBy(CustomerId, items);
  }

  /**
   * The two v4 bulk passes into "customer". The loader starts them side by
   * side and the sales-order pass sleeps three seconds first, so that the
   * customer pass has created the container; the model runs them in that
   * intended order.
   */
  method LoadV4CustomerBulk(store: Store, items: seq<Doc>) returns (sent: seq<Write>)
    modifies store
    ensures store.paths == WithContainer(old(store.paths), Customer, CustomerId)
    ensures store.log == old(store.log) + sent
    ensures store.stored == Apply(store.paths, old(store.stored), sent)
    ensures |sent| <= |items|
    ensures KeyedBy(sent, Customer, Id, items)
  {
    ghost var s0, log0 := store.stored, store.log;
    var cw := CustomerPass(store, items);
    ghost var s1, log1 := store.stored, store.log;
    var ow := SalesOrderPass(store, items);
    sent := cw + ow;
    LogTwice(log0, cw, ow, log1, store.log);
    ApplyTwice(store.paths, s0, cw, ow, s1, store.stored);
    BulkPassesKeyedBy(items, cw, ow);
  }

  /** The bulk customer pass, reduced to the creates it sends: all the customers, or none. */
  method CustomerPass(store: Store, items: seq<Doc>) returns (cw: seq<Write>)
    modifies store
    ensures store.paths == WithContainer(old(store.paths), Customer, CustomerId)
    ensures store.log == old(store.log) + cw
    ensures store.stored == Apply(store.paths, old(store.stored), cw)
    ensures cw == [] || cw == Writes(Customer, Id, OfType(items, CustomerType))
  {
    var customers := BulkLoadV4Customer(store, items);
    cw := if customers.Success? then Writes(Customer, Id, OfType(items, CustomerType)) else [];
    if customers.Failure? {
      assert Apply(store.paths, old(store.stored), []) == old(store.stored);
    }
  }

  /** The bulk sales-order pass, reduced to the creates it sends: all the sales orders, or none. */
  method SalesOrderPass(store: Store, items: seq<Doc>) returns (ow: seq<Write>)
    modifies store
    ensures store.paths == old(store.paths)
    ensures store.log == old(store.log) + ow
    ensures store.stored == Apply(store.paths, old(store.stored), ow)
    ensures ow == [] || ow == Writes(Customer, Id, OfType(items, SalesOrderType))
  {
    var salesOrders := BulkLoadV4SalesOrder(store, items);
    ow := if salesOrders.Success? then Writes(Customer, Id, OfType(items, SalesOrderType)) else [];
    if salesOrders.Failure? {
      assert Apply(store.paths, old(store.stored), []) == old(store.stored);
    }
  }
}
