/**
 * The generation-4 loaders of the shared "customer" container, which holds
 * both customers and their sales orders, partitioned by "/customerId".
 */
module LoaderV4 {
  import opened Wrappers
  import opened Schema
  import opened Store
  import opened TypeSplit
  import opened BulkPrepare

  /** Customers are created before any sales order: no sales-order create precedes a customer create. */
  ghost predicate CustomersFirst(ws: seq<Write>) {
    forall i, j :: 0 <= i < |ws| && 0 <= j < |ws| && ws[i].doc.kind == CustomerType && ws[j].doc.kind == SalesOrderType
      ==> i < j
  }

  /**
   * The item load: create the container, split the fixture, send every
   * customer through one task array and wait for all of them, then every
   * sales order through a second one, both keyed by `customerId`. A refused
   * customer makes the first wait throw, so no sales order is sent. On
   * success it reports the fixture's full element count, dropped elements
   * included.
   */
  method LoadV4Customer(store: Store, source: seq<Doc>) returns (reported: Option<nat>)
    modifies store
    ensures store.paths == WithContainer(old(store.paths), Customer, CustomerId)
    ensures var cw := Writes(Customer, CustomerId, OfType(source, CustomerType));
      var ow := Writes(Customer, CustomerId, OfType(source, SalesOrderType));
      var sent := if AllAccepted(store.paths, old(store.stored), cw) then cw + ow else cw;
      && store.log == old(store.log) + sent
      && store.stored == Apply(store.paths, old(store.stored), sent)
      && (reported.Some? <==> AllAccepted(store.paths, old(store.stored), cw + ow))
      && (reported.Some? ==> reported.value == |source|)
  {
    store.CreateContainer(Customer, CustomerId);
    var customers, salesOrders, _, _ := SplitByType(source);
    ghost var s0, log0 := store.stored, store.log;
    var customerTasks, customersFailed := FanOut(store, Customer, CustomerId, customers);
    ApplyAppend(store.paths, s0, customerTasks[..], Writes(Customer, CustomerId, salesOrders));
    if customersFailed {
      return None;
    }
    ghost var log1 := store.log;
    var salesOrderTasks, salesOrdersFailed := FanOut(store, Customer, CustomerId, salesOrders);
    LogTwice(log0, customerTasks[..], salesOrderTasks[..], log1, store.log);
    if salesOrdersFailed {
      return None;
    }
    reported := Some(|source|);
  }

  /** The writes of the item load put every customer before every sales order. */
  lemma CustomerCreatesPrecedeSalesOrderCreates(f: Field, source: seq<Doc>)
    ensures CustomersFirst(Writes(Customer, f, OfType(source, CustomerType)) + Writes(Customer, f, OfType(source, SalesOrderType)))
  {
    var cs, os := OfType(source, CustomerType), OfType(source, SalesOrderType);
    var w1: seq<Write>, w2: seq<Write> := Writes(Customer, f, cs), Writes(Customer, f, os);
    OfTypeAll(source, CustomerType);
    OfTypeAll(source, SalesOrderType);
    assert CustomerType != SalesOrderType by {
      assert CustomerType[0] != SalesOrderType[0];
    }
    forall i | 0 <= i < |w1 + w2|
      ensures (w1 + w2)[i].doc.kind == (if i < |w1| then CustomerType else SalesOrderType)
    {
      if i < |w1| {
        WritesAt(Customer, f, cs, i);
      } else {
        WritesAt(Customer, f, os, i - |w1|);
      }
    }
  }

  /** Every create of the item load carries the value the container's path "/customerId" reads. */
  lemma V4ItemWritesMatchPath(source: seq<Doc>)
    ensures Layout(V4, ItemLoad, Customer).Some?
    ensures var e := Layout(V4, ItemLoad, Customer).value;
      forall w :: w in Writes(Customer, CustomerId, OfType(source, CustomerType))
                      + Writes(Customer, CustomerId, OfType(source, SalesOrderType))
        ==> w.key == Value(w.doc, e.path)
  {
    WritesMember(Customer, CustomerId, OfType(source, CustomerType));
    WritesMember(Customer, CustomerId, OfType(source, SalesOrderType));
  }

  /**
   * The item load writes at most as many documents as it reports, and exactly
   * as many only when no element was dropped.
   */
  lemma V4ItemReportCountsDropped(source: seq<Doc>)
    ensures |OfType(source, CustomerType)| + |OfType(source, SalesOrderType)| <= |source|
    ensures |OfType(source, CustomerType)| + |OfType(source, SalesOrderType)| == |source| <==> Unrouted(source) == []
  {
    SplitIsPartition(source);
  }

  /**
   * The bulk customer pass: create the container, split the fixture,
   * prepare the customers by `id` and stream them; reports the customer
   * count.
   */
  method BulkLoadV4Customer(store: Store, source: seq<Doc>) returns (outcome: Result<nat, DuplicateKey>)
    modifies store
    ensures store.paths == WithContainer(old(store.paths), Customer, CustomerId)
    ensures var cs := OfType(source, CustomerType);
      && (outcome.Success? <==> DistinctIds(cs))
      && (outcome.Success? ==>
            && outcome.value == |cs|
            && store.log == old(store.log) + Writes(Customer, Id, cs)
            && store.stored == Apply(store.paths, old(store.stored), Writes(Customer, Id, cs)))
      && (outcome.Failure? ==>
            IsFirstDuplicate(cs, outcome.error) && store.log == old(store.log) && store.stored == old(store.stored))
  {
    var customers, salesOrders, customerCount, salesOrderCount := SplitByType(source);
    var loaded := BulkLoadContainer(store, Customer, CustomerId, customers);
    if loaded.Failure? {
      return Failure(loaded.error);
    }
    outcome := Success(customerCount);
  }

  /** The count the bulk sales-order pass reports as written: the customer counter. */
  function SalesPassReportAsWritten(source: seq<Doc>): (r: nat)
    ensures r == |Writes(Customer, Id, OfType(source, CustomerType))|
  {
    var customerCount := |OfType(source, CustomerType)|;
    customerCount
  }

  /** One customer and two sales orders: the pass writes two documents and reports one. */
  lemma SalesPassReportMiscounts()
    ensures var src := [Doc("C1", "C1", "", CustomerType, ""), Doc("S1", "C1", "", SalesOrderType, ""),
                        Doc("S2", "C1", "", SalesOrderType, "")];
      SalesPassReportAsWritten(src) == 1 && |Writes(Customer, Id, OfType(src, SalesOrderType))| == 2
  {
    var c1 := Doc("C1", "C1", "", CustomerType, "");
    var s1 := Doc("S1", "C1", "", SalesOrderType, "");
    var s2 := Doc("S2", "C1", "", SalesOrderType, "");
    var src := [c1, s1, s2];
    assert CustomerType != SalesOrderType by {
      assert CustomerType[0] != SalesOrderType[0];
    }
    assert src[..2] == [c1, s1] && [c1, s1][..1] == [c1] && [c1][..0] == [];
    assert OfType([c1], CustomerType) == [c1];
    assert OfType([c1, s1], CustomerType) == [c1];
    assert OfType([c1], SalesOrderType) == [];
    assert OfType([c1, s1], SalesOrderType) == [s1];
    assert OfType(src, SalesOrderType) == [s1, s2];
  }

  /**
   * The bulk sales-order pass into the container the customer pass created:
   * split the same fixture again, prepare the sales orders by `id` and
   * stream them. It reports the number of sales orders it launched.
   */
  method BulkLoadV4SalesOrder(store: Store, source: seq<Doc>) returns (outcome: Result<nat, DuplicateKey>)
    modifies store
    ensures store.paths == old(store.paths)
    ensures var os := OfType(source, SalesOrderType);
      && (outcome.Success? <==> DistinctIds(os))
      && (outcome.Success? ==>
            && store.log == old(store.log) + Writes(Customer, Id, os)
            && store.stored == Apply(store.paths, old(store.stored), Writes(Customer, Id, os))
            && outcome.value == |os| == |store.log| - |old(store.log)|)
      && (outcome.Failure? ==>
            IsFirstDuplicate(os, outcome.error) && store.log == old(store.log) && store.stored == old(store.stored))
  {
    var customers, salesOrders, customerCount, salesOrderCount := SplitByType(source);
    var loaded := BulkInsert(store, Customer, salesOrders);
    if loaded.Failure? {
      return Failure(loaded.error);
    }
    outcome := Success(salesOrderCount);
  }

  /**
   * The bulk passes key by `id` into a container partitioned by
   * "/customerId": a sales order whose id is not its customer id is refused,
   * so when none has matching ids the sales-order pass stores nothing.
   */
  lemma BulkSalesOrdersStoreNothing(paths: map<Container, Field>, s: seq<Write>, source: seq<Doc>)
    requires Customer in paths && paths[Customer] == CustomerId
    requires forall d :: d in OfType(source, SalesOrderType) ==> d.id != d.customerId
    ensures Apply(paths, s, Writes(Customer, Id, OfType(source, SalesOrderType))) == s
  {
    var os := OfType(source, SalesOrderType);
    assert forall i :: 0 <= i < |os| ==> Value(os[i], Id) != Value(os[i], paths[Customer]) by {
      forall i | 0 <= i < |os|
        ensures Value(os[i], Id) != Value(os[i], paths[Customer])
      {
        assert os[i] in os;
      }
    }
    OffPathCreatesStoreNothing(paths, s, Customer, Id, os);
  }
}
