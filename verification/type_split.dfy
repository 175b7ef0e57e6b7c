/**
 * The generation-4 customer fixture holds customers and sales orders in one
 * array, told apart only by their `type` property. The loaders split it into
 * a customer list and a sales-order list and drop every other element
 * without a signal.
 */
module TypeSplit {
  import opened Schema

  const CustomerType: string := "customer"
  const SalesOrderType: string := "salesOrder"

  /** The elements of `s` whose type is `t`, in source order. */
  function OfType(s: seq<Doc>, t: string): (r: seq<Doc>)
    ensures |r| <= |s|
  {
    if s == [] then []
    else OfType(s[..|s| - 1], t) + (if s[|s| - 1].kind == t then [s[|s| - 1]] else [])
  }

  predicate Routed(d: Doc) {
    d.kind == CustomerType || d.kind == SalesOrderType
  }

  /** The elements the split drops: neither a customer nor a sales order. */
  function Unrouted(s: seq<Doc>): (r: seq<Doc>)
    ensures |r| <= |s|
  {
    if s == [] then []
    else Unrouted(s[..|s| - 1]) + (if Routed(s[|s| - 1]) then [] else [s[|s| - 1]])
  }

  /** An element is in the list for `t` exactly when it is in the source with type `t`. */
  lemma {:induction false} OfTypeMember(s: seq<Doc>, t: string, d: Doc)
    ensures d in OfType(s, t) <==> d in s && d.kind == t
  {
    if s != [] {
      OfTypeMember(s[..|s| - 1], t, d);
      assert s == s[..|s| - 1] + [s[|s| - 1]];
    }
  }

  /** Every element of the list for `t` has type `t`. */
  lemma {:induction false} OfTypeAll(s: seq<Doc>, t: string)
    ensures forall k :: 0 <= k < |OfType(s, t)| ==> OfType(s, t)[k].kind == t
  {
    if s != [] {
      OfTypeAll(s[..|s| - 1], t);
    }
  }

  /** A dropped element is exactly a source element of any other type. */
  lemma {:induction false} UnroutedMember(s: seq<Doc>, d: Doc)
    ensures d in Unrouted(s) <==> d in s && d.kind != CustomerType && d.kind != SalesOrderType
  {
    if s != [] {
      UnroutedMember(s[..|s| - 1], d);
      assert s == s[..|s| - 1] + [s[|s| - 1]];
    }
  }

  /** Splitting keeps source order: the list for a concatenation is the concatenation of the lists. */
  lemma {:induction false} OfTypeAppend(a: seq<Doc>, b: seq<Doc>, t: string)
    ensures OfType(a + b, t) == OfType(a, t) + OfType(b, t)
  {
    if b == [] {
      assert a + b == a;
    } else {
      assert (a + b)[..|a + b| - 1] == a + b[..|b| - 1];
      OfTypeAppend(a, b[..|b| - 1], t);
    }
  }

  /**
   * The two lists and the dropped elements partition the source: every
   * element lands in exactly one of the three, as often as it occurs.
   */
  lemma {:induction false} SplitIsPartition(s: seq<Doc>)
    ensures multiset(OfType(s, CustomerType)) + multiset(OfType(s, SalesOrderType)) + multiset(Unrouted(s))
         == multiset(s)
    ensures |OfType(s, CustomerType)| + |OfType(s, SalesOrderType)| + |Unrouted(s)| == |s|
  {
    if s != [] {
      var init, last := s[..|s| - 1], s[|s| - 1];
      SplitIsPartition(init);
      SplitLast(s);
      assert s == init + [last];
      assert multiset(s) == multiset(init) + multiset{last};
    }
    var cs, os, us := OfType(s, CustomerType), OfType(s, SalesOrderType), Unrouted(s);
    assert |multiset(cs) + multiset(os) + multiset(us)| == |cs| + |os| + |us|;
  }

  /** The last element of the source joins exactly one of the three lists. */
  lemma SplitLast(s: seq<Doc>)
    requires s != []
    ensures var init, last := s[..|s| - 1], s[|s| - 1];
      multiset(OfType(s, CustomerType)) + multiset(OfType(s, SalesOrderType)) + multiset(Unrouted(s))
      == multiset(OfType(init, CustomerType)) + multiset(OfType(init, SalesOrderType)) + multiset(Unrouted(init))
         + multiset{last}
  {
    var init, last := s[..|s| - 1], s[|s| - 1];
    var cs, os, us := OfType(init, CustomerType), OfType(init, SalesOrderType), Unrouted(init);
    if last.kind == CustomerType {
      assert OfType(s, CustomerType) == cs + [last];
      assert OfType(s, SalesOrderType) == os;
      assert Unrouted(s) == us;
    } else if last.kind == SalesOrderType {
      assert OfType(s, CustomerType) == cs;
      assert OfType(s, SalesOrderType) == os + [last];
      assert Unrouted(s) == us;
    } else {
      assert OfType(s, CustomerType) == cs;
      assert OfType(s, SalesOrderType) == os;
      assert Unrouted(s) == us + [last];
    }
  }

  /**
   * The split of lines 985-1001 and 3067-3081: one pass over the source that
   * appends each customer to one list and each sales order to the other,
   * counting both; any other element is skipped.
   */
  method SplitByType(source: seq<Doc>)
    returns (customers: seq<Doc>, salesOrders: seq<Doc>, customerCount: nat, salesOrderCount: nat)
    ensures customers == OfType(source, CustomerType)
    ensures salesOrders == OfType(source, SalesOrderType)
    ensures customerCount == |customers| && salesOrderCount == |salesOrders|
    ensures customerCount + salesOrderCount + |Unrouted(source)| == |source|
  {
    customers, salesOrders := [], [];
    customerCount, salesOrderCount := 0, 0;
    var i := 0;
    while i < |source|
      invariant 0 <= i <= |source|
      invariant customers == OfType(source[..i], CustomerType)
      invariant salesOrders == OfType(source[..i], SalesOrderType)
      invariant customerCount == |customers| && salesOrderCount == |salesOrders|
    {
      var item := source[i];
      if item.kind == CustomerType {
        customers := customers + [item];
        customerCount := customerCount + 1;
      } else if item.kind == SalesOrderType {
        salesOrders := salesOrders + [item];
        salesOrderCount := salesOrderCount + 1;
      }
      assert source[..i + 1][..i] == source[..i];
      i := i + 1;
    }
    assert source[..|source|] == source;
    SplitIsPartition(source);
  }

  /** One customer, one sales order and one element of an unknown type. */
  lemma SplitScenario()
    ensures var c1 := Doc("C1", "C1", "", CustomerType, "");
      var s1 := Doc("S1", "C1", "", SalesOrderType, "");
      var x1 := Doc("X1", "", "", "bogus", "");
      var s := [c1, s1, x1];
      OfType(s, CustomerType) == [c1] && OfType(s, SalesOrderType) == [s1] && Unrouted(s) == [x1]
  {
    var c1 := Doc("C1", "C1", "", CustomerType, "");
    var s1 := Doc("S1", "C1", "", SalesOrderType, "");
    var x1 := Doc("X1", "", "", "bogus", "");
    var s := [c1, s1, x1];
    assert "bogus" != CustomerType && "bogus" != SalesOrderType by {
      assert "bogus"[0] != CustomerType[0] && "bogus"[0] != SalesOrderType[0];
    }
    assert CustomerType != SalesOrderType by {
      assert CustomerType[0] != SalesOrderType[0];
    }
    assert s[..2] == [c1, s1];
    assert s[..2][..1] == [c1];
    assert [c1][..0] == [];
    assert OfType([c1], CustomerType) == [c1];
    assert OfType([c1, s1], CustomerType) == [c1];
    assert OfType([c1], SalesOrderType) == [];
    assert OfType([c1, s1], SalesOrderType) == [s1];
    assert Unrouted([c1]) == [];
    assert Unrouted([c1, s1]) == [];
  }
}
