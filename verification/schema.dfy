/**
 * The four database generations of the data loader: which containers each
 * loader creates, the partition-key path each container declares, and the
 * document property each loader passes as the partition key of a write.
 */
module Schema {
  import opened Wrappers

  datatype Version = V1 | V2 | V3 | V4

  /** Item loads write one document per call; bulk loads stream a prepared dictionary. */
  datatype Mode = ItemLoad | BulkLoad

  datatype Container =
    | Customer | CustomerAddress | CustomerPassword
    | Product | ProductCategory | ProductTag | ProductTags | ProductMeta
    | SalesOrder | SalesOrderDetail | SalesByCategory

  /** The document properties that a partition-key path can name. */
  datatype Field = Id | CustomerId | CategoryId | Type | Hash

  /**
   * A fixture record after parsing, reduced to the properties that decide
   * routing and partitioning. `kind` is the JSON property `type`; a property
   * the JSON lacks reads as "".
   */
  datatype Doc = Doc(id: string, customerId: string, categoryId: string, kind: string, hash: string)

  function Value(d: Doc, f: Field): string {
    match f
    case Id => d.id
    case CustomerId => d.customerId
    case CategoryId => d.categoryId
    case Type => d.kind
    case Hash => d.hash
  }

  /** No two of the first `n` documents share an `id`. */
  ghost predicate DistinctPrefix(items: seq<Doc>, n: nat)
    requires n <= |items|
  {
    forall a, b :: 0 <= a < b < n ==> items[a].id != items[b].id
  }

  ghost predicate DistinctIds(items: seq<Doc>) {
    DistinctPrefix(items, |items|)
  }

  /** A prefix of a list with distinct ids has distinct ids. */
  lemma DistinctIdsPrefix(items: seq<Doc>, n: nat)
    requires n <= |items| && DistinctIds(items)
    ensures DistinctIds(items[..n])
  {
    forall a, b | 0 <= a < b < n
      ensures items[..n][a].id != items[..n][b].id
    {
      assert items[..n][a] == items[a] && items[..n][b] == items[b];
    }
  }

  /**
   * Where the partition key of a write comes from: a property the loader
   * names itself (`new PartitionKey(item.f)`), the container's own path (a
   * create without an explicit key), or nowhere, for a container the loader
   * only creates.
   */
  datatype KeySource = Explicit(field: Field) | FromPath | NoWrites

  datatype Entry = Entry(path: Field, key: KeySource)

  /** The property whose value a write carries as its partition key. */
  function KeyField(e: Entry): Field {
    if e.key.Explicit? then e.key.field else e.path
  }

  predicate KeyMatchesPath(e: Entry) {
    KeyField(e) == e.path
  }

  /** The layout each loader gives each container; None where the loader does not touch it. */
  function Layout(v: Version, m: Mode, c: Container): (r: Option<Entry>)
    ensures r.Some? && m == ItemLoad ==> KeyMatchesPath(r.value)
    ensures r.Some? && m == BulkLoad ==> r.value.key == Explicit(Id) || r.value.key == NoWrites
  {
    match m
    case ItemLoad =>
      (match v
       case V1 =>
         (match c
          case Customer => Some(Entry(Id, Explicit(Id)))
          case CustomerAddress => Some(Entry(Id, Explicit(Id)))
          case CustomerPassword => Some(Entry(Hash, Explicit(Hash)))
          case Product => Some(Entry(Id, FromPath))
          case ProductCategory => Some(Entry(Id, FromPath))
          case ProductTag => Some(Entry(Id, FromPath))
          case ProductTags => Some(Entry(Id, FromPath))
          case SalesOrder => Some(Entry(Id, Explicit(Id)))
          case SalesOrderDetail => Some(Entry(Id, Explicit(Id)))
          case _ => None)
       case V2 => ItemLayoutV2V3(c)
       case V3 => ItemLayoutV2V3(c)
       case V4 =>
         (match c
          case Customer => Some(Entry(CustomerId, Explicit(CustomerId)))
          case Product => Some(Entry(CategoryId, FromPath))
          case ProductMeta => Some(Entry(Type, FromPath))
          case SalesByCategory => Some(Entry(CategoryId, NoWrites))
          case _ => None))
    case BulkLoad =>
      (match v
       case V1 =>
         (match c
          case Customer | CustomerAddress | CustomerPassword | Product | ProductCategory
             | ProductTag | ProductTags | SalesOrder | SalesOrderDetail => Some(Entry(Id, Explicit(Id)))
          case _ => None)
       case V2 => BulkLayoutV2V3(c)
       case V3 => BulkLayoutV2V3(c)
       case V4 =>
         (match c
          case Customer => Some(Entry(CustomerId, Explicit(Id)))
          case Product => Some(Entry(CategoryId, Explicit(Id)))
          case ProductMeta => Some(Entry(Type, Explicit(Id)))
          case SalesByCategory => Some(Entry(CategoryId, NoWrites))
          case _ => None))
  }

  function ItemLayoutV2V3(c: Container): Option<Entry> {
    match c
    case Customer => Some(Entry(Id, Explicit(Id)))
    case Product => Some(Entry(CategoryId, FromPath))
    case ProductCategory => Some(Entry(Type, FromPath))
    case ProductTag => Some(Entry(Type, FromPath))
    case SalesOrder => Some(Entry(CustomerId, Explicit(CustomerId)))
    case _ => None
  }

  function BulkLayoutV2V3(c: Container): Option<Entry> {
    match c
    case Customer => Some(Entry(Id, Explicit(Id)))
    case Product => Some(Entry(CategoryId, Explicit(Id)))
    case ProductCategory => Some(Entry(Type, Explicit(Id)))
    case ProductTag => Some(Entry(Type, Explicit(Id)))
    case SalesOrder => Some(Entry(CustomerId, Explicit(Id)))
    case _ => None
  }

  /** The containers each database loader sets up, in the order it starts their loads. */
  function Containers(v: Version, m: Mode): (r: seq<Container>)
    ensures forall i, j :: 0 <= i < j < |r| ==> r[i] != r[j]
  {
    match (v, m)
    case (V1, _) =>
      [Customer, CustomerAddress, CustomerPassword, Product, ProductCategory, ProductTag, ProductTags,
       SalesOrder, SalesOrderDetail]
    case (V2, _) => [Customer, Product, ProductCategory, ProductTag, SalesOrder]
    case (V3, _) => [Customer, Product, ProductCategory, ProductTag, SalesOrder]
    case (V4, _) => [Customer, Product, ProductMeta, SalesByCategory]
  }

  /** A container is set up by a loader exactly when the layout table has an entry for it. */
  lemma ContainersAreLaidOut(v: Version, m: Mode, c: Container)
    ensures c in Containers(v, m) <==> Layout(v, m, c).Some?
  {
  }

  /** Every item loader passes, as the partition key, the property its container's path names. */
  lemma ItemLoadKeysMatchPaths(v: Version, c: Container)
    ensures Layout(v, ItemLoad, c).Some? ==> KeyMatchesPath(Layout(v, ItemLoad, c).value)
  {
  }

  /**
   * Every bulk loader keys its writes by `id`, whatever its container's path,
   * so its key matches the path exactly when the path is "/id".
   */
  lemma BulkLoadKeysById(v: Version, c: Container)
    requires Layout(v, BulkLoad, c).Some?
    ensures var e := Layout(v, BulkLoad, c).value;
      (e.key == Explicit(Id) || e.key == NoWrites) &&
      (e.key.Explicit? ==> (KeyMatchesPath(e) <==> e.path == Id))
  {
  }

  /** Generations 2 and 3 differ only in their fixture folder, not in layout. */
  lemma GenerationsTwoAndThreeShareLayout(m: Mode, c: Container)
    ensures Layout(V2, m, c) == Layout(V3, m, c)
  {
  }

  /**
   * A layout's key matches its path exactly when every document's key value
   * is the value the store reads at the path.
   */
  lemma KeyMatchesPathIff(e: Entry)
    ensures KeyMatchesPath(e) <==> forall d: Doc :: Value(d, KeyField(e)) == Value(d, e.path)
  {
    if !KeyMatchesPath(e) {
      var d := Doc("i", "c", "g", "t", "h");
      assert Value(d, KeyField(e)) != Value(d, e.path) by {
        match KeyField(e)
        case Id =>
        case CustomerId =>
        case CategoryId =>
        case Type =>
        case Hash =>
      }
    }
  }
}
