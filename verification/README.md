# AdventureWorks data loader: a Dafny model

This project models the data preparation inside the AdventureWorks bulk data loader. The loader is a console tool that fills four generations (v1 to v4) of a document database with fixture data. The model covers seven parts of the loader:

- **Layout table.** Each loader creates a set of containers. Each container declares a partition-key path, and the loader passes some document property as the partition key of every write. The model states this as a table from (version, mode, container) to (path, key source).
- **Item-load fan-out.** A task array is sized to the source list and filled through a running index, with one create per item; the loader then waits for all of them. Some containers use the one-at-a-time variant, where each create is awaited before the next.
- **Prepare items.** The bulk loaders add every item to a dictionary keyed by `id`, then stream one create per entry. A repeated `id` makes `Add` throw. The loader's catch absorbs the exception, so nothing is sent to that container.
- **V4 type split.** The generation-4 customer fixture mixes customers and sales orders. Its `type` property decides which list an element joins. Elements of any other type are dropped without a signal.
- **V4 loaders.** These are the item load of the shared "customer" container and the two bulk passes into it.
- **Container loads.** `Loaders.LoadContainer` runs one container load of any loader, as its layout entry says.
- **Menu loop.** Keys `a` to `h` start one of eight loaders and `x` exits.

The document store is a class with three fields:

- the partition-key path of each container it has;
- the documents it holds;
- the log of every create it was sent.

A create is a (container, partition key, document) triple. The model's store accepts a create when three things hold:

- the container exists;
- the key equals the document's value at the container's path;
- the store does not already hold a document with that `id` under that key in that container.

Otherwise it refuses the create, and the document is not stored. These are the only refusals the model's store makes (see "## Left out"). A refused item create throws when the loader awaits it. A refused stream create only has its status logged.

Fixture records arrive already parsed, as `Schema.Doc` values. A `Doc` keeps only the properties that decide routing and partitioning.

Some facts about the code and the store:

- Generations 2 and 3 partition the customer container on "/id" (data-loader/Program.cs:573, 772, 2014, 2519).
- In v1, the item load of `customerPassword` declares "/hash" and keys by `hash` (data-loader/Program.cs:252, 268). The bulk load of the same container declares "/id" and keys by `id`.
- The bulk loaders key every write by `id`, even where the container's path is "/customerId", "/categoryId" or "/type".
  - The store refuses a create whose partition key differs from the document's value at the container's path.
  - `Schema.BulkLoadKeysById` proves that a bulk key matches its path exactly when the path is "/id".
  - `Store.OffPathCreatesStoreNothing` and `LoaderV4.BulkSalesOrdersStoreNothing` prove that such creates store nothing unless a document's `id` equals its value at the path.
  - The loader only logs these refusals, so the model keeps the code as written.

Modules:

- `Wrappers`: Option and Result.
- `Schema`: versions, containers, fields and the layout table.
- `Store`: the store and the item-load loops.
- `TypeSplit`, `BulkPrepare` and `LoaderV4`: as described above.
- `Loaders`: one container load of any loader.
- `Menu`: the menu loop.

## Model

| member | source | states |
|---|---|---|
| Schema.Layout | data-loader/Program.cs:172-3392 | every item loader's key field is the field its container's path names; every bulk loader keys by `id` or does not write |
| Schema.Containers | data-loader/Program.cs:139-149 | the containers a database loader loads are listed without repetition |
| Schema.ContainersAreLaidOut | data-loader/Program.cs:139-147 | a container is among those a loader sets up exactly when the layout table has an entry for it under that version and mode |
| Schema.ItemLoadKeysMatchPaths | data-loader/Program.cs:676-699 | every item loader passes the property its container's path names as the partition key (v2/v3 salesOrder and v4 customer pass `customerId` for "/customerId") |
| Schema.BulkLoadKeysById | data-loader/Program.cs:2369-2417 | every bulk loader keys by `id` whatever the container's path, so its key matches the path if and only if the path is "/id" |
| Schema.GenerationsTwoAndThreeShareLayout | data-loader/Program.cs:768-912 | generations 2 and 3 declare the same paths and keys for every container, in both modes |
| Schema.KeyMatchesPathIff | data-loader/Program.cs:967-1027 | a layout's key field equals its path field if and only if every document's key value is the value at the path |
| Store.Writes | data-loader/Program.cs:187-195 | there are exactly as many creates for a list as it has items |
| Store.WritesAt | data-loader/Program.cs:187-195 | the i-th create is for the i-th item, with that item's key: one create per item, in list order |
| Store.WritesMember | data-loader/Program.cs:691-697 | every create goes to the given container, for an item of the list, keyed by that item's value at the given field |
| Store.Apply | data-loader/Program.cs:187-195 | a run of creates keeps every stored document where it was and adds at most one document per create |
| Store.AllAcceptedIff | data-loader/Program.cs:191-195 | every create of a run is accepted if and only if the store ends holding what it held plus all of them, in order |
| Store.RefusalFailsLoad | data-loader/Program.cs:312-318 | one refused create is enough for a load not to be all accepted |
| Store.ApplyAppend | data-loader/Program.cs:1003-1023 | sending one list and then another leaves the store as sending both at once would; both are accepted if and only if each is, in turn |
| Store.ApplyKeepsConsistent | data-loader/Program.cs:176-195 | from a consistent store, whatever is sent, every stored document stays in an existing container, keyed by its value at that container's path, and no item is stored twice |
| Store.FirstLoadAccepted | data-loader/Program.cs:172-195 | the first load of a container, by its own path and with distinct ids, has every create accepted and stores every item in order |
| Store.OffPathCreatesStoreNothing | data-loader/Program.cs:2098-2186 | creates keyed by a field whose value differs from the value at the container's path are all refused |
| Store.RerunRefused | data-loader/Program.cs:176-195 | running an accepted load a second time has a create refused: the container already holds those items |
| Store.Store.CreateContainer | data-loader/Program.cs:176 | a new container gets the declared path; an existing container keeps its path; no document changes |
| Store.Store.CreateItem | data-loader/Program.cs:191-192 | a create is logged; it is stored exactly when the store accepts it |
| Store.FanOut | data-loader/Program.cs:187-195 | the task array has one slot per item, filled with that item's create in order; the log grows by exactly those creates; the store keeps those it accepts; the wait fails if and only if one is refused |
| Store.CreateEach | data-loader/Program.cs:312-318 | the one-at-a-time load sends creates keyed by the container path, in order, up to and including the first refused one; the counter holds the creates accepted; it fails if and only if the whole list is not accepted |
| Store.WriteItems | data-loader/Program.cs:3397-3413 | the helper sends one `id`-keyed create per document; it returns 0 errors when every create is accepted, and nothing (it throws) otherwise |
| TypeSplit.OfType | data-loader/Program.cs:3067-3081 | a typed list is never longer than the source |
| TypeSplit.Unrouted | data-loader/Program.cs:3070-3080 | the dropped elements are never more than the source |
| TypeSplit.OfTypeMember | data-loader/Program.cs:3067-3081 | an element is in the list for a type if and only if it is in the source with that type |
| TypeSplit.OfTypeAll | data-loader/Program.cs:985-1001 | every element of the list for a type has that type |
| TypeSplit.UnroutedMember | data-loader/Program.cs:3070-3080 | an element is dropped if and only if it is in the source with a type other than "customer" and "salesOrder" |
| TypeSplit.OfTypeAppend | data-loader/Program.cs:3067-3081 | the split keeps source order: the list for a concatenation is the concatenation of the lists |
| TypeSplit.SplitIsPartition | data-loader/Program.cs:3057-3081 | customers, sales orders and dropped elements together are the source as a multiset, and their lengths sum to the source count |
| TypeSplit.SplitByType | data-loader/Program.cs:3057-3081 | the loop yields the customer list and the sales-order list in source order, with counters equal to their lengths; the counters plus the dropped elements equal the source count |
| TypeSplit.SplitScenario | data-loader/Program.cs:985-1001 | for a customer, a sales order and a "bogus" element, the split gives one customer and one sales order and drops the third element |
| BulkPrepare.PrepareItems | data-loader/Program.cs:1188-1195 | the dictionary build succeeds if and only if the ids are distinct; it then has one entry per item under its `id`, in list order; otherwise it stops at the first repeated id |
| BulkPrepare.PreparedDuplicate | data-loader/Program.cs:1194 | when `Add` meets an id already in the dictionary, the current item is the first duplicate and the ids are not distinct |
| BulkPrepare.LaunchAll | data-loader/Program.cs:1200-1218 | one stream create is sent per dictionary entry, in enumeration order, and each is kept in the task list; the store keeps those it accepts |
| BulkPrepare.LaunchesArePreparedWrites | data-loader/Program.cs:1189-1215 | a dictionary prepared from a list launches exactly the `id`-keyed creates for that list, in list order |
| BulkPrepare.BulkInsert | data-loader/Program.cs:1188-1218 | with distinct ids, every item is sent once keyed by `id` and the source count is reported; with a repeated id nothing is sent and the first duplicate is reported |
| BulkPrepare.BulkLoadContainer | data-loader/Program.cs:1146-1233 | the container gets its path unless it exists; then the load sends and reports as `BulkInsert` does |
| BulkPrepare.DuplicateIdIsFirstDuplicate | data-loader/Program.cs:1228-1232 | two items with one id are not distinct, and the second is the first duplicate |
| LoaderV4.LoadV4Customer | data-loader/Program.cs:967-1027 | the v4 item load sends every customer, keyed by `customerId`; only if all are accepted does it send every sales order; it reports the full source count exactly when every create is accepted |
| LoaderV4.CustomerCreatesPrecedeSalesOrderCreates | data-loader/Program.cs:1003-1023 | in the v4 item load's creates, every customer comes before every sales order |
| LoaderV4.V4ItemWritesMatchPath | data-loader/Program.cs:971-1020 | every create of the v4 item load carries the value that the container's "/customerId" path reads |
| LoaderV4.V4ItemReportCountsDropped | data-loader/Program.cs:975-1026 | the v4 item load writes at most the count it reports, and exactly that many only when no element is dropped |
| LoaderV4.BulkLoadV4Customer | data-loader/Program.cs:3019-3128 | the bulk customer pass streams the customers keyed by `id` and reports their count; with a repeated customer id it sends nothing |
| LoaderV4.SalesPassReportAsWritten | data-loader/Program.cs:3199 | the count the sales-order pass prints is the number of customer elements in the fixture, which is what the customer pass launches when their ids are distinct |
| LoaderV4.SalesPassReportMiscounts | data-loader/Program.cs:3141-3199 | as written, the sales-order pass reports the customer counter: one customer and two sales orders report 1 while 2 are sent |
| LoaderV4.BulkLoadV4SalesOrder | data-loader/Program.cs:3130-3212 | the bulk sales-order pass streams the sales orders into the customer container keyed by `id` and reports the number of creates it launched |
| LoaderV4.BulkSalesOrdersStoreNothing | data-loader/Program.cs:3130-3212 | in a customer container on "/customerId", the sales-order pass stores nothing when no sales order's `id` equals its `customerId` |
| Loaders.LoadContainer | data-loader/Program.cs:172-3392 | a container load gives the container its declared path unless it exists, logs what it sends and stores what is accepted, and sends no more creates than there are documents; an item load into a container holding its declared path keys every create by the value that path reads; a bulk load keys every create by `id`; a create-only container gets none |
| Loaders.LoadBulk | data-loader/Program.cs:1146-1233 | a bulk container load sends every item keyed by `id`, or nothing, and the store keeps what it accepts |
| Loaders.LoadOneAtATime | data-loader/Program.cs:312-318 | the one-at-a-time load sends a prefix of the list's creates, each keyed by the value the container's path reads, and the store keeps those it accepts |
| Loaders.LoadItems | data-loader/Program.cs:172-322 | an item load sends creates for fixture documents only, keyed by the named field, or by the path when no key is named |
| Loaders.LoadV4CustomerContainer | data-loader/Program.cs:967-1027 | the v4 customer container load, in either mode, sends at most one create per fixture element, keyed by `customerId` (item) or `id` (bulk) |
| Loaders.LoadV4CustomerItems | data-loader/Program.cs:967-1027 | the v4 item load sends customers and sales orders of the fixture, keyed by `customerId`, no more than the fixture holds |
| Loaders.LoadV4CustomerBulk | data-loader/Program.cs:2990-2993 | the customer pass then the sales-order pass send at most one `id`-keyed create per fixture element; the store ends as if both lists had been sent at once |
| Loaders.CustomerPass | data-loader/Program.cs:3019-3128 | the bulk customer pass sends all the customers or none |
| Loaders.SalesOrderPass | data-loader/Program.cs:3130-3212 | the bulk sales-order pass sends all the sales orders or none |
| Menu.Select | data-loader/Program.cs:59-106 | a key starts a loader if and only if it is one of `a` to `h`, and then the loader the menu lists under that key |
| Menu.SelectKeyOf | data-loader/Program.cs:47-110 | each of the eight loaders has its own key among `a` to `h`, and only those keys start a loader |
| Menu.Run | data-loader/Program.cs:39-111 | a menu run exits only on an `x` it read itself, and otherwise reads every key; it starts at most one loader per key read |
| Menu.ReadKeys | data-loader/Program.cs:57 | the menu reads no more keys than are typed |
| Menu.ExitIffXRead | data-loader/Program.cs:107-110 | the menu exits if and only if it reads an `x` |
| Menu.ExitOnFirstX | data-loader/Program.cs:107-110 | after keys that start nothing, an `x` exits the menu at once, with no loader started |
| Menu.OtherKeyLoops | data-loader/Program.cs:40-111 | a key that is neither a loader key nor `x` changes nothing except that it is read |
| Menu.LoaderKeyDispatches | data-loader/Program.cs:59-64 | a loader key starts exactly its loader; the loader's final wait takes the next key, so the run goes on from the key after it with the same exit flag |
| Menu.NoExitWithoutX | data-loader/Program.cs:107-110 | without an `x` among the keys the menu never exits |
| Menu.RunFrom | data-loader/Program.cs:57-110 | from any position, an `x` ends the run; another non-loader key is read and skipped; a loader key starts that loader, and the key after it is taken by the loader's wait |
| Menu.ReadOneKey | data-loader/Program.cs:57-110 | one round of the loop reads at least one key and leaves the rest of the run as `Run` has it |
| Menu.RunMenu | data-loader/Program.cs:37-112 | the loop on the exit flag starts the same loaders, exits under the same condition and reads the same number of keys as `Run` |

## Findings

| source | as written | input that shows it | evidently intended | confidence | as-written member | corrected member |
|---|---|---|---|---|---|---|
| data-loader/Program.cs:3199 | the bulk sales-order pass prints `ItemsToInsertCustomerCount` as the number of items it wrote | a v4 customer fixture with one customer and two sales orders: 2 creates are launched and 1 is reported | report `ItemsToInsertSalesOrderCount`, the number of sales orders launched | medium, not executed | LoaderV4.SalesPassReportMiscounts | LoaderV4.BulkLoadV4SalesOrder |

## Left out

- Store.Store.CreateItem: the model's store refuses a create only when the container is missing, the key is not the value at the path, or the item is already held. Throttling (429), time-outs, oversized documents and other service errors are not modelled; the loader's `Thread.Sleep(2000)` after a failed response (data-loader/Program.cs:2254) hints at them. So the "only if" halves of `Store.FanOut`, `Store.CreateEach`, `LoaderV4.LoadV4Customer` (sales orders are sent whenever the customers are accepted; the report is given whenever every create is accepted) and `Store.WriteItems`, and the whole of `Store.FirstLoadAccepted`, hold of this idealised store only: a real store can also refuse a create that meets all three conditions.
- Store.Store.CreateContainer: an existing container keeps its path. The client library's refusal of a different path is not modelled. Neither is database creation, or the fluent container builder and its failure when the container already exists (data-loader/Program.cs:1150-1176, which throws into the loader's catch before anything is sent).
- Concurrency is not modelled. The store judges creates that are launched together and joined with `Task.WhenAll` in launch order, and stores them in that order. The order in which they complete is not modelled. When one is refused, the wait throws after every create has been sent.
- The per-version database loaders start their container loads concurrently. The model keeps only the list of containers each one loads (`Schema.Containers`) and one container load (`Loaders.LoadContainer`), not the concurrent run or the database-level catch.
- Loaders.LoadV4CustomerBulk: in the v4 bulk load, the customer pass and the sales-order pass are ordered only by a fixed `Thread.Sleep(3000)`. The model runs the customer pass first, as that sleep intends.
- The `Thread.Sleep(2000)` after a failed response, and the `ContinueWith` callbacks that log a failed status, are timing and logging.
- File reading and JSON (de)serialisation are not modelled, including the serialised `MemoryStream` contents. The input is a list of parsed documents, and the stream under each dictionary key is the document itself. A missing JSON property reads as "". Like the source's null, "" is neither "customer" nor "salesOrder".
- The model assumes that a dictionary that is only ever added to enumerates its entries in insertion order. The runtime's dictionary does this, though its documentation does not promise it. `BulkPrepare.LaunchAll` enumerates `order`, so under this assumption launch order is list order.
- Configuration, console output and stopwatch timing are not modelled. The counts the loaders print are returned instead. The unused `count` counter of the v4 item-load split (line 1000) is not modelled.
- Menu keys come in as a finite sequence. When the keys run out while the program waits, the model stops there without exiting. Reading from the console is I/O.
- The HTTP API functions, the Blazor applications, the model classes with their annotation limits, and the floating-point `TemperatureF` are outside the loader.
