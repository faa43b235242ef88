# Purchase documents, stock and kardex

This project models the write side of the product-purchase routes of an
inventory web application (`routes/compras_productos.js`). A purchase
document (`compras`) has a header and detail lines (`compras_detalles`).
Every purchase also moves the warehouse stock table (`product_stock`, one
quantity per product and warehouse). It writes one kardex row per product
into the movement log (`product_inventario`).

- `Grouping` models `agruparPorProducto`. Items without a product or with
  a zero quantity are skipped. The quantities of the remaining items are
  summed per product, in order of first appearance. The method
  `GroupByProduct` keeps the source's loop and map. It is proved equal to
  the functional definition `Grouped`, and the lemmas say what `Grouped`
  means.
- `Ledger` models `moverStockYkardex` on values:
  - the stock upsert of `signo * cantidad` per group (`ApplyStock`);
  - the kardex rows (`Movements`): `ENTRADA` when `signo > 0`, otherwise
    `SALIDA`, with quantity `|signo * cantidad|`, motive `COMPRA`,
    reference `compras` and the document id;
  - the signed balance of the kardex, and the deletion of a document's
    purchase rows.
- `Documents` holds the four tables as one value. It gives the committed
  effect of each handler as a function: `CreateTables`, and
  `UpdateTables` built as `RevertTables` followed by `RewriteTables`. It
  proves what those effects do to stock, detail lines and kardex, and what
  they preserve.
- `Handlers` holds the tables as fields of the class `Database`. Its
  methods follow the handlers statement by statement, with their loops.
  - The database may reject any SQL statement. The parameter
    `failAt: Option<nat>` names the ordinal of the rejected statement in
    the transaction.
  - Each handler is a `try` method (`RunCreate`, `RunUpdate`) and a
    `catch` that rolls all four tables back and answers with a failure.
  - The `AUTO_INCREMENT` counter `nextId` is not rolled back.

The session user id is a parameter. The purchase date is an opaque
string, stored as given.

A few behaviours of the code are worth knowing:

- Updating a purchase that does not exist fails. `compraActual` is then
  `undefined`, the property read throws, the transaction is rolled back
  and the answer is 500. The model gives `Err(MissingPurchase)` with the
  tables unchanged.
- A product whose quantities cancel out still gets a kardex row, of
  quantity 0 (`CancellingQuantitiesStillWriteRow`).
- The kardex direction comes from `signo` alone. When a product's summed
  quantity on a purchase is negative, the purchase lowers the stock but
  logs an `ENTRADA` of the absolute value. After that, stock and kardex
  disagree (`NegativeQuantityRecordsEntrada`). Every consistency result
  below therefore requires each product's summed quantity to be
  non-negative. Single negative lines are allowed when their product's
  sum stays non-negative (`MixedSignsKeepDrift`).
- The document total counts every submitted item, including items
  without a product, which get no detail line and no stock movement
  (`TotalCountsDroppedItems`).
- A detail line is written for every item with a product, even one with
  a zero quantity, which moves no stock.

## Model

| member | source | states |
|---|---|---|
| Grouping.GroupByProduct | routes/compras_productos.js:20-29 | the loop over the items with its map of sums returns exactly `Grouped(items)` |
| Grouping.GroupedCorrect | routes/compras_productos.js:20-29 | grouped product ids are pairwise distinct; a product appears iff some item with that product and a non-zero quantity exists; each group's quantity is the sum of that product's quantities |
| Grouping.GroupedQty | routes/compras_productos.js:20-29 | the quantity looked up for any product in the grouping equals the sum of its counted items (0 when it has none) |
| Grouping.OrderDistinct | routes/compras_productos.js:21-26 | the keys of the map are distinct |
| Grouping.OrderMembership | routes/compras_productos.js:23-26 | a product is a key iff some item has it as a non-zero id with a non-zero quantity |
| Grouping.SumForOutsideOrder | routes/compras_productos.js:25 | a product that is never counted has sum 0 |
| Grouping.OrderPrefix | routes/compras_productos.js:28 | the keys of any prefix of the items are a prefix of the keys of the whole list (Map order is first insertion) |
| Grouping.QtyOfAggregate | routes/compras_productos.js:28 | reading the entries built from distinct keys gives each key's sum and 0 for any other product |
| Grouping.SumForNonNegative | routes/compras_productos.js:26 | sums of non-negative quantities are non-negative |
| Grouping.GroupedNonNegative | routes/compras_productos.js:20-29 | with non-negative quantities every group is non-negative |
| Grouping.GroupedEmpty | routes/compras_productos.js:25 | when every item is skipped there are no groups, so no statement is issued |
| Ledger.ApplicationStep | routes/compras_productos.js:33-55 | one more loop iteration adds one stock upsert of `signo * cantidad` and appends exactly one kardex row |
| Ledger.ApplyStockAt | routes/compras_productos.js:33-41 | after the upserts a pair's stock is its old stock plus `signo` times the product's grouped quantity in the target warehouse, and is unchanged elsewhere |
| Ledger.ApplyStockDelta | routes/compras_productos.js:33-41 | the same change expressed as the sum of the per-group deltas |
| Ledger.DeltaIsScaled | routes/compras_productos.js:34 | the sum of the deltas for a product is `signo` times its grouped quantity |
| Ledger.ApplyStockRows | routes/compras_productos.js:37-41 | `INSERT … ON DUPLICATE KEY UPDATE` creates a row exactly for each grouped product in the target warehouse and removes none |
| Ledger.MovementsRows | routes/compras_productos.js:43-55 | one kardex row per group, in group order, with the group's product, the warehouse, `ENTRADA` iff `signo > 0`, quantity `abs(signo * cantidad)`, the document's reference and the user |
| Ledger.BalanceAppend | routes/compras_productos.js:44-47 | the signed balance of an appended log is the sum of the balances |
| Ledger.DeleteTaggedAppend | routes/compras_productos.js:178 | deleting and selecting a document's purchase rows distribute over concatenation |
| Ledger.BalanceSplit | routes/compras_productos.js:178 | a log's balance is the balance of the rows the delete keeps plus the balance of the rows it removes |
| Ledger.MovementsTagged | routes/compras_productos.js:43-55 | all rows written for a document carry that document's reference and no other |
| Ledger.TaggedAfterDelete | routes/compras_productos.js:178 | after the delete no row of that document remains, and every other document's rows are untouched |
| Ledger.TaggedRowsEmpty | routes/compras_productos.js:178 | a delete that matches no row leaves the log as it was |
| Ledger.DeleteTaggedSubset | routes/compras_productos.js:178 | the delete removes exactly that document's purchase rows: every remaining row was in the log and is not one of them, and every other row remains |
| Ledger.DeleteTaggedTwice | routes/compras_productos.js:178 | the delete is idempotent |
| Ledger.MovementsMembers | routes/compras_productos.js:43-55 | every written row is tagged with the document |
| Ledger.BalanceMovements | routes/compras_productos.js:43-55 | with non-negative groups the rows' signed balance for a pair is `signo` times the product's grouped quantity in the target warehouse, and 0 elsewhere |
| Ledger.BalanceMovementsDelta | routes/compras_productos.js:43-55 | the same balance expressed as the stock delta |
| Ledger.RowBalance | routes/compras_productos.js:51-52 | for a non-negative quantity one row's signed value is exactly the stock delta of its upsert |
| Ledger.MoveKeepsDrift | routes/compras_productos.js:31-57 | when every product's summed quantity is non-negative, a call leaves the difference between stock and kardex balance unchanged for every pair |
| Ledger.MixedSignsKeepDrift | routes/compras_productos.js:20-55 | lines of +3 and -1 of one product are not all non-negative, yet group to 2, write one `ENTRADA` row of 2 and leave stock and kardex in step |
| Ledger.NegativeQuantityRecordsEntrada | routes/compras_productos.js:34-52 | a purchase of -5 lowers the stock by 5 but logs an `ENTRADA` of 5, so stock and kardex drift apart by 10 |
| Ledger.RepeatedProductOneRow | routes/compras_productos.js:20-55 | two items of the same product give one group of 5 and one kardex row |
| Ledger.CancellingQuantitiesStillWriteRow | routes/compras_productos.js:25-52 | items of +2 and -2 give a group of 0 and still write an `ENTRADA` row of quantity 0 |
| Documents.TotalCountsDroppedItems | routes/compras_productos.js:105-121 | the stored total is the sum over the stored detail lines plus the subtotals of the items dropped for having no product |
| Documents.DetailLinesAppend | routes/compras_productos.js:115-121 | detail lines of concatenated item lists concatenate |
| Documents.DetailLinesCount | routes/compras_productos.js:115-121 | every item gets a detail line or is dropped for having no product, never both |
| Documents.DetailLinesOwner | routes/compras_productos.js:117-120 | every inserted line belongs to the new document |
| Documents.LinesOfAppend | routes/compras_productos.js:168 | selecting a document's lines distributes over concatenation |
| Documents.LinesOfAllOwned | routes/compras_productos.js:168 | selecting from rows that all belong to the document returns them all |
| Documents.LinesOfNoneOwned | routes/compras_productos.js:168 | selecting from rows of other documents returns nothing |
| Documents.LinesOfDelete | routes/compras_productos.js:193 | after `DELETE FROM compras_detalles` the document has no lines and other documents keep theirs |
| Documents.DeleteLinesAppend | routes/compras_productos.js:193 | the line delete distributes over concatenation |
| Documents.DeleteLinesNoneOwned | routes/compras_productos.js:193 | a delete for a document that owns no row keeps the table as it was |
| Documents.DeleteLinesOwnLines | routes/compras_productos.js:193-200 | the delete for a document removes every line inserted for it |
| Documents.DeleteLinesRows | routes/compras_productos.js:193 | the delete keeps only existing rows of other documents |
| Documents.LinesOfDetailLines | routes/compras_productos.js:115-121 | the inserted lines are exactly the document's lines among themselves |
| Documents.StoredItemsLast | routes/compras_productos.js:115-121 | reading the stored lines back as items adds one item per item with a product |
| Documents.StoredLinesSum | routes/compras_productos.js:168-177 | the stored lines, read back, sum to the same per-product quantities as the submitted items |
| Documents.StoredLinesOrder | routes/compras_productos.js:168-177 | the stored lines, read back, group in the same product order as the submitted items |
| Documents.StoredLinesGroupLikeItems | routes/compras_productos.js:168-177 | the update reverts exactly the groups the earlier write applied |
| Documents.CreateNetStock | routes/compras_productos.js:96-140 | a committed creation adds each product's summed quantity to the chosen warehouse and changes no other stock |
| Documents.CreateRows | routes/compras_productos.js:108-129 | after creation the new id owns exactly its detail lines and its kardex rows; other documents' lines and rows are unchanged |
| Documents.NothingOwnedByNextId | routes/compras_productos.js:108-113 | no detail line or kardex row refers to the id about to be assigned |
| Documents.CreateLines | routes/compras_productos.js:115-121 | appending the lines of a fresh id gives it exactly those lines and leaves other ids alone |
| Documents.CreateKardexRows | routes/compras_productos.js:123-129 | appending the rows of a fresh id gives it exactly those rows and leaves other ids alone |
| Documents.CreateKeepsValid | routes/compras_productos.js:96-140 | creation keeps every line and row pointing at an existing document, with ids below the counter |
| Documents.CreateKeepsConsistency | routes/compras_productos.js:96-140 | when every product's summed quantity is non-negative, creation keeps stock equal to the kardex balance for every pair, and each document's rows equal to its lines |
| Documents.CreateKeepsDocument | routes/compras_productos.js:96-140 | after creation each document's kardex rows balance to its stored lines |
| Documents.UpdateNetStock | routes/compras_productos.js:161-220 | a committed update takes the old lines off the old warehouse and adds the new items to the new warehouse, and nothing else |
| Documents.UpdateSameItemsKeepsStock | routes/compras_productos.js:161-220 | resubmitting the stored items to the same warehouse leaves all stock unchanged |
| Documents.EditReplacesCreate | routes/compras_productos.js:96-220 | creating a document and then editing it leaves stock, the whole kardex and the whole detail table as a direct creation of the edited version would: the other rows in place and the edited version's rows appended |
| Documents.EditReplacesCreateRows | routes/compras_productos.js:96-220 | after create-then-edit the kardex is the old kardex plus the edited version's rows, and the detail table is the old table plus the edited version's lines |
| Documents.UpdateRows | routes/compras_productos.js:161-209 | after an update the document owns exactly the new lines and new kardex rows; other rows, other documents, the creator are kept; the total is recomputed and the modifier set |
| Documents.UpdateLines | routes/compras_productos.js:193-200 | delete-then-insert replaces the document's lines and keeps others |
| Documents.UpdateKardexRows | routes/compras_productos.js:171-209 | reversal rows are deleted along with the original rows, so only the new rows remain for the document and other rows are kept |
| Documents.UpdateReversalCancels | routes/compras_productos.js:167-178 | when the document's rows balance to its lines, reverting and deleting them leaves stock minus kardex balance unchanged |
| Documents.UpdateKeepsValid | routes/compras_productos.js:161-220 | an update keeps the tables well formed |
| Documents.UpdateKeepsConsistency | routes/compras_productos.js:161-220 | when every new product's summed quantity is non-negative, an update keeps stock equal to kardex balance, and each document's rows equal to its lines |
| Documents.UpdateKeepsDocument | routes/compras_productos.js:161-220 | after an update each document's kardex rows balance to its stored lines |
| Documents.NewDocumentBalance | routes/compras_productos.js:115-129 | the rows written for new items balance to the lines stored for them |
| Handlers.ComputeTotal | routes/compras_productos.js:105-106 | the `forEach` accumulation returns the sum of `cantidad * precio_unitario` over all items |
| Handlers.Database.constructor | routes/compras_productos.js:96-220 | empty tables are well formed and consistent |
| Handlers.Database.Rollback | routes/compras_productos.js:133-136 | the four tables are restored to the saved state |
| Handlers.Database.MoveStockAndKardex | routes/compras_productos.js:31-57 | succeeds iff none of its 2 statements per group fails; on success stock is `ApplyStock` of the groups and the kardex gains exactly `Movements` of them |
| Handlers.Database.MoveOne | routes/compras_productos.js:33-56 | one iteration succeeds iff neither of its two statements fails, upserts `signo * cantidad` and appends one row |
| Handlers.Database.InsertDetails | routes/compras_productos.js:115-121 | succeeds iff no insert fails; appends exactly one line per item with a product |
| Handlers.Database.Create | routes/compras_productos.js:96-140 | succeeds iff none of its statements fails; on success returns the next id, advances the counter by one and the tables are `CreateTables`; on failure the tables are as before; well-formedness is kept either way |
| Handlers.Database.RunCreate | routes/compras_productos.js:98-131 | header insert, detail inserts and the +1 movement in order, stopping at the first failure; a full run yields `CreateTables` and takes one id |
| Handlers.Database.Update | routes/compras_productos.js:161-220 | succeeds iff the document exists and none of its statements fails; on success the tables are `UpdateTables`; a missing document gives `MissingPurchase`, any other failure `DatabaseError`; on failure the tables are as before |
| Handlers.Database.RunUpdate | routes/compras_productos.js:164-211 | the two reads, the reversal, the header and line rewrite and the new movement in order, stopping at the first failure; a full run yields `UpdateTables` |
| Handlers.Database.Revert | routes/compras_productos.js:167-178 | the -1 movement of the stored lines on the stored warehouse, then the delete of the document's purchase rows, give `RevertTables` |
| Handlers.Database.Rewrite | routes/compras_productos.js:180-209 | the header update, line delete-and-insert and +1 movement give `RewriteTables` |

## Left out

- The read-only routes (`GET /`, `/nueva`, `/:id/editar`, `/:id`), the `toLocalInput` formatter and the rendering are out of scope. They write nothing.
- Authentication and the session are left out. The user id is a parameter of the handlers.
- Form coercion is left out: `Number`, `parseFloat`, `NaN` and string ids. An item's product is `None` when `producto_id` is falsy and `Some(id)` otherwise. Quantities and prices are exact `real` numbers, so IEEE rounding of the sums is not modelled.
- `new Date(fecha_compra)` is left out. The date is stored as the submitted string.
- The connection pool, concurrent requests and isolation levels are left out. Each handler runs alone on the tables.
- Database failures are not modelled by cause. Any statement may fail, and `failAt` names the first one that does.
- `beginTransaction` (line 99 and line 165) and `commit` (line 131 and line 211) are not numbered by `failAt` and are taken to succeed. A failing commit would also end in a rollback and a 500 answer. So `Create` and `Update` succeed iff no statement fails only under that assumption.
- The redirect and the 500 message are left out. Success is `Ok(id)` and the 500 answer is `Err(_)`.
- Foreign keys, column types and the schema are not modelled. Nothing checks that the supplier, warehouse or product exists.
- Handlers.Database.Create: the method's contract does not state stock–kardex consistency. That is proved about its committed effect `CreateTables` by `CreateKeepsConsistency`, which needs each product's summed quantity to be non-negative, something the handler does not check.
- Handlers.Database.Update: likewise, consistency is proved about `UpdateTables` by `UpdateKeepsConsistency`, when each new product's summed quantity is non-negative.
- Ledger.MoveKeepsDrift: it requires each product's summed quantity to be non-negative. With a negative sum the kardex direction disagrees with the stock change (`NegativeQuantityRecordsEntrada`).
