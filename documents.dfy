/**
 * Purchase documents (`compras` and `compras_detalles`) and the committed
 * effect of the two write handlers on all four tables, with what those
 * effects preserve.
 */
module Documents {
  import opened Wrappers
  import opened Grouping
  import opened Ledger

  /** The submitted header fields `proveedor_id`, `bodega_id`, `fecha_compra`, `notas`. */
  datatype Header = Header(proveedorId: int, bodegaId: int, fechaCompra: string, notas: string)

  /** A row of `compras`. */
  datatype Purchase = Purchase(
    proveedorId: int,
    bodegaId: int,
    fechaCompra: string,
    total: real,
    notas: Option<string>,
    usuarioCreaId: int,
    usuarioModId: Option<int>)

  /** A row of `compras_detalles`. */
  datatype DetailRow = DetailRow(compraId: int, productoId: int, cantidad: real, precioUnitario: real)

  /** The four tables the purchase flow writes. */
  datatype Tables = Tables(
    compras: map<int, Purchase>,
    detalles: seq<DetailRow>,
    stock: Stock,
    kardex: seq<Movement>)

  /** `notas || null`: an empty note is stored as NULL. */
  function NotasValue(notas: string): Option<string>
  {
    if notas == "" then None else Some(notas)
  }

  /** A line subtotal, quantity times unit price. */
  function Subtotal(cantidad: real, precioUnitario: real): real
  {
    cantidad * precioUnitario
  }

  /** Sum of the subtotals of every submitted item. */
  function Total(items: seq<Item>): real
  {
    if items == [] then 0.0
    else Total(items[..|items| - 1]) + Subtotal(items[|items| - 1].cantidad, items[|items| - 1].precioUnitario)
  }

  /** The submitted items whose product field is empty. */
  function WithoutProduct(items: seq<Item>): seq<Item>
  {
    if items == [] then []
    else WithoutProduct(items[..|items| - 1]) + (if items[|items| - 1].productId.None? then [items[|items| - 1]] else [])
  }

  /** The detail rows inserted for document `d`: one per item with a product, in input order. */
  function DetailLines(d: int, items: seq<Item>): seq<DetailRow>
  {
    if items == [] then []
    else
      var it := items[|items| - 1];
      DetailLines(d, items[..|items| - 1])
        + (match it.productId
           case None => []
           case Some(p) => [DetailRow(d, p, it.cantidad, it.precioUnitario)])
  }

  /** Sum of the stored subtotals `cantidad * precio_unitario`. */
  function LinesTotal(rows: seq<DetailRow>): real
  {
    if rows == [] then 0.0
    else LinesTotal(rows[..|rows| - 1]) + Subtotal(rows[|rows| - 1].cantidad, rows[|rows| - 1].precioUnitario)
  }

  /** `SELECT ... FROM compras_detalles WHERE compra_id = d`. */
  function LinesOf(rows: seq<DetailRow>, d: int): seq<DetailRow>
  {
    if rows == [] then []
    else LinesOf(rows[..|rows| - 1], d) + (if rows[|rows| - 1].compraId == d then [rows[|rows| - 1]] else [])
  }

  /** `DELETE FROM compras_detalles WHERE compra_id = d`. */
  function DeleteLines(rows: seq<DetailRow>, d: int): seq<DetailRow>
  {
    if rows == [] then []
    else DeleteLines(rows[..|rows| - 1], d) + (if rows[|rows| - 1].compraId == d then [] else [rows[|rows| - 1]])
  }

  /** A stored row as the update reads it back (`producto_id, cantidad`; the price is not selected). */
  function LineItem(row: DetailRow): Item
  {
    Item(Some(row.productoId), row.cantidad, 0.0)
  }

  function LineItems(rows: seq<DetailRow>): seq<Item>
  {
    if rows == [] then [] else LineItems(rows[..|rows| - 1]) + [LineItem(rows[|rows| - 1])]
  }

  /** The grouped entries of the lines stored for `d`, which the update reverses. */
  function StoredGroups(t: Tables, d: int): seq<Agg>
  {
    Grouped(LineItems(LinesOf(t.detalles, d)))
  }

  /** The committed effect of `POST /`: header, detail rows, stock +1 and kardex rows for the new id. */
  function CreateTables(t: Tables, id: int, h: Header, items: seq<Item>, u: int): Tables
  {
    Tables(
      t.compras[id := Purchase(h.proveedorId, h.bodegaId, h.fechaCompra, Total(items), NotasValue(h.notas), u, None)],
      t.detalles + DetailLines(id, items),
      ApplyStock(t.stock, Grouped(items), h.bodegaId, 1),
      t.kardex + Movements(Grouped(items), h.bodegaId, 1, id, u))
  }

  /** The reversal phase of `POST /:id`: the stored lines applied with -1 at
      the stored warehouse, then every purchase kardex row of `d` deleted. */
  function RevertTables(t: Tables, d: int, u: int): Tables
    requires d in t.compras
  {
    var b := t.compras[d].bodegaId;
    var gOld := StoredGroups(t, d);
    t.(stock := ApplyStock(t.stock, gOld, b, -1),
       kardex := DeleteTagged(t.kardex + Movements(gOld, b, -1, d, u), d))
  }

  /** The rewrite phase of `POST /:id`: new header (creator kept, modifier
      recorded), the old lines replaced by the new ones, the new items applied
      with +1 at the new warehouse. */
  function RewriteTables(t: Tables, d: int, h: Header, items: seq<Item>, creaId: int, u: int): Tables
  {
    Tables(
      t.compras[d := Purchase(h.proveedorId, h.bodegaId, h.fechaCompra, Total(items), NotasValue(h.notas), creaId, Some(u))],
      DeleteLines(t.detalles, d) + DetailLines(d, items),
      ApplyStock(t.stock, Grouped(items), h.bodegaId, 1),
      t.kardex + Movements(Grouped(items), h.bodegaId, 1, d, u))
  }

  /** The committed effect of `POST /:id`: the reversal, then the rewrite. */
  function UpdateTables(t: Tables, d: int, h: Header, items: seq<Item>, u: int): Tables
    requires d in t.compras
  {
    RewriteTables(RevertTables(t, d, u), d, h, items, t.compras[d].usuarioCreaId, u)
  }

  /** Referential shape of the tables: ids below the AUTO_INCREMENT counter,
      every detail row and every purchase kardex row points at an existing document. */
  ghost predicate ValidTables(t: Tables, nextId: int)
  {
    && (forall d :: d in t.compras ==> d < nextId)
    && (forall r :: r in t.detalles ==> r.compraId in t.compras)
    && (forall m :: m in t.kardex && m.motivo == MotivoCompra && m.referencia == ReferenciaCompras
          ==> m.referenciaId in t.compras)
  }

  /** Moving the counter on keeps the shape: ids stay below it. */
  lemma ValidTablesGrow(t: Tables, nextId: int, later: int)
    requires ValidTables(t, nextId) && nextId <= later
    ensures ValidTables(t, later)
  {
  }

  /** What document `d`'s stored lines contribute to the stock of (p, w). */
  function Contribution(t: Tables, d: int, p: int, w: int): real
    requires d in t.compras
  {
    if w == t.compras[d].bodegaId then SumFor(LineItems(LinesOf(t.detalles, d)), p) else 0.0
  }

  /** Stock equals the kardex balance for every pair, and each document's
      kardex rows add up to what its stored lines contribute. */
  ghost predicate Consistent(t: Tables)
  {
    && (forall p, w :: StockAt(t.stock, p, w) == Balance(t.kardex, p, w))
    && (forall d, p, w :: d in t.compras ==> Balance(TaggedRows(t.kardex, d), p, w) == Contribution(t, d, p, w))
  }

  // ---------------------------------------------------------------- total and lines

  /** The stored total counts every submitted item: the stored line subtotals
      plus the subtotals of the items dropped for having no product. */
  lemma {:induction false} TotalCountsDroppedItems(d: int, items: seq<Item>)
    ensures Total(items) == LinesTotal(DetailLines(d, items)) + Total(WithoutProduct(items))
  {
    if items != [] {
      var init := items[..|items| - 1];
      var it := items[|items| - 1];
      TotalCountsDroppedItems(d, init);
      match it.productId {
        case None =>
          TotalAppendOne(WithoutProduct(init), it);
          assert DetailLines(d, items) == DetailLines(d, init) + [];
          assert DetailLines(d, init) + [] == DetailLines(d, init);
        case Some(p) =>
          var row := DetailRow(d, p, it.cantidad, it.precioUnitario);
          var rows := DetailLines(d, init) + [row];
          assert DetailLines(d, items) == rows;
          assert rows[..|rows| - 1] == DetailLines(d, init) && rows[|rows| - 1] == row;
          assert LinesTotal(rows) == LinesTotal(DetailLines(d, init)) + Subtotal(it.cantidad, it.precioUnitario);
          assert WithoutProduct(items) == WithoutProduct(init) + [];
          assert WithoutProduct(init) + [] == WithoutProduct(init);
      }
    }
  }

  lemma TotalAppendOne(items: seq<Item>, it: Item)
    ensures Total(items + [it]) == Total(items) + Subtotal(it.cantidad, it.precioUnitario)
  {
    assert (items + [it])[..|items|] == items;
  }

  /** Detail rows keep input order and do not merge: the rows of a
      concatenation are the rows of each part, one after the other. */
  lemma {:induction false} DetailLinesAppend(d: int, a: seq<Item>, b: seq<Item>)
    ensures DetailLines(d, a + b) == DetailLines(d, a) + DetailLines(d, b)
  {
    if b == [] {
      assert a + b == a;
    } else {
      assert (a + b)[..|a + b| - 1] == a + b[..|b| - 1];
      assert (a + b)[|a + b| - 1] == b[|b| - 1];
      DetailLinesAppend(d, a, b[..|b| - 1]);
    }
  }

  /** Exactly one row per item with a product: no merging, no row for the others. */
  lemma {:induction false} DetailLinesCount(d: int, items: seq<Item>)
    ensures |DetailLines(d, items)| + |WithoutProduct(items)| == |items|
  {
    if items != [] {
      DetailLinesCount(d, items[..|items| - 1]);
    }
  }

  /** Every row inserted for document `d` carries `d`. */
  lemma {:induction false} DetailLinesOwner(d: int, items: seq<Item>)
    ensures forall i :: 0 <= i < |DetailLines(d, items)| ==> DetailLines(d, items)[i].compraId == d
  {
    if items != [] {
      DetailLinesOwner(d, items[..|items| - 1]);
    }
  }

  lemma {:induction false} LinesOfAppend(a: seq<DetailRow>, b: seq<DetailRow>, e: int)
    ensures LinesOf(a + b, e) == LinesOf(a, e) + LinesOf(b, e)
  {
    if b == [] {
      assert a + b == a;
    } else {
      assert (a + b)[..|a + b| - 1] == a + b[..|b| - 1];
      assert (a + b)[|a + b| - 1] == b[|b| - 1];
      LinesOfAppend(a, b[..|b| - 1], e);
    }
  }

  /** Selecting by owner keeps every row when all rows carry that owner ... */
  lemma {:induction false} LinesOfAllOwned(rows: seq<DetailRow>, e: int)
    requires forall i :: 0 <= i < |rows| ==> rows[i].compraId == e
    ensures LinesOf(rows, e) == rows
  {
    if rows != [] {
      var init := rows[..|rows| - 1];
      assert forall i :: 0 <= i < |init| ==> init[i] == rows[i];
      LinesOfAllOwned(init, e);
      assert init + [rows[|rows| - 1]] == rows;
    }
  }

  /** ... and none when no row does. */
  lemma {:induction false} LinesOfNoneOwned(rows: seq<DetailRow>, e: int)
    requires forall i :: 0 <= i < |rows| ==> rows[i].compraId != e
    ensures LinesOf(rows, e) == []
  {
    if rows != [] {
      var init := rows[..|rows| - 1];
      assert forall i :: 0 <= i < |init| ==> init[i] == rows[i];
      LinesOfNoneOwned(init, e);
    }
  }

  /** After the delete for `d`, `d` has no lines and every other document keeps its own. */
  lemma {:induction false} LinesOfDelete(rows: seq<DetailRow>, d: int, e: int)
    ensures LinesOf(DeleteLines(rows, d), e) == if e == d then [] else LinesOf(rows, e)
  {
    if rows != [] {
      var init := rows[..|rows| - 1];
      var r := rows[|rows| - 1];
      LinesOfDelete(init, d, e);
      LinesOfAppend(DeleteLines(init, d), if r.compraId == d then [] else [r], e);
      assert [r][..0] == [];
      if r.compraId != e {
        assert LinesOf(rows, e) == LinesOf(init, e) + [];
        assert LinesOf(init, e) + [] == LinesOf(init, e);
      }
    }
  }

  lemma {:induction false} DeleteLinesRows(rows: seq<DetailRow>, d: int)
    ensures forall i :: 0 <= i < |DeleteLines(rows, d)| ==>
      DeleteLines(rows, d)[i].compraId != d && DeleteLines(rows, d)[i] in rows
  {
    if rows != [] {
      DeleteLinesRows(rows[..|rows| - 1], d);
      assert forall x :: x in rows[..|rows| - 1] ==> x in rows;
    }
  }

  lemma {:induction false} DeleteLinesAppend(a: seq<DetailRow>, b: seq<DetailRow>, d: int)
    ensures DeleteLines(a + b, d) == DeleteLines(a, d) + DeleteLines(b, d)
  {
    if b != [] {
      assert (a + b)[..|a + b| - 1] == a + b[..|b| - 1];
      assert (a + b)[|a + b| - 1] == b[|b| - 1];
      DeleteLinesAppend(a, b[..|b| - 1], d);
    } else {
      assert a + b == a;
    }
  }

  /** A delete for a document that owns none of the rows keeps them all. */
  lemma {:induction false} DeleteLinesNoneOwned(rows: seq<DetailRow>, d: int)
    requires forall i :: 0 <= i < |rows| ==> rows[i].compraId != d
    ensures DeleteLines(rows, d) == rows
  {
    if rows != [] {
      var init, last := rows[..|rows| - 1], rows[|rows| - 1];
      assert forall i :: 0 <= i < |init| ==> init[i] == rows[i];
      DeleteLinesNoneOwned(init, d);
      assert init + [last] == rows;
    }
  }

  /** The delete for `d` removes every line inserted for `d`. */
  lemma {:induction false} DeleteLinesOwnLines(d: int, items: seq<Item>)
    ensures DeleteLines(DetailLines(d, items), d) == []
  {
    if items != [] {
      var it := items[|items| - 1];
      var tail := match it.productId
        case None => []
        case Some(p) => [DetailRow(d, p, it.cantidad, it.precioUnitario)];
      DeleteLinesOwnLines(d, items[..|items| - 1]);
      DeleteLinesAppend(DetailLines(d, items[..|items| - 1]), tail, d);
      if tail != [] {
        assert tail[..0] == [];
      }
    }
  }

  /** Which detail rows of `d` belong to the lines a document's rows are read back from. */
  lemma LinesOfDetailLines(d: int, items: seq<Item>, e: int)
    ensures LinesOf(DetailLines(d, items), e) == if e == d then DetailLines(d, items) else []
  {
    DetailLinesOwner(d, items);
    if e == d {
      LinesOfAllOwned(DetailLines(d, items), e);
    } else {
      LinesOfNoneOwned(DetailLines(d, items), e);
    }
  }

  // ---------------------------------------------------------------- stored lines group like the items

  /** The items read back after storing `items`, one step at a time. */
  function StoredItem(it: Item): seq<Item>
  {
    match it.productId
    case None => []
    case Some(q) => [Item(Some(q), it.cantidad, 0.0)]
  }

  lemma StoredItemsLast(d: int, items: seq<Item>)
    requires items != []
    ensures LineItems(DetailLines(d, items))
            == LineItems(DetailLines(d, items[..|items| - 1])) + StoredItem(items[|items| - 1])
  {
    var init := items[..|items| - 1];
    var it := items[|items| - 1];
    match it.productId {
      case None =>
        assert DetailLines(d, items) == DetailLines(d, init) + [];
        assert DetailLines(d, init) + [] == DetailLines(d, init);
      case Some(q) =>
        var row := DetailRow(d, q, it.cantidad, it.precioUnitario);
        var rows := DetailLines(d, init) + [row];
        assert DetailLines(d, items) == rows;
        assert rows[..|rows| - 1] == DetailLines(d, init);
    }
  }

  /** Reading back the rows stored for some items yields the same sums per product. */
  lemma {:induction false} StoredLinesSum(d: int, items: seq<Item>, p: int)
    ensures SumFor(LineItems(DetailLines(d, items)), p) == SumFor(items, p)
  {
    if items != [] {
      var init := items[..|items| - 1];
      StoredLinesSum(d, init, p);
      StoredItemsLast(d, items);
      var before := LineItems(DetailLines(d, init));
      var it := items[|items| - 1];
      var extra := StoredItem(it);
      if it.productId.Some? {
        var x := Item(it.productId, it.cantidad, 0.0);
        assert extra == [x];
        assert (before + [x])[..|before|] == before;
        assert SumFor(before + [x], p) == SumFor(before, p) + (if Counted(x) && Pid(x) == p then x.cantidad else 0.0);
        assert Counted(x) == Counted(it) && Pid(x) == Pid(it);
      } else {
        assert before + extra == before;
        assert !Counted(it);
      }
    }
  }

  /** ... and the same products in the same first-appearance order. */
  lemma {:induction false} StoredLinesOrder(d: int, items: seq<Item>)
    ensures Order(LineItems(DetailLines(d, items))) == Order(items)
  {
    if items != [] {
      var init := items[..|items| - 1];
      StoredLinesOrder(d, init);
      StoredItemsLast(d, items);
      var before := LineItems(DetailLines(d, init));
      var it := items[|items| - 1];
      var extra := StoredItem(it);
      if it.productId.Some? {
        var x := Item(it.productId, it.cantidad, 0.0);
        assert extra == [x];
        var li := before + [x];
        assert li[..|li| - 1] == before && li[|li| - 1] == x;
        assert Counted(x) == Counted(it) && Pid(x) == Pid(it);
      } else {
        assert before + extra == before;
        assert !Counted(it);
      }
    }
  }

  lemma StoredLinesGroupLikeItems(d: int, items: seq<Item>)
    ensures Grouped(LineItems(DetailLines(d, items))) == Grouped(items)
  {
    var li := LineItems(DetailLines(d, items));
    StoredLinesOrder(d, items);
    forall k | k in Order(items)
      ensures SumFor(li, k) == SumFor(items, k)
    {
      StoredLinesSum(d, items, k);
    }
  }

  // ---------------------------------------------------------------- create

  /** A committed create adds each product's summed quantity at the chosen
      warehouse and changes no other stock level. */
  lemma CreateNetStock(t: Tables, id: int, h: Header, items: seq<Item>, u: int, p: int, w: int)
    ensures StockAt(CreateTables(t, id, h, items, u).stock, p, w)
            == StockAt(t.stock, p, w) + (if w == h.bodegaId then SumFor(items, p) else 0.0)
  {
    ApplyStockAt(t.stock, Grouped(items), h.bodegaId, 1, p, w);
    GroupedQty(items, p);
  }

  /** A committed create gives the new document exactly the rows of its
      items with a product and exactly one kardex row per grouped product,
      and leaves every other document's lines and kardex rows alone. */
  lemma CreateRows(t: Tables, id: int, h: Header, items: seq<Item>, u: int, e: int)
    requires ValidTables(t, id)
    ensures var t' := CreateTables(t, id, h, items, u);
      && LinesOf(t'.detalles, id) == DetailLines(id, items)
      && TaggedRows(t'.kardex, id) == Movements(Grouped(items), h.bodegaId, 1, id, u)
      && (e != id ==> LinesOf(t'.detalles, e) == LinesOf(t.detalles, e))
      && (e != id ==> TaggedRows(t'.kardex, e) == TaggedRows(t.kardex, e))
  {
    NothingOwnedByNextId(t, id);
    CreateLines(t.detalles, id, items, e);
    CreateKardexRows(t.kardex, id, Grouped(items), h.bodegaId, u, e);
  }

  /** No row of the tables points at the id the counter hands out next. */
  lemma NothingOwnedByNextId(t: Tables, id: int)
    requires ValidTables(t, id)
    ensures forall i :: 0 <= i < |t.detalles| ==> t.detalles[i].compraId != id
    ensures forall i :: 0 <= i < |t.kardex| ==> !IsTagged(t.kardex[i], id)
  {
    forall i | 0 <= i < |t.detalles|
      ensures t.detalles[i].compraId != id
    {
      assert t.detalles[i] in t.detalles;
    }
    forall i | 0 <= i < |t.kardex|
      ensures !IsTagged(t.kardex[i], id)
    {
      assert t.kardex[i] in t.kardex;
    }
  }

  lemma CreateLines(rows: seq<DetailRow>, id: int, items: seq<Item>, e: int)
    requires forall i :: 0 <= i < |rows| ==> rows[i].compraId != id
    ensures LinesOf(rows + DetailLines(id, items), id) == DetailLines(id, items)
    ensures e != id ==> LinesOf(rows + DetailLines(id, items), e) == LinesOf(rows, e)
  {
    var added := DetailLines(id, items);
    LinesOfNoneOwned(rows, id);
    LinesOfAppend(rows, added, id);
    LinesOfAppend(rows, added, e);
    LinesOfDetailLines(id, items, id);
    LinesOfDetailLines(id, items, e);
    assert [] + added == added;
    assert LinesOf(rows, e) + [] == LinesOf(rows, e);
  }

  lemma CreateKardexRows(k: seq<Movement>, id: int, g: seq<Agg>, b: int, u: int, e: int)
    requires forall i :: 0 <= i < |k| ==> !IsTagged(k[i], id)
    ensures TaggedRows(k + Movements(g, b, 1, id, u), id) == Movements(g, b, 1, id, u)
    ensures e != id ==> TaggedRows(k + Movements(g, b, 1, id, u), e) == TaggedRows(k, e)
  {
    var m := Movements(g, b, 1, id, u);
    TaggedRowsEmpty(k, id);
    DeleteTaggedAppend(k, m, id);
    DeleteTaggedAppend(k, m, e);
    MovementsTagged(g, b, 1, id, u, id);
    MovementsTagged(g, b, 1, id, u, e);
    assert [] + m == m;
    assert TaggedRows(k, e) + [] == TaggedRows(k, e);
  }

  /** A create keeps the tables' referential shape, with the counter one further. */
  lemma CreateKeepsValid(t: Tables, id: int, h: Header, items: seq<Item>, u: int)
    requires ValidTables(t, id)
    ensures ValidTables(CreateTables(t, id, h, items, u), id + 1)
  {
    var t' := CreateTables(t, id, h, items, u);
    DetailLinesOwner(id, items);
    forall r | r in t'.detalles
      ensures r.compraId in t'.compras
    {
      if r !in t.detalles {
        var i :| 0 <= i < |DetailLines(id, items)| && DetailLines(id, items)[i] == r;
      }
    }
    MovementsMembers(Grouped(items), h.bodegaId, 1, id, u);
  }

  /** Stock equal to kardex balance, per pair and per document, survives a
      create whose quantities are non-negative. */
  lemma CreateKeepsConsistency(t: Tables, id: int, h: Header, items: seq<Item>, u: int)
    requires ValidTables(t, id) && Consistent(t) && NonNegativeGroups(items)
    ensures Consistent(CreateTables(t, id, h, items, u))
  {
    var t' := CreateTables(t, id, h, items, u);
    forall p, w
      ensures StockAt(t'.stock, p, w) == Balance(t'.kardex, p, w)
    {
      MoveKeepsDrift(t.stock, t.kardex, items, h.bodegaId, 1, id, u, p, w);
    }
    forall e, p, w | e in t'.compras
      ensures Balance(TaggedRows(t'.kardex, e), p, w) == Contribution(t', e, p, w)
    {
      if e != id {
        assert Balance(TaggedRows(t.kardex, e), p, w) == Contribution(t, e, p, w);
      }
      CreateKeepsDocument(t, id, h, items, u, e, p, w);
    }
  }

  /** The per-document half of the above, at one document and pair. */
  lemma CreateKeepsDocument(t: Tables, id: int, h: Header, items: seq<Item>, u: int, e: int, p: int, w: int)
    requires ValidTables(t, id) && NonNegativeGroups(items)
    requires e != id && e in t.compras ==> Balance(TaggedRows(t.kardex, e), p, w) == Contribution(t, e, p, w)
    requires e == id || e in t.compras
    ensures var t' := CreateTables(t, id, h, items, u);
      Balance(TaggedRows(t'.kardex, e), p, w) == Contribution(t', e, p, w)
  {
    var t' := CreateTables(t, id, h, items, u);
    CreateRows(t, id, h, items, u, e);
    if e == id {
      NewDocumentBalance(id, h.bodegaId, items, u, p, w);
      assert t'.compras[e].bodegaId == h.bodegaId;
      assert LinesOf(t'.detalles, e) == DetailLines(id, items);
      assert TaggedRows(t'.kardex, e) == Movements(Grouped(items), h.bodegaId, 1, id, u);
    } else {
      assert t'.compras[e] == t.compras[e];
      assert LinesOf(t'.detalles, e) == LinesOf(t.detalles, e);
      assert TaggedRows(t'.kardex, e) == TaggedRows(t.kardex, e);
    }
  }

  // ---------------------------------------------------------------- update

  /** Net stock effect of a committed update: the stored warehouse loses the
      stored quantities and the new warehouse gains the new ones. */
  lemma UpdateNetStock(t: Tables, d: int, h: Header, items: seq<Item>, u: int, p: int, w: int)
    requires d in t.compras
    ensures StockAt(UpdateTables(t, d, h, items, u).stock, p, w)
            == StockAt(t.stock, p, w)
               - (if w == t.compras[d].bodegaId then SumFor(LineItems(LinesOf(t.detalles, d)), p) else 0.0)
               + (if w == h.bodegaId then SumFor(items, p) else 0.0)
  {
    var stored := LineItems(LinesOf(t.detalles, d));
    var gOld := Grouped(stored);
    var b := t.compras[d].bodegaId;
    var s1 := ApplyStock(t.stock, gOld, b, -1);
    assert UpdateTables(t, d, h, items, u).stock == ApplyStock(s1, Grouped(items), h.bodegaId, 1);
    ApplyStockAt(t.stock, gOld, b, -1, p, w);
    GroupedQty(stored, p);
    assert StockAt(s1, p, w) == StockAt(t.stock, p, w) - (if w == b then SumFor(stored, p) else 0.0);
    ApplyStockAt(s1, Grouped(items), h.bodegaId, 1, p, w);
    GroupedQty(items, p);
  }

  /** Resubmitting a document unchanged (same warehouse, the items its lines
      were stored from) leaves every stock level as it was. */
  lemma UpdateSameItemsKeepsStock(t: Tables, d: int, h: Header, items: seq<Item>, u: int, p: int, w: int)
    requires d in t.compras
    requires LinesOf(t.detalles, d) == DetailLines(d, items)
    requires h.bodegaId == t.compras[d].bodegaId
    ensures StockAt(UpdateTables(t, d, h, items, u).stock, p, w) == StockAt(t.stock, p, w)
  {
    UpdateNetStock(t, d, h, items, u, p, w);
    StoredLinesSum(d, items, p);
  }

  /** Editing a freshly created document replaces its effect entirely: the
      stock ends as if only the edited version had ever been created, at
      whichever warehouse it now names, and its kardex rows are those of the
      edited items alone. */
  lemma EditReplacesCreate(t: Tables, id: int, h1: Header, items1: seq<Item>, u1: int,
                           h2: Header, items2: seq<Item>, u2: int, p: int, w: int)
    requires ValidTables(t, id)
    ensures var t1 := CreateTables(t, id, h1, items1, u1);
      var t2 := UpdateTables(t1, id, h2, items2, u2);
      && StockAt(t2.stock, p, w) == StockAt(t.stock, p, w) + (if w == h2.bodegaId then SumFor(items2, p) else 0.0)
      && TaggedRows(t2.kardex, id) == Movements(Grouped(items2), h2.bodegaId, 1, id, u2)
      && t2.kardex == t.kardex + Movements(Grouped(items2), h2.bodegaId, 1, id, u2)
      && t2.detalles == t.detalles + DetailLines(id, items2)
  {
    var t1 := CreateTables(t, id, h1, items1, u1);
    EditReplacesCreateRows(t, id, h1, items1, u1, h2, items2, u2);
    CreateNetStock(t, id, h1, items1, u1, p, w);
    CreateRows(t, id, h1, items1, u1, id);
    StoredLinesSum(id, items1, p);
    assert SumFor(LineItems(LinesOf(t1.detalles, id)), p) == SumFor(items1, p);
    UpdateNetStock(t1, id, h2, items2, u2, p, w);
    UpdateRows(t1, id, h2, items2, u2, id);
  }

  /** The kardex and detail tables after create-then-edit are those of a
      direct creation of the edited version. */
  lemma EditReplacesCreateRows(t: Tables, id: int, h1: Header, items1: seq<Item>, u1: int,
                               h2: Header, items2: seq<Item>, u2: int)
    requires ValidTables(t, id)
    ensures var t2 := UpdateTables(CreateTables(t, id, h1, items1, u1), id, h2, items2, u2);
      && t2.kardex == t.kardex + Movements(Grouped(items2), h2.bodegaId, 1, id, u2)
      && t2.detalles == t.detalles + DetailLines(id, items2)
  {
    var t1 := CreateTables(t, id, h1, items1, u1);
    var m1 := Movements(Grouped(items1), h1.bodegaId, 1, id, u1);
    var mOld := Movements(StoredGroups(t1, id), h1.bodegaId, -1, id, u2);
    NothingOwnedByNextId(t, id);
    // kardex: the delete removes the creation's rows and the reversal's rows
    TaggedRowsEmpty(t.kardex, id);
    DeleteTaggedAppend(t.kardex, m1, id);
    DeleteTaggedAppend(t1.kardex, mOld, id);
    MovementsTagged(Grouped(items1), h1.bodegaId, 1, id, u1, id);
    MovementsTagged(StoredGroups(t1, id), h1.bodegaId, -1, id, u2, id);
    assert DeleteTagged(t1.kardex + mOld, id) == t.kardex + [] + [];
    assert t.kardex + [] + [] == t.kardex;
    // detail lines: the delete removes exactly the created lines
    DeleteLinesNoneOwned(t.detalles, id);
    DeleteLinesAppend(t.detalles, DetailLines(id, items1), id);
    DeleteLinesOwnLines(id, items1);
    assert DeleteLines(t1.detalles, id) == t.detalles + [];
    assert t.detalles + [] == t.detalles;
  }

  /** After a committed update the document's lines are exactly the new
      items with a product and its kardex rows exactly those of the final +1
      application; every other row of both tables is kept, and the header
      keeps its creator and records the modifier. */
  lemma UpdateRows(t: Tables, d: int, h: Header, items: seq<Item>, u: int, e: int)
    requires d in t.compras
    ensures var t' := UpdateTables(t, d, h, items, u);
      && LinesOf(t'.detalles, d) == DetailLines(d, items)
      && TaggedRows(t'.kardex, d) == Movements(Grouped(items), h.bodegaId, 1, d, u)
      && DeleteTagged(t'.kardex, d) == DeleteTagged(t.kardex, d)
      && (e != d ==> LinesOf(t'.detalles, e) == LinesOf(t.detalles, e))
      && (e != d ==> TaggedRows(t'.kardex, e) == TaggedRows(t.kardex, e))
      && t'.compras[d].total == Total(items)
      && t'.compras[d].usuarioCreaId == t.compras[d].usuarioCreaId
      && t'.compras[d].usuarioModId == Some(u)
  {
    UpdateLines(t.detalles, d, items, e);
    UpdateKardexRows(t.kardex, d, StoredGroups(t, d), t.compras[d].bodegaId, Grouped(items), h.bodegaId, u, e);
  }

  lemma UpdateLines(rows: seq<DetailRow>, d: int, items: seq<Item>, e: int)
    ensures LinesOf(DeleteLines(rows, d) + DetailLines(d, items), d) == DetailLines(d, items)
    ensures e != d ==> LinesOf(DeleteLines(rows, d) + DetailLines(d, items), e) == LinesOf(rows, e)
  {
    var added := DetailLines(d, items);
    LinesOfAppend(DeleteLines(rows, d), added, d);
    LinesOfAppend(DeleteLines(rows, d), added, e);
    LinesOfDelete(rows, d, d);
    LinesOfDelete(rows, d, e);
    LinesOfDetailLines(d, items, d);
    LinesOfDetailLines(d, items, e);
    assert [] + added == added;
    assert LinesOf(rows, e) + [] == LinesOf(rows, e);
  }

  lemma UpdateKardexRows(k: seq<Movement>, d: int, gOld: seq<Agg>, bOld: int, gNew: seq<Agg>, bNew: int, u: int, e: int)
    ensures var k' := DeleteTagged(k + Movements(gOld, bOld, -1, d, u), d) + Movements(gNew, bNew, 1, d, u);
      && TaggedRows(k', d) == Movements(gNew, bNew, 1, d, u)
      && DeleteTagged(k', d) == DeleteTagged(k, d)
      && (e != d ==> TaggedRows(k', e) == TaggedRows(k, e))
  {
    var mOld := Movements(gOld, bOld, -1, d, u);
    var mNew := Movements(gNew, bNew, 1, d, u);
    var kept := DeleteTagged(k + mOld, d);
    DeleteTaggedAppend(k, mOld, d);
    MovementsTagged(gOld, bOld, -1, d, u, d);
    assert kept == DeleteTagged(k, d) + [];
    assert DeleteTagged(k, d) + [] == DeleteTagged(k, d);
    DeleteTaggedAppend(kept, mNew, d);
    DeleteTaggedAppend(kept, mNew, e);
    MovementsTagged(gNew, bNew, 1, d, u, d);
    MovementsTagged(gNew, bNew, 1, d, u, e);
    TaggedAfterDelete(k, d, d);
    TaggedAfterDelete(k, d, e);
    DeleteTaggedTwice(k, d);
    assert [] + mNew == mNew;
    assert DeleteTagged(k, d) + [] == DeleteTagged(k, d);
    assert TaggedRows(k, e) + [] == TaggedRows(k, e);
  }

  /** The reversal with -1 followed by the delete of the document's kardex
      rows keeps stock and kardex in step at (p, w), provided the rows being
      deleted add up to what the stored lines contribute there: the reversal
      cancels the stock those rows stood for, and its own rows go with them. */
  lemma UpdateReversalCancels(t: Tables, d: int, u: int, p: int, w: int)
    requires d in t.compras
    requires Balance(TaggedRows(t.kardex, d), p, w) == Contribution(t, d, p, w)
    ensures var gOld := StoredGroups(t, d);
      var b := t.compras[d].bodegaId;
      Drift(ApplyStock(t.stock, gOld, b, -1), DeleteTagged(t.kardex + Movements(gOld, b, -1, d, u), d), p, w)
      == Drift(t.stock, t.kardex, p, w)
  {
    var gOld := StoredGroups(t, d);
    var b := t.compras[d].bodegaId;
    var mOld := Movements(gOld, b, -1, d, u);
    ApplyStockAt(t.stock, gOld, b, -1, p, w);
    GroupedQty(LineItems(LinesOf(t.detalles, d)), p);
    DeleteTaggedAppend(t.kardex, mOld, d);
    MovementsTagged(gOld, b, -1, d, u, d);
    assert DeleteTagged(t.kardex, d) + [] == DeleteTagged(t.kardex, d);
    BalanceSplit(t.kardex, d, p, w);
  }

  /** An update keeps the tables' referential shape. */
  lemma UpdateKeepsValid(t: Tables, d: int, h: Header, items: seq<Item>, u: int, nextId: int)
    requires ValidTables(t, nextId) && d in t.compras
    ensures ValidTables(UpdateTables(t, d, h, items, u), nextId)
  {
    var t' := UpdateTables(t, d, h, items, u);
    var gOld := StoredGroups(t, d);
    var mOld := Movements(gOld, t.compras[d].bodegaId, -1, d, u);
    DeleteLinesRows(t.detalles, d);
    DetailLinesOwner(d, items);
    forall r | r in t'.detalles
      ensures r.compraId in t'.compras
    {
      if r !in DeleteLines(t.detalles, d) {
        var i :| 0 <= i < |DetailLines(d, items)| && DetailLines(d, items)[i] == r;
      } else {
        var i :| 0 <= i < |DeleteLines(t.detalles, d)| && DeleteLines(t.detalles, d)[i] == r;
      }
    }
    DeleteTaggedSubset(t.kardex + mOld, d);
    MovementsMembers(gOld, t.compras[d].bodegaId, -1, d, u);
    MovementsMembers(Grouped(items), h.bodegaId, 1, d, u);
  }

  /** Stock equal to kardex balance, per pair and per document, survives an
      update whose new quantities are non-negative. */
  lemma UpdateKeepsConsistency(t: Tables, d: int, h: Header, items: seq<Item>, u: int)
    requires d in t.compras && Consistent(t) && NonNegativeGroups(items)
    ensures Consistent(UpdateTables(t, d, h, items, u))
  {
    var t' := UpdateTables(t, d, h, items, u);
    var gOld := StoredGroups(t, d);
    var b := t.compras[d].bodegaId;
    var s1 := ApplyStock(t.stock, gOld, b, -1);
    var k1 := DeleteTagged(t.kardex + Movements(gOld, b, -1, d, u), d);
    forall p, w
      ensures StockAt(t'.stock, p, w) == Balance(t'.kardex, p, w)
    {
      UpdateReversalCancels(t, d, u, p, w);
      MoveKeepsDrift(s1, k1, items, h.bodegaId, 1, d, u, p, w);
    }
    forall e, p, w | e in t'.compras
      ensures Balance(TaggedRows(t'.kardex, e), p, w) == Contribution(t', e, p, w)
    {
      if e != d {
        assert Balance(TaggedRows(t.kardex, e), p, w) == Contribution(t, e, p, w);
      }
      UpdateKeepsDocument(t, d, h, items, u, e, p, w);
    }
  }

  /** The per-document half of the above, at one document and pair. */
  lemma UpdateKeepsDocument(t: Tables, d: int, h: Header, items: seq<Item>, u: int, e: int, p: int, w: int)
    requires d in t.compras && e in t.compras && NonNegativeGroups(items)
    requires e != d ==> Balance(TaggedRows(t.kardex, e), p, w) == Contribution(t, e, p, w)
    ensures var t' := UpdateTables(t, d, h, items, u);
      Balance(TaggedRows(t'.kardex, e), p, w) == Contribution(t', e, p, w)
  {
    var t' := UpdateTables(t, d, h, items, u);
    UpdateRows(t, d, h, items, u, e);
    if e == d {
      NewDocumentBalance(d, h.bodegaId, items, u, p, w);
      assert t'.compras[e].bodegaId == h.bodegaId;
      assert LinesOf(t'.detalles, e) == DetailLines(d, items);
      assert TaggedRows(t'.kardex, e) == Movements(Grouped(items), h.bodegaId, 1, d, u);
    } else {
      assert t'.compras[e] == t.compras[e];
      assert LinesOf(t'.detalles, e) == LinesOf(t.detalles, e);
      assert TaggedRows(t'.kardex, e) == TaggedRows(t.kardex, e);
    }
  }

  /** The kardex rows a document's items produce with sign +1 add up to what
      the lines stored from those items contribute. */
  lemma NewDocumentBalance(d: int, b: int, items: seq<Item>, u: int, p: int, w: int)
    requires NonNegativeGroups(items)
    ensures Balance(Movements(Grouped(items), b, 1, d, u), p, w)
            == (if w == b then SumFor(LineItems(DetailLines(d, items)), p) else 0.0)
  {
    BalanceMovements(Grouped(items), b, 1, d, u, p, w);
    GroupedQty(items, p);
    StoredLinesSum(d, items, p);
  }
}
