/**
 * The two write handlers of the product-purchase routes, run against the
 * four tables inside one transaction: every SQL statement may be rejected by
 * the database, and any failure restores the tables as they were.
 */
module Handlers {
  import opened Wrappers
  import opened Grouping
  import opened Ledger
  import opened Documents

  /** Why a write request is rolled back and answered with status 500. */
  datatype Failure =
    | DatabaseError    // the database rejected a statement
    | MissingPurchase  // the update read `bodega_id` of a document that does not exist

  /** The database rejects statement number `n` of the transaction (counted from 0). */
  predicate FailsAt(failAt: Option<nat>, n: nat)
  {
    failAt == Some(n)
  }

  /** The rejected statement, if any, is one of the statements `lo` .. `hi - 1`. */
  predicate FailsIn(failAt: Option<nat>, lo: nat, hi: nat)
  {
    failAt.Some? && lo <= failAt.value < hi
  }

  /** A range of statements fails exactly when one of its two halves does. */
  lemma FailsInSplit(failAt: Option<nat>, lo: nat, mid: nat, hi: nat)
    requires lo <= mid <= hi
    ensures FailsIn(failAt, lo, hi) <==> FailsIn(failAt, lo, mid) || FailsIn(failAt, mid, hi)
  {
  }

  /** Statements an update issues: two selects, the reversal (two per stored
      product), three single statements, one insert per new line, and the
      final application (two per new product). */
  function UpdateStatements(t: Tables, d: int, items: seq<Item>): nat
  {
    5 + 2 * |StoredGroups(t, d)| + |DetailLines(d, items)| + 2 * |Grouped(items)|
  }

  /** The `forEach` that accumulates the document total. */
  method ComputeTotal(items: seq<Item>) returns (total: real)
    ensures total == Total(items)
  {
    total := 0.0;
    for i := 0 to |items|
      invariant total == Total(items[..i])
    {
      assert items[..i + 1][..i] == items[..i];
      total := total + Subtotal(items[i].cantidad, items[i].precioUnitario);
    }
    assert items[..|items|] == items;
  }

  class Database {
    var compras: map<int, Purchase>
    var detalles: seq<DetailRow>
    var stock: Stock
    var kardex: seq<Movement>
    /** The AUTO_INCREMENT counter of `compras`; a rollback does not give ids back. */
    var nextId: int

    function Snapshot(): Tables
      reads this
    {
      Tables(compras, detalles, stock, kardex)
    }

    ghost predicate Valid()
      reads this
    {
      ValidTables(Snapshot(), nextId)
    }

    /** Stock and kardex agree, per pair and per document. */
    ghost predicate Balanced()
      reads this
    {
      Consistent(Snapshot())
    }

    constructor ()
      ensures Valid() && Balanced()
      ensures Snapshot() == Tables(map[], [], map[], [])
    {
      compras, detalles, stock, kardex := map[], [], map[], [];
      nextId := 1;
    }

    /** `conn.rollback()`: every table back to the state saved at `beginTransaction`. */
    method Rollback(saved: Tables)
      modifies this`compras, this`detalles, this`stock, this`kardex
      ensures Snapshot() == saved
    {
      compras, detalles, stock, kardex := saved.compras, saved.detalles, saved.stock, saved.kardex;
    }

    /** `moverStockYkardex`: group the items, then for each product upsert the
        stock of (product, `bodegaId`) by `signo` times its quantity and append
        its kardex row. Two statements per product, numbered from `n0`. */
    method MoveStockAndKardex(bodegaId: int, items: seq<Item>, signo: int, compraId: int, usuarioId: int,
                              failAt: Option<nat>, n0: nat) returns (ok: bool, n: nat)
      modifies this`stock, this`kardex
      ensures ok <==> !FailsIn(failAt, n0, n0 + 2 * |Grouped(items)|)
      ensures ok ==> n == n0 + 2 * |Grouped(items)|
      ensures ok ==> stock == ApplyStock(old(stock), Grouped(items), bodegaId, signo)
      ensures ok ==> kardex == old(kardex) + Movements(Grouped(items), bodegaId, signo, compraId, usuarioId)
    {
      var agregados := GroupByProduct(items);
      ok, n := true, n0;
      var k := 0;
      while k < |agregados|
        invariant 0 <= k <= |agregados|
        invariant n == n0 + 2 * k
        invariant !FailsIn(failAt, n0, n)
        invariant stock == ApplyStock(old(stock), agregados[..k], bodegaId, signo)
        invariant kardex == old(kardex) + Movements(agregados[..k], bodegaId, signo, compraId, usuarioId)
      {
        ApplicationStep(old(stock), agregados, k, bodegaId, signo, compraId, usuarioId);
        ok := MoveOne(agregados[k], bodegaId, signo, compraId, usuarioId, failAt, n);
        if !ok {
          return;
        }
        n := n + 2;
        k := k + 1;
      }
      assert agregados[..k] == agregados;
    }

    /** The body of that loop for one grouped product: statement `n` is the
        stock upsert, statement `n + 1` the kardex insert. */
    method MoveOne(a: Agg, bodegaId: int, signo: int, compraId: int, usuarioId: int,
                   failAt: Option<nat>, n: nat) returns (ok: bool)
      modifies this`stock, this`kardex
      ensures ok <==> !FailsIn(failAt, n, n + 2)
      ensures ok ==> stock == Upsert(old(stock), a.productId, bodegaId, Scaled(a, signo))
      ensures ok ==> kardex == old(kardex) + [KardexRow(a, bodegaId, signo, compraId, usuarioId)]
    {
      var delta := Scaled(a, signo);
      // 1) stock: INSERT ... ON DUPLICATE KEY UPDATE cantidad = cantidad + VALUES(cantidad)
      if FailsAt(failAt, n) {
        return false;
      }
      var key := (a.productId, bodegaId);
      stock := stock[key := (if key in stock then stock[key] else 0.0) + delta];
      // 2) kardex
      if FailsAt(failAt, n + 1) {
        return false;
      }
      var row := Movement(a.productId, bodegaId, if signo > 0 then Entrada else Salida,
                          Abs(delta), MotivoCompra, ReferenciaCompras, compraId, usuarioId);
      assert row == KardexRow(a, bodegaId, signo, compraId, usuarioId);
      kardex := kardex + [row];
      ok := true;
    }

    /** The loop that inserts one `compras_detalles` row per item with a
        product, skipping the others. One statement per row, numbered from `n0`. */
    method InsertDetails(d: int, items: seq<Item>, failAt: Option<nat>, n0: nat) returns (ok: bool, n: nat)
      modifies this`detalles
      ensures ok <==> !FailsIn(failAt, n0, n0 + |DetailLines(d, items)|)
      ensures ok ==> n == n0 + |DetailLines(d, items)|
      ensures ok ==> detalles == old(detalles) + DetailLines(d, items)
    {
      ok, n := true, n0;
      for i := 0 to |items|
        invariant n == n0 + |DetailLines(d, items[..i])|
        invariant !FailsIn(failAt, n0, n)
        invariant detalles == old(detalles) + DetailLines(d, items[..i])
      {
        assert items[..i + 1][..i] == items[..i];
        var it := items[i];
        if it.productId.Some? {
          if FailsAt(failAt, n) {
            ok := false;
            DetailLinesAppend(d, items[..i + 1], items[i + 1..]);
            assert items[..i + 1] + items[i + 1..] == items;
            return;
          }
          detalles := detalles + [DetailRow(d, it.productId.value, it.cantidad, it.precioUnitario)];
          n := n + 1;
        }
      }
      assert items[..|items|] == items;
    }

    /** `POST /`: run the statements of the `try` block; on the first
        failure roll everything back (the `catch`), otherwise commit. */
    method Create(h: Header, items: seq<Item>, usuarioId: int, failAt: Option<nat>) returns (r: Result<int, Failure>)
      requires Valid()
      modifies this
      ensures Valid()
      ensures r.Ok? <==> !FailsIn(failAt, 0, 1 + |DetailLines(old(nextId), items)| + 2 * |Grouped(items)|)
      ensures r.Ok? ==> r.value == old(nextId) && nextId == old(nextId) + 1
                        && Snapshot() == CreateTables(old(Snapshot()), r.value, h, items, usuarioId)
      ensures r.Err? ==> r.error == DatabaseError && Snapshot() == old(Snapshot())
    {
      var saved := Snapshot();
      var id, failure := RunCreate(h, items, usuarioId, failAt);
      if failure.Some? {
        Rollback(saved);
        ValidTablesGrow(saved, old(nextId), nextId);
        r := Err(failure.value);
        return;
      }
      r := Ok(id);
      CreateKeepsValid(saved, id, h, items, usuarioId);
    }

    /** The `try` block of `POST /`, up to the first statement that fails:
        the header insert (which takes the next id), the detail inserts and
        the stock movements with sign +1. */
    method RunCreate(h: Header, items: seq<Item>, usuarioId: int, failAt: Option<nat>) returns (id: int, failure: Option<Failure>)
      modifies this
      ensures failure.None? <==> !FailsIn(failAt, 0, 1 + |DetailLines(old(nextId), items)| + 2 * |Grouped(items)|)
      ensures failure.Some? ==> failure.value == DatabaseError
      ensures failure.None? ==> id == old(nextId) && nextId == id + 1
                                && Snapshot() == CreateTables(old(Snapshot()), id, h, items, usuarioId)
      ensures old(nextId) <= nextId
    {
      var total := ComputeTotal(items);
      id := nextId;
      // INSERT INTO compras
      if FailsAt(failAt, 0) {
        return id, Some(DatabaseError);
      }
      nextId := nextId + 1;
      compras := compras[id := Purchase(h.proveedorId, h.bodegaId, h.fechaCompra, total, NotasValue(h.notas), usuarioId, None)];
      ghost var lines := 1 + |DetailLines(id, items)|;
      var ok, n := InsertDetails(id, items, failAt, 1);
      if !ok {
        return id, Some(DatabaseError);
      }
      ok, n := MoveStockAndKardex(h.bodegaId, items, 1, id, usuarioId, failAt, n);
      FailsInSplit(failAt, 0, lines, lines + 2 * |Grouped(items)|);
      if !ok {
        return id, Some(DatabaseError);
      }
      failure := None;
    }

    /** `POST /:id`: run the statements of the `try` block; on the first
        failure roll everything back (the `catch`), otherwise commit. A
        missing document fails before any write. */
    method Update(d: int, h: Header, items: seq<Item>, usuarioId: int, failAt: Option<nat>) returns (r: Result<int, Failure>)
      requires Valid()
      modifies this
      ensures Valid() && nextId == old(nextId)
      ensures r.Ok? <==> d in old(compras) && !FailsIn(failAt, 0, UpdateStatements(old(Snapshot()), d, items))
      ensures r.Ok? ==> r.value == d && d in old(compras)
                        && Snapshot() == UpdateTables(old(Snapshot()), d, h, items, usuarioId)
      ensures r.Err? ==> Snapshot() == old(Snapshot())
      ensures r.Err? && d in old(compras) ==> r.error == DatabaseError
      ensures d !in old(compras) && !FailsIn(failAt, 0, 2) ==> r == Err(MissingPurchase)
    {
      var saved := Snapshot();
      var failure := RunUpdate(d, h, items, usuarioId, failAt);
      if failure.Some? {
        Rollback(saved);
        r := Err(failure.value);
        return;
      }
      r := Ok(d);
      UpdateKeepsValid(saved, d, h, items, usuarioId, nextId);
    }

    /** The `try` block of `POST /:id`, up to the first statement that fails:
        the two selects, the reversal and the rewrite. */
    method RunUpdate(d: int, h: Header, items: seq<Item>, usuarioId: int, failAt: Option<nat>)
      returns (failure: Option<Failure>)
      modifies this`compras, this`detalles, this`stock, this`kardex
      ensures failure.None? <==> d in old(compras) && !FailsIn(failAt, 0, UpdateStatements(old(Snapshot()), d, items))
      ensures failure.None? ==> d in old(compras) && Snapshot() == UpdateTables(old(Snapshot()), d, h, items, usuarioId)
      ensures failure.Some? && d in old(compras) ==> failure.value == DatabaseError
      ensures d !in old(compras) && !FailsIn(failAt, 0, 2) ==> failure == Some(MissingPurchase)
    {
      ghost var statements := UpdateStatements(Snapshot(), d, items);
      // SELECT bodega_id FROM compras WHERE id=?
      if FailsAt(failAt, 0) {
        assert FailsIn(failAt, 0, statements);
        return Some(DatabaseError);
      }
      var found := d in compras;
      // SELECT producto_id, cantidad FROM compras_detalles WHERE compra_id=?
      if FailsAt(failAt, 1) {
        assert FailsIn(failAt, 0, statements);
        return Some(DatabaseError);
      }
      var detActuales := LineItems(LinesOf(detalles, d));
      if !found {
        // `compraActual.bodega_id` of an undefined row throws
        return Some(MissingPurchase);
      }
      var compraActual := compras[d];
      ghost var reverted := 3 + 2 * |Grouped(detActuales)|;
      assert statements == reverted + 2 + |DetailLines(d, items)| + 2 * |Grouped(items)|;
      var ok, n := Revert(d, compraActual.bodegaId, detActuales, usuarioId, failAt);
      FailsInSplit(failAt, 0, 2, reverted);
      FailsInSplit(failAt, 0, reverted, statements);
      if !ok {
        return Some(DatabaseError);
      }
      ok, n := Rewrite(d, h, items, compraActual.usuarioCreaId, usuarioId, failAt, n);
      if !ok {
        return Some(DatabaseError);
      }
      failure := None;
    }

    /** The reversal phase of `POST /:id`: `moverStockYkardex` over the stored
        lines `stored` with sign -1 at the stored warehouse `b` (statements from
        2 on), then the delete of every purchase kardex row of the document,
        including the reversal rows just written. */
    method Revert(d: int, b: int, stored: seq<Item>, usuarioId: int, failAt: Option<nat>) returns (ok: bool, n: nat)
      requires d in compras && b == compras[d].bodegaId && stored == LineItems(LinesOf(detalles, d))
      modifies this`stock, this`kardex
      ensures ok <==> !FailsIn(failAt, 2, 3 + 2 * |Grouped(stored)|)
      ensures ok ==> n == 3 + 2 * |Grouped(stored)|
      ensures ok ==> Snapshot() == RevertTables(old(Snapshot()), d, usuarioId)
    {
      ok, n := MoveStockAndKardex(b, stored, -1, d, usuarioId, failAt, 2);
      if !ok {
        return;
      }
      // DELETE FROM product_inventario WHERE referencia='compras' AND motivo='COMPRA' AND referencia_id=?
      if FailsAt(failAt, n) {
        ok := false;
        return;
      }
      kardex := DeleteTagged(kardex, d);
      n := n + 1;
    }

    /** The rewrite phase of `POST /:id`, from statement `n0`: the header
        update with the new total and `usuario_mod_id`, the delete of the old
        lines, the insert of the new ones, and `moverStockYkardex` over the new
        items with sign +1 at the new warehouse. */
    method Rewrite(d: int, h: Header, items: seq<Item>, usuarioCreaId: int, usuarioId: int,
                   failAt: Option<nat>, n0: nat) returns (ok: bool, n: nat)
      modifies this`compras, this`detalles, this`stock, this`kardex
      ensures ok <==> !FailsIn(failAt, n0, n0 + 2 + |DetailLines(d, items)| + 2 * |Grouped(items)|)
      ensures ok ==> Snapshot() == RewriteTables(old(Snapshot()), d, h, items, usuarioCreaId, usuarioId)
    {
      var total := ComputeTotal(items);
      // UPDATE compras SET ...
      if FailsAt(failAt, n0) {
        return false, n0;
      }
      compras := compras[d := Purchase(h.proveedorId, h.bodegaId, h.fechaCompra, total, NotasValue(h.notas),
                                       usuarioCreaId, Some(usuarioId))];
      // DELETE FROM compras_detalles WHERE compra_id=?
      if FailsAt(failAt, n0 + 1) {
        return false, n0 + 1;
      }
      detalles := DeleteLines(detalles, d);
      ok, n := InsertDetails(d, items, failAt, n0 + 2);
      if !ok {
        return;
      }
      ok, n := MoveStockAndKardex(h.bodegaId, items, 1, d, usuarioId, failAt, n);
    }
  }
}
