/**
 * The stock ledger behind `moverStockYkardex`: the aggregate table
 * `product_stock` ((product, warehouse) -> quantity) and the movement log
 * `product_inventario` (the kardex), and what one application of grouped
 * entries with a sign does to each.
 */
module Ledger {
  import opened Wrappers
  import opened Grouping

  datatype Direction = Entrada | Salida

  /** One kardex row of `product_inventario`. */
  datatype Movement = Movement(
    productId: int,
    bodegaId: int,
    movimiento: Direction,
    cantidad: real,
    motivo: string,
    referencia: string,
    referenciaId: int,
    usuarioId: int)

  const MotivoCompra: string := "COMPRA"
  const ReferenciaCompras: string := "compras"

  /** `product_stock`, keyed by (product_id, bodega_id). */
  type Stock = map<(int, int), real>

  /** Stock of a pair; a pair with no row holds nothing. */
  function StockAt(s: Stock, p: int, w: int): real
  {
    if (p, w) in s then s[(p, w)] else 0.0
  }

  function Abs(x: real): real
  {
    if x < 0.0 then -x else x
  }

  /** `INSERT ... ON DUPLICATE KEY UPDATE cantidad = cantidad + VALUES(cantidad)`. */
  function Upsert(s: Stock, p: int, w: int, delta: real): Stock
  {
    s[(p, w) := StockAt(s, p, w) + delta]
  }

  /** The stock change one grouped entry makes: `signo` times its quantity. */
  function Scaled(a: Agg, signo: int): real
  {
    signo as real * a.cantidad
  }

  /** The stock after applying `signo` times each grouped entry at warehouse `b`, one after another. */
  function ApplyStock(s: Stock, g: seq<Agg>, b: int, signo: int): Stock
  {
    if g == [] then s
    else
      var a := g[|g| - 1];
      Upsert(ApplyStock(s, g[..|g| - 1], b, signo), a.productId, b, Scaled(a, signo))
  }

  /** The total change `signo` times the entries make to product `p`'s stock at one warehouse. */
  function Delta(g: seq<Agg>, signo: int, p: int): real
  {
    if g == [] then 0.0
    else Delta(g[..|g| - 1], signo, p) + (if g[|g| - 1].productId == p then Scaled(g[|g| - 1], signo) else 0.0)
  }

  /** The kardex row written for one grouped entry: direction from the sign argument, magnitude |signo * quantity|. */
  function KardexRow(a: Agg, b: int, signo: int, compraId: int, usuarioId: int): Movement
  {
    Movement(a.productId, b, if signo > 0 then Entrada else Salida,
             Abs(Scaled(a, signo)), MotivoCompra, ReferenciaCompras, compraId, usuarioId)
  }

  /** The kardex rows appended by one application, in the order of the grouped entries. */
  function Movements(g: seq<Agg>, b: int, signo: int, compraId: int, usuarioId: int): seq<Movement>
  {
    if g == [] then []
    else Movements(g[..|g| - 1], b, signo, compraId, usuarioId) + [KardexRow(g[|g| - 1], b, signo, compraId, usuarioId)]
  }

  /** A row's contribution to the running balance: inbound counts up, outbound down. */
  function Signed(m: Movement): real
  {
    if m.movimiento == Entrada then m.cantidad else -m.cantidad
  }

  /** Signed sum of the kardex rows of pair (p, w). */
  function Balance(k: seq<Movement>, p: int, w: int): real
  {
    if k == [] then 0.0
    else
      var m := k[|k| - 1];
      Balance(k[..|k| - 1], p, w) + (if m.productId == p && m.bodegaId == w then Signed(m) else 0.0)
  }

  /** How far the aggregate stock of (p, w) is from its kardex balance. */
  function Drift(s: Stock, k: seq<Movement>, p: int, w: int): real
  {
    StockAt(s, p, w) - Balance(k, p, w)
  }

  /** A row written by the purchase flow for document `d`. */
  predicate IsTagged(m: Movement, d: int)
  {
    m.motivo == MotivoCompra && m.referencia == ReferenciaCompras && m.referenciaId == d
  }

  /** `DELETE FROM product_inventario WHERE referencia='compras' AND motivo='COMPRA' AND referencia_id=d`. */
  function DeleteTagged(k: seq<Movement>, d: int): seq<Movement>
  {
    if k == [] then []
    else DeleteTagged(k[..|k| - 1], d) + (if IsTagged(k[|k| - 1], d) then [] else [k[|k| - 1]])
  }

  /** The rows that the delete above removes. */
  function TaggedRows(k: seq<Movement>, d: int): seq<Movement>
  {
    if k == [] then []
    else TaggedRows(k[..|k| - 1], d) + (if IsTagged(k[|k| - 1], d) then [k[|k| - 1]] else [])
  }

  /** One more entry applied: the application to a longer prefix is one more upsert and one more row. */
  lemma ApplicationStep(s: Stock, g: seq<Agg>, k: nat, b: int, signo: int, d: int, u: int)
    requires k < |g|
    ensures ApplyStock(s, g[..k + 1], b, signo)
            == Upsert(ApplyStock(s, g[..k], b, signo), g[k].productId, b, Scaled(g[k], signo))
    ensures Movements(g[..k + 1], b, signo, d, u) == Movements(g[..k], b, signo, d, u) + [KardexRow(g[k], b, signo, d, u)]
  {
    var h := g[..k + 1];
    assert h[..|h| - 1] == g[..k];
    assert h[|h| - 1] == g[k];
  }

  /** Applying entries with a sign moves stock at warehouse `b` by exactly
      `signo` times each product's quantity and leaves every other pair as it was. */
  lemma {:induction false} ApplyStockAt(s: Stock, g: seq<Agg>, b: int, signo: int, p: int, w: int)
    ensures StockAt(ApplyStock(s, g, b, signo), p, w)
            == StockAt(s, p, w) + (if w == b then signo as real * QtyOf(g, p) else 0.0)
  {
    ApplyStockDelta(s, g, b, signo, p, w);
    DeltaIsScaled(g, signo, p);
  }

  lemma {:induction false} ApplyStockDelta(s: Stock, g: seq<Agg>, b: int, signo: int, p: int, w: int)
    ensures StockAt(ApplyStock(s, g, b, signo), p, w)
            == StockAt(s, p, w) + (if w == b then Delta(g, signo, p) else 0.0)
  {
    if g != [] {
      ApplyStockDelta(s, g[..|g| - 1], b, signo, p, w);
    }
  }

  lemma {:induction false} DeltaIsScaled(g: seq<Agg>, signo: int, p: int)
    ensures Delta(g, signo, p) == signo as real * QtyOf(g, p)
  {
    if g != [] {
      var a := g[|g| - 1];
      DeltaIsScaled(g[..|g| - 1], signo, p);
      Distribute(signo as real, QtyOf(g[..|g| - 1], p), if a.productId == p then a.cantidad else 0.0);
    }
  }

  /** A row exists after an application exactly when it existed before or the
      application touched that product at warehouse `b` (the upsert creates it). */
  lemma {:induction false} ApplyStockRows(s: Stock, g: seq<Agg>, b: int, signo: int, p: int, w: int)
    ensures (p, w) in ApplyStock(s, g, b, signo) <==> (p, w) in s || (w == b && p in Ids(g))
  {
    if g != [] {
      var init := g[..|g| - 1];
      var a := g[|g| - 1];
      ApplyStockRows(s, init, b, signo, p, w);
      assert Ids(g) == Ids(init) + {a.productId} by {
        assert g == init + [a];
        assert forall x :: x in g <==> x in init || x == a;
      }
    }
  }

  lemma Distribute(x: real, q: real, c: real)
    ensures x * (q + c) == x * q + x * c
  {
  }

  /** One row per grouped entry, in order, each carrying the entry's product,
      the warehouse, ENTRADA exactly when `signo > 0`, magnitude
      |signo * quantity| and the tags COMPRA / compras / `compraId` / user. */
  lemma {:induction false} MovementsRows(g: seq<Agg>, b: int, signo: int, compraId: int, usuarioId: int)
    ensures |Movements(g, b, signo, compraId, usuarioId)| == |g|
    ensures forall i :: 0 <= i < |g| ==>
      var m := Movements(g, b, signo, compraId, usuarioId)[i];
      && m.productId == g[i].productId
      && m.bodegaId == b
      && (m.movimiento == Entrada <==> signo > 0)
      && m.cantidad == Abs(Scaled(g[i], signo))
      && IsTagged(m, compraId)
      && m.usuarioId == usuarioId
  {
    if g != [] {
      MovementsRows(g[..|g| - 1], b, signo, compraId, usuarioId);
    }
  }

  lemma {:induction false} BalanceAppend(a: seq<Movement>, c: seq<Movement>, p: int, w: int)
    ensures Balance(a + c, p, w) == Balance(a, p, w) + Balance(c, p, w)
  {
    if c != [] {
      assert (a + c)[..|a + c| - 1] == a + c[..|c| - 1];
      assert (a + c)[|a + c| - 1] == c[|c| - 1];
      BalanceAppend(a, c[..|c| - 1], p, w);
    } else {
      assert a + c == a;
    }
  }

  lemma {:induction false} DeleteTaggedAppend(a: seq<Movement>, c: seq<Movement>, d: int)
    ensures DeleteTagged(a + c, d) == DeleteTagged(a, d) + DeleteTagged(c, d)
    ensures TaggedRows(a + c, d) == TaggedRows(a, d) + TaggedRows(c, d)
  {
    if c != [] {
      assert (a + c)[..|a + c| - 1] == a + c[..|c| - 1];
      assert (a + c)[|a + c| - 1] == c[|c| - 1];
      DeleteTaggedAppend(a, c[..|c| - 1], d);
    } else {
      assert a + c == a;
    }
  }

  /** The delete splits the balance: what stays plus what is removed is the whole. */
  lemma {:induction false} BalanceSplit(k: seq<Movement>, d: int, p: int, w: int)
    ensures Balance(k, p, w) == Balance(DeleteTagged(k, d), p, w) + Balance(TaggedRows(k, d), p, w)
  {
    if k != [] {
      var init := k[..|k| - 1];
      var m := k[|k| - 1];
      BalanceSplit(init, d, p, w);
      assert [m][..0] == [];
      if IsTagged(m, d) {
        assert DeleteTagged(k, d) == DeleteTagged(init, d) + [];
        assert DeleteTagged(init, d) + [] == DeleteTagged(init, d);
        BalanceAppend(TaggedRows(init, d), [m], p, w);
      } else {
        assert TaggedRows(k, d) == TaggedRows(init, d) + [];
        assert TaggedRows(init, d) + [] == TaggedRows(init, d);
        BalanceAppend(DeleteTagged(init, d), [m], p, w);
      }
    }
  }

  /** Every row of one application is tagged with its document: the delete
      for that document removes them all, the delete for another keeps them all. */
  lemma {:induction false} MovementsTagged(g: seq<Agg>, b: int, signo: int, d: int, u: int, e: int)
    ensures TaggedRows(Movements(g, b, signo, d, u), e) == if e == d then Movements(g, b, signo, d, u) else []
    ensures DeleteTagged(Movements(g, b, signo, d, u), e) == if e == d then [] else Movements(g, b, signo, d, u)
  {
    if g != [] {
      MovementsTagged(g[..|g| - 1], b, signo, d, u, e);
    }
  }

  /** Deleting one document's rows does not touch another document's rows,
      and leaves none of its own. */
  lemma {:induction false} TaggedAfterDelete(k: seq<Movement>, d: int, e: int)
    ensures TaggedRows(DeleteTagged(k, d), e) == if e == d then [] else TaggedRows(k, e)
  {
    if k != [] {
      var init := k[..|k| - 1];
      var m := k[|k| - 1];
      TaggedAfterDelete(init, d, e);
      DeleteTaggedAppend(DeleteTagged(init, d), if IsTagged(m, d) then [] else [m], e);
    }
  }

  /** A log with no row of document `d` has nothing for the delete to remove. */
  lemma {:induction false} TaggedRowsEmpty(k: seq<Movement>, d: int)
    requires forall i :: 0 <= i < |k| ==> !IsTagged(k[i], d)
    ensures TaggedRows(k, d) == []
    ensures DeleteTagged(k, d) == k
  {
    if k != [] {
      var init, last := k[..|k| - 1], k[|k| - 1];
      assert forall i :: 0 <= i < |init| ==> init[i] == k[i];
      TaggedRowsEmpty(init, d);
      assert TaggedRows(k, d) == TaggedRows(init, d) + [];
      assert DeleteTagged(k, d) == DeleteTagged(init, d) + [last];
      assert init + [last] == k;
    }
  }

  /** The delete removes exactly the purchase rows of `d`: whatever remains
      was in the log and is not one of them, and every other row remains. */
  lemma {:induction false} DeleteTaggedSubset(k: seq<Movement>, d: int)
    ensures forall m :: m in DeleteTagged(k, d) ==> m in k && !IsTagged(m, d)
    ensures forall m :: m in k && !IsTagged(m, d) ==> m in DeleteTagged(k, d)
  {
    if k != [] {
      var init, last := k[..|k| - 1], k[|k| - 1];
      DeleteTaggedSubset(init, d);
      assert k == init + [last];
      assert forall m :: m in init ==> m in k;
      assert forall m :: m in k ==> m in init || m == last;
    }
  }

  /** Running the same delete twice removes nothing more. */
  lemma DeleteTaggedTwice(k: seq<Movement>, d: int)
    ensures DeleteTagged(DeleteTagged(k, d), d) == DeleteTagged(k, d)
  {
    var kept := DeleteTagged(k, d);
    DeleteTaggedSubset(k, d);
    forall i | 0 <= i < |kept|
      ensures !IsTagged(kept[i], d)
    {
      assert kept[i] in kept;
    }
    TaggedRowsEmpty(kept, d);
  }

  /** Each row an application writes is a purchase row of its document. */
  lemma MovementsMembers(g: seq<Agg>, b: int, signo: int, d: int, u: int)
    ensures forall m :: m in Movements(g, b, signo, d, u) ==> IsTagged(m, d)
  {
    MovementsRows(g, b, signo, d, u);
    forall m | m in Movements(g, b, signo, d, u)
      ensures IsTagged(m, d)
    {
      var i :| 0 <= i < |Movements(g, b, signo, d, u)| && Movements(g, b, signo, d, u)[i] == m;
    }
  }

  /** With non-negative quantities the rows of one application add up, at
      (p, w), to exactly the stock change that application makes. */
  lemma BalanceMovements(g: seq<Agg>, b: int, signo: int, d: int, u: int, p: int, w: int)
    requires forall i :: 0 <= i < |g| ==> g[i].cantidad >= 0.0
    ensures Balance(Movements(g, b, signo, d, u), p, w)
            == (if w == b then signo as real * QtyOf(g, p) else 0.0)
  {
    BalanceMovementsDelta(g, b, signo, d, u, p, w);
    DeltaIsScaled(g, signo, p);
  }

  lemma {:induction false} BalanceMovementsDelta(g: seq<Agg>, b: int, signo: int, d: int, u: int, p: int, w: int)
    requires forall i :: 0 <= i < |g| ==> g[i].cantidad >= 0.0
    ensures Balance(Movements(g, b, signo, d, u), p, w) == (if w == b then Delta(g, signo, p) else 0.0)
  {
    if g != [] {
      var init := g[..|g| - 1];
      var a := g[|g| - 1];
      BalanceMovementsDelta(init, b, signo, d, u, p, w);
      BalanceAppend(Movements(init, b, signo, d, u), [KardexRow(a, b, signo, d, u)], p, w);
      RowBalance(a, b, signo, d, u, p, w);
    }
  }

  /** The balance of a single row equals the stock change of its entry when the quantity is non-negative. */
  lemma RowBalance(a: Agg, b: int, signo: int, d: int, u: int, p: int, w: int)
    requires a.cantidad >= 0.0
    ensures Balance([KardexRow(a, b, signo, d, u)], p, w)
            == (if w == b && a.productId == p then Scaled(a, signo) else 0.0)
  {
    var m := KardexRow(a, b, signo, d, u);
    assert [m][..0] == [];
    SignOfProduct(signo, a.cantidad);
  }

  lemma SignOfProduct(signo: int, c: real)
    requires c >= 0.0
    ensures signo > 0 ==> signo as real * c >= 0.0
    ensures signo <= 0 ==> signo as real * c <= 0.0
  {
  }

  /** `moverStockYkardex` keeps stock and kardex in step: when every grouped
      quantity is non-negative, the drift of every pair is unchanged. */
  lemma MoveKeepsDrift(s: Stock, k: seq<Movement>, items: seq<Item>, b: int, signo: int, d: int, u: int, p: int, w: int)
    requires NonNegativeGroups(items)
    ensures Drift(ApplyStock(s, Grouped(items), b, signo), k + Movements(Grouped(items), b, signo, d, u), p, w)
            == Drift(s, k, p, w)
  {
    var g := Grouped(items);
    ApplyStockAt(s, g, b, signo, p, w);
    BalanceAppend(k, Movements(g, b, signo, d, u), p, w);
    BalanceMovements(g, b, signo, d, u, p, w);
  }

  /** As written, the direction follows the sign argument and not the sign
      of the quantity: a negative quantity applied with +1 lowers stock by 5
      yet records an inbound row of 5, so stock and kardex drift apart by 10. */
  lemma NegativeQuantityRecordsEntrada()
    ensures var items := [Item(Some(7), -5.0, 1.0)];
      && Grouped(items) == [Agg(7, -5.0)]
      && StockAt(ApplyStock(map[], Grouped(items), 1, 1), 7, 1) == -5.0
      && Movements(Grouped(items), 1, 1, 10, 2) == [Movement(7, 1, Entrada, 5.0, MotivoCompra, ReferenciaCompras, 10, 2)]
      && Drift(ApplyStock(map[], Grouped(items), 1, 1), Movements(Grouped(items), 1, 1, 10, 2), 7, 1) == -10.0
  {
    var items := [Item(Some(7), -5.0, 1.0)];
    assert items[..0] == [];
    assert Order(items) == [7];
    assert Grouped(items) == [Agg(7, -5.0)];
    var g := [Agg(7, -5.0)];
    assert g[..0] == [];
    var m := [Movement(7, 1, Entrada, 5.0, MotivoCompra, ReferenciaCompras, 10, 2)];
    assert m[..0] == [];
    ApplyStockDelta(map[], g, 1, 1, 7, 1);
    assert Delta(g, 1, 7) == -5.0;
    assert Balance(m, 7, 1) == 5.0;
  }

  /** Two lines of the same product become one entry and one kardex row
      carrying their sum. */
  lemma RepeatedProductOneRow()
    ensures var items := [Item(Some(7), 2.0, 1.0), Item(Some(7), 3.0, 1.0)];
      && Grouped(items) == [Agg(7, 5.0)]
      && Movements(Grouped(items), 1, 1, 10, 2) == [Movement(7, 1, Entrada, 5.0, MotivoCompra, ReferenciaCompras, 10, 2)]
  {
    var items := [Item(Some(7), 2.0, 1.0), Item(Some(7), 3.0, 1.0)];
    assert items[..1] == [items[0]];
    assert items[..1][..0] == [];
    assert Order(items) == [7];
    assert SumFor(items, 7) == 5.0;
    var g := [Agg(7, 5.0)];
    assert Grouped(items) == g;
    assert g[..0] == [];
  }

  /** Items of one product whose quantities cancel still produce an entry with
      sum 0, and so a kardex row of magnitude 0. */
  lemma CancellingQuantitiesStillWriteRow()
    ensures var items := [Item(Some(7), 2.0, 1.0), Item(Some(7), -2.0, 1.0)];
      && Grouped(items) == [Agg(7, 0.0)]
      && Movements(Grouped(items), 1, 1, 10, 2) == [Movement(7, 1, Entrada, 0.0, MotivoCompra, ReferenciaCompras, 10, 2)]
  {
    var items := [Item(Some(7), 2.0, 1.0), Item(Some(7), -2.0, 1.0)];
    assert items[..1] == [items[0]];
    assert items[..1][..0] == [];
    assert Order(items) == [7];
    assert SumFor(items, 7) == 0.0;
    assert Grouped(items) == [Agg(7, 0.0)];
    var g := [Agg(7, 0.0)];
    assert g[..0] == [];
  }

  /** Lines of mixed sign whose per-product sum is non-negative keep stock and
      kardex in step: +3 and -1 become one inbound row of 2. */
  lemma MixedSignsKeepDrift()
    ensures var items := [Item(Some(7), 3.0, 1.0), Item(Some(7), -1.0, 1.0)];
      && !NonNegative(items)
      && NonNegativeGroups(items)
      && Grouped(items) == [Agg(7, 2.0)]
      && Movements(Grouped(items), 1, 1, 10, 2) == [Movement(7, 1, Entrada, 2.0, MotivoCompra, ReferenciaCompras, 10, 2)]
      && Drift(ApplyStock(map[], Grouped(items), 1, 1), Movements(Grouped(items), 1, 1, 10, 2), 7, 1) == 0.0
  {
    var items := [Item(Some(7), 3.0, 1.0), Item(Some(7), -1.0, 1.0)];
    assert items[1].cantidad < 0.0;
    assert items[..1] == [items[0]];
    assert items[..1][..0] == [];
    assert Order(items) == [7];
    assert SumFor(items, 7) == 2.0;
    var g := [Agg(7, 2.0)];
    assert Grouped(items) == g;
    assert g[..0] == [];
    MoveKeepsDrift(map[], [], items, 1, 1, 10, 2, 7, 1);
    assert Drift(map[], [], 7, 1) == 0.0;
  }
}
