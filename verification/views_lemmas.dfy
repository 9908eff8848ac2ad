/** What the create handlers guarantee, proved about the model in `Views`:
    exactly which requests they accept, what a committed sale or purchase does
    to the stock and which lines it records, and that nothing survives a
    refusal. */
module HandlerProperties {
  import opened Common
  import opened Ledger
  import opened Views

  // ---------------------------------------------------------------------------
  // Sales

  lemma {:induction false} SaleDemandNonNegative(items: seq<SaleRequestItem>, p: ProductId)
    requires forall i | 0 <= i < |items| :: items[i].cantidad >= 0
    ensures SaleDemand(items, p) >= 0
  {
    if items != [] {
      assert forall i | 0 <= i < |items[1..]| :: items[1..][i] == items[i + 1];
      SaleDemandNonNegative(items[1..], p);
    }
  }

  /** Sale lines depend on the products only through their prices. */
  lemma {:induction false} SaleLinesSamePrices(a: map<ProductId, Producto>, b: map<ProductId, Producto>, items: seq<SaleRequestItem>)
    requires a.Keys == b.Keys
    requires forall p | p in a :: a[p].precio == b[p].precio
    requires forall i | 0 <= i < |items| :: items[i].producto in a && items[i].cantidad >= 0
    ensures SaleLines(a, items) == SaleLines(b, items)
  {
    if items != [] {
      assert forall i | 0 <= i < |items[1..]| :: items[1..][i] == items[i + 1];
      SaleLinesSamePrices(a, b, items[1..]);
    }
  }

  /** After one successful pass of the loop, the rest of the request is
      admissible against the new stock exactly when the whole request was
      admissible against the old one. */
  lemma SaleAdmissibleAfterStep(db: Db, v: nat, items: seq<SaleRequestItem>)
    requires v < |db.ventas| && items != []
    requires SaleStep(db, v, items[0]).Done?
    ensures SaleAdmissible(db.productos, items) <==> SaleAdmissible(SaleStep(db, v, items[0]).db.productos, items[1..])
  {
    var it := items[0];
    var rest := items[1..];
    var P := db.productos;
    var P1 := SaleStep(db, v, it).db.productos;
    assert forall i | 0 <= i < |rest| :: rest[i] == items[i + 1];
    assert forall p :: SaleDemand(items, p) == (if it.producto == p then it.cantidad else 0) + SaleDemand(rest, p);
    assert P1.Keys == P.Keys;
    assert forall p | p in P :: P1[p].stock == P[p].stock - (if it.producto == p then it.cantidad else 0);
    if SaleAdmissible(P1, rest) {
      forall i | 0 <= i < |items|
        ensures items[i].producto in P && items[i].cantidad >= 0
      {
        if i > 0 {
          assert items[i] == rest[i - 1];
        }
      }
    }
  }

  /** The sale loop succeeds exactly on admissible requests. */
  lemma {:induction false} SaleLoopAcceptsIff(db: Db, v: nat, items: seq<SaleRequestItem>)
    requires v < |db.ventas|
    ensures SaleLoop(db, v, items).Done? <==> SaleAdmissible(db.productos, items)
    decreases |items|
  {
    if items != [] {
      var it := items[0];
      var rest := items[1..];
      var s := SaleStep(db, v, it);
      if s.Fail? {
        if SaleAdmissible(db.productos, items) {
          assert forall i | 0 <= i < |rest| :: rest[i] == items[i + 1];
          SaleDemandNonNegative(rest, it.producto);
          assert false;
        }
      } else {
        SaleAdmissibleAfterStep(db, v, items);
        SaleLoopAcceptsIff(s.db, v, rest);
      }
    }
  }

  /** A successful sale loop lowers every product's stock by exactly the
      quantity requested of it and changes nothing else about products. */
  lemma {:induction false} SaleLoopStock(db: Db, v: nat, items: seq<SaleRequestItem>)
    requires v < |db.ventas|
    requires SaleLoop(db, v, items).Done?
    ensures
      var db' := SaleLoop(db, v, items).db;
      && db'.productos.Keys == db.productos.Keys
      && (forall p | p in db.productos ::
            && db'.productos[p].stock + SaleDemand(items, p) == db.productos[p].stock
            && db'.productos[p].nombre == db.productos[p].nombre
            && db'.productos[p].precio == db.productos[p].precio)
    decreases |items|
  {
    if items != [] {
      var it := items[0];
      var rest := items[1..];
      var db1 := SaleStep(db, v, it).db;
      SaleLoopStock(db1, v, rest);
      var db' := SaleLoop(db, v, items).db;
      forall p | p in db.productos
        ensures db'.productos[p].stock + SaleDemand(items, p) == db.productos[p].stock
      {
        assert SaleDemand(items, p) == (if it.producto == p then it.cantidad else 0) + SaleDemand(rest, p);
      }
    }
  }

  /** A successful sale loop appends one line per item, in order, priced from
      the products as they were before the loop, keeps the sale's total equal
      to the sum of its lines' subtotals, and touches no other row. */
  lemma {:induction false} SaleLoopRows(db: Db, v: nat, items: seq<SaleRequestItem>)
    requires v < |db.ventas|
    requires SaleLoop(db, v, items).Done?
    ensures forall i | 0 <= i < |items| :: items[i].producto in db.productos && items[i].cantidad >= 0
    ensures SaleLoop(db, v, items).db.compras == db.compras
    ensures |SaleLoop(db, v, items).db.ventas| == |db.ventas|
    ensures forall j | 0 <= j < |db.ventas| && j != v :: SaleLoop(db, v, items).db.ventas[j] == db.ventas[j]
    ensures SaleLoop(db, v, items).db.ventas[v].items == db.ventas[v].items + SaleLines(db.productos, items)
    ensures items != [] ==> SaleLoop(db, v, items).db.ventas[v].total == SumVenta(SaleLoop(db, v, items).db.ventas[v].items)
    ensures items == [] ==> SaleLoop(db, v, items).db.ventas[v] == db.ventas[v]
    decreases |items|
  {
    SaleLoopAcceptsIff(db, v, items);
    if items == [] {
      assert SaleLines(db.productos, items) == [];
    } else {
      var it := items[0];
      var rest := items[1..];
      assert forall i | 0 <= i < |rest| :: rest[i] == items[i + 1];
      var db1 := SaleStep(db, v, it).db;
      assert SaleLoop(db, v, items) == SaleLoop(db1, v, rest);
      SaleLoopRows(db1, v, rest);
      var db' := SaleLoop(db1, v, rest).db;
      assert db1.productos.Keys == db.productos.Keys;
      assert forall p | p in db.productos :: db1.productos[p].precio == db.productos[p].precio;
      SaleLinesSamePrices(db1.productos, db.productos, rest);
      var A := db.ventas[v].items;
      var L1 := SaleLines(db.productos, [it]);
      var L2 := SaleLines(db.productos, rest);
      assert SaleLines(db.productos, items) == L1 + L2;
      assert db'.ventas[v].items == (A + L1) + L2;
      assert (A + L1) + L2 == A + (L1 + L2);
    }
  }

  /** The sale handler accepts a request exactly when every product exists,
      no quantity is negative and no product is asked for more than its stock
      in total. Repeated lines for one product are therefore checked
      cumulatively. */
  lemma VentaAcceptedIff(db: Db, items: seq<SaleRequestItem>)
    ensures CreateVenta(db, items).1.Created? <==> SaleAdmissible(db.productos, items)
  {
    var db0 := db.(ventas := db.ventas + [Venta([], 0)]);
    SaleLoopAcceptsIff(db0, |db.ventas|, items);
  }

  /** A committed sale: every product's stock drops by exactly the quantity
      requested of it (so products not mentioned keep theirs and none goes
      below zero), names and prices are untouched, the new sale row is
      appended with one line per item, in order, priced at the product's
      current price, and its total is the sum of those lines' subtotals.
      Purchases are untouched. */
  lemma VentaCommitted(db: Db, items: seq<SaleRequestItem>)
    requires CreateVenta(db, items).1.Created?
    ensures SaleAdmissible(db.productos, items)
    ensures
      var (db', reply) := CreateVenta(db, items);
      && db'.productos.Keys == db.productos.Keys
      && (forall p | p in db.productos ::
            && db'.productos[p].stock == db.productos[p].stock - SaleDemand(items, p)
            && db'.productos[p].nombre == db.productos[p].nombre
            && db'.productos[p].precio == db.productos[p].precio)
      && db'.ventas == db.ventas + [reply.row]
      && db'.compras == db.compras
      && reply.row.items == SaleLines(db.productos, items)
      && reply.row.total == SumVenta(reply.row.items)
  {
    VentaAcceptedIff(db, items);
    var v := |db.ventas|;
    var db0 := db.(ventas := db.ventas + [Venta([], 0)]);
    var loop := SaleLoop(db0, v, items);
    assert CreateVenta(db, items) == (loop.db, Created(loop.db.ventas[v]));
    SaleLoopStock(db0, v, items);
    SaleLoopRows(db0, v, items);
    assert loop.db.ventas == db.ventas + [loop.db.ventas[v]];
  }

  /** A sale handler call keeps every sale and purchase consistent: line
      subtotals are quantity times price and totals are sums of subtotals. */
  lemma CreateVentaPreservesConsistency(db: Db, items: seq<SaleRequestItem>)
    requires Consistent(db)
    ensures Consistent(CreateVenta(db, items).0)
  {
    var (db', reply) := CreateVenta(db, items);
    if reply.Created? {
      VentaCommitted(db, items);
      var lines := SaleLines(db.productos, items);
      assert VentaConsistent(reply.row);
      forall j | 0 <= j < |db'.ventas|
        ensures VentaConsistent(db'.ventas[j])
      {
        if j < |db.ventas| {
          assert db'.ventas[j] == db.ventas[j];
        }
      }
    }
  }

  /** When every product is priced at 0.01 or more and every requested
      quantity is at least 1, the lines a committed sale records satisfy the
      validators declared on the line model. */
  lemma VentaLinesWithinDeclaredDomain(db: Db, items: seq<SaleRequestItem>)
    requires forall p | p in db.productos :: db.productos[p].precio >= 1
    requires forall i | 0 <= i < |items| :: items[i].cantidad >= 1
    requires CreateVenta(db, items).1.Created?
    ensures forall i | 0 <= i < |CreateVenta(db, items).1.row.items| :: DeclaredVentaDomain(CreateVenta(db, items).1.row.items[i])
  {
    VentaCommitted(db, items);
  }

  /** When every item names a known product with a non-negative quantity, a
      sale loop can only stop on a stock shortfall. */
  lemma {:induction false} SaleLoopFailsOnlyOnShortfall(db: Db, v: nat, items: seq<SaleRequestItem>)
    requires v < |db.ventas|
    requires forall i | 0 <= i < |items| :: items[i].producto in db.productos && items[i].cantidad >= 0
    ensures SaleLoop(db, v, items).Fail? ==> SaleLoop(db, v, items).fault.InsufficientStock?
    decreases |items|
  {
    if items != [] {
      var s := SaleStep(db, v, items[0]);
      if s.Done? {
        var rest := items[1..];
        assert forall i | 0 <= i < |rest| :: rest[i] == items[i + 1];
        assert SaleLoop(db, v, items) == SaleLoop(s.db, v, rest);
        SaleLoopFailsOnlyOnShortfall(s.db, v, rest);
      }
    }
  }

  /** When no quantity is negative and no known product is asked for more
      than its stock in total, a sale loop can only stop on an unknown
      product. */
  lemma {:induction false} SaleLoopFailsOnlyOnUnknown(db: Db, v: nat, items: seq<SaleRequestItem>)
    requires v < |db.ventas|
    requires forall i | 0 <= i < |items| :: items[i].cantidad >= 0
    requires forall p | p in db.productos :: SaleDemand(items, p) <= db.productos[p].stock
    ensures SaleLoop(db, v, items).Fail? ==> SaleLoop(db, v, items).fault.UnknownProduct?
    decreases |items|
  {
    if items != [] {
      var it := items[0];
      var rest := items[1..];
      assert forall i | 0 <= i < |rest| :: rest[i] == items[i + 1];
      if it.producto in db.productos {
        SaleDemandNonNegative(rest, it.producto);
        assert SaleDemand(items, it.producto) == it.cantidad + SaleDemand(rest, it.producto);
        var s := SaleStep(db, v, it);
        assert s.Done?;
        forall p | p in s.db.productos
          ensures SaleDemand(rest, p) <= s.db.productos[p].stock
        {
          assert SaleDemand(items, p) == (if it.producto == p then it.cantidad else 0) + SaleDemand(rest, p);
        }
        assert SaleLoop(db, v, items) == SaleLoop(s.db, v, rest);
        SaleLoopFailsOnlyOnUnknown(s.db, v, rest);
      }
    }
  }

  /** A sale naming only known products with non-negative quantities is
      refused, if at all, for a stock shortfall, with a 400. */
  lemma VentaRefusedWith400(db: Db, items: seq<SaleRequestItem>)
    requires forall i | 0 <= i < |items| :: items[i].producto in db.productos && items[i].cantidad >= 0
    ensures CreateVenta(db, items).1.Rejected? ==>
      && CreateVenta(db, items).1.status == 400
      && CreateVenta(db, items).1.fault.InsufficientStock?
  {
    var v := |db.ventas|;
    var db0 := db.(ventas := db.ventas + [Venta([], 0)]);
    SaleLoopFailsOnlyOnShortfall(db0, v, items);
  }

  /** A one-item request is admissible exactly when the product exists and
      its stock covers the non-negative quantity. */
  lemma SingleItemAdmissible(productos: map<ProductId, Producto>, it: SaleRequestItem)
    ensures SaleAdmissible(productos, [it]) <==>
      it.producto in productos && 0 <= it.cantidad <= productos[it.producto].stock
  {
    assert [it][1..] == [];
    if SaleAdmissible(productos, [it]) {
      assert [it][0] == it;
      assert SaleDemand([it], it.producto) == it.cantidad;
    }
    if it.producto in productos && 0 <= it.cantidad <= productos[it.producto].stock {
      forall p | p in productos
        ensures SaleDemand([it], p) <= productos[p].stock
      {
        assert SaleDemand([it], p) == if it.producto == p then it.cantidad else 0;
      }
    }
  }

  /** The loop stops at the first item at which the request stops being
      admissible, and that item alone decides the fault: a stock shortfall
      when it names a known product with a non-negative quantity, and an
      unknown product or a refused negative quantity otherwise. The items
      after it are never looked at. */
  lemma {:induction false} SaleLoopFirstFailure(db: Db, v: nat, items: seq<SaleRequestItem>, i: nat)
    requires v < |db.ventas| && i < |items|
    requires SaleAdmissible(db.productos, items[..i])
    requires !SaleAdmissible(db.productos, items[..i + 1])
    ensures SaleLoop(db, v, items).Fail?
    ensures SaleLoop(db, v, items).fault.InsufficientStock? <==>
      items[i].producto in db.productos && items[i].cantidad >= 0
    decreases i
  {
    var it := items[0];
    var s := SaleStep(db, v, it);
    if i == 0 {
      assert items[..1] == [it];
      SingleItemAdmissible(db.productos, it);
      assert s.Fail?;
      assert SaleLoop(db, v, items) == s;
    } else {
      var pre := items[..i];
      var rest := items[1..];
      assert pre[0] == it;
      assert pre[1..] == rest[..i - 1];
      assert items[..i + 1][1..] == rest[..i];
      assert forall k | 0 <= k < |pre[1..]| :: pre[1..][k].cantidad >= 0;
      SaleDemandNonNegative(pre[1..], it.producto);
      assert SaleDemand(pre, it.producto) == it.cantidad + SaleDemand(pre[1..], it.producto);
      assert s.Done?;
      SaleAdmissibleAfterStep(db, v, pre);
      SaleAdmissibleAfterStep(db, v, items[..i + 1]);
      assert SaleLoop(db, v, items) == SaleLoop(s.db, v, rest);
      SaleLoopFirstFailure(s.db, v, rest, i - 1);
      assert rest[i - 1] == items[i];
    }
  }

  /** Whatever comes after it, the first item that makes a sale request
      inadmissible decides the answer: 400 when that item names a known
      product with a non-negative quantity (so its stock, after the earlier
      lines, falls short), 500 otherwise; the database is unchanged. */
  lemma VentaFirstFaultDecidesStatus(db: Db, items: seq<SaleRequestItem>, i: nat)
    requires i < |items|
    requires SaleAdmissible(db.productos, items[..i])
    requires !SaleAdmissible(db.productos, items[..i + 1])
    ensures CreateVenta(db, items).1.Rejected?
    ensures CreateVenta(db, items).0 == db
    ensures CreateVenta(db, items).1.status == 400 <==>
      items[i].producto in db.productos && items[i].cantidad >= 0
  {
    var v := |db.ventas|;
    var db0 := db.(ventas := db.ventas + [Venta([], 0)]);
    SaleLoopFirstFailure(db0, v, items, i);
  }

  /** A sale whose quantities are non-negative and fit the stock but which
      names an unknown product is refused with a 500, never a 400: the
      `DoesNotExist` exception escapes the handler. */
  lemma VentaUnknownProductIs500(db: Db, items: seq<SaleRequestItem>, i: nat)
    requires i < |items| && items[i].producto !in db.productos
    requires forall j | 0 <= j < |items| :: items[j].cantidad >= 0
    requires forall p | p in db.productos :: SaleDemand(items, p) <= db.productos[p].stock
    ensures CreateVenta(db, items).1.Rejected?
    ensures CreateVenta(db, items).1.status == 500
    ensures CreateVenta(db, items).1.fault.UnknownProduct?
    ensures CreateVenta(db, items).0 == db
  {
    VentaAcceptedIff(db, items);
    var v := |db.ventas|;
    var db0 := db.(ventas := db.ventas + [Venta([], 0)]);
    SaleLoopFailsOnlyOnUnknown(db0, v, items);
  }

  /** The purchase counterpart of the declared-domain lemma: with purchase
      prices of at least 0.01 and quantities of at least 1 in the request,
      every recorded purchase line meets the declared validators. */
  lemma CompraLinesWithinDeclaredDomain(db: Db, items: seq<PurchaseRequestItem>)
    requires forall i | 0 <= i < |items| :: items[i].cantidad >= 1 && items[i].precioCompra >= 1
    requires CreateCompra(db, items).1.Created?
    ensures forall i | 0 <= i < |CreateCompra(db, items).1.row.items| :: DeclaredCompraDomain(CreateCompra(db, items).1.row.items[i])
  {
    CompraCommitted(db, items);
  }

  /** The declared minimum quantity is not enforced by the handler: a line of
      quantity 0 is recorded. */
  lemma ZeroQuantitySaleAccepted(nombre: string, precio: Cents)
    ensures
      var db := Db(map[7 := Producto(nombre, precio, 0)], [], []);
      var (db', reply) := CreateVenta(db, [SaleRequestItem(7, 0)]);
      && reply == Created(Venta([VentaItem(7, 0, precio, 0)], 0))
      && !DeclaredVentaDomain(reply.row.items[0])
  {
    var db := Db(map[7 := Producto(nombre, precio, 0)], [], []);
    var items := [SaleRequestItem(7, 0)];
    VentaAcceptedIff(db, items);
    assert SaleDemand(items, 7) == 0;
    VentaCommitted(db, items);
    var row := CreateVenta(db, items).1.row;
    assert row.items == [VentaItem(7, 0, precio, 0)];
    assert SumVenta(row.items) == 0;
  }

  // ---------------------------------------------------------------------------
  // Purchases

  /** The purchase loop succeeds exactly on admissible requests. */
  lemma {:induction false} PurchaseLoopAcceptsIff(db: Db, c: nat, items: seq<PurchaseRequestItem>)
    requires c < |db.compras|
    ensures PurchaseLoop(db, c, items).Done? <==> PurchaseAdmissible(db.productos, items)
    decreases |items|
  {
    if items != [] {
      var it := items[0];
      var rest := items[1..];
      var s := PurchaseStep(db, c, it);
      if s.Done? {
        assert PurchaseLoop(db, c, items) == PurchaseLoop(s.db, c, rest);
        PurchaseLoopAcceptsIff(s.db, c, rest);
        PurchaseAdmissibleAfterStep(db, c, items);
      }
    }
  }

  /** After one successful pass, the rest of a purchase request is admissible
      exactly when the whole of it was. */
  lemma PurchaseAdmissibleAfterStep(db: Db, c: nat, items: seq<PurchaseRequestItem>)
    requires c < |db.compras| && items != []
    requires PurchaseStep(db, c, items[0]).Done?
    ensures PurchaseAdmissible(db.productos, items) <==> PurchaseAdmissible(PurchaseStep(db, c, items[0]).db.productos, items[1..])
  {
    var rest := items[1..];
    var P := db.productos;
    var P1 := PurchaseStep(db, c, items[0]).db.productos;
    assert P1.Keys == P.Keys;
    assert forall i | 0 <= i < |rest| :: rest[i] == items[i + 1];
    if PurchaseAdmissible(P1, rest) {
      forall i | 0 <= i < |items|
        ensures items[i].producto in P && items[i].cantidad >= 0
      {
        if i > 0 {
          assert items[i] == rest[i - 1];
        }
      }
    }
  }

  /** A successful purchase loop raises every product's stock by exactly the
      quantity purchased of it and changes nothing else about products. */
  lemma {:induction false} PurchaseLoopStock(db: Db, c: nat, items: seq<PurchaseRequestItem>)
    requires c < |db.compras|
    requires PurchaseLoop(db, c, items).Done?
    ensures
      var db' := PurchaseLoop(db, c, items).db;
      && db'.productos.Keys == db.productos.Keys
      && (forall p | p in db.productos ::
            && db'.productos[p].stock == db.productos[p].stock + PurchaseDemand(items, p)
            && db'.productos[p].nombre == db.productos[p].nombre
            && db'.productos[p].precio == db.productos[p].precio)
    decreases |items|
  {
    if items != [] {
      var it := items[0];
      var rest := items[1..];
      var db1 := PurchaseStep(db, c, it).db;
      PurchaseLoopStock(db1, c, rest);
      var db' := PurchaseLoop(db, c, items).db;
      forall p | p in db.productos
        ensures db'.productos[p].stock == db.productos[p].stock + PurchaseDemand(items, p)
      {
        assert PurchaseDemand(items, p) == (if it.producto == p then it.cantidad else 0) + PurchaseDemand(rest, p);
      }
    }
  }

  /** A successful purchase loop appends one line per item, in order, at the
      client's price, keeps the total equal to the sum of the subtotals, and
      touches no other row. */
  lemma {:induction false} PurchaseLoopRows(db: Db, c: nat, items: seq<PurchaseRequestItem>)
    requires c < |db.compras|
    requires PurchaseLoop(db, c, items).Done?
    ensures forall i | 0 <= i < |items| :: items[i].producto in db.productos && items[i].cantidad >= 0
    ensures PurchaseLoop(db, c, items).db.ventas == db.ventas
    ensures |PurchaseLoop(db, c, items).db.compras| == |db.compras|
    ensures forall j | 0 <= j < |db.compras| && j != c :: PurchaseLoop(db, c, items).db.compras[j] == db.compras[j]
    ensures PurchaseLoop(db, c, items).db.compras[c].items == db.compras[c].items + PurchaseLines(items)
    ensures items != [] ==> PurchaseLoop(db, c, items).db.compras[c].total == SumCompra(PurchaseLoop(db, c, items).db.compras[c].items)
    ensures items == [] ==> PurchaseLoop(db, c, items).db.compras[c] == db.compras[c]
    decreases |items|
  {
    PurchaseLoopAcceptsIff(db, c, items);
    if items == [] {
      assert PurchaseLines(items) == [];
    } else {
      var it := items[0];
      var rest := items[1..];
      assert forall i | 0 <= i < |rest| :: rest[i] == items[i + 1];
      var db1 := PurchaseStep(db, c, it).db;
      assert PurchaseLoop(db, c, items) == PurchaseLoop(db1, c, rest);
      PurchaseLoopRows(db1, c, rest);
      var db' := PurchaseLoop(db1, c, rest).db;
      var A := db.compras[c].items;
      var L1 := PurchaseLines([it]);
      var L2 := PurchaseLines(rest);
      assert PurchaseLines(items) == L1 + L2;
      assert db'.compras[c].items == (A + L1) + L2;
      assert (A + L1) + L2 == A + (L1 + L2);
    }
  }

  /** The purchase handler accepts a request exactly when every product exists
      and no quantity is negative: there is no stock condition. */
  lemma CompraAcceptedIff(db: Db, items: seq<PurchaseRequestItem>)
    ensures CreateCompra(db, items).1.Created? <==> PurchaseAdmissible(db.productos, items)
  {
    var db0 := db.(compras := db.compras + [Compra([], 0)]);
    PurchaseLoopAcceptsIff(db0, |db.compras|, items);
  }

  /** A committed purchase: every product's stock rises by exactly the
      quantity purchased of it, the new purchase row is appended with one line
      per item, in order, at the price the client sent, and its total is the
      sum of those lines' subtotals. Sales are untouched. */
  lemma CompraCommitted(db: Db, items: seq<PurchaseRequestItem>)
    requires CreateCompra(db, items).1.Created?
    ensures PurchaseAdmissible(db.productos, items)
    ensures
      var (db', reply) := CreateCompra(db, items);
      && db'.productos.Keys == db.productos.Keys
      && (forall p | p in db.productos ::
            && db'.productos[p].stock == db.productos[p].stock + PurchaseDemand(items, p)
            && db'.productos[p].nombre == db.productos[p].nombre
            && db'.productos[p].precio == db.productos[p].precio)
      && db'.compras == db.compras + [reply.row]
      && db'.ventas == db.ventas
      && reply.row.items == PurchaseLines(items)
      && reply.row.total == SumCompra(reply.row.items)
  {
    CompraAcceptedIff(db, items);
    var c := |db.compras|;
    var db0 := db.(compras := db.compras + [Compra([], 0)]);
    var loop := PurchaseLoop(db0, c, items);
    assert CreateCompra(db, items) == (loop.db, Created(loop.db.compras[c]));
    PurchaseLoopStock(db0, c, items);
    PurchaseLoopRows(db0, c, items);
    assert loop.db.compras == db.compras + [loop.db.compras[c]];
  }

  lemma CreateCompraPreservesConsistency(db: Db, items: seq<PurchaseRequestItem>)
    requires Consistent(db)
    ensures Consistent(CreateCompra(db, items).0)
  {
    var (db', reply) := CreateCompra(db, items);
    if reply.Created? {
      CompraCommitted(db, items);
      assert CompraConsistent(reply.row);
      forall j | 0 <= j < |db'.compras|
        ensures CompraConsistent(db'.compras[j])
      {
        if j < |db.compras| {
          assert db'.compras[j] == db.compras[j];
        }
      }
    }
  }
}
