/** The persistent rows of the backend (products, sales, purchases and their
    lines) and the `save` logic of the line models: every line save fixes the
    line's subtotal and recomputes the parent's total, and a purchase line save
    also adds its quantity to the product's stock. */
module Ledger {
  import opened Common

  /** A product row. `stock` is a PositiveIntegerField, so the database keeps it
      non-negative; that is the type `nat` here. */
  datatype Producto = Producto(nombre: string, precio: Cents, stock: nat)

  /** A stored sale line. The quantity column has a CHECK constraint `>= 0`. */
  datatype VentaItem = VentaItem(producto: ProductId, cantidad: nat, precioVenta: Cents, subtotal: Cents)

  datatype Venta = Venta(items: seq<VentaItem>, total: Cents)

  /** A stored purchase line. */
  datatype CompraItem = CompraItem(producto: ProductId, cantidad: nat, precioCompra: Cents, subtotal: Cents)

  datatype Compra = Compra(items: seq<CompraItem>, total: Cents)

  /** The database: products by primary key, sales and purchases in creation
      order (the position of a row is its primary key). */
  datatype Db = Db(productos: map<ProductId, Producto>, ventas: seq<Venta>, compras: seq<Compra>)

  /** Why a write was refused. */
  datatype Fault =
    | UnknownProduct(id: ProductId)      // Producto.DoesNotExist
    | InsufficientStock(nombre: string)  // the sale handler's explicit 400
    | NegativeQuantity                   // IntegrityError from a CHECK constraint

  /** The result of a sequence of writes: either all went through, or one
      failed, leaving the writes made before it in `partial`. */
  datatype Step = Done(db: Db) | Fail(partial: Db, fault: Fault)

  /** Sum of the subtotals of sale lines (the `calcular_total` aggregate). */
  function SumVenta(items: seq<VentaItem>): Cents
  {
    if items == [] then 0 else items[0].subtotal + SumVenta(items[1..])
  }

  /** Sum of the subtotals of purchase lines. */
  function SumCompra(items: seq<CompraItem>): Cents
  {
    if items == [] then 0 else items[0].subtotal + SumCompra(items[1..])
  }

  /** The invariant that line saves maintain: each line's subtotal is its
      quantity times its unit price, and each parent's total is the sum of its
      lines' subtotals. */
  ghost predicate Consistent(db: Db)
  {
    && (forall v | 0 <= v < |db.ventas| :: VentaConsistent(db.ventas[v]))
    && (forall c | 0 <= c < |db.compras| :: CompraConsistent(db.compras[c]))
  }

  ghost predicate VentaConsistent(v: Venta)
  {
    && v.total == SumVenta(v.items)
    && forall i | 0 <= i < |v.items| :: v.items[i].subtotal == v.items[i].cantidad * v.items[i].precioVenta
  }

  ghost predicate CompraConsistent(c: Compra)
  {
    && c.total == SumCompra(c.items)
    && forall i | 0 <= i < |c.items| :: c.items[i].subtotal == c.items[i].cantidad * c.items[i].precioCompra
  }

  /** The validators declared on the line fields: quantity at least 1 and unit
      price at least 0.01. They are declared but not run by `save`. */
  predicate DeclaredVentaDomain(line: VentaItem)
  {
    line.cantidad >= 1 && line.precioVenta >= 1
  }

  predicate DeclaredCompraDomain(line: CompraItem)
  {
    line.cantidad >= 1 && line.precioCompra >= 1
  }

  /** Puts `line` at position `k`: an update of an existing line when `k` is
      below the length, an insert at the end when `k` is the length. */
  function Put<T>(items: seq<T>, k: nat, line: T): (r: seq<T>)
    requires k <= |items|
    ensures |r| == if k == |items| then |items| + 1 else |items|
    ensures r[k] == line
    ensures forall i | 0 <= i < |items| && i != k :: r[i] == items[i]
  {
    if k == |items| then items + [line] else items[k := line]
  }

  /** `VentaItem.save` for the line at position `k` of sale `v`: compute the
      subtotal, write the line (the CHECK constraint refuses a negative
      quantity), then `calcular_total` on the parent sale. Stock is not
      touched: the sale handler does that itself. The line's product must
      exist, as its foreign key demands; the handler has looked it up. */
  function SaveVentaItem(db: Db, v: nat, k: nat, producto: ProductId, cantidad: int, precioVenta: Cents): (r: Step)
    requires v < |db.ventas| && k <= |db.ventas[v].items|
    requires producto in db.productos
    ensures r.Done? <==> cantidad >= 0
    ensures r.Fail? ==> r.partial == db && r.fault == NegativeQuantity
    ensures r.Done? ==>
      && r.db.productos == db.productos
      && r.db.compras == db.compras
      && |r.db.ventas| == |db.ventas|
      && (forall j | 0 <= j < |db.ventas| && j != v :: r.db.ventas[j] == db.ventas[j])
      && r.db.ventas[v].items == Put(db.ventas[v].items, k, VentaItem(producto, cantidad, precioVenta, cantidad * precioVenta))
      && r.db.ventas[v].total == SumVenta(r.db.ventas[v].items)
  {
    if cantidad < 0 then Fail(db, NegativeQuantity)
    else
      var line := VentaItem(producto, cantidad, precioVenta, cantidad * precioVenta);
      var items := Put(db.ventas[v].items, k, line);
      Done(db.(ventas := db.ventas[v := CalcularTotalVenta(db.ventas[v].(items := items))]))
  }

  /** `Venta.calcular_total`: the total becomes the sum of the line subtotals. */
  function CalcularTotalVenta(v: Venta): (r: Venta)
    ensures r.items == v.items
    ensures (forall i | 0 <= i < |v.items| :: v.items[i].subtotal == v.items[i].cantidad * v.items[i].precioVenta)
            ==> VentaConsistent(r)
  {
    v.(total := SumVenta(v.items))
  }

  /** `Compra.calcular_total`. */
  function CalcularTotalCompra(c: Compra): (r: Compra)
    ensures r.items == c.items
    ensures (forall i | 0 <= i < |c.items| :: c.items[i].subtotal == c.items[i].cantidad * c.items[i].precioCompra)
            ==> CompraConsistent(r)
  {
    c.(total := SumCompra(c.items))
  }

  /** `CompraItem.save` for the line at position `k` of purchase `c`: compute
      the subtotal, add the quantity to the product's stock and save the
      product (the stock CHECK refuses a negative result), write the line (its
      CHECK refuses a negative quantity), then `calcular_total` on the parent.
      The stock is incremented on every save, an update of an existing line
      included. Without an enclosing transaction, a failure at the line write
      leaves the stock write in place; `partial` records that. */
  function SaveCompraItem(db: Db, c: nat, k: nat, producto: ProductId, cantidad: int, precioCompra: Cents): (r: Step)
    requires c < |db.compras| && k <= |db.compras[c].items|
    requires producto in db.productos
    ensures r.Done? <==> cantidad >= 0
    ensures r.Fail? ==> r.fault == NegativeQuantity && r.partial.ventas == db.ventas && r.partial.compras == db.compras
    ensures r.Done? ==>
      && r.db.productos.Keys == db.productos.Keys
      && r.db.productos[producto] == db.productos[producto].(stock := db.productos[producto].stock + cantidad)
      && (forall p | p in db.productos && p != producto :: r.db.productos[p] == db.productos[p])
      && r.db.ventas == db.ventas
      && |r.db.compras| == |db.compras|
      && (forall j | 0 <= j < |db.compras| && j != c :: r.db.compras[j] == db.compras[j])
      && r.db.compras[c].items == Put(db.compras[c].items, k, CompraItem(producto, cantidad, precioCompra, cantidad * precioCompra))
      && r.db.compras[c].total == SumCompra(r.db.compras[c].items)
  {
    var p := db.productos[producto];
    var newStock := p.stock + cantidad;
    if newStock < 0 then Fail(db, NegativeQuantity)
    else
      var db1 := db.(productos := db.productos[producto := p.(stock := newStock)]);
      if cantidad < 0 then Fail(db1, NegativeQuantity)
      else
        var line := CompraItem(producto, cantidad, precioCompra, cantidad * precioCompra);
        var items := Put(db.compras[c].items, k, line);
        Done(db1.(compras := db.compras[c := CalcularTotalCompra(db.compras[c].(items := items))]))
  }

  /** Every successful sale-line save keeps the whole database consistent. */
  lemma SaveVentaItemPreservesConsistency(db: Db, v: nat, k: nat, producto: ProductId, cantidad: int, precioVenta: Cents)
    requires v < |db.ventas| && k <= |db.ventas[v].items|
    requires producto in db.productos
    requires Consistent(db)
    ensures SaveVentaItem(db, v, k, producto, cantidad, precioVenta).Done? ==>
              Consistent(SaveVentaItem(db, v, k, producto, cantidad, precioVenta).db)
  {
    var r := SaveVentaItem(db, v, k, producto, cantidad, precioVenta);
    if r.Done? {
      forall j | 0 <= j < |r.db.ventas|
        ensures VentaConsistent(r.db.ventas[j])
      {
        if j != v {
          assert VentaConsistent(db.ventas[j]);
        } else {
          assert VentaConsistent(db.ventas[v]);
        }
      }
    }
  }

  /** Every successful purchase-line save keeps the whole database consistent. */
  lemma SaveCompraItemPreservesConsistency(db: Db, c: nat, k: nat, producto: ProductId, cantidad: int, precioCompra: Cents)
    requires c < |db.compras| && k <= |db.compras[c].items|
    requires producto in db.productos
    requires Consistent(db)
    ensures SaveCompraItem(db, c, k, producto, cantidad, precioCompra).Done? ==>
              Consistent(SaveCompraItem(db, c, k, producto, cantidad, precioCompra).db)
  {
    var r := SaveCompraItem(db, c, k, producto, cantidad, precioCompra);
    if r.Done? {
      forall j | 0 <= j < |r.db.compras|
        ensures CompraConsistent(r.db.compras[j])
      {
        if j != c {
          assert CompraConsistent(db.compras[j]);
        } else {
          assert CompraConsistent(db.compras[c]);
        }
      }
    }
  }

  /** Saving the same purchase line twice, the second time as an update of the
      row the first save inserted, leaves one line and the same total but adds
      its quantity to the stock twice. */
  lemma CompraItemSaveNotIdempotent(db: Db, c: nat, producto: ProductId, cantidad: nat, precioCompra: Cents)
    requires c < |db.compras|
    requires producto in db.productos
    ensures
      var k := |db.compras[c].items|;
      var once := SaveCompraItem(db, c, k, producto, cantidad, precioCompra);
      once.Done? &&
      var twice := SaveCompraItem(once.db, c, k, producto, cantidad, precioCompra);
      && twice.Done?
      && twice.db.compras == once.db.compras
      && twice.db.productos[producto].stock == db.productos[producto].stock + 2 * cantidad
  {
    var k := |db.compras[c].items|;
    var line := CompraItem(producto, cantidad, precioCompra, cantidad * precioCompra);
    var once := SaveCompraItem(db, c, k, producto, cantidad, precioCompra);
    assert once.db.compras[c].items == db.compras[c].items + [line];
    var twice := SaveCompraItem(once.db, c, k, producto, cantidad, precioCompra);
    assert twice.db.compras[c].items == once.db.compras[c].items;
    assert twice.db.compras[c] == once.db.compras[c];
  }
}
