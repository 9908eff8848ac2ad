/** The two write handlers of the REST backend: creating a sale and creating a
    purchase. Both run inside one database transaction: a handler either
    commits every write it made or, on a refusal or an exception, none. */
module Views {
  import opened Common
  import opened Ledger

  /** The HTTP answer of a create handler: 201 with the created row, or a
      refusal with its status code and cause. */
  datatype Reply<T> = Created(row: T) | Rejected(status: nat, fault: Fault)

  /** The status a refusal produces: the sale handler answers 400 for a stock
      shortfall; every other fault is an exception that escapes the handler
      and becomes a 500. */
  function StatusOf(f: Fault): (s: nat)
    ensures s == 400 <==> f.InsufficientStock?
    ensures s != 400 ==> s == 500
  {
    if f.InsufficientStock? then 400 else 500
  }

  // ---------------------------------------------------------------------------
  // Sales

  /** Total quantity of product `p` requested across the sale's items. */
  function SaleDemand(items: seq<SaleRequestItem>, p: ProductId): int
  {
    if items == [] then 0
    else (if items[0].producto == p then items[0].cantidad else 0) + SaleDemand(items[1..], p)
  }

  /** A sale request the handler accepts: every product exists, no quantity is
      negative, and no product is asked for more than its stock in total. */
  predicate SaleAdmissible(productos: map<ProductId, Producto>, items: seq<SaleRequestItem>)
  {
    && (forall i | 0 <= i < |items| :: items[i].producto in productos && items[i].cantidad >= 0)
    && (forall p | p in productos :: SaleDemand(items, p) <= productos[p].stock)
  }

  /** The lines a sale request produces when every product's unit price is
      taken from `productos`. */
  function SaleLines(productos: map<ProductId, Producto>, items: seq<SaleRequestItem>): (r: seq<VentaItem>)
    requires forall i | 0 <= i < |items| :: items[i].producto in productos && items[i].cantidad >= 0
    ensures |r| == |items|
    ensures forall i | 0 <= i < |items| ::
      var precio := productos[items[i].producto].precio;
      r[i] == VentaItem(items[i].producto, items[i].cantidad, precio, items[i].cantidad * precio)
  {
    if items == [] then []
    else
      var precio := productos[items[0].producto].precio;
      [VentaItem(items[0].producto, items[0].cantidad, precio, items[0].cantidad * precio)]
        + SaleLines(productos, items[1..])
  }

  /** One pass of the sale handler's loop: fetch the product (unknown id
      raises), refuse when its current stock is below the quantity, create the
      line at the product's current price, then store the decremented stock.
      The stock is read from the state left by the earlier items, so repeated
      lines for one product are checked against what is left. */
  function SaleStep(db: Db, v: nat, it: SaleRequestItem): (r: Step)
    requires v < |db.ventas|
    ensures r.Done? ==>
      && it.producto in db.productos
      && 0 <= it.cantidad <= db.productos[it.producto].stock
      && r.db.productos == db.productos[it.producto := db.productos[it.producto].(stock := db.productos[it.producto].stock - it.cantidad)]
      && r.db.compras == db.compras
      && |r.db.ventas| == |db.ventas|
      && (forall j | 0 <= j < |db.ventas| && j != v :: r.db.ventas[j] == db.ventas[j])
      && r.db.ventas[v].items == db.ventas[v].items + SaleLines(db.productos, [it])
      && r.db.ventas[v].total == SumVenta(r.db.ventas[v].items)
    ensures r.Fail? ==>
      || it.producto !in db.productos
      || it.cantidad < 0
      || db.productos[it.producto].stock < it.cantidad
    ensures r.Fail? ==> (r.fault.UnknownProduct? <==> it.producto !in db.productos)
    ensures r.Fail? ==>
      (r.fault.InsufficientStock? <==> it.producto in db.productos && db.productos[it.producto].stock < it.cantidad)
  {
    if it.producto !in db.productos then Fail(db, UnknownProduct(it.producto))
    else
      var p := db.productos[it.producto];
      if p.stock < it.cantidad then Fail(db, InsufficientStock(p.nombre))
      else
        match SaveVentaItem(db, v, |db.ventas[v].items|, it.producto, it.cantidad, p.precio)
        case Fail(partial, f) => Fail(partial, f)
        case Done(db1) =>
          Done(db1.(productos := db1.productos[it.producto := p.(stock := p.stock - it.cantidad)]))
  }

  /** The handler's loop over the request items, in order; the first failure
      stops it. */
  function SaleLoop(db: Db, v: nat, items: seq<SaleRequestItem>): (r: Step)
    requires v < |db.ventas|
    ensures r.Done? ==> |r.db.ventas| == |db.ventas|
    decreases |items|
  {
    if items == [] then Done(db)
    else
      match SaleStep(db, v, items[0])
      case Fail(partial, f) => Fail(partial, f)
      case Done(db1) => SaleLoop(db1, v, items[1..])
  }

  /** The sale-creation handler: create an empty sale row, run the loop, and
      commit on success; on any refusal or exception the transaction is rolled
      back, so the database is exactly what it was. */
  function CreateVenta(db: Db, items: seq<SaleRequestItem>): (r: (Db, Reply<Venta>))
    ensures r.1.Rejected? ==> r.0 == db
    ensures r.1.Rejected? ==> (r.1.status == 400 <==> r.1.fault.InsufficientStock?)
    ensures r.1.Rejected? && !r.1.fault.InsufficientStock? ==> r.1.status == 500
    ensures items == [] ==> r.1 == Created(Venta([], 0)) && r.0 == db.(ventas := db.ventas + [Venta([], 0)])
  {
    var v := |db.ventas|;
    var db0 := db.(ventas := db.ventas + [Venta([], 0)]);
    match SaleLoop(db0, v, items)
    case Fail(_, f) => (db, Rejected(StatusOf(f), f))
    case Done(db1) => (db1, Created(db1.ventas[v]))
  }

  // ---------------------------------------------------------------------------
  // Purchases

  /** Total quantity of product `p` across the purchase's items. */
  function PurchaseDemand(items: seq<PurchaseRequestItem>, p: ProductId): int
  {
    if items == [] then 0
    else (if items[0].producto == p then items[0].cantidad else 0) + PurchaseDemand(items[1..], p)
  }

  /** A purchase request the handler accepts: every product exists and no
      quantity is negative. There is no stock precondition. */
  predicate PurchaseAdmissible(productos: map<ProductId, Producto>, items: seq<PurchaseRequestItem>)
  {
    forall i | 0 <= i < |items| :: items[i].producto in productos && items[i].cantidad >= 0
  }

  /** The lines a purchase request produces: each carries the price the client
      sent. */
  function PurchaseLines(items: seq<PurchaseRequestItem>): (r: seq<CompraItem>)
    requires forall i | 0 <= i < |items| :: items[i].cantidad >= 0
    ensures |r| == |items|
    ensures forall i | 0 <= i < |items| ::
      r[i] == CompraItem(items[i].producto, items[i].cantidad, items[i].precioCompra, items[i].cantidad * items[i].precioCompra)
  {
    if items == [] then []
    else
      [CompraItem(items[0].producto, items[0].cantidad, items[0].precioCompra, items[0].cantidad * items[0].precioCompra)]
        + PurchaseLines(items[1..])
  }

  /** One pass of the purchase handler's loop: fetch the product (unknown id
      raises) and create the line, whose save adds the quantity to stock. */
  function PurchaseStep(db: Db, c: nat, it: PurchaseRequestItem): (r: Step)
    requires c < |db.compras|
    ensures r.Done? ==>
      && it.producto in db.productos
      && it.cantidad >= 0
      && r.db.productos == db.productos[it.producto := db.productos[it.producto].(stock := db.productos[it.producto].stock + it.cantidad)]
      && r.db.ventas == db.ventas
      && |r.db.compras| == |db.compras|
      && (forall j | 0 <= j < |db.compras| && j != c :: r.db.compras[j] == db.compras[j])
      && r.db.compras[c].items == db.compras[c].items + PurchaseLines([it])
      && r.db.compras[c].total == SumCompra(r.db.compras[c].items)
    ensures r.Fail? ==> it.producto !in db.productos || it.cantidad < 0
    ensures r.Fail? ==> (r.fault.UnknownProduct? <==> it.producto !in db.productos)
    ensures r.Fail? ==> !r.fault.InsufficientStock?
  {
    if it.producto !in db.productos then Fail(db, UnknownProduct(it.producto))
    else SaveCompraItem(db, c, |db.compras[c].items|, it.producto, it.cantidad, it.precioCompra)
  }

  function PurchaseLoop(db: Db, c: nat, items: seq<PurchaseRequestItem>): (r: Step)
    requires c < |db.compras|
    ensures r.Done? ==> |r.db.compras| == |db.compras|
    ensures r.Fail? ==> !r.fault.InsufficientStock?
    decreases |items|
  {
    if items == [] then Done(db)
    else
      match PurchaseStep(db, c, items[0])
      case Fail(partial, f) => Fail(partial, f)
      case Done(db1) => PurchaseLoop(db1, c, items[1..])
  }

  /** The purchase-creation handler, with the same all-or-nothing behaviour as
      the sale handler. */
  function CreateCompra(db: Db, items: seq<PurchaseRequestItem>): (r: (Db, Reply<Compra>))
    ensures r.1.Rejected? ==> r.0 == db && r.1.status == 500
    ensures items == [] ==> r.1 == Created(Compra([], 0)) && r.0 == db.(compras := db.compras + [Compra([], 0)])
  {
    var c := |db.compras|;
    var db0 := db.(compras := db.compras + [Compra([], 0)]);
    match PurchaseLoop(db0, c, items)
    case Fail(_, f) => (db, Rejected(StatusOf(f), f))
    case Done(db1) => (db1, Created(db1.compras[c]))
  }
}
