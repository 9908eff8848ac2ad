/** The two pages' submissions end to end: the client's line list becomes the
    request body, the server handler runs on it, and the page reacts to the
    answer. This is where the client-side totals meet the server-side ones. */
module Checkout {
  import opened Common
  import Ledger
  import Views
  import HandlerProperties
  import SaleBuilder
  import PurchaseBuilder

  /** What became of a request the page sent: it never reached the server;
      the server ran the handler and its answer came back; or the server ran
      the handler and its answer was lost (a dropped connection or a
      timeout). The page's `catch` treats a lost answer like any other
      failure. */
  datatype Delivery = NotDelivered | Answered | AnswerLost

  /** Finishing a sale: with no lines nothing is sent; a request that never
      arrives changes nothing on the server; otherwise the sale handler runs
      on the payload, and the page reacts to its answer, or to the missing
      answer as to a failure. */
  function SubmitSale(db: Ledger.Db, items: seq<SaleBuilder.Line>, delivery: Delivery): (r: (Ledger.Db, SaleBuilder.Finalization))
    ensures items == [] ==> r.0 == db && r.1.request.None?
    ensures r.1.screen.Stay? ==> r.1.screen.items == items
    ensures r.1.screen.Stay? && delivery != AnswerLost ==> r.0 == db
    ensures items != [] && delivery != NotDelivered ==> r.0 == Views.CreateVenta(db, SaleBuilder.Payload(items)).0
    ensures r.1.screen.Navigate? <==>
      items != [] && delivery == Answered && Views.CreateVenta(db, SaleBuilder.Payload(items)).1.Created?
  {
    if items == [] then (db, SaleBuilder.Finalize(items, Refused))
    else if delivery == NotDelivered then (db, SaleBuilder.Finalize(items, Unreachable))
    else
      var handled := Views.CreateVenta(db, SaleBuilder.Payload(items));
      var outcome :=
        if delivery == AnswerLost then Unreachable
        else if handled.1.Created? then Accepted
        else Refused;
      assert outcome == Accepted <==> delivery == Answered && handled.1.Created?;
      var fin := SaleBuilder.Finalize(items, outcome);
      assert fin.screen.Navigate? <==> outcome == Accepted;
      (handled.0, fin)
  }

  /** Finishing a purchase, in the same way. */
  function SubmitPurchase(db: Ledger.Db, items: seq<PurchaseBuilder.Line>, delivery: Delivery): (r: (Ledger.Db, PurchaseBuilder.Finalization))
    ensures items == [] ==> r.0 == db && r.1.request.None?
    ensures r.1.screen.Stay? ==> r.1.screen.items == items
    ensures r.1.screen.Stay? && delivery != AnswerLost ==> r.0 == db
    ensures items != [] && delivery != NotDelivered ==> r.0 == Views.CreateCompra(db, PurchaseBuilder.Payload(items)).0
    ensures r.1.screen.Navigate? <==>
      items != [] && delivery == Answered && Views.CreateCompra(db, PurchaseBuilder.Payload(items)).1.Created?
  {
    if items == [] then (db, PurchaseBuilder.Finalize(items, Refused))
    else if delivery == NotDelivered then (db, PurchaseBuilder.Finalize(items, Unreachable))
    else
      var handled := Views.CreateCompra(db, PurchaseBuilder.Payload(items));
      var outcome :=
        if delivery == AnswerLost then Unreachable
        else if handled.1.Created? then Accepted
        else Refused;
      assert outcome == Accepted <==> delivery == Answered && handled.1.Created?;
      var fin := PurchaseBuilder.Finalize(items, outcome);
      assert fin.screen.Navigate? <==> outcome == Accepted;
      (handled.0, fin)
  }

  /** A lost answer to a sale the server committed leaves the page on the
      form with its list, reporting a failure, while the sale is recorded:
      submitting the same list again would record it a second time. */
  lemma LostAnswerKeepsCommittedSale(db: Ledger.Db, items: seq<SaleBuilder.Line>)
    requires items != []
    requires Views.CreateVenta(db, SaleBuilder.Payload(items)).1.Created?
    ensures
      var (db', fin) := SubmitSale(db, items, AnswerLost);
      var (db'', fin') := SubmitSale(db', items, Answered);
      && fin.screen == SaleBuilder.Stay(items)
      && fin.notice == SaleBuilder.SaleFailed
      && db'.ventas == db.ventas + [Views.CreateVenta(db, SaleBuilder.Payload(items)).1.row]
      && |db''.ventas| == |db.ventas| + (if fin'.screen.Navigate? then 2 else 1)
  {
    var payload := SaleBuilder.Payload(items);
    HandlerProperties.VentaCommitted(db, payload);
    var db' := Views.CreateVenta(db, payload).0;
    var (db'', reply) := Views.CreateVenta(db', payload);
    if reply.Created? {
      HandlerProperties.VentaCommitted(db', payload);
    }
  }

  lemma {:induction false} SumVentaMatchesTotal(lines: seq<Ledger.VentaItem>, items: seq<SaleBuilder.Line>)
    requires |lines| == |items|
    requires forall i | 0 <= i < |items| :: lines[i].subtotal == items[i].subtotal
    ensures Ledger.SumVenta(lines) == SaleBuilder.Total(items)
  {
    if items != [] {
      SumVentaMatchesTotal(lines[1..], items[1..]);
    }
  }

  lemma {:induction false} SumCompraMatchesTotal(lines: seq<Ledger.CompraItem>, items: seq<PurchaseBuilder.Line>)
    requires |lines| == |items|
    requires forall i | 0 <= i < |items| :: lines[i].subtotal == items[i].subtotal
    ensures Ledger.SumCompra(lines) == PurchaseBuilder.Total(items)
  {
    if items != [] {
      SumCompraMatchesTotal(lines[1..], items[1..]);
    }
  }

  /** When the prices the sale page showed are still the products' current
      prices, a sale the server records has the same lines, in order, and the
      same total as the page displayed. */
  lemma SaleRecordedAsDisplayed(db: Ledger.Db, items: seq<SaleBuilder.Line>)
    requires SaleBuilder.WellFormed(items)
    requires forall i | 0 <= i < |items| ::
      items[i].producto in db.productos ==> items[i].precio == db.productos[items[i].producto].precio
    requires Views.CreateVenta(db, SaleBuilder.Payload(items)).1.Created?
    ensures
      var row := Views.CreateVenta(db, SaleBuilder.Payload(items)).1.row;
      && |row.items| == |items|
      && (forall i | 0 <= i < |items| ::
            && row.items[i].producto == items[i].producto
            && row.items[i].cantidad == items[i].cantidad
            && row.items[i].precioVenta == items[i].precio)
      && row.total == SaleBuilder.Total(items)
  {
    var payload := SaleBuilder.Payload(items);
    HandlerProperties.VentaCommitted(db, payload);
    var row := Views.CreateVenta(db, payload).1.row;
    SumVentaMatchesTotal(row.items, items);
  }

  /** A purchase the server records has the same lines, in order, at the
      prices the user typed, and the same total as the page displayed. */
  lemma PurchaseRecordedAsDisplayed(db: Ledger.Db, items: seq<PurchaseBuilder.Line>)
    requires PurchaseBuilder.WellFormed(items)
    requires Views.CreateCompra(db, PurchaseBuilder.Payload(items)).1.Created?
    ensures
      var row := Views.CreateCompra(db, PurchaseBuilder.Payload(items)).1.row;
      && |row.items| == |items|
      && (forall i | 0 <= i < |items| ::
            && row.items[i].producto == items[i].producto
            && row.items[i].cantidad == items[i].cantidad
            && row.items[i].precioCompra == items[i].precioCompra)
      && row.total == PurchaseBuilder.Total(items)
  {
    var payload := PurchaseBuilder.Payload(items);
    HandlerProperties.CompraCommitted(db, payload);
    var row := Views.CreateCompra(db, payload).1.row;
    SumCompraMatchesTotal(row.items, items);
  }

  /** The page has no stock check: a line list asking for more than a
      product's stock is still sent, and it is the server that refuses it,
      with no change to the database, leaving the page's list as it was. */
  lemma OversoldSaleRefusedByServer(db: Ledger.Db, items: seq<SaleBuilder.Line>, p: Common.ProductId)
    requires p in db.productos
    requires Views.SaleDemand(SaleBuilder.Payload(items), p) > db.productos[p].stock
    ensures items != []
    ensures
      var (db', fin) := SubmitSale(db, items, Answered);
      && fin.request == Some(SaleBuilder.Payload(items))
      && db' == db
      && fin.screen == SaleBuilder.Stay(items)
      && fin.notice == SaleBuilder.SaleFailed
  {
    HandlerProperties.VentaAcceptedIff(db, SaleBuilder.Payload(items));
  }
}
