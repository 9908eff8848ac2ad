/** The purchase page: an in-memory list of purchase lines, each at a
    purchase price the user types in, a displayed total, and the final
    submission that posts the list to the purchases endpoint and, on success,
    asks for the product list to be fetched again. */
module PurchaseBuilder {
  import opened Common

  /** A line of the purchase being built; `precioCompra` is the user's price. */
  datatype Line = Line(producto: ProductId, cantidad: int, precioCompra: Cents, subtotal: Cents)

  datatype Notice = AddAtLeastOneProduct | PurchaseRecorded | PurchaseFailed

  datatype Screen = Stay(items: seq<Line>) | Navigate(path: string)

  /** `revalidateProducts` is the page's request to refetch the product list. */
  datatype Finalization = Finalization(request: Option<seq<PurchaseRequestItem>>, notice: Notice,
                                       revalidateProducts: bool, screen: Screen)

  /** Whether the loaded product list has a product with this id. The page
      only tests the lookup for failure; the line records the id itself. */
  predicate Listed(productos: seq<Listing>, id: ProductId)
  {
    exists i | 0 <= i < |productos| :: productos[i].id == id
  }

  /** The first product of the list with the given id, as `Array.find`. */
  function Find(productos: seq<Listing>, id: ProductId): (r: Option<Listing>)
    ensures r.Some? <==> Listed(productos, id)
    ensures r.Some? ==> r.value.id == id && r.value in productos
  {
    if productos == [] then None
    else if productos[0].id == id then Some(productos[0])
    else
      assert forall i | 0 < i < |productos| :: productos[i] == productos[1..][i - 1];
      Find(productos[1..], id)
  }

  predicate WellFormed(items: seq<Line>)
  {
    forall i | 0 <= i < |items| :: items[i].subtotal == items[i].precioCompra * items[i].cantidad
  }

  /** The displayed total: the sum of the line subtotals. */
  function Total(items: seq<Line>): Cents
  {
    if items == [] then 0 else items[0].subtotal + Total(items[1..])
  }

  function Gross(items: seq<Line>): Cents
  {
    if items == [] then 0 else items[0].precioCompra * items[0].cantidad + Gross(items[1..])
  }

  /** Submitting the add-line form: when the product is in the loaded list,
      exactly one line is appended at the user's purchase price; otherwise the
      list is unchanged. */
  function AddLine(productos: seq<Listing>, items: seq<Line>, id: ProductId, cantidad: int, precioCompra: Cents): (r: seq<Line>)
    ensures !Listed(productos, id) ==> r == items
    ensures Listed(productos, id) ==>
      && |r| == |items| + 1
      && r[..|items|] == items
      && r[|items|].producto == id
      && r[|items|].cantidad == cantidad
      && r[|items|].precioCompra == precioCompra
    ensures WellFormed(items) ==> WellFormed(r)
  {
    match Find(productos, id)
    case None => items
    case Some(p) => items + [Line(p.id, cantidad, precioCompra, precioCompra * cantidad)]
  }

  /** Submitting the add-line form as the page writes it. The form schema
      declares the product field a string, so a value that is not a string is
      refused before the handler runs; a string value goes to the lookup. */
  function AddLineAsWritten(productos: seq<Listing>, items: seq<Line>, value: JsValue, cantidad: int, precioCompra: Cents): (r: seq<Line>)
    ensures |r| == |items| || |r| == |items| + 1
    ensures r[..|items|] == items
  {
    if !value.JsString? then items
    else
      match FindAsWritten(productos, value)
      case None => items
      case Some(p) => items + [Line(p.id, cantidad, precioCompra, precioCompra * cantidad)]
  }

  /** As written, no submission of the add-line form ever adds a line:
      whatever the select hands over, either the schema refuses it (a number)
      or the lookup finds no product (a string is never `===` a number). */
  lemma NoLineAddedAsWritten(productos: seq<Listing>, items: seq<Line>, value: JsValue, cantidad: int, precioCompra: Cents)
    ensures AddLineAsWritten(productos, items, value, cantidad, precioCompra) == items
  {
    if value.JsString? {
      assert FindAsWritten(productos, value).None?;
    }
  }

  /** The evidently intended lookup by numeric id, which `AddLine` uses,
      does add a line for a listed product. */
  lemma IntendedLookupAddsLine(productos: seq<Listing>, items: seq<Line>, k: nat, cantidad: int, precioCompra: Cents)
    requires k < |productos|
    ensures |AddLine(productos, items, productos[k].id, cantidad, precioCompra)| == |items| + 1
  {
  }

  /** The request body: product, quantity and the purchase price, renamed to
      the server's field name. */
  function Payload(items: seq<Line>): (r: seq<PurchaseRequestItem>)
    ensures |r| == |items|
    ensures forall i | 0 <= i < |items| ::
      r[i].producto == items[i].producto && r[i].cantidad == items[i].cantidad && r[i].precioCompra == items[i].precioCompra
  {
    if items == [] then []
    else [PurchaseRequestItem(items[0].producto, items[0].cantidad, items[0].precioCompra)] + Payload(items[1..])
  }

  /** The "record purchase" action: an empty list is refused before any
      request; otherwise the payload is posted, and on success the product
      list is refetched and the page navigates to the inventory; on failure it
      stays with its line list untouched. */
  function Finalize(items: seq<Line>, outcome: RequestOutcome): (r: Finalization)
    ensures r.request.None? <==> items == []
    ensures r.request.Some? ==> r.request.value == Payload(items)
    ensures r.screen.Navigate? <==> items != [] && outcome == Accepted
    ensures r.screen.Navigate? ==> r.screen.path == "/inventario"
    ensures r.revalidateProducts <==> r.screen.Navigate?
    ensures r.notice == PurchaseRecorded <==> r.screen.Navigate?
    ensures items == [] ==> r.notice == AddAtLeastOneProduct
    ensures r.screen.Stay? ==> r.screen.items == items
  {
    if items == [] then Finalization(None, AddAtLeastOneProduct, false, Stay(items))
    else
      var body := Payload(items);
      if outcome == Accepted then Finalization(Some(body), PurchaseRecorded, true, Navigate("/inventario"))
      else Finalization(Some(body), PurchaseFailed, false, Stay(items))
  }

  lemma {:induction false} TotalAppend(items: seq<Line>, line: Line)
    ensures Total(items + [line]) == Total(items) + line.subtotal
  {
    if items != [] {
      assert (items + [line])[1..] == items[1..] + [line];
      TotalAppend(items[1..], line);
    }
  }

  /** Adding a line raises the total by exactly the user's price times the
      quantity, and a failed lookup leaves it unchanged. */
  lemma TotalAfterAddLine(productos: seq<Listing>, items: seq<Line>, id: ProductId, cantidad: int, precioCompra: Cents)
    ensures !Listed(productos, id) ==> Total(AddLine(productos, items, id, cantidad, precioCompra)) == Total(items)
    ensures Listed(productos, id) ==>
      Total(AddLine(productos, items, id, cantidad, precioCompra)) == Total(items) + precioCompra * cantidad
  {
    if Listed(productos, id) {
      var p := Find(productos, id).value;
      TotalAppend(items, Line(p.id, cantidad, precioCompra, precioCompra * cantidad));
    }
  }

  lemma {:induction false} TotalIsGross(items: seq<Line>)
    requires WellFormed(items)
    ensures Total(items) == Gross(items)
  {
    if items != [] {
      assert WellFormed(items[1..]) by {
        assert forall i | 0 <= i < |items[1..]| :: items[1..][i] == items[i + 1];
      }
      TotalIsGross(items[1..]);
    }
  }
}
