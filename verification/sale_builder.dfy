/** The new-sale page: an in-memory list of sale lines that grows one line
    per form submission, a displayed total, and the final submission that
    posts the list to the sales endpoint. The page makes no stock check and no
    duplicate-product check: a product may appear on several lines, and stock
    is enforced only by the server. */
module SaleBuilder {
  import opened Common

  /** A line of the sale being built. */
  datatype Line = Line(producto: ProductId, cantidad: int, precio: Cents, subtotal: Cents)

  /** What the page shows after a submission attempt. */
  datatype Notice = AddAtLeastOneProduct | SaleCompleted | SaleFailed

  /** Where the page is left: still on the form with its line list, or
      navigated away. */
  datatype Screen = Stay(items: seq<Line>) | Navigate(path: string)

  datatype Finalization = Finalization(request: Option<seq<SaleRequestItem>>, notice: Notice, screen: Screen)

  /** The first product of the list with the given id, as `Array.find`. */
  function Find(productos: seq<Listing>, id: ProductId): (r: Option<Listing>)
    ensures r.None? <==> forall i | 0 <= i < |productos| :: productos[i].id != id
    ensures r.Some? ==> exists k | 0 <= k < |productos| ::
      && productos[k] == r.value
      && r.value.id == id
      && forall j | 0 <= j < k :: productos[j].id != id
  {
    if productos == [] then None
    else if productos[0].id == id then Some(productos[0])
    else
      var r := Find(productos[1..], id);
      assert forall i | 0 < i < |productos| :: productos[i] == productos[1..][i - 1];
      if r.Some? then
        ghost var k :| 0 <= k < |productos[1..]| && productos[1..][k] == r.value && r.value.id == id
                       && forall j | 0 <= j < k :: productos[1..][j].id != id;
        assert productos[k + 1] == r.value;
        r
      else r
  }

  /** Every line's subtotal is its price times its quantity. */
  predicate WellFormed(items: seq<Line>)
  {
    forall i | 0 <= i < |items| :: items[i].subtotal == items[i].precio * items[i].cantidad
  }

  /** The displayed total: the sum of the line subtotals. */
  function Total(items: seq<Line>): Cents
  {
    if items == [] then 0 else items[0].subtotal + Total(items[1..])
  }

  /** The sum of price times quantity over the lines, independently of the
      stored subtotals. */
  function Gross(items: seq<Line>): Cents
  {
    if items == [] then 0 else items[0].precio * items[0].cantidad + Gross(items[1..])
  }

  /** Submitting the add-line form with product `id` and quantity `cantidad`:
      when the product is in the loaded list, exactly one line is appended,
      priced at that product's price; otherwise the list is unchanged. */
  function AddLine(productos: seq<Listing>, items: seq<Line>, id: ProductId, cantidad: int): (r: seq<Line>)
    ensures Find(productos, id).None? ==> r == items
    ensures Find(productos, id).Some? ==>
      && |r| == |items| + 1
      && r[..|items|] == items
      && r[|items|].producto == id
      && r[|items|].cantidad == cantidad
      && r[|items|].precio == Find(productos, id).value.precio
    ensures WellFormed(items) ==> WellFormed(r)
  {
    match Find(productos, id)
    case None => items
    case Some(p) => items + [Line(p.id, cantidad, p.precio, p.precio * cantidad)]
  }

  /** Submitting the add-line form as the page writes it. The form schema
      declares the product field a string, so a value that is not a string is
      refused before the handler runs; a string value goes to the lookup. */
  function AddLineAsWritten(productos: seq<Listing>, items: seq<Line>, value: JsValue, cantidad: int): (r: seq<Line>)
    ensures |r| == |items| || |r| == |items| + 1
    ensures r[..|items|] == items
  {
    if !value.JsString? then items
    else
      match FindAsWritten(productos, value)
      case None => items
      case Some(p) => items + [Line(p.id, cantidad, p.precio, p.precio * cantidad)]
  }

  /** As written, no submission of the add-line form ever adds a line:
      whatever the select hands over, either the schema refuses it (a number)
      or the lookup finds no product (a string is never `===` a number). */
  lemma NoLineAddedAsWritten(productos: seq<Listing>, items: seq<Line>, value: JsValue, cantidad: int)
    ensures AddLineAsWritten(productos, items, value, cantidad) == items
  {
    if value.JsString? {
      assert FindAsWritten(productos, value).None?;
    }
  }

  /** The evidently intended lookup by numeric id, which `AddLine` uses,
      does add a line for a listed product. */
  lemma IntendedLookupAddsLine(productos: seq<Listing>, items: seq<Line>, k: nat, cantidad: int)
    requires k < |productos|
    ensures |AddLine(productos, items, productos[k].id, cantidad)| == |items| + 1
  {
  }

  /** The request body: each line reduced to product and quantity. No price is
      sent; the server prices the sale itself. */
  function Payload(items: seq<Line>): (r: seq<SaleRequestItem>)
    ensures |r| == |items|
    ensures forall i | 0 <= i < |items| :: r[i].producto == items[i].producto && r[i].cantidad == items[i].cantidad
  {
    if items == [] then [] else [SaleRequestItem(items[0].producto, items[0].cantidad)] + Payload(items[1..])
  }

  /** The "finish sale" action. An empty list is refused before any request
      is sent; otherwise the payload is posted, and the page navigates home on
      success or stays, with its line list untouched, on failure. */
  function Finalize(items: seq<Line>, outcome: RequestOutcome): (r: Finalization)
    ensures r.request.None? <==> items == []
    ensures r.request.Some? ==> r.request.value == Payload(items)
    ensures r.screen.Navigate? <==> items != [] && outcome == Accepted
    ensures r.screen.Navigate? ==> r.screen.path == "/"
    ensures r.screen.Stay? ==> r.screen.items == items
    ensures r.notice == SaleCompleted <==> r.screen.Navigate?
    ensures items == [] ==> r.notice == AddAtLeastOneProduct
  {
    if items == [] then Finalization(None, AddAtLeastOneProduct, Stay(items))
    else
      var body := Payload(items);
      if outcome == Accepted then Finalization(Some(body), SaleCompleted, Navigate("/"))
      else Finalization(Some(body), SaleFailed, Stay(items))
  }

  /** Adding a line raises the total by exactly that line's price times
      quantity, and a failed lookup leaves it unchanged. */
  lemma {:induction false} TotalAfterAddLine(productos: seq<Listing>, items: seq<Line>, id: ProductId, cantidad: int)
    ensures Find(productos, id).None? ==> Total(AddLine(productos, items, id, cantidad)) == Total(items)
    ensures Find(productos, id).Some? ==>
      Total(AddLine(productos, items, id, cantidad)) == Total(items) + Find(productos, id).value.precio * cantidad
  {
    if Find(productos, id).Some? {
      var p := Find(productos, id).value;
      TotalAppend(items, Line(p.id, cantidad, p.precio, p.precio * cantidad));
    }
  }

  lemma {:induction false} TotalAppend(items: seq<Line>, line: Line)
    ensures Total(items + [line]) == Total(items) + line.subtotal
  {
    if items != [] {
      assert (items + [line])[1..] == items[1..] + [line];
      TotalAppend(items[1..], line);
    }
  }

  /** For lines built by the form, the displayed total is the sum of price
      times quantity over the lines. */
  lemma {:induction false} TotalIsGross(items: seq<Line>)
    requires WellFormed(items)
    ensures Total(items) == Gross(items)
  {
    if items != [] {
      assert WellFormed(items[1..]) by {
        assert forall i | 0 <= i < |items[1..]| :: items[1..][i] == items[i + 1];
      }
      TotalIsGross(items[1..]);
    }
  }
}
