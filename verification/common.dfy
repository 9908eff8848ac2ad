/** Shared vocabulary of the stationery-shop model: identifiers, money and
    the wire format the web client posts to the REST backend. */
module Common {

  /** Primary key of a product row. */
  type ProductId = nat

  /** Money as an exact number of cents. Prices and totals in the system are
      decimals with two places; cents keep every sum and product exact. */
  type Cents = int

  datatype Option<+T> = None | Some(value: T)

  /** One element of the `items` list of a POST to the sales endpoint. */
  datatype SaleRequestItem = SaleRequestItem(producto: ProductId, cantidad: int)

  /** One element of the `items` list of a POST to the purchases endpoint. */
  datatype PurchaseRequestItem = PurchaseRequestItem(producto: ProductId, cantidad: int, precioCompra: Cents)

  /** A JavaScript value as far as the pages' form handling tells values
      apart: a number, such as a product id read from the products endpoint,
      or a string, such as a form field's content. Strict equality `===`
      never holds between a number and a string. */
  datatype JsValue = JsNumber(n: int) | JsString(s: string)

  /** A product as the pages read it from the products endpoint. */
  datatype Listing = Listing(id: ProductId, nombre: string, precio: Cents)

  /** The answer to a page's request, when one is sent. */
  datatype RequestOutcome = Accepted | Refused | Unreachable

  /** The product lookup as the page writes it: `===` between each loaded
      product's numeric id and the form's product value. */
  function FindAsWritten(productos: seq<Listing>, value: JsValue): (r: Option<Listing>)
    ensures r.None? <==> forall i | 0 <= i < |productos| :: JsNumber(productos[i].id) != value
    ensures r.Some? ==> r.value in productos && JsNumber(r.value.id) == value
  {
    if productos == [] then None
    else if JsNumber(productos[0].id) == value then Some(productos[0])
    else
      assert forall i | 0 < i < |productos| :: productos[i] == productos[1..][i - 1];
      FindAsWritten(productos[1..], value)
  }
}
