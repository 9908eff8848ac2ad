/** The dashboard's statistics over the list of recorded sales: today's and
    yesterday's sales picked out by the date part of their timestamp, today's
    revenue, units and number of sales, yesterday's revenue, the growth
    percentage between the two, and today's three best-selling products.
    "Today" and "yesterday" are given as date strings. */
module Dashboard {
  import opened Common
  import opened Ranking

  datatype RecordItem = RecordItem(cantidad: int, producto: ProductId)

  /** A sale as the sales endpoint lists it: an ISO timestamp, the total and
      the lines. */
  datatype SaleRecord = SaleRecord(fecha: string, total: Cents, items: seq<RecordItem>)

  datatype Stats = Stats(
    totalVentas: Cents,
    totalProductos: int,
    cantidadTransacciones: nat,
    totalVentasAyer: Cents,
    crecimiento: real,
    topProductos: seq<Entry>)

  /** The text before the first 'T' of a timestamp (all of it when there is
      none), as `fecha.split('T')[0]`. */
  function DatePart(fecha: string): (r: string)
    ensures r <= fecha
    ensures 'T' !in r
    ensures |r| == |fecha| || fecha[|r|] == 'T'
  {
    if fecha == [] || fecha[0] == 'T' then []
    else [fecha[0]] + DatePart(fecha[1..])
  }

  /** The records whose date part is `day`, in their original order. */
  function OnDay(records: seq<SaleRecord>, day: string): (r: seq<SaleRecord>)
    ensures |r| <= |records|
    ensures forall k | 0 <= k < |r| :: r[k] in records && DatePart(r[k].fecha) == day
    ensures forall k | 0 <= k < |records| :: DatePart(records[k].fecha) == day ==> records[k] in r
  {
    if records == [] then []
    else
      var rest := OnDay(records[1..], day);
      assert forall k | 1 <= k < |records| :: records[k] == records[1..][k - 1];
      if DatePart(records[0].fecha) == day then [records[0]] + rest else rest
  }

  /** Sum of the records' totals. */
  function SumTotals(records: seq<SaleRecord>): Cents
  {
    if records == [] then 0 else records[0].total + SumTotals(records[1..])
  }

  /** Sum of the quantities of a record's lines. */
  function ItemUnits(items: seq<RecordItem>): int
  {
    if items == [] then 0 else items[0].cantidad + ItemUnits(items[1..])
  }

  /** Sum over the records of their units. */
  function Units(records: seq<SaleRecord>): int
  {
    if records == [] then 0 else ItemUnits(records[0].items) + Units(records[1..])
  }

  /** All lines of the records, record by record, in order. */
  function Flatten(records: seq<SaleRecord>): seq<RecordItem>
  {
    if records == [] then [] else records[0].items + Flatten(records[1..])
  }

  /** The day-over-day growth in percent: (today - yesterday) / yesterday
      times 100 when yesterday's revenue is positive, and 0 otherwise. */
  function Growth(today: Cents, yesterday: Cents): (r: real)
    ensures yesterday > 0 ==> r * (yesterday as real) == ((today - yesterday) as real) * 100.0
    ensures yesterday <= 0 ==> r == 0.0
    ensures yesterday > 0 ==> (r >= 0.0 <==> today >= yesterday)
  {
    if yesterday > 0 then ((today - yesterday) as real / yesterday as real) * 100.0 else 0.0
  }

  /** The accumulated entries in the order `Object.entries` lists an object
      whose keys are all integer-like: ascending by key. */
  ghost predicate Ascending(acc: seq<Entry>)
  {
    forall i, j | 0 <= i < j < |acc| :: acc[i].producto < acc[j].producto
  }

  /** Where product `p` stands among entries listed in ascending key order:
      the first entry whose key is not below `p`, or their number when every
      key is below it. The property lookup `acc[item.producto]` hits exactly
      when the entry there has key `p`. */
  function KeySlot(acc: seq<Entry>, p: ProductId): (r: nat)
    ensures r <= |acc|
    ensures forall i | 0 <= i < r :: acc[i].producto < p
    ensures r < |acc| ==> acc[r].producto >= p
  {
    if acc == [] || acc[0].producto >= p then 0 else 1 + KeySlot(acc[1..], p)
  }

  /** One line folded into the per-product quantities: an existing key with a
      non-zero quantity is added to; an existing key holding zero (falsy in
      the source's test) is overwritten with the line's quantity; a new key
      takes its place in ascending key order. */
  function Accumulate(acc: seq<Entry>, it: RecordItem): seq<Entry>
  {
    var k := KeySlot(acc, it.producto);
    if k < |acc| && acc[k].producto == it.producto then
      if acc[k].cantidad != 0 then acc[k := Entry(it.producto, acc[k].cantidad + it.cantidad)]
      else acc[k := Entry(it.producto, it.cantidad)]
    else acc[..k] + [Entry(it.producto, it.cantidad)] + acc[k..]
  }

  /** The per-product quantities of a list of lines, keys in ascending
      order. */
  function ProductTotals(items: seq<RecordItem>): seq<Entry>
    decreases |items|
  {
    if items == [] then []
    else Accumulate(ProductTotals(items[..|items| - 1]), items[|items| - 1])
  }

  /** Sum of the quantities of the lines for product `p`. */
  function QtyFor(items: seq<RecordItem>, p: ProductId): int
    decreases |items|
  {
    if items == [] then 0
    else QtyFor(items[..|items| - 1], p) + (if items[|items| - 1].producto == p then items[|items| - 1].cantidad else 0)
  }

  predicate HasKey(acc: seq<Entry>, p: ProductId)
  {
    exists i | 0 <= i < |acc| :: acc[i].producto == p
  }

  predicate Mentions(items: seq<RecordItem>, p: ProductId)
  {
    exists k | 0 <= k < |items| :: items[k].producto == p
  }


  /** The whole computation of the dashboard's figures. */
  function Statistics(records: seq<SaleRecord>, hoy: string, ayer: string): (r: Stats)
    ensures r.cantidadTransacciones <= |records|
    ensures |r.topProductos| <= 3
    ensures NonIncreasing(r.topProductos)
    ensures r.totalVentasAyer <= 0 ==> r.crecimiento == 0.0
    ensures r.crecimiento == Growth(r.totalVentas, r.totalVentasAyer)
  {
    var ventasHoy := OnDay(records, hoy);
    var ventasAyer := OnDay(records, ayer);
    var totalVentas := SumTotals(ventasHoy);
    var totalVentasAyer := SumTotals(ventasAyer);
    Stats(
      totalVentas,
      Units(ventasHoy),
      |ventasHoy|,
      totalVentasAyer,
      Growth(totalVentas, totalVentasAyer),
      Top(ProductTotals(Flatten(ventasHoy)), 3))
  }
}
