/** What the dashboard's figures mean, proved about `Dashboard`. */
module DashboardProperties {
  import opened Common
  import opened Ranking
  import opened Dashboard

  /** The date part of an ISO timestamp `day + "T" + time` is `day`. */
  lemma {:induction false} DatePartOfTimestamp(day: string, time: string)
    requires 'T' !in day
    ensures DatePart(day + "T" + time) == day
  {
    if day != [] {
      assert (day + "T" + time)[1..] == day[1..] + "T" + time;
      DatePartOfTimestamp(day[1..], time);
    }
  }

  lemma {:induction false} QtyForUnmentioned(items: seq<RecordItem>, p: ProductId)
    requires !Mentions(items, p)
    ensures QtyFor(items, p) == 0
    decreases |items|
  {
    if items != [] {
      var pre := items[..|items| - 1];
      QtyForUnmentioned(pre, p);
    }
  }

  /** The per-product quantities have one entry per product mentioned by the
      lines and no other, and each entry holds the exact sum of that
      product's quantities. */
  lemma {:induction false} ProductTotalsExact(items: seq<RecordItem>)
    ensures Ascending(ProductTotals(items))
    ensures DistinctKeys(ProductTotals(items))
    ensures forall i | 0 <= i < |ProductTotals(items)| ::
      ProductTotals(items)[i].cantidad == QtyFor(items, ProductTotals(items)[i].producto)
    ensures forall p :: HasKey(ProductTotals(items), p) <==> Mentions(items, p)
    decreases |items|
  {
    if items != [] {
      var pre := items[..|items| - 1];
      var it := items[|items| - 1];
      ProductTotalsExact(pre);
      assert items == pre + [it];
      AccumulateExact(ProductTotals(pre), pre, it);
    }
    assert DistinctKeys(ProductTotals(items)) by {
      var r := ProductTotals(items);
      forall i, j | 0 <= i < j < |r|
        ensures r[i].producto != r[j].producto
      {
        assert r[i].producto < r[j].producto;
      }
    }
  }

  /** The entries for `pre` with exact quantities, keys in ascending order and
      exactly the mentioned products. */
  ghost predicate ExactFor(acc: seq<Entry>, items: seq<RecordItem>)
  {
    && Ascending(acc)
    && (forall i | 0 <= i < |acc| :: acc[i].cantidad == QtyFor(items, acc[i].producto))
    && (forall p :: HasKey(acc, p) <==> Mentions(items, p))
  }

  /** Folding one more line into exact entries gives exact entries. */
  lemma AccumulateExact(acc: seq<Entry>, pre: seq<RecordItem>, it: RecordItem)
    requires ExactFor(acc, pre)
    ensures ExactFor(Accumulate(acc, it), pre + [it])
  {
    var items := pre + [it];
    var p := it.producto;
    assert items[..|items| - 1] == pre;
    assert forall q :: QtyFor(items, q) == QtyFor(pre, q) + (if p == q then it.cantidad else 0);
    MentionsAppend(pre, it);
    var k := KeySlot(acc, p);
    if k < |acc| && acc[k].producto == p {
      AccumulateExisting(acc, pre, it, k);
    } else {
      AccumulateNew(acc, pre, it, k);
    }
  }

  lemma AccumulateExisting(acc: seq<Entry>, pre: seq<RecordItem>, it: RecordItem, k: nat)
    requires ExactFor(acc, pre)
    requires k == KeySlot(acc, it.producto) && k < |acc| && acc[k].producto == it.producto
    requires forall q :: QtyFor(pre + [it], q) == QtyFor(pre, q) + (if it.producto == q then it.cantidad else 0)
    requires forall q :: Mentions(pre + [it], q) <==> Mentions(pre, q) || q == it.producto
    ensures ExactFor(Accumulate(acc, it), pre + [it])
  {
    var p := it.producto;
    var items := pre + [it];
    var r := Accumulate(acc, it);
    assert r == acc[k := Entry(p, acc[k].cantidad + it.cantidad)];
    assert forall i | 0 <= i < |r| :: r[i].producto == acc[i].producto;
    forall i | 0 <= i < |r|
      ensures r[i].cantidad == QtyFor(items, r[i].producto)
    {
      if i != k {
        assert acc[i].producto != p by {
          if i < k {
            assert acc[i].producto < acc[k].producto;
          } else {
            assert acc[k].producto < acc[i].producto;
          }
        }
      }
    }
    forall q
      ensures HasKey(r, q) <==> Mentions(items, q)
    {
      if HasKey(acc, q) {
        var i :| 0 <= i < |acc| && acc[i].producto == q;
        assert r[i].producto == q;
      }
      if HasKey(r, q) {
        var i :| 0 <= i < |r| && r[i].producto == q;
        assert acc[i].producto == q;
      }
    }
  }

  lemma AccumulateNew(acc: seq<Entry>, pre: seq<RecordItem>, it: RecordItem, k: nat)
    requires ExactFor(acc, pre)
    requires k == KeySlot(acc, it.producto) && !(k < |acc| && acc[k].producto == it.producto)
    requires forall q :: QtyFor(pre + [it], q) == QtyFor(pre, q) + (if it.producto == q then it.cantidad else 0)
    requires forall q :: Mentions(pre + [it], q) <==> Mentions(pre, q) || q == it.producto
    ensures ExactFor(Accumulate(acc, it), pre + [it])
  {
    var p := it.producto;
    assert !HasKey(acc, p) by {
      forall i | 0 <= i < |acc|
        ensures acc[i].producto != p
      {
        if k < i {
          assert acc[k].producto < acc[i].producto;
        }
      }
    }
    QtyForUnmentioned(pre, p);
    var e := Entry(p, it.cantidad);
    var r := Accumulate(acc, it);
    assert r == acc[..k] + [e] + acc[k..];
    SlotAscending(acc, k, e);
    SlotKeys(acc, k, e);
    forall i | 0 <= i < |r|
      ensures r[i].cantidad == QtyFor(pre + [it], r[i].producto)
    {
      InsertAtSlot(acc, k, e);
      if i < k {
        assert r[i] == acc[i];
      } else if i > k {
        assert r[i] == acc[i - 1];
      }
    }
  }

  /** A new key placed at its slot keeps the keys ascending. */
  lemma SlotAscending(acc: seq<Entry>, k: nat, e: Entry)
    requires Ascending(acc)
    requires k == KeySlot(acc, e.producto) && !(k < |acc| && acc[k].producto == e.producto)
    ensures Ascending(acc[..k] + [e] + acc[k..])
  {
    var r := acc[..k] + [e] + acc[k..];
    InsertAtSlot(acc, k, e);
    forall i, j | 0 <= i < j < |r|
      ensures r[i].producto < r[j].producto
    {
      if j > k && i < k {
        assert r[i] == acc[i] && r[j] == acc[j - 1];
      } else if j > k && i == k {
        assert r[j] == acc[j - 1];
        if j - 1 > k {
          assert acc[k].producto < acc[j - 1].producto;
        }
      } else if j > k {
        assert r[i] == acc[i - 1] && r[j] == acc[j - 1];
      }
    }
  }

  /** The keys after placing `e` are the old keys and the new one. */
  lemma SlotKeys(acc: seq<Entry>, k: nat, e: Entry)
    requires k <= |acc|
    ensures forall q :: HasKey(acc[..k] + [e] + acc[k..], q) <==> HasKey(acc, q) || q == e.producto
  {
    var r := acc[..k] + [e] + acc[k..];
    InsertAtSlot(acc, k, e);
    forall q
      ensures HasKey(r, q) <==> HasKey(acc, q) || q == e.producto
    {
      if HasKey(acc, q) {
        var i :| 0 <= i < |acc| && acc[i].producto == q;
        if i < k {
          assert r[i] == acc[i];
        } else {
          assert r[i + 1] == acc[i];
        }
      }
      if HasKey(r, q) {
        var i :| 0 <= i < |r| && r[i].producto == q;
        if i < k {
          assert r[i] == acc[i];
        } else if i > k {
          assert r[i] == acc[i - 1];
        }
      }
      assert r[k].producto == e.producto;
    }
  }

  /** Entries placed around a new one at position `k`. */
  lemma InsertAtSlot(acc: seq<Entry>, k: nat, e: Entry)
    requires k <= |acc|
    ensures |acc[..k] + [e] + acc[k..]| == |acc| + 1
    ensures forall i | 0 <= i < k :: (acc[..k] + [e] + acc[k..])[i] == acc[i]
    ensures (acc[..k] + [e] + acc[k..])[k] == e
    ensures forall i | k < i <= |acc| :: (acc[..k] + [e] + acc[k..])[i] == acc[i - 1]
  {
  }

  lemma MentionsAppend(pre: seq<RecordItem>, it: RecordItem)
    ensures forall q :: Mentions(pre + [it], q) <==> Mentions(pre, q) || q == it.producto
  {
    var items := pre + [it];
    forall q
      ensures Mentions(items, q) ==> Mentions(pre, q) || q == it.producto
    {
      if Mentions(items, q) {
        var j :| 0 <= j < |items| && items[j].producto == q;
        if j < |pre| {
          assert pre[j] == items[j];
        }
      }
    }
    forall q | Mentions(pre, q)
      ensures Mentions(items, q)
    {
      var j :| 0 <= j < |pre| && pre[j].producto == q;
      assert items[j] == pre[j];
    }
    assert items[|pre|] == it;
  }

  lemma {:induction false} OnDayAppend(records: seq<SaleRecord>, x: SaleRecord, day: string)
    ensures OnDay(records + [x], day) == OnDay(records, day) + (if DatePart(x.fecha) == day then [x] else [])
  {
    if records != [] {
      assert (records + [x])[1..] == records[1..] + [x];
      OnDayAppend(records[1..], x, day);
    }
  }

  lemma {:induction false} SumTotalsAppend(records: seq<SaleRecord>, x: SaleRecord)
    ensures SumTotals(records + [x]) == SumTotals(records) + x.total
  {
    if records != [] {
      assert (records + [x])[1..] == records[1..] + [x];
      SumTotalsAppend(records[1..], x);
    }
  }

  lemma {:induction false} UnitsAppend(records: seq<SaleRecord>, x: SaleRecord)
    ensures Units(records + [x]) == Units(records) + ItemUnits(x.items)
  {
    if records != [] {
      assert (records + [x])[1..] == records[1..] + [x];
      UnitsAppend(records[1..], x);
    }
  }

  /** A sale recorded on neither day changes none of the figures. */
  lemma OtherDayIgnored(records: seq<SaleRecord>, x: SaleRecord, hoy: string, ayer: string)
    requires DatePart(x.fecha) != hoy && DatePart(x.fecha) != ayer
    ensures Statistics(records + [x], hoy, ayer) == Statistics(records, hoy, ayer)
  {
    OnDayAppend(records, x, hoy);
    OnDayAppend(records, x, ayer);
    assert OnDay(records + [x], hoy) == OnDay(records, hoy);
    assert OnDay(records + [x], ayer) == OnDay(records, ayer);
  }

  /** A further sale of today adds its total to today's revenue, its units to
      today's units and one to today's count, and leaves yesterday's revenue
      alone. */
  lemma TodaySaleCounted(records: seq<SaleRecord>, x: SaleRecord, hoy: string, ayer: string)
    requires DatePart(x.fecha) == hoy && hoy != ayer
    ensures
      var before := Statistics(records, hoy, ayer);
      var after := Statistics(records + [x], hoy, ayer);
      && after.totalVentas == before.totalVentas + x.total
      && after.totalProductos == before.totalProductos + ItemUnits(x.items)
      && after.cantidadTransacciones == before.cantidadTransacciones + 1
      && after.totalVentasAyer == before.totalVentasAyer
  {
    OnDayAppend(records, x, hoy);
    OnDayAppend(records, x, ayer);
    var h := OnDay(records, hoy);
    assert OnDay(records + [x], hoy) == h + [x];
    assert OnDay(records + [x], ayer) == OnDay(records, ayer);
    SumTotalsAppend(h, x);
    UnitsAppend(h, x);
    assert Statistics(records + [x], hoy, ayer).totalVentas == SumTotals(h + [x]);
    assert Statistics(records + [x], hoy, ayer).totalProductos == Units(h + [x]);
    assert Statistics(records + [x], hoy, ayer).cantidadTransacciones == |h + [x]|;
  }

  /** A further sale of yesterday adds its total to yesterday's revenue and
      leaves today's revenue, units, count and best sellers alone; the growth
      is recomputed from the two revenues. */
  lemma YesterdaySaleCounted(records: seq<SaleRecord>, x: SaleRecord, hoy: string, ayer: string)
    requires DatePart(x.fecha) == ayer && hoy != ayer
    ensures
      var before := Statistics(records, hoy, ayer);
      var after := Statistics(records + [x], hoy, ayer);
      && after.totalVentasAyer == before.totalVentasAyer + x.total
      && after.totalVentas == before.totalVentas
      && after.totalProductos == before.totalProductos
      && after.cantidadTransacciones == before.cantidadTransacciones
      && after.topProductos == before.topProductos
      && after.crecimiento == Growth(before.totalVentas, before.totalVentasAyer + x.total)
  {
    OnDayAppend(records, x, hoy);
    OnDayAppend(records, x, ayer);
    var a := OnDay(records, ayer);
    assert OnDay(records + [x], ayer) == a + [x];
    assert OnDay(records + [x], hoy) == OnDay(records, hoy);
    SumTotalsAppend(a, x);
    var before := Statistics(records, hoy, ayer);
    var yesterday := SumTotals(a + [x]);
    assert Statistics(records + [x], hoy, ayer)
        == before.(totalVentasAyer := yesterday, crecimiento := Growth(before.totalVentas, yesterday));
  }

  /** With two different day strings, no sale falls in both buckets, so the
      two buckets together hold at most all the records. */
  lemma {:induction false} DaysDisjoint(records: seq<SaleRecord>, hoy: string, ayer: string)
    requires hoy != ayer
    ensures forall k | 0 <= k < |OnDay(records, hoy)| :: OnDay(records, hoy)[k] !in OnDay(records, ayer)
    ensures |OnDay(records, hoy)| + |OnDay(records, ayer)| <= |records|
  {
    if records != [] {
      DaysDisjoint(records[1..], hoy, ayer);
    }
  }

  /** An empty list of sales gives zero figures and no best sellers. */
  lemma NoSales(hoy: string, ayer: string)
    ensures Statistics([], hoy, ayer) == Stats(0, 0, 0, 0, 0.0, [])
  {
  }

  /** Today's best sellers: as many as three, or all products sold today when
      fewer; each is a per-product entry carrying that product's exact
      quantity sold today; they are in descending order; and no product sold
      today outside the list sold more than any product in it. */
  lemma BestSellers(records: seq<SaleRecord>, hoy: string, ayer: string)
    ensures
      var today := Flatten(OnDay(records, hoy));
      var entries := ProductTotals(today);
      var top := Statistics(records, hoy, ayer).topProductos;
      && |top| == (if |entries| < 3 then |entries| else 3)
      && NonIncreasing(top)
      && DistinctKeys(top)
      && multiset(top) <= multiset(entries)
      && (forall k | 0 <= k < |top| :: top[k] in entries && top[k].cantidad == QtyFor(today, top[k].producto))
      && (forall x | x in entries && x !in top :: forall k | 0 <= k < |top| :: top[k].cantidad >= x.cantidad)
  {
    var today := Flatten(OnDay(records, hoy));
    var entries := ProductTotals(today);
    ProductTotalsExact(today);
    TopDistinct(entries, 3);
    forall x | x in entries && x !in Top(entries, 3)
      ensures forall k | 0 <= k < |Top(entries, 3)| :: Top(entries, 3)[k].cantidad >= x.cantidad
    {
      TopDominates(entries, 3, x);
    }
  }

  lemma ExampleProductTotals(a5: RecordItem, b9: RecordItem, c2: RecordItem, a3: RecordItem)
    requires a5 == RecordItem(5, 1) && b9 == RecordItem(9, 2) && c2 == RecordItem(2, 3) && a3 == RecordItem(3, 1)
    ensures ProductTotals([a5, b9, c2, a3]) == [Entry(1, 8), Entry(2, 9), Entry(3, 2)]
  {
    assert [a5, b9, c2, a3][..3] == [a5, b9, c2] && [a5, b9, c2][..2] == [a5, b9] && [a5, b9][..1] == [a5];
    assert ProductTotals([a5]) == [Entry(1, 5)];
    assert ProductTotals([a5, b9]) == [Entry(1, 5), Entry(2, 9)];
    assert ProductTotals([a5, b9, c2]) == [Entry(1, 5), Entry(2, 9), Entry(3, 2)];
  }

  lemma ExampleSortTail()
    ensures SortDesc([Entry(2, 9), Entry(3, 2)]) == [Entry(2, 9), Entry(3, 2)]
  {
    assert SortDesc([Entry(3, 2)]) == [Entry(3, 2)];
  }

  lemma ExampleInsert()
    ensures Insert(Entry(1, 8), [Entry(2, 9), Entry(3, 2)]) == [Entry(2, 9), Entry(1, 8), Entry(3, 2)]
  {
    assert [Entry(2, 9), Entry(3, 2)][1..] == [Entry(3, 2)];
    assert Insert(Entry(1, 8), [Entry(3, 2)]) == [Entry(1, 8), Entry(3, 2)];
  }

  lemma ExampleSort()
    ensures SortDesc([Entry(1, 8), Entry(2, 9), Entry(3, 2)]) == [Entry(2, 9), Entry(1, 8), Entry(3, 2)]
  {
    var s := [Entry(1, 8), Entry(2, 9), Entry(3, 2)];
    assert s[0] == Entry(1, 8) && s[1..] == [Entry(2, 9), Entry(3, 2)];
    ExampleSortTail();
    ExampleInsert();
  }

  lemma ExampleRanking(entries: seq<Entry>)
    requires entries == [Entry(1, 8), Entry(2, 9), Entry(3, 2)]
    ensures Top(entries, 3) == [Entry(2, 9), Entry(1, 8), Entry(3, 2)]
  {
    ExampleSort();
    TopIsSortedPrefix(entries, 3);
    var ranked := SortDesc(entries);
    assert ranked == [Entry(2, 9), Entry(1, 8), Entry(3, 2)];
    assert ranked[..3] == ranked;
  }

  lemma TopIsSortedPrefix(s: seq<Entry>, n: nat)
    requires n <= |s|
    ensures Top(s, n) == SortDesc(s)[..n]
  {
  }

  /** Entries with equal quantities keep their order when sorted. */
  lemma {:induction false} SortDescOfEqualQuantities(s: seq<Entry>, q: int)
    requires forall i | 0 <= i < |s| :: s[i].cantidad == q
    ensures SortDesc(s) == s
  {
    if s != [] {
      var rest := s[1..];
      assert forall i | 0 <= i < |rest| :: rest[i].cantidad == q by {
        forall i | 0 <= i < |rest| ensures rest[i].cantidad == q {
          assert rest[i] == s[i + 1];
        }
      }
      SortDescOfEqualQuantities(rest, q);
      InsertInFront(s[0], rest);
      assert s == [s[0]] + rest;
    }
  }

  /** An entry no smaller than the head of a descending list goes in front. */
  lemma InsertInFront(e: Entry, t: seq<Entry>)
    requires NonIncreasing(t)
    requires t == [] || e.cantidad >= t[0].cantidad
    ensures Insert(e, t) == [e] + t
  {
  }

  /** Ties at the cut go to the lower product ids, as `Object.entries` lists
      integer keys in ascending order: products 9, 1, 2 and 3 each sold 5
      times (in that order) rank as 1, 2, 3. */
  lemma TiesRankByProductId(l9: RecordItem, l1: RecordItem, l2: RecordItem, l3: RecordItem)
    requires l9 == RecordItem(5, 9) && l1 == RecordItem(5, 1) && l2 == RecordItem(5, 2) && l3 == RecordItem(5, 3)
    ensures Top(ProductTotals([l9, l1, l2, l3]), 3) == [Entry(1, 5), Entry(2, 5), Entry(3, 5)]
  {
    TieTotals(l9, l1, l2, l3);
    TieTop();
  }

  lemma TieTop()
    ensures Top([Entry(1, 5), Entry(2, 5), Entry(3, 5), Entry(9, 5)], 3) == [Entry(1, 5), Entry(2, 5), Entry(3, 5)]
  {
    EqualQuantitiesTop([Entry(1, 5), Entry(2, 5), Entry(3, 5), Entry(9, 5)], 5, 3);
  }

  /** When every entry has the same quantity, the top `n` are the first `n`. */
  lemma EqualQuantitiesTop(s: seq<Entry>, q: int, n: nat)
    requires forall i | 0 <= i < |s| :: s[i].cantidad == q
    requires n <= |s|
    ensures Top(s, n) == s[..n]
  {
    SortDescOfEqualQuantities(s, q);
  }

  lemma TieTotals(l9: RecordItem, l1: RecordItem, l2: RecordItem, l3: RecordItem)
    requires l9 == RecordItem(5, 9) && l1 == RecordItem(5, 1) && l2 == RecordItem(5, 2) && l3 == RecordItem(5, 3)
    ensures ProductTotals([l9, l1, l2, l3]) == [Entry(1, 5), Entry(2, 5), Entry(3, 5), Entry(9, 5)]
  {
    var e1, e2, e3, e9 := Entry(1, 5), Entry(2, 5), Entry(3, 5), Entry(9, 5);
    assert [l9][..0] == [];
    assert ProductTotals([l9]) == [e9];
    TotalsSnoc([l9], l1, [e9], 0, [e1, e9]);
    assert [l9] + [l1] == [l9, l1];
    TotalsSnoc([l9, l1], l2, [e1, e9], 1, [e1, e2, e9]);
    assert [l9, l1] + [l2] == [l9, l1, l2];
    TotalsSnoc([l9, l1, l2], l3, [e1, e2, e9], 2, [e1, e2, e3, e9]);
    assert [l9, l1, l2] + [l3] == [l9, l1, l2, l3];
  }

  /** One more line whose product is new and belongs at slot `k`. */
  lemma TotalsSnoc(items: seq<RecordItem>, it: RecordItem, acc: seq<Entry>, k: nat, r: seq<Entry>)
    requires ProductTotals(items) == acc
    requires k <= |acc| && KeySlot(acc, it.producto) == k && (k == |acc| || acc[k].producto != it.producto)
    requires r == acc[..k] + [Entry(it.producto, it.cantidad)] + acc[k..]
    ensures ProductTotals(items + [it]) == r
  {
    assert (items + [it])[..|items|] == items;
  }

  /** The worked example of the dashboard: a sale today with quantities
      A:5, B:9, C:2, A:3 ranks its products as B:9, A:8, C:2. */
  lemma BestSellersExample()
    ensures
      var records := [SaleRecord("2026-10-10T09:30:00Z", 1900,
                         [RecordItem(5, 1), RecordItem(9, 2), RecordItem(2, 3), RecordItem(3, 1)])];
      Statistics(records, "2026-10-10", "2026-10-09").topProductos == [Entry(2, 9), Entry(1, 8), Entry(3, 2)]
  {
    var day := "2026-10-10";
    var at := "2026-10-10T09:30:00Z";
    DatePartOfTimestamp(day, "09:30:00Z");
    assert at == day + "T" + "09:30:00Z";
    var a5, b9, c2, a3 := RecordItem(5, 1), RecordItem(9, 2), RecordItem(2, 3), RecordItem(3, 1);
    var today := [a5, b9, c2, a3];
    var records := [SaleRecord(at, 1900, today)];
    assert OnDay(records, day) == records;
    assert Flatten(records) == today + Flatten([]);
    assert Flatten(OnDay(records, day)) == today;
    ExampleProductTotals(a5, b9, c2, a3);
    ExampleRanking([Entry(1, 8), Entry(2, 9), Entry(3, 2)]);
    assert Statistics(records, day, "2026-10-09").topProductos == Top(ProductTotals(Flatten(OnDay(records, day))), 3);
  }

  /** Growth of today's 100.00 over yesterday's 50.00 is 100%; with no
      revenue yesterday it is 0 whatever today's. */
  lemma GrowthExamples(today: Cents)
    ensures Growth(10000, 5000) == 100.0
    ensures Growth(today, 0) == 0.0
  {
  }
}
