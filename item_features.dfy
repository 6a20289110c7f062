/** The item-feature table: one row per article sold in the trailing window,
    with its sales count, distinct buyers, peak hour, last sale date, and a
    popularity rank numbered by descending sales (`ROW_NUMBER`). */
module ItemFeatures {
  import opened Common

  /** Default lookback of the item-feature query, in days. */
  const ItemLookbackDays: nat := 7

  datatype ItemRow = ItemRow(
    article: ArticleId,
    popularityRank: int,
    salesCount: int,
    uniqueCustomers: int,
    peakHour: int,
    lastSoldDate: int)

  /** In-window sales of one article (`GROUP BY article_id`). */
  function SalesOf(w: seq<Transaction>, a: ArticleId): seq<Transaction> {
    Filter(w, (t: Transaction) => t.article == a)
  }

  /** `COUNT(*)` per article. */
  function SalesCount(w: seq<Transaction>, a: ArticleId): nat {
    |SalesOf(w, a)|
  }

  /** Sort key of `ORDER BY sales_count DESC`. */
  function BySalesDesc(w: seq<Transaction>): ArticleId -> int {
    a => -(SalesCount(w, a) as int)
  }

  /** Article `a` has at least one sale in `w`. */
  predicate SoldIn(w: seq<Transaction>, a: ArticleId) {
    exists t :: t in w && t.article == a
  }

  /** Some row of `rows` is about article `a`. */
  predicate HasRow(rows: seq<ItemRow>, a: ArticleId) {
    exists i :: 0 <= i < |rows| && rows[i].article == a
  }

  /** An element of `s` whose key no other element exceeds (first such). */
  function BestBy<T>(s: seq<T>, key: T -> int): (x: T)
    requires |s| > 0
    ensures x in s
    ensures forall y :: y in s ==> key(y) <= key(x)
  {
    if |s| == 1 then s[0]
    else
      var rest := BestBy(s[1..], key);
      assert forall y :: y in s ==> y == s[0] || y in s[1..];
      if key(s[0]) >= key(rest) then s[0] else rest
  }

  /** `MODE(purchase_hour)`: an hour that occurs most often. */
  function ModeHour(hours: seq<nat>): (h: nat)
    requires |hours| > 0
    ensures h in hours
    ensures forall g :: g in hours ==> multiset(hours)[g] <= multiset(hours)[h]
  {
    BestBy(hours, (g: nat) => multiset(hours)[g])
  }

  function HoursOf(sales: seq<Transaction>): seq<nat> {
    Map(sales, (t: Transaction) => t.hour)
  }

  function BuyersOf(sales: seq<Transaction>): seq<CustomerId> {
    Map(sales, (t: Transaction) => t.customer)
  }

  /** The aggregated row of article `a`, whose rank is given. */
  function StatsRow(w: seq<Transaction>, a: ArticleId, rank: int): ItemRow
    requires SoldIn(w, a)
  {
    var sales := SalesOf(w, a);
    assert |sales| > 0 by {
      var t :| t in w && t.article == a;
      assert t in sales;
    }
    ItemRow(a, rank, |sales|, |ToSet(BuyersOf(sales))|, ModeHour(HoursOf(sales)), MaxDate(sales))
  }

  /** The articles of `w` ordered by descending sales. Ties keep first-sale
      order here; `ROW_NUMBER` leaves their order open, and nothing proved
      below depends on it. */
  function RankedArticles(w: seq<Transaction>): seq<ArticleId> {
    SortBy(Dedup(Map(w, (t: Transaction) => t.article)), BySalesDesc(w))
  }

  lemma RankedArticlesSpec(w: seq<Transaction>)
    ensures Distinct(RankedArticles(w))
    ensures forall a :: a in RankedArticles(w) <==> SoldIn(w, a)
    ensures forall i, j :: 0 <= i < j < |RankedArticles(w)| ==>
              SalesCount(w, RankedArticles(w)[i]) >= SalesCount(w, RankedArticles(w)[j])
  {
    var arts := Dedup(Map(w, (t: Transaction) => t.article));
    var ranked := RankedArticles(w);
    SortByMembership(arts, BySalesDesc(w));
    DistinctPerm(arts, ranked);
    forall a ensures a in ranked <==> SoldIn(w, a) {
      MapMembership(w, (t: Transaction) => t.article, a);
    }
    forall i, j | 0 <= i < j < |ranked|
      ensures SalesCount(w, ranked[i]) >= SalesCount(w, ranked[j])
    {
      assert BySalesDesc(w)(ranked[i]) <= BySalesDesc(w)(ranked[j]);
    }
  }

  /** One aggregated row per ranked article, numbered from 1. */
  function NumberRows(w: seq<Transaction>, ranked: seq<ArticleId>): (rows: seq<ItemRow>)
    requires forall a :: a in ranked ==> SoldIn(w, a)
    ensures |rows| == |ranked|
    ensures forall k :: 0 <= k < |ranked| ==> rows[k] == StatsRow(w, ranked[k], k + 1)
  {
    seq(|ranked|, k requires 0 <= k < |ranked| => StatsRow(w, ranked[k], k + 1))
  }

  /** The item-feature query over the transaction log: window, per-article
      aggregation, `ROW_NUMBER() OVER (ORDER BY sales_count DESC)`, rows
      emitted in ascending rank. */
  function CreateItemFeatures(ts: seq<Transaction>, lookback: int): seq<ItemRow> {
    var w := Window(ts, lookback);
    RankedArticlesSpec(w);
    NumberRows(w, RankedArticles(w))
  }

  /** The item table of the default 7-day lookback. */
  function DefaultItemFeatures(ts: seq<Transaction>): seq<ItemRow> {
    CreateItemFeatures(ts, ItemLookbackDays)
  }

  lemma RowAt(ts: seq<Transaction>, lookback: int, i: nat)
    requires i < |CreateItemFeatures(ts, lookback)|
    ensures var w := Window(ts, lookback);
            && |CreateItemFeatures(ts, lookback)| == |RankedArticles(w)|
            && SoldIn(w, RankedArticles(w)[i])
            && CreateItemFeatures(ts, lookback)[i] == StatsRow(w, RankedArticles(w)[i], i + 1)
  {
    RankedArticlesSpec(Window(ts, lookback));
  }

  /** One row per article with an in-window sale, and no other rows. */
  lemma OneRowPerSoldArticle(ts: seq<Transaction>, lookback: int)
    ensures var rows := CreateItemFeatures(ts, lookback);
            && (forall a :: HasRow(rows, a) <==> SoldIn(Window(ts, lookback), a))
            && (forall i, j :: 0 <= i < j < |rows| ==> rows[i].article != rows[j].article)
  {
    var w := Window(ts, lookback);
    var rows := CreateItemFeatures(ts, lookback);
    var ranked := RankedArticles(w);
    RankedArticlesSpec(w);
    forall i | 0 <= i < |rows| ensures rows[i].article == ranked[i] {
      RowAt(ts, lookback, i);
    }
    forall a ensures HasRow(rows, a) <==> SoldIn(w, a) {
      if SoldIn(w, a) {
        var i :| 0 <= i < |ranked| && ranked[i] == a;
        assert rows[i].article == a;
      }
    }
  }

  /** Counts: `sales_count` is the number of in-window sales (at least one),
      and there are no more distinct buyers than sales. */
  lemma CountsAreConsistent(ts: seq<Transaction>, lookback: int, i: nat)
    requires i < |CreateItemFeatures(ts, lookback)|
    ensures var row := CreateItemFeatures(ts, lookback)[i];
            && row.salesCount == SalesCount(Window(ts, lookback), row.article)
            && 1 <= row.salesCount
            && row.uniqueCustomers <= row.salesCount
  {
    var w := Window(ts, lookback);
    RowAt(ts, lookback, i);
    var a := RankedArticles(w)[i];
    var t :| t in w && t.article == a;
    assert t in SalesOf(w, a);
    ToSetCard(BuyersOf(SalesOf(w, a)));
  }

  /** Ranks are 1..n in emission order, so each of 1..n is used exactly once
      and rows come out in ascending rank. */
  lemma RanksAreOneToN(ts: seq<Transaction>, lookback: int)
    ensures var rows := CreateItemFeatures(ts, lookback);
            forall i :: 0 <= i < |rows| ==> rows[i].popularityRank == i + 1
  {
    var rows := CreateItemFeatures(ts, lookback);
    forall i | 0 <= i < |rows| ensures rows[i].popularityRank == i + 1 {
      RowAt(ts, lookback, i);
    }
  }

  /** A strictly higher sales count gets a strictly smaller rank. */
  lemma MoreSalesBetterRank(ts: seq<Transaction>, lookback: int, i: nat, j: nat)
    requires i < |CreateItemFeatures(ts, lookback)| && j < |CreateItemFeatures(ts, lookback)|
    requires CreateItemFeatures(ts, lookback)[i].salesCount > CreateItemFeatures(ts, lookback)[j].salesCount
    ensures CreateItemFeatures(ts, lookback)[i].popularityRank < CreateItemFeatures(ts, lookback)[j].popularityRank
  {
    var w := Window(ts, lookback);
    RowAt(ts, lookback, i);
    RowAt(ts, lookback, j);
    RankedArticlesSpec(w);
  }

  /** The peak hour is an hour at which the article sold in-window, and no
      other hour sold it more often. */
  lemma PeakHourIsMode(ts: seq<Transaction>, lookback: int, i: nat)
    requires i < |CreateItemFeatures(ts, lookback)|
    ensures var row := CreateItemFeatures(ts, lookback)[i];
            var hours := HoursOf(SalesOf(Window(ts, lookback), row.article));
            row.peakHour in hours &&
            forall g :: g in hours ==> multiset(hours)[g] <= multiset(hours)[row.peakHour]
  {
    RowAt(ts, lookback, i);
  }
}
