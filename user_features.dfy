/** The user-feature table: one row per customer with a purchase in the
    trailing window, carrying purchase count, distinct items, average
    purchase hour, recency, a frequency bucket and first/last dates. */
module UserFeatures {
  import opened Common

  /** Default lookback of the user-feature query, in days. */
  const UserLookbackDays: nat := 28

  datatype Frequency = Low | Medium | High

  datatype UserRow = UserRow(
    customer: CustomerId,
    avgPurchaseHour: real,
    purchaseCount: int,
    uniqueItems: int,
    recency: int,
    frequency: Frequency,
    lastPurchaseDate: int,
    firstPurchaseDate: int)

  /** The `CASE` on `purchase_count`. */
  function FrequencyBucket(count: int): Frequency {
    if count >= 10 then High
    else if count >= 5 then Medium
    else Low
  }

  /** Each bucket holds exactly its range of counts. */
  lemma FrequencyBucketRanges(count: int)
    ensures FrequencyBucket(count) == High <==> count >= 10
    ensures FrequencyBucket(count) == Medium <==> 5 <= count < 10
    ensures FrequencyBucket(count) == Low <==> count < 5
  {
  }

  /** In-window purchases of one customer (`GROUP BY customer_id`). */
  function PurchasesOf(w: seq<Transaction>, c: CustomerId): seq<Transaction> {
    Filter(w, (t: Transaction) => t.customer == c)
  }

  predicate BoughtIn(w: seq<Transaction>, c: CustomerId) {
    exists t :: t in w && t.customer == c
  }

  predicate HasRow(rows: seq<UserRow>, c: CustomerId) {
    exists i :: 0 <= i < |rows| && rows[i].customer == c
  }

  /** `MIN(t_dat)` over a non-empty sequence. */
  function MinDate(ts: seq<Transaction>): (m: int)
    requires |ts| > 0
    ensures forall t :: t in ts ==> m <= t.date
    ensures exists t :: t in ts && t.date == m
  {
    if |ts| == 1 then ts[0].date
    else
      var rest := MinDate(ts[1..]);
      assert forall t :: t in ts ==> t == ts[0] || t in ts[1..];
      if ts[0].date <= rest then ts[0].date else rest
  }

  function SumHours(ts: seq<Transaction>): (s: nat) {
    if ts == [] then 0 else ts[0].hour + SumHours(ts[1..])
  }

  /** `AVG(purchase_hour)` over a non-empty sequence. */
  function AvgHour(ts: seq<Transaction>): (a: real)
    requires |ts| > 0
    ensures a >= 0.0
    ensures a * |ts| as real == SumHours(ts) as real
  {
    SumHours(ts) as real / |ts| as real
  }

  /** The aggregated row of customer `c`; `maxDate` is the window's latest date. */
  function StatsRow(w: seq<Transaction>, c: CustomerId, maxDate: int): UserRow
    requires BoughtIn(w, c)
  {
    var ps := PurchasesOf(w, c);
    assert |ps| > 0 by {
      var t :| t in w && t.customer == c;
      assert t in ps;
    }
    UserRow(c,
            AvgHour(ps),
            |ps|,
            |ToSet(Map(ps, (t: Transaction) => t.article))|,
            maxDate - MaxDate(ps),
            FrequencyBucket(|ps|),
            MaxDate(ps),
            MinDate(ps))
  }

  /** Customers of `w`, first appearance first. The query has no `ORDER BY`,
      so only membership is promised about this order. */
  function Customers(w: seq<Transaction>): (cs: seq<CustomerId>)
    ensures Distinct(cs)
    ensures forall c :: c in cs <==> BoughtIn(w, c)
  {
    var cs := Dedup(Map(w, (t: Transaction) => t.customer));
    forall c ensures c in cs <==> BoughtIn(w, c) {
      MapMembership(w, (t: Transaction) => t.customer, c);
    }
    cs
  }

  function RowsFor(w: seq<Transaction>, cs: seq<CustomerId>, maxDate: int): (rows: seq<UserRow>)
    requires forall c :: c in cs ==> BoughtIn(w, c)
    ensures |rows| == |cs|
    ensures forall k :: 0 <= k < |cs| ==> rows[k] == StatsRow(w, cs[k], maxDate)
  {
    seq(|cs|, k requires 0 <= k < |cs| => StatsRow(w, cs[k], maxDate))
  }

  /** The user-feature query: window, per-customer aggregation, cross join
      with the window's latest date for recency. */
  function CreateUserFeatures(ts: seq<Transaction>, lookback: int): seq<UserRow> {
    var w := Window(ts, lookback);
    if w == [] then [] else RowsFor(w, Customers(w), MaxDate(w))
  }

  function DefaultUserFeatures(ts: seq<Transaction>): seq<UserRow> {
    CreateUserFeatures(ts, UserLookbackDays)
  }

  lemma RowAt(ts: seq<Transaction>, lookback: int, i: nat)
    requires i < |CreateUserFeatures(ts, lookback)|
    ensures var w := Window(ts, lookback);
            && w != []
            && |CreateUserFeatures(ts, lookback)| == |Customers(w)|
            && BoughtIn(w, Customers(w)[i])
            && CreateUserFeatures(ts, lookback)[i] == StatsRow(w, Customers(w)[i], MaxDate(w))
  {
  }

  /** One row per customer with an in-window purchase, and no other rows. */
  lemma OneRowPerBuyer(ts: seq<Transaction>, lookback: int)
    ensures var rows := CreateUserFeatures(ts, lookback);
            && (forall c :: HasRow(rows, c) <==> BoughtIn(Window(ts, lookback), c))
            && (forall i, j :: 0 <= i < j < |rows| ==> rows[i].customer != rows[j].customer)
  {
    var w := Window(ts, lookback);
    var rows := CreateUserFeatures(ts, lookback);
    if w != [] {
      var cs := Customers(w);
      forall c ensures HasRow(rows, c) <==> BoughtIn(w, c) {
        if BoughtIn(w, c) {
          var i :| 0 <= i < |cs| && cs[i] == c;
          assert rows[i].customer == c;
        }
      }
    } else {
      forall c ensures !BoughtIn(w, c) {}
    }
  }

  /** The facts about one aggregated row, for any date at least the
      customer's last purchase. */
  lemma StatsRowFacts(w: seq<Transaction>, c: CustomerId, maxDate: int)
    requires BoughtIn(w, c)
    requires forall t :: t in w ==> t.date <= maxDate
    ensures var row := StatsRow(w, c, maxDate);
            var ps := PurchasesOf(w, c);
            && row.customer == c
            && row.purchaseCount == |ps| >= 1
            && row.lastPurchaseDate == MaxDate(ps)
            && row.firstPurchaseDate == MinDate(ps)
            && row.uniqueItems == |ToSet(Map(ps, (t: Transaction) => t.article))|
            && row.uniqueItems <= row.purchaseCount
            && row.recency == maxDate - MaxDate(ps) >= 0
            && row.firstPurchaseDate <= row.lastPurchaseDate
            && row.avgPurchaseHour == AvgHour(ps)
            && row.frequency == FrequencyBucket(row.purchaseCount)
  {
    var ps := PurchasesOf(w, c);
    var t :| t in w && t.customer == c;
    assert t in ps;
    ToSetCard(Map(ps, (t: Transaction) => t.article));
    var last :| last in ps && last.date == MaxDate(ps);
    assert last in w;
    var first :| first in ps && first.date == MinDate(ps);
  }

  /** A row's columns are the aggregates of the customer's in-window
      purchases: `COUNT(*)`, `COUNT(DISTINCT article_id)`, `AVG` of the
      hours, `MAX(t_dat)` and `MIN(t_dat)`, the frequency bucket of the
      count, and recency from the last purchase to the window's latest date. */
  lemma RowIsConsistent(ts: seq<Transaction>, lookback: int, i: nat)
    requires i < |CreateUserFeatures(ts, lookback)|
    ensures var row := CreateUserFeatures(ts, lookback)[i];
            var w := Window(ts, lookback);
            var ps := PurchasesOf(w, row.customer);
            && |w| > 0
            && |ps| >= 1
            && row.purchaseCount == |ps|
            && row.uniqueItems == |ToSet(Map(ps, (t: Transaction) => t.article))|
            && row.uniqueItems <= row.purchaseCount
            && row.avgPurchaseHour == AvgHour(ps) && row.avgPurchaseHour >= 0.0
            && row.lastPurchaseDate == MaxDate(ps)
            && row.firstPurchaseDate == MinDate(ps)
            && row.firstPurchaseDate <= row.lastPurchaseDate
            && row.recency == MaxDate(w) - MaxDate(ps) >= 0
            && (row.frequency == High <==> row.purchaseCount >= 10)
            && (row.frequency == Medium <==> 5 <= row.purchaseCount < 10)
            && (row.frequency == Low <==> row.purchaseCount < 5)
  {
    var w := Window(ts, lookback);
    RowAt(ts, lookback, i);
    StatsRowFacts(w, Customers(w)[i], MaxDate(w));
    FrequencyBucketRanges(CreateUserFeatures(ts, lookback)[i].purchaseCount);
  }

  /** Recency counts days from the customer's last in-window purchase to the
      latest date of the whole log. */
  lemma RecencyFromLatestDate(ts: seq<Transaction>, lookback: nat, i: nat)
    requires i < |CreateUserFeatures(ts, lookback)|
    ensures var row := CreateUserFeatures(ts, lookback)[i];
            var ps := PurchasesOf(Window(ts, lookback), row.customer);
            && |ts| > 0 && |ps| >= 1
            && row.lastPurchaseDate == MaxDate(ps)
            && row.recency == MaxDate(ts) - MaxDate(ps)
  {
    RowIsConsistent(ts, lookback, i);
    WindowKeepsMax(ts, lookback);
  }
}
