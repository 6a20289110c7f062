/** The training set: users sampled from the last 7 days, their purchases as
    positives, the top-100 popular articles they did not buy as negatives,
    both joined to the user and item feature tables and cut down to the
    seven feature columns the ranker reads. */
module Dataset {
  import opened Common
  import opened ItemFeatures
  import opened UserFeatures
  import opened CandidateGeneration

  const SampleLookbackDays: nat := 7
  /** How many popular articles the negatives are drawn from. */
  const NegativePoolArticles: nat := 100

  /** The seven feature columns, in the order the ranker is trained on. */
  const FeatureColumns: seq<string> :=
    ["avg_purchase_hour", "purchase_count", "recency", "unique_items",
     "popularity_rank", "sales_count", "peak_hour"]

  /** One row of the model input, fields in `FeatureColumns` order. */
  datatype FeatureVector = FeatureVector(
    avgPurchaseHour: real,
    purchaseCount: int,
    recency: int,
    uniqueItems: int,
    popularityRank: int,
    salesCount: int,
    peakHour: int)

  /** The feature row of a (user, item) pair: the user's four columns then
      the item's three. */
  function FeatureRow(u: UserRow, x: ItemRow): (v: FeatureVector)
    ensures v.avgPurchaseHour == u.avgPurchaseHour && v.purchaseCount == u.purchaseCount
    ensures v.recency == u.recency && v.uniqueItems == u.uniqueItems
    ensures v.popularityRank == x.popularityRank && v.salesCount == x.salesCount && v.peakHour == x.peakHour
  {
    FeatureVector(u.avgPurchaseHour, u.purchaseCount, u.recency, u.uniqueItems,
                  x.popularityRank, x.salesCount, x.peakHour)
  }

  /** A labelled (customer, article) pair of `all_samples`. */
  datatype Sample = Sample(customer: CustomerId, article: ArticleId, labelValue: int)

  /** A joined training row. */
  datatype TrainingRow = TrainingRow(sample: Sample, features: FeatureVector)

  // ---------------------------------------------------------------------
  // Sampling
  // ---------------------------------------------------------------------

  /** What `SELECT DISTINCT customer_id ... ORDER BY RANDOM() LIMIT n` may
      return: distinct in-window buyers, as many as `n` allows. */
  predicate ValidSample(w: seq<Transaction>, sampled: seq<CustomerId>, sampleSize: nat) {
    && Distinct(sampled)
    && (forall c :: c in sampled ==> BoughtIn(w, c))
    && |sampled| == Min(sampleSize, |Customers(w)|)
  }

  /** The first `n` buyers in log order are one admissible sample. */
  lemma SampleExists(w: seq<Transaction>, sampleSize: nat)
    ensures ValidSample(w, Take(Customers(w), sampleSize), sampleSize)
  {
    var cs := Customers(w);
    var s := Take(cs, sampleSize);
    forall c | c in s ensures BoughtIn(w, c) {
      var i :| 0 <= i < |s| && s[i] == c;
      assert cs[i] == c;
    }
  }

  // ---------------------------------------------------------------------
  // Positives and negatives
  // ---------------------------------------------------------------------

  function PositiveSample(t: Transaction): Sample {
    Sample(t.customer, t.article, 1)
  }

  /** `positive_samples`: one label-1 sample per in-window transaction of a
      sampled user. */
  function Positives(w: seq<Transaction>, sampled: seq<CustomerId>): seq<Sample> {
    Map(Filter(w, (t: Transaction) => t.customer in sampled), PositiveSample)
  }

  /** `(c, a)` is a positive pair. */
  predicate Bought(w: seq<Transaction>, c: CustomerId, a: ArticleId) {
    exists t :: t in w && t.customer == c && t.article == a
  }

  /** The label-0 samples of one user: the popular articles that user has no
      positive for, in popularity order. */
  function NegativesFor(w: seq<Transaction>, c: CustomerId, top: seq<ArticleId>): (r: seq<Sample>)
    ensures forall s :: s in r ==> s.customer == c && s.labelValue == 0 && s.article in top && !Bought(w, c, s.article)
    ensures forall a :: a in top && !Bought(w, c, a) ==> Sample(c, a, 0) in r
  {
    var kept := Filter(top, (a: ArticleId) => !Bought(w, c, a));
    var r := Map(kept, (a: ArticleId) => Sample(c, a, 0));
    forall s | s in r ensures s.customer == c && s.labelValue == 0 && s.article in top && !Bought(w, c, s.article) {
      var i :| 0 <= i < |r| && r[i] == s;
      assert kept[i] in kept;
    }
    forall a | a in top && !Bought(w, c, a) ensures Sample(c, a, 0) in r {
      assert a in kept;
      var i :| 0 <= i < |kept| && kept[i] == a;
      assert r[i] == Sample(c, a, 0);
    }
    r
  }

  /** The `CROSS JOIN ... WHERE NOT EXISTS` pool, before `RANDOM()` and `LIMIT`. */
  function NegativePool(w: seq<Transaction>, sampled: seq<CustomerId>, top: seq<ArticleId>): (r: seq<Sample>)
    ensures forall s :: s in r ==> s.customer in sampled && s.labelValue == 0 && s.article in top && !Bought(w, s.customer, s.article)
    ensures forall c, a :: c in sampled && a in top && !Bought(w, c, a) ==> Sample(c, a, 0) in r
  {
    if sampled == [] then []
    else
      var rest := NegativePool(w, sampled[1..], top);
      assert forall c :: c in sampled ==> c == sampled[0] || c in sampled[1..];
      NegativesFor(w, sampled[0], top) + rest
  }

  /** What `ORDER BY RANDOM() LIMIT k` may keep of the pool: `k` samples (or
      the whole pool), each drawn at most as often as it occurs there. */
  predicate ValidDraw(drawn: seq<Sample>, pool: seq<Sample>, k: nat) {
    multiset(drawn) <= multiset(pool) && |drawn| == Min(k, |pool|)
  }

  function NegativeLimit(positives: seq<Sample>, negativeRatio: nat): nat {
    |positives| * negativeRatio
  }

  /** The pool's first `k` samples are one admissible draw. */
  lemma DrawExists(pool: seq<Sample>, k: nat)
    ensures ValidDraw(Take(pool, k), pool, k)
  {
    assert pool == Take(pool, k) + pool[Min(k, |pool|)..];
  }

  // ---------------------------------------------------------------------
  // Join with the feature tables
  // ---------------------------------------------------------------------

  /** All joined rows of one sample against the matching user rows. */
  function PairRows(s: Sample, us: seq<UserRow>, xs: seq<ItemRow>): (r: seq<TrainingRow>)
    ensures forall row :: row in r ==>
              row.sample == s && exists u, x :: u in us && x in xs && row.features == FeatureRow(u, x)
    ensures us != [] && xs != [] ==> r != []
  {
    if us == [] then []
    else
      var head := Map(xs, (x: ItemRow) => TrainingRow(s, FeatureRow(us[0], x)));
      var rest := PairRows(s, us[1..], xs);
      assert forall row :: row in head ==> exists x :: x in xs && row.features == FeatureRow(us[0], x) by {
        forall row | row in head ensures exists x :: x in xs && row.features == FeatureRow(us[0], x) {
          var i :| 0 <= i < |head| && head[i] == row;
          assert xs[i] in xs;
        }
      }
      assert forall u :: u in us[1..] ==> u in us;
      assert xs != [] ==> head[0] in head;
      head + rest
  }

  function UsersOf(users: seq<UserRow>, c: CustomerId): seq<UserRow> {
    Filter(users, (u: UserRow) => u.customer == c)
  }

  function ItemsOf(items: seq<ItemRow>, a: ArticleId): seq<ItemRow> {
    Filter(items, (x: ItemRow) => x.article == a)
  }

  /** The two `LEFT JOIN`s filtered by `IS NOT NULL`: each sample paired
      with every matching user row and item row. */
  function Join(samples: seq<Sample>, users: seq<UserRow>, items: seq<ItemRow>): seq<TrainingRow> {
    if samples == [] then []
    else
      PairRows(samples[0], UsersOf(users, samples[0].customer), ItemsOf(items, samples[0].article))
        + Join(samples[1..], users, items)
  }

  predicate HasUserRow(users: seq<UserRow>, c: CustomerId) {
    exists u :: u in users && u.customer == c
  }

  predicate HasItemRow(items: seq<ItemRow>, a: ArticleId) {
    exists x :: x in items && x.article == a
  }

  /** A joined row comes from a sample with a user row and an item row, and
      carries exactly those rows' features. */
  lemma {:induction false} JoinProvenance(samples: seq<Sample>, users: seq<UserRow>, items: seq<ItemRow>, row: TrainingRow)
    requires row in Join(samples, users, items)
    ensures row.sample in samples
    ensures exists u, x :: u in users && x in items && u.customer == row.sample.customer &&
                           x.article == row.sample.article && row.features == FeatureRow(u, x)
  {
    var s := samples[0];
    var us := UsersOf(users, s.customer);
    var xs := ItemsOf(items, s.article);
    if row in PairRows(s, us, xs) {
      var u, x :| u in us && x in xs && row.features == FeatureRow(u, x);
    } else {
      JoinProvenance(samples[1..], users, items, row);
    }
  }

  /** A sample whose customer has a user row and whose article has an item
      row survives the join. */
  lemma {:induction false} JoinKeeps(samples: seq<Sample>, users: seq<UserRow>, items: seq<ItemRow>, s: Sample)
    requires s in samples && HasUserRow(users, s.customer) && HasItemRow(items, s.article)
    ensures exists row :: row in Join(samples, users, items) && row.sample == s
  {
    if samples[0] == s {
      var u :| u in users && u.customer == s.customer;
      var x :| x in items && x.article == s.article;
      assert u in UsersOf(users, s.customer);
      assert x in ItemsOf(items, s.article);
      var r := PairRows(s, UsersOf(users, s.customer), ItemsOf(items, s.article));
      assert r[0] in Join(samples, users, items);
    } else {
      JoinKeeps(samples[1..], users, items, s);
      var row :| row in Join(samples[1..], users, items) && row.sample == s;
      assert row in Join(samples, users, items);
    }
  }

  // ---------------------------------------------------------------------
  // The query
  // ---------------------------------------------------------------------

  /** `create_training_dataset` over the transaction log and the two feature
      tables. The two `ORDER BY RANDOM()` draws are free choices; `sampled`,
      `negatives` and `rows` report which ones were made. */
  method CreateTrainingDataset(ts: seq<Transaction>, users: seq<UserRow>, items: seq<ItemRow>,
                               sampleSize: nat, negativeRatio: nat)
    returns (features: seq<FeatureVector>, labels: seq<int>,
             ghost sampled: seq<CustomerId>, ghost negatives: seq<Sample>, ghost rows: seq<TrainingRow>)
    ensures var w := Window(ts, SampleLookbackDays);
            && ValidSample(w, sampled, sampleSize)
            && ValidDraw(negatives,
                         NegativePool(w, sampled, PopularityCandidates(items, NegativePoolArticles)),
                         NegativeLimit(Positives(w, sampled), negativeRatio))
            && rows == Join(Positives(w, sampled) + negatives, users, items)
    ensures |features| == |labels| == |rows|
    ensures forall i :: 0 <= i < |rows| ==> features[i] == rows[i].features && labels[i] == rows[i].sample.labelValue
  {
    var w := Window(ts, SampleLookbackDays);
    SampleExists(w, sampleSize);
    var chosen :| ValidSample(w, chosen, sampleSize);
    sampled := chosen;
    var positives := Positives(w, chosen);
    var pool := NegativePool(w, chosen, PopularityCandidates(items, NegativePoolArticles));
    var limit := NegativeLimit(positives, negativeRatio);
    DrawExists(pool, limit);
    var drawn :| ValidDraw(drawn, pool, limit);
    negatives := drawn;
    var joined := Join(positives + drawn, users, items);
    rows := joined;
    features := Map(joined, (r: TrainingRow) => r.features);
    labels := Map(joined, (r: TrainingRow) => r.sample.labelValue);
  }

  // ---------------------------------------------------------------------
  // Properties of the labelling
  // ---------------------------------------------------------------------

  /** Every in-window transaction of a sampled user yields a positive. */
  lemma PositivesCoverSampledPurchases(w: seq<Transaction>, sampled: seq<CustomerId>, t: Transaction)
    requires t in w && t.customer in sampled
    ensures Sample(t.customer, t.article, 1) in Positives(w, sampled)
  {
    var f := Filter(w, (t: Transaction) => t.customer in sampled);
    assert t in f;
    var i :| 0 <= i < |f| && f[i] == t;
    assert Positives(w, sampled)[i] == PositiveSample(t);
  }

  /** Every positive is a label-1 in-window purchase of a sampled user. */
  lemma PositivesAreSampledPurchases(w: seq<Transaction>, sampled: seq<CustomerId>, s: Sample)
    requires s in Positives(w, sampled)
    ensures s.labelValue == 1 && s.customer in sampled && Bought(w, s.customer, s.article)
  {
    var f := Filter(w, (t: Transaction) => t.customer in sampled);
    var i :| 0 <= i < |f| && Positives(w, sampled)[i] == s;
    assert f[i] in f;
  }

  /** No negative is a positive pair. */
  lemma NegativeNotPositive(w: seq<Transaction>, sampled: seq<CustomerId>, top: seq<ArticleId>, s: Sample, p: Sample)
    requires s in NegativePool(w, sampled, top) && p in Positives(w, sampled)
    ensures (p.customer, p.article) != (s.customer, s.article)
  {
    PositivesAreSampledPurchases(w, sampled, p);
  }

  /** Negatives: label 0, a sampled user, an article of the popular list
      `top`, never a pair that is also a positive, and no more than
      `negativeRatio` per positive. */
  lemma NegativesSpec(w: seq<Transaction>, sampled: seq<CustomerId>, top: seq<ArticleId>,
                      negativeRatio: nat, negatives: seq<Sample>)
    requires ValidDraw(negatives, NegativePool(w, sampled, top), NegativeLimit(Positives(w, sampled), negativeRatio))
    ensures |negatives| <= |Positives(w, sampled)| * negativeRatio
    ensures forall s :: s in negatives ==>
              && s.labelValue == 0 && s.customer in sampled && s.article in top
              && forall p :: p in Positives(w, sampled) ==> (p.customer, p.article) != (s.customer, s.article)
  {
    var pool := NegativePool(w, sampled, top);
    forall s | s in negatives
      ensures && s.labelValue == 0 && s.customer in sampled && s.article in top
              && forall p :: p in Positives(w, sampled) ==> (p.customer, p.article) != (s.customer, s.article)
    {
      assert s in multiset(negatives);
      assert s in pool;
      forall p | p in Positives(w, sampled) ensures (p.customer, p.article) != (s.customer, s.article) {
        NegativeNotPositive(w, sampled, top, s, p);
      }
    }
  }

  /** The negatives come from the 100 best-ranked rows of the item table. */
  lemma NegativeArticlesArePopular(items: seq<ItemRow>, a: ArticleId)
    requires a in PopularityCandidates(items, NegativePoolArticles)
    ensures exists x :: x in items && x.article == a
    ensures |PopularityCandidates(items, NegativePoolArticles)| <= NegativePoolArticles
  {
    PopularityFromTable(items, NegativePoolArticles, a);
  }
}
