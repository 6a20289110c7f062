/** Candidate generation: a popularity list read from the item-feature
    table, an item-to-item co-purchase list computed over the last 28 days
    of transactions, and their merge into one unordered, duplicate-free
    pool topped up from a longer popularity list. */
module CandidateGeneration {
  import opened Common
  import opened ItemFeatures
  import opened FeatureStore

  /** The co-purchase query's fixed window, in days. */
  const CoPurchaseLookbackDays: nat := 28
  /** How many of the user's latest purchases seed the co-purchase query. */
  const SeedCount: nat := 5
  /** `LIMIT` on the similar-user set. */
  const SimilarUserCap: nat := 1000

  // ---------------------------------------------------------------------
  // Popularity candidates
  // ---------------------------------------------------------------------

  /** The rows `ORDER BY popularity_rank LIMIT topK` keeps: the best-ranked
      `topK` rows, in ascending rank. */
  function PopularityRows(items: seq<ItemRow>, topK: nat): (rows: seq<ItemRow>)
    ensures |rows| == Min(topK, |items|)
    ensures forall i, j :: 0 <= i < j < |rows| ==> rows[i].popularityRank <= rows[j].popularityRank
    ensures multiset(rows) <= multiset(items)
    ensures forall x, i :: x in multiset(items) - multiset(rows) && 0 <= i < |rows| ==>
              rows[i].popularityRank <= x.popularityRank
  {
    var sorted := SortBy(items, ByRank());
    TakeSortedDominates(sorted, ByRank(), topK);
    var rows := Take(sorted, topK);
    assert forall i, j :: 0 <= i < j < |rows| ==> ByRank()(rows[i]) <= ByRank()(rows[j]) by {
      forall i, j | 0 <= i < j < |rows| ensures ByRank()(rows[i]) <= ByRank()(rows[j]) {
        assert rows[i] == sorted[i] && rows[j] == sorted[j];
      }
    }
    rows
  }

  /** `generate_popularity_candidates`: the article ids of those rows. */
  function PopularityCandidates(items: seq<ItemRow>, topK: nat): (r: seq<ArticleId>)
    ensures |r| == Min(topK, |items|)
    ensures forall i :: 0 <= i < |r| ==> r[i] == PopularityRows(items, topK)[i].article
  {
    Map(PopularityRows(items, topK), (x: ItemRow) => x.article)
  }

  /** `generate_popularity_candidates` against the item file, `None` when it
      does not exist: the query reads the file unchecked, so a missing file
      is the engine's read error. */
  function PopularityQuery(file: Option<seq<ItemRow>>, topK: nat): (r: Result<seq<ArticleId>, StoreError>)
    ensures r.Err? <==> file.None?
    ensures r.Err? ==> r.error == ReadFailed(ItemFile)
    ensures r.Ok? ==> r.value == PopularityCandidates(file.value, topK)
  {
    if file.None? then Err(ReadFailed(ItemFile)) else Ok(PopularityCandidates(file.value, topK))
  }

  /** Every popularity candidate is an article of the item table. */
  lemma PopularityFromTable(items: seq<ItemRow>, topK: nat, a: ArticleId)
    requires a in PopularityCandidates(items, topK)
    ensures exists x :: x in items && x.article == a
  {
    var rows := PopularityRows(items, topK);
    var i :| 0 <= i < |rows| && PopularityCandidates(items, topK)[i] == a;
    assert rows[i] in multiset(rows);
  }

  // ---------------------------------------------------------------------
  // Co-purchase candidates
  // ---------------------------------------------------------------------

  function ByDateDesc(): Transaction -> int {
    (t: Transaction) => -t.date
  }

  /** The user's in-window purchases. */
  function UserRows(w: seq<Transaction>, user: CustomerId): seq<Transaction> {
    Filter(w, (t: Transaction) => t.customer == user)
  }

  /** `user_items`: the user's latest purchases, `ORDER BY t_dat DESC LIMIT 5`
      (same-day purchases in log order; the query leaves that order open). */
  function SeedRows(w: seq<Transaction>, user: CustomerId): seq<Transaction> {
    Take(SortBy(UserRows(w, user), ByDateDesc()), SeedCount)
  }

  function Seeds(w: seq<Transaction>, user: CustomerId): seq<ArticleId> {
    Map(SeedRows(w, user), (t: Transaction) => t.article)
  }

  /** Five seeds, or all of the user's in-window purchases when there are
      fewer; each is one of those purchases, and no purchase of the user left
      out is later than one taken. */
  lemma SeedsAreLatest(w: seq<Transaction>, user: CustomerId)
    ensures |SeedRows(w, user)| == Min(SeedCount, |UserRows(w, user)|)
    ensures forall t :: t in SeedRows(w, user) ==> t in w && t.customer == user
    ensures forall t, i :: t in multiset(UserRows(w, user)) - multiset(SeedRows(w, user)) && 0 <= i < |SeedRows(w, user)| ==>
              t.date <= SeedRows(w, user)[i].date
  {
    var rows := UserRows(w, user);
    var sorted := SortBy(rows, ByDateDesc());
    var seeds := SeedRows(w, user);
    TakeSortedDominates(sorted, ByDateDesc(), SeedCount);
    forall t | t in seeds ensures t in w && t.customer == user {
      assert t in multiset(seeds);
      assert t in multiset(rows);
    }
    forall t, i | t in multiset(rows) - multiset(seeds) && 0 <= i < |seeds|
      ensures t.date <= seeds[i].date
    {
      assert ByDateDesc()(seeds[i]) <= ByDateDesc()(t);
    }
  }

  /** `user_purchased`: everything the user bought in the window. */
  function Purchased(w: seq<Transaction>, user: CustomerId): set<ArticleId> {
    set t | t in w && t.customer == user :: t.article
  }

  /** Other users who bought a seed in the window, each once. */
  function SimilarPool(w: seq<Transaction>, user: CustomerId): seq<CustomerId> {
    var seeds := Seeds(w, user);
    Dedup(Map(Filter(w, (t: Transaction) => t.article in seeds && t.customer != user), (t: Transaction) => t.customer))
  }

  /** `similar_users`: `LIMIT 1000` without `ORDER BY`; which thousand is
      unspecified, so only facts true of any such choice are promised. */
  function SimilarUsers(w: seq<Transaction>, user: CustomerId): seq<CustomerId> {
    Take(SimilarPool(w, user), SimilarUserCap)
  }

  predicate BoughtSeed(w: seq<Transaction>, user: CustomerId, c: CustomerId) {
    exists t :: t in w && t.customer == c && t.article in Seeds(w, user)
  }

  /** The pool is every other user who bought a seed, each once; 1000 of
      them are kept, or all when fewer qualify. */
  lemma SimilarUsersSpec(w: seq<Transaction>, user: CustomerId)
    ensures |SimilarUsers(w, user)| == Min(SimilarUserCap, |SimilarPool(w, user)|)
    ensures forall c :: c in SimilarPool(w, user) <==> c != user && BoughtSeed(w, user, c)
    ensures Distinct(SimilarUsers(w, user))
    ensures forall c :: c in SimilarUsers(w, user) ==> c != user && BoughtSeed(w, user, c)
    ensures |SimilarPool(w, user)| <= SimilarUserCap ==>
              forall c :: c in SimilarUsers(w, user) <==> c != user && BoughtSeed(w, user, c)
  {
    var seeds := Seeds(w, user);
    var p := (t: Transaction) => t.article in seeds && t.customer != user;
    var f := (t: Transaction) => t.customer;
    var pool := SimilarPool(w, user);
    forall c ensures c in pool <==> c != user && BoughtSeed(w, user, c) {
      MapMembership(Filter(w, p), f, c);
      if c != user && BoughtSeed(w, user, c) {
        var t :| t in w && t.customer == c && t.article in seeds;
        assert t in Filter(w, p);
      }
    }
    var sim := SimilarUsers(w, user);
    forall c | c in sim ensures c in pool {
      var i :| 0 <= i < |sim| && sim[i] == c;
    }
  }

  /** The similar users' in-window purchases of articles the user has not
      bought: the rows `candidate_items` counts. */
  function CandidateRows(w: seq<Transaction>, user: CustomerId): seq<Transaction> {
    var similar := SimilarUsers(w, user);
    var bought := Purchased(w, user);
    Filter(w, (t: Transaction) => t.customer in similar && t.article !in bought)
  }

  /** Co-purchase count of article `a` (`COUNT(*)` per article). */
  function CoCount(w: seq<Transaction>, user: CustomerId, a: ArticleId): nat {
    SalesCount(CandidateRows(w, user), a)
  }

  /** All counted articles, by descending co-purchase count. */
  function CoRanked(w: seq<Transaction>, user: CustomerId): seq<ArticleId> {
    RankedArticles(CandidateRows(w, user))
  }

  /** `generate_cf_candidates`: the `topK` articles with the highest
      co-purchase counts (`ORDER BY purchase_count DESC LIMIT topK`). */
  function CfCandidates(ts: seq<Transaction>, user: CustomerId, topK: nat): (r: seq<ArticleId>)
    ensures |r| <= topK
  {
    Take(CoRanked(Window(ts, CoPurchaseLookbackDays), user), topK)
  }

  /** The first `k` articles by descending count: distinct, each counted,
      counts non-increasing, and nothing counted but left out outranks
      anything kept. */
  lemma TopRankedSpec(rows: seq<Transaction>, k: nat)
    ensures var r := Take(RankedArticles(rows), k);
            && |r| == Min(k, |RankedArticles(rows)|)
            && (|RankedArticles(rows)| <= k ==> forall a :: SoldIn(rows, a) ==> a in r)
            && Distinct(r)
            && (forall a :: a in r ==> SoldIn(rows, a))
            && (forall i, j :: 0 <= i < j < |r| ==> SalesCount(rows, r[i]) >= SalesCount(rows, r[j]))
            && (forall a, i :: SoldIn(rows, a) && a !in r && 0 <= i < |r| ==>
                  SalesCount(rows, a) <= SalesCount(rows, r[i]))
  {
    var ranked := RankedArticles(rows);
    var key := BySalesDesc(rows);
    RankedArticlesSpec(rows);
    TakeDistinctSorted(ranked, key, k);
    var r := Take(ranked, k);
    if |ranked| <= k {
      assert r == ranked;
    }
    forall i, j | 0 <= i < j < |r| ensures SalesCount(rows, r[i]) >= SalesCount(rows, r[j]) {
      assert key(r[i]) <= key(r[j]);
    }
    forall a, i | SoldIn(rows, a) && a !in r && 0 <= i < |r|
      ensures SalesCount(rows, a) <= SalesCount(rows, r[i])
    {
      assert key(r[i]) <= key(a);
    }
  }

  /** `CoRanked` lists each counted article once, so its length is the
      number of counted articles. The co-purchase list holds `min(topK, that
      number)` distinct articles by non-increasing count, all of them when
      they fit, and no counted article left out has a higher count than one
      kept. */
  lemma CfCandidatesAreTopK(ts: seq<Transaction>, user: CustomerId, topK: nat)
    ensures var w := Window(ts, CoPurchaseLookbackDays);
            var r := CfCandidates(ts, user, topK);
            var counted := CoRanked(w, user);
            && Distinct(counted)
            && (forall a :: a in counted <==> SoldIn(CandidateRows(w, user), a))
            && |r| == Min(topK, |counted|)
            && (|counted| <= topK ==> forall a :: SoldIn(CandidateRows(w, user), a) ==> a in r)
            && Distinct(r)
            && (forall i, j :: 0 <= i < j < |r| ==> CoCount(w, user, r[i]) >= CoCount(w, user, r[j]))
            && (forall a, i :: SoldIn(CandidateRows(w, user), a) && a !in r && 0 <= i < |r| ==>
                  CoCount(w, user, a) <= CoCount(w, user, r[i]))
  {
    var rows := CandidateRows(Window(ts, CoPurchaseLookbackDays), user);
    RankedArticlesSpec(rows);
    TopRankedSpec(rows, topK);
  }

  /** Each co-purchase candidate was bought in the last 28 days by a similar
      user, and never by the user in that window. */
  lemma CfCandidatesProvenance(ts: seq<Transaction>, user: CustomerId, topK: nat, a: ArticleId)
    requires a in CfCandidates(ts, user, topK)
    ensures var w := Window(ts, CoPurchaseLookbackDays);
            && a !in Purchased(w, user)
            && exists t :: t in ts && t.date >= MaxDate(ts) - CoPurchaseLookbackDays
                           && t.article == a && t.customer != user && t.customer in SimilarUsers(w, user)
  {
    var w := Window(ts, CoPurchaseLookbackDays);
    var rows := CandidateRows(w, user);
    TopRankedSpec(rows, topK);
    var t :| t in rows && t.article == a;
    CandidateRowsExcludeUser(w, user, t);
  }

  /** The user is never their own similar user, and nothing the user bought
      is counted. */
  lemma CandidateRowsExcludeUser(w: seq<Transaction>, user: CustomerId, t: Transaction)
    requires t in CandidateRows(w, user)
    ensures t.customer != user && t.article !in Purchased(w, user) && t in w
  {
    SimilarUsersSpec(w, user);
  }

  // ---------------------------------------------------------------------
  // Merge
  // ---------------------------------------------------------------------

  /** `int(total_k * popularity_ratio)`. */
  function PopBudget(totalK: nat, ratio: real): (popK: nat)
    requires 0.0 <= ratio <= 1.0
    ensures popK <= totalK
  {
    var x := totalK as real * ratio;
    assert 0.0 <= x <= totalK as real by {
      assert totalK as real * ratio <= totalK as real * 1.0;
    }
    Trunc(x)
  }

  /** For the ratio every caller passes, 0.5, the budget is `totalK // 2`:
      halving is exact in floating point, so this is Python's value too. */
  lemma HalfBudget(totalK: nat)
    ensures PopBudget(totalK, 0.5) == totalK / 2
  {
    var q := totalK / 2;
    var x := totalK as real * 0.5;
    assert x == q as real + (totalK % 2) as real * 0.5;
    assert q as real <= x < q as real + 1.0;
  }

  /** The budget split covers the total exactly. */
  lemma BudgetSplit(totalK: nat, ratio: real)
    requires 0.0 <= ratio <= 1.0
    ensures var popK := PopBudget(totalK, ratio);
            var cfK := totalK - popK;
            0 <= cfK && popK + cfK == totalK
  {
  }

  /** The expansion loop: add items of `extra` in order until the set holds
      `totalK` items or `extra` runs out. */
  function TopUp(s: set<ArticleId>, extra: seq<ArticleId>, totalK: nat): set<ArticleId>
    decreases |extra|
  {
    if extra == [] || |s| >= totalK then s
    else TopUp(s + {extra[0]}, extra[1..], totalK)
  }

  lemma {:induction false} TopUpSpec(s: set<ArticleId>, extra: seq<ArticleId>, totalK: nat)
    ensures s <= TopUp(s, extra, totalK) <= s + ToSet(extra)
    ensures |s| <= totalK ==> |TopUp(s, extra, totalK)| == Min(totalK, |s + ToSet(extra)|)
    decreases |extra|
  {
    if extra == [] {
      assert ToSet(extra) == {};
      assert s + ToSet(extra) == s;
    } else if |s| >= totalK {
      SubsetCard(s, s + ToSet(extra));
    } else {
      var s' := s + {extra[0]};
      TopUpSpec(s', extra[1..], totalK);
      assert ToSet(extra) == {extra[0]} + ToSet(extra[1..]) by {
        assert forall x :: x in extra <==> x == extra[0] || x in extra[1..];
      }
      assert s' + ToSet(extra[1..]) == s + ToSet(extra);
      UnionCard(s, {extra[0]});
    }
  }

  lemma SubsetCard<T>(a: set<T>, b: set<T>)
    requires a <= b
    ensures |a| <= |b|
  {
    assert b == a + (b - a);
  }

  /** The set `merge_candidates` ends with, from the two lists and the
      longer popularity list used for the top-up. */
  function MergedSet(pop: seq<ArticleId>, cf: seq<ArticleId>, extra: seq<ArticleId>, totalK: nat): set<ArticleId> {
    var base := ToSet(pop) + ToSet(cf);
    if |base| < totalK then TopUp(base, extra, totalK) else base
  }

  /** Provenance and size of the merged set: it holds both lists, adds only
      items of the expansion list, never exceeds `totalK` when the lists
      respect their budgets, and is topped up only when short. */
  lemma MergedSetSpec(pop: seq<ArticleId>, cf: seq<ArticleId>, extra: seq<ArticleId>, totalK: nat)
    requires |pop| + |cf| <= totalK
    ensures var m := MergedSet(pop, cf, extra, totalK);
            && ToSet(pop) + ToSet(cf) <= m <= ToSet(pop) + ToSet(cf) + ToSet(extra)
            && |m| <= totalK
            && |m| == Min(totalK, |ToSet(pop) + ToSet(cf) + ToSet(extra)|)
            && (|ToSet(pop) + ToSet(cf)| >= totalK ==> m == ToSet(pop) + ToSet(cf))
  {
    var base := ToSet(pop) + ToSet(cf);
    ToSetCard(pop);
    ToSetCard(cf);
    UnionCard(ToSet(pop), ToSet(cf));
    TopUpSpec(base, extra, totalK);
    if |base| >= totalK {
      SubsetCard(base, base + ToSet(extra));
    }
  }

  /** The pool `merge_candidates` produces: both lists under the budget
      split, topped up from the top `2 * totalK` popular items. */
  function MergePool(items: seq<ItemRow>, ts: seq<Transaction>, user: CustomerId, ratio: real, totalK: nat): (m: set<ArticleId>)
    requires 0.0 <= ratio <= 1.0
    ensures |m| <= totalK
  {
    var popK := PopBudget(totalK, ratio);
    var pop := PopularityCandidates(items, popK);
    var cf := CfCandidates(ts, user, totalK - popK);
    var extra := PopularityCandidates(items, totalK * 2);
    MergedSetSpec(pop, cf, extra, totalK);
    MergedSet(pop, cf, extra, totalK)
  }

  /** The union of the two budgeted lists, topped up, is the merge pool. */
  lemma MergePoolUnfold(items: seq<ItemRow>, ts: seq<Transaction>, user: CustomerId, ratio: real, totalK: nat,
                        pop: seq<ArticleId>, cf: seq<ArticleId>)
    requires 0.0 <= ratio <= 1.0
    requires pop == PopularityCandidates(items, PopBudget(totalK, ratio))
    requires cf == CfCandidates(ts, user, totalK - PopBudget(totalK, ratio))
    ensures MergedSet(pop, cf, PopularityCandidates(items, totalK * 2), totalK) == MergePool(items, ts, user, ratio, totalK)
  {
  }

  /** A cut listing of a set that already fits the cut lists all of it. */
  lemma ListedWhole(r: seq<ArticleId>, m: set<ArticleId>, totalK: nat)
    requires |m| <= totalK
    requires |r| == Min(totalK, |m|) && (|m| <= totalK ==> ToSet(r) == m)
    ensures ToSet(r) == m && |r| <= totalK
  {
  }

  /** `list(set)`: the elements of `s` in some order, each once. */
  method Enumerate(s: set<ArticleId>) returns (r: seq<ArticleId>)
    ensures Distinct(r) && ToSet(r) == s && |r| == |s|
  {
    r := [];
    var rest := s;
    while rest != {}
      invariant Distinct(r)
      invariant ToSet(r) + rest == s
      invariant ToSet(r) !! rest
      invariant |r| + |rest| == |s|
      decreases |rest|
    {
      var x :| x in rest;
      assert x !in r;
      r := r + [x];
      rest := rest - {x};
    }
  }

  /** The expansion loop of `merge_candidates`. */
  method FillUp(base: set<ArticleId>, extra: seq<ArticleId>, totalK: nat) returns (all: set<ArticleId>)
    ensures all == TopUp(base, extra, totalK)
  {
    all := base;
    var i := 0;
    while i < |extra|
      invariant 0 <= i <= |extra|
      invariant TopUp(all, extra[i..], totalK) == TopUp(base, extra, totalK)
    {
      if |all| >= totalK {
        break;
      }
      assert extra[i..][1..] == extra[i + 1..];
      all := all + {extra[i]};
      i := i + 1;
    }
  }

  class CandidateGenerator {
    /** The cached connection (`self.con`). */
    var con: Option<Handle>
    var openCount: nat
    /** The item-feature file the popularity queries read; `None` when it
        does not exist. */
    const itemFile: Option<seq<ItemRow>>
    /** The transaction log the co-purchase query reads. */
    const transactions: seq<Transaction>

    constructor(itemFile: Option<seq<ItemRow>>, transactions: seq<Transaction>)
      ensures con == None && openCount == 0
      ensures this.itemFile == itemFile && this.transactions == transactions
    {
      this.itemFile := itemFile;
      this.transactions := transactions;
      con := None;
      openCount := 0;
    }

    /** Open a connection only when none is cached; otherwise return it. */
    method Connect() returns (h: Handle)
      modifies this
      ensures con == Some(h)
      ensures old(con).Some? ==> h == old(con).value && openCount == old(openCount)
      ensures old(con).None? ==> h == Handle(old(openCount)) && openCount == old(openCount) + 1
    {
      if con.None? {
        con := Some(Handle(openCount));
        openCount := openCount + 1;
      }
      h := con.value;
    }

    method GeneratePopularityCandidates(topK: nat) returns (r: Result<seq<ArticleId>, StoreError>)
      modifies this
      ensures con.Some? && (old(con).Some? ==> con == old(con))
      ensures r == PopularityQuery(itemFile, topK)
    {
      var _ := Connect();
      if itemFile.None? {
        return Err(ReadFailed(ItemFile));
      }
      r := Ok(PopularityCandidates(itemFile.value, topK));
    }

    method GenerateCfCandidates(user: CustomerId, topK: nat) returns (r: seq<ArticleId>)
      modifies this
      ensures con.Some? && (old(con).Some? ==> con == old(con))
      ensures r == CfCandidates(transactions, user, topK)
    {
      var _ := Connect();
      r := CfCandidates(transactions, user, topK);
    }

    /** `merge_candidates`: set union of the two lists, topped up from the
        top `2 * totalK` popular items while short, listed in some order and
        cut to `totalK` (a cut that never removes anything). A missing item
        file fails the first popularity query, and the error escapes. */
    method MergeCandidates(user: CustomerId, ratio: real, totalK: nat) returns (r: Result<seq<ArticleId>, StoreError>)
      requires 0.0 <= ratio <= 1.0
      modifies this
      ensures con.Some? && (old(con).Some? ==> con == old(con))
      ensures r.Err? <==> itemFile.None?
      ensures r.Err? ==> r.error == ReadFailed(ItemFile)
      ensures r.Ok? ==> Distinct(r.value)
      ensures r.Ok? ==> ToSet(r.value) == MergePool(itemFile.value, transactions, user, ratio, totalK)
      ensures r.Ok? ==> |r.value| <= totalK
    {
      var popK := PopBudget(totalK, ratio);
      var pop := GeneratePopularityCandidates(popK);
      if pop.Err? {
        return Err(pop.error);
      }
      var cf := GenerateCfCandidates(user, totalK - popK);
      var listed := UnionAndTopUp(pop.value, cf, totalK);
      MergePoolUnfold(itemFile.value, transactions, user, ratio, totalK, pop.value, cf);
      ListedWhole(listed, MergePool(itemFile.value, transactions, user, ratio, totalK), totalK);
      r := Ok(listed);
    }

    /** The second half of `merge_candidates`, once the first query has read
        the item file: union, top-up while short, listing and the final cut. */
    method UnionAndTopUp(pop: seq<ArticleId>, cf: seq<ArticleId>, totalK: nat) returns (r: seq<ArticleId>)
      requires con.Some? && itemFile.Some?
      modifies this
      ensures con == old(con)
      ensures var m := MergedSet(pop, cf, PopularityCandidates(itemFile.value, totalK * 2), totalK);
              && Distinct(r) && ToSet(r) <= m && |r| == Min(totalK, |m|)
              && (|m| <= totalK ==> ToSet(r) == m)
    {
      var all := ToSet(pop) + ToSet(cf);
      if |all| < totalK {
        var extra := GeneratePopularityCandidates(totalK * 2);
        all := FillUp(all, extra.value, totalK);
      }
      var listed := Enumerate(all);
      r := listed[..Min(totalK, |listed|)];
      if |all| <= totalK {
        assert r == listed;
      }
    }

    /** Release the connection; closing twice is harmless. */
    method Close()
      modifies this
      ensures con == None && openCount == old(openCount)
    {
      if con.Some? {
        con := None;
      }
    }
  }
}
