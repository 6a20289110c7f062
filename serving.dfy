/** The recommendation service: merge a candidate pool, look up the user's
    and the candidates' feature rows, score them with an optional ranker and
    return the best-scored `topK`, falling back to the unscored pool (or to
    nothing) whenever a stage has nothing to offer or fails. */
module Serving {
  import opened Common
  import opened ItemFeatures
  import opened UserFeatures
  import opened FeatureStore
  import opened CandidateGeneration
  import opened Dataset

  /** `recommend` always asks for a pool of 100 with the default split. */
  const CandidatePoolSize: nat := 100
  const DefaultPopularityRatio: real := 0.5
  /** Send hour used when the user's average purchase hour is zero. */
  const DefaultSendHour: int := 12

  /** The keys of each row of `features_list`, in insertion order. */
  const ServingColumns: seq<string> :=
    ["avg_purchase_hour", "purchase_count", "recency", "unique_items",
     "popularity_rank", "sales_count", "peak_hour"]

  /** Serving builds its rows with the keys, in the order, that training
      selects. */
  lemma ColumnOrderShared()
    ensures ServingColumns == FeatureColumns
    ensures |ServingColumns| == 7
  {
  }

  /** A loaded ranker: one score per input row, or `None` where `predict`
      raises. Only the order of scores matters to the service. */
  datatype Ranker = Ranker(predict: seq<FeatureVector> -> Option<seq<int>>)

  /** The response dictionary; `scores == None` is a response without the
      `scores` key, `optimalSendTime == None` a `None` value. */
  datatype Response = Response(
    userId: CustomerId,
    recommendations: seq<ArticleId>,
    scores: Option<seq<int>>,
    optimalSendTime: Option<int>)

  // ---------------------------------------------------------------------
  // Send hour
  // ---------------------------------------------------------------------

  /** `int(avg) if avg else 12`: only an average of exactly zero takes the
      default; any other value is truncated, so 0.5 gives hour 0. */
  function SendHour(avg: real): (h: int)
    ensures avg == 0.0 ==> h == DefaultSendHour
    ensures avg > 0.0 ==> 0 <= h && h as real <= avg < h as real + 1.0
  {
    if avg != 0.0 then Trunc(avg) else DefaultSendHour
  }

  // ---------------------------------------------------------------------
  // Feature matrix
  // ---------------------------------------------------------------------

  /** The feature matrix: row `i` belongs to item row `i`. */
  function Features(u: UserRow, rows: seq<ItemRow>): (fs: seq<FeatureVector>)
    ensures |fs| == |rows|
    ensures forall i :: 0 <= i < |rows| ==> fs[i] == FeatureRow(u, rows[i])
  {
    Map(rows, (x: ItemRow) => FeatureRow(u, x))
  }

  /** The loop that appends one feature row per item row. */
  method BuildFeatures(u: UserRow, rows: seq<ItemRow>) returns (fs: seq<FeatureVector>)
    ensures fs == Features(u, rows)
  {
    fs := [];
    var i := 0;
    while i < |rows|
      invariant 0 <= i <= |rows|
      invariant |fs| == i
      invariant forall k :: 0 <= k < i ==> fs[k] == FeatureRow(u, rows[k])
    {
      fs := fs + [FeatureRow(u, rows[i])];
      i := i + 1;
    }
  }

  // ---------------------------------------------------------------------
  // Top-k selection: `np.argsort(scores)[-top_k:][::-1]`
  // ---------------------------------------------------------------------

  function ByScore(scores: seq<int>): nat -> int {
    (i: nat) => if i < |scores| then scores[i] else 0
  }

  function Indices(n: nat): (r: seq<nat>)
    ensures |r| == n
    ensures forall i :: 0 <= i < n ==> r[i] == i
  {
    seq(n, i requires 0 <= i < n => i)
  }

  /** The row indices ordered by ascending score. `argsort` leaves the order
      of equal scores open; a stable sort is one admissible choice and
      nothing below depends on it. */
  function ArgSort(scores: seq<int>): seq<nat> {
    SortBy(Indices(|scores|), ByScore(scores))
  }

  lemma ArgSortSpec(scores: seq<int>)
    ensures |ArgSort(scores)| == |scores|
    ensures Distinct(ArgSort(scores))
    ensures forall i :: i in ArgSort(scores) <==> 0 <= i < |scores|
    ensures SortedBy(ArgSort(scores), ByScore(scores))
  {
    var ix := Indices(|scores|);
    SortByMembership(ix, ByScore(scores));
    DistinctPerm(ix, ArgSort(scores));
    forall i ensures i in ArgSort(scores) <==> 0 <= i < |scores| {
      if 0 <= i < |scores| { assert ix[i] == i; }
    }
  }

  /** The selected row indices, best score first. */
  function TopIndices(scores: seq<int>, topK: int): seq<nat> {
    Reverse(PyDrop(ArgSort(scores), -topK))
  }

  /** How many rows `[-topK:]` keeps out of `n`: all of them for `topK == 0`
      (since `-0 == 0`), `min(topK, n)` for a positive `topK`, and all but
      the first `-topK` for a negative one. */
  function SelectedCount(n: nat, topK: int): (c: nat)
    ensures topK == 0 ==> c == n
    ensures topK > 0 ==> c == Min(topK, n)
    ensures topK < 0 ==> c == Max(0, n + topK)
  {
    n - PyBound(-topK, n)
  }

  /** The selection holds distinct valid indices, their scores are
      non-increasing, no row left out scores above a row kept, and its size
      is `SelectedCount`. */
  lemma {:induction false} TopIndicesSpec(scores: seq<int>, topK: int)
    ensures var idx := TopIndices(scores, topK);
            && |idx| == SelectedCount(|scores|, topK)
            && Distinct(idx)
            && (forall i :: 0 <= i < |idx| ==> idx[i] < |scores|)
            && (forall i, j :: 0 <= i < j < |idx| ==> scores[idx[i]] >= scores[idx[j]])
            && (forall r, i :: 0 <= r < |scores| && r !in idx && 0 <= i < |idx| ==> scores[r] <= scores[idx[i]])
  {
    var a := ArgSort(scores);
    ArgSortSpec(scores);
    var b := PyBound(-topK, |a|);
    var idx := TopIndices(scores, topK);
    var key := ByScore(scores);
    assert forall i :: 0 <= i < |idx| ==> idx[i] == a[|a| - 1 - i];
    forall i | 0 <= i < |idx| ensures idx[i] < |scores| {
      assert a[|a| - 1 - i] in a;
    }
    forall i, j | 0 <= i < j < |idx| ensures idx[i] != idx[j] {
      assert a[|a| - 1 - i] != a[|a| - 1 - j];
    }
    forall i, j | 0 <= i < j < |idx| ensures scores[idx[i]] >= scores[idx[j]] {
      assert a[|a| - 1 - j] in a && a[|a| - 1 - i] in a;
      assert key(a[|a| - 1 - j]) <= key(a[|a| - 1 - i]);
    }
    forall q | b <= q < |a| ensures a[q] in idx {
      assert idx[|a| - 1 - q] == a[q];
    }
    forall r, i | 0 <= r < |scores| && r !in idx && 0 <= i < |idx|
      ensures scores[r] <= scores[idx[i]]
    {
      assert r in a;
      var p :| 0 <= p < |a| && a[p] == r;
      assert a[|a| - 1 - i] in a;
      assert key(a[p]) <= key(a[|a| - 1 - i]);
    }
  }

  /** Every selected index names an item row (otherwise `row(idx)` raises). */
  predicate AllBelow(idx: seq<nat>, n: nat) {
    forall i :: 0 <= i < |idx| ==> idx[i] < n
  }

  function ArticlesAt(rows: seq<ItemRow>, idx: seq<nat>): (r: seq<ArticleId>)
    requires AllBelow(idx, |rows|)
    ensures |r| == |idx|
    ensures forall i :: 0 <= i < |idx| ==> r[i] == rows[idx[i]].article
  {
    seq(|idx|, i requires 0 <= i < |idx| => rows[idx[i]].article)
  }

  function ScoresAt(scores: seq<int>, idx: seq<nat>): (r: seq<int>)
    requires AllBelow(idx, |scores|)
    ensures |r| == |idx|
    ensures forall i :: 0 <= i < |idx| ==> r[i] == scores[idx[i]]
  {
    seq(|idx|, i requires 0 <= i < |idx| => scores[idx[i]])
  }

  // ---------------------------------------------------------------------
  // The decision procedure of `recommend`
  // ---------------------------------------------------------------------

  function Empty(user: CustomerId): Response {
    Response(user, [], None, None)
  }

  /** Candidates in pool order, unscored: the response when no model is
      loaded or scoring fails. */
  function Unscored(user: CustomerId, cands: seq<ArticleId>, topK: int, u: UserRow): Response {
    Response(user, PyTake(cands, topK), None, Some(SendHour(u.avgPurchaseHour)))
  }

  /** Steps 5 and 6: score the candidate rows and keep the best `topK`. */
  function Score(user: CustomerId, topK: int, cands: seq<ArticleId>, u: UserRow, rows: seq<ItemRow>,
                 ranker: Option<Ranker>): Response
  {
    if ranker.None? then Unscored(user, cands, topK, u)
    else
      match ranker.value.predict(Features(u, rows))
      case None => Unscored(user, cands, topK, u)
      case Some(scores) =>
        TopIndicesSpec(scores, topK);
        var idx := TopIndices(scores, topK);
        if AllBelow(idx, |rows|) then
          Response(user, ArticlesAt(rows, idx), Some(ScoresAt(scores, idx)), Some(SendHour(u.avgPurchaseHour)))
        else Unscored(user, cands, topK, u)
  }

  /** `recommend` given the candidate list it merged, the two feature files
      and the optional ranker. The merge and the item lookup read the same
      item file: when it is missing the merge's first query fails, so the
      lookup never meets a missing file. A missing user file fails the user
      lookup. */
  function Decide(user: CustomerId, topK: int, cands: seq<ArticleId>,
                  userFile: Option<seq<UserRow>>, itemFile: Option<seq<ItemRow>>,
                  ranker: Option<Ranker>): (r: Result<Response, StoreError>)
    ensures r.Ok? ==> r.value.userId == user
    ensures itemFile.None? ==> r == Err(ReadFailed(ItemFile))
    ensures itemFile.Some? && cands == [] ==> r == Ok(Empty(user))
    ensures r.Err? <==> itemFile.None? || (cands != [] && userFile.None?)
    ensures itemFile.Some? && cands != [] && userFile.None? ==> r == Err(FileNotFound(UserFile))
    ensures itemFile.Some? && cands != [] && userFile.Some? && SelectUsers(userFile.value, Some([user])) == [] ==>
              r == Ok(Empty(user))
    ensures r.Ok? && r.value.optimalSendTime.None? ==>
              r.value.recommendations == [] && r.value.scores.None?
    ensures r.Ok? && r.value.optimalSendTime.Some? && r.value.scores.None? ==>
              r.value.recommendations == PyTake(cands, topK)
    ensures r.Ok? && r.value.scores.Some? ==>
              ranker.Some? && |r.value.scores.value| == |r.value.recommendations| &&
              r.value.optimalSendTime.Some?
    ensures cands != [] && ranker.None? && r.Ok? && r.value.optimalSendTime.Some? ==>
              r.value.scores.None?
  {
    if itemFile.None? then Err(ReadFailed(ItemFile))
    else if cands == [] then Ok(Empty(user))
    else
      match UserQuery(userFile, Some([user]))
      case Err(e) => Err(e)
      case Ok(users) =>
        if users == [] then Ok(Empty(user))
        else Ok(Score(user, topK, cands, users[0], SelectItems(itemFile.value, Some(cands)), ranker))
  }

  /** Happy path: the response is index-aligned with the candidate rows it
      was scored from, scores come best first, no unselected row scores
      higher than a returned one, and with one score per row the length is
      `SelectedCount(|rows|, topK)` (so `min(topK, |rows|)` for positive
      `topK`). The user row is the user's own. */
  lemma ScoredResponse(user: CustomerId, topK: int, cands: seq<ArticleId>,
                       userFile: Option<seq<UserRow>>, itemFile: Option<seq<ItemRow>>, ranker: Option<Ranker>)
    requires Decide(user, topK, cands, userFile, itemFile, ranker).Ok?
    requires Decide(user, topK, cands, userFile, itemFile, ranker).value.scores.Some?
    ensures userFile.Some? && itemFile.Some? && ranker.Some? && cands != []
    ensures var users := SelectUsers(userFile.value, Some([user]));
            var rows := SelectItems(itemFile.value, Some(cands));
            var resp := Decide(user, topK, cands, userFile, itemFile, ranker).value;
            && users != [] && users[0].customer == user
            && ranker.value.predict(Features(users[0], rows)).Some?
            && var scores := ranker.value.predict(Features(users[0], rows)).value;
               var idx := TopIndices(scores, topK);
               && |resp.recommendations| == |resp.scores.value| == |idx|
               && (forall i :: 0 <= i < |idx| ==>
                     idx[i] < |rows| && idx[i] < |scores| &&
                     resp.recommendations[i] == rows[idx[i]].article &&
                     resp.scores.value[i] == scores[idx[i]])
               && (forall i, j :: 0 <= i < j < |idx| ==> resp.scores.value[i] >= resp.scores.value[j])
               && (forall r, i :: 0 <= r < |scores| && r !in idx && 0 <= i < |idx| ==> scores[r] <= resp.scores.value[i])
               && (|scores| == |rows| ==> |resp.recommendations| == SelectedCount(|rows|, topK))
               && resp.optimalSendTime == Some(SendHour(users[0].avgPurchaseHour))
  {
    var users := SelectUsers(userFile.value, Some([user]));
    var rows := SelectItems(itemFile.value, Some(cands));
    assert users[0] in users;
    var scores := ranker.value.predict(Features(users[0], rows)).value;
    TopIndicesSpec(scores, topK);
  }

  /** Every recommendation is a merged candidate: directly on the fallback
      path, and through the id filter of the item lookup on the happy path. */
  lemma RecommendationsAreCandidates(user: CustomerId, topK: int, cands: seq<ArticleId>,
                                     userFile: Option<seq<UserRow>>, itemFile: Option<seq<ItemRow>>,
                                     ranker: Option<Ranker>, a: ArticleId)
    requires Decide(user, topK, cands, userFile, itemFile, ranker).Ok?
    requires a in Decide(user, topK, cands, userFile, itemFile, ranker).value.recommendations
    ensures a in cands
  {
    var resp := Decide(user, topK, cands, userFile, itemFile, ranker).value;
    if resp.scores.Some? {
      ScoredAreCandidates(user, topK, cands, userFile, itemFile, ranker, a);
    } else {
      var k := PyBound(topK, |cands|);
      var i :| 0 <= i < |cands[..k]| && cands[..k][i] == a;
      assert cands[i] == a;
    }
  }

  /** The scored half of `RecommendationsAreCandidates`: a scored
      recommendation is the article of an item row the id filter kept. */
  lemma ScoredAreCandidates(user: CustomerId, topK: int, cands: seq<ArticleId>,
                            userFile: Option<seq<UserRow>>, itemFile: Option<seq<ItemRow>>,
                            ranker: Option<Ranker>, a: ArticleId)
    requires Decide(user, topK, cands, userFile, itemFile, ranker).Ok?
    requires Decide(user, topK, cands, userFile, itemFile, ranker).value.scores.Some?
    requires a in Decide(user, topK, cands, userFile, itemFile, ranker).value.recommendations
    ensures a in cands
  {
    var resp := Decide(user, topK, cands, userFile, itemFile, ranker).value;
    ScoredResponse(user, topK, cands, userFile, itemFile, ranker);
    var rows := SelectItems(itemFile.value, Some(cands));
    var i :| 0 <= i < |resp.recommendations| && resp.recommendations[i] == a;
    var users := SelectUsers(userFile.value, Some([user]));
    var scores := ranker.value.predict(Features(users[0], rows)).value;
    var idx := TopIndices(scores, topK);
    assert rows[idx[i]] in rows;
  }

  class RecommendationService {
    /** `self.ranker`: set once, by `_load_model`. */
    const ranker: Option<Ranker>
    const candidateGen: CandidateGenerator
    const featureStore: FeatureStore

    /** Both collaborators are built on the default paths, so they read the
        same item-feature file. */
    predicate SharedItemFile() {
      candidateGen.itemFile == featureStore.itemFile
    }

    /** `__init__` with `_load_model`: the ranker is loaded exactly when the
        model file exists (`modelFile` is its content). */
    constructor(modelFile: Option<Ranker>, transactions: seq<Transaction>,
                userFile: Option<seq<UserRow>>, itemFile: Option<seq<ItemRow>>)
      ensures ranker == modelFile
      ensures fresh(candidateGen) && fresh(featureStore)
      ensures candidateGen.itemFile == itemFile && candidateGen.transactions == transactions
      ensures candidateGen.con == None && featureStore.con == None
      ensures featureStore.userFile == userFile && featureStore.itemFile == itemFile
      ensures SharedItemFile()
    {
      ranker := modelFile;
      candidateGen := new CandidateGenerator(itemFile, transactions);
      featureStore := new FeatureStore(userFile, itemFile);
    }

    /** `recommend`: the response is `Decide` of the merged pool, listed in
        the order `merge_candidates` returned it (`cands`, empty when the
        merge fails). */
    method Recommend(user: CustomerId, topK: int) returns (r: Result<Response, StoreError>, ghost cands: seq<ArticleId>)
      requires SharedItemFile()
      modifies candidateGen, featureStore
      ensures Distinct(cands)
      ensures featureStore.itemFile.Some? ==>
                ToSet(cands) == MergePool(featureStore.itemFile.value, candidateGen.transactions, user,
                                          DefaultPopularityRatio, CandidatePoolSize)
      ensures r == Decide(user, topK, cands, featureStore.userFile, featureStore.itemFile, ranker)
    {
      var merged := candidateGen.MergeCandidates(user, DefaultPopularityRatio, CandidatePoolSize);
      if merged.Err? {
        return Err(merged.error), [];
      }
      var candidates := merged.value;
      cands := candidates;
      if candidates == [] {
        return Ok(Empty(user)), cands;
      }
      var users := featureStore.GetUserFeatures(Some([user]));
      if users.Err? {
        return Err(users.error), cands;
      }
      if users.value == [] {
        return Ok(Empty(user)), cands;
      }
      var items := featureStore.GetItemFeatures(Some(candidates));
      assert items.Ok?;
      var u := users.value[0];
      var features := BuildFeatures(u, items.value);
      if ranker.None? {
        return Ok(Unscored(user, candidates, topK, u)), cands;
      }
      var predicted := ranker.value.predict(features);
      if predicted.None? {
        return Ok(Unscored(user, candidates, topK, u)), cands;
      }
      var scores := predicted.value;
      TopIndicesSpec(scores, topK);
      var idx := TopIndices(scores, topK);
      if !AllBelow(idx, |items.value|) {
        return Ok(Unscored(user, candidates, topK, u)), cands;
      }
      var hour := SendHour(u.avgPurchaseHour);
      r := Ok(Response(user, ArticlesAt(items.value, idx), Some(ScoresAt(scores, idx)), Some(hour)));
    }

    /** `close`: both collaborators release their connections. */
    method Close()
      modifies candidateGen, featureStore
      ensures candidateGen.con == None && featureStore.con == None
    {
      candidateGen.Close();
      featureStore.Close();
    }
  }
}
