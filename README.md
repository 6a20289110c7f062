# Recommendation pipeline and A/B simulation, modelled in Dafny

This project models the core of a two-stage fashion recommendation
pipeline built on the H&M transaction log. It has these parts:

- **Feature tables** (`item_features.dfy`, `user_features.dfy`). Two
  declarative queries over a trailing time window of the log. One builds
  per-article sales rows with a `ROW_NUMBER` popularity rank. The other
  builds per-customer rows with counts, recency and a high/medium/low
  frequency bucket.
- **Feature store** (`feature_store.dfy`). A lazily opened connection,
  lookups by id-membership, the top-k-by-rank query and the statistics
  dictionary. A missing parquet file is an error result.
- **Candidate generation** (`candidate_generation.dfy`).
  - A popularity list.
  - An item-to-item co-purchase list: seeds, similar users, excluded
    purchases and a count ranking.
  - `merge_candidates`, a set union topped up from a longer popularity
    list up to a size cap.
- **Training set** (`dataset.dfy`). Positive and negative labelling, the
  feature joins, and the seven feature columns shared with serving.
- **Serving** (`serving.dfy`). `recommend`'s fallback branches, the
  `argsort` top-k selection with items and scores kept index-aligned, and
  the send-hour rule.
- **A/B simulation** (`ab_test.dfy`, `virtual_user.dfy`,
  `virtual_user_enhanced.dfy`, with the shared vocabulary in
  `simulation.dfy`).
  - Group A receives the popular items at a random hour. Group B receives
    the service's list.
  - The two virtual users build a persona from a language-model reply or a
    fallback.
  - They parse `Purchase: X, Satisfaction: Y`, clamp the values and fall
    back to random draws.
- **Task-list parser and issue-body writer** (`create_issues.dfy`). This
  is the script that turns a markdown task list into issues.

`common.dfy` holds the identifiers, the transaction record, the trailing
window and the sequence helpers. `text.dfy` holds the Python string
operations used: `strip`, `find`/`rfind`, the `{...}` span and the
`re.search` of a tagged number.

Randomness, the language-model client, `json.loads` and the ranker's
`predict` are parameters. A random call takes an arbitrary natural-number
draw and reduces it into the call's range. Coverage lemmas show that every
outcome the library can produce is reachable. A reply or a probe result is
an `Option` parameter, and `json.loads` is a function parameter that
returns `None` where it would raise.

Objects whose fields change are classes:
- the feature store's and the candidate generator's cached connection;
- the recommendation service;
- the A/B simulator;
- each virtual user's persona;
- the enhanced user's availability cache.

Loops that build values step by step are methods proved against the
functions that specify them:
- the feature rows of `recommend`;
- the top-up loop of `merge_candidates`;
- `parse_tasks`;
- the string building of `create_issue_body`;
- the virtual user's evaluation.

## Model

| member | source | states |
|---|---|---|
| Common.Window | src/data/item_features.py:66 | keeps exactly the log rows dated no earlier than the latest date minus the lookback; an empty log gives an empty window |
| Common.WindowKeepsMax | src/data/user_features.py:80-82 | the latest date of a non-empty window is the latest date of the whole log |
| Common.MaxDate | src/data/item_features.py:66 | `MAX(t_dat)` bounds every date and is attained |
| Text.Strip | scripts/create_issues.py:20 | `strip()` removes `isspace` characters (the ASCII ones, the separators 28-31 and the Unicode spaces) from both ends only: the result has none at either end and is a contiguous middle part of the input |
| Text.SeparatorsAreSpace | scripts/create_issues.py:20 | the file, group, record and unit separators (28-31) count as whitespace, as they do for `str.isspace` |
| Text.Find | src/simulation/virtual_user.py:58 | `find` is -1 iff the character is absent, else its first position |
| Text.RFind | src/simulation/virtual_user.py:59 | `rfind` is -1 iff the character is absent, else its last position |
| Text.BraceSpanSpec | src/simulation/virtual_user_enhanced.py:83-86 | a `{...}` span exists iff some `}` follows some `{`; it then runs from the first `{` to the last `}` |
| Text.SearchDigitsSpec | src/simulation/virtual_user.py:126-127 | `re.search` of `Tag:\s*(\d+)` succeeds iff the pattern matches at some position, and it returns the digits at the first such position |
| Text.ReadTagged | src/simulation/virtual_user.py:126-131 | the match is absent iff the search fails; `int()` of the digits raises iff there are more than 4300 of them, which a reply of at most 4300 characters never has; otherwise the value is the decimal number of the digits |
| ItemFeatures.RankedArticlesSpec | src/data/item_features.py:79-85 | the ranked articles are exactly those sold in the window, each once, by non-increasing sales count |
| ItemFeatures.OneRowPerSoldArticle | src/data/item_features.py:69-95 | one row per article with an in-window sale, and no other rows |
| ItemFeatures.CountsAreConsistent | src/data/item_features.py:71-72 | `sales_count` is the article's in-window sales count, at least 1, and `unique_customers <= sales_count` |
| ItemFeatures.RanksAreOneToN | src/data/item_features.py:83-96 | row `i` has rank `i + 1`: ranks are 1..n, each once, emitted in ascending order |
| ItemFeatures.MoreSalesBetterRank | src/data/item_features.py:83 | a strictly higher sales count gets a strictly smaller rank |
| ItemFeatures.PeakHourIsMode | src/data/item_features.py:74 | the peak hour is an hour the article sold at, and no hour sold it more often |
| ItemFeatures.ModeHour | src/data/item_features.py:74 | `MODE` returns an element whose multiplicity no other element exceeds |
| UserFeatures.FrequencyBucketRanges | src/data/user_features.py:90-94 | `high` iff count >= 10, `medium` iff 5 <= count < 10, `low` iff count < 5 |
| UserFeatures.Customers | src/data/user_features.py:68-78 | the grouped customers are exactly those with an in-window purchase, each once |
| UserFeatures.OneRowPerBuyer | src/data/user_features.py:68-98 | one row per customer with an in-window purchase, and no other rows |
| UserFeatures.RowIsConsistent | src/data/user_features.py:71-96 | `purchase_count` is the number of the customer's in-window purchases (at least 1); `unique_items` is `COUNT(DISTINCT article_id)` and at most that count; `avg_purchase_hour` is the mean hour, >= 0; `last_purchase_date` is the `MAX` and `first_purchase_date` the `MIN` of the customer's dates, so first <= last; `recency_days` is the window's latest date minus the last purchase, >= 0; the bucket holds exactly its count range |
| UserFeatures.RecencyFromLatestDate | src/data/user_features.py:76-89 | `recency_days = MAX(t_dat) over the whole log - MAX(t_dat) of the customer`, the subquery's maximum being that of the full log |
| UserFeatures.AvgHour | src/data/user_features.py:71 | `AVG(hour)` is non-negative and times the count gives the sum of the hours |
| FeatureStore.InList | src/data/feature_store.py:61-64 | the `IN ('a', 'b')` list admits exactly the given ids; an empty list admits only the empty id |
| FeatureStore.UserQuery | src/data/feature_store.py:50-68 | a missing user file is `FileNotFound`; otherwise all rows for `None`, or exactly the rows whose id is in the list |
| FeatureStore.ItemQuery | src/data/feature_store.py:80-98 | a missing item file is `FileNotFound`; otherwise all rows for `None`, or exactly the rows whose id is in the list |
| FeatureStore.TopItems | src/data/feature_store.py:113-117 | exactly the rows with rank <= k, in ascending rank, each with its multiplicity |
| FeatureStore.TopItemsQuery | src/data/feature_store.py:110-120 | reading a missing file fails; otherwise the top-k rows |
| FeatureStore.MaxSales | src/data/feature_store.py:186 | `MAX(sales_count)` is NULL on an empty table, else an upper bound that some row attains |
| FeatureStore.FeatureStore.Connect | src/data/feature_store.py:34-38 | opens a new connection only when none is cached; otherwise returns the cached one |
| FeatureStore.FeatureStore.GetUserFeatures | src/data/feature_store.py:40-68 | connects, then answers `UserQuery` |
| FeatureStore.FeatureStore.GetItemFeatures | src/data/feature_store.py:70-98 | connects, then answers `ItemQuery` |
| FeatureStore.FeatureStore.GetTopItems | src/data/feature_store.py:100-120 | connects, then answers `TopItemsQuery` |
| FeatureStore.FeatureStore.GetFeatureStats | src/data/feature_store.py:151-196 | fails iff a feature file exists but is empty (`AVG` is NULL and `round` raises), naming the user file first; otherwise a `users` entry iff the user file exists and an `items` entry iff the item file exists, with their non-zero row counts and the maximum sales |
| FeatureStore.FeatureStore.Close | src/data/feature_store.py:198-202 | resets the connection to none; closing twice is harmless |
| CandidateGeneration.PopularityRows | src/models/candidate_generation.py:52-60 | `min(top_k, n)` rows in ascending rank, a sub-multiset of the table, and no row left out ranks better than one kept; the candidates are their article ids, in order |
| CandidateGeneration.PopularityQuery | src/models/candidate_generation.py:40-60 | the query fails with the engine's read error iff the item file is missing; otherwise it returns the popularity candidates of the table |
| CandidateGeneration.PopularityFromTable | src/models/candidate_generation.py:52-60 | every popularity candidate is an article of the item table |
| CandidateGeneration.SeedsAreLatest | src/models/candidate_generation.py:87-93 | exactly `min(5, purchases)` seeds, each one of the user's in-window purchases, none older than a purchase left out |
| CandidateGeneration.SimilarUsersSpec | src/models/candidate_generation.py:99-106 | exactly `min(1000, candidates)` distinct similar users, where a candidate is any other customer who bought a seed; each is a candidate, and all of them when there are at most 1000 |
| CandidateGeneration.CandidateRowsExcludeUser | src/models/candidate_generation.py:107-115 | counted rows are in-window purchases by other users of articles the user never bought in the window |
| CandidateGeneration.CfCandidatesAreTopK | src/models/candidate_generation.py:107-117 | the counted articles are exactly those bought by a similar user and not by the user, each once; the result has `min(top_k, #counted)` of them, so all of them when they fit; distinct, by non-increasing co-purchase count, none outranked by an article left out |
| CandidateGeneration.CfCandidatesProvenance | src/models/candidate_generation.py:82-117 | each co-purchase candidate was bought in the 28-day window by a similar user, and never by the user |
| CandidateGeneration.BudgetSplit | src/models/candidate_generation.py:142-143 | `pop_k = int(total_k * ratio)`, computed on exact reals, and `pop_k + cf_k == total_k` |
| CandidateGeneration.HalfBudget | src/models/candidate_generation.py:126-143 | with the default ratio 0.5 the popularity budget is `total_k // 2` |
| CandidateGeneration.TopUpSpec | src/models/candidate_generation.py:156-161 | the loop only adds listed items, and it stops at `total_k` or when the list runs out |
| CandidateGeneration.MergedSetSpec | src/models/candidate_generation.py:152-161 | the merged set holds both lists and adds only expansion items. Its size is the smaller of `total_k` and the number of distinct items in all three lists when the two lists fit their budgets. Nothing is added when the union already has `total_k` items |
| CandidateGeneration.MergePool | src/models/candidate_generation.py:141-161 | the pool never exceeds `total_k` |
| CandidateGeneration.Enumerate | src/models/candidate_generation.py:164 | `list(set)` lists each element once, in some order |
| CandidateGeneration.FillUp | src/models/candidate_generation.py:156-161 | the expansion loop computes `TopUp` |
| CandidateGeneration.CandidateGenerator.Connect | src/models/candidate_generation.py:32-38 | opens a new connection only when none is cached |
| CandidateGeneration.CandidateGenerator.GeneratePopularityCandidates | src/models/candidate_generation.py:40-60 | connects, then answers `PopularityQuery`: a read error for a missing item file, else the popularity list |
| CandidateGeneration.CandidateGenerator.GenerateCfCandidates | src/models/candidate_generation.py:62-124 | connects, then returns the co-purchase list |
| CandidateGeneration.CandidateGenerator.MergeCandidates | src/models/candidate_generation.py:126-164 | fails with the read error iff the item file is missing; otherwise the result has no repeated id, is exactly the merged pool, and has at most `total_k` items, so the final slice drops nothing |
| CandidateGeneration.CandidateGenerator.UnionAndTopUp | src/models/candidate_generation.py:151-164 | the union and top-up loop list exactly the merged set, each item once |
| CandidateGeneration.CandidateGenerator.Close | src/models/candidate_generation.py:166-170 | resets the connection to none |
| Dataset.SampleExists | src/models/dataset.py:45-50 | an admissible sample of at most `sample_size` distinct window buyers exists |
| Dataset.NegativesFor | src/models/dataset.py:59-75 | a user's negatives are exactly the popular articles the user did not buy, with label 0 |
| Dataset.NegativePool | src/models/dataset.py:59-75 | the pool is exactly the (sampled user, popular article) pairs that are not purchases |
| Dataset.DrawExists | src/models/dataset.py:76-77 | an admissible `ORDER BY RANDOM() LIMIT k` draw exists |
| Dataset.PairRows | src/models/dataset.py:95-101 | a joined row matches its sample's user and item rows |
| Dataset.JoinProvenance | src/models/dataset.py:84-101 | every joined row comes from a sample with both a user row and an item row, and its features are the user's four columns followed by the item's three |
| Dataset.JoinKeeps | src/models/dataset.py:95-101 | a sample with both rows present survives the joins |
| Dataset.CreateTrainingDataset | src/models/dataset.py:17-124 | the sample and the negative draw are admissible, and features and labels are the joined rows, aligned |
| Dataset.PositivesCoverSampledPurchases | src/models/dataset.py:51-58 | every in-window purchase of a sampled user is a label-1 row |
| Dataset.PositivesAreSampledPurchases | src/models/dataset.py:51-58 | every positive is a label-1 in-window purchase of a sampled user |
| Dataset.NegativeNotPositive | src/models/dataset.py:71-75 | no negative pair equals a positive pair |
| Dataset.NegativesSpec | src/models/dataset.py:59-77 | at most `negative_ratio` times as many negatives as positives; each has label 0, a sampled user, a popular article and no matching purchase |
| Dataset.NegativeArticlesArePopular | src/models/dataset.py:66-69 | negative articles are at most 100 articles of the item table |
| Serving.ColumnOrderShared | src/models/serving.py:91-99 | the dictionary keys of a serving row, in insertion order, are the seven columns training selects, in the same order (the rows themselves are built by `Dataset.FeatureRow`, see `Serving.BuildFeatures`) |
| Serving.SendHour | src/models/serving.py:128 | 12 for an average of 0.0; otherwise the truncated average |
| Serving.BuildFeatures | src/models/serving.py:89-101 | the append loop builds one feature row per item row, row `i` from item row `i` by `Dataset.FeatureRow`: the user's four columns then the item's three |
| Serving.ArgSortSpec | src/models/serving.py:116 | `argsort` is a permutation of the row indices by ascending score |
| Serving.SelectedCount | src/models/serving.py:116 | `[-top_k:]` keeps every row for `top_k == 0`, else `min(top_k, n)` |
| Serving.TopIndicesSpec | src/models/serving.py:116-118 | distinct valid indices, non-increasing scores, every selected score >= every unselected one, and `SelectedCount` of them |
| Serving.Decide | src/models/serving.py:58-135 | a missing item file fails (the merge reads it first); no candidates or no user row gives an empty list with no hour; a missing user file is `FileNotFound`, and these are the only failures; no model or a failed `predict` gives `candidates[:top_k]` unscored; otherwise a scored list at the user's send hour |
| Serving.ScoredResponse | src/models/serving.py:112-135 | on the scored path, `recommendations[i]` and `scores[i]` are the article and score of item row `idx[i]`, scores are non-increasing, the selection dominates what it leaves out, and the hour is the user's send hour |
| Serving.RecommendationsAreCandidates | src/models/serving.py:58-135 | every recommendation is a merged candidate |
| Serving.RecommendationService.Recommend | src/models/serving.py:47-135 | with both collaborators on the same item file, merges a pool of 100 with no repeats (exactly `MergePool` when the file exists), then answers `Decide` |
| Serving.RecommendationService.Close | src/models/serving.py:137-140 | both collaborators release their connections |
| Simulation.Get | src/simulation/virtual_user_enhanced.py:90-108 | `obj.get(key)` finds the last pair with that key, and `None` iff there is none |
| Simulation.ToMapGet | src/simulation/virtual_user.py:69-73 | `dict(pairs)` has exactly the keys `get` finds, with `get`'s values |
| Simulation.RateSpec | src/simulation/virtual_user.py:145 | the rate is 0 for no recommendations, else `purchases / n`, within [0, 1] when `0 <= purchases <= n` |
| Simulation.RandInt | src/simulation/ab_test.py:56 | `randint(a, b)` lies in [a, b] |
| Simulation.RandIntCovers | src/simulation/ab_test.py:56 | every value of [a, b] is drawn by some draw |
| Simulation.WeightedChoiceCovers | src/simulation/virtual_user_enhanced.py:159-162 | `choices` returns an item of the list, and every item of positive weight is chosen by some draw |
| VirtualUser.SampleTwo | src/simulation/virtual_user.py:88 | `sample(xs, 2)` gives two entries of `xs`, which differ when `xs` has no repeats |
| VirtualUser.SampleTwoCovers | src/simulation/virtual_user.py:88 | every ordered pair of distinct positions is drawn by some draw |
| VirtualUser.FallbackPersonaSpec | src/simulation/virtual_user.py:77-89 | the fallback has the four keys, values from the fixed lists, and two distinct categories |
| VirtualUser.DetailsAreObject | src/simulation/virtual_user.py:53-67 | when `json.loads` of a `{`-initial text gives an object or raises, the persona details are always an object: the loaded span, or the fallback |
| VirtualUser.ReplyKeysOverride | src/simulation/virtual_user.py:58-73 | for a reply whose span loads, the persona has age, gender and every parsed key, and parsed keys (even `age`) override the drawn values |
| VirtualUser.NoSpanGivesFallback | src/simulation/virtual_user.py:53-67 | no reply, no span or a parse failure gives exactly the drawn age and gender plus the fallback persona |
| VirtualUser.FallbackKeepsDraws | src/simulation/virtual_user.py:37-38 | that persona has six keys, age in [18, 65] and a gender from the list |
| VirtualUser.ParsedScores | src/simulation/virtual_user.py:122-136 | a reply gives `min(X, n)` purchases and `min(Y, 5)` satisfaction, keeping 0 and 3 for absent matches; a number `int()` refuses (over 4300 digits) redraws both scores at random, purchases at most 3 and satisfaction at least 2 |
| VirtualUser.SatisfactionCanBeZero | src/simulation/virtual_user.py:132 | the reply "Satisfaction: 0" yields satisfaction 0 |
| VirtualUser.RandomScores | src/simulation/virtual_user.py:137-140 | without a reply, purchases lie in [0, min(3, n)] and satisfaction in [2, 5] |
| VirtualUser.EvaluateSpec | src/simulation/virtual_user.py:105-146 | the rate is `purchases / n` (0 for none); a persona whose categories cannot be joined is an error |
| VirtualUser.VirtualUser.GeneratePersona | src/simulation/virtual_user.py:29-75 | stores and returns `PersonaOf`, which is never empty |
| VirtualUser.VirtualUser.EvaluateRecommendations | src/simulation/virtual_user.py:91-146 | builds a persona first only when none exists (the stored persona is then `PersonaOf`, else unchanged), then evaluates; the result is `EvaluationAfter` |
| VirtualUserEnhanced.BudgetByAge | src/simulation/virtual_user_enhanced.py:149-177 | the budget is one of low/medium/high |
| VirtualUserEnhanced.StyleByAge | src/simulation/virtual_user_enhanced.py:179-207 | the style is one of the five styles |
| VirtualUserEnhanced.FrequencyByBudget | src/simulation/virtual_user_enhanced.py:209-231 | the frequency is one of the three frequencies |
| VirtualUserEnhanced.EveryBudgetPossible | src/simulation/virtual_user_enhanced.py:158-177 | in every age bracket (<= 25, <= 35, <= 50, else) every budget is reachable |
| VirtualUserEnhanced.EveryStylePossible | src/simulation/virtual_user_enhanced.py:188-207 | every style listed for an age bracket is reachable |
| VirtualUserEnhanced.EveryFrequencyPossible | src/simulation/virtual_user_enhanced.py:217-231 | every frequency is reachable for every budget |
| VirtualUserEnhanced.CategoryPair | src/simulation/virtual_user_enhanced.py:241-266 | two distinct categories out of the six |
| VirtualUserEnhanced.Others | src/simulation/virtual_user_enhanced.py:262-264 | the remaining categories exclude the first pick and are never empty |
| VirtualUserEnhanced.EveryPairPossible | src/simulation/virtual_user_enhanced.py:241-266 | every ordered pair of distinct categories is reachable for every gender |
| VirtualUserEnhanced.FallbackRealistic | src/simulation/virtual_user_enhanced.py:119-147 | the fallback is well formed and has two categories |
| VirtualUserEnhanced.CategoriesOf | src/simulation/virtual_user_enhanced.py:106-108 | one to three categories |
| VirtualUserEnhanced.CategoriesSpec | src/simulation/virtual_user_enhanced.py:106-108 | a non-list or empty list becomes tops and bottoms; otherwise the first three entries, as text |
| VirtualUserEnhanced.ParsedDetailsWellFormed | src/simulation/virtual_user_enhanced.py:80-117 | whatever the reply, the details have allowed values and one to three categories |
| VirtualUserEnhanced.UnreadableReplyFallsBack | src/simulation/virtual_user_enhanced.py:83-86 | no span or a parse failure gives the fallback for age 30, `Male` |
| VirtualUserEnhanced.FieldsCoerced | src/simulation/virtual_user_enhanced.py:90-104 | allowed style, frequency and budget are kept; anything else becomes `casual`, `occasionally`, `medium` |
| VirtualUserEnhanced.UnhashableFieldRejected | src/simulation/virtual_user_enhanced.py:90-104 | a list or object field makes the membership test raise, and the reply falls back |
| VirtualUserEnhanced.ObjectReplyRead | src/simulation/virtual_user_enhanced.py:88-117 | an object reply gives its coerced fields, or the fallback when reading it raises |
| VirtualUserEnhanced.PersonaSpec | src/simulation/virtual_user_enhanced.py:48-78 | age in [18, 65], a gender from the list, well-formed details, and the fallback follows the drawn age and gender |
| VirtualUserEnhanced.RandomEvalBounds | src/simulation/virtual_user_enhanced.py:320-323 | purchases in [0, min(3, n)] and satisfaction in [2, 5] |
| VirtualUserEnhanced.ParseEvalSpec | src/simulation/virtual_user_enhanced.py:307-318 | purchases `min(X, n)` or 0; satisfaction clamped to [1, 5] or 3; a number `int()` refuses (over 4300 digits) falls back to `_random_eval` |
| VirtualUserEnhanced.EvaluationSpec | src/simulation/virtual_user_enhanced.py:268-305 | an empty list gives (0, 3, 0.0); otherwise 0 <= purchases <= n, satisfaction in [1, 5] and the rate is the share `Rate(purchases, n)`, which lies in [0, 1] |
| VirtualUserEnhanced.AvailabilityCached | src/simulation/virtual_user_enhanced.py:36-46 | no client is never available; a failing check counts as unavailable; a cached answer is returned unchanged |
| VirtualUserEnhanced.EnhancedUser.IsLlmAvailable | src/simulation/virtual_user_enhanced.py:36-46 | answers `Availability` and runs the connection check at most once per user |
| VirtualUserEnhanced.EnhancedUser.CategoriesByGender | src/simulation/virtual_user_enhanced.py:233-266 | the array, after `selected[1]` is overwritten in place, holds `CategoryPair` |
| VirtualUserEnhanced.EnhancedUser.GeneratePersona | src/simulation/virtual_user_enhanced.py:48-78 | stores and returns `PersonaOf` under the availability it computed |
| VirtualUserEnhanced.EnhancedUser.EvaluateRecommendations | src/simulation/virtual_user_enhanced.py:268-305 | builds a persona only when none exists, then returns `EvaluationOf` |
| ABTest.ClickedIffPurchase | src/simulation/ab_test.py:62 | in both groups `clicked` iff `purchase_count > 0`, and `num_items == len(items)` |
| ABTest.GroupASpec | src/simulation/ab_test.py:53-71 | group A succeeds iff the popularity query and the user both do; a missing item file is the store's read error; otherwise it sends the popular items at an hour in [9, 21] |
| ABTest.EmptyRecommendationsSkipEvaluation | src/simulation/ab_test.py:91-98 | an empty list gives the same result whatever the user would say: not clicked, 0 purchases, satisfaction 0 |
| ABTest.GroupBSendTime | src/simulation/ab_test.py:84-88 | group B sends at the hour the service returned, which is `None` when there were no candidates; a missing item file fails group B with the read error |
| ABTest.ABTestSimulator.SimulateGroupA | src/simulation/ab_test.py:41-71 | the popularity query's five items at a drawn hour, evaluated by the virtual user; a failed query leaves the persona untouched |
| ABTest.ABTestSimulator.SimulateGroupB | src/simulation/ab_test.py:73-107 | the service's top five at its hour; the user is consulted, and its persona touched, only for a non-empty list |
| ABTest.ABTestSimulator.Consult | src/simulation/ab_test.py:79-107 | a failed service call is passed on; an empty list skips the user, whose persona is untouched; any other list is evaluated by the user, and the result is `GroupB` of the response and `EvaluationAfter` |
| ABTest.ABTestSimulator.Close | src/simulation/ab_test.py:109-114 | each collaborator that is present releases its connections |
| CreateIssues.TaskMatch | scripts/create_issues.py:17 | the matched description never spans a newline |
| CreateIssues.ParseTasks | scripts/create_issues.py:7-62 | the loop over the lines computes `Parsed`, the line-by-line state machine |
| CreateIssues.TaskBeforeHeaderIsDropped | scripts/create_issues.py:20-27 | a task line followed, after any lines that are neither tasks nor headers, by a `## ` header contributes no task, and no task is open after the header |
| CreateIssues.ClassifyTaskLine | scripts/create_issues.py:31-46 | a line starts a task iff it begins with `- [ ]` and matches the pattern; the title and first description come from the match |
| CreateIssues.ClassifyOther | scripts/create_issues.py:48-56 | any other line is a subtask (first `- [ ]` removed, stripped), a continuation, or blank, by its stripped form |
| CreateIssues.TaskLineClosesOpenTask | scripts/create_issues.py:34-46 | a task line appends the open task and opens a new one in the current section |
| CreateIssues.TasksKeepFileOrder | scripts/create_issues.py:59-62 | reading more lines only appends tasks, so tasks keep file order |
| CreateIssues.TitlesComeFromTaskLines | scripts/create_issues.py:31-46 | every returned task was opened by a task line of the input, with that line's title |
| CreateIssues.AtMostOneTaskPerTaskLine | scripts/create_issues.py:31-62 | there are no more tasks than task lines |
| CreateIssues.DescriptionsAreCleanLines | scripts/create_issues.py:38-56 | every description entry is non-empty, stripped and one line |
| CreateIssues.AppendLines | scripts/create_issues.py:68-69 | the `+=` loop appends each entry and a newline |
| CreateIssues.CreateIssueBody | scripts/create_issues.py:64-80 | the string built with `+=` is `IssueBody`: background, work detail and acceptance criteria separated by blank lines, with one `- [ ] sub` line per subtask in order and the extra acceptance line only when there are subtasks |
| CreateIssues.LinesRoundTrip | scripts/create_issues.py:68-69 | splitting the written lines at newlines gives back the entries |
| CreateIssues.ParsedDescriptionsReadBack | scripts/create_issues.py:54-69 | the description block of a parsed task reads back as exactly its entries |

## Left out

- File, database and process effects are not modelled: `read_csv_auto`,
  `read_parquet`, `COPY ... (FORMAT PARQUET)`, the DuckDB `SET` pragmas,
  logging, `gh issue create` through `subprocess`, and `main` functions.
  A feature file is a parameter, `None` when the file does not exist.
  The candidate generator and the feature store are given the same item
  file, because both read the same default path.
  `parse_tasks` reads a sequence of lines, not a file.
- `connect`/`close` of the item- and user-feature generators are not
  modelled as classes. Those generators only run one query. The same
  lifecycle is modelled on the feature store and the candidate generator.
- `refresh_features` of the feature store is not modelled. It reruns the
  two feature queries, which are modelled as functions.
- `ROUND`, `AVG(price)` and prices are not modelled, except that a
  feature file with no rows makes `AVG` NULL and `round` raise, which
  `FeatureStore.FeatureStore.GetFeatureStats` returns as an error. The user row's
  average purchase hour is the exact mean of the hours, a real. Scores are
  compared only by order, as integers.
- A missing transactions file is not modelled. The log is a sequence
  handed to the feature queries, the co-purchase query and
  `Dataset.CreateTrainingDataset`, which read it unchecked.
- `purchase_hour` is an input field of a transaction, not derived from
  `EXTRACT(HOUR ...)`.
- Orders that the engine leaves open are fixed by the model to one
  admissible choice: the `ROW_NUMBER` tie order, `argsort` ties,
  `list(set)`, the order of the joined training rows, and the 1000
  similar users that `LIMIT 1000` keeps without `ORDER BY` (the model
  keeps the first 1000 in log order). `ORDER BY RANDOM()` is an
  admissible draw. Where the order is open, the lemmas state membership,
  counts and dominance, which hold for every choice; the ghost rows of
  `Dataset.CreateTrainingDataset` and the exact list of
  `CandidateGeneration.SimilarUsers` are stated for the chosen order only.
- Random distributions are not modelled. Each draw is a parameter, and
  only reachability of every outcome is proved.
- The language-model client (`generate`, `check_connection`), the prompt
  strings and the ranker's `predict` are not modelled. Their results are
  parameters.
- `json.loads` is a parameter. JSON numbers are integers here, and
  floating-point values are not modelled. Where the source loads a text
  that starts with `{`, the parameter is required to give an object or
  to fail (`Simulation.ObjectLoads`), as JSON itself guarantees.
- Python's `str()` of a nested list or object is simplified. A string is
  quoted with single quotes and not escaped.
- `int()` of a decimal string refuses more than 4300 digits, the default
  limit of Python 3.10.7 and later; a limit changed with
  `sys.set_int_max_str_digits` is not modelled.
- Whitespace is exactly what `str.isspace` accepts, which is also what
  `\s` matches. Digits are ASCII only: the non-ASCII decimal digits that
  `\d` also matches are not modelled.
- Serving.Decide: the only failures modelled are missing files; a failing
  query engine is not modelled. A missing item file fails the merge
  before the feature store is asked.
- FeatureStore.InList: ids are taken to contain no `'`. The source splices
  each id between quotes into the SQL text, so an id holding a quote
  breaks or changes the query; that is not modelled. The same holds for
  the `user_id` spliced into the co-purchase query
  (src/models/candidate_generation.py:90, 97 and 104).
- CandidateGeneration.PopBudget: `int(total_k * popularity_ratio)` is
  computed on exact reals, not on binary floating point. A float product
  can fall below the exact value (`int(100 * 0.29)` is 28, not 29), so for
  such ratios the model's budget is one higher than the source's.
  `CandidateGeneration.HalfBudget` shows the default ratio 0.5 is exact.
- CandidateGeneration.BudgetSplit: states the split for that exact-real
  budget, so it is weaker than the source for ratios whose float product
  is inexact.
- Simulation.WeightedChoiceCovers: `random.choices` is modelled over
  integer weights. The real-valued cumulative search is reduced to an
  integer draw below the total weight.
- CreateIssues.ParseTasks: the section header line is
  `line.replace('## ', '').strip()`, which removes every `## `, not only
  the leading one; the model follows that.
- `scripts/test_*.py`, `run_simulation.py`, the statistical tests,
  `app.py` and `analyze_results.py` are not modelled. They are drivers,
  printing and floating-point statistics.
