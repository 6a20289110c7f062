/** The A/B simulator (src/simulation/ab_test.py). Group A, the control,
    receives the five most popular articles at a random hour between 9 and
    21; group B receives the service's recommendations at the hour the
    service proposes. In both groups a basic virtual user evaluates the
    list, and a recipient who would buy anything counts as a click. */
module ABTest {
  import opened Common
  import opened Simulation
  import opened ItemFeatures
  import opened UserFeatures
  import opened FeatureStore
  import opened CandidateGeneration
  import opened Serving
  import opened VirtualUser

  /** The result dictionary; `sendTime == None` is a `None` hour. */
  datatype SimResult = SimResult(
    clicked: bool,
    items: seq<ArticleId>,
    sendTime: Option<int>,
    numItems: nat,
    purchaseCount: int,
    satisfaction: int)

  /** The exceptions a simulation lets escape: from the feature store
      (group B only) or from the virtual user. */
  datatype SimError = StoreFailed(store: StoreError) | UserFailed(user: PersonaError)

  /** The list size both groups request. */
  const TopK: nat := 5

  /** The result dictionary for `items` sent at `sendTime` and evaluated as
      `ev`. */
  function Outcome(items: seq<ArticleId>, sendTime: Option<int>, ev: Evaluation): SimResult {
    SimResult(ev.purchaseCount > 0, items, sendTime, |items|, ev.purchaseCount, ev.satisfaction)
  }

  /** `simulate_group_a`, given the popularity query's answer, the drawn
      hour and the virtual user's evaluation of the items. */
  function GroupA(popular: Result<seq<ArticleId>, StoreError>, hour: int,
                  ev: Result<Evaluation, PersonaError>): Result<SimResult, SimError> {
    match popular
    case Err(e) => Err(StoreFailed(e))
    case Ok(items) =>
      match ev
      case Err(e) => Err(UserFailed(e))
      case Ok(v) => Ok(Outcome(items, Some(hour), v))
  }

  /** `simulate_group_b`, given the service's response and the evaluation the
      virtual user would give its recommendations. An empty list is not
      shown to the user: it records no purchase and satisfaction 0. */
  function GroupB(resp: Result<Response, StoreError>, ev: Result<Evaluation, PersonaError>): Result<SimResult, SimError> {
    match resp
    case Err(e) => Err(StoreFailed(e))
    case Ok(response) =>
      var items := response.recommendations;
      if items == [] then Ok(Outcome(items, response.optimalSendTime, Evaluation(0, 0, 0.0)))
      else
        match ev
        case Err(e) => Err(UserFailed(e))
        case Ok(v) => Ok(Outcome(items, response.optimalSendTime, v))
  }

  /** In both groups a result counts a click exactly when the user would buy
      something, and `num_items` is the length of `items`. */
  lemma ClickedIffPurchase(popular: Result<seq<ArticleId>, StoreError>, hour: int,
                           resp: Result<Response, StoreError>, ev: Result<Evaluation, PersonaError>)
    ensures GroupA(popular, hour, ev).Ok? ==>
      var r := GroupA(popular, hour, ev).value;
      (r.clicked <==> r.purchaseCount > 0) && r.numItems == |r.items|
    ensures GroupB(resp, ev).Ok? ==>
      var r := GroupB(resp, ev).value;
      (r.clicked <==> r.purchaseCount > 0) && r.numItems == |r.items|
  {
  }

  /** Group A sends the popular items, at the drawn hour, which lies in
      [9, 21]; it fails when the popularity query fails (that error first)
      or when the user's evaluation fails. */
  lemma GroupASpec(popular: Result<seq<ArticleId>, StoreError>, draw: nat, ev: Result<Evaluation, PersonaError>)
    ensures GroupA(popular, RandInt(9, 21, draw), ev).Ok? <==> popular.Ok? && ev.Ok?
    ensures popular.Err? ==> GroupA(popular, RandInt(9, 21, draw), ev) == Err(StoreFailed(popular.error))
    ensures GroupA(popular, RandInt(9, 21, draw), ev).Ok? ==>
      var r := GroupA(popular, RandInt(9, 21, draw), ev).value;
      && r.items == popular.value && r.sendTime.Some? && 9 <= r.sendTime.value <= 21
      && r.purchaseCount == ev.value.purchaseCount && r.satisfaction == ev.value.satisfaction
  {
  }

  /** An empty recommendation list gives the same result whatever the user
      would have said: not clicked, nothing bought, satisfaction 0. */
  lemma EmptyRecommendationsSkipEvaluation(response: Response, ev1: Result<Evaluation, PersonaError>,
                                           ev2: Result<Evaluation, PersonaError>)
    requires response.recommendations == []
    ensures GroupB(Ok(response), ev1) == GroupB(Ok(response), ev2)
         == Ok(SimResult(false, [], response.optimalSendTime, 0, 0, 0))
  {
  }

  /** Group B sends at the hour the service returned, which is `None` when
      the service had no candidates for the user; a missing item file fails
      the service and so the simulation. */
  lemma GroupBSendTime(user: CustomerId, cands: seq<ArticleId>, userFile: Option<seq<UserRow>>,
                       itemFile: Option<seq<ItemRow>>, ranker: Option<Ranker>,
                       ev: Result<Evaluation, PersonaError>)
    ensures var resp := Decide(user, TopK, cands, userFile, itemFile, ranker);
      GroupB(resp, ev).Ok? ==> GroupB(resp, ev).value.sendTime == resp.value.optimalSendTime
    ensures itemFile.Some? && cands == [] ==>
      GroupB(Decide(user, TopK, cands, userFile, itemFile, ranker), ev)
        == Ok(SimResult(false, [], None, 0, 0, 0))
    ensures itemFile.None? ==>
      GroupB(Decide(user, TopK, cands, userFile, itemFile, ranker), ev)
        == Err(StoreFailed(ReadFailed(ItemFile)))
  {
  }

  class ABTestSimulator {
    const recService: RecommendationService?
    const candidateGen: CandidateGenerator?

    constructor(recService: RecommendationService?, candidateGen: CandidateGenerator?)
      ensures this.recService == recService && this.candidateGen == candidateGen
    {
      this.recService := recService;
      this.candidateGen := candidateGen;
    }

    /** `simulate_group_a`: the top five popular articles at a random hour,
        evaluated by `vu` (the persona, reply and draw parameters are what
        `vu` receives). A failing popularity query escapes before the user
        is consulted. */
    method SimulateGroupA(user: CustomerId, vu: VirtualUser, hourDraw: nat,
                          d: PersonaDraws, personaReply: Option<string>, loads: string -> Option<Json>,
                          reply: Option<string>, e: EvalDraws)
      returns (r: Result<SimResult, SimError>)
      requires candidateGen != null && vu.Valid() && ObjectLoads(loads)
      modifies candidateGen, vu
      ensures vu.Valid()
      ensures var popular := PopularityQuery(candidateGen.itemFile, TopK);
        var n := if popular.Ok? then |popular.value| else 0;
        && r == GroupA(popular, RandInt(9, 21, hourDraw),
                       EvaluationAfter(old(vu.persona), d, personaReply, loads, n, reply, e))
        && (popular.Err? ==> vu.persona == old(vu.persona))
    {
      var popular := candidateGen.GeneratePopularityCandidates(TopK);
      if popular.Err? {
        return Err(StoreFailed(popular.error));
      }
      var items := popular.value;
      var hour := RandInt(9, 21, hourDraw);
      var ev := vu.EvaluateRecommendations(items, d, personaReply, loads, reply, e);
      if ev.Err? {
        return Err(UserFailed(ev.error));
      }
      var clicked := ev.value.purchaseCount > 0;
      r := Ok(SimResult(clicked, items, Some(hour), |items|, ev.value.purchaseCount, ev.value.satisfaction));
    }

    /** `simulate_group_b`: the service's top five at the hour it proposes;
        the user is consulted only for a non-empty list. `cands` is the
        candidate list the service merged. */
    method SimulateGroupB(user: CustomerId, vu: VirtualUser,
                          d: PersonaDraws, personaReply: Option<string>, loads: string -> Option<Json>,
                          reply: Option<string>, e: EvalDraws)
      returns (r: Result<SimResult, SimError>, ghost cands: seq<ArticleId>)
      requires recService != null && recService.SharedItemFile() && vu.Valid() && ObjectLoads(loads)
      modifies recService.candidateGen, recService.featureStore, vu
      ensures vu.Valid()
      ensures Distinct(cands)
      ensures recService.featureStore.itemFile.Some? ==>
                ToSet(cands) == MergePool(recService.featureStore.itemFile.value, recService.candidateGen.transactions,
                                          user, DefaultPopularityRatio, CandidatePoolSize)
      ensures var resp := Decide(user, TopK, cands, recService.featureStore.userFile,
                                 recService.featureStore.itemFile, recService.ranker);
        var n := if resp.Ok? then |resp.value.recommendations| else 0;
        && r == GroupB(resp, EvaluationAfter(old(vu.persona), d, personaReply, loads, n, reply, e))
        && (n == 0 ==> vu.persona == old(vu.persona))
    {
      var resp;
      resp, cands := recService.Recommend(user, TopK);
      assert recService.featureStore.itemFile.Some? ==>
        ToSet(cands) == MergePool(recService.featureStore.itemFile.value, recService.candidateGen.transactions,
                                  user, DefaultPopularityRatio, CandidatePoolSize);
      assert resp == Decide(user, TopK, cands, recService.featureStore.userFile,
                            recService.featureStore.itemFile, recService.ranker);
      r := Consult(resp, vu, d, personaReply, loads, reply, e);
    }

    /** The second half of `simulate_group_b`: a failed service call is
        passed on, an empty list skips the user, and any other list is
        evaluated by the user. */
    static method Consult(resp: Result<Response, StoreError>, vu: VirtualUser,
                          d: PersonaDraws, personaReply: Option<string>, loads: string -> Option<Json>,
                          reply: Option<string>, e: EvalDraws)
      returns (r: Result<SimResult, SimError>)
      requires vu.Valid() && ObjectLoads(loads)
      modifies vu
      ensures vu.Valid()
      ensures var n := if resp.Ok? then |resp.value.recommendations| else 0;
        && r == GroupB(resp, EvaluationAfter(old(vu.persona), d, personaReply, loads, n, reply, e))
        && (n == 0 ==> vu.persona == old(vu.persona))
    {
      if resp.Err? {
        return Err(StoreFailed(resp.error));
      }
      var items := resp.value.recommendations;
      var hour := resp.value.optimalSendTime;
      var purchase, satisfaction;
      if items != [] {
        var ev := vu.EvaluateRecommendations(items, d, personaReply, loads, reply, e);
        if ev.Err? {
          return Err(UserFailed(ev.error));
        }
        purchase, satisfaction := ev.value.purchaseCount, ev.value.satisfaction;
      } else {
        purchase, satisfaction := 0, 0;
      }
      r := Ok(SimResult(purchase > 0, items, hour, |items|, purchase, satisfaction));
    }

    /** `close`: each collaborator that is present releases its connection. */
    method Close()
      modifies if recService != null then {recService.candidateGen, recService.featureStore} else {}
      modifies if candidateGen != null then {candidateGen} else {}
      ensures recService != null ==>
                recService.candidateGen.con == None && recService.featureStore.con == None
      ensures candidateGen != null ==> candidateGen.con == None
    {
      if recService != null {
        recService.Close();
      }
      if candidateGen != null {
        candidateGen.Close();
      }
    }
  }
}
