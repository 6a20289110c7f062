/** The enhanced virtual user (src/simulation/virtual_user_enhanced.py).
    Without a language model it draws personas from age, gender and budget
    brackets; with one it reads a JSON reply and coerces every field into
    its allowed values. Whether the model is reachable is checked at most
    once per user and cached. The connection check, replies, `json.loads`
    and random draws are parameters, as in the basic user. */
module VirtualUserEnhanced {
  import opened Common
  import opened Text
  import opened Simulation

  /** The draws behind the realistic fallback. */
  datatype FallbackDraws = FallbackDraws(budget: nat, style: nat, frequency: nat,
                                         first: nat, second: nat, other: nat)

  /** The draws behind one persona. */
  datatype PersonaDraws = PersonaDraws(age: nat, gender: nat, fallback: FallbackDraws)

  /** The four fields every persona carries after `age` and `gender`. */
  datatype Details = Details(style: string, frequency: string, budget: string, categories: seq<string>)

  /** `{"age": age, "gender": gender, **details}`. */
  datatype Persona = Persona(age: int, gender: string, details: Details)

  /** The details take their values from the allowed lists and name one to
      three categories. */
  predicate WellFormed(t: Details) {
    t.style in Styles && t.frequency in Frequencies && t.budget in Budgets
    && 1 <= |t.categories| <= 3
  }

  // ---------------------------------------------------------------------
  // Brackets
  // ---------------------------------------------------------------------

  /** `_get_budget_by_age`: the weights of low, medium and high. */
  function BudgetWeights(age: int): seq<nat> {
    if age <= 25 then [60, 30, 10]
    else if age <= 35 then [30, 50, 20]
    else if age <= 50 then [20, 40, 40]
    else [15, 35, 50]
  }

  function BudgetByAge(age: int, draw: nat): (r: string)
    ensures r in Budgets
  {
    WeightedChoice(Budgets, BudgetWeights(age), draw)
  }

  /** `_get_style_by_age`: the styles in the order of each bracket. */
  function StyleOptions(age: int): seq<string> {
    if age <= 25 then ["trendy", "casual", "sporty", "formal", "vintage"]
    else if age <= 35 then ["casual", "trendy", "sporty", "formal", "vintage"]
    else if age <= 50 then ["casual", "formal", "sporty", "trendy", "vintage"]
    else ["casual", "formal", "vintage", "sporty", "trendy"]
  }

  function StyleWeights(age: int): seq<nat> {
    if age <= 25 then [40, 30, 20, 5, 5]
    else if age <= 35 then [35, 25, 20, 15, 5]
    else if age <= 50 then [40, 25, 15, 10, 10]
    else [35, 30, 20, 10, 5]
  }

  function StyleByAge(age: int, draw: nat): (r: string)
    ensures r in Styles
  {
    WeightedChoice(StyleOptions(age), StyleWeights(age), draw)
  }

  /** `_get_frequency_by_budget`: any budget other than low and medium is
      treated as high. */
  function FrequencyOptions(budget: string): seq<string> {
    if budget == "low" then ["occasionally", "monthly", "weekly"]
    else if budget == "medium" then ["monthly", "occasionally", "weekly"]
    else ["weekly", "monthly", "occasionally"]
  }

  function FrequencyWeights(budget: string): seq<nat> {
    if budget == "low" then [70, 25, 5]
    else if budget == "medium" then [50, 30, 20]
    else [50, 35, 15]
  }

  function FrequencyByBudget(budget: string, draw: nat): (r: string)
    ensures r in Frequencies
  {
    WeightedChoice(FrequencyOptions(budget), FrequencyWeights(budget), draw)
  }

  /** Every budget is drawn at every age by some draw. */
  lemma EveryBudgetPossible(age: int, v: string)
    requires v in Budgets
    ensures exists draw: nat :: BudgetByAge(age, draw) == v
  {
    var ws := BudgetWeights(age);
    var i :| 0 <= i < 3 && Budgets[i] == v;
    assert ws[i] > 0;
    WeightedChoiceCovers(Budgets, ws, i);
    assert BudgetByAge(age, Sum(ws[..i])) == v;
  }

  /** Every style is drawn at every age by some draw. */
  lemma EveryStylePossible(age: int, v: string)
    requires v in Styles
    ensures exists draw: nat :: StyleByAge(age, draw) == v
  {
    var opts, ws := StyleOptions(age), StyleWeights(age);
    assert v in opts;
    var i :| 0 <= i < 5 && opts[i] == v;
    assert ws[i] > 0;
    WeightedChoiceCovers(opts, ws, i);
    assert StyleByAge(age, Sum(ws[..i])) == v;
  }

  /** Every frequency is drawn for every budget by some draw. */
  lemma EveryFrequencyPossible(budget: string, v: string)
    requires v in Frequencies
    ensures exists draw: nat :: FrequencyByBudget(budget, draw) == v
  {
    var opts, ws := FrequencyOptions(budget), FrequencyWeights(budget);
    assert v in opts;
    var i :| 0 <= i < 3 && opts[i] == v;
    assert ws[i] > 0;
    WeightedChoiceCovers(opts, ws, i);
    assert FrequencyByBudget(budget, Sum(ws[..i])) == v;
  }

  /** `_get_categories_by_gender`: the weights of the six categories. */
  function CategoryWeights(gender: string): seq<nat> {
    if gender == "Male" then [30, 25, 5, 20, 10, 15]
    else if gender == "Female" then [20, 15, 25, 20, 20, 10]
    else [20, 20, 15, 20, 15, 10]
  }

  lemma CategoryWeightsPositive(gender: string)
    ensures |CategoryWeights(gender)| == 6 && Sum(CategoryWeights(gender)) > 0
  {
  }

  /** One pick of `random.choices(all_categories, weights=weights, k=2)`. */
  function Pick(gender: string, draw: nat): (r: string)
    ensures r in Categories
  {
    CategoryWeightsPositive(gender);
    WeightedChoice(Categories, CategoryWeights(gender), draw)
  }

  /** Two weighted picks; a repeated pick is replaced by a uniform pick
      among the five other categories. */
  function CategoryPair(gender: string, d: FallbackDraws): (r: seq<string>)
    ensures |r| == 2 && r[0] != r[1] && r[0] in Categories && r[1] in Categories
  {
    var first := Pick(gender, d.first);
    var second := Pick(gender, d.second);
    if first == second then [first, Choice(Others(first), d.other)] else [first, second]
  }

  /** `[c for c in all_categories if c != first]`. */
  function Others(first: string): (r: seq<string>)
    ensures |r| > 0 && first !in r && forall c :: c in r ==> c in Categories
  {
    var r := Filter(Categories, c => c != first);
    assert "tops" in r || "bottoms" in r;
    r
  }

  /** Every pair of different categories is drawn for every gender. */
  lemma EveryPairPossible(gender: string, i: nat, k: nat)
    requires i < 6 && k < 6 && i != k
    ensures exists d: FallbackDraws :: CategoryPair(gender, d) == [Categories[i], Categories[k]]
  {
    var ws := CategoryWeights(gender);
    assert ws[i] > 0 && ws[k] > 0;
    WeightedChoiceCovers(Categories, ws, i);
    WeightedChoiceCovers(Categories, ws, k);
    CategoriesDistinct();
    var d := FallbackDraws(0, 0, 0, Sum(ws[..i]), Sum(ws[..k]), 0);
    assert Pick(gender, d.first) == Categories[i] && Pick(gender, d.second) == Categories[k];
    assert Categories[i] != Categories[k];
    assert CategoryPair(gender, d) == [Categories[i], Categories[k]];
  }

  /** `_fallback_persona_realistic`: the budget follows the age, the style
      the age, the frequency the budget and the categories the gender. */
  function FallbackRealistic(age: int, gender: string, d: FallbackDraws): (t: Details)
    ensures WellFormed(t) && |t.categories| == 2
  {
    var budget := BudgetByAge(age, d.budget);
    Details(StyleByAge(age, d.style), FrequencyByBudget(budget, d.frequency), budget, CategoryPair(gender, d))
  }

  // ---------------------------------------------------------------------
  // Reading the persona reply
  // ---------------------------------------------------------------------

  function DigitChar(k: nat): char
    requires k < 10
  {
    ('0' as int + k) as char
  }

  function NatText(k: nat): string {
    if k < 10 then [DigitChar(k)] else NatText(k / 10) + [DigitChar(k % 10)]
  }

  function CommaJoin(ss: seq<string>): string {
    if ss == [] then "" else if |ss| == 1 then ss[0] else ss[0] + ", " + CommaJoin(ss[1..])
  }

  /** `repr` of a JSON value, with strings in single quotes. */
  function Repr(j: Json): string
    decreases j
  {
    match j
    case JNull => "None"
    case JBool(b) => if b then "True" else "False"
    case JInt(i) => if i < 0 then "-" + NatText(-i) else NatText(i)
    case JStr(s) => "'" + s + "'"
    case JArr(items) =>
      "[" + CommaJoin(seq(|items|, i requires 0 <= i < |items| => Repr(items[i]))) + "]"
    case JObj(members) =>
      "{" + CommaJoin(seq(|members|, i requires 0 <= i < |members| =>
                            "'" + members[i].0 + "': " + Repr(members[i].1))) + "}"
  }

  /** `str(x)`: a string is itself, anything else its `repr`. */
  function PyStr(j: Json): string {
    if j.JStr? then j.s else Repr(j)
  }

  /** `value not in allowed` for a field read with `obj.get(key, default)`:
      an allowed string is kept, any other hashable value becomes the
      default, and a list or an object is unhashable (`None`: the
      `TypeError` that sends the whole reply to the fallback). */
  function Coerce(v: Option<Json>, allowed: seq<string>, default: string): Option<string> {
    match v
    case None => Some(default)
    case Some(JArr(_)) => None
    case Some(JObj(_)) => None
    case Some(JStr(s)) => if s in allowed then Some(s) else Some(default)
    case Some(_) => Some(default)
  }

  /** `categories`: a non-empty list is stringified and cut to three
      entries; anything else becomes `["tops", "bottoms"]`. */
  function CategoriesOf(v: Option<Json>): (r: seq<string>)
    ensures 1 <= |r| <= 3
  {
    if v.Some? && v.value.JArr? && |v.value.items| >= 1 then
      Take(Map(v.value.items, PyStr), 3)
    else ["tops", "bottoms"]
  }

  /** `_parse_persona_json`. Every failure (no `{...}` span, text that does
      not parse, a value without `.get`, an unhashable field) gives the
      realistic fallback for a 30-year-old male, whatever the persona's own
      age and gender. */
  function ParsePersonaJson(reply: string, loads: string -> Option<Json>, d: FallbackDraws): Details {
    match BraceSpan(reply)
    case None => FallbackRealistic(30, "Male", d)
    case Some(span) =>
      var obj := loads(span);
      if obj.Some? && obj.value.JObj? && ReadObject(obj.value.members).Some? then
        ReadObject(obj.value.members).value
      else FallbackRealistic(30, "Male", d)
  }

  /** The coerced fields of a parsed object, or `None` when `style`,
      `frequency` or `budget` is unhashable. */
  function ReadObject(members: seq<(string, Json)>): Option<Details> {
    var style := Coerce(Get(members, "style"), Styles, "casual");
    var frequency := Coerce(Get(members, "frequency"), Frequencies, "occasionally");
    var budget := Coerce(Get(members, "budget"), Budgets, "medium");
    if style.None? || frequency.None? || budget.None? then None
    else Some(Details(style.value, frequency.value, budget.value, CategoriesOf(Get(members, "categories"))))
  }

  /** Whatever the reply, the details are well formed. */
  lemma ParsedDetailsWellFormed(reply: string, loads: string -> Option<Json>, d: FallbackDraws)
    ensures WellFormed(ParsePersonaJson(reply, loads, d))
  {
  }

  /** A reply with no span, one that does not parse, or one that is not an
      object gives the fallback for age 30 and gender "Male". */
  lemma UnreadableReplyFallsBack(reply: string, loads: string -> Option<Json>, d: FallbackDraws)
    requires BraceSpan(reply).None? || loads(BraceSpan(reply).value).None?
             || !loads(BraceSpan(reply).value).value.JObj?
    ensures ParsePersonaJson(reply, loads, d) == FallbackRealistic(30, "Male", d)
  {
  }

  /** The value a hashable field ends with: an allowed string is kept,
      anything else is the default. */
  function Kept(v: Option<Json>, allowed: seq<string>, default: string): string {
    if v.Some? && v.value.JStr? && v.value.s in allowed then v.value.s else default
  }

  predicate Hashable(v: Option<Json>) {
    v.None? || !(v.value.JArr? || v.value.JObj?)
  }

  /** For an object whose three fields are hashable, each field keeps an
      allowed value and otherwise takes its default, and the categories
      follow `CategoriesOf`. */
  lemma FieldsCoerced(members: seq<(string, Json)>)
    requires Hashable(Get(members, "style")) && Hashable(Get(members, "frequency"))
             && Hashable(Get(members, "budget"))
    ensures ReadObject(members)
         == Some(Details(Kept(Get(members, "style"), Styles, "casual"),
                         Kept(Get(members, "frequency"), Frequencies, "occasionally"),
                         Kept(Get(members, "budget"), Budgets, "medium"),
                         CategoriesOf(Get(members, "categories"))))
  {
  }

  /** An unhashable `style`, `frequency` or `budget` makes the object
      unreadable. */
  lemma UnhashableFieldRejected(members: seq<(string, Json)>, key: string)
    requires key == "style" || key == "frequency" || key == "budget"
    requires !Hashable(Get(members, key))
    ensures ReadObject(members).None?
  {
  }

  /** A reply whose span parses to an object gives that object's coerced
      fields when they are readable, and the 30-year-old male fallback
      otherwise. */
  lemma ObjectReplyRead(reply: string, loads: string -> Option<Json>, d: FallbackDraws, members: seq<(string, Json)>)
    requires BraceSpan(reply).Some? && loads(BraceSpan(reply).value) == Some(JObj(members))
    ensures ReadObject(members).Some? ==> ParsePersonaJson(reply, loads, d) == ReadObject(members).value
    ensures ReadObject(members).None? ==> ParsePersonaJson(reply, loads, d) == FallbackRealistic(30, "Male", d)
  {
  }

  /** A non-empty list of categories keeps its first three entries, as
      text; anything else is replaced by tops and bottoms. */
  lemma CategoriesSpec(v: Option<Json>)
    ensures !(v.Some? && v.value.JArr? && |v.value.items| >= 1) ==> CategoriesOf(v) == ["tops", "bottoms"]
    ensures v.Some? && v.value.JArr? && |v.value.items| >= 1 ==>
      var items := v.value.items;
      |CategoriesOf(v)| == Min(3, |items|)
      && forall i :: 0 <= i < |CategoriesOf(v)| ==> CategoriesOf(v)[i] == PyStr(items[i])
  {
  }

  // ---------------------------------------------------------------------
  // Persona and evaluation
  // ---------------------------------------------------------------------

  /** `generate_persona` once availability is known: with the model and a
      non-empty reply the reply is read, otherwise the realistic fallback
      for the drawn age and gender is used. */
  function PersonaOf(d: PersonaDraws, available: bool, reply: Option<string>,
                     loads: string -> Option<Json>): Persona {
    var age := RandInt(18, 65, d.age);
    var gender := Choice(Genders, d.gender);
    var details :=
      if available && Truthy(reply) then ParsePersonaJson(reply.value, loads, d.fallback)
      else FallbackRealistic(age, gender, d.fallback);
    Persona(age, gender, details)
  }

  /** Every persona has an age in [18, 65], a gender from the list and well
      formed details; without the model its budget and style follow its own
      age bracket and its categories its own gender. */
  lemma PersonaSpec(d: PersonaDraws, available: bool, reply: Option<string>, loads: string -> Option<Json>)
    ensures var p := PersonaOf(d, available, reply, loads);
      && 18 <= p.age <= 65 && p.gender in Genders && WellFormed(p.details)
      && (!available ==> p.details == FallbackRealistic(p.age, p.gender, d.fallback))
  {
    if available && Truthy(reply) {
      ParsedDetailsWellFormed(reply.value, loads, d.fallback);
    }
  }

  /** `_random_eval`. */
  function RandomEval(n: nat, e: EvalDraws): (int, int) {
    (RandInt(0, Min(3, n), e.purchase), RandInt(2, 5, e.satisfaction))
  }

  /** `_parse_eval`: the purchase count capped at `n`, 0 when absent; the
      satisfaction clamped to [1, 5], 3 when absent; no reply, or a number
      too long for `int()` (caught by `except Exception`), falls back to the
      random evaluation. */
  function ParseEval(reply: Option<string>, n: nat, e: EvalDraws): (int, int) {
    if Truthy(reply) then
      var pm := ReadTagged(reply.value, "Purchase:");
      var sm := ReadTagged(reply.value, "Satisfaction:");
      if pm.TooLong? || sm.TooLong? then RandomEval(n, e)
      else (if pm.Value? then Min(pm.v, n) else 0, if sm.Value? then Max(1, Min(sm.v, 5)) else 3)
    else RandomEval(n, e)
  }

  lemma RandomEvalBounds(n: nat, e: EvalDraws)
    ensures 0 <= RandomEval(n, e).0 <= Min(3, n) && 2 <= RandomEval(n, e).1 <= 5
  {
  }

  lemma ParseEvalSpec(reply: string, n: nat, e: EvalDraws)
    requires reply != []
    ensures var (p, s) := ParseEval(Some(reply), n, e);
      var pm := ReadTagged(reply, "Purchase:");
      var sm := ReadTagged(reply, "Satisfaction:");
      && 0 <= p <= n && 1 <= s <= 5
      && (pm.TooLong? || sm.TooLong? ==> (p, s) == RandomEval(n, e))
      && (!pm.TooLong? && !sm.TooLong? ==>
            && (pm.Value? ==> p == Min(pm.v, n)) && (pm.Absent? ==> p == 0)
            && (sm.Value? ==> s == Max(1, Min(sm.v, 5))) && (sm.Absent? ==> s == 3))
  {
  }

  /** `evaluate_recommendations` for `n` recommendations once availability
      is known. */
  function EvaluationOf(n: nat, available: bool, reply: Option<string>, e: EvalDraws): Evaluation {
    if n == 0 then Evaluation(0, 3, 0.0)
    else
      var (p, s) := if available then ParseEval(reply, n, e) else RandomEval(n, e);
      Evaluation(p, s, Rate(p, n))
  }

  /** The purchase count and satisfaction for a non-empty list, whichever
      way they are obtained: purchases in [0, n], satisfaction in [1, 5]. */
  function EvalPair(n: nat, available: bool, reply: Option<string>, e: EvalDraws): (ps: (int, int))
    requires n > 0
    ensures 0 <= ps.0 <= n && 1 <= ps.1 <= 5
  {
    if available && Truthy(reply) then
      ParseEvalSpec(reply.value, n, e);
      ParseEval(reply, n, e)
    else
      RandomEvalBounds(n, e);
      RandomEval(n, e)
  }

  /** An empty list gives (0, 3, 0.0); otherwise the purchases lie in
      [0, n], the satisfaction in [1, 5] and the rate is purchases over n
      (`RateSpec`), hence in [0, 1]. */
  lemma EvaluationSpec(n: nat, available: bool, reply: Option<string>, e: EvalDraws)
    ensures n == 0 ==> EvaluationOf(n, available, reply, e) == Evaluation(0, 3, 0.0)
    ensures n > 0 ==>
      var ev := EvaluationOf(n, available, reply, e);
      && 0 <= ev.purchaseCount <= n && 1 <= ev.satisfaction <= 5
      && ev.acceptanceRate == Rate(ev.purchaseCount, n)
      && 0.0 <= ev.acceptanceRate <= 1.0
  {
    if n > 0 {
      var ps := EvalPair(n, available, reply, e);
      assert EvaluationOf(n, available, reply, e) == Evaluation(ps.0, ps.1, Rate(ps.0, n));
      RateSpec(ps.0, n);
    }
  }

  // ---------------------------------------------------------------------
  // Availability
  // ---------------------------------------------------------------------

  /** `_is_llm_available`: the answer and the new cache, given whether a
      client exists, the cache, and what the connection check gives
      (`None` when it raises). */
  function Availability(hasClient: bool, cache: Option<bool>, probe: Option<bool>): (bool, Option<bool>) {
    if !hasClient then (false, Some(false))
    else if cache.Some? then (cache.value, cache)
    else (probe == Some(true), Some(probe == Some(true)))
  }

  /** No client means never available; a failing check means unavailable;
      after the first call the answer is fixed, whatever later checks
      would give. */
  lemma AvailabilityCached(hasClient: bool, cache: Option<bool>, probe: Option<bool>, later: Option<bool>)
    ensures !hasClient ==> !Availability(hasClient, cache, probe).0
    ensures hasClient && cache.None? && probe != Some(true) ==> !Availability(hasClient, cache, probe).0
    ensures var (ok, c) := Availability(hasClient, cache, probe);
      c == Some(ok) && Availability(hasClient, c, later) == (ok, c)
  {
  }

  class EnhancedUser {
    const hasClient: bool
    var llmAvailable: Option<bool>
    var persona: Option<Persona>
    /** How many times the connection check has run. */
    ghost var checks: nat

    /** The connection check runs only with a client, and at most once. */
    ghost predicate Valid()
      reads this
    {
      checks <= 1 && (llmAvailable.None? ==> checks == 0) && (!hasClient ==> checks == 0)
    }

    constructor(hasClient: bool)
      ensures this.hasClient == hasClient && llmAvailable.None? && persona.None? && checks == 0
      ensures Valid()
    {
      this.hasClient := hasClient;
      llmAvailable := None;
      persona := None;
      checks := 0;
    }

    method IsLlmAvailable(probe: Option<bool>) returns (ok: bool)
      requires Valid()
      modifies this
      ensures Valid()
      ensures (ok, llmAvailable) == Availability(hasClient, old(llmAvailable), probe)
      ensures checks == old(checks) + (if hasClient && old(llmAvailable).None? then 1 else 0)
      ensures persona == old(persona)
    {
      if !hasClient {
        llmAvailable := Some(false);
        return false;
      }
      if llmAvailable.None? {
        checks := checks + 1;
        if probe.Some? {
          llmAvailable := Some(probe.value);
        } else {
          llmAvailable := Some(false);
        }
      }
      ok := llmAvailable.value;
    }

    /** `_get_categories_by_gender`, overwriting the repeated pick in place. */
    static method CategoriesByGender(gender: string, d: FallbackDraws) returns (selected: array<string>)
      ensures fresh(selected) && selected[..] == CategoryPair(gender, d)
    {
      var first := Pick(gender, d.first);
      var second := Pick(gender, d.second);
      selected := new string[2];
      selected[0], selected[1] := first, second;
      if first == second {
        selected[1] := Choice(Others(first), d.other);
        assert selected[..] == [first, Choice(Others(first), d.other)];
      } else {
        assert selected[..] == [first, second];
      }
    }

    method GeneratePersona(d: PersonaDraws, probe: Option<bool>, reply: Option<string>,
                           loads: string -> Option<Json>) returns (p: Persona)
      requires Valid()
      modifies this
      ensures Valid()
      ensures (Availability(hasClient, old(llmAvailable), probe).1) == llmAvailable
      ensures p == PersonaOf(d, Availability(hasClient, old(llmAvailable), probe).0, reply, loads)
      ensures persona == Some(p)
    {
      var age := RandInt(18, 65, d.age);
      var gender := Choice(Genders, d.gender);
      var available := IsLlmAvailable(probe);
      var details: Details;
      if available {
        if Truthy(reply) {
          details := ParsePersonaJson(reply.value, loads, d.fallback);
        } else {
          details := FallbackRealistic(age, gender, d.fallback);
        }
      } else {
        details := FallbackRealistic(age, gender, d.fallback);
      }
      p := Persona(age, gender, details);
      persona := Some(p);
    }

    /** `evaluate_recommendations`: a persona is generated first when there
        is none; the connection check is consulted only for a non-empty
        list or a new persona. */
    method EvaluateRecommendations(recs: seq<ArticleId>, d: PersonaDraws, probe: Option<bool>,
                                   personaReply: Option<string>, loads: string -> Option<Json>,
                                   reply: Option<string>, e: EvalDraws) returns (r: Evaluation)
      requires Valid()
      modifies this
      ensures Valid()
      ensures var available := Availability(hasClient, old(llmAvailable), probe).0;
        && r == EvaluationOf(|recs|, available, reply, e)
        && persona == (if old(persona).Some? then old(persona) else Some(PersonaOf(d, available, personaReply, loads)))
      ensures llmAvailable == if old(persona).None? || |recs| > 0
                              then Availability(hasClient, old(llmAvailable), probe).1
                              else old(llmAvailable)
    {
      AvailabilityCached(hasClient, llmAvailable, probe, probe);
      if persona.None? {
        var _ := GeneratePersona(d, probe, personaReply, loads);
      }
      var n := |recs|;
      if n == 0 {
        return Evaluation(0, 3, 0.0);
      }
      var purchase := 0;
      var satisfaction := 3;
      var available := IsLlmAvailable(probe);
      if available {
        var (p, s) := ParseEval(reply, n, e);
        purchase, satisfaction := p, s;
      } else {
        var (p, s) := RandomEval(n, e);
        purchase, satisfaction := p, s;
      }
      r := Evaluation(purchase, satisfaction, purchase as real / n as real);
    }
  }
}
