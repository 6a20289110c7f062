/** The basic virtual user (src/simulation/virtual_user.py): a persona drawn
    at random and completed by a language-model reply, and an evaluation of
    a recommendation list read out of a second reply. Replies are
    parameters (`None` when no reply arrives), `json.loads` is the parameter
    `loads` (`None` when it raises), and random draws are natural numbers. */
module VirtualUser {
  import opened Common
  import opened Text
  import opened Simulation

  /** The persona dictionary. */
  type Persona = map<string, Json>

  /** The draws behind one persona: age, gender and the fallback's picks. */
  datatype PersonaDraws = PersonaDraws(age: nat, gender: nat, style: nat, frequency: nat,
                                       budget: nat, first: nat, second: nat)

  /** The exception `evaluate_recommendations` lets escape: `', '.join(...)`
      of `categories` that are not strings. */
  datatype PersonaError = NotJoinable

  // ---------------------------------------------------------------------
  // Persona
  // ---------------------------------------------------------------------

  /** `random.sample(xs, 2)`: the first pick is any position, the second any
      other position. */
  function SampleTwo(xs: seq<string>, first: nat, second: nat): (r: seq<string>)
    requires |xs| >= 2
    ensures |r| == 2 && r[0] in xs && r[1] in xs
    ensures Distinct(xs) ==> r[0] != r[1]
  {
    var i := first % |xs|;
    var j := second % (|xs| - 1);
    [xs[i], xs[if j < i then j else j + 1]]
  }

  /** Every ordered pair of distinct elements is sampled by some draws. */
  lemma SampleTwoCovers(xs: seq<string>, i: nat, k: nat)
    requires |xs| >= 2
    requires i < |xs| && k < |xs| && i != k
    ensures SampleTwo(xs, i, if k < i then k else k - 1) == [xs[i], xs[k]]
  {
    SmallMod(i, |xs|);
    SmallMod(if k < i then k else k - 1, |xs| - 1);
  }

  /** A list of strings as JSON. */
  function StrList(cs: seq<string>): (r: seq<Json>)
    ensures |r| == |cs| && forall i :: 0 <= i < |cs| ==> r[i] == JStr(cs[i])
  {
    seq(|cs|, i requires 0 <= i < |cs| => JStr(cs[i]))
  }

  /** The dictionary `_fallback_persona` returns, from its four picks. */
  function FallbackObject(style: string, frequency: string, budget: string, categories: seq<string>): Json {
    JObj([("style", JStr(style)), ("frequency", JStr(frequency)), ("budget", JStr(budget)),
          ("categories", JArr(StrList(categories)))])
  }

  /** `_fallback_persona`. */
  function FallbackPersona(d: PersonaDraws): Json {
    FallbackObject(Choice(Styles, d.style), Choice(Frequencies, d.frequency), Choice(Budgets, d.budget),
                   SampleTwo(Categories, d.first, d.second))
  }

  /** The fallback as a dictionary. */
  lemma FallbackMap(style: string, frequency: string, budget: string, categories: seq<string>)
    ensures ToMap(FallbackObject(style, frequency, budget, categories).members)
         == map["style" := JStr(style), "frequency" := JStr(frequency), "budget" := JStr(budget),
                "categories" := JArr(StrList(categories))]
  {
    var members := FallbackObject(style, frequency, budget, categories).members;
    assert members[..1][..0] == [];
    assert ToMap(members[..1]) == map["style" := JStr(style)];
    assert members[..2][..1] == members[..1];
    assert ToMap(members[..2]) == map["style" := JStr(style), "frequency" := JStr(frequency)];
    assert members[..3][..2] == members[..2];
    assert ToMap(members[..3]) == map["style" := JStr(style), "frequency" := JStr(frequency), "budget" := JStr(budget)];
    assert members[..3] == members[..|members| - 1];
  }

  /** The fallback draws each value from its fixed list and names two
      different categories. */
  lemma FallbackPersonaSpec(d: PersonaDraws)
    ensures FallbackPersona(d).JObj?
    ensures var m := ToMap(FallbackPersona(d).members);
      && m.Keys == {"style", "frequency", "budget", "categories"}
      && m["style"].JStr? && m["style"].s in Styles
      && m["frequency"].JStr? && m["frequency"].s in Frequencies
      && m["budget"].JStr? && m["budget"].s in Budgets
      && m["categories"].JArr? && |m["categories"].items| == 2
      && m["categories"].items[0] != m["categories"].items[1]
      && forall c :: c in m["categories"].items ==> c.JStr? && c.s in Categories
  {
    var cats := SampleTwo(Categories, d.first, d.second);
    FallbackMap(Choice(Styles, d.style), Choice(Frequencies, d.frequency), Choice(Budgets, d.budget), cats);
    CategoriesDistinct();
  }

  /** What `generate_persona` puts after `age` and `gender`: the JSON object
      of the `{...}` span of a non-empty reply, or the fallback when there is
      no reply, no span, or the span does not parse. */
  function Details(d: PersonaDraws, reply: Option<string>, loads: string -> Option<Json>): Json {
    if Truthy(reply) then
      match BraceSpan(reply.value)
      case None => FallbackPersona(d)
      case Some(span) =>
        match loads(span)
        case None => FallbackPersona(d)
        case Some(j) => j
    else FallbackPersona(d)
  }

  /** The details are always an object: the fallback is one, and a parsed
      span opens with `{`, so `json.loads` gave an object. Hence `**details`
      never raises and `generate_persona` always succeeds. */
  lemma DetailsAreObject(d: PersonaDraws, reply: Option<string>, loads: string -> Option<Json>)
    requires ObjectLoads(loads)
    ensures Details(d, reply, loads).JObj?
    ensures Details(d, reply, loads) != FallbackPersona(d) ==>
              Truthy(reply) && BraceSpan(reply.value).Some? &&
              loads(BraceSpan(reply.value).value) == Some(Details(d, reply, loads))
  {
    if Truthy(reply) && BraceSpan(reply.value).Some? {
      BraceSpanSpec(reply.value);
      assert LoadsObjectFrom(loads, BraceSpan(reply.value).value);
    }
  }

  /** `{'age': age, 'gender': gender, **details}`. */
  function PersonaOf(d: PersonaDraws, reply: Option<string>, loads: string -> Option<Json>): Persona
    requires ObjectLoads(loads)
  {
    DetailsAreObject(d, reply, loads);
    Drawn(d) + ToMap(Details(d, reply, loads).members)
  }

  /** The drawn `age` in [18, 65] and `gender`. */
  function Drawn(d: PersonaDraws): Persona {
    map["age" := JInt(RandInt(18, 65, d.age)), "gender" := JStr(Choice(Genders, d.gender))]
  }

  /** The persona always has `age` and `gender`; a key of the reply's object
      overrides the drawn value, and a drawn value survives only when the
      reply does not name that key. */
  lemma ReplyKeysOverride(d: PersonaDraws, reply: Option<string>, loads: string -> Option<Json>)
    requires ObjectLoads(loads)
    ensures Details(d, reply, loads).JObj?
    ensures
      var p := PersonaOf(d, reply, loads);
      var members := Details(d, reply, loads).members;
      && "age" in p && "gender" in p
      && (forall k :: Get(members, k).Some? ==> k in p && p[k] == Get(members, k).value)
      && (Get(members, "age").None? ==> p["age"].JInt? && 18 <= p["age"].i <= 65)
      && (Get(members, "gender").None? ==> p["gender"].JStr? && p["gender"].s in Genders)
      && (forall k :: k in p ==> k == "age" || k == "gender" || Get(members, k).Some?)
  {
    DetailsAreObject(d, reply, loads);
    var members := Details(d, reply, loads).members;
    var parsed := ToMap(members);
    ToMapGet(members);
    assert PersonaOf(d, reply, loads) == Drawn(d) + parsed;
  }

  /** No reply, an empty reply, or a reply without a `{...}` span gives the
      drawn age and gender followed by the fallback details. */
  lemma NoSpanGivesFallback(d: PersonaDraws, reply: Option<string>, loads: string -> Option<Json>)
    requires ObjectLoads(loads)
    requires !Truthy(reply) || BraceSpan(reply.value).None?
    ensures PersonaOf(d, reply, loads) == Drawn(d) + ToMap(FallbackPersona(d).members)
  {
  }

  /** The fallback keeps the drawn age and gender and adds its four keys. */
  lemma FallbackKeepsDraws(d: PersonaDraws)
    ensures var p := Drawn(d) + ToMap(FallbackPersona(d).members);
      && p.Keys == {"age", "gender", "style", "frequency", "budget", "categories"}
      && p["age"].JInt? && 18 <= p["age"].i <= 65
      && p["gender"].JStr? && p["gender"].s in Genders
  {
    var cats := SampleTwo(Categories, d.first, d.second);
    FallbackMap(Choice(Styles, d.style), Choice(Frequencies, d.frequency), Choice(Budgets, d.budget), cats);
  }

  // ---------------------------------------------------------------------
  // Evaluation
  // ---------------------------------------------------------------------

  /** `', '.join(x)` succeeds: a string and an object iterate as strings,
      a list must hold only strings. */
  predicate Joinable(j: Json) {
    match j
    case JStr(_) => true
    case JObj(_) => true
    case JArr(items) => forall x :: x in items ==> x.JStr?
    case _ => false
  }

  /** `purchase_count` and `satisfaction`: read from a non-empty reply with
      `Purchase:\s*(\d+)` and `Satisfaction:\s*(\d+)`, each keeping its
      default 0 or 3 when absent; drawn at random when there is no reply, or
      when `int()` raises on an over-long number (the bare `except`). */
  function Scores(n: nat, reply: Option<string>, e: EvalDraws): (int, int) {
    if Truthy(reply) then
      var pm := ReadTagged(reply.value, "Purchase:");
      var sm := ReadTagged(reply.value, "Satisfaction:");
      if pm.TooLong? || sm.TooLong? then RandomPair(n, e)
      else (if pm.Value? then Min(pm.v, n) else 0, if sm.Value? then Min(sm.v, 5) else 3)
    else RandomPair(n, e)
  }

  /** `random.randint(0, min(3, n))` and `random.randint(2, 5)`. */
  function RandomPair(n: nat, e: EvalDraws): (int, int) {
    (RandInt(0, Min(3, n), e.purchase), RandInt(2, 5, e.satisfaction))
  }

  /** The evaluation of `n` recommendations under `persona`. */
  function Evaluate(persona: Persona, n: nat, reply: Option<string>, e: EvalDraws): Result<Evaluation, PersonaError> {
    if "categories" in persona && !Joinable(persona["categories"]) then Err(NotJoinable)
    else
      var (p, s) := Scores(n, reply, e);
      Ok(Evaluation(p, s, Rate(p, n)))
  }

  /** A parsed purchase count is the reply's number capped at `n`, and a
      parsed satisfaction the reply's number capped at 5, with no lower
      clamp; absent numbers keep the defaults. A number too long for `int()`
      sends both to the random draws. */
  lemma ParsedScores(n: nat, reply: string, e: EvalDraws)
    requires reply != []
    ensures var (p, s) := Scores(n, Some(reply), e);
      var pm := ReadTagged(reply, "Purchase:");
      var sm := ReadTagged(reply, "Satisfaction:");
      && 0 <= p <= n && 0 <= s <= 5
      && (pm.TooLong? || sm.TooLong? ==> (p, s) == RandomPair(n, e) && p <= 3 && 2 <= s)
      && (!pm.TooLong? && !sm.TooLong? ==>
            && (pm.Value? ==> p == Min(pm.v, n)) && (pm.Absent? ==> p == 0)
            && (sm.Value? ==> s == Min(sm.v, 5)) && (sm.Absent? ==> s == 3))
  {
  }

  /** A reply can drive satisfaction to 0, below the 1-5 the prompt asks for. */
  lemma SatisfactionCanBeZero(e: EvalDraws)
    ensures Scores(1, Some("Satisfaction: 0"), e).1 == 0
  {
    var s := "Satisfaction: 0";
    assert "Satisfaction:" <= s;
    var rest := s[|"Satisfaction:"|..];
    assert rest == " 0";
    assert LeadingSpaces(rest) == 1;
    assert rest[1..] == "0";
    assert DigitPrefix("0") == "0";
    assert DigitsAt(s, "Satisfaction:") == Some("0");
    assert ReadTagged(s, "Satisfaction:") == Value(0);
  }

  /** Without a reply the purchases lie in [0, min(3, n)] and the
      satisfaction in [2, 5]. */
  lemma RandomScores(n: nat, reply: Option<string>, e: EvalDraws)
    requires !Truthy(reply)
    ensures var (p, s) := Scores(n, reply, e);
      0 <= p <= Min(3, n) && 2 <= s <= 5
  {
  }

  /** A successful evaluation carries the scores and their rate; it fails
      only on categories that cannot be joined. */
  lemma EvaluateSpec(persona: Persona, n: nat, reply: Option<string>, e: EvalDraws)
    ensures Evaluate(persona, n, reply, e).Err? <==>
              "categories" in persona && !Joinable(persona["categories"])
    ensures Evaluate(persona, n, reply, e).Ok? ==>
      var ev := Evaluate(persona, n, reply, e).value;
      && ev.purchaseCount == Scores(n, reply, e).0
      && ev.satisfaction == Scores(n, reply, e).1
      && 0 <= ev.purchaseCount <= n
      && 0.0 <= ev.acceptanceRate <= 1.0
  {
    var (p, s) := Scores(n, reply, e);
    if Truthy(reply) { ParsedScores(n, reply.value, e); } else { RandomScores(n, reply, e); }
    RateSpec(p, n);
  }

  /** `evaluate_recommendations` from a user whose persona is `persona`:
      an empty persona is generated first. */
  function EvaluationAfter(persona: Persona, d: PersonaDraws, personaReply: Option<string>,
                           loads: string -> Option<Json>, n: nat, reply: Option<string>,
                           e: EvalDraws): Result<Evaluation, PersonaError>
    requires ObjectLoads(loads)
  {
    if persona != map[] then Evaluate(persona, n, reply, e)
    else Evaluate(PersonaOf(d, personaReply, loads), n, reply, e)
  }

  // ---------------------------------------------------------------------
  // The user
  // ---------------------------------------------------------------------

  class VirtualUser {
    var persona: Persona

    /** A generated persona always names the age and the gender. */
    predicate Valid()
      reads this
    {
      persona == map[] || ("age" in persona && "gender" in persona)
    }

    constructor()
      ensures persona == map[] && Valid()
    {
      persona := map[];
    }

    /** `generate_persona`: stores and returns the new persona, which always
        names the age and the gender. */
    method GeneratePersona(d: PersonaDraws, reply: Option<string>, loads: string -> Option<Json>)
      returns (r: Persona)
      requires ObjectLoads(loads)
      modifies this
      ensures r == PersonaOf(d, reply, loads)
      ensures persona == r
      ensures Valid() && persona != map[]
    {
      var age := RandInt(18, 65, d.age);
      var gender := Choice(Genders, d.gender);
      var details: Json;
      if Truthy(reply) {
        var span := BraceSpan(reply.value);
        if span.Some? {
          var parsed := loads(span.value);
          if parsed.Some? {
            details := parsed.value;
          } else {
            details := FallbackPersona(d);
          }
        } else {
          details := FallbackPersona(d);
        }
      } else {
        details := FallbackPersona(d);
      }
      DetailsAreObject(d, reply, loads);
      assert details == Details(d, reply, loads);
      persona := map["age" := JInt(age), "gender" := JStr(gender)] + ToMap(details.members);
      r := persona;
    }

    /** `evaluate_recommendations`: generates a persona first when there is
        none, then scores the list under it. */
    method EvaluateRecommendations(recs: seq<ArticleId>, d: PersonaDraws, personaReply: Option<string>,
                                   loads: string -> Option<Json>, reply: Option<string>, e: EvalDraws)
      returns (r: Result<Evaluation, PersonaError>)
      requires Valid() && ObjectLoads(loads)
      modifies this
      ensures Valid()
      ensures r == EvaluationAfter(old(persona), d, personaReply, loads, |recs|, reply, e)
      ensures persona == if old(persona) == map[] then PersonaOf(d, personaReply, loads) else old(persona)
    {
      if persona == map[] {
        var _ := GeneratePersona(d, personaReply, loads);
      }
      if "categories" in persona && !Joinable(persona["categories"]) {
        return Err(NotJoinable);
      }
      var n := |recs|;
      var purchase := 0;
      var satisfaction := 3;
      if Truthy(reply) {
        var pm := ReadTagged(reply.value, "Purchase:");
        var sm := ReadTagged(reply.value, "Satisfaction:");
        if pm.TooLong? || sm.TooLong? {
          purchase := RandInt(0, Min(3, n), e.purchase);
          satisfaction := RandInt(2, 5, e.satisfaction);
        } else {
          if pm.Value? {
            purchase := Min(pm.v, n);
          }
          if sm.Value? {
            satisfaction := Min(sm.v, 5);
          }
        }
      } else {
        purchase := RandInt(0, Min(3, n), e.purchase);
        satisfaction := RandInt(2, 5, e.satisfaction);
      }
      r := Ok(Evaluation(purchase, satisfaction, if n > 0 then purchase as real / n as real else 0.0));
    }
  }
}
