/** Shared vocabulary of the A/B simulation: the evaluation a virtual user
    returns, the JSON values `json.loads` can produce, and the random draws.
    A draw is an arbitrary natural number reduced into the range of the
    call; every outcome the library can produce is reachable, and nothing
    is said about the distribution. */
module Simulation {
  import opened Common

  const Genders: seq<string> := ["Male", "Female", "Non-binary"]
  const Styles: seq<string> := ["casual", "formal", "sporty", "trendy", "vintage"]
  const Frequencies: seq<string> := ["weekly", "monthly", "occasionally"]
  const Budgets: seq<string> := ["low", "medium", "high"]
  const Categories: seq<string> := ["tops", "bottoms", "dresses", "shoes", "accessories", "outerwear"]

  lemma CategoriesDistinct()
    ensures Distinct(Categories)
  {
  }

  /** A reply counts only when it is non-empty. */
  predicate Truthy(reply: Option<string>) {
    reply.Some? && reply.value != []
  }

  /** The draws behind a random evaluation. */
  datatype EvalDraws = EvalDraws(purchase: nat, satisfaction: nat)

  /** The evaluation dictionary: `purchase_count`, `satisfaction` and
      `acceptance_rate`. */
  datatype Evaluation = Evaluation(purchaseCount: int, satisfaction: int, acceptanceRate: real)

  /** A value `json.loads` returns. Numbers are integers here; an object
      keeps its members in text order. */
  datatype Json =
    | JNull
    | JBool(b: bool)
    | JInt(i: int)
    | JStr(s: string)
    | JArr(items: seq<Json>)
    | JObj(members: seq<(string, Json)>)

  /** What `json.loads` can return for a text that opens with `{`: in JSON
      such a text can only be an object, so it parses to one or raises. */
  ghost predicate ObjectLoads(loads: string -> Option<Json>) {
    forall s: string :: LoadsObjectFrom(loads, s)
  }

  /** `ObjectLoads` at one text. */
  ghost predicate LoadsObjectFrom(loads: string -> Option<Json>, s: string) {
    |s| > 0 && s[0] == '{' ==> loads(s).None? || loads(s).value.JObj?
  }

  /** `obj.get(key)`: `json.loads` keeps the last of duplicate keys. */
  function Get(members: seq<(string, Json)>, key: string): (r: Option<Json>)
    ensures r.Some? ==> (key, r.value) in members
    ensures r.None? <==> forall m :: m in members ==> m.0 != key
  {
    if members == [] then None
    else
      var last := members[|members| - 1];
      var init := members[..|members| - 1];
      assert members == init + [last];
      if last.0 == key then Some(last.1) else Get(init, key)
  }

  /** `dict(members)` as a map. */
  function ToMap(members: seq<(string, Json)>): map<string, Json> {
    if members == [] then map[]
    else
      var last := members[|members| - 1];
      ToMap(members[..|members| - 1])[last.0 := last.1]
  }

  /** The dictionary and `get` agree: a key is present exactly when `get`
      finds it, with the value `get` returns. */
  lemma {:induction false} ToMapGet(members: seq<(string, Json)>)
    ensures forall k :: k in ToMap(members) <==> Get(members, k).Some?
    ensures forall k :: k in ToMap(members) ==> ToMap(members)[k] == Get(members, k).value
  {
    if members != [] {
      ToMapGet(members[..|members| - 1]);
    }
  }

  /** `purchase_count / n`, or 0 for an empty list. */
  function Rate(purchase: int, n: nat): real {
    if n > 0 then purchase as real / n as real else 0.0
  }

  /** The acceptance rate is the share of the recommendations purchased,
      0 for an empty list, and lies in [0, 1] whenever the count does. */
  lemma RateSpec(purchase: int, n: nat)
    ensures n == 0 ==> Rate(purchase, n) == 0.0
    ensures n > 0 ==> Rate(purchase, n) * n as real == purchase as real
    ensures 0 <= purchase <= n ==> 0.0 <= Rate(purchase, n) <= 1.0
  {
    if n > 0 && 0 <= purchase <= n {
      assert purchase as real / n as real <= n as real / n as real;
    }
  }

  // ---------------------------------------------------------------------
  // Random draws
  // ---------------------------------------------------------------------

  /** `random.randint(a, b)`. */
  function RandInt(a: int, b: int, draw: nat): (r: int)
    requires a <= b
    ensures a <= r <= b
  {
    a + draw % (b - a + 1)
  }

  /** Every value of the range is drawn by some draw. */
  lemma RandIntCovers(a: int, b: int, v: int)
    requires a <= v <= b
    ensures RandInt(a, b, (v - a) as nat) == v
  {
  }

  /** `random.choice(xs)`. */
  function Choice<T>(xs: seq<T>, draw: nat): (r: T)
    requires |xs| > 0
    ensures r in xs
  {
    xs[draw % |xs|]
  }

  function Sum(ws: seq<nat>): nat {
    if ws == [] then 0 else ws[0] + Sum(ws[1..])
  }

  /** The position `bisect` finds for `x` among the running sums of `ws`:
      the first `i` with `x < ws[0] + ... + ws[i]`. */
  function WeightedIndex(ws: seq<nat>, x: nat): (i: nat)
    requires x < Sum(ws)
    ensures i < |ws| && ws[i] > 0
  {
    if x < ws[0] then 0 else 1 + WeightedIndex(ws[1..], x - ws[0])
  }

  /** `random.choices(xs, weights=ws)[0]`: the draw is reduced to an integer
      below the total weight, which is what `random() * total` selects
      between consecutive integer running sums. */
  function WeightedChoice<T>(xs: seq<T>, ws: seq<nat>, draw: nat): (r: T)
    requires |xs| == |ws| && Sum(ws) > 0
    ensures r in xs
  {
    xs[WeightedIndex(ws, draw % Sum(ws))]
  }

  /** The item at a position of positive weight is chosen by the draw that
      lands on the start of its range. */
  lemma WeightedChoiceCovers<T>(xs: seq<T>, ws: seq<nat>, i: nat)
    requires |xs| == |ws| && i < |ws| && ws[i] > 0
    ensures Sum(ws) > 0 && WeightedChoice(xs, ws, Sum(ws[..i])) == xs[i]
  {
    WeightedIndexCovers(ws, i);
    SmallMod(Sum(ws[..i]), Sum(ws));
  }

  lemma SmallMod(x: nat, m: nat)
    requires x < m
    ensures x % m == x
  {
  }

  /** Every item of positive weight is chosen by some draw. */
  lemma {:induction false} WeightedIndexCovers(ws: seq<nat>, i: nat)
    requires i < |ws| && ws[i] > 0
    ensures Sum(ws[..i]) < Sum(ws)
    ensures WeightedIndex(ws, Sum(ws[..i])) == i
  {
    if i == 0 {
      assert ws[..0] == [];
    } else {
      WeightedIndexCovers(ws[1..], i - 1);
      assert ws[..i] == [ws[0]] + ws[1..][..i - 1];
      assert ws[..i][1..] == ws[1..][..i - 1];
    }
  }
}
