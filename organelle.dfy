/** Organelles: their production/consumption rules, their cost curve and the static
    catalog (src/game/organelle.py). */
module Organelles {

  /** The floating-point power `base ** exponent` for a real exponent. It is not computed
      here: whoever needs it passes it in, and lemmas name the laws they rely on. */
  type RealPow = (real, real) -> real

  /** A production/consumption rule of one organelle. Both maps are keyed on ticker and
      give a rate per second per owned unit. Production is applied only when all of the
      consumption is available. */
  datatype ConditionalRate = ConditionalRate(
    consumption: map<string, real>,
    production: map<string, real>)

  /** A purchasable unit. `base_cost` is the first purchase's price per ticker and
      `cost_exponent` the iterated exponent applied per unit owned. */
  datatype Organelle = Organelle(
    idx: int,
    name: string,
    description: string,
    baseCost: map<string, real>,
    costExponent: map<string, real>,
    count: nat,
    rates: seq<ConditionalRate>)

  /** `x ** n` for a natural exponent `n`, the inner power `cost_exponent ** count`. */
  function NatPow(x: real, n: nat): real
  {
    if n == 0 then 1.0 else x * NatPow(x, n - 1)
  }

  /** `costs` looks up `cost_exponent[t]` for every key `t` of `base_cost`; any missing
      key would raise. */
  predicate CostsDefined(o: Organelle)
  {
    o.baseCost.Keys <= o.costExponent.Keys
  }

  /** The current price of one more unit: `base_cost[t] ** (cost_exponent[t] ** count)`
      for every ticker `t` of `base_cost`, recomputed from the present `count`. */
  function Costs(o: Organelle, pow: RealPow): (r: map<string, real>)
    requires CostsDefined(o)
    ensures r.Keys == o.baseCost.Keys
  {
    map t | t in o.baseCost :: pow(o.baseCost[t], NatPow(o.costExponent[t], o.count))
  }

  /** `pow` satisfies `b ** 1 == b`. */
  ghost predicate PowOfOne(pow: RealPow)
  {
    forall b: real :: pow(b, 1.0) == b
  }

  /** `pow(b, .)` is strictly increasing for every base `b > 1`. */
  ghost predicate PowIncreasing(pow: RealPow)
  {
    forall b: real, x: real, y: real :: b > 1.0 && x < y ==> pow(b, x) < pow(b, y)
  }

  /** With nothing owned the price is the base cost: `e ** 0 == 1` and `b ** 1 == b`. */
  lemma CostsAtCountZero(o: Organelle, pow: RealPow)
    requires CostsDefined(o) && o.count == 0
    requires PowOfOne(pow)
    ensures Costs(o, pow) == o.baseCost
  {
    forall t | t in o.baseCost
      ensures Costs(o, pow)[t] == o.baseCost[t]
    {
      assert NatPow(o.costExponent[t], 0) == 1.0;
    }
  }

  /** Each purchase multiplies the exponent applied to the base cost by `cost_exponent`. */
  lemma CostsAfterPurchase(o: Organelle, pow: RealPow, t: string)
    requires CostsDefined(o) && t in o.baseCost
    ensures Costs(o.(count := o.count + 1), pow)[t]
         == pow(o.baseCost[t], o.costExponent[t] * NatPow(o.costExponent[t], o.count))
  {
    assert NatPow(o.costExponent[t], o.count + 1)
        == o.costExponent[t] * NatPow(o.costExponent[t], o.count);
  }

  /** For an exponent above 1 the iterated exponent is at least 1 and strictly grows. */
  lemma {:induction false} NatPowGrows(e: real, n: nat)
    requires e > 1.0
    ensures NatPow(e, n) >= 1.0
    ensures NatPow(e, n + 1) > NatPow(e, n)
  {
    if n > 0 {
      NatPowGrows(e, n - 1);
    }
    var v := NatPow(e, n);
    assert NatPow(e, n + 1) == e * v;
    assert e * v - v == (e - 1.0) * v;
    assert (e - 1.0) * v > 0.0;
  }

  /** With bases and exponents above 1, every purchase makes the next one dearer. */
  lemma CostsIncreaseWithCount(o: Organelle, pow: RealPow)
    requires CostsDefined(o)
    requires forall t :: t in o.baseCost ==> o.baseCost[t] > 1.0 && o.costExponent[t] > 1.0
    requires PowIncreasing(pow)
    ensures forall t :: t in o.baseCost ==>
      Costs(o.(count := o.count + 1), pow)[t] > Costs(o, pow)[t]
  {
    forall t | t in o.baseCost
      ensures Costs(o.(count := o.count + 1), pow)[t] > Costs(o, pow)[t]
    {
      NatPowGrows(o.costExponent[t], o.count);
    }
  }

  /** The static catalog. The source keys it on 0, 1, 2 in that order; here the key is
      the position in the sequence. */
  const ORGANELLES: seq<Organelle> := [
    Organelle(
      0,
      "Chloroplast",
      "Generates 0.1 ATP/s passively.",
      map["ATP" := 10.0],
      map["ATP" := 1.11],
      0,
      [ConditionalRate(map[], map["ATP" := 0.1])]),
    Organelle(
      1,
      "Mitochondria",
      "Generates 0.1 ATP/s passively. If glucose is present, consume 0.5 glucose/s to produce an additional 1 ATP/s.",
      map["ATP" := 30.0],
      map["ATP" := 1.12],
      0,
      [ConditionalRate(map[], map["ATP" := 0.1]),
       ConditionalRate(map["GLUC" := 0.5], map["ATP" := 1.0])]),
    Organelle(
      2,
      "Nanoconsumer",
      "Eats away at the very matter of your organism to produce energy. Consumes 0.1 cytosol/s to produce 2 ATP/s.",
      map["ATP" := 100.0],
      map["ATP" := 1.01],
      0,
      [ConditionalRate(map[], map["ATP" := 0.5]),
       ConditionalRate(map["CYTO" := 0.1], map["ATP" := 2.0])])
  ]

  /** Every catalog entry sits under its own `idx`, starts unowned, and has an exponent
      for each ticker it costs, so `costs` never fails on it. */
  lemma CatalogWellFormed()
    ensures |ORGANELLES| == 3
    ensures forall i :: 0 <= i < |ORGANELLES| ==>
      ORGANELLES[i].idx == i && ORGANELLES[i].count == 0 && CostsDefined(ORGANELLES[i])
  {
  }

  /** Every catalog price has base and exponent above 1, so prices rise with each unit. */
  lemma CatalogCostsGrow()
    ensures forall i, t :: 0 <= i < |ORGANELLES| && t in ORGANELLES[i].baseCost ==>
      ORGANELLES[i].baseCost[t] > 1.0 && ORGANELLES[i].costExponent[t] > 1.0
  {
  }
}
