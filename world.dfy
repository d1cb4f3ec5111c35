/** The mutable game state and the tick engine of src/game/world.py. `State` owns the
    resource table and the organelles and offers the guarded and unguarded balance
    updates and the purchase and sale transactions; `World` runs one tick over it. Each
    method is proved to leave exactly the state the functions of Economy describe. */
module GameWorld {
  import opened Resources
  import opened Organelles
  import opened Economy
  import opened PetriDish

  /** Every organelle's prices and rules name only tickers of the table, and its prices
      can be computed. */
  ghost predicate CatalogFits(orgs: seq<Organelle>, keys: set<string>)
  {
    && OrganellesFit(orgs, keys)
    && forall i :: 0 <= i < |orgs| ==> CostsDefined(orgs[i]) && orgs[i].baseCost.Keys <= keys
  }

  /** A table with the same keys and tickers as a well-formed one is well formed, and
      fits the same catalog. */
  lemma SameTickersKeepFit(a: Ledger, b: Ledger, orgs: seq<Organelle>)
    requires SameTickers(a, b) && TickersWellFormed(a) && CatalogFits(orgs, a.Keys)
    ensures TickersWellFormed(b) && CatalogFits(orgs, b.Keys)
  {
  }

  /** Changing only how many units of one organelle are owned keeps the catalog fitting. */
  lemma RecountKeepsFit(orgs: seq<Organelle>, id: int, n: nat, keys: set<string>)
    requires CatalogFits(orgs, keys) && 0 <= id < |orgs|
    ensures CatalogFits(orgs[id := orgs[id].(count := n)], keys)
  {
    var orgs' := orgs[id := orgs[id].(count := n)];
    assert forall i :: 0 <= i < |orgs'| ==>
      orgs'[i].rates == orgs[i].rates && orgs'[i].baseCost == orgs[i].baseCost
      && orgs'[i].costExponent == orgs[i].costExponent;
  }

  /** Every ticker the catalog names (ATP, GLUC, CYTO) is a key of the resource table,
      and every catalog production rate is non-negative. */
  lemma CatalogFitsResources()
    ensures CatalogFits(ORGANELLES, RESOURCES.Keys)
    ensures ProductionNonNegative(ORGANELLES)
  {
    ResourcesKeyedByTicker();
    CatalogWellFormed();
  }

  /** `range(start, stop, step)` for a positive step. */
  function Range(start: int, stop: int, step: nat): (r: seq<int>)
    requires step > 0
    ensures forall i :: 0 <= i < |r| ==> start <= r[i] < stop && r[i] == start + i * step
    ensures start + |r| * step >= stop
    decreases stop - start
  {
    if start >= stop then []
    else
      var rest := Range(start + step, stop, step);
      assert start + (|rest| + 1) * step == start + step + |rest| * step;
      [start] + rest
  }

  /** One column of the comprehension: `Food(y, x, calories)` for every `y` in `ys`. */
  function Column(x: int, ys: seq<int>, calories: real): (r: seq<Food>)
    ensures |r| == |ys|
    ensures forall j :: 0 <= j < |ys| ==> r[j] == Food(ys[j], x, calories)
  {
    seq(|ys|, j requires 0 <= j < |ys| => Food(ys[j], x, calories))
  }

  /** `[Food(y, x, calories) for x in xs for y in ys]`. */
  function FoodGrid(xs: seq<int>, ys: seq<int>, calories: real): (r: seq<Food>)
    ensures |r| == |xs| * |ys|
    ensures forall i :: 0 <= i < |r| ==> r[i].y in ys && r[i].x in xs && r[i].calories == calories
  {
    if xs == [] then []
    else
      var rest := FoodGrid(xs[1..], ys, calories);
      assert forall i :: 0 <= i < |rest| ==> rest[i].x in xs;
      Column(xs[0], ys, calories) + rest
  }

  /** Every (column, row) pair of the comprehension is in the grid. */
  lemma {:induction false} FoodGridComplete(xs: seq<int>, ys: seq<int>, calories: real)
    ensures forall x, y :: x in xs && y in ys ==> Food(y, x, calories) in FoodGrid(xs, ys, calories)
  {
    if xs != [] {
      FoodGridComplete(xs[1..], ys, calories);
      var column := Column(xs[0], ys, calories);
      forall x, y | x in xs && y in ys
        ensures Food(y, x, calories) in FoodGrid(xs, ys, calories)
      {
        if x == xs[0] {
          var j :| 0 <= j < |ys| && ys[j] == y;
          assert column[j] == Food(y, x, calories);
        } else {
          assert x in xs[1..];
        }
      }
    }
  }

  /** The food the initial dish starts with: 0.1 calories on every third column below 50
      and every second row below 10. */
  function InitialFood(): (r: seq<Food>)
  {
    FoodGrid(Range(0, 50, 3), Range(0, 10, 2), 0.1)
  }

  /** Food laid out on `range(0, width, 3)` by `range(0, height, 2)` lies in the
      rectangle, on even rows and on columns divisible by 3, with the given calories. */
  lemma FoodGridOnRanges(width: int, height: int, calories: real)
    ensures forall f :: f in FoodGrid(Range(0, width, 3), Range(0, height, 2), calories) ==>
      && 0 <= f.y < height && f.y % 2 == 0
      && 0 <= f.x < width && f.x % 3 == 0
      && f.calories == calories
  {
    var xs := Range(0, width, 3);
    var ys := Range(0, height, 2);
    var grid := FoodGrid(xs, ys, calories);
    forall f | f in grid
      ensures 0 <= f.y < height && f.y % 2 == 0
      ensures 0 <= f.x < width && f.x % 3 == 0
    {
      EvenRow(height, f.y);
      ThirdColumn(width, f.x);
    }
  }

  /** The rows `range(0, height, 2)` are even and below `height`. */
  lemma EvenRow(height: int, v: int)
    requires v in Range(0, height, 2)
    ensures 0 <= v < height && v % 2 == 0
  {
    var i := RangePosition(0, height, 2, v);
  }

  /** The columns `range(0, width, 3)` are divisible by 3 and below `width`. */
  lemma ThirdColumn(width: int, v: int)
    requires v in Range(0, width, 3)
    ensures 0 <= v < width && v % 3 == 0
  {
    var i := RangePosition(0, width, 3, v);
  }

  /** The position of an element of `range(start, stop, step)`. */
  lemma RangePosition(start: int, stop: int, step: nat, v: int) returns (i: nat)
    requires step > 0 && v in Range(start, stop, step)
    ensures v == start + i * step && start <= v < stop
  {
    var r := Range(start, stop, step);
    i :| i < |r| && r[i] == v;
  }

  /** The initial food lies inside the default dish bounds (100, 600): rows below 10,
      columns below 50. */
  lemma InitialFoodInBounds()
    ensures forall f :: f in InitialFood() ==>
      && 0 <= f.y < 10 && f.y % 2 == 0
      && 0 <= f.x < 50 && f.x % 3 == 0
      && f.calories == 0.1
  {
    FoodGridOnRanges(50, 10, 0.1);
  }

  class State {
    var cytosol: real
    var organelles: seq<Organelle>
    var resources: Ledger
    const dish: Dish
    /** UPDATE_PERIOD. */
    const period: Period
    /** The real power used by the cost curve. */
    const pow: RealPow

    ghost predicate Valid()
      reads this
    {
      TickersWellFormed(resources) && CatalogFits(organelles, resources.Keys)
    }

    /** The default state: no cytosol, a fresh copy of the catalog and of the resource
        table, and a dish holding the initial food. */
    constructor (period: Period, pow: RealPow)
      ensures Valid()
      ensures cytosol == 0.0 && organelles == ORGANELLES && resources == RESOURCES
      ensures this.period == period && this.pow == pow
      ensures fresh(dish) && dish.organisms == map[] && dish.food == InitialFood()
      ensures dish.bounds == (100, 600)
    {
      cytosol := 0.0;
      organelles := ORGANELLES;
      resources := RESOURCES;
      this.period := period;
      this.pow := pow;
      dish := new Dish(InitialFood());
      InitialTickersFound();
      CatalogFitsResources();
    }

    /** The resource a ticker name denotes, upper-casing it first. */
    function Ticker(name: string): (r: Resource)
      reads this
      requires Valid() && Upper(name) in resources
      ensures r.ticker == Upper(name) && r in resources.Values
      ensures IsUpper(name) ==> name in resources && r == resources[name]
    {
      UpperFixesUpper(name);
      resources[Upper(name)]
    }

    /** Guarded withdrawal: refused, with nothing changed, when `amount` exceeds the
        balance; otherwise the balance drops by `amount` and the rate by
        `amount / period`. An exact balance can be withdrawn. */
    method Withdraw(name: string, amount: real) returns (ok: bool)
      requires Valid() && Upper(name) in resources
      modifies this
      ensures Valid()
      ensures ok == (amount <= old(resources)[Upper(name)].amount)
      ensures resources == old(resources)[Upper(name) := Withdrawn(old(resources)[Upper(name)], amount, period)]
      ensures !ok ==> resources == old(resources)
      ensures organelles == old(organelles) && cytosol == old(cytosol)
    {
      var resource := Ticker(name);
      var key := Upper(name);
      if amount > resource.amount {
        return false;
      } else {
        resources := resources[key := resource.(amount := resource.amount - amount,
                                                rate := resource.rate - amount / period)];
        return true;
      }
    }

    /** Unguarded deposit: always succeeds; the balance rises by `amount` and the rate by
        `amount / period`. */
    method Deposit(name: string, amount: real) returns (ok: bool)
      requires Valid() && Upper(name) in resources
      modifies this
      ensures Valid() && ok
      ensures resources == old(resources)[Upper(name) := Deposited(old(resources)[Upper(name)], amount, period)]
      ensures organelles == old(organelles) && cytosol == old(cytosol)
    {
      var resource := Ticker(name);
      var key := Upper(name);
      resources := resources[key := resource.(amount := resource.amount + amount,
                                              rate := resource.rate + amount / period)];
      return true;
    }

    /** Buys one unit of organelle `id` at its current price: refused, with nothing
        changed, unless every balance strictly exceeds its price; otherwise every price
        is paid (rates untouched) and `count` rises by one. */
    method Buy(id: int) returns (ok: bool)
      requires Valid() && 0 <= id < |organelles|
      modifies this
      ensures Valid()
      ensures ok == CanAfford(old(resources), Costs(old(organelles)[id], pow))
      ensures ok ==> resources == Paid(old(resources), Costs(old(organelles)[id], pow))
      ensures ok ==> organelles == old(organelles)[id := old(organelles)[id].(count := old(organelles)[id].count + 1)]
      ensures !ok ==> resources == old(resources) && organelles == old(organelles)
      ensures cytosol == old(cytosol)
    {
      var organelle := organelles[id];
      var costs := Costs(organelle, pow);
      assert costs.Keys <= resources.Keys;
      ok := Affordable(costs);
      if !ok {
        return;
      }
      ghost var before := resources;
      Pay(costs);
      SameTickersKeepFit(before, resources, organelles);
      RecountKeepsFit(organelles, id, organelle.count + 1, resources.Keys);
      organelles := organelles[id := organelle.(count := organelle.count + 1)];
    }

    /** The first pass of `buy`: whether every balance strictly exceeds its price,
        stopping at the first one that does not. */
    method Affordable(costs: map<string, real>) returns (ok: bool)
      requires Valid() && costs.Keys <= resources.Keys
      ensures ok == CanAfford(resources, costs)
    {
      var pending := costs.Keys;
      while pending != {}
        invariant pending <= costs.Keys
        invariant forall t :: t in costs && t !in pending ==> resources[t].amount > costs[t]
        decreases pending
      {
        var t :| t in pending;
        UpperFixesUpper(t);
        if Ticker(t).amount <= costs[t] {
          return false;
        }
        pending := pending - {t};
      }
      return true;
    }

    /** The second pass of `buy`: every price is taken off its balance; rates are
        untouched. */
    method Pay(costs: map<string, real>)
      requires Valid() && costs.Keys <= resources.Keys
      modifies this
      ensures resources == Paid(old(resources), costs)
      ensures organelles == old(organelles) && cytosol == old(cytosol)
    {
      ghost var before := resources;
      var pending := costs.Keys;
      while pending != {}
        invariant pending <= costs.Keys
        invariant resources.Keys == before.Keys
        invariant forall t :: t in before ==>
          resources[t] ==
            (if t in costs && t !in pending then before[t].(amount := before[t].amount - costs[t]) else before[t])
        invariant organelles == old(organelles) && cytosol == old(cytosol)
        decreases pending
      {
        var t :| t in pending;
        UpperFixesUpper(t);
        var key := Upper(t);
        resources := resources[key := resources[key].(amount := resources[key].amount - costs[t])];
        pending := pending - {t};
      }
      assert resources == Paid(before, costs);
    }

    /** Sells one unit of organelle `id`: refused when none is owned; otherwise every
        price at the present `count` is refunded and `count` drops by one. */
    method Sell(id: int) returns (ok: bool)
      requires Valid() && 0 <= id < |organelles|
      modifies this
      ensures Valid()
      ensures ok == (old(organelles)[id].count > 0)
      ensures ok ==> resources == Refunded(old(resources), Costs(old(organelles)[id], pow))
      ensures ok ==> organelles == old(organelles)[id := old(organelles)[id].(count := old(organelles)[id].count - 1)]
      ensures !ok ==> resources == old(resources) && organelles == old(organelles)
      ensures cytosol == old(cytosol)
    {
      var organelle := organelles[id];
      if organelle.count > 0 {
        var costs := Costs(organelle, pow);
        assert costs.Keys <= resources.Keys;
        ghost var before := resources;
        Refund(costs);
        SameTickersKeepFit(before, resources, organelles);
        RecountKeepsFit(organelles, id, organelle.count - 1, resources.Keys);
        organelles := organelles[id := organelle.(count := organelle.count - 1)];
        return true;
      } else {
        return false;
      }
    }

    /** The loop of `sell`: every price is added back to its balance; rates are
        untouched. */
    method Refund(costs: map<string, real>)
      requires Valid() && costs.Keys <= resources.Keys
      modifies this
      ensures resources == Refunded(old(resources), costs)
      ensures organelles == old(organelles) && cytosol == old(cytosol)
    {
      ghost var before := resources;
      var pending := costs.Keys;
      while pending != {}
        invariant pending <= costs.Keys
        invariant resources.Keys == before.Keys
        invariant forall t :: t in before ==>
          resources[t] ==
            (if t in costs && t !in pending then before[t].(amount := before[t].amount + costs[t]) else before[t])
        invariant organelles == old(organelles) && cytosol == old(cytosol)
        decreases pending
      {
        var t :| t in pending;
        UpperFixesUpper(t);
        var key := Upper(t);
        resources := resources[key := resources[key].(amount := resources[key].amount + costs[t])];
        pending := pending - {t};
      }
      assert resources == Refunded(before, costs);
    }
  }

  /** Two names that upper-case alike denote the same resource. */
  lemma TickerIgnoresCase(s: State, a: string, b: string)
    requires s.Valid() && Upper(a) in s.resources && Upper(a) == Upper(b)
    ensures s.Ticker(a) == s.Ticker(b)
  {
    var ra := s.Ticker(a);
    var rb := s.Ticker(b);
    var ka :| ka in s.resources && s.resources[ka] == ra;
    var kb :| kb in s.resources && s.resources[kb] == rb;
  }

  /** Buying one unit and selling it straight back restores every organelle count; each
      priced balance is refunded at the post-purchase price. */
  method BuyThenSellRestoresCount(s: State, id: int) returns (bought: bool, sold: bool)
    requires s.Valid() && 0 <= id < |s.organelles|
    modifies s
    ensures bought ==> sold && s.organelles == old(s.organelles)
    ensures bought ==> s.resources == Refunded(Paid(old(s.resources), Costs(old(s.organelles)[id], s.pow)),
                                             Costs(old(s.organelles)[id].(count := old(s.organelles)[id].count + 1), s.pow))
    ensures s.Valid()
  {
    bought := s.Buy(id);
    sold := s.Sell(id);
    if bought {
      assert old(s.organelles)[id].(count := old(s.organelles)[id].count) == old(s.organelles)[id];
    }
  }

  class World {
    const st: State

    ghost predicate Valid()
      reads this, st
    {
      st.Valid()
    }

    constructor (period: Period, pow: RealPow)
      ensures Valid() && fresh(st)
      ensures st.cytosol == 0.0 && st.resources == RESOURCES && st.organelles == ORGANELLES
      ensures st.period == period && st.pow == pow
      ensures fresh(st.dish) && st.dish.organisms == map[] && st.dish.food == InitialFood()
      ensures st.dish.bounds == (100, 600)
    {
      st := new State(period, pow);
    }

    /** Sets every rate to 0. */
    method ResetAllRates()
      requires Valid()
      modifies st
      ensures st.organelles == old(st.organelles) && st.cytosol == old(st.cytosol)
      ensures st.resources == RatesReset(old(st.resources))
      ensures Valid()
    {
      ghost var before := st.resources;
      var pending := st.resources.Keys;
      while pending != {}
        invariant pending <= before.Keys
        invariant st.resources.Keys == before.Keys
        invariant forall t :: t in before ==>
          st.resources[t] == (if t in pending then before[t] else before[t].(rate := 0.0))
        invariant st.organelles == old(st.organelles) && st.cytosol == old(st.cytosol)
        decreases pending
      {
        var t :| t in pending;
        st.resources := st.resources[t := st.resources[t].(rate := 0.0)];
        pending := pending - {t};
      }
      assert st.resources == RatesReset(before);
      SameTickersKeepFit(before, st.resources, st.organelles);
    }

    /** Whether every consumed ticker holds one unit's worth, `rate * period`; stops at
        the first one that does not. */
    method CheckGate(consumption: map<string, real>) returns (ok: bool)
      requires Valid() && consumption.Keys <= st.resources.Keys
      ensures ok == GateOpen(st.resources, consumption, st.period)
    {
      ok := true;
      var pending := consumption.Keys;
      while pending != {}
        invariant pending <= consumption.Keys
        invariant forall t :: t in consumption && t !in pending ==>
          st.resources[t].amount >= consumption[t] * st.period
        decreases pending
      {
        var t :| t in pending;
        UpperFixesUpper(t);
        if st.Ticker(t).amount < consumption[t] * st.period {
          ok := false;
          break;
        }
        pending := pending - {t};
      }
    }

    /** Withdraws `rate * period * count` from every consumed ticker, ignoring refusals. */
    method WithdrawConsumption(consumption: map<string, real>, count: nat)
      requires Valid() && consumption.Keys <= st.resources.Keys
      modifies st
      ensures st.organelles == old(st.organelles) && st.cytosol == old(st.cytosol)
      ensures st.resources == Withdrawals(old(st.resources), consumption, st.period, count)
      ensures Valid()
    {
      ghost var before := st.resources;
      var pending := consumption.Keys;
      while pending != {}
        invariant pending <= consumption.Keys
        invariant st.Valid() && st.resources.Keys == before.Keys
        invariant forall t :: t in before ==>
          st.resources[t] ==
            (if t in consumption && t !in pending
             then Withdrawn(before[t], Scaled(consumption[t], st.period, count), st.period)
             else before[t])
        invariant st.organelles == old(st.organelles) && st.cytosol == old(st.cytosol)
        decreases pending
      {
        var t :| t in pending;
        UpperFixesUpper(t);
        var _ := st.Withdraw(t, consumption[t] * st.period * (count as real));
        pending := pending - {t};
      }
      assert st.resources == Withdrawals(before, consumption, st.period, count);
    }

    /** Deposits `rate * period * count` into every produced ticker. */
    method DepositProduction(production: map<string, real>, count: nat)
      requires Valid() && production.Keys <= st.resources.Keys
      modifies st
      ensures st.organelles == old(st.organelles) && st.cytosol == old(st.cytosol)
      ensures st.resources == Deposits(old(st.resources), production, st.period, count)
      ensures Valid()
    {
      ghost var before := st.resources;
      var pending := production.Keys;
      while pending != {}
        invariant pending <= production.Keys
        invariant st.Valid() && st.resources.Keys == before.Keys
        invariant forall t :: t in before ==>
          st.resources[t] ==
            (if t in production && t !in pending
             then Deposited(before[t], Scaled(production[t], st.period, count), st.period)
             else before[t])
        invariant st.organelles == old(st.organelles) && st.cytosol == old(st.cytosol)
        decreases pending
      {
        var t :| t in pending;
        UpperFixesUpper(t);
        var _ := st.Deposit(t, production[t] * st.period * (count as real));
        pending := pending - {t};
      }
      assert st.resources == Deposits(before, production, st.period, count);
    }

    /** One rule of an organelle owned `count` times: gate, then withdrawals, then
        deposits. */
    method ApplyRule(rule: ConditionalRate, count: nat)
      requires Valid() && RuleFits(rule, st.resources.Keys)
      modifies st
      ensures st.organelles == old(st.organelles) && st.cytosol == old(st.cytosol)
      ensures st.resources == AfterRule(old(st.resources), rule, st.period, count)
      ensures Valid()
    {
      var ok := CheckGate(rule.consumption);
      if ok {
        WithdrawConsumption(rule.consumption, count);
        DepositProduction(rule.production, count);
      }
    }

    /** The rules of one organelle in declaration order. */
    method ApplyRules(organelle: Organelle)
      requires Valid() && RulesFit(organelle.rates, st.resources.Keys)
      modifies st
      ensures st.organelles == old(st.organelles) && st.cytosol == old(st.cytosol)
      ensures st.resources == AfterRules(old(st.resources), organelle.rates, st.period, organelle.count)
      ensures Valid()
    {
      ghost var before := st.resources;
      var rules := organelle.rates;
      assert rules[..0] == [];
      var j := 0;
      while j < |rules|
        invariant 0 <= j <= |rules|
        invariant st.Valid() && st.resources.Keys == before.Keys
        invariant st.organelles == old(st.organelles) && st.cytosol == old(st.cytosol)
        invariant RulesFit(rules[..j], before.Keys)
        invariant st.resources == AfterRules(before, rules[..j], st.period, organelle.count)
      {
        AfterRulesExtend(before, rules, j, st.period, organelle.count);
        ApplyRule(rules[j], organelle.count);
        j := j + 1;
      }
      assert rules[..|rules|] == rules;
    }

    /** One iteration of the tick loop: reset every rate, then apply the rules of every
        organelle in catalog order. */
    method TickStep()
      requires Valid()
      modifies st
      ensures st.organelles == old(st.organelles) && st.cytosol == old(st.cytosol)
      ensures st.resources == AfterTick(old(st.resources), st.organelles, st.period)
      ensures Valid()
    {
      ResetAllRates();
      ghost var reset := st.resources;
      var orgs := st.organelles;
      assert orgs[..0] == [];
      var i := 0;
      while i < |orgs|
        invariant 0 <= i <= |orgs|
        invariant st.Valid() && st.resources.Keys == reset.Keys
        invariant st.organelles == orgs && st.cytosol == old(st.cytosol)
        invariant OrganellesFit(orgs[..i], reset.Keys)
        invariant st.resources == AfterOrganelles(reset, orgs[..i], st.period)
      {
        AfterOrganellesExtend(reset, orgs, i, st.period);
        ApplyRules(orgs[i]);
        i := i + 1;
      }
      assert orgs[..|orgs|] == orgs;
    }
  }

  /** The Chloroplast's first price is its base cost of 10 ATP; the second one is
      `10 ** 1.11` ATP. */
  lemma ChloroplastPrices(pow: RealPow)
    requires PowOfOne(pow)
    ensures CostsDefined(ORGANELLES[0]) && ORGANELLES[0].count == 0
    ensures Costs(ORGANELLES[0], pow) == map["ATP" := 10.0]
    ensures Costs(ORGANELLES[0].(count := 1), pow) == map["ATP" := pow(10.0, 1.11)]
  {
    var chloro := ORGANELLES[0];
    assert chloro.baseCost == map["ATP" := 10.0] && chloro.costExponent == map["ATP" := 1.11];
    CostsAtCountZero(chloro, pow);
    assert NatPow(1.11, 1) == 1.11;
  }

  /** The end-to-end purchase scenario on the real catalog: with 15 ATP the first
      Chloroplast (price 10) is bought, leaving 5 ATP and one unit owned; the second one
      costs `10 ** 1.11`, more than 5, and is refused. */
  method ChloroplastPurchases(period: Period, pow: RealPow) returns (first: bool, second: bool, atp: real)
    requires PowOfOne(pow) && PowIncreasing(pow)
    ensures first && !second && atp == 5.0
  {
    var s := new State(period, pow);
    ChloroplastPrices(pow);
    assert pow(10.0, 1.11) > pow(10.0, 1.0) == 10.0;
    InitialBalances();
    first := s.Buy(0);
    second := s.Buy(0);
    atp := s.resources["ATP"].amount;
  }

  /** The first tick of a new game moves nothing: no organelle is owned yet. */
  lemma FirstTickIdle(period: Period)
    ensures OrganellesFit(ORGANELLES, RESOURCES.Keys)
    ensures AfterTick(RESOURCES, ORGANELLES, period) == RESOURCES
  {
    CatalogFitsResources();
    CatalogWellFormed();
    InitialBalances();
    IdleTick(RESOURCES, ORGANELLES, period);
    ResetOfIdleTable(RESOURCES);
  }
}
