/** The economy rules of src/game/world.py stated on values: ticker lookup, the effect of
    one withdrawal or deposit on a resource, purchase and refund of an organelle's price,
    and one tick of the production engine. The classes in GameWorld are proved to
    update their state exactly as these functions say. */
module Economy {
  import opened Resources
  import opened Organelles

  /** The tick period UPDATE_PERIOD, in seconds; the source divides by it. */
  type Period = p: real | p > 0.0 witness 1.0

  /** The resource table: ticker to resource record. */
  type Ledger = map<string, Resource>

  // ---------------------------------------------------------------------------
  // Ticker names

  /** ASCII upper-casing of one character. */
  function UpperChar(c: char): char
  {
    if 'a' <= c <= 'z' then (c as int - 32) as char else c
  }

  /** ASCII upper-casing of a ticker name, as `ticker_name.upper()`. */
  function Upper(s: string): (r: string)
    ensures |r| == |s|
    ensures forall i :: 0 <= i < |s| ==> r[i] == UpperChar(s[i])
  {
    if s == [] then [] else [UpperChar(s[0])] + Upper(s[1..])
  }

  /** A name with no lower-case ASCII letter. */
  predicate IsUpper(s: string)
  {
    forall i :: 0 <= i < |s| ==> !('a' <= s[i] <= 'z')
  }

  /** Upper-casing leaves an upper-case name alone and always yields an upper-case name. */
  lemma UpperFixesUpper(s: string)
    ensures IsUpper(s) ==> Upper(s) == s
    ensures IsUpper(Upper(s))
    ensures Upper(Upper(s)) == Upper(s)
  {
    var u := Upper(s);
    assert IsUpper(u);
    assert Upper(u) == u;
  }

  /** The lookup is case-insensitive: "atp", "Atp" and "ATP" name the same resource. */
  lemma LookupIgnoresCase()
    ensures Upper("atp") == "ATP" && Upper("Atp") == "ATP" && Upper("ATP") == "ATP"
  {
    assert Upper("atp")[0] == 'A' && Upper("atp")[1] == 'T' && Upper("atp")[2] == 'P';
    assert Upper("Atp")[0] == 'A' && Upper("Atp")[1] == 'T' && Upper("Atp")[2] == 'P';
    assert Upper("ATP")[0] == 'A' && Upper("ATP")[1] == 'T' && Upper("ATP")[2] == 'P';
  }

  /** Every key is the ticker of its record and is already upper case, so the
      upper-casing lookup of a key finds that key. */
  ghost predicate TickersWellFormed(res: Ledger)
  {
    forall k :: k in res ==> res[k].ticker == k && IsUpper(k)
  }

  /** The initial table is well formed: its keys are found by the upper-casing lookup. */
  lemma InitialTickersFound()
    ensures TickersWellFormed(RESOURCES)
    ensures forall k :: k in RESOURCES ==> Upper(k) == k
  {
    ResourcesKeyedByTicker();
    forall k | k in RESOURCES
      ensures IsUpper(k) && Upper(k) == k
    {
      UpperFixesUpper(k);
      if k == "ATP" {
        assert IsUpper("ATP");
      } else if k == "CYTO" {
        assert IsUpper("CYTO");
      } else {
        assert IsUpper("GLUC");
      }
    }
  }

  /** Two tables with the same keys and the same identity fields under each key. */
  ghost predicate SameTickers(a: Ledger, b: Ledger)
  {
    && a.Keys == b.Keys
    && forall k :: k in a ==>
         a[k].ticker == b[k].ticker && a[k].name == b[k].name && a[k].description == b[k].description
  }

  /** No balance is negative. */
  ghost predicate NonNegative(res: Ledger)
  {
    forall k :: k in res ==> res[k].amount >= 0.0
  }

  // ---------------------------------------------------------------------------
  // One withdrawal or deposit (State.withdraw, State.deposit)

  /** The resource after `withdraw(amount)`: refused when `amount` exceeds the balance,
      otherwise the balance drops by `amount` and the rate by `amount / period`. */
  function Withdrawn(r: Resource, amount: real, period: Period): Resource
  {
    if amount > r.amount then r
    else r.(amount := r.amount - amount, rate := r.rate - amount / period)
  }

  /** The resource after `deposit(amount)`. */
  function Deposited(r: Resource, amount: real, period: Period): Resource
  {
    r.(amount := r.amount + amount, rate := r.rate + amount / period)
  }

  /** Two deposits are one deposit of the sum. */
  lemma DepositsAdd(r: Resource, a1: real, a2: real, period: Period)
    ensures Deposited(Deposited(r, a1, period), a2, period) == Deposited(r, a1 + a2, period)
  {
    assert a1 / period + a2 / period == (a1 + a2) / period;
  }

  /** A deposit followed by a withdrawal of the same amount restores the resource. */
  lemma WithdrawUndoesDeposit(r: Resource, a: real, period: Period)
    requires r.amount >= 0.0
    ensures Withdrawn(Deposited(r, a, period), a, period) == r
  {
  }

  /** A granted withdrawal never leaves a negative balance, whatever the starting one. */
  lemma WithdrawnNeverNegative(r: Resource, a: real, period: Period)
    requires a <= r.amount
    ensures Withdrawn(r, a, period).amount >= 0.0
  {
  }

  // ---------------------------------------------------------------------------
  // Purchase and sale (State.buy, State.sell)

  /** `buy` goes ahead only when every balance strictly exceeds its price. */
  ghost predicate CanAfford(res: Ledger, costs: map<string, real>)
    requires costs.Keys <= res.Keys
  {
    forall t :: t in costs ==> res[t].amount > costs[t]
  }

  /** The table after paying `costs`: balances drop, rates are not touched. */
  function Paid(res: Ledger, costs: map<string, real>): (r: Ledger)
    requires costs.Keys <= res.Keys
    ensures SameTickers(res, r)
    ensures forall t :: t in res ==> r[t].rate == res[t].rate
    ensures forall t :: t in res && t !in costs ==> r[t] == res[t]
  {
    map t | t in res :: if t in costs then res[t].(amount := res[t].amount - costs[t]) else res[t]
  }

  /** The table after a refund of `costs`: balances rise, rates are not touched. */
  function Refunded(res: Ledger, costs: map<string, real>): (r: Ledger)
    requires costs.Keys <= res.Keys
    ensures SameTickers(res, r)
    ensures forall t :: t in res ==> r[t].rate == res[t].rate
    ensures forall t :: t in res && t !in costs ==> r[t] == res[t]
  {
    map t | t in res :: if t in costs then res[t].(amount := res[t].amount + costs[t]) else res[t]
  }

  /** Refunding exactly what was paid restores the table. */
  lemma RefundUndoesPayment(res: Ledger, costs: map<string, real>)
    requires costs.Keys <= res.Keys
    ensures Refunded(Paid(res, costs), costs) == res
  {
    var back := Refunded(Paid(res, costs), costs);
    assert forall t :: t in res ==> back[t] == res[t];
  }

  /** An exact balance is not enough to buy. */
  lemma ExactBalanceRejected(res: Ledger, costs: map<string, real>, t: string)
    requires costs.Keys <= res.Keys && t in costs && res[t].amount == costs[t]
    ensures !CanAfford(res, costs)
  {
  }

  /** A purchase leaves every paid balance strictly positive. */
  lemma PaymentLeavesPositive(res: Ledger, costs: map<string, real>)
    requires costs.Keys <= res.Keys && CanAfford(res, costs)
    ensures forall t :: t in costs ==> Paid(res, costs)[t].amount > 0.0
  {
  }

  /** Buying one unit and selling it straight back changes each balance by the price of
      the unit after the purchase minus the price paid: the refund is taken at the
      higher, post-purchase cost. */
  lemma BuyThenSell(res: Ledger, o: Organelle, pow: RealPow)
    requires CostsDefined(o) && o.baseCost.Keys <= res.Keys
    ensures var bought := o.(count := o.count + 1);
            var after := Refunded(Paid(res, Costs(o, pow)), Costs(bought, pow));
            && SameTickers(res, after)
            && (forall t :: t in o.baseCost ==>
                  after[t].amount == res[t].amount - Costs(o, pow)[t] + Costs(bought, pow)[t])
            && (forall t :: t in res && t !in o.baseCost ==> after[t] == res[t])
  {
  }

  // ---------------------------------------------------------------------------
  // One tick (the body of World.tick_update_loop)

  /** Every rate set to 0, amounts untouched. */
  function RatesReset(res: Ledger): (r: Ledger)
    ensures SameTickers(res, r)
    ensures forall t :: t in r ==> r[t].rate == 0.0 && r[t].amount == res[t].amount
  {
    map t | t in res :: res[t].(rate := 0.0)
  }

  /** The rule's tickers are all in the table. */
  predicate RuleFits(rule: ConditionalRate, keys: set<string>)
  {
    rule.consumption.Keys <= keys && rule.production.Keys <= keys
  }

  predicate RulesFit(rules: seq<ConditionalRate>, keys: set<string>)
  {
    forall j :: 0 <= j < |rules| ==> RuleFits(rules[j], keys)
  }

  predicate OrganellesFit(orgs: seq<Organelle>, keys: set<string>)
  {
    forall i :: 0 <= i < |orgs| ==> RulesFit(orgs[i].rates, keys)
  }

  /** The gate of a rule: each consumed ticker holds at least ONE unit's worth for one
      period, `rate * period`, whatever the number of units owned. */
  predicate GateOpen(res: Ledger, consumption: map<string, real>, period: Period)
    requires consumption.Keys <= res.Keys
  {
    forall t :: t in consumption ==> res[t].amount >= consumption[t] * period
  }

  /** The amount a rule moves for one ticker in one tick: `rate * period * count`. */
  function Scaled(rate: real, period: Period, count: nat): real
  {
    rate * period * (count as real)
  }

  /** A withdrawal of `rate * period * count` from every consumed ticker, each one
      refused on its own when the balance is short. */
  function Withdrawals(res: Ledger, consumption: map<string, real>, period: Period, count: nat): (r: Ledger)
    requires consumption.Keys <= res.Keys
    ensures SameTickers(res, r)
    ensures forall t :: t in res && t !in consumption ==> r[t] == res[t]
  {
    map t | t in res ::
      if t in consumption then Withdrawn(res[t], Scaled(consumption[t], period, count), period)
      else res[t]
  }

  /** A deposit of `rate * period * count` into every produced ticker. */
  function Deposits(res: Ledger, production: map<string, real>, period: Period, count: nat): (r: Ledger)
    requires production.Keys <= res.Keys
    ensures SameTickers(res, r)
    ensures forall t :: t in res && t !in production ==> r[t] == res[t]
  {
    map t | t in res ::
      if t in production then Deposited(res[t], Scaled(production[t], period, count), period)
      else res[t]
  }

  /** One rule: when the gate is open, all withdrawals, then all deposits (done even
      if a withdrawal was refused); when it is shut, nothing. */
  function AfterRule(res: Ledger, rule: ConditionalRate, period: Period, count: nat): (r: Ledger)
    requires RuleFits(rule, res.Keys)
  {
    if GateOpen(res, rule.consumption, period) then
      Deposits(Withdrawals(res, rule.consumption, period, count), rule.production, period, count)
    else res
  }

  /** The rules of one organelle in declaration order, each gate seeing the effect of
      the rules before it. */
  function AfterRules(res: Ledger, rules: seq<ConditionalRate>, period: Period, count: nat): (r: Ledger)
    requires RulesFit(rules, res.Keys)
    ensures SameTickers(res, r)
    decreases |rules|
  {
    if rules == [] then res
    else
      var before := AfterRules(res, rules[..|rules| - 1], period, count);
      AfterRule(before, rules[|rules| - 1], period, count)
  }

  /** All organelles in catalog order. */
  function AfterOrganelles(res: Ledger, orgs: seq<Organelle>, period: Period): (r: Ledger)
    requires OrganellesFit(orgs, res.Keys)
    ensures SameTickers(res, r)
    decreases |orgs|
  {
    if orgs == [] then res
    else
      var before := AfterOrganelles(res, orgs[..|orgs| - 1], period);
      var last := orgs[|orgs| - 1];
      AfterRules(before, last.rates, period, last.count)
  }

  /** Applying one more rule extends the sequence of rules applied so far. */
  lemma AfterRulesExtend(res: Ledger, rules: seq<ConditionalRate>, j: nat, period: Period, count: nat)
    requires RulesFit(rules, res.Keys) && j < |rules|
    ensures RulesFit(rules[..j], res.Keys) && RulesFit(rules[..j + 1], res.Keys)
    ensures RuleFits(rules[j], AfterRules(res, rules[..j], period, count).Keys)
    ensures AfterRules(res, rules[..j + 1], period, count)
         == AfterRule(AfterRules(res, rules[..j], period, count), rules[j], period, count)
  {
    assert rules[..j + 1][..j] == rules[..j];
  }

  /** Applying one more organelle extends the sequence of organelles applied so far. */
  lemma AfterOrganellesExtend(res: Ledger, orgs: seq<Organelle>, i: nat, period: Period)
    requires OrganellesFit(orgs, res.Keys) && i < |orgs|
    ensures OrganellesFit(orgs[..i], res.Keys) && OrganellesFit(orgs[..i + 1], res.Keys)
    ensures RulesFit(orgs[i].rates, AfterOrganelles(res, orgs[..i], period).Keys)
    ensures AfterOrganelles(res, orgs[..i + 1], period)
         == AfterRules(AfterOrganelles(res, orgs[..i], period), orgs[i].rates, period, orgs[i].count)
  {
    assert orgs[..i + 1][..i] == orgs[..i];
  }

  /** One tick: reset every rate, then apply every organelle's rules. */
  function AfterTick(res: Ledger, orgs: seq<Organelle>, period: Period): (r: Ledger)
    requires OrganellesFit(orgs, res.Keys)
  {
    AfterOrganelles(RatesReset(res), orgs, period)
  }

  // ---------------------------------------------------------------------------
  // Properties of a tick

  /** `rate * period` is the net change of the amount since `base`: each rate is the
      per-second equivalent of the tick's withdrawals and deposits. */
  ghost predicate RatesTrack(base: Ledger, cur: Ledger, period: Period)
  {
    && cur.Keys == base.Keys
    && forall t :: t in cur ==> cur[t].rate * period == cur[t].amount - base[t].amount
  }

  lemma WithdrawnTracks(r: Resource, amount: real, period: Period, start: real)
    requires r.rate * period == r.amount - start
    ensures Withdrawn(r, amount, period).rate * period == Withdrawn(r, amount, period).amount - start
  {
    if amount <= r.amount {
      calc {
        (r.rate - amount / period) * period;
        r.rate * period - (amount / period) * period;
        r.rate * period - amount;
      }
    }
  }

  lemma DepositedTracks(r: Resource, amount: real, period: Period, start: real)
    requires r.rate * period == r.amount - start
    ensures Deposited(r, amount, period).rate * period == Deposited(r, amount, period).amount - start
  {
    calc {
      (r.rate + amount / period) * period;
      r.rate * period + (amount / period) * period;
      r.rate * period + amount;
    }
  }

  lemma WithdrawalsTrack(base: Ledger, res: Ledger, consumption: map<string, real>, period: Period, count: nat)
    requires consumption.Keys <= res.Keys && RatesTrack(base, res, period)
    ensures RatesTrack(base, Withdrawals(res, consumption, period, count), period)
  {
    var w := Withdrawals(res, consumption, period, count);
    forall t | t in consumption
      ensures w[t].rate * period == w[t].amount - base[t].amount
    {
      var a := Scaled(consumption[t], period, count);
      assert w[t] == Withdrawn(res[t], a, period);
      WithdrawnTracks(res[t], a, period, base[t].amount);
    }
  }

  lemma DepositsTrack(base: Ledger, res: Ledger, production: map<string, real>, period: Period, count: nat)
    requires production.Keys <= res.Keys && RatesTrack(base, res, period)
    ensures RatesTrack(base, Deposits(res, production, period, count), period)
  {
    var d := Deposits(res, production, period, count);
    forall t | t in production
      ensures d[t].rate * period == d[t].amount - base[t].amount
    {
      var a := Scaled(production[t], period, count);
      assert d[t] == Deposited(res[t], a, period);
      DepositedTracks(res[t], a, period, base[t].amount);
    }
  }

  lemma RuleTracks(base: Ledger, res: Ledger, rule: ConditionalRate, period: Period, count: nat)
    requires RuleFits(rule, res.Keys) && RatesTrack(base, res, period)
    ensures RatesTrack(base, AfterRule(res, rule, period, count), period)
  {
    if GateOpen(res, rule.consumption, period) {
      WithdrawalsTrack(base, res, rule.consumption, period, count);
      DepositsTrack(base, Withdrawals(res, rule.consumption, period, count), rule.production, period, count);
    }
  }

  lemma {:induction false} RulesTrack(base: Ledger, res: Ledger, rules: seq<ConditionalRate>, period: Period, count: nat)
    requires RulesFit(rules, res.Keys) && RatesTrack(base, res, period)
    ensures RatesTrack(base, AfterRules(res, rules, period, count), period)
    decreases |rules|
  {
    if rules != [] {
      var init := rules[..|rules| - 1];
      RulesTrack(base, res, init, period, count);
      RuleTracks(base, AfterRules(res, init, period, count), rules[|rules| - 1], period, count);
    }
  }

  lemma {:induction false} OrganellesTrack(base: Ledger, res: Ledger, orgs: seq<Organelle>, period: Period)
    requires OrganellesFit(orgs, res.Keys) && RatesTrack(base, res, period)
    ensures RatesTrack(base, AfterOrganelles(res, orgs, period), period)
    decreases |orgs|
  {
    if orgs != [] {
      var init := orgs[..|orgs| - 1];
      var last := orgs[|orgs| - 1];
      OrganellesTrack(base, res, init, period);
      RulesTrack(base, AfterOrganelles(res, init, period), last.rates, period, last.count);
    }
  }

  /** After a tick each rate is exactly the tick's net flow of its resource per second:
      `rate * period == amount after - amount before`. */
  lemma TickRatesAreNetFlow(res: Ledger, orgs: seq<Organelle>, period: Period)
    requires OrganellesFit(orgs, res.Keys)
    ensures RatesTrack(res, AfterTick(res, orgs, period), period)
  {
    OrganellesTrack(res, RatesReset(res), orgs, period);
  }

  /** A rule of an organelle that nobody owns changes nothing, open gate or not. */
  lemma UnownedRuleIdle(res: Ledger, rule: ConditionalRate, period: Period)
    requires RuleFits(rule, res.Keys)
    ensures AfterRule(res, rule, period, 0) == res
  {
    var w := Withdrawals(res, rule.consumption, period, 0);
    assert forall t :: t in res ==> w[t] == res[t];
    assert w == res;
    var d := Deposits(w, rule.production, period, 0);
    assert forall t :: t in res ==> d[t] == res[t];
    assert d == res;
  }

  lemma {:induction false} UnownedRulesIdle(res: Ledger, rules: seq<ConditionalRate>, period: Period)
    requires RulesFit(rules, res.Keys)
    ensures AfterRules(res, rules, period, 0) == res
    decreases |rules|
  {
    if rules != [] {
      var init := rules[..|rules| - 1];
      UnownedRulesIdle(res, init, period);
      UnownedRuleIdle(res, rules[|rules| - 1], period);
    }
  }

  lemma {:induction false} UnownedOrganellesIdle(res: Ledger, orgs: seq<Organelle>, period: Period)
    requires OrganellesFit(orgs, res.Keys)
    requires forall i :: 0 <= i < |orgs| ==> orgs[i].count == 0
    ensures AfterOrganelles(res, orgs, period) == res
    decreases |orgs|
  {
    if orgs != [] {
      var init := orgs[..|orgs| - 1];
      UnownedOrganellesIdle(res, init, period);
      UnownedRulesIdle(res, orgs[|orgs| - 1].rates, period);
    }
  }

  /** Resetting rates that are already 0 changes nothing. */
  lemma ResetOfIdleTable(res: Ledger)
    requires forall t :: t in res ==> res[t].rate == 0.0
    ensures RatesReset(res) == res
  {
  }

  /** With nothing owned, a tick leaves every amount as it was and every rate at 0. */
  lemma IdleTick(res: Ledger, orgs: seq<Organelle>, period: Period)
    requires OrganellesFit(orgs, res.Keys)
    requires forall i :: 0 <= i < |orgs| ==> orgs[i].count == 0
    ensures AfterTick(res, orgs, period) == RatesReset(res)
    ensures forall t :: t in res ==>
      AfterTick(res, orgs, period)[t].amount == res[t].amount && AfterTick(res, orgs, period)[t].rate == 0.0
  {
    UnownedOrganellesIdle(RatesReset(res), orgs, period);
  }

  /** Every rule of every organelle is shut on the amounts `res` holds. */
  ghost predicate AllBlocked(res: Ledger, orgs: seq<Organelle>, period: Period)
    requires OrganellesFit(orgs, res.Keys)
  {
    forall i, j :: 0 <= i < |orgs| && 0 <= j < |orgs[i].rates| ==>
      !GateOpen(res, orgs[i].rates[j].consumption, period)
  }

  lemma {:induction false} BlockedRulesIdle(res: Ledger, rules: seq<ConditionalRate>, period: Period, count: nat)
    requires RulesFit(rules, res.Keys)
    requires forall j :: 0 <= j < |rules| ==> !GateOpen(res, rules[j].consumption, period)
    ensures AfterRules(res, rules, period, count) == res
    decreases |rules|
  {
    if rules != [] {
      var init := rules[..|rules| - 1];
      BlockedRulesIdle(res, init, period, count);
    }
  }

  lemma {:induction false} BlockedOrganellesIdle(res: Ledger, orgs: seq<Organelle>, period: Period)
    requires OrganellesFit(orgs, res.Keys) && AllBlocked(res, orgs, period)
    ensures AfterOrganelles(res, orgs, period) == res
    decreases |orgs|
  {
    if orgs != [] {
      var init := orgs[..|orgs| - 1];
      var last := orgs[|orgs| - 1];
      BlockedOrganellesIdle(res, init, period);
      BlockedRulesIdle(res, last.rates, period, last.count);
    }
  }

  /** When every rule's consumption is unmet, a tick leaves every amount unchanged and
      every rate at 0. (The reset does not change amounts, so the gates stay shut.) */
  lemma BlockedTick(res: Ledger, orgs: seq<Organelle>, period: Period)
    requires OrganellesFit(orgs, res.Keys) && AllBlocked(res, orgs, period)
    ensures AfterTick(res, orgs, period) == RatesReset(res)
  {
    var z := RatesReset(res);
    forall i, j | 0 <= i < |orgs| && 0 <= j < |orgs[i].rates|
      ensures !GateOpen(z, orgs[i].rates[j].consumption, period)
    {
      assert !GateOpen(res, orgs[i].rates[j].consumption, period);
    }
    BlockedOrganellesIdle(z, orgs, period);
  }

  /** Production rates of every rule are non-negative. */
  ghost predicate ProductionNonNegative(orgs: seq<Organelle>)
  {
    forall i, j, t :: 0 <= i < |orgs| && 0 <= j < |orgs[i].rates| && t in orgs[i].rates[j].production ==>
      orgs[i].rates[j].production[t] >= 0.0
  }

  lemma WithdrawalsKeepNonNegative(res: Ledger, consumption: map<string, real>, period: Period, count: nat)
    requires consumption.Keys <= res.Keys && NonNegative(res)
    ensures NonNegative(Withdrawals(res, consumption, period, count))
  {
  }

  lemma ScaledRateNonNegative(rate: real, period: Period, count: nat)
    requires rate >= 0.0
    ensures Scaled(rate, period, count) >= 0.0
  {
    assert rate * period >= 0.0;
  }

  lemma DepositsKeepNonNegative(res: Ledger, production: map<string, real>, period: Period, count: nat)
    requires production.Keys <= res.Keys && NonNegative(res)
    requires forall t :: t in production ==> production[t] >= 0.0
    ensures NonNegative(Deposits(res, production, period, count))
  {
    var d := Deposits(res, production, period, count);
    forall t | t in production
      ensures d[t].amount >= 0.0
    {
      var a := Scaled(production[t], period, count);
      ScaledRateNonNegative(production[t], period, count);
      assert d[t] == Deposited(res[t], a, period);
    }
  }

  lemma RuleKeepsNonNegative(res: Ledger, rule: ConditionalRate, period: Period, count: nat)
    requires RuleFits(rule, res.Keys) && NonNegative(res)
    requires forall t :: t in rule.production ==> rule.production[t] >= 0.0
    ensures NonNegative(AfterRule(res, rule, period, count))
  {
    if GateOpen(res, rule.consumption, period) {
      WithdrawalsKeepNonNegative(res, rule.consumption, period, count);
      DepositsKeepNonNegative(Withdrawals(res, rule.consumption, period, count), rule.production, period, count);
    }
  }

  lemma {:induction false} RulesKeepNonNegative(res: Ledger, rules: seq<ConditionalRate>, period: Period, count: nat)
    requires RulesFit(rules, res.Keys) && NonNegative(res)
    requires forall j, t :: 0 <= j < |rules| && t in rules[j].production ==> rules[j].production[t] >= 0.0
    ensures NonNegative(AfterRules(res, rules, period, count))
    decreases |rules|
  {
    if rules != [] {
      var init := rules[..|rules| - 1];
      RulesKeepNonNegative(res, init, period, count);
      RuleKeepsNonNegative(AfterRules(res, init, period, count), rules[|rules| - 1], period, count);
    }
  }

  lemma {:induction false} OrganellesKeepNonNegative(res: Ledger, orgs: seq<Organelle>, period: Period)
    requires OrganellesFit(orgs, res.Keys) && NonNegative(res) && ProductionNonNegative(orgs)
    ensures NonNegative(AfterOrganelles(res, orgs, period))
    decreases |orgs|
  {
    if orgs != [] {
      var init := orgs[..|orgs| - 1];
      var last := orgs[|orgs| - 1];
      assert ProductionNonNegative(init);
      OrganellesKeepNonNegative(res, init, period);
      RulesKeepNonNegative(AfterOrganelles(res, init, period), last.rates, period, last.count);
    }
  }

  /** A tick never drives a balance negative when production rates are non-negative:
      withdrawals are refused rather than overdrawn. */
  lemma TickKeepsNonNegative(res: Ledger, orgs: seq<Organelle>, period: Period)
    requires OrganellesFit(orgs, res.Keys) && NonNegative(res) && ProductionNonNegative(orgs)
    ensures NonNegative(AfterTick(res, orgs, period))
  {
    OrganellesKeepNonNegative(RatesReset(res), orgs, period);
  }

  /** The gate checks one unit only: with two Mitochondria and exactly one unit's worth of
      glucose the second rule's gate opens, the withdrawal of two units is refused, and
      the ATP for two units is deposited all the same. */
  lemma GateChecksOneUnit(res: Ledger, period: Period)
    requires "GLUC" in res && "ATP" in res
    requires res["GLUC"].amount == 0.5 * period
    ensures var rule := ORGANELLES[1].rates[1];
            var r := AfterRule(res, rule, period, 2);
            && GateOpen(res, rule.consumption, period)
            && r["GLUC"] == res["GLUC"]
            && r["ATP"].amount == res["ATP"].amount + 2.0 * period
            && r["ATP"].rate == res["ATP"].rate + 2.0
  {
    var rule := ORGANELLES[1].rates[1];
    assert rule.consumption == map["GLUC" := 0.5] && rule.production == map["ATP" := 1.0];
    assert GateOpen(res, rule.consumption, period);
    assert 0.5 * period * 2.0 > res["GLUC"].amount;
    var w := Withdrawals(res, rule.consumption, period, 2);
    assert w["GLUC"] == res["GLUC"];
    assert w["ATP"] == res["ATP"];
    assert (1.0 * period * 2.0) / period == 2.0;
  }
}
