# cell-incremental: the economy, the tick engine and the petri dish

cell-incremental is a terminal incremental game about a single cell. The player holds
resources (ATP, cytosol, glucose), buys organelles with them, and every tick the owned
organelles consume and produce resources according to their rules. Beside the economy
runs a small petri dish in which organisms wander on a grid and food lies about.

This project models that core in Dafny and proves what it promises.

- `Resources` (`resource.dfy`): the resource record and the initial table, keyed on ticker.
- `Organelles` (`organelle.dfy`): the production/consumption rule, the organelle record,
  its price curve `base_cost ** (cost_exponent ** count)` and the static catalog of
  Chloroplast, Mitochondria and Nanoconsumer.
- `Economy` (`economy.dfy`): the same rules stated as functions on values: case-insensitive
  ticker lookup, the effect of one withdrawal or deposit, payment and refund of a price,
  and one tick (rate reset, then every organelle's rules in order, each behind its gate).
  The lemmas about the tick live here: rates equal the net flow, an unowned or blocked
  catalog is idle, balances never go negative, and the gate checks only one unit.
- `GameWorld` (`world.dfy`): the mutable `State` (balances, organelles, dish) with
  `Ticker`, `Withdraw`, `Deposit`, `Buy` and `Sell`, and `World`, whose `TickStep` is one
  iteration of the tick loop. Every method runs the source's loops and is proved to leave
  exactly the state the matching `Economy` function describes.
- `PetriDish` (`dish.dfy`): grid points with `+` and `-`, food records, organisms that move
  by keypad direction or wander at random, and the dish that hands out fresh organism ids
  and collects food.

Modelling choices:

- Amounts, rates and prices are `real`.
- `UPDATE_PERIOD` comes from a configuration module that is not part of this model. It is
  a positive real (`Economy.Period`) given to the `State` constructor.
- The real-exponent power `**` is a parameter `pow: RealPow` held by the state. Lemmas
  name the laws they need: `pow(b, 1) == b` (`PowOfOne`) and monotonicity in the exponent
  (`PowIncreasing`). The inner power `cost_exponent ** count` has a whole exponent and is
  computed exactly (`NatPow`).
- The organelle dictionary `{0: …, 1: …, 2: …}` is a sequence indexed by its key.
- `random()`, `choice` and `randint` are parameters: a sample in [0, 1), an index into
  the choices, and the sequence of values `randint` would draw.
- A lookup that would raise `KeyError` (an unknown ticker, an unknown organelle id, a cost
  ticker without an exponent) is a precondition. The invariant `State.Valid` shows that
  every lookup the state makes on its own keys succeeds.
- The source iterates dictionaries in insertion order. Here the loops over cost,
  consumption and production maps pick keys in any order. Their keys are distinct and each
  step touches only its own key, so every order ends in the same state.

## Model

| member | source | states |
|---|---|---|
| Resources.ResourcesKeyedByTicker | src/game/resource.py:15-33 | the table has exactly the keys ATP, CYTO and GLUC, and each key is the ticker of its record |
| Resources.InitialBalances | src/game/resource.py:12-33 | initial amounts are ATP 15, CYTO 0 and GLUC 10; every rate is 0; every amount is non-negative |
| Organelles.Costs | src/game/organelle.py:30-35 | the price map has exactly the keys of `base_cost` |
| Organelles.CostsAtCountZero | src/game/organelle.py:27-35 | with nothing owned the price is `base_cost`, given `b ** 1 == b` |
| Organelles.CostsAfterPurchase | src/game/organelle.py:30-35 | after one more purchase the exponent applied to `base_cost[t]` is multiplied by `cost_exponent[t]`: the price is recomputed from the current count |
| Organelles.NatPowGrows | src/game/organelle.py:34 | for an exponent above 1, `e ** count` is at least 1 and strictly grows with `count` |
| Organelles.CostsIncreaseWithCount | src/game/organelle.py:30-35 | with bases and exponents above 1 and an increasing power, every purchase makes the next price strictly higher |
| Organelles.CatalogWellFormed | src/game/organelle.py:38-69 | the catalog has three entries, each stored under its own `idx`, unowned, with an exponent for every ticker it costs |
| Organelles.CatalogCostsGrow | src/game/organelle.py:43-44 | every catalog base cost and exponent is above 1 (so prices rise) |
| Economy.Upper | src/game/world.py:35 | upper-casing keeps the length and upper-cases each character |
| Economy.UpperFixesUpper | src/game/world.py:33-35 | upper-casing is idempotent, yields an upper-case name and leaves an upper-case name alone |
| Economy.LookupIgnoresCase | src/game/world.py:33-35 | "atp", "Atp" and "ATP" all look up "ATP" |
| Economy.InitialTickersFound | src/game/resource.py:15-33 | every initial key is its record's ticker and is upper case, so `ticker()` finds it |
| Economy.DepositsAdd | src/game/world.py:49-54 | two deposits of `a1` and `a2` equal one deposit of `a1 + a2`, in amount and rate |
| Economy.WithdrawUndoesDeposit | src/game/world.py:37-54 | on a non-negative balance, withdrawing what was just deposited restores the resource |
| Economy.WithdrawnNeverNegative | src/game/world.py:42-47 | a granted withdrawal never leaves a negative balance |
| Economy.Paid | src/game/world.py:65-66 | paying keeps keys and tickers, leaves every rate and every unpriced resource unchanged |
| Economy.Refunded | src/game/world.py:74-75 | a refund keeps keys and tickers, leaves every rate and every unpriced resource unchanged |
| Economy.RefundUndoesPayment | src/game/world.py:65-75 | refunding exactly what was paid restores the table |
| Economy.ExactBalanceRejected | src/game/world.py:62-64 | a balance equal to its price is not enough to buy |
| Economy.PaymentLeavesPositive | src/game/world.py:62-66 | a purchase the check lets through leaves every paid balance strictly positive |
| Economy.BuyThenSell | src/game/world.py:56-79 | buying then selling changes each priced balance by the post-purchase price minus the price paid; other resources are untouched |
| Economy.RatesReset | src/game/world.py:92-93 | every rate becomes 0 and every amount is kept |
| Economy.Withdrawals | src/game/world.py:106-107 | the consumption withdrawals keep keys and tickers and touch only consumed tickers |
| Economy.Deposits | src/game/world.py:109-110 | the production deposits keep keys and tickers and touch only produced tickers |
| Economy.AfterRules | src/game/world.py:96-110 | a sequence of rules keeps keys and tickers |
| Economy.AfterOrganelles | src/game/world.py:94-110 | a sequence of organelles keeps keys and tickers |
| Economy.AfterRulesExtend | src/game/world.py:96 | applying the next rule extends the rules applied so far: later gates see earlier rules' effects |
| Economy.AfterOrganellesExtend | src/game/world.py:94 | applying the next organelle extends the organelles applied so far, in catalog order |
| Economy.WithdrawnTracks | src/game/world.py:45-46 | a withdrawal keeps `rate * period` equal to the net change of the amount |
| Economy.DepositedTracks | src/game/world.py:52-53 | a deposit keeps `rate * period` equal to the net change of the amount |
| Economy.WithdrawalsTrack | src/game/world.py:106-107 | the withdrawals of a rule keep every rate equal to the net flow |
| Economy.DepositsTrack | src/game/world.py:109-110 | the deposits of a rule keep every rate equal to the net flow |
| Economy.RuleTracks | src/game/world.py:98-110 | one rule keeps every rate equal to the net flow |
| Economy.RulesTrack | src/game/world.py:96-110 | an organelle's rules keep every rate equal to the net flow |
| Economy.OrganellesTrack | src/game/world.py:94-110 | all organelles keep every rate equal to the net flow |
| Economy.TickRatesAreNetFlow | src/game/world.py:92-110 | after a tick each rate times the period is exactly the tick's net change of that amount |
| Economy.UnownedRuleIdle | src/game/world.py:105-110 | a rule with count 0 changes nothing, whether its gate opens or not |
| Economy.UnownedRulesIdle | src/game/world.py:96-110 | all rules of an unowned organelle change nothing |
| Economy.UnownedOrganellesIdle | src/game/world.py:94-110 | organelles none of which is owned change nothing |
| Economy.ResetOfIdleTable | src/game/world.py:92-93 | resetting rates that are all 0 leaves the table as it is |
| Economy.IdleTick | src/game/world.py:92-110 | with every count 0 a tick leaves all amounts unchanged and all rates at 0 |
| Economy.BlockedRulesIdle | src/game/world.py:98-105 | rules whose gates are all shut change nothing |
| Economy.BlockedOrganellesIdle | src/game/world.py:94-105 | organelles whose gates are all shut change nothing |
| Economy.BlockedTick | src/game/world.py:92-105 | when every gate is shut, a tick only resets the rates |
| Economy.WithdrawalsKeepNonNegative | src/game/world.py:42-43 | withdrawals are refused rather than overdrawn, so balances stay non-negative |
| Economy.ScaledRateNonNegative | src/game/world.py:110 | a non-negative rate scaled by period and count is non-negative |
| Economy.DepositsKeepNonNegative | src/game/world.py:109-110 | non-negative production keeps balances non-negative |
| Economy.RuleKeepsNonNegative | src/game/world.py:98-110 | one rule with non-negative production keeps balances non-negative |
| Economy.RulesKeepNonNegative | src/game/world.py:96-110 | an organelle's rules keep balances non-negative |
| Economy.OrganellesKeepNonNegative | src/game/world.py:94-110 | all organelles keep balances non-negative |
| Economy.TickKeepsNonNegative | src/game/world.py:92-110 | a tick never drives a balance negative when production is non-negative |
| Economy.GateChecksOneUnit | src/game/world.py:99-110 | with two Mitochondria and one unit's worth of glucose the gate opens, the two-unit withdrawal is refused and two units of ATP are deposited anyway |
| GameWorld.SameTickersKeepFit | src/game/world.py:33-35 | a table with the same keys and tickers as a well-formed one is well formed and fits the same catalog |
| GameWorld.RecountKeepsFit | src/game/world.py:67-76 | changing one organelle's count keeps the catalog fitting the table |
| GameWorld.CatalogFitsResources | src/game/organelle.py:38-69 | every ticker the catalog prices or names in a rule is a key of the initial table, and all catalog production is non-negative |
| GameWorld.Range | src/game/world.py:30 | `range(start, stop, step)` holds `start + i * step` at position `i`, all below `stop`, and runs on until the next value would reach `stop`, so no value is missing |
| GameWorld.FoodGrid | src/game/world.py:30 | the food grid has `|xs| * |ys|` items, each on a listed row and column with the given calories |
| GameWorld.Column | src/game/world.py:30 | one column holds `Food(ys[j], x, calories)` at position `j`, one per row |
| GameWorld.FoodGridComplete | src/game/world.py:30 | every (column, row) pair of the comprehension occurs in the grid |
| GameWorld.RangePosition | src/game/world.py:30 | every element of a range sits at some position `i` with value `start + i * step` |
| GameWorld.EvenRow | src/game/world.py:30 | every value of `range(0, height, 2)` is even and in [0, height) |
| GameWorld.ThirdColumn | src/game/world.py:30 | every value of `range(0, width, 3)` is divisible by 3 and in [0, width) |
| GameWorld.FoodGridOnRanges | src/game/world.py:30 | food on `range(0, w, 3)` by `range(0, h, 2)` lies inside the rectangle, on even rows and columns divisible by 3 |
| GameWorld.InitialFoodInBounds | src/game/world.py:30 | the initial food lies on even rows below 10 and columns below 50 divisible by 3, each worth 0.1 |
| GameWorld.State.constructor | src/game/world.py:22-30 | no cytosol, the catalog, the resource table, and a fresh dish of size (100, 600) holding the initial food |
| GameWorld.State.Ticker | src/game/world.py:33-35 | the lookup returns a resource of the table whose ticker is the upper-cased name; an upper-case name is looked up as is |
| GameWorld.TickerIgnoresCase | src/game/world.py:33-35 | any two names that upper-case alike look up the same resource |
| GameWorld.State.Withdraw | src/game/world.py:37-47 | ok exactly when `amount <= balance`; refused leaves everything unchanged; granted lowers the balance by `amount` and the rate by `amount / period`, and changes nothing else |
| GameWorld.State.Deposit | src/game/world.py:49-54 | always ok; raises the balance by `amount` and the rate by `amount / period`, and changes nothing else |
| GameWorld.State.Buy | src/game/world.py:56-68 | ok exactly when every balance strictly exceeds its price; refused changes nothing; granted pays every price at the current count, keeps every rate and increments only that organelle's count |
| GameWorld.State.Affordable | src/game/world.py:62-64 | the check loop answers whether every balance strictly exceeds its price |
| GameWorld.State.Pay | src/game/world.py:65-66 | the pay loop takes each price off its balance and changes nothing else |
| GameWorld.State.Sell | src/game/world.py:70-79 | ok exactly when one is owned; refused changes nothing; granted refunds the prices at the pre-decrement count and decrements only that organelle's count |
| GameWorld.State.Refund | src/game/world.py:74-75 | the refund loop adds each price back to its balance and changes nothing else |
| GameWorld.World.constructor | src/game/world.py:83-85 | the world starts with the initial state: no cytosol, the catalog, the resource table, and a fresh empty (100, 600) dish holding the initial food |
| GameWorld.World.ResetAllRates | src/game/world.py:92-93 | every rate is set to 0; amounts, organelles and cytosol are unchanged |
| GameWorld.World.CheckGate | src/game/world.py:98-102 | the gate loop answers whether every consumed ticker holds at least `rate * period` |
| GameWorld.World.WithdrawConsumption | src/game/world.py:106-107 | withdraws `rate * period * count` from every consumed ticker, each refused on its own when short |
| GameWorld.World.DepositProduction | src/game/world.py:109-110 | deposits `rate * period * count` into every produced ticker |
| GameWorld.World.ApplyRule | src/game/world.py:97-110 | one rule: behind its one-unit gate, withdrawals then deposits, exactly as `AfterRule` |
| GameWorld.World.ApplyRules | src/game/world.py:96-110 | an organelle's rules in declaration order, exactly as `AfterRules` |
| GameWorld.World.TickStep | src/game/world.py:92-110 | one tick leaves exactly the table `AfterTick` gives; organelles and cytosol are unchanged |
| GameWorld.ChloroplastPrices | src/game/organelle.py:39-46 | the first Chloroplast costs 10 ATP and the second `10 ** 1.11` ATP |
| GameWorld.ChloroplastPurchases | src/game/world.py:56-68 | from the initial state the first Chloroplast is bought, leaving 5 ATP, and the second is refused, for any power with `b ** 1 == b` that increases in the exponent |
| GameWorld.BuyThenSellRestoresCount | src/game/world.py:56-79 | a granted buy followed by a sell succeeds and restores every organelle count; balances are refunded at the post-purchase price |
| GameWorld.FirstTickIdle | src/game/world.py:92-110 | the first tick of a new game changes nothing |
| PetriDish.SubInvertsAdd | src/game/dish.py:30-33 | `(p + q) - q == p`, `(p - q) + q == p`, and addition commutes |
| PetriDish.ChanceAsThreshold | src/game/dish.py:15-16 | `p(10)` holds exactly when the sample is below 0.1; `p(100)` always holds and `p(0)` never |
| PetriDish.StepsAreUnit | src/game/dish.py:57-64 | every cardinal step is one cell long, and opposite steps cancel |
| PetriDish.Organism.constructor | src/game/dish.py:36-40 | a new organism has no id |
| PetriDish.Organism.Move | src/game/dish.py:42-64 | diagonals return false and do not move; 5 returns true and does not move; 2, 4, 6, 8 move one cell (y+1, x-1, x+1, y-1) and return None; id and bounds are unchanged |
| PetriDish.Organism.FreeWanderThink | src/game/dish.py:66-70 | moves one chosen cardinal step when `p(10)` holds and stays put otherwise, so it moves at most one cell |
| PetriDish.Dish.constructor | src/game/dish.py:73-79 | an empty dish of size (100, 600) holding the given food |
| PetriDish.FirstFresh | src/game/dish.py:83-85 | the id the retry loop settles on is not a key and is preceded in the draws only by keys |
| PetriDish.FirstFreshAt | src/game/dish.py:83-85 | a fresh draw preceded only by stale ones is the first fresh draw |
| PetriDish.Dish.AddOrganism | src/game/dish.py:81-89 | the id is the first draw that is not already a key (`FirstFresh`), lies in [0, maxsize], is the organism's `idx` and its key; earlier entries are kept and the map grows by one |
| PetriDish.Dish.AddFood | src/game/dish.py:91-93 | exactly one food item is appended at the end; nothing else changes |
| PetriDish.AddTwo | src/game/dish.py:81-89 | two organisms added one after the other get different ids, whenever the second stream holds a draw that is neither a key nor the first id |

## Left out

- The user interface: `World.organelle_upgrade_content`, `petri_dish_content`,
  `switch_to_tab` and `on_start` build widgets and start the task. They are not modelled.
- The endless `while True` loop and `asyncio.sleep`: only one iteration of the loop body
  is modelled (`World.TickStep`).
- `src/game/widgets.py` (rendering), `src/game/organism.py` (an older, broken copy of
  `Organism`) and `src/game/scripts/main.py` (entry point and debugging hook) are not part of
  this model.
- Floating point: amounts, rates and prices are exact reals. Rounding is not modelled.
- `Organelles.Costs`: the power `**` with a real exponent is a parameter, not computed.
  Results about prices hold for any power with the stated laws.
- Randomness: `p`, `choice` and `randint` are parameters. Probabilities are not modelled.
- `Dish.AddOrganism`: requires that some draw is fresh. The source would keep drawing
  forever otherwise, which a finite sequence of draws cannot express.
- `Organism.Move`: the source's `assert 0 < direction < 10` raises `AssertionError` otherwise; here that is a precondition.
- The `organism.dish` back-reference set by `add_organism` is not modelled.
- `Dish.bounds` and `Organism.bounds` are stored but never checked, as in the source.
- `Organism.Move`: `pos` is a value, so a `Point` shared by two organisms is not modelled.
  In the source `move` mutates the shared `Point` in place.
- Pydantic validation and the copying of the default tables are not modelled. The state
  starts from the table values.
- Upper-casing covers ASCII letters only. Every ticker in the game is ASCII.
- `State.Ticker`, `State.Withdraw`, `State.Deposit`, `State.Buy`, `State.Sell`: an unknown
  ticker or organelle id raises `KeyError` in the source. Here that is a precondition.
- Dictionary iteration order is not modelled. The loops pick keys in any order, and the
  result is the same in every order.
