/** The resource record and the static resource table (src/game/resource.py). */
module Resources {

  /** A resource the player collects; `ticker` is the short name that identifies it.
      `amount` and `rate` default to 0 in the source. */
  datatype Resource = Resource(
    ticker: string,
    name: string,
    description: string,
    amount: real,
    rate: real)

  /** The initial resource table, keyed on ticker. */
  const RESOURCES: map<string, Resource> := map[
    "ATP" := Resource(
      "ATP",
      "Adenosine Triphosphate",
      "The basic unit of energy to be created and used inside a cellular organism.",
      15.0, 0.0),
    "CYTO" := Resource(
      "CYTO",
      "Cytosol",
      "The liquid stored within a cell. Consumed by some actions and upgrades.",
      0.0, 0.0),
    "GLUC" := Resource(
      "GLUC",
      "Glucose",
      "Consumed by some organelles to make ATP. Produced by finding food in your organism's environment.",
      10.0, 0.0)
  ]

  /** Every key of the table is the ticker of the record stored under it. */
  lemma ResourcesKeyedByTicker()
    ensures RESOURCES.Keys == {"ATP", "CYTO", "GLUC"}
    ensures forall k :: k in RESOURCES ==> RESOURCES[k].ticker == k
  {
  }

  /** The starting balances: ATP 15, CYTO 0, GLUC 10, and every rate 0. */
  lemma InitialBalances()
    ensures RESOURCES["ATP"].amount == 15.0
    ensures RESOURCES["CYTO"].amount == 0.0
    ensures RESOURCES["GLUC"].amount == 10.0
    ensures forall k :: k in RESOURCES ==> RESOURCES[k].rate == 0.0
    ensures forall k :: k in RESOURCES ==> RESOURCES[k].amount >= 0.0
  {
  }
}
