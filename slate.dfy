/** The canonical slate item that every view of the dashboard consumes. */
module Slate {
  import opened Wrappers

  /**
   * One title of the slate. Budgets and revenue are in millions. The source's
   * field `type` is called `contentType` here (`type` is a Dafny keyword).
   * `productionCompany` and `distributionPartner` are present on the built-in
   * sample titles only; items read from a board never carry them.
   */
  datatype Item = Item(
    id: string,
    name: string,
    year: string,
    genre: string,
    productionBudget: int,
    marketingBudget: int,
    projectedRevenue: int,
    status: string,
    director: string,
    contentType: string,
    priority: string,
    riskLevel: string,
    productionCompany: Option<string>,
    distributionPartner: Option<string>)
}
