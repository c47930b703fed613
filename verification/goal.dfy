/**
  A savings goal: a target, the amount saved so far, an optional deadline and icon, and
  optionally the Amazon product the user is saving for, with its price when chosen.
 */
module Goals {
  import opened Wrappers
  import opened Transactions

  /** Goal identities. Fresh identities are supplied by the caller. */
  type Uuid = nat

  /** The product a goal saves for: its price when the goal was made and its current one. */
  datatype AmazonProductInfo = AmazonProductInfo(
    title: string,
    initialPrice: Amount,
    currentPrice: Amount,
    productUrl: string,
    lastUpdated: Date)

  datatype Goal = Goal(
    id: Uuid,
    name: string,
    targetAmount: Amount,
    currentAmount: Amount,
    deadline: Option<Date>,
    icon: string,
    amazonProduct: Option<AmazonProductInfo>)
}
