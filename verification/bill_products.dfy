/**
 * The forms a bill security is projected into: the product, a trade and a position.
 * Their own constructors' validation is not part of this model, so they are plain records.
 */
module BillProducts {
  import opened Basics

  /** The bill product: the economic terms of the security, with its identifier but without its info. */
  datatype Bill = Bill(
    securityId: SecurityId,
    notional: AdjustablePayment,
    dayCount: DayCount,
    yieldConvention: BillYieldConvention,
    legalEntityId: LegalEntityId,
    settlementDateOffset: DaysAdjustment)

  /** A trade in a bill: quantity and a decimal price (0.9932 for 99.32%). */
  datatype BillTrade = BillTrade(info: TradeInfo, product: Bill, quantity: real, price: real)

  /** How a position's size is given: one net quantity, or separate long and short quantities. */
  datatype PositionQuantity = Net(quantity: real) | LongShort(longQuantity: real, shortQuantity: real)

  /** A position in a bill. */
  datatype BillPosition = BillPosition(info: PositionInfo, product: Bill, size: PositionQuantity)

  /** The net quantity of a position: long minus short for a long/short position. */
  function NetQuantity(p: BillPosition): real
  {
    match p.size
    case Net(q) => q
    case LongShort(l, s) => l - s
  }
}
