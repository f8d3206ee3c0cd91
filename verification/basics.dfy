/**
 * The value types a bill security refers to. Their own behaviour (calendars, day-count
 * fractions, price/yield formulas) is not modelled: each is a plain value compared
 * structurally, identified by the names or codes it carries.
 */
module Basics {

  /** A currency, identified by its three-letter code. */
  datatype Currency = Currency(code: string)

  /** An amount of money in one currency. */
  datatype CurrencyAmount = CurrencyAmount(currency: Currency, amount: real)

  /** A calendar date, kept as its three components. */
  datatype Date = Date(year: int, month: int, day: int)

  /** A date together with the business-day rule that adjusts it, the rule kept by name. */
  datatype AdjustableDate = AdjustableDate(unadjusted: Date, adjustment: string)

  /** A single payment of a signed currency amount on an adjustable date. */
  datatype AdjustablePayment = AdjustablePayment(value: CurrencyAmount, date: AdjustableDate)

  /** A day-count convention, kept by name (for example "Act/360"). */
  datatype DayCount = DayCount(name: string)

  /** A bill yield convention, kept by name; its price/yield formulas are not modelled. */
  datatype BillYieldConvention = BillYieldConvention(name: string)

  /** A shift by a number of days on a holiday calendar, the calendar kept by name. */
  datatype DaysAdjustment = DaysAdjustment(days: int, calendar: string)

  /** A scheme-qualified identifier. */
  datatype StandardId = StandardId(scheme: string, value: string)

  /** The identifier of a security. */
  datatype SecurityId = SecurityId(standardId: StandardId)

  /** The identifier of a legal entity, such as the issuer of a bill. */
  datatype LegalEntityId = LegalEntityId(standardId: StandardId)

  /** The standard security information: the identifier and a bag of attributes. */
  datatype SecurityInfo = SecurityInfo(id: SecurityId, attributes: map<string, string>)

  /** Additional information attached to a trade. */
  datatype TradeInfo = TradeInfo(attributes: map<string, string>)

  /** Additional information attached to a position. */
  datatype PositionInfo = PositionInfo(attributes: map<string, string>)

  /** Reference data, a lookup service reduced to a map; a bill never consults it. */
  datatype ReferenceData = ReferenceData(entries: map<string, string>)
}
