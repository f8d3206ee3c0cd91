/**
 * A bill security: the immutable, validated static definition of a bill, a discount
 * instrument that pays one fixed notional amount. In Strata every instance comes from
 * the builder, which null-checks every field in declaration order and then runs the
 * validator. Here `BillSecurity` is a plain record that can be written down directly,
 * so `Valid` names the invariant and `Build` is proved to produce only valid records.
 */
module BillSecurities {
  import opened Wrappers
  import opened Basics
  import opened BillProducts

  /** The six properties of a bill security, in declaration order. */
  datatype Field =
    | InfoField
    | NotionalField
    | DayCountField
    | YieldConventionField
    | LegalEntityIdField
    | SettlementDateOffsetField

  /** The property name the null check reports. */
  function FieldName(f: Field): string
  {
    match f
    case InfoField => "info"
    case NotionalField => "notional"
    case DayCountField => "dayCount"
    case YieldConventionField => "yieldConvention"
    case LegalEntityIdField => "legalEntityId"
    case SettlementDateOffsetField => "settlementDateOffset"
  }

  /** Why building a bill security was refused; every case is an illegal-argument failure. */
  datatype Error =
    | Missing(field: Field)
    | NegativeSettlementOffset
    | NonPositiveNotional

  /** The message carried by the failure: the argument name for a null check, else the validator's text. */
  function Message(e: Error): string
  {
    match e
    case Missing(f) => FieldName(f)
    case NegativeSettlementOffset => "The settlement date offset must be non-negative"
    case NonPositiveNotional => "Notional must be strictly positive"
  }

  datatype BillSecurity = BillSecurity(
    info: SecurityInfo,
    notional: AdjustablePayment,
    dayCount: DayCount,
    yieldConvention: BillYieldConvention,
    legalEntityId: LegalEntityId,
    settlementDateOffset: DaysAdjustment)

  /** The invariants the validator establishes. */
  predicate Valid(s: BillSecurity)
  {
    s.settlementDateOffset.days >= 0 && s.notional.value.amount > 0.0
  }

  /** The validator: the settlement offset check runs before the notional check. */
  function Validate(s: BillSecurity): (r: Outcome<Error>)
    ensures r.Pass? <==> Valid(s)
    ensures s.settlementDateOffset.days < 0 ==> r == Fail(NegativeSettlementOffset)
    ensures s.settlementDateOffset.days >= 0 && s.notional.value.amount <= 0.0 ==> r == Fail(NonPositiveNotional)
  {
    if !(s.settlementDateOffset.days >= 0) then Fail(NegativeSettlementOffset)
    else if !(s.notional.value.amount > 0.0) then Fail(NonPositiveNotional)
    else Pass
  }

  // ---------------------------------------------------------------------------
  // Derived accessors

  /** The currency of the security, read from the notional payment and never stored on its own. */
  function CurrencyOf(s: BillSecurity): (c: Currency)
    ensures c == s.notional.value.currency
  {
    s.notional.value.currency
  }

  /** The identifier of the security, read from its info. */
  function SecurityIdOf(s: BillSecurity): SecurityId
  {
    s.info.id
  }

  /** The securities a bill is built on: none, whatever its fields. */
  function UnderlyingIds(s: BillSecurity): (ids: set<SecurityId>)
    ensures |ids| == 0
  {
    {}
  }

  // ---------------------------------------------------------------------------
  // Builder

  /** Strata's mutable `BillSecurity.Builder`, as a value: each property may still be unset. */
  datatype Builder = Builder(
    info: Option<SecurityInfo>,
    notional: Option<AdjustablePayment>,
    dayCount: Option<DayCount>,
    yieldConvention: Option<BillYieldConvention>,
    legalEntityId: Option<LegalEntityId>,
    settlementDateOffset: Option<DaysAdjustment>)

  /** Whether property `f` has been set in `b`. */
  predicate Has(b: Builder, f: Field)
  {
    match f
    case InfoField => b.info.Some?
    case NotionalField => b.notional.Some?
    case DayCountField => b.dayCount.Some?
    case YieldConventionField => b.yieldConvention.Some?
    case LegalEntityIdField => b.legalEntityId.Some?
    case SettlementDateOffsetField => b.settlementDateOffset.Some?
  }

  /** Whether every property has been set. */
  predicate Complete(b: Builder)
  {
    && b.info.Some? && b.notional.Some? && b.dayCount.Some?
    && b.yieldConvention.Some? && b.legalEntityId.Some? && b.settlementDateOffset.Some?
  }

  /** A fresh builder with nothing set. */
  function EmptyBuilder(): (b: Builder)
    ensures forall f: Field :: !Has(b, f)
  {
    Builder(None, None, None, None, None, None)
  }

  /** A builder initialised from every property of `s`. */
  function ToBuilder(s: BillSecurity): (b: Builder)
    ensures Complete(b)
  {
    Builder(Some(s.info), Some(s.notional), Some(s.dayCount), Some(s.yieldConvention),
            Some(s.legalEntityId), Some(s.settlementDateOffset))
  }

  /** Sets the info; every other property keeps its value. */
  function SetInfo(b: Builder, info: SecurityInfo): (r: Builder)
    ensures r.info == Some(info)
    ensures r.notional == b.notional && r.dayCount == b.dayCount && r.yieldConvention == b.yieldConvention
    ensures r.legalEntityId == b.legalEntityId && r.settlementDateOffset == b.settlementDateOffset
  {
    b.(info := Some(info))
  }

  /** Sets the notional payment; every other property keeps its value. */
  function SetNotional(b: Builder, notional: AdjustablePayment): (r: Builder)
    ensures r.notional == Some(notional)
    ensures r.info == b.info && r.dayCount == b.dayCount && r.yieldConvention == b.yieldConvention
    ensures r.legalEntityId == b.legalEntityId && r.settlementDateOffset == b.settlementDateOffset
  {
    b.(notional := Some(notional))
  }

  /** Sets the day count; every other property keeps its value. */
  function SetDayCount(b: Builder, dayCount: DayCount): (r: Builder)
    ensures r.dayCount == Some(dayCount)
    ensures r.info == b.info && r.notional == b.notional && r.yieldConvention == b.yieldConvention
    ensures r.legalEntityId == b.legalEntityId && r.settlementDateOffset == b.settlementDateOffset
  {
    b.(dayCount := Some(dayCount))
  }

  /** Sets the yield convention; every other property keeps its value. */
  function SetYieldConvention(b: Builder, yieldConvention: BillYieldConvention): (r: Builder)
    ensures r.yieldConvention == Some(yieldConvention)
    ensures r.info == b.info && r.notional == b.notional && r.dayCount == b.dayCount
    ensures r.legalEntityId == b.legalEntityId && r.settlementDateOffset == b.settlementDateOffset
  {
    b.(yieldConvention := Some(yieldConvention))
  }

  /** Sets the legal entity id; every other property keeps its value. */
  function SetLegalEntityId(b: Builder, legalEntityId: LegalEntityId): (r: Builder)
    ensures r.legalEntityId == Some(legalEntityId)
    ensures r.info == b.info && r.notional == b.notional && r.dayCount == b.dayCount
    ensures r.yieldConvention == b.yieldConvention && r.settlementDateOffset == b.settlementDateOffset
  {
    b.(legalEntityId := Some(legalEntityId))
  }

  /** Sets the settlement date offset; every other property keeps its value. */
  function SetSettlementDateOffset(b: Builder, settlementDateOffset: DaysAdjustment): (r: Builder)
    ensures r.settlementDateOffset == Some(settlementDateOffset)
    ensures r.info == b.info && r.notional == b.notional && r.dayCount == b.dayCount
    ensures r.yieldConvention == b.yieldConvention && r.legalEntityId == b.legalEntityId
  {
    b.(settlementDateOffset := Some(settlementDateOffset))
  }

  /**
   * Builds the security through the private constructor: null checks in declaration
   * order, then the validator. A success is valid and copies the builder exactly.
   */
  function Build(b: Builder): (r: Result<BillSecurity, Error>)
    ensures r.Success? <==>
      Complete(b) && b.settlementDateOffset.value.days >= 0 && b.notional.value.value.amount > 0.0
    ensures r.Success? ==> Valid(r.value) && ToBuilder(r.value) == b
    ensures !Complete(b) ==> r.Failure? && r.error.Missing? && !Has(b, r.error.field)
  {
    if b.info.None? then Failure(Missing(InfoField))
    else if b.notional.None? then Failure(Missing(NotionalField))
    else if b.dayCount.None? then Failure(Missing(DayCountField))
    else if b.yieldConvention.None? then Failure(Missing(YieldConventionField))
    else if b.legalEntityId.None? then Failure(Missing(LegalEntityIdField))
    else if b.settlementDateOffset.None? then Failure(Missing(SettlementDateOffsetField))
    else
      var s := BillSecurity(b.info.value, b.notional.value, b.dayCount.value,
                            b.yieldConvention.value, b.legalEntityId.value, b.settlementDateOffset.value);
      match Validate(s)
      case Pass => Success(s)
      case Fail(e) => Failure(e)
  }

  /** A copy of `s` with only the info replaced, made through the builder. */
  function WithInfo(s: BillSecurity, info: SecurityInfo): (r: Result<BillSecurity, Error>)
    ensures r.Success? <==> Valid(s)
    ensures r.Success? ==> Valid(r.value) && r.value.info == info
    ensures r.Success? ==>
              && r.value.notional == s.notional && r.value.dayCount == s.dayCount
              && r.value.yieldConvention == s.yieldConvention && r.value.legalEntityId == s.legalEntityId
              && r.value.settlementDateOffset == s.settlementDateOffset
  {
    Build(SetInfo(ToBuilder(s), info))
  }

  /** Java `equals`: field by field over all six properties. */
  function Equals(a: BillSecurity, b: BillSecurity): (r: bool)
    ensures r <==> a == b
  {
    a.info == b.info
    && a.notional == b.notional
    && a.dayCount == b.dayCount
    && a.yieldConvention == b.yieldConvention
    && a.legalEntityId == b.legalEntityId
    && a.settlementDateOffset == b.settlementDateOffset
  }

  // ---------------------------------------------------------------------------
  // Projections

  /** The product: the security's identifier and five economic fields; the reference data is unused. */
  function CreateProduct(s: BillSecurity, refData: ReferenceData): (p: Bill)
    ensures p.securityId == SecurityIdOf(s)
    ensures p.notional.value.currency == CurrencyOf(s)
    ensures Valid(s) ==> p.notional.value.amount > 0.0 && p.settlementDateOffset.days >= 0
  {
    Bill(SecurityIdOf(s), s.notional, s.dayCount, s.yieldConvention, s.legalEntityId, s.settlementDateOffset)
  }

  /** A trade over the product, with the quantity and decimal price passed through unchanged. */
  function CreateTrade(s: BillSecurity, info: TradeInfo, quantity: real, tradePrice: real,
                       refData: ReferenceData): (t: BillTrade)
    ensures t.info == info
    ensures t.product.securityId == SecurityIdOf(s) && t.product.notional == s.notional
    ensures t.quantity == quantity && t.price == tradePrice
  {
    BillTrade(info, CreateProduct(s, refData), quantity, tradePrice)
  }

  /** A position over the product given by a net quantity. */
  function CreatePosition(s: BillSecurity, positionInfo: PositionInfo, quantity: real,
                          refData: ReferenceData): (p: BillPosition)
    ensures p.info == positionInfo
    ensures p.product.securityId == SecurityIdOf(s) && p.product.notional == s.notional
    ensures NetQuantity(p) == quantity
  {
    BillPosition(positionInfo, CreateProduct(s, refData), Net(quantity))
  }

  /** A position over the product given by long and short quantities. */
  function CreatePositionLongShort(s: BillSecurity, positionInfo: PositionInfo,
                                   longQuantity: real, shortQuantity: real,
                                   refData: ReferenceData): (p: BillPosition)
    ensures p.info == positionInfo
    ensures p.product.securityId == SecurityIdOf(s) && p.product.notional == s.notional
    ensures NetQuantity(p) == longQuantity - shortQuantity
  {
    BillPosition(positionInfo, CreateProduct(s, refData), LongShort(longQuantity, shortQuantity))
  }

  // ---------------------------------------------------------------------------
  // The check order as data

  /** One of the checks building runs. */
  datatype Check = NotNull(field: Field) | OffsetNonNegative | NotionalPositive

  /** The checks in the order building runs them. */
  const CheckOrder: seq<Check> := [
    NotNull(InfoField), NotNull(NotionalField), NotNull(DayCountField),
    NotNull(YieldConventionField), NotNull(LegalEntityIdField), NotNull(SettlementDateOffsetField),
    OffsetNonNegative, NotionalPositive]

  /**
   * Whether `b` passes check `c`. A value check on a property that is still unset
   * passes vacuously, since a null check earlier in the order has already failed.
   */
  predicate Passes(b: Builder, c: Check)
  {
    match c
    case NotNull(f) => Has(b, f)
    case OffsetNonNegative => b.settlementDateOffset.Some? ==> b.settlementDateOffset.value.days >= 0
    case NotionalPositive => b.notional.Some? ==> b.notional.value.value.amount > 0.0
  }

  /** The error a failed check reports. */
  function Rejection(c: Check): Error
  {
    match c
    case NotNull(f) => Missing(f)
    case OffsetNonNegative => NegativeSettlementOffset
    case NotionalPositive => NonPositiveNotional
  }

  /** The index of the first check in `checks` that `b` fails, or `|checks|` if it passes them all. */
  function FirstFailure(b: Builder, checks: seq<Check>): (k: nat)
    ensures k <= |checks|
    ensures forall j :: 0 <= j < k ==> Passes(b, checks[j])
    ensures k < |checks| ==> !Passes(b, checks[k])
  {
    if |checks| == 0 then 0
    else if !Passes(b, checks[0]) then 0
    else 1 + FirstFailure(b, checks[1..])
  }
}
