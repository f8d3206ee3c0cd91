/** Properties relating the operations of a bill security to one another. */
module BillSecurityProperties {
  import opened Wrappers
  import opened Basics
  import opened BillProducts
  import opened BillSecurities

  // ---------------------------------------------------------------------------
  // Construction

  /** Building reports exactly the error of the first check, in `CheckOrder`, that the builder fails. */
  lemma BuildReportsFirstFailedCheck(b: Builder)
    ensures var k := FirstFailure(b, CheckOrder);
      if k == |CheckOrder| then Build(b).Success? else Build(b) == Failure(Rejection(CheckOrder[k]))
  {
    var k := FirstFailure(b, CheckOrder);
    // Every check before the k-th passed, so building gets as far as the k-th and stops there.
    assert k > 0 ==> Passes(b, CheckOrder[0]);
    assert k > 1 ==> Passes(b, CheckOrder[1]);
    assert k > 2 ==> Passes(b, CheckOrder[2]);
    assert k > 3 ==> Passes(b, CheckOrder[3]);
    assert k > 4 ==> Passes(b, CheckOrder[4]);
    assert k > 5 ==> Passes(b, CheckOrder[5]);
    assert k > 6 ==> Passes(b, CheckOrder[6]);
    assert k > 7 ==> Passes(b, CheckOrder[7]);
    assert k in {0, 1, 2, 3, 4, 5, 6, 7, 8};
  }

  /** Building succeeds exactly when every property is set and the built record is valid. */
  lemma BuildSucceedsIffValid(b: Builder)
    ensures Build(b).Success? <==> Complete(b) && Valid(BillSecurity(b.info.value, b.notional.value,
      b.dayCount.value, b.yieldConvention.value, b.legalEntityId.value, b.settlementDateOffset.value))
  {
  }

  /** With every property set, a negative offset is reported even when the notional is also bad. */
  lemma OffsetCheckPrecedesNotionalCheck(b: Builder)
    requires Complete(b)
    requires b.settlementDateOffset.value.days < 0
    ensures Build(b) == Failure(NegativeSettlementOffset)
  {
  }

  // ---------------------------------------------------------------------------
  // Builder round trips

  /** Rebuilding a security from its own builder gives it back, exactly when it is valid. */
  lemma ToBuilderBuildRoundTrip(s: BillSecurity)
    ensures Valid(s) ==> Build(ToBuilder(s)) == Success(s)
    ensures !Valid(s) ==> Build(ToBuilder(s)).Failure?
  {
  }

  /** The builders that build are exactly the builders of valid securities. */
  lemma BuildsExactlyValidSecurityBuilders(b: Builder)
    ensures Build(b).Success? <==> exists s :: Valid(s) && ToBuilder(s) == b
  {
  }

  /** Each setter on a security's builder gives the builder of that security with the one property replaced. */
  lemma SettersReplaceOneProperty(s: BillSecurity, info: SecurityInfo, notional: AdjustablePayment,
                                  dayCount: DayCount, yieldConvention: BillYieldConvention,
                                  legalEntityId: LegalEntityId, offset: DaysAdjustment)
    ensures SetInfo(ToBuilder(s), info) == ToBuilder(s.(info := info))
    ensures SetNotional(ToBuilder(s), notional) == ToBuilder(s.(notional := notional))
    ensures SetDayCount(ToBuilder(s), dayCount) == ToBuilder(s.(dayCount := dayCount))
    ensures SetYieldConvention(ToBuilder(s), yieldConvention) == ToBuilder(s.(yieldConvention := yieldConvention))
    ensures SetLegalEntityId(ToBuilder(s), legalEntityId) == ToBuilder(s.(legalEntityId := legalEntityId))
    ensures SetSettlementDateOffset(ToBuilder(s), offset) == ToBuilder(s.(settlementDateOffset := offset))
  {
  }

  /** Setters on two different properties give the same builder in either order. */
  lemma SettersCommute(b: Builder, info: SecurityInfo, notional: AdjustablePayment, dayCount: DayCount,
                       yieldConvention: BillYieldConvention, legalEntityId: LegalEntityId, offset: DaysAdjustment)
    ensures SetNotional(SetInfo(b, info), notional) == SetInfo(SetNotional(b, notional), info)
    ensures SetDayCount(SetInfo(b, info), dayCount) == SetInfo(SetDayCount(b, dayCount), info)
    ensures SetYieldConvention(SetInfo(b, info), yieldConvention) == SetInfo(SetYieldConvention(b, yieldConvention), info)
    ensures SetLegalEntityId(SetInfo(b, info), legalEntityId) == SetInfo(SetLegalEntityId(b, legalEntityId), info)
    ensures SetSettlementDateOffset(SetInfo(b, info), offset) == SetInfo(SetSettlementDateOffset(b, offset), info)
    ensures SetDayCount(SetNotional(b, notional), dayCount) == SetNotional(SetDayCount(b, dayCount), notional)
    ensures SetYieldConvention(SetNotional(b, notional), yieldConvention) == SetNotional(SetYieldConvention(b, yieldConvention), notional)
    ensures SetLegalEntityId(SetNotional(b, notional), legalEntityId) == SetNotional(SetLegalEntityId(b, legalEntityId), notional)
    ensures SetSettlementDateOffset(SetNotional(b, notional), offset) == SetNotional(SetSettlementDateOffset(b, offset), notional)
    ensures SetYieldConvention(SetDayCount(b, dayCount), yieldConvention) == SetDayCount(SetYieldConvention(b, yieldConvention), dayCount)
    ensures SetLegalEntityId(SetDayCount(b, dayCount), legalEntityId) == SetDayCount(SetLegalEntityId(b, legalEntityId), dayCount)
    ensures SetSettlementDateOffset(SetDayCount(b, dayCount), offset) == SetDayCount(SetSettlementDateOffset(b, offset), dayCount)
    ensures SetLegalEntityId(SetYieldConvention(b, yieldConvention), legalEntityId) == SetYieldConvention(SetLegalEntityId(b, legalEntityId), yieldConvention)
    ensures SetSettlementDateOffset(SetYieldConvention(b, yieldConvention), offset) == SetYieldConvention(SetSettlementDateOffset(b, offset), yieldConvention)
    ensures SetSettlementDateOffset(SetLegalEntityId(b, legalEntityId), offset) == SetLegalEntityId(SetSettlementDateOffset(b, offset), legalEntityId)
  {
  }

  /** Setting the same property twice keeps only the later value. */
  lemma SettersLastWins(b: Builder, info: SecurityInfo, notional: AdjustablePayment, dayCount: DayCount,
                        yieldConvention: BillYieldConvention, legalEntityId: LegalEntityId, offset: DaysAdjustment,
                        info2: SecurityInfo, notional2: AdjustablePayment, dayCount2: DayCount,
                        yieldConvention2: BillYieldConvention, legalEntityId2: LegalEntityId, offset2: DaysAdjustment)
    ensures SetInfo(SetInfo(b, info), info2) == SetInfo(b, info2)
    ensures SetNotional(SetNotional(b, notional), notional2) == SetNotional(b, notional2)
    ensures SetDayCount(SetDayCount(b, dayCount), dayCount2) == SetDayCount(b, dayCount2)
    ensures SetYieldConvention(SetYieldConvention(b, yieldConvention), yieldConvention2) == SetYieldConvention(b, yieldConvention2)
    ensures SetLegalEntityId(SetLegalEntityId(b, legalEntityId), legalEntityId2) == SetLegalEntityId(b, legalEntityId2)
    ensures SetSettlementDateOffset(SetSettlementDateOffset(b, offset), offset2) == SetSettlementDateOffset(b, offset2)
  {
  }

  // ---------------------------------------------------------------------------
  // withInfo

  /** Replacing the info with the one already held gives the same security back. */
  lemma WithSameInfoIsIdentity(s: BillSecurity, info: SecurityInfo)
    ensures WithInfo(s, info) == Success(s) <==> Valid(s) && info == s.info
  {
  }

  /** The result of `WithInfo` is `s` with only its info field replaced. */
  lemma WithInfoChangesOnlyInfo(s: BillSecurity, info: SecurityInfo)
    requires Valid(s)
    ensures WithInfo(s, info) == Success(s.(info := info))
  {
  }

  /** Two successive info updates amount to the last one. */
  lemma WithInfoLastWins(s: BillSecurity, i: SecurityInfo, j: SecurityInfo)
    requires Valid(s)
    ensures WithInfo(WithInfo(s, i).value, j) == WithInfo(s, j)
  {
  }

  /** The currency follows the notional: an info update keeps it, a notional update takes the new one's. */
  lemma CurrencyFollowsNotional(s: BillSecurity, info: SecurityInfo, notional: AdjustablePayment)
    requires Valid(s)
    ensures CurrencyOf(WithInfo(s, info).value) == CurrencyOf(s)
    ensures Build(SetNotional(ToBuilder(s), notional)).Success? ==>
      CurrencyOf(Build(SetNotional(ToBuilder(s), notional)).value) == notional.value.currency
  {
  }

  /** No security, whatever its fields, has an underlying; in particular not its own identifier. */
  lemma NoUnderlyings(s: BillSecurity, t: BillSecurity)
    ensures UnderlyingIds(s) == UnderlyingIds(t)
    ensures SecurityIdOf(s) !in UnderlyingIds(s)
  {
  }

  // ---------------------------------------------------------------------------
  // Projections

  /** The product keeps the five economic fields of the security unchanged. */
  lemma ProductKeepsEconomics(s: BillSecurity, refData: ReferenceData)
    ensures var p := CreateProduct(s, refData);
      p.notional == s.notional && p.dayCount == s.dayCount && p.yieldConvention == s.yieldConvention
      && p.legalEntityId == s.legalEntityId && p.settlementDateOffset == s.settlementDateOffset
  {
  }

  /**
   * Two securities give the same product, under any reference data, exactly when they share
   * an identifier and the five economic fields; the rest of the info does not reach the product.
   */
  lemma ProductDeterminedByIdAndEconomics(s: BillSecurity, t: BillSecurity, r1: ReferenceData, r2: ReferenceData)
    ensures CreateProduct(s, r1) == CreateProduct(t, r2) <==>
      SecurityIdOf(s) == SecurityIdOf(t) && s.notional == t.notional && s.dayCount == t.dayCount
      && s.yieldConvention == t.yieldConvention && s.legalEntityId == t.legalEntityId
      && s.settlementDateOffset == t.settlementDateOffset
  {
  }

  /** Re-tagging a security with info that keeps its identifier leaves its product unchanged. */
  lemma WithInfoKeepsProduct(s: BillSecurity, info: SecurityInfo, refData: ReferenceData)
    requires Valid(s) && info.id == s.info.id
    ensures CreateProduct(WithInfo(s, info).value, refData) == CreateProduct(s, refData)
  {
  }

  /** A trade's product is the security's product, and the trade ignores the reference data. */
  lemma TradeOverProduct(s: BillSecurity, info: TradeInfo, quantity: real, price: real,
                         r1: ReferenceData, r2: ReferenceData)
    ensures CreateTrade(s, info, quantity, price, r1).product == CreateProduct(s, r2)
    ensures CreateTrade(s, info, quantity, price, r1) == CreateTrade(s, info, quantity, price, r2)
  {
  }

  /** Both kinds of position are over the security's product and ignore the reference data. */
  lemma PositionsOverProduct(s: BillSecurity, info: PositionInfo, quantity: real,
                             longQuantity: real, shortQuantity: real, r1: ReferenceData, r2: ReferenceData)
    ensures CreatePosition(s, info, quantity, r1).product == CreateProduct(s, r2)
    ensures CreatePositionLongShort(s, info, longQuantity, shortQuantity, r1).product == CreateProduct(s, r2)
    ensures CreatePosition(s, info, quantity, r1).size == Net(quantity)
    ensures CreatePositionLongShort(s, info, longQuantity, shortQuantity, r1).size
      == LongShort(longQuantity, shortQuantity)
  {
  }

  /** A net position and a long-only position of the same size have the same net quantity. */
  lemma NetMatchesLongShort(s: BillSecurity, info: PositionInfo, quantity: real, refData: ReferenceData)
    ensures NetQuantity(CreatePosition(s, info, quantity, refData))
      == NetQuantity(CreatePositionLongShort(s, info, quantity, 0.0, refData))
  {
  }

  // ---------------------------------------------------------------------------
  // Worked examples

  function UsTreasuryBuilder(amount: real, offsetDays: int): Builder
  {
    var usd := Currency("USD");
    var info := SecurityInfo(SecurityId(StandardId("OG-Ticker", "US-BILL")), map[]);
    var notional := AdjustablePayment(CurrencyAmount(usd, amount),
                                      AdjustableDate(Date(2024, 6, 1), "Following"));
    var b := SetInfo(EmptyBuilder(), info);
    var b := SetNotional(b, notional);
    var b := SetDayCount(b, DayCount("Act/360"));
    var b := SetYieldConvention(b, BillYieldConvention("Discount"));
    var b := SetLegalEntityId(b, LegalEntityId(StandardId("OG-Ticker", "US-TREASURY")));
    SetSettlementDateOffset(b, DaysAdjustment(offsetDays, "USNY"))
  }

  /** A one-million-dollar bill settling one day later builds, and its currency is USD. */
  lemma UsTreasuryBillBuilds()
    ensures Build(UsTreasuryBuilder(1000000.0, 1)).Success?
    ensures CurrencyOf(Build(UsTreasuryBuilder(1000000.0, 1)).value) == Currency("USD")
  {
  }

  /** A negative notional is refused with the notional message. */
  lemma NegativeNotionalRefused()
    ensures Build(UsTreasuryBuilder(-5.0, 1)) == Failure(NonPositiveNotional)
    ensures Message(NonPositiveNotional) == "Notional must be strictly positive"
  {
  }

  /** A negative settlement offset is refused with the offset message. */
  lemma NegativeOffsetRefused()
    ensures Build(UsTreasuryBuilder(1000000.0, -1)) == Failure(NegativeSettlementOffset)
    ensures Message(NegativeSettlementOffset) == "The settlement date offset must be non-negative"
  {
  }

  /** A trade at 0.9932 keeps that price exactly. */
  lemma TradePriceKeptAsDecimal(refData: ReferenceData)
    ensures var s := Build(UsTreasuryBuilder(1000000.0, 1)).value;
      var t := CreateTrade(s, TradeInfo(map[]), 100.0, 0.9932, refData);
      t.price == 0.9932 && t.quantity == 100.0 && t.product == CreateProduct(s, refData)
  {
  }

  /** An empty builder reports the info property first. */
  lemma EmptyBuilderReportsInfo()
    ensures Build(EmptyBuilder()) == Failure(Missing(InfoField))
  {
  }
}
