# BillSecurity in Dafny

A model of OpenGamma Strata's `BillSecurity`. A bill is a discount instrument that pays
one fixed notional amount at maturity. `BillSecurity` is its immutable, validated static
definition. It has six properties: the security info, the notional payment, the day count,
the yield convention, the issuer's legal-entity id and the settlement date offset.

The model covers:

- how an instance is built: null checks in property order, then a two-clause validator;
- the derived accessors: the currency and the underlying ids;
- the copy-on-write update `withInfo`, which goes through the builder;
- structural equality;
- the three projections into a `Bill` product, a `BillTrade` and a `BillPosition`.

Files:

- `wrappers.dfy` (`Wrappers`): `Option`, which stands for a Java `null`, plus
  `Result` and `Outcome`, which stand for a thrown exception.
- `basics.dfy` (`Basics`): the referenced value types: currency, amount, adjustable
  payment, day count, yield convention, days adjustment, identifiers, info records and
  reference data. Each is a plain record compared structurally. `DaysAdjustment` carries
  its integer `days`.
- `bill_products.dfy` (`BillProducts`): `Bill`, `BillTrade` and `BillPosition` as
  plain records. A position's size is either `Net(quantity)` or
  `LongShort(long, short)`, and `NetQuantity` reads it as long minus short.
- `bill_security.dfy` (`BillSecurities`): the security record, `Valid`, the validator,
  the builder, `Build`, `WithInfo`, `Equals` and the projections. It also states the
  order of the checks as data: `CheckOrder`, `Passes`, `Rejection` and
  `FirstFailure`.
- `bill_security_properties.dfy` (`BillSecurityProperties`): lemmas relating these
  operations, plus worked examples.

Java's `double` quantities, prices and notional amounts are modelled as `real`. Strata's code
only compares and copies them.

## Model

| member | source | states |
|---|---|---|
| BillSecurities.Validate | modules/product/src/main/java/com/opengamma/strata/product/bond/BillSecurity.java:94-97 | the validator passes exactly for a valid security; a negative offset fails with the offset error whatever the notional; a non-negative offset with a non-positive notional fails with the notional error |
| BillSecurities.Build | modules/product/src/main/java/com/opengamma/strata/product/bond/BillSecurity.java:167-187 | building succeeds exactly when all six properties are set, the offset days are at least 0 and the notional amount is above 0; a success is valid and copies the builder's values; a missing property fails with a null-check error for a property that is indeed unset |
| BillSecurities.FirstFailure | modules/product/src/main/java/com/opengamma/strata/product/bond/BillSecurity.java:174-186 | reference definition of "the first failing check": every earlier check passes and the one it points to fails |
| BillSecurityProperties.BuildReportsFirstFailedCheck | modules/product/src/main/java/com/opengamma/strata/product/bond/BillSecurity.java:174-186 | building fails with exactly the error of the first check, in the fixed order (six null checks in property order, then offset, then notional), that the builder fails, and succeeds when none fails |
| BillSecurityProperties.BuildSucceedsIffValid | modules/product/src/main/java/com/opengamma/strata/product/bond/BillSecurity.java:180-186 | building succeeds exactly when every property is set and the record it would assign is valid |
| BillSecurityProperties.OffsetCheckPrecedesNotionalCheck | modules/product/src/main/java/com/opengamma/strata/product/bond/BillSecurity.java:95-96 | with all properties set and a negative offset, the offset error is reported even if the notional is also non-positive |
| BillSecurities.EmptyBuilder | modules/product/src/main/java/com/opengamma/strata/product/bond/BillSecurity.java:163-165 | a new builder has no property set |
| BillSecurities.ToBuilder | modules/product/src/main/java/com/opengamma/strata/product/bond/BillSecurity.java:507-514 | the copy builder has every property set |
| BillSecurities.SetInfo | modules/product/src/main/java/com/opengamma/strata/product/bond/BillSecurity.java:589-593 | the setter stores the given info and leaves the values of the other five properties exactly as they were |
| BillSecurities.SetNotional | modules/product/src/main/java/com/opengamma/strata/product/bond/BillSecurity.java:600-604 | the setter stores the given notional and leaves the values of the other five properties exactly as they were |
| BillSecurities.SetDayCount | modules/product/src/main/java/com/opengamma/strata/product/bond/BillSecurity.java:613-617 | the setter stores the given day count and leaves the values of the other five properties exactly as they were |
| BillSecurities.SetYieldConvention | modules/product/src/main/java/com/opengamma/strata/product/bond/BillSecurity.java:626-630 | the setter stores the given yield convention and leaves the values of the other five properties exactly as they were |
| BillSecurities.SetLegalEntityId | modules/product/src/main/java/com/opengamma/strata/product/bond/BillSecurity.java:639-643 | the setter stores the given legal entity id and leaves the values of the other five properties exactly as they were |
| BillSecurities.SetSettlementDateOffset | modules/product/src/main/java/com/opengamma/strata/product/bond/BillSecurity.java:652-656 | the setter stores the given settlement date offset and leaves the values of the other five properties exactly as they were |
| BillSecurityProperties.SettersReplaceOneProperty | modules/product/src/main/java/com/opengamma/strata/product/bond/BillSecurity.java:589-656 | each setter applied to a security's builder gives the builder of that security with just that property replaced |
| BillSecurityProperties.SettersCommute | modules/product/src/main/java/com/opengamma/strata/product/bond/BillSecurity.java:589-656 | for each of the 15 pairs of different setters, applying them in either order gives the same builder |
| BillSecurityProperties.SettersLastWins | modules/product/src/main/java/com/opengamma/strata/product/bond/BillSecurity.java:589-656 | for each of the six setters, setting the property twice equals setting it once to the later value |
| BillSecurityProperties.ToBuilderBuildRoundTrip | modules/product/src/main/java/com/opengamma/strata/product/bond/BillSecurity.java:265-267 | building from a security's own builder gives back an equal security exactly when it is valid, and fails otherwise |
| BillSecurityProperties.BuildsExactlyValidSecurityBuilders | modules/product/src/main/java/com/opengamma/strata/product/bond/BillSecurity.java:571-579 | a builder builds exactly when it is the builder of some valid security |
| BillSecurities.WithInfo | modules/product/src/main/java/com/opengamma/strata/product/bond/BillSecurity.java:110-113 | the update succeeds exactly for a valid security; the result is valid, holds the new info and has the other five properties unchanged |
| BillSecurityProperties.WithInfoChangesOnlyInfo | modules/product/src/main/java/com/opengamma/strata/product/bond/BillSecurity.java:110-113 | for a valid security the update yields that security with only its info replaced |
| BillSecurityProperties.WithSameInfoIsIdentity | modules/product/src/main/java/com/opengamma/strata/product/bond/BillSecurity.java:110-113 | the update gives back the original exactly when the security is valid and the new info equals the old |
| BillSecurityProperties.WithInfoLastWins | modules/product/src/main/java/com/opengamma/strata/product/bond/BillSecurity.java:110-113 | two successive info updates equal the last update alone |
| BillSecurities.Equals | modules/product/src/main/java/com/opengamma/strata/product/bond/BillSecurity.java:269-284 | the field-by-field comparison holds exactly when the two securities are the same value |
| BillSecurities.CurrencyOf | modules/product/src/main/java/com/opengamma/strata/product/bond/BillSecurity.java:100-103 | the currency is the notional's currency, read through and not stored (CurrencyFollowsNotional shows it tracks a replaced notional and survives an info update) |
| BillSecurities.UnderlyingIds | modules/product/src/main/java/com/opengamma/strata/product/bond/BillSecurity.java:105-108 | the set of underlying ids has no element, whatever the security (NoUnderlyings shows it is the same for every security) |
| BillSecurityProperties.CurrencyFollowsNotional | modules/product/src/main/java/com/opengamma/strata/product/bond/BillSecurity.java:100-103 | the currency is never stored on its own: an info update keeps it, and replacing the notional makes it the new notional's currency |
| BillSecurityProperties.NoUnderlyings | modules/product/src/main/java/com/opengamma/strata/product/bond/BillSecurity.java:105-108 | every security has the same underlying ids, the empty set, so never its own identifier |
| BillSecurities.CreateProduct | modules/product/src/main/java/com/opengamma/strata/product/bond/BillSecurity.java:116-119 | the product's id is the security's id and its currency is the security's; the product of a valid security has a positive notional and a non-negative offset |
| BillSecurityProperties.ProductKeepsEconomics | modules/product/src/main/java/com/opengamma/strata/product/bond/BillSecurity.java:116-119 | the product's notional, day count, yield convention, legal entity and offset equal the security's |
| BillSecurityProperties.ProductDeterminedByIdAndEconomics | modules/product/src/main/java/com/opengamma/strata/product/bond/BillSecurity.java:116-119 | two securities give the same product, under any two reference data, exactly when they share the id and the five economic properties |
| BillSecurityProperties.WithInfoKeepsProduct | modules/product/src/main/java/com/opengamma/strata/product/bond/BillSecurity.java:110-119 | an info update that keeps the identifier leaves the product unchanged |
| BillSecurities.CreateTrade | modules/product/src/main/java/com/opengamma/strata/product/bond/BillSecurity.java:121-124 | the trade carries the trade info, quantity and price passed in, unchanged, and its product carries the security's id and notional |
| BillSecurityProperties.TradeOverProduct | modules/product/src/main/java/com/opengamma/strata/product/bond/BillSecurity.java:121-124 | the trade's product equals the security's product under any reference data, and the trade does not depend on the reference data |
| BillSecurities.CreatePosition | modules/product/src/main/java/com/opengamma/strata/product/bond/BillSecurity.java:126-129 | the net position carries the position info passed in, its product carries the security's id and notional, and its net quantity is the one passed in |
| BillSecurities.CreatePositionLongShort | modules/product/src/main/java/com/opengamma/strata/product/bond/BillSecurity.java:131-139 | the long/short position carries the position info passed in, its product carries the security's id and notional, and its net quantity is long minus short |
| BillSecurityProperties.PositionsOverProduct | modules/product/src/main/java/com/opengamma/strata/product/bond/BillSecurity.java:126-139 | both positions are over the security's product under any reference data and keep their quantities unchanged |
| BillSecurityProperties.NetMatchesLongShort | modules/product/src/main/java/com/opengamma/strata/product/bond/BillSecurity.java:126-139 | a net position of q and a long/short position of (q, 0) have the same net quantity |
| BillSecurityProperties.UsTreasuryBillBuilds | modules/product/src/main/java/com/opengamma/strata/product/bond/BillSecurity.java:167-187 | a USD 1,000,000 bill with a one-day offset builds, and its currency is USD |
| BillSecurityProperties.NegativeNotionalRefused | modules/product/src/main/java/com/opengamma/strata/product/bond/BillSecurity.java:96 | a notional of -5 is refused with "Notional must be strictly positive" |
| BillSecurityProperties.NegativeOffsetRefused | modules/product/src/main/java/com/opengamma/strata/product/bond/BillSecurity.java:95 | an offset of -1 days is refused with "The settlement date offset must be non-negative" |
| BillSecurityProperties.TradePriceKeptAsDecimal | modules/product/src/main/java/com/opengamma/strata/product/bond/BillSecurity.java:43-45 | a trade at 0.9932 keeps that decimal price and the quantity exactly, over the security's product |
| BillSecurityProperties.EmptyBuilderReportsInfo | modules/product/src/main/java/com/opengamma/strata/product/bond/BillSecurity.java:174 | building from an empty builder reports the info property first |

## Left out

- The Joda-Beans meta-bean machinery is not modelled: the meta-property map, `propertyGet`, the builder's get and set by property name, and `MetaBean.register`. It is reflection glue.
- `hashCode`, `toString` and serialization are not modelled. They only format values or register types at runtime.
- The builder setters are not modelled as throwing on a `null` argument. In the model their arguments are values and cannot be null. Only properties that were never set can be missing.
- The text of a null-check failure is not modelled. That text comes from the Joda-Beans null check, which is not part of this model. `Message` gives only the property name for it.
- The price/yield formulas of `BillYieldConvention`, the year fractions of `DayCount` and the business-day calendars of `DaysAdjustment` are not modelled. Each is kept as a named value, because its code is not part of this model.
- `ReferenceData` is not modelled as a lookup service. It is taken as a parameter and never consulted, as in Strata's `BillSecurity`.
- Validation inside the `Bill` constructor, `BillTrade`, `BillPosition.ofNet` and `BillPosition.ofLongShort` is not modelled. So is the way `ofNet` might split a net quantity into long and short parts. Those classes are not part of this model, so the results are plain records that keep the size as given.
- Java `double` is modelled as `real`. NaN, infinities and rounding are not represented. A NaN notional would fail the positive-amount check in Java.
- BillSecurities.Equals: the comparison takes two bill securities, so the Java cases of comparing with `null` or with an object of another class, which return false, are not modelled; the identity shortcut is covered because equal values compare equal.
- `SecurityIdOf` reads the identifier from the info. The Java `getSecurityId` default method it stands for is not part of this model.
