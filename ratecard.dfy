/** The rate-card response that the report renderer reads.

    Every field the billing SDK declares as a pointer is an `Option` here: `None` stands for a
    nil pointer. Values the program only hands to `fmt.Println` (effective dates, float credits
    and charges, the tiered-discount map, meter UUIDs) are kept as the text they print as. */
module RateCard {

  datatype Option<+T> = None | Some(value: T)

  /** One billing condition of an offer. The SDK returns these behind an interface and the
      renderer switches on their dynamic type; `Unsupported` is every other dynamic type
      (including a nil interface value). */
  datatype OfferTerm =
    | MonetaryCredit(name: string, effectiveDate: Option<string>, credit: Option<string>,
                     excludedMeterIds: Option<seq<string>>)
    | MonetaryCommitment(name: string, effectiveDate: Option<string>, tieredDiscount: Option<string>,
                         excludedMeterIds: Option<seq<string>>)
    | RecurringCharge(name: string, effectiveDate: Option<string>, recurringCharge: Option<string>)
    | Unsupported

  /** A billable usage dimension. */
  datatype MeterInfo = MeterInfo(meterName: Option<string>, meterId: Option<string>)

  /** The result of one rate-card query. */
  datatype RateCardInfo = RateCardInfo(
    currency: Option<string>,
    locale: Option<string>,
    isTaxIncluded: Option<bool>,
    offerTerms: Option<seq<OfferTerm>>,
    meters: Option<seq<MeterInfo>>)

  /** The pointer fields that the renderer dereferences for this variant are all non-nil. */
  predicate TermRenderable(t: OfferTerm) {
    match t
    case MonetaryCredit(_, date, credit, ids) => date.Some? && credit.Some? && ids.Some?
    case MonetaryCommitment(_, date, discount, ids) => date.Some? && discount.Some? && ids.Some?
    case RecurringCharge(_, date, charge) => date.Some? && charge.Some?
    case Unsupported => true
  }

  predicate TermsRenderable(ts: seq<OfferTerm>) {
    forall i :: 0 <= i < |ts| ==> TermRenderable(ts[i])
  }

  /** Both pointer fields a meter block dereferences are non-nil. */
  predicate MeterRenderable(m: MeterInfo) {
    m.meterName.Some? && m.meterId.Some?
  }

  predicate MetersRenderable(ms: seq<MeterInfo>) {
    forall i :: 0 <= i < |ms| ==> MeterRenderable(ms[i])
  }
}
