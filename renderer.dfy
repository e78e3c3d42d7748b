/** The rate-card report renderer of main.go: `getLen`, `printOT`, `printMI` and `printRC`.

    Standard output is a trace of lines (`Trace`), one entry per `fmt.Println` call, without
    the newline. Each printing method takes the trace written so far and returns it extended
    by what it prints; the functions `TermsReport`, `MetersReport` and `Report` say what that
    extension is. */
module Renderer {
  import opened RateCard

  type Trace = seq<string>

  /** The display cap that `getLen` applies to every list it is asked about. */
  const DisplayCap: nat := 3

  const Separator := "====="
  const NotSupported := "Not supported"
  const OfferTermsHeading := "OfferTerms:"
  const MetersHeading := "Meters: "

  /** The argument of `getLen` as its reflection sees it: a slice of some length, or anything else. */
  datatype Dynamic = Slice(length: nat) | NonSlice

  /** `getLen`: how many elements of a list are displayed. */
  function GetLen(v: Dynamic): (r: nat)
    ensures v.NonSlice? ==> r == 0
    ensures v.Slice? ==> r <= v.length && r <= DisplayCap
    ensures v.Slice? ==> r == v.length || r == DisplayCap
  {
    match v
    case NonSlice => 0
    case Slice(n) => if n > DisplayCap then DisplayCap else n
  }

  /** The re-slice `s[:getLen(s)]`: the displayed prefix of a list. */
  function Shown<T>(s: seq<T>): (r: seq<T>)
    ensures |r| <= |s| && r == s[..|r|]
    ensures |r| <= DisplayCap
    ensures |r| < DisplayCap ==> r == s
  {
    s[..GetLen(Slice(|s|))]
  }

  /** Appending to a trace in two steps is appending once. */
  lemma AppendAssoc(a: Trace, b: Trace, c: Trace)
    ensures (a + b) + c == a + (b + c)
  {
  }

  /** The line `fmt.Println(caption, value)` writes: operands separated by one space. */
  function PrintlnLine(caption: string, value: string): string {
    caption + " " + value
  }

  /** How `fmt.Println` renders a bool. */
  function ShowBool(b: bool): string {
    if b then "true" else "false"
  }

  /** How `fmt.Println` renders a slice: its elements between brackets, separated by spaces. */
  function ShowList(items: seq<string>): string {
    "[" + JoinSpaced(items) + "]"
  }

  function JoinSpaced(items: seq<string>): string {
    if items == [] then ""
    else if |items| == 1 then items[0]
    else items[0] + " " + JoinSpaced(items[1..])
  }

  /** A line that can only come from inside a term or meter block: the separator, the
      "not supported" marker, or a tab-indented field line. */
  predicate BodyLine(line: string) {
    line == Separator || line == NotSupported || (|line| > 0 && line[0] == '\t')
  }

  /** The field lines printed for one offer term, before its separator (the type switch). */
  function TermLines(t: OfferTerm): (r: Trace)
    requires TermRenderable(t)
    ensures forall j :: 0 <= j < |r| ==> BodyLine(r[j]) && r[j] != Separator
    ensures t.MonetaryCredit? || t.MonetaryCommitment? ==>
      |r| == 4 && r[3] == PrintlnLine("\tMeterIDs: ", ShowList(Shown(t.excludedMeterIds.value)))
    ensures t.RecurringCharge? ==> |r| == 3
    ensures t.Unsupported? ==> r == [NotSupported]
  {
    match t
    case MonetaryCredit(name, date, credit, ids) =>
      [PrintlnLine("\tName: ", name),
       PrintlnLine("\tDate: ", date.value),
       PrintlnLine("\tCredit: ", credit.value),
       PrintlnLine("\tMeterIDs: ", ShowList(Shown(ids.value)))]
    case MonetaryCommitment(name, date, discount, ids) =>
      [PrintlnLine("\tName: ", name),
       PrintlnLine("\tDate: ", date.value),
       PrintlnLine("\tDiscount: ", discount.value),
       PrintlnLine("\tMeterIDs: ", ShowList(Shown(ids.value)))]
    case RecurringCharge(name, date, charge) =>
      [PrintlnLine("\tName: ", name),
       PrintlnLine("\tDate: ", date.value),
       PrintlnLine("\tCharge: ", charge.value)]
    case Unsupported =>
      [NotSupported]
  }

  /** Everything printed for one offer term: its field lines, then the separator. */
  function TermBlock(t: OfferTerm): Trace
    requires TermRenderable(t)
  {
    TermLines(t) + [Separator]
  }

  /** The blocks of the given terms, one after the other in their order. */
  function TermBlocks(ts: seq<OfferTerm>): Trace
    requires TermsRenderable(ts)
  {
    if ts == [] then []
    else TermBlocks(ts[..|ts| - 1]) + TermBlock(ts[|ts| - 1])
  }

  /** Rendering one more term appends its block. */
  lemma TermBlocksSnoc(ts: seq<OfferTerm>, t: OfferTerm)
    requires TermsRenderable(ts) && TermRenderable(t)
    ensures TermsRenderable(ts + [t])
    ensures TermBlocks(ts + [t]) == TermBlocks(ts) + TermBlock(t)
  {
    assert (ts + [t])[..|ts|] == ts;
  }

  /** What `printOT` prints for a list of offer terms. */
  function TermsReport(oti: seq<OfferTerm>): Trace
    requires TermsRenderable(Shown(oti))
  {
    TermBlocks(Shown(oti))
  }

  /** Everything printed for one meter: name, ID and the separator. */
  function MeterBlock(m: MeterInfo): Trace
    requires MeterRenderable(m)
  {
    [PrintlnLine("\tName: ", m.meterName.value),
     PrintlnLine("\tMeterID: ", m.meterId.value),
     Separator]
  }

  /** The blocks of the given meters, one after the other in their order. */
  function MeterBlocks(ms: seq<MeterInfo>): (r: Trace)
    requires MetersRenderable(ms)
    ensures |r| == 3 * |ms|
  {
    if ms == [] then []
    else MeterBlocks(ms[..|ms| - 1]) + MeterBlock(ms[|ms| - 1])
  }

  /** What `printMI` prints for a list of meters. */
  function MetersReport(mi: seq<MeterInfo>): Trace
    requires MetersRenderable(Shown(mi))
  {
    MeterBlocks(Shown(mi))
  }

  /** Every pointer `printRC` dereferences, directly or through the two loops, is non-nil. */
  predicate ReportRenderable(rc: RateCardInfo) {
    && rc.currency.Some?
    && rc.locale.Some?
    && rc.isTaxIncluded.Some?
    && rc.offerTerms.Some?
    && rc.meters.Some?
    && TermsRenderable(Shown(rc.offerTerms.value))
    && MetersRenderable(Shown(rc.meters.value))
  }

  /** The four lines `printRC` writes before the offer terms. */
  function Header(rc: RateCardInfo): Trace
    requires ReportRenderable(rc)
  {
    [PrintlnLine("Currency: ", rc.currency.value),
     PrintlnLine("Locale: ", rc.locale.value),
     PrintlnLine("IsTaxIncluded: ", ShowBool(rc.isTaxIncluded.value)),
     OfferTermsHeading]
  }

  /** What `printRC` prints for a rate card. */
  function Report(rc: RateCardInfo): Trace
    requires ReportRenderable(rc)
  {
    Header(rc) + TermsReport(rc.offerTerms.value) + [MetersHeading] + MetersReport(rc.meters.value)
  }

  /** The body of `printOT`'s loop before the separator: the type switch on one offer term. */
  method PrintTermFields(out: Trace, ot: OfferTerm) returns (out': Trace)
    requires TermRenderable(ot)
    ensures out' == out + TermLines(ot)
  {
    out' := out;
    match ot {
      case MonetaryCredit(name, date, credit, ids) =>
        out' := out' + [PrintlnLine("\tName: ", name)];
        out' := out' + [PrintlnLine("\tDate: ", date.value)];
        out' := out' + [PrintlnLine("\tCredit: ", credit.value)];
        var idsShown := ids.value[..GetLen(Slice(|ids.value|))];
        out' := out' + [PrintlnLine("\tMeterIDs: ", ShowList(idsShown))];
      case MonetaryCommitment(name, date, discount, ids) =>
        out' := out' + [PrintlnLine("\tName: ", name)];
        out' := out' + [PrintlnLine("\tDate: ", date.value)];
        out' := out' + [PrintlnLine("\tDiscount: ", discount.value)];
        var idsShown := ids.value[..GetLen(Slice(|ids.value|))];
        out' := out' + [PrintlnLine("\tMeterIDs: ", ShowList(idsShown))];
      case RecurringCharge(name, date, charge) =>
        out' := out' + [PrintlnLine("\tName: ", name)];
        out' := out' + [PrintlnLine("\tDate: ", date.value)];
        out' := out' + [PrintlnLine("\tCharge: ", charge.value)];
      case Unsupported =>
        out' := out' + [NotSupported];
    }
  }

  /** `printOT`: the type switch over the displayed offer terms, a separator after each. */
  method PrintOT(out: Trace, oti: seq<OfferTerm>) returns (out': Trace)
    requires TermsRenderable(Shown(oti))
    ensures out' == out + TermsReport(oti)
  {
    out' := out;
    var shown := oti[..GetLen(Slice(|oti|))];
    for i := 0 to |shown|
      invariant out' == out + TermBlocks(shown[..i])
    {
      ghost var done := TermBlocks(shown[..i]);
      TermBlocksSnoc(shown[..i], shown[i]);
      assert shown[..i] + [shown[i]] == shown[..i + 1];
      out' := PrintTermFields(out', shown[i]);
      out' := out' + [Separator];
      AppendAssoc(out + done, TermLines(shown[i]), [Separator]);
      AppendAssoc(out, done, TermBlock(shown[i]));
    }
    assert shown[..|shown|] == shown;
  }

  /** `printMI`: name, ID and a separator for each displayed meter. */
  method PrintMI(out: Trace, mi: seq<MeterInfo>) returns (out': Trace)
    requires MetersRenderable(Shown(mi))
    ensures out' == out + MetersReport(mi)
  {
    out' := out;
    var shown := mi[..GetLen(Slice(|mi|))];
    for i := 0 to |shown|
      invariant out' == out + MeterBlocks(shown[..i])
    {
      var m := shown[i];
      out' := out' + [PrintlnLine("\tName: ", m.meterName.value)];
      out' := out' + [PrintlnLine("\tMeterID: ", m.meterId.value)];
      out' := out' + [Separator];
      assert shown[..i + 1][..i] == shown[..i];
    }
    assert shown[..|shown|] == shown;
  }

  /** `printRC`: the header fields, the offer terms, then the meters. */
  method PrintRC(out: Trace, rc: RateCardInfo) returns (out': Trace)
    requires ReportRenderable(rc)
    ensures out' == out + Report(rc)
  {
    out' := out + [PrintlnLine("Currency: ", rc.currency.value)];
    out' := out' + [PrintlnLine("Locale: ", rc.locale.value)];
    out' := out' + [PrintlnLine("IsTaxIncluded: ", ShowBool(rc.isTaxIncluded.value))];
    out' := out' + [OfferTermsHeading];
    out' := PrintOT(out', rc.offerTerms.value);
    out' := out' + [MetersHeading];
    out' := PrintMI(out', rc.meters.value);
  }
}
