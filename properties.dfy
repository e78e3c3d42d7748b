/** What the rendered report promises: how many blocks each list produces, in which order,
    where the separators and the two section headings fall, and what an unsupported offer
    term contributes. */
module ReportProperties {
  import opened RateCard
  import opened Renderer

  /** How many entries of a trace (`Println` calls) are exactly `line`. */
  function Occurrences(s: Trace, line: string): nat {
    if s == [] then 0 else (if s[0] == line then 1 else 0) + Occurrences(s[1..], line)
  }

  lemma {:induction false} OccurrencesConcat(a: Trace, b: Trace, line: string)
    ensures Occurrences(a + b, line) == Occurrences(a, line) + Occurrences(b, line)
  {
    if a == [] {
      assert a + b == b;
    } else {
      assert (a + b)[1..] == a[1..] + b;
      OccurrencesConcat(a[1..], b, line);
    }
  }

  lemma {:induction false} OccurrencesAbsent(s: Trace, line: string)
    requires forall j :: 0 <= j < |s| ==> s[j] != line
    ensures Occurrences(s, line) == 0
  {
    if s != [] {
      OccurrencesAbsent(s[1..], line);
    }
  }

  /** A heading can never be mistaken for a line of a term or meter block. */
  lemma HeadingsAreNotBodyLines()
    ensures !BodyLine(OfferTermsHeading) && !BodyLine(MetersHeading)
    ensures OfferTermsHeading != MetersHeading
  {
    assert OfferTermsHeading[0] == 'O' && MetersHeading[0] == 'M';
    assert Separator[0] == '=' && NotSupported[0] == 'N';
  }

  lemma BodyLinesExclude(s: Trace, line: string)
    requires forall j :: 0 <= j < |s| ==> BodyLine(s[j])
    requires !BodyLine(line)
    ensures Occurrences(s, line) == 0
  {
    OccurrencesAbsent(s, line);
  }

  // ---------------------------------------------------------------- offer terms

  /** The block of one offer term: a fixed number of lines per variant, ending in the one
      and only separator of the block. */
  lemma TermBlockShape(t: OfferTerm)
    requires TermRenderable(t)
    ensures t.MonetaryCredit? || t.MonetaryCommitment? ==> |TermBlock(t)| == 5
    ensures t.RecurringCharge? ==> |TermBlock(t)| == 4
    ensures t.Unsupported? ==> TermBlock(t) == [NotSupported, Separator]
    ensures TermBlock(t)[|TermBlock(t)| - 1] == Separator
    ensures Occurrences(TermBlock(t), Separator) == 1
    ensures forall j :: 0 <= j < |TermBlock(t)| ==> BodyLine(TermBlock(t)[j])
  {
    var lines := TermLines(t);
    OccurrencesAbsent(lines, Separator);
    OccurrencesConcat(lines, [Separator], Separator);
    assert Occurrences([Separator], Separator) == 1;
  }

  lemma {:induction false} TermBlocksConcat(a: seq<OfferTerm>, b: seq<OfferTerm>)
    requires TermsRenderable(a) && TermsRenderable(b)
    ensures TermsRenderable(a + b)
    ensures TermBlocks(a + b) == TermBlocks(a) + TermBlocks(b)
  {
    if b == [] {
      assert a + b == a;
    } else {
      var init := b[..|b| - 1];
      TermBlocksConcat(a, init);
      assert (a + b)[..|a + b| - 1] == a + init;
      assert (a + b)[|a + b| - 1] == b[|b| - 1];
      AppendAssoc(TermBlocks(a), TermBlocks(init), TermBlock(b[|b| - 1]));
    }
  }

  lemma {:induction false} TermBlocksSeparators(ts: seq<OfferTerm>)
    requires TermsRenderable(ts)
    ensures Occurrences(TermBlocks(ts), Separator) == |ts|
  {
    if ts != [] {
      var init := ts[..|ts| - 1];
      TermBlocksSeparators(init);
      TermBlockShape(ts[|ts| - 1]);
      OccurrencesConcat(TermBlocks(init), TermBlock(ts[|ts| - 1]), Separator);
    }
  }

  lemma {:induction false} TermBlocksBodyLines(ts: seq<OfferTerm>)
    requires TermsRenderable(ts)
    ensures forall j :: 0 <= j < |TermBlocks(ts)| ==> BodyLine(TermBlocks(ts)[j])
  {
    if ts != [] {
      TermBlocksBodyLines(ts[..|ts| - 1]);
      TermBlockShape(ts[|ts| - 1]);
    }
  }

  /** `printOT` writes exactly one separator per displayed term: min(L, 3) in all. */
  lemma TermsReportSeparators(oti: seq<OfferTerm>)
    requires TermsRenderable(Shown(oti))
    ensures Occurrences(TermsReport(oti), Separator) == GetLen(Slice(|oti|))
  {
    TermBlocksSeparators(Shown(oti));
  }

  /** Term `k` of the displayed prefix is rendered right after the blocks of terms
      `0 .. k-1` and right before those of the terms after it: the original order. */
  lemma TermsReportSplit(oti: seq<OfferTerm>, k: nat)
    requires TermsRenderable(Shown(oti))
    requires k < GetLen(Slice(|oti|))
    ensures TermRenderable(oti[k])
    ensures TermsReport(oti)
         == TermBlocks(Shown(oti)[..k]) + TermBlock(oti[k]) + TermBlocks(Shown(oti)[k + 1..])
  {
    var s := Shown(oti);
    assert s[k] == oti[k];
    assert s[..k] + [s[k]] + s[k + 1..] == s;
    TermBlocksSnoc(s[..k], s[k]);
    TermBlocksConcat(s[..k] + [s[k]], s[k + 1..]);
  }

  /** An unsupported term prints the marker and a separator, and the terms after it are
      still rendered. */
  lemma UnsupportedTermDoesNotAbort(oti: seq<OfferTerm>, k: nat)
    requires TermsRenderable(Shown(oti))
    requires k < GetLen(Slice(|oti|)) && oti[k].Unsupported?
    ensures TermsReport(oti)
         == TermBlocks(Shown(oti)[..k]) + [NotSupported, Separator] + TermBlocks(Shown(oti)[k + 1..])
  {
    TermsReportSplit(oti, k);
    TermBlockShape(oti[k]);
  }

  /** With three or more terms, the report is the blocks of terms 0, 1 and 2, in that order. */
  lemma FirstThreeTermsOnly(oti: seq<OfferTerm>)
    requires |oti| >= DisplayCap
    requires TermsRenderable(Shown(oti))
    ensures TermRenderable(oti[0]) && TermRenderable(oti[1]) && TermRenderable(oti[2])
    ensures TermsReport(oti) == TermBlock(oti[0]) + TermBlock(oti[1]) + TermBlock(oti[2])
  {
    var a, b, c := oti[0], oti[1], oti[2];
    assert Shown(oti) == [a, b, c];
    TermBlocksSnoc([], a);
    TermBlocksSnoc([a], b);
    TermBlocksSnoc([a, b], c);
    assert [] + [a] == [a] && [a] + [b] == [a, b] && [a, b] + [c] == [a, b, c];
    assert TermBlocks([]) + TermBlock(a) == TermBlock(a);
  }

  /** Terms at index 3 and beyond are never visited: appending any terms to a list of at
      least three leaves the report unchanged. */
  lemma LaterTermsNeverVisited(oti: seq<OfferTerm>, rest: seq<OfferTerm>)
    requires |oti| >= DisplayCap
    requires TermsRenderable(Shown(oti))
    ensures Shown(oti + rest) == Shown(oti)
    ensures TermsReport(oti + rest) == TermsReport(oti)
  {
    assert (oti + rest)[..3] == oti[..3];
  }

  // ---------------------------------------------------------------- meters

  /** The block of one meter: name, ID and its one separator. */
  lemma MeterBlockShape(m: MeterInfo)
    requires MeterRenderable(m)
    ensures |MeterBlock(m)| == 3 && MeterBlock(m)[2] == Separator
    ensures Occurrences(MeterBlock(m), Separator) == 1
    ensures forall j :: 0 <= j < 3 ==> BodyLine(MeterBlock(m)[j])
  {
    var b := MeterBlock(m);
    assert b[0][0] == '\t' && b[1][0] == '\t' && Separator[0] == '=';
    assert b == b[..2] + [Separator];
    OccurrencesAbsent(b[..2], Separator);
    OccurrencesConcat(b[..2], [Separator], Separator);
    assert Occurrences([Separator], Separator) == 1;
  }

  lemma {:induction false} MeterBlocksAt(ms: seq<MeterInfo>, k: nat)
    requires MetersRenderable(ms) && k < |ms|
    ensures MeterBlocks(ms)[3 * k .. 3 * k + 3] == MeterBlock(ms[k])
  {
    var init := ms[..|ms| - 1];
    if k < |ms| - 1 {
      MeterBlocksAt(init, k);
      assert init[k] == ms[k];
    }
  }

  lemma {:induction false} MeterBlocksSeparators(ms: seq<MeterInfo>)
    requires MetersRenderable(ms)
    ensures Occurrences(MeterBlocks(ms), Separator) == |ms|
  {
    if ms != [] {
      var init := ms[..|ms| - 1];
      MeterBlocksSeparators(init);
      MeterBlockShape(ms[|ms| - 1]);
      OccurrencesConcat(MeterBlocks(init), MeterBlock(ms[|ms| - 1]), Separator);
    }
  }

  lemma {:induction false} MeterBlocksBodyLines(ms: seq<MeterInfo>)
    requires MetersRenderable(ms)
    ensures forall j :: 0 <= j < |MeterBlocks(ms)| ==> BodyLine(MeterBlocks(ms)[j])
  {
    if ms != [] {
      var init := ms[..|ms| - 1];
      MeterBlocksBodyLines(init);
      MeterBlockShape(ms[|ms| - 1]);
      forall j | 0 <= j < |MeterBlocks(ms)|
        ensures BodyLine(MeterBlocks(ms)[j])
      {
        if j >= |MeterBlocks(init)| {
          assert MeterBlocks(ms)[j] == MeterBlock(ms[|ms| - 1])[j - |MeterBlocks(init)|];
        }
      }
    }
  }

  /** `printMI` writes min(L, 3) blocks of three lines, block `k` being meter `k`'s. */
  lemma MetersReportLayout(mi: seq<MeterInfo>)
    requires MetersRenderable(Shown(mi))
    ensures |MetersReport(mi)| == 3 * GetLen(Slice(|mi|))
    ensures forall k :: 0 <= k < GetLen(Slice(|mi|)) ==>
      MeterRenderable(mi[k]) && MetersReport(mi)[3 * k .. 3 * k + 3] == MeterBlock(mi[k])
    ensures Occurrences(MetersReport(mi), Separator) == GetLen(Slice(|mi|))
  {
    var s := Shown(mi);
    forall k | 0 <= k < |s|
      ensures MeterRenderable(mi[k]) && MetersReport(mi)[3 * k .. 3 * k + 3] == MeterBlock(mi[k])
    {
      assert s[k] == mi[k];
      MeterBlocksAt(s, k);
    }
    MeterBlocksSeparators(s);
  }

  // ---------------------------------------------------------------- the whole report

  lemma HeaderLines(rc: RateCardInfo)
    requires ReportRenderable(rc)
    ensures Occurrences(Header(rc), OfferTermsHeading) == 1
    ensures Occurrences(Header(rc), MetersHeading) == 0
    ensures Occurrences(Header(rc), Separator) == 0
  {
    var h := Header(rc);
    assert h[0][0] == 'C' && h[1][0] == 'L' && h[2][0] == 'I';
    assert OfferTermsHeading[0] == 'O' && MetersHeading[0] == 'M' && Separator[0] == '=';
    assert h == h[..3] + [OfferTermsHeading];
    OccurrencesAbsent(h, MetersHeading);
    OccurrencesAbsent(h, Separator);
    OccurrencesAbsent(h[..3], OfferTermsHeading);
    OccurrencesConcat(h[..3], [OfferTermsHeading], OfferTermsHeading);
    assert Occurrences([OfferTermsHeading], OfferTermsHeading) == 1;
  }

  lemma ReportOccurrences(rc: RateCardInfo, line: string)
    requires ReportRenderable(rc)
    ensures Occurrences(Report(rc), line)
         == Occurrences(Header(rc), line) + Occurrences(TermsReport(rc.offerTerms.value), line)
          + Occurrences([MetersHeading], line) + Occurrences(MetersReport(rc.meters.value), line)
  {
    var h, t, m := Header(rc), TermsReport(rc.offerTerms.value), MetersReport(rc.meters.value);
    OccurrencesConcat(h, t, line);
    OccurrencesConcat(h + t, [MetersHeading], line);
    OccurrencesConcat(h + t + [MetersHeading], m, line);
  }

  /** `printRC` writes the three header fields and "OfferTerms:" first, then the term
      blocks, then "Meters: ", then the meter blocks. */
  lemma ReportSections(rc: RateCardInfo)
    requires ReportRenderable(rc)
    ensures var terms := TermsReport(rc.offerTerms.value);
      && Report(rc)[..4] == Header(rc)
      && Report(rc)[3] == OfferTermsHeading
      && Report(rc)[4 .. 4 + |terms|] == terms
      && Report(rc)[4 + |terms|] == MetersHeading
      && Report(rc)[5 + |terms| ..] == MetersReport(rc.meters.value)
  {
  }

  /** Each heading is the text of exactly one `Println` call of the report, so "OfferTerms:"
      comes before every term block and "Meters: " after every term block and before every
      meter block; the separators are exactly one per displayed term and one per displayed
      meter. */
  lemma ReportHeadingsAndSeparators(rc: RateCardInfo)
    requires ReportRenderable(rc)
    ensures Occurrences(Report(rc), OfferTermsHeading) == 1
    ensures Occurrences(Report(rc), MetersHeading) == 1
    ensures Occurrences(Report(rc), Separator)
         == GetLen(Slice(|rc.offerTerms.value|)) + GetLen(Slice(|rc.meters.value|))
  {
    var t, m := TermsReport(rc.offerTerms.value), MetersReport(rc.meters.value);
    HeaderLines(rc);
    HeadingsAreNotBodyLines();
    TermBlocksBodyLines(Shown(rc.offerTerms.value));
    MeterBlocksBodyLines(Shown(rc.meters.value));
    TermsReportSeparators(rc.offerTerms.value);
    MetersReportLayout(rc.meters.value);
    ReportOccurrences(rc, OfferTermsHeading);
    ReportOccurrences(rc, MetersHeading);
    ReportOccurrences(rc, Separator);
    BodyLinesExclude(t, OfferTermsHeading);
    BodyLinesExclude(t, MetersHeading);
    BodyLinesExclude(m, OfferTermsHeading);
    BodyLinesExclude(m, MetersHeading);
    assert Occurrences([MetersHeading], MetersHeading) == 1;
    assert Occurrences([MetersHeading], OfferTermsHeading) == 0;
    assert MetersHeading[0] == 'M' && Separator[0] == '=';
    assert Occurrences([MetersHeading], Separator) == 0;
  }

  /** With no offer terms and no meters, the report is exactly the five heading lines. */
  lemma EmptyRateCardReport(rc: RateCardInfo)
    requires ReportRenderable(rc)
    requires rc.offerTerms.value == [] && rc.meters.value == []
    ensures Report(rc) == [PrintlnLine("Currency: ", rc.currency.value),
                           PrintlnLine("Locale: ", rc.locale.value),
                           PrintlnLine("IsTaxIncluded: ", ShowBool(rc.isTaxIncluded.value)),
                           OfferTermsHeading,
                           MetersHeading]
  {
  }
}
