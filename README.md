# Rate-card report renderer

This is a Dafny model of the report renderer in the commerce sample client (`main.go`). The
client fetches one rate card from the billing API and prints a short summary of it. The
summary has three parts:

- the currency, the locale and the tax-included flag;
- at most three offer terms, each printed according to its variant (monetary credit,
  monetary commitment, recurring charge, or anything else as "Not supported");
- at most three meters.

Every term and every meter is followed by a `=====` separator line.

Standard output is modelled as a trace (`Renderer.Trace`, a `seq<string>`). Each entry is
the text of one `fmt.Println` call, without the newline that call appends. In the lemmas,
a "line" of the output means such an entry. The printing routines
become methods that take the trace written so far and return it extended. Each method is
proved equal to a specification function (`TermsReport`, `MetersReport`, `Report`). The
properties of those functions are proved as lemmas in `ReportProperties`.

Files:

- `ratecard.dfy` (module `RateCard`): the response types. Pointer fields are `Option`s, and
  the offer-term interface is a closed datatype with an extra `Unsupported` constructor.
  The module also has the predicates saying which pointers a term or a meter block
  dereferences (`TermRenderable`, `MeterRenderable`).
- `renderer.dfy` (module `Renderer`): `getLen`, the re-slice `s[:getLen(s)]`, the rendered
  lines, the predicate `ReportRenderable` for the whole rate card, and the methods
  `PrintOT`, `PrintMI` and `PrintRC`.
- `properties.dfy` (module `ReportProperties`): block counts, separators, order, the
  unsupported-variant arm, truncation, and where the headings sit in the full report.

Modelling decisions that follow the code closely:

- The excluded meter IDs are an ordered slice, not a set. The `MeterIDs` line shows only
  the first `min(n, 3)` of them, in the bracketed, space-separated form `fmt.Println` uses
  for slices.
- A nil field that the renderer dereferences makes the Go code panic. It does not produce a
  `MissingField` error. The model states presence as a precondition, and only for the
  terms and meters that are actually displayed, as in the code.
- `fmt.Println` with two operands puts one space between them. So `Println("Currency: ", c)`
  writes `"Currency:  " + c`, and the model keeps that double space.

## Model

| member | source | states |
|---|---|---|
| `Renderer.GetLen` | main.go:91-101 | A non-slice gives 0. A slice of length L gives a count that never exceeds L or 3, and equals L or 3, so it is min(L, 3). |
| `Renderer.Shown` | main.go:60 | The re-slice `s[:getLen(s)]` is a prefix of `s` with at most 3 elements, and it is all of `s` when it has fewer than 3. |
| `Renderer.TermLines` | main.go:61-78 | The type switch writes 4 field lines for a credit or a commitment and 3 for a recurring charge. An unknown variant writes exactly "Not supported". No field line is the separator. A credit's or commitment's last line lists only the displayed prefix of its excluded meter IDs. |
| `Renderer.PrintTermFields` | main.go:61-78 | One pass of the type switch appends exactly the variant's field lines to the trace. |
| `Renderer.PrintOT` | main.go:59-81 | `printOT` appends exactly `TermsReport(oti)`: the blocks of the displayed terms, in order, each ending in a separator. |
| `Renderer.PrintMI` | main.go:83-89 | `printMI` appends exactly `MetersReport(mi)`: a name, ID and separator block for each displayed meter, in order. |
| `Renderer.PrintRC` | main.go:49-57 | `printRC` appends exactly `Report(rc)`: the three header fields, "OfferTerms:", the term blocks, "Meters: ", then the meter blocks. |
| `ReportProperties.TermBlockShape` | main.go:62-79 | A term's block has 5 lines for a credit or a commitment, 4 for a recurring charge, and is `["Not supported", "====="]` otherwise. It ends in the separator and contains exactly one. |
| `ReportProperties.TermBlocksConcat` | main.go:60 | Rendering a list of terms is rendering its two halves one after the other. |
| `ReportProperties.TermBlocksSeparators` | main.go:79 | Rendering n terms writes exactly n separators. |
| `ReportProperties.TermsReportSeparators` | main.go:60-80 | `printOT` over L terms writes exactly min(L, 3) separators. |
| `ReportProperties.TermsReportSplit` | main.go:60-80 | Displayed term k is rendered after the blocks of terms 0..k-1 and before those of the displayed terms after it (original order). |
| `ReportProperties.UnsupportedTermDoesNotAbort` | main.go:76-79 | A displayed term of an unknown variant contributes exactly "Not supported" and "=====", and the later displayed terms are still rendered after it. |
| `ReportProperties.FirstThreeTermsOnly` | main.go:60 | With at least three terms, the output is the blocks of terms 0, 1 and 2, in that order. |
| `ReportProperties.LaterTermsNeverVisited` | main.go:60 | Terms at index 3 and beyond are never visited. Appending any terms to a list of three or more changes neither the displayed prefix nor the output. |
| `ReportProperties.MeterBlockShape` | main.go:85-87 | A meter's block is three lines, the last being the only separator. |
| `ReportProperties.MeterBlocksAt` | main.go:84-88 | Lines 3k..3k+2 of the meter output are meter k's block. |
| `ReportProperties.MeterBlocksSeparators` | main.go:87 | Rendering n meters writes exactly n separators. |
| `ReportProperties.MetersReportLayout` | main.go:83-89 | `printMI` over L meters writes 3·min(L, 3) lines. Block k is meter k's, in original order. There are exactly min(L, 3) separators. |
| `ReportProperties.TermBlocksBodyLines` | main.go:62-79 | Every line of the term output is a tab-indented field line, "Not supported" or the separator. |
| `ReportProperties.MeterBlocksBodyLines` | main.go:85-87 | Every line of the meter output is a tab-indented field line or the separator. |
| `ReportProperties.HeaderLines` | main.go:50-53 | The four header lines contain "OfferTerms:" once, and neither "Meters: " nor a separator. |
| `ReportProperties.ReportOccurrences` | main.go:49-57 | Any line occurs in the report as often as in its four sections put together. |
| `ReportProperties.ReportSections` | main.go:49-57 | The report is the header fields and "OfferTerms:" (lines 0-3), the term output, "Meters: ", then the meter output. |
| `ReportProperties.ReportHeadingsAndSeparators` | main.go:49-57 | "OfferTerms:" and "Meters: " are each the text of exactly one `Println` call of the report. Its separators number exactly min(T, 3) + min(M, 3). |
| `ReportProperties.EmptyRateCardReport` | main.go:50-56 | With zero terms and zero meters, the report is exactly the five heading lines. |

## Left out

- `init` and `createClients` (main.go:27-33, 103-106): Azure AD authentication, reading `AZURE_SUBSCRIPTION_ID` from the environment, and constructing the SDK client. These are foreign calls and environment access.
- `main` (main.go:35-47): the "Get rate card..." line, the network call to the rate-card API with its fixed filter, reading and printing the error body, and the panic when that read fails. All of this is I/O.
- `onErrorFail` (main.go:109-114): it prints a message and calls `os.Exit(1)` when the error is non-nil. A non-nil error is terminal, and nothing after it is rendered.
- The text `fmt.Println` produces for floats (credits, charges), `date.Date` values and the tiered-discount map. These values are carried as the strings they render to. Meter IDs in the `MeterIDs` line are likewise carried as their rendered UUID strings.
- Nil-pointer panics: every dereference of a nil field panics in the Go code. The model turns each one into a precondition (`ReportRenderable`, `TermRenderable`, `MeterRenderable`) and does not model a partial output followed by a crash.
- Reflection in `getLen`: only the slice / non-slice distinction is modelled (`Renderer.Dynamic`). Every call site passes a slice.
- The newline that ends each `Println`: a trace entry is the text of one call without its terminator.
- Newlines inside rendered values: a value containing `'\n'` (a currency, a locale, a term or meter name, or an opaque date or amount) makes one `Println` call write several stdout lines. The trace does not split such an entry, so the heading and separator counts are counts of `Println` calls, not of physical stdout lines.
