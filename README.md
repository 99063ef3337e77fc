# hack-the-flood, modelled in Dafny

hack-the-flood ("Subaybay Baha") is a civic web app about flood-control
projects in the Philippines. It loads the public flood-control contract
dataset from a CSV file. Dashboards show that dataset: a project selector with
facets and pagination, a visuals page with statistics, a contractor ranking
and a transparency board. Citizens can photograph a project, blur faces or
plates on a canvas, and upload the report. Reports then appear in a community
feed and in a "top reports" strip, and earn reputation on the profile page.
The interface is bilingual (Tagalog by default, English on toggle).

This project models the logic behind those screens and proves properties of
it:

- `Sumbong` covers CSV ingestion:
  - the character-level CSV state machine, proved equal to a functional specification, with a round trip for RFC 4180-quoted tables;
  - header-name lookup;
  - the row-to-record mapping with its fallback columns;
  - the six-hour cache test.
- `ProjectSelector`, `VisualsPage`, `ContractorsPage` and `TransparencyBoard` cover the dataset queries:
  - facet options;
  - AND-combined case-insensitive filtering;
  - pagination with its clamps;
  - work-type classification;
  - group-by counters, top-N rankings and chart labels.
- `ReportView` is the redaction canvas. It is a class over an `array2<Pixel>`:
  - `blurRegion` is a pair of nested loops proved against a closed-form description of the blurred raster;
  - it also has the drag flag, the resize on load and the saved draft.
- `Hooks` is the local report queue, a class over a list kept in step with its stored copy.
- `CommunityFeed` holds the feed:
  - `timeAgo` bucketing and vote ranking;
  - the demo-mode vote counter;
  - the comment toggles.
- `App` holds:
  - the top-reports normalisation and ranking;
  - the report document;
  - the sync and upload policy.
- `ProfilePage` is the reputation fold.
- `Language` covers the translation tables, lookup with fallback and the language toggle.
- `Wrappers`, `Text`, `Seqs` and `Tally` are shared helpers:
  - an option type;
  - trimming, lower-casing, substring search, string order and number printing;
  - filtering, distinct values, a stable descending sort and sums;
  - a JavaScript object used as an insertion-ordered counter.

Browser storage, the network, the clock and the Firebase store are not called.
What they return is a parameter:

- a stored payload `cached`;
- a fetched text `text` (`None` when the fetch fails);
- `now`;
- a snapshot of documents;
- a `failure` message when a store write rejects;
- the colour `getImageData` reports off the canvas, `offCanvas`;
- the browser's rendering of an image, `drawn`.

Costs are `real`, so sums are exact. Votes, timestamps and pixel coordinates are `int`.

## Model

| member | source | states |
|---|---|---|
| Sumbong.ParseCsv | src/services/sumbong.js:73-107 | the index loop with its look-ahead skips returns exactly the rows of the functional scanner `ParseRows`; every row has at least one cell |
| Sumbong.StepDoubledQuote | src/services/sumbong.js:80-83 | inside quotes, `""` appends one literal quote and consumes both characters |
| Sumbong.StepToggle | src/services/sumbong.js:84-86 | any other quote flips `inQuotes` and nothing else |
| Sumbong.StepQuotedChar | src/services/sumbong.js:98-100 | inside quotes every other character, comma and line breaks included, is appended to the cell unchanged |
| Sumbong.StepComma | src/services/sumbong.js:87-89 | outside quotes a comma ends the current cell |
| Sumbong.StepLineFeed | src/services/sumbong.js:90-96 | outside quotes LF ends the row (only when the row has content) |
| Sumbong.CrLfIsOneBreak | src/services/sumbong.js:97 | CRLF is one row break: the scanner behaves exactly as on a lone LF |
| Sumbong.BlankLineSkipped | src/services/sumbong.js:90-96 | a line break at the start of a row produces no row, so blank lines vanish |
| Sumbong.FeedRowsNonEmpty | src/services/sumbong.js:91-93 | every row the scanner pushes has at least one cell, from any state |
| Sumbong.ParsedRowsNonEmpty | src/services/sumbong.js:102-106 | with the final flush, every parsed row has at least one cell |
| Sumbong.ParseEmpty | src/services/sumbong.js:102-106 | empty input parses to no rows |
| Sumbong.Escape | src/services/sumbong.js:80-86 | the RFC 4180 writer's quote doubling never shortens a field |
| Sumbong.EscapedReadsBack | src/services/sumbong.js:80-86 | inside quotes, an escaped field followed by its closing quote reads back as exactly that field, with quoting off afterwards |
| Sumbong.QuotedReadsBack | src/services/sumbong.js:80-100 | a quoted field reads back as its own text whatever it contains (quotes, commas, CR, LF) |
| Sumbong.RowReadsBack | src/services/sumbong.js:80-96 | a row of quoted fields joined by commas and ended by LF is pushed as exactly that row |
| Sumbong.EncodeTableCons | src/services/sumbong.js:90-96 | the encoded table is its first row's line followed by the rest |
| Sumbong.TableReadsBack | src/services/sumbong.js:78-101 | an encoded table appends exactly its rows to those already read |
| Sumbong.ParseRoundTrip | src/services/sumbong.js:73-107 | parsing an RFC 4180-quoted table returns the table, unless it has a row made of one empty field |
| Sumbong.LoneEmptyFieldVanishes | src/services/sumbong.js:90-106 | the exception is real: a table holding one empty field parses to no rows, because `""` then LF is a blank line |
| Sumbong.IndexOf | src/services/sumbong.js:112 | `header.indexOf(name)`: -1 exactly when the name is absent, otherwise the first position holding it |
| Sumbong.Get | src/services/sumbong.js:113-118 | `''` for a name not in the header or a row too short, otherwise the trimmed cell of the first matching column |
| Sumbong.GetReadsFirstColumn | src/services/sumbong.js:112-118 | with duplicate header names only the first column is read |
| Sumbong.StripCommas | src/services/sumbong.js:141 | `replace(/,/g, '')` keeps exactly the characters that are not commas, in order |
| Sumbong.StripCommasSplit | src/services/sumbong.js:141 | removing commas around a comma joins the two stripped halves |
| Sumbong.DigitRun | src/services/sumbong.js:141 | the length of the longest prefix of digits, the part `parseFloat` reads before any point |
| Sumbong.ParseFloatUnsigned | src/services/sumbong.js:141 | with no leading sign or space, `parseFloat` reads the unsigned number grammar |
| Sumbong.IntegerPart | src/services/sumbong.js:141 | a digit run is read as its integer value before the fraction |
| Sumbong.FractionPart | src/services/sumbong.js:141 | digits after a point add their decimal fraction; what follows them is ignored |
| Sumbong.ParseFloatDecimal | src/services/sumbong.js:141 | `whole.frac` followed by a non-digit reads as whole + frac / 10^(number of digits of frac) |
| Sumbong.ParseFloatNat | src/services/sumbong.js:141 | a printed natural number reads back as itself |
| Sumbong.ParseFloatNoDigits | src/services/sumbong.js:141 | text with no leading digit (after sign and spaces) is NaN |
| Sumbong.ParseUnsignedNoDigits | src/services/sumbong.js:141 | the unsigned reader fails without a leading digit |
| Sumbong.DigitRunAtLeast | src/services/sumbong.js:141 | n leading digits make a digit run of at least n |
| Sumbong.DigitRunExact | src/services/sumbong.js:141 | n digits followed by a non-digit make a run of exactly n |
| Sumbong.NumberOr0 | src/services/sumbong.js:141 | `parseFloat(...) \|\| 0`: NaN becomes 0, a number is kept |
| Sumbong.OrElse | src/services/sumbong.js:140-152 | `a \|\| b` on strings: `a` unless it is empty |
| Sumbong.CostOf | src/services/sumbong.js:140-141 | ContractCost if non-empty, else ABC, else 0; commas stripped and an unreadable value read as 0 |
| Sumbong.CostOfPlainNumber | src/services/sumbong.js:140-141 | a plain integer ContractCost is the cost exactly |
| Sumbong.JoinLocation | src/services/sumbong.js:137-139 | Municipality and Province joined by ", ", an empty part omitted |
| Sumbong.RecordFields | src/services/sumbong.js:136-156 | desc is ProjectComponentDescription else ProjectDescription; deo is DistrictEngineeringOffice else ImplementingOffice; location, cost, region, contractor, province and type of work are read from their columns |
| Sumbong.ToRecords | src/services/sumbong.js:110-157 | no rows give no records; the header is never a record; every record has a description |
| Sumbong.ToRecordsSnoc | src/services/sumbong.js:136-157 | records follow row order: a new last row adds its record at the end exactly when its description is non-empty |
| Sumbong.HeaderOnlyNoRecords | src/services/sumbong.js:136-157 | a file with only a header gives no records |
| Sumbong.FreshByElapsedTime | src/services/sumbong.js:55 | the cache is fresh iff under 21600000 ms (6 h) have passed, and shifting both times changes nothing |
| Sumbong.StaleStaysStale | src/services/sumbong.js:55 | once stale, a payload stays stale as time goes on |
| Sumbong.LoadCsvProjects | src/services/sumbong.js:49-164 | a fresh payload is returned as is; a failed fetch gives `[]`; whatever is stored is the returned list stamped with `now` |
| Sumbong.LoadFetchedText | src/services/sumbong.js:109-160 | without a fresh payload, the fetched text yields exactly its records, each with a description |
| Sumbong.LoadEmptyText | src/services/sumbong.js:109-110 | an empty download gives `[]` and stores nothing |
| Text.Trim | src/services/sumbong.js:117 | `trim()`: the middle of the string between its leading and trailing white space, with no white space at either end |
| Text.TrimIdempotent | src/services/sumbong.js:117 | trimming twice is trimming once |
| Text.Lower | src/components/ProjectSelector.jsx:62-64 | `toLowerCase()` character by character over U+0000 to U+017F: A-Z and the Latin-1 capitals (but for U+00D7) move by 32, each paired capital of Latin Extended-A becomes its small letter, Ÿ becomes ÿ and İ becomes i; everything else is kept |
| Text.LowerIdempotent | src/components/ProjectSelector.jsx:62-64 | lower-casing twice is lower-casing once |
| Text.Includes | src/components/ProjectSelector.jsx:62-64 | `includes` holds iff the term occurs at some position |
| Text.IncludesEmpty | src/components/ProjectSelector.jsx:61 | the empty term occurs in every string |
| Text.IncludesTooLong | src/components/ProjectSelector.jsx:62-64 | a term longer than the text never occurs |
| Text.StrLessIrreflexive | src/components/ProjectSelector.jsx:47 | the `sort()` order on strings is irreflexive |
| Text.StrLessTransitive | src/components/ProjectSelector.jsx:47 | and transitive |
| Text.StrLessTotal | src/components/ProjectSelector.jsx:47 | and total on distinct strings |
| Text.StrLessAsymmetric | src/components/ProjectSelector.jsx:47 | and asymmetric |
| Text.SortStrings | src/components/ProjectSelector.jsx:47 | `sort()` returns a sorted permutation of its input |
| Text.NatToString | src/pages/CommunityFeed.jsx:77 | decimal digits with no leading zero |
| Text.NatToStringRoundTrip | src/pages/CommunityFeed.jsx:77 | the printed number reads back as itself |
| Text.IntToString | src/pages/CommunityFeed.jsx:77 | a minus sign exactly for negative numbers |
| Text.Ellipsize | src/components/TransparencyBoard.jsx:51 | a label of at most 15 characters is unchanged; a longer one becomes its first 15 characters and "..." |
| Seqs.Filter | src/components/ProjectSelector.jsx:60 | `filter` keeps exactly the elements that pass, in order |
| Seqs.FilterIdempotent | src/hooks.js:18 | filtering twice by the same test is filtering once |
| Seqs.SortDesc | src/App.jsx:169 | the descending sort returns a permutation ordered by non-increasing key |
| Seqs.InsertDescKeepsOrder | src/App.jsx:169 | an inserted element goes behind the elements of its own key and leaves their order alone |
| Seqs.SortDescStable | src/App.jsx:169 | the sort is stable: for every key, the elements with that key keep their input order |
| Seqs.Take | src/App.jsx:169 | `slice(0, n)` is the first min(n, length) elements |
| Seqs.TopDescending | src/components/TransparencyBoard.jsx:48 | the top n of a descending sort: at most n, descending, a sub-multiset of the input (nothing appears more often than in the input), exactly n when there are enough |
| Seqs.TopDominates | src/App.jsx:169 | every element left out of the top n has a key no greater than the n-th |
| Seqs.Distinct | src/components/ProjectSelector.jsx:47 | `new Set(...)` keeps each value once, no value is lost |
| Seqs.CountDistinct | src/components/TransparencyBoard.jsx:29 | `new Set(...).size` is the number of distinct values |
| Tally.Bump | src/pages/ContractorsPage.jsx:21-25 | `obj[k] = (obj[k] \|\| 0) + x`: an existing key keeps its place, a new key goes at the end with value x |
| Tally.BumpKeys | src/pages/VisualsPage.jsx:83 | a bump adds its key to the key set |
| Tally.BumpValues | src/pages/VisualsPage.jsx:83 | a bump adds x to its key's value, no other key changes, and the total grows by x |
| Tally.AccumulateKeys | src/pages/VisualsPage.jsx:81-84 | after a `forEach` of bumps the keys are the initial ones plus those of the counted items, and stay distinct |
| Tally.AccumulateValue | src/components/TransparencyBoard.jsx:33 | each key's value is its initial value plus the amounts of the counted items with that key |
| Tally.AccumulateTotal | src/components/TransparencyBoard.jsx:33 | the values add up to the initial total plus the amounts of all counted items |
| Tally.CountValue | src/pages/VisualsPage.jsx:83 | counting by ones gives each key its number of counted items |
| Tally.CountTotal | src/pages/VisualsPage.jsx:83 | counts by ones add up to the number of counted items |
| Tally.Fill | src/pages/VisualsPage.jsx:81-84 | the `forEach` loop builds exactly the accumulated dictionary |
| Tally.Labels | src/components/TransparencyBoard.jsx:51 | one label per entry, each the ellipsised key |
| ProjectSelector.Options | src/components/ProjectSelector.jsx:47 | the options are exactly the distinct non-empty values, in strictly ascending string order |
| ProjectSelector.Extract | src/components/ProjectSelector.jsx:47 | `extract(key)`: exactly the non-empty values of that field over the projects, distinct and ascending |
| ProjectSelector.Filters.Set | src/components/ProjectSelector.jsx:78 | `{ ...prev, [key]: value }` sets that key and keeps the others |
| ProjectSelector.FilterProjects | src/components/ProjectSelector.jsx:59-75 | a subsequence of the projects holding exactly those that match the search and every facet |
| ProjectSelector.FilteredMeetEveryFacet | src/components/ProjectSelector.jsx:66-73 | every shown project equals each non-empty facet's value |
| ProjectSelector.NoFilterShowsAll | src/components/ProjectSelector.jsx:60-73 | an empty search with no facet set shows the whole list in order |
| ProjectSelector.SearchIgnoresCase | src/components/ProjectSelector.jsx:61-64 | the search gives the same answer for a term and its lower case |
| ProjectSelector.SearchReadsThreeFields | src/components/ProjectSelector.jsx:61-64 | two projects that agree on desc, contractor and location match the same terms |
| ProjectSelector.TotalPages | src/components/ProjectSelector.jsx:83 | ⌈n/20⌉: enough pages for n items, none of them empty, and 0 pages for no items |
| ProjectSelector.SliceIndex | src/components/ProjectSelector.jsx:84-87 | `slice`'s index clamping: an index within bounds is kept, any index lands in [0, n] |
| ProjectSelector.JsSlice | src/components/ProjectSelector.jsx:84-87 | a slice is never longer than its list |
| ProjectSelector.PageSlice | src/components/ProjectSelector.jsx:84-87 | a page holds at most 20 items |
| ProjectSelector.PageContents | src/components/ProjectSelector.jsx:84-87 | page p holds the items at indices [(p-1)*20, p*20) that exist, in order |
| ProjectSelector.ItemOnItsPage | src/components/ProjectSelector.jsx:83-87 | item i is on page ⌊i/20⌋+1, which is a valid page, at position i mod 20 |
| ProjectSelector.PagePastEndEmpty | src/components/ProjectSelector.jsx:84-87 | a page past the last one is empty |
| ProjectSelector.PrevPage | src/components/ProjectSelector.jsx:191 | "Previous" never goes below page 1 and otherwise steps back one |
| ProjectSelector.NextPage | src/components/ProjectSelector.jsx:201 | "Next" never goes beyond the last page and otherwise steps on one |
| ProjectSelector.Selector.constructor | src/components/ProjectSelector.jsx:10-23 | no projects, loading, empty search, no facet set, page 1 |
| ProjectSelector.Selector.Loaded | src/components/ProjectSelector.jsx:34-43 | a non-empty load replaces the projects, an empty one keeps them; loading ends; nothing else changes |
| ProjectSelector.Selector.TypeSearch | src/components/ProjectSelector.jsx:14 | typing changes only the search box |
| ProjectSelector.Selector.SettleSearch | src/components/ProjectSelector.jsx:26-32 | when the debounce fires the search takes the typed text and the page resets to 1 |
| ProjectSelector.Selector.HandleFilterChange | src/components/ProjectSelector.jsx:77-80 | only the chosen facet changes, and the page resets to 1 |
| ProjectSelector.Selector.Previous | src/components/ProjectSelector.jsx:191 | the page steps back, never below 1; nothing else changes |
| ProjectSelector.Selector.Next | src/components/ProjectSelector.jsx:201 | the page steps on (both next buttons), never beyond the current page count; nothing else changes |
| VisualsPage.KeywordClass | src/pages/VisualsPage.jsx:26-31 | "flood" gives Flood Mitigation; failing it "drainage" gives Drainage, then "slope", "river" and "pump" in that order, each only when every earlier keyword is absent; no keyword gives none |
| VisualsPage.ClassifyType | src/pages/VisualsPage.jsx:25-39 | always one of the six type options: the type of work's keyword class when it has one, else the description's, else Others |
| VisualsPage.TypeOfWorkWins | src/pages/VisualsPage.jsx:26-31 | a keyword in typeOfWork decides the class whatever the description says |
| VisualsPage.OthersWhenNoKeyword | src/pages/VisualsPage.jsx:38 | with no keyword in either field the class is 'Others' |
| VisualsPage.FilterVisuals | src/pages/VisualsPage.jsx:41-51 | a subsequence holding exactly the projects that pass search, year, region and type |
| VisualsPage.SearchOverFourFields | src/pages/VisualsPage.jsx:43-45 | the search hits iff the lower-cased term occurs in the lower case of desc, contractor, region or location |
| VisualsPage.UnusedSelectionsIgnored | src/pages/VisualsPage.jsx:41-51 | province, DEO and legislative-district selections do not change the list |
| VisualsPage.RegionOptions | src/pages/VisualsPage.jsx:62-65 | exactly the non-empty regions, ascending |
| VisualsPage.ComputeStats | src/pages/VisualsPage.jsx:70-110 | project count, cost sum, distinct contractor count, region, type and contractor counters built by the `forEach` loops, the top seven contractors, and their chart labels cut to 15 characters (line 145) |
| VisualsPage.TypeCountsCoverAll | src/pages/VisualsPage.jsx:86-90 | the six type counts add up to the number of filtered projects |
| VisualsPage.TypesInitTotal | src/pages/VisualsPage.jsx:86 | the type counters start at 0 |
| VisualsPage.TypeKeysFixed | src/pages/VisualsPage.jsx:86-90 | counting never adds a seventh type |
| VisualsPage.TypesInitKeys | src/pages/VisualsPage.jsx:86 | the counters are keyed by exactly the six type options |
| VisualsPage.RegionCounts | src/pages/VisualsPage.jsx:81-84 | each region's count is its number of projects; empty regions are skipped; the counts add up to the projects with a region |
| VisualsPage.TopContractors | src/pages/VisualsPage.jsx:92-99 | at most seven entries, counts non-increasing, each a non-empty contractor of the filtered list |
| ContractorsPage.Zip | src/pages/ContractorsPage.jsx:21-25 | the per-name entry is made of its project count and its cost total |
| ContractorsPage.AlignedKeys | src/pages/ContractorsPage.jsx:21-25 | counters with aligned keys have the same key set |
| ContractorsPage.BumpAligned | src/pages/ContractorsPage.jsx:24-25 | bumping both counters on the same name keeps them aligned |
| ContractorsPage.CountersAligned | src/pages/ContractorsPage.jsx:18-26 | the count and total counters always list the same names in the same order |
| ContractorsPage.AddProjectBumpsBoth | src/pages/ContractorsPage.jsx:21-25 | adding a project to the entry list is bumping both counters |
| ContractorsPage.ComputeContractors | src/pages/ContractorsPage.jsx:15-29 | the `forEach` over projects followed by the sort gives the contractor list |
| ContractorsPage.CardName | src/pages/ContractorsPage.jsx:19-23 | every entry is a non-empty contractor name of some project |
| ContractorsPage.CardValues | src/pages/ContractorsPage.jsx:24-25 | an entry's `projects` is that name's project count and `total` its summed cost |
| ContractorsPage.CardsDistinct | src/pages/ContractorsPage.jsx:21-23 | no name has two entries |
| ContractorsPage.EveryContractorHasACard | src/pages/ContractorsPage.jsx:19-23 | every project with a contractor has an entry |
| ContractorsPage.ContractorsSorted | src/pages/ContractorsPage.jsx:28 | the list is a permutation of the entries ordered by total, descending |
| ContractorsPage.CountsAddUp | src/pages/ContractorsPage.jsx:18-26 | the `projects` fields add up to the projects with a non-empty contractor |
| ContractorsPage.FilterContractors | src/pages/ContractorsPage.jsx:31-33 | a subsequence of exactly the entries whose lower-cased name contains the lower-cased term |
| ContractorsPage.EmptySearchShowsAll | src/pages/ContractorsPage.jsx:31-33 | an empty term keeps every entry in order |
| ContractorsPage.SearchIgnoresCase | src/pages/ContractorsPage.jsx:31-33 | a term and its lower case select the same entries |
| TransparencyBoard.ComputeBoard | src/components/TransparencyBoard.jsx:27-51 | the board's total cost, distinct contractors, region costs, top five contractors and their labels, with the dictionaries built by the `forEach` loops |
| TransparencyBoard.RegionCostsAddUp | src/components/TransparencyBoard.jsx:28-33 | the region totals add up to `totalCost` |
| TransparencyBoard.RegionCostsPerRegion | src/components/TransparencyBoard.jsx:32-33 | one entry per region that occurs, holding that region's summed cost |
| TransparencyBoard.TopContractorCosts | src/components/TransparencyBoard.jsx:46-48 | at most five entries, non-increasing, drawn from the contractor totals without repeats, each a contractor with its summed cost; five when there are at least five contractors |
| TransparencyBoard.ContractorCostsAddUp | src/components/TransparencyBoard.jsx:46-47 | the contractor totals also add up to `totalCost` |
| TransparencyBoard.UniqueContractorsIsEntryCount | src/components/TransparencyBoard.jsx:29 | `uniqueContractors` is the number of contractor entries |
| ReportView.Opaque | src/components/ReportView.jsx:59 | the fill colour is the sampled colour, fully opaque |
| ReportView.WindowAt | src/components/ReportView.jsx:42-47 | the window starts at (max(0,x-25), max(0,y-25)) with extents min(width-startX, 50) and min(height-startY, 50) |
| ReportView.Snap | src/components/ReportView.jsx:53-54 | the 12-pixel block holding an offset starts at a multiple of 12 at most that offset |
| ReportView.SnapOf | src/components/ReportView.jsx:53-54 | that block start is unique |
| ReportView.Blur | src/components/ReportView.jsx:39-63 | `blurRegion` as a function of the raster: the size is kept |
| ReportView.BlurPixels | src/components/ReportView.jsx:53-62 | pixels outside the filled blocks keep their colour; the others take their block's sample colour |
| ReportView.EmptyWindowChangesNothing | src/components/ReportView.jsx:49 | when an extent is not positive no pixel changes |
| ReportView.BlocksAreFlat | src/components/ReportView.jsx:58-60 | all pixels of one block end with the same colour |
| ReportView.FillsReachSixty | src/components/ReportView.jsx:51-60 | fills are not clipped to the window: the block at offset 48 reaches 59 past the start |
| ReportView.SampleInOwnBlock | src/components/ReportView.jsx:58 | each block's sample pixel lies in that block |
| ReportView.BlurIdempotent | src/components/ReportView.jsx:58-60 | blurring twice at one point is blurring once (given the same off-canvas colour) |
| ReportView.PartialGrid | src/components/ReportView.jsx:53-62 | the raster part way through the loops keeps its size |
| ReportView.FillBlock | src/components/ReportView.jsx:60 | `fillRect` keeps the raster's size |
| ReportView.PartialStep | src/components/ReportView.jsx:58-60 | filling one block changes exactly that block's pixels |
| ReportView.FillStep | src/components/ReportView.jsx:54-60 | filling block (i, j) with its sample moves the loops on to (i, j+12) |
| ReportView.SampleNotYetFilled | src/components/ReportView.jsx:58 | the sample is read before its own block is filled, so it is still the original colour |
| ReportView.ColumnDone | src/components/ReportView.jsx:53-54 | a finished column of blocks is the start of the next column |
| ReportView.NothingFilledYet | src/components/ReportView.jsx:53 | before the loops the raster is untouched |
| ReportView.AllFilled | src/components/ReportView.jsx:53-62 | after the last column the raster is the blurred one |
| ReportView.ClientPoint | src/components/ReportView.jsx:71-77 | the first touch when there is one, else the mouse position |
| ReportView.GetCoords | src/components/ReportView.jsx:66-86 | the display point scaled into raster coordinates, undefined exactly when the box has no width or height |
| ReportView.EdgesMapToEdges | src/components/ReportView.jsx:79-85 | the box's left and top edges map to 0, its right and bottom edges to the raster's width and height |
| ReportView.FitWidth | src/components/ReportView.jsx:109-121 | the raster width is min(width, 600); a wider image's height is scaled by 600/width (whole part), a narrower one keeps it |
| ReportView.Canvas.Grid | src/components/ReportView.jsx:39-63 | the raster read as columns of pixels |
| ReportView.Canvas.constructor | src/components/ReportView.jsx:107-108 | no image and not drawing |
| ReportView.Canvas.ShowImage | src/components/ReportView.jsx:107-124 | the raster is resized to `FitWidth` and holds the drawn image |
| ReportView.Canvas.FillRect | src/components/ReportView.jsx:60 | the block's pixels inside the raster take the colour; no other pixel changes |
| ReportView.Canvas.BlurBlock | src/components/ReportView.jsx:55-60 | one pass of the inner loop advances the raster by one block |
| ReportView.Canvas.BlurRegion | src/components/ReportView.jsx:39-63 | the nested loops leave exactly the `Blur` of the old raster |
| ReportView.Canvas.HandleStart | src/components/ReportView.jsx:88-94 | with an image, drawing starts and the point is blurred; without one nothing happens |
| ReportView.Canvas.HandleMove | src/components/ReportView.jsx:96-101 | blurs only while drawing over an image; otherwise nothing changes |
| ReportView.Canvas.HandleEnd | src/components/ReportView.jsx:103-105 | drawing stops; the raster is untouched |
| ReportView.MoveWithoutStart | src/components/ReportView.jsx:96-97 | on a new screen showing an image, a move before any start leaves every pixel of the drawn image as it was and drawing off |
| ReportView.SaveDraft | src/components/ReportView.jsx:126-138 | nothing without a canvas; otherwise id is the clock, image the encoded canvas and the comment trimmed |
| Hooks.Without | src/hooks.js:17-19 | exactly the reports whose id differs, as a subsequence |
| Hooks.WithoutAbsent | src/hooks.js:17-19 | deleting an id no report has leaves the list unchanged |
| Hooks.WithoutIdempotent | src/hooks.js:17-19 | deleting twice is deleting once |
| Hooks.WithoutAfterAdd | src/hooks.js:13-19 | deleting the id of a report just added removes it along with every earlier report with that id |
| Hooks.ReportQueue.constructor | src/hooks.js:4-11 | the stored list, or empty when none is stored; then stored back |
| Hooks.ReportQueue.Add | src/hooks.js:9-15 | the report is appended, earlier entries unchanged, and the stored copy follows |
| Hooks.ReportQueue.Delete | src/hooks.js:17-19 | every report with the id goes, and the stored copy follows |
| Hooks.ReportQueue.Clear | src/hooks.js:21-23 | the queue is empty, and so is the stored copy |
| CommunityFeed.AgeOf | src/pages/CommunityFeed.jsx:74-84 | diff = ⌊(now-base)/1000⌋; seconds when diff < 60; ⌊diff/60⌋ minutes when that is under 60; then ⌊diff/3600⌋ hours under 24; else ⌊diff/86400⌋ days |
| CommunityFeed.FloorTwice | src/pages/CommunityFeed.jsx:78-82 | flooring by 60 and then by 60 (and 24) is flooring by 3600 (and 86400) |
| CommunityFeed.UnknownTimestampIsNow | src/pages/CommunityFeed.jsx:75-77 | a timestamp that is neither a date nor a number is "0s ago" |
| CommunityFeed.DemoAges | src/pages/CommunityFeed.jsx:74-84 | the three demo reports read "3d ago", "20h ago" and "5h ago" |
| CommunityFeed.RankByVotes | src/pages/CommunityFeed.jsx:24 | a permutation of the items with votes (missing as 0) non-increasing |
| CommunityFeed.FromDocs | src/pages/CommunityFeed.jsx:39-46 | one item per document: missing votes become 0, a missing date becomes now, the other fields are copied |
| CommunityFeed.SetVotes | src/pages/CommunityFeed.jsx:92 | items with the id take the given vote count; the others are untouched |
| CommunityFeed.SetVotesKeepsCards | src/pages/CommunityFeed.jsx:92 | card order and ids are kept, the matching cards show the new count, other cards are unchanged |
| CommunityFeed.DemoUpvoteDropsVotes | src/pages/CommunityFeed.jsx:88-92 | a first demo upvote on a 42-vote report shows 1 vote |
| CommunityFeed.AddVote | src/pages/CommunityFeed.jsx:88-92 | the corrected upvote: the matching card's votes grow by one, all else kept |
| CommunityFeed.AddVoteNeverLowers | src/pages/CommunityFeed.jsx:88-92 | the corrected upvote only ever raises a card's votes |
| CommunityFeed.Feed.constructor | src/pages/CommunityFeed.jsx:7-13 | no items, loading, demo mode, the stored counter, no comments open |
| CommunityFeed.Feed.ShowDemo | src/pages/CommunityFeed.jsx:17-27 | demo mode (also after a store error) shows the demo reports ranked by votes |
| CommunityFeed.Feed.ShowSnapshot | src/pages/CommunityFeed.jsx:38-49 | store mode shows the snapshot's items ranked by votes |
| CommunityFeed.Feed.Show | src/pages/CommunityFeed.jsx:47-49 | the list shown is ranked by votes and loading ends; counter and comments unchanged |
| CommunityFeed.Feed.Upvote | src/pages/CommunityFeed.jsx:86-93 | in demo mode the id's counter becomes (old or 0)+1, other counters are kept, and the matching items show that counter; in store mode nothing local changes |
| CommunityFeed.Feed.ToggleComments | src/pages/CommunityFeed.jsx:134 | flips that item's comment flag and no other |
| App.OrDefault | src/App.jsx:162-166 | `v \|\| d`: an absent or empty value gives the default |
| App.Normalise | src/App.jsx:158-168 | the card keeps the id; title defaults to 'Community Report', location to '', votes to 0 when not a number, imageUrl to null, author to 'Anonymous' |
| App.TopReportsRanked | src/App.jsx:158-170 | five cards (fewer when fewer reports), votes non-increasing |
| App.TopReportsLeftOut | src/App.jsx:158-170 | no report left out of the strip has more votes than the fifth card |
| App.TopReportsFromStore | src/App.jsx:158-170 | each card is a stored report with its defaults, and no card appears more often than its report is stored |
| App.ToDocument | src/App.jsx:116-129 | the report's own fields plus author, the photo only when the user has a non-empty one (`photoURL \|\| null`), imageUrl = the report's image, title project.desc or 'Community Report', location project.location or 'Unknown Location', status 'Verified', votes 0 |
| App.QueueDocuments | src/App.jsx:56-71 | one document per queued report, each with the default title and location |
| App.Uploader.constructor | src/App.jsx:22-24 | not syncing, empty status, progress 0 |
| App.Uploader.HandleSync | src/App.jsx:37-96 | without a user nothing is sent, the queue is kept and the login error shows; otherwise every queued report is sent; a failure shows its message and keeps the queue; success clears it and closes the modal |
| App.Uploader.UploadNow | src/App.jsx:98-147 | the queue is never read or changed; without a user the login error shows; otherwise one document for the report and its project is sent |
| ProfilePage.TotalVotes | src/pages/ProfilePage.jsx:20-24 | the `forEach` loop adds up the numeric votes |
| ProfilePage.VoteSumAppend | src/pages/ProfilePage.jsx:20-24 | the vote sum splits over concatenation |
| ProfilePage.NonNumbersIgnored | src/pages/ProfilePage.jsx:22-23 | votes that are not numbers count for nothing |
| ProfilePage.ReputationBounds | src/pages/ProfilePage.jsx:20-25 | the reputation is a multiple of ten, 0 for no reports, and not negative when no vote is |
| ProfilePage.Profile.constructor | src/pages/ProfilePage.jsx:13 | the reputation starts at 0 |
| ProfilePage.Profile.Refresh | src/pages/ProfilePage.jsx:16-28 | without a user the reputation stays; otherwise it is ten times the vote sum |
| Language.Lookup | src/LanguageContext.jsx:94 | an entry is found exactly for a key of the table, and it is that key's text |
| Language.T | src/LanguageContext.jsx:93-95 | `t(key)`: a key the table lacks is returned as is; otherwise its text; never empty for a non-empty key |
| Language.SameKeys | src/LanguageContext.jsx:6-87 | English and Tagalog define the same 39 keys, in the same order, each with a text |
| Language.TextsNonEmpty | src/LanguageContext.jsx:6-87 | every text in both tables is non-empty |
| Language.KnownKeyTranslates | src/LanguageContext.jsx:93-95 | a key of the table translates to its non-empty text |
| Language.MapNavShowsItself | src/App.jsx:33 | "map_nav" is in neither table, so the map tab's label is the key itself |
| Language.Toggled | src/LanguageContext.jsx:97-99 | the toggle swaps tl and en, so toggling twice restores the language |
| Language.LanguageState.constructor | src/LanguageContext.jsx:91 | the initial language is Tagalog |
| Language.LanguageState.Toggle | src/LanguageContext.jsx:97-99 | the language becomes the other one |
| Language.LanguageState.Translate | src/LanguageContext.jsx:93-95 | `t` in the current language; never empty for a non-empty key |

## Left out

- Network and storage I/O are not modelled:
  - the CSV `fetch` and its fallback URL (src/services/sumbong.js:61-71);
  - localStorage and its JSON encoding (src/services/sumbong.js:52-54,159; src/hooks.js:5-6,10; src/pages/CommunityFeed.jsx:13,91).
  - Instead, the stored payload, the fetched text and the stored counter are parameters, and what would be written is a result or a field (`Loaded.stored`, `ReportQueue.stored`).
  - Reads and writes are assumed to succeed. In the source, a corrupt cached payload (`JSON.parse`, src/services/sumbong.js:54) or a throwing cache write (`setItem`, src/services/sumbong.js:159, for example over quota) is caught by the catch-all at src/services/sumbong.js:161-163, and the loader returns [].
- The Firebase store and sign-in are not modelled (`addDoc`, `onSnapshot`, `runTransaction`, `serverTimestamp`, `AuthContext.jsx`):
  - snapshots are lists of plain records;
  - a write failure is the `failure` parameter;
  - the store-mode upvote transaction (src/pages/CommunityFeed.jsx:95-103) only leaves local state as it was;
  - `createdAt: serverTimestamp()` is not part of `Document`.
- `fetchSumbongProjects` (src/services/sumbong.js:1-47) is not part of this model. No page uses it, and it extracts by regular expressions.
- Date parsing and formatting are not modelled:
  - `toDateStr` (src/services/sumbong.js:120-134) is the `dateOf` parameter;
  - the year filter (src/pages/VisualsPage.jsx:46) is the `yearOf` parameter;
  - `yearOptions` and the `years` counter (src/pages/VisualsPage.jsx:53-60,75-79) are left out;
  - the `toLocaleString` time of a saved draft is an input.
- Sumbong.ParseFloat models the decimal syntax of `parseFloat`: leading white space, sign, digits, point, digits and exponent. It does not model `Infinity` or rounding to binary floating point: values are exact `real`s. Its lemmas state the plain decimal cases only, not the exponent.
- Cost sums (`reduce`, `+=`) are exact. JavaScript's floating-point rounding is not modelled, and neither are `toFixed` or currency formatting.
- Object key order: JavaScript lists integer-like keys first in ascending order. The counters (`Tally`) keep plain insertion order, which matches for region, type and contractor names that are not integer-like.
- Timers and debouncing are not modelled as time:
  - each effect or handler is modelled by its final state after its timers fire (`SettleSearch`, `Loaded`, the end of `HandleSync` and `UploadNow`);
  - `shown` lists the statuses displayed on the way;
  - the 50 ms load delay and the 300 ms debounce are not modelled.
- The canvas internals are left out:
  - pixel coordinates are integers, so fractional `getCoords` results and anti-aliased fills are not modelled (`HandleStart` and `HandleMove` take the raster point);
  - ReportView.GetCoords returns `None` for the whole point when the box has zero width or zero height. The source makes only the affected coordinate non-finite: with zero width, x is infinite and y is finite, and `blurRegion` then clamps the window start to 0. No pointer event reaches a canvas of zero size;
  - what `getImageData` returns for a point off the canvas is the `offCanvas` parameter;
  - the scaled image is the `drawn` parameter;
  - JPEG encoding (`toDataURL`) is an input of `SaveDraft`.
- ReportView.FitWidth keeps the whole part of the scaled height, as assigning a fractional height to a canvas does. It does not model the fractional value that is passed to `drawImage`.
- Hooks: a report saved on the report screen goes through `uploadNow` (src/App.jsx:319-322), and no component calls `addReport` or `handleSync`. The queue and `HandleSync` are modelled as written, and a queued `Draft` carries no project.
- Language.Lookup returns the last entry of a duplicated key, as an object literal does. Neither table has duplicates.
- Language.T treats every key that is not in a table as missing. `translations[language][key]` also follows the prototype chain, so a key such as "constructor" or "toString" yields a function rather than the key. Every call site passes a literal key or a sync status, and none of them is such a name.
- Charts (Chart.js), JSX markup, routing, the parallax background, the table and map pages and the static data in src/data/projects.js are not modelled. The eleven built-in projects of the transparency board (src/components/TransparencyBoard.jsx:9-21) are not a constant of the model: `ComputeBoard` takes any list of projects.
- Text.Lower follows `toLowerCase` only from U+0000 to U+017F (Basic Latin, Latin-1, Latin Extended-A). Greek, Cyrillic and other cased scripts are kept unchanged. `toLowerCase` turns İ (U+0130) into two code units, i and U+0307; the model gives i alone, so its result always has the input's length.
- Text.StrLess, Text.SortStrings, Text.Ellipsize, ProjectSelector.Options, ProjectSelector.Extract and VisualsPage.RegionOptions work on Unicode characters. JavaScript's `sort()` compares UTF-16 code units, and `length` and `substring` count them. For characters above U+FFFF (two code units each), the order and the 15-unit cut of the labels can differ from the model's.

## Findings

| source | as written | input that shows it | evidently intended | confidence | as-written member | corrected member |
|---|---|---|---|---|---|---|
| src/pages/CommunityFeed.jsx:88-92 | a demo upvote sets the card's votes to the local counter `(demoVotes[id] \|\| 0) + 1`, dropping the votes the report already had | upvoting "demo-1" (42 votes) with an empty counter shows 1 vote | the card's votes grow by one | not executed | CommunityFeed.DemoUpvoteDropsVotes | CommunityFeed.AddVote |

`CommunityFeed.Feed.Upvote` keeps the behaviour as written, since it is the
page's state. `CommunityFeed.AddVoteNeverLowers` proves that the corrected
update never lowers a card's votes.
