# Árazó — a verified model of the procurement core

This project models the computational core of Árazó, a construction-procurement web
application. The model covers:

- the server routes:
  - quote pricing with its rate-limit retry policy;
  - alias-first material matching;
  - quote extraction;
  - invoice extraction;
- the page logic:
  - project spend and budget categories;
  - subcontractor payment progress;
  - supplier grouping and ranking;
  - dashboard statistics;
  - catalogue price summaries;
  - price analysis;
  - the workforce page's worker and time-log handlers;
  - the quote upload naming;
- the authentication redirect decision.

Each source file is one Dafny module:

| module | file |
|---|---|
| `Common` | shared values: optional values, `||` defaults, sums, lower-casing, substring tests, filtering, a stable sort |
| `Retry` | `generateWithRetry`, shared by quote pricing and quote extraction |
| `QuotePricing` | `api/quote-pricing/route.ts` |
| `AiMatch` | `api/ai-match/route.ts` |
| `ProcessQuote` | `api/process-quote/route.ts` |
| `ProcessInvoice` | `api/process-invoice/route.ts` |
| `Projects` | `projects/page.tsx` |
| `Subcontractors` | `subcontractors/page.tsx` |
| `Suppliers` | `suppliers/page.tsx` |
| `Dashboard` | `page.tsx` |
| `Catalog` | `catalog/page.tsx` |
| `Analysis` | `analysis/page.tsx` |
| `Workforce` | `workforce/page.tsx` |
| `QuoteUpload` | `quotes/page.tsx` |
| `Middleware` | `src/middleware.ts` |

**Outside calls are parameters.** These include store queries and writes, storage, the
Gemini and OpenAI calls, `JSON.parse`, `parseFloat`, `Date.now` and the confirmation dialog.
Each one is passed in as a function or as the reply value the code would receive.

**Imperative code stays imperative.** The source's loops (the retry loop, the chunked
cleaning, the pricing loop, the alias partition, the supplier grouping, the spend sums)
are methods with loop invariants. Each method is proved equal to a specification
function, and the properties are proved about that function. The workforce page, whose
handlers update the page state, is a class.

**Numbers.** Money is `real`. A JavaScript `x || d` on a number is `NumberOr`: a missing
value or 0 gives `d`. On a string it is `TextOr`: a missing value or `""` gives `d`.

## Model

| member | source | states |
|---|---|---|
| Retry.GenerateWithRetry | src/app/api/quote-pricing/route.ts:11-41 | One to three calls. Every call before the last failed with a rate-limit or 503 error. The first answer is returned unchanged. A thrown error is the last call's own, and it comes early only when not retryable. Each wait is base·2^attempt. |
| Retry.RetryableErrors | src/app/api/quote-pricing/route.ts:20-29 | A 429 status or code, a 503 status, "RESOURCE_EXHAUSTED" in a non-empty message, or "Quota exceeded" in the serialised error when the message is empty, each make an error retryable. |
| Retry.OrdinaryErrorNotRetried | src/app/api/quote-pricing/route.ts:20-29 | An error whose status and code are not 429 or 503 and whose text has no '4', 'Q' or 'R' is not retried. |
| Retry.BadRequestNotRetried | src/app/api/quote-pricing/route.ts:20-35 | A 400 error with the message "Invalid argument" is not retried. |
| Retry.FullBackoffSchedule | src/app/api/quote-pricing/route.ts:32 | After three failed calls the two waits are 2·base and 4·base. |
| QuotePricing.UniqueTexts | src/app/api/quote-pricing/route.ts:104 | No duplicates. A text is listed iff some item has it as raw text. |
| QuotePricing.UniqueTextsInFirstAppearanceOrder | src/app/api/quote-pricing/route.ts:104 | The texts keep the order of their first appearance, as a `Set` does: a text listed before another appears before every occurrence of the other. |
| QuotePricing.InitialRecords | src/app/api/quote-pricing/route.ts:111-120 | One record per distinct text: clean name = text, not service-only, source none, price 0, no market link. |
| QuotePricing.LastEntryFor | src/app/api/quote-pricing/route.ts:146-156 | The cleaning entry applied to a key is the last one for it, or none iff no entry names it. |
| QuotePricing.ApplyEntriesEffect | src/app/api/quote-pricing/route.ts:146-156 | Applying cleaning results keeps the key set. Each key ends as its record cleaned by its last entry. |
| QuotePricing.CleaningKeepsUnpriced | src/app/api/quote-pricing/route.ts:122-163 | Cleaning adds no keys and never sets a price or source. |
| QuotePricing.CleanInChunks | src/app/api/quote-pricing/route.ts:122-163 | Chunks of 1..20 texts are sent in order. Without a failure they cover all texts. A failed chunk stops the loop and keeps earlier results. The result equals the specification of applied entries. |
| QuotePricing.CleanNextChunk | src/app/api/quote-pricing/route.ts:126-162 | One chunk turn: the chunk is sent. A failed call leaves the records as they are and ends the phase. Otherwise the loop state moves on by one chunk. |
| QuotePricing.ApplyReply | src/app/api/quote-pricing/route.ts:149-154 | The `forEach` over one reply's items equals applying its cleaning entries in order. |
| QuotePricing.FirstMatchFrom | src/app/api/quote-pricing/route.ts:177-180 | Finds the first catalogue entry whose name contains, or is contained in, the clean name ignoring case. |
| QuotePricing.Latest | src/app/api/quote-pricing/route.ts:183-184 | The price with the latest date. On equal dates it is the earliest such entry. |
| QuotePricing.PriceRecord | src/app/api/quote-pricing/route.ts:167-228 | Manual iff service-only. Internal iff the first match has a price, at the latest price. Market iff searched and the reply is found with a price > 0. On a market hit, the link is the grounding URI when there is one, and None otherwise. Prices and links only for those sources. |
| QuotePricing.MarketQueriesExactly | src/app/api/quote-pricing/route.ts:189-200 | The market is queried for exactly the clean names of texts that need a market search. |
| QuotePricing.PriceOne | src/app/api/quote-pricing/route.ts:168-228 | One iteration of the pricing loop equals PriceRecord. It searches iff a market search is needed. |
| QuotePricing.PriceAll | src/app/api/quote-pricing/route.ts:167-229 | Every text is priced by PriceRecord and other keys are untouched. The queries are exactly MarketQueries. |
| QuotePricing.PriceNext | src/app/api/quote-pricing/route.ts:168-229 | One turn of the pricing loop prices the next text and adds its market search, if any, keeping the loop state. |
| QuotePricing.FanOut | src/app/api/quote-pricing/route.ts:233-244 | One update per item, in order, carrying its raw text's result. |
| QuotePricing.CleanedRecords | src/app/api/quote-pricing/route.ts:104-163 | After cleaning there is a record for exactly the items' texts, all still unpriced. |
| QuotePricing.PriceQuote | src/app/api/quote-pricing/route.ts:84-249 | Empty items: nothing written and not analysed. Otherwise one update per item from its cleaned and priced record, and the quote is analysed. |
| QuotePricing.PriceAndFanOut | src/app/api/quote-pricing/route.ts:167-244 | Each item's update comes from its own text's cleaned record, priced. Every market query is the clean name of some item's text. |
| QuotePricing.ItemPriceColumns | src/app/api/quote-pricing/route.ts:236-242 | The internal price column is set iff the source is internal. The market price column is set iff market, and then it is > 0. Service-only items get manual with no prices. |
| AiMatch.Simplify | src/app/api/ai-match/route.ts:67-71 | One `{id, name, unit}` per item, in order. |
| AiMatch.AliasMatchesMeaning | src/app/api/ai-match/route.ts:38-46 | An item id is matched iff some item with that id has a non-empty alias. Its value is the alias of the last such item. |
| AiMatch.BuildAliasMap | src/app/api/ai-match/route.ts:27-32 | The alias map built by the loop has exactly the alias names as keys. It equals the specification AliasMap. |
| AiMatch.Partition | src/app/api/ai-match/route.ts:38-46 | The loop's matches equal AliasMatches. Its AI list is exactly the unaliased items in order. |
| AiMatch.MatchRoute | src/app/api/ai-match/route.ts:12-116 | Empty items give an empty map with no fetch. The catalogue is read iff some item has no alias. The AI is called iff, in addition, the catalogue is not empty, and it sees exactly the unaliased items. The answer is alias matches overridden by AI matches. An error comes iff the AI call throws. |
| AiMatch.MergePrefersAi | src/app/api/ai-match/route.ts:108 | Merged keys are the union. On a shared key the AI value wins. |
| AiMatch.AiInputIsUnaliased | src/app/api/ai-match/route.ts:67-71 | Everything sent to the AI is an unaliased item. Every unaliased item is sent. |
| ProcessQuote.MimeType | src/app/api/process-quote/route.ts:62 | PDF iff the lower-cased path ends in ".pdf". Otherwise JPEG. |
| ProcessQuote.UpperCasePdfIsPdf | src/app/api/process-quote/route.ts:62 | A ".PDF" path is sent as a PDF. |
| ProcessQuote.QuoteItemOf | src/app/api/process-quote/route.ts:115-122 | Quantity defaults to 1, unit to "db", price to 0. Status pending. Quantity is never 0 and unit never empty. |
| ProcessQuote.QuoteItems | src/app/api/process-quote/route.ts:115 | One row per extracted item, in order. |
| ProcessQuote.ProcessQuoteRoute | src/app/api/process-quote/route.ts:6-136 | A missing key fails before any download or AI call. A missing file fails before the AI. The AI is called 1..3 times with the path's MIME type. Every attempt before the last failed with a retryable error. A failure before the third attempt is one that is not retried. The k-th wait is 2^k · 2000 ms. An empty reply, a call still failing after the retries, or a reply that does not parse each fail the request and write nothing. Rows come only from an `items` array, and an `items` array in a non-empty reply is always written. A failed insert fails the request. The quote is marked processed iff rows were written without error. |
| ProcessInvoice.Trim | src/app/api/process-invoice/route.ts:73 | A slice of the text from which only white space is cut at either end, and which has no white space left at either end. |
| ProcessInvoice.SubstringProperties | src/app/api/process-invoice/route.ts:76 | JavaScript `substring`: the order of the ends does not matter, ends outside the string are clamped, the length is the distance of the clamped ends, (0, length) gives the whole string, and two ends both past the end or both at or before 0 give the empty string. |
| ProcessInvoice.CleanReply | src/app/api/process-invoice/route.ts:73 | The reply with every "```json" and then every "```" removed, trimmed: only white space is cut and none is left at either end. |
| ProcessInvoice.CleanReplyHasNoFence | src/app/api/process-invoice/route.ts:73 | The cleaned reply contains no "```". |
| ProcessInvoice.BraceSpan | src/app/api/process-invoice/route.ts:74-76 | Always a slice of the text. When a `{` precedes the last `}`, the span runs exactly from the first `{` through the last `}`. Without a `{` it is the text up to the last `}`. A `{` after the last `}` gives the text strictly between them. |
| ProcessInvoice.JsonSpan | src/app/api/process-invoice/route.ts:73-76 | The text handed to `JSON.parse` is a slice of the cleaned reply. |
| ProcessInvoice.NoFenceAfterRemoval | src/app/api/process-invoice/route.ts:74 | After every "```" is removed, no three backticks remain in a row. |
| ProcessInvoice.SpanHasNoFence | src/app/api/process-invoice/route.ts:73-76 | The extracted span never contains a code fence. |
| ProcessInvoice.BraceSpanKeepsNoFence | src/app/api/process-invoice/route.ts:76 | Cutting the span adds no fence. |
| ProcessInvoice.AssistantOutcome | src/app/api/process-invoice/route.ts:49-79 | A run that did not complete gives `{items: [], supplier_name: 'Ismeretlen'}`. A completed run gives the parse of its span. A throw gives its message. |
| ProcessInvoice.InvoiceItemOf | src/app/api/process-invoice/route.ts:30-37 | Quantity defaults to 1 (a 0 becomes 1), price to 0, unit to "buc". Status pending. |
| ProcessInvoice.InvoiceItems | src/app/api/process-invoice/route.ts:30 | One row per extracted line, in order. |
| ProcessInvoice.ProcessInvoiceRoute | src/app/api/process-invoice/route.ts:5-47 | A missing file is an error with no write. Otherwise the invoice is processed with the supplier name, defaulting to 'Ismeretlen Beszállító'. Items are written iff `items` is an array. |
| ProcessInvoice.IncompleteRunWritesNoItems | src/app/api/process-invoice/route.ts:70-78 | A run that did not complete marks the invoice processed under 'Ismeretlen' with no items. |
| Projects.MaterialSpent | src/app/projects/page.tsx:84-93 | The outer loop over the project's invoices equals MaterialSpend: quantity × price × rate over confirmed lines of the project's invoices. |
| Projects.AddConfirmedLines | src/app/projects/page.tsx:87-92 | The inner loop adds exactly the spend of the invoice's confirmed lines at its rate. |
| Projects.MaterialSpendOfOwnInvoices | src/app/projects/page.tsx:85 | Filtering the project's invoices first does not change material spend. |
| Projects.OnlyConfirmedLinesCount | src/app/projects/page.tsx:88 | Only confirmed lines contribute. |
| Projects.SubcontractorSpent | src/app/projects/page.tsx:100-104 | The loop equals the sum of all payment amounts on the project's jobs. |
| Projects.ProjectsWithSpent | src/app/projects/page.tsx:49-112 | No projects give an empty list. Otherwise one row per project, unchanged, with spent = material + labour + subcontractor + expense. |
| Projects.AddCategory | src/app/projects/page.tsx:121-123 | Appends a blank row coloured `CATEGORY_COLORS[len mod 8]` and keeps the others. |
| Projects.RemoveCategory | src/app/projects/page.tsx:125-127 | Removes exactly the row at the index. Out of range, nothing changes. |
| Projects.ChangeCategory | src/app/projects/page.tsx:129-133 | Only the chosen field of the chosen row changes. |
| Projects.AddThenRemove | src/app/projects/page.tsx:121-127 | Removing a just-added row restores the list. |
| Projects.CategoryRows | src/app/projects/page.tsx:154-159 | Each category is saved with the project id, its name, its parsed amount and its colour. |
| Projects.CreateProject | src/app/projects/page.tsx:138-171 | Rejected iff the name or some category name is empty. The project budget is the total of the allocations and its status is active. Categories are written iff the insert succeeded. |
| Projects.BudgetIsSumOfAllocations | src/app/projects/page.tsx:136-157 | The saved category amounts add up to the project budget. |
| Projects.BudgetStatus | src/app/projects/page.tsx:205-245 | No budget means progress 0. With a budget, progress × budget = spent × 100. Over budget iff spent > budget. Near the limit iff spent > 90% of budget. Over implies near. The bar is min(progress, 100). |
| Projects.PercentOfBudget | src/app/projects/page.tsx:205-207 | With a positive budget, (spent / budget) · 100 times the budget is spent · 100. It exceeds 100 iff spent > budget, and 90 iff spent > 0.9 · budget. |
| Subcontractors.Progress | src/app/subcontractors/page.tsx:50 | 0 without an agreed price. Otherwise paid/agreed·100: ≥ 100 iff paid ≥ agreed, and 0 iff nothing paid. |
| Subcontractors.ProcessJobs | src/app/subcontractors/page.tsx:48-52 | Every job is kept in order, with its total paid and progress. |
| Subcontractors.TotalPaidNonNegative | src/app/subcontractors/page.tsx:49 | Non-negative payments total non-negative. |
| Subcontractors.FilteredSubs | src/app/subcontractors/page.tsx:82-85 | Keeps exactly the partners whose name or trade contains the term, ignoring case. |
| Subcontractors.EmptySearchKeepsAll | src/app/subcontractors/page.tsx:82-85 | An empty term keeps every partner in order. |
| Common.FilterMultiplicity | src/app/subcontractors/page.tsx:82-85 | A JavaScript `filter` keeps every kept element as often as it occurs and drops every other one entirely. |
| Subcontractors.CreateSubcontractor | src/app/subcontractors/page.tsx:63-80 | A write happens iff name and trade are non-empty, with status active. A stored row is appended and the form resets. Otherwise nothing changes. |
| Subcontractors.Bar | src/app/subcontractors/page.tsx:207-208 | Width is at most 100, equals the progress when that is ≤ 100, and is 0 without a progress. Green iff progress ≥ 100. |
| Suppliers.SupplierNames | src/app/suppliers/page.tsx:54-69 | One entry per distinct supplier name. An empty name is grouped as 'Ismeretlen Beszállító'. |
| Suppliers.Entries | src/app/suppliers/page.tsx:58-68 | Each entry holds its invoice count and the sum of its invoice totals. |
| Suppliers.AbsentNameIsEmpty | src/app/suppliers/page.tsx:54-69 | A name with no entry has no invoices and no spend. |
| Suppliers.GroupInvoices | src/app/suppliers/page.tsx:54-69 | The grouping loop builds exactly one correct entry per name. |
| Suppliers.AddInvoice | src/app/suppliers/page.tsx:58-68 | One invoice opens its supplier's entry if needed and adds its total and one to the count, keeping the grouping invariant. |
| Suppliers.SortBySpent | src/app/suppliers/page.tsx:71 | Sorted by spend, non-increasing, and a permutation. |
| Suppliers.SupplierList | src/app/suppliers/page.tsx:54-71 | The list is the grouped entries sorted by spend. |
| Suppliers.GroupsCoverAllInvoices | src/app/suppliers/page.tsx:54-69 | Counts over all entries total the number of invoices. Spend totals all prices. |
| Suppliers.RenameRequest | src/app/suppliers/page.tsx:86 | No rename without a target, with an empty name, or with the same name. |
| Suppliers.RenameInvoices | src/app/suppliers/page.tsx:91-94 | Exactly the invoices under the old name get the new one. |
| Suppliers.FilteredSuppliers | src/app/suppliers/page.tsx:108-110 | Keeps exactly the names containing the term, ignoring case. |
| Suppliers.FilteredStaysSorted | src/app/suppliers/page.tsx:108-110 | Filtering keeps the spend order. |
| Suppliers.Ranked | src/app/suppliers/page.tsx:145 | Rank is position + 1. |
| Suppliers.RankFollowsSpend | src/app/suppliers/page.tsx:145 | A better rank never has less spend. |
| Dashboard.CountOr | src/app/page.tsx:33 | A missing count is 0. |
| Dashboard.NamedSuppliers | src/app/page.tsx:26-29 | Exactly the distinct non-empty supplier names. |
| Dashboard.UnnamedCountsZero | src/app/page.tsx:26-29 | An empty or absent name is never counted. |
| Dashboard.SupplierCounts | src/app/page.tsx:26-29 | The counting loop gives each named supplier its number of invoices, at least 1. |
| Dashboard.CountRow | src/app/page.tsx:26-28 | One row of the `reduce`: a named row opens its name at 1 or adds one. An unnamed row changes nothing. |
| Dashboard.TopOf | src/app/page.tsx:30 | 'Nincs adat' when there are no names. Otherwise a name with the largest count. |
| Dashboard.TopCountsMost | src/app/page.tsx:30 | The top supplier's count is at least any name's count. |
| Dashboard.LatestInvoices | src/app/page.tsx:31 | min(5, n) invoices, newest first, taken from the invoices. Every invoice left out is no newer than every one listed. |
| Dashboard.DashboardData | src/app/page.tsx:19-36 | Total spend is the sum of prices. Missing counts are 0. The top supplier is as TopOf. |
| Catalog.LastPrice | src/app/catalog/page.tsx:84 | The last entry's price, or 0. |
| Catalog.BestIndex | src/app/catalog/page.tsx:85 | The cheapest entry, with the later one on ties. |
| Catalog.BestEntry | src/app/catalog/page.tsx:85 | None iff there are no entries. Otherwise cheapest. |
| Catalog.TrendBadge | src/app/catalog/page.tsx:86-96 | Shown iff there are prices. 'Dráguló' iff the last price exceeds the one before. |
| Catalog.BestSource | src/app/catalog/page.tsx:105 | The best entry's supplier, or the fallback. |
| Catalog.Filtered | src/app/catalog/page.tsx:27 | Keeps exactly the materials whose name contains the term, ignoring case. |
| Catalog.EmptySearchKeepsAll | src/app/catalog/page.tsx:27 | An empty term keeps the catalogue. |
| Catalog.CheaperNewEntryBecomesBest | src/app/catalog/page.tsx:85 | An appended entry no dearer than the best becomes the best. |
| Analysis.PriceQuery | src/app/analysis/page.tsx:38-45 | Oldest first, and a permutation of the rows or of the selected material's rows. |
| Analysis.PointName | src/app/analysis/page.tsx:51-56 | The first array element's or the object's name, else 'Ismeretlen anyag'. |
| Analysis.ChartData | src/app/analysis/page.tsx:49-58 | One point per row, in order, with the row's price. |
| Analysis.MaxPrice | src/app/analysis/page.tsx:167 | At least every price and equal to one of them. 0 without points. |
| Analysis.MinPrice | src/app/analysis/page.tsx:174 | At most every price and equal to one of them. |
| Analysis.PriceSumBounds | src/app/analysis/page.tsx:174 | The price sum lies between n·low and n·high. |
| Analysis.AveragePrice | src/app/analysis/page.tsx:174 | 0 without points. Otherwise the average times the number of points is the sum of the prices. |
| Analysis.AverageWithin | src/app/analysis/page.tsx:174 | Prices between two bounds average between them. |
| Analysis.AverageBetweenMinAndMax | src/app/analysis/page.tsx:174 | The average lies between the least and greatest price. |
| Analysis.ChartFollowsQuery | src/app/analysis/page.tsx:40-58 | The point count equals the rows, and the dates are ascending. |
| Workforce.FindWorker | src/app/workforce/page.tsx:79 | None iff no worker has the id. Otherwise the first one that does. |
| Workforce.WorkforcePage.constructor | src/app/workforce/page.tsx:26-33 | Empty forms with role 'Általános'. The time form is dated today. |
| Workforce.WorkforcePage.CreateWorker | src/app/workforce/page.tsx:58-74 | Written iff name and rate are given. A stored worker is appended and the form resets. An error changes nothing. Timesheets are untouched. |
| Workforce.WorkforcePage.LogTime | src/app/workforce/page.tsx:76-102 | Written iff worker, project and hours are given and the worker is loaded. Cost is hours × rate. A stored row goes first. The form keeps worker, project and date. An error changes nothing. |
| QuoteUpload.FileExt | src/app/quotes/page.tsx:32 | The text after the last '.', or the whole name without one. |
| QuoteUpload.Sanitised | src/app/quotes/page.tsx:33 | Every character outside a-z, A-Z, 0-9 becomes '_'. |
| QuoteUpload.Stem | src/app/quotes/page.tsx:33 | min(10, length) characters, each the sanitised character at the same position of the name: a letter, a digit or '_'. |
| QuoteUpload.DecimalText | src/app/quotes/page.tsx:33 | The time stamp's decimal text: digits only, no leading zero, spelling the number. |
| QuoteUpload.StoragePath | src/app/quotes/page.tsx:34 | "quotes/" + timestamp + "_" + stem + "." + extension. |
| QuoteUpload.ExtensionSurvives | src/app/quotes/page.tsx:32-33 | The stored name has the chosen file's extension. |
| QuoteUpload.PathStaysInFolder | src/app/quotes/page.tsx:33-34 | No '/' in the file name when the extension has none. |
| QuoteUpload.HandleUpload | src/app/quotes/page.tsx:25-65 | No file means nothing happens. The quote row is written only after the upload, under the original name and pending. Analysis is requested only for a written quote. It opens iff the analysis answered. |
| QuoteUpload.DeleteQuote | src/app/quotes/page.tsx:67-73 | Deletes only after confirmation. Removes exactly the quotes with that id, and keeps every other quote as many times as it was listed. |
| Middleware.Decide | src/middleware.ts:48-61 | No session off the login page redirects to /login. A session on it redirects to /. Otherwise it passes through. Only the path changes. |
| Middleware.NoRedirectLoop | src/middleware.ts:48-61 | A redirect's target passes through with the same session. |
| Middleware.LoginVariantsAreLogin | src/middleware.ts:48-55 | Every path starting "/login" counts as the login page. |

## Left out

- Store queries and writes, storage, the Gemini and OpenAI calls, `JSON.parse`, `parseFloat` and `Date.now` are oracles. The model does not capture their failure modes beyond the replies it is given.
- QuotePricing.PriceRecord: the market search is an oracle keyed by the cleaned name. Two raw texts that clean to the same name get the same reply here, while the source makes one search per text, and those replies may differ.
- NaN, floating-point rounding, `Math.round`, `toLocaleString` and date formatting are not modelled. Dates are integers or opaque strings.
- `sleep` and the random jitter in the retry waits are not modelled. The waits are recorded as base delays only.
- Case-insensitive comparison lower-cases ASCII, the Latin-1 capitals and the Hungarian and Romanian letters ă, ő, ű, ş, ţ, ș and ț only. Full Unicode case mapping is not modelled.
- JavaScript strings are UTF-16. Here a character is a Unicode scalar value, so a character outside the Basic Multilingual Plane counts once in `substring(0, 10)` and in the sanitiser, where the source counts it twice.
- Object key order (integer-like keys first) in the supplier and dashboard maps is not modelled.
- Suppliers.GroupInvoices: a supplier name equal to an inherited `Object.prototype` property ("toString", "constructor", "__proto__", …) is grouped like any other name. In the source such a name reads as already present, so it gets no entry of its own.
- Dashboard.SupplierCounts: such names are counted like any other. In the source "__proto__" is never counted, and "constructor" becomes a string that breaks the count sort.
- AiMatch.Partition: an item whose raw name equals such a property is not treated as aliased unless the store holds an alias for it. In the source it reads as aliased, so it is never sent to the AI.
- Suppliers.SortBySpent: stability of the sort is not stated. Only order and permutation are proved.
- Dashboard.TopOf: which of several suppliers with the same highest count is shown is not stated.
- Dashboard.DashboardData: the recent invoices are the store's reply. Their order and limit are stated separately by `Dashboard.LatestInvoices`.
- QuotePricing.PriceQuote: market queries are stated to come from the items' cleaned names. The converse is stated by `QuotePricing.PriceAll` and `QuotePricing.MarketQueriesExactly`.
- The projects page does not model its form reset after creation or the error of the category insert.
- The cookie adapters and the route matcher of the middleware, and the page rendering, are not part of this model.
- The renaming of suppliers updates only invoices stored under the edited name. Invoices without a name, shown as 'Ismeretlen Beszállító', keep no name. `Suppliers.RenameInvoices` states exactly that.
