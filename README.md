# Receipt tracker server: a verified model of its rules

The server stores medical receipts. It reads a photo with a text detector, then mines the text
for a date, an amount, a vendor and a service type (`parseReceiptText`). When a receipt is
uploaded, it merges those suggestions with the form fields. It lists a user's receipts through a
parameterised SQL query. It also splits its schema file into statements, decides which browser
origins may call it, works out where an image is stored, and maps thrown errors to HTTP responses.

This project restates each of those rules in Dafny and proves what the code promises about them:

- **Regular expressions.** The ten global regular expressions of the parser are explicit scanners
  over `seq<char>`. `String.prototype.matchAll` is a leftmost, non-overlapping scan, and it is
  proved to be exactly that (`Patterns.MatchAllIsScan`).
- **The extraction loops.** The loops that collect date and amount candidates are imperative
  methods. Each loop is proved to compute a specification function (`FoundDates`,
  `FoundAmounts`), whose properties are proved as lemmas.
- **Picking a winner.** The stable sort followed by `[0]` is a loop that keeps the first best
  candidate. It is proved to give the first element that nothing outranks (`Candidates.Winner`).
- **Values and inputs.** Amounts are integer cents. The JavaScript date parser, the current year
  and today's date are parameters. Environment variables and request fields are `Option`
  values, with `None` for missing.

The model keeps the parser's behaviour on grouped amounts. The grouped patterns capture `1,234.56`,
and group 1 is passed to `parseFloat` with its commas still in it, so that candidate is read as 1
(`Candidates.GroupedAmountKeepsLeadingDigits`). The comma removal in the source only applies to the
whole match, which is used only when group 1 is empty, and it never is. The receipt's amount is not
necessarily 1: in `Total 1,234.56` the plain number pattern also matches `234.56` after the comma,
and like the grouped match at `1` its 20-character window holds `total`; both weigh 1, the later
position wins the tie, and the amount is 234.56.

Modules, file by file:

| file | module | models |
|---|---|---|
| wrappers.dfy | `Wrappers` | `Option` |
| text.dfy | `Text` | `\d`, `\s`, `trim`, `split`, ASCII case folding, decimal digits |
| dates.dfy | `Dates` | calendar dates and `toISOString().split('T')[0]` |
| patterns.dfy | `Patterns` | the date and amount regular expressions, `matchAll`, `match` |
| candidates.dfy | `Candidates` | the date and amount candidates, their weights, the winner |
| vendor.dfy | `VendorRules` | the vendor line scan and the two fallback expressions |
| service_type.dfy | `ServiceType` | the service-type classifier |
| receipt_parser.dfy | `ReceiptParser` | `parseReceiptText` as the source runs it |
| ocr.dfy | `Ocr` | the empty-detection result and the average confidence |
| storage.dfy | `Storage` | `isS3Configured`, `getFileUrl` |
| receipts.dfy | `Receipts` | the list query builder, image URLs, the upload merge rules |
| migrate.dfy | `Migrate` | the schema statement splitter |
| cors.dfy | `Cors` | the CORS origin callback |
| error_handler.dfy | `ErrorHandler` | the error-to-response table |

## Model

| member | source | states |
|---|---|---|
| Text.Trim | migrations/migrate.js:19 | `trim` leaves no whitespace at either end and never lengthens the string |
| Text.TrimEmptyIffBlank | routes/receipts.js:167-169 | a string trims to nothing exactly when every character is whitespace |
| Text.TrimKeepsOut | migrations/migrate.js:19 | trimming adds no character |
| Text.Split | migrations/migrate.js:18 | `split` gives at least one piece, and no piece contains a separator |
| Text.JoinSplit | migrations/migrate.js:18 | joining the pieces on the separator gives back the input |
| Text.SplitCount | migrations/migrate.js:18 | there is one more piece than there are separators |
| Dates.FormatIso | services/ocr.js:139 | the printed day ends in `-MM-DD` after a year of at least four characters |
| Dates.IsoRoundTrip | services/ocr.js:139 | every printed day reads back as the same date |
| Dates.FormatIsoInjective | routes/receipts.js:202 | two dates print alike only if they are the same date |
| Patterns.Run | services/ocr.js:108-152 | a greedy run is the longest run of its class from that position |
| Patterns.NumericDateShape | services/ocr.js:108-114 | a slash or dash date match is 1-2 digits, the separator, 1-2 digits, the separator and 2-4 digits, with a word boundary at both ends |
| Patterns.MatchAt | services/ocr.js:106-153 | a match starts where it was tried, lies in the text, and an amount match ends in `.` plus two digits |
| Patterns.FirstMatch | services/ocr.js:215 | `match` without `g`: the leftmost position where the pattern matches, and no match before it |
| Patterns.MatchAllIsScan | services/ocr.js:119 | `matchAll`: each element is the match at its own start, the matches are ordered and disjoint, and no uncovered position matches |
| Patterns.AmountGroupHasPoint | services/ocr.js:143-153 | every number the amount families capture contains `.` |
| Candidates.DateWeight | services/ocr.js:128 | full weight exactly when the match starts before position 500, otherwise half |
| Candidates.DateCandidateOf | services/ocr.js:121-130 | a match is kept exactly when its text parses to a date whose year is in [2000, currentYear + 1], weighted by its start |
| Candidates.FoundDatesSpec | services/ocr.js:117-135 | a date is a candidate exactly when some match of some date pattern yields it |
| Candidates.RemoveFirstDollarAt | services/ocr.js:159 | `replace('$', '')` removes the first `$` and keeps everything around it |
| Candidates.RemoveCommas | services/ocr.js:159 | `replace(/,/g, '')` leaves no comma, is shorter by exactly the number of commas, and keeps a comma-free string as is |
| Candidates.RemoveCommasAppend | services/ocr.js:159 | comma removal works piece by piece, so the other characters are kept in order |
| Candidates.AmountString | services/ocr.js:159 | the number string is group 1 trimmed, commas kept, when group 1 is non-empty; otherwise the whole match with its first `$` and its commas removed, trimmed (never reached: every amount group is non-empty) |
| Candidates.ParseFloatCents | services/ocr.js:160 | `parseFloat` gives a number exactly when the string starts with a digit |
| Candidates.CommaEndsNumber | services/ocr.js:159-160 | digits followed by a comma read as just those digits |
| Candidates.DecimalValue | services/ocr.js:160 | `d.dd` reads as the number it spells, in cents |
| Candidates.GroupedAmountKeepsLeadingDigits | services/ocr.js:151-160 | an instance of `CommaEndsNumber`: the capture `1,234.56` is worth 1 (100 cents) |
| Candidates.Window | services/ocr.js:162 | the keyword window is the up to 20 characters just before the match |
| Candidates.AmountWeight | services/ocr.js:162-165 | full weight exactly when a total word occurs, ignoring case, in the window |
| Candidates.AmountCandidateOf | services/ocr.js:158-168 | a match is kept exactly when its number is in (0, 100000) and contains `.`; it keeps its start and weight |
| Candidates.FoundAmountsSpec | services/ocr.js:155-170 | every amount candidate is in range, correctly weighted and comes from a match at its position whose number holds `.`; conversely every such match in range is a candidate |
| Candidates.Winner | services/ocr.js:137-139 | element 0 after a stable descending sort: nothing outranks it, and it outranks every element before it |
| Candidates.ChosenDate | services/ocr.js:137-140 | the date is absent exactly when there is no candidate |
| Candidates.ChosenAmount | services/ocr.js:172-178 | the amount is absent exactly when there is no candidate |
| Candidates.DateChoice | services/ocr.js:137-139 | the chosen date has the highest weight, and every earlier candidate weighs less |
| Candidates.AmountChoice | services/ocr.js:172-177 | the chosen amount has the highest weight and the latest position among that weight, and it is the first such |
| Candidates.ChosenDateFound | services/ocr.js:117-140 | the chosen date prints a candidate whose year is in [2000, currentYear + 1], read from a date match, that no candidate outweighs |
| Candidates.ChosenAmountFound | services/ocr.js:155-178 | the chosen amount is in (0, 100000), read from an amount match, and has full weight whenever some candidate does |
| VendorRules.LinesSpec | services/ocr.js:181 | every line is non-empty, trimmed and free of line breaks |
| VendorRules.WordLimit | services/ocr.js:201 | `split(' ').length <= 5` means at most four space characters |
| VendorRules.ScanWindow | services/ocr.js:184 | the window is `min(10, lines.length)` |
| VendorRules.FirstVendorLine | services/ocr.js:184-205 | the first line of the window that passes no skip rule and every accept rule |
| VendorRules.LineVendorSpec | services/ocr.js:181-205 | the scanned vendor is the first qualifying line of the window; there is none only when no line qualifies |
| VendorRules.ScanLines | services/ocr.js:184-205 | the `for`/`continue`/`break` loop computes `LineVendor` |
| VendorRules.LazyNameEnd | services/ocr.js:210 | the lazy name run ends at the first newline or end of text |
| VendorRules.LabelledAt | services/ocr.js:210 | the labelled-name expression matches where it was tried |
| VendorRules.GreedyNameEnd | services/ocr.js:211 | the longest 2 to 40 repetition that a line end follows |
| VendorRules.HeadingAt | services/ocr.js:211 | the heading expression matches only at a line start |
| VendorRules.FallbackFrom | services/ocr.js:214-223 | a fallback vendor is the trimmed group of a pattern, 3 to 49 characters long |
| VendorRules.VendorSpec | services/ocr.js:207-224 | the fallback is used only when the line scan found nothing; a fallback vendor is trimmed and 3 to 49 characters |
| ServiceType.FirstMentioned | services/ocr.js:236-241 | the first category, in order, whose keywords occur |
| ServiceType.DetectedServiceSpec | services/ocr.js:227-241 | the service type is the first category with a keyword in the text, ignoring case; it is absent exactly when no keyword occurs |
| ServiceType.DetectServiceType | services/ocr.js:236-241 | the loop with `break` computes `DetectedService` |
| ReceiptParser.CollapseWhitespace | services/ocr.js:103 | the only whitespace left is single spaces, never two in a row, and a non-blank text keeps its first character |
| ReceiptParser.CollapseKeepsNonSpaces | services/ocr.js:103 | the characters other than whitespace are kept, in order |
| ReceiptParser.CollapseIsSqueeze | services/ocr.js:103 | the result is what reading one character at a time gives: a space for the first whitespace character of each run, every other character copied |
| ReceiptParser.PickWinner | services/ocr.js:137-139 | the loop finds `Winner` |
| ReceiptParser.DatesOfMatches | services/ocr.js:120-134 | the inner date loop pushes exactly the kept matches, in order |
| ReceiptParser.CollectDates | services/ocr.js:117-135 | the date loops produce `FoundDates` |
| ReceiptParser.AmountsOfMatches | services/ocr.js:158-169 | the inner amount loop pushes exactly the kept matches, in order |
| ReceiptParser.CollectAmounts | services/ocr.js:155-170 | the amount loops produce `FoundAmounts` |
| ReceiptParser.FallbackVendor | services/ocr.js:208-224 | the fallback loop computes `FallbackFrom` |
| ReceiptParser.FindVendor | services/ocr.js:181-224 | the vendor rules compute `Vendor` |
| ReceiptParser.ParseReceiptText | services/ocr.js:99-244 | the procedure gives the fields `Extract` states |
| ReceiptParser.ExtractedDate | services/ocr.js:117-140 | a returned date prints a candidate with year in [2000, currentYear + 1], read from a date match, of the highest weight |
| ReceiptParser.ExtractedAmount | services/ocr.js:155-178 | a returned amount is in (0, 100000), read from an amount match, and counts fully whenever some candidate does |
| Ocr.ToWords | services/ocr.js:61-64 | one word per annotation, in the same order |
| Ocr.PositiveConfidences | services/ocr.js:67 | the positive confidences, from the words, empty exactly when none is positive |
| Ocr.RoundSpec | services/ocr.js:69 | `Math.round` gives the nearest integer, halves up |
| Ocr.AverageConfidence | services/ocr.js:67-70 | 85 when no word has a positive confidence |
| Ocr.AverageConfidenceBounds | services/ocr.js:67-70 | with confidences at most 1, the average is between 0 and 100 |
| Ocr.Summarize | services/ocr.js:60-81 | the full text is annotation 0, the confidence averages the others, at most 50 words are kept |
| Ocr.ProcessDetections | services/ocr.js:44-83 | the empty result when nothing was detected; otherwise the text, confidence, words and the fields of `Extract` |
| Storage.S3ConfiguredIff | services/storage.js:20-30 | S3 is configured exactly when the access key is longer than 10 and the secret is set, non-empty and not `dummy` |
| Storage.GetFileUrl | services/storage.js:73-83 | no URL exactly when S3 is configured, otherwise `/uploads/` followed by the key |
| Storage.LocalUrlRoundTrip | services/storage.js:82 | a local URL gives back the key it was made from |
| Receipts.FilterParams | routes/receipts.js:42-58 | one parameter per present filter |
| Receipts.FilterParamsSteps | routes/receipts.js:39-58 | the pushes give the user id, then the present filters in the order year, month, service type |
| Receipts.LimitIndexCount | routes/receipts.js:40-60 | LIMIT gets placeholder 2 plus the number of present filters |
| Receipts.AddFilter | routes/receipts.js:42-58 | a present filter adds its clause with the next placeholder, pushes its value and bumps the index; an absent one changes nothing |
| Receipts.ApplyFilters | routes/receipts.js:33-58 | the base text and the three filter steps |
| Receipts.BuildQueryOn | routes/receipts.js:33-61 | the text and parameters of the query |
| Receipts.BuildListQuery | routes/receipts.js:31-61 | the placeholders of the query are exactly 1, 2, …, n, with n the number of parameters |
| Receipts.ListQueryTextWellFormed | routes/receipts.js:33-60 | the base text holds only `$1`, and no clause holds a `$` or starts with a digit |
| Receipts.BaseQueryPlaceholders | routes/receipts.js:33-38 | the base text's one placeholder is `$1` |
| Receipts.ListQueryPlaceholders | routes/receipts.js:33-61 | the query's placeholders are 1 to 3 plus the number of present filters |
| Receipts.QueryWithPlaceholders | routes/receipts.js:39-60 | the numbering holds for any well-formed base text and clauses |
| Receipts.FilteredPlaceholders | routes/receipts.js:39-58 | after the filters, the placeholders run from 1 to one below the LIMIT number |
| Receipts.YearMonthPlaceholders | routes/receipts.js:39-52 | after the year and month steps the placeholders run from 1 on without gaps |
| Receipts.FilterPlaceholders | routes/receipts.js:42-46 | one filter step continues the numbering |
| Receipts.LimitOffsetPlaceholders | routes/receipts.js:60 | LIMIT and OFFSET take the next two numbers |
| Receipts.PlaceholdersAppend | routes/receipts.js:43 | numbering is additive when the appended text does not start with a digit |
| Receipts.AbsoluteUrl | routes/receipts.js:79-81 | a `/uploads/` URL gets the API base URL or `http://localhost:3000` in front; any other URL, or none, is kept |
| Receipts.ImageUrlSpec | routes/receipts.js:74-82 | a stored image has a URL exactly when S3 is not configured, and it is the base URL, `/uploads/` and the key |
| Receipts.BlankIff | routes/receipts.js:167-169 | a field is blank exactly when it is missing or all whitespace |
| Receipts.IsOcrOnlySpec | routes/receipts.js:167-169 | only date, vendor and amount decide an OCR-only request, each being missing or whitespace |
| Receipts.ReceiptDate | routes/receipts.js:197-210 | the typed date when not blank, else the parsed OCR date, else today; never blank |
| Receipts.ReceiptVendor | routes/receipts.js:213 | trimmed typed vendor, else trimmed OCR vendor, else empty, which happens only when both are blank |
| Receipts.ReceiptService | routes/receipts.js:216 | trimmed typed type, else trimmed OCR type, else `Other`; never empty |
| Receipts.ReceiptAmount | routes/receipts.js:219-224 | typed amount when not blank, else a non-zero OCR amount, else 0 |
| Migrate.KeepStatements | migrations/migrate.js:20 | filtering never adds a piece |
| Migrate.KeptAt | migrations/migrate.js:20 | the `k`-th statement is the chunk at the `k`-th kept position |
| Migrate.KeptIncreasing | migrations/migrate.js:20 | kept positions increase, so order is kept |
| Migrate.KeptIff | migrations/migrate.js:20 | a chunk is kept exactly when it is non-empty and does not start with `--` |
| Migrate.KeptAreStatements | migrations/migrate.js:20 | every kept string is a chunk and a statement |
| Migrate.ChunkShape | migrations/migrate.js:18-19 | every chunk is trimmed and holds no `;` |
| Migrate.StatementShape | migrations/migrate.js:17-20 | every statement is trimmed, non-empty, holds no `;` and does not start with `--` |
| Migrate.StatementsOrder | migrations/migrate.js:17-20 | statements are the trimmed `;`-pieces that qualify, each from one piece, in source order; a comment piece is dropped whole |
| Migrate.NoSemicolonOneStatement | migrations/migrate.js:17-20 | a schema without `;` gives at most one statement |
| Cors.EnvOrigins | server.js:30-32 | one configured origin per comma-separated piece |
| Cors.EnvOriginsTrimmed | server.js:30-32 | configured origins are trimmed and hold no comma |
| Cors.EnvEntryAllowed | server.js:30-49 | every configured entry, trimmed, is let through |
| Cors.NoOriginAllowed | server.js:27 | a request without an origin is let through |
| Cors.DevelopmentAllowsLocal | server.js:42-45 | outside production any localhost or 127.0.0.1 origin is let through |
| Cors.DefaultsAllowed | server.js:34-39 | the three default origins are always let through |
| Cors.ProductionUsesList | server.js:42-52 | in production a present origin passes exactly when it is listed |
| Cors.ProductionRejectsOtherLocalhost | server.js:34-53 | in production, without configuration, `http://localhost:3000` is refused |
| Cors.DevelopmentWidens | server.js:41-52 | whatever production lets through, every environment lets through |
| ErrorHandler.DetailMessages | middleware/errorHandler.js:23 | the messages of the details, in order |
| ErrorHandler.DefaultStatus | middleware/errorHandler.js:33 | the error's own non-zero status code, else 500 |
| ErrorHandler.HandleError | middleware/errorHandler.js:1-42 | the status is never 0, and every special case answers 409, 400 or 401 |
| ErrorHandler.DuplicateEntry | middleware/errorHandler.js:5-10 | code 23505 gives 409 `Duplicate entry`, whatever else the error says |
| ErrorHandler.InvalidReference | middleware/errorHandler.js:12-17 | code 23503 gives 400 `Invalid reference` |
| ErrorHandler.ValidationError | middleware/errorHandler.js:20-25 | a validation error gives 400 with the detail messages in order |
| ErrorHandler.InvalidToken | middleware/errorHandler.js:28-30 | a bad token gives 401 `Invalid token` |
| ErrorHandler.DefaultResponse | middleware/errorHandler.js:32-41 | any other error: its status or 500; production hides the message and the stack |
| ErrorHandler.ProductionHidesInternals | middleware/errorHandler.js:5-41 | in production no response carries a stack, and every error text is fixed |
| ErrorHandler.EnvironmentOnlyInDefault | middleware/errorHandler.js:5-30 | `NODE_ENV` matters only in the default case |

## Left out

- The text detector client, its call and the rewrapping of its errors (services/ocr.js:6-44, 84-93) are network I/O. Its answer is the input of `Ocr.ProcessDetections`.
- `new Date(string)` is implementation-defined, and `getFullYear` reads local time while the printed day is UTC. The parser is a parameter returning a calendar date, and the time of day and time zones are not modelled.
- The current year (`new Date().getFullYear()`) and today's date are parameters.
- Ocr.AverageConfidence: confidences are exact rationals, not IEEE doubles, so rounding errors of the floating-point sum are not modelled.
- Candidates.ParseFloatCents: `parseFloat` is modelled only on the shapes the amount patterns capture (digits, optionally `.` and digits). Amounts are cents, and digits past the second decimal are dropped rather than kept as a float.
- Receipts.ReceiptAmount: a typed amount is left symbolic as `ParseFloatOf(raw)`, and a numeric OCR amount is taken as is (`parseFloat` of a number).
- Receipts.BuildListQuery: `parseInt(limit)` and `parseInt(offset)` are left symbolic as `ParseIntOf(raw)`. The defaults 50 and 0 are numbers.
- Query and form values are strings or missing. Array values from repeated query keys are not modelled, and `null` and `undefined` are the same `None`.
- Receipts.BaseQuery: the literal keeps its words and line breaks. The exact run of spaces before each line is not part of any property.
- The stable sort followed by `[0]` is modelled by its first element only (`Candidates.Winner`). The rest of the sorted order is never read.
- `cleanText` (services/ocr.js:103) is modelled (`ReceiptParser.CollapseWhitespace`) and, as in the source, never used. The unused `words` argument of `parseReceiptText` is dropped.
- Lengths are counted in Unicode code points, not UTF-16 units. On OCR text holding characters outside the Basic Multilingual Plane (emoji, say), which JavaScript counts as two units each, the 500 cut-off of the date weight, the 20-unit keyword window and the vendor length tests (services/ocr.js:128, 162, 191-192, 218) can disagree with the source.
- The vendor accept rule `line.split(' ').length <= 5` counts single space characters, as the code does. Other whitespace, or runs of spaces, do not count as separate word separators.
- Database access, the count query, the other receipt routes and the statistics endpoint (routes/receipts.js beyond lines 31-81 and 161-224) are not modelled.
- File system and S3 I/O: `uploadFile`, `deleteFile` and services/s3.js are not modelled.
- Image compression (services/imageProcessing.js), Joi schemas (validators/), authentication, multer, helmet and rate limiting are not modelled.
- The migration loop that runs each statement and ignores "already exists" errors (migrations/migrate.js:22-34) is I/O. Its `statement.trim()` guard always holds for the statements the splitter produces (`Migrate.StatementShape`).
- The CORS warning log and the `Error` object of a refusal are modelled as the answer `false` of `Cors.OriginAllowed`.
- ErrorHandler.ValidationError: a Joi error is assumed to carry its `details` list. The console logging of the handler is left out.
- ErrorHandler.DefaultStatus: a non-numeric `statusCode` is not modelled; any value other than 0 or missing is used as the status.
