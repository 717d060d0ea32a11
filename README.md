# Stock-take archive endpoint

A Dafny model of `api/archive.js`, the serverless endpoint that archives a
stock-take comparison to SharePoint. A POST request carries a list of records.
The endpoint does four things in order:

1. It obtains a Microsoft Graph token with client credentials.
2. It checks that data was sent.
3. It looks up the site "Operations Stock Count" by display name and takes the
   first match.
4. It serialises the records to CSV and uploads the file to the site's
   "Documents" library, under a fresh name of the form
   `Inventory-Comparison-<date>-<id>.csv`.

Any error inside the `try` block becomes a 500 response that carries the
thrown message.

The model has five modules:

- `Wrappers`: `Option` and `Result`.
- `Strings`: JavaScript's one-character `split`, `join` and integer rendering,
  with their inverses. `Join` has no contract of its own. The lemmas
  `SplitJoin`, `JoinSplit`, `JoinCons` and `JoinStartsWithFirst` specify it.
- `Csv`: `generateCsv`, plus an independent reader `DecodeCsv` used to state
  the round trip.
- `Naming`: `createFileName` and the upload path, each with a parser and a
  round-trip lemma.
- `Archive`: the token check, the site-selection rule and `Handler`.

`Handler` is an imperative method with early returns, and `ArchiveRecords` is
the method for its last stage. The clock, the random generator and the three
remote calls are inputs, bundled in a `World`:

- `isoNow` is the text of `new Date().toISOString()`.
- `randomText` is the text of `Math.random().toString(36)`.
- Each remote call is given by its outcome: it either returned a value or
  threw an error with a message.

`Handler` returns the response and the trace of the network calls it
attempted. The predicates `IsPost` and `HasData` are the two gate tests of
lines 14 and 24. `Handler`'s contract states what happens on each side of
them.

Four behaviours of the code are easy to mistake, so the model states them
outright:

- Order of the checks. A missing or empty batch is not rejected before any
  network call. The code requests a token first (line 19) and only then looks
  at `req.body.data` (line 24). So an empty batch costs a token exchange, and if
  that exchange fails the response is 500, not 400. `Archive.Handler` states
  this order.
- Line count. The CSV text does not always have one line per record after the
  header. The code writes `itemId` and `status` verbatim, so a line break
  inside either adds a line. `Csv.CsvLineCount` gives the exact count, and
  `Csv.CsvLines`, `Csv.CsvRowOrder` and `Csv.CsvRoundTrip` assume no such line
  breaks.
- Field count. For the same reason, every comma in `itemId` or `status` adds a
  field to its row: those two fields are not escaped. `Csv.RowFieldCount`
  gives the exact count.
- `itemId`. The code does not require it to be non-empty. It serialises any
  string, including the empty one.

## Model

| member | source | states |
|---|---|---|
| Strings.Split | api/archive.js:82 | `split` with a one-character separator: at least one piece, and no piece contains the separator |
| Strings.JoinSplit | api/archive.js:82 | joining the pieces of `split` restores the text, for every text |
| Strings.JoinStartsWithFirst | api/archive.js:75 | `join` of one or more pieces begins with the first piece |
| Strings.FirstPiece | api/archive.js:82 | the first piece of `split` is a prefix of the text without the separator, and the separator follows it unless it is the whole text |
| Strings.SplitJoin | api/archive.js:75 | `split` undoes `join` when there is at least one piece and no piece contains the separator |
| Strings.SplitCount | api/archive.js:82 | `split` gives one more piece than there are separators in the text |
| Strings.SplitAround | api/archive.js:82 | splitting at one occurrence of the separator splits the two sides independently |
| Strings.SplitAtFirst | api/archive.js:82 | splitting at the first separator peels off the text before it as the first piece |
| Strings.SplitWithoutSeparator | api/archive.js:82 | text without the separator splits into itself alone |
| Strings.JoinCons | api/archive.js:75 | joining a list with at least two pieces is the first piece, the separator, then the join of the rest |
| Strings.NotInJoin | api/archive.js:75 | a character that is neither the separator nor in any piece is absent from the joined text |
| Strings.NatToString | api/archive.js:76 | the decimal rendering of a natural number is a non-empty run of digits with no leading zero: it starts with '0' only when it is "0" itself |
| Strings.IntToString | api/archive.js:76 | an integer as a template string renders it: non-empty, all digits except a leading '-', which appears exactly for negative values; canonical, with no leading zero after the sign and "0" the only text starting with '0' |
| Strings.DigitChar | api/archive.js:76 | a digit value below ten renders as a decimal digit character |
| Strings.DigitValue | api/archive.js:76 | a digit character's value is below ten and renders back as that character |
| Strings.ParseNatToString | api/archive.js:76 | reading back the rendering of a natural number gives the number |
| Strings.ParseIntToString | api/archive.js:76 | reading back the rendering of any integer, negative ones included, gives the integer |
| Csv.Unquote | api/archive.js:76 | removing a pair of quotes succeeds exactly when the field starts and ends with '"', and then quoting the result restores the field |
| Csv.HistoryText | api/archive.js:75 | the pipe-joined history is empty exactly when the history is, and holds no comma, newline or double quote, so it stays inside its quoted field |
| Csv.Row | api/archive.js:76 | the row template is the comma join of the seven fields of `RowFields`, in column order; only `itemId`, `status` and the history are quoted |
| Csv.GenerateCsv | api/archive.js:71-79 | the text opens with the header line and its newline, and is the header alone exactly when the batch is empty |
| Csv.ParseInts | api/archive.js:75 | a successful read of the history pieces gives one number per piece |
| Csv.DecodeRows | api/archive.js:78 | a successful read of the lines gives one record per line |
| Csv.HistoryRoundTrip | api/archive.js:75 | the pipe-joined history reads back as the recounts, all of them, in order; an empty history is the empty text |
| Csv.ParseIntsRoundTrip | api/archive.js:75 | reading the rendered recounts back gives the recounts |
| Csv.IntTextFree | api/archive.js:76 | a rendered quantity has no comma, pipe, newline or double quote |
| Csv.JoinSeven | api/archive.js:76 | seven fields joined by commas, with the commas written out |
| Csv.TemplateRegrouped | api/archive.js:76 | the row template is the three quoted fields and the four quantities separated by six commas |
| Csv.RowSplitsIntoFields | api/archive.js:76 | when `itemId` and `status` hold no comma, the row splits at commas into exactly its seven fields |
| Csv.RowFieldCount | api/archive.js:76 | there is no escaping: the row has seven fields plus one more for every comma in `itemId` or `status` |
| Csv.NestedFieldCount | api/archive.js:76 | when the four quantities and the history hold no comma, the field count of the regrouped row is seven plus one per comma in the two quoted text fields |
| Csv.SplitNested | api/archive.js:76 | a comma between two texts adds their field counts |
| Csv.QuotedFieldCount | api/archive.js:76 | quoting adds no field separator |
| Csv.RowHasNoNewline | api/archive.js:76 | a row whose `itemId` and `status` have no newline is a single line |
| Csv.RowsHaveNoNewline | api/archive.js:73-77 | no row of such a batch contains a newline |
| Csv.UnquoteQuote | api/archive.js:76 | a quoted field unquotes to its content, whatever the content is |
| Csv.RowRoundTrip | api/archive.js:76 | a row determines its record when `itemId` and `status` hold no comma |
| Csv.FieldsRoundTrip | api/archive.js:76 | the seven rendered fields of a record read back as that record, for any record |
| Csv.RowsRoundTrip | api/archive.js:73-77 | when no `itemId` or `status` holds a comma, the rows read back as the records, in order |
| Csv.HeaderColumns | api/archive.js:72 | the header line splits at commas into the seven column names, in order, and has no newline |
| Csv.HeaderSplit | api/archive.js:72 | the header ends in a newline, so the body's lines follow it unchanged |
| Csv.LineSplit | api/archive.js:78 | a line without newlines followed by '\n' is the first line of the text |
| Csv.CsvLines | api/archive.js:71-79 | the output is the header line, then one line per record in input order; an empty batch leaves an empty line after the header |
| Csv.CsvRowOrder | api/archive.js:71-79 | there is one line more than there are records, and line i + 1 renders record i |
| Csv.CsvRoundTrip | api/archive.js:71-79 | when no `itemId` or `status` contains a comma or newline, the CSV text reads back as the batch: contents and order |
| Csv.RowNewlines | api/archive.js:76 | a row holds exactly the line breaks of its `itemId` and `status`: the other fields add none |
| Csv.TemplateNewlines | api/archive.js:76 | the row template adds no line break of its own: its count is that of `itemId` plus that of `status` when the other parts hold none |
| Csv.JoinedNewlines | api/archive.js:78 | joining n texts with newlines adds exactly n - 1 line breaks |
| Csv.RowsNewlines | api/archive.js:73-77 | the rows together hold exactly the line breaks written inside the records' `itemId` and `status` fields |
| Csv.CsvLineCount | api/archive.js:71-79 | for a non-empty batch, the text has 1 + (number of records) lines plus one more for every line break inside an `itemId` or `status`: there is no escaping |
| CsvExamples.ExampleHistory | api/archive.js:74-75 | the history [8, 10] is written "8\|10" |
| CsvExamples.ExampleRow | api/archive.js:76 | the record A1/10/8/10/0/MATCH/[8,10] is written `"A1",10,8,10,0,"MATCH","8\|10"` |
| CsvExamples.ExampleRowText | api/archive.js:76 | the pieces of that row concatenate to the expected text |
| CsvExamples.SingleRecordExample | api/archive.js:71-79 | a batch of that one record is the header followed by that row, with no trailing newline |
| CsvExamples.HistoryExamples | api/archive.js:74-76 | [150, 145] is written "150\|145"; an empty history gives the empty quoted field |
| Naming.DatePart | api/archive.js:82 | `split('T')[0]`: the longest prefix of the timestamp that has no 'T'; it is followed by a 'T' when it is not the whole text |
| Naming.IsoDatePart | api/archive.js:82 | for a well-formed ISO timestamp the date part is its first ten characters |
| Naming.Substr | api/archive.js:83 | `substr(start, length)`: a slice beginning at `start`, of the requested length when the text is long enough, otherwise cut at the end of the text |
| Naming.UniqueId | api/archive.js:83 | `substr(2, 9)`: at most nine characters, exactly characters 2 to 10 when the text is long enough, all taken from the random text |
| Naming.CreateFileName | api/archive.js:81-85 | the name has the prefix "Inventory-Comparison-" and the extension ".csv" |
| Naming.FileNameRoundTrip | api/archive.js:81-85 | when the random id has no '-', the name determines the date part and the id |
| Naming.UploadPath | api/archive.js:88 | the path starts with "/sites/" and ends with ":/content" |
| Naming.UploadPathRoundTrip | api/archive.js:88 | when the site id and library have no '/', the path determines the site, the library and the file name |
| Naming.UploadPathPieces | api/archive.js:88 | when the site id and the library name hold no '/', between "/sites/" and ":/content" the path splits into the site, "drive", "root:", the library and the file name's pieces |
| Naming.SplitFourFirst | api/archive.js:88 | four separator-free segments split off the front of a path one at a time |
| Naming.UploadPathMiddle | api/archive.js:88 | the path written as its separator-joined segments |
| Naming.UploadPathInjective | api/archive.js:88 | distinct sites, libraries or file names give distinct paths, given '/'-free site ids and libraries |
| Archive.AuthenticatedClient | api/archive.js:48-63 | a client exists exactly when the token response has a present, non-empty access token; a thrown error passes through; a missing token fails with "Failed to acquire access token." |
| Archive.SiteIdFromLookup | api/archive.js:65-69 | an id is found exactly when the match list is non-empty; it is the first match's id; otherwise the error names the site |
| Archive.UploadRoundTrip | api/archive.js:30-33 | the upload step's path reads back as the site, the "Documents" library and the new file name, and its content reads back as the records in order, when the site id has no '/' and no `itemId` or `status` has a comma or newline |
| Archive.Handler | api/archive.js:12-44 | non-POST gives 405 with no call attempted; auth runs first; missing or empty data gives 400 only after auth succeeds; the lookup and upload carry the token; at most one upload, of the CSV of the data; 200 exactly when every step succeeded; every 500 carries "An error occurred." and the error message |
| Archive.ArchiveRecords | api/archive.js:29-43 | the lookup comes first; a failed lookup stops before the upload with a 500; otherwise exactly one upload, then 200 or the upload's error |
| Archive.SuccessMessage | api/archive.js:37 | the success message has the file name right after "Successfully archived " and ends with " to SharePoint." |
| Archive.SuccessNamesFile | api/archive.js:37 | the success message contains the archived file's name, which has the fixed prefix and the ".csv" extension |

## Left out

- Inputs, not computed: MSAL and the Graph client (lines 49-60, 62, 66 and 89) are not modelled. What each call returned or threw is an input.
- Inputs, not computed: the OData filter text `displayName eq '<name>'` is not modelled. The lookup step carries the site name.
- Inputs, not computed: `process.env`, the clock and `Math.random` are inputs.
- Response and logging: `console.log` and `console.error` are not modelled.
- Response and logging: the response object is the returned `Response` value, so `res.status(..).json(..)` is not modelled as a call.
- Asynchrony: `async`/`await` is not modelled. The steps run in order.
- Numbers: quantities are integers. JavaScript's rendering of fractional numbers, of `NaN` and of exponent notation is not modelled.
- Malformed requests: an undefined `req.body`, which throws a `TypeError` inside `try` and so gives a 500, is not modelled.
- Malformed requests: non-array `data` (a string or an object with `length`) is not modelled. `data` is either absent or a list of records.
- Malformed requests: records with missing or non-string fields (rendered "undefined", or throwing at `recountHistory.join`) are not modelled.
- Naming.UniqueId: the model makes no claim that the id is unique or random. It is a slice of the given text.
- Archive.UploadRoundTrip: requires a site id without '/'. Graph site ids have none, but the model does not derive that.
- Naming.FileNameRoundTrip: requires '-' not to occur in the random text. Base-36 text never contains one, but the model does not derive that.
- Csv.CsvLines: holds only for records whose `itemId` and `status` have no newline. Each newline there adds a line (see `Csv.CsvLineCount`).
- Csv.CsvRowOrder: holds only for records whose `itemId` and `status` have no newline, for the same reason.
- Csv.CsvRoundTrip: holds only for records whose `itemId` and `status` have no comma or newline. The output is not escaped, and with those characters the text does not determine the records (see `Csv.RowFieldCount`).
- Archive.Handler: the message of a thrown error is an abstract string in each outcome. `error.message` of a non-Error value (undefined) is not modelled.
