# Lead search page: a Dafny model of its page logic

`script.js` drives a one-page tool. It sends a search phrase to a webhook and
receives an array of Google Maps business listings. It turns them into
records (`Nome`, `Telefone`, `Categorias`, `Endereço`, `Website`, `Cidade`,
`Estado`, `CEP`, `Rating`, `Quantidade de Avaliações`) and shows them in a
five-column table. It can also export them to a spreadsheet. This project
lifts the pure logic out of the DOM and network code and proves properties
of it:

- `Text`: the JavaScript built-ins the page relies on. These are `join` on an
  array of strings, `trim` with ECMAScript's whitespace set, and the decimal
  text of an array length in a template literal.
- `Listings`: the response body (`Arr` of entries, or `NotArr`), the listing
  and record shapes, and `Normalize`, which is the `result.map(...)` step.
- `Links`: the website href rewrite `"http://" + w.replace(/^https?:\/\//, '')`.
- `Table`: the rendered table as a list of rows (`Data`, `NoResults`,
  `CommFailure`) of cells (`Plain`, `Link`).
- `Export`: the ten-column projection, its inverse, and `ExportToExcel`, which
  refuses an empty record set.
- `Controller`: the page state (`Ui`) with `toggleLoading`, `populateTable`,
  `executeSearch` (split into `Begin` and `Settle`) and `cyclePlaceholders`.
  The fetch result is an input: `Ok(body)` or `Fail`.

The model follows the code in these places, which are easy to misread:

- A search that fails before its records are stored (fetch, HTTP status,
  JSON decoding, or a `null` entry) does not replace `searchResultsData`.
  The previous records stay stored, but export is disabled and the table
  shows the failure row (`Controller.SearchFailure`).
- A phone is read with `?.[0] || null`, so an empty first number counts as no
  phone (`Listings.PhoneIsFirstNumber`).
- A `null` entry in the response array makes `item.name` throw inside `map`.
  The same `catch` that handles network errors handles this, so such a body
  ends on the failure row (`Listings.MapElements`, `Controller.Settle`).
  Entries that are neither objects nor `null` produce a record whose fields
  are all absent except `Categorias`, which is the empty string.
- `cyclePlaceholders` writes the placeholder attribute on every tick,
  whatever the field holds.
- `populateTable` on an empty set does not touch the export or results flags.
  They are off because `executeSearch` turned them off before the request.

## Model

| member | source | states |
|---|---|---|
| Text.Join | script.js:113 | the join of no entries is empty, of one entry is that entry, and of several starts with the first entry and the separator |
| Text.JoinAppend | script.js:113 | joining two non-empty subtype lists puts exactly one `", "` between their joins |
| Text.JoinLength | script.js:113 | a join of n entries has all their characters plus n - 1 separators |
| Text.JoinEmptyIff | script.js:113 | with a non-empty separator the join is empty only for `[]` and `[""]` |
| Text.TrimStart | script.js:84 | drops only leading whitespace, leaves a suffix that does not start with whitespace |
| Text.TrimEnd | script.js:84 | drops only trailing whitespace, leaves a prefix that does not end with whitespace |
| Text.Trim | script.js:84 | the trimmed query is no longer than the raw one and has no whitespace at either end |
| Text.TrimIsSlice | script.js:84 | the trimmed query is a contiguous slice of the raw one with only whitespace cut off either end |
| Text.TrimEmptyIff | script.js:84-85 | the trimmed query is empty exactly when the raw query is all whitespace |
| Text.TrimIdempotent | script.js:84 | trimming an already trimmed query changes nothing |
| Text.Decimal | script.js:77 | the count in the status is a non-empty digit string without a leading zero |
| Text.ParseDecimalOfDecimal | script.js:77 | reading the decimal text back gives the count |
| Text.DecimalInjective | script.js:77 | different counts give different status digits |
| Listings.FirstPhone | script.js:112 | a phone, when present, is the non-empty first entry of `emails_and_contacts.phone_numbers`; it is absent only when that entry is missing or empty |
| Listings.Categories | script.js:113 | no subtypes give `""`, one subtype gives itself, several start with the first subtype and `", "` |
| Listings.ToRecord | script.js:111-120 | name and the seven other fields pass through; the phone is the first non-empty number or none; no subtypes give `""` |
| Listings.MapElements | script.js:110-121 | the mapping throws exactly when some entry is `null`; otherwise record i comes from entry i and the lengths agree |
| Listings.Normalize | script.js:107-124 | a non-array body gives no records; an array without `null` gives one record per entry; a `null` entry gives the thrown error |
| Listings.NormalizeListings | script.js:109-121 | N listing objects give exactly N records, record i built from listing i |
| Listings.NormalizeKeepsDuplicates | script.js:110 | equal entries give equal records, so duplicates are kept |
| Listings.MapElementsAppend | script.js:110 | mapping a concatenated array concatenates the mapped parts, and throws if either part throws |
| Listings.PhoneIsFirstNumber | script.js:112 | with a phone list, the phone is its first entry when that is non-empty, else none |
| Listings.CategoriesEmptyIff | script.js:113 | categories are `""` exactly when subtypes are missing, `[]` or `[""]` |
| Listings.CategoriesAppend | script.js:113 | the categories of subtypes `a + b` are those of `a`, `", "`, then those of `b` |
| Links.SchemesExclusive | script.js:70 | the `http://` and `https://` prefixes cannot both match |
| Links.StripScheme | script.js:70 | removes exactly one matching prefix and leaves any other text unchanged |
| Links.Href | script.js:70 | every href starts with `http://`, and what follows it is the website with one scheme stripped |
| Links.HrefConverges | script.js:70 | `host`, `http://host` and `https://host` give the same href `http://host` when the host has no scheme |
| Links.HrefIdempotent | script.js:70 | rewriting a produced href gives the same href |
| Links.HrefEqualIff | script.js:70 | two websites share an href exactly when they agree after stripping the scheme |
| Links.HrefKeepsHostIff | script.js:70 | the href is `http://` plus the stored value exactly when the value has no scheme |
| Links.ExampleDotCom | script.js:70 | `example.com` and `https://example.com` both link to `http://example.com` |
| Links.StripsOnlyOnce | script.js:70 | a doubled scheme loses only its outer prefix |
| Links.CaseSensitive | script.js:70 | an upper-case `HTTPS://` is not stripped |
| Table.Shown | script.js:66-69 | a missing or empty text shows `-`, any other text shows itself, and no cell is blank |
| Table.WebsiteCell | script.js:70 | a link appears exactly when the website is non-empty; its caption is the stored value and its href is the rewritten website, starting with `http://` |
| Table.RenderRow | script.js:63-71 | each record gives one data row of five non-blank cells, with a link in the last one exactly when there is a website |
| Table.RenderRows | script.js:63-73 | one five-cell data row per record |
| Table.RenderRowsPointwise | script.js:63-73 | row i is the rendering of record i |
| Table.RenderRowsAppend | script.js:63-73 | rendering a concatenation renders each part in order |
| Table.RenderRowDashes | script.js:66-69 | each of the first four cells is a dash exactly when its field is missing, empty, or literally `-` |
| Export.Project | script.js:147-158 | an export row has exactly the ten column headers in the fixed order |
| Export.UnprojectProject | script.js:147-158 | each record can be read back from its export row |
| Export.ProjectInjective | script.js:147-158 | different records give different export rows |
| Export.ExportOf | script.js:142-158 | nothing is exported exactly when the record set is empty |
| Export.ExportToExcel | script.js:141-169 | no file for an empty set; otherwise sheet `Empresas` in `busca_leads.xlsx` with one ten-column row per record, in order, reading back to that record |
| Controller.ReportedCountOfFound | script.js:77 | the "results found" status reads back as exactly the record count |
| Controller.ToggleLoading | script.js:39-49 | sets the loading flag; turning it on sets the busy status, turning it off keeps the status; nothing else changes |
| Controller.PopulateTable | script.js:55-78 | empty data gives the single no-results row with export and results flags untouched; otherwise the table is exactly the rendering of the records, one five-cell row each, in order, export and results on, and a status reporting the count |
| Controller.Begin | script.js:84-93 | an all-whitespace query changes only the status; any other query issues one POST of the trimmed query and sets loading, empty table, export off and results hidden |
| Controller.Caught | script.js:129-132 | the catch branch shows the failure row and error status and changes nothing else: records, loading, export and results flags are kept |
| Controller.Settle | script.js:95-135 | loading ends off on every path; a decoded body stores its records; a thrown error keeps the old records and shows the failure row |
| Controller.ExecuteSearch | script.js:83-136 | no request and only the prompt status for a blank query; otherwise exactly one request with the trimmed query, and loading off at the end |
| Controller.SearchSuccess | script.js:106-127 | a successful search stores exactly the normalised records; empty gives the placeholder row with export off; non-empty gives one row per record with export on |
| Controller.SearchFailure | script.js:129-135 | a failed search keeps the previous records, shows the failure row and the error status, leaves export off and loading off |
| Controller.NonArrayBody | script.js:107-127 | a non-array body stores no records, shows the no-results row, and leaves nothing to export |
| Controller.InitialCoherent | script.js:13 | the page starts with no records, not loading, and coherent |
| Controller.SearchKeepsCoherent | script.js:83-136 | after any search, if export is enabled then the table shows exactly the stored records the export writes |
| Controller.TableMatchesExport | script.js:147-158 | each table cell shows what the matching export column holds, under the dash rule |
| Controller.CyclePlaceholders | script.js:29-32 | the index advances by one modulo the number of phrases (five), the placeholder is that phrase, and nothing else changes |
| Controller.TicksIndex | script.js:30 | after k ticks the index has advanced k places modulo the number of phrases |
| Controller.TicksCycle | script.js:30 | one tick per phrase returns a valid index to where it started |
| Controller.TicksReachEvery | script.js:30-31 | every phrase index is reached within one tick per phrase |

## Left out

- `fetch`, the HTTP status check and `response.json()` (script.js:96-106) are not modelled. A search's outcome is the input `FetchOutcome`: a decoded body, or `Fail` for any thrown error.
- DOM mutation, CSS class toggling, `innerHTML` markup and `alert` are out. Rows, cells, flags and the export outcome are datatypes instead. The markup is built without HTML escaping; that is a defect, and the model does not encode it.
- The `XLSX` calls and the column width hints (script.js:160-169) are out, because they belong to a foreign library. Only the projection handed to it is modelled, plus the sheet and file names.
- The three-second `setInterval` timing (script.js:33) is out. Only the index step is modelled.
- The Enter key and the button both call `executeSearch` with no in-flight guard (script.js:173-179). Two overlapping searches could race. Concurrency is not modelled, and no mutual exclusion is claimed.
- `console.error` diagnostics are out.
- `rating` and `review_count` are an opaque `Numeric` passed through unchanged. No arithmetic is done on them.
- JSON values of unexpected types in the text fields are out. This covers a number in `name`, a string `phone_numbers` indexed as characters, and non-string `subtypes` entries converted by `join`. It also covers a truthy non-string `website` (a number, `true`, an object or an array): `populateTable` throws on `item.Website.replace` at script.js:70, after script.js:126 has already stored the new records, so the failure row appears while the new records stay stored. Text fields are strings or absent. `null` and `undefined` fields are both `None`.
- The page's initial HTML (first status text, initial placeholder, export button state) is not part of this model. `Controller.Initial` assumes an empty status and table, export disabled, results hidden, and the first phrase as placeholder.
- Text.Decimal: does not model JavaScript's exponent notation for numbers of 10^21 and above, because an array length never gets that large.
