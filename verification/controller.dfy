/** The page controller: the state `script.js` keeps in DOM widgets and in
    `searchResultsData`, and the transitions of `toggleLoading`,
    `populateTable`, `executeSearch` and `cyclePlaceholders`. */
module Controller {
  import opened Text
  import opened Listings
  import opened Table
  import opened Export

  const WebhookUrl := "https://webhook.ia-tess.com.br/webhook/scraping-google-maps"

  const PromptMessage := "Por favor, insira um termo de busca."
  const BusyMessage := "Buscando e processando dados... Isso pode levar alguns minutos."
  const NoDataMessage := "A busca foi concluída, mas nenhum dado foi retornado."
  const FailureMessage := "Ocorreu um erro ao buscar os dados. Tente novamente."
  const FoundPrefix := "Busca concluída! "
  const FoundSuffix := " resultados encontrados."

  const Placeholders: seq<string> := [
    "Ex: Oficinas em Fernandópolis, SP",
    "Ex: Restaurantes em São Paulo, SP",
    "Ex: Advogados no Rio de Janeiro, RJ",
    "Ex: Padarias em Belo Horizonte, MG",
    "Ex: Clínicas veterinárias em Curitiba, PR"]

  /** What the page shows and holds.
      `loading`: search button disabled, its label hidden, spinner shown.
      `records`: the `searchResultsData` array read by the export. */
  datatype Ui = Ui(
    loading: bool,
    status: string,
    table: seq<Row>,
    resultsVisible: bool,
    exportEnabled: bool,
    records: seq<Record>,
    placeholderIndex: nat,
    placeholder: string)

  /** The page before any search: nothing stored, nothing shown. */
  const Initial := Ui(false, "", [], false, false, [], 0, Placeholders[0])

  /** The webhook call: a POST of `{"termo_de_busca": term}` as JSON. */
  datatype Request = Post(url: string, termoDeBusca: string)

  /** How the awaited `fetch` + `response.json()` settled: a decoded body, or
      a thrown error (network failure, non-2xx status, unparsable JSON). */
  datatype FetchOutcome = Ok(body: Response) | Fail

  /** The synchronous prefix of `executeSearch`, up to the first `await`. */
  datatype Begun = Rejected(ui: Ui) | Accepted(ui: Ui, request: Request)

  /** A whole search: the state once it settled and the request it issued. */
  datatype SearchStep = SearchStep(ui: Ui, request: Option<Request>)

  /** The status line after a non-empty search. */
  function FoundMessage(n: nat): string
  {
    FoundPrefix + Decimal(n) + FoundSuffix
  }

  /** The count a status line reports, if it is a "results found" line. */
  function ReportedCount(status: string): Option<nat>
  {
    if |status| >= |FoundPrefix| + |FoundSuffix|
       && StartsWith(status, FoundPrefix)
       && status[|status| - |FoundSuffix|..] == FoundSuffix
    then
      var digits := status[|FoundPrefix|..|status| - |FoundSuffix|];
      if AllDigits(digits) then Some(ParseDecimal(digits)) else None
    else None
  }

  /** The "results found" status reports exactly the number of records. */
  lemma ReportedCountOfFound(n: nat)
    ensures ReportedCount(FoundMessage(n)) == Some(n)
  {
    var s := FoundMessage(n);
    assert s[..|FoundPrefix|] == FoundPrefix;
    assert s[|s| - |FoundSuffix|..] == FoundSuffix;
    assert s[|FoundPrefix|..|s| - |FoundSuffix|] == Decimal(n);
    ParseDecimalOfDecimal(n);
  }

  /** `toggleLoading(isLoading)`: turning loading on also sets the busy
      status; turning it off leaves the status alone. */
  function ToggleLoading(ui: Ui, isLoading: bool): (u: Ui)
    ensures u.loading == isLoading
    ensures isLoading ==> u.status == BusyMessage
    ensures !isLoading ==> u.status == ui.status
    ensures u.(loading := ui.loading, status := ui.status) == ui
  {
    if isLoading then ui.(loading := true, status := BusyMessage) else ui.(loading := false)
  }

  /** `populateTable(data)`. The empty branch writes only the placeholder row
      and the status; it leaves the export and results flags as they were. */
  function PopulateTable(ui: Ui, data: seq<Record>): (u: Ui)
    ensures u.records == ui.records && u.loading == ui.loading
    ensures u.placeholderIndex == ui.placeholderIndex && u.placeholder == ui.placeholder
    ensures data == [] ==>
      && u.table == [NoResults] && u.status == NoDataMessage
      && u.exportEnabled == ui.exportEnabled && u.resultsVisible == ui.resultsVisible
    ensures data != [] ==>
      && u.table == RenderRows(data)
      && |u.table| == |data|
      && (forall i :: 0 <= i < |data| ==> u.table[i].Data? && |u.table[i].cells| == ColumnCount)
      && u.exportEnabled && u.resultsVisible
      && ReportedCount(u.status) == Some(|data|)
  {
    if data == [] then
      ui.(table := [NoResults], status := NoDataMessage)
    else
      ReportedCountOfFound(|data|);
      ui.(table := RenderRows(data), resultsVisible := true, exportEnabled := true,
          status := FoundMessage(|data|))
  }

  /** script.js:84-93: an all-whitespace query only sets the prompt; any other
      query turns loading on, clears the table, disables the export, hides
      the results and issues one request with the trimmed query. */
  function Begin(ui: Ui, rawQuery: string): (b: Begun)
    ensures b.Rejected? <==> AllWhitespace(rawQuery)
    ensures b.Rejected? ==> b.ui == ui.(status := PromptMessage)
    ensures b.Accepted? ==>
      && b.request == Post(WebhookUrl, Trim(rawQuery))
      && b.request.termoDeBusca != ""
      && b.ui == ui.(loading := true, status := BusyMessage, table := [],
                     exportEnabled := false, resultsVisible := false)
  {
    TrimEmptyIff(rawQuery);
    var query := Trim(rawQuery);
    if query == "" then
      Rejected(ui.(status := PromptMessage))
    else
      Accepted(ToggleLoading(ui, true).(table := [], exportEnabled := false, resultsVisible := false),
               Post(WebhookUrl, query))
  }

  /** The `catch` branch: error status and the single failure row. */
  function Caught(ui: Ui): (u: Ui)
    ensures u.table == [CommFailure] && u.status == FailureMessage
    ensures u.records == ui.records && u.loading == ui.loading
    ensures u.exportEnabled == ui.exportEnabled && u.resultsVisible == ui.resultsVisible
    ensures u.(table := ui.table, status := ui.status) == ui
  {
    ui.(status := FailureMessage, table := [CommFailure])
  }

  /** script.js:95-135 once the request settled: on a decoded body, store and
      render its records; on any thrown error (including the TypeError of a
      `null` entry), show the failure row and keep the stored records; in
      every case turn loading off. */
  function Settle(ui: Ui, outcome: FetchOutcome): (u: Ui)
    ensures !u.loading
    ensures u.placeholderIndex == ui.placeholderIndex && u.placeholder == ui.placeholder
    ensures outcome.Ok? && Normalize(outcome.body).Some? ==>
      u.records == Normalize(outcome.body).value
    ensures outcome.Fail? || Normalize(outcome.body).None? ==>
      u.records == ui.records && u.table == [CommFailure] && u.status == FailureMessage
  {
    var settled :=
      match outcome
      case Fail => Caught(ui)
      case Ok(body) =>
        match Normalize(body)
        case None => Caught(ui)
        case Some(data) => PopulateTable(ui.(records := data), data);
    ToggleLoading(settled, false)
  }

  /** `executeSearch()` with the query text and the way its request settles. */
  function ExecuteSearch(ui: Ui, rawQuery: string, outcome: FetchOutcome): (step: SearchStep)
    ensures AllWhitespace(rawQuery) ==>
      step.request.None? && step.ui == ui.(status := PromptMessage)
    ensures !AllWhitespace(rawQuery) ==>
      step.request == Some(Post(WebhookUrl, Trim(rawQuery))) && !step.ui.loading
  {
    match Begin(ui, rawQuery)
    case Rejected(u) => SearchStep(u, None)
    case Accepted(u, request) => SearchStep(Settle(u, outcome), Some(request))
  }

  /** A search whose body normalises to `data` stores exactly `data`; an
      empty set shows the placeholder row with export and results off, a
      non-empty one shows one row per record with export and results on. */
  lemma SearchSuccess(ui: Ui, rawQuery: string, body: Response, data: seq<Record>)
    requires !AllWhitespace(rawQuery) && Normalize(body) == Some(data)
    ensures var u := ExecuteSearch(ui, rawQuery, Ok(body)).ui;
      && u.records == data && !u.loading
      && (data == [] ==>
            u.table == [NoResults] && !u.exportEnabled && !u.resultsVisible
            && u.status == NoDataMessage)
      && (data != [] ==>
            u.table == RenderRows(data) && u.exportEnabled && u.resultsVisible
            && ReportedCount(u.status) == Some(|data|))
  {
    ReportedCountOfFound(|data|);
  }

  /** A failed request, or a body the mapping throws on, keeps the previous
      records, shows the failure row and leaves export and results off. */
  lemma SearchFailure(ui: Ui, rawQuery: string, outcome: FetchOutcome)
    requires !AllWhitespace(rawQuery)
    requires outcome.Fail? || Normalize(outcome.body).None?
    ensures var u := ExecuteSearch(ui, rawQuery, outcome).ui;
      && u.records == ui.records && u.table == [CommFailure]
      && !u.exportEnabled && !u.resultsVisible && !u.loading
      && u.status == FailureMessage
  {
  }

  /** A body that is not an array stores nothing, shows the "no results"
      row, and leaves nothing to export. */
  lemma NonArrayBody(ui: Ui, rawQuery: string)
    requires !AllWhitespace(rawQuery)
    ensures var u := ExecuteSearch(ui, rawQuery, Ok(NotArr)).ui;
      && u.records == [] && u.table == [NoResults]
      && !u.exportEnabled && !u.resultsVisible
      && ExportOf(u.records) == NothingToExport
  {
    SearchSuccess(ui, rawQuery, NotArr, []);
  }

  /** Whenever export is enabled, the table shows exactly the stored records
      that the export would write. */
  predicate Coherent(ui: Ui)
  {
    ui.exportEnabled ==>
      ui.records != [] && ui.resultsVisible && ui.table == RenderRows(ui.records)
  }

  lemma InitialCoherent()
    ensures Coherent(Initial) && !Initial.loading && Initial.records == []
  {
  }

  /** Every search, whatever its query and outcome, keeps the page coherent. */
  lemma SearchKeepsCoherent(ui: Ui, rawQuery: string, outcome: FetchOutcome)
    requires Coherent(ui)
    ensures Coherent(ExecuteSearch(ui, rawQuery, outcome).ui)
  {
    if !AllWhitespace(rawQuery) && outcome.Ok? && Normalize(outcome.body).Some? {
      SearchSuccess(ui, rawQuery, outcome.body, Normalize(outcome.body).value);
    }
  }

  /** The text a reader sees for an exported value, under the table's rule
      that missing or empty text shows a dash. */
  function ShownValue(v: Value): string
  {
    match v
    case Str(s) => if s == "" then Dash else s
    case Missing => Dash
    case Num(_) => Dash
  }

  /** Table column k shows export column `ExportColumn[k]`. */
  const ExportColumn: seq<nat> := [0, 1, 2, 3, 7]

  /** The table and the export read the same record: every table cell shows
      what the corresponding export column holds. */
  lemma TableMatchesExport(r: Record)
    ensures forall k :: 0 <= k < ColumnCount ==>
      Visible(RenderRow(r).cells[k]) == ShownValue(Project(r)[ExportColumn[k]].1)
  {
  }

  /** `cyclePlaceholders()`: advance the index modulo the number of phrases
      and show that phrase; nothing else changes. */
  function CyclePlaceholders(ui: Ui): (u: Ui)
    ensures u.placeholderIndex < |Placeholders|
    ensures u.placeholderIndex == (ui.placeholderIndex + 1) % |Placeholders|
    ensures u.placeholder == Placeholders[u.placeholderIndex]
    ensures u.(placeholderIndex := ui.placeholderIndex, placeholder := ui.placeholder) == ui
  {
    var i := (ui.placeholderIndex + 1) % |Placeholders|;
    ui.(placeholderIndex := i, placeholder := Placeholders[i])
  }

  /** The page after k timer ticks. */
  function Ticks(ui: Ui, k: nat): Ui
  {
    if k == 0 then ui else CyclePlaceholders(Ticks(ui, k - 1))
  }

  /** After k ticks the index has moved k places round the ring. */
  lemma {:induction false} TicksIndex(ui: Ui, k: nat)
    ensures k > 0 ==> Ticks(ui, k).placeholderIndex == (ui.placeholderIndex + k) % |Placeholders|
  {
    if k > 1 {
      TicksIndex(ui, k - 1);
    }
  }

  /** As many ticks as there are phrases bring a valid index back to where it was. */
  lemma TicksCycle(ui: Ui)
    requires ui.placeholderIndex < |Placeholders|
    ensures Ticks(ui, |Placeholders|).placeholderIndex == ui.placeholderIndex
  {
    TicksIndex(ui, |Placeholders|);
  }

  /** Every phrase index is reached within one full round of ticks. */
  lemma TicksReachEvery(ui: Ui, target: nat)
    requires ui.placeholderIndex < |Placeholders| && target < |Placeholders|
    ensures exists k :: 1 <= k <= |Placeholders| && Ticks(ui, k).placeholderIndex == target
  {
    var n, i := |Placeholders|, ui.placeholderIndex;
    assert n == 5;
    if target > i {
      var k := target - i;
      assert (i + k) % n == target;
      TicksIndex(ui, k);
      assert Ticks(ui, k).placeholderIndex == target;
    } else {
      var k := target + n - i;
      assert i + k == target + n;
      assert (i + k) % n == target;
      TicksIndex(ui, k);
      assert Ticks(ui, k).placeholderIndex == target;
    }
  }
}
