/** The results table as an abstract list of rows (what `populateTable` and
    the `catch` branch of `executeSearch` write into the table body). */
module Table {
  import opened Listings
  import Links
  import Text

  /** A table cell: plain text, or an anchor opening `href` in a new tab. */
  datatype Cell = Plain(text: string) | Link(href: string, caption: string)

  /** A data row, the single "no results" row, or the single failure row;
      the latter two span all five columns. */
  datatype Row = Data(cells: seq<Cell>) | NoResults | CommFailure

  const Dash := "-"
  const ColumnCount := 5
  const NoResultsText := "Nenhum resultado encontrado."
  const CommFailureText := "Falha na comunicação com o servidor."

  /** The message of a row that spans all five columns. */
  function Message(row: Row): string
    requires !row.Data?
  {
    if row.NoResults? then NoResultsText else CommFailureText
  }

  /** `value || '-'` for a text field: missing and empty text show a dash. */
  function Shown(o: Option<string>): (t: string)
    ensures t != ""
    ensures o.Some? && o.value != "" ==> t == o.value
    ensures o.None? || o.value == "" ==> t == Dash
  {
    if o.Some? && o.value != "" then o.value else Dash
  }

  /** The website cell: a link to the rewritten href labelled with the stored
      value, or a dash when the value is missing or empty. */
  function WebsiteCell(w: Option<string>): (c: Cell)
    ensures c.Link? <==> w.Some? && w.value != ""
    ensures c.Link? ==> c.caption == w.value && c.href == Links.Href(w.value)
    ensures c.Link? ==> Text.StartsWith(c.href, Links.Http)
    ensures c.Plain? ==> c.text == Dash
  {
    if w.Some? && w.value != "" then Link(Links.Href(w.value), w.value) else Plain(Dash)
  }

  /** The text a reader sees in a cell. */
  function Visible(c: Cell): string
  {
    match c
    case Plain(t) => t
    case Link(_, caption) => caption
  }

  /** One `<tr>` per record: name, phone, categories, address, website. */
  function RenderRow(r: Record): (row: Row)
    ensures row.Data? && |row.cells| == ColumnCount
    ensures forall k :: 0 <= k < ColumnCount ==> Visible(row.cells[k]) != ""
    ensures row.cells[4].Link? <==> r.website.Some? && r.website.value != ""
  {
    Data([Plain(Shown(r.nome)), Plain(Shown(r.telefone)), Plain(Shown(Some(r.categorias))),
          Plain(Shown(r.endereco)), WebsiteCell(r.website)])
  }

  /** The rows for a non-empty record set: one per record, in order. */
  function RenderRows(rs: seq<Record>): (rows: seq<Row>)
    ensures |rows| == |rs|
    ensures forall i :: 0 <= i < |rs| ==> rows[i].Data? && |rows[i].cells| == ColumnCount
  {
    if rs == [] then [] else [RenderRow(rs[0])] + RenderRows(rs[1..])
  }

  /** Row i of the rendering is the rendering of record i. */
  lemma {:induction false} RenderRowsPointwise(rs: seq<Record>, i: nat)
    requires i < |rs|
    ensures RenderRows(rs)[i] == RenderRow(rs[i])
  {
    if i > 0 {
      RenderRowsPointwise(rs[1..], i - 1);
    }
  }

  /** Rendering a concatenation renders each part in turn. */
  lemma {:induction false} RenderRowsAppend(a: seq<Record>, b: seq<Record>)
    ensures RenderRows(a + b) == RenderRows(a) + RenderRows(b)
  {
    if a == [] {
      assert a + b == b;
    } else {
      assert (a + b)[1..] == a[1..] + b;
      RenderRowsAppend(a[1..], b);
    }
  }

  /** The first four cells show the record's text, or a dash exactly when
      that text is missing or empty. */
  lemma RenderRowDashes(r: Record)
    ensures var cells := RenderRow(r).cells;
      && (cells[0] == Plain(Dash) <==> r.nome.None? || r.nome.value in {"", Dash})
      && (cells[1] == Plain(Dash) <==> r.telefone.None? || r.telefone.value in {"", Dash})
      && (cells[2] == Plain(Dash) <==> r.categorias in {"", Dash})
      && (cells[3] == Plain(Dash) <==> r.endereco.None? || r.endereco.value in {"", Dash})
  {
  }
}
