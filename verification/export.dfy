/** `exportToExcel`: the projection of the stored records onto the ten
    spreadsheet columns, and the guard against exporting nothing. */
module Export {
  import opened Listings

  /** A spreadsheet cell value: absent (blank cell), text or a number. */
  datatype Value = Missing | Str(s: string) | Num(n: Numeric)

  /** One exported object: column header and value, in key order. */
  type ExportRow = seq<(string, Value)>

  const Columns: seq<string> := [
    "Nome da Empresa", "Telefone", "Categorias", "Endereço", "Cidade",
    "Estado", "CEP", "Website", "Rating", "Quantidade de Avaliações"]

  const SheetName := "Empresas"
  const FileName := "busca_leads.xlsx"

  /** The input handed to the spreadsheet library: one sheet, one file. */
  datatype Workbook = Workbook(sheetName: string, fileName: string, rows: seq<ExportRow>)

  /** Either the "nothing to export" notice, or a download. */
  datatype ExportOutcome = NothingToExport | Download(book: Workbook)

  function TextValue(o: Option<string>): Value
  {
    match o
    case None => Missing
    case Some(s) => Str(s)
  }

  function NumberValue(o: Option<Numeric>): Value
  {
    match o
    case None => Missing
    case Some(n) => Num(n)
  }

  function Keys(row: ExportRow): (ks: seq<string>)
    ensures |ks| == |row|
    ensures forall j :: 0 <= j < |row| ==> ks[j] == row[j].0
  {
    seq(|row|, j requires 0 <= j < |row| => row[j].0)
  }

  /** One record as an export row: the ten columns in their fixed order. */
  function Project(r: Record): (row: ExportRow)
    ensures Keys(row) == Columns
  {
    [(Columns[0], TextValue(r.nome)),
     (Columns[1], TextValue(r.telefone)),
     (Columns[2], Str(r.categorias)),
     (Columns[3], TextValue(r.endereco)),
     (Columns[4], TextValue(r.cidade)),
     (Columns[5], TextValue(r.estado)),
     (Columns[6], TextValue(r.cep)),
     (Columns[7], TextValue(r.website)),
     (Columns[8], NumberValue(r.rating)),
     (Columns[9], NumberValue(r.avaliacoes))]
  }

  function TextOf(v: Value): Option<Option<string>>
  {
    match v
    case Missing => Some(None)
    case Str(s) => Some(Some(s))
    case Num(_) => None
  }

  function NumberOf(v: Value): Option<Option<Numeric>>
  {
    match v
    case Missing => Some(None)
    case Num(n) => Some(Some(n))
    case Str(_) => None
  }

  /** Reads a record back from an export row with the fixed columns. */
  function Unproject(row: ExportRow): Option<Record>
  {
    if Keys(row) != Columns then None
    else
      var nome := TextOf(row[0].1);
      var telefone := TextOf(row[1].1);
      var endereco := TextOf(row[3].1);
      var cidade := TextOf(row[4].1);
      var estado := TextOf(row[5].1);
      var cep := TextOf(row[6].1);
      var website := TextOf(row[7].1);
      var rating := NumberOf(row[8].1);
      var avaliacoes := NumberOf(row[9].1);
      if !row[2].1.Str? || nome.None? || telefone.None? || endereco.None? || cidade.None?
         || estado.None? || cep.None? || website.None? || rating.None? || avaliacoes.None?
      then None
      else Some(Record(nome.value, telefone.value, row[2].1.s, endereco.value, website.value,
                       cidade.value, estado.value, cep.value, rating.value, avaliacoes.value))
  }

  /** The projection loses nothing: every record can be read back. */
  lemma UnprojectProject(r: Record)
    ensures Unproject(Project(r)) == Some(r)
  {
  }

  /** Different records give different export rows. */
  lemma ProjectInjective(a: Record, b: Record)
    ensures Project(a) == Project(b) ==> a == b
  {
    UnprojectProject(a);
    UnprojectProject(b);
  }

  /** What exporting the given records hands to the spreadsheet library. */
  function ExportOf(records: seq<Record>): (out: ExportOutcome)
    ensures out.NothingToExport? <==> records == []
  {
    if records == [] then NothingToExport
    else Download(Workbook(SheetName, FileName,
                           seq(|records|, i requires 0 <= i < |records| => Project(records[i]))))
  }

  /** script.js:142-158: no file for an empty record set; otherwise one row per
      record, in order, each with the ten columns. */
  method ExportToExcel(records: seq<Record>) returns (out: ExportOutcome)
    ensures out == ExportOf(records)
    ensures out.NothingToExport? <==> records == []
    ensures out.Download? ==>
      && out.book.sheetName == SheetName && out.book.fileName == FileName
      && |out.book.rows| == |records|
      && forall i :: 0 <= i < |records| ==>
           Keys(out.book.rows[i]) == Columns && Unproject(out.book.rows[i]) == Some(records[i])
  {
    if |records| == 0 {
      return NothingToExport;
    }
    var rows: seq<ExportRow> := [];
    var i := 0;
    while i < |records|
      invariant 0 <= i <= |records|
      invariant |rows| == i
      invariant forall k :: 0 <= k < i ==> rows[k] == Project(records[k])
    {
      rows := rows + [Project(records[i])];
      i := i + 1;
    }
    forall k | 0 <= k < |records|
      ensures Unproject(rows[k]) == Some(records[k])
    {
      UnprojectProject(records[k]);
    }
    out := Download(Workbook(SheetName, FileName, rows));
  }
}
