/**
  The customer spreadsheet after loading: the cells of a row, the table, the
  placeholder name column, the fixed column schema, the lookup of a row by
  contract code and the text dump of one row.
 */
module Dataset {
  import opened PyText

  /** One cell of the spreadsheet. `Text` is a cell holding a Python `str`;
      `Other` is any other value (a number, a date, a missing value), kept only
      through the text an f-string shows for it. A `str` never compares equal
      to an `Other` cell under the table's element-wise `==`. */
  datatype Cell = Text(s: string) | Other(shown: string)

  /** What `f"{value}"` shows for a cell. */
  function Render(c: Cell): string {
    match c
    case Text(s) => s
    case Other(shown) => shown
  }

  /** A table: column names in order, and rows of cells in order. */
  datatype Table = Table(columns: seq<string>, rows: seq<seq<Cell>>)

  /** Every row has one cell per column. */
  predicate Rectangular(t: Table) {
    forall i | 0 <= i < |t.rows| :: |t.rows[i]| == |t.columns|
  }

  /** The ways preparing the table can fail. `InsertOutOfBounds`: the name
      column cannot be inserted at position 1 of a table with no columns.
      `LengthMismatch`: the column count differs from the schema's; as in
      the library's message, `axisLength` is the table's column count and
      `newLength` the number of names assigned. */
  datatype LoadError = InsertOutOfBounds | LengthMismatch(axisLength: nat, newLength: nat)

  datatype Result<T> = Ok(value: T) | Err(error: LoadError)

  const KeyColumn: string := "Código da Operadora / Contrato do Cliente"
  const NameColumn: string := "Nome do Cliente"
  const TownColumn: string := "Município"

  /** The fixed column schema, assigned positionally to the loaded table. */
  const CanonicalColumns: seq<string> := [
    KeyColumn,
    NameColumn,
    "Node da Instalação do Cliente",
    TownColumn
  ] + [
    "Célula da Instalação do Cliente",
    "Produto Principal",
    "Produto de Telefone",
    "Produto de Banda Larga",
    "Modelo do Modem do Cliente",
    "Modelo do Decoder da TV",
    "Tecnologia da Banda Larga",
    "Visitas Técnicas Agendadas últimos 15 dias",
    "Visitas Técnicas Executadas últimos 15 dias",
    "Visitas Técnicas Cqanceladas últimos 15 dias",
    "Quantidade de Ligações ou Interações no digital últimos 15 dias",
    "Quantidade Ligações Retidas na URA, que não foram direcionadas a atendente humano",
    "Quantidade Ligações Direcionadas para Humano",
    "Quantidade de Eventos no Digital (Site/App)",
    "Quantidade de Outage Sem Sinal Corretivo",
    "Quantidade de Outage Sem Sinal Preventivo",
    "Quantidade de Outage por degradação",
    "Quantidade de Outage Informativo",
    "Tempo de Outage Sem Sinal Corretivo",
    "Tempo de Outage Sem Sinal Preventivo",
    "Tempo de Outage por degradação",
    "Tempo de Outage Informativo",
    "Ferramenta Xpertrack - Porcentagem do Tempo que a rede estava Impactada",
    "Ferramenta Xpertrack - Porcentagem do Tempo que a rede estava Estressada",
    "Ferramenta Xpertrack - Quantidade de Dias que a rede estava em estado Crônica",
    "Ferramenta Xpertrack - Porcentagem do Tempo que a rede estava Online",
    "Ferramenta Xpertrack - \"QOE\" - Nota de Qualidade da Célula da Instalação (De 0 a 100)",
    "Speed Test OOKLA - Quantidade de Testes de Velocidades Feitos",
    "Speed Test OOKLA - Rating Testes",
    "Speed Test OOKLA - Percent Rating Testes",
    "Speed Test OOKLA - Porcentagem de  Velocidade Atingida no Downstream versus a Contratada",
    "Ferramenta Beegol - Porcentagem de Velocidade Atingida no Downstream versus a Contratada",
    "Speed Test OOKLA - Porcentagem de Velocidade Atingida no Upstream versus a Contratada",
    "Ferramenta Beegol - Porcentagem de Velocidade Atingida no Upstream versus a Contratada",
    "Ferramenta Beegol - Velocidade Atingida no Downstream em kbps",
    "Speed Test OOKLA - Velocidade Atingida no Downstream em kbps",
    "Ferramenta Beegol - Velocidade Atingida no Upstream em kbps",
    "Speed Test OOKLA - Velocidade Atingida no Upstream em kbps",
    "NOTA_RATING",
    "Speed Test OOKLA - Nota de Avaliação do Teste",
    "Speed Test OOKLA - RSSI Medido (Maior que -60 - Bom, Menor que -60 Ruim)",
    "Nota Pesquisa Recomendação Sinal",
    "Nota da Pesquisa - Banda Larga",
    "Nota da Pesquisa - Produto TV",
    "Nota da Pesquisa - Queda de Sinal",
    "A pesquisa  TNPS Inst teve Verbatin?",
    "Data da Pesquisa TNPS",
    "Quantidade de Manisfestos",
    "Ferramenta Beegol - Nota de Qualidade \"QOE\" - Geral",
    "Ferramenta Beegol - Nota de Qualidade \"QOE\" - Banda Larga",
    "Ferramenta Beegol - Nota de Qualidade \"QOE\" - Dispositivos",
    "Ferramenta Beegol - Nota de Qualidade \"QOE\" - Wifi",
    "Ferramenta Beegol - Média Sinal RSSI (Maior que -60 - Bom, Menor que -60 Ruim)",
    "Ferramenta Beegol - Quantidade de Devices Conectados no Período",
    "Ferramenta Raio X Nota de Qualidade"
  ]

  lemma CanonicalShape()
    ensures |CanonicalColumns| == 59
    ensures CanonicalColumns[0] == KeyColumn && CanonicalColumns[1] == NameColumn
    ensures CanonicalColumns[3] == TownColumn
  {
  }

  /** A table as the loader hands it to the rest of the script. */
  predicate Loaded(t: Table) {
    Rectangular(t) && t.columns == CanonicalColumns
  }

  /** The part of `Loaded` that lookups rely on: a rectangular table whose
      first column is the customer code. */
  predicate Keyed(t: Table) {
    Rectangular(t) && |t.columns| > 0 && t.columns[0] == KeyColumn
  }

  /** Every loaded table is keyed by the customer code. */
  lemma LoadedIsKeyed(t: Table)
    requires Loaded(t)
    ensures Keyed(t)
  {
    CanonicalShape();
  }

  /** `s` with the element at position `i` removed. */
  function RemoveAt<T>(s: seq<T>, i: nat): seq<T>
    requires i < |s|
  {
    s[..i] + s[i + 1..]
  }

  /** Adds the placeholder name column at position 1 when the table has no
      column of that name; `names` holds one generated name per row. */
  function InsertNameColumn(t: Table, names: seq<string>): (r: Result<Table>)
    requires Rectangular(t) && |names| == |t.rows|
    ensures NameColumn in t.columns ==> r == Ok(t)
    ensures r.Err? <==> NameColumn !in t.columns && |t.columns| == 0
    ensures r.Err? ==> r.error == InsertOutOfBounds
    ensures r.Ok? ==> Rectangular(r.value) && |r.value.rows| == |t.rows|
    ensures r.Ok? && NameColumn !in t.columns ==>
      && |r.value.columns| == |t.columns| + 1
      && r.value.columns[1] == NameColumn
      && RemoveAt(r.value.columns, 1) == t.columns
      && forall i | 0 <= i < |t.rows| ::
           r.value.rows[i][1] == Text(names[i]) && RemoveAt(r.value.rows[i], 1) == t.rows[i]
  {
    if NameColumn in t.columns then Ok(t)
    else if |t.columns| == 0 then Err(InsertOutOfBounds)
    else
      var rows := seq(|t.rows|, i requires 0 <= i < |t.rows| =>
                        t.rows[i][..1] + [Text(names[i])] + t.rows[i][1..]);
      var r := Table(t.columns[..1] + [NameColumn] + t.columns[1..], rows);
      assert RemoveAt(r.columns, 1) == t.columns;
      assert forall i | 0 <= i < |t.rows| :: RemoveAt(r.rows[i], 1) == t.rows[i];
      Ok(r)
  }

  /** Gives the table the canonical column names, position by position; fails
      when the column count is not the schema's. */
  function ApplySchema(t: Table): (r: Result<Table>)
    ensures r.Ok? <==> |t.columns| == |CanonicalColumns|
    ensures r.Ok? ==> r.value.columns == CanonicalColumns && r.value.rows == t.rows
    ensures r.Err? ==> r.error == LengthMismatch(|t.columns|, |CanonicalColumns|)
  {
    if |t.columns| == |CanonicalColumns| then Ok(Table(CanonicalColumns, t.rows))
    else Err(LengthMismatch(|t.columns|, |CanonicalColumns|))
  }

  /** The preparation applied to the sheet as read: name column, then schema.
      Whatever it returns is a loaded table. */
  function Prepare(t: Table, names: seq<string>): (r: Result<Table>)
    requires Rectangular(t) && |names| == |t.rows|
    ensures r.Ok? ==> Loaded(r.value) && |r.value.rows| == |t.rows|
    ensures r.Ok? <==>
      if NameColumn in t.columns then |t.columns| == |CanonicalColumns|
      else |t.columns| > 0 && |t.columns| + 1 == |CanonicalColumns|
  {
    match InsertNameColumn(t, names)
    case Err(e) => Err(e)
    case Ok(t1) => ApplySchema(t1)
  }

  /** The row's contract code is exactly the text `code`. */
  predicate RowMatches(row: seq<Cell>, code: string) {
    |row| > 0 && row[0] == Text(code)
  }

  /** The positions, from `from` on, of the rows selected by the mask
      `table[KeyColumn] == code`, in table order. */
  function MatchPositions(rows: seq<seq<Cell>>, code: string, from: nat): (r: seq<nat>)
    requires from <= |rows|
    ensures forall k | 0 <= k < |r| :: from <= r[k] < |rows| && RowMatches(rows[r[k]], code)
    ensures forall i | from <= i < |rows| && RowMatches(rows[i], code) :: i in r
    ensures forall k, l | 0 <= k < l < |r| :: r[k] < r[l]
    decreases |rows| - from
  {
    if from == |rows| then []
    else
      var rest := MatchPositions(rows, code, from + 1);
      if RowMatches(rows[from], code) then [from] + rest else rest
  }

  /** The outcome of entering a contract code: nothing is looked up for the
      empty code; otherwise the first matching row, or not found. */
  datatype Lookup = Skipped | NotFound | Found(index: nat, row: seq<Cell>)

  /** Looks the code up by exact text equality: no trimming, no case folding. */
  function Find(t: Table, code: string): (r: Lookup)
    requires Keyed(t)
    ensures r.Skipped? <==> code == ""
    ensures r.NotFound? <==>
      code != "" && forall i | 0 <= i < |t.rows| :: !RowMatches(t.rows[i], code)
    ensures r.Found? ==>
      && r.index < |t.rows|
      && r.row == t.rows[r.index]
      && r.row[0] == Text(code)
      && forall j | 0 <= j < r.index :: !RowMatches(t.rows[j], code)
  {
    if code == "" then Skipped
    else
      var m := MatchPositions(t.rows, code, 0);
      if m == [] then NotFound else Found(m[0], t.rows[m[0]])
  }

  /** A code held by exactly one row finds that row, with all its cells. */
  lemma FindUnique(t: Table, code: string, i: nat)
    requires Keyed(t) && code != ""
    requires i < |t.rows| && RowMatches(t.rows[i], code)
    requires forall j | 0 <= j < |t.rows| && j != i :: !RowMatches(t.rows[j], code)
    ensures Find(t, code) == Found(i, t.rows[i])
  {
  }

  /** The `"column: value"` line of one field. */
  function FieldLine(column: string, cell: Cell): string {
    column + ": " + Render(cell)
  }

  /** One field line per column, in column order. */
  function FieldLines(columns: seq<string>, row: seq<Cell>): (r: seq<string>)
    requires |row| == |columns|
    ensures |r| == |columns|
    ensures forall i | 0 <= i < |r| :: r[i] == FieldLine(columns[i], row[i])
  {
    seq(|columns|, i requires 0 <= i < |columns| => FieldLine(columns[i], row[i]))
  }

  /** The full field dump of a row: its field lines joined by newlines. It
      begins with the first column's line and ends with the last column's
      line, so no newline is added before or after; a row of no columns
      dumps to "". */
  function FieldDump(columns: seq<string>, row: seq<Cell>): (r: string)
    requires |row| == |columns|
    ensures columns == [] ==> r == ""
    ensures columns != [] ==>
      var first := FieldLine(columns[0], row[0]);
      var last := FieldLine(columns[|columns| - 1], row[|row| - 1]);
      |r| >= |first| && |r| >= |last| && r[..|first|] == first && r[|r| - |last|..] == last
  {
    var lines := FieldLines(columns, row);
    var r := Join("\n", lines);
    assert columns != [] ==>
      && |r| >= |lines[0]| && |r| >= |lines[|lines| - 1]|
      && r[..|lines[0]|] == lines[0] && r[|r| - |lines[|lines| - 1]|..] == lines[|lines| - 1]
    by {
      if columns != [] {
        JoinEnds("\n", lines);
      }
    }
    r
  }

  /** When no column name and no value holds a newline, splitting the dump at
      newlines gives back exactly one line per column, in column order. */
  lemma DumpLines(columns: seq<string>, row: seq<Cell>)
    requires |row| == |columns| > 0
    requires forall i | 0 <= i < |columns| :: '\n' !in columns[i] && '\n' !in Render(row[i])
    ensures Split(FieldDump(columns, row), '\n') == FieldLines(columns, row)
  {
    var lines := FieldLines(columns, row);
    forall i | 0 <= i < |lines| ensures '\n' !in lines[i] {
      assert lines[i] == columns[i] + ": " + Render(row[i]);
    }
    SplitJoin(lines, '\n');
  }
}
