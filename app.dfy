/** The upload backend (backend/app.py): reading an uploaded file, guessing
    whether it holds sales or stock, rejecting bad pairs, locating columns by
    name and computing the risk/excess summary, the alerts and the sales series.
    pandas' readers and `to_datetime` are foreign: they enter as parameters. */
module BackendApp {
  import opened Wrappers
  import opened Text
  import opened PyValues
  import opened SalesSeries

  predicate Rectangular(columns: seq<string>, rows: seq<seq<Cell>>) {
    forall r :: r in rows ==> |r| == |columns|
  }

  datatype Table = Table(columns: seq<string>, rows: seq<seq<Cell>>)

  /** What a pandas reader returns: every row has one cell per column. */
  type Frame = t: Table | Rectangular(t.columns, t.rows) witness Table([], [])

  // ---------------------------------------------------------------------------
  // carregar_arquivo

  datatype Reader = Csv | Excel | Json

  /** The reader selected by the (already lower-cased) file name's suffix. */
  function ReaderFor(nome: string): (r: Option<Reader>)
    ensures r == Some(Csv) <==> EndsWith(nome, ".csv") || EndsWith(nome, ".txt")
    ensures r == Some(Excel) <==> EndsWith(nome, ".xlsx") || EndsWith(nome, ".xls")
    ensures r == Some(Json) <==> EndsWith(nome, ".json")
    ensures r == None <==> !EndsWith(nome, ".csv") && !EndsWith(nome, ".txt") && !EndsWith(nome, ".xlsx")
                           && !EndsWith(nome, ".xls") && !EndsWith(nome, ".json")
  {
    SuffixesExclusive(nome);
    if EndsWith(nome, ".csv") || EndsWith(nome, ".txt") then Some(Csv)
    else if EndsWith(nome, ".xlsx") || EndsWith(nome, ".xls") then Some(Excel)
    else if EndsWith(nome, ".json") then Some(Json)
    else None
  }

  lemma EndsWithLast(s: string, suffix: string)
    requires suffix != [] && EndsWith(s, suffix)
    ensures s[|s| - 1] == suffix[|suffix| - 1]
  {
    assert s[|s| - |suffix|..][|suffix| - 1] == s[|s| - 1];
  }

  /** The five suffixes end in five different letters, so at most one matches. */
  lemma SuffixesExclusive(nome: string)
    ensures EndsWith(nome, ".csv") || EndsWith(nome, ".txt") ==>
              !EndsWith(nome, ".xlsx") && !EndsWith(nome, ".xls") && !EndsWith(nome, ".json")
    ensures EndsWith(nome, ".xlsx") || EndsWith(nome, ".xls") ==> !EndsWith(nome, ".json")
  {
    if EndsWith(nome, ".csv") { EndsWithLast(nome, ".csv"); }
    if EndsWith(nome, ".txt") { EndsWithLast(nome, ".txt"); }
    if EndsWith(nome, ".xlsx") { EndsWithLast(nome, ".xlsx"); }
    if EndsWith(nome, ".xls") { EndsWithLast(nome, ".xls"); }
    if EndsWith(nome, ".json") { EndsWithLast(nome, ".json"); }
  }

  const UnsupportedFormat := "Formato de arquivo não suportado. Envie um CSV, Excel ou JSON."

  /** The text of the ValueError raised for file `nome`. */
  function ReadError(nome: string, detail: string): string {
    "Erro ao ler o arquivo '" + nome + "': " + detail
  }

  /** Reads an upload with the reader its suffix selects; `read` is the pandas
      reader, which yields a frame or the text of the exception it raised. */
  function CarregarArquivo(filename: string, read: Reader -> Result<Frame, string>): (r: Result<Frame, string>)
    ensures r.Ok? <==> ReaderFor(Lower(filename)).Some? && read(ReaderFor(Lower(filename)).value).Ok?
    ensures r.Ok? ==> r.value == read(ReaderFor(Lower(filename)).value).value
    ensures r.Err? ==> ReadError(Lower(filename), "") <= r.error
    ensures ReaderFor(Lower(filename)).None? ==> r.error == ReadError(Lower(filename), UnsupportedFormat)
  {
    var nome := Lower(filename);
    match ReaderFor(nome)
    case None => Err(ReadError(nome, UnsupportedFormat))
    case Some(k) =>
      match read(k)
      case Ok(frame) => Ok(frame)
      case Err(e) => Err(ReadError(nome, e))
  }

  // ---------------------------------------------------------------------------
  // detectar_tipo_arquivo

  const PadroesVendas: seq<string> := ["data", "dia", "dt_venda", "emissao", "quantidade", "vendida"]
  const PadroesEstoque: seq<string> := ["estoque", "saldo", "disponivel", "qtd_estoque"]

  datatype FileKind = Vendas | Estoque | Indefinido | Desconhecido

  /** Some lower-cased column name contains some pattern. */
  ghost predicate SomeColumnHas(columns: seq<string>, patterns: seq<string>) {
    exists i, j :: 0 <= i < |columns| && 0 <= j < |patterns| && Occurs(patterns[j], Lower(columns[i]))
  }

  function LowerAll(columns: seq<string>): (r: seq<string>)
    ensures |r| == |columns| && forall i :: 0 <= i < |columns| ==> r[i] == Lower(columns[i])
  {
    if columns == [] then [] else [Lower(columns[0])] + LowerAll(columns[1..])
  }

  /** Whether `col` contains one of `patterns`. */
  function HasPattern(col: string, patterns: seq<string>): (r: bool)
    ensures r <==> exists j :: 0 <= j < |patterns| && Occurs(patterns[j], col)
  {
    if patterns == [] then false
    else if Contains(col, patterns[0]) then true
    else
      var rest := HasPattern(col, patterns[1..]);
      assert rest <==> exists j :: 1 <= j < |patterns| && Occurs(patterns[j], col) by {
        if rest {
          var j :| 0 <= j < |patterns[1..]| && Occurs(patterns[1..][j], col);
          assert patterns[j + 1] == patterns[1..][j];
        }
        if exists j :: 1 <= j < |patterns| && Occurs(patterns[j], col) {
          var j :| 1 <= j < |patterns| && Occurs(patterns[j], col);
          assert patterns[1..][j - 1] == patterns[j];
        }
      }
      rest
  }

  /** Python's `any(p in col for col in colunas for p in padroes)`. */
  function AnyColumnHas(colunas: seq<string>, patterns: seq<string>): (r: bool)
    ensures r <==> exists i, j :: 0 <= i < |colunas| && 0 <= j < |patterns| && Occurs(patterns[j], colunas[i])
  {
    if colunas == [] then false
    else if HasPattern(colunas[0], patterns) then true
    else
      var rest := AnyColumnHas(colunas[1..], patterns);
      assert rest ==> exists i, j :: 0 <= i < |colunas| && 0 <= j < |patterns| && Occurs(patterns[j], colunas[i]) by {
        if rest {
          var i, j :| 0 <= i < |colunas[1..]| && 0 <= j < |patterns| && Occurs(patterns[j], colunas[1..][i]);
          assert colunas[i + 1] == colunas[1..][i];
        }
      }
      assert (exists i, j :: 0 <= i < |colunas| && 0 <= j < |patterns| && Occurs(patterns[j], colunas[i])) ==> rest by {
        if exists i, j :: 0 <= i < |colunas| && 0 <= j < |patterns| && Occurs(patterns[j], colunas[i]) {
          var i, j :| 0 <= i < |colunas| && 0 <= j < |patterns| && Occurs(patterns[j], colunas[i]);
          assert i != 0;
          assert colunas[1..][i - 1] == colunas[i];
        }
      }
      rest
  }

  /** Classifies a file from its column names, case-insensitively. */
  function DetectarTipo(columns: seq<string>): (r: FileKind)
    ensures r == Vendas <==> SomeColumnHas(columns, PadroesVendas) && !SomeColumnHas(columns, PadroesEstoque)
    ensures r == Estoque <==> SomeColumnHas(columns, PadroesEstoque) && !SomeColumnHas(columns, PadroesVendas)
    ensures r == Indefinido <==> SomeColumnHas(columns, PadroesVendas) && SomeColumnHas(columns, PadroesEstoque)
    ensures r == Desconhecido <==> !SomeColumnHas(columns, PadroesVendas) && !SomeColumnHas(columns, PadroesEstoque)
  {
    var colunas := LowerAll(columns);
    var temVendas := AnyColumnHas(colunas, PadroesVendas);
    var temEstoque := AnyColumnHas(colunas, PadroesEstoque);
    if temVendas && !temEstoque then Vendas
    else if temEstoque && !temVendas then Estoque
    else if temVendas && temEstoque then Indefinido
    else Desconhecido
  }

  // ---------------------------------------------------------------------------
  // Column-name normalisation and get_col

  /** `c.strip().lower()`, the normalisation at the start of processar_dados. */
  function Normalize(c: string): (r: string)
    ensures Lower(r) == r
    ensures r == [] || (!IsPySpace(r[0]) && !IsPySpace(r[|r| - 1]))
  {
    var t := Trim(c, IsPySpace);
    LowerIdempotent(t);
    LowerKeepsSpace(if t == [] then ' ' else t[0]);
    LowerKeepsSpace(if t == [] then ' ' else t[|t| - 1]);
    Lower(t)
  }

  function NormalizeAll(columns: seq<string>): seq<string> {
    seq(|columns|, i requires 0 <= i < |columns| => Normalize(columns[i]))
  }

  /** `c.lower().strip()`, the normalisation inside get_col. */
  function LowerStrip(c: string): (r: string)
    ensures Lower(r) == r
    ensures r == [] || (!IsPySpace(r[0]) && !IsPySpace(r[|r| - 1]))
  {
    TrimStartLower(c);
    TrimEndLower(TrimStart(c, IsPySpace));
    LowerIdempotent(Trim(c, IsPySpace));
    Trim(Lower(c), IsPySpace)
  }

  function LowerStripAll(columns: seq<string>): seq<string> {
    seq(|columns|, i requires 0 <= i < |columns| => LowerStrip(columns[i]))
  }

  lemma LowerKeepsSpace(c: char)
    ensures IsPySpace(LowerChar(c)) <==> IsPySpace(c)
  {
  }

  lemma {:induction false} LowerSlice(s: string, i: nat, j: nat)
    requires i <= j <= |s|
    ensures Lower(s[i..j]) == Lower(s)[i..j]
  {
  }

  lemma {:induction false} TrimStartLower(s: string)
    ensures TrimStart(Lower(s), IsPySpace) == Lower(TrimStart(s, IsPySpace))
  {
    if s != [] {
      LowerKeepsSpace(s[0]);
      if IsPySpace(s[0]) {
        LowerSlice(s, 1, |s|);
        TrimStartLower(s[1..]);
      }
    }
  }

  lemma {:induction false} TrimEndLower(s: string)
    ensures TrimEnd(Lower(s), IsPySpace) == Lower(TrimEnd(s, IsPySpace))
  {
    if s != [] {
      LowerKeepsSpace(s[|s| - 1]);
      if IsPySpace(s[|s| - 1]) {
        LowerSlice(s, 0, |s| - 1);
        TrimEndLower(s[..|s| - 1]);
      }
    }
  }

  lemma TrimIdempotent(s: string)
    ensures Trim(Trim(s, IsPySpace), IsPySpace) == Trim(s, IsPySpace)
  {
    var t := Trim(s, IsPySpace);
    assert TrimStart(t, IsPySpace) == t;
    assert TrimEnd(t, IsPySpace) == t;
  }

  /** get_col's own lower/strip leaves columns normalised by processar_dados unchanged. */
  lemma {:induction false} NormalizedIsStable(c: string)
    ensures LowerStrip(Normalize(c)) == Normalize(c)
    ensures Normalize(Normalize(c)) == Normalize(c)
  {
    var t := Trim(c, IsPySpace);
    LowerIdempotent(t);
    TrimStartLower(t);
    TrimEndLower(TrimStart(t, IsPySpace));
    TrimIdempotent(c);
    TrimStartLower(TrimEnd(TrimStart(Lower(t), IsPySpace), IsPySpace));
    var n := Lower(t);
    assert Trim(n, IsPySpace) == n by {
      calc {
        Trim(n, IsPySpace);
        TrimEnd(TrimStart(Lower(t), IsPySpace), IsPySpace);
        TrimEnd(Lower(TrimStart(t, IsPySpace)), IsPySpace);
        Lower(Trim(t, IsPySpace));
        n;
      }
    }
  }

  lemma NormalizeAllStable(columns: seq<string>)
    ensures LowerStripAll(NormalizeAll(columns)) == NormalizeAll(columns)
    ensures NormalizeAll(NormalizeAll(columns)) == NormalizeAll(columns)
  {
    forall i | 0 <= i < |columns| ensures LowerStrip(Normalize(columns[i])) == Normalize(columns[i])
                                       && Normalize(Normalize(columns[i])) == Normalize(columns[i]) {
      NormalizedIsStable(columns[i]);
    }
  }

  /** The first column, in column order, that contains `name`. */
  function FirstColumnWith(name: string, columns: seq<string>): (r: Option<nat>)
    ensures r.Some? ==> r.value < |columns| && Occurs(name, columns[r.value])
                        && forall i :: 0 <= i < r.value ==> !Occurs(name, columns[i])
    ensures r.None? ==> forall i :: 0 <= i < |columns| ==> !Occurs(name, columns[i])
  {
    if columns == [] then None
    else if Contains(columns[0], name) then Some(0)
    else match FirstColumnWith(name, columns[1..])
      case None => None
      case Some(i) => Some(i + 1)
  }

  /** The column get_col returns: the first column containing the earliest name
      of the priority list that some column contains. */
  function FindColumn(names: seq<string>, columns: seq<string>): (r: Option<nat>)
    ensures r.Some? ==> r.value < |columns|
  {
    if names == [] then None
    else match FirstColumnWith(names[0], columns)
      case Some(i) => Some(i)
      case None => FindColumn(names[1..], columns)
  }

  /** FindColumn picks the earliest matching name and, for it, the first column;
      it finds nothing exactly when no name occurs in any column. */
  lemma {:induction false} FindColumnSpec(names: seq<string>, columns: seq<string>)
    ensures FindColumn(names, columns).None? <==>
              forall k, i :: 0 <= k < |names| && 0 <= i < |columns| ==> !Occurs(names[k], columns[i])
    ensures FindColumn(names, columns).Some? ==>
              var i := FindColumn(names, columns).value;
              i < |columns| &&
              exists k :: 0 <= k < |names| && Occurs(names[k], columns[i])
                && (forall i' :: 0 <= i' < i ==> !Occurs(names[k], columns[i']))
                && (forall k', i' :: 0 <= k' < k && 0 <= i' < |columns| ==> !Occurs(names[k'], columns[i']))
  {
    if names != [] {
      FindColumnSpec(names[1..], columns);
      var first := FirstColumnWith(names[0], columns);
      if first.None? {
        if FindColumn(names, columns).Some? {
          var i := FindColumn(names, columns).value;
          var k :| 0 <= k < |names[1..]| && Occurs(names[1..][k], columns[i])
                  && (forall i' :: 0 <= i' < i ==> !Occurs(names[1..][k], columns[i']))
                  && (forall k', i' :: 0 <= k' < k && 0 <= i' < |columns| ==> !Occurs(names[1..][k'], columns[i']));
          assert names[k + 1] == names[1..][k];
          forall k', i' | 0 <= k' < k + 1 && 0 <= i' < |columns| ensures !Occurs(names[k'], columns[i']) {
            if k' > 0 { assert names[k'] == names[1..][k' - 1]; }
          }
        } else {
          forall k, i | 0 <= k < |names| && 0 <= i < |columns| ensures !Occurs(names[k], columns[i]) {
            if k > 0 { assert names[k] == names[1..][k - 1]; }
          }
        }
      }
    }
  }

  /** A pandas DataFrame: its column labels are reassigned in place, its rows are not. */
  class DataFrame {
    var columns: seq<string>
    const rows: seq<seq<Cell>>

    ghost predicate Valid()
      reads this
    {
      Rectangular(columns, rows)
    }

    constructor (t: Frame)
      ensures columns == t.columns && rows == t.rows && Valid()
    {
      columns := t.columns;
      rows := t.rows;
    }

    /** get_col: lower-cases and strips the labels in place, then searches them. */
    method GetCol(names: seq<string>) returns (found: Option<nat>)
      requires Valid()
      modifies this`columns
      ensures Valid()
      ensures columns == LowerStripAll(old(columns))
      ensures found == FindColumn(names, columns)
      ensures found.Some? ==> found.value < |columns|
    {
      columns := LowerStripAll(columns);
      found := SearchColumns(names, columns);
    }
  }

  /** get_col's nested loops: for each name in priority order, the first
      column containing it; None (the KeyError) when no name matches. */
  method SearchColumns(names: seq<string>, columns: seq<string>) returns (found: Option<nat>)
    ensures found == FindColumn(names, columns)
    ensures found.Some? ==> found.value < |columns|
  {
    var n := 0;
    while n < |names|
      invariant 0 <= n <= |names|
      invariant FindColumn(names, columns) == FindColumn(names[n..], columns)
    {
      var c := 0;
      while c < |columns|
        invariant 0 <= c <= |columns|
        invariant forall i :: 0 <= i < c ==> !Occurs(names[n], columns[i])
      {
        if Contains(columns[c], names[n]) {
          assert FirstColumnWith(names[n], columns) == Some(c);
          return Some(c);
        }
        c := c + 1;
      }
      assert FirstColumnWith(names[n], columns) == None;
      assert names[n..][1..] == names[n + 1..];
      n := n + 1;
    }
    found := None;
  }

  // ---------------------------------------------------------------------------
  // processar_dados

  const NomesData: seq<string> := ["data", "dia", "dt_venda", "emissao"]
  const NomesQtdVenda: seq<string> := ["quantidade", "qtd", "qtde", "volume", "vendida"]
  const NomesProduto: seq<string> := ["produto", "item", "descricao", "nome"]
  const NomesQtdEstoque: seq<string> := ["quantidade", "estoque", "qtd", "saldo", "disponivel"]

  /** Stock below this is a rupture risk; above ExcessAbove it is excess. */
  const RiskBelow := 10
  const ExcessAbove := 100
  /** The fixed `dias_parado` of every excess alert. */
  const DiasParado := 45

  datatype Alert =
    | Ruptura(produto: string, estoqueAtual: int, diasRestantes: int)
    | Excesso(produto: string, estoqueAtual: int, diasParado: int)
  {
    /** The `tipo` field of the alert's JSON object. */
    function Tipo(): string {
      if Ruptura? then "Ruptura Iminente" else "Excesso de Estoque"
    }
  }

  /** The JSON body of a successful response. */
  datatype Summary = Summary(
    produtosEmRisco: nat,
    excessoEstoque: nat,
    sugestoesCompra: nat,
    vendasLabels: seq<string>,
    vendasValores: seq<int>,
    alertas: seq<Alert>)

  /** An HTTP answer: the summary (status 200) or a status with an `erro` text. */
  datatype Response = Processed(summary: Summary) | Rejected(status: nat, erro: string)

  /** Python's `repr` of a list of plain strings: `['a', 'b']`. */
  function PyStrList(names: seq<string>): string {
    "[" + QuotedItems(names) + "]"
  }

  function QuotedItems(names: seq<string>): string {
    if names == [] then ""
    else if |names| == 1 then "'" + names[0] + "'"
    else "'" + names[0] + "', " + QuotedItems(names[1..])
  }

  /** The message get_col's KeyError carries. */
  function NoColumnMessage(names: seq<string>): string {
    "Nenhuma coluna encontrada entre: " + PyStrList(names)
  }

  const KeyErrorPrefix := "Erro de mapeamento de colunas: "

  /** The 400 answer for get_col's KeyError. `str` of a KeyError is the repr of
      its message, which holds single quotes and so is double-quoted. */
  function KeyErrorResponse(names: seq<string>): (r: Response)
    ensures r.Rejected? && r.status == 400
    ensures KeyErrorPrefix <= r.erro
  {
    Rejected(400, KeyErrorPrefix + ("\"" + NoColumnMessage(names) + "\""))
  }

  /** The 500 answer for any other exception (its text is not modelled). */
  const UnexpectedError := Rejected(500, "Erro inesperado no processamento: ")

  /** `str(cell)` as used for the `produto` field; NaN prints as `nan`. */
  function CellText(c: Cell): string {
    match c
    case Num(n) => IntToString(n)
    case Str(s) => s
    case Blank => "nan"
  }

  /** The two cells of a stock row the analysis reads. */
  datatype StockItem = StockItem(produto: Cell, qty: Cell)

  datatype Band = Low | High

  /** Comparisons with NaN are false, so a blank quantity is in neither band. */
  predicate InBand(it: StockItem, band: Band) {
    it.qty.Num? && (if band == Low then it.qty.n < RiskBelow else it.qty.n > ExcessAbove)
  }

  predicate HasColumn(rows: seq<seq<Cell>>, c: nat) {
    forall r :: r in rows ==> c < |r|
  }

  function StockItems(rows: seq<seq<Cell>>, cQtd: nat, cProduto: nat): (r: seq<StockItem>)
    requires HasColumn(rows, cQtd) && HasColumn(rows, cProduto)
    ensures |r| == |rows|
    ensures forall i :: 0 <= i < |rows| ==> r[i] == StockItem(rows[i][cProduto], rows[i][cQtd])
  {
    if rows == [] then [] else [StockItem(rows[0][cProduto], rows[0][cQtd])] + StockItems(rows[1..], cQtd, cProduto)
  }

  /** The positions of the rows in the band, ascending: exactly the rows
      whose quantity compares true. */
  function BandPositions(items: seq<StockItem>, band: Band): (idx: seq<nat>)
    ensures forall k :: 0 <= k < |idx| ==> idx[k] < |items| && InBand(items[idx[k]], band)
    ensures forall k, l :: 0 <= k < l < |idx| ==> idx[k] < idx[l]
    ensures forall i :: 0 <= i < |items| && InBand(items[i], band) ==> i in idx
  {
    if items == [] then []
    else
      var n := |items| - 1;
      BandPositions(items[..n], band) + (if InBand(items[n], band) then [n] else [])
  }

  /** The boolean-mask selection `estoque[estoque[col] < 10]` (or `> 100`):
      the rows in the band, in row order, each as often as it occurs. */
  function Select(items: seq<StockItem>, band: Band): (r: seq<StockItem>)
    ensures |r| == |BandPositions(items, band)|
    ensures forall k :: 0 <= k < |r| ==> r[k] == items[BandPositions(items, band)[k]]
    ensures forall k :: 0 <= k < |r| ==> InBand(r[k], band)
  {
    if items == [] then []
    else
      var n := |items| - 1;
      var front := Select(items[..n], band);
      var idx := BandPositions(items[..n], band);
      assert forall k :: 0 <= k < |front| ==> front[k] == items[idx[k]];
      front + (if InBand(items[n], band) then [items[n]] else [])
  }

  /** The selection keeps exactly the rows in the band, each as often as it
      occurs in the frame. */
  lemma {:induction false} SelectSpec(items: seq<StockItem>, band: Band)
    ensures forall x :: x in Select(items, band) <==> x in items && InBand(x, band)
    ensures forall x :: multiset(Select(items, band))[x] == if InBand(x, band) then multiset(items)[x] else 0
  {
    if items != [] {
      var n := |items| - 1;
      SelectSpec(items[..n], band);
      assert items == items[..n] + [items[n]];
      assert Select(items, band) == Select(items[..n], band) + (if InBand(items[n], band) then [items[n]] else []);
    }
  }

  /** The alert appended for one selected row. `//` is floor division in
      Python; for the divisor 3 it agrees with Dafny's `/`. */
  function AlertFor(it: StockItem, band: Band): (a: Alert)
    requires InBand(it, band)
    ensures a.produto == CellText(it.produto) && a.estoqueAtual == it.qty.n
    ensures band == Low ==> (a.Ruptura? && a.diasRestantes >= 1
                             && (it.qty.n >= 6 ==> 3 * a.diasRestantes <= it.qty.n < 3 * a.diasRestantes + 3)
                             && (it.qty.n < 6 ==> a.diasRestantes == 1))
    ensures band == High ==> a.Excesso? && a.diasParado == DiasParado
  {
    var q := it.qty.n;
    if band == Low then Ruptura(CellText(it.produto), q, if q / 3 > 1 then q / 3 else 1)
    else Excesso(CellText(it.produto), q, DiasParado)
  }

  function AlertsFor(items: seq<StockItem>, band: Band): (r: seq<Alert>)
    requires forall x :: x in items ==> InBand(x, band)
    ensures |r| == |items|
    ensures forall i :: 0 <= i < |items| ==> r[i] == AlertFor(items[i], band)
  {
    if items == [] then [] else AlertsFor(items[..|items| - 1], band) + [AlertFor(items[|items| - 1], band)]
  }

  /** The product names of the risk rows (`sugestoes`). */
  function Produtos(items: seq<StockItem>): (r: seq<string>)
    ensures |r| == |items|
  {
    seq(|items|, i requires 0 <= i < |items| => CellText(items[i].produto))
  }

  /** The positions of the sales rows whose date parses, ascending: the rows
      `dropna` keeps. */
  function DatedPositions(rows: seq<seq<Cell>>, cData: nat, parseDate: Cell -> Option<Timestamp>): (idx: seq<nat>)
    requires HasColumn(rows, cData)
    ensures forall k :: 0 <= k < |idx| ==> idx[k] < |rows| && parseDate(rows[idx[k]][cData]).Some?
    ensures forall k, l :: 0 <= k < l < |idx| ==> idx[k] < idx[l]
    ensures forall i :: 0 <= i < |rows| && parseDate(rows[i][cData]).Some? ==> i in idx
  {
    if rows == [] then []
    else
      var n := |rows| - 1;
      assert rows[n] in rows;
      DatedPositions(rows[..n], cData, parseDate) + (if parseDate(rows[n][cData]).Some? then [n] else [])
  }

  /** The sales rows that survive `dropna` on the parsed date, in row order,
      as (date, quantity cell). */
  function SalesRows(rows: seq<seq<Cell>>, cData: nat, cQtd: nat, parseDate: Cell -> Option<Timestamp>)
    : (r: seq<(Timestamp, Cell)>)
    requires HasColumn(rows, cData) && HasColumn(rows, cQtd)
    ensures |r| == |DatedPositions(rows, cData, parseDate)|
    ensures forall k :: 0 <= k < |r| ==>
              var i := DatedPositions(rows, cData, parseDate)[k];
              r[k] == (parseDate(rows[i][cData]).value, rows[i][cQtd])
  {
    if rows == [] then []
    else
      var n := |rows| - 1;
      assert rows[n] in rows;
      var rest := SalesRows(rows[..n], cData, cQtd, parseDate);
      match parseDate(rows[n][cData])
      case None => rest
      case Some(t) => rest + [(t, rows[n][cQtd])]
  }

  predicate StockQtyHasText(items: seq<StockItem>) {
    exists i | 0 <= i < |items| :: items[i].qty.Str?
  }

  /** The summary computed once all five columns are located. */
  function Summarize(
    vRows: seq<seq<Cell>>, cData: nat, cQtdVenda: nat,
    eRows: seq<seq<Cell>>, cQtdEstoque: nat, cProdutoEstoque: nat,
    parseDate: Cell -> Option<Timestamp>): (r: Response)
    requires HasColumn(vRows, cData) && HasColumn(vRows, cQtdVenda)
    requires HasColumn(eRows, cQtdEstoque) && HasColumn(eRows, cProdutoEstoque)
    ensures r.Rejected? ==> r == UnexpectedError
    ensures r.Rejected? <==> MakeSeries(SalesRows(vRows, cData, cQtdVenda, parseDate)).None?
                             || StockQtyHasText(StockItems(eRows, cQtdEstoque, cProdutoEstoque))
  {
    var items := StockItems(eRows, cQtdEstoque, cProdutoEstoque);
    match MakeSeries(SalesRows(vRows, cData, cQtdVenda, parseDate))
    case None => UnexpectedError
    case Some(series) =>
      if StockQtyHasText(items) then UnexpectedError
      else
        var risco := Select(items, Low);
        var excesso := Select(items, High);
        Processed(Summary(|risco|, |excesso|, |Produtos(risco)|, series.labels, series.values,
                          AlertsFor(risco, Low) + AlertsFor(excesso, High)))
  }

  lemma RectangularHasColumn(columns: seq<string>, rows: seq<seq<Cell>>, c: nat)
    requires Rectangular(columns, rows) && c < |columns|
    ensures HasColumn(rows, c)
  {
  }

  /** The columns processar_dados reads: sales date and quantity, stock
      quantity and product. (The sales product column is located but unused.) */
  datatype Located = Located(cData: nat, cQtdVenda: nat, cQtdEstoque: nat, cProdutoEstoque: nat)

  /** The three get_col lookups on the sales frame, in source order: date,
      quantity, product; the first that fails decides the 400. */
  function LocateSales(vc: seq<string>): (r: Result<(nat, nat), Response>)
    ensures r.Ok? <==> FindColumn(NomesData, vc).Some? && FindColumn(NomesQtdVenda, vc).Some?
                       && FindColumn(NomesProduto, vc).Some?
    ensures r.Ok? ==> r.value == (FindColumn(NomesData, vc).value, FindColumn(NomesQtdVenda, vc).value)
                      && r.value.0 < |vc| && r.value.1 < |vc|
    ensures FindColumn(NomesData, vc).None? ==> r == Err(KeyErrorResponse(NomesData))
    ensures FindColumn(NomesData, vc).Some? && FindColumn(NomesQtdVenda, vc).None?
            ==> r == Err(KeyErrorResponse(NomesQtdVenda))
    ensures (FindColumn(NomesData, vc).Some? && FindColumn(NomesQtdVenda, vc).Some?
             && FindColumn(NomesProduto, vc).None?) ==> r == Err(KeyErrorResponse(NomesProduto))
  {
    match FindColumn(NomesData, vc)
    case None => Err(KeyErrorResponse(NomesData))
    case Some(cData) =>
      match FindColumn(NomesQtdVenda, vc)
      case None => Err(KeyErrorResponse(NomesQtdVenda))
      case Some(cQtdVenda) =>
        match FindColumn(NomesProduto, vc)
        case None => Err(KeyErrorResponse(NomesProduto))
        case Some(_) => Ok((cData, cQtdVenda))
  }

  /** The two get_col lookups on the stock frame: quantity, then product. */
  function LocateStock(ec: seq<string>): (r: Result<(nat, nat), Response>)
    ensures r.Ok? <==> FindColumn(NomesQtdEstoque, ec).Some? && FindColumn(NomesProduto, ec).Some?
    ensures r.Ok? ==> r.value == (FindColumn(NomesQtdEstoque, ec).value, FindColumn(NomesProduto, ec).value)
                      && r.value.0 < |ec| && r.value.1 < |ec|
    ensures FindColumn(NomesQtdEstoque, ec).None? ==> r == Err(KeyErrorResponse(NomesQtdEstoque))
    ensures FindColumn(NomesQtdEstoque, ec).Some? && FindColumn(NomesProduto, ec).None?
            ==> r == Err(KeyErrorResponse(NomesProduto))
  {
    match FindColumn(NomesQtdEstoque, ec)
    case None => Err(KeyErrorResponse(NomesQtdEstoque))
    case Some(cQtdEstoque) =>
      match FindColumn(NomesProduto, ec)
      case None => Err(KeyErrorResponse(NomesProduto))
      case Some(cProdutoEstoque) => Ok((cQtdEstoque, cProdutoEstoque))
  }

  /** The five get_col lookups: the sales frame first, then the stock frame. */
  function Locate(vc: seq<string>, ec: seq<string>): (r: Result<Located, Response>)
    ensures r.Ok? <==> LocateSales(vc).Ok? && LocateStock(ec).Ok?
    ensures r.Ok? ==> r.value.cData < |vc| && r.value.cQtdVenda < |vc|
                      && r.value.cQtdEstoque < |ec| && r.value.cProdutoEstoque < |ec|
    ensures r.Ok? ==> (r.value.cData, r.value.cQtdVenda) == LocateSales(vc).value
                      && (r.value.cQtdEstoque, r.value.cProdutoEstoque) == LocateStock(ec).value
    ensures LocateSales(vc).Err? ==> r == Err(LocateSales(vc).error)
    ensures LocateSales(vc).Ok? && LocateStock(ec).Err? ==> r == Err(LocateStock(ec).error)
  {
    match LocateSales(vc)
    case Err(response) => Err(response)
    case Ok(sales) =>
      match LocateStock(ec)
      case Err(response) => Err(response)
      case Ok(stock) => Ok(Located(sales.0, sales.1, stock.0, stock.1))
  }

  /** No label mentions any of `names`: get_col raises its KeyError. */
  ghost predicate Lacks(names: seq<string>, columns: seq<string>) {
    forall k, i :: 0 <= k < |names| && 0 <= i < |columns| ==> !Occurs(names[k], columns[i])
  }

  /** The five lookups in terms of the labels: they succeed exactly when every
      list of names is mentioned by some label, and otherwise the answer is the
      KeyError of the first list, in source order, that no label mentions. */
  lemma LocateSpec(vc: seq<string>, ec: seq<string>)
    ensures Locate(vc, ec).Ok? <==> !Lacks(NomesData, vc) && !Lacks(NomesQtdVenda, vc) && !Lacks(NomesProduto, vc)
                                    && !Lacks(NomesQtdEstoque, ec) && !Lacks(NomesProduto, ec)
    ensures Lacks(NomesData, vc) ==> Locate(vc, ec) == Err(KeyErrorResponse(NomesData))
    ensures !Lacks(NomesData, vc) && Lacks(NomesQtdVenda, vc)
            ==> Locate(vc, ec) == Err(KeyErrorResponse(NomesQtdVenda))
    ensures !Lacks(NomesData, vc) && !Lacks(NomesQtdVenda, vc) && Lacks(NomesProduto, vc)
            ==> Locate(vc, ec) == Err(KeyErrorResponse(NomesProduto))
    ensures (!Lacks(NomesData, vc) && !Lacks(NomesQtdVenda, vc) && !Lacks(NomesProduto, vc)
             && Lacks(NomesQtdEstoque, ec)) ==> Locate(vc, ec) == Err(KeyErrorResponse(NomesQtdEstoque))
    ensures (!Lacks(NomesData, vc) && !Lacks(NomesQtdVenda, vc) && !Lacks(NomesProduto, vc)
             && !Lacks(NomesQtdEstoque, ec) && Lacks(NomesProduto, ec))
            ==> Locate(vc, ec) == Err(KeyErrorResponse(NomesProduto))
  {
    FindColumnSpec(NomesData, vc);
    FindColumnSpec(NomesQtdVenda, vc);
    FindColumnSpec(NomesProduto, vc);
    FindColumnSpec(NomesQtdEstoque, ec);
    FindColumnSpec(NomesProduto, ec);
  }

  /** processar_dados on a sales frame and a stock frame: normalise the labels,
      locate the columns (the first missing one is a 400), then summarise. */
  function Analyse(
    vCols: seq<string>, vRows: seq<seq<Cell>>,
    eCols: seq<string>, eRows: seq<seq<Cell>>,
    parseDate: Cell -> Option<Timestamp>): (r: Response)
    requires Rectangular(vCols, vRows) && Rectangular(eCols, eRows)
    ensures r.Rejected? && r.status == 400 <==> Locate(NormalizeAll(vCols), NormalizeAll(eCols)).Err?
    ensures r.Rejected? && r.status != 400 ==> r == UnexpectedError
  {
    LocateRejects(NormalizeAll(vCols), NormalizeAll(eCols));
    match Locate(NormalizeAll(vCols), NormalizeAll(eCols))
    case Err(response) => response
    case Ok(c) =>
      RectangularHasColumn(vCols, vRows, c.cData);
      RectangularHasColumn(vCols, vRows, c.cQtdVenda);
      RectangularHasColumn(eCols, eRows, c.cQtdEstoque);
      RectangularHasColumn(eCols, eRows, c.cProdutoEstoque);
      Summarize(vRows, c.cData, c.cQtdVenda, eRows, c.cQtdEstoque, c.cProdutoEstoque, parseDate)
  }

  /** The two alert loops: one rupture per risk row, then one excess alert per
      excess row, each in row order. */
  method BuildAlertas(risco: seq<StockItem>, excesso: seq<StockItem>) returns (alertas: seq<Alert>)
    requires forall x :: x in risco ==> InBand(x, Low)
    requires forall x :: x in excesso ==> InBand(x, High)
    ensures alertas == AlertsFor(risco, Low) + AlertsFor(excesso, High)
  {
    alertas := [];
    for i := 0 to |risco|
      invariant alertas == AlertsFor(risco[..i], Low)
    {
      assert risco[..i + 1][..i] == risco[..i];
      alertas := alertas + [AlertFor(risco[i], Low)];
    }
    assert risco[..|risco|] == risco;
    for i := 0 to |excesso|
      invariant alertas == AlertsFor(risco, Low) + AlertsFor(excesso[..i], High)
    {
      assert excesso[..i + 1][..i] == excesso[..i];
      alertas := alertas + [AlertFor(excesso[i], High)];
    }
    assert excesso[..|excesso|] == excesso;
  }

  /** processar_dados: reassigns both frames' labels to their normalised form
      and answers as Analyse describes. Its callers always hand it two frames
      read separately, never the same one twice. */
  method ProcessarDados(vendas: DataFrame, estoque: DataFrame, parseDate: Cell -> Option<Timestamp>)
    returns (r: Response)
    requires vendas != estoque
    requires vendas.Valid() && estoque.Valid()
    modifies vendas`columns, estoque`columns
    ensures vendas.Valid() && estoque.Valid()
    ensures vendas.columns == NormalizeAll(old(vendas.columns))
    ensures estoque.columns == NormalizeAll(old(estoque.columns))
    ensures r == Analyse(old(vendas.columns), vendas.rows, old(estoque.columns), estoque.rows, parseDate)
  {
    var vc, ec := vendas.columns, estoque.columns;
    NormalizeAllStable(vc);
    NormalizeAllStable(ec);
    vendas.columns := NormalizeAll(vendas.columns);
    estoque.columns := NormalizeAll(estoque.columns);
    var located := LocateColumns(vendas, estoque);
    r := Answer(vc, vendas.rows, ec, estoque.rows, located, parseDate);
  }

  /** The tail of processar_dados: the KeyError answer when a column is
      missing, the summary otherwise. */
  method Answer(
    vCols: seq<string>, vRows: seq<seq<Cell>>, eCols: seq<string>, eRows: seq<seq<Cell>>,
    located: Result<Located, Response>, parseDate: Cell -> Option<Timestamp>) returns (r: Response)
    requires Rectangular(vCols, vRows) && Rectangular(eCols, eRows)
    requires located == Locate(NormalizeAll(vCols), NormalizeAll(eCols))
    ensures r == Analyse(vCols, vRows, eCols, eRows, parseDate)
  {
    match located
    case Err(response) =>
      r := response;
    case Ok(c) =>
      r := SummarizeLocated(NormalizeAll(vCols), vRows, NormalizeAll(eCols), eRows, c, parseDate);
  }

  /** The five get_col calls of processar_dados on already normalised frames. */
  method LocateColumns(vendas: DataFrame, estoque: DataFrame) returns (located: Result<Located, Response>)
    requires vendas != estoque
    requires vendas.Valid() && estoque.Valid()
    requires vendas.columns == LowerStripAll(vendas.columns)
    requires estoque.columns == LowerStripAll(estoque.columns)
    modifies vendas`columns, estoque`columns
    ensures vendas.Valid() && estoque.Valid()
    ensures vendas.columns == old(vendas.columns) && estoque.columns == old(estoque.columns)
    ensures located == Locate(vendas.columns, estoque.columns)
  {
    ghost var vc, ec := vendas.columns, estoque.columns;
    var sales := LocateSalesColumns(vendas);
    assert vendas.columns == vc && estoque.columns == ec && estoque.Valid();
    if sales.Err? {
      located := Err(sales.error);
    } else {
      var stock := LocateStockColumns(estoque);
      assert vendas.columns == vc && estoque.columns == ec && vendas.Valid();
      if stock.Err? {
        located := Err(stock.error);
      } else {
        located := Ok(Located(sales.value.0, sales.value.1, stock.value.0, stock.value.1));
      }
    }
  }

  /** The three get_col calls on the sales frame. */
  method LocateSalesColumns(vendas: DataFrame) returns (r: Result<(nat, nat), Response>)
    requires vendas.Valid() && vendas.columns == LowerStripAll(vendas.columns)
    modifies vendas`columns
    ensures vendas.Valid() && vendas.columns == old(vendas.columns)
    ensures r == LocateSales(vendas.columns)
  {
    var cData := vendas.GetCol(NomesData);
    if cData.None? { return Err(KeyErrorResponse(NomesData)); }
    var cQtdVenda := vendas.GetCol(NomesQtdVenda);
    if cQtdVenda.None? { return Err(KeyErrorResponse(NomesQtdVenda)); }
    var cProduto := vendas.GetCol(NomesProduto);
    if cProduto.None? { return Err(KeyErrorResponse(NomesProduto)); }
    r := Ok((cData.value, cQtdVenda.value));
  }

  /** The two get_col calls on the stock frame. */
  method LocateStockColumns(estoque: DataFrame) returns (r: Result<(nat, nat), Response>)
    requires estoque.Valid() && estoque.columns == LowerStripAll(estoque.columns)
    modifies estoque`columns
    ensures estoque.Valid() && estoque.columns == old(estoque.columns)
    ensures r == LocateStock(estoque.columns)
  {
    var cQtdEstoque := estoque.GetCol(NomesQtdEstoque);
    if cQtdEstoque.None? { return Err(KeyErrorResponse(NomesQtdEstoque)); }
    var cProdutoEstoque := estoque.GetCol(NomesProduto);
    if cProdutoEstoque.None? { return Err(KeyErrorResponse(NomesProduto)); }
    r := Ok((cQtdEstoque.value, cProdutoEstoque.value));
  }

  /** The rest of processar_dados once all four columns were found. */
  method SummarizeLocated(
    vCols: seq<string>, vRows: seq<seq<Cell>>, eCols: seq<string>, eRows: seq<seq<Cell>>,
    c: Located, parseDate: Cell -> Option<Timestamp>) returns (r: Response)
    requires Rectangular(vCols, vRows) && Rectangular(eCols, eRows)
    requires Locate(vCols, eCols) == Ok(c)
    ensures r == Summarize(vRows, c.cData, c.cQtdVenda, eRows, c.cQtdEstoque, c.cProdutoEstoque, parseDate)
  {
    RectangularHasColumn(vCols, vRows, c.cData);
    RectangularHasColumn(vCols, vRows, c.cQtdVenda);
    RectangularHasColumn(eCols, eRows, c.cQtdEstoque);
    RectangularHasColumn(eCols, eRows, c.cProdutoEstoque);
    r := SummarizeRows(vRows, c.cData, c.cQtdVenda, eRows, c.cQtdEstoque, c.cProdutoEstoque, parseDate);
  }

  /** The body of processar_dados after the column lookups. */
  method SummarizeRows(
    vRows: seq<seq<Cell>>, cData: nat, cQtdVenda: nat,
    eRows: seq<seq<Cell>>, cQtdEstoque: nat, cProdutoEstoque: nat,
    parseDate: Cell -> Option<Timestamp>) returns (r: Response)
    requires HasColumn(vRows, cData) && HasColumn(vRows, cQtdVenda)
    requires HasColumn(eRows, cQtdEstoque) && HasColumn(eRows, cProdutoEstoque)
    ensures r == Summarize(vRows, cData, cQtdVenda, eRows, cQtdEstoque, cProdutoEstoque, parseDate)
  {
    var items := StockItems(eRows, cQtdEstoque, cProdutoEstoque);
    var series := MakeSeries(SalesRows(vRows, cData, cQtdVenda, parseDate));
    if series.None? || StockQtyHasText(items) {
      return UnexpectedError;
    }
    var risco := Select(items, Low);
    var excesso := Select(items, High);
    var sugestoes := Produtos(risco);
    var alertas := BuildAlertas(risco, excesso);
    r := Processed(Summary(|risco|, |excesso|, |sugestoes|, series.value.labels, series.value.values, alertas));
  }

  // ---------------------------------------------------------------------------
  // What processar_dados promises

  /** Once the columns are located the answer is the summary of the rows. */
  lemma AnalyseLocated(
    vCols: seq<string>, vRows: seq<seq<Cell>>, eCols: seq<string>, eRows: seq<seq<Cell>>,
    parseDate: Cell -> Option<Timestamp>, c: Located)
    requires Rectangular(vCols, vRows) && Rectangular(eCols, eRows)
    requires Locate(NormalizeAll(vCols), NormalizeAll(eCols)) == Ok(c)
    ensures HasColumn(vRows, c.cData) && HasColumn(vRows, c.cQtdVenda)
    ensures HasColumn(eRows, c.cQtdEstoque) && HasColumn(eRows, c.cProdutoEstoque)
    ensures Analyse(vCols, vRows, eCols, eRows, parseDate)
            == Summarize(vRows, c.cData, c.cQtdVenda, eRows, c.cQtdEstoque, c.cProdutoEstoque, parseDate)
  {
    RectangularHasColumn(vCols, vRows, c.cData);
    RectangularHasColumn(vCols, vRows, c.cQtdVenda);
    RectangularHasColumn(eCols, eRows, c.cQtdEstoque);
    RectangularHasColumn(eCols, eRows, c.cProdutoEstoque);
  }

  /** A rupture alert: stock below 10, days the stock over 3 and at least 1. */
  predicate RuptureShaped(a: Alert) {
    a.Ruptura? && a.estoqueAtual < RiskBelow && a.diasRestantes >= 1
    && a.diasRestantes == (if a.estoqueAtual / 3 > 1 then a.estoqueAtual / 3 else 1)
  }

  /** An excess alert: stock above 100 with the fixed idle days. */
  predicate ExcessShaped(a: Alert) {
    a.Excesso? && a.estoqueAtual > ExcessAbove && a.diasParado == DiasParado
  }

  /** Each risk row gives a rupture alert. */
  lemma RuptureAlerts(items: seq<StockItem>)
    ensures var a := AlertsFor(Select(items, Low), Low);
      forall i :: 0 <= i < |a| ==> RuptureShaped(a[i])
  {
  }

  /** Each excess row gives an excess alert. */
  lemma ExcessAlerts(items: seq<StockItem>)
    ensures var a := AlertsFor(Select(items, High), High);
      forall i :: 0 <= i < |a| ==> ExcessShaped(a[i])
  {
  }

  /** The alerts list a Ruptura per risk row, then an Excesso per excess row. */
  lemma AlertsShape(items: seq<StockItem>)
    ensures var risco := Select(items, Low);
      var a := AlertsFor(risco, Low) + AlertsFor(Select(items, High), High);
      && |a| == |risco| + |Select(items, High)|
      && (forall i :: 0 <= i < |risco| ==> RuptureShaped(a[i]))
      && (forall i :: |risco| <= i < |a| ==> ExcessShaped(a[i]))
  {
    RuptureAlerts(items);
    ExcessAlerts(items);
    ShapesConcatenate(AlertsFor(Select(items, Low), Low), AlertsFor(Select(items, High), High));
  }

  /** Ruptures followed by excess alerts keep their shapes in the joined list. */
  lemma ShapesConcatenate(low: seq<Alert>, high: seq<Alert>)
    requires forall i :: 0 <= i < |low| ==> RuptureShaped(low[i])
    requires forall i :: 0 <= i < |high| ==> ExcessShaped(high[i])
    ensures forall i :: 0 <= i < |low| ==> RuptureShaped((low + high)[i])
    ensures forall i :: |low| <= i < |low + high| ==> ExcessShaped((low + high)[i])
  {
    var a := low + high;
    assert forall i :: |low| <= i < |a| ==> a[i] == high[i - |low|];
  }

  /** The summary of a 200 answer, spelled out. */
  lemma ProcessedSummary(
    vRows: seq<seq<Cell>>, cData: nat, cQtdVenda: nat,
    eRows: seq<seq<Cell>>, cQtdEstoque: nat, cProdutoEstoque: nat,
    parseDate: Cell -> Option<Timestamp>)
    requires HasColumn(vRows, cData) && HasColumn(vRows, cQtdVenda)
    requires HasColumn(eRows, cQtdEstoque) && HasColumn(eRows, cProdutoEstoque)
    requires Summarize(vRows, cData, cQtdVenda, eRows, cQtdEstoque, cProdutoEstoque, parseDate).Processed?
    ensures var items := StockItems(eRows, cQtdEstoque, cProdutoEstoque);
      var series := MakeSeries(SalesRows(vRows, cData, cQtdVenda, parseDate));
      var risco := Select(items, Low);
      var excesso := Select(items, High);
      && series.Some?
      && Summarize(vRows, cData, cQtdVenda, eRows, cQtdEstoque, cProdutoEstoque, parseDate).summary
         == Summary(|risco|, |excesso|, |Produtos(risco)|, series.value.labels, series.value.values,
                    AlertsFor(risco, Low) + AlertsFor(excesso, High))
  {
  }

  /** A 200 answer counts the risk rows once as risk, once as suggestions, lists
      a Ruptura alert per risk row and then an Excesso alert per excess row, and
      carries at most seven sales points. */
  lemma SummarizeProcessed(
    vRows: seq<seq<Cell>>, cData: nat, cQtdVenda: nat,
    eRows: seq<seq<Cell>>, cQtdEstoque: nat, cProdutoEstoque: nat,
    parseDate: Cell -> Option<Timestamp>)
    requires HasColumn(vRows, cData) && HasColumn(vRows, cQtdVenda)
    requires HasColumn(eRows, cQtdEstoque) && HasColumn(eRows, cProdutoEstoque)
    requires Summarize(vRows, cData, cQtdVenda, eRows, cQtdEstoque, cProdutoEstoque, parseDate).Processed?
    ensures var s := Summarize(vRows, cData, cQtdVenda, eRows, cQtdEstoque, cProdutoEstoque, parseDate).summary;
      && s.sugestoesCompra == s.produtosEmRisco
      && |s.alertas| == s.produtosEmRisco + s.excessoEstoque
      && |s.vendasLabels| == |s.vendasValores| <= 7
      && (forall i :: 0 <= i < s.produtosEmRisco ==> RuptureShaped(s.alertas[i]))
      && (forall i :: s.produtosEmRisco <= i < |s.alertas| ==> ExcessShaped(s.alertas[i]))
  {
    ProcessedSummary(vRows, cData, cQtdVenda, eRows, cQtdEstoque, cProdutoEstoque, parseDate);
    AlertsShape(StockItems(eRows, cQtdEstoque, cProdutoEstoque));
  }

  /** In a 200 answer the risk and excess counts are the numbers of stock rows
      in each band, and each alert is the alert of its row, in row order. */
  lemma SummarizeCountsRows(
    vRows: seq<seq<Cell>>, cData: nat, cQtdVenda: nat,
    eRows: seq<seq<Cell>>, cQtdEstoque: nat, cProdutoEstoque: nat,
    parseDate: Cell -> Option<Timestamp>)
    requires HasColumn(vRows, cData) && HasColumn(vRows, cQtdVenda)
    requires HasColumn(eRows, cQtdEstoque) && HasColumn(eRows, cProdutoEstoque)
    requires Summarize(vRows, cData, cQtdVenda, eRows, cQtdEstoque, cProdutoEstoque, parseDate).Processed?
    ensures var items := StockItems(eRows, cQtdEstoque, cProdutoEstoque);
      var s := Summarize(vRows, cData, cQtdVenda, eRows, cQtdEstoque, cProdutoEstoque, parseDate).summary;
      var low := BandPositions(items, Low);
      var high := BandPositions(items, High);
      && s.produtosEmRisco == |low| && s.excessoEstoque == |high|
      && (forall k :: 0 <= k < |low| ==> s.alertas[k] == AlertFor(items[low[k]], Low))
      && (forall k :: 0 <= k < |high| ==> s.alertas[|low| + k] == AlertFor(items[high[k]], High))
  {
    ProcessedSummary(vRows, cData, cQtdVenda, eRows, cQtdEstoque, cProdutoEstoque, parseDate);
    var items := StockItems(eRows, cQtdEstoque, cProdutoEstoque);
    var s := Summarize(vRows, cData, cQtdVenda, eRows, cQtdEstoque, cProdutoEstoque, parseDate).summary;
    var risco := Select(items, Low);
    var excesso := Select(items, High);
    assert s.produtosEmRisco == |risco| && s.excessoEstoque == |excesso|;
    assert s.alertas == AlertsFor(risco, Low) + AlertsFor(excesso, High);
    AlertsAt(items);
  }

  /** Each alert is the alert of the stock row it comes from. */
  lemma AlertsAt(items: seq<StockItem>)
    ensures var low := BandPositions(items, Low);
      var high := BandPositions(items, High);
      var a := AlertsFor(Select(items, Low), Low) + AlertsFor(Select(items, High), High);
      && |a| == |low| + |high|
      && (forall k :: 0 <= k < |low| ==> a[k] == AlertFor(items[low[k]], Low))
      && (forall k :: 0 <= k < |high| ==> a[|low| + k] == AlertFor(items[high[k]], High))
  {
    AlertsShape(items);
  }

  /** No stock row is both a risk and an excess: a quantity below 10 is not above 100. */
  lemma RiskAndExcessDisjoint(items: seq<StockItem>)
    ensures forall x :: x in Select(items, Low) ==> x !in Select(items, High)
  {
  }

  /** processar_dados rejects only with a get_col KeyError or with the 500. */
  lemma AnalyseRejections(
    vCols: seq<string>, vRows: seq<seq<Cell>>, eCols: seq<string>, eRows: seq<seq<Cell>>,
    parseDate: Cell -> Option<Timestamp>)
    requires Rectangular(vCols, vRows) && Rectangular(eCols, eRows)
    ensures var r := Analyse(vCols, vRows, eCols, eRows, parseDate);
      r.Rejected? ==>
        r == UnexpectedError || r == KeyErrorResponse(NomesData) || r == KeyErrorResponse(NomesQtdVenda)
        || r == KeyErrorResponse(NomesProduto) || r == KeyErrorResponse(NomesQtdEstoque)
  {
    var located := Locate(NormalizeAll(vCols), NormalizeAll(eCols));
    if located.Ok? {
      var c := located.value;
      AnalyseLocated(vCols, vRows, eCols, eRows, parseDate, c);
    } else {
      LocateRejects(NormalizeAll(vCols), NormalizeAll(eCols));
    }
  }

  lemma LocateRejects(vc: seq<string>, ec: seq<string>)
    ensures var r := Locate(vc, ec);
      r.Err? ==>
        r.error == KeyErrorResponse(NomesData) || r.error == KeyErrorResponse(NomesQtdVenda)
        || r.error == KeyErrorResponse(NomesProduto) || r.error == KeyErrorResponse(NomesQtdEstoque)
  {
  }

  /** Every rejection of processar_dados reads "Erro ...". */
  lemma AnalyseRejectionText(
    vCols: seq<string>, vRows: seq<seq<Cell>>, eCols: seq<string>, eRows: seq<seq<Cell>>,
    parseDate: Cell -> Option<Timestamp>)
    requires Rectangular(vCols, vRows) && Rectangular(eCols, eRows)
    ensures var r := Analyse(vCols, vRows, eCols, eRows, parseDate);
      r.Rejected? ==> |r.erro| > 0 && r.erro[0] == 'E'
  {
    AnalyseRejections(vCols, vRows, eCols, eRows, parseDate);
    var r := Analyse(vCols, vRows, eCols, eRows, parseDate);
    if r.Rejected? && r != UnexpectedError {
      assert KeyErrorPrefix <= r.erro;
      assert KeyErrorPrefix[0] == 'E';
    }
  }

  /** When no sales column mentions a date name, the answer is the 400 naming
      the date names: that lookup comes first. */
  lemma AnalyseMissingDate(
    vCols: seq<string>, vRows: seq<seq<Cell>>, eCols: seq<string>, eRows: seq<seq<Cell>>,
    parseDate: Cell -> Option<Timestamp>)
    requires Rectangular(vCols, vRows) && Rectangular(eCols, eRows)
    requires forall k, i :: 0 <= k < |NomesData| && 0 <= i < |vCols| ==> !Occurs(NomesData[k], Normalize(vCols[i]))
    ensures Analyse(vCols, vRows, eCols, eRows, parseDate) == KeyErrorResponse(NomesData)
  {
    FindColumnSpec(NomesData, NormalizeAll(vCols));
  }

  // ---------------------------------------------------------------------------
  // The /processar route

  /** An uploaded file: its name and the pandas reader behind it. */
  datatype Upload = Upload(filename: string, read: Reader -> Result<Frame, string>)

  /** `not file_storage`: the field is absent or its file name is empty. */
  predicate Missing(u: Option<Upload>) {
    u.None? || u.value.filename == ""
  }

  // The route's own error texts, written in pieces so that their first letters
  // (A, O, N; every processar_dados rejection starts with E) are visible.
  const MsgObrigatorios := "Arquivos de vendas e estoque " + "são obrigatórios."
  const MsgInvertidos := "Os arquivos parecem estar invertidos. "
                         + "Verifique se enviou o CSV correto para cada campo."
  const MsgDesconhecido := "Não foi possível identificar "
                           + "o tipo dos arquivos. Verifique se estão no formato esperado."

  /** The type check of processar on two loaded frames, then processar_dados. */
  function Route(v: Frame, est: Frame, parseDate: Cell -> Option<Timestamp>): (r: Response)
    ensures r.Rejected? && r.status != 400 ==> r == UnexpectedError
  {
    var tipoVendas := DetectarTipo(v.columns);
    var tipoEstoque := DetectarTipo(est.columns);
    if tipoVendas == Estoque && tipoEstoque == Vendas then Rejected(400, MsgInvertidos)
    else if tipoVendas == Desconhecido || tipoEstoque == Desconhecido then Rejected(400, MsgDesconhecido)
    else Analyse(v.columns, v.rows, est.columns, est.rows, parseDate)
  }

  /** The answer of POST /processar to the `vendas` and `estoque` fields. */
  function Respond(vendas: Option<Upload>, estoque: Option<Upload>, parseDate: Cell -> Option<Timestamp>): (r: Response)
    ensures r.Rejected? && r.status != 400 ==> r == UnexpectedError
  {
    if Missing(vendas) || Missing(estoque) then Rejected(400, MsgObrigatorios)
    else match CarregarArquivo(vendas.value.filename, vendas.value.read)
      case Err(e) => Rejected(400, e)
      case Ok(v) =>
        match CarregarArquivo(estoque.value.filename, estoque.value.read)
        case Err(e) => Rejected(400, e)
        case Ok(est) => Route(v, est, parseDate)
  }

  /** processar: checks the uploads, reads both, classifies them and hands the
      two frames to processar_dados. */
  method Processar(vendas: Option<Upload>, estoque: Option<Upload>, parseDate: Cell -> Option<Timestamp>)
    returns (r: Response)
    ensures r == Respond(vendas, estoque, parseDate)
  {
    if Missing(vendas) || Missing(estoque) {
      return Rejected(400, MsgObrigatorios);
    }
    var v := CarregarArquivo(vendas.value.filename, vendas.value.read);
    if v.Err? {
      return Rejected(400, v.error);
    }
    var est := CarregarArquivo(estoque.value.filename, estoque.value.read);
    if est.Err? {
      return Rejected(400, est.error);
    }
    var tipoVendas := DetectarTipo(v.value.columns);
    var tipoEstoque := DetectarTipo(est.value.columns);
    if tipoVendas == Estoque && tipoEstoque == Vendas {
      return Rejected(400, MsgInvertidos);
    }
    if tipoVendas == Desconhecido || tipoEstoque == Desconhecido {
      return Rejected(400, MsgDesconhecido);
    }
    var dfVendas := new DataFrame(v.value);
    var dfEstoque := new DataFrame(est.value);
    r := ProcessarDados(dfVendas, dfEstoque, parseDate);
  }

  /** Two texts whose first characters differ are different. */
  lemma FirstCharDiffers(s: string, t: string)
    requires |s| > 0 && |t| > 0 && s[0] != t[0]
    ensures s != t
  {
  }

  /** The "both files are required" 400 is given exactly when a field is
      missing: every later rejection carries a different text. */
  lemma ObrigatoriosExactly(vendas: Option<Upload>, estoque: Option<Upload>, parseDate: Cell -> Option<Timestamp>)
    ensures Respond(vendas, estoque, parseDate) == Rejected(400, MsgObrigatorios) <==> Missing(vendas) || Missing(estoque)
  {
    if !Missing(vendas) && !Missing(estoque) {
      var lv := CarregarArquivo(vendas.value.filename, vendas.value.read);
      var le := CarregarArquivo(estoque.value.filename, estoque.value.read);
      if lv.Err? {
        assert lv.error[0] == ReadError(Lower(vendas.value.filename), "")[0];
        FirstCharDiffers(lv.error, MsgObrigatorios);
      } else if le.Err? {
        assert le.error[0] == ReadError(Lower(estoque.value.filename), "")[0];
        FirstCharDiffers(le.error, MsgObrigatorios);
      } else {
        RouteNeverObrigatorios(lv.value, le.value, parseDate);
      }
    }
  }

  /** The type check and processar_dados never use the "required" text. */
  lemma RouteNeverObrigatorios(v: Frame, est: Frame, parseDate: Cell -> Option<Timestamp>)
    ensures Route(v, est, parseDate) != Rejected(400, MsgObrigatorios)
  {
    Initials();
    var tipoVendas := DetectarTipo(v.columns);
    var tipoEstoque := DetectarTipo(est.columns);
    if tipoVendas == Estoque && tipoEstoque == Vendas {
      FirstCharDiffers(MsgInvertidos, MsgObrigatorios);
    } else if tipoVendas == Desconhecido || tipoEstoque == Desconhecido {
      FirstCharDiffers(MsgDesconhecido, MsgObrigatorios);
    } else {
      var r := Analyse(v.columns, v.rows, est.columns, est.rows, parseDate);
      AnalyseRejectionText(v.columns, v.rows, est.columns, est.rows, parseDate);
      if r.Rejected? {
        FirstCharDiffers(r.erro, MsgObrigatorios);
      }
    }
  }

  lemma Initials()
    ensures |MsgObrigatorios| > 0 && MsgObrigatorios[0] == 'A'
    ensures |MsgInvertidos| > 0 && MsgInvertidos[0] == 'O'
    ensures |MsgDesconhecido| > 0 && MsgDesconhecido[0] == 'N'
  {
  }

  /** Swapped files are rejected as such, and only they are. */
  lemma SwappedExactly(v: Frame, est: Frame, parseDate: Cell -> Option<Timestamp>)
    ensures Route(v, est, parseDate) == Rejected(400, MsgInvertidos) <==>
              DetectarTipo(v.columns) == Estoque && DetectarTipo(est.columns) == Vendas
  {
    Initials();
    var tipoVendas := DetectarTipo(v.columns);
    var tipoEstoque := DetectarTipo(est.columns);
    if !(tipoVendas == Estoque && tipoEstoque == Vendas) {
      if tipoVendas == Desconhecido || tipoEstoque == Desconhecido {
        FirstCharDiffers(MsgDesconhecido, MsgInvertidos);
      } else {
        var r := Analyse(v.columns, v.rows, est.columns, est.rows, parseDate);
        AnalyseRejectionText(v.columns, v.rows, est.columns, est.rows, parseDate);
        if r.Rejected? {
          FirstCharDiffers(r.erro, MsgInvertidos);
        }
      }
    }
  }

  /** Files of an unknown kind are rejected unless the pair is swapped; files
      of any other kinds (sales twice, or columns of both kinds) reach
      processar_dados. */
  lemma RouteForwards(v: Frame, est: Frame, parseDate: Cell -> Option<Timestamp>)
    ensures Route(v, est, parseDate) == Rejected(400, MsgDesconhecido) <==>
              !(DetectarTipo(v.columns) == Estoque && DetectarTipo(est.columns) == Vendas)
              && (DetectarTipo(v.columns) == Desconhecido || DetectarTipo(est.columns) == Desconhecido)
    ensures !(DetectarTipo(v.columns) == Estoque && DetectarTipo(est.columns) == Vendas)
            && DetectarTipo(v.columns) != Desconhecido && DetectarTipo(est.columns) != Desconhecido ==>
              Route(v, est, parseDate) == Analyse(v.columns, v.rows, est.columns, est.rows, parseDate)
  {
    Initials();
    var tipoVendas := DetectarTipo(v.columns);
    var tipoEstoque := DetectarTipo(est.columns);
    if tipoVendas == Estoque && tipoEstoque == Vendas {
      FirstCharDiffers(MsgInvertidos, MsgDesconhecido);
    } else if !(tipoVendas == Desconhecido || tipoEstoque == Desconhecido) {
      var r := Analyse(v.columns, v.rows, est.columns, est.rows, parseDate);
      AnalyseRejectionText(v.columns, v.rows, est.columns, est.rows, parseDate);
      if r.Rejected? {
        FirstCharDiffers(r.erro, MsgDesconhecido);
      }
    }
  }
}
