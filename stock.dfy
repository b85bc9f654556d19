/** The stock page (frontend/js/estoque.js): once the sidebar is loaded and its
    active item marked, the products fetched from the API are rendered one
    table row each, and any failure replaces the table body with one error row. */
module StockPage {
  import opened Wrappers
  import opened Text
  import Sidebar

  /** A JSON field as a template literal prints it. Numbers are integers here. */
  datatype Value = JNum(n: int) | JStr(s: string) | JNull | Undefined

  /** `${v}` */
  function Show(v: Value): string {
    match v
    case JNum(n) => IntToString(n)
    case JStr(s) => s
    case JNull => "null"
    case Undefined => "undefined"
  }

  /** The values `||` treats as false. */
  predicate Falsy(v: Value) {
    v == JNum(0) || v == JStr("") || v == JNull || v == Undefined
  }

  /** `${v || '-'}` */
  function OrDash(v: Value): (r: string)
    ensures Falsy(v) ==> r == "-"
    ensures !Falsy(v) ==> r == Show(v)
  {
    if Falsy(v) then "-" else Show(v)
  }

  /** One element of the fetched array. The price is in cents; None stands for a
      `preco_unitario` that is not a number, on which `toFixed` throws. */
  datatype Produto = Produto(
    id: Value,
    nomeProduto: Value,
    categoria: Value,
    precoCentavos: Option<int>,
    quantidadeEstoque: Value,
    unidadeMedida: Value,
    fornecedor: Value,
    dataEntrada: Value,
    dataValidade: Value,
    codigoBarras: Value)

  // ---------------------------------------------------------------------------
  // Prices with two decimals

  function TwoDigits(n: nat): (r: string)
    requires n < 100
    ensures |r| == 2 && AllDigits(r) && ParseNat(r) == n
  {
    var r := [Digit(n / 10), Digit(n % 10)];
    assert ParseNat(r[..1]) == n / 10 by {
      assert r[..1][..0] == [];
    }
    r
  }

  /** `(cents / 100).toFixed(2)`: an optional minus sign, the whole part, a point
      and exactly two digits. */
  function ToFixed2(cents: int): (r: string)
    ensures |r| >= 4 && r[|r| - 3] == '.' && AllDigits(r[|r| - 2..])
  {
    var m: nat := if cents < 0 then -cents else cents;
    (if cents < 0 then "-" else "") + NatToString(m / 100) + "." + TwoDigits(m % 100)
  }

  /** Reads a ToFixed2 text back as cents. */
  function ParseFixed2(s: string): int
    requires |s| >= 4 && s[|s| - 3] == '.' && AllDigits(s[|s| - 2..])
    requires s[0] == '-' ==> AllDigits(s[1..|s| - 3])
    requires s[0] != '-' ==> AllDigits(s[..|s| - 3])
  {
    if s[0] == '-' then -(ParseNat(s[1..|s| - 3]) * 100 + ParseNat(s[|s| - 2..]))
    else ParseNat(s[..|s| - 3]) * 100 + ParseNat(s[|s| - 2..])
  }

  /** ToFixed2 loses nothing: reading its text back gives the cents. */
  lemma ToFixed2RoundTrip(cents: int)
    ensures var r := ToFixed2(cents);
      && (r[0] == '-' ==> AllDigits(r[1..|r| - 3]))
      && (r[0] != '-' ==> AllDigits(r[..|r| - 3]))
      && ParseFixed2(r) == cents
  {
    var m: nat := if cents < 0 then -cents else cents;
    var sign := if cents < 0 then "-" else "";
    var whole := NatToString(m / 100);
    var frac := TwoDigits(m % 100);
    var r := ToFixed2(cents);
    assert r == sign + whole + "." + frac;
    assert r[|r| - 2..] == frac;
    ParseNatToString(m / 100);
    if cents < 0 {
      assert r[1..|r| - 3] == whole;
    } else {
      assert r[..|r| - 3] == whole;
    }
  }

  /** The price cell: "R$ " and the price with two decimals. */
  function PriceCell(cents: int): string {
    "R$ " + ToFixed2(cents)
  }

  // ---------------------------------------------------------------------------
  // Rows

  /** The ten cells written for a product, in column order: id, name, category,
      price, quantity, unit, supplier, entry date, expiry date, bar code. */
  function RenderRow(p: Produto): (cells: seq<string>)
    requires p.precoCentavos.Some?
    ensures |cells| == 10
    ensures cells[3] == PriceCell(p.precoCentavos.value)
    ensures Falsy(p.dataEntrada) ==> cells[7] == "-"
    ensures Falsy(p.dataValidade) ==> cells[8] == "-"
    ensures !Falsy(p.dataEntrada) ==> cells[7] == Show(p.dataEntrada)
    ensures !Falsy(p.dataValidade) ==> cells[8] == Show(p.dataValidade)
  {
    [Show(p.id), Show(p.nomeProduto), Show(p.categoria), PriceCell(p.precoCentavos.value),
     Show(p.quantidadeEstoque), Show(p.unidadeMedida), Show(p.fornecedor),
     OrDash(p.dataEntrada), OrDash(p.dataValidade), Show(p.codigoBarras)]
  }

  /** A row of `#tabelaEstoque tbody`. */
  datatype BodyRow = Loading | DataRow(cells: seq<string>) | ErrorRow(colspan: nat, message: string)

  const LoadError := ErrorRow(10, "Erro ao carregar produtos.")

  /** What the stock API request produced: the parsed array, or a failure of the
      request or of the JSON decoding. */
  datatype Fetched = Products(items: seq<Produto>) | FetchFailed

  /** The body the page ends with: one row per product in fetch order, or the
      single error row when the request failed or some product's price is not
      a number. */
  function FinalBody(f: Fetched): (body: seq<BodyRow>)
    ensures f.FetchFailed? ==> body == [LoadError]
    ensures f.Products? && (exists i | 0 <= i < |f.items| :: f.items[i].precoCentavos.None?) ==> body == [LoadError]
    ensures f.Products? && (forall i | 0 <= i < |f.items| :: f.items[i].precoCentavos.Some?) ==>
              |body| == |f.items| && forall i | 0 <= i < |f.items| :: body[i] == DataRow(RenderRow(f.items[i]))
  {
    match f
    case FetchFailed => [LoadError]
    case Products(items) =>
      if exists i | 0 <= i < |items| :: items[i].precoCentavos.None? then [LoadError]
      else seq(|items|, i requires 0 <= i < |items| => DataRow(RenderRow(items[i])))
  }

  /** Every rendered body either is the single error row or has no error row at all. */
  lemma {:induction false} FinalBodyShape(f: Fetched)
    ensures FinalBody(f) == [LoadError] || forall r | r in FinalBody(f) :: r.DataRow? && |r.cells| == 10
  {
    if f.Products? && forall i | 0 <= i < |f.items| :: f.items[i].precoCentavos.Some? {
      var body := FinalBody(f);
      forall r | r in body ensures r.DataRow? && |r.cells| == 10 {
        var i :| 0 <= i < |body| && body[i] == r;
      }
    }
  }

  /** The table body of the stock page. */
  class StockTable {
    var body: seq<BodyRow>

    constructor ()
      ensures body == [Loading]
    {
      body := [Loading];
    }

    /** The `try` block: clear the placeholder, append a row per product; the
        `catch` block: replace everything with the error row. */
    method Load(f: Fetched)
      modifies this
      ensures body == FinalBody(f)
    {
      if f.FetchFailed? {
        body := [LoadError];
        return;
      }
      var produtos := f.items;
      body := [];
      var i := 0;
      while i < |produtos|
        invariant 0 <= i <= |produtos|
        invariant forall j | 0 <= j < i :: produtos[j].precoCentavos.Some?
        invariant |body| == i && forall j | 0 <= j < i :: body[j] == DataRow(RenderRow(produtos[j]))
      {
        if produtos[i].precoCentavos.None? {
          body := [LoadError];
          return;
        }
        body := body + [DataRow(RenderRow(produtos[i]))];
        i := i + 1;
      }
    }
  }

  /** The DOMContentLoaded handler: mark the sidebar's active item, then load
      the table. */
  method LoadStockPage(menu: Sidebar.NavMenu, table: StockTable, path: string, f: Fetched)
    requires menu.Valid()
    modifies menu, table
    ensures menu.Valid()
    ensures forall i :: 0 <= i < |menu.hrefs| ==> (menu.active[i] <==> Sidebar.IsCurrent(menu.hrefs[i], path))
    ensures table.body == FinalBody(f)
  {
    menu.MarkActive(path);
    table.Load(f);
  }
}
