/** The dashboard script (frontend/script.js): writing a /processar answer into
    the cards, the three card captions, the donut slices and the alert list, and
    the import modal whose form checks and sends the two files. */
module DashboardScript {
  import opened Wrappers
  import opened Text

  /** An element of `data.alertas`; None stands for a missing (undefined) field. */
  datatype Alerta = Alerta(tipo: Option<string>, produto: Option<string>, diasRestantes: Option<int>, estoqueAtual: Option<int>)

  /** The JSON answer the page receives. A counter is None when absent;
      `alertas` is None when it is not an array. */
  datatype DashboardData = DashboardData(
    produtosEmRisco: Option<int>,
    excessoEstoque: Option<int>,
    sugestoesCompra: Option<int>,
    alertas: Option<seq<Alerta>>,
    erro: Option<string>)

  /** `${x}` for a field that may be undefined. */
  function ShowText(x: Option<string>): string {
    x.GetOr("undefined")
  }

  function ShowInt(x: Option<int>): string {
    if x.Some? then IntToString(x.value) else "undefined"
  }

  /** `Array.isArray(data.alertas) ? data.alertas : []` */
  function AlertList(data: DashboardData): seq<Alerta> {
    data.alertas.GetOr([])
  }

  // ---------------------------------------------------------------------------
  // Rupture alerts

  /** `a.tipo && a.tipo.toLowerCase().includes("ruptura")` */
  predicate IsRuptura(a: Alerta) {
    a.tipo.Some? && a.tipo.value != "" && Contains(Lower(a.tipo.value), "ruptura")
  }

  /** The `{produto, dias}` records of the rupture alerts. */
  datatype Ruptura = Ruptura(produto: Option<string>, dias: Option<int>)

  /** The positions of the rupture alerts, ascending. */
  function RupturaPositions(alertas: seq<Alerta>): (idx: seq<nat>)
    ensures forall k :: 0 <= k < |idx| ==> idx[k] < |alertas| && IsRuptura(alertas[idx[k]])
    ensures forall k, l :: 0 <= k < l < |idx| ==> idx[k] < idx[l]
    ensures forall i :: 0 <= i < |alertas| && IsRuptura(alertas[i]) ==> i in idx
  {
    if alertas == [] then []
    else
      var n := |alertas| - 1;
      RupturaPositions(alertas[..n]) + (if IsRuptura(alertas[n]) then [n] else [])
  }

  /** The filter/map chain that builds `rupturas`: the `{produto, dias}` of
      each rupture alert, in alert order. */
  function Rupturas(alertas: seq<Alerta>): (r: seq<Ruptura>)
    ensures |r| == |RupturaPositions(alertas)|
    ensures forall k :: 0 <= k < |r| ==>
              var a := alertas[RupturaPositions(alertas)[k]];
              r[k] == Ruptura(a.produto, a.diasRestantes)
  {
    if alertas == [] then []
    else
      var n := |alertas| - 1;
      var front := Rupturas(alertas[..n]);
      var idx := RupturaPositions(alertas[..n]);
      assert RupturaPositions(alertas) == idx + (if IsRuptura(alertas[n]) then [n] else []);
      assert forall k :: 0 <= k < |front| ==> alertas[..n][idx[k]] == alertas[idx[k]];
      front + (if IsRuptura(alertas[n]) then [Ruptura(alertas[n].produto, alertas[n].diasRestantes)] else [])
  }

  /** There are no ruptures exactly when no alert's type mentions "ruptura". */
  lemma RupturasEmpty(alertas: seq<Alerta>)
    ensures Rupturas(alertas) == [] <==> forall i :: 0 <= i < |alertas| ==> !IsRuptura(alertas[i])
  {
    var idx := RupturaPositions(alertas);
    if idx != [] {
      assert IsRuptura(alertas[idx[0]]);
    }
  }

  /** A rupture with its number of days. */
  datatype Dated = Dated(produto: Option<string>, dias: int)

  /** The positions of the ruptures that have a day count, ascending. */
  function DiasPositions(rupturas: seq<Ruptura>): (idx: seq<nat>)
    ensures forall k :: 0 <= k < |idx| ==> idx[k] < |rupturas| && rupturas[idx[k]].dias.Some?
    ensures forall k, l :: 0 <= k < l < |idx| ==> idx[k] < idx[l]
    ensures forall i :: 0 <= i < |rupturas| && rupturas[i].dias.Some? ==> i in idx
  {
    if rupturas == [] then []
    else
      var n := |rupturas| - 1;
      DiasPositions(rupturas[..n]) + (if rupturas[n].dias.Some? then [n] else [])
  }

  /** `rupturas.filter(r => r.dias !== null)`: the ruptures with a day count,
      in order. */
  function ComDias(rupturas: seq<Ruptura>): (r: seq<Dated>)
    ensures |r| == |DiasPositions(rupturas)|
    ensures forall k :: 0 <= k < |r| ==>
              var x := rupturas[DiasPositions(rupturas)[k]];
              r[k] == Dated(x.produto, x.dias.value)
  {
    if rupturas == [] then []
    else
      var n := |rupturas| - 1;
      var front := ComDias(rupturas[..n]);
      var idx := DiasPositions(rupturas[..n]);
      assert forall k :: 0 <= k < |front| ==> rupturas[..n][idx[k]] == rupturas[idx[k]];
      var x := rupturas[n];
      front + (if x.dias.Some? then [Dated(x.produto, x.dias.value)] else [])
  }

  /** No rupture has days exactly when every rupture lacks a day count. */
  lemma ComDiasEmpty(rupturas: seq<Ruptura>)
    ensures ComDias(rupturas) == [] <==> forall i :: 0 <= i < |rupturas| ==> rupturas[i].dias.None?
  {
    var idx := DiasPositions(rupturas);
    if idx != [] {
      assert rupturas[idx[0]].dias.Some?;
    }
  }

  /** The smallest number of days. */
  function MinDias(s: seq<Dated>): (m: int)
    requires s != []
    ensures exists i :: 0 <= i < |s| && s[i].dias == m
    ensures forall i :: 0 <= i < |s| ==> m <= s[i].dias
  {
    if |s| == 1 then s[0].dias
    else
      var rest := MinDias(s[1..]);
      assert forall i :: 1 <= i < |s| ==> s[i] == s[1..][i - 1];
      if s[0].dias <= rest then s[0].dias else rest
  }

  /** The position of the first record with `d` days. */
  function FirstWith(s: seq<Dated>, d: int): (k: nat)
    requires exists i :: 0 <= i < |s| && s[i].dias == d
    ensures k < |s| && s[k].dias == d
    ensures forall i :: 0 <= i < k ==> s[i].dias != d
  {
    if s[0].dias == d then 0
    else
      assert exists i :: 0 <= i < |s[1..]| && s[1..][i].dias == d by {
        var i :| 0 <= i < |s| && s[i].dias == d;
        assert s[1..][i - 1] == s[i];
      }
      1 + FirstWith(s[1..], d)
  }

  /** `s.filter(r => r.dias === d).length` */
  function CountDias(s: seq<Dated>, d: int): (n: nat)
    ensures n <= |s|
  {
    if s == [] then 0 else (if s[0].dias == d then 1 else 0) + CountDias(s[1..], d)
  }

  // ---------------------------------------------------------------------------
  // Array.prototype.sort with the comparator `(a, b) => a.dias - b.dias`.
  // The library sort is stable; it is modelled as a stable insertion sort.

  predicate SortedByDias(s: seq<Dated>) {
    forall i, j :: 0 <= i < j < |s| ==> s[i].dias <= s[j].dias
  }

  /** Inserting before the first record with at least as many days keeps the
      records. */
  function Insert(x: Dated, s: seq<Dated>): (r: seq<Dated>)
    ensures |r| == |s| + 1
    ensures multiset(r) == multiset(s) + multiset{x}
  {
    if s == [] then [x]
    else if x.dias <= s[0].dias then
      assert s == [s[0]] + s[1..];
      [x] + s
    else
      assert s == [s[0]] + s[1..];
      [s[0]] + Insert(x, s[1..])
  }

  /** Inserting a record with at least `b` days among records with at least `b`
      days gives records with at least `b` days. */
  lemma {:induction false} InsertBound(x: Dated, s: seq<Dated>, b: int)
    requires b <= x.dias
    requires forall i :: 0 <= i < |s| ==> b <= s[i].dias
    ensures forall j :: 0 <= j < |Insert(x, s)| ==> b <= Insert(x, s)[j].dias
  {
    if s != [] && x.dias > s[0].dias {
      InsertBound(x, s[1..], b);
      assert Insert(x, s) == [s[0]] + Insert(x, s[1..]);
    }
  }

  /** Inserting into a sorted sequence keeps it sorted. */
  lemma {:induction false} InsertSorted(x: Dated, s: seq<Dated>)
    requires SortedByDias(s)
    ensures SortedByDias(Insert(x, s))
  {
    if s != [] && x.dias > s[0].dias {
      var t := Insert(x, s[1..]);
      InsertSorted(x, s[1..]);
      InsertBound(x, s[1..], s[0].dias);
      assert Insert(x, s) == [s[0]] + t;
    }
  }

  /** The sort returns the same records, ordered by days. */
  function SortByDias(s: seq<Dated>): (r: seq<Dated>)
    ensures |r| == |s|
    ensures SortedByDias(r)
    ensures multiset(r) == multiset(s)
  {
    if s == [] then []
    else
      assert s == [s[0]] + s[1..];
      var t := SortByDias(s[1..]);
      InsertSorted(s[0], t);
      Insert(s[0], t)
  }

  lemma {:induction false} InsertCount(x: Dated, s: seq<Dated>, d: int)
    ensures CountDias(Insert(x, s), d) == CountDias(s, d) + (if x.dias == d then 1 else 0)
  {
    if s != [] && x.dias > s[0].dias {
      InsertCount(x, s[1..], d);
      assert Insert(x, s)[1..] == Insert(x, s[1..]);
    } else if s != [] {
      assert Insert(x, s)[1..] == s;
    }
  }

  /** The sort keeps the number of records with each day count. */
  lemma {:induction false} SortKeepsCounts(s: seq<Dated>)
    ensures forall d :: CountDias(SortByDias(s), d) == CountDias(s, d)
  {
    if s != [] {
      var t := SortByDias(s[1..]);
      SortKeepsCounts(s[1..]);
      forall d ensures CountDias(SortByDias(s), d) == CountDias(s, d) {
        InsertCount(s[0], t, d);
      }
    }
  }

  /** The sort is stable: its first record is the first, in the original order,
      of those with the fewest days. */
  lemma {:induction false} SortHead(s: seq<Dated>)
    requires s != []
    ensures SortByDias(s)[0] == s[FirstWith(s, MinDias(s))]
  {
    if |s| > 1 {
      var t := s[1..];
      SortHead(t);
      var h := SortByDias(t)[0];
      assert forall i :: 1 <= i < |s| ==> s[i] == t[i - 1];
      if s[0].dias > h.dias {
        assert MinDias(s) == MinDias(t);
        assert FirstWith(s, MinDias(s)) == 1 + FirstWith(t, MinDias(t));
      }
    }
  }

  /** The first sorted record has the fewest days, is the first of those in
      the original order, and the sort keeps how many share its day count. */
  lemma SortedFirst(s: seq<Dated>)
    requires s != []
    ensures var h := SortByDias(s)[0];
      && h.dias == MinDias(s)
      && h == s[FirstWith(s, MinDias(s))]
      && CountDias(SortByDias(s), h.dias) == CountDias(s, MinDias(s))
  {
    SortHead(s);
    SortKeepsCounts(s);
  }

  // ---------------------------------------------------------------------------
  // The risk caption

  /** Which caption `riscoDesc` gets. */
  datatype RiskNotice =
    | Nearest(dias: int, produto: Option<string>)
    | Tied(dias: int, count: nat)
    | Undated(count: nat)
    | Critical(emRisco: int)
    | NoRisk

  /** The caption chosen from the fewest days among the dated ruptures: that
      rupture's product when it is the only one with that many days, their count
      otherwise; without dates, the number of ruptures; without ruptures, the
      risk counter when it is positive. */
  function NoticeFor(alertas: seq<Alerta>, produtosEmRisco: Option<int>): (n: RiskNotice)
    ensures (n.Nearest? || n.Tied?) <==> ComDias(Rupturas(alertas)) != []
    ensures n.Tied? ==> n.count > 1 && n.count == CountDias(ComDias(Rupturas(alertas)), n.dias)
    ensures n.Tied? ==> n.dias == MinDias(ComDias(Rupturas(alertas)))
    ensures n.Undated? ==> n.count == |Rupturas(alertas)| > 0
    ensures n.Critical? ==> Rupturas(alertas) == [] && n.emRisco > 0 && produtosEmRisco == Some(n.emRisco)
    ensures n.NoRisk? <==> Rupturas(alertas) == [] && produtosEmRisco.GetOr(0) <= 0
  {
    var rupturas := Rupturas(alertas);
    if rupturas != [] then
      var dated := ComDias(rupturas);
      if dated != [] then
        var d := MinDias(dated);
        var n := CountDias(dated, d);
        if n > 1 then Tied(d, n) else Nearest(d, dated[FirstWith(dated, d)].produto)
      else Undated(|rupturas|)
    else if produtosEmRisco.GetOr(0) > 0 then Critical(produtosEmRisco.value)
    else NoRisk
  }

  const NenhumaRuptura := "Nenhuma ruptura prevista"
  const RupturaPrevista := "Ruptura prevista em "

  /** The caption's wording; only NoRisk reads "Nenhuma ruptura prevista". */
  function RiskText(n: RiskNotice): (t: string)
    ensures t == NenhumaRuptura <==> n.NoRisk?
    ensures n.Nearest? || n.Tied? ==> RupturaPrevista <= t
  {
    assert NenhumaRuptura[0] == 'N' && RupturaPrevista[0] == 'R';
    match n
    case Nearest(d, p) => RupturaPrevista + IntToString(d) + " dia" + (if d > 1 then "s" else "") + " — " + ShowText(p)
    case Tied(d, c) => RupturaPrevista + IntToString(d) + " dias ( " + NatToString(c) + " produtos )"
    case Undated(c) => NatToString(c) + " produto(s) com risco de ruptura"
    case Critical(k) => IntToString(k) + " produto(s) com nível crítico de estoque"
    case NoRisk => NenhumaRuptura
  }

  /** The risk branch of atualizarDashboard: sort the dated ruptures, take the
      first and count those with as many days. */
  method DescribeRisk(alertas: seq<Alerta>, produtosEmRisco: Option<int>) returns (text: string)
    ensures text == RiskText(NoticeFor(alertas, produtosEmRisco))
  {
    var rupturas := Rupturas(alertas);
    if |rupturas| > 0 {
      var rupturasComDias := ComDias(rupturas);
      if |rupturasComDias| > 0 {
        var sorted := SortByDias(rupturasComDias);
        SortedFirst(rupturasComDias);
        var primeiro := sorted[0];
        var mesmoPrazo := CountDias(sorted, primeiro.dias);
        if mesmoPrazo > 1 {
          assert NoticeFor(alertas, produtosEmRisco) == Tied(primeiro.dias, mesmoPrazo);
          text := "Ruptura prevista em " + IntToString(primeiro.dias) + " dias ( " + NatToString(mesmoPrazo) + " produtos )";
        } else {
          assert NoticeFor(alertas, produtosEmRisco) == Nearest(primeiro.dias, primeiro.produto);
          text := "Ruptura prevista em " + IntToString(primeiro.dias) + " dia" + (if primeiro.dias > 1 then "s" else "")
                  + " — " + ShowText(primeiro.produto);
        }
      } else {
        text := NatToString(|rupturas|) + " produto(s) com risco de ruptura";
      }
    } else if produtosEmRisco.GetOr(0) > 0 {
      text := IntToString(produtosEmRisco.value) + " produto(s) com nível crítico de estoque";
    } else {
      text := "Nenhuma ruptura prevista";
    }
  }

  /** A single nearest rupture is named with the fewest days of all dated
      ruptures, and it is the first rupture alert with that many days. */
  lemma NearestIsFirstMinimum(alertas: seq<Alerta>, produtosEmRisco: Option<int>)
    requires NoticeFor(alertas, produtosEmRisco).Nearest?
    ensures var dated := ComDias(Rupturas(alertas));
      var n := NoticeFor(alertas, produtosEmRisco);
      && dated != []
      && (forall i :: 0 <= i < |dated| ==> n.dias <= dated[i].dias)
      && CountDias(dated, n.dias) == 1
      && exists i :: 0 <= i < |dated| && dated[i] == Dated(n.produto, n.dias)
  {
    var dated := ComDias(Rupturas(alertas));
    var d := MinDias(dated);
    var k := FirstWith(dated, d);
    assert NoticeFor(alertas, produtosEmRisco) == Nearest(d, dated[k].produto);
    CountPositive(dated, d);
    assert dated[k] == Dated(dated[k].produto, d);
  }

  /** The product a single nearest rupture names is that of a rupture alert
      with that many days, and no rupture alert with a day count has fewer. */
  lemma NearestNamesAlert(alertas: seq<Alerta>, produtosEmRisco: Option<int>)
    requires NoticeFor(alertas, produtosEmRisco).Nearest?
    ensures var n := NoticeFor(alertas, produtosEmRisco);
      && (exists i :: 0 <= i < |alertas| && IsRuptura(alertas[i])
            && alertas[i].produto == n.produto && alertas[i].diasRestantes == Some(n.dias))
      && (forall i :: 0 <= i < |alertas| && IsRuptura(alertas[i]) && alertas[i].diasRestantes.Some?
            ==> n.dias <= alertas[i].diasRestantes.value)
  {
    NearestIsFirstMinimum(alertas, produtosEmRisco);
    var n := NoticeFor(alertas, produtosEmRisco);
    var rup := Rupturas(alertas);
    var rpos := RupturaPositions(alertas);
    var dated := ComDias(rup);
    var dpos := DiasPositions(rup);
    var k :| 0 <= k < |dated| && dated[k] == Dated(n.produto, n.dias);
    var i := rpos[dpos[k]];
    assert IsRuptura(alertas[i]) && alertas[i].produto == n.produto && alertas[i].diasRestantes == Some(n.dias);
    forall j | 0 <= j < |alertas| && IsRuptura(alertas[j]) && alertas[j].diasRestantes.Some?
      ensures n.dias <= alertas[j].diasRestantes.value
    {
      assert j in rpos;
      var p :| 0 <= p < |rpos| && rpos[p] == j;
      assert rup[p].dias.Some?;
      assert p in dpos;
      var q :| 0 <= q < |dpos| && dpos[q] == p;
      assert dated[q].dias == alertas[j].diasRestantes.value;
    }
  }

  lemma {:induction false} CountPositive(s: seq<Dated>, d: int)
    requires exists i :: 0 <= i < |s| && s[i].dias == d
    ensures CountDias(s, d) >= 1
  {
    if s[0].dias != d {
      var i :| 0 <= i < |s| && s[i].dias == d;
      assert s[1..][i - 1] == s[i];
      CountPositive(s[1..], d);
    }
  }

  /** The caption says "dia" for at most one day and "dias" otherwise. */
  lemma NearestWording(d: int, p: Option<string>)
    ensures var t := RiskText(Nearest(d, p));
      var prefix := "Ruptura prevista em " + IntToString(d) + " dia";
      && prefix <= t
      && (t[|prefix|] == 's' <==> d > 1)
  {
    var prefix := "Ruptura prevista em " + IntToString(d) + " dia";
    var t := RiskText(Nearest(d, p));
    var rest := (if d > 1 then "s" else "") + " — " + ShowText(p);
    assert t == prefix + rest;
    assert t[|prefix|] == rest[0];
  }

  /** Without rupture alerts the caption depends on the risk counter alone. */
  lemma NoRupturesFallback(alertas: seq<Alerta>, produtosEmRisco: Option<int>)
    requires forall i :: 0 <= i < |alertas| ==> !IsRuptura(alertas[i])
    ensures NoticeFor(alertas, produtosEmRisco)
            == if produtosEmRisco.Some? && produtosEmRisco.value > 0 then Critical(produtosEmRisco.value) else NoRisk
  {
  }

  // ---------------------------------------------------------------------------
  // The other captions and the donut

  function ExcessoText(excessoEstoque: Option<int>): (t: string)
    ensures excessoEstoque.GetOr(0) <= 0 <==> t == "Sem excesso relevante"
  {
    if excessoEstoque.GetOr(0) > 0 then
      var t := IntToString(excessoEstoque.value) + " produto(s) possivelmente parados";
      assert t[0] != "Sem excesso relevante"[0];
      t
    else "Sem excesso relevante"
  }

  /** `data.sugestoes_compra && data.sugestoes_compra > 0`: zero and absence are
      both false. */
  function SugestoesText(sugestoesCompra: Option<int>): (t: string)
    ensures (sugestoesCompra.Some? && sugestoesCompra.value > 0) <==> t != "Nenhuma reposição sugerida"
  {
    if sugestoesCompra.Some? && sugestoesCompra.value != 0 && sugestoesCompra.value > 0 then
      var t := NatToString(sugestoesCompra.value) + " reposição(ões) recomendadas";
      assert t[0] != "Nenhuma reposição sugerida"[0];
      t
    else "Nenhuma reposição sugerida"
  }

  /** `Math.max(0, 100 - risco - excesso)` on the raw counters; an absent one
      makes the slice NaN (None). */
  function Adequado(risco: Option<int>, excesso: Option<int>): (r: Option<int>)
    ensures r.Some? <==> risco.Some? && excesso.Some?
    ensures r.Some? ==> r.value >= 0 && r.value >= 100 - risco.value - excesso.value
    ensures r.Some? && risco.value + excesso.value <= 100 ==> risco.value + excesso.value + r.value == 100
    ensures r.Some? && risco.value + excesso.value >= 100 ==> r.value == 0
  {
    if risco.Some? && excesso.Some? then
      var rest := 100 - risco.value - excesso.value;
      Some(if 0 >= rest then 0 else rest)
    else None
  }

  /** The markup of one entry of `#alertsList`. */
  function AlertHtml(a: Alerta): string {
    "<b>" + ShowText(a.tipo) + ":</b> " + ShowText(a.produto) + " — Estoque atual: " + ShowInt(a.estoqueAtual)
  }

  // ---------------------------------------------------------------------------
  // Upload form checks

  /** A selected file: its name and its MIME type. */
  datatype FileInfo = FileInfo(name: string, mime: string)

  const Extensoes: seq<string> := [".csv", ".xls", ".xlsx"]
  const TiposPermitidos: seq<string> :=
    ["text/csv", "application/vnd.ms-excel", "application/vnd.openxmlformats-officedocument.spreadsheetml.sheet"]

  /** validarArquivo: accepted when the lower-cased name has an allowed
      extension or the MIME type is an allowed one. */
  function ValidarArquivo(f: FileInfo): (ok: bool)
    ensures ok <==> (exists ext :: ext in Extensoes && EndsWith(Lower(f.name), ext)) || f.mime in TiposPermitidos
  {
    var nome := Lower(f.name);
    var extensaoOk := EndsWith(nome, ".csv") || EndsWith(nome, ".xls") || EndsWith(nome, ".xlsx");
    var tipoOk := f.mime in TiposPermitidos;
    assert extensaoOk <==> exists ext :: ext in Extensoes && EndsWith(nome, ext) by {
      if exists ext :: ext in Extensoes && EndsWith(nome, ext) {
        var ext :| ext in Extensoes && EndsWith(nome, ext);
        assert ext == ".csv" || ext == ".xls" || ext == ".xlsx";
      }
    }
    extensaoOk || tipoOk
  }

  const MsgSelecione := "⚠️ Por favor, selecione os dois arquivos (vendas e estoque)."

  function MsgInvalido(nomeCampo: string): string {
    "❌ O arquivo de " + nomeCampo + " deve ser CSV ou Excel (.xls, .xlsx)."
  }

  /** The checks before sending: the alert shown, or None to send. Both files
      must be chosen; then the sales file is checked, then the stock file. */
  function CheckFiles(vendas: Option<FileInfo>, estoque: Option<FileInfo>): (r: Option<string>)
    ensures r.None? <==> vendas.Some? && estoque.Some? && ValidarArquivo(vendas.value) && ValidarArquivo(estoque.value)
    ensures vendas.None? || estoque.None? ==> r == Some(MsgSelecione)
  {
    if vendas.None? || estoque.None? then Some(MsgSelecione)
    else if !ValidarArquivo(vendas.value) then Some(MsgInvalido("VENDAS"))
    else if !ValidarArquivo(estoque.value) then Some(MsgInvalido("ESTOQUE"))
    else None
  }

  /** When both files are invalid only the sales file is reported. */
  lemma SalesCheckedFirst(vendas: FileInfo, estoque: FileInfo)
    requires !ValidarArquivo(vendas)
    ensures CheckFiles(Some(vendas), Some(estoque)) == Some(MsgInvalido("VENDAS"))
  {
  }

  // ---------------------------------------------------------------------------
  // The page

  /** How the request to /processar ended: an HTTP answer (its `ok` flag, its
      status text and its JSON body), or a thrown error with its message. */
  datatype Reply = Answer(ok: bool, statusText: string, data: DashboardData) | Failure(message: string)

  const SubmitText := "Enviar e Processar"
  const BusyText := "Processando..."

  /** `data.erro || res.statusText` */
  function ErrorDetail(reply: Reply): string
    requires reply.Answer?
  {
    if HasErro(reply.data) then reply.data.erro.value else reply.statusText
  }

  /** What atualizarDashboard writes besides the alert list: the three card
      counters, the three captions and the donut slices. */
  datatype Panel = Panel(
    produtosRisco: string,
    excessoEstoque: string,
    sugestoesCompra: string,
    riscoDesc: string,
    excessoDesc: string,
    sugestoesDesc: string,
    donut: seq<Option<int>>)

  /** The panel for an answer: counters shown as 0 when absent, the captions
      as RiskText, ExcessoText and SugestoesText give them, and the donut's
      risk, excess and adequate slices. */
  function PanelFor(data: DashboardData): (p: Panel)
    ensures p.riscoDesc == NenhumaRuptura
            <==> (forall i :: 0 <= i < |AlertList(data)| ==> !IsRuptura(AlertList(data)[i]))
                 && data.produtosEmRisco.GetOr(0) <= 0
    ensures p.excessoDesc == "Sem excesso relevante" <==> data.excessoEstoque.GetOr(0) <= 0
    ensures p.sugestoesDesc != "Nenhuma reposição sugerida"
            <==> data.sugestoesCompra.Some? && data.sugestoesCompra.value > 0
    ensures |p.donut| == 3 && p.donut[0] == data.produtosEmRisco && p.donut[1] == data.excessoEstoque
    ensures p.donut[2].Some? <==> data.produtosEmRisco.Some? && data.excessoEstoque.Some?
  {
    RupturasEmpty(AlertList(data));
    Panel(
      IntToString(data.produtosEmRisco.GetOr(0)),
      IntToString(data.excessoEstoque.GetOr(0)),
      IntToString(data.sugestoesCompra.GetOr(0)),
      RiskText(NoticeFor(AlertList(data), data.produtosEmRisco)),
      ExcessoText(data.excessoEstoque),
      SugestoesText(data.sugestoesCompra),
      [data.produtosEmRisco, data.excessoEstoque, Adequado(data.produtosEmRisco, data.excessoEstoque)])
  }

  /** The panel part of atualizarDashboard, with the risk caption computed by
      sorting. */
  method RenderPanel(data: DashboardData) returns (panel: Panel)
    ensures panel == PanelFor(data)
  {
    var risco := DescribeRisk(AlertList(data), data.produtosEmRisco);
    panel := Panel(
      IntToString(data.produtosEmRisco.GetOr(0)),
      IntToString(data.excessoEstoque.GetOr(0)),
      IntToString(data.sugestoesCompra.GetOr(0)),
      risco,
      ExcessoText(data.excessoEstoque),
      SugestoesText(data.sugestoesCompra),
      [data.produtosEmRisco, data.excessoEstoque, Adequado(data.produtosEmRisco, data.excessoEstoque)]);
  }

  const MsgDemoFalhou := "Erro ao carregar dados demo"

  /** `data.erro` is truthy: present and not empty. */
  predicate HasErro(data: DashboardData) {
    data.erro.Some? && data.erro.value != ""
  }

  /** The elements of the dashboard that the script writes. */
  class Dashboard {
    var produtosRisco: string
    var excessoEstoque: string
    var sugestoesCompra: string
    var riscoDesc: string
    var excessoDesc: string
    var sugestoesDesc: string
    var donut: seq<Option<int>>
    var alertsList: seq<string>

    /** atualizarAlertas: empty the container, then append one entry per alert. */
    method AtualizarAlertas(alertas: seq<Alerta>)
      modifies this`alertsList
      ensures |alertsList| == |alertas|
      ensures forall i :: 0 <= i < |alertas| ==> alertsList[i] == AlertHtml(alertas[i])
    {
      alertsList := [];
      for i := 0 to |alertas|
        invariant |alertsList| == i
        invariant forall j :: 0 <= j < i ==> alertsList[j] == AlertHtml(alertas[j])
      {
        alertsList := alertsList + [AlertHtml(alertas[i])];
      }
    }

    /** The counters, captions and donut on screen. */
    function Shown(): Panel
      reads this
    {
      Panel(produtosRisco, excessoEstoque, sugestoesCompra, riscoDesc, excessoDesc, sugestoesDesc, donut)
    }

    /** Writes the counters, captions and donut slices, leaving the alert list. */
    method WritePanel(panel: Panel)
      modifies this`produtosRisco, this`excessoEstoque, this`sugestoesCompra
      modifies this`riscoDesc, this`excessoDesc, this`sugestoesDesc, this`donut
      ensures Shown() == panel
    {
      produtosRisco, excessoEstoque, sugestoesCompra := panel.produtosRisco, panel.excessoEstoque, panel.sugestoesCompra;
      riscoDesc, excessoDesc, sugestoesDesc := panel.riscoDesc, panel.excessoDesc, panel.sugestoesDesc;
      donut := panel.donut;
    }

    /** The dashboard shows `data`: the panel of PanelFor and one entry per
        alert of the array, in order. */
    ghost predicate Shows(data: DashboardData)
      reads this
    {
      && Shown() == PanelFor(data)
      && |alertsList| == |AlertList(data)|
      && forall i :: 0 <= i < |alertsList| ==> alertsList[i] == AlertHtml(AlertList(data)[i])
    }

    /** atualizarDashboard: the three counters (0 when absent), the three
        captions, the donut slices and the alert list. */
    method AtualizarDashboard(data: DashboardData)
      modifies this
      ensures Shows(data)
    {
      var panel := RenderPanel(data);
      WritePanel(panel);
      AtualizarAlertas(AlertList(data));
    }

    /** The "Usar dados demo" handler once the request to /mock has ended:
        `reply` is its JSON body, or None when the request or the JSON parsing
        threw. A throw and a truthy `erro` field are shown as alerts and leave
        the dashboard as it was; any other body fills the dashboard. */
    method OnMockData(reply: Option<DashboardData>) returns (shown: Option<string>)
      modifies this
      ensures reply.None? ==> shown == Some(MsgDemoFalhou) && unchanged(this)
      ensures reply.Some? && HasErro(reply.value) ==> shown == reply.value.erro && unchanged(this)
      ensures reply.Some? && !HasErro(reply.value) ==> shown.None? && Shows(reply.value)
    {
      match reply {
        case None =>
          shown := Some(MsgDemoFalhou);
        case Some(data) =>
          if HasErro(data) {
            shown := data.erro;
          } else {
            shown := None;
            AtualizarDashboard(data);
          }
      }
    }
  }

  /** The import modal: whether it is shown, the two file inputs and the submit
      button. */
  class ImportModal {
    var modalOpen: bool
    var vendasFile: Option<FileInfo>
    var estoqueFile: Option<FileInfo>
    var buttonText: string
    var buttonDisabled: bool

    /** The "Importar dados" button opens the modal. */
    method OpenModal()
      modifies this`modalOpen
      ensures modalOpen
    {
      modalOpen := true;
    }

    /** "Cancelar", or a click on the backdrop: close the modal and reset the form. */
    method CloseModal()
      modifies this`modalOpen, this`vendasFile, this`estoqueFile
      ensures !modalOpen && vendasFile.None? && estoqueFile.None?
    {
      modalOpen := false;
      vendasFile := None;
      estoqueFile := None;
    }

    /** The start of the submit handler: the alert that stops it, or None when
        the request is sent, with the button showing "Processando..." and
        disabled. */
    method Submit() returns (stop: Option<string>)
      modifies this`buttonText, this`buttonDisabled
      ensures stop == CheckFiles(vendasFile, estoqueFile)
      ensures stop.Some? ==> buttonText == old(buttonText) && buttonDisabled == old(buttonDisabled)
      ensures stop.None? ==> buttonText == BusyText && buttonDisabled
    {
      stop := CheckFiles(vendasFile, estoqueFile);
      if stop.None? {
        buttonText := BusyText;
        buttonDisabled := true;
      }
    }

    /** The rest of the submit handler, once the request has ended: the alert
        shown, if any. The button is reset in every case; only a successful
        answer closes the modal, fills the dashboard and resets the form. */
    method Receive(reply: Reply, dashboard: Dashboard) returns (shown: Option<string>)
      modifies this, dashboard
      ensures buttonText == SubmitText && !buttonDisabled
      ensures reply.Failure? ==> shown == Some("❌ Erro ao enviar arquivos: " + reply.message)
      ensures reply.Answer? && !reply.ok ==> shown == Some("⚠️ Erro no processamento: " + ErrorDetail(reply))
      ensures reply.Answer? && reply.ok ==> shown.None? && !modalOpen && vendasFile.None? && estoqueFile.None?
      ensures reply.Answer? && reply.ok ==> dashboard.Shows(reply.data)
      ensures !(reply.Answer? && reply.ok) ==>
                modalOpen == old(modalOpen) && vendasFile == old(vendasFile) && estoqueFile == old(estoqueFile)
                && unchanged(dashboard)
    {
      match reply {
        case Failure(message) =>
          shown := Some("❌ Erro ao enviar arquivos: " + message);
        case Answer(ok, _, data) =>
          if !ok {
            shown := Some("⚠️ Erro no processamento: " + ErrorDetail(reply));
          } else {
            shown := None;
            modalOpen := false;
            dashboard.AtualizarDashboard(data);
            vendasFile := None;
            estoqueFile := None;
          }
      }
      buttonText := SubmitText;
      buttonDisabled := false;
    }
  }
}
