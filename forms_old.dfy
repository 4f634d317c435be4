/**
 * The legacy `Forms_Base` of ConstrutorDeForms_Old.js: its `validacao`
 * (which returns before its row and column checks), the legacy `FormModal`
 * constructor, the layout classifiers `validarPos_old` and `_validarPos`,
 * and the row-then-column placement `posicionarDivs`.
 */
module FormsOld {
  import opened JsCommon
  import Forms

  // ---------------------------------------------------------------------
  // validacao and the legacy constructors
  // ---------------------------------------------------------------------

  /**
   * `Forms_Base.validacao` as written: the length, format, position and
   * alignment checks, identical to the current ones and in the same
   * order, then `return true`; the row and column checks after the
   * `return` never run.
   */
  function Validacao(cfg: Forms.ConfigForm): (r: Result<bool, Forms.ErroForm>)
    ensures r.Success? <==> Forms.ChecagemBasica(cfg)
    ensures r.Success? ==> r.value
    ensures r.Failure? ==> r == Forms.Validacao(cfg)
    ensures r.Failure? ==> !r.error.LinhasNaoSequenciais? && !r.error.ColunasNaoSequenciais?
  {
    var v := Forms.Validacao(cfg);
    if v.Failure? && !v.error.LinhasNaoSequenciais? && !v.error.ColunasNaoSequenciais? then v
    else Success(true)
  }

  /** Every configuration the current `validacao` accepts, the legacy one accepts too. */
  lemma ValidacaoLegadaAceitaMais(cfg: Forms.ConfigForm)
    ensures Forms.Validacao(cfg).Success? ==> Validacao(cfg).Success?
    ensures Validacao(cfg).Success? && Forms.Validacao(cfg).Failure? <==>
              Forms.ChecagemBasica(cfg) && !Forms.FormularioValido(cfg)
  {
  }

  /**
   * A layout whose rows are not sequential from 0 passes the legacy check,
   * while the current one reports the rows it found.
   */
  lemma LinhasForaDeSequenciaAceitas(cfg: Forms.ConfigForm)
    requires Forms.ChecagemBasica(cfg) && !Forms.LinhasSequenciais(Forms.Coordenadas(cfg.pos))
    ensures Validacao(cfg) == Success(true)
    ensures Forms.Validacao(cfg) == Failure(Forms.LinhasNaoSequenciais(Forms.LinhasUnicas(Forms.Coordenadas(cfg.pos))))
  {
  }

  /** Such a layout exists: a single field placed at row 1. */
  lemma LinhaUmForaDeSequencia()
    ensures !Forms.LinhasSequenciais([Forms.Posicao(1, 0)])
  {
    var ps := [Forms.Posicao(1, 0)];
    assert Forms.Linhas(ps) == [1];
    assert MaxInt(Forms.Linhas(ps)) == 1;
    assert 0 !in Forms.Linhas(ps);
  }

  /**
   * The legacy `FormModal` constructor: it hands seven lists to the base
   * constructor, so `largCampos` takes its default `[]` and the length
   * check fails as soon as there is a field.
   */
  function CriarFormModal(tipo: seq<string>, rotulo: seq<string>, nomeCampo: seq<string>,
                          format: seq<Option<string>>, pos: seq<Forms.EntradaPos>,
                          alinhamento: seq<string>): (r: Result<Forms.ConfigForm, Forms.ErroForm>)
    ensures tipo != [] ==> r == Failure(Forms.ListasDesiguais)
    ensures r.Success? ==> r.value.tipo == [] && r.value.largCampos == []
    ensures r.Success? <==> tipo == [] && rotulo == [] && nomeCampo == [] && format == []
                            && pos == [] && alinhamento == []
  {
    var cfg := Forms.ConfigForm(tipo, rotulo, nomeCampo, format, pos, alinhamento, []);
    match Validacao(cfg)
    case Success(_) => Success(cfg)
    case Failure(e) => Failure(e)
  }

  // ---------------------------------------------------------------------
  // Distinct sorted values and `every((v, i) => v === i)`
  // ---------------------------------------------------------------------

  /** The JS numbers the classifiers report: an integer, or -Infinity. */
  datatype NumeroJs = MenosInfinito | Finito(v: int)

  /** `Math.max(...s)`: -Infinity when `s` is empty. */
  function MaximoDe(s: seq<int>): (m: NumeroJs)
    ensures m.MenosInfinito? <==> s == []
    ensures m.Finito? ==> m.v in s && forall i :: 0 <= i < |s| ==> s[i] <= m.v
  {
    if s == [] then MenosInfinito else Finito(MaxInt(s))
  }

  /** `m + 1`, where -Infinity + 1 is -Infinity. */
  function MaisUm(m: NumeroJs): NumeroJs {
    match m
    case MenosInfinito => MenosInfinito
    case Finito(v) => Finito(v + 1)
  }

  /** `[...new Set(s)].sort((a, b) => a - b)`. */
  function Unicos(s: seq<int>): (r: seq<int>)
    ensures StrictlyIncreasing(r)
    ensures forall x :: x in r <==> x in s
  {
    SortInts(Distinct(s))
  }

  /** `u.every((v, i) => v === i)`. */
  predicate EhIdentidade(u: seq<int>) {
    forall i :: 0 <= i < |u| ==> u[i] == i
  }

  /** What the test means: no value is negative, and every value from 0 to the largest occurs. */
  predicate Sequencial(s: seq<int>) {
    (forall i :: 0 <= i < |s| ==> 0 <= s[i])
    && (s != [] ==> forall k :: 0 <= k <= MaxInt(s) ==> k in s)
  }

  /** The sorted distinct values are `0, 1, 2, ...` exactly when the values are sequential from 0. */
  lemma IdentidadeSse(s: seq<int>)
    ensures EhIdentidade(Unicos(s)) <==> Sequencial(s)
  {
    var u := Unicos(s);
    if EhIdentidade(u) {
      forall i | 0 <= i < |s|
        ensures 0 <= s[i]
      {
        assert s[i] in u;
      }
      if s != [] {
        var m := MaxInt(s);
        assert m in u;
        forall k | 0 <= k <= m
          ensures k in s
        {
          var j :| 0 <= j < |u| && u[j] == m;
          assert u[k] == k;
        }
      }
    }
    if Sequencial(s) && s != [] {
      var m := MaxInt(s);
      forall j | 0 <= j < |u|
        ensures 0 <= u[j] <= m
      {
        assert u[j] in s;
      }
      forall i | 0 <= i < |u|
        ensures u[i] == i
      {
        Forms.CrescenteCobertaEhIdentidade(u, m, i);
      }
    }
  }

  /** All values equal and there is at least one. */
  predicate TodosIguais(s: seq<int>) {
    s != [] && forall i :: 0 <= i < |s| ==> s[i] == s[0]
  }

  /** There is exactly one distinct value exactly when all values are equal and there is one. */
  lemma UmUnicoSse(s: seq<int>)
    ensures |Unicos(s)| == 1 <==> TodosIguais(s)
  {
    var u := Unicos(s);
    if |u| == 1 {
      assert u[0] in s;
      forall i | 0 <= i < |s|
        ensures s[i] == s[0]
      {
        assert s[i] in u && s[0] in u;
      }
    }
    if TodosIguais(s) {
      assert s[0] in u;
    }
  }

  /** `pos.map(p => p.coluna)`. */
  function Colunas(ps: seq<Forms.Posicao>): (r: seq<int>)
    ensures |r| == |ps| && forall i :: 0 <= i < |ps| ==> r[i] == ps[i].coluna
  {
    seq(|ps|, i requires 0 <= i < |ps| => ps[i].coluna)
  }

  /** Every field is in the same column. */
  predicate MesmaColuna(ps: seq<Forms.Posicao>) {
    ps != [] && forall i :: 0 <= i < |ps| ==> ps[i].coluna == ps[0].coluna
  }

  /** Every field is in the same row. */
  predicate MesmaLinha(ps: seq<Forms.Posicao>) {
    ps != [] && forall i :: 0 <= i < |ps| ==> ps[i].linha == ps[0].linha
  }

  lemma UmaColunaSse(ps: seq<Forms.Posicao>)
    ensures |Unicos(Colunas(ps))| == 1 <==> MesmaColuna(ps)
  {
    UmUnicoSse(Colunas(ps));
  }

  lemma UmaLinhaSse(ps: seq<Forms.Posicao>)
    ensures |Forms.LinhasUnicas(ps)| == 1 <==> MesmaLinha(ps)
  {
    assert Forms.LinhasUnicas(ps) == Unicos(Forms.Linhas(ps));
    UmUnicoSse(Forms.Linhas(ps));
  }

  /** The `every` test on the distinct rows is the row-sequentiality of the current form. */
  lemma LinhasIdentidadeSse(ps: seq<Forms.Posicao>)
    ensures EhIdentidade(Forms.LinhasUnicas(ps)) <==> Forms.LinhasSequenciais(ps)
  {
    assert Forms.LinhasUnicas(ps) == Unicos(Forms.Linhas(ps));
    IdentidadeSse(Forms.Linhas(ps));
    SequencialDasLinhas(ps);
  }

  lemma SequencialDasLinhas(ps: seq<Forms.Posicao>)
    ensures Sequencial(Forms.Linhas(ps)) <==> Forms.LinhasSequenciais(ps)
  {
    var xs := Forms.Linhas(ps);
    assert (forall i :: 0 <= i < |xs| ==> 0 <= xs[i]) <==> (forall i :: 0 <= i < |ps| ==> 0 <= ps[i].linha);
    assert xs != [] <==> ps != [];
  }

  // ---------------------------------------------------------------------
  // The missing positions of the flexible grid
  // ---------------------------------------------------------------------

  /** `a` comes before `b` in row, then column order. */
  predicate Lex(a: Forms.Posicao, b: Forms.Posicao) {
    a.linha < b.linha || (a.linha == b.linha && a.coluna < b.coluna)
  }

  predicate OrdemLex(s: seq<Forms.Posicao>) {
    forall i, j :: 0 <= i < j < |s| ==> Lex(s[i], s[j])
  }

  /** The inner loop `for (c = from; c <= max; c++) if (!colunasLinha.includes(c)) faltantes.push(...)`. */
  function FaltantesNaLinha(ps: seq<Forms.Posicao>, l: int, from: int, max: int): seq<Forms.Posicao>
    decreases max - from
  {
    if from > max then []
    else (if Forms.Posicao(l, from) in ps then [] else [Forms.Posicao(l, from)])
         + FaltantesNaLinha(ps, l, from + 1, max)
  }

  lemma {:induction false} FaltantesNaLinhaSse(ps: seq<Forms.Posicao>, l: int, from: int, max: int)
    ensures forall p :: p in FaltantesNaLinha(ps, l, from, max) <==>
              p.linha == l && from <= p.coluna <= max && p !in ps
    ensures OrdemLex(FaltantesNaLinha(ps, l, from, max))
    decreases max - from
  {
    if from <= max {
      FaltantesNaLinhaSse(ps, l, from + 1, max);
      var cab := if Forms.Posicao(l, from) in ps then [] else [Forms.Posicao(l, from)];
      var resto := FaltantesNaLinha(ps, l, from + 1, max);
      assert FaltantesNaLinha(ps, l, from, max) == cab + resto;
      OrdemLexConcat(cab, resto);
    }
  }

  lemma OrdemLexConcat(a: seq<Forms.Posicao>, b: seq<Forms.Posicao>)
    requires OrdemLex(a) && OrdemLex(b)
    requires forall x, y :: x in a && y in b ==> Lex(x, y)
    ensures OrdemLex(a + b)
  {
    var u := a + b;
    forall i, j | 0 <= i < j < |u|
      ensures Lex(u[i], u[j])
    {
      if j < |a| {
        assert u[i] == a[i] && u[j] == a[j];
      } else if i >= |a| {
        assert u[i] == b[i - |a|] && u[j] == b[j - |a|];
      } else {
        assert u[i] in a && u[j] in b;
      }
    }
  }

  /** The outer loop over the distinct rows `us`, each checked up to its own largest column. */
  function Faltantes(ps: seq<Forms.Posicao>, us: seq<int>): seq<Forms.Posicao> {
    if us == [] then []
    else FaltantesNaLinha(ps, us[0], 0, Forms.MaxColuna(ps, us[0])) + Faltantes(ps, us[1..])
  }

  /** A position is listed exactly when it is absent from a listed row, at or below that row's largest column. */
  lemma {:induction false} FaltantesSse(ps: seq<Forms.Posicao>, us: seq<int>)
    ensures forall p :: p in Faltantes(ps, us) <==>
              p.linha in us && 0 <= p.coluna <= Forms.MaxColuna(ps, p.linha) && p !in ps
  {
    if us != [] {
      FaltantesSse(ps, us[1..]);
      FaltantesNaLinhaSse(ps, us[0], 0, Forms.MaxColuna(ps, us[0]));
      assert forall l :: l in us <==> l == us[0] || l in us[1..];
    }
  }

  /** Over ascending rows the missing positions come out in row, then column order. */
  lemma {:induction false} FaltantesEmOrdem(ps: seq<Forms.Posicao>, us: seq<int>)
    requires StrictlyIncreasing(us)
    ensures OrdemLex(Faltantes(ps, us))
  {
    if us != [] {
      var cab := FaltantesNaLinha(ps, us[0], 0, Forms.MaxColuna(ps, us[0]));
      var resto := Faltantes(ps, us[1..]);
      FaltantesEmOrdem(ps, us[1..]);
      FaltantesNaLinhaSse(ps, us[0], 0, Forms.MaxColuna(ps, us[0]));
      FaltantesSse(ps, us[1..]);
      forall x, y | x in cab && y in resto
        ensures Lex(x, y)
      {
        var k :| 0 <= k < |us[1..]| && us[1..][k] == y.linha;
        assert us[0] < us[k + 1];
      }
      OrdemLexConcat(cab, resto);
    }
  }

  /** No position is missing exactly when the columns of every row are sequential from 0. */
  lemma SemFaltantesSse(ps: seq<Forms.Posicao>)
    ensures Faltantes(ps, Forms.LinhasUnicas(ps)) == [] <==> Forms.ColunasSequenciais(ps)
  {
    if Faltantes(ps, Forms.LinhasUnicas(ps)) == [] {
      SemFaltantesSaoSequenciais(ps);
    } else {
      FaltanteQuebraSequencia(ps);
    }
  }

  lemma SemFaltantesSaoSequenciais(ps: seq<Forms.Posicao>)
    requires Faltantes(ps, Forms.LinhasUnicas(ps)) == []
    ensures Forms.ColunasSequenciais(ps)
  {
    var u := Forms.LinhasUnicas(ps);
    FaltantesSse(ps, u);
    forall i, c | 0 <= i < |ps| && 0 <= c <= Forms.MaxColuna(ps, ps[i].linha)
      ensures Forms.Posicao(ps[i].linha, c) in ps
    {
      assert Forms.Linhas(ps)[i] in u;
      assert Forms.Posicao(ps[i].linha, c) !in Faltantes(ps, u);
    }
  }

  lemma FaltanteQuebraSequencia(ps: seq<Forms.Posicao>)
    requires Faltantes(ps, Forms.LinhasUnicas(ps)) != []
    ensures !Forms.ColunasSequenciais(ps)
  {
    var u := Forms.LinhasUnicas(ps);
    FaltantesSse(ps, u);
    var p := Faltantes(ps, u)[0];
    assert p in Faltantes(ps, u);
    assert p.linha in Forms.Linhas(ps);
    var i :| 0 <= i < |ps| && Forms.Linhas(ps)[i] == p.linha;
    assert 0 <= p.coluna <= Forms.MaxColuna(ps, ps[i].linha);
    assert Forms.Posicao(ps[i].linha, p.coluna) !in ps;
  }

  // ---------------------------------------------------------------------
  // validarPos_old and _validarPos
  // ---------------------------------------------------------------------

  /** The object the classifiers return, one constructor per `tipo`. */
  datatype Layout =
    | Coluna(linhas: NumeroJs, colunas: NumeroJs, maxLinha: NumeroJs, maxColuna: NumeroJs)
    | Linha(linhas: NumeroJs, colunas: NumeroJs, maxLinha: NumeroJs, maxColuna: NumeroJs)
    | GridFlex(linhas: NumeroJs, colunas: NumeroJs, maxLinha: NumeroJs, maxColuna: NumeroJs)
    | GridUmaColuna(linhas: NumeroJs, maxLinha: NumeroJs)
    | Erro(motivo: Motivo, linhasEncontradas: Option<seq<int>>, faltantes: seq<Forms.Posicao>)

  /** The `motivo` strings: 'linhas não sequenciais', 'colunas não sequenciais', 'grid flexível inconsistente'. */
  datatype Motivo = MotivoLinhas | MotivoColunas | MotivoGrid

  /**
   * The decision of `validarPos_old` once it has computed the distinct
   * rows `lu`, the distinct columns `cu` and the maxima: a single
   * distinct column is checked first, then a single distinct row, then the
   * flexible grid (rows `0..maxLinha`, then the missing positions `f`).
   */
  function Classificar(lu: seq<int>, cu: seq<int>, ml: NumeroJs, mc: NumeroJs,
                       linhasOk: bool, f: seq<Forms.Posicao>): Layout
  {
    if |cu| == 1 then
      if EhIdentidade(lu) then Coluna(Finito(|lu|), Finito(1), ml, mc)
      else Erro(MotivoLinhas, None, [])
    else if |lu| == 1 then
      if EhIdentidade(cu) then Linha(Finito(1), Finito(|cu|), ml, mc)
      else Erro(MotivoColunas, None, [])
    else if !linhasOk then Erro(MotivoLinhas, Some(lu), [])
    else if f != [] then Erro(MotivoGrid, None, f)
    else GridFlex(MaisUm(ml), MaisUm(mc), ml, mc)
  }

  /**
   * `validarPos_old`: throws (None) when the form has no `#mainConteudo`;
   * otherwise it classifies the layout from the distinct rows and
   * columns, their maxima, the row test and the missing positions.
   */
  function ValidarPosOld(temMain: bool, ps: seq<Forms.Posicao>): (r: Option<Layout>)
    ensures r.None? <==> !temMain
  {
    if !temMain then None
    else
      Some(Classificar(Forms.LinhasUnicas(ps), Unicos(Colunas(ps)),
                       MaximoDe(Forms.Linhas(ps)), MaximoDe(Colunas(ps)),
                       Forms.LinhasOk(ps), Faltantes(ps, Forms.LinhasUnicas(ps))))
  }

  /** The branches of `Classificar`, each in terms of the tests that lead to it. */
  lemma Ramos(lu: seq<int>, cu: seq<int>, ml: NumeroJs, mc: NumeroJs, linhasOk: bool, f: seq<Forms.Posicao>)
    ensures var r := Classificar(lu, cu, ml, mc, linhasOk, f);
            (r.Coluna? <==> |cu| == 1 && EhIdentidade(lu))
            && (|cu| == 1 ==> r.Coluna? || r.Erro?)
            && (r.Coluna? ==> r == Coluna(Finito(|lu|), Finito(1), ml, mc))
            && (r.Linha? <==> |cu| != 1 && |lu| == 1 && EhIdentidade(cu))
            && (r.Linha? ==> r == Linha(Finito(1), Finito(|cu|), ml, mc))
            && (r.GridFlex? <==> |cu| != 1 && |lu| != 1 && linhasOk && f == [])
            && (r.GridFlex? ==> r == GridFlex(MaisUm(ml), MaisUm(mc), ml, mc))
            && (r.Erro? && r.motivo == MotivoGrid <==> |cu| != 1 && |lu| != 1 && linhasOk && f != [])
            && (r.Erro? && r.motivo == MotivoGrid ==> r.faltantes == f)
            && !r.GridUmaColuna?
  {
  }

  /** When the sorted distinct values are `0, 1, ..., k-1`, the largest value is k-1. */
  lemma IdentidadeMaximo(s: seq<int>)
    requires s != [] && EhIdentidade(Unicos(s))
    ensures MaximoDe(s) == Finito(|Unicos(s)| - 1)
  {
    var u := Unicos(s);
    var m := MaxInt(s);
    assert m <= |u| - 1 by {
      assert m in u;
    }
    assert |u| - 1 <= m by {
      assert s[0] in u;
      assert u[|u| - 1] in s;
    }
  }

  /** With sequential rows, the largest row is one less than the number of distinct rows. */
  lemma MaximoDasLinhas(ps: seq<Forms.Posicao>)
    requires ps != [] && Forms.LinhasSequenciais(ps)
    ensures MaximoDe(Forms.Linhas(ps)) == Finito(|Forms.LinhasUnicas(ps)| - 1)
  {
    LinhasIdentidadeSse(ps);
    assert Forms.LinhasUnicas(ps) == Unicos(Forms.Linhas(ps));
    IdentidadeMaximo(Forms.Linhas(ps));
  }

  /**
   * The single-column layout: all fields share one column (any column)
   * and the rows are sequential from 0; it then reports `maxLinha + 1`
   * rows and one column.
   */
  lemma ColunaSse(ps: seq<Forms.Posicao>)
    ensures ValidarPosOld(true, ps).value.Coluna? <==> MesmaColuna(ps) && Forms.LinhasSequenciais(ps)
    ensures ValidarPosOld(true, ps).value.Coluna? ==>
              ValidarPosOld(true, ps).value.linhas == MaisUm(ValidarPosOld(true, ps).value.maxLinha)
              && ValidarPosOld(true, ps).value.colunas == Finito(1)
  {
    var lu := Forms.LinhasUnicas(ps);
    Ramos(lu, Unicos(Colunas(ps)), MaximoDe(Forms.Linhas(ps)), MaximoDe(Colunas(ps)),
          Forms.LinhasOk(ps), Faltantes(ps, lu));
    UmaColunaSse(ps);
    LinhasIdentidadeSse(ps);
    if MesmaColuna(ps) && Forms.LinhasSequenciais(ps) {
      MaximoDasLinhas(ps);
    }
  }

  /**
   * The single-row layout: not all in one column, all in one row, and the
   * columns sequential from 0; it then reports one row and `maxColuna + 1`
   * columns.
   */
  lemma LinhaSse(ps: seq<Forms.Posicao>)
    ensures ValidarPosOld(true, ps).value.Linha? <==>
              !MesmaColuna(ps) && MesmaLinha(ps) && Sequencial(Colunas(ps))
    ensures ValidarPosOld(true, ps).value.Linha? ==>
              ValidarPosOld(true, ps).value.linhas == Finito(1)
              && ValidarPosOld(true, ps).value.colunas == MaisUm(ValidarPosOld(true, ps).value.maxColuna)
  {
    var lu := Forms.LinhasUnicas(ps);
    Ramos(lu, Unicos(Colunas(ps)), MaximoDe(Forms.Linhas(ps)), MaximoDe(Colunas(ps)),
          Forms.LinhasOk(ps), Faltantes(ps, lu));
    UmaColunaSse(ps);
    UmaLinhaSse(ps);
    IdentidadeSse(Colunas(ps));
    if !MesmaColuna(ps) && MesmaLinha(ps) && Sequencial(Colunas(ps)) {
      IdentidadeMaximo(Colunas(ps));
    }
  }

  /**
   * The flexible grid: neither a single column nor a single row, and the
   * current form's row and column checks both pass; it then reports
   * `maxLinha + 1` rows and `maxColuna + 1` columns.
   */
  lemma GridFlexSse(ps: seq<Forms.Posicao>)
    ensures ValidarPosOld(true, ps).value.GridFlex? <==>
              !MesmaColuna(ps) && !MesmaLinha(ps)
              && Forms.LinhasSequenciais(ps) && Forms.ColunasSequenciais(ps)
    ensures ValidarPosOld(true, ps).value.GridFlex? ==>
              ValidarPosOld(true, ps).value.linhas == MaisUm(ValidarPosOld(true, ps).value.maxLinha)
              && ValidarPosOld(true, ps).value.colunas == MaisUm(ValidarPosOld(true, ps).value.maxColuna)
  {
    var lu := Forms.LinhasUnicas(ps);
    Ramos(lu, Unicos(Colunas(ps)), MaximoDe(Forms.Linhas(ps)), MaximoDe(Colunas(ps)),
          Forms.LinhasOk(ps), Faltantes(ps, lu));
    UmaColunaSse(ps);
    UmaLinhaSse(ps);
    Forms.LinhasOkSse(ps);
    SemFaltantesSse(ps);
  }

  /** Outside the single-column and single-row cases the legacy grid is accepted exactly when the current form's grid is. */
  lemma GridFlexComoValidarGrade(ps: seq<Forms.Posicao>)
    requires !MesmaColuna(ps) && !MesmaLinha(ps)
    ensures ValidarPosOld(true, ps).value.GridFlex? <==> Forms.ValidarGrade(ps).None?
  {
    GridFlexSse(ps);
  }

  /** The flexible grid of a non-empty layout has as many rows as there are distinct rows. */
  lemma GridFlexLinhas(ps: seq<Forms.Posicao>)
    requires ps != [] && ValidarPosOld(true, ps).value.GridFlex?
    ensures ValidarPosOld(true, ps).value.linhas == Finito(|Forms.LinhasUnicas(ps)|)
  {
    GridFlexSse(ps);
    var lu := Forms.LinhasUnicas(ps);
    Ramos(lu, Unicos(Colunas(ps)), MaximoDe(Forms.Linhas(ps)), MaximoDe(Colunas(ps)),
          Forms.LinhasOk(ps), Faltantes(ps, lu));
    MaximoDasLinhas(ps);
  }

  /**
   * An inconsistent flexible grid lists every missing position exactly
   * once, in row, then column order, each absent from a used row at or
   * below that row's largest column.
   */
  lemma FaltantesListados(ps: seq<Forms.Posicao>)
    requires ValidarPosOld(true, ps).value.Erro? && ValidarPosOld(true, ps).value.motivo == MotivoGrid
    ensures ValidarPosOld(true, ps).value.faltantes != []
    ensures OrdemLex(ValidarPosOld(true, ps).value.faltantes)
    ensures forall p :: p in ValidarPosOld(true, ps).value.faltantes <==>
              p.linha in Forms.Linhas(ps) && 0 <= p.coluna <= Forms.MaxColuna(ps, p.linha) && p !in ps
  {
    var lu := Forms.LinhasUnicas(ps);
    Ramos(lu, Unicos(Colunas(ps)), MaximoDe(Forms.Linhas(ps)), MaximoDe(Colunas(ps)),
          Forms.LinhasOk(ps), Faltantes(ps, lu));
    FaltantesSse(ps, lu);
    FaltantesEmOrdem(ps, lu);
  }

  /** Because the single-column test comes first, one field is a column at row 0, and an error elsewhere. */
  lemma CampoUnico(ps: seq<Forms.Posicao>)
    requires |ps| == 1
    ensures ValidarPosOld(true, ps).value.Coluna? <==> ps[0].linha == 0
    ensures ValidarPosOld(true, ps).value.Coluna? || ValidarPosOld(true, ps).value.Erro?
  {
    var lu := Forms.LinhasUnicas(ps);
    Ramos(lu, Unicos(Colunas(ps)), MaximoDe(Forms.Linhas(ps)), MaximoDe(Colunas(ps)),
          Forms.LinhasOk(ps), Faltantes(ps, lu));
    UmaColunaSse(ps);
    LinhasIdentidadeSse(ps);
    assert Forms.LinhasSequenciais(ps) <==> ps[0].linha == 0 by {
      assert Forms.Linhas(ps) == [ps[0].linha];
      assert MaxInt(Forms.Linhas(ps)) == ps[0].linha;
      if ps[0].linha > 0 {
        assert 0 !in Forms.Linhas(ps);
      }
    }
  }

  /** A field in column 5 alone is accepted as a single column, though the current form requires column 0. */
  lemma ColunaCincoAceita()
    ensures ValidarPosOld(true, [Forms.Posicao(0, 5)]) ==
              Some(Coluna(Finito(1), Finito(1), Finito(0), Finito(5)))
    ensures Forms.ValidarGrade([Forms.Posicao(0, 5)]).Some?
  {
    var ps := [Forms.Posicao(0, 5)];
    var lu := Forms.LinhasUnicas(ps);
    Ramos(lu, Unicos(Colunas(ps)), MaximoDe(Forms.Linhas(ps)), MaximoDe(Colunas(ps)),
          Forms.LinhasOk(ps), Faltantes(ps, lu));
    CampoUnico(ps);
    UmaLinhaSse(ps);
    assert Forms.Linhas(ps) == [0];
    assert Colunas(ps) == [5];
    assert !Forms.ColunasSequenciais(ps) by {
      assert 5 in Forms.ColunasDaLinha(ps, 0);
      assert Forms.Posicao(0, 0) !in ps;
    }
  }

  /**
   * `_validarPos`: throws (None) without `#mainConteudo`; otherwise the
   * one-column grid with `maxLinha + 1` rows when the rows are sequential
   * from 0, else an error carrying the distinct rows found.
   */
  function ValidarPos(temMain: bool, ps: seq<Forms.Posicao>): (r: Option<Layout>)
    ensures r.None? <==> !temMain
    ensures r.Some? ==> (r.value.GridUmaColuna? <==> Forms.LinhasSequenciais(ps))
    ensures r.Some? && !r.value.GridUmaColuna? ==>
              r.value == Erro(MotivoLinhas, Some(Forms.LinhasUnicas(ps)), [])
  {
    Forms.LinhasOkSse(ps);
    if !temMain then None
    else if !Forms.LinhasOk(ps) then Some(Erro(MotivoLinhas, Some(Forms.LinhasUnicas(ps)), []))
    else
      var ml := MaximoDe(Forms.Linhas(ps));
      Some(GridUmaColuna(MaisUm(ml), ml))
  }

  /** The one-column grid has as many rows as there are distinct rows, or -Infinity with no field. */
  lemma GridUmaColunaLinhas(temMain: bool, ps: seq<Forms.Posicao>)
    requires temMain && ValidarPos(temMain, ps).value.GridUmaColuna?
    ensures ps != [] ==> ValidarPos(temMain, ps).value.linhas == Finito(|Forms.LinhasUnicas(ps)|)
    ensures ps == [] ==> ValidarPos(temMain, ps).value.linhas == MenosInfinito
  {
    Forms.LinhasOkSse(ps);
    assert Forms.LinhasOk(ps);
    assert ValidarPos(temMain, ps).value.linhas == MaisUm(MaximoDe(Forms.Linhas(ps)));
    if ps != [] {
      ContagemDasLinhasOk(ps);
    }
  }

  /** With the row check passed, the distinct rows are 0 .. max, so there are max + 1 of them. */
  lemma ContagemDasLinhasOk(ps: seq<Forms.Posicao>)
    requires ps != [] && Forms.LinhasOk(ps)
    ensures |Forms.LinhasUnicas(ps)| == MaxInt(Forms.Linhas(ps)) + 1
  {
    var lu := Forms.LinhasUnicas(ps);
    assert Forms.Linhas(ps)[0] in lu;
  }

  // ---------------------------------------------------------------------
  // posicionarDivs
  // ---------------------------------------------------------------------

  /**
   * `Forms_Base.posicionarDivs`: throws (None) without a form or without
   * `#mainConteudo` (the field and position lists are arrays and always
   * present); otherwise the same grouping and emission as the current
   * `_posicionarDivs`.
   */
  method PosicionarDivs(temForm: bool, temMain: bool, ps: seq<Forms.Posicao>)
    returns (r: Option<seq<(int, seq<nat>)>>)
    ensures r.None? <==> !temForm || !temMain
    ensures r.Some? ==> Forms.DisposicaoCorreta(ps, r.value) && NoDuplicates(Forms.Emitidos(r.value))
  {
    if !temForm || !temMain {
      return None;
    }
    var linhas := Forms.Posicionar(ps);
    return Some(linhas);
  }
}
