/**
 * `FormComum`, the form builder: the static `validacao` of the field
 * lists, the row-then-column placement of the fields by `_posicionarDivs`,
 * the field operations (collecting the values, clearing, enabling) and the
 * button handlers that dispatch `formulario-acao` events.
 */
module Forms {
  import opened JsCommon
  import Botoes

  /** One `pos` entry as `validacao` sees it. */
  datatype EntradaPos =
    | NaoObjeto                       // not an object
    | SemLinhaOuColuna                // an object without `linha` or without `coluna`
    | NaoNumerica                     // `linha` or `coluna` is not a number
    | Numerica(linha: int, coluna: int)

  datatype Posicao = Posicao(linha: int, coluna: int)

  /** The lists handed to the constructor; index i of each describes field i. */
  datatype ConfigForm = ConfigForm(
    tipo: seq<string>, rotulo: seq<string>, nomeCampo: seq<string>,
    format: seq<Option<string>>, pos: seq<EntradaPos>,
    alinhamento: seq<string>, largCampos: seq<string>)

  datatype ErroForm =
    | ListasDesiguais
    | FormatoNaoPermitido(formato: string)
    | PosicaoNaoObjeto
    | CoordenadaNaoNumerica
    | AlinhamentoNaoPermitido(alinhamento: string)
    | LinhasNaoSequenciais(encontradas: seq<int>)
    | ColunasNaoSequenciais(linha: int, faltando: int)
    | ErroDosBotoes(e: Botoes.ErroBotoes)
    /** TypeError: `_criarDivsCampos` assigns `type` to the `<select>` of a 'combo' field, a getter-only property. */
    | TipoSomenteLeitura(indice: nat)

  const FormatosValidos: set<string> := {"texto", "moeda", "pct", "data"}
  const AlinhamentosValidos: set<string> := {"H", "V"}

  // ---------------------------------------------------------------------
  // validacao
  // ---------------------------------------------------------------------

  /** rotulo (`label`), nomeCampo, format, pos, alinhamento and largCampos all have `tipo.length` entries. */
  predicate ListasIguais(cfg: ConfigForm) {
    var n := |cfg.tipo|;
    |cfg.rotulo| == n && |cfg.nomeCampo| == n && |cfg.format| == n && |cfg.pos| == n
    && |cfg.alinhamento| == n && |cfg.largCampos| == n
  }

  predicate FormatoAceito(f: Option<string>) { f.None? || f.value in FormatosValidos }

  predicate EhNumerica(p: EntradaPos) { p.Numerica? }

  predicate AlinhamentoAceito(a: string) { a in AlinhamentosValidos }

  function Coordenadas(pos: seq<EntradaPos>): (ps: seq<Posicao>)
    requires forall i :: 0 <= i < |pos| ==> pos[i].Numerica?
    ensures |ps| == |pos|
    ensures forall i :: 0 <= i < |pos| ==> ps[i] == Posicao(pos[i].linha, pos[i].coluna)
  {
    seq(|pos|, i requires 0 <= i < |pos| => Posicao(pos[i].linha, pos[i].coluna))
  }

  /** `pos.map(p => p.linha)`. */
  function Linhas(ps: seq<Posicao>): (r: seq<int>)
    ensures |r| == |ps| && forall i :: 0 <= i < |ps| ==> r[i] == ps[i].linha
  {
    seq(|ps|, i requires 0 <= i < |ps| => ps[i].linha)
  }

  /** `[...new Set(linhas)].sort((a, b) => a - b)`: every row once, ascending. */
  function LinhasUnicas(ps: seq<Posicao>): (r: seq<int>)
    ensures StrictlyIncreasing(r)
    ensures forall l :: l in r <==> l in Linhas(ps)
  {
    SortInts(Distinct(Linhas(ps)))
  }

  /**
   * The length `Math.max(...linhas) + 1` of `linhasEsperadas`: the maximum
   * of no rows is -Infinity, and an array length below 0 becomes 0.
   */
  function LinhasEsperadas(ps: seq<Posicao>): nat {
    if ps == [] then 0
    else
      var m := MaxInt(Linhas(ps));
      if m + 1 < 0 then 0 else m + 1
  }

  /** `linhasOk` as it is computed: the sorted distinct rows are exactly `0, 1, ..., maxLinha`. */
  predicate LinhasOk(ps: seq<Posicao>) {
    LinhasUnicas(ps) == Range(LinhasEsperadas(ps))
  }

  /** What the row check means: no row is negative, and every row from 0 to the largest is used. */
  predicate LinhasSequenciais(ps: seq<Posicao>) {
    (forall i :: 0 <= i < |ps| ==> 0 <= ps[i].linha)
    && (ps != [] ==> forall k :: 0 <= k <= MaxInt(Linhas(ps)) ==> k in Linhas(ps))
  }

  /** A strictly increasing list that starts at 0 or above has `u[i] >= i`. */
  lemma {:induction false} CrescenteAcimaDoIndice(u: seq<int>, i: nat)
    requires StrictlyIncreasing(u) && i < |u| && u[0] >= 0
    ensures u[i] >= i
    decreases i
  {
    if i > 0 {
      CrescenteAcimaDoIndice(u, i - 1);
    }
  }

  /**
   * A strictly increasing list of values in `0..m` that holds every value
   * of `0..m` is `0, 1, 2, ...`.
   */
  lemma {:induction false} CrescenteCobertaEhIdentidade(u: seq<int>, m: int, i: nat)
    requires StrictlyIncreasing(u) && i < |u|
    requires forall j :: 0 <= j < |u| ==> 0 <= u[j] <= m
    requires forall k :: 0 <= k <= m ==> k in u
    ensures u[i] == i
    decreases i
  {
    forall j | 0 <= j < i
      ensures u[j] == j
    {
      CrescenteCobertaEhIdentidade(u, m, j);
    }
    CrescenteAcimaDoIndice(u, i);
    assert i in u;
    var j :| 0 <= j < |u| && u[j] == i;
    CrescenteAcimaDoIndice(u, j);
    assert j == i;
  }

  /** A strictly increasing list of values in `0..m` that holds every one of them is `Range(m + 1)`. */
  lemma CobertaEhRange(u: seq<int>, m: int)
    requires StrictlyIncreasing(u) && m in u
    requires forall j :: 0 <= j < |u| ==> 0 <= u[j] <= m
    requires forall k :: 0 <= k <= m ==> k in u
    ensures u == Range(m + 1)
  {
    forall i | 0 <= i < |u|
      ensures u[i] == i
    {
      CrescenteCobertaEhIdentidade(u, m, i);
    }
    var j :| 0 <= j < |u| && u[j] == m;
    assert |u| == m + 1;
  }

  /** The sorted distinct values of a list covering `0..m`, with m its maximum, are `Range(m + 1)`. */
  lemma UnicasDeCobertura(xs: seq<int>, u: seq<int>, m: int)
    requires StrictlyIncreasing(u) && forall l :: l in u <==> l in xs
    requires m in xs && forall i :: 0 <= i < |xs| ==> 0 <= xs[i] <= m
    requires forall k :: 0 <= k <= m ==> k in xs
    ensures u == Range(m + 1)
  {
    forall j | 0 <= j < |u|
      ensures 0 <= u[j] <= m
    {
      assert u[j] in xs;
    }
    CobertaEhRange(u, m);
  }

  /** Rows `0..maxLinha` with none missing pass the computed `linhasOk`. */
  lemma SequenciaisPassam(ps: seq<Posicao>)
    requires ps != [] && LinhasSequenciais(ps)
    ensures LinhasOk(ps)
  {
    UnicasDeCobertura(Linhas(ps), LinhasUnicas(ps), MaxInt(Linhas(ps)));
  }

  /** Rows that pass the computed `linhasOk` are `0..maxLinha` with none missing. */
  lemma OkSaoSequenciais(ps: seq<Posicao>)
    requires ps != [] && LinhasOk(ps)
    ensures LinhasSequenciais(ps)
  {
    var u := LinhasUnicas(ps);
    var m := MaxInt(Linhas(ps));
    forall i | 0 <= i < |ps|
      ensures 0 <= ps[i].linha
    {
      assert Linhas(ps)[i] in u;
    }
    assert m in u;
    forall k | 0 <= k <= m
      ensures k in Linhas(ps)
    {
      assert u[k] == k;
    }
  }

  /** The computed `linhasOk` holds exactly when the rows are `0..maxLinha` with none missing. */
  lemma LinhasOkSse(ps: seq<Posicao>)
    ensures LinhasOk(ps) <==> LinhasSequenciais(ps)
  {
    if ps == [] {
      assert Linhas(ps) == [];
      assert LinhasUnicas(ps) == [];
    } else {
      if LinhasSequenciais(ps) { SequenciaisPassam(ps); }
      if LinhasOk(ps) { OkSaoSequenciais(ps); }
    }
  }

  /** `pos.filter(p => p.linha === l).map(p => p.coluna)`, in field order. */
  function ColunasDaLinha(ps: seq<Posicao>, l: int): (r: seq<int>)
    ensures forall c :: c in r <==> Posicao(l, c) in ps
  {
    if ps == [] then []
    else
      assert forall x :: x in ps <==> x == ps[0] || x in ps[1..];
      (if ps[0].linha == l then [ps[0].coluna] else []) + ColunasDaLinha(ps[1..], l)
  }

  /** `Math.max(...colunasLinha)`, or -1 when the row has no field (so no column is required). */
  function MaxColuna(ps: seq<Posicao>, l: int): (m: int)
    ensures ColunasDaLinha(ps, l) != [] ==> m in ColunasDaLinha(ps, l)
    ensures forall c :: c in ColunasDaLinha(ps, l) ==> c <= m
  {
    var cols := ColunasDaLinha(ps, l);
    if cols == [] then -1 else MaxInt(cols)
  }

  /** The loop `for (c = from; c <= max; c++) if (!cols.includes(c)) throw ...`. */
  function PrimeiraColunaAusente(cols: seq<int>, from: int, max: int): (r: Option<int>)
    ensures r.None? <==> forall k :: from <= k <= max ==> k in cols
    ensures r.Some? ==> from <= r.value <= max && r.value !in cols
                        && forall k :: from <= k < r.value ==> k in cols
    decreases max - from
  {
    if from > max then None
    else if from !in cols then Some(from)
    else PrimeiraColunaAusente(cols, from + 1, max)
  }

  /** The first column of row l missing between 0 and the row's largest column. */
  function FaltaNaLinha(ps: seq<Posicao>, l: int): (r: Option<int>)
    ensures r.None? <==> forall c :: 0 <= c <= MaxColuna(ps, l) ==> Posicao(l, c) in ps
    ensures r.Some? ==> 0 <= r.value <= MaxColuna(ps, l) && Posicao(l, r.value) !in ps
                        && forall c :: 0 <= c < r.value ==> Posicao(l, c) in ps
  {
    var cols := ColunasDaLinha(ps, l);
    PrimeiraColunaAusente(cols, 0, MaxColuna(ps, l))
  }

  /** What the column check means: in every used row, every column up to that row's largest is used. */
  predicate ColunasSequenciais(ps: seq<Posicao>) {
    forall i, c :: 0 <= i < |ps| && 0 <= c <= MaxColuna(ps, ps[i].linha) ==> Posicao(ps[i].linha, c) in ps
  }

  /** Checking the distinct rows one by one is checking every field's row. */
  lemma ColunasOkSse(ps: seq<Posicao>)
    ensures (forall j :: 0 <= j < |LinhasUnicas(ps)| ==> FaltaNaLinha(ps, LinhasUnicas(ps)[j]).None?)
            <==> ColunasSequenciais(ps)
  {
    var u := LinhasUnicas(ps);
    if forall j :: 0 <= j < |u| ==> FaltaNaLinha(ps, u[j]).None? {
      forall i, c | 0 <= i < |ps| && 0 <= c <= MaxColuna(ps, ps[i].linha)
        ensures Posicao(ps[i].linha, c) in ps
      {
        assert Linhas(ps)[i] in u;
        assert c in ColunasDaLinha(ps, ps[i].linha);
      }
    }
    if ColunasSequenciais(ps) {
      forall j | 0 <= j < |u|
        ensures FaltaNaLinha(ps, u[j]).None?
      {
        assert u[j] in Linhas(ps);
        var i :| 0 <= i < |ps| && Linhas(ps)[i] == u[j];
        assert forall c :: 0 <= c <= MaxColuna(ps, ps[i].linha) ==> Posicao(ps[i].linha, c) in ps;
      }
    }
  }

  /**
   * The row check, then the column check of each distinct row in
   * ascending order, on positions that are all numeric.
   */
  function ValidarGrade(ps: seq<Posicao>): (r: Option<ErroForm>)
    ensures r.None? <==> LinhasSequenciais(ps) && ColunasSequenciais(ps)
    ensures r.Some? ==> r.value.LinhasNaoSequenciais? || r.value.ColunasNaoSequenciais?
    ensures r.Some? && r.value.LinhasNaoSequenciais? ==>
              !LinhasSequenciais(ps) && r.value.encontradas == LinhasUnicas(ps)
    ensures r.Some? && r.value.ColunasNaoSequenciais? ==>
              LinhasSequenciais(ps) && r.value.linha in Linhas(ps)
              && 0 <= r.value.faltando <= MaxColuna(ps, r.value.linha)
              && Posicao(r.value.linha, r.value.faltando) !in ps
  {
    LinhasOkSse(ps);
    if !LinhasOk(ps) then Some(LinhasNaoSequenciais(LinhasUnicas(ps)))
    else
      var u := LinhasUnicas(ps);
      var c := FirstFailure(u, l => FaltaNaLinha(ps, l).None?);
      ColunasOkSse(ps);
      if c.Some? then
        var l := u[c.value];
        assert l in Linhas(ps);
        Some(ColunasNaoSequenciais(l, FaltaNaLinha(ps, l).value))
      else None
  }

  /** The checks before the row and column checks pass: lengths, formats, positions, alignments. */
  predicate ChecagemBasica(cfg: ConfigForm) {
    ListasIguais(cfg)
    && (forall i :: 0 <= i < |cfg.format| ==> FormatoAceito(cfg.format[i]))
    && (forall i :: 0 <= i < |cfg.pos| ==> cfg.pos[i].Numerica?)
    && (forall i :: 0 <= i < |cfg.alinhamento| ==> AlinhamentoAceito(cfg.alinhamento[i]))
  }

  /** Every check of `validacao` passes. */
  predicate FormularioValido(cfg: ConfigForm) {
    ChecagemBasica(cfg)
    && LinhasSequenciais(Coordenadas(cfg.pos))
    && ColunasSequenciais(Coordenadas(cfg.pos))
  }

  /**
   * `FormComum.validacao`: the checks in source order, each throwing at the
   * first entry that fails it; a call that passes them all returns true.
   */
  function Validacao(cfg: ConfigForm): (r: Result<bool, ErroForm>)
    ensures r.Success? ==> r.value
    ensures r.Success? <==> FormularioValido(cfg)
    ensures r == Failure(ListasDesiguais) <==> !ListasIguais(cfg)
    ensures r.Failure? && r.error.FormatoNaoPermitido? ==>
              ListasIguais(cfg) && Some(r.error.formato) in cfg.format && r.error.formato !in FormatosValidos
    ensures r.Failure? && r.error.CoordenadaNaoNumerica? ==> NaoNumerica in cfg.pos
    ensures r.Failure? && r.error.PosicaoNaoObjeto? ==> NaoObjeto in cfg.pos || SemLinhaOuColuna in cfg.pos
    ensures r.Failure? && (r.error.CoordenadaNaoNumerica? || r.error.PosicaoNaoObjeto?) ==>
              ListasIguais(cfg) && forall i :: 0 <= i < |cfg.format| ==> FormatoAceito(cfg.format[i])
    ensures r.Failure? && r.error.AlinhamentoNaoPermitido? ==>
              ListasIguais(cfg) && r.error.alinhamento in cfg.alinhamento && !AlinhamentoAceito(r.error.alinhamento)
    ensures r.Failure? && r.error.AlinhamentoNaoPermitido? ==>
              (forall i :: 0 <= i < |cfg.format| ==> FormatoAceito(cfg.format[i]))
              && forall i :: 0 <= i < |cfg.pos| ==> cfg.pos[i].Numerica?
    ensures r.Failure? && (r.error.LinhasNaoSequenciais? || r.error.ColunasNaoSequenciais?) ==> ChecagemBasica(cfg)
    ensures ChecagemBasica(cfg) && ValidarGrade(Coordenadas(cfg.pos)).Some? ==>
              r == Failure(ValidarGrade(Coordenadas(cfg.pos)).value)
    ensures r.Failure? ==> !r.error.ErroDosBotoes? && !r.error.TipoSomenteLeitura?
  {
    if !ListasIguais(cfg) then Failure(ListasDesiguais)
    else
      var f := FirstFailure(cfg.format, FormatoAceito);
      if f.Some? then
        assert cfg.format[f.value] in cfg.format;
        Failure(FormatoNaoPermitido(cfg.format[f.value].value))
      else
        var p := FirstFailure(cfg.pos, EhNumerica);
        if p.Some? then
          assert cfg.pos[p.value] in cfg.pos;
          Failure(if cfg.pos[p.value].NaoNumerica? then CoordenadaNaoNumerica else PosicaoNaoObjeto)
        else
          var a := FirstFailure(cfg.alinhamento, AlinhamentoAceito);
          if a.Some? then
            assert cfg.alinhamento[a.value] in cfg.alinhamento;
            Failure(AlinhamentoNaoPermitido(cfg.alinhamento[a.value]))
          else
            var g := ValidarGrade(Coordenadas(cfg.pos));
            if g.Some? then Failure(g.value) else Success(true)
  }

  // ---------------------------------------------------------------------
  // _posicionarDivs
  // ---------------------------------------------------------------------

  /** Every entry of `s` names a field. */
  predicate Indices(ps: seq<Posicao>, s: seq<nat>) {
    forall k :: 0 <= k < |s| ==> s[k] < |ps|
  }

  /** Field a is placed before field b: by row, then column, then field index. */
  predicate Antes(ps: seq<Posicao>, a: nat, b: nat)
    requires a < |ps| && b < |ps|
  {
    ps[a].linha < ps[b].linha
    || (ps[a].linha == ps[b].linha
        && (ps[a].coluna < ps[b].coluna || (ps[a].coluna == ps[b].coluna && a < b)))
  }

  predicate EmOrdem(ps: seq<Posicao>, s: seq<nat>)
    requires Indices(ps, s)
  {
    forall a, b :: 0 <= a < b < |s| ==> Antes(ps, s[a], s[b])
  }

  /** Every field of `s` sits in row l. */
  predicate NaLinha(ps: seq<Posicao>, s: seq<nat>, l: int)
    requires Indices(ps, s)
  {
    forall k :: 0 <= k < |s| ==> ps[s[k]].linha == l
  }

  /**
   * `linhas[l]` after the first n fields are grouped: the indices below n
   * whose row is l, in index order.
   */
  function Grupo(ps: seq<Posicao>, n: nat, l: int): (r: seq<nat>)
    requires n <= |ps|
    ensures forall k :: 0 <= k < |r| ==> r[k] < n
  {
    if n == 0 then [] else Grupo(ps, n - 1, l) + (if ps[n - 1].linha == l then [n - 1] else [])
  }

  /** `linhas[l]` holds, in increasing order, exactly the fields below n in row l. */
  lemma {:induction false} GrupoContem(ps: seq<Posicao>, n: nat, l: int)
    requires n <= |ps|
    ensures Indices(ps, Grupo(ps, n, l)) && NaLinha(ps, Grupo(ps, n, l), l)
    ensures forall k :: 0 <= k < |Grupo(ps, n, l)| ==> Grupo(ps, n, l)[k] < n
    ensures forall i :: 0 <= i < n && ps[i].linha == l ==> i in Grupo(ps, n, l)
    ensures forall a, b :: 0 <= a < b < |Grupo(ps, n, l)| ==> Grupo(ps, n, l)[a] < Grupo(ps, n, l)[b]
  {
    if n > 0 {
      GrupoContem(ps, n - 1, l);
    }
  }

  /**
   * One step of the stable sort by column: x goes before the first field
   * whose column is not smaller than its own.
   */
  function InserirPorColuna(ps: seq<Posicao>, x: nat, s: seq<nat>): (r: seq<nat>)
    requires x < |ps| && Indices(ps, s)
    ensures multiset(r) == multiset(s) + multiset{x}
    ensures forall y :: y in r <==> y == x || y in s
    ensures Indices(ps, r)
  {
    if s == [] || ps[s[0]].coluna >= ps[x].coluna then [x] + s
    else
      assert s == [s[0]] + s[1..];
      [s[0]] + InserirPorColuna(ps, x, s[1..])
  }

  /**
   * Inserting a field of the same row whose index is below every index
   * already there keeps the (column, index) order.
   */
  lemma {:induction false} InserirPorColunaEmOrdem(ps: seq<Posicao>, x: nat, s: seq<nat>)
    requires x < |ps| && Indices(ps, s)
    requires NaLinha(ps, s, ps[x].linha) && EmOrdem(ps, s)
    requires forall k :: 0 <= k < |s| ==> x < s[k]
    ensures EmOrdem(ps, InserirPorColuna(ps, x, s))
  {
    if s == [] {
    } else if ps[s[0]].coluna >= ps[x].coluna {
      forall k | 0 <= k < |s|
        ensures Antes(ps, x, s[k])
      {
        if k > 0 { assert Antes(ps, s[0], s[k]); }
      }
      EmOrdemComCabeca(ps, x, s);
    } else {
      assert s == [s[0]] + s[1..];
      var t := InserirPorColuna(ps, x, s[1..]);
      InserirPorColunaEmOrdem(ps, x, s[1..]);
      forall k | 0 <= k < |t|
        ensures Antes(ps, s[0], t[k])
      {
        assert t[k] in t;
        if t[k] != x {
          assert t[k] in s[1..];
          var j :| 0 <= j < |s[1..]| && s[1..][j] == t[k];
          assert Antes(ps, s[0], s[j + 1]);
        }
      }
      EmOrdemComCabeca(ps, s[0], t);
    }
  }

  /** A field placed before every field of an ordered list can be put at its front. */
  lemma EmOrdemComCabeca(ps: seq<Posicao>, h: nat, t: seq<nat>)
    requires h < |ps| && Indices(ps, t) && EmOrdem(ps, t)
    requires forall k :: 0 <= k < |t| ==> Antes(ps, h, t[k])
    ensures Indices(ps, [h] + t) && EmOrdem(ps, [h] + t)
  {
    var r := [h] + t;
    forall a, b | 0 <= a < b < |r|
      ensures Antes(ps, r[a], r[b])
    {
      if a > 0 { assert r[a] == t[a - 1] && r[b] == t[b - 1]; }
    }
  }

  /**
   * `linhas[l].sort((a, b) => a.coluna - b.coluna)`: insertion from the
   * back keeps fields of equal column in index order, as the stable
   * `Array.prototype.sort` does.
   */
  function OrdenarPorColuna(ps: seq<Posicao>, s: seq<nat>): (r: seq<nat>)
    requires Indices(ps, s)
    ensures multiset(r) == multiset(s)
    ensures forall y :: y in r <==> y in s
    ensures Indices(ps, r)
  {
    if s == [] then []
    else
      assert s == [s[0]] + s[1..];
      InserirPorColuna(ps, s[0], OrdenarPorColuna(ps, s[1..]))
  }

  /** Sorting one row's fields, listed in index order, puts them in (column, index) order. */
  lemma {:induction false} OrdenarPorColunaEmOrdem(ps: seq<Posicao>, s: seq<nat>, l: int)
    requires Indices(ps, s) && NaLinha(ps, s, l)
    requires forall a, b :: 0 <= a < b < |s| ==> s[a] < s[b]
    ensures EmOrdem(ps, OrdenarPorColuna(ps, s)) && NaLinha(ps, OrdenarPorColuna(ps, s), l)
  {
    var r := OrdenarPorColuna(ps, s);
    forall k | 0 <= k < |r|
      ensures ps[r[k]].linha == l
    {
      assert r[k] in r;
      var j :| 0 <= j < |s| && s[j] == r[k];
    }
    if s != [] {
      assert s == [s[0]] + s[1..];
      OrdenarPorColunaEmOrdem(ps, s[1..], l);
      var t := OrdenarPorColuna(ps, s[1..]);
      forall k | 0 <= k < |t|
        ensures s[0] < t[k]
      {
        assert t[k] in t;
        var j :| 0 <= j < |s[1..]| && s[1..][j] == t[k];
        assert s[0] < s[j + 1];
      }
      InserirPorColunaEmOrdem(ps, s[0], t);
    }
  }

  /** The fields of the row containers, in document order. */
  function Emitidos(linhas: seq<(int, seq<nat>)>): seq<nat> {
    if linhas == [] then [] else Emitidos(linhas[..|linhas| - 1]) + linhas[|linhas| - 1].1
  }

  lemma {:induction false} EmitidosIndices(ps: seq<Posicao>, linhas: seq<(int, seq<nat>)>)
    requires forall t :: 0 <= t < |linhas| ==> Indices(ps, linhas[t].1)
    ensures Indices(ps, Emitidos(linhas))
  {
    if linhas != [] {
      EmitidosIndices(ps, linhas[..|linhas| - 1]);
    }
  }

  /** Two ordered runs, the first entirely in earlier rows, concatenate to an ordered run. */
  lemma ConcatEmOrdem(ps: seq<Posicao>, s: seq<nat>, t: seq<nat>)
    requires Indices(ps, s) && Indices(ps, t) && EmOrdem(ps, s) && EmOrdem(ps, t)
    requires forall x, y :: x in s && y in t ==> ps[x].linha < ps[y].linha
    ensures Indices(ps, s + t) && EmOrdem(ps, s + t)
  {
    var u := s + t;
    forall a, b | 0 <= a < b < |u|
      ensures Antes(ps, u[a], u[b])
    {
      if b < |s| {
        assert u[a] == s[a] && u[b] == s[b];
      } else if a >= |s| {
        assert u[a] == t[a - |s|] && u[b] == t[b - |s|];
      } else {
        assert u[a] == s[a] && u[b] == t[b - |s|];
        assert s[a] in s && t[b - |s|] in t;
      }
    }
  }

  /** The placement `_posicionarDivs` produces: one container per row, fields by row, column, index. */
  predicate DisposicaoCorreta(ps: seq<Posicao>, linhas: seq<(int, seq<nat>)>) {
    (forall t :: 0 <= t < |linhas| ==> Indices(ps, linhas[t].1) && NaLinha(ps, linhas[t].1, linhas[t].0))
    && (forall a, b :: 0 <= a < b < |linhas| ==> linhas[a].0 < linhas[b].0)
    && Indices(ps, Emitidos(linhas))
    && EmOrdem(ps, Emitidos(linhas))
    && (forall i :: 0 <= i < |ps| ==> i in Emitidos(linhas))
  }

  /**
   * The first loop of `_posicionarDivs`: `linhas[l]` collects, in index
   * order, the fields of row l, and exists exactly for the rows in use.
   */
  method Agrupar(ps: seq<Posicao>) returns (grupos: map<int, seq<nat>>)
    ensures forall l :: l in grupos <==> l in Linhas(ps)
    ensures forall l :: l in grupos ==> grupos[l] == Grupo(ps, |ps|, l)
  {
    grupos := map[];
    var i: nat := 0;
    AgrupadoNoInicio(ps);
    while i < |ps|
      invariant 0 <= i <= |ps|
      invariant AgrupadoAte(ps, i, grupos)
    {
      var l := ps[i].linha;
      var atual: seq<nat> := if l in grupos then grupos[l] else [];
      ghost var antes := grupos;
      grupos := grupos[l := atual + [i]];
      AgruparPasso(ps, i, antes, grupos);
      i := i + 1;
    }
    AgrupadoAoFim(ps, grupos);
  }

  lemma AgrupadoNoInicio(ps: seq<Posicao>)
    ensures AgrupadoAte(ps, 0, map[])
  {
  }

  lemma AgrupadoAoFim(ps: seq<Posicao>, grupos: map<int, seq<nat>>)
    requires AgrupadoAte(ps, |ps|, grupos)
    ensures forall l :: l in grupos <==> l in Linhas(ps)
    ensures forall l :: l in grupos ==> grupos[l] == Grupo(ps, |ps|, l)
  {
    GrupoNaoVazioSse(ps);
  }

  /** The map built by the first i iterations: one entry per row used so far, holding that row's group. */
  ghost predicate AgrupadoAte(ps: seq<Posicao>, i: nat, grupos: map<int, seq<nat>>)
    requires i <= |ps|
  {
    (forall l :: l in grupos <==> Grupo(ps, i, l) != [])
    && (forall l :: l in grupos ==> grupos[l] == Grupo(ps, i, l))
  }

  lemma AgruparPasso(ps: seq<Posicao>, i: nat, antes: map<int, seq<nat>>, depois: map<int, seq<nat>>)
    requires i < |ps| && AgrupadoAte(ps, i, antes)
    requires depois == antes[ps[i].linha := (if ps[i].linha in antes then antes[ps[i].linha] else []) + [i]]
    ensures AgrupadoAte(ps, i + 1, depois)
  {
    GrupoPasso(ps, i);
  }

  lemma GrupoPasso(ps: seq<Posicao>, i: nat)
    requires i < |ps|
    ensures forall l :: Grupo(ps, i + 1, l) == Grupo(ps, i, l) + (if ps[i].linha == l then [i] else [])
  {
  }

  /** A row has a group exactly when some field uses it. */
  lemma GrupoNaoVazioSse(ps: seq<Posicao>)
    ensures forall l :: Grupo(ps, |ps|, l) != [] <==> l in Linhas(ps)
  {
    forall l
      ensures Grupo(ps, |ps|, l) != [] <==> l in Linhas(ps)
    {
      var g := Grupo(ps, |ps|, l);
      GrupoContem(ps, |ps|, l);
      if l in Linhas(ps) {
        var k :| 0 <= k < |ps| && Linhas(ps)[k] == l;
        assert k in g;
      }
      if g != [] {
        assert Linhas(ps)[g[0]] == l;
      }
    }
  }

  /**
   * The containers of the first j distinct rows `us[0..j)` have been
   * emitted, in order: what was emitted is exactly the fields of those rows.
   */
  predicate EmissaoAte(ps: seq<Posicao>, us: seq<int>, j: nat, linhas: seq<(int, seq<nat>)>) {
    j <= |us| && |linhas| == j
    && (forall t :: 0 <= t < j ==> linhas[t].0 == us[t] && Indices(ps, linhas[t].1) && NaLinha(ps, linhas[t].1, us[t]))
    && Indices(ps, Emitidos(linhas)) && EmOrdem(ps, Emitidos(linhas))
    && (forall x :: x in Emitidos(linhas) ==> j > 0 && ps[x].linha <= us[j - 1])
    && (forall k :: 0 <= k < |ps| && j > 0 && ps[k].linha <= us[j - 1] ==> k in Emitidos(linhas))
  }

  /** One step of the second loop: appending the next row's container keeps the placement ordered. */
  lemma PassoEmissao(ps: seq<Posicao>, us: seq<int>, j: nat, linhas: seq<(int, seq<nat>)>)
    requires StrictlyIncreasing(us) && forall l :: l in us <==> l in Linhas(ps)
    requires j < |us| && EmissaoAte(ps, us, j, linhas)
    ensures EmissaoAte(ps, us, j + 1, linhas + [(us[j], OrdenarPorColuna(ps, Grupo(ps, |ps|, us[j])))])
  {
    var l := us[j];
    var g := Grupo(ps, |ps|, l);
    GrupoContem(ps, |ps|, l);
    var campos := OrdenarPorColuna(ps, g);
    OrdenarPorColunaEmOrdem(ps, g, l);
    var e := Emitidos(linhas);
    var novas := linhas + [(l, campos)];
    assert Emitidos(novas) == e + campos by {
      assert novas[..|novas| - 1] == linhas;
    }
    assert forall x :: x in e ==> ps[x].linha < l by {
      assert j > 0 ==> us[j - 1] < us[j];
    }
    PassoOrdem(ps, e, campos, l);
    assert forall k :: 0 <= k < |ps| && ps[k].linha == l ==> k in campos by {
      assert forall k :: 0 <= k < |ps| && ps[k].linha == l ==> k in g;
    }
    PassoCobertura(ps, us, j, e, campos);
    forall t | 0 <= t < j + 1
      ensures novas[t].0 == us[t] && Indices(ps, novas[t].1) && NaLinha(ps, novas[t].1, us[t])
    {
      if t < j {
        assert novas[t] == linhas[t];
      }
    }
  }

  /** The fields of the new row, all in a row after every emitted one, extend the ordered run. */
  lemma PassoOrdem(ps: seq<Posicao>, e: seq<nat>, campos: seq<nat>, l: int)
    requires Indices(ps, e) && EmOrdem(ps, e) && forall x :: x in e ==> ps[x].linha < l
    requires Indices(ps, campos) && EmOrdem(ps, campos) && NaLinha(ps, campos, l)
    ensures Indices(ps, e + campos) && EmOrdem(ps, e + campos)
    ensures forall x :: x in e + campos ==> ps[x].linha <= l
  {
    forall y | y in campos
      ensures ps[y].linha == l
    {
      var k :| 0 <= k < |campos| && campos[k] == y;
    }
    ConcatEmOrdem(ps, e, campos);
  }

  /** Every field of a row up to the new one is among the emitted fields. */
  lemma PassoCobertura(ps: seq<Posicao>, us: seq<int>, j: nat, e: seq<nat>, campos: seq<nat>)
    requires StrictlyIncreasing(us) && forall l :: l in us <==> l in Linhas(ps)
    requires j < |us|
    requires forall k :: 0 <= k < |ps| && j > 0 && ps[k].linha <= us[j - 1] ==> k in e
    requires forall k :: 0 <= k < |ps| && ps[k].linha == us[j] ==> k in campos
    ensures forall k :: 0 <= k < |ps| && ps[k].linha <= us[j] ==> k in e + campos
  {
    forall k | 0 <= k < |ps| && ps[k].linha <= us[j]
      ensures k in e + campos
    {
      if j > 0 && ps[k].linha <= us[j - 1] {
        assert k in e;
      } else {
        assert Linhas(ps)[k] in us;
        var t :| 0 <= t < |us| && us[t] == ps[k].linha;
        assert t == j;
      }
    }
  }

  /**
   * `_posicionarDivs`: groups the field indices by row in a dictionary,
   * then emits one container per row, in ascending row order, holding the
   * row's fields sorted by column. Every field is emitted exactly once.
   */
  method Posicionar(ps: seq<Posicao>) returns (linhas: seq<(int, seq<nat>)>)
    ensures DisposicaoCorreta(ps, linhas)
    ensures NoDuplicates(Emitidos(linhas))
    ensures forall t :: 0 <= t < |linhas| ==> linhas[t].0 in Linhas(ps)
  {
    var grupos := Agrupar(ps);
    var us := LinhasUnicas(ps);
    linhas := [];
    var j := 0;
    while j < |us|
      invariant EmissaoAte(ps, us, j, linhas)
    {
      var l := us[j];
      var campos := OrdenarPorColuna(ps, grupos[l]);
      PassoEmissao(ps, us, j, linhas);
      linhas := linhas + [(l, campos)];
      j := j + 1;
    }
    Concluir(ps, us, linhas);
  }

  /** After the last row, every field has been emitted. */
  lemma Concluir(ps: seq<Posicao>, us: seq<int>, linhas: seq<(int, seq<nat>)>)
    requires StrictlyIncreasing(us) && forall l :: l in us <==> l in Linhas(ps)
    requires EmissaoAte(ps, us, |us|, linhas)
    ensures DisposicaoCorreta(ps, linhas)
    ensures NoDuplicates(Emitidos(linhas))
    ensures forall t :: 0 <= t < |linhas| ==> linhas[t].0 in Linhas(ps)
  {
    CoberturaFinal(ps, us, linhas);
    EmOrdemSemDuplicados(ps, Emitidos(linhas));
    forall t | 0 <= t < |linhas|
      ensures linhas[t].0 in Linhas(ps)
    {
      assert us[t] in us;
    }
  }

  lemma CoberturaFinal(ps: seq<Posicao>, us: seq<int>, linhas: seq<(int, seq<nat>)>)
    requires StrictlyIncreasing(us) && forall l :: l in us <==> l in Linhas(ps)
    requires EmissaoAte(ps, us, |us|, linhas)
    ensures forall k :: 0 <= k < |ps| ==> k in Emitidos(linhas)
  {
    forall k | 0 <= k < |ps|
      ensures k in Emitidos(linhas)
    {
      assert Linhas(ps)[k] in us;
      var t :| 0 <= t < |us| && us[t] == ps[k].linha;
      assert ps[k].linha <= us[|us| - 1];
    }
  }

  /** Placement order is strict, so an ordered placement repeats no field. */
  lemma EmOrdemSemDuplicados(ps: seq<Posicao>, s: seq<nat>)
    requires Indices(ps, s) && EmOrdem(ps, s)
    ensures NoDuplicates(s)
  {
    forall a, b | 0 <= a < b < |s|
      ensures s[a] != s[b]
    {
      assert Antes(ps, s[a], s[b]);
    }
  }

  // ---------------------------------------------------------------------
  // Fields
  // ---------------------------------------------------------------------

  /** `input.type` of the control inside a field. */
  datatype TipoControle = CaixaTexto | Selecao | CaixaMarcacao | BotaoRadio | AreaTexto

  /** The control `field.querySelector('input, select, textarea')` finds. */
  datatype Controle = Controle(tipo: TipoControle, nome: string, valor: string, marcado: bool, desabilitado: bool)

  /**
   * The control `_criarDivsCampos` builds for a field type: 'radio' builds
   * an empty radio-group container, in which the query finds no control,
   * and an unknown type builds a text input. A 'combo' gets a `<select>`
   * with its `type` left alone; the code as written assigns that
   * getter-only property and throws (`TipoSomenteLeitura`).
   */
  function ControleDoTipo(tipo: string, nome: string): (r: Option<Controle>)
    ensures r.None? <==> tipo == "radio"
    ensures r.Some? ==> r.value.nome == nome && r.value.valor == "" && !r.value.marcado && !r.value.desabilitado
    ensures r.Some? && r.value.tipo == CaixaMarcacao <==> tipo == "checkbox"
    ensures r.Some? && r.value.tipo == Selecao <==> tipo == "combo"
    ensures r.Some? ==> r.value.tipo != BotaoRadio
  {
    var tc :=
      if tipo == "combo" then Selecao
      else if tipo == "checkbox" then CaixaMarcacao
      else if tipo == "textarea" then AreaTexto
      else CaixaTexto;
    if tipo == "radio" then None else Some(Controle(tc, nome, "", false, false))
  }

  /** What one field adds to `obterDadosFormulario`'s object, if anything. */
  function Contribuicao(c: Option<Controle>): Option<(string, Scalar)> {
    if c.None? then None
    else if c.value.tipo == CaixaMarcacao then Some((c.value.nome, Bool(c.value.marcado)))
    else if c.value.tipo == BotaoRadio then (if c.value.marcado then Some((c.value.nome, Str(c.value.valor))) else None)
    else Some((c.value.nome, Str(c.value.valor)))
  }

  /** Field i writes key k. */
  predicate Escreve(c: Option<Controle>, k: string) {
    Contribuicao(c).Some? && Contribuicao(c).value.0 == k
  }

  function Acrescentar(d: map<string, Scalar>, c: Option<Controle>): map<string, Scalar> {
    if Contribuicao(c).None? then d else d[Contribuicao(c).value.0 := Contribuicao(c).value.1]
  }

  /** The object `obterDadosFormulario` builds from the fields, in field order. */
  function DadosDosCampos(cs: seq<Option<Controle>>): map<string, Scalar> {
    if cs == [] then map[] else Acrescentar(DadosDosCampos(cs[..|cs| - 1]), cs[|cs| - 1])
  }

  /**
   * A key is present exactly when some field writes it, and its value is
   * the one the last such field writes.
   */
  lemma {:induction false} UltimoCampoVence(cs: seq<Option<Controle>>, k: string, i: int)
    requires 0 <= i < |cs| && Escreve(cs[i], k)
    requires forall j :: i < j < |cs| ==> !Escreve(cs[j], k)
    ensures k in DadosDosCampos(cs) && DadosDosCampos(cs)[k] == Contribuicao(cs[i]).value.1
  {
    if i < |cs| - 1 {
      UltimoCampoVence(cs[..|cs| - 1], k, i);
    }
  }

  lemma {:induction false} ChaveSemCampo(cs: seq<Option<Controle>>, k: string)
    requires forall j :: 0 <= j < |cs| ==> !Escreve(cs[j], k)
    ensures k !in DadosDosCampos(cs)
  {
    if cs != [] {
      ChaveSemCampo(cs[..|cs| - 1], k);
    }
  }

  /** `Object.assign(dados, valoresSelects)`: the select values override field values of the same name. */
  function Mesclar(d: map<string, Scalar>, sel: Option<map<string, string>>): (r: map<string, Scalar>)
    ensures forall k :: k in r <==> k in d || (sel.Some? && k in sel.value)
    ensures forall k :: sel.Some? && k in sel.value ==> r[k] == Str(sel.value[k])
    ensures forall k :: k in d && (sel.None? || k !in sel.value) ==> r[k] == d[k]
  {
    if sel.None? then d else d + map k | k in sel.value :: Str(sel.value[k])
  }

  /** `limparCampos` on one field: boxes and radios are unchecked, other values emptied. */
  function Limpo(c: Option<Controle>): (r: Option<Controle>)
    ensures r.None? <==> c.None?
    ensures c.Some? && (c.value.tipo == CaixaMarcacao || c.value.tipo == BotaoRadio) ==>
              r == Some(c.value.(marcado := false))
    ensures c.Some? && c.value.tipo != CaixaMarcacao && c.value.tipo != BotaoRadio ==>
              r == Some(c.value.(valor := ""))
  {
    if c.None? then None
    else if c.value.tipo == CaixaMarcacao || c.value.tipo == BotaoRadio then Some(c.value.(marcado := false))
    else Some(c.value.(valor := ""))
  }

  /** After clearing, every collected value is `false` or `''`, and no radio is collected. */
  lemma {:induction false} DadosDeCamposLimpos(cs: seq<Option<Controle>>)
    requires forall j :: 0 <= j < |cs| ==> Limpo(cs[j]) == cs[j]
    ensures forall k :: k in DadosDosCampos(cs) ==> DadosDosCampos(cs)[k] == Bool(false) || DadosDosCampos(cs)[k] == Str("")
  {
    if cs != [] {
      DadosDeCamposLimpos(cs[..|cs| - 1]);
    }
  }

  /** Clearing is idempotent. */
  lemma LimpoIdempotente(c: Option<Controle>)
    ensures Limpo(Limpo(c)) == Limpo(c)
  {
  }

  /** `habilitarCampos(h)` on one field. */
  function Habilitado(c: Option<Controle>, h: bool): (r: Option<Controle>)
    ensures r.None? <==> c.None?
    ensures c.Some? ==> r == Some(c.value.(desabilitado := !h))
  {
    if c.None? then None else Some(c.value.(desabilitado := !h))
  }

  /** Enabling or disabling the fields does not change the collected values. */
  lemma {:induction false} DadosIgnoramHabilitacao(cs: seq<Option<Controle>>, ds: seq<Option<Controle>>, h: bool)
    requires |ds| == |cs| && forall j :: 0 <= j < |cs| ==> ds[j] == Habilitado(cs[j], h)
    ensures DadosDosCampos(ds) == DadosDosCampos(cs)
  {
    if cs != [] {
      DadosIgnoramHabilitacao(cs[..|cs| - 1], ds[..|ds| - 1], h);
    }
  }

  /** The `formulario-acao` event dispatched on the global footer. */
  datatype EventoForm = EventoForm(acao: string, dados: map<string, Scalar>)

  const GrupoPadrao: seq<Scalar> := [Str("S"), Str("N"), Str("S")]

  /**
   * The ids `_configurarEventosBotoes` looks up, per group switched on:
   * Encerrar, then navigation, then CRUD.
   */
  function BotoesDosEventos(g: seq<string>): (r: seq<string>)
    requires Botoes.GrupoValido(g)
    ensures forall id :: id in r ==> id in Botoes.IdsGerados(Botoes.GerarHTML(g))
  {
    var enc := if g[0] == "S" then ["btn_encerrar"] else [];
    var nav := if g[1] == "S" then ["btn_primeiro", "btn_recua", "btn_avanca", "btn_ultimo"] else [];
    var crud := if g[2] == "S" then ["btn_incluir", "btn_editar", "btn_deletar", "btn_salvar"] else [];
    var gs := Botoes.GerarHTML(g);
    forall id | id in enc + nav + crud
      ensures id in Botoes.IdsGerados(gs)
    {
      Botoes.IdGeradoSseGrupoAtivo(gs, id);
      if id in enc {
        var k :| 0 <= k < |gs| && gs[k] == Botoes.GrupoEncerrar;
        assert id in Botoes.IdsDoGrupo(gs[k]);
      } else if id in nav {
        var k :| 0 <= k < |gs| && gs[k] == Botoes.GrupoNavegacao;
        assert id in Botoes.IdsDoGrupo(gs[k]);
      } else {
        var k :| 0 <= k < |gs| && gs[k] == Botoes.GrupoCrud;
        assert id in Botoes.IdsDoGrupo(gs[k]);
      }
    }
    enc + nav + crud
  }

  class FormComum {
    const config: ConfigForm
    const pos: seq<Posicao>
    /** `fields`: one control (or none) per field div. */
    var campos: seq<Option<Controle>>
    /** `mainConteudo`: the row containers and the fields each holds. */
    var conteudo: seq<(int, seq<nat>)>
    var grupoBotoes: seq<string>
    const botoes: Botoes.CriarBotoes
    /** The ids of the buttons that received a click listener. */
    var botoesLigados: seq<string>
    /** `objSelect.obterValores()`, or None without selects. */
    var valoresSelects: Option<map<string, string>>
    /** Whether `#divRodape` exists. */
    const temRodape: bool
    var eventos: seq<EventoForm>
    var visivel: bool

    ghost predicate Valid()
      reads this, botoes
    {
      botoes.Valid() && botoes.grupoBotoes == grupoBotoes
    }

    /**
     * The state `render` leaves, before any button is bound: one control per
     * type, the fields placed row by row, the button bar written with
     * `gerarHTML` only (so no button is mapped), no event yet, shown.
     */
    ghost predicate Renderizado(cfg: ConfigForm, sel: Option<map<string, string>>, rodape: bool)
      reads this, botoes
    {
      ChecagemBasica(cfg) && config == cfg && pos == Coordenadas(cfg.pos)
      && DisposicaoCorreta(pos, conteudo)
      && |campos| == |cfg.tipo|
      && (forall i :: 0 <= i < |cfg.tipo| ==> campos[i] == ControleDoTipo(cfg.tipo[i], cfg.nomeCampo[i]))
      && botoes.botoesElementos == map[]
      && valoresSelects == sel && temRodape == rodape && eventos == [] && visivel
    }

    constructor(cfg: ConfigForm, b: Botoes.CriarBotoes, sel: Option<map<string, string>>, rodape: bool)
      requires ChecagemBasica(cfg) && "combo" !in cfg.tipo && b.Valid() && b.botoesElementos == map[]
      ensures Valid() && Renderizado(cfg, sel, rodape) && botoes == b && botoesLigados == []
    {
      var ps := Coordenadas(cfg.pos);
      var linhas := Posicionar(ps);
      config := cfg;
      pos := ps;
      campos := seq(|cfg.tipo|, i requires 0 <= i < |cfg.tipo| => ControleDoTipo(cfg.tipo[i], cfg.nomeCampo[i]));
      conteudo := linhas;
      grupoBotoes := b.grupoBotoes;
      botoes := b;
      botoesLigados := [];
      valoresSelects := sel;
      temRodape := rodape;
      eventos := [];
      visivel := true;
    }

    /**
     * `new FormComum(...)`: `validacao` first, then `render`, which creates
     * one field per type (throwing at the first 'combo', whose `<select>`
     * has a getter-only `type`), places them, builds the button bar from
     * `opcoes.grupoBotoes || ['S','N','S']` (throwing on an invalid array),
     * writes the bar with `gerarHTML` and binds the button events.
     */
    static method Criar(cfg: ConfigForm, grupoBotoes: Option<seq<Scalar>>, sel: Option<map<string, string>>,
                        rodape: bool) returns (r: Result<FormComum, ErroForm>)
      ensures Validacao(cfg).Failure? ==> r == Failure(Validacao(cfg).error)
      ensures Validacao(cfg).Success? && "combo" in cfg.tipo ==> r == Failure(TipoSomenteLeitura(IndexOf(cfg.tipo, "combo")))
      ensures r.Success? <==>
                Validacao(cfg).Success? && "combo" !in cfg.tipo
                && Botoes.ValidarParametros(Some(if grupoBotoes.Some? then grupoBotoes.value else GrupoPadrao)).Success?
      ensures r.Success? ==>
                fresh(r.value) && fresh(r.value.botoes) && r.value.Valid()
                && r.value.Renderizado(cfg, sel, rodape) && r.value.botoesLigados == []
    {
      var v := Validacao(cfg);
      if v.Failure? {
        return Failure(v.error);
      }
      var combo := IndexOf(cfg.tipo, "combo");
      if combo >= 0 {
        return Failure(TipoSomenteLeitura(combo));
      }
      var gb := if grupoBotoes.Some? then grupoBotoes.value else GrupoPadrao;
      var rb := Botoes.CriarBotoes.Criar(Some(gb));
      if rb.Failure? {
        return Failure(ErroDosBotoes(rb.error));
      }
      var f := new FormComum(cfg, rb.value, sel, rodape);
      f.ConfigurarEventosBotoes();
      return Success(f);
    }

    /**
     * `_configurarEventosBotoes`: a listener is bound to each button of an
     * active group that `obterElementoBotao` finds.
     */
    method ConfigurarEventosBotoes()
      requires Valid()
      modifies this
      ensures Valid() && campos == old(campos) && conteudo == old(conteudo) && grupoBotoes == old(grupoBotoes)
      ensures valoresSelects == old(valoresSelects) && eventos == old(eventos) && visivel == old(visivel)
      ensures forall id :: id in botoesLigados <==> id in BotoesDosEventos(grupoBotoes) && id in botoes.botoesElementos
      ensures botoes.botoesElementos == map[] ==> botoesLigados == []
    {
      botoesLigados := Ligaveis(BotoesDosEventos(grupoBotoes), botoes);
    }

    /** The loop of `_configurarEventosBotoes`: the ids whose element `obterElementoBotao` finds, in order. */
    static method Ligaveis(ids: seq<string>, b: Botoes.CriarBotoes) returns (ligados: seq<string>)
      ensures forall id :: id in ligados <==> id in ids && id in b.botoesElementos
      ensures b.botoesElementos == map[] ==> ligados == []
    {
      ligados := [];
      var i := 0;
      while i < |ids|
        invariant 0 <= i <= |ids|
        invariant forall id :: id in ligados <==> id in ids[..i] && id in b.botoesElementos
        invariant b.botoesElementos == map[] ==> ligados == []
      {
        PrefixStep(ids, i);
        if b.ObterElementoBotao(ids[i]).Some? {
          ligados := ligados + [ids[i]];
        }
        i := i + 1;
      }
      assert ids[..i] == ids;
    }

    /**
     * The footer written with `inserirEm` instead of `gerarHTML`: every
     * button of an active group is then mapped, so every one gets its
     * listener.
     */
    method ConfigurarBotoesMapeando()
      requires Valid()
      modifies this, botoes
      ensures Valid() && campos == old(campos) && conteudo == old(conteudo) && grupoBotoes == old(grupoBotoes)
      ensures valoresSelects == old(valoresSelects) && eventos == old(eventos) && visivel == old(visivel)
      ensures forall id :: id in botoesLigados <==> id in BotoesDosEventos(grupoBotoes)
    {
      var e := botoes.InserirEm(Botoes.Elemento);
      ConfigurarEventosBotoes();
    }

    /** `obterDadosFormulario`: the field values, then the select values merged over them. */
    method ObterDadosFormulario() returns (dados: map<string, Scalar>)
      ensures dados == Mesclar(DadosDosCampos(campos), valoresSelects)
    {
      dados := map[];
      var i := 0;
      while i < |campos|
        invariant 0 <= i <= |campos|
        invariant dados == DadosDosCampos(campos[..i])
      {
        assert campos[..i + 1][..i] == campos[..i];
        dados := Acrescentar(dados, campos[i]);
        i := i + 1;
      }
      assert campos[..i] == campos;
      if valoresSelects.Some? {
        dados := dados + map k | k in valoresSelects.value :: Str(valoresSelects.value[k]);
      }
    }

    /** `limparCampos`: clears every field in place. */
    method LimparCampos()
      modifies this
      ensures |campos| == |old(campos)| && forall j :: 0 <= j < |campos| ==> campos[j] == Limpo(old(campos)[j])
      ensures conteudo == old(conteudo) && grupoBotoes == old(grupoBotoes) && botoesLigados == old(botoesLigados)
      ensures valoresSelects == old(valoresSelects) && eventos == old(eventos) && visivel == old(visivel)
    {
      var i := 0;
      while i < |campos|
        invariant 0 <= i <= |campos| && |campos| == |old(campos)|
        invariant forall j :: 0 <= j < i ==> campos[j] == Limpo(old(campos)[j])
        invariant forall j :: i <= j < |campos| ==> campos[j] == old(campos)[j]
        invariant conteudo == old(conteudo) && grupoBotoes == old(grupoBotoes) && botoesLigados == old(botoesLigados)
        invariant valoresSelects == old(valoresSelects) && eventos == old(eventos) && visivel == old(visivel)
      {
        campos := campos[i := Limpo(campos[i])];
        i := i + 1;
      }
    }

    /** `habilitarCampos(h)`: every control is disabled exactly when h is false. */
    method HabilitarCampos(h: bool)
      modifies this
      ensures |campos| == |old(campos)| && forall j :: 0 <= j < |campos| ==> campos[j] == Habilitado(old(campos)[j], h)
      ensures conteudo == old(conteudo) && grupoBotoes == old(grupoBotoes) && botoesLigados == old(botoesLigados)
      ensures valoresSelects == old(valoresSelects) && eventos == old(eventos) && visivel == old(visivel)
    {
      var i := 0;
      while i < |campos|
        invariant 0 <= i <= |campos| && |campos| == |old(campos)|
        invariant forall j :: 0 <= j < i ==> campos[j] == Habilitado(old(campos)[j], h)
        invariant forall j :: i <= j < |campos| ==> campos[j] == old(campos)[j]
        invariant conteudo == old(conteudo) && grupoBotoes == old(grupoBotoes) && botoesLigados == old(botoesLigados)
        invariant valoresSelects == old(valoresSelects) && eventos == old(eventos) && visivel == old(visivel)
      {
        campos := campos[i := Habilitado(campos[i], h)];
        i := i + 1;
      }
    }

    /**
     * `_dispararEventoCustomizado(acao, { dados })`: the event goes on the
     * global footer, and is lost when there is none. `_onPrimeiro`,
     * `_onAnterior`, `_onProximo`, `_onUltimo` and `_onExcluir` do only this.
     */
    method Disparar(acao: string)
      modifies this
      ensures eventos == old(eventos) + (if temRodape then [EventoForm(acao, Mesclar(DadosDosCampos(campos), valoresSelects))] else [])
      ensures campos == old(campos) && conteudo == old(conteudo) && grupoBotoes == old(grupoBotoes)
      ensures botoesLigados == old(botoesLigados) && valoresSelects == old(valoresSelects) && visivel == old(visivel)
    {
      var dados := ObterDadosFormulario();
      if temRodape {
        eventos := eventos + [EventoForm(acao, dados)];
      }
    }

    /** `_onNovo`: dispatches 'novo' with the values as they were, then clears the fields. */
    method OnNovo()
      modifies this
      ensures eventos == old(eventos) + (if temRodape then [EventoForm("novo", Mesclar(DadosDosCampos(old(campos)), valoresSelects))] else [])
      ensures |campos| == |old(campos)| && forall j :: 0 <= j < |campos| ==> campos[j] == Limpo(old(campos)[j])
      ensures conteudo == old(conteudo) && visivel == old(visivel) && valoresSelects == old(valoresSelects)
    {
      Disparar("novo");
      LimparCampos();
    }

    /** `_onEditar`: dispatches 'editar', then enables every field. */
    method OnEditar()
      modifies this
      ensures eventos == old(eventos) + (if temRodape then [EventoForm("editar", Mesclar(DadosDosCampos(old(campos)), valoresSelects))] else [])
      ensures |campos| == |old(campos)| && forall j :: 0 <= j < |campos| ==> campos[j] == Habilitado(old(campos)[j], true)
      ensures conteudo == old(conteudo) && visivel == old(visivel) && valoresSelects == old(valoresSelects)
    {
      Disparar("editar");
      HabilitarCampos(true);
    }

    /** `validarEDados`: a placeholder that accepts every form. */
    predicate ValidarEDados() {
      true
    }

    /** `_onSalvar`: dispatches 'salvar' when `validarEDados` holds, which is always. */
    method OnSalvar()
      modifies this
      ensures eventos == old(eventos) + (if temRodape then [EventoForm("salvar", Mesclar(DadosDosCampos(campos), valoresSelects))] else [])
      ensures campos == old(campos) && conteudo == old(conteudo) && visivel == old(visivel)
    {
      if ValidarEDados() {
        Disparar("salvar");
      }
    }

    /** `_onEncerrar`: dispatches 'encerrar', then hides the form. */
    method OnEncerrar()
      modifies this
      ensures eventos == old(eventos) + (if temRodape then [EventoForm("encerrar", Mesclar(DadosDosCampos(campos), valoresSelects))] else [])
      ensures campos == old(campos) && conteudo == old(conteudo) && !visivel
    {
      Disparar("encerrar");
      visivel := false;
    }

    /** `addField`: appends a field. */
    method AdicionarCampo(c: Option<Controle>)
      modifies this
      ensures campos == old(campos) + [c]
      ensures conteudo == old(conteudo) && eventos == old(eventos) && visivel == old(visivel)
      ensures valoresSelects == old(valoresSelects) && botoesLigados == old(botoesLigados)
    {
      campos := campos + [c];
    }
  }
}
