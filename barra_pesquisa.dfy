/**
 * `BarraDePesquisa`: a row of dependent comboboxes and an Executar button.
 * Each combo is a record in the `combos` map, keyed by its name; the
 * events the bar dispatches are appended to `eventos`.
 */
module BarraPesquisa {
  import opened JsCommon

  /** A rendered select: its creation index, options, `disabled` flag and current `value`. */
  datatype Combo = Combo(idx: nat, opcoes: seq<Opcao>, disabled: bool, valor: string)

  datatype Evento =
    | PreencherPrimeiraCombox
    | PreencherCombox(nome: string, filtro: seq<string>)
    | ExecutarPesquisa(filtro: seq<string>)

  /** `flexDirection`: "vertical" gives column, anything else row. */
  function Direcao(orientacao: string): (r: string)
    ensures r == "column" <==> orientacao == "vertical"
    ensures r == "row" <==> orientacao != "vertical"
  {
    if orientacao == "vertical" then "column" else "row"
  }

  /** The last position holding `x`: the select `combos[x]` ends up naming. */
  function UltimoIndice(s: seq<string>, x: string): (r: nat)
    requires x in s
    ensures r < |s| && s[r] == x && forall j :: r < j < |s| ==> s[j] != x
  {
    if s[|s| - 1] == x then |s| - 1
    else
      assert x in s[..|s| - 1] by {
        var k :| 0 <= k < |s| && s[k] == x;
        assert s[..|s| - 1][k] == x;
      }
      UltimoIndice(s[..|s| - 1], x)
  }

  lemma UltimoIndiceSemDuplicatas(s: seq<string>, i: int)
    requires NoDuplicates(s) && 0 <= i < |s|
    ensures UltimoIndice(s, s[i]) == i
  {
  }

  lemma UltimoIndicePasso(s: seq<string>, i: int, x: string)
    requires 0 <= i < |s| && x in s[..i + 1]
    ensures UltimoIndice(s[..i + 1], x) == if s[i] == x then i else UltimoIndice(s[..i], x)
  {
    if s[i] != x {
      assert s[..i + 1][..i] == s[..i];
    }
  }

  /** A select as `renderizar` creates it: only the first one enabled. */
  function ComboInicial(idx: nat): (c: Combo)
    ensures c.opcoes == [] && c.valor == "" && c.idx == idx
    ensures c.disabled <==> idx > 0
  {
    Combo(idx, [], idx > 0, "")
  }

  /** `innerHTML = ""` and `disabled = true`. */
  function ComboLimpa(c: Combo): (r: Combo)
    ensures r.opcoes == [] && r.valor == "" && r.disabled && r.idx == c.idx
  {
    c.(opcoes := [], disabled := true, valor := "")
  }

  /** The options `popularCombox` writes: an optional ('', 'Todas'), then each value as value and text. */
  function OpcoesCombox(dados: seq<string>, todas: bool): (r: seq<Opcao>)
    ensures |r| == |dados| + (if todas then 1 else 0)
    ensures todas ==> r[0] == Opcao("", "Todas")
    ensures forall k :: 0 <= k < |dados| ==> r[k + (if todas then 1 else 0)] == Opcao(dados[k], dados[k])
  {
    (if todas then [Opcao("", "Todas")] else []) + seq(|dados|, k requires 0 <= k < |dados| => Opcao(dados[k], dados[k]))
  }

  /** One more value gives one more option at the end. */
  lemma OpcoesComboxPasso(dados: seq<string>, k: nat, todas: bool)
    requires k < |dados|
    ensures OpcoesCombox(dados[..k + 1], todas) == OpcoesCombox(dados[..k], todas) + [Opcao(dados[k], dados[k])]
  {
    var a := OpcoesCombox(dados[..k + 1], todas);
    var b := OpcoesCombox(dados[..k], todas) + [Opcao(dados[k], dados[k])];
    var d := if todas then 1 else 0;
    assert |a| == |b|;
    forall j | 0 <= j < |a|
      ensures a[j] == b[j]
    {
      if j >= d {
        assert dados[..k + 1][j - d] == dados[j - d];
      }
    }
  }

  /** The value of a select whose options were just written: its first option's, or ''. */
  function ValorSelecionado(ops: seq<Opcao>): (r: string)
    ensures ops == [] ==> r == ""
    ensures ops != [] ==> r == ops[0].valor
  {
    if ops == [] then "" else ops[0].valor
  }

  /**
   * `_getFiltro(q)`: the values of the first `q` combos, in `CBoxes` order
   * (`slice` stops at the end of the list).
   */
  function Filtro(cboxes: seq<string>, combos: map<string, Combo>, q: nat): (r: seq<string>)
    requires forall i :: 0 <= i < |cboxes| ==> cboxes[i] in combos
    ensures |r| == if q < |cboxes| then q else |cboxes|
    ensures forall i :: 0 <= i < |r| ==> r[i] == combos[cboxes[i]].valor
  {
    if q == 0 || cboxes == [] then []
    else [combos[cboxes[0]].valor] + Filtro(cboxes[1..], combos, q - 1)
  }

  /** A shorter filter is a prefix of a longer one. */
  lemma FiltroPrefixo(cboxes: seq<string>, combos: map<string, Combo>, p: nat, q: nat)
    requires forall i :: 0 <= i < |cboxes| ==> cboxes[i] in combos
    requires p <= q
    ensures Filtro(cboxes, combos, p) == Filtro(cboxes, combos, q)[..|Filtro(cboxes, combos, p)|]
  {
  }

  class BarraDePesquisa {
    var cboxes: seq<string>
    var orientacao: string
    var combos: map<string, Combo>
    /** `btnExecutar`: None before rendering, then its `disabled` flag. */
    var executar: Option<bool>
    var eventos: seq<Evento>

    /** Rendered: the button exists and every name has its select. */
    predicate Renderizada()
      reads this
    {
      executar.Some? && forall i :: 0 <= i < |cboxes| ==> cboxes[i] in combos
    }

    constructor(cboxes: seq<string>, orientacao: string)
      ensures this.cboxes == cboxes && this.orientacao == orientacao
      ensures combos == map[] && executar == None && eventos == []
    {
      this.cboxes, this.orientacao := cboxes, orientacao;
      combos, executar, eventos := map[], None, [];
    }

    /**
     * `renderizar`; `containerExiste` is whether the div or, failing it,
     * the 'app' container exists. Each name maps to the last select created
     * under it; names of an earlier rendering stay in `combos`.
     */
    method Renderizar(containerExiste: bool)
      modifies this
      ensures cboxes == old(cboxes) && orientacao == old(orientacao)
      ensures !containerExiste ==> combos == old(combos) && executar == old(executar) && eventos == old(eventos)
      ensures containerExiste ==>
                Renderizada() && executar == Some(true) && eventos == old(eventos) + [PreencherPrimeiraCombox]
                && (forall n :: n in combos <==> n in old(combos) || n in cboxes)
                && (forall n :: n in cboxes ==> combos[n] == ComboInicial(UltimoIndice(cboxes, n)))
                && (forall n :: n in old(combos) && n !in cboxes ==> combos[n] == old(combos)[n])
      ensures containerExiste && NoDuplicates(cboxes) ==>
                forall i :: 0 <= i < |cboxes| ==> combos[cboxes[i]].idx == i && (combos[cboxes[i]].disabled <==> i > 0)
    {
      if !containerExiste {
        return;
      }
      var idx := 0;
      while idx < |cboxes|
        invariant 0 <= idx <= |cboxes|
        invariant cboxes == old(cboxes) && orientacao == old(orientacao) && eventos == old(eventos)
        invariant forall n :: n in combos <==> n in old(combos) || n in cboxes[..idx]
        invariant forall n :: n in cboxes[..idx] ==> combos[n] == ComboInicial(UltimoIndice(cboxes[..idx], n))
        invariant forall n :: n in old(combos) && n !in cboxes[..idx] ==> combos[n] == old(combos)[n]
      {
        var nome := cboxes[idx];
        assert cboxes[..idx + 1] == cboxes[..idx] + [nome];
        forall n | n in cboxes[..idx + 1]
          ensures UltimoIndice(cboxes[..idx + 1], n) == if nome == n then idx else UltimoIndice(cboxes[..idx], n)
        {
          UltimoIndicePasso(cboxes, idx, n);
        }
        combos := combos[nome := ComboInicial(idx)];
        idx := idx + 1;
      }
      assert cboxes[..idx] == cboxes;
      executar := Some(true);
      eventos := eventos + [PreencherPrimeiraCombox];
      forall i | 0 <= i < |cboxes|
        ensures cboxes[i] in combos
      {
        assert cboxes[i] in cboxes;
      }
      if NoDuplicates(cboxes) {
        forall i | 0 <= i < |cboxes|
          ensures combos[cboxes[i]].idx == i && (combos[cboxes[i]].disabled <==> i > 0)
        {
          UltimoIndiceSemDuplicatas(cboxes, i);
        }
      }
    }

    /** `popularCombox`: an unknown name does nothing; otherwise the options are replaced and the combo enabled. */
    method PopularCombox(nome: string, dados: seq<string>, todas: bool)
      modifies this
      ensures cboxes == old(cboxes) && executar == old(executar) && eventos == old(eventos)
      ensures nome !in old(combos) ==> combos == old(combos)
      ensures nome in old(combos) ==>
                combos == old(combos)[nome := old(combos)[nome].(opcoes := OpcoesCombox(dados, todas), disabled := false,
                                                                valor := ValorSelecionado(OpcoesCombox(dados, todas)))]
      ensures old(Renderizada()) ==> Renderizada()
    {
      if nome !in combos {
        return;
      }
      var opcoes := MontarOpcoes(dados, todas);
      combos := combos[nome := combos[nome].(opcoes := opcoes, disabled := false, valor := ValorSelecionado(opcoes))];
    }

    /** The option loop of `popularCombox`: the optional 'Todas' entry, then one option per value. */
    static method MontarOpcoes(dados: seq<string>, todas: bool) returns (opcoes: seq<Opcao>)
      ensures opcoes == OpcoesCombox(dados, todas)
    {
      opcoes := if todas then [Opcao("", "Todas")] else [];
      var k := 0;
      while k < |dados|
        invariant 0 <= k <= |dados|
        invariant opcoes == OpcoesCombox(dados[..k], todas)
      {
        OpcoesComboxPasso(dados, k, todas);
        opcoes := opcoes + [Opcao(dados[k], dados[k])];
        k := k + 1;
      }
      assert dados[..k] == dados;
    }

    /** The combos after position `idx`. */
    function Seguintes(idx: nat): seq<string>
      reads this
    {
      if idx + 1 <= |cboxes| then cboxes[idx + 1..] else []
    }

    /**
     * `_onComboChange` of the select created at `idx`: every later combo
     * is cleared and disabled; then either the next one is requested with
     * the values up to `idx`, or, at the last one, Executar is enabled.
     */
    method OnComboChange(idx: nat)
      requires Renderizada()
      modifies this
      ensures Renderizada() && cboxes == old(cboxes)
      ensures forall n :: n in combos <==> n in old(combos)
      ensures forall n :: n in old(combos) ==>
                combos[n] == if n in Seguintes(idx) then ComboLimpa(old(combos)[n]) else old(combos)[n]
      ensures idx + 1 < |cboxes| ==>
                eventos == old(eventos) + [PreencherCombox(cboxes[idx + 1], Filtro(cboxes, combos, idx + 1))] && executar == old(executar)
      ensures idx + 1 >= |cboxes| ==> eventos == old(eventos) && executar == Some(false)
      ensures old(executar) == Some(false) ==> executar == Some(false)
    {
      LimparSeguintes(idx);
      if idx + 1 < |cboxes| {
        eventos := eventos + [PreencherCombox(cboxes[idx + 1], Filtro(cboxes, combos, idx + 1))];
      } else {
        executar := Some(false);
      }
    }

    /** The loop of `_onComboChange`: every combo after `idx` is cleared and disabled. */
    method LimparSeguintes(idx: nat)
      requires Renderizada()
      modifies this
      ensures Renderizada() && cboxes == old(cboxes) && executar == old(executar) && eventos == old(eventos)
      ensures forall n :: n in combos <==> n in old(combos)
      ensures forall n :: n in old(combos) ==>
                combos[n] == if n in Seguintes(idx) then ComboLimpa(old(combos)[n]) else old(combos)[n]
    {
      if idx + 1 <= |cboxes| {
        var i := idx + 1;
        while i < |cboxes|
          invariant idx + 1 <= i <= |cboxes|
          invariant cboxes == old(cboxes) && executar == old(executar) && eventos == old(eventos)
          invariant forall n :: n in combos <==> n in old(combos)
          invariant forall n :: n in old(combos) ==>
                      combos[n] == if n in cboxes[idx + 1..i] then ComboLimpa(old(combos)[n]) else old(combos)[n]
        {
          var nome := cboxes[i];
          SliceStep(cboxes, idx + 1, i);
          combos := combos[nome := ComboLimpa(combos[nome])];
          i := i + 1;
        }
        assert cboxes[idx + 1..i] == Seguintes(idx);
      }
    }

    /** With distinct names, the combos up to `idx` keep their state, so the request carries their old values. */
    lemma AnterioresIntactos(idx: nat, antes: map<string, Combo>)
      requires Renderizada() && NoDuplicates(cboxes)
      requires forall n :: n in combos <==> n in antes
      requires forall n :: n in antes ==> combos[n] == if n in Seguintes(idx) then ComboLimpa(antes[n]) else antes[n]
      ensures forall j :: 0 <= j <= idx && j < |cboxes| ==> combos[cboxes[j]] == antes[cboxes[j]]
    {
      forall j | 0 <= j <= idx && j < |cboxes|
        ensures combos[cboxes[j]] == antes[cboxes[j]]
      {
      }
    }

    /**
     * The user picks `valor` in the select named `nome`: accepted when the
     * select is enabled and offers that value. The browser fires `change`
     * only when the selected value actually changes; the listener then
     * runs `_onComboChange` for the select's position.
     */
    method Escolher(nome: string, valor: string) returns (aceito: bool)
      requires Renderizada()
      modifies this
      ensures Renderizada() && cboxes == old(cboxes)
      ensures aceito <==> nome in old(combos) && !old(combos)[nome].disabled
                          && exists k :: 0 <= k < |old(combos)[nome].opcoes| && old(combos)[nome].opcoes[k].valor == valor
      ensures !aceito || old(combos)[nome].valor == valor ==>
                combos == old(combos) && executar == old(executar) && eventos == old(eventos)
      ensures aceito && old(combos)[nome].valor != valor ==>
                var c := old(combos)[nome];
                var escolhido := old(combos)[nome := c.(valor := valor)];
                (forall n :: n in combos <==> n in escolhido)
                && (forall n :: n in escolhido ==>
                      combos[n] == if n in Seguintes(c.idx) then ComboLimpa(escolhido[n]) else escolhido[n])
                && (c.idx + 1 < |cboxes| ==>
                      eventos == old(eventos) + [PreencherCombox(cboxes[c.idx + 1], Filtro(cboxes, combos, c.idx + 1))]
                      && executar == old(executar))
                && (c.idx + 1 >= |cboxes| ==> eventos == old(eventos) && executar == Some(false))
      ensures old(executar) == Some(false) ==> executar == Some(false)
    {
      aceito := nome in combos && !combos[nome].disabled
                && exists k :: 0 <= k < |combos[nome].opcoes| && combos[nome].opcoes[k].valor == valor;
      if !aceito || combos[nome].valor == valor {
        return;
      }
      var idx := combos[nome].idx;
      combos := combos[nome := combos[nome].(valor := valor)];
      OnComboChange(idx);
    }

    /** `_onExecutar`: the full-length filter is sent. */
    method OnExecutar()
      requires Renderizada()
      modifies this
      ensures combos == old(combos) && cboxes == old(cboxes) && executar == old(executar)
      ensures eventos == old(eventos) + [ExecutarPesquisa(Filtro(cboxes, combos, |cboxes|))]
      ensures |Filtro(cboxes, combos, |cboxes|)| == |cboxes|
    {
      eventos := eventos + [ExecutarPesquisa(Filtro(cboxes, combos, |cboxes|))];
    }
  }

}
