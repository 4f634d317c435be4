/**
 * `CriarBotoes`: a bar of up to three button groups switched on by a
 * three-element 'S'/'N' array. Position 0 is the Encerrar group, 1 the
 * navigation group, 2 the CRUD group; the HTML lists them CRUD first.
 * The map from button id to element is filled only when the bar is
 * inserted into a container.
 */
module Botoes {
  import opened JsCommon

  datatype Grupo = GrupoEncerrar | GrupoNavegacao | GrupoCrud

  datatype ErroBotoes =
    | NaoEhArrayDeTres     // not an array, or length other than 3
    | ElementoInvalido     // an element that is not the string 'S' or 'N'

  /** The argument handed to an insertion: an id to look up, an element, or anything else. */
  datatype Container = PorId(id: string, encontrado: bool) | Elemento | Invalido

  datatype ErroInsercao = ContainerNaoEncontrado(id: string) | ContainerInvalido

  /** The `botao-clicado` event a mapped, enabled button dispatches. */
  datatype EventoBotao = BotaoClicado(botaoId: string, acao: string, grupo: string)

  /** Every button id, in the order `_mapearElementos` looks them up. */
  const TodosBotoes: seq<string> := [
    "btn_encerrar", "btn_primeiro", "btn_recua", "btn_avanca",
    "btn_ultimo", "btn_editar", "btn_incluir", "btn_salvar", "btn_deletar"
  ]

  predicate EhSouN(v: Scalar) { v == Str("S") || v == Str("N") }

  /**
   * `_validarParametros`: the length check comes first, then the element
   * check; a valid argument is kept as the array of its strings.
   */
  function ValidarParametros(arg: Option<seq<Scalar>>): (r: Result<seq<string>, ErroBotoes>)
    ensures r == Failure(NaoEhArrayDeTres) <==> arg.None? || |arg.value| != 3
    ensures r == Failure(ElementoInvalido) <==>
              arg.Some? && |arg.value| == 3 && exists i :: 0 <= i < 3 && !EhSouN(arg.value[i])
    ensures r.Success? ==>
              |r.value| == 3 && forall i :: 0 <= i < 3 ==> arg.value[i] == Str(r.value[i]) && r.value[i] in {"S", "N"}
  {
    if arg.None? || |arg.value| != 3 then Failure(NaoEhArrayDeTres)
    else if !(forall i :: 0 <= i < 3 ==> EhSouN(arg.value[i])) then Failure(ElementoInvalido)
    else Success([arg.value[0].s, arg.value[1].s, arg.value[2].s])
  }

  /** The three-element arrays of 'S'/'N' that the constructor accepts. */
  predicate GrupoValido(g: seq<string>) {
    |g| == 3 && forall i :: 0 <= i < 3 ==> g[i] in {"S", "N"}
  }

  /** `_inicializar`: the names `grupo1`..`grupo3` of the active groups, in array order. */
  function GruposAtivos(g: seq<string>): (r: seq<string>)
    requires GrupoValido(g)
    ensures NoDuplicates(r) && |r| <= 3
    ensures "grupo1" in r <==> g[0] == "S"
    ensures "grupo2" in r <==> g[1] == "S"
    ensures "grupo3" in r <==> g[2] == "S"
    ensures forall x :: x in r ==> x == "grupo1" || x == "grupo2" || x == "grupo3"
  {
    var a := if g[0] == "S" then ["grupo1"] else [];
    var b := if g[1] == "S" then ["grupo2"] else [];
    var c := if g[2] == "S" then ["grupo3"] else [];
    a + b + c
  }

  /** The `data-grupo` attribute of each group. */
  function NomeGrupo(gr: Grupo): string {
    match gr
    case GrupoEncerrar => "grupoBtn01"
    case GrupoNavegacao => "grupoBtn02"
    case GrupoCrud => "grupoBtn03"
  }

  function IdsDoGrupo(gr: Grupo): seq<string> {
    match gr
    case GrupoEncerrar => ["btn_encerrar"]
    case GrupoNavegacao => ["btn_primeiro", "btn_recua", "btn_avanca", "btn_ultimo"]
    case GrupoCrud => ["btn_editar", "btn_incluir", "btn_salvar", "btn_deletar"]
  }

  /** The group a button id belongs to, and its `data-acao`. */
  function GrupoDoBotao(id: string): (r: Option<Grupo>)
    ensures r.Some? <==> id in TodosBotoes
    ensures r.Some? ==> id in IdsDoGrupo(r.value)
  {
    if id == "btn_encerrar" then Some(GrupoEncerrar)
    else if id in ["btn_primeiro", "btn_recua", "btn_avanca", "btn_ultimo"] then Some(GrupoNavegacao)
    else if id in ["btn_editar", "btn_incluir", "btn_salvar", "btn_deletar"] then Some(GrupoCrud)
    else None
  }

  /** `data-acao` is the id without its `btn_` prefix. */
  function AcaoDoBotao(id: string): (r: string)
    requires id in TodosBotoes
    ensures "btn_" + r == id
  {
    id[4..]
  }

  /** `gerarHTML`: the groups that appear, left to right. */
  function GerarHTML(g: seq<string>): (r: seq<Grupo>)
    requires GrupoValido(g)
    ensures GrupoCrud in r <==> g[2] == "S"
    ensures GrupoNavegacao in r <==> g[1] == "S"
    ensures GrupoEncerrar in r <==> g[0] == "S"
    ensures NoDuplicates(r)
    // CRUD comes before navigation, which comes before Encerrar.
    ensures forall i, j :: 0 <= i < |r| && 0 <= j < |r| && r[i] == GrupoCrud && r[j] != GrupoCrud ==> i < j
    ensures forall i, j :: 0 <= i < |r| && 0 <= j < |r| && r[i] == GrupoNavegacao && r[j] == GrupoEncerrar ==> i < j
  {
    (if g[2] == "S" then [GrupoCrud] else [])
    + (if g[1] == "S" then [GrupoNavegacao] else [])
    + (if g[0] == "S" then [GrupoEncerrar] else [])
  }

  /** The button ids of a sequence of groups, in document order. */
  function IdsGerados(gs: seq<Grupo>): seq<string> {
    if gs == [] then [] else IdsDoGrupo(gs[0]) + IdsGerados(gs[1..])
  }

  /** A button appears in the generated HTML exactly when its group is switched on. */
  lemma {:induction false} IdGeradoSseGrupoAtivo(gs: seq<Grupo>, id: string)
    ensures id in IdsGerados(gs) <==> exists k :: 0 <= k < |gs| && id in IdsDoGrupo(gs[k])
  {
    if gs != [] {
      IdGeradoSseGrupoAtivo(gs[1..], id);
      if id in IdsGerados(gs[1..]) {
        var k :| 0 <= k < |gs[1..]| && id in IdsDoGrupo(gs[1..][k]);
        assert id in IdsDoGrupo(gs[k + 1]);
      }
      if exists k :: 0 <= k < |gs| && id in IdsDoGrupo(gs[k]) {
        var k :| 0 <= k < |gs| && id in IdsDoGrupo(gs[k]);
        if k > 0 { assert id in IdsDoGrupo(gs[1..][k - 1]); }
      }
    }
  }

  class CriarBotoes {
    var grupoBotoes: seq<string>
    /** `botoesElementos`: the mapped buttons, each with its `disabled` flag. */
    var botoesElementos: map<string, bool>

    ghost predicate Valid()
      reads this
    {
      GrupoValido(grupoBotoes) && forall id :: id in botoesElementos ==> id in TodosBotoes
    }

    constructor(g: seq<string>)
      requires GrupoValido(g)
      ensures Valid()
      ensures grupoBotoes == g && botoesElementos == map[]
    {
      grupoBotoes := g;
      botoesElementos := map[];
    }

    /** `new CriarBotoes(arg)`: throws what `_validarParametros` throws. */
    static method Criar(arg: Option<seq<Scalar>>) returns (r: Result<CriarBotoes, ErroBotoes>)
      ensures ValidarParametros(arg).Failure? ==> r == Failure(ValidarParametros(arg).error)
      ensures ValidarParametros(arg).Success? ==>
                r.Success? && fresh(r.value) && r.value.Valid()
                && r.value.grupoBotoes == ValidarParametros(arg).value && r.value.botoesElementos == map[]
    {
      var v := ValidarParametros(arg);
      if v.Failure? {
        return Failure(v.error);
      }
      var b := new CriarBotoes(v.value);
      return Success(b);
    }

    /**
     * `inserirEm`: writes the HTML into the container and then maps, in
     * `TodosBotoes` order, every button now present; mapped buttons start
     * enabled. Buttons mapped by an earlier insertion stay mapped.
     */
    method InserirEm(c: Container) returns (erro: Option<ErroInsercao>)
      requires Valid()
      modifies this
      ensures Valid() && grupoBotoes == old(grupoBotoes)
      ensures c.PorId? && !c.encontrado ==> erro == Some(ContainerNaoEncontrado(c.id))
      ensures c.Invalido? ==> erro == Some(ContainerInvalido)
      ensures erro.Some? ==> botoesElementos == old(botoesElementos)
      ensures erro.None? <==> c.Elemento? || (c.PorId? && c.encontrado)
      ensures erro.None? ==>
                (forall id :: id in botoesElementos <==>
                   id in old(botoesElementos) || id in IdsGerados(GerarHTML(grupoBotoes)))
                && (forall id :: id in IdsGerados(GerarHTML(grupoBotoes)) ==> !botoesElementos[id])
                && (forall id :: id in old(botoesElementos) && id !in IdsGerados(GerarHTML(grupoBotoes)) ==>
                       botoesElementos[id] == old(botoesElementos)[id])
    {
      if c.PorId? && !c.encontrado {
        return Some(ContainerNaoEncontrado(c.id));
      }
      if c.Invalido? {
        return Some(ContainerInvalido);
      }
      var presentes := IdsGerados(GerarHTML(grupoBotoes));
      botoesElementos := Mapear(botoesElementos, presentes, TodosBotoes);
      forall id | id in presentes
        ensures id in TodosBotoes
      {
        IdGeradoSseGrupoAtivo(GerarHTML(grupoBotoes), id);
      }
      return None;
    }

    /**
     * The loop of `inserirEm` over `ordem`: each id of `ordem` that is
     * present in the container is mapped, enabled; other entries are kept.
     */
    static method Mapear(antes: map<string, bool>, presentes: seq<string>, ordem: seq<string>)
      returns (depois: map<string, bool>)
      ensures forall id :: id in depois <==> id in antes || (id in presentes && id in ordem)
      ensures forall id :: id in presentes && id in ordem ==> !depois[id]
      ensures forall id :: id in antes && !(id in presentes && id in ordem) ==> depois[id] == antes[id]
    {
      depois := antes;
      var i := 0;
      while i < |ordem|
        invariant 0 <= i <= |ordem|
        invariant forall id :: id in depois <==> id in antes || (id in presentes && id in ordem[..i])
        invariant forall id :: id in presentes && id in ordem[..i] ==> !depois[id]
        invariant forall id :: id in antes && !(id in presentes && id in ordem[..i]) ==> depois[id] == antes[id]
      {
        var id := ordem[i];
        PrefixStep(ordem, i);
        if id in presentes {
          depois := depois[id := false];
        }
        i := i + 1;
      }
      assert ordem[..i] == ordem;
    }

    /** `obterElementoBotao`: the mapped element (its `disabled` flag) or null. */
    function ObterElementoBotao(id: string): (r: Option<bool>)
      reads this
      ensures r.Some? <==> id in botoesElementos
      ensures r.Some? ==> r.value == botoesElementos[id]
    {
      if id in botoesElementos then Some(botoesElementos[id]) else None
    }

    /** `habilitarBotao`: succeeds exactly for a mapped button, which then is enabled iff `habilitado`. */
    method HabilitarBotao(id: string, habilitado: bool) returns (ok: bool)
      requires Valid()
      modifies this
      ensures Valid() && grupoBotoes == old(grupoBotoes)
      ensures ok <==> id in old(botoesElementos)
      ensures ok ==> botoesElementos == old(botoesElementos)[id := !habilitado]
      ensures !ok ==> botoesElementos == old(botoesElementos)
    {
      if ObterElementoBotao(id).Some? {
        botoesElementos := botoesElementos[id := !habilitado];
        return true;
      }
      return false;
    }

    /**
     * A click on a button: only a mapped button has a click listener, and a
     * disabled button receives no clicks.
     */
    method Clicar(id: string) returns (ev: Option<EventoBotao>)
      requires Valid()
      ensures ev.Some? <==> id in botoesElementos && !botoesElementos[id]
      ensures ev.Some? ==>
                id in TodosBotoes && ev.value.botaoId == id && "btn_" + ev.value.acao == id
                && ev.value.grupo == NomeGrupo(GrupoDoBotao(id).value)
    {
      if id in botoesElementos && !botoesElementos[id] {
        var gr := GrupoDoBotao(id);
        return Some(BotaoClicado(id, AcaoDoBotao(id), NomeGrupo(gr.value)));
      }
      return None;
    }
  }
}
