/**
 * The menu bar (`CriarMenuAplicacao`, and `BarraDeBotoes`, which renders
 * the same way into `app`) and the part of the document the menus touch:
 * the menu divs by id, each with its display and its buttons.
 */
module MenuAplicacao {
  import opened JsCommon

  /** `flexDirection` of a bar. */
  datatype Direcao = Linha | Coluna

  /** A rendered button: its id, its text, and the label its click reports. */
  datatype Botao = Botao(id: string, texto: string, rotulo: string)

  /** A menu div: shown (`display` other than 'none'), its direction, its buttons in order. */
  datatype Barra = Barra(visivel: bool, direcao: Direcao, botoes: seq<Botao>)

  /** The `detail` of a `botao-clicado` event. */
  datatype Clique = Clique(rotulo: string, indice: int, idDiv: string, idBotao: string)

  /** "vertical" lays the buttons out in a column; anything else in a row. */
  function DirecaoDe(orientacao: string): (r: Direcao)
    ensures r == Coluna <==> orientacao == "vertical"
  {
    if orientacao == "vertical" then Coluna else Linha
  }

  /** A button's id: `${idBase}-${label}`. */
  function IdDoBotao(idBase: string, rotulo: string): (r: string)
    ensures |r| == |idBase| + 1 + |rotulo| && r[..|idBase|] == idBase && r[|idBase|] == '-'
    ensures r[|idBase| + 1..] == rotulo
  {
    idBase + "-" + rotulo
  }

  /** With one prefix, distinct labels give distinct ids. */
  lemma IdsInjetivos(idBase: string, a: string, b: string)
    requires IdDoBotao(idBase, a) == IdDoBotao(idBase, b)
    ensures a == b
  {
    assert a == IdDoBotao(idBase, a)[|idBase| + 1..];
  }

  /** `label.charAt(0).toUpperCase() + label.slice(1)`, on ASCII letters (`label` is reserved in Dafny, so the label is `rotulo`). */
  function TextoDoBotao(rotulo: string): (r: string)
    ensures |r| == |rotulo|
    ensures rotulo != "" ==> r[0] == UpperChar(rotulo[0]) && r[1..] == rotulo[1..]
  {
    if rotulo == "" then "" else [UpperChar(rotulo[0])] + rotulo[1..]
  }

  /** Capitalising a capitalised text changes nothing. */
  lemma TextoIdempotente(rotulo: string)
    ensures TextoDoBotao(TextoDoBotao(rotulo)) == TextoDoBotao(rotulo)
  {
    if rotulo != "" {
      var t := TextoDoBotao(rotulo);
      assert UpperChar(t[0]) == t[0];
      assert TextoDoBotao(t) == [t[0]] + t[1..];
    }
  }

  /** The button the loop creates for label i. */
  function BotaoDe(idBase: string, rotulo: string): (b: Botao)
    ensures b.rotulo == rotulo && b.id == IdDoBotao(idBase, rotulo) && b.texto == TextoDoBotao(rotulo)
  {
    Botao(IdDoBotao(idBase, rotulo), TextoDoBotao(rotulo), rotulo)
  }

  /** The labels of a bar's buttons, in order. */
  function Labels(bs: seq<Botao>): (r: seq<string>)
    ensures |r| == |bs| && forall i :: 0 <= i < |bs| ==> r[i] == bs[i].rotulo
  {
    if bs == [] then [] else [bs[0].rotulo] + Labels(bs[1..])
  }

  /**
   * The click of button i: its label, `labels.indexOf(label)` (the first
   * position holding that label), the bar and the button id.
   */
  function CliqueEm(labels: seq<string>, idDiv: string, idBase: string, i: nat): (c: Clique)
    requires i < |labels|
    ensures c.rotulo == labels[i] && c.idDiv == idDiv && c.idBotao == IdDoBotao(idBase, labels[i])
    ensures 0 <= c.indice <= i && labels[c.indice] == labels[i]
    ensures forall j :: 0 <= j < c.indice ==> labels[j] != labels[i]
  {
    Clique(labels[i], IndexOf(labels, labels[i]), idDiv, IdDoBotao(idBase, labels[i]))
  }

  /** Repeated labels all report the index of the first; distinct labels report their own position. */
  lemma IndiceDoClique(labels: seq<string>, idDiv: string, idBase: string, i: nat, j: nat)
    requires i < |labels| && j < |labels|
    ensures labels[i] == labels[j] ==> CliqueEm(labels, idDiv, idBase, i).indice == CliqueEm(labels, idDiv, idBase, j).indice
    ensures NoDuplicates(labels) ==> CliqueEm(labels, idDiv, idBase, i).indice == i
  {
  }

  /** The menu divs after `display` is set on `id`, when it is one of them. */
  function ComExibicao(barras: map<string, Barra>, id: string, visivel: bool): (r: map<string, Barra>)
    ensures r.Keys == barras.Keys
    ensures forall k :: k in r && k != id ==> r[k] == barras[k]
    ensures id in r ==> r[id] == barras[id].(visivel := visivel)
  {
    if id in barras then barras[id := barras[id].(visivel := visivel)] else barras
  }

  /** The elements of the page the menus use. */
  class Documento {
    /** The menu divs, by id. */
    var barras: map<string, Barra>
    /** The ids of the other elements present ('app', 'divMenu', ...). */
    const conteineres: set<string>
    /** The application functions the menu handlers called, oldest first. */
    var chamadas: seq<string>

    constructor(cs: set<string>)
      ensures barras == map[] && conteineres == cs && chamadas == []
    {
      barras := map[];
      conteineres := cs;
      chamadas := [];
    }

    /** `document.getElementById(id)` finds an element. */
    predicate Existe(id: string)
      reads this
    {
      id in barras || id in conteineres
    }

    /**
     * `document.getElementById(id).style.display = ...`: false when there is
     * no such element, where the write throws a TypeError. Only a menu div's
     * display is tracked.
     */
    method DefinirExibicao(id: string, visivel: bool) returns (ok: bool)
      modifies this
      ensures ok <==> old(Existe(id))
      ensures barras == ComExibicao(old(barras), id, visivel)
      ensures chamadas == old(chamadas)
    {
      ok := Existe(id);
      if id in barras {
        barras := barras[id := barras[id].(visivel := visivel)];
      }
    }

    /** The menu divs after the statements `display` of `id1` and then of `id2`: when `id1` is missing the first throws and the second never runs. */
    function AposDuas(id1: string, v1: bool, id2: string, v2: bool): (r: map<string, Barra>)
      reads this
      ensures r.Keys == barras.Keys
      ensures forall k :: k in r && k != id1 && k != id2 ==> r[k] == barras[k]
    {
      if Existe(id1) then ComExibicao(ComExibicao(barras, id1, v1), id2, v2) else barras
    }

    /** Two `display` statements in a row; false when either element is missing and its statement throws. */
    method DefinirDuas(id1: string, v1: bool, id2: string, v2: bool) returns (ok: bool)
      modifies this
      ensures ok <==> old(Existe(id1)) && old(Existe(id2))
      ensures barras == old(AposDuas(id1, v1, id2, v2))
      ensures chamadas == old(chamadas)
    {
      ok := DefinirExibicao(id1, v1);
      if ok {
        ok := DefinirExibicao(id2, v2);
      }
    }

    /** An application function called by a handler. */
    method Chamar(nome: string)
      modifies this
      ensures chamadas == old(chamadas) + [nome] && barras == old(barras)
    {
      chamadas := chamadas + [nome];
    }
  }

  /**
   * A bar of menu buttons. `CriarMenuAplicacao` places a missing div in
   * 'divMenu'; `BarraDeBotoes` places it in 'app'.
   */
  class CriarMenuAplicacao {
    const labels: seq<string>
    const orientacao: string
    const idDiv: string
    const idBase: string
    /** The element a missing div is appended to. */
    const pai: string

    /** `new CriarMenuAplicacao(labels, orientacao, idDiv, idBase)`; the defaults are "horizontal", "divMenu" and "cmd". */
    constructor(ls: seq<string>, o: Option<string>, div: Option<string>, base: Option<string>)
      ensures labels == ls && pai == "divMenu"
      ensures orientacao == (if o.Some? then o.value else "horizontal")
      ensures idDiv == (if div.Some? then div.value else "divMenu")
      ensures idBase == (if base.Some? then base.value else "cmd")
    {
      labels := ls;
      orientacao := if o.Some? then o.value else "horizontal";
      idDiv := if div.Some? then div.value else "divMenu";
      idBase := if base.Some? then base.value else "cmd";
      pai := "divMenu";
    }

    /** `new BarraDeBotoes(labels, orientacao, idDiv, idBase)`. */
    constructor BarraDeBotoes(ls: seq<string>, o: string, div: string, base: string)
      ensures labels == ls && orientacao == o && idDiv == div && idBase == base && pai == "app"
    {
      labels := ls;
      orientacao := o;
      idDiv := div;
      idBase := base;
      pai := "app";
    }

    /** The `forEach` that creates one button per label, in label order. */
    static method CriarBotoes(labels: seq<string>, idBase: string) returns (bs: seq<Botao>)
      ensures |bs| == |labels|
      ensures forall i :: 0 <= i < |labels| ==> bs[i] == BotaoDe(idBase, labels[i])
      ensures Labels(bs) == labels
    {
      bs := [];
      var i := 0;
      while i < |labels|
        invariant 0 <= i <= |labels| && |bs| == i
        invariant forall k :: 0 <= k < i ==> bs[k] == BotaoDe(idBase, labels[k])
      {
        bs := bs + [BotaoDe(idBase, labels[i])];
        i := i + 1;
      }
    }

    /**
     * `renderizar`: without the div and without its parent nothing is
     * rendered; otherwise the div is emptied, shown with the orientation's
     * direction and filled with one button per label.
     */
    method Renderizar(doc: Documento)
      modifies doc
      ensures !old(doc.Existe(idDiv)) && !old(doc.Existe(pai)) ==> doc.barras == old(doc.barras)
      ensures old(doc.Existe(idDiv)) || old(doc.Existe(pai)) ==>
                idDiv in doc.barras && doc.barras == old(doc.barras)[idDiv := doc.barras[idDiv]]
                && doc.barras[idDiv].visivel && doc.barras[idDiv].direcao == DirecaoDe(orientacao)
                && |doc.barras[idDiv].botoes| == |labels| && Labels(doc.barras[idDiv].botoes) == labels
                && forall i :: 0 <= i < |labels| ==> doc.barras[idDiv].botoes[i] == BotaoDe(idBase, labels[i])
      ensures doc.chamadas == old(doc.chamadas)
    {
      if !doc.Existe(idDiv) && !doc.Existe(pai) {
        return;
      }
      var bs := CriarBotoes(labels, idBase);
      doc.barras := doc.barras[idDiv := Barra(true, DirecaoDe(orientacao), bs)];
    }

    /** The `onclick` of button i. */
    function Clicar(i: nat): (c: Clique)
      requires i < |labels|
      ensures c == CliqueEm(labels, idDiv, idBase, i)
      ensures c.rotulo == labels[i]
    {
      CliqueEm(labels, idDiv, idBase, i)
    }
  }
}
