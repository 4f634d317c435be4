/** The four menus of the page: their div ids and the labels `constroiMenus` renders. */
module IdsDeMenu {
  const Principal: string := "id_menu_principal"
  const Cadastro: string := "id_menu_cadastro"
  const Rel1: string := "id_menu_rel_1"
  const Rel2: string := "id_menu_rel_2"

  const LabelsPrincipal: seq<string> :=
    ["Extração de dados", "Reclassificar", "Cadastro", "Relatórios-1", "Relatórios-2", "Sair"]
  const LabelsCadastro: seq<string> := ["Classificação", "Dicas de classificação", "Retornar"]
  const LabelsRel1: seq<string> := ["Despesas", "Despesas recorrentes", "RDM", "RDMCC", "Retornar"]
  const LabelsRel2: seq<string> := ["RDMCC ANO", "RDMCC 12M", "Retornar"]
}

/**
 * `ui_menu.js`: builds the principal menu and its three submenus, binds
 * each menu div to its handler, and, with the four handlers, the state
 * machine of which menu is on screen.
 */
module UiMenu {
  import opened JsCommon
  import opened MenuAplicacao
  import opened IdsDeMenu
  import ListenerMenuPrincipal
  import ListenerMenuCadastro
  import ListenerRel01
  import ListenerRel02

  /** A menu of the page; it also names the handler bound to that menu's div. */
  datatype Tela = TelaPrincipal | TelaCadastro | TelaRel1 | TelaRel2

  /** The div of a menu. */
  function IdDe(t: Tela): (r: string)
    ensures r in IdsDosMenus
  {
    match t
    case TelaPrincipal => Principal
    case TelaCadastro => Cadastro
    case TelaRel1 => Rel1
    case TelaRel2 => Rel2
  }

  const IdsDosMenus: set<string> := {Principal, Cadastro, Rel1, Rel2}

  /** Distinct menus have distinct divs. */
  lemma IdsDistintos(t: Tela, u: Tela)
    ensures IdDe(t) == IdDe(u) <==> t == u
  {
  }

  /** The labels `constroiMenus` gives each menu. */
  function LabelsDe(t: Tela): (r: seq<string>)
    ensures t != TelaPrincipal ==> |r| >= 1 && r[|r| - 1] == "Retornar"
  {
    match t
    case TelaPrincipal => LabelsPrincipal
    case TelaCadastro => LabelsCadastro
    case TelaRel1 => LabelsRel1
    case TelaRel2 => LabelsRel2
  }

  /** The menu on screen after a click on `rotulo` in menu `t`, following the four handlers. */
  function Proximo(t: Tela, rotulo: string): (r: Tela)
    ensures t != TelaPrincipal ==> (r == TelaPrincipal <==> rotulo == "Retornar")
    ensures t != TelaPrincipal && r != TelaPrincipal ==> r == t
    ensures t == TelaPrincipal && r != t ==> rotulo in LabelsPrincipal
  {
    match t
    case TelaPrincipal =>
      if rotulo == "Relatórios-2" then TelaRel2
      else if rotulo == "Relatórios-1" then TelaRel1
      else if rotulo == "Cadastro" then TelaCadastro
      else TelaPrincipal
    case _ => if rotulo == "Retornar" then TelaPrincipal else t
  }

  /** A click on button i of the menu on screen; an index past its last button is no click. */
  function Passo(t: Tela, i: nat): (r: Tela)
    ensures i >= |LabelsDe(t)| ==> r == t
    ensures i < |LabelsDe(t)| ==> r == Proximo(t, LabelsDe(t)[i])
  {
    if i < |LabelsDe(t)| then Proximo(t, LabelsDe(t)[i]) else t
  }

  /** The menu on screen after the clicks `escolhas`, from `t`. */
  function Percorrer(t: Tela, escolhas: seq<nat>): Tela
    decreases |escolhas|
  {
    if escolhas == [] then t else Percorrer(Passo(t, escolhas[0]), escolhas[1..])
  }

  /** Each submenu opens from the principal menu by one of its buttons. */
  lemma SubmenusAlcancaveis()
    ensures Passo(TelaPrincipal, 2) == TelaCadastro
    ensures Passo(TelaPrincipal, 3) == TelaRel1
    ensures Passo(TelaPrincipal, 4) == TelaRel2
  {
  }

  /** In a submenu only the last button, "Retornar", leaves it, and it leads to the principal menu. */
  lemma SaidaDoSubmenu(s: Tela, i: nat)
    requires s != TelaPrincipal && i < |LabelsDe(s)|
    ensures Passo(s, i) == TelaPrincipal <==> i == |LabelsDe(s)| - 1
    ensures Passo(s, i) != TelaPrincipal ==> Passo(s, i) == s
  {
    var ls := LabelsDe(s);
    if i < |ls| - 1 {
      assert ls[i] != "Retornar";
    }
  }

  /** Opening a submenu and pressing its "Retornar" comes back to the principal menu. */
  lemma IdaEVolta(s: Tela, i: nat)
    requires i < |LabelsPrincipal| && Passo(TelaPrincipal, i) == s && s != TelaPrincipal
    ensures Percorrer(TelaPrincipal, [i, |LabelsDe(s)| - 1]) == TelaPrincipal
  {
    assert [i, |LabelsDe(s)| - 1][1..] == [|LabelsDe(s)| - 1];
    assert Percorrer(s, [|LabelsDe(s)| - 1]) == Percorrer(TelaPrincipal, []);
  }

  /** "Dicas de classificação" falls to the cadastro handler's default and leaves cadastro on screen. */
  lemma DicasSemEfeito()
    ensures Passo(TelaCadastro, 1) == TelaCadastro
  {
    ListenerMenuCadastro.DicasNaoCasa();
  }

  /** Exactly menu `t` is on screen: all four divs exist and only t's is shown. */
  predicate SoVisivel(barras: map<string, Barra>, t: Tela)
  {
    forall u: Tela :: IdDe(u) in barras && (barras[IdDe(u)].visivel <==> u == t)
  }

  /** All four divs exist holding the buttons of their labels. */
  predicate Renderizadas(barras: map<string, Barra>)
  {
    forall u: Tela :: IdDe(u) in barras && Labels(barras[IdDe(u)].botoes) == LabelsDe(u)
  }

  /** The same divs with the same buttons; only displays differ. */
  predicate MesmosBotoes(a: map<string, Barra>, b: map<string, Barra>)
  {
    a.Keys == b.Keys && forall k :: k in a ==> a[k].botoes == b[k].botoes
  }

  /** Display writes keep the buttons. */
  lemma ExibicaoMantemBotoes(b: map<string, Barra>, id: string, v: bool)
    ensures MesmosBotoes(ComExibicao(b, id, v), b)
  {
  }

  lemma RenderizadasMantidas(a: map<string, Barra>, b: map<string, Barra>)
    requires Renderizadas(b) && MesmosBotoes(a, b)
    ensures Renderizadas(a)
  {
    forall u: Tela
      ensures IdDe(u) in a && Labels(a[IdDe(u)].botoes) == LabelsDe(u)
    {
      assert IdDe(u) in b;
    }
  }

  /** Hiding the principal menu and then showing submenu s puts exactly s on screen. */
  lemma AbrirSubmenu(b: map<string, Barra>, s: Tela)
    requires SoVisivel(b, TelaPrincipal) && s != TelaPrincipal
    ensures Principal in b && IdDe(s) in b
    ensures SoVisivel(ComExibicao(ComExibicao(b, Principal, false), IdDe(s), true), s)
    ensures MesmosBotoes(ComExibicao(ComExibicao(b, Principal, false), IdDe(s), true), b)
  {
    assert IdDe(TelaPrincipal) in b && IdDe(s) in b;
    var r := ComExibicao(ComExibicao(b, Principal, false), IdDe(s), true);
    forall u: Tela
      ensures IdDe(u) in r && (r[IdDe(u)].visivel <==> u == s)
    {
      IdsDistintos(u, s);
      IdsDistintos(u, TelaPrincipal);
    }
    ExibicaoMantemBotoes(b, Principal, false);
    ExibicaoMantemBotoes(ComExibicao(b, Principal, false), IdDe(s), true);
  }

  /** Showing the principal menu and then hiding submenu s puts exactly the principal menu on screen. */
  lemma VoltarAoPrincipal(b: map<string, Barra>, s: Tela)
    requires SoVisivel(b, s) && s != TelaPrincipal
    ensures Principal in b && IdDe(s) in b
    ensures SoVisivel(ComExibicao(ComExibicao(b, Principal, true), IdDe(s), false), TelaPrincipal)
    ensures MesmosBotoes(ComExibicao(ComExibicao(b, Principal, true), IdDe(s), false), b)
  {
    assert IdDe(TelaPrincipal) in b && IdDe(s) in b;
    var r := ComExibicao(ComExibicao(b, Principal, true), IdDe(s), false);
    forall u: Tela
      ensures IdDe(u) in r && (r[IdDe(u)].visivel <==> u == TelaPrincipal)
    {
      IdsDistintos(u, s);
      IdsDistintos(u, TelaPrincipal);
    }
    ExibicaoMantemBotoes(b, Principal, true);
    ExibicaoMantemBotoes(ComExibicao(b, Principal, true), IdDe(s), false);
  }

  /**
   * `constroiMenus`: renders the four bars with their labels and hides
   * the three submenus; false when a hiding finds no element and throws.
   */
  method ConstroiMenus(doc: Documento) returns (ok: bool)
    modifies doc
    ensures doc.chamadas == old(doc.chamadas)
    ensures forall k :: k in old(doc.barras) && k !in IdsDosMenus ==> k in doc.barras && doc.barras[k] == old(doc.barras)[k]
    ensures old(doc.Existe("app")) ==> ok && SoVisivel(doc.barras, TelaPrincipal) && Renderizadas(doc.barras)
    ensures ok ==> forall s: Tela :: s != TelaPrincipal ==> IdDe(s) in doc.barras && !doc.barras[IdDe(s)].visivel
    ensures !old(doc.Existe("app")) && !old(doc.Existe(Cadastro)) ==> !ok
  {
    RenderizarPrincipal(doc);
    ok := RenderizarOculto(doc, LabelsCadastro, Cadastro);
    if !ok {
      return;
    }
    ok := RenderizarOculto(doc, LabelsRel1, Rel1);
    if !ok {
      return;
    }
    ok := RenderizarOculto(doc, LabelsRel2, Rel2);
    if ok {
      Construidas(doc.barras);
    }
  }

  /** The four divs as `constroiMenus` leaves them, one id at a time. */
  lemma Construidas(b: map<string, Barra>)
    requires Cadastro in b && !b[Cadastro].visivel && Labels(b[Cadastro].botoes) == LabelsCadastro
    requires Rel1 in b && !b[Rel1].visivel && Labels(b[Rel1].botoes) == LabelsRel1
    requires Rel2 in b && !b[Rel2].visivel && Labels(b[Rel2].botoes) == LabelsRel2
    ensures forall s: Tela :: s != TelaPrincipal ==> IdDe(s) in b && !b[IdDe(s)].visivel
    ensures Principal in b && b[Principal].visivel && Labels(b[Principal].botoes) == LabelsPrincipal ==>
              SoVisivel(b, TelaPrincipal) && Renderizadas(b)
  {
  }

  /** The principal menu of `constroiMenus`: rendered and left shown. */
  method RenderizarPrincipal(doc: Documento)
    modifies doc
    ensures doc.chamadas == old(doc.chamadas)
    ensures old(doc.Existe(Principal)) || old(doc.Existe("app")) ==>
              doc.barras.Keys == old(doc.barras).Keys + {Principal}
              && doc.barras[Principal].visivel && Labels(doc.barras[Principal].botoes) == LabelsPrincipal
    ensures !old(doc.Existe(Principal)) && !old(doc.Existe("app")) ==> doc.barras == old(doc.barras)
    ensures forall k :: k in old(doc.barras) && k != Principal ==> doc.barras[k] == old(doc.barras)[k]
  {
    var barra := new CriarMenuAplicacao.BarraDeBotoes(LabelsPrincipal, "horizontal", Principal, "cmd");
    barra.Renderizar(doc);
  }

  /** One submenu of `constroiMenus`: render it, then hide its div (which throws when there is none). */
  method RenderizarOculto(doc: Documento, labels: seq<string>, id: string) returns (ok: bool)
    modifies doc
    ensures doc.chamadas == old(doc.chamadas)
    ensures doc.barras.Keys == old(doc.barras).Keys + (if ok then {id} else {})
    ensures forall k :: k in old(doc.barras) && k != id ==> doc.barras[k] == old(doc.barras)[k]
    ensures ok <==> old(doc.Existe(id)) || old(doc.Existe("app"))
    ensures ok ==> !doc.barras[id].visivel && Labels(doc.barras[id].botoes) == labels
  {
    var barra := new CriarMenuAplicacao.BarraDeBotoes(labels, "horizontal", id, "cmd");
    barra.Renderizar(doc);
    ok := doc.DefinirExibicao(id, false);
  }

  /** The `{ id, handler }` pairs of `registrarListeners`, in order. */
  const Registros: seq<(string, Tela)> :=
    [(Principal, TelaPrincipal), (Cadastro, TelaCadastro), (Rel1, TelaRel1), (Rel2, TelaRel2)]

  /** The `forEach` of `registrarListeners`: binds each pair whose element exists; a missing one is skipped. */
  method Ligar(ouvintes: map<string, Tela>, doc: Documento) returns (r: map<string, Tela>)
    ensures forall t: Tela :: doc.Existe(IdDe(t)) ==> IdDe(t) in r && r[IdDe(t)] == t
    ensures forall k :: k in r && !(k in IdsDosMenus && doc.Existe(k)) ==> k in ouvintes && r[k] == ouvintes[k]
    ensures ouvintes.Keys <= r.Keys
  {
    r := ouvintes;
    var i: nat := 0;
    while i < |Registros|
      invariant i <= |Registros|
      invariant forall j :: 0 <= j < i && doc.Existe(Registros[j].0) ==> Registros[j].0 in r && r[Registros[j].0] == Registros[j].1
      invariant forall k :: k in r && !(k in IdsDosMenus && doc.Existe(k)) ==> k in ouvintes && r[k] == ouvintes[k]
      invariant ouvintes.Keys <= r.Keys
    {
      var (id, handler) := Registros[i];
      if doc.Existe(id) {
        r := r[id := handler];
      }
      i := i + 1;
    }
    forall t: Tela | doc.Existe(IdDe(t))
      ensures IdDe(t) in r && r[IdDe(t)] == t
    {
      var j := match t case TelaPrincipal => 0 case TelaCadastro => 1 case TelaRel1 => 2 case TelaRel2 => 3;
      assert Registros[j] == (IdDe(t), t);
    }
  }

  /** The application functions a click calls, in order. */
  function Chamadas(t: Tela, rotulo: string): (r: seq<string>)
    ensures |r| <= 1
    ensures r != [] ==> t == TelaRel1
  {
    if t == TelaRel1 && rotulo == "RDMCC" then [ListenerRel01.ConstruirFormulario]
    else if t == TelaRel1 && rotulo == "RDM" then [ListenerRel01.ExibirTabelaExemplo1]
    else []
  }

  /** The page's menus and the handler bound to each div's `botao-clicado`. */
  class Menus {
    const doc: Documento
    /** The handler each div listens with. */
    var ouvintes: map<string, Tela>

    constructor(d: Documento)
      ensures doc == d && ouvintes == map[]
    {
      doc := d;
      ouvintes := map[];
    }

    /** Every menu's div listens with its own handler. */
    predicate Ligados()
      reads this
    {
      forall t: Tela :: IdDe(t) in ouvintes && ouvintes[IdDe(t)] == t
    }

    /** `registrarListeners`: a div that exists listens with its handler; a missing div is skipped and the rest are still bound. */
    method RegistrarListeners()
      modifies this
      ensures forall t: Tela :: doc.Existe(IdDe(t)) ==> IdDe(t) in ouvintes && ouvintes[IdDe(t)] == t
      ensures forall k :: k in ouvintes && !(k in IdsDosMenus && doc.Existe(k)) ==> k in old(ouvintes) && ouvintes[k] == old(ouvintes)[k]
      ensures old(ouvintes).Keys <= ouvintes.Keys
    {
      ouvintes := Ligar(ouvintes, doc);
    }

    /**
     * A click on button i of div `id`: the button dispatches its detail to
     * the div, and the handler bound there, if any, runs.
     */
    method Clicar(id: string, i: nat) returns (ok: bool)
      requires id in doc.barras && i < |doc.barras[id].botoes|
      modifies doc
      ensures id !in ouvintes ==> ok && doc.barras == old(doc.barras) && doc.chamadas == old(doc.chamadas)
      ensures id in ouvintes ==>
                doc.chamadas == old(doc.chamadas) + Chamadas(ouvintes[id], old(doc.barras[id].botoes[i].rotulo))
      ensures id in ouvintes ==> doc.barras.Keys == old(doc.barras).Keys
      ensures id in ouvintes && id == IdDe(ouvintes[id]) && old(SoVisivel(doc.barras, ouvintes[id])) ==>
                ok && SoVisivel(doc.barras, Proximo(ouvintes[id], old(doc.barras[id].botoes[i].rotulo)))
                && MesmosBotoes(doc.barras, old(doc.barras))
    {
      var b0 := doc.barras;
      var c := Clique(b0[id].botoes[i].rotulo, IndexOf(Labels(b0[id].botoes), b0[id].botoes[i].rotulo), id, b0[id].botoes[i].id);
      if id !in ouvintes {
        ok := true;
        return;
      }
      var t := ouvintes[id];
      var r := c.rotulo;
      var vis := id == IdDe(t) && SoVisivel(b0, t);
      match t
      case TelaPrincipal =>
        ok := ListenerMenuPrincipal.HandlerMenuPrincipal(doc, c);
        if vis && r == "Relatórios-2" {
          AbrirSubmenu(b0, TelaRel2);
        } else if vis && r == "Relatórios-1" {
          AbrirSubmenu(b0, TelaRel1);
        } else if vis && r == "Cadastro" {
          AbrirSubmenu(b0, TelaCadastro);
        }
      case TelaCadastro =>
        ok := ListenerMenuCadastro.HandlerMenuCadastro(doc, c);
        if vis && r == "Retornar" {
          VoltarAoPrincipal(b0, TelaCadastro);
        }
      case TelaRel1 =>
        ok := ListenerRel01.HandlerMenuRel1(doc, c);
        if vis && r == "Retornar" {
          VoltarAoPrincipal(b0, TelaRel1);
        }
      case TelaRel2 =>
        ok := ListenerRel02.HandlerMenuRel2(doc, c);
        if vis && r == "Retornar" {
          VoltarAoPrincipal(b0, TelaRel2);
        }
    }

    /**
     * Clicks on the buttons of the menu on screen, one after another
     * (i past the last button is no click): exactly one menu stays on
     * screen, the one `Percorrer` gives.
     */
    method Sessao(t0: Tela, escolhas: seq<nat>) returns (t: Tela)
      requires Ligados() && SoVisivel(doc.barras, t0) && Renderizadas(doc.barras)
      modifies doc
      ensures t == Percorrer(t0, escolhas)
      ensures SoVisivel(doc.barras, t) && Renderizadas(doc.barras)
    {
      t := t0;
      var k: nat := 0;
      while k < |escolhas|
        invariant k <= |escolhas|
        invariant SoVisivel(doc.barras, t) && Renderizadas(doc.barras)
        invariant Percorrer(t, escolhas[k..]) == Percorrer(t0, escolhas)
      {
        assert escolhas[k..][1..] == escolhas[k + 1..];
        var i := escolhas[k];
        var prox := Passo(t, i);
        assert IdDe(t) in doc.barras;
        if i < |doc.barras[IdDe(t)].botoes| {
          assert doc.barras[IdDe(t)].botoes[i].rotulo == LabelsDe(t)[i];
          var b0 := doc.barras;
          var _ := Clicar(IdDe(t), i);
          RenderizadasMantidas(doc.barras, b0);
        }
        t := prox;
        k := k + 1;
      }
    }
  }

  /**
   * The page's start: `constroiMenus`, then `registrarListeners`; an
   * exception in the first stops the script before the second.
   */
  method Iniciar(doc: Documento) returns (m: Menus, ok: bool)
    modifies doc
    ensures fresh(m) && m.doc == doc
    ensures old(doc.Existe("app")) ==> ok && m.Ligados() && SoVisivel(doc.barras, TelaPrincipal) && Renderizadas(doc.barras)
    ensures !ok ==> m.ouvintes == map[]
  {
    m := new Menus(doc);
    ok := ConstroiMenus(doc);
    if ok {
      m.RegistrarListeners();
    }
  }
}
