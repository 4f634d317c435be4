/**
 * `ConstrutorDeInterfaceAplicacao`: builds the configured menus, records
 * each one in an insertion-ordered registry, and shows only the principal
 * menus.
 */
module ConstrutorInterface {
  import opened JsCommon
  import MenuAplicacao
  import InterfaceAplicacao

  type ConfigMenu = InterfaceAplicacao.ConfigMenu

  /** The configuration the constructor reads. */
  datatype ConfigConstrutor = ConfigConstrutor(
    titulo: Option<string>,
    descricao: Option<string>,
    icone: Option<string>,
    menus: Option<seq<ConfigMenu>>)

  /** `display` writes in program order: the id and whether it is shown. */
  type Escrita = (string, bool)

  /** The value the last write to `k` left, if any write reached it. */
  function UltimaEscrita(escritas: seq<Escrita>, k: string): (r: Option<bool>)
    ensures r.None? <==> forall j :: 0 <= j < |escritas| ==> escritas[j].0 != k
    ensures r.Some? ==>
              exists j :: 0 <= j < |escritas| && escritas[j] == (k, r.value)
                          && forall j' :: j < j' < |escritas| ==> escritas[j'].0 != k
  {
    if escritas == [] then None
    else if escritas[|escritas| - 1].0 == k then Some(escritas[|escritas| - 1].1)
    else
      var r := UltimaEscrita(escritas[..|escritas| - 1], k);
      assert forall j :: 0 <= j < |escritas| - 1 ==> escritas[..|escritas| - 1][j] == escritas[j];
      r
  }

  /** With every id written once, the element shows the value written to it. */
  lemma {:induction false} UltimaEscritaUnica(escritas: seq<Escrita>, j: nat)
    requires j < |escritas|
    requires forall a, b :: 0 <= a < b < |escritas| ==> escritas[a].0 != escritas[b].0
    ensures UltimaEscrita(escritas, escritas[j].0) == Some(escritas[j].1)
  {
    var n := |escritas| - 1;
    if j < n {
      assert escritas[n].0 != escritas[j].0;
      var p := escritas[..n];
      assert p[j] == escritas[j];
      UltimaEscritaUnica(p, j);
    }
  }

  /** The writes of `exibirMenuPrincipal`: each menu, in order, shown exactly when it is principal. */
  function EscritasPrincipais(menus: seq<ConfigMenu>): (r: seq<Escrita>)
    ensures |r| == |menus|
    ensures forall i :: 0 <= i < |menus| ==> r[i] == (menus[i].id, menus[i].principal)
  {
    if menus == [] then [] else [(menus[0].id, menus[0].principal)] + EscritasPrincipais(menus[1..])
  }

  /** A sequence of `display` writes on the elements present; missing ids are skipped. */
  method AplicarEscritas(barras: map<string, MenuAplicacao.Barra>, escritas: seq<Escrita>)
    returns (r: map<string, MenuAplicacao.Barra>)
    ensures r.Keys == barras.Keys
    ensures forall k :: k in r ==>
              r[k] == match UltimaEscrita(escritas, k)
                      case None => barras[k]
                      case Some(v) => barras[k].(visivel := v)
  {
    r := barras;
    var i: nat := 0;
    while i < |escritas|
      invariant i <= |escritas| && r.Keys == barras.Keys
      invariant forall k :: k in r ==>
                  r[k] == match UltimaEscrita(escritas[..i], k)
                          case None => barras[k]
                          case Some(v) => barras[k].(visivel := v)
    {
      assert escritas[..i + 1][..i] == escritas[..i];
      if escritas[i].0 in r {
        r := r[escritas[i].0 := r[escritas[i].0].(visivel := escritas[i].1)];
      }
      i := i + 1;
    }
    assert escritas[..i] == escritas;
  }

  class ConstrutorDeInterfaceAplicacao {
    const titulo: string
    const descricao: string
    const icone: string
    const menus: seq<ConfigMenu>
    const doc: MenuAplicacao.Documento
    /** The keys of `menusRenderizados`, in insertion order. */
    var ordem: seq<string>
    /** `menusRenderizados`: the bar rendered for each id. */
    var menusRenderizados: map<string, MenuAplicacao.CriarMenuAplicacao>

    /** The registry lists each key once, and exactly its keys. */
    ghost predicate Valid()
      reads this
    {
      NoDuplicates(ordem) && (forall id :: id in ordem <==> id in menusRenderizados)
    }

    /** `new ConstrutorDeInterfaceAplicacao(config)`: each falsy field takes its default; the registry starts empty. */
    constructor(cfg: ConfigConstrutor, d: MenuAplicacao.Documento)
      ensures Valid()
      ensures titulo == InterfaceAplicacao.OuPadrao(cfg.titulo, InterfaceAplicacao.TituloPadrao)
      ensures descricao == InterfaceAplicacao.OuPadrao(cfg.descricao, InterfaceAplicacao.DescricaoPadrao)
      ensures icone == InterfaceAplicacao.OuPadrao(cfg.icone, InterfaceAplicacao.IconePadrao)
      ensures menus == (if cfg.menus.Some? then cfg.menus.value else [])
      ensures doc == d && ordem == [] && menusRenderizados == map[]
    {
      titulo := InterfaceAplicacao.OuPadrao(cfg.titulo, InterfaceAplicacao.TituloPadrao);
      descricao := InterfaceAplicacao.OuPadrao(cfg.descricao, InterfaceAplicacao.DescricaoPadrao);
      icone := InterfaceAplicacao.OuPadrao(cfg.icone, InterfaceAplicacao.IconePadrao);
      menus := if cfg.menus.Some? then cfg.menus.value else [];
      doc := d;
      ordem := [];
      menusRenderizados := map[];
    }

    /** `menusRenderizados.set(id, menu)`: a new key goes last, a known key keeps its place. */
    method Registrar(id: string, menu: MenuAplicacao.CriarMenuAplicacao)
      requires Valid()
      modifies this
      ensures Valid()
      ensures menusRenderizados == old(menusRenderizados)[id := menu]
      ensures old(id in menusRenderizados) ==> ordem == old(ordem)
      ensures old(id !in menusRenderizados) ==> ordem == old(ordem) + [id]
    {
      if id !in menusRenderizados {
        ordem := ordem + [id];
      }
      menusRenderizados := menusRenderizados[id := menu];
    }

    /**
     * `construirMenu(m)`: renders the bar, registers it, then hides it
     * unless it is principal; false when that hiding finds no element and
     * throws, the menu being registered already.
     */
    method ConstruirMenu(m: ConfigMenu) returns (ok: bool)
      requires Valid()
      modifies this, doc
      ensures Valid()
      ensures m.id in menusRenderizados && menusRenderizados.Keys == old(menusRenderizados).Keys + {m.id}
      ensures old(m.id in menusRenderizados) ==> ordem == old(ordem)
      ensures old(m.id !in menusRenderizados) ==> ordem == old(ordem) + [m.id]
      ensures doc.chamadas == old(doc.chamadas)
      ensures old(doc.Existe(m.id)) || old(doc.Existe("app")) ==>
                ok && m.id in doc.barras && doc.barras == old(doc.barras)[m.id := doc.barras[m.id]]
                && doc.barras[m.id].visivel == m.principal
                && MenuAplicacao.Labels(doc.barras[m.id].botoes) == m.botoes
      ensures !old(doc.Existe(m.id)) && !old(doc.Existe("app")) ==>
                doc.barras == old(doc.barras) && (ok <==> m.principal)
    {
      var barra := new MenuAplicacao.CriarMenuAplicacao.BarraDeBotoes(
        m.botoes, InterfaceAplicacao.OuPadrao(m.orientacao, "horizontal"), m.id,
        InterfaceAplicacao.OuPadrao(m.classe, "cmd"));
      barra.Renderizar(doc);
      Registrar(m.id, barra);
      ok := true;
      if !m.principal {
        ok := doc.DefinirExibicao(m.id, false);
      }
    }

    /**
     * `exibirMenuPrincipal`: when some menu is principal, every menu whose
     * element exists is shown exactly when it is principal (for an id listed
     * twice, the later entry decides); with no principal menu nothing changes.
     */
    method ExibirMenuPrincipal()
      modifies doc
      ensures doc.chamadas == old(doc.chamadas)
      ensures InterfaceAplicacao.PrimeiroPrincipal(menus) == -1 ==> doc.barras == old(doc.barras)
      ensures InterfaceAplicacao.PrimeiroPrincipal(menus) != -1 ==>
                doc.barras.Keys == old(doc.barras).Keys
                && forall k :: k in doc.barras ==>
                     doc.barras[k] == match UltimaEscrita(EscritasPrincipais(menus), k)
                                      case None => old(doc.barras)[k]
                                      case Some(v) => old(doc.barras)[k].(visivel := v)
    {
      if InterfaceAplicacao.PrimeiroPrincipal(menus) != -1 {
        var barras := AplicarEscritas(doc.barras, EscritasPrincipais(menus));
        doc.barras := barras;
      }
    }

    /** `construirMenus`: builds each menu in order, stopping at the first that throws, then shows the principal ones. */
    method ConstruirMenus() returns (ok: bool)
      requires Valid()
      modifies this, doc
      ensures Valid() && doc.chamadas == old(doc.chamadas)
      ensures old(doc.Existe("app")) ==> ok && forall i :: 0 <= i < |menus| ==> menus[i].id in doc.barras
      ensures old(doc.Existe("app")) ==> forall i :: 0 <= i < |menus| ==> menus[i].id in menusRenderizados
      ensures !ok ==> exists i :: 0 <= i < |menus| && !menus[i].principal
    {
      var i: nat := 0;
      while i < |menus|
        invariant i <= |menus| && Valid()
        invariant doc.chamadas == old(doc.chamadas)
        invariant old(doc.barras).Keys <= doc.barras.Keys
        invariant old(doc.Existe("app")) ==> forall j :: 0 <= j < i ==> menus[j].id in doc.barras
        invariant forall j :: 0 <= j < i ==> menus[j].id in menusRenderizados
      {
        ok := ConstruirMenu(menus[i]);
        if !ok {
          return;
        }
        i := i + 1;
      }
      ok := true;
      ExibirMenuPrincipal();
    }

    /**
     * `alternarMenu(a, b)`: hides a, then shows b, skipping a missing
     * element; with a = b the menu ends shown.
     */
    method AlternarMenu(a: string, b: string)
      modifies doc
      ensures doc.barras.Keys == old(doc.barras).Keys && doc.chamadas == old(doc.chamadas)
      ensures b in doc.barras ==> doc.barras[b].visivel
      ensures a in doc.barras && a != b ==> !doc.barras[a].visivel
      ensures forall k :: k in doc.barras && k != a && k != b ==> doc.barras[k] == old(doc.barras)[k]
      ensures forall k :: k in doc.barras ==> doc.barras[k].botoes == old(doc.barras)[k].botoes
    {
      var _ := doc.DefinirExibicao(a, false);
      var _ := doc.DefinirExibicao(b, true);
    }

    /** `obterMenusRenderizados`: the registered ids, each once, in first-registration order. */
    function ObterMenusRenderizados(): (r: seq<string>)
      requires Valid()
      reads this
      ensures r == ordem
      ensures NoDuplicates(r)
      ensures forall id :: id in r <==> id in menusRenderizados
    {
      ordem
    }
  }

  /** With distinct ids, `exibirMenuPrincipal` shows exactly the principal menus. */
  lemma {:induction false} PrincipaisExibidos(menus: seq<ConfigMenu>, j: nat)
    requires j < |menus| && NoDuplicates(InterfaceAplicacao.Ids(menus))
    ensures UltimaEscrita(EscritasPrincipais(menus), menus[j].id) == Some(menus[j].principal)
  {
    var e := EscritasPrincipais(menus);
    var ids := InterfaceAplicacao.Ids(menus);
    forall a, b | 0 <= a < b < |e|
      ensures e[a].0 != e[b].0
    {
      assert ids[a] == e[a].0 && ids[b] == e[b].0;
    }
    UltimaEscritaUnica(e, j);
  }
}
