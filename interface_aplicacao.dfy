/**
 * `InterfaceAplicacao`: the application shell that renders the configured
 * menus, shows one of them at a time and routes a button click to the
 * handler whose name is the normalised button label.
 */
module InterfaceAplicacao {
  import opened JsCommon
  import MenuAplicacao

  /** One entry of `config.menus`. */
  datatype ConfigMenu = ConfigMenu(
    id: string,
    botoes: seq<string>,
    orientacao: Option<string>,
    classe: Option<string>,
    principal: bool)

  /**
   * The constructor's `config`. A string field is falsy when missing or
   * empty; `handlers` holds the names whose handler is a function.
   */
  datatype ConfigApp = ConfigApp(
    titulo: Option<string>,
    descricao: Option<string>,
    icone: Option<string>,
    versao: Option<string>,
    menus: Option<seq<ConfigMenu>>,
    handlers: Option<set<string>>)

  /** The argument of `atualizarInfo`. */
  datatype NovaInfo = NovaInfo(titulo: Option<string>, descricao: Option<string>, versao: Option<string>)

  /** One render of the header title (`criarTitulo`). */
  datatype Cabecalho = Cabecalho(titulo: string, descricao: string, icone: string)

  /** One call `handlers[nome](this, detail)`. */
  datatype ChamadaHandler = ChamadaHandler(nome: string, detalhe: MenuAplicacao.Clique)

  const TituloPadrao: string := "Aplicação DSB"
  const DescricaoPadrao: string := "Sistema desenvolvido com Framework DSB"
  const IconePadrao: string := "Assets/icon_app.svg"
  const VersaoPadrao: string := "1.0.0"

  /** A string value that JavaScript treats as true. */
  predicate Preenchida(v: Option<string>) {
    v.Some? && v.value != ""
  }

  /** `v || padrao`. */
  function OuPadrao(v: Option<string>, padrao: string): (r: string)
    ensures Preenchida(v) ==> r == v.value
    ensures !Preenchida(v) ==> r == padrao
  {
    if Preenchida(v) then v.value else padrao
  }

  /** The ids of the configured menus, in order. */
  function Ids(menus: seq<ConfigMenu>): (r: seq<string>)
    ensures |r| == |menus| && forall i :: 0 <= i < |menus| ==> r[i] == menus[i].id
  {
    if menus == [] then [] else [menus[0].id] + Ids(menus[1..])
  }

  /** `menus.find(menu => menu.principal)`, as an index, or -1 when there is none. */
  function PrimeiroPrincipal(menus: seq<ConfigMenu>): (r: int)
    ensures -1 <= r < |menus|
    ensures r == -1 <==> forall i :: 0 <= i < |menus| ==> !menus[i].principal
    ensures r >= 0 ==> menus[r].principal && forall i :: 0 <= i < r ==> !menus[i].principal
  {
    if menus == [] then -1
    else if menus[0].principal then 0
    else
      var k := PrimeiroPrincipal(menus[1..]);
      if k == -1 then -1 else k + 1
  }

  // ---------------------------------------------------------------------
  // encontrarHandler

  /** The characters `/[^a-z0-9]/g` keeps. */
  predicate CaractereDeChave(c: char) {
    IsAsciiLower(c) || IsAsciiDigit(c)
  }

  /** `replace(/[^a-z0-9]/g, '')`: the characters of `s` in [a-z0-9], in order. */
  function Filtrar(s: string): (r: string)
    ensures |r| <= |s|
    ensures forall c :: c in r <==> c in s && CaractereDeChave(c)
  {
    if s == [] then []
    else if CaractereDeChave(s[0]) then [s[0]] + Filtrar(s[1..])
    else Filtrar(s[1..])
  }

  /** What one label character contributes to the name: its lowercase form, if that is in [a-z0-9]. */
  function Peca(c: char): string
  {
    if CaractereDeChave(LowerChar(c)) then [LowerChar(c)] else []
  }

  /** The name contributed by `rotulo[i..]`. */
  function NormalizadoDesde(rotulo: string, i: nat): string
    requires i <= |rotulo|
    decreases |rotulo| - i
  {
    if i == |rotulo| then [] else Peca(rotulo[i]) + NormalizadoDesde(rotulo, i + 1)
  }

  lemma {:induction false} NormalizadoSoChaves(rotulo: string, i: nat)
    requires i <= |rotulo|
    decreases |rotulo| - i
    ensures |NormalizadoDesde(rotulo, i)| <= |rotulo| - i
    ensures forall k :: 0 <= k < |NormalizadoDesde(rotulo, i)| ==> CaractereDeChave(NormalizadoDesde(rotulo, i)[k])
  {
    if i < |rotulo| {
      NormalizadoSoChaves(rotulo, i + 1);
      var p, r := Peca(rotulo[i]), NormalizadoDesde(rotulo, i + 1);
      assert NormalizadoDesde(rotulo, i) == p + r;
      assert forall k :: 0 <= k < |p + r| ==> (p + r)[k] == if k < |p| then p[k] else r[k - |p|];
    }
  }

  /**
   * `encontrarHandler(label)`: the label lowercased, then stripped of every
   * character outside [a-z0-9]. Only the ASCII letters change case.
   */
  function Normalizar(rotulo: string): (r: string)
    ensures |r| <= |rotulo|
    ensures forall i :: 0 <= i < |r| ==> CaractereDeChave(r[i])
  {
    NormalizadoSoChaves(rotulo, 0);
    NormalizadoDesde(rotulo, 0)
  }

  lemma {:induction false} DesdeComoNoCodigo(rotulo: string, i: nat)
    requires i <= |rotulo|
    decreases |rotulo| - i
    ensures NormalizadoDesde(rotulo, i) == Filtrar(ToLower(rotulo)[i..])
  {
    if i < |rotulo| {
      var t := ToLower(rotulo)[i..];
      assert t[0] == LowerChar(rotulo[i]);
      assert t[1..] == ToLower(rotulo)[i + 1..];
      DesdeComoNoCodigo(rotulo, i + 1);
    }
  }

  /**
   * The name is the two steps of the code, `toLowerCase` and then the
   * `replace`; so a character is in it exactly when it is a lowercased label
   * character in [a-z0-9].
   */
  lemma NormalizarComoNoCodigo(rotulo: string)
    ensures Normalizar(rotulo) == Filtrar(ToLower(rotulo))
    ensures forall c :: c in Normalizar(rotulo) <==> c in ToLower(rotulo) && CaractereDeChave(c)
  {
    DesdeComoNoCodigo(rotulo, 0);
    assert ToLower(rotulo)[0..] == ToLower(rotulo);
  }

  lemma {:induction false} ChavesFixas(nome: string, i: nat)
    requires i <= |nome|
    requires forall k :: 0 <= k < |nome| ==> CaractereDeChave(nome[k])
    decreases |nome| - i
    ensures NormalizadoDesde(nome, i) == nome[i..]
  {
    if i < |nome| {
      assert CaractereDeChave(nome[i]);
      ChavesFixas(nome, i + 1);
      assert nome[i..] == [nome[i]] + nome[i + 1..];
    }
  }

  /** A normalised name normalises to itself. */
  lemma NormalizarIdempotente(rotulo: string)
    ensures Normalizar(Normalizar(rotulo)) == Normalizar(rotulo)
  {
    var r := Normalizar(rotulo);
    ChavesFixas(r, 0);
    assert r[0..] == r;
  }

  /** The accented letter is dropped: "Relatórios-1" names the handler "relatrios1". */
  lemma CaudaDoExemplo()
    ensures NormalizadoDesde("Relatórios-1", 6) == "rios1"
  {
  }

  lemma AcentoDescartado()
    ensures Normalizar("Relatórios-1") == "relatrios1"
    ensures Normalizar("Relatórios-1") != "relatorios1"
  {
    CaudaDoExemplo();
    assert NormalizadoDesde("Relatórios-1", 0) == "relatrios1";
  }

  /**
   * The base letter of a Latin-1 letter with a diacritic (the accented
   * vowels, Ç and Ñ); every other character is kept.
   */
  function SemAcento(c: char): char
  {
    if c as int < 0xC0 then c
    else if c as int <= 0xC5 then 'A'
    else if c as int == 0xC7 then 'C'
    else if 0xC8 <= c as int <= 0xCB then 'E'
    else if 0xCC <= c as int <= 0xCF then 'I'
    else if c as int == 0xD1 then 'N'
    else if 0xD2 <= c as int <= 0xD6 then 'O'
    else if 0xD9 <= c as int <= 0xDC then 'U'
    else if 0xE0 <= c as int <= 0xE5 then 'a'
    else if c as int == 0xE7 then 'c'
    else if 0xE8 <= c as int <= 0xEB then 'e'
    else if 0xEC <= c as int <= 0xEF then 'i'
    else if c as int == 0xF1 then 'n'
    else if 0xF2 <= c as int <= 0xF6 then 'o'
    else if 0xF9 <= c as int <= 0xFC then 'u'
    else c
  }

  function RemoverAcentos(s: string): (r: string)
    ensures |r| == |s| && forall i :: 0 <= i < |s| ==> r[i] == SemAcento(s[i])
  {
    seq(|s|, i requires 0 <= i < |s| => SemAcento(s[i]))
  }

  function SemAcentoDesde(rotulo: string, i: nat): (r: string)
    requires i <= |rotulo|
    decreases |rotulo| - i
  {
    if i == |rotulo| then []
    else Peca(SemAcento(rotulo[i])) + SemAcentoDesde(rotulo, i + 1)
  }

  /**
   * The normalisation the comment of `encontrarHandler` describes: accents
   * are folded to their base letter before lowercasing and filtering.
   */
  function NormalizarSemAcento(rotulo: string): (r: string)
  {
    SemAcentoDesde(rotulo, 0)
  }

  lemma {:induction false} SemAcentoDesdeComoNormalizar(rotulo: string, i: nat)
    requires i <= |rotulo|
    decreases |rotulo| - i
    ensures SemAcentoDesde(rotulo, i) == NormalizadoDesde(RemoverAcentos(rotulo), i)
  {
    if i < |rotulo| {
      SemAcentoDesdeComoNormalizar(rotulo, i + 1);
    }
  }

  /** The corrected name is the code's normalisation applied to the label with its accents folded. */
  lemma SemAcentoComoNormalizar(rotulo: string)
    ensures NormalizarSemAcento(rotulo) == Normalizar(RemoverAcentos(rotulo))
    ensures forall i :: 0 <= i < |NormalizarSemAcento(rotulo)| ==> CaractereDeChave(NormalizarSemAcento(rotulo)[i])
  {
    SemAcentoDesdeComoNormalizar(rotulo, 0);
  }

  lemma ExemploSemAcento()
    ensures RemoverAcentos("Relatórios-1") == "Relatorios-1"
  {
  }

  lemma CaudaAscii()
    ensures NormalizadoDesde("Relatorios-1", 6) == "rios1"
  {
  }

  lemma ExemploAscii()
    ensures Normalizar("Relatorios-1") == "relatorios1"
  {
    CaudaAscii();
    assert NormalizadoDesde("Relatorios-1", 0) == "relatorios1";
  }

  /** Folding accents keeps the "o": "Relatórios-1" names "relatorios1". */
  lemma AcentoPreservado()
    ensures NormalizarSemAcento("Relatórios-1") == "relatorios1"
  {
    SemAcentoComoNormalizar("Relatórios-1");
    ExemploSemAcento();
    ExemploAscii();
  }

  /** On labels without Latin-1 letters the corrected normalisation is the one the code applies. */
  lemma SemAcentoEmAscii(rotulo: string)
    requires forall i :: 0 <= i < |rotulo| ==> (rotulo[i] as int) < 0xC0
    ensures NormalizarSemAcento(rotulo) == Normalizar(rotulo)
  {
    SemAcentoComoNormalizar(rotulo);
    assert RemoverAcentos(rotulo) == rotulo;
  }

  // ---------------------------------------------------------------------
  // The application shell

  class Interface {
    var titulo: string
    var descricao: string
    const icone: string
    var versao: string
    const menus: seq<ConfigMenu>
    /** The names `this.handlers[nome]` finds a function under. */
    const handlers: set<string>
    var menuAtivo: Option<string>
    /** The page. */
    const doc: MenuAplicacao.Documento
    /** The header renders, oldest first. */
    var cabecalhos: seq<Cabecalho>
    /** The ids a 'botao-clicado' listener was bound to. */
    var ouvintes: seq<string>
    /** The handler calls, oldest first. */
    var chamadas: seq<ChamadaHandler>

    /** `new InterfaceAplicacao(config)`: each falsy field takes its default. */
    constructor(cfg: ConfigApp, d: MenuAplicacao.Documento)
      ensures titulo == OuPadrao(cfg.titulo, TituloPadrao)
      ensures descricao == OuPadrao(cfg.descricao, DescricaoPadrao)
      ensures icone == OuPadrao(cfg.icone, IconePadrao)
      ensures versao == OuPadrao(cfg.versao, VersaoPadrao)
      ensures menus == (if cfg.menus.Some? then cfg.menus.value else [])
      ensures handlers == (if cfg.handlers.Some? then cfg.handlers.value else {})
      ensures menuAtivo == None && doc == d
      ensures cabecalhos == [] && ouvintes == [] && chamadas == []
    {
      titulo := OuPadrao(cfg.titulo, TituloPadrao);
      descricao := OuPadrao(cfg.descricao, DescricaoPadrao);
      icone := OuPadrao(cfg.icone, IconePadrao);
      versao := OuPadrao(cfg.versao, VersaoPadrao);
      menus := if cfg.menus.Some? then cfg.menus.value else [];
      handlers := if cfg.handlers.Some? then cfg.handlers.value else {};
      menuAtivo := None;
      doc := d;
      cabecalhos := [];
      ouvintes := [];
      chamadas := [];
    }

    /** `criarTitulo`: renders the header with the current title, description and icon. */
    method CriarTitulo()
      modifies this
      ensures cabecalhos == old(cabecalhos) + [Cabecalho(titulo, descricao, icone)]
      ensures titulo == old(titulo) && descricao == old(descricao) && versao == old(versao)
      ensures menuAtivo == old(menuAtivo) && ouvintes == old(ouvintes) && chamadas == old(chamadas)
    {
      cabecalhos := cabecalhos + [Cabecalho(titulo, descricao, icone)];
    }

    /**
     * `criarMenu(m)`: renders the bar with the defaults "horizontal" and
     * "cmd", then hides it unless it is principal; false when that hiding
     * finds no element and throws.
     */
    method CriarMenu(m: ConfigMenu) returns (ok: bool)
      modifies doc
      ensures doc.chamadas == old(doc.chamadas)
      ensures old(doc.Existe(m.id)) || old(doc.Existe("app")) ==>
                ok && m.id in doc.barras && doc.barras == old(doc.barras)[m.id := doc.barras[m.id]]
                && doc.barras[m.id].visivel == m.principal
                && doc.barras[m.id].direcao == MenuAplicacao.DirecaoDe(OuPadrao(m.orientacao, "horizontal"))
                && MenuAplicacao.Labels(doc.barras[m.id].botoes) == m.botoes
                && forall i :: 0 <= i < |m.botoes| ==>
                     doc.barras[m.id].botoes[i] == MenuAplicacao.BotaoDe(OuPadrao(m.classe, "cmd"), m.botoes[i])
      ensures !old(doc.Existe(m.id)) && !old(doc.Existe("app")) ==>
                doc.barras == old(doc.barras) && (ok <==> m.principal)
    {
      var barra := new MenuAplicacao.CriarMenuAplicacao.BarraDeBotoes(
        m.botoes, OuPadrao(m.orientacao, "horizontal"), m.id, OuPadrao(m.classe, "cmd"));
      barra.Renderizar(doc);
      ok := true;
      if !m.principal {
        ok := doc.DefinirExibicao(m.id, false);
      }
    }

    /**
     * `criarMenus`: creates every menu in order, stopping at the first that
     * throws, then shows `menus[0]`, whether or not it is the principal one.
     */
    method CriarMenus() returns (ok: bool)
      modifies this, doc
      ensures doc.chamadas == old(doc.chamadas)
      ensures titulo == old(titulo) && descricao == old(descricao) && versao == old(versao)
      ensures cabecalhos == old(cabecalhos) && ouvintes == old(ouvintes) && chamadas == old(chamadas)
      ensures old(doc.Existe("app")) ==> ok && forall i :: 0 <= i < |menus| ==> menus[i].id in doc.barras
      ensures !ok ==> exists i :: 0 <= i < |menus| && !menus[i].principal
      ensures ok && |menus| > 0 ==>
                menuAtivo == Some(menus[0].id)
                && forall k :: k in doc.barras && k in Ids(menus) ==> doc.barras[k].visivel == (k == menus[0].id)
      ensures ok && |menus| == 0 ==> menuAtivo == old(menuAtivo)
    {
      var i: nat := 0;
      while i < |menus|
        invariant i <= |menus|
        invariant doc.chamadas == old(doc.chamadas)
        modifies doc
        invariant old(doc.barras).Keys <= doc.barras.Keys
        invariant old(doc.Existe("app")) ==> forall j :: 0 <= j < i ==> menus[j].id in doc.barras
      {
        ok := CriarMenu(menus[i]);
        if !ok {
          return;
        }
        i := i + 1;
      }
      ok := true;
      if |menus| > 0 {
        ExibirMenu(menus[0].id);
      }
    }

    /** `configurarEventos`: binds a listener to each menu whose element exists, in menu order. */
    method ConfigurarEventos()
      modifies this
      ensures forall id :: id in ouvintes <==> id in old(ouvintes) || (id in Ids(menus) && doc.Existe(id))
      ensures titulo == old(titulo) && descricao == old(descricao) && versao == old(versao)
      ensures menuAtivo == old(menuAtivo) && cabecalhos == old(cabecalhos) && chamadas == old(chamadas)
    {
      var novos := Presentes(Ids(menus), doc.barras.Keys + doc.conteineres);
      ouvintes := ouvintes + novos;
    }

    /**
     * `processarClique(evento, menuId)`: the handler named by the normalised
     * label is called with the click's detail exactly when the name is not
     * empty and a handler is registered under it; otherwise only a warning.
     */
    method ProcessarClique(detalhe: MenuAplicacao.Clique)
      modifies this
      ensures var nome := Normalizar(detalhe.rotulo);
              if nome != "" && nome in handlers
              then chamadas == old(chamadas) + [ChamadaHandler(nome, detalhe)]
              else chamadas == old(chamadas)
      ensures titulo == old(titulo) && descricao == old(descricao) && versao == old(versao)
      ensures menuAtivo == old(menuAtivo) && cabecalhos == old(cabecalhos) && ouvintes == old(ouvintes)
    {
      var nome := Normalizar(detalhe.rotulo);
      if nome != "" && nome in handlers {
        chamadas := chamadas + [ChamadaHandler(nome, detalhe)];
      }
    }

    /**
     * `exibirMenu(menuId)`: every menu whose element exists is shown exactly
     * when its id is `menuId`; `menuAtivo` becomes `menuId` even when no
     * menu has that id.
     */
    method ExibirMenu(alvo: string)
      modifies this, doc
      ensures menuAtivo == Some(alvo)
      ensures doc.barras.Keys == old(doc.barras).Keys && doc.chamadas == old(doc.chamadas)
      ensures forall k :: k in doc.barras && k in Ids(menus) ==> doc.barras[k].visivel == (k == alvo)
      ensures forall k :: k in doc.barras && k !in Ids(menus) ==> doc.barras[k] == old(doc.barras)[k]
      ensures forall k :: k in doc.barras ==>
                doc.barras[k].botoes == old(doc.barras)[k].botoes && doc.barras[k].direcao == old(doc.barras)[k].direcao
      ensures titulo == old(titulo) && descricao == old(descricao) && versao == old(versao)
      ensures cabecalhos == old(cabecalhos) && ouvintes == old(ouvintes) && chamadas == old(chamadas)
    {
      var barras := ExibirApenas(doc.barras, Ids(menus), alvo);
      doc.barras := barras;
      menuAtivo := Some(alvo);
    }

    /** `voltarMenuPrincipal`: shows the first principal menu; without one nothing changes. */
    method VoltarMenuPrincipal()
      modifies this, doc
      ensures var p := PrimeiroPrincipal(menus);
              if p == -1 then doc.barras == old(doc.barras) && menuAtivo == old(menuAtivo)
              else menuAtivo == Some(menus[p].id)
                   && doc.barras.Keys == old(doc.barras).Keys
                   && forall k :: k in doc.barras && k in Ids(menus) ==> doc.barras[k].visivel == (k == menus[p].id)
      ensures doc.chamadas == old(doc.chamadas) && chamadas == old(chamadas)
    {
      var p := PrimeiroPrincipal(menus);
      if p != -1 {
        ExibirMenu(menus[p].id);
      }
    }

    /**
     * `atualizarInfo(nova)`: each truthy field overwrites its own; the
     * header is rendered again exactly when a title or a description is given.
     */
    method AtualizarInfo(nova: NovaInfo)
      modifies this
      ensures titulo == OuPadrao(nova.titulo, old(titulo))
      ensures descricao == OuPadrao(nova.descricao, old(descricao))
      ensures versao == OuPadrao(nova.versao, old(versao))
      ensures Preenchida(nova.titulo) || Preenchida(nova.descricao) ==>
                cabecalhos == old(cabecalhos) + [Cabecalho(titulo, descricao, icone)]
      ensures !Preenchida(nova.titulo) && !Preenchida(nova.descricao) ==> cabecalhos == old(cabecalhos)
      ensures menuAtivo == old(menuAtivo) && ouvintes == old(ouvintes) && chamadas == old(chamadas)
    {
      if Preenchida(nova.titulo) { titulo := nova.titulo.value; }
      if Preenchida(nova.descricao) { descricao := nova.descricao.value; }
      if Preenchida(nova.versao) { versao := nova.versao.value; }
      if Preenchida(nova.titulo) || Preenchida(nova.descricao) {
        CriarTitulo();
      }
    }
  }

  /** The loop of `configurarEventos`: the ids whose element exists, in order. */
  method Presentes(ids: seq<string>, presentes: set<string>) returns (r: seq<string>)
    ensures |r| <= |ids|
    ensures forall id :: id in r <==> id in ids && id in presentes
  {
    r := [];
    var i: nat := 0;
    while i < |ids|
      invariant i <= |ids| && |r| <= i
      invariant forall id :: id in r <==> id in ids[..i] && id in presentes
    {
      assert ids[..i + 1] == ids[..i] + [ids[i]];
      if ids[i] in presentes {
        r := r + [ids[i]];
      }
      i := i + 1;
    }
    assert ids[..i] == ids;
  }

  /**
   * The loop of `exibirMenu`: each listed id that has an element gets
   * `display` 'flex' when it is the target and 'none' otherwise.
   */
  method ExibirApenas(barras: map<string, MenuAplicacao.Barra>, ids: seq<string>, alvo: string)
    returns (r: map<string, MenuAplicacao.Barra>)
    ensures r.Keys == barras.Keys
    ensures forall k :: k in r ==> r[k] == if k in ids then barras[k].(visivel := k == alvo) else barras[k]
  {
    r := barras;
    var i: nat := 0;
    while i < |ids|
      invariant i <= |ids| && r.Keys == barras.Keys
      invariant forall k :: k in r ==> r[k] == if k in ids[..i] then barras[k].(visivel := k == alvo) else barras[k]
    {
      assert ids[..i + 1] == ids[..i] + [ids[i]];
      if ids[i] in r {
        r := r[ids[i] := r[ids[i]].(visivel := ids[i] == alvo)];
      }
      i := i + 1;
    }
    assert ids[..i] == ids;
  }

  /**
   * With the principal menu second, `criarMenus` leaves it hidden and shows
   * the first one.
   */
  method PrincipalEmSegundo() returns (primeiro: bool, principal: bool)
    ensures primeiro && !principal
  {
    var d := new MenuAplicacao.Documento({"app"});
    var a := ConfigMenu("menu_a", ["x"], None, None, false);
    var b := ConfigMenu("menu_b", ["y"], None, None, true);
    var app := new Interface(ConfigApp(None, None, None, None, Some([a, b]), None), d);
    var ok := app.CriarMenus();
    assert Ids(app.menus) == ["menu_a", "menu_b"];
    primeiro := d.barras["menu_a"].visivel;
    principal := d.barras["menu_b"].visivel;
  }
}
