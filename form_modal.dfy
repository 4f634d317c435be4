/**
 * `FormModal`, the draggable modal form: a `FormComum` whose base always
 * gets no global buttons and no selects, with a darkened backdrop, its own
 * two footer buttons (close and submit), drag by the header clamped to the
 * viewport, and `form-modal-acao` events dispatched on its own container.
 */
module FormModal {
  import opened JsCommon
  import Forms

  /** A point or a size in CSS pixels (`clientX`/`clientY`, `innerWidth`, `offsetWidth`, ...). */
  datatype Ponto = Ponto(x: real, y: real)

  /** The `opcoes` object handed to `new FormModal`. */
  datatype Opcoes = Opcoes(
    grupoBotoes: Option<seq<Scalar>>,
    /** The values the selects described by `opcoes.selects` would hold, if given. */
    selects: Option<map<string, string>>,
    botoesModal: Option<seq<string>>,
    estiloModal: Option<map<string, string>>)

  /**
   * What the page offers the modal: `#divFormModal`, `#formModal`, a
   * `footer` inside the form, `#divFormCrud`, whether the container is a
   * direct child of `<body>` (where the backdrop is inserted before it),
   * and a `#mainConteudo` inside the form.
   */
  datatype Pagina = Pagina(temContainer: bool, temForm: bool, temFooter: bool,
                           temFormCrud: bool, containerNoBody: bool, temMainConteudo: bool)

  datatype ErroModal =
    | Invalida(e: Forms.ErroForm)   // `FormComum.validacao` threw
    | ContainerAusente              // `configurarContainer` threw
    | FormCrudAusente               // TypeError: `_criarDivsCampos` reads `classList` of a missing `#divFormCrud`
    | TipoSomenteLeitura(indice: nat) // TypeError: `type` assigned to the `<select>` of a 'combo' field
    | MainConteudoAusente           // `_posicionarDivs` throws: no `#mainConteudo` in the form
    | BackdropSemLugar              // NotFoundError: `insertBefore` with a container that is not a child of `<body>`
    | BotoesIndefinidos             // TypeError: `this.botoesModal[0]` read while `botoesModal` is undefined

  /** Every element the modal's `render` reaches exists where it looks for it. */
  predicate PaginaCompleta(p: Pagina) {
    p.temContainer && p.temForm && p.temFormCrud && p.temMainConteudo && p.containerNoBody
  }

  const NenhumGrupo: seq<Scalar> := [Str("N"), Str("N"), Str("N")]
  const BotoesPadrao: seq<string> := ["Encerrar", "Submit"]

  // ---------------------------------------------------------------------
  // Options
  // ---------------------------------------------------------------------

  /**
   * `{ ...opcoes, grupoBotoes: ['N','N','N'], selects: null }`: what the base
   * constructor receives. Only the two overridden keys differ from the caller's.
   */
  function OpcoesDaBase(o: Opcoes): (b: Opcoes)
    ensures b.grupoBotoes == Some(NenhumGrupo) && b.selects.None?
    ensures b.botoesModal == o.botoesModal && b.estiloModal == o.estiloModal
  {
    o.(grupoBotoes := Some(NenhumGrupo), selects := None)
  }

  /** Whatever two callers pass, the base sees the same buttons and selects. */
  lemma BaseIgnoraBotoesESelects(o1: Opcoes, o2: Opcoes)
    ensures OpcoesDaBase(o1).grupoBotoes == OpcoesDaBase(o2).grupoBotoes
    ensures OpcoesDaBase(o1).selects == OpcoesDaBase(o2).selects
    ensures Forms.Mesclar(map[], OpcoesDaBase(o1).selects) == map[]
  {
  }

  /** `opcoes.botoesModal || ['Encerrar', 'Submit']`: an array, even an empty one, is truthy. */
  function BotoesDoModal(o: Opcoes): (r: seq<string>)
    ensures o.botoesModal.None? ==> r == BotoesPadrao
    ensures o.botoesModal.Some? ==> r == o.botoesModal.value
  {
    if o.botoesModal.Some? then o.botoesModal.value else BotoesPadrao
  }

  /** `opcoes.estiloModal || {}`. */
  function EstiloDoModal(o: Opcoes): (r: map<string, string>)
    ensures o.estiloModal.None? ==> r == map[]
    ensures o.estiloModal.Some? ==> r == o.estiloModal.value
  {
    if o.estiloModal.Some? then o.estiloModal.value else map[]
  }

  /** `${this.botoesModal[i]}`: a missing entry prints as "undefined". */
  function TextoDoBotao(b: seq<string>, i: nat): string {
    if i < |b| then b[i] else "undefined"
  }

  /** The texts of the close and submit buttons `_configurarBotoesLocais` writes. */
  function TextosDoRodape(b: seq<string>): (r: seq<string>)
    ensures |r| == 2
    ensures |b| >= 2 ==> r == b[..2]
    ensures |b| < 2 ==> r[1] == "undefined"
  {
    [TextoDoBotao(b, 0), TextoDoBotao(b, 1)]
  }

  // ---------------------------------------------------------------------
  // Drag geometry
  // ---------------------------------------------------------------------

  function Min(a: real, b: real): real { if a <= b then a else b }
  function Max(a: real, b: real): real { if a >= b then a else b }

  /** `Math.max(0, Math.min(v, limite))`. */
  function Limitar(v: real, limite: real): (r: real)
    ensures r >= 0.0
    ensures limite >= 0.0 ==> r <= limite
    ensures 0.0 <= v <= limite ==> r == v
    ensures v < 0.0 || limite < 0.0 ==> r == 0.0
    ensures 0.0 <= limite < v ==> r == limite
  {
    Max(0.0, Min(v, limite))
  }

  /** Clamping a clamped coordinate again changes nothing. */
  lemma LimitarIdempotente(v: real, limite: real)
    ensures Limitar(Limitar(v, limite), limite) == Limitar(v, limite)
  {
  }

  /** The offset `_onMouseDown` records: pointer minus the container's top-left corner. */
  function Deslocamento(ponteiro: Ponto, canto: Ponto): (d: Ponto)
    ensures d.x + canto.x == ponteiro.x && d.y + canto.y == ponteiro.y
  {
    Ponto(ponteiro.x - canto.x, ponteiro.y - canto.y)
  }

  /**
   * The position `_onMouseMove` writes to `left`/`top`: pointer minus the
   * offset, clamped to `[0, viewport - size]` on each axis.
   */
  function NovaPosicao(ponteiro: Ponto, deslocamento: Ponto, viewport: Ponto, tamanho: Ponto): (p: Ponto)
    ensures p.x >= 0.0 && p.y >= 0.0
    ensures viewport.x - tamanho.x >= 0.0 ==> p.x <= viewport.x - tamanho.x
    ensures viewport.y - tamanho.y >= 0.0 ==> p.y <= viewport.y - tamanho.y
  {
    Ponto(Limitar(ponteiro.x - deslocamento.x, viewport.x - tamanho.x),
          Limitar(ponteiro.y - deslocamento.y, viewport.y - tamanho.y))
  }

  /** A modal that fits the viewport stays inside it. */
  predicate DentroDaJanela(p: Ponto, viewport: Ponto, tamanho: Ponto) {
    0.0 <= p.x <= viewport.x - tamanho.x && 0.0 <= p.y <= viewport.y - tamanho.y
  }

  /**
   * Grabbing the header and moving without displacing the pointer leaves a
   * modal that was inside the viewport where it was: no jump on grab.
   */
  lemma SemSaltoAoAgarrar(ponteiro: Ponto, canto: Ponto, viewport: Ponto, tamanho: Ponto)
    requires DentroDaJanela(canto, viewport, tamanho)
    ensures NovaPosicao(ponteiro, Deslocamento(ponteiro, canto), viewport, tamanho) == canto
  {
  }

  /** Moving by a vector inside the limits moves the modal by that vector. */
  lemma ArrastoAcompanhaPonteiro(ponteiro: Ponto, canto: Ponto, delta: Ponto, viewport: Ponto, tamanho: Ponto)
    requires DentroDaJanela(Ponto(canto.x + delta.x, canto.y + delta.y), viewport, tamanho)
    ensures NovaPosicao(Ponto(ponteiro.x + delta.x, ponteiro.y + delta.y), Deslocamento(ponteiro, canto), viewport, tamanho)
            == Ponto(canto.x + delta.x, canto.y + delta.y)
  {
  }

  // ---------------------------------------------------------------------
  // The modal
  // ---------------------------------------------------------------------

  class Modal {
    const config: Forms.ConfigForm
    /** What the base `FormComum` received as `grupoBotoes` and as select values. */
    const grupoBase: Option<seq<Scalar>>
    const selectsBase: Option<map<string, string>>
    const campos: seq<Option<Forms.Controle>>
    const conteudo: seq<(int, seq<nat>)>
    /** Whether `#formModal` holds a `footer`. */
    const temFooter: bool
    var titulo: string
    var botoesModal: seq<string>
    var estiloModal: map<string, string>
    /** Texts of the two local footer buttons, or None while no footer was written. */
    var rodape: Option<seq<string>>
    var isDragging: bool
    var dragOffset: Ponto
    /** `left`/`top` written by a drag, or None while centred by the CSS transform. */
    var posicao: Option<Ponto>
    /** The referenced backdrop: None for null, Some(shown) otherwise. */
    var backdrop: Option<bool>
    /** Backdrops left in the document that no field refers to any more. */
    var backdropsPerdidos: nat
    /** The container's own display, what the base `exibir`/`ocultar` set. */
    var visivel: bool
    /** The `form-modal-acao` events dispatched on the container, oldest first. */
    var eventos: seq<Forms.EventoForm>

    /**
     * The state right after construction: the base got no button groups and
     * no selects, the fields are one control per type placed row by row,
     * the options' defaults are applied, and the modal is hidden, not
     * dragging and centred.
     */
    ghost predicate Inicial(cfg: Forms.ConfigForm, o: Opcoes, footer: bool, perdidos: nat)
      reads this
    {
      Forms.ChecagemBasica(cfg) && config == cfg && grupoBase == Some(NenhumGrupo) && selectsBase.None?
      && |campos| == |cfg.tipo|
      && (forall i :: 0 <= i < |cfg.tipo| ==> campos[i] == Forms.ControleDoTipo(cfg.tipo[i], cfg.nomeCampo[i]))
      && Forms.DisposicaoCorreta(Forms.Coordenadas(cfg.pos), conteudo)
      && botoesModal == BotoesDoModal(o) && estiloModal == EstiloDoModal(o)
      && temFooter == footer
      && rodape == (if footer then Some(TextosDoRodape(BotoesDoModal(o))) else None)
      && !isDragging && dragOffset == Ponto(0.0, 0.0) && posicao.None?
      && backdrop == Some(false) && backdropsPerdidos == perdidos && !visivel && eventos == []
    }

    constructor(cfg: Forms.ConfigForm, o: Opcoes, footer: bool, perdidos: nat, t: string)
      requires Forms.ChecagemBasica(cfg)
      ensures Inicial(cfg, o, footer, perdidos) && titulo == t
    {
      var b := OpcoesDaBase(o);
      var ps := Forms.Coordenadas(cfg.pos);
      var linhas := Forms.Posicionar(ps);
      config := cfg;
      grupoBase := b.grupoBotoes;
      selectsBase := b.selects;
      campos := seq(|cfg.tipo|, i requires 0 <= i < |cfg.tipo| => Forms.ControleDoTipo(cfg.tipo[i], cfg.nomeCampo[i]));
      conteudo := linhas;
      temFooter := footer;
      titulo := t;
      botoesModal := BotoesDoModal(o);
      estiloModal := EstiloDoModal(o);
      rodape := if footer then Some(TextosDoRodape(BotoesDoModal(o))) else None;
      isDragging := false;
      dragOffset := Ponto(0.0, 0.0);
      posicao := None;
      backdrop := Some(false);
      backdropsPerdidos := perdidos;
      visivel := false;
      eventos := [];
    }

    /**
     * `new FormModal(...)` as written. The base constructor validates the
     * lists and calls `this.render()`, which is the modal's override:
     * `configurarContainer` throws without `#divFormModal`/`#formModal`,
     * `_criarDivsCampos` throws without `#divFormCrud` and at the first
     * 'combo', `_posicionarDivs` throws without `#mainConteudo`, and
     * `_configurarComportamentoModal` throws when the backdrop
     * cannot be inserted before the container. It also runs before the
     * subclass has assigned `botoesModal`, so a footer makes
     * `_configurarBotoesLocais` read `undefined[0]` and throw. Without a
     * footer the subclass then sets `backdrop = null`, dropping the backdrop
     * render created, and configures the modal a second time, which creates
     * another one and hides it.
     */
    static method CriarComoEscrito(t: string, cfg: Forms.ConfigForm, o: Opcoes, p: Pagina)
      returns (r: Result<Modal, ErroModal>)
      ensures Forms.Validacao(cfg).Failure? ==> r == Failure(Invalida(Forms.Validacao(cfg).error))
      ensures Forms.Validacao(cfg).Success? && !(p.temContainer && p.temForm) ==> r == Failure(ContainerAusente)
      ensures Forms.Validacao(cfg).Success? && p.temContainer && p.temForm && !p.temFormCrud ==>
                r == Failure(FormCrudAusente)
      ensures Forms.Validacao(cfg).Success? && p.temContainer && p.temForm && p.temFormCrud && "combo" in cfg.tipo ==>
                r == Failure(TipoSomenteLeitura(IndexOf(cfg.tipo, "combo")))
      ensures Forms.Validacao(cfg).Success? && p.temContainer && p.temForm && p.temFormCrud && "combo" !in cfg.tipo
              && !p.temMainConteudo
              ==> r == Failure(MainConteudoAusente)
      ensures Forms.Validacao(cfg).Success? && p.temContainer && p.temForm && p.temFormCrud && "combo" !in cfg.tipo
              && p.temMainConteudo && !p.containerNoBody
              ==> r == Failure(BackdropSemLugar)
      ensures Forms.Validacao(cfg).Success? && PaginaCompleta(p) && "combo" !in cfg.tipo && p.temFooter ==>
                r == Failure(BotoesIndefinidos)
      ensures r.Success? <==> Forms.Validacao(cfg).Success? && PaginaCompleta(p) && "combo" !in cfg.tipo && !p.temFooter
      ensures r.Success? ==> fresh(r.value) && r.value.Inicial(cfg, o, false, 1) && r.value.titulo == t
    {
      var v := Forms.Validacao(cfg);
      if v.Failure? {
        return Failure(Invalida(v.error));
      }
      if !(p.temContainer && p.temForm) {
        return Failure(ContainerAusente);
      }
      if !p.temFormCrud {
        return Failure(FormCrudAusente);
      }
      var combo := IndexOf(cfg.tipo, "combo");
      if combo >= 0 {
        return Failure(TipoSomenteLeitura(combo));
      }
      if !p.temMainConteudo {
        return Failure(MainConteudoAusente);
      }
      if !p.containerNoBody {
        return Failure(BackdropSemLugar);
      }
      if p.temFooter {
        return Failure(BotoesIndefinidos);
      }
      var m := new Modal(cfg, o, false, 1, t);
      return Success(m);
    }

    /**
     * `new FormModal(...)` with the modal configured once, after
     * `botoesModal` is known, and a 'combo' field's `<select>` left with its
     * own `type`: the footer, when there is one, shows the given button
     * texts and only one backdrop is created. The page must still offer
     * every element `render` reaches.
     */
    static method Criar(t: string, cfg: Forms.ConfigForm, o: Opcoes, p: Pagina)
      returns (r: Result<Modal, ErroModal>)
      ensures Forms.Validacao(cfg).Failure? ==> r == Failure(Invalida(Forms.Validacao(cfg).error))
      ensures Forms.Validacao(cfg).Success? && !(p.temContainer && p.temForm) ==> r == Failure(ContainerAusente)
      ensures Forms.Validacao(cfg).Success? && p.temContainer && p.temForm && !p.temFormCrud ==>
                r == Failure(FormCrudAusente)
      ensures Forms.Validacao(cfg).Success? && p.temContainer && p.temForm && p.temFormCrud && !p.temMainConteudo ==>
                r == Failure(MainConteudoAusente)
      ensures Forms.Validacao(cfg).Success? && p.temContainer && p.temForm && p.temFormCrud && p.temMainConteudo
              && !p.containerNoBody
              ==> r == Failure(BackdropSemLugar)
      ensures r.Success? <==> Forms.Validacao(cfg).Success? && PaginaCompleta(p)
      ensures r.Success? ==> fresh(r.value) && r.value.Inicial(cfg, o, p.temFooter, 0) && r.value.titulo == t
    {
      var v := Forms.Validacao(cfg);
      if v.Failure? {
        return Failure(Invalida(v.error));
      }
      if !(p.temContainer && p.temForm) {
        return Failure(ContainerAusente);
      }
      if !p.temFormCrud {
        return Failure(FormCrudAusente);
      }
      if !p.temMainConteudo {
        return Failure(MainConteudoAusente);
      }
      if !p.containerNoBody {
        return Failure(BackdropSemLugar);
      }
      var m := new Modal(cfg, o, p.temFooter, 0, t);
      return Success(m);
    }

    /** `estaVisivel`: a backdrop exists and is displayed. */
    predicate EstaVisivel()
      reads this
    {
      backdrop == Some(true)
    }

    /** `obterDadosFormulario` of the base, which has no selects. */
    function Dados(): (d: map<string, Scalar>)
      reads this
      ensures selectsBase.None? ==> d == Forms.DadosDosCampos(campos)
    {
      Forms.Mesclar(Forms.DadosDosCampos(campos), selectsBase)
    }

    /** `_onMouseDown`: dragging starts, with the offset of the pointer from the corner. */
    method OnMouseDown(ponteiro: Ponto, canto: Ponto)
      modifies this
      ensures isDragging && dragOffset == Deslocamento(ponteiro, canto)
      ensures posicao == old(posicao) && backdrop == old(backdrop) && visivel == old(visivel)
      ensures eventos == old(eventos) && rodape == old(rodape) && botoesModal == old(botoesModal)
    {
      isDragging := true;
      dragOffset := Deslocamento(ponteiro, canto);
    }

    /**
     * `_onMouseMove`: while dragging, places the modal at the clamped
     * position and drops the centring transform; otherwise nothing happens.
     */
    method OnMouseMove(ponteiro: Ponto, viewport: Ponto, tamanho: Ponto)
      modifies this
      ensures old(isDragging) ==> posicao == Some(NovaPosicao(ponteiro, dragOffset, viewport, tamanho))
      ensures !old(isDragging) ==> posicao == old(posicao)
      ensures isDragging == old(isDragging) && dragOffset == old(dragOffset)
      ensures backdrop == old(backdrop) && visivel == old(visivel) && eventos == old(eventos)
      ensures rodape == old(rodape) && botoesModal == old(botoesModal)
    {
      if !isDragging {
        return;
      }
      posicao := Some(NovaPosicao(ponteiro, dragOffset, viewport, tamanho));
    }

    /** `_onMouseUp`: dragging stops; the position stays. */
    method OnMouseUp()
      modifies this
      ensures !isDragging && dragOffset == old(dragOffset) && posicao == old(posicao)
      ensures backdrop == old(backdrop) && visivel == old(visivel) && eventos == old(eventos)
    {
      isDragging := false;
    }

    /**
     * `exibir`: shows the backdrop if there is one and the container, and
     * re-centres the modal (the 10 ms timer is taken as already fired).
     */
    method Exibir()
      modifies this
      ensures backdrop == (if old(backdrop).Some? then Some(true) else None)
      ensures EstaVisivel() <==> old(backdrop).Some?
      ensures visivel && posicao.None?
      ensures isDragging == old(isDragging) && eventos == old(eventos) && backdropsPerdidos == old(backdropsPerdidos)
      ensures rodape == old(rodape) && botoesModal == old(botoesModal)
    {
      if backdrop.Some? {
        backdrop := Some(true);
      }
      visivel := true;
      posicao := None;
    }

    /** `ocultar`: hides the backdrop if there is one and the container. */
    method Ocultar()
      modifies this
      ensures backdrop == (if old(backdrop).Some? then Some(false) else None)
      ensures !EstaVisivel() && !visivel
      ensures posicao == old(posicao) && isDragging == old(isDragging) && eventos == old(eventos)
      ensures backdropsPerdidos == old(backdropsPerdidos) && rodape == old(rodape) && botoesModal == old(botoesModal)
    {
      if backdrop.Some? {
        backdrop := Some(false);
      }
      visivel := false;
    }

    /** `destruir`: the backdrop is removed and the reference cleared, then the modal is hidden. */
    method Destruir()
      modifies this
      ensures backdrop.None? && !EstaVisivel() && !visivel
      ensures posicao == old(posicao) && eventos == old(eventos) && backdropsPerdidos == old(backdropsPerdidos)
    {
      backdrop := None;
      Ocultar();
    }

    /** `recentralizar`: back to the CSS-centred placement. */
    method Recentralizar()
      modifies this
      ensures posicao.None?
      ensures backdrop == old(backdrop) && visivel == old(visivel) && isDragging == old(isDragging) && eventos == old(eventos)
    {
      posicao := None;
    }

    /** `redefinirBotoes`: new texts, rewritten into the footer when there is one. */
    method RedefinirBotoes(novos: seq<string>)
      modifies this
      ensures botoesModal == novos
      ensures rodape == (if temFooter then Some(TextosDoRodape(novos)) else None)
      ensures backdrop == old(backdrop) && visivel == old(visivel) && eventos == old(eventos) && posicao == old(posicao)
    {
      botoesModal := novos;
      rodape := if temFooter then Some(TextosDoRodape(novos)) else None;
    }

    /** `redefinirTitulo`. */
    method RedefinirTitulo(t: string)
      modifies this
      ensures titulo == t
      ensures backdrop == old(backdrop) && visivel == old(visivel) && eventos == old(eventos) && posicao == old(posicao)
      ensures botoesModal == old(botoesModal) && rodape == old(rodape)
    {
      titulo := t;
    }

    /** `_dispararEventoCustomizadoModal(acao, { dados })` on the container. */
    method Disparar(acao: string)
      modifies this
      ensures eventos == old(eventos) + [Forms.EventoForm(acao, Dados())]
      ensures backdrop == old(backdrop) && visivel == old(visivel) && posicao == old(posicao)
      ensures isDragging == old(isDragging) && rodape == old(rodape) && botoesModal == old(botoesModal)
      ensures backdropsPerdidos == old(backdropsPerdidos)
    {
      eventos := eventos + [Forms.EventoForm(acao, Dados())];
    }

    /** `_onEncerrar` (close button or backdrop click): dispatches 'encerrar', then hides the modal. */
    method OnEncerrar()
      modifies this
      ensures eventos == old(eventos) + [Forms.EventoForm("encerrar", Dados())]
      ensures backdrop == (if old(backdrop).Some? then Some(false) else None)
      ensures !EstaVisivel() && !visivel && posicao == old(posicao)
    {
      Disparar("encerrar");
      Ocultar();
    }

    /**
     * `_onSubmit`: dispatches 'submit' only when `validarEDados()` holds;
     * `valido` is its result (the inherited one always returns true). The
     * modal stays as it was.
     */
    method OnSubmit(valido: bool)
      modifies this
      ensures eventos == old(eventos) + (if valido then [Forms.EventoForm("submit", Dados())] else [])
      ensures backdrop == old(backdrop) && visivel == old(visivel) && posicao == old(posicao)
    {
      if valido {
        Disparar("submit");
      }
    }
  }

  /**
   * After `exibir`, `estaVisivel` holds exactly when the modal still has a
   * backdrop; after `ocultar`, `destruir` or `_onEncerrar` it never holds,
   * and a destroyed modal shown again stays invisible.
   */
  method CicloDeVisibilidade(m: Modal)
    modifies m
    requires m.backdrop.Some?
    ensures !m.EstaVisivel() && m.backdrop.None?
  {
    m.Exibir();
    assert m.EstaVisivel();
    m.Ocultar();
    assert !m.EstaVisivel();
    m.Exibir();
    m.Destruir();
    m.Exibir();
    assert !m.EstaVisivel();
  }
}
