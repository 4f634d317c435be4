/**
 * The login form (`ConstrutorDeFormLogin`): a two-field modal form, the
 * default field validation, the simulated authentication, the attempt
 * counter and its lockout, and the public show / close / destroy calls.
 * The DOM styling, the delayed customisation and `localStorage` are not
 * modelled; the timers the handlers start are recorded as scheduled actions.
 */
module Login {
  import opened JsCommon
  import Forms
  import FormModal

  /** The object the modal hands to the listener (`event.detail.dados`). */
  type Dados = map<string, Scalar>

  const MsgUsuario := "Por favor, informe o usuário/email"
  const MsgSenha := "Por favor, informe a senha"
  const MsgTamanho := "A senha deve ter pelo menos 4 caracteres"
  const MsgInvalidos := "Usuário ou senha inválidos"
  const MsgBloqueio := "Muitas tentativas de login. Tente novamente em alguns minutos."
  const MsgSucesso := "Login realizado com sucesso!"

  /** The minimum raw password length. */
  const SenhaMinima := 4

  // ---------------------------------------------------------------------
  // validarCampos and autenticar
  // ---------------------------------------------------------------------

  /** The outcome of the validation hook: accepted, refused (with the message shown, if any), or thrown. */
  datatype Validacao = Aceita | Recusada(motivo: Option<string>) | Lancou

  /**
   * `validarCampos`: a blank user is refused first, then a blank password,
   * then a password whose raw length (surrounding spaces included) is
   * below the minimum.
   */
  function ValidarCampos(d: Dados): (r: Validacao)
    ensures r == Recusada(Some(MsgUsuario)) <==> MissingOrBlank(Get(d, "usuario")) == Some(true)
    ensures r == Recusada(Some(MsgSenha)) <==>
              MissingOrBlank(Get(d, "usuario")) == Some(false) && MissingOrBlank(Get(d, "senha")) == Some(true)
    ensures r == Recusada(Some(MsgTamanho)) <==>
              MissingOrBlank(Get(d, "usuario")) == Some(false) && MissingOrBlank(Get(d, "senha")) == Some(false)
              && |Get(d, "senha").s| < SenhaMinima
    ensures r == Aceita <==>
              Get(d, "usuario").Str? && !IsBlank(Get(d, "usuario").s)
              && Get(d, "senha").Str? && !IsBlank(Get(d, "senha").s) && |Get(d, "senha").s| >= SenhaMinima
    ensures r == Lancou <==>
              MissingOrBlank(Get(d, "usuario")).None?
              || (MissingOrBlank(Get(d, "usuario")) == Some(false) && MissingOrBlank(Get(d, "senha")).None?)
  {
    var u := Get(d, "usuario");
    var s := Get(d, "senha");
    match MissingOrBlank(u)
    case None => Lancou
    case Some(true) => Recusada(Some(MsgUsuario))
    case Some(false) =>
      match MissingOrBlank(s)
      case None => Lancou
      case Some(true) => Recusada(Some(MsgSenha))
      case Some(false) => if |s.s| < SenhaMinima then Recusada(Some(MsgTamanho)) else Aceita
  }

  /** Spaces around the password count toward the minimum length: "  ab" is accepted. */
  lemma EspacosContamNoTamanho(usuario: string)
    requires !IsBlank(usuario)
    ensures ValidarCampos(map["usuario" := Str(usuario), "senha" := Str("  ab")]) == Aceita
    ensures Trim("  ab") == "ab"
  {
    var d := map["usuario" := Str(usuario), "senha" := Str("  ab")];
    assert Get(d, "senha") == Str("  ab");
    assert !IsJsSpace("  ab"[2]);
    assert TrimStart("  ab") == "ab" by {
      assert "  ab"[1..] == " ab" && " ab"[1..] == "ab";
      assert !IsJsSpace("ab"[0]);
    }
    assert TrimEnd("ab") == "ab" by {
      assert !IsJsSpace("ab"[1]);
    }
  }

  /** What `autenticar` resolves to. */
  datatype Autenticacao = Autenticado(usuario: Scalar) | Negado(erro: string)

  /** The simulated `autenticar`: success exactly when user and password are both truthy. */
  function Autenticar(d: Dados): (r: Autenticacao)
    ensures r.Autenticado? <==> Truthy(Get(d, "usuario")) && Truthy(Get(d, "senha"))
    ensures r.Autenticado? ==> r.usuario == Get(d, "usuario")
    ensures r.Negado? ==> r.erro == MsgInvalidos
  {
    if Truthy(Get(d, "usuario")) && Truthy(Get(d, "senha")) then Autenticado(Get(d, "usuario"))
    else Negado(MsgInvalidos)
  }

  /** With the default validator, every submission that passes validation is authenticated. */
  lemma ValidadoEhAutenticado(d: Dados)
    requires ValidarCampos(d) == Aceita
    ensures Autenticar(d).Autenticado?
  {
    var u, s := Get(d, "usuario"), Get(d, "senha");
    assert u.s != [] && s.s != [];
  }

  /** The validation hook: a configured `onValidacao`, or the default `validarCampos`. */
  function Decisao(validador: Option<Dados -> bool>, d: Dados): (r: Validacao)
    ensures validador.None? ==> r == ValidarCampos(d)
    ensures validador.Some? ==> (r == Aceita <==> validador.value(d)) && r != Lancou
    ensures validador.Some? && r.Recusada? ==> r.motivo.None?
  {
    match validador
    case None => ValidarCampos(d)
    case Some(f) => if f(d) then Aceita else Recusada(None)
  }

  /** How much one submission adds to `tentativasLogin`: 1 for a refused authentication, 0 otherwise. */
  function Incremento(validador: Option<Dados -> bool>, d: Dados): (r: nat)
    ensures r <= 1
    ensures r == 1 <==> Decisao(validador, d) == Aceita && Autenticar(d).Negado?
  {
    if Decisao(validador, d) == Aceita && Autenticar(d).Negado? then 1 else 0
  }

  /** With the default validator the counter never moves, so the lockout is unreachable. */
  lemma PadraoNaoConta(d: Dados)
    ensures Incremento(None, d) == 0
  {
    if ValidarCampos(d) == Aceita {
      ValidadoEhAutenticado(d);
    }
  }

  /** `config.maxTentativas || 3`: an absent limit and a limit of 0 both become 3. */
  function MaxTentativas(configurado: Option<int>): (r: int)
    ensures configurado.None? || configurado == Some(0) ==> r == 3
    ensures configurado.Some? && configurado.value != 0 ==> r == configurado.value
  {
    if configurado.Some? && configurado.value != 0 then configurado.value else 3
  }

  // ---------------------------------------------------------------------
  // Construction
  // ---------------------------------------------------------------------

  /** The options of the constructor that the model keeps. */
  datatype ConfigLogin = ConfigLogin(
    titulo: Option<string>,
    maxTentativas: Option<int>,
    estiloModal: map<string, string>,
    onValidacao: Option<Dados -> bool>)

  /** `config.titulo || 'Login'`. */
  function TituloDoLogin(cfg: ConfigLogin): (r: string)
    ensures cfg.titulo.Some? && cfg.titulo.value != "" ==> r == cfg.titulo.value
    ensures cfg.titulo.None? || cfg.titulo == Some("") ==> r == "Login"
  {
    if cfg.titulo.Some? && cfg.titulo.value != "" then cfg.titulo.value else "Login"
  }

  /** `{ larguraMinima: '400px', alturaMinima: '450px', ...config.estiloModal }`. */
  function EstiloDoLogin(cfg: ConfigLogin): (r: map<string, string>)
    ensures forall k :: k in r <==> k in cfg.estiloModal || k == "larguraMinima" || k == "alturaMinima"
    ensures forall k :: k in cfg.estiloModal ==> r[k] == cfg.estiloModal[k]
    ensures "larguraMinima" !in cfg.estiloModal ==> r["larguraMinima"] == "400px"
    ensures "alturaMinima" !in cfg.estiloModal ==> r["alturaMinima"] == "450px"
  {
    map["larguraMinima" := "400px", "alturaMinima" := "450px"] + cfg.estiloModal
  }

  /** The two text fields `criarFormulario` describes: user on row 0, password on row 1. */
  const CamposDoLogin := Forms.ConfigForm(
    ["input", "input"], ["Usuário/Email", "Senha"], ["usuario", "senha"],
    [Some("texto"), Some("texto")], [Forms.Numerica(0, 0), Forms.Numerica(1, 0)],
    ["H", "H"], ["30", "30"])

  const BotoesDoLogin := ["Cancelar", "Entrar"]

  /** The login's field lists pass every check of `validacao`. */
  lemma CamposDoLoginValidos()
    ensures Forms.Validacao(CamposDoLogin).Success?
  {
    var cfg := CamposDoLogin;
    assert Forms.ListasIguais(cfg);
    assert "texto" in Forms.FormatosValidos && "H" in Forms.AlinhamentosValidos;
    assert Forms.ChecagemBasica(cfg);
    var ps := Forms.Coordenadas(cfg.pos);
    assert ps == [Forms.Posicao(0, 0), Forms.Posicao(1, 0)];
    LinhasDoLogin(ps);
    ColunasDoLogin(ps);
  }

  lemma LinhasDoLogin(ps: seq<Forms.Posicao>)
    requires ps == [Forms.Posicao(0, 0), Forms.Posicao(1, 0)]
    ensures Forms.LinhasSequenciais(ps)
  {
    var ls := Forms.Linhas(ps);
    assert ls[0] == 0 && ls[1] == 1;
    assert MaxInt(ls) == 1;
  }

  lemma ColunasDoLogin(ps: seq<Forms.Posicao>)
    requires ps == [Forms.Posicao(0, 0), Forms.Posicao(1, 0)]
    ensures Forms.ColunasSequenciais(ps)
  {
    forall i, c | 0 <= i < |ps| && 0 <= c <= Forms.MaxColuna(ps, ps[i].linha)
      ensures Forms.Posicao(ps[i].linha, c) in ps
    {
      assert Forms.ColunasDaLinha(ps, ps[i].linha) == [0];
      assert c == 0;
    }
  }

  // ---------------------------------------------------------------------
  // The login object
  // ---------------------------------------------------------------------

  /** A message shown at the top of the form (`exibirErro` / `exibirSucesso`). */
  datatype Mensagem = Erro(texto: string) | ErroDaExcecao | Sucesso(texto: string)

  /** The action of a timer a handler has started. */
  datatype Agendado =
    | FecharAposSucesso(usuario: Scalar)   // fechar, redirect, `login-sucesso`
    | FecharPorBloqueio                    // fechar
    | LimparSenha                          // clear and focus the password
    | RemoverMensagem(serie: nat)          // remove error message number `serie`, if still attached

  /** The delay, in milliseconds, each handler passes to `setTimeout`. */
  function Atraso(a: Agendado): nat
  {
    match a
    case FecharAposSucesso(_) => 1500
    case FecharPorBloqueio => 3000
    case LimparSenha => 500
    case RemoverMensagem(_) => 5000
  }

  /** A pending timer: the time it is due, in milliseconds since the login was built, and its action. */
  datatype Temporizador = Temporizador(prazo: nat, acao: Agendado)

  /** The timers that `setTimeout` calls made at time `agora` start, in call order. */
  function Marcar(agora: nat, acoes: seq<Agendado>): (r: seq<Temporizador>)
    ensures |r| == |acoes|
  {
    if acoes == [] then [] else [Temporizador(agora + Atraso(acoes[0]), acoes[0])] + Marcar(agora, acoes[1..])
  }

  /** Each timer is due its action's delay after `agora`, in call order. */
  lemma {:induction false} MarcarPorPosicao(agora: nat, acoes: seq<Agendado>)
    ensures forall i :: 0 <= i < |acoes| ==> Marcar(agora, acoes)[i] == Temporizador(agora + Atraso(acoes[i]), acoes[i])
  {
    if acoes != [] {
      MarcarPorPosicao(agora, acoes[1..]);
    }
  }

  /**
   * The timer that fires next: the earliest due, and among those due at
   * the same time the one started first.
   */
  function Proximo(ts: seq<Temporizador>): (i: nat)
    requires ts != []
    ensures i < |ts|
    ensures forall j :: 0 <= j < |ts| ==> ts[i].prazo <= ts[j].prazo
    ensures forall j :: 0 <= j < i ==> ts[j].prazo > ts[i].prazo
  {
    if |ts| == 1 then 0
    else
      var k := Proximo(ts[1..]);
      if ts[0].prazo <= ts[1..][k].prazo then 0 else k + 1
  }

  /** A document event the login dispatches. */
  datatype Aviso = LoginCancelado(tentativas: nat) | LoginSucesso(usuario: Scalar)

  /** How the promise of an async handler settles. */
  datatype Desfecho = Resolvida | Rejeitada

  class FormLogin {
    var modal: FormModal.Modal?
    var tentativasLogin: nat
    const maxTentativas: int
    const onValidacao: Option<Dados -> bool>
    /** The `button[data-acao="submit"]` in the container, by its `disabled` flag, if there is one. */
    var botaoSubmit: Option<bool>
    var mensagem: Option<Mensagem>
    /** The pending `setTimeout` callbacks. */
    var agendados: seq<Temporizador>
    /** The time, in milliseconds since construction, of the last timer that fired. */
    var agora: nat
    /** How many message divs `exibirErro` / `exibirSucesso` have created; the one on the form, if any, is the last. */
    var mostrada: nat
    var avisos: seq<Aviso>
    var elementos: set<string>
    var formData: Dados

    /** The state right after construction. */
    ghost predicate Inicial(cfg: ConfigLogin, m: FormModal.Modal, botao: bool)
      reads this
    {
      modal == m && tentativasLogin == 0 && maxTentativas == MaxTentativas(cfg.maxTentativas)
      && onValidacao == cfg.onValidacao && botaoSubmit == (if botao then Some(false) else None)
      && mensagem.None? && agendados == [] && agora == 0 && mostrada == 0
      && avisos == [] && elementos == {} && formData == map[]
    }

    constructor(cfg: ConfigLogin, m: FormModal.Modal, botao: bool)
      ensures Inicial(cfg, m, botao)
    {
      modal := m;
      tentativasLogin := 0;
      maxTentativas := MaxTentativas(cfg.maxTentativas);
      onValidacao := cfg.onValidacao;
      botaoSubmit := if botao then Some(false) else None;
      mensagem := None;
      agendados := [];
      agora := 0;
      mostrada := 0;
      avisos := [];
      elementos := {};
      formData := map[];
    }

    /**
     * `new ConstrutorDeFormLogin(config)`: builds its modal with the
     * corrected modal constructor, which throws exactly when the page lacks
     * an element `render` reaches; `botao` says whether the page holds a
     * `button[data-acao="submit"]`.
     */
    static method Criar(cfg: ConfigLogin, p: FormModal.Pagina, botao: bool) returns (r: Result<FormLogin, FormModal.ErroModal>)
      ensures r.Failure? <==> !FormModal.PaginaCompleta(p)
      ensures !(p.temContainer && p.temForm) ==> r == Failure(FormModal.ContainerAusente)
      ensures r.Failure? ==>
                r.error.ContainerAusente? || r.error.FormCrudAusente? || r.error.MainConteudoAusente? || r.error.BackdropSemLugar?
      ensures r.Success? ==> fresh(r.value) && fresh(r.value.modal) && r.value.modal != null
      ensures r.Success? ==> r.value.Inicial(cfg, r.value.modal, botao)
      ensures r.Success? ==> r.value.modal.Inicial(CamposDoLogin, OpcoesDoLogin(cfg), p.temFooter, 0)
                             && r.value.modal.titulo == TituloDoLogin(cfg)
    {
      CamposDoLoginValidos();
      var m := FormModal.Modal.Criar(TituloDoLogin(cfg), CamposDoLogin, OpcoesDoLogin(cfg), p);
      if m.Failure? {
        return Failure(m.error);
      }
      var l := new FormLogin(cfg, m.value, botao);
      return Success(l);
    }

    /** `estaVisivel`: false without a modal, otherwise the modal's answer. */
    predicate EstaVisivel()
      reads this, modal
    {
      modal != null && modal.EstaVisivel()
    }

    /**
     * `exibirErro` / `exibirSucesso`: the previous message is removed and a
     * new one shown; an error message also starts the 5 s timer that
     * removes it.
     */
    method Mostrar(m: Mensagem)
      modifies this
      ensures mensagem == Some(m) && mostrada == old(mostrada) + 1
      ensures m.Sucesso? ==> agendados == old(agendados)
      ensures !m.Sucesso? ==> agendados == old(agendados) + [Temporizador(agora + 5000, RemoverMensagem(mostrada))]
      ensures modal == old(modal) && tentativasLogin == old(tentativasLogin) && botaoSubmit == old(botaoSubmit)
      ensures agora == old(agora) && avisos == old(avisos)
    {
      mensagem := Some(m);
      mostrada := mostrada + 1;
      if !m.Sucesso? {
        agendados := agendados + [Temporizador(agora + 5000, RemoverMensagem(mostrada))];
      }
    }

    /** `exibirLoading`: only a submit button that exists is disabled or re-enabled. */
    method ExibirLoading(mostrar: bool)
      modifies this
      ensures botaoSubmit == (if old(botaoSubmit).Some? then Some(mostrar) else None)
      ensures modal == old(modal) && tentativasLogin == old(tentativasLogin) && mensagem == old(mensagem)
      ensures agendados == old(agendados) && agora == old(agora) && mostrada == old(mostrada) && avisos == old(avisos)
    {
      if botaoSubmit.Some? {
        botaoSubmit := Some(mostrar);
      }
    }

    /** `handleLoginSucesso`: the success message, and the 1.5 s timer that closes the form. */
    method HandleLoginSucesso(usuario: Scalar)
      modifies this
      ensures mensagem == Some(Sucesso(MsgSucesso)) && mostrada == old(mostrada) + 1
      ensures agendados == old(agendados) + [Temporizador(agora + 1500, FecharAposSucesso(usuario))]
      ensures modal == old(modal) && tentativasLogin == old(tentativasLogin) && botaoSubmit == old(botaoSubmit)
      ensures agora == old(agora) && avisos == old(avisos)
    {
      Mostrar(Sucesso(MsgSucesso));
      agendados := agendados + [Temporizador(agora + 1500, FecharAposSucesso(usuario))];
    }

    /**
     * `handleLoginErro`: the error is shown, with its removal timer; at or
     * past the limit the lockout message, with its own removal timer,
     * replaces it and the form is scheduled to close in 3 s, otherwise the
     * password is scheduled to be cleared in 0.5 s.
     */
    method HandleLoginErro(erro: Mensagem)
      requires !erro.Sucesso?
      modifies this
      ensures tentativasLogin >= maxTentativas ==>
                mensagem == Some(Erro(MsgBloqueio)) && mostrada == old(mostrada) + 2
                && agendados == old(agendados) + [Temporizador(agora + 5000, RemoverMensagem(old(mostrada) + 1)),
                                                  Temporizador(agora + 5000, RemoverMensagem(old(mostrada) + 2)),
                                                  Temporizador(agora + 3000, FecharPorBloqueio)]
      ensures tentativasLogin < maxTentativas ==>
                mensagem == Some(erro) && mostrada == old(mostrada) + 1
                && agendados == old(agendados) + [Temporizador(agora + 5000, RemoverMensagem(old(mostrada) + 1)),
                                                  Temporizador(agora + 500, LimparSenha)]
      ensures modal == old(modal) && tentativasLogin == old(tentativasLogin) && botaoSubmit == old(botaoSubmit)
      ensures agora == old(agora) && avisos == old(avisos)
    {
      Mostrar(erro);
      if tentativasLogin >= maxTentativas {
        Mostrar(Erro(MsgBloqueio));
        agendados := agendados + [Temporizador(agora + 3000, FecharPorBloqueio)];
        return;
      }
      agendados := agendados + [Temporizador(agora + 500, LimparSenha)];
    }

    /**
     * `handleSubmitLogin(dados)`. Without a modal every path throws (the
     * first message or the loading toggle reads `this.modal`) and nothing
     * changes. Otherwise: a refusal shows its message and stops; a throw
     * from validation goes to the error handler; an accepted submission is
     * authenticated, a refused authentication counting one attempt. The
     * loading flag is cleared on every path.
     */
    method HandleSubmitLogin(dados: Dados) returns (d: Desfecho)
      modifies this
      ensures old(modal) == null ==> d == Rejeitada && unchanged(this)
      ensures old(modal) != null ==> d == Resolvida && modal == old(modal) && agora == old(agora)
      ensures old(modal) != null ==> tentativasLogin == old(tentativasLogin) + Incremento(onValidacao, dados)
      ensures old(modal) != null ==> botaoSubmit == (if old(botaoSubmit).Some? then Some(false) else None)
      ensures old(modal) != null ==>
                agendados == old(agendados) + Marcar(agora, Agenda(Decisao(onValidacao, dados), dados, tentativasLogin >= maxTentativas, old(mostrada)))
      ensures old(modal) != null ==>
                mostrada == old(mostrada) + Exibidas(Decisao(onValidacao, dados), dados, tentativasLogin >= maxTentativas)
      ensures old(modal) != null ==> avisos == old(avisos)
      ensures old(modal) != null ==> mensagem == MensagemFinal(Decisao(onValidacao, dados), dados, tentativasLogin >= maxTentativas, old(mensagem))
    {
      if modal == null {
        return Rejeitada;
      }
      var v := Decisao(onValidacao, dados);
      ghost var s0 := mostrada;
      match v {
        case Recusada(motivo) =>
          if motivo.Some? {
            Mostrar(Erro(motivo.value));
          }
          MarcarPorPosicao(agora, Agenda(v, dados, tentativasLogin >= maxTentativas, s0));
        case Lancou =>
          HandleLoginErro(ErroDaExcecao);
          MarcarPorPosicao(agora, Agenda(v, dados, tentativasLogin >= maxTentativas, s0));
        case Aceita =>
          Autenticacao(dados);
      }
      ExibirLoading(false);
      return Resolvida;
    }

    /**
     * The accepted path of `handleSubmitLogin`: the loading state, then
     * `autenticar`, then the success handler, or one more attempt and the
     * error handler.
     */
    method Autenticacao(dados: Dados)
      modifies this
      ensures modal == old(modal) && agora == old(agora) && avisos == old(avisos)
      ensures tentativasLogin == old(tentativasLogin) + (if Autenticar(dados).Negado? then 1 else 0)
      ensures botaoSubmit == (if old(botaoSubmit).Some? then Some(true) else None)
      ensures agendados == old(agendados) + Marcar(agora, Agenda(Aceita, dados, tentativasLogin >= maxTentativas, old(mostrada)))
      ensures mostrada == old(mostrada) + Exibidas(Aceita, dados, tentativasLogin >= maxTentativas)
      ensures mensagem == MensagemFinal(Aceita, dados, tentativasLogin >= maxTentativas, old(mensagem))
    {
      ExibirLoading(true);
      var resultado := Autenticar(dados);
      if resultado.Autenticado? {
        HandleLoginSucesso(resultado.usuario);
      } else {
        tentativasLogin := tentativasLogin + 1;
        HandleLoginErro(Erro(resultado.erro));
      }
      MarcarPorPosicao(agora, Agenda(Aceita, dados, tentativasLogin >= maxTentativas, old(mostrada)));
    }

    /** `handleEncerrarLogin`: dispatches `login-cancelado` with the attempt count. */
    method HandleEncerrarLogin()
      modifies this
      ensures avisos == old(avisos) + [LoginCancelado(tentativasLogin)]
      ensures modal == old(modal) && tentativasLogin == old(tentativasLogin) && mensagem == old(mensagem)
      ensures agendados == old(agendados) && agora == old(agora) && mostrada == old(mostrada) && botaoSubmit == old(botaoSubmit)
    {
      avisos := avisos + [LoginCancelado(tentativasLogin)];
    }

    /** The `form-modal-acao` listener: routes `submit` and `encerrar`; any other action only warns. */
    method AoAcaoDoModal(ev: Forms.EventoForm)
      modifies this
      ensures ev.acao != "submit" && ev.acao != "encerrar" ==> unchanged(this)
      ensures ev.acao == "encerrar" ==> avisos == old(avisos) + [LoginCancelado(old(tentativasLogin))]
                                        && tentativasLogin == old(tentativasLogin)
      ensures ev.acao == "submit" && old(modal) != null ==>
                tentativasLogin == old(tentativasLogin) + Incremento(onValidacao, ev.dados)
    {
      if ev.acao == "submit" {
        var _ := HandleSubmitLogin(ev.dados);
      } else if ev.acao == "encerrar" {
        HandleEncerrarLogin();
      }
    }

    /** `exibir`: with a modal, the counter is reset and the modal shown. */
    method Exibir()
      modifies this, modal
      ensures modal == old(modal)
      ensures old(modal) != null ==> tentativasLogin == 0 && (EstaVisivel() <==> old(modal.backdrop).Some?)
      ensures old(modal) == null ==> tentativasLogin == old(tentativasLogin) && !EstaVisivel()
    {
      if modal != null {
        tentativasLogin := 0;
        modal.Exibir();
      }
    }

    /** `fechar`: hides the modal, if any. */
    method Fechar()
      modifies this, modal
      ensures modal == old(modal) && tentativasLogin == old(tentativasLogin) && !EstaVisivel()
      ensures agendados == old(agendados) && avisos == old(avisos) && mensagem == old(mensagem)
      ensures agora == old(agora) && mostrada == old(mostrada)
    {
      if modal != null {
        modal.Ocultar();
      }
    }

    /** `destruir`: the modal is destroyed and dropped, the caches emptied; the form is no longer visible. */
    method Destruir()
      modifies this, modal
      ensures modal == null && elementos == {} && formData == map[] && !EstaVisivel()
      ensures old(modal) != null ==> old(modal).backdrop.None? && !old(modal).visivel
      ensures tentativasLogin == old(tentativasLogin) && agendados == old(agendados)
      ensures agora == old(agora) && mostrada == old(mostrada) && mensagem == old(mensagem)
    {
      if modal != null {
        modal.Destruir();
        modal := null;
      }
      elementos := {};
      formData := map[];
    }

    /**
     * The next timer fires (`Proximo`) and the clock moves to its due time:
     * the success and lockout timers close the form (the success one then
     * dispatches `login-sucesso`); a removal timer takes its message off the
     * form only while that message is still the one shown; the password
     * clear touches only the DOM.
     */
    method DispararTemporizador()
      requires agendados != []
      modifies this, modal
      ensures var i := Proximo(old(agendados));
              agendados == old(agendados)[..i] + old(agendados)[i + 1..]
              && agora == (if old(agendados)[i].prazo > old(agora) then old(agendados)[i].prazo else old(agora))
      ensures modal == old(modal) && tentativasLogin == old(tentativasLogin) && mostrada == old(mostrada)
      ensures var a := old(agendados)[Proximo(old(agendados))].acao;
              (a.FecharAposSucesso? ==>
                 !EstaVisivel() && avisos == old(avisos) + [LoginSucesso(a.usuario)] && mensagem == old(mensagem))
              && (a.FecharPorBloqueio? ==> !EstaVisivel() && avisos == old(avisos) && mensagem == old(mensagem))
              && (a.LimparSenha? ==> avisos == old(avisos) && mensagem == old(mensagem))
              && (a.RemoverMensagem? ==>
                    avisos == old(avisos) && mensagem == (if a.serie == old(mostrada) then None else old(mensagem)))
      ensures var a := old(agendados)[Proximo(old(agendados))].acao;
              (a.LimparSenha? || a.RemoverMensagem?) && modal != null ==> unchanged(modal)
    {
      var i := Proximo(agendados);
      var t := agendados[i];
      agendados := agendados[..i] + agendados[i + 1..];
      if t.prazo > agora {
        agora := t.prazo;
      }
      match t.acao {
        case FecharAposSucesso(u) =>
          Fechar();
          avisos := avisos + [LoginSucesso(u)];
        case FecharPorBloqueio =>
          Fechar();
        case LimparSenha =>
        case RemoverMensagem(k) =>
          if k == mostrada {
            mensagem := None;
          }
      }
    }
  }

  /** The modal options `criarFormulario` passes: the two button texts and the login style. */
  function OpcoesDoLogin(cfg: ConfigLogin): (r: FormModal.Opcoes)
    ensures r.botoesModal == Some(BotoesDoLogin) && r.estiloModal == Some(EstiloDoLogin(cfg))
    ensures r.grupoBotoes.None? && r.selects.None?
  {
    FormModal.Opcoes(None, None, Some(BotoesDoLogin), Some(EstiloDoLogin(cfg)))
  }

  /** How many message divs one submission creates. */
  function Exibidas(v: Validacao, d: Dados, noLimite: bool): (r: nat)
    ensures r <= 2
    ensures r == 0 <==> v == Recusada(None)
    ensures r == 2 <==> noLimite && (v == Lancou || (v == Aceita && Autenticar(d).Negado?))
  {
    match v
    case Recusada(m) => if m.Some? then 1 else 0
    case Lancou => if noLimite then 2 else 1
    case Aceita =>
      match Autenticar(d)
      case Autenticado(_) => 1
      case Negado(_) => if noLimite then 2 else 1
  }

  /**
   * The timer actions one submission starts, in call order, given the
   * validation outcome, whether the limit is reached, and how many
   * messages were shown before.
   */
  function Agenda(v: Validacao, d: Dados, noLimite: bool, serie: nat): (r: seq<Agendado>)
    ensures v == Recusada(None) ==> r == []
    ensures v.Recusada? && v.motivo.Some? ==> r == [RemoverMensagem(serie + 1)]
    ensures |r| <= 3
    ensures FecharPorBloqueio in r <==> noLimite && (v == Lancou || (v == Aceita && Autenticar(d).Negado?))
    ensures LimparSenha in r <==> !noLimite && (v == Lancou || (v == Aceita && Autenticar(d).Negado?))
    ensures v == Aceita && Autenticar(d).Autenticado? ==> r == [FecharAposSucesso(Get(d, "usuario"))]
    ensures RemoverMensagem(serie + Exibidas(v, d, noLimite)) in r <==>
              v != Recusada(None) && !(v == Aceita && Autenticar(d).Autenticado?)
  {
    match v
    case Recusada(m) => if m.Some? then [RemoverMensagem(serie + 1)] else []
    case Lancou =>
      if noLimite then [RemoverMensagem(serie + 1), RemoverMensagem(serie + 2), FecharPorBloqueio]
      else [RemoverMensagem(serie + 1), LimparSenha]
    case Aceita =>
      match Autenticar(d)
      case Autenticado(u) => [FecharAposSucesso(u)]
      case Negado(_) =>
        if noLimite then [RemoverMensagem(serie + 1), RemoverMensagem(serie + 2), FecharPorBloqueio]
        else [RemoverMensagem(serie + 1), LimparSenha]
  }

  /** Every removal one submission schedules is for a message that submission created. */
  lemma RemocoesDaAgenda(v: Validacao, d: Dados, noLimite: bool, serie: nat)
    ensures forall a :: a in Agenda(v, d, noLimite, serie) && a.RemoverMensagem? ==>
              serie < a.serie <= serie + Exibidas(v, d, noLimite)
  {
  }

  /** The message left on the form by one submission. */
  function MensagemFinal(v: Validacao, d: Dados, noLimite: bool, antes: Option<Mensagem>): (r: Option<Mensagem>)
    ensures v == Recusada(None) ==> r == antes
    ensures v.Recusada? && v.motivo.Some? ==> r == Some(Erro(v.motivo.value))
    ensures (v == Lancou || (v == Aceita && Autenticar(d).Negado?)) && noLimite ==> r == Some(Erro(MsgBloqueio))
    ensures v == Lancou && !noLimite ==> r == Some(ErroDaExcecao)
    ensures v == Aceita && Autenticar(d).Negado? && !noLimite ==> r == Some(Erro(MsgInvalidos))
    ensures v == Aceita && Autenticar(d).Autenticado? ==> r == Some(Sucesso(MsgSucesso))
  {
    match v
    case Recusada(m) => if m.Some? then Some(Erro(m.value)) else antes
    case Lancou => if noLimite then Some(Erro(MsgBloqueio)) else Some(ErroDaExcecao)
    case Aceita =>
      match Autenticar(d)
      case Autenticado(_) => Some(Sucesso(MsgSucesso))
      case Negado(e) => if noLimite then Some(Erro(MsgBloqueio)) else Some(Erro(e))
  }

  /**
   * The lockout: a refused authentication at one attempt below the limit
   * schedules the close, which fires after 3 s and hides the form while the
   * lockout message, due for removal at 5 s, is still shown.
   */
  method BloqueioFechaOFormulario(l: FormLogin, dados: Dados)
    requires l.modal != null && l.agendados == []
    requires Decisao(l.onValidacao, dados) == Aceita && Autenticar(dados).Negado?
    requires l.tentativasLogin + 1 >= l.maxTentativas
    modifies l, l.modal
    ensures l.modal == old(l.modal) && !l.EstaVisivel() && l.mensagem == Some(Erro(MsgBloqueio))
    ensures l.agora == old(l.agora) + 3000
    ensures l.mostrada == old(l.mostrada) + 2
    ensures l.agendados == [Temporizador(old(l.agora) + 5000, RemoverMensagem(old(l.mostrada) + 1)),
                            Temporizador(old(l.agora) + 5000, RemoverMensagem(old(l.mostrada) + 2))]
  {
    var _ := l.HandleSubmitLogin(dados);
    ghost var ts := l.agendados;
    MarcarPorPosicao(old(l.agora), Agenda(Aceita, dados, true, old(l.mostrada)));
    assert ts == [Temporizador(old(l.agora) + 5000, RemoverMensagem(old(l.mostrada) + 1)),
                  Temporizador(old(l.agora) + 5000, RemoverMensagem(old(l.mostrada) + 2)),
                  Temporizador(old(l.agora) + 3000, FecharPorBloqueio)];
    assert Proximo(ts) == 2;
    l.DispararTemporizador();
    assert l.agendados == ts[..2];
  }

  /**
   * Once every timer of the lockout has fired, the form is closed and no
   * message is left on it: the first removal finds its message already
   * replaced, the second removes the lockout message.
   */
  method BloqueioSemMensagemAoFim(l: FormLogin, dados: Dados)
    requires l.modal != null && l.agendados == []
    requires Decisao(l.onValidacao, dados) == Aceita && Autenticar(dados).Negado?
    requires l.tentativasLogin + 1 >= l.maxTentativas
    modifies l, l.modal
    ensures l.agendados == [] && !l.EstaVisivel() && l.mensagem.None? && l.agora == old(l.agora) + 5000
  {
    BloqueioFechaOFormulario(l, dados);
    assert Proximo(l.agendados) == 0;
    l.DispararTemporizador();
    assert Proximo(l.agendados) == 0;
    l.DispararTemporizador();
  }

  /**
   * A submission the default validation refuses leaves its message on the
   * form for 5 s; when that timer fires the message is gone.
   */
  method RecusaSomeAposCincoSegundos(l: FormLogin, dados: Dados)
    requires l.modal != null && l.agendados == []
    requires Decisao(l.onValidacao, dados).Recusada? && Decisao(l.onValidacao, dados).motivo.Some?
    modifies l, l.modal
    ensures l.agendados == [] && l.mensagem.None? && l.agora == old(l.agora) + 5000
    ensures l.tentativasLogin == old(l.tentativasLogin)
  {
    var _ := l.HandleSubmitLogin(dados);
    l.DispararTemporizador();
  }
}
