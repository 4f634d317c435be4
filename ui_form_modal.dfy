/**
 * The application module for modal forms (`ui_FormModal.js`): the example
 * modals, the `form-modal-acao` listener and its encerrar / submit
 * handlers, the field validation (required fields and the e-mail regular
 * expression), the unsaved-data check, and the confirmation modal whose
 * callback answers true or false.
 */
module UiFormModal {
  import opened JsCommon
  import Forms
  import FormModal

  /** The `dados` of a `form-modal-acao` event. */
  type Dados = map<string, Scalar>

  // ---------------------------------------------------------------------
  // isEmailValido: /^[^\s@]+@[^\s@]+\.[^\s@]+$/
  // ---------------------------------------------------------------------

  /** The class `[^\s@]`. */
  predicate CaractereDeEmail(c: char) {
    !IsJsSpace(c) && c != '@'
  }

  predicate SoCaracteresDeEmail(s: string) {
    forall k :: 0 <= k < |s| ==> CaractereDeEmail(s[k])
  }

  /**
   * The strings the regular expression accepts: an '@' at i and a '.' at j
   * split the string into three non-empty runs of `[^\s@]`.
   */
  ghost predicate CasaComARegex(s: string) {
    exists i, j :: 0 < i && i + 1 < j && j + 1 < |s| && s[i] == '@' && s[j] == '.'
      && SoCaracteresDeEmail(s[..i]) && SoCaracteresDeEmail(s[i + 1..j]) && SoCaracteresDeEmail(s[j + 1..])
  }

  /** The domain part holds a '.' that is neither its first nor its last character. */
  predicate PontoInterno(d: string) {
    |d| >= 3 && '.' in d[1..|d| - 1]
  }

  /**
   * How `isEmailValido` can be read: no whitespace, a first '@' that is not
   * the first character, no second '@', and an inner '.' after it.
   */
  predicate FormaDeEmail(s: string) {
    var i := IndexOf(s, '@');
    i > 0 && (forall k :: 0 <= k < |s| ==> !IsJsSpace(s[k])) && '@' !in s[i + 1..] && PontoInterno(s[i + 1..])
  }

  /** `isEmailValido(email)`: the regular expression's test. */
  function IsEmailValido(s: string): (r: bool)
    ensures r <==> CasaComARegex(s)
  {
    FormaSseRegex(s);
    FormaDeEmail(s)
  }

  /** The reading above accepts exactly the strings the regular expression matches. */
  lemma FormaSseRegex(s: string)
    ensures FormaDeEmail(s) <==> CasaComARegex(s)
  {
    if FormaDeEmail(s) { FormaCasa(s); }
    if CasaComARegex(s) { CasaTemForma(s); }
  }

  lemma SoCaracteresFatia(s: string, a: int, b: int)
    requires 0 <= a <= b <= |s|
    ensures SoCaracteresDeEmail(s[a..b]) <==> forall k :: a <= k < b ==> CaractereDeEmail(s[k])
  {
    if forall k :: a <= k < b ==> CaractereDeEmail(s[k]) {
      forall k | 0 <= k < b - a ensures CaractereDeEmail(s[a..b][k]) {
        assert s[a..b][k] == s[a + k];
      }
    }
  }

  lemma FormaCasa(s: string)
    requires FormaDeEmail(s)
    ensures CasaComARegex(s)
  {
    var i := IndexOf(s, '@');
    var d := s[i + 1..];
    var m :| 0 <= m < |d| - 2 && d[1..|d| - 1][m] == '.';
    var j := i + 2 + m;
    assert s[j] == d[m + 1];
    forall k | 0 <= k < |s| && k != i && k != j ensures CaractereDeEmail(s[k]) {
      if k > i { assert s[k] == d[k - i - 1]; }
    }
    SoCaracteresFatia(s, 0, i);
    SoCaracteresFatia(s, i + 1, j);
    SoCaracteresFatia(s, j + 1, |s|);
    assert s[..i] == s[0..i] && s[j + 1..] == s[j + 1..|s|];
  }

  /** The three runs of a match, read position by position. */
  ghost predicate PartesDoEmail(s: string, a: int, b: int) {
    0 < a && a + 1 < b && b + 1 < |s| && s[a] == '@' && s[b] == '.'
    && forall k :: 0 <= k < |s| && k != a && k != b ==> CaractereDeEmail(s[k])
  }

  lemma CasaTemForma(s: string)
    requires CasaComARegex(s)
    ensures FormaDeEmail(s)
  {
    var a, b :| 0 < a && a + 1 < b && b + 1 < |s| && s[a] == '@' && s[b] == '.'
      && SoCaracteresDeEmail(s[..a]) && SoCaracteresDeEmail(s[a + 1..b]) && SoCaracteresDeEmail(s[b + 1..]);
    assert s[..a] == s[0..a] && s[b + 1..] == s[b + 1..|s|];
    SoCaracteresFatia(s, 0, a);
    SoCaracteresFatia(s, a + 1, b);
    SoCaracteresFatia(s, b + 1, |s|);
    PartesTemForma(s, a, b);
  }

  lemma PartesTemForma(s: string, a: int, b: int)
    requires PartesDoEmail(s, a, b)
    ensures FormaDeEmail(s)
  {
    assert forall k :: 0 <= k < a ==> s[k] != '@';
    assert IndexOf(s, '@') == a;
    forall k | 0 <= k < |s| ensures !IsJsSpace(s[k]) {
      if k != a && k != b {
        assert CaractereDeEmail(s[k]);
      }
    }
    var d := s[a + 1..];
    forall k | 0 <= k < |d| ensures d[k] != '@' {
      assert d[k] == s[a + 1 + k];
    }
    assert d[1..|d| - 1][b - a - 2] == '.';
  }

  /** A plain address passes. */
  lemma ExemploValido()
    ensures IsEmailValido("ana@x.com")
  {
    var s := "ana@x.com";
    assert s[3] == '@' && s[5] == '.';
    assert SoCaracteresDeEmail(s[..3]) && SoCaracteresDeEmail(s[4..5]) && SoCaracteresDeEmail(s[6..]);
  }

  /** A space fails the test. */
  lemma ExemploComEspaco()
    ensures !IsEmailValido("a na@x.com")
  {
    assert IsJsSpace("a na@x.com"[1]);
  }

  /** A second '@' fails the test. */
  lemma ExemploDuasArrobas()
    ensures !IsEmailValido("a@b@c.d")
  {
    var s := "a@b@c.d";
    assert s[1] == '@' && s[0] != '@';
    assert IndexOf(s, '@') == 1;
    assert s[2..][1] == '@';
  }

  /** A valid address is never blank: its '@' is not whitespace. */
  lemma EmailValidoNaoEmBranco(s: string)
    requires IsEmailValido(s)
    ensures !IsBlank(s) && s != ""
  {
    var i := IndexOf(s, '@');
    assert !IsJsSpace(s[i]);
  }

  // ---------------------------------------------------------------------
  // validarDadosModal and temDadosNaoSalvos
  // ---------------------------------------------------------------------

  const CamposObrigatorios: seq<string> := ["nome", "email"]

  /**
   * The loop over the required fields: Some(false) at the first one that is
   * missing or blank, None if `trim` throws on a non-string first, and
   * Some(true) when every one holds a non-blank string.
   */
  function Obrigatorios(d: Dados, campos: seq<string>): (r: Option<bool>)
    ensures r == Some(true) <==> forall k :: 0 <= k < |campos| ==> MissingOrBlank(Get(d, campos[k])) == Some(false)
  {
    if campos == [] then Some(true)
    else
      match MissingOrBlank(Get(d, campos[0]))
      case None => None
      case Some(true) => Some(false)
      case Some(false) =>
        assert forall k :: 0 < k < |campos| ==> campos[k] == campos[1..][k - 1];
        Obrigatorios(d, campos[1..])
  }

  /** What `validarDadosModal` returns, or None when it throws. */
  function ValidacaoDoModal(d: Dados): (r: Option<bool>)
  {
    match Obrigatorios(d, CamposObrigatorios)
    case Some(true) =>
      assert MissingOrBlank(Get(d, CamposObrigatorios[1])) == Some(false);
      Some(IsEmailValido(Get(d, "email").s))
    case other => other
  }

  /** The required-field loop over `nome` then `email`, unrolled. */
  lemma ObrigatoriosDoModal(d: Dados)
    ensures Obrigatorios(d, CamposObrigatorios) ==
              match MissingOrBlank(Get(d, "nome"))
              case None => None
              case Some(true) => Some(false)
              case Some(false) =>
                match MissingOrBlank(Get(d, "email"))
                case None => None
                case Some(true) => Some(false)
                case Some(false) => Some(true)
  {
    assert CamposObrigatorios[0] == "nome" && CamposObrigatorios[1..] == ["email"];
    assert CamposObrigatorios[1..][1..] == [];
  }

  /** The outcomes of `validarDadosModal`, field by field. */
  lemma ValidacaoDoModalSse(d: Dados)
    ensures ValidacaoDoModal(d) == Some(true) <==>
              Get(d, "nome").Str? && !IsBlank(Get(d, "nome").s) && Get(d, "email").Str? && IsEmailValido(Get(d, "email").s)
    ensures MissingOrBlank(Get(d, "nome")) == Some(true) ==> ValidacaoDoModal(d) == Some(false)
    ensures MissingOrBlank(Get(d, "nome")) == Some(false) && MissingOrBlank(Get(d, "email")) == Some(true) ==>
              ValidacaoDoModal(d) == Some(false)
    ensures ValidacaoDoModal(d).None? <==>
              MissingOrBlank(Get(d, "nome")).None?
              || (MissingOrBlank(Get(d, "nome")) == Some(false) && MissingOrBlank(Get(d, "email")).None?)
    ensures Get(d, "email").Str? && !IsBlank(Get(d, "email").s) && !IsEmailValido(Get(d, "email").s) ==>
              ValidacaoDoModal(d) == (if MissingOrBlank(Get(d, "nome")) == Some(false) then Some(false)
                                      else Obrigatorios(d, CamposObrigatorios))
  {
    ObrigatoriosDoModal(d);
    var e := Get(d, "email");
    if e.Str? && IsEmailValido(e.s) {
      EmailValidoNaoEmBranco(e.s);
    }
  }

  /** `validarDadosModal(dados)`: the for-of loop over the required fields, then the e-mail check. */
  method ValidarDadosModal(d: Dados) returns (r: Option<bool>)
    ensures r == ValidacaoDoModal(d)
  {
    var i := 0;
    while i < |CamposObrigatorios|
      invariant 0 <= i <= |CamposObrigatorios|
      invariant Obrigatorios(d, CamposObrigatorios) == Obrigatorios(d, CamposObrigatorios[i..])
    {
      var v := MissingOrBlank(Get(d, CamposObrigatorios[i]));
      if v.None? {
        return None;
      }
      if v.value {
        return Some(false);
      }
      i := i + 1;
    }
    var email := Get(d, "email");
    if Truthy(email) && !IsEmailValido(email.s) {
      return Some(false);
    }
    ValidacaoDoModalSse(d);
    return Some(true);
  }

  /**
   * `valor && valor.toString().trim().length > 0`: for a string, not blank;
   * `true` and a non-zero number print without whitespace, so only their
   * truthiness matters.
   */
  predicate Preenchido(v: Scalar) {
    Truthy(v) && (v.Str? ==> !IsBlank(v.s))
  }

  /** `temDadosNaoSalvos`: `Object.values(dados).some(...)`. */
  predicate TemDadosNaoSalvos(d: Dados) {
    exists k :: k in d && Preenchido(d[k])
  }

  /** Data that passes validation always counts as unsaved: its `nome` is filled in. */
  lemma ValidoTemDadosNaoSalvos(d: Dados)
    requires ValidacaoDoModal(d) == Some(true)
    ensures TemDadosNaoSalvos(d)
  {
    ValidacaoDoModalSse(d);
    assert "nome" in d && Preenchido(d["nome"]);
  }

  /**
   * A value is filled in exactly when the required-field check finds it not
   * blank, except that a truthy non-string counts as filled where that
   * check throws.
   */
  lemma PreenchidoSseNaoEmBranco(v: Scalar)
    ensures v.Str? ==> (Preenchido(v) <==> MissingOrBlank(v) == Some(false))
    ensures !v.Str? ==> (Preenchido(v) <==> MissingOrBlank(v).None?)
  {
    if v.Str? && v.s == "" {
      assert IsBlank(v.s);
    }
  }

  // ---------------------------------------------------------------------
  // The handlers
  // ---------------------------------------------------------------------

  const MsgObrigatorios := "Por favor, preencha todos os campos obrigatórios."
  const MsgSalvos := "Dados salvos com sucesso!"
  const PrefixoErroAoSalvar := "Erro ao salvar: "

  /** An `alert` shown to the user. */
  datatype Alerta =
    | Alertar(texto: string)
    | ErroNoProcessamento   // 'Erro no processamento: ' and the engine's TypeError message

  /** What `processarDadosModal` resolves to. */
  datatype Processamento = Salvo | NaoSalvo(erro: string)

  /** The shipped `processarDadosModal` is a simulation that always succeeds. */
  function ProcessarDadosModal(d: Dados): (r: Processamento)
    ensures r.Salvo?
  {
    Salvo
  }

  /** The window the handlers talk to: its alerts, its confirm dialogs and the document's `modal-dados-salvos` events. */
  class Navegador {
    var alertas: seq<Alerta>
    var confirmacoes: nat
    var dadosSalvos: seq<Dados>

    constructor()
      ensures alertas == [] && confirmacoes == 0 && dadosSalvos == []
    {
      alertas := [];
      confirmacoes := 0;
      dadosSalvos := [];
    }
  }

  /**
   * `manipularEncerrarModal(instancia, dados)`: with unsaved data the user
   * is asked to confirm (`confirmar` is the answer); a refusal shows the
   * modal again. Otherwise nothing happens.
   */
  method ManipularEncerrarModal(nav: Navegador, m: FormModal.Modal, dados: Dados, confirmar: bool)
    modifies nav, m
    ensures nav.confirmacoes == old(nav.confirmacoes) + (if TemDadosNaoSalvos(dados) then 1 else 0)
    ensures nav.alertas == old(nav.alertas) && nav.dadosSalvos == old(nav.dadosSalvos)
    ensures TemDadosNaoSalvos(dados) && !confirmar ==>
              m.visivel && (m.EstaVisivel() <==> old(m.backdrop).Some?) && m.eventos == old(m.eventos)
    ensures !(TemDadosNaoSalvos(dados) && !confirmar) ==> unchanged(m)
  {
    if TemDadosNaoSalvos(dados) {
      nav.confirmacoes := nav.confirmacoes + 1;
      if !confirmar {
        m.Exibir();
        return;
      }
    }
  }

  /**
   * `manipularSubmitModal(instancia, dados)`: a throw in validation alerts
   * the error; invalid data alerts and returns before any processing; a
   * saved result alerts, hides the modal and announces the data; a failed
   * one alerts its error. `resultado` is what the processing resolved to.
   */
  method ManipularSubmitModal(nav: Navegador, m: FormModal.Modal, dados: Dados, resultado: Processamento)
    modifies nav, m
    ensures nav.confirmacoes == old(nav.confirmacoes)
    ensures ValidacaoDoModal(dados).None? ==>
              nav.alertas == old(nav.alertas) + [ErroNoProcessamento] && nav.dadosSalvos == old(nav.dadosSalvos) && unchanged(m)
    ensures ValidacaoDoModal(dados) == Some(false) ==>
              nav.alertas == old(nav.alertas) + [Alertar(MsgObrigatorios)] && nav.dadosSalvos == old(nav.dadosSalvos) && unchanged(m)
    ensures ValidacaoDoModal(dados) == Some(true) && resultado.Salvo? ==>
              nav.alertas == old(nav.alertas) + [Alertar(MsgSalvos)] && nav.dadosSalvos == old(nav.dadosSalvos) + [dados]
              && !m.EstaVisivel() && !m.visivel && m.eventos == old(m.eventos)
    ensures ValidacaoDoModal(dados) == Some(true) && resultado.NaoSalvo? ==>
              nav.alertas == old(nav.alertas) + [Alertar(PrefixoErroAoSalvar + resultado.erro)]
              && nav.dadosSalvos == old(nav.dadosSalvos) && unchanged(m)
  {
    var valido := ValidarDadosModal(dados);
    if valido.None? {
      nav.alertas := nav.alertas + [ErroNoProcessamento];
      return;
    }
    if !valido.value {
      nav.alertas := nav.alertas + [Alertar(MsgObrigatorios)];
      return;
    }
    if resultado.Salvo? {
      nav.alertas := nav.alertas + [Alertar(MsgSalvos)];
      m.Ocultar();
      nav.dadosSalvos := nav.dadosSalvos + [dados];
    } else {
      nav.alertas := nav.alertas + [Alertar(PrefixoErroAoSalvar + resultado.erro)];
    }
  }

  /**
   * The listener `configurarEventosModal` installs: routes 'encerrar' and
   * 'submit' to their handlers on the event's own modal; any other action
   * only warns.
   */
  method AoAcaoDoModal(nav: Navegador, instancia: FormModal.Modal, ev: Forms.EventoForm, confirmar: bool, resultado: Processamento)
    modifies nav, instancia
    ensures ev.acao != "encerrar" && ev.acao != "submit" ==> unchanged(nav) && unchanged(instancia)
    ensures ev.acao == "encerrar" ==>
              nav.alertas == old(nav.alertas) && nav.confirmacoes == old(nav.confirmacoes) + (if TemDadosNaoSalvos(ev.dados) then 1 else 0)
    ensures ev.acao == "submit" ==>
              nav.confirmacoes == old(nav.confirmacoes)
              && (nav.dadosSalvos == old(nav.dadosSalvos) + [ev.dados] <==> ValidacaoDoModal(ev.dados) == Some(true) && resultado.Salvo?)
  {
    if ev.acao == "encerrar" {
      ManipularEncerrarModal(nav, instancia, ev.dados, confirmar);
    } else if ev.acao == "submit" {
      ManipularSubmitModal(nav, instancia, ev.dados, resultado);
      assert |nav.dadosSalvos| == |old(nav.dadosSalvos)| + 1 <==> ValidacaoDoModal(ev.dados) == Some(true) && resultado.Salvo?;
    }
  }

  /**
   * A click on Encerrar of a modal with that listener, as written:
   * `_onEncerrar` dispatches the event, the listener runs synchronously
   * (its `confirm` comes before any `await`), and only then is the modal
   * hidden, so the modal the listener re-showed is hidden again.
   */
  method EncerrarComoEscrito(nav: Navegador, m: FormModal.Modal, confirmar: bool)
    modifies nav, m
    ensures m.eventos == old(m.eventos) + [Forms.EventoForm("encerrar", old(m.Dados()))]
    ensures nav.confirmacoes == old(nav.confirmacoes) + (if TemDadosNaoSalvos(old(m.Dados())) then 1 else 0)
    ensures !m.EstaVisivel() && !m.visivel
  {
    var dados := m.Dados();
    m.Disparar("encerrar");
    ManipularEncerrarModal(nav, m, dados, confirmar);
    m.Ocultar();
  }

  /** The user keeps a modal holding unsaved data open, and it closes anyway. */
  method ReaberturaDesfeita(nav: Navegador, m: FormModal.Modal)
    requires TemDadosNaoSalvos(m.Dados()) && m.backdrop.Some?
    modifies nav, m
    ensures nav.confirmacoes == old(nav.confirmacoes) + 1 && !m.EstaVisivel()
  {
    EncerrarComoEscrito(nav, m, false);
  }

  /**
   * The close as intended: the modal is hidden before the event goes out,
   * so a refusal to discard unsaved data leaves it shown.
   */
  method EncerrarCorrigido(nav: Navegador, m: FormModal.Modal, confirmar: bool)
    modifies nav, m
    ensures m.eventos == old(m.eventos) + [Forms.EventoForm("encerrar", old(m.Dados()))]
    ensures nav.confirmacoes == old(nav.confirmacoes) + (if TemDadosNaoSalvos(old(m.Dados())) then 1 else 0)
    ensures m.visivel <==> TemDadosNaoSalvos(old(m.Dados())) && !confirmar
    ensures m.EstaVisivel() <==> TemDadosNaoSalvos(old(m.Dados())) && !confirmar && old(m.backdrop).Some?
  {
    var dados := m.Dados();
    m.Ocultar();
    m.Disparar("encerrar");
    ManipularEncerrarModal(nav, m, dados, confirmar);
  }

  // ---------------------------------------------------------------------
  // The example modals
  // ---------------------------------------------------------------------

  /** `criarModalCadastroSimples`: three text fields, one per row. */
  const ConfigCadastroSimples := Forms.ConfigForm(
    ["input", "input", "input"], ["Nome", "Email", "Telefone"], ["nome", "email", "telefone"],
    [Some("texto"), Some("texto"), Some("texto")],
    [Forms.Numerica(0, 0), Forms.Numerica(1, 0), Forms.Numerica(2, 0)],
    ["H", "H", "H"], ["20", "20", "15"])

  const OpcoesCadastroSimples := FormModal.Opcoes(None, None, Some(["Cancelar", "Salvar"]),
    Some(map["larguraMinima" := "400px", "alturaMinima" := "300px"]))

  /** `criarModalEdicaoComplexo`: five fields on three rows, the first two rows with two columns. */
  const ConfigEdicaoComplexo := Forms.ConfigForm(
    ["input", "input", "textarea", "input", "combo"], ["Código", "Nome", "Descrição", "Preço", "Categoria"],
    ["codigo", "nome", "descricao", "preco", "categoria"],
    [Some("texto"), Some("texto"), Some("texto"), Some("moeda"), Some("texto")],
    [Forms.Numerica(0, 0), Forms.Numerica(0, 1), Forms.Numerica(1, 0), Forms.Numerica(1, 1), Forms.Numerica(2, 0)],
    ["H", "H", "V", "H", "H"], ["10", "25", "35", "12", "15"])

  const OpcoesEdicaoComplexo := FormModal.Opcoes(None, None, Some(["Cancelar", "Atualizar"]),
    Some(map["larguraMinima" := "600px"]))

  /** `criarModalConfirmacao`: one vertical textarea holding the message. */
  const ConfigConfirmacao := Forms.ConfigForm(
    ["textarea"], [""], ["mensagem"], [Some("texto")], [Forms.Numerica(0, 0)], ["V"], ["40"])

  const OpcoesConfirmacao := FormModal.Opcoes(None, None, Some(["Não", "Sim"]), None)

  lemma CadastroSimplesValido()
    ensures Forms.Validacao(ConfigCadastroSimples).Success?
  {
    var cfg := ConfigCadastroSimples;
    assert Forms.ListasIguais(cfg);
    assert "texto" in Forms.FormatosValidos && "H" in Forms.AlinhamentosValidos;
    assert Forms.ChecagemBasica(cfg);
    var ps := Forms.Coordenadas(cfg.pos);
    assert ps == [Forms.Posicao(0, 0), Forms.Posicao(1, 0), Forms.Posicao(2, 0)];
    LinhasDoCadastro(ps);
    ColunasDoCadastro(ps);
  }

  lemma LinhasDoCadastro(ps: seq<Forms.Posicao>)
    requires ps == [Forms.Posicao(0, 0), Forms.Posicao(1, 0), Forms.Posicao(2, 0)]
    ensures Forms.LinhasSequenciais(ps)
  {
    var ls := Forms.Linhas(ps);
    assert ls == [0, 1, 2];
    assert ls[2] == 2 && MaxInt(ls) >= ls[2];
  }

  lemma ColunasDoCadastro(ps: seq<Forms.Posicao>)
    requires ps == [Forms.Posicao(0, 0), Forms.Posicao(1, 0), Forms.Posicao(2, 0)]
    ensures Forms.ColunasSequenciais(ps)
  {
    forall i, c | 0 <= i < |ps| && 0 <= c <= Forms.MaxColuna(ps, ps[i].linha)
      ensures Forms.Posicao(ps[i].linha, c) in ps
    {
      var l := ps[i].linha;
      assert Forms.Posicao(l, Forms.MaxColuna(ps, l)) in ps;
    }
  }

  lemma EdicaoComplexoValido()
    ensures Forms.Validacao(ConfigEdicaoComplexo).Success?
  {
    var cfg := ConfigEdicaoComplexo;
    assert Forms.ListasIguais(cfg);
    assert "texto" in Forms.FormatosValidos && "moeda" in Forms.FormatosValidos;
    assert "H" in Forms.AlinhamentosValidos && "V" in Forms.AlinhamentosValidos;
    assert Forms.ChecagemBasica(cfg);
    var ps := Forms.Coordenadas(cfg.pos);
    assert ps == [Forms.Posicao(0, 0), Forms.Posicao(0, 1), Forms.Posicao(1, 0), Forms.Posicao(1, 1), Forms.Posicao(2, 0)];
    LinhasDaEdicao(ps);
    ColunasDaEdicao(ps);
  }

  lemma LinhasDaEdicao(ps: seq<Forms.Posicao>)
    requires ps == [Forms.Posicao(0, 0), Forms.Posicao(0, 1), Forms.Posicao(1, 0), Forms.Posicao(1, 1), Forms.Posicao(2, 0)]
    ensures Forms.LinhasSequenciais(ps)
  {
    var ls := Forms.Linhas(ps);
    assert ls == [0, 0, 1, 1, 2];
    assert ls[4] == 2 && MaxInt(ls) >= ls[4];
  }

  lemma ColunasDaEdicao(ps: seq<Forms.Posicao>)
    requires ps == [Forms.Posicao(0, 0), Forms.Posicao(0, 1), Forms.Posicao(1, 0), Forms.Posicao(1, 1), Forms.Posicao(2, 0)]
    ensures Forms.ColunasSequenciais(ps)
  {
    forall i, c | 0 <= i < |ps| && 0 <= c <= Forms.MaxColuna(ps, ps[i].linha)
      ensures Forms.Posicao(ps[i].linha, c) in ps
    {
      var l := ps[i].linha;
      var m := Forms.MaxColuna(ps, l);
      assert Forms.Posicao(l, m) in ps;
      assert m <= 1;
    }
  }

  lemma ConfirmacaoValida()
    ensures Forms.Validacao(ConfigConfirmacao).Success?
  {
    var cfg := ConfigConfirmacao;
    assert Forms.ListasIguais(cfg);
    assert "texto" in Forms.FormatosValidos && "V" in Forms.AlinhamentosValidos;
    assert Forms.ChecagemBasica(cfg);
    var ps := Forms.Coordenadas(cfg.pos);
    assert ps == [Forms.Posicao(0, 0)];
    assert Forms.Linhas(ps) == [0];
    assert Forms.LinhasSequenciais(ps);
    forall i, c | 0 <= i < |ps| && 0 <= c <= Forms.MaxColuna(ps, ps[i].linha)
      ensures Forms.Posicao(ps[i].linha, c) in ps
    {
      assert Forms.Posicao(0, Forms.MaxColuna(ps, 0)) in ps;
    }
  }

  /**
   * `criarModalCadastroSimples`, on the corrected modal constructor: the
   * modal is built whenever the page has every element `render` reaches.
   */
  method CriarModalCadastroSimples(p: FormModal.Pagina) returns (r: Result<FormModal.Modal, FormModal.ErroModal>)
    ensures r.Success? <==> FormModal.PaginaCompleta(p)
    ensures r.Success? ==> fresh(r.value) && r.value.Inicial(ConfigCadastroSimples, OpcoesCadastroSimples, p.temFooter, 0)
                           && r.value.titulo == "Novo Cliente"
  {
    CadastroSimplesValido();
    r := FormModal.Modal.Criar("Novo Cliente", ConfigCadastroSimples, OpcoesCadastroSimples, p);
  }

  /**
   * `criarModalEdicaoComplexo`, on the corrected modal constructor, where
   * the 'combo' field Categoria becomes a `<select>`.
   */
  method CriarModalEdicaoComplexo(p: FormModal.Pagina) returns (r: Result<FormModal.Modal, FormModal.ErroModal>)
    ensures r.Success? <==> FormModal.PaginaCompleta(p)
    ensures r.Success? ==> fresh(r.value) && r.value.Inicial(ConfigEdicaoComplexo, OpcoesEdicaoComplexo, p.temFooter, 0)
                           && r.value.titulo == "Editar Produto"
  {
    EdicaoComplexoValido();
    r := FormModal.Modal.Criar("Editar Produto", ConfigEdicaoComplexo, OpcoesEdicaoComplexo, p);
  }

  /**
   * As written, the fifth field, Categoria, is a 'combo': building the
   * edit modal stops there with `TipoSomenteLeitura(4)` on every page.
   */
  lemma EdicaoComplexoParaNoCombo()
    ensures "combo" in ConfigEdicaoComplexo.tipo && IndexOf(ConfigEdicaoComplexo.tipo, "combo") == 4
  {
    var t := ConfigEdicaoComplexo.tipo;
    assert t[4] == "combo";
    assert t[0] != "combo" && t[1] != "combo" && t[2] != "combo" && t[3] != "combo";
  }

  // ---------------------------------------------------------------------
  // The confirmation modal
  // ---------------------------------------------------------------------

  /** The callback argument an action produces: true for 'submit', false for 'encerrar', none otherwise. */
  function Resposta(acao: string): (r: seq<bool>)
    ensures acao == "submit" ==> r == [true]
    ensures acao == "encerrar" ==> r == [false]
    ensures acao != "submit" && acao != "encerrar" ==> r == []
  {
    if acao == "submit" then [true] else if acao == "encerrar" then [false] else []
  }

  /** How the promise of `confirmarAcao` settles: by the first callback call; later calls are ignored. */
  function Promessa(chamadas: seq<bool>): (r: Option<bool>)
    ensures r.None? <==> chamadas == []
  {
    if chamadas == [] then None else Some(chamadas[0])
  }

  /** Once settled, the promise keeps its value whatever the later calls. */
  lemma PromessaDefinitiva(a: seq<bool>, b: seq<bool>)
    requires a != []
    ensures Promessa(a + b) == Promessa(a)
  {
    assert (a + b)[0] == a[0];
  }

  class Confirmacao {
    const modal: FormModal.Modal
    /** The text placed, disabled, in the textarea. */
    const mensagem: string
    /** The calls made to `callback`, oldest first. */
    var chamadas: seq<bool>

    constructor(m: FormModal.Modal, msg: string)
      ensures modal == m && mensagem == msg && chamadas == []
    {
      modal := m;
      mensagem := msg;
      chamadas := [];
    }

    /** `criarModalConfirmacao(titulo, mensagem, callback)`, on the corrected modal constructor. */
    static method Criar(titulo: string, mensagem: string, p: FormModal.Pagina) returns (r: Result<Confirmacao, FormModal.ErroModal>)
      ensures r.Success? <==> FormModal.PaginaCompleta(p)
      ensures r.Success? ==> fresh(r.value) && fresh(r.value.modal) && r.value.chamadas == [] && r.value.mensagem == mensagem
                             && r.value.modal.Inicial(ConfigConfirmacao, OpcoesConfirmacao, p.temFooter, 0)
                             && r.value.modal.titulo == titulo
    {
      ConfirmacaoValida();
      var m := FormModal.Modal.Criar(titulo, ConfigConfirmacao, OpcoesConfirmacao, p);
      if m.Failure? {
        return Failure(m.error);
      }
      var c := new Confirmacao(m.value, mensagem);
      return Success(c);
    }

    /** Its `form-modal-acao` listener: the callback for 'submit' or 'encerrar', then the modal is destroyed whatever the action. */
    method AoAcao(ev: Forms.EventoForm)
      modifies this, modal
      ensures chamadas == old(chamadas) + Resposta(ev.acao)
      ensures modal.backdrop.None? && !modal.EstaVisivel() && !modal.visivel
    {
      if ev.acao == "submit" {
        chamadas := chamadas + [true];
      } else if ev.acao == "encerrar" {
        chamadas := chamadas + [false];
      }
      modal.Destruir();
    }
  }

  /** `confirmarAcao(titulo, mensagem)`: the confirmation modal is built and shown, its promise pending. */
  method ConfirmarAcao(titulo: string, mensagem: string, p: FormModal.Pagina) returns (r: Result<Confirmacao, FormModal.ErroModal>)
    ensures r.Success? <==> FormModal.PaginaCompleta(p)
    ensures r.Success? ==> fresh(r.value) && fresh(r.value.modal) && r.value.modal.EstaVisivel() && Promessa(r.value.chamadas).None?
  {
    r := Confirmacao.Criar(titulo, mensagem, p);
    if r.Success? {
      r.value.modal.Exibir();
    }
  }

  /** The first answer settles the promise and closes the modal; a second event changes neither. */
  method PrimeiraRespostaDecide(c: Confirmacao, e1: Forms.EventoForm, e2: Forms.EventoForm)
    requires c.chamadas == [] && e1.acao == "submit"
    modifies c, c.modal
    ensures Promessa(c.chamadas) == Some(true) && !c.modal.EstaVisivel()
  {
    c.AoAcao(e1);
    ghost var antes := c.chamadas;
    c.AoAcao(e2);
    PromessaDefinitiva(antes, Resposta(e2.acao));
  }
}
