/**
 * `CriarTabelas`: a table widget built from a column schema (header,
 * widths, alignment codes, format codes and optional footer directives).
 * The model covers the schema validation that makes construction throw,
 * the footer row of statistics, the row replacement done through
 * `setDados`/`popularTabela`, the cell-edit listener's index arithmetic,
 * the mock state -> city -> table cascade and the footer message area.
 */
module Tabelas {
  import opened JsCommon
  import opened Estatisticas
  import Botoes

  /** One data row: column name to value. */
  type Linha = map<string, Scalar>

  /** An entry of `larguraColunas`. */
  datatype Largura = LarguraNumero(v: real) | LarguraNaN | LarguraNaoNumero

  /** An entry of `configResultados`. */
  datatype Diretiva = DiretivaNula | DiretivaTexto(s: string) | DiretivaOutra

  /** `opcoes.configResultados || null`: absent (or falsy), an array, or some other value. */
  datatype ConfigResultados = SemResultados | ListaResultados(entradas: seq<Diretiva>) | NaoLista

  datatype ErroTabela =
    | CabecalhoVazio
    | LargurasTamanho
    | LargurasNaoNumericas
    | AlinhamentoTamanho
    | AlinhamentoInvalido
    | FormatoTamanho
    | ResultadosNaoLista
    | ResultadosTamanho
    | ResultadoVazio(indice: nat)
    | ResultadoTipo(indice: nat)
    | ErroDosBotoes(e: Botoes.ErroBotoes)

  const CodigosAlinhamento: set<string> := {"E", "C", "D"}

  /** A directive the schema accepts: null, or a string that is not blank. */
  predicate DiretivaAceita(d: Diretiva) {
    d.DiretivaNula? || (d.DiretivaTexto? && !IsBlank(d.s))
  }

  /** The test as the source writes it: a string outside `tiposPermitidos` whose trim is empty, or a non-string. */
  predicate RecusadaNaFonte(d: Diretiva) {
    match d
    case DiretivaNula => false
    case DiretivaTexto(s) => CodigoCalculo(s).None? && Trim(s) == ""
    case DiretivaOutra => true
  }

  lemma RecusadaSseNaoAceita(d: Diretiva)
    ensures RecusadaNaFonte(d) <==> !DiretivaAceita(d)
  {
    if d.DiretivaTexto? {
      TrimEmptyIffBlank(d.s);
      if CodigoCalculo(d.s).Some? {
        CodigoNaoBranco(d.s);
      }
    }
  }

  /** Every statistic code has a non-blank name. */
  lemma CodigoNaoBranco(s: string)
    requires CodigoCalculo(s).Some?
    ensures !IsBlank(s)
  {
    var c := CodigoCalculo(s).value;
    CodigoDoNome(c);
    assert s == NomeCalculo(c);
  }

  /** The first directive at or after `i` that the loop of `_validarPropriedades` rejects. */
  function PrimeiraRecusada(e: seq<Diretiva>, i: nat): (r: Option<nat>)
    requires i <= |e|
    decreases |e| - i
    ensures r.None? <==> forall j :: i <= j < |e| ==> DiretivaAceita(e[j])
    ensures r.Some? ==>
              i <= r.value < |e| && !DiretivaAceita(e[r.value])
              && forall j :: i <= j < r.value ==> DiretivaAceita(e[j])
  {
    if i == |e| then None
    else
      RecusadaSseNaoAceita(e[i]);
      if RecusadaNaFonte(e[i]) then Some(i) else PrimeiraRecusada(e, i + 1)
  }

  predicate LarguraNumerica(l: Largura) { l.LarguraNumero? }

  /** The column checks of the schema, in the order they are made. */
  predicate ColunasValidas(cab: seq<string>, larg: seq<Largura>, alin: seq<string>, fmt: seq<string>) {
    |cab| > 0 && |larg| == |cab|
    && (forall i :: 0 <= i < |larg| ==> LarguraNumerica(larg[i]))
    && |alin| == |cab| && (forall i :: 0 <= i < |alin| ==> alin[i] in CodigosAlinhamento)
    && |fmt| == |cab|
  }

  /** The footer directives: null, or an array with one accepted directive per column. */
  predicate ResultadosValidos(ncol: nat, cfg: ConfigResultados) {
    cfg.SemResultados?
    || (cfg.ListaResultados? && |cfg.entradas| == ncol
        && forall j :: 0 <= j < |cfg.entradas| ==> DiretivaAceita(cfg.entradas[j]))
  }

  predicate EsquemaValido(cab: seq<string>, larg: seq<Largura>, alin: seq<string>, fmt: seq<string>, cfg: ConfigResultados) {
    ColunasValidas(cab, larg, alin, fmt) && ResultadosValidos(|cab|, cfg)
  }

  /**
   * `_validarPropriedades`: None when the schema is accepted, otherwise
   * the error of the first check that fails. Format values are never
   * inspected, and any non-blank directive (even a misspelled code) passes.
   */
  function ValidarPropriedades(cab: seq<string>, larg: seq<Largura>, alin: seq<string>, fmt: seq<string>, cfg: ConfigResultados): (r: Option<ErroTabela>)
    ensures r.None? <==> EsquemaValido(cab, larg, alin, fmt, cfg)
    ensures r == Some(CabecalhoVazio) <==> |cab| == 0
    ensures r == Some(LargurasTamanho) <==> |cab| > 0 && |larg| != |cab|
    ensures r == Some(LargurasNaoNumericas) <==>
              |cab| > 0 && |larg| == |cab| && exists i :: 0 <= i < |larg| && !LarguraNumerica(larg[i])
    ensures r == Some(AlinhamentoTamanho) <==>
              |cab| > 0 && |larg| == |cab| && (forall i :: 0 <= i < |larg| ==> LarguraNumerica(larg[i]))
              && |alin| != |cab|
    ensures r == Some(AlinhamentoInvalido) <==>
              |cab| > 0 && |larg| == |cab| && (forall i :: 0 <= i < |larg| ==> LarguraNumerica(larg[i]))
              && |alin| == |cab| && exists i :: 0 <= i < |alin| && alin[i] !in CodigosAlinhamento
    ensures r == Some(FormatoTamanho) <==>
              |cab| > 0 && |larg| == |cab| && (forall i :: 0 <= i < |larg| ==> LarguraNumerica(larg[i]))
              && |alin| == |cab| && (forall i :: 0 <= i < |alin| ==> alin[i] in CodigosAlinhamento)
              && |fmt| != |cab|
    ensures r == Some(ResultadosNaoLista) <==> ColunasValidas(cab, larg, alin, fmt) && cfg.NaoLista?
    ensures r == Some(ResultadosTamanho) <==>
              ColunasValidas(cab, larg, alin, fmt) && cfg.ListaResultados? && |cfg.entradas| != |cab|
    ensures r.Some? && (r.value.ResultadoVazio? || r.value.ResultadoTipo?) ==>
              ColunasValidas(cab, larg, alin, fmt) && cfg.ListaResultados? && |cfg.entradas| == |cab|
              && r.value.indice < |cfg.entradas| && !DiretivaAceita(cfg.entradas[r.value.indice])
              && (forall j :: 0 <= j < r.value.indice ==> DiretivaAceita(cfg.entradas[j]))
              && (r.value.ResultadoVazio? <==> cfg.entradas[r.value.indice].DiretivaTexto?)
  {
    if |cab| == 0 then Some(CabecalhoVazio)
    else if |larg| != |cab| then Some(LargurasTamanho)
    else if !(forall i :: 0 <= i < |larg| ==> LarguraNumerica(larg[i])) then Some(LargurasNaoNumericas)
    else if |alin| != |cab| then Some(AlinhamentoTamanho)
    else if !(forall i :: 0 <= i < |alin| ==> alin[i] in CodigosAlinhamento) then Some(AlinhamentoInvalido)
    else if |fmt| != |cab| then Some(FormatoTamanho)
    else match cfg
      case SemResultados => None
      case NaoLista => Some(ResultadosNaoLista)
      case ListaResultados(e) =>
        if |e| != |cab| then Some(ResultadosTamanho)
        else match PrimeiraRecusada(e, 0)
          case None => None
          case Some(k) => if e[k].DiretivaTexto? then Some(ResultadoVazio(k)) else Some(ResultadoTipo(k))
  }

  /** `_alinhamentoCSS`: E, C, D map to left, center, right; anything else to left. */
  function AlinhamentoCSS(codigo: string): (r: string)
    ensures r in {"left", "center", "right"}
    ensures r == "center" <==> codigo == "C"
    ensures r == "right" <==> codigo == "D"
    ensures codigo !in CodigosAlinhamento ==> r == "left"
  {
    match codigo
    case "E" => "left"
    case "C" => "center"
    case "D" => "right"
    case _ => "left"
  }

  /** The formats rendered through `Intl.NumberFormat`. */
  const FormatosIntl: set<string> := {"M", "%", "D"}

  /** The content of a rendered cell. */
  datatype Celula =
    | Vazio                                  // ''
    | Texto(s: string)                       // a string, shown as is
    | NumeroComoTexto(n: real)               // String(n) of a number
    | Localizado(formato: string, valor: Scalar)  // Intl formatting, not modelled

  /** `String(valor)` for a value that is neither null nor undefined. */
  function ComoTexto(v: Scalar): Celula
    requires !v.Null? && !v.Undefined?
  {
    match v
    case Bool(b) => Texto(if b then "true" else "false")
    case Num(n) => NumeroComoTexto(n)
    case Str(s) => Texto(s)
  }

  /** `_formatarCelula`. */
  function FormatarCelula(valor: Scalar, formato: string): (r: Celula)
    ensures r == Vazio <==> valor.Null? || valor.Undefined?
    ensures r.Localizado? <==> !(valor.Null? || valor.Undefined?) && formato in FormatosIntl
    ensures valor.Str? && formato !in FormatosIntl ==> r == Texto(valor.s)
    ensures valor.Num? && formato !in FormatosIntl ==> r == NumeroComoTexto(valor.n)
  {
    if valor.Null? || valor.Undefined? then Vazio
    else if formato in FormatosIntl then Localizado(formato, valor)
    else ComoTexto(valor)
  }

  /** `parseFloat` of a stored value: numbers are themselves, strings go to `parse`, the rest is NaN. */
  function ParseFloat(v: Scalar, parse: string -> Option<real>): Option<real> {
    match v
    case Num(n) => Some(n)
    case Str(s) => parse(s)
    case _ => None
  }

  /** The numeric values of one column: one per row, NaN coerced to 0. */
  function ValoresColuna(dados: seq<Linha>, coluna: string, parse: string -> Option<real>): (r: seq<real>)
    ensures |r| == |dados|
    ensures forall i :: 0 <= i < |dados| ==>
              r[i] == (match ParseFloat(Get(dados[i], coluna), parse) case Some(x) => x case None => 0.0)
  {
    if dados == [] then []
    else
      var x := match ParseFloat(Get(dados[0], coluna), parse) case Some(x) => x case None => 0.0;
      [x] + ValoresColuna(dados[1..], coluna, parse)
  }

  /** The footer cell of one column. */
  function CelulaRodape(d: Diretiva, coluna: string, formato: string, dados: seq<Linha>,
                        parse: string -> Option<real>, sqrt: real -> real): (r: Celula)
    requires |dados| > 0 && !d.DiretivaOutra?
    ensures d.DiretivaNula? ==> r == Vazio
    ensures d.DiretivaTexto? && CodigoCalculo(d.s).None? ==> r == Texto(d.s)
    ensures d.DiretivaTexto? && CodigoCalculo(d.s).Some? ==>
              r == FormatarCelula(Num(Estatistica(CodigoCalculo(d.s).value, ValoresColuna(dados, coluna, parse), sqrt)), formato)
  {
    match d
    case DiretivaNula => Vazio
    case DiretivaTexto(s) =>
      match CodigoCalculo(s)
      case Some(c) => FormatarCelula(Num(Estatistica(c, ValoresColuna(dados, coluna, parse), sqrt)), formato)
      case None => Texto(s)
  }

  /** Cnt is the row count, Tot the sum and Med their quotient, over the same coerced values. */
  lemma TotalMediaContagem(dados: seq<Linha>, coluna: string, parse: string -> Option<real>, sqrt: real -> real)
    requires |dados| > 0
    ensures Estatistica(Cnt, ValoresColuna(dados, coluna, parse), sqrt) == |dados| as real
    ensures Estatistica(Med, ValoresColuna(dados, coluna, parse), sqrt)
            == Estatistica(Tot, ValoresColuna(dados, coluna, parse), sqrt) / (|dados| as real)
  {
  }

  // ---------------------------------------------------------------------
  // Mock cascade data (`_popularCidadesPorEstado`, `_popularTabelaPorCidade`)

  const CidadesPorEstado: map<string, seq<string>> := map[
    "SP" := ["São Paulo", "Campinas", "Santos", "Ribeirão Preto"],
    "RJ" := ["Rio de Janeiro", "Niterói", "Petrópolis", "Nova Friburgo"],
    "MG" := ["Belo Horizonte", "Uberlândia", "Contagem", "Juiz de Fora"],
    "RS" := ["Porto Alegre", "Caxias do Sul", "Pelotas", "Santa Maria"],
    "BA" := ["Salvador", "Feira de Santana", "Vitória da Conquista", "Camaçari"],
    "PR" := ["Curitiba", "Londrina", "Maringá", "Ponta Grossa"],
    "SC" := ["Florianópolis", "Joinville", "Blumenau", "São José"],
    "GO" := ["Goiânia", "Aparecida de Goiânia", "Anápolis", "Rio Verde"],
    "PE" := ["Recife", "Jaboatão", "Olinda", "Caruaru"],
    "CE" := ["Fortaleza", "Caucaia", "Juazeiro do Norte", "Maracanaú"]
  ]

  /** The states offered by `_popularPrimeiraSelect`. */
  const EstadosBrasil: seq<string> := ["SP", "RJ", "MG", "RS", "BA", "PR", "SC", "GO", "PE", "CE"]

  /** `_popularPrimeiraSelect`: the placeholder, then one option per state. */
  function OpcoesEstados(): (r: seq<Opcao>)
    ensures |r| == 1 + |EstadosBrasil| && r[0] == Opcao("", "Selecione um Estado")
    ensures forall k :: 0 <= k < |EstadosBrasil| ==> r[k + 1] == Opcao(EstadosBrasil[k], EstadosBrasil[k])
  {
    [Opcao("", "Selecione um Estado")] + seq(|EstadosBrasil|, k requires 0 <= k < |EstadosBrasil| => Opcao(EstadosBrasil[k], EstadosBrasil[k]))
  }

  /** Every state offered in the first select has its own list of cities. */
  lemma EstadosTemCidades()
    ensures forall k :: 0 <= k < |EstadosBrasil| ==> EstadosBrasil[k] in CidadesPorEstado
  {
  }

  /** `cidadesPorEstado[estado] || []`. */
  function CidadesDe(estado: string): seq<string> {
    if estado in CidadesPorEstado then CidadesPorEstado[estado] else []
  }

  /**
   * `_popularCidadesPorEstado`: the options sent to the city select, or
   * None when nothing is sent (an empty state, or no select object).
   */
  function PedidoCidades(estado: string, temSelect: bool): (r: Option<seq<Opcao>>)
    ensures r.None? <==> estado == "" || !temSelect
    ensures r.Some? ==>
              |r.value| == 2 + |CidadesDe(estado)|
              && r.value[0] == Opcao("", "Selecione uma Cidade") && r.value[1] == Opcao("Todas", "Todas")
              && forall k :: 0 <= k < |CidadesDe(estado)| ==> r.value[k + 2] == Opcao(CidadesDe(estado)[k], CidadesDe(estado)[k])
  {
    if estado == "" || !temSelect then None
    else
      var cidades := CidadesDe(estado);
      Some([Opcao("", "Selecione uma Cidade"), Opcao("Todas", "Todas")]
           + seq(|cidades|, k requires 0 <= k < |cidades| => Opcao(cidades[k], cidades[k])))
  }

  /** A state the map does not know gets only the two sentinel options. */
  lemma EstadoDesconhecido(estado: string)
    requires estado != "" && estado !in CidadesPorEstado
    ensures PedidoCidades(estado, true) == Some([Opcao("", "Selecione uma Cidade"), Opcao("Todas", "Todas")])
  {
    assert CidadesDe(estado) == [];
    var r := PedidoCidades(estado, true).value;
    assert |r| == 2 && r[0] == Opcao("", "Selecione uma Cidade") && r[1] == Opcao("Todas", "Todas");
    assert r == [Opcao("", "Selecione uma Cidade"), Opcao("Todas", "Todas")];
  }

  function Aluno(nome: string, estado: string, cidade: string, curso: string): Linha {
    map["Nome" := Str(nome), "Estado" := Str(estado), "Cidade" := Str(cidade), "Curso" := Str(curso)]
  }

  /**
   * One entry of `estudantesPorCidade`: the city key and its students, each
   * carrying that city and the given state.
   */
  function DaCidade(cidade: string, estado: string, alunos: seq<(string, string)>): (r: (string, seq<Linha>))
    ensures r.0 == cidade && |r.1| == |alunos|
    ensures forall j :: 0 <= j < |alunos| ==> r.1[j] == Aluno(alunos[j].0, estado, cidade, alunos[j].1)
  {
    (cidade, seq(|alunos|, j requires 0 <= j < |alunos| => Aluno(alunos[j].0, estado, cidade, alunos[j].1)))
  }

  /** `estudantesPorCidade` as written: city key, state of its students, (name, course) per student. */
  const Cadastro: seq<(string, string, seq<(string, string)>)> := [
    ("São Paulo", "SP", [("Ana Souza", "Engenharia"), ("Daniel Alves", "Arquitetura"), ("Carlos Silva", "Medicina")]),
    ("Campinas", "SP", [("Maria Santos", "Computação"), ("João Costa", "Administração")]),
    ("Santos", "SP", [("Pedro Lima", "Direito")]),
    ("Rio de Janeiro", "RJ", [("Lucia Pereira", "Design"), ("Roberto Silva", "Jornalismo")]),
    ("Belo Horizonte", "MG", [("Fernanda Costa", "Psicologia")])
  ]

  function Montar(c: seq<(string, string, seq<(string, string)>)>): (r: seq<(string, seq<Linha>)>)
    ensures |r| == |c|
    ensures forall i :: 0 <= i < |c| ==> r[i] == DaCidade(c[i].0, c[i].1, c[i].2)
  {
    seq(|c|, i requires 0 <= i < |c| => DaCidade(c[i].0, c[i].1, c[i].2))
  }

  /** `estudantesPorCidade`, its keys in the order `Object.keys` yields them. */
  const EstudantesPorCidade: seq<(string, seq<Linha>)> := Montar(Cadastro)

  /** `estudantesPorCidade[cidade] || []`. */
  function ListaDaCidade(grupos: seq<(string, seq<Linha>)>, cidade: string): seq<Linha> {
    if grupos == [] then []
    else if grupos[0].0 == cidade then grupos[0].1
    else ListaDaCidade(grupos[1..], cidade)
  }

  /** The 'Todas' branch: the lists, in key order, whose first student is from `estado`. */
  function ListasDoEstado(grupos: seq<(string, seq<Linha>)>, estado: string): seq<Linha> {
    if grupos == [] then []
    else
      var g := grupos[0].1;
      (if |g| > 0 && Get(g[0], "Estado") == Str(estado) then g else [])
      + ListasDoEstado(grupos[1..], estado)
  }

  /** The rows `_popularTabelaPorCidade` shows. */
  function DadosPorCidade(cidade: string, estado: string): (r: seq<Linha>)
    ensures cidade == "" || estado == "" ==> r == []
  {
    if cidade == "" || estado == "" then []
    else if cidade == "Todas" then ListasDoEstado(EstudantesPorCidade, estado)
    else ListaDaCidade(EstudantesPorCidade, cidade)
  }

  /** Every list holds students of one state and of the city it is filed under. */
  predicate GruposCoerentes(grupos: seq<(string, seq<Linha>)>) {
    forall i :: 0 <= i < |grupos| ==> GrupoCoerente(grupos[i])
  }

  predicate GrupoCoerente(g: (string, seq<Linha>)) {
    forall j :: 0 <= j < |g.1| ==>
      Get(g.1[j], "Estado") == Get(g.1[0], "Estado") && Get(g.1[j], "Cidade") == Str(g.0)
  }

  lemma DadosCoerentes()
    ensures GruposCoerentes(EstudantesPorCidade)
  {
    MontarCoerente(Cadastro);
  }

  lemma MontarCoerente(c: seq<(string, string, seq<(string, string)>)>)
    ensures GruposCoerentes(Montar(c)) && GruposSemNome(Montar(c))
  {
    DaCidadeCoerente();
  }

  /** Every entry `DaCidade` builds is coherent and has no lower-case 'nome' key. */
  lemma DaCidadeCoerente()
    ensures forall c, e, alunos :: GrupoCoerente(DaCidade(c, e, alunos)) && GrupoSemNome(DaCidade(c, e, alunos))
  {
    AlunoSemNome();
  }

  lemma {:induction false} ListasDoEstadoSoDoEstado(grupos: seq<(string, seq<Linha>)>, estado: string)
    requires GruposCoerentes(grupos)
    ensures forall k :: 0 <= k < |ListasDoEstado(grupos, estado)| ==>
              Get(ListasDoEstado(grupos, estado)[k], "Estado") == Str(estado)
  {
    if grupos != [] {
      assert GruposCoerentes(grupos[1..]) by {
        forall i | 0 <= i < |grupos[1..]| ensures grupos[1..][i] == grupos[i + 1] {}
      }
      ListasDoEstadoSoDoEstado(grupos[1..], estado);
      var g := grupos[0].1;
      var cab := if |g| > 0 && Get(g[0], "Estado") == Str(estado) then g else [];
      assert forall k :: 0 <= k < |cab| ==> Get(cab[k], "Estado") == Str(estado) by {
        forall k | 0 <= k < |cab| ensures Get(cab[k], "Estado") == Str(estado) {
          assert cab == g && Get(g[k], "Estado") == Get(g[0], "Estado");
        }
      }
    }
  }

  lemma {:induction false} ListaDaCidadeSoDaCidade(grupos: seq<(string, seq<Linha>)>, cidade: string)
    requires GruposCoerentes(grupos)
    ensures forall k :: 0 <= k < |ListaDaCidade(grupos, cidade)| ==>
              Get(ListaDaCidade(grupos, cidade)[k], "Cidade") == Str(cidade)
  {
    if grupos != [] && grupos[0].0 != cidade {
      assert GruposCoerentes(grupos[1..]) by {
        forall i | 0 <= i < |grupos[1..]| ensures grupos[1..][i] == grupos[i + 1] {}
      }
      ListaDaCidadeSoDaCidade(grupos[1..], cidade);
    }
  }

  /**
   * With 'Todas' every row shown is from the selected state; with a named
   * city every row is from that city.
   */
  lemma DadosPorCidadeFiltram(cidade: string, estado: string)
    ensures cidade == "Todas" ==>
              forall k :: 0 <= k < |DadosPorCidade(cidade, estado)| ==> Get(DadosPorCidade(cidade, estado)[k], "Estado") == Str(estado)
    ensures cidade != "Todas" ==>
              forall k :: 0 <= k < |DadosPorCidade(cidade, estado)| ==> Get(DadosPorCidade(cidade, estado)[k], "Cidade") == Str(cidade)
  {
    DadosCoerentes();
    ListasDoEstadoSoDoEstado(EstudantesPorCidade, estado);
    ListaDaCidadeSoDaCidade(EstudantesPorCidade, cidade);
  }

  /** A named city ignores the selected state: the state only has to be non-empty. */
  lemma CidadeIgnoraEstado(cidade: string, e1: string, e2: string)
    requires cidade != "" && cidade != "Todas" && e1 != "" && e2 != ""
    ensures DadosPorCidade(cidade, e1) == DadosPorCidade(cidade, e2)
  {
  }

  /** 'Todas' for SP gathers the three SP lists: 3 + 2 + 1 students. */
  lemma TodasDeSaoPaulo()
    ensures |DadosPorCidade("Todas", "SP")| == 6
    ensures DadosPorCidade("Todas", "RS") == []
  {
    ContagemDasListas(Cadastro, "SP");
    ContagemDasListas(Cadastro, "RS");
    assert Cadastro[0].1 == "SP" && Cadastro[1].1 == "SP" && Cadastro[2].1 == "SP";
    assert Cadastro[3].1 != "SP" && Cadastro[4].1 != "SP";
    assert Cadastro[0].1 != "RS" && Cadastro[3].1 != "RS" && Cadastro[4].1 != "RS";
  }

  /** The number of students the 'Todas' branch gathers for `estado`, read off the raw entries. */
  function ContagemDoEstado(c: seq<(string, string, seq<(string, string)>)>, estado: string): nat {
    if c == [] then 0
    else (if |c[0].2| > 0 && c[0].1 == estado then |c[0].2| else 0) + ContagemDoEstado(c[1..], estado)
  }

  lemma {:induction false} ContagemDasListas(c: seq<(string, string, seq<(string, string)>)>, estado: string)
    ensures |ListasDoEstado(Montar(c), estado)| == ContagemDoEstado(c, estado)
  {
    if c != [] {
      ContagemDasListas(c[1..], estado);
      assert Montar(c)[1..] == Montar(c[1..]);
      var g := Montar(c)[0].1;
      if |g| > 0 {
        assert Get(g[0], "Estado") == Str(c[0].1);
      }
    }
  }

  /** A rename of the keys {nome, estado, cidade, curso} to their capitalised forms. */
  function Renomeada(item: Linha): (r: Linha)
    ensures r.Keys == {"Nome", "Estado", "Cidade", "Curso"}
    ensures r["Nome"] == Get(item, "nome") && r["Estado"] == Get(item, "estado")
    ensures r["Cidade"] == Get(item, "cidade") && r["Curso"] == Get(item, "curso")
  {
    map["Nome" := Get(item, "nome"), "Estado" := Get(item, "estado"),
        "Cidade" := Get(item, "cidade"), "Curso" := Get(item, "curso")]
  }

  /** The mapping `popularTabela` applies when the first row has a truthy `nome`. */
  function Normalizar(d: seq<Linha>): (r: seq<Linha>)
    ensures |r| == |d|
    ensures !(|d| > 0 && Truthy(Get(d[0], "nome"))) ==> r == d
    ensures |d| > 0 && Truthy(Get(d[0], "nome")) ==> forall i :: 0 <= i < |d| ==> r[i] == Renomeada(d[i])
  {
    if |d| > 0 && Truthy(Get(d[0], "nome")) then seq(|d|, i requires 0 <= i < |d| => Renomeada(d[i]))
    else d
  }

  /** Normalising twice is normalising once: a renamed first row has no `nome`. */
  lemma NormalizarIdempotente(d: seq<Linha>)
    ensures Normalizar(Normalizar(d)) == Normalizar(d)
  {
    if |d| > 0 && Truthy(Get(d[0], "nome")) {
      assert "nome" !in Normalizar(d)[0];
    }
  }

  /** The mock lists are passed through `popularTabela` unchanged. */
  lemma DadosPorCidadeJaNormalizados(cidade: string, estado: string)
    ensures Normalizar(DadosPorCidade(cidade, estado)) == DadosPorCidade(cidade, estado)
  {
    DadosCoerentes();
    var r := DadosPorCidade(cidade, estado);
    if |r| > 0 {
      TodosSemNome(cidade, estado);
    }
  }

  lemma TodosSemNome(cidade: string, estado: string)
    ensures forall k :: 0 <= k < |DadosPorCidade(cidade, estado)| ==> "nome" !in DadosPorCidade(cidade, estado)[k]
  {
    DadosSemNome();
    SemNomeListas(EstudantesPorCidade, estado);
    SemNomeCidade(EstudantesPorCidade, cidade);
  }

  /** No mock student has a lower-case 'nome' key: each is built by `Aluno`. */
  lemma DadosSemNome()
    ensures GruposSemNome(EstudantesPorCidade)
  {
    MontarCoerente(Cadastro);
  }

  lemma AlunoSemNome()
    ensures forall n, e, c, cu :: "nome" !in Aluno(n, e, c, cu)
  {
    forall n, e, c, cu
      ensures "nome" !in Aluno(n, e, c, cu)
    {
      assert "nome"[0] != "Nome"[0];
    }
  }

  predicate GruposSemNome(grupos: seq<(string, seq<Linha>)>) {
    forall i :: 0 <= i < |grupos| ==> GrupoSemNome(grupos[i])
  }

  predicate GrupoSemNome(g: (string, seq<Linha>)) {
    forall j :: 0 <= j < |g.1| ==> "nome" !in g.1[j]
  }

  lemma {:induction false} SemNomeListas(grupos: seq<(string, seq<Linha>)>, estado: string)
    requires GruposSemNome(grupos)
    ensures forall k :: 0 <= k < |ListasDoEstado(grupos, estado)| ==> "nome" !in ListasDoEstado(grupos, estado)[k]
  {
    if grupos != [] {
      assert GruposSemNome(grupos[1..]) by {
        forall i | 0 <= i < |grupos[1..]| ensures grupos[1..][i] == grupos[i + 1] {}
      }
      SemNomeListas(grupos[1..], estado);
    }
  }

  lemma {:induction false} SemNomeCidade(grupos: seq<(string, seq<Linha>)>, cidade: string)
    requires GruposSemNome(grupos)
    ensures forall k :: 0 <= k < |ListaDaCidade(grupos, cidade)| ==> "nome" !in ListaDaCidade(grupos, cidade)[k]
  {
    if grupos != [] && grupos[0].0 != cidade {
      assert GruposSemNome(grupos[1..]) by {
        forall i | 0 <= i < |grupos[1..]| ensures grupos[1..][i] == grupos[i + 1] {}
      }
      SemNomeCidade(grupos[1..], cidade);
    }
  }

  // ---------------------------------------------------------------------
  // Footer messages (`exibirMensagem`, `ocultarMensagem`)

  const LimiteMensagem := 150

  /** A message over 150 characters keeps its first 147 and gets '...'. */
  function Truncar(m: string): (r: string)
    ensures |r| <= LimiteMensagem
    ensures |m| <= LimiteMensagem ==> r == m
    ensures |m| > LimiteMensagem ==> |r| == LimiteMensagem && r[..147] == m[..147] && r[147..] == "..."
  {
    if |m| > LimiteMensagem then m[..147] + "..." else m
  }

  /** Truncating a truncated message changes nothing. */
  lemma TruncarIdempotente(m: string)
    ensures Truncar(Truncar(m)) == Truncar(m)
  {
  }

  datatype CorMensagem = CorMensagem(fundo: string, borda: string, texto: string)

  const CoresInfo := CorMensagem("#d1ecf1", "#bee5eb", "#0c5460")

  /** `cores[tipo] || cores.info`. */
  function CoresDoTipo(tipo: string): (r: CorMensagem)
    ensures tipo !in {"success", "warning", "error"} ==> r == CoresInfo
  {
    match tipo
    case "success" => CorMensagem("#d4edda", "#c3e6cb", "#155724")
    case "warning" => CorMensagem("#fff3cd", "#ffeaa7", "#856404")
    case "error" => CorMensagem("#f8d7da", "#f5c6cb", "#721c24")
    case _ => CoresInfo
  }

  /** The four message types have four different colour schemes. */
  lemma CoresDistintas()
    ensures CoresDoTipo("info") != CoresDoTipo("success") && CoresDoTipo("info") != CoresDoTipo("warning")
    ensures CoresDoTipo("info") != CoresDoTipo("error") && CoresDoTipo("success") != CoresDoTipo("warning")
    ensures CoresDoTipo("success") != CoresDoTipo("error") && CoresDoTipo("warning") != CoresDoTipo("error")
  {
  }

  /** The cell the `k`-th editable cell stands for: row-major over the body. */
  function PosicaoDaCelula(k: nat, ncol: nat): (r: (nat, nat))
    requires ncol > 0
    ensures r.1 < ncol && k == r.0 * ncol + r.1
  {
    (k / ncol, k % ncol)
  }

  /** Distinct editable cells address distinct (row, column) pairs, and every pair has its cell. */
  lemma PosicaoDaCelulaBijetiva(l: nat, c: nat, ncol: nat)
    requires ncol > 0 && c < ncol
    ensures PosicaoDaCelula(l * ncol + c, ncol) == (l, c)
  {
    var p := PosicaoDaCelula(l * ncol + c, ncol);
    assert (p.0 - l) * ncol == c - p.1;
    MultiploMenorQueFator(p.0 - l, ncol);
  }

  /** The only multiple of `n` strictly between -n and n is 0. */
  lemma MultiploMenorQueFator(d: int, n: int)
    requires n > 0 && -n < d * n < n
    ensures d == 0
  {
  }

  class Tabela {
    var cabecalho: seq<string>
    var larguras: seq<Largura>
    var alinhamento: seq<string>
    var formato: seq<string>
    var configResultados: ConfigResultados
    var edicaoDeDados: bool
    var dados: seq<Linha>
    /** Whether a select object (`objSelect`) was configured. */
    var temSelect: bool
    var botoes: Botoes.CriarBotoes?
    var mensagem: string
    var mensagemVisivel: bool
    var corMensagem: CorMensagem

    ghost predicate Valid()
      reads this
    {
      EsquemaValido(cabecalho, larguras, alinhamento, formato, configResultados)
    }

    constructor(cab: seq<string>, larg: seq<Largura>, alin: seq<string>, fmt: seq<string>,
                cfg: ConfigResultados, edicao: bool, temSelect: bool, botoes: Botoes.CriarBotoes?)
      requires EsquemaValido(cab, larg, alin, fmt, cfg)
      ensures Valid()
      ensures cabecalho == cab && larguras == larg && alinhamento == alin && formato == fmt
      ensures configResultados == cfg && edicaoDeDados == edicao && this.temSelect == temSelect && this.botoes == botoes
      ensures dados == [] && !mensagemVisivel && mensagem == ""
    {
      cabecalho, larguras, alinhamento, formato := cab, larg, alin, fmt;
      configResultados, edicaoDeDados, this.temSelect, this.botoes := cfg, edicao, temSelect, botoes;
      dados := [];
      mensagem, mensagemVisivel, corMensagem := "", false, CoresDoTipo("info");
    }

    /**
     * `new CriarTabelas(...)`: the button bar (when `grupoBotoes` is an
     * array) is built, and may throw, before the schema is validated. The
     * table puts the bar's HTML in its footer through `gerarHTML` only, so
     * no button is ever mapped.
     */
    static method Criar(cab: seq<string>, larg: seq<Largura>, alin: seq<string>, fmt: seq<string>,
                        cfg: ConfigResultados, edicao: bool, temSelect: bool,
                        grupoBotoes: Option<seq<Scalar>>) returns (r: Result<Tabela, ErroTabela>)
      ensures grupoBotoes.Some? && Botoes.ValidarParametros(grupoBotoes).Failure? ==>
                r == Failure(ErroDosBotoes(Botoes.ValidarParametros(grupoBotoes).error))
      ensures (grupoBotoes.None? || Botoes.ValidarParametros(grupoBotoes).Success?)
              && ValidarPropriedades(cab, larg, alin, fmt, cfg).Some? ==>
                r == Failure(ValidarPropriedades(cab, larg, alin, fmt, cfg).value)
      ensures r.Success? <==>
                (grupoBotoes.None? || Botoes.ValidarParametros(grupoBotoes).Success?)
                && ValidarPropriedades(cab, larg, alin, fmt, cfg).None?
      ensures r.Success? ==>
                fresh(r.value) && r.value.Valid() && r.value.dados == [] && r.value.cabecalho == cab
                && r.value.configResultados == cfg && r.value.formato == fmt
                && (r.value.botoes != null ==> fresh(r.value.botoes) && r.value.botoes.Valid()
                                               && grupoBotoes.Some?
                                               && r.value.botoes.grupoBotoes == Botoes.ValidarParametros(grupoBotoes).value
                                               && r.value.botoes.botoesElementos == map[])
                && (r.value.botoes == null <==> grupoBotoes.None?)
    {
      var b: Botoes.CriarBotoes? := null;
      if grupoBotoes.Some? {
        var rb := Botoes.CriarBotoes.Criar(grupoBotoes);
        if rb.Failure? {
          return Failure(ErroDosBotoes(rb.error));
        }
        b := rb.value;
      }
      var v := ValidarPropriedades(cab, larg, alin, fmt, cfg);
      if v.Some? {
        return Failure(v.value);
      }
      var t := new Tabela(cab, larg, alin, fmt, cfg, edicao, temSelect, b);
      return Success(t);
    }

    /**
     * `_configurarBotoesRodape` as written: the bar's HTML is written into
     * the footer with `gerarHTML` alone, so nothing is mapped and the
     * button state is left as it was.
     */
    method ConfigurarBotoesRodape() returns (html: seq<Botoes.Grupo>)
      requires botoes != null ==> botoes.Valid()
      ensures botoes == null ==> html == []
      ensures botoes != null ==> html == Botoes.GerarHTML(botoes.grupoBotoes)
    {
      if botoes == null {
        return [];
      }
      html := Botoes.GerarHTML(botoes.grupoBotoes);
    }

    /**
     * `_configurarBotoesRodape` inserting the bar with `inserirEm`, as the
     * selects are inserted: every generated button is mapped, enabled.
     */
    method ConfigurarBotoesRodapeMapeando() returns (html: seq<Botoes.Grupo>)
      requires botoes != null ==> botoes.Valid()
      modifies if botoes != null then {botoes} else {}
      ensures botoes == null ==> html == []
      ensures botoes != null ==>
                botoes.Valid() && botoes.grupoBotoes == old(botoes.grupoBotoes)
                && html == Botoes.GerarHTML(botoes.grupoBotoes)
                && (forall id :: id in botoes.botoesElementos <==>
                      id in old(botoes.botoesElementos) || id in Botoes.IdsGerados(html))
                && (forall id :: id in Botoes.IdsGerados(html) ==> !botoes.botoesElementos[id])
    {
      if botoes == null {
        return [];
      }
      html := Botoes.GerarHTML(botoes.grupoBotoes);
      var erro := botoes.InserirEm(Botoes.Elemento);
    }

    /** `setDados`: replaces the rows. */
    method SetDados(d: seq<Linha>)
      modifies this
      ensures dados == d
      ensures cabecalho == old(cabecalho) && larguras == old(larguras) && alinhamento == old(alinhamento)
      ensures formato == old(formato) && configResultados == old(configResultados)
      ensures mensagem == old(mensagem) && mensagemVisivel == old(mensagemVisivel) && temSelect == old(temSelect)
    {
      dados := d;
    }

    /** `popularTabela`: renames lower-case student records, then `setDados`. */
    method PopularTabela(d: seq<Linha>)
      modifies this
      ensures dados == Normalizar(d)
      ensures cabecalho == old(cabecalho) && larguras == old(larguras) && alinhamento == old(alinhamento)
      ensures formato == old(formato) && configResultados == old(configResultados)
      ensures mensagem == old(mensagem) && mensagemVisivel == old(mensagemVisivel) && temSelect == old(temSelect)
    {
      SetDados(Normalizar(d));
    }

    /** `_popularTabelaPorCidade`. */
    method PopularTabelaPorCidade(cidade: string, estado: string)
      modifies this
      ensures dados == DadosPorCidade(cidade, estado)
      ensures cabecalho == old(cabecalho) && larguras == old(larguras) && alinhamento == old(alinhamento)
      ensures formato == old(formato) && configResultados == old(configResultados)
      ensures mensagem == old(mensagem) && mensagemVisivel == old(mensagemVisivel) && temSelect == old(temSelect)
    {
      if cidade == "" || estado == "" {
        SetDados([]);
        return;
      }
      var d := DadosPorCidade(cidade, estado);
      DadosPorCidadeJaNormalizados(cidade, estado);
      PopularTabela(d);
    }

    /**
     * The internal `select-alterada` listener: 'estado' asks for the city
     * options, 'cidade' repopulates the table, other fields do nothing.
     */
    method AoAlterarSelect(campo: string, valor: string, estadoSelecionado: string) returns (pedido: Option<seq<Opcao>>)
      modifies this
      ensures campo == "estado" ==> pedido == PedidoCidades(valor, temSelect) && dados == old(dados)
      ensures campo == "cidade" ==> pedido.None? && dados == DadosPorCidade(valor, estadoSelecionado)
      ensures campo != "estado" && campo != "cidade" ==> pedido.None? && dados == old(dados)
      ensures cabecalho == old(cabecalho) && larguras == old(larguras) && alinhamento == old(alinhamento)
      ensures formato == old(formato) && configResultados == old(configResultados) && temSelect == old(temSelect)
      ensures mensagem == old(mensagem) && mensagemVisivel == old(mensagemVisivel) && temSelect == old(temSelect)
    {
      pedido := None;
      if campo == "estado" {
        pedido := PedidoCidades(valor, temSelect);
      } else if campo == "cidade" {
        PopularTabelaPorCidade(valor, estadoSelecionado);
      }
    }

    /**
     * `_gerarLinhaResultados`: None stands for the empty string; otherwise
     * one cell per column, in column order.
     */
    method GerarLinhaResultados(parse: string -> Option<real>, sqrt: real -> real) returns (r: Option<seq<Celula>>)
      requires Valid()
      ensures r.None? <==>
                !configResultados.ListaResultados? || |dados| == 0
                || forall i :: 0 <= i < |configResultados.entradas| ==> configResultados.entradas[i].DiretivaNula?
      ensures r.Some? ==>
                |r.value| == |cabecalho|
                && forall i :: 0 <= i < |cabecalho| ==>
                     r.value[i] == CelulaRodape(configResultados.entradas[i], cabecalho[i], formato[i], dados, parse, sqrt)
    {
      if !configResultados.ListaResultados? || |dados| == 0 {
        return None;
      }
      var e := configResultados.entradas;
      if forall i :: 0 <= i < |e| ==> e[i].DiretivaNula? {
        return None;
      }
      var celulas := CelulasDoRodape(e, cabecalho, formato, dados, parse, sqrt);
      return Some(celulas);
    }

    /** The cell loop of `_gerarLinhaResultados`: one footer cell per column. */
    static method CelulasDoRodape(e: seq<Diretiva>, cab: seq<string>, fmt: seq<string>, dados: seq<Linha>,
                                  parse: string -> Option<real>, sqrt: real -> real) returns (celulas: seq<Celula>)
      requires |dados| > 0 && |e| <= |cab| && |e| <= |fmt|
      requires forall i :: 0 <= i < |e| ==> !e[i].DiretivaOutra?
      ensures |celulas| == |e|
      ensures forall k :: 0 <= k < |e| ==> celulas[k] == CelulaRodape(e[k], cab[k], fmt[k], dados, parse, sqrt)
    {
      celulas := [];
      var i := 0;
      while i < |e|
        invariant 0 <= i <= |e|
        invariant |celulas| == i
        invariant forall k :: 0 <= k < i ==> celulas[k] == CelulaRodape(e[k], cab[k], fmt[k], dados, parse, sqrt)
      {
        celulas := celulas + [CelulaRodape(e[i], cab[i], fmt[i], dados, parse, sqrt)];
        i := i + 1;
      }
    }

    /**
     * The `blur` listener of the `k`-th editable cell: writes the cell text
     * into row `k div n`, column `cabecalho[k mod n]`, when that row exists.
     */
    method EditarCelula(k: nat, texto: string)
      requires Valid()
      modifies this
      ensures Valid() && cabecalho == old(cabecalho) && formato == old(formato)
      ensures var (l, c) := PosicaoDaCelula(k, |cabecalho|);
              if l < |old(dados)| then dados == old(dados)[l := old(dados)[l][cabecalho[c] := Str(texto)]]
              else dados == old(dados)
      ensures configResultados == old(configResultados) && mensagem == old(mensagem)
    {
      var (l, c) := PosicaoDaCelula(k, |cabecalho|);
      if l < |dados| {
        dados := dados[l := dados[l][cabecalho[c] := Str(texto)]];
      }
    }

    /**
     * `exibirMensagem`; `area` says whether the form holds both
     * `#divMensagemTabela` and `#labelMensagem`. Without them nothing changes.
     */
    method ExibirMensagem(m: string, tipo: string, area: bool)
      modifies this
      ensures area ==> mensagem == Truncar(m) && mensagemVisivel && corMensagem == CoresDoTipo(tipo)
      ensures !area ==> mensagem == old(mensagem) && mensagemVisivel == old(mensagemVisivel) && corMensagem == old(corMensagem)
      ensures dados == old(dados) && cabecalho == old(cabecalho) && configResultados == old(configResultados)
    {
      if area {
        mensagem := Truncar(m);
        mensagemVisivel := true;
        corMensagem := CoresDoTipo(tipo);
      }
    }

    /** `ocultarMensagem`: hides and empties the message area, when the form holds it. */
    method OcultarMensagem(area: bool)
      modifies this
      ensures area ==> mensagem == "" && !mensagemVisivel
      ensures !area ==> mensagem == old(mensagem) && mensagemVisivel == old(mensagemVisivel)
      ensures corMensagem == old(corMensagem)
      ensures dados == old(dados) && cabecalho == old(cabecalho) && configResultados == old(configResultados)
    {
      if area {
        mensagemVisivel := false;
        mensagem := "";
      }
    }
  }
}
