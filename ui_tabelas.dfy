/**
 * The example table page: the `select-alterada` handler that routes a
 * changed select either to the temporary state/city cascade or to the
 * generic SQL builder, the generic builder itself (WHERE clause, then
 * next select or table), the in-memory student list with its filters,
 * and the `botao-clicado` handler that toggles the CRUD buttons.
 */
module UiTabelas {
  import opened JsCommon
  import Tabelas
  import Botoes

  // ---------------------------------------------------------------------
  // The generic builder (`popularSelect_Tabela`)

  /** The `filtros` argument: null/undefined, an array, a plain object (entries in key order) or another value. */
  datatype Filtros =
    | FiltrosNulos
    | FiltrosArray
    | FiltrosObjeto(entradas: seq<(string, Option<string>)>)
    | FiltrosPrimitivo

  /** A filter value that yields a clause: neither `''` nor null/undefined. */
  predicate ValorPresente(v: Option<string>) { v.Some? && v.value != "" }

  /** The entries that yield a clause, in their order. */
  function Presentes(e: seq<(string, Option<string>)>): (r: seq<(string, Option<string>)>)
    ensures |r| <= |e|
    ensures forall k :: 0 <= k < |r| ==> ValorPresente(r[k].1) && r[k] in e
    ensures forall i :: 0 <= i < |e| && ValorPresente(e[i].1) ==> e[i] in r
  {
    if e == [] then []
    else (if ValorPresente(e[0].1) then [e[0]] else []) + Presentes(e[1..])
  }

  /** Keeping the present entries commutes with concatenation: their order is kept. */
  lemma {:induction false} PresentesConcatena(a: seq<(string, Option<string>)>, b: seq<(string, Option<string>)>)
    ensures Presentes(a + b) == Presentes(a) + Presentes(b)
  {
    if a != [] {
      assert (a + b)[1..] == a[1..] + b;
      PresentesConcatena(a[1..], b);
    } else {
      assert a + b == b;
    }
  }

  /** `${campo} = '${valor}'`: the value is inserted verbatim, unescaped. */
  function Clausula(campo: string, valor: string): (r: string)
    ensures |r| == |campo| + |valor| + 5
    ensures r[..|campo|] == campo && r[|campo| + 4..|campo| + 4 + |valor|] == valor
  {
    campo + " = '" + valor + "'"
  }

  /** `Array.prototype.join`. */
  function Juntar(xs: seq<string>, sep: string): (r: string)
    ensures xs == [] ==> r == ""
    ensures |xs| == 1 ==> r == xs[0]
  {
    if xs == [] then ""
    else if |xs| == 1 then xs[0]
    else xs[0] + sep + Juntar(xs[1..], sep)
  }

  lemma ValoresDoJuntar(a: string, b: string, sep: string)
    ensures Juntar([a, b], sep) == a + sep + b
  {
    assert [a, b][1..] == [b];
  }

  /** The clauses of the entries, one per present entry. */
  function Clausulas(e: seq<(string, Option<string>)>): (r: seq<string>)
    ensures |r| == |Presentes(e)|
    ensures forall k :: 0 <= k < |r| ==> r[k] == Clausula(Presentes(e)[k].0, Presentes(e)[k].1.value)
  {
    var p := Presentes(e);
    seq(|p|, k requires 0 <= k < |p| => Clausula(p[k].0, p[k].1.value))
  }

  /**
   * The WHERE part: empty for an array or a non-object, and for an object
   * without present values; otherwise ' WHERE ' and the clauses joined by ' AND '.
   */
  function MontarWhere(f: Filtros): (r: string)
    ensures r == "" <==> !f.FiltrosObjeto? || Presentes(f.entradas) == []
    ensures r != "" ==> r == " WHERE " + Juntar(Clausulas(f.entradas), " AND ")
  {
    match f
    case FiltrosObjeto(e) =>
      var c := Clausulas(e);
      if |c| > 0 then " WHERE " + Juntar(c, " AND ") else ""
    case _ => ""
  }

  /** A present value, an empty one and a missing one give the single clause of the first. */
  lemma WhereUmaClausula(k1: string, v1: string, k2: string, k3: string)
    requires v1 != ""
    ensures MontarWhere(FiltrosObjeto([(k1, Some(v1)), (k2, Some("")), (k3, None)])) == " WHERE " + Clausula(k1, v1)
  {
    var e := [(k1, Some(v1)), (k2, Some("")), (k3, None)];
    assert e[1..][1..][1..] == [];
    assert Presentes(e[1..][1..]) == [];
    assert Presentes(e[1..]) == [];
    assert Presentes(e) == [(k1, Some(v1))];
    assert Clausulas(e) == [Clausula(k1, v1)];
  }

  /** Two present values give their clauses joined by ' AND ', in entry order. */
  lemma WhereDuasClausulas(k1: string, v1: string, k2: string, v2: string)
    requires v1 != "" && v2 != ""
    ensures MontarWhere(FiltrosObjeto([(k1, Some(v1)), (k2, Some(v2))]))
            == " WHERE " + (Clausula(k1, v1) + " AND " + Clausula(k2, v2))
  {
    var e := [(k1, Some(v1)), (k2, Some(v2))];
    assert e[1..][1..] == [];
    assert Presentes(e) == e;
    assert Clausulas(e) == [Clausula(k1, v1), Clausula(k2, v2)];
    ValoresDoJuntar(Clausula(k1, v1), Clausula(k2, v2), " AND ");
  }

  lemma ExemploWhereVazio()
    ensures MontarWhere(FiltrosArray) == "" && MontarWhere(FiltrosObjeto([("estado", Some(""))])) == ""
  {
    assert Presentes([("estado", Some(""))]) == [];
  }

  /** A quote inside a value closes the literal early: the text reaches the SQL as is. */
  lemma WhereSemEscape(campo: string, valor: string)
    requires valor != ""
    ensures MontarWhere(FiltrosObjeto([(campo, Some(valor))])) == " WHERE " + campo + " = '" + valor + "'"
  {
    assert Presentes([(campo, Some(valor))]) == [(campo, Some(valor))];
  }

  /** `sqlBase`: a missing entry of `sqlFiltro` concatenates as the text 'undefined'. */
  function TextoSql(base: Option<string>): string {
    match base
    case Some(s) => s
    case None => "undefined"
  }

  /** What `popularSelect_Tabela` does with the SQL it builds. */
  datatype Despacho =
    | TabelaComSql(sql: string)                       // objFormTabela.popularTabela(sqlFinal), handed the SQL text
    | LogTabela(sql: string)                          // no table object: only logs
    | SelectComSql(campo: Option<string>, sql: string)  // objFormTabela.popularSelect(opt[indice+1], sqlFinal)
    | LogSelect(campo: Option<string>, sql: string)     // no popularSelect: only logs

  predicate ParaTabela(d: Despacho) { d.TabelaComSql? || d.LogTabela? }

  /** `opt[k]`, undefined outside the list. */
  function Em(opt: seq<string>, k: int): (r: Option<string>)
    ensures r.Some? <==> 0 <= k < |opt|
    ensures r.Some? ==> r.value == opt[k]
  {
    if 0 <= k < |opt| then Some(opt[k]) else None
  }

  /**
   * `popularSelect_Tabela`: the table is populated exactly when `indice` is
   * the last position of `opt`; otherwise the next select is.
   */
  function PopularSelectTabela(base: Option<string>, filtros: Filtros, indice: int, opt: seq<string>,
                               temPopularTabela: bool, temPopularSelect: bool): (r: Despacho)
    ensures ParaTabela(r) <==> indice == |opt| - 1
    ensures r.sql == TextoSql(base) + MontarWhere(filtros)
    ensures !ParaTabela(r) ==> r.campo == Em(opt, indice + 1)
    ensures r.TabelaComSql? <==> indice == |opt| - 1 && temPopularTabela
    ensures r.SelectComSql? <==> indice != |opt| - 1 && temPopularSelect
  {
    var sql := TextoSql(base) + MontarWhere(filtros);
    if indice == |opt| - 1 then
      if temPopularTabela then TabelaComSql(sql) else LogTabela(sql)
    else
      if temPopularSelect then SelectComSql(Em(opt, indice + 1), sql) else LogSelect(Em(opt, indice + 1), sql)
  }

  // ---------------------------------------------------------------------
  // Routing (`handlerSelectsCascata`)

  /** `sqlFiltro`: only its first entry is defined. */
  const SqlFiltro: seq<string> := ["SELECT opt(1) FROM queryDB1"]

  /** The branch of the switch a changed field takes. */
  datatype Rota = RotaTemp(indice: nat) | RotaGenerica(base: Option<string>, indice: nat)

  /** The first case `opt[k]`, k in 0..4, strictly equal to `campo`. */
  function CasoDoCampo(campo: string, opt: seq<string>, k: nat): (r: Option<nat>)
    requires k <= 5
    decreases 5 - k
    ensures r.Some? ==> k <= r.value < 5 && r.value < |opt| && opt[r.value] == campo
                        && forall j :: k <= j < r.value ==> Em(opt, j) != Some(campo)
    ensures r.None? ==> forall j :: k <= j < 5 ==> Em(opt, j) != Some(campo)
  {
    if k == 5 then None
    else if Em(opt, k) == Some(campo) then Some(k)
    else CasoDoCampo(campo, opt, k + 1)
  }

  function Rotear(campo: string, opt: seq<string>): (r: Rota)
    ensures r == RotaTemp(0) <==> Em(opt, 0) == Some(campo)
    ensures r == RotaTemp(1) <==> Em(opt, 0) != Some(campo) && Em(opt, 1) == Some(campo)
    ensures r.RotaGenerica? && r.indice >= 2 ==> Em(opt, r.indice) == Some(campo) && r.base.None?
    ensures r.RotaGenerica? && r.indice == 0 ==>
              r.base == Some(SqlFiltro[0]) && forall j :: 0 <= j < 5 ==> Em(opt, j) != Some(campo)
    ensures r.RotaGenerica? ==> r.indice == 0 || 2 <= r.indice < 5
  {
    match CasoDoCampo(campo, opt, 0)
    case Some(k) => if k <= 1 then RotaTemp(k) else RotaGenerica(None, k)
    case None => RotaGenerica(Some(SqlFiltro[0]), 0)
  }

  // ---------------------------------------------------------------------
  // The student list

  datatype Estudante = Estudante(nome: string, estado: string, cidade: string, curso: string)

  const Estudantes: seq<Estudante> := [
    Estudante("Ana Souza", "SP", "São Paulo", "Engenharia"),
    Estudante("Bruno Lima", "SP", "Campinas", "Direito"),
    Estudante("Carla Dias", "SP", "Santos", "Medicina"),
    Estudante("Daniel Alves", "SP", "São Paulo", "Arquitetura"),
    Estudante("Eduarda Pires", "SP", "Campinas", "Engenharia"),
    Estudante("Felipe Silva", "SP", "Santos", "Administração"),
    Estudante("Gabriela Costa", "RJ", "Rio de Janeiro", "Engenharia"),
    Estudante("Henrique Souza", "RJ", "Niterói", "Direito"),
    Estudante("Isabela Ramos", "RJ", "Petrópolis", "Medicina"),
    Estudante("João Pedro", "RJ", "Rio de Janeiro", "Arquitetura"),
    Estudante("Katia Luz", "RJ", "Niterói", "Engenharia"),
    Estudante("Lucas Rocha", "RJ", "Petrópolis", "Administração"),
    Estudante("Marina Dias", "MG", "Belo Horizonte", "Engenharia"),
    Estudante("Nicolas Alves", "MG", "Uberlândia", "Direito"),
    Estudante("Olivia Castro", "MG", "Contagem", "Medicina"),
    Estudante("Paulo Mendes", "MG", "Belo Horizonte", "Arquitetura"),
    Estudante("Quésia Silva", "MG", "Uberlândia", "Engenharia"),
    Estudante("Rafael Lima", "MG", "Contagem", "Administração"),
    Estudante("Sofia Martins", "RS", "Porto Alegre", "Engenharia"),
    Estudante("Tiago Souza", "RS", "Caxias do Sul", "Direito"),
    Estudante("Ursula Dias", "RS", "Pelotas", "Medicina"),
    Estudante("Vinicius Luz", "RS", "Porto Alegre", "Arquitetura"),
    Estudante("Wesley Castro", "RS", "Caxias do Sul", "Engenharia"),
    Estudante("Xuxa Ramos", "RS", "Pelotas", "Administração"),
    Estudante("Yara Silva", "BA", "Salvador", "Engenharia"),
    Estudante("Zeca Dias", "BA", "Feira de Santana", "Direito"),
    Estudante("Amanda Luz", "BA", "Vitória da Conquista", "Medicina"),
    Estudante("Brenda Rocha", "BA", "Salvador", "Arquitetura"),
    Estudante("Caio Martins", "BA", "Feira de Santana", "Engenharia"),
    Estudante("Duda Souza", "BA", "Vitória da Conquista", "Administração")
  ]

  /** A filter argument constrains only when truthy. */
  predicate Restringe(o: Option<string>) { o.Some? && o.value != "" }

  predicate Atende(e: Estudante, estado: Option<string>, cidade: Option<string>) {
    (!Restringe(estado) || e.estado == estado.value) && (!Restringe(cidade) || e.cidade == cidade.value)
  }

  /** `filtrarEstudantes` over a given list. */
  function FiltrarEstudantes(lista: seq<Estudante>, estado: Option<string>, cidade: Option<string>): (r: seq<Estudante>)
    ensures |r| <= |lista|
  {
    if lista == [] then []
    else (if Atende(lista[0], estado, cidade) then [lista[0]] else []) + FiltrarEstudantes(lista[1..], estado, cidade)
  }

  /** The filter keeps exactly the students that match, and only students of the list. */
  lemma FiltrarSelecionaAtendentes(lista: seq<Estudante>, estado: Option<string>, cidade: Option<string>)
    ensures forall k :: 0 <= k < |FiltrarEstudantes(lista, estado, cidade)| ==>
              Atende(FiltrarEstudantes(lista, estado, cidade)[k], estado, cidade)
              && FiltrarEstudantes(lista, estado, cidade)[k] in lista
    ensures forall i :: 0 <= i < |lista| && Atende(lista[i], estado, cidade) ==> lista[i] in FiltrarEstudantes(lista, estado, cidade)
  {
    FiltrarSoAtendentes(lista, estado, cidade);
    FiltrarTodosAtendentes(lista, estado, cidade);
  }

  lemma {:induction false} FiltrarSoAtendentes(lista: seq<Estudante>, estado: Option<string>, cidade: Option<string>)
    ensures forall x :: x in FiltrarEstudantes(lista, estado, cidade) ==> Atende(x, estado, cidade) && x in lista
  {
    if lista != [] {
      FiltrarSoAtendentes(lista[1..], estado, cidade);
      FiltrarPasso(lista, estado, cidade);
      forall x | x in FiltrarEstudantes(lista, estado, cidade)
        ensures Atende(x, estado, cidade) && x in lista
      {
        if x !in FiltrarEstudantes(lista[1..], estado, cidade) {
          assert x == lista[0];
        } else {
          assert x in lista[1..];
        }
      }
    }
  }

  lemma {:induction false} FiltrarTodosAtendentes(lista: seq<Estudante>, estado: Option<string>, cidade: Option<string>)
    ensures forall i :: 0 <= i < |lista| && Atende(lista[i], estado, cidade) ==> lista[i] in FiltrarEstudantes(lista, estado, cidade)
  {
    if lista != [] {
      FiltrarTodosAtendentes(lista[1..], estado, cidade);
      FiltrarPasso(lista, estado, cidade);
      forall i | 0 <= i < |lista| && Atende(lista[i], estado, cidade)
        ensures lista[i] in FiltrarEstudantes(lista, estado, cidade)
      {
        if i > 0 {
          assert lista[i] == lista[1..][i - 1];
        }
      }
    }
  }

  /** The first student is kept or dropped, then the rest is filtered. */
  lemma FiltrarPasso(lista: seq<Estudante>, estado: Option<string>, cidade: Option<string>)
    requires lista != []
    ensures FiltrarEstudantes(lista, estado, cidade)
            == (if Atende(lista[0], estado, cidade) then [lista[0]] else []) + FiltrarEstudantes(lista[1..], estado, cidade)
  {
  }

  /** The filter keeps the list's order: it commutes with concatenation. */
  lemma {:induction false} FiltrarConcatena(a: seq<Estudante>, b: seq<Estudante>, estado: Option<string>, cidade: Option<string>)
    ensures FiltrarEstudantes(a + b, estado, cidade) == FiltrarEstudantes(a, estado, cidade) + FiltrarEstudantes(b, estado, cidade)
  {
    if a != [] {
      FiltrarConcatena(a[1..], b, estado, cidade);
      FiltrarConcatenaPasso(a, b, estado, cidade);
    } else {
      assert a + b == b;
    }
  }

  /** The inductive step of `FiltrarConcatena`: from the tail of `a` to `a`. */
  lemma FiltrarConcatenaPasso(a: seq<Estudante>, b: seq<Estudante>, estado: Option<string>, cidade: Option<string>)
    requires a != []
    requires FiltrarEstudantes(a[1..] + b, estado, cidade)
             == FiltrarEstudantes(a[1..], estado, cidade) + FiltrarEstudantes(b, estado, cidade)
    ensures FiltrarEstudantes(a + b, estado, cidade) == FiltrarEstudantes(a, estado, cidade) + FiltrarEstudantes(b, estado, cidade)
  {
    var h := if Atende(a[0], estado, cidade) then [a[0]] else [];
    var fa := FiltrarEstudantes(a[1..], estado, cidade);
    var fb := FiltrarEstudantes(b, estado, cidade);
    calc {
      FiltrarEstudantes(a + b, estado, cidade);
    == { FiltrarPasso(a + b, estado, cidade); assert (a + b)[0] == a[0]; }
      h + FiltrarEstudantes((a + b)[1..], estado, cidade);
    == { assert (a + b)[1..] == a[1..] + b; }
      h + (fa + fb);
    == { ConcatAssoc(h, fa, fb); }
      (h + fa) + fb;
    == { FiltrarPasso(a, estado, cidade); }
      FiltrarEstudantes(a, estado, cidade) + fb;
    }
  }

  /** With neither argument truthy the whole list comes back. */
  lemma {:induction false} FiltrarSemRestricao(lista: seq<Estudante>, estado: Option<string>, cidade: Option<string>)
    requires !Restringe(estado) && !Restringe(cidade)
    ensures FiltrarEstudantes(lista, estado, cidade) == lista
  {
    if lista != [] {
      FiltrarSemRestricao(lista[1..], estado, cidade);
    }
  }

  /** Filtering by state and city is filtering by state, then by city. */
  lemma {:induction false} FiltrarCompoe(lista: seq<Estudante>, estado: Option<string>, cidade: Option<string>)
    ensures FiltrarEstudantes(lista, estado, cidade)
            == FiltrarEstudantes(FiltrarEstudantes(lista, estado, None), None, cidade)
  {
    if lista != [] {
      FiltrarCompoe(lista[1..], estado, cidade);
      var p := FiltrarEstudantes(lista, estado, None);
      var q := FiltrarEstudantes(lista[1..], estado, None);
      if Atende(lista[0], estado, None) {
        assert p == [lista[0]] + q;
        assert p[0] == lista[0] && p[1..] == q;
        assert FiltrarEstudantes(p, None, cidade)
               == (if Atende(lista[0], None, cidade) then [lista[0]] else []) + FiltrarEstudantes(q, None, cidade);
      } else {
        assert p == q;
      }
    }
  }

  function EstadosDe(lista: seq<Estudante>): (r: seq<string>)
    ensures |r| == |lista|
    ensures forall i :: 0 <= i < |lista| ==> r[i] == lista[i].estado
  {
    seq(|lista|, i requires 0 <= i < |lista| => lista[i].estado)
  }

  function CidadesDe(lista: seq<Estudante>): (r: seq<string>)
    ensures |r| == |lista|
    ensures forall i :: 0 <= i < |lista| ==> r[i] == lista[i].cidade
  {
    seq(|lista|, i requires 0 <= i < |lista| => lista[i].cidade)
  }

  /** `filter(e => e.estado === estado)`: strict equality, so `''` matches nobody here. */
  function DoEstado(lista: seq<Estudante>, estado: string): (r: seq<Estudante>)
    ensures forall k :: 0 <= k < |r| ==> r[k].estado == estado && r[k] in lista
    ensures forall i :: 0 <= i < |lista| && lista[i].estado == estado ==> lista[i] in r
  {
    if lista == [] then []
    else (if lista[0].estado == estado then [lista[0]] else []) + DoEstado(lista[1..], estado)
  }

  /** `estados`: each state once, in order of first appearance. */
  function Estados(lista: seq<Estudante>): (r: seq<string>)
    ensures NoDuplicates(r)
    ensures forall s :: s in r <==> exists i :: 0 <= i < |lista| && lista[i].estado == s
  {
    var es := EstadosDe(lista);
    assert forall i :: 0 <= i < |lista| ==> es[i] == lista[i].estado;
    Distinct(es)
  }

  /** `cidadesPorEstado`: each city of the state once, in order of first appearance. */
  function CidadesPorEstado(lista: seq<Estudante>, estado: string): (r: seq<string>)
    ensures NoDuplicates(r)
    ensures forall c :: c in r <==> exists i :: 0 <= i < |lista| && lista[i].estado == estado && lista[i].cidade == c
  {
    var d := DoEstado(lista, estado);
    var cs := CidadesDe(d);
    assert forall c :: c in cs <==> exists k :: 0 <= k < |d| && d[k].cidade == c;
    Distinct(cs)
  }

  /** The state list follows first appearance in the student list. */
  lemma EstadosEmOrdem(lista: seq<Estudante>, i: int, j: int)
    requires 0 <= i < j < |Estados(lista)|
    ensures IndexOf(EstadosDe(lista), Estados(lista)[i]) < IndexOf(EstadosDe(lista), Estados(lista)[j])
  {
    DistinctFirstAppearance(EstadosDe(lista), i, j);
  }

  /** The city list follows first appearance among the state's students. */
  lemma CidadesEmOrdem(lista: seq<Estudante>, estado: string, i: int, j: int)
    requires 0 <= i < j < |CidadesPorEstado(lista, estado)|
    ensures var cs := CidadesDe(DoEstado(lista, estado));
            IndexOf(cs, CidadesPorEstado(lista, estado)[i]) < IndexOf(cs, CidadesPorEstado(lista, estado)[j])
  {
    DistinctFirstAppearance(CidadesDe(DoEstado(lista, estado)), i, j);
  }

  /** A student as the row handed to `popularTabela` (lower-case keys). */
  function ComoLinha(e: Estudante): (r: Tabelas.Linha)
    ensures Get(r, "nome") == Str(e.nome) && Get(r, "estado") == Str(e.estado)
    ensures Get(r, "cidade") == Str(e.cidade) && Get(r, "curso") == Str(e.curso)
  {
    map["nome" := Str(e.nome), "estado" := Str(e.estado), "cidade" := Str(e.cidade), "curso" := Str(e.curso)]
  }

  function ComoLinhas(l: seq<Estudante>): (r: seq<Tabelas.Linha>)
    ensures |r| == |l| && forall i :: 0 <= i < |l| ==> r[i] == ComoLinha(l[i])
  {
    seq(|l|, i requires 0 <= i < |l| => ComoLinha(l[i]))
  }

  // ---------------------------------------------------------------------
  // The temporary cascade (`popularSelect_Tabela_temp`)

  /** Reading `filtros[chave]`: a value (null/undefined as None), or a TypeError on null/undefined filters. */
  datatype Leitura = Lido(v: Option<string>) | ErroDeTipo

  function Ler(f: Filtros, chave: Option<string>): (r: Leitura)
    ensures r.ErroDeTipo? <==> f.FiltrosNulos?
    ensures !f.FiltrosObjeto? && !f.FiltrosNulos? ==> r == Lido(None)
  {
    match f
    case FiltrosNulos => ErroDeTipo
    case FiltrosObjeto(e) => Lido(ValorDe(e, if chave.Some? then chave.value else "undefined"))
    case _ => Lido(None)
  }

  /** The value under a key of an object's entries (keys are unique). */
  function ValorDe(e: seq<(string, Option<string>)>, chave: string): Option<string> {
    if e == [] then None else if e[0].0 == chave then e[0].1 else ValorDe(e[1..], chave)
  }

  /** `valor || ''` followed by `=== '' ? null : valor`. */
  function ParaFiltro(v: Option<string>): (r: Option<string>)
    ensures Restringe(r) <==> Restringe(v)
    ensures r.Some? ==> r == v && r.value != ""
  {
    if Restringe(v) then v else None
  }

  /** The city options of index 0: `''` labelled 'Todas', then the cities. */
  function OpcoesCidades(lista: seq<Estudante>, estado: string): (r: seq<Opcao>)
    ensures |r| == 1 + |CidadesPorEstado(lista, estado)| && r[0] == Opcao("", "Todas")
    ensures forall k :: 0 <= k < |CidadesPorEstado(lista, estado)| ==>
              r[k + 1] == Opcao(CidadesPorEstado(lista, estado)[k], CidadesPorEstado(lista, estado)[k])
  {
    var cs := CidadesPorEstado(lista, estado);
    OpcoesRotuladas([Opcao("", "Todas")], cs)
  }

  /** `cabeca` followed by one option per value, each labelled by itself. */
  function OpcoesRotuladas(cabeca: seq<Opcao>, cs: seq<string>): (r: seq<Opcao>)
    ensures |r| == |cabeca| + |cs| && r[..|cabeca|] == cabeca
    ensures forall k :: 0 <= k < |cs| ==> r[k + |cabeca|] == Opcao(cs[k], cs[k])
  {
    cabeca + seq(|cs|, k requires 0 <= k < |cs| => Opcao(cs[k], cs[k]))
  }

  /** What the temporary cascade does. */
  datatype AcaoTemp =
    | PopularCidades(campo: Option<string>, opcoes: seq<Opcao>)  // objSelect.popularSelect(opt[1], dadosCidades)
    | AvisoSemSelect                                            // warns: no objSelect.popularSelect
    | LimparCidades(campo: Option<string>)                      // objSelect.limparSelect(opt[1])
    | TabelaPopulada(linhas: seq<Tabelas.Linha>)                // objFormTabela.popularTabela(dadosTabela)
    | AvisoSemTabela(linhas: seq<Tabelas.Linha>)                // warns: no popularTabela
    | Nada
    | ErroTipo

  /** The rows the second select shows: the filtered students, renamed by `popularTabela`. */
  function LinhasDaCidade(lista: seq<Estudante>, f: Filtros, opt: seq<string>): seq<Tabelas.Linha>
    requires !f.FiltrosNulos?
  {
    var estado := Ler(f, Em(opt, 0)).v;
    var cidade := Ler(f, Em(opt, 1)).v;
    ComoLinhas(FiltrarEstudantes(lista, ParaFiltro(estado), ParaFiltro(cidade)))
  }

  /**
   * `popularSelect_Tabela_temp`. Index 0 sends the state's cities to the
   * second select (or clears it when the state is empty); index 1 filters
   * the students and hands them to the table. Any other index does nothing.
   * `temObjSelect` says whether `objFormTabela.objSelect` offers the select
   * methods, so it can only hold when there is a table object.
   */
  method PopularSelectTabelaTemp(lista: seq<Estudante>, f: Filtros, indice: int, opt: seq<string>, t: Tabelas.Tabela?, temObjSelect: bool)
    returns (r: AcaoTemp)
    requires t == null ==> !temObjSelect
    modifies if t != null then {t} else {}
    ensures indice != 0 && indice != 1 ==> r == Nada
    ensures (indice == 0 || indice == 1) && f.FiltrosNulos? ==> r == ErroTipo
    ensures indice == 0 && !f.FiltrosNulos? ==>
              var estado := Ler(f, Em(opt, 0)).v;
              if Restringe(estado) then
                r == (if temObjSelect then PopularCidades(Em(opt, 1), OpcoesCidades(lista, estado.value)) else AvisoSemSelect)
              else
                r == (if temObjSelect then LimparCidades(Em(opt, 1)) else Nada)
    ensures indice == 1 && !f.FiltrosNulos? ==>
              r == (if t != null then TabelaPopulada(LinhasDaCidade(lista, f, opt)) else AvisoSemTabela(LinhasDaCidade(lista, f, opt)))
    ensures t != null && indice == 1 && !f.FiltrosNulos? ==> t.dados == Tabelas.Normalizar(LinhasDaCidade(lista, f, opt))
    ensures t != null && !(indice == 1 && !f.FiltrosNulos?) ==> t.dados == old(t.dados)
    ensures t != null ==> t.cabecalho == old(t.cabecalho) && t.configResultados == old(t.configResultados)
  {
    if indice != 0 && indice != 1 {
      return Nada;
    }
    if f.FiltrosNulos? {
      return ErroTipo;
    }
    if indice == 0 {
      var estado := Ler(f, Em(opt, 0)).v;
      if Restringe(estado) {
        if temObjSelect {
          r := PopularCidades(Em(opt, 1), OpcoesCidades(lista, estado.value));
        } else {
          r := AvisoSemSelect;
        }
      } else {
        r := if temObjSelect then LimparCidades(Em(opt, 1)) else Nada;
      }
    } else {
      var linhas := LinhasDaCidade(lista, f, opt);
      if t != null {
        t.PopularTabela(linhas);
        r := TabelaPopulada(linhas);
      } else {
        r := AvisoSemTabela(linhas);
      }
    }
  }

  /** Every student has a non-empty name, so `popularTabela` renames the rows. */
  predicate NomesPreenchidos(lista: seq<Estudante>) {
    forall i :: 0 <= i < |lista| ==> lista[i].nome != ""
  }

  lemma EstudantesComNome()
    ensures NomesPreenchidos(Estudantes)
  {
  }

  function Capitalizada(e: Estudante): Tabelas.Linha {
    map["Nome" := Str(e.nome), "Estado" := Str(e.estado), "Cidade" := Str(e.cidade), "Curso" := Str(e.curso)]
  }

  lemma RenomeadaComoLinha(e: Estudante)
    ensures Tabelas.Renomeada(ComoLinha(e)) == Capitalizada(e)
  {
  }

  /** The rows shown are the capitalised records of exactly the matching students. */
  lemma LinhasDaCidadeRenomeadas(lista: seq<Estudante>, f: Filtros, opt: seq<string>)
    requires !f.FiltrosNulos? && NomesPreenchidos(lista)
    ensures var l := FiltrarEstudantes(lista, ParaFiltro(Ler(f, Em(opt, 0)).v), ParaFiltro(Ler(f, Em(opt, 1)).v));
            |Tabelas.Normalizar(LinhasDaCidade(lista, f, opt))| == |l|
            && forall i :: 0 <= i < |l| ==> Tabelas.Normalizar(LinhasDaCidade(lista, f, opt))[i] == Capitalizada(l[i])
  {
    var l := FiltrarEstudantes(lista, ParaFiltro(Ler(f, Em(opt, 0)).v), ParaFiltro(Ler(f, Em(opt, 1)).v));
    var d := LinhasDaCidade(lista, f, opt);
    assert d == ComoLinhas(l);
    if |d| > 0 {
      FiltrarSelecionaAtendentes(lista, ParaFiltro(Ler(f, Em(opt, 0)).v), ParaFiltro(Ler(f, Em(opt, 1)).v));
      assert l[0] in lista;
      assert Truthy(Get(d[0], "nome"));
      forall i | 0 <= i < |l|
        ensures Tabelas.Normalizar(d)[i] == Capitalizada(l[i])
      {
        RenomeadaComoLinha(l[i]);
      }
    }
  }

  /**
   * What one `select-alterada` event leads to. `popularTabela` of a
   * `CriarTabelas` given the SQL text passes that string on to `setDados`,
   * which throws 'Dados deve ser um array de objetos.' before touching the
   * rows: `DadosNaoArray` is that exception.
   */
  datatype Efeito = EfeitoTemp(a: AcaoTemp) | EfeitoGenerico(d: Despacho) | DadosNaoArray(sql: string)

  /**
   * `handlerSelectsCascata` with `window.objFormTabela` as `t`: `CriarTabelas`
   * has `popularTabela` but no `popularSelect`.
   */
  method HandlerSelectsCascata(lista: seq<Estudante>, campo: string, opt: seq<string>, selecionados: Filtros, t: Tabelas.Tabela?, temObjSelect: bool)
    returns (r: Efeito)
    requires t == null ==> !temObjSelect
    modifies if t != null then {t} else {}
    ensures Rotear(campo, opt).RotaTemp? <==> r.EfeitoTemp?
    ensures r.DadosNaoArray? <==> Rotear(campo, opt).RotaGenerica? && Rotear(campo, opt).indice == |opt| - 1 && t != null
    ensures !r.EfeitoTemp? ==>
              var rota := Rotear(campo, opt);
              var d := PopularSelectTabela(rota.base, selecionados, rota.indice, opt, t != null, false);
              (r.EfeitoGenerico? ==> r.d == d && !d.TabelaComSql?) && (r.DadosNaoArray? ==> d == TabelaComSql(r.sql))
    ensures !r.EfeitoTemp? && t != null ==> t.dados == old(t.dados)
    ensures t != null ==> t.cabecalho == old(t.cabecalho) && t.configResultados == old(t.configResultados)
  {
    var rota := Rotear(campo, opt);
    if rota.RotaTemp? {
      var a := PopularSelectTabelaTemp(lista, selecionados, rota.indice, opt, t, temObjSelect);
      return EfeitoTemp(a);
    }
    var d := PopularSelectTabela(rota.base, selecionados, rota.indice, opt, t != null, false);
    if d.TabelaComSql? {
      return DadosNaoArray(d.sql);
    }
    return EfeitoGenerico(d);
  }

  /** Off the temporary cascade a non-last select never reaches another select: only a log line. */
  lemma GenericoNuncaPopulaSelect(campo: string, opt: seq<string>, f: Filtros, temTabela: bool)
    requires Rotear(campo, opt).RotaGenerica?
    ensures var rota := Rotear(campo, opt);
            var d := PopularSelectTabela(rota.base, f, rota.indice, opt, temTabela, false);
            !d.SelectComSql? && (rota.indice != |opt| - 1 ==> d.LogSelect?)
  {
  }

  /** A field found at position 2, 3 or 4 builds its SQL on 'undefined'. */
  lemma SqlIndefinida(campo: string, opt: seq<string>, f: Filtros, temTabela: bool)
    requires Rotear(campo, opt).RotaGenerica? && Rotear(campo, opt).indice >= 2
    ensures var rota := Rotear(campo, opt);
            PopularSelectTabela(rota.base, f, rota.indice, opt, temTabela, false).sql == "undefined" + MontarWhere(f)
  {
  }

  // ---------------------------------------------------------------------
  // CRUD buttons (`handlerBotoesCrud`)

  /** `habilitarBotao(id, h)` on a map: sets `disabled := !h` when the id is mapped. */
  function Habilitar(m: map<string, bool>, id: string, h: bool): (r: map<string, bool>)
    ensures r.Keys == m.Keys
    ensures id in m ==> r == m[id := !h]
    ensures id !in m ==> r == m
  {
    if id in m then m[id := !h] else m
  }

  /** The three calls of 'editar'/'incluir' (`editando`) and of 'salvar' (not `editando`). */
  function ModoEdicao(m: map<string, bool>, editando: bool): (r: map<string, bool>)
    ensures r.Keys == m.Keys
    ensures forall id :: id in m && id !in {"btn_salvar", "btn_editar", "btn_incluir"} ==> r[id] == m[id]
    ensures "btn_salvar" in m ==> !r["btn_salvar"] == editando
    ensures "btn_editar" in m ==> r["btn_editar"] == editando
    ensures "btn_incluir" in m ==> r["btn_incluir"] == editando
  {
    Habilitar(Habilitar(Habilitar(m, "btn_salvar", editando), "btn_editar", !editando), "btn_incluir", !editando)
  }

  /** The last mode wins: entering then leaving edit mode is just leaving it, and vice versa. */
  lemma ModoEdicaoUltimoVence(m: map<string, bool>, a: bool, b: bool)
    ensures ModoEdicao(ModoEdicao(m, a), b) == ModoEdicao(m, b)
  {
  }

  /** An empty button map stays empty. */
  lemma ModoEdicaoSemBotoes(editando: bool)
    ensures ModoEdicao(map[], editando) == map[]
  {
  }

  /**
   * `handlerBotoesCrud` on `window.objFormTabela.objBotoes`: 'editar' and
   * 'incluir' enter edit mode, 'salvar' leaves it, every other action
   * (including the navigation stubs) leaves the buttons unchanged.
   */
  method HandlerBotoesCrud(acao: string, b: Botoes.CriarBotoes?)
    requires b != null ==> b.Valid()
    modifies if b != null then {b} else {}
    ensures b != null ==> b.Valid() && b.grupoBotoes == old(b.grupoBotoes)
    ensures b != null && (acao == "editar" || acao == "incluir") ==>
              b.botoesElementos == ModoEdicao(old(b.botoesElementos), true)
    ensures b != null && acao == "salvar" ==> b.botoesElementos == ModoEdicao(old(b.botoesElementos), false)
    ensures b != null && acao != "editar" && acao != "incluir" && acao != "salvar" ==>
              b.botoesElementos == old(b.botoesElementos)
  {
    if b == null {
      return;
    }
    if acao == "editar" || acao == "incluir" || acao == "salvar" {
      var editando := acao != "salvar";
      var ok1 := b.HabilitarBotao("btn_salvar", editando);
      var ok2 := b.HabilitarBotao("btn_editar", !editando);
      var ok3 := b.HabilitarBotao("btn_incluir", !editando);
    }
  }

  /** The example page's table: one text column, buttons ['S', 'N', 'S']. */
  method CriarTabelaExemplo() returns (t: Tabelas.Tabela)
    ensures fresh(t) && t.botoes != null && fresh(t.botoes) && t.botoes.Valid()
    ensures t.botoes.grupoBotoes == ["S", "N", "S"] && t.botoes.botoesElementos == map[]
  {
    var r := Tabelas.Tabela.Criar(["Nome"], [Tabelas.LarguraNumero(20.0)], ["E"], ["T"],
                                  Tabelas.SemResultados, false, true, Some([Str("S"), Str("N"), Str("S")]));
    if r.Failure? {
      assert false;
    }
    t := r.value;
  }

  /** As written: after 'editar' the table's edit button is still unmapped, so nothing was disabled. */
  method EditarNaTabelaComoEscrita() returns (editar: Option<bool>)
    ensures editar == None
  {
    var t := CriarTabelaExemplo();
    var html := t.ConfigurarBotoesRodape();
    HandlerBotoesCrud("editar", t.botoes);
    editar := t.botoes.ObterElementoBotao("btn_editar");
  }

  /** With the bar inserted by `inserirEm`, 'editar' disables the edit button and enables save. */
  method EditarNaTabelaMapeada() returns (editar: Option<bool>, salvar: Option<bool>)
    ensures editar == Some(true) && salvar == Some(false)
  {
    var t := CriarTabelaExemplo();
    var html := t.ConfigurarBotoesRodapeMapeando();
    assert "btn_editar" in Botoes.IdsGerados(html) && "btn_salvar" in Botoes.IdsGerados(html) by {
      Botoes.IdGeradoSseGrupoAtivo(html, "btn_editar");
      Botoes.IdGeradoSseGrupoAtivo(html, "btn_salvar");
      assert Botoes.GrupoCrud in html;
    }
    HandlerBotoesCrud("editar", t.botoes);
    editar := t.botoes.ObterElementoBotao("btn_editar");
    salvar := t.botoes.ObterElementoBotao("btn_salvar");
  }
}
