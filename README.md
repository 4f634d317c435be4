# A Dafny model of the framework-frontend UI core

This project models the core of a small browser UI framework written in
JavaScript (classes under `General_Classes/` plus the application scripts
that use them). The model covers these parts:

- **Tables** (`ConstrutorDeTabelas.js`). Schema validation, the twelve footer statistics, the 'T' and null cell formats, alignment, the state/city cascade over mock students, the edit index mapping and message truncation.
- **The table application script** (`ui_tabelas.js`). The WHERE builder, the select cascade and its routing, filtering, distinct states and cities, and the CRUD button handler.
- **The search bar** (`ConstrutorDeBarraDePesquisa.js`). A class over its combos, the Executar flag and the fill requests it emits.
- **Forms** (`ConstrutorDeForms.js` and the legacy `ConstrutorDeForms_Old.js`). Layout validation and classification, row and column placement, reading, clearing and enabling fields, and the buttons.
- **Buttons** (`ConstrutorDeBotoes.js`). Parameter validation, group order, generated ids, `inserirEm` mapping and enabling.
- **The login form** (`ConstrutorDeFormLogin.js`). Field validation, simulated authentication, attempt counting and lockout, show, hide and destroy.
- **The modal form** (`ConstrutorDeFormModal.js`) and its application script (`ui_FormModal.js`). Option overrides, drag clamping, visibility, submit and close events, the deferred cleanup, e-mail and data validation, and the confirmation modal.
- **The application interface** (`InterfaceAplicacao.js` and `ConstrutorDeInterfaceAplicacao.js`). Handler lookup by normalised label, menu display, the menu registry and switching between menus.
- **Menu bars** (`ConstrutorMenuAplicacao.js`). Button ids, texts and click details.
- **The menu script** (`ui_menu.js`) and the four menu listeners. These form a state machine over which menu is on screen.

Each file's own entities stay as they are:

- A widget whose fields the source updates in place is a `class`, and its methods carry `modifies` clauses.
- Pure decisions and computations are functions. Lemmas relate them to independent definitions of what the source promises.
- The DOM is modelled only as far as the core reads or writes it. That covers element existence, `display`, `disabled`, option lists and button maps.
- A missing element whose property is written makes the JavaScript throw a TypeError. Where the model tracks that element, it returns the throw as a `false` or `Err` result. The page elements it does not track are listed under "Left out".
- Browser services become parameters or recorded calls: `confirm`, `Math.sqrt`, `parseFloat`'s prefix parser and the handlers' application functions.

Module `JsCommon` holds the JavaScript semantics shared by every file:

- truthiness and property lookup;
- `trim` over JavaScript whitespace;
- ASCII case mapping;
- `indexOf`, `[...new Set(s)]` and numeric sort.

## Model

| member | source | states |
|---|---|---|
| Tabelas.RecusadaSseNaoAceita | General_Classes/ConstrutorDeTabelas.js:103-113 | the loop's rejection test (a code-less string whose trim is empty, or a non-string) rejects exactly the directives that are neither null nor a non-blank string |
| Tabelas.CodigoNaoBranco | General_Classes/ConstrutorDeTabelas.js:103-107 | every statistic code is a non-blank string, so the `tiposPermitidos.includes` half of the test never rejects one |
| Tabelas.PrimeiraRecusada | General_Classes/ConstrutorDeTabelas.js:104-113 | the loop stops at the first rejected directive: None exactly when all are accepted, otherwise an index whose directive is rejected and all earlier ones accepted |
| Tabelas.ValidarPropriedades | General_Classes/ConstrutorDeTabelas.js:67-115 | accepted exactly when the schema is valid; each error holds exactly when its check is the first to fail (empty header, width count, non-numeric width, alignment count, alignment outside E/C/D, format count, non-array directives, directive count, the first rejected directive); format values are never inspected |
| Tabelas.AlinhamentoCSS | General_Classes/ConstrutorDeTabelas.js:196-203 | the result is left, center or right; center exactly for C, right exactly for D, left for any other code |
| Tabelas.FormatarCelula | General_Classes/ConstrutorDeTabelas.js:208-233 | empty exactly for null or undefined; a locale-formatted value exactly for M, % and D; for 'T' and other formats the string itself or the number's text |
| Tabelas.ValoresColuna | General_Classes/ConstrutorDeTabelas.js:270-273 | one value per row, the parsed cell or 0 when parsing gives NaN |
| Tabelas.CelulaRodape | General_Classes/ConstrutorDeTabelas.js:263-359 | a null directive gives a blank cell, a non-code string the string itself, a code the formatted statistic of the column's coerced values |
| Tabelas.TotalMediaContagem | General_Classes/ConstrutorDeTabelas.js:276-285 | Cnt is the row count and Med is Tot divided by the row count |
| Tabelas.OpcoesEstados | General_Classes/ConstrutorDeTabelas.js:155-162 | the first select gets the placeholder then one option per state, in order |
| Tabelas.EstadosTemCidades | General_Classes/ConstrutorDeTabelas.js:448-459 | every state offered in the first select has a city list |
| Tabelas.PedidoCidades | General_Classes/ConstrutorDeTabelas.js:444-474 | nothing is sent exactly when the state is empty or there is no select object; otherwise the placeholder '', then 'Todas', then the state's cities in order |
| Tabelas.EstadoDesconhecido | General_Classes/ConstrutorDeTabelas.js:461-468 | an unknown non-empty state gets only the two sentinel options |
| Tabelas.DaCidade | General_Classes/ConstrutorDeTabelas.js:487-507 | an entry of the mock student map: its city key and one record per student with that city and state |
| Tabelas.Montar | General_Classes/ConstrutorDeTabelas.js:487-507 | the mock map is built entry by entry, in key order |
| Tabelas.DadosPorCidade | General_Classes/ConstrutorDeTabelas.js:479-484 | an empty city or state shows no rows |
| Tabelas.DadosCoerentes | General_Classes/ConstrutorDeTabelas.js:487-507 | every mock list holds students of one state, filed under their own city |
| Tabelas.MontarCoerente | General_Classes/ConstrutorDeTabelas.js:487-507 | any map built entry by entry is coherent and has no lower-case `nome` key |
| Tabelas.ListasDoEstadoSoDoEstado | General_Classes/ConstrutorDeTabelas.js:511-518 | over coherent lists, every row the 'Todas' branch gathers is from the selected state |
| Tabelas.ListaDaCidadeSoDaCidade | General_Classes/ConstrutorDeTabelas.js:519-522 | over coherent lists, every row of a named city is from that city |
| Tabelas.DadosPorCidadeFiltram | General_Classes/ConstrutorDeTabelas.js:479-525 | with 'Todas' every row shown is from the selected state; with a named city every row is from that city |
| Tabelas.CidadeIgnoraEstado | General_Classes/ConstrutorDeTabelas.js:519-522 | a named city shows the same rows whatever non-empty state is selected |
| Tabelas.TodasDeSaoPaulo | General_Classes/ConstrutorDeTabelas.js:487-518 | 'Todas' for SP gathers six students and for RS none |
| Tabelas.ContagemDasListas | General_Classes/ConstrutorDeTabelas.js:511-518 | the 'Todas' branch gathers exactly as many rows as the non-empty entries of that state hold |
| Tabelas.Renomeada | General_Classes/ConstrutorDeTabelas.js:177-182 | a renamed record has exactly the keys Nome, Estado, Cidade, Curso, holding nome, estado, cidade, curso |
| Tabelas.Normalizar | General_Classes/ConstrutorDeTabelas.js:171-185 | as many rows as given; when the first row has a truthy `nome` every row is renamed, otherwise the rows are unchanged |
| Tabelas.NormalizarIdempotente | General_Classes/ConstrutorDeTabelas.js:176-183 | renaming twice is renaming once |
| Tabelas.DadosPorCidadeJaNormalizados | General_Classes/ConstrutorDeTabelas.js:487-525 | the mock rows pass through `popularTabela` unchanged |
| Tabelas.TodosSemNome | General_Classes/ConstrutorDeTabelas.js:487-525 | no row the cascade shows has a lower-case `nome` key |
| Tabelas.Truncar | General_Classes/ConstrutorDeTabelas.js:563-565 | never longer than 150; a message of at most 150 is unchanged; a longer one is its first 147 characters followed by '...' |
| Tabelas.TruncarIdempotente | General_Classes/ConstrutorDeTabelas.js:563-565 | truncating a truncated message changes nothing |
| Tabelas.CoresDoTipo | General_Classes/ConstrutorDeTabelas.js:567-575 | an unknown type takes the info colours |
| Tabelas.CoresDistintas | General_Classes/ConstrutorDeTabelas.js:568-573 | the four message types have four different colour schemes |
| Tabelas.PosicaoDaCelula | General_Classes/ConstrutorDeTabelas.js:377-378 | the k-th editable cell stands for row k div n and column k mod n, with the column below n |
| Tabelas.PosicaoDaCelulaBijetiva | General_Classes/ConstrutorDeTabelas.js:374-379 | every (row, column) pair is addressed by exactly one editable cell |
| Tabelas.Tabela.Criar | General_Classes/ConstrutorDeTabelas.js:24-115 | the button bar is built, and may throw, before the schema is checked; construction succeeds exactly when both pass; a new table has no rows and an unmapped button bar |
| Tabelas.Tabela.ConfigurarBotoesRodape | General_Classes/ConstrutorDeTabelas.js:533-546 | as written: the bar's HTML goes into the footer and no button is mapped |
| Tabelas.Tabela.ConfigurarBotoesRodapeMapeando | General_Classes/ConstrutorDeTabelas.js:533-546 | corrected: the bar is inserted with `inserirEm`, so every generated button is mapped and enabled |
| Tabelas.Tabela.SetDados | General_Classes/ConstrutorDeTabelas.js:120-132 | the rows are replaced and nothing else changes |
| Tabelas.Tabela.PopularTabela | General_Classes/ConstrutorDeTabelas.js:171-191 | the rows become the renamed input and nothing else changes |
| Tabelas.Tabela.PopularTabelaPorCidade | General_Classes/ConstrutorDeTabelas.js:479-528 | the rows become the cascade's selection for that city and state |
| Tabelas.Tabela.AoAlterarSelect | General_Classes/ConstrutorDeTabelas.js:425-435 | 'estado' requests the city options and keeps the rows; 'cidade' repopulates the table; any other field does nothing |
| Tabelas.Tabela.GerarLinhaResultados | General_Classes/ConstrutorDeTabelas.js:239-365 | empty exactly when there are no directives, no rows or only null directives; otherwise one cell per column, in column order, each the column's footer cell |
| Tabelas.Tabela.CelulasDoRodape | General_Classes/ConstrutorDeTabelas.js:257-362 | the forEach yields one footer cell per directive, in order |
| Tabelas.Tabela.EditarCelula | General_Classes/ConstrutorDeTabelas.js:375-384 | the blur of cell k writes its text into row k div n under header k mod n when that row exists; otherwise the rows are unchanged |
| Tabelas.Tabela.ExibirMensagem | General_Classes/ConstrutorDeTabelas.js:557-583 | when the form holds the message area, it shows the truncated message in the type's colours; without it nothing changes; rows unchanged |
| Tabelas.Tabela.OcultarMensagem | General_Classes/ConstrutorDeTabelas.js:588-596 | when the form holds the message area, it is hidden and emptied; without it nothing changes; rows unchanged |
| Estatisticas.CodigoCalculo | General_Classes/ConstrutorDeTabelas.js:253-268 | a string names a statistic exactly when it is one of the twelve codes |
| Estatisticas.CodigoDoNome | General_Classes/ConstrutorDeTabelas.js:253 | each code is recognised as its own statistic |
| Estatisticas.Soma | General_Classes/ConstrutorDeTabelas.js:276-278 | Tot: 0 for no values and the value itself for one |
| Estatisticas.SomaPelaCabeca | General_Classes/ConstrutorDeTabelas.js:277 | the left fold totals the same as the first value plus the sum of the rest |
| Estatisticas.Media | General_Classes/ConstrutorDeTabelas.js:279-282 | Med: 0 for no rows, otherwise the value that the row count multiplies back to the total |
| Estatisticas.Variancia | General_Classes/ConstrutorDeTabelas.js:301-309 | Var: 0 for at most one value, otherwise the value that n-1 multiplies back to the sum of squared deviations from the mean |
| Estatisticas.Mediana | General_Classes/ConstrutorDeTabelas.js:310-318 | MDn lies between Min and Max, and for an odd count is one of the values |
| Estatisticas.Quartil1 | General_Classes/ConstrutorDeTabelas.js:319-323 | Q1: 0 for no values, otherwise one of the values, between Min and Max |
| Estatisticas.Quartil3 | General_Classes/ConstrutorDeTabelas.js:324-328 | Q3: 0 for no values, otherwise one of the values, between Min and Max |
| Estatisticas.Amplitude | General_Classes/ConstrutorDeTabelas.js:343-351 | Amp: 0 for no values, and no difference between two values exceeds it |
| Estatisticas.Estatistica | General_Classes/ConstrutorDeTabelas.js:275-352 | over a non-empty column: Cnt is the row count, every location statistic (Med, Max, Min, MDn, Q1, Q3) lies between Min and Max, and Var and Amp are never negative |
| Estatisticas.Maximo | General_Classes/ConstrutorDeTabelas.js:286-288 | Max is one of the values and at least every value |
| Estatisticas.Minimo | General_Classes/ConstrutorDeTabelas.js:289-291 | Min is one of the values and at most every value |
| Estatisticas.DesvioPadrao | General_Classes/ConstrutorDeTabelas.js:292-300 | DPad is 0 for at most one value, otherwise the square root of the variance |
| Estatisticas.CoefVariacao | General_Classes/ConstrutorDeTabelas.js:329-342 | CV is 0 for at most one value or a zero mean, otherwise the deviation over the mean times 100 |
| Estatisticas.Inserir | General_Classes/ConstrutorDeTabelas.js:311 | inserting adds exactly one occurrence of the value |
| Estatisticas.InserirCrescente | General_Classes/ConstrutorDeTabelas.js:311 | inserting into an ascending list keeps it ascending |
| Estatisticas.Ordenar | General_Classes/ConstrutorDeTabelas.js:311-327 | the numeric sort gives an ascending permutation of the values |
| Estatisticas.MediaEntreExtremos | General_Classes/ConstrutorDeTabelas.js:279-291 | Med lies between Min and Max |
| Estatisticas.VarianciaNaoNegativa | General_Classes/ConstrutorDeTabelas.js:301-309 | Var is never negative |
| Estatisticas.OrdenadoEntreExtremos | General_Classes/ConstrutorDeTabelas.js:286-311 | the sorted values start at Min, end at Max, and lie between them |
| Estatisticas.OrdemDosQuartis | General_Classes/ConstrutorDeTabelas.js:310-328 | both quartile indices are in range for n >= 1, and Min <= Q1 <= MDn <= Q3 <= Max |
| Estatisticas.MedianaEntreQuartis | General_Classes/ConstrutorDeTabelas.js:310-328 | MDn lies between Q1 and Q3 |
| Estatisticas.IndicesDosQuartis | General_Classes/ConstrutorDeTabelas.js:312-326 | n div 4 and (3n) div 4 are valid indices, ordered around the median's index |
| Estatisticas.AmplitudeNaoNegativa | General_Classes/ConstrutorDeTabelas.js:343-351 | Amp is never negative, and is the last sorted value minus the first |
| Estatisticas.ColunaConstante | General_Classes/ConstrutorDeTabelas.js:276-351 | on a constant column every location statistic is that constant and Var and Amp are 0 |
| UiTabelas.Presentes | ui_tabelas.js:180-181 | the kept entries are exactly those whose value is neither '' nor null, in their order |
| UiTabelas.PresentesConcatena | ui_tabelas.js:180-181 | the filter distributes over concatenation, so it keeps the entries' order |
| UiTabelas.Clausula | ui_tabelas.js:182 | a clause is the field, then ` = '`, then the value unescaped, then `'` |
| UiTabelas.Juntar | ui_tabelas.js:184 | joining no clauses gives '' and one clause gives that clause |
| UiTabelas.ValoresDoJuntar | ui_tabelas.js:184 | two clauses are joined with the separator between them |
| UiTabelas.Clausulas | ui_tabelas.js:180-182 | one clause per kept entry, in order |
| UiTabelas.MontarWhere | ui_tabelas.js:176-186 | the WHERE part is empty exactly when the filters are not an object or no entry is kept; otherwise ' WHERE ' and the clauses joined by ' AND ' |
| UiTabelas.WhereUmaClausula | ui_tabelas.js:180-185 | empty and null values yield no clause |
| UiTabelas.WhereDuasClausulas | ui_tabelas.js:180-185 | two present values yield two clauses joined by ' AND ' |
| UiTabelas.ExemploWhereVazio | ui_tabelas.js:177-186 | filters given as an array, or with only empty values, give no WHERE |
| UiTabelas.WhereSemEscape | ui_tabelas.js:182-184 | the value is inserted between quotes with no escaping |
| UiTabelas.Em | ui_tabelas.js:199 | `opt[k]` is defined exactly for an index in range, and is then that element |
| UiTabelas.PopularSelectTabela | ui_tabelas.js:175-204 | the table branch is taken exactly when `indice === opt.length-1`, otherwise the select `opt[indice+1]` is asked, never both; the SQL is the base (or 'undefined') plus the WHERE part; each branch calls its method exactly when the object has it |
| UiTabelas.CasoDoCampo | ui_tabelas.js:133-150 | the switch takes the first of `opt[k..4]` equal to the field, or none |
| UiTabelas.Rotear | ui_tabelas.js:133-154 | a field equal to `opt[0]` or else `opt[1]` goes to the temporary cascade with index 0 or 1; `opt[2..4]` go to the generic builder with an undefined base; an unmatched field goes to the generic builder with index 0 and `sqlFiltro[0]` |
| UiTabelas.FiltrarEstudantes | ui_tabelas.js:253-258 | the result is no longer than the list |
| UiTabelas.FiltrarSelecionaAtendentes | ui_tabelas.js:253-258 | every student kept meets both conditions and comes from the list, and every student of the list that meets them is kept |
| UiTabelas.FiltrarSoAtendentes | ui_tabelas.js:254-257 | every student kept meets both conditions and comes from the list |
| UiTabelas.FiltrarTodosAtendentes | ui_tabelas.js:254-257 | every student that meets both conditions is kept |
| UiTabelas.FiltrarConcatena | ui_tabelas.js:254-257 | filtering distributes over concatenation, so the kept students stay in list order |
| UiTabelas.FiltrarSemRestricao | ui_tabelas.js:255-256 | a falsy state and a falsy city keep the whole list |
| UiTabelas.FiltrarCompoe | ui_tabelas.js:254-257 | filtering by state and city is filtering by state, then by city |
| UiTabelas.DoEstado | ui_tabelas.js:249 | the students of a state, all of them, each from the list |
| UiTabelas.Estados | ui_tabelas.js:245 | the states, each once, exactly those some student has |
| UiTabelas.CidadesPorEstado | ui_tabelas.js:248-250 | the cities, each once, exactly those of some student of that state |
| UiTabelas.EstadosEmOrdem | ui_tabelas.js:245 | the states come in order of first appearance |
| UiTabelas.CidadesEmOrdem | ui_tabelas.js:248-250 | a state's cities come in order of first appearance |
| UiTabelas.ComoLinha | ui_tabelas.js:211-242 | a student record holds its nome, estado, cidade and curso under lower-case keys |
| UiTabelas.Ler | ui_tabelas.js:264-291 | reading `filtros[opt[k]]` throws exactly when the filters are null; from a non-object it gives undefined |
| UiTabelas.ParaFiltro | ui_tabelas.js:290-299 | an empty or missing value becomes null and constrains nothing; a present value is kept |
| UiTabelas.OpcoesCidades | ui_tabelas.js:270-271 | the city options are the sentinel ('' labelled 'Todas') followed by the state's distinct cities in order |
| UiTabelas.OpcoesRotuladas | ui_tabelas.js:271 | the leading options, then one option per city with itself as value and text |
| UiTabelas.PopularSelectTabelaTemp | ui_tabelas.js:261-308 | index 0 with a state fills the city select (or warns without one), without a state clears it; index 1 filters with empty values mapped to null and populates the table (or warns); other indices do nothing; null filters throw |
| UiTabelas.EstudantesComNome | ui_tabelas.js:211-242 | every mock student has a name, so `popularTabela` renames the rows |
| UiTabelas.RenomeadaComoLinha | ui_tabelas.js:303 | renaming a student record gives its capitalised record |
| UiTabelas.LinhasDaCidadeRenomeadas | ui_tabelas.js:288-306 | the table shows one capitalised row per student the filter keeps, in order |
| UiTabelas.HandlerSelectsCascata | ui_tabelas.js:104-155 | the temporary cascade runs exactly for the first two fields; otherwise the generic builder runs with the route's base and index, on an object with no `popularSelect`, leaving the rows unchanged; at the last index with a table object, the SQL text reaches `setDados`, which throws |
| UiTabelas.GenericoNuncaPopulaSelect | ui_tabelas.js:143-202 | the generic route never populates a select: below the last index it only logs |
| UiTabelas.SqlIndefinida | ui_tabelas.js:143-150 | for `opt[2..4]` the SQL starts with 'undefined', since `sqlFiltro` has one entry |
| UiTabelas.Habilitar | General_Classes/ConstrutorDeBotoes.js:362-370 | `habilitarBotao` sets a mapped button's disabled flag to the negation and leaves an unknown id unchanged |
| UiTabelas.ModoEdicao | ui_tabelas.js:358-389 | entering edit mode enables salvar and disables editar and incluir; leaving it does the reverse; other buttons are untouched |
| UiTabelas.ModoEdicaoUltimoVence | ui_tabelas.js:358-389 | the last mode switch decides the three buttons |
| UiTabelas.ModoEdicaoSemBotoes | ui_tabelas.js:362-388 | with no mapped button the switch changes nothing |
| UiTabelas.HandlerBotoesCrud | ui_tabelas.js:325-400 | 'editar' and 'incluir' enter edit mode, 'salvar' leaves it, every other action leaves the buttons unchanged |
| UiTabelas.CriarTabelaExemplo | ui_tabelas.js:22-45 | the example table gets a bar for ['S', 'N', 'S'] with no button mapped |
| UiTabelas.EditarNaTabelaComoEscrita | ui_tabelas.js:358-367 | as written: after 'editar' the edit button is still not found, so nothing was disabled |
| UiTabelas.EditarNaTabelaMapeada | ui_tabelas.js:358-367 | corrected: with the bar inserted by `inserirEm`, 'editar' disables editar and enables salvar |
| BarraPesquisa.Direcao | General_Classes/ConstrutorDeBarraDePesquisa.js:50-50 | the bar is a column exactly for "vertical" and a row for every other orientation |
| BarraPesquisa.UltimoIndice | General_Classes/ConstrutorDeBarraDePesquisa.js:67-76 | the select stored under a name is the one created for its last occurrence in the list: that position holds the name and no later one does |
| BarraPesquisa.UltimoIndiceSemDuplicatas | General_Classes/ConstrutorDeBarraDePesquisa.js:67-76 | with distinct names every select keeps its own position |
| BarraPesquisa.ComboInicial | General_Classes/ConstrutorDeBarraDePesquisa.js:68-72 | a new select is empty, has no value, records its position and is disabled exactly when it is not the first |
| BarraPesquisa.ComboLimpa | General_Classes/ConstrutorDeBarraDePesquisa.js:120-122 | a cleared select has no options, no value and is disabled, keeping its position |
| BarraPesquisa.OpcoesCombox | General_Classes/ConstrutorDeBarraDePesquisa.js:98-110 | one option per value, value and text alike, in order, behind a "Todas" option with empty value exactly when requested |
| BarraPesquisa.ValorSelecionado | General_Classes/ConstrutorDeBarraDePesquisa.js:98-110 | a select shows its first option's value, or the empty string when it has none |
| BarraPesquisa.Filtro | General_Classes/ConstrutorDeBarraDePesquisa.js:142-144 | the values of the first q selects in list order (all of them when q exceeds the list) |
| BarraPesquisa.FiltroPrefixo | General_Classes/ConstrutorDeBarraDePesquisa.js:142-144 | a shorter filter is a prefix of a longer one |
| BarraPesquisa.BarraDePesquisa.constructor | General_Classes/ConstrutorDeBarraDePesquisa.js:24-33 | keeps the names and orientation, with no selects, no button and no event yet |
| BarraPesquisa.BarraDePesquisa.Renderizar | General_Classes/ConstrutorDeBarraDePesquisa.js:35-87 | without a container nothing changes; otherwise one fresh select per name (only the first enabled), a disabled Executar button and one PreencherPrimeiraCombox event; other stored selects are kept |
| BarraPesquisa.BarraDePesquisa.PopularCombox | General_Classes/ConstrutorDeBarraDePesquisa.js:95-112 | an unknown name changes nothing; a known select gets exactly the options built from the data and is enabled; nothing else changes |
| BarraPesquisa.BarraDePesquisa.MontarOpcoes | General_Classes/ConstrutorDeBarraDePesquisa.js:98-110 | the option-building loop produces exactly the option list of the data |
| BarraPesquisa.BarraDePesquisa.OnComboChange | General_Classes/ConstrutorDeBarraDePesquisa.js:115-139 | every later select is cleared and disabled and the others kept; with a next select one PreencherCombox event names it with the filter of the first idx+1 values; after the last select the Executar button is enabled and no event fires |
| BarraPesquisa.BarraDePesquisa.LimparSeguintes | General_Classes/ConstrutorDeBarraDePesquisa.js:119-123 | exactly the selects named after position idx are cleared; the button and the events are untouched |
| BarraPesquisa.BarraDePesquisa.AnterioresIntactos | General_Classes/ConstrutorDeBarraDePesquisa.js:119-123 | with distinct names the clearing loop leaves the selects up to idx as they were |
| BarraPesquisa.BarraDePesquisa.Escolher | General_Classes/ConstrutorDeBarraDePesquisa.js:73-73 | a choice is accepted exactly when the select exists, is enabled and offers the value; a refused choice, or choosing the value already selected, fires no `change` and changes nothing; otherwise the select takes the value and its `change` listener runs `_onComboChange` for its position: the later selects are cleared, then either the next one is requested with the filter up to it or Executar is enabled |
| BarraPesquisa.BarraDePesquisa.OnExecutar | General_Classes/ConstrutorDeBarraDePesquisa.js:147-154 | fires one ExecutarPesquisa event carrying the values of all selects, one per name, and changes nothing else |
| Botoes.ValidarParametros | General_Classes/ConstrutorDeBotoes.js:62-71 | the length error exactly when the argument is not an array of three; the element error exactly when it is one with an element other than the strings S and N; otherwise the three strings themselves |
| Botoes.GruposAtivos | General_Classes/ConstrutorDeBotoes.js:79-86 | `grupoK` is listed exactly when position K-1 is S, each at most once, and nothing else is listed |
| Botoes.GrupoDoBotao | General_Classes/ConstrutorDeBotoes.js:204-215 | a group is found exactly for the nine known button ids, and it is the group whose markup holds that id |
| Botoes.AcaoDoBotao | General_Classes/ConstrutorDeBotoes.js:302-304 | a button's `data-acao` is its id without the `btn_` prefix |
| Botoes.GerarHTML | General_Classes/ConstrutorDeBotoes.js:92-110 | each group is generated exactly when its flag is S, once, CRUD before navigation before Encerrar |
| Botoes.IdGeradoSseGrupoAtivo | General_Classes/ConstrutorDeBotoes.js:92-110 | a button id is in the generated markup exactly when one of the generated groups holds it |
| Botoes.CriarBotoes.constructor | General_Classes/ConstrutorDeBotoes.js:32-51 | keeps the validated flags with an empty element cache |
| Botoes.CriarBotoes.Criar | General_Classes/ConstrutorDeBotoes.js:32-35 | `new CriarBotoes(arg)` throws the validation error when validation fails, and otherwise yields a fresh instance with those flags and an empty cache |
| Botoes.CriarBotoes.InserirEm | General_Classes/ConstrutorDeBotoes.js:179-199 | a missing container id or a non-element container is an error that changes nothing; otherwise the cache gains every generated button, enabled, and keeps all other entries |
| Botoes.CriarBotoes.Mapear | General_Classes/ConstrutorDeBotoes.js:204-215 | the loop over the known ids adds exactly the known ids found in the document, enabled, and keeps the other entries |
| Botoes.CriarBotoes.ObterElementoBotao | General_Classes/ConstrutorDeBotoes.js:352-354 | an element exactly for a cached id, that element's disabled state |
| Botoes.CriarBotoes.HabilitarBotao | General_Classes/ConstrutorDeBotoes.js:362-370 | true exactly for a cached id, whose disabled flag becomes the negation of `habilitado`; nothing else changes |
| Botoes.CriarBotoes.Clicar | General_Classes/ConstrutorDeBotoes.js:229-345 | a click fires `botao-clicado` exactly on a cached, enabled button, carrying its id, its action and its group's name |
| Forms.Coordenadas | General_Classes/ConstrutorDeForms.js:102-110 | positions that pass the coordinate check read as their row and column, one per field |
| Forms.LinhasUnicas | General_Classes/ConstrutorDeForms.js:123-123 | `[...new Set(linhas)].sort`: strictly increasing, holding exactly the rows in use |
| Forms.LinhasOkSse | General_Classes/ConstrutorDeForms.js:121-129 | the computed `linhasOk` holds exactly when no row is negative and every row from 0 to the largest is used |
| Forms.SequenciaisPassam | General_Classes/ConstrutorDeForms.js:121-129 | rows 0..max with none missing pass the computed row check |
| Forms.OkSaoSequenciais | General_Classes/ConstrutorDeForms.js:121-129 | rows that pass the computed row check are 0..max with none missing |
| Forms.UnicasDeCobertura | General_Classes/ConstrutorDeForms.js:123-126 | the sorted distinct rows of a list covering 0..m, m its maximum, are exactly 0, 1, ..., m |
| Forms.ColunasDaLinha | General_Classes/ConstrutorDeForms.js:133-133 | a column is listed for row l exactly when some field sits at that row and column |
| Forms.MaxColuna | General_Classes/ConstrutorDeForms.js:134-134 | the largest column of the row, itself one of its columns |
| Forms.PrimeiraColunaAusente | General_Classes/ConstrutorDeForms.js:135-139 | the loop finds nothing exactly when every column in the range is present; otherwise the first one missing |
| Forms.FaltaNaLinha | General_Classes/ConstrutorDeForms.js:132-140 | nothing exactly when row l holds every column from 0 to its largest; otherwise the first missing column |
| Forms.ColunasOkSse | General_Classes/ConstrutorDeForms.js:132-140 | checking each distinct row once is the same as checking every field's row |
| Forms.ValidarGrade | General_Classes/ConstrutorDeForms.js:119-140 | no error exactly when rows and columns are both sequential; a row error carries the distinct rows found, a column error names a used row and a missing column of it, and only arises once the rows pass |
| Forms.Validacao | General_Classes/ConstrutorDeForms.js:85-143 | success (true) exactly when every check passes; the length error exactly when a list's length differs; each later error names an offending entry and arises only after every earlier check has passed (a position error only once the lengths and formats pass, an alignment error only once the positions pass too); the grid errors are those of the row and column checks |
| Forms.Grupo | General_Classes/ConstrutorDeForms.js:161-166 | the group of row l after n fields holds only indices below n |
| Forms.GrupoContem | General_Classes/ConstrutorDeForms.js:161-166 | the group of row l holds, increasing, exactly the fields below n in row l |
| Forms.InserirPorColuna | General_Classes/ConstrutorDeForms.js:178-178 | one insertion step of the sort adds exactly the field, as a multiset |
| Forms.InserirPorColunaEmOrdem | General_Classes/ConstrutorDeForms.js:178-178 | inserting a same-row field of lower index keeps the (column, index) order |
| Forms.OrdenarPorColuna | General_Classes/ConstrutorDeForms.js:178-178 | the sort by column is a permutation of the row's fields |
| Forms.OrdenarPorColunaEmOrdem | General_Classes/ConstrutorDeForms.js:178-178 | sorting a row's fields listed by index orders them by column, equal columns by index, as the stable sort does |
| Forms.Agrupar | General_Classes/ConstrutorDeForms.js:161-166 | the grouping loop creates an entry exactly for the used rows, each holding that row's fields in index order |
| Forms.GrupoNaoVazioSse | General_Classes/ConstrutorDeForms.js:161-166 | a row has a non-empty group exactly when some field uses it |
| Forms.PassoEmissao | General_Classes/ConstrutorDeForms.js:169-184 | appending the next row's sorted container keeps the emitted fields ordered and complete up to that row |
| Forms.Posicionar | General_Classes/ConstrutorDeForms.js:148-185 | one container per used row in ascending row order; the fields appear by row, then column, then index; every field appears exactly once |
| Forms.Concluir | General_Classes/ConstrutorDeForms.js:169-184 | after the last row every field has been emitted, once each, in placement order |
| Forms.EmOrdemSemDuplicados | General_Classes/ConstrutorDeForms.js:169-184 | a placement in strict order repeats no field |
| Forms.ControleDoTipo | General_Classes/ConstrutorDeForms.js:214-242 | with a 'combo' left as a `<select>` (the corrected field creation of the Findings row): no queryable control exactly for 'radio'; a checkbox exactly for 'checkbox'; a select exactly for 'combo'; every other type an empty, unchecked, enabled control named after the field |
| Forms.UltimoCampoVence | General_Classes/ConstrutorDeForms.js:491-515 | a key written by some field is collected with the value of the last field writing it |
| Forms.ChaveSemCampo | General_Classes/ConstrutorDeForms.js:491-515 | a key no field writes is absent from the collected object |
| Forms.Mesclar | General_Classes/ConstrutorDeForms.js:507-510 | the keys of both; the select values override field values of the same name; other field values kept |
| Forms.Limpo | General_Classes/ConstrutorDeForms.js:455-466 | checkboxes and radios are unchecked, other controls emptied, a field without a control untouched |
| Forms.DadosDeCamposLimpos | General_Classes/ConstrutorDeForms.js:455-515 | after clearing every collected field value is false or the empty string |
| Forms.LimpoIdempotente | General_Classes/ConstrutorDeForms.js:455-466 | clearing twice is clearing once |
| Forms.Habilitado | General_Classes/ConstrutorDeForms.js:468-475 | a control is disabled exactly when h is false; a field without one is untouched |
| Forms.DadosIgnoramHabilitacao | General_Classes/ConstrutorDeForms.js:468-515 | enabling or disabling the fields leaves the collected values unchanged |
| Forms.BotoesDosEventos | General_Classes/ConstrutorDeForms.js:302-338 | every id the binding looks up belongs to a generated group |
| Forms.FormComum.constructor | General_Classes/ConstrutorDeForms.js:45-79 | for a form with no 'combo' field, the rendered state: fields placed row by row, the button bar written as markup only, no button bound |
| Forms.FormComum.Criar | General_Classes/ConstrutorDeForms.js:45-79 | a validation failure is that error; after it, the first 'combo' field throws on its `type` assignment; success exactly when validation passes, no field is a 'combo' and the button flags (default S,N,S) pass; then a fresh rendered form with no button bound |
| Forms.FormComum.ConfigurarEventosBotoes | General_Classes/ConstrutorDeForms.js:302-338 | a listener is bound exactly to each looked-up id whose element is mapped; with no mapped button none is bound |
| Forms.FormComum.Ligaveis | General_Classes/ConstrutorDeForms.js:302-338 | the looked-up ids whose element is found, and none when nothing is mapped |
| Forms.FormComum.ConfigurarBotoesMapeando | General_Classes/ConstrutorDeForms.js:256-338 | with the bar inserted through `inserirEm`, every button of an active group gets its listener |
| Forms.FormComum.ObterDadosFormulario | General_Classes/ConstrutorDeForms.js:491-515 | the field values with the select values merged over them |
| Forms.FormComum.LimparCampos | General_Classes/ConstrutorDeForms.js:455-466 | every field is cleared in place; nothing else changes |
| Forms.FormComum.HabilitarCampos | General_Classes/ConstrutorDeForms.js:468-475 | every control's disabled flag becomes the negation of h; nothing else changes |
| Forms.FormComum.Disparar | General_Classes/ConstrutorDeForms.js:429-452 | one 'formulario-acao' event with the action and the collected data when the global footer exists, none otherwise |
| Forms.FormComum.OnNovo | General_Classes/ConstrutorDeForms.js:388-396 | dispatches 'novo' with the values before clearing, then clears every field |
| Forms.FormComum.OnEditar | General_Classes/ConstrutorDeForms.js:398-406 | dispatches 'editar', then enables every field |
| Forms.FormComum.OnSalvar | General_Classes/ConstrutorDeForms.js:415-423 | dispatches 'salvar' with the collected data, since `validarEDados` accepts every form |
| Forms.FormComum.OnEncerrar | General_Classes/ConstrutorDeForms.js:341-358 | dispatches 'encerrar', then hides the form, fields untouched |
| Forms.FormComum.AdicionarCampo | General_Classes/ConstrutorDeForms.js:521-523 | appends the field; nothing else changes |
| FormsOld.Validacao | General_Classes/ConstrutorDeForms_Old.js:119-173 | accepted (true) exactly when the length, format, position and alignment checks pass; their failures are the current form's errors; no row or column error is ever raised, since `return true` comes before those checks |
| FormsOld.ValidacaoLegadaAceitaMais | General_Classes/ConstrutorDeForms_Old.js:119-173 | the legacy check accepts everything the current one does, and more exactly the layouts that pass the basic checks but fail the grid checks |
| FormsOld.LinhasForaDeSequenciaAceitas | General_Classes/ConstrutorDeForms_Old.js:150-161 | rows not sequential from 0 are accepted by the legacy check and rejected with the rows found by the current one |
| FormsOld.LinhaUmForaDeSequencia | General_Classes/ConstrutorDeForms_Old.js:150-161 | a single field at row 1 is such a layout |
| FormsOld.CriarFormModal | General_Classes/ConstrutorDeForms_Old.js:393-398 | with seven arguments `largCampos` defaults to the empty list, so any non-empty form fails the length check and only an empty one is built |
| FormsOld.MaximoDe | General_Classes/ConstrutorDeForms_Old.js:195-196 | `Math.max` of no values is -Infinity; otherwise the largest value, itself present |
| FormsOld.Unicos | General_Classes/ConstrutorDeForms_Old.js:193-194 | strictly increasing, holding exactly the values present |
| FormsOld.IdentidadeSse | General_Classes/ConstrutorDeForms_Old.js:201-201 | the sorted distinct values are 0, 1, 2, ... exactly when no value is negative and every value up to the largest occurs |
| FormsOld.UmUnicoSse | General_Classes/ConstrutorDeForms_Old.js:199-214 | one distinct value exactly when there is a value and all are equal |
| FormsOld.Colunas | General_Classes/ConstrutorDeForms_Old.js:192-192 | the column of each field, in order |
| FormsOld.UmaColunaSse | General_Classes/ConstrutorDeForms_Old.js:199-199 | a single distinct column exactly when there are fields and all share a column |
| FormsOld.UmaLinhaSse | General_Classes/ConstrutorDeForms_Old.js:214-214 | a single distinct row exactly when there are fields and all share a row |
| FormsOld.LinhasIdentidadeSse | General_Classes/ConstrutorDeForms_Old.js:201-201 | the `every` test on the distinct rows is exactly row sequentiality |
| FormsOld.FaltantesNaLinhaSse | General_Classes/ConstrutorDeForms_Old.js:241-245 | the inner loop lists exactly the absent positions of row l between the bounds, in column order |
| FormsOld.FaltantesSse | General_Classes/ConstrutorDeForms_Old.js:238-246 | a position is listed exactly when it is absent from a listed row, at or below that row's largest column |
| FormsOld.FaltantesEmOrdem | General_Classes/ConstrutorDeForms_Old.js:238-246 | over ascending rows the missing positions come out in row, then column order |
| FormsOld.SemFaltantesSse | General_Classes/ConstrutorDeForms_Old.js:238-257 | nothing is missing exactly when the columns of every row are sequential from 0 |
| FormsOld.ValidarPosOld | General_Classes/ConstrutorDeForms_Old.js:185-188 | throws exactly when the form has no `#mainConteudo` |
| FormsOld.Ramos | General_Classes/ConstrutorDeForms_Old.js:199-266 | the single-column branch exactly when one distinct column and identity rows; the single-row branch exactly when not that, one distinct row and identity columns; the flexible grid exactly when neither, rows ok and nothing missing; the grid error exactly when something is missing, carrying the list; each result's counts are those returned |
| FormsOld.IdentidadeMaximo | General_Classes/ConstrutorDeForms_Old.js:195-211 | with distinct values 0..k-1 the largest is k-1 |
| FormsOld.ColunaSse | General_Classes/ConstrutorDeForms_Old.js:199-211 | a column layout exactly when all fields share one column and the rows are sequential; then max row + 1 rows and one column |
| FormsOld.LinhaSse | General_Classes/ConstrutorDeForms_Old.js:213-226 | a row layout exactly when not a single column, all fields share one row, and the columns are sequential; then one row and max column + 1 columns |
| FormsOld.GridFlexSse | General_Classes/ConstrutorDeForms_Old.js:228-266 | a flexible grid exactly when neither single column nor single row and both the current row and column checks pass; then max + 1 rows and columns |
| FormsOld.GridFlexComoValidarGrade | General_Classes/ConstrutorDeForms_Old.js:228-266 | outside the single-column and single-row cases the legacy grid accepts exactly what the current grid check accepts |
| FormsOld.GridFlexLinhas | General_Classes/ConstrutorDeForms_Old.js:266-266 | the flexible grid reports as many rows as there are distinct rows |
| FormsOld.FaltantesListados | General_Classes/ConstrutorDeForms_Old.js:236-257 | an inconsistent grid lists every missing position once, in order, each absent from a used row at or below its largest column |
| FormsOld.CampoUnico | General_Classes/ConstrutorDeForms_Old.js:199-211 | a lone field is a column layout exactly at row 0 and an error elsewhere |
| FormsOld.ColunaCincoAceita | General_Classes/ConstrutorDeForms_Old.js:199-211 | a lone field in column 5 is accepted as a column, while the current grid check rejects it |
| FormsOld.ValidarPos | General_Classes/ConstrutorDeForms_Old.js:274-297 | throws exactly without `#mainConteudo`; otherwise the one-column grid exactly when the rows are sequential, else the row error with the distinct rows found |
| FormsOld.GridUmaColunaLinhas | General_Classes/ConstrutorDeForms_Old.js:297-297 | the one-column grid reports as many rows as there are distinct rows, and -Infinity with no field |
| FormsOld.ContagemDasLinhasOk | General_Classes/ConstrutorDeForms_Old.js:283-285 | rows that pass the row test have max + 1 distinct values |
| FormsOld.PosicionarDivs | General_Classes/ConstrutorDeForms_Old.js:80-117 | throws exactly without a form or without `#mainConteudo`; otherwise the same ordered, complete, duplicate-free placement as the current form |
| FormsOld.SemFaltantesSaoSequenciais | General_Classes/ConstrutorDeForms_Old.js:238-257 | when the loops list nothing, every used row has all its columns from 0 to its largest |
| FormsOld.FaltanteQuebraSequencia | General_Classes/ConstrutorDeForms_Old.js:238-257 | when the loops list a position, some used row misses a column below its largest |
| FormsOld.MaximoDasLinhas | General_Classes/ConstrutorDeForms_Old.js:195-196 | with sequential rows the largest row is the number of distinct rows minus one |
| Login.ValidarCampos | General_Classes/ConstrutorDeFormLogin.js:435-455 | refuses a missing or blank user first, then a missing or blank password, then a password whose raw length is below 4; accepts exactly a non-blank user with a non-blank password of at least 4 characters; a non-string value makes `trim` throw |
| Login.EspacosContamNoTamanho | General_Classes/ConstrutorDeFormLogin.js:445-448 | the length test counts the spaces around the password, so "  ab" is accepted although it trims to "ab" |
| Login.Autenticar | General_Classes/ConstrutorDeFormLogin.js:395-433 | the simulated authentication succeeds exactly when user and password are both truthy, carrying the user; otherwise it reports the invalid-credentials message |
| Login.ValidadoEhAutenticado | General_Classes/ConstrutorDeFormLogin.js:395-455 | every submission the default validator accepts is authenticated |
| Login.Decisao | General_Classes/ConstrutorDeFormLogin.js:41-41 | the default validator when none is configured; a configured one accepts exactly when it returns true, never throws and shows no message |
| Login.Incremento | General_Classes/ConstrutorDeFormLogin.js:367-381 | a submission adds 1 to the attempt counter exactly when it is accepted yet the authentication is denied, else 0 |
| Login.PadraoNaoConta | General_Classes/ConstrutorDeFormLogin.js:367-381 | with the default validator the counter never moves, so the lockout branch is unreachable |
| Login.MaxTentativas | General_Classes/ConstrutorDeFormLogin.js:47-47 | an absent limit and a limit of 0 both become 3; any other value is kept |
| Login.TituloDoLogin | General_Classes/ConstrutorDeFormLogin.js:18-18 | a non-empty configured title, otherwise 'Login' |
| Login.EstiloDoLogin | General_Classes/ConstrutorDeFormLogin.js:27-31 | the configured style entries override the minimum width 400px and height 450px defaults, which fill in absent keys |
| Login.CamposDoLoginValidos | General_Classes/ConstrutorDeFormLogin.js:58-83 | the two login fields pass every check of the form validation |
| Login.FormLogin.Criar | General_Classes/ConstrutorDeFormLogin.js:16-99 | on the corrected modal constructor: fails exactly when the page lacks an element the modal's render reaches (container, form, `#divFormCrud`, `#mainConteudo`, or the container directly under `<body>`), with the missing-container error when the container or form is absent; otherwise a fresh login with its counter at 0 and a fresh modal built from the two fields, the login options and the title |
| Login.FormLogin.Mostrar | General_Classes/ConstrutorDeFormLogin.js:654-711 | the new message replaces the previous one and counts as one more message div; an error message also starts its 5000 ms removal timer, a success message none; nothing else changes |
| Login.FormLogin.ExibirLoading | General_Classes/ConstrutorDeFormLogin.js:638-652 | only an existing submit button changes, disabled exactly when loading; nothing else changes |
| Login.FormLogin.HandleLoginSucesso | General_Classes/ConstrutorDeFormLogin.js:457-484 | shows the success message and schedules, 1500 ms ahead, the close that reports the user; nothing else changes |
| Login.FormLogin.HandleLoginErro | General_Classes/ConstrutorDeFormLogin.js:489-513 | the error message is shown with its 5000 ms removal timer; at or past the limit the lockout message replaces it, with its own removal timer, and the close is scheduled 3000 ms ahead; below it the password clear is scheduled 500 ms ahead |
| Login.FormLogin.HandleSubmitLogin | General_Classes/ConstrutorDeFormLogin.js:362-390 | without a modal the call fails and changes nothing; otherwise the counter grows by the increment, the submit button ends enabled, and the timers (with their due times), the number of messages created and the message left are those of the validation and authentication outcome |
| Login.FormLogin.Autenticacao | General_Classes/ConstrutorDeFormLogin.js:371-381 | the accepted path: the loading state on, then the success handler, or one more attempt and the error handler, with the timers and message those handlers leave |
| Login.FormLogin.HandleEncerrarLogin | General_Classes/ConstrutorDeFormLogin.js:550-556 | dispatches `login-cancelado` with the attempt count; nothing else changes |
| Login.FormLogin.AoAcaoDoModal | General_Classes/ConstrutorDeFormLogin.js:324-342 | 'submit' runs the submission, 'encerrar' the cancellation, any other action changes nothing |
| Login.FormLogin.Exibir | General_Classes/ConstrutorDeFormLogin.js:564-579 | with a modal the counter is reset to 0 and the modal shown; without one nothing is visible and the counter is kept |
| Login.FormLogin.Fechar | General_Classes/ConstrutorDeFormLogin.js:584-589 | the form is no longer visible; counter, timers, notices and message unchanged |
| Login.FormLogin.Destruir | General_Classes/ConstrutorDeFormLogin.js:723-733 | the modal is destroyed and dropped, the caches emptied, nothing visible |
| Login.FormLogin.DispararTemporizador | General_Classes/ConstrutorDeFormLogin.js:470-681 | the earliest-due timer (the first started among equals) fires and is removed, and the clock moves to its due time: the success timer closes the form and reports `login-sucesso`, the lockout timer closes it, the password clear changes no tracked state, and the removal started by `exibirErro` takes the message off only while its div is still attached, that is, while no later message has replaced it |
| Login.Proximo | General_Classes/ConstrutorDeFormLogin.js:470-510 | the next timer to fire is due no later than any other pending timer, and every timer before it in start order is due strictly later |
| Login.MarcarPorPosicao | General_Classes/ConstrutorDeFormLogin.js:470-510 | each timer started at a given time is due its action's delay later, in call order |
| Login.OpcoesDoLogin | General_Classes/ConstrutorDeFormLogin.js:71-82 | the modal gets the Cancelar and Entrar buttons and the login style, no button group and no selects |
| Login.Exibidas | General_Classes/ConstrutorDeFormLogin.js:362-513 | one submission creates no message div exactly when a configured validator refuses it, two exactly when a denial or a throw reaches the limit, otherwise one |
| Login.Agenda | General_Classes/ConstrutorDeFormLogin.js:362-513 | a refusal by a configured validator schedules nothing; a refusal by the default validation schedules the removal of its message; a denial or a thrown error schedules the removal of each error message, then the close at the limit or the password clear below it; a success schedules only the close reporting the user; the message left is due for removal exactly when it is an error |
| Login.RemocoesDaAgenda | General_Classes/ConstrutorDeFormLogin.js:676-681 | every removal a submission schedules is for a message that submission created |
| Login.MensagemFinal | General_Classes/ConstrutorDeFormLogin.js:362-513 | the message left by one submission: the refusal's, the lockout at the limit, the thrown error's or the denial's below it, the success message |
| Login.BloqueioFechaOFormulario | General_Classes/ConstrutorDeFormLogin.js:489-501 | a denied submission reaching the limit: the first timer to fire is the 3000 ms close, which leaves the form closed with the lockout message still shown and the two removals pending |
| Login.BloqueioSemMensagemAoFim | General_Classes/ConstrutorDeFormLogin.js:489-501 | after all the lockout's timers have fired, 5000 ms later, the form is closed and no message is left |
| Login.RecusaSomeAposCincoSegundos | General_Classes/ConstrutorDeFormLogin.js:435-449 | the message of a submission the default validation refuses is gone once its 5000 ms timer fires, and the attempt counter is unchanged |
| FormModal.OpcoesDaBase | General_Classes/ConstrutorDeFormModal.js:34-38 | the base receives no button group (N,N,N) and no selects, every other option as the caller gave it |
| FormModal.BaseIgnoraBotoesESelects | General_Classes/ConstrutorDeFormModal.js:34-41 | whatever two callers pass, the base sees the same buttons and selects, and the select values add nothing to the collected data |
| FormModal.BotoesDoModal | General_Classes/ConstrutorDeFormModal.js:44-44 | the given button texts, even an empty list, or Encerrar and Submit when none are given |
| FormModal.EstiloDoModal | General_Classes/ConstrutorDeFormModal.js:45-45 | the given style, or the empty one |
| FormModal.TextosDoRodape | General_Classes/ConstrutorDeFormModal.js:229-267 | the footer shows two texts: the first two given, with a missing one printed as "undefined" |
| FormModal.Limitar | General_Classes/ConstrutorDeFormModal.js:209-210 | the clamp is never negative, never above a non-negative limit, the identity inside the range, 0 below it or for a negative limit, the limit above it |
| FormModal.LimitarIdempotente | General_Classes/ConstrutorDeFormModal.js:209-210 | clamping twice is clamping once |
| FormModal.Deslocamento | General_Classes/ConstrutorDeFormModal.js:182-192 | the recorded offset plus the container's corner is the pointer |
| FormModal.NovaPosicao | General_Classes/ConstrutorDeFormModal.js:199-216 | the dragged position is never negative and, when the modal fits, keeps it inside the viewport |
| FormModal.SemSaltoAoAgarrar | General_Classes/ConstrutorDeFormModal.js:182-216 | grabbing and moving without displacing the pointer leaves a modal inside the viewport where it was |
| FormModal.ArrastoAcompanhaPonteiro | General_Classes/ConstrutorDeFormModal.js:182-216 | moving the pointer by a vector within the limits moves the modal by that vector |
| FormModal.Modal.CriarComoEscrito | General_Classes/ConstrutorDeFormModal.js:32-54 | in render order: a validation failure is that error; then a page without the modal container or form, a page without `#divFormCrud`, the first 'combo' field, a form without `#mainConteudo`, a container outside `<body>`, and a footer (whose button texts are read before they are set) each fail; success exactly otherwise, with no footer texts and one backdrop lost |
| FormModal.Modal.Criar | General_Classes/ConstrutorDeFormModal.js:32-54 | the validation error, then the missing-container, missing-`#divFormCrud`, missing-`#mainConteudo` and container-outside-`<body>` errors; success exactly when validation passes and the page has every element render reaches, with 'combo' fields as selects, the footer showing the button texts and a single backdrop |
| FormModal.Modal.Dados | General_Classes/ConstrutorDeForms.js:491-515 | with no selects, exactly the values of the modal's fields |
| FormModal.Modal.OnMouseDown | General_Classes/ConstrutorDeFormModal.js:182-192 | dragging starts with the pointer's offset from the corner; nothing else changes |
| FormModal.Modal.OnMouseMove | General_Classes/ConstrutorDeFormModal.js:199-216 | while dragging the modal moves to the clamped position; otherwise nothing changes |
| FormModal.Modal.OnMouseUp | General_Classes/ConstrutorDeFormModal.js:221-223 | dragging stops and the position stays |
| FormModal.Modal.Exibir | General_Classes/ConstrutorDeFormModal.js:293-304 | an existing backdrop is shown, the container shown and re-centred; visible exactly when there is a backdrop |
| FormModal.Modal.Ocultar | General_Classes/ConstrutorDeFormModal.js:309-317 | an existing backdrop and the container are hidden; not visible; nothing else changes |
| FormModal.Modal.Destruir | General_Classes/ConstrutorDeFormModal.js:416-425 | the backdrop is removed and the modal hidden; not visible |
| FormModal.Modal.Recentralizar | General_Classes/ConstrutorDeFormModal.js:432-435 | back to the centred placement; nothing else changes |
| FormModal.Modal.RedefinirBotoes | General_Classes/ConstrutorDeFormModal.js:441-445 | the new texts are kept and written into the footer when there is one |
| FormModal.Modal.RedefinirTitulo | General_Classes/ConstrutorDeFormModal.js:459-463 | the new title; nothing else changes |
| FormModal.Modal.Disparar | General_Classes/ConstrutorDeFormModal.js:358-375 | one 'form-modal-acao' event with the action and the collected data; nothing else changes |
| FormModal.Modal.OnEncerrar | General_Classes/ConstrutorDeFormModal.js:323-333 | dispatches 'encerrar' with the data, then hides the modal |
| FormModal.Modal.OnSubmit | General_Classes/ConstrutorDeFormModal.js:339-350 | dispatches 'submit' with the data exactly when the validation holds; the modal stays as it was |
| FormModal.CicloDeVisibilidade | General_Classes/ConstrutorDeFormModal.js:293-456 | shown, the modal is visible exactly with a backdrop; hidden, destroyed or closed it is not; a destroyed modal shown again stays invisible |
| UiFormModal.IsEmailValido | ui_FormModal.js:319-322 | true exactly when an '@' and a later '.' split the string into three non-empty runs without whitespace or '@' |
| UiFormModal.FormaSseRegex | ui_FormModal.js:319-322 | the pattern accepts exactly the strings with no whitespace, a first '@' that is not the first character, no second '@', and a '.' inside the part after it that is neither its first nor its last character |
| UiFormModal.FormaCasa | ui_FormModal.js:319-322 | every string of that shape matches the pattern |
| UiFormModal.CasaTemForma | ui_FormModal.js:319-322 | every string the pattern matches has that shape |
| UiFormModal.ExemploValido | ui_FormModal.js:319-322 | "ana@x.com" is accepted |
| UiFormModal.ExemploComEspaco | ui_FormModal.js:319-322 | an address with a space is refused |
| UiFormModal.ExemploDuasArrobas | ui_FormModal.js:319-322 | an address with two '@' is refused |
| UiFormModal.EmailValidoNaoEmBranco | ui_FormModal.js:242-261 | a valid address is never empty or blank |
| UiFormModal.Obrigatorios | ui_FormModal.js:248-253 | the required-field loop passes exactly when every field holds a non-blank string |
| UiFormModal.ObrigatoriosDoModal | ui_FormModal.js:245-253 | the loop over `nome` then `email`: false at the first missing or blank one, a throw when `trim` meets a non-string first |
| UiFormModal.ValidacaoDoModalSse | ui_FormModal.js:242-261 | true exactly when `nome` is a non-blank string and `email` a valid address; false when `nome`, or then `email`, is missing or blank; a throw exactly when the first field checked is a truthy non-string; a non-blank invalid address gives false once `nome` passes |
| UiFormModal.ValidarDadosModal | ui_FormModal.js:242-261 | the loop and the e-mail check compute that result |
| UiFormModal.ValidoTemDadosNaoSalvos | ui_FormModal.js:226-261 | data that passes validation always counts as unsaved, its `nome` being filled in |
| UiFormModal.PreenchidoSseNaoEmBranco | ui_FormModal.js:226-235 | a string value counts as unsaved data exactly when it is not blank; a non-string exactly when it is truthy |
| UiFormModal.ProcessarDadosModal | ui_FormModal.js:269-291 | the simulated processing always saves |
| UiFormModal.Navegador.constructor | ui_FormModal.js:167-215 | no alert, no confirmation and no saved data yet |
| UiFormModal.ManipularEncerrarModal | ui_FormModal.js:167-184 | asks for confirmation exactly when there is unsaved data; a refusal shows the modal again; otherwise the modal is untouched |
| UiFormModal.ManipularSubmitModal | ui_FormModal.js:190-217 | a throwing validation alerts the error; invalid data alerts the required-fields message and returns before processing; a saved result alerts success, hides the modal and records the data; a failed one alerts its error; nothing else changes |
| UiFormModal.AoAcaoDoModal | ui_FormModal.js:132-159 | 'encerrar' and 'submit' go to their handlers; the data is saved exactly when the submission is valid and processed; any other action changes nothing |
| UiFormModal.EncerrarComoEscrito | ui_FormModal.js:167-180 | as written the 'encerrar' event, and with it any re-show, comes before `_onEncerrar` hides the modal, so the modal always ends hidden |
| UiFormModal.ReaberturaDesfeita | ui_FormModal.js:174-178 | a user who refuses to discard unsaved data is asked once and still sees the modal close |
| UiFormModal.EncerrarCorrigido | ui_FormModal.js:167-180 | hiding before the event: the modal stays shown exactly when there is unsaved data and the user refuses |
| UiFormModal.CadastroSimplesValido | ui_FormModal.js:19-44 | the customer modal's field lists pass the form validation |
| UiFormModal.EdicaoComplexoValido | ui_FormModal.js:50-75 | the product modal's field lists pass the form validation |
| UiFormModal.ConfirmacaoValida | ui_FormModal.js:81-93 | the confirmation modal's field lists pass the form validation |
| UiFormModal.CriarModalCadastroSimples | ui_FormModal.js:19-44 | on the corrected modal constructor: built exactly when the page has every element the modal's render reaches (container, form, `#divFormCrud`, `#mainConteudo`, and the container directly under `<body>`), titled "Novo Cliente" |
| UiFormModal.CriarModalEdicaoComplexo | ui_FormModal.js:50-75 | on the corrected modal constructor: built exactly when the page has every element the modal's render reaches (container, form, `#divFormCrud`, `#mainConteudo`, and the container directly under `<body>`), titled "Editar Produto" |
| UiFormModal.EdicaoComplexoParaNoCombo | ui_FormModal.js:50-53 | the fifth field, Categoria, is the first 'combo', so the modal as written stops there on every page |
| UiFormModal.Resposta | ui_FormModal.js:109-119 | 'submit' calls the callback with true, 'encerrar' with false, any other action calls nothing |
| UiFormModal.Promessa | ui_FormModal.js:357-362 | the promise is pending exactly until the callback is first called |
| UiFormModal.PromessaDefinitiva | ui_FormModal.js:357-362 | once settled the promise keeps its value whatever later calls bring |
| UiFormModal.Confirmacao.Criar | ui_FormModal.js:81-122 | on the corrected modal constructor: built exactly when the page has every element the modal's render reaches (container, form, `#divFormCrud`, `#mainConteudo`, and the container directly under `<body>`), with no answer yet, the title and the message |
| UiFormModal.Confirmacao.AoAcao | ui_FormModal.js:109-119 | the callback receives the action's answer, then the modal is destroyed whatever the action |
| UiFormModal.ConfirmarAcao | ui_FormModal.js:357-362 | on the corrected modal constructor: built exactly when the page has every element the modal's render reaches (container, form, `#divFormCrud`, `#mainConteudo`, and the container directly under `<body>`), then shown, its promise pending |
| UiFormModal.PrimeiraRespostaDecide | ui_FormModal.js:109-119 | a first 'submit' settles the promise with true and closes the modal; a second event changes neither |
| InterfaceAplicacao.OuPadrao | General_Classes/InterfaceAplicacao.js:12-19 | a truthy (non-empty) string is kept; an absent or empty one gives the default |
| InterfaceAplicacao.Ids | General_Classes/InterfaceAplicacao.js:155-159 | the id of each configured menu, in order |
| InterfaceAplicacao.PrimeiroPrincipal | General_Classes/InterfaceAplicacao.js:201-201 | -1 exactly when no menu is principal; otherwise the position of the first principal menu |
| InterfaceAplicacao.Filtrar | General_Classes/InterfaceAplicacao.js:146-146 | never longer; holds exactly the characters of the input in [a-z0-9] |
| InterfaceAplicacao.NormalizadoSoChaves | General_Classes/InterfaceAplicacao.js:141-149 | the name built from any suffix of the label holds only [a-z0-9] and is no longer than it |
| InterfaceAplicacao.Normalizar | General_Classes/InterfaceAplicacao.js:141-149 | the handler name is never longer than the label and holds only [a-z0-9] |
| InterfaceAplicacao.NormalizarComoNoCodigo | General_Classes/InterfaceAplicacao.js:144-146 | the name is `toLowerCase` followed by the `replace`: a character is in it exactly when it is a lowercased label character in [a-z0-9] |
| InterfaceAplicacao.NormalizarIdempotente | General_Classes/InterfaceAplicacao.js:141-149 | a handler name normalises to itself |
| InterfaceAplicacao.AcentoDescartado | General_Classes/InterfaceAplicacao.js:141-149 | as written "Relatórios-1" names "relatrios1", not the "relatorios1" the comment promises |
| InterfaceAplicacao.RemoverAcentos | General_Classes/InterfaceAplicacao.js:143-143 | each character replaced by its base letter, length kept |
| InterfaceAplicacao.SemAcentoComoNormalizar | General_Classes/InterfaceAplicacao.js:141-149 | the corrected name is the code's normalisation applied to the label with accents folded, and holds only [a-z0-9] |
| InterfaceAplicacao.ExemploSemAcento | General_Classes/InterfaceAplicacao.js:143-143 | folding "Relatórios-1" gives "Relatorios-1" |
| InterfaceAplicacao.ExemploAscii | General_Classes/InterfaceAplicacao.js:141-149 | the code names "Relatorios-1" "relatorios1" |
| InterfaceAplicacao.AcentoPreservado | General_Classes/InterfaceAplicacao.js:143-143 | the corrected normalisation names "Relatórios-1" "relatorios1", as the comment promises |
| InterfaceAplicacao.SemAcentoEmAscii | General_Classes/InterfaceAplicacao.js:141-149 | on labels without Latin-1 letters the corrected normalisation is the code's |
| InterfaceAplicacao.Interface.constructor | General_Classes/InterfaceAplicacao.js:10-27 | each falsy field takes its default; no menu active, no header, listener or call yet |
| InterfaceAplicacao.Interface.CriarTitulo | General_Classes/InterfaceAplicacao.js:63-70 | one header rendered with the current title, description and icon; nothing else changes |
| InterfaceAplicacao.Interface.CriarMenu | General_Classes/InterfaceAplicacao.js:89-103 | when the div or 'app' exists the div holds the menu's buttons and is shown exactly when principal; otherwise nothing is rendered and the call fails exactly when the menu is not principal |
| InterfaceAplicacao.Interface.CriarMenus | General_Classes/InterfaceAplicacao.js:75-84 | with 'app' every menu is created; a failure implies a non-principal menu; after success the first menu, principal or not, is the one shown and becomes active |
| InterfaceAplicacao.Interface.ConfigurarEventos | General_Classes/InterfaceAplicacao.js:108-117 | a listener is added exactly for each menu whose element exists; nothing else changes |
| InterfaceAplicacao.Interface.ProcessarClique | General_Classes/InterfaceAplicacao.js:122-136 | the handler named by the normalised label is called with the click's detail exactly when the name is non-empty and registered; otherwise no call |
| InterfaceAplicacao.Interface.ExibirMenu | General_Classes/InterfaceAplicacao.js:154-161 | every menu whose element exists is shown exactly when it is the target, other elements untouched, and the target becomes active even when no menu has that id |
| InterfaceAplicacao.Interface.VoltarMenuPrincipal | General_Classes/InterfaceAplicacao.js:200-205 | without a principal menu nothing changes; otherwise the first principal menu is shown and active |
| InterfaceAplicacao.Interface.AtualizarInfo | General_Classes/InterfaceAplicacao.js:210-220 | each truthy field overwrites its own; the header is rendered again exactly when a title or a description is given |
| InterfaceAplicacao.Presentes | General_Classes/InterfaceAplicacao.js:109-116 | the listed ids whose element exists |
| InterfaceAplicacao.ExibirApenas | General_Classes/InterfaceAplicacao.js:155-160 | each listed menu with an element is shown exactly when it is the target; others untouched |
| InterfaceAplicacao.PrincipalEmSegundo | General_Classes/InterfaceAplicacao.js:75-84 | with the principal menu second, creating the menus shows the first and leaves the principal hidden |
| ConstrutorInterface.UltimaEscrita | General_Classes/ConstrutorDeInterfaceAplicacao.js:131-136 | nothing exactly when no write reaches the id; otherwise a value some write to that id left |
| ConstrutorInterface.UltimaEscritaUnica | General_Classes/ConstrutorDeInterfaceAplicacao.js:131-136 | with every id written once, the element shows the value written to it |
| ConstrutorInterface.EscritasPrincipais | General_Classes/ConstrutorDeInterfaceAplicacao.js:131-136 | one write per menu, in order, showing it exactly when it is principal |
| ConstrutorInterface.AplicarEscritas | General_Classes/ConstrutorDeInterfaceAplicacao.js:131-136 | the loop of writes leaves each existing element as the last write to it set it, untouched when none did; no element is added |
| ConstrutorInterface.PrincipaisExibidos | General_Classes/ConstrutorDeInterfaceAplicacao.js:127-138 | with distinct ids every menu ends shown exactly when it is principal |
| ConstrutorInterface.ConstrutorDeInterfaceAplicacao.constructor | General_Classes/ConstrutorDeInterfaceAplicacao.js:10-30 | each falsy field takes its default; the registry starts empty |
| ConstrutorInterface.ConstrutorDeInterfaceAplicacao.Registrar | General_Classes/ConstrutorDeInterfaceAplicacao.js:115-115 | `Map.set`: the entry is replaced; a new key goes last and a known key keeps its place |
| ConstrutorInterface.ConstrutorDeInterfaceAplicacao.ConstruirMenu | General_Classes/ConstrutorDeInterfaceAplicacao.js:104-121 | the menu is registered; when its div or 'app' exists the div holds its buttons and is shown exactly when principal; otherwise nothing is rendered and the call throws exactly when the menu is not principal |
| ConstrutorInterface.ConstrutorDeInterfaceAplicacao.ExibirMenuPrincipal | General_Classes/ConstrutorDeInterfaceAplicacao.js:127-138 | with no principal menu nothing changes; otherwise each existing menu element is set by the last write to it |
| ConstrutorInterface.ConstrutorDeInterfaceAplicacao.ConstruirMenus | General_Classes/ConstrutorDeInterfaceAplicacao.js:91-98 | with 'app' every menu is rendered and registered; a failure implies a non-principal menu |
| ConstrutorInterface.ConstrutorDeInterfaceAplicacao.AlternarMenu | General_Classes/ConstrutorDeInterfaceAplicacao.js:144-150 | the second menu ends shown, the first hidden when different; every other element and all buttons are untouched |
| ConstrutorInterface.ConstrutorDeInterfaceAplicacao.ObterMenusRenderizados | General_Classes/ConstrutorDeInterfaceAplicacao.js:155-157 | the registered ids in first-registration order, each once |
| MenuAplicacao.DirecaoDe | General_Classes/ConstrutorMenuAplicacao.js:30-30 | a column exactly for "vertical" |
| MenuAplicacao.IdDoBotao | General_Classes/ConstrutorMenuAplicacao.js:55-55 | the base, a dash, then the label |
| MenuAplicacao.IdsInjetivos | General_Classes/ConstrutorMenuAplicacao.js:55-55 | with one base, equal ids mean equal labels |
| MenuAplicacao.TextoDoBotao | General_Classes/ConstrutorMenuAplicacao.js:58-58 | same length; the first character upper-cased, the rest kept |
| MenuAplicacao.TextoIdempotente | General_Classes/ConstrutorMenuAplicacao.js:58-58 | capitalising twice is capitalising once |
| MenuAplicacao.BotaoDe | General_Classes/ConstrutorMenuAplicacao.js:54-58 | a button keeps its label, with the id and text built from it |
| MenuAplicacao.Labels | General_Classes/ConstrutorMenuAplicacao.js:54-96 | the labels of the buttons, position by position |
| MenuAplicacao.CliqueEm | General_Classes/ConstrutorMenuAplicacao.js:86-95 | the click reports its label, the bar, the button id and the first position holding that label |
| MenuAplicacao.IndiceDoClique | General_Classes/ConstrutorMenuAplicacao.js:90-90 | repeated labels report the same index; with distinct labels each reports its own position |
| MenuAplicacao.ComExibicao | General_Classes/ConstrutorDeInterfaceAplicacao.js:119-119 | only the display of that menu changes, and only when it exists; no element is added |
| MenuAplicacao.Documento.DefinirExibicao | ui_menu.js:54-54 | succeeds exactly when the element exists; only that menu's display changes |
| MenuAplicacao.Documento.AposDuas | ListenerMenuPrincipal.js:12-23 | two display writes touch only the two ids and add no element |
| MenuAplicacao.Documento.DefinirDuas | ListenerMenuPrincipal.js:12-23 | succeeds exactly when both elements exist; the second write is skipped when the first throws |
| MenuAplicacao.Documento.Chamar | ListenerRel01.js:15-22 | records the called application function; the menus are untouched |
| MenuAplicacao.CriarMenuAplicacao.constructor | General_Classes/ConstrutorMenuAplicacao.js:22-27 | the labels, with the defaults "horizontal", "divMenu" and "cmd" for absent arguments, and 'divMenu' as parent |
| MenuAplicacao.CriarMenuAplicacao.BarraDeBotoes | General_Classes/ConstrutorDeInterfaceAplicacao.js:105-110 | a bar with the given labels, orientation, div and base, whose parent is 'app' |
| MenuAplicacao.CriarMenuAplicacao.CriarBotoes | General_Classes/ConstrutorMenuAplicacao.js:54-96 | one button per label, in label order |
| MenuAplicacao.CriarMenuAplicacao.Renderizar | General_Classes/ConstrutorMenuAplicacao.js:29-97 | without the div and its parent nothing changes; otherwise only the div changes: shown, with the orientation's direction and exactly one button per label in order |
| MenuAplicacao.CriarMenuAplicacao.Clicar | General_Classes/ConstrutorMenuAplicacao.js:86-95 | the click of button i reports label i |
| ListenerMenuPrincipal.HandlerMenuPrincipal | ListenerMenuPrincipal.js:5-35 | "Relatórios-2", "Relatórios-1" and "Cadastro" hide the principal menu and show their submenu, failing exactly when an element is missing; every other label changes nothing |
| ListenerMenuCadastro.HandlerMenuCadastro | ListenerMenuCadastro.js:8-26 | "Retornar" shows the principal menu and hides cadastro, failing exactly when an element is missing; every other label changes nothing |
| ListenerMenuCadastro.DicasNaoCasa | ListenerMenuCadastro.js:16-18 | the button is labelled "Dicas de classificação", which no case of the handler matches |
| ListenerRel01.HandlerMenuRel1 | ListenerRel01.js:7-33 | "Retornar" returns to the principal menu; "RDMCC" calls the form builder and "RDM" the example table, leaving the menus; every other label changes nothing |
| ListenerRel02.HandlerMenuRel2 | ListenerRel02.js:5-26 | "Retornar" returns to the principal menu, failing exactly when an element is missing; every other label changes nothing |
| UiMenu.IdDe | ui_menu.js:36-76 | each menu's div is one of the four menu ids |
| UiMenu.LabelsDe | ui_menu.js:36-76 | every submenu's last label is "Retornar" |
| UiMenu.Proximo | ListenerMenuPrincipal.js:8-33 | in a submenu only "Retornar" leaves, to the principal menu; any other move from the principal menu comes from one of its labels |
| UiMenu.Passo | ui_menu.js:36-76 | a click on button i follows its label; an index past the last button changes nothing |
| UiMenu.SubmenusAlcancaveis | ListenerMenuPrincipal.js:12-23 | buttons 2, 3 and 4 of the principal menu open cadastro, relatórios-1 and relatórios-2 |
| UiMenu.SaidaDoSubmenu | ListenerMenuCadastro.js:12-15 | in a submenu, a click leads to the principal menu exactly when it is the last button; any other keeps the submenu |
| UiMenu.IdaEVolta | ListenerRel02.js:12-15 | opening a submenu and pressing its last button comes back to the principal menu |
| UiMenu.DicasSemEfeito | ListenerMenuCadastro.js:16-24 | the second cadastro button leaves cadastro on screen |
| UiMenu.ExibicaoMantemBotoes | ui_menu.js:54-54 | a display write keeps every div and its buttons |
| UiMenu.RenderizadasMantidas | ui_menu.js:36-76 | display writes keep the four menus rendered with their labels |
| UiMenu.AbrirSubmenu | ListenerMenuPrincipal.js:12-23 | from the principal menu on screen, its two writes put exactly the submenu on screen and keep the buttons |
| UiMenu.VoltarAoPrincipal | ListenerRel01.js:11-14 | from a submenu on screen, its two writes put exactly the principal menu on screen and keep the buttons |
| UiMenu.ConstroiMenus | ui_menu.js:36-76 | with 'app', the four menus are rendered with their labels and only the principal one is shown; other elements are untouched; without 'app' and the cadastro div it throws |
| UiMenu.Construidas | ui_menu.js:36-76 | the three hidden submenus and the shown principal menu are exactly one menu on screen, all rendered |
| UiMenu.RenderizarPrincipal | ui_menu.js:38-44 | the principal bar rendered with its labels and shown; nothing else changes |
| UiMenu.RenderizarOculto | ui_menu.js:47-54 | the submenu is rendered hidden with its labels, exactly when its div or 'app' exists; nothing else changes |
| UiMenu.Ligar | ui_menu.js:87-94 | every existing menu div gets its own handler; missing ones are skipped and earlier bindings stay |
| UiMenu.Chamadas | ListenerRel01.js:15-22 | at most one application call per click, and only from relatórios-1 |
| UiMenu.Menus.constructor | ui_menu.js:80-80 | no listener bound yet |
| UiMenu.Menus.RegistrarListeners | ui_menu.js:80-95 | every existing div listens with its handler; missing divs are skipped and the rest still bound |
| UiMenu.Menus.Clicar | General_Classes/ConstrutorMenuAplicacao.js:86-95 | a click without a listener changes nothing; with one, the handler's calls are recorded and, from its own menu on screen, exactly the next menu is on screen with the buttons kept |
| UiMenu.Menus.Sessao | ui_menu.js:80-95 | after any sequence of clicks exactly one menu is on screen, the one the navigation gives, and all stay rendered |
| UiMenu.Iniciar | main.js:8-14 | with 'app', the menus are built, listening, and only the principal one is shown; when building throws, no listener is registered |
| JsCommon.TrimEmptyIffBlank | General_Classes/ConstrutorDeFormLogin.js:436-436 | `trim()` gives "" exactly when every character is whitespace |
| JsCommon.TrimIdempotent | General_Classes/ConstrutorDeTabelas.js:107-107 | trimming twice is trimming once |
| JsCommon.MissingOrBlank | General_Classes/ConstrutorDeFormLogin.js:436-445 | a value counts as missing exactly when it is falsy or a blank string |
| JsCommon.IndexOf | General_Classes/ConstrutorMenuAplicacao.js:90-90 | -1 exactly when absent; otherwise the first position holding the value |
| JsCommon.Distinct | General_Classes/ConstrutorDeForms.js:123-123 | `[...new Set(s)]`: no duplicates and the same elements |
| JsCommon.DistinctFirstAppearance | General_Classes/ConstrutorDeForms.js:123-123 | the distinct elements keep their order of first appearance |
| JsCommon.SortInts | General_Classes/ConstrutorDeForms.js:123-123 | a numeric sort: sorted, a permutation, strictly increasing without duplicates |
| JsCommon.MaxInt | General_Classes/ConstrutorDeForms.js:124-124 | `Math.max(...s)` on a non-empty list: an element no smaller than any other |
| JsCommon.FirstFailure | General_Classes/ConstrutorDeForms.js:85-143 | none exactly when every item passes; otherwise the first item that fails |

## Left out

- DOM building and styling are out of scope. This covers element creation, CSS, colours, hover resets (`_resetarEstadoBotaoMenu`, `_resetarEstadoBotao`), centring, the backdrop's look, the login's styling, `CriarTitulos`, and the emptying of the global `#divRodape #divBotoes` markup by `Forms.FormComum.OnEncerrar`. Widgets are records and visibility is a boolean.
- `General_Classes/LayoutDeTela.js` (floating-point viewport geometry) and `calcularAlturaMaxima` are not part of this model.
- Numbers are mathematical reals and integers. IEEE rounding, NaN and non-integer form positions are not modelled.
- `Estatisticas.DesvioPadrao` and `Estatisticas.CoefVariacao` take `Math.sqrt` as a parameter, so their values are stated in terms of that function.
- `Tabelas.ParseFloat` takes the prefix parser of `parseFloat` as a parameter.
- `Intl.NumberFormat` formatting of currency, percent and decimal cells is left out. Only the 'T' and null formats are modelled.
- `JsCommon.LowerChar` and `JsCommon.UpperChar` map ASCII letters only. Unicode case mapping in `encontrarHandler` and in button texts is not modelled.
- `encontrarHandler` looks names up in a plain object, so keys inherited from `Object.prototype` would also be found. The model's handler table has only its own keys.
- `General_Classes/frontend_api.js` (an HTTP client), `General_Classes/OperacoesCRUD.js` (TODO stubs over a global API object) and `ui_formularios.js` (template handlers) are not part of this model.
- `General_Classes/ConstrutorDeBarrasDeBotoes.js` is not part of this model. `BarraDeBotoes` is modelled as the menu bar rendering into 'app' (`MenuAplicacao.CriarMenuAplicacao.BarraDeBotoes`).
- These interface operations are left out because they only build the title, header and container DOM: `criarTitulos`, `criarTitulo`'s markup, `inicializar`, `criarEstruturaTela`, `inicializarConteineres`, `criarTitulosIntegrado`, `adicionarFormulario` and `limparCanvas`.
- The login's `localStorage`, its redirect, `fetch`, logo and extra-field customisation, the Enter key, `esqueceuSenha` and `criarConta` are left out. They are browser I/O.
- The login's `setTimeout` callbacks for the success close, the lockout close, the password clear and the error-message removal are pending timers with due times (`Login.FormLogin.agendados`). `Login.FormLogin.DispararTemporizador` fires the earliest due, the first started among equals. The clock only moves when a timer fires. The 1000 ms await inside `autenticar` and the timers that only touch the DOM are left out: the 100 ms listener wiring, the customisations and the 300 ms focus in `exibir`.
- Botoes.CriarBotoes.InserirEm: `_mapearElementos` looks the nine ids up with the document-wide `document.getElementById`. The model assumes the document holds only this bar's buttons. It therefore maps exactly the ids this bar generated, and it does not model a container outside the document (where nothing would be found) or another bar's buttons with the same ids.
- BarraPesquisa.BarraDePesquisa.Escolher: a selection is identified by its value. Choosing a different option with the same value counts as no change, although the browser would fire `change`.
- FormModal.Modal.Exibir: the 10 ms re-centring timer is taken as already fired, so the position is reset to the centre (`posicao := None`) at once. The confirmation modal's message fill is DOM only and not modelled.
- `confirm` and `alert` are inputs or recorded calls. Their dialogs are not modelled.
- These parts of `ui_FormModal.js` are left out as DOM wiring and demonstration code: `exibirModalCadastro`, `exibirModalEdicao`, `preencherCamposModal`, `exemploUsoModais` and `configurarListenersGlobaisModais` (the Escape key).
- The `modal-dados-salvos` event of `aposSuccessoModal` is recorded as a flag. The event is not dispatched.
- The simulated asynchronous saves and their delays are not modelled.
- Drag coordinates are reals. Mouse events are given as pointer positions.
- `removerEventListeners` and the bookkeeping of the listeners themselves are left out. A handler is a method over the modelled state.
- Console logs and warnings are left out.
- Handlers' application functions (`construirFormulario`, `exibirTabelaExemplo1`) are recorded by name in `MenuAplicacao.Documento.chamadas`. Their effects are not modelled.
- UiTabelas.CriarTabelaExemplo: builds the example table with the 'Nome' column only, of its four, and with no selects. The button behaviour it serves does not depend on the columns.
- The 30-student list of `ui_tabelas.js` is a constant. The cascade methods take the student list as a parameter, and concrete evaluations over the whole list are not stated.
- `main.js` is modelled only for two of its three startup calls, `constroiMenus` and `registrarListeners` (`UiMenu.Iniciar`). `criarTitulos` only builds title DOM and is left out. The `DOMContentLoaded` login wiring is out of scope.
- UiFormModal.CriarModalCadastroSimples: built on the corrected `FormModal.Modal.Criar`. As written, the modal throws on a page whose form has a footer (see Findings), so the model succeeds on pages where the code throws.
- UiFormModal.CriarModalEdicaoComplexo: built on the corrected `FormModal.Modal.Criar`. As written, its 'combo' field throws on every page (`UiFormModal.EdicaoComplexoParaNoCombo`), and a footer throws too.
- UiFormModal.Confirmacao.Criar: built on the corrected `FormModal.Modal.Criar`. As written, it throws on a page whose form has a footer.
- UiFormModal.ConfirmarAcao: goes through `UiFormModal.Confirmacao.Criar`, so as written it throws on a page whose form has a footer.
- Login.FormLogin.Criar: built on the corrected `FormModal.Modal.Criar`. As written, the login always passes `botoesModal`, yet the modal throws on a page whose form has a footer.
- Forms.FormComum.Criar: the page is assumed to hold the form's container, `#divFormCrud` and a `#mainConteudo` inside the form. The model does not return the TypeError or the 'mainConteudo não encontrado no formulário.' error the code throws without them.
- Login.FormLogin.HandleSubmitLogin: `config.onLoginSucesso` and `config.onLoginErro` are assumed absent. When a caller gives them, they replace the built-in success and error handlers, and their effects are the caller's code.
- Tabelas.Truncar and Login.ValidarCampos: lengths count code points (`|s|`). JavaScript's `length` and `substring` count UTF-16 code units, so text outside the Basic Multilingual Plane is measured differently.
- Tabelas.Tabela.PopularTabela, Tabelas.Tabela.SetDados and Tabelas.Tabela.EditarCelula: rows are values. The code keeps the caller's array, so an edit of a cell also changes that array; this aliasing is not captured.
- Record-cursor navigation, debouncing and request sequencing do not exist in the code and are not modelled.
- The cadastro listener's case "Dicas de classificação recorrentes" never matches the rendered label "Dicas de classificação". `ListenerMenuCadastro.DicasNaoCasa` and `UiMenu.DicasSemEfeito` state this. Both paths leave the menus as they were, so it is not listed as a finding.

## Findings

| source | as written | input that shows it | evidently intended | confidence | as-written member | corrected member |
|---|---|---|---|---|---|---|
| General_Classes/ConstrutorDeTabelas.js:533-546 | the footer buttons are written with `gerarHTML` only, so the button map stays empty and `habilitarBotao` finds no button | any table with CRUD buttons, then a click on 'editar' | the buttons are inserted with `inserirEm`, so the CRUD handler enables and disables them | not executed | Tabelas.Tabela.ConfigurarBotoesRodape | Tabelas.Tabela.ConfigurarBotoesRodapeMapeando |
| General_Classes/ConstrutorDeForms.js:256-338 | the footer buttons are written with `gerarHTML` only, so `_configurarEventosBotoes` finds no element and binds no listener | any form with a button group set to 'S' | every generated button gets its listener | not executed | Forms.FormComum.Criar | Forms.FormComum.ConfigurarBotoesMapeando |
| General_Classes/ConstrutorDeForms_Old.js:150-173 | `return true` comes before the row and column checks, so those checks never run | a single field at row 1, column 0 | rows must be sequential from 0 and columns sequential within each row | not executed | FormsOld.LinhaUmForaDeSequencia | Forms.Validacao |
| General_Classes/ConstrutorDeFormModal.js:32-54 | the base constructor renders before `botoesModal` is set, so rendering the footer reads an undefined list and throws | any modal whose footer renders its buttons | the modal's buttons are known before it renders | not executed | FormModal.Modal.CriarComoEscrito | FormModal.Modal.Criar |
| General_Classes/ConstrutorDeForms.js:221-223 | a 'combo' field's `<select>` is assigned `type = 'text'`; `type` is getter-only on a select and class code is strict, so the assignment throws a TypeError and the form or modal is never built | `criarModalEdicaoComplexo`, whose fifth field Categoria is a 'combo' | a 'combo' field becomes a `<select>` control | not executed | UiFormModal.EdicaoComplexoParaNoCombo | Forms.ControleDoTipo |
| ui_FormModal.js:167-180 | declining the close confirmation re-shows the modal, and then `_onEncerrar` hides it again | unsaved data and `confirm` answering false | the modal stays open when the user cancels the close | not executed | UiFormModal.ReaberturaDesfeita | UiFormModal.EncerrarCorrigido |
| General_Classes/InterfaceAplicacao.js:141-149 | accented letters are dropped instead of folded | "Relatórios-1" gives "relatrios1" | "relatorios1", as the method's comment says | not executed | InterfaceAplicacao.AcentoDescartado | InterfaceAplicacao.AcentoPreservado |
