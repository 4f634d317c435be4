/** `handlerMenuRel1`: the first reports submenu. */
module ListenerRel01 {
  import opened MenuAplicacao
  import opened IdsDeMenu

  /** The application functions the handler calls. */
  const ConstruirFormulario: string := "construirFormulario"
  const ExibirTabelaExemplo1: string := "exibirTabelaExemplo1"

  /**
   * "Retornar" shows the principal menu and then hides rel_1; "RDMCC"
   * calls `construirFormulario` once and "RDM" `exibirTabelaExemplo1` once,
   * leaving the menus as they are; any other label only logs.
   */
  method HandlerMenuRel1(doc: Documento, detalhe: Clique) returns (ok: bool)
    modifies doc
    ensures detalhe.rotulo == "Retornar" ==>
              (ok <==> old(doc.Existe(Principal)) && old(doc.Existe(Rel1)))
              && doc.barras == old(doc.AposDuas(Principal, true, Rel1, false))
              && doc.chamadas == old(doc.chamadas)
    ensures detalhe.rotulo == "RDMCC" ==> ok && doc.barras == old(doc.barras) && doc.chamadas == old(doc.chamadas) + [ConstruirFormulario]
    ensures detalhe.rotulo == "RDM" ==> ok && doc.barras == old(doc.barras) && doc.chamadas == old(doc.chamadas) + [ExibirTabelaExemplo1]
    ensures detalhe.rotulo !in {"Retornar", "RDMCC", "RDM"} ==> ok && doc.barras == old(doc.barras) && doc.chamadas == old(doc.chamadas)
  {
    match detalhe.rotulo
    case "Retornar" =>
      ok := doc.DefinirDuas(Principal, true, Rel1, false);
    case "RDMCC" =>
      doc.Chamar(ConstruirFormulario);
      ok := true;
    case "RDM" =>
      doc.Chamar(ExibirTabelaExemplo1);
      ok := true;
    case "Despesas recorrentes" =>
      ok := true;
    case "Despesas" =>
      ok := true;
    case _ =>
      ok := true;
  }
}
