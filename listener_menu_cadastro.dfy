/** `handlerMenuCadastro`: the cadastro submenu returns to the principal menu. */
module ListenerMenuCadastro {
  import opened MenuAplicacao
  import opened IdsDeMenu

  /** The label the switch expects for the second button. */
  const CasoDicas: string := "Dicas de classificação recorrentes"

  /**
   * "Retornar" shows the principal menu and then hides cadastro; every
   * other label, "Classificação" and the case `CasoDicas` included, only logs.
   */
  method HandlerMenuCadastro(doc: Documento, detalhe: Clique) returns (ok: bool)
    modifies doc
    ensures doc.chamadas == old(doc.chamadas)
    ensures detalhe.rotulo == "Retornar" ==>
              (ok <==> old(doc.Existe(Principal)) && old(doc.Existe(Cadastro)))
              && doc.barras == old(doc.AposDuas(Principal, true, Cadastro, false))
    ensures detalhe.rotulo != "Retornar" ==> ok && doc.barras == old(doc.barras)
  {
    match detalhe.rotulo
    case "Retornar" =>
      ok := doc.DefinirDuas(Principal, true, Cadastro, false);
    case "Dicas de classificação recorrentes" =>
      ok := true;
    case "Classificação" =>
      ok := true;
    case _ =>
      ok := true;
  }

  /** The button rendered second is not the label the switch expects, so it falls to the default branch. */
  lemma DicasNaoCasa()
    ensures LabelsCadastro[1] == "Dicas de classificação" && LabelsCadastro[1] != CasoDicas
    ensures CasoDicas !in LabelsCadastro
  {
  }
}
