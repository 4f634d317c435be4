/** `handlerMenuPrincipal`: the principal menu's buttons open the submenus. */
module ListenerMenuPrincipal {
  import opened MenuAplicacao
  import opened IdsDeMenu

  /**
   * "Relatórios-2", "Relatórios-1" and "Cadastro" hide the principal menu
   * and then show their submenu; a missing element makes its statement
   * throw (false). "Sair", "Reclassificar", "Extração de dados" and any
   * other label only log.
   */
  method HandlerMenuPrincipal(doc: Documento, detalhe: Clique) returns (ok: bool)
    modifies doc
    ensures doc.chamadas == old(doc.chamadas)
    ensures detalhe.rotulo == "Relatórios-2" ==>
              (ok <==> old(doc.Existe(Principal)) && old(doc.Existe(Rel2)))
              && doc.barras == old(doc.AposDuas(Principal, false, Rel2, true))
    ensures detalhe.rotulo == "Relatórios-1" ==>
              (ok <==> old(doc.Existe(Principal)) && old(doc.Existe(Rel1)))
              && doc.barras == old(doc.AposDuas(Principal, false, Rel1, true))
    ensures detalhe.rotulo == "Cadastro" ==>
              (ok <==> old(doc.Existe(Principal)) && old(doc.Existe(Cadastro)))
              && doc.barras == old(doc.AposDuas(Principal, false, Cadastro, true))
    ensures detalhe.rotulo !in {"Relatórios-2", "Relatórios-1", "Cadastro"} ==> ok && doc.barras == old(doc.barras)
  {
    match detalhe.rotulo
    case "Sair" =>
      ok := true;
    case "Relatórios-2" =>
      ok := doc.DefinirDuas(Principal, false, Rel2, true);
    case "Relatórios-1" =>
      ok := doc.DefinirDuas(Principal, false, Rel1, true);
    case "Cadastro" =>
      ok := doc.DefinirDuas(Principal, false, Cadastro, true);
    case "Reclassificar" =>
      ok := true;
    case "Extração de dados" =>
      ok := true;
    case _ =>
      ok := true;
  }
}
