/** `handlerMenuRel2`: the second reports submenu. */
module ListenerRel02 {
  import opened MenuAplicacao
  import opened IdsDeMenu

  /**
   * "Retornar" shows the principal menu and then hides rel_2; "RDMCC 12M",
   * "RDMCC ANO" and any other label only log.
   */
  method HandlerMenuRel2(doc: Documento, detalhe: Clique) returns (ok: bool)
    modifies doc
    ensures doc.chamadas == old(doc.chamadas)
    ensures detalhe.rotulo == "Retornar" ==>
              (ok <==> old(doc.Existe(Principal)) && old(doc.Existe(Rel2)))
              && doc.barras == old(doc.AposDuas(Principal, true, Rel2, false))
    ensures detalhe.rotulo != "Retornar" ==> ok && doc.barras == old(doc.barras)
  {
    match detalhe.rotulo
    case "Retornar" =>
      ok := doc.DefinirDuas(Principal, true, Rel2, false);
    case "RDMCC 12M" =>
      ok := true;
    case "RDMCC ANO" =>
      ok := true;
    case _ =>
      ok := true;
  }
}
