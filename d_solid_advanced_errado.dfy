/**
 * The order processor of solid/D_solid_advanced_errado.java, which creates
 * a card payment and an e-mail notifier itself instead of receiving them.
 * Its `PagamentoCartao` and `NotificacaoEmail` classes behave as the ones of
 * solid/D_solid_advanced.java, so they are taken from `SolidD`.
 */
module SolidDErrado {
  import SolidD

  class ProcessadorPedido {
    /** The collaborators are fixed by the class itself. */
    const pagamentoCartao: SolidD.Pagamento := SolidD.PagamentoCartao
    const notificacaoEmail: SolidD.Notificacao := SolidD.NotificacaoEmail
    var pedidos: seq<string>

    constructor ()
      ensures pedidos == []
    {
      pedidos := [];
    }

    /** `processarPedido`: the order is logged unconditionally, and one
        e-mail confirmation goes to `emailCliente` exactly when the amount
        is positive. */
    method ProcessarPedido(pedido: string, valor: real, emailCliente: string) returns (envios: seq<SolidD.Envio>)
      modifies this
      ensures pedidos == old(pedidos) + [pedido]
      ensures valor > 0.0 ==> envios == [SolidD.Envio(SolidD.NotificacaoEmail, emailCliente, SolidD.MensagemConfirmacao)]
      ensures valor <= 0.0 ==> envios == []
    {
      pedidos := pedidos + [pedido];
      var sucesso := SolidD.ProcessarPagamento(pagamentoCartao, valor);
      if sucesso {
        envios := [SolidD.Envio(notificacaoEmail, emailCliente, SolidD.MensagemConfirmacao)];
      } else {
        envios := [];
      }
    }
  }

  /** A coupled processor and an injected one configured with card and
      e-mail, holding the same order log, log the same order and send the
      same notifications; so they stay interchangeable call after call. */
  method MesmoComportamentoQueInjetado(acoplado: ProcessadorPedido, injetado: SolidD.ProcessadorPedido,
                                       pedido: string, valor: real, email: string)
    returns (enviosAcoplado: seq<SolidD.Envio>, enviosInjetado: seq<SolidD.Envio>)
    requires injetado.metodoPagamento == SolidD.PagamentoCartao
    requires injetado.metodoNotificacao == SolidD.NotificacaoEmail
    requires acoplado.pedidos == injetado.pedidos
    modifies acoplado, injetado
    ensures enviosAcoplado == enviosInjetado
    ensures acoplado.pedidos == injetado.pedidos == old(acoplado.pedidos) + [pedido]
  {
    enviosAcoplado := acoplado.ProcessarPedido(pedido, valor, email);
    enviosInjetado := injetado.ProcessarPedido(pedido, valor, email);
  }
}
