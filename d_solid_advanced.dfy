/**
 * The order processor of solid/D_solid_advanced.java, which receives its
 * payment method and its notification channel through the constructor.
 * Each order is logged whether or not it is paid; a paid order triggers one
 * confirmation through the channel. Printing is left out; the notifications
 * a call sends are returned as its result.
 */
module SolidD {

  /** The implementations of the `Pagamento` interface: the two of the file,
      and any other one, given by the amounts it accepts. */
  datatype Pagamento = PagamentoCartao | PagamentoPix | OutroPagamento(aceita: real -> bool)

  /** The implementations of the `Notificacao` interface: the two of the
      file, and any other channel, known by its name. */
  datatype Notificacao = NotificacaoEmail | NotificacaoSMS | OutraNotificacao(nome: string)

  /** One call of `enviar(destinatario, mensagem)` on a channel. */
  datatype Envio = Envio(canal: Notificacao, destinatario: string, mensagem: string)

  const MensagemConfirmacao: string := "Seu pedido foi confirmado!"

  predicate Embutido(pagamento: Pagamento)
  {
    !pagamento.OutroPagamento?
  }

  /** `processarPagamento(valor)`: both payment methods of the file accept
      exactly the positive amounts. */
  function ProcessarPagamento(pagamento: Pagamento, valor: real): (sucesso: bool)
    ensures Embutido(pagamento) ==> (sucesso <==> valor > 0.0)
  {
    match pagamento
    case PagamentoCartao => valor > 0.0
    case PagamentoPix => valor > 0.0
    case OutroPagamento(aceita) => aceita(valor)
  }

  /** The notifications one `processarPedido` call sends: one confirmation,
      to the given recipient on the configured channel, exactly when the
      payment succeeds, and none otherwise. */
  function Notificacoes(pagamento: Pagamento, notificacao: Notificacao, valor: real, destinatario: string): (envios: seq<Envio>)
    ensures |envios| <= 1
    ensures |envios| == 1 <==> ProcessarPagamento(pagamento, valor)
    ensures forall e :: e in envios ==> e == Envio(notificacao, destinatario, MensagemConfirmacao)
  {
    if ProcessarPagamento(pagamento, valor) then [Envio(notificacao, destinatario, MensagemConfirmacao)] else []
  }

  /** With either payment method of the file, a confirmation goes out exactly
      when the amount is positive, whatever the channel. */
  lemma NotificaSoComPagamento(pagamento: Pagamento, notificacao: Notificacao, valor: real, destinatario: string)
    requires Embutido(pagamento)
    ensures |Notificacoes(pagamento, notificacao, valor, destinatario)| == if valor > 0.0 then 1 else 0
  {
  }

  class ProcessadorPedido {
    const metodoPagamento: Pagamento
    const metodoNotificacao: Notificacao
    var pedidos: seq<string>

    /** The collaborators are injected here and never reassigned. */
    constructor (metodoPagamento: Pagamento, metodoNotificacao: Notificacao)
      ensures this.metodoPagamento == metodoPagamento
      ensures this.metodoNotificacao == metodoNotificacao
      ensures pedidos == []
    {
      this.metodoPagamento := metodoPagamento;
      this.metodoNotificacao := metodoNotificacao;
      pedidos := [];
    }

    /** `processarPedido`: the order is logged first, unconditionally; then
        the confirmation goes out exactly when the payment succeeds. */
    method ProcessarPedido(pedido: string, valor: real, destinatario: string) returns (envios: seq<Envio>)
      modifies this
      ensures pedidos == old(pedidos) + [pedido]
      ensures envios == Notificacoes(metodoPagamento, metodoNotificacao, valor, destinatario)
    {
      pedidos := pedidos + [pedido];
      var sucesso := ProcessarPagamento(metodoPagamento, valor);
      if sucesso {
        envios := [Envio(metodoNotificacao, destinatario, MensagemConfirmacao)];
      } else {
        envios := [];
      }
    }
  }
}
