/**
 * The bank account of lpoo/encapsulamento_advanced.java: a balance that the
 * guarded operations keep non-negative, a holder that can only be replaced
 * by a non-empty name, and a transaction history that only grows.
 */
module EncapsulamentoAdvanced {
  import opened JavaLib

  /** One entry of the history. The entry texts are left out; each entry
      records what happened and the amounts involved. */
  datatype Transacao =
    | ContaCriada(saldoInicial: real)
    | TitularAlterado(novoTitular: string)
    | Deposito(valor: real)
    | Saque(valor: real)
    | Transferencia(valor: real, destinatario: Option<string>)

  class ContaBancaria {
    /** A Java `String` reference: `None` is `null`. */
    var titular: Option<string>
    var saldo: real
    var transacoes: seq<Transacao>

    /** The object invariant: the balance is never negative and the history
        opens with the account's creation. */
    ghost predicate Valid()
      reads this
    {
      saldo >= 0.0 && |transacoes| >= 1 && transacoes[0].ContaCriada?
    }

    /** The constructor: a non-positive opening balance becomes 0, and the
        creation is the first history entry. */
    constructor (titular: Option<string>, saldoInicial: real)
      ensures Valid()
      ensures this.titular == titular
      ensures saldo == if saldoInicial > 0.0 then saldoInicial else 0.0
      ensures transacoes == [ContaCriada(saldo)]
    {
      this.titular := titular;
      saldo := if saldoInicial > 0.0 then saldoInicial else 0.0;
      transacoes := [];
      new;
      RegistrarTransacao(ContaCriada(saldo));
    }

    /** `registrarTransacao`: the one way the history changes, an append. */
    method RegistrarTransacao(transacao: Transacao)
      modifies this
      ensures transacoes == old(transacoes) + [transacao]
      ensures saldo == old(saldo) && titular == old(titular)
    {
      transacoes := transacoes + [transacao];
    }

    method GetSaldo() returns (s: real)
      ensures s == saldo
    {
      s := saldo;
    }

    method GetTitular() returns (t: Option<string>)
      ensures t == titular
    {
      t := titular;
    }

    /** `setTitular`: a null or empty name is refused and changes nothing;
        any other name replaces the holder and is recorded. */
    method SetTitular(novoTitular: Option<string>)
      requires Valid()
      modifies this
      ensures Valid()
      ensures saldo == old(saldo)
      ensures novoTitular == None || novoTitular == Some("") ==>
                titular == old(titular) && transacoes == old(transacoes)
      ensures novoTitular.Some? && novoTitular.value != "" ==>
                titular == novoTitular && transacoes == old(transacoes) + [TitularAlterado(novoTitular.value)]
    {
      if novoTitular.None? || novoTitular.value == "" {
        return;
      }
      titular := novoTitular;
      RegistrarTransacao(TitularAlterado(novoTitular.value));
    }

    /** `depositar`: a non-positive amount is refused and changes nothing;
        otherwise the balance rises by the amount and one entry is added. */
    method Depositar(valor: real)
      requires Valid()
      modifies this
      ensures Valid()
      ensures titular == old(titular)
      ensures valor <= 0.0 ==> saldo == old(saldo) && transacoes == old(transacoes)
      ensures valor > 0.0 ==> saldo == old(saldo) + valor && transacoes == old(transacoes) + [Deposito(valor)]
    {
      if valor <= 0.0 {
        return;
      }
      saldo := saldo + valor;
      RegistrarTransacao(Deposito(valor));
    }

    /** `sacar`: succeeds exactly when the amount is positive and covered by
        the balance; only then the balance drops and one entry is added. */
    method Sacar(valor: real) returns (ok: bool)
      requires Valid()
      modifies this
      ensures Valid()
      ensures ok <==> 0.0 < valor <= old(saldo)
      ensures titular == old(titular)
      ensures !ok ==> saldo == old(saldo) && transacoes == old(transacoes)
      ensures ok ==> saldo == old(saldo) - valor && transacoes == old(transacoes) + [Saque(valor)]
    {
      if valor <= 0.0 {
        return false;
      }
      if valor > saldo {
        return false;
      }
      saldo := saldo - valor;
      RegistrarTransacao(Saque(valor));
      return true;
    }

    /** `transferir`: a withdrawal here followed, when it succeeds, by a
        deposit into `destino` and a transfer entry here. Between two
        accounts the sum of the balances is kept; on failure neither account
        changes. A transfer to the same account leaves its balance as it was
        and adds three entries. */
    method Transferir(destino: ContaBancaria, valor: real) returns (ok: bool)
      requires Valid() && destino.Valid()
      modifies this, destino
      ensures Valid() && destino.Valid()
      ensures ok <==> 0.0 < valor <= old(saldo)
      ensures titular == old(titular) && destino.titular == old(destino.titular)
      ensures destino != this ==> saldo + destino.saldo == old(saldo + destino.saldo)
      ensures destino != this && ok ==>
                saldo == old(saldo) - valor && destino.saldo == old(destino.saldo) + valor &&
                transacoes == old(transacoes) + [Saque(valor), Transferencia(valor, destino.titular)] &&
                destino.transacoes == old(destino.transacoes) + [Deposito(valor)]
      ensures !ok ==>
                saldo == old(saldo) && transacoes == old(transacoes) &&
                destino.saldo == old(destino.saldo) && destino.transacoes == old(destino.transacoes)
      ensures destino == this && ok ==>
                saldo == old(saldo) &&
                transacoes == old(transacoes) + [Saque(valor), Deposito(valor), Transferencia(valor, titular)]
    {
      ok := Sacar(valor);
      if ok {
        destino.Depositar(valor);
        RegistrarTransacao(Transferencia(valor, destino.titular));
      }
    }
  }
}
