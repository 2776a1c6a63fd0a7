/**
 * The person of lpoo/encapsulamento.java: two private fields behind getters
 * and setters, where only the age setter validates its argument.
 */
module Encapsulamento {

  class Pessoa {
    var nome: string
    var idade: int

    /** The constructor stores both arguments as given, without validation. */
    constructor (nome: string, idade: int)
      ensures this.nome == nome && this.idade == idade
    {
      this.nome := nome;
      this.idade := idade;
    }

    method GetNome() returns (n: string)
      ensures n == nome
    {
      n := nome;
    }

    method GetIdade() returns (i: int)
      ensures i == idade
    {
      i := idade;
    }

    /** `setNome` overwrites the name, whatever it is; the age is kept. */
    method SetNome(nome: string)
      modifies this
      ensures this.nome == nome && idade == old(idade)
    {
      this.nome := nome;
    }

    /** `setIdade` accepts only a positive age and otherwise keeps the old
        one, so a positive age stays positive. */
    method SetIdade(idade: int)
      modifies this
      ensures this.idade == if idade > 0 then idade else old(this.idade)
      ensures old(this.idade) > 0 ==> this.idade > 0
      ensures nome == old(nome)
    {
      if idade > 0 {
        this.idade := idade;
      }
    }
  }

  /** Because the constructor does not validate, a person can start with an
      age that `setIdade` would refuse, and a refused `setIdade` keeps it. */
  method IdadeInvalidaPelaConstrucao() returns (p: Pessoa, depois: int)
    ensures p.idade <= 0 && depois == p.idade
  {
    p := new Pessoa("Carlos", -5);
    p.SetIdade(0);
    depois := p.GetIdade();
  }
}
