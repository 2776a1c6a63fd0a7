/**
 * The vehicles of lpoo/abstracao_advanced.java: a car that burns ten units
 * of fuel per move while it has any and refuels to a full tank, a plane that
 * takes off only once its engines are on, and a bicycle without state. The
 * model and passenger capacity every `Veiculo` receives are never changed.
 */
module AbstracaoAdvanced {

  /** The fuel level after one `Carro.mover`: it never rises, and it stays
      among the levels reachable from a full tank. */
  function NivelAposMover(nivel: int): (r: int)
    ensures r <= nivel
    ensures NivelValido(nivel) ==> NivelValido(r)
  {
    if nivel > 0 then nivel - 10 else nivel
  }

  /** The fuel level after `k` calls of `Carro.mover`. */
  function NivelAposMovimentos(nivel: int, k: nat): int
  {
    if k == 0 then nivel else NivelAposMovimentos(NivelAposMover(nivel), k - 1)
  }

  /** The levels a car can reach from a full tank: multiples of ten from 0 to 100. */
  predicate NivelValido(nivel: int)
  {
    0 <= nivel <= 100 && nivel % 10 == 0
  }

  /** From a reachable level, `k` moves take ten units each until the tank
      is empty; from then on moves change nothing. */
  lemma {:induction false} NivelAposMovimentosFechado(nivel: int, k: nat)
    requires NivelValido(nivel)
    ensures NivelAposMovimentos(nivel, k) == if 10 * k <= nivel then nivel - 10 * k else 0
  {
    if k > 0 {
      NivelAposMovimentosFechado(NivelAposMover(nivel), k - 1);
    }
  }

  /** From a full tank, ten moves empty it and any further moves keep it empty. */
  lemma TanqueCheioEsvaziaEmDezMovimentos(k: nat)
    requires k >= 10
    ensures NivelAposMovimentos(100, k) == 0
  {
    NivelAposMovimentosFechado(100, k);
  }

  class Carro {
    const modelo: string
    const capacidadePassageiros: int
    var nivelCombustivel: int

    ghost predicate Valid()
      reads this
    {
      NivelValido(nivelCombustivel)
    }

    /** A new car starts with a full tank. */
    constructor (modelo: string, capacidade: int)
      ensures Valid()
      ensures this.modelo == modelo && capacidadePassageiros == capacidade
      ensures nivelCombustivel == 100
    {
      this.modelo := modelo;
      capacidadePassageiros := capacidade;
      nivelCombustivel := 100;
    }

    /** `mover`: accelerates, burning ten units, only while there is fuel;
        the result tells which of the two messages is printed. */
    method Mover() returns (acelerou: bool)
      requires Valid()
      modifies this
      ensures Valid()
      ensures acelerou <==> old(nivelCombustivel) > 0
      ensures nivelCombustivel == NivelAposMover(old(nivelCombustivel))
    {
      acelerou := nivelCombustivel > 0;
      if acelerou {
        nivelCombustivel := nivelCombustivel - 10;
      }
    }

    /** `abastecer`: a full tank whatever the level was, so refuelling twice
        is the same as refuelling once. */
    method Abastecer()
      modifies this
      ensures Valid()
      ensures nivelCombustivel == 100
    {
      nivelCombustivel := 100;
    }
  }

  class Aviao {
    const modelo: string
    const capacidadePassageiros: int
    var motorLigado: bool

    /** A new plane has its engines off. */
    constructor (modelo: string, capacidade: int)
      ensures this.modelo == modelo && capacidadePassageiros == capacidade
      ensures !motorLigado
    {
      this.modelo := modelo;
      capacidadePassageiros := capacidade;
      motorLigado := false;
    }

    /** `ligarMotores`: the engines are on afterwards, whatever they were. */
    method LigarMotores()
      modifies this
      ensures motorLigado
    {
      motorLigado := true;
    }

    /** `mover`: changes nothing; the plane takes off exactly when its
        engines are on, and otherwise reports that it cannot. */
    method Mover() returns (decolou: bool)
      ensures decolou <==> motorLigado
    {
      decolou := motorLigado;
    }
  }

  /** `Bicicleta` keeps only the fields every vehicle has; its `mover` and
      `manutencao` only print. */
  class Bicicleta {
    const modelo: string
    const capacidadePassageiros: int

    constructor (modelo: string, capacidade: int)
      ensures this.modelo == modelo && capacidadePassageiros == capacidade
    {
      this.modelo := modelo;
      capacidadePassageiros := capacidade;
    }
  }
}
