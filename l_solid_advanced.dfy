/**
 * The vehicles of solid/L_solid_advanced.java. The abstract class `Veiculo`
 * and its subclasses `Carro`, `CarroEletrico` (a `Carro` that must be charged
 * first) and `Trem` (which refuses increments above 20) share a name and a
 * speed; the subclass is the constant `tipo` of one Dafny class, and `mover`
 * dispatches on it. `Bicicleta` implements `Movivel` without any speed.
 */
module SolidL {

  datatype Tipo = Carro | CarroEletrico | Trem

  /** The speed after `mover(v)`, for each subclass. Every subclass either
      takes the whole increment or keeps its speed, and a plain `Carro`
      always takes it. */
  function VelocidadeAposMover(tipo: Tipo, carregado: bool, velocidade: real, v: real): (r: real)
    ensures r == velocidade || r == velocidade + v
    ensures tipo == Carro ==> r == velocidade + v
  {
    match tipo
    case Carro => velocidade + v
    case CarroEletrico => if carregado then velocidade + v else velocidade
    case Trem => if v > 20.0 then velocidade else velocidade + v
  }

  /** A charged electric car moves exactly as a `Carro` does (it calls
      `super.mover`); an uncharged one keeps its speed. */
  lemma EletricoCarregadoMoveComoCarro(velocidade: real, v: real)
    ensures VelocidadeAposMover(CarroEletrico, true, velocidade, v) == VelocidadeAposMover(Carro, false, velocidade, v)
    ensures VelocidadeAposMover(CarroEletrico, false, velocidade, v) == velocidade
  {
  }

  /** A train adds every increment up to and including 20 and ignores larger ones. */
  lemma TremLimitaIncremento(carregado: bool, velocidade: real, v: real)
    ensures v <= 20.0 ==> VelocidadeAposMover(Trem, carregado, velocidade, v) == velocidade + v
    ensures v > 20.0 ==> VelocidadeAposMover(Trem, carregado, velocidade, v) == velocidade
  {
  }

  class Veiculo {
    const nome: string
    const tipo: Tipo
    var velocidade: real
    /** The battery flag, a field of `CarroEletrico` only. */
    var carregado: bool

    /** Every vehicle starts at rest, and an electric car starts uncharged. */
    constructor (nome: string, tipo: Tipo)
      ensures this.nome == nome && this.tipo == tipo
      ensures velocidade == 0.0 && !carregado
    {
      this.nome := nome;
      this.tipo := tipo;
      velocidade := 0.0;
      carregado := false;
    }

    method GetNome() returns (n: string)
      ensures n == nome
    {
      n := nome;
    }

    /** `parar`: the speed is 0 afterwards, whatever it was. */
    method Parar()
      modifies this
      ensures velocidade == 0.0 && carregado == old(carregado)
    {
      velocidade := 0.0;
    }

    /** `CarroEletrico.carregarBateria`: sets the flag; nothing clears it. */
    method CarregarBateria()
      requires tipo == CarroEletrico
      modifies this
      ensures carregado && velocidade == old(velocidade)
    {
      carregado := true;
    }

    /** `mover(v)` as each subclass overrides it. */
    method Mover(v: real)
      modifies this
      ensures velocidade == VelocidadeAposMover(tipo, old(carregado), old(velocidade), v)
      ensures carregado == old(carregado)
    {
      match tipo
      case Carro =>
        velocidade := velocidade + v;
      case CarroEletrico =>
        if !carregado {
          return;
        }
        velocidade := velocidade + v;
      case Trem =>
        if v > 20.0 {
          return;
        }
        velocidade := velocidade + v;
    }
  }

  /** `Bicicleta` implements `Movivel` with a name only: its `mover` and
      `parar` print and change nothing. */
  class Bicicleta {
    const nome: string

    constructor (nome: string)
      ensures this.nome == nome
    {
      this.nome := nome;
    }

    method Mover(velocidade: real)
    {
    }

    method Parar()
    {
    }
  }
}
