/**
 * solid/L_solid_advanced_errado.java holds two hierarchies of vehicles. The
 * first, `SolidLErradoAntigo`, has one concrete `Veiculo` whose subclasses
 * throw `UnsupportedOperationException` from `acelerar`; the second,
 * `SolidLErradoCorrigido`, has `mover` methods that refuse silently and
 * never throw.
 */
module SolidLErradoAntigo {
  import opened JavaLib

  /** `Veiculo` itself and its three subclasses. */
  datatype Tipo = Veiculo | Bicicleta | CarroEletrico | Trem

  datatype Excecao = UnsupportedOperationException

  /** What `acelerar(aumento)` does for each class: the new speed, or the
      exception it throws. */
  function ResultadoAcelerar(tipo: Tipo, carregado: bool, velocidade: real, aumento: real): (r: Result<real, Excecao>)
    ensures r.Success? ==> r.value == velocidade + aumento
  {
    match tipo
    case Veiculo => Success(velocidade + aumento)
    case Bicicleta => Failure(UnsupportedOperationException)
    case CarroEletrico => if !carregado then Failure(UnsupportedOperationException) else Success(velocidade + aumento)
    case Trem => if aumento > 20.0 then Failure(UnsupportedOperationException) else Success(velocidade + aumento)
  }

  /** Which calls throw: a bicycle always, an uncharged electric car always,
      a train for increments above 20, a plain `Veiculo` never. */
  lemma AcelerarFalhaQuando(tipo: Tipo, carregado: bool, velocidade: real, aumento: real)
    ensures ResultadoAcelerar(tipo, carregado, velocidade, aumento).Failure? <==>
              match tipo
              case Veiculo => false
              case Bicicleta => true
              case CarroEletrico => !carregado
              case Trem => aumento > 20.0
  {
  }

  class Veiculo {
    const nome: string
    const tipo: Tipo
    var velocidade: real
    /** The battery flag, a field of `CarroEletrico` only. */
    var carregado: bool

    constructor (nome: string, tipo: Tipo)
      ensures this.nome == nome && this.tipo == tipo
      ensures velocidade == 0.0 && !carregado
    {
      this.nome := nome;
      this.tipo := tipo;
      velocidade := 0.0;
      carregado := false;
    }

    /** `acelerar`: either adds `aumento` to the speed or throws, in which
        case the speed is unchanged. */
    method Acelerar(aumento: real) returns (r: Outcome<Excecao>)
      modifies this
      ensures r.Fail? <==> ResultadoAcelerar(tipo, old(carregado), old(velocidade), aumento).Failure?
      ensures velocidade == if r.Pass? then old(velocidade) + aumento else old(velocidade)
      ensures carregado == old(carregado)
    {
      if tipo == Bicicleta {
        return Fail(UnsupportedOperationException);
      }
      if tipo == CarroEletrico && !carregado {
        return Fail(UnsupportedOperationException);
      }
      if tipo == Trem && aumento > 20.0 {
        return Fail(UnsupportedOperationException);
      }
      velocidade := velocidade + aumento;
      r := Pass;
    }

    /** `frear`: the speed is 0 afterwards, for every class (a bicycle too). */
    method Frear()
      modifies this
      ensures velocidade == 0.0 && carregado == old(carregado)
    {
      velocidade := 0.0;
    }

    /** `CarroEletrico.carregarBateria`: sets the flag; nothing clears it. */
    method CarregarBateria()
      requires tipo == CarroEletrico
      modifies this
      ensures carregado && velocidade == old(velocidade)
    {
      carregado := true;
    }
  }
}

module SolidLErradoCorrigido {
  import Antigo = SolidLErradoAntigo

  /** The subclasses of `VeiculoMotorizado`; `CarroEletrico` extends it
      directly here, not through `Carro`. */
  datatype Tipo = Carro | CarroEletrico | Trem

  /** The speed after `mover(v)`, for each subclass. Every subclass either
      takes the whole increment or keeps its speed, and a plain `Carro`
      always takes it. */
  function VelocidadeAposMover(tipo: Tipo, carregado: bool, velocidade: real, v: real): (r: real)
    ensures r == velocidade || r == velocidade + v
    ensures tipo == Carro ==> r == velocidade + v
  {
    match tipo
    case Carro => velocidade + v
    case CarroEletrico => if carregado then velocidade + v else velocidade
    case Trem => if v > 20.0 then velocidade else velocidade + v
  }

  /** The class of the first hierarchy that each class replaces. */
  function Substituido(tipo: Tipo): Antigo.Tipo
  {
    match tipo
    case Carro => Antigo.Veiculo
    case CarroEletrico => Antigo.CarroEletrico
    case Trem => Antigo.Trem
  }

  /** Where the old `acelerar` succeeded, `mover` reaches the same speed;
      where it threw, `mover` keeps the speed instead. */
  lemma MoverRecusaOndeAcelerarFalhava(tipo: Tipo, carregado: bool, velocidade: real, v: real)
    ensures VelocidadeAposMover(tipo, carregado, velocidade, v) ==
              match Antigo.ResultadoAcelerar(Substituido(tipo), carregado, velocidade, v)
              case Success(nova) => nova
              case Failure(_) => velocidade
  {
  }

  class VeiculoMotorizado {
    const nome: string
    const tipo: Tipo
    var velocidade: real
    /** The battery flag, a field of `CarroEletrico` only. */
    var carregado: bool

    constructor (nome: string, tipo: Tipo)
      ensures this.nome == nome && this.tipo == tipo
      ensures velocidade == 0.0 && !carregado
    {
      this.nome := nome;
      this.tipo := tipo;
      velocidade := 0.0;
      carregado := false;
    }

    /** `parar`: the speed is 0 afterwards, whatever it was. */
    method Parar()
      modifies this
      ensures velocidade == 0.0 && carregado == old(carregado)
    {
      velocidade := 0.0;
    }

    /** `CarroEletrico.carregarBateria`: sets the flag; nothing clears it. */
    method CarregarBateria()
      requires tipo == CarroEletrico
      modifies this
      ensures carregado && velocidade == old(velocidade)
    {
      carregado := true;
    }

    /** `mover(v)` as each subclass overrides it: it always returns normally. */
    method Mover(v: real)
      modifies this
      ensures velocidade == VelocidadeAposMover(tipo, old(carregado), old(velocidade), v)
      ensures carregado == old(carregado)
    {
      match tipo
      case Carro =>
        velocidade := velocidade + v;
      case CarroEletrico =>
        if !carregado {
          return;
        }
        velocidade := velocidade + v;
      case Trem =>
        if v > 20.0 {
          return;
        }
        velocidade := velocidade + v;
    }
  }

  /** `Bicicleta extends VeiculoNaoMotorizado`: a name and no speed; its
      `mover` and `parar` print and change nothing. */
  class Bicicleta {
    const nome: string

    constructor (nome: string)
      ensures this.nome == nome
    {
      this.nome := nome;
    }

    method Mover(velocidade: real)
    {
    }

    method Parar()
    {
    }
  }
}
