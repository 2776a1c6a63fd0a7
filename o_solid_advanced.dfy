/**
 * The tax calculator of solid/O_solid_advanced.java: one rule per country,
 * looked up by the lower-cased country name in a map that new rules can
 * extend or overwrite. The three built-in rules multiply the price by a rate
 * taken from a fixed per-category table, or by the country's default rate.
 * An unknown country raises `IllegalArgumentException`.
 */
module SolidO {
  import opened JavaLib

  /** The static rate tables of `ImpostoBrasil`, `ImpostoEUA` and `ImpostoEuropa`. */
  const TaxasBrasil: map<string, real> := map["eletronico" := 0.30, "livro" := 0.10, "alimento" := 0.05]
  const TaxasEUA: map<string, real> := map["eletronico" := 0.25, "livro" := 0.08, "alimento" := 0.02]
  const TaxasEuropa: map<string, real> := map["eletronico" := 0.40, "livro" := 0.12, "alimento" := 0.07]

  /** A `RegraDeImposto`: one of the three built-in classes, or any other
      implementation (a lambda, say) given as its `calcular` function. */
  datatype Regra =
    | ImpostoBrasil
    | ImpostoEUA
    | ImpostoEuropa
    | RegraPersonalizada(calcular: (string, real) -> real)

  /** `regra.calcular(categoria, preco)`. On a non-negative price a built-in
      rule charges between nothing and 40% of the price, whatever the
      category. */
  function Calcular(regra: Regra, categoria: string, preco: real): (imposto: real)
    ensures Embutida(regra) && preco >= 0.0 ==> 0.0 <= imposto <= preco * 0.40
  {
    match regra
    case ImpostoBrasil => preco * GetOrDefault(TaxasBrasil, categoria, 0.15)
    case ImpostoEUA => preco * GetOrDefault(TaxasEUA, categoria, 0.10)
    case ImpostoEuropa => preco * GetOrDefault(TaxasEuropa, categoria, 0.20)
    case RegraPersonalizada(f) => f(categoria, preco)
  }

  predicate Embutida(regra: Regra)
  {
    !regra.RegraPersonalizada?
  }

  /** The rate each built-in rule applies: its table's rate for the three
      categories it lists, and its default rate for every other category. */
  lemma TaxasDasRegrasEmbutidas(categoria: string, preco: real)
    ensures Calcular(ImpostoBrasil, categoria, preco) == preco *
              (if categoria == "eletronico" then 0.30 else if categoria == "livro" then 0.10
               else if categoria == "alimento" then 0.05 else 0.15)
    ensures Calcular(ImpostoEUA, categoria, preco) == preco *
              (if categoria == "eletronico" then 0.25 else if categoria == "livro" then 0.08
               else if categoria == "alimento" then 0.02 else 0.10)
    ensures Calcular(ImpostoEuropa, categoria, preco) == preco *
              (if categoria == "eletronico" then 0.40 else if categoria == "livro" then 0.12
               else if categoria == "alimento" then 0.07 else 0.20)
  {
  }

  /** The category is matched exactly: a category spelt with a capital
      letter falls back to the default rate. */
  lemma CategoriaDiferenciaMaiusculas(preco: real)
    ensures Calcular(ImpostoBrasil, "Eletronico", preco) == preco * 0.15
    ensures Calcular(ImpostoBrasil, "eletronico", preco) == preco * 0.30
  {
    assert "Eletronico"[0] != "eletronico"[0];
  }

  /** A built-in rule charges nothing on a price of zero, whatever the category. */
  lemma ImpostoZeroSemPreco(regra: Regra, categoria: string)
    requires Embutida(regra)
    ensures Calcular(regra, categoria, 0.0) == 0.0
  {
  }

  /** The rules a new `CalculadoraImposto` holds. */
  function RegrasIniciais(): map<string, Regra>
  {
    map["brasil" := ImpostoBrasil, "eua" := ImpostoEUA, "europa" := ImpostoEuropa]
  }

  datatype Erro = IllegalArgumentException

  /** `calcularImposto` against the map `regras`: it fails exactly for a
      country without a rule under its lower-cased name, and otherwise
      applies that rule. */
  function ImpostoPara(regras: map<string, Regra>, pais: string, categoria: string, preco: real): (r: Result<real, Erro>)
    ensures r.Failure? <==> ToLowerCase(pais) !in regras
    ensures r.Failure? ==> r.error == IllegalArgumentException
    ensures r.Success? ==> r.value == Calcular(regras[ToLowerCase(pais)], categoria, preco)
  {
    var chave := ToLowerCase(pais);
    if chave in regras then Success(Calcular(regras[chave], categoria, preco))
    else Failure(IllegalArgumentException)
  }

  /** Two spellings of a country that are equal ignoring case give the same
      answer, error included. */
  lemma PaisSemDiferencaDeCaixa(regras: map<string, Regra>, pais: string, outro: string, categoria: string, preco: real)
    requires EqualsIgnoreCase(pais, outro)
    ensures ImpostoPara(regras, pais, categoria, preco) == ImpostoPara(regras, outro, categoria, preco)
  {
    EqualsIgnoreCaseIffSameLowerCase(pais, outro);
  }

  /** After `adicionarRegra(pais, regra)`, every spelling of `pais` uses the
      new rule, overwriting any earlier one, and every other country gets
      the answer it got before. */
  lemma AdicionarRegraSoMudaOPais(regras: map<string, Regra>, pais: string, regra: Regra, outro: string, categoria: string, preco: real)
    ensures ImpostoPara(regras[ToLowerCase(pais) := regra], outro, categoria, preco) ==
              if ToLowerCase(outro) == ToLowerCase(pais) then Success(Calcular(regra, categoria, preco))
              else ImpostoPara(regras, outro, categoria, preco)
  {
  }

  /** A new calculator knows exactly Brasil, EUA and Europa, in any spelling. */
  lemma RegrasIniciaisSuportam(pais: string, categoria: string, preco: real)
    ensures ImpostoPara(RegrasIniciais(), pais, categoria, preco).Success? <==>
              EqualsIgnoreCase(pais, "brasil") || EqualsIgnoreCase(pais, "eua") || EqualsIgnoreCase(pais, "europa")
  {
    EqualsIgnoreCaseLowerLiteral(pais, "brasil");
    EqualsIgnoreCaseLowerLiteral(pais, "eua");
    EqualsIgnoreCaseLowerLiteral(pais, "europa");
  }

  class CalculadoraImposto {
    var regras: map<string, Regra>

    /** Every key is stored lower-cased, since every lookup lower-cases. */
    ghost predicate Valid()
      reads this
    {
      forall pais :: pais in regras ==> ToLowerCase(pais) == pais
    }

    constructor ()
      ensures Valid()
      ensures regras == RegrasIniciais()
    {
      regras := RegrasIniciais();
      new;
      LowerCaseLiteral("brasil");
      LowerCaseLiteral("eua");
      LowerCaseLiteral("europa");
    }

    /** `adicionarRegra`: the rule is stored under the lower-cased name,
        replacing any rule already there; the other entries stay. */
    method AdicionarRegra(pais: string, regra: Regra)
      requires Valid()
      modifies this
      ensures Valid()
      ensures regras == old(regras)[ToLowerCase(pais) := regra]
    {
      ToLowerCaseIdempotent(pais);
      regras := regras[ToLowerCase(pais) := regra];
    }

    /** `calcularImposto`: the country's rule applied, or the exception for
        a country without one. */
    method CalcularImposto(pais: string, categoria: string, preco: real) returns (r: Result<real, Erro>)
      ensures r == ImpostoPara(regras, pais, categoria, preco)
    {
      var chave := ToLowerCase(pais);
      if chave !in regras {
        return Failure(IllegalArgumentException);
      }
      var regra := regras[chave];
      r := Success(Calcular(regra, categoria, preco));
    }
  }
}
