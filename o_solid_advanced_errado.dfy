/**
 * The tax calculator of solid/O_solid_advanced_errado.java: three static
 * rate tables and an if-chain over the country name, compared with
 * `equalsIgnoreCase`. An unsupported country yields a tax of 0 instead of
 * an error, and `adicionarNovoPais` can only change the three known tables.
 * The static tables are one `Tabelas` object that every calculator shares.
 */
module SolidOErrado {
  import opened JavaLib
  import SolidO

  /** The countries the if-chain knows. */
  datatype Pais = Brasil | EUA | Europa

  /** The branch of the if-chain that `pais` takes, if any: a country is
      supported exactly when its lower-cased name is one of the three keys,
      and the branch taken is that key's. */
  function PaisSuportado(pais: string): (r: Option<Pais>)
    ensures r == Some(Brasil) <==> ToLowerCase(pais) == "brasil"
    ensures r == Some(EUA) <==> ToLowerCase(pais) == "eua"
    ensures r == Some(Europa) <==> ToLowerCase(pais) == "europa"
    ensures r == None <==> ToLowerCase(pais) !in {"brasil", "eua", "europa"}
  {
    EqualsIgnoreCaseLowerLiteral(pais, "brasil");
    EqualsIgnoreCaseLowerLiteral(pais, "eua");
    EqualsIgnoreCaseLowerLiteral(pais, "europa");
    if EqualsIgnoreCase(pais, "brasil") then Some(Brasil)
    else if EqualsIgnoreCase(pais, "eua") then Some(EUA)
    else if EqualsIgnoreCase(pais, "europa") then Some(Europa)
    else None
  }

  /** The default rate of each country. */
  function TaxaPadrao(p: Pais): real
  {
    match p
    case Brasil => 0.15
    case EUA => 0.10
    case Europa => 0.20
  }

  /** The three static maps. */
  class Tabelas {
    var impostosBrasil: map<string, real>
    var impostosEUA: map<string, real>
    var impostosEuropa: map<string, real>

    /** The static initialiser. */
    constructor ()
      ensures impostosBrasil == SolidO.TaxasBrasil
      ensures impostosEUA == SolidO.TaxasEUA
      ensures impostosEuropa == SolidO.TaxasEuropa
    {
      impostosBrasil := SolidO.TaxasBrasil;
      impostosEUA := SolidO.TaxasEUA;
      impostosEuropa := SolidO.TaxasEuropa;
    }

    function Tabela(p: Pais): map<string, real>
      reads this
    {
      match p
      case Brasil => impostosBrasil
      case EUA => impostosEUA
      case Europa => impostosEuropa
    }

    /** `calcularImposto` against the current tables: nothing for an
        unsupported country, and nothing on a price of zero, whatever rates
        the tables hold. */
    function Imposto(pais: string, categoria: string, preco: real): (r: real)
      reads this
      ensures PaisSuportado(pais).None? ==> r == 0.0
      ensures preco == 0.0 ==> r == 0.0
    {
      match PaisSuportado(pais)
      case None => 0.0
      case Some(p) => preco * GetOrDefault(Tabela(p), categoria, TaxaPadrao(p))
    }
  }

  /** With the tables as the static initialiser leaves them, every country
      gets the tax that solid/O_solid_advanced.java computes with its three
      built-in rules, except that an unsupported country gets 0 where that
      calculator throws. */
  lemma ConcordaComRegrasIniciais(t: Tabelas, pais: string, categoria: string, preco: real)
    requires t.impostosBrasil == SolidO.TaxasBrasil
    requires t.impostosEUA == SolidO.TaxasEUA
    requires t.impostosEuropa == SolidO.TaxasEuropa
    ensures t.Imposto(pais, categoria, preco) ==
              match SolidO.ImpostoPara(SolidO.RegrasIniciais(), pais, categoria, preco)
              case Success(v) => v
              case Failure(_) => 0.0
  {
    var regras := SolidO.RegrasIniciais();
    var chave := ToLowerCase(pais);
    match PaisSuportado(pais)
    case None =>
      assert chave !in regras;
    case Some(p) =>
      assert chave in regras;
  }

  class CalculadoraImposto {
    /** The static tables, shared by every instance. */
    const tabelas: Tabelas

    constructor (tabelas: Tabelas)
      ensures this.tabelas == tabelas
    {
      this.tabelas := tabelas;
    }

    /** `calcularImposto`: the country's rate for the category (or its
        default) times the price, and 0 for an unsupported country. */
    method CalcularImposto(pais: string, categoria: string, preco: real) returns (imposto: real)
      ensures imposto == tabelas.Imposto(pais, categoria, preco)
      ensures PaisSuportado(pais).None? ==> imposto == 0.0
    {
      var taxa := 0.0;
      if EqualsIgnoreCase(pais, "brasil") {
        taxa := GetOrDefault(tabelas.impostosBrasil, categoria, 0.15);
      } else if EqualsIgnoreCase(pais, "eua") {
        taxa := GetOrDefault(tabelas.impostosEUA, categoria, 0.10);
      } else if EqualsIgnoreCase(pais, "europa") {
        taxa := GetOrDefault(tabelas.impostosEuropa, categoria, 0.20);
      } else {
        return 0.0;
      }
      imposto := preco * taxa;
    }

    /** `adicionarNovoPais`: for a supported country, sets or overwrites the
        one category rate in that country's table; the other tables and
        categories stay. For any other country nothing changes. */
    method AdicionarNovoPais(pais: string, categoria: string, taxa: real)
      modifies tabelas
      ensures PaisSuportado(pais).None? ==>
                tabelas.impostosBrasil == old(tabelas.impostosBrasil) &&
                tabelas.impostosEUA == old(tabelas.impostosEUA) &&
                tabelas.impostosEuropa == old(tabelas.impostosEuropa)
      ensures forall p: Pais ::
                tabelas.Tabela(p) ==
                  if PaisSuportado(pais) == Some(p) then old(tabelas.Tabela(p))[categoria := taxa]
                  else old(tabelas.Tabela(p))
    {
      if EqualsIgnoreCase(pais, "brasil") {
        tabelas.impostosBrasil := tabelas.impostosBrasil[categoria := taxa];
      } else if EqualsIgnoreCase(pais, "eua") {
        tabelas.impostosEUA := tabelas.impostosEUA[categoria := taxa];
      } else if EqualsIgnoreCase(pais, "europa") {
        tabelas.impostosEuropa := tabelas.impostosEuropa[categoria := taxa];
      }
    }
  }

  /** The tables are static: a rate set through one calculator is what
      another calculator then charges. */
  method TabelasCompartilhadas() returns (antes: real, depois: real)
    ensures antes == 10.0 && depois == 20.0
  {
    var tabelas := new Tabelas();
    var a := new CalculadoraImposto(tabelas);
    var b := new CalculadoraImposto(tabelas);
    assert ToLowerCase("Brasil") == "brasil";
    antes := b.CalcularImposto("Brasil", "livro", 100.0);
    a.AdicionarNovoPais("brasil", "livro", 0.20);
    LowerCaseLiteral("brasil");
    depois := b.CalcularImposto("Brasil", "livro", 100.0);
  }
}
