/**
 * The wild-park registry of lpoo/resume_advanced.java, the same design as the
 * zoo of lpoo/resume.java: a lazily created `ParqueSelvagem` holding
 * an append-only list of sectors (each owning an append-only list of animals)
 * and an append-only list of staff, a sector lookup wrapped in
 * try/catch/finally, and the animal total of the inner class `Estatisticas`.
 */
module ResumeAdvanced {
  import opened JavaLib
  import opened BuscaSetor

  /** The `Animal` interface. `Leao` is the file's one implementation and
      extends the abstract class `AnimalSelvagem`; `OutroAnimal` stands for
      any other class implementing the interface without extending it. */
  datatype Animal = Leao(nome: string, idade: int) | OutroAnimal(descricao: string)

  predicate EhAnimalSelvagem(a: Animal)
  {
    a.Leao?
  }

  /** `Leao.fazerSom(int intensidade)`: one roar per pass of the counting
      loop; the result is the number of roars. */
  method FazerSomIntensidade(leao: Animal, intensidade: int) returns (rugidos: nat)
    requires leao.Leao?
    ensures rugidos == if intensidade > 0 then intensidade else 0
  {
    rugidos := 0;
    var i := 0;
    while i < intensidade
      invariant 0 <= i <= (if intensidade > 0 then intensidade else 0)
      invariant rugidos == i
    {
      rugidos := rugidos + 1;
      i := i + 1;
    }
  }

  /** `Funcionario`: a name and nothing else; it exists without the park. */
  datatype Funcionario = Funcionario(nome: string)

  /** `Veterinario` holds only its own name. */
  datatype Veterinario = Veterinario(nome: string)

  /** What one examination reports: who examined which animal. */
  datatype Exame = Exame(veterinario: string, examinado: string)

  /** `Veterinario.examinarAnimal`: the argument is cast to `AnimalSelvagem`
      to read its name, so the call is defined only for wild animals. */
  function ExaminarAnimal(vet: Veterinario, animal: Animal): (exame: Exame)
    requires EhAnimalSelvagem(animal)
    ensures exame.veterinario == vet.nome && exame.examinado == animal.nome
  {
    Exame(vet.nome, animal.nome)
  }

  class Setor {
    const nome: string
    var animais: seq<Animal>

    constructor (nome: string)
      ensures this.nome == nome && animais == []
    {
      this.nome := nome;
      animais := [];
    }

    /** `adicionarAnimal`: the only change a sector's list ever sees. */
    method AdicionarAnimal(animal: Animal)
      modifies this
      ensures animais == old(animais) + [animal]
    {
      animais := animais + [animal];
    }

    /** `listarAnimais`: every animal of the sector makes its sound once, in
        insertion order; the result lists the animals that did. */
    method ListarAnimais() returns (sons: seq<Animal>)
      ensures sons == animais
    {
      sons := [];
      for i := 0 to |animais|
        invariant sons == animais[..i]
      {
        sons := sons + [animais[i]];
      }
    }
  }

  /** The animal count of each sector, in registration order: what the
      stream of `Estatisticas.totalAnimais` maps every sector to. */
  function Tamanhos(setores: seq<Setor>): (t: seq<nat>)
    reads setores
    ensures |t| == |setores|
    ensures forall i :: 0 <= i < |setores| ==> t[i] == |setores[i].animais|
  {
    if setores == [] then [] else [|setores[0].animais|] + Tamanhos(setores[1..])
  }

  /** Adding one animal to sector `s` raises the total by the number of
      times `s` is registered: by exactly one when it is registered once. */
  twostate lemma TotalAposAdicionarAnimal(setores: seq<Setor>, s: Setor)
    requires forall t :: t in setores && t != s ==> t.animais == old(t.animais)
    requires |s.animais| == |old(s.animais)| + 1
    ensures SumNat(Tamanhos(setores)) == old(SumNat(Tamanhos(setores))) + multiset(setores)[s]
  {
    SumNatIncrementWhere(old(Tamanhos(setores)), Tamanhos(setores), setores, s);
  }

  /** The test in the loop of `buscarSetor`, as written: `setor.equals(nome)`. */
  predicate SetorEqualsNome(setor: Setor, nome: string)
  {
    JavaEquals(Ref(setor), Texto(nome))
  }

  /** The test the lookup evidently means: the sector's own name. */
  predicate SetorTemNome(setor: Setor, nome: string)
  {
    setor.nome == nome
  }

  /** A sector reference is never equal to a string. */
  lemma SetorNuncaIgualATexto(setor: Setor, nome: string)
    ensures !SetorEqualsNome(setor, nome)
  {
  }

  class ParqueSelvagem {
    var setores: seq<Setor>
    var funcionarios: seq<Funcionario>

    /** The private constructor: both lists start empty. */
    constructor ()
      ensures setores == [] && funcionarios == []
    {
      setores := [];
      funcionarios := [];
    }

    /** `Estatisticas.totalAnimais`: the sum of the sectors' animal counts;
        no sector holds more animals than the total. */
    function TotalAnimais(): (total: nat)
      reads this, setores
      ensures setores == [] ==> total == 0
      ensures forall i :: 0 <= i < |setores| ==> |setores[i].animais| <= total
    {
      SumNat(Tamanhos(setores))
    }

    /** `adicionarSetor`: appends, with no duplicate check; staff untouched. */
    method AdicionarSetor(setor: Setor)
      modifies this
      ensures setores == old(setores) + [setor]
      ensures funcionarios == old(funcionarios)
      ensures TotalAnimais() == old(TotalAnimais()) + |setor.animais|
    {
      assert Tamanhos(setores + [setor]) == Tamanhos(setores) + Tamanhos([setor]);
      SumNatAppend(Tamanhos(setores), Tamanhos([setor]));
      setores := setores + [setor];
    }

    /** `adicionarFuncionario`: appends; sectors untouched. */
    method AdicionarFuncionario(funcionario: Funcionario)
      modifies this
      ensures funcionarios == old(funcionarios) + [funcionario]
      ensures setores == old(setores)
    {
      funcionarios := funcionarios + [funcionario];
    }

    /** The `try` block of `buscarSetor`: the sectors are scanned in order;
        the first one that passes `corresponde` is returned, and when none
        does, `SetorNaoEncontradoException` is thrown. */
    method ProcurarSetor(nome: string, corresponde: (Setor, string) -> bool)
      returns (r: Result<Setor, Erro>)
      ensures r.Success? <==> exists i :: 0 <= i < |setores| && corresponde(setores[i], nome)
      ensures r.Success? ==> exists i :: PrimeiraCorrespondencia(setores, nome, corresponde, i) && r.value == setores[i]
      ensures r.Failure? ==> r.error == SetorNaoEncontrado
    {
      var i := 0;
      while i < |setores|
        invariant 0 <= i <= |setores|
        invariant forall j :: 0 <= j < i ==> !corresponde(setores[j], nome)
      {
        if corresponde(setores[i], nome) {
          assert PrimeiraCorrespondencia(setores, nome, corresponde, i);
          return Success(setores[i]);
        }
        i := i + 1;
      }
      r := Failure(SetorNaoEncontrado);
    }

    /** `buscarSetor` as written. `setor.equals(nome)` never holds, so every
        call, whatever the registered sectors, reports "not found" and then
        the finishing notice; the exception never escapes. */
    method BuscarSetor(nome: string) returns (relato: seq<Evento>)
      ensures relato == [ErroReportado(SetorNaoEncontrado), BuscaFinalizada]
    {
      var r := ProcurarSetor(nome, SetorEqualsNome);
      relato := Relato(r, nome);
    }

    /** `buscarSetor` comparing each sector's name: the first sector named
        `nome` is found; the error is reported only when no sector has it. */
    method BuscarSetorPorNome(nome: string) returns (r: Result<Setor, Erro>, relato: seq<Evento>)
      ensures r.Success? ==> exists i :: PrimeiraCorrespondencia(setores, nome, SetorTemNome, i) && r.value == setores[i]
      ensures r.Failure? <==> forall i :: 0 <= i < |setores| ==> setores[i].nome != nome
      ensures relato == Relato(r, nome)
    {
      r := ProcurarSetor(nome, SetorTemNome);
      relato := Relato(r, nome);
    }

    /** `listarFuncionarios`: every staff member works once, in order; the
        result lists them. */
    method ListarFuncionarios() returns (trabalharam: seq<Funcionario>)
      ensures trabalharam == funcionarios
    {
      trabalharam := [];
      for i := 0 to |funcionarios|
        invariant trabalharam == funcionarios[..i]
      {
        trabalharam := trabalharam + [funcionarios[i]];
      }
    }
  }

  /** The static field `ParqueSelvagem.instancia`, held as an explicit object:
      null until the first `getInstancia`, then fixed for good. */
  class ParqueSelvagemEstatico {
    var instancia: ParqueSelvagem?

    constructor ()
      ensures instancia == null
    {
      instancia := null;
    }

    /** `getInstancia`: creates the park on the first call only, and returns
        the one stored instance on every call. */
    method GetInstancia() returns (parque: ParqueSelvagem)
      modifies this
      ensures instancia == parque
      ensures old(instancia) != null ==> parque == old(instancia)
      ensures old(instancia) == null ==> fresh(parque) && parque.setores == [] && parque.funcionarios == []
    {
      if instancia == null {
        instancia := new ParqueSelvagem();
      }
      parque := instancia;
    }
  }

  /** Two calls of `getInstancia` hand out the same object, so a change made
      through one handle is seen through the other. */
  method GetInstanciaDuasVezes(estatico: ParqueSelvagemEstatico) returns (a: ParqueSelvagem, b: ParqueSelvagem)
    modifies estatico
    ensures a == b && estatico.instancia == a
  {
    a := estatico.GetInstancia();
    b := estatico.GetInstancia();
  }

  /** A park with one sector "Aves" holding one animal: the name lookup finds
      the sector, while `buscarSetor` as written reports it missing. */
  method ContraExemploBuscarSetor() returns (parque: ParqueSelvagem, total: nat,
                                             porNome: Result<Setor, Erro>, comoEscrito: seq<Evento>)
    ensures |parque.setores| == 1 && parque.setores[0].nome == "Aves"
    ensures total == 1
    ensures porNome == Success(parque.setores[0])
    ensures comoEscrito == [ErroReportado(SetorNaoEncontrado), BuscaFinalizada]
  {
    var estatico := new ParqueSelvagemEstatico();
    parque := estatico.GetInstancia();
    var aves := new Setor("Aves");
    parque.AdicionarSetor(aves);
    aves.AdicionarAnimal(Leao("Simba", 5));
    total := parque.TotalAnimais();
    assert Tamanhos(parque.setores) == [1];
    var relato;
    porNome, relato := parque.BuscarSetorPorNome("Aves");
    comoEscrito := parque.BuscarSetor("Aves");
  }
}
