/**
 * The clinic of solid/S_solid_advanced.java, split into one class per
 * responsibility: a patient register, an appointment book keyed by the text
 * `nome + " - " + data`, a payment ledger with its total, and a report
 * generator. Printed confirmations are left out; the reports return the
 * lines they would print.
 */
module SolidS {
  import opened JavaLib

  datatype Paciente = Paciente(nome: string, cpf: string, telefone: string)

  /** The text under which an appointment is stored and looked up: the
      name, then the separator " - ", then the date. */
  function ChaveConsulta(pacienteNome: string, data: string): (chave: string)
    ensures |chave| == |pacienteNome| + 3 + |data|
    ensures chave[..|pacienteNome|] == pacienteNome
    ensures chave[|pacienteNome|..|pacienteNome| + 3] == " - "
    ensures chave[|pacienteNome| + 3..] == data
  {
    pacienteNome + " - " + data
  }

  /** The key is not injective: a name that itself contains " - " gives the
      same key as another pair, so cancelling one cancels the other. */
  lemma ChaveConsultaAmbigua()
    ensures ChaveConsulta("Ana - 10/04/2024", "12:00") == ChaveConsulta("Ana", "10/04/2024 - 12:00")
  {
    assert ChaveConsulta("Ana - 10/04/2024", "12:00") == "Ana - 10/04/2024 - 12:00";
    assert ChaveConsulta("Ana", "10/04/2024 - 12:00") == "Ana - 10/04/2024 - 12:00";
  }

  /** `marcarConsulta` then `cancelarConsulta` of the same pair gives back
      the same appointments as a bag. The list itself comes back only when
      the key was not there before; otherwise the earlier copy is removed
      and the new one stays at the end. */
  lemma MarcarDepoisCancelar(consultas: seq<string>, pacienteNome: string, data: string)
    ensures multiset(RemoveFirst(consultas + [ChaveConsulta(pacienteNome, data)], ChaveConsulta(pacienteNome, data)))
            == multiset(consultas)
    ensures ChaveConsulta(pacienteNome, data) !in consultas ==>
              RemoveFirst(consultas + [ChaveConsulta(pacienteNome, data)], ChaveConsulta(pacienteNome, data)) == consultas
    ensures ChaveConsulta(pacienteNome, data) in consultas ==>
              RemoveFirst(consultas + [ChaveConsulta(pacienteNome, data)], ChaveConsulta(pacienteNome, data))
              == RemoveFirst(consultas, ChaveConsulta(pacienteNome, data)) + [ChaveConsulta(pacienteNome, data)]
  {
    var chave := ChaveConsulta(pacienteNome, data);
    RemoveFirstMultiset(consultas + [chave], chave);
    RemoveFirstAppend(consultas, [chave], chave);
  }

  class GerenciadorPacientes {
    var pacientes: seq<Paciente>

    constructor ()
      ensures pacientes == []
    {
      pacientes := [];
    }

    /** `cadastrarPaciente`: one new patient at the end, nobody else changed. */
    method CadastrarPaciente(nome: string, cpf: string, telefone: string)
      modifies this
      ensures pacientes == old(pacientes) + [Paciente(nome, cpf, telefone)]
    {
      pacientes := pacientes + [Paciente(nome, cpf, telefone)];
    }

    /** `getPacientes`: the patients in registration order. */
    method GetPacientes() returns (lista: seq<Paciente>)
      ensures lista == pacientes
    {
      lista := pacientes;
    }
  }

  class GerenciadorConsultas {
    var consultas: seq<string>

    constructor ()
      ensures consultas == []
    {
      consultas := [];
    }

    /** `marcarConsulta`: the key of the pair is appended, even when it is
        already booked. */
    method MarcarConsulta(pacienteNome: string, data: string)
      modifies this
      ensures consultas == old(consultas) + [ChaveConsulta(pacienteNome, data)]
    {
      consultas := consultas + [ChaveConsulta(pacienteNome, data)];
    }

    /** `cancelarConsulta`: succeeds exactly when the key is booked, and then
        removes its first occurrence only, keeping the order of the rest;
        otherwise nothing changes. */
    method CancelarConsulta(pacienteNome: string, data: string) returns (cancelada: bool)
      modifies this
      ensures cancelada <==> ChaveConsulta(pacienteNome, data) in old(consultas)
      ensures !cancelada ==> consultas == old(consultas)
      ensures cancelada ==>
                var i := FirstIndex(old(consultas), ChaveConsulta(pacienteNome, data));
                consultas == old(consultas)[..i] + old(consultas)[i + 1..]
      ensures multiset(consultas) == multiset(old(consultas)) - multiset{ChaveConsulta(pacienteNome, data)}
    {
      var consulta := ChaveConsulta(pacienteNome, data);
      cancelada := consulta in consultas;
      if cancelada {
        RemoveFirstCutsFirstOccurrence(consultas, consulta);
      }
      RemoveFirstMultiset(consultas, consulta);
      consultas := RemoveFirst(consultas, consulta);
    }
  }

  class GerenciadorPagamentos {
    var pagamentos: seq<real>

    constructor ()
      ensures pagamentos == [] && CalcularTotal() == 0.0
    {
      pagamentos := [];
    }

    /** `calcularTotal`: the sum of the recorded amounts; nothing for an
        empty ledger, and never negative while no amount is. */
    function CalcularTotal(): (total: real)
      reads this
      ensures pagamentos == [] ==> total == 0.0
      ensures (forall i :: 0 <= i < |pagamentos| ==> pagamentos[i] >= 0.0) ==> total >= 0.0
    {
      Sum(pagamentos)
    }

    /** `processarPagamento`: the amount is recorded at the end, whatever its
        sign, so the total moves by exactly that amount. */
    method ProcessarPagamento(pacienteNome: string, valor: real)
      modifies this
      ensures pagamentos == old(pagamentos) + [valor]
      ensures CalcularTotal() == old(CalcularTotal()) + valor
    {
      SumAppend(pagamentos, [valor]);
      pagamentos := pagamentos + [valor];
    }
  }

  /** What one line of the patient report shows: the name and the CPF,
      never the telephone. */
  datatype LinhaPaciente = LinhaPaciente(nome: string, cpf: string)

  function Linha(p: Paciente): LinhaPaciente
  {
    LinhaPaciente(p.nome, p.cpf)
  }

  class GeradorRelatorios {

    constructor ()
    {
    }

    /** `gerarRelatorioPacientes`: one line per patient, in list order. */
    method GerarRelatorioPacientes(pacientes: seq<Paciente>) returns (linhas: seq<LinhaPaciente>)
      ensures |linhas| == |pacientes|
      ensures forall i :: 0 <= i < |pacientes| ==>
                linhas[i].nome == pacientes[i].nome && linhas[i].cpf == pacientes[i].cpf
    {
      linhas := [];
      for k := 0 to |pacientes|
        invariant |linhas| == k
        invariant forall i :: 0 <= i < k ==>
                    linhas[i].nome == pacientes[i].nome && linhas[i].cpf == pacientes[i].cpf
      {
        linhas := linhas + [Linha(pacientes[k])];
      }
    }

    /** `gerarRelatorioFinanceiro`: the total it reports is the ledger's. */
    method GerarRelatorioFinanceiro(gerenciador: GerenciadorPagamentos) returns (total: real)
      ensures total == Sum(gerenciador.pagamentos)
    {
      total := gerenciador.CalcularTotal();
    }
  }
}
