/**
 * The single `Clinica` of solid/S_solid_advanced_errado.java, which keeps
 * patients, appointments and payments in three lists of one object and
 * prints both reports itself. Each operation is stated over all three lists:
 * it changes its own and leaves the other two as they were.
 */
module SolidSErrado {
  import opened JavaLib
  import opened SolidS

  class Clinica {
    var pacientes: seq<Paciente>
    var consultas: seq<string>
    var pagamentos: seq<real>

    constructor ()
      ensures pacientes == [] && consultas == [] && pagamentos == []
    {
      pacientes := [];
      consultas := [];
      pagamentos := [];
    }

    /** The clinic's total takings: the sum of the recorded amounts; nothing
        before any payment, and never negative while no amount is. */
    function Total(): (total: real)
      reads this
      ensures pagamentos == [] ==> total == 0.0
      ensures (forall i :: 0 <= i < |pagamentos| ==> pagamentos[i] >= 0.0) ==> total >= 0.0
    {
      Sum(pagamentos)
    }

    /** `cadastrarPaciente`: one patient appended; appointments and payments unchanged. */
    method CadastrarPaciente(nome: string, cpf: string, telefone: string)
      modifies this
      ensures pacientes == old(pacientes) + [Paciente(nome, cpf, telefone)]
      ensures consultas == old(consultas) && pagamentos == old(pagamentos)
    {
      pacientes := pacientes + [Paciente(nome, cpf, telefone)];
    }

    /** `marcarConsulta`: the pair's key appended; patients and payments unchanged. */
    method MarcarConsulta(pacienteNome: string, data: string)
      modifies this
      ensures consultas == old(consultas) + [ChaveConsulta(pacienteNome, data)]
      ensures pacientes == old(pacientes) && pagamentos == old(pagamentos)
    {
      consultas := consultas + [ChaveConsulta(pacienteNome, data)];
    }

    /** `cancelarConsulta`: the first occurrence of the key removed when it
        is booked, nothing changed otherwise; patients and payments unchanged. */
    method CancelarConsulta(pacienteNome: string, data: string) returns (cancelada: bool)
      modifies this
      ensures cancelada <==> ChaveConsulta(pacienteNome, data) in old(consultas)
      ensures !cancelada ==> consultas == old(consultas)
      ensures cancelada ==>
                var i := FirstIndex(old(consultas), ChaveConsulta(pacienteNome, data));
                consultas == old(consultas)[..i] + old(consultas)[i + 1..]
      ensures pacientes == old(pacientes) && pagamentos == old(pagamentos)
    {
      var consulta := ChaveConsulta(pacienteNome, data);
      cancelada := consulta in consultas;
      if cancelada {
        RemoveFirstCutsFirstOccurrence(consultas, consulta);
      }
      consultas := RemoveFirst(consultas, consulta);
    }

    /** `processarPagamento`: one amount appended, so the total moves by
        that amount; patients and appointments unchanged. */
    method ProcessarPagamento(pacienteNome: string, valor: real)
      modifies this
      ensures pagamentos == old(pagamentos) + [valor]
      ensures Total() == old(Total()) + valor
      ensures pacientes == old(pacientes) && consultas == old(consultas)
    {
      SumAppend(pagamentos, [valor]);
      pagamentos := pagamentos + [valor];
    }

    /** `gerarRelatorioFinanceiro`: reports the sum of every recorded amount. */
    method GerarRelatorioFinanceiro() returns (total: real)
      ensures total == Sum(pagamentos)
    {
      total := Total();
    }

    /** `gerarRelatorioPacientes`: one line per patient, in registration order. */
    method GerarRelatorioPacientes() returns (linhas: seq<LinhaPaciente>)
      ensures |linhas| == |pacientes|
      ensures forall i :: 0 <= i < |pacientes| ==>
                linhas[i].nome == pacientes[i].nome && linhas[i].cpf == pacientes[i].cpf
    {
      linhas := [];
      for k := 0 to |pacientes|
        invariant |linhas| == k
        invariant forall i :: 0 <= i < k ==>
                    linhas[i].nome == pacientes[i].nome && linhas[i].cpf == pacientes[i].cpf
      {
        linhas := linhas + [Linha(pacientes[k])];
      }
    }
  }
}
