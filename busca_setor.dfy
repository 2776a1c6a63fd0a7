/**
 * The sector lookup that lpoo/resume.java and lpoo/resume_advanced.java
 * write out identically in `buscarSetor`: the values its `equals` test
 * compares, the first-match scan it performs, and what its try/catch/finally
 * reports. Both registries import it.
 */
module BuscaSetor {
  import opened JavaLib

  /** The exception `SetorNaoEncontradoException`. */
  datatype Erro = SetorNaoEncontrado

  /** What `buscarSetor` reports, in order. */
  datatype Evento = SetorEncontrado(nome: string) | ErroReportado(erro: Erro) | BuscaFinalizada

  /** The Java values that meet in `setor.equals(nome)`: a reference to an
      object of a class `R` and a `String`. */
  datatype Objeto<R> = Ref(ref: R) | Texto(texto: string)

  /** `receptor.equals(argumento)`. A class that does not override `equals`
      inherits `Object.equals` (the same reference); `String.equals` compares
      characters. On these tagged values both come down to equality. */
  predicate JavaEquals<R(==)>(receptor: Objeto<R>, argumento: Objeto<R>)
  {
    receptor == argumento
  }

  /** `i` is the first position whose element passes `corresponde`. */
  ghost predicate PrimeiraCorrespondencia<T>(xs: seq<T>, nome: string,
                                             corresponde: (T, string) -> bool, i: int)
  {
    0 <= i < |xs| && corresponde(xs[i], nome) &&
    forall j :: 0 <= j < i ==> !corresponde(xs[j], nome)
  }

  /** The `catch` and `finally` parts of `buscarSetor`: the outcome of the
      `try` block is reported, and the finishing notice always comes last. */
  function Relato<T>(r: Result<T, Erro>, nome: string): (eventos: seq<Evento>)
    ensures |eventos| == 2 && eventos[1] == BuscaFinalizada
    ensures eventos[0] == (if r.Success? then SetorEncontrado(nome) else ErroReportado(r.error))
  {
    match r
    case Success(_) => [SetorEncontrado(nome), BuscaFinalizada]
    case Failure(e) => [ErroReportado(e), BuscaFinalizada]
  }
}
