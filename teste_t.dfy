// The one-sample T test of estatistica/testes/t_test.py (class TesteT). The
// statistic is the Z test's expression; the CDF of the t distribution is a
// stub that returns None, so `1 - None` raises a TypeError and the test
// never produces a result. The degrees of freedom (tamanho - 1) reach only
// that stub and are not modelled. The dictionary the test would return has
// the Z test's keys, so it shares TesteZ.ResultadoZ.

module TesteT {
  import opened Resultados
  import opened Biblioteca
  import TesteZ

  /** TesteT.realizar_teste: the statistic's own exception, if any, and
      otherwise the TypeError of the stub CDF. */
  function RealizarTesteT(p: Primitivas, media: real, desvioPadrao: real, tamanho: int, mediaPopulacional: real, alpha: real): Result<TesteZ.ResultadoZ>
  {
    var t :- TesteZ.Estatistica(p, media, desvioPadrao, tamanho, mediaPopulacional);
    Err(OperandoNone)
  }

  /** The T test never completes: it fails with the statistic's exception
      when there is one, and with the TypeError of `1 - None` otherwise. */
  lemma TesteTNuncaConclui(p: Primitivas, media: real, desvioPadrao: real, tamanho: int, mediaPopulacional: real, alpha: real)
    ensures RealizarTesteT(p, media, desvioPadrao, tamanho, mediaPopulacional, alpha).Err?
    ensures var e := TesteZ.Estatistica(p, media, desvioPadrao, tamanho, mediaPopulacional);
      RealizarTesteT(p, media, desvioPadrao, tamanho, mediaPopulacional, alpha).erro
        == if e.Err? then e.erro else OperandoNone
  {
  }

  /** On valid inputs the failure is always the TypeError, whatever alpha. */
  lemma TesteTFalhaComNone(p: Primitivas, media: real, desvioPadrao: real, tamanho: int, mediaPopulacional: real, alpha: real)
    requires RaizCoerente(p) && desvioPadrao > 0.0 && tamanho > 0
    ensures RealizarTesteT(p, media, desvioPadrao, tamanho, mediaPopulacional, alpha) == Err(OperandoNone)
  {
    TesteZ.SinalDaEstatistica(p, media, desvioPadrao, tamanho, mediaPopulacional);
  }
}
