// The one-sample Z test of estatistica/testes/z_test.py (class TesteZ):
// z = (mean - mu0) / (sd / sqrt n), its two-sided p-value and the verdict.

module TesteZ {
  import opened Resultados
  import opened Biblioteca
  import opened Integracao
  import opened NormalBilateral

  /** (media - media_populacional) / (desvio_padrao / sqrt(tamanho)), with
      the exceptions of each step in order: sqrt of a negative size, a zero
      square root, a zero standard error. The T test computes the same
      expression. */
  function Estatistica(p: Primitivas, media: real, desvioPadrao: real, tamanho: int, mediaPopulacional: real): Result<real>
  {
    if tamanho < 0 then Err(DominioMatematico)
    else
      var raiz := p.sqrt(tamanho as real);
      if raiz == 0.0 then Err(DivisaoPorZero)
      else if desvioPadrao / raiz == 0.0 then Err(DivisaoPorZero)
      else Ok((media - mediaPopulacional) / (desvioPadrao / raiz))
  }

  /** The dictionary realizar_teste returns ("teste_utilizado" is always
      "Teste Z"; `rejeita` stands for the message). */
  datatype ResultadoZ = ResultadoZ(estatistica: real, valorP: real, alpha: real, rejeita: bool)

  /** TesteZ.realizar_teste. */
  function RealizarTesteZ(p: Primitivas, media: real, desvioPadrao: real, tamanho: int, mediaPopulacional: real, alpha: real): Result<ResultadoZ>
  {
    var z :- Estatistica(p, media, desvioPadrao, tamanho, mediaPopulacional);
    var valorP := ValorPBilateral(p, z);
    Ok(ResultadoZ(z, valorP, alpha, Rejeita(valorP, alpha)))
  }

  // ---------------------------------------------------------------------
  // Properties

  /** A positive standard deviation and a positive size (with a square root
      that is positive on positive numbers) give a statistic with the sign of
      mean - mu0, zero exactly when the mean equals mu0. */
  lemma SinalDaEstatistica(p: Primitivas, media: real, desvioPadrao: real, tamanho: int, mediaPopulacional: real)
    requires RaizCoerente(p) && desvioPadrao > 0.0 && tamanho > 0
    ensures Estatistica(p, media, desvioPadrao, tamanho, mediaPopulacional).Ok?
    ensures var z := Estatistica(p, media, desvioPadrao, tamanho, mediaPopulacional).value;
      && (z > 0.0 <==> media > mediaPopulacional)
      && (z < 0.0 <==> media < mediaPopulacional)
      && (z == 0.0 <==> media == mediaPopulacional)
  {
    var raiz := p.sqrt(tamanho as real);
    assert raiz > 0.0;
    var erro := desvioPadrao / raiz;
    assert erro > 0.0;
    var d := media - mediaPopulacional;
    var z := d / erro;
    assert z * erro == d;
    if d > 0.0 {
      assert z > 0.0;
    } else if d < 0.0 {
      assert z < 0.0;
    }
  }

  /** Which inputs raise: a negative size, a size whose square root is 0, or
      a zero standard deviation over a non-zero root. */
  lemma EstatisticaFalha(p: Primitivas, media: real, desvioPadrao: real, tamanho: int, mediaPopulacional: real)
    ensures Estatistica(p, media, desvioPadrao, tamanho, mediaPopulacional).Err?
        <==> tamanho < 0 || p.sqrt(tamanho as real) == 0.0 || desvioPadrao == 0.0
  {
    if tamanho >= 0 && p.sqrt(tamanho as real) != 0.0 {
      var raiz := p.sqrt(tamanho as real);
      if desvioPadrao != 0.0 {
        assert desvioPadrao / raiz != 0.0 by {
          if desvioPadrao / raiz == 0.0 {
            assert desvioPadrao == desvioPadrao / raiz * raiz;
          }
        }
      }
    }
  }

  /** Reflecting the mean about mu0 negates z and keeps the p-value and the
      verdict. */
  lemma ReflexaoDaMedia(p: Primitivas, media: real, desvioPadrao: real, tamanho: int, mediaPopulacional: real, alpha: real)
    requires RealizarTesteZ(p, media, desvioPadrao, tamanho, mediaPopulacional, alpha).Ok?
    ensures var r := RealizarTesteZ(p, media, desvioPadrao, tamanho, mediaPopulacional, alpha).value;
      var refletido := RealizarTesteZ(p, 2.0 * mediaPopulacional - media, desvioPadrao, tamanho, mediaPopulacional, alpha);
      && refletido.Ok?
      && refletido.value.estatistica == -r.estatistica
      && refletido.value.valorP == r.valorP
      && refletido.value.rejeita == r.rejeita
  {
    var z := Estatistica(p, media, desvioPadrao, tamanho, mediaPopulacional).value;
    var erro := desvioPadrao / p.sqrt(tamanho as real);
    assert (2.0 * mediaPopulacional - media - mediaPopulacional) / erro == -((media - mediaPopulacional) / erro);
    ValorPSoDependeDoModulo(p, z, -z);
  }

  /** A completed test echoes alpha and rejects iff p < alpha. */
  lemma ResultadoZCaracterizado(p: Primitivas, media: real, desvioPadrao: real, tamanho: int, mediaPopulacional: real, alpha: real)
    requires RealizarTesteZ(p, media, desvioPadrao, tamanho, mediaPopulacional, alpha).Ok?
    ensures var r := RealizarTesteZ(p, media, desvioPadrao, tamanho, mediaPopulacional, alpha).value;
      && r.estatistica == Estatistica(p, media, desvioPadrao, tamanho, mediaPopulacional).value
      && r.valorP == ValorPBilateral(p, r.estatistica)
      && r.alpha == alpha
      && (r.rejeita <==> r.valorP < alpha)
  {
  }
}
