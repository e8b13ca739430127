// The Mann-Whitney U test of estatistica/testes/mann_whitney.py (class
// TesteMannWhitney), from the two sample sizes and rank sums: U, the
// moments of U under the null hypothesis, the normal approximation and the
// two-sided p-value. Rank sums are not checked against the sizes.

module MannWhitney {
  import opened Resultados
  import opened Biblioteca
  import opened Integracao
  import opened NormalBilateral

  /** The aggregated statistics of the two groups. */
  datatype Amostras = Amostras(tamanhoA: int, tamanhoB: int, somaPostosA: real, somaPostosB: real)

  /** The groups in the other order. */
  function Trocadas(a: Amostras): Amostras
  {
    Amostras(a.tamanhoB, a.tamanhoA, a.somaPostosB, a.somaPostosA)
  }

  /** R - n (n + 1) / 2 for one group. */
  function UDoGrupo(tamanho: int, somaPostos: real): real
  {
    somaPostos - (tamanho * (tamanho + 1)) as real / 2.0
  }

  /** calcular_estatistica_u: the smaller of U_A and U_B. */
  function EstatisticaU(a: Amostras): (u: real)
    ensures u <= UDoGrupo(a.tamanhoA, a.somaPostosA) && u <= UDoGrupo(a.tamanhoB, a.somaPostosB)
    ensures u == UDoGrupo(a.tamanhoA, a.somaPostosA) || u == UDoGrupo(a.tamanhoB, a.somaPostosB)
  {
    var ua := UDoGrupo(a.tamanhoA, a.somaPostosA);
    var ub := UDoGrupo(a.tamanhoB, a.somaPostosB);
    if ua <= ub then ua else ub
  }

  /** media_u = n_A n_B / 2. */
  function MediaU(a: Amostras): real
  {
    (a.tamanhoA * a.tamanhoB) as real / 2.0
  }

  /** variancia_u = n_A n_B (n_A + n_B + 1) / 12. */
  function VarianciaU(a: Amostras): real
  {
    (a.tamanhoA * a.tamanhoB * (a.tamanhoA + a.tamanhoB + 1)) as real / 12.0
  }

  /** calcular_valor_p: sqrt of the variance (a negative variance is outside
      its domain), the z-score (a zero deviation raises) and the two-sided
      normal p-value. */
  function ValorPMannWhitney(p: Primitivas, a: Amostras, u: real): Result<real>
  {
    var v := VarianciaU(a);
    if v < 0.0 then Err(DominioMatematico)
    else
      var dp := p.sqrt(v);
      if dp == 0.0 then Err(DivisaoPorZero)
      else Ok(ValorPBilateral(p, (u - MediaU(a)) / dp))
  }

  /** The dictionary realizar_teste returns; `rejeita` stands for the
      "differences between the medians" message. */
  datatype ResultadoMannWhitney = ResultadoMannWhitney(estatisticaU: real, valorP: real, alpha: real, rejeita: bool)

  /** TesteMannWhitney.realizar_teste. */
  function RealizarTesteMannWhitney(p: Primitivas, a: Amostras, alpha: real): Result<ResultadoMannWhitney>
  {
    var u := EstatisticaU(a);
    var valorP :- ValorPMannWhitney(p, a, u);
    Ok(ResultadoMannWhitney(u, valorP, alpha, Rejeita(valorP, alpha)))
  }

  // ---------------------------------------------------------------------
  // Properties

  /** Positive sizes give a positive variance of U. */
  lemma VarianciaPositiva(a: Amostras)
    requires a.tamanhoA > 0 && a.tamanhoB > 0
    ensures VarianciaU(a) > 0.0
  {
    var produto := a.tamanhoA * a.tamanhoB;
    assert produto > 0;
    assert produto * (a.tamanhoA + a.tamanhoB + 1) > 0;
  }

  /** With positive sizes and a square root positive on positive numbers
      the test always completes, and it rejects iff p < alpha. */
  lemma ResultadoCaracterizado(p: Primitivas, a: Amostras, alpha: real)
    requires RaizCoerente(p) && a.tamanhoA > 0 && a.tamanhoB > 0
    ensures RealizarTesteMannWhitney(p, a, alpha).Ok?
    ensures var r := RealizarTesteMannWhitney(p, a, alpha).value;
      && r.estatisticaU == EstatisticaU(a)
      && r.alpha == alpha
      && (r.rejeita <==> r.valorP < alpha)
  {
    VarianciaPositiva(a);
  }

  /** Swapping the two groups changes neither U, nor its moments, nor the
      p-value or its failure. */
  lemma TrocaDeGrupos(p: Primitivas, a: Amostras, alpha: real)
    ensures EstatisticaU(Trocadas(a)) == EstatisticaU(a)
    ensures MediaU(Trocadas(a)) == MediaU(a)
    ensures VarianciaU(Trocadas(a)) == VarianciaU(a)
    ensures RealizarTesteMannWhitney(p, Trocadas(a), alpha) == RealizarTesteMannWhitney(p, a, alpha)
  {
    var b := Trocadas(a);
    assert a.tamanhoA * a.tamanhoB == b.tamanhoA * b.tamanhoB;
    assert a.tamanhoA + a.tamanhoB + 1 == b.tamanhoA + b.tamanhoB + 1;
  }

  /** U values at the same distance either side of the mean of U get the
      same p-value. */
  lemma ValorPSimetrico(p: Primitivas, a: Amostras, d: real)
    ensures ValorPMannWhitney(p, a, MediaU(a) + d) == ValorPMannWhitney(p, a, MediaU(a) - d)
  {
    var v := VarianciaU(a);
    if v >= 0.0 && p.sqrt(v) != 0.0 {
      var dp := p.sqrt(v);
      assert (MediaU(a) - d - MediaU(a)) / dp == -((MediaU(a) + d - MediaU(a)) / dp);
      ValorPSoDependeDoModulo(p, (MediaU(a) + d - MediaU(a)) / dp, (MediaU(a) - d - MediaU(a)) / dp);
    }
  }

  /** The example of the class documentation: sizes 20 and 25 with rank sums
      250 and 300 give U_A = 40 and U_B = -25, so U = -25 (the rank sums are
      not consistent with the sizes, and nothing checks that). */
  lemma ExemploDocumentado()
    ensures UDoGrupo(20, 250.0) == 40.0
    ensures UDoGrupo(25, 300.0) == -25.0
    ensures EstatisticaU(Amostras(20, 25, 250.0, 300.0)) == -25.0
  {
    assert 20 * 21 == 420 && 25 * 26 == 650;
  }
}
