// The normality ensemble of estatistica/testes/normalidade.py (class
// TesteNormalidade): a Box-Muller sample generated from aggregate statistics,
// the Shapiro-Wilk statistic with uniform coefficients and Royston's
// p-value, the Anderson-Darling and Kolmogorov-Smirnov statistics with their
// fixed thresholds, the rational approximation of erf, and the vote.

module Normalidade {
  import opened Resultados
  import opened Biblioteca
  import opened Somas
  import opened Ordenacao

  // ---------------------------------------------------------------------
  // erf and the normal CDF (_funcao_erf, _funcao_distribuicao_normal)

  /** Coefficients of formula 7.1.26 of Abramowitz and Stegun. */
  const A1: real := 0.254829592
  const A2: real := -0.284496736
  const A3: real := 1.421413741
  const A4: real := -1.453152027
  const A5: real := 1.061405429
  const P: real := 0.3275911

  /** The part of the approximation that depends on |x| and x*x only. */
  function Cauda(p: Primitivas, x: real): real
  {
    var t := 1.0 / (1.0 + P * Abs(x));
    1.0 - ((((A5 * t + A4) * t + A3) * t + A2) * t + A1) * t * p.exp(-x * x)
  }

  /** _funcao_erf: the tail value, negated for negative arguments. */
  function Erf(p: Primitivas, x: real): real
  {
    if x < 0.0 then -Cauda(p, x) else Cauda(p, x)
  }

  /** _funcao_distribuicao_normal: (1 + erf(x / sqrt 2)) / 2. */
  function Phi(p: Primitivas, x: real): real
  {
    (1.0 + Erf(p, x / p.sqrt(2.0))) / 2.0
  }

  lemma CaudaPar(p: Primitivas, x: real)
    ensures Cauda(p, -x) == Cauda(p, x)
  {
    assert Abs(-x) == Abs(x);
    assert -(-x) * -x == -x * x;
  }

  /** The approximation is odd away from 0: t uses |x| and exp(-x*x) is even. */
  lemma ErfImpar(p: Primitivas, x: real)
    requires x != 0.0
    ensures Erf(p, -x) == -Erf(p, x)
  {
    CaudaPar(p, x);
  }

  /** At 0 the coefficients add up to 0.999999999, so erf(0) is 1e-9 rather
      than 0: the approximation is odd only away from 0. */
  lemma ErfEmZero(p: Primitivas)
    requires p.exp(0.0) == 1.0
    ensures Erf(p, 0.0) == 0.000000001
  {
    assert -0.0 * 0.0 == 0.0;
    assert 1.0 / (1.0 + P * Abs(0.0)) == 1.0;
  }

  // ---------------------------------------------------------------------
  // Box-Muller sample (_gerar_dados)

  /** One pass of the generation loop on the uniforms u1, u2: the pair
      appended, or the domain error of log (u1 = 0) or of sqrt. */
  function ParBoxMuller(p: Primitivas, media: real, dp: real, u1: real, u2: real): Result<seq<real>>
  {
    if u1 <= 0.0 then Err(DominioMatematico)
    else if -2.0 * p.log(u1) < 0.0 then Err(DominioMatematico)
    else
      var z0 := p.sqrt(-2.0 * p.log(u1)) * p.cos(2.0 * p.pi * u2);
      var z1 := p.sqrt(-2.0 * p.log(u1)) * p.sin(2.0 * p.pi * u2);
      Ok([media + z0 * dp, media + z1 * dp])
  }

  /** Number of passes of the loop: `range(n // 2)` is empty for n < 2. */
  function Passagens(n: int): nat
  {
    if n < 2 then 0 else n / 2
  }

  /** The list after k passes, the uniforms of pass j being
      fluxo(pos + 2j) and fluxo(pos + 2j + 1). */
  function Pares(p: Primitivas, media: real, dp: real, k: nat, fluxo: nat -> real, pos: nat): Result<seq<real>>
  {
    if k == 0 then Ok([])
    else
      var anteriores :- Pares(p, media, dp, k - 1, fluxo, pos);
      var par :- ParBoxMuller(p, media, dp, fluxo(pos + 2 * (k - 1)), fluxo(pos + 2 * (k - 1) + 1));
      Ok(anteriores + par)
  }

  /** The generated sample: the pairs, then one `pop` when n is odd. */
  function Amostra(p: Primitivas, media: real, dp: real, n: int, fluxo: nat -> real, pos: nat): Result<seq<real>>
  {
    var dados :- Pares(p, media, dp, Passagens(n), fluxo, pos);
    if n % 2 != 0 then
      if |dados| == 0 then Err(PopListaVazia) else Ok(dados[..|dados| - 1])
    else Ok(dados)
  }

  /** Uniforms drawn by a generation that completes. */
  function Sorteios(n: int): nat
  {
    2 * Passagens(n)
  }

  /** _gerar_dados: extends the list pair by pair, then pops for odd n. */
  method GerarDados(p: Primitivas, media: real, dp: real, n: int, fluxo: nat -> real, pos: nat)
    returns (r: Result<seq<real>>)
    ensures r == Amostra(p, media, dp, n, fluxo, pos)
  {
    var pares := GerarPares(p, media, dp, Passagens(n), fluxo, pos);
    if pares.Err? {
      return Err(pares.erro);
    }
    var dados := pares.value;
    if n % 2 != 0 {
      if |dados| == 0 {
        return Err(PopListaVazia);
      }
      dados := dados[..|dados| - 1];
    }
    r := Ok(dados);
  }

  /** The loop of _gerar_dados over `range(n // 2)`, m being the number of
      passes. */
  method GerarPares(p: Primitivas, media: real, dp: real, m: nat, fluxo: nat -> real, pos: nat)
    returns (r: Result<seq<real>>)
    ensures r == Pares(p, media, dp, m, fluxo, pos)
  {
    var dados: seq<real> := [];
    var k: nat := 0;
    while k < m
      invariant k <= m
      invariant Pares(p, media, dp, k, fluxo, pos) == Ok(dados)
    {
      var par := ParBoxMuller(p, media, dp, fluxo(pos + 2 * k), fluxo(pos + 2 * k + 1));
      ParesPasso(p, media, dp, k, fluxo, pos, dados, par);
      if par.Err? {
        ParesErroPropaga(p, media, dp, k + 1, m, fluxo, pos);
        return Err(par.erro);
      }
      dados := dados + par.value;
      k := k + 1;
    }
    r := Ok(dados);
  }

  /** One more pass extends the list by the pass's pair or fails with its error. */
  lemma ParesPasso(p: Primitivas, media: real, dp: real, k: nat, fluxo: nat -> real, pos: nat, dados: seq<real>, par: Result<seq<real>>)
    requires Pares(p, media, dp, k, fluxo, pos) == Ok(dados)
    requires par == ParBoxMuller(p, media, dp, fluxo(pos + 2 * k), fluxo(pos + 2 * k + 1))
    ensures par.Err? ==> Pares(p, media, dp, k + 1, fluxo, pos) == Err(par.erro)
    ensures par.Ok? ==> Pares(p, media, dp, k + 1, fluxo, pos) == Ok(dados + par.value)
  {
  }

  /** An error in one pass ends the loop: every later prefix carries it. */
  lemma {:induction false} ParesErroPropaga(p: Primitivas, media: real, dp: real, k: nat, m: nat, fluxo: nat -> real, pos: nat)
    requires k <= m && Pares(p, media, dp, k, fluxo, pos).Err?
    ensures Pares(p, media, dp, m, fluxo, pos) == Pares(p, media, dp, k, fluxo, pos)
    decreases m - k
  {
    if k < m {
      ParesErroPropaga(p, media, dp, k, m - 1, fluxo, pos);
    }
  }

  lemma {:induction false} ParesComprimento(p: Primitivas, media: real, dp: real, k: nat, fluxo: nat -> real, pos: nat)
    requires Pares(p, media, dp, k, fluxo, pos).Ok?
    ensures |Pares(p, media, dp, k, fluxo, pos).value| == 2 * k
  {
    if k > 0 {
      ParesComprimento(p, media, dp, k - 1, fluxo, pos);
    }
  }

  /** A generated sample has n elements for even n >= 0 and n - 2 for odd
      n (the pairs give n - 1 and the `pop` removes one more); negative even
      sizes give the empty sample. */
  lemma AmostraComprimento(p: Primitivas, media: real, dp: real, n: int, fluxo: nat -> real, pos: nat)
    requires Amostra(p, media, dp, n, fluxo, pos).Ok?
    ensures n % 2 == 0 ==> |Amostra(p, media, dp, n, fluxo, pos).value| == if n < 0 then 0 else n
    ensures n % 2 != 0 ==> n >= 3 && |Amostra(p, media, dp, n, fluxo, pos).value| == n - 2
  {
    ParesComprimento(p, media, dp, Passagens(n), fluxo, pos);
  }

  /** An odd size below 3 (1, or any negative odd size) draws nothing and
      pops the empty list. */
  lemma AmostraImparPequena(p: Primitivas, media: real, dp: real, n: int, fluxo: nat -> real, pos: nat)
    requires n % 2 != 0 && n < 3
    ensures Amostra(p, media, dp, n, fluxo, pos) == Err(PopListaVazia)
  {
  }

  /** The number of passes the final `pop` calls for: one more pair for odd
      n, so that dropping its second value leaves n values. */
  function PassagensCorrigidas(n: int): nat
  {
    if n <= 0 then 0 else (n + 1) / 2
  }

  /** The generation with the corrected number of passes. */
  function AmostraCorrigida(p: Primitivas, media: real, dp: real, n: int, fluxo: nat -> real, pos: nat): Result<seq<real>>
  {
    var dados :- Pares(p, media, dp, PassagensCorrigidas(n), fluxo, pos);
    if n % 2 != 0 then
      if |dados| == 0 then Err(PopListaVazia) else Ok(dados[..|dados| - 1])
    else Ok(dados)
  }

  /** With the corrected count every size n >= 0 gets exactly n values,
      and the generation fails only when one of its passes does. */
  lemma AmostraCorrigidaComprimento(p: Primitivas, media: real, dp: real, n: int, fluxo: nat -> real, pos: nat)
    requires n >= 0
    ensures AmostraCorrigida(p, media, dp, n, fluxo, pos).Err?
        <==> Pares(p, media, dp, PassagensCorrigidas(n), fluxo, pos).Err?
    ensures AmostraCorrigida(p, media, dp, n, fluxo, pos).Ok? ==> |AmostraCorrigida(p, media, dp, n, fluxo, pos).value| == n
  {
    if Pares(p, media, dp, PassagensCorrigidas(n), fluxo, pos).Ok? {
      ParesComprimento(p, media, dp, PassagensCorrigidas(n), fluxo, pos);
    }
  }

  // ---------------------------------------------------------------------
  // Shapiro-Wilk with uniform coefficients (_calcular_estatistica_shapiro)

  /** The sum of a * (x[n-1-i] - x[i]) over i < k. */
  function SomaEspelhada(a: real, x: seq<real>, k: nat): real
    requires k <= |x|
  {
    if k == 0 then 0.0 else SomaEspelhada(a, x, k - 1) + a * (x[|x| - k] - x[k - 1])
  }

  lemma SomaPrefixoPasso(x: seq<real>, k: nat)
    requires k < |x|
    ensures Soma(x[..k + 1]) == Soma(x[..k]) + x[k]
  {
    assert x[..k + 1][..k] == x[..k];
  }

  lemma SomaSufixoPasso(x: seq<real>, k: nat)
    requires k < |x|
    ensures Soma(x[|x| - k - 1..]) == x[|x| - k - 1] + Soma(x[|x| - k..])
  {
    assert x[|x| - k - 1..] == [x[|x| - k - 1]] + x[|x| - k..];
    SomaConcatenada([x[|x| - k - 1]], x[|x| - k..]);
  }

  /** The first k mirrored differences add up to a times (sum of the last k
      minus sum of the first k). */
  lemma {:induction false} SomaEspelhadaPrefixo(a: real, x: seq<real>, k: nat)
    requires k <= |x|
    ensures SomaEspelhada(a, x, k) == a * (Soma(x[|x| - k..]) - Soma(x[..k]))
  {
    if k > 0 {
      SomaEspelhadaPrefixo(a, x, k - 1);
      SomaPrefixoPasso(x, k - 1);
      SomaSufixoPasso(x, k - 1);
      Distribui(a, Soma(x[|x| - (k - 1)..]), Soma(x[..k - 1]), x[|x| - k], x[k - 1]);
    }
  }

  lemma Distribui(a: real, s: real, f: real, u: real, v: real)
    ensures a * (s - f) + a * (u - v) == a * ((u + s) - (f + v))
  {
  }

  /** With equal coefficients the numerator's sum cancels: every difference
      x[n-1-i] - x[i] is matched by its negative. */
  lemma SomaEspelhadaNula(a: real, x: seq<real>)
    ensures SomaEspelhada(a, x, |x|) == 0.0
  {
    SomaEspelhadaPrefixo(a, x, |x|);
    assert x[|x| - |x|..] == x && x[..|x|] == x;
  }

  /** _calcular_estatistica_shapiro: W = numerator / sum of squares, with the
      size check first and the divisions by sqrt(n) and by the sum of squares. */
  function EstatisticaShapiro(p: Primitivas, dados: seq<real>): Result<real>
  {
    var n := |dados|;
    if n < 3 || n > 5000 then Err(ValorInvalido(TamanhoShapiro))
    else
      var x := Ordenar(dados);
      var media := Soma(x) / n as real;
      var ss := SomaDesviosQuadrados(x, media);
      if p.sqrt(n as real) == 0.0 then Err(DivisaoPorZero)
      else
        var numerador := Quadrado(SomaEspelhada(1.0 / p.sqrt(n as real), x, n));
        if ss == 0.0 then Err(DivisaoPorZero) else Ok(numerador / ss)
  }

  /** Whenever the statistic is computed at all it is exactly 0. */
  lemma ShapiroNulo(p: Primitivas, dados: seq<real>)
    requires EstatisticaShapiro(p, dados).Ok?
    ensures EstatisticaShapiro(p, dados).value == 0.0
  {
    var x := Ordenar(dados);
    SomaEspelhadaNula(1.0 / p.sqrt(|dados| as real), x);
  }

  /** The statistic raises the size error exactly outside 3..5000. */
  lemma ShapiroTamanho(p: Primitivas, dados: seq<real>)
    ensures EstatisticaShapiro(p, dados) == Err(ValorInvalido(TamanhoShapiro))
            <==> |dados| < 3 || |dados| > 5000
  {
  }

  // ---------------------------------------------------------------------
  // Royston's approximation (_aproximacao_royston)

  /** gamma, mu and the exponent of sigma = exp(0.026 n - 0.434). */
  datatype ParametrosRoyston = ParametrosRoyston(gamma: real, mu: real, expoenteSigma: real)

  /** The two size regimes: n <= 11 and n > 11. */
  function Parametros(n: int): (r: ParametrosRoyston)
  {
    if n <= 11 then ParametrosRoyston(0.459 * n as real - 2.273, 0.544 * n as real - 1.382, 0.026 * n as real - 0.434)
    else ParametrosRoyston(0.459 * n as real - 4.9, 0.544 * n as real - 5.38, 0.026 * n as real - 0.434)
  }

  /** The regimes share sigma and differ by fixed offsets in gamma and mu. */
  lemma ParametrosRegimes(n: int)
    ensures Parametros(n).expoenteSigma == 0.026 * n as real - 0.434
    ensures n <= 11 ==> Parametros(n).mu == 0.544 * n as real - 1.382 && Parametros(n).gamma == 0.459 * n as real - 2.273
    ensures n > 11 ==> Parametros(n).mu == 0.544 * n as real - 5.38 && Parametros(n).gamma == 0.459 * n as real - 4.9
    ensures n > 11 ==> Parametros(n).mu == Parametros(11).mu + 0.544 * (n - 11) as real - 3.998
  {
  }

  /** _aproximacao_royston: p = 1 - Phi((log(1 - W) - mu) / sigma); gamma is
      computed but unused. */
  function AproximacaoRoyston(p: Primitivas, w: real, n: int): Result<real>
  {
    if n > 5000 then Err(ValorInvalido(TamanhoRoyston))
    else
      var par := Parametros(n);
      var sigma := p.exp(par.expoenteSigma);
      if 1.0 - w <= 0.0 then Err(DominioMatematico)
      else if sigma == 0.0 then Err(DivisaoPorZero)
      else Ok(1.0 - Phi(p, (p.log(1.0 - w) - par.mu) / sigma))
  }

  /** For W = 0 the p-value exists whenever exp does not vanish and depends on
      the size only. */
  lemma RoystonEmZero(p: Primitivas, n: int)
    requires n <= 5000 && ExpCoerente(p)
    ensures AproximacaoRoyston(p, 0.0, n).Ok?
    ensures AproximacaoRoyston(p, 0.0, n).value
            == 1.0 - Phi(p, (p.log(1.0) - Parametros(n).mu) / p.exp(Parametros(n).expoenteSigma))
  {
    assert p.exp(Parametros(n).expoenteSigma) > 0.0;
  }

  // ---------------------------------------------------------------------
  // Standardisation shared by Anderson-Darling and Kolmogorov-Smirnov

  /** Mean and population standard deviation of the sorted sample; an empty
      sample divides by zero. */
  function Padronizacao(p: Primitivas, x: seq<real>): Result<(real, real)>
  {
    if |x| == 0 then Err(DivisaoPorZero)
    else
      var media := Soma(x) / |x| as real;
      Ok((media, p.sqrt(SomaDesviosQuadrados(x, media) / |x| as real)))
  }

  // ---------------------------------------------------------------------
  // Anderson-Darling (_calcular_estatistica_anderson_darling)

  /** The amount subtracted from A2 at step i; the logs need 0 < cdf < 1. */
  function TermoAD(p: Primitivas, x: seq<real>, media: real, desvio: real, i: nat): Result<real>
    requires i < |x| && desvio != 0.0
  {
    var cdf := Phi(p, (x[i] - media) / desvio);
    if cdf <= 0.0 || 1.0 - cdf <= 0.0 then Err(DominioMatematico)
    else Ok((2 * i + 1) as real * (p.log(cdf) + p.log(1.0 - cdf)) / |x| as real)
  }

  /** A2 after k steps of the loop, starting from -n. */
  function SomaAD(p: Primitivas, x: seq<real>, media: real, desvio: real, k: nat): Result<real>
    requires k <= |x| && desvio != 0.0
  {
    if k == 0 then Ok(-(|x| as real))
    else
      var a2 :- SomaAD(p, x, media, desvio, k - 1);
      var termo :- TermoAD(p, x, media, desvio, k - 1);
      Ok(a2 - termo)
  }

  /** One more step subtracts the step's term or fails with its error. */
  lemma SomaADPasso(p: Primitivas, x: seq<real>, media: real, desvio: real, i: nat, a2: real, termo: Result<real>)
    requires i < |x| && desvio != 0.0 && SomaAD(p, x, media, desvio, i) == Ok(a2)
    requires termo == TermoAD(p, x, media, desvio, i)
    ensures termo.Err? ==> SomaAD(p, x, media, desvio, i + 1) == Err(termo.erro)
    ensures termo.Ok? ==> SomaAD(p, x, media, desvio, i + 1) == Ok(a2 - termo.value)
  {
  }

  lemma {:induction false} SomaADErroPropaga(p: Primitivas, x: seq<real>, media: real, desvio: real, k: nat, m: nat)
    requires k <= m <= |x| && desvio != 0.0 && SomaAD(p, x, media, desvio, k).Err?
    ensures SomaAD(p, x, media, desvio, m) == SomaAD(p, x, media, desvio, k)
    decreases m - k
  {
    if k < m {
      SomaADErroPropaga(p, x, media, desvio, k, m - 1);
    }
  }

  function EstatisticaAD(p: Primitivas, dados: seq<real>): Result<real>
  {
    var x := Ordenar(dados);
    var (media, desvio) :- Padronizacao(p, x);
    if desvio == 0.0 then Err(DivisaoPorZero)
    else SomaAD(p, x, media, desvio, |x|)
  }

  /** The loop of _calcular_estatistica_anderson_darling. */
  method CalcularAD(p: Primitivas, dados: seq<real>) returns (r: Result<real>)
    ensures r == EstatisticaAD(p, dados)
  {
    var x := Ordenar(dados);
    var padrao := Padronizacao(p, x);
    if padrao.Err? {
      return Err(padrao.erro);
    }
    var (media, desvio) := padrao.value;
    if desvio == 0.0 {
      return Err(DivisaoPorZero);
    }
    r := SomarAD(p, x, media, desvio);
  }

  /** The accumulation loop of _calcular_estatistica_anderson_darling. */
  method SomarAD(p: Primitivas, x: seq<real>, media: real, desvio: real) returns (r: Result<real>)
    requires desvio != 0.0
    ensures r == SomaAD(p, x, media, desvio, |x|)
  {
    var a2 := -(|x| as real);
    var i: nat := 0;
    while i < |x|
      invariant i <= |x|
      invariant SomaAD(p, x, media, desvio, i) == Ok(a2)
    {
      var termo := TermoAD(p, x, media, desvio, i);
      SomaADPasso(p, x, media, desvio, i, a2, termo);
      if termo.Err? {
        SomaADErroPropaga(p, x, media, desvio, i + 1, |x|);
        return Err(termo.erro);
      }
      a2 := a2 - termo.value;
      i := i + 1;
    }
    r := Ok(a2);
  }

  /** realizar_teste_anderson_darling: normal iff A2 < 0.75, whatever alpha. */
  predicate NormalAD(estatistica: real)
  {
    estatistica < 0.75
  }

  // ---------------------------------------------------------------------
  // Kolmogorov-Smirnov (_calcular_estatistica_kolmogorov_smirnov)

  /** |(i+1)/n - Phi(z_i)|: the gap between the empirical and the normal CDF. */
  function Lacuna(p: Primitivas, x: seq<real>, media: real, desvio: real, i: nat): real
    requires i < |x| && desvio != 0.0
  {
    Abs((i + 1) as real / |x| as real - Phi(p, (x[i] - media) / desvio))
  }

  /** D after k steps: the running maximum of the gaps, from 0. */
  function MaiorLacuna(p: Primitivas, x: seq<real>, media: real, desvio: real, k: nat): real
    requires k <= |x| && desvio != 0.0
  {
    if k == 0 then 0.0
    else
      var d := MaiorLacuna(p, x, media, desvio, k - 1);
      var g := Lacuna(p, x, media, desvio, k - 1);
      if d >= g then d else g
  }

  /** D is non-negative, at least every gap seen, and either the initial 0 or
      one of the gaps. */
  lemma {:induction false} MaiorLacunaMaximo(p: Primitivas, x: seq<real>, media: real, desvio: real, k: nat)
    requires k <= |x| && desvio != 0.0
    ensures MaiorLacuna(p, x, media, desvio, k) >= 0.0
    ensures forall i :: 0 <= i < k ==> MaiorLacuna(p, x, media, desvio, k) >= Lacuna(p, x, media, desvio, i)
    ensures MaiorLacuna(p, x, media, desvio, k) == 0.0
            || exists i :: 0 <= i < k && MaiorLacuna(p, x, media, desvio, k) == Lacuna(p, x, media, desvio, i)
  {
    if k > 0 {
      MaiorLacunaMaximo(p, x, media, desvio, k - 1);
    }
  }

  function EstatisticaKS(p: Primitivas, dados: seq<real>): Result<real>
  {
    var x := Ordenar(dados);
    var (media, desvio) :- Padronizacao(p, x);
    if desvio == 0.0 then Err(DivisaoPorZero)
    else Ok(MaiorLacuna(p, x, media, desvio, |x|))
  }

  /** The loop of _calcular_estatistica_kolmogorov_smirnov. */
  method CalcularKS(p: Primitivas, dados: seq<real>) returns (r: Result<real>)
    ensures r == EstatisticaKS(p, dados)
  {
    var x := Ordenar(dados);
    var padrao := Padronizacao(p, x);
    if padrao.Err? {
      return Err(padrao.erro);
    }
    var (media, desvio) := padrao.value;
    if desvio == 0.0 {
      return Err(DivisaoPorZero);
    }
    var d := 0.0;
    var i: nat := 0;
    while i < |x|
      invariant i <= |x|
      invariant d == MaiorLacuna(p, x, media, desvio, i)
    {
      var cdfTeorico := Phi(p, (x[i] - media) / desvio);
      var cdfEmpirico := (i + 1) as real / |x| as real;
      var lacuna := Abs(cdfEmpirico - cdfTeorico);
      d := if d >= lacuna then d else lacuna;
      i := i + 1;
    }
    r := Ok(d);
  }

  /** realizar_teste_kolmogorov_smirnov: normal iff D < 0.05, whatever alpha. */
  predicate NormalKS(estatistica: real)
  {
    estatistica < 0.05
  }

  /** The three statistics read the sample only through `sorted`, so they do
      not depend on the order of the data. */
  lemma EstatisticasPermutacao(p: Primitivas, a: seq<real>, b: seq<real>)
    requires multiset(a) == multiset(b)
    ensures EstatisticaShapiro(p, a) == EstatisticaShapiro(p, b)
    ensures EstatisticaAD(p, a) == EstatisticaAD(p, b)
    ensures EstatisticaKS(p, a) == EstatisticaKS(p, b)
  {
    OrdenarPermutacao(a, b);
    assert |a| == |Ordenar(a)| == |Ordenar(b)| == |b|;
  }

  // ---------------------------------------------------------------------
  // The ensemble (realizar_teste_shapiro, ensemble_normalidade)

  /** The sample as TesteNormalidade holds it. */
  datatype TesteNormalidade = TesteNormalidade(media: real, desvioPadrao: real, tamanho: int, dados: seq<real>)

  /** The constructor: stores the aggregates and generates the sample. */
  method CriarTesteNormalidade(p: Primitivas, media: real, dp: real, tamanho: int, fluxo: nat -> real, pos: nat)
    returns (r: Result<TesteNormalidade>)
    ensures Amostra(p, media, dp, tamanho, fluxo, pos).Err? ==> r == Err(Amostra(p, media, dp, tamanho, fluxo, pos).erro)
    ensures Amostra(p, media, dp, tamanho, fluxo, pos).Ok? ==>
              r == Ok(TesteNormalidade(media, dp, tamanho, Amostra(p, media, dp, tamanho, fluxo, pos).value))
  {
    var dados := GerarDados(p, media, dp, tamanho, fluxo, pos);
    if dados.Err? {
      return Err(dados.erro);
    }
    r := Ok(TesteNormalidade(media, dp, tamanho, dados.value));
  }

  /** realizar_teste_shapiro: (None, None) above 5000 observations, else W and
      Royston's p-value for the declared size (not the sample's length). */
  function RealizarShapiro(p: Primitivas, t: TesteNormalidade): Result<Option<(real, real)>>
  {
    if t.tamanho > 5000 then Ok(None)
    else
      var w :- EstatisticaShapiro(p, t.dados);
      var pValor :- AproximacaoRoyston(p, w, t.tamanho);
      Ok(Some((w, pValor)))
  }

  /** The final decision: 2 of 3 votes when Shapiro-Wilk applies, otherwise
      1 of the 2 others. */
  function Votacao(aplicavel: bool, shapiro: bool, ad: bool, ks: bool): bool
  {
    if aplicavel then Contagem([shapiro, ad, ks]) >= 2 else Contagem([ad, ks]) >= 1
  }

  /** `sum` of a list of booleans. */
  function Contagem(votos: seq<bool>): nat
  {
    if |votos| == 0 then 0 else Contagem(votos[..|votos| - 1]) + (if votos[|votos| - 1] then 1 else 0)
  }

  /** The vote as a majority of three, or as a disjunction of two. */
  lemma VotacaoCaracterizada(aplicavel: bool, shapiro: bool, ad: bool, ks: bool)
    ensures aplicavel ==> (Votacao(aplicavel, shapiro, ad, ks) <==> (shapiro && ad) || (shapiro && ks) || (ad && ks))
    ensures !aplicavel ==> (Votacao(aplicavel, shapiro, ad, ks) <==> ad || ks)
  {
    assert [shapiro, ad, ks][..2] == [shapiro, ad] && [shapiro, ad][..1] == [shapiro];
    assert [ad, ks][..1] == [ad] && [shapiro][..0] == [] && [ad][..0] == [];
    assert Contagem([shapiro]) == (if shapiro then 1 else 0);
    assert Contagem([ad]) == (if ad then 1 else 0);
    assert Contagem([shapiro, ad]) == Contagem([shapiro]) + (if ad then 1 else 0);
    assert Contagem([shapiro, ad, ks]) == Contagem([shapiro, ad]) + (if ks then 1 else 0);
    assert Contagem([ad, ks]) == Contagem([ad]) + (if ks then 1 else 0);
  }

  /** The dictionary ensemble_normalidade returns. */
  datatype ResultadoEnsemble = ResultadoEnsemble(
    tamanho: int,
    alpha: real,
    aplicavel: bool,
    shapiro: Option<(real, real)>, // statistic and p-value, when applicable
    shapiroNormal: bool,
    estatisticaAD: real,
    normalAD: bool,
    estatisticaKS: real,
    normalKS: bool,
    normal: bool)                  // decisao_final

  /** ensemble_normalidade: Shapiro-Wilk (if applicable), then Anderson-Darling,
      then Kolmogorov-Smirnov, then the vote; the first error propagates. */
  function Ensemble(p: Primitivas, t: TesteNormalidade, alpha: real): Result<ResultadoEnsemble>
  {
    var aplicavel := t.tamanho <= 5000;
    var shapiro :- if aplicavel then RealizarShapiro(p, t) else Ok(None);
    var shapiroNormal := if shapiro.Some? then shapiro.value.1 > alpha else false;
    var ad :- EstatisticaAD(p, t.dados);
    var ks :- EstatisticaKS(p, t.dados);
    Ok(ResultadoEnsemble(t.tamanho, alpha, aplicavel, shapiro, shapiroNormal,
                         ad, NormalAD(ad), ks, NormalKS(ks),
                         Votacao(aplicavel, shapiroNormal, NormalAD(ad), NormalKS(ks))))
  }

  /** The verdict of a completed ensemble, in terms of the three statistics. */
  lemma EnsembleVeredito(p: Primitivas, t: TesteNormalidade, alpha: real)
    requires Ensemble(p, t, alpha).Ok?
    ensures var e := Ensemble(p, t, alpha).value;
      && e.aplicavel == (t.tamanho <= 5000)
      && (e.aplicavel <==> e.shapiro.Some?)
      && (e.shapiroNormal <==> e.shapiro.Some? && e.shapiro.value.1 > alpha)
      && (e.normalAD <==> e.estatisticaAD < 0.75)
      && (e.normalKS <==> e.estatisticaKS < 0.05)
      && (e.aplicavel ==> (e.normal <==> (e.shapiroNormal && e.normalAD) || (e.shapiroNormal && e.normalKS) || (e.normalAD && e.normalKS)))
      && (!e.aplicavel ==> (e.normal <==> e.normalAD || e.normalKS))
  {
    var e := Ensemble(p, t, alpha).value;
    VotacaoCaracterizada(e.aplicavel, e.shapiroNormal, e.normalAD, e.normalKS);
  }

  /** The Shapiro-Wilk p-value of a completed ensemble is a function of the
      declared size alone: W is always 0. */
  lemma ShapiroSoDependeDoTamanho(p: Primitivas, t: TesteNormalidade, alpha: real)
    requires Ensemble(p, t, alpha).Ok? && t.tamanho <= 5000
    ensures Ensemble(p, t, alpha).value.shapiro
            == Some((0.0, 1.0 - Phi(p, (p.log(1.0) - Parametros(t.tamanho).mu) / p.exp(Parametros(t.tamanho).expoenteSigma))))
  {
    EnsembleShapiro(p, t, alpha);
    RealizarShapiroNulo(p, t);
  }

  lemma EnsembleShapiro(p: Primitivas, t: TesteNormalidade, alpha: real)
    requires Ensemble(p, t, alpha).Ok?
    ensures RealizarShapiro(p, t).Ok? && Ensemble(p, t, alpha).value.shapiro == RealizarShapiro(p, t).value
  {
  }

  lemma RealizarShapiroNulo(p: Primitivas, t: TesteNormalidade)
    requires RealizarShapiro(p, t).Ok? && t.tamanho <= 5000
    ensures RealizarShapiro(p, t).value
            == Some((0.0, 1.0 - Phi(p, (p.log(1.0) - Parametros(t.tamanho).mu) / p.exp(Parametros(t.tamanho).expoenteSigma))))
  {
    ShapiroNulo(p, t.dados);
    var w := EstatisticaShapiro(p, t.dados).value;
    assert RealizarShapiro(p, t) == Ok(Some((w, AproximacaoRoyston(p, w, t.tamanho).value)));
    RoystonEmZeroOk(p, w, t.tamanho);
  }

  /** The p-value of W = 0, when it exists. */
  lemma RoystonEmZeroOk(p: Primitivas, w: real, n: int)
    requires w == 0.0 && AproximacaoRoyston(p, w, n).Ok?
    ensures AproximacaoRoyston(p, w, n).value
            == 1.0 - Phi(p, (p.log(1.0) - Parametros(n).mu) / p.exp(Parametros(n).expoenteSigma))
  {
  }

  /** A declared size of 3 is marked applicable, yet the generated sample has
      one element and the Shapiro-Wilk statistic refuses it. */
  lemma TamanhoTresFalha(p: Primitivas, media: real, dp: real, fluxo: nat -> real, pos: nat, alpha: real)
    requires Amostra(p, media, dp, 3, fluxo, pos).Ok?
    ensures var t := TesteNormalidade(media, dp, 3, Amostra(p, media, dp, 3, fluxo, pos).value);
      Ensemble(p, t, alpha) == Err(ValorInvalido(TamanhoShapiro))
  {
    AmostraComprimento(p, media, dp, 3, fluxo, pos);
  }
}
