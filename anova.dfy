// One-way ANOVA and Welch's ANOVA over aggregated groups, as in
// estatistica/testes/anova.py (classes ANOVABase, ANOVA and ANOVAWelch;
// experimentacao/picker_simples/anova.py is the same file). Each group is a
// tuple (mean, size, standard deviation).

module Anova {
  import opened Resultados
  import opened Biblioteca
  import opened Somas
  import opened Integracao

  datatype GrupoAnova = GrupoAnova(media: real, tamanho: int, desvio: real)

  /** numero_total_observacoes: the sum of the sizes. */
  function TotalObservacoes(gs: seq<GrupoAnova>): int
  {
    if |gs| == 0 then 0 else TotalObservacoes(gs[..|gs| - 1]) + gs[|gs| - 1].tamanho
  }

  /** (n_i, mean_i): the weights and values of the grand mean and of SS_between. */
  function ParesMedias(gs: seq<GrupoAnova>): (ps: seq<Par>)
    ensures |ps| == |gs|
  {
    seq(|gs|, i requires 0 <= i < |gs| => Par(gs[i].tamanho as real, gs[i].media))
  }

  /** (n_i - 1, sd_i): SS_within is their weighted sum of squares about 0. */
  function ParesDesvios(gs: seq<GrupoAnova>): (ps: seq<Par>)
    ensures |ps| == |gs|
  {
    seq(|gs|, i requires 0 <= i < |gs| => Par((gs[i].tamanho - 1) as real, gs[i].desvio))
  }

  lemma {:induction false} SomaPesosMedias(gs: seq<GrupoAnova>)
    ensures SomaPesos(ParesMedias(gs)) == TotalObservacoes(gs) as real
  {
    if |gs| > 0 {
      assert ParesMedias(gs)[..|gs| - 1] == ParesMedias(gs[..|gs| - 1]);
      SomaPesosMedias(gs[..|gs| - 1]);
    }
  }

  lemma {:induction false} TotalPositivo(gs: seq<GrupoAnova>)
    requires |gs| >= 1 && forall i :: 0 <= i < |gs| ==> gs[i].tamanho > 0
    ensures TotalObservacoes(gs) >= |gs|
  {
    if |gs| > 1 {
      TotalPositivo(gs[..|gs| - 1]);
    }
  }

  // ---------------------------------------------------------------------
  // ANOVABase

  /** calcular_media_geral: sum(mean_i n_i) / N. */
  function MediaGeral(gs: seq<GrupoAnova>): Result<real>
  {
    if TotalObservacoes(gs) == 0 then Err(DivisaoPorZero)
    else Ok(SomaPonderada(ParesMedias(gs)) / TotalObservacoes(gs) as real)
  }

  /** calcular_soma_quadrados_dentro_grupos: sum((n_i - 1) sd_i^2). */
  function SomaQuadradosDentro(gs: seq<GrupoAnova>): real
  {
    SomaQuadrados(ParesDesvios(gs), 0.0)
  }

  /** calcular_graus_liberdade: (k - 1, N - k). */
  function GrausLiberdade(gs: seq<GrupoAnova>): (r: (int, int))
    ensures r.0 + r.1 == TotalObservacoes(gs) - 1
  {
    (|gs| - 1, TotalObservacoes(gs) - |gs|)
  }

  /** With positive sizes the grand mean exists and lies between the
      smallest and the largest group mean. */
  lemma MediaGeralLimitada(gs: seq<GrupoAnova>, lo: real, hi: real)
    requires |gs| >= 1
    requires forall i :: 0 <= i < |gs| ==> gs[i].tamanho > 0 && lo <= gs[i].media <= hi
    ensures MediaGeral(gs).Ok? && lo <= MediaGeral(gs).value <= hi
  {
    TotalPositivo(gs);
    SomaPesosMedias(gs);
    MediaPonderadaLimitada(ParesMedias(gs), lo, hi);
  }

  /** Sizes of at least 1 make SS_within non-negative. */
  lemma SomaQuadradosDentroNaoNegativa(gs: seq<GrupoAnova>)
    requires forall i :: 0 <= i < |gs| ==> gs[i].tamanho >= 1
    ensures SomaQuadradosDentro(gs) >= 0.0
  {
    SomaQuadradosNaoNegativa(ParesDesvios(gs), 0.0);
  }

  /** calcular_valor_p: 1 - cdf_f(F) with d1, d2 degrees of freedom. */
  function ValorPF(p: Primitivas, f: real, d1: real, d2: real): real
  {
    ValorP(p, DensidadeF(d1, d2), f)
  }

  /** The p-value through the trapezoid loop. */
  method CalcularValorP(p: Primitivas, f: real, d1: real, d2: real) returns (valorP: real)
    ensures valorP == ValorPF(p, f, d1, d2)
    ensures valorP <= 1.0
    ensures f <= 0.0 ==> valorP == 1.0
  {
    var cdf := CdfTrapezios(p, DensidadeF(d1, d2), f);
    valorP := 1.0 - cdf;
  }

  // ---------------------------------------------------------------------
  // ANOVA

  /** calcular_soma_quadrados_entre_grupos: sum(n_i (mean_i - grand)^2). */
  function SomaQuadradosEntre(gs: seq<GrupoAnova>, mediaGeral: real): real
  {
    SomaQuadrados(ParesMedias(gs), mediaGeral)
  }

  /** With positive sizes SS_between is non-negative, and it is 0 iff every
      group mean equals the grand mean. */
  lemma SomaQuadradosEntreNula(gs: seq<GrupoAnova>, mediaGeral: real)
    requires forall i :: 0 <= i < |gs| ==> gs[i].tamanho > 0
    ensures SomaQuadradosEntre(gs, mediaGeral) >= 0.0
    ensures SomaQuadradosEntre(gs, mediaGeral) == 0.0 <==> forall i :: 0 <= i < |gs| ==> gs[i].media == mediaGeral
  {
    var ps := ParesMedias(gs);
    SomaQuadradosNaoNegativa(ps, mediaGeral);
    SomaQuadradosNula(ps, mediaGeral);
    assert ValoresIguais(ps, mediaGeral) <==> forall i :: 0 <= i < |gs| ==> gs[i].media == mediaGeral by {
      assert forall i :: 0 <= i < |gs| ==> ps[i].valor == gs[i].media;
    }
  }

  /** F = SS_between / df_between / (SS_within / df_within). */
  function ValorF(ssEntre: real, ssDentro: real, glEntre: int, glDentro: int): Result<real>
  {
    if glEntre == 0 || glDentro == 0 then Err(DivisaoPorZero)
    else if ssDentro / glDentro as real == 0.0 then Err(DivisaoPorZero)
    else Ok(ssEntre / glEntre as real / (ssDentro / glDentro as real))
  }

  /** The dictionary ANOVA.realizar_teste returns; `rejeita` stands for the
      "differences" message. */
  datatype ResultadoAnova = ResultadoAnova(
    mediaGeral: real,
    somaQuadradosEntre: real,
    somaQuadradosDentro: real,
    grausLiberdadeEntre: int,
    grausLiberdadeDentro: int,
    valorF: real,
    valorP: real,
    alpha: real,
    rejeita: bool)

  function ResultadoAnovaEsperado(p: Primitivas, gs: seq<GrupoAnova>, alpha: real): Result<ResultadoAnova>
  {
    var mediaGeral :- MediaGeral(gs);
    var ssEntre := SomaQuadradosEntre(gs, mediaGeral);
    var ssDentro := SomaQuadradosDentro(gs);
    var (glEntre, glDentro) := GrausLiberdade(gs);
    var f :- ValorF(ssEntre, ssDentro, glEntre, glDentro);
    var valorP := ValorPF(p, f, glEntre as real, glDentro as real);
    Ok(ResultadoAnova(mediaGeral, ssEntre, ssDentro, glEntre, glDentro, f, valorP, alpha, Rejeita(valorP, alpha)))
  }

  /** ANOVA.realizar_teste. */
  method RealizarAnova(p: Primitivas, gs: seq<GrupoAnova>, alpha: real) returns (r: Result<ResultadoAnova>)
    ensures r == ResultadoAnovaEsperado(p, gs, alpha)
  {
    var mediaGeral := MediaGeral(gs);
    if mediaGeral.Err? {
      return Err(mediaGeral.erro);
    }
    var ssEntre := SomaQuadradosEntre(gs, mediaGeral.value);
    var ssDentro := SomaQuadradosDentro(gs);
    var (glEntre, glDentro) := GrausLiberdade(gs);
    var f := ValorF(ssEntre, ssDentro, glEntre, glDentro);
    if f.Err? {
      return Err(f.erro);
    }
    var valorP := CalcularValorP(p, f.value, glEntre as real, glDentro as real);
    r := Ok(ResultadoAnova(mediaGeral.value, ssEntre, ssDentro, glEntre, glDentro, f.value, valorP, alpha,
                           Rejeita(valorP, alpha)));
  }

  /** A completed ANOVA: df add up to N - 1, the verdict is p < alpha and a
      non-positive F gives p = 1. */
  lemma ResultadoAnovaCaracterizado(p: Primitivas, gs: seq<GrupoAnova>, alpha: real)
    requires ResultadoAnovaEsperado(p, gs, alpha).Ok?
    ensures var r := ResultadoAnovaEsperado(p, gs, alpha).value;
      && r.grausLiberdadeEntre == |gs| - 1
      && r.grausLiberdadeEntre + r.grausLiberdadeDentro == TotalObservacoes(gs) - 1
      && (r.rejeita <==> r.valorP < alpha)
      && r.valorP <= 1.0
      && (r.valorF <= 0.0 ==> r.valorP == 1.0)
  {
    var r := ResultadoAnovaEsperado(p, gs, alpha).value;
    ValorPLimitado(p, DensidadeF(r.grausLiberdadeEntre as real, r.grausLiberdadeDentro as real), r.valorF);
  }

  /** F is a ratio of two non-negative mean squares once the within one is
      non-zero. */
  lemma ValorFNaoNegativo(ssEntre: real, ssDentro: real, glEntre: int, glDentro: int)
    requires ssEntre >= 0.0 && ssDentro >= 0.0 && glEntre >= 1 && glDentro >= 1
    requires ValorF(ssEntre, ssDentro, glEntre, glDentro).Ok?
    ensures ValorF(ssEntre, ssDentro, glEntre, glDentro).value >= 0.0
  {
    var a := ssEntre / glEntre as real;
    var b := ssDentro / glDentro as real;
    assert a >= 0.0 && b > 0.0;
  }

  /** With positive group sizes a completed ANOVA has F >= 0. */
  lemma ValorFAnovaNaoNegativo(p: Primitivas, gs: seq<GrupoAnova>, alpha: real)
    requires ResultadoAnovaEsperado(p, gs, alpha).Ok?
    requires forall i :: 0 <= i < |gs| ==> gs[i].tamanho > 0
    ensures ResultadoAnovaEsperado(p, gs, alpha).value.valorF >= 0.0
  {
    var m := MediaGeral(gs).value;
    SomaQuadradosEntreNula(gs, m);
    SomaQuadradosDentroNaoNegativa(gs);
    TotalPositivo(gs);
    ValorFNaoNegativo(SomaQuadradosEntre(gs, m), SomaQuadradosDentro(gs), |gs| - 1, TotalObservacoes(gs) - |gs|);
  }

  /** The example of the class documentation: groups (24.8, 5, sqrt 5.2),
      (30, 5, sqrt 2.5) and (22, 5, sqrt 2.5). */
  lemma ExemploDocumentado(p: Primitivas, d1: real, d2: real, alpha: real)
    requires d1 * d1 == 5.2 && d2 * d2 == 2.5
    ensures var gs := [GrupoAnova(24.8, 5, d1), GrupoAnova(30.0, 5, d2), GrupoAnova(22.0, 5, d2)];
      var r := ResultadoAnovaEsperado(p, gs, alpha);
      && r.Ok?
      && r.value.mediaGeral == 25.6
      && r.value.somaQuadradosEntre == 164.8
      && r.value.somaQuadradosDentro == 40.8
      && r.value.grausLiberdadeEntre == 2 && r.value.grausLiberdadeDentro == 12
      && r.value.valorF == 82.4 / 3.4
  {
    var gs := [GrupoAnova(24.8, 5, d1), GrupoAnova(30.0, 5, d2), GrupoAnova(22.0, 5, d2)];
    var g1, g2 := gs[..1], gs[..2];
    assert g2[..1] == g1 && gs[..2] == g2 && g1[..|g1| - 1] == [];
    assert TotalObservacoes(g1) == 5;
    assert TotalObservacoes(g2) == 10;
    assert TotalObservacoes(gs) == 15;
    assert ParesMedias(gs) == [Par(5.0, 24.8), Par(5.0, 30.0), Par(5.0, 22.0)];
    assert ParesDesvios(gs) == [Par(4.0, d1), Par(4.0, d2), Par(4.0, d2)];
    SomasDoExemploMedias(ParesMedias(gs));
    SomaDoExemploDesvios(ParesDesvios(gs), d1, d2);
  }

  /** The weighted sum of the example's means and their squares about 25.6. */
  lemma SomasDoExemploMedias(pm: seq<Par>)
    requires pm == [Par(5.0, 24.8), Par(5.0, 30.0), Par(5.0, 22.0)]
    ensures SomaPonderada(pm) == 384.0 && SomaQuadrados(pm, 25.6) == 164.8
  {
    var pm1, pm2 := pm[..1], pm[..2];
    assert pm2[..1] == pm1 && pm[..2] == pm2 && pm1[..0] == [];
    assert pm1[..|pm1| - 1] == [];
    assert Termo(Produto, pm1[0]) == 124.0;
    assert Somatorio(pm1, Produto) == Somatorio(pm1[..0], Produto) + Termo(Produto, pm1[0]);
    assert SomaPonderada(pm1) == 124.0;
    assert SomaPonderada(pm2) == 274.0;
    assert Termo(Desvio(25.6), pm[0]) == 3.2 by { assert Quadrado(24.8 - 25.6) == 0.64; }
    assert Termo(Desvio(25.6), pm[1]) == 96.8 by { assert Quadrado(30.0 - 25.6) == 19.36; }
    assert Termo(Desvio(25.6), pm[2]) == 64.8 by { assert Quadrado(22.0 - 25.6) == 12.96; }
    assert Somatorio(pm1, Desvio(25.6)) == Somatorio(pm1[..0], Desvio(25.6)) + Termo(Desvio(25.6), pm1[0]);
    assert SomaQuadrados(pm1, 25.6) == 3.2;
    assert SomaQuadrados(pm2, 25.6) == 100.0;
  }

  /** The example's within-group sum of squares, sd_1^2 = 5.2 and sd_2^2 =
      sd_3^2 = 2.5 each weighted by 4. */
  lemma SomaDoExemploDesvios(pd: seq<Par>, d1: real, d2: real)
    requires pd == [Par(4.0, d1), Par(4.0, d2), Par(4.0, d2)] && d1 * d1 == 5.2 && d2 * d2 == 2.5
    ensures SomaQuadrados(pd, 0.0) == 40.8
  {
    var pd1, pd2 := pd[..1], pd[..2];
    assert pd2[..1] == pd1 && pd[..2] == pd2 && pd1[..|pd1| - 1] == [];
    assert Termo(Desvio(0.0), pd[0]) == 20.8 by { assert Quadrado(d1 - 0.0) == 5.2; }
    assert Termo(Desvio(0.0), pd[1]) == 10.0 by { assert Quadrado(d2 - 0.0) == 2.5; }
    assert Termo(Desvio(0.0), pd[2]) == 10.0 by { assert Quadrado(d2 - 0.0) == 2.5; }
    assert Somatorio(pd1, Desvio(0.0)) == Somatorio(pd1[..0], Desvio(0.0)) + Termo(Desvio(0.0), pd1[0]);
    assert SomaQuadrados(pd1, 0.0) == 20.8;
    assert SomaQuadrados(pd2, 0.0) == 30.8;
  }

  // ---------------------------------------------------------------------
  // ANOVAWelch

  /** calcular_pesos: n_i / sd_i^2, raising when a square is 0. */
  function PesosWelch(gs: seq<GrupoAnova>): (r: Result<seq<real>>)
    ensures r.Ok? ==> |r.value| == |gs|
  {
    if exists i :: 0 <= i < |gs| && Quadrado(gs[i].desvio) == 0.0 then Err(DivisaoPorZero)
    else Ok(seq(|gs|, i requires 0 <= i < |gs| && Quadrado(gs[i].desvio) != 0.0 =>
                        gs[i].tamanho as real / Quadrado(gs[i].desvio)))
  }

  /** (w_i, mean_i), as `zip(self.grupos, pesos)` pairs them. */
  function ParesWelch(gs: seq<GrupoAnova>, pesos: seq<real>): (ps: seq<Par>)
    requires |pesos| == |gs|
    ensures |ps| == |gs|
  {
    seq(|gs|, i requires 0 <= i < |gs| => Par(pesos[i], gs[i].media))
  }

  lemma {:induction false} SomaPesosWelch(gs: seq<GrupoAnova>, pesos: seq<real>)
    requires |pesos| == |gs|
    ensures SomaPesos(ParesWelch(gs, pesos)) == Soma(pesos)
  {
    if |gs| > 0 {
      assert ParesWelch(gs, pesos)[..|gs| - 1] == ParesWelch(gs[..|gs| - 1], pesos[..|gs| - 1]);
      SomaPesosWelch(gs[..|gs| - 1], pesos[..|gs| - 1]);
    }
  }

  /** calcular_media_ponderada: sum(w_i mean_i) / sum(w_i). */
  function MediaPonderada(gs: seq<GrupoAnova>, pesos: seq<real>): Result<real>
    requires |pesos| == |gs|
  {
    if Soma(pesos) == 0.0 then Err(DivisaoPorZero)
    else Ok(SomaPonderada(ParesWelch(gs, pesos)) / Soma(pesos))
  }

  /** calcular_soma_quadrados_entre_grupos_welch: sum(w_i (mean_i - m)^2). */
  function SomaQuadradosEntreWelch(gs: seq<GrupoAnova>, pesos: seq<real>, m: real): real
    requires |pesos| == |gs|
  {
    SomaQuadrados(ParesWelch(gs, pesos), m)
  }

  /** calcular_graus_liberdade_ajustados: (sum w)^2 / (sum w^2 - sum w^2 / k). */
  function GrausLiberdadeAjustados(pesos: seq<real>, k: int): Result<real>
  {
    var s := Soma(pesos);
    var q := SomaDosQuadrados(pesos);
    if k == 0 then Err(DivisaoPorZero)
    else if q - q / k as real == 0.0 then Err(DivisaoPorZero)
    else Ok(s * s / (q - q / k as real))
  }

  /** Positive sizes and non-zero deviations give positive weights. */
  lemma PesosPositivos(gs: seq<GrupoAnova>)
    requires forall i :: 0 <= i < |gs| ==> gs[i].tamanho > 0 && gs[i].desvio != 0.0
    ensures PesosWelch(gs).Ok?
    ensures |PesosWelch(gs).value| == |gs|
    ensures forall i :: 0 <= i < |gs| ==> PesosWelch(gs).value[i] > 0.0
  {
    forall i | 0 <= i < |gs| ensures Quadrado(gs[i].desvio) > 0.0 {
      QuadradoPositivo(gs[i].desvio);
    }
  }

  /** With positive weights the weighted mean exists, lies between the
      smallest and the largest group mean, and SS_between is non-negative. */
  lemma MediaPonderadaLimitadaWelch(gs: seq<GrupoAnova>, pesos: seq<real>, lo: real, hi: real)
    requires |pesos| == |gs| >= 1
    requires forall i :: 0 <= i < |gs| ==> pesos[i] > 0.0 && lo <= gs[i].media <= hi
    ensures MediaPonderada(gs, pesos).Ok?
    ensures lo <= MediaPonderada(gs, pesos).value <= hi
    ensures SomaQuadradosEntreWelch(gs, pesos, MediaPonderada(gs, pesos).value) >= 0.0
  {
    var ps := ParesWelch(gs, pesos);
    SomaPesosWelch(gs, pesos);
    SomaPositiva(pesos);
    MediaPonderadaLimitada(ps, lo, hi);
    SomaQuadradosNaoNegativa(ps, MediaPonderada(gs, pesos).value);
  }

  lemma {:induction false} SomaPositiva(s: seq<real>)
    requires |s| >= 1 && forall i :: 0 <= i < |s| ==> s[i] > 0.0
    ensures Soma(s) > 0.0
  {
    if |s| > 1 {
      SomaPositiva(s[..|s| - 1]);
    } else {
      assert Soma(s[..0]) == 0.0;
    }
  }

  lemma {:induction false} SomaDosQuadradosPositiva(s: seq<real>)
    requires |s| >= 1 && forall i :: 0 <= i < |s| ==> s[i] > 0.0
    ensures SomaDosQuadrados(s) > 0.0
  {
    var x := s[|s| - 1];
    var anterior := SomaDosQuadrados(s[..|s| - 1]);
    QuadradoPositivo(x);
    if |s| > 1 {
      SomaDosQuadradosPositiva(s[..|s| - 1]);
    } else {
      assert s[..|s| - 1] == [];
    }
    assert SomaDosQuadrados(s) == anterior + Quadrado(x);
  }

  lemma DivisaoComparada(a: real, b: real, c: real, d: real)
    requires b > 0.0 && d > 0.0 && a * d <= c * b
    ensures a / b <= c / d
  {
    var x := a / b;
    var y := c / d;
    assert a == x * b;
    assert c == y * d;
    assert x * b * d <= y * d * b;
  }

  /** s2 / (q - q/k) between k/(k-1) and k^2/(k-1) when q <= s2 <= k q. */
  lemma RazaoLimitada(s2: real, q: real, k: real)
    requires k >= 2.0 && q > 0.0 && q <= s2 <= k * q
    ensures q - q / k > 0.0
    ensures k / (k - 1.0) <= s2 / (q - q / k) <= k * k / (k - 1.0)
  {
    var d := q - q / k;
    assert q / k * k == q;
    assert d * k == q * (k - 1.0);
    assert q * (k - 1.0) > 0.0;
    assert k * d == q * (k - 1.0);
    assert q * (k - 1.0) <= s2 * (k - 1.0);
    DivisaoComparada(k, k - 1.0, s2, d);
    assert k * k * d == k * q * (k - 1.0);
    assert s2 * (k - 1.0) <= k * q * (k - 1.0);
    DivisaoComparada(s2, d, k * k, k - 1.0);
  }

  /** With k >= 2 positive weights the adjusted df exist and lie between
      k/(k-1) (one dominant weight) and k^2/(k-1) (equal weights). */
  lemma GrausLiberdadeAjustadosLimitados(pesos: seq<real>)
    requires |pesos| >= 2 && forall i :: 0 <= i < |pesos| ==> pesos[i] > 0.0
    ensures GrausLiberdadeAjustados(pesos, |pesos|).Ok?
    ensures var k := |pesos| as real;
      k / (k - 1.0) <= GrausLiberdadeAjustados(pesos, |pesos|).value <= k * k / (k - 1.0)
  {
    assert NaoNegativos(pesos);
    QuadradoDaSomaMajora(pesos);
    CauchySchwarz(pesos);
    SomaDosQuadradosPositiva(pesos);
    RazaoLimitada(Soma(pesos) * Soma(pesos), SomaDosQuadrados(pesos), |pesos| as real);
  }

  /** Welch F = SS_between / (k - 1). */
  function ValorFWelch(ssEntre: real, k: int): Result<real>
  {
    if k - 1 == 0 then Err(DivisaoPorZero) else Ok(ssEntre / (k - 1) as real)
  }

  datatype ResultadoWelch = ResultadoWelch(
    mediaPonderada: real,
    somaQuadradosEntre: real,
    grausLiberdadeAjustados: real,
    valorF: real,
    valorP: real,
    alpha: real,
    rejeita: bool)

  function ResultadoWelchEsperado(p: Primitivas, gs: seq<GrupoAnova>, alpha: real): Result<ResultadoWelch>
  {
    var pesos :- PesosWelch(gs);
    var m :- MediaPonderada(gs, pesos);
    var ssEntre := SomaQuadradosEntreWelch(gs, pesos, m);
    var gl :- GrausLiberdadeAjustados(pesos, |gs|);
    var f :- ValorFWelch(ssEntre, |gs|);
    var valorP := ValorPF(p, f, (|gs| - 1) as real, gl);
    Ok(ResultadoWelch(m, ssEntre, gl, f, valorP, alpha, Rejeita(valorP, alpha)))
  }

  /** ANOVAWelch.realizar_teste. */
  method RealizarWelch(p: Primitivas, gs: seq<GrupoAnova>, alpha: real) returns (r: Result<ResultadoWelch>)
    ensures r == ResultadoWelchEsperado(p, gs, alpha)
  {
    var pesos := PesosWelch(gs);
    if pesos.Err? {
      return Err(pesos.erro);
    }
    var m := MediaPonderada(gs, pesos.value);
    if m.Err? {
      return Err(m.erro);
    }
    var ssEntre := SomaQuadradosEntreWelch(gs, pesos.value, m.value);
    var gl := GrausLiberdadeAjustados(pesos.value, |gs|);
    if gl.Err? {
      return Err(gl.erro);
    }
    var f := ValorFWelch(ssEntre, |gs|);
    if f.Err? {
      return Err(f.erro);
    }
    var valorP := CalcularValorP(p, f.value, (|gs| - 1) as real, gl.value);
    r := Ok(ResultadoWelch(m.value, ssEntre, gl.value, f.value, valorP, alpha, Rejeita(valorP, alpha)));
  }

  /** Welch's ANOVA on k >= 2 groups with positive sizes and non-zero
      deviations always completes; F is SS_between/(k-1) >= 0, the df are in
      [k/(k-1), k^2/(k-1)] and the verdict is p < alpha. */
  lemma ResultadoWelchCaracterizado(p: Primitivas, gs: seq<GrupoAnova>, alpha: real, lo: real, hi: real)
    requires |gs| >= 2
    requires forall i :: 0 <= i < |gs| ==> gs[i].tamanho > 0 && gs[i].desvio != 0.0 && lo <= gs[i].media <= hi
    ensures ResultadoWelchEsperado(p, gs, alpha).Ok?
    ensures var r := ResultadoWelchEsperado(p, gs, alpha).value;
      var k := |gs| as real;
      && lo <= r.mediaPonderada <= hi
      && r.somaQuadradosEntre >= 0.0
      && r.valorF == r.somaQuadradosEntre / (k - 1.0)
      && r.valorF >= 0.0
      && k / (k - 1.0) <= r.grausLiberdadeAjustados <= k * k / (k - 1.0)
      && (r.rejeita <==> r.valorP < alpha)
      && r.valorP <= 1.0
  {
    PesosPositivos(gs);
    var pesos := PesosWelch(gs).value;
    MediaPonderadaLimitadaWelch(gs, pesos, lo, hi);
    GrausLiberdadeAjustadosLimitados(pesos);
    var m := MediaPonderada(gs, pesos).value;
    ValorFWelchNaoNegativo(SomaQuadradosEntreWelch(gs, pesos, m), |gs|);
    var r := ResultadoWelchEsperado(p, gs, alpha).value;
    ValorPLimitado(p, DensidadeF((|gs| - 1) as real, r.grausLiberdadeAjustados), r.valorF);
  }

  /** A non-negative SS_between over k - 1 >= 1. */
  lemma ValorFWelchNaoNegativo(ssEntre: real, k: int)
    requires k >= 2 && ssEntre >= 0.0
    ensures ValorFWelch(ssEntre, k).Ok?
    ensures ValorFWelch(ssEntre, k).value == ssEntre / (k as real - 1.0) >= 0.0
  {
  }
}
