// The homoscedasticity test of estatistica/testes/homocedasticidade.py (class
// TesteHomocedasticidade; experimentacao/picker_simples/teste_homocedasticidade.py
// is the same file): the normality scan that picks Bartlett or Levene, both
// statistics over aggregated groups, and the fixed-threshold verdict.

module Homocedasticidade {
  import opened Resultados
  import opened Biblioteca
  import opened Somas

  /** One entry of `grupos_agregados`; "media" and "normal" are optional keys. */
  datatype GrupoAgregado = GrupoAgregado(variancia: real, tamanho: int, media: Option<real>, normal: Option<bool>)

  /** N: the sum of the group sizes. */
  function Total(gs: seq<GrupoAgregado>): int
  {
    if |gs| == 0 then 0 else Total(gs[..|gs| - 1]) + gs[|gs| - 1].tamanho
  }

  // ---------------------------------------------------------------------
  // The normality scan (_verificar_normalidade_grupos)

  /** The scan: a missing flag raises, the first false flag answers False. */
  function TodosNormais(gs: seq<GrupoAgregado>): Result<bool>
  {
    if |gs| == 0 then Ok(true)
    else if gs[0].normal.None? then Err(ValorInvalido(NormalidadeAusente))
    else if !gs[0].normal.value then Ok(false)
    else TodosNormais(gs[1..])
  }

  /** The loop with its early return. */
  method VerificarNormalidadeGrupos(gs: seq<GrupoAgregado>) returns (r: Result<bool>)
    ensures r == TodosNormais(gs)
  {
    var i := 0;
    while i < |gs|
      invariant 0 <= i <= |gs|
      invariant TodosNormais(gs) == TodosNormais(gs[i..])
    {
      assert gs[i..][1..] == gs[i + 1..];
      if gs[i].normal.None? {
        return Err(ValorInvalido(NormalidadeAusente));
      }
      if !gs[i].normal.value {
        return Ok(false);
      }
      i := i + 1;
    }
    r := Ok(true);
  }

  /** Every group before position i is flagged normal. */
  predicate NormaisAte(gs: seq<GrupoAgregado>, i: int)
    requires 0 <= i <= |gs|
  {
    forall j :: 0 <= j < i ==> gs[j].normal == Some(true)
  }

  /** The scan answers True iff every flag is present and true, and raises
      iff a flag is missing before the first false one. */
  lemma {:induction false} TodosNormaisCaracterizado(gs: seq<GrupoAgregado>)
    ensures TodosNormais(gs) == Ok(true) <==> NormaisAte(gs, |gs|)
    ensures TodosNormais(gs).Err? <==> exists i :: 0 <= i < |gs| && gs[i].normal.None? && NormaisAte(gs, i)
    ensures TodosNormais(gs).Err? ==> TodosNormais(gs) == Err(ValorInvalido(NormalidadeAusente))
  {
    if |gs| > 0 && gs[0].normal == Some(true) {
      var cauda := gs[1..];
      TodosNormaisCaracterizado(cauda);
      assert NormaisAte(gs, |gs|) <==> NormaisAte(cauda, |cauda|) by {
        if NormaisAte(cauda, |cauda|) {
          forall j | 0 <= j < |gs| ensures gs[j].normal == Some(true) {
            if j > 0 { assert gs[j] == cauda[j - 1]; }
          }
        }
      }
      if TodosNormais(gs).Err? {
        var i :| 0 <= i < |cauda| && cauda[i].normal.None? && NormaisAte(cauda, i);
        assert gs[i + 1] == cauda[i];
        assert NormaisAte(gs, i + 1) by {
          forall j | 0 <= j < i + 1 ensures gs[j].normal == Some(true) {
            if j > 0 { assert gs[j] == cauda[j - 1]; }
          }
        }
      }
      if exists i :: 0 <= i < |gs| && gs[i].normal.None? && NormaisAte(gs, i) {
        var i :| 0 <= i < |gs| && gs[i].normal.None? && NormaisAte(gs, i);
        assert i > 0;
        assert cauda[i - 1] == gs[i];
        assert NormaisAte(cauda, i - 1) by {
          forall j | 0 <= j < i - 1 ensures cauda[j].normal == Some(true) {
            assert cauda[j] == gs[j + 1];
          }
        }
      }
    } else if |gs| > 0 && gs[0].normal.None? {
      assert NormaisAte(gs, 0);
    } else if |gs| > 0 {
      forall i | 0 <= i < |gs| && gs[i].normal.None? ensures !NormaisAte(gs, i) {
        assert i > 0 && gs[0].normal != Some(true);
      }
    }
  }

  // ---------------------------------------------------------------------
  // Weighted views of the groups

  /** (n_i - c, d_i) for every group: c = 0 gives the Levene weights, c = 1
      the degrees of freedom of Bartlett and of Levene's within term. */
  function Ponderados(gs: seq<GrupoAgregado>, d: seq<real>, c: int): (ps: seq<Par>)
    requires |d| == |gs|
    ensures |ps| == |gs|
  {
    seq(|gs|, i requires 0 <= i < |gs| => Par((gs[i].tamanho - c) as real, d[i]))
  }

  /** The variances in group order. */
  function Variancias(gs: seq<GrupoAgregado>): (v: seq<real>)
    ensures |v| == |gs|
  {
    seq(|gs|, i requires 0 <= i < |gs| => gs[i].variancia)
  }

  /** The weights of `Ponderados` add up to N - c*k. */
  lemma {:induction false} SomaPesosPonderados(gs: seq<GrupoAgregado>, d: seq<real>, c: int)
    requires |d| == |gs|
    ensures SomaPesos(Ponderados(gs, d, c)) == (Total(gs) - c * |gs|) as real
  {
    if |gs| > 0 {
      var n := |gs| - 1;
      assert Ponderados(gs, d, c)[..n] == Ponderados(gs[..n], d[..n], c);
      SomaPesosPonderados(gs[..n], d[..n], c);
    }
  }

  /** Sizes of at least m add up to at least m*k. */
  lemma {:induction false} TotalMinimo(gs: seq<GrupoAgregado>, m: int)
    requires forall i :: 0 <= i < |gs| ==> gs[i].tamanho >= m
    ensures Total(gs) >= m * |gs|
  {
    if |gs| > 0 {
      TotalMinimo(gs[..|gs| - 1], m);
    }
  }

  // ---------------------------------------------------------------------
  // Bartlett (_calcular_estatistica_bartlett)

  /** S2_p = sum((n_i - 1) v_i) / (N - k). */
  function VarianciaCombinada(gs: seq<GrupoAgregado>): Result<real>
  {
    if Total(gs) - |gs| == 0 then Err(DivisaoPorZero)
    else Ok(SomaPonderada(Ponderados(gs, Variancias(gs), 1)) / (Total(gs) - |gs|) as real)
  }

  /** sum((n_i - 1) log v_i), each log on its domain, in group order. */
  function SomaLogs(p: Primitivas, gs: seq<GrupoAgregado>): Result<real>
  {
    if |gs| == 0 then Ok(0.0)
    else
      var anterior :- SomaLogs(p, gs[..|gs| - 1]);
      var g := gs[|gs| - 1];
      if g.variancia <= 0.0 then Err(DominioMatematico)
      else Ok(anterior + (g.tamanho - 1) as real * p.log(g.variancia))
  }

  /** sum(1 / (n_i - 1)), in group order. */
  function SomaInversos(gs: seq<GrupoAgregado>): Result<real>
  {
    if |gs| == 0 then Ok(0.0)
    else
      var anterior :- SomaInversos(gs[..|gs| - 1]);
      var g := gs[|gs| - 1];
      if g.tamanho - 1 == 0 then Err(DivisaoPorZero)
      else Ok(anterior + 1.0 / (g.tamanho - 1) as real)
  }

  /** B = numerator / denominator, raising in Python's evaluation order. */
  function EstatisticaBartlett(p: Primitivas, gs: seq<GrupoAgregado>): Result<real>
  {
    var k := |gs|;
    var nk := Total(gs) - k;
    var s2 :- VarianciaCombinada(gs);
    if s2 <= 0.0 then Err(DominioMatematico)
    else
      var logs :- SomaLogs(p, gs);
      var numerador := nk as real * p.log(s2) - logs;
      if 3 * (k - 1) == 0 then Err(DivisaoPorZero)
      else
        var inversos :- SomaInversos(gs);
        var denominador := 1.0 + (1.0 / (3 * (k - 1)) as real) * (inversos - 1.0 / nk as real);
        if denominador == 0.0 then Err(DivisaoPorZero) else Ok(numerador / denominador)
  }

  /** With every group of size at least 2 the pooled variance exists and lies
      between the smallest and the largest group variance. */
  lemma VarianciaCombinadaLimitada(gs: seq<GrupoAgregado>, lo: real, hi: real)
    requires |gs| >= 1
    requires forall i :: 0 <= i < |gs| ==> gs[i].tamanho >= 2 && lo <= gs[i].variancia <= hi
    ensures VarianciaCombinada(gs).Ok?
    ensures lo <= VarianciaCombinada(gs).value <= hi
  {
    var ps := Ponderados(gs, Variancias(gs), 1);
    TotalMinimo(gs, 2);
    SomaPesosPonderados(gs, Variancias(gs), 1);
    MediaPonderadaLimitada(ps, lo, hi);
  }

  /** One group, or a group of size 1, makes the statistic divide by zero
      once the pooled variance and the logs exist. */
  lemma BartlettUmGrupo(p: Primitivas, gs: seq<GrupoAgregado>)
    requires |gs| == 1 && VarianciaCombinada(gs).Ok? && VarianciaCombinada(gs).value > 0.0 && SomaLogs(p, gs).Ok?
    ensures EstatisticaBartlett(p, gs) == Err(DivisaoPorZero)
  {
  }

  // ---------------------------------------------------------------------
  // Levene (_calcular_estatistica_levene)

  /** What the collecting loop produces: the variances, unless a group has no
      "media". */
  function Desvios(gs: seq<GrupoAgregado>): Result<seq<real>>
  {
    if exists i :: 0 <= i < |gs| && gs[i].media.None? then Err(ValorInvalido(MediaAusente))
    else Ok(Variancias(gs))
  }

  /** media_global = sum(d_i n_i) / N. */
  function MediaGlobal(gs: seq<GrupoAgregado>, d: seq<real>): Result<real>
    requires |d| == |gs|
  {
    if Total(gs) == 0 then Err(DivisaoPorZero)
    else Ok(SomaPonderada(Ponderados(gs, d, 0)) / Total(gs) as real)
  }

  /** variancia_entre = sum(n_i (d_i - m)^2) / (k - 1). */
  function VarianciaEntre(gs: seq<GrupoAgregado>, d: seq<real>, m: real): Result<real>
    requires |d| == |gs|
  {
    if |gs| - 1 == 0 then Err(DivisaoPorZero)
    else Ok(SomaQuadrados(Ponderados(gs, d, 0), m) / (|gs| - 1) as real)
  }

  /** variancia_dentro = sum((n_i - 1) d_i) / (N - k). */
  function VarianciaDentro(gs: seq<GrupoAgregado>, d: seq<real>): Result<real>
    requires |d| == |gs|
  {
    if Total(gs) - |gs| == 0 then Err(DivisaoPorZero)
    else Ok(SomaPonderada(Ponderados(gs, d, 1)) / (Total(gs) - |gs|) as real)
  }

  /** W = variancia_entre / variancia_dentro over the collected d_i. */
  function FormulaLevene(gs: seq<GrupoAgregado>, d: seq<real>): Result<real>
    requires |d| == |gs|
  {
    var m :- MediaGlobal(gs, d);
    var entre :- VarianciaEntre(gs, d, m);
    var dentro :- VarianciaDentro(gs, d);
    if dentro == 0.0 then Err(DivisaoPorZero) else Ok(entre / dentro)
  }

  function EstatisticaLevene(gs: seq<GrupoAgregado>): Result<real>
  {
    var d :- Desvios(gs);
    FormulaLevene(gs, d)
  }

  /** The collecting loop (raising on a group without "media"), then the formula. */
  method CalcularLevene(gs: seq<GrupoAgregado>) returns (r: Result<real>)
    ensures r == EstatisticaLevene(gs)
  {
    var desvios: seq<real> := [];
    var i := 0;
    while i < |gs|
      invariant 0 <= i <= |gs|
      invariant desvios == Variancias(gs)[..i]
      invariant forall j :: 0 <= j < i ==> gs[j].media.Some?
    {
      if gs[i].media.None? {
        return Err(ValorInvalido(MediaAusente));
      }
      desvios := desvios + [gs[i].variancia];
      i := i + 1;
    }
    assert desvios == Variancias(gs);
    r := FormulaLevene(gs, desvios);
  }

  /** Levene's within term is Bartlett's pooled variance. */
  lemma DentroIgualCombinada(gs: seq<GrupoAgregado>)
    ensures VarianciaDentro(gs, Variancias(gs)) == VarianciaCombinada(gs)
  {
  }

  /** With sizes >= 0 the between term is never negative. */
  lemma VarianciaEntreNaoNegativa(gs: seq<GrupoAgregado>, d: seq<real>, m: real)
    requires |d| == |gs| && |gs| >= 2
    requires forall i :: 0 <= i < |gs| ==> gs[i].tamanho >= 0
    ensures VarianciaEntre(gs, d, m).Ok? && VarianciaEntre(gs, d, m).value >= 0.0
  {
    SomaQuadradosNaoNegativa(Ponderados(gs, d, 0), m);
  }

  /** With positive sizes, equal variances give a between term of exactly 0,
      and a between term of 0 about the global mean forces equal variances. */
  lemma VarianciaEntreNula(gs: seq<GrupoAgregado>, c: real)
    requires |gs| >= 2
    requires forall i :: 0 <= i < |gs| ==> gs[i].tamanho > 0
    ensures MediaGlobal(gs, Variancias(gs)).Ok?
    ensures var m := MediaGlobal(gs, Variancias(gs)).value;
      (forall i :: 0 <= i < |gs| ==> gs[i].variancia == c) ==> m == c && VarianciaEntre(gs, Variancias(gs), m) == Ok(0.0)
    ensures var m := MediaGlobal(gs, Variancias(gs)).value;
      VarianciaEntre(gs, Variancias(gs), m) == Ok(0.0) ==> forall i :: 0 <= i < |gs| ==> gs[i].variancia == m
  {
    var ps := Ponderados(gs, Variancias(gs), 0);
    TotalMinimo(gs, 1);
    SomaPesosPonderados(gs, Variancias(gs), 0);
    var m := MediaGlobal(gs, Variancias(gs)).value;
    SomaQuadradosNula(ps, m);
    if forall i :: 0 <= i < |gs| ==> gs[i].variancia == c {
      assert ValoresIguais(ps, c);
      MediaPonderadaConstante(ps, c);
    }
    if VarianciaEntre(gs, Variancias(gs), m) == Ok(0.0) {
      assert SomaQuadrados(ps, m) == 0.0;
      forall i | 0 <= i < |gs| ensures gs[i].variancia == m {
        assert ps[i].valor == m;
      }
    }
  }

  /** A group without "media" makes Levene raise, whatever the data. */
  lemma LeveneExigeMedia(gs: seq<GrupoAgregado>, i: int)
    requires 0 <= i < |gs| && gs[i].media.None?
    ensures EstatisticaLevene(gs) == Err(ValorInvalido(MediaAusente))
  {
  }

  // ---------------------------------------------------------------------
  // The test (realizar_teste)

  datatype TesteUtilizado = Bartlett | Levene

  /** The two messages, each quoting alpha. */
  datatype Mensagem = SaoHomocedasticos(alpha: real) | NaoSaoHomocedasticos(alpha: real)

  datatype ResultadoHomocedasticidade = ResultadoHomocedasticidade(
    teste: TesteUtilizado,
    estatistica: real,
    valorCritico: real,
    alpha: real,
    homocedastico: bool,
    mensagem: Mensagem)

  /** The critical values, fixed for alpha = 0.05. */
  function ValorCritico(teste: TesteUtilizado): real
  {
    match teste
    case Bartlett => 3.841
    case Levene => 2.5
  }

  function Veredito(teste: TesteUtilizado, estatistica: real, alpha: real): ResultadoHomocedasticidade
  {
    var homocedastico := estatistica < ValorCritico(teste);
    ResultadoHomocedasticidade(teste, estatistica, ValorCritico(teste), alpha, homocedastico,
      if homocedastico then SaoHomocedasticos(alpha) else NaoSaoHomocedasticos(alpha))
  }

  function ResultadoTeste(p: Primitivas, gs: seq<GrupoAgregado>, alpha: real): Result<ResultadoHomocedasticidade>
  {
    var todosNormais :- TodosNormais(gs);
    if todosNormais then
      var b :- EstatisticaBartlett(p, gs);
      Ok(Veredito(Bartlett, b, alpha))
    else
      var w :- EstatisticaLevene(gs);
      Ok(Veredito(Levene, w, alpha))
  }

  /** realizar_teste: scan, pick the statistic, compare with its threshold. */
  method RealizarTeste(p: Primitivas, gs: seq<GrupoAgregado>, alpha: real) returns (r: Result<ResultadoHomocedasticidade>)
    ensures r == ResultadoTeste(p, gs, alpha)
  {
    var todosNormais := VerificarNormalidadeGrupos(gs);
    if todosNormais.Err? {
      return Err(todosNormais.erro);
    }
    var teste: TesteUtilizado;
    var estatistica: Result<real>;
    if todosNormais.value {
      teste := Bartlett;
      estatistica := EstatisticaBartlett(p, gs);
    } else {
      teste := Levene;
      estatistica := CalcularLevene(gs);
    }
    if estatistica.Err? {
      return Err(estatistica.erro);
    }
    r := Ok(Veredito(teste, estatistica.value, alpha));
  }

  /** Bartlett is used iff every group is flagged normal; the verdict is
      "statistic below the test's critical value" and the message agrees. */
  lemma ResultadoCaracterizado(p: Primitivas, gs: seq<GrupoAgregado>, alpha: real)
    requires ResultadoTeste(p, gs, alpha).Ok?
    ensures var r := ResultadoTeste(p, gs, alpha).value;
      && (r.teste == Bartlett <==> forall i :: 0 <= i < |gs| ==> gs[i].normal == Some(true))
      && r.valorCritico == (if r.teste == Bartlett then 3.841 else 2.5)
      && (r.homocedastico <==> r.estatistica < r.valorCritico)
      && r.mensagem == (if r.homocedastico then SaoHomocedasticos(alpha) else NaoSaoHomocedasticos(alpha))
      && r.estatistica == (if r.teste == Bartlett then EstatisticaBartlett(p, gs).value else EstatisticaLevene(gs).value)
  {
    TodosNormaisCaracterizado(gs);
  }

  /** alpha is only echoed: it changes neither the outcome nor the verdict. */
  lemma AlphaSoEcoado(p: Primitivas, gs: seq<GrupoAgregado>, a1: real, a2: real)
    ensures ResultadoTeste(p, gs, a1).Ok? <==> ResultadoTeste(p, gs, a2).Ok?
    ensures ResultadoTeste(p, gs, a1).Ok? ==>
      var r1 := ResultadoTeste(p, gs, a1).value;
      var r2 := ResultadoTeste(p, gs, a2).value;
      r1.teste == r2.teste && r1.estatistica == r2.estatistica && r1.homocedastico == r2.homocedastico
  {
  }
}
