# A/B/n test picker and sample-size calculator, in Dafny

This project models the statistics engine of `marcoantonioaragon/estudos`. It has two parts.

**The test selector.** `MotorEstatistico` receives a list of group dictionaries. It runs a normality ensemble on every group and writes the verdict into the group's `"normal"` key. It then picks a hypothesis test from three things: the number of groups, the normality flags and a homoscedasticity flag. Finally it runs the test it picked.

**The sample-size calculator.** `CalculadoraAmostralABn` validates its parameters and normalises the allocation proportions. It corrects alpha for multiple comparisons and computes the minimum size of the control group, for a numeric or a categorical metric. It then splits the total over the variants.

The modules follow the Python files:

| module | file | what it holds |
|---|---|---|
| `Motor` | `estatistica/motor_estatistico.py` | the selector object, the normality pass over the caller's groups (a loop over an `array`), the decision table and the dispatch |
| `Normalidade` | `estatistica/testes/normalidade.py` | Box-Muller generation, Shapiro-Wilk with Royston's approximation, Anderson-Darling, Kolmogorov-Smirnov, the polynomial `erf`, the ensemble vote |
| `Homocedasticidade` | `estatistica/testes/homocedasticidade.py` | the normality scan, Bartlett's and Levene's statistics, the fixed critical values |
| `Anova` | `estatistica/testes/anova.py` | one-way ANOVA and Welch's ANOVA on (mean, size, standard deviation) triples |
| `Qui` | `estatistica/testes/qui.py` | the chi-square test on conversion rates |
| `MannWhitney` | `estatistica/testes/mann_whitney.py` | U, its moments under the null hypothesis, the normal p-value |
| `TesteZ`, `TesteT` | `estatistica/testes/z_test.py`, `t_test.py` | the one-sample tests; the T test's CDF is a stub, so the T test never completes |
| `Calculadora` | `experimentacao/calculadora.py` | the calculator object and the pure calculation it performs |
| `Integracao` | shared by `anova.py` and `qui.py` | the 1000-step trapezoid CDF and the reject rule `p < alpha` |
| `NormalBilateral` | shared by `z_test.py` and `mann_whitney.py` | `2 (1 - Phi(|z|))` with the library `erf` |
| `Somas`, `Ordenacao` | (support) | sums, weighted sums and sums of squares; `sorted` |
| `Resultados`, `Biblioteca` | (support) | Python's exceptions as `Erro` values in a `Result`; the library functions the code calls |

Some source files exist twice, and each copy is byte-identical to its original:

- `experimentacao/picker_simples/anova.py` is a copy of `estatistica/testes/anova.py`;
- `experimentacao/picker_simples/qui.py` is a copy of `estatistica/testes/qui.py`;
- `experimentacao/picker_simples/teste_homocedasticidade.py` is a copy of `estatistica/testes/homocedasticidade.py`.

Every row below that cites one of the originals holds for its copy at the same lines.

A Python exception is an `Err` of the `Result` the modelled function returns. The same exceptions are raised, in the order the Python code meets them:

- `ZeroDivisionError`;
- the math domain error of `log` and `sqrt`;
- `IndexError` and `KeyError`;
- the `TypeError` of `1 - None`;
- `UnboundLocalError`;
- each of the program's own `ValueError`s, with its reason.

Library functions are opaque parameters, bundled in a `Primitivas` value: `math.sqrt`, `log`, `exp`, `cos`, `sin`, `erf`, the F and chi-square densities, `scipy.stats.norm.ppf` and `**` with a fractional exponent. A lemma that needs a fact about one of them states it in its `requires`, for example `RaizCoerente` (a square root that is positive on positive numbers). The random generator is a stream `fluxo: nat -> real` read from an offset. Each group consumes exactly the uniforms its sample draws.

## Model

| member | source | states |
|---|---|---|
| Motor.MotorEstatistico.constructor | estatistica/motor_estatistico.py:28-29 | the object keeps the caller's list itself (not a copy) and its length |
| Motor.CriarMotor | estatistica/motor_estatistico.py:15-30 | construction runs the normality pass on the caller's list; the groups afterwards, and the exception if any, are exactly those of the pass `Normalizar` |
| Motor.MotorEstatistico.VerificarNormalidade | estatistica/motor_estatistico.py:32-48 | the loop writes each group's verdict in order; on return the list and the exception equal the pass `Normalizar` from the old list |
| Motor.MotorEstatistico.PassoDoLaco | estatistica/motor_estatistico.py:37-48 | one turn either stops with the list as it stands and the exception, or flags group i and leaves the rest of the pass unchanged from the next group and the next free random number |
| Motor.MotorEstatistico.MarcarGrupo | estatistica/motor_estatistico.py:38-48 | group i gets `normal := verdict` and nothing else changes; an exception (missing "dados", generation or test error) changes nothing |
| Motor.NormalizarPreserva | estatistica/motor_estatistico.py:37-48 | the pass keeps the number and order of the groups and rewrites only "normal"; when it completes, every group carries a flag |
| Motor.NormalizarDesdePreserva | estatistica/motor_estatistico.py:37-48 | the pass resumed at group k returns the |gs| - k remaining groups in order, with only "normal" rewritten, and all of them flagged when it completes |
| Motor.SemDadosFalha | estatistica/motor_estatistico.py:37-40 | if any group lacks "dados", construction raises (that group or an earlier one raises first) |
| Motor.SemDadosDesdeFalha | estatistica/motor_estatistico.py:37-40 | when the verdict fails on every group without "dados", a pass resumed at any group before such a group raises |
| Motor.PrimeiroSemDados | estatistica/motor_estatistico.py:38-40 | a first group without "dados" raises that ValueError before any group is changed |
| Motor.TodosNormaisCaracterizado | estatistica/motor_estatistico.py:66 | `all()` gives True iff every flag is true; it raises KeyError iff a flag is missing before the first false one |
| Motor.EscolhaAposVerificacao | estatistica/motor_estatistico.py:66-94 | after a completed normality pass, the decision always names a test: `all()` cannot raise |
| Motor.EscolhaCoerente | estatistica/motor_estatistico.py:69-94 | a one-sample test iff 1 group; a two-sample test iff 2 groups; a several-sample test otherwise; a parametric test iff every group is normal; never chi-square |
| Motor.EscolhaPorHomocedasticidade | estatistica/motor_estatistico.py:76-92 | with two or more groups, all normal, the flag picks the variant: the pooled two-sample T test or ANOVA when homoscedastic, Welch's T test or Welch's ANOVA otherwise |
| Motor.HomocedasticidadeIrrelevante | estatistica/motor_estatistico.py:69-94 | with one group, or with a group that is not normal, the homoscedasticity flag does not change the choice |
| Motor.UmGrupoNormal | estatistica/motor_estatistico.py:69-72 | one normal group gets the Z test above 30 observations and the T test up to 30 |
| Motor.ListaVazia | estatistica/motor_estatistico.py:66-150 | in the decision table, with the homoscedasticity verdict as an input, an empty list is "all normal" and falls into the ANOVA branch, whose dispatch then fails on `grupos[0]`; the program itself raises earlier, in the homoscedasticity test (see Left out) |
| Motor.NaoNormalSemTeste | estatistica/motor_estatistico.py:160-161 | with 1 or with 3 or more groups, one not normal leads to Wilcoxon or Kruskal-Wallis, which always ends in "not implemented" |
| Motor.DuasNormaisFalham | estatistica/motor_estatistico.py:119-124 | two normal groups reach a `pass` branch: `teste` is unbound and the call always fails |
| Motor.UmaNormalPequenaFalha | estatistica/motor_estatistico.py:112-118 | one normal group of at most 30 observations gets the T test, which never completes |
| Motor.UmaNormalGrande | estatistica/motor_estatistico.py:105-111 | one normal group of more than 30 observations gets exactly the Z test on group 0 against mu0 = 0 |
| Motor.MannWhitneyEscolhido | estatistica/motor_estatistico.py:125-134 | two groups, one not normal: a missing rank sum raises; with both rank sums and positive sizes, Mann-Whitney completes |
| Motor.AnovaSoDoisGrupos | estatistica/motor_estatistico.py:135-150 | with 3 or more normal groups, only groups 0 and 1 reach ANOVA or Welch's ANOVA, so the later groups never change the result; the flag picks the variant |
| Motor.QuiSemTaxaFalha | estatistica/motor_estatistico.py:151-159 | the chi-square branch fails whenever some group has no "taxa_conversao" |
| Motor.Taxas | estatistica/motor_estatistico.py:157-158 | the rate list matches the groups one for one; it fails iff some group has no rate |
| Motor.QuiRecebeTodosOsGrupos | estatistica/motor_estatistico.py:151-159 | with two or more groups, all with a rate, the chi-square branch hands the test one (size, rate) pair per group, in order, so the test's `zip` drops none; the outcome is the test's own |
| Normalidade.GerarDados | estatistica/testes/normalidade.py:26-46 | the method's result is the sample `Amostra`: the pairs, then one `pop` for odd n |
| Normalidade.GerarPares | estatistica/testes/normalidade.py:27-40 | the loop's list is `Pares` after m passes, or the first pass's error |
| Normalidade.ParesErroPropaga | estatistica/testes/normalidade.py:29-34 | a pass that raises ends the generation: no later pass changes the outcome |
| Normalidade.ParesComprimento | estatistica/testes/normalidade.py:40 | every pass appends exactly two values |
| Normalidade.AmostraComprimento | estatistica/testes/normalidade.py:27-44 | a generated sample has n values for even n, but n - 2 values for odd n (see Findings) |
| Normalidade.AmostraImparPequena | estatistica/testes/normalidade.py:43-44 | size 1, or any negative odd size, pops from an empty list |
| Normalidade.AmostraCorrigidaComprimento | estatistica/testes/normalidade.py:27-44 | with (n + 1) // 2 passes, every n >= 0 gets exactly n values; it fails only when a pass fails |
| Normalidade.CaudaPar | estatistica/testes/normalidade.py:146-147 | the polynomial tail depends only on abs(x) and x*x |
| Normalidade.ErfImpar | estatistica/testes/normalidade.py:146-148 | the erf approximation is odd away from 0 |
| Normalidade.ErfEmZero | estatistica/testes/normalidade.py:139-148 | at 0 the coefficients give erf(0) = 1e-9, not 0 |
| Normalidade.SomaEspelhadaPrefixo | estatistica/testes/normalidade.py:64 | the first k mirrored differences add up to a times (the sum of the last k values minus the sum of the first k) |
| Normalidade.SomaEspelhadaNula | estatistica/testes/normalidade.py:61-64 | with equal coefficients 1/sqrt(n), the numerator's sum is exactly 0 |
| Normalidade.ShapiroNulo | estatistica/testes/normalidade.py:52-67 | whenever W is computed at all, it is 0 |
| Normalidade.ShapiroTamanho | estatistica/testes/normalidade.py:52-54 | W raises its size error iff n < 3 or n > 5000 |
| Normalidade.ParametrosRegimes | estatistica/testes/normalidade.py:79-86 | Royston's mu and gamma for n <= 11 and for n > 11; both share sigma's exponent, and the mu of the two regimes differ by a fixed offset |
| Normalidade.RoystonEmZero | estatistica/testes/normalidade.py:75-91 | for W = 0 and n <= 5000, with a positive exp, the p-value exists and depends only on n |
| Normalidade.RoystonEmZeroOk | estatistica/testes/normalidade.py:89-90 | a p-value computed for W = 0 is 1 - Phi((log 1 - mu) / sigma) |
| Normalidade.CalcularAD | estatistica/testes/normalidade.py:97-108 | the method's result is A² as `EstatisticaAD` defines it, including its division and log domain errors |
| Normalidade.SomarAD | estatistica/testes/normalidade.py:103-108 | the loop starts A² at -n and subtracts the terms in order; it stops at the first log domain error |
| Normalidade.SomaADErroPropaga | estatistica/testes/normalidade.py:104-107 | once a step raises, no later step changes the outcome |
| Normalidade.CalcularKS | estatistica/testes/normalidade.py:114-126 | the method's result is D as `EstatisticaKS` defines it |
| Normalidade.MaiorLacunaMaximo | estatistica/testes/normalidade.py:120-125 | D is at least every gap abs((i+1)/n - Phi(z_i)) and is either 0 or one of those gaps (a true maximum) |
| Normalidade.EstatisticasPermutacao | estatistica/testes/normalidade.py:52-126 | W, A² and D see the data only through `sorted`, so reordering the data changes none of them |
| Normalidade.CriarTesteNormalidade | estatistica/testes/normalidade.py:5-17 | the constructor stores the aggregates and the generated sample; otherwise it raises the generation's error |
| Normalidade.VotacaoCaracterizada | estatistica/testes/normalidade.py:249-263 | the vote is a majority of three when Shapiro-Wilk applies, and a disjunction of the other two otherwise |
| Normalidade.EnsembleVeredito | estatistica/testes/normalidade.py:232-263 | in a completed ensemble, Shapiro applies iff n <= 5000; each vote is p > alpha, A² < 0.75 or D < 0.05; the decision is the vote |
| Normalidade.EnsembleShapiro | estatistica/testes/normalidade.py:232-235 | the ensemble's Shapiro entry is `realizar_teste_shapiro`'s answer |
| Normalidade.RealizarShapiroNulo | estatistica/testes/normalidade.py:161-165 | `realizar_teste_shapiro` returns W = 0, with Royston's p-value for the declared size |
| Normalidade.ShapiroSoDependeDoTamanho | estatistica/testes/normalidade.py:161-165 | the Shapiro-Wilk part of a completed ensemble depends only on the declared size, not on the data |
| Normalidade.TamanhoTresFalha | estatistica/testes/normalidade.py:43-54 | a declared size of 3 counts as applicable, yet the sample has one value and Shapiro-Wilk raises |
| Homocedasticidade.VerificarNormalidadeGrupos | estatistica/testes/homocedasticidade.py:100-105 | the loop with its early return computes the scan `TodosNormais` |
| Homocedasticidade.TodosNormaisCaracterizado | estatistica/testes/homocedasticidade.py:93-105 | True iff every flag is present and true; the scan raises the "normal" ValueError iff a flag is missing before the first false one |
| Homocedasticidade.VarianciaCombinadaLimitada | estatistica/testes/homocedasticidade.py:56 | with every size >= 2, S2_p exists and lies between the smallest and the largest variance |
| Homocedasticidade.BartlettUmGrupo | estatistica/testes/homocedasticidade.py:60 | a single group divides by zero in 1 / (3 (k - 1)) |
| Homocedasticidade.CalcularLevene | estatistica/testes/homocedasticidade.py:66-91 | the method's result is W as `EstatisticaLevene` defines it, raising on a group without "media" |
| Homocedasticidade.LeveneExigeMedia | estatistica/testes/homocedasticidade.py:75-77 | any group without "media" makes Levene raise that ValueError |
| Homocedasticidade.DentroIgualCombinada | estatistica/testes/homocedasticidade.py:87 | Levene's within term, over the variances, is Bartlett's pooled variance S2_p (the same value or the same error) |
| Homocedasticidade.VarianciaEntreNaoNegativa | estatistica/testes/homocedasticidade.py:84 | with k >= 2 and non-negative sizes, the between term exists and is >= 0 |
| Homocedasticidade.VarianciaEntreNula | estatistica/testes/homocedasticidade.py:81-84 | with positive sizes, the between term is 0 iff every variance equals the global mean |
| Homocedasticidade.RealizarTeste | estatistica/testes/homocedasticidade.py:107-155 | the method's result is `ResultadoTeste` |
| Homocedasticidade.ResultadoCaracterizado | estatistica/testes/homocedasticidade.py:133-153 | Bartlett iff every group is normal; the critical value is 3.841 or 2.5; homoscedastic iff statistic < critical value; the message matches |
| Homocedasticidade.AlphaSoEcoado | estatistica/testes/homocedasticidade.py:123-153 | alpha is only echoed: it changes neither the outcome nor the statistic nor the verdict |
| Anova.GrausLiberdade | estatistica/testes/anova.py:76-77 | the two degrees of freedom add up to N - 1 |
| Anova.MediaGeralLimitada | estatistica/testes/anova.py:58-59 | with positive sizes, the grand mean exists and lies between the smallest and the largest group mean |
| Anova.SomaQuadradosDentroNaoNegativa | estatistica/testes/anova.py:67 | with sizes >= 1, SS_within >= 0 |
| Anova.SomaQuadradosEntreNula | estatistica/testes/anova.py:174 | with positive sizes, SS_between >= 0, and it is 0 iff every group mean equals the grand mean |
| Anova.CalcularValorP | estatistica/testes/anova.py:109-124 | the method's result is 1 - cdf_f(F); it is <= 1, and exactly 1 for F <= 0 |
| Anova.RealizarAnova | estatistica/testes/anova.py:177-214 | the method's result is `ResultadoAnovaEsperado` |
| Anova.ResultadoAnovaCaracterizado | estatistica/testes/anova.py:184-213 | df_between = k - 1; the two df add up to N - 1; reject iff p < alpha; p <= 1, and p = 1 when F <= 0 |
| Anova.ValorFNaoNegativo | estatistica/testes/anova.py:195 | F from non-negative sums of squares and positive df is >= 0 |
| Anova.ValorFAnovaNaoNegativo | estatistica/testes/anova.py:184-195 | with positive sizes, a completed ANOVA has F >= 0 |
| Anova.ExemploDocumentado | estatistica/testes/anova.py:153-158 | the documented example gives grand mean 25.6, SS_between 164.8, SS_within 40.8, df (2, 12) and F = 82.4 / 3.4 |
| Anova.PesosWelch | estatistica/testes/anova.py:250 | one weight per group, or a division by zero |
| Anova.PesosPositivos | estatistica/testes/anova.py:250 | positive sizes and non-zero deviations give positive weights |
| Anova.MediaPonderadaLimitadaWelch | estatistica/testes/anova.py:260-272 | with positive weights, the weighted mean exists and lies between the extreme means; the Welch SS_between is >= 0 |
| Anova.GrausLiberdadeAjustadosLimitados | estatistica/testes/anova.py:282-284 | with k >= 2 positive weights, the adjusted df exist and lie in [k/(k-1), k²/(k-1)] |
| Anova.RealizarWelch | estatistica/testes/anova.py:287-324 | the method's result is `ResultadoWelchEsperado` |
| Anova.ResultadoWelchCaracterizado | estatistica/testes/anova.py:294-313 | for k >= 2 groups with positive sizes and non-zero deviations, Welch completes; the mean is bounded; F = SS/(k-1) >= 0; the df are bounded; reject iff p < alpha; p <= 1 |
| Anova.ValorFWelchNaoNegativo | estatistica/testes/anova.py:307 | for k >= 2, Welch's F is SS_between / (k - 1) >= 0 |
| Qui.TaxaCombinadaLimitada | estatistica/testes/qui.py:62 | with positive sizes, the pooled rate exists and lies between the extreme rates |
| Qui.CalcularEstatisticaQui | estatistica/testes/qui.py:55-68 | the method's result is the statistic `EstatisticaQui`, or the pooled rate's division error |
| Qui.EstatisticaComoQuadrados | estatistica/testes/qui.py:62-68 | a computed statistic is sum(n_i (r_i - p)²) / p |
| Qui.EstatisticaQuiNaoNegativa | estatistica/testes/qui.py:65-68 | with non-negative sizes and rates, the statistic is >= 0 |
| Qui.TaxasIguais | estatistica/testes/qui.py:62-68 | equal rates give a statistic of 0, or a division by zero when the common rate is 0 |
| Qui.TaxaCombinadaPermutacao | estatistica/testes/qui.py:62 | reordering the groups leaves the pooled rate unchanged |
| Qui.EstatisticaPermutacao | estatistica/testes/qui.py:55-68 | reordering the groups leaves the statistic, or its error, unchanged |
| Qui.RealizarTesteQui | estatistica/testes/qui.py:134-157 | the method's result is `ResultadoQuiEsperado` |
| Qui.ResultadoQuiCaracterizado | estatistica/testes/qui.py:134-157 | df = k - 1; reject iff p < alpha; p <= 1, and p = 1 when the statistic is <= 0 |
| Qui.ExemploDocumentado | estatistica/testes/qui.py:22-25 | the documented example has pooled rate 0.225, statistic 1.25 / 0.225 and 1 df |
| MannWhitney.EstatisticaU | estatistica/testes/mann_whitney.py:64-66 | U is the smaller of U_A and U_B |
| MannWhitney.VarianciaPositiva | estatistica/testes/mann_whitney.py:77-78 | positive sizes give a positive variance of U |
| MannWhitney.ResultadoCaracterizado | estatistica/testes/mann_whitney.py:105-127 | with positive sizes, the test completes, reports U, echoes alpha and rejects iff p < alpha |
| MannWhitney.TrocaDeGrupos | estatistica/testes/mann_whitney.py:64-90 | swapping the groups changes neither U nor its moments nor the outcome |
| MannWhitney.ValorPSimetrico | estatistica/testes/mann_whitney.py:76-90 | values of U at the same distance from the mean of U get the same p-value |
| MannWhitney.ExemploDocumentado | estatistica/testes/mann_whitney.py:22-25 | the documented example gives U_A = 40 and U_B = -25, so U = -25 |
| TesteZ.SinalDaEstatistica | estatistica/testes/z_test.py:10-11 | with sd > 0 and n > 0, z exists and has the sign of mean - mu0 (zero iff they are equal) |
| TesteZ.EstatisticaFalha | estatistica/testes/z_test.py:10-11 | z raises iff n < 0, sqrt(n) = 0 or sd = 0 |
| TesteZ.ReflexaoDaMedia | estatistica/testes/z_test.py:13-28 | reflecting the mean about mu0 negates z and keeps the p-value and the verdict |
| TesteZ.ResultadoZCaracterizado | estatistica/testes/z_test.py:18-28 | a completed test reports z, the two-sided p-value and alpha, and rejects iff p < alpha |
| TesteT.TesteTNuncaConclui | estatistica/testes/t_test.py:14-19 | the T test never completes: it raises the statistic's error, or else the TypeError of `1 - None` |
| TesteT.TesteTFalhaComNone | estatistica/testes/t_test.py:21-31 | on valid inputs, the failure is always that TypeError |
| NormalBilateral.ValorPSoDependeDoModulo | estatistica/testes/z_test.py:13-16 | the two-sided p-value depends on z only through abs(z) |
| Integracao.Pdf | estatistica/testes/anova.py:101-107 | the integrated density (0 below the support) is never negative |
| Integracao.CdfTrapezios | estatistica/testes/anova.py:109-122 | the loop's integral is the sum of the 1000 trapezoids; it is >= 0, and 0 for x <= 0 |
| Integracao.SomaTrapeziosNaoNegativa | estatistica/testes/qui.py:102-115 | trapezoids of a non-negative density over a non-negative width add up to >= 0 |
| Integracao.ValorPLimitado | estatistica/testes/anova.py:124 | 1 - cdf is <= 1, and exactly 1 for a statistic <= 0 |
| Integracao.EstatisticaNaoPositivaNaoRejeita | estatistica/testes/anova.py:134-137 | a statistic <= 0 never rejects at any alpha <= 1 |
| Ordenacao.Ordenar | estatistica/testes/normalidade.py:56 | `sorted` returns a non-decreasing permutation of its input |
| Ordenacao.OrdenarPermutacao | estatistica/testes/normalidade.py:56 | `sorted` depends only on the multiset of its input |
| Somas.SomatorioPermutacao | estatistica/testes/qui.py:62 | the sums over the groups do not depend on their order |
| Somas.MediaPonderadaLimitada | estatistica/testes/anova.py:58-59 | a weighted mean with non-negative weights lies between any bounds of the values |
| Somas.SomaQuadradosNula | estatistica/testes/anova.py:174 | with positive weights, a sum of squared deviations vanishes iff every value equals the centre |
| Somas.SomaQuadradosNaoNegativa | estatistica/testes/anova.py:67 | with non-negative weights, a sum of squared deviations is >= 0 |
| Somas.CauchySchwarz | estatistica/testes/anova.py:282-284 | n times the sum of squares bounds the square of the sum, so the Welch df denominator is positive |
| Somas.QuadradoDaSomaMajora | estatistica/testes/anova.py:282-284 | for non-negative weights, (sum w)² >= sum w² |
| Calculadora.ValidacaoCaracterizada | experimentacao/calculadora.py:61-88 | validation passes iff the configuration meets every check (an empty proportions list skips the length check) |
| Calculadora.ProcessadasCaracterizadas | experimentacao/calculadora.py:90-99 | processed proportions have one entry per variant and add up to exactly 1 |
| Calculadora.ConstrucaoCaracterizada | experimentacao/calculadora.py:58-59 | a completed construction was accepted, and gives one proportion per variant adding up to 1 |
| Calculadora.ListaVaziaFalha | experimentacao/calculadora.py:86-94 | an empty proportions list passes validation but fails the sum check |
| Calculadora.ProximoDeUmPositivo | experimentacao/calculadora.py:93-96 | a sum accepted by `isclose(s, 1.0)` is positive, so normalising never divides by zero |
| Calculadora.SomaDivididas | experimentacao/calculadora.py:96 | dividing every proportion by c divides their sum by c |
| Calculadora.SomaConstante | experimentacao/calculadora.py:99 | k copies of x add up to k x, so the default proportions add up to 1 |
| Calculadora.BonferroniDivide | experimentacao/calculadora.py:101-112 | Bonferroni splits alpha evenly over k - 1 comparisons and never raises it; "nenhuma" keeps alpha |
| Calculadora.TamanhoNumericoCaracterizado | experimentacao/calculadora.py:123-129 | the numeric size fails iff mde = 0 or baseline = 0, and it is otherwise >= 0 |
| Calculadora.TamanhoCategoricoDefinido | experimentacao/calculadora.py:131-140 | rates in [0, 1] with a non-zero effect give a categorical size >= 0 |
| Calculadora.RadicandosNaoNegativos | experimentacao/calculadora.py:137-138 | the two radicands are >= 0 for rates in [0, 1] |
| Calculadora.DiferencaNaoNula | experimentacao/calculadora.py:139 | a positive baseline with a non-zero mde gives (p1 - p2)² > 0 |
| Calculadora.Cota | experimentacao/calculadora.py:167 | a group's size is the least integer not below n_total * p |
| Calculadora.TamanhosIniciais | experimentacao/calculadora.py:165-168 | one rounded-up size per proportion, in order |
| Calculadora.ArredondamentoMajora | experimentacao/calculadora.py:165-168 | the rounded-up sizes add up to at least n_total times the sum of the proportions |
| Calculadora.AlocacaoSomaTotal | experimentacao/calculadora.py:165-173 | after the adjustment, the sizes add up to n_total; every group but the last keeps ceil(n_total * p_i) >= n_total * p_i |
| Calculadora.SoUltimoEncolhe | experimentacao/calculadora.py:170-173 | with proportions adding up to 1, the surplus is >= 0, so only the last group can shrink |
| Calculadora.ControleRecebeMinimo | experimentacao/calculadora.py:159-167 | with two or more variants and a positive control proportion, the control gets at least its minimum |
| Calculadora.AlocacaoNegativa | experimentacao/calculadora.py:171-173 | proportions [0.4, 0.2, 0.2, 0.2] with a minimum control size in (0, 1] give total 3 and sizes [2, 1, 1, -1] (see Findings) |
| Calculadora.AlocacaoCorrigidaValida | experimentacao/calculadora.py:165-173 | the corrected allocation adds up to n_total, has no negative size, and gives the control at least n_total * p_0 |
| Calculadora.DimensionamentoTamanhos | experimentacao/calculadora.py:159-173 | the sizing gives one size per group, adding up to the total, each group before the last getting at least its share |
| Calculadora.CalculoDesdobrado | experimentacao/calculadora.py:142-190 | a completed calculation is the report built from the minimum control size and its sizing |
| Calculadora.CalculoTamanhos | experimentacao/calculadora.py:163-178 | a completed calculation gives one size per variant, adding up to the reported total, each group before the last getting at least its share |
| Calculadora.CalculoControle | experimentacao/calculadora.py:159-168 | a control with a positive proportion gets at least the computed minimum |
| Calculadora.CalculoRelatorio | experimentacao/calculadora.py:176-190 | the report gives power 1 - beta, k - 1 comparisons and the proportions; the adjusted alpha is reported iff a correction was asked for; Bonferroni's times k - 1 is alpha |
| Calculadora.CalculadoraAmostral.constructor | experimentacao/calculadora.py:46-56 | the parameters are stored as given, and there is no result yet |
| Calculadora.CalculadoraAmostral.ValidarParametros | experimentacao/calculadora.py:61-88 | the first failing check, or none iff the configuration is accepted |
| Calculadora.CalculadoraAmostral.ProcessarProporcoes | experimentacao/calculadora.py:90-99 | the proportions are replaced by the processed ones; on error nothing changes; no other field changes either way |
| Calculadora.CalculadoraAmostral.AplicarCorrecaoMultipla | experimentacao/calculadora.py:101-112 | sets alfa_original, num_comparacoes = k - 1 and the corrected alpha; nothing else changes |
| Calculadora.CalculadoraAmostral.CalcularValoresCriticos | experimentacao/calculadora.py:114-121 | sets z_alfa (one- or two-sided quantile) and z_beta; nothing else changes |
| Calculadora.CalculadoraAmostral.Calcular | experimentacao/calculadora.py:142-190 | the parameters are unchanged; alfa_original, the number of comparisons, the corrected alpha and both critical values are set as the earlier steps define them; the returned dictionary is `Calculo` of the parameters; `resultado` is set only on success |
| Calculadora.DistribuirTamanhos | experimentacao/calculadora.py:165-173 | the method's sizes are `Alocacao`, one per proportion, adding up to n_total |
| Calculadora.CotasIniciais | experimentacao/calculadora.py:165-168 | the loop's list is ceil(n_total * p) for every proportion |
| Calculadora.CriarCalculadora | experimentacao/calculadora.py:27-59 | construction fails iff validation or processing fails, with that error; otherwise it yields a fresh calculator with the processed proportions and no result |

## Left out

- `experimentacao/randomizacao.py` is not part of this model: it assigns users to variants and calls none of the modelled code.
- Floating point: every float is an exact real. Rounding, overflow, `inf` and `nan` are not modelled. `math.isclose(s, 1.0, rel_tol=1e-9)` is the exact relative comparison it is defined as.
- Library values are opaque. Only sign facts are known about them, and lemmas ask for those facts where needed. This covers `math.sqrt`, `log`, `exp`, `cos`, `sin`, `pi`, `math.erf`, the densities `pdf_f` and `pdf_qui_quadrado` (with their `lgamma`-based gamma and beta functions), `scipy.stats.norm.ppf` and the Sidak power `(1 - alpha) ** (1/m)`. So the model says nothing about how close the trapezoid CDFs or the polynomial `erf` come to the true distributions.
- `random.random()` is a stream of reals read from an offset. That the values lie in [0, 1) is not assumed: the model raises the domain errors of `log` and `sqrt` whenever the values would cause them.
- `Motor.Escolher` takes the homoscedasticity flag as an input. It does not call `_verificar_homocedasticidade` (motor_estatistico.py:50-58). That method passes the selector's groups to the homoscedasticity test, which reads a `"variancia"` key the selector's groups are not documented to carry. The KeyError it then raises is not modelled, and neither is the link between the flag and `Homocedasticidade.ResultadoTeste`. Because `_escolher_teste` makes that call (motor_estatistico.py:67) before its table, the program fails on some inputs where the model's table still names a test. An empty list always divides by zero in the pooled variance, since N - k = 0 (homocedasticidade.py:56). One group always raises, whatever keys it carries: Bartlett divides by zero in 1 / (3 (k - 1)) (homocedasticidade.py:60, the lemma `Homocedasticidade.BartlettUmGrupo`), and Levene divides by k - 1 = 0 (homocedasticidade.py:84). So through `realizar_teste` the one-group branches (Z test, T test, Wilcoxon; motor_estatistico.py:105-118 and 160-161) are never reached. The rows `Motor.ListaVazia`, `Motor.UmGrupoNormal`, `Motor.UmaNormalGrande`, `Motor.UmaNormalPequenaFalha` and the one-group case of `Motor.NaoNormalSemTeste` describe the table and the dispatch with the verdict as an input.
- Strings: the verdict messages of the tests are a `rejeita` flag, and the chosen test's name is an `Escolha` value. The homoscedasticity messages are values that carry alpha. `formatar_resultado` (calculadora.py:192-229) only formats text and is not modelled.
- Dictionaries are datatypes. Optional keys are `Option` fields, and a missing mandatory key cannot occur. `ensemble_normalidade` fills its dictionary step by step; the model is a function that returns the finished value.
- `Motor.MotorEstatistico.VerificarNormalidade`: the caller's dictionaries are the elements of an `array<Grupo>` that the method rewrites in place. A dictionary shared by two positions of the list (aliasing) is not modelled.
- The Python class `TesteNormalidade` is a value (`Normalidade.TesteNormalidade`). None of its methods change it after construction.

## Findings

| source | as written | input that shows it | evidently intended | confidence | as-written member | corrected member |
|---|---|---|---|---|---|---|
| experimentacao/calculadora.py:171-173 | the whole surplus of the rounded-up sizes is taken off the last group, which can then go negative | proportions [0.4, 0.2, 0.2, 0.2] with a minimum control size in (0, 1]: total 3, sizes [2, 1, 1, -1] | non-negative sizes that add up to n_total, with the control still getting at least n_total * p_0 | not executed | Calculadora.AlocacaoNegativa | Calculadora.AlocacaoCorrigidaValida |
| estatistica/testes/normalidade.py:27-44 | `range(n // 2)` draws (n - 1) / 2 pairs for odd n, and the `pop` then leaves n - 2 values | n = 5: two pairs give 4 values, and the pop leaves 3; n = 3 leaves a single value, which Shapiro-Wilk refuses | n values: one more pair for odd n, whose second value the `pop` removes | not executed | Normalidade.AmostraComprimento | Normalidade.AmostraCorrigidaComprimento |
