// The sample-size calculator of experimentacao/calculadora.py (class
// CalculadoraAmostralABn): parameter validation, the allocation proportions,
// the multiple-comparison correction, the critical values, the minimum size
// of the control group and the integer allocation of the total among the
// variants. The normal quantile function and the fractional power are
// library functions (`Primitivas`).

module Calculadora {
  import opened Resultados
  import opened Biblioteca
  import opened Somas

  /** The constructor's arguments (and the fields __init__ copies them to). */
  datatype Configuracao = Configuracao(
    numVariantes: int,
    alfa: real,
    beta: real,
    mde: real,
    sentido: string,
    tipoMetrica: string,
    desvioPadrao: Option<real>,
    baseline: Option<real>,
    correcaoMultipla: string,
    proporcoes: Option<seq<real>>)

  // ---------------------------------------------------------------------
  // _validar_parametros

  /** The first check of _validar_parametros that fails, in the order of the
      code. A non-empty proportions list must have one entry per variant;
      an empty list is falsy and skips that check. */
  function Validacao(c: Configuracao): Option<Motivo>
  {
    if c.numVariantes < 2 then Some(Variantes)
    else if c.tipoMetrica != "numerica" && c.tipoMetrica != "categorica" then Some(TipoMetrica)
    else if c.sentido != "unilateral" && c.sentido != "bilateral" then Some(Sentido)
    else if c.correcaoMultipla != "nenhuma" && c.correcaoMultipla != "bonferroni" && c.correcaoMultipla != "sidak" then Some(Correcao)
    else if c.tipoMetrica == "numerica" && c.desvioPadrao.None? then Some(DesvioPadraoAusente)
    else if c.baseline.None? then Some(BaselineAusente)
    else if c.proporcoes.Some? && |c.proporcoes.value| != 0 && |c.proporcoes.value| != c.numVariantes then Some(ComprimentoProporcoes)
    else None
  }

  /** The accepted configurations, as one conjunction. */
  predicate Aceita(c: Configuracao)
  {
    && c.numVariantes >= 2
    && (c.tipoMetrica == "numerica" || c.tipoMetrica == "categorica")
    && (c.sentido == "unilateral" || c.sentido == "bilateral")
    && (c.correcaoMultipla == "nenhuma" || c.correcaoMultipla == "bonferroni" || c.correcaoMultipla == "sidak")
    && (c.tipoMetrica == "numerica" ==> c.desvioPadrao.Some?)
    && c.baseline.Some?
    && (c.proporcoes.Some? && |c.proporcoes.value| != 0 ==> |c.proporcoes.value| == c.numVariantes)
  }

  /** Validation passes exactly on the accepted configurations. */
  lemma ValidacaoCaracterizada(c: Configuracao)
    ensures Validacao(c).None? <==> Aceita(c)
  {
  }

  // ---------------------------------------------------------------------
  // _processar_proporcoes

  /** math.isclose(a, b, rel_tol=1e-9) with the default abs_tol of 0. */
  predicate Proximo(a: real, b: real)
  {
    Abs(a - b) <= 0.000000001 * (if Abs(a) >= Abs(b) then Abs(a) else Abs(b))
  }

  /** Each entry divided by c. */
  function Divididas(ps: seq<real>, c: real): (r: seq<real>)
    requires c != 0.0
    ensures |r| == |ps| && forall i :: 0 <= i < |ps| ==> r[i] == ps[i] / c
  {
    seq(|ps|, i requires 0 <= i < |ps| => ps[i] / c)
  }

  /** [1/k] * k. */
  function Uniformes(k: nat): (r: seq<real>)
    requires k > 0
    ensures |r| == k && forall i :: 0 <= i < k ==> r[i] == 1.0 / k as real
  {
    seq(k, i => 1.0 / k as real)
  }

  /** A sum close to 1 is positive, so dividing by it is allowed. */
  lemma ProximoDeUmPositivo(s: real)
    requires Proximo(s, 1.0)
    ensures s > 0.0
  {
  }

  /** _processar_proporcoes: given proportions must add up to 1 within the
      tolerance and are then divided by their sum; without them every
      variant gets 1/k. */
  function ProporcoesProcessadas(proporcoes: Option<seq<real>>, k: int): Result<seq<real>>
    requires k >= 2
  {
    match proporcoes
    case Some(ps) =>
      if !Proximo(Soma(ps), 1.0) then Err(ValorInvalido(SomaProporcoes))
      else
        ProximoDeUmPositivo(Soma(ps));
        Ok(Divididas(ps, Soma(ps)))
    case None => Ok(Uniformes(k))
  }

  /** __init__: validation, then the proportions. */
  function Construcao(c: Configuracao): Result<seq<real>>
  {
    match Validacao(c)
    case Some(motivo) => Err(ValorInvalido(motivo))
    case None => ProporcoesProcessadas(c.proporcoes, c.numVariantes)
  }

  /** Dividing every entry by c divides the sum by c. */
  lemma {:induction false} SomaDivididas(ps: seq<real>, c: real)
    requires c != 0.0
    ensures Soma(Divididas(ps, c)) == Soma(ps) / c
  {
    if |ps| > 0 {
      var n := |ps| - 1;
      assert Divididas(ps, c)[..n] == Divididas(ps[..n], c);
      SomaDivididas(ps[..n], c);
      assert Soma(ps[..n]) / c + ps[n] / c == (Soma(ps[..n]) + ps[n]) / c;
    }
  }

  /** k copies of x add up to k x. */
  lemma {:induction false} SomaConstante(k: nat, x: real)
    ensures Soma(seq(k, i => x)) == k as real * x
  {
    if k > 0 {
      assert seq(k, i => x)[..k - 1] == seq(k - 1, i => x);
      SomaConstante(k - 1, x);
    }
  }

  /** A construction that succeeds yields one proportion per variant, adding
      up to exactly 1. */
  lemma ConstrucaoCaracterizada(c: Configuracao)
    requires Construcao(c).Ok?
    ensures Aceita(c)
    ensures |Construcao(c).value| == c.numVariantes
    ensures Soma(Construcao(c).value) == 1.0
  {
    ValidacaoCaracterizada(c);
    ProcessadasCaracterizadas(c.proporcoes, c.numVariantes);
  }

  /** Processed proportions, once their length was validated. */
  lemma ProcessadasCaracterizadas(proporcoes: Option<seq<real>>, k: int)
    requires k >= 2 && ProporcoesProcessadas(proporcoes, k).Ok?
    requires proporcoes.Some? && |proporcoes.value| != 0 ==> |proporcoes.value| == k
    ensures |ProporcoesProcessadas(proporcoes, k).value| == k
    ensures Soma(ProporcoesProcessadas(proporcoes, k).value) == 1.0
  {
    if proporcoes.Some? {
      var ps := proporcoes.value;
      ProximoDeUmPositivo(Soma(ps));
      SomaDivididas(ps, Soma(ps));
      assert |ps| != 0;
      assert Soma(ps) / Soma(ps) == 1.0;
    } else {
      assert Uniformes(k) == seq(k, i => 1.0 / k as real);
      SomaConstante(k, 1.0 / k as real);
      assert k as real * (1.0 / k as real) == 1.0;
    }
  }

  /** An empty proportions list passes validation but not the sum check. */
  lemma ListaVaziaFalha(c: Configuracao)
    requires Aceita(c) && c.proporcoes == Some([])
    ensures Validacao(c).None?
    ensures Construcao(c) == Err(ValorInvalido(SomaProporcoes))
  {
    ValidacaoCaracterizada(c);
  }

  // ---------------------------------------------------------------------
  // _aplicar_correcao_multipla and _calcular_valores_criticos

  /** alfa_ajustado over k - 1 comparisons. */
  function AlfaAjustado(p: Primitivas, correcao: string, alfa: real, k: int): real
    requires k >= 2
  {
    var m := (k - 1) as real;
    if correcao == "bonferroni" then alfa / m
    else if correcao == "sidak" then 1.0 - p.pow(1.0 - alfa, 1.0 / m)
    else alfa
  }

  /** Bonferroni splits alpha evenly over the k - 1 comparisons (so it never
      raises a non-negative alpha); no correction keeps alpha. */
  lemma BonferroniDivide(p: Primitivas, alfa: real, k: int)
    requires k >= 2
    ensures AlfaAjustado(p, "bonferroni", alfa, k) * (k - 1) as real == alfa
    ensures alfa >= 0.0 ==> 0.0 <= AlfaAjustado(p, "bonferroni", alfa, k) <= alfa
    ensures AlfaAjustado(p, "nenhuma", alfa, k) == alfa
  {
    var m := (k - 1) as real;
    var a := alfa / m;
    assert a * m == alfa;
    if alfa >= 0.0 {
      assert a >= 0.0;
      assert a * 1.0 <= a * m;
    }
  }

  /** z_alfa: the quantile at 1 - alpha/2 (two-sided) or 1 - alpha. */
  function ZAlfa(p: Primitivas, sentido: string, alfaAjustado: real): real
  {
    if sentido == "bilateral" then p.ppf(1.0 - alfaAjustado / 2.0) else p.ppf(1.0 - alfaAjustado)
  }

  /** z_beta: the quantile at 1 - beta. */
  function ZBeta(p: Primitivas, beta: real): real
  {
    p.ppf(1.0 - beta)
  }

  // ---------------------------------------------------------------------
  // _calcular_numerico and _calcular_categorico

  /** 2 sigma^2 (z_alfa + z_beta)^2 / (mde * baseline)^2; a zero effect
      divides by zero. */
  function TamanhoNumerico(desvioPadrao: real, mde: real, baseline: real, zAlfa: real, zBeta: real): Result<real>
  {
    var variancia := Quadrado(desvioPadrao);
    var efeito := mde * baseline;
    if Quadrado(efeito) == 0.0 then Err(DivisaoPorZero)
    else Ok((variancia + variancia) * Quadrado(zAlfa + zBeta) / Quadrado(efeito))
  }

  /** The numeric size is never negative and fails exactly on a zero effect. */
  lemma TamanhoNumericoCaracterizado(desvioPadrao: real, mde: real, baseline: real, zAlfa: real, zBeta: real)
    ensures TamanhoNumerico(desvioPadrao, mde, baseline, zAlfa, zBeta).Err? <==> mde == 0.0 || baseline == 0.0
    ensures TamanhoNumerico(desvioPadrao, mde, baseline, zAlfa, zBeta).Ok? ==> TamanhoNumerico(desvioPadrao, mde, baseline, zAlfa, zBeta).value >= 0.0
  {
    var efeito := mde * baseline;
    assert efeito == 0.0 <==> mde == 0.0 || baseline == 0.0;
    if efeito != 0.0 {
      QuadradoPositivo(efeito);
      QuadradoNaoNegativo(desvioPadrao);
      QuadradoNaoNegativo(zAlfa + zBeta);
      var v := Quadrado(desvioPadrao);
      ProdutoNaoNegativo(v + v, Quadrado(zAlfa + zBeta));
    } else {
      assert Quadrado(efeito) == 0.0;
    }
  }

  /** The categorical size: p2 = p1 (1 + mde), the pooled and unpooled
      standard errors under math.sqrt (a negative argument is outside its
      domain), and a zero difference p1 - p2 divides by zero. */
  function TamanhoCategorico(p: Primitivas, baseline: real, mde: real, zAlfa: real, zBeta: real): Result<real>
  {
    var p1 := baseline;
    var p2 := TaxaVariante(p1, mde);
    var conjunta := VarianciaConjunta(p1, p2);
    if conjunta < 0.0 then Err(DominioMatematico)
    else
      var separada := VarianciaSeparada(p1, p2);
      if separada < 0.0 then Err(DominioMatematico)
      else if Quadrado(p1 - p2) == 0.0 then Err(DivisaoPorZero)
      else Ok(Quadrado(zAlfa * p.sqrt(conjunta) + zBeta * p.sqrt(separada)) / Quadrado(p1 - p2))
  }

  /** p2 = p1 (1 + mde): the rate the variant must reach. */
  function TaxaVariante(p1: real, mde: real): real
  {
    p1 * (1.0 + mde)
  }

  /** 2 p (1 - p) at the mean rate p of the two groups. */
  function VarianciaConjunta(p1: real, p2: real): real
  {
    var pMedio := (p1 + p2) / 2.0;
    2.0 * pMedio * (1.0 - pMedio)
  }

  /** p1 (1 - p1) + p2 (1 - p2). */
  function VarianciaSeparada(p1: real, p2: real): real
  {
    p1 * (1.0 - p1) + p2 * (1.0 - p2)
  }

  lemma ProdutoDeFracoes(x: real)
    requires 0.0 <= x <= 1.0
    ensures x * (1.0 - x) >= 0.0
  {
    ProdutoNaoNegativo(x, 1.0 - x);
  }

  /** Two rates in [0, 1] with a non-zero effect give a size, and it is
      never negative. */
  lemma TamanhoCategoricoDefinido(p: Primitivas, baseline: real, mde: real, zAlfa: real, zBeta: real)
    requires 0.0 < baseline <= 1.0 && mde != 0.0
    requires 0.0 <= TaxaVariante(baseline, mde) <= 1.0
    ensures TamanhoCategorico(p, baseline, mde, zAlfa, zBeta).Ok?
    ensures TamanhoCategorico(p, baseline, mde, zAlfa, zBeta).value >= 0.0
  {
    var p1 := baseline;
    var p2 := TaxaVariante(p1, mde);
    RadicandosNaoNegativos(p1, p2);
    DiferencaNaoNula(p1, mde);
    var conjunta := VarianciaConjunta(p1, p2);
    var separada := VarianciaSeparada(p1, p2);
    var numerador := Quadrado(zAlfa * p.sqrt(conjunta) + zBeta * p.sqrt(separada));
    QuadradoNaoNegativo(zAlfa * p.sqrt(conjunta) + zBeta * p.sqrt(separada));
    QuocienteNaoNegativo(numerador, Quadrado(p1 - p2));
  }

  lemma RadicandosNaoNegativos(p1: real, p2: real)
    requires 0.0 <= p1 <= 1.0 && 0.0 <= p2 <= 1.0
    ensures VarianciaConjunta(p1, p2) >= 0.0
    ensures VarianciaSeparada(p1, p2) >= 0.0
  {
    var m := (p1 + p2) / 2.0;
    ProdutoDeFracoes(m);
    assert 2.0 * m * (1.0 - m) == 2.0 * (m * (1.0 - m));
    ProdutoDeFracoes(p1);
    ProdutoDeFracoes(p2);
  }

  lemma DiferencaNaoNula(p1: real, mde: real)
    requires p1 > 0.0 && mde != 0.0
    ensures Quadrado(p1 - TaxaVariante(p1, mde)) > 0.0
  {
    assert p1 - TaxaVariante(p1, mde) == -(p1 * mde);
    if mde > 0.0 {
      ProdutoPositivo(p1, mde);
    } else {
      ProdutoPositivo(p1, -mde);
    }
    QuadradoPositivo(p1 - TaxaVariante(p1, mde));
  }

  lemma QuocienteNaoNegativo(a: real, b: real)
    requires a >= 0.0 && b > 0.0
    ensures a / b >= 0.0
  {
    assert (a / b) * b == a;
  }

  // ---------------------------------------------------------------------
  // The allocation of calcular

  /** sum() of a list of ints, from the left. */
  function SomaInteiros(s: seq<int>): int
  {
    if |s| == 0 then 0 else SomaInteiros(s[..|s| - 1]) + s[|s| - 1]
  }

  /** ceil(n_total * p): a group's share rounded up. */
  function Cota(n: int, p: real): (r: int)
    ensures r as real >= n as real * p && (r - 1) as real < n as real * p
  {
    Teto(n as real * p)
  }

  /** The list the loop builds: ceil(n_total * p) for every proportion. */
  function TamanhosIniciais(n: int, ps: seq<real>): (ts: seq<int>)
    ensures |ts| == |ps| && forall i :: 0 <= i < |ps| ==> ts[i] == Cota(n, ps[i])
  {
    if |ps| == 0 then [] else TamanhosIniciais(n, ps[..|ps| - 1]) + [Cota(n, ps[|ps| - 1])]
  }

  /** The final adjustment: the surplus, when there is one, is taken off the
      last group. */
  function Ajustar(ts: seq<int>, n: int): seq<int>
    requires |ts| > 0
  {
    var diferenca := SomaInteiros(ts) - n;
    if diferenca != 0 then ts[|ts| - 1 := ts[|ts| - 1] - diferenca] else ts
  }

  function Alocacao(n: int, ps: seq<real>): seq<int>
    requires |ps| > 0
  {
    Ajustar(TamanhosIniciais(n, ps), n)
  }

  /** Changing the last entry changes the sum by the same amount. */
  lemma SomaUltimoTrocado(ts: seq<int>, x: int)
    requires |ts| > 0
    ensures SomaInteiros(ts[|ts| - 1 := x]) == SomaInteiros(ts) - ts[|ts| - 1] + x
  {
    assert ts[|ts| - 1 := x][..|ts| - 1] == ts[..|ts| - 1];
  }

  /** The allocation always adds up to n_total, and every group but the last
      keeps ceil(n_total * p_i), so it gets at least its share. */
  lemma AlocacaoSomaTotal(n: int, ps: seq<real>)
    requires |ps| > 0
    ensures |Alocacao(n, ps)| == |ps|
    ensures SomaInteiros(Alocacao(n, ps)) == n
    ensures forall i :: 0 <= i < |ps| - 1 ==> Alocacao(n, ps)[i] == Cota(n, ps[i])
    ensures forall i :: 0 <= i < |ps| - 1 ==> Alocacao(n, ps)[i] as real >= n as real * ps[i]
  {
    var ts := TamanhosIniciais(n, ps);
    var diferenca := SomaInteiros(ts) - n;
    if diferenca != 0 {
      SomaUltimoTrocado(ts, ts[|ts| - 1] - diferenca);
    }
  }

  /** Rounding every share up never loses observations: the rounded sizes
      add up to at least n_total times the sum of the proportions. */
  lemma {:induction false} ArredondamentoMajora(n: int, ps: seq<real>)
    ensures SomaInteiros(TamanhosIniciais(n, ps)) as real >= n as real * Soma(ps)
  {
    if |ps| > 0 {
      var m := |ps| - 1;
      ArredondamentoMajora(n, ps[..m]);
      var x := n as real;
      assert x * Soma(ps) == x * Soma(ps[..m]) + x * ps[m];
    }
  }

  /** With proportions adding up to 1 the surplus is never negative, so the
      adjustment can only shrink the last group. */
  lemma SoUltimoEncolhe(n: int, ps: seq<real>)
    requires |ps| > 0 && Soma(ps) == 1.0
    ensures SomaInteiros(TamanhosIniciais(n, ps)) >= n
    ensures Alocacao(n, ps)[|ps| - 1] <= Cota(n, ps[|ps| - 1])
  {
    ArredondamentoMajora(n, ps);
  }

  /** ceil, the total from the control's share, and the allocation; a zero
      control proportion divides by zero. */
  function Dimensionamento(nMinimo: real, ps: seq<real>): Result<(int, seq<int>)>
    requires |ps| > 0
  {
    var nMinimoControle := Teto(nMinimo);
    if ps[0] == 0.0 then Err(DivisaoPorZero)
    else
      var nTotal := Teto(nMinimoControle as real / ps[0]);
      Ok((nTotal, Alocacao(nTotal, ps)))
  }

  /** With two or more variants and a positive control proportion, the
      control group receives at least the minimum it was sized for. */
  lemma ControleRecebeMinimo(nMinimo: real, ps: seq<real>)
    requires |ps| >= 2 && ps[0] > 0.0
    ensures Dimensionamento(nMinimo, ps).Ok?
    ensures Dimensionamento(nMinimo, ps).value.1[0] >= Teto(nMinimo)
    ensures Dimensionamento(nMinimo, ps).value.1[0] as real >= nMinimo
  {
    var c := Teto(nMinimo);
    var n := Teto(c as real / ps[0]);
    AlocacaoSomaTotal(n, ps);
    var q := c as real / ps[0];
    assert q * ps[0] == c as real;
    assert n as real * ps[0] >= q * ps[0];
  }

  // ---------------------------------------------------------------------
  // The negative last group, and a corrected allocation

  /** The proportions [0.4, 0.2, 0.2, 0.2] with a minimum control size of
      at most 1: n_total = ceil(1 / 0.4) = 3, the rounded sizes are
      [2, 1, 1, 1] with a surplus of 2, and the last group gets -1. */
  lemma AlocacaoNegativa(nMinimo: real)
    requires 0.0 < nMinimo <= 1.0
    ensures Dimensionamento(nMinimo, [0.4, 0.2, 0.2, 0.2]) == Ok((3, [2, 1, 1, -1]))
  {
    var ps := [0.4, 0.2, 0.2, 0.2];
    assert Teto(nMinimo) == 1;
    assert Teto(1.0 / 0.4) == 3;
    assert Cota(3, 0.4) == 2 && Cota(3, 0.2) == 1;
    var ts := TamanhosIniciais(3, ps);
    assert ts == [2, 1, 1, 1];
    assert SomaInteiros([2]) == 2 by {
      assert [2][..0] == [];
    }
    assert SomaInteiros([2, 1]) == 3 by {
      assert [2, 1][..1] == [2];
    }
    assert SomaInteiros([2, 1, 1]) == 4 by {
      assert [2, 1, 1][..2] == [2, 1];
    }
    assert SomaInteiros(ts) == 5 by {
      assert ts[..3] == [2, 1, 1];
    }
    assert Alocacao(3, ps) == [2, 1, 1, -1];
    assert Teto(Teto(nMinimo) as real / ps[0]) == 3;
  }

  /** floor(n * p). */
  function Piso(x: real): (r: int)
    ensures r as real <= x && x < (r + 1) as real
  {
    x.Floor
  }

  /** floor(n_total * p): a share rounded down. */
  function CotaInferior(n: int, p: real): (r: int)
    ensures r as real <= n as real * p < (r + 1) as real
  {
    Piso(n as real * p)
  }

  /** The rounded-down shares of the variants after the control. */
  function Variacoes(n: int, ps: seq<real>): (vs: seq<int>)
    ensures |vs| == |ps| && forall i :: 0 <= i < |ps| ==> vs[i] == CotaInferior(n, ps[i])
  {
    if |ps| == 0 then [] else Variacoes(n, ps[..|ps| - 1]) + [CotaInferior(n, ps[|ps| - 1])]
  }

  /** Every variant gets floor(n p_i) and the control gets the rest. */
  function AlocacaoCorrigida(n: int, ps: seq<real>): seq<int>
    requires |ps| > 0
  {
    var vs := Variacoes(n, ps[1..]);
    [n - SomaInteiros(vs)] + vs
  }

  /** Rounding every share down never adds observations. */
  lemma {:induction false} ArredondamentoMinora(n: int, ps: seq<real>)
    ensures SomaInteiros(Variacoes(n, ps)) as real <= n as real * Soma(ps)
  {
    if |ps| > 0 {
      var m := |ps| - 1;
      ArredondamentoMinora(n, ps[..m]);
      var x := n as real;
      assert x * Soma(ps) == x * Soma(ps[..m]) + x * ps[m];
    }
  }

  lemma {:induction false} SomaInteirosConcatenada(a: seq<int>, b: seq<int>)
    ensures SomaInteiros(a + b) == SomaInteiros(a) + SomaInteiros(b)
  {
    if |b| > 0 {
      assert (a + b)[..|a + b| - 1] == a + b[..|b| - 1];
      SomaInteirosConcatenada(a, b[..|b| - 1]);
    } else {
      assert a + b == a;
    }
  }

  lemma {:induction false} VariacoesNaoNegativas(n: int, ps: seq<real>)
    requires n >= 0 && NaoNegativos(ps)
    ensures forall i :: 0 <= i < |ps| ==> Variacoes(n, ps)[i] >= 0
  {
    forall i | 0 <= i < |ps| ensures Variacoes(n, ps)[i] >= 0 {
      ProdutoNaoNegativo(n as real, ps[i]);
    }
  }

  /** The corrected allocation adds up to n_total, gives no group a negative
      size, and gives the control at least n_total times its proportion
      (hence at least its minimum). */
  lemma AlocacaoCorrigidaValida(n: int, ps: seq<real>)
    requires |ps| > 0 && n >= 0 && NaoNegativos(ps) && Soma(ps) == 1.0
    ensures |AlocacaoCorrigida(n, ps)| == |ps|
    ensures SomaInteiros(AlocacaoCorrigida(n, ps)) == n
    ensures forall i :: 0 <= i < |ps| ==> AlocacaoCorrigida(n, ps)[i] >= 0
    ensures AlocacaoCorrigida(n, ps)[0] as real >= n as real * ps[0]
  {
    var vs := Variacoes(n, ps[1..]);
    var r := AlocacaoCorrigida(n, ps);
    SomaCorrigida(n, ps);
    ControleCorrigido(n, ps);
    VariacoesNaoNegativas(n, ps[1..]);
    forall i | 0 <= i < |ps| ensures r[i] >= 0 {
      if i > 0 {
        assert r[i] == vs[i - 1];
      }
    }
  }

  lemma SomaCorrigida(n: int, ps: seq<real>)
    requires |ps| > 0
    ensures SomaInteiros(AlocacaoCorrigida(n, ps)) == n
  {
    var vs := Variacoes(n, ps[1..]);
    var controle := n - SomaInteiros(vs);
    SomaInteirosConcatenada([controle], vs);
    assert SomaInteiros([controle]) == controle by {
      assert [controle][..0] == [];
    }
  }

  lemma ControleCorrigido(n: int, ps: seq<real>)
    requires |ps| > 0 && n >= 0 && ps[0] >= 0.0 && Soma(ps) == 1.0
    ensures (n - SomaInteiros(Variacoes(n, ps[1..]))) as real >= n as real * ps[0] >= 0.0
  {
    ArredondamentoMinora(n, ps[1..]);
    PrimeiroEResto(ps);
    RestoParaOControle(SomaInteiros(Variacoes(n, ps[1..])), n, ps[0], Soma(ps[1..]));
  }

  lemma PrimeiroEResto(ps: seq<real>)
    requires |ps| > 0
    ensures Soma(ps) == ps[0] + Soma(ps[1..])
  {
    assert ps[..1] + ps[1..] == ps;
    SomaConcatenada(ps[..1], ps[1..]);
    assert ps[..1][..0] == [];
  }

  /** If the variants take at most x times their share `resto`, the control
      keeps at least x times its share p0 = 1 - resto. */
  lemma RestoParaOControle(variantes: int, n: int, p0: real, resto: real)
    requires variantes as real <= n as real * resto && p0 + resto == 1.0 && n >= 0 && p0 >= 0.0
    ensures (n - variantes) as real >= n as real * p0 >= 0.0
  {
    var x := n as real;
    assert x * (p0 + resto) == x * p0 + x * resto;
    ProdutoNaoNegativo(x, p0);
  }

  // ---------------------------------------------------------------------
  // calcular

  /** The dictionary calcular stores in `resultado` and returns. */
  datatype ResultadoCalculo = ResultadoCalculo(
    tamanhoAmostralTotal: int,
    tamanhoPorGrupo: seq<int>,
    proporcoes: seq<real>,
    poderEstatistico: real,
    alfaOriginal: real,
    alfaAjustado: Option<real>,
    correcaoAplicada: string,
    numComparacoes: int,
    mde: real,
    baseline: real,
    tipoMetrica: string)

  /** A calculator that __init__ finished: accepted parameters and one
      proportion per variant. */
  predicate Construida(c: Configuracao)
  {
    Aceita(c) && c.proporcoes.Some? && |c.proporcoes.value| == c.numVariantes
  }

  /** The minimum size of the control group for the metric type. */
  function TamanhoMinimo(p: Primitivas, c: Configuracao, zAlfa: real, zBeta: real): Result<real>
    requires Construida(c)
  {
    if c.tipoMetrica == "numerica" then TamanhoNumerico(c.desvioPadrao.value, c.mde, c.baseline.value, zAlfa, zBeta)
    else TamanhoCategorico(p, c.baseline.value, c.mde, zAlfa, zBeta)
  }

  /** What calcular returns on a constructed calculator. */
  function Calculo(p: Primitivas, c: Configuracao): Result<ResultadoCalculo>
    requires Construida(c)
  {
    var alfaAjustado := AlfaAjustado(p, c.correcaoMultipla, c.alfa, c.numVariantes);
    var nMinimo :- TamanhoMinimo(p, c, ZAlfa(p, c.sentido, alfaAjustado), ZBeta(p, c.beta));
    var dimensoes :- Dimensionamento(nMinimo, c.proporcoes.value);
    Ok(Relatorio(c, alfaAjustado, dimensoes))
  }

  /** The dictionary built from the total and the group sizes; the adjusted
      alpha is reported only when a correction was asked for. */
  function Relatorio(c: Configuracao, alfaAjustado: real, dimensoes: (int, seq<int>)): ResultadoCalculo
    requires Construida(c)
  {
    ResultadoCalculo(dimensoes.0, dimensoes.1, c.proporcoes.value, 1.0 - c.beta, c.alfa,
                     if c.correcaoMultipla != "nenhuma" then Some(alfaAjustado) else None,
                     c.correcaoMultipla, c.numVariantes - 1, c.mde, c.baseline.value, c.tipoMetrica)
  }

  /** The minimum size of the control group calcular works from. */
  function MinimoDoCalculo(p: Primitivas, c: Configuracao): Result<real>
    requires Construida(c)
  {
    TamanhoMinimo(p, c, ZAlfa(p, c.sentido, AlfaAjustado(p, c.correcaoMultipla, c.alfa, c.numVariantes)), ZBeta(p, c.beta))
  }

  /** The steps of a completed calculation. */
  lemma CalculoDesdobrado(p: Primitivas, c: Configuracao)
    requires Construida(c) && Calculo(p, c).Ok?
    ensures MinimoDoCalculo(p, c).Ok?
    ensures Dimensionamento(MinimoDoCalculo(p, c).value, c.proporcoes.value).Ok?
    ensures Calculo(p, c).value == Relatorio(c, AlfaAjustado(p, c.correcaoMultipla, c.alfa, c.numVariantes),
                                             Dimensionamento(MinimoDoCalculo(p, c).value, c.proporcoes.value).value)
  {
  }

  /** A completed calculation: one size per variant, adding up to the total,
      and every group before the last gets at least its share. */
  lemma CalculoTamanhos(p: Primitivas, c: Configuracao)
    requires Construida(c) && Calculo(p, c).Ok?
    ensures |Calculo(p, c).value.tamanhoPorGrupo| == c.numVariantes
    ensures SomaInteiros(Calculo(p, c).value.tamanhoPorGrupo) == Calculo(p, c).value.tamanhoAmostralTotal
    ensures forall i :: 0 <= i < c.numVariantes - 1 ==>
      Calculo(p, c).value.tamanhoPorGrupo[i] as real >= Calculo(p, c).value.tamanhoAmostralTotal as real * c.proporcoes.value[i]
  {
    CalculoDesdobrado(p, c);
    DimensionamentoTamanhos(MinimoDoCalculo(p, c).value, c.proporcoes.value);
  }

  /** The sizing gives one size per group, adding up to the total, every
      group before the last getting at least its share. */
  lemma DimensionamentoTamanhos(nMinimo: real, ps: seq<real>)
    requires |ps| > 0 && Dimensionamento(nMinimo, ps).Ok?
    ensures var (total, tamanhos) := Dimensionamento(nMinimo, ps).value;
      && |tamanhos| == |ps|
      && SomaInteiros(tamanhos) == total
      && forall i :: 0 <= i < |ps| - 1 ==> tamanhos[i] as real >= total as real * ps[i]
  {
    AlocacaoSomaTotal(Dimensionamento(nMinimo, ps).value.0, ps);
  }

  /** A control with a positive proportion gets at least the minimum it was
      sized for. */
  lemma CalculoControle(p: Primitivas, c: Configuracao)
    requires Construida(c) && Calculo(p, c).Ok? && c.proporcoes.value[0] > 0.0
    ensures Calculo(p, c).value.tamanhoPorGrupo[0] as real >= MinimoDoCalculo(p, c).value
  {
    CalculoDesdobrado(p, c);
    ControleRecebeMinimo(MinimoDoCalculo(p, c).value, c.proporcoes.value);
  }

  /** A completed calculation reports the power 1 - beta, k - 1 comparisons
      and the proportions used; the adjusted alpha is reported exactly when
      a correction was asked for, and Bonferroni's times the number of
      comparisons gives back alpha. */
  lemma CalculoRelatorio(p: Primitivas, c: Configuracao)
    requires Construida(c) && Calculo(p, c).Ok?
    ensures Calculo(p, c).value.poderEstatistico == 1.0 - c.beta
    ensures Calculo(p, c).value.numComparacoes == c.numVariantes - 1
    ensures Calculo(p, c).value.proporcoes == c.proporcoes.value
    ensures Calculo(p, c).value.alfaAjustado.None? <==> c.correcaoMultipla == "nenhuma"
    ensures c.correcaoMultipla == "bonferroni" ==>
      Calculo(p, c).value.alfaAjustado.value * Calculo(p, c).value.numComparacoes as real == c.alfa
  {
    CalculoDesdobrado(p, c);
    BonferroniDivide(p, c.alfa, c.numVariantes);
  }

  /** The calculator object. The fields set by calcular's steps exist only
      after it runs in the Python class; here they start at their default
      values. */
  class CalculadoraAmostral {
    var numVariantes: int
    var alfa: real
    var beta: real
    var mde: real
    var sentido: string
    var tipoMetrica: string
    var desvioPadrao: Option<real>
    var baseline: Option<real>
    var correcaoMultipla: string
    var proporcoes: Option<seq<real>>
    var resultado: Option<ResultadoCalculo>
    var alfaOriginal: real
    var numComparacoes: int
    var alfaAjustado: real
    var zAlfa: real
    var zBeta: real

    /** The constructor's parameters as currently stored. */
    function Parametros(): Configuracao
      reads this
    {
      Configuracao(numVariantes, alfa, beta, mde, sentido, tipoMetrica, desvioPadrao, baseline, correcaoMultipla, proporcoes)
    }

    /** The assignments at the start of __init__. */
    constructor (c: Configuracao)
      ensures Parametros() == c && resultado.None?
    {
      numVariantes, alfa, beta, mde := c.numVariantes, c.alfa, c.beta, c.mde;
      sentido, tipoMetrica := c.sentido, c.tipoMetrica;
      desvioPadrao, baseline := c.desvioPadrao, c.baseline;
      correcaoMultipla, proporcoes := c.correcaoMultipla, c.proporcoes;
      resultado := None;
    }

    /** _validar_parametros: the first failing check, or None. */
    method ValidarParametros() returns (motivo: Option<Motivo>)
      ensures motivo == Validacao(Parametros())
      ensures motivo.None? <==> Aceita(Parametros())
    {
      ValidacaoCaracterizada(Parametros());
      if numVariantes < 2 {
        return Some(Variantes);
      }
      if tipoMetrica != "numerica" && tipoMetrica != "categorica" {
        return Some(TipoMetrica);
      }
      if sentido != "unilateral" && sentido != "bilateral" {
        return Some(Sentido);
      }
      if correcaoMultipla != "nenhuma" && correcaoMultipla != "bonferroni" && correcaoMultipla != "sidak" {
        return Some(Correcao);
      }
      if tipoMetrica == "numerica" && desvioPadrao.None? {
        return Some(DesvioPadraoAusente);
      }
      if baseline.None? {
        return Some(BaselineAusente);
      }
      if proporcoes.Some? && |proporcoes.value| != 0 && |proporcoes.value| != numVariantes {
        return Some(ComprimentoProporcoes);
      }
      motivo := None;
    }

    /** _processar_proporcoes: replaces the proportions by their normalised
        (or uniform) version, or raises without changing anything. */
    method ProcessarProporcoes() returns (motivo: Option<Motivo>)
      requires numVariantes >= 2
      modifies this
      ensures var r := ProporcoesProcessadas(old(proporcoes), old(numVariantes));
        && (r.Err? <==> motivo.Some?)
        && (r.Err? ==> r.erro == ValorInvalido(motivo.value) && Parametros() == old(Parametros()))
        && (r.Ok? ==> Parametros() == old(Parametros()).(proporcoes := Some(r.value)))
      ensures resultado == old(resultado)
      ensures alfaOriginal == old(alfaOriginal) && numComparacoes == old(numComparacoes) && alfaAjustado == old(alfaAjustado)
      ensures zAlfa == old(zAlfa) && zBeta == old(zBeta)
    {
      if proporcoes.Some? {
        var ps := proporcoes.value;
        var soma := Soma(ps);
        if !Proximo(soma, 1.0) {
          return Some(SomaProporcoes);
        }
        ProximoDeUmPositivo(soma);
        proporcoes := Some(Divididas(ps, soma));
      } else {
        proporcoes := Some(Uniformes(numVariantes));
      }
      motivo := None;
    }

    /** _aplicar_correcao_multipla. */
    method AplicarCorrecaoMultipla(p: Primitivas)
      requires numVariantes >= 2
      modifies this
      ensures Parametros() == old(Parametros()) && resultado == old(resultado)
      ensures alfaOriginal == alfa && numComparacoes == numVariantes - 1
      ensures alfaAjustado == AlfaAjustado(p, correcaoMultipla, alfa, numVariantes)
      ensures zAlfa == old(zAlfa) && zBeta == old(zBeta)
    {
      alfaOriginal := alfa;
      numComparacoes := numVariantes - 1;
      if correcaoMultipla == "bonferroni" {
        alfaAjustado := alfa / numComparacoes as real;
      } else if correcaoMultipla == "sidak" {
        alfaAjustado := 1.0 - p.pow(1.0 - alfa, 1.0 / numComparacoes as real);
      } else {
        alfaAjustado := alfa;
      }
    }

    /** _calcular_valores_criticos. */
    method CalcularValoresCriticos(p: Primitivas)
      modifies this
      ensures Parametros() == old(Parametros()) && resultado == old(resultado)
      ensures alfaOriginal == old(alfaOriginal) && numComparacoes == old(numComparacoes) && alfaAjustado == old(alfaAjustado)
      ensures zAlfa == ZAlfa(p, sentido, alfaAjustado) && zBeta == ZBeta(p, beta)
    {
      if sentido == "bilateral" {
        zAlfa := p.ppf(1.0 - alfaAjustado / 2.0);
      } else {
        zAlfa := p.ppf(1.0 - alfaAjustado);
      }
      zBeta := p.ppf(1.0 - beta);
    }

    /** calcular: the correction, the critical values, the minimum control
        size, the total and the per-group sizes. The fields of the first two
        steps stay set even when a later step raises. */
    method Calcular(p: Primitivas) returns (r: Result<ResultadoCalculo>)
      requires Construida(Parametros())
      modifies this
      ensures Parametros() == old(Parametros())
      ensures alfaOriginal == alfa && numComparacoes == numVariantes - 1
      ensures alfaAjustado == AlfaAjustado(p, correcaoMultipla, alfa, numVariantes)
      ensures zAlfa == ZAlfa(p, sentido, alfaAjustado) && zBeta == ZBeta(p, beta)
      ensures r == Calculo(p, Parametros())
      ensures resultado == if r.Ok? then Some(r.value) else old(resultado)
    {
      AplicarCorrecaoMultipla(p);
      CalcularValoresCriticos(p);
      var nMinimo: Result<real>;
      if tipoMetrica == "numerica" {
        nMinimo := TamanhoNumerico(desvioPadrao.value, mde, baseline.value, zAlfa, zBeta);
      } else {
        nMinimo := TamanhoCategorico(p, baseline.value, mde, zAlfa, zBeta);
      }
      if nMinimo.Err? {
        return Err(nMinimo.erro);
      }
      var nMinimoControle := Teto(nMinimo.value);
      var ps := proporcoes.value;
      var proporcaoControle := ps[0];
      if proporcaoControle == 0.0 {
        return Err(DivisaoPorZero);
      }
      var nTotal := Teto(nMinimoControle as real / proporcaoControle);
      var tamanhos := DistribuirTamanhos(nTotal, ps);
      r := Ok(Relatorio(Parametros(), alfaAjustado, (nTotal, tamanhos)));
      resultado := Some(r.value);
    }
  }

  /** The loop of calcular: ceil(n_total * p) for every proportion, then the
      surplus taken off the last group. */
  method DistribuirTamanhos(nTotal: int, ps: seq<real>) returns (tamanhos: seq<int>)
    requires |ps| > 0
    ensures tamanhos == Alocacao(nTotal, ps)
    ensures |tamanhos| == |ps| && SomaInteiros(tamanhos) == nTotal
  {
    tamanhos := CotasIniciais(nTotal, ps);
    var diferenca := SomaInteiros(tamanhos) - nTotal;
    if diferenca != 0 {
      tamanhos := tamanhos[|tamanhos| - 1 := tamanhos[|tamanhos| - 1] - diferenca];
    }
    AlocacaoSomaTotal(nTotal, ps);
  }

  /** The loop of calcular: every group gets ceil(n_total * p). */
  method CotasIniciais(nTotal: int, ps: seq<real>) returns (tamanhos: seq<int>)
    ensures tamanhos == TamanhosIniciais(nTotal, ps)
  {
    tamanhos := [];
    for i := 0 to |ps|
      invariant tamanhos == TamanhosIniciais(nTotal, ps[..i])
    {
      IniciaisPasso(nTotal, ps, i);
      tamanhos := tamanhos + [Cota(nTotal, ps[i])];
    }
    assert ps[..|ps|] == ps;
  }

  /** One turn of the loop of calcular appends the next group's quota. */
  lemma IniciaisPasso(n: int, ps: seq<real>, i: int)
    requires 0 <= i < |ps|
    ensures TamanhosIniciais(n, ps[..i + 1]) == TamanhosIniciais(n, ps[..i]) + [Cota(n, ps[i])]
  {
    assert ps[..i + 1][..i] == ps[..i] && ps[..i + 1][i] == ps[i];
  }

  /** CalculadoraAmostralABn(...): __init__ stores the parameters, validates
      them and processes the proportions; its exception, if any, is the
      constructor's. */
  method CriarCalculadora(c: Configuracao) returns (r: Result<CalculadoraAmostral>)
    ensures r.Err? <==> Construcao(c).Err?
    ensures r.Err? ==> r.erro == Construcao(c).erro
    ensures r.Ok? ==> fresh(r.value) && r.value.resultado.None?
    ensures r.Ok? ==> r.value.Parametros() == c.(proporcoes := Some(Construcao(c).value))
    ensures r.Ok? ==> Construida(r.value.Parametros())
  {
    var calculadora := new CalculadoraAmostral(c);
    var motivo := calculadora.ValidarParametros();
    if motivo.Some? {
      return Err(ValorInvalido(motivo.value));
    }
    motivo := calculadora.ProcessarProporcoes();
    if motivo.Some? {
      return Err(ValorInvalido(motivo.value));
    }
    ConstrucaoCaracterizada(c);
    r := Ok(calculadora);
  }
}
