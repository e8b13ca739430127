// The chi-square test for proportions of estatistica/testes/qui.py (class
// TesteQuiQuadradoProporcoes; experimentacao/picker_simples/qui.py is the
// same file). The groups arrive as two parallel lists, the sample sizes and
// the conversion rates; the pooled rate and the statistic walk them with
// `zip`, so they stop at the shorter one, while the denominator of the pooled
// rate sums every size.

module Qui {
  import opened Resultados
  import opened Biblioteca
  import opened Somas
  import opened Integracao

  /** sum(self.n_grupos). */
  function SomaTamanhos(ns: seq<int>): int
  {
    if |ns| == 0 then 0 else SomaTamanhos(ns[..|ns| - 1]) + ns[|ns| - 1]
  }

  /** `zip(self.taxas_conversao, self.n_grupos)` as (size, rate) pairs. */
  function ParesQui(taxas: seq<real>, ns: seq<int>): seq<Par>
  {
    var m := if |taxas| <= |ns| then |taxas| else |ns|;
    seq(m, i requires 0 <= i < m => Par(ns[i] as real, taxas[i]))
  }

  /** The pooled rate sum(r_i n_i) / sum(n), raising when the sizes add up
      to 0. */
  function TaxaCombinada(taxas: seq<real>, ns: seq<int>): Result<real>
  {
    if SomaTamanhos(ns) == 0 then Err(DivisaoPorZero)
    else Ok(SomaPonderada(ParesQui(taxas, ns)) / SomaTamanhos(ns) as real)
  }

  /** ((r - p)^2 / p) * n for one group. */
  function TermoQui(par: Par, c: real): real
    requires c != 0.0
  {
    Quadrado(par.valor - c) / c * par.peso
  }

  /** The first n terms of the statistic. */
  function SomaQui(ps: seq<Par>, c: real, n: nat): real
    requires c != 0.0 && n <= |ps|
  {
    if n == 0 then 0.0 else SomaQui(ps, c, n - 1) + TermoQui(ps[n - 1], c)
  }

  /** calcular_estatistica_qui_quadrado: the pooled rate's error first, then
      a division by a zero pooled rate as soon as there is one pair. */
  function EstatisticaQui(taxas: seq<real>, ns: seq<int>): Result<real>
  {
    var c :- TaxaCombinada(taxas, ns);
    var ps := ParesQui(taxas, ns);
    if |ps| == 0 then Ok(0.0)
    else if c == 0.0 then Err(DivisaoPorZero)
    else Ok(SomaQui(ps, c, |ps|))
  }

  /** The accumulation loop of calcular_estatistica_qui_quadrado. */
  method CalcularEstatisticaQui(taxas: seq<real>, ns: seq<int>) returns (r: Result<real>)
    ensures r == EstatisticaQui(taxas, ns)
  {
    var combinada := TaxaCombinada(taxas, ns);
    if combinada.Err? {
      return Err(combinada.erro);
    }
    var c := combinada.value;
    var ps := ParesQui(taxas, ns);
    var qui := 0.0;
    var i := 0;
    while i < |ps|
      invariant 0 <= i <= |ps|
      invariant c == 0.0 ==> i == 0 && qui == 0.0
      invariant c != 0.0 ==> qui == SomaQui(ps, c, i)
    {
      if c == 0.0 {
        return Err(DivisaoPorZero);
      }
      qui := qui + TermoQui(ps[i], c);
      i := i + 1;
    }
    r := Ok(qui);
  }

  /** calcular_graus_liberdade: the number of groups minus one. */
  function GrausLiberdadeQui(ns: seq<int>): int
  {
    |ns| - 1
  }

  /** calcular_valor_p: 1 - cdf_qui_quadrado(statistic, df). */
  function ValorPQui(p: Primitivas, qui: real, ns: seq<int>): real
  {
    ValorP(p, DensidadeQui(GrausLiberdadeQui(ns) as real), qui)
  }

  /** The dictionary realizar_teste returns; `rejeita` stands for the
      "differences" message. */
  datatype ResultadoQui = ResultadoQui(
    estatistica: real,
    grausLiberdade: int,
    valorP: real,
    alpha: real,
    rejeita: bool)

  function ResultadoQuiEsperado(p: Primitivas, taxas: seq<real>, ns: seq<int>, alpha: real): Result<ResultadoQui>
  {
    var qui :- EstatisticaQui(taxas, ns);
    var valorP := ValorPQui(p, qui, ns);
    Ok(ResultadoQui(qui, GrausLiberdadeQui(ns), valorP, alpha, Rejeita(valorP, alpha)))
  }

  /** TesteQuiQuadradoProporcoes.realizar_teste. */
  method RealizarTesteQui(p: Primitivas, taxas: seq<real>, ns: seq<int>, alpha: real) returns (r: Result<ResultadoQui>)
    ensures r == ResultadoQuiEsperado(p, taxas, ns, alpha)
  {
    var qui := CalcularEstatisticaQui(taxas, ns);
    if qui.Err? {
      return Err(qui.erro);
    }
    var cdf := CdfTrapezios(p, DensidadeQui(GrausLiberdadeQui(ns) as real), qui.value);
    var valorP := 1.0 - cdf;
    r := Ok(ResultadoQui(qui.value, GrausLiberdadeQui(ns), valorP, alpha, Rejeita(valorP, alpha)));
  }

  // ---------------------------------------------------------------------
  // Properties

  /** With as many rates as sizes, the sizes are the weights of the pairs. */
  lemma {:induction false} SomaTamanhosComoPesos(taxas: seq<real>, ns: seq<int>)
    requires |taxas| == |ns|
    ensures SomaTamanhos(ns) as real == SomaPesos(ParesQui(taxas, ns))
  {
    if |ns| > 0 {
      var n := |ns| - 1;
      assert ParesQui(taxas, ns)[..n] == ParesQui(taxas[..n], ns[..n]);
      SomaTamanhosComoPesos(taxas[..n], ns[..n]);
    }
  }

  /** With one rate per group and positive sizes, the pooled rate exists
      and lies between the smallest and the largest rate (so in [0, 1] when
      every rate is). */
  lemma TaxaCombinadaLimitada(taxas: seq<real>, ns: seq<int>, lo: real, hi: real)
    requires |taxas| == |ns| >= 1
    requires forall i :: 0 <= i < |ns| ==> ns[i] > 0 && lo <= taxas[i] <= hi
    ensures TaxaCombinada(taxas, ns).Ok?
    ensures lo <= TaxaCombinada(taxas, ns).value <= hi
  {
    var ps := ParesQui(taxas, ns);
    SomaTamanhosComoPesos(taxas, ns);
    SomaPesosPositiva(ps);
    MediaPonderadaLimitada(ps, lo, hi);
  }

  lemma {:induction false} SomaPesosPositiva(ps: seq<Par>)
    requires |ps| >= 1 && PesosPositivos(ps)
    ensures SomaPesos(ps) > 0.0
  {
    var n := |ps| - 1;
    if n > 0 {
      SomaPesosPositiva(ps[..n]);
    } else {
      assert Somatorio(ps[..n], Peso) == 0.0;
    }
  }

  /** One term times the pooled rate is the weighted squared deviation. */
  lemma TermoQuiEscalado(par: Par, c: real)
    requires c != 0.0
    ensures TermoQui(par, c) * c == Termo(Desvio(c), par)
  {
    var q := Quadrado(par.valor - c);
    var d := q / c;
    assert d * c == q;
    calc {
      TermoQui(par, c) * c;
      d * par.peso * c;
      par.peso * (d * c);
      par.peso * q;
    }
  }

  /** The loop's sum is the weighted sum of squared deviations from the
      pooled rate, divided by that rate. */
  lemma {:induction false} SomaQuiComoQuadrados(ps: seq<Par>, c: real, n: nat)
    requires c != 0.0 && n <= |ps|
    ensures SomaQui(ps, c, n) * c == SomaQuadrados(ps[..n], c)
  {
    if n > 0 {
      SomaQuiComoQuadrados(ps, c, n - 1);
      TermoQuiEscalado(ps[n - 1], c);
      assert ps[..n][..n - 1] == ps[..n - 1];
      calc {
        SomaQui(ps, c, n) * c;
        (SomaQui(ps, c, n - 1) + TermoQui(ps[n - 1], c)) * c;
        SomaQui(ps, c, n - 1) * c + TermoQui(ps[n - 1], c) * c;
        SomaQuadrados(ps[..n - 1], c) + Termo(Desvio(c), ps[n - 1]);
        SomaQuadrados(ps[..n], c);
      }
    }
  }

  /** The statistic of a completed test is sum(n_i (r_i - p)^2) / p. */
  lemma EstatisticaComoQuadrados(taxas: seq<real>, ns: seq<int>)
    requires EstatisticaQui(taxas, ns).Ok? && ParesQui(taxas, ns) != []
    ensures TaxaCombinada(taxas, ns).Ok? && TaxaCombinada(taxas, ns).value != 0.0
    ensures EstatisticaQui(taxas, ns).value
         == SomaQuadrados(ParesQui(taxas, ns), TaxaCombinada(taxas, ns).value) / TaxaCombinada(taxas, ns).value
  {
    var ps := ParesQui(taxas, ns);
    var c := TaxaCombinada(taxas, ns).value;
    SomaQuiComoQuadrados(ps, c, |ps|);
    assert ps[..|ps|] == ps;
    QuocienteDeProduto(SomaQui(ps, c, |ps|), SomaQuadrados(ps, c), c);
  }

  /** With non-negative sizes and rates the statistic, when it exists, is
      non-negative. */
  lemma EstatisticaQuiNaoNegativa(taxas: seq<real>, ns: seq<int>)
    requires forall i :: 0 <= i < |ns| ==> ns[i] >= 0
    requires forall i :: 0 <= i < |taxas| ==> taxas[i] >= 0.0
    requires EstatisticaQui(taxas, ns).Ok?
    ensures EstatisticaQui(taxas, ns).value >= 0.0
  {
    var ps := ParesQui(taxas, ns);
    if ps != [] {
      var c := TaxaCombinada(taxas, ns).value;
      EstatisticaComoQuadrados(taxas, ns);
      SomaTamanhosNaoNegativa(ns);
      SomaPonderadaNaoNegativa(ps);
      assert c > 0.0;
      SomaQuadradosNaoNegativa(ps, c);
    }
  }

  lemma {:induction false} SomaTamanhosNaoNegativa(ns: seq<int>)
    requires forall i :: 0 <= i < |ns| ==> ns[i] >= 0
    ensures SomaTamanhos(ns) >= 0
  {
    if |ns| > 0 {
      SomaTamanhosNaoNegativa(ns[..|ns| - 1]);
    }
  }

  lemma SomaPonderadaNaoNegativa(ps: seq<Par>)
    requires PesosNaoNegativos(ps) && forall i :: 0 <= i < |ps| ==> ps[i].valor >= 0.0
    ensures SomaPonderada(ps) >= 0.0
  {
    var hi := MaiorValor(ps);
    SomaPonderadaLimitada(ps, 0.0, hi);
    SomaPesosNaoNegativa(ps);
    ProdutoNaoNegativo(0.0, SomaPesos(ps));
  }

  /** Every value of ps is at most the result. */
  function MaiorValor(ps: seq<Par>): (m: real)
    ensures forall i :: 0 <= i < |ps| ==> ps[i].valor <= m
  {
    if |ps| == 0 then 0.0
    else
      var m := MaiorValor(ps[..|ps| - 1]);
      assert forall i :: 0 <= i < |ps| - 1 ==> ps[i].valor == ps[..|ps| - 1][i].valor;
      if ps[|ps| - 1].valor > m then ps[|ps| - 1].valor else m
  }

  lemma {:induction false} SomaPesosNaoNegativa(ps: seq<Par>)
    requires PesosNaoNegativos(ps)
    ensures SomaPesos(ps) >= 0.0
  {
    if |ps| > 0 {
      SomaPesosNaoNegativa(ps[..|ps| - 1]);
    }
  }

  /** Equal rates c in every group with positive sizes: the statistic is 0,
      except that c = 0 makes the pooled rate 0 and the division raise. */
  lemma TaxasIguais(taxas: seq<real>, ns: seq<int>, c: real)
    requires |taxas| == |ns| >= 1
    requires forall i :: 0 <= i < |ns| ==> ns[i] > 0 && taxas[i] == c
    ensures EstatisticaQui(taxas, ns) == if c == 0.0 then Err(DivisaoPorZero) else Ok(0.0)
  {
    var ps := ParesQui(taxas, ns);
    TaxaCombinadaLimitada(taxas, ns, c, c);
    if c != 0.0 {
      SomaQuiComoQuadrados(ps, c, |ps|);
      assert ps[..|ps|] == ps;
      SomaQuadradosNula(ps, c);
      assert SomaQui(ps, c, |ps|) * c == 0.0;
    }
  }

  /** Reordering the groups (the same permutation applied to both lists)
      leaves the pooled rate unchanged. */
  lemma TaxaCombinadaPermutacao(taxas1: seq<real>, ns1: seq<int>, taxas2: seq<real>, ns2: seq<int>)
    requires |taxas1| == |ns1| && |taxas2| == |ns2|
    requires multiset(ParesQui(taxas1, ns1)) == multiset(ParesQui(taxas2, ns2))
    ensures TaxaCombinada(taxas1, ns1) == TaxaCombinada(taxas2, ns2)
  {
    var ps1, ps2 := ParesQui(taxas1, ns1), ParesQui(taxas2, ns2);
    SomaTamanhosComoPesos(taxas1, ns1);
    SomaTamanhosComoPesos(taxas2, ns2);
    SomatorioPermutacao(ps1, ps2, Peso);
    SomatorioPermutacao(ps1, ps2, Produto);
    assert SomaTamanhos(ns1) == SomaTamanhos(ns2);
  }

  /** The loop's sum does not depend on the order of the pairs. */
  lemma SomaQuiPermutacao(ps1: seq<Par>, ps2: seq<Par>, c: real)
    requires c != 0.0 && multiset(ps1) == multiset(ps2)
    ensures |ps1| == |ps2|
    ensures SomaQui(ps1, c, |ps1|) == SomaQui(ps2, c, |ps2|)
  {
    assert |ps1| == |multiset(ps1)| == |multiset(ps2)| == |ps2|;
    SomatorioPermutacao(ps1, ps2, Desvio(c));
    SomaQuiDividida(ps1, c);
    SomaQuiDividida(ps2, c);
  }

  /** The whole loop sum is SS / c. */
  lemma SomaQuiDividida(ps: seq<Par>, c: real)
    requires c != 0.0
    ensures SomaQui(ps, c, |ps|) == SomaQuadrados(ps, c) / c
  {
    SomaQuiComoQuadrados(ps, c, |ps|);
    assert ps[..|ps|] == ps;
    QuocienteDeProduto(SomaQui(ps, c, |ps|), SomaQuadrados(ps, c), c);
  }

  lemma QuocienteDeProduto(x: real, s: real, c: real)
    requires c != 0.0 && x * c == s
    ensures x == s / c
  {
  }

  /** Reordering the groups leaves the statistic, or its error, unchanged. */
  lemma EstatisticaPermutacao(taxas1: seq<real>, ns1: seq<int>, taxas2: seq<real>, ns2: seq<int>)
    requires |taxas1| == |ns1| && |taxas2| == |ns2|
    requires multiset(ParesQui(taxas1, ns1)) == multiset(ParesQui(taxas2, ns2))
    ensures EstatisticaQui(taxas1, ns1) == EstatisticaQui(taxas2, ns2)
  {
    TaxaCombinadaPermutacao(taxas1, ns1, taxas2, ns2);
    var ps1, ps2 := ParesQui(taxas1, ns1), ParesQui(taxas2, ns2);
    assert |ps1| == |multiset(ps1)| == |multiset(ps2)| == |ps2|;
    if TaxaCombinada(taxas1, ns1).Ok? && TaxaCombinada(taxas1, ns1).value != 0.0 {
      SomaQuiPermutacao(ps1, ps2, TaxaCombinada(taxas1, ns1).value);
    }
  }

  /** A completed test: df = k - 1, the verdict is p < alpha, p <= 1, and a
      statistic of 0 gives p = 1. */
  lemma ResultadoQuiCaracterizado(p: Primitivas, taxas: seq<real>, ns: seq<int>, alpha: real)
    requires ResultadoQuiEsperado(p, taxas, ns, alpha).Ok?
    ensures var r := ResultadoQuiEsperado(p, taxas, ns, alpha).value;
      && r.estatistica == EstatisticaQui(taxas, ns).value
      && r.grausLiberdade == |ns| - 1
      && (r.rejeita <==> r.valorP < alpha)
      && r.valorP <= 1.0
      && (r.estatistica <= 0.0 ==> r.valorP == 1.0)
  {
    var r := ResultadoQuiEsperado(p, taxas, ns, alpha).value;
    ValorPLimitado(p, DensidadeQui(GrausLiberdadeQui(ns) as real), r.estatistica);
  }

  /** The example of the class documentation: sizes [1000, 1000] and rates
      [0.2, 0.25] give pooled rate 0.225, statistic 1.25 / 0.225 and 1 df. */
  lemma ExemploDocumentado()
    ensures TaxaCombinada([0.2, 0.25], [1000, 1000]) == Ok(0.225)
    ensures EstatisticaQui([0.2, 0.25], [1000, 1000]) == Ok(1.25 / 0.225)
    ensures GrausLiberdadeQui([1000, 1000]) == 1
  {
    var taxas, ns := [0.2, 0.25], [1000, 1000];
    assert ns[..1] == [1000] && ns[..1][..0] == [];
    assert SomaTamanhos(ns[..1]) == 1000;
    assert SomaTamanhos(ns) == 2000;
    var ps := ParesQui(taxas, ns);
    assert ps == [Par(1000.0, 0.2), Par(1000.0, 0.25)];
    assert ps[..1] == [Par(1000.0, 0.2)] && ps[..1][..0] == [];
    assert Somatorio(ps[..1], Produto) == Somatorio(ps[..1][..0], Produto) + Termo(Produto, ps[0]);
    assert SomaPonderada(ps[..1]) == 200.0;
    assert SomaPonderada(ps) == 450.0;
    var c := 0.225;
    assert TermoQui(ps[0], c) == 0.625 / 0.225 by {
      assert Quadrado(0.2 - c) == 0.000625;
    }
    assert TermoQui(ps[1], c) == 0.625 / 0.225 by {
      assert Quadrado(0.25 - c) == 0.000625;
    }
    assert SomaQui(ps, c, 1) == 0.625 / 0.225;
    assert SomaQui(ps, c, 2) == 0.625 / 0.225 + 0.625 / 0.225;
  }
}
