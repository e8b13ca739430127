// The trapezoid-rule CDF shared by the F test (cdf_f in anova.py) and the
// chi-square test (cdf_qui_quadrado in qui.py), and the reject rule every test
// applies to its p-value. The densities themselves are library values (see
// Biblioteca): only their non-negativity is known.

module Integracao {
  import opened Biblioteca

  /** The `passos` default of both CDFs; no caller overrides it. */
  const Passos: nat := 1000

  /** Which density is integrated, with its degrees of freedom. */
  datatype Densidade = DensidadeF(d1: real, d2: real) | DensidadeQui(k: real)

  /** pdf_f / pdf_qui_quadrado: 0 for x <= 0, the density otherwise. */
  function Pdf(p: Primitivas, dens: Densidade, x: real): (r: real)
    ensures r >= 0.0
  {
    if x <= 0.0 then 0.0
    else match dens
      case DensidadeF(d1, d2) => p.densidadeF(x, d1, d2)
      case DensidadeQui(k) => p.densidadeQui(x, k)
  }

  /** The area of a trapezoid of width h with sides y0 and y1. */
  function Area(y0: real, y1: real, h: real): real
  {
    (y0 + y1) * h / 2.0
  }

  /** The i-th grid point `i * h`. */
  function Ponto(i: nat, h: real): real
  {
    i as real * h
  }

  /** The trapezoid over [i*h, (i+1)*h]. */
  function Trapezio(p: Primitivas, dens: Densidade, h: real, i: nat): real
  {
    Area(Pdf(p, dens, Ponto(i, h)), Pdf(p, dens, Ponto(i + 1, h)), h)
  }

  /** The first n trapezoids of width h, starting at 0. */
  function SomaTrapezios(p: Primitivas, dens: Densidade, h: real, n: nat): real
  {
    if n == 0 then 0.0 else SomaTrapezios(p, dens, h, n - 1) + Trapezio(p, dens, h, n - 1)
  }

  /** The CDF as the source computes it: 0 for x <= 0, otherwise `Passos`
      trapezoids of width x / Passos. */
  function Cdf(p: Primitivas, dens: Densidade, x: real): real
  {
    if x <= 0.0 then 0.0 else SomaTrapezios(p, dens, x / Passos as real, Passos)
  }

  /** `1 - cdf(estatistica)`. */
  function ValorP(p: Primitivas, dens: Densidade, x: real): real
  {
    1.0 - Cdf(p, dens, x)
  }

  /** The accumulation loop of cdf_f / cdf_qui_quadrado. */
  method CdfTrapezios(p: Primitivas, dens: Densidade, x: real) returns (integral: real)
    ensures integral == Cdf(p, dens, x)
    ensures integral >= 0.0
    ensures x <= 0.0 ==> integral == 0.0
  {
    if x <= 0.0 {
      return 0.0;
    }
    var h := x / Passos as real;
    integral := 0.0;
    var i: nat := 0;
    while i < Passos
      invariant 0 <= i <= Passos
      invariant integral == SomaTrapezios(p, dens, h, i)
    {
      var x0 := Ponto(i, h);
      var x1 := Ponto(i + 1, h);
      var y0 := Pdf(p, dens, x0);
      var y1 := Pdf(p, dens, x1);
      assert SomaTrapezios(p, dens, h, i + 1) == SomaTrapezios(p, dens, h, i) + Trapezio(p, dens, h, i);
      integral := integral + Area(y0, y1, h);
      i := i + 1;
    }
    SomaTrapeziosNaoNegativa(p, dens, h, Passos);
  }

  /** Trapezoids of a non-negative density over a non-negative width add up
      to a non-negative area. */
  lemma {:induction false} SomaTrapeziosNaoNegativa(p: Primitivas, dens: Densidade, h: real, n: nat)
    requires h >= 0.0
    ensures SomaTrapezios(p, dens, h, n) >= 0.0
  {
    if n > 0 {
      SomaTrapeziosNaoNegativa(p, dens, h, n - 1);
      TrapezioNaoNegativo(p, dens, h, n - 1);
    }
  }

  lemma TrapezioNaoNegativo(p: Primitivas, dens: Densidade, h: real, i: nat)
    requires h >= 0.0
    ensures Trapezio(p, dens, h, i) >= 0.0
  {
    AreaNaoNegativa(Pdf(p, dens, Ponto(i, h)), Pdf(p, dens, Ponto(i + 1, h)), h);
  }

  lemma AreaNaoNegativa(y0: real, y1: real, h: real)
    requires y0 >= 0.0 && y1 >= 0.0 && h >= 0.0
    ensures Area(y0, y1, h) >= 0.0
  {
  }

  /** The p-value never exceeds 1, and a statistic x <= 0 gets exactly 1. */
  lemma ValorPLimitado(p: Primitivas, dens: Densidade, x: real)
    ensures ValorP(p, dens, x) <= 1.0
    ensures x <= 0.0 ==> ValorP(p, dens, x) == 1.0
  {
    if x > 0.0 {
      SomaTrapeziosNaoNegativa(p, dens, x / Passos as real, Passos);
    }
  }

  /** interpretar_resultado: the null hypothesis is rejected iff p < alpha. */
  predicate Rejeita(valorP: real, alpha: real)
  {
    valorP < alpha
  }

  /** A statistic x <= 0 never leads to rejection at any alpha <= 1. */
  lemma EstatisticaNaoPositivaNaoRejeita(p: Primitivas, dens: Densidade, x: real, alpha: real)
    requires x <= 0.0 && alpha <= 1.0
    ensures !Rejeita(ValorP(p, dens, x), alpha)
  {
    ValorPLimitado(p, dens, x);
  }
}
