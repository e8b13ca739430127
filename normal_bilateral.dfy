// The two-sided normal p-value that the Z test (estatistica/testes/z_test.py)
// and the Mann-Whitney test (estatistica/testes/mann_whitney.py) share:
// cdf_normal(x) = (1 + erf(x / sqrt 2)) / 2 with the library `math.erf`, and
// p = 2 (1 - cdf_normal(|z|)).

module NormalBilateral {
  import opened Biblioteca

  /** cdf_normal with the library erf. */
  function CdfNormal(p: Primitivas, x: real): real
  {
    (1.0 + p.erf(x / p.sqrt(2.0))) / 2.0
  }

  /** 2 * (1 - cdf_normal(abs(z))). */
  function ValorPBilateral(p: Primitivas, z: real): real
  {
    2.0 * (1.0 - CdfNormal(p, Abs(z)))
  }

  /** Opposite statistics have the same absolute value. */
  lemma AbsSimetrico(z: real)
    ensures Abs(-z) == Abs(z)
  {
    if z < 0.0 {
      assert Abs(z) == -z;
    } else if z > 0.0 {
      assert Abs(-z) == z;
    }
  }

  /** The p-value depends on the statistic only through |z|: in particular a
      statistic and its opposite get the same p-value. */
  lemma ValorPSoDependeDoModulo(p: Primitivas, z1: real, z2: real)
    requires z2 == z1 || z2 == -z1
    ensures ValorPBilateral(p, z1) == ValorPBilateral(p, z2)
  {
    if z2 == -z1 {
      AbsSimetrico(z1);
    }
  }
}
