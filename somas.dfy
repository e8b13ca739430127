// Finite sums the statistics are built from: plain sums of observations and
// weighted sums over (weight, value) pairs, with the facts the tests rely on
// (a weighted mean lies between the extreme values, a weighted sum of squared
// deviations is non-negative and vanishes only when every value equals the
// centre, and no sum depends on the order of its terms).

module Somas {

  /** One group as seen by a weighted mean: its weight and its value. */
  datatype Par = Par(peso: real, valor: real)

  /** Which quantity of a pair is summed. */
  datatype Parcela =
    | Peso                  // w
    | Produto               // w * v
    | Desvio(centro: real)  // w * (v - c)^2

  function Termo(q: Parcela, p: Par): real
  {
    match q
    case Peso => p.peso
    case Produto => p.peso * p.valor
    case Desvio(c) => p.peso * Quadrado(p.valor - c)
  }

  function Quadrado(x: real): real { x * x }

  lemma QuadradoNaoNegativo(x: real)
    ensures Quadrado(x) >= 0.0
  {
  }

  lemma QuadradoPositivo(x: real)
    requires x != 0.0
    ensures Quadrado(x) > 0.0
  {
    calc {
      Quadrado(x);
      x * x;
    >
      0.0;
    }
  }

  lemma ProdutoPositivo(a: real, b: real)
    requires a > 0.0 && b > 0.0
    ensures a * b > 0.0
  {
  }

  lemma ProdutoMonotono(w: real, a: real, b: real)
    requires w >= 0.0 && a <= b
    ensures w * a <= w * b
  {
  }

  lemma ProdutoNaoNegativo(a: real, b: real)
    requires a >= 0.0 && b >= 0.0
    ensures a * b >= 0.0
  {
  }

  /** The sum of the chosen quantity over the pairs, left to right. */
  function Somatorio(ps: seq<Par>, q: Parcela): real
  {
    if |ps| == 0 then 0.0 else Somatorio(ps[..|ps| - 1], q) + Termo(q, ps[|ps| - 1])
  }

  function SomaPesos(ps: seq<Par>): real { Somatorio(ps, Peso) }

  function SomaPonderada(ps: seq<Par>): real { Somatorio(ps, Produto) }

  function SomaQuadrados(ps: seq<Par>, c: real): real { Somatorio(ps, Desvio(c)) }

  predicate PesosNaoNegativos(ps: seq<Par>)
  {
    forall i :: 0 <= i < |ps| ==> ps[i].peso >= 0.0
  }

  predicate PesosPositivos(ps: seq<Par>)
  {
    forall i :: 0 <= i < |ps| ==> ps[i].peso > 0.0
  }

  predicate ValoresEntre(ps: seq<Par>, lo: real, hi: real)
  {
    forall i :: 0 <= i < |ps| ==> lo <= ps[i].valor <= hi
  }

  predicate ValoresIguais(ps: seq<Par>, c: real)
  {
    forall i :: 0 <= i < |ps| ==> ps[i].valor == c
  }

  // ---------------------------------------------------------------------
  // Structure of the sums

  lemma {:induction false} SomatorioConcatenado(a: seq<Par>, b: seq<Par>, q: Parcela)
    ensures Somatorio(a + b, q) == Somatorio(a, q) + Somatorio(b, q)
  {
    if |b| > 0 {
      assert (a + b)[..|a + b| - 1] == a + b[..|b| - 1];
      SomatorioConcatenado(a, b[..|b| - 1], q);
    } else {
      assert a + b == a;
    }
  }

  /** Taking one term out of any position leaves the rest of the sum. */
  lemma SomatorioSemPosicao(ps: seq<Par>, j: nat, q: Parcela)
    requires j < |ps|
    ensures Somatorio(ps, q) == Somatorio(ps[..j] + ps[j + 1..], q) + Termo(q, ps[j])
  {
    assert ps == ps[..j] + ([ps[j]] + ps[j + 1..]);
    SomatorioConcatenado(ps[..j], [ps[j]] + ps[j + 1..], q);
    SomatorioConcatenado([ps[j]], ps[j + 1..], q);
    SomatorioConcatenado(ps[..j], ps[j + 1..], q);
  }

  /** The sums depend only on the multiset of pairs, not on their order. */
  lemma {:induction false} SomatorioPermutacao(xs: seq<Par>, ys: seq<Par>, q: Parcela)
    requires multiset(xs) == multiset(ys)
    ensures Somatorio(xs, q) == Somatorio(ys, q)
  {
    if |xs| > 0 {
      var n := |xs| - 1;
      var x := xs[n];
      assert xs == xs[..n] + [x];
      assert x in multiset(ys);
      var j :| 0 <= j < |ys| && ys[j] == x;
      assert ys == ys[..j] + [x] + ys[j + 1..];
      assert multiset(ys) == multiset(ys[..j]) + multiset{x} + multiset(ys[j + 1..]);
      assert multiset(xs) == multiset(xs[..n]) + multiset{x};
      assert multiset(ys[..j] + ys[j + 1..]) == multiset(ys[..j]) + multiset(ys[j + 1..]);
      assert multiset(xs[..n]) == multiset(xs) - multiset{x};
      assert multiset(ys[..j] + ys[j + 1..]) == multiset(ys) - multiset{x};
      SomatorioPermutacao(xs[..n], ys[..j] + ys[j + 1..], q);
      SomatorioSemPosicao(ys, j, q);
    } else {
      assert |ys| == |multiset(ys)| == 0;
    }
  }

  // ---------------------------------------------------------------------
  // Weighted means

  /** With non-negative weights and every value in [lo, hi], the weighted sum
      lies between lo and hi times the total weight. */
  lemma {:induction false} SomaPonderadaLimitada(ps: seq<Par>, lo: real, hi: real)
    requires PesosNaoNegativos(ps) && ValoresEntre(ps, lo, hi)
    ensures lo * SomaPesos(ps) <= SomaPonderada(ps) <= hi * SomaPesos(ps)
  {
    if |ps| > 0 {
      var n := |ps| - 1;
      SomaPonderadaLimitada(ps[..n], lo, hi);
      var w, v := ps[n].peso, ps[n].valor;
      ProdutoMonotono(w, lo, v);
      ProdutoMonotono(w, v, hi);
      calc {
        lo * SomaPesos(ps);
        lo * (SomaPesos(ps[..n]) + w);
        lo * SomaPesos(ps[..n]) + lo * w;
      <=
        SomaPonderada(ps[..n]) + w * v;
        SomaPonderada(ps);
      }
      calc {
        SomaPonderada(ps);
        SomaPonderada(ps[..n]) + w * v;
      <=
        hi * SomaPesos(ps[..n]) + w * v;
      <=
        hi * SomaPesos(ps[..n]) + w * hi;
        hi * SomaPesos(ps[..n]) + hi * w;
        hi * (SomaPesos(ps[..n]) + w);
        hi * SomaPesos(ps);
      }
    }
  }

  /** The weighted mean lies between any bounds of the values; in particular
      between the smallest and the largest value. */
  lemma MediaPonderadaLimitada(ps: seq<Par>, lo: real, hi: real)
    requires PesosNaoNegativos(ps) && ValoresEntre(ps, lo, hi) && SomaPesos(ps) > 0.0
    ensures lo <= SomaPonderada(ps) / SomaPesos(ps) <= hi
  {
    SomaPonderadaLimitada(ps, lo, hi);
    var m := SomaPonderada(ps) / SomaPesos(ps);
    assert SomaPonderada(ps) == m * SomaPesos(ps);
    assert (m - lo) * SomaPesos(ps) >= 0.0 && (hi - m) * SomaPesos(ps) >= 0.0;
  }

  /** When every value equals c, the weighted mean is c. */
  lemma MediaPonderadaConstante(ps: seq<Par>, c: real)
    requires PesosNaoNegativos(ps) && ValoresIguais(ps, c) && SomaPesos(ps) > 0.0
    ensures SomaPonderada(ps) / SomaPesos(ps) == c
  {
    MediaPonderadaLimitada(ps, c, c);
  }

  // ---------------------------------------------------------------------
  // Weighted sums of squared deviations

  lemma {:induction false} SomaQuadradosNaoNegativa(ps: seq<Par>, c: real)
    requires PesosNaoNegativos(ps)
    ensures SomaQuadrados(ps, c) >= 0.0
  {
    if |ps| > 0 {
      var n := |ps| - 1;
      SomaQuadradosNaoNegativa(ps[..n], c);
      QuadradoNaoNegativo(ps[n].valor - c);
      ProdutoNaoNegativo(ps[n].peso, Quadrado(ps[n].valor - c));
    }
  }

  /** With positive weights the sum of squared deviations from c vanishes
      exactly when every value equals c. */
  lemma {:induction false} SomaQuadradosNula(ps: seq<Par>, c: real)
    requires PesosPositivos(ps)
    ensures SomaQuadrados(ps, c) == 0.0 <==> ValoresIguais(ps, c)
  {
    if |ps| > 0 {
      var n := |ps| - 1;
      SomaQuadradosNula(ps[..n], c);
      SomaQuadradosNaoNegativa(ps[..n], c);
      if ps[n].valor == c {
        assert Termo(Desvio(c), ps[n]) == 0.0;
        if ValoresIguais(ps[..n], c) {
          assert ValoresIguais(ps, c) by {
            forall i | 0 <= i < |ps| ensures ps[i].valor == c {
              if i < n { assert ps[..n][i] == ps[i]; }
            }
          }
        }
      } else {
        QuadradoPositivo(ps[n].valor - c);
        ProdutoPositivo(ps[n].peso, Quadrado(ps[n].valor - c));
      }
    }
  }

  // ---------------------------------------------------------------------
  // Plain sums of reals

  function Soma(s: seq<real>): real
  {
    if |s| == 0 then 0.0 else Soma(s[..|s| - 1]) + s[|s| - 1]
  }

  /** Sum of squares of the entries. */
  function SomaDosQuadrados(s: seq<real>): real
  {
    if |s| == 0 then 0.0 else SomaDosQuadrados(s[..|s| - 1]) + s[|s| - 1] * s[|s| - 1]
  }

  /** Sum of squared deviations of the entries from m. */
  function SomaDesviosQuadrados(s: seq<real>, m: real): real
  {
    if |s| == 0 then 0.0 else SomaDesviosQuadrados(s[..|s| - 1], m) + (s[|s| - 1] - m) * (s[|s| - 1] - m)
  }

  predicate NaoNegativos(s: seq<real>)
  {
    forall i :: 0 <= i < |s| ==> s[i] >= 0.0
  }

  lemma {:induction false} SomaConcatenada(a: seq<real>, b: seq<real>)
    ensures Soma(a + b) == Soma(a) + Soma(b)
  {
    if |b| > 0 {
      assert (a + b)[..|a + b| - 1] == a + b[..|b| - 1];
      SomaConcatenada(a, b[..|b| - 1]);
    } else {
      assert a + b == a;
    }
  }

  lemma {:induction false} SomaNaoNegativa(s: seq<real>)
    requires NaoNegativos(s)
    ensures Soma(s) >= 0.0
  {
    if |s| > 0 {
      SomaNaoNegativa(s[..|s| - 1]);
    }
  }

  /** For non-negative entries the square of the sum bounds the sum of squares. */
  lemma {:induction false} QuadradoDaSomaMajora(s: seq<real>)
    requires NaoNegativos(s)
    ensures Soma(s) * Soma(s) >= SomaDosQuadrados(s)
  {
    if |s| > 0 {
      var t, x := s[..|s| - 1], s[|s| - 1];
      QuadradoDaSomaMajora(t);
      SomaNaoNegativa(t);
      var a := Soma(t);
      assert (a + x) * (a + x) == a * a + 2.0 * a * x + x * x;
      assert a * x >= 0.0;
    }
  }

  /** The inductive step of Cauchy-Schwarz, on the running totals. */
  lemma PassoCauchySchwarz(m: real, a: real, q: real, x: real)
    requires m >= 0.0 && m * q >= a * a
    requires m == 0.0 ==> a == 0.0 && q == 0.0
    ensures (m + 1.0) * (q + x * x) >= (a + x) * (a + x)
  {
    var y := q + m * x * x - 2.0 * a * x;
    if m > 0.0 {
      var e := a - m * x;
      assert m * y == m * q + e * e - a * a;
      assert m * y >= e * e;
      assert e * e >= 0.0;
      assert y >= 0.0;
    }
    assert (m + 1.0) * (q + x * x) == m * q + y + 2.0 * a * x + x * x;
    assert (a + x) * (a + x) == a * a + 2.0 * a * x + x * x;
  }

  /** Cauchy-Schwarz for a sum of n terms: n times the sum of squares bounds
      the square of the sum. */
  lemma {:induction false} CauchySchwarz(s: seq<real>)
    ensures |s| as real * SomaDosQuadrados(s) >= Soma(s) * Soma(s)
  {
    if |s| > 0 {
      var t, x := s[..|s| - 1], s[|s| - 1];
      CauchySchwarz(t);
      PassoCauchySchwarz(|t| as real, Soma(t), SomaDosQuadrados(t), x);
    }
  }
}
