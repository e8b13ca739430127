// Python's `sorted` on a list of floats, as a function on sequences: the
// result is in non-decreasing order and holds the same elements.

module Ordenacao {

  predicate Ordenada(s: seq<real>)
  {
    forall i, j :: 0 <= i < j < |s| ==> s[i] <= s[j]
  }

  /** Inserts x into an ordered sequence, before the first larger element. */
  function Inserir(x: real, s: seq<real>): (r: seq<real>)
    requires Ordenada(s)
    ensures Ordenada(r) && multiset(r) == multiset(s) + multiset{x}
  {
    if |s| == 0 then [x]
    else if x <= s[0] then [x] + s
    else
      var cauda := Inserir(x, s[1..]);
      CaudaMajorada(x, s, cauda);
      CabecaMaisOrdenada(s[0], cauda);
      assert s == [s[0]] + s[1..];
      [s[0]] + cauda
  }

  /** Everything in the insertion into the tail of s is at least the head of s. */
  lemma CaudaMajorada(x: real, s: seq<real>, cauda: seq<real>)
    requires Ordenada(s) && |s| > 0 && s[0] < x
    requires multiset(cauda) == multiset(s[1..]) + multiset{x}
    ensures forall k :: 0 <= k < |cauda| ==> s[0] <= cauda[k]
  {
    forall k | 0 <= k < |cauda| ensures s[0] <= cauda[k] {
      assert cauda[k] in multiset(cauda);
      if cauda[k] != x {
        assert cauda[k] in multiset(s[1..]);
        var j :| 0 <= j < |s[1..]| && s[1..][j] == cauda[k];
        assert s[j + 1] == cauda[k];
      }
    }
  }

  /** A head no larger than an ordered tail keeps the sequence ordered. */
  lemma CabecaMaisOrdenada(h: real, t: seq<real>)
    requires Ordenada(t) && forall k :: 0 <= k < |t| ==> h <= t[k]
    ensures Ordenada([h] + t)
  {
    var r := [h] + t;
    forall i, j | 0 <= i < j < |r| ensures r[i] <= r[j] {
      assert r[j] == t[j - 1];
      if i > 0 {
        assert r[i] == t[i - 1];
      }
    }
  }

  /** `sorted(dados)`. */
  function Ordenar(s: seq<real>): (r: seq<real>)
    ensures Ordenada(r) && multiset(r) == multiset(s) && |r| == |s|
  {
    if |s| == 0 then []
    else
      assert s == s[..|s| - 1] + [s[|s| - 1]];
      var r := Inserir(s[|s| - 1], Ordenar(s[..|s| - 1]));
      assert |r| == |multiset(r)| == |multiset(s)| == |s|;
      r
  }

  /** The head of an ordered sequence is below every element. */
  lemma PrimeiroEMinimo(a: seq<real>, x: real)
    requires Ordenada(a) && x in multiset(a)
    ensures a[0] <= x
  {
    var j :| 0 <= j < |a| && a[j] == x;
  }

  /** Two ordered sequences with the same elements are equal. */
  lemma {:induction false} OrdenadasIguais(a: seq<real>, b: seq<real>)
    requires Ordenada(a) && Ordenada(b) && multiset(a) == multiset(b)
    ensures a == b
  {
    if |a| > 0 {
      MesmaCabeca(a, b);
      OrdenadasIguais(a[1..], b[1..]);
      assert a == [a[0]] + a[1..] && b == [b[0]] + b[1..];
    } else {
      assert |b| == |multiset(b)| == 0;
    }
  }

  /** Two non-empty ordered sequences with the same elements share their
      head, and their tails are ordered with the same elements. */
  lemma MesmaCabeca(a: seq<real>, b: seq<real>)
    requires Ordenada(a) && Ordenada(b) && multiset(a) == multiset(b) && |a| > 0
    ensures |b| > 0 && a[0] == b[0]
    ensures Ordenada(a[1..]) && Ordenada(b[1..]) && multiset(a[1..]) == multiset(b[1..])
  {
    assert |b| == |multiset(b)| == |multiset(a)| == |a|;
    assert a[0] in multiset(a) && b[0] in multiset(b);
    PrimeiroEMinimo(a, b[0]);
    PrimeiroEMinimo(b, a[0]);
    SemOPrimeiro(a);
    SemOPrimeiro(b);
  }

  /** Dropping the head of an ordered sequence removes one copy of it and
      keeps the rest ordered. */
  lemma SemOPrimeiro(a: seq<real>)
    requires Ordenada(a) && |a| > 0
    ensures Ordenada(a[1..]) && multiset(a[1..]) == multiset(a) - multiset{a[0]}
  {
    assert a == [a[0]] + a[1..];
    assert multiset(a) == multiset{a[0]} + multiset(a[1..]);
  }

  /** `sorted` depends only on the elements, not on their order. */
  lemma OrdenarPermutacao(a: seq<real>, b: seq<real>)
    requires multiset(a) == multiset(b)
    ensures Ordenar(a) == Ordenar(b)
  {
    OrdenadasIguais(Ordenar(a), Ordenar(b));
  }
}
