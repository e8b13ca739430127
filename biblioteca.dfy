// The library functions the Python code calls (module `math`, `scipy.stats`
// and the densities built on `math.lgamma`). Their numerical values are not
// modelled: each is an arbitrary function that the callers receive bundled in
// a `Primitivas` value, and the only facts known about them are the sign
// facts carried by the subset types below.

module Biblioteca {

  /** `math.sqrt`. The one fact every caller relies on is that sqrt(2) is
      positive (the normal CDFs divide by it); the rest is `RaizCoerente`. */
  type Raiz = f: real -> real | f(2.0) > 0.0
    witness (x: real) => 1.0

  /** The F density of anova.py for x > 0, as a function of (x, d1, d2); non-negative. */
  type DensidadeDeF = f: (real, real, real) -> real | forall x: real, d1: real, d2: real :: f(x, d1, d2) >= 0.0
    witness (x: real, d1: real, d2: real) => 0.0

  /** The chi-square density of qui.py for x > 0, as a function of (x, k); non-negative. */
  type DensidadeDeQui = f: (real, real) -> real | forall x: real, k: real :: f(x, k) >= 0.0
    witness (x: real, k: real) => 0.0

  datatype Primitivas = Primitivas(
    sqrt: Raiz,                   // math.sqrt (callers check the domain x >= 0 themselves)
    log: real -> real,            // math.log (callers check the domain x > 0 themselves)
    exp: real -> real,            // math.exp
    cos: real -> real,            // math.cos
    sin: real -> real,            // math.sin
    pi: real,                     // math.pi
    erf: real -> real,            // math.erf
    densidadeF: DensidadeDeF,     // pdf_f of anova.py for x > 0
    densidadeQui: DensidadeDeQui, // pdf_qui_quadrado of qui.py for x > 0
    ppf: real -> real,            // scipy.stats.norm.ppf
    pow: (real, real) -> real     // x ** y with a fractional exponent
  )

  /** What is known of `math.sqrt`: zero at zero and positive on positive
      arguments. Only the members that need it ask for it. */
  ghost predicate RaizCoerente(p: Primitivas)
  {
    p.sqrt(0.0) == 0.0 && forall x: real :: x > 0.0 ==> p.sqrt(x) > 0.0
  }

  /** What is known of `math.exp`: positive everywhere. */
  ghost predicate ExpCoerente(p: Primitivas)
  {
    forall x: real :: p.exp(x) > 0.0
  }

  /** `abs` on floats. */
  function Abs(x: real): (r: real)
    ensures r >= 0.0 && (r == x || r == -x)
  {
    if x < 0.0 then -x else x
  }

  /** `math.ceil`: the least integer not below `x`. */
  function Teto(x: real): (r: int)
    ensures r as real >= x && (r - 1) as real < x
  {
    -((-x).Floor)
  }
}
