// The test selector of estatistica/motor_estatistico.py (class
// MotorEstatistico): the construction pass that writes a normality flag
// into every caller-owned group, the decision table that names a test, and
// the dispatch that builds and runs the named test. The homoscedasticity
// verdict enters as a parameter (see README).

module Motor {
  import opened Resultados
  import opened Biblioteca
  import N = Normalidade
  import TesteZ
  import TesteT
  import MannWhitney
  import Anova
  import Qui
  import Somas

  /** One group dictionary: the keys every group has, the optional ones as
      `Option`, and the "normal" key the construction pass adds. */
  datatype Grupo = Grupo(
    media: real,
    tamanho: int,
    desvioPadrao: real,
    dados: Option<seq<real>>,
    somaPostos: Option<real>,
    taxaConversao: Option<real>,
    normal: Option<bool>)

  /** The alpha ensemble_normalidade uses when called without one. */
  const AlphaNormalidade: real := 0.05

  // ---------------------------------------------------------------------
  // _verificar_normalidade

  /** The flag one group receives: "dados" must be present, then a
      TesteNormalidade is built (drawing its sample from the random stream
      at `pos`) and its ensemble decides. */
  function VereditoGrupo(p: Primitivas, g: Grupo, fluxo: nat -> real, pos: nat): Result<bool>
  {
    if g.dados.None? then Err(ValorInvalido(DadosAusentes))
    else
      var dados :- N.Amostra(p, g.media, g.desvioPadrao, g.tamanho, fluxo, pos);
      var e :- N.Ensemble(p, N.TesteNormalidade(g.media, g.desvioPadrao, g.tamanho, dados), AlphaNormalidade);
      Ok(e.normal)
  }

  /** The verdict of every group, as a function of the group and of the
      position in the random stream. */
  function VereditoDe(p: Primitivas, fluxo: nat -> real): (Grupo, nat) -> Result<bool>
  {
    (g: Grupo, pos: nat) => VereditoGrupo(p, g, fluxo, pos)
  }

  /** `veredito` gives every group the verdict VereditoGrupo gives it. */
  ghost predicate VereditoFiel(veredito: (Grupo, nat) -> Result<bool>, p: Primitivas, fluxo: nat -> real)
  {
    forall g: Grupo, pos: nat {:trigger VereditoGrupo(p, g, fluxo, pos)} :: veredito(g, pos) == VereditoGrupo(p, g, fluxo, pos)
  }

  /** The groups after the pass and the exception that stopped it, if any. */
  datatype Verificacao = Verificacao(grupos: seq<Grupo>, erro: Option<Erro>)

  /** The pass over gs[k..] with the verdicts `veredito`, starting at
      position `pos` of the random stream: each group in turn is flagged, and
      the first exception leaves it and every later group untouched. */
  function NormalizarDesde(veredito: (Grupo, nat) -> Result<bool>, gs: seq<Grupo>, k: nat, pos: nat): Verificacao
    requires k <= |gs|
    decreases |gs| - k
  {
    if k == |gs| then Verificacao([], None)
    else match veredito(gs[k], pos)
      case Err(e) => Verificacao(gs[k..], Some(e))
      case Ok(b) =>
        var resto := NormalizarDesde(veredito, gs, k + 1, pos + N.Sorteios(gs[k].tamanho));
        Verificacao([gs[k].(normal := Some(b))] + resto.grupos, resto.erro)
  }

  /** The whole pass. */
  function Normalizar(veredito: (Grupo, nat) -> Result<bool>, gs: seq<Grupo>, pos: nat): Verificacao
  {
    NormalizarDesde(veredito, gs, 0, pos)
  }

  /** The groups before position i already processed, the pass continuing
      from i. */
  function Prefixar(feitos: seq<Grupo>, v: Verificacao): Verificacao
  {
    Verificacao(feitos + v.grupos, v.erro)
  }

  /** The list facts one turn of the loop needs: position i of `atual`
      replaced by x, with everything from i on still as in `inicial`. */
  lemma Substituir<T>(atual: seq<T>, inicial: seq<T>, i: nat, x: T)
    requires i < |atual| == |inicial| && atual[i..] == inicial[i..]
    ensures inicial[i] == atual[i]
    ensures atual[i := x][..i + 1] == atual[..i] + [x]
    ensures atual[i := x][i + 1..] == inicial[i + 1..]
    ensures atual == atual[..i] + inicial[i..]
  {
    assert inicial[i] == atual[i..][0];
    assert atual[i + 1..] == atual[i..][1..];
  }

  /** One step of the loop: `atual` is the list before group i is flagged,
      `inicial` the list before the pass; a verdict b flags group i and the
      pass goes on after the random numbers its sample used. */
  lemma Avancar(veredito: (Grupo, nat) -> Result<bool>, inicial: seq<Grupo>, alvo: Verificacao, atual: seq<Grupo>, i: nat, posicao: nat, b: bool)
    requires i < |atual| == |inicial| && atual[i..] == inicial[i..]
    requires alvo == Prefixar(atual[..i], NormalizarDesde(veredito, inicial, i, posicao))
    requires veredito(atual[i], posicao) == Ok(b)
    ensures var depois := atual[i := atual[i].(normal := Some(b))];
      && depois[i + 1..] == inicial[i + 1..]
      && alvo
         == Prefixar(depois[..i + 1], NormalizarDesde(veredito, inicial, i + 1, posicao + N.Sorteios(atual[i].tamanho)))
  {
    var marcado := atual[i].(normal := Some(b));
    Substituir(atual, inicial, i, marcado);
    var v := NormalizarDesde(veredito, inicial, i + 1, posicao + N.Sorteios(atual[i].tamanho));
    assert NormalizarDesde(veredito, inicial, i, posicao) == Prefixar([marcado], v);
    assert atual[..i] + ([marcado] + v.grupos) == atual[..i] + [marcado] + v.grupos;
  }

  /** The step that raises stops the loop with the list as it was. */
  lemma Parar(veredito: (Grupo, nat) -> Result<bool>, inicial: seq<Grupo>, alvo: Verificacao, atual: seq<Grupo>, i: nat, posicao: nat, e: Erro)
    requires i < |atual| == |inicial| && atual[i..] == inicial[i..]
    requires alvo == Prefixar(atual[..i], NormalizarDesde(veredito, inicial, i, posicao))
    requires veredito(atual[i], posicao) == Err(e)
    ensures alvo == Verificacao(atual, Some(e))
  {
    Substituir(atual, inicial, i, atual[i]);
    assert NormalizarDesde(veredito, inicial, i, posicao) == Verificacao(inicial[i..], Some(e));
  }

  /** The selector's object: the caller's list of groups and its length. */
  class MotorEstatistico {
    const grupos: array<Grupo>
    const numGrupos: int

    /** __init__ before the normality pass. */
    constructor (grupos: array<Grupo>)
      ensures this.grupos == grupos && numGrupos == grupos.Length
    {
      this.grupos := grupos;
      numGrupos := grupos.Length;
    }

    /** _verificar_normalidade: writes grupo["normal"] into each group in
        turn; an exception leaves the groups processed so far flagged. */
    method VerificarNormalidade(p: Primitivas, fluxo: nat -> real, pos: nat, ghost veredito: (Grupo, nat) -> Result<bool>)
      returns (erro: Option<Erro>)
      requires VereditoFiel(veredito, p, fluxo)
      modifies grupos
      ensures Verificacao(grupos[..], erro) == Normalizar(veredito, old(grupos[..]), pos)
    {
      ghost var inicial := grupos[..];
      ghost var alvo := Normalizar(veredito, inicial, pos);
      var posicao: nat := pos;
      var i := 0;
      assert Prefixar([], Normalizar(veredito, inicial, pos)) == Normalizar(veredito, inicial, pos);
      while i < grupos.Length
        invariant 0 <= i <= grupos.Length == |inicial|
        invariant grupos[..][i..] == inicial[i..]
        invariant alvo == Prefixar(grupos[..][..i], NormalizarDesde(veredito, inicial, i, posicao))
      {
        var proxima: nat;
        erro, proxima := PassoDoLaco(p, fluxo, posicao, i, veredito, inicial, alvo);
        if erro.Some? {
          return;
        }
        posicao := proxima;
        i := i + 1;
      }
      assert grupos[..][..i] == grupos[..];
      erro := None;
    }

    /** One turn of the loop: group i is flagged (or raises) and the pass
        continues at the next group and the next free random number. */
    method PassoDoLaco(p: Primitivas, fluxo: nat -> real, posicao: nat, i: int, ghost veredito: (Grupo, nat) -> Result<bool>,
                       ghost inicial: seq<Grupo>, ghost alvo: Verificacao)
      returns (erro: Option<Erro>, proxima: nat)
      requires 0 <= i < grupos.Length == |inicial| && VereditoFiel(veredito, p, fluxo)
      requires grupos[..][i..] == inicial[i..]
      requires alvo == Prefixar(grupos[..][..i], NormalizarDesde(veredito, inicial, i, posicao))
      modifies grupos
      ensures erro.Some? ==> alvo == Verificacao(grupos[..], erro)
      ensures erro.None? ==> grupos[..][i + 1..] == inicial[i + 1..]
      ensures erro.None? ==> alvo == Prefixar(grupos[..][..i + 1], NormalizarDesde(veredito, inicial, i + 1, proxima))
    {
      ghost var atual := grupos[..];
      proxima := posicao + N.Sorteios(grupos[i].tamanho);
      erro := MarcarGrupo(p, fluxo, posicao, i, veredito);
      ghost var v := veredito(atual[i], posicao);
      if erro.Some? {
        assert v == Err(erro.value) && grupos[..] == atual;
        Parar(veredito, inicial, alvo, atual, i, posicao, erro.value);
        return;
      }
      assert grupos[..] == atual[i := atual[i].(normal := Some(v.value))];
      Avancar(veredito, inicial, alvo, atual, i, posicao, v.value);
    }

    /** The body of the loop for group i: build a TesteNormalidade from the
        random stream at `posicao`, run its ensemble and store the verdict in
        grupo["normal"]; an exception changes nothing. */
    method MarcarGrupo(p: Primitivas, fluxo: nat -> real, posicao: nat, i: int, ghost veredito: (Grupo, nat) -> Result<bool>)
      returns (erro: Option<Erro>)
      requires 0 <= i < grupos.Length && VereditoFiel(veredito, p, fluxo)
      modifies grupos
      ensures var v := veredito(old(grupos[i]), posicao);
        && (v.Err? <==> erro.Some?)
        && (v.Err? ==> erro.value == v.erro && grupos[..] == old(grupos[..]))
        && (v.Ok? ==> grupos[..] == old(grupos[..])[i := old(grupos[i]).(normal := Some(v.value))])
    {
      var g := grupos[i];
      assert veredito(g, posicao) == VereditoGrupo(p, g, fluxo, posicao);
      if g.dados.None? {
        return Some(ValorInvalido(DadosAusentes));
      }
      var t := N.CriarTesteNormalidade(p, g.media, g.desvioPadrao, g.tamanho, fluxo, posicao);
      if t.Err? {
        return Some(t.erro);
      }
      var e := N.Ensemble(p, t.value, AlphaNormalidade);
      if e.Err? {
        return Some(e.erro);
      }
      grupos[i] := g.(normal := Some(e.value.normal));
      erro := None;
    }

    /** _escolher_teste. */
    function EscolherTeste(homocedastico: bool): Result<Escolha>
      reads this, grupos
    {
      Escolher(grupos[..], homocedastico)
    }

    /** realizar_teste. */
    function RealizarTeste(p: Primitivas, homocedastico: bool, alpha: real): Result<ResultadoMotor>
      reads this, grupos
    {
      Realizar(p, grupos[..], homocedastico, alpha)
    }
  }

  /** Building the selector: __init__ runs the normality pass, and its
      exception, if any, is the constructor's. */
  method CriarMotor(p: Primitivas, grupos: array<Grupo>, fluxo: nat -> real, pos: nat)
    returns (r: Result<MotorEstatistico>)
    modifies grupos
    ensures Verificacao(grupos[..], if r.Err? then Some(r.erro) else None) == Normalizar(VereditoDe(p, fluxo), old(grupos[..]), pos)
    ensures r.Ok? ==> r.value.grupos == grupos && r.value.numGrupos == grupos.Length
  {
    var m := new MotorEstatistico(grupos);
    var erro := m.VerificarNormalidade(p, fluxo, pos, VereditoDe(p, fluxo));
    if erro.Some? {
      return Err(erro.value);
    }
    r := Ok(m);
  }

  // ---------------------------------------------------------------------
  // _escolher_teste

  /** The nine names the decision table can produce, and the chi-square
      name the dispatch also knows. */
  datatype Escolha =
    | EscolhaZ                 // "Teste Z"
    | EscolhaT                 // "Teste T"
    | EscolhaWilcoxon          // "Teste de Wilcoxon"
    | EscolhaTDuasAmostras     // "Teste T para duas amostras"
    | EscolhaTWelch            // "Teste T de Welch"
    | EscolhaMannWhitney       // "Teste de Mann-Whitney"
    | EscolhaAnova             // "ANOVA"
    | EscolhaAnovaWelch        // "ANOVA de Welch"
    | EscolhaKruskalWallis     // "Teste de Kruskal-Wallis"
    | EscolhaQuiQuadrado       // "Teste Qui-Quadrado"

  /** all(grupo["normal"] for grupo in grupos): stops at the first false
      flag, and a missing key before it raises KeyError. */
  function TodosNormais(gs: seq<Grupo>): Result<bool>
  {
    if |gs| == 0 then Ok(true)
    else match gs[0].normal
      case None => Err(ChaveAusente)
      case Some(false) => Ok(false)
      case Some(true) => TodosNormais(gs[1..])
  }

  /** The if/elif table over the group count and the two flags. */
  function Decisao(gs: seq<Grupo>, todosNormais: bool, homocedastico: bool): Escolha
  {
    if |gs| == 1 then
      if todosNormais then (if gs[0].tamanho > 30 then EscolhaZ else EscolhaT)
      else EscolhaWilcoxon
    else if |gs| == 2 then
      if todosNormais then (if homocedastico then EscolhaTDuasAmostras else EscolhaTWelch)
      else EscolhaMannWhitney
    else
      if todosNormais then (if homocedastico then EscolhaAnova else EscolhaAnovaWelch)
      else EscolhaKruskalWallis
  }

  function Escolher(gs: seq<Grupo>, homocedastico: bool): Result<Escolha>
  {
    var todos :- TodosNormais(gs);
    Ok(Decisao(gs, todos, homocedastico))
  }

  // ---------------------------------------------------------------------
  // realizar_teste

  /** What the dispatched test returns. */
  datatype ResultadoMotor =
    | ResultadoDeZ(z: TesteZ.ResultadoZ)
    | ResultadoDeT(t: TesteZ.ResultadoZ)
    | ResultadoDeMannWhitney(mw: MannWhitney.ResultadoMannWhitney)
    | ResultadoDeAnova(anova: Anova.ResultadoAnova)
    | ResultadoDeWelch(welch: Anova.ResultadoWelch)
    | ResultadoDeQui(qui: Qui.ResultadoQui)

  function ParaAnova(g: Grupo): Anova.GrupoAnova
  {
    Anova.GrupoAnova(g.media, g.tamanho, g.desvioPadrao)
  }

  /** The taxa_conversao of every group, or the KeyError of the first that
      has none. */
  function Taxas(gs: seq<Grupo>): (r: Result<seq<real>>)
    ensures r.Ok? ==> |r.value| == |gs| && forall i :: 0 <= i < |gs| ==> gs[i].taxaConversao == Some(r.value[i])
    ensures r.Err? <==> exists i :: 0 <= i < |gs| && gs[i].taxaConversao.None?
  {
    if |gs| == 0 then Ok([])
    else if gs[0].taxaConversao.None? then Err(ChaveAusente)
    else
      var resto :- Taxas(gs[1..]);
      assert forall i :: 1 <= i < |gs| ==> gs[i] == gs[1..][i - 1];
      Ok([gs[0].taxaConversao.value] + resto)
  }

  /** The "tamanho" of every group. */
  function Tamanhos(gs: seq<Grupo>): seq<int>
  {
    seq(|gs|, i requires 0 <= i < |gs| => gs[i].tamanho)
  }

  /** The if/elif chain of realizar_teste for any name, with the exceptions
      in the order the Python code meets them: an index past the end of the
      list, a missing optional key, a `teste` never assigned, a name with no
      branch. */
  function Despachar(p: Primitivas, gs: seq<Grupo>, nome: Escolha, alpha: real): Result<ResultadoMotor>
  {
    match nome
    case EscolhaZ =>
      if |gs| == 0 then Err(IndiceForaDoIntervalo)
      else
        var r :- TesteZ.RealizarTesteZ(p, gs[0].media, gs[0].desvioPadrao, gs[0].tamanho, 0.0, alpha);
        Ok(ResultadoDeZ(r))
    case EscolhaT =>
      if |gs| == 0 then Err(IndiceForaDoIntervalo)
      else
        var r :- TesteT.RealizarTesteT(p, gs[0].media, gs[0].desvioPadrao, gs[0].tamanho, 0.0, alpha);
        Ok(ResultadoDeT(r))
    case EscolhaTDuasAmostras => Err(VariavelNaoAtribuida)
    case EscolhaTWelch => Err(VariavelNaoAtribuida)
    case EscolhaMannWhitney =>
      if |gs| == 0 then Err(IndiceForaDoIntervalo)
      else if gs[0].somaPostos.None? then Err(ValorInvalido(SomaPostosAusente))
      else if |gs| == 1 then Err(IndiceForaDoIntervalo)
      else if gs[1].somaPostos.None? then Err(ValorInvalido(SomaPostosAusente))
      else
        var a := MannWhitney.Amostras(gs[0].tamanho, gs[1].tamanho, gs[0].somaPostos.value, gs[1].somaPostos.value);
        var r :- MannWhitney.RealizarTesteMannWhitney(p, a, alpha);
        Ok(ResultadoDeMannWhitney(r))
    case EscolhaAnova =>
      if |gs| < 2 then Err(IndiceForaDoIntervalo)
      else
        var r :- Anova.ResultadoAnovaEsperado(p, [ParaAnova(gs[0]), ParaAnova(gs[1])], alpha);
        Ok(ResultadoDeAnova(r))
    case EscolhaAnovaWelch =>
      if |gs| < 2 then Err(IndiceForaDoIntervalo)
      else
        var r :- Anova.ResultadoWelchEsperado(p, [ParaAnova(gs[0]), ParaAnova(gs[1])], alpha);
        Ok(ResultadoDeWelch(r))
    case EscolhaQuiQuadrado =>
      if |gs| == 0 then Err(IndiceForaDoIntervalo)
      else if gs[0].taxaConversao.None? then Err(ValorInvalido(TaxaConversaoAusente))
      else if |gs| == 1 then Err(IndiceForaDoIntervalo)
      else if gs[1].taxaConversao.None? then Err(ValorInvalido(TaxaConversaoAusente))
      else
        var taxas :- Taxas(gs);
        var r :- Qui.ResultadoQuiEsperado(p, taxas, Tamanhos(gs), alpha);
        Ok(ResultadoDeQui(r))
    case EscolhaWilcoxon => Err(ValorInvalido(TesteNaoImplementado))
    case EscolhaKruskalWallis => Err(ValorInvalido(TesteNaoImplementado))
  }

  /** realizar_teste: choose, then dispatch. */
  function Realizar(p: Primitivas, gs: seq<Grupo>, homocedastico: bool, alpha: real): Result<ResultadoMotor>
  {
    var nome :- Escolher(gs, homocedastico);
    Despachar(p, gs, nome, alpha)
  }

  // ---------------------------------------------------------------------
  // Properties of the normality pass

  /** The pass from position k touches nothing but the "normal" key, keeps
      the number of groups, and flags every group when no exception stops
      it. */
  lemma {:induction false} NormalizarDesdePreserva(veredito: (Grupo, nat) -> Result<bool>, gs: seq<Grupo>, k: nat, pos: nat)
    requires k <= |gs|
    ensures var r := NormalizarDesde(veredito, gs, k, pos);
      && |r.grupos| == |gs| - k
      && (forall j :: 0 <= j < |r.grupos| ==> r.grupos[j].(normal := gs[k + j].normal) == gs[k + j])
      && (r.erro.None? ==> forall j :: 0 <= j < |r.grupos| ==> r.grupos[j].normal.Some?)
    decreases |gs| - k
  {
    if k < |gs| && veredito(gs[k], pos).Ok? {
      var proxima := pos + N.Sorteios(gs[k].tamanho);
      NormalizarDesdePreserva(veredito, gs, k + 1, proxima);
      var resto := NormalizarDesde(veredito, gs, k + 1, proxima);
      var r := NormalizarDesde(veredito, gs, k, pos);
      assert r.grupos == [gs[k].(normal := Some(veredito(gs[k], pos).value))] + resto.grupos;
      forall j | 0 <= j < |r.grupos|
        ensures r.grupos[j].(normal := gs[k + j].normal) == gs[k + j]
        ensures r.erro.None? ==> r.grupos[j].normal.Some?
      {
        if j > 0 {
          assert r.grupos[j] == resto.grupos[j - 1];
          assert k + j == (k + 1) + (j - 1);
        }
      }
    }
  }

  /** The whole pass: the same groups in the same order with only "normal"
      rewritten, every one of them flagged when the pass completes. */
  lemma NormalizarPreserva(veredito: (Grupo, nat) -> Result<bool>, gs: seq<Grupo>, pos: nat)
    ensures var r := Normalizar(veredito, gs, pos);
      && |r.grupos| == |gs|
      && (forall i :: 0 <= i < |gs| ==> r.grupos[i].(normal := gs[i].normal) == gs[i])
      && (r.erro.None? ==> forall i :: 0 <= i < |gs| ==> r.grupos[i].normal.Some?)
  {
    NormalizarDesdePreserva(veredito, gs, 0, pos);
  }

  /** A group without "dados" from position k on makes the pass raise. */
  lemma {:induction false} SemDadosDesdeFalha(veredito: (Grupo, nat) -> Result<bool>, gs: seq<Grupo>, k: nat, pos: nat, i: int)
    requires k <= i < |gs| && gs[i].dados.None?
    requires forall g: Grupo, q: nat :: g.dados.None? ==> veredito(g, q).Err?
    ensures NormalizarDesde(veredito, gs, k, pos).erro.Some?
    decreases |gs| - k
  {
    if k < i && veredito(gs[k], pos).Ok? {
      SemDadosDesdeFalha(veredito, gs, k + 1, pos + N.Sorteios(gs[k].tamanho), i);
    }
  }

  /** __init__ raises ValueError whenever some group has no "dados" (this
      group or an earlier one raises first). */
  lemma SemDadosFalha(p: Primitivas, fluxo: nat -> real, gs: seq<Grupo>, pos: nat)
    requires exists i :: 0 <= i < |gs| && gs[i].dados.None?
    ensures Normalizar(VereditoDe(p, fluxo), gs, pos).erro.Some?
  {
    var i :| 0 <= i < |gs| && gs[i].dados.None?;
    forall g: Grupo, q: nat | g.dados.None? ensures VereditoDe(p, fluxo)(g, q).Err? {
      assert VereditoDe(p, fluxo)(g, q) == VereditoGrupo(p, g, fluxo, q);
    }
    SemDadosDesdeFalha(VereditoDe(p, fluxo), gs, 0, pos, i);
  }

  /** The first group decides alone when its "dados" is missing: the
      exception is that ValueError and no group is changed. */
  lemma PrimeiroSemDados(p: Primitivas, fluxo: nat -> real, gs: seq<Grupo>, pos: nat)
    requires |gs| > 0 && gs[0].dados.None?
    ensures Normalizar(VereditoDe(p, fluxo), gs, pos) == Verificacao(gs, Some(ValorInvalido(DadosAusentes)))
  {
    assert gs[0..] == gs;
  }

  // ---------------------------------------------------------------------
  // Properties of the decision

  /** Every group before position i is flagged normal. */
  predicate NormaisAte(gs: seq<Grupo>, i: int)
    requires 0 <= i <= |gs|
  {
    forall j :: 0 <= j < i ==> gs[j].normal == Some(true)
  }

  /** all() answers True iff every flag is true, False iff a false flag
      comes before any missing one, and raises KeyError iff a flag is
      missing before the first false one. */
  lemma {:induction false} TodosNormaisCaracterizado(gs: seq<Grupo>)
    ensures TodosNormais(gs) == Ok(true) <==> NormaisAte(gs, |gs|)
    ensures TodosNormais(gs).Err? <==> exists i :: 0 <= i < |gs| && gs[i].normal.None? && NormaisAte(gs, i)
    ensures TodosNormais(gs).Err? ==> TodosNormais(gs) == Err(ChaveAusente)
  {
    if |gs| > 0 && gs[0].normal == Some(true) {
      var cauda := gs[1..];
      TodosNormaisCaracterizado(cauda);
      assert NormaisAte(gs, |gs|) <==> NormaisAte(cauda, |cauda|) by {
        if NormaisAte(cauda, |cauda|) {
          forall j | 0 <= j < |gs| ensures gs[j].normal == Some(true) {
            if j > 0 { assert gs[j] == cauda[j - 1]; }
          }
        }
      }
      if TodosNormais(gs).Err? {
        var i :| 0 <= i < |cauda| && cauda[i].normal.None? && NormaisAte(cauda, i);
        assert gs[i + 1] == cauda[i];
        assert NormaisAte(gs, i + 1) by {
          forall j | 0 <= j < i + 1 ensures gs[j].normal == Some(true) {
            if j > 0 { assert gs[j] == cauda[j - 1]; }
          }
        }
      }
      if exists i :: 0 <= i < |gs| && gs[i].normal.None? && NormaisAte(gs, i) {
        var i :| 0 <= i < |gs| && gs[i].normal.None? && NormaisAte(gs, i);
        assert i > 0;
        assert cauda[i - 1] == gs[i];
        assert NormaisAte(cauda, i - 1) by {
          forall j | 0 <= j < i - 1 ensures cauda[j].normal == Some(true) {
            assert cauda[j] == gs[j + 1];
          }
        }
      }
    } else if |gs| > 0 && gs[0].normal.None? {
      assert NormaisAte(gs, 0);
    } else if |gs| > 0 {
      forall i | 0 <= i < |gs| && gs[i].normal.None? ensures !NormaisAte(gs, i) {
        assert i > 0 && gs[0].normal != Some(true);
      }
    }
  }

  /** After a pass that completes, all() cannot raise, so the decision
      always names a test. */
  lemma EscolhaAposVerificacao(veredito: (Grupo, nat) -> Result<bool>, gs: seq<Grupo>, pos: nat, homocedastico: bool)
    requires Normalizar(veredito, gs, pos).erro.None?
    ensures Escolher(Normalizar(veredito, gs, pos).grupos, homocedastico).Ok?
  {
    var r := Normalizar(veredito, gs, pos).grupos;
    NormalizarPreserva(veredito, gs, pos);
    TodosNormaisCaracterizado(r);
  }

  /** The tests for one sample, for two samples and for several samples. */
  predicate UmaAmostra(e: Escolha)
  {
    e == EscolhaZ || e == EscolhaT || e == EscolhaWilcoxon
  }

  predicate DuasAmostras(e: Escolha)
  {
    e == EscolhaTDuasAmostras || e == EscolhaTWelch || e == EscolhaMannWhitney
  }

  predicate VariasAmostras(e: Escolha)
  {
    e == EscolhaAnova || e == EscolhaAnovaWelch || e == EscolhaKruskalWallis
  }

  /** The tests that assume normal data. */
  predicate Parametrico(e: Escolha)
  {
    e == EscolhaZ || e == EscolhaT || e == EscolhaTDuasAmostras || e == EscolhaTWelch
      || e == EscolhaAnova || e == EscolhaAnovaWelch
  }

  /** The decision picks a test for as many samples as there are groups
      (an empty list counts as "several"), a parametric test exactly when
      every group is flagged normal, and never the chi-square test. */
  lemma EscolhaCoerente(gs: seq<Grupo>, homocedastico: bool)
    requires Escolher(gs, homocedastico).Ok?
    ensures var e := Escolher(gs, homocedastico).value;
      && (UmaAmostra(e) <==> |gs| == 1)
      && (DuasAmostras(e) <==> |gs| == 2)
      && (VariasAmostras(e) <==> |gs| != 1 && |gs| != 2)
      && (Parametrico(e) <==> NormaisAte(gs, |gs|))
      && e != EscolhaQuiQuadrado
  {
    TodosNormaisCaracterizado(gs);
  }

  /** Homoscedasticity only matters when every group is normal and there
      are at least two groups. */
  lemma HomocedasticidadeIrrelevante(gs: seq<Grupo>)
    requires |gs| == 1 || TodosNormais(gs) != Ok(true)
    ensures Escolher(gs, true) == Escolher(gs, false)
  {
  }

  /** With two or more groups all normal, the flag picks the variant: the
      pooled-variance test when homoscedastic, Welch's otherwise. */
  lemma EscolhaPorHomocedasticidade(gs: seq<Grupo>, homocedastico: bool)
    requires |gs| >= 2 && TodosNormais(gs) == Ok(true)
    ensures Escolher(gs, homocedastico) == Ok(
      if |gs| == 2 then (if homocedastico then EscolhaTDuasAmostras else EscolhaTWelch)
      else (if homocedastico then EscolhaAnova else EscolhaAnovaWelch))
  {
  }

  /** With one normal group the Z test is chosen above 30 observations and
      the T test up to 30. */
  lemma UmGrupoNormal(g: Grupo, homocedastico: bool)
    requires g.normal == Some(true)
    ensures Escolher([g], homocedastico) == Ok(if g.tamanho > 30 then EscolhaZ else EscolhaT)
  {
    assert [g][1..] == [];
    assert TodosNormais([g]) == TodosNormais([]) == Ok(true);
  }

  // ---------------------------------------------------------------------
  // Properties of realizar_teste

  /** An empty list passes all() and falls to the several-groups branch, and
      ANOVA then fails on grupos[0]. */
  lemma ListaVazia(p: Primitivas, homocedastico: bool, alpha: real)
    ensures Escolher([], homocedastico) == Ok(if homocedastico then EscolhaAnova else EscolhaAnovaWelch)
    ensures Realizar(p, [], homocedastico, alpha) == Err(IndiceForaDoIntervalo)
  {
  }

  /** Wilcoxon and Kruskal-Wallis have no branch: a non-normal group with one
      or three or more groups always ends in "not implemented". */
  lemma NaoNormalSemTeste(p: Primitivas, gs: seq<Grupo>, homocedastico: bool, alpha: real)
    requires TodosNormais(gs) == Ok(false) && |gs| != 2
    ensures Realizar(p, gs, homocedastico, alpha) == Err(ValorInvalido(TesteNaoImplementado))
  {
  }

  /** Two normal groups reach a branch that only passes, so `teste` is never
      assigned: realizar_teste always fails there. */
  lemma DuasNormaisFalham(p: Primitivas, gs: seq<Grupo>, homocedastico: bool, alpha: real)
    requires |gs| == 2 && TodosNormais(gs) == Ok(true)
    ensures Realizar(p, gs, homocedastico, alpha) == Err(VariavelNaoAtribuida)
  {
  }

  /** One normal group of at most 30 observations goes to the T test, which
      never completes. */
  lemma UmaNormalPequenaFalha(p: Primitivas, g: Grupo, homocedastico: bool, alpha: real)
    requires g.normal == Some(true) && g.tamanho <= 30
    ensures Realizar(p, [g], homocedastico, alpha).Err?
  {
    UmGrupoNormal(g, homocedastico);
    TesteT.TesteTNuncaConclui(p, g.media, g.desvioPadrao, g.tamanho, 0.0, alpha);
  }

  /** One normal group of more than 30 observations gets the Z test against
      a population mean of 0. */
  lemma UmaNormalGrande(p: Primitivas, g: Grupo, homocedastico: bool, alpha: real)
    requires g.normal == Some(true) && g.tamanho > 30
    ensures var z := TesteZ.RealizarTesteZ(p, g.media, g.desvioPadrao, g.tamanho, 0.0, alpha);
      Realizar(p, [g], homocedastico, alpha) == (if z.Ok? then Ok(ResultadoDeZ(z.value)) else Err(z.erro))
  {
    UmGrupoNormal(g, homocedastico);
  }

  /** Two groups, one not normal: Mann-Whitney needs both rank sums, and
      with positive sizes and a square root positive on positive numbers it
      completes. */
  lemma MannWhitneyEscolhido(p: Primitivas, gs: seq<Grupo>, homocedastico: bool, alpha: real)
    requires |gs| == 2 && TodosNormais(gs) == Ok(false)
    ensures gs[0].somaPostos.None? || gs[1].somaPostos.None?
      ==> Realizar(p, gs, homocedastico, alpha) == Err(ValorInvalido(SomaPostosAusente))
    ensures RaizCoerente(p) && gs[0].somaPostos.Some? && gs[1].somaPostos.Some?
        && gs[0].tamanho > 0 && gs[1].tamanho > 0
      ==> Realizar(p, gs, homocedastico, alpha).Ok? && Realizar(p, gs, homocedastico, alpha).value.ResultadoDeMannWhitney?
  {
    if RaizCoerente(p) && gs[0].somaPostos.Some? && gs[1].somaPostos.Some? && gs[0].tamanho > 0 && gs[1].tamanho > 0 {
      MannWhitney.ResultadoCaracterizado(p, MannWhitney.Amostras(gs[0].tamanho, gs[1].tamanho, gs[0].somaPostos.value, gs[1].somaPostos.value), alpha);
    }
  }

  /** ANOVA and Welch's ANOVA receive only the first two groups: with three
      or more normal groups, the groups from the third on (flagged normal)
      do not change the result. */
  lemma AnovaSoDoisGrupos(p: Primitivas, gs: seq<Grupo>, outros: seq<Grupo>, homocedastico: bool, alpha: real)
    requires |gs| >= 3 && |outros| >= 3 && gs[..2] == outros[..2]
    requires NormaisAte(gs, |gs|) && NormaisAte(outros, |outros|)
    ensures Realizar(p, gs, homocedastico, alpha) == Realizar(p, outros, homocedastico, alpha)
    ensures Realizar(p, gs, homocedastico, alpha).Ok? ==> Realizar(p, gs, homocedastico, alpha).value.ResultadoDeAnova? == homocedastico
  {
    TodosNormaisCaracterizado(gs);
    TodosNormaisCaracterizado(outros);
    assert gs[0] == gs[..2][0] && gs[1] == gs[..2][1];
    assert outros[0] == outros[..2][0] && outros[1] == outros[..2][1];
  }

  /** The chi-square branch, reachable only by name, uses the sizes and
      rates of every group, and any group without a rate makes it fail. */
  lemma QuiSemTaxaFalha(p: Primitivas, gs: seq<Grupo>, alpha: real)
    requires exists i :: 0 <= i < |gs| && gs[i].taxaConversao.None?
    ensures Despachar(p, gs, EscolhaQuiQuadrado, alpha).Err?
  {
  }

  /** The chi-square branch hands the test every group, in order: one
      (size, rate) pair per group, so the `zip` inside the test never drops
      one, and the outcome is the test's own. */
  lemma QuiRecebeTodosOsGrupos(p: Primitivas, gs: seq<Grupo>, alpha: real)
    requires |gs| >= 2 && forall i :: 0 <= i < |gs| ==> gs[i].taxaConversao.Some?
    ensures Taxas(gs).Ok?
    ensures var ps := Qui.ParesQui(Taxas(gs).value, Tamanhos(gs));
      |ps| == |gs| && forall i :: 0 <= i < |gs| ==> ps[i] == Somas.Par(gs[i].tamanho as real, gs[i].taxaConversao.value)
    ensures var r := Qui.ResultadoQuiEsperado(p, Taxas(gs).value, Tamanhos(gs), alpha);
      Despachar(p, gs, EscolhaQuiQuadrado, alpha) == if r.Ok? then Ok(ResultadoDeQui(r.value)) else Err(r.erro)
  {
  }
}
