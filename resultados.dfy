// Outcomes shared by every module: optional values, the exceptions the
// Python code raises (as `Erro`), and the `Result` they travel in.

module Resultados {

  datatype Option<T> = None | Some(value: T)

  /** Why a `ValueError` with a message of the program's own was raised. */
  datatype Motivo =
    | DadosAusentes           // group without "dados" (normality pass of the selector)
    | SomaPostosAusente       // group 0 or 1 without "soma_postos" (Mann-Whitney dispatch)
    | TaxaConversaoAusente    // group 0 or 1 without "taxa_conversao" (chi-square dispatch)
    | TesteNaoImplementado    // selector chose a test the dispatch does not build
    | TamanhoShapiro          // Shapiro-Wilk needs between 3 and 5000 observations
    | TamanhoRoyston          // Royston's approximation refuses n > 5000
    | NormalidadeAusente      // group without "normal" (homoscedasticity scan)
    | MediaAusente            // group without "media" (Levene)
    | Variantes               // calculator: fewer than two variants
    | TipoMetrica             // calculator: unknown metric type
    | Sentido                 // calculator: unknown test direction
    | Correcao                // calculator: unknown multiple-comparison correction
    | DesvioPadraoAusente     // calculator: numeric metric without a standard deviation
    | BaselineAusente         // calculator: no baseline
    | ComprimentoProporcoes   // calculator: proportions of the wrong length
    | SomaProporcoes          // calculator: proportions that do not sum to 1

  /** The Python exceptions the modelled code can raise. */
  datatype Erro =
    | DivisaoPorZero          // ZeroDivisionError
    | DominioMatematico       // ValueError "math domain error" (log or sqrt outside its domain)
    | PopListaVazia           // IndexError from list.pop() on an empty list
    | IndiceForaDoIntervalo   // IndexError from a list subscript
    | ChaveAusente            // KeyError from a dict subscript
    | OperandoNone            // TypeError from arithmetic on None
    | VariavelNaoAtribuida    // UnboundLocalError
    | ValorInvalido(motivo: Motivo)

  datatype Result<T> = Ok(value: T) | Err(erro: Erro)
  {
    predicate IsFailure() { Err? }

    function PropagateFailure<U>(): Result<U>
      requires Err?
    {
      Err(erro)
    }

    function Extract(): T
      requires Ok?
    {
      value
    }
  }

  /** A step that either completes or raises. */
  datatype Outcome = Pass | Fail(erro: Erro)
  {
    predicate IsFailure() { Fail? }

    function PropagateFailure<U>(): Result<U>
      requires Fail?
    {
      Err(erro)
    }
  }
}
