/** Characters to estimated tokens, at the density calibrated for a model family. */
module Estimator {

  const DEFAULT_DENSITY: real := 0.50

  datatype TokenEstimator = TokenEstimator(density: real) {

    /** Rounded up; a non-positive density is the zero value and means the default. */
    function Tokens(characters: int): (tokens: int)
      ensures characters <= 0 ==> tokens == 0
      ensures characters > 0 ==>
                tokens as real - 1.0 < characters as real * Effective() <= tokens as real
    {
      if characters <= 0 then 0 else Ceiling(characters as real * Effective())
    }

    function Effective(): real {
      if density <= 0.0 then DEFAULT_DENSITY else density
    }
  }

  function Ceiling(x: real): int {
    -((-x).Floor)
  }

  /** The first family whose prefix the model's name carries. */
  function EstimatorFor(model: string): TokenEstimator {
    if "claude-opus" <= model then TokenEstimator(0.50)
    else if "claude-sonnet" <= model then TokenEstimator(0.40)
    else if "claude-haiku" <= model then TokenEstimator(0.43)
    else TokenEstimator(DEFAULT_DENSITY)
  }

  /** The estimate never falls when text is added: a longer request is never predicted to be
      cheaper. */
  lemma TokensMonotone(est: TokenEstimator, a: int, b: int)
    requires a <= b
    ensures 0 <= est.Tokens(a) <= est.Tokens(b)
  {
    if 0 < a {
      assert a as real * est.Effective() <= b as real * est.Effective();
    }
  }
}
