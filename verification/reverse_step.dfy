/** One reverse-diffusion step (`Configs.p_sample`): from x_t, the network's
    noise estimate eps_theta and a standard-normal draw eps, the sample
    x_{t-1} = (x_t - eps_coef * eps_theta) / sqrt(alpha_t) + sqrt(sigma2_t) * eps,
    each batch row with its own timestep. */
module ReverseStep {

  import opened RealAlgebra
  import opened Tensors
  import opened Schedule

  /** eps_coef = (1 - alpha_t) / sqrt(1 - alpha_bar_t). */
  function EpsCoef(alpha: real, alphaBar: real, sqrt: real -> real): real
    requires sqrt(1.0 - alphaBar) != 0.0
  {
    (1.0 - alpha) / sqrt(1.0 - alphaBar)
  }

  /** One scalar of `mean + var ** .5 * eps`. Given the two noises, the
      step can be undone: x_t is recovered from its result. */
  function StepElement(x: real, epsTheta: real, eps: real, alpha: real, alphaBar: real, sigma2: real,
                       sqrt: real -> real): (y: real)
    requires sqrt(1.0 - alphaBar) != 0.0 && sqrt(alpha) != 0.0
    ensures x == sqrt(alpha) * (y - sqrt(sigma2) * eps) + EpsCoef(alpha, alphaBar, sqrt) * epsTheta
  {
    var mean := 1.0 / sqrt(alpha) * (x - EpsCoef(alpha, alphaBar, sqrt) * epsTheta);
    assert sqrt(alpha) * (1.0 / sqrt(alpha)) == 1.0;
    mean + sqrt(sigma2) * eps
  }

  /** The coefficients at timestep t can be gathered and divided by. */
  predicate StepDefined(c: Configs, t: int, sqrt: real -> real)
  {
    && 0 <= t
    && t < |c.alpha|
    && t < |c.alphaBar|
    && t < |c.sigma2|
    && sqrt(1.0 - c.alphaBar[t]) != 0.0
    && sqrt(c.alpha[t]) != 0.0
  }

  /** One batch row of the step, all of it at the same timestep. */
  function StepRow(x: seq<real>, epsTheta: seq<real>, eps: seq<real>,
                   alpha: real, alphaBar: real, sigma2: real, sqrt: real -> real): seq<real>
    requires |epsTheta| == |x| && |eps| == |x|
    requires sqrt(1.0 - alphaBar) != 0.0 && sqrt(alpha) != 0.0
  {
    seq(|x|, j requires 0 <= j < |x| =>
      StepElement(x[j], epsTheta[j], eps[j], alpha, alphaBar, sigma2, sqrt))
  }

  /** Every row's timestep indexes the schedule and gives non-zero divisors. */
  predicate TimestepsDefined(c: Configs, t: seq<int>, sqrt: real -> real)
  {
    forall b :: 0 <= b < |t| ==> StepDefined(c, t[b], sqrt)
  }

  /** `Configs.p_sample(xt, t, eps_theta)` with the normal draw `eps`
      passed in. Row b is computed with the coefficients gathered at t[b];
      the result keeps x_t's shape, and x_t can be recovered from it. */
  function PSample(c: Configs, xt: Tensor, t: seq<int>, epsTheta: Tensor, eps: Tensor,
                   sqrt: real -> real): (r: Tensor)
    requires WellShaped(xt) && WellShaped(epsTheta) && WellShaped(eps)
    requires epsTheta.shape == xt.shape && eps.shape == xt.shape
    requires |t| == xt.shape.batch
    requires TimestepsDefined(c, t, sqrt)
    ensures WellShaped(r) && r.shape == xt.shape
    ensures forall b, j :: 0 <= b < |t| && 0 <= j < RowSize(xt.shape) ==>
      StepDefined(c, t[b], sqrt) &&
      r.rows[b][j] == StepElement(xt.rows[b][j], epsTheta.rows[b][j], eps.rows[b][j],
                                  c.alpha[t[b]], c.alphaBar[t[b]], c.sigma2[t[b]], sqrt)
    ensures forall b, j :: 0 <= b < |t| && 0 <= j < RowSize(xt.shape) ==>
      StepDefined(c, t[b], sqrt) &&
      xt.rows[b][j] == sqrt(c.alpha[t[b]]) * (r.rows[b][j] - sqrt(c.sigma2[t[b]]) * eps.rows[b][j])
                       + EpsCoef(c.alpha[t[b]], c.alphaBar[t[b]], sqrt) * epsTheta.rows[b][j]
  {
    Tensor(xt.shape, seq(|t|, b requires 0 <= b < |t| =>
      assert StepDefined(c, t[b], sqrt);
      StepRow(xt.rows[b], epsTheta.rows[b], eps.rows[b],
              c.alpha[t[b]], c.alphaBar[t[b]], c.sigma2[t[b]], sqrt)))
  }

  /** DDPM's estimate of x_0 from x_t and a noise estimate:
      (x_t - sqrt(1 - alpha_bar_t) * eps) / sqrt(alpha_bar_t). */
  function PredictX0(x: real, epsTheta: real, alphaBar: real, sqrt: real -> real): real
    requires sqrt(alphaBar) != 0.0
  {
    (x - sqrt(1.0 - alphaBar) * epsTheta) / sqrt(alphaBar)
  }

  /** The square roots one step divides by, on a DDPM schedule:
      r = sqrt(alpha_t), sp = sqrt(alpha_bar_{t-1}) and q = sqrt(1 - alpha_bar_t)
      are positive, and sqrt(alpha_bar_t) = sp * r. */
  lemma StepRoots(b: real, a: real, abp: real, ab: real, sqrt: real -> real)
    requires IsSqrt(sqrt)
    requires StepSchedule(b, a, abp, ab)
    ensures 0.0 < ab < 1.0
    ensures 0.0 < sqrt(a) && sqrt(a) * sqrt(a) == a
    ensures 0.0 < sqrt(abp)
    ensures 0.0 < sqrt(1.0 - ab) && sqrt(1.0 - ab) * sqrt(1.0 - ab) == 1.0 - ab
    ensures sqrt(ab) == sqrt(abp) * sqrt(a)
  {
    ScaledBelow(abp, a);
    SqrtPositive(sqrt, a);
    SqrtPositive(sqrt, abp);
    SqrtPositive(sqrt, 1.0 - ab);
    SqrtProduct(sqrt, abp, a);
  }

  /** The step with beta_t written for 1 - alpha_t. */
  lemma UnfoldStep(x: real, e: real, n: real, b: real, a: real, ab: real, sqrt: real -> real)
    requires sqrt(1.0 - ab) != 0.0 && sqrt(a) != 0.0 && a == 1.0 - b
    ensures StepElement(x, e, n, a, ab, b, sqrt)
         == 1.0 / sqrt(a) * (x - b / sqrt(1.0 - ab) * e) + sqrt(b) * n
  {
    assert EpsCoef(a, ab, sqrt) == b / sqrt(1.0 - ab);
  }

  /** The x_0 term of the posterior mean with sqrt(alpha_bar_t) split. */
  lemma UnfoldFirst(x: real, e: real, b: real, a: real, abp: real, ab: real, sqrt: real -> real)
    requires ab != 1.0 && sqrt(ab) == sqrt(abp) * sqrt(a) && sqrt(ab) != 0.0
    ensures MuTildeCoef1Of(b, abp, ab, sqrt) * PredictX0(x, e, ab, sqrt)
         == b * sqrt(abp) / (1.0 - ab) * ((x - sqrt(1.0 - ab) * e) / (sqrt(abp) * sqrt(a)))
  {
    DivByEqual(x - sqrt(1.0 - ab) * e, sqrt(ab), sqrt(abp) * sqrt(a));
  }

  /** The x_t term of the posterior mean. */
  lemma UnfoldSecond(x: real, a: real, abp: real, ab: real, sqrt: real -> real)
    requires ab != 1.0
    ensures MuTildeCoef2Of(a, abp, ab, sqrt) * x == sqrt(a) * (1.0 - abp) / (1.0 - ab) * x
  {
  }

  /** The posterior-mean identity once the roots are named. */
  lemma NamedRootsPosteriorMean(b: real, a: real, abp: real, ab: real, sqrt: real -> real,
                                x: real, epsTheta: real, eps: real)
    requires a == 1.0 - b && ab == abp * a && ab < 1.0
    requires 0.0 < sqrt(a) && sqrt(a) * sqrt(a) == a
    requires 0.0 < sqrt(abp)
    requires 0.0 < sqrt(1.0 - ab) && sqrt(1.0 - ab) * sqrt(1.0 - ab) == 1.0 - ab
    requires sqrt(ab) == sqrt(abp) * sqrt(a) && sqrt(ab) != 0.0
    ensures StepElement(x, epsTheta, eps, a, ab, b, sqrt)
         == MuTildeCoef1Of(b, abp, ab, sqrt) * PredictX0(x, epsTheta, ab, sqrt)
            + MuTildeCoef2Of(a, abp, ab, sqrt) * x + sqrt(b) * eps
  {
    PosteriorMeanAlgebra(b, a, abp, ab, sqrt(a), sqrt(abp), sqrt(1.0 - ab), x, epsTheta);
    UnfoldStep(x, epsTheta, eps, b, a, ab, sqrt);
    UnfoldFirst(x, epsTheta, b, a, abp, ab, sqrt);
    UnfoldSecond(x, a, abp, ab, sqrt);
  }

  /** The noise-prediction mean of one step equals the posterior mean
      mu_tilde = coef1 * x0_hat + coef2 * x_t built from the coefficients of
      the schedule, on scalars. */
  lemma ScalarPosteriorMean(b: real, a: real, abp: real, ab: real, sigma2: real, sqrt: real -> real,
                            x: real, epsTheta: real, eps: real)
    requires IsSqrt(sqrt)
    requires StepSchedule(b, a, abp, ab) && sigma2 == b
    ensures 0.0 < ab < 1.0
    ensures sqrt(1.0 - ab) != 0.0 && sqrt(a) != 0.0 && sqrt(ab) != 0.0
    ensures PosteriorMeanPlusNoise(StepElement(x, epsTheta, eps, a, ab, sigma2, sqrt),
                                   MuTildeCoef1Of(b, abp, ab, sqrt), PredictX0(x, epsTheta, ab, sqrt),
                                   MuTildeCoef2Of(a, abp, ab, sqrt), x, sigma2, eps, sqrt)
  {
    StepRoots(b, a, abp, ab, sqrt);
    assert 0.0 < sqrt(abp) * sqrt(a);
    NamedRootsPosteriorMean(b, a, abp, ab, sqrt, x, epsTheta, eps);
  }

  /** For a session built by `Configs.__init__` on a DDPM schedule, the
      noise-prediction step at every timestep is the posterior mean plus
      sqrt(beta_t)-scaled noise (sigma2 = beta, not the posterior's own
      variance beta_tilde): mu_tilde_coef1[t] * x0_hat + mu_tilde_coef2[t] * x_t
      + sqrt(sigma2[t]) * eps. */
  lemma StepIsPosteriorMeanPlusNoise(c: Configs, sqrt: real -> real, t: nat, x: real, epsTheta: real, eps: real)
    requires IsSqrt(sqrt)
    requires Derived(c, sqrt)
    requires ValidSchedule(c.beta, c.alpha, c.alphaBar)
    requires t < c.nSteps
    ensures StepDefined(c, t, sqrt) && sqrt(c.alphaBar[t]) != 0.0
    ensures PosteriorMeanPlusNoise(StepElement(x, epsTheta, eps, c.alpha[t], c.alphaBar[t], c.sigma2[t], sqrt),
                                   c.muTildeCoef1[t], PredictX0(x, epsTheta, c.alphaBar[t], sqrt),
                                   c.muTildeCoef2[t], x, c.sigma2[t], eps, sqrt)
  {
    CoefficientsAt(c, sqrt, t);
    ShiftedFacts(c.beta, c.alpha, c.alphaBar, t);
    assert c.sigma2[t] == c.beta[t];
    ScalarPosteriorMean(c.beta[t], c.alpha[t], ShiftPrev(c.alphaBar)[t], c.alphaBar[t], c.sigma2[t],
                        sqrt, x, epsTheta, eps);
  }

  /** Two noise draws that differ give two different results. */
  lemma ScalarNoiseMatters(b: real, a: real, abp: real, ab: real, sigma2: real, sqrt: real -> real,
                           x: real, epsTheta: real, eps1: real, eps2: real)
    requires IsSqrt(sqrt)
    requires StepSchedule(b, a, abp, ab) && sigma2 == b
    requires eps1 != eps2
    ensures sqrt(1.0 - ab) != 0.0 && sqrt(a) != 0.0
    ensures StepElement(x, epsTheta, eps1, a, ab, sigma2, sqrt) != StepElement(x, epsTheta, eps2, a, ab, sigma2, sqrt)
  {
    StepRoots(b, a, abp, ab, sqrt);
    SqrtPositive(sqrt, sigma2);
    assert sqrt(sigma2) * eps1 != sqrt(sigma2) * eps2 by {
      if sqrt(sigma2) * eps1 == sqrt(sigma2) * eps2 {
        assert false;
      }
    }
  }

  /** `p_sample` has no special case for the last step: at every timestep,
      t = 0 included, the result still depends on the noise draw, since
      sigma2_t = beta_t > 0. */
  lemma StepAlwaysNoisy(c: Configs, sqrt: real -> real, t: nat, x: real, epsTheta: real, eps1: real, eps2: real)
    requires IsSqrt(sqrt)
    requires Derived(c, sqrt)
    requires ValidSchedule(c.beta, c.alpha, c.alphaBar)
    requires t < c.nSteps
    requires eps1 != eps2
    ensures StepDefined(c, t, sqrt)
    ensures StepElement(x, epsTheta, eps1, c.alpha[t], c.alphaBar[t], c.sigma2[t], sqrt)
         != StepElement(x, epsTheta, eps2, c.alpha[t], c.alphaBar[t], c.sigma2[t], sqrt)
  {
    ShiftedFacts(c.beta, c.alpha, c.alphaBar, t);
    assert c.sigma2[t] == c.beta[t];
    ScalarNoiseMatters(c.beta[t], c.alpha[t], ShiftPrev(c.alphaBar)[t], c.alphaBar[t], c.sigma2[t],
                       sqrt, x, epsTheta, eps1, eps2);
  }

  /** y is the DDPM posterior mean coef1 * x0 + coef2 * x_t plus
      sqrt(sigma2) times the noise. With sigma2 = beta_t (DDPM's
      sigma_t^2 = beta_t choice) this is not a draw from the posterior
      q(x_{t-1} | x_t, x_0) itself, whose variance is beta_tilde_t < beta_t. */
  predicate PosteriorMeanPlusNoise(y: real, coef1: real, x0: real, coef2: real, x: real,
                                   sigma2: real, eps: real, sqrt: real -> real)
  {
    y == coef1 * x0 + coef2 * x + sqrt(sigma2) * eps
  }
}
