/** The schedule coefficients a sampling session derives once at
    construction (`Configs.__init__`): the shifted cumulative product
    alpha_bar_{t-1}, the posterior variance beta_tilde, the posterior mean
    coefficients, and the sampling variance sigma^2 = beta. */
module Schedule {

  import opened RealAlgebra

  /** `cat([1], alpha_bar[:-1])`: a one in front, the last element dropped.
      For an empty schedule the slice is empty and only the one remains. */
  function ShiftPrev(alphaBar: seq<real>): (r: seq<real>)
    ensures |r| == if |alphaBar| == 0 then 1 else |alphaBar|
    ensures r[0] == 1.0
    ensures forall t :: 0 < t < |alphaBar| ==> r[t] == alphaBar[t - 1]
    ensures |alphaBar| > 0 ==> r[1..] + [alphaBar[|alphaBar| - 1]] == alphaBar
  {
    if |alphaBar| == 0 then [1.0] else [1.0] + alphaBar[..|alphaBar| - 1]
  }

  /** The state of a sampling session: image geometry, step count and the
      per-timestep coefficient sequences. */
  datatype Configs = Configs(
    imageChannels: nat,
    imageSizeH: nat,
    imageSizeW: nat,
    nSteps: nat,
    beta: seq<real>,
    alpha: seq<real>,
    alphaBar: seq<real>,
    betaTilde: seq<real>,
    muTildeCoef1: seq<real>,
    muTildeCoef2: seq<real>,
    sigma2: seq<real>)

  /** What the diffusion object hands over: three sequences of the
      configured length, with no divisor `1 - alpha_bar[t]` equal to zero
      (in floating point that would give an infinity). */
  predicate Derivable(nSteps: nat, beta: seq<real>, alpha: seq<real>, alphaBar: seq<real>)
  {
    && |beta| == nSteps
    && |alpha| == nSteps
    && |alphaBar| == nSteps
    && forall t :: 0 <= t < nSteps ==> alphaBar[t] != 1.0
  }

  /** beta_tilde_t from beta_t, alpha_bar_{t-1} and alpha_bar_t. */
  function BetaTildeOf(beta: real, alphaBarPrev: real, alphaBar: real): real
    requires alphaBar != 1.0
  {
    beta * (1.0 - alphaBarPrev) / (1.0 - alphaBar)
  }

  /** The coefficient of the predicted x_0 in the posterior mean. */
  function MuTildeCoef1Of(beta: real, alphaBarPrev: real, alphaBar: real, sqrt: real -> real): real
    requires alphaBar != 1.0
  {
    beta * sqrt(alphaBarPrev) / (1.0 - alphaBar)
  }

  /** The coefficient of x_t in the posterior mean. */
  function MuTildeCoef2Of(alpha: real, alphaBarPrev: real, alphaBar: real, sqrt: real -> real): real
    requires alphaBar != 1.0
  {
    sqrt(alpha) * (1.0 - alphaBarPrev) / (1.0 - alphaBar)
  }

  /** With alpha_bar_{t-1} = 1 (the first timestep) the posterior keeps no
      variance and gives x_t no weight. */
  lemma FirstStepCoefficients(beta: real, alpha: real, alphaBar: real, sqrt: real -> real)
    requires alphaBar != 1.0
    ensures BetaTildeOf(beta, 1.0, alphaBar) == 0.0
    ensures MuTildeCoef2Of(alpha, 1.0, alphaBar, sqrt) == 0.0
  {
  }

  /** `beta * (1 - alpha_bar_tm1) / (1 - alpha_bar)`, elementwise. */
  function BetaTildeSeq(beta: seq<real>, prev: seq<real>, alphaBar: seq<real>): seq<real>
    requires |prev| >= |beta| && |alphaBar| == |beta|
    requires forall t :: 0 <= t < |alphaBar| ==> alphaBar[t] != 1.0
  {
    seq(|beta|, t requires 0 <= t < |beta| => BetaTildeOf(beta[t], prev[t], alphaBar[t]))
  }

  /** `beta * alpha_bar_tm1 ** .5 / (1 - alpha_bar)`, elementwise. */
  function MuTildeCoef1Seq(beta: seq<real>, prev: seq<real>, alphaBar: seq<real>, sqrt: real -> real): seq<real>
    requires |prev| >= |beta| && |alphaBar| == |beta|
    requires forall t :: 0 <= t < |alphaBar| ==> alphaBar[t] != 1.0
  {
    seq(|beta|, t requires 0 <= t < |beta| => MuTildeCoef1Of(beta[t], prev[t], alphaBar[t], sqrt))
  }

  /** `alpha ** .5 * (1 - alpha_bar_tm1) / (1 - alpha_bar)`, elementwise. */
  function MuTildeCoef2Seq(alpha: seq<real>, prev: seq<real>, alphaBar: seq<real>, sqrt: real -> real): seq<real>
    requires |prev| >= |alpha| && |alphaBar| == |alpha|
    requires forall t :: 0 <= t < |alphaBar| ==> alphaBar[t] != 1.0
  {
    seq(|alpha|, t requires 0 <= t < |alpha| => MuTildeCoef2Of(alpha[t], prev[t], alphaBar[t], sqrt))
  }

  /** `Configs.__init__`: derives the coefficients elementwise from beta,
      alpha and alpha_bar. `sqrt` stands for `** 0.5`; sigma2 is beta itself. */
  function MakeConfigs(
    imageChannels: nat, imageSizeH: nat, imageSizeW: nat, nSteps: nat,
    beta: seq<real>, alpha: seq<real>, alphaBar: seq<real>,
    sqrt: real -> real): (c: Configs)
    requires Derivable(nSteps, beta, alpha, alphaBar)
    ensures c.imageChannels == imageChannels && c.imageSizeH == imageSizeH && c.imageSizeW == imageSizeW
    ensures c.nSteps == nSteps && c.beta == beta && c.alpha == alpha && c.alphaBar == alphaBar
    ensures c.sigma2 == beta
    ensures |c.betaTilde| == nSteps && |c.muTildeCoef1| == nSteps && |c.muTildeCoef2| == nSteps
  {
    var prev := ShiftPrev(alphaBar);
    Configs(imageChannels, imageSizeH, imageSizeW, nSteps, beta, alpha, alphaBar,
            BetaTildeSeq(beta, prev, alphaBar), MuTildeCoef1Seq(beta, prev, alphaBar, sqrt),
            MuTildeCoef2Seq(alpha, prev, alphaBar, sqrt), beta)
  }

  /** The coefficients at t are the formulas applied to beta_t, alpha_t,
      alpha_bar_t and the shifted product at t (which is 1 at t = 0). */
  predicate CoefficientsFit(c: Configs, sqrt: real -> real, t: int)
    requires Derivable(c.nSteps, c.beta, c.alpha, c.alphaBar)
    requires 0 <= t < c.nSteps
    requires |c.betaTilde| == c.nSteps && |c.muTildeCoef1| == c.nSteps && |c.muTildeCoef2| == c.nSteps
  {
    && c.betaTilde[t] == BetaTildeOf(c.beta[t], ShiftPrev(c.alphaBar)[t], c.alphaBar[t])
    && c.muTildeCoef1[t] == MuTildeCoef1Of(c.beta[t], ShiftPrev(c.alphaBar)[t], c.alphaBar[t], sqrt)
    && c.muTildeCoef2[t] == MuTildeCoef2Of(c.alpha[t], ShiftPrev(c.alphaBar)[t], c.alphaBar[t], sqrt)
  }

  /** `c` holds what `Configs.__init__` derives from its own beta, alpha and
      alpha_bar: every coefficient fits at every timestep, and sigma2 is beta. */
  predicate Derived(c: Configs, sqrt: real -> real)
  {
    && Derivable(c.nSteps, c.beta, c.alpha, c.alphaBar)
    && |c.betaTilde| == c.nSteps && |c.muTildeCoef1| == c.nSteps && |c.muTildeCoef2| == c.nSteps
    && c.sigma2 == c.beta
    && (forall t :: 0 <= t < c.nSteps ==> CoefficientsFit(c, sqrt, t))
  }

  /** What the constructor builds is derived. */
  lemma MakeConfigsDerived(imageChannels: nat, imageSizeH: nat, imageSizeW: nat, nSteps: nat,
                           beta: seq<real>, alpha: seq<real>, alphaBar: seq<real>, sqrt: real -> real)
    requires Derivable(nSteps, beta, alpha, alphaBar)
    ensures Derived(MakeConfigs(imageChannels, imageSizeH, imageSizeW, nSteps, beta, alpha, alphaBar, sqrt), sqrt)
  {
    var c := MakeConfigs(imageChannels, imageSizeH, imageSizeW, nSteps, beta, alpha, alphaBar, sqrt);
    forall t | 0 <= t < nSteps
      ensures CoefficientsFit(c, sqrt, t)
    {
      if t == 0 {
        FirstStepCoefficients(beta[0], alpha[0], alphaBar[0], sqrt);
      }
    }
  }

  /** A derived configuration is exactly what the constructor builds from
      its own schedule: the derived coefficients are a function of it. */
  lemma DerivedIsMakeConfigs(c: Configs, sqrt: real -> real)
    requires Derived(c, sqrt)
    ensures c == MakeConfigs(c.imageChannels, c.imageSizeH, c.imageSizeW, c.nSteps,
                             c.beta, c.alpha, c.alphaBar, sqrt)
  {
    var m := MakeConfigs(c.imageChannels, c.imageSizeH, c.imageSizeW, c.nSteps,
                         c.beta, c.alpha, c.alphaBar, sqrt);
    MakeConfigsDerived(c.imageChannels, c.imageSizeH, c.imageSizeW, c.nSteps,
                       c.beta, c.alpha, c.alphaBar, sqrt);
    forall t | 0 <= t < c.nSteps
      ensures c.betaTilde[t] == m.betaTilde[t] && c.muTildeCoef1[t] == m.muTildeCoef1[t]
           && c.muTildeCoef2[t] == m.muTildeCoef2[t]
    {
      assert CoefficientsFit(c, sqrt, t) && CoefficientsFit(m, sqrt, t);
    }
    assert c.betaTilde == m.betaTilde;
    assert c.muTildeCoef1 == m.muTildeCoef1;
    assert c.muTildeCoef2 == m.muTildeCoef2;
  }

  /** Every derived coefficient at t is its formula at the shifted product. */
  lemma CoefficientsAt(c: Configs, sqrt: real -> real, t: nat)
    requires Derived(c, sqrt)
    requires t < c.nSteps
    ensures c.alphaBar[t] != 1.0
    ensures c.betaTilde[t] == BetaTildeOf(c.beta[t], ShiftPrev(c.alphaBar)[t], c.alphaBar[t])
    ensures c.muTildeCoef1[t] == MuTildeCoef1Of(c.beta[t], ShiftPrev(c.alphaBar)[t], c.alphaBar[t], sqrt)
    ensures c.muTildeCoef2[t] == MuTildeCoef2Of(c.alpha[t], ShiftPrev(c.alphaBar)[t], c.alphaBar[t], sqrt)
  {
    assert CoefficientsFit(c, sqrt, t);
  }

  /** At the first timestep the shifted product is 1: the posterior keeps
      no variance and gives x_t no weight. */
  lemma FirstStepOfConfigs(c: Configs, sqrt: real -> real)
    requires Derived(c, sqrt)
    requires c.nSteps > 0
    ensures c.betaTilde[0] == 0.0
    ensures c.muTildeCoef1[0] == MuTildeCoef1Of(c.beta[0], 1.0, c.alphaBar[0], sqrt)
    ensures c.muTildeCoef2[0] == 0.0
  {
    CoefficientsAt(c, sqrt, 0);
    FirstStepCoefficients(c.beta[0], c.alpha[0], c.alphaBar[0], sqrt);
  }

  /** At every later timestep the coefficients use alpha_bar_{t-1}. */
  lemma LaterStepOfConfigs(c: Configs, sqrt: real -> real, t: nat)
    requires Derived(c, sqrt)
    requires 0 < t < c.nSteps
    ensures c.betaTilde[t] == BetaTildeOf(c.beta[t], c.alphaBar[t - 1], c.alphaBar[t])
    ensures c.muTildeCoef1[t] == MuTildeCoef1Of(c.beta[t], c.alphaBar[t - 1], c.alphaBar[t], sqrt)
    ensures c.muTildeCoef2[t] == MuTildeCoef2Of(c.alpha[t], c.alphaBar[t - 1], c.alphaBar[t], sqrt)
  {
    CoefficientsAt(c, sqrt, t);
  }

  /** One step of the running product: alpha_bar_t = alpha_bar_{t-1} * alpha_t. */
  predicate ProductStep(alpha: seq<real>, alphaBar: seq<real>, t: int)
    requires 0 < t < |alphaBar| && t < |alpha|
  {
    alphaBar[t] == alphaBar[t - 1] * alpha[t]
  }

  /** A DDPM variance schedule: every beta_t in (0, 1), alpha_t = 1 - beta_t,
      and alpha_bar the running product of alpha. */
  predicate ValidSchedule(beta: seq<real>, alpha: seq<real>, alphaBar: seq<real>)
  {
    && |alpha| == |beta|
    && |alphaBar| == |beta|
    && (forall t :: 0 <= t < |beta| ==> 0.0 < beta[t] < 1.0 && alpha[t] == 1.0 - beta[t])
    && (|alphaBar| > 0 ==> alphaBar[0] == alpha[0])
    && (forall t :: 0 < t < |alphaBar| ==> ProductStep(alpha, alphaBar, t))
  }

  /** The running product stays strictly inside (0, 1). */
  lemma {:induction false} AlphaBarInUnitInterval(beta: seq<real>, alpha: seq<real>, alphaBar: seq<real>, t: nat)
    requires ValidSchedule(beta, alpha, alphaBar)
    requires t < |alphaBar|
    ensures 0.0 < alphaBar[t] < 1.0
  {
    if t > 0 {
      AlphaBarInUnitInterval(beta, alpha, alphaBar, t - 1);
      assert ProductStep(alpha, alphaBar, t);
      var p := alphaBar[t - 1];
      var a := alpha[t];
      assert 0.0 < p * a by { assert 0.0 < p && 0.0 < a; }
      assert p * a < p by { assert p * (1.0 - a) > 0.0; }
    }
  }

  /** alpha_bar_t = alpha_bar_{t-1} * alpha_t with alpha_bar_{-1} = 1, the
      recurrence the shifted sequence exists to express; and a valid
      schedule meets what the coefficient derivation needs. */
  lemma ShiftedRecurrence(beta: seq<real>, alpha: seq<real>, alphaBar: seq<real>)
    requires ValidSchedule(beta, alpha, alphaBar)
    ensures forall t :: 0 <= t < |alphaBar| ==> alphaBar[t] == ShiftPrev(alphaBar)[t] * alpha[t]
    ensures Derivable(|beta|, beta, alpha, alphaBar)
  {
    forall t | 0 <= t < |alphaBar|
      ensures alphaBar[t] != 1.0
      ensures alphaBar[t] == ShiftPrev(alphaBar)[t] * alpha[t]
    {
      AlphaBarInUnitInterval(beta, alpha, alphaBar, t);
      if t > 0 {
        assert ProductStep(alpha, alphaBar, t);
      }
    }
  }

  /** The scalars one timestep of a DDPM schedule works with: beta_t in
      (0, 1), alpha_t = 1 - beta_t, the previous product in (0, 1] and
      alpha_bar_t = alpha_bar_{t-1} * alpha_t. */
  predicate StepSchedule(beta: real, alpha: real, alphaBarPrev: real, alphaBar: real)
  {
    && 0.0 < beta < 1.0 && alpha == 1.0 - beta
    && 0.0 < alphaBarPrev <= 1.0 && alphaBar == alphaBarPrev * alpha
  }

  /** The scalars one step at t works with: beta_t in (0, 1),
      alpha_t = 1 - beta_t, the shifted product in (0, 1] and
      alpha_bar_t = shifted product * alpha_t. */
  lemma ShiftedFacts(beta: seq<real>, alpha: seq<real>, alphaBar: seq<real>, t: nat)
    requires ValidSchedule(beta, alpha, alphaBar)
    requires t < |alphaBar|
    ensures StepSchedule(beta[t], alpha[t], ShiftPrev(alphaBar)[t], alphaBar[t])
  {
    if t > 0 {
      AlphaBarInUnitInterval(beta, alpha, alphaBar, t - 1);
      assert ProductStep(alpha, alphaBar, t);
    }
  }

  /** alpha_bar strictly decreases with t. */
  lemma {:induction false} AlphaBarDecreasing(beta: seq<real>, alpha: seq<real>, alphaBar: seq<real>, i: nat, j: nat)
    requires ValidSchedule(beta, alpha, alphaBar)
    requires i < j < |alphaBar|
    ensures alphaBar[j] < alphaBar[i]
    decreases j - i
  {
    AlphaBarInUnitInterval(beta, alpha, alphaBar, j - 1);
    assert ProductStep(alpha, alphaBar, j);
    var p := alphaBar[j - 1];
    var a := alpha[j];
    assert alphaBar[j] < p by { assert p * (1.0 - a) > 0.0; }
    if i < j - 1 {
      AlphaBarDecreasing(beta, alpha, alphaBar, i, j - 1);
    }
  }

  /** beta * (1 - p) / (1 - q) lies in [0, beta) when 0 < q < p < 1. */
  lemma ScaledRatioBelow(b: real, p: real, q: real)
    requires 0.0 < b && 0.0 < q < p < 1.0
    ensures 0.0 <= BetaTildeOf(b, p, q) < b
  {
    var num, den := 1.0 - p, 1.0 - q;
    RatioBelowOne(num, den);
    var r := num / den;
    assert b * num / den == b * r;
    assert b * r < b * 1.0;
  }

  /** On a valid schedule, 0 < alpha_bar_t < alpha_bar_{t-1} < 1 and
      0 < beta_t: the facts the posterior variance bound rests on. */
  lemma NeighbourFacts(beta: seq<real>, alpha: seq<real>, alphaBar: seq<real>, t: nat)
    requires ValidSchedule(beta, alpha, alphaBar)
    requires 0 < t < |alphaBar|
    ensures 0.0 < alphaBar[t] < alphaBar[t - 1] < 1.0
    ensures 0.0 < beta[t]
  {
    AlphaBarInUnitInterval(beta, alpha, alphaBar, t);
    AlphaBarInUnitInterval(beta, alpha, alphaBar, t - 1);
    AlphaBarDecreasing(beta, alpha, alphaBar, t - 1, t);
  }

  /** The posterior variance is bounded by the schedule variance:
      0 <= beta_tilde_t < beta_t. */
  lemma BetaTildeBounds(c: Configs, sqrt: real -> real, t: nat)
    requires Derived(c, sqrt)
    requires ValidSchedule(c.beta, c.alpha, c.alphaBar)
    requires t < c.nSteps
    ensures 0.0 <= c.betaTilde[t] < c.beta[t]
  {
    CoefficientsAt(c, sqrt, t);
    if t > 0 {
      NeighbourFacts(c.beta, c.alpha, c.alphaBar, t);
      ScaledRatioBelow(c.beta[t], c.alphaBar[t - 1], c.alphaBar[t]);
    } else {
      FirstStepCoefficients(c.beta[0], c.alpha[0], c.alphaBar[0], sqrt);
    }
  }
}
