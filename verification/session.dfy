/** The entry points of a sampling session: `Configs.sample`, which picks
    the starting state and the number of steps, and `Configs.predict`,
    which chooses between unconditional generation and generation from a
    noised song. Noise draws, the forward noising `q_sample` and the chosen
    song are parameters. */
module Session {

  import opened Outcomes
  import opened Tensors
  import opened Schedule
  import opened Sampling

  /** `sample` fails its `assert init_step is not None` when an initial
      condition is given without a step. */
  datatype SampleError = MissingInitStep

  /** `init_step or n_steps`: a missing step and a step of 0 are both falsy,
      so both fall back to the configured count. */
  function StepCount(initStep: Option<int>, nSteps: nat): (n: int)
    ensures initStep == None || initStep == Some(0) ==> n == nSteps
    ensures initStep.Some? && initStep.value != 0 ==> n == initStep.value
  {
    if initStep.Some? && initStep.value != 0 then initStep.value else nSteps
  }

  /** A noise source that returns a well-shaped tensor of the shape asked for. */
  ghost predicate ShapeFaithful(randn: Shape -> Tensor)
  {
    forall s :: WellShaped(randn(s)) && randn(s).shape == s
  }

  /** The shape of one fresh unconditional draw. */
  function NoiseShape(c: Configs, nSamples: nat): Shape
  {
    Shape(nSamples, c.imageChannels, c.imageSizeH, c.imageSizeW)
  }

  /** `Configs.sample(n_samples, init_cond, init_step)`.
      With an initial condition x0 the chain starts from
      `q_sample(x0, [init_step] * batch(x0))` and n_samples is ignored;
      without one it starts from fresh noise of shape
      [n_samples, channels, h, w]. Either way it then counts down
      `init_step or n_steps` timesteps. */
  method Sample(c: Configs, nSamples: nat, initCond: Option<Tensor>, initStep: Option<int>,
                qSample: Step, randn: Shape -> Tensor, step: Step)
    returns (r: Result<Tensor, SampleError>)
    ensures r.Failure? <==> initCond.Some? && initStep.None?
    ensures r.Failure? ==> r.error == MissingInitStep
    ensures initCond.Some? && initStep.Some? ==>
      var xt := qSample(initCond.value, Full(initCond.value.shape.batch, initStep.value));
      r == Success(Run(xt, Timesteps(StepCount(initStep, c.nSteps)), xt.shape.batch, step))
    ensures initCond.None? ==>
      var xt := randn(NoiseShape(c, nSamples));
      r == Success(Run(xt, Timesteps(StepCount(initStep, c.nSteps)), xt.shape.batch, step))
    // the number of samples follows the condition, not n_samples
    ensures r.Success? && initCond.Some? && WellShaped(initCond.value)
            && ShapePreserving(qSample) && ShapePreserving(step) ==>
      WellShaped(r.value) && r.value.shape == initCond.value.shape
    ensures r.Success? && initCond.None? && ShapeFaithful(randn) && ShapePreserving(step) ==>
      WellShaped(r.value) && r.value.shape == NoiseShape(c, nSamples)
  {
    var xt: Tensor;
    if initCond.Some? {
      if initStep.None? {
        return Failure(MissingInitStep);
      }
      xt := qSample(initCond.value, Full(initCond.value.shape.batch, initStep.value));
    } else {
      xt := randn(NoiseShape(c, nSamples));
    }
    var steps := StepCount(initStep, c.nSteps);
    var x0, _, _ := SampleX0(xt, steps, step);
    ShapeOfRun(xt, Timesteps(steps), step, qSample, randn, initCond, NoiseShape(c, nSamples), initStep);
    return Success(x0);
  }

  /** The shape facts `Sample` rests on: the start has the condition's (or
      the requested noise's) shape, and the countdown keeps it. */
  lemma ShapeOfRun(xt: Tensor, ts: seq<int>, step: Step, qSample: Step, randn: Shape -> Tensor,
                   initCond: Option<Tensor>, noise: Shape, initStep: Option<int>)
    requires initCond.Some? ==>
      (initStep.Some? && xt == qSample(initCond.value, Full(initCond.value.shape.batch, initStep.value)))
    requires initCond.None? ==> xt == randn(noise)
    ensures initCond.Some? && WellShaped(initCond.value) && ShapePreserving(qSample) && ShapePreserving(step) ==>
      WellShaped(Run(xt, ts, xt.shape.batch, step)) && Run(xt, ts, xt.shape.batch, step).shape == initCond.value.shape
    ensures initCond.None? && ShapeFaithful(randn) && ShapePreserving(step) ==>
      WellShaped(Run(xt, ts, xt.shape.batch, step)) && Run(xt, ts, xt.shape.batch, step).shape == noise
  {
    if initCond.Some? && WellShaped(initCond.value) && ShapePreserving(qSample) && ShapePreserving(step) {
      var x0 := initCond.value;
      assert WellShaped(qSample(x0, Full(x0.shape.batch, initStep.value)));
      RunPreservesShape(xt, ts, step);
    }
    if initCond.None? && ShapeFaithful(randn) && ShapePreserving(step) {
      assert WellShaped(randn(noise));
      RunPreservesShape(xt, ts, step);
    }
  }

  /** `Configs.predict(n_samples, init_cond, init_step)` without the image
      and MIDI output. Unconditional generation ignores `init_step` and runs
      the full `n_steps` chain from noise; conditional generation noises the
      chosen song to `init_step` and denoises from there. */
  method Predict(c: Configs, nSamples: nat, initCond: bool, initStep: Option<int>, chosen: Tensor,
                 qSample: Step, randn: Shape -> Tensor, step: Step)
    returns (r: Result<Tensor, SampleError>)
    ensures !initCond ==>
      var xt := randn(NoiseShape(c, nSamples));
      r == Success(Run(xt, Timesteps(c.nSteps), xt.shape.batch, step))
    ensures initCond ==> (r.Failure? <==> initStep.None?)
    ensures initCond && initStep.Some? ==>
      var xt := qSample(chosen, Full(chosen.shape.batch, initStep.value));
      r == Success(Run(xt, Timesteps(StepCount(initStep, c.nSteps)), xt.shape.batch, step))
  {
    if !initCond {
      r := Sample(c, nSamples, None, None, qSample, randn, step);
    } else {
      r := Sample(c, nSamples, Some(chosen), initStep, qSample, randn, step);
    }
  }
}
