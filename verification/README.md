# Polyffusion sampling session, modelled in Dafny

This project models the sampling side of Polyffusion's inference driver, the
`Configs` class in `src/inference.py`. Polyffusion generates piano-roll music
with a denoising diffusion model (DDPM). A sampling session does four things:

- **Schedule derivation** (`Configs.__init__`). From the diffusion schedule
  beta, alpha = 1 - beta and the cumulative product alpha_bar, it derives:
  - the shifted product alpha_bar_{t-1} (a 1 in front, the last element
    dropped);
  - the posterior variance beta_tilde;
  - the two posterior-mean coefficients;
  - the sampling variance sigma2, which is beta itself.
- **One reverse step** (`Configs.p_sample`). Each batch row is stepped with the
  coefficients gathered at its own timestep.
- **The countdown** (`Configs._sample_x0`). The trained model's step is applied
  at timesteps n-1, ..., 0. Every row gets the same timestep, and the state is
  dumped as an image and a MIDI file at fixed iterations.
- **The entry points** (`Configs.sample` and `Configs.predict`). They pick the
  starting state: fresh noise, or a song noised to `init_step`. They also pick
  the number of steps, `init_step or n_steps`.

Modules:

- `Outcomes`: `Option` and `Result`.
- `Tensors`: `Shape`, and `Tensor`, stored as one flattened row per batch
  element. Also `Full`, the timestep vector.
- `RealAlgebra`: the square-root contract `IsSqrt` and the field identities
  that the posterior-mean proof needs.
- `Schedule`: `ShiftPrev`, the coefficient formulas, `MakeConfigs`, and the
  facts about DDPM schedules.
- `ReverseStep`: `StepElement`, `PSample`, and the proof that the step is the
  DDPM posterior mean plus sqrt(beta_t)-scaled noise.
- `Sampling`: the countdown. It has a reference semantics `Run`, the loop
  `SampleX0` proved equal to it, and the snapshots.
- `Session`: `Sample` and `Predict`.

Several things the code computes or draws become parameters:

- the square root (`** 0.5`), as a function `sqrt` constrained by `IsSqrt`
  where a proof needs it;
- the trained model's step and forward noising (`model.p_sample`,
  `model.q_sample`);
- the Gaussian draws (`torch.randn`);
- the song `predict` chooses.

Real arithmetic stands in for floating point.

The model follows the code in these places:

- **Empty schedule.** `torch.cat` of a one with the empty slice gives `[1.0]`,
  so `ShiftPrev` of an empty schedule has length 1. The coefficient sequences
  still have the schedule's length.
- **Conditioning with `init_step = 0`.** This is accepted, since the
  assertion only rejects `None`. The song is noised at step 0, and then the
  full `n_steps` countdown runs, because 0 is falsy.
- **`predict` without conditioning.** It drops `init_step` and always runs
  `n_steps`, so the script's `init_step=100` has no effect.
- **The step `_sample_x0` calls.** It calls the trained model's two-argument
  `p_sample`, not `Configs.p_sample`. `Configs.p_sample` is modelled on its
  own as `PSample`.
- **`Configs.p_sample` is the same at every timestep.** It has no special
  case for t = 0: noise is added at the last step too (`StepAlwaysNoisy`).
  The step `_sample_x0` actually calls, `Diffpro_DDPM.p_sample`, is not part
  of this model; the abstract `step` carries no claim about t = 0.

## Model

| member | source | states |
|---|---|---|
| Schedule.ShiftPrev | src/inference.py:62 | alpha_bar_{t-1} starts with 1 and holds alpha_bar[t-1] at every t > 0; for a non-empty schedule it has the same length, and dropping its head and appending alpha_bar's last element gives alpha_bar back |
| Schedule.MakeConfigs | src/inference.py:51-72 | the session keeps the image geometry, step count, beta, alpha and alpha_bar it was given; sigma2 is exactly beta; the three derived sequences have the schedule's length |
| Schedule.MakeConfigsDerived | src/inference.py:62-70 | what `__init__` builds satisfies `Derived`: at every t each coefficient is its formula at beta_t, alpha_t, alpha_bar_t and alpha_bar_{t-1} |
| Schedule.DerivedIsMakeConfigs | src/inference.py:62-72 | conversely, any configuration whose coefficients fit the formulas at every t is exactly the one `__init__` builds, so the coefficients are determined by the schedule |
| Schedule.CoefficientsAt | src/inference.py:62-70 | on a derived configuration the coefficients at t are the formulas at the shifted product ShiftPrev(alpha_bar)[t] |
| Schedule.FirstStepOfConfigs | src/inference.py:62-70 | at t = 0 the shifted product is 1, so beta_tilde[0] = 0 and mu_tilde_coef2[0] = 0, and mu_tilde_coef1[0] uses sqrt(1) |
| Schedule.LaterStepOfConfigs | src/inference.py:62-70 | for 0 < t < n every coefficient uses alpha_bar[t-1] |
| Schedule.AlphaBarInUnitInterval | src/inference.py:56-60 | on a DDPM schedule (beta_t in (0,1), alpha = 1 - beta, alpha_bar the running product) every alpha_bar_t lies in (0, 1), so no coefficient divides by zero |
| Schedule.AlphaBarDecreasing | src/inference.py:56-60 | on a DDPM schedule alpha_bar strictly decreases in t |
| Schedule.ShiftedRecurrence | src/inference.py:60-62 | on a DDPM schedule alpha_bar_t = ShiftPrev(alpha_bar)[t] * alpha_t at every t, t = 0 included, and the schedule is derivable |
| Schedule.ShiftedFacts | src/inference.py:56-62 | at each t the scalars of a DDPM schedule satisfy `StepSchedule`: beta_t in (0,1), alpha_t = 1 - beta_t, the shifted product in (0,1] and alpha_bar_t = shifted product * alpha_t |
| Schedule.BetaTildeBounds | src/inference.py:65 | the posterior variance is bounded by the schedule variance: 0 <= beta_tilde[t] < beta[t] |
| ReverseStep.StepElement | src/inference.py:132-142 | one scalar of the step is invertible: x_t = sqrt(alpha_t) * (y - sqrt(sigma2_t) * eps) + eps_coef * eps_theta |
| ReverseStep.PSample | src/inference.py:123-142 | the result has x_t's shape; row b, element j is the scalar step with the coefficients gathered at t[b]; x_t is recovered from the result row by row |
| ReverseStep.ScalarPosteriorMean | src/inference.py:128-142 | with eps_coef = beta_t/sqrt(1 - alpha_bar_t), the noise-prediction mean equals the posterior mean built from coef1 and coef2 applied to the predicted x_0 and to x_t |
| ReverseStep.StepIsPosteriorMeanPlusNoise | src/inference.py:123-142 | on a derived DDPM configuration the step at every t is mu_tilde_coef1[t] * x0_hat + mu_tilde_coef2[t] * x_t + sqrt(sigma2[t]) * eps, where x0_hat = (x_t - sqrt(1 - alpha_bar_t) * eps_theta) / sqrt(alpha_bar_t): the posterior mean plus sqrt(beta_t) noise (DDPM's sigma_t^2 = beta_t choice; the posterior's own variance is beta_tilde_t, which `BetaTildeBounds` shows is smaller) |
| ReverseStep.StepAlwaysNoisy | src/inference.py:137-142 | there is no t = 0 special case: at every timestep two different noise draws give two different results |
| Sampling.Timesteps | src/inference.py:85-86 | the countdown over n visits exactly n timesteps (none for n <= 0), so the step is applied n times |
| Sampling.TimestepAt | src/inference.py:85-86 | iteration k of the countdown over n visits timestep n - k - 1 |
| Sampling.TimestepsDescending | src/inference.py:85-86 | the visited timesteps strictly decrease |
| Sampling.TimestepsCover | src/inference.py:85-86 | a timestep is visited iff it lies in [0, n); none for n <= 0 |
| Sampling.TimestepsDistinct | src/inference.py:85-86 | no timestep is visited twice |
| Sampling.RunSnoc | src/inference.py:85-90 | running one more timestep is one more application of the step to the state reached so far |
| Sampling.RunPreservesShape | src/inference.py:83-90 | with a step that keeps the shape when given one timestep per row, the whole countdown keeps the shape |
| Sampling.SnapshotIndices | src/inference.py:85-91 | the dump iterations listed for a countdown of n lie in [0, n) and come in strictly increasing order |
| Sampling.SnapshotIndicesMembers | src/inference.py:91 | iteration k dumps iff 0 <= k < n and (k % 100 == 0, or k >= 900 and k % 25 == 0) |
| Sampling.SnapshotsExtend | src/inference.py:91-94 | an iteration adds a dump, labelled with its timestep t (image) and t + 1 (MIDI) and holding the state after the step, exactly when it is a snapshot iteration |
| Sampling.SnapshotsMeaning | src/inference.py:85-94 | the dumps of the countdown are exactly one per snapshot iteration, in order, each labelled t (image) and t + 1 (MIDI) with the state after that iteration's step |
| Sampling.SampleX0 | src/inference.py:74-97 | the loop returns the snapshot-free countdown `Run` over n-1, ..., 0; the step receives `Full(batch, n - k - 1)` at call k, with batch fixed from x_t; the dumps match the snapshot iterations; for n <= 0 it returns x_t with no calls |
| Session.StepCount | src/inference.py:117 | `init_step or n_steps`: None and 0 both give n_steps; any other step is used as given |
| Session.Sample | src/inference.py:99-121 | fails exactly when a condition comes without init_step; with one, it starts from q_sample(cond, [init_step] * batch(cond)), and the result has the condition's shape whatever n_samples is; otherwise it starts from noise of shape [n_samples, C, H, W]; then it runs the countdown over `init_step or n_steps` |
| Session.ShapeOfRun | src/inference.py:104-119 | the starting state has the condition's shape (or the requested noise shape), and the countdown keeps it |
| Session.Predict | src/inference.py:144-161 | unconditional generation ignores init_step and runs the full n_steps from noise; conditional generation fails iff init_step is None and otherwise samples from the chosen song |

## Left out

- Image and MIDI output (`show_image`, `prmat2c_to_midi_file`), `tqdm`, the timestamped file names, device placement and the argparse `__main__` block: I/O. Snapshots are modelled as records (iteration, labels, state).
- The model assumes the MIDI writer does not modify its argument. At src/inference.py:93 it receives `xt.squeeze().cpu().numpy()`, which on the CPU shares storage with x_t. `prmat2c_to_midi_file` is not part of this model. (`show_image` clips into a new tensor first, so it cannot write to x_t.)
- Sampling.SampleX0: always returns. In the code `plt.imsave` (src/inference.py:177) or the MIDI writer can raise, for example when `exp/` is missing, and that aborts the countdown part way. Those failures are not modelled.
- `self.model.eval()` and `torch.no_grad()` (src/inference.py:145-146): the network's mode and gradient tracking are not modelled. `eval()` can change what the network computes, so the `step` passed to `Predict` stands for the network in evaluation mode, and the `step` of a direct `Sample` call stands for whatever mode the network is in.
- Default arguments: `sample` defaults to `n_samples=1` (src/inference.py:99) and `predict` to `n_samples=16, init_cond=False, init_step=None` (src/inference.py:144). Dafny methods take every argument explicitly.
- `choose_song_from_val_dl`: pickle loading, interactive `input()` and dataset reading. The chosen song is a parameter of `Predict`.
- Construction of the UNet, `DenoiseDiffusion` and `Diffpro_DDPM`, and checkpoint loading (src/inference.py:32-47): neural-network code. `self.model` is a `Diffpro_DDPM`, whose code is not part of this model. `Diffpro_DDPM.p_sample` and `Diffpro_DDPM.q_sample` are the parameters `step` and `qSample`.
- The cumulative product that computes alpha_bar happens in the `ddpm` package, which is not part of this model. alpha_bar is an input. `ValidSchedule` states the DDPM relation where a proof needs it.
- Random draws (`torch.randn`): noise is a parameter, both the per-element `eps` of `PSample` and the `randn` of `Sample`.
- IEEE floating point: values are reals and `** 0.5` is an abstract `sqrt`. No claims are made about rounding, infinities or NaN.
- Schedule.MakeConfigs: requires every alpha_bar_t != 1. The code would divide by zero there and produce infinities or NaN: with alpha_bar[0] = 1, beta_tilde[0] is 0 * 0 / 0.
- ReverseStep.PSample: requires every timestep to index the schedule and both square-root divisors to be non-zero. In the code an out-of-range `gather` raises, and a zero divisor gives an infinity or NaN.
- Session.Sample: n_samples is a natural number. A negative size makes `torch.randn` raise, and that is not modelled.
- Sampling.SampleX0: the step is a total function on tensors. Failures inside the trained model are not modelled.
