# Simulated-annealing image registration, modelled in Dafny

The program registers a moving 2-D image onto a fixed one. It searches over a
rotation-plus-uniform-scale transform with a translation offset, written as the
four parameters `angle`, `scale`, `tx` and `ty`. The search is simulated
annealing, in `simulated_annealing` (image-registration-SA.py:26-75), and this
project models that function together with its nested neighbour move
`random_perturbation`:

- `perturbation.dfy` (module `Perturbation`) holds the parameter record and the
  neighbour move. `Perturb` takes the four uniform draws as arguments, in the
  order the dictionary literal evaluates them: angle, scale, tx, ty.
- `random_source.dfy` (module `RandomSource`) holds the process-wide NumPy
  generator. It is a class `Rng` with a fixed, endless stream of unit draws and
  a cursor `pos` that every `Next` advances by one.
- `annealing.dfy` (module `Annealing`) is the search as a state machine:
  - `Step` is one pass of the loop body.
  - `Run` is `n` passes.
  - `Trace` is the list of what each pass did.
  - `Temperature` is the cooling schedule.
  - The lemmas state the search's properties over all inputs and all draw streams.
- `optimizer.dfy` (module `Optimizer`) is the imperative loop itself.
  `SimulatedAnnealing` keeps the source's local variables and calls `Iterate`
  once per iteration; `Iterate` is the loop body and makes the four or five
  `rng.Next` calls. The loop invariant ties `SimulatedAnnealing` to `Run`, and
  its postconditions carry the lemmas' results over to what it returns.

Two operations are parameters of the model:

- `score` stands for warping the moving image by the parameters and measuring
  normalised mutual information against the fixed image. Both images are
  constant for a whole run, so this is one total function of the parameters.
- `acceptWorse(delta, T, r)` stands for the Metropolis test
  `r < exp(delta / T)` on the score difference, the temperature and a unit draw.

Three facts about the code shape the model:

- The code updates the best only inside the acceptance branch
  (image-registration-SA.py:62-67). `Annealing.BestUpdateNeedsNoAcceptance`
  shows that one iteration gives the same best as comparing every candidate
  with the best whenever the best score is at least the current score, and
  `Annealing.RunPreservesConsistency` shows that holds at every loop head.
  `Annealing.RunMatchesUnnested` combines the two over whole runs.
- NumPy's `uniform(lo, hi)` draws from the half-open `[lo, hi)`. It is
  modelled as `lo + (hi - lo) * u` with `u` in `[0, 1)`.
- The code performs no check on the scale: a non-positive scale is passed on
  unchanged. `Annealing.ScaleStaysPositive` proves that a positive initial
  scale stays positive.

## Model

| member | source | states |
|---|---|---|
| Perturbation.Perturb | image-registration-SA.py:39-46 | `random_perturbation` as a fresh record built from the current parameters and four unit draws taken in the dictionary literal's order (angle, scale, tx, ty); each draw `u` becomes `lo + (hi - lo) * u` on its range, added to angle, tx and ty and multiplied into scale |
| Perturbation.PerturbBounded | image-registration-SA.py:39-46 | under draws in [0, 1) the candidate's angle moves by an amount in [-radians(5), radians(5)), its scale by a factor in [0.95, 1.05) so a positive scale stays positive, and each translation by an amount in [-5, 5) pixels |
| RandomSource.Rng.Next | image-registration-SA.py:42-45 | each draw consumes exactly one element of the generator's stream, in order, and lies in [0, 1) |
| Annealing.Init | image-registration-SA.py:48-53 | current and best both start at the initial guess with its score, so the loop invariant holds before the first iteration |
| Annealing.Step | image-registration-SA.py:57-67 | one iteration consumes four or five draws and never lowers the best score |
| Annealing.CandidatePerturbsCurrent | image-registration-SA.py:57 | the candidate is the perturbation of the current parameters, never the best, using the next four draws |
| Annealing.AcceptanceRule | image-registration-SA.py:62 | a candidate that beats the current score is accepted without taking a fifth draw; any other takes the fifth draw and is accepted exactly when the Metropolis test on it passes |
| Annealing.AcceptanceEffect | image-registration-SA.py:62-64 | an accepted candidate becomes current with its score; a rejected one leaves current and best unchanged |
| Annealing.BestMovesOnlyOnAcceptedImprovement | image-registration-SA.py:62-67 | the best changes if and only if the candidate is accepted and strictly beats the best, and then it becomes that candidate and its score |
| Annealing.BestUpdateNeedsNoAcceptance | image-registration-SA.py:65-67 | while the best score is at least the current score, the nested best update gives the same result as comparing every candidate against the best |
| Annealing.StepMatchesUnnested | image-registration-SA.py:62-67 | while the best score is at least the current score, one iteration with the nested best update equals `StepUnnested`, which compares the candidate with the best whether accepted or not: same candidate, acceptance, next state and draw cursor |
| Annealing.RunMatchesUnnested | image-registration-SA.py:55-70 | from a state that keeps the loop invariant (both scores are their parameters' scores, best at least current), the run with the best update nested under acceptance equals, state and draw cursor alike, the run of `StepUnnested`, which compares every candidate with the best whether accepted or not |
| Annealing.StepKeepsConsistency | image-registration-SA.py:62-67 | one iteration keeps both scores equal to their parameters' scores and the best at least the current, and leaves a best at least the candidate's score |
| Annealing.Run | image-registration-SA.py:55-70 | n iterations consume between 4n and 5n draws and never lower the best score |
| Annealing.Trace | image-registration-SA.py:55-59 | the trace has one entry per iteration, and entry k is the step iteration k takes from the state and cursor left by the first k |
| Annealing.RunPreservesConsistency | image-registration-SA.py:48-67 | at every loop head both scores equal the scores of their parameters and the best score is at least the current score |
| Annealing.BestNonDecreasing | image-registration-SA.py:65-67 | the best score after m iterations is at most the best score after any n >= m iterations |
| Annealing.CandidateBoundedByLaterBest | image-registration-SA.py:58-67 | the candidate scored in iteration k never exceeds the best score after any later iteration |
| Annealing.BestDominatesEveryCandidate | image-registration-SA.py:55-67 | after n iterations the best score is at least the score of every candidate evaluated, accepted or rejected |
| Annealing.BestIsInitialOrAccepted | image-registration-SA.py:51-67 | the best after n iterations is the starting best with its score, or a candidate some earlier iteration accepted |
| Annealing.ScaleStaysPositive | image-registration-SA.py:43 | under draws in [0, 1), a positive scale in the current and best parameters stays positive through any number of iterations |
| Annealing.Temperature | image-registration-SA.py:53-70 | the temperature after k iterations: `tInit` after none, multiplied by `coolingRate` once per iteration |
| Annealing.TemperatureIsGeometric | image-registration-SA.py:70 | the temperature after k iterations is T_init times cooling_rate to the power k |
| Annealing.TemperaturePositiveAndFalling | image-registration-SA.py:70 | with T_init > 0 and 0 < cooling_rate < 1 the temperature stays positive and strictly falls every iteration |
| Optimizer.Iterations | image-registration-SA.py:55 | `range(max_iter)` runs max_iter iterations, and none when max_iter is zero or negative |
| Optimizer.Iterate | image-registration-SA.py:56-70 | one pass of the loop body updates the four loop variables and the draw cursor exactly as `Annealing.Step` says, and cools the temperature to the next step of the schedule |
| Optimizer.Outcome | image-registration-SA.py:48-75 | the returned best score is the score of the returned parameters; it is at least the initial score and every candidate's score; the returned parameters are the initial guess or an accepted candidate; a positive initial scale gives a positive returned scale under unit draws |
| Optimizer.SimulatedAnnealing | image-registration-SA.py:26-75 | the loop returns exactly the best of `Annealing.Run` after max(0, max_iter) iterations from the initial guess. It consumes between 4 and 5 draws per iteration and returns (initial, score(initial)) when max_iter <= 0. Its results carry every property of `Optimizer.Outcome` |

## Left out

- Loading and normalising the MRI volume (image-registration-SA.py:6-16) is I/O outside the search. `load_mri_image` is not part of this model.
- The body of `apply_affine` (image-registration-SA.py:18-24) and the NMI metric are image processing on floating-point arrays. Together they appear only as the parameter `score`.
- `np.exp` and the comparison `rand() < exp(delta / T)` are floating-point operations. They appear only as the parameter `acceptWorse`. So nothing is stated about how likely acceptance is, and nothing about a zero temperature.
- Floating-point rounding: all parameters, scores and temperatures are real numbers, and the five-degree bound is the shortest decimal of the float64 value of `np.radians(5)`.
- Annealing.TemperaturePositiveAndFalling: holds for the real-valued schedule only. In float64, repeated `T *= 0.95` from 1.0 underflows to a subnormal value that stops falling after roughly fourteen thousand iterations, far beyond the default 2500.
- Exceptions raised by the scorer or the resampler are not modelled, because `score` is total. In the source they propagate out of the loop with no partial result.
- Progress printing every 100 iterations (image-registration-SA.py:72-73) has no effect on the search and is left out.
- The demonstration entry point (image-registration-SA.py:78-97) is outside the search and is left out.
- Seeding and the generator's internal algorithm are left out. The generator is its stream of draws, and only the stream's non-negative positions are ever read.
