/**
  `simulated_annealing` itself: the loop that updates its local variables in
  place and draws from the shared random generator as it goes. It is proved to
  compute exactly what `Annealing.Run` describes, and the properties proved of
  `Run` are restated for its result.
 */
module Optimizer {
  import opened Perturbation
  import opened RandomSource
  import opened Annealing

  /** `range(max_iter)` runs no iteration for a negative count. */
  function Iterations(maxIter: int): (n: nat)
    ensures maxIter <= 0 ==> n == 0
    ensures 0 < maxIter ==> n == maxIter
  {
    if maxIter < 0 then 0 else maxIter
  }

  /**
    What the run of `n` iterations from `initial` returns: a best whose score is
    its own score, at least the initial score and at least every candidate's,
    and which is the initial guess or an accepted candidate; a positive scale
    stays positive under unit draws.
   */
  lemma Outcome(cfg: Config, initial: TransformParams, stream: int -> real, start: nat, n: nat)
    ensures var fin := Run(cfg, Init(cfg, initial), stream, start, n).state;
            fin.bestScore == cfg.score(fin.best) && cfg.score(initial) <= fin.bestScore
    ensures var fin := Run(cfg, Init(cfg, initial), stream, start, n).state;
            var tr := Trace(cfg, Init(cfg, initial), stream, start, n);
            forall k :: 0 <= k < |tr| ==> cfg.score(tr[k].candidate) <= fin.bestScore
    ensures var fin := Run(cfg, Init(cfg, initial), stream, start, n).state;
            fin.best == initial ||
            exists k :: 0 <= k < n &&
                        StepAt(cfg, Init(cfg, initial), stream, start, k).accepted &&
                        StepAt(cfg, Init(cfg, initial), stream, start, k).candidate == fin.best
    ensures UnitStream(stream) && 0.0 < initial.scale ==>
            0.0 < Run(cfg, Init(cfg, initial), stream, start, n).state.best.scale
  {
    var s0 := Init(cfg, initial);
    RunPreservesConsistency(cfg, s0, stream, start, n);
    BestDominatesEveryCandidate(cfg, s0, stream, start, n);
    BestIsInitialOrAccepted(cfg, s0, stream, start, n);
    if UnitStream(stream) && 0.0 < initial.scale {
      ScaleStaysPositive(cfg, s0, stream, start, n);
    }
  }

  /**
    Anneals from `initial` for `maxIter` iterations, scoring with `score`, testing
    worse candidates with `acceptWorse` and drawing from `rng`; returns the best
    parameters seen and their score.
   */
  method SimulatedAnnealing(
    score: TransformParams -> real,
    acceptWorse: (real, real, real) -> bool,
    rng: Rng,
    initial: TransformParams,
    maxIter: int := 2500,
    tInit: real := 1.0,
    coolingRate: real := 0.95)
    returns (bestParams: TransformParams, bestScore: real)
    modifies rng
    ensures var cfg := Config(score, acceptWorse, tInit, coolingRate);
            var fin := Run(cfg, Init(cfg, initial), rng.stream, old(rng.pos), Iterations(maxIter));
            bestParams == fin.state.best && bestScore == fin.state.bestScore && rng.pos == fin.pos
    ensures old(rng.pos) + 4 * Iterations(maxIter) <= rng.pos <= old(rng.pos) + 5 * Iterations(maxIter)
    ensures bestScore == score(bestParams)
    ensures score(initial) <= bestScore
    ensures var cfg := Config(score, acceptWorse, tInit, coolingRate);
            var tr := Trace(cfg, Init(cfg, initial), rng.stream, old(rng.pos), Iterations(maxIter));
            forall k :: 0 <= k < |tr| ==> score(tr[k].candidate) <= bestScore
    ensures var cfg := Config(score, acceptWorse, tInit, coolingRate);
            bestParams == initial ||
            exists k :: 0 <= k < Iterations(maxIter) &&
                        StepAt(cfg, Init(cfg, initial), rng.stream, old(rng.pos), k).accepted &&
                        StepAt(cfg, Init(cfg, initial), rng.stream, old(rng.pos), k).candidate == bestParams
    ensures maxIter <= 0 ==> bestParams == initial && bestScore == score(initial) && rng.pos == old(rng.pos)
    ensures rng.Valid() && 0.0 < initial.scale ==> 0.0 < bestParams.scale
  {
    var cfg := Config(score, acceptWorse, tInit, coolingRate);
    ghost var start := rng.pos;
    ghost var s0 := Init(cfg, initial);
    var n := Iterations(maxIter);

    var currentParams := initial;
    var currentScore := score(currentParams);
    bestParams := currentParams;
    bestScore := currentScore;
    var t := tInit;

    var i := 0;
    while i < n
      invariant 0 <= i <= n
      invariant Run(cfg, s0, rng.stream, start, i) ==
                Progress(SearchState(currentParams, currentScore, bestParams, bestScore), rng.pos)
      invariant t == Temperature(tInit, coolingRate, i)
    {
      currentParams, currentScore, bestParams, bestScore, t :=
        Iterate(cfg, rng, i, t, currentParams, currentScore, bestParams, bestScore);
      i := i + 1;
    }

    Outcome(cfg, initial, rng.stream, start, n);
  }

  /**
    One pass of the loop body at temperature `t`, the temperature after `k`
    iterations: perturb the current parameters with four draws, score the
    candidate, take a fifth draw only when the candidate does not beat the
    current score, update the best inside the acceptance branch, and cool.
   */
  method Iterate(
    cfg: Config,
    rng: Rng,
    ghost k: nat,
    t: real,
    currentParams: TransformParams, currentScore: real, bestParams: TransformParams, bestScore: real)
    returns (currentParams': TransformParams, currentScore': real, bestParams': TransformParams, bestScore': real, t': real)
    modifies rng
    requires t == Temperature(cfg.tInit, cfg.coolingRate, k)
    ensures var r := Step(cfg, SearchState(currentParams, currentScore, bestParams, bestScore), t, rng.stream, old(rng.pos));
            r.next == SearchState(currentParams', currentScore', bestParams', bestScore') && r.nextPos == rng.pos
    ensures t' == Temperature(cfg.tInit, cfg.coolingRate, k + 1)
  {
    var u0 := rng.Next();
    var u1 := rng.Next();
    var u2 := rng.Next();
    var u3 := rng.Next();
    var newParams := Perturb(currentParams, u0, u1, u2, u3);
    var newScore := cfg.score(newParams);
    var accepted;
    if newScore > currentScore {
      accepted := true;
    } else {
      var r := rng.Next();
      accepted := cfg.acceptWorse(newScore - currentScore, t, r);
    }
    currentParams', currentScore', bestParams', bestScore' := currentParams, currentScore, bestParams, bestScore;
    if accepted {
      currentParams' := newParams;
      currentScore' := newScore;
      if newScore > bestScore {
        bestParams' := newParams;
        bestScore' := newScore;
      }
    }
    t' := t * cfg.coolingRate;
  }
}
