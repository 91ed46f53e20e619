/**
  The annealing search as a state machine. `Step` is one pass of the loop body of
  `simulated_annealing`: perturb the current parameters, score the candidate,
  accept or reject it by the Metropolis rule, and update the best inside the
  acceptance branch. `Run` iterates it; `Trace` records what each iteration did.
  The temperature is cooled by the same factor every iteration whatever else
  happens, so it is a function of the iteration count alone: `Temperature`.

  The images never change during a run, so scoring a parameter record
  (`apply_affine` on the moving image followed by `nmi` against the fixed one) is
  one total function `score`. The test `np.random.rand() < np.exp(delta / T)` is
  the predicate `acceptWorse(delta, T, r)` applied to the score difference, the
  temperature and a unit draw.
 */
module Annealing {
  import opened Perturbation
  import opened RandomSource

  /** What stays fixed for a whole run. */
  datatype Config = Config(
    score: TransformParams -> real,
    acceptWorse: (real, real, real) -> bool,
    tInit: real,
    coolingRate: real)

  /** The loop variables `current_params`, `current_score`, `best_params`, `best_score`. */
  datatype SearchState = SearchState(
    current: TransformParams,
    currentScore: real,
    best: TransformParams,
    bestScore: real)

  /** What one iteration did: the candidate it proposed, whether it took it, the state it left and the draw cursor after it. */
  datatype StepResult = StepResult(candidate: TransformParams, accepted: bool, next: SearchState, nextPos: nat)

  /** A search state together with the draw cursor. */
  datatype Progress = Progress(state: SearchState, pos: nat)

  /** The loop's invariant: both scores are the scores of their parameters, and the best is at least the current. */
  predicate Consistent(cfg: Config, s: SearchState) {
    s.currentScore == cfg.score(s.current) &&
    s.bestScore == cfg.score(s.best) &&
    s.currentScore <= s.bestScore
  }

  /** The state before the first iteration: current and best are both the initial guess, scored once. */
  function Init(cfg: Config, initial: TransformParams): (s: SearchState)
    ensures Consistent(cfg, s)
    ensures s.current == initial && s.best == initial
  {
    var initialScore := cfg.score(initial);
    SearchState(initial, initialScore, initial, initialScore)
  }

  /** The temperature after `k` iterations, by the loop's update `T *= cooling_rate`. */
  function Temperature(tInit: real, coolingRate: real, k: nat): real {
    if k == 0 then tInit else Temperature(tInit, coolingRate, k - 1) * coolingRate
  }

  /**
    One iteration at temperature `t`, reading its draws from `stream` starting at
    `pos`: four draws perturb the current parameters, and a fifth is taken only
    when the candidate does not beat the current score.
   */
  function Step(cfg: Config, s: SearchState, t: real, stream: int -> real, pos: nat): (r: StepResult)
    ensures pos + 4 <= r.nextPos <= pos + 5
    ensures s.bestScore <= r.next.bestScore
  {
    var candidate := Perturb(s.current, stream(pos), stream(pos + 1), stream(pos + 2), stream(pos + 3));
    var newScore := cfg.score(candidate);
    var improves := newScore > s.currentScore;
    var accepted := improves || cfg.acceptWorse(newScore - s.currentScore, t, stream(pos + 4));
    var nextPos := if improves then pos + 4 else pos + 5;
    var next :=
      if !accepted then s
      else if newScore > s.bestScore then SearchState(candidate, newScore, candidate, newScore)
      else s.(current := candidate, currentScore := newScore);
    StepResult(candidate, accepted, next, nextPos)
  }

  /** The candidate perturbs the current parameters, never the best, with the next four draws. */
  lemma CandidatePerturbsCurrent(cfg: Config, s: SearchState, t: real, stream: int -> real, pos: nat)
    ensures Step(cfg, s, t, stream, pos).candidate ==
            Perturb(s.current, stream(pos), stream(pos + 1), stream(pos + 2), stream(pos + 3))
  {
  }

  /**
    A candidate that beats the current score is accepted without consulting a
    draw; any other is accepted exactly when the Metropolis test on the fifth
    draw passes.
   */
  lemma AcceptanceRule(cfg: Config, s: SearchState, t: real, stream: int -> real, pos: nat)
    ensures var r := Step(cfg, s, t, stream, pos);
            var newScore := cfg.score(r.candidate);
            (newScore > s.currentScore ==> r.accepted && r.nextPos == pos + 4) &&
            (newScore <= s.currentScore ==>
               r.nextPos == pos + 5 &&
               (r.accepted <==> cfg.acceptWorse(newScore - s.currentScore, t, stream(pos + 4))))
  {
  }

  /** An accepted candidate becomes current; a rejected one changes neither the current nor the best state. */
  lemma AcceptanceEffect(cfg: Config, s: SearchState, t: real, stream: int -> real, pos: nat)
    ensures var r := Step(cfg, s, t, stream, pos);
            (r.accepted ==> r.next.current == r.candidate && r.next.currentScore == cfg.score(r.candidate)) &&
            (!r.accepted ==> r.next == s)
  {
  }

  /** The best moves exactly when an accepted candidate beats it, and then to that candidate and its score. */
  lemma BestMovesOnlyOnAcceptedImprovement(cfg: Config, s: SearchState, t: real, stream: int -> real, pos: nat)
    ensures var r := Step(cfg, s, t, stream, pos);
            var newScore := cfg.score(r.candidate);
            ((r.next.best, r.next.bestScore) != (s.best, s.bestScore) <==> r.accepted && newScore > s.bestScore) &&
            (r.accepted && newScore > s.bestScore ==> r.next.best == r.candidate && r.next.bestScore == newScore)
  {
  }

  /**
    The best is updated inside the acceptance branch. While the best is at least
    the current, that makes no difference: the best moves exactly when the
    candidate beats it, whether or not acceptance is consulted.
   */
  lemma BestUpdateNeedsNoAcceptance(cfg: Config, s: SearchState, t: real, stream: int -> real, pos: nat)
    requires s.currentScore <= s.bestScore
    ensures var r := Step(cfg, s, t, stream, pos);
            var newScore := cfg.score(r.candidate);
            (r.next.best, r.next.bestScore) ==
            (if newScore > s.bestScore then (r.candidate, newScore) else (s.best, s.bestScore))
  {
  }

  /** One iteration keeps the invariant, and leaves a best at least as good as the candidate it scored. */
  lemma StepKeepsConsistency(cfg: Config, s: SearchState, t: real, stream: int -> real, pos: nat)
    requires Consistent(cfg, s)
    ensures var r := Step(cfg, s, t, stream, pos);
            Consistent(cfg, r.next) && cfg.score(r.candidate) <= r.next.bestScore
  {
  }

  /** `n` iterations from state `s`, the first at temperature `cfg.tInit`, reading draws from `pos` on. */
  function Run(cfg: Config, s: SearchState, stream: int -> real, pos: nat, n: nat): (r: Progress)
    ensures pos + 4 * n <= r.pos <= pos + 5 * n
    ensures s.bestScore <= r.state.bestScore
  {
    if n == 0 then Progress(s, pos)
    else
      var p := Run(cfg, s, stream, pos, n - 1);
      var step := Step(cfg, p.state, Temperature(cfg.tInit, cfg.coolingRate, n - 1), stream, p.pos);
      Progress(step.next, step.nextPos)
  }

  /** The step that iteration `k` (counting from 0) of a run takes. */
  function StepAt(cfg: Config, s: SearchState, stream: int -> real, pos: nat, k: nat): StepResult {
    var p := Run(cfg, s, stream, pos, k);
    Step(cfg, p.state, Temperature(cfg.tInit, cfg.coolingRate, k), stream, p.pos)
  }

  /** What each of the first `n` iterations did, in order. */
  function Trace(cfg: Config, s: SearchState, stream: int -> real, pos: nat, n: nat): (tr: seq<StepResult>)
    ensures |tr| == n
    ensures forall k :: 0 <= k < n ==> tr[k] == StepAt(cfg, s, stream, pos, k)
  {
    if n == 0 then [] else Trace(cfg, s, stream, pos, n - 1) + [StepAt(cfg, s, stream, pos, n - 1)]
  }

  /** The loop invariant holds at every loop head. */
  lemma {:induction false} RunPreservesConsistency(cfg: Config, s: SearchState, stream: int -> real, pos: nat, n: nat)
    requires Consistent(cfg, s)
    ensures Consistent(cfg, Run(cfg, s, stream, pos, n).state)
  {
    if n > 0 {
      RunPreservesConsistency(cfg, s, stream, pos, n - 1);
      var p := Run(cfg, s, stream, pos, n - 1);
      StepKeepsConsistency(cfg, p.state, Temperature(cfg.tInit, cfg.coolingRate, n - 1), stream, p.pos);
    }
  }

  /** The best score never decreases from one iteration to a later one. */
  lemma {:induction false} BestNonDecreasing(cfg: Config, s: SearchState, stream: int -> real, pos: nat, m: nat, n: nat)
    requires m <= n
    ensures Run(cfg, s, stream, pos, m).state.bestScore <= Run(cfg, s, stream, pos, n).state.bestScore
  {
    if m < n {
      BestNonDecreasing(cfg, s, stream, pos, m, n - 1);
    }
  }

  /** Iteration `k`'s candidate never scores above the best held after any later iteration `n`. */
  lemma CandidateBoundedByLaterBest(cfg: Config, s: SearchState, stream: int -> real, pos: nat, k: nat, n: nat)
    requires Consistent(cfg, s)
    requires k < n
    ensures cfg.score(StepAt(cfg, s, stream, pos, k).candidate) <= Run(cfg, s, stream, pos, n).state.bestScore
  {
    var p := Run(cfg, s, stream, pos, k);
    RunPreservesConsistency(cfg, s, stream, pos, k);
    StepKeepsConsistency(cfg, p.state, Temperature(cfg.tInit, cfg.coolingRate, k), stream, p.pos);
    assert Run(cfg, s, stream, pos, k + 1).state == StepAt(cfg, s, stream, pos, k).next;
    BestNonDecreasing(cfg, s, stream, pos, k + 1, n);
  }

  /** After `n` iterations the best score is at least the score of every candidate evaluated, accepted or not. */
  lemma BestDominatesEveryCandidate(cfg: Config, s: SearchState, stream: int -> real, pos: nat, n: nat)
    requires Consistent(cfg, s)
    ensures var tr := Trace(cfg, s, stream, pos, n);
            forall k :: 0 <= k < n ==> cfg.score(tr[k].candidate) <= Run(cfg, s, stream, pos, n).state.bestScore
  {
    var tr := Trace(cfg, s, stream, pos, n);
    forall k | 0 <= k < n
      ensures cfg.score(tr[k].candidate) <= Run(cfg, s, stream, pos, n).state.bestScore
    {
      CandidateBoundedByLaterBest(cfg, s, stream, pos, k, n);
    }
  }

  /** The best parameters after `n` iterations are the starting best or a candidate that was accepted. */
  lemma {:induction false} BestIsInitialOrAccepted(cfg: Config, s: SearchState, stream: int -> real, pos: nat, n: nat)
    ensures (Run(cfg, s, stream, pos, n).state.best == s.best &&
             Run(cfg, s, stream, pos, n).state.bestScore == s.bestScore) ||
            (exists k :: 0 <= k < n && StepAt(cfg, s, stream, pos, k).accepted &&
                         StepAt(cfg, s, stream, pos, k).candidate == Run(cfg, s, stream, pos, n).state.best)
  {
    if n > 0 {
      BestIsInitialOrAccepted(cfg, s, stream, pos, n - 1);
      var p := Run(cfg, s, stream, pos, n - 1);
      var last := StepAt(cfg, s, stream, pos, n - 1);
      BestMovesOnlyOnAcceptedImprovement(cfg, p.state, Temperature(cfg.tInit, cfg.coolingRate, n - 1), stream, p.pos);
      assert Run(cfg, s, stream, pos, n).state == last.next;
    }
  }

  /**
    A reference iteration that compares every candidate with the best, accepted
    or not, and otherwise does what `Step` does: the same draws, the same
    acceptance test, the same move of the current parameters.
   */
  function StepUnnested(cfg: Config, s: SearchState, t: real, stream: int -> real, pos: nat): StepResult {
    var candidate := Perturb(s.current, stream(pos), stream(pos + 1), stream(pos + 2), stream(pos + 3));
    var newScore := cfg.score(candidate);
    var improves := newScore > s.currentScore;
    var accepted := improves || cfg.acceptWorse(newScore - s.currentScore, t, stream(pos + 4));
    var nextPos := if improves then pos + 4 else pos + 5;
    var current := if accepted then candidate else s.current;
    var currentScore := if accepted then newScore else s.currentScore;
    var best := if newScore > s.bestScore then candidate else s.best;
    var bestScore := if newScore > s.bestScore then newScore else s.bestScore;
    StepResult(candidate, accepted, SearchState(current, currentScore, best, bestScore), nextPos)
  }

  /** `n` iterations of `StepUnnested`, on the same schedule and draws as `Run`. */
  function RunUnnested(cfg: Config, s: SearchState, stream: int -> real, pos: nat, n: nat): Progress {
    if n == 0 then Progress(s, pos)
    else
      var p := RunUnnested(cfg, s, stream, pos, n - 1);
      var step := StepUnnested(cfg, p.state, Temperature(cfg.tInit, cfg.coolingRate, n - 1), stream, p.pos);
      Progress(step.next, step.nextPos)
  }

  /**
    From a state that keeps the loop invariant, the code's nested best update
    and the unnested one produce the same whole run: same states, same draws.
   */
  lemma {:induction false} RunMatchesUnnested(cfg: Config, s: SearchState, stream: int -> real, pos: nat, n: nat)
    requires Consistent(cfg, s)
    ensures Run(cfg, s, stream, pos, n) == RunUnnested(cfg, s, stream, pos, n)
  {
    if n > 0 {
      RunMatchesUnnested(cfg, s, stream, pos, n - 1);
      RunPreservesConsistency(cfg, s, stream, pos, n - 1);
      var p := Run(cfg, s, stream, pos, n - 1);
      StepMatchesUnnested(cfg, p.state, Temperature(cfg.tInit, cfg.coolingRate, n - 1), stream, p.pos);
    }
  }

  /** One iteration: while the best is at least the current, the nested and unnested updates agree. */
  lemma StepMatchesUnnested(cfg: Config, s: SearchState, t: real, stream: int -> real, pos: nat)
    requires s.currentScore <= s.bestScore
    ensures Step(cfg, s, t, stream, pos) == StepUnnested(cfg, s, t, stream, pos)
  {
  }

  /** Under draws in [0, 1), a positive scale stays positive in the current and the best parameters. */
  lemma {:induction false} ScaleStaysPositive(cfg: Config, s: SearchState, stream: int -> real, pos: nat, n: nat)
    requires UnitStream(stream)
    requires 0.0 < s.current.scale && 0.0 < s.best.scale
    ensures var fin := Run(cfg, s, stream, pos, n).state;
            0.0 < fin.current.scale && 0.0 < fin.best.scale
  {
    if n > 0 {
      ScaleStaysPositive(cfg, s, stream, pos, n - 1);
      var p := Run(cfg, s, stream, pos, n - 1);
      var q := p.pos;
      PerturbBounded(p.state.current, stream(q), stream(q + 1), stream(q + 2), stream(q + 3));
      CandidatePerturbsCurrent(cfg, p.state, Temperature(cfg.tInit, cfg.coolingRate, n - 1), stream, q);
    }
  }

  /** `c` to the power `n`. */
  function Pow(c: real, n: nat): real {
    if n == 0 then 1.0 else c * Pow(c, n - 1)
  }

  /** The temperature after `k` iterations is the initial temperature times the cooling rate to the `k`. */
  lemma {:induction false} TemperatureIsGeometric(tInit: real, c: real, k: nat)
    ensures Temperature(tInit, c, k) == tInit * Pow(c, k)
  {
    if k > 0 {
      TemperatureIsGeometric(tInit, c, k - 1);
      var q := Pow(c, k - 1);
      assert (tInit * q) * c == tInit * (c * q);
    }
  }

  /** With a positive start and a rate in (0, 1), the temperature stays positive and strictly falls every iteration. */
  lemma {:induction false} TemperaturePositiveAndFalling(tInit: real, c: real, k: nat)
    requires 0.0 < tInit && 0.0 < c < 1.0
    ensures 0.0 < Temperature(tInit, c, k + 1) < Temperature(tInit, c, k)
  {
    if k > 0 {
      TemperaturePositiveAndFalling(tInit, c, k - 1);
    }
    var t := Temperature(tInit, c, k);
    MulPositive(t, c);
    MulPositive(t, 1.0 - c);
  }

  lemma MulPositive(a: real, b: real)
    requires 0.0 < a && 0.0 < b
    ensures 0.0 < a * b
  {
  }
}
