/** core/agent.py, class _CompactionController: one turn's compaction budget. */
module Compaction {
  import opened Common

  const ATTEMPT_LIMIT := 3

  /** How one call of the compactor ended. A refusal is "nothing to summarize": no summarizer ran. */
  datatype Outcome = Compacted | Refused | Failed

  /** Which of the three callers asked for the compaction. */
  datatype Path = Critical | Proactive | Overflow

  /** The session state as far as compaction moves it. Active stands for PROCESSING and PAUSE_REQUESTED. */
  datatype Phase = Active | Compacting

  datatype Budget = Budget(attempts: nat, before: Option<nat>, awaiting: bool, stalled: bool, refused: bool)
  {
    predicate Exhausted() { attempts >= ATTEMPT_LIMIT }

    /** Whether a provider overflow comes back to the loop, or stays a fatal stream error. */
    predicate CanHelpWithOverflow() { !(Exhausted() || stalled) }

    predicate CriticalAllowed() { !Exhausted() && !stalled && !refused }

    predicate ProactiveAllowed() { attempts == 0 && !refused }

    /** The guards work together: once stalled, the proactive path is closed too. */
    predicate Valid() {
      && attempts <= ATTEMPT_LIMIT
      && (stalled ==> attempts > 0 || refused)
      && (awaiting ==> before.Some? && !stalled && (attempts > 0 || refused))
    }
  }

  const FRESH := Budget(0, None, false, false, false)

  /** The compacted size counts as no progress at 95% of the old one or more. */
  predicate NoProgress(before: nat, after: nat) {
    100 * after >= 95 * before
  }

  function Observe(b: Budget, tokens: nat): Budget {
    if !b.awaiting || b.before.None? then b
    else b.(awaiting := false, stalled := NoProgress(b.before.value, tokens))
  }

  function Run(b: Budget, tokens: nat, outcome: Outcome): Budget {
    Budget(if outcome.Refused? then b.attempts else b.attempts + 1, Some(tokens), true, false, outcome.Refused?)
  }

  function PhaseAfter(outcome: Outcome, restoreOnFailure: bool): Phase {
    if outcome.Failed? && !restoreOnFailure then Compacting else Active
  }

  class CompactionController {
    var attempts: nat
    var tokensBeforeLast: Option<nat>
    var awaitingMeasure: bool
    var stalled: bool
    var refused: bool

    function State(): Budget reads this {
      Budget(attempts, tokensBeforeLast, awaitingMeasure, stalled, refused)
    }

    constructor ()
      ensures State() == FRESH
    {
      attempts, tokensBeforeLast, awaitingMeasure, stalled, refused := 0, None, false, false, false;
    }

    method ObserveSize(tokens: nat)
      modifies this
      ensures State() == Observe(old(State()), tokens)
      ensures if old(awaitingMeasure) && old(tokensBeforeLast).Some? then
                State() == old(State()).(awaiting := false,
                  stalled := tokens as real >= 0.95 * (old(tokensBeforeLast).value as real))
              else State() == old(State())
    {
      if !awaitingMeasure || tokensBeforeLast.None? { return; }
      awaitingMeasure := false;
      stalled := NoProgress(tokensBeforeLast.value, tokens);
    }

    /** The compactor's answer is an input; `compacted` is what the caller branches on. */
    method RunOnce(tokens: nat, outcome: Outcome, restoreOnFailure: bool) returns (compacted: bool, phase: Phase)
      modifies this
      ensures State() == Run(old(State()), tokens, outcome)
      ensures attempts == old(attempts) + (if outcome.Refused? then 0 else 1) && (refused <==> outcome.Refused?)
      ensures awaitingMeasure && tokensBeforeLast == Some(tokens) && !stalled
      ensures phase.Compacting? <==> outcome.Failed? && !restoreOnFailure
      ensures compacted <==> outcome.Compacted?
      ensures phase == PhaseAfter(outcome, restoreOnFailure)
    {
      phase := Compacting;
      tokensBeforeLast := Some(tokens);
      awaitingMeasure := true;
      stalled := false;
      compacted := outcome.Compacted?;
      refused := !compacted && outcome.Refused?;
      if !refused {
        attempts := attempts + 1;
      }
      if compacted || refused || restoreOnFailure {
        phase := Active;
      }
    }
  }
}
