/** core/agent.py, StuckDetector (signal 2 and the loop break) and _handle_stuck_signals. */
module Stuck {
  import opened Common

  const LOOP_BREAK_AT := 3
  const NUDGE_LIMIT := 3
  const RECOVERY_LIMIT := 2
  const MUTATING_TOOLS := {"file_write", "file_edit", "multiedit", "repl", "bash"}

  // ---------------------------------------------------------------------
  // The repeat counter
  // ---------------------------------------------------------------------

  /** A call as the detector sees it. The argument hash is taken to be injective. */
  datatype CallKey = CallKey(tool: string, argsHash: int)

  /** A round's calls in sorted order, which is the same thing as their multiset. */
  type Signature = multiset<CallKey>

  /** Everything the detector is told in a turn. */
  datatype Note =
    | Round(sig: Signature, poll: bool)
    | Success(tool: string, argsHash: int, digest: Option<int>)
    | Failure

  function LastBashOutput(t: Trail<Note>, argsHash: int): Option<int> {
    match t
    case Start => None
    case Then(p, Success(tool, h, Some(d))) =>
      if tool == "bash" && h == argsHash then Some(d) else LastBashOutput(p, argsHash)
    case Then(p, _) => LastBashOutput(p, argsHash)
  }

  /** Did this entry change the workspace? A bash rerun counts only when its output differs from its last one. */
  predicate Mutates(p: Trail<Note>, n: Note) {
    && n.Success?
    && if n.tool == "bash" && n.digest.Some? then LastBashOutput(p, n.argsHash) != n.digest
      else n.tool in MUTATING_TOOLS
  }

  /** How many non-poll rounds sent exactly these calls since the workspace last changed. */
  function RoundsSinceMutation(t: Trail<Note>, sig: Signature): nat {
    if t.Start? || Mutates(t.past, t.last) then 0
    else RoundsSinceMutation(t.past, sig) + if t.last == Round(sig, false) then 1 else 0
  }

  function MutationCount(t: Trail<Note>): nat {
    if t.Start? then 0 else MutationCount(t.past) + if Mutates(t.past, t.last) then 1 else 0
  }

  // ---------------------------------------------------------------------
  // What a stuck score means for the round
  // ---------------------------------------------------------------------

  datatype Action = Proceed | NudgeAndRetry | StopLoop

  /** One round's reading: score above 0.3 or not, repeats, identical calls, and the two facts the handler asks for. */
  datatype Reading = Reading(repeats: nat, identical: nat, askUser: bool, recoveryMove: bool)

  datatype Handler = Handler(nudges: nat, recoveryPasses: nat, loopBreakUsed: bool, forceText: bool)

  const CALM := Handler(0, 0, false, false)

  predicate BreaksLoop(h: Handler, r: Reading) {
    !h.loopBreakUsed && r.identical >= LOOP_BREAK_AT && r.askUser
  }

  predicate LetsRecoveryRun(h: Handler, r: Reading) {
    h.recoveryPasses < RECOVERY_LIMIT && r.recoveryMove
  }

  function ActionFor(h: Handler, r: Reading): Action {
    if BreaksLoop(h, r) then NudgeAndRetry
    else if r.repeats < 3 || LetsRecoveryRun(h, r) then Proceed
    else if h.nudges < NUDGE_LIMIT then NudgeAndRetry
    else StopLoop
  }

  function HandlerAfter(h: Handler, r: Reading): Handler {
    if BreaksLoop(h, r) then h.(loopBreakUsed := true, forceText := true)
    else if r.repeats < 3 then h.(nudges := 0)
    else if LetsRecoveryRun(h, r) then h.(recoveryPasses := h.recoveryPasses + 1)
    else if h.nudges < NUDGE_LIMIT then h.(nudges := h.nudges + 1)
    else h
  }

  /** The handler's state after a whole list of rounds, and the readings it went through. */
  function HandlerAfterAll(t: Trail<Reading>): Handler {
    if t.Start? then CALM else HandlerAfter(HandlerAfterAll(t.past), t.last)
  }

  // What was given out so far, read off the readings alone.

  /** A loop break: the turn's first round with three identical calls, in a session that can ask the user. */
  predicate IsBreak(past: Trail<Reading>, r: Reading)
    decreases past, 1
  {
    r.askUser && r.identical >= 3 && Breaks(past) == 0
  }

  function Breaks(t: Trail<Reading>): nat
    decreases t, 0
  {
    if t.Start? then 0 else Breaks(t.past) + if IsBreak(t.past, t.last) then 1 else 0
  }

  /** A round past the threshold that is let run as a change of approach, twice a turn. */
  predicate IsRecovery(past: Trail<Reading>, r: Reading)
    decreases past, 1
  {
    !IsBreak(past, r) && r.repeats >= 3 && r.recoveryMove && Recoveries(past) < 2
  }

  function Recoveries(t: Trail<Reading>): nat
    decreases t, 0
  {
    if t.Start? then 0 else Recoveries(t.past) + if IsRecovery(t.past, t.last) then 1 else 0
  }

  /** Nudges given since the last calm round. */
  function NudgesSinceReset(t: Trail<Reading>): nat {
    if t.Start? then 0
    else if IsBreak(t.past, t.last) || IsRecovery(t.past, t.last) then NudgesSinceReset(t.past)
    else if t.last.repeats < 3 then 0
    else Min(NudgesSinceReset(t.past) + 1, 3)
  }

  lemma LoopBreakIsUsedUp(h: Handler, r: Reading)
    ensures HandlerAfter(h, r).loopBreakUsed <==> h.loopBreakUsed || BreaksLoop(h, r)
    ensures BreaksLoop(h, r) ==> !h.loopBreakUsed
  {
  }

  /** Over every list of rounds: the counters are the ledgers, and the per-turn budgets hold. */
  lemma {:induction false} HandlerLedger(t: Trail<Reading>)
    ensures HandlerAfterAll(t).nudges == NudgesSinceReset(t) <= 3
    ensures HandlerAfterAll(t).recoveryPasses == Recoveries(t) <= 2
    ensures Breaks(t) == (if HandlerAfterAll(t).loopBreakUsed then 1 else 0)
  {
    if t.Then? {
      HandlerLedger(t.past);
    }
  }

  /** What becomes of the next round after any list of them. It is stopped exactly when it is stuck, neither a loop
      break nor a recovery, and the whole nudge budget has been given since the last calm round. */
  lemma ActsExactly(t: Trail<Reading>, r: Reading)
    ensures var action := ActionFor(HandlerAfterAll(t), r);
            && (action.Proceed? <==> !IsBreak(t, r) && (r.repeats < 3 || IsRecovery(t, r)))
            && (action.StopLoop? <==>
                  r.repeats >= 3 && !IsBreak(t, r) && !IsRecovery(t, r) && NudgesSinceReset(t) == 3)
            && (action.NudgeAndRetry? <==>
                  IsBreak(t, r) || (r.repeats >= 3 && !IsRecovery(t, r) && NudgesSinceReset(t) < 3))
    ensures BreaksLoop(HandlerAfterAll(t), r) <==> IsBreak(t, r)
  {
    HandlerLedger(t);
  }

  // ---------------------------------------------------------------------
  // What counts as a change, and as a repeat
  // ---------------------------------------------------------------------

  /** The latest run of this bash command so far put out d. */
  ghost predicate LatestOutput(t: Trail<Note>, argsHash: int, d: int) {
    t.Then? && if t.last.Success? && t.last.tool == "bash" && t.last.argsHash == argsHash && t.last.digest.Some?
               then t.last.digest.value == d else LatestOutput(t.past, argsHash, d)
  }

  lemma {:induction false} LastOutputExactly(t: Trail<Note>, argsHash: int, d: int)
    ensures LastBashOutput(t, argsHash) == Some(d) <==> LatestOutput(t, argsHash, d)
  {
    if t.Then? {
      LastOutputExactly(t.past, argsHash, d);
    }
  }

  /** What changes the workspace: a success of a file tool, of the repl or of bash; but a bash command whose output was
      seen only when its latest run before put out something else, or there was none. */
  lemma MutatesExactly(t: Trail<Note>, n: Note)
    ensures Mutates(t, n) <==>
            && n.Success? && n.tool in {"file_write", "file_edit", "multiedit", "repl", "bash"}
            && !(n.tool == "bash" && n.digest.Some? && LatestOutput(t, n.argsHash, n.digest.value))
  {
    if n.Success? && n.digest.Some? {
      LastOutputExactly(t, n.argsHash, n.digest.value);
    }
  }

  /** A change of the workspace makes every repeat counter start again. */
  lemma {:induction false} NoRepeatSurvivesAMutation(t: Trail<Note>, later: seq<Note>, sig: Signature)
    requires t.Then? && Mutates(t.past, t.last)
    ensures RoundsSinceMutation(Extend(t, later), sig) <= multiset(later)[Round(sig, false)]
    decreases |later|
  {
    if later != [] {
      var front, n := later[..|later| - 1], later[|later| - 1];
      NoRepeatSurvivesAMutation(t, front, sig);
      assert later == front + [n];
      ExtendLast(t, front, n);
    }
  }

  /** The counter is exactly the number of such rounds since the last change, or in the whole turn if there was none. */
  lemma {:induction false} CountsOneQuietStretch(t: Trail<Note>, sig: Signature)
      returns (before: Trail<Note>, stretch: seq<Note>)
    ensures t == Extend(before, stretch) && (before.Then? ==> Mutates(before.past, before.last))
    ensures forall i :: 0 <= i < |stretch| ==> !Mutates(Extend(before, stretch[..i]), stretch[i])
    ensures RoundsSinceMutation(t, sig) == multiset(stretch)[Round(sig, false)]
  {
    if t.Start? || Mutates(t.past, t.last) {
      before, stretch := t, [];
    } else {
      var shorter;
      before, shorter := CountsOneQuietStretch(t.past, sig);
      stretch := shorter + [t.last];
      ExtendLast(before, shorter, t.last);
      forall i | 0 <= i < |stretch|
        ensures !Mutates(Extend(before, stretch[..i]), stretch[i])
      {
        if i < |shorter| {
          assert stretch[..i] == shorter[..i];
        } else {
          assert stretch[..i] == shorter;
        }
      }
    }
  }

  function Extend<T>(t: Trail<T>, later: seq<T>): Trail<T> {
    if later == [] then t else Then(Extend(t, later[..|later| - 1]), later[|later| - 1])
  }

  lemma ExtendLast<T>(t: Trail<T>, front: seq<T>, n: T)
    ensures Extend(t, front + [n]) == Then(Extend(t, front), n)
  {
    assert (front + [n])[..|front|] == front;
  }

  // ---------------------------------------------------------------------
  // The detector itself
  // ---------------------------------------------------------------------

  class StuckDetector {
    var mutationEpoch: nat
    var bashOutputs: map<int, int>
    var cycleCounts: map<(Signature, nat), nat>
    var identicalCalls: nat
    var recoveryPasses: nat
    var loopBreakUsed: bool
    var forceText: bool
    ghost var log: Trail<Note>

    ghost predicate Valid()
      reads `mutationEpoch, `bashOutputs, `cycleCounts, `log
    {
      && mutationEpoch == MutationCount(log)
      && (forall h :: LastBashOutput(log, h) == if h in bashOutputs then Some(bashOutputs[h]) else None)
      && (forall s: Signature ::
            RoundsSinceMutation(log, s) ==
            if (s, mutationEpoch) in cycleCounts then cycleCounts[(s, mutationEpoch)] else 0)
      && (forall k :: k in cycleCounts ==> k.1 <= mutationEpoch)
    }

    function Handling(nudges: nat): Handler
      reads `recoveryPasses, `loopBreakUsed, `forceText
    {
      Handler(nudges, recoveryPasses, loopBreakUsed, forceText)
    }

    constructor ()
      ensures Valid() && log == Start && identicalCalls == 0 && Handling(0) == CALM
    {
      mutationEpoch, bashOutputs, cycleCounts, identicalCalls, log := 0, map[], map[], 0, Start;
      recoveryPasses, loopBreakUsed, forceText := 0, false, false;
    }

    /** The part of evaluate() that counts identical rounds; called once per round with tool calls. */
    method EvaluateCycle(sig: Signature, poll: bool)
      requires Valid()
      modifies `mutationEpoch, `bashOutputs, `cycleCounts, `identicalCalls, `log
      ensures Valid() && log == Then(old(log), Round(sig, poll))
      ensures identicalCalls == if poll then 0 else RoundsSinceMutation(log, sig)
    {
      identicalCalls := 0;
      if !poll {
        var key := (sig, mutationEpoch);
        cycleCounts := cycleCounts[key := (if key in cycleCounts then cycleCounts[key] else 0) + 1];
        identicalCalls := cycleCounts[key];
      }
      log := Then(log, Round(sig, poll));
    }

    method MarkSuccess(tool: string, argsHash: int, digest: Option<int>)
      requires Valid()
      modifies `mutationEpoch, `bashOutputs, `cycleCounts, `identicalCalls, `log
      ensures Valid() && log == Then(old(log), Success(tool, argsHash, digest))
      ensures identicalCalls == old(identicalCalls)
    {
      log := Then(log, Success(tool, argsHash, digest));
      if tool == "bash" && digest.Some? {
        if argsHash !in bashOutputs || bashOutputs[argsHash] != digest.value {
          mutationEpoch := mutationEpoch + 1;
        }
        bashOutputs := bashOutputs[argsHash := digest.value];
      } else if tool in MUTATING_TOOLS {
        mutationEpoch := mutationEpoch + 1;
      }
    }

    method MarkFailure()
      requires Valid()
      modifies `mutationEpoch, `bashOutputs, `cycleCounts, `identicalCalls, `log
      ensures Valid() && log == Then(old(log), Failure)
      ensures identicalCalls == old(identicalCalls)
    {
      log := Then(log, Failure);
    }

    /** Decides the round. The caller keeps the nudge count, as the loop does. */
    method HandleSignals(repeats: nat, askUser: bool, recoveryMove: bool, nudgesUsed: nat)
        returns (action: Action, nudges: nat)
      modifies `recoveryPasses, `loopBreakUsed, `forceText
      ensures var r := Reading(repeats, identicalCalls, askUser, recoveryMove);
              action == ActionFor(old(Handling(nudgesUsed)), r) &&
              Handling(nudges) == HandlerAfter(old(Handling(nudgesUsed)), r)
    {
      nudges := nudgesUsed;
      if !loopBreakUsed && identicalCalls >= LOOP_BREAK_AT && askUser {
        loopBreakUsed := true;
        forceText := true;
        return NudgeAndRetry, nudges;
      }
      if repeats < 3 {
        return Proceed, 0;
      }
      if recoveryPasses < RECOVERY_LIMIT && recoveryMove {
        recoveryPasses := recoveryPasses + 1;
        return Proceed, nudges;
      }
      if nudges < NUDGE_LIMIT {
        nudges := nudges + 1;
        return NudgeAndRetry, nudges;
      }
      return StopLoop, nudges;
    }

    /** One round's tool results, in order. */
    method RecordResults(results: seq<Note>)
      requires Valid()
      modifies `mutationEpoch, `bashOutputs, `cycleCounts, `identicalCalls, `log
      ensures Valid() && log == Extend(old(log), results)
    {
      for i := 0 to |results|
        invariant Valid() && log == Extend(old(log), results[..i])
      {
        match results[i] {
          case Success(tool, argsHash, digest) => MarkSuccess(tool, argsHash, digest);
          case Failure => MarkFailure();
          case Round(sig, poll) => EvaluateCycle(sig, poll);
        }
        ExtendLast(old(log), results[..i], results[i]);
        assert results[..i + 1] == results[..i] + [results[i]];
      }
      assert results[..|results|] == results;
    }
  }
}
