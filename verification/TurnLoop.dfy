/** core/agent.py, run_agent: the tool loop of one turn, with every outside party an arbitrary oracle. */
module TurnLoop {
  import opened Common
  import opened Compaction
  import Stuck

  const LENGTH_CONTINUATION_LIMIT := 2
  const REREAD_LIMIT := 1

  /** Settings of the loop, fixed during a turn. */
  datatype Config = Config(rounds: nat, renewals: nat, followupEnabled: bool, followupCap: nat, critical: real)
  {
    predicate Valid() { rounds >= 1 }
  }

  /** Everything that names the next request's model, as it stands at one moment: the session's override, the configured
      models, and the registry's resolution of names. */
  datatype Routing = Routing(override: string, primary: string, fallback: string, resolve: string -> string)
  {
    /** A failover is sticky and hides the session's override. */
    function Effective(onFallback: bool): string {
      resolve(if onFallback && fallback != "" then fallback else if override != "" then override else primary)
    }
  }

  /** The override names the model before the configured one, until a failover; then only the fallback does. */
  lemma NamedModel(r: Routing)
    ensures r.Effective(false) == r.resolve(if r.override == "" then r.primary else r.override)
    ensures r.fallback != "" ==> forall o: string :: r.(override := o).Effective(true) == r.resolve(r.fallback)
    ensures r.fallback == "" ==> r.Effective(true) == r.Effective(false)
  {
  }

  // ---------------------------------------------------------------------
  // What the outside world answers during one pass of the loop
  // ---------------------------------------------------------------------

  datatype Gate = Enter | Break | Return

  datatype Reply = Reply(
    lengthCut: bool, content: bool, calls: bool, salvageable: bool,
    claimsAction: bool, badRefs: bool, announcesWork: bool, rowChanged: bool,
    sig: Stuck.Signature, poll: bool, repeats: nat, askUser: bool, recoveryMove: bool,
    results: seq<Stuck.Note>, raises: bool, endsTurn: bool)

  datatype Stream = Overflowed | Errored | Replied(reply: Reply)

  /** The model is resolved when the pass begins and again when its stream is over; either may have changed in
      between. */
  datatype Input = Input(
    gate: Gate, renewalRefused: bool, routing: Routing, routingAfter: Routing,
    tokens: nat, budget: nat, needsCompaction: bool, offersTools: bool,
    criticalRun: Outcome, proactiveRun: Outcome, overflowRun: Outcome,
    failsOver: bool, stream: Stream, cancel: bool)

  type Oracle = nat -> Input

  /** No fallback, and a registry that resolves every name to itself. */
  function Named(override: string): Routing {
    Routing(override, "m", "", x => x)
  }

  // ---------------------------------------------------------------------
  // The turn's state and its visible history
  // ---------------------------------------------------------------------

  /** The last line of the resource status, by what it tells the model. */
  datatype Advice = NoAdvice | WillRenew | LastRound | NextRoundHasNoTools | LimitNear

  /** What a round was spent on. */
  datatype Why = CutShort | RanTools | ClaimedAction | BadReferences | AnnouncedWork

  datatype Event =
    | Renewed
    | Measured(before: nat, after: nat)
    | Compaction(path: Path, outcome: Outcome)
    | Requested(tools: bool, advice: Advice)
    | Proposed
    | Discarded(loopBreak: bool)
    | Consumed(tools: bool, why: Why)
    | Reread

  datatype Reason =
    | Complete | RoundCeiling | StuckLoop | CompactionFailed | Cancelled | BudgetExhausted | StreamFailed | Suspended

  datatype Exit = Returned(reason: Reason) | Broke(reason: Reason) | Raised

  datatype State = State(
    toolRound: nat, spent: nat, granted: nat, windowDidTools: bool, didTools: bool, triedFallback: bool,
    lengthCount: nat, followups: nat, rereads: nat, actionChecked: bool, sourcesChecked: bool,
    handler: Stuck.Handler, notes: Trail<Stuck.Note>, budget: Budget, phase: Phase, history: Trail<Event>)
  {
    function Log(e: Event): State { this.(history := Then(history, e)) }

    function Consume(tools: bool, why: Why): State {
      this.(toolRound := toolRound + 1, spent := spent + 1).Log(Consumed(tools, why))
    }
  }

  const BEGIN := State(0, 0, 0, false, false, false, 0, 0, 0, false, false, Stuck.CALM, Start, FRESH, Active, Start)

  datatype Step = Go(s: State) | Stop(s: State, exit: Exit)

  // ---------------------------------------------------------------------
  // One pass of the loop, phase by phase
  // ---------------------------------------------------------------------

  function AdviceFor(cfg: Config, s: State): Advice
    requires s.toolRound < cfg.rounds
  {
    var remaining := cfg.rounds - s.toolRound;
    if cfg.renewals > s.granted then (if remaining <= 2 then WillRenew else NoAdvice)
    else if remaining == 1 then LastRound
    else if remaining == 2 then NextRoundHasNoTools
    else if remaining <= 5 then LimitNear
    else NoAdvice
  }

  predicate RenewalDue(cfg: Config, s: State) {
    s.toolRound + 1 >= cfg.rounds && s.windowDidTools && s.granted < cfg.renewals
  }

  function Renew(s: State): State {
    s.(granted := s.granted + 1, toolRound := 0, windowDidTools := false).Log(Renewed)
  }

  function ObserveCompile(s: State, tokens: nat): State {
    var measured := s.(budget := Observe(s.budget, tokens));
    if s.budget.awaiting && s.budget.before.Some? then measured.Log(Measured(s.budget.before.value, tokens))
      else measured
  }

  function RunCompactor(s: State, path: Path, tokens: nat, outcome: Outcome): State {
    s.(budget := Run(s.budget, tokens, outcome), phase := PhaseAfter(outcome, !path.Critical?))
      .Log(Compaction(path, outcome))
  }

  predicate IsCritical(cfg: Config, input: Input) {
    input.tokens as real > cfg.critical * (Max(input.budget, 1) as real)
  }

  function Iterate(cfg: Config, s: State, input: Input): Step
    requires s.toolRound < cfg.rounds
  {
    if input.gate.Return? then Stop(s, Returned(Cancelled))
    else if input.gate.Break? then Stop(s, Broke(BudgetExhausted))
    else if RenewalDue(cfg, s) && !input.renewalRefused then Go(Renew(s))
    else CompilePhase(cfg, s, input)
  }

  function CompilePhase(cfg: Config, s: State, input: Input): Step
    requires s.toolRound < cfg.rounds
  {
    var s1 := ObserveCompile(s, input.tokens);
    var advice := AdviceFor(cfg, s);
    if IsCritical(cfg, input) then CriticalPhase(cfg, s1, input, advice) else ProactivePhase(cfg, s1, input, advice)
  }

  function CriticalPhase(cfg: Config, s: State, input: Input, advice: Advice): Step
    requires s.toolRound < cfg.rounds
  {
    var tries := s.budget.CriticalAllowed();
    var s1 := if tries then RunCompactor(s, Critical, input.tokens, input.criticalRun) else s;
    if tries && input.criticalRun.Compacted? then Go(s1)
    else if s1.budget.refused then ProactivePhase(cfg, s1, input, advice)
    else Stop(s1, Broke(CompactionFailed))
  }

  function ProactivePhase(cfg: Config, s: State, input: Input, advice: Advice): Step
    requires s.toolRound < cfg.rounds
  {
    if input.needsCompaction && s.budget.ProactiveAllowed()
    then RequestPhase(cfg, RunCompactor(s, Proactive, input.tokens, input.proactiveRun), input, advice)
    else RequestPhase(cfg, s, input, advice)
  }

  /** Tools are taken away in the window's last round and in the round after a loop break. */
  predicate ToolsOn(cfg: Config, s: State) {
    s.toolRound != cfg.rounds - 1 && !s.handler.forceText
  }

  predicate FailedOver(cfg: Config, s: State, input: Input) {
    var fallback := input.routing.fallback;
    var dispatched := if s.triedFallback then fallback else input.routing.Effective(false);
    s.triedFallback || (input.failsOver && fallback != "" && fallback != dispatched)
  }

  function Sent(cfg: Config, s: State, input: Input, advice: Advice): State {
    s.(handler := s.handler.(forceText := false), triedFallback := FailedOver(cfg, s, input))
      .Log(Requested(ToolsOn(cfg, s), advice))
  }

  function RequestPhase(cfg: Config, s: State, input: Input, advice: Advice): Step
    requires s.toolRound < cfg.rounds
  {
    var tools := ToolsOn(cfg, s);
    var s1 := Sent(cfg, s, input, advice);
    match input.stream
    case Overflowed => OverflowPhase(cfg, s1, input, s.triedFallback)
    case Errored => Stop(s1, Returned(StreamFailed))
    case Replied(r) => ReplyPhase(cfg, s1, input, r, tools, s.toolRound == cfg.rounds - 1, s.handler.forceText)
  }

  /** The request came back as too long. Right after a failover the context is compiled again before it is compacted. */
  function OverflowPhase(cfg: Config, s: State, input: Input, triedBefore: bool): Step {
    if !s.budget.CanHelpWithOverflow() then Stop(s, Returned(StreamFailed))
    else if input.routingAfter.Effective(s.triedFallback) != input.routing.Effective(triedBefore) then Go(s)
    else Go(RunCompactor(s, Overflow, input.tokens, input.overflowRun))
  }

  function ReplyPhase(cfg: Config, s: State, input: Input, r: Reply, tools: bool, forced: bool, loopBreak: bool): Step {
    if r.lengthCut && !r.calls && r.content && s.lengthCount < LENGTH_CONTINUATION_LIMIT
    then Go(s.(lengthCount := s.lengthCount + 1).Consume(tools, CutShort))
    else if r.calls || (r.content && tools && r.salvageable) then ToolPhase(s, r, tools)
    else TextPhase(cfg, s, input, r, tools, forced, loopBreak)
  }

  function TextPhase(cfg: Config, s: State, input: Input, r: Reply, tools: bool, forced: bool, loopBreak: bool): Step {
    match FollowUp(cfg, s, input, r, tools)
    case Some(why) => Go(Marked(s, why).Consume(tools, why))
    case None =>
      if r.rowChanged && s.rereads < REREAD_LIMIT && !input.cancel
      then Go(s.(rereads := s.rereads + 1).Log(Reread))
      else Stop(s, Returned(if loopBreak then StuckLoop else if forced then RoundCeiling else Complete))
  }

  /** One more round instead of the end: an action claimed and not taken, references that lead nowhere, work
      announced. */
  function FollowUp(cfg: Config, s: State, input: Input, r: Reply, tools: bool): (why: Option<Why>)
    ensures why.Some? ==> !why.value.CutShort? && !why.value.RanTools?
  {
    if !r.content || s.toolRound + 2 >= cfg.rounds || input.cancel then None
    else if !s.actionChecked && r.claimsAction && !s.didTools then Some(ClaimedAction)
    else if !s.sourcesChecked && tools && input.offersTools && r.badRefs then Some(BadReferences)
    else if cfg.followupEnabled && s.followups < cfg.followupCap && r.announcesWork then Some(AnnouncedWork)
    else None
  }

  function Marked(s: State, why: Why): State {
    match why
    case ClaimedAction => s.(actionChecked := true)
    case BadReferences => s.(sourcesChecked := true)
    case AnnouncedWork => s.(followups := s.followups + 1)
    case _ => s
  }

  lemma MarkedOnly(s: State, why: Why)
    ensures var t := Marked(s, why);
            t == s.(actionChecked := t.actionChecked, sourcesChecked := t.sourcesChecked, followups := t.followups)
  {
  }

  /** What the detector reads of a round that proposed calls, after it has noted them. */
  function ReadingOf(s: State, r: Reply): Stuck.Reading {
    var identical := if r.poll then 0 else Stuck.RoundsSinceMutation(Then(s.notes, Stuck.Round(r.sig, false)), r.sig);
    Stuck.Reading(r.repeats, identical, r.askUser, r.recoveryMove)
  }

  function Judged(s: State, r: Reply): State {
    s.(didTools := true, windowDidTools := true,
       notes := Then(s.notes, Stuck.Round(r.sig, r.poll)),
       handler := Stuck.HandlerAfter(s.handler, ReadingOf(s, r))).Log(Proposed)
  }

  function ToolPhase(s: State, r: Reply, tools: bool): Step {
    var s1 := Judged(s, r);
    match Stuck.ActionFor(s.handler, ReadingOf(s, r))
    case NudgeAndRetry => Go(s1.Log(Discarded(Stuck.BreaksLoop(s.handler, ReadingOf(s, r)))))
    case StopLoop => Stop(s1, Broke(StuckLoop))
    case Proceed =>
      if r.raises then Stop(s1, Raised)
      else
        var s2 := s1.(notes := Stuck.Extend(s1.notes, r.results));
        if r.endsTurn then Stop(s2, Returned(Suspended)) else Go(s2.Consume(tools, RanTools))
  }

  /** What a round of calls leaves in the history, and what it leaves alone. */
  lemma ToolTrace(s: State, r: Reply, tools: bool)
    ensures var t := ToolPhase(s, r, tools).s;
            && t.budget == s.budget && t.triedFallback == s.triedFallback
            && t.history.Then?
            && (|| t.history == Then(s.history, Proposed)
                || (t.history.past == Then(s.history, Proposed)
                    && (t.history.last.Discarded? || t.history.last.Consumed?)))
  {
    hide Stuck.HandlerAfter, Stuck.ActionFor, Stuck.RoundsSinceMutation, Stuck.Extend, Stuck.BreaksLoop;
  }

  /** What a text reply leaves in the history, and what it leaves alone. */
  lemma TextTrace(cfg: Config, s: State, input: Input, r: Reply, tools: bool, forced: bool, loopBreak: bool)
    ensures var t := TextPhase(cfg, s, input, r, tools, forced, loopBreak).s;
            && t.budget == s.budget && t.handler == s.handler && t.notes == s.notes
            && t.triedFallback == s.triedFallback
            && (|| t.history == s.history
                || (t.history.Then? && t.history.past == s.history
                    && (t.history.last.Consumed? || t.history.last.Reread?)))
  {
    hide FollowUp, Marked;
    if FollowUp(cfg, s, input, r, tools).Some? {
      MarkedOnly(s, FollowUp(cfg, s, input, r, tools).value);
    }
  }

  // ---------------------------------------------------------------------
  // Whole turns
  // ---------------------------------------------------------------------

  predicate Halted(cfg: Config, step: Step) {
    step.Stop? || step.s.toolRound >= cfg.rounds
  }

  /** The turn after n passes; a halted turn stays as it is. */
  function After(cfg: Config, oracle: Oracle, n: nat): Step {
    if n == 0 then Go(BEGIN)
    else
      var p := After(cfg, oracle, n - 1);
      if Halted(cfg, p) then p else Iterate(cfg, p.s, oracle(n - 1))
  }

  /** How the turn is reported: leaving the loop without a reason means the rounds ran out. */
  datatype Report = Report(reason: Option<Reason>, finalAnswer: bool, last: State)

  function ReportOf(step: Step): Report {
    match step
    case Go(s) => Report(Some(RoundCeiling), s.didTools, s)
    case Stop(s, Broke(r)) => Report(Some(r), s.didTools && r != CompactionFailed, s)
    case Stop(s, Returned(r)) => Report(Some(r), false, s)
    case Stop(s, Raised) => Report(None, false, s)
  }

  // ---------------------------------------------------------------------
  // What every pass keeps
  // ---------------------------------------------------------------------

  function Renewals(h: Trail<Event>): nat {
    if h.Start? then 0 else Renewals(h.past) + if h.last.Renewed? then 1 else 0
  }

  function ConsumedRounds(h: Trail<Event>): nat {
    if h.Start? then 0 else ConsumedRounds(h.past) + if h.last.Consumed? then 1 else 0
  }

  function ToolRounds(h: Trail<Event>): nat {
    if h.Start? then 0 else ToolRounds(h.past) + if h.last.Consumed? && h.last.tools then 1 else 0
  }

  function RealRuns(h: Trail<Event>): nat {
    if h.Start? then 0 else RealRuns(h.past) + if h.last.Compaction? && !h.last.outcome.Refused? then 1 else 0
  }

  function ProactiveRuns(h: Trail<Event>): nat {
    if h.Start? then 0 else ProactiveRuns(h.past) + if h.last.Compaction? && h.last.path.Proactive? then 1 else 0
  }

  function Stalls(h: Trail<Event>): nat {
    if h.Start? then 0
    else Stalls(h.past) + if h.last.Measured? && NoProgress(h.last.before, h.last.after) then 1 else 0
  }

  /** Once a measurement showed no progress, the compactor is never run again. */
  predicate QuietAfterStall(h: Trail<Event>) {
    h.Then? ==>
      && QuietAfterStall(h.past)
      && (h.last.Compaction? ==> Stalls(h.past) == 0)
  }

  /** The model is told that tools are disabled only on requests that are sent without tools. */
  predicate LastRoundIsHonest(h: Trail<Event>) {
    h.Then? ==>
      && LastRoundIsHonest(h.past)
      && (h.last.Requested? && h.last.advice.LastRound? ==> !h.last.tools)
  }

  /** `granted` whole windows of `size` rounds each, without a product. */
  function Windows(granted: nat, size: int): int {
    if granted == 0 then 0 else Windows(granted - 1, size) + size
  }

  /** The round ledger, over the window index, the rounds spent, the windows granted and the history. */
  ghost predicate Rounds(cfg: Config, index: nat, spent: nat, granted: nat, h: Trail<Event>) {
    && granted == Renewals(h) <= cfg.renewals
    && index <= cfg.rounds
    && spent == ConsumedRounds(h) == index + Windows(granted, cfg.rounds - 1)
    && ToolRounds(h) <= Windows(granted, cfg.rounds - 1) + Min(index, cfg.rounds - 1)
    && LastRoundIsHonest(h)
  }

  ghost predicate Compactions(b: Budget, h: Trail<Event>) {
    && b.Valid()
    && b.attempts == RealRuns(h)
    && ProactiveRuns(h) <= 1
    && (ProactiveRuns(h) > 0 ==> !b.ProactiveAllowed())
    && (b.stalled <==> Stalls(h) > 0)
    && QuietAfterStall(h)
  }

  ghost predicate Inv(cfg: Config, s: State) {
    && cfg.Valid()
    && Rounds(cfg, s.toolRound, s.spent, s.granted, s.history)
    && Compactions(s.budget, s.history)
    && s.handler.nudges <= Stuck.NUDGE_LIMIT
    && s.rereads <= REREAD_LIMIT
  }

  /** The nine-part measure that every continuing pass lowers. */
  ghost predicate Lowers(cfg: Config, s: State, t: State)
  {
    || s.granted < t.granted <= cfg.renewals
    || (s.granted == t.granted && s.toolRound < t.toolRound <= cfg.rounds)
    || (s.granted == t.granted && s.toolRound == t.toolRound && LowersWithinRound(s, t))
  }

  ghost predicate LowersWithinRound(s: State, t: State) {
    || (!s.handler.loopBreakUsed && t.handler.loopBreakUsed)
    || (s.handler.loopBreakUsed == t.handler.loopBreakUsed && s.handler.nudges < t.handler.nudges)
    || (s.handler.loopBreakUsed == t.handler.loopBreakUsed && s.handler.nudges == t.handler.nudges
        && LowersWithinAnswer(s, t))
  }

  ghost predicate LowersWithinAnswer(s: State, t: State) {
    || s.rereads < t.rereads
    || (s.rereads == t.rereads && !s.triedFallback && t.triedFallback)
    || (s.rereads == t.rereads && s.triedFallback == t.triedFallback && s.budget.attempts < t.budget.attempts)
    || (s.rereads == t.rereads && s.triedFallback == t.triedFallback && s.budget.attempts == t.budget.attempts
        && t.budget.awaiting && t.budget.before.Some?
        && (s.budget.awaiting && s.budget.before.Some? ==> t.budget.before.value < s.budget.before.value))
  }

  /** Where a pass stands between the compile and the answer, seen from the loop head `h`. */
  ghost predicate MidPass(h: State, s: State, tokens: nat) {
    && s.granted == h.granted && s.toolRound == h.toolRound && s.handler == h.handler
    && s.rereads == h.rereads && s.triedFallback == h.triedFallback
    && h.budget.attempts <= s.budget.attempts
    && (h.budget.attempts == s.budget.attempts && h.budget.awaiting && h.budget.before.Some? ==>
          s.budget.stalled || tokens < h.budget.before.value)
  }

  ghost predicate GoodStep(cfg: Config, h: State, step: Step) {
    && Inv(cfg, step.s)
    && (step.Go? ==> Lowers(cfg, h, step.s) && step.s.phase == Active)
    && (step.s.phase.Compacting? ==> step == Stop(step.s, Broke(CompactionFailed)))
  }

  /** The overflow was answered for a model the session has been switched away from meanwhile, and not by a failover. */
  predicate SwitchedMidway(cfg: Config, h: State, input: Input) {
    && input.stream.Overflowed? && FailedOver(cfg, h, input) == h.triedFallback
    && input.routingAfter.Effective(h.triedFallback) != input.routing.Effective(h.triedFallback)
  }

  ghost predicate GoodPass(cfg: Config, h: State, input: Input, step: Step) {
    && Inv(cfg, step.s)
    && (step.Go? ==> (Lowers(cfg, h, step.s) || SwitchedMidway(cfg, h, input)) && step.s.phase == Active)
    && (step.s.phase.Compacting? ==> step == Stop(step.s, Broke(CompactionFailed)))
  }

  lemma ConsumeKept(cfg: Config, s: State, tools: bool, why: Why)
    requires Inv(cfg, s) && s.toolRound < cfg.rounds
    requires tools ==> s.toolRound < cfg.rounds - 1
    ensures Inv(cfg, s.Consume(tools, why))
  {
  }

  /** Entries that no ledger counts. */
  lemma SideNoteKept(cfg: Config, s: State, e: Event)
    requires Inv(cfg, s)
    requires e.Proposed? || e.Discarded? || e.Reread? || (e.Requested? && (e.advice.LastRound? ==> !e.tools))
    ensures Inv(cfg, s.Log(e))
  {
  }

  lemma CompactorRunKept(cfg: Config, s: State, path: Path, tokens: nat, outcome: Outcome)
    requires Inv(cfg, s) && s.budget.CanHelpWithOverflow()
    requires path.Proactive? ==> s.budget.ProactiveAllowed()
    ensures Inv(cfg, RunCompactor(s, path, tokens, outcome))
  {
  }

  lemma JudgedKept(cfg: Config, s: State, r: Reply)
    requires Inv(cfg, s)
    ensures Inv(cfg, Judged(s, r)) && Judged(s, r).toolRound == s.toolRound
  {
    hide Stuck.RoundsSinceMutation;
    var handler := Stuck.HandlerAfter(s.handler, ReadingOf(s, r));
    assert handler.nudges <= Stuck.NUDGE_LIMIT;
    var judged := s.(didTools := true, windowDidTools := true, notes := Then(s.notes, Stuck.Round(r.sig, r.poll)),
      handler := handler);
    SideNoteKept(cfg, judged, Proposed);
  }

  lemma ToolPhaseKept(cfg: Config, h: State, s: State, r: Reply, tools: bool)
    requires Inv(cfg, s) && s.toolRound < cfg.rounds && s.phase == Active
    requires h.granted == s.granted && h.toolRound == s.toolRound && h.handler.(forceText := false) == s.handler
    requires tools ==> s.toolRound < cfg.rounds - 1
    ensures GoodStep(cfg, h, ToolPhase(s, r, tools))
  {
    hide Stuck.RoundsSinceMutation, Stuck.Extend;
    var s1 := Judged(s, r);
    JudgedKept(cfg, s, r);
    SideNoteKept(cfg, s1, Discarded(Stuck.BreaksLoop(s.handler, ReadingOf(s, r))));
    ConsumeKept(cfg, s1.(notes := Stuck.Extend(s1.notes, r.results)), tools, RanTools);
  }

  /** A reply that is answered with one more round, whatever the reason. */
  lemma FollowUpKept(cfg: Config, h: State, s: State, t: State, tools: bool, why: Why)
    requires Inv(cfg, s) && s.toolRound < cfg.rounds && s.phase == Active
    requires h.granted == s.granted && h.toolRound == s.toolRound
    requires tools ==> s.toolRound < cfg.rounds - 1
    requires t == s.(actionChecked := t.actionChecked, sourcesChecked := t.sourcesChecked, followups := t.followups,
             lengthCount := t.lengthCount)
    ensures GoodStep(cfg, h, Go(t.Consume(tools, why)))
  {
    ConsumeKept(cfg, t, tools, why);
  }

  lemma RereadKept(cfg: Config, h: State, s: State)
    requires Inv(cfg, s) && s.phase == Active && s.rereads < REREAD_LIMIT
    requires h.granted == s.granted && h.toolRound == s.toolRound && h.rereads == s.rereads
    requires h.handler.(forceText := false) == s.handler
    ensures GoodStep(cfg, h, Go(s.(rereads := s.rereads + 1).Log(Reread)))
  {
    SideNoteKept(cfg, s.(rereads := s.rereads + 1), Reread);
  }

  lemma EndKept(cfg: Config, h: State, s: State, exit: Exit)
    requires Inv(cfg, s) && s.phase == Active
    ensures GoodStep(cfg, h, Stop(s, exit))
  {
  }

  lemma TextPhaseKept(cfg: Config, h: State, s: State, input: Input, r: Reply, tools: bool, forced: bool,
      loopBreak: bool)
    requires Inv(cfg, s) && s.toolRound < cfg.rounds && s.phase == Active
    requires h.granted == s.granted && h.toolRound == s.toolRound && h.rereads == s.rereads
    requires h.handler.(forceText := false) == s.handler
    requires tools ==> s.toolRound < cfg.rounds - 1
    ensures GoodStep(cfg, h, TextPhase(cfg, s, input, r, tools, forced, loopBreak))
  {
    hide Inv, GoodStep, FollowUp, Marked;
    var why := FollowUp(cfg, s, input, r, tools);
    if why.Some? {
      MarkedOnly(s, why.value);
      FollowUpKept(cfg, h, s, Marked(s, why.value), tools, why.value);
    } else if r.rowChanged && s.rereads < REREAD_LIMIT && !input.cancel {
      RereadKept(cfg, h, s);
    } else {
      EndKept(cfg, h, s, TextPhase(cfg, s, input, r, tools, forced, loopBreak).exit);
    }
  }

  /** What is left of the request phase once the request is sent. */
  lemma AnswerKept(cfg: Config, h: State, s: State, input: Input, advice: Advice)
    requires Inv(cfg, s) && s.toolRound < cfg.rounds && s.phase == Active && MidPass(h, s, input.tokens)
    requires advice.LastRound? ==> s.toolRound == cfg.rounds - 1
    requires input.stream.Replied?
    ensures GoodStep(cfg, h, RequestPhase(cfg, s, input, advice))
  {
    hide ReplyPhase, Inv, GoodStep;
    SentKept(cfg, s, input, advice);
    var forced := s.toolRound == cfg.rounds - 1;
    ReplyKept(cfg, h, Sent(cfg, s, input, advice), input, ToolsOn(cfg, s), forced, s.handler.forceText);
  }

  lemma ReplyKept(cfg: Config, h: State, s: State, input: Input, tools: bool, forced: bool, loopBreak: bool)
    requires Inv(cfg, s) && s.toolRound < cfg.rounds && s.phase == Active && input.stream.Replied?
    requires h.granted == s.granted && h.toolRound == s.toolRound && h.rereads == s.rereads
    requires h.handler.(forceText := false) == s.handler
    requires tools ==> s.toolRound < cfg.rounds - 1
    ensures GoodStep(cfg, h, ReplyPhase(cfg, s, input, input.stream.reply, tools, forced, loopBreak))
  {
    hide ToolPhase, TextPhase, Inv, GoodStep;
    var r := input.stream.reply;
    if r.lengthCut && !r.calls && r.content && s.lengthCount < LENGTH_CONTINUATION_LIMIT {
      FollowUpKept(cfg, h, s, s.(lengthCount := s.lengthCount + 1), tools, CutShort);
    } else if r.calls || (r.content && tools && r.salvageable) {
      ToolPhaseKept(cfg, h, s, r, tools);
    } else {
      TextPhaseKept(cfg, h, s, input, r, tools, forced, loopBreak);
    }
  }

  lemma SentKept(cfg: Config, s: State, input: Input, advice: Advice)
    requires Inv(cfg, s) && s.toolRound < cfg.rounds
    requires advice.LastRound? ==> s.toolRound == cfg.rounds - 1
    ensures Inv(cfg, Sent(cfg, s, input, advice))
  {
    var quiet := s.(handler := s.handler.(forceText := false), triedFallback := FailedOver(cfg, s, input));
    SideNoteKept(cfg, quiet, Requested(ToolsOn(cfg, s), advice));
  }

  lemma RequestPhaseKept(cfg: Config, h: State, s: State, input: Input, advice: Advice)
    requires Inv(cfg, s) && s.toolRound < cfg.rounds && s.phase == Active && MidPass(h, s, input.tokens)
    requires advice.LastRound? ==> s.toolRound == cfg.rounds - 1
    ensures GoodPass(cfg, h, input, RequestPhase(cfg, s, input, advice))
  {
    hide ToolPhase, TextPhase;
    var sent := Sent(cfg, s, input, advice);
    SentKept(cfg, s, input, advice);
    if input.stream.Replied? {
      AnswerKept(cfg, h, s, input, advice);
    } else if input.stream.Overflowed? {
      OverflowKept(cfg, h, s, sent, input);
    }
  }

  lemma OverflowKept(cfg: Config, h: State, s: State, sent: State, input: Input)
    requires Inv(cfg, sent) && s.toolRound < cfg.rounds && s.phase == Active && MidPass(h, s, input.tokens)
    requires input.stream.Overflowed? && sent.triedFallback == FailedOver(cfg, s, input)
    requires sent == s.(handler := sent.handler, triedFallback := sent.triedFallback, history := sent.history)
    requires sent.handler == s.handler.(forceText := false)
    ensures GoodPass(cfg, h, input, OverflowPhase(cfg, sent, input, s.triedFallback))
  {
    hide Inv, Routing.Effective;
    if sent.budget.CanHelpWithOverflow() {
      CompactorRunKept(cfg, sent, Overflow, input.tokens, input.overflowRun);
    }
  }

  lemma ProactivePhaseKept(cfg: Config, h: State, s: State, input: Input, advice: Advice)
    requires Inv(cfg, s) && s.toolRound < cfg.rounds && s.phase == Active && MidPass(h, s, input.tokens)
    requires advice.LastRound? ==> s.toolRound == cfg.rounds - 1
    ensures GoodPass(cfg, h, input, ProactivePhase(cfg, s, input, advice))
  {
    if input.needsCompaction && s.budget.ProactiveAllowed() {
      CompactorRunKept(cfg, s, Proactive, input.tokens, input.proactiveRun);
      RequestPhaseKept(cfg, h, RunCompactor(s, Proactive, input.tokens, input.proactiveRun), input, advice);
    } else {
      RequestPhaseKept(cfg, h, s, input, advice);
    }
  }

  lemma ObserveKept(cfg: Config, s: State, tokens: nat)
    requires Inv(cfg, s)
    ensures Inv(cfg, ObserveCompile(s, tokens)) && MidPass(s, ObserveCompile(s, tokens), tokens)
  {
  }

  /** A refused critical compaction leaves the pass where it was. */
  lemma RefusedMidPass(h: State, s: State, input: Input)
    requires MidPass(h, s, input.tokens) && s.budget.CriticalAllowed() && input.criticalRun.Refused?
    ensures var t := RunCompactor(s, Critical, input.tokens, input.criticalRun);
            MidPass(h, t, input.tokens) && t.phase == Active && t.toolRound == s.toolRound && t.budget.refused
  {
  }

  lemma CriticalPhaseKept(cfg: Config, h: State, s: State, input: Input, advice: Advice)
    requires Inv(cfg, s) && s.toolRound < cfg.rounds && s.phase == Active && MidPass(h, s, input.tokens)
    requires advice.LastRound? ==> s.toolRound == cfg.rounds - 1
    ensures GoodPass(cfg, h, input, CriticalPhase(cfg, s, input, advice))
  {
    hide ProactivePhase, Inv, SwitchedMidway;
    if s.budget.CriticalAllowed() {
      CompactorRunKept(cfg, s, Critical, input.tokens, input.criticalRun);
      if input.criticalRun.Refused? {
        RefusedMidPass(h, s, input);
        ProactivePhaseKept(cfg, h, RunCompactor(s, Critical, input.tokens, input.criticalRun), input, advice);
      }
    } else if s.budget.refused {
      ProactivePhaseKept(cfg, h, s, input, advice);
    }
  }

  lemma CompilePhaseKept(cfg: Config, s: State, input: Input)
    requires Inv(cfg, s) && s.toolRound < cfg.rounds && s.phase == Active
    ensures GoodPass(cfg, s, input, CompilePhase(cfg, s, input))
  {
    hide ProactivePhase, CriticalPhase, GoodPass, Inv, IsCritical;
    var s1 := ObserveCompile(s, input.tokens);
    var advice := AdviceFor(cfg, s);
    ObserveKept(cfg, s, input.tokens);
    if IsCritical(cfg, input) {
      CriticalPhaseKept(cfg, s, s1, input, advice);
    } else {
      ProactivePhaseKept(cfg, s, s1, input, advice);
    }
  }

  lemma RenewKept(cfg: Config, s: State)
    requires Inv(cfg, s) && s.toolRound < cfg.rounds && RenewalDue(cfg, s)
    ensures Inv(cfg, Renew(s))
  {
  }

  lemma PassKept(cfg: Config, s: State, input: Input)
    requires Inv(cfg, s) && s.toolRound < cfg.rounds && s.phase == Active
    ensures GoodPass(cfg, s, input, Iterate(cfg, s, input))
  {
    if input.gate.Enter? {
      if RenewalDue(cfg, s) && !input.renewalRefused {
        RenewKept(cfg, s);
      } else {
        CompilePhaseKept(cfg, s, input);
      }
    }
  }

  // ---------------------------------------------------------------------
  // The theorems, over every oracle
  // ---------------------------------------------------------------------

  /** Every reachable state keeps the ledgers; COMPACTING is left behind only by a turn that ends compaction_failed. */
  lemma {:induction false} TurnKept(cfg: Config, oracle: Oracle, n: nat)
    requires cfg.Valid()
    ensures Inv(cfg, After(cfg, oracle, n).s)
    ensures After(cfg, oracle, n).Go? ==> After(cfg, oracle, n).s.phase == Active
    ensures After(cfg, oracle, n).s.phase.Compacting? ==>
            ReportOf(After(cfg, oracle, n)).reason == Some(CompactionFailed)
  {
    hide Iterate;
    if n > 0 {
      TurnKept(cfg, oracle, n - 1);
      var p := After(cfg, oracle, n - 1);
      if !Halted(cfg, p) {
        PassKept(cfg, p.s, oracle(n - 1));
      }
    }
  }

  ghost predicate TurnsBackAt(cfg: Config, oracle: Oracle, m: nat) {
    !Halted(cfg, After(cfg, oracle, m)) && SwitchedMidway(cfg, After(cfg, oracle, m).s, oracle(m))
  }

  /** From this pass on no overflow comes back across a switch of the session's model. */
  ghost predicate NoneFrom(cfg: Config, oracle: Oracle, from: nat) {
    forall m: nat :: m >= from ==> !TurnsBackAt(cfg, oracle, m)
  }

  /** The turn loop ends, whatever the model, the compiler, the compactor and the failover ladder do, exactly when the
      session's model is switched under an overflowing stream only finitely often. */
  lemma TurnHalts(cfg: Config, oracle: Oracle)
    requires cfg.Valid()
    ensures (exists n :: Halted(cfg, After(cfg, oracle, n))) <==> (exists from: nat :: NoneFrom(cfg, oracle, from))
  {
    if from: nat :| NoneFrom(cfg, oracle, from) {
      HaltsFrom(cfg, oracle, 0, from);
    }
    if n :| Halted(cfg, After(cfg, oracle, n)) {
      forall m: nat | m >= n
        ensures !TurnsBackAt(cfg, oracle, m)
      {
        HaltedStays(cfg, oracle, n, m);
      }
      assert NoneFrom(cfg, oracle, n);
    }
  }

  lemma {:induction false} HaltedStays(cfg: Config, oracle: Oracle, n: nat, m: nat)
    requires Halted(cfg, After(cfg, oracle, n)) && m >= n
    ensures After(cfg, oracle, m) == After(cfg, oracle, n)
  {
    hide Iterate;
    if m > n {
      HaltedStays(cfg, oracle, n, m - 1);
    }
  }

  /** When what names the model stands still during each stream from some pass on, the turn ends. */
  lemma SteadyRoutingHalts(cfg: Config, oracle: Oracle, from: nat)
    requires cfg.Valid() && forall m: nat :: m >= from ==> oracle(m).routingAfter == oracle(m).routing
    ensures exists n :: Halted(cfg, After(cfg, oracle, n))
  {
    hide Iterate, After;
    assert NoneFrom(cfg, oracle, from);
    HaltsFrom(cfg, oracle, 0, from);
  }

  lemma {:induction false} HaltsFrom(cfg: Config, oracle: Oracle, n: nat, from: nat)
    requires cfg.Valid() && NoneFrom(cfg, oracle, from)
    ensures exists m :: Halted(cfg, After(cfg, oracle, m))
    decreases
      Max(0, from - n),
      cfg.renewals - After(cfg, oracle, n).s.granted,
      cfg.rounds - After(cfg, oracle, n).s.toolRound,
      !After(cfg, oracle, n).s.handler.loopBreakUsed,
      Stuck.NUDGE_LIMIT - After(cfg, oracle, n).s.handler.nudges,
      REREAD_LIMIT - After(cfg, oracle, n).s.rereads,
      !After(cfg, oracle, n).s.triedFallback,
      ATTEMPT_LIMIT - After(cfg, oracle, n).s.budget.attempts,
      !After(cfg, oracle, n).s.budget.awaiting,
      Pending(After(cfg, oracle, n).s.budget)
  {
    hide Iterate, SwitchedMidway;
    TurnKept(cfg, oracle, n);
    var p := After(cfg, oracle, n);
    if !Halted(cfg, p) {
      PassKept(cfg, p.s, oracle(n));
      TurnKept(cfg, oracle, n + 1);
      var q := After(cfg, oracle, n + 1);
      if q.Go? {
        assert n >= from ==> !TurnsBackAt(cfg, oracle, n);
        assert n >= from ==> Lowers(cfg, p.s, q.s);
        HaltsFrom(cfg, oracle, n + 1, from);
      } else {
        assert Halted(cfg, q);
      }
    }
  }

  /** Switching the model under every stream keeps the turn going for ever: each overflow compiles again for the model
      named at the loop head, and none of them costs a round or an attempt. */
  lemma {:induction false} EndlessSwitching(n: nat)
    ensures var cfg := Config(1, 0, false, 0, 1.0);
            var input := Input(Enter, false, Named("a"), Named("b"), 0, 1, false, true, Failed, Failed, Failed, false,
              Overflowed, false);
            var p := After(cfg, _ => input, n);
            !Halted(cfg, p) && p.s.toolRound == 0 && p.s.budget == FRESH && !p.s.triedFallback && !p.s.windowDidTools
  {
    if n > 0 {
      EndlessSwitching(n - 1);
    }
  }

  /** The size the next compile is measured against. */
  function Pending(b: Budget): nat {
    if b.before.Some? then b.before.value else 0
  }

  lemma {:induction false} WindowsMultiply(granted: nat, size: nat)
    ensures Windows(granted, size) == granted * size
  {
    if granted > 0 {
      WindowsMultiply(granted - 1, size);
      assert (granted - 1) * size + size == granted * size;
    }
  }

  lemma {:induction false} WindowsGrow(granted: nat, renewals: nat, size: nat)
    requires granted <= renewals
    ensures Windows(granted, size) <= Windows(renewals, size)
    decreases renewals
  {
    if granted < renewals {
      WindowsGrow(granted, renewals - 1, size);
    }
  }

  /** Rounds add up across windows, and the model is told that tools are off only when they are. */
  ghost predicate LedgerHolds(cfg: Config, s: State) {
    && s.spent == s.toolRound + s.granted * (cfg.rounds - 1)
    && s.granted == Renewals(s.history) <= cfg.renewals
    && s.spent == ConsumedRounds(s.history) <= cfg.renewals * (cfg.rounds - 1) + cfg.rounds
    && ToolRounds(s.history) <= (cfg.renewals + 1) * (cfg.rounds - 1)
    && LastRoundIsHonest(s.history)
  }

  lemma LedgerReading(cfg: Config, s: State)
    requires Inv(cfg, s)
    ensures LedgerHolds(cfg, s)
  {
    var size := cfg.rounds - 1;
    WindowsGrow(s.granted, cfg.renewals, size);
    WindowsMultiply(s.granted, size);
    WindowsMultiply(cfg.renewals, size);
    WindowsMultiply(cfg.renewals + 1, size);
    assert Windows(cfg.renewals + 1, size) == Windows(cfg.renewals, size) + size;
  }

  /** The round ledger of every run, at every loop head and at the end. */
  lemma RoundLedger(cfg: Config, oracle: Oracle, n: nat)
    requires cfg.Valid()
    ensures LedgerHolds(cfg, After(cfg, oracle, n).s)
  {
    hide *;
    TurnKept(cfg, oracle, n);
    LedgerReading(cfg, After(cfg, oracle, n).s);
  }

  /** The compaction budget of every run. */
  lemma CompactionLedger(cfg: Config, oracle: Oracle, n: nat)
    requires cfg.Valid()
    ensures var h := After(cfg, oracle, n).s.history;
            RealRuns(h) <= ATTEMPT_LIMIT && ProactiveRuns(h) <= 1 && QuietAfterStall(h)
  {
    TurnKept(cfg, oracle, n);
  }

  /** A turn is reported complete only for an answer to a request that carried tools:
      prose on a round the server disarmed is never filed as a finished task. */
  predicate AnsweredWithTools(h: Trail<Event>) {
    h.Then? && h.last.Requested? && h.last.tools
  }

  lemma RequestCompletes(cfg: Config, s: State, input: Input, advice: Advice)
    requires s.toolRound < cfg.rounds
    requires RequestPhase(cfg, s, input, advice).Stop? && RequestPhase(cfg, s, input, advice).exit == Returned(Complete)
    ensures AnsweredWithTools(RequestPhase(cfg, s, input, advice).s.history)
  {
    hide ToolPhase, OverflowPhase;
    var sent := Sent(cfg, s, input, advice);
    assert sent.history.last == Requested(ToolsOn(cfg, s), advice);
    ToolsNeverComplete(sent, if input.stream.Replied? then input.stream.reply else NO_REPLY, ToolsOn(cfg, s));
    OverflowNeverCompletes(cfg, sent, input, s.triedFallback);
  }

  const NO_REPLY := Reply(false, false, false, false, false, false, false, false, multiset{}, false, 0, false, false,
    [], false, false)

  lemma ToolsNeverComplete(s: State, r: Reply, tools: bool)
    ensures ToolPhase(s, r, tools).Stop? ==> ToolPhase(s, r, tools).exit != Returned(Complete)
  {
  }

  lemma OverflowNeverCompletes(cfg: Config, s: State, input: Input, triedBefore: bool)
    ensures OverflowPhase(cfg, s, input, triedBefore).Stop? ==>
            OverflowPhase(cfg, s, input, triedBefore).exit != Returned(Complete)
  {
  }

  lemma PassCompletes(cfg: Config, s: State, input: Input)
    requires s.toolRound < cfg.rounds
    requires Iterate(cfg, s, input).Stop? && Iterate(cfg, s, input).exit == Returned(Complete)
    ensures AnsweredWithTools(Iterate(cfg, s, input).s.history)
  {
    hide RequestPhase, AnsweredWithTools, AdviceFor, IsCritical, ObserveCompile;
    var s1 := ObserveCompile(s, input.tokens);
    assert s1.toolRound == s.toolRound by { ObserveKeepsRound(s, input.tokens); }
    var s2 := RunCompactor(s1, Critical, input.tokens, input.criticalRun);
    forall t | t == s1 || t == s2 {
      ProactiveCompletes(cfg, t, input, AdviceFor(cfg, s));
    }
  }

  lemma ObserveKeepsRound(s: State, tokens: nat)
    ensures ObserveCompile(s, tokens).toolRound == s.toolRound
  {
  }

  lemma ProactiveCompletes(cfg: Config, s: State, input: Input, advice: Advice)
    requires s.toolRound < cfg.rounds
    ensures ProactivePhase(cfg, s, input, advice).Stop? &&
            ProactivePhase(cfg, s, input, advice).exit == Returned(Complete) ==>
            AnsweredWithTools(ProactivePhase(cfg, s, input, advice).s.history)
  {
    hide RequestPhase, AnsweredWithTools;
    var s1 := RunCompactor(s, Proactive, input.tokens, input.proactiveRun);
    if ProactivePhase(cfg, s, input, advice).Stop? && ProactivePhase(cfg, s, input, advice).exit == Returned(Complete) {
      if input.needsCompaction && s.budget.ProactiveAllowed() {
        RequestCompletes(cfg, s1, input, advice);
      } else {
        RequestCompletes(cfg, s, input, advice);
      }
    }
  }

  lemma {:induction false} CompleteMeansToolsWereOn(cfg: Config, oracle: Oracle, n: nat)
    requires After(cfg, oracle, n).Stop? && After(cfg, oracle, n).exit == Returned(Complete)
    ensures AnsweredWithTools(After(cfg, oracle, n).s.history)
  {
    hide Iterate, AnsweredWithTools;
    var p := After(cfg, oracle, n - 1);
    if Halted(cfg, p) {
      CompleteMeansToolsWereOn(cfg, oracle, n - 1);
    } else {
      PassCompletes(cfg, p.s, oracle(n - 1));
    }
  }

  // ---------------------------------------------------------------------
  // The request of a pass
  // ---------------------------------------------------------------------

  function Critically(cfg: Config, s: State, input: Input): State {
    if IsCritical(cfg, input) && s.budget.CriticalAllowed()
      then RunCompactor(s, Critical, input.tokens, input.criticalRun) else s
  }

  /** The state in which a pass sends its request, if it gets so far. */
  function AtRequest(cfg: Config, s: State, input: Input): Option<State> {
    if !input.gate.Enter? || (RenewalDue(cfg, s) && !input.renewalRefused) then None
    else
      var s1 := ObserveCompile(s, input.tokens);
      var s2 := Critically(cfg, s1, input);
      if IsCritical(cfg, input)
         && ((s1.budget.CriticalAllowed() && input.criticalRun.Compacted?) || !s2.budget.refused) then None
      else if input.needsCompaction && s2.budget.ProactiveAllowed() then
        Some(RunCompactor(s2, Proactive, input.tokens, input.proactiveRun))
      else Some(s2)
  }

  /** Only the budget, the phase and the history differ, and no promise was made. */
  ghost predicate SameTurn(s: State, t: State) {
    t == s.(budget := t.budget, phase := t.phase, history := t.history) && Promises(t.history) == Promises(s.history)
  }

  lemma CompactorKeepsTurn(s: State, path: Path, tokens: nat, outcome: Outcome)
    ensures SameTurn(s, RunCompactor(s, path, tokens, outcome)) && SameTurn(s, ObserveCompile(s, tokens)) &&
            SameTurn(s, s)
  {
  }

  /** Between the loop head and the request nothing but the budget, the phase and the history changes. */
  lemma RequestReached(cfg: Config, s: State, input: Input)
    requires s.toolRound < cfg.rounds
    ensures var at := AtRequest(cfg, s, input);
            if at.Some? then
              SameTurn(s, at.value) && Iterate(cfg, s, input) == RequestPhase(cfg, at.value, input, AdviceFor(cfg, s))
            else Promises(Iterate(cfg, s, input).s.history) == Promises(s.history)
  {
    hide RequestPhase, AdviceFor, IsCritical, RunCompactor, ObserveCompile, Promises, Budget.CriticalAllowed;
    var s1 := ObserveCompile(s, input.tokens);
    CompactorKeepsTurn(s, Critical, input.tokens, input.criticalRun);
    CompactorKeepsTurn(s1, Critical, input.tokens, input.criticalRun);
    var s2 := Critically(cfg, s1, input);
    CompactorKeepsTurn(s2, Proactive, input.tokens, input.proactiveRun);
    RenewalIsSilent(s);
  }

  lemma RenewalIsSilent(s: State)
    ensures Promises(Renew(s).history) == Promises(s.history)
  {
  }

  /** How often the model was told, on a request without tools, that the window would be renewed. */
  function Promises(h: Trail<Event>): nat {
    if h.Start? then 0 else Promises(h.past) + if h.last == Requested(false, WillRenew) then 1 else 0
  }

  lemma RequestPromises(cfg: Config, s: State, input: Input, advice: Advice)
    requires s.toolRound < cfg.rounds
    ensures Promises(RequestPhase(cfg, s, input, advice).s.history)
            == Promises(s.history) + if advice.WillRenew? && !ToolsOn(cfg, s) then 1 else 0
  {
    hide Stuck.HandlerAfter, Stuck.ActionFor, Stuck.RoundsSinceMutation, FailedOver, ToolsOn, TextPhase,
      OverflowPhase, ReplyPhase;
    var sent := Sent(cfg, s, input, advice);
    match input.stream {
      case Overflowed => OverflowPromisesNothing(cfg, sent, input, s.triedFallback);
      case Errored =>
      case Replied(r) =>
        ReplyPromisesNothing(cfg, sent, input, r, ToolsOn(cfg, s), s.toolRound == cfg.rounds - 1, s.handler.forceText);
    }
  }

  lemma OverflowPromisesNothing(cfg: Config, s: State, input: Input, triedBefore: bool)
    ensures Promises(OverflowPhase(cfg, s, input, triedBefore).s.history) == Promises(s.history)
  {
  }

  lemma ReplyPromisesNothing(cfg: Config, s: State, input: Input, r: Reply, tools: bool, forced: bool, loopBreak: bool)
    ensures Promises(ReplyPhase(cfg, s, input, r, tools, forced, loopBreak).s.history) == Promises(s.history)
  {
    hide TextPhase, ToolPhase;
    TextPromisesNothing(cfg, s, input, r, tools, forced, loopBreak);
    ToolsPromiseNothing(s, r, tools);
  }

  lemma ToolsPromiseNothing(s: State, r: Reply, tools: bool)
    ensures Promises(ToolPhase(s, r, tools).s.history) == Promises(s.history)
  {
    hide ToolPhase;
    ToolTrace(s, r, tools);
  }

  lemma TextPromisesNothing(cfg: Config, s: State, input: Input, r: Reply, tools: bool, forced: bool, loopBreak: bool)
    ensures Promises(TextPhase(cfg, s, input, r, tools, forced, loopBreak).s.history) == Promises(s.history)
  {
    hide TextPhase;
    TextTrace(cfg, s, input, r, tools, forced, loopBreak);
  }

  /** At the end of a window the advice and the tools agree exactly when no renewal is left to promise. */
  lemma WindowEndAdvice(cfg: Config, s: State)
    requires s.toolRound + 1 == cfg.rounds
    ensures !ToolsOn(cfg, s)
    ensures AdviceFor(cfg, s) == (if s.granted < cfg.renewals then WillRenew else LastRound)
  {
  }

  /** The guard under which the promise of a renewal goes out without tools: the pass reaches its request with a
      renewal left, in the window's last round because no tool ran in it or the renewal was refused, or in the answer
      a loop break demands with two rounds to go. */
  predicate PromisesInVain(cfg: Config, s: State, input: Input) {
    && AtRequest(cfg, s, input).Some? && s.granted < cfg.renewals
    && (|| (s.toolRound + 1 == cfg.rounds && (!s.windowDidTools || input.renewalRefused))
        || (s.handler.forceText && s.toolRound + 2 >= cfg.rounds))
  }

  lemma PassPromisesExactly(cfg: Config, s: State, input: Input)
    requires s.toolRound < cfg.rounds
    ensures Promises(Iterate(cfg, s, input).s.history) ==
            Promises(s.history) + if PromisesInVain(cfg, s, input) then 1 else 0
  {
    hide Iterate, RequestPhase, Promises;
    RequestReached(cfg, s, input);
    if AtRequest(cfg, s, input).Some? {
      var at := AtRequest(cfg, s, input).value;
      RequestPromises(cfg, at, input, AdviceFor(cfg, s));
      if s.toolRound + 1 == cfg.rounds {
        WindowEndAdvice(cfg, s);
      }
    }
  }

  ghost predicate PromisesInVainAt(cfg: Config, oracle: Oracle, k: nat) {
    !Halted(cfg, After(cfg, oracle, k)) && PromisesInVain(cfg, After(cfg, oracle, k).s, oracle(k))
  }

  /** Over every run, a renewal is promised without tools exactly in the passes under that guard. */
  lemma {:induction false} PromisedInVainExactly(cfg: Config, oracle: Oracle, n: nat)
    ensures Promises(After(cfg, oracle, n).s.history) > 0 <==>
            exists k: nat :: k < n && PromisesInVainAt(cfg, oracle, k)
  {
    hide Iterate, PromisesInVain, AtRequest;
    if n > 0 {
      PromisedInVainExactly(cfg, oracle, n - 1);
      var p := After(cfg, oracle, n - 1);
      if k: nat :| k < n && PromisesInVainAt(cfg, oracle, k) {
        assert k == n - 1 || (k < n - 1 && PromisesInVainAt(cfg, oracle, k));
      }
      assert PromisesInVainAt(cfg, oracle, n - 1) ==> n - 1 < n;
      if !Halted(cfg, p) {
        PassPromisesExactly(cfg, p.s, oracle(n - 1));
      }
    }
  }

  /** It does happen: the first request of a one-round turn with a renewal left is sent without tools
      and with the promise that the window will be renewed. */
  lemma PromisedRenewalWithoutTools(routing: Routing)
    ensures var cfg := Config(1, 1, false, 0, 1.0);
            var input := Input(Enter, false, routing, routing, 0, 1, false, true, Failed, Failed, Failed, false,
              Errored, false);
            After(cfg, _ => input, 1).s.history == Then(Start, Requested(false, WillRenew))
  {
    var cfg := Config(1, 1, false, 0, 1.0);
    var input := Input(Enter, false, routing, routing, 0, 1, false, true, Failed, Failed, Failed, false, Errored,
      false);
    assert After(cfg, _ => input, 0) == Go(BEGIN);
    assert !IsCritical(cfg, input);
  }

  // ---------------------------------------------------------------------
  // The compactor's refusal
  // ---------------------------------------------------------------------

  /** From a state with a refusal a pass clears it exactly when its request overflows, the compactor can still help, the
      model has not changed, and the compactor does not refuse again; the other two ways to the compactor are closed. */
  lemma RefusalClearedExactly(cfg: Config, s: State, input: Input)
    requires s.toolRound < cfg.rounds && s.budget.refused
    ensures !Iterate(cfg, s, input).s.budget.refused <==>
            && input.gate.Enter? && !(RenewalDue(cfg, s) && !input.renewalRefused)
            && input.stream.Overflowed? && Observe(s.budget, input.tokens).CanHelpWithOverflow()
            && input.routingAfter.Effective(FailedOver(cfg, s, input)) == input.routing.Effective(s.triedFallback)
            && !input.overflowRun.Refused?
    ensures AtRequest(cfg, s, input).Some? ==> AtRequest(cfg, s, input).value == ObserveCompile(s, input.tokens)
  {
    hide Iterate, RequestPhase, Promises, IsCritical, NoProgress;
    RequestReached(cfg, s, input);
    ObserveKeepsRefusal(s, input.tokens);
    if AtRequest(cfg, s, input).Some? {
      RequestKeepsRefusal(cfg, AtRequest(cfg, s, input).value, input, AdviceFor(cfg, s));
    } else {
      NoRequestKeepsRefusal(cfg, s, input);
    }
  }

  lemma ObserveKeepsRefusal(s: State, tokens: nat)
    ensures ObserveCompile(s, tokens).budget == Observe(s.budget, tokens)
    ensures Observe(s.budget, tokens).refused == s.budget.refused &&
            Observe(s.budget, tokens).attempts == s.budget.attempts
    ensures ObserveCompile(s, tokens).triedFallback == s.triedFallback
  {
  }

  lemma NoRequestKeepsRefusal(cfg: Config, s: State, input: Input)
    requires s.toolRound < cfg.rounds && s.budget.refused && AtRequest(cfg, s, input).None?
    ensures Iterate(cfg, s, input).s.budget.refused &&
            (!input.gate.Enter? || (RenewalDue(cfg, s) && !input.renewalRefused))
  {
    hide RequestPhase, IsCritical, NoProgress;
  }

  lemma RequestKeepsRefusal(cfg: Config, s: State, input: Input, advice: Advice)
    requires s.toolRound < cfg.rounds && s.budget.refused
    ensures !RequestPhase(cfg, s, input, advice).s.budget.refused <==>
            && input.stream.Overflowed? && s.budget.CanHelpWithOverflow()
            && input.routingAfter.Effective(FailedOver(cfg, s, input)) == input.routing.Effective(s.triedFallback)
            && !input.overflowRun.Refused?
  {
    hide FailedOver, ToolsOn, ToolPhase, TextPhase, Routing.Effective;
    if input.stream.Replied? {
      var r := input.stream.reply;
      var forced := s.toolRound == cfg.rounds - 1;
      ReplyKeepsBudget(cfg, Sent(cfg, s, input, advice), input, r, ToolsOn(cfg, s), forced, s.handler.forceText);
    }
  }

  lemma ReplyKeepsBudget(cfg: Config, s: State, input: Input, r: Reply, tools: bool, forced: bool, loopBreak: bool)
    ensures ReplyPhase(cfg, s, input, r, tools, forced, loopBreak).s.budget == s.budget
  {
    hide TextPhase, ToolPhase;
    TextTrace(cfg, s, input, r, tools, forced, loopBreak);
    ToolTrace(s, r, tools);
  }

  /** The refusal is not sticky: an overflow refused in one pass and compacted in the next. */
  lemma RefusalIsForgotten()
    ensures var cfg := Config(2, 0, false, 0, 1.0);
            var first := Input(Enter, false, Named(""), Named(""), 100, 1000, false, true, Failed, Failed, Refused,
              false, Overflowed, false);
            var oracle: Oracle := n => if n == 0 then first else first.(tokens := 10, overflowRun := Compacted);
            After(cfg, oracle, 1).s.budget.refused && !After(cfg, oracle, 2).s.budget.refused
  {
    var cfg := Config(2, 0, false, 0, 1.0);
    var first := Input(Enter, false, Named(""), Named(""), 100, 1000, false, true, Failed, Failed, Refused, false,
      Overflowed, false);
    var oracle: Oracle := n => if n == 0 then first else first.(tokens := 10, overflowRun := Compacted);
    assert After(cfg, oracle, 0) == Go(BEGIN) && !IsCritical(cfg, first);
    var s1 := After(cfg, oracle, 1).s;
    assert After(cfg, oracle, 1) == Go(s1) && s1.budget == Budget(0, Some(100), true, false, true) && s1.toolRound == 0;
    RefusalClearedExactly(cfg, s1, oracle(1));
  }

  // ---------------------------------------------------------------------
  // The loop itself
  // ---------------------------------------------------------------------

  /** The controllers' fields are the turn's budget, handler and notes. The loop keeps the nudge count itself. */
  ghost predicate Synced(s: State, compaction: CompactionController, stuck: Stuck.StuckDetector, nudges: nat)
    reads compaction, stuck
  {
    stuck.Valid() && compaction.State() == s.budget && stuck.Handling(nudges) == s.handler && stuck.log == s.notes
  }

  lemma ReportExactly(end: Step)
    ensures var report := ReportOf(end);
            && report.last == end.s && (report.reason.None? <==> end == Stop(end.s, Raised))
            && (end.Go? ==> report.reason == Some(RoundCeiling))
            && (end.Stop? && !end.exit.Raised? ==> report.reason == Some(end.exit.reason))
            && (report.finalAnswer <==>
                  end.s.didTools && (end.Go? || (end.exit.Broke? && end.exit.reason != CompactionFailed)))
  {
  }

  /** The loop of one turn, for an oracle that ends its switching of the model under a stream at some pass. */
  method RunAgent(cfg: Config, oracle: Oracle, ghost from: nat) returns (passes: nat, report: Report)
    requires cfg.Valid() && NoneFrom(cfg, oracle, from)
    ensures Halted(cfg, After(cfg, oracle, passes)) && report == ReportOf(After(cfg, oracle, passes))
    ensures var end := After(cfg, oracle, passes);
            && report.last == end.s && (report.reason.None? <==> end == Stop(end.s, Raised))
            && (end.Go? ==> report.reason == Some(RoundCeiling))
            && (end.Stop? && !end.exit.Raised? ==> report.reason == Some(end.exit.reason))
            && (report.finalAnswer <==>
                  end.s.didTools && (end.Go? || (end.exit.Broke? && end.exit.reason != CompactionFailed)))
  {
    hide Iterate, Synced, ReportOf;
    var compaction := new CompactionController();
    var stuck := new Stuck.StuckDetector();
    var s, nudges := Begin(compaction, stuck);
    passes := 0;
    while s.toolRound < cfg.rounds
      invariant Synced(s, compaction, stuck, nudges)
      invariant After(cfg, oracle, passes) == Go(s) && s.phase == Active && Inv(cfg, s)
      decreases
        Max(0, from - passes), cfg.renewals - s.granted, cfg.rounds - s.toolRound, !s.handler.loopBreakUsed,
        Stuck.NUDGE_LIMIT - s.handler.nudges, REREAD_LIMIT - s.rereads, !s.triedFallback,
        ATTEMPT_LIMIT - s.budget.attempts, !s.budget.awaiting, Pending(s.budget)
    {
      var input := oracle(passes);
      PassKept(cfg, s, input);
      assert passes >= from ==> !TurnsBackAt(cfg, oracle, passes);
      var step;
      step, nudges := Pass(cfg, s, input, compaction, stuck, nudges);
      passes := passes + 1;
      if step.Stop? {
        ReportExactly(step);
        return passes, ReportOf(step);
      }
      s := step.s;
    }
    ReportExactly(Go(s));
    report := ReportOf(Go(s));
  }

  method Begin(compaction: CompactionController, stuck: Stuck.StuckDetector) returns (s: State, nudges: nat)
    requires compaction.State() == FRESH && stuck.Valid() && stuck.log == Start && stuck.Handling(0) == Stuck.CALM
    ensures s == BEGIN && Synced(s, compaction, stuck, nudges)
  {
    s, nudges := BEGIN, 0;
  }

  /** One pass: the gates and the renewal, then the compile. */
  method Pass(cfg: Config, head: State, input: Input, compaction: CompactionController, stuck: Stuck.StuckDetector,
      nudgesUsed: nat)
      returns (step: Step, nudges: nat)
    requires head.toolRound < cfg.rounds && Synced(head, compaction, stuck, nudgesUsed)
    modifies compaction, stuck
    ensures step == Iterate(cfg, head, input) && Synced(step.s, compaction, stuck, nudges)
  {
    hide CompilePhase;
    var s := head;
    nudges := nudgesUsed;
    if input.gate.Return? {
      return Stop(s, Returned(Cancelled)), nudges;
    }
    if input.gate.Break? {
      return Stop(s, Broke(BudgetExhausted)), nudges;
    }
    if s.toolRound >= cfg.rounds - 1 && s.windowDidTools && cfg.renewals - s.granted > 0 && !input.renewalRefused {
      return Go(s.(granted := s.granted + 1, toolRound := 0, windowDidTools := false).Log(Renewed)), nudges;
    }
    step, nudges := CompileAndCompact(cfg, s, input, compaction, stuck, nudges);
  }

  /** The size of a compile, in the controller and in the turn's state. */
  method Measure(head: State, tokens: nat, compaction: CompactionController) returns (s: State)
    requires compaction.State() == head.budget
    modifies compaction
    ensures s == ObserveCompile(head, tokens) && compaction.State() == s.budget
    ensures s.handler == head.handler && s.notes == head.notes && s.toolRound == head.toolRound
  {
    s := head;
    if compaction.awaitingMeasure && compaction.tokensBeforeLast.Some? {
      s := s.Log(Measured(compaction.tokensBeforeLast.value, tokens));
    }
    compaction.ObserveSize(tokens);
    s := s.(budget := compaction.State());
  }

  /** The compile and its measurement; then, over the critical threshold, a forced compaction. */
  method CompileAndCompact(cfg: Config, head: State, input: Input, compaction: CompactionController,
        stuck: Stuck.StuckDetector, nudgesUsed: nat)
      returns (step: Step, nudges: nat)
    requires head.toolRound < cfg.rounds && Synced(head, compaction, stuck, nudgesUsed)
    modifies compaction, stuck
    ensures step == CompilePhase(cfg, head, input) && Synced(step.s, compaction, stuck, nudges)
  {
    hide ProactivePhase, CriticalPhase, ObserveCompile, AdviceFor, IsCritical, Stuck.StuckDetector.Valid;
    var advice := AdviceFor(cfg, head);
    var s := Measure(head, input.tokens, compaction);
    if IsCritical(cfg, input) {
      step, nudges := CompactCritical(cfg, s, input, advice, compaction, stuck, nudgesUsed);
    } else {
      step, nudges := CompactEarly(cfg, s, input, advice, compaction, stuck, nudgesUsed);
    }
  }

  /** One run of the compactor, in the controller and in the turn's state. */
  method Compact(before: State, path: Path, tokens: nat, outcome: Outcome, compaction: CompactionController)
      returns (s: State, compacted: bool)
    requires compaction.State() == before.budget
    modifies compaction
    ensures s == RunCompactor(before, path, tokens, outcome) && compaction.State() == s.budget
    ensures s.handler == before.handler && s.notes == before.notes && s.toolRound == before.toolRound
    ensures compacted == outcome.Compacted?
  {
    var phase;
    compacted, phase := compaction.RunOnce(tokens, outcome, !path.Critical?);
    s := before.(budget := compaction.State(), phase := phase).Log(Compaction(path, outcome));
  }

  method CompactCritical(cfg: Config, before: State, input: Input, advice: Advice, compaction: CompactionController,
        stuck: Stuck.StuckDetector, nudgesUsed: nat)
      returns (step: Step, nudges: nat)
    requires before.toolRound < cfg.rounds && Synced(before, compaction, stuck, nudgesUsed)
    modifies compaction, stuck
    ensures step == CriticalPhase(cfg, before, input, advice) && Synced(step.s, compaction, stuck, nudges)
  {
    hide ProactivePhase, RunCompactor, Stuck.StuckDetector.Valid;
    var s := before;
    nudges := nudgesUsed;
    if compaction.attempts < ATTEMPT_LIMIT && !compaction.stalled && !compaction.refused {
      var compacted;
      s, compacted := Compact(s, Critical, input.tokens, input.criticalRun, compaction);
      if compacted {
        return Go(s), nudges;
      }
    }
    if !compaction.refused {
      return Stop(s, Broke(CompactionFailed)), nudges;
    }
    step, nudges := CompactEarly(cfg, s, input, advice, compaction, stuck, nudges);
  }

  method CompactEarly(cfg: Config, before: State, input: Input, advice: Advice, compaction: CompactionController,
        stuck: Stuck.StuckDetector, nudgesUsed: nat)
      returns (step: Step, nudges: nat)
    requires before.toolRound < cfg.rounds && Synced(before, compaction, stuck, nudgesUsed)
    modifies compaction, stuck
    ensures step == ProactivePhase(cfg, before, input, advice) && Synced(step.s, compaction, stuck, nudges)
  {
    hide RequestPhase, RunCompactor, Stuck.StuckDetector.Valid;
    var s := before;
    if input.needsCompaction && compaction.attempts == 0 && !compaction.refused {
      var compacted;
      s, compacted := Compact(s, Proactive, input.tokens, input.proactiveRun, compaction);
    }
    step, nudges := SendRequest(cfg, s, input, advice, compaction, stuck, nudgesUsed);
  }

  method SendRequest(cfg: Config, before: State, input: Input, advice: Advice, compaction: CompactionController,
        stuck: Stuck.StuckDetector, nudgesUsed: nat)
      returns (step: Step, nudges: nat)
    requires before.toolRound < cfg.rounds && Synced(before, compaction, stuck, nudgesUsed)
    modifies compaction, stuck
    ensures step == RequestPhase(cfg, before, input, advice) && Synced(step.s, compaction, stuck, nudges)
  {
    hide ReplyPhase, OverflowPhase, FailedOver, ToolsOn, Sent, Stuck.StuckDetector.Valid;
    nudges := nudgesUsed;
    var s, tools := Dispatch(cfg, before, input, advice, stuck, nudgesUsed);
    match input.stream {
      case Overflowed =>
        step := RetryAfterOverflow(cfg, s, input, before.triedFallback, compaction);
      case Errored =>
        step := Stop(s, Returned(StreamFailed));
      case Replied(r) =>
        var forced := before.toolRound == cfg.rounds - 1;
        step, nudges := TakeReply(cfg, s, input, r, tools, forced, before.handler.forceText, stuck, nudges);
    }
  }

  /** Takes the tools away where the round demands it, and hands the request to the ladder. */
  method Dispatch(cfg: Config, before: State, input: Input, advice: Advice, stuck: Stuck.StuckDetector, nudges: nat)
      returns (s: State, tools: bool)
    requires before.toolRound < cfg.rounds
    requires stuck.Valid() && stuck.Handling(nudges) == before.handler && stuck.log == before.notes
    modifies stuck`forceText
    ensures s == Sent(cfg, before, input, advice) && tools == ToolsOn(cfg, before)
    ensures stuck.Valid() && stuck.Handling(nudges) == s.handler && stuck.log == s.notes && s.budget == before.budget
  {
    hide FailedOver, Stuck.StuckDetector.Valid, Sent, ToolsOn;
    SentIs(cfg, before, input, advice);
    var forced := before.toolRound == cfg.rounds - 1;
    var loopBreak := stuck.forceText;
    stuck.forceText := false;
    tools := !(forced || loopBreak);
    s := before.(handler := stuck.Handling(nudges), triedFallback := FailedOver(cfg, before, input))
      .Log(Requested(tools, advice));
  }

  lemma SentIs(cfg: Config, s: State, input: Input, advice: Advice)
    requires s.toolRound < cfg.rounds
    ensures Sent(cfg, s, input, advice) ==
            s.(handler := s.handler.(forceText := false), triedFallback := FailedOver(cfg, s, input),
               history := Then(s.history, Requested(ToolsOn(cfg, s), advice)))
    ensures ToolsOn(cfg, s) <==> !(s.toolRound == cfg.rounds - 1 || s.handler.forceText)
  {
    hide FailedOver;
  }

  method RetryAfterOverflow(cfg: Config, s: State, input: Input, triedBefore: bool, compaction: CompactionController)
      returns (step: Step)
    requires compaction.State() == s.budget
    modifies compaction
    ensures step == OverflowPhase(cfg, s, input, triedBefore) && compaction.State() == step.s.budget
    ensures step.s.handler == s.handler && step.s.notes == s.notes
  {
    if compaction.attempts >= ATTEMPT_LIMIT || compaction.stalled {
      return Stop(s, Returned(StreamFailed));
    }
    if input.routingAfter.Effective(s.triedFallback) != input.routing.Effective(triedBefore) {
      return Go(s);
    }
    var after, _ := Compact(s, Overflow, input.tokens, input.overflowRun, compaction);
    step := Go(after);
  }

  method TakeReply(cfg: Config, s: State, input: Input, r: Reply, tools: bool, forced: bool, loopBreak: bool,
        stuck: Stuck.StuckDetector, nudgesUsed: nat)
      returns (step: Step, nudges: nat)
    requires stuck.Valid() && stuck.Handling(nudgesUsed) == s.handler && stuck.log == s.notes
    modifies stuck
    ensures step == ReplyPhase(cfg, s, input, r, tools, forced, loopBreak) && step.s.budget == s.budget
    ensures stuck.Valid() && stuck.Handling(nudges) == step.s.handler && stuck.log == step.s.notes
  {
    hide ToolPhase, TextPhase, Stuck.StuckDetector.Valid;
    nudges := nudgesUsed;
    if r.lengthCut && !r.calls && r.content && s.lengthCount < LENGTH_CONTINUATION_LIMIT {
      step := Go(s.(lengthCount := s.lengthCount + 1).Consume(tools, CutShort));
    } else if r.calls || (r.content && tools && r.salvageable) {
      step, nudges := RunTools(s, r, tools, stuck, nudges);
    } else {
      step := TextPhase(cfg, s, input, r, tools, forced, loopBreak);
      TextTrace(cfg, s, input, r, tools, forced, loopBreak);
    }
  }

  method RunTools(before: State, r: Reply, tools: bool, stuck: Stuck.StuckDetector, nudgesUsed: nat)
      returns (step: Step, nudges: nat)
    requires stuck.Valid() && stuck.Handling(nudgesUsed) == before.handler && stuck.log == before.notes
    modifies stuck
    ensures step == ToolPhase(before, r, tools) && step.s.budget == before.budget
    ensures stuck.Valid() && stuck.Handling(nudges) == step.s.handler && stuck.log == step.s.notes
  {
    hide Judged, Stuck.StuckDetector.Valid, Stuck.HandlerAfter, Stuck.ActionFor, Stuck.Extend,
      Stuck.RoundsSinceMutation;
    var s, action;
    s, action, nudges := Judge(before, r, stuck, nudgesUsed);
    match action {
      case NudgeAndRetry =>
        step := Go(s.Log(Discarded(!before.handler.loopBreakUsed && stuck.loopBreakUsed)));
      case StopLoop =>
        step := Stop(s, Broke(StuckLoop));
      case Proceed =>
        if r.raises {
          return Stop(s, Raised), nudges;
        }
        stuck.RecordResults(r.results);
        s := s.(notes := Stuck.Extend(s.notes, r.results));
        step := if r.endsTurn then Stop(s, Returned(Suspended)) else Go(s.Consume(tools, RanTools));
    }
  }

  method Judge(before: State, r: Reply, stuck: Stuck.StuckDetector, nudgesUsed: nat)
      returns (s: State, action: Stuck.Action, nudges: nat)
    requires stuck.Valid() && stuck.Handling(nudgesUsed) == before.handler && stuck.log == before.notes
    modifies stuck
    ensures s == Judged(before, r) && action == Stuck.ActionFor(before.handler, ReadingOf(before, r))
    ensures !before.handler.loopBreakUsed && stuck.loopBreakUsed <==>
            Stuck.BreaksLoop(before.handler, ReadingOf(before, r))
    ensures s.budget == before.budget
    ensures stuck.Valid() && stuck.Handling(nudges) == s.handler && stuck.log == s.notes
  {
    hide Stuck.StuckDetector.Valid, Stuck.HandlerAfter, Stuck.ActionFor, Stuck.RoundsSinceMutation;
    s := before.(didTools := true, windowDidTools := true, notes := Then(before.notes, Stuck.Round(r.sig, r.poll)));
    Stuck.LoopBreakIsUsedUp(before.handler, ReadingOf(before, r));
    stuck.EvaluateCycle(r.sig, r.poll);
    action, nudges := stuck.HandleSignals(r.repeats, r.askUser, r.recoveryMove, nudgesUsed);
    s := s.(handler := stuck.Handling(nudges)).Log(Proposed);
  }
}
