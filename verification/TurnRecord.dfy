/** core/agent.py, run_agent: what the turn's own variables mean, read off its history and off the oracle's answers. */
module TurnRecord {
  import opened Common
  import opened Compaction
  import opened TurnLoop
  import Stuck

  // ---------------------------------------------------------------------
  // What a history says
  // ---------------------------------------------------------------------

  /** Rounds consumed since the last renewal. */
  function WindowIndex(h: Trail<Event>): nat {
    if h.Start? || h.last.Renewed? then 0 else WindowIndex(h.past) + if h.last.Consumed? then 1 else 0
  }

  predicate ProposedInWindow(h: Trail<Event>) {
    h.Then? && !h.last.Renewed? && (h.last.Proposed? || ProposedInWindow(h.past))
  }

  predicate ProposedEver(h: Trail<Event>) {
    h.Then? && (h.last.Proposed? || ProposedEver(h.past))
  }

  /** The last thing the model did was to be cut off as a loop; no request has gone out since. */
  predicate AfterLoopBreak(h: Trail<Event>) {
    h.Then? && if h.last.Discarded? then h.last.loopBreak else !h.last.Requested? && AfterLoopBreak(h.past)
  }

  /** The last request carried tools. */
  predicate Armed(h: Trail<Event>) {
    h.Then? && if h.last.Requested? then h.last.tools else Armed(h.past)
  }

  function SpentOn(h: Trail<Event>, why: Why): nat {
    if h.Start? then 0 else SpentOn(h.past, why) + if h.last.Consumed? && h.last.why == why then 1 else 0
  }

  function Rereads(h: Trail<Event>): nat {
    if h.Start? then 0 else Rereads(h.past) + if h.last.Reread? then 1 else 0
  }

  /** A request carries tools exactly when it is neither in the window's last round nor the answer a loop break
      demands, and is told exactly what the window has left. A renewal comes in the last round of a window in which
      calls were proposed, while the allowance lasts. */
  predicate IsTrue(cfg: Config, past: Trail<Event>, e: Event) {
    match e
    case Requested(tools, advice) =>
      var left, renewable := cfg.rounds - WindowIndex(past), Renewals(past) < cfg.renewals;
      && left >= 1 && (tools <==> left > 1 && !AfterLoopBreak(past))
      && (advice.WillRenew? <==> renewable && left <= 2)
      && (advice.LastRound? <==> !renewable && left == 1)
      && (advice.NextRoundHasNoTools? <==> !renewable && left == 2)
      && (advice.LimitNear? <==> !renewable && 3 <= left <= 5)
    case Renewed => WindowIndex(past) + 1 >= cfg.rounds && ProposedInWindow(past) && Renewals(past) < cfg.renewals
    case Consumed(tools, why) => tools == Armed(past)
    case _ => true
  }

  predicate AllTrue(cfg: Config, h: Trail<Event>) {
    h.Then? ==> AllTrue(cfg, h.past) && IsTrue(cfg, h.past, h.last)
  }

  /** The turn's variables are what its history says, and every extra round stays within its allowance. */
  predicate Mirrors(cfg: Config, s: State) {
    && CountsMirror(s) && FlagsMirror(s) && ExtrasMirror(cfg, s) && AllTrue(cfg, s.history)
  }

  predicate CountsMirror(s: State) {
    s.toolRound == WindowIndex(s.history) && s.granted == Renewals(s.history) && s.spent == ConsumedRounds(s.history)
  }

  predicate FlagsMirror(s: State) {
    && s.windowDidTools == ProposedInWindow(s.history) && s.didTools == ProposedEver(s.history)
    && s.handler.forceText == AfterLoopBreak(s.history)
  }

  predicate ExtrasMirror(cfg: Config, s: State) {
    && s.lengthCount == SpentOn(s.history, CutShort) <= 2
    && SpentOn(s.history, ClaimedAction) == (if s.actionChecked then 1 else 0)
    && SpentOn(s.history, BadReferences) == (if s.sourcesChecked then 1 else 0)
    && s.followups == SpentOn(s.history, AnnouncedWork) <= (if cfg.followupEnabled then cfg.followupCap else 0)
    && s.rereads == Rereads(s.history) <= 1
  }

  // ---------------------------------------------------------------------
  // Every pass keeps that
  // ---------------------------------------------------------------------

  lemma QuietMirrors(cfg: Config, s: State, e: Event, budget: Budget, phase: Phase)
    requires Mirrors(cfg, s) && (e.Measured? || e.Compaction?)
    ensures var t := s.(budget := budget, phase := phase, history := Then(s.history, e));
            Mirrors(cfg, t) && (Armed(t.history) <==> Armed(s.history))
  {
  }

  lemma CompactorMirrors(cfg: Config, s: State, path: Path, tokens: nat, outcome: Outcome)
    requires Mirrors(cfg, s)
    ensures Mirrors(cfg, RunCompactor(s, path, tokens, outcome))
    ensures Mirrors(cfg, ObserveCompile(s, tokens))
  {
    hide Mirrors, NoProgress;
    QuietMirrors(cfg, s, Compaction(path, outcome), Run(s.budget, tokens, outcome),
      PhaseAfter(outcome, !path.Critical?));
    var measured := Observe(s.budget, tokens);
    BudgetIsApart(cfg, s, measured);
    if s.budget.awaiting && s.budget.before.Some? {
      QuietMirrors(cfg, s, Measured(s.budget.before.value, tokens), measured, s.phase);
    }
  }

  lemma BudgetIsApart(cfg: Config, s: State, budget: Budget)
    requires Mirrors(cfg, s)
    ensures Mirrors(cfg, s.(budget := budget))
  {
  }

  lemma RenewMirrors(cfg: Config, s: State)
    requires Mirrors(cfg, s) && RenewalDue(cfg, s)
    ensures Mirrors(cfg, Renew(s))
  {
  }

  lemma SentMirrors(cfg: Config, s: State, input: Input, advice: Advice)
    requires Mirrors(cfg, s) && s.toolRound < cfg.rounds && advice == AdviceFor(cfg, s)
    ensures var t := Sent(cfg, s, input, advice);
            Mirrors(cfg, t) && (Armed(t.history) <==> ToolsOn(cfg, s)) && !t.handler.forceText
  {
    hide FailedOver;
  }

  lemma ConsumedMirrors(cfg: Config, s: State, t: State, tools: bool, why: Why)
    requires Mirrors(cfg, s) && (tools <==> Armed(s.history)) && s.handler.forceText == t.handler.forceText
    requires t == s.(lengthCount := t.lengthCount, actionChecked := t.actionChecked, sourcesChecked := t.sourcesChecked,
             followups := t.followups, handler := t.handler, notes := t.notes)
    requires t.lengthCount == s.lengthCount + (if why.CutShort? then 1 else 0) <= 2
    requires t.followups == s.followups + (if why.AnnouncedWork? then 1 else 0)
             <= (if cfg.followupEnabled then cfg.followupCap else 0)
    requires if why.ClaimedAction? then !s.actionChecked && t.actionChecked else s.actionChecked == t.actionChecked
    requires if why.BadReferences? then !s.sourcesChecked && t.sourcesChecked else s.sourcesChecked == t.sourcesChecked
    ensures Mirrors(cfg, t.Consume(tools, why))
  {
  }

  lemma TextMirrors(cfg: Config, s: State, input: Input, r: Reply, tools: bool, forced: bool, loopBreak: bool)
    requires Mirrors(cfg, s) && (tools <==> Armed(s.history))
    ensures Mirrors(cfg, TextPhase(cfg, s, input, r, tools, forced, loopBreak).s)
  {
    hide Mirrors, Armed, FollowUp, Marked;
    var why := FollowUp(cfg, s, input, r, tools);
    if why.Some? {
      FollowsWithin(cfg, s, input, r, tools);
      MarkedOnly(s, why.value);
      MarkedAs(s, why.value);
      ConsumedMirrors(cfg, s, Marked(s, why.value), tools, why.value);
    } else if s.rereads < REREAD_LIMIT {
      RereadMirrors(cfg, s);
    }
  }

  lemma MarkedAs(s: State, why: Why)
    ensures var t := Marked(s, why);
            && t.followups == s.followups + (if why.AnnouncedWork? then 1 else 0)
            && t.actionChecked == (s.actionChecked || why.ClaimedAction?)
            && t.sourcesChecked == (s.sourcesChecked || why.BadReferences?)
  {
  }

  lemma RereadMirrors(cfg: Config, s: State)
    requires Mirrors(cfg, s) && s.rereads < 1
    ensures Mirrors(cfg, s.(rereads := s.rereads + 1).Log(Reread))
  {
  }

  lemma FollowsWithin(cfg: Config, s: State, input: Input, r: Reply, tools: bool)
    requires Mirrors(cfg, s)
    ensures s.lengthCount <= 2 && s.followups <= (if cfg.followupEnabled then cfg.followupCap else 0)
    ensures var why := FollowUp(cfg, s, input, r, tools);
            && (why == Some(ClaimedAction) ==> !s.actionChecked)
            && (why == Some(BadReferences) ==> !s.sourcesChecked)
            && (why == Some(AnnouncedWork) ==> cfg.followupEnabled && s.followups < cfg.followupCap)
  {
  }

  /** A round that proposed calls, before the detector's verdict on it is carried out. */
  lemma ProposedMirrors(cfg: Config, s: State, notes: Trail<Stuck.Note>, handler: Stuck.Handler)
    requires Mirrors(cfg, s) && !s.handler.forceText && !handler.forceText
    ensures var t := s.(didTools := true, windowDidTools := true, notes := notes, handler := handler).Log(Proposed);
            Mirrors(cfg, t) && (Armed(t.history) <==> Armed(s.history))
  {
  }

  lemma DiscardedMirrors(cfg: Config, s: State, loopBreak: bool)
    requires Mirrors(cfg, s.(handler := s.handler.(forceText := false))) && s.handler.forceText == loopBreak
    ensures Mirrors(cfg, s.Log(Discarded(loopBreak)))
  {
  }

  lemma NotesAreApart(cfg: Config, s: State, notes: Trail<Stuck.Note>)
    requires Mirrors(cfg, s)
    ensures Mirrors(cfg, s.(notes := notes))
  {
  }

  lemma ToolMirrors(cfg: Config, s: State, r: Reply, tools: bool)
    requires Mirrors(cfg, s) && (tools <==> Armed(s.history)) && !s.handler.forceText
    ensures Mirrors(cfg, ToolPhase(s, r, tools).s)
  {
    hide Mirrors, Armed, Stuck.Extend, Stuck.RoundsSinceMutation;
    var reading := ReadingOf(s, r);
    var handler := Stuck.HandlerAfter(s.handler, reading);
    var notes := Then(s.notes, Stuck.Round(r.sig, r.poll));
    assert handler.forceText <==> Stuck.BreaksLoop(s.handler, reading);
    ProposedMirrors(cfg, s, notes, handler.(forceText := false));
    var s1 := Judged(s, r);
    var calm := s.(didTools := true, windowDidTools := true, notes := notes, handler := handler.(forceText := false))
      .Log(Proposed);
    assert calm == s1.(handler := s1.handler.(forceText := false));
    if Stuck.ActionFor(s.handler, reading).NudgeAndRetry? {
      DiscardedMirrors(cfg, s1, Stuck.BreaksLoop(s.handler, reading));
    } else {
      assert calm == s1;
      NotesAreApart(cfg, s1, Stuck.Extend(s1.notes, r.results));
      ExtrasWithin(cfg, s1);
      ConsumedMirrors(cfg, s1.(notes := Stuck.Extend(s1.notes, r.results)),
        s1.(notes := Stuck.Extend(s1.notes, r.results)), tools, RanTools);
    }
  }

  lemma ExtrasWithin(cfg: Config, s: State)
    requires Mirrors(cfg, s)
    ensures s.lengthCount <= 2 && s.followups <= if cfg.followupEnabled then cfg.followupCap else 0
  {
  }

  lemma ReplyMirrors(cfg: Config, s: State, input: Input, r: Reply, tools: bool, forced: bool, loopBreak: bool)
    requires Mirrors(cfg, s) && (tools <==> Armed(s.history)) && !s.handler.forceText
    ensures Mirrors(cfg, ReplyPhase(cfg, s, input, r, tools, forced, loopBreak).s)
  {
    hide Mirrors, Armed, ToolPhase, TextPhase;
    if r.lengthCut && !r.calls && r.content && s.lengthCount < LENGTH_CONTINUATION_LIMIT {
      ExtrasWithin(cfg, s);
      ConsumedMirrors(cfg, s, s.(lengthCount := s.lengthCount + 1), tools, CutShort);
    } else if r.calls || (r.content && tools && r.salvageable) {
      ToolMirrors(cfg, s, r, tools);
    } else {
      TextMirrors(cfg, s, input, r, tools, forced, loopBreak);
    }
  }

  lemma RequestMirrors(cfg: Config, s: State, input: Input, advice: Advice)
    requires Mirrors(cfg, s) && s.toolRound < cfg.rounds && advice == AdviceFor(cfg, s)
    ensures Mirrors(cfg, RequestPhase(cfg, s, input, advice).s)
  {
    hide Mirrors, Armed, ReplyPhase, FailedOver, AdviceFor, RunCompactor, Sent, ToolsOn, Routing.Effective;
    var sent := Sent(cfg, s, input, advice);
    SentMirrors(cfg, s, input, advice);
    match input.stream {
      case Overflowed => CompactorMirrors(cfg, sent, Overflow, input.tokens, input.overflowRun);
      case Errored =>
      case Replied(r) =>
        ReplyMirrors(cfg, sent, input, r, ToolsOn(cfg, s), s.toolRound == cfg.rounds - 1, s.handler.forceText);
    }
  }

  /** A pass that sends no request: it ends or renews at its head, or stops at the critical compaction. */
  lemma NoRequestMirrors(cfg: Config, s: State, input: Input)
    requires Mirrors(cfg, s) && s.toolRound < cfg.rounds && AtRequest(cfg, s, input).None?
    ensures Mirrors(cfg, Iterate(cfg, s, input).s)
  {
    hide Mirrors, RequestPhase, IsCritical, RunCompactor, ObserveCompile, AdviceFor, Renew, RenewalDue;
    if RenewalDue(cfg, s) {
      RenewMirrors(cfg, s);
    }
    CompactorMirrors(cfg, s, Critical, input.tokens, input.criticalRun);
    CompactorMirrors(cfg, ObserveCompile(s, input.tokens), Critical, input.tokens, input.criticalRun);
  }

  lemma AtRequestMirrors(cfg: Config, s: State, input: Input)
    requires Mirrors(cfg, s) && AtRequest(cfg, s, input).Some?
    ensures Mirrors(cfg, AtRequest(cfg, s, input).value)
  {
    hide Mirrors, IsCritical, RunCompactor, ObserveCompile, RenewalDue;
    var s1 := ObserveCompile(s, input.tokens);
    CompactorMirrors(cfg, s, Critical, input.tokens, input.criticalRun);
    CompactorMirrors(cfg, s1, Critical, input.tokens, input.criticalRun);
    CompactorMirrors(cfg, Critically(cfg, s1, input), Proactive, input.tokens, input.proactiveRun);
  }

  lemma PassMirrors(cfg: Config, s: State, input: Input)
    requires Mirrors(cfg, s) && s.toolRound < cfg.rounds
    ensures Mirrors(cfg, Iterate(cfg, s, input).s)
  {
    hide Mirrors, Iterate, RequestPhase, AtRequest, AdviceFor;
    RequestReached(cfg, s, input);
    if AtRequest(cfg, s, input).Some? {
      AtRequestMirrors(cfg, s, input);
      SameAdvice(cfg, s, AtRequest(cfg, s, input).value);
      RequestMirrors(cfg, AtRequest(cfg, s, input).value, input, AdviceFor(cfg, s));
    } else {
      NoRequestMirrors(cfg, s, input);
    }
  }

  lemma SameAdvice(cfg: Config, s: State, t: State)
    requires SameTurn(s, t) && s.toolRound < cfg.rounds
    ensures AdviceFor(cfg, s) == AdviceFor(cfg, t)
  {
  }

  /** In every state of every run the turn's variables are what its history says: the window and its renewals, the
      flags, and each kind of extra round within its allowance; and every request was sent, and every renewal granted,
      as that history demands. */
  lemma {:induction false} TurnMirrorsHistory(cfg: Config, oracle: Oracle, n: nat)
    ensures Mirrors(cfg, After(cfg, oracle, n).s)
  {
    hide Iterate, Mirrors;
    if n == 0 {
      BeginMirrors(cfg);
    } else {
      TurnMirrorsHistory(cfg, oracle, n - 1);
      var p := After(cfg, oracle, n - 1);
      if !Halted(cfg, p) {
        PassMirrors(cfg, p.s, oracle(n - 1));
      }
    }
  }

  lemma BeginMirrors(cfg: Config)
    ensures Mirrors(cfg, BEGIN)
  {
  }

  // ---------------------------------------------------------------------
  // What the detector is told, read off the oracle's answers
  // ---------------------------------------------------------------------

  /** The reply of this pass, if its request went out and was answered with calls, in their own field or in text that
      can be salvaged into calls. */
  function CallsIn(cfg: Config, s: State, input: Input): Option<Reply> {
    if AtRequest(cfg, s, input).None? || !input.stream.Replied? then None
    else
      var r := input.stream.reply;
      var salvaged := r.content && r.salvageable && s.toolRound + 1 != cfg.rounds && !s.handler.forceText
                      && !(r.lengthCut && s.lengthCount < 2);
      if r.calls || salvaged then Some(r) else None
  }

  ghost function CallsAt(cfg: Config, oracle: Oracle, n: nat): Option<Reply> {
    var p := After(cfg, oracle, n);
    if Halted(cfg, p) then None else CallsIn(cfg, p.s, oracle(n))
  }

  /** A turn's notes and the readings made of them. */
  datatype Record = Record(notes: Trail<Stuck.Note>, readings: Trail<Stuck.Reading>)
  {
    /** How often a round with these calls, this one included, was seen since the workspace last changed. */
    function Identical(r: Reply): nat {
      if r.poll then 0 else Stuck.RoundsSinceMutation(Then(notes, Stuck.Round(r.sig, false)), r.sig)
    }

    function Reading(r: Reply): Stuck.Reading {
      Stuck.Reading(r.repeats, Identical(r), r.askUser, r.recoveryMove)
    }

    /** The round is let run: it is no loop break, and calm or a recovery. */
    predicate Proceeds(r: Reply) {
      !Stuck.IsBreak(readings, Reading(r)) && (r.repeats < 3 || Stuck.IsRecovery(readings, Reading(r)))
    }

    /** And it comes back. */
    predicate Runs(r: Reply) {
      Proceeds(r) && !r.raises
    }

    /** One more round of calls: the calls, and if they ran their results. */
    function With(r: Reply): Record {
      Record(Stuck.Extend(Then(notes, Stuck.Round(r.sig, r.poll)), if Runs(r) then r.results else []),
             Then(readings, Reading(r)))
    }
  }

  /** The record of the first n passes. */
  ghost function RecordOf(cfg: Config, oracle: Oracle, n: nat): Record {
    if n == 0 then Record(Start, Start)
    else
      var before := RecordOf(cfg, oracle, n - 1);
      match CallsAt(cfg, oracle, n - 1)
      case None => before
      case Some(r) => before.With(r)
  }

  /** The handlers agree on everything but whether the next request goes out without tools. */
  predicate SameCounts(a: Stuck.Handler, b: Stuck.Handler) {
    a.(forceText := false) == b.(forceText := false)
  }

  lemma CountsDecide(a: Stuck.Handler, b: Stuck.Handler, r: Stuck.Reading)
    requires SameCounts(a, b)
    ensures SameCounts(Stuck.HandlerAfter(a, r), Stuck.HandlerAfter(b, r))
    ensures Stuck.ActionFor(a, r) == Stuck.ActionFor(b, r) && Stuck.BreaksLoop(a, r) == Stuck.BreaksLoop(b, r)
  {
  }

  predicate Follows(s: State, record: Record) {
    s.notes == record.notes && SameCounts(s.handler, Stuck.HandlerAfterAll(record.readings))
  }

  lemma ToolFollows(s: State, r: Reply, tools: bool, record: Record)
    requires Follows(s, record)
    ensures Follows(ToolPhase(s, r, tools).s, record.With(r))
  {
    Stuck.ActsExactly(record.readings, record.Reading(r));
    hide Stuck.HandlerAfter, Stuck.ActionFor, Stuck.BreaksLoop, Stuck.RoundsSinceMutation, Stuck.IsBreak,
      Stuck.IsRecovery;
    var reading := record.Reading(r);
    assert ReadingOf(s, r) == reading;
    CountsDecide(s.handler, Stuck.HandlerAfterAll(record.readings), reading);
    assert Stuck.HandlerAfterAll(record.With(r).readings) ==
      Stuck.HandlerAfter(Stuck.HandlerAfterAll(record.readings), reading);
    NothingMore(Then(s.notes, Stuck.Round(r.sig, r.poll)));
  }

  lemma NothingMore(t: Trail<Stuck.Note>)
    ensures Stuck.Extend(t, []) == t
  {
  }

  lemma ReplyFollows(cfg: Config, s: State, input: Input, r: Reply, tools: bool, forced: bool, loopBreak: bool,
      record: Record)
    requires Follows(s, record)
    ensures var t := ReplyPhase(cfg, s, input, r, tools, forced, loopBreak).s;
            if r.calls || (r.content && tools && r.salvageable && !(r.lengthCut && s.lengthCount < 2))
            then Follows(t, record.With(r)) else Follows(t, record)
  {
    hide Follows, ToolPhase, TextPhase, Record.With;
    FollowsIfSame(s, ReplyPhase(cfg, s, input, r, tools, forced, loopBreak).s, record);
    if !(r.lengthCut && !r.calls && r.content && s.lengthCount < LENGTH_CONTINUATION_LIMIT) {
      if r.calls || (r.content && tools && r.salvageable) {
        ToolFollows(s, r, tools, record);
      } else {
        TextTrace(cfg, s, input, r, tools, forced, loopBreak);
      }
    }
  }

  lemma FollowsIfSame(s: State, t: State, record: Record)
    requires Follows(s, record)
    ensures t.notes == s.notes && SameCounts(s.handler, t.handler) ==> Follows(t, record)
  {
  }

  lemma PassFollows(cfg: Config, s: State, input: Input, record: Record)
    requires Follows(s, record) && s.toolRound < cfg.rounds
    ensures var t := Iterate(cfg, s, input).s;
            match CallsIn(cfg, s, input)
            case None => Follows(t, record)
            case Some(r) => Follows(t, record.With(r))
  {
    hide Iterate, ReplyPhase, Follows, AtRequest, Record.With, FailedOver, Promises, RunCompactor, Routing.Effective,
      AdviceFor;
    RequestReached(cfg, s, input);
    var t := Iterate(cfg, s, input).s;
    FollowsIfSame(s, t, record);
    if AtRequest(cfg, s, input).Some? {
      var at := AtRequest(cfg, s, input).value;
      var sent := Sent(cfg, at, input, AdviceFor(cfg, s));
      FollowsIfSame(s, sent, record);
      match input.stream {
        case Overflowed => CompactorKeepsTurn(sent, Overflow, input.tokens, input.overflowRun);
        case Errored =>
        case Replied(r) =>
          ReplyFollows(cfg, sent, input, r, ToolsOn(cfg, at), at.toolRound == cfg.rounds - 1, at.handler.forceText,
            record);
      }
    } else {
      NoRequestKeepsNotes(cfg, s, input);
    }
  }

  lemma NoRequestKeepsNotes(cfg: Config, s: State, input: Input)
    requires s.toolRound < cfg.rounds && AtRequest(cfg, s, input).None?
    ensures Iterate(cfg, s, input).s.notes == s.notes && Iterate(cfg, s, input).s.handler == s.handler
  {
    hide RequestPhase, IsCritical, NoProgress, AdviceFor;
  }

  /** Over every run: the detector has been told the calls of each round and the results of each round that ran, and
      nothing else, and the handler stands where those readings put it. */
  lemma {:induction false} RecordIsKept(cfg: Config, oracle: Oracle, n: nat)
    ensures After(cfg, oracle, n).s.notes == RecordOf(cfg, oracle, n).notes
    ensures SameCounts(After(cfg, oracle, n).s.handler, Stuck.HandlerAfterAll(RecordOf(cfg, oracle, n).readings))
  {
    hide Iterate, CallsIn, Record.With;
    if n > 0 {
      RecordIsKept(cfg, oracle, n - 1);
      var p := After(cfg, oracle, n - 1);
      if !Halted(cfg, p) {
        PassFollows(cfg, p.s, oracle(n - 1), RecordOf(cfg, oracle, n - 1));
      }
    }
  }

  // ---------------------------------------------------------------------
  // The detector's verdicts, over every run
  // ---------------------------------------------------------------------

  /** A loop break is due: the first of the turn, for the third identical round at least, in a session that can ask. */
  predicate BreakDue(record: Record, r: Reply) {
    Stuck.IsBreak(record.readings, record.Reading(r))
  }

  /** The loop is to be stopped: a stuck round after three nudges, with neither a recovery nor a loop break left. */
  predicate StopDue(record: Record, r: Reply) {
    && r.repeats >= 3 && Stuck.NudgesSinceReset(record.readings) == 3
    && !BreakDue(record, r) && !Stuck.IsRecovery(record.readings, record.Reading(r))
  }

  predicate Ends(step: Step, exit: Exit) {
    step.Stop? && step.exit == exit
  }

  lemma VerdictDue(record: Record, r: Reply)
    ensures var h, reading := Stuck.HandlerAfterAll(record.readings), record.Reading(r);
            && (Stuck.BreaksLoop(h, reading) <==> BreakDue(record, r))
            && (Stuck.ActionFor(h, reading).StopLoop? <==> StopDue(record, r))
            && (Stuck.ActionFor(h, reading).Proceed? <==> record.Proceeds(r))
            && (Stuck.BreaksLoop(h, reading) ==> Stuck.ActionFor(h, reading).NudgeAndRetry?)
  {
    hide Stuck.IsBreak, Stuck.NudgesSinceReset, Stuck.IsRecovery, Stuck.HandlerAfterAll, Stuck.RoundsSinceMutation;
    Stuck.ActsExactly(record.readings, record.Reading(r));
  }

  /** What becomes of a round that proposed calls. */
  lemma ToolVerdict(s: State, r: Reply, tools: bool, record: Record)
    requires Follows(s, record)
    ensures var step := ToolPhase(s, r, tools);
            && step.s.history.Then?
            && (step.s.history.last == Discarded(true) <==> BreakDue(record, r))
            && (Ends(step, Broke(StuckLoop)) <==> StopDue(record, r))
            && (Ends(step, Raised) <==> record.Proceeds(r) && r.raises)
            && (Ends(step, Returned(Suspended)) <==> record.Runs(r) && r.endsTurn)
            && (step.Stop? ==> step.exit in {Broke(StuckLoop), Raised, Returned(Suspended)})
  {
    hide Stuck.HandlerAfter, Stuck.ActionFor, Stuck.BreaksLoop, Stuck.RoundsSinceMutation, Stuck.Extend, BreakDue,
      StopDue, Record.Proceeds;
    assert ReadingOf(s, r) == record.Reading(r);
    CountsDecide(s.handler, Stuck.HandlerAfterAll(record.readings), record.Reading(r));
    VerdictDue(record, r);
  }

  /** A loop break comes exactly when it is due, by the calls and results of the rounds so far. */
  lemma LoopBreaksExactly(cfg: Config, oracle: Oracle, n: nat)
    requires CallsAt(cfg, oracle, n).Some?
    ensures var h := After(cfg, oracle, n + 1).s.history;
            h.Then? && (h.last == Discarded(true) <==>
                        BreakDue(RecordOf(cfg, oracle, n), CallsAt(cfg, oracle, n).value))
  {
    hide Iterate, AtRequest, ToolPhase, TextPhase, BreakDue, AdviceFor, FailedOver, RunCompactor, RecordOf;
    var s, input, record := After(cfg, oracle, n).s, oracle(n), RecordOf(cfg, oracle, n);
    RecordIsKept(cfg, oracle, n);
    RequestReached(cfg, s, input);
    var at := AtRequest(cfg, s, input).value;
    var sent := Sent(cfg, at, input, AdviceFor(cfg, s));
    ToolVerdict(sent, input.stream.reply, ToolsOn(cfg, at), record);
  }

  /** A loop break answers to at least three rounds with the same calls, the present one included, and in everything the
      oracle answered between them nothing changed the workspace. */
  lemma LoopBreakMeansRepetition(cfg: Config, oracle: Oracle, n: nat)
    returns (before: Trail<Stuck.Note>, stretch: seq<Stuck.Note>)
    requires CallsAt(cfg, oracle, n).Some?
    requires var h := After(cfg, oracle, n + 1).s.history; h.Then? && h.last == Discarded(true)
    ensures var r := CallsAt(cfg, oracle, n).value;
            && Then(RecordOf(cfg, oracle, n).notes, Stuck.Round(r.sig, false)) == Stuck.Extend(before, stretch)
            && multiset(stretch)[Stuck.Round(r.sig, false)] >= 3
    ensures before.Then? ==> Stuck.Mutates(before.past, before.last)
    ensures forall i :: 0 <= i < |stretch| ==> !Stuck.Mutates(Stuck.Extend(before, stretch[..i]), stretch[i])
  {
    hide After, CallsAt, RecordOf;
    LoopBreaksExactly(cfg, oracle, n);
    var r := CallsAt(cfg, oracle, n).value;
    before, stretch :=
      Stuck.CountsOneQuietStretch(Then(RecordOf(cfg, oracle, n).notes, Stuck.Round(r.sig, false)), r.sig);
  }

  /** Edits keep reruns apart: with fewer than two rounds of these calls since a result that changed the workspace, one
      more is never a loop. */
  lemma EditsKeepRerunsApart(cfg: Config, oracle: Oracle, n: nat, t: Trail<Stuck.Note>, later: seq<Stuck.Note>)
    requires CallsAt(cfg, oracle, n).Some? && RecordOf(cfg, oracle, n).notes == Stuck.Extend(t, later)
    requires t.Then? && Stuck.Mutates(t.past, t.last)
    requires multiset(later)[Stuck.Round(CallsAt(cfg, oracle, n).value.sig, false)] < 2
    ensures var h := After(cfg, oracle, n + 1).s.history; h.Then? && h.last != Discarded(true)
  {
    hide After, CallsAt, RecordOf, Stuck.RoundsSinceMutation, Stuck.Extend, Stuck.Mutates;
    LoopBreaksExactly(cfg, oracle, n);
    var sig := CallsAt(cfg, oracle, n).value.sig;
    var round := Stuck.Round(sig, false);
    Stuck.NoRepeatSurvivesAMutation(t, later + [round], sig);
    Stuck.ExtendLast(t, later, round);
    assert multiset(later + [round])[round] == multiset(later)[round] + 1;
  }

  // ---------------------------------------------------------------------
  // How a pass ends the turn
  // ---------------------------------------------------------------------

  /** The reply was cut short and is continued. */
  predicate IsContinued(h: Trail<Event>, r: Reply) {
    r.lengthCut && !r.calls && r.content && SpentOn(h, CutShort) < 2
  }

  /** A text reply is owed one more round: with two rounds to spare and nobody cancelling, it claims an action in a turn
      without one, cites what no tool returned although it had tools, or announces work; each within its allowance. */
  predicate OwesMore(cfg: Config, h: Trail<Event>, input: Input, r: Reply) {
    && r.content && WindowIndex(h) + 2 < cfg.rounds && !input.cancel
    && (|| (r.claimsAction && !ProposedEver(h) && SpentOn(h, ClaimedAction) == 0)
        || (r.badRefs && input.offersTools && !AfterLoopBreak(h) && SpentOn(h, BadReferences) == 0)
        || (r.announcesWork && cfg.followupEnabled && SpentOn(h, AnnouncedWork) < cfg.followupCap))
  }

  /** The answer is final: text that is neither continued nor owed a round nor overtaken by an edit of the question. */
  predicate IsFinal(cfg: Config, h: Trail<Event>, input: Input, r: Reply) {
    !IsContinued(h, r) && !OwesMore(cfg, h, input, r) && !(r.rowChanged && Rereads(h) == 0 && !input.cancel)
  }

  /** Every way a pass ends the turn, and when. */
  predicate EndsAsItMust(cfg: Config, s: State, input: Input, record: Record, step: Step) {
    && EndsWithoutReply(cfg, s, input, step)
    && EndsWithCalls(CallsIn(cfg, s, input), record, step)
    && EndsWithAnswer(cfg, s, input, step)
  }

  predicate EndsWithoutReply(cfg: Config, s: State, input: Input, step: Step) {
    var at := AtRequest(cfg, s, input);
    && (Ends(step, Returned(Cancelled)) <==> input.gate.Return?)
    && (Ends(step, Broke(BudgetExhausted)) <==> input.gate.Break?)
    && (Ends(step, Broke(CompactionFailed)) <==>
          && at.None? && input.gate.Enter? && !(RenewalDue(cfg, s) && !input.renewalRefused)
          && !(Observe(s.budget, input.tokens).CriticalAllowed() && input.criticalRun.Compacted?))
    && (Ends(step, Returned(StreamFailed)) <==>
          at.Some? && (input.stream.Errored? ||
            (input.stream.Overflowed? && (at.value.budget.attempts >= 3 || at.value.budget.stalled))))
  }

  predicate EndsWithCalls(calls: Option<Reply>, record: Record, step: Step) {
    && (Ends(step, Broke(StuckLoop)) <==> calls.Some? && StopDue(record, calls.value))
    && (Ends(step, Raised) <==> calls.Some? && record.Proceeds(calls.value) && calls.value.raises)
    && (Ends(step, Returned(Suspended)) <==> calls.Some? && record.Runs(calls.value) && calls.value.endsTurn)
  }

  predicate EndsWithAnswer(cfg: Config, s: State, input: Input, step: Step) {
    var h := s.history;
    var answered := && AtRequest(cfg, s, input).Some? && input.stream.Replied? && CallsIn(cfg, s, input).None?
                    && IsFinal(cfg, h, input, input.stream.reply);
    && (answered ==> Ends(step, Returned(if AfterLoopBreak(h) then StuckLoop
                                         else if WindowIndex(h) + 1 == cfg.rounds then RoundCeiling else Complete)))
    && (Ends(step, Returned(StuckLoop)) || Ends(step, Returned(RoundCeiling)) || Ends(step, Returned(Complete))
        ==> answered)
  }

  lemma TextVerdict(cfg: Config, s: State, input: Input, r: Reply, tools: bool, forced: bool, loopBreak: bool)
    requires Mirrors(cfg, s) && s.toolRound < cfg.rounds && (tools <==> !loopBreak && s.toolRound + 1 != cfg.rounds)
    ensures var step := TextPhase(cfg, s, input, r, tools, forced, loopBreak);
            var owes := && r.content && s.toolRound + 2 < cfg.rounds && !input.cancel
                        && (|| (r.claimsAction && !ProposedEver(s.history) && SpentOn(s.history, ClaimedAction) == 0)
                            || (r.badRefs && input.offersTools && !loopBreak && SpentOn(s.history, BadReferences) == 0)
                            || (r.announcesWork && cfg.followupEnabled &&
                                SpentOn(s.history, AnnouncedWork) < cfg.followupCap));
            if owes || (r.rowChanged && Rereads(s.history) == 0 && !input.cancel) then step.Go?
            else Ends(step, Returned(if loopBreak then StuckLoop else if forced then RoundCeiling else Complete))
  {
    hide AllTrue, ConsumedRounds, Renewals;
  }

  /** The two histories agree on everything an answer is judged by. */
  predicate SaysTheSame(h: Trail<Event>, g: Trail<Event>) {
    && WindowIndex(h) == WindowIndex(g) && ProposedEver(h) == ProposedEver(g) && Rereads(h) == Rereads(g)
    && SpentOn(h, CutShort) == SpentOn(g, CutShort) && SpentOn(h, ClaimedAction) == SpentOn(g, ClaimedAction)
    && SpentOn(h, BadReferences) == SpentOn(g, BadReferences) && SpentOn(h, AnnouncedWork) == SpentOn(g, AnnouncedWork)
  }

  lemma QuietSaysTheSame(h: Trail<Event>, e: Event)
    requires e.Measured? || e.Compaction? || e.Requested?
    ensures SaysTheSame(Then(h, e), h)
    ensures !e.Requested? ==> AfterLoopBreak(Then(h, e)) == AfterLoopBreak(h)
  {
  }

  lemma CompactorSaysTheSame(s: State, path: Path, tokens: nat, outcome: Outcome)
    ensures var t := RunCompactor(s, path, tokens, outcome).history;
            SaysTheSame(t, s.history) && AfterLoopBreak(t) == AfterLoopBreak(s.history)
    ensures var t := ObserveCompile(s, tokens).history;
            SaysTheSame(t, s.history) && AfterLoopBreak(t) == AfterLoopBreak(s.history)
  {
    hide SaysTheSame, AfterLoopBreak, NoProgress;
    QuietSaysTheSame(s.history, Compaction(path, outcome));
    if s.budget.awaiting && s.budget.before.Some? {
      QuietSaysTheSame(s.history, Measured(s.budget.before.value, tokens));
    } else {
      Agrees(s.history);
    }
  }

  lemma Agrees(h: Trail<Event>)
    ensures SaysTheSame(h, h)
  {
  }

  /** Up to the request nothing happens that the answer is judged by. */
  lemma AtRequestSaysTheSame(cfg: Config, s: State, input: Input)
    requires AtRequest(cfg, s, input).Some?
    ensures var t := AtRequest(cfg, s, input).value;
            SaysTheSame(t.history, s.history) && AfterLoopBreak(t.history) == AfterLoopBreak(s.history)
  {
    hide IsCritical, NoProgress, RenewalDue, Budget.CriticalAllowed, Budget.ProactiveAllowed, RunCompactor,
      ObserveCompile, AfterLoopBreak, WindowIndex, ProposedEver, Rereads, SpentOn;
    var s1 := ObserveCompile(s, input.tokens);
    var s2 := Critically(cfg, s1, input);
    CompactorSaysTheSame(s, Critical, input.tokens, input.criticalRun);
    CompactorSaysTheSame(s1, Critical, input.tokens, input.criticalRun);
    CompactorSaysTheSame(s2, Proactive, input.tokens, input.proactiveRun);
  }

  lemma MirrorFacts(cfg: Config, s: State)
    requires Mirrors(cfg, s)
    ensures s.toolRound == WindowIndex(s.history) && s.handler.forceText == AfterLoopBreak(s.history)
    ensures s.lengthCount == SpentOn(s.history, CutShort)
  {
  }

  /** Which of the three ways a reply goes, by the history and the calls in it. */
  lemma ReplyStep(cfg: Config, s: State, at: State, input: Input, advice: Advice)
    requires s.toolRound < cfg.rounds && Mirrors(cfg, at) && input.stream.Replied?
    requires AtRequest(cfg, s, input) == Some(at) && SameTurn(s, at) && advice == AdviceFor(cfg, at)
    ensures var r, tools := input.stream.reply, ToolsOn(cfg, at);
            var step, sent := RequestPhase(cfg, at, input, advice), Sent(cfg, at, input, advice);
            if CallsIn(cfg, s, input).Some? then CallsIn(cfg, s, input).value == r && step == ToolPhase(sent, r, tools)
            else if IsContinued(s.history, r) then step.Go?
            else
              step == TextPhase(cfg, sent, input, r, tools, at.toolRound == cfg.rounds - 1, at.handler.forceText)
  {
    hide AtRequest, AdviceFor, ToolPhase, TextPhase, Sent, Mirrors, Promises, SpentOn, AfterLoopBreak, WindowIndex;
    assert Sent(cfg, at, input, advice).lengthCount == at.lengthCount by { SentLeaves(cfg, at, input, advice); }
    AtRequestSaysTheSame(cfg, s, input);
    SaysSpent(at.history, s.history);
    MirrorFacts(cfg, at);
  }

  lemma SentLeaves(cfg: Config, s: State, input: Input, advice: Advice)
    requires s.toolRound < cfg.rounds
    ensures var t := Sent(cfg, s, input, advice);
            && t.lengthCount == s.lengthCount && t.toolRound == s.toolRound && t.notes == s.notes
            && SameCounts(s.handler, t.handler) && t.history == Then(s.history, Requested(ToolsOn(cfg, s), advice))
  {
    hide FailedOver, ToolsOn;
  }

  lemma SaysSpent(h: Trail<Event>, g: Trail<Event>)
    requires SaysTheSame(h, g)
    ensures SpentOn(h, CutShort) == SpentOn(g, CutShort)
  {
  }

  lemma ReplyEnds(cfg: Config, s: State, at: State, input: Input, record: Record, advice: Advice)
    requires s.toolRound < cfg.rounds && Mirrors(cfg, at) && Follows(at, record) && input.stream.Replied?
    requires AtRequest(cfg, s, input) == Some(at) && SameTurn(s, at) && advice == AdviceFor(cfg, at)
    ensures EndsAsItMust(cfg, s, input, record, RequestPhase(cfg, at, input, advice))
  {
    hide AtRequest, AdviceFor, ToolPhase, TextPhase, RequestPhase, CallsIn, Sent, Mirrors, Promises, AfterLoopBreak,
      WindowIndex, ProposedEver, Rereads, SpentOn, Record.Runs, Record.Proceeds, StopDue, BreakDue, IsContinued,
      Stuck.HandlerAfterAll, IsCritical, RenewalDue, NoProgress;
    var r, tools, sent := input.stream.reply, ToolsOn(cfg, at), Sent(cfg, at, input, advice);
    RequestEnters(cfg, s, input);
    ReplyStep(cfg, s, at, input, advice);
    SentLeaves(cfg, at, input, advice);
    if CallsIn(cfg, s, input).Some? {
      assert Follows(sent, record);
      ToolVerdict(sent, r, tools, record);
    } else if !IsContinued(s.history, r) {
      SentMirrors(cfg, at, input, advice);
      QuietSaysTheSame(at.history, Requested(tools, advice));
      AtRequestSaysTheSame(cfg, s, input);
      MirrorFacts(cfg, at);
      TextVerdict(cfg, sent, input, r, tools, at.toolRound == cfg.rounds - 1, at.handler.forceText);
    }
  }

  lemma RequestEnters(cfg: Config, s: State, input: Input)
    requires AtRequest(cfg, s, input).Some?
    ensures input.gate.Enter?
  {
  }

  /** The request failed or was too long: neither is judged as an answer. */
  lemma FailureEnds(cfg: Config, s: State, at: State, input: Input, record: Record, advice: Advice)
    requires s.toolRound < cfg.rounds && !input.stream.Replied?
    requires AtRequest(cfg, s, input) == Some(at) && SameTurn(s, at) && advice == AdviceFor(cfg, at)
    ensures EndsAsItMust(cfg, s, input, record, RequestPhase(cfg, at, input, advice))
  {
    hide AtRequest, AdviceFor, FailedOver, RenewalDue, IsCritical, Promises, Routing.Effective, RunCompactor;
    RequestEnters(cfg, s, input);
  }

  lemma NoRequestEnds(cfg: Config, s: State, input: Input, record: Record)
    requires s.toolRound < cfg.rounds && AtRequest(cfg, s, input).None?
    ensures EndsAsItMust(cfg, s, input, record, Iterate(cfg, s, input))
  {
    hide RequestPhase, IsCritical, AdviceFor, RenewalDue, NoProgress, Promises;
  }

  lemma PassEnds(cfg: Config, s: State, input: Input, record: Record)
    requires s.toolRound < cfg.rounds && Mirrors(cfg, s) && Follows(s, record)
    ensures EndsAsItMust(cfg, s, input, record, Iterate(cfg, s, input))
  {
    hide AtRequest, RequestPhase, Iterate, EndsAsItMust, Mirrors, AdviceFor;
    RequestReached(cfg, s, input);
    if AtRequest(cfg, s, input).None? {
      NoRequestEnds(cfg, s, input, record);
    } else {
      var at := AtRequest(cfg, s, input).value;
      SameAdvice(cfg, s, at);
      if input.stream.Replied? {
        AtRequestMirrors(cfg, s, input);
        ReplyEnds(cfg, s, at, input, record, AdviceFor(cfg, s));
      } else {
        FailureEnds(cfg, s, at, input, record, AdviceFor(cfg, s));
      }
    }
  }

  /** Every way a turn ends, over every run: each exit is taken at exactly the passes at which the history and the
      oracle's answers call for it. */
  lemma TurnEndsExactly(cfg: Config, oracle: Oracle, n: nat)
    requires !Halted(cfg, After(cfg, oracle, n))
    ensures EndsAsItMust(cfg, After(cfg, oracle, n).s, oracle(n), RecordOf(cfg, oracle, n), After(cfg, oracle, n + 1))
  {
    hide EndsAsItMust, Iterate, Mirrors, RecordOf;
    TurnMirrorsHistory(cfg, oracle, n);
    RecordIsKept(cfg, oracle, n);
    PassEnds(cfg, After(cfg, oracle, n).s, oracle(n), RecordOf(cfg, oracle, n));
  }

  // ---------------------------------------------------------------------
  // When the compactor is run
  // ---------------------------------------------------------------------

  function RunsOn(h: Trail<Event>, path: Path): nat {
    if h.Start? then 0 else RunsOn(h.past, path) + if h.last.Compaction? && h.last.path == path then 1 else 0
  }

  /** The compile says that the context is over the critical size, and the compactor may still be asked. */
  predicate CriticalDue(cfg: Config, s: State, input: Input) {
    var b := Observe(s.budget, input.tokens);
    && input.gate.Enter? && !(RenewalDue(cfg, s) && !input.renewalRefused)
    && input.tokens as real > cfg.critical * (Max(input.budget, 1) as real)
    && b.attempts < 3 && !b.stalled && !b.refused
  }

  /** The context is not that large, but the compiler asks for it, and the compactor has neither run nor refused. */
  predicate ProactiveDue(cfg: Config, s: State, input: Input) {
    && input.gate.Enter? && !(RenewalDue(cfg, s) && !input.renewalRefused)
    && !(input.tokens as real > cfg.critical * (Max(input.budget, 1) as real))
    && input.needsCompaction && s.budget.attempts == 0 && !s.budget.refused
  }

  /** The request overflowed for the model it was compiled for, and another attempt may help. */
  predicate OverflowDue(cfg: Config, s: State, input: Input) {
    var at := AtRequest(cfg, s, input);
    && at.Some? && input.stream.Overflowed? && at.value.budget.attempts < 3 && !at.value.budget.stalled
    && input.routingAfter.Effective(FailedOver(cfg, s, input)) == input.routing.Effective(s.triedFallback)
  }

  lemma CompactorRunsOn(s: State, path: Path, tokens: nat, outcome: Outcome, other: Path)
    ensures RunsOn(RunCompactor(s, path, tokens, outcome).history, other) ==
            RunsOn(s.history, other) + if other == path then 1 else 0
    ensures RunsOn(ObserveCompile(s, tokens).history, other) == RunsOn(s.history, other)
    ensures RunsOn(Renew(s).history, other) == RunsOn(s.history, other)
  {
    hide NoProgress;
  }

  lemma ReplyRunsNothing(cfg: Config, s: State, input: Input, r: Reply, tools: bool, forced: bool, loopBreak: bool,
      path: Path)
    ensures RunsOn(ReplyPhase(cfg, s, input, r, tools, forced, loopBreak).s.history, path) == RunsOn(s.history, path)
  {
    hide TextPhase, ToolPhase;
    ToolsRunNothing(s, r, tools, path);
    TextRunsNothing(cfg, s, input, r, tools, forced, loopBreak, path);
  }

  lemma ToolsRunNothing(s: State, r: Reply, tools: bool, path: Path)
    ensures RunsOn(ToolPhase(s, r, tools).s.history, path) == RunsOn(s.history, path)
  {
    hide ToolPhase;
    ToolTrace(s, r, tools);
  }

  lemma TextRunsNothing(cfg: Config, s: State, input: Input, r: Reply, tools: bool, forced: bool, loopBreak: bool,
      path: Path)
    ensures RunsOn(TextPhase(cfg, s, input, r, tools, forced, loopBreak).s.history, path) == RunsOn(s.history, path)
  {
    hide TextPhase;
    TextTrace(cfg, s, input, r, tools, forced, loopBreak);
  }

  lemma RequestRunsOn(cfg: Config, s: State, at: State, input: Input, advice: Advice, path: Path)
    requires s.toolRound < cfg.rounds && AtRequest(cfg, s, input) == Some(at) && SameTurn(s, at)
    requires advice == AdviceFor(cfg, at)
    ensures RunsOn(RequestPhase(cfg, at, input, advice).s.history, path) ==
            RunsOn(at.history, path) + if path.Overflow? && OverflowDue(cfg, s, input) then 1 else 0
  {
    hide AtRequest, AdviceFor, ReplyPhase, RunCompactor, Routing.Effective, ToolsOn, Promises;
    var sent := Sent(cfg, at, input, advice);
    assert RunsOn(sent.history, path) == RunsOn(at.history, path);
    CompactorRunsOn(sent, Overflow, input.tokens, input.overflowRun, path);
    if input.stream.Replied? {
      ReplyRunsNothing(cfg, sent, input, input.stream.reply, ToolsOn(cfg, at), at.toolRound == cfg.rounds - 1,
        at.handler.forceText, path);
    }
  }

  predicate RunDue(cfg: Config, s: State, input: Input, path: Path) {
    match path
    case Critical => CriticalDue(cfg, s, input)
    case Proactive => ProactiveDue(cfg, s, input)
    case Overflow => OverflowDue(cfg, s, input)
  }

  lemma AtRequestRunsOn(cfg: Config, s: State, input: Input, path: Path)
    requires AtRequest(cfg, s, input).Some?
    ensures RunsOn(AtRequest(cfg, s, input).value.history, path) ==
            RunsOn(s.history, path) + if !path.Overflow? && RunDue(cfg, s, input, path) then 1 else 0
  {
    hide RunCompactor, ObserveCompile, RunsOn, RenewalDue, NoProgress, OverflowDue;
    var s1 := ObserveCompile(s, input.tokens);
    var s2 := Critically(cfg, s1, input);
    ObserveKeepsRefusal(s, input.tokens);
    RefusedAfter(s1, Critical, input.tokens, input.criticalRun);
    CompactorRunsOn(s, Critical, input.tokens, input.criticalRun, path);
    CompactorRunsOn(s1, Critical, input.tokens, input.criticalRun, path);
    CompactorRunsOn(s2, Proactive, input.tokens, input.proactiveRun, path);
  }

  lemma RefusedAfter(s: State, path: Path, tokens: nat, outcome: Outcome)
    ensures RunCompactor(s, path, tokens, outcome).budget.refused <==> outcome.Refused?
  {
  }

  lemma NoRequestRunsOn(cfg: Config, s: State, input: Input, path: Path)
    requires s.toolRound < cfg.rounds && AtRequest(cfg, s, input).None?
    ensures RunsOn(Iterate(cfg, s, input).s.history, path) ==
            RunsOn(s.history, path) + if RunDue(cfg, s, input, path) then 1 else 0
  {
    hide RunCompactor, ObserveCompile, RunsOn, RenewalDue, NoProgress, RequestPhase, AdviceFor, Renew;
    var s1 := ObserveCompile(s, input.tokens);
    ObserveKeepsRefusal(s, input.tokens);
    RefusedAfter(s1, Critical, input.tokens, input.criticalRun);
    CompactorRunsOn(s, Critical, input.tokens, input.criticalRun, path);
    CompactorRunsOn(s1, Critical, input.tokens, input.criticalRun, path);
  }

  /** Over every run each of the three callers runs the compactor at exactly the passes at which it is due. */
  lemma CompactsExactly(cfg: Config, oracle: Oracle, n: nat, path: Path)
    requires !Halted(cfg, After(cfg, oracle, n))
    ensures RunsOn(After(cfg, oracle, n + 1).s.history, path) ==
            RunsOn(After(cfg, oracle, n).s.history, path)
            + if RunDue(cfg, After(cfg, oracle, n).s, oracle(n), path) then 1 else 0
  {
    hide Iterate, RequestPhase, AtRequest, AdviceFor, RunsOn, CriticalDue, ProactiveDue, OverflowDue, Promises;
    var s, input := After(cfg, oracle, n).s, oracle(n);
    RequestReached(cfg, s, input);
    if AtRequest(cfg, s, input).None? {
      NoRequestRunsOn(cfg, s, input, path);
    } else {
      var at := AtRequest(cfg, s, input).value;
      SameAdvice(cfg, s, at);
      AtRequestRunsOn(cfg, s, input, path);
      RequestRunsOn(cfg, s, at, input, AdviceFor(cfg, s), path);
    }
  }

  /** Over every run the turn is on its fallback from the first request on at which the ladder fell over to one, and
      then for good: a fallback is configured, and it is not what the request was sent to, which until then is the
      session's override or else the configured model. */
  lemma FailsOverExactly(cfg: Config, oracle: Oracle, n: nat)
    requires !Halted(cfg, After(cfg, oracle, n))
    ensures var s, input := After(cfg, oracle, n).s, oracle(n);
            var r := input.routing;
            After(cfg, oracle, n + 1).s.triedFallback <==>
              || s.triedFallback
              || (AtRequest(cfg, s, input).Some? && input.failsOver && r.fallback != ""
                  && r.fallback != r.resolve(if r.override == "" then r.primary else r.override))
  {
    hide Iterate, AtRequest, AdviceFor, ReplyPhase, RunCompactor, ToolsOn, Routing.Effective, Promises;
    var s, input := After(cfg, oracle, n).s, oracle(n);
    NamedModel(input.routing);
    RequestReached(cfg, s, input);
    if AtRequest(cfg, s, input).Some? {
      var at := AtRequest(cfg, s, input).value;
      var sent := Sent(cfg, at, input, AdviceFor(cfg, s));
      CompactorKeepsTurn(sent, Overflow, input.tokens, input.overflowRun);
      if input.stream.Replied? {
        ReplyKeepsFallback(cfg, sent, input, input.stream.reply, ToolsOn(cfg, at), at.toolRound == cfg.rounds - 1,
          at.handler.forceText);
      }
    } else {
      NoRequestKeepsFallback(cfg, s, input);
    }
  }

  lemma ReplyKeepsFallback(cfg: Config, s: State, input: Input, r: Reply, tools: bool, forced: bool, loopBreak: bool)
    ensures ReplyPhase(cfg, s, input, r, tools, forced, loopBreak).s.triedFallback == s.triedFallback
  {
    hide ToolPhase, TextPhase;
    ToolTrace(s, r, tools);
    TextTrace(cfg, s, input, r, tools, forced, loopBreak);
  }

  lemma NoRequestKeepsFallback(cfg: Config, s: State, input: Input)
    requires s.toolRound < cfg.rounds && AtRequest(cfg, s, input).None?
    ensures Iterate(cfg, s, input).s.triedFallback == s.triedFallback
  {
    hide RequestPhase, IsCritical, NoProgress, AdviceFor;
  }
}
