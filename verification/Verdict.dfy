/** core/reflect.py: from a grade's JSON to the verdict that is acted on. Each guard rewrites one record in place,
    the order of the guards matters, and the deterministic gates have the last word. */
module Verdict {
  import opened Common
  import opened Text
  import opened GateReuse

  datatype Verdict = Pass | Retry | Escalate
  datatype Verification = Unstated | Verified | Partial | Unknown
  datatype Status = Met | PartlyMet | Unmet | NotKnown

  /** Why the verification is what it is. */
  datatype Reason =
    | NoReason | Stated(text: string) | SelfContradiction | BelowFloor | Malformed | NotEstablished | MissingEvidence
    | Gaps | Phantom | Rejected(text: string)
    | Failing(names: seq<string>) | CouldNotRun(names: seq<string>, passed: seq<string>) | Passing(names: seq<string>)

  datatype Confidence = Absent | Unreadable | Number(value: real)

  /** The parsed JSON of a grade, as far as the verdict depends on it. */
  datatype Data = Data(
    verdict: Option<string>, cause: Option<string>, confidence: Confidence, verification: string, reason: string,
    missing: string, strategy: string, diagnostic: string, whatFailed: string, failureKind: string,
      deliverables: seq<Status>)

  datatype Grade = Grade(
    verdict: Verdict, cause: string, confidence: real, verification: Verification, reason: Reason, missing: string,
    strategy: string, diagnostic: string, whatFailed: string, failureKind: string, deliverables: seq<Status>,
      correctionRejected: string)

  const FAILURE_CAUSES := {"none", "scout", "agent", "skill", "task", "env"}

  // ---------------------------------------------------------------------
  // Reading the grade
  // ---------------------------------------------------------------------

  predicate Coerced(d: Data) {
    d.verdict !in {Some("pass"), Some("retry"), Some("escalate")}
  }

  function ReadVerdict(d: Data): Verdict {
    if d.verdict == Some("pass") then Pass else if d.verdict == Some("escalate") then Escalate else Retry
  }

  function ReadCause(d: Data): string {
    if d.cause.Some? && d.cause.value in FAILURE_CAUSES then d.cause.value else "none"
  }

  function Clamped(x: real): real {
    if x < 0.0 then 0.0 else if x > 1.0 then 1.0 else x
  }

  function ReadConfidence(d: Data): real {
    if d.confidence.Number? then Clamped(d.confidence.value) else 0.0
  }

  function ReadVerification(d: Data): Verification {
    var s := Lower(Strip(d.verification));
    if s == "verified" then Verified else if s == "partial" then Partial else if s == "unknown" then Unknown
      else Unstated
  }

  predicate Contradicts(d: Data) {
    ReadVerdict(d) != Pass && d.cause == Some("none")
  }

  predicate TooUnsure(d: Data, floor: real) {
    d.confidence.Number? && !Coerced(d) && floor > 0.0 && ReadVerdict(d) != Pass && ReadConfidence(d) < floor
  }

  predicate HasGaps(deliverables: seq<Status>) {
    exists i :: 0 <= i < |deliverables| && deliverables[i] != Met
  }

  class ReflectResult {
    var verdict: Verdict
    var cause: string
    var confidence: real
    var verification: Verification
    var reason: Reason
    var missing: string
    var strategy: string
    var diagnostic: string
    var whatFailed: string
    var failureKind: string
    var deliverables: seq<Status>
    var correctionRejected: string

    function Now(): Grade
      reads this
    {
      Grade(verdict, cause, confidence, verification, reason, missing, strategy, diagnostic, whatFailed, failureKind,
            deliverables, correctionRejected)
    }

    /** _result_from_data */
    constructor (d: Data, floor: real)
      ensures Now() == Read(d, floor)
    {
      verdict, cause, confidence := ReadVerdict(d), ReadCause(d), ReadConfidence(d);
      verification, reason := Unstated, NoReason;
      missing, strategy, diagnostic, whatFailed := d.missing, d.strategy, d.diagnostic, d.whatFailed;
      failureKind, deliverables, correctionRejected := d.failureKind, d.deliverables, "";
      new;
      if verdict != Pass && d.cause == Some("none") {
        verdict, verification, reason := Pass, Unknown, SelfContradiction;
      }
      if d.confidence.Number? && !Coerced(d) && floor > 0.0 && verdict != Pass && confidence < floor {
        verdict, cause, verification, reason := Pass, "none", Unknown, BelowFloor;
      }
      SettleVerification(d);
    }

    /** _settle_verification: what was stated, then what a conversion recorded, then what the grade implies. */
    method SettleVerification(d: Data)
      modifies this
      ensures Now() == Settled(old(Now()), d)
    {
      var stated := ReadVerification(d);
      if stated != Unstated {
        verification := stated;
        if reason == NoReason {
          reason := Stated(d.reason);
        }
        return;
      }
      if verification != Unstated {
        return;
      }
      if Coerced(d) {
        verification, reason := Unknown, Malformed;
        return;
      }
      if verdict != Pass {
        verification, reason := Unknown, NotEstablished;
        return;
      }
      if missing != "" {
        verification, reason := Partial, MissingEvidence;
      } else if HasGaps(deliverables) {
        verification, reason := Partial, Gaps;
      } else {
        verification, reason := Verified, NoReason;
      }
    }

    /** The ceiling-loop guard of reflect_on_session. */
    method GuardCeiling(e: Evidence)
      modifies this
      ensures Now() == CeilingGuarded(old(Now()), e)
    {
      if RepeatedWall(e) && verdict == Retry {
        verdict := Escalate;
        cause := ForcedCause(cause, "task");
        if missing == "" {
          missing := WallAdvice(e.termination);
        }
      }
    }

    /** The phantom-evidence guard of reflect_on_session. */
    method GuardPhantom(e: Evidence)
      modifies this
      ensures Now() == PhantomGuarded(old(Now()), e)
    {
      if verdict != Pass && e.phantom {
        verdict, cause, verification, reason := Pass, "none", Unknown, Phantom;
      }
    }

    /** guard_factual_correction */
    method GuardFactual(e: Evidence)
      modifies this
      ensures Now() == FactualGuarded(old(Now()), e)
    {
      hide Supported, HasLessons, Why, FirstTen, Withheld;
      if verdict == Pass && !HasLessons(Now()) {
        return;
      }
      if failureKind != "factual" && !e.factualWording {
        return;
      }
      var supported, why := CheckClaims(e.claims, e.records);
      if supported {
        return;
      }
      RejectCorrection(why);
    }

    /** The end of guard_factual_correction. */
    method RejectCorrection(why: string)
      modifies this
      ensures Now() == Withheld(old(Now()), why)
    {
      correctionRejected := why;
      verdict, cause := Pass, "none";
      verification, reason := Unknown, Rejected(why);
      confidence := 0.0;
      ForgetFindings();
    }

    method ForgetFindings()
      modifies `strategy, `diagnostic, `whatFailed, `missing, `deliverables
      ensures strategy == diagnostic == whatFailed == missing == "" && deliverables == []
    {
      strategy, diagnostic, whatFailed, missing := "", "", "", "";
      deliverables := [];
    }

    /** The gate clamp of reflect_on_session. */
    method ClampToGates(gates: seq<GateResult>)
      modifies this
      ensures Now() == GateClamped(old(Now()), gates)
    {
      if FailingOf(gates) != [] && verdict == Pass {
        verdict := Retry;
        cause := ForcedCause(cause, "task");
        if missing == "" {
          missing := MAKE_GATES_PASS;
        }
      }
    }

    /** apply_verification_receipts */
    method ApplyReceipts(gates: seq<GateResult>)
      modifies this
      ensures Now() == Receipted(old(Now()), gates)
    {
      if gates == [] {
        return;
      }
      var failed, unavailable, passed := FailingOf(gates), BrokenOf(gates), PassedOf(gates);
      if failed != [] {
        verification, reason := Unknown, Failing(Names(failed));
        return;
      }
      if unavailable != [] {
        if verification == Verified {
          verification := Partial;
        }
        reason := CouldNotRun(Names(unavailable), Names(passed));
        return;
      }
      if passed != [] && verification == Unknown {
        verification, reason := Partial, Passing(Names(passed));
      } else if passed != [] && verification == Verified && reason == NoReason {
        reason := Passing(Names(passed));
      }
    }

    /** The guards in the order reflect_on_session runs them. */
    method Finish(e: Evidence)
      modifies this
      ensures Now() == Finished(old(Now()), e)
    {
      hide CeilingGuarded, PhantomGuarded, FactualGuarded, GateClamped, Receipted;
      GuardCeiling(e);
      GuardPhantom(e);
      GuardFactual(e);
      ClampToGates(e.gates);
      ApplyReceipts(e.gates);
    }
  }

  function Converted(d: Data, floor: real): Grade {
    var g := Grade(ReadVerdict(d), ReadCause(d), ReadConfidence(d), Unstated, NoReason, d.missing, d.strategy,
      d.diagnostic,
                   d.whatFailed, d.failureKind, d.deliverables, "");
    if Contradicts(d) then g.(verdict := Pass, verification := Unknown, reason := SelfContradiction)
    else if TooUnsure(d, floor) then g.(verdict := Pass, cause := "none", verification := Unknown, reason := BelowFloor)
    else g
  }

  function Settled(g: Grade, d: Data): Grade {
    var stated := ReadVerification(d);
    if stated != Unstated then
      g.(verification := stated, reason := if g.reason == NoReason then Stated(d.reason) else g.reason)
    else if g.verification != Unstated then g
    else if Coerced(d) then g.(verification := Unknown, reason := Malformed)
    else if g.verdict != Pass then g.(verification := Unknown, reason := NotEstablished)
    else if g.missing != "" then g.(verification := Partial, reason := MissingEvidence)
    else if HasGaps(g.deliverables) then g.(verification := Partial, reason := Gaps)
    else g.(verification := Verified, reason := NoReason)
  }

  function Read(d: Data, floor: real): Grade {
    Settled(Converted(d, floor), d)
  }

  // ---------------------------------------------------------------------
  // The guards
  // ---------------------------------------------------------------------

  datatype Record = Record(callId: string, request: string, result: string)

  datatype Claim =
    | NotAnObject
    | Claim(subject: Option<string>, observed: Option<string>, expected: Option<string>,
            quote: Option<string>, expectedQuote: Option<string>)

  /** What the guards look at beside the grade. The two text searches are given by their answers. */
  datatype Evidence = Evidence(
    termination: string, priors: seq<string>, phantom: bool, factualWording: bool, claims: seq<Claim>,
      records: seq<Record>,
    gates: seq<GateResult>)

  predicate RepeatedWall(e: Evidence) {
    e.termination in {"round_ceiling", "stuck_loop"} && e.termination in e.priors
  }

  function ForcedCause(current: string, fallback: string): string {
    if current == "" || current == "none" then fallback else current
  }

  const MAKE_GATES_PASS := "make the failing gates pass"

  function WallAdvice(termination: string): string {
    if termination == "round_ceiling" then "split the task or raise max_tool_rounds" else "change the approach"
  }

  predicate HasLessons(g: Grade) {
    g.verdict == Pass && (Strip(g.strategy) != "" || Strip(g.diagnostic) != "" || Strip(g.whatFailed) != "")
  }

  predicate Contains(text: string, part: string) {
    exists i :: 0 <= i <= |text| - |part| && part <= text[i..]
  }

  /** Where a call id is in the evidence: its last record. */
  function IndexOf(records: seq<Record>, id: string): Option<nat> {
    if records == [] then None
    else if records[|records| - 1].callId == id then Some(|records| - 1)
    else IndexOf(records[..|records| - 1], id)
  }

  predicate Quotes(quote: Option<string>, subject: string, r: Record) {
    && quote.Some? && |Strip(quote.value)| >= 8 && Contains(r.result, quote.value)
    && (Contains(r.request, subject) || Contains(r.result, subject))
  }

  predicate MentionedAfter(records: seq<Record>, from: nat, subject: string) {
    exists k :: from <= k < |records| && Contains(records[k].request, subject)
  }

  /** A claim is attributable: both quotes are in results about the subject, the second one later, and nothing about the
      subject was asked after it. */
  predicate Attributable(c: Claim, records: seq<Record>) {
    && c.Claim? && c.subject.Some? && c.subject.value != "" && c.observed.Some? && c.expected.Some?
    && var o, x := IndexOf(records, c.observed.value), IndexOf(records, c.expected.value);
       && o.Some? && x.Some? && o.value < x.value < |records|
       && Quotes(c.quote, c.subject.value, records[o.value]) &&
         Quotes(c.expectedQuote, c.subject.value, records[x.value])
       && c.quote != c.expectedQuote
       && !MentionedAfter(records, x.value + 1, c.subject.value)
  }

  predicate Supported(claims: seq<Claim>, records: seq<Record>) {
    0 < |claims| <= 10 && forall i :: 0 <= i < |claims| ==> Attributable(claims[i], records)
  }

  const NOT_ATTRIBUTABLE := "no attributable contradictory evidence"
  const EARLIER_REQUEST := "an earlier request cannot disprove a later result"
  const SUPERSEDED := "a later result supersedes the cited evidence"

  /** What one claim adds: whether it stands, whether the scan goes on, and the reason if it changes. */
  datatype Finding = Finding(stands: bool, goOn: bool, why: Option<string>)

  function Find(c: Claim, records: seq<Record>): Finding {
    if c.NotAnObject? || c.observed.None? || c.expected.None? then Finding(false, false, None)
    else
      var o, x := IndexOf(records, c.observed.value), IndexOf(records, c.expected.value);
      if c.subject.None? || c.subject.value == "" || o.None? || x.None? then Finding(false, false, None)
      else if x.value <= o.value then Finding(false, false, Some(EARLIER_REQUEST))
      else if x.value >= |records| then Finding(false, false, None)
      else
        var quoted := Quotes(c.quote, c.subject.value, records[o.value])
                      && Quotes(c.expectedQuote, c.subject.value, records[x.value]) && c.quote != c.expectedQuote;
        var later := MentionedAfter(records, x.value + 1, c.subject.value);
        Finding(quoted && !later, true, if later then Some(SUPERSEDED) else None)
  }

  /** The reason left over when the scan ends. */
  function Why(claims: seq<Claim>, records: seq<Record>, why: string): string {
    if claims == [] then why
    else
      var f := Find(claims[0], records);
      var next := if f.why.Some? then f.why.value else why;
      if f.goOn then Why(claims[1..], records, next) else next
  }

  lemma {:induction false} IndexIsLast(records: seq<Record>, id: string)
    ensures match IndexOf(records, id)
            case Some(i) =>
              i < |records| && records[i].callId == id && forall j :: i < j < |records| ==> records[j].callId != id
            case None => forall j :: 0 <= j < |records| ==> records[j].callId != id
  {
    if records != [] {
      IndexIsLast(records[..|records| - 1], id);
    }
  }

  /** Record i is the last that answers this call. */
  ghost predicate AnswersLast(records: seq<Record>, id: string, i: nat) {
    i < |records| && records[i].callId == id && forall j :: i < j < |records| ==> records[j].callId != id
  }

  /** The words are in the record's result, eight characters of them at least, and the record is about the subject. */
  predicate Shows(r: Record, words: string, subject: string) {
    && |Strip(words)| >= 8 && Contains(r.result, words)
    && (Contains(r.request, subject) || Contains(r.result, subject))
  }

  /** A claim is backed up: by different words of two results about its subject, the one it expects later than the one
      it disputes, and nobody asked about the subject after that. */
  ghost predicate BackedUp(c: Claim, records: seq<Record>) {
    && c.Claim? && c.subject.Some? && c.subject.value != "" && c.observed.Some? && c.expected.Some?
    && c.quote.Some? && c.expectedQuote.Some? && c.quote.value != c.expectedQuote.value
    && exists o: nat, x: nat ::
         && AnswersLast(records, c.observed.value, o) && AnswersLast(records, c.expected.value, x) && o < x
         && Shows(records[o], c.quote.value, c.subject.value)
         && Shows(records[x], c.expectedQuote.value, c.subject.value)
         && forall k :: x < k < |records| ==> !Contains(records[k].request, c.subject.value)
  }

  lemma AttributableExactly(c: Claim, records: seq<Record>)
    ensures Attributable(c, records) <==> BackedUp(c, records)
  {
    hide IndexOf, Contains, Strip;
    if c.Claim? && c.observed.Some? && c.expected.Some? {
      IndexIsLast(records, c.observed.value);
      IndexIsLast(records, c.expected.value);
      if Attributable(c, records) {
        var o, x := IndexOf(records, c.observed.value).value, IndexOf(records, c.expected.value).value;
        assert AnswersLast(records, c.observed.value, o) && AnswersLast(records, c.expected.value, x);
      }
      if o: nat, x: nat :|
        && AnswersLast(records, c.observed.value, o) && AnswersLast(records, c.expected.value, x) {
        assert IndexOf(records, c.observed.value) == Some(o) && IndexOf(records, c.expected.value) == Some(x);
      }
    }
  }

  /** Both results a claim names are there, and the one it expects comes after the one it disputes. */
  predicate Cites(c: Claim, records: seq<Record>) {
    IsCiting(c, records) && IndexOf(records, c.observed.value).value < IndexOf(records, c.expected.value).value
  }

  predicate IsCiting(c: Claim, records: seq<Record>) {
    && c.Claim? && c.subject.Some? && c.subject.value != "" && c.observed.Some? && c.expected.Some?
    && IndexOf(records, c.observed.value).Some? && IndexOf(records, c.expected.value).Some?
  }

  /** The scan comes to claim k: all before it cite. */
  ghost predicate Reaches(claims: seq<Claim>, records: seq<Record>, k: nat) {
    k < |claims| && forall j :: 0 <= j < k ==> Cites(claims[j], records)
  }

  ghost predicate EndsBackwards(claims: seq<Claim>, records: seq<Record>) {
    exists k: nat :: Reaches(claims, records, k) && IsCiting(claims[k], records) && !Cites(claims[k], records)
  }

  ghost predicate PassesSuperseded(claims: seq<Claim>, records: seq<Record>) {
    exists k: nat ::
      && Reaches(claims, records, k) && Cites(claims[k], records)
      && MentionedAfter(records, IndexOf(records, claims[k].expected.value).value + 1, claims[k].subject.value)
  }

  /** The reason that is left: the scan ended at a claim with its requests the wrong way round, or passed one that was
      superseded; otherwise the one it began with. */
  lemma {:induction false} WhyExactly(claims: seq<Claim>, records: seq<Record>, why: string)
    ensures Why(claims, records, why) ==
            if EndsBackwards(claims, records) then EARLIER_REQUEST
            else if PassesSuperseded(claims, records) then SUPERSEDED else why
  {
    hide Quotes, MentionedAfter, IndexOf;
    if claims != [] {
      var c, rest := claims[0], claims[1..];
      if IsCiting(c, records) {
        IndexIsLast(records, c.expected.value);
      }
      FoundAs(c, records);
      OneClaimOn(claims, records);
      if Cites(c, records) {
        var f := Find(c, records);
        WhyExactly(rest, records, if f.why.Some? then f.why.value else why);
      }
    }
  }

  lemma FoundAs(c: Claim, records: seq<Record>)
    requires IsCiting(c, records) ==> IndexOf(records, c.expected.value).value < |records|
    ensures Find(c, records).goOn <==> Cites(c, records)
    ensures Find(c, records).why ==
            if IsCiting(c, records) && !Cites(c, records) then Some(EARLIER_REQUEST)
            else if Cites(c, records) &&
                    MentionedAfter(records, IndexOf(records, c.expected.value).value + 1, c.subject.value)
            then Some(SUPERSEDED) else None
  {
    hide *;
    if IsCiting(c, records) {
      FoundIfCiting(c, records);
    } else {
      NothingFound(c, records);
    }
  }

  lemma NothingFound(c: Claim, records: seq<Record>)
    requires !IsCiting(c, records)
    ensures Find(c, records) == Finding(false, false, None) && !Cites(c, records)
  {
    hide Quotes, MentionedAfter, IndexOf;
  }

  lemma FoundIfCiting(c: Claim, records: seq<Record>)
    requires IsCiting(c, records) && IndexOf(records, c.expected.value).value < |records|
    ensures var o, x := IndexOf(records, c.observed.value).value, IndexOf(records, c.expected.value).value;
            var f := Find(c, records);
            && (Cites(c, records) <==> o < x) && (f.goOn <==> o < x)
            && f.why == if x <= o then Some(EARLIER_REQUEST)
                        else if MentionedAfter(records, x + 1, c.subject.value) then Some(SUPERSEDED) else None
  {
    hide Quotes, MentionedAfter, IndexOf;
  }

  /** The first claim, and those after it. */
  lemma OneClaimOn(claims: seq<Claim>, records: seq<Record>)
    requires claims != []
    ensures var c, rest := claims[0], claims[1..];
            && (EndsBackwards(claims, records) <==>
                  if Cites(c, records) then EndsBackwards(rest, records) else IsCiting(c, records))
            && (PassesSuperseded(claims, records) <==>
                  && Cites(c, records)
                  && (MentionedAfter(records, IndexOf(records, c.expected.value).value + 1, c.subject.value)
                      || PassesSuperseded(rest, records)))
  {
    hide IndexOf, MentionedAfter, IsCiting, Cites;
    var rest := claims[1..];
    assert Reaches(claims, records, 0);
    forall k: nat | k > 0
      ensures Reaches(claims, records, k) <==> Cites(claims[0], records) && Reaches(rest, records, k - 1)
    {
      if Reaches(rest, records, k - 1) && Cites(claims[0], records) {
        assert forall j :: 0 < j < k ==> claims[j] == rest[j - 1];
      }
      if Reaches(claims, records, k) {
        assert forall j :: 0 <= j < k - 1 ==> rest[j] == claims[j + 1];
      }
    }
    assert forall k: nat :: k < |rest| ==> rest[k] == claims[k + 1];
    if k: nat :| Reaches(rest, records, k) && IsCiting(rest[k], records) && !Cites(rest[k], records) {
      assert Cites(claims[0], records) ==> Reaches(claims, records, k + 1);
    }
  }

  function FirstTen(claims: seq<Claim>): seq<Claim> {
    if |claims| <= 10 then claims else claims[..10]
  }

  /** The loop of guard_factual_correction over at most ten claims. */
  method CheckClaims(claims: seq<Claim>, records: seq<Record>) returns (supported: bool, why: string)
    ensures supported == Supported(claims, records)
    ensures supported <==> 1 <= |claims| <= 10 && forall i :: 0 <= i < |claims| ==> BackedUp(claims[i], records)
    ensures why == Why(FirstTen(claims), records, NOT_ATTRIBUTABLE)
    ensures var checked := claims[..Min(10, |claims|)];
            why == if EndsBackwards(checked, records) then EARLIER_REQUEST
                   else if PassesSuperseded(checked, records) then SUPERSEDED else NOT_ATTRIBUTABLE
  {
    hide Find, Attributable, EndsBackwards, PassesSuperseded, BackedUp;
    forall i | 0 <= i < |claims|
      ensures Attributable(claims[i], records) <==> BackedUp(claims[i], records)
    {
      AttributableExactly(claims[i], records);
    }
    assert FirstTen(claims) == claims[..Min(10, |claims|)];
    WhyExactly(FirstTen(claims), records, NOT_ATTRIBUTABLE);
    supported, why := 0 < |claims| <= 10, NOT_ATTRIBUTABLE;
    var checked := FirstTen(claims);
    var i := 0;
    assert checked[0..] == checked;
    while i < |checked|
      invariant 0 <= i <= |checked|
      invariant supported == (0 < |claims| <= 10 && forall j :: 0 <= j < i ==> Attributable(checked[j], records))
      invariant Why(checked, records, NOT_ATTRIBUTABLE) == Why(checked[i..], records, why)
    {
      var f := Find(checked[i], records);
      FindingStands(checked[i], records);
      assert checked[i..][1..] == checked[i + 1..];
      supported := supported && f.stands;
      why := if f.why.Some? then f.why.value else why;
      if !f.goOn {
        return;
      }
      i := i + 1;
    }
  }

  lemma FindingStands(c: Claim, records: seq<Record>)
    ensures Find(c, records).stands == Attributable(c, records)
    ensures !Find(c, records).goOn ==> !Attributable(c, records)
  {
  }

  function CeilingGuarded(g: Grade, e: Evidence): Grade {
    if RepeatedWall(e) && g.verdict == Retry then
      g.(verdict := Escalate, cause := ForcedCause(g.cause, "task"),
         missing := if g.missing == "" then WallAdvice(e.termination) else g.missing)
    else g
  }

  function PhantomGuarded(g: Grade, e: Evidence): Grade {
    if g.verdict != Pass && e.phantom
      then g.(verdict := Pass, cause := "none", verification := Unknown, reason := Phantom) else g
  }

  predicate FactuallyRejected(g: Grade, e: Evidence) {
    && (g.verdict != Pass || HasLessons(g)) && (g.failureKind == "factual" || e.factualWording)
    && !Supported(e.claims, e.records)
  }

  function FactualGuarded(g: Grade, e: Evidence): Grade {
    if FactuallyRejected(g, e) then Withheld(g, Why(FirstTen(e.claims), e.records, NOT_ATTRIBUTABLE)) else g
  }

  /** A grade nothing may be learned from. */
  function Withheld(g: Grade, why: string): Grade {
    Grade(Pass, "none", 0.0, Unknown, Rejected(why), "", "", "", "", g.failureKind, [], why)
  }

  function FailingOf(gates: seq<GateResult>): (r: seq<GateResult>)
    ensures r != [] <==> exists i :: 0 <= i < |gates| && gates[i].State() == Failed
  {
    if gates == [] then []
    else (if !gates[0].passed && !gates[0].broken then [gates[0]] else []) + FailingOf(gates[1..])
  }

  function BrokenOf(gates: seq<GateResult>): (r: seq<GateResult>)
    ensures r != [] <==> exists i :: 0 <= i < |gates| && gates[i].broken
  {
    if gates == [] then [] else (if gates[0].broken then [gates[0]] else []) + BrokenOf(gates[1..])
  }

  function PassedOf(gates: seq<GateResult>): (r: seq<GateResult>)
    ensures r != [] <==> exists i :: 0 <= i < |gates| && gates[i].passed && !gates[i].broken
  {
    if gates == [] then [] else (if gates[0].passed && !gates[0].broken then [gates[0]] else []) + PassedOf(gates[1..])
  }

  function Names(gates: seq<GateResult>): seq<string> {
    seq(|gates|, i requires 0 <= i < |gates| => gates[i].name)
  }

  function GateClamped(g: Grade, gates: seq<GateResult>): Grade {
    if FailingOf(gates) != [] && g.verdict == Pass then
      g.(verdict := Retry, cause := ForcedCause(g.cause, "task"),
         missing := if g.missing == "" then MAKE_GATES_PASS else g.missing)
    else g
  }

  function Receipted(g: Grade, gates: seq<GateResult>): Grade {
    var passed := Names(PassedOf(gates));
    if FailingOf(gates) != [] then g.(verification := Unknown, reason := Failing(Names(FailingOf(gates))))
    else if BrokenOf(gates) != [] then
      g.(verification := if g.verification == Verified then Partial else g.verification,
         reason := CouldNotRun(Names(BrokenOf(gates)), passed))
    else if PassedOf(gates) != [] && g.verification == Unknown
      then g.(verification := Partial, reason := Passing(passed))
    else if PassedOf(gates) != [] && g.verification == Verified && g.reason == NoReason
      then g.(reason := Passing(passed))
    else g
  }

  /** The grade as the guards leave it, before the gates are looked at. */
  function Guarded(g: Grade, e: Evidence): Grade {
    FactualGuarded(PhantomGuarded(CeilingGuarded(g, e), e), e)
  }

  function Finished(g: Grade, e: Evidence): Grade {
    Receipted(GateClamped(Guarded(g, e), e.gates), e.gates)
  }

  function Final(d: Data, floor: real, e: Evidence): Grade {
    Finished(Read(d, floor), e)
  }

  // ---------------------------------------------------------------------
  // What the pipeline promises
  // ---------------------------------------------------------------------

  ghost predicate SomeFailed(gates: seq<GateResult>) {
    exists i :: 0 <= i < |gates| && gates[i].State() == Failed
  }

  ghost predicate SomePassed(gates: seq<GateResult>) {
    exists i :: 0 <= i < |gates| && gates[i].passed && !gates[i].broken
  }

  ghost predicate SomeBroken(gates: seq<GateResult>) {
    exists i :: 0 <= i < |gates| && gates[i].broken
  }

  /** The JSON of a grade amounts to a pass: it says so, it names "none" as the cause of a failure, or it is explicitly
      less sure than the floor. */
  predicate SaysPass(d: Data, floor: real) {
    || d.verdict == Some("pass")
    || d.cause == Some("none")
    || (d.verdict in {Some("retry"), Some("escalate")} && d.confidence.Number? && floor > 0.0
        && (d.confidence.value < floor || floor > 1.0))
  }

  /** How a parsed grade reads, verdict by verdict. */
  lemma ReadVerdictExactly(d: Data, floor: real)
    ensures Read(d, floor).verdict == Pass <==> SaysPass(d, floor)
    ensures Read(d, floor).verdict == Escalate <==> d.verdict == Some("escalate") && !SaysPass(d, floor)
    ensures Read(d, floor).verdict == Retry <==> d.verdict != Some("escalate") && !SaysPass(d, floor)
  {
    hide Settled;
    SettlingKeeps(Converted(d, floor), d);
  }

  lemma SettlingKeeps(g: Grade, d: Data)
    ensures Settled(g, d) == g.(verification := Settled(g, d).verification, reason := Settled(g, d).reason)
  {
  }

  /** The grade corrects a fact, and no claim backs that up. */
  predicate Unfounded(d: Data, e: Evidence) {
    (d.failureKind == "factual" || e.factualWording) && !Supported(e.claims, e.records)
  }

  predicate Teaches(d: Data) {
    Strip(d.strategy) != "" || Strip(d.diagnostic) != "" || Strip(d.whatFailed) != ""
  }

  /** The grade is withdrawn: an unfounded correction that fails the turn or would leave a lesson behind. */
  predicate Withdrawn(d: Data, floor: real, e: Evidence) {
    Unfounded(d, e) && (Teaches(d) || (!SaysPass(d, floor) && !e.phantom))
  }

  /** What the three guards make of a grade, field by field. */
  lemma GuardedExactly(d: Data, floor: real, e: Evidence)
    ensures var r, g := Read(d, floor), Guarded(Read(d, floor), e);
            if Withdrawn(d, floor, e) then
              && (g.verdict, g.cause, g.confidence, g.verification) == (Pass, "none", 0.0, Unknown)
              && g.strategy == g.diagnostic == g.whatFailed == g.missing == "" && g.deliverables == []
            else
              && (g.strategy, g.diagnostic, g.whatFailed) == (d.strategy, d.diagnostic, d.whatFailed)
              && (g.deliverables, g.confidence) == (d.deliverables, r.confidence)
              && if r.verdict != Pass && e.phantom then (g.verdict, g.cause, g.verification) == (Pass, "none", Unknown)
                 else
                   && g.verification == r.verification
                   && if r.verdict == Retry && RepeatedWall(e) then
                        g.verdict == Escalate && g.cause == if r.cause == "none" then "task" else r.cause
                      else g.verdict == r.verdict && g.cause == r.cause
  {
    hide Supported, Settled, Strip, Why, FirstTen;
    ReadVerdictExactly(d, floor);
    SettlingKeeps(Converted(d, floor), d);
  }

  /** The final verdict over every grade, evidence and gate list. A pass: no gate failed, and the grade amounts to one,
      is a phantom or corrects a fact without support. An escalation: none of that, and the grade escalates or retries
      into a wall it has hit before. A retry: every other failure, and whatever would have passed over a failed gate. */
  lemma FinalVerdictExactly(d: Data, floor: real, e: Evidence)
    ensures var let := SaysPass(d, floor) || e.phantom || Unfounded(d, e);
            var wall := e.termination in {"round_ceiling", "stuck_loop"} && e.termination in e.priors;
            var f := Final(d, floor, e).verdict;
            && (f == Pass <==> let && !SomeFailed(e.gates))
            && (f == Escalate <==> !let && (d.verdict == Some("escalate") || wall))
            && (f == Retry <==> if let then SomeFailed(e.gates) else d.verdict != Some("escalate") && !wall)
  {
    hide Read, Guarded, Supported, Strip;
    ReadVerdictExactly(d, floor);
    GuardedExactly(d, floor, e);
  }

  predicate NamesCause(d: Data) {
    d.cause.Some? && d.cause.value in {"scout", "agent", "skill", "task", "env"}
  }

  lemma ReadCauseExactly(d: Data, floor: real)
    ensures Read(d, floor).cause ==
            if NamesCause(d) && (d.verdict == Some("pass") || !SaysPass(d, floor)) then d.cause.value else "none"
  {
    hide Settled;
    SettlingKeeps(Converted(d, floor), d);
  }

  /** A pass over a failed gate becomes a retry that somebody answers for; nothing else changes the verdict any more. */
  lemma ClampedExactly(g: Grade, e: Evidence)
    ensures var f := Finished(g, e);
            var h := Guarded(g, e);
            if h.verdict == Pass && SomeFailed(e.gates) then
              f.verdict == Retry && f.cause == if h.cause in {"", "none"} then "task" else h.cause
            else f.verdict == h.verdict && f.cause == h.cause
  {
    hide Guarded;
  }

  /** Who a failure is attributed to: the known cause the grade named, if no guard took its verdict away; else the task,
      if the server forced the verdict; else nothing. */
  lemma FinalCauseExactly(d: Data, floor: real, e: Evidence)
    requires Final(d, floor, e).verdict != Pass
    ensures var let := SaysPass(d, floor) || e.phantom || Unfounded(d, e);
            Final(d, floor, e).cause ==
              if NamesCause(d) && (!let || (d.verdict == Some("pass") && !Withdrawn(d, floor, e))) then d.cause.value
              else if let || (d.verdict != Some("escalate") && RepeatedWall(e)) then "task" else "none"
  {
    hide Guarded, Read, Finished, Unfounded, Teaches, RepeatedWall, SaysPass;
    ReadVerdictExactly(d, floor);
    ReadCauseExactly(d, floor);
    GuardedExactly(d, floor, e);
    ClampedExactly(Read(d, floor), e);
    SaysPassIfItSaysSo(d, floor);
  }

  lemma SaysPassIfItSaysSo(d: Data, floor: real)
    ensures d.verdict == Some("pass") ==> SaysPass(d, floor)
  {
  }

  /** A withdrawn grade leaves no lesson and no confidence; any other keeps its own. */
  lemma LessonsExactly(d: Data, floor: real, e: Evidence)
    ensures var f := Final(d, floor, e);
            if Withdrawn(d, floor, e) then
              f.strategy == f.diagnostic == f.whatFailed == "" && f.deliverables == [] && f.confidence == 0.0
            else
              && (f.strategy, f.diagnostic, f.whatFailed) == (d.strategy, d.diagnostic, d.whatFailed)
              && f.deliverables == d.deliverables && 0.0 <= f.confidence <= 1.0
              && (d.confidence.Number? && 0.0 <= d.confidence.value <= 1.0 ==> f.confidence == d.confidence.value)
              && (!d.confidence.Number? ==> f.confidence == 0.0)
  {
    hide Guarded, Read, Withdrawn, GateClamped, Receipted;
    GuardedExactly(d, floor, e);
    ReadConfidenceExactly(d, floor);
    GatesKeepLessons(Guarded(Read(d, floor), e), e);
  }

  lemma ReadConfidenceExactly(d: Data, floor: real)
    ensures var c := Read(d, floor).confidence;
            && 0.0 <= c <= 1.0 && (!d.confidence.Number? ==> c == 0.0)
            && (d.confidence.Number? && 0.0 <= d.confidence.value <= 1.0 ==> c == d.confidence.value)
  {
    hide Settled;
    SettlingKeeps(Converted(d, floor), d);
  }

  lemma GatesKeepLessons(g: Grade, e: Evidence)
    ensures var f := Receipted(GateClamped(g, e.gates), e.gates);
            && (f.strategy, f.diagnostic, f.whatFailed) == (g.strategy, g.diagnostic, g.whatFailed)
            && f.deliverables == g.deliverables && f.confidence == g.confidence
  {
    hide FailingOf, BrokenOf, PassedOf, Names;
  }

  /** A gate that ran and failed: no pass, nothing verified, and a pass the guards left becomes an attributed retry. */
  lemma FailedGateRules(d: Data, floor: real, e: Evidence)
    requires SomeFailed(e.gates)
    ensures var f, g := Final(d, floor, e), Guarded(Read(d, floor), e);
            && f.verdict == (if g.verdict == Pass then Retry else g.verdict)
            && f.verification == Unknown && f.reason == Failing(Names(FailingOf(e.gates)))
            && (g.verdict == Pass ==> f.cause !in {"", "none"} && f.missing != "")
  {
    hide Read, Guarded;
  }

  predicate States(d: Data, word: string) {
    Lower(Strip(d.verification)) == word
  }

  predicate StatesNothing(d: Data) {
    !States(d, "verified") && !States(d, "partial") && !States(d, "unknown")
  }

  /** Something the grade asked for is missing or not met. */
  predicate LeavesOpen(d: Data) {
    d.missing != "" || exists i :: 0 <= i < |d.deliverables| && d.deliverables[i] != Met
  }

  /** What a parsed grade is filed as: what it states; if it states nothing, a pass it says itself by what it leaves
      open, and everything else, the server's own passes included, as unknown. */
  lemma ReadVerificationExactly(d: Data, floor: real)
    ensures var v := Read(d, floor).verification;
            && (v == Verified <==>
                  States(d, "verified") || (StatesNothing(d) && d.verdict == Some("pass") && !LeavesOpen(d)))
            && (v == Partial <==>
                  States(d, "partial") || (StatesNothing(d) && d.verdict == Some("pass") && LeavesOpen(d)))
            && (v == Unknown <==> States(d, "unknown") || (StatesNothing(d) && d.verdict != Some("pass")))
  {
    hide Strip, Lower;
  }

  /** What the final grade is filed as. A guard that took the verdict away makes it unknown, and so does a failed
      gate; a gate that could not run lowers verified to partial; gates that passed raise unknown to partial and no
      more. */
  lemma FinalVerificationExactly(d: Data, floor: real, e: Evidence)
    ensures var read, v := Read(d, floor).verification, Final(d, floor, e).verification;
            var taken := Withdrawn(d, floor, e) || (!SaysPass(d, floor) && e.phantom);
            var unknown := taken || read == Unknown;
            && (v == Verified <==> !taken && read == Verified && !SomeFailed(e.gates) && !SomeBroken(e.gates))
            && (v == Partial <==>
                  && !SomeFailed(e.gates)
                  && (|| (!taken && (read == Partial || (read == Verified && SomeBroken(e.gates))))
                      || (unknown && !SomeBroken(e.gates) && SomePassed(e.gates))))
            && (v == Unknown <==>
                  SomeFailed(e.gates) || (unknown && (SomeBroken(e.gates) || !SomePassed(e.gates))))
  {
    hide Read, Guarded, Withdrawn, SaysPass, Strip;
    ReadVerdictExactly(d, floor);
    ReadVerificationExactly(d, floor);
    GuardedExactly(d, floor, e);
  }

  /** Why a parsed grade is filed as it is: what turned it into a pass; else what it gives itself as the reason, if it
      states anything; else the first of what is wrong with it. */
  lemma ReadReasonExactly(d: Data, floor: real)
    ensures Read(d, floor).reason ==
            if SaysPass(d, floor) && d.verdict != Some("pass") then
              if d.cause == Some("none") then SelfContradiction else BelowFloor
            else if !StatesNothing(d) then Stated(d.reason)
            else if d.verdict !in {Some("pass"), Some("retry"), Some("escalate")} then Malformed
            else if d.verdict != Some("pass") then NotEstablished
            else if d.missing != "" then MissingEvidence
            else if exists i :: 0 <= i < |d.deliverables| && d.deliverables[i] != Met then Gaps
            else NoReason
  {
    hide Strip, Lower;
  }

  /** Why the final grade is: the gates have the first word, then the guard that rewrote it, then the grade. */
  lemma FinalReasonExactly(d: Data, floor: real, e: Evidence)
    ensures var g, read := Final(d, floor, e), Read(d, floor);
            var guarded := if Withdrawn(d, floor, e) then Rejected(Why(FirstTen(e.claims), e.records, NOT_ATTRIBUTABLE))
                           else if !SaysPass(d, floor) && e.phantom then Phantom else read.reason;
            var taken := Withdrawn(d, floor, e) || (!SaysPass(d, floor) && e.phantom);
            g.reason ==
              if SomeFailed(e.gates) then Failing(Names(FailingOf(e.gates)))
              else if SomeBroken(e.gates) then CouldNotRun(Names(BrokenOf(e.gates)), Names(PassedOf(e.gates)))
              else if SomePassed(e.gates) && (taken || read.verification == Unknown ||
                        (read.verification == Verified && guarded == NoReason))
              then Passing(Names(PassedOf(e.gates))) else guarded
  {
    hide Read, Guarded, Withdrawn, SaysPass, Why, FirstTen, Names, Strip;
    ReadVerdictExactly(d, floor);
    GuardedExactly(d, floor, e);
    GuardedReason(d, floor, e);
  }

  lemma GuardedReason(d: Data, floor: real, e: Evidence)
    ensures Guarded(Read(d, floor), e).reason ==
            if Withdrawn(d, floor, e) then Rejected(Why(FirstTen(e.claims), e.records, NOT_ATTRIBUTABLE))
            else if !SaysPass(d, floor) && e.phantom then Phantom else Read(d, floor).reason
  {
    hide Supported, Settled, Strip, Why, FirstTen;
    ReadVerdictExactly(d, floor);
    SettlingKeeps(Converted(d, floor), d);
  }

  /** What the final grade says is missing: what the grade said, unless it was withdrawn; or, where it said nothing,
      what the server asks for when it forces the verdict. */
  lemma FinalMissingExactly(d: Data, floor: real, e: Evidence)
    ensures var let := SaysPass(d, floor) || e.phantom || Unfounded(d, e);
            var walled := !SaysPass(d, floor) && d.verdict != Some("escalate")
                          && e.termination in {"round_ceiling", "stuck_loop"} && e.termination in e.priors;
            Final(d, floor, e).missing ==
              if !Withdrawn(d, floor, e) && d.missing != "" then d.missing
              else if !Withdrawn(d, floor, e) && walled
              then if e.termination == "round_ceiling" then "split the task or raise max_tool_rounds"
                   else "change the approach"
              else if let && SomeFailed(e.gates) then "make the failing gates pass" else ""
  {
    hide Read, Guarded, Withdrawn, SaysPass, Unfounded, Strip;
    ReadVerdictExactly(d, floor);
    GuardedExactly(d, floor, e);
    GuardedMissing(d, floor, e);
    FinalVerdictExactly(d, floor, e);
    ClampedMissing(Read(d, floor), e);
    WithdrawnIsUnfounded(d, floor, e);
  }

  lemma WithdrawnIsUnfounded(d: Data, floor: real, e: Evidence)
    ensures Withdrawn(d, floor, e) ==> Unfounded(d, e)
    ensures Unfounded(d, e) && !SaysPass(d, floor) && !e.phantom ==> Withdrawn(d, floor, e)
  {
  }

  lemma GuardedMissing(d: Data, floor: real, e: Evidence)
    ensures var walled := !SaysPass(d, floor) && d.verdict != Some("escalate") && RepeatedWall(e);
            Guarded(Read(d, floor), e).missing ==
              if Withdrawn(d, floor, e) then "" else if d.missing != "" then d.missing
              else if walled then WallAdvice(e.termination) else ""
  {
    hide Supported, Settled, Strip, Why, FirstTen, WallAdvice;
    ReadVerdictExactly(d, floor);
    SettlingKeeps(Converted(d, floor), d);
  }

  lemma ClampedMissing(g: Grade, e: Evidence)
    ensures var f, h := Finished(g, e), Guarded(g, e);
            f.missing ==
              if h.verdict == Pass && SomeFailed(e.gates) && h.missing == "" then MAKE_GATES_PASS else h.missing
  {
    hide Guarded;
  }

  function Rank(v: Verification): nat {
    match v case Unstated => 0 case Unknown => 0 case Partial => 1 case Verified => 2
  }

  /** Receipts lower or keep what is verified; the only thing they raise is unknown to partial, and a second look
      changes nothing. */
  lemma ReceiptsNeverCertify(g: Grade, gates: seq<GateResult>)
    ensures Rank(Receipted(g, gates).verification) <= Max(Rank(g.verification), 1)
    ensures Receipted(g, gates).verification == Verified ==> g.verification == Verified
    ensures Receipted(g, gates).verdict == g.verdict && Receipted(g, gates).cause == g.cause
    ensures Receipted(Receipted(g, gates), gates) == Receipted(g, gates)
  {
    hide FailingOf, BrokenOf, PassedOf, Names;
  }

  /** On a repeated wall the only way to a retry is a failing gate clamping what the guards had let pass. */
  lemma RepeatedWallRetriesExactly(d: Data, floor: real, e: Evidence)
    requires RepeatedWall(e)
    ensures Final(d, floor, e).verdict == Retry <==> SomeFailed(e.gates) && Guarded(Read(d, floor), e).verdict == Pass
  {
    hide Read, Supported, HasLessons;
  }

  /** A failure that ends up attributed to nothing named no recognised cause, and no part of the server forced it. */
  lemma CauselessFailureExactly(d: Data, floor: real, e: Evidence)
    ensures Final(d, floor, e).verdict != Pass && Final(d, floor, e).cause in {"", "none"} <==>
            && !SaysPass(d, floor) && !e.phantom && !Unfounded(d, e)
            && !NamesCause(d) && (d.verdict == Some("escalate") || !RepeatedWall(e))
  {
    hide Final, SaysPass, Unfounded, Withdrawn, RepeatedWall;
    FinalVerdictExactly(d, floor, e);
    SaysPassIfItSaysSo(d, floor);
    if Final(d, floor, e).verdict != Pass {
      FinalCauseExactly(d, floor, e);
    }
  }

  /** A grade the server turned into a pass is not filed as a verification, unless the grade itself states one. */
  lemma DowngradesDoNotVerify(d: Data, floor: real)
    requires Contradicts(d) || TooUnsure(d, floor)
    ensures Read(d, floor).verdict == Pass
    ensures Read(d, floor).verification == if ReadVerification(d) == Unstated then Unknown else ReadVerification(d)
  {
  }

  /** The order is part of the promise: with the clamp before the guards a phantom grade passes over a failing gate. */
  lemma ClampMustComeLast(d: Data, floor: real, e: Evidence)
    requires Read(d, floor).verdict != Pass && e.phantom && SomeFailed(e.gates)
    ensures Receipted(Guarded(GateClamped(Read(d, floor), e.gates), e), e.gates).verdict == Pass
    ensures Final(d, floor, e).verdict == Retry && Final(d, floor, e).cause == "task"
  {
    hide Read, Supported, HasLessons;
  }
}
