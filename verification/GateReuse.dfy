/** core/gates.py: deterministic gates over the attempts of a turn, and the reuse of an earlier failure when nothing
    a gate watches has changed. */
module GateReuse {
  import opened Common

  datatype GateState = Passed | Failed | Unavailable

  datatype GateResult = GateResult(
    name: string, command: string, passed: bool, exitCode: Option<int>, outputTail: string, reused: bool,
    error: string, fingerprint: string, scope: string, broken: bool, cwd: string)
  {
    function State(): GateState {
      if passed then Passed else if broken then Unavailable else Failed
    }
  }

  /** A registered gate; `cwd` is the directory its row resolves to. */
  datatype Row = Row(name: string, command: string, scope: string, cwd: string)

  /** What running a gate now would report, and the fingerprint of what it watches ("" when it watches nothing). A
      gate that is not started, refused by policy or by the system, reports no directory. */
  datatype Look = Look(
    fingerprint: string, passed: bool, exitCode: Option<int>, outputTail: string, error: string, broken: bool,
      started: bool)

  /** One sweep: the gates registered at that moment, and what running each of them would report. */
  datatype Attempt = Attempt(turn: Option<int>, number: int, rows: seq<Row>, view: seq<Look>)
  {
    ghost predicate Shaped() { Registered(rows) && |view| == |rows| }
  }

  type Prior = map<string, (string, GateResult)>

  datatype History = History(turn: Option<int>, prior: Prior)

  ghost predicate Registered(rows: seq<Row>) {
    forall i, j :: 0 <= i < j < |rows| ==> rows[i].name != rows[j].name
  }

  function Ran(row: Row, l: Look): GateResult {
    GateResult(row.name, row.command, l.passed, l.exitCode, l.outputTail, false, l.error, l.fingerprint, row.scope,
               l.broken, if l.started then row.cwd else "")
  }

  /** The prior failure again: everything but whether it passed is carried over. */
  function ReusedFrom(row: Row, fingerprint: string, r: GateResult): GateResult {
    GateResult(row.name, row.command, false, r.exitCode, r.outputTail, true, r.error, fingerprint, row.scope,
      r.broken, r.cwd)
  }

  predicate MayReuse(row: Row, prior: Prior, number: int, l: Look) {
    && number > 2 && l.fingerprint != ""
    && row.name in prior && prior[row.name].0 == l.fingerprint && !prior[row.name].1.passed
  }

  function ResultFor(row: Row, prior: Prior, number: int, l: Look): GateResult {
    if MayReuse(row, prior, number, l) then ReusedFrom(row, l.fingerprint, prior[row.name].1) else Ran(row, l)
  }

  /** What a row's answer says. It is under the row's own name, command and scope and the fingerprint seen now. It is
      a reuse from the third attempt on if what the gate watches is as it was when it failed; then it is a failure
      with the prior one's details. Otherwise it is what running the gate reports, from the row's directory. */
  predicate Answers(r: GateResult, row: Row, prior: Prior, number: int, l: Look) {
    && (r.name, r.command, r.scope, r.fingerprint) == (row.name, row.command, row.scope, l.fingerprint)
    && (r.reused <==>
          && number >= 3 && l.fingerprint != "" && row.name in prior
          && prior[row.name].0 == l.fingerprint && !prior[row.name].1.passed)
    && if r.reused then
         var was := prior[row.name].1;
         && !r.passed && (r.exitCode, r.outputTail, r.error) == (was.exitCode, was.outputTail, was.error)
         && (r.broken, r.cwd) == (was.broken, was.cwd)
       else
         && (r.passed, r.exitCode, r.outputTail, r.error) == (l.passed, l.exitCode, l.outputTail, l.error)
         && r.broken == l.broken && r.cwd == if l.started then row.cwd else ""
  }

  method RunGates(rows: seq<Row>, prior: Prior, number: int, view: seq<Look>) returns (results: seq<GateResult>)
    requires |view| == |rows|
    ensures |results| == |rows|
    ensures forall i :: 0 <= i < |rows| ==> results[i] == ResultFor(rows[i], prior, number, view[i])
    ensures forall i :: 0 <= i < |rows| ==> Answers(results[i], rows[i], prior, number, view[i])
  {
    results := [];
    for i := 0 to |rows|
      invariant |results| == i
      invariant forall j :: 0 <= j < i ==> results[j] == ResultFor(rows[j], prior, number, view[j])
    {
      var row, fp := rows[i], view[i].fingerprint;
      if number > 2 && fp != "" {
        if row.name in prior && prior[row.name].0 == fp && !prior[row.name].1.passed {
          results := results + [ReusedFrom(row, fp, prior[row.name].1)];
          continue;
        }
      }
      results := results + [Ran(row, view[i])];
    }
  }

  function Swept(prior: Prior, a: Attempt): seq<GateResult>
    requires |a.view| == |a.rows|
  {
    seq(|a.rows|, i requires 0 <= i < |a.rows| => ResultFor(a.rows[i], prior, a.number, a.view[i]))
  }

  function Recorded(prior: Prior, results: seq<GateResult>): Prior {
    if results == [] then prior
    else
      var before, r := Recorded(prior, results[..|results| - 1]), results[|results| - 1];
      if r.fingerprint != "" then before[r.name := (r.fingerprint, r)] else before
  }

  function Fresh(h: History, turn: Option<int>): History {
    if turn != h.turn then History(turn, map[]) else h
  }

  class GateHistory {
    var turn: Option<int>
    var prior: Prior

    function Now(): History
      reads this
    {
      History(turn, prior)
    }

    constructor ()
      ensures Now() == History(None, map[])
    {
      turn, prior := None, map[];
    }

    method ResetIfNewTurn(to: Option<int>)
      modifies this
      ensures Now() == Fresh(old(Now()), to)
    {
      if to != turn {
        turn, prior := to, map[];
      }
    }

    method Record(results: seq<GateResult>)
      modifies `prior
      ensures prior == Recorded(old(prior), results)
    {
      for i := 0 to |results|
        invariant prior == Recorded(old(prior), results[..i])
      {
        assert results[..i + 1][..i] == results[..i];
        if results[i].fingerprint != "" {
          prior := prior[results[i].name := (results[i].fingerprint, results[i])];
        }
      }
      assert results[..|results|] == results;
    }

    /** run_gates_for_turn */
    method RunForTurn(a: Attempt, enabled: bool) returns (results: seq<GateResult>)
      requires |a.view| == |a.rows|
      modifies this
      ensures !enabled ==> results == [] && Now() == old(Now())
      ensures enabled ==> results == Swept(Fresh(old(Now()), a.turn).prior, a)
      ensures enabled ==> Now() == Next(old(Now()), a)
    {
      if !enabled {
        return [];
      }
      ResetIfNewTurn(a.turn);
      results := RunGates(a.rows, prior, a.number, a.view);
      assert results == Swept(prior, a);
      Record(results);
    }
  }

  function Next(h: History, a: Attempt): History
    requires |a.view| == |a.rows|
  {
    var now := Fresh(h, a.turn);
    History(a.turn, Recorded(now.prior, Swept(now.prior, a)))
  }

  // ---------------------------------------------------------------------
  // Any sequence of attempts
  // ---------------------------------------------------------------------

  /** Names are unique in each attempt; the gates themselves may change from one to the next. */
  ghost predicate Shaped(attempts: seq<Attempt>) {
    forall k :: 0 <= k < |attempts| ==> attempts[k].Shaped()
  }

  ghost function After(attempts: seq<Attempt>): History
    requires Shaped(attempts)
  {
    if attempts == [] then History(None, map[]) else Next(After(Front(attempts)), Last(attempts))
  }

  function Front(attempts: seq<Attempt>): seq<Attempt>
    requires attempts != []
  {
    attempts[..|attempts| - 1]
  }

  function Last(attempts: seq<Attempt>): Attempt
    requires attempts != []
  {
    attempts[|attempts| - 1]
  }

  /** What the last attempt finds in the memory. */
  ghost function Remembered(attempts: seq<Attempt>): Prior
    requires Shaped(attempts) && attempts != []
  {
    Fresh(After(Front(attempts)), Last(attempts).turn).prior
  }

  /** What the last attempt reports. */
  ghost function Reported(attempts: seq<Attempt>): seq<GateResult>
    requires Shaped(attempts) && attempts != []
    ensures |Reported(attempts)| == |Last(attempts).rows|
  {
    Swept(Remembered(attempts), Last(attempts))
  }

  function SlotOf(rows: seq<Row>, name: string): Option<nat> {
    if rows == [] then None
    else if rows[|rows| - 1].name == name then Some(|rows| - 1)
    else SlotOf(rows[..|rows| - 1], name)
  }

  /** An attempt and a place in it: one real run of one gate. */
  datatype Source = Source(attempt: nat, slot: nat)

  /** The real run behind what is remembered of a gate: the last sweep that recorded it, or the one behind that if that
      sweep reused. */
  ghost function Origin(attempts: seq<Attempt>, name: string): Option<Source>
    requires Shaped(attempts)
  {
    if attempts == [] then None
    else
      var slot := SlotOf(Last(attempts).rows, name);
      if slot.Some? && slot.value < |Last(attempts).view| && Last(attempts).view[slot.value].fingerprint != ""
         && !MayReuse(Last(attempts).rows[slot.value], Remembered(attempts), Last(attempts).number,
           Last(attempts).view[slot.value])
      then Some(Source(|attempts| - 1, slot.value))
      else Origin(Front(attempts), name)
  }

  ghost predicate Exists(attempts: seq<Attempt>, s: Source) {
    s.attempt < |attempts| && s.slot < |attempts[s.attempt].rows| && s.slot < |attempts[s.attempt].view|
  }

  /** What that run reported. */
  ghost function RunAt(attempts: seq<Attempt>, s: Source): GateResult
    requires Exists(attempts, s)
  {
    Ran(attempts[s.attempt].rows[s.slot], attempts[s.attempt].view[s.slot])
  }

  /** r is what run s reported, under whatever command and scope its gate has now. */
  ghost predicate CarriedFrom(r: GateResult, attempts: seq<Attempt>, turn: Option<int>, s: Source) {
    && Exists(attempts, s) && attempts[s.attempt].turn == turn
    && var run := RunAt(attempts, s); r.(reused := false, command := run.command, scope := run.scope) == run
  }

  ghost predicate Traced(prior: Prior, attempts: seq<Attempt>, turn: Option<int>)
    requires Shaped(attempts)
  {
    forall n :: n in prior ==>
      && prior[n].1.name == n && prior[n].1.fingerprint == prior[n].0 != ""
      && Origin(attempts, n).Some? && CarriedFrom(prior[n].1, attempts, turn, Origin(attempts, n).value)
  }

  lemma {:induction false} SlotFound(rows: seq<Row>, name: string)
    ensures SlotOf(rows, name).Some? ==>
            SlotOf(rows, name).value < |rows| && rows[SlotOf(rows, name).value].name == name
    ensures forall i :: 0 <= i < |rows| && rows[i].name == name ==> SlotOf(rows, name).Some?
  {
    if rows != [] {
      SlotFound(rows[..|rows| - 1], name);
    }
  }

  /** What a sweep leaves in the memory under a name. */
  lemma {:induction false} RecordedAt(prior: Prior, results: seq<GateResult>, n: string)
    requires forall i, j :: 0 <= i < j < |results| ==> results[i].name != results[j].name
    ensures (forall j :: 0 <= j < |results| && results[j].name == n ==> results[j].fingerprint == "") ==>
              (n in Recorded(prior, results) <==> n in prior) &&
                (n in prior ==> Recorded(prior, results)[n] == prior[n])
    ensures forall j :: 0 <= j < |results| && results[j].name == n && results[j].fingerprint != "" ==>
              n in Recorded(prior, results) && Recorded(prior, results)[n] == (results[j].fingerprint, results[j])
  {
    if results != [] {
      RecordedAt(prior, results[..|results| - 1], n);
    }
  }

  lemma FrontShaped(attempts: seq<Attempt>)
    requires Shaped(attempts) && attempts != []
    ensures Shaped(Front(attempts)) && Last(attempts).Shaped()
    ensures forall s: Source, r, turn :: CarriedFrom(r, Front(attempts), turn, s) ==> CarriedFrom(r, attempts, turn, s)
    ensures forall s: Source :: Exists(Front(attempts), s) ==> RunAt(Front(attempts), s) == RunAt(attempts, s)
  {
  }

  lemma {:induction false} HistoryIsTraced(attempts: seq<Attempt>)
    requires Shaped(attempts)
    ensures Traced(After(attempts).prior, attempts, After(attempts).turn)
  {
    hide CarriedFrom, Recorded, Origin;
    if attempts != [] {
      FrontShaped(attempts);
      HistoryIsTraced(Front(attempts));
      forall n | n in After(attempts).prior
        ensures After(attempts).prior[n].1.name == n &&
                After(attempts).prior[n].1.fingerprint == After(attempts).prior[n].0 != ""
        ensures Origin(attempts, n).Some?
        ensures CarriedFrom(After(attempts).prior[n].1, attempts, After(attempts).turn, Origin(attempts, n).value)
      {
        EntryIsTraced(attempts, n);
      }
    }
  }

  lemma EntryIsTraced(attempts: seq<Attempt>, n: string)
    requires Shaped(attempts) && attempts != [] && n in After(attempts).prior
    requires Traced(After(Front(attempts)).prior, Front(attempts), After(Front(attempts)).turn)
    ensures var e := After(attempts).prior[n];
            && e.1.name == n && e.1.fingerprint == e.0 != ""
            && Origin(attempts, n).Some? && CarriedFrom(e.1, attempts, After(attempts).turn, Origin(attempts, n).value)
  {
    hide Recorded, After, CarriedFrom, MayReuse, ResultFor, Remembered, Reported, Origin, Traced;
    var a, prior, results := Last(attempts), Remembered(attempts), Reported(attempts);
    AfterOne(attempts);
    ReportedNames(attempts);
    RecordedAt(prior, results, n);
    SlotFound(a.rows, n);
    var slot := SlotOf(a.rows, n);
    if slot.Some? && a.view[slot.value].fingerprint != "" {
      assert results[slot.value].name == n;
      SweptIsTraced(attempts, slot.value);
    } else {
      RememberedIsTraced(attempts, n);
    }
  }

  lemma ReportedNames(attempts: seq<Attempt>)
    requires Shaped(attempts) && attempts != []
    ensures Last(attempts).Shaped()
    ensures forall j :: 0 <= j < |Last(attempts).rows| ==>
              Reported(attempts)[j].name == Last(attempts).rows[j].name
              && Reported(attempts)[j].fingerprint == Last(attempts).view[j].fingerprint
  {
    hide After, Recorded;
  }

  /** A result that is recorded: its own run, or a reuse of what was remembered. */
  lemma SweptIsTraced(attempts: seq<Attempt>, j: nat)
    requires Shaped(attempts) && attempts != [] && j < |Last(attempts).rows| && Last(attempts).view[j].fingerprint != ""
    requires SlotOf(Last(attempts).rows, Last(attempts).rows[j].name) == Some(j)
    requires Traced(After(Front(attempts)).prior, Front(attempts), After(Front(attempts)).turn)
    ensures var n := Last(attempts).rows[j].name;
            && Origin(attempts, n).Some?
            && CarriedFrom(Reported(attempts)[j], attempts, Last(attempts).turn, Origin(attempts, n).value)
  {
    hide Recorded, After, Origin, CarriedFrom, RunAt;
    OneSweep(attempts, j);
    FrontShaped(attempts);
    if MayReuse(Last(attempts).rows[j], Remembered(attempts), Last(attempts).number, Last(attempts).view[j]) {
      ReuseIsTraced(attempts, j);
    } else {
      OwnRunIsTraced(attempts, j);
    }
  }

  lemma OneSweep(attempts: seq<Attempt>, j: nat)
    requires Shaped(attempts) && attempts != [] && j < |Last(attempts).rows|
    ensures Last(attempts).Shaped()
    ensures var a := Last(attempts);
            Reported(attempts)[j] == ResultFor(a.rows[j], Remembered(attempts), a.number, a.view[j])
  {
    hide Recorded, After;
  }

  lemma OwnRunIsTraced(attempts: seq<Attempt>, j: nat)
    requires Shaped(attempts) && attempts != [] && j < |Last(attempts).rows| && Last(attempts).view[j].fingerprint != ""
    requires Last(attempts).Shaped() && SlotOf(Last(attempts).rows, Last(attempts).rows[j].name) == Some(j)
    requires !MayReuse(Last(attempts).rows[j], Remembered(attempts), Last(attempts).number, Last(attempts).view[j])
    ensures Origin(attempts, Last(attempts).rows[j].name) == Some(Source(|attempts| - 1, j))
    ensures CarriedFrom(Ran(Last(attempts).rows[j], Last(attempts).view[j]), attempts, Last(attempts).turn,
            Source(|attempts| - 1, j))
  {
    hide Recorded, After, MayReuse, Remembered;
  }

  lemma ReuseIsTraced(attempts: seq<Attempt>, j: nat)
    requires Shaped(attempts) && attempts != [] && j < |Last(attempts).rows| && Last(attempts).Shaped()
    requires SlotOf(Last(attempts).rows, Last(attempts).rows[j].name) == Some(j)
    requires MayReuse(Last(attempts).rows[j], Remembered(attempts), Last(attempts).number, Last(attempts).view[j])
    requires Traced(After(Front(attempts)).prior, Front(attempts), After(Front(attempts)).turn)
    ensures var row, l := Last(attempts).rows[j], Last(attempts).view[j];
            && Origin(attempts, row.name).Some?
            && CarriedFrom(ReusedFrom(row, l.fingerprint, Remembered(attempts)[row.name].1), attempts,
              Last(attempts).turn,
                           Origin(attempts, row.name).value)
  {
    hide Recorded, After, Remembered;
    AfterOne(attempts);
    FrontShaped(attempts);
  }

  lemma RememberedIsTraced(attempts: seq<Attempt>, n: string)
    requires Shaped(attempts) && attempts != [] && n in Remembered(attempts)
    requires var slot := SlotOf(Last(attempts).rows, n);
             slot.Some? && slot.value < |Last(attempts).view| ==> Last(attempts).view[slot.value].fingerprint == ""
    requires Traced(After(Front(attempts)).prior, Front(attempts), After(Front(attempts)).turn)
    ensures var e := Remembered(attempts)[n];
            && e.1.name == n && e.1.fingerprint == e.0 != ""
            && Origin(attempts, n).Some? && CarriedFrom(e.1, attempts, Last(attempts).turn, Origin(attempts, n).value)
  {
    hide Recorded, After;
    FrontShaped(attempts);
    AfterOne(attempts);
  }

  lemma AfterOne(attempts: seq<Attempt>)
    requires Shaped(attempts) && attempts != []
    ensures After(attempts) == History(Last(attempts).turn, Recorded(Remembered(attempts), Reported(attempts)))
    ensures forall n :: n in Remembered(attempts) ==>
              After(Front(attempts)).turn == Last(attempts).turn && Remembered(attempts) == After(Front(attempts)).prior
  {
  }

  /** The real run a reported result stands for: its own, or through any chain of reuse the one behind the memory. */
  ghost function StandsFor(attempts: seq<Attempt>, i: nat): Option<Source>
    requires Shaped(attempts) && attempts != [] && i < |Last(attempts).rows|
  {
    if Reported(attempts)[i].reused then Origin(Front(attempts), Last(attempts).rows[i].name)
      else Some(Source(|attempts| - 1, i))
  }

  /** Chains included, every reported result carries over a real run of this turn, made under the fingerprint seen
      now. */
  lemma ReportedIsCarried(attempts: seq<Attempt>, i: nat)
    requires Shaped(attempts) && attempts != [] && i < |Last(attempts).rows|
    ensures StandsFor(attempts, i).Some?
    ensures CarriedFrom(Reported(attempts)[i], attempts, Last(attempts).turn, StandsFor(attempts, i).value)
    ensures RunAt(attempts, StandsFor(attempts, i).value).fingerprint == Last(attempts).view[i].fingerprint
    ensures RunAt(attempts, StandsFor(attempts, i).value).name == Last(attempts).rows[i].name
    ensures Reported(attempts)[i].reused ==> StandsFor(attempts, i).value.attempt < |attempts| - 1
  {
    hide After, Origin;
    FrontShaped(attempts);
    HistoryIsTraced(Front(attempts));
    AfterOne(attempts);
  }

  ghost function RowAt(attempts: seq<Attempt>, s: Source): Row
    requires Exists(attempts, s)
  {
    attempts[s.attempt].rows[s.slot]
  }

  /** The memory's real run of a gate was made under the very row the gate has now. Known before the sweep. */
  ghost predicate SameDefinition(attempts: seq<Attempt>, i: nat)
    requires Shaped(attempts) && attempts != [] && i < |Last(attempts).rows|
  {
    var s := Origin(Front(attempts), Last(attempts).rows[i].name);
    s.Some? && Exists(attempts, s.value) && RowAt(attempts, s.value) == Last(attempts).rows[i]
  }

  /** The run behind the report was made under this row's definition, and the report is that run's but for the reuse
      mark. */
  ghost predicate OwnReport(attempts: seq<Attempt>, i: nat)
    requires Shaped(attempts) && attempts != [] && i < |Last(attempts).rows|
  {
    var s := StandsFor(attempts, i);
    && s.Some? && Exists(attempts, s.value) && RowAt(attempts, s.value) == Last(attempts).rows[i]
    && Reported(attempts)[i].(reused := false) == RunAt(attempts, s.value)
  }

  /** A report is the gate's own exactly when it is not reused, or the gate has kept the definition it was last
      really run under: its command, its scope and its directory. */
  lemma ReportIsOwnExactly(attempts: seq<Attempt>, i: nat)
    requires Shaped(attempts) && attempts != [] && i < |Last(attempts).rows|
    ensures OwnReport(attempts, i) <==> !Reported(attempts)[i].reused || SameDefinition(attempts, i)
  {
    hide After, Origin, Remembered;
    ReportedIsCarried(attempts, i);
    FrontShaped(attempts);
  }

  /** What a command reports in a directory is settled by what its gate watches: within a turn, equal fingerprints
      mean equal states. */
  ghost predicate SettledByFingerprint(attempts: seq<Attempt>) {
    forall s: Source, t: Source ::
      Exists(attempts, s) && Exists(attempts, t) && attempts[s.attempt].turn == attempts[t.attempt].turn
      && RowAt(attempts, s) == RowAt(attempts, t)
      && RunAt(attempts, s).fingerprint == RunAt(attempts, t).fingerprint != ""
      ==> RunAt(attempts, s).State() == RunAt(attempts, t).State()
  }

  /** Reuse is invisible for a gate that kept its definition: over any sequence of attempts its state is what running it
      would have given. */
  lemma ReuseRefinesRunning(attempts: seq<Attempt>, i: nat)
    requires Shaped(attempts) && attempts != [] && i < |Last(attempts).rows|
    requires SettledByFingerprint(attempts)
    requires Reported(attempts)[i].reused ==> SameDefinition(attempts, i)
    ensures Reported(attempts)[i].State() == Ran(Last(attempts).rows[i], Last(attempts).view[i]).State()
  {
    hide After, Origin, Remembered;
    ReportedIsCarried(attempts, i);
    var s, t := StandsFor(attempts, i).value, Source(|attempts| - 1, i);
    assert Exists(attempts, t) && RunAt(attempts, t) == Ran(Last(attempts).rows[i], Last(attempts).view[i]);
    if Reported(attempts)[i].reused {
      ReportIsOwnExactly(attempts, i);
      OnlyFailuresAreReused(attempts, i);
    }
  }

  /** Only a failure is reused, from the third attempt on, and only for a gate that watches something. */
  lemma OnlyFailuresAreReused(attempts: seq<Attempt>, i: nat)
    requires Shaped(attempts) && attempts != [] && i < |Last(attempts).rows|
    requires Reported(attempts)[i].reused
    ensures Last(attempts).number > 2 && Last(attempts).view[i].fingerprint != "" &&
            Reported(attempts)[i].State() != Passed
    ensures StandsFor(attempts, i).Some? && Exists(attempts, StandsFor(attempts, i).value)
    ensures RunAt(attempts, StandsFor(attempts, i).value).State() == Reported(attempts)[i].State()
  {
    hide After, Origin;
    ReportedIsCarried(attempts, i);
  }

  lemma TwoAttempts(a: Attempt, b: Attempt)
    requires a.Shaped() && b.Shaped()
    ensures Shaped([a]) && Shaped([a, b]) && Front([a, b]) == [a] && Front([a]) == [] && Last([a, b]) == b &&
            Last([a]) == a
  {
  }

  /** A gate re-registered in the middle of a turn: from the third attempt on it reports the earlier definition's
      failure under its own name, whatever it would say itself; and that is its own report only if nothing about it
      changed. */
  lemma NewDefinitionInheritsTheOldFailure(
      was: Row, row: Row, before: Look, now: Look, turn: Option<int>, number: int)
    requires was.name == row.name && before.fingerprint == now.fingerprint != "" && !before.passed && number > 2
    ensures var attempts := [Attempt(turn, 1, [was], [before]), Attempt(turn, number, [row], [now])];
            && Shaped(attempts) && Reported(attempts)[0].reused && Reported(attempts)[0].command == row.command
            && Reported(attempts)[0].State() == Ran(was, before).State() != Passed
            && Reported(attempts)[0].cwd == Ran(was, before).cwd
            && (OwnReport(attempts, 0) <==> was == row)
  {
    var a, b := Attempt(turn, 1, [was], [before]), Attempt(turn, number, [row], [now]);
    TwoAttempts(a, b);
    AfterOne([a]);
    var results := Reported([a]);
    assert results == [Ran(was, before)] && results[..0] == [];
    assert Recorded(Remembered([a]), results)[was.name] == (before.fingerprint, Ran(was, before));
    assert SlotOf([was], row.name) == Some(0);
    assert Origin([a], row.name) == Some(Source(0, 0));
    ReportIsOwnExactly([a, b], 0);
  }

  /** The fingerprint does not tell directories apart: moved to another one, in which it would pass, a gate goes on
      reporting the old one's failure, and names the old one. */
  lemma NewDirectoryInheritsTheOldFailure(row: Row, elsewhere: string, before: Look, now: Look, turn: Option<int>)
    requires elsewhere != row.cwd && before.started
    requires before.fingerprint == now.fingerprint != "" && !before.passed && now.passed
    ensures var attempts := [Attempt(turn, 1, [row.(cwd := elsewhere)], [before]), Attempt(turn, 3, [row], [now])];
            && Shaped(attempts) && Ran(row, now).State() == Passed
            && Reported(attempts)[0].State() != Passed && Reported(attempts)[0].cwd == elsewhere != row.cwd
            && !OwnReport(attempts, 0)
  {
    hide Reported, OwnReport, Shaped;
    NewDefinitionInheritsTheOldFailure(row.(cwd := elsewhere), row, before, now, turn, 3);
  }

  /** The command in the memory does not tell: after one such reuse it is the new one, and the old failure goes on. */
  lemma RecordedCommandDoesNotTell(was: Row, row: Row, before: Look, now: Look, turn: Option<int>)
    requires was.name == row.name && was.command != row.command
    requires before.fingerprint == now.fingerprint != "" && !before.passed && now.passed
    ensures var attempts := [
              Attempt(turn, 1, [was], [before]), Attempt(turn, 3, [row], [now]), Attempt(turn, 4, [row], [now])];
            && Shaped(attempts) && row.name in Remembered(attempts)
            && Remembered(attempts)[row.name].1.command == row.command
            && Reported(attempts)[0].reused && Reported(attempts)[0].State() != Passed && !OwnReport(attempts, 0)
  {
    var a, b, c := Attempt(turn, 1, [was], [before]), Attempt(turn, 3, [row], [now]), Attempt(turn, 4, [row], [now]);
    var two, all := [a, b], [a, b, c];
    TwoAttempts(a, b);
    assert Shaped(all) && Front(all) == two && Last(all) == c;
    NewDefinitionInheritsTheOldFailure(was, row, before, now, turn, 3);
    AfterOne(two);
    var results := Reported(two);
    assert results == [results[0]] && results[..0] == [];
    assert SlotOf([row], row.name) == Some(0);
    ReportedIsCarried(two, 0);
    assert Recorded(Remembered(two), results)[row.name] == (now.fingerprint, results[0]);
    assert Origin(two, row.name) == Origin([a], row.name);
    ReportIsOwnExactly(all, 0);
  }
}
