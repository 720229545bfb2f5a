/** maintenance.py, the daily tier: duties on threads nobody can cancel, stamped one by one, over the database gate. */
module Maintenance {
  import opened Common
  import DB = DatabaseGate

  const DAY := 24 * 3600
  const RETRY_INTERVAL := 3600
  const DUTY_TIMEOUT := 300

  datatype Duty = MemoryHealth | IncrementalVacuum | PruneCron | PruneHygiene

  const DAILY_DUTIES := [MemoryHealth, IncrementalVacuum, PruneCron, PruneHygiene]

  // ---------------------------------------------------------------------
  // The runner's own books
  // ---------------------------------------------------------------------

  /** What survives a restart (the stamps) and what does not (the in-flight marks). Zero means never. */
  datatype Books = Books(success: map<Duty, nat>, lastAttempt: nat, inflight: set<Duty>)
  {
    function LastSuccess(d: Duty): nat {
      if d in success then success[d] else 0
    }

    predicate Due(d: Duty, now: nat) {
      now - LastSuccess(d) >= DAY
    }

    function DutiesDue(now: nat): seq<Duty> {
      DueAmong(DAILY_DUTIES, now)
    }

    function DueAmong(duties: seq<Duty>, now: nat): seq<Duty> {
      if duties == [] then []
      else (if Due(duties[0], now) then [duties[0]] else []) + DueAmong(duties[1..], now)
    }

    predicate TimeToTry(now: nat) {
      DutiesDue(now) != [] && !(lastAttempt != 0 && now - lastAttempt < RETRY_INTERVAL)
    }
  }

  lemma NoDuties(b: Books, now: nat)
    ensures b.DueAmong([], now) == []
  {
  }

  lemma DueFrom(b: Books, i: nat, now: nat)
    requires i < |DAILY_DUTIES|
    ensures b.DueAmong(DAILY_DUTIES[i..], now) ==
            (if b.Due(DAILY_DUTIES[i], now) then [DAILY_DUTIES[i]] else []) + b.DueAmong(DAILY_DUTIES[i + 1..], now)
  {
    assert DAILY_DUTIES[i..][1..] == DAILY_DUTIES[i + 1..];
  }

  predicate NoRepeats(q: seq<Duty>) {
    forall i, j :: 0 <= i < j < |q| ==> q[i] != q[j]
  }

  lemma {:induction false} DueHolds(b: Books, duties: seq<Duty>, now: nat)
    requires NoRepeats(duties)
    ensures NoRepeats(b.DueAmong(duties, now))
    ensures forall d :: d in b.DueAmong(duties, now) <==> d in duties && b.Due(d, now)
  {
    if duties != [] {
      DueHolds(b, duties[1..], now);
    }
  }

  /** The list of what is due is empty exactly when every duty there is was done less than a day ago. */
  lemma SomethingIsDue(b: Books, now: nat)
    ensures b.DutiesDue(now) != [] <==> exists d: Duty :: now - b.LastSuccess(d) >= 24 * 3600
    ensures forall d: Duty :: d in b.DutiesDue(now) <==> now - b.LastSuccess(d) >= 24 * 3600
  {
    hide Books.DueAmong;
    DueHolds(b, DAILY_DUTIES, now);
    forall d: Duty
      ensures d in DAILY_DUTIES
    {
      assert d == DAILY_DUTIES[match d case MemoryHealth => 0 case IncrementalVacuum => 1 case PruneCron => 2
                               case PruneHygiene => 3];
    }
    forall d: Duty
      ensures d in b.DutiesDue(now) <==> now - b.LastSuccess(d) >= 24 * 3600
    {
      assert b.Due(d, now) <==> now - b.LastSuccess(d) >= 24 * 3600;
    }
    if d: Duty :| now - b.LastSuccess(d) >= 24 * 3600 {
      assert d in b.DutiesDue(now);
    }
    if b.DutiesDue(now) != [] {
      assert b.DutiesDue(now)[0] in b.DutiesDue(now);
      assert now - b.LastSuccess(b.DutiesDue(now)[0]) >= 24 * 3600;
    }
  }

  class MaintenanceRunner {
    var dailySuccess: map<Duty, nat>
    var lastAttempt: nat
    var dailyInflight: set<Duty>

    function Now(): Books
      reads this
    {
      Books(dailySuccess, lastAttempt, dailyInflight)
    }

    constructor ()
      ensures Now() == Books(map[], 0, {})
    {
      dailySuccess, lastAttempt, dailyInflight := map[], 0, {};
    }

    method FindDuties(now: nat) returns (due: seq<Duty>)
      ensures due == Now().DutiesDue(now)
    {
      hide Books.DueAmong;
      due := [];
      assert DAILY_DUTIES[0..] == DAILY_DUTIES;
      NoDuties(Now(), now);
      for i := 0 to |DAILY_DUTIES|
        invariant due + Now().DueAmong(DAILY_DUTIES[i..], now) == Now().DutiesDue(now)
      {
        var d := DAILY_DUTIES[i];
        DueFrom(Now(), i, now);
        var last := if d in dailySuccess then dailySuccess[d] else 0;
        if now - last >= DAY {
          due := due + [d];
        }
      }
    }

    /** Outstanding work and time to try are separate questions; the attempt is stamped only when both say yes. */
    method DailyTierDue(now: nat) returns (start: bool)
      modifies this
      ensures start == old(Now()).TimeToTry(now)
      ensures start <==>
                && (exists d: Duty :: now - old(Now()).LastSuccess(d) >= 24 * 3600)
                && (old(lastAttempt) == 0 || now - old(lastAttempt) >= 3600)
      ensures Now() == if start then old(Now()).(lastAttempt := now) else old(Now())
    {
      var due := FindDuties(now);
      SomethingIsDue(Now(), now);
      if due == [] {
        return false;
      }
      if lastAttempt != 0 && now - lastAttempt < RETRY_INTERVAL {
        return false;
      }
      lastAttempt := now;
      return true;
    }

    /** Submitting a duty to the pool; refused while an earlier thread of it is still there. */
    method StartDuty(d: Duty) returns (started: bool)
      modifies this
      ensures started <==> d !in old(dailyInflight)
      ensures Now() == old(Now()).(inflight := old(dailyInflight) + {d})
    {
      if d in dailyInflight {
        assert dailyInflight + {d} == dailyInflight;
        return false;
      }
      dailyInflight := dailyInflight + {d};
      return true;
    }

    method DutyThreadDone(d: Duty)
      modifies this
      ensures Now() == old(Now()).(inflight := old(dailyInflight) - {d})
    {
      dailyInflight := dailyInflight - {d};
    }

    method StampDuty(d: Duty, now: nat)
      modifies this
      ensures Now() == old(Now()).(success := old(dailySuccess)[d := now])
    {
      dailySuccess := dailySuccess[d := now];
    }
  }

  // ---------------------------------------------------------------------
  // The whole system: the clock, the tier's task, the threads and the gate
  // ---------------------------------------------------------------------

  /** A duty thread: its body runs, and notes when it has got through the gate to its work; then its result waits for
      the done callback, then it is only a result. */
  datatype Worker = Running(duty: Duty, worked: bool) | Ended(duty: Duty, ok: bool) | Reported(duty: Duty, ok: bool)
  {
    predicate Live() { !Reported? }
  }

  /** The tier's task: not there, taking its backup, or somewhere in its list of duties. */
  datatype Task = NoTask | Preparing | Todo(queue: seq<Duty>) | Awaiting(thread: DB.Thread, duty: Duty, since: nat,
    queue: seq<Duty>)

  datatype Event =
    | Attempted(time: nat)
    | Started(thread: DB.Thread, duty: Duty, time: nat)
    | AtWork(thread: DB.Thread, duty: Duty)
    | Succeeded(thread: DB.Thread)
    | GaveUp(thread: DB.Thread)
    | Stamped(thread: DB.Thread, duty: Duty, time: nat)

  datatype System = System(
    now: nat, books: Books, task: Task, workers: map<DB.Thread, Worker>, gate: DB.State, log: Trail<Event>)
  {
    function Log(e: Event): System { this.(log := Then(log, e)) }
  }

  datatype Move =
    | Pass(seconds: nat)
    | Heartbeat
    | ListDuties
    | NextDuty(thread: DB.Thread)
    | BodyEnds(thread: DB.Thread, ok: bool)
    | DoneCallback(thread: DB.Thread)
    | Resume
    | GiveUp
    | Cancel
    | Restart
    | AtGate(thread: DB.Thread, move: DB.Move)

  /** Which gate calls a duty's body makes: the vacuum claims the slot, the prunes announce themselves. */
  predicate UsesGateAs(d: Duty, m: DB.Move) {
    match d
    case MemoryHealth => false
    case IncrementalVacuum => m.Claim? || m.StartDrain? || m.Drain? || m.Release? || m.TimeUp?
    case PruneCron => m.StartWrite? || m.Enter? || m.Leave? || m.TimeUp?
    case PruneHygiene => m.StartWrite? || m.Enter? || m.Leave? || m.TimeUp?
  }

  /** Where a duty's body does its work: exclusively, announced, or without the gate. */
  predicate Works(d: Duty, pc: DB.PC) {
    match d
    case MemoryHealth => false
    case IncrementalVacuum => pc.Exclusive?
    case PruneCron => pc.Writing?
    case PruneHygiene => pc.Writing?
  }

  /** Threads that are not duties (checkpoint, snapshot, optimize) may make any gate call. */
  predicate Enabled(s: System, m: Move) {
    match m
    case Pass(_) => true
    case Heartbeat => s.task.NoTask?
    case ListDuties => s.task.Preparing?
    case NextDuty(t) => s.task.Todo? && t !in s.workers && s.gate.At(t).Idle?
    case BodyEnds(t, ok) =>
      && t in s.workers && s.workers[t].Running? && s.gate.At(t).Idle?
      && (ok && !s.workers[t].duty.MemoryHealth? ==> s.workers[t].worked)
    case DoneCallback(t) => t in s.workers && s.workers[t].Ended?
    case Resume => s.task.Awaiting? && s.task.thread in s.workers && s.workers[s.task.thread].Reported?
    case GiveUp => s.task.Awaiting? && s.now >= s.task.since + DUTY_TIMEOUT
    case Cancel => !s.task.NoTask?
    case Restart => true
    case AtGate(t, g) =>
      && DB.Enabled(s.gate.At(t), g)
      && (t in s.workers ==> s.workers[t].Running? && UsesGateAs(s.workers[t].duty, g))
  }

  function Step(s: System, m: Move): System
    requires Enabled(s, m)
  {
    match m
    case Pass(seconds) => s.(now := s.now + seconds)
    case Heartbeat =>
      if s.books.TimeToTry(s.now)
      then s.(books := s.books.(lastAttempt := s.now), task := Preparing).Log(Attempted(s.now))
      else s
    case ListDuties => s.(task := Todo(s.books.DutiesDue(s.now)))
    case NextDuty(t) =>
      if s.task.queue == [] then s.(task := NoTask)
      else
        var d := s.task.queue[0];
        if d in s.books.inflight then s.(task := Todo(s.task.queue[1..]))
        else
          s.(books := s.books.(inflight := s.books.inflight + {d}), workers := s.workers[t := Running(d, false)],
             task := Awaiting(t, d, s.now, s.task.queue[1..])).Log(Started(t, d, s.now))
    case BodyEnds(t, ok) =>
      var s1 := s.(workers := s.workers[t := Ended(s.workers[t].duty, ok)]);
      if ok then s1.Log(Succeeded(t)) else s1
    case DoneCallback(t) =>
      var w := s.workers[t];
      s.(books := s.books.(inflight := s.books.inflight - {w.duty}), workers := s.workers[t := Reported(w.duty, w.ok)])
    case Resume =>
      var next := s.(task := Todo(s.task.queue));
      if s.workers[s.task.thread].ok
      then next.(books := s.books.(success := s.books.success[s.task.duty := s.now]))
        .Log(Stamped(s.task.thread, s.task.duty, s.now))
      else next
    case GiveUp => s.(task := Todo(s.task.queue)).Log(GaveUp(s.task.thread))
    case Cancel => if s.task.Awaiting? then s.(task := NoTask).Log(GaveUp(s.task.thread)) else s.(task := NoTask)
    case Restart =>
      s.(task := NoTask, workers := map t | t in s.workers :: Reported(s.workers[t].duty, false),
         books := s.books.(inflight := {}), gate := DB.START)
    case AtGate(t, g) =>
      var s1 := s.(gate := DB.Step(s.gate, t, g));
      if t in s.workers && Works(s.workers[t].duty, s1.gate.At(t))
      then s1.(workers := s.workers[t := Running(s.workers[t].duty, true)]).Log(AtWork(t, s.workers[t].duty))
      else s1
  }

  function After(start: nat, run: Trail<Move>): System {
    match run
    case Start => System(start, Books(map[], 0, {}), NoTask, map[], DB.START, Start)
    case Then(past, m) =>
      var s := After(start, past);
      if Enabled(s, m) then Step(s, m) else s
  }

  // ---------------------------------------------------------------------
  // What the history may look like
  // ---------------------------------------------------------------------

  predicate Happened(log: Trail<Event>, e: Event) {
    log.Then? && (log.last == e || Happened(log.past, e))
  }

  /** A stamp answers to a body that was started, succeeded, and had not been given up on. */
  ghost predicate StampsAreEarned(log: Trail<Event>) {
    log.Then? ==>
      && StampsAreEarned(log.past)
      && (log.last.Stamped? ==>
            && Happened(log.past, Succeeded(log.last.thread))
            && !Happened(log.past, GaveUp(log.last.thread))
            && (!log.last.duty.MemoryHealth? ==> Happened(log.past, AtWork(log.last.thread, log.last.duty)))
            && exists time :: Happened(log.past, Started(log.last.thread, log.last.duty, time)))
  }

  function LastStamp(log: Trail<Event>, d: Duty): nat {
    if log.Start? then 0
    else if log.last.Stamped? && log.last.duty == d then log.last.time
    else LastStamp(log.past, d)
  }

  function LastAttempt(log: Trail<Event>): nat {
    if log.Start? then 0 else if log.last.Attempted? then log.last.time else LastAttempt(log.past)
  }

  /** Attempts are at least an hour apart, and a duty is started only when its last stamp is a day old. */
  predicate Spaced(log: Trail<Event>) {
    log.Then? ==>
      && Spaced(log.past)
      && (log.last.Attempted? ==> LastAttempt(log.past) == 0 || log.last.time - LastAttempt(log.past) >= RETRY_INTERVAL)
      && (log.last.Started? ==> log.last.time - LastStamp(log.past, log.last.duty) >= DAY)
  }

  function Queue(t: Task): seq<Duty> {
    if t.Todo? || t.Awaiting? then t.queue else []
  }

  predicate Flies(s: System, t: DB.Thread, d: Duty) {
    t in s.workers && s.workers[t].Live() && s.workers[t].duty == d
  }

  /** At most one live thread per duty, and the in-flight marks are exactly the duties with one. */
  ghost predicate SingleFlight(s: System) {
    && (forall t, u, d :: Flies(s, t, d) && Flies(s, u, d) ==> t == u)
    && (forall d :: d in s.books.inflight <==> exists t :: Flies(s, t, d))
  }

  ghost predicate Bookkeeping(s: System) {
    && s.books.lastAttempt == LastAttempt(s.log)
    && (forall d :: s.books.LastSuccess(d) == LastStamp(s.log, d))
    && Spaced(s.log)
    && StampsAreEarned(s.log)
  }

  predicate HasWorked(w: Worker) {
    if w.Running? then w.worked else w.ok && !w.duty.MemoryHealth?
  }

  ghost predicate TierWellFormed(s: System) {
    && NoRepeats(Queue(s.task))
    && (forall d :: d in Queue(s.task) ==> s.books.Due(d, s.now))
    && AwaitedWellFormed(s) && ResultsWellFormed(s)
  }

  ghost predicate AwaitedWellFormed(s: System) {
    s.task.Awaiting? ==>
      && s.task.duty !in s.task.queue
      && s.task.thread in s.workers && s.workers[s.task.thread].duty == s.task.duty
      && !Happened(s.log, GaveUp(s.task.thread))
      && exists time :: Happened(s.log, Started(s.task.thread, s.task.duty, time))
  }

  ghost predicate ResultsWellFormed(s: System) {
    && (forall t :: t in s.workers && !s.workers[t].Running? && s.workers[t].ok ==> Happened(s.log, Succeeded(t)))
    && (forall t :: Happened(s.log, GaveUp(t)) ==> t in s.workers)
  }

  ghost predicate WorkIsLogged(s: System) {
    forall t :: t in s.workers && HasWorked(s.workers[t]) ==> Happened(s.log, AtWork(t, s.workers[t].duty))
  }

  ghost predicate Inv(s: System) {
    SingleFlight(s) && Bookkeeping(s) && TierWellFormed(s) && WorkIsLogged(s) && DB.Inv(s.gate)
  }

  lemma KeepsWorkLogged(s: System, m: Move)
    requires WorkIsLogged(s) && Enabled(s, m)
    ensures WorkIsLogged(Step(s, m))
  {
    hide DB.Step, Books.DutiesDue;
  }

  lemma KeepsSingleFlight(s: System, m: Move)
    requires SingleFlight(s) && Enabled(s, m)
    ensures SingleFlight(Step(s, m))
  {
    var s' := Step(s, m);
    forall d ensures d in s'.books.inflight <==> exists t :: Flies(s', t, d) {
      if d in s.books.inflight {
        var t :| Flies(s, t, d);
        assert d in s'.books.inflight ==> Flies(s', t, d);
      }
      if m.NextDuty? && d in s'.books.inflight && d !in s.books.inflight {
        assert Flies(s', m.thread, d);
      }
      if t :| Flies(s', t, d) {
        assert Flies(s, t, d) || (m.NextDuty? && t == m.thread);
        if m.DoneCallback? {
          assert Flies(s, m.thread, s.workers[m.thread].duty);
        }
      }
    }
    forall t, u, d | Flies(s', t, d) && Flies(s', u, d)
      ensures t == u
    {
      assert Flies(s, t, d) || (m.NextDuty? && t == m.thread);
      assert Flies(s, u, d) || (m.NextDuty? && u == m.thread);
    }
  }

  lemma KeepsBookkeeping(s: System, m: Move)
    requires Bookkeeping(s) && TierWellFormed(s) && WorkIsLogged(s) && Enabled(s, m)
    ensures Bookkeeping(Step(s, m))
  {
    if m.NextDuty? && s.task.queue != [] {
      assert s.books.Due(s.task.queue[0], s.now);
    }
  }

  /** What is still queued is still due: only the awaited duty can be stamped, and the clock only moves on. */
  lemma KeepsQueueDue(s: System, m: Move)
    requires TierWellFormed(s) && Enabled(s, m)
    ensures NoRepeats(Queue(Step(s, m).task))
    ensures forall d :: d in Queue(Step(s, m).task) ==> Step(s, m).books.Due(d, Step(s, m).now)
  {
    if m.ListDuties? {
      DueHolds(s.books, DAILY_DUTIES, s.now);
    } else {
      assert forall d :: d in Queue(Step(s, m).task) ==> d in Queue(s.task);
      assert forall d :: s.books.Due(d, s.now) && !(m.Resume? && d == s.task.duty) ==>
        Step(s, m).books.Due(d, Step(s, m).now);
    }
  }

  /** One step adds one event to the log or none, and only the awaited thread is ever given up on. */
  lemma LogGrows(s: System, m: Move)
    requires Enabled(s, m)
    ensures var s' := Step(s, m);
            || s'.log == s.log
            || (s'.log.Then? && s'.log.past == s.log
                && (s'.log.last.GaveUp? ==> s.task.Awaiting? && s'.log.last.thread == s.task.thread))
  {
    hide Books.Due, Books.DutiesDue, Books.TimeToTry, DB.Step, Works;
  }

  lemma KeepsTrace(s: System, m: Move)
    requires Enabled(s, m)
    ensures forall t, d, time :: Happened(s.log, Started(t, d, time)) ==> Happened(Step(s, m).log, Started(t, d, time))
    ensures forall t :: Happened(Step(s, m).log, GaveUp(t)) ==>
              Happened(s.log, GaveUp(t)) || (s.task.Awaiting? && t == s.task.thread)
  {
    hide Step, Enabled;
    LogGrows(s, m);
  }

  lemma KeepsTier(s: System, m: Move)
    requires TierWellFormed(s) && Enabled(s, m)
    ensures TierWellFormed(Step(s, m))
  {
    hide Books.Due, Step, Enabled;
    KeepsQueueDue(s, m);
    KeepsAwaited(s, m);
    KeepsResults(s, m);
  }

  lemma KeepsAwaited(s: System, m: Move)
    requires TierWellFormed(s) && Enabled(s, m)
    ensures AwaitedWellFormed(Step(s, m))
  {
    hide Books.Due;
    var s' := Step(s, m);
    KeepsTrace(s, m);
    if s.task.Awaiting? && s'.task.Awaiting? {
      var time :| Happened(s.log, Started(s.task.thread, s.task.duty, time));
      assert Happened(s'.log, Started(s.task.thread, s.task.duty, time));
    }
    if m.NextDuty? && s'.task.Awaiting? {
      assert Happened(s'.log, Started(m.thread, s'.task.duty, s.now));
    }
  }

  lemma KeepsResults(s: System, m: Move)
    requires TierWellFormed(s) && Enabled(s, m)
    ensures ResultsWellFormed(Step(s, m))
  {
    hide Books.Due;
  }

  lemma KeepsGate(s: System, m: Move)
    requires DB.Inv(s.gate) && Enabled(s, m)
    ensures DB.Inv(Step(s, m).gate)
  {
    if m.AtGate? {
      DB.StepKeepsInv(s.gate, m.thread, m.move);
    } else if m.Restart? {
      DB.RunKeepsInv(Start);
    }
  }

  // ---------------------------------------------------------------------
  // Over every run
  // ---------------------------------------------------------------------

  /** Any interleaving of clock, heartbeat, timeouts, cancellations, late threads, restarts and gate calls.
      The clock starts more than a day after zero, as an epoch clock does. */
  lemma {:induction false} RunKeepsInv(start: nat, run: Trail<Move>)
    requires start >= DAY
    ensures Inv(After(start, run))
  {
    if run.Start? {
      DB.RunKeepsInv(Start);
    } else {
      RunKeepsInv(start, run.past);
      var s := After(start, run.past);
      if Enabled(s, run.last) {
        KeepsSingleFlight(s, run.last);
        KeepsBookkeeping(s, run.last);
        KeepsTier(s, run.last);
        KeepsWorkLogged(s, run.last);
        KeepsGate(s, run.last);
      }
    }
  }

  /** By the log, some duty was last stamped a day ago or never. */
  ghost predicate SomeDutyWaits(log: Trail<Event>, now: nat) {
    exists d: Duty :: now - LastStamp(log, d) >= 24 * 3600
  }

  lemma WaitingByLog(s: System)
    requires Bookkeeping(s)
    ensures s.books.DutiesDue(s.now) != [] <==> SomeDutyWaits(s.log, s.now)
    ensures s.books.lastAttempt == LastAttempt(s.log)
  {
    hide Books.DutiesDue, LastStamp, LastAttempt, Books.LastSuccess, Spaced, StampsAreEarned;
    SomethingIsDue(s.books, s.now);
    forall d: Duty
      ensures s.books.LastSuccess(d) == LastStamp(s.log, d)
    {
    }
    if d: Duty :| s.now - LastStamp(s.log, d) >= 24 * 3600 {
      assert s.now - s.books.LastSuccess(d) >= 24 * 3600;
    }
    if d: Duty :| s.now - s.books.LastSuccess(d) >= 24 * 3600 {
      assert s.now - LastStamp(s.log, d) >= 24 * 3600;
    }
  }

  /** The heartbeat starts the tier exactly when none is under way, some duty's last stamp is a day old, and the last
      attempt, if there was one, an hour; then it records the attempt. Otherwise it does nothing. */
  lemma HeartbeatStartsExactly(start: nat, run: Trail<Move>)
    requires start >= DAY
    ensures var s, t := After(start, run), After(start, Then(run, Heartbeat));
            var due := && s.task.NoTask? && SomeDutyWaits(s.log, s.now)
                       && (LastAttempt(s.log) == 0 || s.now - LastAttempt(s.log) >= 3600);
            if due then t.task == Preparing && t.log == Then(s.log, Attempted(s.now)) else t == s
  {
    hide Books.DutiesDue, SomeDutyWaits, LastAttempt;
    RunKeepsInv(start, run);
    WaitingByLog(After(start, run));
  }

  /** The tier then goes through exactly the duties whose last stamp is a day old, each once. */
  lemma TierListsExactly(start: nat, run: Trail<Move>)
    requires start >= DAY && After(start, run).task.Preparing?
    ensures var s, t := After(start, run), After(start, Then(run, ListDuties));
            && t.task.Todo? && NoRepeats(t.task.queue) && t == s.(task := t.task)
            && forall d: Duty :: d in t.task.queue <==> s.now - LastStamp(s.log, d) >= 24 * 3600
  {
    hide Books.DutiesDue;
    RunKeepsInv(start, run);
    RunKeepsInv(start, Then(run, ListDuties));
    var s := After(start, run);
    SomethingIsDue(s.books, s.now);
  }

  /** p is an earlier moment of the run. */
  predicate Moment(p: Trail<Move>, run: Trail<Move>) {
    p == run || (run.Then? && Moment(p, run.past))
  }

  /** At that moment the thread is in the duty's body, at its work behind the gate. */
  ghost predicate InBody(start: nat, p: Trail<Move>, t: DB.Thread, d: Duty) {
    var s := After(start, p);
    t in s.workers && s.workers[t].Running? && s.workers[t].duty == d && Works(d, s.gate.At(t))
  }

  lemma {:induction false} WorkHadItsMoment(start: nat, run: Trail<Move>, t: DB.Thread, d: Duty)
      returns (p: Trail<Move>)
    requires Happened(After(start, run).log, AtWork(t, d))
    ensures Moment(p, run) && InBody(start, p, t, d)
  {
    hide DB.Step, Books.DutiesDue, Books.TimeToTry;
    var s := After(start, run.past);
    if Happened(s.log, AtWork(t, d)) {
      p := WorkHadItsMoment(start, run.past, t, d);
    } else {
      p := run;
    }
  }

  lemma {:induction false} StampEarned(log: Trail<Event>, t: DB.Thread, d: Duty, time: nat)
    requires StampsAreEarned(log) && Happened(log, Stamped(t, d, time)) && !d.MemoryHealth?
    ensures Happened(log, AtWork(t, d))
  {
    if log.last != Stamped(t, d, time) {
      StampEarned(log.past, t, d, time);
    }
  }

  /** A stamped vacuum was in exclusive work and a stamped prune in announced work, in that duty's own thread; and at
      any such moment of a vacuum no announced writer's body runs and nobody else is in exclusive work. */
  lemma StampedDutyDidItsWork(start: nat, run: Trail<Move>, t: DB.Thread, d: Duty, time: nat) returns (p: Trail<Move>)
    requires start >= DAY && !d.MemoryHealth? && Happened(After(start, run).log, Stamped(t, d, time))
    ensures Moment(p, run) && InBody(start, p, t, d)
    ensures d.IncrementalVacuum? ==>
              forall u :: !After(start, p).gate.At(u).Writing? && (After(start, p).gate.At(u).Exclusive? ==> u == t)
  {
    hide Step, Enabled, Happened;
    RunKeepsInv(start, run);
    StampEarned(After(start, run).log, t, d, time);
    p := WorkHadItsMoment(start, run, t, d);
    if d.IncrementalVacuum? {
      forall u
        ensures !After(start, p).gate.At(u).Writing? && (After(start, p).gate.At(u).Exclusive? ==> u == t)
      {
        VacuumRunsAlone(start, p, t, u);
      }
    }
  }

  /** The vacuum's body never overlaps an announced writer's body (a prune, a checkpoint, a snapshot), even after
      the tier stopped waiting for either; and at most one thread is in exclusive work. */
  lemma VacuumRunsAlone(start: nat, run: Trail<Move>, t: DB.Thread, u: DB.Thread)
    requires start >= DAY && InBody(start, run, t, IncrementalVacuum)
    ensures !After(start, run).gate.At(u).Writing?
    ensures forall d :: InBody(start, run, u, d) ==> u == t && d == IncrementalVacuum
    ensures After(start, run).gate.At(u).Exclusive? ==> u == t
  {
    hide Step;
    RunKeepsInv(start, run);
    assert DB.Holds(After(start, run).gate.At(t));
  }

  /** A duty with no new stamp stays due: giving up, cancelling, failing or restarting never hides it. */
  lemma DueUntilStamped(s: System, m: Move, d: Duty)
    requires Enabled(s, m) && s.books.Due(d, s.now)
    ensures Step(s, m).books.Due(d, Step(s, m).now) || Step(s, m).log == Then(s.log, Stamped(Awaited(s), d, s.now))
  {
  }

  function Awaited(s: System): DB.Thread {
    if s.task.Awaiting? then s.task.thread else 0
  }

  function StartsOf(log: Trail<Event>, d: Duty): nat {
    if log.Start? then 0 else StartsOf(log.past, d) + if log.last.Started? && log.last.duty == d then 1 else 0
  }

  /** A duty whose thread outlived its awaiter, by a timeout, a cancellation or a whole new tier, is not started
      again while that thread lives. */
  lemma {:induction false} NoSecondStartWhileItLives(start: nat, p: Trail<Move>, run: Trail<Move>, t: DB.Thread,
      d: Duty)
    requires start >= DAY && Moment(p, run) && Flies(After(start, p), t, d) && Flies(After(start, run), t, d)
    ensures StartsOf(After(start, run).log, d) == StartsOf(After(start, p).log, d)
  {
    hide Step, Enabled;
    if p != run {
      ThreadsStay(start, p, run.past, t);
      var s := After(start, run.past);
      if Enabled(s, run.last) {
        RunKeepsInv(start, run.past);
        LivingBlocksStart(s, run.last, t, d);
      }
      NoSecondStartWhileItLives(start, p, run.past, t, d);
    }
  }

  lemma {:induction false} ThreadsStay(start: nat, p: Trail<Move>, run: Trail<Move>, t: DB.Thread)
    requires Moment(p, run) && t in After(start, p).workers
    ensures t in After(start, run).workers
  {
    hide DB.Step, Books.DutiesDue, Books.TimeToTry;
    if p != run {
      ThreadsStay(start, p, run.past, t);
    }
  }

  /** One step: a thread that lives after it and was there before lived before, and its duty was not started by it. */
  lemma LivingBlocksStart(s: System, m: Move, t: DB.Thread, d: Duty)
    requires Enabled(s, m) && SingleFlight(s) && t in s.workers && Flies(Step(s, m), t, d)
    ensures Flies(s, t, d) && StartsOf(Step(s, m).log, d) == StartsOf(s.log, d)
  {
    hide DB.Step, Books.DutiesDue, Books.TimeToTry;
    assert Flies(s, t, d);
  }

  // ---------------------------------------------------------------------
  // What a tier gets done
  // ---------------------------------------------------------------------

  function Do(s: System, m: Move): System {
    if Enabled(s, m) then Step(s, m) else s
  }

  function Go(s: System, moves: seq<Move>): System
    decreases |moves|
  {
    if moves == [] then s else Go(Do(s, moves[0]), moves[1..])
  }

  /** The gate calls of a duty's body when nobody is in its way. */
  function Work(t: DB.Thread, d: Duty): seq<Move> {
    match d
    case MemoryHealth => []
    case IncrementalVacuum =>
      [AtGate(t, DB.Claim("vacuum")), AtGate(t, DB.StartDrain), AtGate(t, DB.Drain(false)), AtGate(t, DB.Release)]
    case _ => [AtGate(t, DB.StartWrite), AtGate(t, DB.Enter("prune", false)), AtGate(t, DB.Leave)]
  }

  /** A duty from its start to its stamp. */
  function WholeDuty(t: DB.Thread, d: Duty): seq<Move> {
    [NextDuty(t)] + Work(t, d) + [BodyEnds(t, true), DoneCallback(t), Resume]
  }

  function WholeTier(threads: seq<DB.Thread>, queue: seq<Duty>): seq<Move>
    requires |threads| == |queue| + 1
  {
    if queue == [] then [NextDuty(threads[0])]
    else WholeDuty(threads[0], queue[0]) + WholeTier(threads[1..], queue[1..])
  }

  lemma {:induction false} GoOn(s: System, a: seq<Move>, b: seq<Move>)
    ensures Go(s, a + b) == Go(Go(s, a), b)
    decreases |a|
  {
    hide Do;
    if a == [] {
      assert a + b == b;
    } else {
      assert (a + b)[1..] == a[1..] + b;
      GoOn(Do(s, a[0]), a[1..], b);
    }
  }

  lemma GoThree(s: System, a: Move, b: Move, c: Move)
    ensures Go(s, [a]) == Do(s, a) && Go(s, [a, b, c]) == Do(Do(Do(s, a), b), c)
  {
    hide Do;
    assert [a][1..] == [] && [a, b, c][1..] == [b, c] && [b, c][1..] == [c] && [c][1..] == [];
    assert Go(s, [a]) == Go(Do(s, a), []);
    assert Go(Do(Do(s, a), b), [c]) == Go(Do(Do(Do(s, a), b), c), []);
    assert Go(s, [a, b, c]) == Go(Do(s, a), [b, c]) == Go(Do(Do(s, a), b), [c]);
  }

  /** No claim, no announced writer. */
  predicate IsFree(g: DB.State) {
    g.gate.holder.None? && g.gate.writers == map[]
  }

  /** Threads that were idle stay idle, and this one is idle again. */
  ghost predicate QuietAgain(before: DB.State, after: DB.State, t: DB.Thread) {
    IsFree(after) && after.At(t).Idle? && forall u :: before.At(u).Idle? ==> after.At(u).Idle?
  }

  lemma VacuumAtGate(g: DB.State, t: DB.Thread)
    requires IsFree(g) && g.At(t).Idle?
    ensures var a := DB.Step(g, t, DB.Claim("vacuum"));
            && DB.Enabled(a.At(t), DB.StartDrain) && a.At(t).Claimed?
            && var b := DB.Step(a, t, DB.StartDrain);
               && DB.Enabled(b.At(t), DB.Drain(false)) && b.At(t).DrainTrying?
               && var c := DB.Step(b, t, DB.Drain(false));
                  && c.At(t).Exclusive?
                  && QuietAgain(g, DB.Step(c, t, DB.Release), t) && DB.Step(c, t, DB.Release).At(t).Idle?
  {
  }

  lemma PruneAtGate(g: DB.State, t: DB.Thread)
    requires IsFree(g) && g.At(t).Idle?
    ensures var a := DB.Step(g, t, DB.StartWrite);
            && DB.Enabled(a.At(t), DB.Enter("prune", false)) && a.At(t).EnterTrying?
            && var b := DB.Step(a, t, DB.Enter("prune", false));
               && b.At(t).Writing?
               && QuietAgain(g, DB.Step(b, t, DB.Leave), t)
  {
  }

  /** The body of a duty, alone at the gate, comes to its work and out again. */
  lemma WorkIsDone(s: System, t: DB.Thread, d: Duty)
    requires t in s.workers && s.workers[t] == Running(d, false) && IsFree(s.gate) && s.gate.At(t).Idle?
    ensures var u := Go(s, Work(t, d));
            && u == s.(gate := u.gate, workers := s.workers[t := Running(d, !d.MemoryHealth?)], log := u.log)
            && QuietAgain(s.gate, u.gate, t)
  {
    hide DB.Step, DB.Enabled, Go, DB.State.At, Works;
    match d {
      case MemoryHealth => NoWork(s, t);
      case IncrementalVacuum =>
        VacuumAtGate(s.gate, t);
        VacuumWorks(s, t);
      case _ =>
        PruneAtGate(s.gate, t);
        PruneWorks(s, t, d);
    }
  }

  lemma NoWork(s: System, t: DB.Thread)
    requires t in s.workers && s.workers[t] == Running(MemoryHealth, false) && IsFree(s.gate) && s.gate.At(t).Idle?
    ensures Go(s, Work(t, MemoryHealth)) == s == s.(workers := s.workers[t := Running(MemoryHealth, false)])
    ensures QuietAgain(s.gate, s.gate, t)
  {
  }

  lemma VacuumWorks(s: System, t: DB.Thread)
    requires t in s.workers && s.workers[t] == Running(IncrementalVacuum, false)
    requires IsFree(s.gate) && s.gate.At(t).Idle?
    ensures var u := Go(s, Work(t, IncrementalVacuum));
            && u == s.(gate := u.gate, workers := s.workers[t := Running(IncrementalVacuum, true)], log := u.log)
            && QuietAgain(s.gate, u.gate, t)
  {
    hide DB.Step, Go, DB.State.At, QuietAgain, IsFree;
    VacuumAtGate(s.gate, t);
    var m := Work(t, IncrementalVacuum);
    var s1 := Do(s, m[0]);
    var s2 := Do(s1, m[1]);
    var s3 := Do(s2, m[2]);
    assert s1 == s.(gate := DB.Step(s.gate, t, DB.Claim("vacuum")));
    assert s2 == s1.(gate := DB.Step(s1.gate, t, DB.StartDrain));
    assert s3 == s2.(gate := DB.Step(s2.gate, t, DB.Drain(false)),
                     workers := s.workers[t := Running(IncrementalVacuum, true)], log := s3.log);
    assert m == [m[0], m[1], m[2]] + [m[3]];
    GoOn(s, [m[0], m[1], m[2]], [m[3]]);
    GoThree(s, m[0], m[1], m[2]);
    GoThree(s3, m[3], m[3], m[3]);
  }

  lemma PruneWorks(s: System, t: DB.Thread, d: Duty)
    requires d.PruneCron? || d.PruneHygiene?
    requires t in s.workers && s.workers[t] == Running(d, false) && IsFree(s.gate) && s.gate.At(t).Idle?
    ensures var u := Go(s, Work(t, d));
            && u == s.(gate := u.gate, workers := s.workers[t := Running(d, true)], log := u.log)
            && QuietAgain(s.gate, u.gate, t)
  {
    hide DB.Step, Go, DB.State.At, QuietAgain, IsFree;
    PruneAtGate(s.gate, t);
    var m := Work(t, d);
    var s1 := Do(s, m[0]);
    var s2 := Do(s1, m[1]);
    assert s1 == s.(gate := DB.Step(s.gate, t, DB.StartWrite));
    assert s2 == s1.(gate := DB.Step(s1.gate, t, DB.Enter("prune", false)), workers := s.workers[t := Running(d, true)],
                     log := s2.log);
    GoThree(s, m[0], m[1], m[2]);
    assert m == [m[0], m[1], m[2]];
  }

  /** One duty from its start to its stamp: the tier has gone on to the rest of its list, and of the books only the
      stamp is new. */
  lemma DutyIsDone(s: System, t: DB.Thread, d: Duty, rest: seq<Duty>)
    requires s.task == Todo([d] + rest) && d !in s.books.inflight
    requires t !in s.workers && IsFree(s.gate) && s.gate.At(t).Idle?
    ensures var u := Go(s, WholeDuty(t, d));
            && u.task == Todo(rest) && u.now == s.now && u.workers.Keys == s.workers.Keys + {t}
            && u.books == s.books.(success := s.books.success[d := s.now])
            && QuietAgain(s.gate, u.gate, t)
  {
    hide Go, Books.DutiesDue, Books.TimeToTry, DB.Step, DB.State.At, IsFree, QuietAgain;
    var s1 := Do(s, NextDuty(t));
    assert ([d] + rest)[1..] == rest;
    assert s1 == s.(books := s.books.(inflight := s.books.inflight + {d}), workers := s.workers[t := Running(d, false)],
                    task := Awaiting(t, d, s.now, rest), log := s1.log);
    WorkIsDone(s1, t, d);
    var s2 := Go(s1, Work(t, d));
    IdleAgain(s1.gate, s2.gate, t);
    GoOn(s, [NextDuty(t)], Work(t, d));
    GoThree(s, NextDuty(t), Resume, Resume);
    GoOn(s, [NextDuty(t)] + Work(t, d), [BodyEnds(t, true), DoneCallback(t), Resume]);
    GoThree(s2, BodyEnds(t, true), DoneCallback(t), Resume);
    FinishDuty(s2, t, d, rest);
    assert s.books.inflight + {d} - {d} == s.books.inflight;
  }

  lemma IdleAgain(before: DB.State, after: DB.State, t: DB.Thread)
    requires QuietAgain(before, after, t)
    ensures after.At(t).Idle?
  {
  }

  lemma FinishDuty(s: System, t: DB.Thread, d: Duty, rest: seq<Duty>)
    requires s.task.Awaiting? && s.task.thread == t && s.task.duty == d && s.task.queue == rest
    requires t in s.workers && s.workers[t] == Running(d, !d.MemoryHealth?) && s.gate.At(t).Idle?
    ensures var u := Do(Do(Do(s, BodyEnds(t, true)), DoneCallback(t)), Resume);
            && u.task == Todo(rest) && u.now == s.now && u.gate == s.gate && u.workers.Keys == s.workers.Keys
            && u.books == s.books.(inflight := s.books.inflight - {d}, success := s.books.success[d := s.now])
  {
    hide Books.DutiesDue, Books.TimeToTry, DB.Step, DB.State.At;
    var s1 := Do(s, BodyEnds(t, true));
    assert s1 == s.(workers := s.workers[t := Ended(d, true)], log := s1.log);
    var s2 := Do(s1, DoneCallback(t));
    assert s2 ==
      s1.(books := s.books.(inflight := s.books.inflight - {d}), workers := s.workers[t := Reported(d, true)]);
  }

  /** As many threads as these that have done nothing yet. */
  ghost predicate AreFresh(s: System, threads: seq<DB.Thread>) {
    && (forall i :: 0 <= i < |threads| ==> threads[i] !in s.workers && s.gate.At(threads[i]).Idle?)
    && forall i, j :: 0 <= i < j < |threads| ==> threads[i] != threads[j]
  }

  /** The books once these duties are stamped. */
  ghost predicate StampedAll(before: Books, after: Books, queue: seq<Duty>, now: nat) {
    && after.lastAttempt == before.lastAttempt && after.inflight == before.inflight
    && forall d :: after.LastSuccess(d) == if d in queue then now else before.LastSuccess(d)
  }

  /** A tier that nothing disturbs does every duty on its list, and ends. */
  lemma {:induction false} TierIsDone(s: System, threads: seq<DB.Thread>, queue: seq<Duty>)
    requires s.task == Todo(queue) && NoRepeats(queue) && forall d :: d in queue ==> d !in s.books.inflight
    requires |threads| == |queue| + 1 && AreFresh(s, threads) && IsFree(s.gate)
    ensures var u := Go(s, WholeTier(threads, queue));
            u.task == NoTask && u.now == s.now && StampedAll(s.books, u.books, queue, s.now)
    decreases |queue|
  {
    hide Go, Do, IsFree, WholeDuty;
    if queue == [] {
      EmptyTierEnds(s, threads[0]);
    } else {
      var d, rest, t := queue[0], queue[1..], threads[0];
      assert queue == [d] + rest;
      DutyIsDone(s, t, d, rest);
      var u := Go(s, WholeDuty(t, d));
      StillFresh(s, u, threads);
      TierIsDone(u, threads[1..], rest);
      GoOn(s, WholeDuty(t, d), WholeTier(threads[1..], rest));
    }
  }

  lemma EmptyTierEnds(s: System, t: DB.Thread)
    requires s.task == Todo([]) && t !in s.workers && s.gate.At(t).Idle?
    ensures Go(s, [NextDuty(t)]) == s.(task := NoTask)
  {
    GoThree(s, NextDuty(t), Resume, Resume);
  }

  lemma StillFresh(s: System, u: System, threads: seq<DB.Thread>)
    requires threads != [] && AreFresh(s, threads)
    requires u.workers.Keys == s.workers.Keys + {threads[0]} && QuietAgain(s.gate, u.gate, threads[0])
    ensures AreFresh(u, threads[1..])
  {
  }

  /** From the heartbeat on: whenever the daily tier is started and nothing disturbs it, it ends with nothing left
      due. */
  lemma UndisturbedTierLeavesNothingDue(start: nat, run: Trail<Move>, threads: seq<DB.Thread>)
    requires start >= DAY
    requires var s := After(start, run);
             && s.task == Preparing && IsFree(s.gate) && s.books.inflight == {} && AreFresh(s, threads)
             && |threads| == |s.books.DutiesDue(s.now)| + 1
    ensures var s := After(start, run);
            var u := Go(s, [ListDuties] + WholeTier(threads, s.books.DutiesDue(s.now)));
            u.task == NoTask && forall d: Duty :: u.now - u.books.LastSuccess(d) < 24 * 3600
  {
    hide Go, WholeTier, Books.DutiesDue, IsFree;
    var s := After(start, run);
    var queue := s.books.DutiesDue(s.now);
    TierListsExactly(start, run);
    SomethingIsDue(s.books, s.now);
    var listed := Do(s, ListDuties);
    GoOn(s, [ListDuties], WholeTier(threads, queue));
    GoThree(s, ListDuties, Resume, Resume);
    TierIsDone(listed, threads, queue);
    var u := Go(listed, WholeTier(threads, queue));
    forall d: Duty
      ensures u.now - u.books.LastSuccess(d) < 24 * 3600
    {
      assert u.books.LastSuccess(d) == if d in queue then s.now else s.books.LastSuccess(d);
    }
  }

  /** What the tier does next, over every run: it ends when its list is done; it passes over a duty that a thread of an
      earlier day still has in hand; and any other it hands to a new thread, and waits for it. */
  lemma NextDutyExactly(start: nat, run: Trail<Move>, t: DB.Thread)
    requires start >= DAY
    requires var s := After(start, run); s.task.Todo? && t !in s.workers && s.gate.At(t).Idle?
    ensures var s, u := After(start, run), After(start, Then(run, NextDuty(t)));
            if s.task.queue == [] then u == s.(task := NoTask)
            else
              var d, rest := s.task.queue[0], s.task.queue[1..];
              if exists w :: Flies(s, w, d) then u == s.(task := Todo(rest))
              else
                && u.task == Awaiting(t, d, s.now, rest) && u.workers == s.workers[t := Running(d, false)]
                && u.log == Then(s.log, Started(t, d, s.now)) && u.gate == s.gate && u.now == s.now
                && u.books == s.books.(inflight := s.books.inflight + {d})
  {
    hide Books.DutiesDue, Books.TimeToTry, Books.Due, DB.Step, DB.Enabled, DB.State.At, Works, UsesGateAs;
    RunKeepsInv(start, run);
  }

  lemma GiveUpExactly(s: System)
    ensures Do(s, GiveUp) ==
            if s.task.Awaiting? && s.now - s.task.since >= 300
            then s.(task := Todo(s.task.queue), log := Then(s.log, GaveUp(s.task.thread))) else s
    ensures Do(s, Cancel) ==
            s.(task := NoTask, log := if s.task.Awaiting? then Then(s.log, GaveUp(s.task.thread)) else s.log)
    ensures forall seconds :: Do(s, Pass(seconds)) == s.(now := s.now + seconds)
  {
    hide Books.DutiesDue, Books.TimeToTry, Books.Due, DB.Step, DB.Enabled, DB.State.At, Works, UsesGateAs;
  }

  lemma RestartExactly(s: System)
    ensures var t := Do(s, Restart);
            && t.task == NoTask && t.books == Books(s.books.success, s.books.lastAttempt, {})
            && (t.now, t.log, t.gate) == (s.now, s.log, DB.START) && t.workers.Keys == s.workers.Keys
            && forall u :: u in t.workers ==> !t.workers[u].Live() && !t.workers[u].ok
  {
    hide Books.DutiesDue, Books.TimeToTry, Books.Due, DB.Step, DB.Enabled, DB.State.At, Works, UsesGateAs;
  }

  /** What does disturb a tier, over every run. A duty is given up on exactly when it has been awaited for five minutes,
      and the tier goes on with the rest of its list; a cancelled tier is gone; a restart leaves the stamps, the last
      attempt and the clock, and nothing else. None of them takes a thread away or stamps anything. */
  lemma DisturbancesExactly(start: nat, run: Trail<Move>)
    ensures var s, t := After(start, run), After(start, Then(run, GiveUp));
            if s.task.Awaiting? && s.now - s.task.since >= 300
            then t == s.(task := Todo(s.task.queue), log := Then(s.log, GaveUp(s.task.thread))) else t == s
    ensures var s, t := After(start, run), After(start, Then(run, Cancel));
            t == s.(task := NoTask, log := if s.task.Awaiting? then Then(s.log, GaveUp(s.task.thread)) else s.log)
    ensures var s, t := After(start, run), After(start, Then(run, Restart));
            && t.task == NoTask && t.books == Books(s.books.success, s.books.lastAttempt, {})
            && (t.now, t.log, t.gate) == (s.now, s.log, DB.START) && t.workers.Keys == s.workers.Keys
            && forall u :: u in t.workers ==> !t.workers[u].Live() && !t.workers[u].ok
    ensures forall seconds :: After(start, Then(run, Pass(seconds))) ==
              After(start, run).(now := After(start, run).now + seconds)
  {
    hide After, Do;
    var s := After(start, run);
    GiveUpExactly(s);
    RestartExactly(s);
    OneMore(start, run, GiveUp);
    OneMore(start, run, Cancel);
    OneMore(start, run, Restart);
    forall seconds
      ensures After(start, Then(run, Pass(seconds))) == s.(now := s.now + seconds)
    {
      OneMore(start, run, Pass(seconds));
    }
  }

  lemma OneMore(start: nat, run: Trail<Move>, m: Move)
    ensures After(start, Then(run, m)) == Do(After(start, run), m)
  {
    hide Step, Enabled;
  }
}
