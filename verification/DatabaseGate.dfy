/** db/exclusive.py, _DatabaseGate: one condition variable between any number of announced writers and one claimant.

    Every critical section is one atomic step, because all of them hold the same lock and give it up only inside a
    wait. A thread that waits is put to sleep at the end of its step; notify_all and an expired timeout wake it. */
module DatabaseGate {
  import opened Common

  type Thread = nat

  /** Where a thread is. `Trying` threads are about to take the lock and look at their condition. */
  datatype PC =
    | Idle
    | EnterTrying | EnterAsleep
    | Writing(token: nat)
    | Claimed
    | DrainTrying | DrainAsleep
    | Exclusive
    | DrainFailed
    | FreeTrying | FreeAsleep

  /** The gate's own fields: who holds the slot, the writers by token, and the next token. */
  datatype Fields = Fields(holder: Option<string>, writers: map<nat, string>, nextToken: nat)

  datatype State = State(gate: Fields, pcs: map<Thread, PC>)
  {
    function At(t: Thread): PC {
      if t in pcs then pcs[t] else Idle
    }

    /** notify_all: every sleeper gets up to look at its condition again. */
    function Notified(): State {
      this.(pcs := map t | t in pcs :: Awake(pcs[t]))
    }
  }

  function Awake(pc: PC): PC {
    match pc
    case EnterAsleep => EnterTrying
    case DrainAsleep => DrainTrying
    case FreeAsleep => FreeTrying
    case _ => pc
  }

  const START := State(Fields(None, map[], 1), map[])

  // ---------------------------------------------------------------------
  // The gate as an object: one method per critical section
  // ---------------------------------------------------------------------

  /** What a critical section that may wait decides. */
  datatype Decision<T> = Done(value: T) | Busy | Wait

  class Gate {
    var holder: Option<string>
    var writers: map<nat, string>
    var nextToken: nat

    function Now(): Fields
      reads this
    {
      Fields(holder, writers, nextToken)
    }

    constructor ()
      ensures Now() == START.gate
    {
      holder, writers, nextToken := None, map[], 1;
    }

    method TryEnterWrite(name: string, expired: bool) returns (d: Decision<nat>)
      modifies this
      ensures (Now(), d) == EnterWrite(old(Now()), name, expired)
      ensures d.Done? <==> old(holder).None?
      ensures d.Busy? <==> old(holder).Some? && expired
      ensures d.Done? ==>
                d.value == old(nextToken) && Now() == Fields(None, old(writers)[d.value := name], d.value + 1)
      ensures !d.Done? ==> Now() == old(Now())
    {
      if holder.Some? {
        return if expired then Busy else Wait;
      }
      var token := nextToken;
      nextToken := nextToken + 1;
      writers := writers[token := name];
      return Done(token);
    }

    method LeaveWrite(token: nat)
      modifies this
      ensures Now() == WithoutWriter(old(Now()), token)
      ensures Now() == Fields(old(holder), old(writers) - {token}, old(nextToken))
    {
      writers := writers - {token};
    }

    method Claim(name: string) returns (ok: bool)
      modifies this
      ensures (Now(), ok) == ClaimSlot(old(Now()), name)
      ensures ok <==> old(holder).None?
      ensures Now() == if ok then Fields(Some(name), old(writers), old(nextToken)) else old(Now())
    {
      if holder.Some? {
        return false;
      }
      holder := Some(name);
      return true;
    }

    method TryDrain(expired: bool) returns (d: Decision<()>)
      ensures d == DrainDecision(Now(), expired)
      ensures d.Done? <==> writers == map[]
      ensures d.Busy? <==> writers != map[] && expired
      ensures d.Wait? <==> writers != map[] && !expired
    {
      if writers != map[] {
        return if expired then Busy else Wait;
      }
      return Done(());
    }

    method Release()
      modifies this
      ensures Now() == Released(old(Now()))
      ensures Now() == Fields(None, old(writers), old(nextToken))
    {
      holder := None;
    }
  }

  function EnterWrite(g: Fields, name: string, expired: bool): (Fields, Decision<nat>) {
    if g.holder.Some? then (g, if expired then Busy else Wait)
    else (g.(writers := g.writers[g.nextToken := name], nextToken := g.nextToken + 1), Done(g.nextToken))
  }

  function WithoutWriter(g: Fields, token: nat): Fields {
    g.(writers := g.writers - {token})
  }

  function ClaimSlot(g: Fields, name: string): (Fields, bool) {
    if g.holder.Some? then (g, false) else (g.(holder := Some(name)), true)
  }

  function DrainDecision(g: Fields, expired: bool): Decision<()> {
    if g.writers != map[] then (if expired then Busy else Wait) else Done(())
  }

  function Released(g: Fields): Fields {
    g.(holder := None)
  }

  // ---------------------------------------------------------------------
  // The protocol: what any thread may do next
  // ---------------------------------------------------------------------

  datatype Move =
    | StartWrite | Enter(name: string, expired: bool) | Leave
    | Claim(name: string) | StartDrain | Drain(expired: bool) | Release
    | StartWaitFree | WaitFree(expired: bool)
    | TimeUp

  /** The moves the callers of the module make: a writer leaves what it entered, a claimant drains once and
      releases its own claim, before the drain, after a failed one, or after its exclusive work. */
  predicate Enabled(pc: PC, m: Move) {
    match m
    case StartWrite => pc.Idle?
    case Enter(_, _) => pc.EnterTrying?
    case Leave => pc.Writing?
    case Claim(_) => pc.Idle?
    case StartDrain => pc.Claimed?
    case Drain(_) => pc.DrainTrying?
    case Release => pc.Claimed? || pc.Exclusive? || pc.DrainFailed?
    case StartWaitFree => pc.Idle?
    case WaitFree(_) => pc.FreeTrying?
    case TimeUp => pc.EnterAsleep? || pc.DrainAsleep? || pc.FreeAsleep?
  }

  /** The gate's fields and the thread's place after its move. */
  function Moved(g: Fields, pc: PC, m: Move): (Fields, PC)
    requires Enabled(pc, m)
  {
    match m
    case StartWrite => (g, EnterTrying)
    case Enter(name, expired) =>
      (match EnterWrite(g, name, expired)
       case (g', Done(token)) => (g', Writing(token))
       case (g', Busy) => (g', Idle)
       case (g', Wait) => (g', EnterAsleep))
    case Leave => (WithoutWriter(g, pc.token), Idle)
    case Claim(name) => var (g', ok) := ClaimSlot(g, name); (g', if ok then Claimed else Idle)
    case StartDrain => (g, DrainTrying)
    case Drain(expired) =>
      (match DrainDecision(g, expired)
       case Done(_) => (g, Exclusive)
       case Busy => (g, DrainFailed)
       case Wait => (g, DrainAsleep))
    case Release => (Released(g), Idle)
    case StartWaitFree => (g, FreeTrying)
    case WaitFree(expired) => (g, if g.holder.Some? && !expired then FreeAsleep else Idle)
    case TimeUp => (g, Awake(pc))
  }

  function Step(s: State, t: Thread, m: Move): State
    requires Enabled(s.At(t), m)
  {
    var (g, pc) := Moved(s.gate, s.At(t), m);
    var moved := State(g, s.pcs[t := pc]);
    if m.Leave? || m.Release? then moved.Notified() else moved
  }

  /** A run: any threads, in any order. A move that is not enabled for its thread does not happen. */
  function After(run: Trail<(Thread, Move)>): State {
    match run
    case Start => START
    case Then(past, (t, m)) =>
      var s := After(past);
      if Enabled(s.At(t), m) then Step(s, t, m) else s
  }

  /** The thread holds the exclusive slot: from its claim until its release. */
  predicate Holds(pc: PC) {
    pc.Claimed? || pc.DrainTrying? || pc.DrainAsleep? || pc.Exclusive? || pc.DrainFailed?
  }

  /** At most one thread holds the slot, and the slot is taken exactly while one does. */
  ghost predicate OneClaimant(s: State) {
    && (forall t, u :: Holds(s.At(t)) && Holds(s.At(u)) ==> t == u)
    && (s.gate.holder.Some? <==> exists t :: Holds(s.At(t)))
  }

  /** Tokens and running writer bodies are in one-to-one correspondence. */
  ghost predicate TokensMatch(s: State) {
    && (forall t :: s.At(t).Writing? ==> s.At(t).token in s.gate.writers)
    && (forall k :: k in s.gate.writers ==> k < s.gate.nextToken && exists t :: s.At(t) == Writing(k))
    && (forall t, u :: s.At(t).Writing? && s.At(t) == s.At(u) ==> t == u)
  }

  /** Nothing sleeps on a condition that has come true. */
  ghost predicate NoLostWakeup(s: State) {
    && (forall t :: s.At(t).EnterAsleep? || s.At(t).FreeAsleep? ==> s.gate.holder.Some?)
    && (forall t :: s.At(t).DrainAsleep? ==> s.gate.writers != map[])
  }

  /** While exclusive work runs, no announced writer body runs. */
  ghost predicate ExclusiveAlone(s: State) {
    (exists t :: s.At(t).Exclusive?) ==> s.gate.writers == map[] && forall u :: !s.At(u).Writing?
  }

  ghost predicate Inv(s: State) {
    OneClaimant(s) && TokensMatch(s) && NoLostWakeup(s) && ExclusiveAlone(s)
  }

  lemma PcAfter(s: State, t: Thread, m: Move, u: Thread)
    requires Enabled(s.At(t), m)
    ensures var pc := if u == t then Moved(s.gate, s.At(t), m).1 else s.At(u);
            Step(s, t, m).At(u) == if m.Leave? || m.Release? then Awake(pc) else pc
    ensures Step(s, t, m).gate == Moved(s.gate, s.At(t), m).0
  {
  }

  lemma KeepsOneClaimant(s: State, t: Thread, m: Move)
    requires OneClaimant(s) && Enabled(s.At(t), m)
    ensures OneClaimant(Step(s, t, m))
  {
    var s' := Step(s, t, m);
    forall u ensures Holds(s'.At(u)) <==> if u == t then Holds(Moved(s.gate, s.At(t), m).1) else Holds(s.At(u)) {
      PcAfter(s, t, m, u);
    }
    if s.gate.holder.Some? {
      var w :| Holds(s.At(w));
      assert s'.gate.holder.Some? ==> Holds(s'.At(w));
    }
    if s'.gate.holder.Some? && s.gate.holder.None? {
      assert Holds(s'.At(t));
    }
  }

  /** A writer body begins with a token never used before, and its end is the only thing that takes a token away. */
  lemma MovedTokens(g: Fields, pc: PC, m: Move)
    requires Enabled(pc, m)
    ensures var (g', pc') := Moved(g, pc, m);
            if pc'.Writing? then
              pc'.token == g.nextToken && g'.writers.Keys == g.writers.Keys + {pc'.token} &&
                g'.nextToken == g.nextToken + 1
              && !pc.Writing?
            else
              g'.nextToken == g.nextToken &&
                g'.writers.Keys == g.writers.Keys - (if pc.Writing? then {pc.token} else {})
  {
  }

  lemma KeepsTokens(s: State, t: Thread, m: Move)
    requires TokensMatch(s) && Enabled(s.At(t), m)
    ensures TokensMatch(Step(s, t, m))
  {
    hide Moved, Step, State.At, Enabled;
    MovedTokens(s.gate, s.At(t), m);
    PcAfter(s, t, m, t);
    var s' := Step(s, t, m);
    forall u
      ensures s'.At(u).Writing? <==> if u == t then Moved(s.gate, s.At(t), m).1.Writing? else s.At(u).Writing?
      ensures s'.At(u).Writing? ==> s'.At(u) == if u == t then Moved(s.gate, s.At(t), m).1 else s.At(u)
    {
      PcAfter(s, t, m, u);
    }
    forall k | k in s'.gate.writers
      ensures k < s'.gate.nextToken && exists u :: s'.At(u) == Writing(k)
    {
      if k in s.gate.writers {
        var u :| s.At(u) == Writing(k);
        assert s'.At(u) == Writing(k);
      } else {
        assert s'.At(t) == Writing(k);
      }
    }
  }

  lemma KeepsWakeups(s: State, t: Thread, m: Move)
    requires NoLostWakeup(s) && OneClaimant(s) && Enabled(s.At(t), m)
    ensures NoLostWakeup(Step(s, t, m))
  {
    forall u ensures Step(s, t, m).At(u) ==
                     (var pc := if u == t then Moved(s.gate, s.At(t), m).1 else s.At(u);
                      if m.Leave? || m.Release? then Awake(pc) else pc) {
      PcAfter(s, t, m, u);
    }
  }

  lemma KeepsExclusiveAlone(s: State, t: Thread, m: Move)
    requires ExclusiveAlone(s) && OneClaimant(s) && TokensMatch(s) && Enabled(s.At(t), m)
    ensures ExclusiveAlone(Step(s, t, m))
  {
    var s' := Step(s, t, m);
    forall u ensures s'.At(u) ==
                     (var pc := if u == t then Moved(s.gate, s.At(t), m).1 else s.At(u);
                      if m.Leave? || m.Release? then Awake(pc) else pc) {
      PcAfter(s, t, m, u);
    }
    if e :| s'.At(e).Exclusive? {
      if e != t {
        assert s.At(e).Exclusive? && Holds(s.At(e));
        assert s.gate.holder.Some?;
      }
      KeepsTokens(s, t, m);
    }
  }

  lemma StepKeepsInv(s: State, t: Thread, m: Move)
    requires Inv(s) && Enabled(s.At(t), m)
    ensures Inv(Step(s, t, m))
  {
    KeepsOneClaimant(s, t, m);
    KeepsTokens(s, t, m);
    KeepsWakeups(s, t, m);
    KeepsExclusiveAlone(s, t, m);
  }

  /** Every reachable state, for any threads in any order. */
  lemma {:induction false} RunKeepsInv(run: Trail<(Thread, Move)>)
    ensures Inv(After(run))
  {
    match run
    case Start =>
    case Then(past, (t, m)) =>
      RunKeepsInv(past);
      var s := After(past);
      if Enabled(s.At(t), m) {
        StepKeepsInv(s, t, m);
      }
  }

  lemma HeldSlotAdmitsNobody(s: State, t: Thread, m: Move)
    requires Enabled(s.At(t), m) && s.gate.holder.Some?
    ensures Step(s, t, m).gate.writers.Keys <= s.gate.writers.Keys
    ensures m.Enter? ==> Step(s, t, m).gate == s.gate && Step(s, t, m).At(t) == if m.expired then Idle else EnterAsleep
  {
  }

  /** From moment p of the run on, the owner has held the slot without a break. */
  predicate HeldSince(p: Trail<(Thread, Move)>, run: Trail<(Thread, Move)>, owner: Thread) {
    Holds(After(run).At(owner)) && (p == run || (run.Then? && HeldSince(p, run.past, owner)))
  }

  /** While the slot is held, from the claim through the drain to the release, nobody is admitted: every writer there
      is was there before, and once the drain is over there is none. */
  lemma {:induction false} NobodyAdmittedWhileHeld(p: Trail<(Thread, Move)>, run: Trail<(Thread, Move)>, owner: Thread)
    requires HeldSince(p, run, owner)
    ensures After(run).gate.writers.Keys <= After(p).gate.writers.Keys
    ensures forall u :: After(run).At(u).Writing? ==> After(run).At(u).token in After(p).gate.writers
    ensures After(run).At(owner).Exclusive? ==> forall u :: !After(run).At(u).Writing?
  {
    hide Step, Moved;
    RunKeepsInv(run);
    if p != run {
      NobodyAdmittedWhileHeld(p, run.past, owner);
      RunKeepsInv(run.past);
      var s := After(run.past);
      if Enabled(s.At(run.last.0), run.last.1) {
        HeldSlotAdmitsNobody(s, run.last.0, run.last.1);
      }
    }
  }

  /** A failed drain keeps the slot until its own claimant's release: nobody else's move takes it away. */
  lemma SlotKeptUntilOwnRelease(run: Trail<(Thread, Move)>, owner: Thread, t: Thread, m: Move)
    requires Holds(After(run).At(owner)) && !(t == owner && m.Release?)
    ensures After(Then(run, (t, m))).gate.holder == After(run).gate.holder
    ensures Holds(After(Then(run, (t, m))).At(owner))
  {
    RunKeepsInv(run);
    var s := After(run);
    assert s.gate.holder.Some?;
    if Enabled(s.At(t), m) {
      PcAfter(s, t, m, owner);
    }
  }

  /** How a thread comes to its place, over every run and for every next move: in each line by its own move and under
      exactly these conditions. A drain is over when no writer is left, and fails only when its time is up with a writer
      still there; a writer is admitted and a claim granted whenever the slot is free. */
  lemma PlacesTakenExactly(run: Trail<(Thread, Move)>, t: Thread, m: Move)
    ensures var s, was, now := After(run), After(run).At(t), After(Then(run, (t, m))).At(t);
            && (now.DrainFailed? && !was.DrainFailed? <==>
                  was.DrainTrying? && m == Drain(true) && s.gate.writers != map[])
            && (now.DrainAsleep? && !was.DrainAsleep? <==>
                  was.DrainTrying? && m == Drain(false) && s.gate.writers != map[])
            && (now.Exclusive? && !was.Exclusive? <==> was.DrainTrying? && m.Drain? && s.gate.writers == map[])
            && (now.Writing? && !was.Writing? <==> was.EnterTrying? && m.Enter? && s.gate.holder.None?)
            && (now.EnterAsleep? && !was.EnterAsleep? <==>
                  was.EnterTrying? && m.Enter? && !m.expired && s.gate.holder.Some?)
            && (now.FreeAsleep? && !was.FreeAsleep? <==> was.FreeTrying? && m == WaitFree(false) && s.gate.holder.Some?)
            && (now.Claimed? && !was.Claimed? <==> was.Idle? && m.Claim? && s.gate.holder.None?)
            && (now.Idle? && !was.Idle? <==>
                || (was.Writing? && m.Leave?)
                || ((was.Claimed? || was.Exclusive? || was.DrainFailed?) && m.Release?)
                || (was.EnterTrying? && m.Enter? && m.expired && s.gate.holder.Some?)
                || (was.FreeTrying? && m.WaitFree? && (m.expired || s.gate.holder.None?)))
  {
    var s := After(run);
    if Enabled(s.At(t), m) {
      PcAfter(s, t, m, t);
    }
  }

  /** Nobody else's move does more to a thread than wake it, and only the end of a writer or of a claim wakes anybody.
      */
  lemma OthersOnlyWake(run: Trail<(Thread, Move)>, t: Thread, m: Move, u: Thread)
    requires u != t
    ensures var was, now := After(run).At(u), After(Then(run, (t, m))).At(u);
            now == was || ((m.Leave? || m.Release?) &&
              (was, now) in {(EnterAsleep, EnterTrying), (DrainAsleep, DrainTrying), (FreeAsleep, FreeTrying)})
  {
    var s := After(run);
    if Enabled(s.At(t), m) {
      PcAfter(s, t, m, u);
    }
  }
}
