/** core/agent.py, _ToolCallGate: the cross-round cache, the five admission filters, and the rows a round leaves
    behind. */
module CallGate {
  import opened Common

  const DEDUP_EXCLUDED := {"file_read", "glob"}
  const STATE_MUTATING_TOOLS := {"file_write", "file_edit", "multiedit"}
  const SEMANTIC_DEDUP_TOOLS := {"call_model"}

  // ---------------------------------------------------------------------
  // The cross-round cache
  // ---------------------------------------------------------------------

  /** Tool name and argument hash; the hash is taken to be injective. */
  datatype Key = Key(tool: string, argsHash: int)

  datatype Done = Done(key: Key, round: nat, content: string)

  /** The keys the invalidators see: they look for the text "bash:" at the front of "tool:hash". */
  predicate IsBashKey(k: Key) {
    k.tool == "bash" || "bash:" <= k.tool
  }

  /** This later success makes a cached bash result stale. */
  predicate Retires(d: Done, k: Key) {
    IsBashKey(k) && (d.key.tool in STATE_MUTATING_TOOLS || (d.key.tool == "bash" && d.key != k))
  }

  /** Entry i of the success log is the one the cache should still hold for key k. */
  ghost predicate Live(log: seq<Done>, k: Key, i: nat) {
    && i < |log| && log[i].key == k && k.tool !in DEDUP_EXCLUDED
    && forall j :: i < j < |log| ==> log[j].key != k && !Retires(log[j], k)
  }

  function Excerpt(content: string): string {
    if |content| <= 200 then content else content[..200]
  }

  /** The cache is an abstraction of the whole success log. */
  ghost predicate Abstracts(cache: map<Key, (nat, string)>, log: seq<Done>) {
    && (forall k :: k in cache <==> exists i: nat :: Live(log, k, i))
    && (forall k, i: nat :: Live(log, k, i) ==> k in cache && cache[k] == (log[i].round, Excerpt(log[i].content)))
  }

  /** One more success: what was live stays live unless this entry replaces or retires it. */
  lemma LiveAfter(log: seq<Done>, d: Done, k: Key, i: nat)
    ensures Live(log + [d], k, i) <==>
            if i == |log| then d.key == k && k.tool !in DEDUP_EXCLUDED
            else Live(log, k, i) && d.key != k && !Retires(d, k)
  {
    if i < |log| {
      assert forall j :: i < j < |log| ==> (log + [d])[j] == log[j];
      assert (log + [d])[|log|] == d;
    }
  }

  function Remember(cache: map<Key, (nat, string)>, d: Done): map<Key, (nat, string)> {
    var stored := if d.key.tool in DEDUP_EXCLUDED then cache else cache[d.key := (d.round, Excerpt(d.content))];
    map k | k in stored && !Retires(d, k) :: stored[k]
  }

  lemma NoFileToolIsBash(k: Key)
    requires k.tool in STATE_MUTATING_TOOLS
    ensures !IsBashKey(k)
  {
    assert k.tool[0] == 'f' || k.tool[0] == 'm';
    assert "bash:"[0] == 'b';
  }

  lemma RememberedAt(cache: map<Key, (nat, string)>, log: seq<Done>, d: Done, k: Key)
    requires Abstracts(cache, log)
    ensures k in Remember(cache, d) <==> exists i: nat :: Live(log + [d], k, i)
    ensures forall i: nat :: Live(log + [d], k, i) ==>
              k in Remember(cache, d)
              && Remember(cache, d)[k] == ((log + [d])[i].round, Excerpt((log + [d])[i].content))
  {
    hide Live, IsBashKey;
    if d.key.tool in STATE_MUTATING_TOOLS {
      NoFileToolIsBash(d.key);
    }
    forall i: nat
      ensures Live(log + [d], k, i) <==>
              if i == |log| then d.key == k && k.tool !in DEDUP_EXCLUDED
                else Live(log, k, i) && d.key != k && !Retires(d, k)
      ensures Live(log, k, i) ==> i < |log|
    {
      LiveAfter(log, d, k, i);
      assert Live(log, k, i) ==> i < |log| by { LiveInRange(log, k, i); }
    }
    if k in Remember(cache, d) {
      if k == d.key && k.tool !in DEDUP_EXCLUDED {
        assert Live(log + [d], k, |log|);
      } else {
        var i: nat :| Live(log, k, i);
        if k == d.key {
          LiveInRange(log, k, i);
        }
        assert Live(log + [d], k, i);
      }
    }
  }

  lemma LiveInRange(log: seq<Done>, k: Key, i: nat)
    ensures Live(log, k, i) ==> i < |log| && k.tool !in DEDUP_EXCLUDED
  {
  }

  /** One more success keeps the cache an abstraction of the log. */
  lemma RememberAbstracts(cache: map<Key, (nat, string)>, log: seq<Done>, d: Done)
    requires Abstracts(cache, log)
    ensures Abstracts(Remember(cache, d), log + [d])
  {
    hide Live, Remember;
    forall k
      ensures k in Remember(cache, d) <==> exists i: nat :: Live(log + [d], k, i)
      ensures forall i: nat :: i <= |log| && Live(log + [d], k, i) ==>
                k in Remember(cache, d)
                && Remember(cache, d)[k] == ((log + [d])[i].round, Excerpt((log + [d])[i].content))
    {
      RememberedAt(cache, log, d, k);
    }
    forall k, i: nat | Live(log + [d], k, i)
      ensures i <= |log|
    {
      LiveInRange(log + [d], k, i);
    }
  }

  /** The cache after a whole turn's successes. */
  function CacheAfter(log: seq<Done>): map<Key, (nat, string)> {
    if log == [] then map[] else Remember(CacheAfter(log[..|log| - 1]), log[|log| - 1])
  }

  lemma {:induction false} CacheAfterAbstracts(log: seq<Done>)
    ensures Abstracts(CacheAfter(log), log)
  {
    hide Remember;
    if log != [] {
      var rest, d := log[..|log| - 1], log[|log| - 1];
      CacheAfterAbstracts(rest);
      RememberAbstracts(CacheAfter(rest), rest, d);
      assert rest + [d] == log;
    }
  }

  /** Success i still answers a call with key k: it is the latest with this key, its tool is not one whose answers go
      out of date by themselves, and if it is a bash call nothing has changed a file and no other bash call has run
      since. */
  ghost predicate StillAnswers(log: seq<Done>, k: Key, i: nat) {
    && i < |log| && log[i].key == k && k.tool !in {"file_read", "glob"}
    && forall j :: i < j < |log| ==>
         && log[j].key != k
         && (k.tool == "bash" || "bash:" <= k.tool ==>
               log[j].key.tool !in {"file_write", "file_edit", "multiedit", "bash"})
  }

  /** Over every list of successes: a call is cached exactly when one of them still answers it, and what is cached is
      the beginning of that answer. */
  lemma CachedExactly(log: seq<Done>, k: Key)
    ensures k in CacheAfter(log) <==> exists i: nat :: StillAnswers(log, k, i)
    ensures forall i: nat :: StillAnswers(log, k, i) ==>
              k in CacheAfter(log)
              && CacheAfter(log)[k] == (log[i].round, log[i].content[..Min(200, |log[i].content|)])
  {
    hide CacheAfter;
    CacheAfterAbstracts(log);
    forall i: nat
      ensures StillAnswers(log, k, i) <==> Live(log, k, i)
    {
      LiveIfItAnswers(log, k, i);
    }
    assert forall content: string :: Excerpt(content) == content[..Min(200, |content|)];
  }

  lemma LiveIfItAnswers(log: seq<Done>, k: Key, i: nat)
    ensures StillAnswers(log, k, i) <==> Live(log, k, i)
  {
  }

  // ---------------------------------------------------------------------
  // Admission
  // ---------------------------------------------------------------------

  /** One call on its way through the filters. `slot` is its place in the model's own order, and stands for
      the identity of the call object; a `copy` is what use_tool was unwrapped into. */
  datatype Call = Call(slot: nat, copy: bool, id: string, key: Key)

  /** One entry of the assistant row. */
  datatype Proposal = Proposal(id: string, rejected: bool)

  /** What the registry, the alias table, the JSON parser and the schemas say. */
  datatype Policy = Policy(
    trim: string -> string, inner: Key -> Option<Key>, usableAlias: string -> Option<string>,
    registered: string -> bool, idempotent: string -> bool, near: (Key, Key) -> bool, accepts: Key -> bool,
    useToolId: (nat, Key) -> string, rejectedId: (nat, Key) -> string)

  function Slots(calls: seq<Call>): multiset<nat> {
    if calls == [] then multiset{} else Slots(calls[..|calls| - 1]) + multiset{calls[|calls| - 1].slot}
  }

  lemma SlotsPush(calls: seq<Call>, c: Call)
    ensures Slots(calls + [c]) == Slots(calls) + multiset{c.slot}
  {
    assert (calls + [c])[..|calls|] == calls;
  }

  lemma {:induction false} SlotsJoin(a: seq<Call>, b: seq<Call>)
    ensures Slots(a + b) == Slots(a) + Slots(b)
  {
    if b == [] {
      assert a + b == a;
    } else {
      var front, c := b[..|b| - 1], b[|b| - 1];
      assert a + b == (a + front) + [c];
      SlotsJoin(a, front);
      SlotsPush(a + front, c);
    }
  }

  lemma {:induction false} SlotsHas(calls: seq<Call>, i: nat)
    requires i < |calls|
    ensures calls[i].slot in Slots(calls)
  {
    if i < |calls| - 1 {
      SlotsHas(calls[..|calls| - 1], i);
    }
  }

  lemma {:induction false} SlotsFrom(calls: seq<Call>, slot: nat) returns (i: nat)
    requires slot in Slots(calls)
    ensures i < |calls| && calls[i].slot == slot
  {
    if calls[|calls| - 1].slot == slot {
      i := |calls| - 1;
    } else {
      i := SlotsFrom(calls[..|calls| - 1], slot);
    }
  }

  /** One round of admission: the assistant row's entries, the queued refusals, and the unwrapped use_tool calls by
      id. */
  datatype Round = Round(proposed: seq<Proposal>, rejected: seq<Call>, wrapped: map<string, nat>)
  {
    ghost predicate DistinctIds() {
      && (forall i :: 0 <= i < |proposed| ==> proposed[i].id != "")
      && (forall i, j :: 0 <= i < j < |proposed| ==> proposed[i].id != proposed[j].id)
    }

    predicate Holds(calls: seq<Call>) {
      forall i :: 0 <= i < |calls| ==> calls[i].slot < |proposed|
    }

    /** Every reference points into this round's proposals. */
    predicate Ranged() {
      Holds(rejected) && forall id :: id in wrapped ==> wrapped[id] < |proposed|
    }

    /** A call in flight stands for its proposal: same id, and only registered wrappers have copies. */
    predicate Stands(c: Call) {
      c.slot < |proposed| && c.id == proposed[c.slot].id && (c.copy ==> c.id in wrapped)
    }

    predicate AllStand(calls: seq<Call>) {
      forall i :: 0 <= i < |calls| ==> Stands(calls[i])
    }

    /** With distinct ids, a proposal carries the rejected mark exactly when its call was refused. */
    ghost predicate Paired() {
      && Ranged() && DistinctIds() && AllStand(rejected)
      && (forall id :: id in wrapped ==> proposed[wrapped[id]].id == id)
      && (forall k :: 0 <= k < |proposed| ==> (proposed[k].rejected <==> k in Slots(rejected)))
    }

    /** Queues the model's answer for a call that will not run, and marks its proposal. */
    function Refuse(policy: Policy, call: Call): Round
      requires Ranged() && call.slot < |proposed|
    {
      var c := if call.id == "" then call.(id := policy.rejectedId(|rejected|, call.key)) else call;
      var marked := if c.copy then proposed else proposed[c.slot := Proposal(c.id, true)];
      var both := if c.id in wrapped then marked[wrapped[c.id] := marked[wrapped[c.id]].(rejected := true)] else marked;
      Round(both, rejected + [c], wrapped)
    }

    /** Registers a use_tool call as the wrapper of the copy that goes on. */
    function Wrap(id: string, slot: nat): Round
      requires slot < |proposed|
    {
      Round(proposed[slot := proposed[slot].(id := id)], rejected, wrapped[id := slot])
    }
  }

  /** What each filter does to the calls given to it: each one goes on or is refused, never both, never neither. */
  ghost predicate Sorts(before: Round, after: Round, calls: seq<Call>, kept: seq<Call>) {
    && |after.proposed| == |before.proposed| && after.Ranged() && after.Holds(kept)
    && Slots(kept) + Slots(after.rejected) == Slots(calls) + Slots(before.rejected)
    && (before.Paired() && before.AllStand(calls) ==> StaysPaired(before, after) && after.AllStand(kept))
  }

  ghost predicate StaysPaired(before: Round, after: Round) {
    && after.Paired() && |after.proposed| == |before.proposed|
    && (forall k :: 0 <= k < |after.proposed| ==> after.proposed[k].id == before.proposed[k].id)
    && before.wrapped.Keys <= after.wrapped.Keys
  }

  /** With distinct ids the wrapper found by id is the refused call's own proposal. */
  lemma RefuseMarksOne(policy: Policy, r: Round, c: Call)
    requires r.Paired() && r.Stands(c)
    ensures r.Refuse(policy, c) ==
            Round(r.proposed[c.slot := Proposal(c.id, true)], r.rejected + [c], r.wrapped)
  {
    hide Slots;
    if c.id in r.wrapped {
      var w := r.wrapped[c.id];
      assert r.proposed[w].id == r.proposed[c.slot].id;
      assert w == c.slot;
    }
  }

  lemma RefusePairs(policy: Policy, r: Round, c: Call)
    requires r.Paired() && r.Stands(c)
    ensures StaysPaired(r, r.Refuse(policy, c))
  {
    RefuseMarksOne(policy, r, c);
    SlotsPush(r.rejected, c);
    var t := Round(r.proposed[c.slot := Proposal(c.id, true)], r.rejected + [c], r.wrapped);
    hide Round.Refuse, Slots;
    assert forall k :: 0 <= k < |t.proposed| ==> t.proposed[k].id == r.proposed[k].id;
    MarkedPairs(r, c, t);
  }

  lemma MarkedPairs(r: Round, c: Call, t: Round)
    requires r.Paired() && r.Stands(c)
    requires t == Round(r.proposed[c.slot := Proposal(c.id, true)], r.rejected + [c], r.wrapped)
    requires Slots(t.rejected) == Slots(r.rejected) + multiset{c.slot}
    requires forall k :: 0 <= k < |t.proposed| ==> t.proposed[k].id == r.proposed[k].id
    ensures StaysPaired(r, t)
  {
    hide Slots, Round.Refuse;
    assert t.AllStand(t.rejected);
    assert forall k :: 0 <= k < |t.proposed| ==> (t.proposed[k].rejected <==> k == c.slot || r.proposed[k].rejected);
  }

  lemma Shift(a: multiset<nat>, b: multiset<nat>, c: multiset<nat>, d: multiset<nat>, x: multiset<nat>)
    requires a + b == c + d
    ensures (a + x) + b == (c + x) + d
    ensures a + (b + x) == (c + x) + d
  {
    assert (a + x) + b == (a + b) + x;
    assert a + (b + x) == (a + b) + x;
    assert (c + x) + d == (c + d) + x;
  }

  lemma ShiftTwice(c1: multiset<nat>, k1: multiset<nat>, c2: multiset<nat>, k2: multiset<nat>,
        ra: multiset<nat>, rb: multiset<nat>, rc: multiset<nat>)
    requires k1 + rb == c1 + ra && k2 + rc == c2 + rb
    ensures (k1 + k2) + rc == (c1 + c2) + ra
  {
    assert (k1 + k2) + rc == k1 + (k2 + rc);
    assert k1 + (c2 + rb) == (k1 + rb) + c2;
    assert (c1 + ra) + c2 == (c1 + c2) + ra;
  }

  lemma SortsNothing(r: Round)
    requires r.Ranged()
    ensures Sorts(r, r, [], [])
  {
  }

  /** The filter lets one more call go on, perhaps under another name. */
  lemma SortsKeep(before: Round, after: Round, calls: seq<Call>, kept: seq<Call>, c: Call, key: Key)
    requires Sorts(before, after, calls, kept) && c.slot < |before.proposed|
    ensures Sorts(before, after, calls + [c], kept + [c.(key := key)])
  {
    hide Slots, Round.Paired;
    SlotsPush(calls, c);
    SlotsPush(kept, c.(key := key));
    Shift(Slots(kept), Slots(after.rejected), Slots(calls), Slots(before.rejected), multiset{c.slot});
    if before.AllStand(calls + [c]) {
      assert before.Stands((calls + [c])[|calls|]);
      assert before.AllStand(calls) by {
        assert forall i :: 0 <= i < |calls| ==> (calls + [c])[i] == calls[i];
      }
    }
  }

  lemma RefuseCounts(policy: Policy, r: Round, c: Call)
    requires r.Ranged() && c.slot < |r.proposed|
    ensures var t := r.Refuse(policy, c);
            && t.Ranged() && |t.proposed| == |r.proposed| && t.wrapped == r.wrapped
            && Slots(t.rejected) == Slots(r.rejected) + multiset{c.slot}
  {
    var t := r.Refuse(policy, c);
    SlotsPush(r.rejected, t.rejected[|r.rejected|]);
  }

  /** The filter refuses one more call, giving it an id first if it has none. */
  lemma SortsRefuse(policy: Policy, before: Round, after: Round, calls: seq<Call>, kept: seq<Call>, c: Call, id: string)
    requires Sorts(before, after, calls, kept) && c.slot < |before.proposed|
    requires c.id != "" ==> id == c.id
    ensures Sorts(before, after.Refuse(policy, c.(id := id)), calls + [c], kept)
  {
    hide Round.Paired, Round.Refuse, Slots;
    SlotsPush(calls, c);
    RefuseCounts(policy, after, c.(id := id));
    Shift(Slots(kept), Slots(after.rejected), Slots(calls), Slots(before.rejected), multiset{c.slot});
    if before.Paired() && before.AllStand(calls + [c]) {
      assert before.Stands((calls + [c])[|calls|]);
      assert before.AllStand(calls) by {
        assert forall i :: 0 <= i < |calls| ==> (calls + [c])[i] == calls[i];
      }
      PairedIds(before, c);
      RefusePairs(policy, after, c);
    }
  }

  lemma PairedIds(r: Round, c: Call)
    requires r.Paired() && r.Stands(c)
    ensures c.id != ""
  {
  }

  lemma SortsFacts(before: Round, after: Round, calls: seq<Call>, kept: seq<Call>)
    requires Sorts(before, after, calls, kept)
    ensures |after.proposed| == |before.proposed| && after.Ranged() && after.Holds(kept)
  {
  }

  /** use_tool goes on as a copy of itself. */
  lemma SortsWrap(before: Round, after: Round, calls: seq<Call>, kept: seq<Call>, c: Call, id: string, key: Key)
    requires Sorts(before, after, calls, kept) && c.slot < |before.proposed|
    requires c.id != "" ==> id == c.id
    ensures Sorts(before, after.Wrap(id, c.slot), calls + [c], kept + [Call(c.slot, true, id, key)])
  {
    hide Slots;
    SlotsPush(calls, c);
    SlotsPush(kept, Call(c.slot, true, id, key));
    Shift(Slots(kept), Slots(after.rejected), Slots(calls), Slots(before.rejected), multiset{c.slot});
    if before.Paired() && before.AllStand(calls + [c]) {
      assert before.Stands((calls + [c])[|calls|]);
      assert before.AllStand(calls) by {
        assert forall i :: 0 <= i < |calls| ==> (calls + [c])[i] == calls[i];
      }
      WrapPairs(before, after, kept, c, id, key);
    }
  }

  lemma WrapPairs(before: Round, after: Round, kept: seq<Call>, c: Call, id: string, key: Key)
    requires StaysPaired(before, after) && after.AllStand(kept) && before.Stands(c) && id == c.id
    ensures var now := after.Wrap(id, c.slot);
            StaysPaired(before, now) && now.AllStand(kept + [Call(c.slot, true, id, key)])
  {
    hide Slots;
    assert after.Wrap(id, c.slot).proposed == after.proposed;
  }

  lemma SortsAll(r: Round, calls: seq<Call>)
    requires r.Ranged() && r.Holds(calls)
    ensures Sorts(r, r, calls, calls)
  {
  }

  lemma SortsJoin(a: Round, b: Round, c: Round, calls1: seq<Call>, kept1: seq<Call>, calls2: seq<Call>,
      kept2: seq<Call>)
    requires Sorts(a, b, calls1, kept1) && Sorts(b, c, calls2, kept2)
    ensures Sorts(a, c, calls1 + calls2, kept1 + kept2)
  {
    hide Round.Paired, Slots;
    SlotsJoin(calls1, calls2);
    SlotsJoin(kept1, kept2);
    ShiftTwice(Slots(calls1), Slots(kept1), Slots(calls2), Slots(kept2), Slots(a.rejected), Slots(b.rejected),
      Slots(c.rejected));
    if a.Paired() && a.AllStand(calls1 + calls2) {
      assert forall i :: 0 <= i < |calls1| ==> (calls1 + calls2)[i] == calls1[i];
      assert forall i :: 0 <= i < |calls2| ==> (calls1 + calls2)[|calls1| + i] == calls2[i];
      assert a.AllStand(calls1) && a.AllStand(calls2);
    }
  }

  lemma SortsRegrouped(a: Round, b: Round, regrouped: seq<Call>, calls: seq<Call>, kept: seq<Call>)
    requires Sorts(a, b, regrouped, kept)
    requires Slots(regrouped) == Slots(calls) && forall c :: c in regrouped ==> c in calls
    ensures Sorts(a, b, calls, kept)
  {
    hide Round.Paired;
    if a.AllStand(calls) {
      forall i | 0 <= i < |regrouped|
        ensures a.Stands(regrouped[i])
      {
        assert regrouped[i] in calls;
      }
    }
  }

  lemma SortsThen(a: Round, b: Round, c: Round, calls: seq<Call>, mid: seq<Call>, kept: seq<Call>)
    requires Sorts(a, b, calls, mid) && Sorts(b, c, mid, kept)
    ensures Sorts(a, c, calls, kept)
  {
    hide Round.Paired, Round.AllStand, Slots;
  }

  // ---------------------------------------------------------------------
  // The gate
  // ---------------------------------------------------------------------

  /** What exact dedup refuses: a repeat within the round, or a cached call of an idempotent tool. */
  predicate RefusedByDedup(policy: Policy, cache: map<Key, (nat, string)>, calls: seq<Call>, i: nat)
    requires i < |calls|
  {
    || (exists j :: 0 <= j < i && calls[j].key == calls[i].key)
    || (calls[i].key in cache && calls[i].key.tool !in DEDUP_EXCLUDED && policy.idempotent(calls[i].key.tool))
  }

  /** What a proposal asks for: itself, or the call a use_tool wraps; a malformed use_tool asks for nothing. */
  function MeantKey(policy: Policy, key: Key): Option<Key> {
    if policy.trim(key.tool) == "use_tool" then policy.inner(key) else Some(key)
  }

  function CorrectedName(policy: Policy, tool: string): string {
    var trimmed := policy.trim(tool);
    match policy.usableAlias(trimmed)
    case Some(target) => target
    case None => trimmed
  }

  /** Places of a list of n, in order. */
  ghost predicate Ascending(at: seq<nat>, n: nat) {
    (forall k :: 0 <= k < |at| ==> at[k] < n) && forall k, l :: 0 <= k < l < |at| ==> at[k] < at[l]
  }

  /** kept is what stands at these places of calls, in their order. */
  ghost predicate Picked(kept: seq<Call>, calls: seq<Call>, at: seq<nat>) {
    Ascending(at, |calls|) && |kept| == |at| && forall k :: 0 <= k < |at| ==> kept[k] == calls[at[k]]
  }

  /** For an expensive tool: no call of the same tool that stands apart itself and came before asks nearly the same. */
  predicate Apart(policy: Policy, calls: seq<Call>, p: nat)
    requires p < |calls|
    decreases p
  {
    calls[p].key.tool in SEMANTIC_DEDUP_TOOLS ==>
      forall j: nat :: j < p && calls[j].key.tool == calls[p].key.tool && Apart(policy, calls, j) ==>
        !policy.near(calls[p].key, calls[j].key)
  }

  /** The order of groups: within a tool the calls' own, and between tools that of their first calls. */
  ghost predicate Ahead(calls: seq<Call>, p: nat, q: nat)
    requires p < |calls| && q < |calls|
  {
    if calls[p].key.tool == calls[q].key.tool then p < q
    else
      exists j :: 0 <= j <= p && calls[j].key.tool == calls[p].key.tool
        && forall i :: 0 <= i <= j ==> calls[i].key.tool != calls[q].key.tool
  }

  // ---------------------------------------------------------------------
  // Which proposals a round admits, read off the model's own list
  // ---------------------------------------------------------------------

  /** Proposal i asks for a call, no earlier one asks for the same, and the cache has no answer that may be used
      again. */
  ghost predicate IsFresh(policy: Policy, cache: map<Key, (nat, string)>, keys: seq<Key>, i: nat)
    requires i < |keys|
  {
    var key := MeantKey(policy, keys[i]);
    && key.Some?
    && (forall j :: 0 <= j < i ==> MeantKey(policy, keys[j]) != key)
    && !(key.value in cache && key.value.tool !in DEDUP_EXCLUDED && policy.idempotent(key.value.tool))
  }

  /** And, for an expensive tool, none that stood apart before it asks nearly the same. */
  ghost predicate StandsApart(policy: Policy, cache: map<Key, (nat, string)>, keys: seq<Key>, i: nat)
    requires i < |keys|
    decreases i
  {
    && IsFresh(policy, cache, keys, i)
    && var key := MeantKey(policy, keys[i]).value;
       key.tool in SEMANTIC_DEDUP_TOOLS ==>
         forall j: nat ::
           j < i && StandsApart(policy, cache, keys, j) && MeantKey(policy, keys[j]).value.tool == key.tool ==>
             !policy.near(key, MeantKey(policy, keys[j]).value)
  }

  /** The call a proposal is admitted as: under its corrected name. */
  function CorrectedKey(policy: Policy, key: Key): Key {
    Key(CorrectedName(policy, key.tool), key.argsHash)
  }

  ghost predicate Has(calls: seq<Call>, slot: nat) {
    exists k :: 0 <= k < |calls| && calls[k].slot == slot
  }

  /** Every call on the list asks what its proposal meant. */
  ghost predicate Carries(policy: Policy, keys: seq<Key>, calls: seq<Call>) {
    forall k :: 0 <= k < |calls| ==>
      calls[k].slot < |keys| && MeantKey(policy, keys[calls[k].slot]) == Some(calls[k].key)
  }

  ghost predicate SlotsAscend(calls: seq<Call>) {
    forall k, l :: 0 <= k < l < |calls| ==> calls[k].slot < calls[l].slot
  }

  /** Dedup among the meant calls is dedup among the proposals. */
  lemma FreshAfterDedup(policy: Policy, cache: map<Key, (nat, string)>, keys: seq<Key>, meant: seq<Call>,
      unique: seq<Call>, at: seq<nat>)
    requires Carries(policy, keys, meant) && SlotsAscend(meant)
    requires forall i: nat :: i < |keys| ==> (Has(meant, i) <==> MeantKey(policy, keys[i]).Some?)
    requires Picked(unique, meant, at)
    requires forall i: nat :: i < |meant| ==> (i in at <==> !RefusedByDedup(policy, cache, meant, i))
    ensures Carries(policy, keys, unique) && SlotsAscend(unique)
    ensures forall i: nat :: i < |keys| ==> (Has(unique, i) <==> IsFresh(policy, cache, keys, i))
  {
    hide IsFresh, RefusedByDedup;
    forall i: nat | i < |meant|
      ensures RefusedByDedup(policy, cache, meant, i) <==> !IsFresh(policy, cache, keys, meant[i].slot)
    {
      RefusedIsNotFresh(policy, cache, keys, meant, i);
    }
    forall i: nat | i < |keys|
      ensures Has(unique, i) <==> IsFresh(policy, cache, keys, i)
    {
      if Has(unique, i) {
        var k :| 0 <= k < |unique| && unique[k].slot == i;
        assert at[k] in at && meant[at[k]].slot == i;
      }
      if IsFresh(policy, cache, keys, i) {
        FreshMeansACall(policy, cache, keys, i);
        var m :| 0 <= m < |meant| && meant[m].slot == i;
        assert m in at;
        var k :| 0 <= k < |at| && at[k] == m;
        assert unique[k].slot == i;
      }
    }
  }

  lemma FreshMeansACall(policy: Policy, cache: map<Key, (nat, string)>, keys: seq<Key>, i: nat)
    requires i < |keys| && IsFresh(policy, cache, keys, i)
    ensures MeantKey(policy, keys[i]).Some?
  {
  }

  lemma RefusedIsNotFresh(policy: Policy, cache: map<Key, (nat, string)>, keys: seq<Key>, meant: seq<Call>, i: nat)
    requires Carries(policy, keys, meant) && SlotsAscend(meant) && i < |meant|
    requires forall j: nat :: j < |keys| ==> (Has(meant, j) <==> MeantKey(policy, keys[j]).Some?)
    ensures RefusedByDedup(policy, cache, meant, i) <==> !IsFresh(policy, cache, keys, meant[i].slot)
  {
    var slot := meant[i].slot;
    if j :| 0 <= j < i && meant[j].key == meant[i].key {
      assert meant[j].slot < slot && MeantKey(policy, keys[meant[j].slot]) == MeantKey(policy, keys[slot]);
    }
    if j :| 0 <= j < slot && MeantKey(policy, keys[j]) == MeantKey(policy, keys[slot]) {
      assert Has(meant, j);
      var m :| 0 <= m < |meant| && meant[m].slot == j;
      assert m < i && meant[m].key == meant[i].key;
    }
  }

  /** Standing apart among the unique calls is standing apart among the proposals. */
  lemma {:induction false} ApartInSlots(policy: Policy, cache: map<Key, (nat, string)>, keys: seq<Key>,
      unique: seq<Call>, p: nat)
    requires Carries(policy, keys, unique) && SlotsAscend(unique) && p < |unique|
    requires forall i: nat :: i < |keys| ==> (Has(unique, i) <==> IsFresh(policy, cache, keys, i))
    ensures Apart(policy, unique, p) <==> StandsApart(policy, cache, keys, unique[p].slot)
    decreases p
  {
    hide IsFresh, MeantKey;
    assert Has(unique, unique[p].slot);
    forall j: nat | j < p
      ensures Apart(policy, unique, j) <==> StandsApart(policy, cache, keys, unique[j].slot)
    {
      ApartInSlots(policy, cache, keys, unique, j);
    }
    forall i: nat | i < unique[p].slot && StandsApart(policy, cache, keys, i)
      ensures exists j: nat :: j < p && unique[j].slot == i
    {
      assert Has(unique, i);
      var j :| 0 <= j < |unique| && unique[j].slot == i;
      assert j < p;
    }
  }

  /** The semantic filter lets through exactly the proposals that stand apart. */
  lemma ApartAfterThinning(policy: Policy, cache: map<Key, (nat, string)>, keys: seq<Key>, unique: seq<Call>,
      apart: seq<Call>, at: seq<nat>)
    requires Carries(policy, keys, unique) && SlotsAscend(unique)
    requires forall i: nat :: i < |keys| ==> (Has(unique, i) <==> IsFresh(policy, cache, keys, i))
    requires |apart| == |at| && forall k :: 0 <= k < |at| ==> at[k] < |unique| && apart[k] == unique[at[k]]
    requires forall p: nat :: p < |unique| ==> (p in at <==> Apart(policy, unique, p))
    ensures Carries(policy, keys, apart)
    ensures forall i: nat :: i < |keys| ==> (Has(apart, i) <==> StandsApart(policy, cache, keys, i))
  {
    hide Apart, StandsApart, IsFresh, MeantKey;
    forall p: nat | p < |unique|
      ensures Apart(policy, unique, p) <==> StandsApart(policy, cache, keys, unique[p].slot)
    {
      ApartInSlots(policy, cache, keys, unique, p);
    }
    forall i: nat | i < |keys|
      ensures Has(apart, i) <==> StandsApart(policy, cache, keys, i)
    {
      if Has(apart, i) {
        var k :| 0 <= k < |apart| && apart[k].slot == i;
        assert at[k] in at;
      }
      if StandsApart(policy, cache, keys, i) {
        ApartIsFresh(policy, cache, keys, i);
        assert Has(unique, i);
        var p :| 0 <= p < |unique| && unique[p].slot == i;
        assert p in at;
        var k :| 0 <= k < |at| && at[k] == p;
        assert apart[k].slot == i;
      }
    }
  }

  lemma ApartIsFresh(policy: Policy, cache: map<Key, (nat, string)>, keys: seq<Key>, i: nat)
    requires i < |keys| && StandsApart(policy, cache, keys, i)
    ensures IsFresh(policy, cache, keys, i)
  {
  }

  /** Proposal i is admitted: it stands apart, and its call is registered under its corrected name and has arguments
      that fit. */
  ghost predicate Admissible(policy: Policy, cache: map<Key, (nat, string)>, keys: seq<Key>, i: nat)
    requires i < |keys|
  {
    && StandsApart(policy, cache, keys, i)
    && var key := CorrectedKey(policy, MeantKey(policy, keys[i]).value);
       policy.registered(key.tool) && policy.accepts(key)
  }

  predicate AreDistinct(ids: seq<string>) {
    (forall i :: 0 <= i < |ids| ==> ids[i] != "") && (forall i, j :: 0 <= i < j < |ids| ==> ids[i] != ids[j])
  }

  function AllSlots(n: nat): multiset<nat> {
    if n == 0 then multiset{} else AllSlots(n - 1) + multiset{n - 1}
  }

  lemma {:induction false} FirstSlots(calls: seq<Call>)
    requires forall i :: 0 <= i < |calls| ==> calls[i].slot == i
    ensures Slots(calls) == AllSlots(|calls|)
  {
    if calls != [] {
      FirstSlots(calls[..|calls| - 1]);
    }
  }

  lemma SortsResult(start: Round, end: Round, calls: seq<Call>, admitted: seq<Call>, ids: seq<string>)
    requires Sorts(start, end, calls, admitted) && Slots(calls) == AllSlots(|ids|) && start.rejected == [] &&
             start.wrapped == map[]
    requires |start.proposed| == |ids| && forall i :: 0 <= i < |ids| ==> start.proposed[i] == Proposal(ids[i], false)
    requires |calls| == |ids| && forall i :: 0 <= i < |ids| ==>
             calls[i].slot == i && calls[i].id == ids[i] && !calls[i].copy
    ensures |end.proposed| == |ids| && end.Ranged() && end.Holds(admitted)
    ensures Slots(admitted) + Slots(end.rejected) == AllSlots(|ids|)
    ensures AreDistinct(ids) ==>
              end.Paired() && end.AllStand(admitted) && forall k :: 0 <= k < |ids| ==> end.proposed[k].id == ids[k]
  {
    if AreDistinct(ids) {
      assert start.Paired() && start.AllStand(calls);
    }
  }

  /** Calls by tool name, names in order of first appearance. */
  function NamesOf(calls: seq<Call>): seq<string> {
    if calls == [] then []
    else
      var names := NamesOf(calls[..|calls| - 1]);
      var name := calls[|calls| - 1].key.tool;
      if name in names then names else names + [name]
  }

  function GroupOf(calls: seq<Call>, name: string): seq<Call> {
    if calls == [] then []
    else
      var group := GroupOf(calls[..|calls| - 1], name);
      if calls[|calls| - 1].key.tool == name then group + [calls[|calls| - 1]] else group
  }

  /** The groups one after the other. */
  function Gathered(names: seq<string>, calls: seq<Call>): seq<Call> {
    if names == [] then [] else Gathered(names[..|names| - 1], calls) + GroupOf(calls, names[|names| - 1])
  }

  lemma {:induction false} NamesAreDistinct(calls: seq<Call>)
    ensures forall i, j :: 0 <= i < j < |NamesOf(calls)| ==> NamesOf(calls)[i] != NamesOf(calls)[j]
    ensures forall i :: 0 <= i < |calls| ==> calls[i].key.tool in NamesOf(calls)
  {
    if calls != [] {
      NamesAreDistinct(calls[..|calls| - 1]);
    }
  }

  lemma {:induction false} GroupHolds(calls: seq<Call>, name: string)
    ensures forall c :: c in GroupOf(calls, name) ==> c in calls && c.key.tool == name
  {
    if calls != [] {
      GroupHolds(calls[..|calls| - 1], name);
    }
  }

  lemma {:induction false} GatheredHolds(names: seq<string>, calls: seq<Call>)
    ensures forall c :: c in Gathered(names, calls) ==> c in calls
  {
    if names != [] {
      GatheredHolds(names[..|names| - 1], calls);
      GroupHolds(calls, names[|names| - 1]);
    }
  }

  /** A call whose name is not listed adds nothing; one whose name is listed once adds itself once. */
  lemma {:induction false} GatheredPush(names: seq<string>, calls: seq<Call>, c: Call)
    requires forall i, j :: 0 <= i < j < |names| ==> names[i] != names[j]
    ensures c.key.tool !in names ==> Gathered(names, calls + [c]) == Gathered(names, calls)
    ensures c.key.tool in names ==>
            Slots(Gathered(names, calls + [c])) == Slots(Gathered(names, calls)) + multiset{c.slot}
  {
    hide Slots;
    if names != [] {
      var front, last := names[..|names| - 1], names[|names| - 1];
      GatheredPush(front, calls, c);
      assert (calls + [c])[..|calls|] == calls;
      if last == c.key.tool {
        assert last !in front;
        assert Gathered(names, calls + [c]) == Gathered(names, calls) + [c];
        SlotsPush(Gathered(names, calls), c);
      } else {
        SlotsJoin(Gathered(front, calls + [c]), GroupOf(calls, last));
        SlotsJoin(Gathered(front, calls), GroupOf(calls, last));
      }
    }
  }

  lemma {:induction false} NewNameIsEmpty(calls: seq<Call>, name: string)
    requires name !in NamesOf(calls)
    ensures GroupOf(calls, name) == []
  {
    if calls != [] {
      NewNameIsEmpty(calls[..|calls| - 1], name);
    }
  }

  /** Grouping loses no call and repeats none. */
  lemma {:induction false} GroupingKeepsSlots(calls: seq<Call>)
    ensures Slots(Gathered(NamesOf(calls), calls)) == Slots(calls)
  {
    if calls != [] {
      var front, c := calls[..|calls| - 1], calls[|calls| - 1];
      assert calls == front + [c];
      GroupingKeepsSlots(front);
      NamesAreDistinct(front);
      GatheredPush(NamesOf(front), front, c);
      if c.key.tool !in NamesOf(front) {
        NewNameIsEmpty(front, c.key.tool);
        var names := NamesOf(front);
        assert (names + [c.key.tool])[..|names|] == names;
        SlotsJoin(Gathered(names, calls), GroupOf(calls, c.key.tool));
        assert GroupOf(calls, c.key.tool) == [] + [c];
        SlotsPush([], c);
      }
    }
  }

  /** Where a tool's calls stand. */
  ghost function PlacesOf(calls: seq<Call>, name: string): seq<nat> {
    if calls == [] then []
    else
      PlacesOf(calls[..|calls| - 1], name) + if calls[|calls| - 1].key.tool == name then [|calls| - 1] else []
  }

  lemma {:induction false} GroupIsPicked(calls: seq<Call>, name: string)
    ensures Picked(GroupOf(calls, name), calls, PlacesOf(calls, name))
    ensures forall i: nat :: i < |calls| ==> (i in PlacesOf(calls, name) <==> calls[i].key.tool == name)
  {
    if calls != [] {
      var front, last := calls[..|calls| - 1], calls[|calls| - 1];
      GroupIsPicked(front, name);
      var group, places := GroupOf(front, name), PlacesOf(front, name);
      assert calls == front + [last];
      PickedMore(group, front, places, last);
      assert forall i: nat :: i in places + [|front|] <==> i in places || i == |front|;
    }
  }

  lemma PickedMore(kept: seq<Call>, calls: seq<Call>, at: seq<nat>, c: Call)
    requires Picked(kept, calls, at)
    ensures Picked(kept, calls + [c], at) && Picked(kept + [c], calls + [c], at + [|calls|])
    ensures forall i: nat :: i in at ==> i < |calls|
  {
  }

  lemma ApartMeans(policy: Policy, calls: seq<Call>, p: nat)
    requires p < |calls| && calls[p].key.tool in SEMANTIC_DEDUP_TOOLS
    ensures Apart(policy, calls, p) <==>
            forall j: nat :: j < p && calls[j].key.tool == calls[p].key.tool && Apart(policy, calls, j) ==>
              !policy.near(calls[p].key, calls[j].key)
  {
  }

  /** First come, first served within the group of an expensive tool, and everybody in any other. */
  ghost predicate Served(policy: Policy, group: seq<Call>, picks: seq<nat>, k: nat)
    requires k < |group| && Ascending(picks, |group|)
  {
    group[k].key.tool in SEMANTIC_DEDUP_TOOLS ==>
      forall j: nat :: j in picks && j < k ==> !policy.near(group[k].key, group[j].key)
  }

  /** What first come, first served keeps of an expensive tool's group is what stands apart on the whole list. */
  lemma {:induction false} ServedIsApart(policy: Policy, calls: seq<Call>, group: seq<Call>, places: seq<nat>,
      at: seq<nat>, i: nat)
    requires Picked(group, calls, places) && Ascending(at, |group|) && i < |group|
    requires forall p: nat :: p < |calls| ==> (p in places <==> calls[p].key.tool == group[i].key.tool)
    requires group[i].key.tool in SEMANTIC_DEDUP_TOOLS
    requires forall k: nat :: k < |group| ==> (k in at <==> Served(policy, group, at, k))
    ensures i in at <==> Apart(policy, calls, places[i])
    decreases i
  {
    hide Apart, Served;
    forall j: nat | j < i
      ensures j in at <==> Apart(policy, calls, places[j])
    {
      assert places[j] in places;
      ServedIsApart(policy, calls, group, places, at, j);
    }
    OneServed(policy, calls, group, places, at, i);
  }

  lemma OneServed(policy: Policy, calls: seq<Call>, group: seq<Call>, places: seq<nat>, at: seq<nat>, i: nat)
    requires Picked(group, calls, places) && Ascending(at, |group|) && i < |group|
    requires forall p: nat :: p < |calls| ==> (p in places <==> calls[p].key.tool == group[i].key.tool)
    requires group[i].key.tool in SEMANTIC_DEDUP_TOOLS
    requires forall j: nat :: j < i ==> (j in at <==> Apart(policy, calls, places[j]))
    ensures Served(policy, group, at, i) <==> Apart(policy, calls, places[i])
  {
    hide Apart;
    ApartMeans(policy, calls, places[i]);
    forall p: nat | p < places[i] && calls[p].key.tool == group[i].key.tool
      ensures exists j: nat :: j < i && places[j] == p
    {
      assert p in places;
      var j :| 0 <= j < |places| && places[j] == p;
    }
    forall j: nat | j < i
      ensures places[j] < places[i] && calls[places[j]].key.tool == group[i].key.tool
    {
      assert places[j] in places;
    }
  }

  /** Names come in the order of their first calls. */
  lemma {:induction false} FirstOf(calls: seq<Call>, a: nat, b: nat) returns (j: nat)
    requires a < b < |NamesOf(calls)|
    ensures j < |calls| && calls[j].key.tool == NamesOf(calls)[a]
    ensures forall i :: 0 <= i < j ==> calls[i].key.tool != NamesOf(calls)[a]
    ensures forall i :: 0 <= i <= j ==> calls[i].key.tool != NamesOf(calls)[b]
  {
    var front := calls[..|calls| - 1];
    NamesAreDistinct(front);
    if b < |NamesOf(front)| {
      j := FirstOf(front, a, b);
    } else {
      j := FirstCall(front, a);
    }
  }

  lemma {:induction false} FirstCall(calls: seq<Call>, a: nat) returns (j: nat)
    requires a < |NamesOf(calls)|
    ensures j < |calls| && calls[j].key.tool == NamesOf(calls)[a]
    ensures forall i :: 0 <= i < j ==> calls[i].key.tool != NamesOf(calls)[a]
  {
    var front := calls[..|calls| - 1];
    NamesAreDistinct(front);
    if a < |NamesOf(front)| {
      j := FirstCall(front, a);
    } else {
      j := |calls| - 1;
    }
  }

  /** The groups before come ahead of this one's calls. */
  lemma GroupsAhead(calls: seq<Call>, names: seq<string>, i: nat, p: nat, q: nat)
    requires names == NamesOf(calls) && i < |names| && p < |calls| && q < |calls|
    requires calls[p].key.tool in names[..i] && calls[q].key.tool == names[i]
    ensures Ahead(calls, p, q)
  {
    NamesAreDistinct(calls);
    var a :| 0 <= a < i && names[a] == calls[p].key.tool;
    var j := FirstOf(calls, a, i);
    assert j <= p;
  }

  /** What the semantic filter has kept when it is through with some of the tools. */
  ghost predicate Gone(policy: Policy, calls: seq<Call>, done: seq<string>, out: seq<Call>, at: seq<nat>) {
    && StandsAt(calls, out, at) && AllAhead(calls, at)
    && forall p: nat :: p < |calls| ==> (p in at <==> calls[p].key.tool in done && Apart(policy, calls, p))
  }

  ghost predicate StandsAt(calls: seq<Call>, out: seq<Call>, at: seq<nat>) {
    |out| == |at| && forall k :: 0 <= k < |at| ==> at[k] < |calls| && out[k] == calls[at[k]]
  }

  ghost predicate AllAhead(calls: seq<Call>, at: seq<nat>) {
    && (forall k :: 0 <= k < |at| ==> at[k] < |calls|)
    && forall k, l :: 0 <= k < l < |at| ==> Ahead(calls, at[k], at[l])
  }

  lemma StandsTogether(calls: seq<Call>, out: seq<Call>, at: seq<nat>, kept: seq<Call>, more: seq<nat>)
    requires StandsAt(calls, out, at) && Picked(kept, calls, more)
    ensures StandsAt(calls, out + kept, at + more)
  {
  }

  /** One more tool's group, thinned or whole. */
  lemma OneMoreGroup(policy: Policy, calls: seq<Call>, i: nat, out: seq<Call>, at: seq<nat>, kept: seq<Call>,
      picks: seq<nat>)
    returns (more: seq<nat>)
    requires i < |NamesOf(calls)| && Gone(policy, calls, NamesOf(calls)[..i], out, at)
    requires Picked(kept, GroupOf(calls, NamesOf(calls)[i]), picks)
    requires forall k: nat :: k < |GroupOf(calls, NamesOf(calls)[i])| ==>
               (k in picks <==> Served(policy, GroupOf(calls, NamesOf(calls)[i]), picks, k))
    ensures Gone(policy, calls, NamesOf(calls)[..i + 1], out + kept, at + more)
  {
    hide Ahead, NamesOf, GroupOf, PlacesOf, Apart, Served, Gone;
    var names, name := NamesOf(calls), NamesOf(calls)[i];
    var group, places := GroupOf(calls, name), PlacesOf(calls, name);
    GroupIsPicked(calls, name);
    more := seq(|picks|, k requires 0 <= k < |picks| => places[picks[k]]);
    forall k: nat | k < |group|
      ensures k in picks <==> Apart(policy, calls, places[k])
    {
      assert places[k] in places;
      GroupApart(policy, calls, group, places, picks, k);
    }
    MoreHolds(policy, calls, name, places, picks, more);
    GoneGrows(policy, calls, i, out, at, kept, more);
  }

  lemma MoreHolds(policy: Policy, calls: seq<Call>, name: string, places: seq<nat>, picks: seq<nat>, more: seq<nat>)
    requires Ascending(places, |calls|) && Ascending(picks, |places|) && |more| == |picks|
    requires forall k :: 0 <= k < |picks| ==> more[k] == places[picks[k]]
    requires forall p: nat :: p < |calls| ==> (p in places <==> calls[p].key.tool == name)
    requires forall k: nat :: k < |places| ==> (k in picks <==> Apart(policy, calls, places[k]))
    ensures Ascending(more, |calls|)
    ensures forall p: nat :: p < |calls| ==> (p in more <==> calls[p].key.tool == name && Apart(policy, calls, p))
  {
    hide Apart;
    assert forall k :: 0 <= k < |places| ==> places[k] in places;
    assert forall k :: 0 <= k < |picks| ==> picks[k] in picks;
    forall p: nat | p < |calls| && calls[p].key.tool == name && Apart(policy, calls, p)
      ensures p in more
    {
      assert p in places;
      var k :| 0 <= k < |places| && places[k] == p;
      assert k in picks;
      var l :| 0 <= l < |picks| && picks[l] == k;
      assert more[l] == p;
    }
  }

  lemma GoneGrows(policy: Policy, calls: seq<Call>, i: nat, out: seq<Call>, at: seq<nat>, kept: seq<Call>,
      more: seq<nat>)
    requires i < |NamesOf(calls)| && Gone(policy, calls, NamesOf(calls)[..i], out, at)
    requires Picked(kept, calls, more)
    requires forall p: nat :: p < |calls| ==>
               (p in more <==> calls[p].key.tool == NamesOf(calls)[i] && Apart(policy, calls, p))
    ensures Gone(policy, calls, NamesOf(calls)[..i + 1], out + kept, at + more)
  {
    hide Ahead, NamesOf, Apart, StandsAt, AllAhead;
    var names := NamesOf(calls);
    assert names[..i + 1] == names[..i] + [names[i]];
    StandsTogether(calls, out, at, kept, more);
    MoreMembers(at, more);
    PlacesInRange(calls, out, at);
    assert forall k :: 0 <= k < |at| ==> at[k] in at;
    assert forall k :: 0 <= k < |more| ==> more[k] in more;
    GroupsInOrder(calls, i, at, more);
  }

  lemma PlacesInRange(calls: seq<Call>, out: seq<Call>, at: seq<nat>)
    requires StandsAt(calls, out, at)
    ensures forall k :: 0 <= k < |at| ==> at[k] < |calls|
  {
  }

  lemma GroupsInOrder(calls: seq<Call>, i: nat, at: seq<nat>, more: seq<nat>)
    requires i < |NamesOf(calls)| && Ascending(more, |calls|) && AllAhead(calls, at)
    requires forall a :: 0 <= a < |at| ==> calls[at[a]].key.tool in NamesOf(calls)[..i]
    requires forall a :: 0 <= a < |more| ==> calls[more[a]].key.tool == NamesOf(calls)[i]
    ensures AllAhead(calls, at + more)
  {
    hide Ahead, NamesOf;
    forall k, l | 0 <= k < l < |at + more|
      ensures Ahead(calls, (at + more)[k], (at + more)[l])
    {
      AheadInAll(calls, i, at, more, k, l);
    }
  }

  lemma MoreMembers(a: seq<nat>, b: seq<nat>)
    ensures forall p: nat :: p in a + b <==> p in a || p in b
  {
  }

  lemma AheadInAll(calls: seq<Call>, i: nat, at: seq<nat>, more: seq<nat>, k: nat, l: nat)
    requires i < |NamesOf(calls)| && k < l < |at + more| && Ascending(more, |calls|)
    requires forall a :: 0 <= a < |at| ==> at[a] < |calls| && calls[at[a]].key.tool in NamesOf(calls)[..i]
    requires forall a :: 0 <= a < |more| ==> calls[more[a]].key.tool == NamesOf(calls)[i]
    requires forall a, b :: 0 <= a < b < |at| ==> Ahead(calls, at[a], at[b])
    ensures Ahead(calls, (at + more)[k], (at + more)[l])
  {
    hide Ahead, NamesOf;
    if k < |at| <= l {
      GroupsAhead(calls, NamesOf(calls), i, at[k], more[l - |at|]);
    } else if |at| <= k {
      WithinGroup(calls, more[k - |at|], more[l - |at|]);
    }
  }

  lemma WithinGroup(calls: seq<Call>, p: nat, q: nat)
    requires p < q < |calls| && calls[p].key.tool == calls[q].key.tool
    ensures Ahead(calls, p, q)
  {
  }

  lemma GroupApart(policy: Policy, calls: seq<Call>, group: seq<Call>, places: seq<nat>, picks: seq<nat>, k: nat)
    requires Picked(group, calls, places) && Ascending(picks, |group|) && k < |group|
    requires forall p: nat :: p < |calls| ==> (p in places <==> calls[p].key.tool == group[k].key.tool)
    requires forall i: nat :: i < |group| ==> (i in picks <==> Served(policy, group, picks, i))
    ensures k in picks <==> Apart(policy, calls, places[k])
  {
    if group[k].key.tool in SEMANTIC_DEDUP_TOOLS {
      assert forall i :: 0 <= i < |places| ==> places[i] in places;
      ServedIsApart(policy, calls, group, places, picks, k);
    }
  }

  /** All of a group. */
  lemma Everybody(policy: Policy, group: seq<Call>) returns (picks: seq<nat>)
    requires group == [] || group[0].key.tool !in SEMANTIC_DEDUP_TOOLS
    requires forall c :: c in group ==> c.key.tool == group[0].key.tool
    ensures Picked(group, group, picks)
    ensures forall k: nat :: k < |group| ==> k in picks && Served(policy, group, picks, k)
  {
    picks := seq(|group|, k => k);
    forall k: nat | k < |group|
      ensures k in picks
    {
      assert picks[k] == k;
    }
  }

  lemma NothingGathered(calls: seq<Call>)
    ensures Gathered(NamesOf(calls)[..0], calls) == []
  {
  }

  lemma NothingGone(policy: Policy, calls: seq<Call>)
    ensures Gone(policy, calls, NamesOf(calls)[..0], [], [])
  {
  }

  lemma AllGone(policy: Policy, calls: seq<Call>, out: seq<Call>, at: seq<nat>)
    requires Gone(policy, calls, NamesOf(calls), out, at)
    ensures |out| == |at| && forall k :: 0 <= k < |at| ==> at[k] < |calls| && out[k] == calls[at[k]]
    ensures forall p: nat :: p < |calls| ==> (p in at <==> Apart(policy, calls, p))
    ensures forall k, l :: 0 <= k < l < |at| ==> Ahead(calls, at[k], at[l])
  {
    hide Apart, Ahead;
    NamesAreDistinct(calls);
  }

  lemma GatheredStep(names: seq<string>, calls: seq<Call>, i: nat)
    requires i < |names|
    ensures Gathered(names[..i + 1], calls) == Gathered(names[..i], calls) + GroupOf(calls, names[i])
  {
    assert names[..i + 1][..i] == names[..i];
  }

  /** Of the first n calls those at these places go on: as they are, or, a use_tool, as the call inside it; and the
      others are use_tool calls with nothing inside. */
  ghost predicate IsUnwrapped(policy: Policy, calls: seq<Call>, n: nat, out: seq<Call>, at: seq<nat>)
    requires n <= |calls|
  {
    && Ascending(at, n) && |out| == |at|
    && (forall i: nat :: i < n ==>
          (i in at <==> policy.trim(calls[i].key.tool) != "use_tool" || policy.inner(calls[i].key).Some?))
    && forall k :: 0 <= k < |at| ==> GoesOnAs(policy, calls[at[k]], out[k])
  }

  predicate GoesOnAs(policy: Policy, c: Call, out: Call) {
    if policy.trim(c.key.tool) != "use_tool" then out == c
    else out.slot == c.slot && out.copy && Some(out.key) == policy.inner(c.key)
  }

  lemma NothingUnwrapped(policy: Policy, calls: seq<Call>)
    ensures IsUnwrapped(policy, calls, 0, [], [])
  {
  }

  lemma OneMoreUnwrapped(policy: Policy, calls: seq<Call>, n: nat, out: seq<Call>, at: seq<nat>, c: Call)
    requires n < |calls| && IsUnwrapped(policy, calls, n, out, at) && GoesOnAs(policy, calls[n], c)
    ensures IsUnwrapped(policy, calls, n + 1, out + [c], at + [n])
  {
  }

  lemma NoMoreUnwrapped(policy: Policy, calls: seq<Call>, n: nat, out: seq<Call>, at: seq<nat>)
    requires n < |calls| && IsUnwrapped(policy, calls, n, out, at)
    requires policy.trim(calls[n].key.tool) == "use_tool" && policy.inner(calls[n].key).None?
    ensures IsUnwrapped(policy, calls, n + 1, out, at)
  {
  }

  /** What comes out of the unwrapping is what the proposals meant. */
  lemma MeantCarries(policy: Policy, keys: seq<Key>, calls: seq<Call>, meant: seq<Call>, at: seq<nat>)
    requires |calls| == |keys| && forall i :: 0 <= i < |calls| ==> calls[i].slot == i && calls[i].key == keys[i]
    requires IsUnwrapped(policy, calls, |calls|, meant, at)
    ensures Carries(policy, keys, meant) && SlotsAscend(meant)
    ensures forall i: nat :: i < |keys| ==> (Has(meant, i) <==> MeantKey(policy, keys[i]).Some?)
  {
    assert forall k :: 0 <= k < |at| ==> meant[k].slot == at[k] && at[k] in at;
    forall i: nat | i < |keys|
      ensures Has(meant, i) <==> MeantKey(policy, keys[i]).Some?
    {
      if i in at {
        var k :| 0 <= k < |at| && at[k] == i;
        assert meant[k].slot == i;
      }
    }
  }

  /** Of the first n calls those at these places go on, each under its alias if it has one that can be used and under
      its trimmed name otherwise; that name is registered, and the others' are not. */
  ghost predicate IsCorrected(policy: Policy, calls: seq<Call>, n: nat, kept: seq<Call>, at: seq<nat>)
    requires n <= |calls|
  {
    && Ascending(at, n) && |kept| == |at|
    && (forall i: nat :: i < n ==> (i in at <==> policy.registered(CorrectedName(policy, calls[i].key.tool))))
    && forall k :: 0 <= k < |at| ==>
         var shown, name := policy.trim(calls[at[k]].key.tool), kept[k].key.tool;
         && policy.registered(name)
         && name == (if policy.usableAlias(shown).Some? then policy.usableAlias(shown).value else shown)
         && kept[k] == calls[at[k]].(key := calls[at[k]].key.(tool := name))
  }

  lemma NothingCorrected(policy: Policy, calls: seq<Call>)
    ensures IsCorrected(policy, calls, 0, [], [])
  {
  }

  lemma OneMoreCorrected(policy: Policy, calls: seq<Call>, n: nat, kept: seq<Call>, at: seq<nat>, name: string)
    requires n < |calls| && IsCorrected(policy, calls, n, kept, at)
    requires name == CorrectedName(policy, calls[n].key.tool)
    ensures if policy.registered(name) then
              IsCorrected(policy, calls, n + 1, kept + [calls[n].(key := calls[n].key.(tool := name))], at + [n])
            else IsCorrected(policy, calls, n + 1, kept, at)
  {
  }

  /** No proposal twice, and those that mean the same tool in the model's order. */
  ghost predicate InToolOrder(policy: Policy, keys: seq<Key>, calls: seq<Call>)
    requires forall k :: 0 <= k < |calls| ==>
               calls[k].slot < |keys| && MeantKey(policy, keys[calls[k].slot]).Some?
  {
    forall k, l :: 0 <= k < l < |calls| ==>
      && calls[k].slot != calls[l].slot
      && (MeantKey(policy, keys[calls[k].slot]).value.tool == MeantKey(policy, keys[calls[l].slot]).value.tool
          ==> calls[k].slot < calls[l].slot)
  }

  lemma GroupedBySlot(policy: Policy, keys: seq<Key>, unique: seq<Call>, apart: seq<Call>, at: seq<nat>)
    requires Carries(policy, keys, unique) && SlotsAscend(unique) && Carries(policy, keys, apart)
    requires |apart| == |at| && forall k :: 0 <= k < |at| ==> at[k] < |unique| && apart[k] == unique[at[k]]
    requires forall k, l :: 0 <= k < l < |at| ==> Ahead(unique, at[k], at[l])
    ensures InToolOrder(policy, keys, apart)
  {
    hide MeantKey;
    forall k, l | 0 <= k < l < |at|
      ensures apart[k].slot != apart[l].slot
      ensures apart[k].key.tool == apart[l].key.tool ==> apart[k].slot < apart[l].slot
    {
      assert Ahead(unique, at[k], at[l]);
    }
  }

  /** The last two filters: what stands apart goes on under its corrected name, if that and its arguments are good. */
  lemma AdmittedExactly(policy: Policy, cache: map<Key, (nat, string)>, keys: seq<Key>, apart: seq<Call>,
      known: seq<Call>, from: seq<nat>, admitted: seq<Call>, at: seq<nat>)
    requires Carries(policy, keys, apart) && InToolOrder(policy, keys, apart)
    requires forall i: nat :: i < |keys| ==> (Has(apart, i) <==> StandsApart(policy, cache, keys, i))
    requires IsCorrected(policy, apart, |apart|, known, from)
    requires Picked(admitted, known, at)
    requires forall i: nat :: i < |known| ==> (i in at <==> policy.accepts(known[i].key))
    ensures forall k :: 0 <= k < |admitted| ==>
              && admitted[k].slot < |keys| && MeantKey(policy, keys[admitted[k].slot]).Some?
              && admitted[k].key == CorrectedKey(policy, MeantKey(policy, keys[admitted[k].slot]).value)
    ensures InToolOrder(policy, keys, admitted)
    ensures forall i: nat :: i < |keys| ==> (Has(admitted, i) <==> Admissible(policy, cache, keys, i))
  {
    hide StandsApart, MeantKey, CorrectedName;
    assert forall k :: 0 <= k < |at| ==> at[k] in at;
    assert forall k :: 0 <= k < |from| ==> from[k] in from;
    CorrectedAs(policy, apart, known, from);
    forall k | 0 <= k < |admitted|
      ensures admitted[k] == apart[from[at[k]]].(key := CorrectedKey(policy, apart[from[at[k]]].key))
    {
    }
    forall i: nat | i < |keys|
      ensures Has(admitted, i) <==> Admissible(policy, cache, keys, i)
    {
      AdmittedAt(policy, cache, keys, apart, known, from, admitted, at, i);
    }
  }

  lemma CorrectedAs(policy: Policy, calls: seq<Call>, kept: seq<Call>, at: seq<nat>)
    requires IsCorrected(policy, calls, |calls|, kept, at)
    ensures forall k :: 0 <= k < |at| ==> kept[k] == calls[at[k]].(key := CorrectedKey(policy, calls[at[k]].key))
  {
  }

  lemma AdmittedAt(policy: Policy, cache: map<Key, (nat, string)>, keys: seq<Key>, apart: seq<Call>,
      known: seq<Call>, from: seq<nat>, admitted: seq<Call>, at: seq<nat>, i: nat)
    requires Carries(policy, keys, apart) && i < |keys|
    requires Has(apart, i) <==> StandsApart(policy, cache, keys, i)
    requires forall k, l :: 0 <= k < l < |apart| ==> apart[k].slot != apart[l].slot
    requires Ascending(from, |apart|) && |known| == |from|
    requires forall p: nat :: p < |apart| ==>
               (p in from <==> policy.registered(CorrectedName(policy, apart[p].key.tool)))
    requires forall k :: 0 <= k < |from| ==>
               known[k] == apart[from[k]].(key := CorrectedKey(policy, apart[from[k]].key))
    requires Picked(admitted, known, at)
    requires forall p: nat :: p < |known| ==> (p in at <==> policy.accepts(known[p].key))
    ensures Has(admitted, i) <==> Admissible(policy, cache, keys, i)
  {
    hide StandsApart, MeantKey, CorrectedName;
    assert forall k :: 0 <= k < |at| ==> at[k] in at;
    assert forall k :: 0 <= k < |from| ==> from[k] in from;
    if Has(admitted, i) {
      var k :| 0 <= k < |admitted| && admitted[k].slot == i;
      assert apart[from[at[k]]].slot == i;
    }
    if Admissible(policy, cache, keys, i) {
      var p :| 0 <= p < |apart| && apart[p].slot == i;
      assert p in from;
      var q :| 0 <= q < |from| && from[q] == p;
      assert q in at;
      var k :| 0 <= k < |at| && at[k] == q;
      assert admitted[k].slot == i;
    }
  }

  // ---------------------------------------------------------------------
  // The rows a round leaves in the transcript
  // ---------------------------------------------------------------------

  datatype Row = Assistant(ids: seq<string>) | Tool(id: string)

  function Ids(proposed: seq<Proposal>): seq<string> {
    seq(|proposed|, i requires 0 <= i < |proposed| => proposed[i].id)
  }

  function ToolRows(calls: seq<Call>): seq<Row> {
    seq(|calls|, i requires 0 <= i < |calls| => Tool(calls[i].id))
  }

  /** An aborted round answers only the calls that have an id. */
  function StubRows(calls: seq<Call>): seq<Row> {
    if calls == [] then []
    else StubRows(calls[..|calls| - 1]) + if calls[|calls| - 1].id == "" then [] else [Tool(calls[|calls| - 1].id)]
  }

  function RowCount(rows: seq<Row>, row: Row): nat {
    multiset(rows)[row]
  }

  /** With ids read off the proposals, a call's tool row appears as often as its slot does. */
  lemma {:induction false} RowsCountSlots(r: Round, calls: seq<Call>, k: nat)
    requires r.DistinctIds() && r.AllStand(calls) && k < |r.proposed|
    ensures RowCount(ToolRows(calls), Tool(r.proposed[k].id)) == Slots(calls)[k]
  {
    if calls != [] {
      var front, c := calls[..|calls| - 1], calls[|calls| - 1];
      RowsCountSlots(r, front, k);
      assert ToolRows(calls) == ToolRows(front) + [Tool(c.id)];
      assert c.id == r.proposed[k].id <==> c.slot == k;
    }
  }

  lemma {:induction false} StubsAreToolRows(r: Round, calls: seq<Call>)
    requires r.DistinctIds() && r.AllStand(calls)
    ensures StubRows(calls) == ToolRows(calls)
  {
    if calls != [] {
      var front, c := calls[..|calls| - 1], calls[|calls| - 1];
      StubsAreToolRows(r, front);
      assert r.Stands(c);
      assert ToolRows(calls) == ToolRows(front) + [Tool(c.id)];
    }
  }

  lemma {:induction false} EachSlotOnce(n: nat, k: nat)
    ensures AllSlots(n)[k] == if k < n then 1 else 0
  {
    if n > 0 {
      EachSlotOnce(n - 1, k);
    }
  }

  function RoundRows(r: Round, admitted: seq<Call>, aborted: bool): seq<Row> {
    [Assistant(Ids(r.proposed))] + (ToolRows(r.rejected) + if aborted then StubRows(admitted) else ToolRows(admitted))
  }

  /** Every proposed id is answered by exactly one tool row after its assistant row, whether its call was refused,
      executed or aborted; and its proposal carries the rejected mark exactly when a refusal answers it. */
  lemma EveryProposalAnsweredOnce(r: Round, admitted: seq<Call>, aborted: bool, k: nat)
    requires r.Paired() && r.AllStand(admitted) && k < |r.proposed|
    requires Slots(admitted) + Slots(r.rejected) == AllSlots(|r.proposed|)
    ensures RowCount(RoundRows(r, admitted, aborted)[1..], Tool(r.proposed[k].id)) == 1
    ensures r.proposed[k].id in RoundRows(r, admitted, aborted)[0].ids
    ensures r.proposed[k].rejected <==> Tool(r.proposed[k].id) in ToolRows(r.rejected)
  {
    RowsCountSlots(r, admitted, k);
    RowsCountSlots(r, r.rejected, k);
    StubsAreToolRows(r, admitted);
    EachSlotOnce(|r.proposed|, k);
    assert (Slots(admitted) + Slots(r.rejected))[k] == 1;
    assert RoundRows(r, admitted, aborted)[1..] == ToolRows(r.rejected) + ToolRows(admitted);
    assert multiset(ToolRows(r.rejected))[Tool(r.proposed[k].id)] > 0 <==>
      Tool(r.proposed[k].id) in ToolRows(r.rejected);
    assert Ids(r.proposed)[k] == r.proposed[k].id;
  }

  lemma FirstRows(r: Round, admitted: seq<Call>, aborted: bool)
    ensures var rows := RoundRows(r, admitted, aborted);
            && |rows| > |r.rejected| && rows[0] == Assistant(Ids(r.proposed))
            && rows[1..1 + |r.rejected|] == ToolRows(r.rejected)
  {
  }

  /** A row that is there once is on one side of any cut. */
  lemma OnlyOnce(rows: seq<Row>, cut: nat, row: Row)
    requires cut <= |rows| && RowCount(rows, row) == 1
    ensures row in rows[..cut] <==> row !in rows[cut..]
  {
    assert rows == rows[..cut] + rows[cut..];
    assert multiset(rows)[row] == multiset(rows[..cut])[row] + multiset(rows[cut..])[row];
  }

  lemma AllPlaces(n: nat) returns (at: seq<nat>)
    ensures Ascending(at, n) && |at| == n && forall k: nat :: k < n ==> k in at && at[k] == k
  {
    at := seq(n, k => k);
    forall k: nat | k < n
      ensures k in at
    {
      assert at[k] == k;
    }
  }

  lemma RowsInTurn(head: Row, a: seq<Row>, b: seq<Row>)
    ensures var rows := [head] + (a + b);
            && rows[0] == head && (forall i :: 0 <= i < |a| ==> rows[1 + i] == a[i])
            && forall i :: 0 <= i < |b| ==> rows[1 + |a| + i] == b[i]
  {
  }

  /** What is not admitted is marked. */
  lemma MarkedIfNotAdmitted(r: Round, admitted: seq<Call>, k: nat)
    requires r.Paired() && k < |r.proposed| && Slots(admitted) + Slots(r.rejected) == AllSlots(|r.proposed|)
    ensures r.proposed[k].rejected <==> !Has(admitted, k)
  {
    EachSlotOnce(|r.proposed|, k);
    assert (Slots(admitted) + Slots(r.rejected))[k] == 1;
    if k in Slots(admitted) {
      var i := SlotsFrom(admitted, k);
    }
    if i :| 0 <= i < |admitted| && admitted[i].slot == k {
      SlotsHas(admitted, i);
    }
  }

  class ToolCallGate {
    var crossRound: map<Key, (nat, string)>
    ghost var log: seq<Done>
    var proposed: seq<Proposal>
    var rejected: seq<Call>
    var wrapped: map<string, nat>

    ghost predicate Valid()
      reads `crossRound, `log
    {
      Abstracts(crossRound, log)
    }

    function Now(): Round
      reads `proposed, `rejected, `wrapped
    {
      Round(proposed, rejected, wrapped)
    }

    constructor ()
      ensures Valid() && log == [] && Now() == Round([], [], map[])
    {
      crossRound, log, proposed, rejected, wrapped := map[], [], [], [], map[];
    }

    method RememberSuccess(key: Key, round: nat, content: string)
      requires Valid()
      modifies `crossRound, `log
      ensures crossRound == Remember(old(crossRound), Done(key, round, content))
      ensures Valid() && log == old(log) + [Done(key, round, content)]
    {
      var d := Done(key, round, content);
      if key.tool !in DEDUP_EXCLUDED {
        crossRound := crossRound[key := (round, Excerpt(content))];
      }
      if key.tool in STATE_MUTATING_TOOLS {
        crossRound := map k | k in crossRound && !IsBashKey(k) :: crossRound[k];
      } else if key.tool == "bash" {
        crossRound := map k | k in crossRound && !(IsBashKey(k) && k != key) :: crossRound[k];
      }
      log := log + [d];
      assert crossRound == Remember(old(crossRound), d);
      RememberAbstracts(old(crossRound), old(log), d);
    }

    method Refuse(policy: Policy, call: Call)
      requires Now().Ranged() && call.slot < |proposed|
      modifies `proposed, `rejected
      ensures Now() == old(Now()).Refuse(policy, call)
      ensures var id := if call.id == "" then policy.rejectedId(|old(rejected)|, call.key) else call.id;
              && rejected == old(rejected) + [call.(id := id)]
              && (!call.copy ==> proposed[call.slot] == Proposal(id, true))
              && (id in wrapped ==> wrapped[id] < |proposed| && proposed[wrapped[id]].rejected)
    {
      var c := call;
      if c.id == "" {
        c := c.(id := policy.rejectedId(|rejected|, c.key));
      }
      if !c.copy {
        proposed := proposed[c.slot := Proposal(c.id, true)];
      }
      if c.id in wrapped {
        proposed := proposed[wrapped[c.id] := proposed[wrapped[c.id]].(rejected := true)];
      }
      rejected := rejected + [c];
    }

    method UnwrapUseTool(policy: Policy, calls: seq<Call>) returns (out: seq<Call>, ghost at: seq<nat>)
      requires Now().Ranged() && Now().Holds(calls) && forall i :: 0 <= i < |calls| ==> calls[i].slot == i
      modifies `proposed, `rejected, `wrapped
      ensures Sorts(old(Now()), Now(), calls, out)
      ensures IsUnwrapped(policy, calls, |calls|, out, at)
    {
      hide Sorts, Round.Refuse, IsUnwrapped;
      out, at := [], [];
      NothingUnwrapped(policy, calls);
      SortsNothing(Now());
      for i := 0 to |calls|
        invariant Sorts(old(Now()), Now(), calls[..i], out) && IsUnwrapped(policy, calls, i, out, at)
      {
        var c := calls[i];
        SortsFacts(old(Now()), Now(), calls[..i], out);
        assert calls[..i + 1] == calls[..i] + [c];
        if policy.trim(c.key.tool) != "use_tool" {
          SortsKeep(old(Now()), Now(), calls[..i], out, c, c.key);
          OneMoreUnwrapped(policy, calls, i, out, at, c);
          out, at := out + [c], at + [i];
        } else {
          var id := if c.id == "" then policy.useToolId(|wrapped|, c.key) else c.id;
          match policy.inner(c.key) {
            case Some(key) =>
              SortsWrap(old(Now()), Now(), calls[..i], out, c, id, key);
              proposed := proposed[c.slot := proposed[c.slot].(id := id)];
              wrapped := wrapped[id := c.slot];
              OneMoreUnwrapped(policy, calls, i, out, at, Call(c.slot, true, id, key));
              out, at := out + [Call(c.slot, true, id, key)], at + [i];
            case None =>
              SortsRefuse(policy, old(Now()), Now(), calls[..i], out, c, id);
              Refuse(policy, c.(id := id));
              NoMoreUnwrapped(policy, calls, i, out, at);
          }
        }
      }
      assert calls[..|calls|] == calls;
    }

    method Dedup(policy: Policy, calls: seq<Call>) returns (kept: seq<Call>, ghost at: seq<nat>)
      requires Now().Ranged() && Now().Holds(calls)
      modifies `proposed, `rejected
      ensures Sorts(old(Now()), Now(), calls, kept) && Picked(kept, calls, at)
      ensures forall i: nat :: i < |calls| ==> (i in at <==> !RefusedByDedup(policy, crossRound, calls, i))
    {
      hide Sorts, Round.Refuse;
      var seen: set<Key> := {};
      kept, at := [], [];
      SortsNothing(Now());
      for i := 0 to |calls|
        invariant Sorts(old(Now()), Now(), calls[..i], kept) && Picked(kept, calls, at) && Ascending(at, i)
        invariant forall j: nat :: j < i ==> (j in at <==> !RefusedByDedup(policy, crossRound, calls, j))
        invariant forall k :: k in seen <==> exists j :: 0 <= j < i && calls[j].key == k
      {
        var c := calls[i];
        SortsFacts(old(Now()), Now(), calls[..i], kept);
        assert calls[..i + 1] == calls[..i] + [c];
        if c.key in seen {
          SortsRefuse(policy, old(Now()), Now(), calls[..i], kept, c, c.id);
          Refuse(policy, c);
        } else {
          seen := seen + {c.key};
          if c.key in crossRound && c.key.tool !in DEDUP_EXCLUDED && policy.idempotent(c.key.tool) {
            SortsRefuse(policy, old(Now()), Now(), calls[..i], kept, c, c.id);
            Refuse(policy, c);
          } else {
            SortsKeep(old(Now()), Now(), calls[..i], kept, c, c.key);
            kept, at := kept + [c], at + [i];
          }
        }
      }
      assert calls[..|calls|] == calls;
    }

    /** Aliases known hallucinations and refuses names the registry does not know. */
    method CorrectNames(policy: Policy, calls: seq<Call>) returns (kept: seq<Call>, ghost at: seq<nat>)
      requires Now().Ranged() && Now().Holds(calls)
      modifies `proposed, `rejected
      ensures Sorts(old(Now()), Now(), calls, kept) && IsCorrected(policy, calls, |calls|, kept, at)
    {
      hide Sorts, Round.Refuse, IsCorrected;
      kept, at := [], [];
      NothingCorrected(policy, calls);
      SortsNothing(Now());
      for i := 0 to |calls|
        invariant Sorts(old(Now()), Now(), calls[..i], kept) && IsCorrected(policy, calls, i, kept, at)
      {
        var c := calls[i];
        var name := policy.trim(c.key.tool);
        match policy.usableAlias(name) {
          case Some(target) => name := target;
          case None =>
        }
        SortsFacts(old(Now()), Now(), calls[..i], kept);
        assert calls[..i + 1] == calls[..i] + [c];
        OneMoreCorrected(policy, calls, i, kept, at, name);
        if !policy.registered(name) {
          SortsRefuse(policy, old(Now()), Now(), calls[..i], kept, c, c.id);
          Refuse(policy, c);
        } else {
          SortsKeep(old(Now()), Now(), calls[..i], kept, c, c.key.(tool := name));
          kept, at := kept + [c.(key := c.key.(tool := name))], at + [i];
        }
      }
      assert calls[..|calls|] == calls;
    }

    /** Refuses arguments that are not an object, lack a required parameter or do not fit their types. */
    method ParseAndValidate(policy: Policy, calls: seq<Call>) returns (kept: seq<Call>, ghost at: seq<nat>)
      requires Now().Ranged() && Now().Holds(calls)
      modifies `proposed, `rejected
      ensures Sorts(old(Now()), Now(), calls, kept) && Picked(kept, calls, at)
      ensures forall i: nat :: i < |calls| ==> (i in at <==> policy.accepts(calls[i].key))
    {
      hide Sorts, Round.Refuse;
      kept, at := [], [];
      SortsNothing(Now());
      for i := 0 to |calls|
        invariant Sorts(old(Now()), Now(), calls[..i], kept) && Picked(kept, calls, at) && Ascending(at, i)
        invariant forall j: nat :: j < i ==> (j in at <==> policy.accepts(calls[j].key))
      {
        var c := calls[i];
        SortsFacts(old(Now()), Now(), calls[..i], kept);
        assert calls[..i + 1] == calls[..i] + [c];
        if !policy.accepts(c.key) {
          SortsRefuse(policy, old(Now()), Now(), calls[..i], kept, c, c.id);
          Refuse(policy, c);
        } else {
          SortsKeep(old(Now()), Now(), calls[..i], kept, c, c.key);
          kept, at := kept + [c], at + [i];
        }
      }
      assert calls[..|calls|] == calls;
    }

    /** One group of a tool whose near-duplicates are dropped, first come, first served. */
    method ThinGroup(policy: Policy, group: seq<Call>) returns (kept: seq<Call>, ghost at: seq<nat>)
      requires Now().Ranged() && Now().Holds(group)
      modifies `proposed, `rejected
      ensures Sorts(old(Now()), Now(), group, kept) && Picked(kept, group, at)
      ensures forall i: nat :: i < |group| ==>
                (i in at <==> forall j: nat :: j in at && j < i ==> !policy.near(group[i].key, group[j].key))
    {
      hide Sorts, Round.Refuse;
      kept, at := [], [];
      SortsNothing(Now());
      for i := 0 to |group|
        invariant Sorts(old(Now()), Now(), group[..i], kept) && Picked(kept, group, at) && Ascending(at, i)
        invariant forall k: nat :: k < i ==>
                    (k in at <==> forall j: nat :: j in at && j < k ==> !policy.near(group[k].key, group[j].key))
      {
        var c := group[i];
        SortsFacts(old(Now()), Now(), group[..i], kept);
        assert group[..i + 1] == group[..i] + [c];
        var j := 0;
        while j < |kept| && !policy.near(c.key, kept[j].key)
          invariant j <= |kept| && forall k :: 0 <= k < j ==> !policy.near(c.key, kept[k].key)
        {
          j := j + 1;
        }
        if j < |kept| {
          assert at[j] in at;
          SortsRefuse(policy, old(Now()), Now(), group[..i], kept, c, c.id);
          Refuse(policy, c);
        } else {
          SortsKeep(old(Now()), Now(), group[..i], kept, c, c.key);
          kept, at := kept + [c], at + [i];
        }
      }
      assert group[..|group|] == group;
    }

    /** Drops calls to expensive tools that ask the same thing twice; the survivors come out grouped by name. */
    method SemanticDedup(policy: Policy, calls: seq<Call>) returns (out: seq<Call>, ghost at: seq<nat>)
      requires Now().Ranged() && Now().Holds(calls)
      modifies `proposed, `rejected
      ensures Sorts(old(Now()), Now(), calls, out)
      ensures |out| == |at| && forall k :: 0 <= k < |at| ==> at[k] < |calls| && out[k] == calls[at[k]]
      ensures forall p: nat :: p < |calls| ==> (p in at <==> Apart(policy, calls, p))
      ensures forall k, l :: 0 <= k < l < |at| ==> Ahead(calls, at[k], at[l])
    {
      hide Sorts, Round.Refuse, Apart, Ahead, NamesOf, GroupOf, Gathered, Gone;
      var names := NamesOf(calls);
      NamesAreDistinct(calls);
      out, at := [], [];
      SortsNothing(Now());
      NothingGone(policy, calls);
      NothingGathered(calls);
      for i := 0 to |names|
        invariant Sorts(old(Now()), Now(), Gathered(names[..i], calls), out)
        invariant Gone(policy, calls, names[..i], out, at)
      {
        ghost var before := Gathered(names[..i], calls);
        SortsFacts(old(Now()), Now(), before, out);
        var group := GroupOf(calls, names[i]);
        GroupHolds(calls, names[i]);
        assert Now().Holds(group);
        GatheredStep(names, calls, i);
        ghost var mid := Now();
        var kept;
        ghost var picks;
        if |group| >= 1 && group[0].key.tool in SEMANTIC_DEDUP_TOOLS {
          kept, picks := ThinGroup(policy, group);
          assert forall k: nat :: k < |group| ==> (k in picks <==> Served(policy, group, picks, k));
        } else {
          kept := group;
          picks := Everybody(policy, group);
          SortsAll(Now(), group);
        }
        SortsJoin(old(Now()), mid, Now(), before, out, group, kept);
        ghost var more := OneMoreGroup(policy, calls, i, out, at, kept, picks);
        out, at := out + kept, at + more;
      }
      assert names[..|names|] == names;
      GroupingKeepsSlots(calls);
      GatheredHolds(names, calls);
      SortsRegrouped(old(Now()), Now(), Gathered(names, calls), calls, out);
      AllGone(policy, calls, out, at);
    }

    /** The four filters in their order, behind the unwrapping of use_tool. A proposal is admitted exactly when it is
        admissible, once, under its corrected name, and the admitted calls of one tool keep the model's order. */
    method Admit(policy: Policy, ids: seq<string>, keys: seq<Key>) returns (admitted: seq<Call>)
      requires |ids| == |keys|
      modifies `proposed, `rejected, `wrapped
      ensures |proposed| == |ids| && Now().Ranged() && Now().Holds(admitted)
      ensures Slots(admitted) + Slots(rejected) == AllSlots(|ids|)
      ensures forall i: nat :: i < |keys| ==> (Has(admitted, i) <==> Admissible(policy, crossRound, keys, i))
      ensures forall k :: 0 <= k < |admitted| ==>
                && admitted[k].slot < |keys| && MeantKey(policy, keys[admitted[k].slot]).Some?
                && admitted[k].key == CorrectedKey(policy, MeantKey(policy, keys[admitted[k].slot]).value)
      ensures forall k, l :: 0 <= k < l < |admitted| ==>
                && admitted[k].slot != admitted[l].slot
                && (MeantKey(policy, keys[admitted[k].slot]).value.tool ==
                      MeantKey(policy, keys[admitted[l].slot]).value.tool
                    ==> admitted[k].slot < admitted[l].slot)
      ensures AreDistinct(ids) ==>
                Now().Paired() && Now().AllStand(admitted) && forall k :: 0 <= k < |ids| ==> proposed[k].id == ids[k]
    {
      hide Sorts, Slots, Ahead, Apart, Has, RefusedByDedup, StandsApart, IsFresh;
      var calls := seq(|ids|, i requires 0 <= i < |ids| => Call(i, false, ids[i], keys[i]));
      proposed := seq(|ids|, i requires 0 <= i < |ids| => Proposal(ids[i], false));
      rejected, wrapped := [], map[];
      ghost var start := Now();
      FirstSlots(calls);
      var meant, unique, apart, known;
      ghost var at, from;
      meant, at := UnwrapUseTool(policy, calls);
      MeantCarries(policy, keys, calls, meant, at);
      SortsFacts(start, Now(), calls, meant);
      ghost var now := Now();
      unique, at := Dedup(policy, meant);
      SortsThen(start, now, Now(), calls, meant, unique);
      SortsFacts(start, Now(), calls, unique);
      FreshAfterDedup(policy, crossRound, keys, meant, unique, at);
      now := Now();
      apart, at := SemanticDedup(policy, unique);
      SortsThen(start, now, Now(), calls, unique, apart);
      SortsFacts(start, Now(), calls, apart);
      ApartAfterThinning(policy, crossRound, keys, unique, apart, at);
      GroupedBySlot(policy, keys, unique, apart, at);
      now := Now();
      known, from := CorrectNames(policy, apart);
      SortsThen(start, now, Now(), calls, apart, known);
      SortsFacts(start, Now(), calls, known);
      now := Now();
      admitted, at := ParseAndValidate(policy, known);
      SortsThen(start, now, Now(), calls, known, admitted);
      AdmittedExactly(policy, crossRound, keys, apart, known, from, admitted, at);
      SortsResult(start, Now(), calls, admitted, ids);
    }

    method FlushRejections() returns (rows: seq<Row>)
      modifies `rejected
      ensures rows == ToolRows(old(rejected)) && rejected == []
      ensures |rows| == |old(rejected)| && forall i :: 0 <= i < |rows| ==> rows[i] == Tool(old(rejected)[i].id)
    {
      rows := [];
      for i := 0 to |rejected|
        invariant rows == ToolRows(rejected[..i])
      {
        rows := rows + [Tool(rejected[i].id)];
      }
      rejected := [];
    }

    /** One round's rows: the assistant row with every proposal, the refusals, then the results, or after an abort the
        stubs of the calls that have an id; `at` says whose. */
    method WriteRound(admitted: seq<Call>, aborted: bool) returns (rows: seq<Row>, ghost at: seq<nat>)
      modifies `rejected
      ensures rows == RoundRows(old(Now()), admitted, aborted) && rejected == []
      ensures |rows| == 1 + |old(rejected)| + |at| && Ascending(at, |admitted|)
      ensures rows[0].Assistant? && |rows[0].ids| == |proposed|
      ensures forall i :: 0 <= i < |proposed| ==> rows[0].ids[i] == proposed[i].id
      ensures forall i :: 0 <= i < |old(rejected)| ==> rows[1 + i] == Tool(old(rejected)[i].id)
      ensures forall i: nat :: i < |admitted| ==> (i in at <==> !aborted || admitted[i].id != "")
      ensures forall k :: 0 <= k < |at| ==> rows[1 + |old(rejected)| + k] == Tool(admitted[at[k]].id)
    {
      hide ToolRows, StubRows;
      var refusals := FlushRejections();
      var answers;
      if aborted {
        answers, at := StubUnanswered(admitted);
      } else {
        answers := RecordResults(admitted);
        at := AllPlaces(|admitted|);
      }
      rows := [Assistant(Ids(proposed))] + (refusals + answers);
      RowsInTurn(Assistant(Ids(proposed)), refusals, answers);
    }

    /** A whole round, from the model's calls to the transcript: whether or not the execution was aborted, each id the
        model sent is named by the assistant row and answered by exactly one row after it; and that one is among the
        refusals, which come first, exactly when the id's proposal is marked as rejected, which it is exactly when it is
        not admissible. */
    method RunRound(policy: Policy, ids: seq<string>, keys: seq<Key>, aborted: bool)
      returns (rows: seq<Row>, refusals: nat)
      requires |ids| == |keys|
      modifies `proposed, `rejected, `wrapped
      ensures |rows| > refusals && rows[0].Assistant? && rejected == [] && |proposed| == |ids|
      ensures AreDistinct(ids) ==> rows[0].ids == ids
      ensures AreDistinct(ids) ==>
                forall k :: 0 <= k < |ids| ==>
                  && RowCount(rows[1..], Tool(ids[k])) == 1
                  && (proposed[k].rejected <==> Tool(ids[k]) in rows[1..1 + refusals])
                  && (!proposed[k].rejected <==> Tool(ids[k]) in rows[1 + refusals..])
                  && (proposed[k].rejected <==> !Admissible(policy, crossRound, keys, k))
    {
      hide RoundRows, Round.Paired, Slots, RowCount, Admissible, Has;
      var admitted := Admit(policy, ids, keys);
      ghost var r := Now();
      refusals := |rejected|;
      ghost var at;
      rows, at := WriteRound(admitted, aborted);
      FirstRows(r, admitted, aborted);
      if AreDistinct(ids) {
        forall k | 0 <= k < |ids|
          ensures RowCount(rows[1..], Tool(ids[k])) == 1
          ensures r.proposed[k].rejected <==> Tool(ids[k]) in rows[1..1 + refusals]
          ensures !r.proposed[k].rejected <==> Tool(ids[k]) in rows[1 + refusals..]
          ensures r.proposed[k].rejected <==> !Has(admitted, k)
        {
          MarkedIfNotAdmitted(r, admitted, k);
          EveryProposalAnsweredOnce(r, admitted, aborted, k);
          OnlyOnce(rows[1..], refusals, Tool(ids[k]));
          assert rows[1..][..refusals] == rows[1..1 + refusals] && rows[1..][refusals..] == rows[1 + refusals..];
        }
        assert Ids(r.proposed) == ids;
      }
    }
  }

  /** The executor answers every admitted call once, in order. */
  method RecordResults(admitted: seq<Call>) returns (rows: seq<Row>)
    ensures rows == ToolRows(admitted)
    ensures |rows| == |admitted| && forall i :: 0 <= i < |rows| ==> rows[i] == Tool(admitted[i].id)
  {
    rows := [];
    for i := 0 to |admitted|
      invariant rows == ToolRows(admitted[..i])
    {
      rows := rows + [Tool(admitted[i].id)];
    }
  }

  lemma NoStubs()
    ensures StubRows([]) == []
  {
  }

  lemma OneMoreStub(calls: seq<Call>, c: Call)
    ensures StubRows(calls + [c]) == StubRows(calls) + if c.id == "" then [] else [Tool(c.id)]
  {
    assert (calls + [c])[..|calls|] == calls;
  }

  method StubUnanswered(admitted: seq<Call>) returns (rows: seq<Row>, ghost at: seq<nat>)
    ensures rows == StubRows(admitted)
    ensures Ascending(at, |admitted|) && |rows| == |at|
    ensures forall i: nat :: i < |admitted| ==> (i in at <==> admitted[i].id != "")
    ensures forall k :: 0 <= k < |at| ==> rows[k] == Tool(admitted[at[k]].id)
  {
    hide StubRows;
    rows, at := [], [];
    NoStubs();
    assert admitted[..0] == [];
    for i := 0 to |admitted|
      invariant rows == StubRows(admitted[..i]) && Ascending(at, i) && |rows| == |at|
      invariant forall j: nat :: j < i ==> (j in at <==> admitted[j].id != "")
      invariant forall k :: 0 <= k < |at| ==> rows[k] == Tool(admitted[at[k]].id)
    {
      OneMoreStub(admitted[..i], admitted[i]);
      assert admitted[..i + 1] == admitted[..i] + [admitted[i]];
      if admitted[i].id != "" {
        rows, at := rows + [Tool(admitted[i].id)], at + [i];
      }
    }
    assert admitted[..|admitted|] == admitted;
  }
}
