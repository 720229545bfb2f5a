/** core/synthesis.py: post-mortems are folded into signals in batches, one attribution for each session of a batch, and
    the signals accumulate what the attributions measured. */
module Synthesis {
  import opened Common
  import opened Snapshots

  datatype Row = Row(id: nat, session: string, attempt: int, createdAt: string)

  datatype Metrics = Metrics(tokens: int, wallMs: int)

  datatype Attribution = Attribution(kind: string, subject: string, metrics: Option<Metrics>)

  datatype Totals = Totals(tokens: int, wallMs: int, count: nat)

  const ZERO := Totals(0, 0, 0)
  const ROUTE := "model_route"

  type Key = (string, string)
  type Signals = map<Key, Totals>

  // ---------------------------------------------------------------------
  // Accumulating
  // ---------------------------------------------------------------------

  function KeyOf(a: Attribution): Key {
    (a.kind, a.subject)
  }

  function TotalsAt(s: Signals, k: Key): Totals {
    if k in s then s[k] else ZERO
  }

  function Plus(t: Totals, m: Option<Metrics>): Totals {
    if m.None? then t else Totals(t.tokens + m.value.tokens, t.wallMs + m.value.wallMs, t.count + 1)
  }

  /** One upsert: the payload is replaced, and carries totals only when it read the old ones and counted something. */
  function Upserted(s: Signals, a: Attribution): Signals {
    var t := Plus(TotalsAt(s, KeyOf(a)), a.metrics);
    s[KeyOf(a) := if (a.metrics.Some? || a.kind == ROUTE) && t.count > 0 then t else ZERO]
  }

  function UpsertedAll(s: Signals, attrs: seq<Attribution>): Signals {
    if attrs == [] then s else Upserted(UpsertedAll(s, attrs[..|attrs| - 1]), attrs[|attrs| - 1])
  }

  /** The attributions whose upsert went through; `up` says of each position in the batch whether it did. */
  function Accepted(attrs: seq<Attribution>, up: nat -> bool, from: nat): seq<Attribution> {
    if attrs == [] then []
    else
      Accepted(attrs[..|attrs| - 1], up, from)
      + if up(from + |attrs| - 1) then [attrs[|attrs| - 1]] else []
  }

  /** What went through is what stands at the places that did, in their order. */
  lemma {:induction false} AcceptedExactly(attrs: seq<Attribution>, up: nat -> bool, from: nat) returns (at: seq<nat>)
    ensures |at| == |Accepted(attrs, up, from)| && forall i, j :: 0 <= i < j < |at| ==> at[i] < at[j]
    ensures forall k :: 0 <= k < |at| ==> at[k] < |attrs| && Accepted(attrs, up, from)[k] == attrs[at[k]]
    ensures forall i: nat :: i < |attrs| ==> (i in at <==> up(from + i))
  {
    hide Accepted;
    at := [];
    if attrs == [] {
      NothingAccepted(up, from);
    } else {
      var n := |attrs| - 1;
      at := AcceptedExactly(attrs[..n], up, from);
      AcceptedPush(attrs[..n], attrs[n], up, from);
      assert attrs == attrs[..n] + [attrs[n]];
      if up(from + n) {
        at := at + [n];
      }
    }
  }

  lemma NothingAccepted(up: nat -> bool, from: nat)
    ensures Accepted([], up, from) == []
  {
  }

  lemma AcceptedPush(attrs: seq<Attribution>, a: Attribution, up: nat -> bool, from: nat)
    ensures Accepted(attrs + [a], up, from) == Accepted(attrs, up, from) + if up(from + |attrs|) then [a] else []
  {
    assert (attrs + [a])[..|attrs|] == attrs;
  }

  function SumFor(attrs: seq<Attribution>, k: Key): Totals {
    if attrs == [] then ZERO
    else
      var last, before := attrs[|attrs| - 1], SumFor(attrs[..|attrs| - 1], k);
      if (last.kind, last.subject) == k && last.metrics.Some? then
        Totals(before.tokens + last.metrics.value.tokens, before.wallMs + last.metrics.value.wallMs, before.count + 1)
      else before
  }

  lemma {:induction false} SumIsCounted(attrs: seq<Attribution>, k: Key)
    ensures SumFor(attrs, k).count > 0 || SumFor(attrs, k) == ZERO
  {
    if attrs != [] { SumIsCounted(attrs[..|attrs| - 1], k); }
  }

  /** A model route's totals are the sums over the attributions that carried metrics, in whatever order they came. */
  lemma {:induction false} RouteTotalsAreSums(attrs: seq<Attribution>, k: Key)
    requires k.0 == ROUTE
    ensures TotalsAt(UpsertedAll(map[], attrs), k) == SumFor(attrs, k)
  {
    if attrs != [] {
      RouteTotalsAreSums(attrs[..|attrs| - 1], k);
      SumIsCounted(attrs, k);
    }
  }

  /** The attributions since the last one for this key that carried no metrics. */
  function SinceForgotten(attrs: seq<Attribution>, k: Key): seq<Attribution> {
    if attrs == [] then []
    else
      var last := attrs[|attrs| - 1];
      if KeyOf(last) == k && last.metrics.None? then [] else SinceForgotten(attrs[..|attrs| - 1], k) + [last]
  }

  /** Any other kind forgets: its totals are the sums since its last attribution without metrics, which wiped the
      rest. */
  lemma {:induction false} OtherTotalsAreSumsSince(attrs: seq<Attribution>, k: Key)
    requires k.0 != ROUTE
    ensures TotalsAt(UpsertedAll(map[], attrs), k) == SumFor(SinceForgotten(attrs, k), k)
  {
    if attrs != [] {
      var rest, last := attrs[..|attrs| - 1], attrs[|attrs| - 1];
      OtherTotalsAreSumsSince(rest, k);
      var since := SinceForgotten(rest, k);
      assert (since + [last])[..|since|] == since;
    }
  }

  lemma {:induction false} UpsertedInTurn(s: Signals, a: seq<Attribution>, b: seq<Attribution>)
    ensures UpsertedAll(s, a + b) == UpsertedAll(UpsertedAll(s, a), b)
  {
    hide Upserted;
    if b == [] {
      assert a + b == a;
    } else {
      UpsertedInTurn(s, a, b[..|b| - 1]);
      assert (a + b)[..|a + b| - 1] == a + b[..|b| - 1];
    }
  }

  lemma {:induction false} AcceptedInTurn(a: seq<Attribution>, b: seq<Attribution>, up: nat -> bool, from: nat)
    ensures Accepted(a + b, up, from) == Accepted(a, up, from) + Accepted(b, up, from + |a|)
  {
    if b == [] {
      assert a + b == a;
    } else {
      AcceptedInTurn(a, b[..|b| - 1], up, from);
      assert (a + b)[..|a + b| - 1] == a + b[..|b| - 1];
      assert |a + b| - 1 == |a| + |b| - 1;
    }
  }

  // ---------------------------------------------------------------------
  // One batch
  // ---------------------------------------------------------------------

  /** The order a group is sorted in. */
  predicate NotLater(a: Row, b: Row) {
    a.attempt < b.attempt || (a.attempt == b.attempt && !Less(b.createdAt, a.createdAt))
  }

  function Group(rows: seq<Row>, session: string): seq<Row> {
    if rows == [] then []
    else Group(rows[..|rows| - 1], session) + if rows[|rows| - 1].session == session then [rows[|rows| - 1]] else []
  }

  /** The sessions of a batch in the order they first appear. */
  function Sessions(rows: seq<Row>): seq<string> {
    if rows == [] then []
    else
      var before := Sessions(rows[..|rows| - 1]);
      if rows[|rows| - 1].session in before then before else before + [rows[|rows| - 1].session]
  }

  /** The row a stable sort puts last: nothing in the group is later, and among equals it is the last one. */
  function Latest(group: seq<Row>): Row
    requires group != []
  {
    if |group| == 1 then group[0]
    else
      var best := Latest(group[..|group| - 1]);
      if NotLater(best, group[|group| - 1]) then group[|group| - 1] else best
  }

  function Ids(rows: seq<Row>): set<nat> {
    set r | r in rows :: r.id
  }

  /** What attributing a row yields, or nothing when it raises. */
  type Attribute = Row -> Option<seq<Attribution>>

  /** The latest rows of the first sessions, those whose attribution does not raise. */
  function AttributedOf(rows: seq<Row>, sessions: seq<string>, attribute: Attribute): seq<Row> {
    if sessions == [] then []
    else
      var group := Group(rows, sessions[|sessions| - 1]);
      AttributedOf(rows, sessions[..|sessions| - 1], attribute)
      + if group != [] && attribute(Latest(group)).Some? then [Latest(group)] else []
  }

  function ProcessedOf(rows: seq<Row>, sessions: seq<string>, attribute: Attribute): set<nat> {
    if sessions == [] then {}
    else
      var group := Group(rows, sessions[|sessions| - 1]);
      ProcessedOf(rows, sessions[..|sessions| - 1], attribute)
      + if group != [] && attribute(Latest(group)).Some? then Ids(group) else {}
  }

  /** How many rows the groups whose attribution went through have together. */
  function HandledOf(rows: seq<Row>, sessions: seq<string>, attribute: Attribute): nat {
    if sessions == [] then 0
    else
      var group := Group(rows, sessions[|sessions| - 1]);
      HandledOf(rows, sessions[..|sessions| - 1], attribute)
      + if group != [] && attribute(Latest(group)).Some? then |group| else 0
  }

  function AllOf(attributed: seq<Row>, attribute: Attribute): seq<Attribution> {
    if attributed == [] then []
    else
      var last := attribute(attributed[|attributed| - 1]);
      AllOf(attributed[..|attributed| - 1], attribute) + if last.Some? then last.value else []
  }

  lemma {:induction false} LatestIsLast(group: seq<Row>, r: Row)
    requires group != [] && r in group
    ensures Latest(group) in group && NotLater(r, Latest(group))
  {
    if |group| == 1 {
      LessTotal(r.createdAt, r.createdAt);
    } else {
      var rest, last := group[..|group| - 1], group[|group| - 1];
      assert group == rest + [last];
      LatestIsLast(rest, if r in rest then r else rest[0]);
      LessTotal(last.createdAt, last.createdAt);
      NotLaterOrder(r, Latest(rest), last);
    }
  }

  lemma NotLaterOrder(a: Row, b: Row, c: Row)
    ensures NotLater(a, b) && NotLater(b, c) ==> NotLater(a, c)
    ensures NotLater(b, c) || NotLater(c, b)
  {
    LessTotal(a.createdAt, b.createdAt);
    LessTotal(b.createdAt, c.createdAt);
    LessTotal(a.createdAt, c.createdAt);
    if Less(c.createdAt, a.createdAt) && a.createdAt != b.createdAt && b.createdAt != c.createdAt {
      if Less(a.createdAt, b.createdAt) {
        LessTransitive(c.createdAt, a.createdAt, b.createdAt);
      }
    }
  }

  /** A group sorted by attempt and time, stably. */
  function InsertRow(s: seq<Row>, r: Row): seq<Row> {
    if s == [] || NotLater(s[|s| - 1], r) then s + [r] else InsertRow(s[..|s| - 1], r) + [s[|s| - 1]]
  }

  lemma {:induction false} InsertRowLast(s: seq<Row>, r: Row)
    ensures var t := InsertRow(s, r);
            && |t| == |s| + 1 && t[|t| - 1] == (if s == [] || NotLater(s[|s| - 1], r) then r else s[|s| - 1])
            && forall x :: x in t <==> x == r || x in s
  {
    if s != [] {
      assert s == s[..|s| - 1] + [s[|s| - 1]];
      InsertRowLast(s[..|s| - 1], r);
    }
  }

  method SortGroup(group: seq<Row>) returns (sorted: seq<Row>)
    requires group != []
    ensures |sorted| == |group| && sorted[|sorted| - 1] == Latest(group)
    ensures forall r :: r in sorted <==> r in group
  {
    hide NotLater, InsertRow;
    sorted := [group[0]];
    assert group[..1] == [group[0]];
    for i := 1 to |group|
      invariant |sorted| == i && sorted[i - 1] == Latest(group[..i])
      invariant forall r :: r in sorted <==> r in group[..i]
    {
      assert group[..i + 1][..i] == group[..i] && group[..i + 1] == group[..i] + [group[i]];
      InsertRowLast(sorted, group[i]);
      sorted := InsertRow(sorted, group[i]);
    }
    assert group[..|group|] == group;
  }

  lemma OneMoreRow(rows: seq<Row>, i: nat, s: string)
    requires i < |rows|
    ensures Group(rows[..i + 1], s) == Group(rows[..i], s) + if rows[i].session == s then [rows[i]] else []
    ensures Sessions(rows[..i + 1]) ==
            Sessions(rows[..i]) + if rows[i].session in Sessions(rows[..i]) then [] else [rows[i].session]
  {
    assert rows[..i + 1][..i] == rows[..i];
  }

  method GroupRows(rows: seq<Row>) returns (order: seq<string>, groups: map<string, seq<Row>>)
    ensures order == Sessions(rows) && (forall s :: s in groups <==> s in order)
    ensures forall s :: s in groups ==> groups[s] == Group(rows, s) && groups[s] != []
    ensures forall s :: s !in groups ==> Group(rows, s) == []
  {
    hide Group, Sessions;
    order, groups := [], map[];
    NothingGrouped();
    for i := 0 to |rows|
      invariant order == Sessions(rows[..i]) && forall s :: s in groups <==> s in order
      invariant forall s :: s in groups ==> groups[s] == Group(rows[..i], s) && groups[s] != []
      invariant forall s :: s !in groups ==> Group(rows[..i], s) == []
    {
      var row := rows[i];
      forall s
        ensures Group(rows[..i + 1], s) == Group(rows[..i], s) + if row.session == s then [row] else []
      {
        OneMoreRow(rows, i, s);
      }
      OneMoreRow(rows, i, row.session);
      if row.session in groups {
        groups := groups[row.session := groups[row.session] + [row]];
      } else {
        order := order + [row.session];
        groups := groups[row.session := [row]];
      }
    }
    assert rows[..|rows|] == rows;
  }

  lemma NothingGrouped()
    ensures Sessions([]) == [] && forall s :: Group([], s) == []
  {
  }

  datatype Stats = Stats(processed: nat, attributions: nat, superseded: nat)

  class SignalStore {
    var signals: Signals
    var marked: set<nat>

    constructor ()
      ensures signals == map[] && marked == {}
    {
      signals, marked := map[], {};
    }

    /** The read, merge and write of one signal. */
    method Upsert(a: Attribution)
      modifies `signals
      ensures signals == Upserted(old(signals), a)
    {
      var t := ZERO;
      if a.metrics.Some? || a.kind == ROUTE {
        t := if KeyOf(a) in signals then signals[KeyOf(a)] else ZERO;
        if a.metrics.Some? {
          t := Totals(t.tokens + a.metrics.value.tokens, t.wallMs + a.metrics.value.wallMs, t.count + 1);
        }
      }
      signals := signals[KeyOf(a) := if t.count > 0 then t else ZERO];
    }

    /** apply_attributions: each upsert on its own, a failing one skipped. */
    method ApplyAttributions(attrs: seq<Attribution>, up: nat -> bool, from: nat) returns (n: nat)
      modifies `signals
      ensures signals == UpsertedAll(old(signals), Accepted(attrs, up, from))
      ensures n == |Accepted(attrs, up, from)|
    {
      hide Upserted;
      n := 0;
      for i := 0 to |attrs|
        invariant signals == UpsertedAll(old(signals), Accepted(attrs[..i], up, from))
        invariant n == |Accepted(attrs[..i], up, from)|
      {
        assert attrs[..i + 1][..i] == attrs[..i];
        ghost var done := Accepted(attrs[..i], up, from);
        assert (done + [attrs[i]])[..|done|] == done && done + [] == done;
        if up(from + i) {
          Upsert(attrs[i]);
          n := n + 1;
        }
      }
      assert attrs[..|attrs|] == attrs;
    }

    /** run, over the batch it was given. */
    method Run(rows: seq<Row>, attribute: Attribute, up: nat -> bool) returns (stats: Stats)
      modifies this
      ensures var done := AttributedOf(rows, Sessions(rows), attribute);
              && signals == UpsertedAll(old(signals), Accepted(AllOf(done, attribute), up, 0))
              && stats.processed == |done| && stats.attributions == |Accepted(AllOf(done, attribute), up, 0)|
      ensures forall log ::
                var l := Kept(Ledger(old(marked), log, old(signals)), Batch(rows, attribute, up));
                l.marked == marked && l.signals == signals
      ensures stats.processed + stats.superseded == HandledOf(rows, Sessions(rows), attribute)
      ensures marked == old(marked) + ProcessedOf(rows, Sessions(rows), attribute)
    {
      hide Latest, Upserted, UpsertedAll, Accepted, AllOf, Group, Sessions, AttributedOf, ProcessedOf, HandledOf;
      NothingDone(rows, attribute, up, signals);
      stats := Stats(0, 0, 0);
      var order, groups := GroupRows(rows);
      var processed: set<nat> := {};
      ghost var done: seq<Row> := [];
      var tried := 0;
      for i := 0 to |order|
        invariant done == AttributedOf(rows, order[..i], attribute)
        invariant processed == ProcessedOf(rows, order[..i], attribute)
        invariant signals == UpsertedAll(old(signals), Accepted(AllOf(done, attribute), up, 0)) && marked == old(marked)
        invariant tried == |AllOf(done, attribute)|
        invariant stats.processed + stats.superseded == HandledOf(rows, order[..i], attribute)
        invariant stats.processed == |done| && stats.attributions == |Accepted(AllOf(done, attribute), up, 0)|
      {
        OneMoreSession(rows, order, i, attribute);
        var sorted := SortGroup(groups[order[i]]);
        var latest := sorted[|sorted| - 1];
        var attrs := attribute(latest);
        if attrs.None? {
          continue;
        }
        ghost var before := AllOf(done, attribute);
        ghost var start := Accepted(before, up, 0);
        var applied := ApplyAttributions(attrs.value, up, tried);
        UpsertedInTurn(old(signals), start, Accepted(attrs.value, up, tried));
        AcceptedInTurn(before, attrs.value, up, 0);
        OneMoreAttributed(done, latest, attribute);
        done := done + [latest];
        tried := tried + |attrs.value|;
        processed := processed + (set r | r in sorted :: r.id);
        assert (set r | r in sorted :: r.id) == Ids(groups[order[i]]);
        stats := Stats(stats.processed + 1, stats.attributions + applied, stats.superseded + |sorted| - 1);
      }
      assert order[..|order|] == order;
      marked := marked + processed;
    }
  }

  lemma NothingDone(rows: seq<Row>, attribute: Attribute, up: nat -> bool, s: Signals)
    ensures AttributedOf(rows, [], attribute) == [] && ProcessedOf(rows, [], attribute) == {}
    ensures HandledOf(rows, [], attribute) == 0
    ensures AllOf([], attribute) == [] && Accepted([], up, 0) == [] && UpsertedAll(s, []) == s
  {
  }

  lemma OneMoreSession(rows: seq<Row>, sessions: seq<string>, i: nat, attribute: Attribute)
    requires i < |sessions| && Group(rows, sessions[i]) != []
    ensures var group := Group(rows, sessions[i]);
            && AttributedOf(rows, sessions[..i + 1], attribute) == AttributedOf(rows, sessions[..i], attribute)
               + (if attribute(Latest(group)).Some? then [Latest(group)] else [])
            && ProcessedOf(rows, sessions[..i + 1], attribute) == ProcessedOf(rows, sessions[..i], attribute)
               + (if attribute(Latest(group)).Some? then Ids(group) else {})
            && HandledOf(rows, sessions[..i + 1], attribute) == HandledOf(rows, sessions[..i], attribute)
               + (if attribute(Latest(group)).Some? then |group| else 0)
  {
    hide Latest, Group;
    assert sessions[..i + 1][..i] == sessions[..i];
  }

  lemma OneMoreAttributed(done: seq<Row>, r: Row, attribute: Attribute)
    requires attribute(r).Some?
    ensures AllOf(done + [r], attribute) == AllOf(done, attribute) + attribute(r).value
  {
    assert (done + [r])[..|done|] == done;
  }

  // ---------------------------------------------------------------------
  // What a batch and a history of batches promise
  // ---------------------------------------------------------------------

  lemma {:induction false} InGroup(rows: seq<Row>, session: string, r: Row)
    ensures r in Group(rows, session) <==> r in rows && r.session == session
  {
    if rows != [] {
      assert rows == rows[..|rows| - 1] + [rows[|rows| - 1]];
      InGroup(rows[..|rows| - 1], session, r);
    }
  }

  lemma {:induction false} SessionsOnce(rows: seq<Row>)
    ensures forall i, j :: 0 <= i < j < |Sessions(rows)| ==> Sessions(rows)[i] != Sessions(rows)[j]
    ensures forall r :: r in rows ==> r.session in Sessions(rows)
    ensures forall s :: s in Sessions(rows) ==> exists r :: r in rows && r.session == s
  {
    if rows != [] {
      var rest, last := rows[..|rows| - 1], rows[|rows| - 1];
      SessionsOnce(rest);
      assert rows == rest + [last];
    }
  }

  ghost predicate NoIdTwice(rows: seq<Row>) {
    forall i, j :: 0 <= i < j < |rows| ==> rows[i].id != rows[j].id
  }

  ghost predicate DistinctIds(rows: seq<Row>) {
    forall r, q :: r in rows && q in rows && r.id == q.id ==> r == q
  }

  /** A row is attributed exactly when its attribution works and no row of its session in the batch is later. */
  lemma {:induction false} AttributedExactly(rows: seq<Row>, sessions: seq<string>, attribute: Attribute, r: Row)
    ensures r in AttributedOf(rows, sessions, attribute) <==>
            && r in rows && r.session in sessions && attribute(r).Some?
            && Group(rows, r.session) != [] && r == Latest(Group(rows, r.session))
  {
    hide Latest;
    if sessions != [] {
      var rest, s := sessions[..|sessions| - 1], sessions[|sessions| - 1];
      assert sessions == rest + [s];
      AttributedExactly(rows, rest, attribute, r);
      var group := Group(rows, s);
      if group != [] {
        LatestIsLast(group, group[0]);
        InGroup(rows, s, Latest(group));
      }
      InGroup(rows, r.session, r);
    } else if r in rows {
      InGroup(rows, r.session, r);
    }
  }

  /** Row i is the one its session's group is sorted up to: no row of that session has a higher attempt, or the same
      attempt and a later time, or the same of both and a later place in the batch. */
  ghost predicate ComesLast(rows: seq<Row>, i: nat)
    requires i < |rows|
  {
    forall j :: 0 <= j < |rows| && rows[j].session == rows[i].session ==>
      || rows[j].attempt < rows[i].attempt
      || (rows[j].attempt == rows[i].attempt
          && (Less(rows[j].createdAt, rows[i].createdAt) || (rows[j].createdAt == rows[i].createdAt && j <= i)))
  }

  lemma {:induction false} LatestComesLast(rows: seq<Row>, session: string) returns (i: nat)
    requires Group(rows, session) != []
    ensures i < |rows| && rows[i] == Latest(Group(rows, session)) && rows[i].session == session && ComesLast(rows, i)
  {
    var front, last := rows[..|rows| - 1], rows[|rows| - 1];
    if last.session != session {
      i := LatestComesLast(front, session);
      assert Group(rows, session) == Group(front, session);
    } else {
      var before := Group(front, session);
      assert Group(rows, session) == before + [last];
      if before == [] {
        i := |rows| - 1;
        NobodyBefore(front, session);
      } else {
        i := LatestComesLast(front, session);
        assert (before + [last])[..|before|] == before;
        LastComesLast(rows, i);
        if NotLater(rows[i], last) {
          i := |rows| - 1;
        }
      }
    }
  }

  lemma NobodyBefore(rows: seq<Row>, session: string)
    requires Group(rows, session) == []
    ensures forall j :: 0 <= j < |rows| ==> rows[j].session != session
  {
    forall j | 0 <= j < |rows|
      ensures rows[j].session != session
    {
      InGroup(rows, session, rows[j]);
    }
  }

  /** One more row of the session: it comes last if it is not earlier than the one that did. */
  lemma LastComesLast(rows: seq<Row>, i: nat)
    requires rows != [] && i < |rows| - 1 && ComesLast(rows[..|rows| - 1], i)
    requires rows[|rows| - 1].session == rows[i].session
    ensures ComesLast(rows, if NotLater(rows[i], rows[|rows| - 1]) then |rows| - 1 else i)
  {
    var last := rows[|rows| - 1];
    LessTotal(rows[i].createdAt, last.createdAt);
    forall j | 0 <= j < |rows| - 1 && rows[j].session == last.session
      ensures Less(rows[j].createdAt, rows[i].createdAt) && Less(rows[i].createdAt, last.createdAt) ==>
              Less(rows[j].createdAt, last.createdAt)
      ensures rows[..|rows| - 1][j] == rows[j]
    {
      if Less(rows[j].createdAt, rows[i].createdAt) && Less(rows[i].createdAt, last.createdAt) {
        LessTransitive(rows[j].createdAt, rows[i].createdAt, last.createdAt);
      }
    }
  }

  lemma OneComesLast(rows: seq<Row>, i: nat, j: nat)
    requires i < |rows| && j < |rows| && rows[i].session == rows[j].session && ComesLast(rows, i) && ComesLast(rows, j)
    ensures i == j
  {
    LessTotal(rows[i].createdAt, rows[j].createdAt);
    LessTotal(rows[j].createdAt, rows[i].createdAt);
  }

  /** A batch attributes exactly the rows that come last in their session and whose attribution does not raise. */
  lemma BatchAttributesExactly(b: Batch, r: Row)
    ensures r in b.Attributed() <==>
            b.attribute(r).Some? && exists i :: 0 <= i < |b.rows| && b.rows[i] == r && ComesLast(b.rows, i)
  {
    hide Latest, Group, ComesLast, Sessions;
    AttributedExactly(b.rows, Sessions(b.rows), b.attribute, r);
    SessionsOnce(b.rows);
    InGroup(b.rows, r.session, r);
    if Group(b.rows, r.session) != [] {
      var l := LatestComesLast(b.rows, r.session);
      if i :| 0 <= i < |b.rows| && b.rows[i] == r && ComesLast(b.rows, i) {
        OneComesLast(b.rows, i, l);
      }
    } else {
      NobodyBefore(b.rows, r.session);
    }
  }

  /** A group is marked whole or not at all: marked exactly when the attribution of its latest row did not raise. */
  lemma {:induction false} MarkedExactly(rows: seq<Row>, sessions: seq<string>, attribute: Attribute, r: Row)
    requires DistinctIds(rows) && r in rows
    ensures Group(rows, r.session) != []
    ensures r.id in ProcessedOf(rows, sessions, attribute) <==>
            r.session in sessions && attribute(Latest(Group(rows, r.session))).Some?
  {
    hide Latest;
    InGroup(rows, r.session, r);
    if sessions != [] {
      var rest, s := sessions[..|sessions| - 1], sessions[|sessions| - 1];
      assert sessions == rest + [s];
      MarkedExactly(rows, rest, attribute, r);
      var group := Group(rows, s);
      forall q | q in group && q.id == r.id
        ensures q == r && r.session == s
      {
        InGroup(rows, s, q);
      }
    }
  }

  lemma {:induction false} AttributedOnce(rows: seq<Row>, sessions: seq<string>, attribute: Attribute)
    requires DistinctIds(rows)
    requires forall i, j :: 0 <= i < j < |sessions| ==> sessions[i] != sessions[j]
    ensures NoIdTwice(AttributedOf(rows, sessions, attribute))
  {
    hide Latest, Group;
    if sessions != [] {
      var rest, s := sessions[..|sessions| - 1], sessions[|sessions| - 1];
      AttributedOnce(rows, rest, attribute);
      var before := AttributedOf(rows, rest, attribute);
      var done := AttributedOf(rows, sessions, attribute);
      if |done| > |before| {
        var last := done[|done| - 1];
        LatestInGroup(rows, s);
        assert last == Latest(Group(rows, s)) && s !in rest;
        forall i | 0 <= i < |before|
          ensures before[i].id != last.id
        {
          assert before[i] in before;
          AttributedExactly(rows, rest, attribute, before[i]);
        }
        assert done == before + [last];
      } else {
        assert done == before;
      }
    }
  }

  lemma LatestInGroup(rows: seq<Row>, s: string)
    requires Group(rows, s) != []
    ensures Latest(Group(rows, s)) in rows && Latest(Group(rows, s)).session == s
  {
    LatestIsLast(Group(rows, s), Group(rows, s)[0]);
    InGroup(rows, s, Latest(Group(rows, s)));
  }

  /** What a batch lists, what attributing its rows yields, and which of its upserts go through. */
  datatype Batch = Batch(rows: seq<Row>, attribute: Attribute, up: nat -> bool)
  {
    function Attributed(): seq<Row> { AttributedOf(rows, Sessions(rows), attribute) }

    function Applied(): seq<Attribution> { Accepted(AllOf(Attributed(), attribute), up, 0) }
  }

  datatype Ledger = Ledger(marked: set<nat>, attributed: seq<Row>, signals: Signals)

  function Kept(l: Ledger, b: Batch): Ledger {
    Ledger(l.marked + ProcessedOf(b.rows, Sessions(b.rows), b.attribute),
           l.attributed + b.Attributed(), UpsertedAll(l.signals, b.Applied()))
  }

  function KeptAll(batches: seq<Batch>): Ledger {
    if batches == [] then Ledger({}, [], map[]) else Kept(KeptAll(batches[..|batches| - 1]), batches[|batches| - 1])
  }

  /** Each batch lists rows that are not marked yet, each of them once. */
  ghost predicate Listed(batches: seq<Batch>) {
    forall k :: 0 <= k < |batches| ==>
      DistinctIds(batches[k].rows) && forall r :: r in batches[k].rows ==> r.id !in KeptAll(batches[..k]).marked
  }

  ghost predicate NeverTwice(l: Ledger) {
    NoIdTwice(l.attributed) && forall r :: r in l.attributed ==> r.id in l.marked
  }

  lemma KeptNeverTwice(l: Ledger, b: Batch)
    requires NeverTwice(l) && DistinctIds(b.rows) && forall r :: r in b.rows ==> r.id !in l.marked
    ensures NeverTwice(Kept(l, b))
  {
    hide Latest, Group, Sessions, ProcessedOf, AttributedOf, DistinctIds;
    var sessions := Sessions(b.rows);
    var done := AttributedOf(b.rows, sessions, b.attribute);
    SessionsOnce(b.rows);
    AttributedOnce(b.rows, sessions, b.attribute);
    forall r | r in done
      ensures r in b.rows && r.id in ProcessedOf(b.rows, sessions, b.attribute)
    {
      AttributedExactly(b.rows, sessions, b.attribute, r);
      MarkedExactly(b.rows, sessions, b.attribute, r);
    }
    var k := Kept(l, b);
    assert k.attributed == l.attributed + done;
    forall i, j | 0 <= i < j < |k.attributed|
      ensures k.attributed[i].id != k.attributed[j].id
    {
      var n := |l.attributed|;
      if i < n <= j {
        assert l.attributed[i] in l.attributed && done[j - n] in done;
      } else if n <= i {
        assert k.attributed[i] == done[i - n] && k.attributed[j] == done[j - n];
      }
    }
  }

  /** Over any sequence of batches no post-mortem is attributed twice, and every attributed one is marked. */
  lemma {:induction false} ExactlyOnce(batches: seq<Batch>)
    requires Listed(batches)
    ensures NeverTwice(KeptAll(batches))
  {
    hide Kept, NeverTwice, DistinctIds;
    if batches != [] {
      var rest, last := batches[..|batches| - 1], batches[|batches| - 1];
      forall k | 0 <= k < |rest|
        ensures DistinctIds(rest[k].rows) && forall r :: r in rest[k].rows ==> r.id !in KeptAll(rest[..k]).marked
      {
        assert rest[..k] == batches[..k];
      }
      ExactlyOnce(rest);
      KeptNeverTwice(KeptAll(rest), last);
    } else {
      NothingTwice();
    }
  }

  lemma NothingTwice()
    ensures NeverTwice(Ledger({}, [], map[]))
  {
  }

  /** The batch attributes this session: it lists rows of it, and the latest one's attribution goes through. */
  predicate Wins(b: Batch, session: string) {
    WinsIn(b.rows, b.attribute, session)
  }

  predicate WinsIn(rows: seq<Row>, attribute: Attribute, session: string) {
    Group(rows, session) != [] && attribute(Latest(Group(rows, session))).Some?
  }

  function WinningBatches(batches: seq<Batch>, session: string): nat {
    if batches == [] then 0
    else WinningBatches(batches[..|batches| - 1], session) + if Wins(batches[|batches| - 1], session) then 1 else 0
  }

  lemma {:induction false} GroupInTurn(a: seq<Row>, b: seq<Row>, session: string)
    ensures Group(a + b, session) == Group(a, session) + Group(b, session)
  {
    if b == [] {
      assert a + b == a;
    } else {
      GroupInTurn(a, b[..|b| - 1], session);
      assert (a + b)[..|a + b| - 1] == a + b[..|b| - 1];
    }
  }

  lemma GroupOfOne(r: Row, session: string)
    ensures Group([r], session) == if r.session == session then [r] else []
    ensures Group([], session) == []
  {
    assert [r][..0] == [];
  }

  lemma {:induction false} AttributedOfSession(rows: seq<Row>, sessions: seq<string>, attribute: Attribute,
      session: string)
    requires forall i, j :: 0 <= i < j < |sessions| ==> sessions[i] != sessions[j]
    ensures |Group(AttributedOf(rows, sessions, attribute), session)|
            == if session in sessions && WinsIn(rows, attribute, session) then 1 else 0
  {
    hide Latest, Group;
    if sessions == [] {
      NothingGrouped();
    } else {
      var rest, s := sessions[..|sessions| - 1], sessions[|sessions| - 1];
      AttributedOfSession(rows, rest, attribute, session);
      assert sessions == rest + [s] && s !in rest;
      var done := AttributedOf(rows, rest, attribute);
      if WinsIn(rows, attribute, s) {
        LatestInGroup(rows, s);
        var r := Latest(Group(rows, s));
        GroupInTurn(done, [r], session);
        GroupOfOne(r, session);
      } else {
        assert done + [] == done;
      }
    }
  }

  lemma BatchAttributesSession(b: Batch, session: string)
    ensures |Group(AttributedOf(b.rows, Sessions(b.rows), b.attribute), session)| == if Wins(b, session) then 1 else 0
  {
    hide Latest, AttributedOf;
    SessionsOnce(b.rows);
    AttributedOfSession(b.rows, Sessions(b.rows), b.attribute, session);
    if Group(b.rows, session) != [] {
      LatestInGroup(b.rows, session);
    }
  }

  /** Over any sequence of batches a session is attributed once for each batch that lists rows of it whose latest goes
      through; so at most once exactly when at most one batch does. */
  lemma {:induction false} SessionAttributedPerWinningBatch(batches: seq<Batch>, session: string)
    ensures |Group(KeptAll(batches).attributed, session)| == WinningBatches(batches, session)
  {
    hide Wins, AttributedOf, ProcessedOf, Sessions, Group;
    if batches == [] {
      NothingGrouped();
    } else {
      var rest, last := batches[..|batches| - 1], batches[|batches| - 1];
      SessionAttributedPerWinningBatch(rest, session);
      BatchAttributesSession(last, session);
      GroupInTurn(KeptAll(rest).attributed, AttributedOf(last.rows, Sessions(last.rows), last.attribute), session);
    }
  }

  /** Every upsert that went through, batch by batch. */
  function AppliedInAll(batches: seq<Batch>): seq<Attribution> {
    if batches == [] then [] else AppliedInAll(batches[..|batches| - 1]) + batches[|batches| - 1].Applied()
  }

  lemma {:induction false} SignalsAreOfAllBatches(batches: seq<Batch>)
    ensures KeptAll(batches).signals == UpsertedAll(map[], AppliedInAll(batches))
  {
    hide Upserted, UpsertedAll, Batch.Applied;
    if batches == [] {
      NothingUpserted();
    } else {
      var rest, last := batches[..|batches| - 1], batches[|batches| - 1];
      SignalsAreOfAllBatches(rest);
      UpsertedInTurn(map[], AppliedInAll(rest), last.Applied());
    }
  }

  lemma NothingUpserted()
    ensures UpsertedAll(map[], []) == map[]
  {
  }

  /** After any sequence of batches a model route's totals are the sums over what went through in all of them, and
      any other kind's the sums since its last attribution without metrics. */
  lemma TotalsOverAllBatches(batches: seq<Batch>, k: Key)
    ensures TotalsAt(KeptAll(batches).signals, k) ==
            SumFor(if k.0 == ROUTE then AppliedInAll(batches) else SinceForgotten(AppliedInAll(batches), k), k)
  {
    SignalsAreOfAllBatches(batches);
    if k.0 == ROUTE {
      RouteTotalsAreSums(AppliedInAll(batches), k);
    } else {
      OtherTotalsAreSumsSince(AppliedInAll(batches), k);
    }
  }

  /** Once for a row is not once for a session: two batches that split a session's attempts attribute it twice. */
  lemma SplitSessionIsAttributedTwice(a: Row, b: Row, attribute: Attribute, up: nat -> bool)
    requires a.id != b.id && a.session == b.session && attribute(a).Some? && attribute(b).Some?
    ensures Listed([Batch([a], attribute, up), Batch([b], attribute, up)])
    ensures KeptAll([Batch([a], attribute, up), Batch([b], attribute, up)]).attributed == [a, b]
  {
    hide Group, Latest, Sessions, AttributedOf, ProcessedOf, Batch.Applied;
    var one, both := [Batch([a], attribute, up)], [Batch([a], attribute, up), Batch([b], attribute, up)];
    OneRowBatch(a, attribute);
    OneRowBatch(b, attribute);
    assert both[..1] == one && one[..0] == [] && both[..0] == [];
    assert KeptAll(one).marked == {a.id} && KeptAll(one).attributed == [a];
  }

  lemma OneRowBatch(r: Row, attribute: Attribute)
    requires attribute(r).Some?
    ensures Sessions([r]) == [r.session]
    ensures AttributedOf([r], [r.session], attribute) == [r] && ProcessedOf([r], [r.session], attribute) == {r.id}
  {
    assert [r][..0] == [];
    assert Group([r], r.session) == [r];
    assert [r.session][..0] == [];
  }
}
