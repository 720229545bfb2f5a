/** core/reflect.py, _newest_workspace_files: a walk that reads the most recently changed folders first and gives up
    after a budget of entries. */
module WorkspaceScan {
  import opened Common
  import opened Snapshots

  // ---------------------------------------------------------------------
  // A workspace, and what a full walk of it finds
  // ---------------------------------------------------------------------

  /** What the directory entry turns out to be; `Unseen` stands for links to folders, devices and entries that cannot
      be examined. */
  datatype Kind = Plain(statOk: bool) | Folder(statOk: bool, inside: seq<Item>) | Unseen

  /** An entry of a folder; a folder that cannot be read lists nothing. */
  datatype Item = Item(name: string, mtime: int, kind: Kind)

  datatype Found = Found(mtime: int, path: string)

  predicate Hidden(name: string) {
    name != "" && name[0] == '.'
  }

  function At(base: string, name: string): string {
    base + "/" + name
  }

  /** The non-hidden entries a full walk would read. */
  function Count(entries: seq<Item>): nat {
    if entries == [] then 0 else CountItem(entries[0]) + Count(entries[1..])
  }

  function CountItem(i: Item): nat {
    if Hidden(i.name) then 0
    else 1 + if i.kind.Folder? && i.kind.statOk then Count(i.kind.inside) else 0
  }

  /** The non-hidden files a full walk would find. */
  function Files(base: string, entries: seq<Item>): multiset<Found>
    decreases entries
  {
    if entries == [] then multiset{} else FilesOf(base, entries[0]) + Files(base, entries[1..])
  }

  function FilesOf(base: string, i: Item): multiset<Found>
    decreases i
  {
    if Hidden(i.name) then multiset{}
    else
      match i.kind
      case Plain(ok) => if ok then multiset{Found(i.mtime, At(base, i.name))} else multiset{}
      case Folder(ok, inside) => if ok then Files(At(base, i.name), inside) else multiset{}
      case Unseen => multiset{}
  }

  /** The walk comes to this file by these steps: through folders it can read, and past nothing hidden. */
  ghost predicate ComesTo(base: string, entries: seq<Item>, steps: seq<nat>, f: Found)
    decreases steps
  {
    && steps != [] && steps[0] < |entries|
    && var e := entries[steps[0]];
       && (e.name == "" || e.name[0] != '.')
       && if |steps| == 1 then e.kind == Plain(true) && f == Found(e.mtime, base + "/" + e.name)
          else e.kind.Folder? && e.kind.statOk && ComesTo(base + "/" + e.name, e.kind.inside, steps[1..], f)
  }

  /** A full walk finds exactly the files it can come to. */
  lemma {:induction false} FoundIfComeTo(base: string, entries: seq<Item>, steps: seq<nat>, f: Found)
    requires ComesTo(base, entries, steps, f)
    ensures f in Files(base, entries)
    decreases |steps|, |entries|
  {
    if steps[0] > 0 {
      var rest := [steps[0] - 1] + steps[1..];
      assert rest[1..] == steps[1..];
      LaterEntries(base, entries, steps, f);
      FoundIfComeTo(base, entries[1..], rest, f);
    } else if |steps| > 1 {
      FoundIfComeTo(At(base, entries[0].name), entries[0].kind.inside, steps[1..], f);
    }
  }

  lemma LaterEntries(base: string, entries: seq<Item>, steps: seq<nat>, f: Found)
    requires steps != [] && steps[0] > 0
    ensures ComesTo(base, entries, steps, f) ==> ComesTo(base, entries[1..], [steps[0] - 1] + steps[1..], f)
  {
    assert ([steps[0] - 1] + steps[1..])[1..] == steps[1..];
  }

  lemma {:induction false} ComesToWhatIsFound(base: string, entries: seq<Item>, f: Found) returns (steps: seq<nat>)
    requires f in Files(base, entries)
    ensures ComesTo(base, entries, steps, f)
    decreases entries
  {
    var e := entries[0];
    if f in FilesOf(base, e) {
      match e.kind {
        case Plain(_) => steps := [0];
        case Folder(_, inside) =>
          var below := ComesToWhatIsFound(At(base, e.name), inside, f);
          steps := [0] + below;
          assert steps[1..] == below;
        case Unseen =>
      }
    } else {
      var rest := ComesToWhatIsFound(base, entries[1..], f);
      steps := [rest[0] + 1] + rest[1..];
      assert steps[1..] == rest[1..];
    }
  }

  /** These steps lead to an entry that is not hidden, through folders that can be read and are not hidden either. */
  ghost predicate LeadsTo(entries: seq<Item>, steps: seq<nat>): (leads: bool)
    ensures leads ==> steps != []
    decreases steps
  {
    && steps != [] && steps[0] < |entries|
    && var e := entries[steps[0]];
       && (e.name == "" || e.name[0] != '.')
       && (|steps| > 1 ==> e.kind.Folder? && e.kind.statOk && LeadsTo(e.kind.inside, steps[1..]))
  }

  ghost predicate NoneTwice(all: seq<seq<nat>>) {
    forall i, j :: 0 <= i < j < |all| ==> all[i] != all[j]
  }

  /** What is counted against the budget are those entries, each once. */
  lemma {:induction false} CountedExactly(entries: seq<Item>) returns (all: seq<seq<nat>>)
    ensures |all| == Count(entries) && NoneTwice(all)
    ensures forall steps :: steps in all <==> LeadsTo(entries, steps)
    decreases entries
  {
    all := [];
    if entries != [] {
      var e := entries[0];
      var rest := CountedExactly(entries[1..]);
      var later := seq(|rest|, i requires 0 <= i < |rest| => Shifted(rest[i]));
      LaterSteps(entries, rest, later);
      if Hidden(e.name) {
        all := later;
        HiddenFirst(entries);
      } else {
        var inside: seq<seq<nat>> := [];
        if e.kind.Folder? && e.kind.statOk {
          inside := CountedExactly(e.kind.inside);
        }
        var below := seq(|inside|, i requires 0 <= i < |inside| => [0] + inside[i]);
        BelowFirst(entries, inside, below);
        all := [[0]] + below + later;
        AllOfThem(entries, below, later, all);
      }
    }
  }

  function Shifted(steps: seq<nat>): seq<nat> {
    if steps == [] then [] else [steps[0] + 1] + steps[1..]
  }

  lemma ShiftedApart(a: seq<nat>, b: seq<nat>)
    ensures Shifted(a) == Shifted(b) <==> a == b
  {
    if a != [] && b != [] {
      assert a == [a[0]] + a[1..] && b == [b[0]] + b[1..];
      assert Shifted(a)[1..] == a[1..] && Shifted(b)[1..] == b[1..];
    }
  }

  lemma LaterSteps(entries: seq<Item>, rest: seq<seq<nat>>, later: seq<seq<nat>>)
    requires entries != [] && NoneTwice(rest) && forall steps :: steps in rest <==> LeadsTo(entries[1..], steps)
    requires |later| == |rest| && forall i :: 0 <= i < |rest| ==> later[i] == Shifted(rest[i])
    ensures NoneTwice(later)
    ensures forall steps :: steps in later <==> LeadsTo(entries, steps) && steps[0] > 0
  {
    hide LeadsTo, Shifted;
    forall i, j | 0 <= i < j < |later|
      ensures later[i] != later[j]
    {
      ShiftedApart(rest[i], rest[j]);
    }
    forall steps
      ensures steps in later <==> LeadsTo(entries, steps) && steps[0] > 0
    {
      if steps in later {
        var i :| 0 <= i < |later| && later[i] == steps;
        assert rest[i] in rest;
        OneLater(entries, rest[i]);
      }
      if LeadsTo(entries, steps) && steps[0] > 0 {
        var before := ShiftedBack(entries, steps);
        assert before in rest;
        var i :| 0 <= i < |rest| && rest[i] == before;
        assert later[i] == steps;
      }
    }
  }

  lemma ShiftedBack(entries: seq<Item>, steps: seq<nat>) returns (before: seq<nat>)
    requires entries != [] && LeadsTo(entries, steps) && steps[0] > 0
    ensures Shifted(before) == steps && LeadsTo(entries[1..], before)
  {
    before := [steps[0] - 1] + steps[1..];
    assert before[1..] == steps[1..] && Shifted(before) == [steps[0]] + steps[1..] == steps;
  }

  lemma OneLater(entries: seq<Item>, before: seq<nat>)
    requires entries != [] && LeadsTo(entries[1..], before)
    ensures LeadsTo(entries, Shifted(before)) && Shifted(before)[0] > 0
  {
    assert Shifted(before)[1..] == before[1..];
  }

  lemma HiddenFirst(entries: seq<Item>)
    requires entries != [] && Hidden(entries[0].name)
    ensures forall steps :: LeadsTo(entries, steps) ==> steps[0] > 0
  {
  }

  lemma BelowFirst(entries: seq<Item>, inside: seq<seq<nat>>, below: seq<seq<nat>>)
    requires entries != [] && !Hidden(entries[0].name) && NoneTwice(inside)
    requires var e := entries[0];
             if e.kind.Folder? && e.kind.statOk then forall steps :: steps in inside <==> LeadsTo(e.kind.inside, steps)
             else inside == []
    requires |below| == |inside| && forall i :: 0 <= i < |inside| ==> below[i] == [0] + inside[i]
    ensures NoneTwice(below)
    ensures forall steps :: steps in below <==> LeadsTo(entries, steps) && steps[0] == 0 && |steps| > 1
  {
    forall i | 0 <= i < |below|
      ensures below[i][1..] == inside[i] && inside[i] in inside
    {
    }
    forall steps
      ensures steps in below <==> LeadsTo(entries, steps) && steps[0] == 0 && |steps| > 1
    {
      if steps in below {
        var i :| 0 <= i < |below| && below[i] == steps;
        assert inside[i] in inside;
      }
      if LeadsTo(entries, steps) && steps[0] == 0 && |steps| > 1 {
        assert steps[1..] in inside;
        var i :| 0 <= i < |inside| && inside[i] == steps[1..];
        assert steps == [0] + steps[1..] == below[i];
      }
    }
  }

  lemma AllOfThem(entries: seq<Item>, below: seq<seq<nat>>, later: seq<seq<nat>>, all: seq<seq<nat>>)
    requires entries != [] && !Hidden(entries[0].name) && NoneTwice(below) && NoneTwice(later)
    requires forall steps :: steps in below <==> LeadsTo(entries, steps) && steps[0] == 0 && |steps| > 1
    requires forall steps :: steps in later <==> LeadsTo(entries, steps) && steps[0] > 0
    requires all == [[0]] + below + later
    ensures NoneTwice(all) && forall steps :: steps in all <==> LeadsTo(entries, steps)
  {
    var first: seq<nat> := [0];
    forall steps
      ensures steps in all <==> LeadsTo(entries, steps)
    {
      if LeadsTo(entries, steps) && steps[0] == 0 && |steps| == 1 {
        assert steps == first;
      }
      assert LeadsTo(entries, first);
    }
    hide LeadsTo;
    PartsApart([first], below, later);
  }

  lemma PartsApart(a: seq<seq<nat>>, b: seq<seq<nat>>, c: seq<seq<nat>>)
    requires NoneTwice(a) && NoneTwice(b) && NoneTwice(c)
    requires forall s :: !(s in a && s in b) && !(s in a && s in c) && !(s in b && s in c)
    ensures NoneTwice(a + b + c)
  {
    TwoApart(a, b);
    TwoApart(a + b, c);
  }

  lemma TwoApart(a: seq<seq<nat>>, b: seq<seq<nat>>)
    requires NoneTwice(a) && NoneTwice(b) && forall s :: !(s in a && s in b)
    ensures NoneTwice(a + b) && forall s :: s in a + b <==> s in a || s in b
  {
    forall i, j | 0 <= i < j < |a + b|
      ensures (a + b)[i] != (a + b)[j]
    {
      if i < |a| <= j {
        assert a[i] in a && b[j - |a|] in b;
      }
    }
  }

  lemma {:induction false} NothingCountedNothingFound(base: string, entries: seq<Item>)
    requires Count(entries) == 0
    ensures Files(base, entries) == multiset{}
  {
    if entries != [] {
      NothingCountedNothingFound(base, entries[1..]);
    }
  }

  // ---------------------------------------------------------------------
  // Newest first
  // ---------------------------------------------------------------------

  predicate Before(a: Found, b: Found) {
    a.mtime > b.mtime || (a.mtime == b.mtime && (a.path == b.path || Less(b.path, a.path)))
  }

  ghost predicate NewestFirst(s: seq<Found>) {
    forall i, j :: 0 <= i < j < |s| ==> Before(s[i], s[j])
  }

  lemma BeforeIsTotalOrder(a: Found, b: Found, c: Found)
    ensures Before(a, b) || Before(b, a)
    ensures Before(a, b) && Before(b, a) ==> a == b
    ensures Before(a, b) && Before(b, c) ==> Before(a, c)
  {
    LessTotal(a.path, b.path);
    if a.path != b.path && b.path != c.path && Less(b.path, a.path) && Less(c.path, b.path) {
      LessTransitive(c.path, b.path, a.path);
    }
  }

  function Insert(s: seq<Found>, f: Found): seq<Found> {
    if s == [] || Before(f, s[0]) then [f] + s else [s[0]] + Insert(s[1..], f)
  }

  lemma {:induction false} InsertSorts(s: seq<Found>, f: Found)
    requires NewestFirst(s)
    ensures NewestFirst(Insert(s, f)) && multiset(Insert(s, f)) == multiset(s) + multiset{f}
  {
    hide Before;
    if s != [] {
      assert s == [s[0]] + s[1..];
      BeforeIsTotalOrder(f, s[0], f);
      if Before(f, s[0]) {
        forall j | 0 <= j < |s| ensures Before(f, s[j]) {
          BeforeIsTotalOrder(f, s[0], s[j]);
        }
      } else {
        InsertSorts(s[1..], f);
        var rest := Insert(s[1..], f);
        forall j | 0 <= j < |rest| ensures Before(s[0], rest[j]) {
          assert rest[j] in multiset(rest);
          if rest[j] != f {
            assert rest[j] in s[1..];
          }
        }
      }
    }
  }

  lemma SameFirst(s: seq<Found>, t: seq<Found>)
    requires NewestFirst(s) && NewestFirst(t) && multiset(s) == multiset(t) && s != [] && t != []
    ensures s[0] == t[0]
  {
    hide Before;
    assert s[0] in multiset(t) && t[0] in multiset(s);
    var i :| 0 <= i < |t| && t[i] == s[0];
    var j :| 0 <= j < |s| && s[j] == t[0];
    BeforeIsTotalOrder(s[0], t[0], s[0]);
  }

  lemma TailNewestFirst(s: seq<Found>)
    requires NewestFirst(s) && s != []
    ensures NewestFirst(s[1..])
  {
    hide Before;
  }

  lemma TailMultiset(s: seq<Found>)
    requires s != []
    ensures multiset(s) == multiset{s[0]} + multiset(s[1..])
  {
    assert s == [s[0]] + s[1..];
  }

  /** A multiset of files has one order. */
  lemma {:induction false} OneOrder(s: seq<Found>, t: seq<Found>)
    requires NewestFirst(s) && NewestFirst(t) && multiset(s) == multiset(t)
    ensures s == t
    decreases |s|
  {
    hide Before, NewestFirst;
    assert |s| == |multiset(s)| == |multiset(t)| == |t|;
    if s != [] {
      TailNewestFirst(s);
      TailNewestFirst(t);
      SameFirst(s, t);
      TailMultiset(s);
      TailMultiset(t);
      assert multiset(s[1..]) == multiset(s) - multiset{s[0]};
      assert multiset(t[1..]) == multiset(t) - multiset{t[0]};
      OneOrder(s[1..], t[1..]);
      assert s == [s[0]] + s[1..] && t == [t[0]] + t[1..];
    }
  }

  method Sort(found: seq<Found>) returns (sorted: seq<Found>)
    ensures NewestFirst(sorted) && multiset(sorted) == multiset(found)
  {
    hide Before, Insert;
    sorted := [];
    for i := 0 to |found|
      invariant NewestFirst(sorted) && multiset(sorted) == multiset(found[..i])
    {
      assert found[..i + 1] == found[..i] + [found[i]];
      InsertSorts(sorted, found[i]);
      sorted := Insert(sorted, found[i]);
    }
    assert found[..|found|] == found;
  }

  /** r is the newest `limit` of these files, newest first. */
  ghost predicate IsNewestOf(r: seq<Found>, files: multiset<Found>, limit: nat) {
    exists all :: NewestFirst(all) && multiset(all) == files && r == all[..Min(limit, |all|)]
  }

  lemma NewestOfIsOne(r: seq<Found>, q: seq<Found>, files: multiset<Found>, limit: nat)
    requires IsNewestOf(r, files, limit) && IsNewestOf(q, files, limit)
    ensures r == q
  {
    hide NewestFirst;
    var a :| NewestFirst(a) && multiset(a) == files && r == a[..Min(limit, |a|)];
    var b :| NewestFirst(b) && multiset(b) == files && q == b[..Min(limit, |b|)];
    OneOrder(a, b);
  }

  // ---------------------------------------------------------------------
  // The folders still to read
  // ---------------------------------------------------------------------

  datatype Dir = Dir(key: int, order: nat, path: string, entries: seq<Item>)

  /** heapq's order: the most recently changed first, then the one met first. */
  predicate Sooner(a: Dir, b: Dir) {
    a.key < b.key || (a.key == b.key && a.order <= b.order)
  }

  function CountAll(dirs: seq<Dir>): nat {
    if dirs == [] then 0 else Count(dirs[0].entries) + CountAll(dirs[1..])
  }

  function FilesAll(dirs: seq<Dir>): multiset<Found> {
    if dirs == [] then multiset{} else Files(dirs[0].path, dirs[0].entries) + FilesAll(dirs[1..])
  }

  lemma {:induction false} TakenOut(dirs: seq<Dir>, k: nat)
    requires k < |dirs|
    ensures CountAll(dirs) == Count(dirs[k].entries) + CountAll(dirs[..k] + dirs[k + 1..])
    ensures FilesAll(dirs) == Files(dirs[k].path, dirs[k].entries) + FilesAll(dirs[..k] + dirs[k + 1..])
  {
    hide Count, Files;
    if k == 0 {
      assert dirs[..0] + dirs[1..] == dirs[1..];
    } else {
      TakenOut(dirs[1..], k - 1);
      var rest := dirs[..k] + dirs[k + 1..];
      assert rest[1..] == dirs[1..][..k - 1] + dirs[1..][k..];
    }
  }

  lemma {:induction false} PutIn(dirs: seq<Dir>, d: Dir)
    ensures CountAll(dirs + [d]) == CountAll(dirs) + Count(d.entries)
    ensures FilesAll(dirs + [d]) == FilesAll(dirs) + Files(d.path, d.entries)
  {
    var all := dirs + [d];
    TakenOut(all, |dirs|);
    assert all[..|dirs|] + all[|dirs| + 1..] == dirs;
  }

  lemma {:induction false} NothingLeftToFind(dirs: seq<Dir>)
    requires CountAll(dirs) == 0
    ensures FilesAll(dirs) == multiset{}
  {
    if dirs != [] {
      NothingCountedNothingFound(dirs[0].path, dirs[0].entries);
      NothingLeftToFind(dirs[1..]);
    }
  }

  method PopFirst(dirs: seq<Dir>) returns (first: Dir, rest: seq<Dir>)
    requires dirs != []
    ensures |rest| == |dirs| - 1
    ensures first in dirs
    ensures forall d :: d in dirs ==> first.key < d.key || (first.key == d.key && first.order <= d.order)
    ensures CountAll(dirs) == Count(first.entries) + CountAll(rest)
    ensures FilesAll(dirs) == Files(first.path, first.entries) + FilesAll(rest)
  {
    var k := 0;
    for i := 1 to |dirs|
      invariant k < |dirs|
      invariant forall j :: 0 <= j < i ==> Sooner(dirs[k], dirs[j])
    {
      if !Sooner(dirs[k], dirs[i]) {
        k := i;
      }
    }
    TakenOut(dirs, k);
    return dirs[k], dirs[..k] + dirs[k + 1..];
  }

  // ---------------------------------------------------------------------
  // The walk
  // ---------------------------------------------------------------------

  /** d waits for one of the readable folders in dir, under its path, the most recently changed first. */
  ghost predicate IsInside(d: Dir, dir: Dir) {
    exists e :: e in dir.entries && e.kind.Folder? && e.kind.statOk && !Hidden(e.name)
                && d.key == -e.mtime && d.path == dir.path + "/" + e.name && d.entries == e.kind.inside
  }

  /** One scandir: its files are found, its folders wait their turn, and the entry that breaks the budget ends it. */
  method ReadFolder(dir: Dir, waiting: seq<Dir>, already: seq<Found>, met: nat, counted: nat, budget: nat)
    returns (dirs: seq<Dir>, found: seq<Found>, order: nat, seen: nat)
    requires counted <= budget
    ensures Max(0, budget - seen) + |dirs| <= budget - counted + |waiting|
    ensures met <= order && forall d :: d in dirs ==> d in waiting || (met < d.order <= order && IsInside(d, dir))
    ensures seen <= budget ==>
              && multiset(found) + FilesAll(dirs)
                == multiset(already) + FilesAll(waiting) + Files(dir.path, dir.entries)
              && seen + CountAll(dirs) == counted + CountAll(waiting) + Count(dir.entries)
    ensures seen > budget ==>
              && multiset(found) + FilesAll(dirs) <= multiset(already) + FilesAll(waiting)
                + Files(dir.path, dir.entries)
              && counted + CountAll(waiting) + Count(dir.entries) > budget
  {
    hide Count, Files, CountAll, FilesAll;
    dirs, found, order, seen := waiting, already, met, counted;
    ghost var files := multiset(already) + FilesAll(waiting) + Files(dir.path, dir.entries);
    ghost var count := counted + CountAll(waiting) + Count(dir.entries);
    assert dir.entries[0..] == dir.entries;
    var j := 0;
    while j < |dir.entries|
      invariant 0 <= j <= |dir.entries| && seen <= budget
      invariant budget - seen + |dirs| <= budget - counted + |waiting|
      invariant met <= order && forall d :: d in dirs ==> d in waiting || (met < d.order <= order && IsInside(d, dir))
      invariant multiset(found) + FilesAll(dirs) + Files(dir.path, dir.entries[j..]) == files
      invariant seen + CountAll(dirs) + Count(dir.entries[j..]) == count
    {
      var entry := dir.entries[j];
      FirstEntry(dir.path, dir.entries[j..]);
      assert dir.entries[j..][1..] == dir.entries[j + 1..];
      j := j + 1;
      if Hidden(entry.name) {
        continue;
      }
      seen := seen + 1;
      if seen > budget {
        return;
      }
      match entry.kind {
        case Plain(ok) =>
          if ok {
            found := found + [Found(entry.mtime, At(dir.path, entry.name))];
          }
        case Folder(ok, inside) =>
          order := order + 1;
          if ok {
            PutIn(dirs, Dir(-entry.mtime, order, At(dir.path, entry.name), inside));
            assert IsInside(Dir(-entry.mtime, order, At(dir.path, entry.name), inside), dir);
            dirs := dirs + [Dir(-entry.mtime, order, At(dir.path, entry.name), inside)];
          }
        case Unseen =>
      }
    }
    NoEntries(dir.path, dir.entries[j..]);
  }

  method NewestWorkspaceFiles(root: seq<Item>, limit: nat, budget: nat) returns (newest: seq<Found>)
    ensures |newest| <= limit && NewestFirst(newest)
    ensures multiset(newest) <= Files("", root)
    ensures Count(root) <= budget ==> IsNewestOf(newest, Files("", root), limit)
  {
    hide Count, Files, NewestFirst, CountAll, FilesAll;
    var dirs := [Dir(0, 0, "", root)];
    var order, seen := 0, 0;
    var found: seq<Found> := [];
    OneFolder(dirs[0]);
    while dirs != [] && seen < budget
      invariant multiset(found) + FilesAll(dirs) <= Files("", root)
      invariant seen <= budget ==> multiset(found) + FilesAll(dirs) == Files("", root)
      invariant seen <= budget ==> seen + CountAll(dirs) == Count(root)
      invariant seen > budget ==> Count(root) > budget
      decreases Max(0, budget - seen) + |dirs|
    {
      var dir, rest := PopFirst(dirs);
      dirs, found, order, seen := ReadFolder(dir, rest, found, order, seen, budget);
    }
    if Count(root) <= budget {
      NoFolders();
      NothingLeftToFind(dirs);
    }
    var sorted := Sort(found);
    newest := sorted[..Min(limit, |sorted|)];
    PrefixIsNewest(sorted, |newest|);
    assert sorted == newest + sorted[|newest|..];
  }

  lemma OneFolder(d: Dir)
    ensures CountAll([d]) == Count(d.entries) && FilesAll([d]) == Files(d.path, d.entries)
  {
  }

  lemma NoFolders()
    ensures CountAll([]) == 0
  {
  }

  lemma FirstEntry(base: string, entries: seq<Item>)
    requires entries != []
    ensures Count(entries) == CountItem(entries[0]) + Count(entries[1..])
    ensures Files(base, entries) == FilesOf(base, entries[0]) + Files(base, entries[1..])
  {
  }

  lemma NoEntries(base: string, entries: seq<Item>)
    ensures entries == [] ==> Count(entries) == 0 && Files(base, entries) == multiset{}
  {
  }

  lemma PrefixIsNewest(s: seq<Found>, n: nat)
    requires NewestFirst(s) && n <= |s|
    ensures NewestFirst(s[..n])
  {
  }
}
