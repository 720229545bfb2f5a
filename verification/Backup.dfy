/** scripts/backup.py, publication: a generation is moved into place snapshot last, then retention runs, and the process
    may die between any two file system steps. */
module Backup {
  import opened Common
  import opened Snapshots
  import opened Rotation

  // ---------------------------------------------------------------------
  // Steps of the file system
  // ---------------------------------------------------------------------

  /** What happens at once: a rename into place, an unlink or rmdir, and rmtree taking one file out of a directory. */
  datatype Op = Put(name: string, node: Node) | Remove(name: string) | Chop(name: string)

  function Do(root: Root, op: Op): Root {
    match op
    case Put(n, node) => root[n := node]
    case Remove(n) => root - {n}
    case Chop(n) =>
      if n in root && root[n].Dir? && root[n].files != [] then root[n := root[n].(files := root[n].files[1..])]
        else root
  }

  function DoAll(root: Root, ops: seq<Op>): Root {
    if ops == [] then root else Do(DoAll(root, ops[..|ops| - 1]), ops[|ops| - 1])
  }

  lemma {:induction false} DoAllSplit(root: Root, a: seq<Op>, b: seq<Op>)
    ensures DoAll(root, a + b) == DoAll(DoAll(root, a), b)
  {
    hide Do;
    if b == [] {
      assert a + b == a;
    } else {
      DoAllSplit(root, a, b[..|b| - 1]);
      assert (a + b)[..|a + b| - 1] == a + b[..|b| - 1];
    }
  }

  /** Taking a tree or a file away. */
  function TearDown(name: string, node: Node): seq<Op> {
    (if node.Dir? then seq(|node.files|, _ => Chop(name)) else []) + [Remove(name)]
  }

  // ---------------------------------------------------------------------
  // What one run does
  // ---------------------------------------------------------------------

  /** A generation in its staging directory. */
  datatype Staged = Staged(db: Node, manifest: Node, corpus: Option<Node>)

  /** What was read back from the staged snapshot, and the corpus copied beside it. */
  datatype Attempt = Attempt(db: Node, magic: bool, quickCheck: bool, corpus: Option<Node>, manifestSize: nat, now: int)

  predicate Healthy(a: Attempt) {
    a.db.File? && a.db.size > 0 && a.magic && a.quickCheck
  }

  /** The staged generation and its manifest, unless the snapshot does not pass for a database. */
  function Build(g: string, a: Attempt): Option<Staged> {
    if Healthy(a) then
      var names := if a.corpus.Some? then Some(CorpusName(g)) else None;
      Some(Staged(a.db, File(a.manifestSize, a.now, Some(Manifest(true, names))), a.corpus))
    else None
  }

  function OldCorpus(root: Root, g: string, s: Staged): seq<Op> {
    if s.corpus.Some? && CorpusName(g) in root then TearDown(CorpusName(g), root[CorpusName(g)]) else []
  }

  function PublishOps(root: Root, g: string, s: Staged): seq<Op> {
    OldCorpus(root, g, s) + (if s.corpus.Some? then [Put(CorpusName(g), s.corpus.value)] else [])
    + [Put(ManifestName(g), s.manifest), Put(SnapshotName(g), s.db)]
  }

  function Removes(names: seq<string>): seq<Op> {
    if names == [] then [] else Removes(names[..|names| - 1]) + [Remove(names[|names| - 1])]
  }

  function LiveGenerations(root: Root): set<string> {
    set n | n in root && IsSnapshot(root, n) && GenerationOf(n).Some? :: GenerationOf(n).value
  }

  predicate IsCompanion(name: string) {
    StartsWith(name, "memories-") || Wraps("backup-", name, ".json")
  }

  /** A corpus or manifest whose snapshot is gone and which is older than the generation that just came out. */
  predicate Doomed(live: set<string>, newest: Option<string>, name: string) {
    match GenerationOf(name)
    case None => false
    case Some(g) => g !in live && (newest.Some? ==> Less(g, newest.value))
  }

  /** The sweep of the companions, in the order given; a tree named in `quits` stops coming down after that many
      steps. */
  function CompanionOps(
      root: Root, live: set<string>, newest: Option<string>, order: seq<string>, quits: map<string, nat>): seq<Op>
  {
    if order == [] then []
    else
      var rest, name := order[..|order| - 1], order[|order| - 1];
      CompanionOps(root, live, newest, rest, quits)
      + if name in root && Doomed(live, newest, name) then Torn(name, root[name], quits) else []
  }

  function Torn(name: string, node: Node, quits: map<string, nat>): seq<Op> {
    var all := TearDown(name, node);
    if name in quits && quits[name] < |all| then all[..quits[name]] else all
  }

  /** Everything a run is exposed to; `died` is the number of file system steps it lives to make in the directory. */
  datatype Run = Run(
    g: string, staged: Option<Staged>, keep: nat, listing: seq<Entry>, stuck: set<string>,
    order: seq<string>, quits: map<string, nat>, died: nat)

  function Removed(run: Run): seq<string> {
    Report(Stale(run.listing, run.keep), run.stuck).0
  }

  function Published(root: Root, run: Run): Root
    requires run.staged.Some?
  {
    DoAll(root, PublishOps(root, run.g, run.staged.value))
  }

  function RotatedOut(root: Root, run: Run): Root
    requires run.staged.Some?
  {
    DoAll(Published(root, run), Removes(Removed(run)))
  }

  function SweepOps(root: Root, run: Run): seq<Op>
    requires run.staged.Some?
  {
    var now := RotatedOut(root, run);
    CompanionOps(now, LiveGenerations(now), Some(run.g), run.order, run.quits)
  }

  predicate Releases(root: Root, run: Run) {
    run.staged.Some? && run.died >= |PublishOps(root, run.g, run.staged.value)|
  }

  /** The steps of a run: publish, and once that is done rotate and sweep. Nothing at all when the build failed. */
  function RunOps(root: Root, run: Run): seq<Op> {
    if run.staged.None? then []
    else PublishOps(root, run.g, run.staged.value) + Retention(root, run)
  }

  function Retention(root: Root, run: Run): seq<Op> {
    if Releases(root, run) then Removes(Removed(run)) + SweepOps(root, run) else []
  }

  function AfterRun(root: Root, run: Run): Root {
    DoAll(root, RunOps(root, run)[..Min(run.died, |RunOps(root, run)|)])
  }

  ghost predicate Enumerates(root: Root, order: seq<string>) {
    && (forall n :: n in order <==> n in root && IsCompanion(n))
    && forall i, j :: 0 <= i < j < |order| ==> order[i] != order[j]
  }

  /** The generation is fresh, the staged files passed, and both listings are what the directory held at that point. */
  ghost predicate Possible(root: Root, run: Run) {
    && IsGeneration(run.g) && SnapshotName(run.g) !in root
    && (run.staged.Some? ==> exists a :: Healthy(a) && Build(run.g, a) == run.staged)
    && (Releases(root, run) ==>
          && Lists(Published(root, run), run.listing)
          && Enumerates(RotatedOut(root, run), run.order))
  }

  // ---------------------------------------------------------------------
  // The directory as run_backup works on it
  // ---------------------------------------------------------------------

  const KEEP_MAX := 90

  function ResolveKeep(raw: int): nat {
    Max(0, Min(raw, KEEP_MAX))
  }

  method ListCompanions(root: Root) returns (order: seq<string>)
    ensures Enumerates(root, order)
  {
    hide IsCompanion;
    order := [];
    var left := root.Keys;
    while left != {}
      invariant left <= root.Keys
      invariant forall n :: n in order <==> n in root.Keys - left && IsCompanion(n)
      invariant forall i, j :: 0 <= i < j < |order| ==> order[i] != order[j]
    {
      var name :| name in left;
      left := left - {name};
      if IsCompanion(name) {
        order := order + [name];
      }
    }
  }

  lemma {:induction false} RemovesAll(root: Root, names: seq<string>)
    ensures DoAll(root, Removes(names)) == root - (set n | n in names)
  {
    if names == [] {
      assert (set n | n in names) == {};
    } else {
      var rest, last := names[..|names| - 1], names[|names| - 1];
      RemovesAll(root, rest);
      DoAllSplit(root, Removes(rest), [Remove(last)]);
      assert DoAll(DoAll(root, Removes(rest)), [Remove(last)]) == DoAll(root, Removes(rest)) - {last};
      assert names == rest + [last];
    }
  }

  lemma WholeRun(root: Root, run: Run)
    requires Releases(root, run) && run.died == |RunOps(root, run)|
    ensures AfterRun(root, run) == DoAll(RotatedOut(root, run), SweepOps(root, run))
  {
    hide DoAll, PublishOps, SweepOps, Removes;
    assert RunOps(root, run)[..run.died] == RunOps(root, run);
    DoAllSplit(root, PublishOps(root, run.g, run.staged.value), Retention(root, run));
    DoAllSplit(Published(root, run), Removes(Removed(run)), SweepOps(root, run));
  }

  lemma NoCompanions(root: Root, live: set<string>, newest: Option<string>, quits: map<string, nat>)
    ensures CompanionOps(root, live, newest, [], quits) == []
  {
  }

  lemma TornSoFar(name: string, node: Node, quits: map<string, nat>, done: nat)
    requires done == if name in quits then Min(quits[name], |TearDown(name, node)|) else |TearDown(name, node)|
    ensures TearDown(name, node)[..done] == Torn(name, node, quits)
  {
    hide TearDown;
  }

  /** The next companion is as the sweep found it, and adds its own steps or none. */
  lemma NextCompanion(root: Root, live: set<string>, newest: Option<string>, order: seq<string>, i: nat,
      quits: map<string, nat>)
    requires Enumerates(root, order) && i < |order|
    ensures var before, name := CompanionOps(root, live, newest, order[..i], quits), order[i];
            && name in root && name in DoAll(root, before) && DoAll(root, before)[name] == root[name]
            && CompanionOps(root, live, newest, order[..i + 1], quits)
               == if Doomed(live, newest, name) then before + Torn(name, root[name], quits) else before
  {
    hide Doomed, IsCompanion, Torn, DoAll;
    var name := order[i];
    assert order[..i + 1][..i] == order[..i];
    var before := CompanionOps(root, live, newest, order[..i], quits);
    CompanionOpsShape(root, live, newest, order[..i], quits);
    assert forall k :: 0 <= k < |before| ==> before[k] in before;
    NamesUntouched(root, before, name);
    assert name in order;
    assert before + [] == before;
  }

  lemma PublishLayout(root: Root, g: string, s: Staged)
    ensures var ops, n := PublishOps(root, g, s), |OldCorpus(root, g, s)|;
            && (forall k :: 0 <= k <= n ==> ops[..k] == OldCorpus(root, g, s)[..k])
            && |ops| == n + (if s.corpus.Some? then 3 else 2)
            && (s.corpus.Some? ==> ops[n] == Put(CorpusName(g), s.corpus.value))
            && ops[|ops| - 2] == Put(ManifestName(g), s.manifest) && ops[|ops| - 1] == Put(SnapshotName(g), s.db)
  {
    hide OldCorpus, CorpusName, ManifestName, SnapshotName;
  }

  /** The first steps of taking a name away: a tree has lost that many files, and the last step takes the name. */
  lemma {:induction false} PartlyDown(root: Root, name: string, done: nat)
    requires name in root && done <= |TearDown(name, root[name])|
    ensures var after := DoAll(root, TearDown(name, root[name])[..done]);
            if done == |TearDown(name, root[name])| then after == root - {name}
            else if root[name].File? then after == root
            else after == root[name := root[name].(files := root[name].files[done..])]
  {
    if done > 0 {
      DoAllPrefix(root, TearDown(name, root[name]), done - 1);
      PartlyDown(root, name, done - 1);
    }
  }

  class BackupDirectory {
    var root: Root

    constructor (found: Root)
      ensures root == found
    {
      root := found;
    }

    /** rmtree and unlink, stopping after so many steps when the operating system refuses the next one. */
    method Delete(name: string, steps: nat) returns (done: nat)
      requires name in root
      modifies this
      ensures done == Min(steps, |TearDown(name, old(root)[name])|)
      ensures root == DoAll(old(root), TearDown(name, old(root)[name])[..done])
      ensures name in root <==> done < |TearDown(name, old(root)[name])|
      ensures root - {name} == old(root) - {name}
      ensures old(root)[name].File? ==> root == if steps > 0 then old(root) - {name} else old(root)
      ensures old(root)[name].Dir? ==>
                var files := old(root)[name].files;
                root == if steps > |files| then old(root) - {name}
                        else old(root)[name := old(root)[name].(files := files[steps..])]
    {
      ghost var ops := TearDown(name, root[name]);
      ghost var n := |ops| - 1;
      done := 0;
      while done < steps && root[name].Dir? && root[name].files != []
        invariant done <= n && done <= steps && name in root
        invariant root == DoAll(old(root), ops[..done])
        invariant root[name].Dir? == old(root)[name].Dir?
        invariant root[name].Dir? ==> |root[name].files| == n - done
        decreases steps - done
      {
        DoAllPrefix(old(root), ops, done);
        root := root[name := root[name].(files := root[name].files[1..])];
        done := done + 1;
      }
      if done < steps {
        DoAllPrefix(old(root), ops, done);
        root := root - {name};
        done := done + 1;
      }
      PartlyDown(old(root), name, done);
    }

    /** _publish; the step after `steps` raises, and what was done until then stays done. */
    method Publish(g: string, s: Staged, steps: nat) returns (ok: bool)
      modifies this
      ensures ok == (steps >= |PublishOps(old(root), g, s)|)
      ensures root == DoAll(old(root), PublishOps(old(root), g, s)[..Min(steps, |PublishOps(old(root), g, s)|)])
    {
      hide TearDown, CorpusName, ManifestName, SnapshotName, DoAll, PublishOps;
      ghost var ops := PublishOps(root, g, s);
      ghost var was := root;
      PublishLayout(root, g, s);
      var cleared, done := ClearCorpus(g, s, steps);
      if !cleared { return false; }
      if s.corpus.Some? {
        if done == steps { return false; }
        DoAllPrefix(was, ops, done);
        root := root[CorpusName(g) := s.corpus.value];
        done := done + 1;
      }
      if done == steps { return false; }
      DoAllPrefix(was, ops, done);
      root := root[ManifestName(g) := s.manifest];
      done := done + 1;
      if done == steps { return false; }
      DoAllPrefix(was, ops, done);
      root := root[SnapshotName(g) := s.db];
      assert ops[..done + 1] == ops;
      return true;
    }

    /** An orphan corpus of an earlier run stands where the new one must go. */
    method ClearCorpus(g: string, s: Staged, steps: nat) returns (cleared: bool, done: nat)
      modifies this
      ensures var orphan := OldCorpus(old(root), g, s);
              && done == Min(steps, |orphan|) && cleared == (steps >= |orphan|)
              && root == DoAll(old(root), orphan[..done])
    {
      hide TearDown, CorpusName;
      done := 0;
      if s.corpus.Some? && CorpusName(g) in root {
        done := Delete(CorpusName(g), steps);
        cleared := CorpusName(g) !in root;
      } else {
        cleared := true;
      }
    }

    /** _rotate_companions over the companions a scan found. */
    method RotateCompanions(newest: Option<string>, order: seq<string>, quits: map<string, nat>)
      requires Enumerates(root, order)
      modifies this
      ensures root == DoAll(old(root), CompanionOps(old(root), LiveGenerations(old(root)), newest, order, quits))
    {
      hide Doomed, IsCompanion, LiveGenerations, CompanionOps, TearDown, Torn;
      NoCompanions(root, LiveGenerations(root), newest, quits);
      ghost var was := root;
      var live := LiveGenerations(root);
      for i := 0 to |order|
        invariant root == DoAll(was, CompanionOps(was, live, newest, order[..i], quits))
      {
        var name := order[i];
        ghost var before := CompanionOps(was, live, newest, order[..i], quits);
        NextCompanion(was, live, newest, order, i, quits);
        if Doomed(live, newest, name) {
          ghost var all := TearDown(name, root[name]);
          var done := Delete(name, if name in quits then quits[name] else |TearDown(name, root[name])|);
          DoAllSplit(was, before, all[..done]);
          TornSoFar(name, was[name], quits, done);
        }
      }
      assert order[..|order|] == order;
    }

    /** run_backup: nothing, a failure before or inside the publication, or a whole run. */
    method RunBackup(rawKeep: int, stamp: string, a: Attempt, steps: nat, stuck: set<string>, quits: map<string, nat>)
      returns (ok: bool, ghost run: Run)
      requires IsStamp(stamp)
      modifies this
      ensures rawKeep <= 0 ==> ok && root == old(root)
      ensures rawKeep > 0 ==> Possible(old(root), run) && root == AfterRun(old(root), run)
      ensures rawKeep > 0 ==>
                exists k: nat ::
                  run.g == GenerationText(stamp, k) && forall j: nat :: UsedIn(old(root).Keys, stamp, j) ==> j < k
      ensures rawKeep > 0 ==> ok == Releases(old(root), run)
      ensures rawKeep > 0 ==> (run.staged.Some? <==> a.db.File? && a.db.size > 0 && a.magic && a.quickCheck)
      ensures rawKeep > 0 && run.staged.Some? ==> run.staged.value.db == a.db && run.staged.value.corpus == a.corpus
      ensures rawKeep > 0 && ok ==>
                run.died == |RunOps(old(root), run)| && run.keep == Min(rawKeep, 90)
      ensures rawKeep > 0 && ok ==> CompanionsFound(root, run.g, a.corpus)
      ensures rawKeep > 0 && ok && SnapshotName(run.g) in root ==> root[SnapshotName(run.g)] == a.db
      ensures rawKeep > 0 && !ok ==>
                CompleteSnapshots(root) == CompleteSnapshots(old(root)) && FreshNames(root) == FreshNames(old(root))
    {
      hide Doomed, IsCompanion, LiveGenerations, PublishOps, CompanionOps, UsedIn, GenerationText, Lists, Enumerates,
        IsStamp, IsGeneration, SnapshotName;
      var keep := ResolveKeep(rawKeep);
      run := Run("", None, keep, [], stuck, [], quits, steps);
      if keep == 0 {
        return true, run;
      }
      ghost var was := root;
      var k := Unique(root.Keys, stamp);
      var g := GenerationText(stamp, k);
      GenerationTextIsOne(stamp, k);
      assert g == GenerationText(stamp, k) && forall j: nat :: UsedIn(was.Keys, stamp, j) ==> j < k;
      var staged := Build(g, a);
      run := Run(g, staged, keep, [], stuck, [], quits, steps);
      if staged.None? {
        return false, run;
      }
      assert exists b :: Healthy(b) && Build(g, b) == run.staged;
      var published := Publish(g, staged.value, steps);
      if !published {
        ghost var p := PublishOps(was, g, staged.value);
        assert Retention(was, run) == [] && p + [] == p;
        assert RunOps(was, run) == p && Min(steps, |p|) == steps;
        assert root == DoAll(was, RunOps(was, run)[..steps]);
        PublicationIsAtomic(was, g, a, steps);
        return false, run;
      }
      ghost var mid := root;
      assert PublishOps(was, g, staged.value)[..|PublishOps(was, g, staged.value)|] == PublishOps(was, g, staged.value);
      var rotated, report := Rotate(root, keep, false, stuck);
      ghost var s :| Lists(mid, s) && (report.removed, report.freed) == Report(Stale(s, keep), stuck);
      root := rotated;
      RemovesAll(mid, report.removed);
      var order := ListCompanions(root);
      RotateCompanions(Some(g), order, quits);
      run := Run(g, staged, keep, s, stuck, order, quits, steps);
      var all := |RunOps(was, run)|;
      run := run.(died := all);
      WholeRun(was, run);
      OwnCompanionsStay(was, run);
      OwnSnapshotStaysOrGoes(was, run);
      return true, run;
    }
  }

  // ---------------------------------------------------------------------
  // Publication is atomic
  // ---------------------------------------------------------------------

  function CompleteSnapshots(root: Root): set<string> {
    set n | n in root && IsSnapshot(root, n) && Complete(root, n)
  }

  /** What hours_since_last_backup reads. */
  function FreshNames(root: Root): set<string> {
    set n | n in root && Wraps("sessions-", n, ".db") && Complete(root, n)
  }

  /** The directories agree on everything but these two names. */
  ghost predicate SameElsewhere(a: Root, b: Root, g: string) {
    forall n :: n != CorpusName(g) && n != ManifestName(g) ==> (n in a <==> n in b) && (n in a ==> a[n] == b[n])
  }

  lemma {:induction false} OnlyCompanionsChange(root: Root, ops: seq<Op>, g: string)
    requires forall i :: 0 <= i < |ops| ==> ops[i].name == CorpusName(g) || ops[i].name == ManifestName(g)
    ensures SameElsewhere(root, DoAll(root, ops), g)
  {
    hide CorpusName, ManifestName;
    if ops != [] {
      OnlyCompanionsChange(root, ops[..|ops| - 1], g);
    }
  }

  /** A name that begins like a snapshot has the same completeness in both. */
  lemma SameCompleteness(a: Root, b: Root, g: string, name: string)
    requires SameElsewhere(a, b, g)
    requires name in a && |name| > 0 && name[0] == 's' && name != SnapshotName(g)
    ensures name in b && a[name] == b[name]
    ensures Complete(a, name) == Complete(b, name)
  {
    NamesDiffer(name, g);
    match GenerationOf(name) {
      case None =>
      case Some(h) =>
        assert "memories-"[0] == 'm' && "backup-"[0] == 'b';
        OnlyOwnSnapshotName(name, h);
        NamesPairUp(h);
        NamesPairUp(g);
        NamesDiffer(name, h);
        assert ManifestName(h)[0] == 'b' && CorpusName(g)[0] == 'm';
    }
  }

  lemma NamesDiffer(name: string, g: string)
    requires |name| > 0 && name[0] == 's'
    ensures name != CorpusName(g) && name != ManifestName(g)
  {
    assert CorpusName(g)[0] == 'm' && ManifestName(g)[0] == 'b';
  }

  lemma SnapshotStartsWithS(name: string)
    requires SchemeOf(name).Some? || Wraps("sessions-", name, ".db")
    ensures |name| > 0 && name[0] == 's'
  {
    assert "sessions-"[0] == 's' && "sessions."[0] == 's' && "sessions.db."[0] == 's';
  }

  lemma NothingShows(a: Root, b: Root, g: string)
    requires SameElsewhere(a, b, g) && SnapshotName(g) !in a
    ensures CompleteSnapshots(a) == CompleteSnapshots(b) && FreshNames(a) == FreshNames(b)
    ensures forall n :: n in CompleteSnapshots(a) ==> a[n] == b[n]
  {
    hide SnapshotName, SameElsewhere, Complete, SchemeOf, Wraps;
    OtherWayAround(a, b, g);
    forall n | n in a && (SchemeOf(n).Some? || Wraps("sessions-", n, ".db"))
      ensures n in b && a[n] == b[n] && Complete(a, n) == Complete(b, n)
    {
      SnapshotStartsWithS(n);
      SameCompleteness(a, b, g, n);
    }
    forall n | n in b && (SchemeOf(n).Some? || Wraps("sessions-", n, ".db"))
      ensures n in a
    {
      SnapshotStartsWithS(n);
      SameCompleteness(b, a, g, n);
    }
  }

  lemma OtherWayAround(a: Root, b: Root, g: string)
    requires SameElsewhere(a, b, g)
    ensures SameElsewhere(b, a, g)
    ensures SnapshotName(g) in a <==> SnapshotName(g) in b
  {
    NamesDiffer(SnapshotName(g), g);
  }

  lemma {:induction false} DoAllPrefix(root: Root, ops: seq<Op>, k: nat)
    requires k < |ops|
    ensures DoAll(root, ops[..k + 1]) == Do(DoAll(root, ops[..k]), ops[k])
  {
    assert ops[..k + 1][..k] == ops[..k];
  }

  /** A crash at any step of a publication shows the old set of complete snapshots, and only the last step adds the
      new one. */
  lemma PublicationIsAtomic(root: Root, g: string, a: Attempt, k: nat)
    requires Healthy(a) && IsGeneration(g) && SnapshotName(g) !in root
    requires k <= |PublishOps(root, g, Build(g, a).value)|
    ensures var ops := PublishOps(root, g, Build(g, a).value);
            var now := DoAll(root, ops[..k]);
            && CompleteSnapshots(now) == CompleteSnapshots(root) + (if k == |ops| then {SnapshotName(g)} else {})
            && FreshNames(now) == FreshNames(root) + (if k == |ops| then {SnapshotName(g)} else {})
            && (forall n :: n in CompleteSnapshots(root) ==> now[n] == root[n])
  {
    hide CompleteSnapshots, FreshNames, DoAll, Do, PublishOps, CorpusName, ManifestName, SnapshotName, IsGeneration;
    var s := Build(g, a).value;
    var ops := PublishOps(root, g, s);
    PublishShape(root, g, s);
    var m := if k < |ops| then k else |ops| - 1;
    var before := DoAll(root, ops[..m]);
    OnlyCompanionsChange(root, ops[..m], g);
    NothingShows(root, before, g);
    OtherWayAround(root, before, g);
    if k == |ops| {
      assert ops[..k] == ops;
      DoAllPrefix(root, ops, m - 1);
      DoAllPrefix(root, ops, m);
      ManifestInPlace(DoAll(root, ops[..m - 1]), g, s);
      SnapshotAppears(before, g, s.db);
      LastRename(before, g, s.db);
    }
  }

  lemma PublishShape(root: Root, g: string, s: Staged)
    ensures var ops := PublishOps(root, g, s);
            && |ops| >= 2
            && (forall i :: 0 <= i < |ops| - 1 ==> ops[i].name == CorpusName(g) || ops[i].name == ManifestName(g))
            && ops[|ops| - 2] == Put(ManifestName(g), s.manifest) && ops[|ops| - 1] == Put(SnapshotName(g), s.db)
            && (s.corpus.Some? ==> |ops| >= 3 && ops[|ops| - 3] == Put(CorpusName(g), s.corpus.value))
  {
    hide CorpusName, ManifestName, SnapshotName;
  }

  lemma ManifestInPlace(root: Root, g: string, s: Staged)
    requires s.manifest.File?
    ensures ReadManifest(Do(root, Put(ManifestName(g), s.manifest)), g) == s.manifest.doc
  {
  }

  lemma LastRename(root: Root, g: string, db: Node)
    requires SnapshotName(g) !in root
    ensures Do(root, Put(SnapshotName(g), db)) == root[SnapshotName(g) := db]
    ensures forall n :: n in CompleteSnapshots(root) ==> root[SnapshotName(g) := db][n] == root[n]
  {
  }

  /** The last rename, over a directory where the manifest already says complete. */
  lemma SnapshotAppears(root: Root, g: string, db: Node)
    requires IsGeneration(g) && SnapshotName(g) !in root && db.File?
    requires ReadManifest(root, g).Some? && ReadManifest(root, g).value.complete
    ensures var now := root[SnapshotName(g) := db];
            && CompleteSnapshots(now) == CompleteSnapshots(root) + {SnapshotName(g)}
            && FreshNames(now) == FreshNames(root) + {SnapshotName(g)}
  {
    var now := root[SnapshotName(g) := db];
    NamesPairUp(g);
    ShowsItself(g);
    forall n | n in root
      ensures n in now && now[n] == root[n] && Complete(now, n) == Complete(root, n)
    {
      forall h
        ensures ReadManifest(now, h) == ReadManifest(root, h)
      {
        NamesPairUp(h);
        NamesDiffer(SnapshotName(g), h);
      }
    }
    NamesDiffer(SnapshotName(g), g);
    assert Complete(now, SnapshotName(g));
  }

  lemma ShowsItself(g: string)
    ensures Wraps("sessions-", SnapshotName(g), ".db") && Inside("sessions-", SnapshotName(g), ".db") == g
  {
    var s := SnapshotName(g);
    assert s[..9] == "sessions-" && s[|s| - 3..] == ".db" && s[9..|s| - 3] == g;
  }

  /** Freshness: the newest stamp, read off the names, or nothing. `parse` is strptime on the part before the
      counter. */
  function StampOf(name: string): string
    requires Wraps("sessions-", name, ".db")
  {
    BeforeUnderscore(Inside("sessions-", name, ".db"))
  }

  function BeforeUnderscore(s: string): string {
    if s == [] || s[0] == '_' then [] else [s[0]] + BeforeUnderscore(s[1..])
  }

  /** The part of a name that is read as a time is the stamp it was given, whatever its same-second counter. */
  lemma StampIsRead(stamp: string, k: nat)
    requires IsStamp(stamp)
    ensures Wraps("sessions-", SnapshotName(GenerationText(stamp, k)), ".db")
    ensures StampOf(SnapshotName(GenerationText(stamp, k))) == stamp
  {
    var g := GenerationText(stamp, k);
    ShowsItself(g);
    assert forall i :: 0 <= i < 15 ==> stamp[i] != '_' by {
      assert forall i :: 0 <= i < 8 ==> stamp[i] == stamp[..8][i];
      assert forall i :: 9 <= i < 15 ==> stamp[i] == stamp[9..][i - 9];
    }
    CutAtUnderscore(stamp, g[15..]);
    assert g == stamp + g[15..];
  }

  lemma {:induction false} CutAtUnderscore(a: string, b: string)
    requires '_' !in a && (b == [] || b[0] == '_')
    ensures BeforeUnderscore(a + b) == a
  {
    if a == [] {
      assert a + b == b;
    } else {
      assert (a + b)[1..] == a[1..] + b;
      CutAtUnderscore(a[1..], b);
    }
  }

  ghost predicate IsNewest(names: set<string>, parse: string -> Option<int>, newest: Option<int>) {
    && (forall n :: n in names && Wraps("sessions-", n, ".db") && parse(StampOf(n)).Some? ==>
          newest.Some? && parse(StampOf(n)).value <= newest.value)
    && (newest.Some? ==> exists n :: n in names && Wraps("sessions-", n, ".db") && parse(StampOf(n)) == newest)
  }

  function Later(a: Option<int>, b: Option<int>): Option<int> {
    if a.None? then b else if b.None? then a else Some(Max(a.value, b.value))
  }

  method NewestBackup(root: Root, parse: string -> Option<int>) returns (newest: Option<int>)
    ensures IsNewest(FreshNames(root), parse, newest)
  {
    hide Complete, Wraps, StampOf;
    newest := None;
    var left := root.Keys;
    while left != {}
      invariant left <= root.Keys
      invariant IsNewest(FreshNames(root) - left, parse, newest)
    {
      var name :| name in left;
      left := left - {name};
      if Wraps("sessions-", name, ".db") {
        var taken := parse(StampOf(name));
        if taken.Some? && Complete(root, name) && (newest.None? || taken.value > newest.value) {
          newest := taken;
        }
      }
    }
    assert FreshNames(root) - left == FreshNames(root);
  }

  /** hours_since_last_backup is moved by the last step of a publication and by nothing before it. */
  lemma FreshnessMovesWithTheSnapshot(
      root: Root, g: string, a: Attempt, k: nat, parse: string -> Option<int>, newest: Option<int>)
    requires Healthy(a) && IsGeneration(g) && SnapshotName(g) !in root
    requires k <= |PublishOps(root, g, Build(g, a).value)|
    requires IsNewest(FreshNames(root), parse, newest)
    ensures var ops := PublishOps(root, g, Build(g, a).value);
            IsNewest(FreshNames(DoAll(root, ops[..k])), parse,
                     if k == |ops| then Later(newest, parse(BeforeUnderscore(g))) else newest)
  {
    var ops := PublishOps(root, g, Build(g, a).value);
    PublicationIsAtomic(root, g, a, k);
    ShowsItself(g);
    NewestWithOneMore(FreshNames(root), SnapshotName(g), parse, newest);
    var extra: set<string> := if k == |ops| then {SnapshotName(g)} else {};
    assert FreshNames(DoAll(root, ops[..k])) == FreshNames(root) + extra;
    if k < |ops| {
      assert FreshNames(root) + extra == FreshNames(root);
    }
  }

  lemma NewestWithOneMore(names: set<string>, name: string, parse: string -> Option<int>, newest: Option<int>)
    requires IsNewest(names, parse, newest) && Wraps("sessions-", name, ".db")
    ensures IsNewest(names + {name}, parse, Later(newest, parse(StampOf(name))))
  {
    hide StampOf, Wraps;
    var all := names + {name};
    assert name in all;
    if newest.Some? {
      var n :| n in names && Wraps("sessions-", n, ".db") && parse(StampOf(n)) == newest;
      assert n in all;
    }
  }

  // ---------------------------------------------------------------------
  // What a live generation keeps
  // ---------------------------------------------------------------------

  ghost predicate Live(root: Root, g: string) {
    IsSnapshot(root, SnapshotName(g))
  }

  /** A step that neither touches a live generation's companions nor writes over a live snapshot. */
  ghost predicate Safe(root: Root, op: Op) {
    forall g :: Live(root, g) ==>
      op.name != ManifestName(g) && op.name != CorpusName(g) && (op.name == SnapshotName(g) ==> op.Remove?)
  }

  ghost predicate AllSafe(root: Root, ops: seq<Op>) {
    forall k :: 0 <= k < |ops| ==> Safe(DoAll(root, ops[..k]), ops[k])
  }

  /** The three artifacts of a generation are the same in both directories. */
  ghost predicate SameGeneration(a: Root, b: Root, g: string) {
    forall n :: n == SnapshotName(g) || n == ManifestName(g) || n == CorpusName(g) ==>
      (n in a <==> n in b) && (n in a ==> a[n] == b[n])
  }

  lemma AllSafeAppend(root: Root, a: seq<Op>, b: seq<Op>)
    requires AllSafe(root, a) && AllSafe(DoAll(root, a), b)
    ensures AllSafe(root, a + b)
  {
    hide DoAll, Safe;
    forall k | 0 <= k < |a + b|
      ensures Safe(DoAll(root, (a + b)[..k]), (a + b)[k])
    {
      CutOfSum(a, b, k);
      if k >= |a| {
        DoAllSplit(root, a, b[..k - |a|]);
      }
    }
  }

  lemma CutOfSum(a: seq<Op>, b: seq<Op>, k: nat)
    requires k < |a + b|
    ensures if k < |a| then (a + b)[..k] == a[..k] && (a + b)[k] == a[k]
            else (a + b)[..k] == a + b[..k - |a|] && (a + b)[k] == b[k - |a|]
  {
  }

  lemma LiveIsAGeneration(root: Root, g: string)
    requires Live(root, g)
    ensures IsGeneration(g) && GenerationOf(SnapshotName(g)) == Some(g) && g in LiveGenerations(root)
  {
    var s := SnapshotName(g);
    ShowsItself(g);
    assert "sessions-"[8] == '-' && "sessions."[8] == '.' && "sessions.db."[8] == '.';
    assert s[8] == '-';
    NamesPairUp(g);
    assert s in root && IsSnapshot(root, s);
  }

  lemma {:induction false} NamesUntouched(root: Root, ops: seq<Op>, name: string)
    requires forall i :: 0 <= i < |ops| ==> ops[i].name != name
    ensures name in DoAll(root, ops) <==> name in root
    ensures name in root ==> DoAll(root, ops)[name] == root[name]
  {
    if ops != [] {
      NamesUntouched(root, ops[..|ops| - 1], name);
    }
  }

  lemma CompanionNamesAreOwn(g: string, h: string)
    ensures CorpusName(g) == CorpusName(h) ==> g == h
    ensures ManifestName(g) == ManifestName(h) ==> g == h
    ensures CorpusName(g) != ManifestName(h) && SnapshotName(g) != CorpusName(h) && SnapshotName(g) != ManifestName(h)
  {
    NamesPairUp(g);
    NamesPairUp(h);
    assert CorpusName(g)[0] == 'm' && ManifestName(h)[0] == 'b' && SnapshotName(g)[0] == 's' && CorpusName(h)[0] == 'm';
  }

  lemma PublishIsSafe(root: Root, g: string, s: Staged)
    requires SnapshotName(g) !in root
    ensures AllSafe(root, PublishOps(root, g, s))
  {
    hide PublishOps, DoAll, Do, IsSnapshot, CorpusName, ManifestName, SnapshotName;
    PublishShape(root, g, s);
    var ops := PublishOps(root, g, s);
    CompanionNamesAreOwn(g, g);
    forall k | 0 <= k < |ops|
      ensures Safe(DoAll(root, ops[..k]), ops[k])
    {
      var now := DoAll(root, ops[..k]);
      NamesUntouched(root, ops[..k], SnapshotName(g));
      forall h | Live(now, h)
        ensures ops[k].name != ManifestName(h) && ops[k].name != CorpusName(h) && ops[k].name != SnapshotName(h)
      {
        LiveIsThere(now, h);
        CompanionNamesAreOwn(g, h);
        CompanionNamesAreOwn(h, g);
      }
    }
  }

  lemma LiveIsThere(root: Root, g: string)
    requires Live(root, g)
    ensures SnapshotName(g) in root
  {
  }

  lemma {:induction false} RemovesShape(names: seq<string>)
    ensures |Removes(names)| == |names|
    ensures forall i :: 0 <= i < |names| ==> Removes(names)[i] == Remove(names[i])
  {
    if names != [] {
      RemovesShape(names[..|names| - 1]);
    }
  }

  lemma RotationIsSafe(root: Root, names: seq<string>)
    requires forall n :: n in names ==> SchemeOf(n).Some?
    ensures AllSafe(root, Removes(names))
  {
    hide DoAll, SchemeOf, Removes, ManifestName, CorpusName;
    RemovesShape(names);
    forall k, h | 0 <= k < |names|
      ensures names[k] != ManifestName(h) && names[k] != CorpusName(h)
    {
      SnapshotStartsWithS(names[k]);
      NamesDiffer(names[k], h);
    }
  }

  lemma {:induction false} CompanionOpsShape(
      root: Root, live: set<string>, newest: Option<string>, order: seq<string>, quits: map<string, nat>)
    ensures forall op :: op in CompanionOps(root, live, newest, order, quits) ==>
              !op.Put? && op.name in order && Doomed(live, newest, op.name)
  {
    hide Doomed;
    if order != [] {
      CompanionOpsShape(root, live, newest, order[..|order| - 1], quits);
    }
  }

  lemma SweepIsSafe(root: Root, ops: seq<Op>)
    requires forall op :: op in ops ==> IsCompanion(op.name) && Doomed(LiveGenerations(root), None, op.name)
    ensures AllSafe(root, ops)
  {
    hide DoAll, LiveGenerations, CorpusName, ManifestName, SnapshotName;
    forall k | 0 <= k < |ops|
      ensures Safe(DoAll(root, ops[..k]), ops[k])
    {
      var now := DoAll(root, ops[..k]);
      forall h | Live(now, h)
        ensures ops[k].name != ManifestName(h) && ops[k].name != CorpusName(h) && ops[k].name != SnapshotName(h)
      {
        NamesPairUp(h);
        forall i | 0 <= i < |ops|
          ensures ops[i].name != SnapshotName(h)
        {
          assert ops[i] in ops;
          CompanionIsNoSnapshot(ops[i].name, h);
        }
        NamesUntouched(root, ops[..k], SnapshotName(h));
        LiveIsAGeneration(root, h);
        assert ops[k] in ops;
      }
    }
  }

  lemma CompanionIsNoSnapshot(name: string, g: string)
    requires IsCompanion(name)
    ensures name != SnapshotName(g)
  {
    assert "memories-"[0] == 'm' && "backup-"[0] == 'b' && SnapshotName(g)[0] == 's';
  }

  /** No step of a whole run takes a companion away from a live generation or writes over a live snapshot. */
  lemma RunIsSafe(root: Root, run: Run)
    requires Possible(root, run)
    ensures AllSafe(root, RunOps(root, run))
  {
    hide PublishOps, DoAll, Safe, SchemeOf, Newer, Stale, LiveGenerations, IsGeneration, CompanionOps, Removes,
      Complete;
    if run.staged.Some? {
      var p := PublishOps(root, run.g, run.staged.value);
      PublishIsSafe(root, run.g, run.staged.value);
      if Releases(root, run) {
        var r, c := Removes(Removed(run)), SweepOps(root, run);
        var now := RotatedOut(root, run);
        RemovedAreSnapshots(Published(root, run), run);
        RotationIsSafe(Published(root, run), Removed(run));
        CompanionOpsShape(now, LiveGenerations(now), Some(run.g), run.order, run.quits);
        SweepIsSafe(now, c);
        AllSafeAppend(Published(root, run), r, c);
      }
      AllSafeAppend(root, p, Retention(root, run));
    }
  }

  lemma RemovedAreSnapshots(root: Root, run: Run)
    requires Lists(root, run.listing)
    ensures forall n :: n in Removed(run) ==> IsSnapshot(root, n) && EntryOf(root, n) in Stale(run.listing, run.keep)
  {
    hide Newer, Complete, SchemeOf;
    var stale := Stale(run.listing, run.keep);
    ReportNames(stale, run.stuck);
    StaleInListing(run.listing, run.keep);
    forall n | n in Removed(run)
      ensures IsSnapshot(root, n) && EntryOf(root, n) in stale
    {
      var e :| e in stale && e.name == n;
      assert e in Entries(root);
    }
  }

  /** Over steps that are safe, a generation live at both ends and not put there in between is untouched. */
  lemma {:induction false} LiveAtBothEnds(root: Root, ops: seq<Op>, g: string)
    requires AllSafe(root, ops)
    requires forall op :: op in ops && op.Put? ==> op.name != SnapshotName(g)
    requires Live(DoAll(root, ops), g)
    ensures Live(root, g) && SameGeneration(root, DoAll(root, ops), g)
  {
    hide SnapshotName, CorpusName, ManifestName;
    if ops != [] {
      var rest, last := ops[..|ops| - 1], ops[|ops| - 1];
      var before := DoAll(root, rest);
      forall k | 0 <= k < |rest|
        ensures Safe(DoAll(root, rest[..k]), rest[k])
      {
        assert rest[..k] == ops[..k];
      }
      assert last in ops && Safe(before, last);
      OneSafeStep(before, last, g);
      LiveAtBothEnds(root, rest, g);
    }
  }

  lemma OneSafeStep(root: Root, op: Op, g: string)
    requires Safe(root, op) && Live(Do(root, op), g)
    requires op.Put? ==> op.name != SnapshotName(g)
    ensures Live(root, g) && SameGeneration(root, Do(root, op), g)
  {
    hide CorpusName, ManifestName, SnapshotName, SchemeOf;
    assert Live(root, g);
  }

  // ---------------------------------------------------------------------
  // Any number of runs, each dying anywhere
  // ---------------------------------------------------------------------

  /** The directory, and what each published generation consisted of when it came out. */
  datatype World = World(root: Root, released: map<string, Staged>)

  function Next(w: World, run: Run): World {
    World(AfterRun(w.root, run),
          if Releases(w.root, run) then w.released[run.g := run.staged.value] else w.released)
  }

  function After(w: World, runs: seq<Run>): World {
    if runs == [] then w else Next(After(w, runs[..|runs| - 1]), runs[|runs| - 1])
  }

  ghost predicate AllPossible(w: World, runs: seq<Run>) {
    forall k :: 0 <= k < |runs| ==> Possible(After(w, runs[..k]).root, runs[k])
  }

  ghost predicate Whole(root: Root, g: string, s: Staged) {
    && SnapshotName(g) in root && root[SnapshotName(g)] == s.db
    && ManifestName(g) in root && root[ManifestName(g)] == s.manifest
    && (s.corpus.Some? ==> CorpusName(g) in root && root[CorpusName(g)] == s.corpus.value)
  }

  /** What was staged says of itself what it is: a complete generation over a file that holds something, and its
      manifest names the corpus beside it exactly when there is one. */
  ghost predicate TellsTruth(g: string, s: Staged) {
    && s.db.File? && s.db.size > 0 && s.manifest.File? && s.manifest.doc.Some? && s.manifest.doc.value.complete
    && (s.manifest.doc.value.memories.Some? <==> s.corpus.Some?)
    && (s.corpus.Some? ==> s.manifest.doc.value.memories == Some(CorpusName(g)))
  }

  /** Every released generation whose snapshot is still there is there whole: its manifest and the corpus that names. */
  ghost predicate Kept(w: World) {
    forall g :: g in w.released && Live(w.root, g) ==> Whole(w.root, g, w.released[g]) && TellsTruth(g, w.released[g])
  }

  lemma PossibleTellsTruth(root: Root, run: Run)
    requires Possible(root, run) && run.staged.Some?
    ensures TellsTruth(run.g, run.staged.value)
  {
    hide CorpusName, IsGeneration, Lists, Enumerates, SnapshotName;
  }

  lemma OnlyOwnPut(root: Root, run: Run, name: string)
    requires Possible(root, run) && name != run.g
    ensures forall op :: op in RunOps(root, run) && op.Put? ==> op.name != SnapshotName(name)
  {
    hide DoAll, SchemeOf, Newer, Stale, LiveGenerations, IsGeneration, CompanionOps, Complete, SnapshotName,
         CorpusName, ManifestName, Removes;
    if run.staged.Some? {
      var p, r := PublishOps(root, run.g, run.staged.value), Retention(root, run);
      RetentionPutsNothing(root, run);
      CompanionNamesAreOwn(name, run.g);
      SnapshotNamesAreOwn(name, run.g);
      assert forall op :: op in p && op.Put? ==>
        op.name == CorpusName(run.g) || op.name == ManifestName(run.g) || op.name == SnapshotName(run.g);
    }
  }

  lemma SnapshotNamesAreOwn(g: string, h: string)
    ensures SnapshotName(g) == SnapshotName(h) ==> g == h
  {
    ShowsItself(g);
    ShowsItself(h);
  }

  lemma PrefixSafe(root: Root, ops: seq<Op>, n: nat)
    requires AllSafe(root, ops) && n <= |ops|
    ensures AllSafe(root, ops[..n]) && AllSafe(DoAll(root, ops[..n]), ops[n..])
  {
    hide DoAll, Safe;
    forall k | 0 <= k < n
      ensures Safe(DoAll(root, ops[..n][..k]), ops[..n][k])
    {
      assert ops[..n][..k] == ops[..k];
    }
    forall k | 0 <= k < |ops| - n
      ensures Safe(DoAll(DoAll(root, ops[..n]), ops[n..][..k]), ops[n..][k])
    {
      DoAllSplit(root, ops[..n], ops[n..][..k]);
      assert ops[..n] + ops[n..][..k] == ops[..n + k];
    }
  }

  /** The whole of a generation is in place the moment its publication ends. */
  lemma PublishedIsWhole(root: Root, g: string, s: Staged)
    ensures Whole(DoAll(root, PublishOps(root, g, s)), g, s)
  {
    hide CorpusName, ManifestName, SnapshotName, DoAll, PublishOps;
    PublishShape(root, g, s);
    var ops := PublishOps(root, g, s);
    var n := |ops|;
    assert ops[..n] == ops;
    DoAllPrefix(root, ops, n - 1);
    DoAllPrefix(root, ops, n - 2);
    if s.corpus.Some? {
      DoAllPrefix(root, ops, n - 3);
    }
    LastPutsMakeWhole(DoAll(root, ops[..n - 2]), g, s);
  }

  lemma LastPutsMakeWhole(root: Root, g: string, s: Staged)
    requires s.corpus.Some? ==> CorpusName(g) in root && root[CorpusName(g)] == s.corpus.value
    ensures Whole(Do(Do(root, Put(ManifestName(g), s.manifest)), Put(SnapshotName(g), s.db)), g, s)
  {
    hide CorpusName, ManifestName, SnapshotName;
    CompanionNamesAreOwn(g, g);
  }

  lemma NextKeeps(w: World, run: Run)
    requires Kept(w) && Possible(w.root, run)
    ensures Kept(Next(w, run))
  {
    hide DoAll, SchemeOf, Newer, Stale, PublishOps, RunOps, Whole, Live, Possible, TellsTruth;
    var ops := RunOps(w.root, run);
    var n := Min(run.died, |ops|);
    var w' := Next(w, run);
    RunIsSafe(w.root, run);
    PrefixSafe(w.root, ops, n);
    forall g | g in w'.released && Live(w'.root, g)
      ensures Whole(w'.root, g, w'.released[g]) && TellsTruth(g, w'.released[g])
    {
      if g != run.g {
        OnlyOwnPut(w.root, run, g);
        LiveAtBothEnds(w.root, ops[..n], g);
        SameIsWhole(w.root, w'.root, g, w.released[g]);
      } else if Releases(w.root, run) {
        OwnReleaseIsWhole(w.root, run);
        PossibleTellsTruth(w.root, run);
      } else {
        NotReleasedIsNotThere(w.root, run);
      }
    }
  }

  lemma SameIsWhole(a: Root, b: Root, g: string, s: Staged)
    requires SameGeneration(a, b, g) && Whole(a, g, s)
    ensures Whole(b, g, s)
  {
  }

  lemma RunOpsBegin(root: Root, run: Run)
    requires run.staged.Some?
    ensures var p := PublishOps(root, run.g, run.staged.value);
            && |p| <= |RunOps(root, run)| && RunOps(root, run)[..|p|] == p
            && RunOps(root, run)[|p|..] == Retention(root, run)
  {
    hide PublishOps, Retention;
  }

  lemma RetentionPutsNothing(root: Root, run: Run)
    ensures forall op :: op in Retention(root, run) ==> !op.Put?
  {
    hide PublishOps, CompanionOps, Removes;
    if Releases(root, run) {
      RemovesShape(Removed(run));
      var now := RotatedOut(root, run);
      CompanionOpsShape(now, LiveGenerations(now), Some(run.g), run.order, run.quits);
    }
  }

  /** The part of its retention a run lives to. */
  function Lived(root: Root, run: Run): seq<Op>
    requires Releases(root, run)
  {
    var r := Retention(root, run);
    r[..Min(run.died - |PublishOps(root, run.g, run.staged.value)|, |r|)]
  }

  lemma AfterPublication(root: Root, run: Run)
    requires Possible(root, run) && Releases(root, run)
    ensures AfterRun(root, run) == DoAll(Published(root, run), Lived(root, run))
    ensures AllSafe(Published(root, run), Lived(root, run))
    ensures forall op :: op in Lived(root, run) ==> op in Retention(root, run) && !op.Put?
  {
    hide DoAll, PublishOps, RunOps, Retention, Possible, AllSafe;
    var ops := RunOps(root, run);
    var n := Min(run.died, |ops|);
    var p := |PublishOps(root, run.g, run.staged.value)|;
    RunIsSafe(root, run);
    RunOpsBegin(root, run);
    RetentionPutsNothing(root, run);
    PrefixSafe(root, ops, p);
    PrefixSafe(Published(root, run), ops[p..], n - p);
    DoAllSplit(root, ops[..p], ops[p..][..n - p]);
    assert ops[..p] + ops[p..][..n - p] == ops[..n];
  }

  lemma OwnReleaseIsWhole(root: Root, run: Run)
    requires Possible(root, run) && Releases(root, run) && Live(AfterRun(root, run), run.g)
    ensures Whole(AfterRun(root, run), run.g, run.staged.value)
  {
    hide DoAll, Whole, Live, Possible, AfterRun, Lived, PublishOps, AllSafe, SameGeneration;
    AfterPublication(root, run);
    PublishedIsWhole(root, run.g, run.staged.value);
    LiveAtBothEnds(Published(root, run), Lived(root, run), run.g);
    SameIsWhole(Published(root, run), AfterRun(root, run), run.g, run.staged.value);
  }

  lemma NotReleasedIsNotThere(root: Root, run: Run)
    requires Possible(root, run) && !Releases(root, run)
    ensures !Live(AfterRun(root, run), run.g)
  {
    hide DoAll, SchemeOf, PublishOps, SweepOps, CorpusName, ManifestName, SnapshotName;
    if run.staged.Some? {
      var ops := PublishOps(root, run.g, run.staged.value);
      RunOpsBegin(root, run);
      PublishShape(root, run.g, run.staged.value);
      CompanionNamesAreOwn(run.g, run.g);
      assert RunOps(root, run)[..run.died] == ops[..run.died];
      NamesUntouched(root, ops[..run.died], SnapshotName(run.g));
    } else {
      assert RunOps(root, run) == [];
      NamesUntouched(root, [], SnapshotName(run.g));
    }
  }

  /** Over any sequence of runs and crashes, a live snapshot that a run released still has its manifest and its
      corpus. */
  lemma {:induction false} LiveReleasesAreWhole(w: World, runs: seq<Run>)
    requires Kept(w) && AllPossible(w, runs)
    ensures Kept(After(w, runs))
  {
    hide Kept, Possible, Next;
    if runs != [] {
      var rest := runs[..|runs| - 1];
      forall k | 0 <= k < |rest|
        ensures Possible(After(w, rest[..k]).root, rest[k])
      {
        assert rest[..k] == runs[..k];
      }
      LiveReleasesAreWhole(w, rest);
      NextKeeps(After(w, rest), runs[|runs| - 1]);
    }
  }

  /** What is found of such a generation: the snapshot that was copied, and a manifest that says complete and names a
      corpus exactly when one was copied with it, which then is there as it was copied. */
  ghost predicate FoundAs(root: Root, g: string, db: Node, corpus: Option<Node>) {
    && SnapshotName(g) in root && root[SnapshotName(g)] == db
    && CompanionsFound(root, g, corpus)
  }

  ghost predicate CompanionsFound(root: Root, g: string, corpus: Option<Node>) {
    var manifest := ReadManifest(root, g);
    && manifest.Some? && manifest.value.complete
    && (manifest.value.memories.Some? <==> corpus.Some?)
    && (corpus.Some? ==>
          && manifest.value.memories == Some(CorpusName(g))
          && CorpusName(g) in root && root[CorpusName(g)] == corpus.value)
  }

  /** Over any sequence of runs and crashes: whoever restores a live generation that a run released finds the snapshot,
      the manifest and the corpus of that release. */
  lemma LiveReleasesAreFound(w: World, runs: seq<Run>, g: string)
    requires Kept(w) && AllPossible(w, runs)
    requires g in After(w, runs).released && Live(After(w, runs).root, g)
    ensures var s := After(w, runs).released[g]; FoundAs(After(w, runs).root, g, s.db, s.corpus)
  {
    hide After, AllPossible, CorpusName, ManifestName, SnapshotName;
    LiveReleasesAreWhole(w, runs);
  }

  /** The generation a run has just released keeps its manifest and its corpus through that run's own retention. */
  lemma OwnCompanionsStay(root: Root, run: Run)
    requires Possible(root, run) && Releases(root, run)
    ensures CompanionsFound(AfterRun(root, run), run.g, run.staged.value.corpus)
  {
    hide DoAll, PublishOps, Possible, AfterRun, Lived, AllSafe, Retention, CorpusName, ManifestName, SnapshotName;
    var s, mid, later := run.staged.value, Published(root, run), Lived(root, run);
    AfterPublication(root, run);
    PublishedIsWhole(root, run.g, s);
    PossibleTellsTruth(root, run);
    RetentionSparesOwn(root, run);
    NamesUntouched(mid, later, ManifestName(run.g));
    NamesUntouched(mid, later, CorpusName(run.g));
  }

  lemma OwnSnapshotStaysOrGoes(root: Root, run: Run)
    requires Possible(root, run) && Releases(root, run)
    ensures var after := AfterRun(root, run);
            SnapshotName(run.g) in after ==> after[SnapshotName(run.g)] == run.staged.value.db
  {
    hide DoAll, PublishOps, Possible, AfterRun, Lived, AllSafe, Retention, CorpusName, ManifestName, SnapshotName;
    AfterPublication(root, run);
    PublishedIsWhole(root, run.g, run.staged.value);
    PossibleTellsTruth(root, run);
    FilesStayOrGo(Published(root, run), Lived(root, run), SnapshotName(run.g));
  }

  lemma {:induction false} FilesStayOrGo(root: Root, ops: seq<Op>, name: string)
    requires name in root && root[name].File? && forall op :: op in ops ==> !op.Put?
    ensures name in DoAll(root, ops) ==> DoAll(root, ops)[name] == root[name]
  {
    if ops != [] {
      assert forall op :: op in ops[..|ops| - 1] ==> op in ops;
      FilesStayOrGo(root, ops[..|ops| - 1], name);
    }
  }

  lemma RetentionSparesOwn(root: Root, run: Run)
    requires Possible(root, run) && Releases(root, run)
    ensures forall op :: op in Retention(root, run) ==> op.name != ManifestName(run.g) && op.name != CorpusName(run.g)
  {
    hide DoAll, SchemeOf, PublishOps, Complete, Newer, Stale, Removes, CompanionOps, LiveGenerations, IsGeneration,
      ManifestName, CorpusName;
    var mid, now := Published(root, run), RotatedOut(root, run);
    RemovesShape(Removed(run));
    RemovedAreSnapshots(mid, run);
    CompanionOpsShape(now, LiveGenerations(now), Some(run.g), run.order, run.quits);
    NamesPairUp(run.g);
    LessTotal(run.g, run.g);
    forall n | n in Removed(run)
      ensures n != ManifestName(run.g) && n != CorpusName(run.g)
    {
      SnapshotStartsWithS(n);
      NamesDiffer(n, run.g);
    }
    forall op | op in Retention(root, run)
      ensures op.name != ManifestName(run.g) && op.name != CorpusName(run.g)
    {
      if op in SweepOps(root, run) {
        assert Doomed(LiveGenerations(now), Some(run.g), op.name);
        assert GenerationOf(ManifestName(run.g)) == GenerationOf(CorpusName(run.g)) == Some(run.g);
      } else {
        var removes := Removes(Removed(run));
        var i :| 0 <= i < |removes| && removes[i] == op;
        assert Removed(run)[i] in Removed(run);
      }
    }
  }

  /** A complete snapshot with fewer than `keep` newer complete ones outlives the run, wherever in its retention it
      dies. */
  lemma NewestSurvive(root: Root, run: Run, name: string)
    requires Possible(root, run) && Releases(root, run)
    requires var mid := Published(root, run);
             IsSnapshot(mid, name) && Complete(mid, name) && |NewerComplete(mid, EntryOf(mid, name))| < run.keep
    ensures var after := AfterRun(root, run);
            IsSnapshot(after, name) && after[name] == Published(root, run)[name] && Complete(after, name)
  {
    hide DoAll, SchemeOf, AfterRun, Lived, PublishOps, Retention, Possible, Complete, Newer, NewerComplete, AllSafe;
    var mid, later := Published(root, run), Lived(root, run);
    AfterPublication(root, run);
    RetentionSpares(root, run, name);
    NamesUntouched(mid, later, name);
    SameCompletenessIfLive(mid, later, name);
  }

  lemma SameCompletenessIfLive(root: Root, ops: seq<Op>, name: string)
    requires AllSafe(root, ops) && forall op :: op in ops ==> !op.Put?
    requires IsSnapshot(root, name) && IsSnapshot(DoAll(root, ops), name) && DoAll(root, ops)[name] == root[name]
    ensures Complete(DoAll(root, ops), name) == Complete(root, name)
  {
    hide DoAll, SchemeOf, AllSafe;
    match GenerationOf(name) {
      case None =>
      case Some(g) =>
        OnlyOwnSnapshotName(name, g);
        LiveAtBothEnds(root, ops, g);
    }
  }

  lemma RetentionSpares(root: Root, run: Run, name: string)
    requires Possible(root, run) && Releases(root, run)
    requires var mid := Published(root, run);
             IsSnapshot(mid, name) && Complete(mid, name) && |NewerComplete(mid, EntryOf(mid, name))| < run.keep
    ensures forall op :: op in Retention(root, run) ==> op.name != name
  {
    hide DoAll, SchemeOf, PublishOps, Complete, Newer, NewerComplete, Stale, Removes, CompanionOps, LiveGenerations,
      IsGeneration;
    var mid, now := Published(root, run), RotatedOut(root, run);
    RemovesShape(Removed(run));
    RemovedAreSnapshots(mid, run);
    var e := EntryOf(mid, name);
    assert e in Entries(mid);
    DroppedExactly(mid, run.listing, run.keep, e);
    CompanionOpsShape(now, LiveGenerations(now), Some(run.g), run.order, run.quits);
    forall op | op in SweepOps(root, run)
      ensures op.name != name
    {
      SnapshotStartsWithS(name);
      assert "memories-"[0] == 'm' && "backup-"[0] == 'b';
    }
  }

  /** A run that nothing disturbs leaves exactly the newest: of the snapshots that stood when its own had come out,
      those that were complete with fewer than `keep` newer complete ones, unchanged. */
  lemma NewestAreLeft(root: Root, run: Run, name: string)
    requires Possible(root, run) && Releases(root, run) && run.keep > 0
    requires run.stuck == {} && run.died >= |RunOps(root, run)|
    requires IsSnapshot(Published(root, run), name)
    ensures var mid, after := Published(root, run), AfterRun(root, run);
            && (name in after <==> Complete(mid, name) && |NewerComplete(mid, EntryOf(mid, name))| < run.keep)
            && (name in after ==> after[name] == mid[name])
  {
    hide DoAll, SchemeOf, PublishOps, CompanionOps, Removes, Newer, Stale, Complete, LiveGenerations, IsGeneration,
      Report, NewerComplete;
    var mid, now, ops := Published(root, run), RotatedOut(root, run), RunOps(root, run);
    assert ops[..|ops|] == ops;
    RunOpsBegin(root, run);
    DoAllSplit(root, PublishOps(root, run.g, run.staged.value), Retention(root, run));
    DoAllSplit(mid, Removes(Removed(run)), SweepOps(root, run));
    RemovesAll(mid, Removed(run));
    SurvivesExactly(mid, run.listing, run.keep, name);
    CompanionOpsShape(now, LiveGenerations(now), Some(run.g), run.order, run.quits);
    SweepSparesSnapshots(SweepOps(root, run), name);
    NamesUntouched(now, SweepOps(root, run), name);
  }

  lemma SweepSparesSnapshots(ops: seq<Op>, name: string)
    requires SchemeOf(name).Some? && forall op :: op in ops ==> IsCompanion(op.name)
    ensures forall i :: 0 <= i < |ops| ==> ops[i].name != name
  {
    hide SchemeOf;
    SnapshotStartsWithS(name);
    assert "memories-"[0] == 'm' && "backup-"[0] == 'b';
    assert forall i :: 0 <= i < |ops| ==> ops[i] in ops;
  }

  // ---------------------------------------------------------------------
  // Companions go when their snapshot does
  // ---------------------------------------------------------------------

  lemma {:induction false} NoPutsNoNames(root: Root, ops: seq<Op>, name: string)
    requires forall op :: op in ops ==> !op.Put?
    requires name !in root
    ensures name !in DoAll(root, ops)
  {
    if ops != [] {
      assert forall op :: op in ops[..|ops| - 1] ==> op in ops;
      NoPutsNoNames(root, ops[..|ops| - 1], name);
    }
  }

  lemma TornDown(root: Root, name: string, node: Node)
    ensures name !in DoAll(root, TearDown(name, node))
  {
    var ops := TearDown(name, node);
    assert ops[|ops| - 1] == Remove(name);
  }

  /** A sweep nothing interrupts takes away every doomed companion it was given. */
  lemma {:induction false} SweptAway(root: Root, live: set<string>, newest: Option<string>, order: seq<string>,
      name: string)
    requires name in order && Doomed(live, newest, name)
    ensures name !in DoAll(root, CompanionOps(root, live, newest, order, map[]))
  {
    hide DoAll, Doomed, TearDown;
    var rest, last := order[..|order| - 1], order[|order| - 1];
    var before := CompanionOps(root, live, newest, rest, map[]);
    var ops := CompanionOps(root, live, newest, order, map[]);
    CompanionOpsShape(root, live, newest, order, map[]);
    if name == last && name in root {
      DoAllSplit(root, before, TearDown(name, root[name]));
      TornDown(DoAll(root, before), name, root[name]);
    } else if name !in root {
      NoPutsNoNames(root, ops, name);
    } else {
      assert order == rest + [last];
      SweptAway(root, live, newest, rest, name);
      var own := ops[|before|..];
      assert ops == before + own;
      DoAllSplit(root, before, own);
      NoPutsNoNames(DoAll(root, before), own, name);
    }
  }

  /** After a run that nothing disturbed, every corpus and manifest belongs to a live snapshot or is no older than
      the run. */
  lemma CompanionsFollowSnapshots(root: Root, run: Run, g: string)
    requires Possible(root, run) && Releases(root, run)
    requires run.quits == map[] && run.died >= |RunOps(root, run)|
    requires "memories-" + g in AfterRun(root, run) || "backup-" + g + ".json" in AfterRun(root, run)
    ensures IsSnapshot(AfterRun(root, run), "sessions-" + g + ".db") || !Less(g, run.g)
  {
    hide AfterRun, RunOps, Possible, IsCompanion, SchemeOf, LiveGenerations;
    var after := AfterRun(root, run);
    var name := if CorpusName(g) in after then CorpusName(g) else ManifestName(g);
    assert IsCompanion(name) by { NamedCompanion(g); }
    NamesPairUp(g);
    CompanionFollows(root, run, name);
    if g in LiveGenerations(after) {
      LiveByName(after, g);
    }
  }

  lemma NamedCompanion(g: string)
    ensures IsCompanion(CorpusName(g)) && IsCompanion(ManifestName(g))
  {
    var m := ManifestName(g);
    assert CorpusName(g)[..9] == "memories-" && m[..7] == "backup-" && m[|m| - 5..] == ".json";
  }

  lemma LiveByName(root: Root, g: string)
    requires g in LiveGenerations(root)
    ensures IsSnapshot(root, SnapshotName(g))
  {
    var n :| n in root && IsSnapshot(root, n) && GenerationOf(n) == Some(g);
    OnlyOwnSnapshotName(n, g);
  }

  lemma CompanionFollows(root: Root, run: Run, name: string)
    requires Possible(root, run) && Releases(root, run)
    requires run.quits == map[] && run.died >= |RunOps(root, run)|
    requires name in AfterRun(root, run) && IsCompanion(name)
    ensures GenerationOf(name).Some?
    ensures GenerationOf(name).value in LiveGenerations(AfterRun(root, run)) || !Less(GenerationOf(name).value, run.g)
  {
    hide DoAll, SchemeOf, PublishOps, CompanionOps, Removes, Newer, Stale, Complete, LiveGenerations, IsGeneration;
    var mid, now, ops := Published(root, run), RotatedOut(root, run), RunOps(root, run);
    var live := LiveGenerations(now);
    assert ops[..|ops|] == ops;
    RunOpsBegin(root, run);
    DoAllSplit(root, PublishOps(root, run.g, run.staged.value), Retention(root, run));
    DoAllSplit(mid, Removes(Removed(run)), SweepOps(root, run));
    CompanionOpsShape(now, live, Some(run.g), run.order, run.quits);
    CompanionHasGeneration(name);
    if name in now && Doomed(live, Some(run.g), name) {
      SweptAway(now, live, Some(run.g), run.order, name);
    } else if name !in now {
      NoPutsNoNames(now, SweepOps(root, run), name);
    } else {
      SweepKeepsLive(now, SweepOps(root, run));
    }
  }

  lemma CompanionHasGeneration(name: string)
    requires IsCompanion(name)
    ensures GenerationOf(name).Some?
  {
    assert "memories-"[0] == 'm' && "backup-"[0] == 'b' && "sessions-"[0] == 's';
  }

  lemma SweepKeepsLive(root: Root, ops: seq<Op>)
    requires forall op :: op in ops ==> IsCompanion(op.name)
    ensures LiveGenerations(root) <= LiveGenerations(DoAll(root, ops))
  {
    hide DoAll, SchemeOf, GenerationOf;
    forall n | IsSnapshot(root, n)
      ensures IsSnapshot(DoAll(root, ops), n)
    {
      SnapshotStartsWithS(n);
      assert "memories-"[0] == 'm' && "backup-"[0] == 'b';
      forall i | 0 <= i < |ops|
        ensures ops[i].name != n
      {
        assert ops[i] in ops;
      }
      NamesUntouched(root, ops, n);
    }
  }
}
