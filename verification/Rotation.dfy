/** scripts/backup.py, retention: which snapshots a directory holds, which are complete, and which rotation drops. */
module Rotation {
  import opened Common
  import opened Snapshots

  // ---------------------------------------------------------------------
  // The backups directory
  // ---------------------------------------------------------------------

  /** What reading a manifest yields, and which corpus it names. */
  datatype Manifest = Manifest(complete: bool, memories: Option<string>)

  /** A directory entry. `doc` is the file read as a manifest, `files` a directory in the order it lists. */
  datatype Node =
    | File(size: nat, mtime: int, doc: Option<Manifest>)
    | Dir(size: nat, mtime: int, files: seq<string>)

  type Root = map<string, Node>

  function ReadManifest(root: Root, g: string): Option<Manifest> {
    if ManifestName(g) in root && root[ManifestName(g)].File? then root[ManifestName(g)].doc else None
  }

  /** Believe the manifest; without one, a file that holds anything is a backup from before there were manifests. */
  predicate Complete(root: Root, name: string)
    requires name in root
  {
    var manifest := if GenerationOf(name).Some? then ReadManifest(root, GenerationOf(name).value) else None;
    match manifest
    case Some(m) => m.complete
    case None => root[name].size > 0
  }

  /** Which snapshots count as complete, by their names: of the current scheme, what the manifest beside it says, if
      there is one that can be read; otherwise, and of the older schemes, whatever is not empty. */
  lemma CompleteExactly(root: Root, name: string)
    requires name in root && SchemeOf(name).Some?
    ensures forall g :: name == SnapshotName(g) && ReadManifest(root, g).Some? ==>
              (Complete(root, name) <==> ReadManifest(root, g).value.complete)
    ensures (forall g :: name == SnapshotName(g) ==> ReadManifest(root, g).None?) ==>
              (Complete(root, name) <==> root[name].size != 0)
  {
    forall g | name == SnapshotName(g)
      ensures GenerationOf(name) == Some(g)
    {
      assert name[..9] == "sessions-" && name[|name| - 3..] == ".db" && name[9..|name| - 3] == g;
      assert name[8] == '-' && "sessions."[8] == '.' && "sessions.db."[8] == '.';
      NamesPairUp(g);
    }
    if GenerationOf(name).Some? {
      OnlyOwnSnapshotName(name, GenerationOf(name).value);
    }
  }

  datatype Entry = Entry(name: string, mtime: int, bytes: nat, complete: bool)

  predicate IsSnapshot(root: Root, name: string) {
    name in root && root[name].File? && SchemeOf(name).Some?
  }

  function EntryOf(root: Root, name: string): Entry
    requires IsSnapshot(root, name)
  {
    Entry(name, root[name].mtime, root[name].size, Complete(root, name))
  }

  function Entries(root: Root): set<Entry> {
    set n | n in root && IsSnapshot(root, n) :: EntryOf(root, n)
  }

  /** Newest first by time, then by name. */
  predicate Newer(a: Entry, b: Entry) {
    a.mtime > b.mtime || (a.mtime == b.mtime && Less(b.name, a.name))
  }

  ghost predicate Descending(s: seq<Entry>) {
    forall i, j :: 0 <= i < j < |s| ==> Newer(s[i], s[j])
  }

  /** s is what list_snapshots answers for this directory. */
  ghost predicate Lists(root: Root, s: seq<Entry>) {
    Descending(s) && forall e :: e in s <==> e in Entries(root)
  }

  lemma NewerTransitive(a: Entry, b: Entry, c: Entry)
    requires Newer(a, b) && Newer(b, c)
    ensures Newer(a, c)
  {
    if a.mtime == c.mtime {
      LessTransitive(c.name, b.name, a.name);
    }
  }

  lemma NewerTotal(a: Entry, b: Entry)
    ensures !(Newer(a, b) && Newer(b, a))
    ensures a.name != b.name ==> Newer(a, b) || Newer(b, a)
  {
    LessTotal(a.name, b.name);
  }

  /** There is one listing of a directory. */
  lemma {:induction false} ListingIsUnique(s: seq<Entry>, t: seq<Entry>)
    requires Descending(s) && Descending(t)
    requires forall e :: e in s <==> e in t
    ensures s == t
    decreases |s|
  {
    hide Newer;
    assert t != [] ==> t[0] in t;
    assert s != [] ==> s[0] in s;
    if s != [] {
      if s[0] != t[0] {
        var i :| 0 <= i < |t| && t[i] == s[0];
        var j :| 0 <= j < |s| && s[j] == t[0];
        assert Newer(t[0], t[i]) && Newer(s[0], s[j]);
        NewerTotal(s[0], t[0]);
      }
      TailMembers(s);
      TailMembers(t);
      ListingIsUnique(s[1..], t[1..]);
      assert s == [s[0]] + s[1..] && t == [t[0]] + t[1..];
    }
  }

  lemma TailMembers(s: seq<Entry>)
    requires Descending(s) && s != []
    ensures forall e :: e in s[1..] <==> e in s && e != s[0]
    ensures Descending(s[1..])
  {
    hide Newer;
    forall i | 0 < i < |s|
      ensures s[i] != s[0]
    {
      NewerTotal(s[i], s[0]);
      assert Newer(s[0], s[i]);
    }
  }

  // ---------------------------------------------------------------------
  // Listing
  // ---------------------------------------------------------------------

  /** One entry put where the sort would put it. */
  function Inserted(s: seq<Entry>, e: Entry): seq<Entry> {
    if s == [] || Newer(e, s[0]) then [e] + s else [s[0]] + Inserted(s[1..], e)
  }

  lemma {:induction false} InsertedSorts(s: seq<Entry>, e: Entry)
    requires Descending(s)
    requires forall x :: x in s ==> x.name != e.name
    ensures Descending(Inserted(s, e))
    ensures forall x :: x in Inserted(s, e) <==> x == e || x in s
  {
    if s != [] {
      NewerTotal(e, s[0]);
      if Newer(e, s[0]) {
        forall j | 0 <= j < |s|
          ensures Newer(e, s[j])
        {
          if j > 0 {
            NewerTransitive(e, s[0], s[j]);
          }
        }
      } else {
        InsertedSorts(s[1..], e);
        var rest := Inserted(s[1..], e);
        forall j | 0 <= j < |rest|
          ensures Newer(s[0], rest[j])
        {
          assert rest[j] in rest;
          assert s[1..] == s[1..|s|];
        }
      }
    }
  }

  method ListSnapshots(root: Root) returns (found: seq<Entry>)
    ensures Lists(root, found)
  {
    hide Newer, Complete, SchemeOf, Inserted;
    found := [];
    var left := root.Keys;
    while left != {}
      invariant left <= root.Keys
      invariant Descending(found)
      invariant forall e :: e in found <==>
                exists n :: n in root.Keys - left && IsSnapshot(root, n) && e == EntryOf(root, n)
    {
      var name :| name in left;
      ghost var before := found;
      left := left - {name};
      if IsSnapshot(root, name) {
        InsertedSorts(found, EntryOf(root, name));
        found := Inserted(found, EntryOf(root, name));
      }
    }
  }

  // ---------------------------------------------------------------------
  // Keeping the newest
  // ---------------------------------------------------------------------

  function CompleteIn(s: seq<Entry>): nat {
    if s == [] then 0
    else CompleteIn(s[..|s| - 1]) + if s[|s| - 1].complete then 1 else 0
  }

  /** What one pass over a listing selects for removal. */
  function Stale(s: seq<Entry>, keep: int): seq<Entry> {
    if keep <= 0 || s == [] then []
    else
      var rest, last := s[..|s| - 1], s[|s| - 1];
      Stale(rest, keep) + if last.complete && CompleteIn(rest) < keep then [] else [last]
  }

  method SnapshotsBeyondKeep(keep: int, snapshots: seq<Entry>) returns (stale: seq<Entry>)
    ensures stale == Stale(snapshots, keep)
  {
    if keep <= 0 {
      return [];
    }
    stale := [];
    var kept := 0;
    for i := 0 to |snapshots|
      invariant stale == Stale(snapshots[..i], keep)
      invariant kept == Min(keep, CompleteIn(snapshots[..i]))
    {
      assert snapshots[..i + 1][..i] == snapshots[..i];
      if !snapshots[i].complete {
        stale := stale + [snapshots[i]];
      } else if kept < keep {
        kept := kept + 1;
      } else {
        stale := stale + [snapshots[i]];
      }
    }
    assert snapshots[..|snapshots|] == snapshots;
  }

  function NewerComplete(root: Root, e: Entry): set<Entry> {
    set c | c in Entries(root) && c.complete && Newer(c, e)
  }

  lemma {:induction false} StaleAt(s: seq<Entry>, keep: int, i: nat)
    requires Descending(s) && i < |s| && keep > 0
    ensures s[i] in Stale(s, keep) <==> !s[i].complete || CompleteIn(s[..i]) >= keep
    decreases |s|
  {
    hide Newer, Descending, CompleteOf;
    var rest := s[..|s| - 1];
    LastIsNew(s);
    StaleInListing(rest, keep);
    if i < |rest| {
      StaleAt(rest, keep, i);
      assert rest[..i] == s[..i] && rest[i] in rest;
    }
  }

  ghost function CompleteOf(s: seq<Entry>): set<Entry> {
    set e | e in s && e.complete
  }

  lemma LastIsNew(s: seq<Entry>)
    requires Descending(s) && s != []
    ensures s[|s| - 1] !in s[..|s| - 1]
    ensures Descending(s[..|s| - 1])
    ensures CompleteOf(s) == CompleteOf(s[..|s| - 1]) + if s[|s| - 1].complete then {s[|s| - 1]} else {}
  {
    hide Newer;
    var rest, last := s[..|s| - 1], s[|s| - 1];
    assert s == rest + [last];
    forall i | 0 <= i < |rest|
      ensures rest[i] != last
    {
      NewerTotal(s[i], last);
      assert Newer(s[i], s[|s| - 1]);
    }
  }

  lemma {:induction false} CompleteCounted(s: seq<Entry>)
    requires Descending(s)
    ensures CompleteIn(s) == |CompleteOf(s)|
  {
    hide Newer, Descending;
    if s != [] {
      LastIsNew(s);
      CompleteCounted(s[..|s| - 1]);
    } else {
      assert CompleteOf(s) == {};
    }
  }

  lemma BeforeIsNewer(root: Root, s: seq<Entry>, i: nat)
    requires Lists(root, s) && i < |s|
    ensures CompleteOf(s[..i]) == NewerComplete(root, s[i])
    ensures Descending(s[..i])
  {
    hide Newer, Entries;
    forall c
      ensures c in CompleteOf(s[..i]) <==> c in NewerComplete(root, s[i])
    {
      if c in CompleteOf(s[..i]) {
        var j :| 0 <= j < i && s[j] == c;
        assert Newer(s[j], s[i]) && s[j] in s;
      }
      if c in NewerComplete(root, s[i]) {
        assert c in s;
        var j :| 0 <= j < |s| && s[j] == c;
        if j >= i {
          assert j > i ==> Newer(s[i], s[j]);
          NewerTotal(s[j], s[i]);
        } else {
          assert s[..i][j] == c;
        }
      }
    }
  }

  /** Rotation drops exactly the incomplete snapshots and those with `keep` newer complete ones, whatever their
      scheme. */
  lemma DroppedExactly(root: Root, s: seq<Entry>, keep: int, e: Entry)
    requires Lists(root, s) && e in Entries(root)
    ensures e in Stale(s, keep) <==> keep > 0 && (!e.complete || |NewerComplete(root, e)| >= keep)
  {
    hide Newer, Entries, CompleteOf, NewerComplete;
    if keep > 0 {
      assert e in s;
      var i :| 0 <= i < |s| && s[i] == e;
      StaleAt(s, keep, i);
      BeforeIsNewer(root, s, i);
      CompleteCounted(s[..i]);
    }
  }

  /** How many complete snapshots are left standing: all of them up to `keep`. */
  lemma {:induction false} KeptCount(s: seq<Entry>, keep: int)
    requires keep > 0
    ensures CompleteIn(s) - CompleteIn(Stale(s, keep)) == Min(keep, CompleteIn(s))
    ensures |s| - |Stale(s, keep)| == Min(keep, CompleteIn(s))
  {
    if s != [] {
      var rest, last := s[..|s| - 1], s[|s| - 1];
      KeptCount(rest, keep);
      var t := Stale(rest, keep);
      var u := t + [last];
      assert u[..|u| - 1] == t && u[|u| - 1] == last && t + [] == t;
    }
  }

  // ---------------------------------------------------------------------
  // rotate
  // ---------------------------------------------------------------------

  datatype Rotated = Rotated(removed: seq<string>, freed: nat, kept: int)

  /** What rotation reports when the files in `stuck` cannot be unlinked. */
  function Report(stale: seq<Entry>, stuck: set<string>): (seq<string>, nat) {
    if stale == [] then ([], 0)
    else
      var (names, freed) := Report(stale[..|stale| - 1], stuck);
      var last := stale[|stale| - 1];
      if last.name in stuck then (names, freed) else (names + [last.name], freed + last.bytes)
  }

  lemma {:induction false} ReportNames(stale: seq<Entry>, stuck: set<string>)
    ensures forall n :: n in Report(stale, stuck).0 <==> n !in stuck && exists e :: e in stale && e.name == n
    ensures |Report(stale, stuck).0| <= |stale|
    ensures stuck == {} ==> |Report(stale, stuck).0| == |stale|
  {
    if stale != [] {
      var rest, last := stale[..|stale| - 1], stale[|stale| - 1];
      ReportNames(rest, stuck);
      assert stale == rest + [last];
    }
  }

  /** How many bytes the listed snapshots with these names hold. */
  function BytesIn(s: seq<Entry>, names: set<string>): nat {
    if s == [] then 0
    else BytesIn(s[..|s| - 1], names) + if s[|s| - 1].name in names then s[|s| - 1].bytes else 0
  }

  lemma {:induction false} BytesOfOthers(s: seq<Entry>, names: set<string>, more: set<string>)
    requires forall e :: e in s ==> (e.name in names <==> e.name in more)
    ensures BytesIn(s, names) == BytesIn(s, more)
  {
    if s != [] {
      BytesOfOthers(s[..|s| - 1], names, more);
    }
  }

  /** What is freed is what the removed ones held: the rest of the listing holds exactly that much less. */
  lemma {:induction false} FreedExactly(s: seq<Entry>, keep: int, stuck: set<string>, all: set<string>)
    requires forall i, j :: 0 <= i < j < |s| ==> s[i].name != s[j].name
    requires forall e :: e in s ==> e.name in all
    ensures var (removed, freed) := Report(Stale(s, keep), stuck);
            BytesIn(s, all) == BytesIn(s, all - (set n | n in removed)) + freed
  {
    var gone := set n | n in Report(Stale(s, keep), stuck).0;
    if keep <= 0 || s == [] {
      assert gone == {};
      assert all - gone == all;
    } else {
      hide Report, Stale;
      var rest, last := s[..|s| - 1], s[|s| - 1];
      FreedExactly(rest, keep, stuck, all);
      var before := set n | n in Report(Stale(rest, keep), stuck).0;
      ReportStep(s, keep, stuck);
      ReportNames(Stale(rest, keep), stuck);
      StaleInListing(rest, keep);
      forall e | e in rest
        ensures e.name != last.name
      {
        var i :| 0 <= i < |rest| && rest[i] == e;
        assert s[i] == e;
      }
      assert last.name !in before && last in s;
      BytesOfOthers(rest, all - gone, all - before);
    }
  }

  /** One more listed snapshot: nothing more is reported, or its name and its bytes. */
  lemma ReportStep(s: seq<Entry>, keep: int, stuck: set<string>)
    requires keep > 0 && s != []
    ensures var (names, freed) := Report(Stale(s[..|s| - 1], keep), stuck);
            var last := s[|s| - 1];
            || Report(Stale(s, keep), stuck) == (names, freed)
            || Report(Stale(s, keep), stuck) == (names + [last.name], freed + last.bytes)
  {
    var t, last := Stale(s[..|s| - 1], keep), s[|s| - 1];
    assert (t + [last])[..|t|] == t && t + [] == t;
  }

  /** rotate over a directory; a dry run touches nothing and no unlink fails in it. */
  method Rotate(root: Root, keep: int, dryRun: bool, stuck: set<string>) returns (after: Root, report: Rotated)
    ensures exists s :: Lists(root, s)
                        && (report.removed, report.freed) == Report(Stale(s, keep), if dryRun then {} else stuck)
                        && report.kept == |s| - |report.removed|
    ensures after == if dryRun then root else root - (set n | n in report.removed)
  {
    hide Newer, Stale, Entries;
    var snapshots := ListSnapshots(root);
    var stale := SnapshotsBeyondKeep(keep, snapshots);
    var removed: seq<string> := [];
    var freed := 0;
    after := root;
    for i := 0 to |stale|
      invariant (removed, freed) == Report(stale[..i], if dryRun then {} else stuck)
      invariant after == if dryRun then root else root - (set n | n in removed)
    {
      var entry := stale[i];
      assert stale[..i + 1][..i] == stale[..i];
      if dryRun {
        removed := removed + [entry.name];
        freed := freed + entry.bytes;
      } else if entry.name !in stuck {
        after := after - {entry.name};
        removed := removed + [entry.name];
        freed := freed + entry.bytes;
      }
    }
    assert stale[..|stale|] == stale;
    report := Rotated(removed, freed, |snapshots| - |removed|);
  }

  /** After a rotation in which every unlink succeeds, a snapshot is there iff it was complete and among the newest. */
  lemma SurvivesExactly(root: Root, s: seq<Entry>, keep: int, name: string)
    requires Lists(root, s) && IsSnapshot(root, name)
    ensures var removed := Report(Stale(s, keep), {}).0;
            name in root - (set n | n in removed)
            <==> keep <= 0 || (Complete(root, name) && |NewerComplete(root, EntryOf(root, name))| < keep)
  {
    hide Newer, Complete, SchemeOf;
    var e := EntryOf(root, name);
    assert e in Entries(root);
    DroppedExactly(root, s, keep, e);
    ReportNames(Stale(s, keep), {});
    if keep > 0 {
      forall x | x in Stale(s, keep) && x.name == name
        ensures x == e
      {
        StaleInListing(s, keep);
        assert x in Entries(root);
      }
    }
  }

  lemma {:induction false} StaleInListing(s: seq<Entry>, keep: int)
    ensures forall e :: e in Stale(s, keep) ==> e in s
  {
    if keep > 0 && s != [] {
      StaleInListing(s[..|s| - 1], keep);
    }
  }
}
