/** scripts/backup.py: the names backups wear, which of them are complete, and which of them rotation keeps. */
module Snapshots {
  import opened Common

  // ---------------------------------------------------------------------
  // Text
  // ---------------------------------------------------------------------

  predicate StartsWith(s: string, prefix: string) {
    prefix <= s
  }

  predicate EndsWith(s: string, suffix: string) {
    |suffix| <= |s| && s[|s| - |suffix|..] == suffix
  }

  predicate IsDigit(c: char) {
    '0' <= c <= '9'
  }

  predicate AllDigits(s: string) {
    forall i :: 0 <= i < |s| ==> IsDigit(s[i])
  }

  /** Python's order on strings. */
  predicate Less(a: string, b: string) {
    if b == [] then false
    else if a == [] then true
    else a[0] < b[0] || (a[0] == b[0] && Less(a[1..], b[1..]))
  }

  lemma {:induction false} LessTotal(a: string, b: string)
    ensures a != b ==> (Less(a, b) <==> !Less(b, a))
    ensures !Less(a, a)
  {
    if a != [] {
      LessTotal(a[1..], a[1..]);
      if b != [] {
        LessTotal(a[1..], b[1..]);
        if a[1..] == b[1..] && a[0] == b[0] {
          assert a == [a[0]] + a[1..] == b;
        }
      }
    }
  }

  lemma {:induction false} LessTransitive(a: string, b: string, c: string)
    requires Less(a, b) && Less(b, c)
    ensures Less(a, c)
  {
    if a != [] && a[0] == b[0] == c[0] {
      LessTransitive(a[1..], b[1..], c[1..]);
    }
  }

  lemma {:induction false} LessAfterPrefix(p: string, a: string, b: string)
    ensures Less(p + a, p + b) == Less(a, b)
  {
    if p == [] {
      assert p + a == a && p + b == b;
    } else {
      assert (p + a)[1..] == p[1..] + a && (p + b)[1..] == p[1..] + b;
      LessAfterPrefix(p[1..], a, b);
    }
  }

  // ---------------------------------------------------------------------
  // Names
  // ---------------------------------------------------------------------

  datatype Scheme = Stamped | Iso | Suffixed

  /** Eight digits, a dash, six digits. */
  predicate IsStamp(s: string) {
    |s| == 15 && AllDigits(s[..8]) && s[8] == '-' && AllDigits(s[9..])
  }

  /** A stamp, perhaps with a same-second counter. */
  predicate IsGeneration(g: string) {
    && |g| >= 15 && IsStamp(g[..15])
    && (|g| > 15 ==> g[15] == '_' && |g| > 16 && AllDigits(g[16..]))
  }

  predicate IsIsoStamp(s: string) {
    || (|s| >= 11 && AllDigits(s[..4]) && s[4] == '-' && AllDigits(s[5..7]) && s[7] == '-' && AllDigits(s[8..10])
        && (s[10] == 'T' || s[10] == '_')
        && forall i :: 11 <= i < |s| ==> IsDigit(s[i]) || s[i] in {':', '.', '-', '+', 'T'})
    || (|s| == 16 && AllDigits(s[..8]) && s[8] == 'T' && AllDigits(s[9..15]) && s[15] == 'Z')
  }

  predicate Wraps(prefix: string, name: string, suffix: string) {
    |prefix| + |suffix| <= |name| && StartsWith(name, prefix) && EndsWith(name, suffix)
  }

  function Inside(prefix: string, name: string, suffix: string): string
    requires Wraps(prefix, name, suffix)
  {
    name[|prefix|..|name| - |suffix|]
  }

  function SchemeOf(name: string): Option<Scheme> {
    if Wraps("sessions-", name, ".db") && IsGeneration(Inside("sessions-", name, ".db")) then Some(Stamped)
    else if Wraps("sessions.", name, ".db") && IsIsoStamp(Inside("sessions.", name, ".db")) then Some(Iso)
    else if Wraps("sessions.db.", name, "") && IsStamp(Inside("sessions.db.", name, "")) then Some(Suffixed)
    else None
  }

  function SnapshotName(g: string): string { "sessions-" + g + ".db" }
  function CorpusName(g: string): string { "memories-" + g }
  function ManifestName(g: string): string { "backup-" + g + ".json" }

  function GenerationOf(name: string): Option<string> {
    if Wraps("sessions-", name, ".db") && SchemeOf(name) == Some(Stamped) then Some(Inside("sessions-", name, ".db"))
    else if StartsWith(name, "memories-") then Some(name[9..])
    else if Wraps("backup-", name, ".json") then Some(Inside("backup-", name, ".json"))
    else None
  }

  // ---------------------------------------------------------------------
  // The same names, written out
  // ---------------------------------------------------------------------

  lemma StampExactly(s: string)
    ensures IsStamp(s) <==> exists d: string, t: string ::
              |d| == 8 && |t| == 6 && AllDigits(d) && AllDigits(t) && s == d + "-" + t
  {
    if IsStamp(s) {
      assert s == s[..8] + "-" + s[9..];
    }
    if d: string, t: string :| |d| == 8 && |t| == 6 && AllDigits(d) && AllDigits(t) && s == d + "-" + t {
      assert s[..8] == d && s[9..] == t;
    }
  }

  lemma GenerationExactly(g: string)
    ensures IsGeneration(g) <==>
            || IsStamp(g)
            || exists stamp: string, counter: string ::
                 IsStamp(stamp) && counter != [] && AllDigits(counter) && g == stamp + "_" + counter
  {
    hide IsStamp;
    StampLength(g);
    if IsGeneration(g) && |g| > 15 {
      assert g == g[..15] + "_" + g[16..];
    }
    if IsGeneration(g) && |g| == 15 {
      assert g[..15] == g;
    }
    if stamp: string, counter: string :|
      IsStamp(stamp) && counter != [] && AllDigits(counter) && g == stamp + "_" + counter {
      StampLength(stamp);
      assert g[..15] == stamp && g[16..] == counter;
    }
  }

  lemma StampLength(s: string)
    ensures IsStamp(s) ==> |s| == 15 && s[..15] == s
  {
  }

  /** Digits in these places, with these characters between them. */
  predicate IsDate(y: string, m: string, d: string) {
    |y| == 4 && |m| == 2 && |d| == 2 && AllDigits(y) && AllDigits(m) && AllDigits(d)
  }

  predicate IsClock(rest: string) {
    forall i :: 0 <= i < |rest| ==> IsDigit(rest[i]) || rest[i] in {':', '.', '-', '+', 'T'}
  }

  lemma IsoStampExactly(s: string)
    ensures IsIsoStamp(s) <==>
            || (exists y: string, m: string, d: string, at: char, rest: string ::
                  IsDate(y, m, d) && at in {'T', '_'} && IsClock(rest) && s == y + "-" + m + "-" + d + [at] + rest)
            || (exists d: string, t: string ::
                  |d| == 8 && |t| == 6 && AllDigits(d) && AllDigits(t) && s == d + "T" + t + "Z")
  {
    if IsIsoStamp(s) {
      if |s| == 16 && AllDigits(s[..8]) && s[8] == 'T' && AllDigits(s[9..15]) && s[15] == 'Z' {
        assert s == s[..8] + "T" + s[9..15] + "Z";
      } else {
        var y, m, d, rest := s[..4], s[5..7], s[8..10], s[11..];
        assert IsDate(y, m, d) && IsClock(rest);
        assert s == y + "-" + m + "-" + d + [s[10]] + rest;
      }
    }
    if y: string, m: string, d: string, at: char, rest: string :|
      IsDate(y, m, d) && at in {'T', '_'} && IsClock(rest) && s == y + "-" + m + "-" + d + [at] + rest {
      assert s[..4] == y && s[5..7] == m && s[8..10] == d && s[11..] == rest;
    }
    if d: string, t: string :|
      |d| == 8 && |t| == 6 && AllDigits(d) && AllDigits(t) && s == d + "T" + t + "Z" {
      assert s[..8] == d && s[9..15] == t;
    }
  }

  /** A name is of a scheme exactly when it is that scheme's frame around a stamp of its kind. */
  lemma SchemeExactly(name: string)
    ensures SchemeOf(name) == Some(Stamped) <==> exists g: string :: IsGeneration(g) && name == "sessions-" + g + ".db"
    ensures SchemeOf(name) == Some(Iso) <==> exists g: string :: IsIsoStamp(g) && name == "sessions." + g + ".db"
    ensures SchemeOf(name) == Some(Suffixed) <==> exists g: string :: IsStamp(g) && name == "sessions.db." + g
  {
    hide IsGeneration, IsIsoStamp;
    assert "sessions-"[8] == '-' && "sessions."[8] == '.' && "sessions.db."[8] == '.';
    FramedExactly("sessions-", name, ".db");
    FramedExactly("sessions.", name, ".db");
    FramedExactly("sessions.db.", name, "");
    forall g: string | IsStamp(g)
      ensures name != "sessions.db." + g || !Wraps("sessions.", name, ".db")
    {
      if name == "sessions.db." + g {
        assert name[|name| - 1] == g[14] && IsDigit(g[9..][5]);
        assert ".db"[2] == 'b' && name[|name| - 3..][2] == name[|name| - 1];
      }
    }
    forall g: string
      ensures name == "sessions.db." + g ==> name == "sessions.db." + g + ""
    {
    }
  }

  lemma FramedExactly(prefix: string, name: string, suffix: string)
    ensures Wraps(prefix, name, suffix) ==> name == prefix + Inside(prefix, name, suffix) + suffix
    ensures forall g: string :: name == prefix + g + suffix ==>
              Wraps(prefix, name, suffix) && Inside(prefix, name, suffix) == g
  {
    if Wraps(prefix, name, suffix) {
      assert name == name[..|prefix|] + name[|prefix|..|name| - |suffix|] + name[|name| - |suffix|..];
    }
    forall g: string | name == prefix + g + suffix
      ensures Wraps(prefix, name, suffix) && Inside(prefix, name, suffix) == g
    {
      assert name[..|prefix|] == prefix && name[|name| - |suffix|..] == suffix;
    }
  }

  /** The three artifacts of a generation answer that generation, and only they do. */
  lemma NamesPairUp(g: string)
    ensures GenerationOf(CorpusName(g)) == Some(g) && SchemeOf(CorpusName(g)) == None
    ensures GenerationOf(ManifestName(g)) == Some(g) && SchemeOf(ManifestName(g)) == None
    ensures IsGeneration(g) ==> SchemeOf(SnapshotName(g)) == Some(Stamped) && GenerationOf(SnapshotName(g)) == Some(g)
  {
    var c, m, s := CorpusName(g), ManifestName(g), SnapshotName(g);
    assert c[0] == 'm' && m[0] == 'b' && "sessions"[0] == 's';
    assert c[..9] == "memories-" && c[9..] == g;
    assert m[..7] == "backup-" && m[|m| - 5..] == ".json" && m[7..|m| - 5] == g;
    assert s[..9] == "sessions-" && s[|s| - 3..] == ".db" && s[9..|s| - 3] == g;
  }

  lemma OnlyOwnSnapshotName(name: string, g: string)
    requires SchemeOf(name).Some? && GenerationOf(name) == Some(g)
    ensures name == SnapshotName(g) && IsGeneration(g)
  {
    assert "sessions"[0] == 's' && "memories-"[0] == 'm' && "backup-"[0] == 'b';
    assert name[0] == 's' by {
      assert name[..8] == "sessions";
    }
    assert name == name[..9] + name[9..|name| - 3] + name[|name| - 3..];
  }

  // ---------------------------------------------------------------------
  // A fresh name for a new generation
  // ---------------------------------------------------------------------

  function Dec(n: nat): string {
    (if n < 10 then [] else Dec(n / 10)) + ['0' + (n % 10) as char]
  }

  function Parse(s: string): nat
    requires AllDigits(s)
  {
    if s == [] then 0 else 10 * Parse(s[..|s| - 1]) + (s[|s| - 1] - '0') as nat
  }

  /** The counter as it is written: at least three digits. */
  function Pad(n: nat): string {
    (if n < 10 then "00" else if n < 100 then "0" else "") + Dec(n)
  }

  lemma {:induction false} ParseDec(n: nat)
    ensures AllDigits(Dec(n)) && Dec(n) != [] && Parse(Dec(n)) == n
  {
    if n >= 10 {
      ParseDec(n / 10);
      assert Dec(n)[..|Dec(n)| - 1] == Dec(n / 10);
    }
  }

  lemma {:induction false} LeadingZero(s: string)
    requires AllDigits(s)
    ensures AllDigits("0" + s) && Parse("0" + s) == Parse(s)
  {
    if s != [] {
      LeadingZero(s[..|s| - 1]);
      assert ("0" + s)[..|s|] == "0" + s[..|s| - 1];
    } else {
      assert ("0" + s)[..0] == [];
    }
  }

  /** A counter after its leading zeros. */
  lemma ParsePad(n: nat)
    ensures AllDigits(Pad(n)) && Pad(n) != [] && Parse(Pad(n)) == n
  {
    hide Dec, Parse, AllDigits;
    ParseDec(n);
    LeadingZero(Dec(n));
    LeadingZero("0" + Dec(n));
    assert "0" + ("0" + Dec(n)) == "00" + Dec(n);
    assert "" + Dec(n) == Dec(n);
  }

  /** The same-second counter a name in the directory uses up; the plain name uses zero. */
  function CounterUsed(name: string, stamp: string): Option<nat> {
    var stem := "sessions-" + stamp;
    if name == stem + ".db" then Some(0)
    else if !StartsWith(name, stem) then None
    else
      var rest := name[|stem|..];
      var tail := if EndsWith(rest, ".db") then rest[..|rest| - 3] else rest;
      if |tail| >= 2 && tail[0] == '_' && AllDigits(tail[1..]) then Some(Parse(tail[1..])) else None
  }

  /** The counters a name uses up: zero if it is the plain one, otherwise the number written after its underscore, with
      or without the ending. */
  lemma CounterUsedExactly(name: string, stamp: string, k: nat)
    ensures CounterUsed(name, stamp) == Some(k) <==>
            || (k == 0 && name == "sessions-" + stamp + ".db")
            || exists digits: string ::
                 && digits != [] && AllDigits(digits) && Parse(digits) == k
                 && (name == "sessions-" + stamp + "_" + digits || name == "sessions-" + stamp + "_" + digits + ".db")
  {
    hide Parse, CounterUsed;
    if CounterUsed(name, stamp) == Some(k) && name != "sessions-" + stamp + ".db" {
      var digits := CounterWritten(name, stamp, k);
    }
    if digits: string :|
      && digits != [] && AllDigits(digits) && Parse(digits) == k
      && (name == "sessions-" + stamp + "_" + digits || name == "sessions-" + stamp + "_" + digits + ".db") {
      NumberedCounter(name, stamp, digits);
    }
    PlainCounter(stamp);
    assert CounterUsed(name, stamp) == Some(k) && name == "sessions-" + stamp + ".db" ==> k == 0;
  }

  lemma PlainCounter(stamp: string)
    ensures CounterUsed("sessions-" + stamp + ".db", stamp) == Some(0)
  {
  }

  lemma CounterWritten(name: string, stamp: string, k: nat) returns (digits: string)
    requires CounterUsed(name, stamp) == Some(k) && name != "sessions-" + stamp + ".db"
    ensures digits != [] && AllDigits(digits) && Parse(digits) == k
    ensures name == "sessions-" + stamp + "_" + digits || name == "sessions-" + stamp + "_" + digits + ".db"
  {
    hide Parse, AllDigits, IsDigit;
    var stem := "sessions-" + stamp;
    var rest := name[|stem|..];
    var tail := if EndsWith(rest, ".db") then rest[..|rest| - 3] else rest;
    digits := tail[1..];
    assert name == stem + rest;
    TailWritten(stem, rest, tail, digits);
  }

  lemma TailWritten(stem: string, rest: string, tail: string, digits: string)
    requires tail == if EndsWith(rest, ".db") then rest[..|rest| - 3] else rest
    requires |tail| >= 1 && tail[0] == '_' && digits == tail[1..]
    ensures stem + rest == stem + "_" + digits || stem + rest == stem + "_" + digits + ".db"
  {
    assert tail == "_" + digits;
    if EndsWith(rest, ".db") {
      assert rest == tail + ".db";
      assert stem + rest == stem + "_" + digits + ".db";
    } else {
      assert stem + rest == stem + "_" + digits;
    }
  }

  lemma NumberedCounter(name: string, stamp: string, digits: string)
    requires digits != [] && AllDigits(digits)
    requires name == "sessions-" + stamp + "_" + digits || name == "sessions-" + stamp + "_" + digits + ".db"
    ensures CounterUsed(name, stamp) == Some(Parse(digits))
  {
    hide Parse;
    var stem := "sessions-" + stamp;
    var rest := name[|stem|..];
    assert name[..|stem|] == stem && name[|stem|] == '_' && (stem + ".db")[|stem|] == '.';
    if name == stem + "_" + digits {
      assert rest == "_" + digits && IsDigit(rest[|rest| - 1]);
      assert ".db"[2] == 'b';
      assert |rest| >= 3 ==> rest[|rest| - 3..][2] == rest[|rest| - 1];
    } else {
      assert rest == "_" + digits + ".db" && rest[|rest| - 3..] == ".db" && rest[..|rest| - 3] == "_" + digits;
    }
    assert ("_" + digits)[1..] == digits;
  }

  ghost predicate UsedIn(names: set<string>, stamp: string, k: nat) {
    exists name :: name in names && CounterUsed(name, stamp) == Some(k)
  }

  function GenerationText(stamp: string, k: nat): string {
    if k == 0 then stamp else stamp + "_" + Pad(k)
  }

  lemma CounterOfText(stamp: string, k: nat)
    ensures CounterUsed(SnapshotName(GenerationText(stamp, k)), stamp) == Some(k)
  {
    var name, stem := SnapshotName(GenerationText(stamp, k)), "sessions-" + stamp;
    if k > 0 {
      ParsePad(k);
      var rest := "_" + Pad(k) + ".db";
      assert name == stem + rest;
      assert name[|stem|..] == rest;
      assert rest[|rest| - 3..] == ".db" && rest[..|rest| - 3] == "_" + Pad(k);
      assert ("_" + Pad(k))[1..] == Pad(k);
      assert rest[0] == '_' && ".db"[0] == '.';
      assert name != stem + ".db" by {
        assert name[|stem|] == '_';
        assert (stem + ".db")[|stem|] == '.';
      }
    } else {
      assert name == stem + ".db";
    }
  }

  lemma UsedGrows(names: set<string>, name: string, stamp: string, j: nat)
    ensures UsedIn(names + {name}, stamp, j) <==> UsedIn(names, stamp, j) || CounterUsed(name, stamp) == Some(j)
  {
    hide CounterUsed;
    if UsedIn(names, stamp, j) {
      var n :| n in names && CounterUsed(n, stamp) == Some(j);
      assert n in names + {name};
    }
    if CounterUsed(name, stamp) == Some(j) {
      assert name in names + {name};
    }
  }

  lemma NothingUsed(stamp: string)
    ensures forall j: nat :: !UsedIn({}, stamp, j)
  {
  }

  lemma UsedIfThere(names: set<string>, name: string, stamp: string, k: nat)
    requires CounterUsed(name, stamp) == Some(k)
    ensures name in names ==> UsedIn(names, stamp, k)
  {
  }

  /** _unique: the counter goes on past the highest one in the directory instead of filling gaps. */
  method Unique(names: set<string>, stamp: string) returns (k: nat)
    ensures forall j: nat :: UsedIn(names, stamp, j) ==> j < k
    ensures k > 0 ==> UsedIn(names, stamp, k - 1)
    ensures SnapshotName(GenerationText(stamp, k)) !in names
  {
    hide CounterUsed, UsedIn, GenerationText, SnapshotName;
    k := 0;
    var left := names;
    assert names - left == {};
    NothingUsed(stamp);
    while left != {}
      invariant left <= names
      invariant forall j: nat :: UsedIn(names - left, stamp, j) ==> j < k
      invariant k > 0 ==> UsedIn(names - left, stamp, k - 1)
    {
      var name :| name in left;
      ghost var before := names - left;
      left := left - {name};
      assert names - left == before + {name};
      forall j: nat
        ensures UsedIn(names - left, stamp, j) <==> UsedIn(before, stamp, j) || CounterUsed(name, stamp) == Some(j)
      {
        UsedGrows(before, name, stamp, j);
      }
      match CounterUsed(name, stamp) {
        case Some(j) => k := Max(k, j + 1);
        case None =>
      }
    }
    assert names - left == names;
    CounterOfText(stamp, k);
    UsedIfThere(names, SnapshotName(GenerationText(stamp, k)), stamp, k);
  }

  lemma GenerationTextIsOne(stamp: string, k: nat)
    requires IsStamp(stamp)
    ensures IsGeneration(GenerationText(stamp, k))
  {
    var g := GenerationText(stamp, k);
    assert g[..15] == stamp;
    if k > 0 {
      ParsePad(k);
      assert g[16..] == Pad(k);
    }
  }

  /** Below a thousand a later counter sorts later, and after the plain name. */
  lemma LaterSortsAfter(stamp: string, j: nat, k: nat)
    requires j < k < 1000
    ensures Less(SnapshotName(GenerationText(stamp, j)), SnapshotName(GenerationText(stamp, k)))
  {
    var stem := "sessions-" + stamp;
    var b := "_" + Pad(k) + ".db";
    assert SnapshotName(GenerationText(stamp, k)) == stem + b;
    if j == 0 {
      assert SnapshotName(GenerationText(stamp, 0)) == stem + ".db";
      LessAfterPrefix(stem, ".db", b);
      assert ".db"[0] < b[0];
    } else {
      var a := "_" + Pad(j) + ".db";
      assert SnapshotName(GenerationText(stamp, j)) == stem + a;
      LessAfterPrefix(stem, a, b);
      assert a == "_" + (Pad(j) + ".db") && b == "_" + (Pad(k) + ".db");
      LessAfterPrefix("_", Pad(j) + ".db", Pad(k) + ".db");
      ThreeDigits(j);
      ThreeDigits(k);
      PaddedLess(Pad(j), Pad(k), j, k);
    }
  }

  /** The name with this same-second counter; zero is the plain name. */
  function CounterName(stamp: string, k: nat): string {
    SnapshotName(GenerationText(stamp, k))
  }

  ghost predicate InOrderUpTo(stamp: string, k: nat) {
    forall i: nat, j: nat :: i < j <= k ==> Less(CounterName(stamp, i), CounterName(stamp, j))
  }

  /** The names of one second sort in the order they were given exactly as long as the counter stays below a
      thousand. */
  lemma CountersInOrderExactly(stamp: string, k: nat)
    ensures InOrderUpTo(stamp, k) <==> k < 1000
  {
    hide Less, SnapshotName, GenerationText;
    if k < 1000 {
      forall i: nat, j: nat | i < j <= k
        ensures Less(CounterName(stamp, i), CounterName(stamp, j))
      {
        LaterSortsAfter(stamp, i, j);
      }
    } else {
      ThousandSortsBefore(stamp);
      var a, b := CounterName(stamp, 999), CounterName(stamp, 1000);
      LessTotal(a, b);
      LessTotal(a, a);
      assert !Less(a, b);
    }
  }

  lemma ThreeDigits(n: nat)
    requires n < 1000
    ensures |Pad(n)| == 3 && AllDigits(Pad(n))
    ensures n == 100 * (Pad(n)[0] - '0') as nat + 10 * (Pad(n)[1] - '0') as nat + (Pad(n)[2] - '0') as nat
  {
    ParsePad(n);
    if n >= 10 {
      assert |Dec(n / 10)| == if n < 100 then 1 else 2;
    }
    var p := Pad(n);
    assert |p| == 3;
    assert p[..2][..1] == [p[0]] && p[..2] == [p[0], p[1]];
    assert Parse(p[..2][..1]) == (p[0] - '0') as nat;
  }

  lemma PaddedLess(p: string, q: string, j: nat, k: nat)
    requires |p| == |q| == 3 && AllDigits(p) && AllDigits(q) && j < k
    requires j == 100 * (p[0] - '0') as nat + 10 * (p[1] - '0') as nat + (p[2] - '0') as nat
    requires k == 100 * (q[0] - '0') as nat + 10 * (q[1] - '0') as nat + (q[2] - '0') as nat
    ensures Less(p + ".db", q + ".db")
  {
    var a, b := p + ".db", q + ".db";
    assert a[0] == p[0] && a[1..][0] == p[1] && a[1..][1..][0] == p[2];
    assert b[0] == q[0] && b[1..][0] == q[1] && b[1..][1..][0] == q[2];
  }

  /** At a thousand the order breaks: counter 1000 sorts before counter 999. */
  lemma ThousandSortsBefore(stamp: string)
    ensures Less(SnapshotName(GenerationText(stamp, 1000)), SnapshotName(GenerationText(stamp, 999)))
  {
    hide Dec, Less;
    CounterTexts();
    var stem := "sessions-" + stamp;
    var a, b := "_1000.db", "_999.db";
    assert SnapshotName(GenerationText(stamp, 1000)) == stem + a;
    assert SnapshotName(GenerationText(stamp, 999)) == stem + b;
    LessAfterPrefix(stem, a, b);
  }

  lemma CounterTexts()
    ensures Dec(1000) == "1000" && Dec(999) == "999" && Less("_1000.db", "_999.db")
  {
    assert Dec(100) == "100" && Dec(99) == "99";
    var a, b := "_1000.db", "_999.db";
    assert a[0] == b[0] && a[1..][0] < b[1..][0];
  }
}
