/** config.py: the .env reader, and the writer that sets or removes one variable in a file it must otherwise leave
    alone. */
module EnvFile {
  import opened Common
  import opened Text

  // ---------------------------------------------------------------------
  // Text and lines
  // ---------------------------------------------------------------------

  predicate OneLine(s: string) {
    forall i :: 0 <= i < |s| ==> !IsBreak(s[i])
  }

  function FirstBreak(s: string): nat
    ensures FirstBreak(s) <= |s| && OneLine(s[..FirstBreak(s)])
    ensures FirstBreak(s) < |s| ==> IsBreak(s[FirstBreak(s)])
  {
    if s == [] || IsBreak(s[0]) then 0 else 1 + FirstBreak(s[1..])
  }

  /** splitlines, on text whose line ends have been read as single characters. */
  function Lines(text: string): (ls: seq<string>)
    ensures forall i :: 0 <= i < |ls| ==> OneLine(ls[i])
    decreases |text|
  {
    if text == [] then []
    else
      var n := FirstBreak(text);
      [text[..n]] + if n < |text| then Lines(text[n + 1..]) else []
  }

  function Join(ls: seq<string>): string {
    if ls == [] then "" else if |ls| == 1 then ls[0] else ls[0] + "\n" + Join(ls[1..])
  }

  /** What is written for these lines. */
  function Output(ls: seq<string>): string {
    var text := Join(ls);
    if text != [] && text[|text| - 1] != '\n' then text + "\n" else text
  }

  /** The text in which every line is ended. */
  function Unlines(ls: seq<string>): string {
    if ls == [] then "" else ls[0] + "\n" + Unlines(ls[1..])
  }

  ghost predicate AllOneLine(ls: seq<string>) {
    forall i :: 0 <= i < |ls| ==> OneLine(ls[i])
  }

  /** The lines that come back: a last empty line is not seen as one. */
  function Seen(ls: seq<string>): seq<string> {
    if ls != [] && ls[|ls| - 1] == [] then ls[..|ls| - 1] else ls
  }

  lemma FirstBreakAt(a: string, rest: string)
    requires OneLine(a)
    ensures FirstBreak(a + "\n" + rest) == |a|
  {
    var s := a + "\n" + rest;
    assert s[|a|] == '\n' && forall i :: 0 <= i < |a| ==> s[i] == a[i];
    assert forall i :: 0 <= i < FirstBreak(s) ==> s[..FirstBreak(s)][i] == s[i];
  }

  lemma {:induction false} LinesOfUnlines(ls: seq<string>)
    requires AllOneLine(ls)
    ensures Lines(Unlines(ls)) == ls
  {
    hide FirstBreak, OneLine;
    if ls != [] {
      FirstBreakAt(ls[0], Unlines(ls[1..]));
      LinesOfUnlines(ls[1..]);
      var text := Unlines(ls);
      assert text[|ls[0]| + 1..] == Unlines(ls[1..]) && text[..|ls[0]|] == ls[0];
      assert text != [];
    }
  }

  lemma JoinCons(l: string, rest: seq<string>)
    requires rest != []
    ensures Output([l] + rest) == l + "\n" + Output(rest)
    ensures Seen([l] + rest) == [l] + Seen(rest)
  {
    var text, tail := Join([l] + rest), Join(rest);
    assert ([l] + rest)[1..] == rest;
    assert text == l + "\n" + tail;
    assert text[|text| - 1] == if tail == [] then '\n' else tail[|tail| - 1];
  }

  lemma UnlinesCons(l: string, rest: seq<string>)
    ensures Unlines([l] + rest) == l + "\n" + Unlines(rest)
  {
    assert ([l] + rest)[1..] == rest;
  }

  lemma OneLineOutput(l: string)
    requires OneLine(l)
    ensures Output([l]) == Unlines(Seen([l]))
  {
    assert l != [] ==> !IsBreak(l[|l| - 1]);
    assert Unlines([l]) == l + "\n" + "";
  }

  lemma {:induction false} OutputEndsEveryLine(ls: seq<string>)
    requires AllOneLine(ls)
    ensures Output(ls) == Unlines(Seen(ls))
  {
    hide OneLine, Unlines, Output, Seen;
    if ls == [] {
      NoLineOutput();
    } else if |ls| == 1 {
      OneLineOutput(ls[0]);
      assert ls == [ls[0]];
    } else {
      var rest := ls[1..];
      OutputEndsEveryLine(rest);
      JoinCons(ls[0], rest);
      UnlinesCons(ls[0], Seen(rest));
      assert ls == [ls[0]] + rest;
    }
  }

  lemma NoLineOutput()
    ensures Output([]) == Unlines(Seen([]))
  {
  }

  lemma LinesOfOutput(ls: seq<string>)
    requires AllOneLine(ls)
    ensures Lines(Output(ls)) == Seen(ls)
  {
    OutputEndsEveryLine(ls);
    LinesOfUnlines(Seen(ls));
  }

  lemma {:induction false} UnlinesIsOneToOne(a: seq<string>, b: seq<string>)
    requires AllOneLine(a) && AllOneLine(b)
    ensures Unlines(a) == Unlines(b) <==> a == b
  {
    LinesOfUnlines(a);
    LinesOfUnlines(b);
  }

  // ---------------------------------------------------------------------
  // partition and quotes
  // ---------------------------------------------------------------------

  predicate Trimmed(s: string) {
    s == [] || (!IsSpace(s[0]) && !IsSpace(s[|s| - 1]))
  }

  /** The place of the first '=', or the length. */
  function FirstEq(s: string): nat
    ensures FirstEq(s) <= |s| && (FirstEq(s) < |s| ==> s[FirstEq(s)] == '=')
    ensures '=' !in s[..FirstEq(s)]
  {
    if s == [] || s[0] == '=' then 0 else 1 + FirstEq(s[1..])
  }

  predicate Wrapped(v: string) {
    |v| >= 2 && v[0] == v[|v| - 1] && v[0] in {'"', '\''}
  }

  function Unquote(v: string): string {
    if Wrapped(v) then v[1..|v| - 1] else v
  }

  /** What a line says: nothing (blank, comment, no '='), or a key and its raw value. */
  function Pair(line: string): Option<(string, string)> {
    var s := Strip(line);
    if s == [] || s[0] == '#' || FirstEq(s) == |s| then None
    else Some((Strip(s[..FirstEq(s)]), s[FirstEq(s) + 1..]))
  }

  predicate IsComment(line: string) {
    var s := Strip(line);
    s != [] && s[0] == '#'
  }

  predicate Sets(line: string, key: string) {
    Pair(line).Some? && Pair(line).value.0 == key
  }

  /** What the file maps a key to: the last line that sets it wins. */
  function Lookup(ls: seq<string>, key: string): Option<string> {
    if ls == [] then None
    else if Sets(ls[|ls| - 1], key) then Some(Unquote(Strip(Pair(ls[|ls| - 1]).value.1)))
    else Lookup(ls[..|ls| - 1], key)
  }

  // ---------------------------------------------------------------------
  // Reading
  // ---------------------------------------------------------------------

  /** Strip takes off spaces at both ends, and all there are. */
  lemma {:induction false} StripExactly(s: string) returns (front: string, back: string)
    ensures s == front + Strip(s) + back && Trimmed(Strip(s))
    ensures forall c :: c in front || c in back ==> IsSpace(c)
  {
    hide IsSpace;
    front := LeftOff(s);
    back := RightOff(TrimLeft(s));
    var t := TrimLeft(s);
    TrimmedBothWays(t);
  }

  lemma {:induction false} LeftOff(s: string) returns (front: string)
    ensures s == front + TrimLeft(s) && forall c :: c in front ==> IsSpace(c)
    ensures TrimLeft(s) == [] || !IsSpace(TrimLeft(s)[0])
  {
    hide IsSpace;
    front := [];
    if s != [] && IsSpace(s[0]) {
      var rest := LeftOff(s[1..]);
      front := [s[0]] + rest;
      assert s == [s[0]] + s[1..];
    }
  }

  lemma {:induction false} RightOff(s: string) returns (back: string)
    ensures s == TrimRight(s) + back && forall c :: c in back ==> IsSpace(c)
  {
    hide IsSpace;
    back := [];
    if s != [] && IsSpace(s[|s| - 1]) {
      var rest := RightOff(s[..|s| - 1]);
      back := rest + [s[|s| - 1]];
      assert s == s[..|s| - 1] + [s[|s| - 1]];
    }
  }

  lemma {:induction false} TrimmedBothWays(t: string)
    requires t == [] || !IsSpace(t[0])
    ensures Trimmed(TrimRight(t))
  {
    hide IsSpace;
    if t != [] && IsSpace(t[|t| - 1]) {
      TrimmedBothWays(t[..|t| - 1]);
    }
  }

  /** What a line says: nothing if what is left of it is empty, a comment or without "="; otherwise the first "=" parts
      the key from the value. */
  lemma PairExactly(line: string)
    ensures Pair(line).None? <==> Strip(line) == [] || Strip(line)[0] == '#' || '=' !in Strip(line)
    ensures Pair(line).Some? ==>
              exists head: string :: '=' !in head && Strip(line) == head + "=" + Pair(line).value.1 &&
                                     Pair(line).value.0 == Strip(head)
  {
    hide Strip, FirstEq;
    var s := Strip(line);
    assert s == s[..FirstEq(s)] + s[FirstEq(s)..];
    if Pair(line).Some? {
      var head := s[..FirstEq(s)];
      assert s == head + "=" + s[FirstEq(s) + 1..];
    }
  }

  /** Line i is the last one that sets the key. */
  ghost predicate LastSets(ls: seq<string>, key: string, i: nat) {
    i < |ls| && Sets(ls[i], key) && forall j :: i < j < |ls| ==> !Sets(ls[j], key)
  }

  lemma {:induction false} LookupExactly(ls: seq<string>, key: string)
    ensures Lookup(ls, key).Some? <==> exists i: nat :: LastSets(ls, key, i)
    ensures forall i: nat :: LastSets(ls, key, i) ==>
              i < |ls| && Sets(ls[i], key) && Lookup(ls, key) == Some(Unquote(Strip(Pair(ls[i]).value.1)))
  {
    hide Sets, Pair, Strip, Unquote;
    if ls != [] {
      var n := |ls| - 1;
      var rest := ls[..n];
      LookupExactly(rest, key);
      if Sets(ls[n], key) {
        assert LastSets(ls, key, n);
        forall i: nat | LastSets(ls, key, i)
          ensures i == n
        {
        }
      } else {
        forall i: nat
          ensures LastSets(ls, key, i) <==> LastSets(rest, key, i)
        {
          assert forall j :: 0 <= j < n ==> rest[j] == ls[j];
        }
      }
    }
  }

  /** The text is its lines, each but perhaps the last with the one character that ended it. */
  ghost predicate IsSplit(text: string, ls: seq<string>, ends: string)
    decreases |ls|
  {
    if ls == [] then text == [] && ends == []
    else if ends == [] then |ls| == 1 && text == ls[0] && text != []
    else IsBreak(ends[0]) && ls[0] + [ends[0]] <= text && IsSplit(text[|ls[0]| + 1..], ls[1..], ends[1..])
  }

  lemma {:induction false} LinesExactly(text: string) returns (ends: string)
    ensures IsSplit(text, Lines(text), ends)
    decreases |text|
  {
    hide OneLine, IsBreak, Lines, FirstBreak, IsSplit;
    if text == [] {
      ends := NoLineSplit();
    } else {
      var n := FirstBreak(text);
      if n < |text| {
        var rest := LinesExactly(text[n + 1..]);
        ends := [text[n]] + rest;
        FirstLineSplit(text, rest);
      } else {
        ends := OneLineSplit(text);
      }
    }
  }

  lemma NoLineSplit() returns (ends: string)
    ensures IsSplit("", Lines(""), ends)
  {
    ends := [];
  }

  lemma OneLineSplit(text: string) returns (ends: string)
    requires text != [] && FirstBreak(text) == |text|
    ensures IsSplit(text, Lines(text), ends)
  {
    hide OneLine, IsBreak;
    ends := [];
    assert Lines(text) == [text[..|text|]] + [] && text[..|text|] == text;
  }

  lemma FirstLineSplit(text: string, rest: string)
    requires text != [] && FirstBreak(text) < |text|
    requires IsSplit(text[FirstBreak(text) + 1..], Lines(text[FirstBreak(text) + 1..]), rest)
    ensures IsSplit(text, Lines(text), [text[FirstBreak(text)]] + rest)
  {
    hide OneLine, IsBreak;
    var n := FirstBreak(text);
    var ends := [text[n]] + rest;
    var ls := Lines(text);
    assert ls == [text[..n]] + Lines(text[n + 1..]);
    assert ls[1..] == Lines(text[n + 1..]) && ends[1..] == rest;
    assert text[..n] + [text[n]] == text[..n + 1];
  }

  method ParseEnv(text: Option<string>) returns (env: map<string, string>)
    ensures text.None? ==> env == map[]
    ensures text.Some? ==> forall k :: (k in env <==> Lookup(Lines(text.value), k).Some?)
                                      && (k in env ==> env[k] == Lookup(Lines(text.value), k).value)
    ensures text.Some? ==> forall k :: k in env <==> exists i: nat :: LastSets(Lines(text.value), k, i)
    ensures text.Some? ==> forall k, i: nat :: LastSets(Lines(text.value), k, i) ==>
              k in env && env[k] == Unquote(Strip(Pair(Lines(text.value)[i]).value.1))
  {
    hide Strip, Lines, Unquote, LastSets;
    env := map[];
    if text.None? {
      return;
    }
    var lines := Lines(text.value);
    forall k
      ensures Lookup(lines, k).Some? <==> exists i: nat :: LastSets(lines, k, i)
      ensures forall i: nat :: LastSets(lines, k, i) ==>
                i < |lines| && Sets(lines[i], k) && Lookup(lines, k) == Some(Unquote(Strip(Pair(lines[i]).value.1)))
    {
      LookupExactly(lines, k);
    }
    for i := 0 to |lines|
      invariant forall k :: k in env <==> Lookup(lines[..i], k).Some?
      invariant forall k :: k in env ==> env[k] == Lookup(lines[..i], k).value
    {
      assert lines[..i + 1][..i] == lines[..i];
      var line := Strip(lines[i]);
      if line == [] || line[0] == '#' {
        continue;
      }
      if FirstEq(line) == |line| {
        continue;
      }
      var key, value := Strip(line[..FirstEq(line)]), Strip(line[FirstEq(line) + 1..]);
      env := env[key := Unquote(value)];
    }
    assert lines[..|lines|] == lines;
  }

  // ---------------------------------------------------------------------
  // Writing
  // ---------------------------------------------------------------------

  /** The lines with every line that sets the key replaced, or dropped when there is no value. */
  function Replaced(ls: seq<string>, key: string, value: string): seq<string> {
    if ls == [] then []
    else
      var rest, last := ls[..|ls| - 1], ls[|ls| - 1];
      Replaced(rest, key, value)
      + if !Sets(last, key) then [last] else if value != [] then [key + "=" + value] else []
  }

  predicate Mentions(ls: seq<string>, key: string) {
    exists i :: 0 <= i < |ls| && Sets(ls[i], key)
  }

  function Appended(ls: seq<string>, line: string): seq<string> {
    (if ls != [] && Strip(ls[|ls| - 1]) != [] then ls + [""] else ls) + [line]
  }

  function Written(ls: seq<string>, key: string, value: string): seq<string> {
    if value != [] && !Mentions(ls, key) then Appended(ls, key + "=" + value) else Replaced(ls, key, value)
  }

  /** The file after a write: an empty key changes nothing, an absent value is the empty one. */
  function Rewritten(text: Option<string>, rawKey: string, value: Option<string>): Option<string> {
    var key := Strip(rawKey);
    if key == [] then text
    else
      Some(Output(Written(if text.Some? then Lines(text.value) else [], key, if value.Some? then value.value else "")))
  }

  lemma {:induction false} NoMention(ls: seq<string>, key: string, value: string)
    requires !Mentions(ls, key)
    ensures Replaced(ls, key, value) == ls
  {
    hide Sets;
    if ls != [] {
      assert !Sets(ls[|ls| - 1], key);
      NoMention(ls[..|ls| - 1], key, value);
    }
  }

  method WriteEnvVar(rawKey: string, value: Option<string>, text: Option<string>) returns (after: Option<string>)
    ensures after == Rewritten(text, rawKey, value)
  {
    hide Strip, Lines, Output, Replaced, Mentions;
    var key := Strip(rawKey);
    NothingReplaced(key, if value.Some? then value.value else "");
    NothingSaid(key, key);
    if key == [] {
      return text;
    }
    var lines := if text.Some? then Lines(text.value) else [];
    var v := if value.Some? then value.value else "";
    var newLines: seq<string> := [];
    var replaced := false;
    for i := 0 to |lines|
      invariant newLines == Replaced(lines[..i], key, v)
      invariant replaced == Mentions(lines[..i], key)
    {
      assert lines[..i + 1][..i] == lines[..i] && lines[..i] + [lines[i]] == lines[..i + 1];
      MentionsLast(lines[..i + 1], key);
      ReplacedPush(lines[..i], key, v, lines[i]);
      var stripped := Strip(lines[i]);
      if stripped == [] || stripped[0] == '#' {
        newLines := newLines + [lines[i]];
        continue;
      }
      if FirstEq(stripped) == |stripped| {
        newLines := newLines + [lines[i]];
        continue;
      }
      if Strip(stripped[..FirstEq(stripped)]) != key {
        newLines := newLines + [lines[i]];
        continue;
      }
      if v != [] {
        newLines := newLines + [key + "=" + v];
      }
      replaced := true;
    }
    assert lines[..|lines|] == lines;
    if v != [] && !replaced {
      NoMention(lines, key, v);
      if newLines != [] && Strip(newLines[|newLines| - 1]) != [] {
        newLines := newLines + [""];
      }
      newLines := newLines + [key + "=" + v];
    }
    return Some(Output(newLines));
  }

  // ---------------------------------------------------------------------
  // What a written line says
  // ---------------------------------------------------------------------

  /** A key the format can hold. */
  predicate GoodKey(key: string) {
    key != [] && Trimmed(key) && OneLine(key) && '=' !in key && key[0] != '#'
  }

  lemma {:induction false} StripTrimmed(s: string)
    requires Trimmed(s)
    ensures Strip(s) == s
  {
  }

  lemma {:induction false} StripIsTrimmed(s: string)
    ensures Trimmed(Strip(s)) && |Strip(s)| <= |s|
  {
    TrimLeftTrims(s);
    TrimRightTrims(TrimLeft(s));
  }

  lemma {:induction false} TrimLeftTrims(s: string)
    ensures TrimLeft(s) == [] || !IsSpace(TrimLeft(s)[0])
    ensures |TrimLeft(s)| <= |s|
  {
    if s != [] { TrimLeftTrims(s[1..]); }
  }

  lemma {:induction false} TrimRightTrims(s: string)
    ensures TrimRight(s) == [] || !IsSpace(TrimRight(s)[|TrimRight(s)| - 1])
    ensures TrimRight(s) <= s
  {
    if s != [] { TrimRightTrims(s[..|s| - 1]); }
  }

  lemma {:induction false} SpaceAtTheEnd(s: string, c: char)
    requires IsSpace(c)
    ensures Strip(s + [c]) == Strip(s)
  {
    hide IsSpace;
    if s == [] {
      assert s + [c] == [c] && [c][1..] == [];
    } else if IsSpace(s[0]) {
      assert (s + [c])[1..] == s[1..] + [c];
      SpaceAtTheEnd(s[1..], c);
    } else {
      assert (s + [c])[..|s|] == s;
    }
  }

  lemma {:induction false} StripAfterTrimRight(s: string)
    ensures Strip(TrimRight(s)) == Strip(s)
  {
    hide IsSpace;
    if s != [] && IsSpace(s[|s| - 1]) {
      StripAfterTrimRight(s[..|s| - 1]);
      SpaceAtTheEnd(s[..|s| - 1], s[|s| - 1]);
      assert s == s[..|s| - 1] + [s[|s| - 1]];
    }
  }

  lemma {:induction false} TrimRightOf(head: string, v: string)
    requires head != [] && !IsSpace(head[|head| - 1])
    ensures TrimRight(head + v) == head + TrimRight(v)
  {
    hide IsSpace;
    if v == [] {
      assert head + v == head;
    } else if IsSpace(v[|v| - 1]) {
      assert (head + v)[..|head + v| - 1] == head + v[..|v| - 1];
      TrimRightOf(head, v[..|v| - 1]);
    }
  }

  lemma {:induction false} FirstEqAt(key: string, v: string)
    requires '=' !in key
    ensures FirstEq(key + "=" + v) == |key|
  {
    if key != [] {
      FirstEqAt(key[1..], v);
      assert (key + "=" + v)[1..] == key[1..] + "=" + v;
    }
  }

  /** The line a write puts down sets its key, and no other, to the value as a reader takes it. */
  lemma SetLine(key: string, value: string)
    requires GoodKey(key)
    ensures Pair(key + "=" + value).Some? && Pair(key + "=" + value).value.0 == key
    ensures Unquote(Strip(Pair(key + "=" + value).value.1)) == Unquote(Strip(value))
  {
    hide Unquote;
    var line := key + "=" + value;
    var head := key + "=";
    assert !IsSpace('=');
    assert TrimLeft(line) == line;
    TrimRightOf(head, value);
    assert Strip(line) == key + "=" + TrimRight(value);
    FirstEqAt(key, TrimRight(value));
    assert Strip(line)[..|key|] == key && Strip(line)[|key| + 1..] == TrimRight(value);
    StripTrimmed(key);
    StripAfterTrimRight(value);
  }

  /** The reader gives back exactly the trimmed values that are not in matching quotes. */
  lemma ReadBack(value: string)
    ensures Unquote(Strip(value)) == value <==> Trimmed(value) && !Wrapped(value)
  {
    StripIsTrimmed(value);
    if Trimmed(value) {
      StripTrimmed(value);
    }
  }

  // ---------------------------------------------------------------------
  // What a write does to the whole file
  // ---------------------------------------------------------------------

  lemma BlankSaysNothing(key: string)
    ensures !Sets("", key) && Strip("") == []
  {
  }

  lemma {:induction false} LookupSeen(ls: seq<string>, key: string)
    ensures Lookup(Seen(ls), key) == Lookup(ls, key)
  {
    BlankSaysNothing(key);
  }

  lemma {:induction false} LookupReplaced(ls: seq<string>, key: string, value: string, j: string)
    requires GoodKey(key)
    ensures var now := Lookup(Replaced(ls, key, value), j);
            if j != key then now == Lookup(ls, j)
            else if value != [] && Mentions(ls, key) then now == Some(Unquote(Strip(value)))
            else now == None
  {
    hide Pair, Strip, Unquote, GoodKey, Lookup, Mentions;
    NothingSaid(key, j);
    if ls != [] {
      var rest, last := ls[..|ls| - 1], ls[|ls| - 1];
      LookupReplaced(rest, key, value, j);
      SetLine(key, value);
      var r := Replaced(rest, key, value);
      LookupPush(rest, j, last);
      LookupPush(r, j, last);
      LookupPush(r, j, key + "=" + value);
      assert rest + [last] == ls && r + [] == r;
      MentionsLast(ls, key);
    }
  }

  lemma NothingSaid(key: string, j: string)
    ensures Lookup([], j) == None && !Mentions([], key)
  {
  }

  lemma LookupPush(ls: seq<string>, j: string, line: string)
    ensures Lookup(ls + [line], j) ==
            if Sets(line, j) then Some(Unquote(Strip(Pair(line).value.1))) else Lookup(ls, j)
  {
    hide Pair, Strip, Unquote;
    assert (ls + [line])[..|ls|] == ls;
  }

  lemma MentionsLast(ls: seq<string>, key: string)
    requires ls != []
    ensures Mentions(ls, key) <==> Mentions(ls[..|ls| - 1], key) || Sets(ls[|ls| - 1], key)
  {
    hide Sets;
    if Mentions(ls[..|ls| - 1], key) {
      var i :| 0 <= i < |ls| - 1 && Sets(ls[..|ls| - 1][i], key);
      assert Sets(ls[i], key);
    }
    if Mentions(ls, key) && !Sets(ls[|ls| - 1], key) {
      var i :| 0 <= i < |ls| && Sets(ls[i], key);
      assert Sets(ls[..|ls| - 1][i], key);
    }
  }

  lemma {:induction false} LookupWithout(ls: seq<string>, key: string)
    ensures Lookup(ls, key).Some? <==> Mentions(ls, key)
  {
    hide Sets;
    if ls != [] {
      MentionsLast(ls, key);
      LookupWithout(ls[..|ls| - 1], key);
    }
  }

  lemma LookupAppended(ls: seq<string>, key: string, value: string, j: string)
    requires GoodKey(key) && !Mentions(ls, key)
    ensures Lookup(Appended(ls, key + "=" + value), j) ==
            if j == key then Some(Unquote(Strip(value))) else Lookup(ls, j)
  {
    hide Pair, Strip, Unquote, GoodKey, Lines;
    var line := key + "=" + value;
    SetLine(key, value);
    LookupWithout(ls, key);
    BlankSaysNothing(j);
    var padded := if ls != [] && Strip(ls[|ls| - 1]) != [] then ls + [""] else ls;
    assert Lookup(padded, j) == Lookup(ls, j) by {
      assert (ls + [""])[..|ls|] == ls;
    }
    assert (padded + [line])[..|padded|] == padded;
  }

  lemma {:induction false} WrittenIsLines(ls: seq<string>, key: string, value: string)
    requires AllOneLine(ls) && OneLine(key) && OneLine(value)
    ensures AllOneLine(Written(ls, key, value)) && AllOneLine(Replaced(ls, key, value))
  {
    hide Sets, Strip, Mentions;
    if ls != [] {
      WrittenIsLines(ls[..|ls| - 1], key, value);
    }
  }

  function LinesOf(text: Option<string>): (ls: seq<string>)
    ensures AllOneLine(ls)
  {
    if text.Some? then Lines(text.value) else []
  }

  /** What is read back after a write: the key has the value as a reader takes it, every other key what it had. */
  lemma WriteThenRead(text: Option<string>, key: string, value: string, j: string)
    requires GoodKey(key) && OneLine(value) && value != []
    ensures var after := Rewritten(text, key, Some(value));
            after.Some? && Lookup(Lines(after.value), j) ==
                           if j == key then Some(Unquote(Strip(value))) else Lookup(LinesOf(text), j)
  {
    hide Pair, Strip, Unquote, Sets, Lines, Output, Lookup, Replaced, Appended, Mentions;
    StripTrimmed(key);
    var ls := LinesOf(text);
    var n := Written(ls, key, value);
    WrittenIsLines(ls, key, value);
    LinesOfOutput(n);
    LookupSeen(n, j);
    if Mentions(ls, key) {
      LookupReplaced(ls, key, value, j);
    } else {
      LookupAppended(ls, key, value, j);
    }
  }

  /** The round trip holds for exactly the values a reader leaves alone. */
  lemma RoundTrip(text: Option<string>, key: string, value: string)
    requires GoodKey(key) && OneLine(value) && value != []
    ensures Lookup(Lines(Rewritten(text, key, Some(value)).value), key) == Some(value) <==>
            Trimmed(value) && !Wrapped(value)
  {
    hide Unquote, Strip, Lookup, Lines, Rewritten, Trimmed, Wrapped, GoodKey;
    WriteThenRead(text, key, value, key);
    ReadBack(value);
  }

  /** A value put in matching quotes comes back without them, whatever it holds. */
  lemma QuotesComeOff(text: Option<string>, key: string, quote: char, inside: string)
    requires GoodKey(key) && OneLine(inside) && quote in {'"', '\''}
    ensures Lookup(Lines(Rewritten(text, key, Some([quote] + inside + [quote])).value), key) == Some(inside)
  {
    hide Strip, Lookup, Lines, Rewritten, GoodKey;
    var value := [quote] + inside + [quote];
    WriteThenRead(text, key, value, key);
    StripTrimmed(value);
  }

  lemma RemoveThenRead(text: Option<string>, key: string, value: Option<string>, j: string)
    requires GoodKey(key) && (value.Some? ==> value.value == [])
    ensures var after := Rewritten(text, key, value);
            after.Some? && Lookup(Lines(after.value), j) == if j == key then None else Lookup(LinesOf(text), j)
  {
    hide Pair, Strip, Unquote, Sets, Lines, Output, Lookup, Replaced, Mentions;
    StripTrimmed(key);
    var ls := LinesOf(text);
    WrittenIsLines(ls, key, "");
    LinesOfOutput(Written(ls, key, ""));
    LookupSeen(Written(ls, key, ""), j);
    LookupReplaced(ls, key, "", j);
  }

  // ---------------------------------------------------------------------
  // What a write leaves alone
  // ---------------------------------------------------------------------

  /** The lines that are neither blank nor about the key: the comments, the other settings, and whatever else there
      is. */
  function Others(ls: seq<string>, key: string): seq<string> {
    if ls == [] then []
    else
      var last := ls[|ls| - 1];
      Others(ls[..|ls| - 1], key) + if Strip(last) != [] && !Sets(last, key) then [last] else []
  }

  lemma OthersPush(ls: seq<string>, key: string, line: string)
    ensures Others(ls + [line], key) == Others(ls, key) + if Strip(line) != [] && !Sets(line, key) then [line] else []
  {
    assert (ls + [line])[..|ls|] == ls;
  }

  lemma {:induction false} OthersReplaced(ls: seq<string>, key: string, value: string)
    requires GoodKey(key)
    ensures Others(Replaced(ls, key, value), key) == Others(ls, key)
  {
    hide Strip, Pair, GoodKey, Others;
    if ls != [] {
      var rest, last := ls[..|ls| - 1], ls[|ls| - 1];
      OthersReplaced(rest, key, value);
      SetLine(key, value);
      var r := Replaced(rest, key, value);
      OthersPush(rest, key, last);
      OthersPush(r, key, last);
      OthersPush(r, key, key + "=" + value);
      assert rest + [last] == ls && r + [] == r;
    }
  }

  lemma OthersAppended(ls: seq<string>, key: string, value: string)
    requires GoodKey(key)
    ensures Others(Appended(ls, key + "=" + value), key) == Others(ls, key)
  {
    hide Strip, Pair, GoodKey;
    SetLine(key, value);
    BlankSaysNothing(key);
    var padded := if ls != [] && Strip(ls[|ls| - 1]) != [] then ls + [""] else ls;
    assert (ls + [""])[..|ls|] == ls;
    assert (padded + [key + "=" + value])[..|padded|] == padded;
  }

  /** Every line that is neither blank nor about the key survives a write, in order and unchanged. */
  lemma OthersSurvive(text: Option<string>, key: string, value: Option<string>)
    requires GoodKey(key) && (value.Some? ==> OneLine(value.value))
    ensures Rewritten(text, key, value).Some?
    ensures Others(Lines(Rewritten(text, key, value).value), key) == Others(LinesOf(text), key)
  {
    hide Pair, Strip, Sets, Lines, Output, Replaced, Appended, Mentions, Others, Seen, GoodKey;
    TrimmedKey(key);
    EmptyIsOneLine();
    var ls, v := LinesOf(text), if value.Some? then value.value else "";
    var n := Written(ls, key, v);
    WrittenIsLines(ls, key, v);
    LinesOfOutput(n);
    OthersSeen(n, key);
    OthersReplaced(ls, key, v);
    OthersAppended(ls, key, v);
  }

  lemma OthersSeen(ls: seq<string>, key: string)
    ensures Others(Seen(ls), key) == Others(ls, key)
  {
    BlankSaysNothing(key);
  }

  function Comments(ls: seq<string>): seq<string> {
    if ls == [] then []
    else Comments(ls[..|ls| - 1]) + if IsComment(ls[|ls| - 1]) then [ls[|ls| - 1]] else []
  }

  lemma {:induction false} CommentsAreOthers(ls: seq<string>, key: string)
    ensures Comments(Others(ls, key)) == Comments(ls)
  {
    if ls != [] {
      var rest, last := Others(ls[..|ls| - 1], key), ls[|ls| - 1];
      CommentsAreOthers(ls[..|ls| - 1], key);
      assert (rest + [last])[..|rest|] == rest && rest + [] == rest;
    }
  }

  /** Every comment line survives every write, in order and unchanged. */
  lemma CommentsSurvive(text: Option<string>, key: string, value: Option<string>)
    requires GoodKey(key) && (value.Some? ==> OneLine(value.value))
    ensures Comments(Lines(Rewritten(text, key, value).value)) == Comments(LinesOf(text))
  {
    hide Others, Comments, Lines;
    OthersSurvive(text, key, value);
    CommentsAreOthers(LinesOf(text), key);
    CommentsAreOthers(Lines(Rewritten(text, key, value).value), key);
  }

  // ---------------------------------------------------------------------
  // Which blank lines a write leaves alone
  // ---------------------------------------------------------------------

  /** Every line that is not about the key, the blank ones included. */
  function Untouched(ls: seq<string>, key: string): seq<string> {
    if ls == [] then []
    else Untouched(ls[..|ls| - 1], key) + if Sets(ls[|ls| - 1], key) then [] else [ls[|ls| - 1]]
  }

  predicate EndsBlank(ls: seq<string>) {
    ls != [] && ls[|ls| - 1] == []
  }

  /** The write appends its line instead of replacing or dropping one. */
  predicate Appends(ls: seq<string>, key: string, value: string) {
    value != [] && !Mentions(ls, key)
  }

  lemma {:induction false} UntouchedReplaced(ls: seq<string>, key: string, value: string)
    requires GoodKey(key)
    ensures Untouched(Replaced(ls, key, value), key) == Untouched(ls, key)
  {
    hide Pair, GoodKey, Untouched;
    if ls != [] {
      var rest, last := ls[..|ls| - 1], ls[|ls| - 1];
      UntouchedReplaced(rest, key, value);
      SetLine(key, value);
      var r := Replaced(rest, key, value);
      UntouchedPush(rest, key, last);
      UntouchedPush(r, key, last);
      UntouchedPush(r, key, key + "=" + value);
      assert rest + [last] == ls && r + [] == r;
    }
  }

  lemma UntouchedPush(ls: seq<string>, key: string, line: string)
    ensures Untouched(ls + [line], key) == Untouched(ls, key) + if Sets(line, key) then [] else [line]
  {
    hide Sets;
    assert (ls + [line])[..|ls|] == ls;
  }

  lemma {:induction false} UntouchedIfUnmentioned(ls: seq<string>, key: string)
    requires !Mentions(ls, key)
    ensures Untouched(ls, key) == ls
  {
    hide Sets;
    if ls != [] {
      MentionsLast(ls, key);
      UntouchedIfUnmentioned(ls[..|ls| - 1], key);
    }
  }

  lemma UntouchedAppended(ls: seq<string>, key: string, value: string)
    requires GoodKey(key) && !Mentions(ls, key)
    ensures Untouched(Appended(ls, key + "=" + value), key) ==
            if ls != [] && Strip(ls[|ls| - 1]) != [] then ls + [""] else ls
  {
    hide Pair, GoodKey, Strip;
    SetLine(key, value);
    BlankSaysNothing(key);
    UntouchedIfUnmentioned(ls, key);
    var padded := if ls != [] && Strip(ls[|ls| - 1]) != [] then ls + [""] else ls;
    assert (ls + [""])[..|ls|] == ls;
    assert Untouched(padded, key) == padded;
    assert (padded + [key + "=" + value])[..|padded|] == padded;
  }

  /** A write that replaces or drops leaves every other line alone, blank ones included, exactly when what is kept
      does not end in a blank line; a write that appends always does, and adds at most the one separator. */
  lemma BlankLinesSurviveExactly(text: Option<string>, key: string, value: Option<string>)
    requires GoodKey(key) && (value.Some? ==> OneLine(value.value))
    ensures var ls, v := LinesOf(text), if value.Some? then value.value else "";
            var after := Lines(Rewritten(text, key, value).value);
            if Appends(ls, key, v) then
              Untouched(after, key) == if ls != [] && Strip(ls[|ls| - 1]) != [] then ls + [""] else ls
            else Untouched(after, key) == Untouched(ls, key) <==> !EndsBlank(Replaced(ls, key, v))
    ensures var ls, v := LinesOf(text), if value.Some? then value.value else "";
            Lines(Rewritten(text, key, value).value) == Written(ls, key, v)
            <==> Appends(ls, key, v) || !EndsBlank(Replaced(ls, key, v))
  {
    hide Pair, Strip, Sets, Lines, Output, Replaced, Mentions, GoodKey, OneLine, Untouched;
    TrimmedKey(key);
    BlankSaysNothing(key);
    EmptyIsOneLine();
    var ls, v := LinesOf(text), if value.Some? then value.value else "";
    var n := Written(ls, key, v);
    WrittenIsLines(ls, key, v);
    LinesOfOutput(n);
    if Appends(ls, key, v) {
      UntouchedAppended(ls, key, v);
    } else {
      UntouchedReplaced(ls, key, v);
      if EndsBlank(n) {
        UntouchedLast(n, key);
      }
    }
  }

  lemma UntouchedLast(ls: seq<string>, key: string)
    requires EndsBlank(ls)
    ensures Untouched(ls, key) == Untouched(ls[..|ls| - 1], key) + [""]
  {
    BlankSaysNothing(key);
  }

  lemma EmptyIsOneLine()
    ensures OneLine("")
  {
  }

  /** A file of one setting and one blank line: the first write takes the blank line. */
  lemma FirstWriteEatsBlankLine()
    ensures LinesOf(Some("A=1\n\n")) == ["A=1", ""]
    ensures Lines(Rewritten(Some("A=1\n\n"), "A", Some("2")).value) == ["A=2"]
  {
    hide Pair, Strip, Lines, Output, Rewritten, GoodKey, OneLine, Unlines;
    var ls: seq<string> := ["A=1", ""];
    TwoLines();
    LinesOfUnlines(ls);
    SetLine("A", "1");
    SetLine("A", "2");
    BlankSaysNothing("A");
    assert "A" + "=" + "1" == "A=1" && "A" + "=" + "2" == "A=2" && Sets(ls[0], "A");
    assert ls[..1] == ["A=1"] && ["A=1"][..0] == [];
    assert Replaced(["A=1"], "A", "2") == ["A=2"];
    assert Replaced(ls, "A", "2") == ["A=2", ""];
    OneRewrite(ls, ["A=2", ""]);
  }

  lemma OneRewrite(ls: seq<string>, n: seq<string>)
    requires Lines("A=1\n\n") == ls && Written(ls, "A", "2") == n && AllOneLine(n)
    ensures Lines(Rewritten(Some("A=1\n\n"), "A", Some("2")).value) == Seen(n)
  {
    hide Lines, Output, Written;
    StripTrimmed("A");
    LinesOfOutput(n);
  }

  lemma TwoLines()
    ensures Unlines(["A=1", ""]) == "A=1\n\n" && AllOneLine(["A=1", ""]) && AllOneLine(["A=2", ""]) && GoodKey("A")
  {
    var ls: seq<string> := ["A=1", ""];
    assert ls[1..] == [""] && ls[1..][1..] == [];
    assert Unlines([""]) == "\n";
    assert "A=1" + "\n" + "\n" == "A=1\n\n";
  }

  // ---------------------------------------------------------------------
  // Writing twice
  // ---------------------------------------------------------------------

  predicate EndsInTwoBlanks(ls: seq<string>) {
    |ls| >= 2 && ls[|ls| - 1] == [] && ls[|ls| - 2] == []
  }

  ghost predicate Settled(ls: seq<string>, key: string, value: string) {
    forall i :: 0 <= i < |ls| && Sets(ls[i], key) ==> value != [] && ls[i] == key + "=" + value
  }

  lemma ReplacedPush(ls: seq<string>, key: string, value: string, line: string)
    ensures Replaced(ls + [line], key, value) == Replaced(ls, key, value)
            + if !Sets(line, key) then [line] else if value != [] then [key + "=" + value] else []
  {
    hide Sets;
    assert (ls + [line])[..|ls|] == ls;
  }

  lemma NothingReplaced(key: string, value: string)
    ensures Replaced([], key, value) == []
  {
  }

  lemma {:induction false} SettledStays(ls: seq<string>, key: string, value: string)
    requires Settled(ls, key, value)
    ensures Replaced(ls, key, value) == ls
  {
    hide Sets, Replaced;
    if ls != [] {
      var rest, last := ls[..|ls| - 1], ls[|ls| - 1];
      SettledStays(rest, key, value);
      ReplacedPush(rest, key, value, last);
      assert rest + [last] == ls;
    } else {
      NothingReplaced(key, value);
    }
  }

  lemma {:induction false} ReplacedSettles(ls: seq<string>, key: string, value: string)
    requires GoodKey(key)
    ensures Settled(Replaced(ls, key, value), key, value)
    ensures value != [] && Mentions(ls, key) ==> Mentions(Replaced(ls, key, value), key)
    ensures value != [] ==> |Replaced(ls, key, value)| == |ls| &&
                            forall i :: 0 <= i < |ls| ==> (Replaced(ls, key, value)[i] == [] <==> ls[i] == [])
  {
    hide Pair, GoodKey;
    if ls != [] {
      var rest, last := ls[..|ls| - 1], ls[|ls| - 1];
      ReplacedSettles(rest, key, value);
      SetLine(key, value);
      BlankSaysNothing(key);
      MentionsLast(ls, key);
      var r := Replaced(ls, key, value);
      if value != [] {
        MentionsLast(r, key);
        assert r[..|r| - 1] == Replaced(rest, key, value);
      }
    }
  }

  /** A second write of the same thing rewrites the lines to themselves. */
  lemma SecondWriteSettled(n: seq<string>, key: string, value: string)
    requires Settled(n, key, value) && (value != [] ==> Mentions(n, key))
    ensures Written(Seen(n), key, value) == Seen(n)
  {
    hide Pair;
    BlankSaysNothing(key);
    SettledStays(Seen(n), key, value);
    if value != [] {
      MentionsLast(n, key);
    }
  }

  lemma WrittenSettles(ls: seq<string>, key: string, value: string)
    requires GoodKey(key)
    ensures var n := Written(ls, key, value);
            Settled(n, key, value) && (value != [] ==> Mentions(n, key))
    ensures EndsInTwoBlanks(Written(ls, key, value)) <==>
            if value == [] then EndsInTwoBlanks(Replaced(ls, key, "")) else Mentions(ls, key) && EndsInTwoBlanks(ls)
  {
    hide Pair, GoodKey, Strip;
    ReplacedSettles(ls, key, value);
    if value != [] && !Mentions(ls, key) {
      SetLine(key, value);
      BlankSaysNothing(key);
      var n := Appended(ls, key + "=" + value);
      assert Sets(n[|n| - 1], key);
      assert forall i :: 0 <= i < |ls| ==> n[i] == ls[i];
    }
  }

  /** Writing twice is writing once unless what is kept ends in two blank lines: every write after that eats one of
      them. */
  lemma WritingTwice(text: Option<string>, key: string, value: Option<string>)
    requires GoodKey(key) && (value.Some? ==> OneLine(value.value))
    ensures var v := if value.Some? then value.value else "";
            var once := Rewritten(text, key, value);
            Rewritten(once, key, value) == once <==>
            !(if v == [] then EndsInTwoBlanks(Replaced(LinesOf(text), key, ""))
              else Mentions(LinesOf(text), key) && EndsInTwoBlanks(LinesOf(text)))
  {
    hide Pair, Strip, Sets, Lines, Output, Replaced, Appended, Mentions, Settled, GoodKey, Unlines;
    TrimmedKey(key);
    var ls, v := LinesOf(text), if value.Some? then value.value else "";
    var n := Written(ls, key, v);
    WrittenSettles(ls, key, v);
    WrittenIsLines(ls, key, v);
    LinesOfOutput(n);
    SecondWriteSettled(n, key, v);
    OutputEndsEveryLine(n);
    OutputEndsEveryLine(Seen(n));
    UnlinesIsOneToOne(Seen(n), Seen(Seen(n)));
  }

  lemma TrimmedKey(key: string)
    requires GoodKey(key)
    ensures Strip(key) == key && OneLine(key) && key != []
  {
    StripTrimmed(key);
  }

  /** A file on which the second write differs from the first. */
  lemma SecondWriteEatsBlankLine()
    ensures var once := Rewritten(Some("A=1\n\n\n"), "A", Some("2")); Rewritten(once, "A", Some("2")) != once
  {
    hide Pair, Strip, Lines, Output, Replaced, Rewritten, GoodKey, OneLine, Unlines;
    var ls: seq<string> := ["A=1", "", ""];
    ThreeLines();
    LinesOfUnlines(ls);
    SetLine("A", "1");
    assert "A" + "=" + "1" == "A=1" && Sets(ls[0], "A");
    WritingTwice(Some("A=1\n\n\n"), "A", Some("2"));
  }

  lemma ThreeLines()
    ensures Unlines(["A=1", "", ""]) == "A=1\n\n\n" && AllOneLine(["A=1", "", ""]) && OneLine("2") && GoodKey("A")
  {
    var ls: seq<string> := ["A=1", "", ""];
    assert ls[1..] == ["", ""] && ls[1..][1..] == [""] && ls[1..][1..][1..] == [];
    assert Unlines([""]) == "\n" && Unlines(["", ""]) == "\n\n";
    assert "A=1" + "\n" + "\n\n" == "A=1\n\n\n";
  }
}
