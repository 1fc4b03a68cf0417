/**
 The namespace list between the two languages: Go prints type:path entries joined by
 commas into one environment variable, and a C constructor takes them apart again with
 two nested strtok_r loops that write NULs into one copy of it.
 */
module NsHandover {
  import opened Wrappers
  import opened Environment

  // ---- strings cut at separators ------------------------------------------

  /** The place of the first d at or after i, or the end. */
  function Stop(s: string, i: nat, d: char): (j: nat)
    requires i <= |s|
    ensures i <= j <= |s|
    ensures forall k :: i <= k < j ==> s[k] != d
    ensures j < |s| ==> s[j] == d
    decreases |s| - i
  {
    if i == |s| || s[i] == d then i else Stop(s, i + 1, d)
  }

  /** The place of the first character that is not d, at or after i, or the end. */
  function Skip(s: string, i: nat, d: char): (j: nat)
    requires i <= |s|
    ensures i <= j <= |s|
    ensures forall k :: i <= k < j ==> s[k] == d
    ensures j < |s| ==> s[j] != d
    decreases |s| - i
  {
    if i == |s| || s[i] != d then i else Skip(s, i + 1, d)
  }

  /** The non-empty pieces of s from i on that lie between separators d. */
  function Tokens(s: string, i: nat, d: char): seq<string>
    requires i <= |s|
    decreases |s| - i
  {
    var a := Skip(s, i, d);
    if a == |s| then []
    else
      var b := Stop(s, a, d);
      [s[a..b]] + if b == |s| then [] else Tokens(s, b + 1, d)
  }

  // ---- strtok_r on a buffer -----------------------------------------------

  /** The C string at i: up to the first NUL. */
  function CString(b: seq<char>, i: nat): string
    requires i < |b|
  {
    b[i..Stop(b, i, NUL)]
  }

  /** strtok_r(s, d, &save) with s at position i; the string there ends at the NUL at
      end. It finds the next token, writes at most one NUL, over the separator that
      ends the token, and nothing outside the string. */
  method StrTokR(buf: array<char>, i: nat, ghost end: nat, d: char) returns (tok: Option<nat>, save: nat)
    requires i <= end < buf.Length && buf[end] == NUL && d != NUL
    requires forall k :: i <= k < end ==> buf[k] != NUL
    modifies buf
    ensures var s := old(buf[..end]);
            var a := Skip(s, i, d);
            if a == end then tok == None && save == end && buf[..] == old(buf[..])
            else
              var b := Stop(s, a, d);
              && tok == Some(a)
              && save == (if b == end then end else b + 1)
              && buf[..] == old(buf[..])[b := NUL]
  {
    ghost var s := buf[..end];
    var a := i;
    while buf[a] == d
      invariant i <= a <= end && Skip(s, i, d) == Skip(s, a, d)
      decreases end - a
    {
      a := a + 1;
    }
    if buf[a] == NUL {
      return None, a;
    }
    var b := a;
    while buf[b] != d && buf[b] != NUL
      invariant a <= b <= end && Stop(s, a, d) == Stop(s, b, d)
      decreases end - b
    {
      b := b + 1;
    }
    if buf[b] == NUL {
      return Some(a), b;
    }
    buf[b] := NUL;
    tok, save := Some(a), b + 1;
  }

  // ---- the constructor ----------------------------------------------------

  const CLONE_NEWTIME: bv64 := 0x80
  const CLONE_NEWNS: bv64 := 0x20000
  const CLONE_NEWCGROUP: bv64 := 0x02000000
  const CLONE_NEWUTS: bv64 := 0x04000000
  const CLONE_NEWIPC: bv64 := 0x08000000
  const CLONE_NEWUSER: bv64 := 0x10000000
  const CLONE_NEWPID: bv64 := 0x20000000
  const CLONE_NEWNET: bv64 := 0x40000000

  function GetNsFlag(name: string): bv64 {
    if name == "pid" then CLONE_NEWPID
    else if name == "net" then CLONE_NEWNET
    else if name == "ipc" then CLONE_NEWIPC
    else if name == "uts" then CLONE_NEWUTS
    else if name == "user" then CLONE_NEWUSER
    else if name == "cgroup" then CLONE_NEWCGROUP
    else if name == "mnt" then CLONE_NEWNS
    else if name == "time" then CLONE_NEWTIME
    else 0
  }

  datatype Join = Join(path: string, flag: bv64)

  /** The join that the pieces of one entry call for. */
  function JoinOf(pieces: seq<string>): seq<Join> {
    if |pieces| >= 2 then JoinFor(pieces[0], pieces[1]) else []
  }

  function JoinFor(name: string, path: string): seq<Join> {
    if GetNsFlag(name) != 0 then [Join(path, GetNsFlag(name))] else []
  }

  function Joins(entries: seq<string>): seq<Join> {
    if entries == [] then [] else JoinOf(Tokens(entries[0], 0, ':')) + Joins(entries[1..])
  }

  /** What the constructor makes of the variable. */
  function Parse(text: string): seq<Join> { Joins(Tokens(text, 0, ',')) }

  // ---- tokens see only what is ahead --------------------------------------

  lemma {:induction false} StopShift(s: string, o: nat, i: nat, d: char)
    requires o + i <= |s|
    ensures Stop(s, o + i, d) == o + Stop(s[o..], i, d)
    decreases |s| - o - i
  {
    if o + i < |s| && s[o + i] != d {
      StopShift(s, o, i + 1, d);
    }
  }

  lemma {:induction false} SkipShift(s: string, o: nat, i: nat, d: char)
    requires o + i <= |s|
    ensures Skip(s, o + i, d) == o + Skip(s[o..], i, d)
    decreases |s| - o - i
  {
    if o + i < |s| && s[o + i] == d {
      SkipShift(s, o, i + 1, d);
    }
  }

  function After(s: string, b: nat, d: char): seq<string>
    requires b <= |s|
  {
    if b == |s| then [] else Tokens(s, b + 1, d)
  }

  lemma TokensAre(s: string, i: nat, d: char, a: nat)
    requires i <= |s| && a == Skip(s, i, d)
    ensures Tokens(s, i, d) == if a == |s| then [] else [s[a..Stop(s, a, d)]] + After(s, Stop(s, a, d), d)
  {}

  lemma {:induction false} TokensShift(s: string, o: nat, i: nat, d: char)
    requires o + i <= |s|
    ensures Tokens(s, o + i, d) == Tokens(s[o..], i, d)
    decreases |s| - o - i, 1
  {
    hide Tokens, Skip, Stop, After;
    var t := s[o..];
    var a := Skip(t, i, d);
    SkipShift(s, o, i, d);
    TokensAre(t, i, d, a);
    TokensAre(s, o + i, d, o + a);
    if a < |t| {
      var b := Stop(t, a, d);
      StopShift(s, o, a, d);
      assert t[a..b] == s[o + a..o + b];
      AfterShift(s, o, b, d);
      assert Tokens(t, i, d) == [t[a..b]] + After(t, b, d);
      assert Tokens(s, o + i, d) == [s[o + a..o + b]] + After(s, o + b, d);
    }
  }

  lemma {:induction false} AfterShift(s: string, o: nat, b: nat, d: char)
    requires o + b <= |s|
    ensures After(s, o + b, d) == After(s[o..], b, d)
    decreases |s| - o - b, 0
  {
    hide Tokens;
    if o + b < |s| {
      TokensShift(s, o, b + 1, d);
    }
  }

  lemma TokensFrom(s: string, i: nat, d: char)
    requires i <= |s|
    ensures Tokens(s, i, d) == Tokens(s[i..], 0, d)
  {
    TokensShift(s, i, 0, d);
  }

  lemma SkipFrom(s: string, t: string, i: nat, d: char)
    requires |s| == |t| && i <= |s| && s[i..] == t[i..]
    ensures Skip(s, i, d) == Skip(t, i, d)
    ensures forall j :: i <= j <= |s| ==> s[j..] == t[j..]
  {
    SkipShift(s, i, 0, d);
    SkipShift(t, i, 0, d);
    forall j | i <= j <= |s| ensures s[j..] == t[j..] {
      assert s[j..] == s[i..][j - i..];
      assert t[j..] == t[i..][j - i..];
    }
  }

  lemma StopFrom(s: string, t: string, i: nat, d: char)
    requires |s| == |t| && i <= |s| && s[i..] == t[i..]
    ensures Stop(s, i, d) == Stop(t, i, d)
  {
    StopShift(s, i, 0, d);
    StopShift(t, i, 0, d);
  }

  lemma StopIs(s: string, i: nat, j: nat, d: char)
    requires i <= j <= |s| && (forall k :: i <= k < j ==> s[k] != d) && (j < |s| ==> s[j] == d)
    ensures Stop(s, i, d) == j
  {}

  // ---- one entry ----------------------------------------------------------

  /** The join of the entry that begins at a, by the two scans of the inner calls. */
  function JoinAt(s: string, a: nat): seq<Join>
    requires a <= |s|
  {
    var x := Skip(s, a, ':');
    if x == |s| then []
    else
      var y := Stop(s, x, ':');
      var z := if y == |s| then y else Skip(s, y + 1, ':');
      if z == |s| then [] else JoinFor(s[x..y], s[z..Stop(s, z, ':')])
  }

  lemma JoinAtIs(s: string, a: nat)
    requires a <= |s|
    ensures JoinAt(s, a) == JoinOf(Tokens(s[a..], 0, ':'))
  {
    TokensFrom(s, a, ':');
    hide Skip, Stop, JoinFor;
  }

  /** Reading what the two inner calls returned. */
  method ReadPieces(buf: array<char>, type_: Option<nat>, ghost y: nat, path: Option<nat>, ghost w: nat)
    returns (join: seq<Join>)
    requires type_.Some? ==> type_.value <= y < buf.Length && buf[y] == NUL
                             && forall k :: type_.value <= k < y ==> buf[k] != NUL
    requires path.Some? ==> path.value <= w < buf.Length && buf[w] == NUL
                            && forall k :: path.value <= k < w ==> buf[k] != NUL
    ensures join == if type_.Some? && path.Some?
                    then JoinFor(buf[type_.value..y], buf[path.value..w]) else []
  {
    join := [];
    if type_.Some? && path.Some? {
      var name := ReadCString(buf, type_.value, y);
      var p := ReadCString(buf, path.value, w);
      var flag := GetNsFlag(name);
      if flag != 0 {
        join := [Join(p, flag)];
      }
    }
  }

  /** The two inner calls on the entry in [a, b). */
  method InnerCalls(buf: array<char>, a: nat, ghost b: nat)
    returns (type_: Option<nat>, ghost y: nat, path: Option<nat>, ghost w: nat)
    requires a <= b < buf.Length && buf[b] == NUL
    requires forall k :: a <= k < b ==> buf[k] != NUL
    modifies buf
    ensures forall k :: 0 <= k < buf.Length && !(a <= k < b) ==> buf[k] == old(buf[k])
    ensures var s := old(buf[..b]);
            var x := Skip(s, a, ':');
            if x == b then type_ == None && path == None
            else
              var e := Stop(s, x, ':');
              var z := if e == b then b else Skip(s, e + 1, ':');
              && type_ == Some(x) && y == e && buf[y] == NUL && (forall k :: x <= k < y ==> buf[k] == s[k])
              && (if z == b then path == None
                  else
                    && path == Some(z) && w == Stop(s, z, ':') && buf[w] == NUL
                    && forall k :: z <= k < w ==> buf[k] == s[k])
  {
    hide Skip, Stop;
    ghost var s := buf[..b];
    var save2;
    type_, save2 := StrTokR(buf, a, b, ':');
    ghost var s1 := buf[..b];
    y, w := if type_.Some? then Stop(s, type_.value, ':') else b, b;
    assert s1[save2..] == s[save2..];
    SkipFrom(s1, s, save2, ':');
    var save3;
    path, save3 := StrTokR(buf, save2, b, ':');
    if path.Some? {
      StopFrom(s1, s, path.value, ':');
      w := Stop(s, path.value, ':');
      assert forall k :: save2 <= k < w ==> buf[k] == s[k];
    }
    assert save2 == b ==> Skip(s, save2, ':') == b;
  }

  method JoinEntry(buf: array<char>, a: nat, ghost b: nat) returns (join: seq<Join>)
    requires a <= b < buf.Length && buf[b] == NUL
    requires forall k :: a <= k < b ==> buf[k] != NUL
    modifies buf
    ensures forall k :: 0 <= k < buf.Length && !(a <= k < b) ==> buf[k] == old(buf[k])
    ensures join == JoinAt(old(buf[..b]), a)
  {
    hide Skip, Stop, GetNsFlag, JoinFor;
    ghost var s := buf[..b];
    var type_, y, path, w := InnerCalls(buf, a, b);
    join := ReadPieces(buf, type_, y, path, w);
    assert type_.Some? ==> buf[type_.value..y] == s[type_.value..y];
    assert path.Some? ==> buf[path.value..w] == s[path.value..w];
  }

  /** Nothing outside the entry is written, and the first two pieces make the join. */
  method ParseEntry(buf: array<char>, a: nat, ghost b: nat) returns (join: seq<Join>)
    requires a <= b < buf.Length && buf[b] == NUL
    requires forall k :: a <= k < b ==> buf[k] != NUL
    modifies buf
    ensures forall k :: 0 <= k < buf.Length && !(a <= k < b) ==> buf[k] == old(buf[k])
    ensures join == JoinOf(Tokens(old(buf[a..b]), 0, ':'))
  {
    ghost var s := buf[..b];
    assert s[a..] == buf[a..b];
    JoinAtIs(s, a);
    hide JoinAt, JoinOf, Tokens;
    join := JoinEntry(buf, a, b);
  }

  method ReadCString(buf: array<char>, i: nat, ghost j: nat) returns (s: string)
    requires i <= j < buf.Length && buf[j] == NUL
    requires forall k :: i <= k < j ==> buf[k] != NUL
    ensures s == buf[i..j] == CString(buf[..], i)
  {
    s := [];
    var k := i;
    while buf[k] != NUL
      invariant i <= k <= j && s == buf[i..k]
      decreases j - k
    {
      s := s + [buf[k]];
      k := k + 1;
    }
    StopIs(buf[..], i, j, NUL);
  }

  // ---- all entries --------------------------------------------------------

  /** join_ns is called on one join after another; the first that fails ends the
      process. */
  function Attempted(joins: seq<Join>, works: Join -> bool): seq<Join> {
    if joins == [] then []
    else if works(joins[0]) then [joins[0]] + Attempted(joins[1..], works)
    else [joins[0]]
  }

  lemma {:induction false} AttemptedAfter(done: seq<Join>, rest: seq<Join>, works: Join -> bool)
    requires forall j :: j in done ==> works(j)
    ensures Attempted(done + rest, works) == done + Attempted(rest, works)
  {
    if done == [] {
      assert done + rest == rest;
    } else {
      assert (done + rest)[1..] == done[1..] + rest;
      AttemptedAfter(done[1..], rest, works);
      assert done == [done[0]] + done[1..];
    }
  }

  /** Going on from where the last call stopped. */
  lemma NextEntry(text: string, i: nat)
    requires i <= |text|
    ensures var a := Skip(text, i, ',');
            Tokens(text, i, ',') == if a == |text| then [] else Tokens(text, a, ',')
  {
    var a := Skip(text, i, ',');
    TokensAre(text, i, ',', a);
    if a < |text| {
      assert Skip(text, a, ',') == a;
      TokensAre(text, a, ',', a);
    }
  }

  lemma OneEntry(text: string, a: nat)
    requires a < |text| && text[a] != ','
    ensures var b := Stop(text, a, ',');
            var save := if b == |text| then b else b + 1;
            Joins(Tokens(text, a, ',')) == JoinOf(Tokens(text[a..b], 0, ':')) + Joins(Tokens(text, save, ','))
  {
    var b := Stop(text, a, ',');
    assert Skip(text, a, ',') == a;
    TokensAre(text, a, ',', a);
    if b == |text| {
      TokensAre(text, b, ',', b);
    }
    hide JoinOf, Skip, Stop, Tokens;
    var rest := After(text, b, ',');
    assert ([text[a..b]] + rest)[1..] == rest;
  }

  /** Where the outer loop stands: the entry in hand is still whole, and so is
      everything behind the next call's position. */
  predicate Standing(text: string, buf: seq<char>, entry: Option<nat>, save: nat) {
    && |buf| == |text| + 1 && buf[|text|] == NUL && save <= |text|
    && buf[save..|text|] == text[save..]
    && (entry.Some? ==>
          var a := entry.value;
          && a < |text| && text[a] != ','
          && var b := Stop(text, a, ',');
             save == (if b == |text| then b else b + 1) && buf[b] == NUL && buf[a..b] == text[a..b])
  }

  lemma CallStands(text: string, was: seq<char>, buf: seq<char>, save: nat, entry: Option<nat>, next: nat)
    requires |was| == |text| + 1 && was[|text|] == NUL && save <= |text| && was[save..|text|] == text[save..]
    requires var s := was[..|text|];
             var a := Skip(s, save, ',');
             if a == |text| then entry == None && next == |text| && buf == was
             else
               var b := Stop(s, a, ',');
               && entry == Some(a) && next == (if b == |text| then b else b + 1) && buf == was[b := NUL]
    ensures Standing(text, buf, entry, next)
    ensures entry == if Skip(text, save, ',') == |text| then None else Some(Skip(text, save, ','))
  {
    var s := was[..|text|];
    assert s[save..] == text[save..];
    SkipFrom(s, text, save, ',');
    var a := Skip(text, save, ',');
    hide Skip;
    if a < |text| {
      StopFrom(s, text, a, ',');
      assert s[a..] == text[a..];
      hide Stop;
      var b := Stop(text, a, ',');
      forall k | a <= k < |text| ensures s[k] == text[k] {
        assert s[a..][k - a] == text[a..][k - a];
      }
    }
  }

  /** Ahead of the next call there is no NUL up to the end of the buffer. */
  lemma NoNulAhead(text: string, buf: seq<char>, save: nat)
    requires NUL !in text && |buf| == |text| + 1 && save <= |text| && buf[save..|text|] == text[save..]
    ensures forall k :: save <= k < |text| ==> buf[k] != NUL
  {
    forall k | save <= k < |text| ensures buf[k] != NUL {
      assert buf[save..|text|][k - save] == text[save..][k - save] == text[k];
    }
  }

  lemma EntryIsWhole(text: string, buf: seq<char>, a: nat, save: nat)
    requires NUL !in text && Standing(text, buf, Some(a), save)
    ensures var b := Stop(text, a, ',');
            && a < |text| && text[a] != ',' && save == (if b == |text| then b else b + 1)
            && buf[b] == NUL && buf[a..b] == text[a..b] && b <= save && (b < |text| ==> b < save)
            && forall k :: a <= k < b ==> buf[k] != NUL
  {
    var b := Stop(text, a, ',');
    hide Stop;
    forall k | a <= k < b ensures buf[k] != NUL {
      assert buf[a..b][k - a] == text[a..b][k - a] == text[k];
    }
  }

  /** One call of the outer loop. */
  method NextCall(text: string, buf: array<char>, save: nat) returns (entry: Option<nat>, next: nat)
    requires NUL !in text && buf.Length == |text| + 1 && buf[|text|] == NUL
    requires save <= |text| && buf[save..|text|] == text[save..]
    modifies buf
    ensures Standing(text, buf[..], entry, next) && next <= |text| && save <= next
    ensures entry.Some? ==> entry.value < |text| && text[entry.value] != ',' && save < next
    ensures Tokens(text, save, ',') == if entry.None? then [] else Tokens(text, entry.value, ',')
  {
    hide Tokens, Skip, Stop, Standing;
    ghost var was := buf[..];
    NoNulAhead(text, was, save);
    entry, next := StrTokR(buf, save, |text|, ',');
    assert entry.Some? ==> save < next;
    CallStands(text, was, buf[..], save, entry, next);
    NextEntry(text, save);
  }

  /** The entry in hand is parsed, and nothing ahead of the next call is touched. */
  method TakeEntry(text: string, buf: array<char>, a: nat, ghost save: nat) returns (join: seq<Join>)
    requires NUL !in text && Standing(text, buf[..], Some(a), save) && a < |text|
    modifies buf
    ensures join == JoinOf(Tokens(text[a..Stop(text, a, ',')], 0, ':')) && |join| <= 1
    ensures save <= |text| < buf.Length && buf[|text|] == NUL && buf[save..|text|] == text[save..]
    ensures save == if Stop(text, a, ',') == |text| then |text| else Stop(text, a, ',') + 1
  {
    hide Tokens, Stop, JoinOf, Standing;
    ghost var was := buf[..];
    EntryIsWhole(text, was, a, save);
    BehindIsWhole(text, was, Some(a), save);
    ghost var b := Stop(text, a, ',');
    join := ParseEntry(buf, a, b);
    assert forall k :: save <= k < |text| ==> buf[k] == was[k];
    assert buf[save..|text|] == was[save..|text|];
    JoinOfIsShort(Tokens(text[a..b], 0, ':'));
  }

  /** All the joins are those done, which worked, and those of the rest. */
  predicate Underway(all: seq<Join>, done: seq<Join>, rest: seq<Join>, works: Join -> bool) {
    all == done + rest && forall j :: j in done ==> works(j)
  }

  lemma Begins(all: seq<Join>, works: Join -> bool)
    ensures Underway(all, [], all, works)
  {
    assert [] + all == all;
  }

  lemma Ends(all: seq<Join>, done: seq<Join>, works: Join -> bool)
    requires Underway(all, done, [], works)
    ensures done == Attempted(all, works) && forall j :: j in all ==> works(j)
  {
    AttemptedAfter(done, [], works);
    assert done + [] == done;
  }

  lemma Fails(all: seq<Join>, done: seq<Join>, join: seq<Join>, rest: seq<Join>, works: Join -> bool)
    requires Underway(all, done, join + rest, works) && |join| == 1 && !works(join[0])
    ensures done + join == Attempted(all, works) && join[0] in all
  {
    var j := join[0];
    assert join == [j];
    AttemptedAfter(done, [j] + rest, works);
    assert ([j] + rest)[0] == j;
    assert all[|done|] == j;
  }

  lemma GoesOn(all: seq<Join>, done: seq<Join>, join: seq<Join>, rest: seq<Join>, works: Join -> bool)
    requires Underway(all, done, join + rest, works) && forall j :: j in join ==> works(j)
    ensures Underway(all, done + join, rest, works)
  {}

  method StrDup(text: string) returns (buf: array<char>)
    ensures fresh(buf) && buf.Length == |text| + 1 && buf[|text|] == NUL && buf[0..|text|] == text[0..]
  {
    buf := new char[|text| + 1](i => if 0 <= i < |text| then text[i] else NUL);
  }

  /** nssetup on the value of _ANOCIR_JOIN_NS: exactly the joins of Parse, in order,
      up to the first one that fails. */
  method NsSetup(text: string, works: Join -> bool) returns (attempted: seq<Join>, exited: bool)
    requires NUL !in text
    ensures attempted == Attempted(Parse(text), works)
    ensures exited <==> exists j :: j in Parse(text) && !works(j)
  {
    hide Tokens, Stop, JoinOf, Standing, Joins, Attempted, Underway;
    var n := |text|;
    var buf := StrDup(text);
    var entry: Option<nat>, save: nat := NextCall(text, buf, 0);
    attempted := [];
    ghost var all, rest := Parse(text), Parse(text);
    NoEntries();
    Begins(all, works);
    while entry.Some?
      invariant buf.Length == n + 1 && save <= n && Standing(text, buf[..], entry, save)
      invariant entry.Some? ==> entry.value < n && text[entry.value] != ','
      invariant rest == if entry.None? then [] else Joins(Tokens(text, entry.value, ','))
      invariant Underway(all, attempted, rest, works)
      decreases n - save, entry.Some?
    {
      OneEntry(text, entry.value);
      var join := TakeEntry(text, buf, entry.value, save);
      rest := Joins(Tokens(text, save, ','));
      if join != [] && !works(join[0]) {
        Fails(all, attempted, join, rest, works);
        return attempted + join, true;
      }
      GoesOn(all, attempted, join, rest, works);
      attempted := attempted + join;
      entry, save := NextCall(text, buf, save);
    }
    Ends(all, attempted, works);
    exited := false;
  }

  lemma NoEntries()
    ensures Joins([]) == []
  {}

  lemma JoinOfIsShort(pieces: seq<string>)
    ensures |JoinOf(pieces)| <= 1
  {}

  lemma BehindIsWhole(text: string, buf: seq<char>, entry: Option<nat>, save: nat)
    requires Standing(text, buf, entry, save)
    ensures |buf| == |text| + 1 && buf[|text|] == NUL && save <= |text| && buf[save..|text|] == text[save..]
  {}

  // ---- the printer --------------------------------------------------------

  datatype Entry = Entry(name: string, path: string)

  function Item(e: Entry): string { e.name + ":" + e.path }

  /** fmt.Sprintf("%s:%s") for each entry, joined with commas. */
  function Print(list: seq<Entry>): string {
    if list == [] then ""
    else if |list| == 1 then Item(list[0])
    else Item(list[0]) + "," + Print(list[1..])
  }

  function Items(list: seq<Entry>): seq<string> {
    if list == [] then [] else [Item(list[0])] + Items(list[1..])
  }

  function Wanted(list: seq<Entry>): seq<Join> {
    if list == [] then [] else [Join(list[0].path, GetNsFlag(list[0].name))] + Wanted(list[1..])
  }

  predicate Plain(e: Entry) { ',' !in e.path && ':' !in e.path }

  /** An entry that Go prints: a namespace name from the table, and a path. */
  predicate Printable(e: Entry) { GetNsFlag(e.name) != 0 && e.path != "" }

  lemma NamesAreClean(name: string)
    requires GetNsFlag(name) != 0
    ensures name != "" && ',' !in name && ':' !in name
  {}

  /** Text that begins with a whole piece. */
  lemma FirstToken(x: string, rest: string, d: char)
    requires x != "" && d !in x && (rest == "" || rest[0] == d)
    ensures Tokens(x + rest, 0, d) == [x] + if rest == "" then [] else Tokens(rest[1..], 0, d)
  {
    var s := x + rest;
    assert s[0] == x[0];
    assert Skip(s, 0, d) == 0;
    StopIs(s, 0, |x|, d);
    TokensAre(s, 0, d, 0);
    assert s[0..|x|] == x;
    if rest != "" {
      TokensFrom(s, |x| + 1, d);
      assert s[|x| + 1..] == rest[1..];
    }
  }

  lemma PiecesOfItem(e: Entry)
    requires Printable(e) && ':' !in e.path
    ensures Tokens(Item(e), 0, ':') == [e.name, e.path]
  {
    NamesAreClean(e.name);
    hide Tokens;
    assert Item(e) == e.name + (":" + e.path);
    FirstToken(e.name, ":" + e.path, ':');
    FirstToken(e.path, "", ':');
    assert e.path + "" == e.path;
    assert (":" + e.path)[1..] == e.path;
  }

  lemma {:induction false} TokensOfPrint(list: seq<Entry>)
    requires forall e :: e in list ==> Printable(e) && ',' !in e.path
    ensures Tokens(Print(list), 0, ',') == Items(list)
  {
    if list == [] {
      TokensAre("", 0, ',', 0);
    } else {
      var e, rest := list[0], list[1..];
      NamesAreClean(e.name);
      TokensOfPrint(rest);
      hide Tokens;
      if rest == [] {
        FirstToken(Item(e), "", ',');
        assert Item(e) + "" == Item(e);
      } else {
        FirstToken(Item(e), "," + Print(rest), ',');
        assert Print(list) == Item(e) + ("," + Print(rest));
        assert ("," + Print(rest))[1..] == Print(rest);
      }
    }
  }

  lemma {:induction false} JoinsOfItems(list: seq<Entry>)
    requires forall e :: e in list ==> Printable(e) && Plain(e)
    ensures Joins(Items(list)) == Wanted(list)
  {
    if list != [] {
      var e := list[0];
      PiecesOfItem(e);
      JoinsOfItems(list[1..]);
      hide Tokens, Item, GetNsFlag;
      assert Items(list)[0] == Item(e) && Items(list)[1..] == Items(list[1..]);
      assert JoinOf([e.name, e.path]) == [Join(e.path, GetNsFlag(e.name))];
    }
  }

  lemma SliceIsClean(s: string, a: nat, b: nat, d: char, c: char)
    requires a <= b <= |s| && (c !in s || (c == d && forall k :: a <= k < b ==> s[k] != d))
    ensures c !in s[a..b]
  {}

  /** A token has no separator in it, nor any character that the string has not. */
  lemma {:induction false} TokensAreClean(s: string, i: nat, d: char, t: string, c: char)
    requires i <= |s| && t in Tokens(s, i, d)
    requires c == d || c !in s
    ensures c !in t
    decreases |s| - i
  {
    var a := Skip(s, i, d);
    TokensAre(s, i, d, a);
    hide Tokens, Skip;
    var b := Stop(s, a, d);
    hide Stop;
    if t == s[a..b] {
      SliceIsClean(s, a, b, d, c);
    } else {
      TokensAreClean(s, b + 1, d, t, c);
    }
  }

  lemma {:induction false} JoinsAreClean(entries: seq<string>, j: Join)
    requires j in Joins(entries) && forall e :: e in entries ==> ',' !in e
    ensures ',' !in j.path && ':' !in j.path
  {
    var pieces := Tokens(entries[0], 0, ':');
    if j in JoinOf(pieces) {
      TokensAreClean(entries[0], 0, ':', pieces[1], ':');
      TokensAreClean(entries[0], 0, ':', pieces[1], ',');
    } else {
      JoinsAreClean(entries[1..], j);
    }
  }

  lemma {:induction false} WantedHas(list: seq<Entry>, e: Entry)
    requires e in list
    ensures Join(e.path, GetNsFlag(e.name)) in Wanted(list)
  {
    hide GetNsFlag;
    if list[0] != e {
      WantedHas(list[1..], e);
    }
  }

  /** The C parser inverts the Go printer exactly on the lists whose paths have neither
      a comma nor a colon in them. */
  lemma HandoverIsExact(list: seq<Entry>)
    requires forall e :: e in list ==> Printable(e)
    ensures Parse(Print(list)) == Wanted(list) <==> forall e :: e in list ==> Plain(e)
  {
    hide Tokens, Joins, GetNsFlag, Print, Items, Wanted;
    if forall e :: e in list ==> Plain(e) {
      TokensOfPrint(list);
      JoinsOfItems(list);
    } else if Parse(Print(list)) == Wanted(list) {
      var e :| e in list && !Plain(e);
      WantedHas(list, e);
      var text := Print(list);
      forall t | t in Tokens(text, 0, ',')
        ensures ',' !in t
      {
        TokensAreClean(text, 0, ',', t, ',');
      }
      JoinsAreClean(Tokens(text, 0, ','), Join(e.path, GetNsFlag(e.name)));
      assert false;
    }
  }
}
