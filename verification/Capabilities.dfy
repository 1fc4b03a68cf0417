/**
 Capability names, the two-word masks built from them, and the list that ALL stands
 for.
 */
module Capabilities {
  import opened Wrappers

  /** What two 32-bit words can number. */
  type Cap = c: nat | c < 64

  const CAP_SETGID: Cap := 6
  const CAP_SETUID: Cap := 7
  const CAP_SETPCAP: Cap := 8
  const CAP_SYS_ADMIN: Cap := 21

  function CapOf(name: string): Option<Cap> {
    match name
    case "CAP_CHOWN" => Some(0)
    case "CAP_DAC_OVERRIDE" => Some(1)
    case "CAP_DAC_READ_SEARCH" => Some(2)
    case "CAP_FOWNER" => Some(3)
    case "CAP_FSETID" => Some(4)
    case "CAP_KILL" => Some(5)
    case "CAP_SETGID" => Some(6)
    case "CAP_SETUID" => Some(7)
    case "CAP_SETPCAP" => Some(8)
    case "CAP_LINUX_IMMUTABLE" => Some(9)
    case "CAP_NET_BIND_SERVICE" => Some(10)
    case "CAP_NET_BROADCAST" => Some(11)
    case "CAP_NET_ADMIN" => Some(12)
    case "CAP_NET_RAW" => Some(13)
    case "CAP_IPC_LOCK" => Some(14)
    case "CAP_IPC_OWNER" => Some(15)
    case "CAP_SYS_MODULE" => Some(16)
    case "CAP_SYS_RAWIO" => Some(17)
    case "CAP_SYS_CHROOT" => Some(18)
    case "CAP_SYS_PTRACE" => Some(19)
    case "CAP_SYS_PACCT" => Some(20)
    case "CAP_SYS_ADMIN" => Some(21)
    case "CAP_SYS_BOOT" => Some(22)
    case "CAP_SYS_NICE" => Some(23)
    case "CAP_SYS_RESOURCE" => Some(24)
    case "CAP_SYS_TIME" => Some(25)
    case "CAP_SYS_TTY_CONFIG" => Some(26)
    case "CAP_MKNOD" => Some(27)
    case "CAP_LEASE" => Some(28)
    case "CAP_AUDIT_WRITE" => Some(29)
    case "CAP_AUDIT_CONTROL" => Some(30)
    case "CAP_SETFCAP" => Some(31)
    case "CAP_MAC_OVERRIDE" => Some(32)
    case "CAP_MAC_ADMIN" => Some(33)
    case "CAP_SYSLOG" => Some(34)
    case "CAP_WAKE_ALARM" => Some(35)
    case "CAP_BLOCK_SUSPEND" => Some(36)
    case "CAP_AUDIT_READ" => Some(37)
    case "CAP_PERFMON" => Some(38)
    case "CAP_BPF" => Some(39)
    case "CAP_CHECKPOINT_RESTORE" => Some(40)
    case _ => None
  }

  function NameOf(c: Cap): string
    requires c <= 40
  {
    match c
    case 0 => "CAP_CHOWN"
    case 1 => "CAP_DAC_OVERRIDE"
    case 2 => "CAP_DAC_READ_SEARCH"
    case 3 => "CAP_FOWNER"
    case 4 => "CAP_FSETID"
    case 5 => "CAP_KILL"
    case 6 => "CAP_SETGID"
    case 7 => "CAP_SETUID"
    case 8 => "CAP_SETPCAP"
    case 9 => "CAP_LINUX_IMMUTABLE"
    case 10 => "CAP_NET_BIND_SERVICE"
    case 11 => "CAP_NET_BROADCAST"
    case 12 => "CAP_NET_ADMIN"
    case 13 => "CAP_NET_RAW"
    case 14 => "CAP_IPC_LOCK"
    case 15 => "CAP_IPC_OWNER"
    case 16 => "CAP_SYS_MODULE"
    case 17 => "CAP_SYS_RAWIO"
    case 18 => "CAP_SYS_CHROOT"
    case 19 => "CAP_SYS_PTRACE"
    case 20 => "CAP_SYS_PACCT"
    case 21 => "CAP_SYS_ADMIN"
    case 22 => "CAP_SYS_BOOT"
    case 23 => "CAP_SYS_NICE"
    case 24 => "CAP_SYS_RESOURCE"
    case 25 => "CAP_SYS_TIME"
    case 26 => "CAP_SYS_TTY_CONFIG"
    case 27 => "CAP_MKNOD"
    case 28 => "CAP_LEASE"
    case 29 => "CAP_AUDIT_WRITE"
    case 30 => "CAP_AUDIT_CONTROL"
    case 31 => "CAP_SETFCAP"
    case 32 => "CAP_MAC_OVERRIDE"
    case 33 => "CAP_MAC_ADMIN"
    case 34 => "CAP_SYSLOG"
    case 35 => "CAP_WAKE_ALARM"
    case 36 => "CAP_BLOCK_SUSPEND"
    case 37 => "CAP_AUDIT_READ"
    case 38 => "CAP_PERFMON"
    case 39 => "CAP_BPF"
    case 40 => "CAP_CHECKPOINT_RESTORE"
  }

  predicate Known(c: Cap) { c <= 40 }

  /** The table names every capability from 0 to 40 and no other. */
  lemma TableIsComplete(c: Cap)
    requires Known(c)
    ensures CapOf(NameOf(c)) == Some(c)
  {
    hide CapOf, NameOf;
    if c < 21 { LowerHalf(c); } else { UpperHalf(c); }
  }

  lemma LowerHalf(c: Cap)
    requires c < 21
    ensures CapOf(NameOf(c)) == Some(c)
  {}

  lemma UpperHalf(c: Cap)
    requires 21 <= c <= 40
    ensures CapOf(NameOf(c)) == Some(c)
  {}

  lemma TableIsKnown(name: string)
    ensures CapOf(name).Some? ==> Known(CapOf(name).value)
  {}

  predicate HasAll(names: seq<string>) { "ALL" in names || "CAP_ALL" in names }

  /** What a list of names asks for; unknown names ask for nothing. */
  ghost predicate Asks(names: seq<string>, c: Cap) {
    if HasAll(names) then Known(c) else exists i :: 0 <= i < |names| && CapOf(names[i]) == Some(c)
  }

  /** resolveCaps. The order in which ALL lists the table is left open by Go's maps;
      here it is by number. */
  method ResolveCaps(names: seq<string>) returns (resolved: seq<Cap>)
    ensures forall c: Cap :: c in resolved <==> Asks(names, c)
  {
    hide CapOf;
    resolved := [];
    for i := 0 to |names|
      invariant !HasAll(names[..i])
      invariant forall c: Cap :: c in resolved <==> exists j :: 0 <= j < i && CapOf(names[j]) == Some(c)
    {
      if names[i] == "ALL" || names[i] == "CAP_ALL" {
        resolved := seq(41, k requires 0 <= k < 41 => k as Cap);
        assert HasAll(names);
        assert forall c: Cap | Known(c) :: resolved[c] == c;
        return;
      }
      var c := CapOf(names[i]);
      if c.Some? {
        resolved := resolved + [c.value];
      }
    }
    assert names[..|names|] == names;
  }

  // ---- masks --------------------------------------------------------------

  function Unit(i: nat): bv32
    requires i < 32
  {
    1 << i
  }

  function Join(x: bv32, y: bv32): bv32 { x | y }

  function Common(x: bv32, y: bv32): bv32 { x & y }

  predicate Meets(x: bv32, y: bv32) { Common(x, y) != 0 }

  lemma Distribute(w: bv32, x: bv32, y: bv32)
    ensures Common(Join(w, x), y) == Join(Common(w, y), Common(x, y))
  {}

  lemma JoinZero(x: bv32, y: bv32)
    ensures Join(x, y) == 0 <==> x == 0 && y == 0
  {}

  lemma JoinMeets(w: bv32, x: bv32, y: bv32)
    ensures Meets(Join(w, x), y) <==> Meets(w, y) || Meets(x, y)
  {
    hide Join, Common;
    Distribute(w, x, y);
    JoinZero(Common(w, y), Common(x, y));
  }

  lemma UnitsMeet(i: nat, j: nat)
    requires i < 32 && j < 32
    ensures Meets(Unit(i), Unit(j)) <==> i == j
  {}

  predicate HasBit(words: seq<bv32>, c: Cap)
    requires |words| == 2
  {
    if c < 32 then Meets(words[0], Unit(c)) else Meets(words[1], Unit(c - 32))
  }

  function Shifted(words: seq<bv32>, c: Cap): (r: seq<bv32>)
    requires |words| == 2
    ensures |r| == 2
  {
    if c < 32 then [Join(words[0], Unit(c)), words[1]] else [words[0], Join(words[1], Unit(c - 32))]
  }

  lemma ShiftedBit(words: seq<bv32>, c: Cap, d: Cap)
    requires |words| == 2
    ensures HasBit(Shifted(words, c), d) <==> HasBit(words, d) || d == c
  {
    hide Meets, Join, Unit;
    if c < 32 {
      if d < 32 {
        JoinMeets(words[0], Unit(c), Unit(d));
        UnitsMeet(c, d);
      }
    } else if d >= 32 {
      JoinMeets(words[1], Unit(c - 32), Unit(d - 32));
      UnitsMeet(c - 32, d - 32);
    }
  }

  /** capShift: sets bit c of the 64 and no other. */
  method CapShift(words: array<bv32>, c: Cap)
    requires words.Length == 2
    modifies words
    ensures forall d: Cap :: HasBit(words[..], d) <==> HasBit(old(words[..]), d) || d == c
  {
    hide HasBit;
    ghost var was := words[..];
    hide Join, Unit;
    if c < 32 {
      words[0] := Join(words[0], Unit(c));
    } else {
      words[1] := Join(words[1], Unit(c - 32));
    }
    assert words[..] == Shifted(was, c);
    forall d: Cap
      ensures HasBit(words[..], d) <==> HasBit(was, d) || d == c
    {
      ShiftedBit(was, c, d);
    }
  }

  /** The mask of one capability list; an absent list gives an empty mask. */
  method Mask(names: Option<seq<string>>) returns (words: array<bv32>)
    ensures fresh(words) && words.Length == 2
    ensures forall c: Cap :: HasBit(words[..], c) <==> names.Some? && Asks(names.value, c)
  {
    hide CapOf, Asks;
    words := new bv32[2](_ => 0);
    assert forall c: Cap :: !HasBit(words[..], c) by { EmptyMask(words[..]); }
    if names.Some? {
      var resolved := ResolveCaps(names.value);
      hide HasBit;
      for i := 0 to |resolved|
        invariant forall c: Cap :: HasBit(words[..], c) <==> c in resolved[..i]
      {
        CapShift(words, resolved[i]);
        assert resolved[..i + 1] == resolved[..i] + [resolved[i]];
      }
      assert resolved[..|resolved|] == resolved;
    }
  }

  lemma EmptyMask(words: seq<bv32>)
    requires words == [0, 0]
    ensures forall c: Cap :: !HasBit(words, c)
  {
    hide Unit;
  }
}
