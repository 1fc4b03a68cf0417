/**
 The mount options of a spec mount folded into 64 flag bits, a propagation type and a
 data string.
 */
module MountFlags {
  import opened Wrappers
  import opened Bits
  import NsHandover

  const MS_RDONLY: bv64 := 0x1
  const MS_NOSUID: bv64 := 0x2
  const MS_NODEV: bv64 := 0x4
  const MS_NOEXEC: bv64 := 0x8
  const MS_SYNCHRONOUS: bv64 := 0x10
  const MS_REMOUNT: bv64 := 0x20
  const MS_DIRSYNC: bv64 := 0x80
  const MS_NOSYMFOLLOW: bv64 := 0x100
  const MS_NOATIME: bv64 := 0x400
  const MS_NODIRATIME: bv64 := 0x800
  const MS_BIND: bv64 := 0x1000
  const MS_REC: bv64 := 0x4000
  const MS_SILENT: bv64 := 0x8000
  const MS_UNBINDABLE: bv64 := 0x20000
  const MS_PRIVATE: bv64 := 0x40000
  const MS_SLAVE: bv64 := 0x80000
  const MS_SHARED: bv64 := 0x100000
  const MS_RELATIME: bv64 := 0x200000
  const MS_I_VERSION: bv64 := 0x800000
  const MS_STRICTATIME: bv64 := 0x1000000
  const MS_LAZYTIME: bv64 := 0x2000000

  datatype MountOption = MountOption(flag: bv64, recursive: bool, invert: bool)

  function Table(opt: string): Option<MountOption> {
    match opt
    case "async" => Some(MountOption(MS_SYNCHRONOUS, false, true))
    case "atime" => Some(MountOption(MS_NOATIME, true, true))
    case "bind" => Some(MountOption(MS_BIND, false, false))
    case "defaults" => Some(MountOption(0, false, false))
    case "dev" => Some(MountOption(MS_NODEV, false, true))
    case "diratime" => Some(MountOption(MS_NODIRATIME, false, true))
    case "dirsync" => Some(MountOption(MS_DIRSYNC, false, false))
    case "exec" => Some(MountOption(MS_NOEXEC, false, true))
    case "iversion" => Some(MountOption(MS_I_VERSION, false, false))
    case "lazytime" => Some(MountOption(MS_LAZYTIME, false, false))
    case "loud" => Some(MountOption(MS_SILENT, false, true))
    case "noatime" => Some(MountOption(MS_NOATIME, true, false))
    case "nodev" => Some(MountOption(MS_NODEV, true, false))
    case "nodiratime" => Some(MountOption(MS_NODIRATIME, true, false))
    case "noexec" => Some(MountOption(MS_NOEXEC, true, false))
    case "noiversion" => Some(MountOption(MS_I_VERSION, false, true))
    case "nolazytime" => Some(MountOption(MS_LAZYTIME, false, true))
    case "norelatime" => Some(MountOption(MS_RELATIME, false, true))
    case "nostrictatime" => Some(MountOption(MS_STRICTATIME, false, true))
    case "nosuid" => Some(MountOption(MS_NOSUID, true, false))
    case "nosymfollow" => Some(MountOption(MS_NOSYMFOLLOW, true, false))
    case "private" => Some(MountOption(MS_PRIVATE, false, false))
    case "rbind" => Some(MountOption(MS_BIND, true, false))
    case "relatime" => Some(MountOption(MS_RELATIME, true, false))
    case "remount" => Some(MountOption(MS_REMOUNT, false, false))
    case "ro" => Some(MountOption(MS_RDONLY, true, false))
    case "rprivate" => Some(MountOption(MS_PRIVATE, true, false))
    case "rshared" => Some(MountOption(MS_SHARED | MS_BIND, true, false))
    case "rslave" => Some(MountOption(MS_SLAVE, true, false))
    case "runbindable" => Some(MountOption(MS_UNBINDABLE, true, false))
    case "rw" => Some(MountOption(MS_RDONLY, false, true))
    case "shared" => Some(MountOption(MS_SHARED, false, false))
    case "silent" => Some(MountOption(MS_SILENT, false, false))
    case "slave" => Some(MountOption(MS_SLAVE, false, false))
    case "strictatime" => Some(MountOption(MS_STRICTATIME, true, false))
    case "suid" => Some(MountOption(MS_NOSUID, false, true))
    case "sync" => Some(MountOption(MS_SYNCHRONOUS, false, false))
    case "unbindable" => Some(MountOption(MS_UNBINDABLE, false, false))
    case _ => None
  }

  function GetPropagationFlag(opt: string): bv64 {
    match opt
    case "private" => MS_PRIVATE
    case "rprivate" => MS_PRIVATE | MS_REC
    case "shared" => MS_SHARED
    case "rshared" => MS_SHARED | MS_REC
    case "slave" => MS_SLAVE
    case "rslave" => MS_SLAVE | MS_REC
    case "unbindable" => MS_UNBINDABLE
    case "runbindable" => MS_UNBINDABLE | MS_REC
    case _ => 0
  }

  // ---- the two tables in the kernel's numbers -----------------------------

  /** The bit that an option is about, as in sys/mount.h. */
  function KernelBit(opt: string): Option<bv64> {
    if opt in {"ro", "rw"} then Some(0x1)
    else if opt in {"nosuid", "suid"} then Some(0x2)
    else if opt in {"nodev", "dev"} then Some(0x4)
    else if opt in {"noexec", "exec"} then Some(0x8)
    else if opt in {"sync", "async"} then Some(0x10)
    else if opt == "remount" then Some(0x20)
    else if opt == "dirsync" then Some(0x80)
    else if opt == "nosymfollow" then Some(0x100)
    else if opt in {"noatime", "atime"} then Some(0x400)
    else if opt in {"nodiratime", "diratime"} then Some(0x800)
    else if opt in {"bind", "rbind"} then Some(0x1000)
    else if opt in {"silent", "loud"} then Some(0x8000)
    else if opt in {"relatime", "norelatime"} then Some(0x200000)
    else if opt in {"iversion", "noiversion"} then Some(0x800000)
    else if opt in {"strictatime", "nostrictatime"} then Some(0x1000000)
    else if opt in {"lazytime", "nolazytime"} then Some(0x2000000)
    else if opt == "defaults" then Some(0)
    else None
  }

  /** The option of a pair that clears the bit. */
  predicate Clears(opt: string) {
    opt in {"rw", "suid", "dev", "exec", "async", "atime", "diratime", "loud", "norelatime", "noiversion",
            "nostrictatime", "nolazytime"}
  }

  predicate Recursive(opt: string) {
    opt in {"ro", "nosuid", "nodev", "noexec", "noatime", "atime", "nodiratime", "relatime", "strictatime", "rbind",
            "nosymfollow"}
  }

  predicate PropagationName(opt: string) {
    opt in {"private", "rprivate", "shared", "rshared", "slave", "rslave", "unbindable", "runbindable"}
  }

  /** The propagation type by its name, recursive for the names that begin with an r. */
  function PropagationOf(opt: string): bv64
    requires PropagationName(opt)
  {
    var recursive := opt[0] == 'r';
    var name := if recursive then opt[1..] else opt;
    var flag: bv64 := if name == "private" then 0x40000 else if name == "shared" then 0x100000
                      else if name == "slave" then 0x80000 else 0x20000;
    if recursive then Or(flag, 0x4000) else flag
  }

  /** The table of options, apart from the propagation types, which never get there. */
  lemma TableMeans(opt: string)
    requires !PropagationName(opt)
    ensures Table(opt).Some? <==> KernelBit(opt).Some?
    ensures Table(opt).Some? ==>
              Table(opt) == Some(MountOption(KernelBit(opt).value, Recursive(opt), Clears(opt)))
  {}

  lemma PropagationMeans(opt: string)
    ensures GetPropagationFlag(opt) != 0 <==> PropagationName(opt)
    ensures PropagationName(opt) ==> GetPropagationFlag(opt) == PropagationOf(opt)
    ensures PropagationName(opt) ==> (Has(PropagationOf(opt), MS_REC) <==> opt[0] == 'r')
  {
    assert "rprivate"[1..] == "private" && "rshared"[1..] == "shared";
    assert "rslave"[1..] == "slave" && "runbindable"[1..] == "unbindable";
  }

  // ---- what the last option says ------------------------------------------

  /** What one option does to a bit other than MS_REC: set it, clear it or nothing.
      Propagation options are intercepted, and rro sets MS_RDONLY. */
  function Says(opt: string, b: bv64): Option<bool> {
    if GetPropagationFlag(opt) != 0 then None
    else if opt == "rro" then if Has(MS_RDONLY, b) then Some(true) else None
    else if Table(opt).Some? && Has(Table(opt).value.flag, b) then Some(!Table(opt).value.invert)
    else None
  }

  /** The last option that touches the bit, if any, sets it. */
  ghost predicate LastSays(options: seq<string>, b: bv64) {
    exists i :: && 0 <= i < |options| && Says(options[i], b) == Some(true)
                && forall j :: i < j < |options| ==> Says(options[j], b) == None
  }

  predicate IsRecursive(opt: string) {
    GetPropagationFlag(opt) == 0 && opt != "rro" && Table(opt).Some? && Table(opt).value.recursive
  }

  predicate IsData(opt: string) {
    GetPropagationFlag(opt) == 0 && opt != "rro" && Table(opt).None? && '=' in opt
  }

  function DataOptions(options: seq<string>): seq<string> {
    if options == [] then []
    else
      var n := |options| - 1;
      DataOptions(options[..n]) + if IsData(options[n]) then [options[n]] else []
  }

  /** The last propagation option, if there is one, gives the propagation type. */
  ghost predicate IsLastPropagation(options: seq<string>, p: bv64) {
    if p == 0 then forall i :: 0 <= i < |options| ==> GetPropagationFlag(options[i]) == 0
    else exists i :: && 0 <= i < |options| && GetPropagationFlag(options[i]) == p
                     && forall j :: i < j < |options| ==> GetPropagationFlag(options[j]) == 0
  }

  // ---- one option ---------------------------------------------------------

  function Step(flags: bv64, opt: string): bv64 {
    if GetPropagationFlag(opt) != 0 then flags
    else if opt == "rro" then Or(flags, MS_RDONLY)
    else if Table(opt).None? then flags
    else
      var f := Table(opt).value;
      var base := if f.invert then AndNot(flags, f.flag) else Or(flags, f.flag);
      if f.recursive then Or(base, MS_REC) else base
  }

  lemma RecIsApart(b: bv64)
    requires IsBit(b) && b != MS_REC
    ensures !Has(MS_REC, b)
  {}

  /** No table option but a propagation option names MS_REC as its flag. */
  lemma TableSparesRec(opt: string)
    ensures Table(opt).Some? ==> !Has(Table(opt).value.flag, MS_REC)
    ensures IsBit(MS_REC) && Has(MS_REC, MS_REC) && !Has(MS_RDONLY, MS_REC)
  {}

  lemma StepSays(flags: bv64, opt: string, b: bv64)
    requires IsBit(b) && b != MS_REC
    ensures Has(Step(flags, opt), b) <==>
            if Says(opt, b).Some? then Says(opt, b).value else Has(flags, b)
  {
    RecIsApart(b);
    hide IsBit, Has, Or, AndNot, Table, GetPropagationFlag;
    HasOr(flags, MS_RDONLY, b);
    if Table(opt).Some? {
      var f := Table(opt).value;
      HasOr(flags, f.flag, b);
      HasAndNot(flags, f.flag, b);
      HasOr(if f.invert then AndNot(flags, f.flag) else Or(flags, f.flag), MS_REC, b);
    }
  }

  lemma StepRec(flags: bv64, opt: string)
    ensures Has(Step(flags, opt), MS_REC) <==> Has(flags, MS_REC) || IsRecursive(opt)
  {
    TableSparesRec(opt);
    hide IsBit, Has, Or, AndNot, Table, GetPropagationFlag;
    HasOr(flags, MS_RDONLY, MS_REC);
    if Table(opt).Some? {
      var f := Table(opt).value;
      HasOr(flags, f.flag, MS_REC);
      HasAndNot(flags, f.flag, MS_REC);
      HasOr(if f.invert then AndNot(flags, f.flag) else Or(flags, f.flag), MS_REC, MS_REC);
    }
  }

  lemma LastSaysGrows(options: seq<string>, opt: string, b: bv64)
    ensures LastSays(options + [opt], b) <==>
            if Says(opt, b).Some? then Says(opt, b).value else LastSays(options, b)
  {
    hide Says;
    var all := options + [opt];
    var n := |options|;
    if LastSays(options, b) && Says(opt, b).None? {
      var i :| && 0 <= i < |options| && Says(options[i], b) == Some(true)
               && forall j :: i < j < |options| ==> Says(options[j], b) == None;
      assert Says(all[i], b) == Some(true);
    }
    if LastSays(all, b) && Says(opt, b).None? {
      var i :| && 0 <= i < |all| && Says(all[i], b) == Some(true)
               && forall j :: i < j < |all| ==> Says(all[j], b) == None;
      assert i < n && Says(options[i], b) == Some(true);
      assert forall j :: i < j < n ==> Says(options[j], b) == Says(all[j], b);
    }
    assert all[n] == opt;
  }

  /** Every bit but MS_REC is as the last option touching it says. */
  ghost predicate LastWins(options: seq<string>, flags: bv64) {
    forall b: bv64 :: IsBit(b) && b != MS_REC ==> (Has(flags, b) <==> LastSays(options, b))
  }

  /** MS_REC is set as soon as one option is recursive. */
  predicate RecIfAny(options: seq<string>, flags: bv64) {
    Has(flags, MS_REC) <==> exists i :: 0 <= i < |options| && IsRecursive(options[i])
  }

  lemma LastWinsStep(options: seq<string>, flags: bv64, opt: string)
    requires LastWins(options, flags)
    ensures LastWins(options + [opt], Step(flags, opt))
  {
    hide Has, IsBit, Says, LastSays, Step;
    forall b: bv64 | IsBit(b) && b != MS_REC
      ensures Has(Step(flags, opt), b) <==> LastSays(options + [opt], b)
    {
      StepSays(flags, opt, b);
      LastSaysGrows(options, opt, b);
    }
  }

  lemma RecStep(options: seq<string>, flags: bv64, opt: string)
    requires RecIfAny(options, flags)
    ensures RecIfAny(options + [opt], Step(flags, opt))
  {
    hide Has, Step, IsRecursive;
    StepRec(flags, opt);
    var all := options + [opt];
    assert all[|options|] == opt;
    assert forall i :: 0 <= i < |options| ==> all[i] == options[i];
  }

  lemma PropagationStep(options: seq<string>, p: bv64, opt: string)
    requires IsLastPropagation(options, p)
    ensures IsLastPropagation(options + [opt], if GetPropagationFlag(opt) != 0 then GetPropagationFlag(opt) else p)
  {
    hide GetPropagationFlag;
    var all := options + [opt];
    assert all[|options|] == opt;
    assert forall i :: 0 <= i < |options| ==> all[i] == options[i];
  }

  lemma DataStep(options: seq<string>, opt: string)
    ensures DataOptions(options + [opt]) == DataOptions(options) + if IsData(opt) then [opt] else []
  {
    assert (options + [opt])[..|options|] == options;
  }

  lemma NothingFolded()
    ensures LastWins([], 0) && RecIfAny([], 0)
  {}

  /** The option loop of MountSpecMounts. */
  method FoldOptions(options: seq<string>) returns (flags: bv64, propagation: bv64, rro: bool, data: seq<string>)
    ensures LastWins(options, flags) && RecIfAny(options, flags)
    ensures IsLastPropagation(options, propagation)
    ensures rro <==> "rro" in options
    ensures data == DataOptions(options)
  {
    flags, propagation, rro, data := 0, 0, false, [];
    NothingFolded();
    assert GetPropagationFlag("rro") == 0;
    hide LastWins, RecIfAny, Or, AndNot, Table, GetPropagationFlag;
    for i := 0 to |options|
      invariant LastWins(options[..i], flags) && RecIfAny(options[..i], flags)
      invariant IsLastPropagation(options[..i], propagation)
      invariant rro <==> "rro" in options[..i]
      invariant data == DataOptions(options[..i])
    {
      var opt := options[i];
      assert options[..i + 1] == options[..i] + [opt];
      LastWinsStep(options[..i], flags, opt);
      RecStep(options[..i], flags, opt);
      PropagationStep(options[..i], propagation, opt);
      DataStep(options[..i], opt);
      ghost var next := Step(flags, opt);
      var pf := GetPropagationFlag(opt);
      if pf != 0 {
        propagation := pf;
      } else if opt == "rro" {
        rro, flags := true, Or(flags, MS_RDONLY);
      } else if Table(opt).Some? {
        var f := Table(opt).value;
        flags := if f.invert then AndNot(flags, f.flag) else Or(flags, f.flag);
        if f.recursive {
          flags := Or(flags, MS_REC);
        }
      } else if '=' in opt {
        data := data + [opt];
      }
      assert flags == next;
    }
    assert options[..|options|] == options;
  }

  // ---- the mount ----------------------------------------------------------

  /** strings.Join with a comma. */
  function Join(parts: seq<string>): string {
    if parts == [] then ""
    else if |parts| == 1 then parts[0]
    else parts[0] + "," + Join(parts[1..])
  }

  /** Where part i begins when each takes its length and one more. */
  function Offset(parts: seq<string>, i: nat): nat
    requires i <= |parts|
  {
    if i == 0 then 0 else Offset(parts, i - 1) + |parts[i - 1]| + 1
  }

  /** Part i stands in its place, with a comma behind it unless it is the last. */
  predicate InPlace(data: string, parts: seq<string>, i: nat)
    requires i < |parts|
  {
    var o := Offset(parts, i);
    && o + |parts[i]| <= |data| && data[o..o + |parts[i]|] == parts[i]
    && (i + 1 < |parts| ==> o + |parts[i]| < |data| && data[o + |parts[i]|] == ',')
  }

  /** The parts stand one behind the other, a comma between any two, and nothing else. */
  predicate Carries(data: string, parts: seq<string>) {
    && |data| == (if parts == [] then 0 else Offset(parts, |parts|) - 1)
    && forall i :: 0 <= i < |parts| ==> InPlace(data, parts, i)
  }

  lemma {:induction false} OffsetShift(parts: seq<string>, i: nat)
    requires parts != [] && i < |parts|
    ensures Offset(parts, i + 1) == |parts[0]| + 1 + Offset(parts[1..], i)
  {
    if i > 0 {
      OffsetShift(parts, i - 1);
    }
  }

  lemma Behind<T>(front: seq<T>, c: T, tail: seq<T>, o: nat, m: nat)
    requires o + m <= |tail|
    ensures var data, n := front + [c] + tail, |front| + 1;
            && data[0..|front|] == front && data[|front|] == c
            && data[n + o..n + o + m] == tail[o..o + m]
            && (o + m < |tail| ==> data[n + o + m] == tail[o + m])
  {}

  /** What stands in its place in the rest does so in the whole. */
  lemma InPlaceBehind(front: string, tail: string, rest: seq<string>, i: nat)
    requires i < |rest| && InPlace(tail, rest, i)
    ensures InPlace(front + "," + tail, [front] + rest, i + 1)
  {
    var parts := [front] + rest;
    assert parts[1..] == rest && parts[i + 1] == rest[i];
    OffsetShift(parts, i);
    hide Offset;
    Behind(front, ',', tail, Offset(rest, i), |rest[i]|);
  }

  lemma {:induction false} JoinCarries(parts: seq<string>)
    ensures Carries(Join(parts), parts)
  {
    if |parts| == 1 {
      assert Offset(parts, 1) == |parts[0]| + 1;
    } else if |parts| > 1 {
      var front, rest := parts[0], parts[1..];
      JoinCarries(rest);
      OffsetShift(parts, |rest|);
      assert parts == [front] + rest;
      var tail := Join(rest);
      assert Join(parts) == front + "," + tail;
      hide Join;
      assert InPlace(front + "," + tail, parts, 0) by { Behind(front, ',', tail, 0, 0); }
      hide InPlace, Offset;
      forall i: nat | i < |parts|
        ensures InPlace(front + "," + tail, parts, i)
      {
        if i > 0 {
          InPlaceBehind(front, tail, rest, i - 1);
        }
      }
    }
  }

  /** Cut at its commas again, the data string gives back the parts, if and only if none
      of them has a comma of its own. */
  lemma CutStep(front: string, tail: string)
    requires front != "" && ',' !in front
    ensures NsHandover.Tokens(front, 0, ',') == [front]
    ensures NsHandover.Tokens(front + "," + tail, 0, ',') == [front] + NsHandover.Tokens(tail, 0, ',')
  {
    hide NsHandover.Tokens;
    NsHandover.FirstToken(front, "", ',');
    assert front + "" == front;
    assert front + "," + tail == front + ("," + tail) && ("," + tail)[1..] == tail;
    NsHandover.FirstToken(front, "," + tail, ',');
  }

  lemma FirstAndRest<T(!new)>(parts: seq<T>)
    requires parts != []
    ensures [parts[0]] + parts[1..] == parts
    ensures forall x :: x in parts <==> x == parts[0] || x in parts[1..]
  {
    var all := [parts[0]] + parts[1..];
    assert all == parts;
  }

  lemma {:induction false} CutOfJoin(parts: seq<string>)
    requires forall part :: part in parts ==> part != "" && ',' !in part
    ensures NsHandover.Tokens(Join(parts), 0, ',') == parts
  {
    if parts == [] {
      NsHandover.TokensAre("", 0, ',', 0);
    } else {
      hide NsHandover.Tokens;
      FirstAndRest(parts);
      assert parts[0] in parts;
      CutOfJoin(parts[1..]);
      CutStep(parts[0], Join(parts[1..]));
    }
  }

  lemma DataCutIff(parts: seq<string>)
    requires forall part :: part in parts ==> part != ""
    ensures NsHandover.Tokens(Join(parts), 0, ',') == parts <==> forall part :: part in parts ==> ',' !in part
  {
    var data := Join(parts);
    hide NsHandover.Tokens, Join;
    if forall part :: part in parts ==> ',' !in part {
      CutOfJoin(parts);
    } else if NsHandover.Tokens(data, 0, ',') == parts {
      var part :| part in parts && ',' in part;
      NsHandover.TokensAreClean(data, 0, ',', part, ',');
      assert false;
    }
  }

  lemma {:induction false} DataIsNotEmpty(options: seq<string>)
    ensures forall d :: d in DataOptions(options) ==> d != ""
  {
    if options != [] {
      DataIsNotEmpty(options[..|options| - 1]);
      hide Table, GetPropagationFlag;
    }
  }

  /** validatePropagationFlag, with MS_REC taken off. */
  predicate ValidPropagation(flag: bv64) {
    var base := AndNot(flag, MS_REC);
    base == 0 || base == MS_SHARED || base == MS_PRIVATE || base == MS_SLAVE || base == MS_UNBINDABLE
  }

  /** What SetPropagation accepts: one type or none, recursive or not. */
  lemma ValidPropagationIs(flag: bv64)
    ensures ValidPropagation(flag) <==> AndNot(flag, 0x4000) in {0, 0x20000, 0x40000, 0x80000, 0x100000}
  {
    hide AndNot;
  }

  lemma OptionsGiveValidPropagation(opt: string)
    ensures ValidPropagation(GetPropagationFlag(opt))
  {}

  datatype Call = Mount(flags: bv64, data: string) | Propagate(flag: bv64) | RecursiveReadonly

  predicate HasShared(options: seq<string>) { "shared" in options || "rshared" in options }

  /** The place of the last propagation option. */
  predicate LastPropagationAt(options: seq<string>, i: nat) {
    && i < |options| && PropagationName(options[i])
    && forall j :: i < j < |options| ==> !PropagationName(options[j])
  }

  /** The call for the propagation type is made. */
  ghost predicate Propagates(options: seq<string>) {
    (exists i: nat :: LastPropagationAt(options, i)) && !("shared" in options || "rshared" in options)
  }

  lemma LastPropagationIsOne(options: seq<string>, i: nat, j: nat)
    requires LastPropagationAt(options, i) && LastPropagationAt(options, j)
    ensures i == j
  {}

  /** What the fold says of the propagation, by the options' names. */
  lemma PropagationByName(options: seq<string>, p: bv64)
    requires IsLastPropagation(options, p)
    ensures p != 0 <==> exists i: nat :: LastPropagationAt(options, i)
    ensures p != 0 ==> ValidPropagation(p)
    ensures forall i: nat :: LastPropagationAt(options, i) ==> p == PropagationOf(options[i])
  {
    hide GetPropagationFlag, PropagationOf, PropagationName, ValidPropagation;
    forall i | 0 <= i < |options|
      ensures GetPropagationFlag(options[i]) != 0 <==> PropagationName(options[i])
      ensures PropagationName(options[i]) ==> GetPropagationFlag(options[i]) == PropagationOf(options[i])
      ensures ValidPropagation(GetPropagationFlag(options[i]))
    {
      PropagationMeans(options[i]);
      OptionsGiveValidPropagation(options[i]);
    }
    if p != 0 {
      var i: nat :| && i < |options| && GetPropagationFlag(options[i]) == p
                    && forall j :: i < j < |options| ==> GetPropagationFlag(options[j]) == 0;
      assert LastPropagationAt(options, i);
      forall j: nat | LastPropagationAt(options, j)
        ensures p == PropagationOf(options[j])
      {
        LastPropagationIsOne(options, i, j);
      }
    }
  }

  /** The calls for one mount, in order, when none of them fails: the mount itself, with
      the data options whole and in order; the propagation of the last propagation option
      unless any option anywhere in the list is shared or rshared; and the recursive
      read-only attribute. */
  method MountOne(options: seq<string>) returns (calls: seq<Call>)
    ensures |calls| == 1 + (if Propagates(options) then 1 else 0) + (if "rro" in options then 1 else 0)
    ensures calls[0].Mount? && LastWins(options, calls[0].flags) && RecIfAny(options, calls[0].flags)
    ensures Carries(calls[0].data, DataOptions(options))
    ensures NsHandover.Tokens(calls[0].data, 0, ',') == DataOptions(options) <==>
            forall d :: d in DataOptions(options) ==> ',' !in d
    ensures Propagates(options) ==> calls[1].Propagate? && ValidPropagation(calls[1].flag)
    ensures forall i: nat :: Propagates(options) && LastPropagationAt(options, i) ==>
              calls[1].flag == PropagationOf(options[i])
    ensures "rro" in options ==> calls[|calls| - 1].RecursiveReadonly?
  {
    hide LastWins, RecIfAny, ValidPropagation, PropagationOf, Carries, Join, NsHandover.Tokens;
    var flags, propagation, rro, data := FoldOptions(options);
    PropagationByName(options, propagation);
    DataIsNotEmpty(options);
    JoinCarries(data);
    DataCutIff(data);
    hide IsLastPropagation, LastPropagationAt, DataOptions;
    calls := [Mount(flags, Join(data))];
    if propagation != 0 && !HasShared(options) {
      calls := calls + [Propagate(propagation)];
    }
    if rro {
      calls := calls + [RecursiveReadonly];
    }
  }

  // ---- the root file system -----------------------------------------------

  /** SetRootfsMountPropagation: the flag it mounts "/" with, if it mounts at all. */
  function RootfsPropagation(prop: string): Option<bv64> {
    var flag := GetPropagationFlag(prop);
    if flag == 0 || Has(flag, MS_PRIVATE) then None else Some(AndNot(flag, MS_REC))
  }

  /** Nothing is done for a private or an unknown type; otherwise the plain type is
      applied, whether or not the option asked for the recursive one. */
  lemma RootfsPropagationIsPlain(prop: string)
    ensures RootfsPropagation(prop) == (
              if prop == "shared" || prop == "rshared" then Some(MS_SHARED)
              else if prop == "slave" || prop == "rslave" then Some(MS_SLAVE)
              else if prop == "unbindable" || prop == "runbindable" then Some(MS_UNBINDABLE)
              else None)
  {}
}
