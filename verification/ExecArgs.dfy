/**
 The exec command line and its reader: Exec writes the options as flags of childexec,
 a table of file descriptors and an environment; childexec reads them back. A flag that
 takes a value takes the next argument whatever it looks like.
 */
module ExecArgs {
  import opened Wrappers
  import opened Decimal
  import opened Environment

  datatype ExecOpts = ExecOpts(
    cwd: string, args: seq<string>, uid: int, gid: int, env: seq<string>, gids: seq<int>, noNewPrivs: bool,
    caps: seq<string>, consoleSocket: string, containerId: string, appArmor: string, processLabel: string,
    cgroup: string)

  /** The flags as childexec declares them. */
  datatype Flags = Flags(
    cwd: string, uid: int, gid: int, args: seq<string>, envs: seq<string>, caps: seq<string>, gids: seq<int>,
    noNewPrivs: bool, tty: bool, containerId: string, appArmor: string, processLabel: string, cgroup: string)

  const Defaults := Flags("", 0, 0, [], [], [], [], false, false, "", "", "", "")

  // ---- the writer ---------------------------------------------------------

  function Slice(flag: string, values: seq<string>): seq<string> {
    if values == [] then [] else [flag, values[0]] + Slice(flag, values[1..])
  }

  function If(condition: bool, words: seq<string>): seq<string> { if condition then words else [] }

  function Numerals(ns: seq<int>): seq<string> {
    if ns == [] then [] else [Itoa(ns[0])] + Numerals(ns[1..])
  }

  function Fixed(o: ExecOpts): seq<string> {
    ["--cwd", o.cwd, "--uid", Itoa(o.uid), "--gid", Itoa(o.gid), "--container-id", o.containerId]
  }

  function Optional(o: ExecOpts): seq<string> {
    If(o.consoleSocket != "", ["--tty"])
    + If(o.noNewPrivs, ["--no-new-privs"])
    + If(o.appArmor != "", ["--apparmor", o.appArmor])
    + If(o.processLabel != "", ["--process-label", o.processLabel])
    + If(o.cgroup != "", ["--cgroup", o.cgroup])
  }

  function Lists(o: ExecOpts): seq<string> {
    Slice("--additional-gids", Numerals(o.gids)) + Slice("--caps", o.caps)
    + Slice("--envs", o.env) + Slice("--args", o.args)
  }

  /** The arguments after the subcommand name. */
  function Encoded(o: ExecOpts): seq<string> { Fixed(o) + Optional(o) + Lists(o) }

  lemma SliceGrows(flag: string, values: seq<string>, v: string)
    ensures Slice(flag, values + [v]) == Slice(flag, values) + [flag, v]
  {
    if values == [] {
      assert [v][1..] == [];
    } else {
      assert (values + [v])[1..] == values[1..] + [v];
      SliceGrows(flag, values[1..], v);
    }
  }

  lemma NumeralsGrow(ns: seq<int>, n: int)
    ensures Numerals(ns + [n]) == Numerals(ns) + [Itoa(n)]
  {
    if ns == [] {
      assert [n][1..] == [];
    } else {
      assert (ns + [n])[1..] == ns[1..] + [n];
      NumeralsGrow(ns[1..], n);
    }
  }

  method AppendArgsSlice(args: seq<string>, flag: string, values: seq<string>) returns (more: seq<string>)
    ensures more == args + Slice(flag, values)
  {
    more := args;
    for i := 0 to |values|
      invariant more == args + Slice(flag, values[..i])
    {
      assert values[..i + 1] == values[..i] + [values[i]];
      SliceGrows(flag, values[..i], values[i]);
      more := more + [flag, values[i]];
    }
    assert values[..|values|] == values;
  }

  method ItoaAll(ns: seq<int>) returns (numerals: seq<string>)
    ensures numerals == Numerals(ns)
  {
    hide Itoa;
    numerals := [];
    for i := 0 to |ns|
      invariant numerals == Numerals(ns[..i])
    {
      assert ns[..i + 1] == ns[..i] + [ns[i]];
      NumeralsGrow(ns[..i], ns[i]);
      numerals := numerals + [Itoa(ns[i])];
    }
    assert ns[..|ns|] == ns;
  }

  method AppendIf(args: seq<string>, condition: bool, words: seq<string>) returns (more: seq<string>)
    ensures more == args + If(condition, words)
  {
    more := args;
    if condition {
      more := more + words;
    }
  }

  method AppendOptional(args: seq<string>, o: ExecOpts) returns (more: seq<string>)
    ensures more == args + Optional(o)
  {
    var a := AppendIf([], o.consoleSocket != "", ["--tty"]);
    var b := AppendIf(a, o.noNewPrivs, ["--no-new-privs"]);
    var c := AppendIf(b, o.appArmor != "", ["--apparmor", o.appArmor]);
    var d := AppendIf(c, o.processLabel != "", ["--process-label", o.processLabel]);
    var e := AppendIf(d, o.cgroup != "", ["--cgroup", o.cgroup]);
    assert a == If(o.consoleSocket != "", ["--tty"]);
    hide If;
    more := args + e;
  }

  /** The argument list that Exec builds. */
  method Encode(o: ExecOpts) returns (args: seq<string>)
    ensures args == Encoded(o)
  {
    hide Itoa, Slice, Numerals, Fixed, Optional;
    var gids := ItoaAll(o.gids);
    var a := AppendOptional(Fixed(o), o);
    var b := AppendArgsSlice([], "--additional-gids", gids);
    var c := AppendArgsSlice(b, "--caps", o.caps);
    var d := AppendArgsSlice(c, "--envs", o.env);
    var e := AppendArgsSlice(d, "--args", o.args);
    assert b == Slice("--additional-gids", Numerals(o.gids));
    args := a + e;
  }

  // ---- the reader ---------------------------------------------------------

  function SetBool(f: Flags, flag: string): Option<Flags> {
    if flag == "--tty" then Some(f.(tty := true))
    else if flag == "--no-new-privs" then Some(f.(noNewPrivs := true))
    else None
  }

  /** A number flag rejects what is not a number. */
  function SetValue(f: Flags, flag: string, v: string): Option<Flags> {
    if flag == "--cwd" then Some(f.(cwd := v))
    else if flag == "--uid" then if Atoi(v).Some? then Some(f.(uid := Atoi(v).value)) else None
    else if flag == "--gid" then if Atoi(v).Some? then Some(f.(gid := Atoi(v).value)) else None
    else if flag == "--container-id" then Some(f.(containerId := v))
    else if flag == "--apparmor" then Some(f.(appArmor := v))
    else if flag == "--process-label" then Some(f.(processLabel := v))
    else if flag == "--cgroup" then Some(f.(cgroup := v))
    else if flag == "--additional-gids" then
      if Atoi(v).Some? then Some(f.(gids := f.gids + [Atoi(v).value])) else None
    else if flag == "--caps" then Some(f.(caps := f.caps + [v]))
    else if flag == "--envs" then Some(f.(envs := f.envs + [v]))
    else if flag == "--args" then Some(f.(args := f.args + [v]))
    else None
  }

  function Decode(argv: seq<string>, f: Flags): Option<Flags>
    decreases |argv|
  {
    if argv == [] then Some(f)
    else if SetBool(f, argv[0]).Some? then Decode(argv[1..], SetBool(f, argv[0]).value)
    else if |argv| == 1 || SetValue(f, argv[0], argv[1]).None? then None
    else Decode(argv[2..], SetValue(f, argv[0], argv[1]).value)
  }

  /** What the reader should end up with. */
  function Meant(o: ExecOpts): Flags {
    Flags(o.cwd, o.uid, o.gid, o.args, o.env, o.caps, o.gids, o.noNewPrivs, o.consoleSocket != "",
          o.containerId, o.appArmor, o.processLabel, o.cgroup)
  }

  // ---- the way back -------------------------------------------------------

  lemma {:induction false} DecodeOn(a: seq<string>, b: seq<string>, f: Flags)
    requires Decode(a, f).Some?
    ensures Decode(a + b, f) == Decode(b, Decode(a, f).value)
    decreases |a|
  {
    hide SetBool, SetValue;
    if a == [] {
      assert a + b == b;
    } else if SetBool(f, a[0]).Some? {
      assert (a + b)[1..] == a[1..] + b;
      DecodeOn(a[1..], b, SetBool(f, a[0]).value);
    } else {
      assert (a + b)[2..] == a[2..] + b;
      DecodeOn(a[2..], b, SetValue(f, a[0], a[1]).value);
    }
  }

  lemma DecodePair(flag: string, v: string, f: Flags)
    requires SetBool(f, flag).None?
    ensures Decode([flag, v], f) == SetValue(f, flag, v)
  {
    hide SetBool, SetValue;
    assert [flag, v][2..] == [];
  }

  lemma DecodeFixed(o: ExecOpts, f: Flags)
    ensures Decode(Fixed(o), f) ==
            Some(f.(cwd := o.cwd, uid := o.uid, gid := o.gid, containerId := o.containerId))
  {
    AtoiOfItoa(o.uid);
    AtoiOfItoa(o.gid);
    hide Itoa, Atoi;
    var f1 := f.(cwd := o.cwd);
    var f2 := f1.(uid := o.uid);
    var f3 := f2.(gid := o.gid);
    DecodePair("--cwd", o.cwd, f);
    DecodePair("--uid", Itoa(o.uid), f1);
    DecodePair("--gid", Itoa(o.gid), f2);
    DecodePair("--container-id", o.containerId, f3);
    hide SetBool, SetValue, Decode;
    DecodeOn(["--gid", Itoa(o.gid)], ["--container-id", o.containerId], f2);
    DecodeOn(["--uid", Itoa(o.uid)], ["--gid", Itoa(o.gid)] + ["--container-id", o.containerId], f1);
    DecodeOn(["--cwd", o.cwd],
             ["--uid", Itoa(o.uid)] + (["--gid", Itoa(o.gid)] + ["--container-id", o.containerId]), f);
    assert Fixed(o) == ["--cwd", o.cwd] + (["--uid", Itoa(o.uid)]
                       + (["--gid", Itoa(o.gid)] + ["--container-id", o.containerId]));
  }

  lemma DecodeSwitch(flag: string, condition: bool, f: Flags)
    requires SetBool(f, flag).Some?
    ensures Decode(If(condition, [flag]), f) == Some(if condition then SetBool(f, flag).value else f)
  {
    hide SetBool, SetValue;
    assert [flag][1..] == [];
  }

  lemma DecodeMaybe(flag: string, v: string, f: Flags)
    requires SetBool(f, flag).None? && SetValue(f, flag, v).Some?
    ensures Decode(If(v != "", [flag, v]), f) == Some(if v != "" then SetValue(f, flag, v).value else f)
  {
    DecodePair(flag, v, f);
    hide SetBool, SetValue;
  }

  /** Flags that were left out are at their defaults. */
  lemma DecodeOptional(o: ExecOpts, f: Flags)
    requires !f.tty && !f.noNewPrivs && f.appArmor == "" && f.processLabel == "" && f.cgroup == ""
    ensures Decode(Optional(o), f) ==
            Some(f.(tty := o.consoleSocket != "", noNewPrivs := o.noNewPrivs, appArmor := o.appArmor,
                    processLabel := o.processLabel, cgroup := o.cgroup))
  {
    var f1 := f.(tty := o.consoleSocket != "");
    var f2 := f1.(noNewPrivs := o.noNewPrivs);
    var f3 := f2.(appArmor := o.appArmor);
    var f4 := f3.(processLabel := o.processLabel);
    DecodeSwitch("--tty", o.consoleSocket != "", f);
    DecodeSwitch("--no-new-privs", o.noNewPrivs, f1);
    DecodeMaybe("--apparmor", o.appArmor, f2);
    DecodeMaybe("--process-label", o.processLabel, f3);
    DecodeMaybe("--cgroup", o.cgroup, f4);
    var p1, p2 := If(o.consoleSocket != "", ["--tty"]), If(o.noNewPrivs, ["--no-new-privs"]);
    var p3 := If(o.appArmor != "", ["--apparmor", o.appArmor]);
    var p4 := If(o.processLabel != "", ["--process-label", o.processLabel]);
    var p5 := If(o.cgroup != "", ["--cgroup", o.cgroup]);
    hide SetBool, SetValue, Decode, If;
    DecodeOn(p1, p2, f);
    DecodeOn(p1 + p2, p3, f);
    DecodeOn(p1 + p2 + p3, p4, f);
    DecodeOn(p1 + p2 + p3 + p4, p5, f);
  }

  /** The list that a repeated flag fills. */
  function With(f: Flags, flag: string, values: seq<string>): Flags {
    if flag == "--caps" then f.(caps := f.caps + values)
    else if flag == "--envs" then f.(envs := f.envs + values)
    else if flag == "--args" then f.(args := f.args + values)
    else f
  }

  predicate IsList(flag: string) { flag == "--caps" || flag == "--envs" || flag == "--args" }

  lemma ListValue(f: Flags, flag: string, v: string)
    requires IsList(flag)
    ensures SetBool(f, flag).None? && SetValue(f, flag, v) == Some(With(f, flag, [v]))
  {}

  lemma WithTwice(f: Flags, flag: string, a: seq<string>, b: seq<string>)
    ensures With(With(f, flag, a), flag, b) == With(f, flag, a + b)
  {
    assert f.caps + (a + b) == f.caps + a + b;
    assert f.envs + (a + b) == f.envs + a + b;
    assert f.args + (a + b) == f.args + a + b;
  }

  lemma WithNothing(f: Flags, flag: string)
    ensures With(f, flag, []) == f
  {
    assert f.caps + [] == f.caps && f.envs + [] == f.envs && f.args + [] == f.args;
  }

  lemma {:induction false} DecodeSlice(flag: string, values: seq<string>, f: Flags)
    requires IsList(flag)
    ensures Decode(Slice(flag, values), f) == Some(With(f, flag, values))
    decreases |values|
  {
    if values == [] {
      WithNothing(f, flag);
    } else {
      ListValue(f, flag, values[0]);
      DecodePair(flag, values[0], f);
      var f1 := With(f, flag, [values[0]]);
      DecodeSlice(flag, values[1..], f1);
      WithTwice(f, flag, [values[0]], values[1..]);
      assert values == [values[0]] + values[1..];
      hide SetBool, SetValue, Decode, With;
      DecodeOn([flag, values[0]], Slice(flag, values[1..]), f);
    }
  }

  lemma {:induction false} DecodeGids(gids: seq<int>, f: Flags)
    ensures Decode(Slice("--additional-gids", Numerals(gids)), f) == Some(f.(gids := f.gids + gids))
    decreases |gids|
  {
    if gids == [] {
      assert f.gids + [] == f.gids;
    } else {
      var flag, v := "--additional-gids", Itoa(gids[0]);
      AtoiOfItoa(gids[0]);
      DecodePair(flag, v, f);
      var f1 := f.(gids := f.gids + [gids[0]]);
      DecodeGids(gids[1..], f1);
      assert f.gids + [gids[0]] + gids[1..] == f.gids + gids;
      assert Numerals(gids)[0] == v && Numerals(gids)[1..] == Numerals(gids[1..]);
      hide SetBool, SetValue, Decode, Itoa, Atoi;
      DecodeOn([flag, v], Slice(flag, Numerals(gids[1..])), f);
    }
  }

  /** One more list behind what has been decoded so far. */
  lemma DecodeMore(before: seq<string>, flag: string, values: seq<string>, f: Flags, f1: Flags)
    requires IsList(flag) && Decode(before, f) == Some(f1)
    ensures Decode(before + Slice(flag, values), f) == Some(With(f1, flag, values))
  {
    hide SetBool, SetValue, Decode, Slice, With;
    DecodeSlice(flag, values, f1);
    DecodeOn(before, Slice(flag, values), f);
  }

  lemma DecodeLists(o: ExecOpts, f: Flags)
    requires f.gids == [] && f.caps == [] && f.envs == [] && f.args == []
    ensures Decode(Lists(o), f) == Some(f.(gids := o.gids, caps := o.caps, envs := o.env, args := o.args))
  {
    var p1, f1 := Slice("--additional-gids", Numerals(o.gids)), f.(gids := o.gids);
    var p2, f2 := p1 + Slice("--caps", o.caps), With(f1, "--caps", o.caps);
    var p3, f3 := p2 + Slice("--envs", o.env), With(f2, "--envs", o.env);
    hide SetBool, SetValue, Decode, Slice, Numerals;
    DecodeGids(o.gids, f);
    assert f.gids + o.gids == o.gids && f.caps + o.caps == o.caps;
    assert f.envs + o.env == o.env && f.args + o.args == o.args;
    DecodeMore(p1, "--caps", o.caps, f, f1);
    DecodeMore(p2, "--envs", o.env, f, f2);
    DecodeMore(p3, "--args", o.args, f, f3);
  }

  /** For every record of options the reader gets back what was meant; the tty flag
      follows the console socket alone. */
  lemma DecodeOfEncode(o: ExecOpts)
    ensures Decode(Encoded(o), Defaults) == Some(Meant(o))
  {
    hide SetBool, SetValue, Decode, Fixed, Optional, Lists;
    DecodeFixed(o, Defaults);
    var f1 := Defaults.(cwd := o.cwd, uid := o.uid, gid := o.gid, containerId := o.containerId);
    DecodeOptional(o, f1);
    var f2 := f1.(tty := o.consoleSocket != "", noNewPrivs := o.noNewPrivs, appArmor := o.appArmor,
                  processLabel := o.processLabel, cgroup := o.cgroup);
    DecodeLists(o, f2);
    DecodeOn(Fixed(o), Optional(o), Defaults);
    DecodeOn(Fixed(o) + Optional(o), Lists(o), Defaults);
  }

  // ---- the user -----------------------------------------------------------

  const TWO_32 := 0x1_0000_0000

  /** Conversion to uint32, which keeps the low 32 bits. */
  function Uint32(n: int): nat { n % TWO_32 }

  datatype User = User(uid: nat, gid: nat, gids: seq<nat>)

  function Truncated(ns: seq<int>): seq<nat> {
    if ns == [] then [] else Truncated(ns[..|ns| - 1]) + [Uint32(ns[|ns| - 1])]
  }

  /** The user record that the handler of childexec builds. */
  method UserOf(f: Flags) returns (user: User)
    ensures user == User(Uint32(f.uid), Uint32(f.gid), Truncated(f.gids))
  {
    var gids: seq<nat> := [];
    for i := 0 to |f.gids|
      invariant gids == Truncated(f.gids[..i])
    {
      assert f.gids[..i + 1][..i] == f.gids[..i];
      gids := gids + [Uint32(f.gids[i])];
    }
    assert f.gids[..|f.gids|] == f.gids;
    user := User(Uint32(f.uid), Uint32(f.gid), gids);
  }

  predicate InRange(n: int) { 0 <= n < TWO_32 }

  lemma {:induction false} TruncatedSame(ns: seq<int>)
    ensures |Truncated(ns)| == |ns|
    ensures forall i :: 0 <= i < |ns| ==> Truncated(ns)[i] == Uint32(ns[i])
  {
    if ns != [] {
      TruncatedSame(ns[..|ns| - 1]);
    }
  }

  /** What the conversion leaves of any number. */
  lemma Uint32Is(n: int)
    ensures 0 <= Uint32(n) < 0x1_0000_0000
    ensures exists k: int :: Uint32(n) == n + k * 0x1_0000_0000
  {
    assert Uint32(n) == n + (0 - n / TWO_32) * 0x1_0000_0000;
  }

  /** The ids survive exactly when they are uint32 values. */
  lemma IdsSurvive(o: ExecOpts)
    ensures forall n :: InRange(n) <==> 0 <= n <= 4294967295
    ensures && (Uint32(o.uid) == o.uid <==> InRange(o.uid))
            && (Uint32(o.gid) == o.gid <==> InRange(o.gid))
            && |Truncated(o.gids)| == |o.gids|
            && ((forall i :: 0 <= i < |o.gids| ==> Truncated(o.gids)[i] == o.gids[i]) <==>
                  forall i :: 0 <= i < |o.gids| ==> InRange(o.gids[i]))
  {
    TruncatedSame(o.gids);
  }

  // ---- descriptors --------------------------------------------------------

  /** The descriptor table: the child's descriptor i is the parent's files[i]. */
  function Index(files: seq<nat>, fd: nat): (k: nat)
    requires fd in files
    ensures k < |files| && files[k] == fd && forall j :: 0 <= j < k ==> files[j] != fd
  {
    if files[0] == fd then 0 else 1 + Index(files[1..], fd)
  }

  /** How often Go's range over an int goes round. */
  function Count(n: int): nat { if n < 0 then 0 else n }

  /** Three standard descriptors, the preserved ones, and the memfd with the seccomp
      profile: the preserved ones keep their numbers, and the number handed to the
      child is one where it finds the memfd, wherever in the table that is. */
  method DescriptorTable(stdin: nat, stdout: nat, stderr: nat, preserveFds: int, memfd: Option<nat>)
    returns (files: seq<nat>, index: Option<nat>)
    ensures |files| == 3 + (if preserveFds > 0 then preserveFds else 0) + (if memfd.Some? then 1 else 0)
    ensures files[0] == stdin && files[1] == stdout && files[2] == stderr
    ensures forall fd :: 3 <= fd < 3 + preserveFds ==> files[fd] == fd
    ensures index.Some? <==> memfd.Some?
    ensures index.Some? ==> index.value < |files| && files[index.value] == memfd.value
    ensures memfd.Some? && 3 <= memfd.value < 3 + preserveFds && memfd.value !in [stdin, stdout, stderr] ==>
              index == memfd
  {
    files := [stdin, stdout, stderr];
    for i := 0 to Count(preserveFds)
      invariant |files| == 3 + i && files[0] == stdin && files[1] == stdout && files[2] == stderr
      invariant forall j :: 3 <= j < 3 + i ==> files[j] == j
    {
      files := files + [3 + i];
    }
    index := None;
    if memfd.Some? {
      files := files + [memfd.value];
      var k := Index(files, memfd.value);
      index := Some(k);
      if 3 <= memfd.value < 3 + preserveFds && memfd.value !in [stdin, stdout, stderr] {
        assert files[memfd.value] == memfd.value;
      }
    }
  }

  // ---- the environment ----------------------------------------------------

  const SECCOMP_FD := "_ANOCIR_SECCOMP_FD"

  /** The index of the memfd comes last in the environment, behind the caller's own
      entries, so the child reads it exactly when the caller has not set the variable
      or has set it to the same number. */
  lemma SeccompIndexArrives(env: seq<string>, own: seq<string>, index: nat)
    requires Getenv(own, "_ANOCIR_SECCOMP_FD") == None
    ensures var all, key := env + own + [SECCOMP_FD + "=" + Itoa(index)], "_ANOCIR_SECCOMP_FD";
            && (Getenv(all, key) == Some(Itoa(index)) <==>
                  Getenv(env, key) == None || Getenv(env, key) == Some(Itoa(index)))
            && Atoi(Itoa(index)) == Some(index)
  {
    AtoiOfItoa(index);
    hide Itoa, Atoi;
    var last := SECCOMP_FD + "=" + Itoa(index);
    EntryAlone(SECCOMP_FD, Itoa(index));
    hide Getenv;
    GetenvAppend(env, own, SECCOMP_FD);
    GetenvAppend(env + own, [last], SECCOMP_FD);
  }
}
