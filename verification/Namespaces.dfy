/**
 Where each namespace of the spec goes: into the clone flags, into a setns of the
 parent, or into the list for the C constructor; and the fixed list that exec builds.
 */
module Namespaces {
  import opened Wrappers
  import opened Bits
  import opened Decimal
  import opened NsHandover

  /** NamespaceFlags; a missing key gives 0. */
  function Flag(t: string): bv64 {
    if t == "pid" then CLONE_NEWPID
    else if t == "network" then CLONE_NEWNET
    else if t == "mount" then CLONE_NEWNS
    else if t == "ipc" then CLONE_NEWIPC
    else if t == "uts" then CLONE_NEWUTS
    else if t == "user" then CLONE_NEWUSER
    else if t == "cgroup" then CLONE_NEWCGROUP
    else if t == "time" then CLONE_NEWTIME
    else 0
  }

  /** NamespaceEnvs; a missing key gives the empty string. */
  function Env(t: string): string {
    if t == "pid" then "pid"
    else if t == "network" then "net"
    else if t == "mount" then "mnt"
    else if t == "ipc" then "ipc"
    else if t == "uts" then "uts"
    else if t == "user" then "user"
    else if t == "cgroup" then "cgroup"
    else if t == "time" then "time"
    else ""
  }

  /** The Go tables and the C table agree. */
  lemma TablesAgree(t: string)
    ensures GetNsFlag(Env(t)) == Flag(t)
  {
    EnvFlags();
    hide GetNsFlag;
  }

  /** The names under /proc/pid/ns and the numbers of clone(2). */
  lemma TableValues()
    ensures Env("user") == "user" && Flag("user") == 0x10000000
    ensures Env("pid") == "pid" && Flag("pid") == 0x20000000
    ensures Env("network") == "net" && Flag("network") == 0x40000000
    ensures Env("ipc") == "ipc" && Flag("ipc") == 0x08000000
    ensures Env("uts") == "uts" && Flag("uts") == 0x04000000
    ensures Env("cgroup") == "cgroup" && Flag("cgroup") == 0x02000000
    ensures Env("time") == "time" && Flag("time") == 0x80
    ensures Env("mount") == "mnt" && Flag("mount") == 0x20000
  {}

  lemma EnvFlags()
    ensures GetNsFlag("pid") == CLONE_NEWPID && GetNsFlag("net") == CLONE_NEWNET
    ensures GetNsFlag("mnt") == CLONE_NEWNS && GetNsFlag("ipc") == CLONE_NEWIPC
    ensures GetNsFlag("uts") == CLONE_NEWUTS && GetNsFlag("user") == CLONE_NEWUSER
    ensures GetNsFlag("cgroup") == CLONE_NEWCGROUP && GetNsFlag("time") == CLONE_NEWTIME
    ensures GetNsFlag("") == 0
  {}

  lemma FlagsAreBits(t: string)
    ensures Flag(t) == 0 || IsBit(Flag(t))
  {}

  lemma FlagsAreApart(t: string, u: string)
    ensures Has(Flag(t), Flag(u)) <==> t == u && Flag(t) != 0
  {}

  const JOIN_NS := "_ANOCIR_JOIN_NS"

  /** The entry for the constructor, if there is anything to join. */
  function Variable(list: seq<Entry>): seq<string> {
    if list == [] then [] else [JOIN_NS + "=" + Print(list)]
  }

  datatype Namespace = Namespace(kind: string, path: string)

  /** What the kernel says of a path: the type of the namespace it leads to, if it can
      be opened and is one, and whether setns is allowed. */
  datatype Kernel = Kernel(kindAt: string -> Option<bv64>, setns: string -> bool)

  predicate Clones(ns: Namespace) { ns.path == "" }
  predicate ParentJoins(ns: Namespace) { ns.path != "" && ns.kind == "pid" }
  predicate Listed(ns: Namespace) { ns.path != "" && ns.kind != "pid" }

  /** The join list, in spec order. */
  function JoinList(spec: seq<Namespace>): seq<Entry> {
    if spec == [] then []
    else
      var n := |spec| - 1;
      JoinList(spec[..n]) + if Listed(spec[n]) then [Entry(Env(spec[n].kind), spec[n].path)] else []
  }

  function ParentList(spec: seq<Namespace>): seq<string> {
    if spec == [] then []
    else
      var n := |spec| - 1;
      ParentList(spec[..n]) + if ParentJoins(spec[n]) then [spec[n].path] else []
  }

  /** The types of the entries that go into the clone flags, in spec order. */
  function CloneList(spec: seq<Namespace>): seq<string> {
    if spec == [] then []
    else
      var n := |spec| - 1;
      CloneList(spec[..n]) + if Clones(spec[n]) then [spec[n].kind] else []
  }

  /** The three ways share out the spec: nothing is lost and nothing goes two ways. */
  lemma {:induction false} ThreeWays(spec: seq<Namespace>)
    ensures |CloneList(spec)| + |ParentList(spec)| + |JoinList(spec)| == |spec|
    ensures forall t :: t in CloneList(spec) <==> exists i :: 0 <= i < |spec| && spec[i].kind == t && Clones(spec[i])
  {
    hide Env;
    if spec != [] {
      var n := |spec| - 1;
      ThreeWays(spec[..n]);
      forall t | t in CloneList(spec[..n])
        ensures exists i :: 0 <= i < |spec| && spec[i].kind == t && Clones(spec[i])
      {
        var i :| 0 <= i < n && spec[..n][i].kind == t && Clones(spec[..n][i]);
        assert spec[i].kind == t;
      }
      forall i | 0 <= i < |spec| && Clones(spec[i])
        ensures spec[i].kind in CloneList(spec)
      {
        if i < n {
          assert spec[..n][i] == spec[i];
        }
      }
    }
  }

  /** OpenNSPath and setns let the entry through. */
  predicate Accepted(k: Kernel, offsetsFail: bool, ns: Namespace) {
    && (ns.kind == "time" ==> !offsetsFail)
    && (ns.path != "" ==>
          && k.kindAt(ns.path) == Some(Flag(ns.kind))
          && (ns.kind == "pid" ==> k.setns(ns.path)))
  }

  /** A type's flag is set exactly when some entry of the type has no path. */
  ghost predicate CloneFlagsFor(spec: seq<Namespace>, flags: bv64) {
    forall t :: Flag(t) != 0 ==>
      (Has(flags, Flag(t)) <==> exists i :: 0 <= i < |spec| && spec[i].kind == t && Clones(spec[i]))
  }

  /** Everything sorted so far: flags, join list and parent joins. */
  ghost predicate Sorted(spec: seq<Namespace>, flags: bv64, parts: seq<Entry>, joined: seq<string>) {
    CloneFlagsFor(spec, flags) && parts == JoinList(spec) && joined == ParentList(spec)
  }

  lemma SortedStep(spec: seq<Namespace>, flags: bv64, parts: seq<Entry>, joined: seq<string>, ns: Namespace)
    requires Sorted(spec, flags, parts, joined)
    ensures Clones(ns) ==> Sorted(spec + [ns], Or(flags, Flag(ns.kind)), parts, joined)
    ensures ParentJoins(ns) ==> Sorted(spec + [ns], flags, parts, joined + [ns.path])
    ensures Listed(ns) ==> Sorted(spec + [ns], flags, parts + [Entry(Env(ns.kind), ns.path)], joined)
  {
    CloneStep(spec, flags, ns);
    hide CloneFlagsFor, Flag, Env, Or;
    assert (spec + [ns])[..|spec|] == spec;
  }

  /** The parts of exec.Cmd that are configured. */
  class Cmd {
    var cloneflags: bv64
    var userMapped: bool
    var env: seq<string>
    var joined: seq<string>   // what the parent itself has entered, in order

    constructor ()
      ensures cloneflags == 0 && !userMapped && env == [] && joined == []
    {
      cloneflags, userMapped, env, joined := 0, false, [], [];
    }

    /** One namespace goes its way. */
    method Place(ns: Namespace, k: Kernel, parts: seq<Entry>) returns (ok: bool, more: seq<Entry>)
      modifies this`cloneflags, this`joined
      ensures ok <==> ns.path != "" ==>
                        k.kindAt(ns.path) == Some(Flag(ns.kind)) && (ns.kind == "pid" ==> k.setns(ns.path))
      ensures ok ==> cloneflags == if Clones(ns) then Or(old(cloneflags), Flag(ns.kind)) else old(cloneflags)
      ensures ok ==> joined == if ParentJoins(ns) then old(joined) + [ns.path] else old(joined)
      ensures ok ==> more == if Listed(ns) then parts + [Entry(Env(ns.kind), ns.path)] else parts
    {
      ok, more := true, parts;
      hide Flag, Env, Or;
      if ns.path == "" {
        cloneflags := Or(cloneflags, Flag(ns.kind));
      } else if k.kindAt(ns.path) != Some(Flag(ns.kind)) {
        ok := false;
      } else if ns.kind == "pid" {
        ok := k.setns(ns.path);
        joined := joined + [ns.path];
      } else {
        more := more + [Entry(Env(ns.kind), ns.path)];
      }
    }

    /** One turn of the loop. */
    method TakeOne(ghost before: seq<Namespace>, ns: Namespace, k: Kernel, offsetsFail: bool, parts: seq<Entry>)
      returns (ok: bool, more: seq<Entry>)
      requires Sorted(before, cloneflags, parts, joined)
      modifies this`cloneflags, this`joined, this`userMapped
      ensures ok <==> Accepted(k, offsetsFail, ns)
      ensures ok ==> Sorted(before + [ns], cloneflags, more, joined)
      ensures userMapped == (old(userMapped) || ns.kind == "user")
    {
      SortedStep(before, cloneflags, parts, joined, ns);
      AcceptedMeans(k, offsetsFail, ns);
      hide Flag, Env, Or, Sorted, Accepted;
      if ns.kind == "user" {
        userMapped := true;
      }
      if ns.kind == "time" && offsetsFail {
        return false, parts;
      }
      ok, more := Place(ns, k, parts);
    }

    method ConfigureNamespaces(spec: seq<Namespace>, k: Kernel, offsetsFail: bool)
      returns (ok: bool)
      requires joined == []
      modifies this
      ensures ok <==> forall i :: 0 <= i < |spec| ==> Accepted(k, offsetsFail, spec[i])
      ensures ok ==> CloneFlagsFor(spec, cloneflags) && joined == ParentList(spec)
      ensures ok ==> env == old(env) + Variable(JoinList(spec))
      ensures !ok ==> env == old(env)
      ensures ok ==> (userMapped <==> old(userMapped) || exists i :: 0 <= i < |spec| && spec[i].kind == "user")
    {
      cloneflags := 0;
      var parts := [];
      CloneNothing();
      ghost var was := env;
      assert Sorted([], 0, [], []);
      hide Flag, Env, Or, Print, Sorted, Accepted;
      for i := 0 to |spec|
        invariant forall j :: 0 <= j < i ==> Accepted(k, offsetsFail, spec[j])
        invariant Sorted(spec[..i], cloneflags, parts, joined)
        invariant env == was
        invariant userMapped <==> old(userMapped) || exists j :: 0 <= j < i && spec[j].kind == "user"
      {
        var ns := spec[i];
        assert spec[..i + 1] == spec[..i] + [ns];
        ok, parts := TakeOne(spec[..i], ns, k, offsetsFail, parts);
        if !ok {
          return;
        }
      }
      assert spec[..|spec|] == spec;
      SortedMeans(spec, cloneflags, parts, joined);
      if parts != [] {
        env := env + [JOIN_NS + "=" + Print(parts)];
      }
      ok := true;
    }
  }

  lemma AcceptedMeans(k: Kernel, offsetsFail: bool, ns: Namespace)
    ensures Accepted(k, offsetsFail, ns) <==>
              && (ns.kind == "time" ==> !offsetsFail)
              && (ns.path != "" ==>
                    && k.kindAt(ns.path) == Some(Flag(ns.kind))
                    && (ns.kind == "pid" ==> k.setns(ns.path)))
  {}

  lemma SortedMeans(spec: seq<Namespace>, flags: bv64, parts: seq<Entry>, joined: seq<string>)
    ensures Sorted(spec, flags, parts, joined) ==>
              CloneFlagsFor(spec, flags) && parts == JoinList(spec) && joined == ParentList(spec)
  {}

  lemma CloneNothing()
    ensures CloneFlagsFor([], 0)
  {
    forall t ensures !Has(0, Flag(t)) {
      NoBits(Flag(t));
    }
    hide Has, Flag;
  }

  lemma CloneStep(spec: seq<Namespace>, flags: bv64, ns: Namespace)
    requires CloneFlagsFor(spec, flags)
    ensures CloneFlagsFor(spec + [ns], if Clones(ns) then Or(flags, Flag(ns.kind)) else flags)
  {
    hide Flag, Has, Or;
    var all := spec + [ns];
    assert all[|spec|] == ns && forall i :: 0 <= i < |spec| ==> all[i] == spec[i];
    forall t | Flag(t) != 0
      ensures Has(if Clones(ns) then Or(flags, Flag(ns.kind)) else flags, Flag(t)) <==>
              exists i :: 0 <= i < |all| && all[i].kind == t && Clones(all[i])
    {
      FlagsAreBits(t);
      FlagsAreApart(ns.kind, t);
      HasOr(flags, Flag(ns.kind), Flag(t));
    }
  }

  // ---- together with the constructor --------------------------------------

  /** The joins that the spec asks of the constructor. */
  function JoinsAsked(spec: seq<Namespace>): seq<Join> {
    if spec == [] then []
    else
      var n := |spec| - 1;
      JoinsAsked(spec[..n]) + if Listed(spec[n]) then [Join(spec[n].path, Flag(spec[n].kind))] else []
  }

  lemma {:induction false} WantedAppend(list: seq<Entry>, e: Entry)
    ensures Wanted(list + [e]) == Wanted(list) + [Join(e.path, GetNsFlag(e.name))]
  {
    hide GetNsFlag;
    if list == [] {
      assert [e][1..] == [];
    } else {
      assert (list + [e])[1..] == list[1..] + [e];
      WantedAppend(list[1..], e);
    }
  }

  lemma {:induction false} WantedIsAsked(spec: seq<Namespace>)
    ensures Wanted(JoinList(spec)) == JoinsAsked(spec)
  {
    if spec != [] {
      var n := |spec| - 1;
      WantedIsAsked(spec[..n]);
      TablesAgree(spec[n].kind);
      hide GetNsFlag, Flag, Env;
      if Listed(spec[n]) {
        WantedAppend(JoinList(spec[..n]), Entry(Env(spec[n].kind), spec[n].path));
      } else {
        assert JoinList(spec) == JoinList(spec[..n]);
      }
    }
  }

  lemma {:induction false} ListedFrom(spec: seq<Namespace>, e: Entry)
    ensures e in JoinList(spec) <==>
            exists i :: 0 <= i < |spec| && Listed(spec[i]) && e == Entry(Env(spec[i].kind), spec[i].path)
  {
    hide Env;
    if spec != [] {
      ListedFrom(spec[..|spec| - 1], e);
    }
  }

  /** For a spec that configureNamespaces accepts, parsing the printed list gives exactly
      the listed namespaces, in spec order and each with its own flag, if and only if no
      listed path has a comma or a colon in it. */
  lemma SpecIsPrintedExactly(spec: seq<Namespace>, k: Kernel, offsetsFail: bool)
    requires forall p :: k.kindAt(p).Some? ==> k.kindAt(p).value != 0
    requires forall i :: 0 <= i < |spec| ==> Accepted(k, offsetsFail, spec[i])
    ensures Parse(Print(JoinList(spec))) == JoinsAsked(spec) <==>
            forall i :: 0 <= i < |spec| && Listed(spec[i]) ==> ',' !in spec[i].path && ':' !in spec[i].path
  {
    var list := JoinList(spec);
    hide Parse, Print, Flag, Env, GetNsFlag, JoinList, JoinsAsked, Wanted;
    forall e | e in list
      ensures Printable(e)
    {
      ListedFrom(spec, e);
      var i :| 0 <= i < |spec| && Listed(spec[i]) && e == Entry(Env(spec[i].kind), spec[i].path);
      TablesAgree(spec[i].kind);
    }
    HandoverIsExact(list);
    WantedIsAsked(spec);
    if forall e :: e in list ==> Plain(e) {
      forall i | 0 <= i < |spec| && Listed(spec[i])
        ensures ',' !in spec[i].path && ':' !in spec[i].path
      {
        ListedFrom(spec, Entry(Env(spec[i].kind), spec[i].path));
        assert Plain(Entry(Env(spec[i].kind), spec[i].path));
      }
    } else {
      var e :| e in list && !Plain(e);
      ListedFrom(spec, e);
    }
  }

  // ---- exec ---------------------------------------------------------------

  /** The order in which exec goes through the namespaces of a running container. */
  const ORDER := ["user", "pid", "network", "ipc", "uts", "cgroup", "time", "mount"]

  function ProcPath(pid: int, t: string): string { "/proc/" + Itoa(pid) + "/ns/" + Env(t) }

  /** The types whose namespace exec leaves to the constructor. */
  predicate LeftToConstructor(t: string) { t != "user" && t != "pid" && t != "time" }

  /** What exec learns of the namespace files: the file that a path leads to, if stat
      works, and whether open and setns do. */
  datatype Files = Files(stat: string -> Option<nat>, opens: string -> bool, setns: string -> bool)

  /** sharedNamespace with the host's first process; no answer if either stat fails. */
  function Shared(f: Files, pid: int, t: string): Option<bool> {
    var mine, host := f.stat(ProcPath(pid, t)), f.stat(ProcPath(1, t));
    if mine.None? || host.None? then None else Some(mine == host)
  }

  /** The file that exec itself enters: a child's time namespace has a name of its own. */
  function EnteredPath(pid: int, t: string): string {
    if t == "time" then "/proc/" + Itoa(pid) + "/ns/time_for_children" else ProcPath(pid, t)
  }

  /** Exec gets past this namespace. */
  predicate Passes(f: Files, pid: int, t: string) {
    && Shared(f, pid, t).Some?
    && (!Shared(f, pid, t).value && t != "user" ==> f.opens(EnteredPath(pid, t)))
    && (!Shared(f, pid, t).value && (t == "time" || t == "pid") ==> f.setns(EnteredPath(pid, t)))
  }

  function ExecList(f: Files, pid: int, types: seq<string>): seq<Entry> {
    if types == [] then [] else ExecItem(f, pid, types[0]) + ExecList(f, pid, types[1..])
  }

  function ExecItem(f: Files, pid: int, t: string): seq<Entry> {
    if Shared(f, pid, t) == Some(false) && LeftToConstructor(t) then [Entry(Env(t), ProcPath(pid, t))] else []
  }

  /** What the parent enters itself, so that the child it forks is inside. */
  function Entered(f: Files, pid: int, types: seq<string>): seq<string> {
    if types == [] then [] else EnteredItem(f, pid, types[0]) + Entered(f, pid, types[1..])
  }

  function EnteredItem(f: Files, pid: int, t: string): seq<string> {
    if Shared(f, pid, t) == Some(false) && (t == "time" || t == "pid") then [EnteredPath(pid, t)] else []
  }

  lemma ExecListGrows(f: Files, pid: int, types: seq<string>, t: string)
    ensures ExecList(f, pid, types + [t]) == ExecList(f, pid, types) + ExecItem(f, pid, t)
    ensures Entered(f, pid, types + [t]) == Entered(f, pid, types) + EnteredItem(f, pid, t)
  {
    hide ExecItem, EnteredItem;
    if types == [] {
      assert [t][1..] == [];
    } else {
      assert (types + [t])[1..] == types[1..] + [t];
      ExecListGrows(f, pid, types[1..], t);
    }
  }

  lemma {:induction false} ExecListIsPlain(f: Files, pid: int, types: seq<string>)
    requires forall t :: t in types ==> Flag(t) != 0
    ensures forall e :: e in ExecList(f, pid, types) ==> Printable(e) && Plain(e)
  {
    if types != [] {
      ExecListIsPlain(f, pid, types[1..]);
      TablesAgree(types[0]);
      ProcPathIsPlain(pid, types[0]);
      hide ProcPath, Env, Flag, GetNsFlag, Shared;
    }
  }

  /** One turn of the loop over the namespaces in Exec; asRoot says that the child is to
      run as root of the container's user namespace. */
  method ExecOne(f: Files, pid: int, t: string)
    returns (ok: bool, part: seq<Entry>, entered: seq<string>, asRoot: bool)
    ensures ok <==> Passes(f, pid, t)
    ensures ok ==> part == ExecItem(f, pid, t) && entered == EnteredItem(f, pid, t)
    ensures ok ==> asRoot == (t == "user" && Shared(f, pid, t) == Some(false))
  {
    hide Env, ProcPath, EnteredPath;
    part, entered, asRoot := [], [], false;
    var shared := Shared(f, pid, t);
    if shared.None? {
      return false, part, entered, false;
    }
    if shared.value || t == "user" {
      return true, part, entered, !shared.value;
    }
    var path := EnteredPath(pid, t);
    if !f.opens(path) {
      return false, part, entered, false;
    }
    if t == "time" || t == "pid" {
      if !f.setns(path) {
        return false, part, entered, false;
      }
      entered := [path];
    } else {
      part := [Entry(Env(t), ProcPath(pid, t))];
    }
    ok := true;
  }

  /** The loop over the namespaces in Exec: which of them it enters itself and which it
      lists, in order, or that a call on one of them failed. */
  method ExecLoop(f: Files, pid: int, types: seq<string>)
    returns (ok: bool, parts: seq<Entry>, entered: seq<string>, asRoot: bool)
    ensures ok <==> forall t :: t in types ==> Passes(f, pid, t)
    ensures ok ==> parts == ExecList(f, pid, types) && entered == Entered(f, pid, types)
    ensures ok ==> asRoot == ("user" in types && Shared(f, pid, "user") == Some(false))
  {
    hide Passes, ExecItem, EnteredItem, Shared;
    parts, entered, asRoot := [], [], false;
    for i := 0 to |types|
      invariant forall t :: t in types[..i] ==> Passes(f, pid, t)
      invariant asRoot == ("user" in types[..i] && Shared(f, pid, "user") == Some(false))
      invariant parts == ExecList(f, pid, types[..i]) && entered == Entered(f, pid, types[..i])
    {
      var t := types[i];
      assert types[..i + 1] == types[..i] + [t];
      ExecListGrows(f, pid, types[..i], t);
      var part, more, root;
      ok, part, more, root := ExecOne(f, pid, t);
      if !ok {
        return;
      }
      parts, entered, asRoot := parts + part, entered + more, asRoot || root;
    }
    assert types[..|types|] == types;
    ok := true;
  }

  // ---- what exec asks for, by the names under /proc -----------------------

  /** The container's namespace of this name is not the one of the host's first process. */
  predicate Apart(f: Files, pid: int, name: string) {
    var mine, host := f.stat("/proc/" + Itoa(pid) + "/ns/" + name), f.stat("/proc/1/ns/" + name);
    mine.Some? && host.Some? && mine != host
  }

  predicate Answered(f: Files, pid: int, name: string) {
    f.stat("/proc/" + Itoa(pid) + "/ns/" + name).Some? && f.stat("/proc/1/ns/" + name).Some?
  }

  function JoinIf(f: Files, pid: int, name: string, flag: bv64): seq<Join> {
    if Apart(f, pid, name) then [Join("/proc/" + Itoa(pid) + "/ns/" + name, flag)] else []
  }

  /** The joins that an exec needs of the constructor, the mount namespace last. */
  function ExecAsks(f: Files, pid: int): seq<Join> {
    JoinIf(f, pid, "net", 0x40000000) + JoinIf(f, pid, "ipc", 0x08000000) + JoinIf(f, pid, "uts", 0x04000000)
    + JoinIf(f, pid, "cgroup", 0x02000000) + JoinIf(f, pid, "mnt", 0x20000)
  }

  /** What exec itself has to enter: the pid namespace, and then the time namespace by
      the name that its children get it under. */
  function ExecEnters(f: Files, pid: int): seq<string> {
    (if Apart(f, pid, "pid") then ["/proc/" + Itoa(pid) + "/ns/pid"] else [])
    + if Apart(f, pid, "time") then ["/proc/" + Itoa(pid) + "/ns/time_for_children"] else []
  }

  /** The calls that have to work for it. */
  predicate ExecWorks(f: Files, pid: int) {
    var ns := "/proc/" + Itoa(pid) + "/ns/";
    && (forall name :: name in {"user", "pid", "net", "ipc", "uts", "cgroup", "time", "mnt"} ==> Answered(f, pid, name))
    && (forall name :: name in {"pid", "net", "ipc", "uts", "cgroup", "mnt"} && Apart(f, pid, name) ==>
          f.opens(ns + name))
    && (Apart(f, pid, "pid") ==> f.setns(ns + "pid"))
    && (Apart(f, pid, "time") ==> f.opens(ns + "time_for_children") && f.setns(ns + "time_for_children"))
  }

  lemma ItoaOne()
    ensures Itoa(1) == "1"
  {}

  lemma PathIs(pid: int, t: string, name: string)
    requires Env(t) == name
    ensures ProcPath(pid, t) == "/proc/" + Itoa(pid) + "/ns/" + name
    ensures ProcPath(1, t) == "/proc/1/ns/" + name
  {
    ItoaOne();
    hide Itoa, Env;
    assert "/proc/" + "1" + "/ns/" == "/proc/1/ns/";
  }

  /** One type by its name: what becomes of it in exec. */
  lemma TypeIs(f: Files, pid: int, t: string, name: string)
    requires Env(t) == name
    ensures Shared(f, pid, t).Some? <==> Answered(f, pid, name)
    ensures Shared(f, pid, t) == Some(false) <==> Apart(f, pid, name)
    ensures LeftToConstructor(t) ==> Wanted(ExecItem(f, pid, t)) == JoinIf(f, pid, name, Flag(t))
    ensures LeftToConstructor(t) ==> EnteredItem(f, pid, t) == []
    ensures !LeftToConstructor(t) ==> ExecItem(f, pid, t) == []
  {
    PathIs(pid, t, name);
    TablesAgree(t);
    hide Itoa, Env, Flag, GetNsFlag, ProcPath, EnteredPath;
    var e := Entry(name, "/proc/" + Itoa(pid) + "/ns/" + name);
    assert [e][1..] == [];
  }

  lemma {:induction false} WantedConcat(a: seq<Entry>, b: seq<Entry>)
    ensures Wanted(a + b) == Wanted(a) + Wanted(b)
  {
    hide GetNsFlag;
    if a == [] {
      assert a + b == b;
    } else {
      assert (a + b)[1..] == a[1..] + b;
      WantedConcat(a[1..], b);
    }
  }

  lemma ExecListFrom(f: Files, pid: int, t: string, rest: seq<string>)
    ensures Wanted(ExecList(f, pid, [t] + rest)) == Wanted(ExecItem(f, pid, t)) + Wanted(ExecList(f, pid, rest))
    ensures Entered(f, pid, [t] + rest) == EnteredItem(f, pid, t) + Entered(f, pid, rest)
  {
    hide ExecItem, EnteredItem;
    assert ([t] + rest)[1..] == rest;
    WantedConcat(ExecItem(f, pid, t), ExecList(f, pid, rest));
  }

  lemma OrderIs(f: Files, pid: int)
    ensures var I := (t: string) => Wanted(ExecItem(f, pid, t));
            Wanted(ExecList(f, pid, ORDER)) ==
            I("user") + (I("pid") + (I("network") + (I("ipc") + (I("uts") + (I("cgroup") + (I("time") + I("mount")))))))
    ensures var E := (t: string) => EnteredItem(f, pid, t);
            Entered(f, pid, ORDER) ==
            E("user") + (E("pid") + (E("network") + (E("ipc") + (E("uts") + (E("cgroup") + (E("time") + E("mount")))))))
  {
    hide Wanted, ExecItem, EnteredItem, ExecList, Entered;
    var r7 := ["mount"];
    var r6 := ["time"] + r7;
    var r5 := ["cgroup"] + r6;
    var r4 := ["uts"] + r5;
    var r3 := ["ipc"] + r4;
    var r2 := ["network"] + r3;
    var r1 := ["pid"] + r2;
    assert ORDER == ["user"] + r1;
    ExecListFrom(f, pid, "user", r1);
    ExecListFrom(f, pid, "pid", r2);
    ExecListFrom(f, pid, "network", r3);
    ExecListFrom(f, pid, "ipc", r4);
    ExecListFrom(f, pid, "uts", r5);
    ExecListFrom(f, pid, "cgroup", r6);
    ExecListFrom(f, pid, "time", r7);
    LastType(f, pid);
  }

  lemma LastType(f: Files, pid: int)
    ensures ExecList(f, pid, ["mount"]) == ExecItem(f, pid, "mount")
    ensures Entered(f, pid, ["mount"]) == EnteredItem(f, pid, "mount")
  {
    hide ExecItem, EnteredItem;
    assert ["mount"][1..] == [];
  }

  lemma JoinsAre(f: Files, pid: int)
    ensures Wanted(ExecItem(f, pid, "user")) == [] && Wanted(ExecItem(f, pid, "pid")) == []
    ensures Wanted(ExecItem(f, pid, "time")) == []
    ensures Wanted(ExecItem(f, pid, "network")) == JoinIf(f, pid, "net", 0x40000000)
    ensures Wanted(ExecItem(f, pid, "ipc")) == JoinIf(f, pid, "ipc", 0x08000000)
    ensures Wanted(ExecItem(f, pid, "uts")) == JoinIf(f, pid, "uts", 0x04000000)
    ensures Wanted(ExecItem(f, pid, "cgroup")) == JoinIf(f, pid, "cgroup", 0x02000000)
    ensures Wanted(ExecItem(f, pid, "mount")) == JoinIf(f, pid, "mnt", 0x20000)
  {
    TableValues();
    hide Env, Flag, ExecItem, EnteredItem, Shared, Apart, Answered, JoinIf, Wanted;
    TypeIs(f, pid, "user", "user");
    TypeIs(f, pid, "pid", "pid");
    TypeIs(f, pid, "time", "time");
    TypeIs(f, pid, "network", "net");
    TypeIs(f, pid, "ipc", "ipc");
    TypeIs(f, pid, "uts", "uts");
    TypeIs(f, pid, "cgroup", "cgroup");
    TypeIs(f, pid, "mount", "mnt");
    NothingWanted();
  }

  lemma NothingEntered(f: Files, pid: int)
    ensures EnteredItem(f, pid, "network") == [] && EnteredItem(f, pid, "ipc") == []
    ensures EnteredItem(f, pid, "uts") == [] && EnteredItem(f, pid, "cgroup") == []
    ensures EnteredItem(f, pid, "mount") == []
  {
    hide Shared, EnteredPath;
  }

  lemma Regroup<T>(a: seq<T>, b: seq<T>, c: seq<T>, d: seq<T>, e: seq<T>)
    ensures [] + ([] + (a + (b + (c + (d + ([] + e)))))) == a + b + c + d + e
    ensures [] + (a + ([] + ([] + ([] + ([] + (b + [])))))) == a + b
  {}

  /** The list and the parent's own joins are the ones that exec needs, however much the
      container shares with the host. */
  lemma ExecListIsRight(f: Files, pid: int)
    ensures Wanted(ExecList(f, pid, ORDER)) == ExecAsks(f, pid)
    ensures Entered(f, pid, ORDER) == ExecEnters(f, pid)
  {
    hide Wanted, ExecList, ExecItem, Entered, EnteredItem, Apart, JoinIf;
    OrderIs(f, pid);
    JoinsAre(f, pid);
    Regroup(JoinIf(f, pid, "net", 0x40000000), JoinIf(f, pid, "ipc", 0x08000000), JoinIf(f, pid, "uts", 0x04000000),
            JoinIf(f, pid, "cgroup", 0x02000000), JoinIf(f, pid, "mnt", 0x20000));
    EnteredAre(f, pid);
    NothingEntered(f, pid);
    Regroup(EnteredItem(f, pid, "pid"), EnteredItem(f, pid, "time"), [], [], []);
  }

  lemma EnteredAre(f: Files, pid: int)
    ensures EnteredItem(f, pid, "user") == []
    ensures EnteredItem(f, pid, "pid") == if Apart(f, pid, "pid") then ["/proc/" + Itoa(pid) + "/ns/pid"] else []
    ensures EnteredItem(f, pid, "time") ==
            if Apart(f, pid, "time") then ["/proc/" + Itoa(pid) + "/ns/time_for_children"] else []
  {
    TableValues();
    TypeIs(f, pid, "pid", "pid");
    TypeIs(f, pid, "time", "time");
    PathIs(pid, "pid", "pid");
    hide Itoa, Env, Flag, Shared, Apart, ProcPath;
    assert "/proc/" + Itoa(pid) + "/ns/" + "pid" == "/proc/" + Itoa(pid) + "/ns/pid";
  }

  lemma NothingWanted()
    ensures Wanted([]) == []
  {}

  /** One type by its name: the calls that have to work for it. */
  lemma PassesIs(f: Files, pid: int, t: string, name: string)
    requires Env(t) == name
    ensures var ns := "/proc/" + Itoa(pid) + "/ns/";
            Passes(f, pid, t) <==>
              && Answered(f, pid, name)
              && (Apart(f, pid, name) && t != "user" && t != "time" ==> f.opens(ns + name))
              && (Apart(f, pid, name) && t == "pid" ==> f.setns(ns + name))
              && (Apart(f, pid, name) && t == "time" ==>
                    f.opens(ns + "time_for_children") && f.setns(ns + "time_for_children"))
  {
    PathIs(pid, t, name);
    TypeIs(f, pid, t, name);
    hide Itoa, Env, ProcPath, Shared, Answered, Apart;
    assert "/proc/" + Itoa(pid) + "/ns/" + "time_for_children" == "/proc/" + Itoa(pid) + "/ns/time_for_children";
  }

  lemma ExecWorksIff(f: Files, pid: int)
    ensures (forall t :: t in ORDER ==> Passes(f, pid, t)) <==> ExecWorks(f, pid)
  {
    TableValues();
    hide Env, Flag, Passes, Apart, Answered, Itoa;
    PassesIs(f, pid, "user", "user");
    PassesIs(f, pid, "pid", "pid");
    PassesIs(f, pid, "network", "net");
    PassesIs(f, pid, "ipc", "ipc");
    PassesIs(f, pid, "uts", "uts");
    PassesIs(f, pid, "cgroup", "cgroup");
    PassesIs(f, pid, "time", "time");
    PassesIs(f, pid, "mount", "mnt");
    assert ORDER[0] == "user" && ORDER[1] == "pid" && ORDER[2] == "network" && ORDER[3] == "ipc";
    assert ORDER[4] == "uts" && ORDER[5] == "cgroup" && ORDER[6] == "time" && ORDER[7] == "mount";
  }

  /** Whatever the container shares with the host, what exec prints is parsed back
      exactly: its paths have neither comma nor colon. */
  lemma ExecListIsPrintedExactly(f: Files, pid: int)
    ensures Parse(Print(ExecList(f, pid, ORDER))) == Wanted(ExecList(f, pid, ORDER))
  {
    assert forall t :: t in ORDER ==> Flag(t) != 0;
    hide Flag, ExecList, Parse, Print, Wanted;
    ExecListIsPlain(f, pid, ORDER);
    HandoverIsExact(ExecList(f, pid, ORDER));
  }

  lemma ProcPathIsPlain(pid: int, t: string)
    ensures ProcPath(pid, t) != "" && ',' !in ProcPath(pid, t) && ':' !in ProcPath(pid, t)
  {
    AtoiOfItoa(pid);
    hide Itoa, Atoi;
    assert ',' !in Env(t) && ':' !in Env(t);
    hide Env;
    assert ',' !in "/proc/" && ':' !in "/proc/" && ',' !in "/ns/" && ':' !in "/ns/";
    assert ',' !in Itoa(pid) && ':' !in Itoa(pid);
  }
}
