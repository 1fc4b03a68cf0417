/**
 From the namespace list to the joins of the constructor, with the environment in
 between. Init appends the container's own environment behind the variable, and os/exec
 keeps the last entry of a key; Exec puts the caller's environment before it, and getenv
 takes the first.
 */
module Launch {
  import opened Wrappers
  import opened Bits
  import opened Decimal
  import opened Environment
  import opened NsHandover
  import opened Namespaces

  // ---- the constructor's side ---------------------------------------------

  /** The joins that the constructor finds in an environment, which it reads by a name of
      its own. */
  function Received(env: seq<string>): seq<Join> {
    var v := Getenv(env, "_ANOCIR_JOIN_NS");
    if v.None? then [] else Parse(v.value)
  }

  /** The constructor on the environment of its process. */
  method Constructor(env: seq<string>, works: Join -> bool) returns (attempted: seq<Join>, exited: bool)
    requires NulFree(env)
    ensures attempted == Attempted(Received(env), works)
    ensures exited <==> exists j :: j in Received(env) && !works(j)
  {
    hide Parse, Attempted;
    var v := FindEnv(env, "_ANOCIR_JOIN_NS");
    if v.None? {
      assert Attempted([], works) == [] by { NothingAttempted(works); }
      return [], false;
    }
    GetenvIsNulFree(env, "_ANOCIR_JOIN_NS");
    attempted, exited := NsSetup(v.value, works);
  }

  lemma NothingAttempted(works: Join -> bool)
    ensures Attempted([], works) == []
  {}

  lemma JoinNsIsKey()
    ensures IsKey(JOIN_NS)
  {}

  /** An empty list and a missing variable ask for the same: nothing. */
  lemma NothingPrinted()
    ensures Parse(Print([])) == []
  {
    TokensAre("", 0, ',', 0);
  }

  lemma VariableSets(list: seq<Entry>)
    ensures Getenv(Variable(list), JOIN_NS) == if list == [] then None else Some(Print(list))
    ensures Lastenv(Variable(list), JOIN_NS) == Getenv(Variable(list), JOIN_NS)
  {
    hide Print;
    if list != [] {
      EntryAlone(JOIN_NS, Print(list));
    }
  }

  // ---- create -------------------------------------------------------------

  /** What Init puts into the environment first: the two sockets. */
  function Sockets(initFd: nat, containerFd: nat): seq<string> {
    ["_ANOCIR_INIT_SOCK_FD=" + Itoa(initFd), "_ANOCIR_CONTAINER_SOCK_FD=" + Itoa(containerFd)]
  }

  function InitEnv(initFd: nat, containerFd: nat, list: seq<Entry>, process: seq<string>): seq<string> {
    Sockets(initFd, containerFd) + Variable(list) + process
  }

  lemma SocketsDoNotJoin(initFd: nat, containerFd: nat)
    ensures Lastenv(Sockets(initFd, containerFd), JOIN_NS) == None
  {
    hide Itoa;
    var s := Sockets(initFd, containerFd);
    assert s[0][8] == 'I' && s[1][8] == 'C' && (JOIN_NS + "=")[8] == 'J';
    NobodySets(s[0], s[1], JOIN_NS);
  }

  /** Neither the variable nor the sockets' entries get in each other's way. */
  lemma SocketsAlone(initFd: nat, containerFd: nat, list: seq<Entry>)
    ensures Lastenv(Sockets(initFd, containerFd) + Variable(list), "_ANOCIR_INIT_SOCK_FD") == Some(Itoa(initFd))
    ensures Lastenv(Sockets(initFd, containerFd) + Variable(list), "_ANOCIR_CONTAINER_SOCK_FD") ==
            Some(Itoa(containerFd))
  {
    var s, a, b := Sockets(initFd, containerFd), "_ANOCIR_INIT_SOCK_FD", "_ANOCIR_CONTAINER_SOCK_FD";
    EntryAlone(a, Itoa(initFd));
    EntryAlone(b, Itoa(containerFd));
    hide Itoa, Print;
    assert s[0] == a + "=" + Itoa(initFd) && s[1] == b + "=" + Itoa(containerFd);
    assert s[..1] == [s[0]];
    assert !Sets(s[1], a) by { assert s[1][8] == 'C' && (a + "=")[8] == 'I'; }
    assert Lastenv(Variable(list), a) == None && Lastenv(Variable(list), b) == None by {
      if list != [] {
        var v := JOIN_NS + "=" + Print(list);
        assert v[8] == 'J' && (a + "=")[8] == 'I' && (b + "=")[8] == 'C';
        NobodySets(v, v, a);
        NobodySets(v, v, b);
      }
    }
    hide Sets, ValueOf;
    LastenvAppend(s, Variable(list), a);
    LastenvAppend(s, Variable(list), b);
  }

  /** The child of Init finds its two sockets, unless the container's environment sets
      the variables for itself. */
  lemma SocketsArrive(initFd: nat, containerFd: nat, list: seq<Entry>, process: seq<string>)
    ensures var child, own := Dedup(InitEnv(initFd, containerFd, list, process), {}),
                              Lastenv(process, "_ANOCIR_INIT_SOCK_FD");
            Getenv(child, "_ANOCIR_INIT_SOCK_FD") == if own.Some? then own else Some(Itoa(initFd))
    ensures var child, own := Dedup(InitEnv(initFd, containerFd, list, process), {}),
                              Lastenv(process, "_ANOCIR_CONTAINER_SOCK_FD");
            Getenv(child, "_ANOCIR_CONTAINER_SOCK_FD") == if own.Some? then own else Some(Itoa(containerFd))
    ensures Atoi(Itoa(initFd)) == Some(initFd) && Atoi(Itoa(containerFd)) == Some(containerFd)
  {
    AtoiOfItoa(initFd);
    AtoiOfItoa(containerFd);
    SocketsAlone(initFd, containerFd, list);
    var a, b := "_ANOCIR_INIT_SOCK_FD", "_ANOCIR_CONTAINER_SOCK_FD";
    assert IsKey(a) && IsKey(b);
    hide Dedup, Sockets, Variable, Lastenv, Getenv, Itoa, Atoi, IsKey;
    LastenvAppend(Sockets(initFd, containerFd) + Variable(list), process, a);
    LastenvAppend(Sockets(initFd, containerFd) + Variable(list), process, b);
    DedupKeepsLast(InitEnv(initFd, containerFd, list, process), {}, a);
    DedupKeepsLast(InitEnv(initFd, containerFd, list, process), {}, b);
  }

  /** What the child of Init finds: the container's own value if it sets the variable at
      all, and otherwise the list. */
  lemma InitReceives(initFd: nat, containerFd: nat, list: seq<Entry>, process: seq<string>)
    ensures var child := Dedup(InitEnv(initFd, containerFd, list, process), {});
            var own := Lastenv(process, JOIN_NS);
            && Getenv(child, JOIN_NS) == (if own.Some? then own else if list == [] then None else Some(Print(list)))
            && Received(child) == if own.Some? then Parse(own.value) else Parse(Print(list))
  {
    hide Print, Parse, Dedup, Sockets;
    JoinNsIsKey();
    SocketsDoNotJoin(initFd, containerFd);
    VariableSets(list);
    NothingPrinted();
    LastenvAppend(Sockets(initFd, containerFd), Variable(list), JOIN_NS);
    LastenvAppend(Sockets(initFd, containerFd) + Variable(list), process, JOIN_NS);
    DedupKeepsLast(InitEnv(initFd, containerFd, list, process), {}, JOIN_NS);
  }

  /** The value that Init prints arrives if and only if the container's environment does
      not set the variable, or last sets it to the same text. */
  lemma InitValueArrives(initFd: nat, containerFd: nat, list: seq<Entry>, process: seq<string>)
    requires list != []
    ensures Getenv(Dedup(InitEnv(initFd, containerFd, list, process), {}), JOIN_NS) == Some(Print(list)) <==>
            Lastenv(process, JOIN_NS) == None || Lastenv(process, JOIN_NS) == Some(Print(list))
  {
    hide Print, Parse, Dedup, Sockets;
    InitReceives(initFd, containerFd, list, process);
  }

  predicate PlainPaths(spec: seq<Namespace>) {
    forall i :: 0 <= i < |spec| && Listed(spec[i]) ==> ',' !in spec[i].path && ':' !in spec[i].path
  }

  /** For an accepted spec and any environment of the container, the constructor is asked
      for exactly the listed namespaces, in spec order and each with its own flag, if and
      only if: the environment does not set the variable and no listed path has a comma
      or a colon; or it does, and its last value happens to spell the same joins. */
  lemma SpecReachesConstructor(spec: seq<Namespace>, k: Kernel, offsetsFail: bool, initFd: nat, containerFd: nat,
                               process: seq<string>)
    requires forall p :: k.kindAt(p).Some? ==> k.kindAt(p).value != 0
    requires forall i :: 0 <= i < |spec| ==> Accepted(k, offsetsFail, spec[i])
    ensures Received(Dedup(InitEnv(initFd, containerFd, JoinList(spec), process), {})) == JoinsAsked(spec) <==>
            if Lastenv(process, JOIN_NS).None? then PlainPaths(spec)
            else Parse(Lastenv(process, JOIN_NS).value) == JoinsAsked(spec)
  {
    hide Print, Parse, Dedup, InitEnv, Received, JoinList, JoinsAsked, Flag;
    InitReceives(initFd, containerFd, JoinList(spec), process);
    SpecIsPrintedExactly(spec, k, offsetsFail);
  }

  /** The whole way: configureNamespaces, the environment, os/exec, getenv and the
      nested strtok_r loops. An entry with a NUL in it keeps the process from starting. */
  method Reexec(spec: seq<Namespace>, k: Kernel, offsetsFail: bool, initFd: nat, containerFd: nat,
                process: seq<string>, works: Join -> bool)
    returns (started: bool, attempted: seq<Join>, exited: bool)
    requires forall p :: k.kindAt(p).Some? ==> k.kindAt(p).value != 0
    ensures started <==>
              && (forall i :: 0 <= i < |spec| ==> Accepted(k, offsetsFail, spec[i]))
              && NulFree(InitEnv(initFd, containerFd, JoinList(spec), process))
    ensures started && Lastenv(process, JOIN_NS).None? && PlainPaths(spec) ==>
              && attempted == Attempted(JoinsAsked(spec), works)
              && (exited <==> exists j :: j in JoinsAsked(spec) && !works(j))
    ensures started && Lastenv(process, JOIN_NS).Some? ==>
              var asked := Parse(Lastenv(process, JOIN_NS).value);
              attempted == Attempted(asked, works) && (exited <==> exists j :: j in asked && !works(j))
  {
    hide Print, Parse, Dedup, Received, JoinList, JoinsAsked, Flag, Attempted, PlainPaths, Variable, Lastenv, Sockets;
    var cmd := new Cmd();
    cmd.env := Sockets(initFd, containerFd);
    started := cmd.ConfigureNamespaces(spec, k, offsetsFail);
    if !started {
      return false, [], false;
    }
    var env := cmd.env + process;
    if exists e :: e in env && NUL in e {
      return false, [], false;
    }
    assert NulFree(env);
    DedupKeepsNulFree(env, {});
    attempted, exited := Constructor(Dedup(env, {}), works);
    InitReceives(initFd, containerFd, JoinList(spec), process);
    SpecReachesConstructor(spec, k, offsetsFail, initFd, containerFd, process);
  }

  /** A container whose environment empties the variable joins nothing, whatever its
      spec lists. */
  lemma InitListIsReplaced(initFd: nat, containerFd: nat, list: seq<Entry>)
    ensures Received(Dedup(InitEnv(initFd, containerFd, list, [JOIN_NS + "="]), {})) == []
  {
    var own := [JOIN_NS + "="];
    assert JOIN_NS + "=" == JOIN_NS + "=" + "";
    EntryAlone(JOIN_NS, "");
    NothingPrinted();
    hide Print, Parse, Dedup, Sockets, Sets, ValueOf;
    InitReceives(initFd, containerFd, list, own);
  }

  lemma OneJoin()
    ensures Parse("net:/n") == [Join("/n", CLONE_NEWNET)]
  {
    var list := [Entry("net", "/n")];
    assert Print(list) == "net:/n" by { hide Parse; assert Item(list[0]) == "net:/n"; }
    hide Parse, Print;
    HandoverIsExact(list);
    assert list[1..] == [];
  }

  /** And one whose spec lists nothing can still have the constructor join. */
  lemma InitListIsSupplied(initFd: nat, containerFd: nat)
    ensures var child := Dedup(InitEnv(initFd, containerFd, [], [JOIN_NS + "=" + "net:/n"]), {});
            Received(child) == [Join("/n", CLONE_NEWNET)]
  {
    EntryAlone(JOIN_NS, "net:/n");
    OneJoin();
    hide Print, Parse, Dedup, Sockets, Sets, ValueOf;
    InitReceives(initFd, containerFd, [], [JOIN_NS + "=" + "net:/n"]);
  }

  // ---- exec ---------------------------------------------------------------

  /** The environment of an exec child: the caller's entries, the list, and what follows
      it (the container's pid, the seccomp descriptor). */
  function ExecEnv(caller: seq<string>, list: seq<Entry>, rest: seq<string>): seq<string> {
    caller + Variable(list) + rest
  }

  lemma ExecReceives(caller: seq<string>, list: seq<Entry>, rest: seq<string>)
    requires Getenv(rest, JOIN_NS) == None
    ensures var first := Getenv(caller, JOIN_NS);
            var child := ExecEnv(caller, list, rest);
            && Getenv(child, JOIN_NS) == (if first.Some? then first else if list == [] then None else Some(Print(list)))
            && Received(child) == if first.Some? then Parse(first.value) else Parse(Print(list))
  {
    hide Print, Parse;
    VariableSets(list);
    NothingPrinted();
    GetenvAppend(caller, Variable(list), JOIN_NS);
    GetenvAppend(caller + Variable(list), rest, JOIN_NS);
  }

  /** The value that exec prints arrives if and only if the caller's environment does not
      set the variable, or first sets it to the same text. */
  lemma ExecValueArrives(caller: seq<string>, list: seq<Entry>, rest: seq<string>)
    requires list != [] && Getenv(rest, JOIN_NS) == None
    ensures Getenv(ExecEnv(caller, list, rest), JOIN_NS) == Some(Print(list)) <==>
            Getenv(caller, JOIN_NS) == None || Getenv(caller, JOIN_NS) == Some(Print(list))
  {
    hide Print, Parse;
    ExecReceives(caller, list, rest);
  }

  /** The constructor of an exec child is asked for exactly what the exec needs, whatever
      the container shares with the host, if and only if the caller's environment does
      not set the variable, or its first value happens to spell the same joins. */
  lemma ExecListReachesConstructor(f: Files, pid: int, caller: seq<string>, rest: seq<string>)
    requires Getenv(rest, JOIN_NS) == None
    ensures Received(ExecEnv(caller, ExecList(f, pid, ORDER), rest)) == ExecAsks(f, pid) <==>
            Getenv(caller, JOIN_NS) == None || Parse(Getenv(caller, JOIN_NS).value) == ExecAsks(f, pid)
  {
    hide Print, Parse, Wanted, ExecList, Received, ExecAsks;
    ExecReceives(caller, ExecList(f, pid, ORDER), rest);
    ExecListIsPrintedExactly(f, pid);
    ExecListIsRight(f, pid);
  }

  /** The variables that follow the list. */
  function Tail(pid: int, seccomp: Option<nat>): seq<string> {
    ["_ANOCIR_CONTAINER_PID=" + Itoa(pid)]
    + if seccomp.Some? then ["_ANOCIR_SECCOMP_FD=" + Itoa(seccomp.value)] else []
  }

  lemma TailDoesNotJoin(pid: int, seccomp: Option<nat>)
    ensures Getenv(Tail(pid, seccomp), JOIN_NS) == None
  {
    hide Itoa;
    var s := Tail(pid, seccomp);
    assert (JOIN_NS + "=")[8] == 'J' && s[0][8] == 'C' && (seccomp.Some? ==> s[1][8] == 'S');
    NobodySets(s[0], if seccomp.Some? then s[1] else s[0], JOIN_NS);
    assert s == if seccomp.Some? then [s[0], s[1]] else [s[0]];
  }

  /** The exec child finds the container's pid and the index of the seccomp profile,
      unless the caller's environment sets the variables for itself. */
  lemma TailArrives(pid: int, seccomp: Option<nat>, caller: seq<string>, list: seq<Entry>)
    ensures var child, own := ExecEnv(caller, list, Tail(pid, seccomp)), Getenv(caller, "_ANOCIR_CONTAINER_PID");
            Getenv(child, "_ANOCIR_CONTAINER_PID") == if own.Some? then own else Some(Itoa(pid))
    ensures var child, own := ExecEnv(caller, list, Tail(pid, seccomp)), Getenv(caller, "_ANOCIR_SECCOMP_FD");
            Getenv(child, "_ANOCIR_SECCOMP_FD") ==
            if own.Some? then own else if seccomp.Some? then Some(Itoa(seccomp.value)) else None
  {
    var a, b, tail := "_ANOCIR_CONTAINER_PID", "_ANOCIR_SECCOMP_FD", Tail(pid, seccomp);
    TailAlone(pid, seccomp);
    VariableIsApart(list);
    hide Tail, Variable, Getenv, Itoa;
    GetenvAppend(caller, Variable(list), a);
    GetenvAppend(caller, Variable(list), b);
    GetenvAppend(caller + Variable(list), tail, a);
    GetenvAppend(caller + Variable(list), tail, b);
  }

  lemma VariableIsApart(list: seq<Entry>)
    ensures Getenv(Variable(list), "_ANOCIR_CONTAINER_PID") == None
    ensures Getenv(Variable(list), "_ANOCIR_SECCOMP_FD") == None
  {
    hide Print;
    if list != [] {
      var v, a, b := JOIN_NS + "=" + Print(list), "_ANOCIR_CONTAINER_PID", "_ANOCIR_SECCOMP_FD";
      assert v[8] == 'J' && (a + "=")[8] == 'C' && (b + "=")[8] == 'S';
      NobodySets(v, v, a);
      NobodySets(v, v, b);
    }
  }

  lemma TailAlone(pid: int, seccomp: Option<nat>)
    ensures Getenv(Tail(pid, seccomp), "_ANOCIR_CONTAINER_PID") == Some(Itoa(pid))
    ensures Getenv(Tail(pid, seccomp), "_ANOCIR_SECCOMP_FD") ==
            if seccomp.Some? then Some(Itoa(seccomp.value)) else None
  {
    var a, b := "_ANOCIR_CONTAINER_PID", "_ANOCIR_SECCOMP_FD";
    var x, y := a + "=" + Itoa(pid), if seccomp.Some? then [b + "=" + Itoa(seccomp.value)] else [];
    assert "_ANOCIR_CONTAINER_PID=" == a + "=" && "_ANOCIR_SECCOMP_FD=" == b + "=";
    assert Tail(pid, seccomp) == [x] + y;
    EntryAlone(a, Itoa(pid));
    if seccomp.Some? {
      EntryAlone(b, Itoa(seccomp.value));
    }
    hide Tail, Itoa, ValueOf;
    assert !Sets(x, b) by { assert x[8] == 'C' && (b + "=")[8] == 'S'; }
    NobodySets(x, x, b);
    hide Sets, Getenv;
    GetenvAppend([x], y, a);
    GetenvAppend([x], y, b);
    assert y == [] ==> Getenv(y, b) == None by { NothingSet(b); }
  }

  lemma NothingSet(key: string)
    ensures Getenv([], key) == None
  {}

  // ---- no NUL of its own --------------------------------------------------

  lemma {:induction false} PrintIsNulFree(list: seq<Entry>)
    requires forall e :: e in list ==> NUL !in e.name && NUL !in e.path
    ensures NUL !in Print(list)
  {
    if list != [] {
      assert list[0] in list;
      PrintIsNulFree(list[1..]);
    }
  }

  lemma {:induction false} ExecListIsNulFree(f: Files, pid: int, types: seq<string>)
    ensures forall e :: e in ExecList(f, pid, types) ==> NUL !in e.name && NUL !in e.path
  {
    if types != [] {
      ExecListIsNulFree(f, pid, types[1..]);
      NumeralIsNulFree(pid);
      hide Itoa, Shared;
      assert NUL !in Env(types[0]) && NUL !in "/proc/" && NUL !in "/ns/";
      hide Env;
    }
  }

  lemma NumeralIsNulFree(n: int)
    ensures NUL !in Itoa(n)
  {
    AtoiOfItoa(n);
    hide Itoa, Atoi;
  }

  /** Only the caller's entries can keep the child from starting. */
  lemma OwnEntriesAreNulFree(f: Files, pid: int, caller: seq<string>, seccomp: Option<nat>)
    ensures NulFree(ExecEnv(caller, ExecList(f, pid, ORDER), Tail(pid, seccomp))) <==> NulFree(caller)
  {
    ExecListIsNulFree(f, pid, ORDER);
    hide ExecList, Variable, Tail;
    VariableIsNulFree(ExecList(f, pid, ORDER));
    TailIsNulFree(pid, seccomp);
  }

  lemma VariableIsNulFree(list: seq<Entry>)
    requires forall e :: e in list ==> NUL !in e.name && NUL !in e.path
    ensures NulFree(Variable(list))
  {
    PrintIsNulFree(list);
    hide Print;
  }

  lemma TailIsNulFree(pid: int, seccomp: Option<nat>)
    ensures NulFree(Tail(pid, seccomp))
  {
    NumeralIsNulFree(pid);
    if seccomp.Some? {
      NumeralIsNulFree(seccomp.value);
    }
    hide Itoa;
  }

  /** The whole way of an exec child: which calls have to work, what exec enters itself,
      whether the child is root of the container's user namespace, and what the
      constructor is asked for in the end. */
  method ExecChild(f: Files, pid: int, caller: seq<string>, seccomp: Option<nat>, works: Join -> bool)
    returns (started: bool, attempted: seq<Join>, exited: bool, entered: seq<string>, asRoot: bool)
    ensures started <==> ExecWorks(f, pid) && NulFree(caller)
    ensures started ==> entered == ExecEnters(f, pid) && asRoot == Apart(f, pid, "user")
    ensures started && Getenv(caller, JOIN_NS).None? ==>
              && attempted == Attempted(ExecAsks(f, pid), works)
              && (exited <==> exists j :: j in ExecAsks(f, pid) && !works(j))
    ensures started && Getenv(caller, JOIN_NS).Some? ==>
              var asked := Parse(Getenv(caller, JOIN_NS).value);
              attempted == Attempted(asked, works) && (exited <==> exists j :: j in asked && !works(j))
  {
    hide Print, Parse, Wanted, ExecList, Received, Passes, Attempted, Tail, Getenv, ExecWorks, ExecAsks, ExecEnters;
    hide Shared, Apart, Entered;
    ExecWorksIff(f, pid);
    ExecListIsRight(f, pid);
    OwnEntriesAreNulFree(f, pid, caller, seccomp);
    UserIs(f, pid);
    var list;
    started, list, entered, asRoot := ExecLoop(f, pid, ORDER);
    if !started {
      return false, [], false, entered, asRoot;
    }
    var env := caller;
    if list != [] {
      env := env + [JOIN_NS + "=" + Print(list)];
    }
    env := env + Tail(pid, seccomp);
    assert env == ExecEnv(caller, list, Tail(pid, seccomp));
    if exists e :: e in env && NUL in e {
      return false, [], false, entered, asRoot;
    }
    assert NulFree(env);
    attempted, exited := Constructor(env, works);
    TailDoesNotJoin(pid, seccomp);
    ExecReceives(caller, list, Tail(pid, seccomp));
    ExecListIsPrintedExactly(f, pid);
  }

  lemma UserIs(f: Files, pid: int)
    ensures "user" in ORDER && (Shared(f, pid, "user") == Some(false) <==> Apart(f, pid, "user"))
  {
    assert ORDER[0] == "user";
    TypeIs(f, pid, "user", "user");
    hide Shared, Apart;
  }

  /** A caller's entry that empties the variable hides the whole list. */
  lemma ExecListIsHidden(list: seq<Entry>, rest: seq<string>)
    requires Getenv(rest, JOIN_NS) == None
    ensures Received(ExecEnv([JOIN_NS + "="], list, rest)) == []
  {
    assert JOIN_NS + "=" == JOIN_NS + "=" + "";
    EntryAlone(JOIN_NS, "");
    NothingPrinted();
    hide Print, Parse, Sets, ValueOf;
    ExecReceives([JOIN_NS + "="], list, rest);
  }
}
