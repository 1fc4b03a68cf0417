/**
 ApplyProcessSecurity as a sequence of system calls on the credentials of one
 process. The system calls follow capabilities(7), prctl(2), setuid(2) and
 seccomp(2); each answers whether the kernel allowed it.
 */
module Privileges {
  import opened Wrappers
  import opened Capabilities

  datatype User = User(uid: nat, gid: nat, groups: seq<nat>)

  datatype CapLists = CapLists(
    bounding: Option<seq<string>>, effective: Option<seq<string>>, permitted: Option<seq<string>>,
    inheritable: Option<seq<string>>, ambient: Option<seq<string>>)

  datatype Security = Security(user: Option<User>, caps: Option<CapLists>, seccomp: bool, noNewPrivs: bool)

  predicate Within(c: Cap, last: Cap) { c <= last }

  /** The capabilities that a kernel with this cap_last_cap has. */
  function Supported(last: Cap): set<Cap> { set c: Cap | 0 <= c < 64 && Within(c, last) }

  ghost predicate Listed(names: Option<seq<string>>, c: Cap) { names.Some? && Asks(names.value, c) }

  /** The capabilities that a list asks this kernel for. */
  ghost function Requested(names: Option<seq<string>>, last: Cap): set<Cap> {
    set c: Cap | 0 <= c < 64 && Within(c, last) && Listed(names, c)
  }

  ghost function BitsOf(words: seq<bv32>, last: Cap): set<Cap>
    requires |words| == 2
  {
    set c: Cap | 0 <= c < 64 && Within(c, last) && HasBit(words, c)
  }

  lemma MaskIsRequest(words: seq<bv32>, names: Option<seq<string>>, last: Cap)
    requires |words| == 2 && forall c: Cap :: HasBit(words, c) <==> names.Some? && Asks(names.value, c)
    ensures BitsOf(words, last) == Requested(names, last)
  {}

  predicate IsPrivileged(caps: CapLists) { caps.bounding.Some? && HasAll(caps.bounding.value) }

  predicate ChangesUser(opts: Security) { opts.user.Some? && opts.user.value.uid != 0 }

  /** The bounding set after the drops: only what the list keeps, or all without one. */
  ghost function BoundingAfter(opts: Security, last: Cap): set<Cap> {
    if opts.caps.Some? && opts.caps.value.bounding.Some?
    then Requested(opts.caps.value.bounding, last) else Supported(last)
  }

  /** The sets nest: effective within permitted, and nothing is made inheritable that
      was not so before and is not kept in the bounding set either. */
  ghost predicate Nests(opts: Security, inheritable: set<Cap>, last: Cap) {
    opts.caps.Some? && !IsPrivileged(opts.caps.value) ==>
      && Requested(opts.caps.value.effective, last) <= Requested(opts.caps.value.permitted, last)
      && Requested(opts.caps.value.inheritable, last) <= inheritable + BoundingAfter(opts, last)
  }

  function AllNames(): seq<string> { seq(41, i requires 0 <= i < 41 => NameOf(i)) }

  lemma AllNamesAsk(c: Cap)
    ensures Asks(AllNames(), c) <==> Known(c)
  {
    hide CapOf, NameOf;
    var names := AllNames();
    if Known(c) {
      TableIsComplete(c);
      assert names[c] == NameOf(c);
    }
    forall i | 0 <= i < |names| && CapOf(names[i]) == Some(c)
      ensures Known(c)
    {
      TableIsKnown(names[i]);
    }
  }

  /** The capabilities that the kernel's rules name, in the table of names. */
  lemma NamedCaps()
    ensures CapOf("CAP_SETGID") == Some(CAP_SETGID) && CapOf("CAP_SETUID") == Some(CAP_SETUID)
    ensures CapOf("CAP_SETPCAP") == Some(CAP_SETPCAP) && CapOf("CAP_SYS_ADMIN") == Some(CAP_SYS_ADMIN)
  {}

  /** For the privileged case every list is the same. */
  lemma AllNamesRequest(names: seq<string>, last: Cap)
    requires HasAll(names)
    ensures Requested(Some(AllNames()), last) == Requested(Some(names), last)
  {
    forall c: Cap
      ensures Asks(AllNames(), c) <==> Asks(names, c)
    {
      AllNamesAsk(c);
    }
    hide Asks, AllNames;
  }

  /** The lists that count: with ALL in the bounding list, everything. */
  function Wanted(caps: CapLists): CapLists {
    var all := Some(AllNames());
    if IsPrivileged(caps) then CapLists(all, all, all, all, all) else caps
  }

  /** childexec fills in the bounding list alone. That always nests, and unless the list
      holds ALL it leaves every other set empty: what exec was asked to give is kept in
      the bounding set only. */
  lemma BoundingListAlone(opts: Security, names: seq<string>, inheritable: set<Cap>, last: Cap)
    requires opts.caps == Some(CapLists(Some(names), None, None, None, None))
    ensures Nests(opts, inheritable, last)
    ensures var w := Wanted(opts.caps.value);
            if HasAll(names) then Requested(w.permitted, last) == Requested(Some(names), last)
            else Requested(w.permitted, last) == Requested(w.effective, last) == Requested(w.ambient, last) == {}
  {
    hide Asks, HasAll, AllNames;
    if HasAll(names) {
      AllNamesRequest(names, last);
    }
  }

  /** What a process may do, and as whom. */
  datatype Credentials = Credentials(
    uid: nat, gid: nat, groups: seq<nat>, effective: set<Cap>, permitted: set<Cap>, bounding: set<Cap>,
    noNewPrivs: bool)

  class Process {
    const lastCap: Cap
    var uid: nat
    var gid: nat
    var groups: seq<nat>
    var effective: set<Cap>
    var permitted: set<Cap>
    var inheritable: set<Cap>
    var bounding: set<Cap>
    var ambient: set<Cap>
    var keepCaps: bool
    var noNewPrivs: bool
    var filters: nat
    var filteredAs: Option<Credentials>   // the credentials under which the last filter was loaded

    constructor (lastCap: Cap, inheritable: set<Cap>)
      ensures this.lastCap == lastCap && this.inheritable == inheritable && FullRoot()
    {
      this.lastCap, this.inheritable := lastCap, inheritable;
      uid, gid, groups := 0, 0, [];
      effective, permitted, bounding := Supported(lastCap), Supported(lastCap), Supported(lastCap);
      ambient, keepCaps, noNewPrivs, filters, filteredAs := {}, false, false, 0, None;
    }

    function Now(): Credentials
      reads this
    {
      Credentials(uid, gid, groups, effective, permitted, bounding, noNewPrivs)
    }

    /** Root with every capability but whatever inheritable set. */
    predicate FullRoot()
      reads this
    {
      && uid == 0
      && effective == Supported(lastCap) && permitted == effective && bounding == effective
      && !keepCaps && !noNewPrivs && filters == 0
    }

    // ---- the kernel ---------------------------------------------------------

    /** PR_CAPBSET_DROP. */
    method DropBound(c: Cap) returns (ok: bool)
      modifies this`bounding
      ensures ok == (CAP_SETPCAP in effective)
      ensures bounding == if ok then old(bounding) - {c} else old(bounding)
    {
      ok := CAP_SETPCAP in effective;
      if ok {
        bounding := bounding - {c};
      }
    }

    /** setuid: leaving root clears the effective and ambient sets, and the permitted
        set too unless the keep-capabilities flag is set. */
    method SetUid(u: nat) returns (ok: bool)
      modifies this`uid, this`effective, this`permitted, this`ambient
      ensures ok == (CAP_SETUID in old(effective) || u == old(uid))
      ensures uid == if ok then u else old(uid)
      ensures var leaves := ok && old(uid) == 0 && u != 0;
              && (ok && old(uid) != 0 && u == 0 ==> effective == old(permitted))
              && (leaves ==> effective == {} && ambient == {})
              && (!leaves ==> ambient == old(ambient))
              && (!leaves && !(ok && old(uid) != 0 && u == 0) ==> effective == old(effective))
              && permitted == if leaves && !keepCaps then {} else old(permitted)
    {
      ok := CAP_SETUID in effective || u == uid;
      if ok {
        if uid == 0 && u != 0 {
          effective, ambient := {}, {};
          if !keepCaps {
            permitted := {};
          }
        } else if uid != 0 && u == 0 {
          effective := permitted;
        }
        uid := u;
      }
    }

    method SetGid(g: nat) returns (ok: bool)
      modifies this`gid
      ensures ok == (CAP_SETGID in effective || g == old(gid))
      ensures gid == if ok then g else old(gid)
    {
      ok := CAP_SETGID in effective || g == gid;
      if ok {
        gid := g;
      }
    }

    method SetGroups(gs: seq<nat>) returns (ok: bool)
      modifies this`groups
      ensures ok == (CAP_SETGID in effective)
      ensures groups == if ok then gs else old(groups)
    {
      ok := CAP_SETGID in effective;
      if ok {
        groups := gs;
      }
    }

    /** capset; bits above cap_last_cap are ignored. */
    method Capset(ghost e: set<Cap>, ghost p: set<Cap>, ghost i: set<Cap>,
                  ew: array<bv32>, pw: array<bv32>, iw: array<bv32>) returns (ok: bool)
      requires ew.Length == 2 && pw.Length == 2 && iw.Length == 2
      requires e == BitsOf(ew[..], lastCap) && p == BitsOf(pw[..], lastCap) && i == BitsOf(iw[..], lastCap)
      modifies this`effective, this`permitted, this`inheritable, this`ambient
      ensures ok <==>
                && p <= old(permitted) && e <= p
                && i <= old(inheritable) + bounding
                && (CAP_SETPCAP in old(effective) || i <= old(inheritable) + old(permitted))
      ensures ok ==> effective == e && permitted == p && inheritable == i && ambient == old(ambient) * p * i
      ensures !ok ==> effective == old(effective) && permitted == old(permitted)
                      && inheritable == old(inheritable) && ambient == old(ambient)
    {
      var e' := set c: Cap | 0 <= c < 64 && Within(c, lastCap) && HasBit(ew[..], c);
      var p' := set c: Cap | 0 <= c < 64 && Within(c, lastCap) && HasBit(pw[..], c);
      var i' := set c: Cap | 0 <= c < 64 && Within(c, lastCap) && HasBit(iw[..], c);
      ok := && p' <= permitted && e' <= p'
            && i' <= inheritable + bounding
            && (CAP_SETPCAP in effective || i' <= inheritable + permitted);
      if ok {
        effective, permitted, inheritable, ambient := e', p', i', ambient * p' * i';
      }
    }

    /** PR_CAP_AMBIENT_RAISE, whose refusal the caller ignores. */
    method RaiseAmbient(c: Cap)
      modifies this`ambient
      ensures ambient == if c in permitted && c in inheritable then old(ambient) + {c} else old(ambient)
    {
      if c in permitted && c in inheritable {
        ambient := ambient + {c};
      }
    }

    /** Loading a filter takes CAP_SYS_ADMIN or the no_new_privs bit. */
    method LoadSeccompFilter() returns (ok: bool)
      modifies this`filters, this`filteredAs
      ensures ok == (noNewPrivs || CAP_SYS_ADMIN in effective)
      ensures filters == if ok then old(filters) + 1 else old(filters)
      ensures filteredAs == if ok then Some(Now()) else old(filteredAs)
    {
      ok := noNewPrivs || CAP_SYS_ADMIN in effective;
      if ok {
        filters, filteredAs := filters + 1, Some(Now());
      }
    }

    // ---- the program --------------------------------------------------------

    /** After the loop exactly the listed capabilities are left of the bounding set. */
    method DropBoundingCapabilities(names: Option<seq<string>>) returns (ok: bool)
      modifies this`bounding
      ensures CAP_SETPCAP in effective ==> ok
      ensures ok ==> bounding == set c: Cap | c in old(bounding) && (names.None? || c > lastCap || Asks(names.value, c))
    {
      if names.None? {
        assert bounding == set c: Cap | c in bounding;
        return true;
      }
      var retain := ResolveCaps(names.value);
      hide Asks;
      var c: nat := 0;
      while c <= lastCap
        invariant c <= lastCap + 1
        invariant bounding == set d: Cap | d in old(bounding) && (d >= c || d in retain)
      {
        if c !in retain {
          ok := DropBound(c);
          if !ok {
            return;
          }
        }
        c := c + 1;
      }
      ok := true;
    }

    method SetUser(user: Option<User>, denied: bool) returns (ok: bool)
      modifies this`uid, this`gid, this`groups, this`effective, this`permitted, this`ambient
      ensures CAP_SETUID in old(effective) && CAP_SETGID in old(effective) ==> ok
      ensures ok && user.Some? ==>
                && uid == user.value.uid && gid == user.value.gid
                && (user.value.groups != [] && !denied ==> groups == user.value.groups)
      ensures ok && (user.None? || user.value.groups == [] || denied) ==> groups == old(groups)
      ensures ok && user.None? ==> uid == old(uid) && gid == old(gid)
      ensures old(uid) == 0 && ok ==>
                if user.Some? && user.value.uid != 0
                then effective == {} && permitted == (if keepCaps then old(permitted) else {}) && ambient == {}
                else effective == old(effective) && permitted == old(permitted) && ambient == old(ambient)
    {
      ok := true;
      if user.None? {
        return;
      }
      if |user.value.groups| > 0 && !denied {
        ok := SetGroups(user.value.groups);
        if !ok {
          return;
        }
      }
      ok := SetGid(user.value.gid);
      if ok {
        ok := SetUid(user.value.uid);
      }
    }

    method SetCapabilities(caps: CapLists) returns (ok: bool)
      modifies this`effective, this`permitted, this`inheritable, this`ambient
      ensures var e, p, i := Requested(caps.effective, lastCap), Requested(caps.permitted, lastCap),
                             Requested(caps.inheritable, lastCap);
              && (ok <==>
                    && p <= old(permitted) && e <= p
                    && i <= old(inheritable) + bounding
                    && (CAP_SETPCAP in old(effective) || i <= old(inheritable) + old(permitted)))
              && (ok ==> effective == e && permitted == p && inheritable == i
                         && ambient == Requested(caps.ambient, lastCap) * p * i)
    {
      var ew := Mask(caps.effective);
      var pw := Mask(caps.permitted);
      var iw := Mask(caps.inheritable);
      MaskIsRequest(ew[..], caps.effective, lastCap);
      MaskIsRequest(pw[..], caps.permitted, lastCap);
      MaskIsRequest(iw[..], caps.inheritable, lastCap);
      hide HasBit, Asks;
      ok := Capset(Requested(caps.effective, lastCap), Requested(caps.permitted, lastCap),
                   Requested(caps.inheritable, lastCap), ew, pw, iw);
      if ok {
        RaiseAll(caps.ambient);
      }
    }

    /** Clears the ambient set and raises what can be raised. */
    method RaiseAll(names: Option<seq<string>>)
      requires permitted <= Supported(lastCap)
      modifies this`ambient
      ensures ambient == Requested(names, lastCap) * permitted * inheritable
    {
      ambient := {};
      if names.Some? {
        var resolved := ResolveCaps(names.value);
        hide Asks;
        for k := 0 to |resolved|
          invariant ambient == set c: Cap | c in permitted && c in inheritable && c in resolved[..k]
        {
          assert resolved[..k + 1] == resolved[..k] + [resolved[k]];
          RaiseAmbient(resolved[k]);
        }
        assert resolved[..|resolved|] == resolved;
      }
    }

    /** The middle part: the capability sets once the user is set. */
    method ApplyCapabilities(caps: CapLists, changesUser: bool) returns (ok: bool)
      requires permitted == Supported(lastCap)
      modifies this`effective, this`permitted, this`inheritable, this`ambient, this`keepCaps
      ensures var w := Wanted(caps);
              var e, p := Requested(w.effective, lastCap), Requested(w.permitted, lastCap);
              var i := Requested(w.inheritable, lastCap);
              && (ok <==> e <= p && i <= old(inheritable) + bounding)
              && keepCaps == (old(keepCaps) && !(ok && changesUser && !IsPrivileged(caps)))
              && (ok ==> effective == e && permitted == p && inheritable == i
                         && ambient == Requested(w.ambient, lastCap) * p * i)
    {
      hide Asks, HasAll, AllNames;
      if IsPrivileged(caps) {
        var all := Some(AllNames());
        ok := SetCapabilities(CapLists(all, all, all, all, all));
      } else {
        ok := SetCapabilities(caps);
        if ok && changesUser {
          keepCaps := false;
        }
      }
    }

    /** From full root, for every record of options: no step is refused exactly when
        the requested sets nest, and then the process ends up with what was asked. */
    method ApplyProcessSecurity(opts: Security, denied: bool) returns (ok: bool)
      requires FullRoot() && lastCap >= CAP_SYS_ADMIN
      modifies this
      ensures ok <==> Nests(opts, old(inheritable), lastCap)
      ensures ok ==> filters == (if opts.seccomp then 1 else 0) && noNewPrivs == opts.noNewPrivs
      ensures ok && opts.seccomp ==> filteredAs == Some(if opts.noNewPrivs then Now() else old(Now()))
      ensures ok ==> bounding == BoundingAfter(opts, lastCap)
      ensures ok && opts.user.None? ==> uid == 0 && gid == old(gid)
      ensures ok && opts.user.Some? ==> uid == opts.user.value.uid && gid == opts.user.value.gid
      ensures ok ==> groups == if opts.user.Some? && opts.user.value.groups != [] && !denied
                               then opts.user.value.groups else old(groups)
      ensures ok ==> (keepCaps <==> ChangesUser(opts) && opts.caps.Some? && IsPrivileged(opts.caps.value))
      ensures ok && opts.caps.Some? ==>
                var w := Wanted(opts.caps.value);
                && effective == Requested(w.effective, lastCap)
                && permitted == Requested(w.permitted, lastCap)
                && inheritable == Requested(w.inheritable, lastCap)
                && ambient == Requested(w.ambient, lastCap) * permitted * inheritable
      ensures ok && opts.caps.None? ==>
                && inheritable == old(inheritable)
                && effective == (if ChangesUser(opts) then {} else Supported(lastCap))
                && permitted == effective
                && ambient == (if ChangesUser(opts) then {} else old(ambient))
    {
      hide Asks, HasAll, AllNames;
      if opts.seccomp && !opts.noNewPrivs {
        ok := LoadSeccompFilter();
        assert ok;
      }
      if opts.caps.Some? {
        ok := DropBoundingCapabilities(opts.caps.value.bounding);
        assert ok;
      }
      assert bounding == BoundingAfter(opts, lastCap);
      if opts.caps.Some? && IsPrivileged(opts.caps.value) {
        AllNamesRequest(opts.caps.value.bounding.value, lastCap);
      }
      if opts.user.Some? && opts.user.value.uid != 0 && opts.caps.Some? {
        keepCaps := true;
      }
      ok := SetUser(opts.user, denied);
      assert ok;
      if opts.caps.Some? {
        ok := ApplyCapabilities(opts.caps.value, ChangesUser(opts));
        if !ok {
          return;
        }
      }
      if opts.noNewPrivs {
        noNewPrivs := true;
      }
      if opts.seccomp && opts.noNewPrivs {
        ok := LoadSeccompFilter();
      }
    }
  }
}
