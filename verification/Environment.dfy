/**
 Environments as lists of entries: getenv takes the first entry with a key, and
 os/exec drops all but the last before it starts a process.
 */
module Environment {
  import opened Wrappers

  const NUL: char := '\0'

  predicate Sets(entry: string, key: string) { key + "=" <= entry }

  function ValueOf(entry: string, key: string): string
    requires Sets(entry, key)
  {
    entry[|key| + 1..]
  }

  /** The first entry with the key counts. */
  function Getenv(env: seq<string>, key: string): Option<string> {
    if env == [] then None
    else if Sets(env[0], key) then Some(ValueOf(env[0], key))
    else Getenv(env[1..], key)
  }

  /** The last entry with the key. */
  function Lastenv(env: seq<string>, key: string): Option<string> {
    if env == [] then None
    else
      var e := env[|env| - 1];
      if Sets(e, key) then Some(ValueOf(e, key)) else Lastenv(env[..|env| - 1], key)
  }

  method FindEnv(env: seq<string>, key: string) returns (value: Option<string>)
    ensures value == Getenv(env, key)
  {
    hide Sets, ValueOf;
    for i := 0 to |env|
      invariant Getenv(env, key) == Getenv(env[i..], key)
    {
      assert env[i..][1..] == env[i + 1..];
      if Sets(env[i], key) {
        return Some(ValueOf(env[i], key));
      }
    }
    value := None;
  }

  lemma {:induction false} GetenvAppend(a: seq<string>, b: seq<string>, key: string)
    ensures Getenv(a + b, key) == if Getenv(a, key).Some? then Getenv(a, key) else Getenv(b, key)
  {
    hide Sets, ValueOf;
    if a == [] {
      assert a + b == b;
    } else {
      assert (a + b)[1..] == a[1..] + b;
      GetenvAppend(a[1..], b, key);
    }
  }

  lemma {:induction false} LastenvAppend(a: seq<string>, b: seq<string>, key: string)
    ensures Lastenv(a + b, key) == if Lastenv(b, key).Some? then Lastenv(b, key) else Lastenv(a, key)
  {
    hide Sets, ValueOf;
    if b == [] {
      assert a + b == a;
    } else {
      assert (a + b)[..|a + b| - 1] == a + b[..|b| - 1];
      LastenvAppend(a, b[..|b| - 1], key);
    }
  }

  /** One entry by itself. */
  lemma EntryAlone(key: string, value: string)
    ensures Sets(key + "=" + value, key) && ValueOf(key + "=" + value, key) == value
    ensures Getenv([key + "=" + value], key) == Some(value) && Lastenv([key + "=" + value], key) == Some(value)
  {
    var e := key + "=" + value;
    assert e[..|key| + 1] == key + "=";
    assert e[|key| + 1..] == value;
  }

  /** Entries that set something else. */
  lemma NobodySets(a: string, b: string, key: string)
    requires !Sets(a, key) && !Sets(b, key)
    ensures Getenv([a], key) == None && Getenv([a, b], key) == None && Lastenv([a, b], key) == None
  {
    hide Sets, ValueOf;
    assert [a][1..] == [] && [a, b][1..] == [b] && [b][1..] == [];
    assert [a, b][..1] == [a] && [a][..0] == [];
    assert Lastenv([a], key) == None;
  }

  // ---- os/exec ------------------------------------------------------------

  function Equals(s: string, i: nat): (j: nat)
    requires i <= |s|
    ensures i <= j <= |s| && (forall k :: i <= k < j ==> s[k] != '=') && (j < |s| ==> s[j] == '=')
    decreases |s| - i
  {
    if i == |s| || s[i] == '=' then i else Equals(s, i + 1)
  }

  /** The key as os/exec cuts it: before the first equals sign, or before the second one
      if the entry begins with one. */
  function KeyOf(entry: string): Option<string> {
    var i := Equals(entry, 0);
    if i == |entry| then None
    else if i > 0 then Some(entry[..i])
    else
      var j := Equals(entry, 1);
      Some(if j == |entry| then "" else entry[..j])
  }

  /** A key that an entry can set: not empty and without an equals sign. */
  predicate IsKey(key: string) { key != "" && '=' !in key }

  lemma SetsIsKeyOf(entry: string, key: string)
    requires IsKey(key)
    ensures Sets(entry, key) <==> KeyOf(entry) == Some(key)
  {
    var i := Equals(entry, 0);
    if Sets(entry, key) {
      assert entry[|key|] == (key + "=")[|key|] == '=';
      assert forall k :: 0 <= k < |key| ==> entry[k] == key[k];
      assert i == |key|;
      assert entry[..i] == key;
    }
    if i == 0 && entry != "" {
      assert Equals(entry, 1) < |entry| ==> entry[..Equals(entry, 1)][0] == '=';
    } else if i < |entry| {
      assert entry[..i + 1] == entry[..i] + "=";
    }
  }

  /** Entries that begin with an equals sign: the key goes up to the second one. */
  lemma LeadingEquals(key: string, rest: string)
    requires '=' !in key
    ensures KeyOf("=" + key) == Some("")
    ensures KeyOf("=" + key + "=" + rest) == Some("=" + key)
  {
    var short, long := "=" + key, "=" + key + "=" + rest;
    assert short[0] == '=' && long[0] == '=' && long[|short|] == '=';
    assert forall k :: 1 <= k < |short| ==> short[k] == key[k - 1] && long[k] == key[k - 1];
    assert Equals(short, 1) == |short| && Equals(long, 1) == |short|;
    assert long[..|short|] == short;
  }

  /** dedupEnv, from the last entry back; seen holds the keys that came later. */
  function Dedup(env: seq<string>, seen: set<string>): seq<string> {
    if env == [] then []
    else
      var rest, e := env[..|env| - 1], env[|env| - 1];
      var k := KeyOf(e);
      if k.None? then Dedup(rest, seen) + if e == "" then [] else [e]
      else if k.value in seen then Dedup(rest, seen)
      else Dedup(rest, seen + {k.value}) + [e]
  }

  /** What is left of a key is its last value, and it is found first. */
  lemma {:induction false} DedupKeepsLast(env: seq<string>, seen: set<string>, key: string)
    requires IsKey(key)
    ensures Getenv(Dedup(env, seen), key) == if key in seen then None else Lastenv(env, key)
  {
    if env != [] {
      var rest, e := env[..|env| - 1], env[|env| - 1];
      SetsIsKeyOf(e, key);
      hide KeyOf, Sets, ValueOf, IsKey;
      var k := KeyOf(e);
      DedupKeepsLast(rest, seen, key);
      if k.None? {
        GetenvAppend(Dedup(rest, seen), if e == "" then [] else [e], key);
      } else if k.value !in seen {
        DedupKeepsLast(rest, seen + {k.value}, key);
        GetenvAppend(Dedup(rest, seen + {k.value}), [e], key);
      }
    }
  }

  /** The entry at place i stays: it has no key and is not empty, or nothing later and
      nothing in seen has its key. */
  predicate Stays(env: seq<string>, seen: set<string>, i: nat)
    requires i < |env|
  {
    var k := KeyOf(env[i]);
    if k.None? then env[i] != ""
    else k.value !in seen && forall j :: i < j < |env| ==> KeyOf(env[j]) != k
  }

  /** The entries among the first n that stay, in order. */
  function Staying(env: seq<string>, seen: set<string>, n: nat): seq<string>
    requires n <= |env|
  {
    if n == 0 then [] else Staying(env, seen, n - 1) + if Stays(env, seen, n - 1) then [env[n - 1]] else []
  }

  lemma {:induction false} StayingShorter(env: seq<string>, seen: set<string>, n: nat)
    requires n < |env|
    ensures var last := KeyOf(env[|env| - 1]);
            Staying(env, seen, n) ==
            Staying(env[..|env| - 1], if last.Some? then seen + {last.value} else seen, n)
  {
    hide KeyOf;
    if n > 0 {
      StayingShorter(env, seen, n - 1);
      assert env[..|env| - 1][n - 1] == env[n - 1];
      assert forall j :: n <= j < |env| - 1 ==> env[..|env| - 1][j] == env[j];
    }
  }

  /** What os/exec hands on: the entries that stay, unchanged and in order. */
  lemma {:induction false} DedupIs(env: seq<string>, seen: set<string>)
    ensures Dedup(env, seen) == Staying(env, seen, |env|)
  {
    if env != [] {
      var n := |env| - 1;
      hide KeyOf;
      var k := KeyOf(env[n]);
      DedupIs(env[..n], if k.Some? then seen + {k.value} else seen);
      StayingShorter(env, seen, n);
      if k.Some? && k.value in seen {
        assert seen + {k.value} == seen;
      }
    }
  }

  predicate NulFree(env: seq<string>) { forall e :: e in env ==> NUL !in e }

  lemma {:induction false} DedupKeepsNulFree(env: seq<string>, seen: set<string>)
    requires NulFree(env)
    ensures NulFree(Dedup(env, seen))
  {
    if env != [] {
      var rest, e := env[..|env| - 1], env[|env| - 1];
      hide KeyOf;
      assert e in env;
      DedupKeepsNulFree(rest, seen);
      if KeyOf(e).Some? {
        DedupKeepsNulFree(rest, seen + {KeyOf(e).value});
      }
    }
  }

  lemma {:induction false} GetenvIsNulFree(env: seq<string>, key: string)
    requires NulFree(env) && Getenv(env, key).Some?
    ensures NUL !in Getenv(env, key).value
  {
    if Sets(env[0], key) {
      assert env[0] in env;
    } else {
      GetenvIsNulFree(env[1..], key);
    }
  }
}
