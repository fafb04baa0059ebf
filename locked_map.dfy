/** The string-to-string table guarded by a read/write lock that backs both the
    user store (username to password) and the token store (username to secret).
    Under the lock every operation runs alone, so the table is modelled as a
    class whose one field is the Go map; the lock itself is not modelled. */
module LockedMaps {

  /** The pair `(val, ok)` that Go's two-value index `m[key]` yields: the stored
      value and true, or the string zero value "" and false for an absent key. */
  function Lookup(m: map<string, string>, key: string): (string, bool)
  {
    if key in m then (m[key], true) else ("", false)
  }

  class LockedMap {
    var Map: map<string, string>

    /** NewLockedMap: a table with no entries. */
    constructor ()
      ensures Map == map[]
    {
      Map := map[];
    }

    /** Read-only lookup (taken under the read lock). */
    method Get(key: string) returns (val: string, ok: bool)
      ensures ok <==> key in Map
      ensures ok ==> val == Map[key]
      ensures !ok ==> val == ""
      ensures (val, ok) == Lookup(Map, key)
    {
      if key in Map {
        val, ok := Map[key], true;
      } else {
        val, ok := "", false;
      }
    }

    /** Stores `val` under `key`, replacing any earlier value. */
    method Put(key: string, val: string)
      modifies this
      ensures Map == old(Map)[key := val]
      ensures Lookup(Map, key) == (val, true)
      ensures forall k :: k != key ==> Lookup(Map, k) == Lookup(old(Map), k)
    {
      Map := Map[key := val];
    }

    /** Removes `key`; removing an absent key is a no-op. */
    method Delete(key: string)
      modifies this
      ensures Map == old(Map) - {key}
      ensures Lookup(Map, key) == ("", false)
      ensures forall k :: k != key ==> Lookup(Map, k) == Lookup(old(Map), k)
      ensures key !in old(Map) ==> Map == old(Map)
    {
      Map := Map - {key};
    }

    /** The writes `ops` as callers issue them one after another (each one
        under the write lock), through Put and Delete. */
    method Replay(ops: seq<Op>)
      modifies this
      ensures Map == Run(old(Map), ops)
    {
      var i := 0;
      while i < |ops|
        invariant 0 <= i <= |ops|
        invariant Map == Run(old(Map), ops[..i])
      {
        match ops[i] {
          case Put(k, v) => this.Put(k, v);
          case Delete(k) => this.Delete(k);
        }
        assert ops[..i + 1][..i] == ops[..i] && ops[..i + 1][i] == ops[i];
        i := i + 1;
      }
      assert ops[..|ops|] == ops;
    }
  }

  /** A freshly made table answers "absent" for every key. */
  lemma NewIsEmpty(key: string)
    ensures Lookup(map[], key) == ("", false)
  {
  }

  /** A second Put on the same key replaces the first: the last writer wins. */
  lemma PutTwice(m: map<string, string>, key: string, v1: string, v2: string)
    ensures m[key := v1][key := v2] == m[key := v2]
    ensures Lookup(m[key := v1][key := v2], key) == (v2, true)
  {
  }

  /** The mutating operations, as they are applied one at a time under the write lock. */
  datatype Op = Put(key: string, val: string) | Delete(key: string)

  function Apply(m: map<string, string>, op: Op): map<string, string>
  {
    match op
    case Put(k, v) => m[k := v]
    case Delete(k) => m - {k}
  }

  /** The table after the operations `ops`, applied in order starting from `m`. */
  function Run(m: map<string, string>, ops: seq<Op>): map<string, string>
    decreases |ops|
  {
    if ops == [] then m else Apply(Run(m, ops[..|ops| - 1]), ops[|ops| - 1])
  }

  datatype Option<T> = None | Some(value: T)

  /** The last operation in `ops` on `key`, if any. */
  function LastOn(ops: seq<Op>, key: string): Option<Op>
    decreases |ops|
  {
    if ops == [] then None
    else if ops[|ops| - 1].key == key then Some(ops[|ops| - 1])
    else LastOn(ops[..|ops| - 1], key)
  }

  /** What a Get on `key` sees after a sequence of writes: the value of the last
      Put on `key`, "absent" when a Delete came last, and the initial entry when
      no operation touched `key`. Concurrent Puts to one key therefore leave
      exactly one of the written values: the one serialised last. */
  lemma {:induction false} RunLastWriterWins(m: map<string, string>, ops: seq<Op>, key: string)
    ensures Lookup(Run(m, ops), key) ==
      match LastOn(ops, key)
      case None => Lookup(m, key)
      case Some(Put(_, v)) => (v, true)
      case Some(Delete(_)) => ("", false)
    decreases |ops|
  {
    if ops != [] {
      RunLastWriterWins(m, ops[..|ops| - 1], key);
    }
  }

  lemma {:induction false} LastOnAppend(a: seq<Op>, b: seq<Op>, key: string)
    ensures LastOn(a + b, key) == if LastOn(b, key).Some? then LastOn(b, key) else LastOn(a, key)
    decreases |b|
  {
    if b == [] {
      assert a + b == a;
    } else {
      assert (a + b)[..|a + b| - 1] == a + b[..|b| - 1];
      LastOnAppend(a, b[..|b| - 1], key);
    }
  }

  /** Does any operation in `ops` write `key`? */
  predicate Writes(ops: seq<Op>, key: string)
  {
    exists i :: 0 <= i < |ops| && ops[i].key == key
  }

  lemma {:induction false} LastOnNone(ops: seq<Op>, key: string)
    requires !Writes(ops, key)
    ensures LastOn(ops, key) == None
    decreases |ops|
  {
    if ops != [] {
      var init := ops[..|ops| - 1];
      assert !Writes(init, key) by {
        forall i | 0 <= i < |init| ensures init[i].key != key {
          assert init[i] == ops[i];
        }
      }
      LastOnNone(init, key);
    }
  }

  /** Writes to disjoint key sets do not interfere: either order of the two
      batches yields the same table, so no update on a distinct key is lost. */
  lemma DisjointWritesCommute(m: map<string, string>, a: seq<Op>, b: seq<Op>)
    requires forall i, j :: 0 <= i < |a| && 0 <= j < |b| ==> a[i].key != b[j].key
    ensures Run(m, a + b) == Run(m, b + a)
  {
    var ab, ba := Run(m, a + b), Run(m, b + a);
    forall key
      ensures Lookup(ab, key) == Lookup(ba, key)
    {
      RunLastWriterWins(m, a + b, key);
      RunLastWriterWins(m, b + a, key);
      LastOnAppend(a, b, key);
      LastOnAppend(b, a, key);
      if Writes(a, key) {
        assert !Writes(b, key);
        LastOnNone(b, key);
      } else {
        LastOnNone(a, key);
      }
    }
    forall key | key in ab
      ensures key in ba && ab[key] == ba[key]
    {
      assert Lookup(ab, key) == Lookup(ba, key);
    }
    forall key | key in ba
      ensures key in ab
    {
      assert Lookup(ab, key) == Lookup(ba, key);
    }
  }
}
