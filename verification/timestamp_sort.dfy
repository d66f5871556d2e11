/**
 The ordering of the transaction history: a stable sort by timestamp, newest
 first, the order an array sort with the comparator "b minus a" produces.
 */
module TimestampSort {
  import opened WalletTypes

  /** Timestamps never increase along `s`. */
  predicate NewestFirst(s: seq<LedgerEntry>)
  {
    forall i, j :: 0 <= i < j < |s| ==> s[i].timestamp >= s[j].timestamp
  }

  /** The entries of `s` stamped `t`, in their order in `s`. */
  function StampedAt(s: seq<LedgerEntry>, t: nat): seq<LedgerEntry>
  {
    if s == [] then []
    else (if s[0].timestamp == t then [s[0]] else []) + StampedAt(s[1..], t)
  }

  /** `r` holds the same entries as `s`, and entries that tie on the
      timestamp keep their relative order. */
  ghost predicate StablyRearranged(r: seq<LedgerEntry>, s: seq<LedgerEntry>)
  {
    forall t: nat :: StampedAt(r, t) == StampedAt(s, t)
  }

  /** Puts `e` into the newest-first sequence `r`, in front of every entry
      that is not newer than `e`. */
  function Insert(e: LedgerEntry, r: seq<LedgerEntry>): (q: seq<LedgerEntry>)
    requires NewestFirst(r)
    ensures NewestFirst(q)
    ensures multiset(q) == multiset(r) + multiset{e}
  {
    if r == [] || r[0].timestamp <= e.timestamp then
      var q := [e] + r;
      assert q[1..] == r;
      q
    else
      var rest := Insert(e, r[1..]);
      assert forall k :: 0 <= k < |rest| ==> rest[k].timestamp <= r[0].timestamp by {
        forall k | 0 <= k < |rest|
          ensures rest[k].timestamp <= r[0].timestamp
        {
          assert rest[k] in multiset(rest);
          assert rest[k] == e || rest[k] in r[1..];
        }
      }
      var q := [r[0]] + rest;
      assert q[1..] == rest;
      assert r == [r[0]] + r[1..];
      q
  }

  /** The newest-first stable sort of `s`. */
  function SortNewestFirst(s: seq<LedgerEntry>): (r: seq<LedgerEntry>)
    ensures NewestFirst(r)
    ensures multiset(r) == multiset(s)
  {
    if s == [] then []
    else
      var r := Insert(s[0], SortNewestFirst(s[1..]));
      assert s == [s[0]] + s[1..];
      r
  }

  /** Inserting `e` puts it in front of the entries that share its
      timestamp and changes nothing else about those runs. */
  lemma {:induction false} InsertStamped(e: LedgerEntry, r: seq<LedgerEntry>, t: nat)
    requires NewestFirst(r)
    ensures StampedAt(Insert(e, r), t)
         == if e.timestamp == t then [e] + StampedAt(r, t) else StampedAt(r, t)
  {
    var q := Insert(e, r);
    if r == [] || r[0].timestamp <= e.timestamp {
      assert q[1..] == r;
    } else {
      var rest := Insert(e, r[1..]);
      assert q == [r[0]] + rest;
      assert q[1..] == rest;
      InsertStamped(e, r[1..], t);
    }
  }

  /** The sort is stable: the entries of each timestamp appear in the
      order in which they were stored. */
  lemma {:induction false} SortIsStable(s: seq<LedgerEntry>)
    ensures StablyRearranged(SortNewestFirst(s), s)
  {
    if s != [] {
      SortIsStable(s[1..]);
      forall t: nat
        ensures StampedAt(SortNewestFirst(s), t) == StampedAt(s, t)
      {
        InsertStamped(s[0], SortNewestFirst(s[1..]), t);
      }
    }
  }

  /** An entry of `s` is among the entries of its own timestamp. */
  lemma {:induction false} StampedComplete(s: seq<LedgerEntry>, i: nat)
    requires i < |s|
    ensures s[i] in StampedAt(s, s[i].timestamp)
  {
    if i > 0 {
      StampedComplete(s[1..], i - 1);
    }
  }

  /** The entries of a timestamp are entries of `s` carrying it. */
  lemma {:induction false} StampedSound(s: seq<LedgerEntry>, t: nat, x: LedgerEntry)
    requires x in StampedAt(s, t)
    ensures x in s && x.timestamp == t
  {
    if x !in (if s[0].timestamp == t then [s[0]] else []) {
      StampedSound(s[1..], t, x);
    }
  }

  /** Two newest-first orders of the same entries that keep ties in the same
      order are one and the same sequence. */
  lemma {:induction false} StableOrderIsUnique(q: seq<LedgerEntry>, r: seq<LedgerEntry>)
    requires NewestFirst(q) && NewestFirst(r)
    requires StablyRearranged(q, r)
    ensures q == r
  {
    if q == [] || r == [] {
      if q != [] {
        StampedComplete(q, 0);
      } else if r != [] {
        StampedComplete(r, 0);
      }
    } else {
      var a, b := q[0].timestamp, r[0].timestamp;
      StampedComplete(q, 0);
      StampedSound(r, a, q[0]);
      StampedComplete(r, 0);
      StampedSound(q, b, r[0]);
      assert a == b;
      assert StampedAt(q, a) == [q[0]] + StampedAt(q[1..], a);
      assert StampedAt(r, a) == [r[0]] + StampedAt(r[1..], a);
      assert q[0] == StampedAt(q, a)[0] == StampedAt(r, a)[0] == r[0];
      forall t: nat
        ensures StampedAt(q[1..], t) == StampedAt(r[1..], t)
      {
        var head := if a == t then [q[0]] else [];
        assert StampedAt(q, t) == head + StampedAt(q[1..], t);
        assert StampedAt(r, t) == head + StampedAt(r[1..], t);
        assert StampedAt(q, t) == StampedAt(r, t);
        assert StampedAt(q, t)[|head|..] == StampedAt(q[1..], t);
        assert StampedAt(r, t)[|head|..] == StampedAt(r[1..], t);
      }
      StableOrderIsUnique(q[1..], r[1..]);
      assert q == [q[0]] + q[1..] && r == [r[0]] + r[1..];
    }
  }

  /** The history the controller returns is the ONLY newest-first order of
      the stored entries that keeps ties in insertion order. */
  lemma SortIsTheStableOrder(s: seq<LedgerEntry>, q: seq<LedgerEntry>)
    ensures (NewestFirst(q) && StablyRearranged(q, s)) <==> q == SortNewestFirst(s)
  {
    SortIsStable(s);
    if NewestFirst(q) && StablyRearranged(q, s) {
      StableOrderIsUnique(q, SortNewestFirst(s));
    }
  }
}
