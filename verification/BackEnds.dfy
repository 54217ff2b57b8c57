/**
 Range scans and range deletes, as each back end writes them: cursors over a sorted store that seek,
 step, compare keys with memcmp and stop at the first key outside the range.
 */
module BackEnds {
  import opened Options
  import opened KeyOrder
  import opened KeyStore

  // ------------------------------------------------------------------------------------------
  // What every back end has to deliver
  // ------------------------------------------------------------------------------------------

  /** An absent bound does not restrict anything. */
  predicate InRange(key: string, first: Option<string>, last: Option<string>) {
    (first.Some? ==> Leq(first.value, key)) && (last.Some? ==> Leq(key, last.value))
  }

  /** SELECT ... ORDER BY k, for the first `n` entries. */
  function Selected(db: Store, n: nat, first: Option<string>, last: Option<string>): seq<Entry>
    requires n <= |db|
  {
    if n == 0 then []
    else Selected(db, n - 1, first, last) + (if InRange(db[n - 1].key, first, last) then [db[n - 1]] else [])
  }

  function Reverse(s: seq<Entry>): (r: seq<Entry>)
    ensures |r| == |s| && forall i {:trigger r[i]} :: 0 <= i < |s| ==> r[i] == s[|s| - 1 - i]
  {
    seq(|s|, i requires 0 <= i < |s| => s[|s| - 1 - i])
  }

  function ScanResult(db: Store, reverse: bool, first: Option<string>, last: Option<string>): seq<Entry> {
    var s := Selected(db, |db|, first, last);
    if reverse then Reverse(s) else s
  }

  predicate Inside(key: string, k1: string, k2: string) {
    Less(k1, key) && Less(key, k2)
  }

  /** DELETE ... WHERE k>? AND k<?, for the first `n` entries. */
  function Outside(db: Store, n: nat, k1: string, k2: string): seq<Entry>
    requires n <= |db|
  {
    if n == 0 then []
    else Outside(db, n - 1, k1, k2) + (if Inside(db[n - 1].key, k1, k2) then [] else [db[n - 1]])
  }

  // ------------------------------------------------------------------------------------------
  // memcmp
  // ------------------------------------------------------------------------------------------

  function Memcmp(a: string, b: string, n: nat): int
    requires n <= |a| && n <= |b|
  {
    if n == 0 then 0 else if a[0] < b[0] then -1 else if a[0] > b[0] then 1 else Memcmp(a[1..], b[1..], n - 1)
  }

  function Min(a: nat, b: nat): nat {
    if a < b then a else b
  }

  /** Comparing the common length first and the lengths on a tie is the key order. */
  lemma {:induction false} MemcmpOrder(a: string, b: string)
    ensures var res := Memcmp(a, b, Min(|a|, |b|));
            && (res < 0 || (res == 0 && |a| <= |b|) <==> Leq(a, b))
            && (res > 0 || (res == 0 && |a| >= |b|) <==> Leq(b, a))
  {
    if a != [] && b != [] {
      MemcmpOrder(a[1..], b[1..]);
    }
  }

  // ------------------------------------------------------------------------------------------
  // Intervals of a sorted store
  // ------------------------------------------------------------------------------------------

  /** Entries `lo` to `hi` are those in the range. */
  ghost predicate IsInterval(db: Store, first: Option<string>, last: Option<string>, lo: nat, hi: nat) {
    && lo <= |db| && hi <= |db|
    && forall i {:trigger db[i]} :: 0 <= i < |db| ==> (InRange(db[i].key, first, last) <==> lo <= i < hi)
  }

  /** What the entries from `lo` to `hi` are among the first `n`. */
  function Part(db: Store, n: nat, lo: nat, hi: nat): seq<Entry>
    requires n <= |db| && hi <= |db|
  {
    if n <= lo || hi <= lo then [] else if n <= hi then db[lo..n] else db[lo..hi]
  }

  lemma PartStep(db: Store, n: nat, lo: nat, hi: nat)
    requires 0 < n <= |db| && hi <= |db|
    ensures Part(db, n, lo, hi) == Part(db, n - 1, lo, hi) + (if lo <= n - 1 < hi then [db[n - 1]] else [])
  {
    if lo < n <= hi {
      assert db[lo..n] == db[lo..n - 1] + [db[n - 1]];
    }
  }

  lemma {:induction false} IntervalSelected(db: Store, n: nat, first: Option<string>, last: Option<string>, lo: nat, hi: nat)
    requires IsInterval(db, first, last, lo, hi) && n <= |db|
    ensures Selected(db, n, first, last) == Part(db, n, lo, hi)
  {
    if n > 0 {
      IntervalSelected(db, n - 1, first, last, lo, hi);
      PartStep(db, n, lo, hi);
      assert InRange(db[n - 1].key, first, last) <==> lo <= n - 1 < hi;
    }
  }

  /** Where a range starts: the entries before `lo` are below the first bound, the others are not. */
  ghost predicate StartsAt(db: Store, first: Option<string>, lo: nat) {
    && lo <= |db|
    && (first.None? ==> lo == 0)
    && (first.Some? ==> forall i {:trigger db[i]} :: 0 <= i < |db| ==> (Leq(first.value, db[i].key) <==> lo <= i))
  }

  /** Where it ends. */
  ghost predicate EndsAt(db: Store, last: Option<string>, hi: nat) {
    && hi <= |db|
    && (last.None? ==> hi == |db|)
    && (last.Some? ==> forall i {:trigger db[i]} :: 0 <= i < |db| ==> (Leq(db[i].key, last.value) <==> i < hi))
  }

  lemma StartEnd(db: Store, first: Option<string>, last: Option<string>, lo: nat, hi: nat)
    requires StartsAt(db, first, lo) && EndsAt(db, last, hi)
    ensures Selected(db, |db|, first, last) == if lo < hi then db[lo..hi] else []
  {
    assert IsInterval(db, first, last, lo, hi);
    IntervalSelected(db, |db|, first, last, lo, hi);
  }

  // ------------------------------------------------------------------------------------------
  // Cursors: a cursor is the index of its entry, or out of bounds at the end
  // ------------------------------------------------------------------------------------------

  /** The first entry at or after `i` whose key is not below `key`. */
  function SeekGE(db: Store, key: string, i: nat): (r: nat)
    requires i <= |db|
    ensures i <= r <= |db|
    decreases |db| - i
  {
    if i == |db| || Leq(key, db[i].key) then i else SeekGE(db, key, i + 1)
  }

  /** The last of the first `n` entries whose key is not above `key`, or -1. */
  function SeekLE(db: Store, key: string, n: nat): (r: int)
    requires n <= |db|
    ensures -1 <= r < n
  {
    if n == 0 || Leq(db[n - 1].key, key) then n - 1 else SeekLE(db, key, n - 1)
  }

  lemma {:induction false} SeekGEFinds(db: Store, key: string, i: nat)
    requires Sorted(db) && i <= |db|
    requires forall j {:trigger db[j]} :: 0 <= j < i ==> !Leq(key, db[j].key)
    ensures StartsAt(db, Some(key), SeekGE(db, key, i))
    decreases |db| - i
  {
    if i == |db| {
    } else if Leq(key, db[i].key) {
      forall j | i < j < |db|
        ensures Leq(key, db[j].key)
      {
        LeqTrans(key, db[i].key, db[j].key);
      }
    } else {
      SeekGEFinds(db, key, i + 1);
    }
  }

  lemma {:induction false} SeekLEFinds(db: Store, key: string, n: nat)
    requires Sorted(db) && n <= |db|
    requires forall j {:trigger db[j]} :: n <= j < |db| ==> !Leq(db[j].key, key)
    ensures EndsAt(db, Some(key), SeekLE(db, key, n) + 1)
  {
    if n == 0 {
    } else if Leq(db[n - 1].key, key) {
      forall j | 0 <= j < n - 1
        ensures Leq(db[j].key, key)
      {
        LeqTrans(db[j].key, db[n - 1].key, key);
      }
    } else {
      SeekLEFinds(db, key, n - 1);
    }
  }

  /** Both ends of a range exist in a sorted store. */
  ghost function StartOf(db: Store, first: Option<string>): (lo: nat)
    requires Sorted(db)
    ensures StartsAt(db, first, lo)
  {
    if first.None? then 0
    else
      SeekGEFinds(db, first.value, 0);
      SeekGE(db, first.value, 0)
  }

  ghost function EndOf(db: Store, last: Option<string>): (hi: nat)
    requires Sorted(db)
    ensures EndsAt(db, last, hi)
  {
    if last.None? then |db|
    else
      SeekLEFinds(db, last.value, |db|);
      SeekLE(db, last.value, |db|) + 1
  }

  /** How far a scan has come: forward it has delivered entries from the start up to the cursor,
      backward those from the cursor (exclusive) to the end. */
  ghost predicate Progress(db: Store, reverse: bool, lo: nat, hi: nat, csr: int, out: seq<Entry>) {
    && lo <= |db| && hi <= |db|
    && if reverse
       then -1 <= csr < hi && (csr + 1 >= lo || csr + 1 == hi) && out == Reverse(db[csr + 1..hi])
       else lo <= csr <= |db| && (csr <= hi || csr == lo) && out == db[lo..csr]
  }

  lemma ProgressStep(db: Store, reverse: bool, lo: nat, hi: nat, csr: int, out: seq<Entry>)
    requires Progress(db, reverse, lo, hi, csr, out) && 0 <= csr < |db|
    requires if reverse then csr >= lo else csr < hi
    ensures Progress(db, reverse, lo, hi, if reverse then csr - 1 else csr + 1, out + [db[csr]])
  {
    if reverse {
      assert db[csr..hi] == [db[csr]] + db[csr + 1..hi];
      assert Reverse(db[csr..hi]) == out + [db[csr]];
    }
  }

  /** A scan that stops at the end of the store or at the first entry past the range is complete. */
  lemma ProgressDone(db: Store, reverse: bool, first: Option<string>, last: Option<string>, lo: nat, hi: nat,
                     csr: int, out: seq<Entry>)
    requires StartsAt(db, first, lo) && EndsAt(db, last, hi) && Progress(db, reverse, lo, hi, csr, out)
    requires if reverse then csr < lo else csr >= hi
    ensures out == ScanResult(db, reverse, first, last)
  {
    StartEnd(db, first, last, lo, hi);
  }

  /** bt_scan */
  method BtScan(db: Store, bReverse: bool, first: Option<string>, last: Option<string>) returns (out: seq<Entry>)
    requires Sorted(db)
    ensures out == ScanResult(db, bReverse, first, last)
  {
    ghost var lo, hi := StartOf(db, first), EndOf(db, last);
    var csr: int;
    if bReverse {
      csr := if last.Some? then SeekLE(db, last.value, |db|) else |db| - 1;
    } else {
      csr := SeekGE(db, if first.Some? then first.value else "", 0);
    }
    out := [];
    while 0 <= csr < |db|
      invariant Progress(db, bReverse, lo, hi, csr, out)
      decreases if bReverse then csr else |db| - csr
    {
      var k := db[csr].key;
      if bReverse {
        if first.Some? {
          MemcmpOrder(first.value, k);
          var res := Memcmp(first.value, k, Min(|k|, |first.value|));
          if res > 0 || (res == 0 && |k| < |first.value|) {
            break;
          }
        }
      } else {
        if last.Some? {
          MemcmpOrder(last.value, k);
          var res := Memcmp(last.value, k, Min(|k|, |last.value|));
          if res < 0 || (res == 0 && |k| > |last.value|) {
            break;
          }
        }
      }
      ProgressStep(db, bReverse, lo, hi, csr, out);
      out := out + [db[csr]];
      csr := if bReverse then csr - 1 else csr + 1;
    }
    ProgressDone(db, bReverse, first, last, lo, hi, csr, out);
  }

  /** test_lsm_scan */
  method LsmScan(db: Store, bReverse: bool, first: Option<string>, last: Option<string>) returns (out: seq<Entry>)
    requires Sorted(db)
    ensures out == ScanResult(db, bReverse, first, last)
  {
    ghost var lo, hi := StartOf(db, first), EndOf(db, last);
    var csr: int;
    if bReverse {
      csr := if last.Some? then SeekLE(db, last.value, |db|) else |db| - 1;
    } else {
      csr := if first.Some? then SeekGE(db, first.value, 0) else 0;
    }
    out := [];
    while 0 <= csr < |db|
      invariant Progress(db, bReverse, lo, hi, csr, out)
      decreases if bReverse then csr else |db| - csr
    {
      var k := db[csr].key;
      if bReverse && first.Some? {
        MemcmpOrder(first.value, k);
        var cmp := Memcmp(first.value, k, Min(|k|, |first.value|));
        if cmp > 0 || (cmp == 0 && |first.value| > |k|) {
          break;
        }
      } else if !bReverse && last.Some? {
        MemcmpOrder(last.value, k);
        var cmp := Memcmp(last.value, k, Min(|k|, |last.value|));
        if cmp < 0 || (cmp == 0 && |last.value| < |k|) {
          break;
        }
      }
      ProgressStep(db, bReverse, lo, hi, csr, out);
      out := out + [db[csr]];
      csr := if bReverse then csr - 1 else csr + 1;
    }
    ProgressDone(db, bReverse, first, last, lo, hi, csr, out);
  }

  /** memcmp on the common length, then the difference of the lengths. */
  method CompareKeys(k: string, key: string) returns (res: int)
    ensures res <= 0 <==> Leq(k, key)
    ensures res >= 0 <==> Leq(key, k)
  {
    MemcmpOrder(k, key);
    res := Memcmp(k, key, Min(|k|, |key|));
    if res == 0 {
      res := |k| - |key|;
    }
  }

  /** The last entry not above `key`, by an iterator that can only seek forward: seek to the first
      entry not below it and step back if that is another key. */
  method LevelDbSeekBack(db: Store, key: string) returns (iter: int)
    requires Sorted(db)
    ensures -1 <= iter < |db| && EndsAt(db, Some(key), iter + 1)
  {
    SeekGEFinds(db, key, 0);
    iter := SeekGE(db, key, 0);
    forall i | 0 <= i < |db|
      ensures i < iter ==> Leq(db[i].key, key)
      ensures i > iter ==> !Leq(db[i].key, key)
    {
      LessOrLeq(db[i].key, key);
      if i > iter {
        LessTrans(key, db[iter].key, db[i].key);
        LessOrLeq(key, db[i].key);
      }
    }
    if iter == |db| {
      iter := |db| - 1;
    } else {
      var res := CompareKeys(db[iter].key, key);
      if res > 0 {
        iter := iter - 1;
      }
    }
  }

  /** test_leveldb_scan */
  method LevelDbScan(db: Store, bReverse: bool, key1: Option<string>, key2: Option<string>) returns (out: seq<Entry>)
    requires Sorted(db)
    ensures out == ScanResult(db, bReverse, key1, key2)
  {
    ghost var lo, hi := StartOf(db, key1), EndOf(db, key2);
    var iter: int;
    if !bReverse {
      iter := if key1.Some? then SeekGE(db, key1.value, 0) else 0;
    } else if key2.Some? {
      iter := LevelDbSeekBack(db, key2.value);
      EndIsUnique(db, key2, hi, iter + 1);
    } else {
      iter := |db| - 1;
    }
    out := [];
    while 0 <= iter < |db|
      invariant Progress(db, bReverse, lo, hi, iter, out)
      decreases if bReverse then iter else |db| - iter
    {
      var k := db[iter].key;
      if !bReverse && key2.Some? {
        var res := CompareKeys(k, key2.value);
        if res > 0 {
          break;
        }
      }
      if bReverse && key1.Some? {
        var res := CompareKeys(k, key1.value);
        if res < 0 {
          break;
        }
      }
      ProgressStep(db, bReverse, lo, hi, iter, out);
      out := out + [db[iter]];
      iter := if bReverse then iter - 1 else iter + 1;
    }
    ProgressDone(db, bReverse, key1, key2, lo, hi, iter, out);
  }

  lemma EndIsUnique(db: Store, last: Option<string>, hi: nat, hi': nat)
    requires EndsAt(db, last, hi) && EndsAt(db, last, hi')
    ensures hi == hi'
  {
    assert hi < |db| && last.Some? ==> !Leq(db[hi].key, last.value);
    assert hi' < |db| && last.Some? ==> !Leq(db[hi'].key, last.value);
  }

  // ------------------------------------------------------------------------------------------
  // The SQL statements
  // ------------------------------------------------------------------------------------------

  /** Which bounds a prepared statement compares with, and its order. */
  datatype Statement = Statement(lower: bool, upper: bool, desc: bool)

  /** apScan[] */
  function ScanStatement(i: nat): Statement {
    match i
    case 0 => Statement(true, true, false)
    case 1 => Statement(false, true, false)
    case 2 => Statement(true, false, false)
    case 3 => Statement(false, false, false)
    case 4 => Statement(true, true, true)
    case 5 => Statement(false, true, true)
    case 6 => Statement(true, false, true)
    case _ => Statement(false, false, true)
  }

  function Bit(b: bool): nat {
    if b then 1 else 0
  }

  /** The rows a statement delivers for its two parameters; an unbound parameter is NULL. */
  function Rows(stmt: Statement, db: Store, param1: Option<string>, param2: Option<string>): seq<Entry> {
    ScanResult(db, stmt.desc, if stmt.lower then param1 else None, if stmt.upper then param2 else None)
  }

  /** sql_scan: the statement is picked by the bounds that are absent. The statements order their rows, so
      the table is given in the order of its keys. */
  method SqlScan(db: Store, bReverse: bool, first: Option<string>, last: Option<string>) returns (out: seq<Entry>)
    requires Sorted(db)
    ensures out == ScanResult(db, bReverse, first, last)
  {
    var stmt := ScanStatement(Bit(first.None?) + Bit(last.None?) * 2 + Bit(bReverse) * 4);
    assert stmt == Statement(first.Some?, last.Some?, bReverse);
    out := Rows(stmt, db, first, last);
  }

  /** The scan that the checksum database relies on. */
  lemma {:induction false} SelectedIsScan(db: Store, lo: string, hi: string, n: nat)
    requires n <= |db|
    ensures Values(Selected(db, n, Some(lo), Some(hi))) == Scan(db[..n], lo, hi)
  {
    if n > 0 {
      SelectedIsScan(db, lo, hi, n - 1);
      ScanAppend(db[..n - 1], db[n - 1], lo, hi);
      assert db[..n] == db[..n - 1] + [db[n - 1]];
    }
  }

  function Values(s: seq<Entry>): seq<string> {
    seq(|s|, i requires 0 <= i < |s| => s[i].val)
  }

  lemma {:induction false} ScanAppend(db: Store, e: Entry, lo: string, hi: string)
    ensures Scan(db + [e], lo, hi) == Scan(db, lo, hi) + (if Within(e.key, lo, hi) then [e.val] else [])
  {
    if db == [] {
      assert (db + [e])[1..] == [];
    } else {
      assert (db + [e])[1..] == db[1..] + [e];
      ScanAppend(db[1..], e, lo, hi);
    }
  }

  // ------------------------------------------------------------------------------------------
  // bt_delete_range
  // ------------------------------------------------------------------------------------------

  function RemoveAt(db: Store, i: nat): Store
    requires i < |db|
  {
    db[..i] + db[i + 1..]
  }

  lemma {:induction false} OutsideSame(db: Store, r: Store, n: nat, k1: string, k2: string)
    requires n <= |db| && n <= |r| && forall j {:trigger r[j]} :: 0 <= j < n ==> r[j] == db[j]
    ensures Outside(r, n, k1, k2) == Outside(db, n, k1, k2)
  {
    if n > 0 {
      OutsideSame(db, r, n - 1, k1, k2);
    }
  }

  lemma {:induction false} OutsideWithout(db: Store, r: Store, i: nat, n: nat, k1: string, k2: string)
    requires i <= n <= |r| == |db| - 1 && Inside(db[i].key, k1, k2)
    requires forall j {:trigger r[j]} :: 0 <= j < |r| ==> r[j] == if j < i then db[j] else db[j + 1]
    ensures Outside(r, n, k1, k2) == Outside(db, n + 1, k1, k2)
  {
    if n == i {
      OutsideSame(db, r, i, k1, k2);
      assert Outside(db, i, k1, k2) + [] == Outside(db, i, k1, k2);
    } else {
      OutsideWithout(db, r, i, n - 1, k1, k2);
    }
  }

  /** Deleting an entry inside the range does not change what remains outside. */
  lemma OutsideRemove(db: Store, i: nat, k1: string, k2: string)
    requires i < |db| && Inside(db[i].key, k1, k2)
    ensures Outside(RemoveAt(db, i), |db| - 1, k1, k2) == Outside(db, |db|, k1, k2)
  {
    OutsideWithout(db, RemoveAt(db, i), i, |db| - 1, k1, k2);
  }

  lemma {:induction false} OutsideAll(db: Store, n: nat, k1: string, k2: string)
    requires n <= |db| && forall i {:trigger db[i]} :: 0 <= i < |db| ==> !Inside(db[i].key, k1, k2)
    ensures Outside(db, n, k1, k2) == db[..n]
  {
    if n > 0 {
      OutsideAll(db, n - 1, k1, k2);
      assert db[..n] == db[..n - 1] + [db[n - 1]];
    }
  }

  /** Without the entries inside, `rest` is left of the database. */
  ghost predicate Rests(db: Store, k1: string, k2: string, rest: seq<Entry>) {
    Outside(db, |db|, k1, k2) == rest
  }

  lemma RestsAll(db: Store, k1: string, k2: string, rest: seq<Entry>)
    requires Rests(db, k1, k2, rest) && forall i {:trigger db[i]} :: 0 <= i < |db| ==> !Inside(db[i].key, k1, k2)
    ensures db == rest
  {
    OutsideAll(db, |db|, k1, k2);
    assert db[..|db|] == db;
  }

  lemma RemoveKeepsOrder(db: Store, i: nat)
    requires Sorted(db) && i < |db|
    ensures Sorted(RemoveAt(db, i))
  {
  }

  /** The entry after the ones up to `k1` decides whether anything is left to delete. */
  lemma NothingInside(db: Store, k1: string, k2: string, c: nat)
    requires Sorted(db) && c <= |db|
    requires forall i {:trigger db[i]} :: 0 <= i < c ==> Leq(db[i].key, k1)
    requires c < |db| ==> Leq(k2, db[c].key)
    ensures forall i {:trigger db[i]} :: 0 <= i < |db| ==> !Inside(db[i].key, k1, k2)
  {
    forall i | 0 <= i < |db|
      ensures !Inside(db[i].key, k1, k2)
    {
      if i < c {
        LessOrLeq(k1, db[i].key);
      } else {
        LeqRefl(db[c].key);
        LeqTrans(k2, db[c].key, db[i].key);
        LessOrLeq(db[i].key, k2);
      }
    }
  }

  class BtDb {
    var db: Store
    var level: nat
    var begun: Store             // what the database held when its write transaction was opened

    /** btMinTransaction: raise the transaction level if it is too low. */
    method MinTransaction(iMin: nat) returns (iLevel: int)
      modifies this`level, this`begun
      ensures level == (if old(level) < iMin then iMin else old(level))
      ensures iLevel == if old(level) < iMin then old(level) else -1
      ensures begun == if old(level) < iMin then db else old(begun)
    {
      iLevel := -1;
      if level < iMin {
        iLevel := level;
        level := iMin;
        begun := db;
      }
    }

    /** btRestoreTransaction: commit, or on an error roll back, what btMinTransaction has opened. */
    method RestoreTransaction(iLevel: int, ok: bool)
      modifies this`level, this`db
      ensures level == if iLevel >= 0 then iLevel else old(level)
      ensures db == if iLevel >= 0 && !ok then begun else old(db)
    {
      if iLevel >= 0 {
        if !ok {
          db := begun;
        }
        level := iLevel;
      }
    }

    /** The cursor on the first entry above `k1`, found by a seek that may stop on `k1` itself. */
    method SeekAbove(k1: string) returns (csr: nat)
      requires Sorted(db)
      ensures csr <= |db| && (csr < |db| ==> Less(k1, db[csr].key))
      ensures forall i {:trigger db[i]} :: 0 <= i < csr ==> Leq(db[i].key, k1)
    {
      SeekGEFinds(db, k1, 0);
      csr := SeekGE(db, k1, 0);
      forall i | 0 <= i < csr
        ensures Leq(db[i].key, k1)
      {
        LessOrLeq(db[i].key, k1);
      }
      if csr < |db| {
        var k := db[csr].key;
        MemcmpOrder(k1, k);
        var res := Memcmp(k1, k, Min(|k|, |k1|));
        assert res < 0 || (res == 0 && |k1| <= |k|);
        if res == 0 && |k1| == |k| {
          LeqAntisym(k, k1);
          csr := csr + 1;
        }
      }
    }

    /** The next entry to delete: the first one above `k1`, unless it is not below `k2`. */
    method NextInside(k1: string, k2: string) returns (csr: int)
      requires Sorted(db)
      ensures csr >= 0 ==> csr < |db| && Inside(db[csr].key, k1, k2)
      ensures csr < 0 ==> forall i {:trigger db[i]} :: 0 <= i < |db| ==> !Inside(db[i].key, k1, k2)
    {
      csr := SeekAbove(k1);
      if csr == |db| {
        NothingInside(db, k1, k2, csr);
        return -1;
      }
      var k := db[csr].key;
      MemcmpOrder(k2, k);
      var res := Memcmp(k2, k, Min(|k|, |k2|));
      if res < 0 || (res == 0 && |k2| <= |k|) {
        NothingInside(db, k1, k2, csr);
        return -1;
      }
      LessOrLeq(k, k2);
    }

    /** Delete the entry at `csr`. */
    method DeleteAt(csr: nat, k1: string, k2: string, ghost rest: seq<Entry>)
      requires Sorted(db) && csr < |db| && Inside(db[csr].key, k1, k2) && Rests(db, k1, k2, rest)
      modifies this`db
      ensures Sorted(db) && |db| == |old(db)| - 1 && Rests(db, k1, k2, rest)
    {
      OutsideRemove(db, csr, k1, k2);
      RemoveKeepsOrder(db, csr);
      db := RemoveAt(db, csr);
    }

    /** The loop of bt_delete_range: delete until there is no such entry; the store refuses after
        `budget` deletions. */
    method DeleteInside(k1: string, k2: string, budget: nat, ghost rest: seq<Entry>) returns (ok: bool)
      requires Sorted(db) && Rests(db, k1, k2, rest)
      modifies this`db
      ensures Sorted(db) && Rests(db, k1, k2, rest)
      ensures (ok ==> db == rest) && (budget >= |old(db)| ==> ok)
    {
      var left := budget;
      var csr := NextInside(k1, k2);
      while csr >= 0 && left > 0
        invariant Sorted(db) && Rests(db, k1, k2, rest)
        invariant left >= 0 && |db| - left == |old(db)| - budget
        invariant csr >= 0 ==> csr < |db| && Inside(db[csr].key, k1, k2)
        invariant csr < 0 ==> forall i {:trigger db[i]} :: 0 <= i < |db| ==> !Inside(db[i].key, k1, k2)
        decreases |db|
      {
        DeleteAt(csr, k1, k2, rest);
        left := left - 1;
        csr := NextInside(k1, k2);
      }
      ok := csr < 0;
      if ok {
        RestsAll(db, k1, k2, rest);
      }
    }

    /** bt_delete_range: exactly the open interval disappears, or, on an error, nothing when the
        transaction was opened here and part of the interval otherwise; in all cases the transaction
        level is restored. */
    method DeleteRange(k1: string, k2: string, budget: nat) returns (ok: bool)
      requires Sorted(db)
      modifies this
      ensures Sorted(db) && level == old(level)
      ensures ok ==> db == Outside(old(db), |old(db)|, k1, k2)
      ensures !ok ==> Rests(db, k1, k2, Outside(old(db), |old(db)|, k1, k2))
      ensures !ok && old(level) < 2 ==> db == old(db)
      ensures budget >= |old(db)| ==> ok
    {
      var iLevel := MinTransaction(2);
      ok := DeleteInside(k1, k2, budget, Outside(db, |db|, k1, k2));
      RestoreTransaction(iLevel, ok);
    }
  }
}
