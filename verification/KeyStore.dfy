/**
 A key/value store as its clients see it: entries in key order, with lookups, writes and scans of a
 closed interval.
 */
module KeyStore {
  import opened Options
  import opened KeyOrder

  datatype Entry = Entry(key: string, val: string)

  type Store = seq<Entry>

  function Lookup(db: Store, key: string): Option<string> {
    if db == [] then None else if db[0].key == key then Some(db[0].val) else Lookup(db[1..], key)
  }

  /** Insert or replace. */
  function Put(db: Store, key: string, val: string): Store {
    if db == [] then [Entry(key, val)]
    else if db[0].key == key then [Entry(key, val)] + db[1..]
    else if Leq(key, db[0].key) then [Entry(key, val)] + db
    else [db[0]] + Put(db[1..], key, val)
  }

  /** The values of the keys in a closed interval, in key order. */
  function Scan(db: Store, lo: string, hi: string): seq<string> {
    if db == [] then []
    else (if Within(db[0].key, lo, hi) then [db[0].val] else []) + Scan(db[1..], lo, hi)
  }

  /** Keys rise strictly, so a scan meets them in key order and each of them once. */
  ghost predicate Sorted(db: Store) {
    forall i, j {:trigger db[i], db[j]} :: 0 <= i < j < |db| ==> Less(db[i].key, db[j].key)
  }

  lemma {:induction false} PutKeepsOrder(db: Store, key: string, val: string)
    requires Sorted(db)
    ensures Sorted(Put(db, key, val))
    ensures forall e :: e in Put(db, key, val) ==> e == Entry(key, val) || e in db
  {
    if db == [] {
    } else if db[0].key == key {
      assert forall i :: 1 <= i < |db| ==> db[1..][i - 1] == db[i];
    } else if Leq(key, db[0].key) {
      forall i | 1 <= i < |db|
        ensures Less(key, db[i].key)
      {
        LessTrans(key, db[0].key, db[i].key);
      }
    } else {
      PutKeepsOrder(db[1..], key, val);
      LessOrLeq(db[0].key, key);
      var put := Put(db[1..], key, val);
      forall i | 0 <= i < |put|
        ensures Less(db[0].key, put[i].key)
      {
        assert put[i] in put;
      }
    }
  }

  lemma {:induction false} LookupPut(db: Store, key: string, val: string, k: string)
    ensures Lookup(Put(db, key, val), k) == if k == key then Some(val) else Lookup(db, k)
  {
    if db != [] && db[0].key != key && !Leq(key, db[0].key) {
      LookupPut(db[1..], key, val, k);
    }
  }

  /** A write outside an interval is invisible to a scan of it. */
  lemma {:induction false} ScanPut(db: Store, key: string, val: string, lo: string, hi: string)
    requires !Within(key, lo, hi)
    ensures Scan(Put(db, key, val), lo, hi) == Scan(db, lo, hi)
  {
    if db != [] && db[0].key != key && !Leq(key, db[0].key) {
      ScanPut(db[1..], key, val, lo, hi);
    }
  }
}
