/**
 The database of key/value pairs and nested checksums: a write updates one pair and every checksum
 above it, a read verifies the checksums from one pair to the top.
 */
module ChecksumDb {
  import opened Options
  import opened ChecksumKeys
  import opened KeyOrder
  import opened KeyStore

  // ------------------------------------------------------------------------------------------
  // Checksums
  // ------------------------------------------------------------------------------------------

  /** One byte into a u32 checksum: cksum += (cksum<<3) + byte. */
  function Mix(cksum: nat, byte: char): nat {
    (cksum + cksum * 8 + byte as int) % 0x1_0000_0000
  }

  function CksumBytes(cksum: nat, bytes: string): nat
    decreases bytes
  {
    if bytes == [] then cksum else CksumBytes(Mix(cksum, bytes[0]), bytes[1..])
  }

  function CksumAll(cksum: nat, vals: seq<string>): nat
    decreases vals
  {
    if vals == [] then cksum else CksumAll(CksumBytes(cksum, vals[0]), vals[1..])
  }

  datatype Params = Params(nFanout: nat, nKey: nat)

  function LevelsFrom(p: Params, n: nat): nat
    requires p.nFanout >= 2 && n > 0
    decreases p.nKey - n
  {
    if n >= p.nKey then 0 else 1 + LevelsFrom(p, n * p.nFanout)
  }

  /** dbMaxLevel */
  function MaxLevel(p: Params): nat
    requires p.nFanout >= 2
  {
    LevelsFrom(p, 1)
  }

  lemma {:induction false} LevelsFromReach(p: Params, i: nat)
    requires p.nFanout >= 2
    ensures Pow(p.nFanout, i) > 0
    ensures Pow(p.nFanout, i + LevelsFrom(p, Pow(p.nFanout, i))) >= p.nKey
    ensures LevelsFrom(p, Pow(p.nFanout, i)) > 0 ==> Pow(p.nFanout, i + LevelsFrom(p, Pow(p.nFanout, i)) - 1) < p.nKey
    decreases p.nKey - Pow(p.nFanout, i)
  {
    PowPositive(p.nFanout, i);
    var n := Pow(p.nFanout, i);
    if n < p.nKey {
      assert Pow(p.nFanout, i + 1) == p.nFanout * n == n * p.nFanout;
      LevelsFromReach(p, i + 1);
    }
  }

  /** The top level is the lowest one whose single group holds every key. */
  lemma MaxLevelIsLeast(p: Params)
    requires p.nFanout >= 2
    ensures Pow(p.nFanout, MaxLevel(p)) >= p.nKey
    ensures MaxLevel(p) > 0 ==> Pow(p.nFanout, MaxLevel(p) - 1) < p.nKey
  {
    assert Pow(p.nFanout, 0) == 1;
    LevelsFromReach(p, 0);
  }

  /** The fanout makes levels grow, and the arithmetic on keys stays within a 32-bit int. */
  predicate ValidParams(p: Params) {
    p.nFanout >= 2 && Pow(p.nFanout, MaxLevel(p)) <= 0x7fff_ffff
  }

  lemma ValidParamsTenDigits(p: Params)
    requires ValidParams(p)
    ensures TenDigits(p.nFanout, MaxLevel(p)) && Pow(p.nFanout, MaxLevel(p)) >= p.nKey
  {
    assert Pow(10, 10) == 10_000_000_000 by {
      assert Pow(10, 5) == 100_000 by {
        assert Pow(10, 2) == 100;
        assert Pow(10, 3) == 1000;
        assert Pow(10, 4) == 10_000;
      }
      PowMultiple(10, 5, 5);
    }
    MaxLevelIsLeast(p);
  }

  /** dbComputeCksum: scan the entries one level below. */
  function Compute(p: Params, db: Store, i: nat, key: nat): nat
    requires p.nFanout >= 2 && i > 0
  {
    CksumAll(0, Scan(db, ScanFirst(p.nFanout, i, key), ScanLast(p.nFanout, i, key)))
  }

  /** dbFormatCksumValue */
  function FormatCksum(cksum: nat): string {
    Padded(cksum, 10)
  }

  /** The database after the pair and the checksums of levels 1 to i have been written. */
  function WriteLevels(p: Params, db: Store, key: nat, val: string, i: nat): Store
    requires p.nFanout >= 2
  {
    if i == 0 then Put(db, FormatKey(p.nFanout, 0, key), val)
    else
      var below := WriteLevels(p, db, key, val, i - 1);
      Put(below, FormatKey(p.nFanout, i, key), FormatCksum(Compute(p, below, i, key)))
  }

  /** dbReadOperation at one level: a zero checksum is not looked up. */
  predicate LevelVerifies(p: Params, db: Store, i: nat, key: nat)
    requires p.nFanout >= 2 && i > 0
  {
    var cksum := Compute(p, db, i, key);
    cksum == 0 || Lookup(db, FormatKey(p.nFanout, i, key)) == Some(FormatCksum(cksum))
  }

  // ------------------------------------------------------------------------------------------
  // The hierarchy
  // ------------------------------------------------------------------------------------------

  /** The stored checksum of the level-i group of `key` is that of its children; an absent one
      has no children. */
  ghost predicate GroupOk(p: Params, db: Store, i: nat, key: nat)
    requires p.nFanout >= 2 && i > 0
  {
    match Lookup(db, FormatKey(p.nFanout, i, key))
    case None => Scan(db, ScanFirst(p.nFanout, i, key), ScanLast(p.nFanout, i, key)) == []
    case Some(v) => v == FormatCksum(Compute(p, db, i, key))
  }

  /** Every group is in order, except that those containing `key` above level `done` may not be. */
  ghost predicate OkExceptAbove(p: Params, db: Store, key: nat, done: nat)
    requires p.nFanout >= 2
  {
    forall i: nat, k: nat {:trigger GroupOk(p, db, i, k)} ::
      0 < i <= MaxLevel(p) && k < Pow(p.nFanout, MaxLevel(p)) && (i <= done || !SameGroup(p.nFanout, i, key, k)) ==>
        GroupOk(p, db, i, k)
  }

  ghost predicate Consistent(p: Params, db: Store)
    requires p.nFanout >= 2
  {
    forall i: nat, k: nat {:trigger GroupOk(p, db, i, k)} ::
      0 < i <= MaxLevel(p) && k < Pow(p.nFanout, MaxLevel(p)) ==> GroupOk(p, db, i, k)
  }

  lemma EmptyIsConsistent(p: Params)
    requires ValidParams(p)
    ensures Consistent(p, [])
  {
  }

  /** A group is not affected by a write that is neither its own entry nor one of its children. */
  lemma GroupFrame(p: Params, db: Store, key: string, val: string, i: nat, k: nat)
    requires p.nFanout >= 2 && i > 0 && GroupOk(p, db, i, k)
    requires key != FormatKey(p.nFanout, i, k)
    requires !Within(key, ScanFirst(p.nFanout, i, k), ScanLast(p.nFanout, i, k))
    ensures GroupOk(p, Put(db, key, val), i, k)
  {
    LookupPut(db, key, val, FormatKey(p.nFanout, i, k));
    ScanPut(db, key, val, ScanFirst(p.nFanout, i, k), ScanLast(p.nFanout, i, k));
  }

  /** Writing the pair disturbs only the groups that contain it. */
  lemma WritePairOk(p: Params, db: Store, key: nat, val: string)
    requires ValidParams(p) && Consistent(p, db) && key < Pow(p.nFanout, MaxLevel(p))
    ensures OkExceptAbove(p, Put(db, FormatKey(p.nFanout, 0, key), val), key, 0)
  {
    ValidParamsTenDigits(p);
    var f, max := p.nFanout, MaxLevel(p);
    forall i: nat, k: nat | 0 < i <= max && k < Pow(f, max) && !SameGroup(f, i, key, k)
      ensures GroupOk(p, Put(db, FormatKey(f, 0, key), val), i, k)
    {
      ScanCovers(f, max, i, k, 0, key);
      FormatKeyInjective(f, max, 0, key, i, k);
      GroupFrame(p, db, FormatKey(f, 0, key), val, i, k);
    }
  }

  /** Writing the level-j checksum of `key` puts its group in order and disturbs only the group
      above it. */
  lemma WriteLevelOk(p: Params, db: Store, key: nat, j: nat)
    requires ValidParams(p) && key < Pow(p.nFanout, MaxLevel(p)) && 0 < j <= MaxLevel(p)
    requires OkExceptAbove(p, db, key, j - 1)
    ensures OkExceptAbove(p, Put(db, FormatKey(p.nFanout, j, key), FormatCksum(Compute(p, db, j, key))), key, j)
  {
    ValidParamsTenDigits(p);
    var f, max := p.nFanout, MaxLevel(p);
    var val := FormatCksum(Compute(p, db, j, key));
    var db' := Put(db, FormatKey(f, j, key), val);
    forall i: nat, k: nat | 0 < i <= max && k < Pow(f, max) && (i <= j || !SameGroup(f, i, key, k))
      ensures GroupOk(p, db', i, k)
    {
      ScanCovers(f, max, i, k, j, key);
      FormatKeyInjective(f, max, j, key, i, k);
      if i == j && SameGroup(f, j, key, k) {
        SameBounds(f, j, key, k);
        LookupPut(db, FormatKey(f, j, key), val, FormatKey(f, j, key));
        ScanPut(db, FormatKey(f, j, key), val, ScanFirst(f, j, key), ScanLast(f, j, key));
      } else {
        GroupFrame(p, db, FormatKey(f, j, key), val, i, k);
      }
    }
  }

  /** Each write keeps the store in key order, which is what a scan of it relies on. */
  lemma {:induction false} WriteKeepsOrder(p: Params, db: Store, key: nat, val: string, i: nat)
    requires p.nFanout >= 2 && Sorted(db)
    ensures Sorted(WriteLevels(p, db, key, val, i))
  {
    if i == 0 {
      PutKeepsOrder(db, FormatKey(p.nFanout, 0, key), val);
    } else {
      WriteKeepsOrder(p, db, key, val, i - 1);
      var below := WriteLevels(p, db, key, val, i - 1);
      PutKeepsOrder(below, FormatKey(p.nFanout, i, key), FormatCksum(Compute(p, below, i, key)));
    }
  }

  lemma {:induction false} WriteLevelsOk(p: Params, db: Store, key: nat, val: string, j: nat)
    requires ValidParams(p) && Consistent(p, db) && key < Pow(p.nFanout, MaxLevel(p)) && j <= MaxLevel(p)
    ensures OkExceptAbove(p, WriteLevels(p, db, key, val, j), key, j)
  {
    if j == 0 {
      WritePairOk(p, db, key, val);
    } else {
      WriteLevelsOk(p, db, key, val, j - 1);
      WriteLevelOk(p, WriteLevels(p, db, key, val, j - 1), key, j);
    }
  }

  /** A whole write transaction keeps the hierarchy. */
  lemma WriteKeepsHierarchy(p: Params, db: Store, key: nat, val: string)
    requires ValidParams(p) && Consistent(p, db) && key < p.nKey
    ensures Consistent(p, WriteLevels(p, db, key, val, MaxLevel(p)))
  {
    ValidParamsTenDigits(p);
    WriteLevelsOk(p, db, key, val, MaxLevel(p));
    assert OkExceptAbove(p, WriteLevels(p, db, key, val, MaxLevel(p)), key, MaxLevel(p));
  }

  /** In a consistent database every level of every key verifies. */
  lemma ConsistentVerifies(p: Params, db: Store, i: nat, key: nat)
    requires ValidParams(p) && Consistent(p, db) && 0 < i <= MaxLevel(p) && key < p.nKey
    ensures LevelVerifies(p, db, i, key)
  {
    ValidParamsTenDigits(p);
    assert GroupOk(p, db, i, key);
  }

  // ------------------------------------------------------------------------------------------
  // The operations
  // ------------------------------------------------------------------------------------------

  method PowerOf(fanout: nat, level: nat) returns (f: nat)
    ensures f == Pow(fanout, level)
  {
    f := 1;
    for i := 0 to level
      invariant f == Pow(fanout, i)
    {
      f := f * fanout;
    }
  }

  /** The first and the last key of a group. */
  method GroupBounds(fanout: nat, level: nat, key: nat) returns (first: nat, last: nat)
    requires fanout > 0
    ensures first == Aligned(fanout, level, key) && last == LastOfGroup(fanout, level, key)
  {
    var f := PowerOf(fanout, level);
    PowPositive(fanout, level);
    first := f * (key / f);
    last := first + f - 1;
  }

  method ComputeMaxLevel(p: Params) returns (iMax: nat)
    requires p.nFanout >= 2
    ensures iMax == MaxLevel(p)
  {
    iMax := 0;
    var n := 1;
    while n < p.nKey
      invariant n > 0
      invariant iMax + LevelsFrom(p, n) == MaxLevel(p)
      decreases p.nKey - n
    {
      n := n * p.nFanout;
      iMax := iMax + 1;
    }
  }

  /** dbCksum: the scan callback. */
  method AddToCksum(cksum: nat, val: string) returns (r: nat)
    ensures r == CksumBytes(cksum, val)
  {
    r := cksum;
    for i := 0 to |val|
      invariant CksumBytes(r, val[i..]) == CksumBytes(cksum, val)
    {
      assert val[i..][0] == val[i] && val[i..][1..] == val[i + 1..];
      r := Mix(r, val[i]);
    }
  }

  lemma CksumNext(cksum: nat, vals: seq<string>, j: nat)
    requires j < |vals|
    ensures CksumAll(cksum, vals[j..]) == CksumAll(CksumBytes(cksum, vals[j]), vals[j + 1..])
  {
    assert vals[j..][0] == vals[j] && vals[j..][1..] == vals[j + 1..];
  }

  /** The calls that one scan makes of it. */
  method AddAll(vals: seq<string>) returns (cksum: nat)
    ensures cksum == CksumAll(0, vals)
  {
    cksum := 0;
    assert vals[0..] == vals;
    for j := 0 to |vals|
      invariant CksumAll(cksum, vals[j..]) == CksumAll(0, vals)
    {
      CksumNext(cksum, vals, j);
      cksum := AddToCksum(cksum, vals[j]);
    }
  }

  class TestDb {
    var content: Store

    constructor ()
      ensures content == []
    {
      content := [];
    }

    method ComputeCksum(p: Params, i: nat, key: nat) returns (cksum: nat)
      requires p.nFanout >= 2 && i > 0
      ensures cksum == Compute(p, content, i, key)
    {
      var first, last := GroupBounds(p.nFanout, i, key);
      var vals := Scan(content, FormatKey(p.nFanout, i - 1, first), FormatKey(p.nFanout, i - 1, last));
      cksum := AddAll(vals);
    }

    /** dbReadOperation: true when no checksum on the way up fails to match. */
    method ReadOperation(p: Params, key: nat) returns (ok: bool)
      requires ValidParams(p) && key < p.nKey
      ensures ok <==> forall i :: 0 < i <= MaxLevel(p) ==> LevelVerifies(p, content, i, key)
      ensures Consistent(p, content) ==> ok
    {
      var iMax := ComputeMaxLevel(p);
      ok := true;
      var i := 1;
      while ok && i <= iMax
        invariant 1 <= i <= iMax + 1
        invariant ok ==> forall j :: 0 < j < i ==> LevelVerifies(p, content, j, key)
        invariant !ok ==> exists j :: 0 < j < i && !LevelVerifies(p, content, j, key)
        decreases iMax + 1 - i
      {
        var cksum := ComputeCksum(p, i, key);
        if cksum != 0 {
          ok := Lookup(content, FormatKey(p.nFanout, i, key)) == Some(FormatCksum(cksum));
        }
        assert ok <==> LevelVerifies(p, content, i, key);
        i := i + 1;
      }
      if Consistent(p, content) {
        forall j | 0 < j <= MaxLevel(p)
          ensures LevelVerifies(p, content, j, key)
        {
          ConsistentVerifies(p, content, j, key);
        }
      }
    }

    /** dbWriteOperation, once its write transaction is open. */
    method WriteOperation(p: Params, key: nat, val: string)
      requires ValidParams(p) && key < p.nKey
      modifies this
      ensures content == WriteLevels(p, old(content), key, val, MaxLevel(p))
      ensures Consistent(p, old(content)) ==> Consistent(p, content)
      ensures Sorted(old(content)) ==> Sorted(content)
    {
      var iMax := ComputeMaxLevel(p);
      content := Put(content, FormatKey(p.nFanout, 0, key), val);
      for i := 1 to iMax + 1
        invariant content == WriteLevels(p, old(content), key, val, i - 1)
      {
        var cksum := ComputeCksum(p, i, key);
        content := Put(content, FormatKey(p.nFanout, i, key), FormatCksum(cksum));
      }
      if Consistent(p, old(content)) {
        WriteKeepsHierarchy(p, old(content), key, val);
      }
      if Sorted(old(content)) {
        WriteKeepsOrder(p, old(content), key, val, MaxLevel(p));
      }
    }
  }
}
