/**
 One file under crash testing: its bytes, the old content of every sector written since the last
 sync, and what a simulated power failure makes of them.
 */
module CrashFiles {
  import opened Options

  type Byte = int

  type File = seq<Byte>

  /** Reads past the end deliver zeros. */
  function ByteAt(f: File, k: nat): Byte {
    if k < |f| then f[k] else 0
  }

  function Sector(f: File, sz: nat, i: nat): (s: seq<Byte>)
    ensures |s| == sz
  {
    seq(sz, k requires 0 <= k < sz => ByteAt(f, i * sz + k))
  }

  /** Write, extending the file with zeros where needed. */
  function WriteAt(f: File, off: nat, data: seq<Byte>): (f': File)
    ensures forall k: nat {:trigger ByteAt(f', k)} :: ByteAt(f', k) == if off <= k < off + |data| then data[k - off] else ByteAt(f, k)
  {
    if data == [] then f
    else
      var n := if |f| < off + |data| then off + |data| else |f|;
      seq(n, k requires 0 <= k < n => if off <= k < off + |data| then data[k - off] else ByteAt(f, k))
  }

  function FirstSector(sz: nat, off: nat): nat
    requires sz > 0
  {
    off / sz
  }

  /** (iOff + nData - 1) / szSector, where the division truncates toward zero. */
  function LastSector(sz: nat, off: nat, n: nat): int
    requires sz > 0
  {
    if off + n > 0 then (off + n - 1) / sz else if sz == 1 then -1 else 0
  }

  // ------------------------------------------------------------------------------------------
  // Sectors and writes
  // ------------------------------------------------------------------------------------------

  /** Byte `k` of sector `i` lies before sector `q` exactly when `i` comes before `q`. */
  lemma Place(sz: nat, i: nat, k: nat, q: nat)
    requires k < sz
    ensures i * sz + k < q * sz <==> i < q
  {
    assert i < q ==> (i + 1) * sz <= q * sz;
    assert (i + 1) * sz == i * sz + sz;
    assert i >= q ==> i * sz >= q * sz;
  }

  lemma DivUnique(a: nat, sz: nat, q: nat, r: nat)
    requires r < sz && a == q * sz + r
    ensures a / sz == q
  {
    var p := a / sz;
    assert a == p * sz + a % sz;
    Place(sz, p, a % sz, q);
    Place(sz, q, r, p);
  }

  /** A position at or after `off` is in the sector of `off` or a later one. */
  lemma NotBefore(sz: nat, off: nat, i: nat, k: nat)
    requires k < sz && i < off / sz
    ensures i * sz + k < off
  {
    var q := off / sz;
    Place(sz, i, k, q);
    assert off == q * sz + off % sz;
  }

  lemma NotAfter(sz: nat, end: nat, i: nat, k: nat)
    requires k < sz && i > end / sz
    ensures i * sz + k > end
  {
    var q := end / sz;
    assert end == q * sz + end % sz;
    assert (q + 1) * sz == q * sz + sz;
    assert i * sz >= (q + 1) * sz;
  }

  /** A byte outside the sectors that a write is counted for is not written. */
  lemma NotWritten(sz: nat, off: nat, n: nat, i: nat, k: nat)
    requires k < sz && !(FirstSector(sz, off) <= i <= LastSector(sz, off, n))
    ensures !(off <= i * sz + k < off + n)
  {
    if i < FirstSector(sz, off) {
      NotBefore(sz, off, i, k);
    } else if n > 0 {
      NotAfter(sz, off + n - 1, i, k);
    }
  }

  /** A write changes only the sectors that it is counted for. */
  lemma WriteSpares(f: File, sz: nat, off: nat, data: seq<Byte>, i: nat)
    requires sz > 0 && !(FirstSector(sz, off) <= i <= LastSector(sz, off, |data|))
    ensures Sector(WriteAt(f, off, data), sz, i) == Sector(f, sz, i)
  {
    var f' := WriteAt(f, off, data);
    forall k | 0 <= k < sz
      ensures Sector(f', sz, i)[k] == Sector(f, sz, i)[k]
    {
      NotWritten(sz, off, |data|, i, k);
    }
  }

  /** Writing back one sector. */
  lemma WriteSector(f: File, sz: nat, i: nat, data: seq<Byte>, j: nat)
    requires sz > 0 && |data| == sz
    ensures Sector(WriteAt(f, i * sz, data), sz, j) == if j == i then data else Sector(f, sz, j)
  {
    var f' := WriteAt(f, i * sz, data);
    forall k | 0 <= k < sz
      ensures Sector(f', sz, j)[k] == if j == i then data[k] else Sector(f, sz, j)[k]
    {
      Place(sz, j, k, i);
      Place(sz, j, k, i + 1);
      assert (i + 1) * sz == i * sz + sz;
    }
  }

  // ------------------------------------------------------------------------------------------
  // Saved sectors
  // ------------------------------------------------------------------------------------------

  type Saved = seq<Option<seq<Byte>>>

  predicate HasOld(saved: Saved, i: nat) {
    i < |saved| && saved[i].Some?
  }

  /** `synced` is the content at the last sync, or when crash testing was switched on, and `touched`
      are the sectors that were counted for a write since. */
  datatype Tracked = Tracked(file: File, saved: Saved, synced: File, touched: set<nat>)

  predicate SectorOk(t: Tracked, sz: nat, i: nat) {
    if HasOld(t.saved, i) then t.saved[i].value == Sector(t.synced, sz, i)
    else Sector(t.file, sz, i) == Sector(t.synced, sz, i)
  }

  /** A saved sector holds the content at the last sync, any other sector still has that content, and
      exactly the touched sectors are saved. */
  ghost predicate Ok(t: Tracked, sz: nat) {
    && (forall i: nat {:trigger SectorOk(t, sz, i)} :: SectorOk(t, sz, i))
    && (forall i: nat {:trigger HasOld(t.saved, i)} :: HasOld(t.saved, i) <==> i in t.touched)
  }

  /** nNew: the array grows in steps of 64. */
  function NewSize(last: nat): (n: nat)
    ensures n > last
  {
    (last + 1 + 63) / 64 * 64
  }

  function Grown(saved: Saved, last: int): (r: Saved)
    ensures |r| > last
    ensures forall i: nat {:trigger HasOld(r, i)} :: HasOld(r, i) <==> HasOld(saved, i)
    ensures |r| >= |saved| && forall i: nat {:trigger r[i]} :: i < |saved| ==> r[i] == saved[i]
  {
    if |saved| < last + 1 then saved + seq(NewSize(last) - |saved|, _ => None) else saved
  }

  /** The saved sectors once those from `first` up to `n` have been looked at. */
  function SaveUpTo(f: File, saved: Saved, sz: nat, first: nat, n: nat): (r: Saved)
    requires first <= n <= |saved|
    ensures |r| == |saved|
    ensures forall i: nat {:trigger r[i]} :: i < |r| ==>
              r[i] == if saved[i].None? && first <= i < n then Some(Sector(f, sz, i)) else saved[i]
  {
    seq(|saved|, i requires 0 <= i < |saved| => if saved[i].None? && first <= i < n then Some(Sector(f, sz, i)) else saved[i])
  }

  predicate Between(first: nat, last: int, i: nat) {
    first <= i <= last
  }

  function Touch(first: nat, last: int): set<nat> {
    set i: nat | first <= i <= last && Between(first, last, i)
  }

  function Write(t: Tracked, sz: nat, off: nat, data: seq<Byte>): Tracked
    requires sz > 0
  {
    var first, last := FirstSector(sz, off), LastSector(sz, off, |data|);
    var saved := Grown(t.saved, last);
    t.(saved := if first <= last then SaveUpTo(t.file, saved, sz, first, last + 1) else saved,
       file := WriteAt(t.file, off, data),
       touched := t.touched + Touch(first, last))
  }

  /** The first write to a sector saves what the last sync left there. */
  lemma WriteOk(t: Tracked, sz: nat, off: nat, data: seq<Byte>)
    requires sz > 0 && Ok(t, sz)
    ensures Ok(Write(t, sz, off, data), sz)
  {
    var t' := Write(t, sz, off, data);
    var first, last := FirstSector(sz, off), LastSector(sz, off, |data|);
    forall i: nat
      ensures SectorOk(t', sz, i)
      ensures HasOld(t'.saved, i) <==> i in t'.touched
    {
      assert Between(first, last, i) <==> i in Touch(first, last);
      assert SectorOk(t, sz, i);
      assert HasOld(Grown(t.saved, last), i) <==> HasOld(t.saved, i);
      if !(first <= i <= last) {
        WriteSpares(t.file, sz, off, data, i);
      }
    }
  }

  function Sync(t: Tracked): Tracked {
    t.(saved := seq(|t.saved|, _ => None), synced := t.file, touched := {})
  }

  lemma SyncOk(t: Tracked, sz: nat)
    ensures Ok(Sync(t), sz)
  {
  }

  // ------------------------------------------------------------------------------------------
  // A crash
  // ------------------------------------------------------------------------------------------

  /** The pseudo-random source: a value per seed, and garbage bytes per seed. */
  datatype Prng = Prng(value: nat -> nat, bytes: (nat, nat) -> Byte)

  /** testPrngArray fills whole 32-bit words. */
  function Garbage(rng: Prng, seed: nat, aOld: seq<Byte>): (g: seq<Byte>)
    ensures |g| == |aOld|
  {
    seq(|aOld|, k requires 0 <= k < |aOld| => if k < |aOld| / 4 * 4 then rng.bytes(seed, k) else aOld[k])
  }

  /** What happens to a saved sector, and the seed that comes next. */
  function CrashSector(f: File, sz: nat, i: nat, aOld: seq<Byte>, rng: Prng, seed: nat): (File, nat) {
    match rng.value(seed) % 3
    case 0 => (f, seed + 1)
    case 1 => (WriteAt(f, i * sz, Garbage(rng, seed + 1, aOld)), seed + 2)
    case _ => (WriteAt(f, i * sz, aOld), seed + 1)
  }

  /** doSystemCrash on one file, for its first `n` sectors. */
  function CrashUpTo(f: File, saved: Saved, sz: nat, rng: Prng, seed: nat, n: nat): (File, nat)
    requires n <= |saved|
  {
    if n == 0 then (f, seed)
    else
      var (f', seed') := CrashUpTo(f, saved, sz, rng, seed, n - 1);
      if saved[n - 1].Some? then CrashSector(f', sz, n - 1, saved[n - 1].value, rng, seed') else (f', seed')
  }

  /** New, old or garbage. */
  ghost predicate Outcome(f: File, saved: Saved, sz: nat, rng: Prng, f': File, i: nat) {
    || Sector(f', sz, i) == Sector(f, sz, i)
    || (HasOld(saved, i) && Sector(f', sz, i) == saved[i].value)
    || (HasOld(saved, i) && exists seed {:trigger Garbage(rng, seed, saved[i].value)} :: Sector(f', sz, i) == Garbage(rng, seed, saved[i].value))
  }

  ghost predicate Fits(saved: Saved, sz: nat) {
    forall i {:trigger saved[i]} :: 0 <= i < |saved| && saved[i].Some? ==> |saved[i].value| == sz
  }

  lemma OneSector(f: File, saved: Saved, sz: nat, rng: Prng, seed: nat, i: nat, j: nat)
    requires sz > 0 && HasOld(saved, i) && |saved[i].value| == sz
    ensures var f' := CrashSector(f, sz, i, saved[i].value, rng, seed).0;
            && (j != i ==> Sector(f', sz, j) == Sector(f, sz, j))
            && Outcome(f, saved, sz, rng, f', i)
  {
    WriteSector(f, sz, i, saved[i].value, j);
    WriteSector(f, sz, i, saved[i].value, i);
    WriteSector(f, sz, i, Garbage(rng, seed + 1, saved[i].value), j);
    WriteSector(f, sz, i, Garbage(rng, seed + 1, saved[i].value), i);
  }

  lemma {:induction false} CrashOutcome(f: File, saved: Saved, sz: nat, rng: Prng, seed: nat, n: nat, i: nat)
    requires sz > 0 && Fits(saved, sz) && n <= |saved|
    ensures var f' := CrashUpTo(f, saved, sz, rng, seed, n).0;
            if i < n then Outcome(f, saved, sz, rng, f', i) else Sector(f', sz, i) == Sector(f, sz, i)
  {
    if n > 0 {
      CrashOutcome(f, saved, sz, rng, seed, n - 1, i);
      if saved[n - 1].Some? {
        var (g, seed') := CrashUpTo(f, saved, sz, rng, seed, n - 1);
        OneSector(g, saved, sz, rng, seed', n - 1, i);
      }
    }
  }

  /** After a crash each sector is as written, as last synced or garbage, and a sector that was not
      touched since the last sync is exactly as the sync left it. */
  lemma CrashTheorem(t: Tracked, sz: nat, rng: Prng, seed: nat, i: nat)
    requires sz > 0 && Ok(t, sz)
    ensures var f' := CrashUpTo(t.file, t.saved, sz, rng, seed, |t.saved|).0;
            && (i !in t.touched ==> Sector(f', sz, i) == Sector(t.synced, sz, i))
            && (|| Sector(f', sz, i) == Sector(t.file, sz, i)
                || Sector(f', sz, i) == Sector(t.synced, sz, i)
                || exists s {:trigger Garbage(rng, s, Sector(t.synced, sz, i))} :: Sector(f', sz, i) == Garbage(rng, s, Sector(t.synced, sz, i)))
  {
    SavedFit(t, sz);
    CrashOutcome(t.file, t.saved, sz, rng, seed, |t.saved|, i);
    assert SectorOk(t, sz, i);
    assert HasOld(t.saved, i) <==> i in t.touched;
  }

  lemma SavedFit(t: Tracked, sz: nat)
    requires Ok(t, sz)
    ensures Fits(t.saved, sz)
  {
    forall i | 0 <= i < |t.saved| && t.saved[i].Some?
      ensures |t.saved[i].value| == sz
    {
      assert SectorOk(t, sz, i);
    }
  }
}
