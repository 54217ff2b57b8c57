/**
 Reading the retained samples back: the rows that ANALYZE stores for one index, and the loader that
 copies them into the index object and estimates the row count of keys that were not sampled.
 */
module Stat3Load {
  import opened Options
  import opened Stat3Sampler
  import opened Stat3Accum
  import opened AnalyzeLoop

  const U64: nat := 0x1_0000_0000_0000_0000

  /** stat3Get: sample `n`, or null past the end. */
  method Get(acc: Accumulator, n: nat) returns (r: Option<Sample>)
    requires acc.Valid()
    ensures r == if n < acc.nSample then Some(acc.Abs().samples[n]) else None
  {
    if acc.nSample <= n {
      return None;
    }
    assert acc.a[..acc.nSample][n] == acc.a[n];
    return Some(SampleOf(acc.mem, acc.a[n]));
  }

  /** The output loop: insert rows until stat3_get returns null. */
  method Emit(acc: Accumulator) returns (rows: seq<Sample>)
    requires acc.Valid()
    ensures rows == acc.Abs().samples
  {
    rows := [];
    var x := Get(acc, 0);
    while x.Some?
      invariant |rows| <= acc.nSample && rows == acc.Abs().samples[..|rows|]
      invariant x == if |rows| < acc.nSample then Some(acc.Abs().samples[|rows|]) else None
      decreases acc.nSample - |rows|
    {
      rows := rows + [x.value];
      x := Get(acc, |rows|);
    }
  }

  // ------------------------------------------------------------------------------------------
  // The loader
  // ------------------------------------------------------------------------------------------

  /** `off` is where the key starts in the space that all samples of the index share. */
  datatype IndexSample = IndexSample(nEq: nat, nLt: nat, nDLt: nat, off: nat, nVal: nat)

  function SumEq(rows: seq<Sample>, n: nat): nat
    requires n <= |rows|
  {
    if n == 0 then 0 else SumEq(rows, n - 1) + rows[n - 1].nEq
  }

  function TotalLength(rows: seq<Sample>, n: nat): nat
    requires n <= |rows|
  {
    if n == 0 then 0 else TotalLength(rows, n - 1) + |rows[n - 1].key|
  }

  /** Unsigned 64-bit arithmetic. */
  function Sub64(a: nat, b: nat): nat {
    (a - b) % U64
  }

  function Add64(a: nat, b: nat): nat {
    (a + b) % U64
  }

  lemma Add64Sum(a: nat, b: nat)
    ensures Add64(a % U64, b) == (a + b) % U64
  {
  }

  /** The unsigned subtraction is exact exactly when it does not go below zero. */
  lemma Sub64ExactIff(a: nat, b: nat)
    requires a < U64
    ensures b <= a <==> b < U64 && Sub64(a, b % U64) == a - b
  {
  }

  /** The counts of the samples before the last one fit below it, in 64 bits. */
  predicate Fits(rows: seq<Sample>) {
    rows != [] && SumEq(rows, |rows| - 1) <= rows[|rows| - 1].nLt < U64
  }

  /** What the loader computes for any rows, in unsigned 64-bit arithmetic. */
  function WrappedAvgEq(rows: seq<Sample>, rowEst: nat): (avg: nat)
    requires rows != []
    ensures avg >= 1
  {
    var last := rows[|rows| - 1];
    var avg := if last.nDLt > 0 then Sub64(last.nLt, SumEq(rows, |rows| - 1) % U64) / last.nDLt else rowEst;
    if avg == 0 then 1 else avg
  }

  /** The mean size of the keys before the last sample that were not sampled themselves, counting
      all keys before it, and at least 1. */
  function AvgEq(rows: seq<Sample>, rowEst: nat): nat
    requires Fits(rows)
  {
    var last := rows[|rows| - 1];
    var avg := if last.nDLt > 0 then (last.nLt - SumEq(rows, |rows| - 1)) / last.nDLt else rowEst;
    if avg == 0 then 1 else avg
  }

  /** For rows that fit nothing wraps around. */
  lemma FittingAverage(rows: seq<Sample>, rowEst: nat)
    requires Fits(rows)
    ensures WrappedAvgEq(rows, rowEst) == AvgEq(rows, rowEst)
  {
    Sub64ExactIff(rows[|rows| - 1].nLt, SumEq(rows, |rows| - 1));
  }

  /** Samples in push order never count more rows than precede the next one. */
  lemma {:induction false} SumEqBound(rows: seq<Sample>, n: nat)
    requires Ordered(rows) && n <= |rows|
    ensures n > 0 ==> SumEq(rows, n) <= rows[n - 1].nLt + rows[n - 1].nEq
    ensures n < |rows| ==> SumEq(rows, n) <= rows[n].nLt
  {
    if n > 0 {
      SumEqBound(rows, n - 1);
      assert n < |rows| ==> rows[n - 1].nLt + rows[n - 1].nEq <= rows[n].nLt;
    }
  }

  /** avgEq once the last sample of the index has been read, whatever the rows hold. */
  method Average(rows: seq<Sample>, rowEst: nat) returns (avgEq: nat)
    requires rows != []
    ensures avgEq == WrappedAvgEq(rows, rowEst) >= 1
    ensures Fits(rows) ==> avgEq == AvgEq(rows, rowEst)
  {
    var idx := |rows| - 1;
    avgEq := rowEst;
    if rows[idx].nDLt > 0 {
      var sumEq, i := 0, 0;
      while i <= idx - 1
        invariant 0 <= i <= idx && sumEq == SumEq(rows, i) % U64
      {
        Add64Sum(SumEq(rows, i), rows[i].nEq);
        sumEq := Add64(sumEq, rows[i].nEq);
        i := i + 1;
      }
      avgEq := Sub64(rows[idx].nLt, sumEq) / rows[idx].nDLt;
    }
    if avgEq <= 0 {
      avgEq := 1;
    }
    if Fits(rows) {
      FittingAverage(rows, rowEst);
    }
  }

  /** Entry `i` of the index has the counts of row `i`, and its bytes in the shared space. */
  ghost predicate EntryOk(x: Sample, e: IndexSample, space: seq<char>) {
    && e.nEq == x.nEq && e.nLt == x.nLt && e.nDLt == x.nDLt
    && e.nVal == |x.key| && e.off + e.nVal <= |space|
    && space[e.off..e.off + e.nVal] == x.key
  }

  ghost predicate Loaded(rows: seq<Sample>, n: nat, samples: seq<IndexSample>, space: seq<char>) {
    |samples| == n <= |rows| && forall i {:trigger samples[i]} :: 0 <= i < n ==> EntryOk(rows[i], samples[i], space)
  }

  /** One more key copied behind the others. */
  lemma LoadedAppend(rows: seq<Sample>, n: nat, samples: seq<IndexSample>, space: seq<char>)
    requires Loaded(rows, n, samples, space) && n < |rows|
    ensures var x := rows[n];
            Loaded(rows, n + 1, samples + [IndexSample(x.nEq, x.nLt, x.nDLt, |space|, |x.key|)], space + x.key)
  {
    var x := rows[n];
    forall i | 0 <= i < n
      ensures EntryOk(rows[i], samples[i], space + x.key)
    {
      var lo, hi := samples[i].off, samples[i].off + samples[i].nVal;
      assert (space + x.key)[lo..hi] == space[lo..hi];
    }
    assert (space + x.key)[|space|..|space| + |x.key|] == x.key;
  }

  lemma {:induction false} TotalLengthMonotone(rows: seq<Sample>, i: nat, n: nat)
    requires i <= n <= |rows|
    ensures TotalLength(rows, i) <= TotalLength(rows, n)
  {
    if i < n {
      TotalLengthMonotone(rows, i, n - 1);
    }
  }

  /** memcpy of a key behind the first `off` bytes. */
  method CopyKey(space: array<char>, off: nat, key: string)
    requires off + |key| <= space.Length
    modifies space
    ensures space[..off + |key|] == old(space[..off]) + key
  {
    for j := 0 to |key|
      invariant space[..off + j] == old(space[..off]) + key[..j]
    {
      space[off + j] := key[j];
    }
    assert key[..|key|] == key;
  }

  /** Copy row `n` into the index object. */
  method LoadRow(rows: seq<Sample>, n: nat, samples: seq<IndexSample>, space: array<char>, off: nat)
    returns (samples': seq<IndexSample>)
    requires n < |rows| && off + |rows[n].key| <= space.Length && Loaded(rows, n, samples, space[..off])
    modifies space
    ensures Loaded(rows, n + 1, samples', space[..off + |rows[n].key|])
  {
    var x := rows[n];
    LoadedAppend(rows, n, samples, space[..off]);
    CopyKey(space, off, x.key);
    samples' := samples + [IndexSample(x.nEq, x.nLt, x.nDLt, off, |x.key|)];
  }

  /** loadStat3 for the rows of one index: the samples come back unchanged, the keys fit the space
      that was computed from their total length, and the estimate is positive. */
  method Load(rows: seq<Sample>, rowEst: nat)
    returns (samples: seq<IndexSample>, space: array<char>, avgEq: nat)
    requires rows != []
    ensures fresh(space) && space.Length == TotalLength(rows, |rows|)
    ensures Loaded(rows, |rows|, samples, space[..])
    ensures avgEq == WrappedAvgEq(rows, rowEst) && (Fits(rows) ==> avgEq == AvgEq(rows, rowEst))
  {
    ghost var expected := WrappedAvgEq(rows, rowEst);
    avgEq := rowEst;
    space := new char[TotalLength(rows, |rows|)];
    samples := [];
    var off, idx := 0, 0;
    while idx < |rows|
      invariant 0 <= idx <= |rows| && fresh(space)
      invariant off == TotalLength(rows, idx) <= space.Length
      invariant Loaded(rows, idx, samples, space[..off])
      invariant idx == |rows| ==> avgEq == expected && (Fits(rows) ==> avgEq == AvgEq(rows, rowEst))
    {
      if idx == |rows| - 1 {
        avgEq := Average(rows, rowEst);
      }
      TotalLengthMonotone(rows, idx + 1, |rows|);
      samples := LoadRow(rows, idx, samples, space, off);
      off := off + |rows[idx].key|;
      idx := idx + 1;
    }
    assert space[..off] == space[..];
  }

  /** ANALYZE one index, store the samples and load them again. The loader's subtraction never wraps
      around, whatever the index holds. */
  method AnalyzeAndLoad(keys: seq<string>, mx: nat, seed: nat, rowEst: nat)
    returns (samples: seq<IndexSample>, space: array<char>, avgEq: nat)
    requires SortedKeys(keys) && mx > 0 && |keys| < U64
    ensures var rows := Statistics(keys, mx, seed).samples; Loaded(rows, |rows|, samples, space[..])
    ensures samples == [] <==> keys == []
    ensures var rows := Statistics(keys, mx, seed).samples; keys != [] ==> Fits(rows) && avgEq == AvgEq(rows, rowEst) >= 1
  {
    var acc := Analyze(keys, mx, seed);
    var rows := Emit(acc);
    StatisticsFit(keys, mx, seed);
    if rows != [] {
      samples, space, avgEq := Load(rows, rowEst);
    } else {
      samples, space, avgEq := [], new char[0], rowEst;
    }
  }

  lemma StatisticsFit(keys: seq<string>, mx: nat, seed: nat)
    requires SortedKeys(keys) && mx > 0 && |keys| < U64
    ensures var s := Statistics(keys, mx, seed).samples; if keys == [] then s == [] else Fits(s)
  {
    var a := Statistics(keys, mx, seed);
    AnalyzeIsFaithful(keys, mx, seed);
    StatisticsCover(keys, mx, seed);
    if a.samples != [] {
      SumEqBound(a.samples, |a.samples| - 1);
    }
  }
}
