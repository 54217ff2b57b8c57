/**
 The program that ANALYZE emits for one index: walk the sorted entries, count each run of equal
 left-most keys, and push every run to the sample accumulator.
 */
module AnalyzeLoop {
  import opened Options
  import opened KeyOrder
  import opened Stat3Sampler
  import opened Stat3Accum

  datatype Run = Run(nEq: nat, nLt: nat, nDLt: nat, key: string)

  function Last(rs: seq<Run>): Run
    requires rs != []
  {
    rs[|rs| - 1]
  }

  /** The runs of equal keys in the first `n` rows, with their positions. */
  function Runs(keys: seq<string>, n: nat): (rs: seq<Run>)
    requires n <= |keys|
    ensures rs == [] <==> n == 0
    ensures n > 0 ==> Last(rs).key == keys[n - 1]
  {
    if n == 0 then []
    else
      var rs := Runs(keys, n - 1);
      if rs != [] && Last(rs).key == keys[n - 1] then Lengthen(rs)
      else rs + [Run(1, n - 1, |rs|, keys[n - 1])]
  }

  /** One more row in the last run. */
  function Lengthen(rs: seq<Run>): (rs': seq<Run>)
    requires rs != []
    ensures |rs'| == |rs| && Last(rs').key == Last(rs).key
  {
    rs[..|rs| - 1] + [Last(rs).(nEq := Last(rs).nEq + 1)]
  }

  // ------------------------------------------------------------------------------------------
  // Runs tile the index
  // ------------------------------------------------------------------------------------------

  /** Run `i` starts where run `i - 1` ends, and holds rows with its key only. */
  ghost predicate RunOk(keys: seq<string>, rs: seq<Run>, i: nat)
    requires i < |rs|
  {
    && rs[i].nEq > 0 && rs[i].nDLt == i
    && rs[i].nLt == End(rs, i)
    && rs[i].nLt + rs[i].nEq <= |keys|
    && (i > 0 ==> rs[i].key != rs[i - 1].key)
    && (forall j {:trigger keys[j]} :: rs[i].nLt <= j < rs[i].nLt + rs[i].nEq ==> keys[j] == rs[i].key)
  }

  /** Where the first `n` runs end. */
  function End(rs: seq<Run>, n: nat): nat
    requires n <= |rs|
  {
    if n == 0 then 0 else rs[n - 1].nLt + rs[n - 1].nEq
  }

  ghost predicate Tiles(keys: seq<string>, rs: seq<Run>, n: nat) {
    && (forall i {:trigger RunOk(keys, rs, i)} :: 0 <= i < |rs| ==> RunOk(keys, rs, i))
    && n == End(rs, |rs|)
  }

  lemma TilesLengthen(keys: seq<string>, rs: seq<Run>, n: nat)
    requires Tiles(keys, rs, n) && n < |keys| && rs != [] && Last(rs).key == keys[n]
    ensures Tiles(keys, Lengthen(rs), n + 1)
  {
    forall i | 0 <= i < |rs|
      ensures RunOk(keys, Lengthen(rs), i)
    {
      assert RunOk(keys, rs, i);
    }
  }

  lemma TilesAppend(keys: seq<string>, rs: seq<Run>, n: nat)
    requires Tiles(keys, rs, n) && n < |keys| && (rs != [] ==> Last(rs).key != keys[n])
    ensures Tiles(keys, rs + [Run(1, n, |rs|, keys[n])], n + 1)
  {
    var rs' := rs + [Run(1, n, |rs|, keys[n])];
    forall i | 0 <= i < |rs'|
      ensures RunOk(keys, rs', i)
    {
      if i < |rs| {
        assert RunOk(keys, rs, i);
      }
    }
  }

  lemma {:induction false} RunsTile(keys: seq<string>, n: nat)
    requires n <= |keys|
    ensures Tiles(keys, Runs(keys, n), n)
  {
    if n > 0 {
      var rs := Runs(keys, n - 1);
      RunsTile(keys, n - 1);
      if rs != [] && Last(rs).key == keys[n - 1] {
        TilesLengthen(keys, rs, n - 1);
      } else {
        TilesAppend(keys, rs, n - 1);
      }
    }
  }

  /** The run that holds a row. */
  lemma {:induction false} RowHasRun(keys: seq<string>, rs: seq<Run>, n: nat, j: nat) returns (i: nat)
    requires Tiles(keys, rs, |keys|) && n <= |rs|
    requires j < End(rs, n)
    ensures i < n && rs[i].nLt <= j < rs[i].nLt + rs[i].nEq
  {
    assert RunOk(keys, rs, n - 1);
    if rs[n - 1].nLt <= j {
      i := n - 1;
    } else {
      i := RowHasRun(keys, rs, n - 1, j);
    }
  }

  function TotalEq(rs: seq<Run>, n: nat): nat
    requires n <= |rs|
  {
    if n == 0 then 0 else TotalEq(rs, n - 1) + rs[n - 1].nEq
  }

  lemma {:induction false} TilesTotal(keys: seq<string>, rs: seq<Run>, n: nat)
    requires Tiles(keys, rs, |keys|) && n <= |rs|
    ensures TotalEq(rs, n) == End(rs, n)
  {
    if n > 0 {
      TilesTotal(keys, rs, n - 1);
      assert RunOk(keys, rs, n - 1);
    }
  }

  // ------------------------------------------------------------------------------------------
  // Runs carry the true counts
  // ------------------------------------------------------------------------------------------

  /** How many of the first `n` rows satisfy `p`. */
  function Count(keys: seq<string>, n: nat, p: string -> bool): nat
    requires n <= |keys|
  {
    if n == 0 then 0 else Count(keys, n - 1, p) + (if p(keys[n - 1]) then 1 else 0)
  }

  /** The counts of a key as the statistics define them. */
  ghost predicate TrueCounts(keys: seq<string>, r: Run) {
    && r.nEq == Count(keys, |keys|, x => x == r.key)
    && r.nLt == Count(keys, |keys|, x => Less(x, r.key))
    && r.nDLt == |set x | x in keys && Less(x, r.key)|
  }

  ghost predicate SortedKeys(keys: seq<string>) {
    forall i, j {:trigger keys[i], keys[j]} :: 0 <= i <= j < |keys| ==> Leq(keys[i], keys[j])
  }

  ghost predicate Rising(rs: seq<Run>) {
    forall i, j {:trigger rs[i], rs[j]} :: 0 <= i < j < |rs| ==> Less(rs[i].key, rs[j].key)
  }

  lemma {:induction false} CountRange(keys: seq<string>, n: nat, p: string -> bool, lo: nat, hi: nat)
    requires n <= |keys| && lo <= hi
    requires forall j {:trigger keys[j]} :: 0 <= j < |keys| ==> (p(keys[j]) <==> lo <= j < hi)
    ensures Count(keys, n, p) == if n <= lo then 0 else if n <= hi then n - lo else hi - lo
  {
    if n > 0 {
      CountRange(keys, n - 1, p, lo, hi);
    }
  }

  lemma {:induction false} RunsRiseTo(keys: seq<string>, rs: seq<Run>, i: nat, j: nat)
    requires Tiles(keys, rs, |keys|) && SortedKeys(keys) && i < j < |rs|
    ensures Less(rs[i].key, rs[j].key)
  {
    assert RunOk(keys, rs, j - 1) && RunOk(keys, rs, j);
    assert keys[rs[j - 1].nLt] == rs[j - 1].key && keys[rs[j].nLt] == rs[j].key;
    if i < j - 1 {
      RunsRiseTo(keys, rs, i, j - 1);
      LessTrans(rs[i].key, rs[j - 1].key, rs[j].key);
    }
  }

  lemma RunsRise(keys: seq<string>, rs: seq<Run>)
    requires Tiles(keys, rs, |keys|) && SortedKeys(keys)
    ensures Rising(rs)
  {
    forall i, j | 0 <= i < j < |rs|
      ensures Less(rs[i].key, rs[j].key)
    {
      RunsRiseTo(keys, rs, i, j);
    }
  }

  /** A row's key compares with a run's key as the row's run compares with that run. */
  lemma RowSide(keys: seq<string>, rs: seq<Run>, i: nat, j: nat)
    requires Tiles(keys, rs, |keys|) && Rising(rs) && i < |rs| && j < |keys|
    ensures keys[j] == rs[i].key <==> rs[i].nLt <= j < rs[i].nLt + rs[i].nEq
    ensures Less(keys[j], rs[i].key) <==> j < rs[i].nLt
  {
    var k := RowHasRun(keys, rs, |rs|, j);
    assert RunOk(keys, rs, k) && RunOk(keys, rs, i);
    LessOrLeq(rs[i].key, rs[k].key);
    if k < i {
      TilesOrder(keys, rs, k, i);
    } else if i < k {
      TilesOrder(keys, rs, i, k);
    }
  }

  lemma {:induction false} TilesOrder(keys: seq<string>, rs: seq<Run>, i: nat, j: nat)
    requires Tiles(keys, rs, |keys|) && i < j < |rs|
    ensures rs[i].nLt + rs[i].nEq <= rs[j].nLt
  {
    assert RunOk(keys, rs, j);
    if i < j - 1 {
      TilesOrder(keys, rs, i, j - 1);
      assert RunOk(keys, rs, j - 1);
    }
  }

  ghost function FirstKeys(rs: seq<Run>, n: nat): set<string>
    requires n <= |rs|
  {
    if n == 0 then {} else FirstKeys(rs, n - 1) + {rs[n - 1].key}
  }

  lemma {:induction false} FirstKeysHave(rs: seq<Run>, n: nat, x: string)
    requires n <= |rs|
    ensures x in FirstKeys(rs, n) <==> exists i {:trigger rs[i]} :: 0 <= i < n && rs[i].key == x
  {
    if n > 0 {
      FirstKeysHave(rs, n - 1, x);
    }
  }

  lemma {:induction false} FirstKeysSize(rs: seq<Run>, n: nat)
    requires Rising(rs) && n <= |rs|
    ensures |FirstKeys(rs, n)| == n
  {
    if n > 0 {
      FirstKeysSize(rs, n - 1);
      FirstKeysHave(rs, n - 1, rs[n - 1].key);
    }
  }

  lemma DistinctBelow(keys: seq<string>, rs: seq<Run>, i: nat)
    requires Tiles(keys, rs, |keys|) && Rising(rs) && i < |rs|
    ensures |set x | x in keys && Less(x, rs[i].key)| == i
  {
    FirstKeysSize(rs, i);
    var below := set x | x in keys && Less(x, rs[i].key);
    forall x | x in below
      ensures x in FirstKeys(rs, i)
    {
      var j :| 0 <= j < |keys| && keys[j] == x;
      RowSide(keys, rs, i, j);
      assert RunOk(keys, rs, i);
      var k := RowHasRun(keys, rs, i, j);
      assert RunOk(keys, rs, k);
      FirstKeysHave(rs, i, x);
    }
    forall x | x in FirstKeys(rs, i)
      ensures x in below
    {
      FirstKeysHave(rs, i, x);
      var k :| 0 <= k < i && rs[k].key == x;
      assert RunOk(keys, rs, k);
      assert keys[rs[k].nLt] == x;
    }
    assert below == FirstKeys(rs, i);
  }

  lemma RunIsTrue(keys: seq<string>, rs: seq<Run>, i: nat)
    requires Tiles(keys, rs, |keys|) && Rising(rs) && i < |rs|
    ensures TrueCounts(keys, rs[i])
  {
    assert RunOk(keys, rs, i);
    var r := rs[i];
    forall j | 0 <= j < |keys|
      ensures (x => x == r.key)(keys[j]) <==> r.nLt <= j < r.nLt + r.nEq
      ensures (x => Less(x, r.key))(keys[j]) <==> 0 <= j < r.nLt
    {
      RowSide(keys, rs, i, j);
    }
    CountRange(keys, |keys|, x => x == r.key, r.nLt, r.nLt + r.nEq);
    CountRange(keys, |keys|, x => Less(x, r.key), 0, r.nLt);
    DistinctBelow(keys, rs, i);
  }

  ghost predicate AllTrue(keys: seq<string>, rs: seq<Run>) {
    forall i {:trigger rs[i]} :: 0 <= i < |rs| ==> rs[i].nEq > 0 && TrueCounts(keys, rs[i])
  }

  ghost predicate HasRun(rs: seq<Run>, key: string) {
    exists i {:trigger rs[i]} :: 0 <= i < |rs| && rs[i].key == key
  }

  /** On a sorted index there is one run per distinct key, each with the true counts of its key,
      and together they count every row. */
  lemma RunsAreTrue(keys: seq<string>)
    requires SortedKeys(keys)
    ensures Rising(Runs(keys, |keys|)) && AllTrue(keys, Runs(keys, |keys|))
    ensures forall x :: x in keys ==> HasRun(Runs(keys, |keys|), x)
    ensures TotalEq(Runs(keys, |keys|), |Runs(keys, |keys|)|) == |keys|
  {
    var rs := Runs(keys, |keys|);
    RunsTile(keys, |keys|);
    RunsRise(keys, rs);
    TilesTotal(keys, rs, |rs|);
    forall x | x in keys
      ensures HasRun(rs, x)
    {
      var j :| 0 <= j < |keys| && keys[j] == x;
      var i := RowHasRun(keys, rs, |rs|, j);
      assert RunOk(keys, rs, i);
    }
    forall i | 0 <= i < |rs|
      ensures rs[i].nEq > 0 && TrueCounts(keys, rs[i])
    {
      assert RunOk(keys, rs, i);
      RunIsTrue(keys, rs, i);
    }
  }

  // ------------------------------------------------------------------------------------------
  // The emitted program
  // ------------------------------------------------------------------------------------------

  function RunOf(x: Sample): Run {
    Run(x.nEq, x.nLt, x.nDLt, x.key)
  }

  /** The pushes so far are the first `n` runs, in order. */
  ghost predicate Matches(pushed: seq<Sample>, rs: seq<Run>, n: nat) {
    |pushed| == n <= |rs| && forall i {:trigger pushed[i]} {:trigger rs[i]} :: 0 <= i < n ==> RunOf(pushed[i]) == rs[i]
  }

  /** The registers: the run that is still open, or null before the first row. */
  datatype Registers = Registers(sample: Option<string>, numEq: nat, numLt: nat, numDLt: nat)

  /** The registers once `i` rows have been read. */
  function After(keys: seq<string>, i: nat): Registers
    requires i <= |keys|
  {
    if i == 0 then Registers(None, 0, 0, 0)
    else var r := Last(Runs(keys, i)); Registers(Some(r.key), r.nEq, r.nLt, r.nDLt)
  }

  function OpenRun(regs: Registers): Run
    requires regs.sample.Some?
  {
    Run(regs.numEq, regs.numLt, regs.numDLt, regs.sample.value)
  }

  /** How many runs are closed once `i` rows have been read. */
  function Closed(keys: seq<string>, i: nat): nat
    requires i <= |keys|
  {
    if i == 0 then 0 else |Runs(keys, i)| - 1
  }

  /** The open run ends where the rows read so far end. */
  lemma OpenRunPlace(keys: seq<string>, i: nat)
    requires 0 < i <= |keys|
    ensures var regs := After(keys, i); regs.numLt + regs.numEq == i && regs.numEq > 0 && regs.numDLt == Closed(keys, i)
  {
    RunsTile(keys, i);
    assert RunOk(keys, Runs(keys, i), |Runs(keys, i)| - 1);
  }

  /** Only the last run can still change. */
  lemma {:induction false} ClosedStay(keys: seq<string>, i: nat, n: nat)
    requires i <= n <= |keys|
    ensures Closed(keys, i) <= Closed(keys, n)
    ensures forall k {:trigger Runs(keys, n)[k]} :: 0 <= k < Closed(keys, i) ==> Runs(keys, n)[k] == Runs(keys, i)[k]
  {
    if i < n {
      ClosedStay(keys, i, n - 1);
    }
  }

  /** A row with another key closes the open run for good. */
  lemma ClosedRun(keys: seq<string>, i: nat)
    requires 0 < i < |keys| && After(keys, i).sample != Some(keys[i])
    ensures var n := Closed(keys, i);
            && n < Closed(keys, |keys|) + 1
            && Runs(keys, |keys|)[n] == OpenRun(After(keys, i))
            && Closed(keys, i + 1) == n + 1
  {
    ClosedStay(keys, i + 1, |keys|);
    assert Runs(keys, i + 1)[Closed(keys, i)] == OpenRun(After(keys, i));
  }

  /** The accumulator has been given exactly the first `n` runs. */
  ghost predicate Given(a: Accum, rs: seq<Run>, n: nat) {
    Matches(a.pushed, rs, n) && Inv(a, End(rs, n), n)
  }

  function PushOne(a: Accum, r: Run): (b: Accum)
    ensures b.nRow == a.nRow && b.mx == a.mx
  {
    if WellFormed(a) then Push(a, r.nEq, r.nLt, r.nDLt, r.key) else a
  }

  /** The accumulator after it was given the first `n` runs. */
  function PushRuns(a: Accum, rs: seq<Run>, n: nat): (b: Accum)
    requires n <= |rs|
    ensures b.nRow == a.nRow && b.mx == a.mx
  {
    if n == 0 then a else PushOne(PushRuns(a, rs, n - 1), rs[n - 1])
  }

  lemma PushMatches(a: Accum, rs: seq<Run>, n: nat)
    requires n < |rs| && Matches(a.pushed, rs, n) && WellFormed(a) && rs[n].nEq > 0
    ensures Matches(PushOne(a, rs[n]).pushed, rs, n + 1)
  {
    PushFields(a, rs[n].nEq, rs[n].nLt, rs[n].nDLt, rs[n].key);
  }

  lemma PushOneInv(a: Accum, r: Run, end: nat, rank: nat)
    requires Inv(a, r.nLt, r.nDLt) && r.nEq > 0 && end == r.nLt + r.nEq <= a.nRow && rank == r.nDLt + 1
    ensures WellFormed(a) && Inv(PushOne(a, r), end, rank)
  {
    PushInv(a, r.nLt, r.nDLt, r.nEq, r.key);
    assert PushOne(a, r) == Push(a, r.nEq, r.nLt, r.nDLt, r.key);
  }

  lemma PushGives(keys: seq<string>, a: Accum, rs: seq<Run>, n: nat)
    requires Tiles(keys, rs, |keys|) && n < |rs| && a.nRow == |keys| && Given(a, rs, n)
    ensures Given(PushOne(a, rs[n]), rs, n + 1)
  {
    RunsFit(keys, rs, n);
    PushOneInv(a, rs[n], End(rs, n + 1), n + 1);
    PushMatches(a, rs, n);
  }

  lemma RunsFit(keys: seq<string>, rs: seq<Run>, n: nat)
    requires Tiles(keys, rs, |keys|) && n < |rs|
    ensures rs[n].nEq > 0 && rs[n].nDLt == n && rs[n].nLt == End(rs, n)
    ensures End(rs, n + 1) == rs[n].nLt + rs[n].nEq <= |keys|
  {
    assert RunOk(keys, rs, n);
  }

  lemma {:induction false} PushRunsGive(keys: seq<string>, rs: seq<Run>, n: nat, a: Accum)
    requires Tiles(keys, rs, |keys|) && n <= |rs| && a.nRow == |keys| && Given(a, rs, 0)
    ensures Given(PushRuns(a, rs, n), rs, n)
  {
    if n > 0 {
      PushRunsGive(keys, rs, n - 1, a);
      PushGives(keys, PushRuns(a, rs, n - 1), rs, n - 1);
    }
  }

  lemma {:induction false} PushRunsConserve(a: Accum, rs: seq<Run>, n: nat)
    requires n <= |rs| && Conserved(a)
    ensures Conserved(PushRuns(a, rs, n))
  {
    if n > 0 {
      PushRunsConserve(a, rs, n - 1);
      var before, r := PushRuns(a, rs, n - 1), rs[n - 1];
      if WellFormed(before) {
        PushConserves(before, r.nEq, r.nLt, r.nDLt, r.key);
      }
    }
  }

  ghost predicate ReadyFor(a: Accum, r: Run) {
    Ready(a, r.nEq, r.nLt, r.nDLt, r.key)
  }

  /** Each run finds the accumulator ready for it. */
  lemma RunsReady(keys: seq<string>, rs: seq<Run>, n: nat, a: Accum)
    requires Tiles(keys, rs, |keys|) && n < |rs| && a.nRow == |keys| && Given(a, rs, 0)
    ensures ReadyFor(PushRuns(a, rs, n), rs[n])
  {
    PushRunsGive(keys, rs, n, a);
    RunsFit(keys, rs, n);
    AlwaysReady(PushRuns(a, rs, n), rs[n].nLt, rs[n].nDLt, rs[n].nEq, rs[n].key);
  }

  /** The accumulator that the program has built once `i` rows have been read. */
  function Built(keys: seq<string>, mx: nat, seed: nat, i: nat): Accum
    requires i <= |keys|
  {
    ClosedStay(keys, i, |keys|);
    PushRuns(Init(|keys|, mx, seed), Runs(keys, |keys|), Closed(keys, i))
  }

  /** Everything that ANALYZE of one index leaves in the accumulator. */
  function Statistics(keys: seq<string>, mx: nat, seed: nat): Accum {
    PushRuns(Init(|keys|, mx, seed), Runs(keys, |keys|), |Runs(keys, |keys|)|)
  }

  predicate Closes(regs: Registers, key: string) {
    regs.sample.Some? && regs.sample != Some(key)
  }

  /** The next run of the index finds the accumulator ready. */
  lemma NextRunReady(keys: seq<string>, mx: nat, seed: nat, n: nat)
    requires n < |Runs(keys, |keys|)| && mx > 0
    ensures ReadyFor(PushRuns(Init(|keys|, mx, seed), Runs(keys, |keys|), n), Runs(keys, |keys|)[n])
  {
    RunsTile(keys, |keys|);
    InitInv(|keys|, mx, seed);
    RunsReady(keys, Runs(keys, |keys|), n, Init(|keys|, mx, seed));
  }

  lemma BuiltStep(keys: seq<string>, mx: nat, seed: nat, i: nat)
    requires i < |keys| && mx > 0
    ensures var regs, a := After(keys, i), Built(keys, mx, seed, i);
            if Closes(regs, keys[i]) then
              ReadyFor(a, OpenRun(regs)) && Built(keys, mx, seed, i + 1) == PushOne(a, OpenRun(regs))
            else Built(keys, mx, seed, i + 1) == a
  {
    if Closes(After(keys, i), keys[i]) {
      ClosedRun(keys, i);
      NextRunReady(keys, mx, seed, Closed(keys, i));
    }
  }

  lemma BuiltEnd(keys: seq<string>, mx: nat, seed: nat)
    requires mx > 0
    ensures var regs, a := After(keys, |keys|), Built(keys, mx, seed, |keys|);
            if regs.sample.Some? then
              ReadyFor(a, OpenRun(regs)) && Statistics(keys, mx, seed) == PushOne(a, OpenRun(regs))
            else regs.numEq == 0 && WellFormed(a) && Statistics(keys, mx, seed) == a
  {
    if keys != [] {
      NextRunReady(keys, mx, seed, Closed(keys, |keys|));
    }
  }

  /** The body of the loop, for one row. */
  method VisitRow(acc: Accumulator, regs: Registers, key: string) returns (regs': Registers)
    requires acc.Valid() && (Closes(regs, key) ==> ReadyFor(acc.Abs(), OpenRun(regs)))
    modifies acc, acc.a
    ensures acc.Valid() && acc.Abs() == if Closes(regs, key) then PushOne(old(acc.Abs()), OpenRun(regs)) else old(acc.Abs())
    ensures regs' == NextRegisters(regs, key)
  {
    var numEq, numLt, numDLt := regs.numEq, regs.numLt, regs.numDLt;
    if regs.sample != Some(key) {
      if regs.sample.Some? {
        acc.PushKey(numEq, numLt, numDLt, regs.sample.value);
        numLt := numLt + numEq;
        numDLt := numDLt + 1;
      }
      numEq := 0;
    }
    return Registers(Some(key), numEq + 1, numLt, numDLt);
  }

  function NextRegisters(regs: Registers, key: string): Registers {
    if regs.sample == Some(key) then regs.(numEq := regs.numEq + 1)
    else if regs.sample.Some? then Registers(Some(key), 1, regs.numLt + regs.numEq, regs.numDLt + 1)
    else Registers(Some(key), 1, regs.numLt, regs.numDLt)
  }

  lemma AfterStep(keys: seq<string>, i: nat)
    requires i < |keys|
    ensures After(keys, i + 1) == NextRegisters(After(keys, i), keys[i])
  {
    if i > 0 {
      OpenRunPlace(keys, i);
    }
  }

  /** The program for one index: one push per run of equal keys, the last one after the loop. */
  method Analyze(keys: seq<string>, mx: nat, seed: nat) returns (acc: Accumulator)
    requires mx > 0
    ensures acc.Valid() && acc.Abs() == Statistics(keys, mx, seed)
  {
    acc := new Accumulator(|keys|, mx, seed);
    var regs := Registers(None, 0, 0, 0);
    var i := 0;
    while i < |keys|
      invariant 0 <= i <= |keys| && regs == After(keys, i)
      invariant fresh(acc) && fresh(acc.a) && acc.Valid()
      invariant acc.Abs() == Built(keys, mx, seed, i)
    {
      BuiltStep(keys, mx, seed, i);
      AfterStep(keys, i);
      regs := VisitRow(acc, regs, keys[i]);
      i := i + 1;
    }
    BuiltEnd(keys, mx, seed);
    acc.PushKey(regs.numEq, regs.numLt, regs.numDLt, if regs.sample.Some? then regs.sample.value else "");
  }

  // ------------------------------------------------------------------------------------------
  // What ANALYZE leaves behind
  // ------------------------------------------------------------------------------------------

  /** Whatever was given is retained or was dropped, and nothing else is retained. */
  lemma GivenIsKept(a: Accum, rs: seq<Run>)
    requires Matches(a.pushed, rs, |rs|) && Conserved(a)
    ensures forall x :: x in a.samples ==> RunOf(x) in rs
    ensures forall i :: 0 <= i < |rs| ==> a.pushed[i] in a.samples || a.pushed[i] in a.dropped
    ensures |a.samples| + |a.dropped| == |rs|
  {
    assert |multiset(a.pushed)| == |multiset(a.samples) + multiset(a.dropped)|;
    forall x | x in a.samples
      ensures RunOf(x) in rs
    {
      assert x in multiset(a.samples);
      assert x in multiset(a.pushed);
      var i :| 0 <= i < |a.pushed| && a.pushed[i] == x;
      assert RunOf(a.pushed[i]) == rs[i];
    }
    forall i | 0 <= i < |rs|
      ensures a.pushed[i] in a.samples || a.pushed[i] in a.dropped
    {
      assert a.pushed[i] in multiset(a.pushed);
      assert a.pushed[i] in multiset(a.samples) || a.pushed[i] in multiset(a.dropped);
    }
  }

  /** A key of the index is retained, or was dropped as a non-periodic key that beats no retained
      non-periodic one. */
  ghost predicate Represented(a: Accum, key: string) {
    || (exists x {:trigger x in a.samples} :: x in a.samples && x.key == key)
    || (exists d {:trigger d in a.dropped} :: d in a.dropped && d.key == key && LosesToAll(d, a.samples))
  }

  lemma KeyRepresented(a: Accum, rs: seq<Run>, i: nat)
    requires Given(a, rs, |rs|) && Conserved(a) && i < |rs|
    ensures Represented(a, rs[i].key)
  {
    GivenIsKept(a, rs);
    var x := a.pushed[i];
    assert RunOf(x) == rs[i];
    if x !in a.samples {
      var j :| 0 <= j < |a.dropped| && a.dropped[j] == x;
      assert LosesToAll(a.dropped[j], a.samples);
    }
  }

  /** For every sorted index: the pushes are exactly the runs, in order, each retained sample has the
      true counts of its key, samples and ranks rise, at most a third of the slots went to periodic
      samples, every key of the index is accounted for, and nothing is dropped while there is room. */
  lemma AnalyzeIsFaithful(keys: seq<string>, mx: nat, seed: nat)
    requires SortedKeys(keys) && mx > 0
    ensures var a := Statistics(keys, mx, seed);
            && Matches(a.pushed, Runs(keys, |keys|), |Runs(keys, |keys|)|)
            && (forall x :: x in a.samples ==> TrueCounts(keys, RunOf(x)))
            && Ordered(a.samples)
            && Periodics(a.pushed) == Periodics(a.samples) <= mx / 3
            && (forall k :: k in keys ==> Represented(a, k))
            && (|Runs(keys, |keys|)| <= mx ==> |a.samples| == |Runs(keys, |keys|)|)
  {
    var rs := Runs(keys, |keys|);
    var a := Statistics(keys, mx, seed);
    RunsTile(keys, |keys|);
    InitInv(|keys|, mx, seed);
    PushRunsGive(keys, rs, |rs|, Init(|keys|, mx, seed));
    PushRunsConserve(Init(|keys|, mx, seed), rs, |rs|);
    RunsAreTrue(keys);
    GivenIsKept(a, rs);
    forall k | k in keys
      ensures Represented(a, k)
    {
      var i :| 0 <= i < |rs| && rs[i].key == k;
      KeyRepresented(a, rs, i);
    }
  }

  /** Retained samples lie within the index, and there is one unless the index is empty. */
  lemma StatisticsCover(keys: seq<string>, mx: nat, seed: nat)
    requires mx > 0
    ensures var a := Statistics(keys, mx, seed);
            && (a.samples == [] <==> keys == [])
            && (forall i {:trigger a.samples[i]} :: 0 <= i < |a.samples| ==> a.samples[i].nLt + a.samples[i].nEq <= |keys|)
  {
    var rs := Runs(keys, |keys|);
    RunsTile(keys, |keys|);
    InitInv(|keys|, mx, seed);
    PushRunsGive(keys, rs, |rs|, Init(|keys|, mx, seed));
    PushRunsConserve(Init(|keys|, mx, seed), rs, |rs|);
    GivenIsKept(Statistics(keys, mx, seed), rs);
  }
}
