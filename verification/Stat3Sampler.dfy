/**
 The bounded sample collector behind ANALYZE: it keeps every periodic sample and fills the rest of
 its slots with the keys that have the most rows.
 */
module Stat3Sampler {

  datatype Sample = Sample(nEq: nat, nLt: nat, nDLt: nat, hash: nat, periodic: bool, key: string)

  /** `pushed` and `dropped` record what was offered and what was not kept. */
  datatype Accum = Accum(nRow: nat, mx: nat, step: nat, samples: seq<Sample>, iMin: nat, prn: nat,
                         pushed: seq<Sample>, dropped: seq<Sample>)

  /** nPSample: the distance between periodic samples. */
  function Step(nRow: nat, mx: nat): nat {
    nRow / (mx / 3 + 1) + 1
  }

  /** stat3Init */
  function Init(nRow: nat, mx: nat, seed: nat): Accum {
    Accum(nRow, mx, Step(nRow, mx), [], 0, seed, [], [])
  }

  function NextPrn(prn: nat): nat {
    (prn * 1103515245 + 12345) % 0x1_0000_0000
  }

  /** More rows, or as many rows and a larger hash. */
  predicate Beats(x: Sample, y: Sample) {
    x.nEq > y.nEq || (x.nEq == y.nEq && x.hash > y.hash)
  }

  /** The first non-periodic sample among the first `n` that beats no other. */
  function LeastPlain(s: seq<Sample>, n: nat): (k: int)
    requires n <= |s|
    ensures -1 <= k < n
    ensures k >= 0 ==> !s[k].periodic && forall j :: 0 <= j < n && !s[j].periodic ==> !Beats(s[k], s[j])
    ensures k < 0 ==> forall j :: 0 <= j < n ==> s[j].periodic
  {
    if n == 0 then -1
    else
      var k := LeastPlain(s, n - 1);
      if s[n - 1].periodic then k
      else if k < 0 || Beats(s[k], s[n - 1]) then n - 1
      else k
  }

  /** n / step, written so that proofs about samples do not divide (`MultiplesIsQuotient`). */
  function Multiples(n: nat, step: nat): nat
    requires step > 0
  {
    if n < step then 0 else 1 + Multiples(n - step, step)
  }

  /** nLt / step != (nEq + nLt) / step */
  predicate Crosses(step: nat, nLt: nat, nEq: nat)
    requires step > 0
  {
    Multiples(nLt, step) != Multiples(nEq + nLt, step)
  }

  function Remove(s: seq<Sample>, i: nat): seq<Sample>
    requires i < |s|
  {
    s[..i] + s[i + 1..]
  }

  predicate WellFormed(a: Accum) {
    && a.mx > 0
    && a.step > 0
    && |a.samples| <= a.mx
    && (|a.samples| == a.mx ==> a.iMin < |a.samples|)
  }

  /** The sample that a push offers. */
  function Offer(a: Accum, nEq: nat, nLt: nat, nDLt: nat, key: string): Sample
    requires a.step > 0
  {
    Sample(nEq, nLt, nDLt, NextPrn(a.prn), Crosses(a.step, nLt, nEq), key)
  }

  predicate Wanted(a: Accum, x: Sample)
    requires WellFormed(a)
  {
    x.periodic || |a.samples| < a.mx || Beats(x, a.samples[a.iMin])
  }

  function Keep(a: Accum, x: Sample): seq<Sample>
    requires WellFormed(a)
  {
    (if |a.samples| == a.mx then Remove(a.samples, a.iMin) else a.samples) + [x]
  }

  function NewMin(a: Accum, s: seq<Sample>): nat {
    if |s| == a.mx && LeastPlain(s, |s|) >= 0 then LeastPlain(s, |s|) else a.iMin
  }

  /** stat3Push */
  function Push(a: Accum, nEq: nat, nLt: nat, nDLt: nat, key: string): (b: Accum)
    requires WellFormed(a)
    ensures b.nRow == a.nRow && b.mx == a.mx && b.step == a.step
  {
    if nEq == 0 then a
    else
      var x := Offer(a, nEq, nLt, nDLt, key);
      var a' := a.(prn := x.hash, pushed := a.pushed + [x]);
      if !Wanted(a, x) then a'.(dropped := a.dropped + [x])
      else
        var s := Keep(a, x);
        a'.(samples := s, iMin := NewMin(a, s),
            dropped := if |a.samples| == a.mx then a.dropped + [a.samples[a.iMin]] else a.dropped)
  }

  // ------------------------------------------------------------------------------------------
  // What every push keeps
  // ------------------------------------------------------------------------------------------

  /** How many of the first `n` samples are periodic. */
  function PeriodicsIn(s: seq<Sample>, n: nat): nat
    requires n <= |s|
  {
    if n == 0 then 0 else PeriodicsIn(s, n - 1) + (if s[n - 1].periodic then 1 else 0)
  }

  function Periodics(s: seq<Sample>): nat {
    PeriodicsIn(s, |s|)
  }

  /** Retained samples are in push order: their row ranges do not overlap and their ranks rise. */
  ghost predicate Ordered(s: seq<Sample>) {
    forall i, j {:trigger s[i], s[j]} :: 0 <= i < j < |s| ==> s[i].nLt + s[i].nEq <= s[j].nLt && s[i].nDLt < s[j].nDLt
  }

  /** A sample lies in the first `pos` rows and first `rank` distinct keys. */
  ghost predicate Below(x: Sample, pos: nat, rank: nat) {
    x.nEq > 0 && x.nLt + x.nEq <= pos && x.nDLt < rank
  }

  ghost predicate AllBelow(s: seq<Sample>, pos: nat, rank: nat) {
    forall i {:trigger s[i]} :: 0 <= i < |s| ==> Below(s[i], pos, rank)
  }

  /** No key that was dropped beats a non-periodic key that was kept, and no periodic one was
      dropped. */
  ghost predicate BestKept(s: seq<Sample>, dropped: seq<Sample>) {
    forall i {:trigger dropped[i]} :: 0 <= i < |dropped| ==> LosesToAll(dropped[i], s)
  }

  ghost predicate LosesToAll(d: Sample, s: seq<Sample>) {
    !d.periodic && forall j {:trigger s[j]} :: 0 <= j < |s| && !s[j].periodic ==> !Beats(d, s[j])
  }

  /** At most a third of the slots can become periodic. */
  ghost predicate Spaced(nRow: nat, mx: nat, step: nat)
    requires step > 0
  {
    forall pos: nat {:trigger Multiples(pos, step)} :: pos <= nRow ==> Multiples(pos, step) <= mx / 3
  }

  /** Periodic samples leave room for others, and the slot to give up next is known. */
  ghost predicate Sparse(a: Accum, pos: nat) {
    && a.mx > 0
    && a.step > 0
    && Spaced(a.nRow, a.mx, a.step)
    && |a.samples| <= a.mx
    && pos <= a.nRow
    && (|a.samples| == a.mx ==> a.iMin == LeastPlain(a.samples, |a.samples|))
    && Periodics(a.samples) <= Multiples(pos, a.step)
  }

  /** The state after pushes that cover the first `pos` rows and `rank` distinct keys. */
  ghost predicate Inv(a: Accum, pos: nat, rank: nat) {
    && Sparse(a, pos)
    && Ordered(a.samples)
    && AllBelow(a.samples, pos, rank)
    && Periodics(a.samples) == Periodics(a.pushed)
    && (|a.samples| < a.mx ==> a.dropped == [])
    && BestKept(a.samples, a.dropped)
  }

  /** Everything pushed is either still there or was dropped. */
  ghost predicate Conserved(a: Accum) {
    multiset(a.pushed) == multiset(a.samples) + multiset(a.dropped)
  }

  // ------------------------------------------------------------------------------------------
  // The periodic bound
  // ------------------------------------------------------------------------------------------

  lemma QuotientLess(a: nat, d: nat, m: nat)
    requires d > 0 && a < d * m
    ensures a / d < m
  {
    var q := a / d;
    assert d * q <= a;
    assert q >= m ==> d * q >= d * m;
  }

  /** nPSample is chosen so that at most a third of the slots can become periodic. */
  lemma StepBound(nRow: nat, mx: nat, pos: nat)
    requires pos <= nRow
    ensures pos / Step(nRow, mx) <= mx / 3
  {
    var m := mx / 3 + 1;
    var q := nRow / m;
    assert nRow < m * (q + 1) by {
      assert nRow == m * q + nRow % m;
    }
    assert m * (q + 1) == (q + 1) * m;
    QuotientLess(pos, q + 1, m);
  }

  lemma QuotientIs(n: nat, step: nat, q: nat)
    requires step > 0 && step * q <= n < step * (q + 1)
    ensures n / step == q
  {
    QuotientLess(n, step, q + 1);
    var p := n / step;
    assert n < step * (p + 1) by {
      assert n == step * p + n % step;
      assert step * (p + 1) == step * p + step;
    }
    assert p + 1 <= q ==> step * (p + 1) <= step * q;
  }

  lemma {:induction false} MultiplesBound(n: nat, step: nat)
    requires step > 0
    ensures var q := Multiples(n, step); step * q <= n < step * (q + 1)
  {
    if n >= step {
      var q := Multiples(n - step, step);
      MultiplesBound(n - step, step);
      assert step * (q + 1) == step * q + step && step * (q + 2) == step * (q + 1) + step;
    }
  }

  lemma MultiplesIsQuotient(n: nat, step: nat)
    requires step > 0
    ensures Multiples(n, step) == n / step
  {
    MultiplesBound(n, step);
    QuotientIs(n, step, Multiples(n, step));
  }

  lemma CrossesIsQuotient(step: nat, nLt: nat, nEq: nat)
    requires step > 0
    ensures Crosses(step, nLt, nEq) <==> nLt / step != (nEq + nLt) / step
  {
    MultiplesIsQuotient(nLt, step);
    MultiplesIsQuotient(nEq + nLt, step);
  }

  lemma {:induction false} MultiplesRise(n: nat, m: nat, step: nat)
    requires step > 0 && n <= m
    ensures Multiples(n, step) <= Multiples(m, step)
  {
    if n >= step {
      MultiplesRise(n - step, m - step, step);
    }
  }

  /** Each push that crosses a multiple of the distance uses one up. */
  lemma CrossingCounts(step: nat, nLt: nat, nEq: nat)
    requires step > 0
    ensures Multiples(nLt + nEq, step) >= Multiples(nLt, step) + (if Crosses(step, nLt, nEq) then 1 else 0)
  {
    MultiplesRise(nLt, nLt + nEq, step);
  }

  lemma InitSpaced(nRow: nat, mx: nat)
    ensures Spaced(nRow, mx, Step(nRow, mx))
  {
    forall pos: nat | pos <= nRow
      ensures Multiples(pos, Step(nRow, mx)) <= mx / 3
    {
      StepBound(nRow, mx, pos);
      MultiplesIsQuotient(pos, Step(nRow, mx));
    }
  }

  lemma InitInv(nRow: nat, mx: nat, seed: nat)
    requires mx > 0
    ensures Inv(Init(nRow, mx, seed), 0, 0)
  {
    InitSpaced(nRow, mx);
  }

  lemma {:induction false} AllPeriodic(s: seq<Sample>, n: nat)
    requires n <= |s| && forall j :: 0 <= j < n ==> s[j].periodic
    ensures PeriodicsIn(s, n) == n
  {
    if n > 0 {
      AllPeriodic(s, n - 1);
    }
  }

  /** A full array always has a non-periodic slot, so the search for the minimum stays in bounds
      and no periodic sample is ever evicted. */
  lemma FullHasPlain(s: seq<Sample>, mx: nat)
    requires |s| == mx > 0 && Periodics(s) <= mx / 3
    ensures LeastPlain(s, |s|) >= 0
  {
    if LeastPlain(s, |s|) < 0 {
      AllPeriodic(s, |s|);
    }
  }

  lemma {:induction false} PeriodicsSame(s: seq<Sample>, t: seq<Sample>, n: nat)
    requires n <= |s| && n <= |t| && forall i {:trigger s[i]} :: 0 <= i < n ==> s[i] == t[i]
    ensures PeriodicsIn(s, n) == PeriodicsIn(t, n)
  {
    if n > 0 {
      PeriodicsSame(s, t, n - 1);
    }
  }

  lemma PeriodicsAppend(s: seq<Sample>, x: Sample)
    ensures Periodics(s + [x]) == Periodics(s) + (if x.periodic then 1 else 0)
  {
    PeriodicsSame(s + [x], s, |s|);
  }

  lemma {:induction false} PeriodicsWithout(s: seq<Sample>, r: seq<Sample>, i: nat, n: nat)
    requires i <= n <= |r| == |s| - 1 && !s[i].periodic
    requires forall j {:trigger r[j]} :: 0 <= j < |r| ==> r[j] == if j < i then s[j] else s[j + 1]
    ensures PeriodicsIn(r, n) == PeriodicsIn(s, n + 1)
  {
    if n == i {
      PeriodicsSame(r, s, i);
    } else {
      PeriodicsWithout(s, r, i, n - 1);
    }
  }

  lemma PeriodicsRemove(s: seq<Sample>, i: nat)
    requires i < |s| && !s[i].periodic
    ensures Periodics(Remove(s, i)) == Periodics(s)
  {
    PeriodicsWithout(s, Remove(s, i), i, |s| - 1);
  }

  // ------------------------------------------------------------------------------------------
  // One push
  // ------------------------------------------------------------------------------------------

  lemma OrderedRemove(s: seq<Sample>, i: nat, pos: nat, rank: nat)
    requires i < |s| && Ordered(s) && AllBelow(s, pos, rank)
    ensures Ordered(Remove(s, i)) && AllBelow(Remove(s, i), pos, rank)
  {
  }

  lemma OrderedAppend(s: seq<Sample>, x: Sample, pos: nat, rank: nat)
    requires Ordered(s) && AllBelow(s, pos, rank)
    requires x.nLt == pos && x.nDLt == rank && x.nEq > 0
    ensures Ordered(s + [x]) && AllBelow(s + [x], pos + x.nEq, rank + 1)
  {
  }

  lemma BestKeptDrop(s: seq<Sample>, dropped: seq<Sample>, d: Sample)
    requires BestKept(s, dropped) && LosesToAll(d, s)
    ensures BestKept(s, dropped + [d])
  {
  }

  /** Evicting the least plain sample for one that is periodic or beats it. */
  lemma BestKeptEvict(s: seq<Sample>, dropped: seq<Sample>, k: nat, x: Sample)
    requires k < |s| && k == LeastPlain(s, |s|) && BestKept(s, dropped)
    requires x.periodic || Beats(x, s[k])
    ensures BestKept(Remove(s, k) + [x], dropped + [s[k]])
  {
    var s', dropped' := Remove(s, k) + [x], dropped + [s[k]];
    forall i | 0 <= i < |dropped'|
      ensures LosesToAll(dropped'[i], s')
    {
      if i < |dropped| {
        assert LosesToAll(dropped[i], s);
        assert !s[k].periodic ==> !Beats(dropped[i], s[k]);
      }
    }
  }

  lemma {:induction false} MultisetRemove(s: seq<Sample>, i: nat)
    requires i < |s|
    ensures multiset(s) == multiset(Remove(s, i)) + multiset{s[i]}
  {
    assert s == s[..i] + [s[i]] + s[i + 1..];
  }

  lemma KeepOrdered(a: Accum, pos: nat, rank: nat, x: Sample)
    requires WellFormed(a) && Ordered(a.samples) && AllBelow(a.samples, pos, rank)
    requires x.nLt == pos && x.nDLt == rank && x.nEq > 0
    ensures Ordered(Keep(a, x)) && AllBelow(Keep(a, x), pos + x.nEq, rank + 1)
  {
    if |a.samples| == a.mx {
      OrderedRemove(a.samples, a.iMin, pos, rank);
      OrderedAppend(Remove(a.samples, a.iMin), x, pos, rank);
    } else {
      OrderedAppend(a.samples, x, pos, rank);
    }
  }

  lemma KeepPeriodics(a: Accum, x: Sample)
    requires WellFormed(a) && (|a.samples| == a.mx ==> !a.samples[a.iMin].periodic)
    ensures Periodics(Keep(a, x)) == Periodics(a.samples) + (if x.periodic then 1 else 0)
  {
    if |a.samples| == a.mx {
      PeriodicsRemove(a.samples, a.iMin);
    }
    PeriodicsAppend(if |a.samples| == a.mx then Remove(a.samples, a.iMin) else a.samples, x);
  }

  /** The slot that a full array gives up next is never periodic. */
  lemma FullIsPlain(a: Accum, pos: nat)
    requires Sparse(a, pos)
    ensures WellFormed(a)
    ensures |a.samples| == a.mx ==> !a.samples[a.iMin].periodic && LeastPlain(a.samples, |a.samples|) == a.iMin
  {
    if |a.samples| == a.mx {
      FullHasPlain(a.samples, a.mx);
    }
  }

  /** What a kept sample does to the number of periodic ones. */
  lemma KeepSparse(a: Accum, pos: nat, x: Sample)
    requires Sparse(a, pos) && WellFormed(a) && pos + x.nEq <= a.nRow
    requires x.periodic == Crosses(a.step, pos, x.nEq)
    ensures Periodics(Keep(a, x)) == Periodics(a.samples) + (if x.periodic then 1 else 0) <= Multiples(pos + x.nEq, a.step)
  {
    FullIsPlain(a, pos);
    KeepPeriodics(a, x);
    CrossingCounts(a.step, pos, x.nEq);
  }

  /** What keeps the search for a new minimum in bounds. */
  lemma KeepHasPlain(a: Accum, pos: nat, x: Sample)
    requires Sparse(a, pos) && WellFormed(a) && pos + x.nEq <= a.nRow
    requires x.periodic == Crosses(a.step, pos, x.nEq)
    ensures |Keep(a, x)| == a.mx ==> LeastPlain(Keep(a, x), |Keep(a, x)|) >= 0
  {
    KeepSparse(a, pos, x);
    if |Keep(a, x)| == a.mx {
      FullHasPlain(Keep(a, x), a.mx);
    }
  }

  lemma DropIsBest(a: Accum, x: Sample)
    requires WellFormed(a) && !Wanted(a, x) && BestKept(a.samples, a.dropped)
    requires LeastPlain(a.samples, |a.samples|) == a.iMin
    ensures BestKept(a.samples, a.dropped + [x])
  {
    forall j | 0 <= j < |a.samples| && !a.samples[j].periodic
      ensures !Beats(x, a.samples[j])
    {
      assert !Beats(a.samples[a.iMin], a.samples[j]);
    }
    BestKeptDrop(a.samples, a.dropped, x);
  }

  lemma PushBest(a: Accum, pos: nat, rank: nat, nEq: nat, key: string)
    requires Inv(a, pos, rank) && WellFormed(a) && nEq > 0
    ensures var b := Push(a, nEq, pos, rank, key); BestKept(b.samples, b.dropped) && (|b.samples| < a.mx ==> b.dropped == [])
  {
    FullIsPlain(a, pos);
    var x := Offer(a, nEq, pos, rank, key);
    if !Wanted(a, x) {
      DropIsBest(a, x);
    } else if |a.samples| == a.mx {
      BestKeptEvict(a.samples, a.dropped, a.iMin, x);
    }
  }

  /** Each push conserves samples. */
  lemma PushConserves(a: Accum, nEq: nat, nLt: nat, nDLt: nat, key: string)
    requires WellFormed(a) && Conserved(a)
    ensures Conserved(Push(a, nEq, nLt, nDLt, key))
  {
    if |a.samples| == a.mx {
      MultisetRemove(a.samples, a.iMin);
    }
  }

  lemma PushOrdered(a: Accum, pos: nat, rank: nat, nEq: nat, key: string)
    requires WellFormed(a) && Ordered(a.samples) && AllBelow(a.samples, pos, rank) && nEq > 0
    ensures var b := Push(a, nEq, pos, rank, key); Ordered(b.samples) && AllBelow(b.samples, pos + nEq, rank + 1)
  {
    var x := Offer(a, nEq, pos, rank, key);
    if Wanted(a, x) {
      KeepOrdered(a, pos, rank, x);
    } else {
      StillBelow(a.samples, pos, rank, nEq);
    }
  }

  /** What a push retains and records. */
  lemma PushFields(a: Accum, nEq: nat, nLt: nat, nDLt: nat, key: string)
    requires WellFormed(a) && nEq > 0
    ensures var x, b := Offer(a, nEq, nLt, nDLt, key), Push(a, nEq, nLt, nDLt, key);
            b.pushed == a.pushed + [x] && b.samples == if Wanted(a, x) then Keep(a, x) else a.samples
  {
  }

  lemma PeriodicsAfter(a: Accum, pos: nat, x: Sample, retained: seq<Sample>)
    requires Sparse(a, pos) && WellFormed(a) && pos + x.nEq <= a.nRow && Periodics(a.samples) == Periodics(a.pushed)
    requires x.periodic == Crosses(a.step, pos, x.nEq)
    requires retained == if Wanted(a, x) then Keep(a, x) else a.samples
    ensures Periodics(retained) == Periodics(a.pushed + [x]) <= Multiples(pos + x.nEq, a.step)
  {
    PeriodicsAppend(a.pushed, x);
    if Wanted(a, x) {
      KeepSparse(a, pos, x);
    } else {
      CrossingCounts(a.step, pos, x.nEq);
    }
  }

  lemma PushPeriodics(a: Accum, pos: nat, rank: nat, nEq: nat, key: string)
    requires Sparse(a, pos) && WellFormed(a) && nEq > 0 && pos + nEq <= a.nRow && Periodics(a.samples) == Periodics(a.pushed)
    ensures var b := Push(a, nEq, pos, rank, key);
            Periodics(b.samples) == Periodics(b.pushed) <= Multiples(pos + nEq, b.step)
  {
    PushFields(a, nEq, pos, rank, key);
    PeriodicsAfter(a, pos, Offer(a, nEq, pos, rank, key), Push(a, nEq, pos, rank, key).samples);
  }

  lemma PushSparse(a: Accum, pos: nat, rank: nat, nEq: nat, key: string)
    requires Sparse(a, pos) && WellFormed(a) && nEq > 0 && pos + nEq <= a.nRow && Periodics(a.samples) == Periodics(a.pushed)
    ensures Sparse(Push(a, nEq, pos, rank, key), pos + nEq)
  {
    PushPeriodics(a, pos, rank, nEq, key);
    KeepHasPlain(a, pos, Offer(a, nEq, pos, rank, key));
  }

  /** A push of the next run of equal keys keeps the invariant. */
  lemma PushInv(a: Accum, pos: nat, rank: nat, nEq: nat, key: string)
    requires Inv(a, pos, rank) && nEq > 0 && pos + nEq <= a.nRow
    ensures WellFormed(a) && Inv(Push(a, nEq, pos, rank, key), pos + nEq, rank + 1)
  {
    FullIsPlain(a, pos);
    PushBest(a, pos, rank, nEq, key);
    PushOrdered(a, pos, rank, nEq, key);
    PushPeriodics(a, pos, rank, nEq, key);
    PushSparse(a, pos, rank, nEq, key);
  }

  lemma StillBelow(s: seq<Sample>, pos: nat, rank: nat, nEq: nat)
    requires AllBelow(s, pos, rank)
    ensures AllBelow(s, pos + nEq, rank + 1)
  {
  }

  /** What the code asserts while it looks for the slot to give up next: once the array is full,
      some slot is not periodic. */
  ghost predicate Ready(a: Accum, nEq: nat, nLt: nat, nDLt: nat, key: string) {
    && WellFormed(a)
    && (nEq > 0 ==> var s := Keep(a, Offer(a, nEq, nLt, nDLt, key)); |s| == a.mx ==> LeastPlain(s, |s|) >= 0)
  }

  /** Pushes that come in row order never break that assertion. */
  lemma AlwaysReady(a: Accum, pos: nat, rank: nat, nEq: nat, key: string)
    requires Inv(a, pos, rank) && pos + nEq <= a.nRow
    ensures Ready(a, nEq, pos, rank, key)
  {
    FullIsPlain(a, pos);
    KeepHasPlain(a, pos, Offer(a, nEq, pos, rank, key));
  }
}
