/**
 The accumulator object: a fixed array of slots that is compacted in place, key buffers that move
 from an evicted slot to the new one, and a scan for the next slot to give up.
 */
module Stat3Accum {
  import opened Stat3Sampler

  /** `pKey` is the address of the slot's key buffer of `nAlloc` bytes; 0 is null. */
  datatype Slot = Slot(nEq: nat, nLt: nat, nDLt: nat, iHash: nat, isPSample: bool, pKey: nat, nKey: nat, nAlloc: nat)

  type Memory = map<nat, string>

  const ZERO := Slot(0, 0, 0, 0, false, 0, 0, 0)

  function KeyOf(mem: Memory, slot: Slot): string {
    if slot.pKey in mem && slot.nKey <= |mem[slot.pKey]| then mem[slot.pKey][..slot.nKey] else ""
  }

  function SampleOf(mem: Memory, slot: Slot): Sample {
    Sample(slot.nEq, slot.nLt, slot.nDLt, slot.iHash, slot.isPSample, KeyOf(mem, slot))
  }

  function SamplesOf(mem: Memory, slots: seq<Slot>): (s: seq<Sample>)
    ensures |s| == |slots|
    ensures forall i {:trigger s[i]} {:trigger slots[i]} :: 0 <= i < |slots| ==> s[i] == SampleOf(mem, slots[i])
  {
    seq(|slots|, i requires 0 <= i < |slots| => SampleOf(mem, slots[i]))
  }

  /** A slot without a buffer holds the empty key; otherwise its buffer is allocated. */
  ghost predicate SlotOk(mem: Memory, slot: Slot) {
    && slot.nKey <= slot.nAlloc
    && (if slot.pKey == 0 then slot.nAlloc == 0 else slot.pKey in mem && |mem[slot.pKey]| == slot.nAlloc)
  }

  /** Every slot has its own buffer. */
  ghost predicate SlotsOk(mem: Memory, slots: seq<Slot>) {
    && 0 !in mem
    && (forall i {:trigger slots[i]} :: 0 <= i < |slots| ==> SlotOk(mem, slots[i]))
    && (forall i, j {:trigger slots[i], slots[j]} :: 0 <= i < j < |slots| && slots[i].pKey != 0 ==> slots[i].pKey != slots[j].pKey)
  }

  function RemoveSlot(slots: seq<Slot>, i: nat): seq<Slot>
    requires i < |slots|
  {
    slots[..i] + slots[i + 1..]
  }

  lemma RemoveSlotOk(mem: Memory, slots: seq<Slot>, i: nat)
    requires SlotsOk(mem, slots) && i < |slots|
    ensures SlotsOk(mem, RemoveSlot(slots, i))
    ensures SamplesOf(mem, RemoveSlot(slots, i)) == Remove(SamplesOf(mem, slots), i)
    ensures forall k {:trigger RemoveSlot(slots, i)[k]} :: 0 <= k < |slots| - 1 ==>
              RemoveSlot(slots, i)[k].pKey == 0 || RemoveSlot(slots, i)[k].pKey != slots[i].pKey
  {
  }

  /** Writing to a buffer that no other slot uses leaves their keys alone. */
  lemma AppendSlotOk(mem: Memory, slots: seq<Slot>, mem': Memory, x: Slot)
    requires SlotsOk(mem, slots) && 0 !in mem' && SlotOk(mem', x)
    requires forall k {:trigger slots[k]} :: 0 <= k < |slots| && slots[k].pKey != 0 ==>
               slots[k].pKey != x.pKey && slots[k].pKey in mem' && mem'[slots[k].pKey] == mem[slots[k].pKey]
    ensures SlotsOk(mem', slots + [x])
    ensures SamplesOf(mem', slots + [x]) == SamplesOf(mem, slots) + [SampleOf(mem', x)]
  {
  }

  /** Close the gap at `i`: entries after it move one place down. */
  method Squeeze(a: array<Slot>, i: nat, n: nat)
    requires i < n <= a.Length
    modifies a
    ensures a[..n - 1] == RemoveSlot(old(a[..n]), i)
    ensures a[n..] == old(a[n..])
  {
    ghost var before := a[..n];
    for j := i to n - 1
      invariant forall k :: 0 <= k < i ==> a[k] == before[k]
      invariant forall k :: i <= k < j ==> a[k] == before[k + 1]
      invariant forall k :: j <= k < n ==> a[k] == before[k]
      invariant a[n..] == old(a[n..])
    {
      a[j] := a[j + 1];
    }
  }

  ghost predicate Mirrors(a: seq<Slot>, s: seq<Sample>) {
    |s| == |a| && forall i {:trigger s[i]} {:trigger a[i]} :: 0 <= i < |a| ==>
      s[i].nEq == a[i].nEq && s[i].hash == a[i].iHash && s[i].periodic == a[i].isPSample
  }

  /** The search for a first candidate: it stays inside the array because one slot is not
      periodic. */
  method FirstPlain(a: array<Slot>, n: nat, ghost s: seq<Sample>) returns (i: nat)
    requires n <= a.Length && Mirrors(a[..n], s)
    requires exists j :: 0 <= j < n && !s[j].periodic
    ensures i < n && LeastPlain(s, i + 1) == i
  {
    i := 0;
    while a[i].isPSample
      invariant i < n
      invariant forall j :: 0 <= j < i ==> s[j].periodic
      decreases n - i
    {
      assert s[i].periodic;
      i := i + 1;
    }
    assert !s[i].periodic;
    LeastPlainStart(s, i);
  }

  /** The search for the slot to give up next. */
  method FindMin(a: array<Slot>, n: nat, ghost s: seq<Sample>) returns (k: nat)
    requires n <= a.Length && Mirrors(a[..n], s)
    requires exists j :: 0 <= j < n && !s[j].periodic
    ensures k == LeastPlain(s, n)
  {
    k := FirstPlain(a, n, s);
    var nEq, h := a[k].nEq, a[k].iHash;
    assert s[k].nEq == nEq && s[k].hash == h;
    var i := k + 1;
    while i < n
      invariant k < i <= n
      invariant LeastPlain(s, i) == k
      invariant nEq == s[k].nEq && h == s[k].hash
    {
      assert s[i].nEq == a[i].nEq && s[i].hash == a[i].iHash && s[i].periodic == a[i].isPSample;
      if !a[i].isPSample && (a[i].nEq < nEq || (a[i].nEq == nEq && a[i].iHash < h)) {
        k := i;
        nEq := a[i].nEq;
        h := a[i].iHash;
      }
      i := i + 1;
    }
  }

  lemma {:induction false} LeastPlainStart(s: seq<Sample>, i: nat)
    requires i < |s| && !s[i].periodic && forall j :: 0 <= j < i ==> s[j].periodic
    ensures LeastPlain(s, i + 1) == i
  {
  }

  class Accumulator {
    const nRow: nat
    const mxSample: nat
    const nPSample: nat
    const a: array<Slot>
    var nSample: nat
    var iMin: nat
    var iPrn: nat
    var mem: Memory
    var nextAddr: nat
    ghost var pushed: seq<Sample>
    ghost var dropped: seq<Sample>

    ghost function Abs(): Accum
      reads this, a
      requires nSample <= a.Length
    {
      Accum(nRow, mxSample, nPSample, SamplesOf(mem, a[..nSample]), iMin, iPrn, pushed, dropped)
    }

    ghost predicate Sized()
      reads this
    {
      && a.Length == mxSample
      && nSample <= mxSample
      && nextAddr > 0
      && (forall addr {:trigger addr in mem} :: addr in mem ==> addr < nextAddr)
    }

    ghost predicate UnusedAreZero()
      reads this, a
    {
      forall i {:trigger a[i]} :: nSample <= i < a.Length ==> a[i] == ZERO
    }

    ghost predicate Valid()
      reads this, a
    {
      Sized() && SlotsOk(mem, a[..nSample]) && UnusedAreZero()
    }

    /** The state between taking the last slot and filling it. */
    ghost predicate Open(k: nat)
      reads this, a
    {
      && Sized() && UnusedAreZero()
      && k + 1 == nSample
      && SlotsOk(mem, a[..k])
      && SlotOk(mem, a[k].(nKey := 0))
      && (forall i {:trigger a[i]} :: 0 <= i < k && a[i].pKey != 0 ==> a[i].pKey != a[k].pKey)
    }

    /** stat3Init */
    constructor (nRow: nat, mxSample: nat, seed: nat)
      ensures Valid() && fresh(a) && Abs() == Init(nRow, mxSample, seed)
      ensures this.nRow == nRow && this.mxSample == mxSample
    {
      this.nRow := nRow;
      this.mxSample := mxSample;
      this.nPSample := nRow / (mxSample / 3 + 1) + 1;
      a := new Slot[mxSample](_ => ZERO);
      nSample, iMin, iPrn := 0, 0, seed;
      mem, nextAddr := map[], 1;
      pushed, dropped := [], [];
    }

    /** Make room at the end: when the array is full the slot at iMin is squeezed out and its
        buffer goes to the last slot. */
    method TakeSlot() returns (k: nat)
      requires Valid() && (nSample == mxSample ==> iMin < nSample)
      modifies this`nSample, a
      ensures Open(k)
      ensures a[..k] == if old(nSample) == mxSample then RemoveSlot(old(a[..nSample]), iMin) else old(a[..nSample])
    {
      if nSample == mxSample {
        ghost var before := a[..nSample];
        var evicted := a[iMin];
        RemoveSlotOk(mem, before, iMin);
        Squeeze(a, iMin, nSample);
        k := nSample - 1;
        a[k] := ZERO.(pKey := evicted.pKey, nAlloc := evicted.nAlloc);
        assert a[..k] == RemoveSlot(before, iMin);
        assert SlotOk(mem, before[iMin]);
        assert forall i {:trigger a[i]} :: 0 <= i < k ==> a[i] == RemoveSlot(before, iMin)[i];
      } else {
        k := nSample;
        nSample := nSample + 1;
        assert a[..k] == old(a[..nSample]);
      }
    }

    /** Copy the key, enlarging the buffer when it is too small, and fill in the slot. */
    method FillSlot(k: nat, x: Sample)
      requires Open(k)
      modifies this`mem, this`nextAddr, a
      ensures Valid()
      ensures SamplesOf(mem, a[..nSample]) == SamplesOf(old(mem), old(a[..k])) + [x]
    {
      ghost var others, mem0 := a[..k], mem;
      var addr, nAlloc := a[k].pKey, a[k].nAlloc;
      if |x.key| > nAlloc {
        mem := mem - {addr};
        addr, nAlloc := nextAddr, |x.key| * 4;
        nextAddr := nextAddr + 1;
        mem := mem[addr := seq(nAlloc, _ => ' ')];
      }
      if |x.key| > 0 {
        mem := mem[addr := x.key + mem[addr][|x.key|..]];
      }
      var slot := Slot(x.nEq, x.nLt, x.nDLt, x.hash, x.periodic, addr, |x.key|, nAlloc);
      assert KeyOf(mem, slot) == x.key;
      AppendSlotOk(mem0, others, mem, slot);
      a[k] := slot;
      assert a[..nSample] == others + [slot];
    }

    /** Put `x` in its slot. */
    method Insert(x: Sample)
      requires Valid() && WellFormed(Abs())
      modifies this`nSample, this`mem, this`nextAddr, a
      ensures Valid() && SamplesOf(mem, a[..nSample]) == Keep(old(Abs()), x)
    {
      if nSample == mxSample {
        RemoveSlotOk(mem, a[..nSample], iMin);
      }
      var k := TakeSlot();
      FillSlot(k, x);
    }

    /** Whether the offered sample is to be kept. */
    method Decide(x: Sample) returns (doInsert: bool)
      requires Valid() && WellFormed(Abs())
      ensures doInsert == Wanted(Abs(), x)
    {
      if x.periodic || nSample < mxSample {
        return true;
      }
      assert Abs().samples[iMin] == SampleOf(mem, a[..nSample][iMin]);
      return x.nEq > a[iMin].nEq || (x.nEq == a[iMin].nEq && x.hash > a[iMin].iHash);
    }

    /** Put `x` in its slot and find the slot to give up next. */
    method Take(x: Sample)
      requires Valid() && WellFormed(Abs())
      requires var s := Keep(Abs(), x); |s| == mxSample ==> LeastPlain(s, |s|) >= 0
      modifies this`nSample, this`mem, this`nextAddr, this`iMin, a
      ensures Valid() && SamplesOf(mem, a[..nSample]) == Keep(old(Abs()), x)
      ensures iMin == NewMin(old(Abs()), SamplesOf(mem, a[..nSample]))
    {
      Insert(x);
      if nSample == mxSample {
        iMin := FindMin(a, nSample, SamplesOf(mem, a[..nSample]));
      }
    }

    /** stat3Push */
    method PushKey(nEq: nat, nLt: nat, nDLt: nat, key: string)
      requires Valid() && Ready(Abs(), nEq, nLt, nDLt, key)
      modifies this, a
      ensures Valid() && Abs() == Push(old(Abs()), nEq, nLt, nDLt, key)
    {
      if nEq == 0 {
        return;
      }
      ghost var before := Abs();
      iPrn := NextPrn(iPrn);
      var x := Sample(nEq, nLt, nDLt, iPrn, nLt / nPSample != (nEq + nLt) / nPSample, key);
      CrossesIsQuotient(nPSample, nLt, nEq);
      assert x == Offer(before, nEq, nLt, nDLt, key);
      var doInsert := Decide(x);
      pushed := pushed + [x];
      if doInsert {
        dropped := if nSample == mxSample then dropped + [before.samples[iMin]] else dropped;
        Take(x);
      } else {
        dropped := dropped + [x];
      }
    }
  }
}
