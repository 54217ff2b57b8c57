/**
 The tracking allocator: every outstanding block is on a doubly linked list, and a countdown makes a
 chosen allocation fail.
 */
module TrackedAllocator {

  const FOREGUARD := 0x80F5E153
  const REARGUARD := 0xE4676B53
  const FILL := 0x56

  // ------------------------------------------------------------------------------------------
  // The countdown
  // ------------------------------------------------------------------------------------------

  datatype Oom = Oom(nCountdown: nat, bPersist: bool, bEnable: bool)

  predicate Fails(o: Oom) {
    o.bEnable && o.nCountdown == 1
  }

  /** The countdown after an attempt to allocate. */
  function Attempted(o: Oom): Oom {
    if Fails(o) then o.(nCountdown := if o.bPersist then 1 else 0)
    else if o.bEnable && o.nCountdown > 0 then o.(nCountdown := o.nCountdown - 1)
    else o
  }

  /** The countdown after the first `n` attempts; `enabled` says for each whether failures were
      enabled when it was made. */
  function AfterAttempts(k: nat, persist: bool, enabled: seq<bool>, n: nat): Oom
    requires n <= |enabled|
  {
    if n == 0 then Oom(k, persist, true)
    else Attempted(AfterAttempts(k, persist, enabled, n - 1).(bEnable := enabled[n - 1]))
  }

  function EnabledAmong(enabled: seq<bool>, n: nat): nat
    requires n <= |enabled|
  {
    if n == 0 then 0 else EnabledAmong(enabled, n - 1) + (if enabled[n - 1] then 1 else 0)
  }

  lemma {:induction false} CountdownLeft(k: nat, persist: bool, enabled: seq<bool>, n: nat)
    requires n <= |enabled|
    ensures var o := AfterAttempts(k, persist, enabled, n);
            && o.bPersist == persist
            && o.nCountdown == (if EnabledAmong(enabled, n) < k then k - EnabledAmong(enabled, n)
                                else if persist && k > 0 then 1 else 0)
  {
    if n > 0 {
      CountdownLeft(k, persist, enabled, n - 1);
    }
  }

  /** A countdown of k makes exactly the k-th enabled attempt fail, and all enabled ones after it when
      the failure persists. */
  lemma CountdownTheorem(k: nat, persist: bool, enabled: seq<bool>, n: nat)
    requires n < |enabled|
    ensures var nth := EnabledAmong(enabled, n + 1);
            Fails(AfterAttempts(k, persist, enabled, n).(bEnable := enabled[n])) <==>
            enabled[n] && k > 0 && (nth == k || (persist && nth > k))
  {
    CountdownLeft(k, persist, enabled, n);
  }

  /** What the first attempts leave does not depend on the later ones. */
  lemma {:induction false} AttemptsBefore(k: nat, persist: bool, history: seq<bool>, enabled: bool, n: nat)
    requires n <= |history|
    ensures AfterAttempts(k, persist, history + [enabled], n) == AfterAttempts(k, persist, history, n)
  {
    if n > 0 {
      AttemptsBefore(k, persist, history, enabled, n - 1);
    }
  }

  lemma AttemptsPrefix(k: nat, persist: bool, history: seq<bool>, enabled: bool)
    ensures AfterAttempts(k, persist, history + [enabled], |history|) == AfterAttempts(k, persist, history, |history|)
    ensures AfterAttempts(k, persist, history + [enabled], |history| + 1) ==
            Attempted(AfterAttempts(k, persist, history, |history|).(bEnable := enabled))
  {
    AttemptsBefore(k, persist, history, enabled, |history|);
  }

  // ------------------------------------------------------------------------------------------
  // Blocks
  // ------------------------------------------------------------------------------------------

  /** A block header with the bytes behind it and the guards around them. */
  class Block {
    var pNext: Block?
    var pPrev: Block?
    var nByte: nat
    var iForeGuard: nat
    var data: seq<int>
    var rearguard: nat

    constructor (nByte: nat, next: Block?)
      ensures pNext == next && pPrev == null && this.nByte == nByte
      ensures iForeGuard == FOREGUARD && rearguard == REARGUARD && data == seq(nByte, _ => FILL)
    {
      pNext, pPrev, this.nByte := next, null, nByte;
      iForeGuard, rearguard, data := FOREGUARD, REARGUARD, seq(nByte, _ => FILL);
    }
  }

  ghost predicate Distinct(bs: seq<Block>) {
    forall i, j {:trigger bs[i], bs[j]} :: 0 <= i < j < |bs| ==> bs[i] != bs[j]
  }

  function At(bs: seq<Block>, i: int): Block? {
    if 0 <= i < |bs| then bs[i] else null
  }

  ghost function RemoveAt(bs: seq<Block>, k: nat): (r: seq<Block>)
    requires k < |bs|
    ensures |r| == |bs| - 1
    ensures forall i {:trigger r[i]} :: 0 <= i < |r| ==> r[i] == if i < k then bs[i] else bs[i + 1]
  {
    bs[..k] + bs[k + 1..]
  }

  ghost function TotalBytes(bs: seq<Block>, n: nat): nat
    requires n <= |bs|
    reads bs
  {
    if n == 0 then 0 else TotalBytes(bs, n - 1) + bs[n - 1].nByte
  }

  ghost predicate LinkOk(bs: seq<Block>, i: nat)
    reads bs
  {
    i < |bs| ==> bs[i].pNext == At(bs, i + 1) && bs[i].pPrev == At(bs, i - 1)
  }

  /** Both chains of links run through the blocks in order. */
  ghost predicate Linked(first: Block?, bs: seq<Block>)
    reads bs
  {
    first == At(bs, 0) && forall i: nat {:trigger LinkOk(bs, i)} :: LinkOk(bs, i)
  }

  ghost predicate PassOk(bs: seq<Block>, k: nat, i: nat)
    reads bs
  {
    i < |bs| && i != k ==>
      && bs[i].pNext == At(bs, if i + 1 == k then k + 1 else i + 1)
      && bs[i].pPrev == At(bs, if i == k + 1 then k - 1 else i - 1)
  }

  /** Both chains pass by block `k`. */
  ghost predicate LinkedAround(first: Block?, bs: seq<Block>, k: nat)
    reads bs
  {
    first == At(bs, if k == 0 then 1 else 0) && forall i: nat {:trigger PassOk(bs, k, i)} :: PassOk(bs, k, i)
  }

  lemma LinkedWithout(first: Block?, bs: seq<Block>, k: nat)
    requires k < |bs| && LinkedAround(first, bs, k)
    ensures Linked(first, RemoveAt(bs, k))
  {
    var r := RemoveAt(bs, k);
    forall i: nat
      ensures LinkOk(r, i)
    {
      assert PassOk(bs, k, if i < k then i else i + 1);
    }
  }

  /** A new block in front of the list. */
  lemma LinkedPushed(first: Block?, bs: seq<Block>, p: Block)
    requires p.pNext == At(bs, 0) && p.pPrev == null
    requires bs != [] ==> bs[0].pPrev == p && bs[0].pNext == At(bs, 1)
    requires forall i: nat {:trigger LinkOk(bs, i)} :: i > 0 ==> LinkOk(bs, i)
    ensures Linked(p, [p] + bs)
  {
    forall i: nat
      ensures LinkOk([p] + bs, i)
    {
      if i > 1 {
        assert LinkOk(bs, i - 1);
      }
    }
  }

  ghost predicate Guarded(bs: seq<Block>)
    reads bs
  {
    forall i {:trigger bs[i]} :: 0 <= i < |bs| ==>
      bs[i].iForeGuard == FOREGUARD && bs[i].rearguard == REARGUARD && |bs[i].data| == bs[i].nByte
  }

  class TmGlobal {
    var pFirst: Block?
    var nCountdown: nat
    var bPersist: bool
    var bEnable: bool
    /** The outstanding allocations, the latest first. */
    ghost var blocks: seq<Block>

    ghost predicate Valid()
      reads this, blocks
    {
      Distinct(blocks) && Linked(pFirst, blocks) && Guarded(blocks)
    }

    ghost function Schedule(): Oom
      reads this
    {
      Oom(nCountdown, bPersist, bEnable)
    }

    constructor ()
      ensures Valid() && blocks == [] && Schedule() == Oom(0, false, false)
    {
      pFirst, nCountdown, bPersist, bEnable, blocks := null, 0, false, false, [];
    }

    /** tmMallocOom */
    method MallocOom(nCountdown: nat, bPersist: bool)
      requires Valid()
      modifies this
      ensures Valid() && blocks == old(blocks) && Schedule() == Oom(nCountdown, bPersist, true)
    {
      this.nCountdown := nCountdown;
      this.bPersist := bPersist;
      bEnable := true;
    }

    /** tmMallocOomEnable */
    method MallocOomEnable(bEnable: bool)
      requires Valid()
      modifies this
      ensures Valid() && blocks == old(blocks) && Schedule() == old(Schedule()).(bEnable := bEnable)
    {
      this.bEnable := bEnable;
    }

    /** An attempt to allocate as the countdown theorem counts them: with failures enabled or not. */
    method Attempt(nByte: nat, enabled: bool, ghost k: nat, ghost history: seq<bool>) returns (p: Block?)
      requires Valid() && Counts(k, history)
      modifies this, blocks
      ensures Valid() && Counts(k, history + [enabled])
      ensures var nth := EnabledAmong(history + [enabled], |history| + 1);
              p == null <==> enabled && k > 0 && (nth == k || (old(bPersist) && nth > k))
      ensures p != null ==> fresh(p) && blocks == [p] + old(blocks) && p.nByte == nByte
      ensures p == null ==> blocks == old(blocks)
    {
      ghost var all := history + [enabled];
      AttemptsPrefix(k, bPersist, history, enabled);
      CountdownTheorem(k, bPersist, all, |history|);
      MallocOomEnable(enabled);
      p := Malloc(nByte);
    }

    /** The schedule is what a countdown of `k` has become after these attempts, up to the enable
        flag, which each attempt sets. */
    ghost predicate Counts(k: nat, history: seq<bool>)
      reads this
    {
      Schedule().(bEnable := true) == AfterAttempts(k, bPersist, history, |history|).(bEnable := true)
    }

    /** Put a new block in front of the list. */
    method PushFront(p: Block)
      requires Valid() && p !in blocks && p.pNext == pFirst && p.pPrev == null && Guarded([p])
      modifies this`pFirst, this`blocks, blocks`pPrev
      ensures Valid() && blocks == [p] + old(blocks)
    {
      assert LinkOk(blocks, 0);
      assert [p][0] == p;
      if pFirst != null {
        pFirst.pPrev := p;
      }
      forall i: nat
        ensures i > 0 ==> LinkOk(blocks, i)
      {
        assert old(LinkOk(blocks, i));
      }
      LinkedPushed(pFirst, blocks, p);
      pFirst := p;
      blocks := [p] + blocks;
    }

    /** tmMalloc */
    method Malloc(nByte: nat) returns (p: Block?)
      requires Valid()
      modifies this, blocks
      ensures Valid() && Schedule() == Attempted(old(Schedule()))
      ensures p == null <==> Fails(old(Schedule()))
      ensures p == null ==> blocks == old(blocks)
      ensures p != null ==> fresh(p) && blocks == [p] + old(blocks) && p.nByte == nByte
      ensures forall b :: b in old(blocks) ==> b.data == old(b.data) && b.nByte == old(b.nByte)
    {
      if bEnable && nCountdown == 1 {
        nCountdown := if bPersist then 1 else 0;
        return null;
      }
      if bEnable && nCountdown > 0 {
        nCountdown := nCountdown - 1;
      }
      p := new Block(nByte, pFirst);
      PushFront(p);
    }

    /** Take block `k` out of both chains. */
    method Unlink(p: Block, ghost k: nat)
      requires Valid() && k < |blocks| && blocks[k] == p
      modifies this`pFirst, blocks`pNext, blocks`pPrev
      ensures LinkedAround(pFirst, blocks, k)
    {
      assert LinkOk(blocks, k);
      if p.pPrev != null {
        assert LinkOk(blocks, k - 1);
        p.pPrev.pNext := p.pNext;
      } else {
        assert p == pFirst;
        pFirst := p.pNext;
      }
      if p.pNext != null {
        p.pNext.pPrev := p.pPrev;
      }
      forall i: nat
        ensures PassOk(blocks, k, i)
      {
        assert old(LinkOk(blocks, i));
      }
    }

    /** tmFree */
    method Free(p: Block?, ghost k: nat)
      requires Valid() && (p != null ==> k < |blocks| && blocks[k] == p)
      modifies this`pFirst, this`blocks, blocks`pNext, blocks`pPrev
      ensures Valid() && blocks == if p == null then old(blocks) else RemoveAt(old(blocks), k)
    {
      if p != null {
        assert p.iForeGuard == FOREGUARD && p.rearguard == REARGUARD;
        Unlink(p, k);
        LinkedWithout(pFirst, blocks, k);
        blocks := RemoveAt(blocks, k);
      }
    }

    /** As many bytes of `p` as fit into `q`. */
    method CopyBytes(q: Block, p: Block)
      requires Valid() && q in blocks && p in blocks && p != q
      modifies q`data
      ensures Valid() && var n := if q.nByte < p.nByte then q.nByte else p.nByte; q.data[..n] == p.data[..n]
    {
      assert Guarded([q]) && Guarded([p]);
      var n := if q.nByte < p.nByte then q.nByte else p.nByte;
      q.data := p.data[..n] + q.data[n..];
      forall i: nat
        ensures LinkOk(blocks, i)
      {
        assert old(LinkOk(blocks, i));
      }
    }

    /** tmRealloc: a failed attempt leaves the old block alone; otherwise the new block has as much of
        the old bytes as fits, and the old one is gone. */
    method Realloc(p: Block?, nByte: nat, ghost k: nat) returns (q: Block?)
      requires Valid() && (p != null ==> k < |blocks| && blocks[k] == p)
      modifies this, blocks
      ensures Valid() && Schedule() == Attempted(old(Schedule()))
      ensures q == null <==> Fails(old(Schedule()))
      ensures q == null ==> blocks == old(blocks) && (p != null ==> p.data == old(p.data) && p.nByte == old(p.nByte))
      ensures q != null ==> fresh(q) && q.nByte == nByte && blocks == [q] + (if p == null then old(blocks) else RemoveAt(old(blocks), k))
      ensures q != null && p != null ==> var n := if nByte < old(p.nByte) then nByte else old(p.nByte); q.data[..n] == old(p.data)[..n]
    {
      q := Malloc(nByte);
      if q != null && p != null {
        assert blocks[0] == q && blocks[k + 1] == p;
        CopyBytes(q, p);
        Free(p, k + 1);
        assert RemoveAt([q] + old(blocks), k + 1) == [q] + RemoveAt(old(blocks), k);
      }
    }

    /** tmMallocCheck: walk the chain. */
    method MallocCheck() returns (nLeak: nat, nByte: nat)
      requires Valid()
      ensures nLeak == |blocks| && nByte == TotalBytes(blocks, |blocks|)
    {
      nLeak, nByte := 0, 0;
      var pHdr := pFirst;
      while pHdr != null
        invariant nLeak <= |blocks| && pHdr == At(blocks, nLeak)
        invariant nByte == TotalBytes(blocks, nLeak)
        decreases |blocks| - nLeak
      {
        assert LinkOk(blocks, nLeak);
        nLeak := nLeak + 1;
        nByte := nByte + pHdr.nByte;
        pHdr := pHdr.pNext;
      }
    }
  }
}
