/**
 The keyword table: one packed text in which keywords overlap, hash chains through it, and a lookup
 that has to agree with a search through all keywords.
 */
module KeywordIndex {
  import opened CaseFolding

  type Code = string

  const TK_ID: Code := "ID"
  const HASH_SIZE := 127

  /** Entries of aHash and aNext are one more than an index, or 0 at the end of a chain. `mix` combines
      the first byte, the last byte and the length. */
  datatype Index = Index(zText: string, aHash: seq<nat>, aNext: seq<nat>, aLen: seq<nat>, aOffset: seq<nat>,
                         aCode: seq<Code>, mix: (nat, nat, nat) -> nat)

  function CharMap(c: char): nat {
    Lower(c) as int
  }

  function Hash(x: Index, first: char, last: char, n: nat): (h: nat)
    ensures h < HASH_SIZE
  {
    x.mix(CharMap(first), CharMap(last), n) % HASH_SIZE
  }

  // ------------------------------------------------------------------------------------------
  // The tables
  // ------------------------------------------------------------------------------------------

  predicate Sized(x: Index) {
    |x.aHash| == HASH_SIZE && |x.aNext| == |x.aLen| == |x.aOffset| == |x.aCode|
  }

  /** Keyword `i` lies in the text and its chain leads to smaller indices. */
  predicate EntryFits(x: Index, i: nat)
    requires Sized(x)
  {
    i < |x.aLen| ==> 2 <= x.aLen[i] && x.aOffset[i] + x.aLen[i] <= |x.zText| && x.aNext[i] <= i
  }

  predicate Fits(x: Index) {
    && Sized(x)
    && (forall h {:trigger x.aHash[h]} :: 0 <= h < HASH_SIZE ==> x.aHash[h] <= |x.aLen|)
    && (forall i: nat {:trigger EntryFits(x, i)} :: i < |x.aLen| ==> EntryFits(x, i))
  }

  /** Following the chain from entry `from` (one more than an index) reaches keyword `i`. */
  predicate OnChain(x: Index, from: nat, i: nat)
    requires Sized(x)
    decreases from
  {
    if from == 0 || from > |x.aNext| then false
    else from - 1 == i || (x.aNext[from - 1] < from && OnChain(x, x.aNext[from - 1], i))
  }

  function FirstChar(x: Index, i: nat): char
    requires Sized(x) && i < |x.aLen|
  {
    if x.aOffset[i] < |x.zText| then x.zText[x.aOffset[i]] else ' '
  }

  function LastChar(x: Index, i: nat): char
    requires Sized(x) && i < |x.aLen|
  {
    var k := (x.aOffset[i] + x.aLen[i]) as int - 1;
    if 0 <= k < |x.zText| then x.zText[k] else ' '
  }

  /** Keyword `i` is on the chain of its own hash. */
  predicate EntryFound(x: Index, i: nat)
    requires Sized(x)
  {
    i < |x.aLen| ==> OnChain(x, x.aHash[Hash(x, FirstChar(x, i), LastChar(x, i), x.aLen[i])], i)
  }

  ghost predicate Valid(x: Index) {
    Fits(x) && forall i: nat {:trigger EntryFound(x, i)} :: i < |x.aLen| ==> EntryFound(x, i)
  }

  // ------------------------------------------------------------------------------------------
  // Searching
  // ------------------------------------------------------------------------------------------

  function Word(x: Index, i: nat): string
    requires Fits(x) && i < |x.aLen|
  {
    assert EntryFits(x, i);
    x.zText[x.aOffset[i]..x.aOffset[i] + x.aLen[i]]
  }

  /** The keyword spelled `z`, upper and lower case alike. */
  predicate Spells(x: Index, i: nat, z: string)
    requires Fits(x)
  {
    i < |x.aLen| && SameName(Word(x, i), z)
  }

  /** A search through the first `n` keywords. */
  function Search(x: Index, z: string, n: nat): Code
    requires Fits(x) && n <= |x.aLen|
  {
    if n == 0 then TK_ID else if Spells(x, n - 1, z) then x.aCode[n - 1] else Search(x, z, n - 1)
  }

  /** The search finds the code of a keyword with that spelling, and TK_ID when there is none. */
  lemma {:induction false} SearchFinds(x: Index, z: string, n: nat)
    requires Fits(x) && n <= |x.aLen|
    ensures || (exists i: nat {:trigger Spells(x, i, z)} :: i < n && Spells(x, i, z) && Search(x, z, n) == x.aCode[i])
            || (Search(x, z, n) == TK_ID && forall i: nat {:trigger Spells(x, i, z)} :: i < n ==> !Spells(x, i, z))
  {
    if n > 0 && !Spells(x, n - 1, z) {
      SearchFinds(x, z, n - 1);
    }
  }

  lemma {:induction false} SearchSkips(x: Index, z: string, m: nat, n: nat)
    requires Fits(x) && m <= n <= |x.aLen|
    requires forall i: nat {:trigger Spells(x, i, z)} :: m <= i < n ==> !Spells(x, i, z)
    ensures Search(x, z, n) == Search(x, z, m)
  {
    if m < n {
      SearchSkips(x, z, m, n - 1);
    }
  }

  /** Equal spellings hash alike, so a keyword spelled `z` is on the chain of `z`. */
  lemma SpelledIsOnChain(x: Index, i: nat, z: string)
    requires Valid(x) && Spells(x, i, z)
    ensures |z| >= 2 && OnChain(x, x.aHash[Hash(x, z[0], z[|z| - 1], |z|)], i)
  {
    var w := Word(x, i);
    assert EntryFits(x, i) && EntryFound(x, i);
    assert |Fold(w)| == |Fold(z)|;
    assert Fold(w)[0] == Fold(z)[0] && Fold(w)[|w| - 1] == Fold(z)[|z| - 1];
    assert w[0] == FirstChar(x, i) && w[|w| - 1] == LastChar(x, i);
  }

  /** strnicmp(zText + aOffset[i], z, n) == 0 for a keyword of the same length. */
  method SameText(x: Index, i: nat, z: string) returns (same: bool)
    requires Fits(x) && i < |x.aLen| && x.aLen[i] == |z|
    ensures same == SameName(Word(x, i), z)
  {
    assert EntryFits(x, i);
    var k := 0;
    while k < |z| && Lower(x.zText[x.aOffset[i] + k]) == Lower(z[k])
      invariant 0 <= k <= |z|
      invariant forall j {:trigger z[j]} :: 0 <= j < k ==> Lower(Word(x, i)[j]) == Lower(z[j])
    {
      k := k + 1;
    }
    same := k == |z|;
    if !same {
      assert Fold(Word(x, i))[k] != Fold(z)[k];
    }
  }

  /** keywordCode: for every text the chain walk gives the code that a search through all keywords
      gives. */
  method KeywordCode(x: Index, z: string) returns (code: Code)
    requires Valid(x)
    ensures code == Search(x, z, |x.aLen|)
  {
    if |z| < 2 {
      forall i: nat | i < |x.aLen|
        ensures !Spells(x, i, z)
      {
        if Spells(x, i, z) {
          SpelledIsOnChain(x, i, z);
        }
      }
      SearchSkips(x, z, 0, |x.aLen|);
      return TK_ID;
    }
    var h := Hash(x, z[0], z[|z| - 1], |z|);
    var i := x.aHash[h] as int - 1;
    forall j: nat | Spells(x, j, z)
      ensures OnChain(x, i + 1, j)
    {
      SpelledIsOnChain(x, j, z);
    }
    while i >= 0
      invariant -1 <= i < |x.aLen|
      invariant forall j: nat {:trigger Spells(x, j, z)} :: Spells(x, j, z) ==> OnChain(x, i + 1, j)
      decreases i
    {
      assert EntryFits(x, i);
      if x.aLen[i] == |z| {
        var same := SameText(x, i, z);
        if same {
          NothingAbove(x, z, i);
          return x.aCode[i];
        }
      }
      i := x.aNext[i] as int - 1;
    }
    SearchSkips(x, z, 0, |x.aLen|);
    return TK_ID;
  }

  lemma {:induction false} ChainDescends(x: Index, from: nat, i: nat)
    requires Sized(x) && OnChain(x, from, i)
    ensures i < from
    decreases from
  {
    if from - 1 != i {
      ChainDescends(x, x.aNext[from - 1], i);
    }
  }

  lemma NothingAbove(x: Index, z: string, i: nat)
    requires Fits(x) && Spells(x, i, z)
    requires forall j: nat {:trigger Spells(x, j, z)} :: Spells(x, j, z) ==> OnChain(x, i + 1, j)
    ensures Search(x, z, |x.aLen|) == x.aCode[i]
  {
    forall j: nat | i < j < |x.aLen|
      ensures !Spells(x, j, z)
    {
      if Spells(x, j, z) {
        ChainDescends(x, i + 1, j);
      }
    }
    SearchSkips(x, z, i + 1, |x.aLen|);
  }
}
