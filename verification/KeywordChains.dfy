/**
 Every chain of SQLite's keyword index, evaluated: a keyword is on the chain of its own hash.
 */
module KeywordChains {
  import opened KeywordIndex
  import opened KeywordTables

  /** The entries of SQLite's tables. */
  ghost predicate Entries(x: Index) {
    && |x.zText| == TEXT_SIZE && |x.aHash| == HASH_SIZE && |x.aNext| == |x.aLen| == |x.aOffset| == |x.aCode| == SIZE
    && (forall k {:trigger x.zText[k]} :: 0 <= k < TEXT_SIZE ==> x.zText[k] == TextAt(k))
    && (forall h {:trigger x.aHash[h]} :: 0 <= h < HASH_SIZE ==> x.aHash[h] == HashAt(h))
    && (forall i {:trigger x.aNext[i]} :: 0 <= i < SIZE ==> x.aNext[i] == NextAt(i))
    && (forall i {:trigger x.aLen[i]} :: 0 <= i < SIZE ==> x.aLen[i] == LenAt(i))
    && (forall i {:trigger x.aOffset[i]} :: 0 <= i < SIZE ==> x.aOffset[i] == OffsetAt(i))
  }

  /** Stated under a quantifier, so that the mixing function is evaluated only where a lemma asks. */
  ghost predicate Mixes(x: Index) {
    forall k {:trigger Opened(k)} :: Opened(k) ==> x.mix == Mix
  }

  predicate Opened(k: int) { true }

  /** In the lemmas below `ok(i)` stands for what is to be shown of keyword `i`, so that collecting
      the keywords does not unfold it. */
  ghost predicate FoundIsOk(x: Index, ok: nat -> bool)
    requires Sized(x)
  {
    forall i: nat {:trigger EntryFound(x, i)} :: i < |x.aLen| && EntryFound(x, i) ==> ok(i)
  }

  /** Keyword `i` has these ends, and with its length they hash to `h`. */
  predicate Hashes(x: Index, h: nat, i: nat, first: char, last: char)
    requires Sized(x)
  {
    i < |x.aLen| && FirstChar(x, i) == first && LastChar(x, i) == last && Hash(x, first, last, x.aLen[i]) == h
  }

  /** A chain of one keyword, of two or of three. */
  lemma One(x: Index, ok: nat -> bool, h: nat, i: nat, a: char, b: char)
    requires Sized(x) && FoundIsOk(x, ok) && Hashes(x, h, i, a, b) && x.aHash[h] == i + 1
    ensures ok(i)
  {
    assert EntryFound(x, i);
  }

  lemma Two(x: Index, ok: nat -> bool, h: nat, j: nat, c: char, d: char, i: nat, a: char, b: char)
    requires Sized(x) && FoundIsOk(x, ok) && i < j && Hashes(x, h, j, c, d) && Hashes(x, h, i, a, b)
    requires x.aHash[h] == j + 1 && x.aNext[j] == i + 1
    ensures ok(j) && ok(i)
  {
    assert OnChain(x, i + 1, i);
    assert EntryFound(x, j) && EntryFound(x, i);
  }

  lemma Three(x: Index, ok: nat -> bool, h: nat, k: nat, e: char, f: char, j: nat, c: char, d: char,
              i: nat, a: char, b: char)
    requires Sized(x) && FoundIsOk(x, ok) && i < j < k
    requires Hashes(x, h, k, e, f) && Hashes(x, h, j, c, d) && Hashes(x, h, i, a, b)
    requires x.aHash[h] == k + 1 && x.aNext[k] == j + 1 && x.aNext[j] == i + 1
    ensures ok(k) && ok(j) && ok(i)
  {
    assert OnChain(x, i + 1, i) && OnChain(x, j + 1, i) && OnChain(x, j + 1, j);
    assert EntryFound(x, k) && EntryFound(x, j) && EntryFound(x, i);
  }

  lemma Mix0(x: Index)
    requires Mixes(x)
    ensures x.mix(105, 116, 6) % HASH_SIZE == 0 && x.mix(105, 115, 2) % HASH_SIZE == 1
    ensures x.mix(105, 101, 9) % HASH_SIZE == 3 && x.mix(116, 112, 4) % HASH_SIZE == 5
  {
    assert Opened(0);
  }

  lemma Chain0(x: Index, ok: nat -> bool)
    requires Entries(x) && Mixes(x) && FoundIsOk(x, ok)
    ensures ok(71) && ok(101) && ok(69) && ok(44)
  {
    Mix0(x);
    One(x, ok, 0, 71, 'I', 'T');
    One(x, ok, 1, 101, 'I', 'S');
    One(x, ok, 3, 69, 'I', 'E');
    One(x, ok, 5, 44, 'T', 'P');
  }

  lemma Mix1(x: Index)
    requires Mixes(x)
    ensures x.mix(114, 107, 8) % HASH_SIZE == 2 && x.mix(116, 114, 7) % HASH_SIZE == 2
  {
    assert Opened(0);
  }

  lemma Chain1(x: Index, ok: nat -> bool)
    requires Entries(x) && Mixes(x) && FoundIsOk(x, ok)
    ensures ok(113) && ok(36)
  {
    Mix1(x);
    Two(x, ok, 2, 113, 'R', 'K', 36, 'T', 'R');
  }

  lemma Mix2(x: Index)
    requires Mixes(x)
    ensures x.mix(118, 115, 6) % HASH_SIZE == 8 && x.mix(109, 104, 5) % HASH_SIZE == 10
    ensures x.mix(111, 102, 2) % HASH_SIZE == 13 && x.mix(105, 101, 6) % HASH_SIZE == 14
  {
    assert Opened(0);
  }

  lemma Chain2(x: Index, ok: nat -> bool)
    requires Entries(x) && Mixes(x) && FoundIsOk(x, ok)
    ensures ok(77) && ok(72) && ok(41) && ok(11)
  {
    Mix2(x);
    One(x, ok, 8, 77, 'V', 'S');
    One(x, ok, 10, 72, 'M', 'H');
    One(x, ok, 13, 41, 'O', 'F');
    One(x, ok, 14, 11, 'I', 'E');
  }

  lemma Mix3(x: Index)
    requires Mixes(x)
    ensures x.mix(112, 110, 4) % HASH_SIZE == 15 && x.mix(119, 110, 4) % HASH_SIZE == 19
    ensures x.mix(105, 102, 2) % HASH_SIZE == 21 && x.mix(115, 116, 6) % HASH_SIZE == 23
  {
    assert Opened(0);
  }

  lemma Chain3(x: Index, ok: nat -> bool)
    requires Entries(x) && Mixes(x) && FoundIsOk(x, ok)
    ensures ok(73) && ok(78) && ok(107) && ok(18)
  {
    Mix3(x);
    One(x, ok, 15, 73, 'P', 'N');
    One(x, ok, 19, 78, 'W', 'N');
    One(x, ok, 21, 107, 'I', 'F');
    One(x, ok, 23, 18, 'S', 'T');
  }

  lemma Mix4(x: Index)
    requires Mixes(x)
    ensures x.mix(105, 100, 7) % HASH_SIZE == 16
  {
    assert Opened(0);
  }

  lemma Chain4(x: Index, ok: nat -> bool)
    requires Entries(x) && Mixes(x) && FoundIsOk(x, ok)
    ensures ok(14) && ok(1)
  {
    Mix4(x);
    Two(x, ok, 16, 14, 'I', 'D', 1, 'I', 'D');
  }

  lemma Mix5(x: Index)
    requires Mixes(x)
    ensures x.mix(114, 116, 5) % HASH_SIZE == 18 && x.mix(116, 110, 11) % HASH_SIZE == 18
  {
    assert Opened(0);
  }

  lemma Chain5(x: Index, ok: nat -> bool)
    requires Entries(x) && Mixes(x) && FoundIsOk(x, ok)
    ensures ok(112) && ok(26)
  {
    Mix5(x);
    Two(x, ok, 18, 112, 'R', 'T', 26, 'T', 'N');
  }

  lemma Mix6(x: Index)
    requires Mixes(x)
    ensures x.mix(104, 103, 6) % HASH_SIZE == 20 && x.mix(115, 116, 3) % HASH_SIZE == 20
  {
    assert Opened(0);
  }

  lemma Chain6(x: Index, ok: nat -> bool)
    requires Entries(x) && Mixes(x) && FoundIsOk(x, ok)
    ensures ok(49) && ok(42)
  {
    Mix6(x);
    Two(x, ok, 20, 49, 'H', 'G', 42, 'S', 'T');
  }

  lemma Mix7(x: Index)
    requires Mixes(x)
    ensures x.mix(115, 116, 9) % HASH_SIZE == 26 && x.mix(114, 116, 8) % HASH_SIZE == 29
    ensures x.mix(116, 111, 2) % HASH_SIZE == 32 && x.mix(98, 101, 6) % HASH_SIZE == 34
  {
    assert Opened(0);
  }

  lemma Chain7(x: Index, ok: nat -> bool)
    requires Entries(x) && Mixes(x) && FoundIsOk(x, ok)
    ensures ok(34) && ok(110) && ok(86) && ok(8)
  {
    Mix7(x);
    One(x, ok, 26, 34, 'S', 'T');
    One(x, ok, 29, 110, 'R', 'T');
    One(x, ok, 32, 86, 'T', 'O');
    One(x, ok, 34, 8, 'B', 'E');
  }

  lemma Mix8(x: Index)
    requires Mixes(x)
    ensures x.mix(117, 110, 5) % HASH_SIZE == 28 && x.mix(108, 101, 4) % HASH_SIZE == 28
    ensures x.mix(114, 115, 10) % HASH_SIZE == 28
  {
    assert Opened(0);
  }

  lemma Chain8(x: Index, ok: nat -> bool)
    requires Entries(x) && Mixes(x) && FoundIsOk(x, ok)
    ensures ok(115) && ok(60) && ok(37)
  {
    Mix8(x);
    Three(x, ok, 28, 115, 'U', 'N', 60, 'L', 'E', 37, 'R', 'S');
  }

  lemma Mix9(x: Index)
    requires Mixes(x)
    ensures x.mix(116, 110, 4) % HASH_SIZE == 31 && x.mix(114, 112, 6) % HASH_SIZE == 31
  {
    assert Opened(0);
  }

  lemma Chain9(x: Index, ok: nat -> bool)
    requires Entries(x) && Mixes(x) && FoundIsOk(x, ok)
    ensures ok(21) && ok(12)
  {
    Mix9(x);
    Two(x, ok, 31, 21, 'T', 'N', 12, 'R', 'P');
  }

  lemma Mix10(x: Index)
    requires Mixes(x)
    ensures x.mix(99, 101, 7) % HASH_SIZE == 37
  {
    assert Opened(0);
  }

  lemma Chain10(x: Index, ok: nat -> bool)
    requires Entries(x) && Mixes(x) && FoundIsOk(x, ok)
    ensures ok(65) && ok(61)
  {
    Mix10(x);
    Two(x, ok, 37, 65, 'C', 'E', 61, 'C', 'E');
  }

  lemma Mix11(x: Index)
    requires Mixes(x)
    ensures x.mix(99, 101, 6) % HASH_SIZE == 38 && x.mix(101, 104, 4) % HASH_SIZE == 41
    ensures x.mix(113, 121, 5) % HASH_SIZE == 43 && x.mix(99, 103, 8) % HASH_SIZE == 50
  {
    assert Opened(0);
  }

  lemma Chain11(x: Index, ok: nat -> bool)
    requires Entries(x) && Mixes(x) && FoundIsOk(x, ok)
    ensures ok(66) && ok(5) && ok(47) && ok(92)
  {
    Mix11(x);
    One(x, ok, 38, 66, 'C', 'E');
    One(x, ok, 41, 5, 'E', 'H');
    One(x, ok, 43, 47, 'Q', 'Y');
    One(x, ok, 50, 92, 'C', 'G');
  }

  lemma Mix12(x: Index)
    requires Mixes(x)
    ensures x.mix(99, 101, 4) % HASH_SIZE == 40 && x.mix(114, 120, 7) % HASH_SIZE == 40
  {
    assert Opened(0);
  }

  lemma Chain12(x: Index, ok: nat -> bool)
    requires Entries(x) && Mixes(x) && FoundIsOk(x, ok)
    ensures ok(64) && ok(0)
  {
    Mix12(x);
    Two(x, ok, 40, 64, 'C', 'E', 0, 'R', 'X');
  }

  lemma Mix13(x: Index)
    requires Mixes(x)
    ensures x.mix(97, 100, 3) % HASH_SIZE == 44
  {
    assert Opened(0);
  }

  lemma Chain13(x: Index, ok: nat -> bool)
    requires Entries(x) && Mixes(x) && FoundIsOk(x, ok)
    ensures ok(83) && ok(15)
  {
    Mix13(x);
    Two(x, ok, 44, 83, 'A', 'D', 15, 'A', 'D');
  }

  lemma Mix14(x: Index)
    requires Mixes(x)
    ensures x.mix(112, 121, 7) % HASH_SIZE == 45 && x.mix(97, 101, 7) % HASH_SIZE == 45
  {
    assert Opened(0);
  }

  lemma Chain14(x: Index, ok: nat -> bool)
    requires Entries(x) && Mixes(x) && FoundIsOk(x, ok)
    ensures ok(98) && ok(74)
  {
    Mix14(x);
    Two(x, ok, 45, 98, 'P', 'Y', 74, 'A', 'E');
  }

  lemma Mix15(x: Index)
    requires Mixes(x)
    ensures x.mix(114, 119, 3) % HASH_SIZE == 47 && x.mix(100, 104, 6) % HASH_SIZE == 47
    ensures x.mix(97, 99, 3) % HASH_SIZE == 47
  {
    assert Opened(0);
  }

  lemma Chain15(x: Index, ok: nat -> bool)
    requires Entries(x) && Mixes(x) && FoundIsOk(x, ok)
    ensures ok(114) && ok(68) && ok(62)
  {
    Mix15(x);
    Three(x, ok, 47, 114, 'R', 'W', 68, 'D', 'H', 62, 'A', 'C');
  }

  lemma Mix16(x: Index)
    requires Mixes(x)
    ensures x.mix(99, 101, 12) % HASH_SIZE == 48
  {
    assert Opened(0);
  }

  lemma Chain16(x: Index, ok: nat -> bool)
    requires Entries(x) && Mixes(x) && FoundIsOk(x, ok)
    ensures ok(97) && ok(67)
  {
    Mix16(x);
    Two(x, ok, 48, 97, 'C', 'E', 67, 'C', 'E');
  }

  lemma Mix17(x: Index)
    requires Mixes(x)
    ensures x.mix(116, 121, 9) % HASH_SIZE == 51 && x.mix(101, 101, 9) % HASH_SIZE == 51
  {
    assert Opened(0);
  }

  lemma Chain17(x: Index, ok: nat -> bool)
    requires Entries(x) && Mixes(x) && FoundIsOk(x, ok)
    ensures ok(43) && ok(32)
  {
    Mix17(x);
    Two(x, ok, 51, 43, 'T', 'Y', 32, 'E', 'E');
  }

  lemma Mix18(x: Index)
    requires Mixes(x)
    ensures x.mix(100, 100, 8) % HASH_SIZE == 53 && x.mix(100, 101, 10) % HASH_SIZE == 54
    ensures x.mix(100, 101, 8) % HASH_SIZE == 56 && x.mix(97, 104, 6) % HASH_SIZE == 59
  {
    assert Opened(0);
  }

  lemma Chain18(x: Index, ok: nat -> bool)
    requires Entries(x) && Mixes(x) && FoundIsOk(x, ok)
    ensures ok(99) && ok(23) && ok(16) && ok(48)
  {
    Mix18(x);
    One(x, ok, 53, 99, 'D', 'D');
    One(x, ok, 54, 23, 'D', 'E');
    One(x, ok, 56, 16, 'D', 'E');
    One(x, ok, 59, 48, 'A', 'H');
  }

  lemma Mix19(x: Index)
    requires Mixes(x)
    ensures x.mix(118, 119, 4) % HASH_SIZE == 58 && x.mix(100, 101, 6) % HASH_SIZE == 58
  {
    assert Opened(0);
  }

  lemma Chain19(x: Index, ok: nat -> bool)
    requires Entries(x) && Mixes(x) && FoundIsOk(x, ok)
    ensures ok(117) && ok(63)
  {
    Mix19(x);
    Two(x, ok, 58, 117, 'V', 'W', 63, 'D', 'E');
  }

  lemma Mix20(x: Index)
    requires Mixes(x)
    ensures x.mix(101, 100, 3) % HASH_SIZE == 60 && x.mix(103, 98, 4) % HASH_SIZE == 63
    ensures x.mix(101, 101, 4) % HASH_SIZE == 64 && x.mix(99, 110, 6) % HASH_SIZE == 65
  {
    assert Opened(0);
  }

  lemma Chain20(x: Index, ok: nat -> bool)
    requires Entries(x) && Mixes(x) && FoundIsOk(x, ok)
    ensures ok(22) && ok(93) && ok(24) && ok(89)
  {
    Mix20(x);
    One(x, ok, 60, 22, 'E', 'D');
    One(x, ok, 63, 93, 'G', 'B');
    One(x, ok, 64, 24, 'E', 'E');
    One(x, ok, 65, 89, 'C', 'N');
  }

  lemma Mix21(x: Index)
    requires Mixes(x)
    ensures x.mix(101, 101, 6) % HASH_SIZE == 62 && x.mix(100, 99, 4) % HASH_SIZE == 62
  {
    assert Opened(0);
  }

  lemma Chain21(x: Index, ok: nat -> bool)
    requires Entries(x) && Mixes(x) && FoundIsOk(x, ok)
    ensures ok(4) && ok(3)
  {
    Mix21(x);
    Two(x, ok, 62, 4, 'E', 'E', 3, 'D', 'C');
  }

  lemma Mix22(x: Index)
    requires Mixes(x)
    ensures x.mix(97, 108, 3) % HASH_SIZE == 68 && x.mix(98, 110, 7) % HASH_SIZE == 70
    ensures x.mix(105, 121, 9) % HASH_SIZE == 71 && x.mix(98, 110, 5) % HASH_SIZE == 72
  {
    assert Opened(0);
  }

  lemma Chain22(x: Index, ok: nat -> bool)
    requires Entries(x) && Mixes(x) && FoundIsOk(x, ok)
    ensures ok(119) && ok(55) && ok(118) && ok(52)
  {
    Mix22(x);
    One(x, ok, 68, 119, 'A', 'L');
    One(x, ok, 70, 55, 'B', 'N');
    One(x, ok, 71, 118, 'I', 'Y');
    One(x, ok, 72, 52, 'B', 'N');
  }

  lemma Mix23(x: Index)
    requires Mixes(x)
    ensures x.mix(100, 112, 4) % HASH_SIZE == 69 && x.mix(100, 116, 8) % HASH_SIZE == 69
    ensures x.mix(107, 121, 3) % HASH_SIZE == 69
  {
    assert Opened(0);
  }

  lemma Chain23(x: Index, ok: nat -> bool)
    requires Entries(x) && Mixes(x) && FoundIsOk(x, ok)
    ensures ok(102) && ok(100) && ok(7)
  {
    Mix23(x);
    Three(x, ok, 69, 102, 'D', 'P', 100, 'D', 'T', 7, 'K', 'Y');
  }

  lemma Mix24(x: Index)
    requires Mixes(x)
    ensures x.mix(97, 110, 6) % HASH_SIZE == 73 && x.mix(99, 107, 5) % HASH_SIZE == 73
  {
    assert Opened(0);
  }

  lemma Chain24(x: Index, ok: nat -> bool)
    requires Entries(x) && Mixes(x) && FoundIsOk(x, ok)
    ensures ok(27) && ok(6)
  {
    Mix24(x);
    Two(x, ok, 73, 27, 'A', 'N', 6, 'C', 'K');
  }

  lemma Mix25(x: Index)
    requires Mixes(x)
    ensures x.mix(103, 112, 5) % HASH_SIZE == 74 && x.mix(105, 120, 5) % HASH_SIZE == 74
  {
    assert Opened(0);
  }

  lemma Chain25(x: Index, ok: nat -> bool)
    requires Entries(x) && Mixes(x) && FoundIsOk(x, ok)
    ensures ok(50) && ok(2)
  {
    Mix25(x);
    Two(x, ok, 74, 50, 'G', 'P', 2, 'I', 'X');
  }

  lemma Mix26(x: Index)
    requires Mixes(x)
    ensures x.mix(100, 116, 7) % HASH_SIZE == 76 && x.mix(101, 115, 6) % HASH_SIZE == 76
  {
    assert Opened(0);
  }

  lemma Chain26(x: Index, ok: nat -> bool)
    requires Entries(x) && Mixes(x) && FoundIsOk(x, ok)
    ensures ok(84) && ok(33)
  {
    Mix26(x);
    Two(x, ok, 76, 84, 'D', 'T', 33, 'E', 'S');
  }

  lemma Mix27(x: Index)
    requires Mixes(x)
    ensures x.mix(99, 112, 17) % HASH_SIZE == 78 && x.mix(102, 114, 3) % HASH_SIZE == 78
  {
    assert Opened(0);
  }

  lemma Chain27(x: Index, ok: nat -> bool)
    requires Entries(x) && Mixes(x) && FoundIsOk(x, ok)
    ensures ok(96) && ok(10)
  {
    Mix27(x);
    Two(x, ok, 78, 96, 'C', 'P', 10, 'F', 'R');
  }

  lemma Mix28(x: Index)
    requires Mixes(x)
    ensures x.mix(101, 116, 6) % HASH_SIZE == 79 && x.mix(99, 115, 5) % HASH_SIZE == 81
    ensures x.mix(99, 116, 4) % HASH_SIZE == 85 && x.mix(99, 116, 6) % HASH_SIZE == 87
  {
    assert Opened(0);
  }

  lemma Chain28(x: Index, ok: nat -> bool)
    requires Entries(x) && Mixes(x) && FoundIsOk(x, ok)
    ensures ok(25) && ok(95) && ok(88) && ok(90)
  {
    Mix28(x);
    One(x, ok, 79, 25, 'E', 'T');
    One(x, ok, 81, 95, 'C', 'S');
    One(x, ok, 85, 88, 'C', 'T');
    One(x, ok, 87, 90, 'C', 'T');
  }

  lemma Mix29(x: Index)
    requires Mixes(x)
    ensures x.mix(97, 116, 13) % HASH_SIZE == 86 && x.mix(102, 110, 7) % HASH_SIZE == 86
  {
    assert Opened(0);
  }

  lemma Chain29(x: Index, ok: nat -> bool)
    requires Entries(x) && Mixes(x) && FoundIsOk(x, ok)
    ensures ok(85) && ok(9)
  {
    Mix29(x);
    Two(x, ok, 86, 85, 'A', 'T', 9, 'F', 'N');
  }

  lemma Mix30(x: Index)
    requires Mixes(x)
    ensures x.mix(97, 114, 5) % HASH_SIZE == 88
  {
    assert Opened(0);
  }

  lemma Chain30(x: Index, ok: nat -> bool)
    requires Entries(x) && Mixes(x) && FoundIsOk(x, ok)
    ensures ok(81) && ok(30)
  {
    Mix30(x);
    Two(x, ok, 88, 81, 'A', 'R', 30, 'A', 'R');
  }

  lemma Mix31(x: Index)
    requires Mixes(x)
    ensures x.mix(102, 108, 4) % HASH_SIZE == 89 && x.mix(99, 116, 8) % HASH_SIZE == 89
  {
    assert Opened(0);
  }

  lemma Chain31(x: Index, ok: nat -> bool)
    requires Entries(x) && Mixes(x) && FoundIsOk(x, ok)
    ensures ok(106) && ok(103) && ok(91)
  {
    Mix31(x);
    Three(x, ok, 89, 106, 'F', 'L', 103, 'F', 'L', 91, 'C', 'T');
  }

  lemma Mix32(x: Index)
    requires Mixes(x)
    ensures x.mix(101, 110, 7) % HASH_SIZE == 90 && x.mix(99, 116, 10) % HASH_SIZE == 91
    ensures x.mix(102, 109, 4) % HASH_SIZE == 92 && x.mix(97, 116, 5) % HASH_SIZE == 94
  {
    assert Opened(0);
  }

  lemma Chain32(x: Index, ok: nat -> bool)
    requires Entries(x) && Mixes(x) && FoundIsOk(x, ok)
    ensures ok(13) && ok(38) && ok(105) && ok(76)
  {
    Mix32(x);
    One(x, ok, 90, 13, 'E', 'N');
    One(x, ok, 91, 38, 'C', 'T');
    One(x, ok, 92, 105, 'F', 'M');
    One(x, ok, 94, 76, 'A', 'T');
  }

  lemma Mix33(x: Index)
    requires Mixes(x)
    ensures x.mix(97, 115, 2) % HASH_SIZE == 96 && x.mix(114, 101, 5) % HASH_SIZE == 99
    ensures x.mix(117, 103, 5) % HASH_SIZE == 101 && x.mix(112, 97, 6) % HASH_SIZE == 102
  {
    assert Opened(0);
  }

  lemma Chain33(x: Index, ok: nat -> bool)
    requires Entries(x) && Mixes(x) && FoundIsOk(x, ok)
    ensures ok(17) && ok(31) && ok(116) && ok(75)
  {
    Mix33(x);
    One(x, ok, 96, 17, 'A', 'S');
    One(x, ok, 99, 31, 'R', 'E');
    One(x, ok, 101, 116, 'U', 'G');
    One(x, ok, 102, 75, 'P', 'A');
  }

  lemma Mix34(x: Index)
    requires Mixes(x)
    ensures x.mix(114, 101, 7) % HASH_SIZE == 97
  {
    assert Opened(0);
  }

  lemma Chain34(x: Index, ok: nat -> bool)
    requires Entries(x) && Mixes(x) && FoundIsOk(x, ok)
    ensures ok(82) && ok(54)
  {
    Mix34(x);
    Two(x, ok, 97, 82, 'R', 'E', 54, 'R', 'E');
  }

  lemma Mix35(x: Index)
    requires Mixes(x)
    ensures x.mix(98, 121, 2) % HASH_SIZE == 98 && x.mix(114, 101, 6) % HASH_SIZE == 98
  {
    assert Opened(0);
  }

  lemma Chain35(x: Index, ok: nat -> bool)
    requires Entries(x) && Mixes(x) && FoundIsOk(x, ok)
    ensures ok(94) && ok(80)
  {
    Mix35(x);
    Two(x, ok, 98, 94, 'B', 'Y', 80, 'R', 'E');
  }

  lemma Mix36(x: Index)
    requires Mixes(x)
    ensures x.mix(105, 108, 6) % HASH_SIZE == 103 && x.mix(106, 110, 4) % HASH_SIZE == 103
    ensures x.mix(111, 116, 6) % HASH_SIZE == 103
  {
    assert Opened(0);
  }

  lemma Chain36(x: Index, ok: nat -> bool)
    requires Entries(x) && Mixes(x) && FoundIsOk(x, ok)
    ensures ok(108) && ok(70) && ok(40)
  {
    Mix36(x);
    Three(x, ok, 103, 108, 'I', 'L', 70, 'J', 'N', 40, 'O', 'T');
  }

  lemma Mix37(x: Index)
    requires Mixes(x)
    ensures x.mix(110, 116, 3) % HASH_SIZE == 104 && x.mix(108, 116, 5) % HASH_SIZE == 106
    ensures x.mix(105, 110, 2) % HASH_SIZE == 109 && x.mix(105, 111, 4) % HASH_SIZE == 110
  {
    assert Opened(0);
  }

  lemma Chain37(x: Index, ok: nat -> bool)
    requires Entries(x) && Mixes(x) && FoundIsOk(x, ok)
    ensures ok(57) && ok(104) && ok(87) && ok(39)
  {
    Mix37(x);
    One(x, ok, 104, 57, 'N', 'T');
    One(x, ok, 106, 104, 'L', 'T');
    One(x, ok, 109, 87, 'I', 'N');
    One(x, ok, 110, 39, 'I', 'O');
  }

  lemma Mix38(x: Index)
    requires Mixes(x)
    ensures x.mix(111, 114, 2) % HASH_SIZE == 105 && x.mix(108, 116, 4) % HASH_SIZE == 105
  {
    assert Opened(0);
  }

  lemma Chain38(x: Index, ok: nat -> bool)
    requires Entries(x) && Mixes(x) && FoundIsOk(x, ok)
    ensures ok(45) && ok(20)
  {
    Mix38(x);
    Two(x, ok, 105, 45, 'O', 'R', 20, 'L', 'T');
  }

  lemma Mix39(x: Index)
    requires Mixes(x)
    ensures x.mix(111, 114, 5) % HASH_SIZE == 112
  {
    assert Opened(0);
  }

  lemma Chain39(x: Index, ok: nat -> bool)
    requires Entries(x) && Mixes(x) && FoundIsOk(x, ok)
    ensures ok(111) && ok(109)
  {
    Mix39(x);
    Two(x, ok, 112, 111, 'O', 'R', 109, 'O', 'R');
  }

  lemma Mix40(x: Index)
    requires Mixes(x)
    ensures x.mix(105, 116, 9) % HASH_SIZE == 114 && x.mix(111, 110, 2) % HASH_SIZE == 117
    ensures x.mix(119, 101, 5) % HASH_SIZE == 119 && x.mix(110, 108, 4) % HASH_SIZE == 121
  {
    assert Opened(0);
  }

  lemma Chain40(x: Index, ok: nat -> bool)
    requires Entries(x) && Mixes(x) && FoundIsOk(x, ok)
    ensures ok(35) && ok(28) && ok(79) && ok(59)
  {
    Mix40(x);
    One(x, ok, 114, 35, 'I', 'T');
    One(x, ok, 117, 28, 'O', 'N');
    One(x, ok, 119, 79, 'W', 'E');
    One(x, ok, 121, 59, 'N', 'L');
  }

  lemma Mix41(x: Index)
    requires Mixes(x)
    ensures x.mix(110, 111, 2) % HASH_SIZE == 120 && x.mix(105, 114, 5) % HASH_SIZE == 120
  {
    assert Opened(0);
  }

  lemma Chain41(x: Index, ok: nat -> bool)
    requires Entries(x) && Mixes(x) && FoundIsOk(x, ok)
    ensures ok(58) && ok(53)
  {
    Mix41(x);
    Two(x, ok, 120, 58, 'N', 'O', 53, 'I', 'R');
  }

  lemma Mix42(x: Index)
    requires Mixes(x)
    ensures x.mix(116, 101, 5) % HASH_SIZE == 123
  {
    assert Opened(0);
  }

  lemma Chain42(x: Index, ok: nat -> bool)
    requires Entries(x) && Mixes(x) && FoundIsOk(x, ok)
    ensures ok(19)
  {
    Mix42(x);
    One(x, ok, 123, 19, 'T', 'E');
  }

  lemma Mix43(x: Index)
    requires Mixes(x)
    ensures x.mix(110, 108, 7) % HASH_SIZE == 124
  {
    assert Opened(0);
  }

  lemma Chain43(x: Index, ok: nat -> bool)
    requires Entries(x) && Mixes(x) && FoundIsOk(x, ok)
    ensures ok(56) && ok(29)
  {
    Mix43(x);
    Two(x, ok, 124, 56, 'N', 'L', 29, 'N', 'L');
  }

  lemma Mix44(x: Index)
    requires Mixes(x)
    ensures x.mix(117, 101, 6) % HASH_SIZE == 126
  {
    assert Opened(0);
  }

  lemma Chain44(x: Index, ok: nat -> bool)
    requires Entries(x) && Mixes(x) && FoundIsOk(x, ok)
    ensures ok(51) && ok(46)
  {
    Mix44(x);
    Two(x, ok, 126, 51, 'U', 'E', 46, 'U', 'E');
  }

  lemma Found0(x: Index, ok: nat -> bool)
    requires Entries(x) && Mixes(x) && FoundIsOk(x, ok)
    ensures forall i: nat {:trigger ok(i)} :: 0 <= i < 20 ==> ok(i)
  {
    Chain2(x, ok); Chain3(x, ok); Chain4(x, ok); Chain7(x, ok); Chain9(x, ok); Chain11(x, ok); Chain12(x, ok);
    Chain13(x, ok); Chain18(x, ok); Chain21(x, ok); Chain23(x, ok); Chain24(x, ok); Chain25(x, ok);
    Chain27(x, ok); Chain29(x, ok); Chain32(x, ok); Chain33(x, ok); Chain42(x, ok);
  }

  lemma Found1(x: Index, ok: nat -> bool)
    requires Entries(x) && Mixes(x) && FoundIsOk(x, ok)
    ensures forall i: nat {:trigger ok(i)} :: 20 <= i < 40 ==> ok(i)
  {
    Chain1(x, ok); Chain5(x, ok); Chain7(x, ok); Chain8(x, ok); Chain9(x, ok); Chain17(x, ok); Chain18(x, ok);
    Chain20(x, ok); Chain24(x, ok); Chain26(x, ok); Chain28(x, ok); Chain30(x, ok); Chain32(x, ok);
    Chain33(x, ok); Chain37(x, ok); Chain38(x, ok); Chain40(x, ok); Chain43(x, ok);
  }

  lemma Found2(x: Index, ok: nat -> bool)
    requires Entries(x) && Mixes(x) && FoundIsOk(x, ok)
    ensures forall i: nat {:trigger ok(i)} :: 40 <= i < 60 ==> ok(i)
  {
    Chain0(x, ok); Chain2(x, ok); Chain6(x, ok); Chain11(x, ok); Chain17(x, ok); Chain18(x, ok);
    Chain22(x, ok); Chain25(x, ok); Chain34(x, ok); Chain36(x, ok); Chain37(x, ok); Chain38(x, ok);
    Chain40(x, ok); Chain41(x, ok); Chain43(x, ok); Chain44(x, ok);
  }

  lemma Found3(x: Index, ok: nat -> bool)
    requires Entries(x) && Mixes(x) && FoundIsOk(x, ok)
    ensures forall i: nat {:trigger ok(i)} :: 60 <= i < 80 ==> ok(i)
  {
    Chain0(x, ok); Chain2(x, ok); Chain3(x, ok); Chain8(x, ok); Chain10(x, ok); Chain11(x, ok);
    Chain12(x, ok); Chain14(x, ok); Chain15(x, ok); Chain16(x, ok); Chain19(x, ok); Chain32(x, ok);
    Chain33(x, ok); Chain36(x, ok); Chain40(x, ok);
  }

  lemma Found4(x: Index, ok: nat -> bool)
    requires Entries(x) && Mixes(x) && FoundIsOk(x, ok)
    ensures forall i: nat {:trigger ok(i)} :: 80 <= i < 100 ==> ok(i)
  {
    Chain7(x, ok); Chain11(x, ok); Chain13(x, ok); Chain14(x, ok); Chain16(x, ok); Chain18(x, ok);
    Chain20(x, ok); Chain26(x, ok); Chain27(x, ok); Chain28(x, ok); Chain29(x, ok); Chain30(x, ok);
    Chain31(x, ok); Chain34(x, ok); Chain35(x, ok); Chain37(x, ok);
  }

  lemma Found5(x: Index, ok: nat -> bool)
    requires Entries(x) && Mixes(x) && FoundIsOk(x, ok)
    ensures forall i: nat {:trigger ok(i)} :: 100 <= i < 120 ==> ok(i)
  {
    Chain0(x, ok); Chain1(x, ok); Chain3(x, ok); Chain5(x, ok); Chain7(x, ok); Chain8(x, ok); Chain15(x, ok);
    Chain19(x, ok); Chain22(x, ok); Chain23(x, ok); Chain31(x, ok); Chain32(x, ok); Chain33(x, ok);
    Chain36(x, ok); Chain37(x, ok); Chain39(x, ok);
  }

  lemma AllFound(x: Index, ok: nat -> bool)
    requires Entries(x) && Mixes(x) && FoundIsOk(x, ok)
    ensures forall i: nat {:trigger ok(i)} :: i < SIZE ==> ok(i)
  {
    Found0(x, ok);
    Found1(x, ok);
    Found2(x, ok);
    Found3(x, ok);
    Found4(x, ok);
    Found5(x, ok);
  }
}
