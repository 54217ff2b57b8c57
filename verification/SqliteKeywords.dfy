/**
 SQLite's own keyword index gives the code that a search through its 120 keywords gives.
 */
module SqliteKeywords {
  import opened CaseFolding
  import opened KeywordIndex
  import opened KeywordTables
  import opened KeywordChains

  lemma KeywordsEntries()
    ensures Entries(Keywords()) && Mixes(Keywords())
  {
  }

  lemma LinksFit(i: nat)
    requires i < SIZE
    ensures NextAt(i) <= i && LenAt(i) >= 2
  {
  }

  lemma WordsFit(i: nat)
    requires i < SIZE
    ensures OffsetAt(i) + LenAt(i) <= TEXT_SIZE
  {
    var r, c := i / 13, i % 13;
    assert i == 13 * r + c && r < 10;
  }

  lemma EntriesFit(x: Index)
    requires Entries(x)
    ensures Fits(x)
  {
    forall i: nat | i < SIZE
      ensures EntryFits(x, i)
    {
      LinksFit(i);
      WordsFit(i);
    }
  }

  /** The tables of SQLite are valid: keywords lie in the text, chains descend, and every keyword is on
      the chain of its own hash. */
  lemma KeywordsAreValid()
    ensures Valid(Keywords())
  {
    var x := Keywords();
    KeywordsEntries();
    EntriesFit(x);
    var ok := (i: nat) => i < |x.aLen| && Sized(x) && EntryFound(x, i);
    AllFound(x, ok);
    forall i: nat | i < |x.aLen|
      ensures EntryFound(x, i)
    {
      assert ok(i);
    }
  }

  /** sqlite4KeywordCode: the code that a search through the 120 keywords gives. */
  method SqliteKeywordCode(z: string) returns (code: Code)
    ensures Valid(Keywords()) && code == Search(Keywords(), z, SIZE)
  {
    KeywordsAreValid();
    code := KeywordCode(Keywords(), z);
  }

  lemma ReferencesIsSpelled(x: Index)
    requires Entries(x) && Fits(x)
    ensures Spells(x, 37, "REFERENCES") && !Spells(x, 115, "REFERENCES") && !Spells(x, 60, "REFERENCES")
  {
    assert x.aOffset[37] == 142 && x.aLen[37] == 10;
    var w := Word(x, 37);
    assert w[0] == 'R' && w[1] == 'E' && w[2] == 'F' && w[3] == 'E' && w[4] == 'R';
    assert w[5] == 'E' && w[6] == 'N' && w[7] == 'C' && w[8] == 'E' && w[9] == 'S';
    assert w == "REFERENCES";
    assert |Word(x, 115)| == 5 && |Word(x, 60)| == 4;
    assert |Fold(Word(x, 115))| == 5 && |Fold(Word(x, 60))| == 4 && |Fold("REFERENCES")| == 10;
  }

  lemma ReferencesChain(x: Index, j: nat)
    requires Entries(x) && Mixes(x)
    ensures x.aHash[Hash(x, 'R', 'S', 10)] == 116
    ensures OnChain(x, 116, j) ==> j == 115 || j == 60 || OnChain(x, 38, j)
  {
    Mix8(x);
    assert CharMap('R') == 114 && CharMap('S') == 115;
    assert x.aHash[28] == 116 && x.aNext[115] == 61 && x.aNext[60] == 38;
    assert OnChain(x, 116, j) ==> j == 115 || OnChain(x, 61, j);
    assert OnChain(x, 61, j) ==> j == 60 || OnChain(x, 38, j);
  }

  lemma ReferencesIsFound(x: Index, z: string)
    requires Entries(x) && Mixes(x) && Valid(x) && z == "REFERENCES"
    ensures Search(x, z, SIZE) == x.aCode[37]
  {
    ReferencesIsSpelled(x);
    forall j: nat | Spells(x, j, z)
      ensures OnChain(x, 37 + 1, j)
    {
      SpelledIsOnChain(x, j, z);
      ReferencesChain(x, j);
    }
    NothingAbove(x, z, 37);
  }

  lemma ReferencesIsKeyword()
    ensures Valid(Keywords()) && Search(Keywords(), "REFERENCES", SIZE) == "REFERENCES"
  {
    KeywordsAreValid();
    KeywordsEntries();
    ReferencesIsFound(Keywords(), "REFERENCES");
    assert CodeAt(37) == "REFERENCES";
  }
}
