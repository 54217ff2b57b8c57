/**
 sqlite4GetToken, the tokenizer that the renaming functions run on. A text of C ends in a byte 0, which is
 read here behind the last character.
 */
module SqlTokenizer {
  import opened KeywordIndex
  import opened KeywordTables
  import opened KeywordChains
  import opened SqliteKeywords
  import opened R = RenameText

  // ------------------------------------------------------------------------------------------
  // Characters
  // ------------------------------------------------------------------------------------------

  const NUL: char := '\0'

  function At(s: string, i: nat): char {
    if i < |s| then s[i] else NUL
  }

  predicate IsSpace(c: char) {
    c == ' ' || 9 <= c as int <= 13
  }

  predicate IsDigit(c: char) {
    '0' <= c <= '9'
  }

  predicate IsHex(c: char) {
    IsDigit(c) || 'a' <= c <= 'f' || 'A' <= c <= 'F'
  }

  predicate IdChar(c: char) {
    IsDigit(c) || 'a' <= c <= 'z' || 'A' <= c <= 'Z' || c == '_' || c == '$' || c as int >= 0x80
  }

  /** A space that starts a token; a vertical tab does not. */
  predicate Blank(c: char) {
    IsSpace(c) && c as int != 11
  }

  /** Where the characters that satisfy `p` end. */
  function Span(s: string, i: nat, p: char -> bool): (j: nat)
    requires i <= |s|
    ensures i <= j <= |s| && (forall k {:trigger s[k]} :: i <= k < j ==> p(s[k])) && (j < |s| ==> !p(s[j]))
    decreases |s| - i
  {
    if i < |s| && p(s[i]) then Span(s, i + 1, p) else i
  }

  method Scan(s: string, i: nat, p: char -> bool) returns (j: nat)
    requires i <= |s|
    ensures j == Span(s, i, p)
  {
    j := i;
    while j < |s| && p(s[j])
      invariant i <= j <= |s| && Span(s, j, p) == Span(s, i, p)
    {
      j := j + 1;
    }
  }

  // ------------------------------------------------------------------------------------------
  // Tokens of several characters
  // ------------------------------------------------------------------------------------------

  /** The end of a comment, which is behind the first star and slash, or at the end of the text. */
  function CommentEnd(s: string, i: nat): (j: nat)
    requires 0 < i <= |s|
    ensures i <= j <= |s|
    decreases |s| - i
  {
    if s[i - 1] == '*' && At(s, i) == '/' then i + 1
    else if At(s, i) == NUL then i
    else CommentEnd(s, i + 1)
  }

  method ScanComment(s: string) returns (i: nat)
    requires |s| >= 3 && s[2] != NUL
    ensures i == CommentEnd(s, 3)
  {
    i := 3;
    var c := s[2];
    while !(c == '*' && At(s, i) == '/') && At(s, i) != NUL
      invariant 3 <= i <= |s| && c == s[i - 1] && c != NUL && CommentEnd(s, i) == CommentEnd(s, 3)
      decreases |s| - i
    {
      c := At(s, i);
      i := i + 1;
    }
    if c == '*' && At(s, i) == '/' {
      i := i + 1;
    }
  }

  /** The closing quote, or the end of the text; a doubled quote does not close. */
  function QuoteEnd(s: string, i: nat, delim: char): (j: nat)
    requires i <= |s| && delim != NUL
    ensures i <= j <= |s| && (At(s, j) == NUL || (At(s, j) == delim && j < |s|))
    decreases |s| - i
  {
    if At(s, i) == NUL then i
    else if s[i] != delim then QuoteEnd(s, i + 1, delim)
    else if At(s, i + 1) == delim then QuoteEnd(s, i + 2, delim)
    else i
  }

  method ScanQuote(s: string, delim: char) returns (i: nat)
    requires |s| > 0 && delim != NUL
    ensures i == QuoteEnd(s, 1, delim)
  {
    i := 1;
    while At(s, i) != NUL
      invariant 1 <= i <= |s| && QuoteEnd(s, i, delim) == QuoteEnd(s, 1, delim)
      decreases |s| - i
    {
      if s[i] == delim {
        if At(s, i + 1) == delim {
          i := i + 1;
        } else {
          return;
        }
      }
      i := i + 1;
    }
  }

  function QuotedToken(s: string): (t: Length)
    requires |s| > 0 && s[0] != NUL
    ensures 1 <= t.len <= |s|
  {
    var i := QuoteEnd(s, 1, s[0]);
    if At(s, i) == NUL then Length(ILLEGAL, i) else Length(OTHER, i + 1)
  }

  predicate Exponent(s: string, i: nat) {
    && (At(s, i) == 'e' || At(s, i) == 'E')
    && (IsDigit(At(s, i + 1)) || ((At(s, i + 1) == '+' || At(s, i + 1) == '-') && IsDigit(At(s, i + 2))))
  }

  function FractionEnd(s: string, i: nat): (j: nat)
    requires i <= |s|
    ensures i <= j <= |s| && (At(s, i) == '.' ==> i < j)
  {
    if At(s, i) == '.' then Span(s, i + 1, IsDigit) else i
  }

  function ExponentEnd(s: string, i: nat): (j: nat)
    requires i <= |s|
    ensures i <= j <= |s|
  {
    if Exponent(s, i) then Span(s, i + 2, IsDigit) else i
  }

  /** A number that runs into an identifier is not one. */
  function NumberToken(s: string): (t: Length)
    requires |s| > 0 && (IsDigit(s[0]) || s[0] == '.')
    ensures 1 <= t.len <= |s|
  {
    var i := ExponentEnd(s, FractionEnd(s, Span(s, 0, IsDigit)));
    var end := Span(s, i, IdChar);
    Length(if end > i then ILLEGAL else OTHER, end)
  }

  method ScanNumber(s: string) returns (t: Length)
    requires |s| > 0 && (IsDigit(s[0]) || s[0] == '.')
    ensures t == NumberToken(s)
  {
    var whole := Scan(s, 0, IsDigit);
    var i := whole;
    if At(s, i) == '.' {
      i := Scan(s, i + 1, IsDigit);
    }
    assert i == FractionEnd(s, whole);
    if Exponent(s, i) {
      i := Scan(s, i + 2, IsDigit);
    }
    assert i == ExponentEnd(s, FractionEnd(s, whole));
    var end := Scan(s, i, IdChar);
    t := Length(if end > i then ILLEGAL else OTHER, end);
  }

  predicate InBrackets(c: char) {
    c != ']' && c != NUL
  }

  function BracketToken(s: string): (t: Length)
    requires |s| > 0
    ensures 1 <= t.len <= |s|
  {
    var i := Span(s, 1, InBrackets);
    if At(s, i) == ']' then Length(OTHER, i + 1) else Length(ILLEGAL, i)
  }

  predicate InParentheses(c: char) {
    c != NUL && !IsSpace(c) && c != ')'
  }

  /** A variable from `i` on; `named` after the first character of its name. */
  function VariableToken(s: string, i: nat, named: bool): (t: Length)
    requires 1 <= i <= |s|
    ensures i <= t.len <= |s|
    decreases |s| - i
  {
    if IdChar(At(s, i)) then VariableToken(s, i + 1, true)
    else if At(s, i) == '(' && named then
      var j := Span(s, i + 1, InParentheses);
      if At(s, j) == ')' then Length(OTHER, j + 1) else Length(ILLEGAL, j)
    else if At(s, i) == ':' && At(s, i + 1) == ':' then VariableToken(s, i + 2, named)
    else Length(if named then OTHER else ILLEGAL, i)
  }

  method ScanVariable(s: string) returns (t: Length)
    requires |s| > 0
    ensures t == VariableToken(s, 1, false)
  {
    var i, n := 1, 0;
    while At(s, i) != NUL
      invariant 1 <= i <= |s| && 0 <= n && VariableToken(s, i, n > 0) == VariableToken(s, 1, false)
      decreases |s| - i
    {
      var c := s[i];
      if IdChar(c) {
        n := n + 1;
      } else if c == '(' && n > 0 {
        i := Scan(s, i + 1, InParentheses);
        return if At(s, i) == ')' then Length(OTHER, i + 1) else Length(ILLEGAL, i);
      } else if c == ':' && At(s, i + 1) == ':' {
        i := i + 1;
      } else {
        break;
      }
      i := i + 1;
    }
    t := Length(if n == 0 then ILLEGAL else OTHER, i);
  }

  predicate BeforeQuote(c: char) {
    c != NUL && c != '\''
  }

  function BlobToken(s: string): (t: Length)
    requires |s| >= 2
    ensures 1 <= t.len <= |s|
  {
    var i := Span(s, 2, IsHex);
    if At(s, i) == '\'' && i % 2 == 0 then Length(OTHER, i + 1)
    else
      var j := Span(s, i, BeforeQuote);
      Length(ILLEGAL, if At(s, j) != NUL then j + 1 else j)
  }

  // ------------------------------------------------------------------------------------------
  // Words and operators
  // ------------------------------------------------------------------------------------------

  /** keywordCode */
  function WordCode(w: string): Code {
    KeywordsAreValid();
    Search(Keywords(), w, SIZE)
  }

  function KindOf(code: Code): Kind {
    if code == "REFERENCES" then REFERENCES
    else if code == "USING" then USING
    else if code == "ON" then ON
    else if code == "WHEN" then WHEN
    else if code == "FOR" then FOR
    else if code == "BEGIN" then BEGIN
    else OTHER
  }

  function WordToken(s: string): (t: Length)
    requires |s| > 0 && IdChar(s[0])
    ensures 1 <= t.len <= |s|
  {
    var i := Span(s, 1, IdChar);
    Length(KindOf(WordCode(s[..i])), i)
  }

  predicate BeforeNewline(c: char) {
    c != NUL && c != '\n'
  }

  /** An exclamation mark takes the next byte with it, whatever it is. */
  function OperatorToken(s: string): Length
    requires |s| > 0
  {
    var c, d := s[0], At(s, 1);
    if c == '(' then Length(LP, 1)
    else if c == '.' then Length(DOT, 1)
    else if c == '!' then Length(if d == '=' then OTHER else ILLEGAL, 2)
    else if c == '=' then Length(OTHER, if d == '=' then 2 else 1)
    else if c == '<' then Length(OTHER, if d == '=' || d == '>' || d == '<' then 2 else 1)
    else if c == '>' then Length(OTHER, if d == '=' || d == '>' then 2 else 1)
    else if c == '|' then Length(OTHER, if d == '|' then 2 else 1)
    else if c in "-);+*/%,&~" then Length(OTHER, 1)
    else Length(ILLEGAL, 1)
  }

  predicate LineComment(s: string) {
    At(s, 0) == '-' && At(s, 1) == '-'
  }

  predicate BlockComment(s: string) {
    At(s, 0) == '/' && At(s, 1) == '*' && At(s, 2) != NUL
  }

  /** The token that a text begins with. */
  function Token(s: string): Length {
    if s == "" then Length(ILLEGAL, 1)
    else if Blank(s[0]) then Length(SPACE, Span(s, 1, IsSpace))
    else if LineComment(s) then Length(SPACE, Span(s, 2, BeforeNewline))
    else if BlockComment(s) then Length(SPACE, CommentEnd(s, 3))
    else if s[0] == '\'' || s[0] == '"' then QuotedToken(s)
    else if IsDigit(s[0]) || (s[0] == '.' && IsDigit(At(s, 1))) then NumberToken(s)
    else if s[0] == '[' then BracketToken(s)
    else if s[0] == '?' || (s[0] == '#' && IsDigit(At(s, 1))) then Length(OTHER, Span(s, 1, IsDigit))
    else if s[0] in "#$@:" then VariableToken(s, 1, false)
    else if (s[0] == 'x' || s[0] == 'X') && At(s, 1) == '\'' then BlobToken(s)
    else if IdChar(s[0]) then WordToken(s)
    else OperatorToken(s)
  }

  method ScanBlob(s: string) returns (t: Length)
    requires |s| >= 2
    ensures t == BlobToken(s)
  {
    var i := Scan(s, 2, IsHex);
    var kind := OTHER;
    if At(s, i) != '\'' || i % 2 != 0 {
      kind := ILLEGAL;
      i := Scan(s, i, BeforeQuote);
    }
    t := Length(kind, if At(s, i) != NUL then i + 1 else i);
  }

  method ScanWord(s: string) returns (t: Length)
    requires |s| > 0 && IdChar(s[0])
    ensures t == WordToken(s)
  {
    var i := Scan(s, 1, IdChar);
    var code := SqliteKeywordCode(s[..i]);
    t := Length(KindOf(code), i);
  }

  /** sqlite4GetToken */
  method GetToken(s: string) returns (t: Length)
    ensures t == Token(s)
  {
    if s == "" {
      return Length(ILLEGAL, 1);
    }
    var i;
    if Blank(s[0]) {
      i := Scan(s, 1, IsSpace);
      t := Length(SPACE, i);
    } else if LineComment(s) {
      i := Scan(s, 2, BeforeNewline);
      t := Length(SPACE, i);
    } else if BlockComment(s) {
      i := ScanComment(s);
      t := Length(SPACE, i);
    } else if s[0] == '\'' || s[0] == '"' {
      i := ScanQuote(s, s[0]);
      t := if At(s, i) == NUL then Length(ILLEGAL, i) else Length(OTHER, i + 1);
    } else if IsDigit(s[0]) || (s[0] == '.' && IsDigit(At(s, 1))) {
      t := ScanNumber(s);
    } else if s[0] == '[' {
      i := Scan(s, 1, InBrackets);
      t := if At(s, i) == ']' then Length(OTHER, i + 1) else Length(ILLEGAL, i);
    } else if s[0] == '?' || (s[0] == '#' && IsDigit(At(s, 1))) {
      i := Scan(s, 1, IsDigit);
      t := Length(OTHER, i);
    } else if s[0] in "#$@:" {
      t := ScanVariable(s);
    } else if (s[0] == 'x' || s[0] == 'X') && At(s, 1) == '\'' {
      t := ScanBlob(s);
    } else if IdChar(s[0]) {
      t := ScanWord(s);
    } else {
      t := OperatorToken(s);
    }
  }

  // ------------------------------------------------------------------------------------------
  // Renaming with this tokenizer
  // ------------------------------------------------------------------------------------------

  /** Tokens are not empty, and exactly one text is shorter than its token: an exclamation mark at the
      end. */
  lemma TokenFits(s: string)
    ensures Token(s).len >= 1
    ensures s != "" ==> (Token(s).len > |s| <==> s == "!")
  {
    assert |s| == 1 && s[0] == '!' ==> s == "!";
  }

  function Sqlite(dequote: string -> string): Env {
    Env(Token, dequote)
  }

  /** What the renaming functions ask of a tokenizer holds of this one for every text. */
  lemma SqliteLexes(dequote: string -> string, z: string)
    ensures Lexer(Sqlite(dequote), z)
  {
    forall p: nat | p < |z|
      ensures Sqlite(dequote).get(z[p..]).len >= 1
    {
      TokenFits(z[p..]);
    }
  }

  /** The text ends in an exclamation mark that is a token of its own. */
  ghost predicate EndsInBang(env: Env, z: string)
    requires Lexer(env, z)
  {
    z != "" && z[|z| - 1] == '!' && Reaches(env, z, 0, |z| - 1)
  }

  lemma StepsOverBang(dequote: string -> string, z: string, q: nat)
    requires q < |z|
    ensures Over(Sqlite(dequote), z, q) <==> q == |z| - 1 && z[q] == '!'
  {
    TokenFits(z[q..]);
    assert z[q..] == "!" <==> |z[q..]| == 1 && z[q..][0] == '!';
  }

  /** Only an exclamation mark at the end reaches over it. */
  ghost predicate OnlyBangs(env: Env, z: string) {
    forall q: nat {:trigger Over(env, z, q)} :: q < |z| ==> (Over(env, z, q) <==> q == |z| - 1 && z[q] == '!')
  }

  lemma SqliteOnlyBangs(dequote: string -> string, z: string)
    ensures OnlyBangs(Sqlite(dequote), z)
  {
    forall q: nat | q < |z|
      ensures Over(Sqlite(dequote), z, q) <==> q == |z| - 1 && z[q] == '!'
    {
      StepsOverBang(dequote, z, q);
    }
  }

  lemma StepsOverIff(env: Env, z: string)
    requires Lexer(env, z) && OnlyBangs(env, z)
    ensures (exists q: nat :: StepsOver(env, z, q)) <==> EndsInBang(env, z)
  {
    if EndsInBang(env, z) {
      assert StepsOver(env, z, |z| - 1);
    }
  }

  /** renameParentFunc leaves the text exactly when the text ends in an exclamation mark that is a token
      of its own, or ends before the parent of a REFERENCES. */
  lemma ParentLeavesIff(dequote: string -> string, z: string, zOld: string, zNew: string)
    ensures var env := Sqlite(dequote);
            && Lexer(env, z)
            && (ParentOutcome(Job(env, z, zOld, zNew)) == Left <==>
                  EndsInBang(env, z) || Pending(Tokens(env, z, 0), |Tokens(env, z, 0)|, false))
  {
    SqliteLexes(dequote, z);
    LeavesIff(Sqlite(dequote), z, zOld, zNew);
    SqliteOnlyBangs(dequote, z);
    StepsOverIff(Sqlite(dequote), z);
    TokenFits("");
  }

  /** renameTableFunc and renameTriggerFunc leave the text exactly when it ends in an exclamation mark
      that is a token of its own and no word ends a table name. */
  lemma NameLeavesIff(dequote: string -> string, z: string, trigger: bool, zNew: string)
    ensures var env := Sqlite(dequote);
            && Lexer(env, z)
            && (NameOutcome(env, z, trigger, zNew) == Left <==>
                  EndsInBang(env, z) && !SomeEnds(Words(env, z, 0), trigger))
  {
    SqliteLexes(dequote, z);
    RenamedWhenFound(Sqlite(dequote), z, trigger, zNew);
    SqliteOnlyBangs(dequote, z);
    StepsOverIff(Sqlite(dequote), z);
  }

  /** All three functions leave the text that is one exclamation mark. */
  lemma BangLeaves(dequote: string -> string, trigger: bool, zOld: string, zNew: string)
    ensures var env := Sqlite(dequote);
            && Lexer(env, "!")
            && ParentOutcome(Job(env, "!", zOld, zNew)) == Left
            && NameOutcome(env, "!", trigger, zNew) == Left
  {
    var env, z := Sqlite(dequote), "!";
    ParentLeavesIff(dequote, z, zOld, zNew);
    NameLeavesIff(dequote, z, trigger, zNew);
    StepsOverBang(dequote, z, 0);
    WordsStep(env, z, 0);
    assert Words(env, z, 0) == [Word(ILLEGAL, 0, 2)];
  }

  /** A text of letters is one word, unless it could be a blob. */
  lemma WordIsToken(s: string)
    requires s != "" && s[0] != 'X' && forall k {:trigger s[k]} :: 0 <= k < |s| ==> 'A' <= s[k] <= 'Z'
    ensures Token(s) == Length(KindOf(WordCode(s)), |s|)
  {
    assert Span(s, 1, IdChar) == |s|;
    assert s[..|s|] == s;
  }

  lemma ReferencesToken(s: string)
    requires s == "REFERENCES"
    ensures Token(s) == Length(REFERENCES, 10)
  {
    WordIsToken(s);
    ReferencesIsKeyword();
  }

  /** renameParentFunc leaves a text that ends in REFERENCES. */
  lemma ReferencesLeaves(dequote: string -> string, zOld: string, zNew: string)
    ensures var env := Sqlite(dequote);
            && Lexer(env, "REFERENCES")
            && ParentOutcome(Job(env, "REFERENCES", zOld, zNew)) == Left
  {
    var env, z := Sqlite(dequote), "REFERENCES";
    ParentLeavesIff(dequote, z, zOld, zNew);
    ReferencesToken(z);
    assert z[0..] == z && Next(env, z, 0) == 10;
    assert Tokens(env, z, 10) == [];
    var ts := Tokens(env, z, 0);
    assert ts == [R.Token(REFERENCES, z[0..10])];
    assert Pending(ts, 0, false) == false && Pending(ts, 1, false);
  }
}
