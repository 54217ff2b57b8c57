/**
 ALTER TABLE ... RENAME on stored SQL text: find the tokens that name the table and put the new name in
 their place, leaving every other byte alone.
 */
module RenameText {
  import opened Options
  import opened CaseFolding

  datatype Kind = SPACE | REFERENCES | LP | USING | DOT | ON | WHEN | FOR | BEGIN | ILLEGAL | OTHER

  datatype Length = Length(kind: Kind, len: nat)

  /** sqlite4GetToken and sqlite4Dequote. */
  datatype Env = Env(get: string -> Length, dequote: string -> string)

  /** No token of the text is empty, and the end of the text is an illegal token. A token may be longer
      than what is left of the text. */
  ghost predicate Lexer(env: Env, z: string) {
    && (forall p: nat {:trigger env.get(z[p..])} :: p < |z| ==> env.get(z[p..]).len >= 1)
    && env.get("").kind == ILLEGAL
  }

  /** The token at `p` reaches behind the end of the text. */
  predicate Over(env: Env, z: string, p: nat)
    requires p <= |z|
  {
    p < |z| && p + env.get(z[p..]).len > |z|
  }

  /** Where the next token starts, at most at the end of the text. */
  ghost function Next(env: Env, z: string, p: nat): (q: nat)
    requires Lexer(env, z) && p < |z|
    ensures p < q <= |z| && (!Over(env, z, p) ==> q == p + env.get(z[p..]).len)
  {
    if Over(env, z, p) then |z| else p + env.get(z[p..]).len
  }

  /** Reading token by token from `p` steps over the end of the text. */
  ghost predicate Overruns(env: Env, z: string, p: nat)
    requires Lexer(env, z) && p <= |z|
    decreases |z| - p
  {
    p < |z| && (Over(env, z, p) || Overruns(env, z, Next(env, z, p)))
  }

  /** Reading from `p` comes to a token at `q`. */
  ghost predicate Reaches(env: Env, z: string, p: nat, q: nat)
    requires Lexer(env, z) && p <= |z|
    decreases |z| - p
  {
    p < |z| && (p == q || Reaches(env, z, Next(env, z, p), q))
  }

  /** Reading the text comes to a token at `q` that reaches behind the end. */
  ghost predicate StepsOver(env: Env, z: string, q: nat)
    requires Lexer(env, z)
  {
    q < |z| && Reaches(env, z, 0, q) && Over(env, z, q)
  }

  lemma {:induction false} OverrunsAt(env: Env, z: string, p: nat, q: nat)
    requires Lexer(env, z) && p <= |z| && Reaches(env, z, p, q) && q < |z| && Over(env, z, q)
    ensures Overruns(env, z, p)
    decreases |z| - p
  {
    if p != q {
      OverrunsAt(env, z, Next(env, z, p), q);
    }
  }

  lemma {:induction false} OverrunningToken(env: Env, z: string, p: nat) returns (q: nat)
    requires Lexer(env, z) && p <= |z| && Overruns(env, z, p)
    ensures q < |z| && Reaches(env, z, p, q) && Over(env, z, q)
    decreases |z| - p
  {
    if Over(env, z, p) {
      q := p;
    } else {
      q := OverrunningToken(env, z, Next(env, z, p));
    }
  }

  /** What becomes of a text: the new text, NULL, or nothing, because the loop has gone on behind the end
      of the text. */
  datatype Outcome = Done(text: string) | NoName | Left

  /** The "%w" format: every quote is doubled. */
  function Doubled(s: string): string {
    if s == "" then "" else (if s[0] == '"' then "\"\"" else [s[0]]) + Doubled(s[1..])
  }

  function Quoted(name: string): string {
    "\"" + Doubled(name) + "\""
  }

  // ------------------------------------------------------------------------------------------
  // Parent tables of foreign keys
  // ------------------------------------------------------------------------------------------

  datatype Token = Token(kind: Kind, text: string)

  ghost function Tokens(env: Env, z: string, p: nat): seq<Token>
    requires Lexer(env, z) && p <= |z|
    decreases |z| - p
  {
    if p == |z| then []
    else
      var q := Next(env, z, p);
      [Token(env.get(z[p..]).kind, z[p..q])] + Tokens(env, z, q)
  }

  function Text(ts: seq<Token>): string {
    if ts == [] then "" else ts[0].text + Text(ts[1..])
  }

  /** Tokens cover the text without gaps. */
  lemma {:induction false} TokensCover(env: Env, z: string, p: nat)
    requires Lexer(env, z) && p <= |z|
    ensures Text(Tokens(env, z, p)) == z[p..]
    decreases |z| - p
  {
    if p < |z| {
      var q := Next(env, z, p);
      TokensCover(env, z, q);
      assert z[p..] == z[p..q] + z[q..];
    }
  }

  /** Whether token `i` is the parent that a REFERENCES before it waits for, or space in between. */
  predicate Pending(ts: seq<Token>, i: nat, waiting: bool)
    requires i <= |ts|
  {
    if i == 0 then waiting
    else if Pending(ts, i - 1, waiting) then ts[i - 1].kind == SPACE
    else ts[i - 1].kind == REFERENCES
  }

  /** A token names the old parent table. */
  predicate NamesParent(env: Env, t: Token, zOld: string) {
    t.kind != SPACE && SameName(zOld, env.dequote(t.text))
  }

  /** The token-wise map. */
  function NewText(env: Env, ts: seq<Token>, i: nat, waiting: bool, zOld: string, zNew: string): string
    requires i < |ts|
  {
    if Pending(ts, i, waiting) && NamesParent(env, ts[i], zOld) then Quoted(zNew) else ts[i].text
  }

  /** The text that the first `n` tokens turn into. */
  function Mapped(env: Env, ts: seq<Token>, n: nat, waiting: bool, zOld: string, zNew: string): string
    requires n <= |ts|
  {
    if n == 0 then "" else Mapped(env, ts, n - 1, waiting, zOld, zNew) + NewText(env, ts, n - 1, waiting, zOld, zNew)
  }

  /** The same, token by token from the front. */
  function Rewritten(env: Env, ts: seq<Token>, waiting: bool, zOld: string, zNew: string): string {
    if ts == [] then ""
    else if !waiting then ts[0].text + Rewritten(env, ts[1..], ts[0].kind == REFERENCES, zOld, zNew)
    else if ts[0].kind == SPACE then ts[0].text + Rewritten(env, ts[1..], true, zOld, zNew)
    else (if NamesParent(env, ts[0], zOld) then Quoted(zNew) else ts[0].text) + Rewritten(env, ts[1..], false, zOld, zNew)
  }

  function Waits(t: Token, waiting: bool): bool {
    if waiting then t.kind == SPACE else t.kind == REFERENCES
  }

  lemma {:induction false} PendingTail(ts: seq<Token>, i: nat, waiting: bool)
    requires 0 < i <= |ts|
    ensures Pending(ts, i, waiting) == Pending(ts[1..], i - 1, Waits(ts[0], waiting))
  {
    if i > 1 {
      PendingTail(ts, i - 1, waiting);
      assert ts[1..][i - 2] == ts[i - 1];
    }
  }

  lemma NewTextTail(env: Env, ts: seq<Token>, i: nat, waiting: bool, zOld: string, zNew: string)
    requires 0 < i < |ts|
    ensures NewText(env, ts, i, waiting, zOld, zNew) == NewText(env, ts[1..], i - 1, Waits(ts[0], waiting), zOld, zNew)
  {
    PendingTail(ts, i, waiting);
    assert ts[1..][i - 1] == ts[i];
  }

  lemma ConcatAssociative(a: string, b: string, c: string)
    ensures (a + b) + c == a + (b + c)
  {
  }

  lemma {:induction false} MappedTail(env: Env, ts: seq<Token>, n: nat, waiting: bool, zOld: string, zNew: string)
    requires 0 < n <= |ts|
    ensures Mapped(env, ts, n, waiting, zOld, zNew) ==
            NewText(env, ts, 0, waiting, zOld, zNew) + Mapped(env, ts[1..], n - 1, Waits(ts[0], waiting), zOld, zNew)
  {
    if n > 1 {
      MappedTail(env, ts, n - 1, waiting, zOld, zNew);
      NewTextTail(env, ts, n - 1, waiting, zOld, zNew);
      ConcatAssociative(NewText(env, ts, 0, waiting, zOld, zNew),
                        Mapped(env, ts[1..], n - 2, Waits(ts[0], waiting), zOld, zNew),
                        NewText(env, ts, n - 1, waiting, zOld, zNew));
    }
  }

  lemma {:induction false} RewrittenIsMapped(env: Env, ts: seq<Token>, waiting: bool, zOld: string, zNew: string)
    ensures Rewritten(env, ts, waiting, zOld, zNew) == Mapped(env, ts, |ts|, waiting, zOld, zNew)
  {
    if ts != [] {
      RewrittenIsMapped(env, ts[1..], Waits(ts[0], waiting), zOld, zNew);
      MappedTail(env, ts, |ts|, waiting, zOld, zNew);
    }
  }

  /** Some token that is not a space follows each REFERENCES. */
  predicate ParentsPresent(ts: seq<Token>, waiting: bool) {
    if ts == [] then !waiting else ParentsPresent(ts[1..], Waits(ts[0], waiting))
  }

  /** What the text from `p` on turns into. */
  ghost function Rest(env: Env, z: string, p: nat, waiting: bool, zOld: string, zNew: string): string
    requires Lexer(env, z) && p <= |z|
  {
    Rewritten(env, Tokens(env, z, p), waiting, zOld, zNew)
  }

  ghost predicate Present(env: Env, z: string, p: nat, waiting: bool)
    requires Lexer(env, z) && p <= |z|
  {
    ParentsPresent(Tokens(env, z, p), waiting)
  }

  /** One token of the text. */
  lemma RestStep(env: Env, z: string, p: nat, waiting: bool, zOld: string, zNew: string)
    requires Lexer(env, z) && p < |z|
    ensures var q := Next(env, z, p);
            var token := Token(env.get(z[p..]).kind, z[p..q]);
            && Present(env, z, p, waiting) == Present(env, z, q, Waits(token, waiting))
            && Rest(env, z, p, waiting, zOld, zNew) ==
               (if waiting && NamesParent(env, token, zOld) then Quoted(zNew) else token.text)
               + Rest(env, z, q, Waits(token, waiting), zOld, zNew)
  {
    var q := Next(env, z, p);
    var ts := Tokens(env, z, p);
    assert ts[0] == Token(env.get(z[p..]).kind, z[p..q]) && ts[1..] == Tokens(env, z, q);
  }

  /** The rewriting in progress: `zOutput` and the input from `from` up to `p` are the beginning of the
      result. */
  datatype Job = Job(env: Env, z: string, zOld: string, zNew: string)

  ghost predicate Progress(job: Job, zOutput: string, from: nat, p: nat, waiting: bool) {
    && Lexer(job.env, job.z) && from <= p <= |job.z|
    && Overruns(job.env, job.z, p) == Overruns(job.env, job.z, 0)
    && Present(job.env, job.z, p, waiting) == Present(job.env, job.z, 0, false)
    && zOutput + job.z[from..p] + Rest(job.env, job.z, p, waiting, job.zOld, job.zNew)
       == Rest(job.env, job.z, 0, false, job.zOld, job.zNew)
  }

  lemma Extend(done: string, z: string, from: nat, p: nat, q: nat, rest: string)
    requires from <= p <= q <= |z|
    ensures done + z[from..p] + (z[p..q] + rest) == done + z[from..q] + rest
  {
    assert z[from..q] == z[from..p] + z[p..q];
  }

  lemma Insert(done: string, z: string, from: nat, p: nat, q: nat, name: string, rest: string)
    requires from <= p <= q <= |z|
    ensures done + z[from..p] + (name + rest) == (done + z[from..p] + name) + z[q..q] + rest
  {
    assert z[q..q] == "";
  }

  lemma KeepRest(job: Job, p: nat, q: nat, waiting: bool, t: Token)
    requires Lexer(job.env, job.z) && p < |job.z| && q == Next(job.env, job.z, p)
    requires t == Token(job.env.get(job.z[p..]).kind, job.z[p..q]) && !(waiting && NamesParent(job.env, t, job.zOld))
    ensures Present(job.env, job.z, p, waiting) == Present(job.env, job.z, q, Waits(t, waiting))
    ensures Rest(job.env, job.z, p, waiting, job.zOld, job.zNew) ==
            job.z[p..q] + Rest(job.env, job.z, q, Waits(t, waiting), job.zOld, job.zNew)
  {
    RestStep(job.env, job.z, p, waiting, job.zOld, job.zNew);
  }

  /** A token that stays as it is. */
  lemma KeepToken(job: Job, zOutput: string, from: nat, p: nat, waiting: bool)
    requires Progress(job, zOutput, from, p, waiting) && p < |job.z| && !Over(job.env, job.z, p)
    requires var t := job.env.get(job.z[p..]);
             !(waiting && NamesParent(job.env, Token(t.kind, job.z[p..p + t.len]), job.zOld))
    ensures var t := job.env.get(job.z[p..]);
            Progress(job, zOutput, from, p + t.len, Waits(Token(t.kind, job.z[p..p + t.len]), waiting))
  {
    var q := Next(job.env, job.z, p);
    var t := Token(job.env.get(job.z[p..]).kind, job.z[p..q]);
    KeepRest(job, p, q, waiting, t);
    Extend(zOutput, job.z, from, p, q, Rest(job.env, job.z, q, Waits(t, waiting), job.zOld, job.zNew));
  }

  /** A parent that gets its new name. */
  lemma ReplaceToken(job: Job, zOutput: string, from: nat, p: nat)
    requires Progress(job, zOutput, from, p, true) && p < |job.z| && !Over(job.env, job.z, p)
    requires var t := job.env.get(job.z[p..]);
             NamesParent(job.env, Token(t.kind, job.z[p..p + t.len]), job.zOld)
    ensures var q := p + job.env.get(job.z[p..]).len;
            Progress(job, zOutput + job.z[from..p] + Quoted(job.zNew), q, q, false)
  {
    var q := Next(job.env, job.z, p);
    RestStep(job.env, job.z, p, true, job.zOld, job.zNew);
    Insert(zOutput, job.z, from, p, q, Quoted(job.zNew), Rest(job.env, job.z, q, false, job.zOld, job.zNew));
  }

  /** The loop to the parent after a REFERENCES; at the end of the text there is none. */
  method SkipSpace(job: Job, p: nat, ghost zOutput: string, ghost from: nat) returns (q: nat, n: nat, left: bool)
    requires Progress(job, zOutput, from, p, true)
    ensures left ==> Overruns(job.env, job.z, 0)
    ensures !left ==> p <= q <= |job.z| && job.env.get(job.z[q..]).kind != SPACE && n == job.env.get(job.z[q..]).len
    ensures !left ==> Progress(job, zOutput, from, q, true)
  {
    q, left := p, false;
    assert job.z[|job.z|..] == "";
    var t := job.env.get(job.z[q..]);
    while t.kind == SPACE
      invariant p <= q <= |job.z| && t == job.env.get(job.z[q..]) && Progress(job, zOutput, from, q, true)
      decreases |job.z| - q
    {
      if q + t.len > |job.z| {
        return q, 0, true;
      }
      KeepToken(job, zOutput, from, q, true);
      q := q + t.len;
      t := job.env.get(job.z[q..]);
    }
    n := t.len;
  }

  /** What a REFERENCES at the end of the text adds: the empty text is taken for the parent. */
  ghost function AtEnd(job: Job): string
    requires Lexer(job.env, job.z)
  {
    if !Present(job.env, job.z, 0, false) && SameName(job.zOld, job.env.dequote("")) then Quoted(job.zNew) else ""
  }

  /** The text read so far, when there is nothing left of it. */
  ghost predicate Finished(job: Job, zOutput: string, from: nat) {
    && Lexer(job.env, job.z) && from <= |job.z|
    && zOutput + job.z[from..] == Rest(job.env, job.z, 0, false, job.zOld, job.zNew) + AtEnd(job)
  }

  /** The end of the text, with and without a REFERENCES that waits. */
  lemma EndFinishes(job: Job, zOutput: string, from: nat, waiting: bool)
    requires Progress(job, zOutput, from, |job.z|, waiting)
    ensures Present(job.env, job.z, 0, false) == !waiting && !Overruns(job.env, job.z, 0)
    ensures zOutput + job.z[from..] == Rest(job.env, job.z, 0, false, job.zOld, job.zNew)
  {
    assert Tokens(job.env, job.z, |job.z|) == [];
    assert job.z[from..|job.z|] == job.z[from..];
  }

  lemma LastFinishes(job: Job, zOutput: string, from: nat)
    requires Progress(job, zOutput, from, |job.z|, true)
    ensures !Present(job.env, job.z, 0, false) && !Overruns(job.env, job.z, 0)
    ensures if SameName(job.zOld, job.env.dequote("")) then Finished(job, zOutput + job.z[from..] + Quoted(job.zNew), |job.z|)
            else Finished(job, zOutput, from)
  {
    EndFinishes(job, zOutput, from, true);
    var rest := Rest(job.env, job.z, 0, false, job.zOld, job.zNew);
    assert job.z[|job.z|..] == "" && rest + "" == rest;
  }

  /** The loop goes on behind the end of the text: some token reaches over it, or a REFERENCES waits at
      the end and the tokenizer gives the end a length. */
  ghost predicate Leaves(job: Job)
    requires Lexer(job.env, job.z)
  {
    Overruns(job.env, job.z, 0) || (!Present(job.env, job.z, 0, false) && job.env.get("").len > 0)
  }

  ghost function ParentOutcome(job: Job): Outcome
    requires Lexer(job.env, job.z)
  {
    if Leaves(job) then Left else Done(Rest(job.env, job.z, 0, false, job.zOld, job.zNew) + AtEnd(job))
  }

  /** How far the parents have been renamed: up to `p`, to the end of the text, or too far. */
  datatype Status = Going | Ended | Lost

  /** The parent after a REFERENCES, or, when the text ends before there is one, what is at its end. */
  method RenameNext(job: Job, zOutput: string, from: nat, p: nat)
    returns (zOutput': string, from': nat, p': nat, status: Status)
    requires Progress(job, zOutput, from, p, true)
    ensures status == Going ==> p < p' && Progress(job, zOutput', from', p', false)
    ensures status == Ended ==> Finished(job, zOutput', from') && !Leaves(job)
    ensures status == Lost ==> Leaves(job)
  {
    zOutput', from' := zOutput, from;
    var q, n, left := SkipSpace(job, p, zOutput, from);
    p' := q + n;
    if left || (q < |job.z| && p' > |job.z|) {
      return zOutput, from, p', Lost;
    }
    status := if q < |job.z| then Going else if n > 0 then Lost else Ended;
    if q == |job.z| {
      assert job.z[q..] == "" && job.z[from..q] == job.z[from..];
      LastFinishes(job, zOutput, from);
    }
    var zParent := job.env.dequote(if q < |job.z| then job.z[q..p'] else "");
    if SameName(job.zOld, zParent) {
      if q < |job.z| {
        ReplaceToken(job, zOutput, from, q);
      }
      zOutput', from' := zOutput + job.z[from..q] + Quoted(job.zNew), p';
    } else if q < |job.z| {
      KeepToken(job, zOutput, from, q, true);
    }
  }

  /** renameParentFunc */
  method RenameParent(env: Env, zInput: string, zOld: string, zNew: string) returns (result: Outcome)
    requires Lexer(env, zInput)
    ensures result == ParentOutcome(Job(env, zInput, zOld, zNew))
  {
    var job := Job(env, zInput, zOld, zNew);
    var zOutput, from, p, status := "", 0, 0, Going;
    assert zInput[0..0] == "";
    while status == Going && p < |zInput|
      invariant 0 <= from && 0 <= p
      invariant status == Going ==> Progress(job, zOutput, from, p, false)
      invariant status == Ended ==> Finished(job, zOutput, from) && !Leaves(job)
      invariant status == Lost ==> Leaves(job)
      decreases status == Going, |zInput| - p
    {
      var t := env.get(zInput[p..]);
      if p + t.len > |zInput| {
        status := Lost;
      } else {
        KeepToken(job, zOutput, from, p, false);
        p := p + t.len;
        if t.kind == REFERENCES {
          zOutput, from, p, status := RenameNext(job, zOutput, from, p);
        }
      }
    }
    if status == Lost {
      return Left;
    }
    if status == Going {
      EndFinishes(job, zOutput, from, false);
      assert zOutput + zInput[from..] + "" == zOutput + zInput[from..];
    }
    result := Done(zOutput + zInput[from..]);
  }

  /** The loop leaves the text exactly when it comes to a token that reaches over the end, or comes to
      the end while a REFERENCES waits and the end has a length. */
  lemma LeavesIff(env: Env, z: string, zOld: string, zNew: string)
    requires Lexer(env, z)
    ensures ParentOutcome(Job(env, z, zOld, zNew)) == Left <==>
            || (exists q: nat :: StepsOver(env, z, q))
            || (Pending(Tokens(env, z, 0), |Tokens(env, z, 0)|, false) && env.get("").len > 0)
  {
    PresentIsPending(Tokens(env, z, 0), false);
    OverrunsIff(env, z);
  }

  lemma OverrunsIff(env: Env, z: string)
    requires Lexer(env, z)
    ensures Overruns(env, z, 0) <==>
            exists q: nat :: StepsOver(env, z, q)
  {
    if Overruns(env, z, 0) {
      var q := OverrunningToken(env, z, 0);
      assert StepsOver(env, z, q);
    } else if q: nat :| StepsOver(env, z, q) {
      OverrunsAt(env, z, 0, q);
    }
  }

  lemma {:induction false} PresentIsPending(ts: seq<Token>, waiting: bool)
    ensures ParentsPresent(ts, waiting) == !Pending(ts, |ts|, waiting)
  {
    if ts != [] {
      PresentIsPending(ts[1..], Waits(ts[0], waiting));
      PendingTail(ts, |ts|, waiting);
    }
  }

  /** Exactly the first token that is not a space after each REFERENCES is replaced, and only if it is
      the old name; every other byte is preserved. */
  lemma ParentsAreMapped(env: Env, z: string, zOld: string, zNew: string)
    requires Lexer(env, z)
    ensures var ts := Tokens(env, z, 0);
            && Text(ts) == z
            && Rest(env, z, 0, false, zOld, zNew) == Mapped(env, ts, |ts|, false, zOld, zNew)
  {
    TokensCover(env, z, 0);
    RewrittenIsMapped(env, Tokens(env, z, 0), false, zOld, zNew);
  }

  // ------------------------------------------------------------------------------------------
  // The table of a CREATE TABLE, CREATE INDEX or CREATE TRIGGER
  // ------------------------------------------------------------------------------------------

  /** A token that is not a space, and where it is. */
  datatype Word = Word(kind: Kind, start: nat, len: nat)

  ghost function Words(env: Env, z: string, p: nat): seq<Word>
    requires Lexer(env, z) && p <= |z|
    decreases |z| - p
  {
    if p == |z| then []
    else
      var t := env.get(z[p..]);
      (if t.kind == SPACE then [] else [Word(t.kind, p, t.len)]) + Words(env, z, Next(env, z, p))
  }

  predicate Opens(kind: Kind) {
    kind == LP || kind == USING
  }

  predicate Qualifies(kind: Kind) {
    kind == DOT || kind == ON
  }

  predicate Follows(kind: Kind) {
    kind == WHEN || kind == FOR || kind == BEGIN
  }

  /** Word `i` comes right after the table name of a CREATE TABLE or CREATE INDEX. */
  predicate TableEnds(ws: seq<Word>, i: nat)
    requires i < |ws|
  {
    Opens(ws[i].kind)
  }

  /** Word `i` comes right after the table name of a CREATE TRIGGER. */
  predicate TriggerEnds(ws: seq<Word>, i: nat)
    requires i < |ws|
  {
    i >= 2 && Follows(ws[i].kind) && Qualifies(ws[i - 2].kind) && !Qualifies(ws[i - 1].kind)
  }

  predicate Ends(ws: seq<Word>, trigger: bool, i: nat)
    requires i < |ws|
  {
    if trigger then TriggerEnds(ws, i) else TableEnds(ws, i)
  }

  /** The first word at or after `i` that ends the name, or the number of words. */
  function FirstEnd(ws: seq<Word>, trigger: bool, i: nat): (r: nat)
    requires i <= |ws|
    ensures i <= r <= |ws|
    decreases |ws| - i
  {
    if i == |ws| || Ends(ws, trigger, i) then i else FirstEnd(ws, trigger, i + 1)
  }

  lemma {:induction false} FirstEndIsFirst(ws: seq<Word>, trigger: bool, i: nat)
    requires i <= |ws|
    ensures var r := FirstEnd(ws, trigger, i);
            && (r < |ws| ==> Ends(ws, trigger, r))
            && forall j {:trigger Ends(ws, trigger, j)} :: i <= j < r ==> !Ends(ws, trigger, j)
    decreases |ws| - i
  {
    if i < |ws| && !Ends(ws, trigger, i) {
      FirstEndIsFirst(ws, trigger, i + 1);
    }
  }

  /** The text with the new name in place of `len` bytes. */
  function Spliced(z: string, start: nat, len: nat, name: string): string
    requires start + len <= |z|
  {
    z[..start] + Quoted(name) + z[start + len..]
  }

  /** The word before the first end gets the new name; without a word before it the name goes to the
      front, and without an end there is no result. */
  function Renamed(z: string, ws: seq<Word>, trigger: bool, zNew: string): Option<string> {
    var r := FirstEnd(ws, trigger, 0);
    if r == |ws| then None
    else if r == 0 then Some(Spliced(z, 0, 0, zNew))
    else if ws[r - 1].start + ws[r - 1].len <= |z| then Some(Spliced(z, ws[r - 1].start, ws[r - 1].len, zNew))
    else None
  }

  /** Words read since the last DOT or ON, as the code counts them. */
  function Distance(ws: seq<Word>, n: nat): nat
    requires n <= |ws|
  {
    if n == 0 then 3 else if Qualifies(ws[n - 1].kind) then 0 else Distance(ws, n - 1) + 1
  }

  lemma DistanceIsTwo(ws: seq<Word>, i: nat)
    requires i < |ws| && Follows(ws[i].kind)
    ensures Distance(ws, i + 1) == 2 <==> TriggerEnds(ws, i)
  {
    assert i >= 1 ==> Distance(ws, i) == if Qualifies(ws[i - 1].kind) then 0 else Distance(ws, i - 1) + 1;
    assert i >= 2 ==> Distance(ws, i - 1) == if Qualifies(ws[i - 2].kind) then 0 else Distance(ws, i - 2) + 1;
  }

  lemma WordsStep(env: Env, z: string, p: nat)
    requires Lexer(env, z) && p < |z|
    ensures var t, q := env.get(z[p..]), Next(env, z, p);
            && t.len >= 1
            && (t.kind == SPACE ==> Words(env, z, p) == Words(env, z, q))
            && (t.kind != SPACE ==> Words(env, z, p) == [Word(t.kind, p, t.len)] + Words(env, z, q))
            && Overruns(env, z, p) == (Over(env, z, p) || Overruns(env, z, q))
  {
  }

  /** The inner loop: advance to the next token that is not a space. `rest` are the words to come. */
  method NextWord(env: Env, z: string, p: nat, ghost rest: seq<Word>)
    returns (csr: nat, len: nat, kind: Kind, left: bool)
    requires Lexer(env, z) && p <= |z| && Words(env, z, p) == rest
    ensures left ==> rest == [] && Overruns(env, z, p)
    ensures !left ==> p <= csr <= |z| && Overruns(env, z, csr) == Overruns(env, z, p)
    ensures !left && rest == [] ==> csr == |z| && kind == ILLEGAL
    ensures !left && rest != [] ==> csr < |z| && len == env.get(z[csr..]).len
    ensures !left && rest != [] ==> rest == [Word(kind, csr, len)] + Words(env, z, Next(env, z, csr))
  {
    assert z[|z|..] == "";
    csr, left := p, false;
    var t := env.get(z[csr..]);
    while t.kind == SPACE
      invariant p <= csr <= |z| && t == env.get(z[csr..]) && Words(env, z, csr) == rest
      invariant Overruns(env, z, csr) == Overruns(env, z, p)
      decreases |z| - csr
    {
      WordsStep(env, z, csr);
      if csr + t.len > |z| {
        return csr, 0, SPACE, true;
      }
      csr := csr + t.len;
      t := env.get(z[csr..]);
    }
    len, kind := t.len, t.kind;
    if csr < |z| {
      WordsStep(env, z, csr);
    }
  }

  /** Where the scan stands: `n` words have been read, the last of them at `csr`; at the end of the
      text all of them have. */
  ghost predicate At(env: Env, z: string, ws: seq<Word>, n: nat, csr: nat, len: nat) {
    && Lexer(env, z) && n <= |ws| && csr <= |z|
    && Overruns(env, z, csr) == Overruns(env, z, 0)
    && (csr == |z| ==> n == |ws|)
    && (csr < |z| ==>
          if n == 0 then csr == len == 0 && Words(env, z, 0) == ws
          else && ws[n - 1].start == csr && ws[n - 1].len == len == env.get(z[csr..]).len
               && Words(env, z, Next(env, z, csr)) == ws[n..])
  }

  /** Read one more word. */
  method Advance(env: Env, z: string, csr: nat, len: nat, ghost ws: seq<Word>, ghost n: nat)
    returns (csr': nat, len': nat, kind: Kind, left: bool)
    requires At(env, z, ws, n, csr, len) && csr < |z|
    ensures left ==> n == |ws| && Overruns(env, z, 0)
    ensures !left && n == |ws| ==> csr' == |z| && kind == ILLEGAL && !Overruns(env, z, 0)
    ensures !left && n < |ws| ==> csr' < |z| && kind == ws[n].kind && At(env, z, ws, n + 1, csr', len')
  {
    if csr + len > |z| {
      return csr, len, ILLEGAL, true;
    }
    assert ws[0..] == ws;
    csr', len', kind, left := NextWord(env, z, csr + len, ws[n..]);
    if n < |ws| {
      assert ws[n..][0] == ws[n] && ws[n..][1..] == ws[n + 1..];
    }
  }

  /** The last word read is the table name; it lies in the text, as another one follows. */
  lemma Found(env: Env, z: string, trigger: bool, ws: seq<Word>, n: nat, csr: nat, len: nat, zNew: string)
    requires At(env, z, ws, n, csr, len) && csr < |z| && n < |ws| && FirstEnd(ws, trigger, 0) == n
    ensures csr + len <= |z| && Renamed(z, ws, trigger, zNew) == Some(Spliced(z, csr, len, zNew))
  {
    assert Words(env, z, |z|) == [];
  }

  /** What becomes of the text of a CREATE TABLE or CREATE INDEX, or of a CREATE TRIGGER. */
  ghost function NameOutcome(env: Env, z: string, trigger: bool, zNew: string): Outcome
    requires Lexer(env, z)
  {
    match Renamed(z, Words(env, z, 0), trigger, zNew)
    case Some(text) => Done(text)
    case None => if Overruns(env, z, 0) then Left else NoName
  }

  /** renameTableFunc */
  method RenameTable(env: Env, zSql: string, zTableName: string) returns (result: Outcome)
    requires Lexer(env, zSql)
    ensures result == NameOutcome(env, zSql, false, zTableName)
  {
    ghost var ws, n := Words(env, zSql, 0), 0;
    var zCsr, len := 0, 0;
    while zCsr < |zSql|
      invariant 0 <= zCsr && 0 <= len && 0 <= n && At(env, zSql, ws, n, zCsr, len)
      invariant FirstEnd(ws, false, 0) == FirstEnd(ws, false, n)
      decreases |ws| - n, |zSql| - zCsr
    {
      var start, size := zCsr, len;
      var token, left;
      zCsr, len, token, left := Advance(env, zSql, zCsr, len, ws, n);
      if left {
        return Left;
      }
      if Opens(token) {
        Found(env, zSql, false, ws, n, start, size, zTableName);
        return Done(Spliced(zSql, start, size, zTableName));
      }
      n := if n < |ws| then n + 1 else n;
    }
    return NoName;
  }

  lemma EndsByDistance(ws: seq<Word>, i: nat)
    requires i < |ws|
    ensures Ends(ws, true, i) <==> Distance(ws, i + 1) == 2 && Follows(ws[i].kind)
  {
    if Follows(ws[i].kind) {
      DistanceIsTwo(ws, i);
    }
  }

  /** Read one more word and count the words since the last DOT or ON. */
  method AdvanceAndCount(env: Env, z: string, csr: nat, len: nat, dist: nat, ghost ws: seq<Word>, ghost n: nat)
    returns (csr': nat, len': nat, kind: Kind, dist': nat, left: bool)
    requires At(env, z, ws, n, csr, len) && csr < |z| && dist == Distance(ws, n)
    ensures left ==> n == |ws| && Overruns(env, z, 0)
    ensures !left && n == |ws| ==> csr' == |z| && !Follows(kind) && !Overruns(env, z, 0)
    ensures !left && n < |ws| ==> csr' < |z| && At(env, z, ws, n + 1, csr', len') && dist' == Distance(ws, n + 1)
    ensures !left && n < |ws| ==> (dist' == 2 && Follows(kind) <==> Ends(ws, true, n))
  {
    csr', len', kind, left := Advance(env, z, csr, len, ws, n);
    dist' := if Qualifies(kind) then 0 else dist + 1;
    if n < |ws| {
      EndsByDistance(ws, n);
    }
  }

  /** renameTriggerFunc */
  method RenameTrigger(env: Env, zSql: string, zTableName: string) returns (result: Outcome)
    requires Lexer(env, zSql)
    ensures result == NameOutcome(env, zSql, true, zTableName)
  {
    ghost var ws, n := Words(env, zSql, 0), 0;
    var zCsr, len, dist := 0, 0, 3;
    while zCsr < |zSql|
      invariant 0 <= zCsr && 0 <= len && 0 <= n && 0 <= dist && At(env, zSql, ws, n, zCsr, len)
      invariant FirstEnd(ws, true, 0) == FirstEnd(ws, true, n)
      invariant zCsr < |zSql| ==> dist == Distance(ws, n)
      decreases |ws| - n, |zSql| - zCsr
    {
      var start, size := zCsr, len;
      var token, left;
      zCsr, len, token, dist, left := AdvanceAndCount(env, zSql, zCsr, len, dist, ws, n);
      if left {
        return Left;
      }
      if dist == 2 && Follows(token) {
        Found(env, zSql, true, ws, n, start, size, zTableName);
        return Done(Spliced(zSql, start, size, zTableName));
      }
      n := if n < |ws| then n + 1 else n;
    }
    return NoName;
  }

  /** Words are not spaces, start in the text from `p` to `end`, and lie one after the other; the last
      one may reach over the end. */
  ghost predicate InPlace(ws: seq<Word>, p: nat, end: nat) {
    && (forall i {:trigger ws[i]} :: 0 <= i < |ws| ==> ws[i].kind != SPACE && ws[i].len > 0 && p <= ws[i].start < end)
    && (forall i, j {:trigger ws[i], ws[j]} :: 0 <= i < j < |ws| ==> ws[i].start + ws[i].len <= ws[j].start)
  }

  lemma InPlaceEarlier(ws: seq<Word>, p: nat, q: nat, end: nat)
    requires InPlace(ws, q, end) && p <= q
    ensures InPlace(ws, p, end)
  {
  }

  lemma InPlaceFirst(w: Word, ws: seq<Word>, q: nat, end: nat)
    requires InPlace(ws, q, end) && w.kind != SPACE && w.len > 0 && w.start < end && (ws != [] ==> q == w.start + w.len)
    ensures InPlace([w] + ws, w.start, end)
  {
  }

  lemma InPlaceStep(t: Length, p: nat, q: nat, rest: seq<Word>, ws: seq<Word>, end: nat)
    requires t.len > 0 && p < q <= end && InPlace(rest, q, end) && (rest != [] ==> q == p + t.len)
    requires ws == if t.kind == SPACE then rest else [Word(t.kind, p, t.len)] + rest
    ensures InPlace(ws, p, end)
  {
    if t.kind == SPACE {
      InPlaceEarlier(rest, p, q, end);
    } else {
      InPlaceFirst(Word(t.kind, p, t.len), rest, q, end);
    }
  }

  lemma {:induction false} WordsInPlace(env: Env, z: string, p: nat)
    requires Lexer(env, z) && p <= |z|
    ensures InPlace(Words(env, z, p), p, |z|)
    decreases |z| - p
  {
    if p < |z| {
      WordsStep(env, z, p);
      var q := Next(env, z, p);
      WordsInPlace(env, z, q);
      assert Words(env, z, |z|) == [];
      InPlaceStep(env.get(z[p..]), p, q, Words(env, z, q), Words(env, z, p), |z|);
    }
  }

  /** Some word ends a table name. */
  ghost predicate SomeEnds(ws: seq<Word>, trigger: bool) {
    exists i {:trigger Ends(ws, trigger, i)} :: 0 <= i < |ws| && Ends(ws, trigger, i)
  }

  lemma SomeEndsIff(ws: seq<Word>, trigger: bool)
    ensures SomeEnds(ws, trigger) <==> FirstEnd(ws, trigger, 0) < |ws|
  {
    FirstEndIsFirst(ws, trigger, 0);
    var r := FirstEnd(ws, trigger, 0);
    assert r < |ws| ==> Ends(ws, trigger, r);
  }

  /** The word before the end lies in the text, as another one follows. */
  lemma RenamedIff(z: string, ws: seq<Word>, trigger: bool, zNew: string)
    requires InPlace(ws, 0, |z|)
    ensures Renamed(z, ws, trigger, zNew).Some? <==> FirstEnd(ws, trigger, 0) < |ws|
  {
    FirstEndIsFirst(ws, trigger, 0);
    var r := FirstEnd(ws, trigger, 0);
    assert 0 < r < |ws| ==> ws[r - 1].start + ws[r - 1].len <= ws[r].start;
  }

  /** There is a new text exactly when some word ends a table name, and then the first such word
      decides. Without one the loop leaves the text exactly when it comes to a token that reaches over
      the end, and the result is NULL otherwise. */
  lemma RenamedWhenFound(env: Env, z: string, trigger: bool, zNew: string)
    requires Lexer(env, z)
    ensures var ws := Words(env, z, 0);
            var r := FirstEnd(ws, trigger, 0);
            && (NameOutcome(env, z, trigger, zNew).Done? <==> SomeEnds(ws, trigger))
            && (r < |ws| ==> Ends(ws, trigger, r))
            && (forall i {:trigger Ends(ws, trigger, i)} :: 0 <= i < r ==> !Ends(ws, trigger, i))
            && (NameOutcome(env, z, trigger, zNew) == Left <==>
                  !SomeEnds(ws, trigger) && exists q: nat :: StepsOver(env, z, q))
  {
    var ws := Words(env, z, 0);
    WordsInPlace(env, z, 0);
    RenamedIff(z, ws, trigger, zNew);
    SomeEndsIff(ws, trigger);
    FirstEndIsFirst(ws, trigger, 0);
    OverrunsIff(env, z);
  }
}
