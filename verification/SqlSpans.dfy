/**
 The source spans that the SQL expression rules compute, rule by rule, and the proof that after
 every run each expression on the stack spans exactly the text of its tokens.

 Rule and symbol numbers are those of the generated SQL parser.  Only the fields of the semantic
 value that hold source positions are kept: a token's text (`z`, `n`) and an expression's
 `zStart`, `zEnd`.  A null pointer is position 0.
 */
module SqlSpans {
  import opened LrTables
  import opened LrMachine
  import opened LrRuns
  import LrParser

  datatype Text = Text(z: nat, n: nat) {
    function End(): nat { z + n }
  }

  datatype Minor = Tok(text: Text) | Span(zStart: nat, zEnd: nat) | Other

  function Lift(token: Token): Minor { Tok(Text(token.z, token.n)) }

  const NM: nat := 150
  const DBNM: nat := 157
  const ID: nat := 165
  const IDS: nat := 166
  const TERM: nat := 174
  const EXPR: nat := 175

  // ------------------------------------------------------------------------------------------
  // The semantic actions
  // ------------------------------------------------------------------------------------------

  /** Reading the token or the span out of the semantic value of the i-th symbol. */
  function TokenAt(rhs: seq<Minor>, i: nat): Text {
    if i < |rhs| && rhs[i].Tok? then rhs[i].text else Text(0, 0)
  }

  function StartAt(rhs: seq<Minor>, i: nat): nat {
    if i < |rhs| && rhs[i].Span? then rhs[i].zStart else 0
  }

  function EndAt(rhs: seq<Minor>, i: nat): nat {
    if i < |rhs| && rhs[i].Span? then rhs[i].zEnd else 0
  }

  function SpanSet(start: Text, end: Text): Minor { Span(start.z, end.End()) }

  function SpanExpr(value: Text): Minor { Span(value.z, value.End()) }

  function SpanBinaryExpr(rhs: seq<Minor>, left: nat, right: nat): Minor {
    Span(StartAt(rhs, left), EndAt(rhs, right))
  }

  function SpanUnaryPostfix(rhs: seq<Minor>, operand: nat, postOp: Text): Minor {
    Span(StartAt(rhs, operand), postOp.End())
  }

  function SpanUnaryPrefix(rhs: seq<Minor>, operand: nat, preOp: Text): Minor {
    Span(preOp.z, EndAt(rhs, operand))
  }

  /** How a reduce case sets its value: which helper it calls, or the assignments it makes. */
  datatype Form =
    | CopyTok     // the value is the token at `end`
    | NoTok       // a null token
    | CopySpan    // the value of the only symbol
    | FromTok     // spanExpr of the only symbol
    | TokToTok    // spanSet, or zStart from one token and zEnd from another
    | SpanToSpan  // spanBinaryExpr, or zStart from one span and zEnd from another
    | SpanToTok   // spanUnaryPostfix, or zStart from a span and zEnd from a token
    | TokToSpan   // spanUnaryPrefix
    | InName      // "expr in_op nm dbnm", where dbnm may be empty
    | NoSpan

  /** What may stand at a place of a right-hand side: a terminal, an expression, a name, an
      optional database name, or a nonterminal whose value the spans do not use. */
  datatype Kind = T | E | N | D | A

  /** A reduce case: its form, the place it takes the end (or the copied token) from, and the
      right-hand side of its rule. */
  datatype Case = Case(form: Form, end: nat, rhs: seq<Kind>)

  /** The rules for id, ids, nm, dbnm, expr and term. */
  function CaseOf(r: nat): Case {
    match r
    case 38 | 39 | 40 | 42 | 43 => Case(CopyTok, 0, [T])
    case 41 => Case(CopyTok, 0, [N])
    case 137 => Case(NoTok, 0, [])
    case 138 => Case(CopyTok, 1, [T, N])
    case 184 => Case(CopySpan, 0, [E])
    case 185 => Case(TokToTok, 2, [T, E, T])
    case 186 | 188 | 191 | 192 => Case(FromTok, 0, [T])
    case 187 => Case(FromTok, 0, [N])
    case 189 => Case(TokToTok, 2, [N, T, N])
    case 190 => Case(TokToTok, 4, [N, T, N, T, N])
    case 193 | 194 | 199 => Case(TokToTok, 0, [T])
    case 195 => Case(SpanToTok, 2, [E, T, N])
    case 196 => Case(TokToTok, 5, [T, T, E, T, A, T])
    case 197 => Case(TokToTok, 4, [T, T, A, A, T])
    case 198 => Case(TokToTok, 3, [T, T, T, T])
    case 200 | 201 | 202 | 203 | 204 | 205 | 206 | 207 => Case(SpanToSpan, 2, [E, T, E])
    case 211 => Case(SpanToSpan, 2, [E, A, E])
    case 212 => Case(SpanToSpan, 4, [E, A, E, T, E])
    case 213 => Case(SpanToSpan, 2, [E, T, E])
    case 214 => Case(SpanToTok, 1, [E, T])
    case 215 => Case(SpanToTok, 2, [E, T, T])
    case 216 => Case(SpanToSpan, 2, [E, T, E])
    case 217 => Case(SpanToSpan, 3, [E, T, T, E])
    case 218 | 219 | 220 | 221 => Case(TokToSpan, 1, [T, E])
    case 224 => Case(SpanToSpan, 4, [E, A, E, T, E])
    case 227 => Case(SpanToTok, 4, [E, A, T, A, T])
    case 228 => Case(TokToTok, 2, [T, A, T])
    case 229 => Case(SpanToTok, 4, [E, A, T, A, T])
    case 230 => Case(InName, 3, [E, A, N, D])
    case 231 => Case(TokToTok, 3, [T, T, A, T])
    case 232 => Case(TokToTok, 4, [T, A, A, A, T])
    case 304 => Case(TokToTok, 3, [T, T, T, T])
    case 305 => Case(TokToTok, 5, [T, T, A, T, N, T])
    case _ => Case(NoSpan, 0, [])
  }

  function ActionBy(c: Case, rhs: seq<Minor>): Minor {
    match c.form
    case CopyTok => Tok(TokenAt(rhs, c.end))
    case NoTok => Tok(Text(0, 0))
    case CopySpan => Span(StartAt(rhs, 0), EndAt(rhs, 0))
    case FromTok => SpanExpr(TokenAt(rhs, 0))
    case TokToTok => SpanSet(TokenAt(rhs, 0), TokenAt(rhs, c.end))
    case SpanToSpan => SpanBinaryExpr(rhs, 0, c.end)
    case SpanToTok => SpanUnaryPostfix(rhs, 0, TokenAt(rhs, c.end))
    case TokToSpan => SpanUnaryPrefix(rhs, c.end, TokenAt(rhs, 0))
    case InName =>
      Span(StartAt(rhs, 0), if TokenAt(rhs, 3).z != 0 then TokenAt(rhs, 3).End() else TokenAt(rhs, 2).End())
    case NoSpan => Other
  }

  /** The reduce cases that set a token or an expression span. */
  function Action(r: nat, rhs: seq<Minor>): Minor {
    ActionBy(CaseOf(r), rhs)
  }

  // ------------------------------------------------------------------------------------------
  // The rules
  // ------------------------------------------------------------------------------------------

  predicate IsKind(t: Tables, k: Kind, sym: nat) {
    match k
    case T => TerminalSymbol(t, sym)
    case E => sym == EXPR || sym == TERM
    case N => sym == NM || sym == ID || sym == IDS
    case D => sym == DBNM
    case A => true
  }

  predicate NameRule(r: nat) { 38 <= r <= 43 }
  predicate DbnmRule(r: nat) { r == 137 || r == 138 }
  predicate ExprRule(r: nat) {
    || 184 <= r <= 207
    || 211 <= r <= 221
    || r == 224
    || 227 <= r <= 232
    || r == 304
    || r == 305
  }

  /** The grammar has exactly these rules for the symbols concerned; its other rules are free. */
  ghost predicate SqlGrammar(t: Tables) {
    && (forall c {:trigger c in t.classes} :: c in t.classes ==> c !in {NM, DBNM, ID, IDS, TERM, EXPR})
    && t.nTerminal <= NM
    && forall r {:trigger t.rules[r]} :: 0 <= r < |t.rules| ==> RuleOk(t, r)
  }

  ghost predicate RuleOk(t: Tables, r: nat)
    requires r < |t.rules|
  {
    var rule := t.rules[r];
    && !TerminalSymbol(t, rule.lhs)
    && (rule.lhs in {EXPR, TERM} <==> ExprRule(r))
    && (rule.lhs in {NM, ID, IDS} <==> NameRule(r))
    && (rule.lhs == DBNM <==> DbnmRule(r))
    && (ExprRule(r) || NameRule(r) || DbnmRule(r) ==>
          && |rule.rhs| == |CaseOf(r).rhs|
          && forall i {:trigger rule.rhs[i]} :: 0 <= i < |rule.rhs| ==> IsKind(t, CaseOf(r).rhs[i], rule.rhs[i]))
  }

  // ------------------------------------------------------------------------------------------
  // What a value says about the tokens it was made from
  // ------------------------------------------------------------------------------------------

  /** Tokens as the tokenizer hands them out: terminals with a position in the text. */
  ghost predicate GoodToken(t: Tables, token: Token) {
    token.major < t.nTerminal && token.z > 0
  }

  ghost predicate AllGood(t: Tables, ys: seq<Token>) {
    forall v :: v in ys ==> GoodToken(t, v)
  }

  /** The text from the first to the last token. */
  ghost predicate Covering(v: Minor, ys: seq<Token>) {
    ys != [] && v == Span(ys[0].z, ys[|ys| - 1].z + ys[|ys| - 1].n)
  }

  ghost predicate OneToken(v: Minor, ys: seq<Token>) {
    |ys| == 1 && ys[0].z > 0 && v == Lift(ys[0])
  }

  /** An absent database name has a null pointer; otherwise the value is its second token. */
  ghost predicate DbName(v: Minor, ys: seq<Token>) {
    if ys == [] then v == Tok(Text(0, 0)) else |ys| == 2 && ys[1].z > 0 && v == Lift(ys[1])
  }

  ghost predicate Exact(k: Kind, v: Minor, ys: seq<Token>) {
    match k
    case T | N => OneToken(v, ys)
    case E => Covering(v, ys)
    case D => DbName(v, ys)
    case A => true
  }

  /** A case takes its end from the last symbol of its rule, and reads both ends in the way that
      their kinds store them. */
  ghost predicate SpanCase(c: Case) {
    && |c.rhs| == c.end + 1
    && var first, last := c.rhs[0], c.rhs[c.end];
       match c.form
       case CopySpan => c.end == 0 && first == E
       case FromTok => c.end == 0 && first in {T, N}
       case TokToTok => first in {T, N} && last in {T, N}
       case SpanToSpan => first == E && last == E
       case SpanToTok => first == E && last in {T, N}
       case TokToSpan => first in {T, N} && last == E
       case InName => c.rhs == [E, A, N, D]
       case _ => false
  }

  lemma LowSpanCases(r: nat)
    requires 184 <= r <= 199
    ensures SpanCase(CaseOf(r))
  {
  }

  lemma MidSpanCases(r: nat)
    requires 200 <= r <= 207 || 211 <= r <= 221
    ensures SpanCase(CaseOf(r))
  {
  }

  lemma HighSpanCases(r: nat)
    requires r == 224 || 227 <= r <= 232 || r == 304 || r == 305
    ensures SpanCase(CaseOf(r))
  {
  }

  lemma SpanCases(r: nat)
    requires ExprRule(r)
    ensures SpanCase(CaseOf(r))
  {
    if r <= 199 {
      LowSpanCases(r);
    } else if r <= 221 {
      MidSpanCases(r);
    } else {
      HighSpanCases(r);
    }
  }

  ghost function Flat(parts: seq<seq<Token>>): seq<Token> {
    if parts == [] then [] else Flat(parts[..|parts| - 1]) + parts[|parts| - 1]
  }

  lemma {:induction false} FlatStarts(parts: seq<seq<Token>>)
    requires parts != [] && parts[0] != []
    ensures Flat(parts) != [] && Flat(parts)[0] == parts[0][0]
  {
    var n := |parts| - 1;
    if n > 0 {
      FlatStarts(parts[..n]);
    } else {
      assert Flat(parts[..0]) == [];
    }
  }

  /** The concatenation ends where its last nonempty part ends: the last, or the one before. */
  lemma FlatEnds(parts: seq<seq<Token>>, i: nat)
    requires i < |parts| <= i + 2 && parts[i] != [] && (|parts| == i + 2 ==> parts[i + 1] == [])
    ensures Flat(parts) != [] && Flat(parts)[|Flat(parts)| - 1] == parts[i][|parts[i]| - 1]
  {
    var n := |parts| - 1;
    assert Flat(parts) == Flat(parts[..n]) + parts[n];
    if i < n {
      assert parts[..n][..n - 1] == parts[..i];
      assert Flat(parts[..n]) == Flat(parts[..i]) + parts[i];
    }
  }

  /** The values of a right-hand side say about the tokens of each place what its kind promises. */
  ghost predicate RhsExact(c: Case, vals: seq<Minor>, parts: seq<seq<Token>>) {
    && |vals| == |parts| == |c.rhs|
    && forall i {:trigger vals[i]} {:trigger parts[i]} :: 0 <= i < |vals| ==> Exact(c.rhs[i], vals[i], parts[i])
  }

  /** The value of an expression rule spans the tokens of its whole right-hand side. */
  lemma ExprCaseExact(c: Case, vals: seq<Minor>, parts: seq<seq<Token>>)
    requires SpanCase(c) && RhsExact(c, vals, parts)
    ensures Covering(ActionBy(c, vals), Flat(parts))
  {
    assert Exact(c.rhs[0], vals[0], parts[0]) && Exact(c.rhs[c.end], vals[c.end], parts[c.end]);
    FlatStarts(parts);
    if c.form.InName? {
      assert Exact(N, vals[2], parts[2]);
      FlatEnds(parts, if parts[3] == [] then 2 else 3);
    } else {
      FlatEnds(parts, c.end);
    }
  }

  lemma NameCaseExact(c: Case, vals: seq<Minor>, parts: seq<seq<Token>>)
    requires c.form == CopyTok && c.end == 0 && |c.rhs| == 1 && c.rhs[0] in {T, N} && RhsExact(c, vals, parts)
    ensures OneToken(ActionBy(c, vals), Flat(parts))
  {
    assert Exact(c.rhs[0], vals[0], parts[0]);
    assert Flat(parts[..0]) == [];
  }

  lemma DbnmCaseExact(c: Case, vals: seq<Minor>, parts: seq<seq<Token>>)
    requires c == Case(NoTok, 0, []) || c == Case(CopyTok, 1, [T, N])
    requires RhsExact(c, vals, parts)
    ensures DbName(ActionBy(c, vals), Flat(parts))
  {
    if c.form == CopyTok {
      assert Exact(T, vals[0], parts[0]) && Exact(N, vals[1], parts[1]);
      assert parts[..1][..0] == [];
      assert Flat(parts[..1]) == parts[0];
    }
  }

  // ------------------------------------------------------------------------------------------
  // Trees
  // ------------------------------------------------------------------------------------------

  /** The value that the actions compute for a tree. */
  ghost function Value(tree: Tree): Minor
    decreases tree, 1
  {
    match tree
    case Leaf(token, _) => Lift(token)
    case Node(r, kids) => Action(r, Values(kids))
  }

  ghost function Values(trees: seq<Tree>): (vs: seq<Minor>)
    ensures |vs| == |trees|
    ensures forall i {:trigger vs[i]} :: 0 <= i < |trees| ==> vs[i] == Value(trees[i])
    decreases trees, 0
  {
    if trees == [] then [] else Values(trees[..|trees| - 1]) + [Value(trees[|trees| - 1])]
  }

  ghost function Yields(trees: seq<Tree>): (ys: seq<seq<Token>>)
    ensures |ys| == |trees|
    ensures forall i {:trigger ys[i]} :: 0 <= i < |trees| ==> ys[i] == Yield(trees[i])
    ensures Flat(ys) == YieldAll(trees)
  {
    if trees == [] then []
    else
      var before := Yields(trees[..|trees| - 1]);
      var ys := before + [Yield(trees[|trees| - 1])];
      assert ys[..|ys| - 1] == before;
      ys
  }

  ghost function KindOf(t: Tables, sym: nat): Kind {
    if TerminalSymbol(t, sym) then T
    else if IsKind(t, E, sym) then E
    else if IsKind(t, N, sym) then N
    else if IsKind(t, D, sym) then D
    else A
  }

  lemma {:induction false} YieldPart(trees: seq<Tree>, i: nat, v: Token)
    requires i < |trees| && v in Yield(trees[i])
    ensures v in YieldAll(trees)
  {
    var n := |trees| - 1;
    if i < n {
      YieldPart(trees[..n], i, v);
    }
  }

  lemma KidsAreGood(t: Tables, kids: seq<Tree>, i: nat)
    requires AllGood(t, YieldAll(kids)) && i < |kids|
    ensures AllGood(t, Yield(kids[i]))
  {
    forall v | v in Yield(kids[i])
      ensures GoodToken(t, v)
    {
      YieldPart(kids, i, v);
    }
  }

  lemma KindExact(t: Tables, k: Kind, sym: nat, v: Minor, ys: seq<Token>)
    requires SqlGrammar(t) && IsKind(t, k, sym) && Exact(KindOf(t, sym), v, ys)
    ensures Exact(k, v, ys)
  {
  }

  lemma NodeExact(t: Tables, r: nat, vals: seq<Minor>, parts: seq<seq<Token>>)
    requires SqlGrammar(t) && r < |t.rules| && RuleOk(t, r)
    requires ExprRule(r) || NameRule(r) || DbnmRule(r) ==> RhsExact(CaseOf(r), vals, parts)
    ensures Exact(KindOf(t, t.rules[r].lhs), Action(r, vals), Flat(parts))
  {
    if ExprRule(r) {
      SpanCases(r);
      ExprCaseExact(CaseOf(r), vals, parts);
    } else if NameRule(r) {
      NameCaseExact(CaseOf(r), vals, parts);
    } else if DbnmRule(r) {
      DbnmCaseExact(CaseOf(r), vals, parts);
    }
  }

  /** For every derivation of an expression, name or database name, the semantic actions compute
      exactly the source text of its tokens. */
  lemma {:induction false} ValueIsExact(t: Tables, tree: Tree)
    requires SqlGrammar(t) && Derivation(t, tree) && AllGood(t, Yield(tree))
    ensures Exact(KindOf(t, Root(t, tree)), Value(tree), Yield(tree))
    decreases tree
  {
    match tree
    case Leaf(token, sym) =>
      assert token in Yield(tree);
    case Node(r, kids) =>
      assert RuleOk(t, r);
      var vals, parts := Values(kids), Yields(kids);
      if ExprRule(r) || NameRule(r) || DbnmRule(r) {
        forall i | 0 <= i < |kids|
          ensures Exact(CaseOf(r).rhs[i], vals[i], parts[i])
        {
          KidsAreGood(t, kids, i);
          ValueIsExact(t, kids[i]);
          KindExact(t, CaseOf(r).rhs[i], t.rules[r].rhs[i], vals[i], parts[i]);
        }
      }
      NodeExact(t, r, vals, parts);
  }

  // ------------------------------------------------------------------------------------------
  // Runs
  // ------------------------------------------------------------------------------------------

  lemma StepShifts(eng: Engine, an: Annotation, m: Machine, token: Token)
    ensures Step(eng, an, m, token).m.shifted in {m.shifted, m.shifted + [token]}
  {
  }

  lemma ShiftedAreGood(eng: Engine, an: Annotation, inputs: seq<Input>)
    requires forall k :: 0 <= k < |inputs| ==> GoodToken(eng.tables, inputs[k].token)
    ensures AllGood(eng.tables, ParseAll(eng, an, inputs).m.shifted)
  {
    forall m: Machine, token | GoodToken(eng.tables, token) && AllGood(eng.tables, m.shifted)
      ensures AllGood(eng.tables, Step(eng, an, m, token).m.shifted)
    {
      StepShifts(eng, an, m, token);
    }
    RunKeeps(eng, an, v => GoodToken(eng.tables, v), (m: Machine) => AllGood(eng.tables, m.shifted), inputs);
  }

  /** After every run of the SQL parser on tokens from the tokenizer, each expression on the stack
      spans exactly the text from the first to the last token of its derivation. */
  lemma SpansAreExact(eng: Engine, an: Annotation, inputs: seq<Input>, i: nat)
    requires ValidTables(eng.tables, an) && 0 < eng.depth && SqlGrammar(eng.tables)
    requires forall k :: 0 <= k < |inputs| ==> GoodToken(eng.tables, inputs[k].token)
    requires var m := ParseAll(eng, an, inputs).m;
             i < |m.trees| && Root(eng.tables, m.trees[i]) in {EXPR, TERM}
    ensures var m := ParseAll(eng, an, inputs).m; Covering(Value(m.trees[i]), Yield(m.trees[i]))
  {
    var m := ParseAll(eng, an, inputs).m;
    StackIsDerived(eng, an, inputs, 0);
    RunSound(eng, an, inputs);
    ShiftedAreGood(eng, an, inputs);
    KidsAreGood(eng.tables, m.trees, i);
    ValueIsExact(eng.tables, m.trees[i]);
  }

  /** The actions, as the parser object runs them. */
  function Minors(vals: seq<LrParser.Val<Minor>>): (ms: seq<Minor>)
    ensures |ms| == |vals|
    ensures forall i :: 0 <= i < |vals| ==> ms[i] == vals[i].minor
  {
    seq(|vals|, i requires 0 <= i < |vals| => vals[i].minor)
  }

  function SpanSemantics(): LrParser.Semantics<Minor> {
    LrParser.Semantics(Lift, (r, vals) => Action(r, Minors(vals)))
  }

  /** The values stored by a parser object with these actions are the values of its trees. */
  lemma {:induction false} StoredValue(t: Tables, tree: Tree)
    ensures LrParser.Eval(t, SpanSemantics(), tree).minor == Value(tree)
    decreases tree
  {
    if tree.Node? {
      var vals := LrParser.EvalAll(t, SpanSemantics(), tree.kids);
      forall i | 0 <= i < |tree.kids|
        ensures Minors(vals)[i] == Values(tree.kids)[i]
      {
        StoredValue(t, tree.kids[i]);
      }
      assert Minors(vals) == Values(tree.kids);
    }
  }

  /** The value in a slot of the parser's stack, for an expression. */
  lemma StoredSpan(eng: Engine, an: Annotation, inputs: seq<Input>, es: seq<LrParser.Entry<Minor>>, i: nat)
    requires ValidTables(eng.tables, an) && 0 < eng.depth && SqlGrammar(eng.tables)
    requires forall k :: 0 <= k < |inputs| ==> GoodToken(eng.tables, inputs[k].token)
    requires var m := ParseAll(eng, an, inputs).m;
             && LrParser.Represents(eng.tables, SpanSemantics(), es, m.states, m.trees)
             && i < |m.trees| && i + 1 < |es| && Root(eng.tables, m.trees[i]) in {EXPR, TERM}
    ensures Covering(es[i + 1].val.minor, Yield(ParseAll(eng, an, inputs).m.trees[i]))
  {
    var m := ParseAll(eng, an, inputs).m;
    assert es[i + 1].val == LrParser.Eval(eng.tables, SpanSemantics(), m.trees[i]);
    StoredValue(eng.tables, m.trees[i]);
    SpansAreExact(eng, an, inputs, i);
  }

  /** The slots of the stack that hold an expression span its text. */
  ghost predicate SlotsAreExact(p: LrParser.Parser<Minor>)
    reads p, p.yystack
    requires p.Rep()
  {
    forall i {:trigger p.m.trees[i]} :: 0 <= i < |p.m.trees| && Root(p.eng.tables, p.m.trees[i]) in {EXPR, TERM} ==>
      i < p.yyidx && Covering(p.yystack[i + 1].val.minor, Yield(p.m.trees[i]))
  }

  lemma StackIsExact(p: LrParser.Parser<Minor>, an: Annotation, inputs: seq<Input>)
    requires p.Rep() && p.sem == SpanSemantics() && p.m == ParseAll(p.eng, an, inputs).m
    requires ValidTables(p.eng.tables, an) && 0 < p.eng.depth && SqlGrammar(p.eng.tables)
    requires forall k :: 0 <= k < |inputs| ==> GoodToken(p.eng.tables, inputs[k].token)
    ensures SlotsAreExact(p)
  {
    var es := p.yystack[..p.yyidx + 1];
    forall i | 0 <= i < |p.m.trees| && Root(p.eng.tables, p.m.trees[i]) in {EXPR, TERM}
      ensures i < p.yyidx && Covering(p.yystack[i + 1].val.minor, Yield(p.m.trees[i]))
    {
      StoredSpan(p.eng, an, inputs, es, i);
    }
  }

  /** Nothing follows a call that was cut off. */
  lemma {:induction false} CutOff(eng: Engine, an: Annotation, inputs: seq<Input>, k: nat)
    requires k <= |inputs| && (k < |inputs| ==> !ParseAll(eng, an, inputs[..k]).tokenDone)
    ensures ParseAll(eng, an, inputs) == ParseAll(eng, an, inputs[..k])
    decreases |inputs|
  {
    var n := |inputs| - 1;
    if k == |inputs| {
      assert inputs[..k] == inputs;
    } else {
      assert inputs[..n][..k] == inputs[..k];
      CutOff(eng, an, inputs[..n], k);
    }
  }

  /** Tables of the SQL parser, and tokens from the tokenizer. */
  ghost predicate SqlInput(eng: Engine, an: Annotation, inputs: seq<Input>) {
    && ValidTables(eng.tables, an) && 0 < eng.depth && SqlGrammar(eng.tables)
    && forall k :: 0 <= k < |inputs| ==> GoodToken(eng.tables, inputs[k].token)
  }

  /** The parser has been given these tokens. */
  ghost predicate HasRead(p: LrParser.Parser<Minor>, inputs: seq<Input>, tokenDone: bool)
    reads p, p.yystack
  {
    p.Valid() && p.sem == SpanSemantics() && Turn(p.m, tokenDone) == ParseAll(p.eng, p.an, inputs) && SlotsAreExact(p)
  }

  /** One call of the parser. */
  method ParseToken(p: LrParser.Parser<Minor>, ghost before: seq<Input>, input: Input) returns (tokenDone: bool)
    requires SqlInput(p.eng, p.an, before + [input]) && HasRead(p, before, true)
    modifies p, p.yystack
    ensures HasRead(p, before + [input], tokenDone)
  {
    ParseAllUnfold(p.eng, p.an, before + [input]);
    assert (before + [input])[..|before|] == before;
    assert (before + [input])[|before|] == input;
    tokenDone := p.Parse(input.token, input.fuel);
    StackIsExact(p, p.an, before + [input]);
  }

  /** sqlite4RunParser, from the parser's side: a new parser gets the tokens one by one, and after every
      call each slot that holds an expression spans its text. */
  method ParseTokens(eng: Engine, ghost an: Annotation, ndebug: bool, inputs: seq<Input>)
    returns (p: LrParser.Parser<Minor>, tokenDone: bool)
    requires SqlInput(eng, an, inputs)
    ensures p.eng == eng && p.an == an && HasRead(p, inputs, tokenDone)
  {
    p := new LrParser.Parser(eng, SpanSemantics(), ndebug, an);
    tokenDone := true;
    var k := 0;
    while k < |inputs| && tokenDone
      invariant 0 <= k <= |inputs| && fresh(p) && fresh(p.yystack) && p.eng == eng && p.an == an
      invariant HasRead(p, inputs[..k], tokenDone)
    {
      assert inputs[..k + 1] == inputs[..k] + [inputs[k]];
      tokenDone := ParseToken(p, inputs[..k], inputs[k]);
      k := k + 1;
    }
    CutOff(eng, an, inputs, k);
  }
}
