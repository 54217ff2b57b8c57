/**
 Tables that meet what `SqlSpans` asks of a grammar, for the part "expr ::= term", "expr ::= LP expr RP"
 and "term ::= NULL" of SQL, and a run on them that leaves an expression on the stack.
 */
module SqlExample {
  import opened LrTables
  import opened LrMachine
  import opened LrRuns
  import LrExample
  import SqlSpans

  // terminals $ 0, LP 1, NULL 2, RP 3; nonterminals cmd 151, term 174, expr 175
  function RuleAt(r: nat): Rule {
    match r
    case 0 => Rule(151, [175])
    case 38 | 39 | 40 | 42 | 43 => Rule(150, [2])
    case 41 => Rule(150, [150])
    case 137 => Rule(157, [])
    case 138 => Rule(157, [1, 150])
    case 184 => Rule(175, [174])
    case 185 => Rule(175, [1, 175, 3])
    case 186 => Rule(174, [2])
    case _ => Rule(151, [])
  }

  function ActionAt(i: nat): int {
    match i
    case 1 => 1
    case 2 => 2
    case 3 => 7
    case 4 => 5
    case 5 => 195
    case 7 => 3
    case 8 => 4
    case 28 => 3
    case 29 => 6
    case _ => 194
  }

  function LookaheadAt(i: nat): int {
    match i
    case 1 => 1
    case 2 => 2
    case 3 => 0
    case 4 => 3
    case 5 => 151
    case 7 => 174
    case 8 => 175
    case 28 => 174
    case 29 => 175
    case _ => 999
  }

  function Example(): Tables {
    Tables(
      nState := 7, nTerminal := 4,
      rules := seq(187, r requires 0 <= r => RuleAt(r)),
      start := 151,
      classes := map[],
      action := seq(30, i requires 0 <= i => ActionAt(i)),
      lookahead := seq(30, i requires 0 <= i => LookaheadAt(i)),
      shiftOfst := [0, 0, -99, -99, 1, -99, 3], shiftUseDflt := -99,
      reduceOfst := [-146, -167], reduceUseDflt := -999,
      dflt := [194, 194, 193, 191, 194, 192, 194],
      fallback := [],
      wildcard := 0)
  }

  function Notes(): Annotation {
    Annotation(
      [[], [1], [2], [174], [175, 1], [3, 175, 1], [175]],
      [[], [{0, 1}], [{0, 1}], [{0, 1}], [{1}, {0, 1}], [{4}, {1}, {0, 1}], [{0}]])
  }

  /** What the proofs below need to know about the tables. */
  ghost predicate Like(t: Tables) {
    && t.nState == 7 && t.nTerminal == 4 && |t.rules| == 187 && t.start == 151 && t.classes == map[]
    && |t.action| == |t.lookahead| == 30 && t.fallback == [] && t.wildcard == 0
    && t.shiftOfst == [0, 0, -99, -99, 1, -99, 3] && t.shiftUseDflt == -99
    && t.reduceOfst == [-146, -167] && t.reduceUseDflt == -999
    && t.dflt == [194, 194, 193, 191, 194, 192, 194]
    && (forall i {:trigger t.action[i]} :: 0 <= i < 30 ==> t.action[i] == ActionAt(i))
    && (forall i {:trigger t.lookahead[i]} :: 0 <= i < 30 ==> t.lookahead[i] == LookaheadAt(i))
    && (forall r {:trigger t.rules[r]} :: 0 <= r < 187 ==> t.rules[r] == RuleAt(r))
  }

  lemma ExampleIsLike()
    ensures Like(Example())
  {
  }

  // ------------------------------------------------------------------------------------------
  // The tables are valid
  // ------------------------------------------------------------------------------------------

  lemma Sizes(t: Tables)
    requires Like(t)
    ensures WellSized(t) && WellSizedAnnotation(t, Notes()) && Notes().past[0] == []
  {
  }

  lemma Gotos(t: Tables)
    requires Like(t) && WellSized(t) && WellSizedAnnotation(t, Notes())
    ensures GotoOk(t, Notes(), 0, 151) && GotoOk(t, Notes(), 0, 174) && GotoOk(t, Notes(), 0, 175)
    ensures GotoOk(t, Notes(), 1, 174) && GotoOk(t, Notes(), 1, 175)
  {
    assert EdgeOk(t, Notes(), 0, 174, 3) && EdgeOk(t, Notes(), 0, 175, 6) && EdgeOk(t, Notes(), 1, 174, 3);
    assert PastAgrees(t, Notes(), 1, 4, 0);
    assert EdgeOk(t, Notes(), 1, 175, 4);
  }

  lemma Reductions(t: Tables)
    requires Like(t) && WellSized(t) && WellSizedAnnotation(t, Notes())
    ensures ReduceOk(t, Notes(), 6, 0) && ReduceOk(t, Notes(), 2, 186) && ReduceOk(t, Notes(), 3, 184)
  {
    Gotos(t);
    assert t.rules[0] == RuleAt(0) && t.rules[186] == RuleAt(186) && t.rules[184] == RuleAt(184);
    assert TopIsRhs(t, Notes(), 6, 0, 0) && TopIsRhs(t, Notes(), 2, 186, 0) && TopIsRhs(t, Notes(), 3, 184, 0);
  }

  lemma ParenReduction(t: Tables)
    requires Like(t) && WellSized(t) && WellSizedAnnotation(t, Notes())
    ensures ReduceOk(t, Notes(), 5, 185)
  {
    Gotos(t);
    assert t.rules[185] == RuleAt(185);
    assert TopIsRhs(t, Notes(), 5, 185, 0) && TopIsRhs(t, Notes(), 5, 185, 1) && TopIsRhs(t, Notes(), 5, 185, 2);
  }

  lemma Shifts(t: Tables)
    requires Like(t) && WellSized(t) && WellSizedAnnotation(t, Notes())
    ensures EdgeOk(t, Notes(), 0, 1, 1) && EdgeOk(t, Notes(), 1, 1, 1)
    ensures EdgeOk(t, Notes(), 0, 2, 2) && EdgeOk(t, Notes(), 1, 2, 2) && EdgeOk(t, Notes(), 4, 3, 5)
  {
    assert PastAgrees(t, Notes(), 4, 5, 0) && PastAgrees(t, Notes(), 4, 5, 1);
  }

  lemma Defaults(t: Tables, s: nat)
    requires Like(t) && WellSized(t) && WellSizedAnnotation(t, Notes()) && s < 7
    ensures DefaultOk(t, Notes(), s)
  {
    Reductions(t);
    ParenReduction(t);
  }

  lemma Slots(t: Tables, s: nat, x: nat)
    requires Like(t) && WellSized(t) && WellSizedAnnotation(t, Notes()) && s < 7 && x < 4
    ensures SlotOk(t, Notes(), s, x)
  {
    Reductions(t);
    Shifts(t);
  }

  lemma Valid(t: Tables)
    requires Like(t)
    ensures ValidTables(t, Notes())
  {
    Sizes(t);
    forall s | 0 <= s < t.nState
      ensures DefaultOk(t, Notes(), s)
    {
      Defaults(t, s);
    }
    forall s, x: nat | 0 <= s < t.nState && x < t.nTerminal
      ensures SlotOk(t, Notes(), s, x)
    {
      Slots(t, s, x);
    }
  }

  // ------------------------------------------------------------------------------------------
  // The grammar is one that the spans are proved for
  // ------------------------------------------------------------------------------------------

  lemma RuleFits(t: Tables, r: nat)
    requires Like(t) && r < 187
    ensures SqlSpans.RuleOk(t, r)
  {
    assert t.rules[r] == RuleAt(r);
  }

  lemma Grammar(t: Tables)
    requires Like(t)
    ensures SqlSpans.SqlGrammar(t)
  {
    forall r | 0 <= r < |t.rules|
      ensures SqlSpans.RuleOk(t, r)
    {
      RuleFits(t, r);
    }
  }

  // ------------------------------------------------------------------------------------------
  // A run on LP NULL RP
  // ------------------------------------------------------------------------------------------

  const LP := Token(1, 1, 1)
  const NULL := Token(2, 2, 4)
  const RP := Token(3, 6, 1)

  const INNER := Node(184, [Node(186, [Leaf(NULL, 2)])])

  lemma Lookups(t: Tables)
    requires Like(t) && WellSized(t)
    ensures ShiftAction(t, 0, 1) == 1 && ShiftAction(t, 1, 2) == 2 && ShiftAction(t, 4, 3) == 5
    ensures ShiftAction(t, 2, 3) == 193 && ShiftAction(t, 3, 3) == 191
    ensures GotoDefined(t, 1, 174) && ReduceAction(t, 1, 174) == 3
    ensures GotoDefined(t, 1, 175) && ReduceAction(t, 1, 175) == 4
    ensures t.rules[186] == Rule(174, [2]) && t.rules[184] == Rule(175, [174])
  {
  }

  ghost predicate Engines(eng: Engine) {
    Like(eng.tables) && WellSized(eng.tables) && eng.depth == 100
  }

  lemma ReadsLp(eng: Engine, m: Machine)
    requires Engines(eng) && LrExample.Looks(m, [0], [], [])
    ensures var turn := Step(eng, Notes(), m, LP);
            turn.tokenDone && LrExample.Looks(turn.m, [0, 1], [Leaf(LP, 1)], [LP])
  {
    Lookups(eng.tables);
    LrExample.Shifting(eng, Notes(), m, LP, 1);
  }

  lemma ReadsNull(eng: Engine, m: Machine)
    requires Engines(eng) && LrExample.Looks(m, [0, 1], [Leaf(LP, 1)], [LP])
    ensures var turn := Step(eng, Notes(), m, NULL);
            turn.tokenDone && LrExample.Looks(turn.m, [0, 1, 2], [Leaf(LP, 1), Leaf(NULL, 2)], [LP, NULL])
  {
    Lookups(eng.tables);
    LrExample.Shifting(eng, Notes(), m, NULL, 2);
  }

  lemma ReadsTerm(eng: Engine, m: Machine)
    requires Engines(eng) && LrExample.Looks(m, [0, 1, 2], [Leaf(LP, 1), Leaf(NULL, 2)], [LP, NULL])
    ensures var turn := Step(eng, Notes(), m, RP);
            !turn.tokenDone && LrExample.Looks(turn.m, [0, 1, 3], [Leaf(LP, 1), Node(186, [Leaf(NULL, 2)])], [LP, NULL])
  {
    Lookups(eng.tables);
    LrExample.Reducing(eng, Notes(), m, RP, 186, 1, 3);
  }

  lemma ReadsExpr(eng: Engine, m: Machine)
    requires Engines(eng) && LrExample.Looks(m, [0, 1, 3], [Leaf(LP, 1), Node(186, [Leaf(NULL, 2)])], [LP, NULL])
    ensures var turn := Step(eng, Notes(), m, RP);
            !turn.tokenDone && LrExample.Looks(turn.m, [0, 1, 4], [Leaf(LP, 1), INNER], [LP, NULL])
  {
    Lookups(eng.tables);
    LrExample.Reducing(eng, Notes(), m, RP, 184, 1, 4);
  }

  lemma ReadsRp(eng: Engine, m: Machine)
    requires Engines(eng) && LrExample.Looks(m, [0, 1, 4], [Leaf(LP, 1), INNER], [LP, NULL])
    ensures var turn := Step(eng, Notes(), m, RP);
            turn.tokenDone && LrExample.Looks(turn.m, [0, 1, 4, 5], [Leaf(LP, 1), INNER, Leaf(RP, 3)], [LP, NULL, RP])
  {
    Lookups(eng.tables);
    LrExample.Shifting(eng, Notes(), m, RP, 5);
  }

  lemma RpTurns(eng: Engine, m: Machine)
    requires Engines(eng) && LrExample.Looks(m, [0, 1, 2], [Leaf(LP, 1), Leaf(NULL, 2)], [LP, NULL])
    ensures var turn := Loop(eng, Notes(), m, RP, 3);
            turn.tokenDone && LrExample.Looks(turn.m, [0, 1, 4, 5], [Leaf(LP, 1), INNER, Leaf(RP, 3)], [LP, NULL, RP])
  {
    ReadsTerm(eng, m);
    LrExample.LoopOnce(eng, Notes(), m, RP, 3);
    var m1 := Step(eng, Notes(), m, RP).m;
    ReadsExpr(eng, m1);
    LrExample.LoopOnce(eng, Notes(), m1, RP, 2);
    var m2 := Step(eng, Notes(), m1, RP).m;
    ReadsRp(eng, m2);
    LrExample.LoopOnce(eng, Notes(), m2, RP, 1);
  }

  const I1 := [Input(LP, 1)]
  const I2 := I1 + [Input(NULL, 1)]
  const I3 := I2 + [Input(RP, 3)]

  lemma FirstCall(eng: Engine)
    requires Engines(eng)
    ensures var turn := ParseAll(eng, Notes(), I1); turn.tokenDone && LrExample.Looks(turn.m, [0, 1], [Leaf(LP, 1)], [LP])
  {
    assert I1[..0] == [];
    ReadsLp(eng, Start(Fresh()));
    LrExample.LoopOnce(eng, Notes(), Start(Fresh()), LP, 1);
    ParseAllUnfold(eng, Notes(), I1);
  }

  lemma SecondCall(eng: Engine)
    requires Engines(eng)
    ensures var turn := ParseAll(eng, Notes(), I2);
            turn.tokenDone && LrExample.Looks(turn.m, [0, 1, 2], [Leaf(LP, 1), Leaf(NULL, 2)], [LP, NULL])
  {
    FirstCall(eng);
    LrExample.OneMore(eng, Notes(), I1, Input(NULL, 1));
    ReadsNull(eng, ParseAll(eng, Notes(), I1).m);
    LrExample.LoopOnce(eng, Notes(), ParseAll(eng, Notes(), I1).m, NULL, 1);
  }

  lemma ThirdCall(eng: Engine)
    requires Engines(eng)
    ensures var turn := ParseAll(eng, Notes(), I3);
            turn.tokenDone && LrExample.Looks(turn.m, [0, 1, 4, 5], [Leaf(LP, 1), INNER, Leaf(RP, 3)], [LP, NULL, RP])
  {
    SecondCall(eng);
    LrExample.OneMore(eng, Notes(), I2, Input(RP, 3));
    RpTurns(eng, ParseAll(eng, Notes(), I2).m);
  }

  lemma InputsAreGood(t: Tables)
    requires t.nTerminal == 4
    ensures forall k :: 0 <= k < |I3| ==> SqlSpans.GoodToken(t, I3[k].token)
  {
  }

  lemma InnerIsExpr(t: Tables)
    requires Like(t)
    ensures Root(t, INNER) == SqlSpans.EXPR
  {
    assert t.rules[184] == RuleAt(184);
  }

  /** Everything that `SpansAreExact` asks for is met by a run that leaves an expression on the stack,
      whose span is the text of its one token. */
  lemma SpanExample(eng: Engine)
    requires eng == Engine(Example(), 100, true)
    ensures ValidTables(eng.tables, Notes()) && SqlSpans.SqlGrammar(eng.tables)
    ensures forall k :: 0 <= k < |I3| ==> SqlSpans.GoodToken(eng.tables, I3[k].token)
    ensures var m := ParseAll(eng, Notes(), I3).m;
            && |m.trees| == 3 && m.trees[1] == INNER && Root(eng.tables, INNER) == SqlSpans.EXPR
            && SqlSpans.Value(INNER) == SqlSpans.Span(2, 6)
  {
    ExampleIsLike();
    Sizes(eng.tables);
    Valid(eng.tables);
    Grammar(eng.tables);
    ThirdCall(eng);
    InputsAreGood(eng.tables);
    InnerIsExpr(eng.tables);
    SqlSpans.SpansAreExact(eng, Notes(), I3, 1);
    InnerYield();
  }

  lemma InnerYield()
    ensures Yield(INNER) == [NULL]
  {
    var term := Node(186, [Leaf(NULL, 2)]);
    assert YieldAll([Leaf(NULL, 2)]) == YieldAll([Leaf(NULL, 2)][..0]) + [NULL];
    assert YieldAll([term]) == YieldAll([term][..0]) + Yield(term);
  }
}
