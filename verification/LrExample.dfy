/**
 A table set that passes the validator, with a fallback (KW may be read as ID) and a wildcard
 (ANY stands for every token inside parentheses):

   input ::= list        list ::= list item | item        item ::= ID | LP ANY RP
 */
module LrExample {
  import opened LrTables
  import opened LrMachine
  import opened LrRuns

  // terminals $ 0, ID 1, KW 2, LP 3, RP 4, ANY 5; nonterminals input 6, list 7, item 8
  function Example(): Tables {
    Tables(
      nState := 8, nTerminal := 6,
      rules := [Rule(6, [7]), Rule(7, [7, 8]), Rule(7, [8]), Rule(8, [1]), Rule(8, [3, 5, 4])],
      start := 6,
      classes := map[],
      action := [15, 3, 6, 4, 8, 3, 7, 4, 14, 1, 2, 5],
      lookahead := [99, 1, 5, 3, 0, 1, 4, 3, 6, 7, 8, 8],
      shiftOfst := [0, 4, -9, -9, -3, -9, 2], shiftUseDflt := -9,
      reduceOfst := [2, 3], reduceUseDflt := -9,
      dflt := [13, 13, 10, 11, 13, 9, 13, 12],
      fallback := [0, 0, 1],
      wildcard := 5)
  }

  function Notes(): Annotation {
    Annotation(
      [[], [7], [8], [1], [3], [8, 7], [5, 3], [4, 5, 3]],
      [[], [{0}], [{0}], [{0, 1}], [{0, 1}], [{1}, {0}], [{4}, {0, 1}], [{6}, {4}, {0, 1}]])
  }

  lemma Gotos()
    ensures GotoOk(Example(), Notes(), 0, 6)
    ensures GotoOk(Example(), Notes(), 0, 7)
    ensures GotoOk(Example(), Notes(), 0, 8)
    ensures GotoOk(Example(), Notes(), 1, 8)
  {
    assert EdgeOk(Example(), Notes(), 0, 7, 1);
    assert EdgeOk(Example(), Notes(), 0, 8, 2);
    assert PastAgrees(Example(), Notes(), 1, 5, 0);
    assert EdgeOk(Example(), Notes(), 1, 8, 5);
  }

  lemma UnitReductions()
    ensures ReduceOk(Example(), Notes(), 1, 0)
    ensures ReduceOk(Example(), Notes(), 2, 2)
    ensures ReduceOk(Example(), Notes(), 3, 3)
  {
    var t, an := Example(), Notes();
    Gotos();
    assert TopIsRhs(t, an, 1, 0, 0);
    assert TopIsRhs(t, an, 2, 2, 0);
    assert TopIsRhs(t, an, 3, 3, 0);
  }

  lemma LongReductions()
    ensures ReduceOk(Example(), Notes(), 5, 1)
    ensures ReduceOk(Example(), Notes(), 7, 4)
  {
    var t, an := Example(), Notes();
    Gotos();
    assert TopIsRhs(t, an, 5, 1, 0) && TopIsRhs(t, an, 5, 1, 1);
    assert TopIsRhs(t, an, 7, 4, 0) && TopIsRhs(t, an, 7, 4, 1) && TopIsRhs(t, an, 7, 4, 2);
  }

  lemma Shifts()
    ensures EdgeOk(Example(), Notes(), 0, 1, 3)
    ensures EdgeOk(Example(), Notes(), 0, 3, 4)
    ensures EdgeOk(Example(), Notes(), 1, 1, 3)
    ensures EdgeOk(Example(), Notes(), 1, 3, 4)
    ensures EdgeOk(Example(), Notes(), 4, 5, 6)
    ensures EdgeOk(Example(), Notes(), 6, 4, 7)
  {
    assert PastAgrees(Example(), Notes(), 4, 6, 0);
    assert PastAgrees(Example(), Notes(), 6, 7, 0) && PastAgrees(Example(), Notes(), 6, 7, 1);
  }

  lemma ExampleDefaults(s: nat)
    requires s < 8
    ensures DefaultOk(Example(), Notes(), s) && !ReducesToStart(Example(), Example().dflt[s])
  {
    UnitReductions();
    LongReductions();
  }

  lemma ExampleSlots(s: nat, x: nat)
    requires s < 8 && x < 6
    ensures SlotOk(Example(), Notes(), s, x)
  {
    UnitReductions();
    Shifts();
  }

  lemma ExampleStarts(s: nat, x: nat)
    requires s < 8 && 0 < x < 6
    ensures WellSized(Example())
    ensures HasShiftSlot(Example(), s, x) ==> !ReducesToStart(Example(), ShiftSlot(Example(), s, x))
  {
  }

  lemma AllDefaults(t: Tables, an: Annotation)
    requires t == Example() && an == Notes() && WellSized(t) && WellSizedAnnotation(t, an)
    ensures forall s {:trigger DefaultOk(t, an, s)} :: 0 <= s < t.nState ==> DefaultOk(t, an, s)
  {
    forall s | 0 <= s < t.nState
      ensures DefaultOk(t, an, s)
    {
      ExampleDefaults(s);
    }
  }

  lemma AllSlots(t: Tables, an: Annotation)
    requires t == Example() && an == Notes() && WellSized(t) && WellSizedAnnotation(t, an)
    ensures forall s, x: nat {:trigger SlotOk(t, an, s, x)} :: 0 <= s < t.nState && x in t.lookahead && x < t.nTerminal ==> SlotOk(t, an, s, x)
  {
    forall s, x: nat | 0 <= s < t.nState && x < t.nTerminal
      ensures SlotOk(t, an, s, x)
    {
      ExampleSlots(s, x);
    }
  }

  lemma StartAtEnd(t: Tables)
    requires t == Example() && WellSized(t)
    ensures StartsOnlyAtEnd(t)
  {
    forall s | 0 <= s < t.nState
      ensures !ReducesToStart(t, t.dflt[s])
    {
      ExampleDefaults(s);
    }
    forall s, x: nat | 0 <= s < t.nState && 0 < x < t.nTerminal && HasShiftSlot(t, s, x)
      ensures !ReducesToStart(t, ShiftSlot(t, s, x))
    {
      ExampleStarts(s, x);
    }
  }

  lemma ExampleSizes()
    ensures WellSized(Example()) && WellSizedAnnotation(Example(), Notes()) && Notes().past[0] == []
  {
  }

  /** The hypotheses of the soundness theorems are met by some tables. */
  lemma ExampleIsValid()
    ensures ValidTables(Example(), Notes()) && StartsOnlyAtEnd(Example())
  {
    ExampleSizes();
    AllDefaults(Example(), Notes());
    AllSlots(Example(), Notes());
    StartAtEnd(Example());
  }

  // ------------------------------------------------------------------------------------------
  // A run on KW LP ID RP: KW is read as ID by fallback, and the ID between the parentheses as ANY
  // ------------------------------------------------------------------------------------------

  const KW := Token(2, 0, 5)
  const LP := Token(3, 5, 1)
  const ID := Token(1, 6, 3)
  const RP := Token(4, 9, 1)
  const END := Token(0, 10, 0)

  function Eng(): Engine {
    Engine(Example(), 100, true)
  }

  lemma Lookups()
    ensures WellSized(Example())
    ensures ShiftAction(Example(), 0, 2) == 3 && ShiftAction(Example(), 1, 3) == 4
    ensures ShiftAction(Example(), 4, 1) == 6 && ShiftAction(Example(), 6, 4) == 7
    ensures ShiftAction(Example(), 3, 3) == 11 && ShiftAction(Example(), 2, 3) == 10
    ensures ShiftAction(Example(), 7, 0) == 12 && ShiftAction(Example(), 5, 0) == 9 && ShiftAction(Example(), 1, 0) == 8
  {
  }

  lemma GotoLookups()
    ensures WellSized(Example())
    ensures GotoDefined(Example(), 0, 8) && ReduceAction(Example(), 0, 8) == 2
    ensures GotoDefined(Example(), 0, 7) && ReduceAction(Example(), 0, 7) == 1
    ensures GotoDefined(Example(), 1, 8) && ReduceAction(Example(), 1, 8) == 5
    ensures GotoDefined(Example(), 0, 6) && ReduceAction(Example(), 0, 6) == 14
  {
  }

  /** The machine has these entries, and nothing went wrong so far. */
  ghost predicate Looks(m: Machine, states: seq<nat>, trees: seq<Tree>, shifted: seq<Token>) {
    && m.states == states && m.trees == trees && m.shifted == shifted
    && m.accepts == [] && m.errors == 0 && m.overflows == 0
  }

  /** A turn that shifts. */
  lemma Shifting(eng: Engine, an: Annotation, m: Machine, token: Token, s: nat)
    requires WellSized(eng.tables) && s < eng.tables.nState && Top(m) < eng.tables.nState
    requires ShiftAction(eng.tables, Top(m), token.major) == s && |m.states| < eng.depth
    requires Looks(m, m.states, m.trees, m.shifted)
    ensures var turn := Step(eng, an, m, token);
            && turn.tokenDone
            && Looks(turn.m, m.states + [s], m.trees + [Leaf(token, Accessing(an, s))], m.shifted + [token])
  {
    assert Decide(eng, m, token.major) == DoShift(s);
  }

  /** The rule, how many entries stay, and the action that the goto gives. */
  ghost predicate Backed(eng: Engine, m: Machine, la: nat, r: nat, k: nat, next: int) {
    var t := eng.tables;
    && WellSized(t) && r < |t.rules| && |m.trees| + 1 == |m.states| && k + |t.rules[r].rhs| == |m.trees|
    && Top(m) < t.nState && ShiftAction(t, Top(m), la) == t.nState + r
    && GotoDefined(t, m.states[k], t.rules[r].lhs) && ReduceAction(t, m.states[k], t.rules[r].lhs) == next
    && (t.IsShift(next) || next == t.AcceptAction())
  }

  lemma Deciding(eng: Engine, m: Machine, la: nat, r: nat, k: nat, next: int)
    requires Backed(eng, m, la, r, k, next)
    ensures Decide(eng, m, la) == DoReduce(r) && CanReduce(eng.tables, m, r) && Goto(eng.tables, m, r) == next
    ensures ReducedTree(eng.tables, m, r) == Node(r, m.trees[k..])
    ensures Consume(m, |eng.tables.rules[r].rhs|).states == m.states[..k + 1]
    ensures Consume(m, |eng.tables.rules[r].rhs|).trees == m.trees[..k]
  {
  }

  lemma StepIsReduce(eng: Engine, an: Annotation, m: Machine, token: Token, r: nat)
    requires Decide(eng, m, token.major) == DoReduce(r)
    ensures CanReduce(eng.tables, m, r) && Step(eng, an, m, token) == Turn(Reduce(eng, m, r, token.major), false)
  {
  }

  /** What a reduction does to the stack, apart from the ledger. */
  ghost predicate Reduced(eng: Engine, m: Machine, r: nat, la: nat, m': Machine)
    requires CanReduce(eng.tables, m, r)
  {
    var popped, next, tree := Consume(m, |eng.tables.rules[r].rhs|), Goto(eng.tables, m, r), ReducedTree(eng.tables, m, r);
    && m'.shifted == m.shifted && m'.errors == m.errors && m'.overflows == m.overflows
    && if eng.tables.IsShift(next)
       then m'.states == popped.states + [next] && m'.trees == popped.trees + [tree] && m'.accepts == m.accepts
       else m'.states == [] && m'.accepts == m.accepts + [Acceptance(tree, m.shifted, la)]
  }

  lemma ReduceFields(eng: Engine, m: Machine, r: nat, la: nat)
    requires CanReduce(eng.tables, m, r) && |m.states| <= eng.depth + |eng.tables.rules[r].rhs| - 1
    ensures Reduced(eng, m, r, la, Reduce(eng, m, r, la))
  {
  }

  /** What is left after a reduction that keeps `k` entries above the bottom one. */
  ghost predicate Left(eng: Engine, m: Machine, la: nat, r: nat, k: nat, next: int, m': Machine) {
    && k < |m.states| && k <= |m.trees|
    && m'.shifted == m.shifted && m'.errors == m.errors && m'.overflows == m.overflows
    && if eng.tables.IsShift(next)
       then m'.states == m.states[..k + 1] + [next] && m'.trees == m.trees[..k] + [Node(r, m.trees[k..])] && m'.accepts == m.accepts
       else m'.states == [] && m'.accepts == m.accepts + [Acceptance(Node(r, m.trees[k..]), m.shifted, la)]
  }

  lemma Leaves(eng: Engine, m: Machine, la: nat, r: nat, k: nat, next: int, m': Machine)
    requires Backed(eng, m, la, r, k, next) && CanReduce(eng.tables, m, r) && Reduced(eng, m, r, la, m')
    ensures Left(eng, m, la, r, k, next, m')
  {
    Deciding(eng, m, la, r, k, next);
  }

  /** A turn that reduces, or accepts. */
  lemma Reducing(eng: Engine, an: Annotation, m: Machine, token: Token, r: nat, k: nat, next: int)
    requires Backed(eng, m, token.major, r, k, next) && |eng.tables.rules[r].rhs| > 0 && |m.states| <= eng.depth
    ensures var turn := Step(eng, an, m, token); !turn.tokenDone && Left(eng, m, token.major, r, k, next, turn.m)
  {
    Deciding(eng, m, token.major, r, k, next);
    StepIsReduce(eng, an, m, token, r);
    ReduceFields(eng, m, r, token.major);
    Leaves(eng, m, token.major, r, k, next, Reduce(eng, m, r, token.major));
  }

  lemma LoopOnce(eng: Engine, an: Annotation, m: Machine, token: Token, fuel: nat)
    requires fuel > 0
    ensures var first := Step(eng, an, m, token);
            Loop(eng, an, m, token, fuel) ==
            if first.tokenDone || first.m.states == [] then Turn(first.m, true) else Loop(eng, an, first.m, token, fuel - 1)
  {
    assert TurnOn(eng, an, token)(m) == Step(eng, an, m, token);
  }

  const WORD := Leaf(KW, 1)
  const FIRST := Node(2, [Node(3, [WORD])])
  const GROUP := [Leaf(LP, 3), Leaf(ID, 5), Leaf(RP, 4)]
  const BOTH := Node(1, [FIRST, Node(4, GROUP)])
  const TREE := Node(0, [BOTH])

  lemma ReadsKw(m: Machine)
    requires Looks(m, [0], [], [])
    ensures var turn := Step(Eng(), Notes(), m, KW); turn.tokenDone && Looks(turn.m, [0, 3], [WORD], [KW])
  {
    Lookups();
    Shifting(Eng(), Notes(), m, KW, 3);
  }

  /** Before LP the word becomes an item and the item a list. */
  lemma ReadsWord(m: Machine)
    requires Looks(m, [0, 3], [WORD], [KW])
    ensures var turn := Step(Eng(), Notes(), m, LP); !turn.tokenDone && Looks(turn.m, [0, 2], [Node(3, [WORD])], [KW])
  {
    Lookups();
    GotoLookups();
    Reducing(Eng(), Notes(), m, LP, 3, 0, 2);
  }

  lemma ReadsItem(m: Machine)
    requires Looks(m, [0, 2], [Node(3, [WORD])], [KW])
    ensures var turn := Step(Eng(), Notes(), m, LP); !turn.tokenDone && Looks(turn.m, [0, 1], [FIRST], [KW])
  {
    Lookups();
    GotoLookups();
    Reducing(Eng(), Notes(), m, LP, 2, 0, 1);
  }

  lemma ReadsLp(m: Machine)
    requires Looks(m, [0, 1], [FIRST], [KW])
    ensures var turn := Step(Eng(), Notes(), m, LP); turn.tokenDone && Looks(turn.m, [0, 1, 4], [FIRST, GROUP[0]], [KW, LP])
  {
    Lookups();
    Shifting(Eng(), Notes(), m, LP, 4);
  }

  /** The wildcard. */
  lemma ReadsAny(m: Machine)
    requires Looks(m, [0, 1, 4], [FIRST, GROUP[0]], [KW, LP])
    ensures var turn := Step(Eng(), Notes(), m, ID);
            turn.tokenDone && Looks(turn.m, [0, 1, 4, 6], [FIRST, GROUP[0], GROUP[1]], [KW, LP, ID])
  {
    Lookups();
    Shifting(Eng(), Notes(), m, ID, 6);
  }

  lemma ReadsRp(m: Machine)
    requires Looks(m, [0, 1, 4, 6], [FIRST, GROUP[0], GROUP[1]], [KW, LP, ID])
    ensures var turn := Step(Eng(), Notes(), m, RP);
            turn.tokenDone && Looks(turn.m, [0, 1, 4, 6, 7], [FIRST] + GROUP, [KW, LP, ID, RP])
  {
    Lookups();
    Shifting(Eng(), Notes(), m, RP, 7);
  }

  /** At the end marker the group becomes an item, the two items one list, and the list the input. */
  lemma ReadsGroup(m: Machine)
    requires Looks(m, [0, 1, 4, 6, 7], [FIRST] + GROUP, [KW, LP, ID, RP])
    ensures var turn := Step(Eng(), Notes(), m, END);
            !turn.tokenDone && Looks(turn.m, [0, 1, 5], [FIRST, Node(4, GROUP)], [KW, LP, ID, RP])
  {
    Lookups();
    GotoLookups();
    Reducing(Eng(), Notes(), m, END, 4, 1, 5);
    assert m.trees[1..] == GROUP;
  }

  lemma ReadsBoth(m: Machine)
    requires Looks(m, [0, 1, 5], [FIRST, Node(4, GROUP)], [KW, LP, ID, RP])
    ensures var turn := Step(Eng(), Notes(), m, END);
            !turn.tokenDone && Looks(turn.m, [0, 1], [BOTH], [KW, LP, ID, RP])
  {
    Lookups();
    GotoLookups();
    Reducing(Eng(), Notes(), m, END, 1, 0, 1);
  }

  lemma ReadsInput(m: Machine)
    requires Looks(m, [0, 1], [BOTH], [KW, LP, ID, RP])
    ensures var m' := Step(Eng(), Notes(), m, END).m;
            && m'.states == [] && m'.errors == 0 && m'.overflows == 0
            && m'.accepts == [Acceptance(TREE, [KW, LP, ID, RP], 0)]
  {
    Lookups();
    GotoLookups();
    Reducing(Eng(), Notes(), m, END, 0, 0, 14);
  }

  /** The three turns on LP, and the three on the end marker. */
  lemma LpTurns(m: Machine)
    requires Looks(m, [0, 3], [WORD], [KW])
    ensures var turn := Loop(Eng(), Notes(), m, LP, 3); turn.tokenDone && Looks(turn.m, [0, 1, 4], [FIRST, GROUP[0]], [KW, LP])
  {
    ReadsWord(m);
    LoopOnce(Eng(), Notes(), m, LP, 3);
    var m1 := Step(Eng(), Notes(), m, LP).m;
    ReadsItem(m1);
    LoopOnce(Eng(), Notes(), m1, LP, 2);
    var m2 := Step(Eng(), Notes(), m1, LP).m;
    ReadsLp(m2);
    LoopOnce(Eng(), Notes(), m2, LP, 1);
  }

  lemma EndTurns(m: Machine)
    requires Looks(m, [0, 1, 4, 6, 7], [FIRST] + GROUP, [KW, LP, ID, RP])
    ensures var turn := Loop(Eng(), Notes(), m, END, 3);
            && turn.tokenDone && turn.m.errors == 0 && turn.m.overflows == 0
            && turn.m.accepts == [Acceptance(TREE, [KW, LP, ID, RP], 0)]
  {
    ReadsGroup(m);
    LoopOnce(Eng(), Notes(), m, END, 3);
    var m1 := Step(Eng(), Notes(), m, END).m;
    ReadsBoth(m1);
    LoopOnce(Eng(), Notes(), m1, END, 2);
    var m2 := Step(Eng(), Notes(), m1, END).m;
    ReadsInput(m2);
    LoopOnce(Eng(), Notes(), m2, END, 1);
  }

  /** One more call. */
  lemma OneMore(eng: Engine, an: Annotation, before: seq<Input>, input: Input)
    requires var b := ParseAll(eng, an, before); b.tokenDone && b.m.states != []
    ensures ParseAll(eng, an, before + [input]) == Loop(eng, an, ParseAll(eng, an, before).m, input.token, input.fuel)
  {
    assert (before + [input])[..|before|] == before;
    ParseAllUnfold(eng, an, before + [input]);
  }

  const I1 := [Input(KW, 1)]
  const I2 := I1 + [Input(LP, 3)]
  const I3 := I2 + [Input(ID, 1)]
  const I4 := I3 + [Input(RP, 1)]

  lemma FirstCall()
    ensures var turn := ParseAll(Eng(), Notes(), I1); turn.tokenDone && Looks(turn.m, [0, 3], [WORD], [KW])
  {
    assert I1[..0] == [];
    ReadsKw(Start(Fresh()));
    LoopOnce(Eng(), Notes(), Start(Fresh()), KW, 1);
    ParseAllUnfold(Eng(), Notes(), I1);
  }

  lemma SecondCall()
    ensures var turn := ParseAll(Eng(), Notes(), I2); turn.tokenDone && Looks(turn.m, [0, 1, 4], [FIRST, GROUP[0]], [KW, LP])
  {
    FirstCall();
    OneMore(Eng(), Notes(), I1, Input(LP, 3));
    LpTurns(ParseAll(Eng(), Notes(), I1).m);
  }

  lemma ThirdCall()
    ensures var turn := ParseAll(Eng(), Notes(), I3);
            turn.tokenDone && Looks(turn.m, [0, 1, 4, 6], [FIRST, GROUP[0], GROUP[1]], [KW, LP, ID])
  {
    SecondCall();
    OneMore(Eng(), Notes(), I2, Input(ID, 1));
    ReadsAny(ParseAll(Eng(), Notes(), I2).m);
    LoopOnce(Eng(), Notes(), ParseAll(Eng(), Notes(), I2).m, ID, 1);
  }

  lemma FourthCall()
    ensures var turn := ParseAll(Eng(), Notes(), I4);
            turn.tokenDone && Looks(turn.m, [0, 1, 4, 6, 7], [FIRST] + GROUP, [KW, LP, ID, RP])
  {
    ThirdCall();
    OneMore(Eng(), Notes(), I3, Input(RP, 1));
    ReadsRp(ParseAll(Eng(), Notes(), I3).m);
    LoopOnce(Eng(), Notes(), ParseAll(Eng(), Notes(), I3).m, RP, 1);
  }

  lemma LastCall()
    ensures var m := ParseAll(Eng(), Notes(), I4 + [Input(END, 3)]).m;
            m.errors == 0 && m.overflows == 0 && m.accepts == [Acceptance(TREE, [KW, LP, ID, RP], 0)]
  {
    FourthCall();
    OneMore(Eng(), Notes(), I4, Input(END, 3));
    EndTurns(ParseAll(Eng(), Notes(), I4).m);
  }

  lemma InputsFit(inputs: seq<Input>, nTerminal: nat)
    requires inputs == I4 && nTerminal == 6
    ensures |inputs| == 4 && inputs[0].token == KW && inputs[1].token == LP && inputs[2].token == ID && inputs[3].token == RP
    ensures forall i :: 0 <= i < |inputs| ==> inputs[i].token.major < nTerminal
  {
  }

  lemma InputsSpell()
    ensures Terminals(Example(), I4) && Spells(I4, [KW, LP, ID, RP])
  {
    InputsFit(I4, 6);
  }

  /** A run that meets every hypothesis of `WholeInputDerives`, with a token read by fallback, one by
      wildcard, and reductions of one, two and three entries. */
  lemma ExampleAccepts()
    ensures Terminals(Example(), I4) && Spells(I4, [KW, LP, ID, RP])
    ensures ParseAll(Eng(), Notes(), I4).tokenDone
    ensures var m := ParseAll(Eng(), Notes(), I4 + [Input(END, 3)]).m;
            m.errors == 0 && m.overflows == 0 && m.accepts == [Acceptance(TREE, [KW, LP, ID, RP], 0)]
  {
    FourthCall();
    LastCall();
    InputsSpell();
  }
}
