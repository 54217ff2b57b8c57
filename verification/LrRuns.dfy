/**
 Runs of the parser: turns of the driver loop, calls, and sequences of calls, with the properties
 that hold after every run.
 */
module LrRuns {
  import opened LrTables
  import opened LrMachine

  /** A machine state with whether the token being read is finished with. */
  datatype Turn = Turn(m: Machine, tokenDone: bool)

  function Top(m: Machine): nat {
    if m.states == [] then 0 else m.states[|m.states| - 1]
  }

  /** What a turn does.  It halts where a lookup would go out of range or one of the code's
      assertions would fail; valid tables never let it. */
  datatype Decision = DoShift(state: nat) | DoReduce(rule: nat) | DoReject | Halt

  predicate CanFinishReduce(t: Tables, m: Machine, r: nat) {
    CanReduce(t, m, r) && (t.IsShift(Goto(t, m, r)) || Goto(t, m, r) == t.AcceptAction())
  }

  function Decide(eng: Engine, m: Machine, la: nat): (d: Decision)
    ensures d.DoReduce? ==> CanFinishReduce(eng.tables, m, d.rule)
  {
    if !WellSized(eng.tables) || Top(m) >= eng.tables.nState then Halt
    else
      var act := ShiftAction(eng.tables, Top(m), la);
      if eng.tables.IsShift(act) then DoShift(act)
      else if eng.tables.IsReduce(act) then
        var r := act - eng.tables.nState;
        if CanFinishReduce(eng.tables, m, r) then DoReduce(r) else Halt
      else if act == eng.tables.ErrorAction() then DoReject
      else Halt
  }

  /** The symbol by which state `s` is entered. */
  function Accessing(an: Annotation, s: nat): nat {
    if s < |an.past| && |an.past[s]| > 0 then an.past[s][0] else 0
  }

  function Apply(eng: Engine, an: Annotation, m: Machine, token: Token, d: Decision): Turn
    requires d.DoReduce? ==> CanReduce(eng.tables, m, d.rule)
  {
    match d
    case DoShift(s) =>
      Turn(Push(eng, m, s, Leaf(token, Accessing(an, s))).(shifted := m.shifted + [token], errcnt := m.errcnt - 1), true)
    case DoReduce(r) => Turn(Reduce(eng, m, r, token.major), false)
    case DoReject => Turn(SyntaxError(eng, m, token.major), true)
    case Halt => Turn(m, true)
  }

  /** One turn of the do-while loop of sqlite4Parser. */
  function Step(eng: Engine, an: Annotation, m: Machine, token: Token): Turn {
    Apply(eng, an, m, token, Decide(eng, m, token.major))
  }

  /** A do-while loop of turns: it ends when the token is done with or the stack is empty, and is
      cut off after `fuel` turns. */
  function Iterate(step: Machine -> Turn, m: Machine, fuel: nat): Turn
    decreases fuel
  {
    if fuel == 0 then Turn(m, false)
    else
      var first := step(m);
      if first.tokenDone || first.m.states == [] then Turn(first.m, true)
      else Iterate(step, first.m, fuel - 1)
  }

  /** A loop that was not cut off does the same with any larger number of turns. */
  lemma {:induction false} MoreTurns(step: Machine -> Turn, m: Machine, fuel: nat, more: nat)
    requires fuel <= more && Iterate(step, m, fuel).tokenDone
    ensures Iterate(step, m, more) == Iterate(step, m, fuel)
    decreases fuel
  {
    if fuel > 0 && !step(m).tokenDone && step(m).m.states != [] {
      MoreTurns(step, step(m).m, fuel - 1, more - 1);
    }
  }

  function TurnOn(eng: Engine, an: Annotation, token: Token): Machine -> Turn {
    m => Step(eng, an, m, token)
  }

  /** The driver loop. */
  function Loop(eng: Engine, an: Annotation, m: Machine, token: Token, fuel: nat): Turn {
    Iterate(TurnOn(eng, an, token), m, fuel)
  }

  /** One call of sqlite4Parser. */
  datatype Input = Input(token: Token, fuel: nat)

  function Begun(m: Machine): Machine {
    if m.states == [] then Start(m) else m
  }

  function Feed(eng: Engine, an: Annotation, m: Machine, input: Input): Turn {
    Loop(eng, an, Begun(m), input.token, input.fuel)
  }

  /** The calls made on a freshly allocated parser, up to the first whose loop was cut off. */
  function ParseAll(eng: Engine, an: Annotation, inputs: seq<Input>): Turn
    decreases |inputs|
  {
    if inputs == [] then Turn(Fresh(), true)
    else
      var before := ParseAll(eng, an, inputs[..|inputs| - 1]);
      if before.tokenDone then Feed(eng, an, before.m, inputs[|inputs| - 1]) else before
  }

  // ------------------------------------------------------------------------------------------
  // Induction over runs
  // ------------------------------------------------------------------------------------------

  /** Every turn keeps `q`, and so does ending the loop on an empty stack. */
  ghost predicate KeptByTurns(step: Machine -> Turn, q: Turn -> bool) {
    && (forall m {:trigger step(m)} :: q(Turn(m, false)) && m.states != [] ==> q(step(m)))
    && (forall m {:trigger q(Turn(m, false))} :: q(Turn(m, false)) && m.states == [] ==> q(Turn(m, true)))
  }

  lemma {:induction false} LoopKeeps(step: Machine -> Turn, q: Turn -> bool, m: Machine, fuel: nat)
    requires KeptByTurns(step, q) && q(Turn(m, false)) && m.states != []
    ensures q(Iterate(step, m, fuel))
    decreases fuel
  {
    if fuel > 0 {
      var first := step(m);
      assert first == Turn(first.m, first.tokenDone);
      if !first.tokenDone && first.m.states != [] {
        LoopKeeps(step, q, first.m, fuel - 1);
      }
    }
  }

  /** Every turn on an `ok` token, and the (re)initialisation, keep `p`. */
  ghost predicate Kept(eng: Engine, an: Annotation, ok: Token -> bool, p: Machine -> bool) {
    && p(Fresh())
    && (forall m {:trigger Start(m)} :: p(m) && m.states == [] ==> p(Start(m)))
    && (forall m, token {:trigger Step(eng, an, m, token)} :: ok(token) && p(m) && m.states != [] ==> p(Step(eng, an, m, token).m))
  }

  /** What every turn keeps holds after every run. */
  lemma {:induction false} RunKeeps(eng: Engine, an: Annotation, ok: Token -> bool, p: Machine -> bool, inputs: seq<Input>)
    requires Kept(eng, an, ok, p) && forall i :: 0 <= i < |inputs| ==> ok(inputs[i].token)
    ensures p(ParseAll(eng, an, inputs).m)
    decreases |inputs|
  {
    if inputs != [] {
      var n := |inputs| - 1;
      RunKeeps(eng, an, ok, p, inputs[..n]);
      var before := ParseAll(eng, an, inputs[..n]);
      if before.tokenDone {
        assert p(Begun(before.m));
        LoopKeeps(TurnOn(eng, an, inputs[n].token), (turn: Turn) => p(turn.m), Begun(before.m), inputs[n].fuel);
      }
    }
  }

  // ------------------------------------------------------------------------------------------
  // Soundness
  // ------------------------------------------------------------------------------------------

  /** What valid tables promise about a decision. */
  ghost predicate DecisionOk(eng: Engine, an: Annotation, m: Machine, la: nat, d: Decision)
    requires ValidTables(eng.tables, an)
  {
    match d
    case DoShift(s) =>
      && StandsFor(eng.tables, la, Accessing(an, s))
      && TerminalSymbol(eng.tables, Accessing(an, s))
      && EdgeOk(eng.tables, an, Top(m), Accessing(an, s), s)
    case DoReduce(r) =>
      && CanReduce(eng.tables, m, r)
      && ReduceOk(eng.tables, an, Top(m), r)
      && (StartsOnlyAtEnd(eng.tables) && eng.tables.rules[r].lhs == eng.tables.start ==> la == 0)
    case DoReject => true
    case Halt => false
  }

  lemma TopInRange(eng: Engine, an: Annotation, m: Machine)
    requires Inv(eng, an, m) && m.states != []
    ensures ValidTables(eng.tables, an) && Top(m) == m.states[|m.states| - 1] < eng.tables.nState
  {
    assert PathOk(eng.tables, an, m.states, m.trees, |m.states| - 1);
  }

  lemma FinishesReduce(eng: Engine, an: Annotation, m: Machine, r: nat)
    requires Inv(eng, an, m) && m.states != [] && ReduceOk(eng.tables, an, m.states[|m.states| - 1], r)
    ensures CanFinishReduce(eng.tables, m, r)
  {
    ReduceReady(eng, an, m, r);
  }

  /** A decision for a looked-up action. */
  lemma DecideBacked(eng: Engine, an: Annotation, m: Machine, la: nat)
    requires ValidTables(eng.tables, an) && Top(m) < eng.tables.nState && la < eng.tables.nTerminal
    requires var act := ShiftAction(eng.tables, Top(m), la);
             eng.tables.IsReduce(act) ==> CanFinishReduce(eng.tables, m, act - eng.tables.nState)
    ensures DecisionOk(eng, an, m, la, Decide(eng, m, la))
  {
    ShiftActionOk(eng.tables, an, Top(m), la);
  }

  /** No lookup goes out of range, no assertion of the code fails, and what is decided is backed
      by the tables. */
  lemma DecideOk(eng: Engine, an: Annotation, m: Machine, la: nat)
    requires Inv(eng, an, m) && m.states != [] && la < eng.tables.nTerminal
    ensures DecisionOk(eng, an, m, la, Decide(eng, m, la))
  {
    TopInRange(eng, an, m);
    ShiftActionOk(eng.tables, an, Top(m), la);
    var act := ShiftAction(eng.tables, Top(m), la);
    if eng.tables.IsReduce(act) {
      FinishesReduce(eng, an, m, act - eng.tables.nState);
    }
    DecideBacked(eng, an, m, la);
  }

  lemma ApplyInv(eng: Engine, an: Annotation, m: Machine, token: Token, d: Decision)
    requires Inv(eng, an, m) && m.states != [] && DecisionOk(eng, an, m, token.major, d)
    ensures Inv(eng, an, Apply(eng, an, m, token, d).m)
  {
    match d
    case DoShift(s) =>
      var tree := Leaf(token, Accessing(an, s));
      assert Yield(tree) == [token];
      PushInv(eng, an, m, s, tree, m.shifted + [token]);
    case DoReduce(r) =>
      ReduceInv(eng, an, m, r, token.major);
    case DoReject =>
  }

  /** Every turn keeps the invariant. */
  lemma StepInv(eng: Engine, an: Annotation, m: Machine, token: Token)
    requires Inv(eng, an, m) && m.states != [] && token.major < eng.tables.nTerminal
    ensures Inv(eng, an, Step(eng, an, m, token).m)
  {
    DecideOk(eng, an, m, token.major);
    ApplyInv(eng, an, m, token, Decide(eng, m, token.major));
  }

  /** A turn accepts at most what a reduction leads to, and only if there is no goto. */
  lemma ApplyAcceptList(eng: Engine, an: Annotation, m: Machine, token: Token, d: Decision)
    requires d.DoReduce? ==> CanReduce(eng.tables, m, d.rule)
    ensures Apply(eng, an, m, token, d).m.accepts ==
            if d.DoReduce? && !eng.tables.IsShift(Goto(eng.tables, m, d.rule))
            then m.accepts + [Acceptance(ReducedTree(eng.tables, m, d.rule), m.shifted, token.major)]
            else m.accepts
  {
  }

  lemma ApplyAccepts(eng: Engine, an: Annotation, m: Machine, token: Token, d: Decision)
    requires Inv(eng, an, m) && m.states != [] && DecisionOk(eng, an, m, token.major, d)
    requires AcceptsOk(eng.tables, m.accepts)
    ensures AcceptsOk(eng.tables, Apply(eng, an, m, token, d).m.accepts)
  {
    ApplyAcceptList(eng, an, m, token, d);
    if d.DoReduce? {
      ReduceInv(eng, an, m, d.rule, token.major);
      AcceptsExtend(eng.tables, m.accepts, Acceptance(ReducedTree(eng.tables, m, d.rule), m.shifted, token.major));
    }
  }

  lemma AcceptsExtend(t: Tables, accepts: seq<Acceptance>, a: Acceptance)
    requires WellSized(t) && AcceptsOk(t, accepts)
    ensures AcceptOk(t, a) ==> AcceptsOk(t, accepts + [a])
  {
  }

  /** What a turn accepts is derived. */
  lemma StepAccepts(eng: Engine, an: Annotation, m: Machine, token: Token)
    requires Inv(eng, an, m) && m.states != [] && token.major < eng.tables.nTerminal && AcceptsOk(eng.tables, m.accepts)
    ensures AcceptsOk(eng.tables, Step(eng, an, m, token).m.accepts)
  {
    DecideOk(eng, an, m, token.major);
    ApplyAccepts(eng, an, m, token, Decide(eng, m, token.major));
  }

  ghost predicate Sound(eng: Engine, an: Annotation, m: Machine) {
    Inv(eng, an, m) && AcceptsOk(eng.tables, m.accepts)
  }

  /** Only terminal codes are fed. */
  predicate Terminals(t: Tables, inputs: seq<Input>) {
    forall i :: 0 <= i < |inputs| ==> inputs[i].token.major < t.nTerminal
  }

  lemma RunSound(eng: Engine, an: Annotation, inputs: seq<Input>)
    requires ValidTables(eng.tables, an) && 0 < eng.depth && Terminals(eng.tables, inputs)
    ensures Sound(eng, an, ParseAll(eng, an, inputs).m)
  {
    forall m | Sound(eng, an, m) && m.states == []
      ensures Sound(eng, an, Start(m))
    {
      StartInv(eng, an, m);
    }
    forall m, token: Token | Sound(eng, an, m) && m.states != [] && token.major < eng.tables.nTerminal
      ensures Sound(eng, an, Step(eng, an, m, token).m)
    {
      StepInv(eng, an, m, token);
      StepAccepts(eng, an, m, token);
    }
    RunKeeps(eng, an, (token: Token) => token.major < eng.tables.nTerminal, m => Sound(eng, an, m), inputs);
  }

  /** Parser soundness: whatever is fed to a freshly allocated parser, every acceptance has a
      derivation tree of the start symbol whose leaves are exactly the tokens shifted. */
  lemma ParserSound(eng: Engine, an: Annotation, inputs: seq<Input>, a: Acceptance)
    requires ValidTables(eng.tables, an) && 0 < eng.depth && Terminals(eng.tables, inputs)
    requires a in ParseAll(eng, an, inputs).m.accepts
    ensures Derivation(eng.tables, a.tree) && Root(eng.tables, a.tree) == eng.tables.start
    ensures Yield(a.tree) == a.tokens
  {
    RunSound(eng, an, inputs);
    assert AcceptOk(eng.tables, a);
  }

  /** In every reachable configuration with a nonempty stack the values on it are derivation trees
      that together spell the tokens shifted so far, at most `depth` entries are in use, and no
      lookup or assertion of the next turn can fail, whatever the token. */
  lemma StackIsDerived(eng: Engine, an: Annotation, inputs: seq<Input>, la: nat)
    requires la < eng.tables.nTerminal
    requires ValidTables(eng.tables, an) && 0 < eng.depth && Terminals(eng.tables, inputs)
    ensures var m := ParseAll(eng, an, inputs).m;
            && |m.states| <= eng.depth
            && (m.states != [] ==>
                  && |m.trees| + 1 == |m.states|
                  && (forall i :: 0 <= i < |m.trees| ==> Derivation(eng.tables, m.trees[i]))
                  && YieldAll(m.trees) == m.shifted
                  && !Decide(eng, m, la).Halt?)
  {
    RunSound(eng, an, inputs);
    var m := ParseAll(eng, an, inputs).m;
    if m.states != [] {
      DecideOk(eng, an, m, la);
    }
  }

  // ------------------------------------------------------------------------------------------
  // Conservation of values
  // ------------------------------------------------------------------------------------------

  ghost predicate Balanced(m: Machine) {
    m.ledger.pushed == m.ledger.consumed + m.ledger.destroyed + Bag(m.trees)
  }

  lemma {:induction false} BagConcat(a: seq<Tree>, b: seq<Tree>)
    ensures Bag(a + b) == Bag(a) + Bag(b)
  {
    if b == [] {
      assert a + b == a;
    } else {
      BagConcat(a, b[..|b| - 1]);
      assert (a + b)[..|a + b| - 1] == a + b[..|b| - 1];
      assert (a + b)[|a + b| - 1] == b[|b| - 1];
    }
  }

  lemma PopAllBalanced(m: Machine)
    requires Balanced(m)
    ensures Balanced(PopAll(m))
  {
    PlusAssociative(m.ledger.consumed, m.ledger.destroyed, Bag(m.trees));
  }

  lemma PlusAssociative<T>(a: multiset<T>, b: multiset<T>, c: multiset<T>)
    ensures (a + b) + c == a + (b + c)
  {
  }

  lemma PushBalanced(eng: Engine, m: Machine, state: nat, tree: Tree)
    requires Balanced(m)
    ensures Balanced(Push(eng, m, state, tree))
  {
    if |m.states| >= eng.depth {
      PopAllBalanced(m);
    } else {
      assert (m.trees + [tree])[..|m.trees + [tree]| - 1] == m.trees;
      assert Bag(m.trees + [tree]) == Bag(m.trees) + multiset{tree};
      PlusAssociative(m.ledger.consumed + m.ledger.destroyed, Bag(m.trees), multiset{tree});
    }
  }

  lemma ConsumeBalanced(m: Machine, n: nat)
    requires n <= |m.trees| < |m.states| && Balanced(m)
    ensures Balanced(Consume(m, n))
  {
    var k := |m.trees| - n;
    assert m.trees == m.trees[..k] + m.trees[k..];
    BagConcat(m.trees[..k], m.trees[k..]);
  }

  lemma ReduceBalanced(eng: Engine, m: Machine, r: nat, la: nat)
    requires Balanced(m) && CanReduce(eng.tables, m, r)
    ensures Balanced(Reduce(eng, m, r, la))
  {
    var t := eng.tables;
    var popped := Consume(m, |t.rules[r].rhs|);
    ConsumeBalanced(m, |t.rules[r].rhs|);
    if t.IsShift(Goto(t, m, r)) {
      PushBalanced(eng, popped, Goto(t, m, r), ReducedTree(t, m, r));
    } else {
      PopAllBalanced(popped);
    }
  }

  ghost predicate Settled(m: Machine) {
    Balanced(m) && (m.states == [] ==> m.trees == [])
  }

  lemma PushSettled(eng: Engine, m: Machine, state: nat, tree: Tree)
    requires Settled(m)
    ensures Settled(Push(eng, m, state, tree))
  {
    PushBalanced(eng, m, state, tree);
  }

  lemma ReduceSettled(eng: Engine, m: Machine, r: nat, la: nat)
    requires Settled(m) && CanReduce(eng.tables, m, r)
    ensures Settled(Reduce(eng, m, r, la))
  {
    ReduceBalanced(eng, m, r, la);
  }

  lemma RejectSettled(eng: Engine, m: Machine, la: nat)
    requires Settled(m)
    ensures Settled(SyntaxError(eng, m, la))
  {
    PopAllBalanced(m);
  }

  /** Only the stack and the ledger matter. */
  lemma SameStackSettled(m: Machine, m': Machine)
    requires Settled(m) && m'.states == m.states && m'.trees == m.trees && m'.ledger == m.ledger
    ensures Settled(m')
  {
  }

  lemma ApplySettled(eng: Engine, an: Annotation, m: Machine, token: Token, d: Decision)
    requires Settled(m) && (d.DoReduce? ==> CanReduce(eng.tables, m, d.rule))
    ensures Settled(Apply(eng, an, m, token, d).m)
  {
    match d
    case DoShift(s) =>
      var tree := Leaf(token, Accessing(an, s));
      PushSettled(eng, m, s, tree);
      SameStackSettled(Push(eng, m, s, tree), Apply(eng, an, m, token, d).m);
    case DoReduce(r) => ReduceSettled(eng, m, r, token.major);
    case DoReject => RejectSettled(eng, m, token.major);
    case Halt =>
  }

  /** Stack discipline: over every run each value that was pushed is on the stack, was consumed by
      one reduction, or was destroyed once; on an empty stack nothing is left over. */
  lemma ValuesAreConserved(eng: Engine, an: Annotation, inputs: seq<Input>)
    ensures var m := ParseAll(eng, an, inputs).m;
            && m.ledger.pushed == m.ledger.consumed + m.ledger.destroyed + Bag(m.trees)
            && (m.states == [] ==> m.ledger.pushed == m.ledger.consumed + m.ledger.destroyed)
  {
    forall m, token | Settled(m)
      ensures Settled(Step(eng, an, m, token).m)
    {
      ApplySettled(eng, an, m, token, Decide(eng, m, token.major));
    }
    RunKeeps(eng, an, _ => true, m => Settled(m), inputs);
    assert Settled(ParseAll(eng, an, inputs).m);
  }

  // ------------------------------------------------------------------------------------------
  // Error reports
  // ------------------------------------------------------------------------------------------

  /** Between two reports three tokens are shifted, and yyerrcnt keeps count of them. */
  ghost predicate Spaced(m: Machine) {
    && m.errcnt <= 3
    && (forall i, j {:trigger m.reported[i], m.reported[j]} :: 0 <= i < j < |m.reported| ==> m.reported[i] + 3 <= m.reported[j])
    && (m.reported != [] ==> m.reported[|m.reported| - 1] + 3 <= |m.shifted| + m.errcnt)
  }

  /** What matters to it when no token is shifted and none rejected. */
  lemma SpacedSame(m: Machine, m': Machine)
    requires Spaced(m) && m'.reported == m.reported && m'.shifted == m.shifted && m'.errcnt == m.errcnt
    ensures Spaced(m')
  {
  }

  lemma ShiftSpaced(eng: Engine, an: Annotation, m: Machine, token: Token, s: nat)
    requires Spaced(m)
    ensures Spaced(Apply(eng, an, m, token, DoShift(s)).m)
  {
  }

  lemma RejectSpaced(eng: Engine, m: Machine, la: nat)
    requires Spaced(m) && !eng.noRecovery
    ensures Spaced(SyntaxError(eng, m, la))
  {
  }

  lemma ApplySpaced(eng: Engine, an: Annotation, m: Machine, token: Token, d: Decision)
    requires Spaced(m) && !eng.noRecovery && (d.DoReduce? ==> CanReduce(eng.tables, m, d.rule))
    ensures Spaced(Apply(eng, an, m, token, d).m)
  {
    match d
    case DoShift(s) => ShiftSpaced(eng, an, m, token, s);
    case DoReduce(r) => SpacedSame(m, Reduce(eng, m, r, token.major));
    case DoReject => RejectSpaced(eng, m, token.major);
    case Halt =>
  }

  /** With recovery, in every run further errors go unreported until three tokens have been shifted. */
  lemma ReportsAreSpaced(eng: Engine, an: Annotation, inputs: seq<Input>, i: nat, j: nat)
    requires !eng.noRecovery && i < j < |ParseAll(eng, an, inputs).m.reported|
    ensures var r := ParseAll(eng, an, inputs).m.reported; r[i] + 3 <= r[j]
  {
    forall m, token | Spaced(m)
      ensures Spaced(Step(eng, an, m, token).m)
    {
      ApplySpaced(eng, an, m, token, Decide(eng, m, token.major));
    }
    RunKeeps(eng, an, _ => true, m => Spaced(m), inputs);
    assert Spaced(ParseAll(eng, an, inputs).m);
  }

  // ------------------------------------------------------------------------------------------
  // Acceptance covers the whole input
  // ------------------------------------------------------------------------------------------

  /** How the machine may change while `token` is being read, as long as that involves neither a
      syntax error nor an overflow: either the token is shifted when it is done with, or the
      tokens shifted before it are accepted. */
  ghost predicate CleanStep(atEnd: bool, m: Machine, token: Token, turn: Turn) {
    && m.errors <= turn.m.errors
    && m.overflows <= turn.m.overflows
    && (m.errors == turn.m.errors && m.overflows == turn.m.overflows ==>
          if |turn.m.accepts| == |m.accepts| then
            turn.m.accepts == m.accepts && turn.m.states != [] &&
            turn.m.shifted == if turn.tokenDone then m.shifted + [token] else m.shifted
          else
            && atEnd
            && turn.m.states == []
            && |turn.m.accepts| == |m.accepts| + 1
            && turn.m.accepts[|m.accepts|].tokens == m.shifted)
  }

  lemma CleanTransitive(atEnd: bool, m: Machine, token: Token, first: Turn, last: Turn)
    requires CleanStep(atEnd, m, token, first) && !first.tokenDone && first.m.states != []
    requires CleanStep(atEnd, first.m, token, last)
    ensures CleanStep(atEnd, m, token, last)
  {
  }

  lemma ShiftClean(eng: Engine, an: Annotation, m: Machine, token: Token, s: nat, atEnd: bool)
    ensures CleanStep(atEnd, m, token, Apply(eng, an, m, token, DoShift(s)))
  {
  }

  lemma ReduceClean(eng: Engine, an: Annotation, m: Machine, token: Token, r: nat, atEnd: bool)
    requires CanReduce(eng.tables, m, r) && (!eng.tables.IsShift(Goto(eng.tables, m, r)) ==> atEnd)
    ensures CleanStep(atEnd, m, token, Apply(eng, an, m, token, DoReduce(r)))
  {
  }

  lemma ApplyClean(eng: Engine, an: Annotation, m: Machine, token: Token, d: Decision)
    requires Inv(eng, an, m) && m.states != [] && StartsOnlyAtEnd(eng.tables)
    requires DecisionOk(eng, an, m, token.major, d)
    ensures CleanStep(token.major == 0, m, token, Apply(eng, an, m, token, d))
  {
    match d
    case DoShift(s) => ShiftClean(eng, an, m, token, s, token.major == 0);
    case DoReduce(r) =>
      ReduceInv(eng, an, m, r, token.major);
      ReduceClean(eng, an, m, token, r, token.major == 0);
    case DoReject =>
  }

  lemma StepClean(eng: Engine, an: Annotation, m: Machine, token: Token)
    requires Inv(eng, an, m) && m.states != [] && token.major < eng.tables.nTerminal && StartsOnlyAtEnd(eng.tables)
    ensures CleanStep(token.major == 0, m, token, Step(eng, an, m, token))
  {
    DecideOk(eng, an, m, token.major);
    ApplyClean(eng, an, m, token, Decide(eng, m, token.major));
  }

  lemma LoopClean(eng: Engine, an: Annotation, m: Machine, token: Token, fuel: nat)
    requires Inv(eng, an, m) && m.states != [] && token.major < eng.tables.nTerminal && StartsOnlyAtEnd(eng.tables)
    ensures CleanStep(token.major == 0, m, token, Loop(eng, an, m, token, fuel))
  {
    var q := (turn: Turn) => Inv(eng, an, turn.m) && CleanStep(token.major == 0, m, token, turn);
    forall m1 | q(Turn(m1, false)) && m1.states != []
      ensures q(Step(eng, an, m1, token))
    {
      StepInv(eng, an, m1, token);
      StepClean(eng, an, m1, token);
      CleanTransitive(token.major == 0, m, token, Turn(m1, false), Step(eng, an, m1, token));
    }
    LoopKeeps(TurnOn(eng, an, token), q, m, fuel);
  }

  lemma FeedClean(eng: Engine, an: Annotation, m: Machine, input: Input)
    requires Inv(eng, an, m) && input.token.major < eng.tables.nTerminal && StartsOnlyAtEnd(eng.tables)
    ensures CleanStep(input.token.major == 0, Begun(m), input.token, Feed(eng, an, m, input))
  {
    if m.states == [] {
      StartInv(eng, an, m);
    }
    LoopClean(eng, an, Begun(m), input.token, input.fuel);
  }

  /** The calls feed exactly the tokens `w`. */
  ghost predicate Spells(inputs: seq<Input>, w: seq<Token>) {
    |inputs| == |w| && forall i {:trigger inputs[i]} :: 0 <= i < |w| ==> inputs[i].token == w[i]
  }

  /** Without a rejected token or an overflow, exactly the tokens `w` have been shifted and
      nothing was accepted. */
  ghost predicate ReadSoFar(m: Machine, w: seq<Token>) {
    m.errors == 0 && m.overflows == 0 ==>
      m.accepts == [] && m.shifted == w && (w != [] <==> m.states != [])
  }

  lemma ReadOneMore(eng: Engine, an: Annotation, m: Machine, input: Input, w: seq<Token>)
    requires Inv(eng, an, m) && input.token.major < eng.tables.nTerminal && StartsOnlyAtEnd(eng.tables)
    requires ReadSoFar(m, w) && input.token.major != 0
    ensures Feed(eng, an, m, input).tokenDone ==> ReadSoFar(Feed(eng, an, m, input).m, w + [input.token])
  {
    FeedClean(eng, an, m, input);
  }

  lemma ParseAllUnfold(eng: Engine, an: Annotation, inputs: seq<Input>)
    requires inputs != []
    ensures var n := |inputs| - 1;
            var before := ParseAll(eng, an, inputs[..n]);
            ParseAll(eng, an, inputs) == if before.tokenDone then Feed(eng, an, before.m, inputs[n]) else before
  {
  }

  /** As long as no token is rejected and the stack does not overflow, nothing is accepted before
      the end marker and every token fed has been shifted. */
  lemma {:induction false} CleanPrefix(eng: Engine, an: Annotation, inputs: seq<Input>, w: seq<Token>)
    requires ValidTables(eng.tables, an) && 0 < eng.depth && Terminals(eng.tables, inputs) && StartsOnlyAtEnd(eng.tables)
    requires Spells(inputs, w) && forall v :: v in w ==> v.major != 0
    ensures ParseAll(eng, an, inputs).tokenDone ==> ReadSoFar(ParseAll(eng, an, inputs).m, w)
    decreases |inputs|
  {
    if inputs != [] {
      var n := |inputs| - 1;
      CleanPrefix(eng, an, inputs[..n], w[..n]);
      RunSound(eng, an, inputs[..n]);
      assert w == w[..n] + [w[n]] && w[n] in w && inputs[n].token == w[n];
      ParseAllUnfold(eng, an, inputs);
      var before := ParseAll(eng, an, inputs[..n]);
      if before.tokenDone {
        ReadOneMore(eng, an, before.m, inputs[n], w[..n]);
      }
    }
  }

  /** With start rules reduced only before the end marker, an input that was read without a
      syntax error or overflow and then accepted is, as a whole, a sentence of the grammar. */
  lemma WholeInputDerives(eng: Engine, an: Annotation, inputs: seq<Input>, w: seq<Token>, end: Input)
    requires ValidTables(eng.tables, an) && 0 < eng.depth && Terminals(eng.tables, inputs) && StartsOnlyAtEnd(eng.tables)
    requires Spells(inputs, w) && (forall v :: v in w ==> v.major != 0) && end.token.major == 0
    requires ParseAll(eng, an, inputs).tokenDone
    requires var m := ParseAll(eng, an, inputs + [end]).m; m.errors == 0 && m.overflows == 0 && m.accepts != []
    ensures var m := ParseAll(eng, an, inputs + [end]).m;
            && |m.accepts| == 1
            && Derivation(eng.tables, m.accepts[0].tree)
            && Root(eng.tables, m.accepts[0].tree) == eng.tables.start
            && Yield(m.accepts[0].tree) == w
  {
    CleanPrefix(eng, an, inputs, w);
    RunSound(eng, an, inputs);
    assert (inputs + [end])[..|inputs + [end]| - 1] == inputs;
    var before, after := ParseAll(eng, an, inputs).m, ParseAll(eng, an, inputs + [end]);
    ParseAllUnfold(eng, an, inputs + [end]);
    FeedClean(eng, an, before, end);
    ParserSound(eng, an, inputs + [end], after.m.accepts[0]);
  }
}
