/**
 The parser object: a fixed stack array that is updated in place, holding the values that
 arbitrary semantic actions compute, proved to do what `LrMachine` and `LrRuns` say.
 */
module LrParser {
  import opened LrTables
  import opened LrMachine
  import opened LrRuns

  /** A symbol code with its semantic value: the `major` and `minor` of a stack entry. */
  datatype Val<V> = Val(major: nat, minor: V)

  datatype Entry<V> = Entry(state: nat, val: Val<V>)

  /** What the grammar's actions compute: a token's value, and the value of a left-hand side from
      the rule number and the values of the right-hand side, left to right. */
  datatype Semantics<!V> = Semantics(lift: Token -> V, act: (nat, seq<Val<V>>) -> V)

  /** Bottom-up evaluation of a tree. */
  ghost function Eval<V>(t: Tables, sem: Semantics<V>, tree: Tree): Val<V>
    decreases tree, 1
  {
    match tree
    case Leaf(token, _) => Val(token.major, sem.lift(token))
    case Node(r, kids) => Val(Root(t, tree), sem.act(r, EvalAll(t, sem, kids)))
  }

  ghost function EvalAll<V>(t: Tables, sem: Semantics<V>, trees: seq<Tree>): (vs: seq<Val<V>>)
    ensures |vs| == |trees|
    ensures forall i {:trigger vs[i]} :: 0 <= i < |trees| ==> vs[i] == Eval(t, sem, trees[i])
    decreases trees, 0
  {
    if trees == [] then []
    else EvalAll(t, sem, trees[..|trees| - 1]) + [Eval(t, sem, trees[|trees| - 1])]
  }

  /** The entries hold these states, and the values of these trees above the bottom one. */
  ghost predicate Represents<V>(t: Tables, sem: Semantics<V>, es: seq<Entry<V>>, states: seq<nat>, trees: seq<Tree>) {
    && |es| == |states|
    && |trees| <= |states|
    && (forall i {:trigger es[i]} {:trigger states[i]} :: 0 <= i < |es| ==> es[i].state == states[i])
    && (forall i {:trigger trees[i]} :: 0 <= i < |trees| && i + 1 < |es| ==> es[i + 1].val == Eval(t, sem, trees[i]))
  }

  lemma RepresentsPrefix<V>(t: Tables, sem: Semantics<V>, es: seq<Entry<V>>, states: seq<nat>, trees: seq<Tree>, k: nat)
    requires Represents(t, sem, es, states, trees) && k <= |trees| && k < |es|
    ensures Represents(t, sem, es[..k + 1], states[..k + 1], trees[..k])
  {
  }

  /** The top entry, and the others. */
  lemma RepresentsTop<V>(t: Tables, sem: Semantics<V>, es: seq<Entry<V>>, states: seq<nat>, trees: seq<Tree>)
    requires Represents(t, sem, es, states, trees) && |trees| + 1 == |states| && trees != []
    ensures var n := |trees| - 1;
            && Represents(t, sem, es[..n + 1], states[..n + 1], trees[..n])
            && es[n + 1].val == Eval(t, sem, trees[n])
  {
  }

  lemma RepresentsPush<V>(t: Tables, sem: Semantics<V>, es: seq<Entry<V>>, states: seq<nat>, trees: seq<Tree>, e: Entry<V>, tree: Tree)
    requires Represents(t, sem, es, states, trees) && |trees| + 1 == |states| && e.val == Eval(t, sem, tree)
    ensures Represents(t, sem, es + [e], states + [e.state], trees + [tree])
  {
  }

  /** Take one entry off, destroying its value unless it is the bottom entry. */
  ghost function PopOne(m: Machine): Machine
    requires |m.trees| + 1 == |m.states|
  {
    if m.trees == [] then m.(states := [])
    else
      var n := |m.trees| - 1;
      m.(states := m.states[..n + 1], trees := m.trees[..n],
         ledger := m.ledger.(destroyed := m.ledger.destroyed + multiset{m.trees[n]}))
  }

  lemma PlusSwap<T>(a: multiset<T>, b: multiset<T>, c: multiset<T>)
    ensures a + (b + c) == a + c + b
  {
  }

  /** Popping one by one, top first, destroys what popping everything destroys. */
  lemma PopOneThenAll(m: Machine)
    requires |m.trees| + 1 == |m.states|
    ensures PopAll(PopOne(m)) == PopAll(m)
  {
    if m.trees != [] {
      var n := |m.trees| - 1;
      PlusSwap(m.ledger.destroyed, Bag(m.trees[..n]), multiset{m.trees[n]});
    }
  }

  /** The values passed to yy_destructor are those of trees that make up the ledger. */
  ghost predicate Freed<V>(t: Tables, sem: Semantics<V>, freed: seq<Val<V>>, trees: seq<Tree>, destroyed: multiset<Tree>) {
    freed == EvalAll(t, sem, trees) && Bag(trees) == destroyed
  }

  lemma FreedMore<V>(t: Tables, sem: Semantics<V>, freed: seq<Val<V>>, trees: seq<Tree>, destroyed: multiset<Tree>, tree: Tree)
    requires Freed(t, sem, freed, trees, destroyed)
    ensures Freed(t, sem, freed + [Eval(t, sem, tree)], trees + [tree], destroyed + multiset{tree})
  {
    assert (trees + [tree])[..|trees|] == trees;
  }

  class Parser<V(0)> {
    const eng: Engine
    const sem: Semantics<V>
    const ndebug: bool           // compiled with NDEBUG
    ghost const an: Annotation

    var yyidx: int
    const yystack: array<Entry<V>>
    var yyerrcnt: int
    var freed: seq<Val<V>>       // what yy_destructor was called for
    ghost var m: Machine
    ghost var freedTrees: seq<Tree>

    /** The first yyidx+1 slots hold the machine's stack, with the values its trees evaluate to, and
        the values passed to yy_destructor are those of the trees in the ledger. */
    ghost predicate Rep()
      reads this, yystack
    {
      && yystack.Length == eng.depth
      && -1 <= yyidx < eng.depth
      && m.errcnt == yyerrcnt
      && (if m.states == [] then m.trees == [] else |m.trees| + 1 == |m.states|)
      && Represents(eng.tables, sem, yystack[..yyidx + 1], m.states, m.trees)
      && Freed(eng.tables, sem, freed, freedTrees, m.ledger.destroyed)
    }

    ghost predicate Valid()
      reads this, yystack
    {
      Rep() && Inv(eng, an, m)
    }

    /** sqlite4ParserAlloc */
    constructor (eng: Engine, sem: Semantics<V>, ndebug: bool, ghost an: Annotation)
      requires ValidTables(eng.tables, an) && 0 < eng.depth
      ensures Valid() && m == Fresh() && fresh(yystack)
      ensures this.eng == eng && this.sem == sem && this.ndebug == ndebug && this.an == an
    {
      this.eng := eng;
      this.sem := sem;
      this.ndebug := ndebug;
      this.an := an;
      yyidx := -1;
      yystack := new Entry<V>[eng.depth];
      yyerrcnt := 0;
      freed := [];
      m := Fresh();
      freedTrees := [];
    }

    /** An entry with a value. */
    method PopTop()
      requires Rep() && yyidx > 0
      modifies this
      ensures Rep() && yyidx == old(yyidx) - 1
      ensures m == PopOne(old(m)) && freed == old(freed) + [old(yystack[yyidx].val)]
    {
      ghost var es, n := yystack[..yyidx + 1], |m.trees| - 1;
      RepresentsTop(eng.tables, sem, es, m.states, m.trees);
      FreedMore(eng.tables, sem, freed, freedTrees, m.ledger.destroyed, m.trees[n]);
      assert es[yyidx] == yystack[yyidx];
      freed := freed + [yystack[yyidx].val];
      freedTrees := freedTrees + [m.trees[n]];
      m := PopOne(m);
      yyidx := yyidx - 1;
      assert es[..n + 1] == yystack[..yyidx + 1];
    }

    /** yy_pop_parser_stack; the bottom entry has code 0, for which yy_destructor does nothing. */
    method PopParserStack()
      requires Rep() && yyidx >= 0
      modifies this
      ensures Rep() && yyidx == old(yyidx) - 1
      ensures m == PopOne(old(m))
      ensures freed == if old(yyidx) > 0 then old(freed) + [old(yystack[yyidx].val)] else old(freed)
    {
      if yyidx > 0 {
        PopTop();
      } else {
        m := PopOne(m);
        yyidx := -1;
      }
    }

    /** The loop that sqlite4ParserFree, yyStackOverflow, yy_accept and yy_parse_failed share. */
    method PopEverything()
      requires Rep()
      modifies this
      ensures Rep() && yyidx == -1
      ensures m == PopAll(old(m))
    {
      while yyidx >= 0
        invariant Rep()
        invariant PopAll(m) == PopAll(old(m))
        decreases yyidx + 1
      {
        PopOneThenAll(m);
        PopParserStack();
      }
      assert m.ledger.destroyed + multiset{} == m.ledger.destroyed;
    }

    /** Write a new top entry. */
    method Write(state: nat, v: Val<V>, ghost tree: Tree)
      requires Rep() && 0 <= yyidx && yyidx + 1 < yystack.Length
      requires v == Eval(eng.tables, sem, tree)
      modifies this, yystack
      ensures Rep()
      ensures m == Push(eng, old(m), state, tree)
    {
      RepresentsPush(eng.tables, sem, yystack[..yyidx + 1], m.states, m.trees, Entry(state, v), tree);
      m := Push(eng, m, state, tree);
      yyidx := yyidx + 1;
      yystack[yyidx] := Entry(state, v);
      assert yystack[..yyidx + 1] == old(yystack[..yyidx + 1]) + [Entry(state, v)];
    }

    /** yy_shift, with yyStackOverflow inlined; the overflowing value is not destroyed. */
    method Shift(newState: nat, v: Val<V>, ghost tree: Tree)
      requires Rep() && yyidx >= 0
      requires v == Eval(eng.tables, sem, tree)
      modifies this, yystack
      ensures Rep()
      ensures m == Push(eng, old(m), newState, tree)
    {
      if yyidx + 1 >= yystack.Length {
        PopEverything();
        m := m.(overflows := m.overflows + 1);
      } else {
        Write(newState, v, tree);
      }
    }

    /** Take the right-hand side of a rule off the stack. */
    method Rewind(n: nat)
      requires Rep() && n <= |m.trees| < |m.states|
      modifies this
      ensures Rep()
      ensures m == Consume(old(m), n)
    {
      RepresentsPrefix(eng.tables, sem, yystack[..yyidx + 1], m.states, m.trees, |m.trees| - n);
      assert yystack[..yyidx + 1][..|m.trees| - n + 1] == yystack[..yyidx + 1 - n];
      m := Consume(m, n);
      yyidx := yyidx - n;
    }

    /** The values of the top `n` entries, left to right: what an action sees as yymsp[-n+1..0]. */
    method TopValues(n: nat) returns (vals: seq<Val<V>>)
      requires Rep() && n <= |m.trees| < |m.states|
      ensures vals == EvalAll(eng.tables, sem, m.trees[|m.trees| - n..])
    {
      vals := seq(n, i requires 0 <= i < n && 0 <= yyidx + 1 - n + i < yystack.Length reads this, yystack =>
        yystack[yyidx + 1 - n + i].val);
      forall i | 0 <= i < n
        ensures vals[i] == EvalAll(eng.tables, sem, m.trees[|m.trees| - n..])[i]
      {
        assert vals[i] == yystack[..yyidx + 1][yyidx + 1 - n + i].val;
        assert m.trees[|m.trees| - n..][i] == m.trees[|m.trees| - n + i];
      }
    }

    /** The action of a rule. */
    method LeftHandSide(r: nat) returns (lhs: Val<V>)
      requires Rep() && CanReduce(eng.tables, m, r)
      ensures lhs == Eval(eng.tables, sem, ReducedTree(eng.tables, m, r))
    {
      var rule := eng.tables.rules[r];
      var rhs := TopValues(|rule.rhs|);
      lhs := Val(rule.lhs, sem.act(r, rhs));
    }

    /** What follows the goto of a reduction that has taken `n` entries off: a new entry, or acceptance.
        The NDEBUG build, which writes the new entry over the first popped one without the overflow
        test, does the same as the checked build. */
    method GoOn(act: nat, lhs: Val<V>, n: nat, ghost tree: Tree, ghost la: nat)
      requires Rep() && yyidx >= 0 && lhs == Eval(eng.tables, sem, tree)
      requires n > 0 ==> yyidx + 1 < yystack.Length
      modifies this, yystack
      ensures Rep()
      ensures m == if act < eng.tables.nState then Push(eng, old(m), act, tree)
                   else PopAll(old(m)).(accepts := old(m).accepts + [Acceptance(tree, old(m).shifted, la)])
    {
      if act < eng.tables.nState {
        if ndebug && n > 0 {
          Write(act, lhs, tree);
        } else {
          Shift(act, lhs, tree);
        }
      } else {
        PopEverything();
        m := m.(accepts := m.accepts + [Acceptance(tree, m.shifted, la)]);
      }
    }

    /** yy_reduce */
    method ReduceBy(r: nat, ghost la: nat)
      requires Rep() && CanFinishReduce(eng.tables, m, r)
      modifies this, yystack
      ensures Rep()
      ensures m == LrMachine.Reduce(eng, old(m), r, la)
    {
      var lhs := LeftHandSide(r);
      ghost var tree := ReducedTree(eng.tables, m, r);
      var rule := eng.tables.rules[r];
      Rewind(|rule.rhs|);
      assert yystack[..yyidx + 1][yyidx].state == Top(m);
      var act := ReduceAction(eng.tables, yystack[yyidx].state, rule.lhs);
      GoOn(act, lhs, |rule.rhs|, tree, la);
    }

    /** What happens to a token without an action, with and without YYNOERRORRECOVERY, and whether
        yy_syntax_error is called for it. */
    method RejectToken(la: nat) returns (reported: bool)
      requires Rep() && yyidx >= 0
      modifies this
      ensures Rep()
      ensures m == SyntaxError(eng, old(m), la)
      ensures reported <==> |m.reported| == |old(m.reported)| + 1
    {
      reported := eng.noRecovery || yyerrcnt <= 0;
      m := m.(errors := m.errors + 1, reported := if reported then m.reported + [|m.shifted|] else m.reported);
      if !eng.noRecovery {
        m := m.(errcnt := 3);
        yyerrcnt := 3;
        if la == 0 {
          PopEverything();
        }
      }
    }

    method ShiftToken(token: Token, act: nat)
      requires Rep() && yyidx >= 0
      modifies this, yystack
      ensures Rep()
      ensures LrRuns.Turn(m, true) == Apply(eng, an, old(m), token, DoShift(act))
    {
      ghost var shifted, errcnt := m.shifted + [token], m.errcnt - 1;
      Shift(act, Val(token.major, sem.lift(token)), Leaf(token, Accessing(an, act)));
      m := m.(shifted := shifted, errcnt := errcnt);
      yyerrcnt := yyerrcnt - 1;
    }

    method TurnByReduce(token: Token, r: nat)
      requires Rep() && Decide(eng, m, token.major) == DoReduce(r)
      modifies this, yystack
      ensures Rep()
      ensures LrRuns.Turn(m, false) == Step(eng, an, old(m), token)
    {
      StepApplies(eng, an, m, token, DoReduce(r));
      ReduceBy(r, token.major);
    }

    method TurnByReject(token: Token)
      requires Rep() && yyidx >= 0 && Decide(eng, m, token.major) == DoReject
      modifies this
      ensures Rep()
      ensures LrRuns.Turn(m, true) == Step(eng, an, old(m), token)
    {
      StepApplies(eng, an, m, token, DoReject);
      var _ := RejectToken(token.major);
    }

    /** yy_find_shift_action on the top entry. */
    method FindAction(la: nat) returns (act: nat)
      requires Rep() && yyidx >= 0 && !Decide(eng, m, la).Halt?
      ensures Decide(eng, m, la) ==
              if act < eng.tables.nState then DoShift(act)
              else if act < eng.tables.nState + |eng.tables.rules| then DoReduce(act - eng.tables.nState)
              else DoReject
    {
      DecideFollowsAction(eng, m, la);
      assert yystack[..yyidx + 1][yyidx].state == Top(m);
      act := ShiftAction(eng.tables, yystack[yyidx].state, la);
    }

    /** The body of the driver loop. */
    method Act(token: Token) returns (tokenDone: bool)
      requires Rep() && yyidx >= 0 && !Decide(eng, m, token.major).Halt?
      modifies this, yystack
      ensures Rep()
      ensures LrRuns.Turn(m, tokenDone) == Step(eng, an, old(m), token)
    {
      var act := FindAction(token.major);
      if act < eng.tables.nState {
        StepApplies(eng, an, m, token, DoShift(act));
        ShiftToken(token, act);
        tokenDone := true;
      } else if act < eng.tables.nState + |eng.tables.rules| {
        TurnByReduce(token, act - eng.tables.nState);
        tokenDone := false;
      } else {
        TurnByReject(token);
        tokenDone := true;
      }
    }

    /** `step` is what a turn on this token does. The loop below does not look inside it: only
        mentioning `Inside(token)` opens it. */
    ghost predicate IsTurn(step: Machine -> LrRuns.Turn, token: Token) {
      forall t {:trigger Inside(t)} :: t == token ==> step == TurnOn(eng, an, t)
    }

    ghost predicate Inside(token: Token) {
      true
    }

    /** One turn of the driver loop: under the invariant it never halts, and keeps the invariant. */
    method Turn(token: Token, ghost step: Machine -> LrRuns.Turn) returns (tokenDone: bool)
      requires Valid() && token.major < eng.tables.nTerminal && yyidx >= 0 && IsTurn(step, token)
      modifies this, yystack
      ensures Valid()
      ensures step(old(m)) == LrRuns.Turn(m, tokenDone)
    {
      assert Inside(token);
      StepInv(eng, an, m, token);
      DecideOk(eng, an, m, token.major);
      tokenDone := Act(token);
    }

    /** The do-while loop of sqlite4Parser, cut off after `fuel` turns. */
    method Drive(token: Token, fuel: nat, ghost step: Machine -> LrRuns.Turn) returns (tokenDone: bool)
      requires Valid() && token.major < eng.tables.nTerminal && yyidx >= 0 && IsTurn(step, token)
      modifies this, yystack
      ensures Valid()
      ensures LrRuns.Turn(m, tokenDone) == Iterate(step, old(m), fuel)
    {
      tokenDone := false;
      var left: nat := fuel;
      while left > 0 && !tokenDone
        invariant Valid()
        invariant !tokenDone ==> yyidx >= 0
        invariant Iterate(step, old(m), fuel) ==
                  if tokenDone then LrRuns.Turn(m, true) else Iterate(step, m, left)
        decreases left
      {
        IterateOnce(step, m, left);
        var done := Turn(token, step);
        tokenDone := done || yyidx < 0;
        left := left - 1;
      }
    }

    /** sqlite4Parser, cut off after `fuel` turns of its loop. */
    method Parse(token: Token, fuel: nat) returns (tokenDone: bool)
      requires Valid() && token.major < eng.tables.nTerminal
      modifies this, yystack
      ensures Valid()
      ensures LrRuns.Turn(m, tokenDone) == Feed(eng, an, old(m), Input(token, fuel))
    {
      if yyidx < 0 {
        StartInv(eng, an, m);
        m := Start(m);
        yyidx := 0;
        yyerrcnt := -1;
        yystack[0] := Entry(0, Val(0, yystack[0].val.minor));
      }
      tokenDone := Drive(token, fuel, TurnOn(eng, an, token));
    }
  }

  lemma StepApplies(eng: Engine, an: Annotation, m: Machine, token: Token, d: Decision)
    requires Decide(eng, m, token.major) == d
    ensures d.DoReduce? ==> CanReduce(eng.tables, m, d.rule)
    ensures Step(eng, an, m, token) == match d
                                       case DoReduce(r) => LrRuns.Turn(Reduce(eng, m, r, token.major), false)
                                       case DoReject => LrRuns.Turn(SyntaxError(eng, m, token.major), true)
                                       case _ => Apply(eng, an, m, token, d)
  {
  }

  lemma IterateOnce(step: Machine -> LrRuns.Turn, m: Machine, n: nat)
    requires n > 0
    ensures Iterate(step, m, n) == if step(m).tokenDone || step(m).m.states == [] then LrRuns.Turn(step(m).m, true)
                                   else Iterate(step, step(m).m, n - 1)
  {
  }

  /** The decision in terms of the looked-up action number, compared as the code compares it. */
  lemma DecideFollowsAction(eng: Engine, m: Machine, la: nat)
    requires !Decide(eng, m, la).Halt?
    ensures WellSized(eng.tables) && Top(m) < eng.tables.nState
    ensures var act := ShiftAction(eng.tables, Top(m), la);
            && 0 <= act
            && Decide(eng, m, la) ==
               if act < eng.tables.nState then DoShift(act)
               else if act < eng.tables.nState + |eng.tables.rules| then DoReduce(act - eng.tables.nState)
               else DoReject
  {
  }
}
