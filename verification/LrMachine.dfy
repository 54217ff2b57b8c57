/**
 The parser engine as a machine over values.  The semantic value of a stack entry is kept as the
 derivation tree it was built from: a token is a leaf, and a reduction builds a node from the
 values of the right-hand side.  Any other semantic action is a function of that tree (`Eval`).
 */
module LrMachine {
  import opened LrTables

  /** A token: its code, and where its text is. */
  datatype Token = Token(major: nat, z: nat, n: nat)

  /** A leaf is a token read as terminal (or class) `sym`; its own code may differ from `sym`. */
  datatype Tree = Leaf(token: Token, sym: nat) | Node(rule: nat, kids: seq<Tree>)

  function Root(t: Tables, tree: Tree): nat {
    match tree
    case Leaf(_, sym) => sym
    case Node(r, _) => if r < |t.rules| then t.rules[r].lhs else 0
  }

  /** The tree is a derivation of the grammar, up to fallback and wildcard substitution. */
  ghost predicate Derivation(t: Tables, tree: Tree) {
    match tree
    case Leaf(token, sym) => TerminalSymbol(t, sym) && StandsFor(t, token.major, sym)
    case Node(r, kids) =>
      && r < |t.rules|
      && |kids| == |t.rules[r].rhs|
      && forall i {:trigger kids[i]} :: 0 <= i < |kids| ==> Derivation(t, kids[i]) && Root(t, kids[i]) == t.rules[r].rhs[i]
  }

  ghost function Yield(tree: Tree): seq<Token>
    decreases tree, 1
  {
    match tree
    case Leaf(token, _) => [token]
    case Node(_, kids) => YieldAll(kids)
  }

  ghost function YieldAll(trees: seq<Tree>): seq<Token>
    decreases trees, 0
  {
    if trees == [] then [] else YieldAll(trees[..|trees| - 1]) + Yield(trees[|trees| - 1])
  }

  lemma {:induction false} YieldAllConcat(a: seq<Tree>, b: seq<Tree>)
    ensures YieldAll(a + b) == YieldAll(a) + YieldAll(b)
  {
    if b == [] {
      assert a + b == a;
    } else {
      YieldAllConcat(a, b[..|b| - 1]);
      assert (a + b)[..|a + b| - 1] == a + b[..|b| - 1];
      assert (a + b)[|a + b| - 1] == b[|b| - 1];
    }
  }

  /** What an accepted input was: the tree and the tokens shifted since the parser was last
      (re)initialised, and the token in front of which it was accepted. */
  datatype Acceptance = Acceptance(tree: Tree, tokens: seq<Token>, lookahead: nat)

  /** Values that entered the stack and where they went. */
  datatype Ledger = Ledger(pushed: multiset<Tree>, consumed: multiset<Tree>, destroyed: multiset<Tree>)

  /** `states` has one more element than `trees`: the bottom entry carries no value. */
  datatype Machine = Machine(
    states: seq<nat>,
    trees: seq<Tree>,
    shifted: seq<Token>,      // tokens shifted since the last (re)initialisation
    accepts: seq<Acceptance>, // every acceptance so far
    ledger: Ledger,
    errcnt: int,              // yyerrcnt
    errors: nat,              // tokens met with a syntax error so far
    overflows: nat,           // stack overflows so far
    reported: seq<nat>)       // how many tokens had been shifted at each error report since then

  /** The fixed part of a parser: its tables, the stack depth, and whether the grammar asks for
      no error recovery (YYNOERRORRECOVERY). */
  datatype Engine = Engine(tables: Tables, depth: nat, noRecovery: bool)

  function Bag(trees: seq<Tree>): multiset<Tree> {
    if trees == [] then multiset{} else Bag(trees[..|trees| - 1]) + multiset{trees[|trees| - 1]}
  }

  /** The parser as sqlite4ParserAlloc leaves it. */
  function Fresh(): Machine {
    Machine([], [], [], [], Ledger(multiset{}, multiset{}, multiset{}), 0, 0, 0, [])
  }

  /** Entry to sqlite4Parser with an empty stack. */
  function Start(m: Machine): Machine {
    m.(states := [0], trees := [], shifted := [], errcnt := -1, reported := [])
  }

  /** Pop everything, destroying each value once. */
  function PopAll(m: Machine): Machine {
    m.(states := [], trees := [], ledger := m.ledger.(destroyed := m.ledger.destroyed + Bag(m.trees)))
  }

  /** yy_shift: push, or overflow when all `depth` entries are in use. */
  function Push(eng: Engine, m: Machine, state: nat, tree: Tree): Machine {
    if |m.states| >= eng.depth then PopAll(m).(overflows := m.overflows + 1)
    else m.(states := m.states + [state], trees := m.trees + [tree],
            ledger := m.ledger.(pushed := m.ledger.pushed + multiset{tree}))
  }

  /** Take the top `n` entries off for a reduction: their values are consumed. */
  function Consume(m: Machine, n: nat): Machine
    requires n <= |m.trees| < |m.states|
  {
    m.(states := m.states[..|m.states| - n], trees := m.trees[..|m.trees| - n],
       ledger := m.ledger.(consumed := m.ledger.consumed + Bag(m.trees[|m.trees| - n..])))
  }

  predicate CanReduce(t: Tables, m: Machine, r: nat) {
    && WellSized(t)
    && r < |t.rules|
    && |m.trees| + 1 == |m.states|
    && |t.rules[r].rhs| <= |m.trees|
    && GotoDefined(t, m.states[|m.trees| - |t.rules[r].rhs|], t.rules[r].lhs)
  }

  function Goto(t: Tables, m: Machine, r: nat): int
    requires CanReduce(t, m, r)
  {
    ReduceAction(t, m.states[|m.trees| - |t.rules[r].rhs|], t.rules[r].lhs)
  }

  function ReducedTree(t: Tables, m: Machine, r: nat): Tree
    requires CanReduce(t, m, r)
  {
    Node(r, m.trees[|m.trees| - |t.rules[r].rhs|..])
  }

  /** yy_reduce: pop the right-hand side, then push the left-hand side or accept. */
  function Reduce(eng: Engine, m: Machine, r: nat, la: nat): Machine
    requires CanReduce(eng.tables, m, r)
  {
    var t := eng.tables;
    var popped := Consume(m, |t.rules[r].rhs|);
    if t.IsShift(Goto(t, m, r)) then Push(eng, popped, Goto(t, m, r), ReducedTree(t, m, r))
    else PopAll(popped).(accepts := m.accepts + [Acceptance(ReducedTree(t, m, r), m.shifted, la)])
  }

  /** Whether a token that has no action is reported: with recovery not before three tokens have been
      shifted since the last error. */
  predicate Reports(eng: Engine, m: Machine) {
    eng.noRecovery || m.errcnt <= 0
  }

  /** A token that has no action is dropped; with recovery, the end marker also empties the stack. */
  function SyntaxError(eng: Engine, m: Machine, la: nat): Machine {
    var m' := m.(errors := m.errors + 1,
                 reported := if Reports(eng, m) then m.reported + [|m.shifted|] else m.reported);
    if eng.noRecovery then m'
    else if la == 0 then PopAll(m').(errcnt := 3)
    else m'.(errcnt := 3)
  }

  // ------------------------------------------------------------------------------------------
  // The invariant
  // ------------------------------------------------------------------------------------------

  /** The entry k below entry `i`, and the state under it, are as annotated at entry `i`. */
  ghost predicate EntryKnown(t: Tables, an: Annotation, states: seq<nat>, trees: seq<Tree>, i: nat, k: nat)
    requires WellSizedAnnotation(t, an) && |trees| + 1 == |states| && i < |states|
    requires states[i] < t.nState && k < |an.past[states[i]]| <= i
  {
    Root(t, trees[i - 1 - k]) == an.past[states[i]][k] && states[i - 1 - k] in an.below[states[i]][k]
  }

  /** Entry `i` of the stack is what the annotation of its state says; state 0 is at the bottom
      and only there. */
  ghost predicate PathOk(t: Tables, an: Annotation, states: seq<nat>, trees: seq<Tree>, i: nat)
    requires WellSizedAnnotation(t, an) && |trees| + 1 == |states| && i < |states|
  {
    && states[i] < t.nState
    && (states[i] == 0 <==> i == 0)
    && |an.past[states[i]]| <= i
    && forall k {:trigger EntryKnown(t, an, states, trees, i, k)} :: 0 <= k < |an.past[states[i]]| ==>
         EntryKnown(t, an, states, trees, i, k)
  }

  ghost predicate StackOk(t: Tables, an: Annotation, states: seq<nat>, trees: seq<Tree>)
    requires WellSizedAnnotation(t, an)
  {
    && |trees| + 1 == |states|
    && (forall i {:trigger PathOk(t, an, states, trees, i)} :: 0 <= i < |states| ==> PathOk(t, an, states, trees, i))
    && (forall i {:trigger Derivation(t, trees[i])} :: 0 <= i < |trees| ==> Derivation(t, trees[i]))
  }

  ghost predicate AcceptOk(t: Tables, a: Acceptance)
    requires WellSized(t)
  {
    && Derivation(t, a.tree)
    && Root(t, a.tree) == t.start
    && Yield(a.tree) == a.tokens
    && (StartsOnlyAtEnd(t) ==> a.lookahead == 0)
  }

  ghost predicate AcceptsOk(t: Tables, accepts: seq<Acceptance>)
    requires WellSized(t)
  {
    forall a {:trigger AcceptOk(t, a)} :: a in accepts ==> AcceptOk(t, a)
  }

  /** The stack fits the tables, and its trees spell the tokens shifted. */
  ghost predicate Inv(eng: Engine, an: Annotation, m: Machine) {
    && ValidTables(eng.tables, an)
    && 0 < eng.depth
    && |m.states| <= eng.depth
    && (m.states == [] ==> m.trees == [])
    && (m.states != [] ==> StackOk(eng.tables, an, m.states, m.trees) && YieldAll(m.trees) == m.shifted)
  }

  lemma StartInv(eng: Engine, an: Annotation, m: Machine)
    requires Inv(eng, an, m) && m.states == []
    ensures Inv(eng, an, Start(m))
  {
    assert PathOk(eng.tables, an, Start(m).states, Start(m).trees, 0);
  }

  /** Pushing along a checked edge keeps every entry's path. */
  lemma PushPath(t: Tables, an: Annotation, states: seq<nat>, trees: seq<Tree>, state: nat, tree: Tree)
    requires ValidTables(t, an)
    requires states != [] && StackOk(t, an, states, trees)
    requires EdgeOk(t, an, states[|states| - 1], Root(t, tree), state) && Derivation(t, tree)
    ensures StackOk(t, an, states + [state], trees + [tree])
  {
    var states', trees' := states + [state], trees + [tree];
    var n := |states|;
    forall i | 0 <= i < |states'|
      ensures PathOk(t, an, states', trees', i)
    {
      if i < n {
        assert PathOk(t, an, states, trees, i);
        forall k | 0 <= k < |an.past[states[i]]|
          ensures EntryKnown(t, an, states', trees', i, k)
        {
          assert EntryKnown(t, an, states, trees, i, k);
        }
      } else {
        assert PathOk(t, an, states, trees, n - 1);
        forall k | 0 <= k < |an.past[state]|
          ensures EntryKnown(t, an, states', trees', n, k)
        {
          if k > 0 {
            assert PastAgrees(t, an, states[n - 1], state, k - 1);
            assert EntryKnown(t, an, states, trees, n - 1, k - 1);
          }
        }
      }
    }
    forall i | 0 <= i < |trees'|
      ensures Derivation(t, trees'[i])
    {
      if i < |trees| {
        assert Derivation(t, trees[i]);
      }
    }
  }

  /** A shift or goto along a checked edge keeps the invariant, whether or not it overflows. */
  lemma PushInv(eng: Engine, an: Annotation, m: Machine, state: nat, tree: Tree, shifted: seq<Token>)
    requires ValidTables(eng.tables, an) && 0 < eng.depth
    requires 0 < |m.states| <= eng.depth && StackOk(eng.tables, an, m.states, m.trees)
    requires EdgeOk(eng.tables, an, m.states[|m.states| - 1], Root(eng.tables, tree), state)
    requires Derivation(eng.tables, tree) && shifted == YieldAll(m.trees) + Yield(tree)
    ensures Inv(eng, an, Push(eng, m, state, tree).(shifted := shifted))
  {
    if |m.states| < eng.depth {
      PushPath(eng.tables, an, m.states, m.trees, state, tree);
      assert (m.trees + [tree])[..|m.trees + [tree]| - 1] == m.trees;
    }
  }

  /** The trees on top of the stack are the children of a derivation by rule `r`. */
  lemma TopSpellsRhs(t: Tables, an: Annotation, states: seq<nat>, trees: seq<Tree>, r: nat, i: nat)
    requires ValidTables(t, an) && states != [] && StackOk(t, an, states, trees)
    requires ReduceOk(t, an, states[|states| - 1], r)
    requires i < |t.rules[r].rhs|
    ensures |t.rules[r].rhs| <= |trees|
    ensures var tree := trees[|trees| - |t.rules[r].rhs| + i];
            Root(t, tree) == t.rules[r].rhs[i] && Derivation(t, tree)
  {
    var top, k := |trees|, |t.rules[r].rhs| - 1 - i;
    assert PathOk(t, an, states, trees, top);
    assert TopIsRhs(t, an, states[top], r, k);
    assert EntryKnown(t, an, states, trees, top, k);
    assert Derivation(t, trees[top - 1 - k]);
  }

  /** The top of the stack spells the right-hand side of any rule the tables reduce by, and the
      state under it has a goto for the left-hand side. */
  lemma ReduceReady(eng: Engine, an: Annotation, m: Machine, r: nat)
    requires Inv(eng, an, m) && m.states != []
    requires ReduceOk(eng.tables, an, m.states[|m.states| - 1], r)
    ensures CanReduce(eng.tables, m, r)
    ensures Derivation(eng.tables, ReducedTree(eng.tables, m, r))
    ensures GotoOk(eng.tables, an, m.states[|m.trees| - |eng.tables.rules[r].rhs|], eng.tables.rules[r].lhs)
  {
    var t := eng.tables;
    var n, top := |t.rules[r].rhs|, |m.trees|;
    assert PathOk(t, an, m.states, m.trees, top);
    if n > 0 {
      assert EntryKnown(t, an, m.states, m.trees, top, n - 1);
    }
    assert GotoOk(t, an, m.states[top - n], t.rules[r].lhs);
    var kids := m.trees[|m.trees| - n..];
    forall i | 0 <= i < n
      ensures Derivation(t, kids[i]) && Root(t, kids[i]) == t.rules[r].rhs[i]
    {
      TopSpellsRhs(t, an, m.states, m.trees, r, i);
    }
  }

  /** Popping keeps what is known about the entries that stay. */
  lemma PrefixOk(t: Tables, an: Annotation, states: seq<nat>, trees: seq<Tree>, k: nat)
    requires WellSizedAnnotation(t, an)
    requires StackOk(t, an, states, trees) && k <= |trees|
    ensures StackOk(t, an, states[..k + 1], trees[..k])
  {
    var states', trees' := states[..k + 1], trees[..k];
    forall i | 0 <= i < |states'|
      ensures PathOk(t, an, states', trees', i)
    {
      assert PathOk(t, an, states, trees, i);
      forall j | 0 <= j < |an.past[states[i]]|
        ensures EntryKnown(t, an, states', trees', i, j)
      {
        assert EntryKnown(t, an, states, trees, i, j);
      }
    }
    forall i | 0 <= i < |trees'|
      ensures Derivation(t, trees'[i])
    {
      assert Derivation(t, trees[i]);
    }
  }

  /** What is left when the right-hand side of `r` has been taken off. */
  lemma ConsumeOk(eng: Engine, an: Annotation, m: Machine, r: nat)
    requires Inv(eng, an, m) && CanReduce(eng.tables, m, r)
    ensures var popped := Consume(m, |eng.tables.rules[r].rhs|);
            && StackOk(eng.tables, an, popped.states, popped.trees)
            && m.shifted == YieldAll(popped.trees) + Yield(ReducedTree(eng.tables, m, r))
  {
    var k := |m.trees| - |eng.tables.rules[r].rhs|;
    assert m.states[..|m.states| - |eng.tables.rules[r].rhs|] == m.states[..k + 1];
    PrefixOk(eng.tables, an, m.states, m.trees, k);
    assert m.trees == m.trees[..k] + m.trees[k..];
    YieldAllConcat(m.trees[..k], m.trees[k..]);
  }

  /** The goto after a reduction is legal, and acceptance happens only when nothing but the bottom
      entry is left. */
  lemma ReduceInv(eng: Engine, an: Annotation, m: Machine, r: nat, la: nat)
    requires Inv(eng, an, m) && m.states != []
    requires ReduceOk(eng.tables, an, m.states[|m.states| - 1], r)
    requires StartsOnlyAtEnd(eng.tables) && eng.tables.rules[r].lhs == eng.tables.start ==> la == 0
    ensures CanReduce(eng.tables, m, r)
    ensures Inv(eng, an, Reduce(eng, m, r, la))
    ensures !eng.tables.IsShift(Goto(eng.tables, m, r)) ==>
              |m.trees| == |eng.tables.rules[r].rhs| && AcceptOk(eng.tables, Acceptance(ReducedTree(eng.tables, m, r), m.shifted, la))
  {
    ReduceReady(eng, an, m, r);
    ConsumeOk(eng, an, m, r);
    var t := eng.tables;
    var popped, tree := Consume(m, |t.rules[r].rhs|), ReducedTree(t, m, r);
    if t.IsShift(Goto(t, m, r)) {
      PushInv(eng, an, popped, Goto(t, m, r), tree, m.shifted);
    } else {
      assert PathOk(t, an, popped.states, popped.trees, |popped.trees|);
      assert popped.trees == [];
    }
  }
}
