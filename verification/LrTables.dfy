/**
 The displacement-compressed tables of a Lemon parser: how an action is looked up, and the
 local, checkable conditions under which a table set fits its grammar.

 Symbols are code numbers.  Codes below `nTerminal` are terminals and 0 is the end marker "$".
 An action number N means: shift to state N when N < nState, reduce by rule N - nState when
 N < nState + |rules|, then in this order error, accept, unused slot.
 */
module LrTables {

  datatype Rule = Rule(lhs: nat, rhs: seq<nat>)

  /** A right-hand side may name a class of terminals such as "LT|GT|GE|LE"; a class has a symbol
      code of its own that occurs in rules but not in the tables. */

  datatype Tables = Tables(
    nState: nat,
    nTerminal: nat,
    rules: seq<Rule>,
    start: nat,
    classes: map<nat, set<nat>>,
    action: seq<int>,         // yy_action
    lookahead: seq<int>,      // yy_lookahead, parallel to action
    shiftOfst: seq<int>,      // yy_shift_ofst, indexed up to YY_SHIFT_COUNT
    shiftUseDflt: int,        // YY_SHIFT_USE_DFLT
    reduceOfst: seq<int>,     // yy_reduce_ofst, indexed up to YY_REDUCE_COUNT
    reduceUseDflt: int,       // YY_REDUCE_USE_DFLT
    dflt: seq<int>,           // yy_default
    fallback: seq<nat>,       // yyFallback, 0 for "nothing"
    wildcard: nat)            // YYWILDCARD, 0 when the grammar has none
  {
    function ErrorAction(): int { nState + |rules| }
    function AcceptAction(): int { nState + |rules| + 1 }

    predicate IsShift(act: int) { 0 <= act < nState }
    predicate IsReduce(act: int) { nState <= act < nState + |rules| }
  }

  /** Array sizes agree, fallbacks and the wildcard are terminals, and a fallback code has no
      fallback of its own. */
  predicate WellSized(t: Tables) {
    && 0 < t.nState
    && |t.lookahead| == |t.action|
    && |t.dflt| == t.nState
    && |t.shiftOfst| <= t.nState
    && |t.reduceOfst| <= t.nState
    && t.wildcard < t.nTerminal
    && forall a {:trigger HasFallback(t, t.fallback[a])} :: 0 <= a < |t.fallback| ==>
         t.fallback[a] < t.nTerminal && !HasFallback(t, t.fallback[a])
  }

  predicate HasFallback(t: Tables, a: nat) {
    a < |t.fallback| && t.fallback[a] != 0
  }

  /** The row with displacement `ofst` holds an entry of its own for symbol `x`. */
  predicate HasSlot(t: Tables, ofst: int, x: nat)
    requires WellSized(t)
  {
    0 <= ofst + x < |t.action| && t.lookahead[ofst + x] == x
  }

  predicate HasShiftRow(t: Tables, s: nat) {
    s < |t.shiftOfst| && t.shiftOfst[s] != t.shiftUseDflt
  }

  predicate HasShiftSlot(t: Tables, s: nat, x: nat)
    requires WellSized(t)
  {
    HasShiftRow(t, s) && HasSlot(t, t.shiftOfst[s], x)
  }

  function ShiftSlot(t: Tables, s: nat, x: nat): int
    requires WellSized(t) && HasShiftSlot(t, s, x)
  {
    t.action[t.shiftOfst[s] + x]
  }

  /** yy_find_shift_action: the action of state `s` on terminal `la`. */
  function ShiftAction(t: Tables, s: nat, la: nat): int
    requires WellSized(t) && s < t.nState
    decreases if HasFallback(t, la) then 1 else 0
  {
    if !HasShiftRow(t, s) then t.dflt[s]
    else if HasSlot(t, t.shiftOfst[s], la) then t.action[t.shiftOfst[s] + la]
    else if la > 0 && HasFallback(t, la) then ShiftAction(t, s, t.fallback[la])
    else if la > 0 && t.wildcard > 0 && HasSlot(t, t.shiftOfst[s], t.wildcard) then
      t.action[t.shiftOfst[s] + t.wildcard]
    else t.dflt[s]
  }

  /** Token code `a` may be read as terminal `x`: itself, its fallback, or the wildcard. */
  predicate ReadsAs(t: Tables, a: nat, x: nat) {
    || a == x
    || (HasFallback(t, a) && x == t.fallback[a])
    || (a > 0 && t.wildcard > 0 && x == t.wildcard)
  }

  predicate TerminalSymbol(t: Tables, c: nat) {
    c < t.nTerminal || c in t.classes
  }

  /** Terminal `x` is `c`, or belongs to the class `c`. */
  predicate Covers(t: Tables, c: nat, x: nat) {
    c == x || (c in t.classes && x in t.classes[c])
  }

  /** A token with code `a` can fill the place of terminal or class `c` in a rule. */
  predicate StandsFor(t: Tables, a: nat, c: nat) {
    || Covers(t, c, a)
    || (HasFallback(t, a) && Covers(t, c, t.fallback[a]))
    || (a > 0 && t.wildcard > 0 && Covers(t, c, t.wildcard))
  }

  /** Every looked-up action is the state's default or sits in a slot for a symbol that the
      token stands for. */
  lemma ShiftActionSource(t: Tables, s: nat, la: nat)
    requires WellSized(t) && s < t.nState
    ensures || ShiftAction(t, s, la) == t.dflt[s]
            || exists x :: ReadsAs(t, la, x) && HasShiftSlot(t, s, x) && ShiftSlot(t, s, x) == ShiftAction(t, s, la)
    ensures HasShiftSlot(t, s, la) ==> ShiftAction(t, s, la) == ShiftSlot(t, s, la)
    ensures la == 0 && ShiftAction(t, s, 0) != t.dflt[s] ==> HasShiftSlot(t, s, 0)
  {
    if HasShiftRow(t, s) {
      if HasSlot(t, t.shiftOfst[s], la) {
        assert HasShiftSlot(t, s, la);
      } else if la > 0 && HasFallback(t, la) {
        var fb := t.fallback[la];
        if HasSlot(t, t.shiftOfst[s], fb) {
          assert ReadsAs(t, la, fb) && HasShiftSlot(t, s, fb);
        } else if t.wildcard > 0 && HasSlot(t, t.shiftOfst[s], t.wildcard) {
          assert ReadsAs(t, la, t.wildcard) && HasShiftSlot(t, s, t.wildcard);
        }
      } else if la > 0 && t.wildcard > 0 && HasSlot(t, t.shiftOfst[s], t.wildcard) {
        assert ReadsAs(t, la, t.wildcard) && HasShiftSlot(t, s, t.wildcard);
      }
    }
  }

  /** The three assertions that yy_find_reduce_action makes about its arguments. */
  predicate GotoDefined(t: Tables, s: nat, x: nat)
    requires WellSized(t)
  {
    && s < |t.reduceOfst|
    && t.reduceOfst[s] != t.reduceUseDflt
    && HasSlot(t, t.reduceOfst[s], x)
  }

  /** yy_find_reduce_action: the action of state `s` on nonterminal `x`. */
  function ReduceAction(t: Tables, s: nat, x: nat): int
    requires WellSized(t) && GotoDefined(t, s, x)
  {
    t.action[t.reduceOfst[s] + x]
  }

  /**
   What is known about the stack when a state is on top: `past[s][k]` is the symbol of the k-th
   entry from the top, and `below[s][k]` holds every state that can lie directly under it.
   */
  datatype Annotation = Annotation(past: seq<seq<nat>>, below: seq<seq<set<nat>>>)

  predicate WellSizedAnnotation(t: Tables, an: Annotation) {
    && |an.past| == t.nState
    && |an.below| == t.nState
    && forall s :: 0 <= s < t.nState ==> |an.past[s]| == |an.below[s]|
  }

  /** Moving from state `s` to state `s'` by pushing symbol `x` keeps what is known. */
  predicate EdgeOk(t: Tables, an: Annotation, s: nat, x: nat, s': int)
    requires WellSizedAnnotation(t, an)
  {
    && s < t.nState
    && 0 < s' < t.nState
    && 0 < |an.past[s']| <= |an.past[s]| + 1
    && an.past[s'][0] == x
    && s in an.below[s'][0]
    && forall k {:trigger PastAgrees(t, an, s, s', k)} :: 0 <= k < |an.past[s']| - 1 ==> PastAgrees(t, an, s, s', k)
  }

  /** What is known k entries below the top in `s` is known one entry further down in `s'`. */
  predicate PastAgrees(t: Tables, an: Annotation, s: nat, s': nat, k: nat)
    requires WellSizedAnnotation(t, an) && s < t.nState && s' < t.nState
    requires k < |an.past[s]| && k + 1 < |an.past[s']|
  {
    an.past[s'][k + 1] == an.past[s][k] && an.below[s][k] <= an.below[s'][k + 1]
  }

  /** After a reduction uncovers state `b`, the goto on `x` is defined and legal. */
  predicate GotoOk(t: Tables, an: Annotation, b: nat, x: nat)
    requires WellSized(t) && WellSizedAnnotation(t, an)
  {
    && b < t.nState
    && GotoDefined(t, b, x)
    && var act := ReduceAction(t, b, x);
       if t.IsShift(act) then EdgeOk(t, an, b, x, act)
       else act == t.AcceptAction() && b == 0 && x == t.start
  }

  /** In state `s` the right-hand side of rule `r` is on the stack, and every state that can lie
      under it has a legal goto. */
  predicate ReduceOk(t: Tables, an: Annotation, s: nat, r: nat)
    requires WellSized(t) && WellSizedAnnotation(t, an)
  {
    && s < t.nState
    && r < |t.rules|
    && var n := |t.rules[r].rhs|;
       && n <= |an.past[s]|
       && (forall k {:trigger TopIsRhs(t, an, s, r, k)} :: 0 <= k < n ==> TopIsRhs(t, an, s, r, k))
       && (forall b {:trigger GotoOk(t, an, b, t.rules[r].lhs)} ::
             b in (if n == 0 then {s} else an.below[s][n - 1]) ==> GotoOk(t, an, b, t.rules[r].lhs))
  }

  /** The k-th entry from the top in `s` is the k-th symbol from the right of rule `r`. */
  predicate TopIsRhs(t: Tables, an: Annotation, s: nat, r: nat, k: nat)
    requires WellSizedAnnotation(t, an) && s < t.nState && r < |t.rules|
    requires k < |t.rules[r].rhs| <= |an.past[s]|
  {
    an.past[s][k] == t.rules[r].rhs[|t.rules[r].rhs| - 1 - k]
  }

  predicate DefaultOk(t: Tables, an: Annotation, s: nat)
    requires WellSized(t) && WellSizedAnnotation(t, an) && s < t.nState
  {
    if t.IsReduce(t.dflt[s]) then ReduceOk(t, an, s, t.dflt[s] - t.nState)
    else t.dflt[s] == t.ErrorAction()
  }

  predicate SlotOk(t: Tables, an: Annotation, s: nat, x: nat)
    requires WellSized(t) && WellSizedAnnotation(t, an) && s < t.nState
  {
    HasShiftSlot(t, s, x) ==>
      var act := ShiftSlot(t, s, x);
      if t.IsShift(act) then
        && |an.past[act]| > 0
        && var c := an.past[act][0];
           TerminalSymbol(t, c) && Covers(t, c, x) && EdgeOk(t, an, s, c, act)
      else if t.IsReduce(act) then ReduceOk(t, an, s, act - t.nState)
      else act == t.ErrorAction()
  }

  /** The validator: only slots, defaults and annotations are inspected, never a run. */
  predicate ValidTables(t: Tables, an: Annotation) {
    && WellSized(t)
    && WellSizedAnnotation(t, an)
    && an.past[0] == []
    && (forall s {:trigger DefaultOk(t, an, s)} :: 0 <= s < t.nState ==> DefaultOk(t, an, s))
    && (forall s, x: nat {:trigger SlotOk(t, an, s, x)} :: 0 <= s < t.nState && x in t.lookahead && x < t.nTerminal ==> SlotOk(t, an, s, x))
  }

  /** The start symbol is reduced only in front of the end marker. */
  predicate StartsOnlyAtEnd(t: Tables)
    requires WellSized(t)
  {
    && (forall s {:trigger ReducesToStart(t, t.dflt[s])} :: 0 <= s < t.nState ==> !ReducesToStart(t, t.dflt[s]))
    && (forall s, x: nat {:trigger ShiftSlot(t, s, x)} :: 0 <= s < t.nState && x in t.lookahead && 0 < x < t.nTerminal && HasShiftSlot(t, s, x) ==>
          !ReducesToStart(t, ShiftSlot(t, s, x)))
  }

  predicate ReducesToStart(t: Tables, act: int) {
    t.IsReduce(act) && t.rules[act - t.nState].lhs == t.start
  }

  /** What a valid table set promises about any looked-up action: a shift goes along a checked
      edge for a terminal the token stands for, a reduction is backed by the stack, and the only
      other outcome is the error action. */
  lemma ShiftActionOk(t: Tables, an: Annotation, s: nat, la: nat)
    requires ValidTables(t, an) && s < t.nState && la < t.nTerminal
    ensures var act := ShiftAction(t, s, la);
            if t.IsShift(act) then
              && |an.past[act]| > 0
              && var x := an.past[act][0]; StandsFor(t, la, x) && TerminalSymbol(t, x) && EdgeOk(t, an, s, x, act)
            else if t.IsReduce(act) then ReduceOk(t, an, s, act - t.nState)
            else act == t.ErrorAction()
    ensures StartsOnlyAtEnd(t) && ReducesToStart(t, ShiftAction(t, s, la)) ==> la == 0
  {
    ShiftActionSource(t, s, la);
    assert DefaultOk(t, an, s);
    if ShiftAction(t, s, la) != t.dflt[s] {
      var x: nat :| ReadsAs(t, la, x) && HasShiftSlot(t, s, x) && ShiftSlot(t, s, x) == ShiftAction(t, s, la);
      if HasFallback(t, la) {
        assert !HasFallback(t, t.fallback[la]);
      }
      assert x < t.nTerminal;
      assert x in t.lookahead by {
        assert t.lookahead[t.shiftOfst[s] + x] == x;
      }
      assert SlotOk(t, an, s, x);
    }
  }
}
