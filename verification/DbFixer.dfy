/**
 Binding a view, trigger or index to one database: walk the parse tree, give every table reference
 without a database name that of the database, and refuse references to another one.
 */
module DbFixer {
  import opened Options
  import opened CaseFolding

  /** Table references are numbered; `Names` holds the database names that are set. */
  type Names = map<nat, string>

  datatype SrcItem = SrcItem(ref: nat, select: Select, on: Expr)

  /** `prior` is the other side of a compound SELECT. */
  datatype Select =
    | NoSelect
    | Select(eList: seq<Expr>, src: seq<SrcItem>, where_: Expr, groupBy: seq<Expr>, having: Expr,
             orderBy: seq<Expr>, limit: Expr, offset: Expr, prior: Select)

  /** The children of an expression: a list or a sub-select, and two operands. */
  datatype Expr =
    | NoExpr
    | TokenOnly
    | ListExpr(list: seq<Expr>, right: Expr, left: Expr)
    | SelectExpr(select: Select, right: Expr, left: Expr)

  datatype TriggerStep = NoStep | TriggerStep(select: Select, where_: Expr, exprList: seq<Expr>, next: TriggerStep)

  // ------------------------------------------------------------------------------------------
  // Names
  // ------------------------------------------------------------------------------------------

  predicate Foreign(names: Names, zDb: string, ref: nat) {
    ref in names && !SameName(names[ref], zDb)
  }

  predicate Bound(names: Names, zDb: string, ref: nat) {
    ref in names && SameName(names[ref], zDb)
  }

  // ------------------------------------------------------------------------------------------
  // The references that the walk reaches, in the order of the walk
  // ------------------------------------------------------------------------------------------

  function ExprRefs(e: Expr): seq<nat> {
    match e
    case NoExpr => []
    case TokenOnly => []
    case ListExpr(list, right, left) => ListRefs(list) + ExprRefs(right) + ExprRefs(left)
    case SelectExpr(select, right, left) => SelectRefs(select) + ExprRefs(right) + ExprRefs(left)
  }

  function ListRefs(list: seq<Expr>): seq<nat> {
    if list == [] then [] else ExprRefs(list[0]) + ListRefs(list[1..])
  }

  function ItemRefs(item: SrcItem): seq<nat> {
    [item.ref] + SelectRefs(item.select) + ExprRefs(item.on)
  }

  function SrcRefs(src: seq<SrcItem>): seq<nat> {
    if src == [] then [] else ItemRefs(src[0]) + SrcRefs(src[1..])
  }

  function SelectRefs(s: Select): seq<nat> {
    match s
    case NoSelect => []
    case Select(eList, src, where_, _, having, _, _, _, prior) =>
      ListRefs(eList) + SrcRefs(src) + ExprRefs(where_) + ExprRefs(having) + SelectRefs(prior)
  }

  function StepRefs(s: TriggerStep): seq<nat> {
    match s
    case NoStep => []
    case TriggerStep(select, where_, exprList, next) =>
      SelectRefs(select) + ExprRefs(where_) + ListRefs(exprList) + StepRefs(next)
  }

  // ------------------------------------------------------------------------------------------
  // What the walk does to them
  // ------------------------------------------------------------------------------------------

  /** The names afterwards, and the name in the error message if there is one. */
  datatype Outcome = Outcome(names: Names, bad: Option<string>)

  function Walk(names: Names, zDb: string, refs: seq<nat>): Outcome
    decreases |refs|
  {
    if refs == [] then Outcome(names, None)
    else if refs[0] !in names then Walk(names[refs[0] := zDb], zDb, refs[1..])
    else if !SameName(names[refs[0]], zDb) then Outcome(names, Some(names[refs[0]]))
    else Walk(names, zDb, refs[1..])
  }

  /** Stop at the first failure, otherwise go on. */
  function Then(o: Outcome, zDb: string, refs: seq<nat>): Outcome {
    if o.bad.Some? then o else Walk(o.names, zDb, refs)
  }

  lemma {:induction false} WalkConcat(names: Names, zDb: string, a: seq<nat>, b: seq<nat>)
    ensures Walk(names, zDb, a + b) == Then(Walk(names, zDb, a), zDb, b)
    decreases |a|
  {
    if a == [] {
      assert a + b == b;
    } else {
      assert (a + b)[1..] == a[1..] + b;
      WalkConcat(names, zDb, a[1..], b);
      WalkConcat(names[a[0] := zDb], zDb, a[1..], b);
    }
  }

  predicate NoneForeign(names: Names, zDb: string, refs: seq<nat>) {
    forall i {:trigger refs[i]} :: 0 <= i < |refs| ==> !Foreign(names, zDb, refs[i])
  }

  predicate AllBound(names: Names, zDb: string, refs: seq<nat>) {
    forall i {:trigger refs[i]} :: 0 <= i < |refs| ==> Bound(names, zDb, refs[i])
  }

  /** Names that are set are never changed, and only references on the way get one. */
  lemma {:induction false} WalkKeeps(names: Names, zDb: string, refs: seq<nat>)
    ensures var o := Walk(names, zDb, refs);
            && (forall r :: r in names ==> r in o.names && o.names[r] == names[r])
            && (forall r :: r in o.names && r !in names ==> r in refs && o.names[r] == zDb)
    decreases |refs|
  {
    if refs != [] {
      WalkKeeps(names, zDb, refs[1..]);
      WalkKeeps(names[refs[0] := zDb], zDb, refs[1..]);
    }
  }

  lemma SetName(names: Names, zDb: string, ref: nat, refs: seq<nat>)
    requires ref !in names
    ensures NoneForeign(names[ref := zDb], zDb, refs) <==> NoneForeign(names, zDb, refs)
  {
    assert forall r: nat {:trigger Foreign(names, zDb, r)} {:trigger Foreign(names[ref := zDb], zDb, r)} ::
        Foreign(names[ref := zDb], zDb, r) <==> Foreign(names, zDb, r);
  }

  lemma NoneForeignTail(names: Names, zDb: string, refs: seq<nat>)
    requires refs != []
    ensures NoneForeign(names, zDb, refs) <==> !Foreign(names, zDb, refs[0]) && NoneForeign(names, zDb, refs[1..])
  {
    if NoneForeign(names, zDb, refs[1..]) {
      forall i | 1 <= i < |refs|
        ensures !Foreign(names, zDb, refs[i])
      {
        assert refs[i] == refs[1..][i - 1];
      }
    }
  }

  /** The walk succeeds exactly when no reference on its way names another database, and otherwise the
      error names such a database. */
  lemma {:induction false} WalkSucceeds(names: Names, zDb: string, refs: seq<nat>)
    ensures var o := Walk(names, zDb, refs);
            && (o.bad.None? <==> NoneForeign(names, zDb, refs))
            && (o.bad.Some? ==> exists i {:trigger refs[i]} :: 0 <= i < |refs| && Foreign(names, zDb, refs[i]) && SomeName(names, refs[i]) == o.bad)
    decreases |refs|
  {
    if refs != [] {
      NoneForeignTail(names, zDb, refs);
      if refs[0] !in names {
        var names' := names[refs[0] := zDb];
        WalkSucceeds(names', zDb, refs[1..]);
        SetName(names, zDb, refs[0], refs[1..]);
        if Walk(names', zDb, refs[1..]).bad.Some? {
          var i :| 0 <= i < |refs[1..]| && Foreign(names', zDb, refs[1..][i]) && SomeName(names', refs[1..][i]) == Walk(names', zDb, refs[1..]).bad;
          assert refs[i + 1] == refs[1..][i];
        }
      } else if !Foreign(names, zDb, refs[0]) {
        WalkSucceeds(names, zDb, refs[1..]);
        if Walk(names, zDb, refs[1..]).bad.Some? {
          var i :| 0 <= i < |refs[1..]| && Foreign(names, zDb, refs[1..][i]) && SomeName(names, refs[1..][i]) == Walk(names, zDb, refs[1..]).bad;
          assert refs[i + 1] == refs[1..][i];
        }
      }
    }
  }

  function SomeName(names: Names, ref: nat): Option<string> {
    if ref in names then Some(names[ref]) else None
  }

  /** After success every reference on the way is bound. */
  lemma {:induction false} WalkBinds(names: Names, zDb: string, refs: seq<nat>)
    requires Walk(names, zDb, refs).bad.None?
    ensures AllBound(Walk(names, zDb, refs).names, zDb, refs)
    decreases |refs|
  {
    if refs != [] {
      var names' := if refs[0] in names then names else names[refs[0] := zDb];
      WalkBinds(names', zDb, refs[1..]);
      WalkKeeps(names', zDb, refs[1..]);
      forall i | 0 <= i < |refs|
        ensures Bound(Walk(names, zDb, refs).names, zDb, refs[i])
      {
        assert i > 0 ==> refs[i] == refs[1..][i - 1];
      }
    }
  }

  /** Once a walk has succeeded, doing it again changes nothing. */
  lemma WalkIdempotent(names: Names, zDb: string, refs: seq<nat>)
    requires Walk(names, zDb, refs).bad.None?
    ensures Walk(Walk(names, zDb, refs).names, zDb, refs) == Walk(names, zDb, refs)
  {
    WalkBinds(names, zDb, refs);
    BoundWalk(Walk(names, zDb, refs).names, zDb, refs);
  }

  lemma {:induction false} BoundWalk(names: Names, zDb: string, refs: seq<nat>)
    requires AllBound(names, zDb, refs)
    ensures Walk(names, zDb, refs) == Outcome(names, None)
    decreases |refs|
  {
    if refs != [] {
      assert Bound(names, zDb, refs[0]);
      BoundWalk(names, zDb, refs[1..]);
    }
  }

  // ------------------------------------------------------------------------------------------
  // All references
  // ------------------------------------------------------------------------------------------

  /** Every table reference in the tree, the clauses that the walk leaves out included. */
  function AllExprRefs(e: Expr): set<nat> {
    match e
    case NoExpr => {}
    case TokenOnly => {}
    case ListExpr(list, right, left) => AllListRefs(list) + AllExprRefs(right) + AllExprRefs(left)
    case SelectExpr(select, right, left) => AllSelectRefs(select) + AllExprRefs(right) + AllExprRefs(left)
  }

  function AllListRefs(list: seq<Expr>): set<nat> {
    if list == [] then {} else AllExprRefs(list[0]) + AllListRefs(list[1..])
  }

  function AllItemRefs(item: SrcItem): set<nat> {
    {item.ref} + AllSelectRefs(item.select) + AllExprRefs(item.on)
  }

  function AllSrcRefs(src: seq<SrcItem>): set<nat> {
    if src == [] then {} else AllItemRefs(src[0]) + AllSrcRefs(src[1..])
  }

  function AllSelectRefs(s: Select): set<nat> {
    match s
    case NoSelect => {}
    case Select(eList, src, where_, groupBy, having, orderBy, limit, offset, prior) =>
      AllListRefs(eList) + AllSrcRefs(src) + AllExprRefs(where_) + AllExprRefs(having) + AllSelectRefs(prior)
      // not walked:
      + AllListRefs(groupBy) + AllListRefs(orderBy) + AllExprRefs(limit) + AllExprRefs(offset)
  }

  function Refs(refs: seq<nat>): set<nat> {
    set r | r in refs
  }

  lemma {:induction false} ExprSubset(e: Expr)
    ensures Refs(ExprRefs(e)) <= AllExprRefs(e)
  {
    match e
    case NoExpr =>
    case TokenOnly =>
    case ListExpr(list, right, left) =>
      ListSubset(list);
      ExprSubset(right);
      ExprSubset(left);
    case SelectExpr(select, right, left) =>
      SelectSubset(select);
      ExprSubset(right);
      ExprSubset(left);
  }

  lemma {:induction false} ListSubset(list: seq<Expr>)
    ensures Refs(ListRefs(list)) <= AllListRefs(list)
  {
    if list != [] {
      ExprSubset(list[0]);
      ListSubset(list[1..]);
    }
  }

  lemma {:induction false} ItemSubset(item: SrcItem)
    ensures Refs(ItemRefs(item)) <= AllItemRefs(item)
  {
    SelectSubset(item.select);
    ExprSubset(item.on);
  }

  lemma {:induction false} SrcSubset(src: seq<SrcItem>)
    ensures Refs(SrcRefs(src)) <= AllSrcRefs(src)
  {
    if src != [] {
      ItemSubset(src[0]);
      SrcSubset(src[1..]);
    }
  }

  lemma {:induction false} SelectSubset(s: Select)
    ensures Refs(SelectRefs(s)) <= AllSelectRefs(s)
  {
    if s.Select? {
      ListSubset(s.eList);
      SrcSubset(s.src);
      ExprSubset(s.where_);
      ExprSubset(s.having);
      SelectSubset(s.prior);
    }
  }

  function AllStepRefs(s: TriggerStep): set<nat> {
    match s
    case NoStep => {}
    case TriggerStep(select, where_, exprList, next) =>
      AllSelectRefs(select) + AllExprRefs(where_) + AllListRefs(exprList) + AllStepRefs(next)
  }

  lemma {:induction false} StepSubset(s: TriggerStep)
    ensures Refs(StepRefs(s)) <= AllStepRefs(s)
  {
    if s.TriggerStep? {
      SelectSubset(s.select);
      ExprSubset(s.where_);
      ListSubset(s.exprList);
      StepSubset(s.next);
    }
  }

  /** After a successful walk over some of the references in `all`, all of them are in the database
      exactly when those it leaves out were there already. */
  lemma BoundIff(names: Names, zDb: string, refs: seq<nat>, all: set<nat>)
    requires Walk(names, zDb, refs).bad.None? && Refs(refs) <= all
    ensures (forall r :: r in all ==> Bound(Walk(names, zDb, refs).names, zDb, r)) <==>
            (forall r :: r in all && r !in refs ==> Bound(names, zDb, r))
  {
    WalkBinds(names, zDb, refs);
    WalkKeeps(names, zDb, refs);
    forall r | r in refs
      ensures r in all && Bound(Walk(names, zDb, refs).names, zDb, r)
    {
      assert r in Refs(refs);
      var i :| 0 <= i < |refs| && refs[i] == r;
    }
  }

  /** The documentation promises that all references end up in the database. When that is so for a SELECT,
      a FROM clause and the steps of a trigger. */
  lemma AllBoundIff(names: Names, zDb: string, s: Select)
    requires Walk(names, zDb, SelectRefs(s)).bad.None?
    ensures var o := Walk(names, zDb, SelectRefs(s));
            (forall r :: r in AllSelectRefs(s) ==> Bound(o.names, zDb, r)) <==>
            (forall r :: r in AllSelectRefs(s) && r !in SelectRefs(s) ==> Bound(names, zDb, r))
  {
    SelectSubset(s);
    BoundIff(names, zDb, SelectRefs(s), AllSelectRefs(s));
  }

  lemma AllSrcBoundIff(names: Names, zDb: string, src: seq<SrcItem>)
    requires Walk(names, zDb, SrcRefs(src)).bad.None?
    ensures var o := Walk(names, zDb, SrcRefs(src));
            (forall r :: r in AllSrcRefs(src) ==> Bound(o.names, zDb, r)) <==>
            (forall r :: r in AllSrcRefs(src) && r !in SrcRefs(src) ==> Bound(names, zDb, r))
  {
    SrcSubset(src);
    BoundIff(names, zDb, SrcRefs(src), AllSrcRefs(src));
  }

  lemma AllStepsBoundIff(names: Names, zDb: string, s: TriggerStep)
    requires Walk(names, zDb, StepRefs(s)).bad.None?
    ensures var o := Walk(names, zDb, StepRefs(s));
            (forall r :: r in AllStepRefs(s) ==> Bound(o.names, zDb, r)) <==>
            (forall r :: r in AllStepRefs(s) && r !in StepRefs(s) ==> Bound(names, zDb, r))
  {
    StepSubset(s);
    BoundIff(names, zDb, StepRefs(s), AllStepRefs(s));
  }

  const NO_CLAUSES := Select([], [], NoExpr, [], NoExpr, [], NoExpr, NoExpr, NoSelect)

  /** SELECT ... FROM t ORDER BY (SELECT ... FROM u): the walk succeeds and u stays unbound. */
  lemma OrderByIsSkipped(zDb: string)
    ensures var sub := NO_CLAUSES.(src := [SrcItem(2, NoSelect, NoExpr)]);
            var s := NO_CLAUSES.(src := [SrcItem(1, NoSelect, NoExpr)], orderBy := [SelectExpr(sub, NoExpr, NoExpr)]);
            var o := Walk(map[], zDb, SelectRefs(s));
            o.bad.None? && 2 in AllSelectRefs(s) && 2 !in o.names
  {
    var sub := NO_CLAUSES.(src := [SrcItem(2, NoSelect, NoExpr)]);
    var s := NO_CLAUSES.(src := [SrcItem(1, NoSelect, NoExpr)], orderBy := [SelectExpr(sub, NoExpr, NoExpr)]);
    assert ItemRefs(s.src[0]) == [1] && s.src[1..] == [] && SrcRefs(s.src) == [1];
    assert SelectRefs(s) == [1];
    WalkKeeps(map[], zDb, [1]);
    WalkSucceeds(map[], zDb, [1]);
    assert 2 in AllItemRefs(sub.src[0]) && 2 in AllSrcRefs(sub.src) && 2 in AllSelectRefs(sub);
    assert 2 in AllExprRefs(s.orderBy[0]) && 2 in AllListRefs(s.orderBy);
  }

  // ------------------------------------------------------------------------------------------
  // The walk itself; methods return true where the code returns 0
  // ------------------------------------------------------------------------------------------

  class Fixer {
    const zDb: string
    var names: Names
    var error: Option<string>

    constructor (zDb: string, names: Names)
      ensures this.zDb == zDb && this.names == names && error == None
    {
      this.zDb, this.names, error := zDb, names, None;
    }

    /** What a walk over `refs` makes of the current state. */
    ghost function Result(refs: seq<nat>): Outcome
      reads this
    {
      Walk(names, zDb, refs)
    }

    /** sqlite4FixSrcList */
    method FixSrcList(src: seq<SrcItem>) returns (ok: bool)
      requires error == None
      modifies this
      ensures Outcome(names, error) == old(Result(SrcRefs(src))) && ok == error.None?
      decreases src
    {
      var i := 0;
      while i < |src|
        invariant 0 <= i <= |src| && error == None
        invariant Result(SrcRefs(src[i..])) == old(Result(SrcRefs(src)))
      {
        assert src[i..][0] == src[i] && src[i..][1..] == src[i + 1..];
        WalkConcat(names, zDb, ItemRefs(src[i]), SrcRefs(src[i + 1..]));
        ok := FixItem(src[i]);
        if !ok {
          return;
        }
        i := i + 1;
      }
      return true;
    }

    /** One entry of a FROM clause. */
    method FixItem(item: SrcItem) returns (ok: bool)
      requires error == None
      modifies this
      ensures Outcome(names, error) == old(Result(ItemRefs(item))) && ok == error.None?
      decreases item
    {
      WalkConcat(names, zDb, [item.ref] + SelectRefs(item.select), ExprRefs(item.on));
      WalkConcat(names, zDb, [item.ref], SelectRefs(item.select));
      assert [item.ref][1..] == [];
      if item.ref !in names {
        names := names[item.ref := zDb];
      } else if !SameName(names[item.ref], zDb) {
        error := Some(names[item.ref]);
        return false;
      }
      ok := FixSelect(item.select);
      if !ok {
        return;
      }
      ok := FixExpr(item.on);
    }

    /** sqlite4FixSelect */
    method FixSelect(select: Select) returns (ok: bool)
      requires error == None
      modifies this
      ensures Outcome(names, error) == old(Result(SelectRefs(select))) && ok == error.None?
      decreases select
    {
      var s := select;
      while s.Select?
        invariant error == None && (select nonincreases to s)
        invariant Result(SelectRefs(s)) == old(Result(SelectRefs(select)))
        decreases s
      {
        var a, b, c, d := ListRefs(s.eList), SrcRefs(s.src), ExprRefs(s.where_), ExprRefs(s.having);
        WalkConcat(names, zDb, a + b + c + d, SelectRefs(s.prior));
        WalkConcat(names, zDb, a + b + c, d);
        WalkConcat(names, zDb, a + b, c);
        WalkConcat(names, zDb, a, b);
        ok := FixExprList(s.eList);
        if !ok {
          return;
        }
        ok := FixSrcList(s.src);
        if !ok {
          return;
        }
        ok := FixExpr(s.where_);
        if !ok {
          return;
        }
        ok := FixExpr(s.having);
        if !ok {
          return;
        }
        s := s.prior;
      }
      return true;
    }

    /** sqlite4FixExpr */
    method FixExpr(expr: Expr) returns (ok: bool)
      requires error == None
      modifies this
      ensures Outcome(names, error) == old(Result(ExprRefs(expr))) && ok == error.None?
      decreases expr
    {
      var e := expr;
      while e != NoExpr
        invariant error == None && (expr nonincreases to e)
        invariant Result(ExprRefs(e)) == old(Result(ExprRefs(expr)))
        decreases e
      {
        if e.TokenOnly? {
          break;
        }
        var sub := if e.SelectExpr? then SelectRefs(e.select) else ListRefs(e.list);
        WalkConcat(names, zDb, sub + ExprRefs(e.right), ExprRefs(e.left));
        WalkConcat(names, zDb, sub, ExprRefs(e.right));
        if e.SelectExpr? {
          ok := FixSelect(e.select);
        } else {
          ok := FixExprList(e.list);
        }
        if !ok {
          return;
        }
        ok := FixExpr(e.right);
        if !ok {
          return;
        }
        e := e.left;
      }
      return true;
    }

    /** sqlite4FixExprList */
    method FixExprList(list: seq<Expr>) returns (ok: bool)
      requires error == None
      modifies this
      ensures Outcome(names, error) == old(Result(ListRefs(list))) && ok == error.None?
      decreases list
    {
      var i := 0;
      while i < |list|
        invariant 0 <= i <= |list| && error == None
        invariant Result(ListRefs(list[i..])) == old(Result(ListRefs(list)))
      {
        assert list[i..][0] == list[i] && list[i..][1..] == list[i + 1..];
        WalkConcat(names, zDb, ExprRefs(list[i]), ListRefs(list[i + 1..]));
        ok := FixExpr(list[i]);
        if !ok {
          return;
        }
        i := i + 1;
      }
      return true;
    }

    /** sqlite4FixTriggerStep */
    method FixTriggerStep(step: TriggerStep) returns (ok: bool)
      requires error == None
      modifies this
      ensures Outcome(names, error) == old(Result(StepRefs(step))) && ok == error.None?
    {
      var s := step;
      while s.TriggerStep?
        invariant error == None
        invariant Result(StepRefs(s)) == old(Result(StepRefs(step)))
        decreases s
      {
        var a, b, c := SelectRefs(s.select), ExprRefs(s.where_), ListRefs(s.exprList);
        WalkConcat(names, zDb, a + b + c, StepRefs(s.next));
        WalkConcat(names, zDb, a + b, c);
        WalkConcat(names, zDb, a, b);
        ok := FixSelect(s.select);
        if !ok {
          return;
        }
        ok := FixExpr(s.where_);
        if !ok {
          return;
        }
        ok := FixExprList(s.exprList);
        if !ok {
          return;
        }
        s := s.next;
      }
      return true;
    }
  }
}
