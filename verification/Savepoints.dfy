/**
 Nested transactions on top of SQL savepoints: level 1 is a BEGIN, level i+1 is the savepoint named
 x<i>, and one counter says how many levels are open.
 */
module Savepoints {
  import opened Options

  type Table = map<string, string>

  datatype Point = Point(name: int, table: Table)

  /** A SQL connection: the rows as seen now, the rows when BEGIN was executed, and the savepoints
      with the rows when they were set. */
  datatype Conn = Conn(table: Table, begun: Option<Table>, points: seq<Point>)

  // ------------------------------------------------------------------------------------------
  // SQL statements; None is an error, which changes nothing
  // ------------------------------------------------------------------------------------------

  predicate InTransaction(c: Conn) {
    c.begun.Some? || c.points != []
  }

  function ExecBegin(c: Conn): Option<Conn> {
    if InTransaction(c) then None else Some(c.(begun := Some(c.table)))
  }

  function ExecSavepoint(c: Conn, name: int): Conn {
    c.(points := c.points + [Point(name, c.table)])
  }

  /** The latest savepoint of that name among the first `n`, or -1. */
  function Find(points: seq<Point>, n: nat, name: int): (i: int)
    requires n <= |points|
    ensures -1 <= i < n && (i >= 0 ==> points[i].name == name)
  {
    if n == 0 then -1 else if points[n - 1].name == name then n - 1 else Find(points, n - 1, name)
  }

  /** RELEASE forgets the savepoint and all later ones. */
  function ExecRelease(c: Conn, name: int): Option<Conn> {
    var i := Find(c.points, |c.points|, name);
    if i < 0 then None else Some(c.(points := c.points[..i]))
  }

  /** ROLLBACK TO restores the rows, forgets later savepoints and keeps this one. */
  function ExecRollbackTo(c: Conn, name: int): Option<Conn> {
    var i := Find(c.points, |c.points|, name);
    if i < 0 then None else Some(c.(table := c.points[i].table, points := c.points[..i + 1]))
  }

  function ExecCommit(c: Conn): Option<Conn> {
    if !InTransaction(c) then None else Some(Conn(c.table, None, []))
  }

  function ExecRollback(c: Conn): Option<Conn> {
    if c.begun.Some? then Some(Conn(c.begun.value, None, []))
    else if c.points != [] then Some(Conn(c.points[0].table, None, []))
    else None
  }

  // ------------------------------------------------------------------------------------------
  // What the interface documents: a stack of snapshots, one per open level
  // ------------------------------------------------------------------------------------------

  /** `starts[i]` are the rows when level i + 1 was opened. */
  datatype Nested = Nested(table: Table, starts: seq<Table>)

  /** `Change` is any write or delete: it leaves the given rows. */
  datatype Call = Change(rows: Table) | Begin(iLevel: nat) | Commit(iLevel: nat) | Rollback(iLevel: nat)

  function Copies(t: Table, n: nat): seq<Table> {
    seq(n, _ => t)
  }

  function DocBegin(a: Nested, i: nat): Nested {
    if i <= |a.starts| then a else a.(starts := a.starts + Copies(a.table, i - |a.starts|))
  }

  function DocCommit(a: Nested, i: nat): Nested {
    if i >= |a.starts| then a else a.(starts := a.starts[..i])
  }

  /** Close the levels above `i` and restore the rows: to where they were before any write
      transaction for i = 1, to the start of the level that stays open for larger ones. */
  function DocRollback(a: Nested, i: nat): Nested {
    if i == 0 then (if a.starts == [] then a else Nested(a.starts[0], []))
    else if i == 1 then (if |a.starts| < 2 then a else Nested(a.starts[1], a.starts[..1]))
    else if i > |a.starts| then a
    else Nested(a.starts[i - 1], a.starts[..i])
  }

  function Doc(a: Nested, c: Call): Nested {
    match c
    case Change(rows) => a.(table := rows)
    case Begin(i) => DocBegin(a, i)
    case Commit(i) => DocCommit(a, i)
    case Rollback(i) => DocRollback(a, i)
  }

  // ------------------------------------------------------------------------------------------
  // The implementation
  // ------------------------------------------------------------------------------------------

  datatype Db = Db(conn: Conn, nOpenTrans: nat)

  /** Savepoints x<from> to x<i - 1>. */
  function SetPoints(c: Conn, from: nat, i: nat): Conn
    decreases i - from
  {
    if from >= i then c else SetPoints(ExecSavepoint(c, from), from + 1, i)
  }

  function ImplBegin(d: Db, i: nat): (Db, bool) {
    if i == 0 then (d, true)
    else if d.nOpenTrans == 0 then
      match ExecBegin(d.conn)
      case None => (d, false)
      case Some(c) => (Db(SetPoints(c, 1, i), i), true)
    else (Db(SetPoints(d.conn, d.nOpenTrans, i), i), true)
  }

  function ImplCommit(d: Db, i: nat): (Db, bool) {
    if i == 0 then
      if d.nOpenTrans == 0 then (d, true)
      else
        match ExecCommit(d.conn)
        case None => (d, false)
        case Some(c) => (Db(c, 0), true)
    else if d.nOpenTrans > i then
      match ExecRelease(d.conn, i)
      case None => (d, false)
      case Some(c) => (Db(c, i), true)
    else (Db(d.conn, i), true)
  }

  function ImplRollback(d: Db, i: nat): (Db, bool) {
    if d.nOpenTrans >= 1 && i == 0 then
      match ExecRollback(d.conn)
      case None => (d, false)
      case Some(c) => (Db(c, 0), true)
    else if d.nOpenTrans > 1 && i == 1 then
      match ExecRollbackTo(d.conn, 1)
      case None => (d, false)
      case Some(c) =>
        match ExecRelease(c, 1)
        case None => (d.(conn := c), false)
        case Some(c') => (Db(c', 1), true)
    else
      match ExecRollbackTo(d.conn, i - 1)
      case None => (d, false)
      case Some(c) => (Db(c, i), true)
  }

  function Impl(d: Db, c: Call): (Db, bool) {
    match c
    case Change(rows) => (d.(conn := d.conn.(table := rows)), true)
    case Begin(i) => ImplBegin(d, i)
    case Commit(i) => ImplCommit(d, i)
    case Rollback(i) => ImplRollback(d, i)
  }

  // ------------------------------------------------------------------------------------------
  // Refinement
  // ------------------------------------------------------------------------------------------

  /** The savepoint stack is exactly x1 .. x(n-1), each with the rows of its level. */
  ghost predicate PointsMatch(points: seq<Point>, starts: seq<Table>) {
    && |points| == (if starts == [] then 0 else |starts| - 1)
    && forall i {:trigger points[i]} :: 0 <= i < |points| ==> points[i] == Point(i + 1, starts[i + 1])
  }

  ghost predicate Refines(d: Db, a: Nested) {
    && d.nOpenTrans == |a.starts|
    && d.conn.table == a.table
    && d.conn.begun == (if a.starts == [] then None else Some(a.starts[0]))
    && PointsMatch(d.conn.points, a.starts)
  }

  lemma {:induction false} FindPoint(points: seq<Point>, starts: seq<Table>, n: nat, name: int)
    requires PointsMatch(points, starts) && n <= |points|
    ensures Find(points, n, name) == if 1 <= name <= n then name - 1 else -1
  {
    if n > 0 {
      assert points[n - 1] == Point(n, starts[n]);
      FindPoint(points, starts, n - 1, name);
    }
  }

  lemma {:induction false} SetPointsMatch(c: Conn, starts: seq<Table>, i: nat)
    requires starts != [] && |starts| <= i && PointsMatch(c.points, starts)
    ensures var c' := SetPoints(c, |starts|, i);
            && c'.table == c.table && c'.begun == c.begun
            && PointsMatch(c'.points, starts + Copies(c.table, i - |starts|))
    decreases i - |starts|
  {
    if |starts| < i {
      SetPointsMatch(ExecSavepoint(c, |starts|), starts + [c.table], i);
      assert starts + [c.table] + Copies(c.table, i - |starts| - 1) == starts + Copies(c.table, i - |starts|);
    } else {
      assert starts + Copies(c.table, 0) == starts;
    }
  }

  /** The levels for which a call does what is documented. */
  predicate InRange(n: nat, c: Call) {
    match c
    case Change(_) => true
    case Begin(i) => i == 0 || i >= n
    case Commit(i) => i <= n
    case Rollback(i) => (i == 0 && n > 0) || (i == 1 && n > 1) || (2 <= i <= n)
  }

  lemma BeginRefines(d: Db, a: Nested, i: nat)
    requires Refines(d, a) && InRange(|a.starts|, Begin(i))
    ensures ImplBegin(d, i).1 && Refines(ImplBegin(d, i).0, DocBegin(a, i))
  {
    if i > 0 {
      if a.starts == [] {
        var c := ExecBegin(d.conn).value;
        SetPointsMatch(c, [a.table], i);
        assert [a.table] + Copies(a.table, i - 1) == a.starts + Copies(a.table, i);
      } else {
        SetPointsMatch(d.conn, a.starts, i);
        assert i == |a.starts| ==> a.starts + Copies(a.table, 0) == a.starts;
      }
    }
  }

  lemma CommitRefines(d: Db, a: Nested, i: nat)
    requires Refines(d, a) && InRange(|a.starts|, Commit(i))
    ensures ImplCommit(d, i).1 && Refines(ImplCommit(d, i).0, DocCommit(a, i))
  {
    if 0 < i < |a.starts| {
      FindPoint(d.conn.points, a.starts, |d.conn.points|, i);
    }
  }

  lemma RollbackRefines(d: Db, a: Nested, i: nat)
    requires Refines(d, a) && InRange(|a.starts|, Rollback(i))
    ensures ImplRollback(d, i).1 && Refines(ImplRollback(d, i).0, DocRollback(a, i))
  {
    if i == 1 {
      FindPoint(d.conn.points, a.starts, |d.conn.points|, 1);
      var c := ExecRollbackTo(d.conn, 1).value;
      FindPoint(c.points, a.starts[..2], 1, 1);
    } else if i > 1 {
      FindPoint(d.conn.points, a.starts, |d.conn.points|, i - 1);
    }
  }

  /** A rollback of a level that is not open fails and changes nothing. */
  lemma RollbackFails(d: Db, a: Nested, i: nat)
    requires Refines(d, a) && !InRange(|a.starts|, Rollback(i))
    ensures ImplRollback(d, i) == (d, false)
  {
    FindPoint(d.conn.points, a.starts, |d.conn.points|, i - 1);
  }

  /** A begin below the current level loses count of the levels that stay open. */
  lemma BeginTooLow(d: Db, a: Nested, i: nat)
    requires Refines(d, a) && !InRange(|a.starts|, Begin(i))
    ensures ImplBegin(d, i) == (Db(d.conn, i), true)
    ensures forall b :: !Refines(ImplBegin(d, i).0, b)
  {
  }

  /** A commit above the current level counts levels that were never opened. */
  lemma CommitTooHigh(d: Db, a: Nested, i: nat)
    requires Refines(d, a) && !InRange(|a.starts|, Commit(i))
    ensures ImplCommit(d, i) == (Db(d.conn, i), true)
    ensures forall b :: !Refines(ImplCommit(d, i).0, b)
  {
  }

  /** Exactly the calls in range succeed and leave what is documented. */
  lemma CallRefines(d: Db, a: Nested, c: Call)
    requires Refines(d, a)
    ensures InRange(|a.starts|, c) <==> Impl(d, c).1 && Refines(Impl(d, c).0, Doc(a, c))
  {
    match c
    case Change(_) =>
    case Begin(i) =>
      if InRange(|a.starts|, c) {
        BeginRefines(d, a, i);
      } else {
        BeginTooLow(d, a, i);
      }
    case Commit(i) =>
      if InRange(|a.starts|, c) {
        CommitRefines(d, a, i);
      } else {
        CommitTooHigh(d, a, i);
      }
    case Rollback(i) =>
      if InRange(|a.starts|, c) {
        RollbackRefines(d, a, i);
      } else {
        RollbackFails(d, a, i);
      }
  }

  // ------------------------------------------------------------------------------------------
  // Every run
  // ------------------------------------------------------------------------------------------

  function DocRun(a: Nested, calls: seq<Call>, n: nat): Nested
    requires n <= |calls|
  {
    if n == 0 then a else Doc(DocRun(a, calls, n - 1), calls[n - 1])
  }

  function ImplRun(d: Db, calls: seq<Call>, n: nat): Db
    requires n <= |calls|
  {
    if n == 0 then d else Impl(ImplRun(d, calls, n - 1), calls[n - 1]).0
  }

  predicate AllInRange(a: Nested, calls: seq<Call>, n: nat)
    requires n <= |calls|
  {
    n > 0 ==> AllInRange(a, calls, n - 1) && InRange(|DocRun(a, calls, n - 1).starts|, calls[n - 1])
  }

  function Fresh(t: Table): Db {
    Db(Conn(t, None, []), 0)
  }

  /** For every sequence of calls with levels in range the implementation follows the documented stack
      of snapshots: same rows, same level, savepoints exactly x1 .. x(n-1). */
  lemma {:induction false} RunRefines(t: Table, calls: seq<Call>, n: nat)
    requires n <= |calls| && AllInRange(Nested(t, []), calls, n)
    ensures Refines(ImplRun(Fresh(t), calls, n), DocRun(Nested(t, []), calls, n))
  {
    if n > 0 {
      RunRefines(t, calls, n - 1);
      CallRefines(ImplRun(Fresh(t), calls, n - 1), DocRun(Nested(t, []), calls, n - 1), calls[n - 1]);
    }
  }

  /** The call leaves the lowest `k` levels open. */
  predicate StaysAbove(c: Call, k: nat) {
    match c
    case Change(_) => true
    case Begin(_) => true
    case Commit(i) => i >= k
    case Rollback(i) => i >= k && i > 0
  }

  lemma DocKeepsBelow(a: Nested, c: Call, k: nat)
    requires k <= |a.starts| && StaysAbove(c, k)
    ensures k <= |Doc(a, c).starts| && Doc(a, c).starts[..k] == a.starts[..k]
  {
  }

  lemma {:induction false} RunKeepsBelow(a: Nested, calls: seq<Call>, n: nat, k: nat)
    requires n <= |calls| && k <= |a.starts| && forall c :: c in calls ==> StaysAbove(c, k)
    ensures k <= |DocRun(a, calls, n).starts| && DocRun(a, calls, n).starts[..k] == a.starts[..k]
  {
    if n > 0 {
      RunKeepsBelow(a, calls, n - 1, k);
      assert calls[n - 1] in calls;
      DocKeepsBelow(DocRun(a, calls, n - 1), calls[n - 1], k);
    }
  }

  /** In the documented machine: open one more level, do anything that leaves it open, and roll it back. */
  lemma DocRollbackUndoes(a: Nested, calls: seq<Call>)
    requires |a.starts| > 0 && forall c :: c in calls ==> StaysAbove(c, |a.starts| + 1)
    ensures var k := |a.starts| + 1;
            var b := DocRun(Doc(a, Begin(k)), calls, |calls|);
            && InRange(|b.starts|, Rollback(k))
            && Doc(b, Rollback(k)) == Doc(a, Begin(k))
  {
    var k := |a.starts| + 1;
    var start := Doc(a, Begin(k));
    RunKeepsBelow(start, calls, |calls|, k);
    var b := DocRun(start, calls, |calls|);
    assert start.starts == a.starts + [a.table];
    assert b.starts[..k] == start.starts;
    assert b.starts[k - 1] == start.starts[k - 1];
  }

  lemma {:induction false} DocRunSplit(a: Nested, first: seq<Call>, rest: seq<Call>, n: nat)
    requires n <= |rest|
    ensures DocRun(a, first + rest, |first| + n) == DocRun(DocRun(a, first, |first|), rest, n)
  {
    if n > 0 {
      DocRunSplit(a, first, rest, n - 1);
    } else {
      DocRunPrefix(a, first, rest, |first|);
    }
  }

  lemma {:induction false} DocRunPrefix(a: Nested, first: seq<Call>, rest: seq<Call>, n: nat)
    requires n <= |first|
    ensures DocRun(a, first + rest, n) == DocRun(a, first, n)
    ensures AllInRange(a, first + rest, n) == AllInRange(a, first, n)
  {
    if n > 0 {
      DocRunPrefix(a, first, rest, n - 1);
    }
  }

  lemma {:induction false} InRangeBefore(a: Nested, calls: seq<Call>, m: nat, n: nat)
    requires m <= n <= |calls| && AllInRange(a, calls, n)
    ensures AllInRange(a, calls, m)
  {
    if m < n {
      InRangeBefore(a, calls, m, n - 1);
    }
  }

  /** The documented state determines that of the database. */
  lemma RefinesOnce(d: Db, d': Db, a: Nested)
    requires Refines(d, a) && Refines(d', a)
    ensures d == d'
  {
    assert d.conn.points == d'.conn.points;
  }

  lemma {:induction false} DocRunFirst(a: Nested, c: Call, calls: seq<Call>, n: nat)
    requires n <= |calls|
    ensures DocRun(a, [c] + calls, n + 1) == DocRun(Doc(a, c), calls, n)
  {
    if n > 0 {
      DocRunFirst(a, c, calls, n - 1);
    } else {
      assert DocRun(a, [c] + calls, 0) == a;
    }
  }

  lemma DocRunJoins(a: Nested, before: seq<Call>, rest: seq<Call>, all: seq<Call>)
    requires all == before + rest
    ensures DocRun(a, all, |all|) == DocRun(DocRun(a, before, |before|), rest, |rest|)
  {
    DocRunSplit(a, before, rest, |rest|);
  }

  /** Where the documented machine is after one more level was opened and used. */
  lemma DocRunOpened(a: Nested, before: seq<Call>, k: nat, calls: seq<Call>, all: seq<Call>)
    requires all == before + ([Begin(k)] + calls)
    ensures DocRun(a, all, |all|) == DocRun(Doc(DocRun(a, before, |before|), Begin(k)), calls, |calls|)
  {
    var rest := [Begin(k)] + calls;
    DocRunJoins(a, before, rest, all);
    DocRunFirst(DocRun(a, before, |before|), Begin(k), calls, |calls|);
    assert |rest| == |calls| + 1;
  }

  lemma InRangeOpened(a: Nested, before: seq<Call>, k: nat, calls: seq<Call>, all: seq<Call>)
    requires all == before + ([Begin(k)] + calls) && AllInRange(a, all, |all|)
    ensures AllInRange(a, before, |before|)
  {
    InRangeBefore(a, all, |before|, |all|);
    DocRunPrefix(a, before, [Begin(k)] + calls, |before|);
  }

  /** The database `d` before the level was opened, and `d'` after it was used. */
  lemma UndoneIn(d: Db, d': Db, a: Nested, calls: seq<Call>)
    requires |a.starts| > 0 && forall c :: c in calls ==> StaysAbove(c, |a.starts| + 1)
    requires Refines(d, a) && Refines(d', DocRun(Doc(a, Begin(|a.starts| + 1)), calls, |calls|))
    ensures var k := |a.starts| + 1;
            && Impl(d, Begin(k)).1 && Impl(d, Begin(k)).0.conn.table == d.conn.table
            && Impl(d', Rollback(k)) == Impl(d, Begin(k))
  {
    var k := |a.starts| + 1;
    DocRollbackUndoes(a, calls);
    CallRefines(d, a, Begin(k));
    CallRefines(d', DocRun(Doc(a, Begin(k)), calls, |calls|), Rollback(k));
    RefinesOnce(Impl(d', Rollback(k)).0, Impl(d, Begin(k)).0, Doc(a, Begin(k)));
  }

  /** In the database: whatever was done before, open one more level, do anything that leaves it open,
      and roll it back: rows, savepoints and counter are those from the moment the level was opened. */
  lemma RollbackUndoes(t: Table, before: seq<Call>, k: nat, calls: seq<Call>, all: seq<Call>)
    requires all == before + ([Begin(k)] + calls) && AllInRange(Nested(t, []), all, |all|)
    requires ImplRun(Fresh(t), before, |before|).nOpenTrans == k - 1 > 0
    requires forall c :: c in calls ==> StaysAbove(c, k)
    ensures var d, d' := ImplRun(Fresh(t), before, |before|), ImplRun(Fresh(t), all, |all|);
            && Impl(d, Begin(k)).1 && Impl(d, Begin(k)).0.conn.table == d.conn.table
            && Impl(d', Rollback(k)) == Impl(d, Begin(k))
  {
    InRangeOpened(Nested(t, []), before, k, calls, all);
    RunRefines(t, before, |before|);
    RunRefines(t, all, |all|);
    DocRunOpened(Nested(t, []), before, k, calls, all);
    UndoneIn(ImplRun(Fresh(t), before, |before|), ImplRun(Fresh(t), all, |all|), DocRun(Nested(t, []), before, |before|), calls);
  }

  // ------------------------------------------------------------------------------------------
  // The database handle
  // ------------------------------------------------------------------------------------------

  class SqlDb {
    var conn: Conn
    var nOpenTrans: nat

    ghost function Abs(): Db
      reads this
    {
      Db(conn, nOpenTrans)
    }

    constructor (t: Table)
      ensures Abs() == Fresh(t)
    {
      conn, nOpenTrans := Conn(t, None, []), 0;
    }

    /** sqlite3_exec of one statement: the connection changes only when it succeeds. */
    method Exec(result: Option<Conn>) returns (ok: bool)
      modifies this`conn
      ensures ok == result.Some? && conn == if ok then result.value else old(conn)
    {
      ok := result.Some?;
      if ok {
        conn := result.value;
      }
    }

    /** sql_begin */
    method SqlBegin(iLevel: nat) returns (ok: bool)
      modifies this
      ensures (Abs(), ok) == Impl(old(Abs()), Begin(iLevel))
    {
      if iLevel == 0 {
        return true;
      }
      if nOpenTrans == 0 {
        ok := Exec(ExecBegin(conn));
        if !ok {
          return;
        }
        nOpenTrans := 1;
      }
      ghost var start := conn;
      var i := nOpenTrans;
      while i < iLevel
        invariant SetPoints(conn, i, iLevel) == SetPoints(start, nOpenTrans, iLevel)
        invariant old(nOpenTrans) == 0 ==> nOpenTrans == 1
        invariant old(nOpenTrans) > 0 ==> nOpenTrans == old(nOpenTrans)
      {
        conn := ExecSavepoint(conn, i);
        i := i + 1;
      }
      nOpenTrans := iLevel;
      return true;
    }

    /** sql_commit */
    method SqlCommit(iLevel: nat) returns (ok: bool)
      modifies this
      ensures (Abs(), ok) == Impl(old(Abs()), Commit(iLevel))
    {
      if nOpenTrans >= 1 && iLevel == 0 {
        ok := Exec(ExecCommit(conn));
        if !ok {
          return;
        }
        nOpenTrans := 0;
      }
      if nOpenTrans > iLevel {
        ok := Exec(ExecRelease(conn, iLevel));
        if !ok {
          return;
        }
      }
      nOpenTrans := iLevel;
      return true;
    }

    /** sql_rollback */
    method SqlRollback(iLevel: nat) returns (ok: bool)
      modifies this
      ensures (Abs(), ok) == Impl(old(Abs()), Rollback(iLevel))
    {
      if nOpenTrans >= 1 && iLevel == 0 {
        ok := Exec(ExecRollback(conn));
      } else if nOpenTrans > 1 && iLevel == 1 {
        ok := Exec(ExecRollbackTo(conn, 1));
        if ok {
          ok := Exec(ExecRelease(conn, 1));
        }
      } else {
        ok := Exec(ExecRollbackTo(conn, iLevel - 1));
      }
      if ok {
        nOpenTrans := iLevel;
      }
    }
  }
}
