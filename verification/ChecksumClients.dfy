/**
 Many clients on one checksum database: readers work on the snapshot they opened, one writer at a
 time works on its own copy, and any interleaving of their steps may happen.
 */
module ChecksumClients {
  import opened Options
  import opened ChecksumKeys
  import opened KeyOrder
  import opened KeyStore
  import opened ChecksumDb

  datatype Client =
    | Idle
    | Reading(snapshot: Store, seen: nat, key: nat, verified: nat)
    | Writing(working: Store, key: nat, val: string, level: nat)
    | Failed                                   // a checksum did not match

  datatype Write = Write(key: nat, val: string)

  /** `log` lists the writes committed so far. */
  datatype System = System(committed: Store, clients: seq<Client>, writer: Option<nat>, log: seq<Write>)

  /** Steps of client `c`; the loop bodies of the two operations are one step each. */
  datatype Event =
    | BeginRead(c: nat, key: nat)
    | VerifyLevel(c: nat)
    | BeginWrite(c: nat, key: nat, val: string)
    | WriteLevel(c: nat)

  predicate ValidEvent(p: Params, s: System, e: Event) {
    && e.c < |s.clients|
    && (e.BeginRead? || e.BeginWrite? ==> e.key < p.nKey)
  }

  function SetClient(s: System, c: nat, client: Client): System
    requires c < |s.clients|
  {
    s.(clients := s.clients[c := client])
  }

  /** A reader verifies one level after the other and closes its transaction after the top one. */
  function ReadOn(p: Params, r: Client): Client
    requires p.nFanout >= 2 && r.Reading?
  {
    if r.verified >= MaxLevel(p) then Idle
    else if !LevelVerifies(p, r.snapshot, r.verified + 1, r.key) then Failed
    else Reading(r.snapshot, r.seen, r.key, r.verified + 1)
  }

  /** Level 0 writes the pair, the levels above their checksums; then the copy is committed. */
  function WriteStep(p: Params, s: System, c: nat): System
    requires p.nFanout >= 2 && c < |s.clients| && s.clients[c].Writing?
  {
    var w := s.clients[c];
    if w.level > MaxLevel(p) then
      SetClient(s, c, Idle).(committed := w.working, writer := None, log := s.log + [Write(w.key, w.val)])
    else
      var val := if w.level == 0 then w.val else FormatCksum(Compute(p, w.working, w.level, w.key));
      SetClient(s, c, Writing(Put(w.working, FormatKey(p.nFanout, w.level, w.key), val), w.key, w.val, w.level + 1))
  }

  /** A read works on the snapshot it opened. A write transaction is refused (busy) while another is
      open, and the client goes on. */
  function Next(p: Params, s: System, e: Event): System
    requires p.nFanout >= 2 && ValidEvent(p, s, e)
  {
    match e
    case BeginRead(c, key) =>
      if s.clients[c].Idle? then SetClient(s, c, Reading(s.committed, |s.log|, key, 0)) else s
    case VerifyLevel(c) =>
      if s.clients[c].Reading? then SetClient(s, c, ReadOn(p, s.clients[c])) else s
    case BeginWrite(c, key, val) =>
      if s.clients[c].Idle? && s.writer.None? then SetClient(s, c, Writing(s.committed, key, val, 0)).(writer := Some(c)) else s
    case WriteLevel(c) =>
      if s.clients[c].Writing? then WriteStep(p, s, c) else s
  }

  function Initial(n: nat): System {
    System([], seq(n, _ => Idle), None, [])
  }

  predicate ValidRun(p: Params, s: System, events: seq<Event>)
    requires p.nFanout >= 2
    decreases events
  {
    events == [] || (ValidEvent(p, s, events[0]) && ValidRun(p, Next(p, s, events[0]), events[1..]))
  }

  function RunFrom(p: Params, s: System, events: seq<Event>): System
    requires p.nFanout >= 2 && ValidRun(p, s, events)
    decreases events
  {
    if events == [] then s else RunFrom(p, Next(p, s, events[0]), events[1..])
  }

  /** The database after a sequence of writes, one after the other. */
  function Replay(p: Params, log: seq<Write>): Store
    requires p.nFanout >= 2
  {
    if log == [] then []
    else WriteLevels(p, Replay(p, log[..|log| - 1]), log[|log| - 1].key, log[|log| - 1].val, MaxLevel(p))
  }

  // ------------------------------------------------------------------------------------------
  // The invariant
  // ------------------------------------------------------------------------------------------

  /** A writer's copy once the levels below `level` have been written. */
  function Working(p: Params, committed: Store, key: nat, val: string, level: nat): Store
    requires p.nFanout >= 2
  {
    if level == 0 then committed else WriteLevels(p, committed, key, val, level - 1)
  }

  ghost predicate ClientOk(p: Params, s: System, c: nat)
    requires p.nFanout >= 2 && c < |s.clients|
  {
    match s.clients[c]
    case Idle => true
    case Reading(snapshot, seen, key, _) =>
      && key < p.nKey
      && seen <= |s.log|
      && snapshot == Replay(p, s.log[..seen])
      && Consistent(p, snapshot)
    case Writing(working, key, val, level) =>
      && key < p.nKey
      && s.writer == Some(c)
      && level <= MaxLevel(p) + 1
      && working == Working(p, s.committed, key, val, level)
    case Failed => false
  }

  ghost predicate Inv(p: Params, s: System) {
    && ValidParams(p)
    && s.committed == Replay(p, s.log)
    && Consistent(p, s.committed)
    && (s.writer.Some? ==> s.writer.value < |s.clients| && s.clients[s.writer.value].Writing?)
    && forall c {:trigger ClientOk(p, s, c)} :: 0 <= c < |s.clients| ==> ClientOk(p, s, c)
  }

  lemma InitialInv(p: Params, n: nat)
    requires ValidParams(p)
    ensures Inv(p, Initial(n))
  {
    EmptyIsConsistent(p);
  }

  /** Other clients keep their view when only client `c` changes. */
  lemma OthersKeep(p: Params, s: System, s': System, c: nat)
    requires p.nFanout >= 2 && c < |s.clients| == |s'.clients|
    requires forall d {:trigger ClientOk(p, s, d)} :: 0 <= d < |s.clients| ==> ClientOk(p, s, d)
    requires forall d :: 0 <= d < |s.clients| && d != c ==> s'.clients[d] == s.clients[d]
    requires |s.log| <= |s'.log| && s'.log[..|s.log|] == s.log
    requires s.writer.None? || s.writer == Some(c) || (s'.writer == s.writer && s'.committed == s.committed)
    ensures forall d :: 0 <= d < |s.clients| && d != c ==> ClientOk(p, s', d)
  {
    forall d | 0 <= d < |s.clients| && d != c
      ensures ClientOk(p, s', d)
    {
      assert ClientOk(p, s, d);
      if s.clients[d].Reading? {
        assert s'.log[..s.clients[d].seen] == s.log[..s.clients[d].seen];
      }
    }
  }

  /** A reader with a consistent snapshot never fails. */
  lemma ReadOnOk(p: Params, r: Client)
    requires ValidParams(p) && r.Reading? && r.key < p.nKey && Consistent(p, r.snapshot)
    ensures ReadOn(p, r).Idle? || ReadOn(p, r) == Reading(r.snapshot, r.seen, r.key, r.verified + 1)
  {
    if r.verified < MaxLevel(p) {
      ConsistentVerifies(p, r.snapshot, r.verified + 1, r.key);
    }
  }

  /** Where a client stands in its read does not matter to the others or to the database. */
  lemma ReaderMoves(p: Params, s: System, c: nat, client: Client)
    requires Inv(p, s) && c < |s.clients| && s.clients[c].Reading?
    requires client.Idle? || (client.Reading? && client.snapshot == s.clients[c].snapshot &&
                              client.seen == s.clients[c].seen && client.key == s.clients[c].key)
    ensures Inv(p, SetClient(s, c, client))
  {
    assert ClientOk(p, s, c);
    OthersKeep(p, s, SetClient(s, c, client), c);
    assert ClientOk(p, SetClient(s, c, client), c);
  }

  lemma ReadStepInv(p: Params, s: System, c: nat)
    requires Inv(p, s) && c < |s.clients| && s.clients[c].Reading?
    ensures Inv(p, SetClient(s, c, ReadOn(p, s.clients[c])))
  {
    assert ClientOk(p, s, c);
    ReadOnOk(p, s.clients[c]);
    ReaderMoves(p, s, c, ReadOn(p, s.clients[c]));
  }

  lemma ReplayAppend(p: Params, log: seq<Write>, w: Write)
    requires p.nFanout >= 2
    ensures Replay(p, log + [w]) == WriteLevels(p, Replay(p, log), w.key, w.val, MaxLevel(p))
  {
    assert (log + [w])[..|log|] == log;
  }

  /** What a commit publishes is the database after one more write. */
  lemma PublishOk(p: Params, log: seq<Write>, committed: Store, w: Write, level: nat)
    requires ValidParams(p) && committed == Replay(p, log) && Consistent(p, committed) && w.key < p.nKey
    requires level == MaxLevel(p) + 1
    ensures var working := Working(p, committed, w.key, w.val, level);
            working == Replay(p, log + [w]) && Consistent(p, working)
  {
    WriteKeepsHierarchy(p, committed, w.key, w.val);
    ReplayAppend(p, log, w);
  }

  /** A writer that is done leaves, and the database it leaves behind is the replay of a longer log. */
  lemma PublishedInv(p: Params, s: System, s': System, c: nat)
    requires Inv(p, s) && c < |s.clients| && s.clients[c].Writing?
    requires s'.clients == s.clients[c := Idle] && s'.writer.None?
    requires |s.log| <= |s'.log| && s'.log[..|s.log|] == s.log
    requires s'.committed == Replay(p, s'.log) && Consistent(p, s'.committed)
    ensures Inv(p, s')
  {
    assert ClientOk(p, s, c);
    OthersKeep(p, s, s', c);
    assert ClientOk(p, s', c);
  }

  /** What a commit changes. */
  lemma CommitFields(p: Params, s: System, c: nat)
    requires p.nFanout >= 2 && c < |s.clients| && s.clients[c].Writing? && s.clients[c].level > MaxLevel(p)
    ensures var w, s' := s.clients[c], WriteStep(p, s, c);
            && s'.clients == s.clients[c := Idle] && s'.writer.None?
            && s'.log == s.log + [Write(w.key, w.val)] && s'.committed == w.working
  {
  }

  lemma CommitInv(p: Params, s: System, c: nat)
    requires Inv(p, s) && c < |s.clients| && s.clients[c].Writing? && s.clients[c].level > MaxLevel(p)
    ensures Inv(p, WriteStep(p, s, c))
  {
    var w := s.clients[c];
    CommitFields(p, s, c);
    assert w.key < p.nKey && w.level == MaxLevel(p) + 1 && w.working == Working(p, s.committed, w.key, w.val, w.level) by {
      assert ClientOk(p, s, c);
    }
    PublishOk(p, s.log, s.committed, Write(w.key, w.val), w.level);
    PublishedInv(p, s, WriteStep(p, s, c), c);
  }

  lemma WriteLevelInv(p: Params, s: System, c: nat)
    requires Inv(p, s) && c < |s.clients| && s.clients[c].Writing? && s.clients[c].level <= MaxLevel(p)
    ensures Inv(p, WriteStep(p, s, c))
  {
    assert ClientOk(p, s, c);
    var w, s' := s.clients[c], WriteStep(p, s, c);
    assert s'.clients[c].working == WriteLevels(p, s.committed, w.key, w.val, w.level);
    OthersKeep(p, s, s', c);
    assert ClientOk(p, s', c);
  }

  lemma BeginReadInv(p: Params, s: System, c: nat, key: nat)
    requires Inv(p, s) && c < |s.clients| && s.clients[c].Idle? && key < p.nKey
    ensures Inv(p, SetClient(s, c, Reading(s.committed, |s.log|, key, 0)))
  {
    var s' := SetClient(s, c, Reading(s.committed, |s.log|, key, 0));
    OthersKeep(p, s, s', c);
    assert s.log[..|s.log|] == s.log;
    assert ClientOk(p, s', c);
  }

  lemma BeginWriteInv(p: Params, s: System, c: nat, key: nat, val: string)
    requires Inv(p, s) && c < |s.clients| && s.clients[c].Idle? && s.writer.None? && key < p.nKey
    ensures Inv(p, SetClient(s, c, Writing(s.committed, key, val, 0)).(writer := Some(c)))
  {
    var s' := SetClient(s, c, Writing(s.committed, key, val, 0)).(writer := Some(c));
    OthersKeep(p, s, s', c);
    assert ClientOk(p, s', c);
  }

  lemma WriteStepInv(p: Params, s: System, c: nat)
    requires Inv(p, s) && c < |s.clients| && s.clients[c].Writing?
    ensures Inv(p, WriteStep(p, s, c))
  {
    if s.clients[c].level > MaxLevel(p) {
      CommitInv(p, s, c);
    } else {
      WriteLevelInv(p, s, c);
    }
  }

  lemma NextInv(p: Params, s: System, e: Event)
    requires Inv(p, s) && ValidEvent(p, s, e)
    ensures Inv(p, Next(p, s, e)) && |Next(p, s, e).clients| == |s.clients|
  {
    match e
    case BeginRead(c, key) =>
      if s.clients[c].Idle? {
        BeginReadInv(p, s, c, key);
      }
    case VerifyLevel(c) =>
      if s.clients[c].Reading? {
        ReadStepInv(p, s, c);
      }
    case BeginWrite(c, key, val) =>
      if s.clients[c].Idle? && s.writer.None? {
        BeginWriteInv(p, s, c, key, val);
      }
    case WriteLevel(c) =>
      if s.clients[c].Writing? {
        WriteStepInv(p, s, c);
      }
  }

  lemma {:induction false} RunInv(p: Params, s: System, events: seq<Event>)
    requires Inv(p, s) && ValidRun(p, s, events)
    ensures Inv(p, RunFrom(p, s, events))
    decreases events
  {
    if events != [] {
      NextInv(p, s, events[0]);
      RunInv(p, Next(p, s, events[0]), events[1..]);
    }
  }

  /** In every interleaving no reader ever meets a mismatch, the committed database is the result
      of the committed writes in commit order with every checksum in place, and each open reader
      sees the database as it was after some prefix of those writes. */
  lemma NoReaderFails(p: Params, n: nat, events: seq<Event>, c: nat)
    requires ValidParams(p) && ValidRun(p, Initial(n), events)
    requires c < |RunFrom(p, Initial(n), events).clients|
    ensures var s := RunFrom(p, Initial(n), events);
            && !s.clients[c].Failed?
            && s.committed == Replay(p, s.log)
            && Consistent(p, s.committed)
            && (s.clients[c].Reading? ==>
                  s.clients[c].seen <= |s.log| && s.clients[c].snapshot == Replay(p, s.log[..s.clients[c].seen]))
  {
    InitialInv(p, n);
    RunInv(p, Initial(n), events);
    assert ClientOk(p, RunFrom(p, Initial(n), events), c);
  }

  // ------------------------------------------------------------------------------------------
  // A reader without a transaction
  // ------------------------------------------------------------------------------------------

  /** Writing levels up to j leaves the entries above alone. */
  lemma {:induction false} EntriesAbove(p: Params, db: Store, key: nat, val: string, j: nat, i: nat, k: nat)
    requires ValidParams(p) && key < Pow(p.nFanout, MaxLevel(p)) && k < Pow(p.nFanout, MaxLevel(p))
    requires j < i <= MaxLevel(p)
    ensures Lookup(WriteLevels(p, db, key, val, j), FormatKey(p.nFanout, i, k)) == Lookup(db, FormatKey(p.nFanout, i, k))
  {
    ValidParamsTenDigits(p);
    FormatKeyInjective(p.nFanout, MaxLevel(p), j, key, i, k);
    if j == 0 {
      LookupPut(db, FormatKey(p.nFanout, 0, key), val, FormatKey(p.nFanout, i, k));
    } else {
      var below := WriteLevels(p, db, key, val, j - 1);
      EntriesAbove(p, db, key, val, j - 1, i, k);
      LookupPut(below, FormatKey(p.nFanout, j, key), FormatCksum(Compute(p, below, j, key)), FormatKey(p.nFanout, i, k));
    }
  }

  /** An entry of level j is neither that of a group above level j + 1 nor one of its children. */
  lemma GroupAbovePut(p: Params, db: Store, key: nat, val: string, j: nat, i: nat, k: nat)
    requires ValidParams(p) && key < Pow(p.nFanout, MaxLevel(p)) && k < Pow(p.nFanout, MaxLevel(p))
    requires j + 1 < i <= MaxLevel(p) && GroupOk(p, db, i, k)
    ensures GroupOk(p, Put(db, FormatKey(p.nFanout, j, key), val), i, k)
  {
    ValidParamsTenDigits(p);
    ScanCovers(p.nFanout, MaxLevel(p), i, k, j, key);
    FormatKeyInjective(p.nFanout, MaxLevel(p), j, key, i, k);
    GroupFrame(p, db, FormatKey(p.nFanout, j, key), val, i, k);
  }

  /** So the groups above level j + 1 stay in order. */
  lemma {:induction false} GroupsAbove(p: Params, db: Store, key: nat, val: string, j: nat, i: nat, k: nat)
    requires ValidParams(p) && key < Pow(p.nFanout, MaxLevel(p)) && k < Pow(p.nFanout, MaxLevel(p))
    requires j + 1 < i <= MaxLevel(p) && GroupOk(p, db, i, k)
    ensures GroupOk(p, WriteLevels(p, db, key, val, j), i, k)
  {
    if j == 0 {
      GroupAbovePut(p, db, key, val, 0, i, k);
    } else {
      var below := WriteLevels(p, db, key, val, j - 1);
      GroupsAbove(p, db, key, val, j - 1, i, k);
      GroupAbovePut(p, below, key, FormatCksum(Compute(p, below, j, key)), j, i, k);
    }
  }

  /** All levels of `k` but level j + 1 verify after the writer of `key` has written level j. */
  lemma OtherLevelsVerify(p: Params, db: Store, key: nat, val: string, j: nat, i: nat, k: nat)
    requires ValidParams(p) && Consistent(p, db) && key < p.nKey && k < p.nKey && j < MaxLevel(p)
    requires 0 < i <= MaxLevel(p) && (i == j + 1 ==> !SameGroup(p.nFanout, i, key, k))
    ensures LevelVerifies(p, WriteLevels(p, db, key, val, j), i, k)
  {
    ValidParamsTenDigits(p);
    if i > j + 1 {
      assert GroupOk(p, db, i, k);
      GroupsAbove(p, db, key, val, j, i, k);
    } else {
      WriteLevelsOk(p, db, key, val, j);
    }
    assert GroupOk(p, WriteLevels(p, db, key, val, j), i, k);
  }

  /** Level j + 1 of a key in the same group is compared with the checksum from before the write. */
  lemma DirtyLevel(p: Params, db: Store, key: nat, val: string, j: nat, k: nat)
    requires ValidParams(p) && key < p.nKey && k < p.nKey && j < MaxLevel(p) && SameGroup(p.nFanout, j + 1, key, k)
    ensures var d := WriteLevels(p, db, key, val, j);
            LevelVerifies(p, d, j + 1, k) <==>
            (|| Compute(p, d, j + 1, key) == 0
             || Lookup(db, FormatKey(p.nFanout, j + 1, key)) == Some(FormatCksum(Compute(p, d, j + 1, key))))
  {
    ValidParamsTenDigits(p);
    SameBounds(p.nFanout, j + 1, key, k);
    EntriesAbove(p, db, key, val, j, j + 1, key);
  }

  /** A reader without a transaction, at any stage of a write to any consistent database: it succeeds
      exactly when its key is in another group of the next level, or that group's checksum comes out as
      zero or as the one stored before. */
  lemma DirtyReadIff(p: Params, db: Store, key: nat, val: string, j: nat, k: nat)
    requires ValidParams(p) && Consistent(p, db) && key < p.nKey && k < p.nKey && j < MaxLevel(p)
    ensures var d := WriteLevels(p, db, key, val, j);
            (forall i {:trigger LevelVerifies(p, d, i, k)} :: 0 < i <= MaxLevel(p) ==> LevelVerifies(p, d, i, k)) <==>
            (|| !SameGroup(p.nFanout, j + 1, key, k)
             || Compute(p, d, j + 1, key) == 0
             || Lookup(db, FormatKey(p.nFanout, j + 1, key)) == Some(FormatCksum(Compute(p, d, j + 1, key))))
  {
    var d := WriteLevels(p, db, key, val, j);
    forall i | 0 < i <= MaxLevel(p) && (i == j + 1 ==> !SameGroup(p.nFanout, i, key, k))
      ensures LevelVerifies(p, d, i, k)
    {
      OtherLevelsVerify(p, db, key, val, j, i, k);
    }
    if SameGroup(p.nFanout, j + 1, key, k) {
      DirtyLevel(p, db, key, val, j, k);
      assert LevelVerifies(p, d, j + 1, k) <==> (forall i {:trigger LevelVerifies(p, d, i, k)} :: 0 < i <= MaxLevel(p) ==> LevelVerifies(p, d, i, k));
    }
  }

  /** It does fail: after the first write of a pair to an empty database, unless the pair's checksum
      happens to be zero. */
  lemma DirtyReadFails(p: Params, key: nat, val: string)
    requires ValidParams(p) && key < p.nKey && MaxLevel(p) > 0
    ensures LevelVerifies(p, WriteLevels(p, [], key, val, 0), 1, key) <==> CksumBytes(0, val) == 0
  {
    ValidParamsTenDigits(p);
    var leaf, lo, hi := FormatKey(p.nFanout, 0, key), ScanFirst(p.nFanout, 1, key), ScanLast(p.nFanout, 1, key);
    ScanCovers(p.nFanout, MaxLevel(p), 1, key, 0, key);
    FormatKeyInjective(p.nFanout, MaxLevel(p), 0, key, 1, key);
    OneEntry(leaf, val, lo, hi, FormatKey(p.nFanout, 1, key));
  }

  lemma OneEntry(leaf: string, val: string, lo: string, hi: string, other: string)
    requires Within(leaf, lo, hi) && other != leaf
    ensures Scan(Put([], leaf, val), lo, hi) == [val] && Lookup(Put([], leaf, val), other) == None
    ensures CksumAll(0, [val]) == CksumBytes(0, val)
  {
    var db := Put([], leaf, val);
    assert db == [Entry(leaf, val)] && db[1..] == [];
    assert [val][1..] == [];
  }
}
