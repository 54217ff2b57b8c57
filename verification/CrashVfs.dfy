/**
 The crash-simulating file system: a database file and a log file, a countdown of syncs until the
 power fails, and a flag that ends all access.
 */
module CrashVfs {
  import opened Options
  import opened CrashFiles

  datatype Vfs = Vfs(sz: nat, files: seq<Tracked>, crashed: bool, prepared: bool, nAutoCrash: nat)

  datatype Event =
    | Prepare
    | PrepareSync(iSync: nat)
    | WriteFile(f: nat, off: nat, data: seq<Byte>)
    | SyncFile(f: nat, rng: Prng)
    | TruncateFile(f: nat, size: nat)
    | ApplicationCrash
    | SystemCrash(rng: Prng)

  datatype Status = OK | IOERR

  /** Crash testing starts to follow a file. */
  function Track(t: Tracked): Tracked {
    t.(synced := t.file, touched := {})
  }

  function Prepared(s: Vfs): Vfs
    requires |s.files| == 2
  {
    if s.prepared then s else s.(prepared := true, files := [Track(s.files[0]), Track(s.files[1])])
  }

  /** Before that only the file itself changes. */
  function Unfollowed(t: Tracked, off: nat, data: seq<Byte>): Tracked {
    t.(file := WriteAt(t.file, off, data))
  }

  /** ftruncate */
  function Truncate(f: File, size: nat): (f': File)
    ensures forall k: nat {:trigger ByteAt(f', k)} :: ByteAt(f', k) == if k < size then ByteAt(f, k) else 0
  {
    if size <= |f| then f[..size] else f + seq(size - |f|, _ => 0)
  }

  function Crashed(t: Tracked, sz: nat, rng: Prng, seed: nat): Tracked {
    t.(file := CrashUpTo(t.file, t.saved, sz, rng, seed, |t.saved|).0, saved := seq(|t.saved|, _ => None))
  }

  function FirstSeed(s: Vfs): nat
    requires |s.files| == 2
  {
    |s.files[0].saved| + |s.files[1].saved|
  }

  function SecondSeed(s: Vfs, rng: Prng): nat
    requires |s.files| == 2
  {
    CrashUpTo(s.files[0].file, s.files[0].saved, s.sz, rng, FirstSeed(s), |s.files[0].saved|).1
  }

  /** doSystemCrash: first the database file, then the log. */
  function SystemCrashed(s: Vfs, rng: Prng): Vfs
    requires |s.files| == 2
  {
    s.(crashed := true,
       files := [Crashed(s.files[0], s.sz, rng, FirstSeed(s)), Crashed(s.files[1], s.sz, rng, SecondSeed(s, rng))])
  }

  predicate Shaped(s: Vfs) {
    |s.files| == 2 && s.sz > 0
  }

  function Next(s: Vfs, e: Event): (s': Vfs)
    requires Shaped(s)
    ensures Shaped(s') && s'.sz == s.sz
  {
    match e
    case Prepare => Prepared(s)
    case PrepareSync(n) => Prepared(s).(nAutoCrash := n)
    case WriteFile(f, off, data) =>
      if s.crashed || f >= 2 then s
      else s.(files := s.files[f := if s.prepared then Write(s.files[f], s.sz, off, data) else Unfollowed(s.files[f], off, data)])
    case SyncFile(f, rng) =>
      if s.crashed || f >= 2 then s
      else if s.nAutoCrash == 1 then SystemCrashed(s.(nAutoCrash := 0), rng)
      else
        var s' := if s.nAutoCrash > 0 then s.(nAutoCrash := s.nAutoCrash - 1) else s;
        if s.prepared then s'.(files := s.files[f := Sync(s.files[f])]) else s'
    case TruncateFile(f, size) =>
      if s.crashed || f >= 2 then s
      else s.(files := s.files[f := s.files[f].(file := Truncate(s.files[f].file, size))])
    case ApplicationCrash => s.(crashed := true)
    case SystemCrash(rng) => SystemCrashed(s, rng)
  }

  // ------------------------------------------------------------------------------------------
  // Truncation
  // ------------------------------------------------------------------------------------------

  /** Whether truncation cuts only zeros and bytes of sectors that are saved already. */
  predicate CutsNothingNew(t: Tracked, sz: nat, size: nat)
    requires sz > 0
  {
    forall p {:trigger t.file[p]} :: size <= p < |t.file| && t.file[p] != 0 ==> HasOld(t.saved, p / sz)
  }

  /** Byte `k` of sector `i` is lost. */
  predicate Lost(f: File, sz: nat, size: nat, i: nat, k: nat) {
    size <= i * sz + k && ByteAt(f, i * sz + k) != 0
  }

  lemma TruncateSector(t: Tracked, sz: nat, size: nat, i: nat)
    requires sz > 0 && SectorOk(t, sz, i)
    ensures SectorOk(t.(file := Truncate(t.file, size)), sz, i) <==>
              HasOld(t.saved, i) || forall k {:trigger Lost(t.file, sz, size, i, k)} :: 0 <= k < sz ==> !Lost(t.file, sz, size, i, k)
  {
    var f' := Truncate(t.file, size);
    assert forall k {:trigger Lost(t.file, sz, size, i, k)} :: 0 <= k < sz ==>
             (Sector(f', sz, i)[k] == Sector(t.file, sz, i)[k] <==> !Lost(t.file, sz, size, i, k));
    if Sector(f', sz, i) != Sector(t.file, sz, i) {
      var k :| 0 <= k < sz && Sector(f', sz, i)[k] != Sector(t.file, sz, i)[k];
      assert Lost(t.file, sz, size, i, k);
    }
  }

  lemma LostAt(f: File, sz: nat, size: nat, p: nat)
    requires sz > 0 && size <= p < |f| && f[p] != 0
    ensures p % sz < sz && Lost(f, sz, size, p / sz, p % sz)
  {
    assert p == p / sz * sz + p % sz;
  }

  lemma LostIsNew(t: Tracked, sz: nat, size: nat, i: nat, k: nat)
    requires k < sz && CutsNothingNew(t, sz, size) && Lost(t.file, sz, size, i, k)
    ensures HasOld(t.saved, i)
  {
    DivUnique(i * sz + k, sz, i, k);
    assert t.file[i * sz + k] != 0;
  }

  lemma TruncateBreaks(t: Tracked, sz: nat, size: nat)
    requires sz > 0 && Ok(t, sz) && Ok(t.(file := Truncate(t.file, size)), sz)
    ensures CutsNothingNew(t, sz, size)
  {
    forall p | size <= p < |t.file| && t.file[p] != 0
      ensures HasOld(t.saved, p / sz)
    {
      assert SectorOk(t, sz, p / sz) && SectorOk(t.(file := Truncate(t.file, size)), sz, p / sz);
      TruncateSector(t, sz, size, p / sz);
      LostAt(t.file, sz, size, p);
    }
  }

  /** Tracking survives a truncation exactly when it cuts nothing that is not saved. */
  lemma TruncateOk(t: Tracked, sz: nat, size: nat)
    requires sz > 0 && Ok(t, sz)
    ensures Ok(t.(file := Truncate(t.file, size)), sz) <==> CutsNothingNew(t, sz, size)
  {
    var t' := t.(file := Truncate(t.file, size));
    if Ok(t', sz) {
      TruncateBreaks(t, sz, size);
    }
    if CutsNothingNew(t, sz, size) {
      forall i: nat
        ensures SectorOk(t', sz, i)
      {
        assert SectorOk(t, sz, i);
        TruncateSector(t, sz, size, i);
        forall k | 0 <= k < sz && Lost(t.file, sz, size, i, k)
          ensures HasOld(t.saved, i)
        {
          LostIsNew(t, sz, size, i, k);
        }
      }
    }
  }

  // ------------------------------------------------------------------------------------------
  // Every run
  // ------------------------------------------------------------------------------------------

  /** Nothing is saved before crash testing begins, and every file is tracked well until the crash. */
  ghost predicate Inv(s: Vfs) {
    && Shaped(s)
    && (!s.prepared ==> forall f, i: nat {:trigger HasOld(s.files[f].saved, i)} :: 0 <= f < 2 ==> !HasOld(s.files[f].saved, i))
    && (s.prepared && !s.crashed ==> Ok(s.files[0], s.sz) && Ok(s.files[1], s.sz))
  }

  /** Truncation is not tracked, so between the preparation and a crash it must be harmless. */
  predicate Allowed(s: Vfs, e: Event)
    requires Shaped(s)
  {
    e.TruncateFile? && e.f < 2 && s.prepared && !s.crashed ==> CutsNothingNew(s.files[e.f], s.sz, e.size)
  }

  lemma TrackOk(t: Tracked, sz: nat)
    requires forall i: nat {:trigger HasOld(t.saved, i)} :: !HasOld(t.saved, i)
    ensures Ok(Track(t), sz)
  {
  }

  lemma PreparedInv(s: Vfs)
    requires Inv(s)
    ensures Inv(Prepared(s))
  {
    if !s.prepared {
      TrackOk(s.files[0], s.sz);
      TrackOk(s.files[1], s.sz);
    }
  }

  lemma NextInv(s: Vfs, e: Event)
    requires Inv(s) && Allowed(s, e)
    ensures Inv(Next(s, e))
  {
    match e
    case Prepare => PreparedInv(s);
    case PrepareSync(_) => PreparedInv(s);
    case WriteFile(f, off, data) =>
      if f < 2 && s.prepared && !s.crashed {
        WriteOk(s.files[f], s.sz, off, data);
      }
    case SyncFile(f, _) =>
      if f < 2 {
        SyncOk(s.files[f], s.sz);
      }
    case TruncateFile(f, size) =>
      if f < 2 && s.prepared && !s.crashed {
        TruncateOk(s.files[f], s.sz, size);
      }
    case _ =>
  }

  function Run(s: Vfs, events: seq<Event>, n: nat): (s': Vfs)
    requires Shaped(s) && n <= |events|
    ensures Shaped(s') && s'.sz == s.sz
  {
    if n == 0 then s else Next(Run(s, events, n - 1), events[n - 1])
  }

  predicate AllAllowed(s: Vfs, events: seq<Event>, n: nat)
    requires Shaped(s) && n <= |events|
  {
    n > 0 ==> AllAllowed(s, events, n - 1) && Allowed(Run(s, events, n - 1), events[n - 1])
  }

  function Opened(sz: nat, db: File, log: File): Vfs {
    Vfs(sz, [Tracked(db, [], [], {}), Tracked(log, [], [], {})], false, false, 0)
  }

  lemma {:induction false} RunInv(sz: nat, db: File, log: File, events: seq<Event>, n: nat)
    requires sz > 0 && n <= |events| && AllAllowed(Opened(sz, db, log), events, n)
    ensures Inv(Run(Opened(sz, db, log), events, n))
  {
    if n > 0 {
      RunInv(sz, db, log, events, n - 1);
      NextInv(Run(Opened(sz, db, log), events, n - 1), events[n - 1]);
    }
  }

  /** The power fails. */
  predicate Fails(s: Vfs, e: Event) {
    !s.crashed && s.prepared && (e.SystemCrash? || (e.SyncFile? && e.f < 2 && s.nAutoCrash == 1))
  }

  ghost predicate NewOldOrGarbage(t: Tracked, sz: nat, rng: Prng, f': File, i: nat) {
    || Sector(f', sz, i) == Sector(t.file, sz, i)
    || Sector(f', sz, i) == Sector(t.synced, sz, i)
    || exists seed {:trigger Garbage(rng, seed, Sector(t.synced, sz, i))} :: Sector(f', sz, i) == Garbage(rng, seed, Sector(t.synced, sz, i))
  }

  ghost predicate Survives(t: Tracked, sz: nat, rng: Prng, f': File, i: nat) {
    NewOldOrGarbage(t, sz, rng, f', i) && (i !in t.touched ==> Sector(f', sz, i) == Sector(t.synced, sz, i))
  }

  lemma FailureOutcome(s: Vfs, rng: Prng, f: nat, i: nat)
    requires Inv(s) && s.prepared && !s.crashed && f < 2
    ensures Survives(s.files[f], s.sz, rng, SystemCrashed(s, rng).files[f].file, i)
    ensures Survives(s.files[f], s.sz, rng, SystemCrashed(s.(nAutoCrash := 0), rng).files[f].file, i)
  {
    if f == 0 {
      CrashTheorem(s.files[0], s.sz, rng, FirstSeed(s), i);
    } else {
      CrashTheorem(s.files[1], s.sz, rng, SecondSeed(s, rng), i);
    }
  }

  /** In every run whose truncations are harmless, when the power fails each sector of each file comes
      out as written, as last synced or as garbage; sectors that were not touched since the last sync
      of their file are intact. */
  lemma PowerFailure(sz: nat, db: File, log: File, events: seq<Event>, n: nat, f: nat, i: nat)
    requires sz > 0 && n < |events| && AllAllowed(Opened(sz, db, log), events, n) && f < 2
    requires Fails(Run(Opened(sz, db, log), events, n), events[n])
    ensures var s, s' := Run(Opened(sz, db, log), events, n), Run(Opened(sz, db, log), events, n + 1);
            s'.crashed && Survives(s.files[f], sz, events[n].rng, s'.files[f].file, i)
  {
    var s := Run(Opened(sz, db, log), events, n);
    RunInv(sz, db, log, events, n);
    FailureOutcome(s, events[n].rng, f, i);
  }

  predicate UserCall(e: Event) {
    e.WriteFile? || e.SyncFile? || e.TruncateFile?
  }

  /** After a crash no write, sync or truncation changes anything. */
  lemma {:induction false} CrashedIsFrozen(s: Vfs, events: seq<Event>, n: nat)
    requires Shaped(s) && s.crashed && n <= |events| && forall e :: e in events ==> UserCall(e)
    ensures Run(s, events, n) == s
  {
    if n > 0 {
      CrashedIsFrozen(s, events, n - 1);
      assert events[n - 1] in events;
    }
  }

  /** A truncation between preparation and crash loses an untouched sector for good. */
  lemma TruncationIsLost(rng: Prng)
    ensures var s := Run(Opened(1, [7], []), [Prepare, TruncateFile(0, 0), SystemCrash(rng)], 3);
            && 0 !in s.files[0].touched
            && Sector(s.files[0].synced, 1, 0) == [7]
            && Sector(s.files[0].file, 1, 0) == [0]
  {
    var events := [Prepare, TruncateFile(0, 0), SystemCrash(rng)];
    var s0 := Opened(1, [7], []);
    assert Run(s0, events, 1) == Prepared(s0);
    assert Run(s0, events, 2) == Next(Prepared(s0), TruncateFile(0, 0));
    assert Run(s0, events, 3) == SystemCrashed(Run(s0, events, 2), rng);
    assert Run(s0, events, 3).files[0].file == [];
    assert Sector([], 1, 0)[0] == ByteAt([], 0) && Sector([7], 1, 0)[0] == ByteAt([7], 0);
  }

  // ------------------------------------------------------------------------------------------
  // The file methods
  // ------------------------------------------------------------------------------------------

  /** The files and the sector arrays that the file methods share. */
  class TestVfs {
    const szSector: nat
    var file: seq<File>
    var aSector: seq<Saved>
    var bCrashed: bool
    var bPrepareCrash: bool
    var nAutoCrash: nat
    ghost var synced: seq<File>
    ghost var touched: seq<set<nat>>

    ghost predicate Valid()
      reads this
    {
      szSector > 0 && |file| == |aSector| == |synced| == |touched| == 2
    }

    ghost function FileAbs(f: nat): Tracked
      requires Valid() && f < 2
      reads this
    {
      Tracked(file[f], aSector[f], synced[f], touched[f])
    }

    ghost function Abs(): Vfs
      requires Valid()
      reads this
    {
      Vfs(szSector, [FileAbs(0), FileAbs(1)], bCrashed, bPrepareCrash, nAutoCrash)
    }

    constructor (szSector: nat, db: File, log: File)
      requires szSector > 0
      ensures Valid() && Abs() == Opened(szSector, db, log)
    {
      this.szSector := szSector;
      file, aSector := [db, log], [[], []];
      bCrashed, bPrepareCrash, nAutoCrash := false, false, 0;
      synced, touched := [[], []], [{}, {}];
    }

    /** tdb_lsm_prepare_sync_crash */
    method PrepareSyncCrash(iSync: nat)
      requires Valid() && iSync > 0
      modifies this
      ensures Valid() && Abs() == Next(old(Abs()), PrepareSync(iSync))
    {
      if !bPrepareCrash {
        synced, touched := file, [{}, {}];
      }
      nAutoCrash := iSync;
      bPrepareCrash := true;
    }

    /** The sectors that a write is about to change. */
    method SaveSectors(f: nat, off: nat, n: nat)
      requires Valid() && f < 2
      modifies this`aSector
      ensures Valid()
      ensures var first, last := FirstSector(szSector, off), LastSector(szSector, off, n);
              var saved := Grown(old(aSector[f]), last);
              aSector == old(aSector)[f := if first <= last then SaveUpTo(file[f], saved, szSector, first, last + 1) else saved]
    {
      var first, last := FirstSector(szSector, off), LastSector(szSector, off, n);
      var a := aSector[f];
      if |a| < last + 1 {
        a := a + seq(NewSize(last) - |a|, _ => None);
      }
      ghost var grown := a;
      var i := first;
      while i <= last
        invariant first <= i && |a| == |grown| && (first <= last ==> i <= last + 1)
        invariant first <= last ==> a == SaveUpTo(file[f], grown, szSector, first, i)
        invariant first > last ==> a == grown
      {
        if a[i].None? {
          a := a[i := Some(Sector(file[f], szSector, i))];
        }
        i := i + 1;
      }
      aSector := aSector[f := a];
    }

    /** testEnvWrite */
    method WriteData(f: nat, off: nat, data: seq<Byte>) returns (rc: Status)
      requires Valid() && f < 2
      modifies this
      ensures Valid() && Abs() == Next(old(Abs()), WriteFile(f, off, data)) && rc == if old(bCrashed) then IOERR else OK
    {
      if bCrashed {
        return IOERR;
      }
      ghost var before := FileAbs(f);
      if bPrepareCrash {
        SaveSectors(f, off, |data|);
        touched := touched[f := touched[f] + Touch(FirstSector(szSector, off), LastSector(szSector, off, |data|))];
      }
      file := file[f := WriteAt(file[f], off, data)];
      assert FileAbs(f) == if bPrepareCrash then Write(before, szSector, off, data) else Unfollowed(before, off, data);
      return OK;
    }

    /** testEnvTruncate */
    method TruncateData(f: nat, size: nat) returns (rc: Status)
      requires Valid() && f < 2
      modifies this
      ensures Valid() && Abs() == Next(old(Abs()), TruncateFile(f, size)) && rc == if old(bCrashed) then IOERR else OK
    {
      if bCrashed {
        return IOERR;
      }
      file := file[f := Truncate(file[f], size)];
      return OK;
    }

    /** The fate of one saved sector. */
    method CrashOne(g: File, i: nat, aOld: seq<Byte>, rng: Prng, seed: nat) returns (g': File, seed': nat)
      ensures (g', seed') == CrashSector(g, szSector, i, aOld, rng, seed)
    {
      var iOpt := rng.value(seed) % 3;
      g', seed' := g, seed + 1;
      var data := aOld;
      if iOpt == 1 {
        data := Garbage(rng, seed', aOld);
        seed' := seed' + 1;
      }
      if iOpt != 0 {
        g' := WriteAt(g, i * szSector, data);
      }
    }

    /** The loop over the sectors of one file; each saved sector is released. */
    method CrashSectors(f: File, saved: Saved, rng: Prng, seed: nat) returns (g: File, a: Saved, seed': nat)
      ensures (g, seed') == CrashUpTo(f, saved, szSector, rng, seed, |saved|)
      ensures a == seq(|saved|, _ => None)
    {
      g, a, seed' := f, saved, seed;
      var i := 0;
      while i < |a|
        invariant 0 <= i <= |a| == |saved|
        invariant forall j :: 0 <= j < i ==> a[j].None?
        invariant forall j :: i <= j < |a| ==> a[j] == saved[j]
        invariant (g, seed') == CrashUpTo(f, saved, szSector, rng, seed, i)
      {
        if a[i].Some? {
          g, seed' := CrashOne(g, i, a[i].value, rng, seed');
          a := a[i := None];
        }
        i := i + 1;
      }
    }

    method CrashFile(f: nat, rng: Prng, seed: nat) returns (seed': nat)
      requires Valid() && f < 2
      modifies this`file, this`aSector
      ensures Valid()
      ensures var r := CrashUpTo(old(file[f]), old(aSector[f]), szSector, rng, seed, |old(aSector[f])|);
              file == old(file)[f := r.0] && seed' == r.1
      ensures aSector == old(aSector)[f := seq(|old(aSector[f])|, _ => None)]
    {
      var g, a;
      g, a, seed' := CrashSectors(file[f], aSector[f], rng, seed);
      file := file[f := g];
      aSector := aSector[f := a];
    }

    /** doSystemCrash */
    method DoSystemCrash(rng: Prng)
      requires Valid()
      modifies this
      ensures Valid() && Abs() == SystemCrashed(old(Abs()), rng)
    {
      var iSeed := |aSector[0]| + |aSector[1]|;
      iSeed := CrashFile(0, rng, iSeed);
      iSeed := CrashFile(1, rng, iSeed);
      bCrashed := true;
    }

    /** tdb_lsm_system_crash */
    method CrashNow(rng: Prng)
      requires Valid()
      modifies this
      ensures Valid() && Abs() == Next(old(Abs()), SystemCrash(rng))
    {
      bCrashed := true;
      DoSystemCrash(rng);
    }

    /** testEnvSync */
    method SyncData(f: nat, rng: Prng) returns (rc: Status)
      requires Valid() && f < 2
      modifies this
      ensures Valid() && Abs() == Next(old(Abs()), SyncFile(f, rng)) && rc == if bCrashed then IOERR else OK
    {
      if bCrashed {
        return IOERR;
      }
      if nAutoCrash > 0 {
        nAutoCrash := nAutoCrash - 1;
        if nAutoCrash == 0 {
          DoSystemCrash(rng);
          return IOERR;
        }
      }
      if bPrepareCrash {
        ForgetSectors(f);
        synced, touched := synced[f := file[f]], touched[f := {}];
      }
      return OK;
    }

    /** After a sync nothing is unsynced. */
    method ForgetSectors(f: nat)
      requires Valid() && f < 2
      modifies this`aSector
      ensures Valid() && aSector == old(aSector)[f := seq(|old(aSector[f])|, _ => None)]
    {
      var a := aSector[f];
      for i := 0 to |a|
        invariant |a| == |aSector[f]|
        invariant forall j :: 0 <= j < i ==> a[j].None?
      {
        a := a[i := None];
      }
      assert a == seq(|aSector[f]|, _ => None);
      aSector := aSector[f := a];
    }
  }
}
