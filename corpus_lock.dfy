/**
 * The corpus lock of the agent-coordination scripts (scripts/corpus-lock.js):
 * a directory of lock files, one per holder, with reader/writer admission
 * rules, stale-lock reaping and release. The directory is a map from lock
 * id to the file's content; clock readings and the random part of lock ids
 * are parameters.
 */
module CorpusLock {
  import opened Wrappers
  import opened Text

  /** `static lockTimeout = 30000` (milliseconds). */
  const LockTimeout: int := 30000

  const ExclusiveTimeoutMessage := "Timeout waiting for exclusive corpus access"
  const WriteTimeoutMessage := "Timeout waiting for write locks to clear"

  /** The JSON body of a lock file. */
  datatype LockRecord = LockRecord(agent: string, mode: string, timestamp: int, pid: int, lockId: string)

  /** A lock file either parses as a record or is ignored by `getActiveLocks`. */
  datatype LockFile = Parsed(rec: LockRecord) | Unparseable

  type Table = map<string, LockFile>

  /** `getActiveLocks`: the records of the files that parse. */
  function ActiveLocks(files: Table): set<LockRecord> {
    set k | k in files && files[k].Parsed? :: files[k].rec
  }

  /** What a waiting request is waiting for. */
  datatype Condition =
    | NoLocks    // `waitForExclusiveAccess`: no active lock at all
    | NoWriters  // `waitForWriteLocksToClean`: no active lock in mode 'write'

  predicate IsClear(files: Table, cond: Condition) {
    match cond
    case NoLocks => forall k :: k in files ==> files[k].Unparseable?
    case NoWriters => forall k :: k in files && files[k].Parsed? ==> files[k].rec.mode != "write"
  }

  lemma IsClearMeansNoActiveLocks(files: Table)
    ensures IsClear(files, NoLocks) <==> ActiveLocks(files) == {}
    ensures IsClear(files, NoWriters) <==> forall l :: l in ActiveLocks(files) ==> l.mode != "write"
  {
    if !IsClear(files, NoLocks) {
      var k :| k in files && files[k].Parsed?;
      assert files[k].rec in ActiveLocks(files);
    }
    if !IsClear(files, NoWriters) {
      var k :| k in files && files[k].Parsed? && files[k].rec.mode == "write";
      assert files[k].rec in ActiveLocks(files);
    }
  }

  /** Files that fail to parse never affect admission. */
  lemma UnparseableIgnored(files: Table, k: string, cond: Condition)
    ensures IsClear(files[k := Unparseable], cond) <==> IsClear(files - {k}, cond)
  {
    var with := files[k := Unparseable];
    var without := files - {k};
    assert forall j :: j in without <==> j in with && j != k;
    assert forall j :: j in without ==> without[j] == with[j];
  }

  predicate IsStale(f: LockFile, now: int) {
    f.Parsed? && now - f.rec.timestamp > LockTimeout
  }

  /** `cleanStaleLocks`: drops the parsed records older than the timeout. */
  function Reap(files: Table, now: int): (r: Table)
    ensures forall k :: k in r <==> k in files && !IsStale(files[k], now)
    ensures forall k :: k in r ==> r[k] == files[k]
  {
    map k | k in files && !IsStale(files[k], now) :: files[k]
  }

  /** The timeout comparison is strict: a record exactly `LockTimeout` old survives. */
  lemma ReapBoundary(files: Table, k: string, now: int)
    requires k in files && files[k].Parsed? && now - files[k].rec.timestamp == LockTimeout
    ensures k in Reap(files, now)
  {
  }

  /** `r` is `files` with some entries removed and none changed. */
  predicate SubTable(r: Table, files: Table) {
    forall k :: k in r ==> k in files && r[k] == files[k]
  }

  /** The two clock readings of one polling round: the loop test, then the one inside `cleanStaleLocks`. */
  datatype Tick = Tick(test: int, cleanup: int)

  /**
   * The polling loop of both wait methods: give up once a loop test finds
   * the timeout elapsed since `start`; succeed when the condition holds;
   * otherwise reap stale records and poll again.
   */
  function Wait(files: Table, cond: Condition, start: int, ticks: seq<Tick>): (r: (bool, Table))
    ensures r.0 ==> IsClear(r.1, cond)
    ensures SubTable(r.1, files)
    decreases |ticks|
  {
    if ticks == [] || ticks[0].test - start >= LockTimeout then (false, files)
    else if IsClear(files, cond) then (true, files)
    else Wait(Reap(files, ticks[0].cleanup), cond, start, ticks[1..])
  }

  /** The clock passes the deadline by the last reading, so the loop ends within `ticks`. */
  predicate EndsBy(start: int, ticks: seq<Tick>) {
    ticks != [] && ticks[|ticks| - 1].test - start >= LockTimeout
  }

  /** `${agentName}-${Date.now()}-${random}`. */
  function LockId(agent: string, now: int, nonce: string): string {
    agent + "-" + IntToString(now) + "-" + nonce
  }

  /**
   * `acquire` on a table: a 'write' request waits for no active lock, a
   * 'read' request for no writer, any other mode string does not wait. On
   * success one record, stamped with the time of the request, is added.
   */
  function AcquireSpec(files: Table, agent: string, mode: string, now: int, pid: int,
                       nonce: string, ticks: seq<Tick>): (Result<string>, Table)
  {
    var lockId := LockId(agent, now, nonce);
    var entry := Parsed(LockRecord(agent, mode, now, pid, lockId));
    if mode == "write" then
      var (ok, cleaned) := Wait(files, NoLocks, now, ticks);
      if ok then (Ok(lockId), cleaned[lockId := entry]) else (Err(ExclusiveTimeoutMessage), cleaned)
    else if mode == "read" then
      var (ok, cleaned) := Wait(files, NoWriters, now, ticks);
      if ok then (Ok(lockId), cleaned[lockId := entry]) else (Err(WriteTimeoutMessage), cleaned)
    else
      (Ok(lockId), files[lockId := entry])
  }

  // ---------------------------------------------------------------------
  // Properties of the admission rules
  // ---------------------------------------------------------------------

  /** Among the parsed records, a 'write' record is the only one. */
  predicate Exclusion(files: Table) {
    forall k, j :: k in files && j in files && k != j && files[k].Parsed? && files[j].Parsed? ==>
      files[k].rec.mode != "write"
  }

  lemma SubTableKeepsExclusion(r: Table, files: Table)
    requires SubTable(r, files) && Exclusion(files)
    ensures Exclusion(r)
  {
  }

  /** With check and insert as one step, a 'read' or 'write' acquire keeps readers and writers apart. */
  lemma AcquireKeepsExclusion(files: Table, agent: string, mode: string, now: int, pid: int,
                              nonce: string, ticks: seq<Tick>)
    requires Exclusion(files)
    requires mode == "read" || mode == "write"
    ensures Exclusion(AcquireSpec(files, agent, mode, now, pid, nonce, ticks).1)
  {
    var (ok, cleaned) := Wait(files, if mode == "write" then NoLocks else NoWriters, now, ticks);
    SubTableKeepsExclusion(cleaned, files);
  }

  /** Reaping and release only remove records, so they keep the exclusion invariant. */
  lemma RemovalKeepsExclusion(files: Table, now: int, lockId: string)
    requires Exclusion(files)
    ensures Exclusion(Reap(files, now))
    ensures Exclusion(files - {lockId})
  {
    SubTableKeepsExclusion(Reap(files, now), files);
    SubTableKeepsExclusion(files - {lockId}, files);
  }

  /** A mode other than exactly 'read' or 'write' is admitted next to a writer. */
  lemma OtherModeBreaksExclusion(pid: int, ticks: seq<Tick>)
    ensures var files := map["w" := Parsed(LockRecord("corpus-enricher", "write", 0, 1, "w"))];
            Exclusion(files) &&
            !Exclusion(AcquireSpec(files, "corpus-searcher", "WRITE", 0, pid, "x", ticks).1)
  {
    var files := map["w" := Parsed(LockRecord("corpus-enricher", "write", 0, 1, "w"))];
    var id := LockId("corpus-searcher", 0, "x");
    assert id != "w" by {
      assert |id| > 1;
    }
    var after := AcquireSpec(files, "corpus-searcher", "WRITE", 0, pid, "x", ticks).1;
    assert "w" in after && id in after && after["w"].rec.mode == "write";
  }

  /** Any other mode is inserted at once, without waiting or reaping. */
  lemma OtherModeNoWait(files: Table, agent: string, mode: string, now: int, pid: int,
                        nonce: string, ticks: seq<Tick>)
    requires mode != "read" && mode != "write"
    ensures AcquireSpec(files, agent, mode, now, pid, nonce, ticks) ==
            (Ok(LockId(agent, now, nonce)),
             files[LockId(agent, now, nonce) := Parsed(LockRecord(agent, mode, now, pid, LockId(agent, now, nonce)))])
  {
  }

  /** Success adds exactly the new record to what the wait left; a timeout adds nothing. */
  lemma AcquireOutcome(files: Table, agent: string, mode: string, now: int, pid: int,
                       nonce: string, ticks: seq<Tick>)
    ensures var (r, after) := AcquireSpec(files, agent, mode, now, pid, nonce, ticks);
            var id := LockId(agent, now, nonce);
            (r.Ok? ==> r.value == id && id in after &&
                       after[id] == Parsed(LockRecord(agent, mode, now, pid, id)) &&
                       SubTable(after - {id}, files)) &&
            (r.Err? ==> SubTable(after, files) &&
                        (mode == "write" ==> r.message == ExclusiveTimeoutMessage) &&
                        (mode == "read" ==> r.message == WriteTimeoutMessage) &&
                        (mode == "read" || mode == "write"))
  {
  }

  /** An admitted writer is the only active lock; an admitted reader sees no writer. */
  lemma AdmissionRules(files: Table, agent: string, mode: string, now: int, pid: int,
                       nonce: string, ticks: seq<Tick>)
    ensures var (r, after) := AcquireSpec(files, agent, mode, now, pid, nonce, ticks);
            var id := LockId(agent, now, nonce);
            (r.Ok? && mode == "write" ==> forall k :: k in after && k != id ==> after[k].Unparseable?) &&
            (r.Ok? && mode == "read" ==> forall k :: k in after && after[k].Parsed? ==> after[k].rec.mode != "write")
  {
  }

  /**
   * A writer whose record stays fresh at every cleanup reading keeps every
   * reader waiting until the deadline.
   */
  lemma {:induction false} LiveWriterBlocksReaders(files: Table, k: string, start: int, ticks: seq<Tick>)
    requires k in files && files[k].Parsed? && files[k].rec.mode == "write"
    requires forall i :: 0 <= i < |ticks| ==> ticks[i].cleanup - files[k].rec.timestamp <= LockTimeout
    ensures !Wait(files, NoWriters, start, ticks).0
    decreases |ticks|
  {
    if ticks != [] && ticks[0].test - start < LockTimeout {
      var cleaned := Reap(files, ticks[0].cleanup);
      assert k in cleaned;
      LiveWriterBlocksReaders(cleaned, k, start, ticks[1..]);
    }
  }

  // ---------------------------------------------------------------------
  // The lock directory
  // ---------------------------------------------------------------------

  class LockTable {
    /** The `.lock` files of the lock directory, by lock id. */
    var files: Table

    constructor()
      ensures files == map[]
    {
      files := map[];
    }

    /** `cleanStaleLocks`: unlinks each stale record found in one listing. */
    method CleanStaleLocks(now: int)
      modifies this
      ensures files == Reap(old(files), now)
    {
      var pending := files.Keys;
      ghost var start := files;
      while pending != {}
        invariant pending <= start.Keys
        invariant forall k :: k in files <==> k in start && (k in pending || !IsStale(start[k], now))
        invariant forall k :: k in files ==> files[k] == start[k]
        decreases pending
      {
        var k :| k in pending;
        if IsStale(files[k], now) {
          files := files - {k};
        }
        pending := pending - {k};
      }
    }

    /** The loop shared by the two wait methods. */
    method PollUntilClear(cond: Condition, start: int, ticks: seq<Tick>) returns (ok: bool)
      requires EndsBy(start, ticks)
      modifies this
      ensures (ok, files) == Wait(old(files), cond, start, ticks)
    {
      var i := 0;
      while ticks[i].test - start < LockTimeout
        invariant 0 <= i < |ticks|
        invariant Wait(old(files), cond, start, ticks) == Wait(files, cond, start, ticks[i..])
        decreases |ticks| - i
      {
        assert ticks[i..][1..] == ticks[i + 1..];
        if IsClear(files, cond) {
          return true;
        }
        CleanStaleLocks(ticks[i].cleanup);
        i := i + 1;
      }
      return false;
    }

    /** `waitForExclusiveAccess`. */
    method WaitForExclusiveAccess(start: int, ticks: seq<Tick>) returns (r: Result<()>)
      requires EndsBy(start, ticks)
      modifies this
      ensures r.Ok? == Wait(old(files), NoLocks, start, ticks).0
      ensures files == Wait(old(files), NoLocks, start, ticks).1
      ensures r.Err? ==> r.message == ExclusiveTimeoutMessage
    {
      var ok := PollUntilClear(NoLocks, start, ticks);
      r := if ok then Ok(()) else Err(ExclusiveTimeoutMessage);
    }

    /** `waitForWriteLocksToClean`. */
    method WaitForWriteLocksToClean(start: int, ticks: seq<Tick>) returns (r: Result<()>)
      requires EndsBy(start, ticks)
      modifies this
      ensures r.Ok? == Wait(old(files), NoWriters, start, ticks).0
      ensures files == Wait(old(files), NoWriters, start, ticks).1
      ensures r.Err? ==> r.message == WriteTimeoutMessage
    {
      var ok := PollUntilClear(NoWriters, start, ticks);
      r := if ok then Ok(()) else Err(WriteTimeoutMessage);
    }

    /** `acquire`: on success the result is the lock id its release handle removes. */
    method Acquire(agent: string, mode: string, now: int, pid: int, nonce: string, ticks: seq<Tick>)
      returns (r: Result<string>)
      requires mode == "read" || mode == "write" ==> EndsBy(now, ticks)
      modifies this
      ensures (r, files) == AcquireSpec(old(files), agent, mode, now, pid, nonce, ticks)
    {
      var lockId := LockId(agent, now, nonce);
      var lockData := LockRecord(agent, mode, now, pid, lockId);
      if mode == "write" {
        var waited := WaitForExclusiveAccess(now, ticks);
        if waited.Err? {
          return Err(waited.message);
        }
      }
      if mode == "read" {
        var waited := WaitForWriteLocksToClean(now, ticks);
        if waited.Err? {
          return Err(waited.message);
        }
      }
      files := files[lockId := Parsed(lockData)];
      r := Ok(lockId);
    }

    /** The release closure: unlinks its own file; a second call only warns. */
    method Release(lockId: string) returns (released: bool)
      modifies this
      ensures files == old(files) - {lockId}
      ensures released <==> lockId in old(files)
    {
      released := lockId in files;
      files := files - {lockId};
    }

    /** `forceCleanup`: unlinks every lock file. */
    method ForceCleanup()
      modifies this
      ensures files == map[]
    {
      files := map[];
    }
  }
}
