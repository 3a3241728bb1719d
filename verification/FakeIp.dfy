/** The fake-IP cache's run state: which address block the next run answers from.
  *
  * The record beside the cache names the block of the latest run and whether that run closed the
  * cache cleanly. Several processes may want the cache; each may die between any two file
  * operations. `n` is the number of address blocks.
  */
module FakeIp {
  import opened Prelude

  /** The record file; `Unreadable` is anything readFakeIPRunState rejects. */
  datatype Record = Absent | Unreadable | Recorded(block: nat, clean: bool)

  /** The cache file: the block it answers from, and whether the runtime saved its allocation
    * position when it last let go of it. */
  datatype Cache = Missing | Held(block: nat, settled: bool)

  datatype Disk = Disk(record: Record, cache: Cache)

  /** How a record write ends: reported done, failed before the rename, or failed after it while
    * syncing the directory. */
  datatype WriteOutcome = Written | NotReplaced | ReplacedUnsynced

  /** The directory is synced, the sync fails, or there is none: on Windows, or if the directory cannot
    * be opened. */
  datatype DirSync = Synced | SyncFailed | Skipped

  /** Which of the file operations of a record write fail. */
  datatype Faults = Faults(create: bool, write: bool, sync: bool, close: bool, rename: bool, dir: DirSync)

  function Outcome(f: Faults): WriteOutcome {
    if f.create || f.write || f.sync || f.close || f.rename then NotReplaced
    else if f.dir.SyncFailed? then ReplacedUnsynced
    else Written
  }

  datatype How = Reused | Advanced | Picked

  /** beginFakeIPRun's decision. */
  datatype Choice = Choice(block: nat, how: How)

  /** readFakeIPRunState: a block out of range is unreadable too. */
  function Read(n: nat, r: Record): Record {
    if r.Recorded? && r.block >= n then Unreadable else r
  }

  function Choose(n: nat, r: Record, pick: nat): Choice
    requires n > 0
  {
    match Read(n, r)
    case Recorded(b, true) => Choice(b, Reused)
    case Recorded(b, false) => Choice((b + 1) % n, Advanced)
    case _ => Choice(pick % n, Picked)
  }

  function WriteRecord(d: Disk, r: Record, o: WriteOutcome): Disk {
    if o.NotReplaced? then d else d.(record := r)
  }

  /** beginFakeIPRun without interruption: the disk it leaves and the block it returns, if any. */
  function Begin(n: nat, d: Disk, pick: nat, removes: bool, write: WriteOutcome): (Disk, Option<nat>)
    requires n > 0
  {
    var choice := Choose(n, d.record, pick);
    var emptied := if choice.how.Reused? then d else d.(cache := Missing);
    if !choice.how.Reused? && !removes then (d, None)
    else
      var took := if write.Written? then Some(choice.block) else None;
      (WriteRecord(emptied, Recorded(choice.block, false), write), took)
  }

  /** An error does not mean that nothing was recorded: it leaves another record exactly when the write
    * got as far as its rename and the directory sync failed. */
  lemma RecordedDespiteErrorIff(n: nat, d: Disk, pick: nat, removes: bool, write: WriteOutcome)
    requires n >= 2
    ensures var (after, took) := Begin(n, d, pick, removes, write);
      took.None? && after.record != d.record <==>
      write.ReplacedUnsynced? && (removes || Choose(n, d.record, pick).how.Reused?)
  {
    var c := Choose(n, d.record, pick);
    if c.how.Advanced? { NextDiffers(n, d.record.block); }
  }

  /** Such a call: a clean record is replaced by an unclean one, and the caller is told of an error. */
  lemma ErrorAfterReplacing(n: nat)
    requires n >= 2
    ensures Begin(n, Disk(Recorded(0, true), Held(0, true)), 0, true, ReplacedUnsynced)
         == (Disk(Recorded(0, false), Held(0, true)), None)
  {
  }

  lemma NextDiffers(n: nat, b: nat)
    requires n >= 2 && b < n
    ensures (b + 1) % n != b
  {
    if b + 1 < n { assert (b + 1) % n == b + 1; }
  }

  /** The cache and its record, as beginFakeIPRun and endFakeIPRun handle them. */
  class RunState {
    const n: nat
    var record: Record
    var cache: Cache
    // What a power loss may leave: the states passed through since the directory was last synced.
    ghost var possible: set<Disk>

    ghost function View(): Disk
      reads this
    {
      Disk(record, cache)
    }

    constructor (n: nat, record: Record, cache: Cache)
      ensures this.n == n && View() == Disk(record, cache) && possible == {View()}
    {
      this.n := n;
      this.record := record;
      this.cache := cache;
      this.possible := {Disk(record, cache)};
    }

    method BeginRun(pick: nat, removes: bool, f: Faults) returns (block: Option<nat>)
      requires n > 0
      modifies this
      ensures (View(), block) == Begin(n, old(View()), pick, removes, Outcome(f))
      ensures block.Some? && f.dir.Synced? ==> possible == {View()}
      ensures forall d :: d in possible ==> d in old(possible) || d == View() || d == Disk(old(record), Missing)
    {
      var prev := Read(n, record);
      if prev.Recorded? && prev.clean {
        var done := WriteState(Recorded(prev.block, false), f);
        return if done then Some(prev.block) else None;
      }
      var next := pick % n;
      if prev.Recorded? {
        next := (prev.block + 1) % n;
      }
      if !removes {
        return None;
      }
      cache := Missing;
      possible := possible + {View()};
      var done := WriteState(Recorded(next, false), f);
      if !done {
        return None;
      }
      return Some(next);
    }

    method EndRun(block: nat, f: Faults) returns (done: bool)
      modifies this`record, this`possible
      ensures View() == WriteRecord(old(View()), Recorded(block, true), Outcome(f))
      ensures done <==> Outcome(f).Written?
      ensures forall d :: d in possible ==> d in old(possible) || d == View()
    {
      done := WriteState(Recorded(block, true), f);
    }

    /** A power loss finds the old record or the new one, never part of one; once success is reported
      * after a synced directory, only the new one. */
    method WriteState(r: Record, f: Faults) returns (done: bool)
      modifies this`record, this`possible
      ensures View() == WriteRecord(old(View()), r, Outcome(f))
      ensures done <==> Outcome(f).Written?
      ensures forall d :: d in possible ==> d in old(possible) || d == View()
      ensures done && f.dir.Synced? ==> possible == {View()}
      ensures Outcome(f).NotReplaced? ==> possible == old(possible)
    {
      done := false;
      if f.create {
        return;
      }
      var temp, durable := r, false;
      if f.write {
        return;
      }
      if f.sync {
        return;
      }
      durable := true;
      if f.close {
        return;
      }
      if f.rename {
        return;
      }
      record := temp;
      // The contents of a file renamed before it was synced could be lost.
      possible := possible + {View()} + if durable then {} else {View().(record := Unreadable)};
      match f.dir {
        case SyncFailed => return;
        case Synced => possible := {View()};
        case Skipped =>
      }
      done := true;
    }
  }
}
