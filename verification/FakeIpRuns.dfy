/** Runs over the fake-IP cache: several processes, each of which may die between any two file
  * operations, and power losses.
  *
  * A power loss brings the disk back to one of the states it went through since the directory was
  * last synced: file operations reach it in order. `n` is the number of address blocks.
  */
module FakeIpRuns {
  import opened FakeIp
  import opened Prelude

  // ---- Processes ----

  /** What a record write is for: the begin of a run, or its clean close. */
  datatype Job = BeginJob(choice: Choice) | CloseJob(block: nat)

  /** How far writeFakeIPRunState has come. */
  datatype Stage = Fresh | TempWritten | TempSynced | Renamed

  /** Where a process is with its run. */
  datatype Phase =
    | Idle
    | Locked
    | Removing(choice: Choice)
    | Saving(job: Job, stage: Stage)
    | Ready(choice: Choice)
    | Running(block: nat)
    | Exited(block: nat, cleanly: bool)
    | Closing

  /** A recorded begin: the block and how it was chosen. */
  datatype Mark = Mark(block: nat, how: How)

  /** The latest run that opened the cache, and whether its clean close has been recorded. */
  datatype Opening = Opening(block: nat, closed: bool)

  /** The temporary file, and whether its contents are on the disk. */
  datatype Temp = Temp(record: Record, synced: bool)

  /** A state of the disk, and the begins that led to its record. */
  datatype Snap = Snap(disk: Disk, marks: seq<Mark>)

  /** `durable` is what a power loss may leave. */
  datatype State = State(
    now: Snap,
    durable: set<Snap>,
    temp: Option<Temp>,
    lock: Option<nat>,
    phases: map<nat, Phase>,
    lastOpen: Option<Opening>)

  datatype Event =
    | Acquire(p: nat)
    | Decide(p: nat, pick: nat)
    | RemoveCache(p: nat, ok: bool)
    | WriteTemp(p: nat, ok: bool)
    | SyncTemp(p: nat, ok: bool)
    | Rename(p: nat, ok: bool)
    | SyncDir(p: nat, dir: DirSync)
    | Open(p: nat)
    | GiveUp(p: nat)
    | ExitRun(p: nat, cleanly: bool)
    | BeginClose(p: nat)
    | Release(p: nat)
    | Crash(p: nat)
    | PowerLoss(left: Snap)
    | Corrupt

  function PhaseOf(s: State, p: nat): Phase {
    if p in s.phases then s.phases[p] else Idle
  }

  function Goto(s: State, p: nat, ph: Phase): State {
    s.(phases := s.phases[p := ph])
  }

  /** The disk moves on; until the next sync a power loss may leave this state or an earlier one. */
  function Reach(s: State, x: Snap): State {
    s.(now := x, durable := s.durable + {x})
  }

  /** No record yet, whatever cache file there may be. */
  function Init(cache: Cache): State {
    var x := Snap(Disk(Absent, cache), []);
    State(x, {x}, None, None, map[], None)
  }

  function NewRecord(job: Job): Record {
    match job
    case BeginJob(c) => Recorded(c.block, false)
    case CloseJob(b) => Recorded(b, true)
  }

  /** The rename: contents that are not on the disk yet may be lost with the power. */
  function RenameStep(s: State, job: Job): State
    requires s.temp.Some?
  {
    var x := Snap(
      s.now.disk.(record := s.temp.value.record),
      if job.BeginJob? then s.now.marks + [Mark(job.choice.block, job.choice.how)] else s.now.marks);
    var torn := if s.temp.value.synced then {} else {x.(disk := x.disk.(record := Unreadable))};
    s.(now := x,
       durable := s.durable + {x} + torn,
       temp := None,
       lastOpen := if job.CloseJob? then Some(Opening(job.block, true)) else s.lastOpen)
  }

  /** The end of a write: with an error of the directory sync a begin is over. */
  function AfterSync(job: Job, dir: DirSync): Phase {
    if job.BeginJob? && !dir.SyncFailed? then Ready(job.choice) else Closing
  }

  function SaveStep(s: State, p: nat, job: Job, stage: Stage, e: Event): State {
    match (stage, e)
    case (Fresh, WriteTemp(_, ok)) =>
      if ok then Goto(s, p, Saving(job, TempWritten)).(temp := Some(Temp(NewRecord(job), false)))
      else Goto(s, p, Closing)
    case (TempWritten, SyncTemp(_, ok)) =>
      if ok && s.temp.Some? then
        Goto(s, p, Saving(job, TempSynced)).(temp := Some(s.temp.value.(synced := true)))
      else Goto(s, p, Closing)
    case (TempSynced, Rename(_, ok)) =>
      if ok && s.temp.Some? then Goto(RenameStep(s, job), p, Saving(job, Renamed)) else Goto(s, p, Closing)
    case (Renamed, SyncDir(_, dir)) =>
      Goto(s, p, AfterSync(job, dir)).(durable := if dir.Synced? then {s.now} else s.durable)
    case _ => s
  }

  function Step(n: nat, s: State, e: Event): State
    requires n > 0
  {
    match e
    case Acquire(p) =>
      if PhaseOf(s, p).Idle? && s.lock.None? then Goto(s, p, Locked).(lock := Some(p)) else s
    case Decide(p, pick) =>
      if PhaseOf(s, p).Locked? then
        var choice := Choose(n, s.now.disk.record, pick);
        Goto(s, p, if choice.how.Reused? then Saving(BeginJob(choice), Fresh) else Removing(choice))
      else s
    case RemoveCache(p, ok) =>
      if PhaseOf(s, p).Removing? then
        if ok then
          var emptied := Reach(s, s.now.(disk := s.now.disk.(cache := Missing)));
          Goto(emptied, p, Saving(BeginJob(PhaseOf(s, p).choice), Fresh))
        else Goto(s, p, Closing)
      else s
    case Open(p) =>
      if PhaseOf(s, p).Ready? then
        var b := PhaseOf(s, p).choice.block;
        Goto(Reach(s, s.now.(disk := s.now.disk.(cache := Held(b, false)))), p, Running(b))
          .(lastOpen := Some(Opening(b, false)))
      else s
    case GiveUp(p) =>
      if PhaseOf(s, p).Ready? then Goto(s, p, Closing) else s
    case ExitRun(p, cleanly) =>
      if PhaseOf(s, p).Running? then
        var b := PhaseOf(s, p).block;
        Goto(Reach(s, s.now.(disk := s.now.disk.(cache := Held(b, cleanly)))), p, Exited(b, cleanly))
      else s
    case BeginClose(p) =>
      if PhaseOf(s, p).Exited? && PhaseOf(s, p).cleanly then
        Goto(s, p, Saving(CloseJob(PhaseOf(s, p).block), Fresh))
      else s
    case Release(p) =>
      if PhaseOf(s, p).Closing? || PhaseOf(s, p).Exited? || PhaseOf(s, p).Locked? then
        Goto(s, p, Idle).(lock := None)
      else s
    case Crash(p) =>
      Goto(s, p, Idle).(lock := if s.lock == Some(p) then None else s.lock)
    case PowerLoss(x) =>
      if x in s.durable then State(x, {x}, None, None, map[], s.lastOpen) else s
    case Corrupt =>
      Reach(s, s.now.(disk := s.now.disk.(record := Unreadable)))
    case _ =>
      if PhaseOf(s, e.p).Saving? then SaveStep(s, e.p, PhaseOf(s, e.p).job, PhaseOf(s, e.p).stage, e) else s
  }

  function Exec(n: nat, cache: Cache, es: seq<Event>): State
    requires n > 0
    decreases |es|
  {
    if es == [] then Init(cache) else Step(n, Exec(n, cache, es[..|es| - 1]), es[|es| - 1])
  }

  /** A begin that reports success without having synced the directory. */
  predicate SkipsSync(s: State, e: Event) {
    && e.SyncDir? && e.dir.Skipped?
    && PhaseOf(s, e.p).Saving? && PhaseOf(s, e.p).job.BeginJob? && PhaseOf(s, e.p).stage.Renamed?
  }

  /** Nothing is left that only a sync of the directory would keep. */
  predicate Settles(s: State, e: Event) {
    || (e.SyncDir? && e.dir.Synced? && PhaseOf(s, e.p).Saving? && PhaseOf(s, e.p).stage.Renamed?)
    || (e.PowerLoss? && e.left in s.durable)
  }

  /** A begin has reported success without a sync, and there was none since. */
  predicate Exposed(n: nat, cache: Cache, es: seq<Event>)
    requires n > 0
    decreases |es|
  {
    es != [] &&
    var s, e := Exec(n, cache, es[..|es| - 1]), es[|es| - 1];
    SkipsSync(s, e) || (Exposed(n, cache, es[..|es| - 1]) && !Settles(s, e))
  }

  /** The power is not lost meanwhile. */
  predicate Guarded(n: nat, cache: Cache, es: seq<Event>)
    requires n > 0
    decreases |es|
  {
    es == [] ||
    (&& Guarded(n, cache, es[..|es| - 1])
     && !(es[|es| - 1].PowerLoss? && Exposed(n, cache, es[..|es| - 1])))
  }

  // ---- Invariant ----

  /** Only the lock's holder is anywhere but idle. */
  predicate LockOk(s: State) {
    forall p :: p in s.phases && !s.phases[p].Idle? ==> s.lock == Some(p)
  }

  predicate InRange(n: nat, ph: Phase) {
    && (ph.Removing? || ph.Ready? ==> ph.choice.block < n)
    && (ph.Running? || ph.Exited? ==> ph.block < n)
    && (ph.Saving? ==> if ph.job.BeginJob? then ph.job.choice.block < n else ph.job.block < n)
  }

  predicate IsClean(r: Record) { r.Recorded? && r.clean }

  /** Each recorded begin follows from the one before, unless the record could not be read; the first
    * has nothing to follow. */
  predicate Chain(n: nat, marks: seq<Mark>)
    requires n > 0
  {
    && (marks != [] ==> marks[0].how.Picked?)
    && (forall k :: 0 <= k < |marks| ==> marks[k].block < n)
    && (forall k :: 0 < k < |marks| && marks[k].how.Reused? ==> marks[k].block == marks[k - 1].block)
    && (forall k :: 0 < k < |marks| && marks[k].how.Advanced? ==> marks[k].block == (marks[k - 1].block + 1) % n)
  }

  /** The record is that of the last begin, and a clean one vouches for the cache: the run that opened
    * it last closed it, on that block. */
  predicate SnapOk(n: nat, x: Snap, lastOpen: Option<Opening>)
    requires n > 0
  {
    && Chain(n, x.marks)
    && (x.disk.record.Recorded? ==>
          && x.disk.record.block < n
          && x.marks != [] && x.marks[|x.marks| - 1].block == x.disk.record.block)
    && (IsClean(x.disk.record) ==>
          && x.disk.cache == Held(x.disk.record.block, true)
          && lastOpen == Some(Opening(x.disk.record.block, true)))
  }

  predicate ChoiceOk(n: nat, marks: seq<Mark>, c: Choice)
    requires n > 0
  {
    && (!c.how.Picked? ==> marks != [])
    && (c.how.Reused? ==> marks[|marks| - 1].block == c.block)
    && (c.how.Advanced? ==> c.block == (marks[|marks| - 1].block + 1) % n)
  }

  /** The cache a choice goes with: the saved one of the last run, or none. */
  predicate CacheOk(s: State, c: Choice) {
    if c.how.Reused? then s.now.disk.cache == Held(c.block, true) && s.lastOpen == Some(Opening(c.block, true))
    else s.now.disk.cache.Missing?
  }

  predicate LastMark(s: State, b: nat) {
    s.now.marks != [] && s.now.marks[|s.now.marks| - 1].block == b
  }

  /** Whatever a power loss leaves, the record says that the run on `b` is not closed, unless something
    * else has made it unreadable. */
  predicate OnRecord(s: State, b: nat) {
    forall x :: x in s.durable ==> x.disk.record == Recorded(b, false) || x.disk.record == Unreadable
  }

  predicate TempOk(s: State, job: Job, stage: Stage) {
    stage.TempWritten? || stage.TempSynced? ==> s.temp == Some(Temp(NewRecord(job), stage.TempSynced?))
  }

  predicate SavingOk(n: nat, s: State, job: Job, stage: Stage)
    requires n > 0
  {
    && TempOk(s, job, stage)
    && match job
       case BeginJob(c) =>
         && CacheOk(s, c)
         && (if stage.Renamed? then
               && !IsClean(s.now.disk.record) && (s.now.disk.record.Unreadable? || s.now.disk.record == NewRecord(job))
               && s.now.marks != [] && s.now.marks[|s.now.marks| - 1] == Mark(c.block, c.how)
             else ChoiceOk(n, s.now.marks, c) && (c.how.Reused? || !IsClean(s.now.disk.record)))
       case CloseJob(b) =>
         stage.Renamed? ||
         (&& OnRecord(s, b) && LastMark(s, b)
          && s.now.disk.cache == Held(b, true) && s.lastOpen == Some(Opening(b, false)))
  }

  /** What a process in the middle of a run has established, given that nobody else moves. */
  predicate HolderOk(n: nat, s: State, ph: Phase)
    requires n > 0
  {
    match ph
    case Removing(c) => !c.how.Reused? && ChoiceOk(n, s.now.marks, c) && !IsClean(s.now.disk.record)
    case Saving(job, stage) => SavingOk(n, s, job, stage)
    case Ready(c) =>
      && OnRecord(s, c.block) && CacheOk(s, c)
      && s.now.marks != [] && s.now.marks[|s.now.marks| - 1] == Mark(c.block, c.how)
    case Running(b) => OnRecord(s, b) && LastMark(s, b) && s.lastOpen == Some(Opening(b, false))
    case Exited(b, cleanly) =>
      && OnRecord(s, b) && LastMark(s, b) && s.lastOpen == Some(Opening(b, false))
      && s.now.disk.cache == Held(b, cleanly)
    case _ => true
  }

  predicate SnapsOk(n: nat, s: State)
    requires n > 0
  {
    s.now in s.durable && forall x :: x in s.durable ==> SnapOk(n, x, s.lastOpen)
  }

  predicate Inv(n: nat, s: State)
    requires n > 0
  {
    && LockOk(s) && SnapsOk(n, s)
    && (forall p :: p in s.phases ==> InRange(n, s.phases[p]) && HolderOk(n, s, s.phases[p]))
  }

  /** With everyone else idle, the acting process alone decides the invariant. */
  predicate Alone(s: State, p: nat) {
    forall q :: q in s.phases && q != p ==> s.phases[q].Idle?
  }

  lemma HolderDecides(n: nat, r: State, p: nat, ph: Phase)
    requires n > 0 && Alone(r, p) && p in r.phases && r.phases[p] == ph && (ph.Idle? || r.lock == Some(p))
    requires SnapsOk(n, r) && InRange(n, ph) && HolderOk(n, r, ph)
    ensures Inv(n, r)
  {
  }

  lemma ChainExtends(n: nat, marks: seq<Mark>, c: Choice)
    requires n > 0 && Chain(n, marks) && ChoiceOk(n, marks, c) && c.block < n
    ensures Chain(n, marks + [Mark(c.block, c.how)])
  {
    var longer := marks + [Mark(c.block, c.how)];
    assert forall k :: 0 <= k < |marks| ==> longer[k] == marks[k];
    assert longer[|marks|] == Mark(c.block, c.how);
  }

  lemma DecideInv(n: nat, s: State, p: nat, pick: nat)
    requires n > 0 && Inv(n, s) && PhaseOf(s, p).Locked?
    ensures Inv(n, Step(n, s, Decide(p, pick)))
  {
    var c := Choose(n, s.now.disk.record, pick);
    assert SnapOk(n, s.now, s.lastOpen);
    HolderDecides(n, Step(n, s, Decide(p, pick)), p,
                  if c.how.Reused? then Saving(BeginJob(c), Fresh) else Removing(c));
  }

  lemma RemoveInv(n: nat, s: State, p: nat, ok: bool)
    requires n > 0 && Inv(n, s) && PhaseOf(s, p).Removing?
    ensures Inv(n, Step(n, s, RemoveCache(p, ok)))
  {
    assert SnapOk(n, s.now, s.lastOpen);
    var r := Step(n, s, RemoveCache(p, ok));
    HolderDecides(n, r, p, r.phases[p]);
  }

  lemma TempInv(n: nat, s: State, e: Event)
    requires n > 0 && Inv(n, s) && (e.WriteTemp? || e.SyncTemp?) && PhaseOf(s, e.p).Saving?
    ensures Inv(n, Step(n, s, e))
  {
    var r := Step(n, s, e);
    if r != s { HolderDecides(n, r, e.p, r.phases[e.p]); }
  }

  lemma RenameSnaps(n: nat, s: State, job: Job)
    requires n > 0 && SnapsOk(n, s) && SavingOk(n, s, job, TempSynced)
    requires if job.BeginJob? then job.choice.block < n else job.block < n
    ensures s.temp.Some? && SnapsOk(n, RenameStep(s, job)) && SavingOk(n, RenameStep(s, job), job, Renamed)
  {
    assert SnapOk(n, s.now, s.lastOpen);
    if job.BeginJob? { ChainExtends(n, s.now.marks, job.choice); }
    var r := RenameStep(s, job);
    forall x | x in r.durable ensures SnapOk(n, x, r.lastOpen) {
      if x in s.durable { assert SnapOk(n, x, s.lastOpen); }
    }
  }

  lemma RenameInv(n: nat, s: State, p: nat, ok: bool)
    requires n > 0 && Inv(n, s) && PhaseOf(s, p).Saving?
    ensures Inv(n, Step(n, s, Rename(p, ok)))
  {
    var ph, r := PhaseOf(s, p), Step(n, s, Rename(p, ok));
    if ph.stage.TempSynced? {
      RenameSnaps(n, s, ph.job);
      HolderDecides(n, r, p, r.phases[p]);
    }
  }

  lemma SyncDirInv(n: nat, s: State, p: nat, dir: DirSync)
    requires n > 0 && Inv(n, s) && PhaseOf(s, p).Saving? && !SkipsSync(s, SyncDir(p, dir))
    ensures Inv(n, Step(n, s, SyncDir(p, dir)))
  {
    var r := Step(n, s, SyncDir(p, dir));
    if r != s { HolderDecides(n, r, p, r.phases[p]); }
  }

  lemma OpenInv(n: nat, s: State, p: nat)
    requires n > 0 && Inv(n, s) && PhaseOf(s, p).Ready?
    ensures Inv(n, Step(n, s, Open(p)))
  {
    assert SnapOk(n, s.now, s.lastOpen);
    var r := Step(n, s, Open(p));
    HolderDecides(n, r, p, r.phases[p]);
  }

  lemma ExitInv(n: nat, s: State, e: Event)
    requires n > 0 && Inv(n, s) && (e.GiveUp? || e.ExitRun? || e.BeginClose?)
    ensures Inv(n, Step(n, s, e))
  {
    assert SnapOk(n, s.now, s.lastOpen);
    var r := Step(n, s, e);
    if r != s { HolderDecides(n, r, e.p, r.phases[e.p]); }
  }

  lemma LockInv(n: nat, s: State, e: Event)
    requires n > 0 && Inv(n, s) && (e.Acquire? || e.Release? || e.Crash?)
    ensures Inv(n, Step(n, s, e))
  {
    var r := Step(n, s, e);
    if r != s {
      var ph := r.phases[e.p];
      assert ph.Idle? || ph.Locked?;
      if s.lock == Some(e.p) || s.lock.None? {
        HolderDecides(n, r, e.p, ph);
      } else {
        OthersKeep(n, s, r, e.p);
      }
    }
  }

  /** A process that was idle, or has gone idle, without the lock does not matter. */
  lemma OthersKeep(n: nat, s: State, r: State, p: nat)
    requires n > 0 && Inv(n, s) && s.lock != Some(p) && r == Goto(s, p, Idle)
    ensures Inv(n, r)
  {
    forall q | q in r.phases ensures InRange(n, r.phases[q]) && HolderOk(n, r, r.phases[q]) {
      if q != p { SameHolder(n, s, r, s.phases[q]); }
    }
  }

  lemma SameHolder(n: nat, s: State, r: State, ph: Phase)
    requires n > 0 && HolderOk(n, s, ph)
    requires r.now == s.now && r.durable == s.durable && r.temp == s.temp && r.lastOpen == s.lastOpen
    ensures HolderOk(n, r, ph)
  {
  }

  lemma CorruptInv(n: nat, s: State)
    requires n > 0 && Inv(n, s)
    ensures Inv(n, Step(n, s, Corrupt))
  {
    assert SnapOk(n, s.now, s.lastOpen);
    var r := Step(n, s, Corrupt);
    forall q | q in r.phases ensures HolderOk(n, r, r.phases[q]) {
      assert HolderOk(n, s, s.phases[q]);
    }
  }

  lemma StepInv(n: nat, s: State, e: Event)
    requires n > 0 && Inv(n, s) && !SkipsSync(s, e)
    ensures Inv(n, Step(n, s, e))
  {
    match e {
      case Acquire(_) => LockInv(n, s, e);
      case Release(_) => LockInv(n, s, e);
      case Crash(_) => LockInv(n, s, e);
      case Decide(p, pick) => if PhaseOf(s, p).Locked? { DecideInv(n, s, p, pick); }
      case RemoveCache(p, ok) => if PhaseOf(s, p).Removing? { RemoveInv(n, s, p, ok); }
      case WriteTemp(p, _) => if PhaseOf(s, p).Saving? { TempInv(n, s, e); }
      case SyncTemp(p, _) => if PhaseOf(s, p).Saving? { TempInv(n, s, e); }
      case Rename(p, ok) => if PhaseOf(s, p).Saving? { RenameInv(n, s, p, ok); }
      case SyncDir(p, dir) => if PhaseOf(s, p).Saving? { SyncDirInv(n, s, p, dir); }
      case Open(p) => if PhaseOf(s, p).Ready? { OpenInv(n, s, p); }
      case GiveUp(_) => ExitInv(n, s, e);
      case ExitRun(_, _) => ExitInv(n, s, e);
      case BeginClose(_) => ExitInv(n, s, e);
      case PowerLoss(_) =>
      case Corrupt => CorruptInv(n, s);
    }
  }

  /** The same event, but for a skipped sync that is made. */
  function Made(s: State, e: Event): Event {
    if SkipsSync(s, e) then SyncDir(e.p, Synced) else e
  }

  /** A state that has synced what the other skipped differs from it in what a power loss may leave only;
    * and not at all if nothing is exposed. */
  predicate Twins(s: State, t: State, exposed: bool) {
    t == s.(durable := t.durable) && (!exposed ==> t == s)
  }

  lemma TwinStep(n: nat, s: State, t: State, e: Event, exposed: bool)
    requires n > 0 && Twins(s, t, exposed) && !(e.PowerLoss? && exposed)
    ensures Twins(Step(n, s, e), Step(n, t, Made(s, e)), SkipsSync(s, e) || (exposed && !Settles(s, e)))
  {
    if e.SyncDir? && PhaseOf(s, e.p).Saving? && PhaseOf(s, e.p).stage.Renamed? {
      assert Step(n, t, Made(s, e)).phases == Step(n, s, e).phases;
    }
  }

  /** The invariant holds of every such run as if all syncs were made, and just so when nothing is exposed. */
  lemma {:induction false} ExecInv(n: nat, cache: Cache, es: seq<Event>) returns (t: State)
    requires n > 0 && Guarded(n, cache, es)
    ensures Inv(n, t) && Twins(Exec(n, cache, es), t, Exposed(n, cache, es))
    decreases |es|
  {
    if es == [] {
      t := Init(cache);
    } else {
      var past, e := es[..|es| - 1], es[|es| - 1];
      var s := Exec(n, cache, past);
      var u := ExecInv(n, cache, past);
      TwinStep(n, s, u, e, Exposed(n, cache, past));
      StepInv(n, u, Made(s, e));
      t := Step(n, u, Made(s, e));
    }
  }

  // ---- One call ----

  /** writeFakeIPRunState as steps of process `p`. */
  function SaveSteps(n: nat, s: State, p: nat, f: Faults): State
    requires n > 0
  {
    Step(n, Step(n, Step(n, Step(n, s, WriteTemp(p, !f.create && !f.write)), SyncTemp(p, !f.sync && !f.close)),
                 Rename(p, !f.rename)), SyncDir(p, f.dir))
  }

  lemma SaveIsWrite(n: nat, s: State, p: nat, job: Job, f: Faults)
    requires n > 0 && PhaseOf(s, p) == Saving(job, Fresh)
    ensures var r := SaveSteps(n, s, p, f);
      && r.now.disk == WriteRecord(s.now.disk, NewRecord(job), Outcome(f))
      && PhaseOf(r, p) == if Outcome(f).Written? then AfterSync(job, f.dir) else Closing
  {
  }

  /** The steps of an undisturbed process are beginFakeIPRun. */
  lemma StepsAreBegin(n: nat, s: State, p: nat, pick: nat, removes: bool, f: Faults)
    requires n > 0 && PhaseOf(s, p).Locked?
    ensures var r := SaveSteps(n, Step(n, Step(n, s, Decide(p, pick)), RemoveCache(p, removes)), p, f);
      var (disk, block) := Begin(n, s.now.disk, pick, removes, Outcome(f));
      && r.now.disk == disk
      && block == if PhaseOf(r, p).Ready? then Some(PhaseOf(r, p).choice.block) else None
  {
    var c := Choose(n, s.now.disk.record, pick);
    var s2 := Step(n, Step(n, s, Decide(p, pick)), RemoveCache(p, removes));
    if c.how.Reused? || removes {
      assert PhaseOf(s2, p) == Saving(BeginJob(c), Fresh);
      SaveIsWrite(n, s2, p, BeginJob(c), f);
    } else {
      assert PhaseOf(s2, p) == Closing;
    }
  }

  /** And those of a clean close are endFakeIPRun. */
  lemma StepsAreEnd(n: nat, s: State, p: nat, b: nat, f: Faults)
    requires n > 0 && PhaseOf(s, p) == Exited(b, true)
    ensures var r := SaveSteps(n, Step(n, s, BeginClose(p)), p, f);
      r.now.disk == WriteRecord(s.now.disk, Recorded(b, true), Outcome(f)) && PhaseOf(r, p) == Closing
  {
    SaveIsWrite(n, Step(n, s, BeginClose(p)), p, CloseJob(b), f);
  }

  ghost predicate SameElsewhere(s: State, r: State, p: nat) {
    r.lock == s.lock && forall q :: q != p ==> PhaseOf(r, q) == PhaseOf(s, q)
  }

  lemma SaveStepKeeps(n: nat, s: State, p: nat, e: Event)
    requires n > 0 && (e.WriteTemp? || e.SyncTemp? || e.Rename? || e.SyncDir?) && e.p == p
    ensures SameElsewhere(s, Step(n, s, e), p)
  {
  }

  lemma SaveKeeps(n: nat, s: State, p: nat, f: Faults)
    requires n > 0
    ensures SameElsewhere(s, SaveSteps(n, s, p, f), p)
  {
    var s1 := Step(n, s, WriteTemp(p, !f.create && !f.write));
    var s2 := Step(n, s1, SyncTemp(p, !f.sync && !f.close));
    var s3 := Step(n, s2, Rename(p, !f.rename));
    SaveStepKeeps(n, s, p, WriteTemp(p, !f.create && !f.write));
    SaveStepKeeps(n, s1, p, SyncTemp(p, !f.sync && !f.close));
    SaveStepKeeps(n, s2, p, Rename(p, !f.rename));
    SaveStepKeeps(n, s3, p, SyncDir(p, f.dir));
  }

  // ---- Theorems over every run, skipped syncs included ----

  /** The lock, and the stage of a write, need no guard. */
  predicate Basic(s: State) {
    LockOk(s) && forall p :: p in s.phases && s.phases[p].Saving? ==> TempOk(s, s.phases[p].job, s.phases[p].stage)
  }

  lemma BasicStep(n: nat, s: State, e: Event)
    requires n > 0 && Basic(s)
    ensures Basic(Step(n, s, e))
  {
  }

  lemma {:induction false} BasicAlways(n: nat, cache: Cache, es: seq<Event>)
    requires n > 0
    ensures Basic(Exec(n, cache, es))
    decreases |es|
  {
    if es != [] {
      BasicAlways(n, cache, es[..|es| - 1]);
      BasicStep(n, Exec(n, cache, es[..|es| - 1]), es[|es| - 1]);
    }
  }

  /** Every process that may touch the record, the cache or the runtime holds the lock, so no two do. */
  lemma LockSpansEveryAccess(n: nat, cache: Cache, es: seq<Event>, p: nat)
    requires n > 0 && !PhaseOf(Exec(n, cache, es), p).Idle?
    ensures Exec(n, cache, es).lock == Some(p) && Alone(Exec(n, cache, es), p)
  {
    BasicAlways(n, cache, es);
  }

  /** The lock is held by a busy process, and what a running one has of the cache is open. */
  predicate HeldByBusy(s: State) {
    && (s.lock.Some? ==> !PhaseOf(s, s.lock.value).Idle?)
    && (forall p :: p in s.phases && s.phases[p].Running? ==> s.now.disk.cache == Held(s.phases[p].block, false))
  }

  lemma HeldByBusyStep(n: nat, s: State, e: Event)
    requires n > 0 && LockOk(s) && HeldByBusy(s)
    ensures HeldByBusy(Step(n, s, e))
  {
  }

  lemma {:induction false} HeldByBusyAlways(n: nat, cache: Cache, es: seq<Event>)
    requires n > 0
    ensures HeldByBusy(Exec(n, cache, es))
    decreases |es|
  {
    if es != [] {
      HeldByBusyAlways(n, cache, es[..|es| - 1]);
      BasicAlways(n, cache, es[..|es| - 1]);
      HeldByBusyStep(n, Exec(n, cache, es[..|es| - 1]), es[|es| - 1]);
    }
  }

  /** An idle process gets the lock exactly when no other is busy: nobody keeps it beyond a crash, a power
    * loss or the end of its run. */
  lemma AcquiresIffNobodyBusy(n: nat, cache: Cache, es: seq<Event>, p: nat)
    requires n > 0 && PhaseOf(Exec(n, cache, es), p).Idle?
    ensures var s := Exec(n, cache, es);
      PhaseOf(Step(n, s, Acquire(p)), p).Locked? <==> forall q :: q in s.phases ==> s.phases[q].Idle?
  {
    BasicAlways(n, cache, es);
    HeldByBusyAlways(n, cache, es);
    var s := Exec(n, cache, es);
    if s.lock.Some? { assert s.lock.value in s.phases; }
  }

  predicate NoneTorn(s: State) {
    forall x :: x in s.durable ==> !x.disk.record.Unreadable?
  }

  lemma NoneTornStep(n: nat, s: State, e: Event)
    requires n > 0 && Basic(s) && NoneTorn(s) && s.now in s.durable && !e.Corrupt?
    ensures NoneTorn(Step(n, s, e)) && Step(n, s, e).now in Step(n, s, e).durable
  {
  }

  /** Unless something else writes to it, no crash and no power loss ever leaves part of a record: its
    * contents are on the disk before its name is. */
  lemma {:induction false} RecordIsNeverTorn(n: nat, cache: Cache, es: seq<Event>)
    requires n > 0 && Corrupt !in es
    ensures NoneTorn(Exec(n, cache, es)) && Exec(n, cache, es).now in Exec(n, cache, es).durable
    decreases |es|
  {
    if es != [] {
      RecordIsNeverTorn(n, cache, es[..|es| - 1]);
      BasicAlways(n, cache, es[..|es| - 1]);
      NoneTornStep(n, Exec(n, cache, es[..|es| - 1]), es[|es| - 1]);
    }
  }

  // ---- Theorems over every run that loses no power while exposed ----

  /** The block of a run between the reported success of its begin and its close. */
  function UnclosedBlock(ph: Phase): Option<nat> {
    match ph
    case Ready(c) => Some(c.block)
    case Running(b) => Some(b)
    case Exited(b, _) => Some(b)
    case _ => None
  }

  lemma UnclosedIsOnRecord(n: nat, s: State, p: nat, b: nat, x: Snap, pick: nat)
    requires n >= 2 && Inv(n, s) && UnclosedBlock(PhaseOf(s, p)) == Some(b) && x in s.durable
    ensures x.disk.record == Recorded(b, false) || x.disk.record == Unreadable
    ensures !Choose(n, x.disk.record, pick).how.Reused?
    ensures x.disk.record.Recorded? ==> Choose(n, x.disk.record, pick).block != b
  {
    assert OnRecord(s, b) && b < n by { assert HolderOk(n, s, PhaseOf(s, p)) && InRange(n, PhaseOf(s, p)); }
    NextDiffers(n, b);
  }

  /** From the reported success of a begin until its close is being written, every power loss leaves the
    * record that this run is not closed; so the next begin starts empty, and on another block as long
    * as the record can be read. */
  lemma UnclosedRunSurvivesPowerLoss(n: nat, cache: Cache, es: seq<Event>, p: nat, b: nat, x: Snap, pick: nat)
    requires n >= 2 && Guarded(n, cache, es) && !Exposed(n, cache, es) && x in Exec(n, cache, es).durable
    requires UnclosedBlock(PhaseOf(Exec(n, cache, es), p)) == Some(b)
    ensures x.disk.record == Recorded(b, false) || x.disk.record == Unreadable
    ensures !Choose(n, x.disk.record, pick).how.Reused?
    ensures x.disk.record.Recorded? ==> Choose(n, x.disk.record, pick).block != b
  {
    var _ := ExecInv(n, cache, es);
    UnclosedIsOnRecord(n, Exec(n, cache, es), p, b, x, pick);
  }

  /** What a run that is about to open the cache finds. */
  predicate StartsRight(s: State, c: Choice) {
    && (c.how.Reused? <==> s.now.disk.cache == Held(c.block, true))
    && (c.how.Reused? ==> s.lastOpen == Some(Opening(c.block, true)))
    && (!c.how.Reused? ==> s.now.disk.cache == Missing)
    && (c.how.Advanced? ==> |s.now.marks| > 1 && s.now.marks[|s.now.marks| - 2].block != c.block)
  }

  lemma ReadyStartsRight(n: nat, s: State, p: nat, c: Choice)
    requires n >= 2 && Inv(n, s) && PhaseOf(s, p) == Ready(c)
    ensures StartsRight(s, c)
  {
    assert HolderOk(n, s, Ready(c));
    var marks := s.now.marks;
    assert Chain(n, marks) by { assert SnapOk(n, s.now, s.lastOpen); }
    if c.how.Advanced? {
      assert |marks| > 1;
      NextDiffers(n, marks[|marks| - 2].block);
    }
  }

  /** A run about to open the cache either reuses the block and the saved cache of the last run that
    * opened it, whose clean close was recorded, or starts with no cache at all, and if the record could
    * be read on a block it did not name. */
  lemma ReuseOnlyAfterCleanClose(n: nat, cache: Cache, es: seq<Event>, p: nat, c: Choice)
    requires n >= 2 && Guarded(n, cache, es) && PhaseOf(Exec(n, cache, es), p) == Ready(c)
    ensures StartsRight(Exec(n, cache, es), c)
  {
    var t := ExecInv(n, cache, es);
    ReadyStartsRight(n, t, p, c);
  }

  /** A decision to reuse is made exactly when the record says the block was cleanly closed. */
  lemma DecidesReuseIffClean(n: nat, cache: Cache, es: seq<Event>, pick: nat)
    requires n > 0 && Guarded(n, cache, es)
    ensures var r := Exec(n, cache, es).now.disk.record; Choose(n, r, pick).how.Reused? <==> IsClean(r)
  {
    var t := ExecInv(n, cache, es);
    assert SnapOk(n, t.now, t.lastOpen);
  }

  /** Without an earlier record the first block is the picked one. */
  lemma FirstIsPicked(n: nat, cache: Cache, es: seq<Event>)
    requires n > 0 && Guarded(n, cache, es)
    ensures Exec(n, cache, es).now.marks != [] ==> Exec(n, cache, es).now.marks[0].how.Picked?
  {
    var t := ExecInv(n, cache, es);
    assert SnapOk(n, t.now, t.lastOpen);
  }

  /** The choice of process `q` when it begins right after `p` lets go of the lock. */
  function DecidesNext(n: nat, s: State, p: nat, q: nat, pick: nat): State
    requires n > 0
  {
    Step(n, Step(n, Step(n, s, Release(p)), Acquire(q)), Decide(q, pick))
  }

  lemma ClosedIsReused(n: nat, s: State, p: nat, b: nat, q: nat, pick: nat)
    requires n > 0 && b < n && LockOk(s) && s.lock == Some(p) && PhaseOf(s, p) == Closing
    requires s.now.disk.record == Recorded(b, true)
    ensures var r := DecidesNext(n, s, p, q, pick);
      PhaseOf(r, q) == Saving(BeginJob(Choice(b, Reused)), Fresh) && r.now == s.now
  {
    assert PhaseOf(Step(n, s, Release(p)), q).Idle?;
  }

  /** A run that exits cleanly, and whose close is written, leaves its block and its saved cache to the next
    * one, whoever that is: it reuses both. A failed directory sync makes no difference. */
  lemma CleanCloseIsReused(n: nat, cache: Cache, es: seq<Event>, p: nat, b: nat, f: Faults, q: nat, pick: nat)
    requires n > 0 && Guarded(n, cache, es) && PhaseOf(Exec(n, cache, es), p) == Exited(b, true)
    requires !Outcome(f).NotReplaced?
    ensures var closed := SaveSteps(n, Step(n, Exec(n, cache, es), BeginClose(p)), p, f);
      var r := DecidesNext(n, closed, p, q, pick);
      && closed.now.disk == Disk(Recorded(b, true), Held(b, true))
      && PhaseOf(r, q) == Saving(BeginJob(Choice(b, Reused)), Fresh) && r.now == closed.now
  {
    var s := Exec(n, cache, es);
    var t := ExecInv(n, cache, es);
    assert s.now.disk.cache == Held(b, true) && b < n && s.lock == Some(p) by {
      assert p in t.phases && HolderOk(n, t, t.phases[p]) && InRange(n, t.phases[p]);
    }
    StepsAreEnd(n, s, p, b, f);
    var begun := Step(n, s, BeginClose(p));
    SaveKeeps(n, begun, p, f);
    var closed := SaveSteps(n, begun, p, f);
    assert LockOk(closed) by {
      forall u | u in closed.phases && !closed.phases[u].Idle? ensures closed.lock == Some(u) {
        assert u != p ==> PhaseOf(closed, u) == PhaseOf(s, u);
      }
    }
    ClosedIsReused(n, closed, p, b, q, pick);
  }

  /** What a begin leaves that was told of a failed directory sync. */
  predicate GivesUp(n: nat, s: State, r: State, p: nat, c: Choice, pick: nat)
    requires n > 0
  {
    && PhaseOf(r, p).Closing? && r.lastOpen == s.lastOpen && r.now == s.now && r.durable == s.durable
    && (r.now.disk.record == Recorded(c.block, false) || r.now.disk.record == Unreadable)
    && (r.now.disk.record.Recorded? ==> Choose(n, r.now.disk.record, pick) == Choice((c.block + 1) % n, Advanced))
    && (c.how.Reused? ==> r.now.disk.cache == Held(c.block, true))
  }

  lemma SyncFailureGivesUp(n: nat, s: State, p: nat, c: Choice, pick: nat)
    requires n > 0 && Inv(n, s) && PhaseOf(s, p) == Saving(BeginJob(c), Renamed)
    ensures GivesUp(n, s, Step(n, s, SyncDir(p, SyncFailed)), p, c, pick)
  {
    assert SavingOk(n, s, BeginJob(c), Renamed) && c.block < n by {
      assert HolderOk(n, s, PhaseOf(s, p)) && InRange(n, PhaseOf(s, p));
    }
  }

  /** A begin that was told of a failed directory sync leaves its record, although it opens nothing: the
    * next begin gives up that block, and with it a cache that was good. Until a later sync a power loss
    * may still bring back a record from before. */
  lemma FailedBeginGivesUpABlock(n: nat, cache: Cache, es: seq<Event>, p: nat, c: Choice, pick: nat)
    requires n > 0 && Guarded(n, cache, es)
    requires PhaseOf(Exec(n, cache, es), p) == Saving(BeginJob(c), Renamed)
    ensures GivesUp(n, Exec(n, cache, es), Exec(n, cache, es + [SyncDir(p, SyncFailed)]), p, c, pick)
  {
    var t := ExecInv(n, cache, es);
    assert (es + [SyncDir(p, SyncFailed)])[..|es|] == es;
    SyncFailureGivesUp(n, t, p, c, pick);
  }

  // ---- A skipped sync ----

  /** A record that leads to this choice is among what a power loss may leave. */
  ghost predicate Backed(n: nat, s: State, c: Choice)
    requires n > 0
  {
    exists x, pick :: x in s.durable && Choose(n, x.disk.record, pick) == c
  }

  function ChoiceOf(ph: Phase): Option<Choice> {
    match ph
    case Removing(c) => Some(c)
    case Saving(job, _) => if job.BeginJob? then Some(job.choice) else None
    case _ => None
  }

  ghost predicate AllBacked(n: nat, s: State)
    requires n > 0
  {
    forall p :: p in s.phases && ChoiceOf(s.phases[p]).Some? ==> Backed(n, s, ChoiceOf(s.phases[p]).value)
  }

  lemma StillBacked(n: nat, s: State, r: State, c: Choice)
    requires n > 0 && Backed(n, s, c) && s.durable <= r.durable
    ensures Backed(n, r, c)
  {
    var x, pick :| x in s.durable && Choose(n, x.disk.record, pick) == c;
    assert x in r.durable;
  }

  /** Only a synced directory or a power loss drops a state, and then no choice is open. */
  lemma StepGrows(n: nat, s: State, e: Event)
    requires n > 0 && Basic(s)
    ensures var r := Step(n, s, e);
      s.durable <= r.durable || forall p :: p in r.phases ==> ChoiceOf(r.phases[p]).None?
    ensures var r := Step(n, s, e);
      forall p :: p in r.phases && ChoiceOf(r.phases[p]).Some? ==>
        (p in s.phases && ChoiceOf(s.phases[p]) == ChoiceOf(r.phases[p])) || (e.Decide? && e.p == p)
  {
  }

  lemma BackedStep(n: nat, s: State, e: Event)
    requires n > 0 && Basic(s) && AllBacked(n, s) && s.now in s.durable
    ensures AllBacked(n, Step(n, s, e)) && Step(n, s, e).now in Step(n, s, e).durable
  {
    var r := Step(n, s, e);
    StepGrows(n, s, e);
    forall p | p in r.phases && ChoiceOf(r.phases[p]).Some? ensures Backed(n, r, ChoiceOf(r.phases[p]).value) {
      if p in s.phases && ChoiceOf(s.phases[p]) == ChoiceOf(r.phases[p]) {
        StillBacked(n, s, r, ChoiceOf(r.phases[p]).value);
      } else {
        assert r.now in r.durable && Choose(n, r.now.disk.record, e.pick) == ChoiceOf(r.phases[p]).value;
      }
    }
  }

  lemma {:induction false} ChoicesAreBacked(n: nat, cache: Cache, es: seq<Event>)
    requires n > 0
    ensures AllBacked(n, Exec(n, cache, es)) && Exec(n, cache, es).now in Exec(n, cache, es).durable
    decreases |es|
  {
    if es != [] {
      ChoicesAreBacked(n, cache, es[..|es| - 1]);
      BasicAlways(n, cache, es[..|es| - 1]);
      BackedStep(n, Exec(n, cache, es[..|es| - 1]), es[|es| - 1]);
    }
  }

  /** Some power loss would have the next begin choose block `b`. */
  ghost predicate LossChooses(n: nat, s: State, b: nat)
    requires n > 0
  {
    exists x, pick :: x in s.durable && Choose(n, x.disk.record, pick).block == b
  }

  lemma OpenedLossChooses(n: nat, s: State, p: nat, c: Choice, dir: DirSync)
    requires n >= 2 && PhaseOf(s, p) == Saving(BeginJob(c), Renamed) && !dir.SyncFailed? && c.block < n
    requires s.now.disk.record == Recorded(c.block, false) && Backed(n, s, c)
    ensures var r := Step(n, Step(n, s, SyncDir(p, dir)), Open(p));
      PhaseOf(r, p) == Running(c.block) && (LossChooses(n, r, c.block) <==> dir.Skipped?)
  {
    var r := Step(n, Step(n, s, SyncDir(p, dir)), Open(p));
    NextDiffers(n, c.block);
    if dir.Skipped? {
      var x, pick :| x in s.durable && Choose(n, x.disk.record, pick) == c;
      assert x in r.durable && Choose(n, x.disk.record, pick).block == c.block;
    } else {
      forall x, pick | x in r.durable ensures Choose(n, x.disk.record, pick).block != c.block {
        assert x.disk.record == Recorded(c.block, false);
      }
    }
  }

  /** Whether a power loss during a run can have the next begin choose its block again depends on the
    * directory sync of its begin alone: with a success reported without one it can, else it cannot. */
  lemma SameBlockAgainIffSkipped(n: nat, cache: Cache, es: seq<Event>, p: nat, c: Choice, dir: DirSync)
    requires n >= 2 && Guarded(n, cache, es) && Corrupt !in es && !dir.SyncFailed?
    requires PhaseOf(Exec(n, cache, es), p) == Saving(BeginJob(c), Renamed)
    ensures var r := Exec(n, cache, es + [SyncDir(p, dir)] + [Open(p)]);
      PhaseOf(r, p) == Running(c.block) && (LossChooses(n, r, c.block) <==> dir.Skipped?)
  {
    var s := Exec(n, cache, es);
    var t := ExecInv(n, cache, es);
    ChoicesAreBacked(n, cache, es);
    RecordIsNeverTorn(n, cache, es);
    assert SavingOk(n, t, BeginJob(c), Renamed) && c.block < n by {
      assert HolderOk(n, t, PhaseOf(t, p)) && InRange(n, PhaseOf(t, p));
    }
    assert Backed(n, s, c) by { assert ChoiceOf(s.phases[p]) == Some(c); }
    OpenedLossChooses(n, s, p, c, dir);
    assert (es + [SyncDir(p, dir)])[..|es|] == es;
    assert (es + [SyncDir(p, dir)] + [Open(p)])[..|es| + 1] == es + [SyncDir(p, dir)];
  }

  /** A begin does get that far. */
  lemma FirstBeginRenames(n: nat, cache: Cache, p: nat) returns (es: seq<Event>)
    requires n > 0
    ensures Guarded(n, cache, es) && Corrupt !in es
    ensures PhaseOf(Exec(n, cache, es), p) == Saving(BeginJob(Choice(0, Picked)), Renamed)
  {
    es := Then(n, cache, [], Acquire(p));
    assert PhaseOf(Exec(n, cache, es), p) == Locked && Exec(n, cache, es).now.disk.record == Absent;
    es := Then(n, cache, es, Decide(p, 0));
    es := Then(n, cache, es, RemoveCache(p, true));
    es := SavedUpToSync(n, cache, es, p, BeginJob(Choice(0, Picked)));
  }

  /** And a run does get to its clean exit. */
  lemma FirstRunExitsCleanly(n: nat, cache: Cache, p: nat) returns (es: seq<Event>)
    requires n > 0
    ensures Guarded(n, cache, es) && PhaseOf(Exec(n, cache, es), p) == Exited(0, true)
  {
    es := FirstBeginRenames(n, cache, p);
    es := Then(n, cache, es, SyncDir(p, Synced));
    es := Then(n, cache, es, Open(p));
    es := Then(n, cache, es, ExitRun(p, true));
  }

  lemma SavedUpToSync(n: nat, cache: Cache, es: seq<Event>, p: nat, job: Job) returns (more: seq<Event>)
    requires n > 0 && Guarded(n, cache, es) && Corrupt !in es
    requires PhaseOf(Exec(n, cache, es), p) == Saving(job, Fresh)
    ensures Guarded(n, cache, more) && Corrupt !in more && PhaseOf(Exec(n, cache, more), p) == Saving(job, Renamed)
  {
    more := Then(n, cache, es, WriteTemp(p, true));
    more := Then(n, cache, more, SyncTemp(p, true));
    more := Then(n, cache, more, Rename(p, true));
  }

  lemma NextState(n: nat, cache: Cache, es: seq<Event>, e: Event)
    requires n > 0
    ensures Exec(n, cache, es + [e]) == Step(n, Exec(n, cache, es), e)
  {
    assert (es + [e])[..|es|] == es;
  }

  lemma NextGuarded(n: nat, cache: Cache, es: seq<Event>, e: Event)
    requires n > 0 && Guarded(n, cache, es) && !e.PowerLoss?
    ensures Guarded(n, cache, es + [e])
  {
    var more := es + [e];
    assert more[..|more| - 1] == es && more[|more| - 1] == e;
  }

  lemma Then(n: nat, cache: Cache, es: seq<Event>, e: Event) returns (more: seq<Event>)
    requires n > 0 && Guarded(n, cache, es) && Corrupt !in es && !e.PowerLoss? && !e.Corrupt?
    ensures Guarded(n, cache, more) && Corrupt !in more && Exec(n, cache, more) == Step(n, Exec(n, cache, es), e)
  {
    more := es + [e];
    NextGuarded(n, cache, es, e);
    NextState(n, cache, es, e);
  }

  // ---- Recurrence of an abandoned block ----

  /** How many of the begins after `i`, up to `k`, moved to the next block. */
  function Moves(marks: seq<Mark>, i: nat, k: nat): nat
    requires i <= k < |marks|
    decreases k
  {
    if k == i then 0 else Moves(marks, i, k - 1) + if marks[k].how.Advanced? then 1 else 0
  }

  /** No begin in (i, k] had to pick at random. */
  predicate Readable(marks: seq<Mark>, i: nat, k: nat)
    requires i <= k < |marks|
  {
    forall m :: i < m <= k ==> !marks[m].how.Picked?
  }

  lemma ModStep(n: nat, x: nat)
    requires n > 0
    ensures (x % n + 1) % n == (x + 1) % n
  {
    var q, r := x / n, x % n;
    assert x == n * q + r;
    if r + 1 < n {
      ModUnique(n, x + 1, q, r + 1);
      ModUnique(n, r + 1, 0, r + 1);
    } else {
      assert x + 1 == n * (q + 1);
      ModUnique(n, x + 1, q + 1, 0);
      ModUnique(n, r + 1, 1, 0);
    }
  }

  lemma ModUnique(n: nat, x: nat, q: nat, r: nat)
    requires 0 <= r < n && x == n * q + r
    ensures x % n == r
  {
    var d := x / n - q;
    assert x == n * (x / n) + x % n;
    assert n * d == r - x % n;
    ScaledUp(n, d);
  }

  lemma ScaledUp(n: nat, d: int)
    ensures d >= 1 ==> n * d >= n
    ensures d <= -1 ==> n * d + n <= 0
  {
  }

  /** The block after `k` is the starting block moved on once per advance. */
  lemma {:induction false} BlockAfter(n: nat, marks: seq<Mark>, i: nat, k: nat)
    requires n > 0 && Chain(n, marks) && i <= k < |marks| && Readable(marks, i, k)
    ensures marks[k].block == (marks[i].block + Moves(marks, i, k)) % n
    decreases k
  {
    if k > i {
      BlockAfter(n, marks, i, k - 1);
      ModStep(n, marks[i].block + Moves(marks, i, k - 1));
    } else {
      ModUnique(n, marks[i].block, 0, marks[i].block);
    }
  }

  /** Advances come one at a time, so every count up to the last one occurs. */
  lemma {:induction false} MovesReach(marks: seq<Mark>, i: nat, j: nat, d: nat) returns (k: nat)
    requires i <= j < |marks| && d <= Moves(marks, i, j)
    ensures i <= k <= j && Moves(marks, i, k) == d
    decreases j
  {
    if Moves(marks, i, j) == d {
      k := j;
    } else {
      k := MovesReach(marks, i, j - 1, d);
    }
  }

  lemma ChainRecursLast(n: nat, marks: seq<Mark>, i: nat, j: nat, other: nat) returns (k: nat)
    requires n > 0 && Chain(n, marks) && i < j < |marks| && other < n
    requires marks[i + 1].how.Advanced? && Readable(marks, i, j)
    requires marks[j].block == marks[i].block && other != marks[i].block
    ensures i < k < j && marks[k].block == other
  {
    var b := marks[i].block;
    BlockAfter(n, marks, i, j);
    MovesMonotone(marks, i, i + 1, j);
    WrapsAround(n, b, Moves(marks, i, j));
    var d := if other > b then other - b else other - b + n;
    k := MovesReach(marks, i, j, d);
    BlockAfter(n, marks, i, k);
    if other > b { ModUnique(n, b + d, 0, other); } else { ModUnique(n, b + d, 1, other); }
  }

  /** A block that a run left uncleanly (the next begin advanced) is recorded again only after every
    * other block has been: the record staying readable in between. */
  lemma AbandonedBlockRecursLast(n: nat, cache: Cache, es: seq<Event>, i: nat, j: nat, other: nat) returns (k: nat)
    requires n > 0 && Guarded(n, cache, es) && i < j < |Exec(n, cache, es).now.marks| && other < n
    requires var marks := Exec(n, cache, es).now.marks;
      && marks[i + 1].how.Advanced? && Readable(marks, i, j)
      && marks[j].block == marks[i].block && other != marks[i].block
    ensures i < k < j && Exec(n, cache, es).now.marks[k].block == other
  {
    var t := ExecInv(n, cache, es);
    assert Chain(n, t.now.marks) by { assert SnapOk(n, t.now, t.lastOpen); }
    k := ChainRecursLast(n, t.now.marks, i, j, other);
  }

  lemma {:induction false} MovesMonotone(marks: seq<Mark>, i: nat, k: nat, j: nat)
    requires i <= k <= j < |marks|
    ensures Moves(marks, i, k) <= Moves(marks, i, j)
    decreases j
  {
    if k < j { MovesMonotone(marks, i, k, j - 1); }
  }

  /** Coming back to the same residue takes a whole turn. */
  lemma WrapsAround(n: nat, b: nat, m: nat)
    requires b < n && m > 0 && (b + m) % n == b
    ensures m >= n
  {
    if m < n {
      if b + m < n { ModUnique(n, b + m, 0, b + m); } else { ModUnique(n, b + m, 1, b + m - n); }
    }
  }
}
