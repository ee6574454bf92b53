/**
  The drive operations themselves: `RcloneDriveMount` and `S3DriveService`, written in the order of
  the source and expressed as steps of the shared machine of DriveProtocol.  Every effect is a step of the
  protocol, and between any two effects the rest of the machine may do anything the protocol allows.
 */
module DriveMounts {
  import opened Wrappers
  import opened DriveProtocol
  import DriveCache

  datatype DriveError =
    | Active | CachePending | OwnedElsewhere | RuntimeMissing | LetterBusy | CacheFull | ProcessFailed
    | ControlFailed | ObserveFailed | ShuttingDown | NotFound | OwnerInvalid | AuthenticationRequired
    | Cancelled | StorageFailed

  datatype DriveState = Connecting | Connected | Disconnecting | Failed

  /** What a process remembers about a child it registered. */
  datatype MountRecord = MountRecord(binding: Binding, mounted: bool, state: DriveState, error: Option<DriveError>)

  type Outcome = Result<(), DriveError>

  /**
    How the drives of a profile were prepared for its deletion: the earliest failure of a disconnect; the table as
    it stood after `listedAt` steps of the run, and the point at which each listed drive was found quiet; and the
    drive checked last, with the steps taken before that.
   */
  datatype Preparation = Preparation(
    first: Option<DriveError>, listedAt: nat, listed: map<DriveId, Binding>, checks: map<DriveId, nat>, last: DriveId, sofar: seq<Step>)

  /** A point of the shared run: after `at` of its steps the machine was in this state. */
  datatype Found = Found(at: nat, world: World)

  /** One disconnect: its own steps, what its calls raised, the last state in which something stood in its way, and its answer. */
  datatype Stopped = Stopped(d: DriveId, steps: seq<Step>, raised: seq<DriveError>, found: Found, answer: Outcome)

  // ---- what the rest of the machine can do to a process ---------------------------------------

  predicate Foreign(e: Event, p: Pid) {
    e.p != p || OfChild(e.step)
  }

  /** Everything process p may rely on while others run. */
  ghost predicate Undisturbed(w: World, w': World, p: Pid)
    requires p in w.procs
  {
    && p in w'.procs && w'.procs[p].pc == w.procs[p].pc
    && w'.procs[p].mounts.Keys == w.procs[p].mounts.Keys
    && (forall d | d in w.procs[p].mounts ::
          var m, m' := w.procs[p].mounts[d], w'.procs[p].mounts[d];
          m'.binding == m.binding && m'.mounted == m.mounted && (m'.alive ==> m.alive))
    && (forall d | Holds(w, p, d) :: DiskOf(w', d).marker == DiskOf(w, d).marker)
    && (forall d | Holds(w, p, d) ::
          d !in w.procs[p].mounts || !w.procs[p].mounts[d].alive ==> DiskOf(w', d).unsent == DiskOf(w, d).unsent)
  }

  lemma OtherProcessDoesNotDisturb(w: World, e: Event, p: Pid)
    requires Inv(w) && Enabled(w, e) && p in w.procs && e.p != p
    ensures Undisturbed(w, Apply(w, e), p)
  {
    var w' := Apply(w, e);
    StepIsLocal(w, e, p, 0);
    forall d | Holds(w, p, d)
      ensures DiskOf(w', d).marker == DiskOf(w, d).marker && DiskOf(w', d).unsent == DiskOf(w, d).unsent
    {
      StepIsLocal(w, e, p, d);
      if Holds(w, e.p, d) { HoldersExclude(w, p, e.p, d); }
    }
  }

  lemma ChildDoesNotDisturb(w: World, e: Event)
    requires Inv(w) && Enabled(w, e) && OfChild(e.step)
    ensures Undisturbed(w, Apply(w, e), e.p)
  {
    var w' := Apply(w, e);
    forall d | Holds(w, e.p, d)
      ensures DiskOf(w', d).marker == DiskOf(w, d).marker
      ensures d !in w.procs[e.p].mounts || !w.procs[e.p].mounts[d].alive ==> DiskOf(w', d).unsent == DiskOf(w, d).unsent
    {
    }
  }

  lemma UndisturbedTrans(w: World, w': World, w'': World, p: Pid)
    requires p in w.procs && Undisturbed(w, w', p) && Undisturbed(w', w'', p)
    ensures Undisturbed(w, w'', p)
  {
    forall d | Holds(w, p, d) ensures Holds(w', p, d) {
    }
  }

  predicate ChangesRows(step: Step) {
    step.SaveRow? || step.DeleteRow?
  }

  /** The steps of a run that process p took itself. */
  ghost function OwnPart(run: seq<Event>, p: Pid): seq<Step> {
    if run == [] then []
    else
      var e := run[|run| - 1];
      OwnPart(run[..|run| - 1], p) + if Foreign(e, p) then [] else [e.step]
  }

  lemma OwnPartExtends(run: seq<Event>, e: Event, p: Pid)
    ensures OwnPart(run + [e], p) == OwnPart(run, p) + if Foreign(e, p) then [] else [e.step]
  {
    assert (run + [e])[..|run|] == run;
  }

  /** The processes, the disk and the database of one Windows user. */
  class Machine {
    var world: World
    ghost const start: World
    ghost var trace: seq<Event>

    constructor (start: World)
      requires Init(start)
      ensures Consistent() && this.start == start && world == start && trace == []
    {
      world, this.start, trace := start, start, [];
      new;
      InitIsInv(start);
    }

    ghost predicate Consistent()
      reads this
    {
      Init(start) && IsRun(start, trace) && After(start, trace) == world && Inv(world)
    }

    method Do(e: Event)
      requires Consistent() && Enabled(world, e)
      modifies this
      ensures Consistent()
      ensures world == Apply(old(world), e) && trace == old(trace) + [e]
    {
      StepKeepsInv(world, e);
      RunExtends(start, trace, e);
      world, trace := Apply(world, e), trace + [e];
    }

    /** Other processes, children and users run for a while. */
    method Interfere(p: Pid)
      requires Consistent() && p in world.procs
      modifies this
      ensures Consistent() && Undisturbed(old(world), world, p)
      ensures OwnPart(trace, p) == OwnPart(old(trace), p) && old(trace) <= trace
    {
      var schedule: seq<Event> := *;
      var i := 0;
      while i < |schedule|
        invariant Consistent() && Undisturbed(old(world), world, p)
        invariant OwnPart(trace, p) == OwnPart(old(trace), p) && old(trace) <= trace
      {
        if Enabled(world, schedule[i]) && Foreign(schedule[i], p) {
          if schedule[i].p == p { ChildDoesNotDisturb(world, schedule[i]); } else { OtherProcessDoesNotDisturb(world, schedule[i], p); }
          ghost var before := world;
          OwnPartExtends(trace, schedule[i], p);
          Do(schedule[i]);
          UndisturbedTrans(old(world), before, world, p);
        }
        i := i + 1;
      }
    }
  }

  lemma InitIsInv(w: World)
    requires Init(w)
    ensures Inv(w)
  {
  }

  /** After k of its steps the run was in a state in which the drive was quiet. */
  ghost predicate QuietAt(start: World, trace: seq<Event>, k: nat, d: DriveId) {
    k <= |trace| && IsRun(start, trace[..k]) && Quiet(After(start, trace[..k]), d)
  }

  /** From then on no process has registered a child for the drive. */
  ghost predicate NoChildSince(start: World, trace: seq<Event>, k: nat, d: DriveId)
    requires IsRun(start, trace) && QuietAt(start, trace, k, d)
  {
    RunSplits(start, trace, k);
    NeverRegistersChild(After(start, trace[..k]), trace[k..], d)
  }

  /** A drive found quiet is still quiet unless some process has registered a child for it meanwhile. */
  ghost predicate QuietSince(start: World, trace: seq<Event>, k: nat, d: DriveId) {
    && IsRun(start, trace) && QuietAt(start, trace, k, d)
    && (NoChildSince(start, trace, k, d) ==> Quiet(After(start, trace), d))
  }

  lemma FoundQuiet(start: World, trace: seq<Event>, k: nat, d: DriveId)
    requires IsRun(start, trace) && QuietAt(start, trace, k, d)
    ensures QuietSince(start, trace, k, d)
  {
    RunSplits(start, trace, k);
    QuietUntilNextChild(After(start, trace[..k]), trace[k..], d);
  }

  lemma QuietAtStays(start: World, trace: seq<Event>, longer: seq<Event>, k: nat, d: DriveId)
    requires QuietAt(start, trace, k, d) && trace <= longer
    ensures QuietAt(start, longer, k, d)
  {
    assert longer[..k] == trace[..k];
  }

  /** The saved drives of one profile, or all of them. */
  function DrivesOf(table: map<DriveId, Binding>, profile: Option<nat>): (ds: set<DriveId>)
    ensures forall d :: d in ds <==> d in table && (profile.Some? ==> table[d].profile == profile.value)
  {
    set d | d in table && (profile.None? || table[d].profile == profile.value)
  }

  /** After k of its steps the run was in a state with this table of saved drives. */
  ghost predicate TableAt(start: World, trace: seq<Event>, k: nat, table: map<DriveId, Binding>) {
    k <= |trace| && IsRun(start, trace[..k]) && After(start, trace[..k]).table == table
  }

  /** What the invariant says about a drive this process has mounted and is not dropping. */
  lemma OwnedDrive(w: World, p: Pid, d: DriveId)
    requires Inv(w) && p in w.procs && d in w.procs[p].mounts && w.procs[p].pc != Releasing(d)
    ensures DiskOf(w, d).lease == Some(p) && DiskOf(w, d).marker == Present(w.procs[p].mounts[d].binding)
    ensures forall x | x in DiskOf(w, d).unsent :: x.binding == w.procs[p].mounts[d].binding
  {
    assert LeaseExact(w, p, d) && MountOk(w, p, d);
    assert Covered(w.disks[d]);
  }

  /** In the middle of an operation on a drive, the process holds the drive's lease. */
  lemma HeldMidway(w: World, p: Pid)
    requires Inv(w) && p in w.procs && !w.procs[p].pc.Idle? && !w.procs[p].pc.Opening?
    ensures Holds(w, p, w.procs[p].pc.d) && DiskOf(w, w.procs[p].pc.d).lease == Some(p)
    ensures var pc := w.procs[p].pc;
      pc.Exited? || pc.Releasing? || (pc.Clean? && pc.owned) <==> pc.d in w.procs[p].mounts
    ensures w.procs[p].pc.d in w.procs[p].mounts ==> !w.procs[p].mounts[w.procs[p].pc.d].alive
  {
    assert PcOk(w, p) && LeaseExact(w, p, w.procs[p].pc.d);
  }

  lemma UnheldDrive(w: World, p: Pid, d: DriveId)
    requires Inv(w) && !Holds(w, p, d)
    ensures DiskOf(w, d).lease != Some(p)
  {
    assert LeaseExact(w, p, d);
  }

  lemma NoDirectoryMeansQuiet(w: World, d: DriveId)
    requires Inv(w) && d !in w.disks
    ensures Quiet(w, d)
  {
    forall q | q in w.procs ensures d !in w.procs[q].mounts {
      assert LeaseExact(w, q, d);
    }
  }

  ghost predicate StateAt(start: World, trace: seq<Event>, found: Found) {
    found.at <= |trace| && IsRun(start, trace[..found.at]) && After(start, trace[..found.at]) == found.world
  }

  lemma NowState(machine: Machine)
    requires machine.Consistent()
    ensures StateAt(machine.start, machine.trace, Found(|machine.trace|, machine.world))
  {
    assert machine.trace[..|machine.trace|] == machine.trace;
  }

  lemma StateAtStays(start: World, trace: seq<Event>, longer: seq<Event>, found: Found)
    requires StateAt(start, trace, found) && trace <= longer
    ensures StateAt(start, longer, found)
  {
    assert longer[..found.at] == trace[..found.at];
  }

  // ---- what an error may be put down to --------------------------------------------------------

  /** Some process has the lease of an existing directory. */
  predicate LeaseTaken(w: World, d: DriveId) {
    d in w.disks && w.disks[d].lease.Some?
  }

  predicate ChildAlive(w: World, p: Pid, d: DriveId) {
    p in w.procs && d in w.procs[p].mounts && w.procs[p].mounts[d].alive
  }

  predicate ChildDead(w: World, p: Pid, d: DriveId) {
    p in w.procs && d in w.procs[p].mounts && !w.procs[p].mounts[d].alive
  }

  /** The last look at the cache found it dirty. */
  predicate EndsDirty(d: DriveId, steps: seq<Step>) {
    EndsWith(steps, [Inspect(d, false)]) || EndsWith(steps, [Inspect(d, false), GiveUp])
  }

  /**
    Why a disconnect may fail: one of its calls raised, which a drain reports as cached data pending; or the lease
    was taken, the child did not exit in time, or the last look at the cache was dirty.
   */
  predicate StopExcused(p: Pid, d: DriveId, r: Outcome, steps: seq<Step>, raised: seq<DriveError>, seen: Option<World>) {
    if r.Ok? then raised == []
    else if raised != [] then |raised| == 1 && (r.error == raised[0] || r.error == CachePending)
    else
      || (seen.Some? && r.error == OwnedElsewhere && LeaseTaken(seen.value, d))
      || (seen.Some? && (r.error == ProcessFailed || r.error == CachePending) && ChildAlive(seen.value, p, d))
      || (r.error == CachePending && EndsDirty(d, steps))
  }

  /** The marker belongs to another binding, or cannot be read. */
  predicate MarkerInTheWay(w: World, d: DriveId, b: Binding, error: DriveError) {
    d in w.disks && (w.disks[d].marker.Corrupt? || (w.disks[d].marker.Present? && w.disks[d].marker.binding != b))
    && error == if w.disks[d].marker.Corrupt? then ProcessFailed else CachePending
  }

  /** Why a connect may fail: one of its calls raised; or the lease or the marker was in the way, or the child died. */
  predicate MountExcused(p: Pid, d: DriveId, b: Binding, r: Outcome, raised: seq<DriveError>, seen: Option<World>) {
    if r.Ok? then raised == []
    else if raised != [] then raised == [r.error]
    else seen.Some? && InTheWay(p, d, b, r.error, seen.value)
  }

  predicate InTheWay(p: Pid, d: DriveId, b: Binding, error: DriveError, w: World) {
    || (error == OwnedElsewhere && LeaseTaken(w, d)) || MarkerInTheWay(w, d, b, error)
    || (error == ProcessFailed && ChildDead(w, p, d))
  }

  /** The steps of an edit check under the lease: the cache is looked at only if there is no marker. */
  function LookSteps(d: DriveId, marker: Marker, clean: bool): seq<Step> {
    [TakeProbe(d)] + (if marker.Absent? then [Inspect(d, clean)] else []) + [EndProbe]
  }

  predicate Looked(d: DriveId, r: Outcome, steps: seq<Step>, marker: Marker, clean: bool) {
    steps == LookSteps(d, marker, clean) && r == if marker.Absent? && clean then Ok(()) else Err(CachePending)
  }

  /**
    The whole edit check: a drive mounted here is refused; one without a directory passes; without the lease it is
    refused; and under the lease it passes exactly if there is no marker and the look at the cache was clean.
   */
  ghost predicate IsEditCheck(d: DriveId, r: Outcome, steps: seq<Step>, raised: seq<DriveError>, mounted: bool, w: World) {
    if mounted then r == Err(Active) && steps == [] && raised == []
    else if d !in w.disks then r.Ok? && steps == [] && raised == []
    else if steps == [] then r == Err(OwnedElsewhere) && (raised == [OwnedElsewhere] || (raised == [] && LeaseTaken(w, d)))
    else raised == [] && exists clean :: Looked(d, r, steps, w.disks[d].marker, clean)
  }

  lemma StillDirty(d: DriveId, before: seq<Step>, steps: seq<Step>)
    requires EndsDirty(d, steps)
    ensures EndsDirty(d, before + steps)
  {
  }

  lemma Tail<T>(before: seq<T>, more: seq<T>)
    ensures (before + more)[|before|..] == more
  {
  }

  lemma NowQuiet(machine: Machine, d: DriveId)
    requires machine.Consistent() && Quiet(machine.world, d)
    ensures QuietAt(machine.start, machine.trace, |machine.trace|, d)
  {
    assert machine.trace[..|machine.trace|] == machine.trace;
  }

  /** What a step other than a crash leaves of one cache directory. */
  function DiskAfter(w: World, e: Event, d: DriveId): Disk
    requires Enabled(w, e)
  {
    var next := NextDisk(w, e);
    if next.Some? && next.value.0 == d then next.value.1 else DiskOf(w, d)
  }

  lemma PartsAfter(w: World, e: Event)
    requires Enabled(w, e) && !e.step.Crash?
    ensures e.p in Apply(w, e).procs && Apply(w, e).procs[e.p] == Proc(NextMounts(w, e), NextPc(w, e))
    ensures forall d :: DiskOf(Apply(w, e), d) == DiskAfter(w, e, d)
  {
    hide NextMounts, NextPc, NextDisk, NextTable, NextSent, Enabled;
  }

  lemma InspectingChangesNothing(w: World, e: Event)
    requires Enabled(w, e) && e.step.Inspect?
    ensures Apply(w, e) == w
  {
    assert w.procs[e.p := w.procs[e.p]] == w.procs;
  }

  /** The steps of looking at the cache and clearing the marker of a drive, owned or not. */
  function ClearSteps(d: DriveId, owned: bool, clean: bool, removed: bool): seq<Step> {
    [Inspect(d, clean)] + if clean then [ReadClean, if removed then Unlink else GiveUp] else if owned then [ReadDirty] else []
  }

  /** The steps that end a mount: the marker goes exactly if the cache reads clean, then the lease. */
  function FinishSteps(d: DriveId, clean: bool): seq<Step> {
    ClearSteps(d, true, clean, true) + [Release]
  }

  /** The steps of mounting a drive. */
  function MountSteps(d: DriveId): seq<Step> {
    [TakeLease, BeginMarker, EndMarker, Register, SetMounted(d, true)]
  }

  predicate EndsWith(steps: seq<Step>, tail: seq<Step>) {
    |tail| <= |steps| && steps[|steps| - |tail|..] == tail
  }

  /** One process's mount adapter.  `pid` is the process, `mounts` its registered children. */
  class RcloneDriveMount {
    const pid: Pid
    const machine: Machine
    var mounts: map<DriveId, MountRecord>
    ghost var did: seq<Step>  // the steps this process has taken
    ghost var rows: seq<Step> // those of them that changed the saved drives
    ghost var stops: seq<Stopped>   // its disconnects
    ghost var raised: seq<DriveError>   // what calls out of this code have raised
    ghost var found: Found          // the last state in which it looked for something in its way
    ghost var letterFree: bool      // what it was last told about the letter of a live mount

    constructor (pid: Pid, machine: Machine)
      requires machine.Consistent() && pid in machine.world.procs && machine.world.procs[pid] == Proc(map[], Idle)
      ensures Consistent() && this.pid == pid && this.machine == machine && mounts == map[]
    {
      this.pid, this.machine, this.mounts := pid, machine, map[];
      this.did, this.rows, this.stops, this.raised := OwnPart(machine.trace, pid), [], [], [];
      this.found, this.letterFree := Found(0, machine.world), false;
    }

    /** `available_letters`, of the letter of a live mount. */
    method LetterIsFree() returns (free: bool)
      modifies this`letterFree
      ensures letterFree == free
    {
      free := *;
      letterFree := free;
    }

    /** A call that may raise this error. */
    method Try(error: DriveError) returns (ok: bool)
      modifies this`raised
      ensures raised == if ok then old(raised) else old(raised) + [error]
    {
      ok := *;
      if !ok { raised := raised + [error]; }
    }

    /** The present state is the one in which the code decides. */
    method Notice()
      requires machine.Consistent()
      modifies this`found
      ensures found == Found(|machine.trace|, machine.world) && StateAt(machine.start, machine.trace, found)
    {
      NowState(machine);
      found := Found(|machine.trace|, machine.world);
    }

    method NoticeHere()
      requires Consistent()
      modifies this`found
      ensures Consistent() && found == Found(|machine.trace|, machine.world) && StateAt(machine.start, machine.trace, found)
    {
      Notice();
    }

    lemma StillNoticed(past: seq<Event>, from: nat)
      requires from <= found.at && StateAt(machine.start, past, found) && past <= machine.trace
      ensures Noticed(from)
    {
      StateAtStays(machine.start, past, machine.trace, found);
    }

    /** A connect of d to b ended like this; `raisedBefore` had been raised before, and the run had `from` steps. */
    ghost predicate MountEnded(d: DriveId, b: Binding, r: Outcome, raisedBefore: seq<DriveError>, from: nat)
      reads this`raised, this`found, machine
    {
      raisedBefore <= raised
      && MountExcused(pid, d, b, r, raised[|raisedBefore|..], if Noticed(from) then Some(found.world) else None)
    }

    lemma MountRaised(d: DriveId, b: Binding, error: DriveError, raisedBefore: seq<DriveError>, from: nat)
      requires raised == raisedBefore + [error]
      ensures MountEnded(d, b, Err(error), raisedBefore, from)
    {
      Tail(raisedBefore, [error]);
    }

    lemma MountEndedEarlier(d: DriveId, b: Binding, r: Outcome, raisedBefore: seq<DriveError>, from: nat, earlier: nat)
      requires MountEnded(d, b, r, raisedBefore, from) && earlier <= from
      ensures MountEnded(d, b, r, raisedBefore, earlier)
    {
    }

    /** A disconnect of d ended like this; these steps and errors were there before, and the run had `from` steps. */
    ghost predicate StopEnded(d: DriveId, r: Outcome, before: seq<Step>, raisedBefore: seq<DriveError>, from: nat)
      reads this`did, this`raised, this`found, machine
    {
      before <= did && raisedBefore <= raised
      && StopExcused(pid, d, r, did[|before|..], raised[|raisedBefore|..], if Noticed(from) then Some(found.world) else None)
    }

    lemma StopRaised(d: DriveId, r: Outcome, cause: DriveError, before: seq<Step>, raisedBefore: seq<DriveError>, from: nat)
      requires before <= did && raised == raisedBefore + [cause] && r.Err? && (r.error == cause || r.error == CachePending)
      ensures StopEnded(d, r, before, raisedBefore, from)
    {
      Tail(raisedBefore, [cause]);
    }

    lemma StopSucceeded(d: DriveId, r: Outcome, before: seq<Step>, raisedBefore: seq<DriveError>, from: nat)
      requires before <= did && raised == raisedBefore && r.Ok?
      ensures StopEnded(d, r, before, raisedBefore, from)
    {
    }

    lemma StopDirty(d: DriveId, before: seq<Step>, more: seq<Step>, raisedBefore: seq<DriveError>, from: nat)
      requires did == before + more && EndsDirty(d, more) && raised == raisedBefore
      ensures StopEnded(d, Err(CachePending), before, raisedBefore, from)
    {
      Tail(before, more);
    }

    lemma StopOnlyAdds(d: DriveId, r: Outcome, before: seq<Step>, raisedBefore: seq<DriveError>, from: nat)
      requires StopEnded(d, r, before, raisedBefore, from)
      ensures before <= did && raisedBefore <= raised
    {
    }

    lemma StopEndedEarlier(
      d: DriveId, r: Outcome, before: seq<Step>, earlierSteps: seq<Step>, raisedBefore: seq<DriveError>, from: nat, earlier: nat)
      requires StopEnded(d, r, before, raisedBefore, from) && earlierSteps <= before && earlier <= from
      ensures StopEnded(d, r, earlierSteps, raisedBefore, earlier)
    {
      var more := before[|earlierSteps|..];
      assert did[|earlierSteps|..] == more + did[|before|..];
      if EndsDirty(d, did[|before|..]) { StillDirty(d, more, did[|before|..]); }
    }

    /** What was found was the state of the run at some point not before `from`. */
    ghost predicate Noticed(from: nat)
      reads this`found, machine
    {
      from <= found.at && StateAt(machine.start, machine.trace, found)
    }

    ghost predicate Linked()
      reads this`did, machine
    {
      machine.Consistent() && pid in machine.world.procs && did == OwnPart(machine.trace, pid)
    }

    /** The machine is in order and `mounts` mirrors what the protocol knows of this process. */
    ghost predicate Consistent()
      reads this`did, this`mounts, machine
    {
      Linked() && mounts.Keys == machine.world.procs[pid].mounts.Keys && Mirrors(mounts, machine.world.procs[pid].mounts)
    }

    function At(): Pc
      requires pid in machine.world.procs
      reads machine
    {
      machine.world.procs[pid].pc
    }

    function Disk(d: DriveId): Disk
      reads machine
    {
      DiskOf(machine.world, d)
    }

    method Act(step: Step)
      requires Linked() && !OfChild(step) && step != Crash && !ChangesRows(step) && Enabled(machine.world, Event(pid, step))
      modifies machine, this`did
      ensures Linked() && did == old(did) + [step] && machine.trace == old(machine.trace) + [Event(pid, step)]
      ensures machine.world == Apply(old(machine.world), Event(pid, step))
    {
      hide Inv, IsRun, After, Init, OwnPart, Enabled, Apply, NextPc, NextMounts, DiskAfter, Mirrors;
      PartsAfter(machine.world, Event(pid, step));
      OwnPartExtends(machine.trace, Event(pid, step), pid);
      machine.Do(Event(pid, step));
      did := did + [step];
    }

    /** A statement against the table of saved drives. */
    method ChangeRow(step: Step)
      requires Linked() && ChangesRows(step) && Enabled(machine.world, Event(pid, step))
      modifies machine, this`did, this`rows
      ensures Linked() && did == old(did) + [step] && rows == old(rows) + [step]
      ensures machine.trace == old(machine.trace) + [Event(pid, step)]
      ensures machine.world == Apply(old(machine.world), Event(pid, step))
    {
      OwnPartExtends(machine.trace, Event(pid, step), pid);
      machine.Do(Event(pid, step));
      did, rows := did + [step], rows + [step];
    }

    lemma Owned(d: DriveId)
      requires Consistent() && d in mounts && At() != Releasing(d)
      ensures Disk(d).lease == Some(pid) && Disk(d).marker == Present(mounts[d].binding)
      ensures forall x | x in Disk(d).unsent :: x.binding == mounts[d].binding
    {
      OwnedDrive(machine.world, pid, d);
    }

    lemma HeldNow()
      requires Consistent() && !At().Idle? && !At().Opening?
      ensures Holds(machine.world, pid, At().d) && Disk(At().d).lease == Some(pid)
      ensures At().Exited? || At().Releasing? || (At().Clean? && At().owned) <==> At().d in mounts
      ensures At().d in mounts ==> !machine.world.procs[pid].mounts[At().d].alive
    {
      HeldMidway(machine.world, pid);
    }

    lemma NotOwned(d: DriveId)
      requires Consistent() && At().Idle? && d !in mounts
      ensures Disk(d).lease != Some(pid)
    {
      UnheldDrive(machine.world, pid, d);
    }

    // ---- calls whose outcome the rest of the machine decides ------------------------------------

    /** Time passes; what this process has stored about a drive it holds does not change. */
    method Wait(d: DriveId)
      requires Consistent()
      modifies machine
      ensures Consistent() && At() == old(At()) && old(machine.trace) <= machine.trace
      ensures old(Holds(machine.world, pid, d)) ==> Disk(d).marker == old(Disk(d).marker)
      ensures old(HoldsByPc(At(), d)) ==> Disk(d).unsent == old(Disk(d).unsent)
      ensures d in mounts && !old(machine.world.procs[pid].mounts[d].alive) ==>
        !machine.world.procs[pid].mounts[d].alive && Disk(d).unsent == old(Disk(d).unsent)
    {
      assert HoldsByPc(At(), d) ==> d !in mounts by {
        assert PcOk(machine.world, pid);
      }
      machine.Interfere(pid);
    }

    /** `process.wait`: true if the child's exit was seen in time. */
    method WaitForExit(d: DriveId) returns (exited: bool)
      requires Consistent() && At().Idle? && d in mounts
      modifies machine, this`did, this`found
      ensures !exited ==> Noticed(|old(machine.trace)|) && ChildAlive(found.world, pid, d)
      ensures Consistent() && did == old(did) + (if exited then [SeeExit(d)] else []) && Longer(old(machine.trace))
      ensures At() == if exited then Exited(d) else Idle
    {
      hide Inv, IsRun, After, Init, OwnPart, Machine.Consistent;
      Wait(d);
      exited := !machine.world.procs[pid].mounts[d].alive;
      if exited {
        Act(SeeExit(d));
      } else {
        NoticeHere();
      }
    }

    /** The run goes on. */
    ghost predicate Longer(before: seq<Event>)
      reads machine
    {
      before <= machine.trace
    }

    /** What the cache directory may look like now: its metadata is honest about data that is still to be sent. */
    method Files(d: DriveId) returns (cache: DriveCache.Cache)
      ensures DriveCache.Honest(cache) && (Disk(d).unsent != {} ==> cache.unsent != {})
    {
      cache := *;
      if !DriveCache.Honest(cache) || (Disk(d).unsent != {} && cache.unsent == {}) {
        cache := DriveCache.Cache(None, {"cached"}, {"cached"});
      }
    }

    /** `cache_is_dirty`: certain about unsent data, free to see dirt where there is none. */
    method CacheIsDirty(d: DriveId) returns (dirty: bool, ghost cache: DriveCache.Cache, ghost unreadable: bool)
      requires Consistent()
      modifies machine, this`did
      ensures Consistent() && did == old(did) + [Inspect(d, !dirty)]
      ensures machine.trace == old(machine.trace) + [Event(pid, Inspect(d, !dirty))]
      ensures !dirty ==> Disk(d).unsent == {}
      ensures machine.world == old(machine.world)
      ensures DriveCache.Honest(cache) && (Disk(d).unsent != {} ==> cache.unsent != {}) && (!dirty <==> DriveCache.ReadsClean(cache, unreadable))
    {
      hide Inv, IsRun, After, Init, OwnPart, Mirrors;
      var fails: bool := *;
      var files := Files(d);
      dirty := DriveCache.CacheIsDirty(files, fails);
      cache, unreadable := files, fails;
      Act(Inspect(d, !dirty));
      InspectingChangesNothing(old(machine.world), Event(pid, Inspect(d, !dirty)));
    }

    // ---- _clear_clean_pending and _release -------------------------------------------------------

    /** `marker.unlink`, after the cache read clean. */
    method RemoveMarker(d: DriveId) returns (removed: bool)
      requires Consistent() && At().Clean? && At().d == d && Disk(d).unsent == {}
      modifies machine, this`did, this`raised
      ensures Consistent() && Longer(old(machine.trace)) && did == old(did) + [if removed then Unlink else GiveUp]
      ensures raised == old(raised) + if removed then [] else [CachePending]
      ensures At() == if !old(At()).owned then Probing(d) else if removed then Releasing(d) else Idle
      ensures Disk(d).marker == if removed then Absent else old(Disk(d).marker)
      ensures Disk(d).unsent == {}
    {
      hide Inv, IsRun, After, Init, OwnPart, Mirrors, Machine.Consistent;
      HeldNow();
      Wait(d);
      removed := Try(CachePending);
      if removed { Act(Unlink); } else { Act(GiveUp); }
    }

    /** Remove the marker exactly if the cache reads clean; an owned drive moves on to its release. */
    method ClearCleanPending(d: DriveId) returns (r: Outcome, ghost sawClean: bool)
      requires Consistent() && (At() == Exited(d) || At() == Probing(d))
      modifies machine, this`did, this`raised
      ensures Consistent() && Longer(old(machine.trace)) && raised == old(raised) + if r.Err? then [r.error] else []
      ensures did == old(did) + ClearSteps(d, old(At()).Exited?, sawClean, r.Ok?)
      ensures r.Ok? && old(At()).Exited? ==> At() == Releasing(d)
      ensures r.Err? && old(At()).Exited? ==> At() == Idle
      ensures old(At()).Probing? ==> At() == old(At())
      ensures Disk(d).marker == if r.Ok? && sawClean then Absent else old(Disk(d).marker)
      ensures sawClean ==> Disk(d).unsent == {}
      ensures r.Err? ==> sawClean && r.error == CachePending
    {
      hide Inv, IsRun, After, Init, OwnPart, Mirrors, Machine.Consistent;
      var dirty, cache, unreadable := CacheIsDirty(d);
      sawClean := !dirty;
      if dirty {
        r := Ok(());
        if At().Exited? { Act(ReadDirty); }
      } else {
        Act(ReadClean);
        var removed := RemoveMarker(d);
        r := if removed then Ok(()) else Err(CachePending);
      }
    }

    /** `_release`: give up the lease and forget the child. */
    method Drop(d: DriveId)
      requires Consistent() && (At() == Releasing(d) || (At().Opening? && At().d == d && d in mounts))
      modifies machine, this`mounts, this`did
      ensures Consistent() && mounts == old(mounts) - {d} && Disk(d) == old(Disk(d)).(lease := None)
      ensures At() == if old(At()).Releasing? then Idle else old(At())
      ensures did == old(did) + [if old(At()).Releasing? then Release else DropMount(d)] && Longer(old(machine.trace))
    {
      hide Inv, IsRun, After, Init, OwnPart, Machine.Consistent;
      Act(if At().Releasing? then Release else DropMount(d));
      mounts := mounts - {d};
    }

    /** `with self._lease(root)`: hold the lease of an existing directory for a check. */
    method Hold(d: DriveId)
      requires Consistent() && At().Idle? && d !in mounts && d in machine.world.disks && Disk(d).lease.None?
      modifies machine, this`did
      ensures Consistent() && At() == Probing(d) && did == old(did) + [TakeProbe(d)] && old(machine.trace) <= machine.trace
    {
      hide Inv, IsRun, After, Init, OwnPart, Mirrors, Machine.Consistent;
      Act(TakeProbe(d));
      Wait(d);
    }

    method LetGo()
      requires Consistent() && At().Probing?
      modifies machine, this`did
      ensures Consistent() && At().Idle? && did == old(did) + [EndProbe] && old(machine.trace) <= machine.trace
      ensures Disk(old(At()).d) == old(Disk(At().d)).(lease := None)
    {
      hide Inv, IsRun, After, Init, OwnPart, Mirrors, Machine.Consistent;
      Act(EndProbe);
    }

    // ---- assert_editable -------------------------------------------------------------------------

    /**
      Succeeds only if during the call, after `at` steps of the run, the drive was quiet; and refuses for no other
      reason than those it looks for.
     */
    method AssertEditable(d: DriveId) returns (r: Outcome, ghost at: nat)
      requires Consistent() && At().Idle?
      modifies machine, this`did, this`raised, this`found
      ensures Consistent() && At().Idle? && old(machine.trace) <= machine.trace
      ensures r.Ok? ==> d !in mounts && |old(machine.trace)| <= at && QuietAt(machine.start, machine.trace, at, d)
      ensures old(did) <= did && old(raised) <= raised && Noticed(|old(machine.trace)|)
      ensures IsEditCheck(d, r, did[|old(did)|..], raised[|old(raised)|..], d in mounts, found.world)
    {
      hide Inv, IsRun, After, Init, OwnPart, Mirrors, QuietAt, StateAt, Machine.Consistent;
      ghost var did0, raised0 := did, raised;
      NoticeHere();
      at := found.at;
      if d in mounts { return Err(Active), at; }
      Wait(d);
      NoticeHere();
      at := found.at;
      if d !in machine.world.disks {
        QuietWithoutDirectory(d);
        return Ok(()), at;
      }
      var free := Try(OwnedElsewhere);
      if !free || Disk(d).lease.Some? {
        Tail(raised0, if free then [] else [OwnedElsewhere]);
        return Err(OwnedElsewhere), at;
      }
      ghost var before, clean := machine.trace, false;
      Hold(d);
      r, at, clean := LookUnderLease(d);
      ghost var steps := LookSteps(d, found.world.disks[d].marker, clean);
      Tail(did0, steps);
      assert did == did0 + steps && Looked(d, r, steps, found.world.disks[d].marker, clean);
    }

    /** The edit check after these steps refused like this. */
    ghost predicate Refused(d: DriveId, error: DriveError, before: seq<Step>, raisedBefore: seq<DriveError>, from: nat)
      reads this`did, this`raised, this`found, this`mounts, machine
    {
      && before <= did && raisedBefore <= raised && Noticed(from)
      && IsEditCheck(d, Err(error), did[|before|..], raised[|raisedBefore|..], d in mounts, found.world)
    }

    lemma CheckRefused(d: DriveId, r: Outcome, before: seq<Step>, raisedBefore: seq<DriveError>)
      requires before <= did && raisedBefore <= raised && r.Err?
      requires IsEditCheck(d, r, did[|before|..], raised[|raisedBefore|..], d in mounts, found.world)
      ensures forall from | Noticed(from) :: Refused(d, r.error, before, raisedBefore, from)
    {
    }

    lemma CheckPassed(d: DriveId, r: Outcome, before: seq<Step>, raisedBefore: seq<DriveError>)
      requires before <= did && raisedBefore <= raised && r.Ok?
      requires IsEditCheck(d, r, did[|before|..], raised[|raisedBefore|..], d in mounts, found.world)
      ensures raised == raisedBefore
    {
    }

    lemma QuietWithoutDirectory(d: DriveId)
      requires Consistent() && d !in machine.world.disks
      ensures QuietAt(machine.start, machine.trace, |machine.trace|, d)
    {
      NoDirectoryMeansQuiet(machine.world, d);
      NowQuiet(machine, d);
    }

    /** The drive's lease is held: neither marker nor dirt may be there. */
    method LookUnderLease(d: DriveId) returns (r: Outcome, ghost at: nat, ghost clean: bool)
      requires Consistent() && At() == Probing(d) && d !in mounts
      modifies machine, this`did, this`found
      ensures Consistent() && At().Idle? && old(machine.trace) <= machine.trace && Noticed(|old(machine.trace)|)
      ensures old(did) <= did && d in found.world.disks
      ensures [TakeProbe(d)] + did[|old(did)|..] == LookSteps(d, found.world.disks[d].marker, clean)
      ensures r == if found.world.disks[d].marker.Absent? && clean then Ok(()) else Err(CachePending)
      ensures r.Ok? ==> |old(machine.trace)| <= at && QuietAt(machine.start, machine.trace, at, d)
    {
      hide Inv, IsRun, After, Init, OwnPart, Mirrors, QuietAt, StateAt;
      HeldNow();
      NoticeHere();
      at, clean := found.at, false;
      ghost var did0, past := did, machine.trace;
      r := Err(CachePending);
      if Disk(d).marker.Absent? {
        EditCheckFindsQuietDrive(machine.start, machine.trace, pid, d);
        NowQuiet(machine, d);
        var dirty, cache, unreadable := CacheIsDirty(d);
        clean := !dirty;
        r := if dirty then Err(CachePending) else Ok(());
      }
      LetGo();
      StateAtStays(machine.start, past, machine.trace, found);
      if r.Ok? { QuietAtStays(machine.start, past, machine.trace, at, d); }
      Tail(did0, (if found.world.disks[d].marker.Absent? then [Inspect(d, clean)] else []) + [EndProbe]);
    }

    // ---- connect ---------------------------------------------------------------------------------

    /**
      Mount drive d, whose saved binding b this operation has read.  A live mount is kept; anything else of the
      drive's is dropped and it is mounted anew.  It fails only for one of the reasons that MountExcused lists.
     */
    method Connect(d: DriveId, b: Binding) returns (r: Outcome)
      requires Consistent() && At() == Opening(d, b)
      modifies machine, this`mounts, this`did, this`raised, this`found
      ensures Consistent() && At().Idle? && mounts - {d} == old(mounts) - {d} && Longer(old(machine.trace))
      ensures r.Ok? ==> d in mounts && mounts[d].mounted
      ensures r.Ok? ==> Disk(d).marker == Present(mounts[d].binding) && Disk(d).lease == Some(pid)
      ensures r.Ok? ==> forall x | x in Disk(d).unsent :: x.binding == mounts[d].binding
      ensures r.Ok? && d !in old(mounts) ==> mounts[d].binding == b && mounts[d].state.Connected?
      ensures d !in mounts ==> Disk(d).lease != Some(pid)
      ensures MountEnded(d, b, r, old(raised), |old(machine.trace)|)
      ensures old(IsLive(d)) ==> d in mounts && mounts[d].binding == old(mounts)[d].binding && did == old(did) + [Forget]
      ensures !old(IsLive(d)) && r.Ok? ==> mounts[d].binding == b && did == old(did) + (if d in old(mounts) then [DropMount(d)] else []) + MountSteps(d)
    {
      hide Inv, IsRun, After, Init, OwnPart, Mirrors, Machine.Consistent, StateAt, MountExcused, MountSteps;
      var existing := d in mounts && machine.world.procs[pid].mounts[d].alive && mounts[d].mounted;
      if existing {
        r := RefreshCredentials(d, b);
      } else {
        ghost var dropped := if d in mounts then [DropMount(d)] else [];
        ghost var did0, raised0, from := did, raised, |machine.trace|;
        if d in mounts { Drop(d); }
        assert did == did0 + dropped;
        ghost var later := |machine.trace|;
        r := Mount(d, b);
        MountEndedEarlier(d, b, r, raised0, later, from);
      }
      if d in mounts {
        Owned(d);
      } else {
        NotOwned(d);
      }
    }

    /** The drive is mounted here and its child runs. */
    predicate IsLive(d: DriveId)
      reads this`mounts, machine
    {
      d in mounts && pid in machine.world.procs && d in machine.world.procs[pid].mounts && machine.world.procs[pid].mounts[d].alive && mounts[d].mounted
    }

    method RefreshCredentials(d: DriveId, ghost b: Binding) returns (r: Outcome)
      requires Consistent() && At().Opening? && At().d == d && d in mounts && mounts[d].mounted
      modifies machine, this`mounts, this`did, this`raised
      ensures Consistent() && At().Idle? && mounts - {d} == old(mounts) - {d} && d in mounts && Longer(old(machine.trace))
      ensures mounts[d] == old(mounts)[d].(error := if r.Ok? then None else old(mounts)[d].error) && did == old(did) + [Forget]
      ensures r == Err(ControlFailed) || r.Ok?
      ensures raised == old(raised) + if r.Err? then [ControlFailed] else []
      ensures MountEnded(d, b, r, old(raised), |old(machine.trace)|)
    {
      hide Inv, IsRun, After, Init, OwnPart, Mirrors, Machine.Consistent, StateAt;
      ghost var raised0, from := raised, |machine.trace|;
      Wait(d);
      var answered := Try(ControlFailed);
      Act(Forget);
      if answered {
        Note(d, mounts[d].state, None);
        r := Ok(());
      } else {
        r := Err(ControlFailed);
        MountRaised(d, b, ControlFailed, raised0, from);
      }
    }

    /** Lease, marker, child and mount request, in this order. */
    method Mount(d: DriveId, b: Binding) returns (r: Outcome)
      requires Consistent() && At() == Opening(d, b) && d !in mounts
      modifies machine, this`mounts, this`did, this`raised, this`found
      ensures Consistent() && At().Idle? && mounts - {d} == old(mounts) && Longer(old(machine.trace))
      ensures r.Ok? ==> did == old(did) + MountSteps(d)
      ensures r.Ok? ==> d in mounts && mounts[d].mounted && mounts[d].binding == b && mounts[d].state.Connected?
      ensures MountEnded(d, b, r, old(raised), |old(machine.trace)|)
    {
      hide Inv, IsRun, After, Init, OwnPart, Machine.Consistent, Mirrors, StateAt, MountExcused;
      ghost var raised0, from := raised, |machine.trace|;
      r := Prepare(d, b);
      if r.Ok? {
        Wait(d);
        var spawned := Try(ProcessFailed);
        if spawned {
          Adopt(d, b);
          ghost var later := |machine.trace|;
          r := BringUp(d);
          MountEndedEarlier(d, b, r, raised0, later, from);
        } else {
          Act(Abandon);
          r := Err(ProcessFailed);
          MountRaised(d, b, ProcessFailed, raised0, from);
        }
      }
    }

    method Adopt(d: DriveId, b: Binding)
      requires Consistent() && At() == Marked(d, b)
      modifies machine, this`mounts, this`did
      ensures Consistent() && At().Idle? && mounts == old(mounts)[d := MountRecord(b, false, Connecting, None)]
      ensures did == old(did) + [Register] && Longer(old(machine.trace))
    {
      hide Inv, IsRun, After, Init, OwnPart, Machine.Consistent;
      Act(Register);
      mounts := mounts[d := MountRecord(b, false, Connecting, None)];
    }

    /** Everything before the child starts: runtime checks, lease, disk space, marker. */
    method Prepare(d: DriveId, b: Binding) returns (r: Outcome)
      requires Consistent() && At() == Opening(d, b) && d !in mounts
      modifies machine, this`did, this`raised, this`found
      ensures Consistent() && Longer(old(machine.trace))
      ensures At() == if r.Ok? then Marked(d, b) else Idle
      ensures r.Ok? ==> did == old(did) + [Step.TakeLease, Step.BeginMarker, EndMarker] && raised == old(raised)
      ensures MountEnded(d, b, r, old(raised), |old(machine.trace)|)
    {
      hide Inv, IsRun, After, Init, OwnPart, Mirrors, Machine.Consistent, StateAt, MountEnded, Enabled, Apply, Linked;
      ghost var raised0, from := raised, |machine.trace|;
      Wait(d);
      var refusal := Preflight(d);
      ghost var past := machine.trace;
      if refusal.Some? {
        r := Err(refusal.value);
        StopOpening(d, b);
        if raised == raised0 {
          StillNoticed(past, from);
          LeaseStands(d, b, raised0, from);
        } else {
          MountRaised(d, b, refusal.value, raised0, from);
        }
      } else {
        TakeLease(d, b);
        r := WriteMarker(d, b);
        MountEndedEarlier(d, b, r, raised0, |past| + 1, from);
      }
    }

    /** The saved drive is read. */
    method Open(d: DriveId)
      requires Consistent() && At().Idle? && d in machine.world.table
      modifies machine, this`did
      ensures Consistent() && Longer(old(machine.trace)) && At() == Opening(d, old(machine.world.table)[d]) && did == old(did) + [ReadRow(d)]
    {
      hide Inv, IsRun, After, Init, OwnPart, Mirrors, Machine.Consistent;
      Act(ReadRow(d));
    }

    method StopOpening(d: DriveId, b: Binding)
      requires Consistent() && At() == Opening(d, b)
      modifies machine, this`did
      ensures Consistent() && Longer(old(machine.trace)) && At().Idle? && did == old(did) + [Forget]
    {
      hide Inv, IsRun, After, Init, OwnPart, Mirrors, Machine.Consistent;
      Act(Forget);
    }

    method TakeLease(d: DriveId, b: Binding)
      requires Consistent() && At() == Opening(d, b) && d !in mounts && Disk(d).lease.None?
      modifies machine, this`did
      ensures Consistent() && machine.trace == old(machine.trace) + [Event(pid, Step.TakeLease)] && At() == Leased(d, b)
      ensures did == old(did) + [Step.TakeLease]
    {
      hide Inv, IsRun, After, Init, OwnPart, Mirrors, Machine.Consistent;
      Act(Step.TakeLease);
    }

    /** rclone, WinFsp, the drive letter and the lease, in this order. */
    method Preflight(d: DriveId) returns (refusal: Option<DriveError>)
      requires Consistent()
      modifies this`raised, this`found
      ensures Consistent() && (refusal.None? ==> raised == old(raised) && Disk(d).lease.None?)
      ensures refusal.Some? ==> if raised == old(raised) then
          refusal == Some(OwnedElsewhere) && found.at == |machine.trace| && StateAt(machine.start, machine.trace, found) && LeaseTaken(found.world, d)
        else raised == old(raised) + [refusal.value]
    {
      hide Inv, IsRun, After, Init, OwnPart, Mirrors, Machine.Consistent, StateAt;
      var rclone := Try(RuntimeMissing);
      if !rclone { return Some(RuntimeMissing); }
      var winfsp := Try(RuntimeMissing);
      if !winfsp { return Some(RuntimeMissing); }
      var letterFree := Try(LetterBusy);
      if !letterFree { return Some(LetterBusy); }
      var lockable := Try(OwnedElsewhere);
      if !lockable { return Some(OwnedElsewhere); }
      NoticeHere();
      refusal := if Disk(d).lease.Some? then Some(OwnedElsewhere) else None;
    }

    /** A marker of another binding, or an unreadable one, is never overwritten; any other is. */
    method WriteMarker(d: DriveId, b: Binding) returns (r: Outcome)
      requires Consistent() && At() == Leased(d, b)
      modifies machine, this`did, this`raised, this`found
      ensures Consistent() && Longer(old(machine.trace))
      ensures At() == if r.Ok? then Marked(d, b) else Idle
      ensures r.Ok? ==> did == old(did) + [Step.BeginMarker, EndMarker] && raised == old(raised)
      ensures old(Disk(d).marker) !in {Absent, Present(b)} ==>
        r == Err(if old(Disk(d).marker).Corrupt? then ProcessFailed else CachePending) || (r == Err(CacheFull) && raised == old(raised) + [CacheFull])
      ensures old(Disk(d).marker) !in {Absent, Present(b)} ==> Disk(d).marker == old(Disk(d).marker)
      ensures old(Disk(d).marker) in {Absent, Present(b)} && r.Err? ==> raised == old(raised) + [r.error]
      ensures MountEnded(d, b, r, old(raised), |old(machine.trace)|)
    {
      hide Inv, IsRun, After, Init, OwnPart, Mirrors, Machine.Consistent, StateAt, MountExcused, MountEnded, Enabled, Apply, Linked;
      ghost var raised0, from := raised, |machine.trace|;
      HeldNow();
      Wait(d);
      NoticeHere();
      ghost var past := machine.trace;
      var space := Try(CacheFull);
      if !space || Disk(d).marker !in {Absent, Present(b)} {
        r := Err(if !space then CacheFull else if Disk(d).marker.Corrupt? then ProcessFailed else CachePending);
        LeaveMarker(d, b);
        if space {
          StillNoticed(past, from);
          MarkerStands(d, b, r, raised0, from);
        } else {
          MountRaised(d, b, CacheFull, raised0, from);
        }
      } else {
        BeginMarker(d, b);
        var written := FillMarker(d, b);
        r := if written then Ok(()) else Err(ProcessFailed);
        if written { MountSucceeded(d, b, raised0, from); } else { MountRaised(d, b, ProcessFailed, raised0, from); }
      }
    }

    method LeaveMarker(d: DriveId, b: Binding)
      requires Consistent() && At() == Leased(d, b)
      modifies machine, this`did
      ensures Consistent() && Longer(old(machine.trace)) && At().Idle? && did == old(did) + [Refuse]
      ensures Disk(d).marker == old(Disk(d).marker)
    {
      hide Inv, IsRun, After, Init, OwnPart, Mirrors, Machine.Consistent;
      Act(Refuse);
    }

    method BeginMarker(d: DriveId, b: Binding)
      requires Consistent() && At() == Leased(d, b) && Disk(d).marker in {Absent, Present(b)}
      modifies machine, this`did
      ensures Consistent() && Longer(old(machine.trace)) && At() == Writing(d, b) && did == old(did) + [Step.BeginMarker]
    {
      hide Inv, IsRun, After, Init, OwnPart, Mirrors, Machine.Consistent;
      Act(Step.BeginMarker);
    }

    /** `write_text` on the truncated file. */
    method FillMarker(d: DriveId, b: Binding) returns (written: bool)
      requires Consistent() && At() == Writing(d, b)
      modifies machine, this`did, this`raised
      ensures raised == old(raised) + if written then [] else [ProcessFailed]
      ensures Consistent() && Longer(old(machine.trace)) && did == old(did) + [if written then EndMarker else TornMarker]
      ensures At() == if written then Marked(d, b) else Idle
    {
      hide Inv, IsRun, After, Init, OwnPart, Mirrors, Machine.Consistent;
      HeldNow();
      Wait(d);
      written := Try(ProcessFailed);
      if written { Act(EndMarker); } else { Act(TornMarker); }
    }

    /** Wait for the registered child to answer, then ask it to mount. */
    method BringUp(d: DriveId) returns (r: Outcome)
      requires Consistent() && At().Idle? && d in mounts && !mounts[d].mounted
      modifies machine, this`mounts, this`did, this`raised, this`found
      ensures Consistent() && At().Idle? && d in mounts && mounts - {d} == old(mounts) - {d} && Longer(old(machine.trace))
      ensures r.Ok? ==> did == old(did) + [SetMounted(d, true)]
      ensures mounts[d].binding == old(mounts)[d].binding
      ensures r.Ok? ==> mounts[d].mounted && mounts[d].state.Connected?
      ensures MountEnded(d, old(mounts)[d].binding, r, old(raised), |old(machine.trace)|)
    {
      hide Inv, IsRun, After, Init, OwnPart, Mirrors, Machine.Consistent, StateAt, MountExcused, Enabled, Apply, Linked;
      ghost var raised0, from, b := raised, |machine.trace|, mounts[d].binding;
      r := AwaitControl(d, b);
      if r.Ok? {
        NothingRaised(d, b, r, raised0, from);
        var letterFree := Try(LetterBusy);
        if !letterFree {
          MountRaised(d, b, LetterBusy, raised0, from);
          return Err(LetterBusy);
        }
        // The flag precedes the request: a timeout does not prove that nothing was mounted.
        SetFlag(d, true);
        Wait(d);
        var accepted := Try(ControlFailed);
        if !accepted {
          MountRaised(d, b, ControlFailed, raised0, from);
          return Err(ControlFailed);
        }
        var visible := Try(ObserveFailed);
        if !visible {
          MountRaised(d, b, ObserveFailed, raised0, from);
          return Err(ObserveFailed);
        }
        Note(d, Connected, mounts[d].error);
        MountSucceeded(d, b, raised0, from);
        r := Ok(());
      }
    }

    /** One round of waiting: cancellation, and whether the child still runs. */
    method StillWaiting(d: DriveId, ghost b: Binding) returns (r: Outcome)
      requires Consistent() && At().Idle? && d in mounts
      modifies this`raised, this`found
      ensures Consistent() && MountEnded(d, b, r, old(raised), |machine.trace|)
    {
      hide Inv, IsRun, After, Init, OwnPart, Mirrors, Machine.Consistent, StateAt;
      ghost var raised0 := raised;
      var going := Try(Cancelled);
      if !going {
        MountRaised(d, b, Cancelled, raised0, |machine.trace|);
        return Err(Cancelled);
      }
      NoticeHere();
      r := if machine.world.procs[pid].mounts[d].alive then Ok(()) else Err(ProcessFailed);
    }

    /** `core/version` until the child answers; after twenty seconds without an answer the wait is given up. */
    method AwaitControl(d: DriveId, ghost b: Binding) returns (r: Outcome)
      requires Consistent() && At().Idle? && d in mounts
      modifies machine, this`raised, this`found
      ensures Consistent() && At().Idle? && Longer(old(machine.trace)) && MountEnded(d, b, r, old(raised), |old(machine.trace)|)
    {
      hide Inv, IsRun, After, Init, OwnPart, Mirrors, Machine.Consistent, StateAt, MountExcused;
      ghost var raised0, from := raised, |machine.trace|;
      var unanswered: nat := *;
      while unanswered > 0
        invariant Consistent() && At().Idle? && Longer(old(machine.trace)) && raised == raised0
      {
        r := StillWaiting(d, b);
        MountEndedEarlier(d, b, r, raised0, |machine.trace|, from);
        if r.Err? { return; }
        NothingRaised(d, b, r, raised0, |machine.trace|);
        Wait(d);
        unanswered := unanswered - 1;
      }
      r := StillWaiting(d, b);
      MountEndedEarlier(d, b, r, raised0, |machine.trace|, from);
      if r.Err? { return; }
      NothingRaised(d, b, r, raised0, |machine.trace|);
      var answered := Try(ControlFailed);
      if answered {
        MountSucceeded(d, b, raised0, from);
        r := Ok(());
      } else {
        MountRaised(d, b, ControlFailed, raised0, from);
        r := Err(ControlFailed);
      }
    }

    lemma LeaseStands(d: DriveId, b: Binding, raisedBefore: seq<DriveError>, from: nat)
      requires raised == raisedBefore && Noticed(from) && LeaseTaken(found.world, d)
      ensures MountEnded(d, b, Err(OwnedElsewhere), raisedBefore, from)
    {
    }

    lemma MarkerStands(d: DriveId, b: Binding, r: Outcome, raisedBefore: seq<DriveError>, from: nat)
      requires raised == raisedBefore && Noticed(from) && r.Err? && MarkerInTheWay(found.world, d, b, r.error)
      ensures MountEnded(d, b, r, raisedBefore, from)
    {
    }

    lemma MountSucceeded(d: DriveId, b: Binding, raisedBefore: seq<DriveError>, from: nat)
      requires raised == raisedBefore
      ensures MountEnded(d, b, Ok(()), raisedBefore, from)
    {
    }

    lemma NothingRaised(d: DriveId, b: Binding, r: Outcome, raisedBefore: seq<DriveError>, from: nat)
      requires MountEnded(d, b, r, raisedBefore, from) && r.Ok?
      ensures raised == raisedBefore
    {
    }

    method SetFlag(d: DriveId, flag: bool)
      requires Consistent() && At().Idle? && d in mounts
      modifies machine, this`mounts, this`did
      ensures Consistent() && At().Idle? && mounts == old(mounts)[d := old(mounts)[d].(mounted := flag)]
      ensures did == old(did) + [SetMounted(d, flag)] && Longer(old(machine.trace))
    {
      hide Inv, IsRun, After, Init, OwnPart, Machine.Consistent;
      Act(SetMounted(d, flag));
      mounts := mounts[d := mounts[d].(mounted := flag)];
    }

    // ---- disconnect ------------------------------------------------------------------------------

    /**
      Either the drive ends unowned with its child's exit seen and its marker gone exactly if the cache
      then read clean, or an owned drive stays owned with lease and marker.  A live mount whose letter is not free
      is drained first.  It fails only for one of the reasons that StopExcused lists.
     */
    method Disconnect(d: DriveId) returns (r: Outcome, ghost sawClean: bool)
      requires Consistent() && At().Idle?
      modifies machine, this`mounts, this`did, this`stops, this`raised, this`found, this`letterFree
      ensures old(IsLive(d)) && !letterFree && r.Ok? ==> EndsWith(did, [Inspect(d, true)] + UnmountSteps(d) + FinishSteps(d, sawClean))
      ensures Consistent() && At().Idle? && mounts - {d} == old(mounts) - {d} && old(machine.trace) <= machine.trace
      ensures d in old(mounts) ==> Ended(d, r, sawClean, old(mounts), old(|did|))
      ensures d !in old(mounts) ==> mounts == old(mounts) && Cleared(d, r, sawClean, old(did), |old(machine.trace)|)
      ensures r.Ok? ==> d !in mounts && Disk(d).lease != Some(pid)
      ensures r.Ok? && sawClean ==> Disk(d).marker.Absent? && Disk(d).unsent == {}
      ensures r.Err? && d in old(mounts) ==> Disk(d).lease == Some(pid)
      ensures StopEnded(d, r, old(did), old(raised), |old(machine.trace)|)
      ensures stops == old(stops) + [Stopped(d, did[|old(did)|..], raised[|old(raised)|..], found, r)]
    {
      hide Inv, IsRun, After, Init, OwnPart, Mirrors, StateAt, StopExcused, StopEnded, Cleared, Enabled, Apply, EndsWith;
      if d in mounts {
        Owned(d);
        var failed := !machine.world.procs[pid].mounts[d].alive || !mounts[d].mounted;
        if !failed { failed := LetterIsFree(); }
        if failed {
          r, sawClean := StopFailedMount(d);
        } else {
          r, sawClean := DrainAndUnmount(d);
        }
        if r.Err? { Owned(d); }
      } else {
        r, sawClean := ClearUnowned(d);
      }
      if d !in mounts { NotOwned(d); }
      StopOnlyAdds(d, r, old(did), old(raised), |old(machine.trace)|);
      stops := stops + [Stopped(d, did[|old(did)|..], raised[|old(raised)|..], found, r)];
    }

    /** Without a mount there is at most a stale marker to remove, under the lease and if the cache reads clean. */
    method ClearUnowned(d: DriveId) returns (r: Outcome, ghost sawClean: bool)
      requires Consistent() && At().Idle? && d !in mounts
      modifies machine, this`did, this`raised, this`found
      ensures Consistent() && At().Idle? && old(machine.trace) <= machine.trace && Cleared(d, r, sawClean, old(did), |old(machine.trace)|)
      ensures r.Ok? && sawClean ==> Disk(d).marker.Absent? && Disk(d).unsent == {}
      ensures StopEnded(d, r, old(did), old(raised), |old(machine.trace)|)
      ensures r.Err? ==> r.error == OwnedElsewhere || raised == old(raised) + [r.error]
    {
      hide Inv, IsRun, After, Init, OwnPart, Mirrors, Machine.Consistent, StateAt, StopExcused;
      ghost var did0, raised0, from := did, raised, |machine.trace|;
      sawClean := false;
      Wait(d);
      if d !in machine.world.disks {
        NowNoDirectory(machine, d);
        StopSucceeded(d, Ok(()), did0, raised0, from);
        return Ok(()), false;
      }
      var free := Try(OwnedElsewhere);
      if !free {
        StopRaised(d, Err(OwnedElsewhere), OwnedElsewhere, did0, raised0, from);
        return Err(OwnedElsewhere), false;
      }
      if Disk(d).lease.Some? {
        NoticeHere();
        LeaseWasTaken(d, did0, raised0, from);
        return Err(OwnedElsewhere), false;
      }
      Hold(d);
      r, sawClean := ClearCleanPending(d);
      LetGo();
      assert did == did0 + ([TakeProbe(d)] + ClearSteps(d, false, sawClean, r.Ok?) + [EndProbe]);
      if r.Err? { StopRaised(d, r, r.error, did0, raised0, from); } else { StopSucceeded(d, r, did0, raised0, from); }
    }

    lemma LeaseWasTaken(d: DriveId, before: seq<Step>, raisedBefore: seq<DriveError>, from: nat)
      requires did == before && raised == raisedBefore && Noticed(from) && LeaseTaken(found.world, d)
      ensures StopEnded(d, Err(OwnedElsewhere), before, raisedBefore, from)
    {
    }

    lemma ChildDidNotExit(d: DriveId, error: DriveError, before: seq<Step>, raisedBefore: seq<DriveError>, from: nat)
      requires before <= did && raised == raisedBefore && Noticed(from) && ChildAlive(found.world, pid, d)
      requires error == ProcessFailed || error == CachePending
      ensures StopEnded(d, Err(error), before, raisedBefore, from)
    {
    }

    /** The child is dead, never mounted, or its drive letter is gone: there is nothing to drain. */
    method StopFailedMount(d: DriveId) returns (r: Outcome, ghost sawClean: bool)
      requires Consistent() && At().Idle? && d in mounts
      modifies machine, this`mounts, this`did, this`raised, this`found
      ensures Consistent() && At().Idle? && Ended(d, r, sawClean, old(mounts), old(|did|)) && old(machine.trace) <= machine.trace
      ensures r.Ok? ==> did == old(did) + [SeeExit(d)] + FinishSteps(d, sawClean)
      ensures StopEnded(d, r, old(did), old(raised), |old(machine.trace)|)
      ensures r.Err? ==> raised == old(raised) + [r.error] || (r.error == ProcessFailed && raised == old(raised) && did == old(did))
    {
      hide Inv, IsRun, After, Init, OwnPart, Mirrors, Enabled, Apply, Holds, HoldsByPc, FinishSteps, Machine.Consistent, StateAt,
        StopExcused, StopEnded, Linked, EndsWith;
      Note(d, Disconnecting, mounts[d].error);
      assert mounts - {d} == old(mounts) - {d};
      r, sawClean := StopChild(d);
      if r.Err? { Fail(d, r.error); }
    }

    /** The job of the child is closed and its exit awaited. */
    method StopChild(d: DriveId) returns (r: Outcome, ghost sawClean: bool)
      requires Consistent() && At().Idle? && d in mounts
      modifies machine, this`mounts, this`did, this`raised, this`found
      ensures Consistent() && At().Idle? && old(machine.trace) <= machine.trace
      ensures mounts == if r.Ok? then old(mounts) - {d} else old(mounts)
      ensures r.Ok? ==> did == old(did) + [SeeExit(d)] + FinishSteps(d, sawClean)
      ensures r.Ok? ==> EndsWith(did, FinishSteps(d, sawClean)) && exists i | |old(did)| <= i < |did| :: did[i] == SeeExit(d)
      ensures r.Ok? && sawClean ==> Disk(d).unsent == {}
      ensures r.Ok? ==> Disk(d).marker == if sawClean then Absent else Present(old(mounts)[d].binding)
      ensures StopEnded(d, r, old(did), old(raised), |old(machine.trace)|)
      ensures r.Err? ==> raised == old(raised) + [r.error] || (r.error == ProcessFailed && raised == old(raised) && did == old(did))
    {
      hide Inv, IsRun, After, Init, OwnPart, Mirrors, Enabled, Apply, Holds, HoldsByPc, FinishSteps, Machine.Consistent, StateAt,
        StopExcused, StopEnded, Linked, EndsWith;
      ghost var did0, raised0, from := did, raised, |machine.trace|;
      sawClean := false;
      var exited := WaitForExit(d);
      if !exited {
        ChildDidNotExit(d, ProcessFailed, did0, raised0, from);
        return Err(ProcessFailed), false;
      }
      r, sawClean := FinishUnlessVisible(d);
      if r.Ok? {
        EndsAfter(did0 + [SeeExit(d)], d, sawClean);
        StopSucceeded(d, r, did0, raised0, from);
      } else {
        StopRaised(d, r, r.error, did0, raised0, from);
      }
    }

    /** A mount that may still be visible is kept. */
    method FinishUnlessVisible(d: DriveId) returns (r: Outcome, ghost sawClean: bool)
      requires Consistent() && At() == Exited(d) && d in mounts
      modifies machine, this`mounts, this`did, this`raised
      ensures Consistent() && At().Idle? && old(machine.trace) <= machine.trace && old(did) <= did
      ensures mounts == if r.Ok? then old(mounts) - {d} else old(mounts)
      ensures r.Ok? ==> did == old(did) + FinishSteps(d, sawClean)
      ensures r.Ok? && sawClean ==> Disk(d).unsent == {}
      ensures r.Ok? ==> Disk(d).marker == if sawClean then Absent else Present(old(mounts)[d].binding)
      ensures raised == old(raised) + if r.Err? then [r.error] else []
    {
      hide Inv, IsRun, After, Init, OwnPart, Mirrors, Machine.Consistent, FinishSteps;
      sawClean := false;
      var removed := true;
      if mounts[d].mounted { removed := Try(ObserveFailed); }
      if removed {
        r, sawClean := Finish(d);
      } else {
        Act(GiveUp);
        r := Err(ObserveFailed);
      }
    }

    /** The child is gone: settle the marker and drop the mount. */
    method Finish(d: DriveId) returns (r: Outcome, ghost sawClean: bool)
      requires Consistent() && At() == Exited(d) && d in mounts
      modifies machine, this`mounts, this`did, this`raised
      ensures Consistent() && At().Idle? && old(machine.trace) <= machine.trace && old(did) <= did
      ensures mounts == if r.Ok? then old(mounts) - {d} else old(mounts)
      ensures r.Ok? ==> did == old(did) + FinishSteps(d, sawClean)
      ensures r.Ok? && sawClean ==> Disk(d).unsent == {}
      ensures r.Ok? ==> Disk(d).marker == if sawClean then Absent else Present(old(mounts)[d].binding)
      ensures raised == old(raised) + (if r.Err? then [r.error] else []) && (r.Err? ==> r.error == CachePending)
    {
      hide Inv, IsRun, After, Init, OwnPart, Mirrors;
      Owned(d);
      r, sawClean := ClearCleanPending(d);
      if r.Ok? { Drop(d); }
    }

    /**
      Drain the upload queue, unmount, stop the child and look at the cache once more.  The cache read clean
      before the unmount, after it, and after the exit of the child.
     */
    method DrainAndUnmount(d: DriveId) returns (r: Outcome, ghost sawClean: bool)
      requires Consistent() && At().Idle? && d in mounts
      modifies machine, this`mounts, this`did, this`raised, this`found
      ensures Consistent() && At().Idle? && Ended(d, r, sawClean, old(mounts), old(|did|)) && old(machine.trace) <= machine.trace
      ensures r.Ok? ==> old(did) < did && EndsWith(did, [Inspect(d, true)] + UnmountSteps(d) + FinishSteps(d, sawClean))
      ensures StopEnded(d, r, old(did), old(raised), |old(machine.trace)|) && (r.Err? ==> r.error == CachePending)
    {
      hide Inv, IsRun, After, Init, OwnPart, Mirrors, Enabled, Apply, Holds, HoldsByPc, FinishSteps, Machine.Consistent, StateAt,
        StopExcused, StopEnded, Linked, EndsWith, UnmountSteps;
      Note(d, Disconnecting, mounts[d].error);
      assert mounts - {d} == old(mounts) - {d};
      r, sawClean := UnmountDrained(d);
      if r.Err? { Fail(d, CachePending); }
    }

    /** Nothing is unmounted before the drain has come to an end. */
    method UnmountDrained(d: DriveId) returns (r: Outcome, ghost sawClean: bool)
      requires Consistent() && At().Idle? && d in mounts
      modifies machine, this`mounts, this`did, this`raised, this`found
      ensures Consistent() && At().Idle? && old(machine.trace) <= machine.trace && mounts - {d} == old(mounts) - {d}
      ensures if r.Ok? then d !in mounts else d in mounts && mounts[d].binding == old(mounts)[d].binding
      ensures r.Ok? ==> old(did) < did && EndsWith(did, [Inspect(d, true)] + UnmountSteps(d) + FinishSteps(d, sawClean))
      ensures r.Ok? ==> EndsWith(did, FinishSteps(d, sawClean)) && exists i | |old(did)| <= i < |did| :: did[i] == SeeExit(d)
      ensures r.Ok? && sawClean ==> Disk(d).unsent == {}
      ensures r.Ok? ==> Disk(d).marker == if sawClean then Absent else Present(old(mounts)[d].binding)
      ensures StopEnded(d, r, old(did), old(raised), |old(machine.trace)|) && (r.Err? ==> r.error == CachePending)
    {
      hide Inv, IsRun, After, Init, OwnPart, Mirrors, Enabled, Apply, Holds, HoldsByPc, FinishSteps, Machine.Consistent, StateAt,
        StopExcused, StopEnded, Linked, EndsWith, UnmountSteps;
      ghost var did0, raised0, from := did, raised, |machine.trace|;
      sawClean := false;
      var drained := Drain(d);
      ghost var inspected, later := did, |machine.trace|;
      r := Err(CachePending);
      if drained {
        var unmounted := Try(ControlFailed);
        if unmounted {
          r, sawClean := FinishUnmount(d);
          if r.Ok? {
            DrainedAndEnded(did0, inspected, did, d, sawClean);
            StopSucceeded(d, r, did0, raised0, from);
          } else {
            StopEndedEarlier(d, r, inspected, did0, raised0, later, from);
          }
        } else {
          StopRaised(d, Err(CachePending), ControlFailed, did0, raised0, from);
        }
      }
    }

    /** The mount is gone: the flag goes down, and then the child. */
    method FinishUnmount(d: DriveId) returns (r: Outcome, ghost sawClean: bool)
      requires Consistent() && At().Idle? && d in mounts
      modifies machine, this`mounts, this`did, this`raised, this`found
      ensures Consistent() && At().Idle? && old(machine.trace) <= machine.trace && mounts - {d} == old(mounts) - {d}
      ensures if r.Ok? then d !in mounts else d in mounts && mounts[d].binding == old(mounts)[d].binding
      ensures r.Ok? ==> did == old(did) + UnmountSteps(d) + FinishSteps(d, sawClean)
      ensures r.Ok? && sawClean ==> Disk(d).unsent == {}
      ensures r.Ok? ==> Disk(d).marker == if sawClean then Absent else Present(old(mounts)[d].binding)
      ensures StopEnded(d, r, old(did), old(raised), |old(machine.trace)|) && (r.Err? ==> r.error == CachePending)
      ensures r.Ok? ==> raised == old(raised)
    {
      hide Inv, IsRun, After, Init, OwnPart, Mirrors, Enabled, Apply, Holds, HoldsByPc, FinishSteps,
        Machine.Consistent, StateAt, StopExcused;
      ghost var did0, raised0, from := did, raised, |machine.trace|;
      SetFlag(d, false);
      Wait(d);
      ghost var flagged, later := did, |machine.trace|;
      r, sawClean := QuitAfterUnmount(d);
      StopEndedEarlier(d, r, flagged, did0, raised0, later, from);
      if r.Ok? {
        assert did == did0 + ([SetMounted(d, false)] + [Inspect(d, true), SeeExit(d), Inspect(d, true)]) + FinishSteps(d, sawClean);
      }
    }

    /** Fifteen seconds of looking at the upload queue and, when it is empty, at the cache. */
    method Drain(d: DriveId) returns (drained: bool)
      requires Consistent() && At().Idle?
      modifies machine, this`did, this`raised
      ensures Consistent() && At().Idle? && old(machine.trace) <= machine.trace && old(did) <= did
      ensures drained ==> old(did) < did && did[|did| - 1] == Inspect(d, true) && raised == old(raised)
      ensures !drained ==> StopEnded(d, Err(CachePending), old(did), old(raised), |old(machine.trace)|)
    {
      hide Inv, IsRun, After, Init, OwnPart, Mirrors, Machine.Consistent, StateAt, StopExcused;
      ghost var did0, raised0, from := did, raised, |machine.trace|;
      var early: nat := *;     // looks after which there is still time
      while early > 0
        invariant Consistent() && At().Idle? && old(machine.trace) <= machine.trace && did0 <= did && raised == raised0
      {
        Wait(d);
        var statistics := Try(ControlFailed);
        if !statistics {
          StopRaised(d, Err(CachePending), ControlFailed, did0, raised0, from);
          return false;
        }
        var idle: bool := *;
        if idle {
          var dirty, cache, unreadable := CacheIsDirty(d);
          if !dirty { return true; }
        }
        early := early - 1;
      }
      drained := LastLook(d, did0, raised0, from);
    }

    /** The look after which the time is up. */
    method LastLook(d: DriveId, ghost did0: seq<Step>, ghost raised0: seq<DriveError>, ghost from: nat) returns (drained: bool)
      requires Consistent() && At().Idle? && did0 <= did && raised == raised0
      modifies machine, this`did, this`raised
      ensures Consistent() && At().Idle? && old(machine.trace) <= machine.trace && did0 <= did
      ensures drained ==> did0 < did && did[|did| - 1] == Inspect(d, true) && raised == raised0
      ensures !drained ==> StopEnded(d, Err(CachePending), did0, raised0, from)
    {
      hide Inv, IsRun, After, Init, OwnPart, Mirrors, Machine.Consistent, StateAt, StopExcused;
      Wait(d);
      var statistics := Try(ControlFailed);
      if !statistics {
        StopRaised(d, Err(CachePending), ControlFailed, did0, raised0, from);
        return false;
      }
      var idle := Try(CachePending);
      if !idle {
        StopRaised(d, Err(CachePending), CachePending, did0, raised0, from);
        return false;
      }
      ghost var more := did[|did0|..] + [Inspect(d, false)];
      var dirty, cache, unreadable := CacheIsDirty(d);
      if dirty { StopDirty(d, did0, more, raised0, from); }
      drained := !dirty;
    }

    /** Writers can race the drain, so the cache is inspected after the unmount and again after the exit. */
    method QuitAfterUnmount(d: DriveId) returns (r: Outcome, ghost sawClean: bool)
      requires Consistent() && At().Idle? && d in mounts
      modifies machine, this`mounts, this`did, this`raised, this`found
      ensures Consistent() && At().Idle? && old(machine.trace) <= machine.trace
      ensures mounts == if r.Ok? then old(mounts) - {d} else old(mounts)
      ensures r.Ok? ==> did == old(did) + [Inspect(d, true), SeeExit(d), Inspect(d, true)] + FinishSteps(d, sawClean) && raised == old(raised)
      ensures r.Ok? && sawClean ==> Disk(d).unsent == {}
      ensures r.Ok? ==> Disk(d).marker == if sawClean then Absent else Present(old(mounts)[d].binding)
      ensures StopEnded(d, r, old(did), old(raised), |old(machine.trace)|) && (r.Err? ==> r.error == CachePending)
    {
      hide Inv, IsRun, After, Init, OwnPart, Mirrors, ClearSteps, Machine.Consistent, FinishSteps, StateAt, StopExcused, Enabled, Apply, Linked;
      ghost var did0, raised0, from := did, raised, |machine.trace|;
      sawClean := false;
      r := Err(CachePending);
      var removed := Try(ObserveFailed);
      if !removed {
        StopRaised(d, Err(CachePending), ObserveFailed, did0, raised0, from);
        return;
      }
      var dirty, cache, unreadable := CacheIsDirty(d);
      if dirty {
        StopDirty(d, did0, [Inspect(d, false)], raised0, from);
        return;
      }
      var quit := Try(ControlFailed);
      if !quit {
        StopRaised(d, Err(CachePending), ControlFailed, did0, raised0, from);
        return;
      }
      var exited := WaitForExit(d);
      if !exited {
        ChildDidNotExit(d, CachePending, did0, raised0, from);
        return;
      }
      ghost var seen, later := did, |machine.trace|;
      r, sawClean := FinishIfClean(d);
      StopEndedEarlier(d, r, seen, did0, raised0, later, from);
    }

    /** The child is gone; dirt that is still there keeps the mount on record. */
    method FinishIfClean(d: DriveId) returns (r: Outcome, ghost sawClean: bool)
      requires Consistent() && At() == Exited(d) && d in mounts
      modifies machine, this`mounts, this`did, this`raised
      ensures Consistent() && At().Idle? && old(machine.trace) <= machine.trace
      ensures mounts == if r.Ok? then old(mounts) - {d} else old(mounts)
      ensures r.Ok? ==> did == old(did) + [Inspect(d, true)] + FinishSteps(d, sawClean) && raised == old(raised)
      ensures r.Ok? && sawClean ==> Disk(d).unsent == {}
      ensures r.Ok? ==> Disk(d).marker == if sawClean then Absent else Present(old(mounts)[d].binding)
      ensures StopEnded(d, r, old(did), old(raised), |old(machine.trace)|) && (r.Err? ==> r.error == CachePending)
    {
      hide Inv, IsRun, After, Init, OwnPart, Mirrors, ClearSteps, Machine.Consistent, FinishSteps, StateAt, StopExcused;
      ghost var did0, raised0, from := did, raised, |machine.trace|;
      sawClean := false;
      var dirty, cache, unreadable := CacheIsDirty(d);
      if dirty {
        Act(GiveUp);
        r := Err(CachePending);
        StopDirty(d, did0, [Inspect(d, false), GiveUp], raised0, from);
      } else {
        r, sawClean := Finish(d);
        if r.Err? { StopRaised(d, r, CachePending, did0, raised0, from); } else { StopSucceeded(d, r, did0, raised0, from); }
      }
    }

    /** Record the state a drive is in, and the error that put it there. */
    method Note(d: DriveId, state: DriveState, error: Option<DriveError>)
      requires Consistent() && d in mounts
      modifies this`mounts
      ensures Consistent() && mounts == old(mounts)[d := old(mounts)[d].(state := state, error := error)]
    {
      mounts := mounts[d := mounts[d].(state := state, error := error)];
    }

    /** The operation failed: everything about the drive stays as it is, with the error on record. */
    method Fail(d: DriveId, error: DriveError)
      requires Consistent() && At().Idle? && d in mounts
      modifies this`mounts
      ensures Consistent() && d in mounts && mounts - {d} == old(mounts) - {d}
      ensures mounts[d] == old(mounts)[d].(state := Failed, error := Some(error))
      ensures Disk(d).marker == Present(mounts[d].binding)
    {
      hide Inv, IsRun, After, Init, OwnPart, Mirrors;
      Note(d, Failed, Some(error));
      Owned(d);
    }

    /** How disconnecting a drive this process had mounted ends; its steps from number n on are new. */
    ghost predicate Ended(d: DriveId, r: Outcome, sawClean: bool, before: map<DriveId, MountRecord>, n: nat)
      requires d in before
      reads this`mounts, this`did, machine
    {
      mounts - {d} == before - {d} &&
      if r.Ok? then
        d !in mounts && (exists i | n <= i < |did| :: did[i] == SeeExit(d)) && EndsWith(did, FinishSteps(d, sawClean)) &&
        (sawClean ==> Disk(d).unsent == {}) &&
        Disk(d).marker == if sawClean then Absent else Present(before[d].binding)
      else
        d in mounts && mounts[d] == before[d].(state := Failed, error := Some(r.error), mounted := mounts[d].mounted)
        && Disk(d).marker == Present(before[d].binding)
    }

    /**
      How disconnecting any other drive ends: the marker was looked after under the lease, the lease was not to be
      had, or after some number of steps from `from` on the drive had no directory.
     */
    ghost predicate Cleared(d: DriveId, r: Outcome, sawClean: bool, before: seq<Step>, from: nat)
      reads this`did, machine
    {
      || did == before + [TakeProbe(d)] + ClearSteps(d, false, sawClean, r.Ok?) + [EndProbe]
      || (did == before && !sawClean && r == Err(OwnedElsewhere))
      || (did == before && !sawClean && r.Ok? && exists k :: from <= k && NoDirectoryAt(machine.start, machine.trace, k, d))
    }
  }

  /** After k of its steps the run was in a state in which the drive had no directory, and so no marker. */
  ghost predicate NoDirectoryAt(start: World, trace: seq<Event>, k: nat, d: DriveId) {
    k <= |trace| && IsRun(start, trace[..k]) && d !in After(start, trace[..k]).disks
  }

  lemma NowNoDirectory(machine: Machine, d: DriveId)
    requires machine.Consistent() && d !in machine.world.disks
    ensures NoDirectoryAt(machine.start, machine.trace, |machine.trace|, d)
  {
    assert machine.trace[..|machine.trace|] == machine.trace;
  }

  /** From the unmount on: a clean cache, the exit of the child, a clean cache again. */
  function UnmountSteps(d: DriveId): seq<Step> {
    [SetMounted(d, false), Inspect(d, true), SeeExit(d), Inspect(d, true)]
  }

  lemma EndsAfter(before: seq<Step>, d: DriveId, clean: bool)
    requires before != [] && before[|before| - 1] == SeeExit(d)
    ensures EndsWith(before + FinishSteps(d, clean), FinishSteps(d, clean))
    ensures (before + FinishSteps(d, clean))[|before| - 1] == SeeExit(d)
  {
  }

  lemma DrainedAndEnded(before: seq<Step>, drained: seq<Step>, steps: seq<Step>, d: DriveId, clean: bool)
    requires before < drained && drained[|drained| - 1] == Inspect(d, true)
    requires steps == drained + UnmountSteps(d) + FinishSteps(d, clean)
    ensures before < steps && EndsWith(steps, [Inspect(d, true)] + UnmountSteps(d) + FinishSteps(d, clean))
    ensures EndsWith(steps, FinishSteps(d, clean)) && |drained| + 2 < |steps| && steps[|drained| + 2] == SeeExit(d)
  {
    assert drained == drained[..|drained| - 1] + [Inspect(d, true)];
    assert steps == drained[..|drained| - 1] + ([Inspect(d, true)] + UnmountSteps(d) + FinishSteps(d, clean));
  }

  lemma OthersKept(before: map<DriveId, MountRecord>, after: map<DriveId, MountRecord>, d: DriveId)
    requires after - {d} == before - {d} && (d !in before ==> after == before)
    ensures after.Keys <= before.Keys
    ensures forall e | e in before && e != d :: e in after && after[e] == before[e]
  {
    forall e | e in before && e != d ensures e in after && after[e] == before[e] {
      assert e in before - {d} && (before - {d})[e] == before[e] && (after - {d})[e] == after[e];
    }
    forall e | e in after ensures e in before {
      assert e != d ==> e in after - {d};
    }
  }

  /** `S3DriveService` of one process; its lock makes the calls below happen one at a time. */
  class S3DriveService {
    const mount: RcloneDriveMount
    var closing: bool

    constructor (mount: RcloneDriveMount)
      ensures this.mount == mount && !closing
    {
      this.mount, this.closing := mount, false;
    }

    ghost predicate Ready()
      reads this, mount, mount.machine
    {
      mount.Consistent() && mount.At().Idle?
    }

    function Table(): map<DriveId, Binding>
      reads mount, mount.machine
    {
      mount.machine.world.table
    }

    method SavedDrives(profile: Option<nat>) returns (ds: seq<DriveId>)
      ensures forall d :: d in ds <==> d in DrivesOf(Table(), profile)
      ensures forall i, j | 0 <= i < j < |ds| :: ds[i] != ds[j]
    {
      var left := DrivesOf(Table(), profile);
      ghost var all := left;
      ds := [];
      while left != {}
        invariant left <= all && forall d :: d in ds <==> d in all - left
        invariant forall i, j | 0 <= i < j < |ds| :: ds[i] != ds[j]
        decreases left
      {
        var d :| d in left;
        ds, left := ds + [d], left - {d};
      }
    }

    /**
      Insert a drive, or change one.  A change keeps the owner profile, and is written only after the drive
      was found quiet in this call; it still is when the row changes, unless some process has registered a
      child for it since.  It is refused only if a call raises, the drive is gone or has another owner, or the
      edit check refuses.
     */
    method Save(id: Option<DriveId>, b: Binding) returns (r: Result<DriveId, DriveError>, ghost at: nat)
      requires Ready()
      modifies mount.machine, mount`did, mount`rows, mount`raised, mount`found
      ensures Ready()
      ensures r.Ok? ==> r.value in Table() && Table()[r.value] == b && mount.raised == old(mount.raised)
      ensures r.Ok? && id.Some? ==> r.value == id.value && Checked(id.value, at, old(mount.machine.trace))
      ensures r.Ok? && id.Some? ==> id.value in old(Table()) && old(Table())[id.value].profile == b.profile
      ensures mount.rows == old(mount.rows) + if r.Ok? then [SaveRow(r.value, b)] else []
      ensures r.Err? ==>
        || mount.raised == old(mount.raised) + [r.error]
        || (r.error == NotFound && id.Some? && (id.value !in old(Table()) || id.value !in Table() || Table()[id.value].profile != b.profile))
        || (r.error == OwnerInvalid && id.Some? && id.value in old(Table()) && old(Table())[id.value].profile != b.profile)
        || (id.Some? && mount.Refused(id.value, r.error, old(mount.did), old(mount.raised), |old(mount.machine.trace)|))
    {
      hide Inv, IsRun, After, Init, OwnPart, Mirrors, QuietAt, QuietSince, Machine.Consistent, Enabled, Apply,
        RcloneDriveMount.Refused, RcloneDriveMount.Linked;
      at := 0;
      var resolved := mount.Try(NotFound);
      if !resolved { return Err(NotFound), at; }
      if id.Some? {
        var editable;
        editable, at := MayChange(id.value, b);
        if editable.Err? { return Err(editable.error), at; }
      }
      ghost var found := mount.machine.trace;
      mount.Wait(0);
      var letterFree := mount.Try(LetterBusy);
      if !letterFree { return Err(LetterBusy), at; }
      if id.Some? && (id.value !in Table() || Table()[id.value].profile != b.profile) { return Err(NotFound), at; }
      var stored := mount.Try(StorageFailed);
      if !stored { return Err(StorageFailed), at; }
      FreshDriveExists(Table());
      var unused: DriveId :| unused !in Table();
      var d := if id.Some? then id.value else unused;
      WriteRow(d, b);
      if id.Some? { StillChecked(found, at, d); }
      r := Ok(d);
    }

    method WriteRow(d: DriveId, b: Binding)
      requires Ready()
      modifies mount.machine, mount`did, mount`rows
      ensures Ready() && Table() == old(Table())[d := b] && mount.Longer(old(mount.machine.trace))
      ensures mount.rows == old(mount.rows) + [SaveRow(d, b)]
    {
      hide Inv, IsRun, After, Init, OwnPart, Mirrors, Machine.Consistent;
      mount.ChangeRow(SaveRow(d, b));
    }

    /** The drive is there, belongs to this profile, and the edit check passes. */
    method MayChange(d: DriveId, b: Binding) returns (r: Outcome, ghost at: nat)
      requires Ready()
      modifies mount.machine, mount`did, mount`raised, mount`found
      ensures Ready() && mount.Longer(old(mount.machine.trace))
      ensures r.Ok? ==> d in old(Table()) && old(Table())[d].profile == b.profile && mount.raised == old(mount.raised)
      ensures r.Ok? ==> |old(mount.machine.trace)| <= at && QuietAt(mount.machine.start, mount.machine.trace, at, d)
      ensures r.Err? ==>
        || (r.error == NotFound && d !in old(Table()))
        || (r.error == OwnerInvalid && d in old(Table()) && old(Table())[d].profile != b.profile)
        || mount.Refused(d, r.error, old(mount.did), old(mount.raised), |old(mount.machine.trace)|)
    {
      hide Inv, IsRun, After, Init, OwnPart, Mirrors, QuietAt, Machine.Consistent, IsEditCheck, StateAt;
      at := 0;
      if d !in Table() { return Err(NotFound), at; }
      if Table()[d].profile != b.profile { return Err(OwnerInvalid), at; }
      ghost var did0, raised0 := mount.did, mount.raised;
      r, at := mount.AssertEditable(d);
      if r.Err? { mount.CheckRefused(d, r, did0, raised0); } else { mount.CheckPassed(d, r, did0, raised0); }
    }

    /** During this call, after `at` steps of the run, the drive was quiet, and it still is unless a child was registered. */
    ghost predicate Checked(d: DriveId, at: nat, before: seq<Event>)
      reads mount.machine, mount
    {
      |before| <= at && QuietSince(mount.machine.start, mount.machine.trace, at, d)
    }

    lemma StillChecked(found: seq<Event>, at: nat, d: DriveId)
      requires Ready() && QuietAt(mount.machine.start, found, at, d) && found <= mount.machine.trace
      ensures QuietSince(mount.machine.start, mount.machine.trace, at, d)
    {
      StillQuiet(mount.machine, found, at, d);
    }

    /** Fails only while shutting down, without the row, or for one of the reasons a mount may fail for. */
    method Connect(d: DriveId) returns (r: Outcome)
      requires Ready()
      modifies mount.machine, mount`mounts, mount`did, mount`raised, mount`found
      ensures Ready() && mount.mounts - {d} == old(mount.mounts) - {d}
      ensures closing ==> r == Err(ShuttingDown) && mount.mounts == old(mount.mounts)
      ensures !closing && d !in old(Table()) ==> r == Err(NotFound) && mount.mounts == old(mount.mounts)
      ensures !closing && d in old(Table()) ==> mount.MountEnded(d, old(Table())[d], r, old(mount.raised), |old(mount.machine.trace)|)
      ensures r.Ok? ==> d in mount.mounts && mount.mounts[d].mounted
      ensures r.Ok? ==> forall x | x in mount.Disk(d).unsent :: x.binding == mount.mounts[d].binding
    {
      hide Inv, IsRun, After, Init, OwnPart, Mirrors, Machine.Consistent, Enabled, Apply, RcloneDriveMount.Linked, RcloneDriveMount.MountEnded;
      if closing { return Err(ShuttingDown); }
      if d !in Table() { return Err(NotFound); }
      ghost var raised0, from := mount.raised, |mount.machine.trace|;
      var b := Table()[d];
      mount.Open(d);
      mount.Wait(d);
      var refusal: Option<DriveError> := None;
      var authenticated := mount.Try(AuthenticationRequired);
      if !authenticated {
        refusal := Some(AuthenticationRequired);
      } else {
        var going := mount.Try(Cancelled);
        if !going { refusal := Some(Cancelled); }
      }
      if refusal.Some? {
        mount.StopOpening(d, b);
        mount.MountRaised(d, b, refusal.value, raised0, from);
        return Err(refusal.value);
      }
      ghost var later := |mount.machine.trace|;
      r := mount.Connect(d, b);
      mount.MountEndedEarlier(d, b, r, raised0, later, from);
    }

    /** Each of these drives was found quiet after the given point of the run, and still is unless a child was registered. */
    ghost predicate AllChecked(ds: set<DriveId>, from: nat, checks: map<DriveId, nat>)
      reads mount, mount.machine
    {
      forall d | d in ds ::
        d in checks && from <= checks[d] && QuietSince(mount.machine.start, mount.machine.trace, checks[d], d)
    }

    /**
      Unmount, check, and only then delete the saved drive.  The call is refused without the row, by a disconnect
      that fails, by the edit check, or by the store.
     */
    method Delete(d: DriveId) returns (r: Outcome, ghost at: nat)
      requires Ready()
      modifies mount.machine, mount
      ensures Ready() && mount.mounts - {d} == old(mount.mounts) - {d}
      ensures r.Ok? ==> d !in Table() && d !in mount.mounts && Checked(d, at, old(mount.machine.trace))
      ensures mount.rows == old(mount.rows) + if r.Ok? then [DeleteRow(d)] else []
      ensures d !in old(Table()) ==> r == Err(NotFound) && mount.did == old(mount.did) && mount.stops == old(mount.stops)
      ensures d in old(Table()) ==> old(mount.stops) < mount.stops && var x := mount.stops[|old(mount.stops)|];
        && mount.stops == old(mount.stops) + [x] && x.d == d
        && (x.answer.Err? ==> r == x.answer && mount.StopEnded(d, r, old(mount.did), old(mount.raised), |old(mount.machine.trace)|))
        && (x.answer.Ok? && r.Err? ==>
              || (r.error == StorageFailed && mount.raised == old(mount.raised) + [StorageFailed])
              || mount.Refused(d, r.error, old(mount.did) + x.steps, old(mount.raised), |old(mount.machine.trace)|))
    {
      hide Inv, IsRun, After, Init, OwnPart, Mirrors, QuietAt, QuietSince, Machine.Consistent, IsEditCheck, StateAt, StopExcused,
        RcloneDriveMount.Refused, RcloneDriveMount.StopEnded, RcloneDriveMount.Ended, RcloneDriveMount.Cleared;
      at := 0;
      if d !in Table() { return Err(NotFound), at; }
      ghost var did0, raised0, from := mount.did, mount.raised, |mount.machine.trace|;
      ghost var sawClean;
      r, sawClean := mount.Disconnect(d);
      if r.Err? { return; }
      StoppedQuietly(r, mount, d, did0, raised0, from);
      ghost var did1 := mount.did;
      r, at := mount.AssertEditable(d);
      if r.Err? {
        mount.CheckRefused(d, r, did1, raised0);
        return;
      }
      mount.CheckPassed(d, r, did1, raised0);
      var stored := mount.Try(StorageFailed);
      if !stored { return Err(StorageFailed), at; }
      ghost var found := mount.machine.trace;
      mount.ChangeRow(DeleteRow(d));
      StillChecked(found, at, d);
    }

    /** The disconnects since then are backed, and account for all the steps and errors since then. */
    ghost predicate Stops(before: seq<Stopped>, did: seq<Step>, raised: seq<DriveError>, from: nat)
      reads mount`did, mount`raised, mount`stops, mount.machine, this, mount
    {
      && did <= mount.did && raised <= mount.raised
      && Accounted(mount.machine.start, mount.machine.trace, mount.pid, from, before, mount.stops, mount.did[|did|..], mount.raised[|raised|..])
    }

    /** One disconnect as part of a loop over several. */
    method StopOne(d: DriveId, ghost before: seq<Stopped>, ghost did: seq<Step>, ghost raised: seq<DriveError>, ghost from: nat)
      returns (r: Outcome)
      requires Ready() && Stops(before, did, raised, from) && from <= |mount.machine.trace|
      modifies mount.machine, mount`mounts, mount`did, mount`stops, mount`raised, mount`found, mount`letterFree
      ensures Ready() && Stops(before, did, raised, from) && mount.Longer(old(mount.machine.trace))
      ensures mount.mounts - {d} == old(mount.mounts) - {d} && (d !in old(mount.mounts) ==> mount.mounts == old(mount.mounts))
      ensures r.Ok? ==> d !in mount.mounts
      ensures old(mount.stops) < mount.stops && var x := mount.stops[|old(mount.stops)|];
        mount.stops == old(mount.stops) + [x] && x.d == d && x.answer == r
    {
      hide Inv, IsRun, After, Init, OwnPart, Mirrors, Machine.Consistent, RcloneDriveMount.Linked, RcloneDriveMount.Ended, RcloneDriveMount.Cleared,
        StateAt, StopExcused, Accounted;
      ghost var did1, raised1, stops1, trace1 := mount.did, mount.raised, mount.stops, mount.machine.trace;
      ghost var sawClean;
      r, sawClean := mount.Disconnect(d);
      ghost var x := mount.stops[|stops1|];
      OneMoreAccounted(mount.machine.start, trace1, mount.machine.trace, mount.pid, from, |trace1|, before, stops1, did1[|did|..], raised1[|raised|..], x);
      assert mount.did[|did|..] == did1[|did|..] + x.steps && mount.raised[|raised|..] == raised1[|raised|..] + x.raised;
    }

    lemma NoStops()
      ensures Stops(mount.stops, mount.did, mount.raised, |mount.machine.trace|) && StoppedInOrder(mount.stops, mount.stops, [])
      ensures FirstFailure(Answers(mount.stops[|mount.stops|..])) == None
    {
      assert mount.did[|mount.did|..] == [] && mount.raised[|mount.raised|..] == [] && mount.stops[|mount.stops|..] == [];
      NothingAccounted(mount.machine.start, mount.machine.trace, mount.pid, |mount.machine.trace|, mount.stops);
      NoFailure();
    }

    /** Every drive is tried whatever happened to the ones before it; the earliest failure is raised. */
    method Stop(ds: seq<DriveId>) returns (r: Outcome)
      requires Ready()
      modifies mount.machine, mount`mounts, mount`did, mount`stops, mount`raised, mount`found, mount`letterFree
      ensures Ready() && mount.mounts.Keys <= old(mount.mounts.Keys) && mount.Longer(old(mount.machine.trace))
      ensures StoppedInOrder(old(mount.stops), mount.stops, ds)
      ensures Stops(old(mount.stops), old(mount.did), old(mount.raised), |old(mount.machine.trace)|)
      ensures FirstFailure(Answers(mount.stops[|old(mount.stops)|..])) == if r.Err? then Some(r.error) else None
      ensures r.Ok? ==> forall i | 0 <= i < |ds| :: ds[i] !in mount.mounts
      ensures forall d | d in old(mount.mounts) && d !in ds :: d in mount.mounts && mount.mounts[d] == old(mount.mounts)[d]
    {
      hide Inv, IsRun, After, Init, OwnPart, Mirrors, FirstFailure, Machine.Consistent, RcloneDriveMount.Linked, Accounted, Stops, Answers,
        StoppedInOrder, RcloneDriveMount.Consistent, RcloneDriveMount.At;
      r := Ok(());
      ghost var before, did, raised, from := mount.stops, mount.did, mount.raised, |mount.machine.trace|;
      NoStops();
      for k := 0 to |ds|
        invariant Ready() && mount.mounts.Keys <= old(mount.mounts.Keys) && mount.Longer(old(mount.machine.trace))
        invariant before <= mount.stops && StoppedInOrder(before, mount.stops, ds[..k]) && Stops(before, did, raised, from)
        invariant FirstFailure(Answers(mount.stops[|before|..])) == if r.Err? then Some(r.error) else None
        invariant r.Ok? ==> forall i | 0 <= i < k :: ds[i] !in mount.mounts
        invariant forall d | d in old(mount.mounts) && d !in ds :: d in mount.mounts && mount.mounts[d] == old(mount.mounts)[d]
      {
        ghost var mounts, stops := mount.mounts, mount.stops;
        var one := StopOne(ds[k], before, did, raised, from);
        OthersKept(mounts, mount.mounts, ds[k]);
        OneMoreStopped(before, stops, ds[..k], mount.stops[|stops|]);
        assert ds[..k + 1] == ds[..k] + [ds[k]];
        r := if r.Err? then r else one;
      }
      assert ds[..|ds|] == ds;
    }

    /**
      `profile_deletion` up to its yield: the profile's drives are stopped, and then every drive it has in the
      table is checked.  The lock stays held while the caller deletes the profile.  It is refused by the earliest
      disconnect that fails, or by the edit check of the drive checked last.
     */
    method PrepareProfileDeletion(profile: nat) returns (r: Outcome, ghost p: Preparation)
      requires Ready()
      modifies mount.machine, mount`mounts, mount`did, mount`stops, mount`raised, mount`found, mount`letterFree
      ensures Ready()
      ensures r.Ok? ==> forall d | d in DrivesOf(old(Table()), Some(profile)) :: d !in mount.mounts
      ensures r.Ok? ==> |old(mount.machine.trace)| <= p.listedAt && TableAt(mount.machine.start, mount.machine.trace, p.listedAt, p.listed)
      ensures r.Ok? ==> AllChecked(DrivesOf(p.listed, Some(profile)), p.listedAt, p.checks)
      ensures forall d | d in old(mount.mounts) && d !in DrivesOf(old(Table()), Some(profile)) :: d in mount.mounts
      ensures old(mount.stops) <= mount.stops && p.first == FirstFailure(Answers(mount.stops[|old(mount.stops)|..]))
      ensures p.first.Some? ==> r == Err(p.first.value) && Stops(old(mount.stops), old(mount.did), old(mount.raised), |old(mount.machine.trace)|)
      ensures p.first.None? && r.Err? ==> mount.Refused(p.last, r.error, p.sofar, old(mount.raised), |old(mount.machine.trace)|)
    {
      hide Inv, IsRun, After, Init, OwnPart, Mirrors, QuietAt, QuietSince, TableAt, Machine.Consistent, RcloneDriveMount.Refused, IsEditCheck,
        StateAt, Accounted, FirstFailure, Stops;
      ghost var stops0, did0, raised0, from := mount.stops, mount.did, mount.raised, |mount.machine.trace|;
      var saved := SavedDrives(Some(profile));
      r := Stop(saved);
      p := Preparation(FirstFailure(Answers(mount.stops[|stops0|..])), 0, map[], map[], 0, []);
      if r.Err? { return; }
      NothingRaised(stops0, did0, raised0, from);
      mount.Wait(0);
      var again := SavedDrives(Some(profile));
      ghost var listedAt, listed := |mount.machine.trace|, Table();
      ghost var checks: map<DriveId, nat> := map[];
      NowTable(mount.machine);
      ghost var mounts, listing, stops := mount.mounts, mount.machine.trace, mount.stops;
      for k := 0 to |again|
        invariant Ready() && mount.mounts == mounts && listing <= mount.machine.trace && mount.raised == raised0 && mount.stops == stops
        invariant p.first.None? && p.first == FirstFailure(Answers(mount.stops[|stops0|..]))
        invariant forall i | 0 <= i < k :: again[i] in checks && listedAt <= checks[again[i]]
        invariant forall i | 0 <= i < k :: QuietAt(mount.machine.start, mount.machine.trace, checks[again[i]], again[i])
      {
        ghost var at, before := 0, mount.machine.trace;
        p := p.(last := again[k], sofar := mount.did);
        r, at := CheckOne(again[k], from);
        if r.Err? { return; }
        forall i | 0 <= i < k ensures QuietAt(mount.machine.start, mount.machine.trace, checks[again[i]], again[i]) {
          QuietAtStays(mount.machine.start, before, mount.machine.trace, checks[again[i]], again[i]);
        }
        checks := checks[again[k] := at];
      }
      forall d | d in DrivesOf(listed, Some(profile))
        ensures d in checks && listedAt <= checks[d] && QuietSince(mount.machine.start, mount.machine.trace, checks[d], d)
      {
        var i :| 0 <= i < |again| && again[i] == d;
        NowQuietSince(mount.machine, checks[d], d);
      }
      TableAtStays(mount.machine.start, listing, mount.machine.trace, listedAt, listed);
      p := p.(listedAt := listedAt, listed := listed, checks := checks);
      r := Ok(());
    }

    /** The edit check of one drive; `from` is an earlier point of the run. */
    method CheckOne(d: DriveId, ghost from: nat) returns (r: Outcome, ghost at: nat)
      requires Ready() && from <= |mount.machine.trace|
      modifies mount.machine, mount`did, mount`raised, mount`found
      ensures Ready() && mount.Longer(old(mount.machine.trace))
      ensures r.Ok? ==> |old(mount.machine.trace)| <= at && QuietAt(mount.machine.start, mount.machine.trace, at, d) && mount.raised == old(mount.raised)
      ensures r.Err? ==> mount.Refused(d, r.error, old(mount.did), old(mount.raised), from)
    {
      hide Inv, IsRun, After, Init, OwnPart, Mirrors, QuietAt, Machine.Consistent, IsEditCheck, StateAt;
      ghost var did0, raised0 := mount.did, mount.raised;
      r, at := mount.AssertEditable(d);
      if r.Err? { mount.CheckRefused(d, r, did0, raised0); } else { mount.CheckPassed(d, r, did0, raised0); }
    }

    lemma NothingRaised(before: seq<Stopped>, did: seq<Step>, raised: seq<DriveError>, from: nat)
      requires Stops(before, did, raised, from) && FirstFailure(Answers(mount.stops[|before|..])).None?
      ensures mount.raised == raised
    {
      var all := mount.stops[|before|..];
      forall x | x in all ensures x.answer.Ok? {
        var i :| 0 <= i < |all| && all[i] == x;
        assert Answers(all)[i] == x.answer;
      }
      QuietStops(mount.machine.start, mount.machine.trace, mount.pid, from, all);
    }

    /** A failed shutdown opens the service again; a successful one leaves no saved drive mounted here. */
    method Shutdown() returns (r: Outcome)
      requires Ready()
      modifies this, mount.machine, mount`mounts, mount`did, mount`stops, mount`raised, mount`found, mount`letterFree
      ensures Ready() && (closing <==> r.Ok?)
      ensures Stops(old(mount.stops), old(mount.did), old(mount.raised), |old(mount.machine.trace)|)
      ensures old(mount.stops) <= mount.stops && FirstFailure(Answers(mount.stops[|old(mount.stops)|..])) == if r.Err? then Some(r.error) else None
      ensures r.Ok? ==> forall d | d in old(Table()) :: d !in mount.mounts
    {
      ghost var table := Table();
      closing := true;
      var ds := SavedDrives(None);
      assert DrivesOf(table, None) == table.Keys;
      r := Stop(ds);
      if r.Err? {
        closing := false;
      } else {
        forall d | d in table ensures d !in mount.mounts {
          assert d in DrivesOf(table, None);
          var i :| 0 <= i < |ds| && ds[i] == d;
        }
      }
    }
  }

  lemma StoppedQuietly(r: Outcome, mount: RcloneDriveMount, d: DriveId, before: seq<Step>, raisedBefore: seq<DriveError>, from: nat)
    requires mount.StopEnded(d, r, before, raisedBefore, from) && r.Ok?
    ensures mount.raised == raisedBefore && mount.did == before + mount.did[|before|..]
  {
  }

  lemma FreshDriveExists(table: map<DriveId, Binding>)
    ensures exists d: DriveId :: d !in table
  {
    var d := UnusedIn(table.Keys);
    assert d !in table;
  }

  lemma StillQuiet(machine: Machine, found: seq<Event>, at: nat, d: DriveId)
    requires machine.Consistent() && QuietAt(machine.start, found, at, d) && found <= machine.trace
    ensures QuietSince(machine.start, machine.trace, at, d)
  {
    QuietAtStays(machine.start, found, machine.trace, at, d);
    FoundQuiet(machine.start, machine.trace, at, d);
  }

  lemma NowQuietSince(machine: Machine, at: nat, d: DriveId)
    requires machine.Consistent() && QuietAt(machine.start, machine.trace, at, d)
    ensures QuietSince(machine.start, machine.trace, at, d)
  {
    FoundQuiet(machine.start, machine.trace, at, d);
  }

  lemma NowTable(machine: Machine)
    requires machine.Consistent()
    ensures TableAt(machine.start, machine.trace, |machine.trace|, machine.world.table)
  {
    assert machine.trace[..|machine.trace|] == machine.trace;
  }

  lemma TableAtStays(start: World, trace: seq<Event>, longer: seq<Event>, k: nat, table: map<DriveId, Binding>)
    requires TableAt(start, trace, k, table) && trace <= longer
    ensures TableAt(start, longer, k, table)
  {
    assert longer[..k] == trace[..k];
  }

  function Answers(stops: seq<Stopped>): (answers: seq<Outcome>)
    ensures |answers| == |stops|
  {
    seq(|stops|, i requires 0 <= i < |stops| => stops[i].answer)
  }

  /** The disconnects since `before` were of exactly these drives, in this order. */
  predicate StoppedInOrder(before: seq<Stopped>, stops: seq<Stopped>, ds: seq<DriveId>) {
    before <= stops && |stops| == |before| + |ds| && forall i | 0 <= i < |ds| :: stops[|before| + i].d == ds[i]
  }

  function StepsOf(stops: seq<Stopped>): seq<Step> {
    if stops == [] then [] else StepsOf(stops[..|stops| - 1]) + stops[|stops| - 1].steps
  }

  function RaisedOf(stops: seq<Stopped>): seq<DriveError> {
    if stops == [] then [] else RaisedOf(stops[..|stops| - 1]) + stops[|stops| - 1].raised
  }

  /** The answer of this disconnect is one that its steps, what its calls raised and what it found in the run explain. */
  ghost predicate Backed(start: World, trace: seq<Event>, p: Pid, from: nat, x: Stopped) {
    StopExcused(p, x.d, x.answer, x.steps, x.raised, if from <= x.found.at && StateAt(start, trace, x.found) then Some(x.found.world) else None)
  }

  /** Every disconnect since `before` is backed, and together they took all these steps and met all these errors. */
  ghost predicate Accounted(
    start: World, trace: seq<Event>, p: Pid, from: nat, before: seq<Stopped>, stops: seq<Stopped>, steps: seq<Step>, raised: seq<DriveError>)
  {
    && before <= stops && steps == StepsOf(stops[|before|..]) && raised == RaisedOf(stops[|before|..])
    && forall x | x in stops[|before|..] :: Backed(start, trace, p, from, x)
  }

  lemma BackedStays(start: World, trace: seq<Event>, longer: seq<Event>, p: Pid, from: nat, earlier: nat, x: Stopped)
    requires Backed(start, trace, p, from, x) && trace <= longer && earlier <= from
    ensures Backed(start, longer, p, earlier, x)
  {
    hide StateAt;
    if StateAt(start, trace, x.found) { StateAtStays(start, trace, longer, x.found); }
  }

  lemma NothingAccounted(start: World, trace: seq<Event>, p: Pid, from: nat, stops: seq<Stopped>)
    ensures Accounted(start, trace, p, from, stops, stops, [], [])
  {
    assert stops[|stops|..] == [];
  }

  lemma OneMoreAccounted(
    start: World, trace: seq<Event>, longer: seq<Event>, p: Pid, from: nat, later: nat, before: seq<Stopped>, stops: seq<Stopped>,
    steps: seq<Step>, raised: seq<DriveError>, x: Stopped)
    requires Accounted(start, trace, p, from, before, stops, steps, raised) && trace <= longer && from <= later
    requires Backed(start, longer, p, later, x)
    ensures Accounted(start, longer, p, from, before, stops + [x], steps + x.steps, raised + x.raised)
  {
    hide Backed;
    var all := stops[|before|..];
    assert (stops + [x])[|before|..] == all + [x] && (all + [x])[..|all|] == all;
    BackedStays(start, longer, longer, p, later, from, x);
    forall y | y in all ensures Backed(start, longer, p, from, y) { BackedStays(start, trace, longer, p, from, from, y); }
  }

  /** Disconnects that all succeed meet no error. */
  lemma {:induction false} QuietStops(start: World, trace: seq<Event>, p: Pid, from: nat, stops: seq<Stopped>)
    requires forall x | x in stops :: Backed(start, trace, p, from, x) && x.answer.Ok?
    ensures RaisedOf(stops) == []
    decreases |stops|
  {
    if stops != [] { QuietStops(start, trace, p, from, stops[..|stops| - 1]); }
  }

  lemma NoFailure()
    ensures FirstFailure(Answers([])) == None
  {
  }

  lemma OneMoreStopped(before: seq<Stopped>, stops: seq<Stopped>, ds: seq<DriveId>, one: Stopped)
    requires StoppedInOrder(before, stops, ds)
    ensures StoppedInOrder(before, stops + [one], ds + [one.d])
    ensures Answers((stops + [one])[|before|..]) == Answers(stops[|before|..]) + [one.answer]
    ensures var sofar := FirstFailure(Answers(stops[|before|..]));
      FirstFailure(Answers((stops + [one])[|before|..])) == if sofar.Some? then sofar else if one.answer.Err? then Some(one.answer.error) else None
  {
    assert (stops + [one])[|before|..] == stops[|before|..] + [one];
    assert Answers(stops[|before|..] + [one]) == Answers(stops[|before|..]) + [one.answer];
    FirstFailureSnoc(Answers(stops[|before|..]), one.answer);
  }

  predicate Mirrors(mounts: map<DriveId, MountRecord>, own: map<DriveId, Mount>) {
    forall d | d in mounts && d in own :: mounts[d].binding == own[d].binding && mounts[d].mounted == own[d].mounted
  }
}
