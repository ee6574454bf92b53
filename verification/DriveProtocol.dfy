/**
  The cross-process protocol behind S3 drive mounts, as a step system.

  Every application process owns a table of mounts; all processes share, per drive, a cache
  directory holding a lease file, a `pending.json` marker and data rclone has not sent yet.
  A step is one indivisible effect of one process, of a mount child or of a user writing into a
  mounted drive.  Nothing is assumed about how steps interleave.
 */
module DriveProtocol {
  import opened Wrappers

  type DriveId = nat
  type Pid = nat

  /** What `pending.json` records: where unsent data of a drive belongs. */
  datatype Binding = Binding(profile: nat, bucket: string, prefix: string, localPrefix: string)

  datatype Marker = Absent | Corrupt | Present(binding: Binding)

  /** One piece of cached data, tagged with the binding of the mount it was written through. */
  datatype Datum = Datum(serial: nat, binding: Binding)

  datatype Disk = Disk(marker: Marker, unsent: set<Datum>, lease: Option<Pid>)

  /** A registered rclone child.  `mounted` is the process's own flag, `alive` the child's fate. */
  datatype Mount = Mount(binding: Binding, mounted: bool, alive: bool)

  /** Where the (lock-serialised) drive operation of a process stands between two steps. */
  datatype Pc =
    | Idle
    | Opening(d: DriveId, b: Binding)  // connect has read the saved drive
    | Leased(d: DriveId, b: Binding)   // connect holds the lease, marker not yet inspected
    | Writing(d: DriveId, b: Binding)  // marker truncated, its new text incomplete
    | Marked(d: DriveId, b: Binding)   // marker complete, child not registered
    | Exited(d: DriveId)               // exit of the registered child observed
    | Clean(d: DriveId, owned: bool)   // cache read clean, marker about to be removed
    | Releasing(d: DriveId)            // registered mount about to be dropped
    | Probing(d: DriveId)              // lease taken for a check without a mount

  datatype Proc = Proc(mounts: map<DriveId, Mount>, pc: Pc)

  datatype World = World(
    disks: map<DriveId, Disk>,      // existing cache directories
    table: map<DriveId, Binding>,   // saved drives
    procs: map<Pid, Proc>,
    sent: set<(Datum, Binding)>)    // every upload so far, with the place it went to

  const NO_DISK := Disk(Absent, {}, None)

  function DiskOf(w: World, d: DriveId): Disk {
    if d in w.disks then w.disks[d] else NO_DISK
  }

  datatype Step =
    // connect
    | ReadRow(d: DriveId)
    | Forget
    | TakeLease
    | Refuse
    | BeginMarker
    | TornMarker
    | EndMarker
    | Abandon
    | Register
    | SetMounted(d: DriveId, flag: bool)
    | DropMount(d: DriveId)
    // disconnect and the edit check
    | SeeExit(d: DriveId)
    | Inspect(d: DriveId, clean: bool)   // cache_is_dirty looked at the cache
    | ReadClean
    | ReadDirty
    | GiveUp
    | Unlink
    | Release
    | TakeProbe(d: DriveId)
    | EndProbe
    // the saved drives
    | SaveRow(d: DriveId, b: Binding)
    | DeleteRow(d: DriveId)
    // the world around the operations
    | Crash
    | ChildDies(d: DriveId)
    | UserWrite(d: DriveId, serial: nat)
    | Upload(d: DriveId, x: Datum)

  datatype Event = Event(p: Pid, step: Step)

  /** Steps that the environment takes on a process's mounts, whatever the process is doing. */
  predicate OfChild(step: Step) {
    step.ChildDies? || step.UserWrite? || step.Upload?
  }

  predicate Enabled(w: World, e: Event) {
    e.p in w.procs &&
    var me := w.procs[e.p];
    match e.step
    case ReadRow(d) => me.pc.Idle? && d in w.table
    case Forget => me.pc.Opening?
    case TakeLease => me.pc.Opening? && me.pc.d !in me.mounts && DiskOf(w, me.pc.d).lease.None?
    case Refuse => me.pc.Leased?
    case BeginMarker =>
      me.pc.Leased? && DiskOf(w, me.pc.d).marker in {Absent, Present(me.pc.b)}
    case TornMarker => me.pc.Writing?
    case EndMarker => me.pc.Writing?
    case Abandon => me.pc.Marked?
    case Register => me.pc.Marked?
    case SetMounted(d, flag) => me.pc.Idle? && d in me.mounts
    case DropMount(d) => me.pc.Opening? && me.pc.d == d && d in me.mounts
    case SeeExit(d) => me.pc.Idle? && d in me.mounts && !me.mounts[d].alive
    // A clean reading means that no unsent data is there; a dirty one proves nothing.
    case Inspect(d, clean) => clean ==> DiskOf(w, d).unsent == {}
    case ReadClean => (me.pc.Exited? || me.pc.Probing?) && DiskOf(w, me.pc.d).unsent == {}
    case ReadDirty => me.pc.Exited?
    case GiveUp => me.pc.Exited? || me.pc.Clean?
    case Unlink => me.pc.Clean?
    case Release => me.pc.Releasing?
    case TakeProbe(d) =>
      me.pc.Idle? && d !in me.mounts && d in w.disks && w.disks[d].lease.None?
    case EndProbe => me.pc.Probing?
    case SaveRow(d, b) => me.pc.Idle?
    case DeleteRow(d) => me.pc.Idle?
    case Crash => true
    case ChildDies(d) => d in me.mounts
    case UserWrite(d, serial) => d in me.mounts && me.mounts[d].alive && me.mounts[d].mounted
    case Upload(d, x) => d in me.mounts && me.mounts[d].alive && x in DiskOf(w, d).unsent
  }

  // What a step does to each part of the world.

  /** The cache directory a step changes, and how. */
  function NextDisk(w: World, e: Event): Option<(DriveId, Disk)>
    requires Enabled(w, e)
  {
    var me := w.procs[e.p];
    match e.step
    case TakeLease => Some((me.pc.d, DiskOf(w, me.pc.d).(lease := Some(e.p))))
    case Refuse => Some((me.pc.d, DiskOf(w, me.pc.d).(lease := None)))
    case BeginMarker => Some((me.pc.d, DiskOf(w, me.pc.d).(marker := Corrupt)))
    case TornMarker => Some((me.pc.d, DiskOf(w, me.pc.d).(lease := None)))
    case EndMarker => Some((me.pc.d, DiskOf(w, me.pc.d).(marker := Present(me.pc.b))))
    case Abandon => Some((me.pc.d, DiskOf(w, me.pc.d).(lease := None)))
    case DropMount(d) => Some((d, DiskOf(w, d).(lease := None)))
    case Unlink => Some((me.pc.d, DiskOf(w, me.pc.d).(marker := Absent)))
    case Release => Some((me.pc.d, DiskOf(w, me.pc.d).(lease := None)))
    case TakeProbe(d) => Some((d, DiskOf(w, d).(lease := Some(e.p))))
    case EndProbe => Some((me.pc.d, DiskOf(w, me.pc.d).(lease := None)))
    case UserWrite(d, serial) => Some((d, DiskOf(w, d).(unsent := DiskOf(w, d).unsent + {Datum(serial, me.mounts[d].binding)})))
    case Upload(d, x) => Some((d, DiskOf(w, d).(unsent := DiskOf(w, d).unsent - {x})))
    case _ => None
  }

  function NextDisks(w: World, e: Event): map<DriveId, Disk>
    requires Enabled(w, e)
  {
    if e.step.Crash? then
      // A dying process takes its children and its file locks with it.
      map d | d in w.disks :: if w.disks[d].lease == Some(e.p) then w.disks[d].(lease := None) else w.disks[d]
    else if NextDisk(w, e).Some? then w.disks[NextDisk(w, e).value.0 := NextDisk(w, e).value.1]
    else w.disks
  }

  function NextPc(w: World, e: Event): Pc
    requires Enabled(w, e)
  {
    var pc := w.procs[e.p].pc;
    match e.step
    case ReadRow(d) => Opening(d, w.table[d])
    case Forget => Idle
    case TakeLease => Leased(pc.d, pc.b)
    case Refuse => Idle
    case BeginMarker => Writing(pc.d, pc.b)
    case TornMarker => Idle
    case EndMarker => Marked(pc.d, pc.b)
    case Abandon => Idle
    case Register => Idle
    case SeeExit(d) => Exited(d)
    case ReadClean => Clean(pc.d, pc.Exited?)
    case ReadDirty => Releasing(pc.d)
    case GiveUp => if pc.Clean? && !pc.owned then Probing(pc.d) else Idle
    case Unlink => if pc.owned then Releasing(pc.d) else Probing(pc.d)
    case Release => Idle
    case TakeProbe(d) => Probing(d)
    case EndProbe => Idle
    case Crash => Idle
    case _ => pc
  }

  function NextMounts(w: World, e: Event): map<DriveId, Mount>
    requires Enabled(w, e)
  {
    var me := w.procs[e.p];
    match e.step
    case Register => me.mounts[me.pc.d := Mount(me.pc.b, false, true)]
    case SetMounted(d, flag) => me.mounts[d := me.mounts[d].(mounted := flag)]
    case DropMount(d) => me.mounts - {d}
    case Release => me.mounts - {me.pc.d}
    case Crash => map[]
    case ChildDies(d) => me.mounts[d := me.mounts[d].(alive := false)]
    case _ => me.mounts
  }

  function NextTable(w: World, e: Event): map<DriveId, Binding>
    requires Enabled(w, e)
  {
    match e.step
    case SaveRow(d, b) => w.table[d := b]
    case DeleteRow(d) => w.table - {d}
    case _ => w.table
  }

  function NextSent(w: World, e: Event): set<(Datum, Binding)>
    requires Enabled(w, e)
  {
    if e.step.Upload? then w.sent + {(e.step.x, w.procs[e.p].mounts[e.step.d].binding)} else w.sent
  }

  function Apply(w: World, e: Event): World
    requires Enabled(w, e)
  {
    World(NextDisks(w, e), NextTable(w, e), w.procs[e.p := Proc(NextMounts(w, e), NextPc(w, e))], NextSent(w, e))
  }

  predicate IsRun(w: World, run: seq<Event>)
    decreases |run|
  {
    run == [] || (Enabled(w, run[0]) && IsRun(Apply(w, run[0]), run[1..]))
  }

  function After(w: World, run: seq<Event>): World
    requires IsRun(w, run)
    decreases |run|
  {
    if run == [] then w else After(Apply(w, run[0]), run[1..])
  }

  /** Any number of processes, no cache directory yet, any saved drives. */
  predicate Init(w: World) {
    w.disks == map[] && w.sent == {} && forall p | p in w.procs :: w.procs[p] == Proc(map[], Idle)
  }

  // ---- what every step keeps -------------------------------------------------------------

  /** Unsent data is covered: there is a marker, and a readable one names its binding. */
  predicate Covered(disk: Disk) {
    (disk.unsent != {} ==> !disk.marker.Absent?) &&
    (disk.marker.Present? ==> forall x | x in disk.unsent :: x.binding == disk.marker.binding)
  }

  predicate HoldsByPc(pc: Pc, d: DriveId) {
    (pc.Leased? || pc.Writing? || pc.Marked? || pc.Probing? || (pc.Clean? && !pc.owned)) && pc.d == d
  }

  predicate Holds(w: World, p: Pid, d: DriveId) {
    p in w.procs && (d in w.procs[p].mounts || HoldsByPc(w.procs[p].pc, d))
  }

  /** The lease of a drive belongs to exactly the process that has it mounted or is checking it. */
  predicate LeaseExact(w: World, p: Pid, d: DriveId) {
    DiskOf(w, d).lease == Some(p) <==> Holds(w, p, d)
  }

  predicate PcOk(w: World, p: Pid)
    requires p in w.procs
  {
    var me := w.procs[p];
    match me.pc
    case Idle => true
    case Opening(d, b) => true
    case Leased(d, b) => d !in me.mounts
    case Writing(d, b) =>
      d !in me.mounts && DiskOf(w, d).marker.Corrupt? && forall x | x in DiskOf(w, d).unsent :: x.binding == b
    case Marked(d, b) => d !in me.mounts && DiskOf(w, d).marker == Present(b)
    case Exited(d) => d in me.mounts && !me.mounts[d].alive
    case Clean(d, owned) =>
      DiskOf(w, d).unsent == {} && if owned then d in me.mounts && !me.mounts[d].alive else d !in me.mounts
    case Releasing(d) => d in me.mounts && !me.mounts[d].alive
    case Probing(d) => d !in me.mounts
  }

  /** Until a mount is being dropped, its drive's marker names the binding the child was given. */
  predicate MountOk(w: World, p: Pid, d: DriveId)
    requires p in w.procs && d in w.procs[p].mounts
  {
    w.procs[p].pc == Releasing(d) || DiskOf(w, d).marker == Present(w.procs[p].mounts[d].binding)
  }

  ghost predicate Inv(w: World) {
    && (forall d | d in w.disks :: Covered(w.disks[d]))
    && (forall p: Pid, d: DriveId :: LeaseExact(w, p, d))
    && (forall p | p in w.procs :: PcOk(w, p))
    && (forall p, d | p in w.procs && d in w.procs[p].mounts :: MountOk(w, p, d))
    && (forall s | s in w.sent :: s.0.binding == s.1)
  }

  /** A step moves a lease only between nobody and its own process. */
  lemma LeaseMovesLocally(w: World, e: Event, d: DriveId)
    requires Inv(w) && Enabled(w, e)
    ensures DiskOf(Apply(w, e), d).lease == DiskOf(w, d).lease ||
      (DiskOf(w, d).lease in {None, Some(e.p)} && DiskOf(Apply(w, e), d).lease in {None, Some(e.p)})
  {
    assert PcOk(w, e.p);
    assert LeaseExact(w, e.p, d);
  }

  lemma StepKeepsOtherLease(w: World, e: Event, p: Pid, d: DriveId)
    requires Inv(w) && Enabled(w, e) && p != e.p
    ensures LeaseExact(Apply(w, e), p, d)
  {
    LeaseMovesLocally(w, e, d);
    StepIsLocal(w, e, p, d);
    assert LeaseExact(w, p, d);
  }

  lemma StepKeepsOwnLease(w: World, e: Event, d: DriveId)
    requires Inv(w) && Enabled(w, e)
    ensures LeaseExact(Apply(w, e), e.p, d)
  {
    assert LeaseExact(w, e.p, d);
    assert PcOk(w, e.p);
  }

  lemma StepKeepsCover(w: World, e: Event, d: DriveId)
    requires Enabled(w, e) && d in Apply(w, e).disks
    requires (d in w.disks ==> Covered(w.disks[d])) && PcOk(w, e.p)
    requires d in w.procs[e.p].mounts ==> MountOk(w, e.p, d)
    ensures Covered(Apply(w, e).disks[d])
  {
  }

  /** A step leaves other processes alone, and the data of every drive its process does not hold. */
  lemma StepIsLocal(w: World, e: Event, p: Pid, d: DriveId)
    requires Inv(w) && Enabled(w, e)
    ensures Apply(w, e).procs.Keys == w.procs.Keys
    ensures p in w.procs && p != e.p ==> Apply(w, e).procs[p] == w.procs[p]
    ensures !Holds(w, e.p, d) ==>
      DiskOf(Apply(w, e), d).marker == DiskOf(w, d).marker && DiskOf(Apply(w, e), d).unsent == DiskOf(w, d).unsent
  {
    assert PcOk(w, e.p);
  }

  lemma HoldersExclude(w: World, p: Pid, q: Pid, d: DriveId)
    requires Inv(w) && Holds(w, p, d) && Holds(w, q, d)
    ensures p == q
  {
    assert LeaseExact(w, p, d) && LeaseExact(w, q, d);
  }

  lemma StepKeepsOtherPc(w: World, e: Event, p: Pid)
    requires Inv(w) && Enabled(w, e) && p in w.procs && p != e.p
    ensures PcOk(Apply(w, e), p)
  {
    assert PcOk(w, p);
    if w.procs[p].pc.Idle? {
      StepIsLocal(w, e, p, 0);
    } else {
      var d := w.procs[p].pc.d;
      StepIsLocal(w, e, p, d);
      if Holds(w, p, d) && Holds(w, e.p, d) { HoldersExclude(w, p, e.p, d); }
    }
  }

  lemma StepKeepsOwnPc(w: World, e: Event)
    requires Inv(w) && Enabled(w, e)
    ensures PcOk(Apply(w, e), e.p)
  {
    assert PcOk(w, e.p);
  }

  lemma StepKeepsOtherMount(w: World, e: Event, p: Pid, d: DriveId)
    requires Inv(w) && Enabled(w, e) && p != e.p
    requires p in w.procs && d in Apply(w, e).procs[p].mounts
    ensures MountOk(Apply(w, e), p, d)
  {
    StepIsLocal(w, e, p, d);
    assert MountOk(w, p, d);
    if Holds(w, e.p, d) { HoldersExclude(w, p, e.p, d); }
  }

  /** The marker of a mounted drive changes only when it is removed on the way to the release. */
  lemma MountedMarkerStays(w: World, e: Event, d: DriveId)
    requires Enabled(w, e) && PcOk(w, e.p) && d in w.procs[e.p].mounts
    ensures DiskOf(Apply(w, e), d).marker == DiskOf(w, d).marker || Apply(w, e).procs[e.p].pc == Releasing(d)
  {
  }

  /** A mount keeps its binding, and a mount being dropped goes on being dropped. */
  lemma MountStays(w: World, e: Event, d: DriveId)
    requires Enabled(w, e) && d in w.procs[e.p].mounts && d in Apply(w, e).procs[e.p].mounts
    ensures e.step.Register? || Apply(w, e).procs[e.p].mounts[d].binding == w.procs[e.p].mounts[d].binding
    ensures w.procs[e.p].pc == Releasing(d) ==> Apply(w, e).procs[e.p].pc == Releasing(d)
  {
  }

  lemma StepKeepsOwnMount(w: World, e: Event, d: DriveId)
    requires Inv(w) && Enabled(w, e) && d in Apply(w, e).procs[e.p].mounts
    ensures MountOk(Apply(w, e), e.p, d)
  {
    assert PcOk(w, e.p);
    if d in w.procs[e.p].mounts {
      assert MountOk(w, e.p, d);
      MountedMarkerStays(w, e, d);
      MountStays(w, e, d);
    }
  }

  lemma StepKeepsInv(w: World, e: Event)
    requires Inv(w) && Enabled(w, e)
    ensures Inv(Apply(w, e))
  {
    var w' := Apply(w, e);
    forall d | d in w'.disks ensures Covered(w'.disks[d]) {
      assert d in w.procs[e.p].mounts ==> MountOk(w, e.p, d);
      StepKeepsCover(w, e, d);
    }
    forall p: Pid, d: DriveId ensures LeaseExact(w', p, d) {
      if p == e.p { StepKeepsOwnLease(w, e, d); } else { StepKeepsOtherLease(w, e, p, d); }
    }
    forall p | p in w'.procs ensures PcOk(w', p) {
      if p == e.p { StepKeepsOwnPc(w, e); } else { StepKeepsOtherPc(w, e, p); }
    }
    forall p, d | p in w'.procs && d in w'.procs[p].mounts ensures MountOk(w', p, d) {
      if p == e.p { StepKeepsOwnMount(w, e, d); } else { StepKeepsOtherMount(w, e, p, d); }
    }
    forall s | s in w'.sent ensures s.0.binding == s.1 {
      if s !in w.sent { assert MountOk(w, e.p, e.step.d); assert LeaseExact(w, e.p, e.step.d); assert PcOk(w, e.p); }
    }
  }

  lemma {:induction false} RunKeepsInv(w: World, run: seq<Event>)
    requires Inv(w) && IsRun(w, run)
    ensures Inv(After(w, run))
    decreases |run|
  {
    if run != [] {
      StepKeepsInv(w, run[0]);
      RunKeepsInv(Apply(w, run[0]), run[1..]);
    }
  }

  // ---- main results, for every run of every set of processes --------------------------------

  /** Data that has not reached S3 stays covered, and what reached S3 went where it was written to. */
  lemma UnsentDataStaysCovered(w: World, run: seq<Event>, d: DriveId)
    requires Init(w) && IsRun(w, run)
    ensures Covered(DiskOf(After(w, run), d))
    ensures forall s | s in After(w, run).sent :: s.0.binding == s.1
  {
    RunKeepsInv(w, run);
  }

  /** A connect that gets as far as owning a child has adopted only data of its own binding. */
  lemma ConnectAdoptsOnlyItsOwnData(w: World, run: seq<Event>, p: Pid)
    requires Init(w) && IsRun(w, run) && Enabled(After(w, run), Event(p, Register))
    ensures var now := After(w, run);
      forall x | x in DiskOf(now, now.procs[p].pc.d).unsent :: x.binding == now.procs[p].pc.b
  {
    RunKeepsInv(w, run);
    assert PcOk(After(w, run), p);
  }

  /** Two processes never have one drive mounted, nor does one check a drive another has mounted. */
  lemma AtMostOneHolder(w: World, run: seq<Event>, p: Pid, q: Pid, d: DriveId)
    requires Init(w) && IsRun(w, run) && Holds(After(w, run), p, d) && Holds(After(w, run), q, d)
    ensures p == q
  {
    RunKeepsInv(w, run);
    HoldersExclude(After(w, run), p, q, d);
  }

  /** Between operations a process has a drive's lease exactly when it has the drive mounted. */
  lemma LeaseIffMounted(w: World, run: seq<Event>, p: Pid, d: DriveId)
    requires Init(w) && IsRun(w, run)
    requires p in After(w, run).procs && After(w, run).procs[p].pc.Idle?
    ensures DiskOf(After(w, run), d).lease == Some(p) <==> d in After(w, run).procs[p].mounts
  {
    RunKeepsInv(w, run);
    assert LeaseExact(After(w, run), p, d);
  }

  /** No run loses unsent data: it is still cached, or it was uploaded to its own binding. */
  lemma {:induction false} UnsentDataIsKeptOrDelivered(w: World, run: seq<Event>, d: DriveId, x: Datum)
    requires Inv(w) && IsRun(w, run) && x in DiskOf(w, d).unsent
    ensures x in DiskOf(After(w, run), d).unsent || (x, x.binding) in After(w, run).sent
    decreases |run|
  {
    if run != [] {
      var w' := Apply(w, run[0]);
      StepKeepsInv(w, run[0]);
      if x in DiskOf(w', d).unsent {
        UnsentDataIsKeptOrDelivered(w', run[1..], d, x);
      } else {
        assert forall s | s in w'.sent :: s.0.binding == s.1;
        SentOnlyGrows(w', run[1..], (x, x.binding));
      }
    }
  }

  lemma {:induction false} SentOnlyGrows(w: World, run: seq<Event>, s: (Datum, Binding))
    requires IsRun(w, run) && s in w.sent
    ensures s in After(w, run).sent
    decreases |run|
  {
    if run != [] {
      SentOnlyGrows(Apply(w, run[0]), run[1..], s);
    }
  }

  /** No process has the drive mounted and none of its data is unsent. */
  ghost predicate Quiet(w: World, d: DriveId) {
    DiskOf(w, d).unsent == {} && forall p | p in w.procs :: d !in w.procs[p].mounts
  }

  /** What the check before an edit or a delete establishes, at the moment it is made. */
  lemma EditCheckFindsQuietDrive(w: World, run: seq<Event>, p: Pid, d: DriveId)
    requires Init(w) && IsRun(w, run) && p in After(w, run).procs
    requires After(w, run).procs[p].pc == Probing(d) && DiskOf(After(w, run), d).marker.Absent?
    ensures Quiet(After(w, run), d)
  {
    var now := After(w, run);
    RunKeepsInv(w, run);
    assert Covered(DiskOf(now, d));
    forall q | q in now.procs ensures d !in now.procs[q].mounts {
      assert LeaseExact(now, p, d) && LeaseExact(now, q, d) && PcOk(now, p);
    }
  }

  predicate RegistersChild(w: World, e: Event, d: DriveId) {
    Enabled(w, e) && e.step.Register? && w.procs[e.p].pc.d == d
  }

  predicate NeverRegistersChild(w: World, run: seq<Event>, d: DriveId)
    requires IsRun(w, run)
    decreases |run|
  {
    run == [] || (!RegistersChild(w, run[0], d) && NeverRegistersChild(Apply(w, run[0]), run[1..], d))
  }

  ghost predicate QuietThroughout(w: World, run: seq<Event>, d: DriveId)
    requires IsRun(w, run)
    decreases |run|
  {
    Quiet(w, d) && (run == [] || QuietThroughout(Apply(w, run[0]), run[1..], d))
  }

  lemma StepKeepsQuiet(w: World, e: Event, d: DriveId)
    requires Quiet(w, d) && Enabled(w, e)
    ensures Quiet(Apply(w, e), d) <==> !RegistersChild(w, e, d)
  {
    if RegistersChild(w, e, d) {
      assert d in Apply(w, e).procs[e.p].mounts;
    }
  }

  /** A quiet drive stays quiet over a run exactly if no process registers a child for it. */
  lemma {:induction false} QuietUntilNextChild(w: World, run: seq<Event>, d: DriveId)
    requires Quiet(w, d) && IsRun(w, run)
    ensures QuietThroughout(w, run, d) <==> NeverRegistersChild(w, run, d)
    ensures NeverRegistersChild(w, run, d) ==> Quiet(After(w, run), d)
    decreases |run|
  {
    if run != [] {
      StepKeepsQuiet(w, run[0], d);
      if Quiet(Apply(w, run[0]), d) {
        QuietUntilNextChild(Apply(w, run[0]), run[1..], d);
      }
    }
  }

  /** The state a run has reached after k of its steps. */
  lemma {:induction false} RunSplits(w: World, run: seq<Event>, k: nat)
    requires IsRun(w, run) && k <= |run|
    ensures IsRun(w, run[..k]) && IsRun(After(w, run[..k]), run[k..]) && After(After(w, run[..k]), run[k..]) == After(w, run)
    decreases k
  {
    if k == 0 {
      assert run[..0] == [] && run[0..] == run;
    } else {
      RunSplits(Apply(w, run[0]), run[1..], k - 1);
      assert run[..k][0] == run[0] && run[..k][1..] == run[1..][..k - 1] && run[k..] == run[1..][k - 1..];
    }
  }

  lemma {:induction false} RunExtends(w: World, run: seq<Event>, e: Event)
    requires IsRun(w, run) && Enabled(After(w, run), e)
    ensures IsRun(w, run + [e]) && After(w, run + [e]) == Apply(After(w, run), e)
    decreases |run|
  {
    if run == [] {
      assert [] + [e] == [e];
    } else {
      RunExtends(Apply(w, run[0]), run[1..], e);
      assert (run + [e])[0] == run[0] && (run + [e])[1..] == run[1..] + [e];
    }
  }

  ghost predicate Reaches(w: World, run: seq<Event>, w': World) {
    IsRun(w, run) && After(w, run) == w'
  }

  lemma OneMore(w: World, run: seq<Event>, now: World, e: Event)
    requires Reaches(w, run, now) && Enabled(now, e)
    ensures Reaches(w, run + [e], Apply(now, e))
  {
    RunExtends(w, run, e);
  }

  /** Process q finds the cache disk full, which leaves an empty cache directory behind. */
  lemma OpensInVain(w: World, q: Pid, d: DriveId) returns (run: seq<Event>)
    requires w.disks == map[] && q in w.procs && w.procs[q] == Proc(map[], Idle) && d in w.table
    ensures Reaches(w, run, w.(disks := map[d := NO_DISK]))
  {
    OneMore(w, [], w, Event(q, ReadRow(d)));
    var w1 := Apply(w, Event(q, ReadRow(d)));
    run := [] + [Event(q, ReadRow(d))];
    OneMore(w, run, w1, Event(q, TakeLease));
    var w2 := Apply(w1, Event(q, TakeLease));
    run := run + [Event(q, TakeLease)];
    OneMore(w, run, w2, Event(q, Refuse));
    run := run + [Event(q, Refuse)];
    assert Apply(w2, Event(q, Refuse)).procs == w.procs;
    assert Apply(w2, Event(q, Refuse)) == w.(disks := map[d := NO_DISK]);
  }

  /** What deleting a saved drive does before it changes the row: the disconnect and the edit check. */
  function CheckSteps(d: DriveId): seq<Step> {
    [TakeProbe(d), Inspect(d, true), ReadClean, Unlink, EndProbe, TakeProbe(d), Inspect(d, true), EndProbe]
  }

  function EventsOf(p: Pid, steps: seq<Step>): (events: seq<Event>)
    ensures |events| == |steps|
  {
    seq(|steps|, i requires 0 <= i < |steps| => Event(p, steps[i]))
  }

  /** Where that leaves the world after i of these steps, with an empty cache directory. */
  function Checking(w: World, p: Pid, d: DriveId, i: nat): World {
    if i in {0, 5, 8} then w
    else w.(disks := map[d := Disk(Absent, {}, Some(p))], procs := w.procs[p := Proc(map[], if i == 3 then Clean(d, false) else Probing(d))])
  }

  lemma CheckingGoesOn(w: World, p: Pid, d: DriveId, i: nat)
    requires w.disks == map[d := NO_DISK] && p in w.procs && w.procs[p] == Proc(map[], Idle) && i < 8
    ensures Enabled(Checking(w, p, d, i), Event(p, CheckSteps(d)[i]))
    ensures Apply(Checking(w, p, d, i), Event(p, CheckSteps(d)[i])) == Checking(w, p, d, i + 1)
  {
    var w' := Apply(Checking(w, p, d, i), Event(p, CheckSteps(d)[i]));
    assert w'.procs == Checking(w, p, d, i + 1).procs;
    assert w'.disks == Checking(w, p, d, i + 1).disks;
  }

  lemma ChecksAndPasses(w0: World, run0: seq<Event>, w: World, p: Pid, d: DriveId)
    requires Reaches(w0, run0, w)
    requires w.disks == map[d := NO_DISK] && p in w.procs && w.procs[p] == Proc(map[], Idle)
    ensures Reaches(w0, run0 + EventsOf(p, CheckSteps(d)), w)
  {
    var all := EventsOf(p, CheckSteps(d));
    assert run0 + all[..0] == run0;
    for i := 0 to 8
      invariant Reaches(w0, run0 + all[..i], Checking(w, p, d, i))
    {
      CheckingGoesOn(w, p, d, i);
      OneMore(w0, run0 + all[..i], Checking(w, p, d, i), all[i]);
      assert run0 + all[..i] + [all[i]] == run0 + all[..i + 1];
    }
    assert all[..8] == all;
  }

  /** The steps of connecting a drive and writing into it. */
  function ConnectSteps(d: DriveId): seq<Step> {
    [ReadRow(d), TakeLease, BeginMarker, EndMarker, Register, SetMounted(d, true), UserWrite(d, 0)]
  }

  /** Process q is i of these steps away from w. */
  predicate Connecting(w: World, w': World, q: Pid, d: DriveId, i: nat)
    requires q in w.procs && d in w.table
  {
    && w'.table == w.table && w'.procs.Keys == w.procs.Keys && (forall p | p in w.procs && p != q :: w'.procs[p] == w.procs[p])
    && (i == 0 ==> w'.procs[q] == Proc(map[], Idle) && DiskOf(w', d) == NO_DISK)
    && (i == 1 ==> w'.procs[q] == Proc(map[], Opening(d, w.table[d])) && DiskOf(w', d) == NO_DISK)
    && (i == 2 ==> w'.procs[q] == Proc(map[], Leased(d, w.table[d])) && DiskOf(w', d).marker.Absent?)
    && (i == 3 ==> w'.procs[q] == Proc(map[], Writing(d, w.table[d])))
    && (i == 4 ==> w'.procs[q] == Proc(map[], Marked(d, w.table[d])))
    && (i >= 5 ==> w'.procs[q].pc.Idle? && d in w'.procs[q].mounts && w'.procs[q].mounts[d] == Mount(w.table[d], i > 5, true))
    && (i == 7 ==> Datum(0, w.table[d]) in DiskOf(w', d).unsent)
  }

  lemma ConnectingGoesOn(w: World, w': World, q: Pid, d: DriveId, i: nat)
    requires q in w.procs && d in w.table && i < 7 && Connecting(w, w', q, d, i)
    ensures Enabled(w', Event(q, ConnectSteps(d)[i]))
    ensures Connecting(w, Apply(w', Event(q, ConnectSteps(d)[i])), q, d, i + 1)
  {
  }

  lemma ConnectsAndWrites(w0: World, run0: seq<Event>, w: World, q: Pid, d: DriveId) returns (more: seq<Event>, w': World)
    requires Reaches(w0, run0, w)
    requires w.disks == map[d := NO_DISK] && q in w.procs && w.procs[q] == Proc(map[], Idle) && d in w.table
    ensures Reaches(w0, run0 + more, w') && forall i | 0 <= i < |more| :: more[i].p == q
    ensures w'.table == w.table && w'.procs.Keys == w.procs.Keys && (forall p | p in w.procs && p != q :: w'.procs[p] == w.procs[p])
    ensures d in w'.procs[q].mounts && Datum(0, w.table[d]) in DiskOf(w', d).unsent
  {
    more, w' := [], w;
    assert run0 + [] == run0;
    for i := 0 to 7
      invariant Reaches(w0, run0 + more, w') && forall j | 0 <= j < |more| :: more[j].p == q
      invariant Connecting(w, w', q, d, i)
    {
      hide Reaches, Connecting, Enabled, Apply;
      var e := Event(q, ConnectSteps(d)[i]);
      ConnectingGoesOn(w, w', q, d, i);
      OneMore(w0, run0 + more, w', e);
      assert run0 + more + [e] == run0 + (more + [e]);
      more, w' := more + [e], Apply(w', e);
    }
  }

  /**
    At position k of this run process p disconnected drive d and checked it, exactly as the operation does;
    then only others acted until p deleted the row.
   */
  ghost predicate DeletedAfterCheckAt(run: seq<Event>, k: nat, p: Pid, d: DriveId) {
    k + 8 < |run| && run[k..k + 8] == EventsOf(p, CheckSteps(d)) &&
    (forall e | e in run[k + 8..|run| - 1] :: e.p != p) &&
    run[|run| - 1] == Event(p, DeleteRow(d))
  }

  /**
    The lease is given back between the check and the delete, so with any second process a saved drive
    can be deleted while it is mounted with unsent data: the check is not a lock.
   */
  lemma EditCheckCanGoStale(w: World, p: Pid, q: Pid, d: DriveId)
    requires Init(w) && p in w.procs && q in w.procs && p != q && d in w.table
    ensures exists run, k, w' ::
      Reaches(w, run, w') && DeletedAfterCheckAt(run, k, p, d) && d !in w'.table && !Quiet(w', d)
  {
    var run := OpensInVain(w, q, d);
    var w1 := w.(disks := map[d := NO_DISK]);
    ChecksAndPasses(w, run, w1, p, d);
    var checked := run + EventsOf(p, CheckSteps(d));
    var more, w2 := ConnectsAndWrites(w, checked, w1, q, d);
    OneMore(w, checked + more, w2, Event(p, DeleteRow(d)));
    var whole := checked + more + [Event(p, DeleteRow(d))];
    assert whole[|run|..|run| + 8] == EventsOf(p, CheckSteps(d));
    assert whole[|run| + 8..|whole| - 1] == more;
    assert DeletedAfterCheckAt(whole, |run|, p, d);
  }
}
