/**
  Ownership of AWS Session Manager sessions in one application process, as a step system.

  One runner owns plugin processes and their AWS sessions (`owned`); `Ec2Service` and `RdsTunnelService`
  each keep their own table of the operations they started (`external`, `managed`).  Every region the
  source guards with a lock is one step.  Threads start, poll and stop operations in any interleaving.
 */
module SessionProtocol {
  import opened Wrappers

  type Op = nat       // operation id
  type Sid = nat      // AWS session id
  type Tid = nat      // a thread inside a call
  type Profile = nat

  /** What a service remembers about an operation it started. */
  datatype Entry = Session(profile: Profile) | Tunnel(profile: Profile, expiresAt: int)

  datatype Owner = Ec2 | Rds

  datatype OwnedSession = OwnedSession(session: Sid, process: nat, ended: bool, externalTerminal: bool)

  /** What a thread still has to do about an operation.  A thread without a duty has no entry. */
  datatype Duty =
    | Launching(op: Op, owner: Owner, session: Sid)  // StartSession returned
    | Registered(op: Op, owner: Owner)  // owned by the runner, not yet in its service's table
    | Popping(op: Op, owner: Owner)  // known to have ended, still to leave its service's table

  datatype Sys = Sys(
    owned: map<Op, OwnedSession>,
    external: map<Op, Entry>,
    managed: map<Op, Entry>,
    sessions: map<Op, Sid>,      // the session StartSession returned for each operation so far
    tracked: set<Op>,            // operations that have been in a table so far
    attempts: multiset<Sid>,     // every EndSession call so far
    duties: map<Tid, Duty>,
    tunnelLock: Option<Tid>)     // RdsTunnelService._managed_lock

  datatype Step =
    | StartSession(op: Op, owner: Owner, session: Sid)
    | LaunchFails
    | Own(process: nat)
    | ObserverFails
    | Track(entry: Entry)
    | Finish(op: Op, owner: Owner)   // the runner saw the end of op, or stopped it
    | Missing(op: Op, owner: Owner)  // the runner no longer owns op
    | Pop
    | LockTunnels
    | UnlockTunnels

  datatype Event = Event(t: Tid, step: Step)

  function Table(s: Sys, owner: Owner): map<Op, Entry> {
    if owner.Ec2? then s.external else s.managed
  }

  /** Entries of the tunnel table change only under its lock. */
  predicate MayTouch(s: Sys, t: Tid, owner: Owner) {
    owner.Rds? ==> s.tunnelLock == Some(t)
  }

  predicate Enabled(s: Sys, e: Event) {
    match e.step
    case StartSession(op, owner, session) =>
      e.t !in s.duties && op !in s.sessions && session !in s.sessions.Values
    case LaunchFails => e.t in s.duties && s.duties[e.t].Launching?
    case Own(process) => e.t in s.duties && s.duties[e.t].Launching?
    case ObserverFails => e.t in s.duties && s.duties[e.t].Registered? && s.duties[e.t].op in s.owned
    case Track(entry) => e.t in s.duties && s.duties[e.t].Registered? && MayTouch(s, e.t, s.duties[e.t].owner)
    case Finish(op, owner) => e.t !in s.duties && op in s.owned && op in Table(s, owner) && MayTouch(s, e.t, owner)
    case Missing(op, owner) => e.t !in s.duties && op !in s.owned && op in s.tracked && MayTouch(s, e.t, owner)
    case Pop => e.t in s.duties && s.duties[e.t].Popping? && MayTouch(s, e.t, s.duties[e.t].owner)
    case LockTunnels => s.tunnelLock.None?
    case UnlockTunnels => s.tunnelLock == Some(e.t) && (e.t in s.duties ==> !s.duties[e.t].Popping?)
  }

  function Attempted(attempts: multiset<Sid>, session: Sid): multiset<Sid> {
    attempts[session := attempts[session] + 1]
  }

  // What a step does to each part of the state.

  function NextOwned(s: Sys, e: Event): map<Op, OwnedSession>
    requires Enabled(s, e)
  {
    match e.step
    case Own(process) =>    // EC2 sessions run in a terminal of their own, tunnels do not
      s.owned[s.duties[e.t].op := OwnedSession(s.duties[e.t].session, process, false, s.duties[e.t].owner.Ec2?)]
    case ObserverFails => s.owned - {s.duties[e.t].op}
    case Finish(op, owner) => s.owned - {op}
    case _ => s.owned
  }

  function NextTable(s: Sys, e: Event, owner: Owner): map<Op, Entry>
    requires Enabled(s, e)
  {
    match e.step
    case Track(entry) => if s.duties[e.t].owner == owner then Table(s, owner)[s.duties[e.t].op := entry] else Table(s, owner)
    case Pop => if s.duties[e.t].owner == owner then Table(s, owner) - {s.duties[e.t].op} else Table(s, owner)
    case _ => Table(s, owner)
  }

  function NextSessions(s: Sys, e: Event): map<Op, Sid>
    requires Enabled(s, e)
  {
    if e.step.StartSession? then s.sessions[e.step.op := e.step.session] else s.sessions
  }

  function NextTracked(s: Sys, e: Event): set<Op>
    requires Enabled(s, e)
  {
    if e.step.Track? then s.tracked + {s.duties[e.t].op} else s.tracked
  }

  function NextAttempts(s: Sys, e: Event): multiset<Sid>
    requires Enabled(s, e)
  {
    match e.step
    case LaunchFails => Attempted(s.attempts, s.duties[e.t].session)
    case ObserverFails => Attempted(s.attempts, s.owned[s.duties[e.t].op].session)
    case Finish(op, owner) => Attempted(s.attempts, s.owned[op].session)
    case _ => s.attempts
  }

  /** What the acting thread has to do next, if anything. */
  function NextDuty(s: Sys, e: Event): Option<Duty>
    requires Enabled(s, e)
  {
    match e.step
    case StartSession(op, owner, session) => Some(Launching(op, owner, session))
    case LaunchFails => None
    case Own(_) => Some(Registered(s.duties[e.t].op, s.duties[e.t].owner))
    case ObserverFails => None
    case Track(_) => None
    case Finish(op, owner) => Some(Popping(op, owner))
    case Missing(op, owner) => Some(Popping(op, owner))
    case Pop => None
    case _ => if e.t in s.duties then Some(s.duties[e.t]) else None
  }

  function NextLock(s: Sys, e: Event): Option<Tid>
    requires Enabled(s, e)
  {
    match e.step
    case LockTunnels => Some(e.t)
    case UnlockTunnels => None
    case _ => s.tunnelLock
  }

  function Apply(s: Sys, e: Event): Sys
    requires Enabled(s, e)
  {
    Sys(
      NextOwned(s, e),
      NextTable(s, e, Ec2),
      NextTable(s, e, Rds),
      NextSessions(s, e),
      NextTracked(s, e),
      NextAttempts(s, e),
      if NextDuty(s, e).Some? then s.duties[e.t := NextDuty(s, e).value] else s.duties - {e.t},
      NextLock(s, e))
  }

  predicate IsRun(s: Sys, run: seq<Event>)
    decreases |run|
  {
    run == [] || (Enabled(s, run[0]) && IsRun(Apply(s, run[0]), run[1..]))
  }

  function After(s: Sys, run: seq<Event>): Sys
    requires IsRun(s, run)
    decreases |run|
  {
    if run == [] then s else After(Apply(s, run[0]), run[1..])
  }

  const START := Sys(map[], map[], map[], map[], {}, multiset{}, map[], None)

  // ---- what every step keeps -------------------------------------------------------------------

  /** Some thread is about to remove op from its owner's table. */
  ghost predicate BeingPopped(s: Sys, op: Op, owner: Owner) {
    exists t | t in s.duties :: s.duties[t] == Popping(op, owner)
  }

  /** Some thread has registered op with the runner and is about to track it. */
  ghost predicate BeingTracked(s: Sys, op: Op) {
    exists t | t in s.duties :: s.duties[t].Registered? && s.duties[t].op == op
  }

  ghost predicate BeingLaunched(s: Sys, op: Op) {
    exists t | t in s.duties :: s.duties[t].Launching? && s.duties[t].op == op
  }

  /** The AWS session of op is still somebody's responsibility. */
  ghost predicate Live(s: Sys, op: Op) {
    op in s.owned || BeingLaunched(s, op)
  }

  /** An owned operation is in exactly one table, or its start has not returned yet. */
  ghost predicate OwnedOk(s: Sys, op: Op)
    requires op in s.owned
  {
    op in s.sessions && s.owned[op].session == s.sessions[op] && !s.owned[op].ended &&
    (op in s.external || op in s.managed || BeingTracked(s, op))
  }

  /** An operation in a table is owned, or some thread is about to take it out. */
  ghost predicate EntryOk(s: Sys, owner: Owner, op: Op)
    requires op in Table(s, owner)
  {
    op in s.tracked && op !in Table(s, if owner.Ec2? then Rds else Ec2) && (op in s.owned || BeingPopped(s, op, owner))
    && (op in s.owned ==> s.owned[op].externalTerminal == owner.Ec2?)
  }

  /** EndSession has been attempted once if nobody is responsible for the session, and never otherwise. */
  ghost predicate AttemptsOk(s: Sys, op: Op)
    requires op in s.sessions
  {
    s.attempts[s.sessions[op]] == if Live(s, op) then 0 else 1
  }

  predicate DutyOk(s: Sys, t: Tid)
    requires t in s.duties
  {
    match s.duties[t]
    case Launching(op, owner, session) =>
      op in s.sessions && s.sessions[op] == session && op !in s.owned && op !in s.tracked
    case Registered(op, owner) => op in s.owned && op !in s.tracked && s.owned[op].externalTerminal == owner.Ec2?
    case Popping(op, owner) => op in s.tracked && op !in s.owned && MayTouch(s, t, owner)
  }

  /** Two threads meet on one operation only when both are removing it. */
  predicate DutiesApart(s: Sys, t: Tid, u: Tid)
    requires t in s.duties && u in s.duties
  {
    t != u && s.duties[t].op == s.duties[u].op ==> s.duties[t].Popping? && s.duties[u].Popping?
  }

  ghost predicate Inv(s: Sys) {
    && (forall op | op in s.owned :: OwnedOk(s, op))
    && (forall owner, op | op in Table(s, owner) :: EntryOk(s, owner, op))
    && (forall op | op in s.sessions :: AttemptsOk(s, op))
    && (forall t | t in s.duties :: DutyOk(s, t))
    && (forall t, u | t in s.duties && u in s.duties :: DutiesApart(s, t, u))
    && (forall a, b | a in s.sessions && b in s.sessions :: s.sessions[a] == s.sessions[b] ==> a == b)
    && s.tracked <= s.sessions.Keys
    && (forall sid | sid in s.attempts :: sid in s.sessions.Values)
  }

  // One clause at a time, from the few instances of the invariant that the clause needs.

  lemma StepKeepsOwnDuty(s: Sys, e: Event)
    requires Enabled(s, e) && e.t in Apply(s, e).duties
    requires e.t in s.duties ==> DutyOk(s, e.t)
    requires s.tracked <= s.sessions.Keys && s.owned.Keys <= s.sessions.Keys
    requires (e.step.Finish? ==> e.step.op in s.tracked)
    ensures DutyOk(Apply(s, e), e.t)
  {
  }

  lemma StepKeepsOtherDuty(s: Sys, e: Event, t: Tid)
    requires Enabled(s, e) && t in s.duties && t != e.t
    requires DutyOk(s, t) && (e.t in s.duties ==> DutyOk(s, e.t) && DutiesApart(s, t, e.t))
    requires s.tracked <= s.sessions.Keys && s.owned.Keys <= s.sessions.Keys
    requires e.step.Finish? ==> e.step.op in s.tracked
    ensures DutyOk(Apply(s, e), t)
  {
  }

  lemma NewlyOwnedIsOk(s: Sys, e: Event, op: Op)
    requires Enabled(s, e) && op in Apply(s, e).owned && op !in s.owned
    requires e.t in s.duties ==> DutyOk(s, e.t)
    ensures OwnedOk(Apply(s, e), op)
  {
    assert Apply(s, e).duties[e.t].op == op;
  }

  /** While the runner owns an operation, its registration stays as it is and its table entry stays. */
  lemma OwnedStays(s: Sys, e: Event, op: Op)
    requires Enabled(s, e) && op in Apply(s, e).owned && op in s.owned && op in s.sessions
    requires e.t in s.duties ==> DutyOk(s, e.t)
    ensures Apply(s, e).owned[op] == s.owned[op] && op in Apply(s, e).sessions && Apply(s, e).sessions[op] == s.sessions[op]
    ensures op in s.external ==> op in Apply(s, e).external
    ensures op in s.managed ==> op in Apply(s, e).managed
  {
  }

  lemma StepKeepsOwned(s: Sys, e: Event, op: Op)
    requires Enabled(s, e) && op in Apply(s, e).owned && op in s.owned
    requires OwnedOk(s, op) && (e.t in s.duties ==> DutyOk(s, e.t))
    ensures OwnedOk(Apply(s, e), op)
  {
    var s' := Apply(s, e);
    OwnedStays(s, e, op);
    if op !in s.external && op !in s.managed {
      var t :| t in s.duties && s.duties[t].Registered? && s.duties[t].op == op;
      TrackerStays(s, e, op, t);
    }
  }

  lemma TrackerStays(s: Sys, e: Event, op: Op, t: Tid)
    requires Enabled(s, e) && op in Apply(s, e).owned && t in s.duties && s.duties[t].Registered? && s.duties[t].op == op
    ensures op in Apply(s, e).external || op in Apply(s, e).managed || (t in Apply(s, e).duties && Apply(s, e).duties[t] == s.duties[t])
  {
  }

  lemma StepKeepsEntry(s: Sys, e: Event, owner: Owner, op: Op)
    requires Enabled(s, e) && op in Table(Apply(s, e), owner) && op in Table(s, owner)
    requires EntryOk(s, owner, op) && (e.t in s.duties ==> DutyOk(s, e.t))
    ensures EntryOk(Apply(s, e), owner, op)
  {
    var s' := Apply(s, e);
    if op in s.owned {
      if op !in s'.owned {
        assert s'.duties[e.t] == Popping(op, owner);
      }
    } else {
      var t :| t in s.duties && s.duties[t] == Popping(op, owner);
      assert s'.duties[t] == s.duties[t];
    }
  }

  lemma NewEntryIsOk(s: Sys, e: Event, owner: Owner, op: Op)
    requires Enabled(s, e) && op in Table(Apply(s, e), owner) && op !in Table(s, owner)
    requires e.t in s.duties ==> DutyOk(s, e.t)
    requires forall o | op in Table(s, o) :: EntryOk(s, o, op)
    ensures EntryOk(Apply(s, e), owner, op)
  {
    var other := if owner.Ec2? then Rds else Ec2;
    assert op in Table(s, other) ==> EntryOk(s, other, op);
  }

  /** The operation, if any, whose session a step ends. */
  function EndedBy(s: Sys, e: Event): Option<Op>
    requires Enabled(s, e)
  {
    match e.step
    case LaunchFails => Some(s.duties[e.t].op)
    case ObserverFails => Some(s.duties[e.t].op)
    case Finish(op, owner) => Some(op)
    case _ => None
  }

  lemma LiveChangesOnlyByEnding(s: Sys, e: Event, op: Op)
    requires Enabled(s, e) && op in s.sessions && EndedBy(s, e) != Some(op)
    ensures Live(Apply(s, e), op) == Live(s, op)
  {
    var s' := Apply(s, e);
    if BeingLaunched(s, op) {
      var t :| t in s.duties && s.duties[t].Launching? && s.duties[t].op == op;
      assert t in s'.duties ==> s'.duties[t] == s.duties[t] || op in s'.owned;
    }
    if BeingLaunched(s', op) {
      var t :| t in s'.duties && s'.duties[t].Launching? && s'.duties[t].op == op;
      assert t in s.duties && s.duties[t] == s'.duties[t];
    }
  }

  lemma EndingEndsLife(s: Sys, e: Event, op: Op)
    requires Enabled(s, e) && EndedBy(s, e) == Some(op)
    requires e.t in s.duties ==> DutyOk(s, e.t)
    requires forall t | t in s.duties :: DutyOk(s, t) && (e.t in s.duties ==> DutiesApart(s, t, e.t))
    ensures Live(s, op) && !Live(Apply(s, e), op)
  {
  }

  lemma EndingIsAttempted(s: Sys, e: Event)
    requires Enabled(s, e)
    requires e.t in s.duties ==> DutyOk(s, e.t)
    requires EndedBy(s, e).Some? && EndedBy(s, e).value in s.owned ==> OwnedOk(s, EndedBy(s, e).value)
    ensures EndedBy(s, e).None? ==> Apply(s, e).attempts == s.attempts
    ensures EndedBy(s, e).Some? ==> EndedBy(s, e).value in s.sessions
    ensures EndedBy(s, e).Some? ==> Apply(s, e).attempts == Attempted(s.attempts, s.sessions[EndedBy(s, e).value])
    ensures forall op | op in s.sessions :: op in Apply(s, e).sessions && Apply(s, e).sessions[op] == s.sessions[op]
  {
    hide BeingTracked;
  }

  lemma NewSessionIsUnattempted(s: Sys, e: Event, op: Op)
    requires Enabled(s, e) && op in Apply(s, e).sessions && op !in s.sessions
    requires forall sid | sid in s.attempts :: sid in s.sessions.Values
    ensures AttemptsOk(Apply(s, e), op)
  {
    assert Apply(s, e).duties[e.t].Launching? && Apply(s, e).duties[e.t].op == op;
  }

  lemma StepKeepsAttempts(s: Sys, e: Event, op: Op)
    requires Inv(s) && Enabled(s, e) && op in Apply(s, e).sessions
    ensures AttemptsOk(Apply(s, e), op)
  {
    hide Apply, Enabled, Live, DutyOk, DutiesApart;
    assert forall o | o in s.owned :: OwnedOk(s, o);
    if op in s.sessions {
      assert AttemptsOk(s, op);
      if e.t in s.duties { assert DutyOk(s, e.t); }
      EndingIsAttempted(s, e);
      if EndedBy(s, e) == Some(op) {
        EndingEndsLife(s, e, op);
      } else {
        LiveChangesOnlyByEnding(s, e, op);
      }
    } else {
      NewSessionIsUnattempted(s, e, op);
    }
  }

  lemma StepKeepsApart(s: Sys, e: Event, t: Tid, u: Tid)
    requires Enabled(s, e) && t in Apply(s, e).duties && u in Apply(s, e).duties
    requires t in s.duties && u in s.duties ==> DutiesApart(s, t, u)
    requires (t in s.duties ==> DutyOk(s, t)) && (u in s.duties ==> DutyOk(s, u))
    requires s.tracked <= s.sessions.Keys && s.owned.Keys <= s.sessions.Keys
    requires e.step.Finish? ==> e.step.op in s.tracked
    ensures DutiesApart(Apply(s, e), t, u)
  {
  }

  lemma StepKeepsSessionsApart(s: Sys, e: Event, a: Op, b: Op)
    requires Enabled(s, e) && a in Apply(s, e).sessions && b in Apply(s, e).sessions && a != b
    requires a in s.sessions && b in s.sessions ==> s.sessions[a] != s.sessions[b]
    ensures Apply(s, e).sessions[a] != Apply(s, e).sessions[b]
  {
    hide BeingTracked, BeingPopped, BeingLaunched;
    assert a in s.sessions ==> s.sessions[a] in s.sessions.Values;
    assert b in s.sessions ==> s.sessions[b] in s.sessions.Values;
  }

  lemma StepKeepsTracked(s: Sys, e: Event)
    requires Enabled(s, e) && s.tracked <= s.sessions.Keys && s.owned.Keys <= s.sessions.Keys
    requires e.t in s.duties ==> DutyOk(s, e.t)
    ensures Apply(s, e).tracked <= Apply(s, e).sessions.Keys
  {
  }

  lemma StepKeepsAttempted(s: Sys, e: Event)
    requires Enabled(s, e)
    requires e.t in s.duties ==> DutyOk(s, e.t)
    requires EndedBy(s, e).Some? && EndedBy(s, e).value in s.owned ==> OwnedOk(s, EndedBy(s, e).value)
    requires forall sid | sid in s.attempts :: sid in s.sessions.Values
    ensures forall sid | sid in Apply(s, e).attempts :: sid in Apply(s, e).sessions.Values
  {
    hide Apply, Enabled, OwnedOk, DutyOk, EndedBy;
    var s' := Apply(s, e);
    EndingIsAttempted(s, e);
    forall sid | sid in s'.attempts ensures sid in s'.sessions.Values {
      if sid in s.attempts {
        var op :| op in s.sessions && s.sessions[op] == sid;
        assert s'.sessions[op] == sid;
      } else {
        assert s'.sessions[EndedBy(s, e).value] == sid;
      }
    }
  }

  lemma StepKeepsInv(s: Sys, e: Event)
    requires Inv(s) && Enabled(s, e)
    ensures Inv(Apply(s, e))
  {
    hide Apply, Enabled, DutyOk, DutiesApart, AttemptsOk;
    var s' := Apply(s, e);
    StepFacts(s, e);
    StepKeepsTracked(s, e);
    StepKeepsAttempted(s, e);
    forall a, b | a in s'.sessions && b in s'.sessions && a != b ensures s'.sessions[a] != s'.sessions[b] {
      StepKeepsSessionsApart(s, e, a, b);
    }
    forall op | op in s'.owned ensures OwnedOk(s', op) {
      if op in s.owned { StepKeepsOwned(s, e, op); } else { NewlyOwnedIsOk(s, e, op); }
    }
    forall owner, op | op in Table(s', owner) ensures EntryOk(s', owner, op) {
      if op in Table(s, owner) { StepKeepsEntry(s, e, owner, op); } else { NewEntryIsOk(s, e, owner, op); }
    }
    forall op | op in s'.sessions ensures AttemptsOk(s', op) {
      StepKeepsAttempts(s, e, op);
    }
    forall t | t in s'.duties ensures DutyOk(s', t) {
      if t == e.t { StepKeepsOwnDuty(s, e); } else { StepKeepsOtherDuty(s, e, t); }
    }
    forall t, u | t in s'.duties && u in s'.duties ensures DutiesApart(s', t, u) {
      StepKeepsApart(s, e, t, u);
    }
  }

  lemma StepFacts(s: Sys, e: Event)
    requires Inv(s) && Enabled(s, e)
    ensures s.owned.Keys <= s.sessions.Keys
    ensures e.step.Finish? ==> e.step.op in s.tracked
    ensures forall t | t in Apply(s, e).duties && t != e.t :: t in s.duties
  {
    forall op | op in s.owned ensures op in s.sessions { assert OwnedOk(s, op); }
    if e.step.Finish? { assert EntryOk(s, e.step.owner, e.step.op); }
  }

  lemma {:induction false} RunKeepsInv(s: Sys, run: seq<Event>)
    requires Inv(s) && IsRun(s, run)
    ensures Inv(After(s, run))
    decreases |run|
  {
    if run != [] {
      StepKeepsInv(s, run[0]);
      RunKeepsInv(Apply(s, run[0]), run[1..]);
    }
  }

  lemma {:induction false} RunExtends(s: Sys, run: seq<Event>, e: Event)
    requires IsRun(s, run) && Enabled(After(s, run), e)
    ensures IsRun(s, run + [e]) && After(s, run + [e]) == Apply(After(s, run), e)
    decreases |run|
  {
    hide Enabled, Apply;
    if run == [] {
      assert [] + [e] == [e];
    } else {
      RunExtends(Apply(s, run[0]), run[1..], e);
      assert (run + [e])[0] == run[0] && (run + [e])[1..] == run[1..] + [e];
    }
  }

  // ---- main results, for every interleaving -----------------------------------------------------

  /**
    When no thread is between two steps of a call, the runner owns exactly the operations that EC2 and
    RDS track, and no operation is tracked by both.
   */
  lemma RegistriesAgree(run: seq<Event>)
    requires IsRun(START, run) && After(START, run).duties == map[]
    ensures var s := After(START, run);
      s.owned.Keys == s.external.Keys + s.managed.Keys && s.external.Keys !! s.managed.Keys
  {
    RunKeepsInv(START, run);
    RegistriesAgreeWhenIdle(After(START, run));
  }

  lemma RegistriesAgreeWhenIdle(s: Sys)
    requires Inv(s) && s.duties == map[]
    ensures s.owned.Keys == s.external.Keys + s.managed.Keys && s.external.Keys !! s.managed.Keys
  {
    hide AttemptsOk;
    forall op ensures op in s.owned <==> op in s.external || op in s.managed {
      assert op in s.owned ==> OwnedOk(s, op);
      assert op in Table(s, Ec2) ==> EntryOk(s, Ec2, op);
      assert op in Table(s, Rds) ==> EntryOk(s, Rds, op);
    }
    forall op | op in s.external ensures op !in s.managed {
      assert EntryOk(s, Ec2, op);
    }
  }

  /** Whoever finds the tunnel lock free finds only owned operations in the tunnel table. */
  lemma FreeTunnelTableIsOwned(run: seq<Event>)
    requires IsRun(START, run) && After(START, run).tunnelLock.None?
    ensures After(START, run).managed.Keys <= After(START, run).owned.Keys
  {
    RunKeepsInv(START, run);
    var s := After(START, run);
    forall op | op in s.managed ensures op in s.owned {
      assert EntryOk(s, Rds, op);
    }
  }

  /**
    Every session StartSession ever returned has EndSession attempted zero times while the runner owns
    it or its start is still launching, and exactly once from then on.
   */
  lemma EachSessionIsEndedOnce(run: seq<Event>, op: Op)
    requires IsRun(START, run) && op in After(START, run).sessions
    ensures var s := After(START, run);
      s.attempts[s.sessions[op]] == if op in s.owned || BeingLaunched(s, op) then 0 else 1
  {
    RunKeepsInv(START, run);
    assert AttemptsOk(After(START, run), op);
  }

  // ---- what other threads leave alone -----------------------------------------------------------

  /** Operations only ever leave the runner and the tables, and a table entry outlives its ownership. */
  ghost predicate Forward(s: Sys, s': Sys) {
    && s.tracked <= s'.tracked && (forall op | op in s.sessions :: op in s'.sessions && s'.sessions[op] == s.sessions[op])
    && (forall op | op in s.tracked && op in s'.owned :: op in s.owned && s'.owned[op] == s.owned[op])
    && (forall op | op in s.external && op in s'.owned :: op in s'.external && s'.external[op] == s.external[op])
    && (forall op | op in s.managed && op in s'.owned :: op in s'.managed && s'.managed[op] == s.managed[op])
    && (forall op | op in s.tracked && op in s'.external :: op in s.external && s'.external[op] == s.external[op])
    && (forall op | op in s.tracked && op in s'.managed :: op in s.managed && s'.managed[op] == s.managed[op])
  }

  /** What thread t may rely on while the others run. */
  ghost predicate Undisturbed(s: Sys, s': Sys, t: Tid) {
    && Forward(s, s')
    && (t in s.duties <==> t in s'.duties) && (t in s.duties ==> s'.duties[t] == s.duties[t])
    && (t in s.duties && s.duties[t].Registered? && s.duties[t].op in s.owned ==>
          s.duties[t].op in s'.owned && s'.owned[s.duties[t].op] == s.owned[s.duties[t].op])
    && (s.tunnelLock == Some(t) <==> s'.tunnelLock == Some(t))
    && (s.tunnelLock == Some(t) ==> s'.managed == s.managed)
  }

  lemma TrackedOpIsNotOwnedAgain(s: Sys, e: Event, op: Op)
    requires Enabled(s, e) && op in s.tracked && (e.t in s.duties ==> DutyOk(s, e.t))
    ensures op in Apply(s, e).owned ==> op in s.owned && Apply(s, e).owned[op] == s.owned[op]
  {
  }

  lemma TrackedOpIsNotEnteredAgain(s: Sys, e: Event, op: Op)
    requires Enabled(s, e) && op in s.tracked && (e.t in s.duties ==> DutyOk(s, e.t))
    ensures op in Apply(s, e).external ==> op in s.external && Apply(s, e).external[op] == s.external[op]
    ensures op in Apply(s, e).managed ==> op in s.managed && Apply(s, e).managed[op] == s.managed[op]
  {
  }

  lemma StepMovesForward(s: Sys, e: Event)
    requires Inv(s) && Enabled(s, e)
    ensures Forward(s, Apply(s, e))
  {
    hide Apply, Enabled, DutyOk, DutiesApart, AttemptsOk;
    var s' := Apply(s, e);
    if e.t in s.duties { assert DutyOk(s, e.t); }
    StepGrows(s, e);
    forall op | op in s.tracked
      ensures op in s'.owned ==> op in s.owned && s'.owned[op] == s.owned[op]
      ensures op in s'.external ==> op in s.external && s'.external[op] == s.external[op]
      ensures op in s'.managed ==> op in s.managed && s'.managed[op] == s.managed[op]
    {
      TrackedOpIsNotOwnedAgain(s, e, op);
      TrackedOpIsNotEnteredAgain(s, e, op);
    }
    forall op | op in s'.owned && op in s.external ensures op in s'.external && s'.external[op] == s.external[op] {
      assert EntryOk(s, Ec2, op);
      OwnedStays(s, e, op);
    }
    forall op | op in s'.owned && op in s.managed ensures op in s'.managed && s'.managed[op] == s.managed[op] {
      assert EntryOk(s, Rds, op);
      OwnedStays(s, e, op);
    }
  }

  lemma StepGrows(s: Sys, e: Event)
    requires Enabled(s, e)
    ensures s.tracked <= Apply(s, e).tracked
    ensures forall op | op in s.sessions :: op in Apply(s, e).sessions && Apply(s, e).sessions[op] == s.sessions[op]
  {
  }

  lemma StepLeavesOtherThread(s: Sys, e: Event, t: Tid)
    requires Enabled(s, e) && e.t != t
    requires e.t in s.duties ==> DutyOk(s, e.t)
    requires t in s.duties && e.t in s.duties ==> DutiesApart(s, t, e.t)
    requires t in s.duties ==> DutyOk(s, t)
    requires e.step.Finish? ==> e.step.op in s.tracked
    ensures var s' := Apply(s, e);
      && (t in s.duties <==> t in s'.duties) && (t in s.duties ==> s'.duties[t] == s.duties[t])
      && (t in s.duties && s.duties[t].Registered? ==>
            s.duties[t].op in s'.owned && s'.owned[s.duties[t].op] == s.owned[s.duties[t].op])
  {
  }

  lemma StepLeavesLock(s: Sys, e: Event, t: Tid)
    requires Enabled(s, e) && e.t != t
    ensures s.tunnelLock == Some(t) <==> Apply(s, e).tunnelLock == Some(t)
  {
  }

  lemma StepLeavesLockedTable(s: Sys, e: Event, t: Tid)
    requires Enabled(s, e) && e.t != t && s.tunnelLock == Some(t)
    ensures Apply(s, e).managed == s.managed
  {
  }

  lemma AttemptsGrow(s: Sys, e: Event)
    requires Enabled(s, e)
    ensures forall sid :: s.attempts[sid] > 0 ==> Apply(s, e).attempts[sid] > 0
  {
  }

  lemma OtherThreadStep(s: Sys, e: Event, t: Tid)
    requires Inv(s) && Enabled(s, e) && e.t != t
    ensures Undisturbed(s, Apply(s, e), t)
  {
    hide Apply, Enabled, Forward;
    StepMovesForward(s, e);
    if e.t in s.duties { assert DutyOk(s, e.t); }
    if t in s.duties { assert DutyOk(s, t); }
    StepFacts(s, e);
    StepLeavesOtherThread(s, e, t);
    StepLeavesLock(s, e, t);
    if s.tunnelLock == Some(t) { StepLeavesLockedTable(s, e, t); }
  }

  lemma TablesAreTracked(s: Sys)
    requires Inv(s)
    ensures s.external.Keys + s.managed.Keys <= s.tracked
  {
    forall op | op in s.external ensures op in s.tracked { assert EntryOk(s, Ec2, op); }
    forall op | op in s.managed ensures op in s.tracked { assert EntryOk(s, Rds, op); }
  }

  lemma UndisturbedItself(s: Sys, t: Tid)
    ensures Undisturbed(s, s, t)
  {
  }

  lemma ForwardItself(s: Sys)
    ensures Forward(s, s)
  {
  }

  lemma ForwardTrans(s: Sys, s': Sys, s'': Sys)
    requires Forward(s, s') && Forward(s', s'') && s.external.Keys + s.managed.Keys <= s.tracked
    ensures Forward(s, s'')
  {
  }

  lemma UndisturbedTrans(s: Sys, s': Sys, s'': Sys, t: Tid)
    requires Undisturbed(s, s', t) && Undisturbed(s', s'', t) && s.external.Keys + s.managed.Keys <= s.tracked
    ensures Undisturbed(s, s'', t)
  {
  }

  lemma LockFacts(s: Sys, t: Tid)
    requires s.tunnelLock.None?
    ensures Enabled(s, Event(t, LockTunnels))
    ensures Apply(s, Event(t, LockTunnels)) == s.(tunnelLock := Some(t))
  {
  }

  lemma TablesAreDisjoint(s: Sys)
    requires Inv(s)
    ensures s.external.Keys !! s.managed.Keys
  {
    forall op | op in s.external ensures op !in s.managed { assert EntryOk(s, Ec2, op); }
  }

  /** Nothing is left of an operation that was once tracked, and its session has been ended once. */
  ghost predicate Gone(s: Sys, op: Op) {
    && op in s.tracked && op !in s.owned && op !in s.external && op !in s.managed
    && op in s.sessions && s.attempts[s.sessions[op]] == 1
  }

  lemma GoneOnceUntracked(s: Sys, op: Op)
    requires Inv(s) && op in s.tracked && op !in s.owned && op !in s.external && op !in s.managed
    ensures Gone(s, op)
  {
    assert AttemptsOk(s, op);
    forall t | t in s.duties && s.duties[t].Launching? ensures s.duties[t].op != op {
      assert DutyOk(s, t);
    }
  }

  lemma SessionStays(s: Sys, s': Sys, op: Op)
    requires Forward(s, s') && op in s.sessions
    ensures op in s'.sessions && s'.sessions[op] == s.sessions[op]
  {
  }

  lemma ForwardOp(s: Sys, s': Sys, op: Op)
    requires Forward(s, s') && op in s.tracked
    ensures op in s'.tracked
    ensures op in s'.owned ==> op in s.owned && s'.owned[op] == s.owned[op]
    ensures op in s'.external ==> op in s.external && s'.external[op] == s.external[op]
    ensures op in s'.managed ==> op in s.managed && s'.managed[op] == s.managed[op]
    ensures op in s.external && op in s'.owned ==> op in s'.external && s'.external[op] == s.external[op]
    ensures op in s.managed && op in s'.owned ==> op in s'.managed && s'.managed[op] == s.managed[op]
  {
  }

  lemma GoneStays(s: Sys, s': Sys, op: Op)
    requires Gone(s, op) && Inv(s') && Forward(s, s')
    ensures Gone(s', op)
  {
    GoneOnceUntracked(s', op);
  }
}
