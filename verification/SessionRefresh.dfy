/**
  When a stored session is due for refresh, and how often concurrent refreshes ask AWS for a token.
 */
module SessionRefresh {
  import opened Wrappers

  type Profile = nat
  type Tid = nat

  /** A stored session; times are microseconds. */
  datatype Session = Session(verifiedAt: int, expiresAt: int)

  // ---- the refresh window --------------------------------------------------------------------------

  const MAX_REFRESH_WINDOW := 30 * 60 * 1_000_000

  /** `timedelta / 10`: a tenth, rounded half to even. */
  function Tenth(d: nat): (w: nat)
    ensures -5 <= 10 * w - d <= 5
  {
    var q, rest := d / 10, d % 10;
    if rest > 5 || (rest == 5 && q % 2 == 1) then q + 1 else q
  }

  function RefreshWindow(s: Session): int
    requires s.expiresAt > s.verifiedAt
  {
    var tenth := Tenth(s.expiresAt - s.verifiedAt);
    if tenth < MAX_REFRESH_WINDOW then tenth else MAX_REFRESH_WINDOW
  }

  predicate NeedsRefresh(s: Session, now: int) {
    s.expiresAt <= s.verifiedAt || s.expiresAt <= now + RefreshWindow(s)
  }

  /** A session that has just been verified and has not expired is never due. */
  lemma JustVerifiedIsNotDue(s: Session)
    requires s.verifiedAt < s.expiresAt
    ensures !NeedsRefresh(s, s.verifiedAt)
  {
  }

  lemma DueByExpiry(s: Session, now: int)
    requires s.expiresAt <= now
    ensures NeedsRefresh(s, now)
  {
  }

  lemma OnceDueStaysDue(s: Session, now: int, later: int)
    requires NeedsRefresh(s, now) && now <= later
    ensures NeedsRefresh(s, later)
  {
  }

  /**
    A live session is due exactly if no more than thirty minutes are left to it and no more than a tenth of its
    life, rounded to the nearest microsecond and halfway to the even one.
   */
  lemma DueFromThenOn(s: Session, now: int)
    requires s.verifiedAt < s.expiresAt
    ensures var left, life := s.expiresAt - now, s.expiresAt - s.verifiedAt;
      NeedsRefresh(s, now) <==>
        left <= 30 * 60 * 1_000_000 && (10 * left < life + 5 || (10 * left == life + 5 && left % 2 == 0))
    ensures NeedsRefresh(s, now) <==> s.expiresAt - RefreshWindow(s) <= now
    ensures s.verifiedAt < s.expiresAt - RefreshWindow(s) <= s.expiresAt
    ensures RefreshWindow(s) <= MAX_REFRESH_WINDOW && 10 * RefreshWindow(s) <= s.expiresAt - s.verifiedAt + 5
  {
  }

  // ---- refreshes under a per-profile lock ------------------------------------------------------------

  /** Where a thread that holds a profile's refresh lock is. */
  datatype Stage =
    | Checking              // about to look at the stored session
    | Reusing               // there is a live one, still to be verified
    | Needing               // there is none that can
    | Holding               // AWS issued a token that is not stored yet
    | Stored                // stored, to be written to the shared credentials file
    | Failed                // the call is about to raise

  datatype Duty = Duty(p: Profile, stage: Stage)

  datatype Sys = Sys(
    now: int,
    sessions: map<Profile, Session>,
    locks: map<Profile, Tid>,
    duties: map<Tid, Duty>,
    issued: map<Profile, nat>,    // tokens AWS has issued
    lost: map<Profile, nat>)      // of these, how many are not the stored session any more or never became it

  datatype Step =
    | Tick(elapsed: nat)
    | Acquire(p: Profile)
    | Find                  // the stored session is not due
    | Miss                  // there is none, or one that is due, which is deleted
    | Reject                // the one that was found does not verify: what is stored is deleted
    | Issue
    | Mismatch              // the issued token is for someone else, or using it raised
    | Put(s: Session)
    | WriteFails            // ConfigurationError from the shared credentials file
    | Raise
    | Release
    | Drop(p: Profile)      // discard_cached_session, status, the session guard, a profile edit

  datatype Event = Event(t: Tid, step: Step)

  function Count(counts: map<Profile, nat>, p: Profile): nat {
    if p in counts then counts[p] else 0
  }

  function OneMore(counts: map<Profile, nat>, p: Profile): map<Profile, nat> {
    counts[p := Count(counts, p) + 1]
  }

  predicate At(s: Sys, t: Tid, stage: Stage) {
    t in s.duties && s.duties[t].stage == stage
  }

  predicate Enabled(s: Sys, e: Event) {
    match e.step
    case Tick(_) => true
    case Acquire(p) => e.t !in s.duties && p !in s.locks
    case Find => At(s, e.t, Checking) && s.duties[e.t].p in s.sessions && !NeedsRefresh(s.sessions[s.duties[e.t].p], s.now)
    case Miss =>
      At(s, e.t, Checking) && (s.duties[e.t].p in s.sessions ==> NeedsRefresh(s.sessions[s.duties[e.t].p], s.now))
    case Reject => At(s, e.t, Reusing)
    case Issue => At(s, e.t, Needing)
    case Mismatch => e.t in s.duties && s.duties[e.t].stage.Holding?
    case Put(_) => e.t in s.duties && s.duties[e.t].stage.Holding?
    case WriteFails => At(s, e.t, Stored)
    case Raise => e.t in s.duties && !s.duties[e.t].stage.Holding?
    case Release => e.t in s.duties && !s.duties[e.t].stage.Holding?
    case Drop(p) => true
  }

  // What a step does to each part of the state.

  function NextSessions(s: Sys, e: Event): map<Profile, Session>
    requires Enabled(s, e)
  {
    match e.step
    case Miss => s.sessions - {s.duties[e.t].p}
    case Reject => s.sessions - {s.duties[e.t].p}
    case Put(session) => s.sessions[s.duties[e.t].p := session]
    case WriteFails => s.sessions - {s.duties[e.t].p}
    case Drop(p) => s.sessions - {p}
    case _ => s.sessions
  }

  function NextLocks(s: Sys, e: Event): map<Profile, Tid>
    requires Enabled(s, e)
  {
    match e.step
    case Acquire(p) => s.locks[p := e.t]
    case Release => s.locks - {s.duties[e.t].p}
    case _ => s.locks
  }

  function NextDuty(s: Sys, e: Event): Option<Duty>
    requires Enabled(s, e)
  {
    match e.step
    case Acquire(p) => Some(Duty(p, Checking))
    case Find => Some(Duty(s.duties[e.t].p, Reusing))
    case Miss => Some(Duty(s.duties[e.t].p, Needing))
    case Reject => Some(Duty(s.duties[e.t].p, Needing))
    case Issue => Some(Duty(s.duties[e.t].p, Holding))
    case Mismatch => Some(Duty(s.duties[e.t].p, Failed))
    case Put(_) => Some(Duty(s.duties[e.t].p, Stored))
    case WriteFails => Some(Duty(s.duties[e.t].p, Failed))
    case Raise => Some(Duty(s.duties[e.t].p, Failed))
    case Release => None
    case _ => if e.t in s.duties then Some(s.duties[e.t]) else None
  }

  function NextLost(s: Sys, e: Event): map<Profile, nat>
    requires Enabled(s, e)
  {
    match e.step
    case Miss => if s.duties[e.t].p in s.sessions then OneMore(s.lost, s.duties[e.t].p) else s.lost
    case Reject => if s.duties[e.t].p in s.sessions then OneMore(s.lost, s.duties[e.t].p) else s.lost
    case Mismatch => OneMore(s.lost, s.duties[e.t].p)
    case WriteFails => if s.duties[e.t].p in s.sessions then OneMore(s.lost, s.duties[e.t].p) else s.lost
    case Drop(p) => if p in s.sessions then OneMore(s.lost, p) else s.lost
    case _ => s.lost
  }

  function Apply(s: Sys, e: Event): Sys
    requires Enabled(s, e)
  {
    Sys(
      if e.step.Tick? then s.now + e.step.elapsed else s.now,
      NextSessions(s, e),
      NextLocks(s, e),
      if NextDuty(s, e).Some? then s.duties[e.t := NextDuty(s, e).value] else s.duties - {e.t},
      if e.step.Issue? then OneMore(s.issued, s.duties[e.t].p) else s.issued,
      NextLost(s, e))
  }

  predicate IsRun(s: Sys, run: seq<Event>)
    decreases |run|
  {
    run == [] || (Enabled(s, run[0]) && IsRun(Apply(s, run[0]), run[1..]))
  }

  function After(s: Sys, run: seq<Event>): Sys
    requires IsRun(s, run)
    decreases |run|
  {
    if run == [] then s else After(Apply(s, run[0]), run[1..])
  }

  const START := Sys(0, map[], map[], map[], map[], map[])

  /** A token is in hand: stored, or with the thread that holds the lock. */
  predicate InHand(s: Sys, p: Profile) {
    p in s.sessions || (p in s.locks && s.locks[p] in s.duties && s.duties[s.locks[p]].stage.Holding?)
  }

  predicate LockOk(s: Sys, p: Profile)
    requires p in s.locks
  {
    s.locks[p] in s.duties && s.duties[s.locks[p]].p == p
  }

  predicate DutyOk(s: Sys, t: Tid)
    requires t in s.duties
  {
    var p := s.duties[t].p;
    p in s.locks && s.locks[p] == t && (s.duties[t].stage.Needing? || s.duties[t].stage.Holding? ==> p !in s.sessions)
  }

  /** Every token AWS issued is lost, or is the one in hand. */
  predicate Accounted(s: Sys, p: Profile) {
    Count(s.issued, p) == Count(s.lost, p) + if InHand(s, p) then 1 else 0
  }

  ghost predicate Inv(s: Sys) {
    && (forall p | p in s.locks :: LockOk(s, p))
    && (forall t | t in s.duties :: DutyOk(s, t))
    && (forall p :: Accounted(s, p))
  }

  lemma StepKeepsLock(s: Sys, e: Event, p: Profile)
    requires Enabled(s, e) && p in Apply(s, e).locks
    requires (p in s.locks ==> LockOk(s, p)) && (e.t in s.duties ==> DutyOk(s, e.t))
    ensures LockOk(Apply(s, e), p)
  {
    hide NeedsRefresh, OneMore, NextLost;
  }

  lemma StepKeepsOwnDuty(s: Sys, e: Event)
    requires Enabled(s, e) && e.t in Apply(s, e).duties && (e.t in s.duties ==> DutyOk(s, e.t))
    ensures DutyOk(Apply(s, e), e.t)
  {
    hide NeedsRefresh, OneMore, NextLost;
  }

  lemma StepKeepsOtherDuty(s: Sys, e: Event, t: Tid)
    requires Enabled(s, e) && t in s.duties && t != e.t
    requires DutyOk(s, t) && (e.t in s.duties ==> DutyOk(s, e.t))
    ensures t in Apply(s, e).duties && Apply(s, e).duties[t] == s.duties[t] && DutyOk(Apply(s, e), t)
  {
    hide NeedsRefresh, OneMore, NextLost;
  }

  lemma StepAddsOwnDutyOnly(s: Sys, e: Event, t: Tid)
    requires Enabled(s, e) && t in Apply(s, e).duties && t != e.t
    ensures t in s.duties
  {
    hide NeedsRefresh, OneMore, NextLost;
  }

  lemma StepKeepsAccount(s: Sys, e: Event, p: Profile)
    requires Enabled(s, e) && Accounted(s, p)
    requires (e.t in s.duties ==> DutyOk(s, e.t)) && (p in s.locks ==> LockOk(s, p) && DutyOk(s, s.locks[p]))
    ensures Accounted(Apply(s, e), p)
  {
  }

  lemma StepKeepsInv(s: Sys, e: Event)
    requires Inv(s) && Enabled(s, e)
    ensures Inv(Apply(s, e))
  {
    hide Apply, Enabled, LockOk, DutyOk, Accounted;
    var s' := Apply(s, e);
    forall p | p in s'.locks ensures LockOk(s', p) { StepKeepsLock(s, e, p); }
    forall t | t in s'.duties ensures DutyOk(s', t) {
      if t == e.t { StepKeepsOwnDuty(s, e); } else { StepAddsOwnDutyOnly(s, e, t); StepKeepsOtherDuty(s, e, t); }
    }
    forall p ensures Accounted(s', p) {
      if p in s.locks { LockHolder(s, p); }
      StepKeepsAccount(s, e, p);
    }
  }

  lemma LockHolder(s: Sys, p: Profile)
    requires p in s.locks && LockOk(s, p)
    ensures s.locks[p] in s.duties
  {
  }

  lemma {:induction false} RunKeepsInv(s: Sys, run: seq<Event>)
    requires Inv(s) && IsRun(s, run)
    ensures Inv(After(s, run))
    decreases |run|
  {
    if run != [] {
      StepKeepsInv(s, run[0]);
      RunKeepsInv(Apply(s, run[0]), run[1..]);
    }
  }

  lemma {:induction false} RunExtends(s: Sys, run: seq<Event>, e: Event)
    requires IsRun(s, run) && Enabled(After(s, run), e)
    ensures IsRun(s, run + [e]) && After(s, run + [e]) == Apply(After(s, run), e)
    decreases |run|
  {
    hide Enabled, Apply;
    if run == [] {
      assert [] + [e] == [e];
    } else {
      RunExtends(Apply(s, run[0]), run[1..], e);
      assert (run + [e])[0] == run[0] && (run + [e])[1..] == run[1..] + [e];
    }
  }

  /**
    However many callers refresh a profile at once: over any stretch of a run, AWS issues one token for each
    one lost, and one more only if none was in hand before and one is afterwards.
   */
  lemma TokensAreAccountedFor(run: seq<Event>, more: seq<Event>, p: Profile)
    requires IsRun(START, run) && IsRun(After(START, run), more)
    ensures var s, s' := After(START, run), After(After(START, run), more);
      Count(s'.issued, p) - Count(s.issued, p) ==
        Count(s'.lost, p) - Count(s.lost, p) + (if InHand(s', p) then 1 else 0) - (if InHand(s, p) then 1 else 0)
  {
    RunKeepsInv(START, run);
    RunKeepsInv(After(START, run), more);
    assert Accounted(After(START, run), p) && Accounted(After(After(START, run), more), p);
  }

  /** A step that throws away a token of p although none was due: dropped, not verified, not written, or never stored. */
  predicate Discards(s: Sys, e: Event, p: Profile)
    requires Enabled(s, e)
  {
    match e.step
    case Drop(q) => q == p
    case Reject => s.duties[e.t].p == p
    case WriteFails => s.duties[e.t].p == p
    case Mismatch => s.duties[e.t].p == p
    case _ => false
  }

  /** Along this run the stored session, whenever there is one, is not due, and no step discards it. */
  predicate StaysReusable(s: Sys, run: seq<Event>, p: Profile)
    requires IsRun(s, run)
    decreases |run|
  {
    && (p in s.sessions ==> !NeedsRefresh(s.sessions[p], s.now))
    && (run == [] || (!Discards(s, run[0], p) && StaysReusable(Apply(s, run[0]), run[1..], p)))
  }

  lemma LosesOnlyWhatIsDueOrDiscarded(s: Sys, e: Event, p: Profile)
    requires Enabled(s, e) && !Discards(s, e, p) && (p in s.sessions ==> !NeedsRefresh(s.sessions[p], s.now))
    ensures Count(Apply(s, e).lost, p) == Count(s.lost, p)
  {
    hide NeedsRefresh, NextSessions, NextDuty, NextLocks;
  }

  lemma {:induction false} NothingIsLost(s: Sys, run: seq<Event>, p: Profile)
    requires IsRun(s, run) && StaysReusable(s, run, p)
    ensures Count(After(s, run).lost, p) == Count(s.lost, p)
    decreases |run|
  {
    hide Enabled, Apply, Discards, NeedsRefresh;
    if run != [] {
      LosesOnlyWhatIsDueOrDiscarded(s, run[0], p);
      NothingIsLost(Apply(s, run[0]), run[1..], p);
    }
  }

  /**
    However many callers refresh a profile at once: while the stored session stays reusable AWS issues at most
    one token, and none if there already was one.
   */
  lemma AtMostOneTokenWhileReusable(run: seq<Event>, more: seq<Event>, p: Profile)
    requires IsRun(START, run) && IsRun(After(START, run), more) && StaysReusable(After(START, run), more, p)
    ensures var s, s' := After(START, run), After(After(START, run), more);
      Count(s'.issued, p) <= Count(s.issued, p) + if InHand(s, p) then 0 else 1
  {
    TokensAreAccountedFor(run, more, p);
    NothingIsLost(After(START, run), more, p);
  }

  /** The steps of a run that thread t took itself. */
  ghost function OwnPart(run: seq<Event>, t: Tid): seq<Step> {
    if run == [] then []
    else
      var e := run[|run| - 1];
      OwnPart(run[..|run| - 1], t) + if e.t == t then [e.step] else []
  }

  lemma {:induction false} OwnPartExtends(run: seq<Event>, e: Event, t: Tid)
    ensures OwnPart(run + [e], t) == if e.t == t then OwnPart(run, t) + [e.step] else OwnPart(run, t)
  {
    assert (run + [e])[..|run|] == run;
  }

  /** What thread t may rely on while others run: its duty, and that nobody else stores a session it has locked. */
  ghost predicate Undisturbed(s: Sys, s': Sys, t: Tid) {
    && s.now <= s'.now
    && (t in s.duties <==> t in s'.duties)
    && (t in s.duties ==> s'.duties[t] == s.duties[t])
    && (t in s.duties && s.duties[t].p in s'.sessions ==>
          s.duties[t].p in s.sessions && s'.sessions[s.duties[t].p] == s.sessions[s.duties[t].p])
  }

  lemma OtherThreadStep(s: Sys, e: Event, t: Tid)
    requires Inv(s) && Enabled(s, e) && e.t != t
    ensures Undisturbed(s, Apply(s, e), t)
  {
    if t in s.duties { assert DutyOk(s, t); }
    if e.t in s.duties { assert DutyOk(s, e.t); }
  }

  lemma UndisturbedTrans(s: Sys, s': Sys, s'': Sys, t: Tid)
    requires Undisturbed(s, s', t) && Undisturbed(s', s'', t)
    ensures Undisturbed(s, s'', t)
  {
  }
}
