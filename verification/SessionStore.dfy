/**
  `AuthenticationService.refresh` and the operations that delete a stored session, in the order of the
  source: one step of SessionRefresh wherever the store, the lock or AWS changes, other threads in between.
 */
module SessionStore {
  import opened Wrappers
  import opened SessionRefresh

  datatype RefreshError =
    | CodeInvalid           // mfa.code.invalid
    | IdentityMismatch      // credentials.identity_mismatch
    | SharedFileFailed      // ConfigurationError while writing the shared credentials file
    | Raised                // anything else

  /** Whom AWS takes the bearer of some credentials for. */
  datatype Identity = Identity(account: string, user: string)

  /** The kinds of exceptions that the code tells apart. */
  datatype Fault = ConfigurationFault | CredentialFault | ProtectionFault | OtherFault

  /** One call that left this code, and how it came back. */
  datatype Call =
    | Verified(p: Profile, answer: Result<Identity, Fault>)     // decrypting the stored session and asking whose it is
    | Asked(p: Profile, token: Result<int, Fault>)              // GetSessionToken, and when the token expires
    | Identified(p: Profile, answer: Result<Identity, Fault>)   // whose the new token is
    | Saved(p: Profile, failure: Option<Fault>)                 // encrypting and storing it
    | Written(p: Profile, failure: Option<Fault>)               // the shared credentials file

  /** What these calls will answer in one refresh. */
  datatype Aws = Aws(
    verified: Result<Identity, Fault>, token: Result<int, Fault>, identified: Result<Identity, Fault>,
    saved: Option<Fault>, written: Option<Fault>)

  // ---- what a refresh makes of its calls -------------------------------------------------------------

  /** The stored session was refused, so that it is deleted; any other exception is raised. */
  predicate Refused(owner: Identity, answer: Result<Identity, Fault>) {
    answer != Ok(owner) && answer != Err(OtherFault)
  }

  /** The exception with which a refresh ends after this last call, if it does. */
  function FailureAfter(owner: Identity, last: Call): Option<RefreshError> {
    match last
    case Verified(_, answer) => if answer == Err(OtherFault) then Some(Raised) else None
    case Asked(_, token) => if token.Err? then Some(Raised) else None
    case Identified(_, answer) =>
      if answer.Err? then Some(Raised) else if answer.value != owner then Some(IdentityMismatch) else None
    case Saved(_, failure) => if failure.Some? then Some(Raised) else None
    case Written(_, failure) =>
      if failure.None? then None else if failure.value.ConfigurationFault? then Some(SharedFileFailed) else Some(Raised)
  }

  /** The guard looks at the stored session: AWS is asked exactly if it is there and not due. */
  predicate IsCheck(p: Profile, aws: Aws, usable: bool, calls: seq<Call>) {
    calls == if usable then [Verified(p, aws.verified)] else []
  }

  /** A new token: each call is made only if the one before succeeded. */
  function IssueCalls(p: Profile, owner: Identity, aws: Aws): (calls: seq<Call>)
    ensures calls != []
  {
    if aws.token.Err? then [Asked(p, aws.token)]
    else if aws.identified != Ok(owner) then [Asked(p, aws.token), Identified(p, aws.identified)]
    else [Asked(p, aws.token), Identified(p, aws.identified), Saved(p, aws.saved)]
  }

  function WriteCalls(p: Profile, shared: bool, aws: Aws): seq<Call> {
    if shared then [Written(p, aws.written)] else []
  }

  /** What a check does to the store. */
  function CheckSteps(owner: Identity, calls: seq<Call>): seq<Step> {
    if calls == [] then [Miss]
    else if calls[0].Verified? && Refused(owner, calls[0].answer) then [Find, Reject] else [Find]
  }

  /** What a new token does to it: nothing but a token that was identified and saved is ever stored. */
  function IssueSteps(owner: Identity, session: Session, calls: seq<Call>): seq<Step> {
    if |calls| == 1 && calls[0].Asked? && calls[0].token.Err? then []
    else if |calls| == 3 && FailureAfter(owner, calls[2]).None? then [Issue, Put(session)]
    else [Issue, Mismatch]
  }

  /** And what the shared credentials file does. */
  function WriteSteps(calls: seq<Call>): seq<Step> {
    if calls != [] && calls[0].Written? && calls[0].failure == Some(ConfigurationFault) then [WriteFails] else []
  }

  /** The calls of one refresh: the check, the new token, the shared file. */
  datatype Calls = Calls(checked: seq<Call>, issued: seq<Call>, written: seq<Call>) {
    function All(): seq<Call> {
      checked + issued + written
    }
  }

  /** A token is asked for exactly if there is no session that verifies, and written exactly if it was stored. */
  predicate IsRefresh(p: Profile, owner: Identity, shared: bool, aws: Aws, made: Calls) {
    && (IsCheck(p, aws, false, made.checked) || IsCheck(p, aws, true, made.checked))
    && made.issued == (if made.checked != [] && !Refused(owner, aws.verified) then [] else IssueCalls(p, owner, aws))
    && made.written == (if made.issued != [] && FailureAfter(owner, made.issued[|made.issued| - 1]).None? then WriteCalls(p, shared, aws) else [])
  }

  /** The exception of the last call. */
  function FailureOf(owner: Identity, made: Calls): Option<RefreshError> {
    if made.written != [] then FailureAfter(owner, made.written[|made.written| - 1])
    else if made.issued != [] then FailureAfter(owner, made.issued[|made.issued| - 1])
    else if made.checked != [] then FailureAfter(owner, made.checked[|made.checked| - 1]) else None
  }

  function RefreshSteps(owner: Identity, session: Session, made: Calls): seq<Step> {
    CheckSteps(owner, made.checked) + (if made.issued == [] then [] else IssueSteps(owner, session, made.issued)) + WriteSteps(made.written)
  }

  lemma OnlyChecked(p: Profile, owner: Identity, shared: bool, aws: Aws, session: Session, checks: seq<Call>)
    requires IsCheck(p, aws, true, checks) && !Refused(owner, aws.verified)
    ensures var made := Calls(checks, [], []);
      && IsRefresh(p, owner, shared, aws, made) && made.All() == checks
      && FailureOf(owner, made) == FailureAfter(owner, checks[0]) && RefreshSteps(owner, session, made) == CheckSteps(owner, checks)
  {
    hide CheckSteps;
    assert checks + [] + [] == checks && CheckSteps(owner, checks) + [] + [] == CheckSteps(owner, checks);
  }

  lemma CheckedAndIssued(
    p: Profile, owner: Identity, shared: bool, aws: Aws, session: Session, checks: seq<Call>, issues: seq<Call>)
    requires IsCheck(p, aws, false, checks) || (IsCheck(p, aws, true, checks) && Refused(owner, aws.verified))
    requires issues == IssueCalls(p, owner, aws) && FailureAfter(owner, issues[|issues| - 1]).Some?
    ensures var made := Calls(checks, issues, []);
      && IsRefresh(p, owner, shared, aws, made) && made.All() == checks + issues
      && FailureOf(owner, made) == FailureAfter(owner, issues[|issues| - 1])
      && RefreshSteps(owner, session, made) == CheckSteps(owner, checks) + IssueSteps(owner, session, issues)
  {
    hide FailureAfter, CheckSteps, IssueSteps;
    assert checks + issues + [] == checks + issues;
    var steps := CheckSteps(owner, checks) + IssueSteps(owner, session, issues);
    assert steps + [] == steps;
  }

  lemma AllMade(
    p: Profile, owner: Identity, shared: bool, aws: Aws, session: Session, checks: seq<Call>, issues: seq<Call>, writes: seq<Call>)
    requires IsCheck(p, aws, false, checks) || (IsCheck(p, aws, true, checks) && Refused(owner, aws.verified))
    requires issues == IssueCalls(p, owner, aws) && FailureAfter(owner, issues[|issues| - 1]).None?
    requires writes == WriteCalls(p, shared, aws)
    ensures var made := Calls(checks, issues, writes);
      && IsRefresh(p, owner, shared, aws, made) && made.All() == checks + issues + writes
      && FailureOf(owner, made) == (if shared then FailureAfter(owner, writes[0]) else None)
      && RefreshSteps(owner, session, made) == CheckSteps(owner, checks) + IssueSteps(owner, session, issues) + WriteSteps(writes)
  {
  }

  /** A new token: stored exactly if no call failed, and then identified as the owner's and saved. */
  lemma IssueIsHonest(p: Profile, owner: Identity, aws: Aws, session: Session)
    ensures var calls := IssueCalls(p, owner, aws); var steps := IssueSteps(owner, session, calls);
      var failure := FailureAfter(owner, calls[|calls| - 1]);
      && calls[0] == Asked(p, aws.token) && (Issue in steps <==> aws.token.Ok?)
      && (Put(session) in steps <==> failure.None?)
      && (failure.None? ==> Identified(p, Ok(owner)) in calls && Saved(p, None) in calls)
      && (failure == Some(IdentityMismatch) ==> Mismatch in steps)
      && WriteFails !in steps && failure != Some(SharedFileFailed)
  {
    if aws.token.Err? {
    } else if aws.identified != Ok(owner) {
      assert IssueCalls(p, owner, aws)[1] == Identified(p, aws.identified);
    } else {
      var calls := IssueCalls(p, owner, aws);
      assert calls[1] == Identified(p, Ok(owner)) && calls[2] == Saved(p, aws.saved);
    }
  }

  /**
    A token is asked for only without a session that AWS has just confirmed to be the owner's; what is stored
    was issued by this call, confirmed to be the owner's, and is taken away again exactly if the shared file
    raised a ConfigurationError.  A refresh without an exception reused a confirmed session or stored one.
   */
  lemma RefreshIsHonest(p: Profile, owner: Identity, shared: bool, aws: Aws, session: Session, made: Calls)
    requires IsRefresh(p, owner, shared, aws, made)
    ensures var steps := RefreshSteps(owner, session, made);
      && (Issue in steps ==> Verified(p, Ok(owner)) !in made.checked && made.issued[0].Asked? && made.issued[0].token.Ok?)
      && (Put(session) in steps <==> FailureOf(owner, Calls(made.checked, made.issued, [])).None? && made.issued != [])
      && (Put(session) in steps ==> Identified(p, Ok(owner)) in made.issued && Saved(p, None) in made.issued)
      && (WriteFails in steps <==> FailureOf(owner, made) == Some(SharedFileFailed))
      && (WriteFails in steps ==> Put(session) in steps && steps[|steps| - 1] == WriteFails)
      && (FailureOf(owner, made) == Some(IdentityMismatch) ==> Put(session) !in steps && Mismatch in steps)
      && (FailureOf(owner, made).None? ==> made.checked == [Verified(p, Ok(owner))] || Put(session) in steps)
  {
    hide IssueCalls, IssueSteps;
    IssueIsHonest(p, owner, aws, session);
  }

  /**
    How a refresh ends, by what its calls answer: without an exception exactly if the stored session was confirmed,
    or the new token was issued, confirmed, saved and, if there is a shared file, written; and each exception has
    its own condition.  Only a session that is refused is replaced; if asking about it fails otherwise, that is raised.
   */
  lemma HowARefreshEnds(p: Profile, owner: Identity, shared: bool, aws: Aws, made: Calls)
    requires IsRefresh(p, owner, shared, aws, made)
    ensures var checked := made.checked != [];
      var reused := checked && aws.verified == Ok(owner);
      var renews := checked ==> aws.verified != Ok(owner) && aws.verified != Err(OtherFault);
      var kept := renews && aws.token.Ok? && aws.identified == Ok(owner) && aws.saved.None?;
      && (made.issued != [] <==> renews)
      && (FailureOf(owner, made).None? <==> reused || (kept && (shared ==> aws.written.None?)))
      && (FailureOf(owner, made) == Some(SharedFileFailed) <==> kept && shared && aws.written == Some(ConfigurationFault))
      && (FailureOf(owner, made) == Some(IdentityMismatch) <==> renews && aws.token.Ok? && aws.identified.Ok? && aws.identified.value != owner)
      && FailureOf(owner, made) != Some(CodeInvalid)
  {
  }

  class StoreHost {
    var sessions: map<Profile, Session>
    var sys: Sys
    ghost var trace: seq<Event>
    ghost var calls: seq<Call>    // what this service called, with every answer

    constructor ()
      ensures Consistent() && sys == START && calls == []
    {
      sessions, sys, trace, calls := map[], START, [], [];
      new;
      assert Inv(START);
    }

    ghost predicate Recorded()
      reads this`sys, this`trace
    {
      IsRun(START, trace) && After(START, trace) == sys && Inv(sys)
    }

    ghost predicate Consistent()
      reads this`sys, this`trace, this`sessions
    {
      Recorded() && sessions == sys.sessions
    }

    method Commit(e: Event)
      requires Recorded() && Enabled(sys, e) && sessions == NextSessions(sys, e)
      modifies this`sys, this`trace
      ensures Consistent() && sys == Apply(old(sys), e) && trace == old(trace) + [e]
    {
      hide Inv, IsRun, After;
      StepKeepsInv(sys, e);
      RunExtends(START, trace, e);
      sys, trace := Apply(sys, e), trace + [e];
    }

    method Record(c: Call)
      modifies this`calls
      ensures calls == old(calls) + [c]
    {
      calls := calls + [c];
    }

    /** Another thread's step. */
    method Take(e: Event)
      requires Consistent() && Enabled(sys, e)
      modifies this`sessions, this`sys, this`trace
      ensures Consistent() && sys == Apply(old(sys), e) && trace == old(trace) + [e]
    {
      sessions := NextSessions(sys, e);
      Commit(e);
    }

    /** Other threads run for a while, and time passes. */
    method Interfere(t: Tid)
      requires Consistent()
      modifies this`sessions, this`sys, this`trace
      ensures Consistent() && Undisturbed(old(sys), sys, t) && OwnPart(trace, t) == OwnPart(old(trace), t)
    {
      hide Inv, IsRun, After, Enabled, Apply, OwnPart;
      var schedule: seq<Event> := *;
      var i := 0;
      while i < |schedule|
        invariant Consistent() && Undisturbed(old(sys), sys, t) && OwnPart(trace, t) == OwnPart(old(trace), t)
      {
        if schedule[i].t != t && Enabled(sys, schedule[i]) {
          ghost var before := sys;
          OtherThreadStep(sys, schedule[i], t);
          OwnPartExtends(trace, schedule[i], t);
          Take(schedule[i]);
          UndisturbedTrans(old(sys), before, sys, t);
        }
        i := i + 1;
      }
    }

    lemma DutyFacts(t: Tid)
      requires Recorded() && t in sys.duties
      ensures DutyOk(sys, t)
    {
    }

    lemma LockFacts(p: Profile)
      requires Recorded() && p in sys.locks
      ensures LockOk(sys, p)
    {
    }
  }

  class AuthenticationService {
    const host: StoreHost

    constructor (host: StoreHost)
      ensures this.host == host
    {
      this.host := host;
    }

    ghost predicate Idle(t: Tid)
      reads this, host
    {
      host.Consistent() && t !in host.sys.duties
    }

    /** Thread t holds the lock of p and is at this stage. */
    ghost predicate Inside(t: Tid, p: Profile, stage: Stage)
      reads this, host
    {
      host.Consistent() && t in host.sys.duties && host.sys.duties[t] == Duty(p, stage)
    }

    /** What thread t has done itself. */
    ghost function Own(t: Tid): seq<Step>
      reads this, host
    {
      OwnPart(host.trace, t)
    }

    /** One step of thread t's own. */
    method Do(t: Tid, step: Step)
      requires host.Recorded() && Enabled(host.sys, Event(t, step)) && host.sessions == NextSessions(host.sys, Event(t, step))
      modifies host`sys, host`trace
      ensures host.Consistent() && host.sys == Apply(old(host.sys), Event(t, step)) && Own(t) == old(Own(t)) + [step]
    {
      hide Inv, IsRun, After, Enabled, Apply, NextSessions, OwnPart;
      OwnPartExtends(host.trace, Event(t, step), t);
      host.Commit(Event(t, step));
    }

    /** Waits for the profile's lock; whoever holds it finishes first. */
    method Acquire(t: Tid, p: Profile)
      requires Idle(t)
      modifies host`sessions, host`sys, host`trace
      ensures Inside(t, p, Checking) && Own(t) == old(Own(t)) + [Step.Acquire(p)]
    {
      hide Inv, IsRun, After, OwnPart;
      host.Interfere(t);
      if p in host.sys.locks {
        var u := host.sys.locks[p];
        host.LockFacts(p);
        host.DutyFacts(u);
        LetFinish(t, u);
      }
      Do(t, Step.Acquire(p));
    }

    method LetFinish(t: Tid, u: Tid)
      requires Idle(t) && u in host.sys.duties && u != t
      modifies host`sessions, host`sys, host`trace
      ensures Idle(t) && Own(t) == old(Own(t)) && host.sys.locks == old(host.sys.locks) - {old(host.sys.duties[u].p)}
    {
      hide Inv, IsRun, After, OwnPart;
      if host.sys.duties[u].stage.Holding? {
        OwnPartExtends(host.trace, Event(u, Mismatch), t);
        host.Take(Event(u, Mismatch));
      }
      OwnPartExtends(host.trace, Event(u, Step.Release), t);
      host.Take(Event(u, Step.Release));
    }

    method Release(t: Tid)
      requires host.Consistent() && t in host.sys.duties && !host.sys.duties[t].stage.Holding?
      modifies host`sys, host`trace
      ensures Idle(t) && host.sys.issued == old(host.sys.issued) && host.sys.now == old(host.sys.now)
      ensures Own(t) == old(Own(t)) + [Step.Release]
    {
      hide Inv, IsRun, After, OwnPart;
      Do(t, Step.Release);
    }

    /** Discards the stored session; `status` and the session guard do the same with one that cannot be used. */
    method Discard(t: Tid, p: Profile)
      requires host.Consistent()
      modifies host`sessions, host`sys, host`trace
      ensures host.Consistent() && p !in host.sessions && host.sessions == old(host.sessions) - {p}
      ensures host.sys.duties == old(host.sys.duties) && host.sys.now == old(host.sys.now)
      ensures Own(t) == old(Own(t)) + [Drop(p)]
    {
      hide Inv, IsRun, After, OwnPart;
      host.sessions := host.sessions - {p};
      Do(t, Drop(p));
    }

    /** `status`: whether the stored session can be used; one that is due is deleted. */
    method Status(t: Tid, p: Profile) returns (reusable: bool)
      requires host.Consistent()
      modifies host`sessions, host`sys, host`trace
      ensures host.Consistent() && host.sys.duties == old(host.sys.duties) && host.sys.now == old(host.sys.now)
      ensures reusable <==> p in old(host.sessions) && !NeedsRefresh(old(host.sessions)[p], old(host.sys).now)
      ensures host.sessions == if reusable then old(host.sessions) else old(host.sessions) - {p}
      ensures Own(t) == old(Own(t)) + if p in old(host.sessions) && !reusable then [Drop(p)] else []
    {
      if p !in host.sessions { return false; }
      reusable := !NeedsRefresh(host.sessions[p], host.sys.now);
      if !reusable { Discard(t, p); }
    }

    /** The stored session is decrypted and AWS asked whose it is. */
    method Verify(t: Tid, p: Profile, answer: Result<Identity, Fault>)
      requires Inside(t, p, Reusing)
      modifies host`sessions, host`sys, host`trace, host`calls
      ensures Inside(t, p, Reusing) && host.calls == old(host.calls) + [Verified(p, answer)] && Own(t) == old(Own(t))
      ensures p in host.sessions ==> p in old(host.sessions) && host.sessions[p] == old(host.sessions)[p]
    {
      hide Inv, IsRun, After, OwnPart;
      host.Interfere(t);
      host.Record(Verified(p, answer));
    }

    /**
      `SessionGuard.credentials` under the refresh lock.  A session that is there and not due is verified with AWS;
      one that verifies is kept, one that is refused is deleted, any other exception is raised.
     */
    method Check(t: Tid, p: Profile, owner: Identity, aws: Aws) returns (r: Result<bool, RefreshError>, ghost made: seq<Call>)
      requires Inside(t, p, Checking)
      modifies host
      ensures host.calls == old(host.calls) + made
      ensures IsCheck(p, aws, p in old(host.sessions) && !NeedsRefresh(old(host.sessions)[p], old(host.sys).now), made)
      ensures r.Err? || r.value ==> IsCheck(p, aws, true, made) && !Refused(owner, aws.verified)
      ensures r == Ok(false) ==> IsCheck(p, aws, false, made) || (IsCheck(p, aws, true, made) && Refused(owner, aws.verified))
      ensures Own(t) == old(Own(t)) + CheckSteps(owner, made)
      ensures r == Ok(true) <==> made != [] && made[0].answer == Ok(owner)
      ensures r.Err? <==> made != [] && FailureAfter(owner, made[0]).Some?
      ensures r.Err? ==> Some(r.error) == FailureAfter(owner, made[0]) && r.error == Raised
      ensures r == Ok(true) ==> FailureAfter(owner, made[0]).None?
      ensures r == Ok(true) ==> Inside(t, p, Reusing)
      ensures r == Ok(true) && p in host.sessions ==> host.sessions[p] == old(host.sessions)[p]
      ensures r == Ok(false) ==> Inside(t, p, Needing) && p !in host.sessions
      ensures r.Err? ==> Inside(t, p, Reusing)
    {
      hide Inv, IsRun, After, OwnPart, NeedsRefresh;
      made := [];
      if p !in host.sessions || NeedsRefresh(host.sessions[p], host.sys.now) {
        host.sessions := host.sessions - {p};
        Do(t, Miss);
        return Ok(false), made;
      }
      Do(t, Find);
      Verify(t, p, aws.verified);
      made := [Verified(p, aws.verified)];
      if aws.verified == Err(OtherFault) { return Err(Raised), made; }
      if aws.verified == Ok(owner) { return Ok(true), made; }
      host.sessions := host.sessions - {p};
      Do(t, Reject);
      r := Ok(false);
    }

    /** The new token is stored if it is the owner's and could be encrypted and saved; otherwise it is lost. */
    method Keep(t: Tid, p: Profile, owner: Identity, aws: Aws, expiresAt: int)
      returns (r: Result<(), RefreshError>, ghost made: seq<Call>, ghost session: Session)
      requires Inside(t, p, Holding) && aws.token == Ok(expiresAt)
      modifies host
      ensures host.calls == old(host.calls) + made && [Asked(p, aws.token)] + made == IssueCalls(p, owner, aws)
      ensures FailureAfter(owner, made[|made| - 1]) == if r.Err? then Some(r.error) else None
      ensures r.Err? ==> r.error in {Raised, IdentityMismatch}
      ensures Own(t) == old(Own(t)) + [if r.Ok? then Put(session) else Mismatch]
      ensures r.Ok? ==> Inside(t, p, Stored) && p in host.sessions && host.sessions[p] == session
      ensures r.Ok? ==> session == Session(host.sys.now, expiresAt)
      ensures r.Err? ==> Inside(t, p, Failed) && p !in host.sessions
    {
      hide Inv, IsRun, After, OwnPart;
      session := Session(0, 0);
      host.Interfere(t);
      host.DutyFacts(t);
      host.Record(Identified(p, aws.identified));
      made := [Identified(p, aws.identified)];
      if aws.identified != Ok(owner) {
        Do(t, Mismatch);
        return Err(if aws.identified.Err? then Raised else IdentityMismatch), made, session;
      }
      host.Record(Saved(p, aws.saved));
      made := [Identified(p, aws.identified), Saved(p, aws.saved)];
      if aws.saved.Some? {
        Do(t, Mismatch);
        return Err(Raised), made, session;
      }
      var stored := Session(host.sys.now, expiresAt);
      session := stored;
      host.sessions := host.sessions[p := stored];
      Do(t, Put(stored));
      r := Ok(());
    }

    /**
      One token from AWS, verified and stored: only a token whose identity is the owner's is stored, and nothing
      else of the call stores anything.
     */
    method IssueAndStore(t: Tid, p: Profile, owner: Identity, aws: Aws)
      returns (r: Result<(), RefreshError>, ghost made: seq<Call>, ghost session: Session)
      requires Inside(t, p, Needing) && p !in host.sessions
      modifies host
      ensures host.calls == old(host.calls) + made && made == IssueCalls(p, owner, aws)
      ensures Own(t) == old(Own(t)) + IssueSteps(owner, session, made)
      ensures FailureAfter(owner, made[|made| - 1]) == if r.Err? then Some(r.error) else None
      ensures r.Err? ==> r.error in {Raised, IdentityMismatch}
      ensures r.Ok? ==> Inside(t, p, Stored) && p in host.sessions && host.sessions[p] == session
      ensures r.Ok? ==> session == Session(host.sys.now, made[0].token.value)
      ensures r.Err? ==> host.Consistent() && t in host.sys.duties && host.sys.duties[t].p == p && !host.sys.duties[t].stage.Holding?
      ensures r.Err? ==> p !in host.sessions
    {
      hide Inv, IsRun, After, OwnPart;
      session := Session(0, 0);
      host.Record(Asked(p, aws.token));
      made := [Asked(p, aws.token)];
      match aws.token {
        case Err(_) =>
          r := Err(Raised);
        case Ok(expiresAt) =>
          Do(t, Issue);
          ghost var rest;
          r, rest, session := Keep(t, p, owner, aws, expiresAt);
          made := made + rest;
          assert made[1..] == rest;
      }
    }

    /** The shared credentials file, if there is one: a ConfigurationError takes the stored session away again. */
    method WriteShared(t: Tid, p: Profile, owner: Identity, shared: bool, aws: Aws) returns (failure: Option<RefreshError>, ghost made: seq<Call>)
      requires Inside(t, p, Stored)
      modifies host
      ensures host.calls == old(host.calls) + made
      ensures made == WriteCalls(p, shared, aws)
      ensures failure == if shared then FailureAfter(owner, made[0]) else None
      ensures Own(t) == old(Own(t)) + WriteSteps(made)
      ensures failure == Some(SharedFileFailed) ==> p !in host.sessions
      ensures failure in {None, Some(SharedFileFailed), Some(Raised)}
      ensures host.Consistent() && t in host.sys.duties && host.sys.duties[t].p == p && !host.sys.duties[t].stage.Holding?
    {
      hide Inv, IsRun, After, OwnPart;
      made := [];
      host.Interfere(t);
      if !shared { return None, made; }
      host.Record(Written(p, aws.written));
      made := [Written(p, aws.written)];
      if aws.written == Some(ConfigurationFault) {
        host.sessions := host.sessions - {p};
        Do(t, WriteFails);
        return Some(SharedFileFailed), made;
      }
      failure := if aws.written.Some? then Some(Raised) else None;    // the stored session stays
    }

    /** `refresh` once the code is known to be well formed. */
    method Renew(t: Tid, p: Profile, owner: Identity, shared: bool, aws: Aws)
      returns (failure: Option<RefreshError>, ghost made: Calls, ghost session: Session)
      requires Inside(t, p, Checking)
      modifies host
      ensures host.Consistent() && t in host.sys.duties && host.sys.duties[t].p == p && !host.sys.duties[t].stage.Holding?
      ensures IsRefresh(p, owner, shared, aws, made) && host.calls == old(host.calls) + made.All()
      ensures FailureOf(owner, made) == failure && failure != Some(CodeInvalid)
      ensures Own(t) == old(Own(t)) + RefreshSteps(owner, session, made)
      ensures failure == Some(SharedFileFailed) ==> p !in host.sessions
    {
      hide Inv, IsRun, After, OwnPart, NeedsRefresh, CheckSteps, IssueSteps, WriteSteps, FailureAfter, IssueCalls, WriteCalls, IsCheck;
      hide IsRefresh, FailureOf, RefreshSteps, Refused, Calls.All;
      session := Session(0, 0);
      var checked, stored;
      ghost var checks, issues, writes;
      checked, checks := Check(t, p, owner, aws);
      if checked.Err? || checked.value {
        made := Calls(checks, [], []);
        OnlyChecked(p, owner, shared, aws, session, checks);
        return if checked.Err? then Some(checked.error) else None, made, session;
      }
      stored, issues, session := IssueAndStore(t, p, owner, aws);
      if stored.Err? {
        made := Calls(checks, issues, []);
        CheckedAndIssued(p, owner, shared, aws, session, checks, issues);
        return Some(stored.error), made, session;
      }
      failure, writes := WriteShared(t, p, owner, shared, aws);
      made := Calls(checks, issues, writes);
      AllMade(p, owner, shared, aws, session, checks, issues, writes);
    }

    /**
      `refresh`; `aws` is what its calls will answer.  A code that is not six digits is refused before anything
      else.  What is raised follows from the last call made, and what becomes of the store from all of them; in
      the end a session that has become due meanwhile is dropped.
     */
    method Refresh(t: Tid, p: Profile, owner: Identity, mfaEnabled: bool, codeOk: bool, shared: bool, aws: Aws)
      returns (r: Result<bool, RefreshError>, ghost made: Calls, ghost session: Session, ghost dropped: bool)
      requires Idle(t)
      modifies host
      ensures Idle(t)
      ensures r == Err(CodeInvalid) <==> mfaEnabled && !codeOk
      ensures r == Err(CodeInvalid) ==> host.calls == old(host.calls) && Own(t) == old(Own(t)) + [Step.Acquire(p), Step.Release]
      ensures r != Err(CodeInvalid) ==> IsRefresh(p, owner, shared, aws, made) && host.calls == old(host.calls) + made.All()
      ensures r != Err(CodeInvalid) ==> FailureOf(owner, made) == if r.Err? then Some(r.error) else None
      ensures r != Err(CodeInvalid) ==>
        Own(t) == old(Own(t)) + [Step.Acquire(p)] + RefreshSteps(owner, session, made) + (if dropped then [Drop(p)] else []) + [Step.Release]
      ensures dropped ==> r == Ok(false)
      ensures r == Err(SharedFileFailed) ==> p !in host.sessions
      ensures r == Ok(true) ==> p in host.sessions && !NeedsRefresh(host.sessions[p], host.sys.now)
      ensures r == Ok(false) ==> p !in host.sessions
    {
      hide Inv, IsRun, After, OwnPart, NeedsRefresh, IsRefresh, FailureOf, RefreshSteps, Calls.All;
      made, session, dropped := Calls([], [], []), Session(0, 0), false;
      Acquire(t, p);
      if mfaEnabled && !codeOk {
        Release(t);
        return Err(CodeInvalid), made, session, dropped;
      }
      var failure;
      failure, made, session := Renew(t, p, owner, shared, aws);
      if failure.Some? {
        Release(t);
        return Err(failure.value), made, session, dropped;
      }
      host.Interfere(t);
      ghost var before := host.sessions;
      var reusable := Status(t, p);
      dropped := p in before && !reusable;
      Release(t);
      r := Ok(reusable);
    }
  }
}
