/**
  `AuthenticatedOperationCoordinator` over `OperationCoordinator`, in the order of the source.  Each
  lock-guarded region updates its table and commits one step of MfaProtocol; between regions other threads
  and direct clients of the inner coordinator run any schedule of their own steps, and time passes.
 */
module MfaCoordination {
  import opened Wrappers
  import opened MfaProtocol

  datatype OperationState = MfaRequired | Succeeded | Failed | Cancelled

  datatype Failure =
    | CapacityExceeded       // auth.operation.capacity_exceeded
    | NotResumable           // auth.operation.not_resumable, mfa.operation.not_resumable
    | ChallengeExpired       // mfa.challenge.expired
    | CodeRejected           // the refresh refused the code
    | ActionFailed           // the action's own error
    | Raised                 // any exception that leaves the call

  /** How a run of an action ends. */
  datatype Ending =
    | Returns
    | IsCancelled      // OperationCancelled
    | AsksForMfa       // CredentialValidationError auth.mfa_required
    | Fails            // any other ApplicationError
    | Escapes          // an exception execute_operation does not catch

  datatype OperationResult = OperationResult(state: OperationState, failure: Option<Failure>, challenge: Option<Id>)

  class MfaHost {
    var outer: map<Id, Pending>
    var inner: map<Id, int>
    var sys: Sys
    ghost var trace: seq<Event>

    constructor ()
      ensures Consistent() && sys == START && trace == []
    {
      outer, inner, sys, trace := map[], map[], START, [];
      new;
      assert Inv(START);
    }

    ghost predicate Recorded()
      reads this`sys, this`trace
    {
      IsRun(START, trace) && After(START, trace) == sys && Inv(sys)
    }

    ghost predicate Consistent()
      reads this`sys, this`trace, this`outer, this`inner
    {
      Recorded() && outer == sys.outer && inner == sys.inner
    }

    /** End of a guarded region: what it did to the tables must be exactly this step. */
    method Commit(e: Event)
      requires Recorded() && Enabled(sys, e) && outer == Apply(sys, e).outer && inner == Apply(sys, e).inner
      modifies this`sys, this`trace
      ensures Consistent() && sys == Apply(old(sys), e) && trace == old(trace) + [e]
      ensures AllOnward(old(sys), sys)
    {
      hide Inv, IsRun, After, Enabled, Apply;
      TicketsMoveOn(sys, e);
      StepKeepsInv(sys, e);
      RunExtends(START, trace, e);
      sys, trace := Apply(sys, e), trace + [e];
    }

    /** What thread t has done itself. */
    ghost function Own(t: Tid): seq<Step>
      reads this`trace
    {
      OwnPart(trace, t)
    }

    /** A step of thread t's own. */
    method Do(t: Tid, step: Step)
      requires Recorded() && Enabled(sys, Event(t, step))
      requires outer == Apply(sys, Event(t, step)).outer && inner == Apply(sys, Event(t, step)).inner
      modifies this`sys, this`trace
      ensures Consistent() && sys == Apply(old(sys), Event(t, step)) && Own(t) == old(Own(t)) + [step]
      ensures AllOnward(old(sys), sys)
    {
      hide Inv, IsRun, After, Enabled, Apply, OwnPart, AllOnward;
      OwnPartExtends(trace, Event(t, step), t);
      Commit(Event(t, step));
    }

    lemma DutyFacts(t: Tid)
      requires Recorded() && t in sys.duties
      ensures DutyOk(sys, t)
    {
    }

    lemma JobFacts(job: Job)
      requires Recorded() && job in sys.jobs
      ensures JobOk(sys, job)
    {
    }

    /** The call ends without running its action again. */
    method GiveUp(t: Tid)
      requires Consistent() && t in sys.duties && MayGiveUp(sys.duties[t])
      modifies this`sys, this`trace
      ensures Consistent() && t !in sys.duties && Own(t) == old(Own(t)) + [MfaProtocol.GiveUp]
      ensures var job := old(sys).duties[t].job; 
        && JobIsOver(this, job) && sys.jobs[job].runs == 1
        && sys.jobs[job].asked == (old(sys).duties[t].Retrying? ==> old(sys).duties[t].asked)
      ensures sys.tickets == old(sys).tickets && sys.now == old(sys).now && AllOnward(old(sys), sys)
    {
      hide Inv, IsRun, After, AllOnward, OwnPart;
      DutyFacts(t);
      Do(t, MfaProtocol.GiveUp);
    }

    /** The refresh with a code offered in time succeeded. */
    method AcceptCode(t: Tid)
      requires Consistent() && t in sys.duties && sys.duties[t].Judged? && sys.duties[t].verdict.Fine?
      modifies this`sys, this`trace
      ensures Consistent() && t in sys.duties && sys.duties[t] == Granted(old(sys).duties[t].job)
      ensures Own(t) == old(Own(t)) + [Accept]
      ensures GrantedBy(this, old(sys).duties[t].job, old(sys).duties[t].id, Some(old(sys).duties[t].code))
      ensures AllOnward(old(sys), sys)
    {
      hide Inv, IsRun, After, AllOnward, OwnPart;
      DutyFacts(t);
      Do(t, Accept);
    }

    /** `status`, or a refresh without a code: the session store and AWS decide what is `found`. */
    method Look(t: Tid, found: Found)
      requires Consistent() && t in sys.duties && sys.duties[t].Retrying? && sys.duties[t].asked
      modifies this`sys, this`trace
      ensures Consistent() && t in sys.duties && sys.duties[t] == Looked(old(sys).duties[t].job, found)
      ensures Own(t) == old(Own(t)) + [MfaProtocol.Look(found)]
    {
      hide Inv, IsRun, After, AllOnward, OwnPart;
      Do(t, MfaProtocol.Look(found));
    }

    /** `refresh` with the code that was submitted: the session store and AWS decide the `verdict`. */
    method Refresh(t: Tid, verdict: Verdict)
      requires Consistent() && t in sys.duties && sys.duties[t].Submitted?
      modifies this`sys, this`trace
      ensures Consistent() && t in sys.duties && Own(t) == old(Own(t)) + [Judge(verdict)]
      ensures var d := old(sys).duties[t]; sys.duties[t] == Judged(d.job, d.id, d.code, d.at, verdict) && AnswerIs(this, d.id, verdict)
      ensures AllOnward(old(sys), sys)
    {
      hide Inv, IsRun, After, AllOnward, OwnPart;
      DutyFacts(t);
      Do(t, Judge(verdict));
    }

    /** Other threads run for a while; while this thread holds the outer lock, none of them changes that table. */
    method Interfere(t: Tid, holdsLock: bool)
      requires Consistent()
      modifies this
      ensures Consistent() && (holdsLock ==> outer == old(outer))
      ensures old(sys).now <= sys.now && (t in old(sys).duties <==> t in sys.duties)
      ensures t in sys.duties ==> sys.duties[t] == old(sys).duties[t]
      ensures forall job | job in old(sys).jobs && old(sys).jobs[job].place.Over? ::
        job in sys.jobs && sys.jobs[job] == old(sys).jobs[job]
      ensures AllOnward(old(sys), sys) && Own(t) == old(Own(t))
    {
      hide Inv, IsRun, After, Undisturbed, Enabled, Apply, OwnPart;
      var schedule: seq<Event> := *;
      UndisturbedItself(sys, t);
      var i := 0;
      while i < |schedule|
        invariant Own(t) == old(Own(t))
        invariant Consistent() && Undisturbed(old(sys), sys, t) && (holdsLock ==> outer == old(outer))
      {
        var e := schedule[i];
        if e.t != t && Enabled(sys, e) && (holdsLock ==> Apply(sys, e).outer == outer) {
          ghost var before := sys;
          OtherThreadStep(sys, e, t);
          OwnPartExtends(trace, e, t);
          outer, inner := Apply(sys, e).outer, Apply(sys, e).inner;
          Commit(e);
          UndisturbedTrans(old(sys), before, sys, t);
        }
        i := i + 1;
      }
      UndisturbedParts(old(sys), sys, t);
    }
  }

  /** What a refresh of the inner coordinator tells the outer one. */
  datatype Refresh = Refreshed | Challenge(id: Id, deadline: int) | NotRefreshed(state: OperationState, failure: Option<Failure>)

  class OperationCoordinator {
    const host: MfaHost

    constructor (host: MfaHost)
      ensures this.host == host
    {
      this.host := host;
    }

    /** `_sweep_expired_locked` */
    method SweepLocked(now: int)
      modifies host`inner
      ensures host.inner == Swept(old(host.inner), now)
    {
      host.inner := map id | id in host.inner && now < host.inner[id] :: host.inner[id];
    }

    method Sweep(t: Tid)
      requires host.Consistent()
      modifies host`inner, host`sys, host`trace
      ensures host.Consistent() && host.Own(t) == old(host.Own(t)) + [InnerSweep]
      ensures host.sys.duties == old(host.sys.duties)
    {
      hide Inv, IsRun, After, AllOnward, OwnPart;
      SweepLocked(host.sys.now);
      host.Do(t, InnerSweep);
      assert t in host.sys.duties ==> host.sys.duties == old(host.sys.duties);
    }

    /**
      `start_refresh` on behalf of an action whose first run asked for MFA; `found` is what the look at the session
      will find.  Refreshed exactly if a session is there without a code, a challenge only if a code is needed.
     */
    method StartRefresh(t: Tid, found: Found) returns (r: Refresh)
      requires host.Consistent() && t in host.sys.duties && host.sys.duties[t].Retrying? && host.sys.duties[t].asked
      modifies host
      ensures host.Consistent() && Looks(host.Own(t), old(host.Own(t)), found)
      ensures r.Refreshed? <==> Ready(found)
      ensures r.Challenge? ==> found.CodeNeeded?
      ensures found.CodeNeeded? ==> r.Challenge? || r == NotRefreshed(Failed, Some(CapacityExceeded))
      ensures found.LookFailed? ==> r == NotRefreshed(Failed, Some(Raised))
      ensures r.Refreshed? ==> t in host.sys.duties && host.sys.duties[t] == Granted(old(host.sys.duties[t].job))
      ensures r.Refreshed? ==> UnchallengedBy(host, old(host.sys.duties[t].job), found)
      ensures r.Challenge? ==>
        t in host.sys.duties && host.sys.duties[t] == Inserted(old(host.sys.duties[t].job), r.id, r.deadline)
        && r.id in host.inner && host.inner[r.id] == r.deadline
      ensures r.NotRefreshed? ==> t !in host.sys.duties && RanOnce(host, old(host.sys.duties[t].job))
    {
      hide Inv, IsRun, After, AllOnward, OwnPart, Enabled, Apply;
      Sweep(t);
      host.Interfere(t, false);
      host.DutyFacts(t);
      host.Look(t, found);
      host.Interfere(t, false);
      match found {
        case LookFailed =>
          host.GiveUp(t);
          r := NotRefreshed(Failed, Some(Raised));
        case CodeNeeded =>
          r := Challenged(t);
        case _ =>
          Reuse(t);
          r := Refreshed;
      }
    }

    method Reuse(t: Tid)
      requires host.Consistent() && t in host.sys.duties && host.sys.duties[t].Looked? && Ready(host.sys.duties[t].found)
      modifies host`sys, host`trace
      ensures host.Consistent() && t in host.sys.duties && host.sys.duties[t] == Granted(old(host.sys.duties[t].job))
      ensures UnchallengedBy(host, old(host.sys.duties[t].job), old(host.sys.duties[t].found))
      ensures host.Own(t) == old(host.Own(t)) + [MfaProtocol.Reuse]
    {
      hide Inv, IsRun, After, AllOnward, OwnPart;
      host.DutyFacts(t);
      host.Do(t, MfaProtocol.Reuse);
    }

    /** The challenge is made up, and kept only if there is still room once the expired ones are gone. */
    method Challenged(t: Tid) returns (r: Refresh)
      requires host.Consistent() && t in host.sys.duties && host.sys.duties[t].Looked? && host.sys.duties[t].found.CodeNeeded?
      modifies host
      ensures host.Consistent() && !r.Refreshed?
      ensures r.NotRefreshed? ==> r == NotRefreshed(Failed, Some(CapacityExceeded))
      ensures r.Challenge? ==>
        t in host.sys.duties && host.sys.duties[t] == Inserted(old(host.sys.duties[t].job), r.id, r.deadline)
        && r.id in host.inner && host.inner[r.id] == r.deadline
      ensures r.NotRefreshed? ==> t !in host.sys.duties && RanOnce(host, old(host.sys.duties[t].job))
      ensures exists id :: host.Own(t) == old(host.Own(t)) + [Offer(id), InnerInsert]
    {
      hide Inv, IsRun, After, AllOnward, OwnPart;
      FreshIdExists(host.sys);
      var id :| Fresh(host.sys, id);
      var deadline := host.sys.now + CHALLENGE_LIFETIME;
      host.Do(t, Offer(id));
      host.Interfere(t, false);
      var full := InsertPending(t);
      assert host.Own(t) == old(host.Own(t)) + [Offer(id), InnerInsert];
      r := if full then NotRefreshed(Failed, Some(CapacityExceeded)) else Challenge(id, deadline);
    }

    method InsertPending(t: Tid) returns (full: bool)
      requires host.Consistent() && t in host.sys.duties && host.sys.duties[t].Offering?
      modifies host
      ensures host.Consistent() && host.Own(t) == old(host.Own(t)) + [InnerInsert]
      ensures var d := old(host.sys.duties[t]);
        if full then t !in host.sys.duties && RanOnce(host, d.job)
        else t in host.sys.duties && host.sys.duties[t] == Inserted(d.job, d.id, d.deadline)
             && d.id in host.inner && host.inner[d.id] == d.deadline
    {
      hide Inv, IsRun, After, AllOnward, OwnPart;
      var d := host.sys.duties[t];
      host.DutyFacts(t);
      SweepLocked(host.sys.now);
      full := |host.inner| >= MAX_PENDING;
      if !full { host.inner := host.inner[d.id := d.deadline]; }
      host.Do(t, InnerInsert);
    }

    /**
      `resume` of a refresh its caller has taken out of the outer table; `answer` is how a refresh with the code
      will end.  `verdict` says so if it was begun: the caller is told, and granted exactly one that succeeded.
     */
    method Resume(t: Tid, code: Option<string>, answer: Verdict) returns (r: Refresh, ghost verdict: Option<Verdict>)
      requires host.Consistent() && t in host.sys.duties && host.sys.duties[t].Resuming?
      modifies host
      ensures host.Consistent() && !r.Challenge?
      ensures verdict in {None, Some(answer)}
      ensures Resumes(host.Own(t), old(host.Own(t)), code, verdict) && (verdict.Some? ==> code.Some?)
      ensures r.Refreshed? <==> verdict == Some(Fine)
      ensures r == NotRefreshed(Failed, Some(CodeRejected)) <==> verdict == Some(Refused)
      ensures r.NotRefreshed? ==> !r.state.Succeeded? && r.failure in {None, Some(CodeRejected), Some(Raised), Some(NotResumable), Some(ChallengeExpired)}
      ensures r.NotRefreshed? && r.failure == Some(CodeRejected) ==> r.state.Failed?
      ensures verdict == Some(Broken) ==> r == NotRefreshed(Failed, Some(Raised))
      ensures verdict.None? ==> r in {NotRefreshed(Failed, Some(NotResumable)), NotRefreshed(Cancelled, None), NotRefreshed(Failed, Some(ChallengeExpired))}
      ensures r == NotRefreshed(Failed, Some(NotResumable)) <==> old(host.sys.duties[t]).id !in old(host.inner)
      ensures r == NotRefreshed(Failed, Some(NotResumable)) ==> host.Own(t) == old(host.Own(t)) + [InnerTake]
      ensures verdict.None? && r != NotRefreshed(Failed, Some(NotResumable)) ==> host.Own(t) == old(host.Own(t)) + [InnerTake] + [GiveUp]
      ensures r == NotRefreshed(Cancelled, None) ==> code.None?
      ensures r == NotRefreshed(Failed, Some(ChallengeExpired)) ==> code.Some? && old(host.sys.duties[t]).deadline <= host.sys.now
      ensures verdict.Some? ==> AnswerIs(host, old(host.sys.duties[t]).id, verdict.value)
      ensures r.Refreshed? ==> t in host.sys.duties && host.sys.duties[t] == Granted(old(host.sys.duties[t].job))
      ensures r.Refreshed? ==> GrantedBy(host, old(host.sys.duties[t].job), old(host.sys.duties[t].id), code)
      ensures r.NotRefreshed? ==> t !in host.sys.duties && RanOnce(host, old(host.sys.duties[t].job))
      ensures AllOnward(old(host.sys), host.sys)
    {
      hide Inv, IsRun, After, AllOnward, OwnPart, GrantedBy, Resumes;
      var id := host.sys.duties[t].id;
      ghost var s0 := host.sys;
      host.DutyFacts(t);
      PendingDeadline(host, id);
      var pending := id in host.inner;
      host.inner := host.inner - {id};
      host.Do(t, InnerTake);
      ghost var s1, own := host.sys, host.Own(t);
      if !pending {
        NothingSubmitted(old(host.Own(t)), code);
        return NotRefreshed(Failed, Some(NotResumable)), None;
      }
      host.Interfere(t, false);
      ghost var s2 := host.sys;
      r, verdict := RefreshWith(t, code, answer);
      AllOnwardTrans(s0, s1, s2);
      AllOnwardTrans(s0, s2, host.sys);
      AfterTheTake(old(host.Own(t)), own, host.Own(t), code, verdict);
    }

    /** A code in time is submitted, and the refresh with it decides. */
    method RefreshWith(t: Tid, code: Option<string>, answer: Verdict) returns (r: Refresh, ghost verdict: Option<Verdict>)
      requires host.Consistent() && t in host.sys.duties && host.sys.duties[t].Answering?
      modifies host
      ensures host.Consistent() && !r.Challenge?
      ensures verdict in {None, Some(answer)}
      ensures host.Own(t) == old(host.Own(t)) + SubmitSteps(code, verdict) && (verdict.Some? ==> code.Some?)
      ensures r.Refreshed? <==> verdict == Some(Fine)
      ensures r == NotRefreshed(Failed, Some(CodeRejected)) <==> verdict == Some(Refused)
      ensures r.NotRefreshed? ==> !r.state.Succeeded? && r.failure in {None, Some(CodeRejected), Some(Raised), Some(NotResumable), Some(ChallengeExpired)}
      ensures r.NotRefreshed? && r.failure == Some(CodeRejected) ==> r.state.Failed?
      ensures verdict == Some(Broken) ==> r == NotRefreshed(Failed, Some(Raised))
      ensures verdict.None? && code.Some? ==> old(host.sys.duties[t]).deadline <= host.sys.now
      ensures verdict.Some? ==> AnswerIs(host, old(host.sys.duties[t]).id, verdict.value)
      ensures verdict.None? ==> r == if code.None? then NotRefreshed(Cancelled, None) else NotRefreshed(Failed, Some(ChallengeExpired))
      ensures r.Refreshed? ==> t in host.sys.duties && host.sys.duties[t] == Granted(old(host.sys.duties[t].job))
      ensures r.Refreshed? ==> GrantedBy(host, old(host.sys.duties[t].job), old(host.sys.duties[t].id), code)
      ensures r.NotRefreshed? ==> t !in host.sys.duties && RanOnce(host, old(host.sys.duties[t].job))
      ensures AllOnward(old(host.sys), host.sys)
    {
      hide Inv, IsRun, After, AllOnward, OwnPart;
      if code.None? {
        host.GiveUp(t);
        return NotRefreshed(Cancelled, None), None;
      }
      if host.sys.duties[t].deadline <= host.sys.now {
        host.GiveUp(t);
        return NotRefreshed(Failed, Some(ChallengeExpired)), None;
      }
      ghost var s0 := host.sys;
      host.Do(t, Submit(code.value));
      ghost var s1 := host.sys;
      host.Interfere(t, false);
      ghost var s2 := host.sys;
      AllOnwardTrans(s0, s1, s2);
      host.Refresh(t, answer);
      ghost var s3 := host.sys;
      AllOnwardTrans(s0, s2, s3);
      verdict := Some(answer);
      match answer {
        case Fine =>
          host.AcceptCode(t);
          r := Refreshed;
        case Refused =>
          host.GiveUp(t);
          r := NotRefreshed(Failed, Some(CodeRejected));
        case Broken =>
          host.GiveUp(t);
          r := NotRefreshed(Failed, Some(Raised));
      }
      AllOnwardTrans(s0, s3, host.sys);
    }

    /** `cancel` */
    method Cancel(t: Tid)
      requires host.Consistent() && t in host.sys.duties && host.sys.duties[t].Cancelling?
      modifies host
      ensures host.Consistent() && t !in host.sys.duties && host.inner == old(host.inner) - {old(host.sys.duties[t].id)}
      ensures host.outer == old(host.outer) && host.sys.jobs == old(host.sys.jobs) && host.sys.now == old(host.sys.now)
      ensures AllOnward(old(host.sys), host.sys) && host.Own(t) == old(host.Own(t)) + [InnerCancel]
    {
      hide Inv, IsRun, After, AllOnward, OwnPart;
      host.inner := host.inner - {host.sys.duties[t].id};
      host.Do(t, InnerCancel);
    }
  }

  /** The steps of looking at the session: refreshed at once, given up, or a challenge offered. */
  ghost predicate Looks(own: seq<Step>, before: seq<Step>, found: Found) {
    if Ready(found) then own == before + [InnerSweep, Look(found), Reuse]
    else if found.LookFailed? then own == before + [InnerSweep, Look(found), GiveUp]
    else exists id :: own == before + [InnerSweep, Look(found)] + [Offer(id), InnerInsert]
  }

  /** The steps after a pending refresh was taken: the code is submitted and judged, or the call gives up. */
  function SubmitSteps(code: Option<string>, verdict: Option<Verdict>): seq<Step> {
    if code.Some? && verdict.Some? then [Submit(code.value), Judge(verdict.value), if verdict.value.Fine? then Accept else GiveUp]
    else [GiveUp]
  }

  /** The steps of resuming a refresh; nothing is submitted without a verdict. */
  predicate Resumes(own: seq<Step>, before: seq<Step>, code: Option<string>, verdict: Option<Verdict>) {
    && (verdict.Some? ==> code.Some?)
    && (own == before + [InnerTake] + SubmitSteps(code, verdict) || (verdict.None? && own == before + [InnerTake]))
  }

  lemma PendingDeadline(host: MfaHost, id: Id)
    requires host.Consistent() && id in host.sys.tickets
    ensures id in host.inner ==> host.inner[id] == host.sys.tickets[id].deadline
  {
    assert TicketOk(host.sys, id);
  }

  lemma NothingSubmitted(before: seq<Step>, code: Option<string>)
    ensures Resumes(before + [InnerTake], before, code, None)
  {
  }

  lemma AfterTheTake(before: seq<Step>, taken: seq<Step>, own: seq<Step>, code: Option<string>, verdict: Option<Verdict>)
    requires taken == before + [InnerTake] && own == taken + SubmitSteps(code, verdict) && (verdict.Some? ==> code.Some?)
    ensures Resumes(own, before, code, verdict)
  {
  }

  /** The action runs again because the session was found like this. */
  ghost predicate UnchallengedBy(host: MfaHost, job: Job, found: Found)
    reads host
  {
    job in host.sys.jobs && host.sys.jobs[job].grant == Some(Unchallenged(found)) && Ready(found)
  }

  /** The refresh for this operation ended like this. */
  ghost predicate AnswerIs(host: MfaHost, id: Id, verdict: Verdict)
    reads host
  {
    id in host.sys.tickets && host.sys.tickets[id].answer == Some(verdict)
  }

  ghost predicate GrantedBy(host: MfaHost, job: Job, id: Id, code: Option<string>)
    reads host
  {
    && code.Some? && job in host.sys.jobs && host.sys.jobs[job].grant.Some?
    && id in host.sys.tickets && host.sys.tickets[id].answer == Some(Fine)
    && var g := host.sys.jobs[job].grant.value;
       g.Answered? && g.id == id && g.code == code.value
  }

  /** An id taken out of the outer table never comes back. */
  lemma NotWaiting(host: MfaHost, past: Sys, id: Id)
    requires host.Consistent() && AllOnward(past, host.sys) && id in past.tickets && past.tickets[id].stage.Retired?
    ensures id !in host.outer && id in host.sys.tickets && host.sys.tickets[id].deadline == past.tickets[id].deadline
    ensures host.sys.tickets[id].stage.Retired?
  {
    OnwardAt(past, host.sys, id);
    if id in host.outer { WaitingTicket(host.sys, id); }
  }

  /** The caller is told how the action ended. */
  predicate EndsAs(r: OperationResult, ending: Ending) {
    && (r.state.Succeeded? <==> ending.Returns?) && (r.state.Cancelled? <==> ending.IsCancelled?)
    && (r.state.Failed? <==> ending.AsksForMfa? || ending.Fails? || ending.Escapes?)
    && (r.failure == Some(ActionFailed) <==> ending.AsksForMfa? || ending.Fails?)
    && (r.failure == Some(Raised) <==> ending.Escapes?)
    && (r.failure.None? <==> ending.Returns? || ending.IsCancelled?) && r.challenge.None?
  }

  /** A sweep drops actions other than the excluded one. */
  predicate SweptOnly(own: seq<Step>, before: seq<Step>, exclude: Option<Id>) {
    && |before| <= |own| && own[..|before|] == before
    && forall step | step in own[|before|..] :: step.InnerCancel? || (step.Expire? && Some(step.id) != exclude)
  }

  lemma NothingSwept(own: seq<Step>, exclude: Option<Id>)
    ensures SweptOnly(own, own, exclude)
  {
  }

  lemma SweptOnlyGrows(own: seq<Step>, before: seq<Step>, exclude: Option<Id>, id: Id)
    requires SweptOnly(own, before, exclude) && Some(id) != exclude
    ensures SweptOnly(own + [Expire(id)] + [InnerCancel], before, exclude)
  {
    assert (own + [Expire(id)] + [InnerCancel])[|before|..] == own[|before|..] + [Expire(id)] + [InnerCancel];
  }

  /** An action was taken, and no refresh begun: each reason has its own steps and its own answer. */
  predicate Unbegun(r: OperationResult, own: seq<Step>, taken: seq<Step>, code: Option<string>, late: bool) {
    || (own == taken + [Refuse] + [InnerCancel] && late && r == OperationResult(Failed, Some(ChallengeExpired), None))
    || (own == taken + [InnerTake] && r == OperationResult(Failed, Some(NotResumable), None))
    || (own == taken + [InnerTake] + [GiveUp] && code.None? && r == OperationResult(Cancelled, None, None))
    || (own == taken + [InnerTake] + [GiveUp] && code.Some? && late && r == OperationResult(Failed, Some(ChallengeExpired), None))
  }

  /** The steps of one that did begin a refresh. */
  predicate Begun(own: seq<Step>, taken: seq<Step>, code: Option<string>, verdict: Verdict) {
    own == taken + [InnerTake] + SubmitSteps(code, Some(verdict)) + if verdict.Fine? then [SecondRun] else []
  }

  /** The time of the challenge is up. */
  ghost predicate Late(host: MfaHost, id: Id)
    reads host
  {
    id in host.sys.tickets && host.sys.tickets[id].deadline <= host.sys.now
  }

  lemma HowItEnded(own: seq<Step>, taken: seq<Step>, code: Option<string>, verdict: Verdict)
    requires Resumes(own, taken, code, Some(verdict))
    ensures verdict.Fine? ==> Begun(own + [SecondRun], taken, code, verdict)
    ensures !verdict.Fine? ==> Begun(own, taken, code, verdict)
  {
    assert own + [] == own;
  }

  /** The action is over after two runs, and its grant is this code, offered in time for this operation. */
  ghost predicate RanWithCode(host: MfaHost, job: Job, id: Id, code: Option<string>)
    reads host
  {
    && GrantedBy(host, job, id, code) && host.sys.jobs[job].place.Over? && host.sys.jobs[job].runs == 2
    && id in host.sys.tickets && host.sys.tickets[id].job == job
    && host.sys.jobs[job].grant.value.at < host.sys.tickets[id].deadline
  }

  lemma RunWithItsCode(host: MfaHost, before: Sys, job: Job, id: Id, code: Option<string>)
    requires host.Consistent() && RanTwice(before, host.sys, job) && AllOnward(before, host.sys)
    requires code.Some? && job in before.jobs && id in before.tickets && before.tickets[id].answer == Some(Fine)
    requires before.jobs[job].grant.Some? && before.jobs[job].grant.value.Answered?
    requires before.jobs[job].grant.value.id == id && before.jobs[job].grant.value.code == code.value
    ensures RanWithCode(host, job, id, code) && AnswerIs(host, id, Fine)
  {
    hide Inv, AllOnward;
    OnwardAt(before, host.sys, id);
    host.JobFacts(job);
  }

  /** The action asked for MFA, is over and was not run again. */
  ghost predicate RanOnce(host: MfaHost, job: Job)
    reads host
  {
    JobIsOver(host, job) && host.sys.jobs[job].runs == 1 && host.sys.jobs[job].asked
  }

  predicate RanTwice(before: Sys, after: Sys, job: Job) {
    job in before.jobs && job in after.jobs && after.jobs[job] == before.jobs[job].(place := Over, runs := 2)
  }

  ghost predicate JobIsOver(host: MfaHost, job: Job)
    reads host
  {
    job in host.sys.jobs && host.sys.jobs[job].place.Over?
  }

  class AuthenticatedOperationCoordinator {
    const host: MfaHost
    const authentication: OperationCoordinator

    constructor (authentication: OperationCoordinator)
      ensures this.authentication == authentication && this.host == authentication.host
    {
      this.authentication, this.host := authentication, authentication.host;
    }

    ghost predicate Idle(t: Tid)
      reads this, host
    {
      host.Consistent() && t !in host.sys.duties && authentication.host == host
    }

    /** Keys to go through, in some order. */
    method Expired(now: int, exclude: Option<Id>) returns (keys: seq<Id>)
      ensures forall id :: id in keys <==> id in host.outer && Some(id) != exclude && now >= host.outer[id].deadline
      ensures forall i, j | 0 <= i < j < |keys| :: keys[i] != keys[j]
    {
      keys := [];
      var rest := host.outer.Keys;
      while rest != {}
        invariant rest <= host.outer.Keys
        invariant forall id :: id in keys <==> id in host.outer && id !in rest && Some(id) != exclude && now >= host.outer[id].deadline
        invariant forall i, j | 0 <= i < j < |keys| :: keys[i] != keys[j]
      {
        var id :| id in rest;
        rest := rest - {id};
        if Some(id) != exclude && now >= host.outer[id].deadline { keys := keys + [id]; }
      }
    }

    /** An action whose time is up is dropped, and its refresh cancelled. */
    method DropExpired(t: Tid, id: Id)
      requires Idle(t) && id in host.outer && host.outer[id].deadline <= host.sys.now
      modifies host
      ensures Idle(t) && host.outer == old(host.outer) - {id} && old(host.sys.now) <= host.sys.now
      ensures AllOnward(old(host.sys), host.sys) && host.Own(t) == old(host.Own(t)) + [Expire(id)] + [InnerCancel]
    {
      hide Inv, IsRun, After, AllOnward, OwnPart;
      ghost var s0 := host.sys;
      host.outer := host.outer - {id};
      host.Do(t, Expire(id));
      ghost var s1 := host.sys;
      host.Interfere(t, true);
      ghost var s2 := host.sys;
      host.DutyFacts(t);
      authentication.Cancel(t);
      AllOnwardTrans(s0, s1, s2);
      AllOnwardTrans(s0, s2, host.sys);
    }

    /** `_sweep_expired`: no action whose time was up when the sweep began is still waiting when it ends. */
    method SweepExpired(t: Tid, exclude: Option<Id>)
      requires Idle(t)
      modifies host
      ensures Idle(t) && old(host.sys).now <= host.sys.now
      ensures AllOnward(old(host.sys), host.sys) && SweptOnly(host.Own(t), old(host.Own(t)), exclude)
      ensures forall id | id in old(host.outer) && id in host.outer && Some(id) != exclude ::
        old(host.sys).now < host.outer[id].deadline
    {
      hide Inv, IsRun, After, AllOnward, Enabled, Apply, MfaHost.Own, SweptOnly;
      ghost var start, own := host.sys, host.Own(t);
      NothingSwept(own, exclude);
      host.Interfere(t, false);
      var now := host.sys.now;
      ghost var s1 := host.sys;
      host.Interfere(t, false);
      AllOnwardTrans(start, s1, host.sys);
      var keys := Expired(now, exclude);
      ghost var outer := host.outer;
      for k := 0 to |keys|
        invariant Idle(t) && now <= host.sys.now
        invariant AllOnward(start, host.sys) && SweptOnly(host.Own(t), own, exclude)
        invariant forall id :: id in host.outer <==> id in outer && id !in keys[..k]
        invariant forall id | id in host.outer :: host.outer[id] == outer[id]
      {
        assert keys[k] in keys && keys[k] !in keys[..k];
        ghost var before := host.sys;
        SweptOnlyGrows(host.Own(t), own, exclude, keys[k]);
        DropExpired(t, keys[k]);
        AllOnwardTrans(start, before, host.sys);
        assert keys[..k + 1] == keys[..k] + [keys[k]];
      }
      assert keys[..|keys|] == keys;
    }

    /** `execute_operation` */
    function ActionResult(ending: Ending): (r: OperationResult)
      ensures EndsAs(r, ending) && !r.state.MfaRequired? && r.challenge.None?
    {
      match ending
      case Returns => OperationResult(Succeeded, None, None)
      case IsCancelled => OperationResult(Cancelled, None, None)
      case AsksForMfa => OperationResult(Failed, Some(ActionFailed), None)
      case Fails => OperationResult(Failed, Some(ActionFailed), None)
      case Escapes => OperationResult(Failed, Some(Raised), None)
    }

    /** `_invoke` for the second time; the action ends as `second` says. */
    method RunAgain(t: Tid, second: Ending) returns (r: OperationResult)
      requires host.Consistent() && t in host.sys.duties && host.sys.duties[t].Granted? && authentication.host == host
      modifies host`sys, host`trace
      ensures Idle(t) && EndsAs(r, second) && !r.state.MfaRequired? && r.challenge.None?
      ensures RanTwice(old(host.sys), host.sys, old(host.sys).duties[t].job)
      ensures AllOnward(old(host.sys), host.sys) && host.Own(t) == old(host.Own(t)) + [SecondRun]
    {
      hide Inv, IsRun, After, AllOnward, OwnPart;
      host.DutyFacts(t);
      host.Do(t, SecondRun);
      r := ActionResult(second);
    }

    /** The action waits for its code, unless too many do. */
    method Park(t: Tid) returns (atCapacity: bool)
      requires host.Consistent() && t in host.sys.duties && host.sys.duties[t].Inserted? && authentication.host == host
      modifies host
      ensures host.Consistent()
      ensures !atCapacity ==> t !in host.sys.duties
      ensures var d := old(host.sys).duties[t];
        && d.job in host.sys.jobs && host.sys.jobs[d.job].runs == 1 && host.sys.jobs[d.job].asked
        && if atCapacity then host.sys.jobs[d.job].place.Over? && t in host.sys.duties && host.sys.duties[t] == Cancelling(d.id)
           else d.id in host.outer && host.outer[d.id] == Pending(d.job, d.deadline)
    {
      hide Inv, IsRun, After, AllOnward;
      var d := host.sys.duties[t];
      host.DutyFacts(t);
      atCapacity := |host.outer| >= MAX_PENDING;
      if !atCapacity { host.outer := host.outer[d.id := Pending(d.job, d.deadline)]; }
      host.Commit(Event(t, OuterInsert));
    }

    /**
      `start_long`; `job` is the number its action gets, `first` and `second` say how its runs end, and `found` what
      a look at the session finds if the first one asks for MFA.  Either the call leaves a challenge, and then the action
      has run once and waits in the table under its id with a pending refresh; or it leaves nothing, and the
      action will not run again; then the answer is how its last run ended, unless the refresh failed.
     */
    method StartLong(t: Tid, first: Ending, found: Found, second: Ending) returns (r: OperationResult, job: Job)
      requires Idle(t)
      modifies host
      ensures Idle(t)
      ensures r.state.MfaRequired? ==>
        r.challenge.Some? && r.challenge.value in host.outer && host.outer[r.challenge.value].job == job
      ensures r.state.MfaRequired? ==> job in host.sys.jobs && host.sys.jobs[job].runs == 1
      ensures !r.state.MfaRequired? ==> JobIsOver(host, job) && r.challenge.None?
      ensures job in host.sys.jobs && (host.sys.jobs[job].asked <==> first.AsksForMfa?)
      ensures r.state.MfaRequired? ==> first.AsksForMfa? && found.CodeNeeded?
      ensures !first.AsksForMfa? ==> EndsAs(r, first)
      ensures first.AsksForMfa? && Ready(found) ==> EndsAs(r, second) && UnchallengedBy(host, job, found)
      ensures first.AsksForMfa? && found.LookFailed? ==> r == OperationResult(Failed, Some(Raised), None)
      ensures first.AsksForMfa? && found.CodeNeeded? && !r.state.MfaRequired? ==> r == OperationResult(Failed, Some(CapacityExceeded), None)
      ensures !r.state.MfaRequired? ==> host.sys.jobs[job].runs == if first.AsksForMfa? && Ready(found) then 2 else 1
    {
      hide Inv, IsRun, After, AllOnward, EndsAs, ActionResult, Looks, MfaHost.Own, FreshJob;
      SweepExpired(t, None);
      FreshJobExists(host.sys);
      job :| FreshJob(host.sys, job);
      host.Commit(Event(t, FirstRun(job, first.AsksForMfa?)));
      host.Interfere(t, false);
      host.DutyFacts(t);
      if !first.AsksForMfa? {
        host.GiveUp(t);
        return ActionResult(first), job;
      }
      var refresh := authentication.StartRefresh(t, found);
      match refresh {
        case Refreshed =>
          r := RunAgain(t, second);
          host.JobFacts(job);
        case NotRefreshed(state, failure) =>
          r := OperationResult(if state.MfaRequired? then Failed else state, failure, None);
        case Challenge(id, deadline) =>
          host.Interfere(t, false);
          var atCapacity := Park(t);
          if atCapacity {
            host.Interfere(t, false);
            authentication.Cancel(t);
            return OperationResult(Failed, Some(CapacityExceeded), None), job;
          }
          r := OperationResult(MfaRequired, None, Some(id));
      }
    }

    /**
      `resume`, of any id.  Whatever it answers, nothing waits under the id any longer.  If an action waited there it
      is taken (`took`), and runs exactly if the refresh with this very code was begun before the deadline and
      succeeded (`answer`), and then for the second and last time, and its end (`second`) is the answer; otherwise
      it has run once and is over.  The
      refresh is begun unless it is no longer pending, there is no code, or the time is up.
     */
    method Resume(t: Tid, id: Id, code: Option<string>, answer: Verdict, second: Ending)
      returns (r: OperationResult, ghost took: Option<Job>, ghost verdict: Option<Verdict>, ghost swept: seq<Step>)
      requires Idle(t)
      modifies host
      ensures Idle(t) && id !in host.outer
      ensures id in old(host.sys).tickets && Known(old(host.sys), id) && id !in old(host.outer) ==> took.None?
      ensures verdict in {None, Some(answer)}
      ensures took.None? ==> r == OperationResult(Failed, Some(NotResumable), None) && verdict.None?
      ensures took.Some? ==> if verdict == Some(Fine) then RanWithCode(host, took.value, id, code) else RanOnce(host, took.value)
      ensures verdict.Some? ==> code.Some? && AnswerIs(host, id, verdict.value)
      ensures verdict == Some(Fine) ==> EndsAs(r, second)
      ensures verdict == Some(Broken) ==> r == OperationResult(Failed, Some(Raised), None)
      ensures r.state.Succeeded? || r.failure == Some(ActionFailed) ==> verdict == Some(Fine)
      ensures r.failure == Some(CodeRejected) <==> verdict == Some(Refused)
      ensures SweptOnly(swept, old(host.Own(t)), Some(id)) && (took.None? ==> host.Own(t) == swept)
      ensures took.Some? && verdict.None? ==> Unbegun(r, host.Own(t), swept + [Take(id)], code, Late(host, id))
      ensures took.Some? && verdict.Some? ==> Begun(host.Own(t), swept + [Take(id)], code, verdict.value)
    {
      hide Inv, IsRun, After, AllOnward, Known, MfaHost.Own, SweptOnly, Unbegun, Begun;
      took, verdict := None, None;
      ghost var start := host.sys;
      if id in start.tickets && id !in start.outer && Known(start, id) { KnownAndOutIsRetired(start, id); }
      SweepExpired(t, Some(id));
      if id in start.tickets && id !in start.outer && Known(start, id) { NotWaiting(host, start, id); }
      swept := host.Own(t);
      if id !in host.outer { return OperationResult(Failed, Some(NotResumable), None), None, None, swept; }
      TakeOut(t, id);
      took := Some(host.sys.duties[t].job);
      r, verdict := Finish(t, code, answer, second);
    }

    /** The action is out of the table: its challenge may have expired, and otherwise the refresh decides. */
    method Finish(t: Tid, code: Option<string>, answer: Verdict, second: Ending) returns (r: OperationResult, ghost verdict: Option<Verdict>)
      requires host.Consistent() && t in host.sys.duties && host.sys.duties[t].Resuming? && authentication.host == host
      requires host.sys.duties[t].id in host.sys.tickets && host.sys.tickets[host.sys.duties[t].id].stage.Retired?
      modifies host
      ensures verdict in {None, Some(answer)}
      ensures var d := old(host.sys.duties[t]);
        && Idle(t) && d.id !in host.outer
        && (if verdict == Some(Fine) then RanWithCode(host, d.job, d.id, code) else RanOnce(host, d.job))
        && (verdict.Some? ==> code.Some? && AnswerIs(host, d.id, verdict.value))
      ensures verdict == Some(Fine) ==> EndsAs(r, second)
      ensures verdict == Some(Broken) ==> r == OperationResult(Failed, Some(Raised), None)
      ensures r.state.Succeeded? || r.failure == Some(ActionFailed) ==> verdict == Some(Fine)
      ensures r.failure == Some(CodeRejected) <==> verdict == Some(Refused)
      ensures verdict.None? ==> Unbegun(r, host.Own(t), old(host.Own(t)), code, Late(host, old(host.sys.duties[t]).id))
      ensures verdict.Some? ==> Begun(host.Own(t), old(host.Own(t)), code, verdict.value)
    {
      hide Inv, IsRun, After, AllOnward, Known, MfaHost.Own, Resumes, Begun;
      verdict := None;
      ghost var taken, d, own := host.sys, host.sys.duties[t], host.Own(t);
      host.DutyFacts(t);
      host.Interfere(t, false);
      ghost var s1 := host.sys;
      if host.sys.now >= host.sys.duties[t].deadline {
        Abandon(t);
        AllOnwardTrans(taken, s1, host.sys);
        NotWaiting(host, taken, d.id);
        return OperationResult(Failed, Some(ChallengeExpired), None), None;
      }
      var refreshed;
      refreshed, verdict := authentication.Resume(t, code, answer);
      ghost var s2 := host.sys;
      AllOnwardTrans(taken, s1, s2);
      if verdict.Some? { HowItEnded(host.Own(t), own, code, verdict.value); }
      if refreshed.NotRefreshed? {
        NotWaiting(host, taken, d.id);
        return OperationResult(refreshed.state, refreshed.failure, None), verdict;
      }
      r := RunAgain(t, second);
      AllOnwardTrans(taken, s2, host.sys);
      NotWaiting(host, taken, d.id);
      RunWithItsCode(host, s2, d.job, d.id, code);
    }

    method TakeOut(t: Tid, id: Id)
      requires Idle(t) && id in host.outer
      modifies host
      ensures host.Consistent() && t in host.sys.duties
      ensures host.sys.duties[t] == Resuming(old(host.outer)[id].job, id, old(host.outer)[id].deadline)
      ensures id in host.sys.tickets && host.sys.tickets[id].stage.Retired?
      ensures AllOnward(old(host.sys), host.sys) && host.Own(t) == old(host.Own(t)) + [Take(id)]
    {
      hide Inv, IsRun, After, AllOnward, Known, OwnPart;
      WaitingTicket(host.sys, id);
      host.outer := host.outer - {id};
      host.Do(t, Take(id));
      host.DutyFacts(t);
    }

    /** The challenge expired before the caller came back. */
    method Abandon(t: Tid)
      requires host.Consistent() && t in host.sys.duties && host.sys.duties[t].Resuming? && authentication.host == host
      requires host.sys.duties[t].deadline <= host.sys.now
      modifies host
      ensures Idle(t) && AllOnward(old(host.sys), host.sys) && RanOnce(host, old(host.sys.duties[t].job))
      ensures host.Own(t) == old(host.Own(t)) + [Refuse] + [InnerCancel] && old(host.sys.now) <= host.sys.now
    {
      hide Inv, IsRun, After, AllOnward, Known, OwnPart;
      ghost var s0 := host.sys;
      host.DutyFacts(t);
      host.Do(t, Refuse);
      ghost var s1 := host.sys;
      host.Interfere(t, false);
      AllOnwardTrans(s0, s1, host.sys);
      ghost var s2 := host.sys;
      authentication.Cancel(t);
      AllOnwardTrans(s0, s2, host.sys);
    }

    /**
      `cancel`, of any id but one that some thread is about to return for the first time: the operation is in
      neither table afterwards, whoever started it and whether or not it ever existed.
     */
    method Cancel(t: Tid, id: Id)
      requires Idle(t) && Known(host.sys, id)
      modifies host
      ensures Idle(t) && id !in host.outer && id !in host.inner
    {
      hide Inv, IsRun, After, AllOnward;
      WhereIdsAre(host, id);
      if id in host.sys.tickets {
        host.outer := host.outer - {id};
        host.Commit(Event(t, Drop(id)));
        host.DutyFacts(t);
        ghost var dropped := host.sys;
        host.Interfere(t, false);
        NotWaiting(host, dropped, id);
        authentication.Cancel(t);
      } else if id in host.sys.direct {
        host.inner := host.inner - {id};
        host.Commit(Event(t, DirectDrop(id)));
      }
    }
  }

  lemma WhereIdsAre(host: MfaHost, id: Id)
    requires host.Consistent()
    ensures id in host.outer ==> id in host.sys.tickets
    ensures id in host.inner ==> id in host.sys.tickets || id in host.sys.direct
  {
    if id in host.outer { WaitingTicket(host.sys, id); }
  }
}
