/**
  `ManagedSsmSessionRunner`, `Ec2Service` and `RdsTunnelService` over one shared process, in the order of
  the source.  Each lock-guarded region updates its dictionary and commits one step of SessionProtocol;
  between regions other threads may run any schedule of such steps.
 */
module SessionServices {
  import opened Wrappers
  import opened Texts
  import opened SessionErrors
  import opened SessionProtocol
  import opened SessionAnswers
  import P = PluginSessions

  /** The operations a step acts on. */
  function Touched(step: Step): set<Op> {
    match step
    case StartSession(op, _, _) => {op}
    case Finish(op, _) => {op}
    case Missing(op, _) => {op}
    case _ => {}
  }

  /** Between two points of the trace, thread t acted on these operations only. */
  ghost predicate Did(before: seq<Event>, after: seq<Event>, t: Tid, ops: set<Op>) {
    before <= after && forall i | |before| <= i < |after| && after[i].t == t :: Touched(after[i].step) <= ops
  }

  ghost predicate Kept(before: map<Sid, Option<string>>, after: map<Sid, Option<string>>) {
    forall s | s in before :: s in after && after[s] == before[s]
  }

  lemma KeptItself(answers: map<Sid, Option<string>>)
    ensures Kept(answers, answers)
  {
  }

  lemma KeptTrans(a: map<Sid, Option<string>>, b: map<Sid, Option<string>>, c: map<Sid, Option<string>>)
    requires Kept(a, b) && Kept(b, c)
    ensures Kept(a, c)
  {
  }

  lemma KeptAnswer(a: map<Sid, Option<string>>, b: map<Sid, Option<string>>, session: Sid)
    requires Kept(a, b) && session in a
    ensures session in b && b[session] == a[session]
  {
  }

  /** The note added to the exception of a failing observer. */
  function CleanupNote(error: Option<AppError>): Option<string> {
    if error.Some? then Some("Managed session cleanup failed (" + error.value.code + ")") else None
  }

  /** There is a note exactly if something failed, and it names the code. */
  lemma NoteNamesTheCode(error: Option<AppError>)
    ensures CleanupNote(error).Some? <==> error.Some?
    ensures error.Some? ==> Contains(CleanupNote(error).value, error.value.code)
  {
    if error.Some? {
      ContainsItself(error.value.code);
      ContainsAround("Managed session cleanup failed (", error.value.code, ")", error.value.code);
    }
  }

  /** What the calls of a start come back with, in this order. */
  datatype StartAnswers = StartAnswers(
    interrupted: Option<Raised>,    // cancellation or an observer, before the plugin is checked
    diagnostic: P.Diagnostic,
    refused: Option<Raised>,        // cancellation, an observer or StartSession
    broken: Option<Raised>,         // cancellation, an observer or the launch
    process: nat,
    observer: Option<Raised>)       // the last report
  {
    /** Why no session was started. */
    function NotStarted(): Option<Raised> {
      if interrupted.Some? then interrupted
      else if P.NotReady(diagnostic).Some? then Some(Application(P.NotReady(diagnostic).value))
      else refused
    }

    /** What the start answers; `ended` is the answer of EndSession if the launch breaks off. */
    function Answer(op: Op, ended: Option<string>): Result<ManagedSession, Raised> {
      if NotStarted().Some? then Err(NotStarted().value)
      else if broken.Some? then Err(AfterFailedStart(broken.value, ended))
      else if observer.Some? then Err(observer.value)
      else Ok(ManagedSession(op, Running, None, None, None))
    }
  }

  /** A start succeeds exactly if nothing is raised; otherwise the first thing raised is what the caller gets, converted if need be. */
  lemma StartAnswerIsHonest(a: StartAnswers, op: Op, ended: Option<string>)
    ensures a.Answer(op, ended).Ok? <==>
      a.interrupted.None? && a.diagnostic == P.Diagnostic(true, true, true) && a.refused.None? && a.broken.None? && a.observer.None?
    ensures a.interrupted.Some? ==> a.Answer(op, ended) == Err(a.interrupted.value)
    ensures a.interrupted.None? && a.diagnostic == P.Diagnostic(true, true, true) && a.refused.Some? ==> a.Answer(op, ended) == Err(a.refused.value)
    ensures a.NotStarted().None? && a.broken.None? && a.observer.Some? ==> a.Answer(op, ended) == Err(a.observer.value)
    ensures a.NotStarted().None? && a.broken.Some? && a.broken.value.Application? ==>
      a.Answer(op, ended).Err? && Carries(a.Answer(op, ended).error, a.broken.value.error)
  {
    if a.broken.Some? { FailedStartKeepsThePrimary(a.broken.value, ended); }
  }

  const NOT_OWNED := PluginError("session.operation.not_found", "Managed SSM session is not owned by this process")

  /** The dictionaries of one application process, and the protocol state they stand for. */
  class SessionHost {
    var owned: map<Op, OwnedSession>
    var external: map<Op, Entry>
    var managed: map<Op, Entry>
    var attempts: multiset<Sid>   // EndSession calls AWS has received
    ghost var answers: map<Sid, Option<string>>   // what each of them answered
    var clock: int
    var sys: Sys
    ghost var trace: seq<Event>

    constructor ()
      ensures Consistent() && sys == START && trace == []
    {
      owned, external, managed, attempts, answers, sys, trace := map[], map[], map[], multiset{}, map[], START, [];
      new;
      assert Inv(START);
    }

    ghost predicate Recorded()
      reads this`sys, this`trace
    {
      IsRun(START, trace) && After(START, trace) == sys && Inv(sys)
    }

    /** The dictionaries are those of protocol state s. */
    predicate Shows(s: Sys)
      reads this`owned, this`external, this`managed, this`attempts
    {
      owned == s.owned && external == s.external && managed == s.managed && attempts == s.attempts
    }

    ghost predicate Consistent()
      reads this
    {
      Recorded() && Shows(sys) && Answered()
    }

    /** Exactly the sessions that EndSession was asked for have an answer. */
    ghost predicate Answered()
      reads this`answers, this`attempts
    {
      forall s :: s in answers <==> attempts[s] > 0
    }

    /** Answers once given stay, and time does not go back. */
    ghost predicate Keeps(before: map<Sid, Option<string>>, clockBefore: int)
      reads this`answers, this`clock
    {
      clockBefore <= clock && Kept(before, answers)
    }

    /** End of a guarded region: what it did to the dictionaries must be exactly this step. */
    method Commit(e: Event)
      requires Recorded() && Enabled(sys, e) && Shows(Apply(sys, e)) && Answered()
      modifies this`sys, this`trace
      ensures Consistent() && sys == Apply(old(sys), e) && trace == old(trace) + [e]
      ensures Forward(old(sys), sys)
    {
      hide Inv, IsRun, After, Forward, Enabled, Apply;
      StepMovesForward(sys, e);
      StepKeepsInv(sys, e);
      RunExtends(START, trace, e);
      sys, trace := Apply(sys, e), trace + [e];
    }

    lemma OwnedIsLive(op: Op)
      requires Consistent() && op in owned
      ensures !owned[op].ended && op in sys.sessions && owned[op].session == sys.sessions[op]
      ensures owned[op].session !in answers
    {
      assert OwnedOk(sys, op) && AttemptsOk(sys, op);
    }

    lemma TableIsTracked(op: Op, owner: Owner)
      requires Consistent() && op in Table(sys, owner)
      ensures op in sys.tracked
    {
      TablesAreTracked(sys);
    }

    lemma UnusedIsNotOwned(op: Op)
      requires Consistent() && op !in sys.sessions
      ensures op !in owned && op !in sys.tracked
    {
      if op in owned { OwnedIsLive(op); }
    }

    lemma DutyFacts(t: Tid)
      requires Recorded() && t in sys.duties
      ensures DutyOk(sys, t)
    {
    }

    /** A start in progress is the only thread with a duty about its operation. */
    lemma OnlyDuty(t: Tid)
      requires Recorded() && t in sys.duties && !sys.duties[t].Popping?
      ensures forall u | u in sys.duties && u != t :: sys.duties[u].op != sys.duties[t].op
    {
      forall u | u in sys.duties && u != t ensures sys.duties[u].op != sys.duties[t].op {
        assert DutiesApart(sys, t, u);
      }
    }

    /** A session nobody is responsible for any more has been ended once. */
    lemma EndedFacts(op: Op)
      requires Consistent() && op in sys.sessions && op !in owned
      requires forall t | t in sys.duties :: sys.duties[t].op != op
      ensures attempts[sys.sessions[op]] == 1
    {
      assert AttemptsOk(sys, op);
    }

    /** The dictionaries become those of s; whoever asked EndSession of a session has got some answer. */
    method Follow(s: Sys)
      requires Answered() && forall sid :: attempts[sid] > 0 ==> s.attempts[sid] > 0
      modifies this`owned, this`external, this`managed, this`attempts, this`answers
      ensures Shows(s) && Answered() && Keeps(old(answers), clock)
    {
      var answer: Option<string> := *;
      owned, external, managed, attempts := s.owned, s.external, s.managed, s.attempts;
      answers := map sid | sid in s.attempts :: if sid in answers then answers[sid] else answer;
    }

    /** One step of some other thread. */
    method Take(e: Event)
      requires Consistent() && Enabled(sys, e)
      modifies this
      ensures Consistent() && sys == Apply(old(sys), e) && trace == old(trace) + [e]
      ensures Keeps(old(answers), old(clock))
    {
      hide Inv, IsRun, After, Enabled, Apply, Forward, SessionHost.Answered;
      AttemptsGrow(sys, e);
      Follow(Apply(sys, e));
      var now := Now();
      Commit(e);
    }

    /** `clock.now()` */
    method Now() returns (now: int)
      modifies this`clock
      ensures now == clock && old(clock) <= clock
    {
      var elapsed: int := *;
      if elapsed > 0 { clock := clock + elapsed; }
      now := clock;
    }

    /** Other threads run for a while. */
    method Interfere(t: Tid)
      requires Consistent()
      modifies this
      ensures Consistent() && Undisturbed(old(sys), sys, t) && Did(old(trace), trace, t, {})
      ensures Keeps(old(answers), old(clock))
    {
      hide Inv, IsRun, After, Forward, Undisturbed, Enabled, Apply, SessionHost.Answered;
      var schedule: seq<Event> := *;
      TablesAreTracked(sys);
      UndisturbedItself(sys, t);
      var i := 0;
      while i < |schedule|
        invariant Consistent() && Undisturbed(old(sys), sys, t) && Did(old(trace), trace, t, {})
        invariant Keeps(old(answers), old(clock))
      {
        if schedule[i].t != t && Enabled(sys, schedule[i]) {
          ghost var before := sys;
          OtherThreadStep(sys, schedule[i], t);
          Take(schedule[i]);
          UndisturbedTrans(old(sys), before, sys, t);
        }
        i := i + 1;
      }
    }
  }

  /** The runner owns op no longer (EndSession attempted if it did until now), and thread t has to untrack it. */
  predicate Released(s: Sys, s': Sys, t: Tid, op: Op, owner: Owner) {
    && s'.owned == s.owned - {op} && s'.duties == s.duties[t := Popping(op, owner)]
    && s'.attempts == (if op in s.owned then Attempted(s.attempts, s.owned[op].session) else s.attempts)
    && s'.external == s.external && s'.managed == s.managed && s'.sessions == s.sessions
    && s'.tracked == s.tracked && s'.tunnelLock == s.tunnelLock
  }

  lemma FinishReleases(s: Sys, t: Tid, op: Op, owner: Owner)
    requires op in s.owned && op in Table(s, owner) && t !in s.duties && MayTouch(s, t, owner)
    ensures Enabled(s, Event(t, Finish(op, owner)))
    ensures var s' := Apply(s, Event(t, Finish(op, owner)));
      && Released(s, s', t, op, owner) && s'.owned == s.owned - {op} && s'.external == s.external && s'.managed == s.managed
      && s'.tracked == s.tracked && s'.attempts == Attempted(s.attempts, s.owned[op].session)
  {
  }

  lemma MissingReleases(s: Sys, t: Tid, op: Op, owner: Owner)
    requires op !in s.owned && op in s.tracked && t !in s.duties && MayTouch(s, t, owner)
    ensures Enabled(s, Event(t, Missing(op, owner)))
    ensures var s' := Apply(s, Event(t, Missing(op, owner)));
      && Released(s, s', t, op, owner) && s'.owned == s.owned && s'.external == s.external && s'.managed == s.managed
      && s'.tracked == s.tracked && s'.attempts == s.attempts
  {
    assert s.owned - {op} == s.owned;
  }

  lemma DidOne(trace: seq<Event>, e: Event)
    ensures Did(trace, trace + [e], e.t, Touched(e.step))
  {
  }

  lemma DidNothing(trace: seq<Event>, t: Tid, ops: set<Op>)
    ensures Did(trace, trace, t, ops)
  {
  }

  lemma StartFacts(s: Sys, t: Tid, op: Op, owner: Owner, session: Sid)
    requires t !in s.duties && op !in s.sessions && session !in s.sessions.Values
    ensures var e := Event(t, StartSession(op, owner, session));
      && Enabled(s, e) && Apply(s, e).duties == s.duties[t := Launching(op, owner, session)] && Apply(s, e).tunnelLock == s.tunnelLock
      && Apply(s, e).owned == s.owned && Apply(s, e).external == s.external && Apply(s, e).managed == s.managed
      && Apply(s, e).attempts == s.attempts
  {
  }

  lemma StillOnDuty(s: Sys, s': Sys, t: Tid)
    requires Undisturbed(s, s', t) && t in s.duties
    ensures t in s'.duties && s'.duties[t] == s.duties[t] && Forward(s, s')
    ensures s.tunnelLock == Some(t) <==> s'.tunnelLock == Some(t)
  {
  }

  class ManagedSsmSessionRunner {
    const host: SessionHost
    const plugin: P.PluginHost

    constructor (host: SessionHost, plugin: P.PluginHost)
      ensures this.host == host && this.plugin == plugin
    {
      this.host, this.plugin := host, plugin;
    }

    /** One EndSession request reaches AWS, whatever comes back. */
    method EndSession(session: Sid) returns (failure: Option<string>)
      requires host.Answered()
      modifies host`attempts, host`answers
      ensures host.attempts == Attempted(old(host.attempts), session) && host.answers == old(host.answers)[session := failure]
      ensures host.Answered()
    {
      var accepted: bool := *;
      failure := if accepted then None else Some("ClientError");
      host.attempts, host.answers := Attempted(host.attempts, session), host.answers[session := failure];
    }

    /** `_capture_end_error`: the session is marked ended before the request, so it is never asked twice. */
    method CaptureEndError(op: Op) returns (error: Option<AppError>)
      requires op in host.owned && host.Answered()
      modifies host`owned, host`attempts, host`answers
      ensures host.owned == old(host.owned)[op := old(host.owned)[op].(ended := true)] && host.Answered()
      ensures old(host.owned)[op].ended ==> error.None? && host.attempts == old(host.attempts) && host.answers == old(host.answers)
      ensures !old(host.owned)[op].ended ==> Ended(old(host.attempts), old(host.answers), old(host.owned)[op].session, error)
    {
      var entry := host.owned[op];
      error := None;
      if !entry.ended {
        host.owned := host.owned[op := entry.(ended := true)];
        var failure := EndSession(entry.session);
        error := EndError(failure);
      }
      assert host.owned == old(host.owned)[op := old(host.owned)[op].(ended := true)];
    }

    /** EndSession was asked once more, for this session, and its answer became this error. */
    ghost predicate Ended(attempts: multiset<Sid>, answers: map<Sid, Option<string>>, session: Sid, error: Option<AppError>)
      reads this, host
    {
      && host.attempts == Attempted(attempts, session) && session in host.answers
      && host.answers == answers[session := host.answers[session]] && error == EndError(host.answers[session])
    }

    /** The session leaves the runner: EndSession once, then forget it. */
    method Disown(op: Op) returns (error: Option<AppError>)
      requires op in host.owned && !host.owned[op].ended && host.Answered()
      modifies host`owned, host`attempts, host`answers
      ensures host.owned == old(host.owned) - {op} && host.Answered()
      ensures Ended(old(host.attempts), old(host.answers), old(host.owned)[op].session, error)
    {
      error := CaptureEndError(op);
      host.owned := host.owned - {op};
    }

    /** Body of `status` for an owned operation; `made` are the calls on its process. */
    method StatusOwned(op: Op) returns (r: ManagedSession, ghost made: seq<P.Call>)
      requires op in host.owned && !host.owned[op].ended && host.Answered()
      modifies host`owned, host`attempts, host`answers, plugin
      ensures plugin.calls == old(plugin.calls) + made && IsPoll(old(host.owned)[op].process, made) && host.Answered()
      ensures r == StatusAnswer(op, made, AnswerFor(old(host.owned)[op].session, !r.state.Running?), old(host.owned)[op].externalTerminal)
      ensures r.state.Running? ==>
        host.owned == old(host.owned) && host.attempts == old(host.attempts) && host.answers == old(host.answers)
      ensures !r.state.Running? ==> host.owned == old(host.owned) - {op}
      ensures !r.state.Running? ==>
        Ended(old(host.attempts), old(host.answers), old(host.owned)[op].session, EndError(AnswerFor(old(host.owned)[op].session, true)))
    {
      hide Combine, P.StopVerdict, P.IsStop, EndError;
      var entry := host.owned[op];
      var polled := plugin.Poll(entry.process);
      made := [P.Polled(entry.process, polled)];
      match polled {
        case PollRaised(name) =>
          var raised := Some(PluginError("plugin.status.failed", name));
          var stop;
          ghost var stopping;
          stop, stopping := plugin.StopProcess(entry.process);
          made := made + stopping;
          assert made[1..] == stopping;
          var ended := Disown(op);
          r := ManagedSession(op, Failed, None, Combine([raised, stop.error, ended]), None);
        case StillRunning =>
          r := ManagedSession(op, Running, None, None, None);
        case Ended(code) =>
          var exitError := ExitError(code);
          var ended := Disown(op);
          if code == 0 && entry.externalTerminal {
            r := ManagedSession(op, Succeeded, Some(code), None, ended);
          } else {
            var state := if code != 0 || ended.Some? then Failed else Succeeded;
            r := ManagedSession(op, state, Some(code), Combine([exitError, ended]), None);
          }
      }
    }

    /** What EndSession answered for a session, if it was asked. */
    ghost function AnswerFor(session: Sid, asked: bool): Option<string>
      reads this, host
    {
      if asked && session in host.answers then host.answers[session] else None
    }

    /** Body of `stop` for an owned operation; `made` are the calls on its process. */
    method StopOwned(op: Op) returns (r: ManagedSession, ghost made: seq<P.Call>)
      requires op in host.owned && !host.owned[op].ended && host.Answered()
      modifies host`owned, host`attempts, host`answers, plugin
      ensures plugin.calls == old(plugin.calls) + made && IsManagedStop(old(host.owned)[op].process, made) && host.Answered()
      ensures r == StopAnswer(op, made, AnswerFor(old(host.owned)[op].session, true))
      ensures host.owned == old(host.owned) - {op}
      ensures Ended(old(host.attempts), old(host.answers), old(host.owned)[op].session, EndError(AnswerFor(old(host.owned)[op].session, true)))
    {
      hide Combine, P.StopVerdict, P.IsStop, EndError, ExitError;
      var entry := host.owned[op];
      var polled := plugin.Poll(entry.process);
      made := [P.Polled(entry.process, polled)];
      var exitCode: Option<int>;
      var processError: Option<AppError> := None;
      if polled.Ended? {
        exitCode := Some(polled.code);
      } else {
        if polled.PollRaised? { processError := Some(PluginError("plugin.status.failed", polled.name)); }
        var stop;
        ghost var stopping;
        stop, stopping := plugin.StopProcess(entry.process);
        made := made + stopping;
        assert made[1..] == stopping;
        exitCode, processError := stop.code, Combine([processError, stop.error]);
      }
      var ended := Disown(op);
      assert made[0].polled == polled;
      var exitError := if polled.Ended? then ExitError(polled.code) else None;
      var error := Combine([exitError, processError, ended]);
      var state := if error.Some? then Failed else if polled.Ended? then Succeeded else Cancelled;
      r := ManagedSession(op, state, exitCode, error, None);
    }

    /** `status`, called by the owner's polling loop; a session that is over leaves the runner. */
    method Status(t: Tid, op: Op, owner: Owner) returns (r: Result<ManagedSession, AppError>, ghost made: seq<P.Call>)
      requires host.Consistent() && t !in host.sys.duties && MayTouch(host.sys, t, owner)
      requires op in host.owned ==> op in Table(host.sys, owner)
      modifies host, plugin
      ensures host.Consistent() && Forward(old(host.sys), host.sys) && Did(old(host.trace), host.trace, t, {op})
      ensures r.Err? <==> op !in old(host.owned)
      ensures r.Err? ==> r.error == NOT_OWNED && made == []
      ensures plugin.calls == old(plugin.calls) + made && host.Keeps(old(host.answers), old(host.clock)) && host.clock == old(host.clock)
      ensures r.Ok? ==> IsPoll(old(host.owned)[op].process, made) && r.value == StatusAnswer(op, made,
        AnswerFor(old(host.owned)[op].session, !r.value.state.Running?), old(host.owned)[op].externalTerminal)
      ensures r.Ok? ==> r.value.op == op && !r.value.state.Cancelled?
      ensures r.Ok? && !r.value.state.Running? ==> old(host.owned)[op].session in host.answers
      ensures r.Ok? && r.value.state.Running? ==> host.sys == old(host.sys) && host.trace == old(host.trace)
      ensures (r.Ok? && r.value.state.Running?) || op !in host.sys.tracked || Released(old(host.sys), host.sys, t, op, owner)
      ensures op !in host.sys.tracked ==> r.Err? && host.sys == old(host.sys)
    {
      hide Inv, IsRun, After, Forward, Enabled, Apply, Released, Did, StatusAnswer, IsPoll, EndError,
        SessionHost.Answered;
      DidNothing(host.trace, t, {op});
      ForwardItself(host.sys);
      if op !in host.owned {
        if op in host.sys.tracked {
          MissingReleases(host.sys, t, op, owner);
          DidOne(host.trace, Event(t, Missing(op, owner)));
          host.Commit(Event(t, Missing(op, owner)));
        }
        return Err(NOT_OWNED), [];
      }
      host.TableIsTracked(op, owner);
      host.OwnedIsLive(op);
      FinishReleases(host.sys, t, op, owner);
      DidOne(host.trace, Event(t, Finish(op, owner)));
      var session;
      session, made := StatusOwned(op);
      if !session.state.Running? {
        host.Commit(Event(t, Finish(op, owner)));
      }
      r := Ok(session);
    }

    /** `stop`: whatever it answers, the runner owns the session no longer. */
    method Stop(t: Tid, op: Op, owner: Owner) returns (r: Result<ManagedSession, AppError>, ghost made: seq<P.Call>)
      requires host.Consistent() && t !in host.sys.duties && MayTouch(host.sys, t, owner)
      requires op in host.owned ==> op in Table(host.sys, owner)
      modifies host, plugin
      ensures host.Consistent() && Forward(old(host.sys), host.sys) && Did(old(host.trace), host.trace, t, {op})
      ensures r.Err? <==> op !in old(host.owned)
      ensures r.Err? ==> r.error == NOT_OWNED && made == []
      ensures plugin.calls == old(plugin.calls) + made && host.Keeps(old(host.answers), old(host.clock)) && host.clock == old(host.clock)
      ensures r.Ok? ==> old(host.owned)[op].session in host.answers && IsManagedStop(old(host.owned)[op].process, made)
      ensures r.Ok? ==> r.value == StopAnswer(op, made, AnswerFor(old(host.owned)[op].session, true))
      ensures r.Ok? ==> r.value.op == op && !r.value.state.Running?
      ensures op in host.sys.tracked ==> Released(old(host.sys), host.sys, t, op, owner)
      ensures op !in host.sys.tracked ==> r.Err? && host.sys == old(host.sys)
    {
      hide Inv, IsRun, After, Forward, Enabled, Apply, Released, Did, StopAnswer, IsManagedStop, EndError,
        SessionHost.Answered;
      DidNothing(host.trace, t, {op});
      ForwardItself(host.sys);
      if op !in host.owned {
        if op in host.sys.tracked {
          MissingReleases(host.sys, t, op, owner);
          DidOne(host.trace, Event(t, Missing(op, owner)));
          host.Commit(Event(t, Missing(op, owner)));
        }
        return Err(NOT_OWNED), [];
      }
      host.TableIsTracked(op, owner);
      host.OwnedIsLive(op);
      FinishReleases(host.sys, t, op, owner);
      DidOne(host.trace, Event(t, Finish(op, owner)));
      var session;
      session, made := StopOwned(op);
      host.Commit(Event(t, Finish(op, owner)));
      r := Ok(session);
    }

    /**
      `start`.  The operation id and the id AWS returns are new; on success the runner owns the session
      and the caller has still to track it, on failure nothing is owned and the session has been ended.
      A failed EndSession shows in the exception raised, or in the note that a failed observer's exception
      gets; `reclaimed` are the calls of stopping the process again in that case.  What is answered follows from
      what the calls of the start come back with (`a`).
     */
    method Start(t: Tid, op: Op, owner: Owner, session: Sid, a: StartAnswers)
      returns (r: Result<ManagedSession, Raised>, note: Option<string>, ghost reclaimed: Option<seq<P.Call>>)
      requires host.Consistent() && t !in host.sys.duties
      requires op !in host.sys.sessions && session !in host.sys.sessions.Values
      modifies host, plugin
      ensures host.Consistent() && (old(host.sys.tunnelLock) == Some(t) <==> host.sys.tunnelLock == Some(t))
      ensures r == a.Answer(op, AnswerFor(session, true)) && (op in host.sys.sessions <==> a.NotStarted().None?)
      ensures reclaimed.Some? <==> a.NotStarted().None? && a.broken.None? && a.observer.Some?
      ensures r.Ok? ==> r.value == ManagedSession(op, Running, None, None, None)
      ensures r.Ok? ==> t in host.sys.duties && host.sys.duties[t] == Registered(op, owner)
      ensures r.Err? ==> t !in host.sys.duties && op !in host.owned && op !in host.sys.tracked
      ensures r.Err? && op in host.sys.sessions ==> host.sys.sessions[op] == session && host.attempts[session] == 1
      ensures r.Err? && op in host.sys.sessions ==> session in host.answers && CleanupShows(op, session, r.error, note, reclaimed)
    {
      hide Inv, IsRun, After, Forward, Undisturbed, Enabled, Apply, Did, AfterFailedStart, CleanupShows, SessionHost.Answered, Kept;
      note, reclaimed := None, None;
      host.UnusedIsNotOwned(op);
      if a.interrupted.Some? { return Err(a.interrupted.value), None, None; }
      var missing := P.NotReady(a.diagnostic);
      if missing.Some? { return Err(Application(missing.value)), None, None; }
      if a.refused.Some? { return Err(a.refused.value), None, None; }
      StartFacts(host.sys, t, op, owner, session);
      host.Commit(Event(t, StartSession(op, owner, session)));
      ghost var s1 := host.sys;
      host.Interfere(t);
      StillOnDuty(s1, host.sys, t);
      host.DutyFacts(t);
      if a.broken.Some? {
        r := GiveUpLaunch(t, a.broken.value);
      } else {
        Register(t, a.process);
        ghost var s2 := host.sys;
        host.DutyFacts(t);
        host.OwnedIsLive(op);
        host.Interfere(t);
        StillOnDuty(s2, host.sys, t);
        SessionStays(s2, host.sys, op);
        r, note, reclaimed := ReportStart(t, a.observer);
      }
    }

    /** `_raise_start_failure` */
    method GiveUpLaunch(t: Tid, broken: Raised) returns (r: Result<ManagedSession, Raised>)
      requires host.Consistent() && t in host.sys.duties && host.sys.duties[t].Launching?
      modifies host
      ensures host.Consistent() && t !in host.sys.duties && host.sys.tunnelLock == old(host.sys.tunnelLock)
      ensures var d := old(host.sys.duties[t]);
        && d.op in host.sys.sessions && host.sys.sessions[d.op] == d.session
        && d.op !in host.owned && d.op !in host.sys.tracked && host.attempts[d.session] == 1 && d.session in host.answers
        && r == Err(AfterFailedStart(broken, AnswerFor(d.session, true))) && CleanupShows(d.op, d.session, r.error, None, None)
    {
      hide Inv, IsRun, After, Forward, AfterFailedStart, SessionErrors.Shows;
      var cleanup := UndoLaunch(t);
      if cleanup.Some? { FailedStartShowsCleanup(broken, cleanup.value); }
      r := Err(AfterFailedStart(broken, cleanup));
    }

    /** The last report; if its observer raises, the session is stopped again. */
    method ReportStart(t: Tid, observer: Option<Raised>)
      returns (r: Result<ManagedSession, Raised>, note: Option<string>, ghost reclaimed: Option<seq<P.Call>>)
      requires host.Consistent() && t in host.sys.duties && host.sys.duties[t].Registered?
      modifies host, plugin
      ensures host.Consistent() && host.sys.tunnelLock == old(host.sys.tunnelLock) && (reclaimed.Some? <==> observer.Some?)
      ensures var d := old(host.sys.duties[t]);
        && d.op in host.sys.sessions && host.sys.sessions[d.op] == old(host.sys.sessions[d.op])
        && r == (if observer.Some? then Err(observer.value) else Ok(ManagedSession(d.op, Running, None, None, None)))
        && (r.Ok? ==> host.sys == old(host.sys))
        && (r.Err? ==>
              && t !in host.sys.duties && d.op !in host.owned && d.op !in host.sys.tracked && host.attempts[host.sys.sessions[d.op]] == 1
              && host.sys.sessions[d.op] in host.answers && CleanupShows(d.op, host.sys.sessions[d.op], r.error, note, reclaimed))
    {
      hide Inv, IsRun, After, Forward, Reclaimed;
      note, reclaimed := None, None;
      host.DutyFacts(t);
      host.OwnedIsLive(host.sys.duties[t].op);
      if observer.Some? {
        ghost var made;
        note, made := Reclaim(t);
        return Err(observer.value), note, Some(made);
      }
      r := Ok(ManagedSession(host.sys.duties[t].op, Running, None, None, None));
    }

    /** How a failed EndSession of a start that failed can be seen. */
    ghost predicate CleanupShows(op: Op, session: Sid, raised: Raised, note: Option<string>, reclaimed: Option<seq<P.Call>>)
      reads this, host, plugin
    {
      if reclaimed.None? then note.None? && (AnswerFor(session, true).Some? ==> SessionErrors.Shows(raised, AnswerFor(session, true).value))
      else Reclaimed(op, session, note, reclaimed.value)
    }

    /** The session of a failing observer was stopped by the last calls; the note names the first failure of that, if any. */
    ghost predicate Reclaimed(op: Op, session: Sid, note: Option<string>, made: seq<P.Call>)
      reads this, host, plugin
    {
      && |made| <= |plugin.calls| && plugin.calls[|plugin.calls| - |made|..] == made
      && made != [] && made[0].Polled? && IsManagedStop(made[0].p, made)
      && note == CleanupNote(StopAnswer(op, made, AnswerFor(session, true)).error)
    }

    /** The launch broke off: EndSession for the session that was started. */
    method UndoLaunch(t: Tid) returns (cleanup: Option<string>)
      requires host.Consistent() && t in host.sys.duties && host.sys.duties[t].Launching?
      modifies host
      ensures host.Consistent() && t !in host.sys.duties && host.sys.tunnelLock == old(host.sys.tunnelLock)
      ensures var d := old(host.sys.duties[t]);
        && d.op in host.sys.sessions && host.sys.sessions[d.op] == d.session
        && d.op !in host.owned && d.op !in host.sys.tracked && host.attempts[d.session] == 1
        && d.session in host.answers && host.answers[d.session] == cleanup
    {
      hide Inv, IsRun, After, Forward;
      var d := host.sys.duties[t];
      host.DutyFacts(t);
      host.OnlyDuty(t);
      cleanup := EndSession(d.session);
      host.Commit(Event(t, LaunchFails));
      host.EndedFacts(d.op);
    }

    method Register(t: Tid, process: nat)
      requires host.Consistent() && t in host.sys.duties && host.sys.duties[t].Launching?
      modifies host
      ensures host.Consistent() && host.sys.tunnelLock == old(host.sys.tunnelLock)
      ensures host.sys.duties == old(host.sys.duties)[t := Registered(old(host.sys.duties[t].op), old(host.sys.duties[t].owner))]
      ensures old(host.sys.duties[t].op) in host.owned
      ensures var d := old(host.sys.duties[t]);
        host.owned[d.op].session == d.session && host.owned[d.op].process == process && host.owned[d.op].externalTerminal == d.owner.Ec2?
    {
      hide Inv, IsRun, After, Forward;
      var duty := host.sys.duties[t];
      host.owned := host.owned[duty.op := OwnedSession(duty.session, process, false, duty.owner.Ec2?)];
      host.Commit(Event(t, Own(process)));
    }

    /** An observer failed after the launch: stop the process, end the session, own nothing. */
    method Reclaim(t: Tid) returns (note: Option<string>, ghost made: seq<P.Call>)
      requires host.Consistent() && t in host.sys.duties && host.sys.duties[t].Registered?
      requires host.sys.duties[t].op in host.owned
      modifies host, plugin
      ensures host.Consistent() && t !in host.sys.duties && host.sys.tunnelLock == old(host.sys.tunnelLock)
      ensures var op := old(host.sys.duties[t].op);
        op in host.sys.sessions && op !in host.owned && op !in host.sys.tracked && host.attempts[host.sys.sessions[op]] == 1
      ensures var op := old(host.sys.duties[t].op);
        host.sys.sessions[op] == old(host.owned[op].session) && host.sys.sessions[op] in host.answers
        && Reclaimed(op, host.sys.sessions[op], note, made)
    {
      hide Inv, IsRun, After, Forward;
      var op := host.sys.duties[t].op;
      host.DutyFacts(t);
      host.OnlyDuty(t);
      host.OwnedIsLive(op);
      var answer;
      answer, made := StopOwned(op);
      host.Commit(Event(t, ObserverFails));
      host.EndedFacts(op);
      note := CleanupNote(answer.error);
    }
  }
}
