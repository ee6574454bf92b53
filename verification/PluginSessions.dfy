/**
  The plugin process and the foreground runner of `ssm_session.py`.  Calls into the operating system and
  AWS decide their own outcome; `calls` and `answers` record every outcome, and the contracts say what the
  code makes of that record.
 */
module PluginSessions {
  import opened Wrappers
  import opened Texts
  import opened SessionErrors

  type Sid = nat

  datatype WaitOutcome = ExitedWith(code: int) | TimedOut | WaitRaised(name: string)

  datatype PollOutcome = StillRunning | Ended(code: int) | PollRaised(name: string)

  /** One call that left this code, and how it came back. */
  datatype Call =
    | Launched(p: nat)
    | LaunchRaised(raised: Raised)
    | Ran(code: int)                            // the blocking run of an unbounded session
    | RunRaised(raised: Raised)
    | Polled(p: nat, polled: PollOutcome)
    | Signalled(p: nat, failure: Option<string>)   // terminate or kill
    | Waited(p: nat, waited: WaitOutcome)
    | Broke(raised: Raised)                     // cancellation, an observer or an interrupt

  // ---- what _stop_process makes of its calls -----------------------------------------------------

  datatype Stop = Stop(code: Option<int>, error: Option<AppError>)

  predicate Exited(c: Call) {
    c.Waited? && c.waited.ExitedWith?
  }

  /** Terminate and wait, or terminate, wait in vain, kill and wait. */
  predicate IsCleanStop(calls: seq<Call>) {
    || (|calls| == 2 && calls[0].Signalled? && calls[0].failure.None? && Exited(calls[1]))
    || (|calls| == 4 && calls[0].Signalled? && calls[0].failure.None? && calls[1].Waited? && calls[1].waited.TimedOut?
        && calls[2].Signalled? && calls[2].failure.None? && Exited(calls[3]))
  }

  /** What a call that failed is called in the error text. */
  function Failure(c: Call): Option<string> {
    match c
    case Signalled(_, failure) => failure
    case Waited(_, waited) =>
      (match waited
       case ExitedWith(_) => None
       case TimedOut => Some("TimeoutError")
       case WaitRaised(name) => Some(name))
    case _ => None
  }

  function RecoveryNote(c: Call): Option<string> {
    if Failure(c).None? then None
    else Some((if c.Signalled? then "kill failed (" else "wait failed (") + Failure(c).value + ")")
  }

  function WithNote(detail: string, note: Option<string>): string {
    if note.Some? then detail + ("; " + note.value) else detail
  }

  /** After the call that broke the ordinary sequence, one more kill and one more wait. */
  function StopVerdict(calls: seq<Call>): Stop {
    if IsCleanStop(calls) then Stop(Some(calls[|calls| - 1].waited.code), None)
    else if |calls| < 3 || Failure(calls[|calls| - 3]).None? then Stop(None, None)
    else
      var kill, wait := calls[|calls| - 2], calls[|calls| - 1];
      Stop(if Exited(wait) then Some(wait.waited.code) else None,
           Some(PluginError("plugin.stop.failed",
             WithNote(WithNote(Failure(calls[|calls| - 3]).value, RecoveryNote(kill)), RecoveryNote(wait)))))
  }

  /** These are the calls of one stop of process p. */
  predicate IsStop(p: nat, calls: seq<Call>) {
    && |calls| >= 2 && calls[0].Signalled? && calls[|calls| - 1].Waited? && calls[|calls| - 2].Signalled?
    && (forall c | c in calls :: (c.Signalled? || c.Waited?) && c.p == p)
    && (IsCleanStop(calls) || (|calls| >= 3 && Failure(calls[|calls| - 3]).Some?))
  }

  lemma NoteNamesFailure(c: Call)
    requires Failure(c).Some?
    ensures RecoveryNote(c).Some? && Contains(RecoveryNote(c).value, Failure(c).value)
  {
    var before := if c.Signalled? then "kill failed (" else "wait failed (";
    ContainsItself(Failure(c).value);
    ContainsAround(before, Failure(c).value, ")", Failure(c).value);
  }

  /** These are exactly the calls that come back otherwise than hoped for. */
  lemma FailureIff(c: Call)
    requires c.Signalled? || c.Waited?
    ensures Failure(c).None? <==> if c.Signalled? then c.failure.None? else c.waited.ExitedWith?
    ensures c.Signalled? && c.failure.Some? ==> Failure(c) == c.failure
    ensures c.Waited? && c.waited.WaitRaised? ==> Failure(c) == Some(c.waited.name)
  {
  }

  lemma NoteIsContained(detail: string, note: Option<string>)
    ensures Contains(WithNote(detail, note), detail)
    ensures note.Some? ==> Contains(WithNote(detail, note), note.value)
    ensures detail <= WithNote(detail, note)
  {
    ContainsItself(detail);
    if note.Some? {
      ContainsAround("", detail, "; " + note.value, detail);
      assert "" + detail + ("; " + note.value) == WithNote(detail, note);
      ContainsItself(note.value);
      ContainsAround(detail + "; ", note.value, "", note.value);
      assert detail + "; " + note.value + "" == WithNote(detail, note);
    }
  }

  /**
    There is no error exactly if the exit was seen and no call failed, but that the first wait may have run out
    of time; with one, the call that broke the stop off is named first, and every recovery call that failed is
    named too.  An exit code is there exactly if the last wait saw it.
   */
  lemma StopVerdictIsHonest(p: nat, calls: seq<Call>)
    requires IsStop(p, calls)
    ensures var v := StopVerdict(calls);
      && (v.error.None? <==> IsCleanStop(calls))
      && (v.error.None? <==> forall i | 0 <= i < |calls| ::
            Failure(calls[i]).None? || (i == 1 && calls[1].Waited? && calls[1].waited.TimedOut? && |calls| == 4))
      && (v.error.Some? ==> v.error.value.code == "plugin.stop.failed" && !v.error.value.retryable)
      && (v.code.Some? <==> Exited(calls[|calls| - 1])) && (v.code.Some? ==> v.code.value == calls[|calls| - 1].waited.code)
      && (v.error.None? ==> v.code.Some?)
      && (v.error.Some? ==> Failure(calls[|calls| - 3]).value <= v.error.value.cause)
      && (v.error.Some? ==> forall c | c in calls[|calls| - 2..] && Failure(c).Some? :: Contains(v.error.value.cause, Failure(c).value))
  {
    if !IsCleanStop(calls) {
      var n := |calls|;
      var first := Failure(calls[n - 3]).value;
      var middle := WithNote(first, RecoveryNote(calls[n - 2]));
      NoteIsContained(first, RecoveryNote(calls[n - 2]));
      NoteIsContained(middle, RecoveryNote(calls[n - 1]));
      if RecoveryNote(calls[n - 2]).Some? {
        ContainsTrans(WithNote(middle, RecoveryNote(calls[n - 1])), middle, RecoveryNote(calls[n - 2]).value);
      }
      forall c | c in calls[n - 2..] && Failure(c).Some? ensures Contains(StopVerdict(calls).error.value.cause, Failure(c).value) {
        NoteNamesFailure(c);
        ContainsTrans(WithNote(middle, RecoveryNote(calls[n - 1])), RecoveryNote(c).value, Failure(c).value);
      }
    }
  }

  /** The processes of this machine: `exits` holds the exit code of each one that has ended. */
  class PluginHost {
    var exits: map<nat, int>
    ghost var calls: seq<Call>

    constructor ()
      ensures exits == map[] && calls == []
    {
      exits, calls := map[], [];
    }

    /** Processes that have ended stay ended, with the same exit code; the record goes on by these calls. */
    twostate predicate Added(more: seq<Call>)
      reads this
    {
      calls == old(calls) + more && forall p | p in old(exits) :: p in exits && exits[p] == old(exits)[p]
    }

    method TimePasses(p: nat)
      modifies this
      ensures Added([])
    {
      var ended: bool := *;
      var code: int := *;
      if ended && p !in exits { exits := exits[p := code]; }
    }

    method Record(c: Call)
      modifies this`calls
      ensures Added([c])
    {
      calls := calls + [c];
    }

    method Poll(p: nat) returns (r: PollOutcome)
      modifies this
      ensures Added([Polled(p, r)]) && (r.Ended? ==> p in exits && exits[p] == r.code)
    {
      TimePasses(p);
      var raises: bool := *;
      r := if raises then PollRaised("OSError") else if p in exits then Ended(exits[p]) else StillRunning;
      Record(Polled(p, r));
    }

    method Wait(p: nat) returns (r: WaitOutcome)
      modifies this
      ensures Added([Waited(p, r)]) && (r.ExitedWith? ==> p in exits && exits[p] == r.code)
    {
      TimePasses(p);
      var raises: bool := *;
      r := if raises then WaitRaised("OSError") else if p in exits then ExitedWith(exits[p]) else TimedOut;
      Record(Waited(p, r));
    }

    /** `terminate` and `kill`: a request that may fail and may or may not be honoured. */
    method Signal(p: nat) returns (failure: Option<string>)
      modifies this
      ensures Added([Signalled(p, failure)])
    {
      TimePasses(p);
      var raises: bool := *;
      failure := if raises then Some("PermissionError") else None;
      Record(Signalled(p, failure));
    }

    method Launch() returns (r: Result<nat, Raised>)
      modifies this
      ensures Added([if r.Ok? then Launched(r.value) else LaunchRaised(r.error)])
    {
      var p: nat := *;
      var failure: Option<Raised> := *;
      r := if failure.Some? then Err(failure.value) else Ok(p);
      Record(if failure.Some? then LaunchRaised(failure.value) else Launched(p));
    }

    /** `plugin.run`: the process runs to its end in this call. */
    method RunToEnd() returns (r: Result<int, Raised>)
      modifies this
      ensures Added([if r.Ok? then Ran(r.value) else RunRaised(r.error)])
    {
      var code: int := *;
      var failure: Option<Raised> := *;
      r := if failure.Some? then Err(failure.value) else Ok(code);
      Record(if failure.Some? then RunRaised(failure.value) else Ran(code));
    }

    /** A cancellation check, an observer or an interrupt may break the code off here. */
    method MayBreak() returns (raised: Option<Raised>)
      modifies this
      ensures Added(if raised.Some? then [Broke(raised.value)] else [])
    {
      raised := *;
      if raised.Some? { Record(Broke(raised.value)); }
    }

    /** `_stop_process`: terminate, then kill, then one more kill and wait if anything raised. */
    method StopProcess(p: nat) returns (stop: Stop, ghost made: seq<Call>)
      modifies this
      ensures Added(made) && IsStop(p, made) && stop == StopVerdict(made)
      ensures stop.code.Some? ==> p in exits && exits[p] == stop.code.value
    {
      var primary, code;
      primary, code, made := StopInOrder(p);
      if primary.None? { return Stop(code, None), made; }
      var killed := Signal(p);
      var waited := Wait(p);
      made := made + [Signalled(p, killed), Waited(p, waited)];
      var detail := WithNote(WithNote(primary.value, RecoveryNote(Signalled(p, killed))), RecoveryNote(Waited(p, waited)));
      stop := Stop(if waited.ExitedWith? then Some(waited.code) else None, Some(PluginError("plugin.stop.failed", detail)));
    }

    /** The ordinary sequence; `primary` names the exception that broke it off, if any. */
    method StopInOrder(p: nat) returns (primary: Option<string>, code: Option<int>, ghost made: seq<Call>)
      modifies this
      ensures Added(made) && |made| >= 1 && made[0].Signalled? && forall c | c in made :: (c.Signalled? || c.Waited?) && c.p == p
      ensures primary.None? ==> IsCleanStop(made) && code == Some(made[|made| - 1].waited.code)
      ensures primary.None? ==> p in exits && exits[p] == made[|made| - 1].waited.code
      ensures primary.Some? ==> primary == Failure(made[|made| - 1]) && code.None?
      ensures forall k, w :: primary.Some? ==> !IsCleanStop(made + [Signalled(p, k), Waited(p, w)])
    {
      code := None;
      var failure := Signal(p);
      made := [Signalled(p, failure)];
      if failure.Some? { return failure, None, made; }
      var waited := Wait(p);
      made := made + [Waited(p, waited)];
      if waited.TimedOut? {
        failure := Signal(p);
        made := made + [Signalled(p, failure)];
        if failure.Some? { return failure, None, made; }
        waited := Wait(p);
        made := made + [Waited(p, waited)];
      }
      primary := Failure(Waited(p, waited));
      if waited.ExitedWith? { code := Some(waited.code); }
    }
  }

  /** AWS, as far as sessions are concerned; `answers` is what EndSession answered for each session. */
  class SessionGateway {
    ghost var started: set<Sid>
    ghost var attempts: multiset<Sid>
    ghost var answers: map<Sid, Option<string>>
    ghost var refused: seq<Raised>   // what StartSession raised
    var next: Sid

    constructor ()
      ensures Valid() && started == {} && attempts == multiset{} && answers == map[] && refused == []
    {
      started, attempts, answers, refused, next := {}, multiset{}, map[], [], 0;
    }

    ghost predicate Valid()
      reads this
    {
      (forall s | s in started :: s < next) && (forall s | s in attempts :: s in started)
    }

    method StartSession() returns (r: Result<Sid, Raised>)
      requires Valid()
      modifies this
      ensures Valid() && attempts == old(attempts) && answers == old(answers)
      ensures r.Ok? ==> r.value !in old(started) && started == old(started) + {r.value}
      ensures r.Err? ==> started == old(started)
      ensures refused == old(refused) + if r.Err? then [r.error] else []
    {
      var failure: Option<Raised> := *;
      if failure.Some? {
        refused := refused + [failure.value];
        return Err(failure.value);
      }
      r := Ok(next);
      started, next := started + {next}, next + 1;
    }

    method EndSession(s: Sid) returns (failure: Option<string>)
      requires Valid() && s in started
      modifies this
      ensures Valid() && started == old(started) && attempts == old(attempts) + multiset{s} && refused == old(refused)
      ensures answers == old(answers)[s := failure]
    {
      var accepted: bool := *;
      failure := if accepted then None else Some("ClientError");
      attempts, answers := attempts + multiset{s}, answers[s := failure];
    }
  }

  /** What is known of the installed plugin. */
  datatype Diagnostic = Diagnostic(found: bool, environmentReady: bool, supported: bool)

  /** `_ensure_plugin_ready` */
  function NotReady(d: Diagnostic): (error: Option<AppError>)
    ensures error.None? <==> d.found && d.environmentReady && d.supported
  {
    if !d.found then Some(PluginError("plugin.not_found", "Session Manager Plugin is missing"))
    else if !d.environmentReady then
      Some(PluginError("plugin.environment.invalid", "Plugin execution environment is not supported"))
    else if !d.supported then Some(PluginError("plugin.version.unsupported", "Session Manager Plugin version is too old"))
    else None
  }

  datatype RunResult = RunResult(session: Sid, exitCode: int, maxDuration: bool)

  const NONZERO := PluginError("plugin.exit.nonzero", "Session Manager Plugin exited")

  /** The wait was broken off: what is raised once the process has been stopped, or could not be. */
  function AfterBreak(primary: Raised, stop: Stop): Raised {
    if stop.error.None? then primary
    else match primary
      case Application(error) => Application(WithCleanupFailure(error, "PluginExecutionError"))
      case Interrupt(_) => CancelCleanupFailed(stop.error.value.cause)
      case Cancellation => CancelCleanupFailed(stop.error.value.cause)
      case Unexpected(name, _) => Application(PluginError("plugin.wait.failed", name + "; " + stop.error.value.cause))
      case Fatal(name, _) => Application(PluginError("plugin.wait.failed", name + "; " + stop.error.value.cause))
  }

  /** A failed stop shows in what is raised, except that an application error only gains the mention of some cleanup. */
  lemma AfterBreakShowsStop(primary: Raised, stop: Stop)
    requires stop.error.Some?
    ensures !primary.Application? ==> Shows(AfterBreak(primary, stop), stop.error.value.cause)
    ensures primary.Application? ==> Shows(AfterBreak(primary, stop), "PluginExecutionError")
  {
    var cause := stop.error.value.cause;
    ContainsItself(cause);
    match primary
    case Application(error) => CleanupFailureIsReported(error, "PluginExecutionError");
    case Unexpected(name, _) =>
      ContainsAround(name + "; ", cause, "", cause);
      assert name + "; " + cause + "" == name + "; " + cause;
    case Fatal(name, _) =>
      ContainsAround(name + "; ", cause, "", cause);
      assert name + "; " + cause + "" == name + "; " + cause;
    case _ =>
  }

  /** With a stop that worked the wait raises what broke it off; otherwise an error that keeps the application error or names its kind. */
  lemma BreakKeepsThePrimary(primary: Raised, stop: Stop)
    ensures var r := AfterBreak(primary, stop);
      && (stop.error.None? ==> r == primary)
      && (primary.Application? ==> Carries(r, primary.error))
      && (stop.error.Some? && (primary.Interrupt? || primary.Cancellation?) ==>
            r.Application? && r.error.code == "session.cancel.cleanup_failed")
      && (stop.error.Some? && (primary.Unexpected? || primary.Fatal?) ==>
            r.Application? && r.error.code == "plugin.wait.failed" && primary.name <= r.error.cause)
  {
  }

  /** What a bounded run answers, from its calls after the launch: an exit code, and whether time was up. */
  function BoundedAnswer(calls: seq<Call>): Result<(int, bool), Raised> {
    if calls == [] then Err(Cancellation)
    else match calls[0]
      case Waited(_, ExitedWith(code)) => Ok((code, false))
      case Waited(_, TimedOut) =>
        var stop := StopVerdict(calls[1..]);
        if stop.error.Some? then Err(Application(stop.error.value)) else Ok((0, true))
      case Waited(_, WaitRaised(name)) => Err(AfterBreak(Unexpected(name, "wait"), StopVerdict(calls[1..])))
      case Broke(raised) => Err(AfterBreak(raised, StopVerdict(calls[1..])))
      case _ => Err(Cancellation)
  }

  /** What the guarded part of a run comes to, from its calls: whether the time limit ended it. */
  function Attended(calls: seq<Call>): Result<bool, Raised> {
    if calls == [] then Err(Cancellation)
    else match calls[0]
      case Broke(raised) => Err(raised)
      case LaunchRaised(raised) => Err(raised)
      case RunRaised(raised) => Err(raised)
      case Ran(code) => if code != 0 then Err(Application(NONZERO)) else Ok(false)
      case Launched(_) =>
        var finished := BoundedAnswer(calls[1..]);
        if finished.Err? then Err(finished.error)
        else if finished.value.0 != 0 then Err(Application(NONZERO)) else Ok(finished.value.1)
      case _ => Err(Cancellation)
  }

  /** The calls of one guarded part: at most one process, and only that one waited for and stopped. */
  predicate IsAttendance(bounded: bool, calls: seq<Call>) {
    && |calls| >= 1
    && (|calls| == 1 ==> calls[0].Broke? || (bounded && calls[0].LaunchRaised?) || (!bounded && (calls[0].Ran? || calls[0].RunRaised?)))
    && (|calls| > 1 ==> bounded && calls[0].Launched? && IsBounded(calls[0].p, calls[1..]))
  }

  predicate IsBounded(p: nat, calls: seq<Call>) {
    && |calls| >= 1 && (calls[0].Broke? || (calls[0].Waited? && calls[0].p == p))
    && (Exited(calls[0]) ==> |calls| == 1) && (!Exited(calls[0]) ==> IsStop(p, calls[1..]))
  }

  /** The run was seen through: exit code 0 of the one process, or, once time was up, a stop that saw its exit. */
  predicate SeenThrough(calls: seq<Call>) {
    || calls == [Ran(0)]
    || (|calls| == 2 && calls[0].Launched? && calls[1] == Waited(calls[0].p, ExitedWith(0)))
    || (|calls| > 2 && calls[0].Launched? && calls[1] == Waited(calls[0].p, TimedOut) && IsCleanStop(calls[2..]))
  }

  /** What the call that ended the run raised, if it raised anything. */
  function RaisedBy(c: Call): Option<Raised> {
    match c
    case Broke(raised) => Some(raised)
    case LaunchRaised(raised) => Some(raised)
    case RunRaised(raised) => Some(raised)
    case Waited(_, WaitRaised(name)) => Some(Unexpected(name, "wait"))
    case _ => None
  }

  /** Another exit code than 0 was seen. */
  predicate SawNonzero(c: Call) {
    (c.Ran? && c.code != 0) || (Exited(c) && c.waited.code != 0)
  }

  /**
    A run ends well exactly if it was seen through, and says whether the time limit ended it.  Otherwise what
    broke it off is raised, with the stop that followed; or that the exit code was not 0; or that the stop
    after the time limit failed.
   */
  lemma AttendedIsHonest(bounded: bool, calls: seq<Call>)
    requires IsAttendance(bounded, calls)
    ensures Attended(calls).Ok? <==> SeenThrough(calls)
    ensures Attended(calls).Ok? ==> (Attended(calls).value <==> |calls| > 2) && (Attended(calls).value ==> bounded)
    ensures Attended(calls).Ok? && Attended(calls).value ==> Exited(calls[|calls| - 1]) && calls[|calls| - 1].p == calls[0].p
    ensures SawNonzero(calls[0]) || (|calls| == 2 && SawNonzero(calls[1])) ==> Attended(calls) == Err(Application(NONZERO))
    ensures RaisedBy(calls[0]).Some? ==> Attended(calls) == Err(RaisedBy(calls[0]).value)
    ensures |calls| > 1 && RaisedBy(calls[1]).Some? ==> Attended(calls) == Err(AfterBreak(RaisedBy(calls[1]).value, StopVerdict(calls[2..])))
    ensures |calls| > 1 && calls[1] == Waited(calls[0].p, TimedOut) && !IsCleanStop(calls[2..]) ==>
      StopVerdict(calls[2..]).error.Some? && Attended(calls) == Err(Application(StopVerdict(calls[2..]).error.value))
  {
    hide StopVerdict, IsCleanStop, AfterBreak;
    if |calls| > 1 {
      assert calls[1..][0] == calls[1] && calls[1..][1..] == calls[2..];
      if !Exited(calls[1]) {
        StopVerdictIsHonest(calls[0].p, calls[2..]);
        assert calls[2..][|calls| - 3] == calls[|calls| - 1];
        assert calls[2..][|calls| - 3] in calls[2..];
      }
    }
  }

  class ForegroundSsmSessionRunner {
    const sessions: SessionGateway
    const host: PluginHost

    constructor (sessions: SessionGateway, host: PluginHost)
      ensures this.sessions == sessions && this.host == host
    {
      this.sessions, this.host := sessions, host;
    }

    /** What a run answers, from the calls of its guarded part, the answer of EndSession and the last report. */
    function RunAnswer(session: Sid, calls: seq<Call>, ended: Option<string>, reported: Option<Raised>): Result<RunResult, Raised> {
      match Attended(calls)
      case Err(primary) => Err(AfterEnd(primary, ended))
      case Ok(maxDuration) =>
        if ended.Some? then Err(Application(PluginError("session.end.failed", ended.value)))
        else if reported.Some? then Err(reported.value)
        else Ok(RunResult(session, 0, maxDuration))
    }

    /**
      Whatever happens in between, a run starts at most one AWS session and attempts EndSession for it
      exactly once; what it answers follows from what its calls answered.  It starts one unless it is broken off
      before, the plugin is not ready, or StartSession raises.
     */
    method Run(bounded: bool, diagnostic: Diagnostic)
      returns (r: Result<RunResult, Raised>, ghost session: Option<Sid>, ghost made: seq<Call>, ghost reported: Option<Raised>)
      requires sessions.Valid()
      modifies sessions, host
      ensures sessions.Valid()
      ensures session.None? ==> r.Err? && sessions.started == old(sessions.started) && sessions.attempts == old(sessions.attempts)
      ensures session.None? ==>
        || (host.calls == old(host.calls) + [Broke(r.error)] && sessions.refused == old(sessions.refused))
        || (host.calls == old(host.calls) && sessions.refused == old(sessions.refused) && r.error.Application? && NotReady(diagnostic) == Some(r.error.error))
        || (host.calls == old(host.calls) && sessions.refused == old(sessions.refused) + [r.error])
      ensures session.Some? ==> NotReady(diagnostic).None? && sessions.refused == old(sessions.refused)
      ensures session.Some? ==> session.value !in old(sessions.started) && sessions.started == old(sessions.started) + {session.value}
      ensures session.Some? ==> sessions.attempts == old(sessions.attempts) + multiset{session.value} && session.value in sessions.answers
      ensures session.Some? ==> IsAttendance(bounded, made) && r == RunAnswer(session.value, made, sessions.answers[session.value], reported)
      ensures session.Some? ==> host.calls == old(host.calls) + made + (if reported.Some? then [Broke(reported.value)] else [])
    {
      session, made, reported := None, [], None;
      var ready := BeforeStart(diagnostic);
      if ready.Some? { return Err(ready.value), session, made, reported; }
      var started := sessions.StartSession();
      if started.Err? { return Err(started.error), session, made, reported; }
      session := Some(started.value);
      var finished;
      finished, made := Attend(bounded);
      var failure := sessions.EndSession(started.value);
      match finished {
        case Err(primary) =>
          r := Err(AfterEnd(primary, failure));
        case Ok(maxDuration) =>
          if failure.Some? {
            r := Err(Application(PluginError("session.end.failed", failure.value)));
          } else {
            var observer := host.MayBreak();
            reported := observer;
            r := if observer.Some? then Err(observer.value) else Ok(RunResult(started.value, 0, maxDuration));
          }
      }
    }

    /**
      A run succeeds exactly if it was seen through, EndSession succeeded and the last report did not raise; each
      other ending raises its own failure, and a failed EndSession shows unless that is fatal.
     */
    lemma RunIsHonest(bounded: bool, session: Sid, calls: seq<Call>, ended: Option<string>, reported: Option<Raised>)
      requires IsAttendance(bounded, calls)
      ensures var r := RunAnswer(session, calls, ended, reported);
        && (r.Ok? <==> SeenThrough(calls) && ended.None? && reported.None?)
        && (r.Ok? ==> r.value == RunResult(session, 0, |calls| > 2) && (r.value.maxDuration ==> bounded))
        && (SeenThrough(calls) && ended.Some? ==> r == Err(Application(AppError("session.end.failed", ended.value, false))))
        && (SeenThrough(calls) && ended.None? && reported.Some? ==> r == Err(reported.value))
        && (!SeenThrough(calls) ==> Attended(calls).Err? && r == Err(AfterEnd(Attended(calls).error, ended)))
        && (ended.Some? ==> r.Err? && (Shows(r.error, ended.value) || (Attended(calls).Err? && Attended(calls).error.Fatal?)))
    {
      hide SeenThrough, Attended, AfterEnd;
      AttendedIsHonest(bounded, calls);
      if Attended(calls).Ok? {
        if ended.Some? { ContainsItself(ended.value); }
      } else if ended.Some? {
        ForegroundShowsCleanupUnlessFatal(Attended(calls).error, ended.value);
      }
    }

    /** Cancellation, an observer and plugin checks, before anything is started. */
    method BeforeStart(diagnostic: Diagnostic) returns (failure: Option<Raised>)
      modifies host
      ensures failure.None? ==> host.calls == old(host.calls) && NotReady(diagnostic).None?
      ensures failure.Some? ==>
        || host.calls == old(host.calls) + [Broke(failure.value)]
        || (host.calls == old(host.calls) && failure.value.Application? && NotReady(diagnostic) == Some(failure.value.error))
    {
      failure := host.MayBreak();
      if failure.Some? { return; }
      var missing := NotReady(diagnostic);
      if missing.Some? { return Some(Application(missing.value)); }
      failure := host.MayBreak();
    }

    /** Run the plugin to its end; the value says whether the time limit ended it. */
    method Attend(bounded: bool) returns (r: Result<bool, Raised>, ghost made: seq<Call>)
      modifies host
      ensures host.calls == old(host.calls) + made && IsAttendance(bounded, made) && r == Attended(made)
    {
      hide BoundedAnswer, IsStop;
      var interrupted := host.MayBreak();
      if interrupted.Some? { return Err(interrupted.value), [Broke(interrupted.value)]; }
      var code: int;
      var maxDuration := false;
      if bounded {
        var launched := host.Launch();
        if launched.Err? { return Err(launched.error), [LaunchRaised(launched.error)]; }
        var finished;
        ghost var rest;
        finished, rest := RunBounded(launched.value);
        made := [Launched(launched.value)] + rest;
        assert made[1..] == rest;
        if finished.Err? { return Err(finished.error), made; }
        code, maxDuration := finished.value.0, finished.value.1;
      } else {
        var ran := host.RunToEnd();
        made := [if ran.Ok? then Ran(ran.value) else RunRaised(ran.error)];
        if ran.Err? { return Err(ran.error), made; }
        code := ran.value;
      }
      r := if code != 0 then Err(Application(NONZERO)) else Ok(maxDuration);
    }

    /**
      `_run_bounded` after the launch.  Reaching the time limit counts as a clean end only if the process was
      then seen to exit; a stop that failed is reported as the error, or added to the one being raised.
     */
    method RunBounded(p: nat) returns (r: Result<(int, bool), Raised>, ghost made: seq<Call>)
      modifies host
      ensures host.calls == old(host.calls) + made && IsBounded(p, made) && r == BoundedAnswer(made)
      ensures r.Ok? ==> p in host.exits && (!r.value.1 ==> r.value.0 == host.exits[p])
    {
      hide StopVerdict, IsStop;
      ghost var stopping;
      var interrupted := host.MayBreak();
      if interrupted.Some? {
        r, stopping := StopAfter(p, interrupted.value);
        made := [Broke(interrupted.value)] + stopping;
        assert made[1..] == stopping;
        return;
      }
      var waited := host.Wait(p);
      match waited {
        case ExitedWith(code) =>
          r, made := Ok((code, false)), [Waited(p, waited)];
        case TimedOut =>
          var stop;
          stop, stopping := host.StopProcess(p);
          StopVerdictIsHonest(p, stopping);
          made := [Waited(p, waited)] + stopping;
          assert made[1..] == stopping;
          r := if stop.error.Some? then Err(Application(stop.error.value)) else Ok((0, true));
        case WaitRaised(name) =>
          r, stopping := StopAfter(p, Unexpected(name, "wait"));
          made := [Waited(p, waited)] + stopping;
          assert made[1..] == stopping;
      }
    }

    /** The wait was broken off by `primary`: stop the process and raise. */
    method StopAfter(p: nat, primary: Raised) returns (r: Result<(int, bool), Raised>, ghost made: seq<Call>)
      modifies host
      ensures host.calls == old(host.calls) + made && IsStop(p, made) && r == Err(AfterBreak(primary, StopVerdict(made)))
    {
      var stop;
      stop, made := host.StopProcess(p);
      r := Err(AfterBreak(primary, stop));
    }
  }
}
