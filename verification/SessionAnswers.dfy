/**
  What the managed runner answers to a poll and to a stop, as a function of what its calls came back with.
  The runner itself is proved against these functions; here is what they promise.
 */
module SessionAnswers {
  import opened Wrappers
  import opened Texts
  import opened SessionErrors
  import opened PluginSessions

  datatype OperationState = Running | Succeeded | Failed | Cancelled

  datatype ManagedSession = ManagedSession(
    op: nat, state: OperationState, exitCode: Option<int>, error: Option<AppError>, warning: Option<AppError>)

  /** What a failed EndSession becomes; `failure` names the exception. */
  function EndError(failure: Option<string>): (error: Option<AppError>)
    ensures error.Some? <==> failure.Some?
  {
    if failure.Some? then Some(PluginError("session.end.failed", failure.value)) else None
  }

  function ExitError(code: int): Option<AppError> {
    if code == 0 then None else Some(NONZERO)
  }

  function PollError(polled: PollOutcome): Option<AppError> {
    if polled.PollRaised? then Some(PluginError("plugin.status.failed", polled.name)) else None
  }

  /** The calls of one poll of process p: the poll, and a stop only if the poll raised. */
  predicate IsPoll(p: nat, calls: seq<Call>) {
    && |calls| >= 1 && calls[0].Polled? && calls[0].p == p
    && if calls[0].polled.PollRaised? then IsStop(p, calls[1..]) else |calls| == 1
  }

  /** The calls of stopping process p: a poll, and a stop unless the process had ended. */
  predicate IsManagedStop(p: nat, calls: seq<Call>) {
    && |calls| >= 1 && calls[0].Polled? && calls[0].p == p
    && if calls[0].polled.Ended? then |calls| == 1 else IsStop(p, calls[1..])
  }

  /** `status` of an owned operation; `ended` is the answer of EndSession, which is asked unless the process runs on. */
  function StatusAnswer(op: nat, calls: seq<Call>, ended: Option<string>, externalTerminal: bool): (a: ManagedSession)
    requires |calls| >= 1 && calls[0].Polled?
    ensures a.op == op && !a.state.Cancelled? && (a.state.Running? ==> a.error.None?)
  {
    match calls[0].polled
    case StillRunning => ManagedSession(op, Running, None, None, None)
    case PollRaised(_) =>
      ManagedSession(op, Failed, None, Combine([PollError(calls[0].polled), StopVerdict(calls[1..]).error, EndError(ended)]), None)
    case Ended(code) =>
      if code == 0 && externalTerminal then ManagedSession(op, Succeeded, Some(code), None, EndError(ended))
      else ManagedSession(op, if code != 0 || ended.Some? then Failed else Succeeded, Some(code),
                          Combine([ExitError(code), EndError(ended)]), None)
  }

  /** `stop` of an owned operation. */
  function StopAnswer(op: nat, calls: seq<Call>, ended: Option<string>): (a: ManagedSession)
    requires |calls| >= 1 && calls[0].Polled?
    ensures a.op == op && !a.state.Running?
  {
    var polled := calls[0].polled;
    if polled.Ended? then
      var error := Combine([ExitError(polled.code), None, EndError(ended)]);
      ManagedSession(op, if error.Some? then Failed else Succeeded, Some(polled.code), error, None)
    else
      var stop := StopVerdict(calls[1..]);
      var error := Combine([None, Combine([PollError(polled), stop.error]), EndError(ended)]);
      ManagedSession(op, if error.Some? then Failed else Cancelled, stop.code, error, None)
  }

  /** A failure, if there is one, is reported. */
  ghost predicate Reported(error: Option<AppError>, failure: Option<AppError>) {
    failure.Some? ==> error.Some? && Reports(error.value, failure.value)
  }

  /**
    SUCCEEDED exactly with exit code 0 seen, and EndSession successful or its failure carried as the warning of
    an external terminal; FAILED with every failure reported, the earliest as primary; never CANCELLED.  An exit
    code that was seen is always shown.
   */
  lemma StatusAnswerIsHonest(op: nat, p: nat, calls: seq<Call>, ended: Option<string>, externalTerminal: bool)
    requires IsPoll(p, calls)
    ensures var a := StatusAnswer(op, calls, ended, externalTerminal);
      && a.op == op && !a.state.Cancelled? && (a.state.Running? <==> calls[0].polled.StillRunning?)
      && (a.state.Succeeded? <==> calls[0].polled == Ended(0) && (ended.None? || externalTerminal))
      && (a.state.Succeeded? ==> calls == [Polled(p, Ended(0))] && a.error.None?)
      && a.warning == (if a.state.Succeeded? && ended.Some? then Some(AppError("session.end.failed", ended.value, false)) else None)
      && a.exitCode == (if calls[0].polled.Ended? then Some(calls[0].polled.code) else None)
      && (a.state.Failed? <==> a.error.Some?)
      && (a.state.Failed? ==> Reported(a.error, PollError(calls[0].polled)) && Reported(a.error, EndError(ended)))
      && (a.state.Failed? && calls[0].polled.PollRaised? ==>
            a.error.value.code == "plugin.status.failed" && Reported(a.error, StopVerdict(calls[1..]).error))
      && (a.state.Failed? && calls[0].polled.Ended? ==> Reported(a.error, ExitError(calls[0].polled.code)))
      && (a.state.Failed? && calls[0].polled.Ended? ==>
            a.error.value.code == if calls[0].polled.code != 0 then "plugin.exit.nonzero" else "session.end.failed")
  {
    var polled := calls[0].polled;
    if polled.PollRaised? {
      var all := [PollError(polled), StopVerdict(calls[1..]).error, EndError(ended)];
      CombineReportsEverything(all);
      assert all[0] in all && all[1] in all && all[2] in all;
      assert Present(all)[0] == all[0].value;
    } else if polled.Ended? {
      assert calls == [calls[0]];
      var all := [ExitError(polled.code), EndError(ended)];
      EarlierOfTwo(all[0], all[1]);
      CombineReportsEverything(all);
      assert all[0] in all && all[1] in all;
    }
  }

  lemma StopVerdictCode(p: nat, calls: seq<Call>)
    requires IsStop(p, calls)
    ensures var v, last := StopVerdict(calls), calls[|calls| - 1];
      && (v.error.None? <==> IsCleanStop(calls)) && (v.error.None? ==> Exited(last))
      && v.code == (if Exited(last) then Some(last.waited.code) else None)
      && (v.error.Some? ==> v.error.value.code == "plugin.stop.failed") && last in calls && last.p == p
  {
    StopVerdictIsHonest(p, calls);
  }

  /** The code of the failure that a stop met first. */
  function EarliestCode(calls: seq<Call>, ended: Option<string>): string
    requires |calls| >= 1 && calls[0].Polled?
  {
    var polled := calls[0].polled;
    if polled.Ended? && polled.code != 0 then NONZERO.code
    else if polled.PollRaised? then "plugin.status.failed"
    else if !polled.Ended? && StopVerdict(calls[1..]).error.Some? then "plugin.stop.failed"
    else if ended.Some? then "session.end.failed"
    else ""
  }

  /**
    SUCCEEDED exactly if the process had ended with code 0 and EndSession succeeded, CANCELLED exactly if it was
    running, its exit was then observed without a failing call, and EndSession succeeded; otherwise FAILED, with
    every failure reported and the earliest as primary.
   */
  lemma StopAnswerIsHonest(op: nat, p: nat, calls: seq<Call>, ended: Option<string>)
    requires IsManagedStop(p, calls)
    ensures var a := StopAnswer(op, calls, ended);
      && a.op == op && !a.state.Running?
      && (a.state.Succeeded? <==> calls[0].polled == Ended(0) && ended.None?)
      && (a.state.Succeeded? ==> calls == [Polled(p, Ended(0))])
      && (a.state.Cancelled? <==> calls[0].polled.StillRunning? && IsCleanStop(calls[1..]) && ended.None?)
      && a.exitCode == (if calls[0].polled.Ended? then Some(calls[0].polled.code)
                        else if Exited(calls[|calls| - 1]) then Some(calls[|calls| - 1].waited.code) else None)
      && a.warning.None?
      && (a.state.Cancelled? ==> Exited(calls[|calls| - 1]) && calls[|calls| - 1].p == p
                                 && a.exitCode == Some(calls[|calls| - 1].waited.code) && ended.None?)
      && (a.state.Failed? <==> a.error.Some?)
      && Reported(a.error, PollError(calls[0].polled)) && Reported(a.error, EndError(ended))
      && (calls[0].polled.Ended? ==> Reported(a.error, ExitError(calls[0].polled.code)))
      && (!calls[0].polled.Ended? ==> Reported(a.error, StopVerdict(calls[1..]).error))
      && (a.state.Failed? ==> a.error.value.code == EarliestCode(calls, ended))
  {
    hide StopVerdict, IsCleanStop, IsStop, Combine, Reports;
    var polled := calls[0].polled;
    if polled.Ended? {
      assert calls == [calls[0]];
      ThreeCombined(ExitError(polled.code), None, EndError(ended));
    } else {
      var stop := StopVerdict(calls[1..]);
      StopVerdictCode(p, calls[1..]);
      assert calls[1..][|calls| - 2] == calls[|calls| - 1];
      CombineReportsEverything([PollError(polled), stop.error]);
      assert [PollError(polled), stop.error][0] == PollError(polled) && [PollError(polled), stop.error][1] == stop.error;
      ThreeCombined(None, Combine([PollError(polled), stop.error]), EndError(ended));
      CombinedEarlierIsReported([PollError(polled), stop.error], EndError(ended));
      EarlierOfTwo(PollError(polled), stop.error);
    }
  }

  lemma ThreeCombined(a: Option<AppError>, b: Option<AppError>, c: Option<AppError>)
    ensures Combine([a, b, c]).None? <==> a.None? && b.None? && c.None?
    ensures Reported(Combine([a, b, c]), a) && Reported(Combine([a, b, c]), b) && Reported(Combine([a, b, c]), c)
    ensures Combine([a, b, c]).Some? ==>
      Combine([a, b, c]).value.code == (if a.Some? then a.value.code else if b.Some? then b.value.code else c.value.code)
  {
    var all := [a, b, c];
    CombineReportsEverything(all);
    assert all[0] in all && all[1] in all && all[2] in all;
    assert [c][1..] == [] && [b, c][1..] == [c] && all[1..] == [b, c];
    assert Present([c]) == if c.Some? then [c.value] else [];
    assert Present([b, c]) == (if b.Some? then [b.value] else []) + Present([c]);
    assert Present(all) == (if a.Some? then [a.value] else []) + Present([b, c]);
  }

  lemma EarlierOfTwo(a: Option<AppError>, b: Option<AppError>)
    ensures Combine([a, b]).None? <==> a.None? && b.None?
    ensures Combine([a, b]).Some? ==> Combine([a, b]).value.code == (if a.Some? then a.value.code else b.value.code)
  {
    var all := [a, b];
    CombineReportsEverything(all);
    assert all[0] in all && all[1] in all;
    assert all[1..] == [b] && [b][1..] == [];
  }

  lemma LongerReports(short: AppError, long: AppError, x: AppError)
    requires long.code == short.code && short.cause <= long.cause && Reports(short, x)
    ensures Reports(long, x)
  {
    var rest := long.cause[|short.cause|..];
    assert long.cause == "" + short.cause + rest;
    if Contains(short.cause, Render(x)) { ContainsAround("", short.cause, rest, Render(x)); }
  }

  /** Errors combined first are still reported when the result is combined with a later one. */
  lemma CombinedEarlierIsReported(inner: seq<Option<AppError>>, later: Option<AppError>)
    ensures forall x | Some(x) in inner ::
      var all := [None, Combine(inner), later]; Combine(all).Some? && Reports(Combine(all).value, x)
  {
    var all := [None, Combine(inner), later];
    CombineReportsEverything(inner);
    CombineReportsEverything(all);
    forall x | Some(x) in inner ensures Combine(all).Some? && Reports(Combine(all).value, x) {
      assert all[1] in all;
      assert Present(all)[0] == Combine(inner).value;
      LongerReports(Combine(inner).value, Combine(all).value, x);
    }
  }
}
