/** Typed errors of the session runners, and how several of them become one. */
module SessionErrors {
  import opened Wrappers
  import opened Texts

  datatype AppError = AppError(code: string, cause: string, retryable: bool)

  /** What a call into Python code may raise. */
  datatype Raised =
    | Application(error: AppError)
    | Cancellation                       // OperationCancelled
    | Interrupt(notes: seq<string>)      // KeyboardInterrupt
    | Unexpected(name: string, text: string)             // any other Exception
    | Fatal(name: string, notes: seq<string>)            // any other BaseException

  function PluginError(code: string, cause: string): AppError {
    AppError(code, cause, false)
  }

  function Present(errors: seq<Option<AppError>>): (present: seq<AppError>)
    ensures forall e :: e in present <==> Some(e) in errors
  {
    if errors == [] then []
    else (if errors[0].Some? then [errors[0].value] else []) + Present(errors[1..])
  }

  function Render(e: AppError): string {
    e.code + " (" + e.cause + ")"
  }

  function RenderAll(errors: seq<AppError>): string {
    if errors == [] then "" else "; " + Render(errors[0]) + RenderAll(errors[1..])
  }

  /** `_combine_errors`: the first error present, its cause extended by every later one. */
  function Combine(errors: seq<Option<AppError>>): Option<AppError> {
    var present := Present(errors);
    if present == [] then None
    else if |present| == 1 then Some(present[0])
    else Some(present[0].(cause := present[0].cause + RenderAll(present[1..])))
  }

  function EndFailed(cleanup: string): string {
    "EndSession failed (" + cleanup + ")"
  }

  /** `_with_cleanup_failure` */
  function WithCleanupFailure(primary: AppError, cleanup: string): AppError {
    primary.(cause := primary.cause + "; " + EndFailed(cleanup))
  }

  /** e speaks of error x: it is x extended, or x is spelled out in its cause. */
  ghost predicate Reports(e: AppError, x: AppError) {
    (e.code == x.code && x.cause <= e.cause) || Contains(e.cause, Render(x))
  }

  lemma {:induction false} RenderAllContains(errors: seq<AppError>, k: nat)
    requires k < |errors|
    ensures Contains(RenderAll(errors), Render(errors[k]))
  {
    if k == 0 {
      ContainsItself(Render(errors[0]));
      ContainsAround("; ", Render(errors[0]), RenderAll(errors[1..]), Render(errors[0]));
    } else {
      RenderAllContains(errors[1..], k - 1);
      ContainsAround("; " + Render(errors[0]), RenderAll(errors[1..]), "", Render(errors[k]));
      assert RenderAll(errors) == "; " + Render(errors[0]) + RenderAll(errors[1..]) + "";
    }
  }

  lemma CombineOfNothing(errors: seq<Option<AppError>>)
    ensures Combine(errors).None? <==> forall e | e in errors :: e.None?
  {
    var present := Present(errors);
    if present == [] {
      forall e | e in errors ensures e.None? {
      }
    } else {
      assert present[0] in present;
      assert Some(present[0]) in errors;
    }
  }

  lemma CombineReports(errors: seq<Option<AppError>>, x: AppError)
    requires Some(x) in errors
    ensures Combine(errors).Some? && Reports(Combine(errors).value, x)
  {
    var present := Present(errors);
    assert x in present;
    var k :| 0 <= k < |present| && present[k] == x;
    if k > 0 {
      hide Render, RenderAll, Contains;
      RenderAllContains(present[1..], k - 1);
      ContainsAround(present[0].cause, RenderAll(present[1..]), "", Render(x));
      assert present[0].cause + RenderAll(present[1..]) + "" == present[0].cause + RenderAll(present[1..]);
    }
  }

  /**
    Combining loses nothing: there is a result exactly if some error is present, the first present error
    is the primary one, and every present error is reported.
   */
  lemma CombineReportsEverything(errors: seq<Option<AppError>>)
    ensures Combine(errors).None? <==> forall e | e in errors :: e.None?
    ensures Combine(errors).Some? ==>
      Combine(errors).value.code == Present(errors)[0].code &&
      Present(errors)[0].cause <= Combine(errors).value.cause &&
      (|Present(errors)| == 1 ==> Combine(errors).value == Present(errors)[0]) &&
      Combine(errors).value.retryable == Present(errors)[0].retryable
    ensures forall x | Some(x) in errors :: Combine(errors).Some? && Reports(Combine(errors).value, x)
  {
    CombineOfNothing(errors);
    forall x | Some(x) in errors ensures Combine(errors).Some? && Reports(Combine(errors).value, x) {
      CombineReports(errors, x);
    }
  }

  lemma CleanupFailureIsReported(primary: AppError, cleanup: string)
    ensures Reports(WithCleanupFailure(primary, cleanup), primary)
    ensures Contains(WithCleanupFailure(primary, cleanup).cause, cleanup)
  {
    NamedFailure(primary.cause + "; ", cleanup);
  }

  // ---- what a caller sees when a session had to be cleaned up after a failure --------------------

  /** `ForegroundSsmSessionRunner._raise_after_end`; cleanup names the exception EndSession raised, if any. */
  function AfterEnd(primary: Raised, cleanup: Option<string>): Raised {
    match primary
    case Interrupt(notes) =>
      if cleanup.Some? then CancelCleanupFailed("KeyboardInterrupt; " + EndFailed(cleanup.value)) else primary
    case Cancellation =>
      if cleanup.Some? then CancelCleanupFailed("OperationCancelled; " + EndFailed(cleanup.value)) else primary
    case Application(error) =>
      if cleanup.Some? then Application(WithCleanupFailure(error, cleanup.value)) else primary
    case Unexpected(name, text) =>
      var converted := PluginError("plugin.execute.failed", name + ": " + text);
      Application(if cleanup.Some? then WithCleanupFailure(converted, cleanup.value) else converted)
    case Fatal(name, notes) => primary
  }

  function CancelCleanupFailed(cause: string): Raised {
    Application(PluginError("session.cancel.cleanup_failed", cause))
  }

  /** `ManagedSsmSessionRunner._raise_start_failure` */
  function AfterFailedStart(primary: Raised, cleanup: Option<string>): Raised {
    match primary
    case Application(error) =>
      if cleanup.Some? then Application(WithCleanupFailure(error, cleanup.value)) else primary
    case Cancellation => if cleanup.Some? then CancelCleanupFailed(cleanup.value) else primary
    case Unexpected(name, text) =>
      var converted := PluginError("plugin.launch.failed", name + ": " + text);
      Application(if cleanup.Some? then WithCleanupFailure(converted, cleanup.value) else converted)
    case Interrupt(notes) =>
      if cleanup.Some? then Interrupt(notes + [EndFailed(cleanup.value)]) else primary
    case Fatal(name, notes) =>
      if cleanup.Some? then Fatal(name, notes + [EndFailed(cleanup.value)]) else primary
  }

  /** The failed cleanup can be read off what was raised. */
  ghost predicate Shows(r: Raised, cleanup: string) {
    match r
    case Application(error) => Contains(error.cause, cleanup)
    case Interrupt(notes) => exists n | n in notes :: Contains(n, cleanup)
    case Fatal(name, notes) => exists n | n in notes :: Contains(n, cleanup)
    case _ => false
  }

  lemma NamedFailure(before: string, cleanup: string)
    ensures Contains(before + EndFailed(cleanup), cleanup)
  {
    ContainsItself(cleanup);
    ContainsAround("EndSession failed (", cleanup, ")", cleanup);
    ContainsAround(before, EndFailed(cleanup), "", cleanup);
    assert before + EndFailed(cleanup) + "" == before + EndFailed(cleanup);
  }

  /** A managed start that fails never hides that its session could not be ended. */
  lemma FailedStartShowsCleanup(primary: Raised, cleanup: string)
    ensures Shows(AfterFailedStart(primary, Some(cleanup)), cleanup)
  {
    var note := EndFailed(cleanup);
    NamedFailure("", cleanup);
    assert "" + note == note;
    match primary
    case Application(error) => CleanupFailureIsReported(error, cleanup);
    case Unexpected(name, text) => CleanupFailureIsReported(PluginError("plugin.launch.failed", name + ": " + text), cleanup);
    case Cancellation => ContainsItself(cleanup);
    case Interrupt(notes) => assert note in notes + [note];
    case Fatal(name, notes) => assert note in notes + [note];
  }

  /** r is the error `primary`, as it was or with more said in its cause. */
  ghost predicate Carries(r: Raised, primary: AppError) {
    r.Application? && r.error.code == primary.code && r.error.retryable == primary.retryable && primary.cause <= r.error.cause
  }

  /**
    What the foreground runner raises once EndSession has been attempted: the primary failure itself, unless it
    is an unexpected Exception, which is converted, or EndSession failed too.
   */
  lemma ForegroundKeepsThePrimary(primary: Raised, cleanup: Option<string>)
    ensures var r := AfterEnd(primary, cleanup);
      && (cleanup.None? && !primary.Unexpected? ==> r == primary)
      && (primary.Application? ==> Carries(r, primary.error))
      && (primary.Unexpected? ==> Carries(r, AppError("plugin.execute.failed", primary.name + ": " + primary.text, false)))
      && (primary.Unexpected? && cleanup.None? ==> r.error.cause == primary.name + ": " + primary.text)
      && (cleanup.Some? && (primary.Interrupt? || primary.Cancellation?) ==>
            r.Application? && r.error.code == "session.cancel.cleanup_failed")
      && (primary.Fatal? ==> r == primary)
  {
  }

  /** The same of a managed start; interrupts and other BaseExceptions stay what they are and gain a note. */
  lemma FailedStartKeepsThePrimary(primary: Raised, cleanup: Option<string>)
    ensures var r := AfterFailedStart(primary, cleanup);
      && (cleanup.None? && !primary.Unexpected? ==> r == primary)
      && (primary.Application? ==> Carries(r, primary.error))
      && (primary.Unexpected? ==> Carries(r, AppError("plugin.launch.failed", primary.name + ": " + primary.text, false)))
      && (primary.Unexpected? && cleanup.None? ==> r.error.cause == primary.name + ": " + primary.text)
      && (cleanup.Some? && primary.Cancellation? ==> r.Application? && r.error.code == "session.cancel.cleanup_failed")
      && (primary.Interrupt? ==> r.Interrupt? && primary.notes <= r.notes && (r.notes == primary.notes <==> cleanup.None?))
      && (primary.Fatal? ==> r.Fatal? && r.name == primary.name && primary.notes <= r.notes && (r.notes == primary.notes <==> cleanup.None?))
  {
  }

  /**
    The foreground runner shows a failed cleanup exactly when what interrupted the run was an ordinary
    exception, a cancellation or a keyboard interrupt; for any other BaseException the failed EndSession
    leaves no trace beyond what the exception already said.
   */
  lemma ForegroundShowsCleanupUnlessFatal(primary: Raised, cleanup: string)
    ensures !primary.Fatal? ==> Shows(AfterEnd(primary, Some(cleanup)), cleanup)
    ensures primary.Fatal? ==> AfterEnd(primary, Some(cleanup)) == AfterEnd(primary, None)
  {
    match primary
    case Application(error) => CleanupFailureIsReported(error, cleanup);
    case Unexpected(name, text) => CleanupFailureIsReported(PluginError("plugin.execute.failed", name + ": " + text), cleanup);
    case Interrupt(notes) => NamedFailure("KeyboardInterrupt; ", cleanup);
    case Cancellation => NamedFailure("OperationCancelled; ", cleanup);
    case Fatal(name, notes) =>
  }
}
