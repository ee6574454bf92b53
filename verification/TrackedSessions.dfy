/**
  The session tables of `Ec2Service` and `RdsTunnelService` over one shared runner.

  A method's guarded regions are single steps of SessionProtocol; `host.Interfere(t)` stands wherever other
  threads may run in between.  What a method did itself is read off the trace (`Did`).
 */
module TrackedSessions {
  import opened Wrappers
  import opened SessionErrors
  import opened SessionProtocol
  import opened SessionServices
  import opened SessionAnswers
  import P = PluginSessions

  /** One operation as a poll reported it; `checkedAt` is the clock reading its expiry was compared with. */
  datatype Report = Report(op: Op, profile: Profile, state: OperationState, error: Option<AppError>, checkedAt: int)

  /** One stop of a session: the calls it made on the plugin process, and what it came back with. */
  datatype StopRecord = StopRecord(op: Op, calls: seq<P.Call>, answer: Result<ManagedSession, Raised>)

  const TUNNEL_NOT_FOUND := AppError("rds.tunnel.operation.not_found", "", false)

  /** An RDS tunnel has reached the end of its session duration. */
  predicate Due(entry: Entry, now: int) {
    entry.Tunnel? && now >= entry.expiresAt
  }

  /** The operations reported as anything but running. */
  function EndedIn(reports: seq<Report>): set<Op> {
    set i | 0 <= i < |reports| && !reports[i].state.Running? :: reports[i].op
  }

  const NOT_TRACKED := PluginError("session.operation.not_found", "External EC2 session is not tracked")

  predicate Matches(entry: Entry, profile: Option<Profile>) {
    profile.None? || entry.profile == profile.value
  }

  /** The operations of this profile, or all of them. */
  function Matching(table: map<Op, Entry>, profile: Option<Profile>): (ops: set<Op>)
    ensures forall op :: op in ops <==> op in table && (profile.Some? ==> table[op].profile == profile.value)
  {
    set op | op in table && Matches(table[op], profile)
  }

  lemma UndisturbedParts(s: Sys, s': Sys, t: Tid)
    requires Undisturbed(s, s', t)
    ensures Forward(s, s') && (t in s.duties <==> t in s'.duties) && (s.tunnelLock == Some(t) <==> s'.tunnelLock == Some(t))
    ensures s.tunnelLock == Some(t) ==> s'.managed == s.managed
  {
  }

  /** Each report names the profile its operation was tracked for. */
  predicate ProfilesFrom(reports: seq<Report>, table: map<Op, Entry>) {
    forall i | 0 <= i < |reports| :: reports[i].op in table && reports[i].profile == table[reports[i].op].profile
  }

  lemma NoProfiles(table: map<Op, Entry>)
    ensures ProfilesFrom([], table)
  {
  }

  lemma OneMoreProfile(reports: seq<Report>, table: map<Op, Entry>, r: Report)
    requires ProfilesFrom(reports, table) && r.op in table && r.profile == table[r.op].profile
    ensures ProfilesFrom(reports + [r], table)
  {
  }

  function OpsOf(reports: seq<Report>): set<Op> {
    set i | 0 <= i < |reports| :: reports[i].op
  }

  /** All of these operations, each once. */
  ghost predicate Listing(ops: seq<Op>, all: set<Op>) {
    |ops| == |all| && (forall op :: op in ops <==> op in all) && forall i, j | 0 <= i < j < |ops| :: ops[i] != ops[j]
  }

  /** The reports so far are about the first of these operations. */
  predicate Named(reports: seq<Report>, ops: seq<Op>) {
    |reports| <= |ops| && forall i | 0 <= i < |reports| :: reports[i].op == ops[i]
  }

  lemma NothingNamed(ops: seq<Op>)
    ensures Named([], ops)
  {
  }

  lemma OneMoreNamed(reports: seq<Report>, ops: seq<Op>, r: Report)
    requires Named(reports, ops) && |reports| < |ops| && r.op == ops[|reports|]
    ensures Named(reports + [r], ops)
  {
  }

  lemma AllNamed(reports: seq<Report>, ops: seq<Op>, keys: set<Op>)
    requires Named(reports, ops) && Listing(ops, keys) && |reports| == |ops|
    ensures OpsOf(reports) == keys && |reports| == |keys|
  {
    forall op | op in ops ensures op in OpsOf(reports) {
      var i :| 0 <= i < |ops| && ops[i] == op;
      assert reports[i].op == op;
    }
    forall op | op in OpsOf(reports) ensures op in ops {
      var i :| 0 <= i < |reports| && reports[i].op == op;
      assert ops[i] == op;
    }
  }

  lemma EndedSnoc(reports: seq<Report>, r: Report)
    ensures EndedIn(reports + [r]) == EndedIn(reports) + if r.state.Running? then {} else {r.op}
  {
    var all := reports + [r];
    forall op | op in EndedIn(reports) ensures op in EndedIn(all) {
      var i :| 0 <= i < |reports| && !reports[i].state.Running? && reports[i].op == op;
      assert all[i] == reports[i];
    }
    assert all[|reports|] == r;
    assert forall i | 0 <= i < |reports| :: all[i] == reports[i];
  }

  /** An operation not reported yet is still where it was. */
  lemma NotYetEnded(reports: seq<Report>, ops: seq<Op>, all: set<Op>, k: nat)
    requires k < |ops| && |reports| == k && Named(reports, ops) && Listing(ops, all)
    ensures ops[k] in all && ops[k] !in EndedIn(reports)
  {
  }

  ghost predicate AllGone(s: Sys, ops: set<Op>) {
    forall op | op in ops :: Gone(s, op)
  }

  lemma AllGoneStay(s: Sys, s': Sys, ops: set<Op>)
    requires AllGone(s, ops) && Inv(s') && Forward(s, s')
    ensures AllGone(s', ops)
  {
    hide Inv, Forward, Gone;
    forall op | op in ops ensures Gone(s', op) { GoneStays(s, s', op); }
  }

  lemma GoneUpToNow(s: Sys, s': Sys, reports: seq<Report>, r: Report)
    requires AllGone(s, EndedIn(reports)) && Inv(s') && Forward(s, s') && (!r.state.Running? ==> Gone(s', r.op))
    ensures AllGone(s', EndedIn(reports + [r]))
  {
    hide Inv, Forward, Gone;
    AllGoneStay(s, s', EndedIn(reports));
    EndedSnoc(reports, r);
  }

  lemma NoneGoneYet(s: Sys)
    ensures AllGone(s, EndedIn([]))
  {
  }

  /** Raises the error that a handle carries. */
  function Raising(handle: ManagedSession): Result<ManagedSession, Raised> {
    if handle.error.Some? then Err(Application(handle.error.value)) else Ok(handle)
  }

  /** A stop counts as failed when it raises and when its handle carries an error. */
  function Verdict(r: Result<ManagedSession, Raised>): Result<ManagedSession, Raised> {
    if r.Ok? then Raising(r.value) else r
  }

  // ---- what the reports are worth ----------------------------------------------------------------------

  /** These calls polled one process; unless it runs on, AWS was asked to end the session of op. */
  predicate Polled(sessions: map<Op, Sid>, answers: map<Sid, Option<string>>, op: Op, made: seq<P.Call>) {
    && op in sessions && made != [] && made[0].Polled? && IsPoll(made[0].p, made)
    && (!made[0].polled.StillRunning? ==> sessions[op] in answers)
  }

  function PollHandle(sessions: map<Op, Sid>, answers: map<Sid, Option<string>>, owner: Owner, op: Op, made: seq<P.Call>): ManagedSession
    requires Polled(sessions, answers, op, made)
  {
    StatusAnswer(op, made, if made[0].polled.StillRunning? then None else answers[sessions[op]], owner.Ec2?)
  }

  /** What is reported is what the poll and the answer of EndSession come to, or that nobody owns the session any more. */
  predicate PollBacked(sessions: map<Op, Sid>, answers: map<Sid, Option<string>>, owner: Owner, r: Report, made: seq<P.Call>) {
    || (made == [] && r.state.Failed? && r.error == Some(NOT_OWNED))
    || (Polled(sessions, answers, r.op, made)
        && var handle := PollHandle(sessions, answers, owner, r.op, made); r.state == handle.state && r.error == handle.error)
  }

  /** What is reported is what the stop of an expired tunnel came to. */
  predicate ExpiryBacked(sessions: map<Op, Sid>, answers: map<Sid, Option<string>>, r: Report, made: seq<P.Call>) {
    && Stopped(sessions, answers, r.op, made)
    && var handle := Handle(sessions, answers, r.op, made);
       r.error == handle.error && r.state == if handle.error.Some? then Failed else handle.state
  }

  predicate ReportBacked(sessions: map<Op, Sid>, answers: map<Sid, Option<string>>, owner: Owner, table: map<Op, Entry>, r: Report, made: seq<P.Call>) {
    && r.op in table
    && if owner.Rds? && Due(table[r.op], r.checkedAt) then ExpiryBacked(sessions, answers, r, made) else PollBacked(sessions, answers, owner, r, made)
  }

  function Flat(made: seq<seq<P.Call>>): seq<P.Call> {
    if made == [] then [] else Flat(made[..|made| - 1]) + made[|made| - 1]
  }

  /** Every report is backed by the calls made for it, and these are the calls on the plugin since the poll began. */
  predicate Witnessed(
    sessions: map<Op, Sid>, answers: map<Sid, Option<string>>, owner: Owner, table: map<Op, Entry>,
    callsBefore: seq<P.Call>, calls: seq<P.Call>, reports: seq<Report>, made: seq<seq<P.Call>>)
  {
    && |made| == |reports| && calls == callsBefore + Flat(made)
    && forall i | 0 <= i < |reports| :: ReportBacked(sessions, answers, owner, table, reports[i], made[i])
  }

  lemma NothingWitnessed(sessions: map<Op, Sid>, answers: map<Sid, Option<string>>, owner: Owner, table: map<Op, Entry>, calls: seq<P.Call>)
    ensures Witnessed(sessions, answers, owner, table, calls, calls, [], [])
  {
  }

  lemma PollIsBacked(sessions: map<Op, Sid>, answers: map<Sid, Option<string>>, owner: Owner, r: Report, made: seq<P.Call>, p: nat, ended: Option<string>)
    requires IsPoll(p, made) && r.op in sessions
    requires var a := StatusAnswer(r.op, made, ended, owner.Ec2?); r.state == a.state && r.error == a.error
    requires if r.state.Running? then ended.None? else sessions[r.op] in answers && answers[sessions[r.op]] == ended
    ensures PollBacked(sessions, answers, owner, r, made)
  {
    hide Combine, EndError, ExitError, PollError, P.StopVerdict;
  }

  lemma NotOwnedIsBacked(sessions: map<Op, Sid>, answers: map<Sid, Option<string>>, owner: Owner, r: Report)
    requires r.state.Failed? && r.error == Some(NOT_OWNED)
    ensures PollBacked(sessions, answers, owner, r, [])
  {
  }

  lemma ReportStays(
    s: Sys, s': Sys, answers: map<Sid, Option<string>>, answers': map<Sid, Option<string>>, owner: Owner, table: map<Op, Entry>, r: Report,
    made: seq<P.Call>)
    requires ReportBacked(s.sessions, answers, owner, table, r, made) && Forward(s, s') && Kept(answers, answers')
    ensures ReportBacked(s'.sessions, answers', owner, table, r, made)
  {
    hide Forward, StopAnswer, StatusAnswer, IsPoll, IsManagedStop, Due;
    if r.op in s.sessions { SessionStays(s, s', r.op); }
  }

  lemma WitnessedStays(
    s: Sys, s': Sys, answers: map<Sid, Option<string>>, answers': map<Sid, Option<string>>, owner: Owner, table: map<Op, Entry>,
    callsBefore: seq<P.Call>, calls: seq<P.Call>, reports: seq<Report>, made: seq<seq<P.Call>>)
    requires Witnessed(s.sessions, answers, owner, table, callsBefore, calls, reports, made) && Forward(s, s') && Kept(answers, answers')
    ensures Witnessed(s'.sessions, answers', owner, table, callsBefore, calls, reports, made)
  {
    hide Forward, Kept, ReportBacked, Flat;
    forall i | 0 <= i < |reports| ensures ReportBacked(s'.sessions, answers', owner, table, reports[i], made[i]) {
      ReportStays(s, s', answers, answers', owner, table, reports[i], made[i]);
    }
  }

  lemma OneMoreWitnessed(
    s: Sys, s': Sys, answers: map<Sid, Option<string>>, answers': map<Sid, Option<string>>, owner: Owner, table: map<Op, Entry>,
    callsBefore: seq<P.Call>, calls: seq<P.Call>, reports: seq<Report>, made: seq<seq<P.Call>>, r: Report, more: seq<P.Call>)
    requires Witnessed(s.sessions, answers, owner, table, callsBefore, calls, reports, made) && Forward(s, s') && Kept(answers, answers')
    requires ReportBacked(s'.sessions, answers', owner, table, r, more)
    ensures Witnessed(s'.sessions, answers', owner, table, callsBefore, calls + more, reports + [r], made + [more])
  {
    hide Forward, Kept, ReportBacked;
    WitnessedStays(s, s', answers, answers', owner, table, callsBefore, calls, reports, made);
    assert (made + [more])[..|made|] == made;
  }

  // ---- what the records of the stops are worth -------------------------------------------------------

  /** These calls stopped one process, and AWS was asked to end the session of op. */
  predicate Stopped(sessions: map<Op, Sid>, answers: map<Sid, Option<string>>, op: Op, made: seq<P.Call>) {
    && op in sessions && sessions[op] in answers
    && made != [] && made[0].Polled? && IsManagedStop(made[0].p, made)
  }

  /** The handle that the calls and the answer of EndSession make. */
  function Handle(sessions: map<Op, Sid>, answers: map<Sid, Option<string>>, op: Op, made: seq<P.Call>): ManagedSession
    requires Stopped(sessions, answers, op, made)
  {
    StopAnswer(op, made, answers[sessions[op]])
  }

  /** The record says what the calls and the answer of EndSession made of this stop, or that there was nothing to stop. */
  predicate Backed(sessions: map<Op, Sid>, answers: map<Sid, Option<string>>, x: StopRecord) {
    || (x.calls == [] && x.answer in {Err(Application(NOT_TRACKED)), Err(Application(NOT_OWNED)), Err(Application(TUNNEL_NOT_FOUND))})
    || (Stopped(sessions, answers, x.op, x.calls)
        && x.answer in {Ok(Handle(sessions, answers, x.op, x.calls)), Raising(Handle(sessions, answers, x.op, x.calls))})
  }

  function CallsOf(records: seq<StopRecord>): seq<P.Call> {
    if records == [] then [] else CallsOf(records[..|records| - 1]) + records[|records| - 1].calls
  }

  /** Every one of these records is backed. */
  predicate AllBacked(sessions: map<Op, Sid>, answers: map<Sid, Option<string>>, records: seq<StopRecord>) {
    forall x | x in records :: Backed(sessions, answers, x)
  }

  lemma StoppedNow(sessions: map<Op, Sid>, answers: map<Sid, Option<string>>, op: Op, p: nat, made: seq<P.Call>)
    requires op in sessions && sessions[op] in answers && IsManagedStop(p, made)
    ensures Stopped(sessions, answers, op, made) && Handle(sessions, answers, op, made) == StopAnswer(op, made, answers[sessions[op]])
  {
    hide StopAnswer;
  }

  lemma BackedStays(s: Sys, s': Sys, answers: map<Sid, Option<string>>, answers': map<Sid, Option<string>>, x: StopRecord)
    requires Backed(s.sessions, answers, x) && Forward(s, s') && Kept(answers, answers')
    ensures Backed(s'.sessions, answers', x)
  {
    hide Forward, StopAnswer, IsManagedStop;
    if x.op in s.sessions { SessionStays(s, s', x.op); }
  }

  lemma AllBackedStay(s: Sys, s': Sys, answers: map<Sid, Option<string>>, answers': map<Sid, Option<string>>, records: seq<StopRecord>)
    requires AllBacked(s.sessions, answers, records) && Forward(s, s') && Kept(answers, answers')
    ensures AllBacked(s'.sessions, answers', records)
  {
    hide Forward, Kept, Backed;
    forall x | x in records ensures Backed(s'.sessions, answers', x) { BackedStays(s, s', answers, answers', x); }
  }

  /** The records since `before` are backed, and the calls on the plugin since then are exactly theirs. */
  predicate Accounted(
    sessions: map<Op, Sid>, answers: map<Sid, Option<string>>, callsBefore: seq<P.Call>, calls: seq<P.Call>,
    before: seq<StopRecord>, stops: seq<StopRecord>)
  {
    && before <= stops && AllBacked(sessions, answers, stops[|before|..])
    && calls == callsBefore + CallsOf(stops[|before|..])
  }

  lemma NothingAccounted(sessions: map<Op, Sid>, answers: map<Sid, Option<string>>, calls: seq<P.Call>, stops: seq<StopRecord>)
    ensures Accounted(sessions, answers, calls, calls, stops, stops)
  {
    assert stops[|stops|..] == [];
  }

  lemma AccountedStays(
    s: Sys, s': Sys, answers: map<Sid, Option<string>>, answers': map<Sid, Option<string>>, callsBefore: seq<P.Call>, calls: seq<P.Call>,
    before: seq<StopRecord>, stops: seq<StopRecord>)
    requires Accounted(s.sessions, answers, callsBefore, calls, before, stops) && Forward(s, s') && Kept(answers, answers')
    ensures Accounted(s'.sessions, answers', callsBefore, calls, before, stops)
  {
    hide Forward, Kept, CallsOf, AllBacked;
    AllBackedStay(s, s', answers, answers', stops[|before|..]);
  }

  lemma OneMoreAccounted(
    s: Sys, s': Sys, answers: map<Sid, Option<string>>, answers': map<Sid, Option<string>>, callsBefore: seq<P.Call>, calls: seq<P.Call>,
    before: seq<StopRecord>, stops: seq<StopRecord>, x: StopRecord)
    requires Accounted(s.sessions, answers, callsBefore, calls, before, stops) && Forward(s, s') && Kept(answers, answers')
    requires Backed(s'.sessions, answers', x)
    ensures Accounted(s'.sessions, answers', callsBefore, calls + x.calls, before, stops + [x])
  {
    hide Forward, Kept, Backed;
    AllBackedStay(s, s', answers, answers', stops[|before|..]);
    assert (stops + [x])[|before|..] == stops[|before|..] + [x];
  }

  lemma VerdictOfTunnel(r: Result<ManagedSession, Raised>)
    requires r.Ok? ==> r.value.error.None?
    ensures Verdict(r) == r
  {
  }

  function Verdicts(records: seq<StopRecord>): (verdicts: seq<Result<ManagedSession, Raised>>)
    ensures |verdicts| == |records|
  {
    seq(|records|, i requires 0 <= i < |records| => Verdict(records[i].answer))
  }

  /** The stops since `before` were of exactly these operations, in this order. */
  predicate StoppedInOrder(before: seq<StopRecord>, after: seq<StopRecord>, ops: seq<Op>) {
    before <= after && |after| == |before| + |ops| && forall i | 0 <= i < |ops| :: after[|before| + i].op == ops[i]
  }

  function StoppedOps(records: seq<StopRecord>): set<Op> {
    set i | 0 <= i < |records| :: records[i].op
  }

  /** What a loop over several stops has made of them so far. */
  ghost predicate Collected(before: seq<StopRecord>, after: seq<StopRecord>, ops: seq<Op>, firstError: Option<Raised>, stopped: seq<ManagedSession>) {
    && StoppedInOrder(before, after, ops) && firstError == FirstFailure(Verdicts(after[|before|..]))
    && (firstError.None? ==> |stopped| == |ops| && forall i | 0 <= i < |ops| :: after[|before| + i].answer == Ok(stopped[i]))
  }

  lemma NothingCollected(before: seq<StopRecord>)
    ensures Collected(before, before, [], None, [])
  {
    assert before[|before|..] == [];
    assert Verdicts([]) == [];
  }

  lemma AllCollected(before: seq<StopRecord>, after: seq<StopRecord>, ops: seq<Op>, all: set<Op>, firstError: Option<Raised>, stopped: seq<ManagedSession>)
    requires Collected(before, after, ops, firstError, stopped) && Listing(ops, all)
    ensures Summed(before, after, all, if firstError.Some? then Err(firstError.value) else Ok(stopped))
  {
    var records := after[|before|..];
    assert forall i | 0 <= i < |ops| :: records[i].op == ops[i];
    forall op | op in all ensures op in StoppedOps(records) {
      var i :| 0 <= i < |ops| && ops[i] == op;
      assert records[i].op == op;
    }
    forall op | op in StoppedOps(records) ensures op in all {
      var i :| 0 <= i < |records| && records[i].op == op;
      assert ops[i] == op;
    }
  }

  /**
    The stops since `before` were one of each of these operations; the answer raises the earliest failure
    among what they came back with, or holds all their handles if there is none.
   */
  ghost predicate Summed(before: seq<StopRecord>, after: seq<StopRecord>, all: set<Op>, r: Result<seq<ManagedSession>, Raised>) {
    && before <= after && StoppedOps(after[|before|..]) == all && |after| - |before| == |all|
    && FirstFailure(Verdicts(after[|before|..])) == (if r.Err? then Some(r.error) else None)
    && (r.Ok? ==> |r.value| == |all| && forall i | 0 <= i < |all| :: after[|before| + i].answer == Ok(r.value[i]))
  }

  lemma OneMoreCollected(before: seq<StopRecord>, after: seq<StopRecord>, ops: seq<Op>, firstError: Option<Raised>, stopped: seq<ManagedSession>, x: StopRecord)
    requires Collected(before, after, ops, firstError, stopped)
    ensures Collected(before, after + [x], ops + [x.op],
      if firstError.None? && Verdict(x.answer).Err? then Some(Verdict(x.answer).error) else firstError,
      if x.answer.Ok? then stopped + [x.answer.value] else stopped)
  {
    var records := after[|before|..];
    assert (after + [x])[|before|..] == records + [x];
    assert Verdicts(records + [x]) == Verdicts(records) + [Verdict(x.answer)];
    FirstFailureSnoc(Verdicts(records), Verdict(x.answer));
  }

  lemma OneMoreGone(s: Sys, ops: set<Op>, op: Op)
    requires AllGone(s, ops) && Gone(s, op)
    ensures AllGone(s, ops + {op})
  {
  }

  /** Every tunnel reported as running had time left when it was checked. */
  predicate NoneDue(table: map<Op, Entry>, reports: seq<Report>) {
    forall i | 0 <= i < |reports| && reports[i].state.Running? && reports[i].op in table ::
      table[reports[i].op].Tunnel? ==> reports[i].checkedAt < table[reports[i].op].expiresAt
  }

  /** What a poll of `before` leaves: the ended tunnels are gone and off the table, the others had time left. */
  ghost predicate Checked(before: map<Op, Entry>, table: map<Op, Entry>, s: Sys, reports: seq<Report>) {
    table == before - EndedIn(reports) && AllGone(s, EndedIn(reports)) && NoneDue(before, reports)
  }

  lemma NothingChecked(table: map<Op, Entry>, s: Sys)
    ensures Checked(table, table, s, [])
  {
    assert table - EndedIn([]) == table;
  }

  lemma CheckedStays(before: map<Op, Entry>, table: map<Op, Entry>, s: Sys, s': Sys, reports: seq<Report>)
    requires Checked(before, table, s, reports) && Inv(s') && Forward(s, s')
    ensures Checked(before, table, s', reports)
  {
    AllGoneStay(s, s', EndedIn(reports));
  }

  lemma NotEndedIsListed(before: map<Op, Entry>, table: map<Op, Entry>, s: Sys, reports: seq<Report>, op: Op)
    requires Checked(before, table, s, reports) && op in before && op !in EndedIn(reports)
    ensures op in table && table[op] == before[op]
  {
  }

  lemma OneMoreChecked(before: map<Op, Entry>, table: map<Op, Entry>, table': map<Op, Entry>, s: Sys, s': Sys, reports: seq<Report>, r: Report)
    requires Checked(before, table, s, reports) && Inv(s') && Forward(s, s')
    requires r.op in table && (r.state.Running? ==> table' == table && !Due(table[r.op], r.checkedAt))
    requires !r.state.Running? ==> table' == table - {r.op} && Gone(s', r.op)
    ensures Checked(before, table', s', reports + [r])
  {
    hide Inv, Forward, Gone, AllGone;
    EndedSnoc(reports, r);
    AllGoneStay(s, s', EndedIn(reports));
    WithoutMore(before, EndedIn(reports), r.op);
    if !r.state.Running? { OneMoreGone(s', EndedIn(reports), r.op); }
    assert EndedIn(reports) + {} == EndedIn(reports);
  }

  /** These operations have been taken off the table and are gone. */
  ghost predicate Taken(before: map<Op, Entry>, table: map<Op, Entry>, s: Sys, done: set<Op>) {
    table == before - done && AllGone(s, done)
  }

  lemma NothingTaken(table: map<Op, Entry>, s: Sys)
    ensures Taken(table, table, s, {})
  {
    assert table - {} == table;
  }

  lemma NotTakenIsListed(before: map<Op, Entry>, table: map<Op, Entry>, s: Sys, done: set<Op>, op: Op)
    requires Taken(before, table, s, done) && op in before && op !in done
    ensures op in table
  {
  }

  lemma OneMoreTaken(before: map<Op, Entry>, table: map<Op, Entry>, table': map<Op, Entry>, s: Sys, s': Sys, done: set<Op>, op: Op)
    requires Taken(before, table, s, done) && Inv(s') && Forward(s, s')
    requires table' == table - {op} && Gone(s', op)
    ensures Taken(before, table', s', done + {op})
  {
    hide Inv, Forward, Gone, AllGone;
    AllGoneStay(s, s', done);
    OneMoreGone(s', done, op);
    WithoutMore(before, done, op);
  }

  lemma AllTaken(before: map<Op, Entry>, table: map<Op, Entry>, s: Sys, done: set<Op>)
    requires Taken(before, table, s, done)
    ensures table == before - done && AllGone(s, done)
  {
  }

  lemma WithoutMore(table: map<Op, Entry>, ops: set<Op>, op: Op)
    ensures table - ops - {op} == table - (ops + {op})
  {
  }

  lemma DidBoth(a: seq<Event>, b: seq<Event>, c: seq<Event>, t: Tid, ops: set<Op>, more: set<Op>, all: set<Op>)
    requires Did(a, b, t, ops) && Did(b, c, t, more) && ops <= all && more <= all
    ensures Did(a, c, t, all)
  {
    forall i | |a| <= i < |c| && c[i].t == t ensures Touched(c[i].step) <= all {
      if i < |b| { assert c[i] == b[i]; }
    }
  }

  /** The first k of these operations are done. */
  ghost predicate UpTo(done: set<Op>, ops: seq<Op>, k: nat) {
    k <= |ops| && forall op :: op in done <==> op in ops[..k]
  }

  lemma NothingDone(ops: seq<Op>)
    ensures UpTo({}, ops, 0) && ops[..0] == []
  {
  }

  lemma OneMoreDone(done: set<Op>, ops: seq<Op>, all: set<Op>, k: nat)
    requires Listing(ops, all) && UpTo(done, ops, k) && k < |ops|
    ensures ops[k] in all && ops[k] !in done && UpTo(done + {ops[k]}, ops, k + 1)
    ensures ops[..k + 1] == ops[..k] + [ops[k]]
  {
    assert ops[k] in ops;
    assert ops[..k + 1] == ops[..k] + [ops[k]];
  }

  lemma AllDone(done: set<Op>, ops: seq<Op>, all: set<Op>)
    requires Listing(ops, all) && UpTo(done, ops, |ops|)
    ensures done == all && ops[..|ops|] == ops
  {
    assert ops[..|ops|] == ops;
  }

  /** Operations to go through, in some order. */
  method Items(keys: set<Op>) returns (ops: seq<Op>)
    ensures Listing(ops, keys)
  {
    ops := [];
    var rest := keys;
    while rest != {}
      invariant rest <= keys && |ops| + |rest| == |keys|
      invariant forall op :: op in ops <==> op in keys && op !in rest
      invariant forall i, j | 0 <= i < j < |ops| :: ops[i] != ops[j]
    {
      var op :| op in rest;
      rest, ops := rest - {op}, ops + [op];
    }
  }

  lemma DidPop(before: seq<Event>, after: seq<Event>, t: Tid)
    requires Did(before, after, t, {})
    ensures Did(before, after + [Event(t, Pop)], t, {})
  {
  }

  lemma PopFacts(s: Sys, t: Tid, op: Op)
    requires t in s.duties && s.duties[t].Popping? && s.duties[t].op == op && MayTouch(s, t, s.duties[t].owner)
    ensures Enabled(s, Event(t, Pop))
    ensures Apply(s, Event(t, Pop)) == (if s.duties[t].owner.Ec2? then s.(external := s.external - {op}, duties := s.duties - {t})
                                        else s.(managed := s.managed - {op}, duties := s.duties - {t}))
  {
  }

  lemma TrackFacts(s: Sys, t: Tid, op: Op, entry: Entry)
    requires t in s.duties && s.duties[t].Registered? && s.duties[t].op == op && MayTouch(s, t, s.duties[t].owner)
    ensures Enabled(s, Event(t, Track(entry)))
    ensures var s' := s.(tracked := s.tracked + {op}, duties := s.duties - {t});
      Apply(s, Event(t, Track(entry))) == (if s.duties[t].owner.Ec2? then s'.(external := s.external[op := entry])
                                           else s'.(managed := s.managed[op := entry]))
  {
  }

  class Ec2Service {
    const host: SessionHost
    const runner: ManagedSsmSessionRunner
    ghost var stops: seq<StopRecord>   // what its stops came back with

    constructor (runner: ManagedSsmSessionRunner)
      ensures this.runner == runner && this.host == runner.host
    {
      this.runner, this.host, this.stops := runner, runner.host, [];
    }

    ghost predicate Idle(t: Tid)
      reads this, host
    {
      host.Consistent() && t !in host.sys.duties && runner.host == host && host.sys.tunnelLock != Some(t)
    }

    /**
      On success the runner owns the session and this service tracks it; on failure nothing is kept.  Which of the
      two it is follows from what the calls of the start come back with.
     */
    method ConnectExternal(t: Tid, op: Op, session: Sid, profile: Profile, a: StartAnswers) returns (r: Result<ManagedSession, Raised>)
      requires Idle(t) && op !in host.sys.sessions && session !in host.sys.sessions.Values
      modifies host, runner.plugin
      ensures Idle(t) && r == a.Answer(op, runner.AnswerFor(session, true)) && (op in host.sys.sessions <==> a.NotStarted().None?)
      ensures r.Ok? ==> op in host.owned && op in host.external && host.external[op] == Session(profile)
      ensures r.Err? ==> op !in host.owned
      ensures r.Err? && op in host.sys.sessions ==> host.attempts[host.sys.sessions[op]] == 1
    {
      hide Inv, IsRun, After, Forward, Undisturbed, Enabled, Apply, Did, SessionHost.Answered, Kept;
      var note;
      ghost var reclaimed;
      r, note, reclaimed := runner.Start(t, op, Ec2, session, a);
      if r.Err? { return; }
      ghost var s0 := host.sys;
      host.DutyFacts(t);
      host.Interfere(t);
      UndisturbedDuty(s0, host.sys, t);
      UndisturbedParts(s0, host.sys, t);
      TrackFacts(host.sys, t, op, Session(profile));
      host.external := host.external[op := Session(profile)];
      host.Commit(Event(t, Track(Session(profile))));
    }

    /** The way out of every ended session: thread t, which knows op has ended, takes it off the table. */
    method Untrack(t: Tid, op: Op) returns (removed: Option<Entry>)
      requires host.Consistent() && t in host.sys.duties && host.sys.duties[t] == Popping(op, Ec2)
      requires runner.host == host && op !in host.managed && host.sys.tunnelLock != Some(t)
      modifies host
      ensures Idle(t) && Gone(host.sys, op) && Forward(old(host.sys), host.sys)
      ensures Did(old(host.trace), host.trace, t, {}) && host.Keeps(old(host.answers), old(host.clock))
    {
      hide Inv, IsRun, After, Forward, Gone, Undisturbed, Enabled, Apply, Did, MayTouch, SessionHost.Answered, Kept;
      ghost var start, t0 := host.sys, host.trace;
      host.DutyFacts(t);
      TablesAreTracked(host.sys);
      host.Interfere(t);
      ghost var before, t1 := host.sys, host.trace;
      UndisturbedDuty(start, before, t);
      UndisturbedParts(start, before, t);
      host.DutyFacts(t);
      ForwardOp(start, before, op);
      PopFacts(before, t, op);
      removed := if op in host.external then Some(host.external[op]) else None;
      host.external := host.external - {op};
      host.Commit(Event(t, Pop));
      DidPop(t0, t1, t);
      ForwardTrans(start, before, host.sys);
      GoneOnceUntracked(host.sys, op);
    }

    /**
      `reap_external_sessions`: every session tracked at the start is reported, and one reported as
      anything but running has been ended once and is tracked no longer.
     */
    method Reap(t: Tid) returns (reports: seq<Report>, ghost made: seq<seq<P.Call>>)
      requires Idle(t)
      modifies host, runner.plugin
      ensures Idle(t) && Did(old(host.trace), host.trace, t, old(host.external).Keys)
      ensures OpsOf(reports) == old(host.external).Keys && |reports| == |old(host.external)|
      ensures ProfilesFrom(reports, old(host.external))
      ensures AllGone(host.sys, EndedIn(reports)) && Forward(old(host.sys), host.sys)
      ensures Witnessed(host.sys.sessions, host.answers, Ec2, old(host.external), old(runner.plugin.calls), runner.plugin.calls, reports, made)
    {
      hide Inv, IsRun, After, Forward, Gone, AllGone, EndedIn, Did, ProfilesFrom, OpsOf, Listing, Witnessed, ReportBacked,
        SessionHost.Answered, Kept;
      reports, made := [], [];
      ghost var start := host.sys;
      TablesAreTracked(start);
      TablesAreDisjoint(start);
      ForwardItself(start);
      DidNothing(host.trace, t, start.external.Keys);
      var metadata := host.external;
      var sessions := Items(metadata.Keys);
      NothingNamed(sessions);
      hide Apply, Enabled, Named;
      NoProfiles(metadata);
      NoneGoneYet(start);
      NothingWitnessed(start.sessions, host.answers, Ec2, start.external, runner.plugin.calls);
      for k := 0 to |sessions|
        invariant Idle(t) && Forward(start, host.sys) && Did(old(host.trace), host.trace, t, start.external.Keys)
        invariant |reports| == k && Named(reports, sessions)
        invariant ProfilesFrom(reports, metadata)
        invariant AllGone(host.sys, EndedIn(reports))
        invariant Witnessed(host.sys.sessions, host.answers, Ec2, start.external, old(runner.plugin.calls), runner.plugin.calls, reports, made)
      {
        ghost var before, told, answers, calls := host.sys, host.trace, host.answers, runner.plugin.calls;
        NotYetEnded(reports, sessions, metadata.Keys, k);
        var report;
        ghost var more;
        report, more := ReapOne(t, sessions[k], metadata[sessions[k]].profile, start);
        DidBoth(old(host.trace), told, host.trace, t, start.external.Keys, {sessions[k]}, start.external.Keys);
        GoneUpToNow(before, host.sys, reports, report);
        OneMoreWitnessed(before, host.sys, answers, host.answers, Ec2, start.external, old(runner.plugin.calls), calls, reports, made, report, more);
        ForwardTrans(start, before, host.sys);
        OneMoreProfile(reports, metadata, report);
        OneMoreNamed(reports, sessions, report);
        made := made + [more];
        reports := reports + [report];
      }
      AllNamed(reports, sessions, metadata.Keys);
    }

    method ReapOne(t: Tid, op: Op, profile: Profile, ghost start: Sys) returns (report: Report, ghost made: seq<P.Call>)
      requires Idle(t) && Forward(start, host.sys) && Inv(start) && op in start.external
      modifies host, runner.plugin
      ensures Idle(t) && Forward(old(host.sys), host.sys) && Did(old(host.trace), host.trace, t, {op})
      ensures report.op == op && report.profile == profile && (!report.state.Running? ==> Gone(host.sys, op))
      ensures ReportBacked(host.sys.sessions, host.answers, Ec2, start.external, report, made)
      ensures runner.plugin.calls == old(runner.plugin.calls) + made && Kept(old(host.answers), host.answers)
    {
      hide PollBacked, Polled, StatusAnswer, IsPoll, Inv, IsRun, After, Forward, Gone, Did, Undisturbed, SessionHost.Answered, Kept;
      ghost var s0, t0 := host.sys, host.trace;
      TablesAreTracked(start);
      TablesAreDisjoint(start);
      TablesAreTracked(s0);
      host.Interfere(t);
      UndisturbedParts(s0, host.sys, t);
      ghost var s1, t1, a1 := host.sys, host.trace, host.answers;
      ForwardTrans(start, s0, s1);
      ForwardOp(start, s1, op);
      TablesAreTracked(s1);
      if op in host.owned {
        host.OwnedIsLive(op);
        EntryTerminal(s1, Ec2, op);
      }
      ghost var entry := if op in host.owned then Some(host.owned[op]) else None;
      var polled;
      polled, made := runner.Status(t, op, Ec2);
      ghost var s2, t2, a2 := host.sys, host.trace, host.answers;
      KeptTrans(old(host.answers), a1, a2);
      ForwardTrans(s0, s1, s2);
      DidBoth(t0, t1, t2, t, {}, {op}, {op});
      if polled.Ok? && polled.value.state.Running? {
        report := Report(op, profile, Running, None, 0);
        PollIsBacked(host.sys.sessions, host.answers, Ec2, report, made, entry.value.process, None);
        return;
      }
      var removed := Untrack(t, op);
      KeptTrans(old(host.answers), a2, host.answers);
      TablesAreTracked(s0);
      ForwardTrans(s0, s2, host.sys);
      DidBoth(t0, t2, host.trace, t, {op}, {}, {op});
      report := if polled.Ok? then Report(op, profile, polled.value.state, polled.value.error, 0)
                else Report(op, profile, Failed, Some(polled.error), 0);
      if polled.Ok? {
        SessionStays(s2, host.sys, op);
        KeptAnswer(a2, host.answers, entry.value.session);
        PollIsBacked(host.sys.sessions, host.answers, Ec2, report, made, entry.value.process, host.answers[entry.value.session]);
      } else {
        NotOwnedIsBacked(host.sys.sessions, host.answers, Ec2, report);
      }
    }

    /**
      `stop_external`; `refusal` is what cancellation or the caller's observer raises before the stop.  A
      handle is what the runner makes of the calls `made` and of the answer of EndSession.
     */
    method StopExternal(t: Tid, op: Op, refusal: Option<Raised>) returns (r: Result<ManagedSession, Raised>, ghost made: seq<P.Call>)
      requires Idle(t)
      modifies this`stops, host, runner.plugin
      ensures Idle(t) && Forward(old(host.sys), host.sys) && Did(old(host.trace), host.trace, t, {op})
      ensures stops == old(stops) + [StopRecord(op, made, r)] && runner.plugin.calls == old(runner.plugin.calls) + made
      ensures op !in old(host.external) ==> r == Err(Application(NOT_TRACKED)) && host.sys == old(host.sys)
      ensures op in old(host.external) && refusal.Some? ==> r == Err(refusal.value) && host.sys == old(host.sys)
      ensures op in old(host.external) && refusal.None? ==> Gone(host.sys, op) && (r.Err? ==> r.error == Application(NOT_OWNED))
      ensures r.Ok? ==> Stopped(host.sys.sessions, host.answers, op, made) && r.value == Handle(host.sys.sessions, host.answers, op, made)
      ensures refusal.None? ==> Backed(host.sys.sessions, host.answers, StopRecord(op, made, r))
      ensures r.Ok? ==> r.value.op == op && !r.value.state.Running?
      ensures Kept(old(host.answers), host.answers)
    {
      hide Inv, IsRun, After, Forward, Gone, Did, Undisturbed, StopAnswer, IsManagedStop, SessionHost.Answered,
        Stopped, Handle, Raising;
      made := [];
      ghost var s0, t0 := host.sys, host.trace;
      ForwardItself(s0);
      DidNothing(t0, t, {op});
      if op !in host.external || refusal.Some? {
        r := Err(if op !in host.external then Application(NOT_TRACKED) else refusal.value);
        stops := stops + [StopRecord(op, made, r)];
        return;
      }
      TablesAreTracked(s0);
      TablesAreDisjoint(s0);
      host.Interfere(t);
      ghost var s1, t1 := host.sys, host.trace;
      UndisturbedParts(s0, s1, t);
      ForwardOp(s0, s1, op);
      if op in host.owned { host.OwnedIsLive(op); }
      ghost var entry := if op in host.owned then Some(host.owned[op]) else None;
      var stopped;
      stopped, made := runner.Stop(t, op, Ec2);
      ghost var s2, t2, answers := host.sys, host.trace, host.answers;
      TablesAreTracked(s1);
      ForwardTrans(s0, s1, s2);
      DidBoth(t0, t1, t2, t, {}, {op}, {op});
      var removed := Untrack(t, op);
      if stopped.Ok? {
        SessionStays(s2, host.sys, op);
        assert host.answers[entry.value.session] == answers[entry.value.session];
        StoppedNow(host.sys.sessions, host.answers, op, entry.value.process, made);
      }
      ForwardTrans(s0, s2, host.sys);
      DidBoth(t0, t2, host.trace, t, {op}, {}, {op});
      r := if stopped.Ok? then Ok(stopped.value) else Err(Application(stopped.error));
      stops := stops + [StopRecord(op, made, r)];
    }

    /**
      `stop_external_for_profile`: whatever fails, every session of the profile tracked at the start is
      gone, other profiles' sessions are not touched, and the earliest failure is raised.
     */
    method StopExternalForProfile(t: Tid, profile: Profile) returns (r: Result<seq<ManagedSession>, Raised>)
      requires Idle(t)
      modifies this`stops, host, runner.plugin
      ensures Idle(t) && Did(old(host.trace), host.trace, t, Matching(old(host.external), Some(profile)))
      ensures Forward(old(host.sys), host.sys)
      ensures AllGone(host.sys, Matching(old(host.external), Some(profile)))
      ensures Summed(old(stops), stops, Matching(old(host.external), Some(profile)), r)
      ensures Accounted(host.sys.sessions, host.answers, old(runner.plugin.calls), runner.plugin.calls, old(stops), stops)
      ensures Kept(old(host.answers), host.answers)
    {
      hide Inv, IsRun, After, Forward, Gone, AllGone, Did, Collected, Summed, Listing, UpTo, SessionHost.Answered,
        Kept, Backed, Accounted;
      ghost var start, all, before, answers := host.sys, Matching(host.external, Some(profile)), stops, host.answers;
      NothingAccounted(start.sessions, answers, runner.plugin.calls, before);
      KeptItself(answers);
      var stopped: seq<ManagedSession> := [];
      var firstError: Option<Raised> := None;
      TablesAreTracked(start);
      TablesAreDisjoint(start);
      ForwardItself(start);
      DidNothing(host.trace, t, all);
      NothingCollected(before);
      ghost var done: set<Op> := {};
      NothingIsGone(start, done);
      var ops := Items(Matching(host.external, Some(profile)));
      NothingDone(ops);
      assert all <= start.external.Keys;
      hide Matching, Matches;
      for k := 0 to |ops|
        invariant Idle(t) && Forward(start, host.sys) && Did(old(host.trace), host.trace, t, all)
        invariant AllGone(host.sys, done) && UpTo(done, ops, k)
        invariant Collected(before, stops, ops[..k], firstError, stopped) && Kept(answers, host.answers)
        invariant Accounted(host.sys.sessions, host.answers, old(runner.plugin.calls), runner.plugin.calls, before, stops)
      {
        ghost var s1, told, records, answers1, calls := host.sys, host.trace, stops, host.answers, runner.plugin.calls;
        OneMoreDone(done, ops, all, k);
        var one;
        ghost var made;
        one, made := StopExternal(t, ops[k], None);
        DidBoth(old(host.trace), told, host.trace, t, all, {ops[k]}, all);
        ForwardTrans(start, s1, host.sys);
        ForwardOp(start, host.sys, ops[k]);
        if ops[k] !in s1.external { GoneOnceUntracked(host.sys, ops[k]); }
        AllGoneStay(s1, host.sys, done);
        OneMoreGone(host.sys, done, ops[k]);
        OneMoreCollected(before, records, ops[..k], firstError, stopped, StopRecord(ops[k], made, one));
        OneMoreAccounted(s1, host.sys, answers1, host.answers, old(runner.plugin.calls), calls, before, records, StopRecord(ops[k], made, one));
        KeptTrans(answers, answers1, host.answers);
        done := done + {ops[k]};
        match one {
          case Ok(handle) =>
            stopped := stopped + [handle];
            if handle.error.Some? && firstError.None? { firstError := Some(Application(handle.error.value)); }
          case Err(raised) =>
            if firstError.None? { firstError := Some(raised); }
        }
      }
      AllDone(done, ops, all);
      AllCollected(before, stops, ops, all, firstError, stopped);
      r := if firstError.Some? then Err(firstError.value) else Ok(stopped);
    }
  }

  lemma NothingIsGone(s: Sys, ops: set<Op>)
    requires ops == {}
    ensures AllGone(s, ops)
  {
  }

  lemma EntryTerminal(s: Sys, owner: Owner, op: Op)
    requires Inv(s) && op in Table(s, owner) && op in s.owned
    ensures s.owned[op].externalTerminal == owner.Ec2?
  {
    assert EntryOk(s, owner, op);
  }

  lemma SameEntry(sessions: map<Op, Sid>, answers: map<Sid, Option<string>>, table: map<Op, Entry>, before: map<Op, Entry>, r: Report, made: seq<P.Call>)
    requires ReportBacked(sessions, answers, Rds, table, r, made) && r.op in before && before[r.op] == table[r.op]
    ensures ReportBacked(sessions, answers, Rds, before, r, made)
  {
  }

  lemma UndisturbedDuty(s: Sys, s': Sys, t: Tid)
    requires Undisturbed(s, s', t) && t in s.duties
    ensures t in s'.duties && s'.duties[t] == s.duties[t]
    ensures s.duties[t].Registered? && s.duties[t].op in s.owned ==> s.duties[t].op in s'.owned
  {
  }

  lemma AcquireForward(s: Sys, s': Sys, t: Tid)
    requires Undisturbed(s, s'.(tunnelLock := None), t)
    ensures Forward(s, s') && (t in s.duties <==> t in s'.duties)
  {
  }

  /** Step `at` of the run was thread t taking the tunnel lock, and found this table. */
  ghost predicate TableAt(trace: seq<Event>, at: nat, t: Tid, table: map<Op, Entry>) {
    && at < |trace| && trace[at] == Event(t, LockTunnels)
    && IsRun(START, trace[..at]) && After(START, trace[..at]).managed == table
  }

  lemma LockFound(s: Sys, trace: seq<Event>, t: Tid)
    requires IsRun(START, trace) && After(START, trace) == s
    ensures TableAt(trace + [Event(t, LockTunnels)], |trace|, t, s.managed)
    ensures Did(trace, trace + [Event(t, LockTunnels)], t, {})
  {
    assert (trace + [Event(t, LockTunnels)])[..|trace|] == trace;
  }

  lemma TableAtStays(trace: seq<Event>, longer: seq<Event>, at: nat, t: Tid, table: map<Op, Entry>, ops: set<Op>)
    requires TableAt(trace, at, t, table) && Did(trace, longer, t, ops)
    ensures TableAt(longer, at, t, table)
  {
    assert longer[..at] == trace[..at];
  }

  /** The clock readings of the reports were taken between these two, in the order of the reports. */
  predicate InOrder(reports: seq<Report>, from: int, to: int) {
    && (forall i | 0 <= i < |reports| :: from <= reports[i].checkedAt <= to)
    && (forall i, j | 0 <= i < j < |reports| :: reports[i].checkedAt <= reports[j].checkedAt)
  }

  lemma NothingInOrder(now: int)
    ensures InOrder([], now, now)
  {
  }

  lemma OneMoreInOrder(reports: seq<Report>, from: int, to: int, r: Report, now: int)
    requires InOrder(reports, from, to) && from <= to <= r.checkedAt <= now
    ensures InOrder(reports + [r], from, now)
  {
  }

  lemma Earlier(reports: seq<Report>, earlier: int, from: int, to: int)
    requires InOrder(reports, from, to) && earlier <= from
    ensures InOrder(reports, earlier, to)
  {
  }

  /** Under the tunnel lock, and between two steps of a call, every tunnel in the table is owned. */
  lemma LockedTableIsOwned(host: SessionHost, t: Tid)
    requires host.Consistent() && host.sys.tunnelLock == Some(t) && t !in host.sys.duties
    ensures forall op | op in host.managed :: op in host.owned
  {
    forall op | op in host.managed ensures op in host.owned {
      assert EntryOk(host.sys, Rds, op);
      forall u | u in host.sys.duties ensures host.sys.duties[u] != Popping(op, Rds) {
        assert DutyOk(host.sys, u);
      }
    }
  }

  class RdsTunnelService {
    const host: SessionHost
    const runner: ManagedSsmSessionRunner
    ghost var stops: seq<StopRecord>   // what its stops came back with

    constructor (runner: ManagedSsmSessionRunner)
      ensures this.runner == runner && this.host == runner.host
    {
      this.runner, this.host, this.stops := runner, runner.host, [];
    }

    ghost predicate Idle(t: Tid)
      reads this, host
    {
      host.Consistent() && t !in host.sys.duties && runner.host == host && host.sys.tunnelLock != Some(t)
    }

    ghost predicate Locked(t: Tid)
      reads this, host
    {
      host.Consistent() && t !in host.sys.duties && runner.host == host && host.sys.tunnelLock == Some(t)
    }

    /** Waits for the lock: whoever holds it finishes its region first. */
    method Acquire(t: Tid)
      requires host.Consistent() && host.sys.tunnelLock != Some(t)
      modifies host
      ensures host.Consistent() && host.sys.tunnelLock == Some(t)
      ensures Undisturbed(old(host.sys), host.sys.(tunnelLock := None), t) && Did(old(host.trace), host.trace, t, {})
      ensures t in host.sys.duties <==> t in old(host.sys.duties)
      ensures host.Keeps(old(host.answers), old(host.clock))
      ensures |old(host.trace)| < |host.trace| && TableAt(host.trace, |host.trace| - 1, t, host.managed)
    {
      hide Inv, IsRun, After, Forward, Undisturbed, Enabled, Apply, Did, TableAt, SessionHost.Answered;
      ghost var s0, t0 := host.sys, host.trace;
      TablesAreTracked(s0);
      host.Interfere(t);
      UndisturbedParts(s0, host.sys, t);
      ghost var t1 := host.trace;
      DidNothing(t1, t, {});
      if host.sys.tunnelLock.Some? { LetHolderFinish(t, host.sys.tunnelLock.value, s0); }
      ghost var t2 := host.trace;
      LockFacts(host.sys, t);
      LockFound(host.sys, t2, t);
      assert host.sys.(tunnelLock := Some(t)).(tunnelLock := None) == host.sys;
      host.Commit(Event(t, LockTunnels));
      AcquireForward(s0, host.sys, t);
      DidBoth(t0, t1, t2, t, {}, {}, {});
      DidBoth(t0, t2, host.trace, t, {}, {}, {});
    }

    method LetHolderFinish(t: Tid, u: Tid, ghost s0: Sys)
      requires host.Consistent() && host.sys.tunnelLock == Some(u) && u != t
      requires Undisturbed(s0, host.sys, t) && s0.external.Keys + s0.managed.Keys <= s0.tracked
      modifies host
      ensures host.Consistent() && host.sys.tunnelLock.None? && Undisturbed(s0, host.sys, t)
      ensures Did(old(host.trace), host.trace, t, {}) && host.Keeps(old(host.answers), old(host.clock))
    {
      hide Inv, IsRun, After, Forward, Undisturbed;
      if u in host.sys.duties && host.sys.duties[u].Popping? {
        LetFinish(t, Event(u, Pop), s0);
      }
      LetFinish(t, Event(u, UnlockTunnels), s0);
    }

    method LetFinish(t: Tid, e: Event, ghost s0: Sys)
      requires host.Consistent() && Enabled(host.sys, e) && e.t != t
      requires Undisturbed(s0, host.sys, t) && s0.external.Keys + s0.managed.Keys <= s0.tracked
      modifies host
      ensures host.Consistent() && host.sys == Apply(old(host.sys), e) && Undisturbed(s0, host.sys, t)
      ensures host.trace == old(host.trace) + [e] && host.Keeps(old(host.answers), old(host.clock))
    {
      hide Inv, IsRun, After, Forward, Undisturbed, Apply, Enabled;
      ghost var before := host.sys;
      OtherThreadStep(before, e, t);
      host.Take(e);
      UndisturbedTrans(s0, before, host.sys, t);
    }

    method Release(t: Tid)
      requires Locked(t)
      modifies host
      ensures Idle(t) && Forward(old(host.sys), host.sys) && host.managed == old(host.managed) && host.owned == old(host.owned)
      ensures host.sys.sessions == old(host.sys.sessions)
      ensures Did(old(host.trace), host.trace, t, {}) && host.clock == old(host.clock) && host.answers == old(host.answers)
    {
      hide Inv, IsRun, After, Forward;
      host.Commit(Event(t, UnlockTunnels));
    }

    /**
      `start_managed`.  However it ends, the tunnel is owned exactly if it is in the table, and it is exactly if
      the start succeeded; a session whose start failed has been ended once.  `unstored` is what `touch_tunnel`
      raises: then the tunnel keeps running and stays listed.
     */
    method StartManaged(
      t: Tid, op: Op, session: Sid, profile: Profile, connectedAt: int, duration: nat, a: StartAnswers, unstored: Option<Raised>)
      returns (r: Result<ManagedSession, Raised>)
      requires Idle(t) && op !in host.sys.sessions && session !in host.sys.sessions.Values
      modifies host, runner.plugin
      ensures Idle(t) && (op in host.owned <==> op in host.managed)
      ensures var started := a.Answer(op, runner.AnswerFor(session, true));
        && (started.Err? ==> r == started && op !in host.owned)
        && (started.Ok? ==> (op in host.sys.sessions) && r == if unstored.Some? then Err(unstored.value) else started)
      ensures r.Ok? ==> op in host.managed && host.managed[op] == Tunnel(profile, connectedAt + duration)
      ensures op !in host.owned && op in host.sys.sessions ==> host.attempts[host.sys.sessions[op]] == 1
    {
      hide Inv, IsRun, After, Forward, Undisturbed, Enabled, Apply, Did, TableAt, SessionHost.Answered, Kept;
      var note;
      ghost var reclaimed;
      r, note, reclaimed := runner.Start(t, op, Rds, session, a);
      if r.Err? {
        TablesAreTracked(host.sys);
        return;
      }
      ghost var s0 := host.sys;
      host.DutyFacts(t);
      Acquire(t);
      UndisturbedDuty(s0, host.sys.(tunnelLock := None), t);
      host.OwnedIsLive(op);
      var entry := Tunnel(profile, connectedAt + duration);
      TrackFacts(host.sys, t, op, entry);
      host.managed := host.managed[op := entry];
      host.Commit(Event(t, Track(entry)));
      Release(t);
      if unstored.Some? { r := Err(unstored.value); }
    }

    /** `stop` once it has the lock; `made` are the calls it made on the process. */
    method StopLocked(t: Tid, op: Op, refusal: Option<Raised>) returns (r: Result<ManagedSession, Raised>, ghost made: seq<P.Call>)
      requires Locked(t)
      modifies this`stops, host, runner.plugin
      ensures Locked(t) && Forward(old(host.sys), host.sys) && Did(old(host.trace), host.trace, t, {op})
      ensures host.Keeps(old(host.answers), old(host.clock))
      ensures stops == old(stops) + [StopRecord(op, made, r)] && runner.plugin.calls == old(runner.plugin.calls) + made
      ensures op !in old(host.managed) ==> r == Err(Application(TUNNEL_NOT_FOUND)) && host.sys == old(host.sys)
      ensures op in old(host.managed) && refusal.Some? ==> r == Err(refusal.value) && host.sys == old(host.sys)
      ensures op in old(host.managed) && refusal.None? ==> Gone(host.sys, op) && host.managed == old(host.managed) - {op}
      ensures op in old(host.managed) && refusal.None? ==>
        Stopped(host.sys.sessions, host.answers, op, made) && r == Raising(Handle(host.sys.sessions, host.answers, op, made))
      ensures refusal.None? ==> Backed(host.sys.sessions, host.answers, StopRecord(op, made, r))
      ensures r.Ok? ==> r.value.op == op && !r.value.state.Running? && r.value.error.None?
    {
      hide Inv, IsRun, After, Forward, Gone, Did, Undisturbed, StopAnswer, IsManagedStop, SessionHost.Answered;
      made := [];
      ForwardItself(host.sys);
      DidNothing(host.trace, t, {op});
      if op !in host.managed || refusal.Some? {
        r := Err(if op !in host.managed then Application(TUNNEL_NOT_FOUND) else refusal.value);
        stops := stops + [StopRecord(op, made, r)];
        return;
      }
      ghost var s0, t0 := host.sys, host.trace;
      TablesAreTracked(s0);
      TablesAreDisjoint(s0);
      LockedTableIsOwned(host, t);
      host.OwnedIsLive(op);
      ghost var entry := host.owned[op];
      var stopped;
      stopped, made := runner.Stop(t, op, Rds);
      ghost var s1, t1, answers := host.sys, host.trace, host.answers;
      Untrack(t, op);
      SessionStays(s1, host.sys, op);
      assert host.answers[entry.session] == answers[entry.session];
      StoppedNow(host.sys.sessions, host.answers, op, entry.process, made);
      ForwardTrans(s0, s1, host.sys);
      DidBoth(t0, t1, host.trace, t, {op}, {}, {op});
      r := if stopped.value.error.Some? then Err(Application(stopped.value.error.value)) else Ok(stopped.value);
      stops := stops + [StopRecord(op, made, r)];
    }

    method Untrack(t: Tid, op: Op)
      requires host.Consistent() && t in host.sys.duties && host.sys.duties[t] == Popping(op, Rds)
      requires runner.host == host && host.sys.tunnelLock == Some(t) && op !in host.external
      modifies host
      ensures Locked(t) && Gone(host.sys, op) && Forward(old(host.sys), host.sys)
      ensures host.managed == old(host.managed) - {op} && Did(old(host.trace), host.trace, t, {})
      ensures host.Keeps(old(host.answers), old(host.clock))
    {
      hide Inv, IsRun, After, Forward, Gone, Undisturbed, Enabled, Apply, Did, MayTouch, SessionHost.Answered, Kept;
      ghost var start, t0 := host.sys, host.trace;
      host.DutyFacts(t);
      TablesAreTracked(start);
      host.Interfere(t);
      ghost var before, t1 := host.sys, host.trace;
      UndisturbedDuty(start, before, t);
      UndisturbedParts(start, before, t);
      host.DutyFacts(t);
      ForwardOp(start, before, op);
      PopFacts(before, t, op);
      host.managed := host.managed - {op};
      host.Commit(Event(t, Pop));
      DidPop(t0, t1, t);
      ForwardTrans(start, before, host.sys);
      GoneOnceUntracked(host.sys, op);
    }

    /** `stop`: a tunnel listed when the call began is gone afterwards, unless the caller's context refused. */
    method Stop(t: Tid, op: Op, refusal: Option<Raised>) returns (r: Result<ManagedSession, Raised>, ghost made: seq<P.Call>)
      requires Idle(t)
      modifies this`stops, host, runner.plugin
      ensures Idle(t) && Did(old(host.trace), host.trace, t, {op})
      ensures stops == old(stops) + [StopRecord(op, made, r)] && runner.plugin.calls == old(runner.plugin.calls) + made
      ensures refusal.None? ==> Backed(host.sys.sessions, host.answers, StopRecord(op, made, r))
      ensures op in old(host.managed) && refusal.None? ==> Gone(host.sys, op)
      ensures r.Ok? ==> Gone(host.sys, op) && r.value.op == op && !r.value.state.Running? && r.value.error.None?
    {
      hide Inv, IsRun, After, Forward, Gone, Did, Undisturbed, SessionHost.Answered, Kept, Backed, Stopped, Handle;
      ghost var s0, t0 := host.sys, host.trace;
      TablesAreTracked(s0);
      TablesAreDisjoint(s0);
      Acquire(t);
      AcquireForward(s0, host.sys, t);
      ghost var s1, t1 := host.sys, host.trace;
      r, made := StopLocked(t, op, refusal);
      ForwardTrans(s0, s1, host.sys);
      DidBoth(t0, t1, host.trace, t, {}, {op}, {op});
      if op in s0.managed && op !in s1.managed {
        ForwardOp(s0, s1, op);
        GoneOnceUntracked(s1, op);
      }
      ghost var s2, t2, answers := host.sys, host.trace, host.answers;
      Release(t);
      KeptItself(answers);
      if refusal.None? { BackedStays(s2, host.sys, answers, host.answers, StopRecord(op, made, r)); }
      DidBoth(t0, t2, host.trace, t, {op}, {}, {op});
      if Gone(s2, op) { GoneStays(s2, host.sys, op); }
    }

    /** One round of the loop of `active_tunnels`: an expired tunnel is stopped, any other is polled. */
    method CheckOne(t: Tid, op: Op) returns (report: Report, ghost made: seq<P.Call>)
      requires Locked(t) && op in host.managed
      modifies this`stops, host, runner.plugin
      ensures Locked(t) && Forward(old(host.sys), host.sys) && Did(old(host.trace), host.trace, t, {op})
      ensures host.Keeps(old(host.answers), old(host.clock)) && old(host.clock) <= report.checkedAt <= host.clock
      ensures ReportBacked(host.sys.sessions, host.answers, Rds, old(host.managed), report, made)
      ensures runner.plugin.calls == old(runner.plugin.calls) + made
      ensures report.op == op && report.profile == old(host.managed)[op].profile
      ensures var entry := old(host.managed)[op];
        if entry.Tunnel? && entry.expiresAt <= report.checkedAt then |stops| == |old(stops)| + 1 else stops == old(stops)
      ensures report.state.Running? ==>
        !Due(old(host.managed)[op], report.checkedAt) && op in host.owned && host.managed == old(host.managed) && stops == old(stops)
      ensures !report.state.Running? ==> Gone(host.sys, op) && host.managed == old(host.managed) - {op}
    {
      hide PollBacked, Polled, StatusAnswer, IsPoll;
      hide Inv, IsRun, After, Forward, Gone, Did, Undisturbed, SessionHost.Answered;
      var now := host.Now();
      var profile := host.managed[op].profile;
      if Due(host.managed[op], now) {
        var handle;
        handle, made := StopLocked(t, op, None);
        report := if handle.Ok? then Report(op, profile, handle.value.state, None, now)
                  else Report(op, profile, Failed, if handle.error.Application? then Some(handle.error.error) else None, now);
        return;
      }
      ghost var s0, t0 := host.sys, host.trace;
      TablesAreTracked(s0);
      TablesAreDisjoint(s0);
      if op in host.owned {
        host.OwnedIsLive(op);
        EntryTerminal(s0, Rds, op);
      }
      ghost var entry := if op in host.owned then Some(host.owned[op]) else None;
      var polled;
      polled, made := runner.Status(t, op, Rds);
      if polled.Ok? && polled.value.state.Running? {
        report := Report(op, profile, Running, None, now);
        PollIsBacked(host.sys.sessions, host.answers, Rds, report, made, entry.value.process, None);
        return;
      }
      ghost var s1, t1, answers := host.sys, host.trace, host.answers;
      Untrack(t, op);
      ForwardTrans(s0, s1, host.sys);
      DidBoth(t0, t1, host.trace, t, {op}, {}, {op});
      report := if polled.Ok? then Report(op, profile, polled.value.state, polled.value.error, now)
                else Report(op, profile, Failed, Some(polled.error), now);
      if polled.Ok? {
        SessionStays(s1, host.sys, op);
        KeptAnswer(answers, host.answers, entry.value.session);
        PollIsBacked(host.sys.sessions, host.answers, Rds, report, made, entry.value.process, host.answers[entry.value.session]);
      } else {
        NotOwnedIsBacked(host.sys.sessions, host.answers, Rds, report);
      }
    }

    /**
      `active_tunnels`.  `before` is the table when step `at` of the run took the lock.  Every matching tunnel
      is reported; the table loses exactly the ones reported as ended, which are gone; the others were not due
      when they were checked, at clock readings taken during the call and in the order of the reports.
     */
    method ActiveTunnels(t: Tid, profile: Option<Profile>) 
      returns (reports: seq<Report>, ghost made: seq<seq<P.Call>>, ghost at: nat, ghost before: map<Op, Entry>)
      requires Idle(t)
      modifies this`stops, host, runner.plugin
      ensures Idle(t) && Did(old(host.trace), host.trace, t, Matching(before, profile)) && Forward(old(host.sys), host.sys)
      ensures |old(host.trace)| <= at && TableAt(host.trace, at, t, before)
      ensures ProfilesFrom(reports, before)
      ensures OpsOf(reports) == Matching(before, profile) && |reports| == |Matching(before, profile)|
      ensures Checked(before, host.managed, host.sys, reports)
      ensures InOrder(reports, old(host.clock), host.clock)
      ensures Witnessed(host.sys.sessions, host.answers, Rds, before, old(runner.plugin.calls), runner.plugin.calls, reports, made)
      ensures Kept(old(host.answers), host.answers)
    {
      hide Witnessed, Kept, Inv, IsRun, After, Forward, Gone, Checked, InOrder, Did, Undisturbed, SessionHost.Answered;
      ghost var s0, t0 := host.sys, host.trace;
      TablesAreTracked(s0);
      Acquire(t);
      AcquireForward(s0, host.sys, t);
      ghost var s1, t1, c1, a1 := host.sys, host.trace, host.clock, host.answers;
      at, before := |host.trace| - 1, host.managed;
      ghost var all := Matching(before, profile);
      reports, made := CheckAll(t, profile);
      KeptTrans(old(host.answers), a1, host.answers);
      ghost var s2, t2 := host.sys, host.trace;
      Release(t);
      DidBoth(t1, t2, host.trace, t, all, {}, all);
      DidBoth(t0, t1, host.trace, t, {}, all, all);
      KeptItself(host.answers);
      WitnessedStays(s2, host.sys, host.answers, host.answers, Rds, before, old(runner.plugin.calls), runner.plugin.calls, reports, made);
      CheckedStays(before, host.managed, s2, host.sys, reports);
      ForwardTrans(s0, s1, s2);
      ForwardTrans(s0, s2, host.sys);
      TableAtStays(t1, host.trace, at, t, before, all);
      Earlier(reports, old(host.clock), c1, host.clock);
    }

    method CheckAll(t: Tid, profile: Option<Profile>) returns (reports: seq<Report>, ghost made: seq<seq<P.Call>>)
      requires Locked(t)
      modifies this`stops, host, runner.plugin
      ensures Locked(t) && Did(old(host.trace), host.trace, t, Matching(old(host.managed), profile)) && Forward(old(host.sys), host.sys)
      ensures ProfilesFrom(reports, old(host.managed))
      ensures OpsOf(reports) == Matching(old(host.managed), profile) && |reports| == |Matching(old(host.managed), profile)|
      ensures Checked(old(host.managed), host.managed, host.sys, reports)
      ensures InOrder(reports, old(host.clock), host.clock)
      ensures Witnessed(host.sys.sessions, host.answers, Rds, old(host.managed), old(runner.plugin.calls), runner.plugin.calls, reports, made)
      ensures Kept(old(host.answers), host.answers)
    {
      hide Inv, IsRun, After, Forward, Gone, Checked, InOrder, Did, Undisturbed, Due, SessionHost.Answered;
      ghost var s0, t0, before, all := host.sys, host.trace, host.managed, Matching(host.managed, profile);
      TablesAreTracked(s0);
      ForwardItself(s0);
      DidNothing(t0, t, all);
      var ops := Items(Matching(host.managed, profile));
      reports, made := [], [];
      assert all <= before.Keys;
      NothingChecked(before, host.sys);
      NoProfiles(before);
      NothingNamed(ops);
      NothingInOrder(host.clock);
      KeptItself(host.answers);
      NothingWitnessed(s0.sessions, host.answers, Rds, before, runner.plugin.calls);
      hide EndedIn, Matching, OpsOf, ProfilesFrom, Named, Listing, Witnessed, ReportBacked, Kept;
      for k := 0 to |ops|
        invariant Locked(t) && Did(t0, host.trace, t, all) && Forward(s0, host.sys)
        invariant |reports| == k && Named(reports, ops) && old(host.clock) <= host.clock
        invariant ProfilesFrom(reports, before) && InOrder(reports, old(host.clock), host.clock)
        invariant Checked(before, host.managed, host.sys, reports)
        invariant Witnessed(host.sys.sessions, host.answers, Rds, before, old(runner.plugin.calls), runner.plugin.calls, reports, made)
        invariant Kept(old(host.answers), host.answers)
      {
        ghost var s1, t1, table, c1, answers, calls := host.sys, host.trace, host.managed, host.clock, host.answers, runner.plugin.calls;
        NotYetEnded(reports, ops, all, k);
        NotEndedIsListed(before, table, s1, reports, ops[k]);
        var report;
        ghost var more;
        report, more := CheckOne(t, ops[k]);
        DidBoth(t0, t1, host.trace, t, all, {ops[k]}, all);
        ForwardTrans(s0, s1, host.sys);
        OneMoreChecked(before, table, host.managed, s1, host.sys, reports, report);
        SameEntry(host.sys.sessions, host.answers, table, before, report, more);
        OneMoreWitnessed(s1, host.sys, answers, host.answers, Rds, before, old(runner.plugin.calls), calls, reports, made, report, more);
        KeptTrans(old(host.answers), answers, host.answers);
        OneMoreProfile(reports, before, report);
        OneMoreNamed(reports, ops, report);
        OneMoreInOrder(reports, old(host.clock), c1, report, host.clock);
        made := made + [more];
        reports := reports + [report];
      }
      AllNamed(reports, ops, all);
    }

    /**
      `stop_all`: whatever fails, the table loses exactly the matching tunnels, each of which is gone, and
      the earliest failure is raised.  `before` is the table when step `at` of the run took the lock.
     */
    method StopAll(t: Tid, profile: Option<Profile>)
      returns (r: Result<seq<ManagedSession>, Raised>, ghost at: nat, ghost before: map<Op, Entry>)
      requires Idle(t)
      modifies this`stops, host, runner.plugin
      ensures Idle(t) && Did(old(host.trace), host.trace, t, Matching(before, profile)) && Forward(old(host.sys), host.sys)
      ensures |old(host.trace)| <= at && TableAt(host.trace, at, t, before)
      ensures host.managed == before - Matching(before, profile) && AllGone(host.sys, Matching(before, profile))
      ensures Summed(old(stops), stops, Matching(before, profile), r)
      ensures Accounted(host.sys.sessions, host.answers, old(runner.plugin.calls), runner.plugin.calls, old(stops), stops)
      ensures Kept(old(host.answers), host.answers)
    {
      hide Inv, IsRun, After, Forward, Gone, AllGone, Did, Undisturbed, Summed, SessionHost.Answered, Kept, Accounted;
      ghost var s0, t0 := host.sys, host.trace;
      TablesAreTracked(s0);
      Acquire(t);
      AcquireForward(s0, host.sys, t);
      ghost var s1, t1, a1 := host.sys, host.trace, host.answers;
      at, before := |host.trace| - 1, host.managed;
      ghost var all := Matching(before, profile);
      r := StopMatching(t, profile);
      ghost var s2, t2 := host.sys, host.trace;
      KeptTrans(old(host.answers), a1, host.answers);
      Release(t);
      KeptItself(host.answers);
      AccountedStays(s2, host.sys, host.answers, host.answers, old(runner.plugin.calls), runner.plugin.calls, old(stops), stops);
      DidBoth(t1, t2, host.trace, t, all, {}, all);
      DidBoth(t0, t1, host.trace, t, {}, all, all);
      AllGoneStay(s2, host.sys, Matching(before, profile));
      ForwardTrans(s0, s1, s2);
      ForwardTrans(s0, s2, host.sys);
      TableAtStays(t1, host.trace, at, t, before, all);
    }

    method StopMatching(t: Tid, profile: Option<Profile>) returns (r: Result<seq<ManagedSession>, Raised>)
      requires Locked(t)
      modifies this`stops, host, runner.plugin
      ensures Locked(t) && Did(old(host.trace), host.trace, t, Matching(old(host.managed), profile)) && Forward(old(host.sys), host.sys)
      ensures host.managed == old(host.managed) - Matching(old(host.managed), profile)
      ensures AllGone(host.sys, Matching(old(host.managed), profile))
      ensures Summed(old(stops), stops, Matching(old(host.managed), profile), r)
      ensures Accounted(host.sys.sessions, host.answers, old(runner.plugin.calls), runner.plugin.calls, old(stops), stops)
      ensures Kept(old(host.answers), host.answers)
    {
      hide Inv, IsRun, After, Forward, Gone, AllGone, Did, Undisturbed, Collected, Taken, Summed, Listing, UpTo,
        SessionHost.Answered, Kept, Backed, Accounted;
      ghost var s0, t0, before, all := host.sys, host.trace, host.managed, Matching(host.managed, profile);
      ghost var stopsBefore, answers := stops, host.answers;
      NothingAccounted(s0.sessions, answers, runner.plugin.calls, stopsBefore);
      KeptItself(answers);
      TablesAreTracked(s0);
      ForwardItself(s0);
      DidNothing(t0, t, all);
      var ops := Items(Matching(host.managed, profile));
      var stopped: seq<ManagedSession> := [];
      var firstError: Option<Raised> := None;
      ghost var done: set<Op> := {};
      NothingCollected(stops);
      NothingTaken(before, host.sys);
      NothingDone(ops);
      assert all <= before.Keys;
      hide Matching, Matches, Verdict, Raising, Handle, Stopped;
      for k := 0 to |ops|
        invariant Locked(t) && Did(t0, host.trace, t, all) && Forward(s0, host.sys)
        invariant Taken(before, host.managed, host.sys, done)
        invariant UpTo(done, ops, k)
        invariant Collected(stopsBefore, stops, ops[..k], firstError, stopped) && Kept(answers, host.answers)
        invariant Accounted(host.sys.sessions, host.answers, old(runner.plugin.calls), runner.plugin.calls, stopsBefore, stops)
      {
        ghost var s1, t1, table, records, answers1, calls := host.sys, host.trace, host.managed, stops, host.answers, runner.plugin.calls;
        OneMoreDone(done, ops, all, k);
        NotTakenIsListed(before, table, s1, done, ops[k]);
        var one;
        ghost var made;
        one, made := StopLocked(t, ops[k], None);
        DidBoth(t0, t1, host.trace, t, all, {ops[k]}, all);
        ForwardTrans(s0, s1, host.sys);
        OneMoreTaken(before, table, host.managed, s1, host.sys, done, ops[k]);
        OneMoreCollected(stopsBefore, records, ops[..k], firstError, stopped, StopRecord(ops[k], made, one));
        OneMoreAccounted(s1, host.sys, answers1, host.answers, old(runner.plugin.calls), calls, stopsBefore, records, StopRecord(ops[k], made, one));
        KeptTrans(answers, answers1, host.answers);
        done := done + {ops[k]};
        if one.Ok? { stopped := stopped + [one.value]; }
        VerdictOfTunnel(one);
        if firstError.None? && one.Err? { firstError := Some(one.error); }
      }
      AllDone(done, ops, all);
      AllTaken(before, host.managed, host.sys, done);
      AllCollected(stopsBefore, stops, ops, all, firstError, stopped);
      r := if firstError.Some? then Err(firstError.value) else Ok(stopped);
    }
  }
}
