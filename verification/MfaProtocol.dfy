/**
  Pending MFA operations of one application process, as a step system.

  `AuthenticatedOperationCoordinator` keeps the actions waiting for a code (`outer`); below it
  `OperationCoordinator` keeps the refreshes waiting for one (`inner`), which other clients use directly
  too.  Every lock-guarded region, clock reading and call of an action is one step; threads interleave
  freely.  Tickets, jobs and grants record what happened to each operation id and to each action.
 */
module MfaProtocol {
  import opened Wrappers

  type Id = nat      // operation id
  type Tid = nat     // a thread inside a call
  type Job = nat     // an action given to start_long

  const MAX_PENDING := 128
  const CHALLENGE_LIFETIME := 300_000_000   // five minutes, in microseconds

  datatype Pending = Pending(job: Job, deadline: int)

  /** Where an operation id handed out by the outer coordinator is. */
  datatype Stage =
    | Offered(t: Tid)   // thread t has not returned it to anyone yet
    | Waiting           // in the outer table
    | Retired(t: Tid)   // thread t took it out, or never put it in

  /** How a refresh with a code ends: it succeeds, refuses the code, or raises anything else. */
  datatype Verdict = Fine | Refused | Broken

  datatype Ticket = Ticket(job: Job, deadline: int, stage: Stage, answer: Option<Verdict>)

  /** Who will next run an action, if anybody. */
  datatype Place = With(t: Tid) | Parked(id: Id) | Over

  /** What start_refresh finds out before it makes up a challenge. */
  datatype Found =
    | Reusable       // another caller has refreshed meanwhile
    | Renewed        // the profile needs no code, and the refresh without one succeeded
    | CodeNeeded
    | LookFailed     // the lookup or the refresh without a code raised

  datatype Grant =
    | Unchallenged(found: Found)
    | Answered(id: Id, code: string, at: int)    // this code was offered at that time, and accepted

  /** `asked`: the first run ended by asking for MFA. */
  datatype JobRecord = JobRecord(asked: bool, place: Place, runs: nat, grant: Option<Grant>)

  datatype Duty =
    | Retrying(job: Job, asked: bool)                   // the first run is over
    | Looked(job: Job, found: Found)                    // the session was looked at
    | Offering(job: Job, id: Id, deadline: int)         // the challenge is made up
    | Inserted(job: Job, id: Id, deadline: int)         // in the inner table, not in the outer one
    | Resuming(job: Job, id: Id, deadline: int)         // out of the outer table
    | Answering(job: Job, id: Id, deadline: int)        // out of both
    | Submitted(job: Job, id: Id, code: string, at: int)   // the code was in time; refreshing
    | Judged(job: Job, id: Id, code: string, at: int, verdict: Verdict)   // the refresh is over
    | Granted(job: Job)
    | Cancelling(id: Id)                                // still to leave the inner table

  datatype Sys = Sys(
    now: int,
    outer: map<Id, Pending>,
    inner: map<Id, int>,          // deadline of each pending refresh
    duties: map<Tid, Duty>,
    tickets: map<Id, Ticket>,
    direct: set<Id>,              // operation ids of direct clients of the inner coordinator
    jobs: map<Job, JobRecord>)

  datatype Step =
    | Tick(elapsed: nat)
    | FirstRun(job: Job, asked: bool)
    | GiveUp                  // the call ends without another run
    | Look(found: Found)
    | Reuse                   // start_refresh succeeds without a challenge
    | Offer(id: Id)
    | InnerSweep
    | InnerInsert
    | OuterInsert
    | Expire(id: Id)          // sweep of the outer table
    | Drop(id: Id)            // cancel
    | Take(id: Id)            // resume
    | Refuse                  // resume finds the challenge expired
    | InnerTake
    | Submit(code: string)
    | Judge(verdict: Verdict) // how the refresh with the code ended
    | Accept
    | SecondRun
    | InnerCancel
    | DirectStart(id: Id)
    | DirectDrop(id: Id)

  datatype Event = Event(t: Tid, step: Step)

  predicate Fresh(s: Sys, id: Id) {
    id !in s.tickets && id !in s.direct
  }

  predicate FreshJob(s: Sys, job: Job) {
    job !in s.jobs
  }

  /** No thread is about to return this id for the first time; ids that do not exist qualify. */
  predicate Known(s: Sys, id: Id) {
    id in s.tickets ==> !s.tickets[id].stage.Offered?
  }

  /** A session is there without a code. */
  predicate Ready(found: Found) {
    found.Reusable? || found.Renewed?
  }

  /** The call is over without another run: nobody asked for one, or the code or the session could not be had. */
  predicate MayGiveUp(d: Duty) {
    || (d.Retrying? && !d.asked) || (d.Looked? && d.found.LookFailed?) || d.Answering?
    || (d.Judged? && !d.verdict.Fine?) || d.Granted?
  }

  /** Duties that are not about an operation id. */
  predicate NoId(d: Duty) {
    d.Retrying? || d.Looked? || d.Granted?
  }

  predicate Enabled(s: Sys, e: Event) {
    var idle := e.t !in s.duties;
    match e.step
    case Tick(_) => true
    case FirstRun(job, asked) => idle && FreshJob(s, job)
    case GiveUp => !idle && MayGiveUp(s.duties[e.t])
    case Look(found) => !idle && s.duties[e.t].Retrying? && s.duties[e.t].asked
    case Reuse => !idle && s.duties[e.t].Looked? && Ready(s.duties[e.t].found)
    case Offer(id) => !idle && s.duties[e.t].Looked? && s.duties[e.t].found.CodeNeeded? && Fresh(s, id)
    case InnerSweep => true
    case InnerInsert => !idle && s.duties[e.t].Offering?
    case OuterInsert => !idle && s.duties[e.t].Inserted?
    case Expire(id) => idle && id in s.outer && s.outer[id].deadline <= s.now
    case Drop(id) => idle && id in s.tickets && Known(s, id)
    case Take(id) => idle && id in s.outer
    case Refuse => !idle && s.duties[e.t].Resuming? && s.duties[e.t].deadline <= s.now
    case InnerTake => !idle && s.duties[e.t].Resuming?
    case Submit(_) => !idle && s.duties[e.t].Answering? && s.now < s.duties[e.t].deadline
    case Judge(_) => !idle && s.duties[e.t].Submitted?
    case Accept => !idle && s.duties[e.t].Judged? && s.duties[e.t].verdict.Fine?
    case SecondRun => !idle && s.duties[e.t].Granted?
    case InnerCancel => !idle && s.duties[e.t].Cancelling?
    case DirectStart(id) => Fresh(s, id)
    case DirectDrop(id) => id in s.direct
  }

  function Swept(inner: map<Id, int>, now: int): map<Id, int> {
    map id | id in inner && now < inner[id] :: inner[id]
  }

  function Placed(jobs: map<Job, JobRecord>, job: Job, place: Place): map<Job, JobRecord> {
    if job in jobs then jobs[job := jobs[job].(place := place)] else jobs
  }

  function Given(jobs: map<Job, JobRecord>, job: Job, grant: Grant): map<Job, JobRecord> {
    if job in jobs then jobs[job := jobs[job].(grant := Some(grant))] else jobs
  }

  function Staged(tickets: map<Id, Ticket>, id: Id, stage: Stage): map<Id, Ticket> {
    if id in tickets then tickets[id := tickets[id].(stage := stage)] else tickets
  }

  function Marked(tickets: map<Id, Ticket>, id: Id, verdict: Verdict): map<Id, Ticket> {
    if id in tickets then tickets[id := tickets[id].(answer := Some(verdict))] else tickets
  }

  predicate OuterFull(s: Sys) {
    |s.outer| >= MAX_PENDING
  }

  predicate InnerFull(s: Sys) {
    |Swept(s.inner, s.now)| >= MAX_PENDING
  }

  // What a step does to each part of the state.

  function NextOuter(s: Sys, e: Event): map<Id, Pending>
    requires Enabled(s, e)
  {
    match e.step
    case OuterInsert =>
      if OuterFull(s) then s.outer else s.outer[s.duties[e.t].id := Pending(s.duties[e.t].job, s.duties[e.t].deadline)]
    case Expire(id) => s.outer - {id}
    case Drop(id) => s.outer - {id}
    case Take(id) => s.outer - {id}
    case _ => s.outer
  }

  function NextInner(s: Sys, e: Event): map<Id, int>
    requires Enabled(s, e)
  {
    match e.step
    case InnerSweep => Swept(s.inner, s.now)
    case InnerInsert =>
      if InnerFull(s) then Swept(s.inner, s.now) else Swept(s.inner, s.now)[s.duties[e.t].id := s.duties[e.t].deadline]
    case DirectStart(id) =>
      if InnerFull(s) then Swept(s.inner, s.now) else Swept(s.inner, s.now)[id := s.now + CHALLENGE_LIFETIME]
    case InnerTake => s.inner - {s.duties[e.t].id}
    case InnerCancel => s.inner - {s.duties[e.t].id}
    case DirectDrop(id) => s.inner - {id}
    case _ => s.inner
  }

  function NextTickets(s: Sys, e: Event): map<Id, Ticket>
    requires Enabled(s, e)
  {
    match e.step
    case Offer(id) => s.tickets[id := Ticket(s.duties[e.t].job, s.now + CHALLENGE_LIFETIME, Offered(e.t), None)]
    case InnerInsert => if InnerFull(s) then Staged(s.tickets, s.duties[e.t].id, Retired(e.t)) else s.tickets
    case OuterInsert => Staged(s.tickets, s.duties[e.t].id, if OuterFull(s) then Retired(e.t) else Waiting)
    case Expire(id) => Staged(s.tickets, id, Retired(e.t))
    case Drop(id) => if id in s.outer then Staged(s.tickets, id, Retired(e.t)) else s.tickets
    case Take(id) => Staged(s.tickets, id, Retired(e.t))
    case Judge(verdict) => Marked(s.tickets, s.duties[e.t].id, verdict)
    case _ => s.tickets
  }

  function NextJobs(s: Sys, e: Event): map<Job, JobRecord>
    requires Enabled(s, e)
  {
    match e.step
    case FirstRun(job, asked) => s.jobs[job := JobRecord(asked, With(e.t), 1, None)]
    case GiveUp => Placed(s.jobs, s.duties[e.t].job, Over)
    case Reuse => Given(s.jobs, s.duties[e.t].job, Unchallenged(s.duties[e.t].found))
    case InnerInsert => if InnerFull(s) then Placed(s.jobs, s.duties[e.t].job, Over) else s.jobs
    case OuterInsert => Placed(s.jobs, s.duties[e.t].job, if OuterFull(s) then Over else Parked(s.duties[e.t].id))
    case Expire(id) => Placed(s.jobs, s.outer[id].job, Over)
    case Drop(id) => if id in s.outer then Placed(s.jobs, s.outer[id].job, Over) else s.jobs
    case Take(id) => Placed(s.jobs, s.outer[id].job, With(e.t))
    case Refuse => Placed(s.jobs, s.duties[e.t].job, Over)
    case InnerTake => if s.duties[e.t].id in s.inner then s.jobs else Placed(s.jobs, s.duties[e.t].job, Over)
    case Accept => Given(s.jobs, s.duties[e.t].job, Answered(s.duties[e.t].id, s.duties[e.t].code, s.duties[e.t].at))
    case SecondRun =>
      var job := s.duties[e.t].job;
      if job in s.jobs then s.jobs[job := s.jobs[job].(place := Over, runs := s.jobs[job].runs + 1)] else s.jobs
    case _ => s.jobs
  }

  /** What the acting thread has to do next, if anything. */
  function NextDuty(s: Sys, e: Event): Option<Duty>
    requires Enabled(s, e)
  {
    match e.step
    case FirstRun(job, asked) => Some(Retrying(job, asked))
    case GiveUp => None
    case Look(found) => Some(Looked(s.duties[e.t].job, found))
    case Reuse => Some(Granted(s.duties[e.t].job))
    case Offer(id) => Some(Offering(s.duties[e.t].job, id, s.now + CHALLENGE_LIFETIME))
    case InnerInsert =>
      var d := s.duties[e.t];
      if InnerFull(s) then None else Some(Inserted(d.job, d.id, d.deadline))
    case OuterInsert => if OuterFull(s) then Some(Cancelling(s.duties[e.t].id)) else None
    case Expire(id) => Some(Cancelling(id))
    case Drop(id) => Some(Cancelling(id))
    case Take(id) => Some(Resuming(s.outer[id].job, id, s.outer[id].deadline))
    case Refuse => Some(Cancelling(s.duties[e.t].id))
    case InnerTake =>
      var d := s.duties[e.t];
      if d.id in s.inner then Some(Answering(d.job, d.id, s.inner[d.id])) else None
    case Submit(code) => Some(Submitted(s.duties[e.t].job, s.duties[e.t].id, code, s.now))
    case Judge(verdict) =>
      var d := s.duties[e.t];
      Some(Judged(d.job, d.id, d.code, d.at, verdict))
    case Accept => Some(Granted(s.duties[e.t].job))
    case SecondRun => None
    case InnerCancel => None
    case _ => if e.t in s.duties then Some(s.duties[e.t]) else None
  }

  function Apply(s: Sys, e: Event): Sys
    requires Enabled(s, e)
  {
    Sys(
      if e.step.Tick? then s.now + e.step.elapsed else s.now,
      NextOuter(s, e),
      NextInner(s, e),
      if NextDuty(s, e).Some? then s.duties[e.t := NextDuty(s, e).value] else s.duties - {e.t},
      NextTickets(s, e),
      if e.step.DirectStart? then s.direct + {e.step.id} else s.direct,
      NextJobs(s, e))
  }

  predicate IsRun(s: Sys, run: seq<Event>)
    decreases |run|
  {
    run == [] || (Enabled(s, run[0]) && IsRun(Apply(s, run[0]), run[1..]))
  }

  function After(s: Sys, run: seq<Event>): Sys
    requires IsRun(s, run)
    decreases |run|
  {
    if run == [] then s else After(Apply(s, run[0]), run[1..])
  }

  const START := Sys(0, map[], map[], map[], map[], {}, map[])

  // ---- what every step keeps -------------------------------------------------------------------

  /** A waiting action is nobody else's, and its refresh is still pending unless its time is up. */
  predicate OuterOk(s: Sys, id: Id)
    requires id in s.outer
  {
    && id in s.tickets && s.tickets[id] == Ticket(s.outer[id].job, s.outer[id].deadline, Waiting, None)
    && s.outer[id].job in s.jobs && s.jobs[s.outer[id].job].place == Parked(id) && s.jobs[s.outer[id].job].runs == 1
    && s.jobs[s.outer[id].job].asked
    && (s.now < s.outer[id].deadline ==> id in s.inner)
  }

  /** A thread with this duty still has to see to it that id leaves the inner table. */
  predicate Clears(d: Duty, id: Id) {
    (d.Cancelling? || d.Resuming?) && d.id == id
  }

  /** A pending refresh of the outer coordinator is waiting there, or some thread is about to move it on. */
  predicate TicketOk(s: Sys, id: Id)
    requires id in s.tickets
  {
    && id !in s.direct
    && (s.tickets[id].stage.Waiting? ==> id in s.outer)
    && (s.tickets[id].stage.Offered? ==>
          var t := s.tickets[id].stage.t;
          t in s.duties && (s.duties[t].Offering? || s.duties[t].Inserted?) && s.duties[t].id == id)
    && (id in s.inner ==>
          && s.inner[id] == s.tickets[id].deadline
          && (s.tickets[id].stage.Offered? ==> s.duties[s.tickets[id].stage.t].Inserted?)
          && (s.tickets[id].stage.Retired? ==> s.tickets[id].stage.t in s.duties && Clears(s.duties[s.tickets[id].stage.t], id)))
  }

  /** Thread t alone holds the action, which has run once. */
  predicate Holding(s: Sys, t: Tid, job: Job) {
    job in s.jobs && s.jobs[job].place == With(t) && s.jobs[job].runs == 1
  }

  predicate TicketIs(s: Sys, id: Id, ticket: Ticket) {
    id in s.tickets && s.tickets[id] == ticket
  }

  /** The time a code was offered lies before the deadline of the challenge it answers. */
  predicate InTime(s: Sys, id: Id, job: Job, t: Tid, at: int) {
    id in s.tickets && s.tickets[id].job == job && s.tickets[id].stage == Retired(t) && at < s.tickets[id].deadline
  }

  /** And its first run asked for MFA. */
  predicate Pursuing(s: Sys, t: Tid, job: Job) {
    Holding(s, t, job) && s.jobs[job].asked
  }

  predicate DutyOk(s: Sys, t: Tid)
    requires t in s.duties
  {
    match s.duties[t]
    case Retrying(job, asked) => Holding(s, t, job) && s.jobs[job].asked == asked
    case Looked(job, found) => Pursuing(s, t, job)
    case Offering(job, id, deadline) =>
      Pursuing(s, t, job) && TicketIs(s, id, Ticket(job, deadline, Offered(t), None)) && id !in s.inner
    case Inserted(job, id, deadline) =>
      Pursuing(s, t, job) && TicketIs(s, id, Ticket(job, deadline, Offered(t), None)) && (s.now < deadline ==> id in s.inner)
    case Resuming(job, id, deadline) => Pursuing(s, t, job) && TicketIs(s, id, Ticket(job, deadline, Retired(t), None))
    case Answering(job, id, deadline) => Pursuing(s, t, job) && TicketIs(s, id, Ticket(job, deadline, Retired(t), None))
    case Submitted(job, id, code, at) =>
      Pursuing(s, t, job) && InTime(s, id, job, t, at) && s.tickets[id].answer.None?
    case Judged(job, id, code, at, verdict) =>
      Pursuing(s, t, job) && InTime(s, id, job, t, at) && s.tickets[id].answer == Some(verdict)
    case Granted(job) => Pursuing(s, t, job) && s.jobs[job].grant.Some? && GrantOk(s, job, s.jobs[job].grant.value)
    case Cancelling(id) => id in s.tickets && s.tickets[id].stage.Retired?
  }

  /**
    Without a challenge the session was found ready; a code counts only for the challenge of the action's own
    operation, only before its deadline, and only if the refresh with it succeeded.
   */
  predicate GrantOk(s: Sys, job: Job, g: Grant) {
    match g
    case Unchallenged(found) => Ready(found)
    case Answered(id, code, at) =>
      id in s.tickets && s.tickets[id].job == job && at < s.tickets[id].deadline && s.tickets[id].answer == Some(Fine)
  }

  function JobOf(d: Duty): Option<Job> {
    if d.Cancelling? then None else Some(d.job)
  }

  predicate JobOk(s: Sys, job: Job)
    requires job in s.jobs
  {
    && 1 <= s.jobs[job].runs <= 2
    && (s.jobs[job].grant.Some? ==> s.jobs[job].asked && GrantOk(s, job, s.jobs[job].grant.value))
    && (s.jobs[job].runs == 2 ==> s.jobs[job].place.Over? && s.jobs[job].grant.Some?)
    && (s.jobs[job].place.With? ==>
          s.jobs[job].place.t in s.duties && JobOf(s.duties[s.jobs[job].place.t]) == Some(job))
  }

  ghost predicate Inv(s: Sys) {
    && |s.outer| <= MAX_PENDING && |s.inner| <= MAX_PENDING
    && (forall id | id in s.outer :: OuterOk(s, id))
    && (forall id | id in s.tickets :: TicketOk(s, id))
    && (forall id | id in s.inner :: id in s.tickets || id in s.direct)
    && (forall t | t in s.duties :: DutyOk(s, t))
    && (forall job | job in s.jobs :: JobOk(s, job))
  }

  /** The operation id a step is about. */
  function Target(s: Sys, e: Event): Option<Id> {
    match e.step
    case Expire(id) => Some(id)
    case Drop(id) => Some(id)
    case Take(id) => Some(id)
    case _ =>
      if e.t !in s.duties || NoId(s.duties[e.t]) then None else Some(s.duties[e.t].id)
  }

  /** The part of the invariant that concerns the acting thread and the operation it acts on. */
  ghost predicate Actor(s: Sys, e: Event) {
    && (e.t in s.duties ==> DutyOk(s, e.t))
    && (Target(s, e).Some? && Target(s, e).value in s.outer ==> OuterOk(s, Target(s, e).value))
    && (Target(s, e).Some? && Target(s, e).value in s.tickets ==> TicketOk(s, Target(s, e).value))
  }

  /** A step about an operation that waits takes it out of the table. */
  lemma WaitingIsNotTarget(s: Sys, e: Event, id: Id)
    requires Enabled(s, e) && Actor(s, e) && id in s.outer && OuterOk(s, id) && id in NextOuter(s, e)
    ensures Target(s, e) != Some(id) && NextOuter(s, e)[id] == s.outer[id]
  {
    hide NextInner, NextTickets, NextJobs, NextDuty, GrantOk, TicketOk, Holding, Pursuing;
  }

  lemma UntouchedInner(s: Sys, e: Event, id: Id)
    requires Enabled(s, e) && id in s.inner && Target(s, e) != Some(id) && id !in s.direct && Apply(s, e).now < s.inner[id]
    ensures id in NextInner(s, e)
  {
    hide NextOuter, NextTickets, NextJobs, NextDuty;
  }

  /** Only its own entry leads to the job of an operation that waits. */
  lemma WaitingJobIsOneEntrys(s: Sys, e: Event, id: Id)
    requires Enabled(s, e) && Actor(s, e) && id in s.outer && OuterOk(s, id) && Target(s, e) != Some(id)
    ensures e.t in s.duties ==> JobOf(s.duties[e.t]) != Some(s.outer[id].job)
    ensures Target(s, e).Some? && Target(s, e).value in s.outer ==> s.outer[Target(s, e).value].job != s.outer[id].job
  {
    hide NextOuter, NextInner, NextTickets, NextJobs, NextDuty, GrantOk, TicketOk, Enabled, Target, InTime, TicketIs;
  }

  lemma StepKeepsOuter(s: Sys, e: Event, id: Id)
    requires Enabled(s, e) && Actor(s, e) && id in Apply(s, e).outer && id in s.outer
    requires OuterOk(s, id) && TicketOk(s, id)
    ensures OuterOk(Apply(s, e), id)
  {
    hide NextOuter, NextInner, NextTickets, NextJobs, NextDuty, Enabled, Actor, Target;
    WaitingIsNotTarget(s, e, id);
    UntouchedTicket(s, e, id);
    WaitingJobIsOneEntrys(s, e, id);
    JobPersists(s, e, s.outer[id].job);
    if Apply(s, e).now < s.outer[id].deadline { UntouchedInner(s, e, id); }
  }

  lemma NewOuterIsOk(s: Sys, e: Event, id: Id)
    requires Enabled(s, e) && Actor(s, e) && id in Apply(s, e).outer && id !in s.outer
    ensures OuterOk(Apply(s, e), id)
  {
  }

  lemma UntouchedTicket(s: Sys, e: Event, id: Id)
    requires Enabled(s, e) && id in s.tickets && Target(s, e) != Some(id)
    ensures id in NextTickets(s, e) && NextTickets(s, e)[id] == s.tickets[id]
  {
    hide NextJobs, NextDuty, NextOuter, NextInner, Apply;
  }

  lemma UntouchedPlaces(s: Sys, e: Event, id: Id)
    requires Enabled(s, e) && id in s.tickets && Target(s, e) != Some(id) && id !in s.direct
    ensures id !in Apply(s, e).direct
    ensures id in s.outer ==> id in NextOuter(s, e)
    ensures id in NextInner(s, e) ==> id in s.inner && NextInner(s, e)[id] == s.inner[id]
  {
    hide NextJobs, NextDuty, NextTickets;
  }

  lemma OwnIdIsTarget(s: Sys, e: Event)
    requires Enabled(s, e) && e.t in s.duties && !NoId(s.duties[e.t])
    ensures Target(s, e) == Some(s.duties[e.t].id)
  {
  }

  lemma TouchedStage(s: Sys, e: Event, id: Id)
    requires Enabled(s, e) && Actor(s, e) && id in s.tickets && TicketOk(s, id) && Target(s, e) == Some(id)
    ensures id in NextTickets(s, e) && e.step != DirectStart(id)
    ensures NextTickets(s, e)[id].stage.Waiting? ==> id in NextOuter(s, e)
    ensures NextTickets(s, e)[id].stage.Offered? ==>
      NextTickets(s, e)[id].stage.t == e.t && NextDuty(s, e).Some?
      && (NextDuty(s, e).value.Offering? || NextDuty(s, e).value.Inserted?) && NextDuty(s, e).value.id == id
  {
    hide NextJobs, NextInner, Apply, GrantOk, JobOk;
  }

  lemma TouchedInner(s: Sys, e: Event, id: Id)
    requires Enabled(s, e) && Actor(s, e) && id in s.tickets && TicketOk(s, id) && Target(s, e) == Some(id)
    requires id in NextTickets(s, e) && id in NextInner(s, e)
    ensures NextInner(s, e)[id] == NextTickets(s, e)[id].deadline
    ensures NextTickets(s, e)[id].stage.Offered? ==> NextDuty(s, e).Some? && NextDuty(s, e).value.Inserted?
    ensures NextTickets(s, e)[id].stage.Retired? ==>
      (NextTickets(s, e)[id].stage.t == e.t && NextDuty(s, e).Some? && Clears(NextDuty(s, e).value, id))
      || (NextTickets(s, e)[id] == s.tickets[id] && s.tickets[id].stage.t != e.t && id in s.inner)
  {
    hide NextJobs, NextOuter, Apply, GrantOk, JobOk;
  }

  lemma TouchedTicket(s: Sys, e: Event, id: Id)
    requires Enabled(s, e) && Actor(s, e) && id in s.tickets && TicketOk(s, id) && Target(s, e) == Some(id)
    ensures id in Apply(s, e).tickets && TicketOk(Apply(s, e), id)
  {
    hide Enabled, Actor, NextJobs, NextDuty, NextOuter, NextInner, NextTickets;
    TouchedStage(s, e, id);
    if id in NextInner(s, e) {
      TouchedInner(s, e, id);
    }
  }

  lemma StepKeepsTicket(s: Sys, e: Event, id: Id)
    requires Enabled(s, e) && Actor(s, e) && id in s.tickets
    requires TicketOk(s, id)
    ensures id in Apply(s, e).tickets && TicketOk(Apply(s, e), id)
  {
    hide Enabled, Actor, NextOuter, NextInner, NextDuty, NextTickets, NextJobs;
    if Target(s, e) == Some(id) {
      TouchedTicket(s, e, id);
    } else {
      UntouchedTicket(s, e, id);
      UntouchedPlaces(s, e, id);
      if e.t in s.duties && !NoId(s.duties[e.t]) { OwnIdIsTarget(s, e); }
      if !s.tickets[id].stage.Waiting? && s.tickets[id].stage.t != e.t { OtherDutyStays(s, e, s.tickets[id].stage.t); }
    }
  }

  lemma NewTicketIsOk(s: Sys, e: Event, id: Id)
    requires Enabled(s, e) && id in Apply(s, e).tickets && id !in s.tickets
    requires id in s.inner ==> id in s.direct
    ensures TicketOk(Apply(s, e), id)
  {
  }

  lemma StepKeepsInnerKnown(s: Sys, e: Event, id: Id)
    requires Enabled(s, e) && Actor(s, e) && id in Apply(s, e).inner
    requires id in s.inner ==> id in s.tickets || id in s.direct
    ensures id in Apply(s, e).tickets || id in Apply(s, e).direct
  {
  }

  lemma OwnDutyHolds(s: Sys, e: Event)
    requires Enabled(s, e) && Actor(s, e) && NextDuty(s, e).Some? && !NextDuty(s, e).value.Cancelling?
    ensures Holding(Apply(s, e), e.t, NextDuty(s, e).value.job)
    ensures Apply(s, e).jobs[NextDuty(s, e).value.job].asked || NextDuty(s, e).value == Retrying(NextDuty(s, e).value.job, false)
    ensures NextDuty(s, e).value.Retrying? ==> NextDuty(s, e).value.asked == Apply(s, e).jobs[NextDuty(s, e).value.job].asked
  {
    hide NextTickets, NextInner, NextOuter, GrantOk, TicketOk;
  }

  lemma OwnDutyTicket(s: Sys, e: Event)
    requires Enabled(s, e) && Actor(s, e) && NextDuty(s, e).Some?
    ensures var d := NextDuty(s, e).value;
      match d
      case Offering(job, id, deadline) => TicketIs(Apply(s, e), id, Ticket(job, deadline, Offered(e.t), None))
      case Inserted(job, id, deadline) => TicketIs(Apply(s, e), id, Ticket(job, deadline, Offered(e.t), None))
      case Resuming(job, id, deadline) => TicketIs(Apply(s, e), id, Ticket(job, deadline, Retired(e.t), None))
      case Answering(job, id, deadline) => TicketIs(Apply(s, e), id, Ticket(job, deadline, Retired(e.t), None))
      case Submitted(job, id, code, at) => InTime(Apply(s, e), id, job, e.t, at) && Apply(s, e).tickets[id].answer.None?
      case Judged(job, id, code, at, verdict) => InTime(Apply(s, e), id, job, e.t, at) && Apply(s, e).tickets[id].answer == Some(verdict)
      case Cancelling(id) => id in Apply(s, e).tickets && Apply(s, e).tickets[id].stage.Retired?
      case _ => true
  {
    hide NextJobs, NextInner, NextOuter, GrantOk;
  }

  lemma OfferedIsNotPending(s: Sys, e: Event)
    requires Enabled(s, e) && Actor(s, e) && NextDuty(s, e).Some? && NextDuty(s, e).value.Offering?
    requires forall id | id in s.inner :: id in s.tickets || id in s.direct
    ensures NextDuty(s, e).value.id !in NextInner(s, e)
  {
    hide NextJobs, NextTickets, NextOuter, GrantOk, OuterOk, Holding, Pursuing, InTime, MayGiveUp;
  }

  lemma InsertedIsPending(s: Sys, e: Event)
    requires Enabled(s, e) && Actor(s, e) && NextDuty(s, e).Some? && NextDuty(s, e).value.Inserted?
    ensures Apply(s, e).now < NextDuty(s, e).value.deadline ==> NextDuty(s, e).value.id in NextInner(s, e)
  {
    hide NextJobs, NextTickets, NextOuter, GrantOk, OuterOk, Holding, Pursuing, InTime, MayGiveUp, Actor;
    if !e.step.InnerInsert? {
      InsertedStays(s, e);
    }
  }

  lemma InsertedStays(s: Sys, e: Event)
    requires Enabled(s, e) && Actor(s, e) && NextDuty(s, e).Some? && NextDuty(s, e).value.Inserted? && !e.step.InnerInsert?
    ensures Apply(s, e).now < NextDuty(s, e).value.deadline ==> NextDuty(s, e).value.id in NextInner(s, e)
  {
    var d := NextDuty(s, e).value;
    StayingDuty(s, e);
    OwnIdIsTarget(s, e);
    hide NextJobs, NextTickets, NextOuter, NextDuty, GrantOk, OuterOk, Holding, Pursuing, InTime, MayGiveUp, Enabled;
  }

  lemma StayingDuty(s: Sys, e: Event)
    requires Enabled(s, e) && NextDuty(s, e).Some? && NextDuty(s, e).value.Inserted? && !e.step.InnerInsert?
    ensures e.t in s.duties && s.duties[e.t] == NextDuty(s, e).value
    ensures e.step.Tick? || e.step.InnerSweep? || e.step.DirectStart? || e.step.DirectDrop?
  {
  }

  lemma OwnDutyInner(s: Sys, e: Event)
    requires Enabled(s, e) && Actor(s, e) && NextDuty(s, e).Some?
    requires forall id | id in s.inner :: id in s.tickets || id in s.direct
    ensures var d := NextDuty(s, e).value;
      && (d.Offering? ==> d.id !in Apply(s, e).inner)
      && (d.Inserted? && Apply(s, e).now < d.deadline ==> d.id in Apply(s, e).inner)
  {
    hide Enabled, Actor, NextInner, NextJobs, NextTickets, NextOuter, NextDuty;
    if NextDuty(s, e).value.Offering? { OfferedIsNotPending(s, e); }
    if NextDuty(s, e).value.Inserted? { InsertedIsPending(s, e); }
  }

  lemma StepKeepsOwnDuty(s: Sys, e: Event)
    requires Enabled(s, e) && Actor(s, e) && e.t in Apply(s, e).duties
    requires forall id | id in s.inner :: id in s.tickets || id in s.direct
    requires forall id | id in s.tickets :: TicketOk(s, id)
    ensures DutyOk(Apply(s, e), e.t)
  {
    hide Enabled, Actor, TicketOk, NextOuter, NextJobs, NextTickets, NextInner, NextDuty;
    var d := NextDuty(s, e).value;
    if !d.Cancelling? { OwnDutyHolds(s, e); }
    OwnDutyTicket(s, e);
    OwnDutyInner(s, e);
    if d.Granted? { OwnGrant(s, e); }
  }

  /** A grant is given on acceptance, for the code that was submitted in time. */
  lemma OwnGrant(s: Sys, e: Event)
    requires Enabled(s, e) && Actor(s, e) && NextDuty(s, e).Some? && NextDuty(s, e).value.Granted?
    requires forall id | id in s.tickets :: TicketOk(s, id)
    ensures var job := NextDuty(s, e).value.job;
      job in Apply(s, e).jobs && Apply(s, e).jobs[job].grant.Some? && GrantOk(Apply(s, e), job, Apply(s, e).jobs[job].grant.value)
  {
    var job := NextDuty(s, e).value.job;
    GivenGrant(s, e, job);
    GrantPersists(s, e, job, Apply(s, e).jobs[job].grant.value);
  }

  lemma GivenGrant(s: Sys, e: Event, job: Job)
    requires Enabled(s, e) && Actor(s, e) && NextDuty(s, e) == Some(Granted(job))
    ensures job in Apply(s, e).jobs && Apply(s, e).jobs[job].grant.Some? && GrantOk(s, job, Apply(s, e).jobs[job].grant.value)
  {
    hide NextTickets, NextInner, NextOuter, TicketOk, OuterOk;
  }

  lemma TicketKeepsTerms(s: Sys, e: Event, id: Id)
    requires Enabled(s, e) && id in s.tickets && (e.t in s.duties ==> DutyOk(s, e.t))
    ensures id in NextTickets(s, e)
    ensures NextTickets(s, e)[id].job == s.tickets[id].job && NextTickets(s, e)[id].deadline == s.tickets[id].deadline
    ensures s.tickets[id].answer.Some? ==> NextTickets(s, e)[id].answer == s.tickets[id].answer
  {
  }

  /** A ticket keeps its job and deadline, and only its own thread moves it on once it is out of the outer table. */
  lemma TicketPersists(s: Sys, e: Event, id: Id)
    requires Enabled(s, e) && Actor(s, e) && id in s.tickets && (s.tickets[id].stage.Waiting? ==> id in s.outer)
    ensures id in Apply(s, e).tickets
    ensures Apply(s, e).tickets[id].job == s.tickets[id].job && Apply(s, e).tickets[id].deadline == s.tickets[id].deadline
    ensures s.tickets[id].answer.Some? ==> Apply(s, e).tickets[id].answer == s.tickets[id].answer
    ensures !s.tickets[id].stage.Waiting? && s.tickets[id].stage.t != e.t ==> Apply(s, e).tickets[id] == s.tickets[id]
    ensures s.tickets[id].stage.Retired? ==> Apply(s, e).tickets[id].stage.Retired?
  {
    hide NextJobs, NextDuty, NextInner, NextOuter, JobOk, GrantOk, Holding, TicketOk;
    TicketKeepsTerms(s, e, id);
    assert Apply(s, e).tickets == NextTickets(s, e);
    hide Apply;
    if Target(s, e) != Some(id) { UntouchedTicket(s, e, id); }
  }

  lemma HoldingPersists(s: Sys, e: Event, t: Tid, job: Job)
    requires Enabled(s, e) && Actor(s, e) && t != e.t && Holding(s, t, job)
    ensures Holding(Apply(s, e), t, job) && Apply(s, e).jobs[job] == s.jobs[job]
  {
    hide NextTickets, NextDuty, NextInner, NextOuter, NextJobs, Apply, Enabled;
    JobPersists(s, e, job);
  }

  lemma OfferedPersists(s: Sys, e: Event, t: Tid, id: Id)
    requires Enabled(s, e) && Actor(s, e) && id in s.tickets && t != e.t
    requires s.tickets[id].stage == Offered(t) && id !in s.direct
    ensures id in Apply(s, e).inner ==> id in s.inner
    ensures id in s.inner && s.inner[id] == s.tickets[id].deadline && Apply(s, e).now < s.inner[id] ==> id in Apply(s, e).inner
  {
    hide NextTickets, NextDuty, NextJobs, NextOuter, GrantOk;
  }

  lemma OtherDutyStays(s: Sys, e: Event, t: Tid)
    requires Enabled(s, e) && t != e.t
    ensures t in Apply(s, e).duties <==> t in s.duties
    ensures t in s.duties ==> Apply(s, e).duties[t] == s.duties[t]
    ensures Apply(s, e).now >= s.now
  {
    hide NextTickets, NextDuty, NextJobs, NextOuter, NextInner;
  }

  lemma StepKeepsOtherDuty(s: Sys, e: Event, t: Tid)
    requires Enabled(s, e) && Actor(s, e) && t in s.duties && t != e.t
    requires DutyOk(s, t)
    requires forall id | id in s.tickets :: TicketOk(s, id)
    ensures t in Apply(s, e).duties && DutyOk(Apply(s, e), t)
  {
    hide Enabled, Apply, Actor, TicketOk;
    var d := s.duties[t];
    OtherDutyStays(s, e, t);
    if !d.Cancelling? { HoldingPersists(s, e, t, d.job); }
    if !NoId(d) {
      assert TicketOk(s, d.id);
      TicketIsPlaced(s, d.id);
      TicketPersists(s, e, d.id);
    }
    if d.Offering? || d.Inserted? { OfferedPersists(s, e, t, d.id); }
    if d.Granted? { GrantPersists(s, e, d.job, s.jobs[d.job].grant.value); }
  }

  lemma TicketIsPlaced(s: Sys, id: Id)
    requires id in s.tickets && TicketOk(s, id)
    ensures id !in s.direct && (s.tickets[id].stage.Waiting? ==> id in s.outer)
    ensures id in s.inner ==> s.inner[id] == s.tickets[id].deadline
  {
  }

  lemma GrantPersists(s: Sys, e: Event, job: Job, g: Grant)
    requires Enabled(s, e) && Actor(s, e) && GrantOk(s, job, g)
    requires forall id | id in s.tickets :: TicketOk(s, id)
    ensures GrantOk(Apply(s, e), job, g)
  {
    hide Enabled, Apply, Actor, TicketOk;
    if g.Answered? {
      assert TicketOk(s, g.id);
      TicketIsPlaced(s, g.id);
      TicketPersists(s, e, g.id);
    }
  }

  /** Only the thread that holds an action, or the one that takes it from the outer table, changes its record. */
  lemma JobPersists(s: Sys, e: Event, job: Job)
    requires Enabled(s, e) && job in s.jobs
    requires e.t in s.duties ==> JobOf(s.duties[e.t]) != Some(job)
    requires Target(s, e).Some? && Target(s, e).value in s.outer ==> s.outer[Target(s, e).value].job != job
    ensures job in Apply(s, e).jobs && Apply(s, e).jobs[job] == s.jobs[job]
  {
    hide NextTickets, NextDuty, NextInner, NextOuter;
    assert Apply(s, e).jobs == NextJobs(s, e);
    hide Apply;
  }

  predicate Touches(s: Sys, e: Event, job: Job) {
    (e.t in s.duties && JobOf(s.duties[e.t]) == Some(job))
    || (Target(s, e).Some? && Target(s, e).value in s.outer && s.outer[Target(s, e).value].job == job)
  }

  /** Only a second run counts up, and nothing changes whether an action asked for MFA. */
  lemma RunsOnceMore(s: Sys, e: Event, job: Job)
    requires Enabled(s, e) && job in s.jobs
    ensures job in NextJobs(s, e) && NextJobs(s, e)[job].asked == s.jobs[job].asked
    ensures NextJobs(s, e)[job].runs != s.jobs[job].runs ==> e.step.SecondRun? && s.duties[e.t].job == job
    ensures NextJobs(s, e)[job].runs != s.jobs[job].runs ==>
      NextJobs(s, e)[job] == s.jobs[job].(place := Over, runs := s.jobs[job].runs + 1)
  {
    hide NextTickets, NextInner, NextOuter, NextDuty;
  }

  lemma PlaceOfTwoRuns(s: Sys, e: Event, job: Job)
    requires Enabled(s, e) && Actor(s, e) && job in s.jobs && JobOk(s, job) && Touches(s, e, job)
    ensures s.jobs[job].runs == 1 && (e.t in s.duties && JobOf(s.duties[e.t]) == Some(job) ==> Holding(s, e.t, job))
  {
    hide NextTickets, NextInner, NextOuter, NextDuty, NextJobs, TicketOk, GrantOk;
  }

  lemma TouchedJob(s: Sys, e: Event, job: Job)
    requires Enabled(s, e) && Actor(s, e) && job in s.jobs && JobOk(s, job) && Touches(s, e, job)
    ensures job in Apply(s, e).jobs && 1 <= Apply(s, e).jobs[job].runs <= 2
    ensures Apply(s, e).jobs[job].runs == 2 ==> Apply(s, e).jobs[job].place.Over? && Apply(s, e).jobs[job].grant.Some?
    ensures Apply(s, e).jobs[job].grant.Some? ==> Apply(s, e).jobs[job].asked
  {
    hide NextTickets, NextInner, NextOuter, NextDuty, NextJobs, TicketOk, GrantOk, OuterOk, Touches;
    RunsOnceMore(s, e, job);
    PlaceOfTwoRuns(s, e, job);
    GrantChange(s, e, job);
  }

  lemma TouchedPlace(s: Sys, e: Event, job: Job)
    requires Enabled(s, e) && Actor(s, e) && job in s.jobs && JobOk(s, job) && Touches(s, e, job)
    requires job in NextJobs(s, e) && NextJobs(s, e)[job].place.With?
    ensures NextJobs(s, e)[job].place.t == e.t && NextDuty(s, e).Some? && JobOf(NextDuty(s, e).value) == Some(job)
  {
    hide NextTickets, NextInner, NextOuter, TicketOk, GrantOk, Apply;
  }

  /** A step leaves a grant alone, or it is the one that gives it. */
  lemma GrantChange(s: Sys, e: Event, job: Job)
    requires Enabled(s, e) && job in s.jobs
    ensures job in NextJobs(s, e)
    ensures NextJobs(s, e)[job].grant == s.jobs[job].grant
      || (e.step.Reuse? && s.duties[e.t].job == job && NextJobs(s, e)[job].grant == Some(Unchallenged(s.duties[e.t].found)))
      || (e.step.Accept? && s.duties[e.t].job == job
          && NextJobs(s, e)[job].grant == Some(Answered(s.duties[e.t].id, s.duties[e.t].code, s.duties[e.t].at)))
  {
    hide NextTickets, NextInner, NextOuter, NextDuty;
  }

  lemma TouchedGrant(s: Sys, e: Event, job: Job)
    requires Enabled(s, e) && Actor(s, e) && job in s.jobs && JobOk(s, job)
    ensures job in Apply(s, e).jobs
    ensures Apply(s, e).jobs[job].grant.Some? ==> GrantOk(s, job, Apply(s, e).jobs[job].grant.value)
  {
    hide NextTickets, NextInner, NextOuter, NextDuty, NextJobs, TicketOk, OuterOk, Holding, Target;
    GrantChange(s, e, job);
  }

  /** Only a first run makes up a new action. */
  lemma OnlyFirstRunAdds(s: Sys, e: Event, job: Job)
    requires Enabled(s, e) && job in NextJobs(s, e) && job !in s.jobs
    ensures e.step.FirstRun? && e.step.job == job
  {
  }

  lemma NewJob(s: Sys, e: Event, job: Job)
    requires Enabled(s, e) && job in Apply(s, e).jobs && job !in s.jobs
    ensures e.step.FirstRun? && NextDuty(s, e) == Some(Retrying(job, e.step.asked))
    ensures Apply(s, e).jobs[job] == JobRecord(e.step.asked, With(e.t), 1, None)
  {
    assert job in NextJobs(s, e);
    OnlyFirstRunAdds(s, e, job);
  }

  lemma StepKeepsJob(s: Sys, e: Event, job: Job)
    requires Enabled(s, e) && Actor(s, e) && job in Apply(s, e).jobs
    requires job in s.jobs ==> JobOk(s, job)
    requires forall id | id in s.tickets :: TicketOk(s, id)
    ensures JobOk(Apply(s, e), job)
  {
    hide Enabled, Actor, TicketOk, GrantOk, NextOuter, NextJobs, NextTickets, NextInner, NextDuty;
    var s' := Apply(s, e);
    if job !in s.jobs {
      NewJob(s, e, job);
    } else {
      if Touches(s, e, job) {
        TouchedJob(s, e, job);
        TouchedGrant(s, e, job);
        if s'.jobs[job].place.With? { TouchedPlace(s, e, job); }
      } else {
        JobPersists(s, e, job);
      }
      if s'.jobs[job].grant.Some? { GrantPersists(s, e, job, s'.jobs[job].grant.value); }
    }
  }

  lemma RemovingShrinks<V>(m: map<Id, V>, id: Id)
    ensures |m - {id}| <= |m|
  {
    assert (m - {id}).Keys <= m.Keys;
    SubsetIsSmaller((m - {id}).Keys, m.Keys);
  }

  lemma SubsetIsSmaller(a: set<Id>, b: set<Id>)
    requires a <= b
    ensures |a| <= |b|
  {
    if a != {} {
      var x :| x in a;
      SubsetIsSmaller(a - {x}, b - {x});
    }
  }

  lemma SweepingShrinks(inner: map<Id, int>, now: int)
    ensures |Swept(inner, now)| <= |inner|
  {
    assert Swept(inner, now).Keys <= inner.Keys;
    SubsetIsSmaller(Swept(inner, now).Keys, inner.Keys);
  }

  lemma StepKeepsBounds(s: Sys, e: Event)
    requires Enabled(s, e) && |s.outer| <= MAX_PENDING && |s.inner| <= MAX_PENDING
    ensures |Apply(s, e).outer| <= MAX_PENDING && |Apply(s, e).inner| <= MAX_PENDING
  {
    SweepingShrinks(s.inner, s.now);
    forall id ensures |s.outer - {id}| <= |s.outer| && |s.inner - {id}| <= |s.inner| {
      RemovingShrinks(s.outer, id);
      RemovingShrinks(s.inner, id);
    }
  }

  lemma StepKeepsInv(s: Sys, e: Event)
    requires Inv(s) && Enabled(s, e)
    ensures Inv(Apply(s, e))
  {
    hide Apply, Enabled, OuterOk, TicketOk, DutyOk, JobOk;
    var s' := Apply(s, e);
    StepKeepsBounds(s, e);
    forall id | id in s'.outer ensures OuterOk(s', id) {
      if id in s.outer { TicketOfOuter(s, id); StepKeepsOuter(s, e, id); } else { NewOuterIsOk(s, e, id); }
    }
    forall id | id in s'.tickets ensures TicketOk(s', id) {
      if id in s.tickets { StepKeepsTicket(s, e, id); } else { NewTicketIsOk(s, e, id); }
    }
    forall id | id in s'.inner ensures id in s'.tickets || id in s'.direct {
      StepKeepsInnerKnown(s, e, id);
    }
    forall t | t in s'.duties ensures DutyOk(s', t) {
      if t == e.t { StepKeepsOwnDuty(s, e); } else { OtherDutyStays(s, e, t); StepKeepsOtherDuty(s, e, t); }
    }
    forall job | job in s'.jobs ensures JobOk(s', job) {
      StepKeepsJob(s, e, job);
    }
  }

  lemma TicketOfOuter(s: Sys, id: Id)
    requires id in s.outer && OuterOk(s, id)
    ensures id in s.tickets
  {
  }

  lemma {:induction false} RunKeepsInv(s: Sys, run: seq<Event>)
    requires Inv(s) && IsRun(s, run)
    ensures Inv(After(s, run))
    decreases |run|
  {
    if run != [] {
      StepKeepsInv(s, run[0]);
      RunKeepsInv(Apply(s, run[0]), run[1..]);
    }
  }

  lemma {:induction false} RunExtends(s: Sys, run: seq<Event>, e: Event)
    requires IsRun(s, run) && Enabled(After(s, run), e)
    ensures IsRun(s, run + [e]) && After(s, run + [e]) == Apply(After(s, run), e)
    decreases |run|
  {
    hide Enabled, Apply;
    if run == [] {
      assert [] + [e] == [e];
    } else {
      RunExtends(Apply(s, run[0]), run[1..], e);
      assert (run + [e])[0] == run[0] && (run + [e])[1..] == run[1..] + [e];
    }
  }

  // ---- main results, for every interleaving -----------------------------------------------------

  /** Both tables stay bounded, and a waiting action whose time is not up has its refresh pending until the same time. */
  lemma WaitingActionsCanBeResumed(run: seq<Event>)
    requires IsRun(START, run)
    ensures var s := After(START, run);
      && |s.outer| <= MAX_PENDING && |s.inner| <= MAX_PENDING
      && forall id | id in s.outer && s.now < s.outer[id].deadline :: id in s.inner && s.inner[id] == s.outer[id].deadline
  {
    RunKeepsInv(START, run);
    var s := After(START, run);
    forall id | id in s.outer && s.now < s.outer[id].deadline ensures id in s.inner && s.inner[id] == s.outer[id].deadline {
      assert OuterOk(s, id) && TicketOk(s, id);
    }
  }

  /** When no call is in flight, every pending refresh not started by a direct client has its action waiting. */
  lemma NoOrphans(run: seq<Event>)
    requires IsRun(START, run) && After(START, run).duties == map[]
    ensures var s := After(START, run);
      forall id | id in s.inner && id !in s.direct :: id in s.outer && s.inner[id] == s.outer[id].deadline
  {
    RunKeepsInv(START, run);
    InnerHasItsAction(After(START, run));
  }

  lemma InnerHasItsAction(s: Sys)
    requires Inv(s) && s.duties == map[]
    ensures forall id | id in s.inner && id !in s.direct :: id in s.outer && s.inner[id] == s.outer[id].deadline
  {
    forall id | id in s.inner && id !in s.direct ensures id in s.outer && s.inner[id] == s.outer[id].deadline {
      assert TicketOk(s, id);
      if s.tickets[id].stage.Waiting? { assert OuterOk(s, id); }
    }
  }

  /**
    An action runs at most twice, the second time only if its first run asked for MFA.  Before that either a
    session was found or renewed without a code, or a code was offered for a challenge made for this very
    action, before that challenge's deadline, and the refresh with it succeeded.
   */
  lemma SecondRunIsGranted(run: seq<Event>, job: Job)
    requires IsRun(START, run) && job in After(START, run).jobs
    ensures var s := After(START, run);
      && 1 <= s.jobs[job].runs <= 2
      && (s.jobs[job].runs == 2 ==> s.jobs[job].asked && s.jobs[job].grant.Some?)
    ensures var s := After(START, run);
      s.jobs[job].grant.Some? ==>
        match s.jobs[job].grant.value
        case Unchallenged(found) => found.Reusable? || found.Renewed?
        case Answered(id, code, at) =>
          id in s.tickets && s.tickets[id].job == job && at < s.tickets[id].deadline && s.tickets[id].answer == Some(Fine)
  {
    RunKeepsInv(START, run);
    assert JobOk(After(START, run), job);
  }

  /** Once run twice, an action is nowhere: no table and no thread could run it again. */
  lemma RunTwiceIsOver(run: seq<Event>, job: Job)
    requires IsRun(START, run) && job in After(START, run).jobs && After(START, run).jobs[job].runs == 2
    ensures var s := After(START, run);
      && (forall id | id in s.outer :: s.outer[id].job != job)
      && (forall t | t in s.duties :: JobOf(s.duties[t]) != Some(job))
  {
    RunKeepsInv(START, run);
    OverIsOver(After(START, run), job);
  }

  lemma OverIsOver(s: Sys, job: Job)
    requires Inv(s) && job in s.jobs && s.jobs[job].runs == 2
    ensures forall id | id in s.outer :: s.outer[id].job != job
    ensures forall t | t in s.duties :: JobOf(s.duties[t]) != Some(job)
  {
    assert JobOk(s, job);
    forall id | id in s.outer ensures s.outer[id].job != job { assert OuterOk(s, id); }
    forall t | t in s.duties ensures JobOf(s.duties[t]) != Some(job) { assert DutyOk(s, t); }
  }

  // ---- what other threads leave alone -----------------------------------------------------------

  /** What thread t may rely on while others run: its own duty, the clock's direction, and that ids do not come back. */
  ghost predicate Undisturbed(s: Sys, s': Sys, t: Tid) {
    && s.now <= s'.now
    && (t in s.duties <==> t in s'.duties) && (t in s.duties ==> s'.duties[t] == s.duties[t])
    && AllOnward(s, s')
    && (forall job | job in s.jobs && s.jobs[job].place.Over? :: job in s'.jobs && s'.jobs[job] == s.jobs[job])
  }

  predicate Onward(s: Sys, s': Sys, id: Id)
    requires id in s.tickets
  {
    && id in s'.tickets && s'.tickets[id].job == s.tickets[id].job && s'.tickets[id].deadline == s.tickets[id].deadline
    && (s.tickets[id].stage.Retired? ==> s'.tickets[id].stage.Retired?)
    && (s.tickets[id].answer.Some? ==> s'.tickets[id].answer == s.tickets[id].answer)
  }

  ghost predicate AllOnward(s: Sys, s': Sys) {
    forall id | id in s.tickets :: Onward(s, s', id)
  }

  lemma AllOnwardItself(s: Sys)
    ensures AllOnward(s, s)
  {
  }

  lemma AllOnwardTrans(s: Sys, s': Sys, s'': Sys)
    requires AllOnward(s, s') && AllOnward(s', s'')
    ensures AllOnward(s, s'')
  {
    assert forall id | id in s.tickets :: Onward(s, s', id) && Onward(s', s'', id);
  }

  lemma OnwardAt(s: Sys, s': Sys, id: Id)
    requires AllOnward(s, s') && id in s.tickets
    ensures id in s'.tickets && s'.tickets[id].job == s.tickets[id].job && s'.tickets[id].deadline == s.tickets[id].deadline
    ensures s.tickets[id].stage.Retired? ==> s'.tickets[id].stage.Retired?
    ensures s.tickets[id].answer.Some? ==> s'.tickets[id].answer == s.tickets[id].answer
  {
    assert Onward(s, s', id);
  }

  lemma NeverIssuedIsKnown(s: Sys, id: Id)
    requires Fresh(s, id)
    ensures Known(s, id)
  {
  }

  lemma KnownAndOutIsRetired(s: Sys, id: Id)
    requires Inv(s) && id in s.tickets && Known(s, id) && id !in s.outer
    ensures s.tickets[id].stage.Retired?
  {
    assert TicketOk(s, id);
  }

  lemma TicketsMoveOn(s: Sys, e: Event)
    requires Inv(s) && Enabled(s, e)
    ensures AllOnward(s, Apply(s, e))
  {
    hide Apply, Enabled, OuterOk, TicketOk, DutyOk, JobOk;
    forall id | id in s.tickets ensures Onward(s, Apply(s, e), id) {
      assert TicketOk(s, id);
      TicketIsPlaced(s, id);
      TicketPersists(s, e, id);
    }
  }

  /** An action that is over is not touched again. */
  lemma OverStays(s: Sys, e: Event)
    requires Inv(s) && Enabled(s, e)
    ensures forall job | job in s.jobs && s.jobs[job].place.Over? ::
      job in Apply(s, e).jobs && Apply(s, e).jobs[job] == s.jobs[job]
  {
    hide Apply, Enabled, TicketOk, JobOk, GrantOk, TicketIs;
    forall job | job in s.jobs && s.jobs[job].place.Over?
      ensures job in Apply(s, e).jobs && Apply(s, e).jobs[job] == s.jobs[job]
    {
      if e.t in s.duties { assert DutyOk(s, e.t); }
      if Target(s, e).Some? && Target(s, e).value in s.outer { assert OuterOk(s, Target(s, e).value); }
      JobPersists(s, e, job);
    }
  }

  lemma OtherThreadStep(s: Sys, e: Event, t: Tid)
    requires Inv(s) && Enabled(s, e) && e.t != t
    ensures Undisturbed(s, Apply(s, e), t)
  {
    hide Apply, Enabled, Inv;
    TicketsMoveOn(s, e);
    OverStays(s, e);
    OtherDutyStays(s, e, t);
  }

  lemma UndisturbedItself(s: Sys, t: Tid)
    ensures Undisturbed(s, s, t)
  {
  }

  lemma UndisturbedParts(s: Sys, s': Sys, t: Tid)
    requires Undisturbed(s, s', t)
    ensures s.now <= s'.now && (t in s.duties <==> t in s'.duties) && (t in s.duties ==> s'.duties[t] == s.duties[t])
    ensures AllOnward(s, s')
    ensures forall job | job in s.jobs && s.jobs[job].place.Over? :: job in s'.jobs && s'.jobs[job] == s.jobs[job]
  {
  }

  lemma UndisturbedTrans(s: Sys, s': Sys, s'': Sys, t: Tid)
    requires Undisturbed(s, s', t) && Undisturbed(s', s'', t)
    ensures Undisturbed(s, s'', t)
  {
    AllOnwardTrans(s, s', s'');
  }

  lemma WaitingTicket(s: Sys, id: Id)
    requires Inv(s) && id in s.outer
    ensures id in s.tickets && s.tickets[id] == Ticket(s.outer[id].job, s.outer[id].deadline, Waiting, None)
    ensures s.outer[id].job in s.jobs
  {
    assert OuterOk(s, id);
  }

  /** The steps of a run that thread t took itself. */
  ghost function OwnPart(run: seq<Event>, t: Tid): seq<Step> {
    if run == [] then []
    else
      var e := run[|run| - 1];
      OwnPart(run[..|run| - 1], t) + if e.t == t then [e.step] else []
  }

  lemma {:induction false} OwnPartExtends(run: seq<Event>, e: Event, t: Tid)
    ensures OwnPart(run + [e], t) == if e.t == t then OwnPart(run, t) + [e.step] else OwnPart(run, t)
  {
    assert (run + [e])[..|run|] == run;
  }

  lemma FreshIdExists(s: Sys)
    ensures exists id :: Fresh(s, id)
  {
    var id := UnusedIn(s.tickets.Keys + s.direct);
    assert Fresh(s, id);
  }

  lemma FreshJobExists(s: Sys)
    ensures exists job :: FreshJob(s, job)
  {
    var job := UnusedIn(s.jobs.Keys);
    assert FreshJob(s, job);
  }
}
