/**
  `ProfileConnectionLifecycleService`: what must be gone before a profile's row is deleted.  Sessions and
  tunnels live in SessionProtocol, drives in DriveProtocol; other threads and processes act in between.
 */
module ConnectionLifecycle {
  import opened Wrappers
  import opened SessionErrors
  import PluginSessions
  import P = SessionProtocol
  import S = SessionServices
  import A = SessionAnswers
  import T = TrackedSessions
  import D = DriveMounts
  import DP = DriveProtocol

  type Profile = P.Profile

  datatype LifecycleError =
    | ConnectionsActive                  // profile.connections.active
    | Reported(error: AppError)          // a poll reported a failure
    | StopFailed(raised: Raised)
    | DrivesFailed(drive: D.DriveError)
    | StoreFailed

  datatype Counts = Counts(ec2: nat, rds: nat, drives: nat)

  predicate HasActive(c: Counts) {
    c.ec2 > 0 || c.rds > 0 || c.drives > 0
  }

  predicate IsRunning(reports: seq<T.Report>, profile: Profile, i: nat)
    requires i < |reports|
  {
    reports[i].profile == profile && reports[i].state.Running?
  }

  function RunningAt(reports: seq<T.Report>, profile: Profile): set<nat> {
    set i: nat | i < |reports| && IsRunning(reports, profile, i)
  }

  /** How many operations of the profile are reported as running. */
  function Running(reports: seq<T.Report>, profile: Profile): (n: nat)
    ensures n == |RunningAt(reports, profile)|
    ensures n == 0 <==> forall i | 0 <= i < |reports| && reports[i].profile == profile :: !reports[i].state.Running?
  {
    if reports == [] then
      assert RunningAt(reports, profile) == {};
      0
    else
      var n := |reports| - 1;
      RunningSnoc(reports, profile);
      assert forall i | 0 <= i < n :: reports[i] == reports[..n][i];
      Running(reports[..n], profile) + if IsRunning(reports, profile, n) then 1 else 0
  }

  lemma RunningSnoc(reports: seq<T.Report>, profile: Profile)
    requires reports != []
    ensures var n := |reports| - 1;
      RunningAt(reports, profile) == RunningAt(reports[..n], profile) + (if IsRunning(reports, profile, n) then {n} else {})
      && n !in RunningAt(reports[..n], profile)
  {
  }

  /** The first error among the profile's reports. */
  function FirstReported(reports: seq<T.Report>, profile: Profile): Option<AppError> {
    if reports == [] then None
    else if reports[0].profile == profile && reports[0].error.Some? then reports[0].error
    else FirstReported(reports[1..], profile)
  }

  /** Every session and tunnel of the profile that is tracked now was started after state `since`. */
  ghost predicate OnlyStartedSince(now: P.Sys, since: P.Sys, profile: Profile) {
    && (forall op | op in now.external && now.external[op].profile == profile :: op !in since.tracked)
    && (forall op | op in now.managed && now.managed[op].profile == profile :: op !in since.tracked)
  }

  /** The first EC2 stop that failed, or else the first RDS stop that did. */
  ghost predicate RaisesEarliest(r: Result<(), Raised>, ec2: seq<T.StopRecord>, rds: seq<T.StopRecord>) {
    var first := FirstFailure(T.Verdicts(ec2));
    (if r.Err? then Some(r.error) else None) == if first.Some? then first else FirstFailure(T.Verdicts(rds))
  }

  /** What the two polls reported, with the calls made for each report; `table` is the one the tunnels were polled from. */
  datatype Polls = Polls(
    sessions: seq<T.Report>, sessionCalls: seq<seq<PluginSessions.Call>>,
    table: map<P.Op, P.Entry>, tunnels: seq<T.Report>, tunnelCalls: seq<seq<PluginSessions.Call>>)
  {
    function Failure(profile: Profile): Option<AppError> {
      if FirstReported(sessions, profile).Some? then FirstReported(sessions, profile) else FirstReported(tunnels, profile)
    }
  }

  /** What the polls come to: the first failure of the profile they report, or what they found running. */
  function Counted(polls: Polls, profile: Profile, drives: nat): Result<Counts, LifecycleError> {
    if polls.Failure(profile).Some? then Err(Reported(polls.Failure(profile).value))
    else Ok(Counts(Running(polls.sessions, profile), Running(polls.tunnels, profile), drives))
  }

  /** What stands in the way of a deletion before anything is stopped. */
  function Objection(polls: Polls, profile: Profile, drives: nat, stopActive: bool): Option<LifecycleError> {
    match Counted(polls, profile, drives)
    case Err(error) => Some(error)
    case Ok(counts) => if HasActive(counts) && !stopActive then Some(ConnectionsActive) else None
  }

  /** Nothing stands in the way exactly if no poll reports a failure, and nothing is running or it may be stopped. */
  lemma ObjectionIffActive(polls: Polls, profile: Profile, drives: nat, stopActive: bool)
    ensures Objection(polls, profile, drives, stopActive).None? <==>
      && (forall i | 0 <= i < |polls.sessions| && polls.sessions[i].profile == profile :: polls.sessions[i].error.None?)
      && (forall i | 0 <= i < |polls.tunnels| && polls.tunnels[i].profile == profile :: polls.tunnels[i].error.None?)
      && (stopActive || (
            && drives == 0
            && (forall i | 0 <= i < |polls.sessions| && polls.sessions[i].profile == profile :: !polls.sessions[i].state.Running?)
            && forall i | 0 <= i < |polls.tunnels| && polls.tunnels[i].profile == profile :: !polls.tunnels[i].state.Running?))
  {
    NothingReported(polls.sessions, profile);
    NothingReported(polls.tunnels, profile);
  }

  lemma {:induction false} NothingReported(reports: seq<T.Report>, profile: Profile)
    ensures FirstReported(reports, profile).None? <==> forall i | 0 <= i < |reports| && reports[i].profile == profile :: reports[i].error.None?
    decreases |reports|
  {
    if reports != [] {
      NothingReported(reports[1..], profile);
      assert forall i | 1 <= i < |reports| :: reports[i] == reports[1..][i - 1];
    }
  }

  /** The error raised is the profile's with the smallest index. */
  lemma {:induction false} FirstReportedIsFirst(reports: seq<T.Report>, profile: Profile) returns (i: nat)
    requires FirstReported(reports, profile).Some?
    ensures i < |reports| && reports[i].profile == profile && reports[i].error == FirstReported(reports, profile)
    ensures forall j | 0 <= j < i && reports[j].profile == profile :: reports[j].error.None?
    decreases |reports|
  {
    if reports[0].profile == profile && reports[0].error.Some? {
      i := 0;
    } else {
      i := FirstReportedIsFirst(reports[1..], profile);
      assert forall j | 1 <= j < |reports| :: reports[j] == reports[1..][j - 1];
      i := i + 1;
    }
  }

  class ProfileConnectionLifecycleService {
    const host: S.SessionHost
    const ec2: T.Ec2Service
    const rds: T.RdsTunnelService
    const drives: D.S3DriveService
    var profiles: set<Profile>    // rows of the profile store

    constructor (ec2: T.Ec2Service, rds: T.RdsTunnelService, drives: D.S3DriveService, profiles: set<Profile>)
      ensures this.ec2 == ec2 && this.rds == rds && this.drives == drives && this.profiles == profiles && host == ec2.host
    {
      this.ec2, this.rds, this.drives, this.profiles, this.host := ec2, rds, drives, profiles, ec2.host;
    }

    ghost predicate Ready(t: P.Tid)
      reads this, host, ec2, rds, drives, drives.mount, drives.mount.machine
    {
      && ec2.host == host && rds.host == host && ec2.runner == rds.runner
      && ec2.Idle(t) && rds.Idle(t) && drives.Ready()
    }

    /**
      `active`: polls everything, and raises the first failure a poll of this profile reports; otherwise it counts
      what the polls found running, and the drives whose status is not among the `disconnected` ones.  Every report
      is backed by the calls made for it.
     */
    method Active(t: P.Tid, profile: Profile, disconnected: set<DP.DriveId>) returns (r: Result<Counts, LifecycleError>, ghost polls: Polls)
      requires Ready(t)
      modifies host, ec2.runner.plugin, rds`stops
      ensures Ready(t) && P.Forward(old(host.sys), host.sys)
      ensures r.Ok? && r.value.ec2 == 0 && r.value.rds == 0 ==> OnlyStartedSince(host.sys, old(host.sys), profile)
      ensures r == Counted(polls, profile, |D.DrivesOf(drives.Table(), Some(profile)) - disconnected|)
      ensures Backed(polls, old(host.external), old(ec2.runner.plugin.calls))
    {
      hide P.Inv, P.IsRun, P.After, P.Forward, P.Gone, OnlyStartedSince, Running, FirstReported, S.Kept, T.Witnessed;
      hide T.Checked, T.AllGone, T.EndedIn, T.ProfilesFrom, T.OpsOf, S.SessionHost.Answered, D.RcloneDriveMount.Consistent,
        D.RcloneDriveMount.At;
      ghost var s0 := host.sys;
      P.TablesAreTracked(s0);
      var sessions, tunnels;
      ghost var sessionCalls, tunnelCalls, at, before;
      sessions, sessionCalls := ec2.Reap(t);
      ghost var s1, answers, calls := host.sys, host.answers, ec2.runner.plugin.calls;
      tunnels, tunnelCalls, at, before := rds.ActiveTunnels(t, Some(profile));
      P.ForwardTrans(s0, s1, host.sys);
      T.WitnessedStays(s1, host.sys, answers, host.answers, P.Ec2, s0.external, old(ec2.runner.plugin.calls), calls, sessions, sessionCalls);
      polls := Polls(sessions, sessionCalls, before, tunnels, tunnelCalls);
      var failure := FirstReported(sessions, profile);
      if failure.None? { failure := FirstReported(tunnels, profile); }
      if failure.Some? { return Err(Reported(failure.value)), polls; }
      var shown := CountDrives(profile, disconnected);
      r := Ok(Counts(Running(sessions, profile), Running(tunnels, profile), shown));
      if r.value.ec2 == 0 && r.value.rds == 0 {
        NothingRunning(s0, s1, host.sys, profile, sessions, tunnels, before);
      }
    }

    /** The profile's drives that `list` does not show as disconnected. */
    method CountDrives(profile: Profile, disconnected: set<DP.DriveId>) returns (n: nat)
      ensures n == |D.DrivesOf(drives.Table(), Some(profile)) - disconnected|
    {
      var saved := drives.SavedDrives(Some(profile));
      n := 0;
      ghost var counted: set<DP.DriveId> := {};
      for k := 0 to |saved|
        invariant n == |counted| && forall d :: d in counted <==> d in saved[..k] && d !in disconnected
      {
        assert saved[..k + 1] == saved[..k] + [saved[k]];
        assert saved[k] !in saved[..k];
        if saved[k] !in disconnected { n, counted := n + 1, counted + {saved[k]}; }
      }
      assert saved[..|saved|] == saved;
      assert counted == D.DrivesOf(drives.Table(), Some(profile)) - disconnected;
    }

    /** The reports are what the calls on the plugin and the answers of EndSession come to, sessions first. */
    ghost predicate Backed(polls: Polls, external: map<P.Op, P.Entry>, callsBefore: seq<PluginSessions.Call>)
      reads host, ec2, ec2.runner, ec2.runner.plugin
    {
      exists calls ::
        && T.Witnessed(host.sys.sessions, host.answers, P.Ec2, external, callsBefore, calls, polls.sessions, polls.sessionCalls)
        && T.Witnessed(host.sys.sessions, host.answers, P.Rds, polls.table, calls, ec2.runner.plugin.calls, polls.tunnels, polls.tunnelCalls)
    }

    /** Both tables are emptied of the profile, whatever fails; what is raised is the earliest failure, EC2 first. */
    method StopSessions(t: P.Tid, profile: Profile) returns (r: Result<(), Raised>)
      requires Ready(t)
      modifies host, ec2.runner.plugin, ec2`stops, rds`stops
      ensures Ready(t) && P.Forward(old(host.sys), host.sys) && OnlyStartedSince(host.sys, old(host.sys), profile)
      ensures old(ec2.stops) <= ec2.stops && old(rds.stops) <= rds.stops
      ensures T.StoppedOps(ec2.stops[|old(ec2.stops)|..]) == T.Matching(old(host.external), Some(profile))
      ensures RaisesEarliest(r, ec2.stops[|old(ec2.stops)|..], rds.stops[|old(rds.stops)|..])
      ensures T.AllBacked(host.sys.sessions, host.answers, ec2.stops[|old(ec2.stops)|..])
      ensures T.AllBacked(host.sys.sessions, host.answers, rds.stops[|old(rds.stops)|..])
    {
      hide P.Inv, P.IsRun, P.After, P.Forward, P.Gone, OnlyStartedSince, T.AllGone, FirstFailure, T.StoppedOps,
        S.Kept, S.SessionHost.Answered, D.RcloneDriveMount.Consistent, D.RcloneDriveMount.At, T.AllBacked,
        T.CallsOf;
      ghost var s0 := host.sys;
      P.TablesAreTracked(s0);
      var ec2Stopped := ec2.StopExternalForProfile(t, profile);
      ghost var s1, answers := host.sys, host.answers;
      var rdsStopped;
      ghost var at, before;
      rdsStopped, at, before := rds.StopAll(t, Some(profile));
      P.ForwardTrans(s0, s1, host.sys);
      NothingLeft(s0, s1, host.sys, profile, before);
      T.AllBackedStay(s1, host.sys, answers, host.answers, ec2.stops[|old(ec2.stops)|..]);
      r := if ec2Stopped.Err? then Err(ec2Stopped.error) else if rdsStopped.Err? then Err(rdsStopped.error) else Ok(());
    }

    /**
      `delete`.  At the moment a profile's row is deleted, its sessions and tunnels are ones whose start was
      still in flight when the call began or came later, none of the drives it had then is mounted by this
      process, and every drive in the table listed during the call is quiet unless some process registered a
      child for it after its check; otherwise the row stays, for the first of these reasons: a poll, active
      connections, a stop, the drives, the store.
     */
    method Delete(t: P.Tid, profile: Profile, stopActive: bool, disconnected: set<DP.DriveId>, stored: bool)
      returns (r: Result<(), LifecycleError>, ghost polls: Polls, ghost n: nat, ghost p: D.Preparation)
      requires Ready(t)
      modifies this`profiles, host, ec2.runner.plugin, ec2`stops, rds`stops, drives.mount.machine, drives.mount`mounts, drives.mount`did,
        drives.mount`stops, drives.mount`raised, drives.mount`found, drives.mount`letterFree
      ensures Ready(t)
      ensures profiles == if r.Ok? then old(profiles) - {profile} else old(profiles)
      ensures r.Ok? ==> OnlyStartedSince(host.sys, old(host.sys), profile)
      ensures r.Ok? ==> forall d | d in D.DrivesOf(old(drives.Table()), Some(profile)) :: d !in drives.mount.mounts
      ensures r.Ok? ==> |old(drives.mount.machine.trace)| <= p.listedAt
      ensures r.Ok? ==> D.TableAt(drives.mount.machine.start, drives.mount.machine.trace, p.listedAt, p.listed)
      ensures r.Ok? ==> drives.AllChecked(D.DrivesOf(p.listed, Some(profile)), p.listedAt, p.checks)
      ensures var objection := Objection(polls, profile, |D.DrivesOf(old(drives.Table()), Some(profile)) - disconnected|, stopActive);
        && (objection.Some? ==> r == Err(objection.value) && drives.mount.mounts == old(drives.mount.mounts))
        && (objection.None? ==> r == Ok(()) || r == Err(StoreFailed) || (r.Err? && (r.error.StopFailed? || r.error.DrivesFailed?)))
      ensures r.Err? && r.error.StopFailed? ==> old(ec2.stops) <= ec2.stops && StopsRefuse(r.error.raised, |old(ec2.stops)|, n)
      ensures r.Err? && r.error.DrivesFailed? ==> DrivesRefuse(r.error.drive, p, old(drives.mount.stops), old(drives.mount.did),
        old(drives.mount.raised), |old(drives.mount.machine.trace)|)
      ensures r.Ok? ==> stored
      ensures r == Err(StoreFailed) ==> !stored
    {
      hide P.Inv, P.IsRun, P.After, P.Forward, P.Gone, OnlyStartedSince, DP.Inv, DP.IsRun, DP.After, D.TableAt,
        D.QuietSince, S.SessionHost.Consistent, D.RcloneDriveMount.Consistent, D.RcloneDriveMount.Linked,
        T.StoppedOps, RaisesEarliest, T.AllBacked, Backed, Running, FirstReported, Polls.Failure, D.S3DriveService.Stops, D.RcloneDriveMount.Refused,
        StopsRefuse, D.RcloneDriveMount.At, D.S3DriveService.AllChecked, D.DrivesOf;
      n, p := 0, D.Preparation(None, 0, map[], map[], 0, []);
      ghost var s0 := host.sys;
      var active;
      active, polls := Active(t, profile, disconnected);
      if active.Err? { return Err(active.error), polls, n, p; }
      if HasActive(active.value) && !stopActive { return Err(ConnectionsActive), polls, n, p; }
      if HasActive(active.value) {
        var stopped;
        stopped, n := StopThem(t, profile, s0);
        if stopped.Err? { return Err(StopFailed(stopped.error)), polls, n, p; }
      }
      var prepared;
      prepared, p := drives.PrepareProfileDeletion(profile);
      if prepared.Err? { return Err(DrivesFailed(prepared.error)), polls, n, p; }
      if !stored { return Err(StoreFailed), polls, n, p; }
      profiles := profiles - {profile};
      r := Ok(());
    }

    /** Stops everything; `s0` is an earlier state, and the RDS stops begin after `n` of them. */
    method StopThem(t: P.Tid, profile: Profile, ghost s0: P.Sys) returns (r: Result<(), Raised>, ghost n: nat)
      requires Ready(t) && P.Forward(s0, host.sys)
      modifies host, ec2.runner.plugin, ec2`stops, rds`stops
      ensures Ready(t) && OnlyStartedSince(host.sys, s0, profile)
      ensures r.Err? ==> old(ec2.stops) <= ec2.stops && StopsRefuse(r.error, |old(ec2.stops)|, n)
    {
      hide P.Inv, P.IsRun, P.After, P.Forward, P.Gone, OnlyStartedSince, S.SessionHost.Consistent, D.RcloneDriveMount.Consistent,
        D.RcloneDriveMount.At, T.StoppedOps, RaisesEarliest, T.AllBacked;
      ghost var s1, ec2Before := host.sys, |ec2.stops|;
      n := |rds.stops|;
      r := StopSessions(t, profile);
      StartedSinceEarlier(s0, s1, host.sys, profile);
      if r.Err? { assert r == Err(r.error); }
    }

    /** The earliest failure among these stops, EC2 first, each of which its calls and EndSession account for. */
    ghost predicate StopsRefuse(raised: Raised, ec2Before: nat, rdsBefore: nat)
      reads this, host, ec2, rds
    {
      && ec2Before <= |ec2.stops| && rdsBefore <= |rds.stops|
      && RaisesEarliest(Err(raised), ec2.stops[ec2Before..], rds.stops[rdsBefore..])
      && T.AllBacked(host.sys.sessions, host.answers, ec2.stops[ec2Before..])
      && T.AllBacked(host.sys.sessions, host.answers, rds.stops[rdsBefore..])
    }

    /** The drives could not be prepared: a disconnect failed, or else the edit check of a drive refused. */
    ghost predicate DrivesRefuse(
      error: D.DriveError, p: D.Preparation, stops: seq<D.Stopped>, did: seq<DP.Step>, raised: seq<D.DriveError>, from: nat)
      reads this, drives, drives.mount, drives.mount.machine
    {
      if p.first.Some? then error == p.first.value && drives.Stops(stops, did, raised, from)
      else drives.mount.Refused(p.last, error, p.sofar, raised, from)
    }
  }

  lemma StartedSinceEarlier(s0: P.Sys, s1: P.Sys, s2: P.Sys, profile: Profile)
    requires P.Forward(s0, s1) && OnlyStartedSince(s2, s1, profile)
    ensures OnlyStartedSince(s2, s0, profile)
  {
  }

  /** After both stops, what is tracked of the profile was started since. */
  lemma NothingLeft(s0: P.Sys, s1: P.Sys, s2: P.Sys, profile: Profile, before: map<P.Op, P.Entry>)
    requires P.Inv(s2) && P.Forward(s0, s2) && P.Forward(s1, s2)
    requires T.AllGone(s1, T.Matching(s0.external, Some(profile)))
    requires s2.managed == before - T.Matching(before, Some(profile))
    ensures OnlyStartedSince(s2, s0, profile)
  {
    hide P.Inv, P.Forward, P.Gone;
    forall op | op in s2.external && s2.external[op].profile == profile ensures op !in s0.tracked {
      if op in s0.tracked {
        P.ForwardOp(s0, s2, op);
        assert op in T.Matching(s0.external, Some(profile));
        P.GoneStays(s1, s2, op);
        GoneIsNotListed(s2, op);
      }
    }
  }

  /** If no poll finds anything of the profile running, what is tracked now was started since. */
  lemma NothingRunning(
    s0: P.Sys, s1: P.Sys, s2: P.Sys, profile: Profile, sessions: seq<T.Report>, tunnels: seq<T.Report>, before: map<P.Op, P.Entry>)
    requires P.Inv(s2) && P.Forward(s0, s2) && P.Forward(s1, s2)
    requires T.ProfilesFrom(sessions, s0.external) && T.OpsOf(sessions) == s0.external.Keys
    requires T.AllGone(s1, T.EndedIn(sessions))
    requires T.ProfilesFrom(tunnels, before) && T.OpsOf(tunnels) == T.Matching(before, Some(profile))
    requires T.Checked(before, s2.managed, s2, tunnels)
    requires Running(sessions, profile) == 0 && Running(tunnels, profile) == 0
    ensures OnlyStartedSince(s2, s0, profile)
  {
    hide P.Inv, P.Forward, P.Gone;
    forall op | op in s2.external && s2.external[op].profile == profile ensures op !in s0.tracked {
      if op in s0.tracked {
        P.ForwardOp(s0, s2, op);
        assert op in T.OpsOf(sessions);
        var i :| 0 <= i < |sessions| && sessions[i].op == op;
        P.GoneStays(s1, s2, op);
        GoneIsNotListed(s2, op);
      }
    }
    forall op | op in s2.managed ensures s2.managed[op].profile != profile {
      assert op in before && s2.managed[op] == before[op] && op !in T.EndedIn(tunnels);
      assert before[op].profile == profile ==> op in T.OpsOf(tunnels);
    }
  }

  lemma GoneIsNotListed(s: P.Sys, op: P.Op)
    requires P.Gone(s, op)
    ensures op !in s.external && op !in s.managed
  {
  }
}
