/**
 The bridge restart supervisor of src/main.py as a transition system. A step is what one task does
 between two awaits; tasks of all tenants interleave freely at the awaits. Acquiring a free lock
 does not suspend, so the first segment of a restart runs from the flag test to the first await
 inside the body; had the lock been taken, the task would queue with its permission check behind it.
 */
module Supervisor {
  import opened Wrappers
  import opened Windows
  import opened RestartLog

  type JobId = nat

  datatype Phase =
    | Queued                   // waiting for the restart lock
    | Stopping                 // awaiting the old bridge's stop
    | Cooling(until: Time)     // sleeping out the cooldown
    | Launching                // awaiting the new bridge's start
    | Finished(ok: bool)

  /** One call of `_restart_bridge`, from a crash or from a disconnect. */
  datatype Job = Job(tenant: string, crash: bool, phase: Phase)

  datatype HealthEvent = CheckFailed | CheckPassed | BridgeRestarted | MarkedOffline

  /** What the steps depend on of a tenant. */
  datatype Standing = Standing(
    restarting: bool,
    lock: Option<JobId>,
    hasAuth: bool,
    hasCreds: bool,
    failures: nat,
    connection: string)

  const FRESH := Standing(false, None, false, false, 0, "disconnected")

  /** The last four fields are history: nothing the program does depends on them. */
  datatype State = State(
    clock: Time,
    tenants: map<string, Standing>,
    registered: set<string>,
    history: History,
    lastCleanup: Time,
    jobs: map<JobId, Job>,
    everyRestart: History,
    cutShort: set<string>,       // the latest restart was cancelled before its cooldown was over
    health: map<string, seq<HealthEvent>>)

  datatype Action =
    | Register(h: string)
    | Delete(h: string)
    | Begin(job: JobId, h: string, crash: bool)
    | LockGranted(job: JobId)
    | StopReturned(job: JobId)       // with or without an exception, which is swallowed
    | Woke(job: JobId)
    | LaunchReturned(job: JobId, ok: bool)
    | Cancel(job: JobId)
    | SessionUpdate(h: string, connection: string, hasAuth: Option<bool>)
    | AuthUpdate(h: string)
    | ClearCreds(h: string)
    | HealthResult(h: string, outcome: Outcome)

  datatype Label = Label(action: Action, at: Time)

  function Init(start: Time): State {
    State(start, map[], {}, map[], start, map[], map[], {}, map[])
  }

  predicate InBody(phase: Phase) {
    phase.Stopping? || phase.Cooling? || phase.Launching?
  }

  predicate HasValidAuth(t: Standing) {
    t.hasAuth || t.hasCreds
  }

  predicate Enabled(s: State, l: Label) {
    && s.clock <= l.at
    && match l.action
       case Register(h) => h !in s.tenants
       case Delete(h) => h in s.registered
       case Begin(j, h, _) => j !in s.jobs && h in s.tenants
       case LockGranted(j) => InPhase(s, j) && s.jobs[j].phase.Queued? && s.tenants[s.jobs[j].tenant].lock.None?
       case StopReturned(j) => InPhase(s, j) && s.jobs[j].phase.Stopping?
       case Woke(j) => InPhase(s, j) && s.jobs[j].phase.Cooling? && s.jobs[j].phase.until <= l.at
       case LaunchReturned(j, _) => InPhase(s, j) && s.jobs[j].phase.Launching?
       case Cancel(j) => InPhase(s, j) && !s.jobs[j].phase.Finished?
       case SessionUpdate(h, _, _) => h in s.tenants
       case AuthUpdate(h) => h in s.tenants
       case ClearCreds(h) => h in s.tenants
       case HealthResult(h, _) => h in s.tenants
  }

  predicate InPhase(s: State, j: JobId) {
    j in s.jobs && s.jobs[j].tenant in s.tenants
  }

  // ---- The segments ----

  function SetPhase(s: State, j: JobId, phase: Phase): State
    requires j in s.jobs
  {
    s.(jobs := s.jobs[j := s.jobs[j].(phase := phase)])
  }

  /** A crash handler whose restart did not succeed marks the tenant disconnected in the same segment. */
  function AfterFailure(t: Standing, crash: bool): Standing {
    if crash then t.(connection := "disconnected") else t
  }

  function Refuse(s: State, j: JobId, h: string, crash: bool): State
    requires h in s.tenants
  {
    s.(jobs := s.jobs[j := Job(h, crash, Finished(false))],
       tenants := s.tenants[h := AfterFailure(s.tenants[h], crash)])
  }

  /** Lines under the lock up to the first await: set the flag, record the restart. */
  function EnterBody(s: State, j: JobId, h: string, crash: bool, now: Time): State
    requires h in s.tenants
  {
    s.(tenants := s.tenants[h := s.tenants[h].(restarting := true, lock := Some(j))],
       history := Recorded(s.history, h, now),
       everyRestart := Recorded(s.everyRestart, h, now),
       cutShort := s.cutShort - {h},
       jobs := s.jobs[j := Job(h, crash, Stopping)])
  }

  /** The permission check, with the sweep it may trigger. */
  function AfterCheck(cfg: Settings, s: State, h: string, now: Time): State {
    s.(history := Checked(cfg, s.history, s.lastCleanup, s.registered, h, now),
       lastCleanup := if SweepDue(s.lastCleanup, now) then now else s.lastCleanup)
  }

  predicate Permitted(cfg: Settings, s: State, h: string, now: Time) {
    cfg.autoRestart
    && |Of(Checked(cfg, s.history, s.lastCleanup, s.registered, h, now), h)| < cfg.maxAttempts
  }

  function BeginRestart(cfg: Settings, s: State, j: JobId, h: string, crash: bool, now: Time): State
    requires h in s.tenants
  {
    var t := s.tenants[h];
    if t.restarting || !HasValidAuth(t) then Refuse(s, j, h, crash)
    else
      var checked := AfterCheck(cfg, s, h, now);
      if !Permitted(cfg, s, h, now) then Refuse(checked, j, h, crash)
      else if t.lock.Some? then checked.(jobs := s.jobs[j := Job(h, crash, Queued)])
      else EnterBody(checked, j, h, crash, now)
  }

  /** A queued task gets the lock; it tests the flag again but not the permission. */
  function Granted(s: State, j: JobId, now: Time): State
    requires InPhase(s, j)
  {
    var job := s.jobs[j];
    if s.tenants[job.tenant].restarting then Refuse(s, j, job.tenant, job.crash)
    else EnterBody(s, j, job.tenant, job.crash, now)
  }

  function Note(s: State, h: string, event: HealthEvent): map<string, seq<HealthEvent>> {
    s.health[h := Of(s.health, h) + [event]]
  }

  /** Leaving the body: the flag is cleared, then the lock is released. */
  function Leave(s: State, j: JobId, ok: bool): State
    requires InPhase(s, j)
  {
    var job := s.jobs[j];
    var freed := s.tenants[job.tenant].(restarting := false, lock := None);
    if ok then
      SetPhase(s, j, Finished(true)).(
        tenants := s.tenants[job.tenant := freed.(failures := 0)],
        health := Note(s, job.tenant, BridgeRestarted))
    else
      SetPhase(s, j, Finished(false)).(
        tenants := s.tenants[job.tenant := AfterFailure(freed, job.crash)])
  }

  /** Cancellation skips the crash handler's update; the `finally` and the lock's exit still run. */
  function Cancelled(s: State, j: JobId): State
    requires InPhase(s, j)
  {
    var job := s.jobs[j];
    var t := s.tenants[job.tenant];
    SetPhase(s, j, Finished(false)).(
      tenants := s.tenants[job.tenant := if InBody(job.phase) then t.(restarting := false, lock := None) else t],
      cutShort := if job.phase.Stopping? || job.phase.Cooling? then s.cutShort + {job.tenant} else s.cutShort)
  }

  function Updated(t: Standing, connection: string, hasAuth: Option<bool>): Standing {
    var t' := t.(connection := connection);
    if hasAuth.Some? then t'.(hasAuth := hasAuth.value) else t'
  }

  function Checkup(cfg: Settings, s: State, h: string, outcome: Outcome): State
    requires h in s.tenants
  {
    var t := s.tenants[h];
    var checked := t.(failures := FailuresAfter(t.failures, outcome));
    if GoesOffline(cfg, t.failures, outcome) then
      s.(tenants := s.tenants[h := checked.(connection := "disconnected")],
         health := s.health[h := Of(s.health, h) + [CheckFailed, MarkedOffline]])
    else
      match outcome
      case Errored => s
      case Healthy => s.(tenants := s.tenants[h := checked], health := Note(s, h, CheckPassed))
      case _ => s.(tenants := s.tenants[h := checked], health := Note(s, h, CheckFailed))
  }

  function Perform(cfg: Settings, s: State, l: Label): State
    requires Enabled(s, l)
  {
    match l.action
    case Register(h) => s.(tenants := s.tenants[h := FRESH], registered := s.registered + {h})
    case Delete(h) => s.(registered := s.registered - {h})
    case Begin(j, h, crash) => BeginRestart(cfg, s, j, h, crash, l.at)
    case LockGranted(j) => Granted(s, j, l.at)
    case StopReturned(j) => SetPhase(s, j, Cooling(l.at + cfg.cooldown))
    case Woke(j) => SetPhase(s, j, Launching)
    case LaunchReturned(j, ok) => Leave(s, j, ok)
    case Cancel(j) => Cancelled(s, j)
    case SessionUpdate(h, connection, hasAuth) =>
      s.(tenants := s.tenants[h := Updated(s.tenants[h], connection, hasAuth)])
    case AuthUpdate(h) => s.(tenants := s.tenants[h := s.tenants[h].(hasAuth := true, hasCreds := true)])
    case ClearCreds(h) => s.(tenants := s.tenants[h := s.tenants[h].(hasAuth := false, hasCreds := false)])
    case HealthResult(h, outcome) => Checkup(cfg, s, h, outcome)
  }

  function Step(cfg: Settings, s: State, l: Label): State
    requires Enabled(s, l)
  {
    Perform(cfg, s, l).(clock := l.at)
  }

  /** The state after a run, or None if some step of it was not possible. */
  function Run(cfg: Settings, start: Time, labels: seq<Label>): Option<State> {
    if labels == [] then Some(Init(start))
    else
      var before := Run(cfg, start, labels[..|labels| - 1]);
      if before.Some? && Enabled(before.value, labels[|labels| - 1])
      then Some(Step(cfg, before.value, labels[|labels| - 1])) else None
  }

  // ---- Mutual exclusion ----

  type Standings = map<string, Standing>
  type Jobs = map<JobId, Job>

  ghost predicate GuardsMatch(tenants: Standings, jobs: Jobs, h: string) {
    && h in tenants
    && (tenants[h].restarting <==> tenants[h].lock.Some?)
    && (tenants[h].lock.Some? ==>
          var j := tenants[h].lock.value;
          j in jobs && jobs[j].tenant == h && InBody(jobs[j].phase))
  }

  ghost predicate JobHoldsLock(tenants: Standings, jobs: Jobs, j: JobId) {
    && j in jobs && jobs[j].tenant in tenants
    && !jobs[j].phase.Queued?
    && (InBody(jobs[j].phase) ==> tenants[jobs[j].tenant].lock == Some(j))
  }

  /**
   At every suspension point the lock is held exactly when the flag is set, by the one job in its
   body, and nobody waits for it.
   */
  ghost predicate Exclusive(s: State) {
    && (forall h :: h in s.tenants ==> GuardsMatch(s.tenants, s.jobs, h))
    && (forall j :: j in s.jobs ==> JobHoldsLock(s.tenants, s.jobs, j))
  }

  /** A step of one job of one tenant only has to be checked there. */
  lemma OneJob(s: State, s': State, h: string, t': Standing, j: JobId, job': Job)
    requires Exclusive(s) && h in s.tenants
    requires s'.tenants == s.tenants[h := t'] && s'.jobs == s.jobs[j := job']
    requires job'.tenant == h && (j in s.jobs ==> s.jobs[j].tenant == h)
    requires s.tenants[h].lock == None || s.tenants[h].lock == Some(j) || t'.lock == s.tenants[h].lock
    requires GuardsMatch(s'.tenants, s'.jobs, h) && JobHoldsLock(s'.tenants, s'.jobs, j)
    ensures Exclusive(s')
  {
    forall k | k in s'.jobs
      ensures JobHoldsLock(s'.tenants, s'.jobs, k)
    {
      if k != j {
        assert JobHoldsLock(s.tenants, s.jobs, k);
      }
    }
    forall g | g in s'.tenants
      ensures GuardsMatch(s'.tenants, s'.jobs, g)
    {
      if g != h {
        assert GuardsMatch(s.tenants, s.jobs, g);
      }
    }
  }

  /** Updates that leave flag and lock alone keep exclusion. */
  lemma OneTenant(s: State, s': State, h: string)
    requires Exclusive(s)
    requires h in s'.tenants && s'.tenants == s.tenants[h := s'.tenants[h]] && s'.jobs == s.jobs
    requires h in s.tenants ==>
               s'.tenants[h].restarting == s.tenants[h].restarting && s'.tenants[h].lock == s.tenants[h].lock
    requires h !in s.tenants ==> !s'.tenants[h].restarting && s'.tenants[h].lock == None
    ensures Exclusive(s')
  {
    forall k | k in s'.jobs
      ensures JobHoldsLock(s'.tenants, s'.jobs, k)
    {
      assert JobHoldsLock(s.tenants, s.jobs, k);
    }
    forall g | g in s'.tenants
      ensures GuardsMatch(s'.tenants, s'.jobs, g)
    {
      if g in s.tenants {
        assert GuardsMatch(s.tenants, s.jobs, g);
      }
    }
  }

  lemma RefusingKeepsExclusion(s: State, j: JobId, h: string, crash: bool)
    requires Exclusive(s) && j !in s.jobs && h in s.tenants
    ensures Exclusive(Refuse(s, j, h, crash))
  {
    hide Exclusive;
    Unfold(s, h, j);
    OneJob(s, Refuse(s, j, h, crash), h, AfterFailure(s.tenants[h], crash), j, Job(h, crash, Finished(false)));
  }

  lemma EnteringKeepsExclusion(s: State, j: JobId, h: string, crash: bool, now: Time)
    requires Exclusive(s) && j !in s.jobs && h in s.tenants && !s.tenants[h].restarting
    ensures s.tenants[h].lock == None
    ensures Exclusive(EnterBody(s, j, h, crash, now))
  {
    hide Exclusive, Recorded;
    Unfold(s, h, j);
    OneJob(s, EnterBody(s, j, h, crash, now), h, s.tenants[h].(restarting := true, lock := Some(j)),
           j, Job(h, crash, Stopping));
  }

  lemma BeginKeepsExclusion(cfg: Settings, s: State, j: JobId, h: string, crash: bool, now: Time)
    requires Exclusive(s) && j !in s.jobs && h in s.tenants
    ensures Exclusive(BeginRestart(cfg, s, j, h, crash, now))
  {
    hide Checked, Exclusive, Refuse, EnterBody;
    var checked := AfterCheck(cfg, s, h, now);
    ClockKeepsExclusion(s, checked);
    RefusingKeepsExclusion(s, j, h, crash);
    RefusingKeepsExclusion(checked, j, h, crash);
    if !s.tenants[h].restarting {
      EnteringKeepsExclusion(checked, j, h, crash, now);
    }
  }

  lemma Unfold(s: State, h: string, j: JobId)
    requires Exclusive(s)
    ensures h in s.tenants ==> GuardsMatch(s.tenants, s.jobs, h)
    ensures j in s.jobs ==> JobHoldsLock(s.tenants, s.jobs, j)
  {
  }

  lemma MovingKeepsExclusion(s: State, j: JobId, phase: Phase)
    requires Exclusive(s) && j in s.jobs && InBody(s.jobs[j].phase) && InBody(phase)
    ensures Exclusive(SetPhase(s, j, phase))
  {
    hide Exclusive;
    Unfold(s, "", j);
    var h := s.jobs[j].tenant;
    Unfold(s, h, j);
    OneJob(s, SetPhase(s, j, phase), h, s.tenants[h], j, s.jobs[j].(phase := phase));
  }

  lemma LeavingKeepsExclusion(s: State, j: JobId, ok: bool)
    requires Exclusive(s) && j in s.jobs && InBody(s.jobs[j].phase)
    ensures InPhase(s, j)
    ensures Exclusive(Leave(s, j, ok)) && Exclusive(Cancelled(s, j))
  {
    hide Exclusive;
    Unfold(s, "", j);
    var h := s.jobs[j].tenant;
    Unfold(s, h, j);
    OneJob(s, Leave(s, j, ok), h, Leave(s, j, ok).tenants[h], j, s.jobs[j].(phase := Finished(ok)));
    OneJob(s, Cancelled(s, j), h, Cancelled(s, j).tenants[h], j, s.jobs[j].(phase := Finished(false)));
  }

  lemma CheckupKeepsExclusion(cfg: Settings, s: State, h: string, outcome: Outcome)
    requires Exclusive(s) && h in s.tenants
    ensures Exclusive(Checkup(cfg, s, h, outcome))
  {
    hide Exclusive;
    if outcome != Errored {
      OneTenant(s, Checkup(cfg, s, h, outcome), h);
    }
  }

  lemma JobStepKeepsExclusion(cfg: Settings, s: State, l: Label)
    requires Exclusive(s) && Enabled(s, l)
    requires l.action.LockGranted? || l.action.StopReturned? || l.action.Woke? || l.action.LaunchReturned?
          || l.action.Cancel?
    ensures Exclusive(Perform(cfg, s, l))
  {
    hide Leave, Cancelled, Granted, Exclusive;
    Unfold(s, "", l.action.job);
    match l.action {
      case LockGranted(j) =>
      case StopReturned(j) => MovingKeepsExclusion(s, j, Cooling(l.at + cfg.cooldown));
      case Woke(j) => MovingKeepsExclusion(s, j, Launching);
      case LaunchReturned(j, ok) => LeavingKeepsExclusion(s, j, ok);
      case Cancel(j) => LeavingKeepsExclusion(s, j, false);
    }
  }

  lemma StepKeepsExclusion(cfg: Settings, s: State, l: Label)
    requires Exclusive(s) && Enabled(s, l)
    ensures Exclusive(Step(cfg, s, l))
  {
    hide BeginRestart, Granted, Leave, Cancelled, Checkup, Exclusive;
    match l.action {
      case Register(h) => OneTenant(s, Perform(cfg, s, l), h);
      case Delete(h) => ClockKeepsExclusion(s, Perform(cfg, s, l));
      case Begin(j, h, crash) => BeginKeepsExclusion(cfg, s, j, h, crash, l.at);
      case SessionUpdate(h, _, _) => OneTenant(s, Perform(cfg, s, l), h);
      case AuthUpdate(h) => OneTenant(s, Perform(cfg, s, l), h);
      case ClearCreds(h) => OneTenant(s, Perform(cfg, s, l), h);
      case HealthResult(h, outcome) => CheckupKeepsExclusion(cfg, s, h, outcome);
      case _ => JobStepKeepsExclusion(cfg, s, l);
    }
    ClockKeepsExclusion(Perform(cfg, s, l), Step(cfg, s, l));
  }

  lemma ClockKeepsExclusion(s: State, s': State)
    requires s.tenants == s'.tenants && s.jobs == s'.jobs
    ensures Exclusive(s) <==> Exclusive(s')
  {
  }

  lemma {:induction false} AlwaysExclusive(cfg: Settings, start: Time, labels: seq<Label>)
    requires Run(cfg, start, labels).Some?
    ensures Exclusive(Run(cfg, start, labels).value)
  {
    if labels != [] {
      AlwaysExclusive(cfg, start, labels[..|labels| - 1]);
      StepKeepsExclusion(cfg, Run(cfg, start, labels[..|labels| - 1]).value, labels[|labels| - 1]);
    }
  }

  /** Two restarts of one tenant are never in flight together. */
  lemma OneRestartInFlight(cfg: Settings, start: Time, labels: seq<Label>, i: JobId, j: JobId)
    requires Run(cfg, start, labels).Some?
    requires
      var jobs := Run(cfg, start, labels).value.jobs;
      && i in jobs && j in jobs && jobs[i].tenant == jobs[j].tenant
      && InBody(jobs[i].phase) && InBody(jobs[j].phase)
    ensures i == j
  {
    AlwaysExclusive(cfg, start, labels);
  }

  /** What the steps that record nothing leave alone. */
  ghost predicate LogsAlone(s: State, s': State) {
    && s'.history == s.history && s'.everyRestart == s.everyRestart
    && s'.registered <= s.registered && s'.tenants.Keys == s.tenants.Keys
    && s'.cutShort <= s.cutShort + s.tenants.Keys
    && forall h :: h !in s.tenants ==> Of(s'.health, h) == Of(s.health, h)
  }

  lemma LeavingLeavesLogsAlone(s: State, j: JobId, ok: bool)
    requires InPhase(s, j)
    ensures LogsAlone(s, Leave(s, j, ok)) && LogsAlone(s, Cancelled(s, j))
  {
  }

  lemma CheckupLeavesLogsAlone(cfg: Settings, s: State, h: string, outcome: Outcome)
    requires h in s.tenants
    ensures LogsAlone(s, Checkup(cfg, s, h, outcome))
  {
  }

  lemma QuietSteps(cfg: Settings, s: State, l: Label)
    requires Enabled(s, l) && !l.action.Register? && !l.action.Begin? && !l.action.LockGranted?
    ensures LogsAlone(s, Step(cfg, s, l))
  {
    hide Leave, Cancelled, Checkup;
    match l.action {
      case LaunchReturned(j, ok) => LeavingLeavesLogsAlone(s, j, ok);
      case Cancel(j) => LeavingLeavesLogsAlone(s, j, false);
      case HealthResult(h, outcome) => CheckupLeavesLogsAlone(cfg, s, h, outcome);
      case _ =>
    }
  }

  /**
   Check-then-record is not split: in a reachable state the only step that records a restart of a
   tenant is the one that has just checked its permission on the very log it appends to.
   */
  lemma RecordFollowsItsCheck(cfg: Settings, s: State, l: Label, h: string)
    requires Exclusive(s) && Enabled(s, l)
    requires Of(Step(cfg, s, l).everyRestart, h) != Of(s.everyRestart, h)
    ensures l.action.Begin? && l.action.h == h
    ensures Permitted(cfg, s, h, l.at) && HasValidAuth(s.tenants[h]) && !s.tenants[h].restarting
    ensures Of(Step(cfg, s, l).everyRestart, h) == Of(s.everyRestart, h) + [l.at]
    ensures Of(Step(cfg, s, l).history, h)
         == Of(Checked(cfg, s.history, s.lastCleanup, s.registered, h, l.at), h) + [l.at]
  {
    hide Checked, Exclusive, Granted, BeginRestart, Leave, Cancelled, Checkup;
    match l.action {
      case Register(_) =>
      case Begin(j, g, crash) => BeginRecords(cfg, s, j, g, crash, l.at, h);
      case LockGranted(j) => Unfold(s, "", j);
      case _ => QuietSteps(cfg, s, l);
    }
  }

  /** Whatever a restart request decides, it keeps credentials, counter and other tenants as they are. */
  ghost predicate RequestFrame(s: State, s': State, g: string) {
    && g in s.tenants && g in s'.tenants
    && s'.tenants == s.tenants[g := s'.tenants[g]]
    && s'.tenants[g].hasAuth == s.tenants[g].hasAuth && s'.tenants[g].hasCreds == s.tenants[g].hasCreds
    && s'.tenants[g].failures == s.tenants[g].failures
    && (forall h :: h != g ==> Of(s'.everyRestart, h) == Of(s.everyRestart, h))
    && s'.health == s.health && s'.cutShort <= s.cutShort && s'.registered == s.registered
  }

  lemma RefusalFrame(s: State, s': State, j: JobId, g: string, crash: bool)
    requires g in s.tenants && s'.tenants == s.tenants && s'.everyRestart == s.everyRestart
    requires s'.health == s.health && s'.cutShort == s.cutShort && s'.registered == s.registered
    ensures RequestFrame(s, Refuse(s', j, g, crash), g)
  {
  }

  lemma EntryFrame(s: State, s': State, j: JobId, g: string, crash: bool, now: Time)
    requires g in s.tenants && s'.tenants == s.tenants && s'.everyRestart == s.everyRestart
    requires s'.health == s.health && s'.cutShort == s.cutShort && s'.registered == s.registered
    ensures RequestFrame(s, EnterBody(s', j, g, crash, now), g)
  {
  }

  lemma BeginFrame(cfg: Settings, s: State, j: JobId, g: string, crash: bool, now: Time)
    requires g in s.tenants
    ensures RequestFrame(s, BeginRestart(cfg, s, j, g, crash, now), g)
  {
    hide Checked, Refuse, EnterBody, Permitted;
    var checked := AfterCheck(cfg, s, g, now);
    RefusalFrame(s, s, j, g, crash);
    RefusalFrame(s, checked, j, g, crash);
    EntryFrame(s, checked, j, g, crash, now);
  }

  lemma BeginRecords(cfg: Settings, s: State, j: JobId, g: string, crash: bool, now: Time, h: string)
    requires g in s.tenants
    ensures
      var s' := BeginRestart(cfg, s, j, g, crash, now);
      Of(s'.everyRestart, h) != Of(s.everyRestart, h) ==>
        && g == h && Permitted(cfg, s, h, now) && HasValidAuth(s.tenants[h]) && !s.tenants[h].restarting
        && Of(s'.everyRestart, h) == Of(s.everyRestart, h) + [now]
        && Of(s'.history, h) == Of(Checked(cfg, s.history, s.lastCleanup, s.registered, h, now), h) + [now]
  {
    hide Checked;
  }

  // ---- The restart budget ----

  ghost predicate Untouched(s: State, h: string) {
    Of(s.history, h) == [] && Of(s.everyRestart, h) == [] && Of(s.health, h) == []
  }

  ghost predicate WithinBudget(cfg: Settings, s: State, h: string) {
    AtMost(Of(s.everyRestart, h), cfg.window, cfg.maxAttempts)
  }

  ghost predicate Budgeted(cfg: Settings, s: State) {
    && Faithful(cfg, s.history, s.everyRestart, s.registered, s.clock)
    && s.registered <= s.tenants.Keys
    && (forall h {:trigger Untouched(s, h)} :: h !in s.tenants ==> Untouched(s, h))
    && (forall h {:trigger WithinBudget(cfg, s, h)} :: h in s.registered ==> WithinBudget(cfg, s, h))
  }

  lemma FaithfulLater(cfg: Settings, history: History, full: History, active: set<string>, clock: Time, now: Time)
    requires Faithful(cfg, history, full, active, clock) && clock <= now
    ensures Faithful(cfg, history, full, active, now)
  {
    hide Tracked;
    forall h | h in active
      ensures Tracked(cfg, Of(history, h), Of(full, h), now)
    {
      StillTracked(cfg, Of(history, h), Of(full, h), clock, now);
    }
  }

  /** Steps that touch neither log nor registry. */
  lemma BudgetFrame(cfg: Settings, s: State, s': State)
    requires Budgeted(cfg, s) && s.clock <= s'.clock && LogsAlone(s, s')
    ensures Budgeted(cfg, s')
  {
    hide Faithful, AtMost;
    FaithfulLater(cfg, s.history, s.everyRestart, s.registered, s.clock, s'.clock);
    FaithfulFewer(cfg, s.history, s.everyRestart, s.registered, s'.registered, s'.clock);
    forall h | h !in s'.tenants
      ensures Untouched(s', h)
    {
      assert Untouched(s, h);
    }
    forall h | h in s'.registered
      ensures WithinBudget(cfg, s', h)
    {
      assert WithinBudget(cfg, s, h);
    }
  }

  lemma FaithfulFewer(cfg: Settings, history: History, full: History, active: set<string>, fewer: set<string>,
                      now: Time)
    requires Faithful(cfg, history, full, active, now) && fewer <= active
    ensures Faithful(cfg, history, full, fewer, now)
  {
    hide Tracked;
  }

  lemma RegisterKeepsBudget(cfg: Settings, s: State, s': State, h: string)
    requires Budgeted(cfg, s) && s.clock <= s'.clock && h !in s.tenants
    requires s' == s.(clock := s'.clock, tenants := s.tenants[h := FRESH], registered := s.registered + {h})
    ensures Budgeted(cfg, s')
  {
    hide AtMost;
    assert Untouched(s, h);
    FaithfulLater(cfg, s.history, s.everyRestart, s.registered, s.clock, s'.clock);
    EmptyWithinBudget(cfg.window, cfg.maxAttempts);
    forall g | g !in s'.tenants
      ensures Untouched(s', g)
    {
      assert Untouched(s, g);
    }
    forall g | g in s'.registered
      ensures WithinBudget(cfg, s', g)
    {
      if g != h {
        assert WithinBudget(cfg, s, g);
      }
    }
  }

  lemma CheckKeepsBudget(cfg: Settings, s: State, h: string, now: Time)
    requires Budgeted(cfg, s) && s.clock <= now && h in s.tenants
    ensures Budgeted(cfg, AfterCheck(cfg, s, h, now).(clock := now))
  {
    hide Faithful, AtMost;
    var s' := AfterCheck(cfg, s, h, now).(clock := now);
    CheckKeepsOthers(cfg, s.history, s.everyRestart, s.lastCleanup, s.registered, s.clock, now, h);
    forall g | g !in s'.tenants
      ensures Untouched(s', g)
    {
      assert Untouched(s, g);
      hide Faithful, After;
    }
    forall g | g in s'.registered
      ensures WithinBudget(cfg, s', g)
    {
      assert WithinBudget(cfg, s, g);
    }
  }

  /** On a registered tenant the check on the filtered, swept log is the check on the complete one. */
  lemma PermissionIsExact(cfg: Settings, s: State, h: string, now: Time)
    requires Budgeted(cfg, s) && s.clock <= now && h in s.registered
    ensures Permitted(cfg, s, h, now) == MayRestart(cfg, Of(s.everyRestart, h), now)
  {
    hide Faithful, Checked;
    CheckIsExact(cfg, s.history, s.everyRestart, s.lastCleanup, s.registered, s.clock, now, h);
  }

  lemma RecordKeepsItsBudget(cfg: Settings, s: State, h: string, now: Time)
    requires Budgeted(cfg, s) && s.clock <= now && h in s.registered
    requires Permitted(cfg, s, h, now)
    ensures AtMost(Of(s.everyRestart, h) + [now], cfg.window, cfg.maxAttempts)
  {
    hide AtMost, Checked;
    PermissionIsExact(cfg, s, h, now);
    assert WithinBudget(cfg, s, h);
    assert Tracked(cfg, Of(s.history, h), Of(s.everyRestart, h), s.clock);
    RecordKeepsBudget(Of(s.everyRestart, h), cfg.window, cfg.maxAttempts, now, now);
  }

  lemma EnterKeepsBudget(cfg: Settings, s: State, j: JobId, h: string, crash: bool, now: Time)
    requires Budgeted(cfg, s) && s.clock <= now && h in s.tenants
    requires Permitted(cfg, s, h, now)
    ensures Budgeted(cfg, EnterBody(AfterCheck(cfg, s, h, now), j, h, crash, now).(clock := now))
  {
    hide Faithful, AtMost, Checked;
    var checked := AfterCheck(cfg, s, h, now).(clock := now);
    var s' := EnterBody(AfterCheck(cfg, s, h, now), j, h, crash, now).(clock := now);
    CheckKeepsBudget(cfg, s, h, now);
    RecordIsFaithful(cfg, checked.history, checked.everyRestart, checked.registered, now, h);
    forall g | g !in s'.tenants
      ensures Untouched(s', g)
    {
      assert Untouched(checked, g);
    }
    forall g | g in s'.registered
      ensures WithinBudget(cfg, s', g)
    {
      if g == h {
        RecordKeepsItsBudget(cfg, s, h, now);
      } else {
        assert WithinBudget(cfg, s, g);
      }
    }
  }

  lemma BeginKeepsBudget(cfg: Settings, s: State, j: JobId, h: string, crash: bool, now: Time)
    requires Budgeted(cfg, s) && s.clock <= now && h in s.tenants
    ensures Budgeted(cfg, BeginRestart(cfg, s, j, h, crash, now).(clock := now))
  {
    hide Faithful, AtMost, Checked, Budgeted;
    var s' := BeginRestart(cfg, s, j, h, crash, now).(clock := now);
    var t := s.tenants[h];
    if t.restarting || !HasValidAuth(t) {
      BudgetFrame(cfg, s, s');
    } else if Permitted(cfg, s, h, now) && t.lock.None? {
      EnterKeepsBudget(cfg, s, j, h, crash, now);
    } else {
      CheckKeepsBudget(cfg, s, h, now);
      BudgetFrame(cfg, AfterCheck(cfg, s, h, now).(clock := now), s');
    }
  }

  lemma StepKeepsBudget(cfg: Settings, s: State, l: Label)
    requires Exclusive(s) && Budgeted(cfg, s) && Enabled(s, l)
    ensures Budgeted(cfg, Step(cfg, s, l))
  {
    hide Exclusive, Budgeted, BeginRestart, Leave, Cancelled, Checkup, Granted;
    match l.action {
      case Register(h) => RegisterKeepsBudget(cfg, s, Step(cfg, s, l), h);
      case Begin(j, h, crash) => BeginKeepsBudget(cfg, s, j, h, crash, l.at);
      case LockGranted(j) => Unfold(s, "", j);
      case _ =>
        QuietSteps(cfg, s, l);
        BudgetFrame(cfg, s, Step(cfg, s, l));
    }
  }

  lemma {:induction false} AlwaysBudgeted(cfg: Settings, start: Time, labels: seq<Label>)
    requires Run(cfg, start, labels).Some?
    ensures Budgeted(cfg, Run(cfg, start, labels).value)
  {
    if labels != [] {
      var before := Run(cfg, start, labels[..|labels| - 1]).value;
      AlwaysExclusive(cfg, start, labels[..|labels| - 1]);
      AlwaysBudgeted(cfg, start, labels[..|labels| - 1]);
      hide Exclusive, Budgeted;
      StepKeepsBudget(cfg, before, labels[|labels| - 1]);
    }
  }

  /**
   In every interleaving of crashes, disconnects, sweeps and other tenants' restarts, no window of
   `restart_window_seconds` holds more than `max_restart_attempts` restarts of a registered tenant.
   */
  lemma RestartBudget(cfg: Settings, start: Time, labels: seq<Label>, h: string)
    requires Run(cfg, start, labels).Some? && h in Run(cfg, start, labels).value.registered
    ensures AtMost(Of(Run(cfg, start, labels).value.everyRestart, h), cfg.window, cfg.maxAttempts)
  {
    AlwaysBudgeted(cfg, start, labels);
    assert WithinBudget(cfg, Run(cfg, start, labels).value, h);
  }
}
