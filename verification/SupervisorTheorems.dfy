/** Further theorems about every run of the supervisor: spacing, the health counter, logging out. */
module SupervisorTheorems {
  import opened Wrappers
  import opened Windows
  import opened RestartLog
  import opened Supervisor

  // ---- Spacing ----

  ghost predicate Spaced(ts: seq<Time>, gap: Time) {
    forall i {:trigger ts[i + 1]} :: 0 <= i < |ts| - 1 ==> ts[i + 1] - ts[i] >= gap
  }

  /** How far the latest restart of a tenant is from over, by the phase of the job in the body. */
  ghost predicate Rested(cfg: Settings, latest: Time, body: Option<Phase>, clock: Time) {
    && latest <= clock
    && match body
       case None => latest + cfg.cooldown <= clock
       case Some(Cooling(until)) => latest + cfg.cooldown <= until
       case Some(Launching) => latest + cfg.cooldown <= clock
       case _ => true
  }

  /** The phase of the job that holds a tenant's lock. */
  ghost function Body(s: State, h: string): Option<Phase> {
    if h in s.tenants && s.tenants[h].lock.Some? && s.tenants[h].lock.value in s.jobs
    then Some(s.jobs[s.tenants[h].lock.value].phase) else None
  }

  /** The life of a restart body: recorded on entry, stopped, cooled down, launched, left. */
  ghost predicate Progress(cfg: Settings, body: Option<Phase>, body': Option<Phase>, now: Time) {
    || body' == body
    || (body == Some(Stopping) && body' == Some(Cooling(now + cfg.cooldown)))
    || (body.Some? && body.value.Cooling? && body.value.until <= now && body' == Some(Launching))
    || (body == Some(Launching) && body' == None)
  }

  /** A body cut short leaves its tenant marked until the next one is entered. */
  ghost predicate Move(cfg: Settings, s: State, s': State, h: string, now: Time) {
    var ts, ts' := Of(s.everyRestart, h), Of(s'.everyRestart, h);
    || (ts' == ts && (h in s'.cutShort <==> h in s.cutShort) && Progress(cfg, Body(s, h), Body(s', h), now))
    || (ts' == ts && h in s'.cutShort && Body(s, h).Some? && Body(s', h) == None)
    || (ts' == ts + [now] && h !in s'.cutShort && Body(s, h) == None && Body(s', h) == Some(Stopping))
  }

  lemma RefusalMoves(cfg: Settings, s: State, s': State, j: JobId, g: string, crash: bool, now: Time, h: string)
    requires Exclusive(s) && j !in s.jobs && g in s.tenants && h in s.tenants
    requires s'.tenants == s.tenants && s'.jobs == s.jobs
    requires s'.everyRestart == s.everyRestart && s'.cutShort == s.cutShort
    ensures Move(cfg, s, Refuse(s', j, g, crash), h, now)
  {
    hide Exclusive;
    Unfold(s, h, j);
  }

  lemma EntryMoves(cfg: Settings, s: State, s': State, j: JobId, g: string, crash: bool, now: Time, h: string)
    requires Exclusive(s) && j !in s.jobs && g in s.tenants && h in s.tenants && !s.tenants[g].restarting
    requires s'.tenants == s.tenants && s'.jobs == s.jobs
    requires s'.everyRestart == s.everyRestart && s'.cutShort == s.cutShort
    ensures s.tenants[g].lock == None && Move(cfg, s, EnterBody(s', j, g, crash, now), h, now)
  {
    hide Exclusive;
    Unfold(s, h, j);
    Unfold(s, g, j);
  }

  lemma BeginMoves(cfg: Settings, s: State, j: JobId, g: string, crash: bool, now: Time, h: string)
    requires Exclusive(s) && j !in s.jobs && g in s.tenants && h in s.tenants
    ensures Move(cfg, s, BeginRestart(cfg, s, j, g, crash, now), h, now)
    ensures h in BeginRestart(cfg, s, j, g, crash, now).tenants
  {
    hide Exclusive, Checked, Move;
    var checked := AfterCheck(cfg, s, g, now);
    RefusalMoves(cfg, s, s, j, g, crash, now, h);
    RefusalMoves(cfg, s, checked, j, g, crash, now, h);
    if !s.tenants[g].restarting {
      EntryMoves(cfg, s, checked, j, g, crash, now, h);
    }
  }

  lemma PhaseMoves(cfg: Settings, s: State, j: JobId, phase: Phase, now: Time, h: string)
    requires Exclusive(s) && j in s.jobs && InBody(s.jobs[j].phase) && h in s.tenants
    requires Progress(cfg, Some(s.jobs[j].phase), Some(phase), now)
    ensures Move(cfg, s, SetPhase(s, j, phase), h, now)
    ensures h in SetPhase(s, j, phase).tenants
  {
    hide Exclusive;
    Unfold(s, h, j);
  }

  lemma LeavingMoves(cfg: Settings, s: State, j: JobId, ok: bool, now: Time, h: string)
    requires Exclusive(s) && j in s.jobs && s.jobs[j].phase.Launching? && h in s.tenants
    ensures InPhase(s, j) && Move(cfg, s, Leave(s, j, ok), h, now)
    ensures h in Leave(s, j, ok).tenants
  {
    hide Exclusive;
    Unfold(s, h, j);
  }

  lemma CancelMoves(cfg: Settings, s: State, j: JobId, now: Time, h: string)
    requires Exclusive(s) && InPhase(s, j) && h in s.tenants
    ensures Move(cfg, s, Cancelled(s, j), h, now) && h in Cancelled(s, j).tenants
  {
    hide Exclusive;
    Unfold(s, h, j);
  }

  lemma CheckupMoves(cfg: Settings, s: State, g: string, outcome: Outcome, now: Time, h: string)
    requires g in s.tenants && h in s.tenants
    ensures Move(cfg, s, Checkup(cfg, s, g, outcome), h, now)
    ensures h in Checkup(cfg, s, g, outcome).tenants
  {
  }

  lemma ProgressSteps(cfg: Settings, now: Time, phase: Phase)
    ensures phase == Stopping ==> Progress(cfg, Some(phase), Some(Cooling(now + cfg.cooldown)), now)
    ensures phase.Cooling? && phase.until <= now ==> Progress(cfg, Some(phase), Some(Launching), now)
  {
  }

  lemma StillMoves(cfg: Settings, s: State, s': State, h: string, now: Time)
    requires h in s.tenants && h in s'.tenants && s'.tenants[h].lock == s.tenants[h].lock
    requires s'.jobs == s.jobs && s'.everyRestart == s.everyRestart && s'.cutShort == s.cutShort
    ensures Move(cfg, s, s', h, now)
  {
  }

  lemma StepMoves(cfg: Settings, s: State, l: Label, h: string)
    requires Exclusive(s) && Enabled(s, l) && h in s.tenants
    ensures Move(cfg, s, Step(cfg, s, l), h, l.at) && h in Step(cfg, s, l).tenants
  {
    hide Exclusive, BeginRestart, Granted, SetPhase, Leave, Cancelled, Checkup, Move, Progress;
    var s' := Perform(cfg, s, l);
    ClockMoves(cfg, s, s', h, l.at, l.at);
    match l.action {
      case Begin(j, g, crash) => BeginMoves(cfg, s, j, g, crash, l.at, h);
      case LockGranted(j) => Unfold(s, h, j);
      case StopReturned(j) =>
        ProgressSteps(cfg, l.at, s.jobs[j].phase);
        PhaseMoves(cfg, s, j, Cooling(l.at + cfg.cooldown), l.at, h);
      case Woke(j) =>
        ProgressSteps(cfg, l.at, s.jobs[j].phase);
        PhaseMoves(cfg, s, j, Launching, l.at, h);
      case LaunchReturned(j, ok) => LeavingMoves(cfg, s, j, ok, l.at, h);
      case Cancel(j) => CancelMoves(cfg, s, j, l.at, h);
      case HealthResult(g, outcome) => CheckupMoves(cfg, s, g, outcome, l.at, h);
      case _ => StillMoves(cfg, s, s', h, l.at);
    }
  }

  lemma ClockMoves(cfg: Settings, s: State, s': State, h: string, now: Time, clock: Time)
    ensures Move(cfg, s, s'.(clock := clock), h, now) <==> Move(cfg, s, s', h, now)
  {
  }

  /** Unless the latest restart was cut short, its cooldown is over or still being served. */
  ghost predicate Calm(cfg: Settings, s: State, h: string) {
    var ts := Of(s.everyRestart, h);
    && (h !in s.tenants ==> ts == [] && h !in s.cutShort)
    && (ts != [] ==> ts[|ts| - 1] <= s.clock && (h !in s.cutShort ==> Rested(cfg, ts[|ts| - 1], Body(s, h), s.clock)))
    && (h in s.cutShort ==> Body(s, h) == None)
    && (h in s.cutShort || Body(s, h).Some? ==> ts != [])
  }

  lemma SpacedAppend(ts: seq<Time>, gap: Time, now: Time)
    ensures Spaced(ts + [now], gap) <==> Spaced(ts, gap) && (ts == [] || ts[|ts| - 1] + gap <= now)
  {
    var longer := ts + [now];
    if Spaced(longer, gap) {
      if ts != [] {
        SpacedPair(longer, gap, |ts| - 1);
      }
      forall i {:trigger ts[i + 1]} | 0 <= i < |ts| - 1 ensures ts[i + 1] - ts[i] >= gap {
        SpacedPair(longer, gap, i);
      }
    }
    if Spaced(ts, gap) && (ts == [] || ts[|ts| - 1] + gap <= now) {
      forall i {:trigger longer[i + 1]} | 0 <= i < |longer| - 1 ensures longer[i + 1] - longer[i] >= gap {
        if i + 1 < |ts| {
          SpacedPair(ts, gap, i);
        }
      }
    }
  }

  lemma SpacedPair(ts: seq<Time>, gap: Time, i: nat)
    requires Spaced(ts, gap) && i + 1 < |ts|
    ensures ts[i + 1] - ts[i] >= gap
  {
  }

  lemma MoveKeepsCalm(cfg: Settings, s: State, s': State, h: string)
    requires h in s.tenants && h in s'.tenants && Calm(cfg, s, h) && s.clock <= s'.clock
    requires Move(cfg, s, s', h, s'.clock)
    ensures Calm(cfg, s', h)
  {
  }

  lemma {:induction false} AlwaysCalm(cfg: Settings, start: Time, labels: seq<Label>, h: string)
    requires Run(cfg, start, labels).Some?
    ensures Calm(cfg, Run(cfg, start, labels).value, h)
  {
    if labels != [] {
      hide Exclusive, Budgeted, Move, Perform;
      var s, l := Run(cfg, start, labels[..|labels| - 1]).value, labels[|labels| - 1];
      var s' := Step(cfg, s, l);
      AlwaysCalm(cfg, start, labels[..|labels| - 1], h);
      AlwaysExclusive(cfg, start, labels[..|labels| - 1]);
      AlwaysBudgeted(cfg, start, labels);
      StartsEmpty(cfg, s', h);
      if h in s.tenants {
        StepMoves(cfg, s, l, h);
        MoveKeepsCalm(cfg, s, s', h);
      } else {
        StaysEmpty(cfg, s, l, h);
      }
    }
  }

  lemma StartsEmpty(cfg: Settings, s: State, h: string)
    requires Budgeted(cfg, s)
    ensures h !in s.tenants ==> Of(s.everyRestart, h) == [] && Of(s.health, h) == []
  {
    if h !in s.tenants {
      assert Untouched(s, h);
    }
  }

  lemma BeginLeavesOthers(cfg: Settings, s: State, j: JobId, g: string, crash: bool, now: Time, h: string)
    requires g in s.tenants && h != g
    ensures
      var s' := BeginRestart(cfg, s, j, g, crash, now);
      && Of(s'.everyRestart, h) == Of(s.everyRestart, h) && Of(s'.health, h) == Of(s.health, h)
      && s'.tenants.Keys == s.tenants.Keys && s'.cutShort <= s.cutShort
  {
    hide BeginRestart;
    BeginFrame(cfg, s, j, g, crash, now);
  }

  /** A tenant that has just appeared has no restarts and no health history. */
  lemma StaysEmpty(cfg: Settings, s: State, l: Label, h: string)
    requires Exclusive(s) && Enabled(s, l) && h !in s.tenants
    ensures Of(Step(cfg, s, l).everyRestart, h) == Of(s.everyRestart, h)
    ensures Of(Step(cfg, s, l).health, h) == Of(s.health, h)
    ensures h in Step(cfg, s, l).tenants ==> Step(cfg, s, l).tenants[h] == FRESH
    ensures h in Step(cfg, s, l).cutShort ==> h in s.cutShort
  {
    hide Exclusive, BeginRestart, Granted, SetPhase, Leave, Cancelled, Checkup;
    match l.action {
      case Register(_) =>
      case Begin(j, g, crash) => BeginLeavesOthers(cfg, s, j, g, crash, l.at, h);
      case LockGranted(j) => Unfold(s, h, j);
      case _ => QuietSteps(cfg, s, l);
    }
  }

  /** A restart request at this moment goes ahead. */
  predicate Allowed(cfg: Settings, s: State, h: string, now: Time) {
    h in s.tenants && !s.tenants[h].restarting && HasValidAuth(s.tenants[h]) && Permitted(cfg, s, h, now)
  }

  /** The step starts a restart while the cooldown of one that was cut short would still be running. */
  predicate Rushes(cfg: Settings, s: State, l: Label, h: string) {
    && l.action.Begin? && l.action.h == h && Allowed(cfg, s, h, l.at)
    && h in s.cutShort
    && var ts := Of(s.everyRestart, h);
    ts != [] && l.at < ts[|ts| - 1] + cfg.cooldown
  }

  predicate Rushed(cfg: Settings, start: Time, labels: seq<Label>, h: string)
    requires Run(cfg, start, labels).Some?
  {
    labels != [] &&
    var front, last := labels[..|labels| - 1], labels[|labels| - 1];
    Rushed(cfg, start, front, h) || Rushes(cfg, Run(cfg, start, front).value, last, h)
  }

  lemma AllowedIsRecorded(cfg: Settings, s: State, j: JobId, h: string, crash: bool, now: Time)
    requires Exclusive(s) && Enabled(s, Label(Begin(j, h, crash), now)) && Allowed(cfg, s, h, now)
    ensures Of(Step(cfg, s, Label(Begin(j, h, crash), now)).everyRestart, h) == Of(s.everyRestart, h) + [now]
  {
    hide Checked, Exclusive, Permitted;
    Unfold(s, h, j);
  }

  /**
   In every run a restart request of a registered tenant starts a restart if and only if restarts are
   switched on, none is in progress, the tenant has credentials, and the window holds fewer of its restarts
   than the maximum, counted over all of them; otherwise it is refused.
   */
  lemma RequestIsExact(cfg: Settings, start: Time, labels: seq<Label>, j: JobId, h: string, crash: bool, now: Time)
    requires Run(cfg, start, labels).Some? && h in Run(cfg, start, labels).value.registered
    requires Enabled(Run(cfg, start, labels).value, Label(Begin(j, h, crash), now))
    ensures
      var s := Run(cfg, start, labels).value;
      var s', ts := Step(cfg, s, Label(Begin(j, h, crash), now)), Of(s.everyRestart, h);
      if cfg.autoRestart && !s.tenants[h].restarting && (s.tenants[h].hasAuth || s.tenants[h].hasCreds)
         && CountIn(ts, now - cfg.window, now) < cfg.maxAttempts
      then Of(s'.everyRestart, h) == ts + [now] && j in s'.jobs && s'.jobs[j] == Job(h, crash, Stopping)
      else Of(s'.everyRestart, h) == ts && j in s'.jobs && s'.jobs[j] == Job(h, crash, Finished(false))
    ensures
      var s := Run(cfg, start, labels).value;
      var due := !s.tenants[h].restarting && HasValidAuth(s.tenants[h]) && now - s.lastCleanup >= 3600.0;
      Step(cfg, s, Label(Begin(j, h, crash), now)).lastCleanup == if due then now else s.lastCleanup
  {
    hide Run, Checked, Exclusive, Budgeted, Permitted;
    AlwaysExclusive(cfg, start, labels);
    AlwaysBudgeted(cfg, start, labels);
    var s := Run(cfg, start, labels).value;
    Unfold(s, h, j);
    PermissionIsExact(cfg, s, h, now);
  }

  lemma StepKeepsSpacing(cfg: Settings, s: State, l: Label, h: string)
    requires Exclusive(s) && Enabled(s, l) && Calm(cfg, s, h)
    ensures Spaced(Of(Step(cfg, s, l).everyRestart, h), cfg.cooldown)
       <==> Spaced(Of(s.everyRestart, h), cfg.cooldown) && !Rushes(cfg, s, l, h)
  {
    hide Exclusive, Spaced, Step, Permitted;
    var ts := Of(s.everyRestart, h);
    if Of(Step(cfg, s, l).everyRestart, h) != ts {
      RecordFollowsItsCheck(cfg, s, l, h);
      Unfold(s, h, 0);
      SpacedAppend(ts, cfg.cooldown, l.at);
    } else if Rushes(cfg, s, l, h) {
      AllowedIsRecorded(cfg, s, l.action.job, h, l.action.crash, l.at);
    }
  }

  /**
   Whatever the interleaving of crash and disconnect triggers, the restarts of a tenant are at least the
   cooldown apart if and only if none was started in the rest of a cooldown that a cancellation cut short.
   */
  lemma {:induction false} RestartSpacing(cfg: Settings, start: Time, labels: seq<Label>, h: string)
    requires Run(cfg, start, labels).Some?
    ensures Spaced(Of(Run(cfg, start, labels).value.everyRestart, h), cfg.cooldown) <==> !Rushed(cfg, start, labels, h)
  {
    hide Exclusive, Step, Enabled, Calm, Rushes;
    if labels != [] {
      var front := labels[..|labels| - 1];
      RestartSpacing(cfg, start, front, h);
      AlwaysExclusive(cfg, start, front);
      AlwaysCalm(cfg, start, front, h);
      StepKeepsSpacing(cfg, Run(cfg, start, front).value, labels[|labels| - 1], h);
    }
  }

  /** In every reachable state: a restart allowed in the rest of a cooldown cut short breaks the spacing. */
  lemma CutShortBreaksSpacing(cfg: Settings, start: Time, labels: seq<Label>, j: JobId, h: string, crash: bool,
                              now: Time)
    requires Run(cfg, start, labels).Some?
    requires
      var s := Run(cfg, start, labels).value;
      && Enabled(s, Label(Begin(j, h, crash), now)) && Allowed(cfg, s, h, now) && h in s.cutShort
      && var ts := Of(s.everyRestart, h);
         ts == [] || now < ts[|ts| - 1] + cfg.cooldown
    ensures
      var more := labels + [Label(Begin(j, h, crash), now)];
      Run(cfg, start, more).Some? && !Spaced(Of(Run(cfg, start, more).value.everyRestart, h), cfg.cooldown)
  {
    hide Exclusive, Step, Enabled, Allowed, Spaced;
    var l := Label(Begin(j, h, crash), now);
    RunOne(cfg, start, labels, l);
    assert (labels + [l])[..|labels|] == labels;
    AlwaysCalm(cfg, start, labels, h);
    RestartSpacing(cfg, start, labels + [l], h);
  }

  lemma RunOne(cfg: Settings, start: Time, labels: seq<Label>, l: Label)
    requires Run(cfg, start, labels).Some? && Enabled(Run(cfg, start, labels).value, l)
    ensures Run(cfg, start, labels + [l]) == Some(Step(cfg, Run(cfg, start, labels).value, l))
  {
    assert (labels + [l])[..|labels|] == labels;
  }

  lemma RestartAllowed(cfg: Settings, s: State, j: JobId, h: string, now: Time)
    requires cfg.autoRestart && cfg.window > 0.0 && s.clock == now && h in s.tenants && h in s.registered
    requires !s.tenants[h].restarting && HasValidAuth(s.tenants[h]) && s.tenants[h].lock == None
    requires s.lastCleanup == now && |Of(s.history, h)| < cfg.maxAttempts && j !in s.jobs
    ensures
      var s' := Step(cfg, s, Label(Begin(j, h, false), now));
      && Enabled(s, Label(Begin(j, h, false), now))
      && s'.everyRestart == Recorded(s.everyRestart, h, now)
      && s'.registered == s.registered && s'.lastCleanup == now && s'.clock == now
      && s'.tenants == s.tenants[h := s.tenants[h].(restarting := true, lock := Some(j))]
      && s'.jobs == s.jobs[j := Job(h, false, Stopping)]
      && |Of(s'.history, h)| <= |Of(s.history, h)| + 1
  {
    AfterIsShorter(Of(s.history, h), now - cfg.window);
  }

  lemma {:induction false} AfterIsShorter(ts: seq<Time>, cutoff: Time)
    ensures |After(ts, cutoff)| <= |ts|
  {
    if ts != [] {
      AfterIsShorter(ts[1..], cutoff);
    }
  }

  /** Cancelling a restart in its cooldown lets the next one follow at once. */
  lemma CancellationBreaksSpacing(cfg: Settings, start: Time)
    requires cfg.autoRestart && cfg.maxAttempts >= 2 && cfg.window > 0.0 && cfg.cooldown > 0.0
    ensures exists labels :: Run(cfg, start, labels).Some?
              && !Spaced(Of(Run(cfg, start, labels).value.everyRestart, "h"), cfg.cooldown)
  {
    hide Run, BeginRestart, Checked, Spaced;
    var l1, l2, l3 := Label(Register("h"), start), Label(AuthUpdate("h"), start), Label(Begin(0, "h", false), start);
    var l4, l5 := Label(Cancel(0), start), Label(Begin(1, "h", false), start);
    assert Run(cfg, start, []) == Some(Init(start)) by { RunNone(cfg, start); }
    RunOne(cfg, start, [], l1);
    var r1 := [] + [l1];
    RunOne(cfg, start, r1, l2);
    var r2 := r1 + [l2];
    var s2 := Run(cfg, start, r2).value;
    RestartAllowed(cfg, s2, 0, "h", start);
    RunOne(cfg, start, r2, l3);
    var r3 := r2 + [l3];
    RunOne(cfg, start, r3, l4);
    var r4 := r3 + [l4];
    var s4 := Run(cfg, start, r4).value;
    RestartAllowed(cfg, s4, 1, "h", start);
    RunOne(cfg, start, r4, l5);
    var r5 := r4 + [l5];
    assert Of(Run(cfg, start, r5).value.everyRestart, "h") == [start, start];
    assert !Spaced([start, start], cfg.cooldown) by { Crowded(start, cfg.cooldown); }
  }

  lemma RunNone(cfg: Settings, start: Time)
    ensures Run(cfg, start, []) == Some(Init(start))
  {
  }

  lemma Crowded(at: Time, gap: Time)
    requires gap > 0.0
    ensures !Spaced([at, at], gap)
  {
    if Spaced([at, at], gap) {
      SpacedPair([at, at], gap, 0);
    }
  }

  // ---- The health counter ----

  /** Failed checks since the last passed check or successful restart. */
  function FailStreak(events: seq<HealthEvent>): nat {
    if events == [] then 0
    else
      var before := FailStreak(events[..|events| - 1]);
      match events[|events| - 1]
      case CheckFailed => before + 1
      case CheckPassed => 0
      case BridgeRestarted => 0
      case MarkedOffline => before
  }

  ghost predicate Justified(cfg: Settings, events: seq<HealthEvent>, i: nat)
    requires i <= |events|
  {
    1 <= FailStreak(events[..i]) && cfg.maxHealthFailures <= FailStreak(events[..i])
  }

  /** Every time the status branch marked the tenant offline, a long enough streak was behind it. */
  ghost predicate MarksJustified(cfg: Settings, events: seq<HealthEvent>) {
    forall i {:trigger Justified(cfg, events, i)} ::
      0 <= i < |events| && events[i] == MarkedOffline ==> Justified(cfg, events, i)
  }

  ghost predicate CounterMatches(cfg: Settings, s: State, h: string) {
    && (h in s.tenants ==> s.tenants[h].failures == FailStreak(Of(s.health, h)))
    && MarksJustified(cfg, Of(s.health, h))
  }

  /** What one step can do to a tenant's counter and health history. */
  ghost predicate Beat(cfg: Settings, t: Standing, t': Standing, events: seq<HealthEvent>,
                       events': seq<HealthEvent>)
  {
    || (events' == events && t'.failures == t.failures)
    || (events' == events + [CheckPassed] && t'.failures == 0)
    || (events' == events + [BridgeRestarted] && t'.failures == 0)
    || (events' == events + [CheckFailed] && t'.failures == t.failures + 1)
    || (events' == events + [CheckFailed, MarkedOffline] && t'.failures == t.failures + 1
          && cfg.maxHealthFailures <= t'.failures)
  }

  ghost predicate Beats(cfg: Settings, s: State, s': State, h: string) {
    && h in s.tenants && h in s'.tenants
    && Beat(cfg, s.tenants[h], s'.tenants[h], Of(s.health, h), Of(s'.health, h))
  }

  lemma LeavingBeats(cfg: Settings, s: State, j: JobId, ok: bool, h: string)
    requires InPhase(s, j) && h in s.tenants
    ensures Beats(cfg, s, Leave(s, j, ok), h) && Beats(cfg, s, Cancelled(s, j), h)
  {
  }

  lemma CheckupBeats(cfg: Settings, s: State, g: string, outcome: Outcome, h: string)
    requires g in s.tenants && h in s.tenants
    ensures Beats(cfg, s, Checkup(cfg, s, g, outcome), h)
  {
  }

  lemma BeginBeats(cfg: Settings, s: State, j: JobId, g: string, crash: bool, now: Time, h: string)
    requires g in s.tenants && h in s.tenants
    ensures Beats(cfg, s, BeginRestart(cfg, s, j, g, crash, now), h)
  {
    hide BeginRestart;
    BeginFrame(cfg, s, j, g, crash, now);
  }

  lemma StepBeats(cfg: Settings, s: State, l: Label, h: string)
    requires Exclusive(s) && Enabled(s, l) && h in s.tenants
    ensures Beats(cfg, s, Step(cfg, s, l), h)
  {
    hide Exclusive, BeginRestart, Granted, Leave, Cancelled, Checkup;
    match l.action {
      case Begin(j, g, crash) => BeginBeats(cfg, s, j, g, crash, l.at, h);
      case LockGranted(j) => Unfold(s, h, j);
      case LaunchReturned(j, ok) => LeavingBeats(cfg, s, j, ok, h);
      case Cancel(j) => LeavingBeats(cfg, s, j, false, h);
      case HealthResult(g, outcome) => CheckupBeats(cfg, s, g, outcome, h);
      case _ =>
    }
  }

  lemma MarksAppend(cfg: Settings, events: seq<HealthEvent>, event: HealthEvent)
    requires MarksJustified(cfg, events)
    requires event == MarkedOffline ==> 1 <= FailStreak(events) && cfg.maxHealthFailures <= FailStreak(events)
    ensures MarksJustified(cfg, events + [event])
  {
    var longer := events + [event];
    forall i {:trigger Justified(cfg, longer, i)} | 0 <= i < |longer| && longer[i] == MarkedOffline
      ensures Justified(cfg, longer, i)
    {
      assert longer[..i] == events[..i];
      if i < |events| {
        assert Justified(cfg, events, i);
      } else {
        assert events[..i] == events;
      }
    }
  }

  lemma BeatKeepsCounter(cfg: Settings, s: State, s': State, h: string)
    requires CounterMatches(cfg, s, h) && Beats(cfg, s, s', h)
    ensures CounterMatches(cfg, s', h)
  {
    hide MarksJustified, FailStreak;
    var events, events' := Of(s.health, h), Of(s'.health, h);
    if events' != events {
      var event := events'[|events|];
      MarksAppend(cfg, events, event);
      StreakGrows(events, event);
      if |events'| == |events| + 2 {
        MarksAppend(cfg, events + [event], MarkedOffline);
        StreakGrows(events + [event], MarkedOffline);
        assert events' == events + [event] + [MarkedOffline];
      }
    }
  }

  lemma StreakGrows(events: seq<HealthEvent>, event: HealthEvent)
    ensures FailStreak(events + [event])
         == match event
            case CheckFailed => FailStreak(events) + 1
            case MarkedOffline => FailStreak(events)
            case _ => 0
  {
    assert (events + [event])[..|events|] == events;
  }

  lemma {:induction false} AlwaysCounted(cfg: Settings, start: Time, labels: seq<Label>, h: string)
    requires Run(cfg, start, labels).Some?
    ensures CounterMatches(cfg, Run(cfg, start, labels).value, h)
  {
    if labels != [] {
      hide Exclusive, Budgeted, Perform, Beats, MarksJustified;
      var s, l := Run(cfg, start, labels[..|labels| - 1]).value, labels[|labels| - 1];
      AlwaysCounted(cfg, start, labels[..|labels| - 1], h);
      AlwaysExclusive(cfg, start, labels[..|labels| - 1]);
      AlwaysBudgeted(cfg, start, labels[..|labels| - 1]);
      StartsEmpty(cfg, s, h);
      if h in s.tenants {
        StepBeats(cfg, s, l, h);
        BeatKeepsCounter(cfg, s, Step(cfg, s, l), h);
      } else {
        StaysEmpty(cfg, s, l, h);
      }
    }
  }

  /**
   In every run the counter is the number of failed checks since the last success or successful
   restart, so the status branch only ever marks a tenant offline after at least
   `max_health_check_failures` failed checks in a row.
   */
  lemma OfflineNeedsStreak(cfg: Settings, start: Time, labels: seq<Label>, h: string, i: nat)
    requires Run(cfg, start, labels).Some? && h in Run(cfg, start, labels).value.tenants
    requires
      var events := Of(Run(cfg, start, labels).value.health, h);
      i < |events| && events[i] == MarkedOffline
    ensures
      var s := Run(cfg, start, labels).value;
      var events := Of(s.health, h);
      && s.tenants[h].failures == FailStreak(events)
      && cfg.maxHealthFailures <= FailStreak(events[..i])
      && var checks := Checks(events[..i]);
         cfg.maxHealthFailures <= |checks|
         && forall m :: |checks| - cfg.maxHealthFailures <= m < |checks| ==> checks[m] == CheckFailed
  {
    AlwaysCounted(cfg, start, labels, h);
    var events := Of(Run(cfg, start, labels).value.health, h);
    assert Justified(cfg, events, i);
    StreakIsRun(events[..i]);
  }

  /** The health history without the marks. */
  function Checks(events: seq<HealthEvent>): seq<HealthEvent> {
    if events == [] then []
    else
      var before := Checks(events[..|events| - 1]);
      if events[|events| - 1] == MarkedOffline then before else before + [events[|events| - 1]]
  }

  /** The streak is the longest run of failed checks at the end of the history. */
  lemma {:induction false} StreakIsRun(events: seq<HealthEvent>)
    ensures FailStreak(events) <= |Checks(events)|
    ensures forall m :: |Checks(events)| - FailStreak(events) <= m < |Checks(events)| ==>
              Checks(events)[m] == CheckFailed
    ensures FailStreak(events) < |Checks(events)| ==>
              Checks(events)[|Checks(events)| - FailStreak(events) - 1] != CheckFailed
  {
    if events != [] {
      StreakIsRun(events[..|events| - 1]);
    }
  }

  /**
   In every run a health result does exactly this: a failed check counts, and marks the tenant offline if
   and only if the streak it belongs to has reached the maximum; a passed one ends the streak; an error
   leaves everything as it is.
   */
  lemma HealthResultIsExact(cfg: Settings, start: Time, labels: seq<Label>, h: string, outcome: Outcome, now: Time)
    requires Run(cfg, start, labels).Some?
    requires Enabled(Run(cfg, start, labels).value, Label(HealthResult(h, outcome), now))
    ensures
      var s := Run(cfg, start, labels).value;
      var s', events := Step(cfg, s, Label(HealthResult(h, outcome), now)), Of(s.health, h);
      h in s'.tenants
      && match outcome
         case Healthy =>
           Of(s'.health, h) == events + [CheckPassed] && s'.tenants[h] == s.tenants[h].(failures := 0)
         case Errored => Of(s'.health, h) == events && s'.tenants[h] == s.tenants[h]
         case _ =>
           var failed := events + [CheckFailed];
           if FailStreak(failed) >= cfg.maxHealthFailures then
             && Of(s'.health, h) == failed + [MarkedOffline]
             && s'.tenants[h] == s.tenants[h].(failures := FailStreak(failed), connection := "disconnected")
           else Of(s'.health, h) == failed && s'.tenants[h] == s.tenants[h].(failures := FailStreak(failed))
  {
    hide Run, FailStreak, MarksJustified;
    AlwaysCounted(cfg, start, labels, h);
    StreakGrows(Of(Run(cfg, start, labels).value.health, h), CheckFailed);
  }

  // ---- The connection state ----

  /** A restart for a crash ends without success, and not by a cancellation. */
  predicate CrashEnds(s': State, action: Action, h: string) {
    && (action.Begin? || action.LaunchReturned?) && action.job in s'.jobs
    && s'.jobs[action.job] == Job(h, true, Finished(false))
  }

  /** The step marks the tenant offline in its health history. */
  predicate Marks(s: State, s': State, h: string) {
    Of(s'.health, h) != Of(s.health, h) && Of(s'.health, h) != []
    && Of(s'.health, h)[|Of(s'.health, h)| - 1] == MarkedOffline
  }

  function ConnectionAfter(s: State, s': State, action: Action, h: string): string
    requires h in s.tenants
  {
    if action.SessionUpdate? && action.h == h then action.connection
    else if CrashEnds(s', action, h) || Marks(s, s', h) then "disconnected"
    else s.tenants[h].connection
  }

  /** Whether there are credentials, by the stored flag or (`creds`) by the stored dictionary. */
  function AuthAfter(was: bool, action: Action, h: string, creds: bool): bool {
    match action
    case AuthUpdate(g) => g == h || was
    case ClearCreds(g) => g != h && was
    case SessionUpdate(g, _, Some(auth)) => if g == h && !creds then auth else was
    case _ => was
  }

  /** A restart of the tenant launches its new bridge. */
  predicate Restarts(s: State, action: Action, h: string) {
    action.LaunchReturned? && action.ok && action.job in s.jobs && s.jobs[action.job].tenant == h
  }

  ghost predicate Explained(s: State, s': State, action: Action, h: string) {
    && h in s.tenants && h in s'.tenants
    && s'.tenants[h].connection == ConnectionAfter(s, s', action, h)
    && s'.tenants[h].hasAuth == AuthAfter(s.tenants[h].hasAuth, action, h, false)
    && s'.tenants[h].hasCreds == AuthAfter(s.tenants[h].hasCreds, action, h, true)
    && (!action.HealthResult? ==>
          Of(s'.health, h) == Of(s.health, h) + if Restarts(s, action, h) then [BridgeRestarted] else [])
  }

  lemma RefusalExplained(s: State, s': State, j: JobId, g: string, crash: bool, h: string)
    requires g in s.tenants && h in s.tenants && s'.tenants == s.tenants && s'.health == s.health
    ensures Explained(s, Refuse(s', j, g, crash), Begin(j, g, crash), h)
  {
  }

  lemma EntryExplained(s: State, s': State, j: JobId, g: string, crash: bool, now: Time, h: string)
    requires g in s.tenants && h in s.tenants && s'.tenants == s.tenants && s'.health == s.health
    ensures Explained(s, EnterBody(s', j, g, crash, now), Begin(j, g, crash), h)
  {
  }

  lemma BeginExplained(cfg: Settings, s: State, j: JobId, g: string, crash: bool, now: Time, h: string)
    requires Exclusive(s) && g in s.tenants && h in s.tenants && j !in s.jobs
    ensures Explained(s, BeginRestart(cfg, s, j, g, crash, now), Begin(j, g, crash), h)
  {
    hide Checked, Exclusive, Permitted, Refuse, EnterBody, Explained;
    var checked := AfterCheck(cfg, s, g, now);
    Unfold(s, g, j);
    RefusalExplained(s, s, j, g, crash, h);
    RefusalExplained(s, checked, j, g, crash, h);
    EntryExplained(s, checked, j, g, crash, now, h);
  }

  lemma LeavingExplained(s: State, j: JobId, ok: bool, h: string)
    requires InPhase(s, j) && h in s.tenants
    ensures Explained(s, Leave(s, j, ok), LaunchReturned(j, ok), h)
  {
  }

  lemma CancelExplained(s: State, j: JobId, h: string)
    requires InPhase(s, j) && h in s.tenants
    ensures Explained(s, Cancelled(s, j), Cancel(j), h)
  {
  }

  lemma NotedExplained(s: State, s': State, g: string, outcome: Outcome, t': Standing, events: seq<HealthEvent>,
                       h: string)
    requires g in s.tenants && h in s.tenants
    requires s'.tenants == s.tenants[g := t'] && s'.health == s.health[g := events]
    requires t'.hasAuth == s.tenants[g].hasAuth && t'.hasCreds == s.tenants[g].hasCreds
    requires t'.connection == if Marks(s, s', g) then "disconnected" else s.tenants[g].connection
    ensures Explained(s, s', HealthResult(g, outcome), h)
  {
  }

  lemma CheckupExplained(cfg: Settings, s: State, g: string, outcome: Outcome, h: string)
    requires g in s.tenants && h in s.tenants
    ensures Explained(s, Checkup(cfg, s, g, outcome), HealthResult(g, outcome), h)
  {
    hide FailuresAfter, GoesOffline, Explained;
    var s' := Checkup(cfg, s, g, outcome);
    if outcome == Errored && !GoesOffline(cfg, s.tenants[g].failures, outcome) {
      StillExplained(s, s', HealthResult(g, outcome), h);
    } else {
      NotedExplained(s, s', g, outcome, s'.tenants[g], s'.health[g], h);
    }
  }

  lemma StillExplained(s: State, s': State, action: Action, h: string)
    requires h in s.tenants && h in s'.tenants && s'.health == s.health && !action.Begin? && !action.LaunchReturned?
    requires s'.tenants[h].connection
          == if action.SessionUpdate? && action.h == h then action.connection else s.tenants[h].connection
    requires s'.tenants[h].hasAuth == AuthAfter(s.tenants[h].hasAuth, action, h, false)
    requires s'.tenants[h].hasCreds == AuthAfter(s.tenants[h].hasCreds, action, h, true)
    ensures Explained(s, s', action, h)
  {
  }

  lemma QuietExplained(cfg: Settings, s: State, l: Label, h: string)
    requires Enabled(s, l) && h in s.tenants && !l.action.Begin? && !l.action.LockGranted?
    requires !l.action.LaunchReturned? && !l.action.Cancel? && !l.action.HealthResult?
    ensures Explained(s, Perform(cfg, s, l), l.action, h)
  {
    hide BeginRestart, Granted, Leave, Cancelled, Checkup, Explained;
    if l.action.SessionUpdate? || l.action.AuthUpdate? || l.action.ClearCreds? {
      UpdateExplained(cfg, s, l, h);
    } else {
      StillExplained(s, Perform(cfg, s, l), l.action, h);
    }
  }

  lemma UpdateExplained(cfg: Settings, s: State, l: Label, h: string)
    requires Enabled(s, l) && h in s.tenants
    requires l.action.SessionUpdate? || l.action.AuthUpdate? || l.action.ClearCreds?
    ensures Explained(s, Perform(cfg, s, l), l.action, h)
  {
    hide BeginRestart, Granted, SetPhase, Leave, Cancelled, Checkup, Explained;
    StillExplained(s, Perform(cfg, s, l), l.action, h);
  }

  lemma ClockExplained(s: State, s': State, action: Action, h: string, clock: Time)
    ensures Explained(s, s'.(clock := clock), action, h) <==> Explained(s, s', action, h)
  {
  }

  /**
   A tenant's connection state is what a session update says, becomes "disconnected" when a restart for a
   crash ends without success or a health check marks it offline, and does not change otherwise. Its
   credentials come and go with authentication, logout and session updates only, and a restart is noted in
   its health history exactly when one launches a new bridge.
   */
  lemma StandingIsExplained(cfg: Settings, s: State, l: Label, h: string)
    requires Exclusive(s) && Enabled(s, l) && h in s.tenants
    ensures Explained(s, Step(cfg, s, l), l.action, h)
  {
    hide Exclusive, BeginRestart, Granted, SetPhase, Leave, Cancelled, Checkup, Explained;
    ClockExplained(s, Perform(cfg, s, l), l.action, h, l.at);
    match l.action {
      case Begin(j, g, crash) => BeginExplained(cfg, s, j, g, crash, l.at, h);
      case LockGranted(j) => Unfold(s, h, j);
      case LaunchReturned(j, ok) => LeavingExplained(s, j, ok, h);
      case Cancel(j) => CancelExplained(s, j, h);
      case HealthResult(g, outcome) => CheckupExplained(cfg, s, g, outcome, h);
      case _ => QuietExplained(cfg, s, l, h);
    }
  }

  /** A tenant is registered from its registration to its deletion. */
  lemma OnlyDeletionUnregisters(cfg: Settings, s: State, l: Label, h: string)
    requires Exclusive(s) && Enabled(s, l)
    ensures h in Step(cfg, s, l).registered
       <==> l.action == Register(h) || (h in s.registered && l.action != Delete(h))
  {
    hide Exclusive, BeginRestart, Granted, SetPhase, Leave, Cancelled, Checkup;
    match l.action {
      case Begin(j, g, crash) => BeginFrame(cfg, s, j, g, crash, l.at);
      case LockGranted(j) => Unfold(s, h, j);
      case LaunchReturned(j, ok) => LeavingRegisters(s, j, ok);
      case Cancel(j) => LeavingRegisters(s, j, false);
      case StopReturned(j) => PhaseRegisters(s, j, Cooling(l.at + cfg.cooldown));
      case Woke(j) => PhaseRegisters(s, j, Launching);
      case HealthResult(g, outcome) => CheckupRegisters(cfg, s, g, outcome);
      case _ =>
    }
  }

  lemma LeavingRegisters(s: State, j: JobId, ok: bool)
    requires InPhase(s, j)
    ensures Leave(s, j, ok).registered == Cancelled(s, j).registered == s.registered
  {
  }

  lemma PhaseRegisters(s: State, j: JobId, phase: Phase)
    requires j in s.jobs
    ensures SetPhase(s, j, phase).registered == s.registered
  {
  }

  lemma CheckupRegisters(cfg: Settings, s: State, h: string, outcome: Outcome)
    requires h in s.tenants
    ensures Checkup(cfg, s, h, outcome).registered == s.registered
  {
  }

  // ---- Logging out ----

  /** The labels after which a tenant may have credentials again. */
  predicate Reauthenticates(action: Action, h: string) {
    match action
    case AuthUpdate(g) => g == h
    case SessionUpdate(g, _, hasAuth) => g == h && hasAuth == Some(true)
    case _ => false
  }

  ghost predicate LoggedOut(s: State, h: string) {
    h in s.tenants && !HasValidAuth(s.tenants[h])
  }

  lemma BeginKeepsAuth(cfg: Settings, s: State, j: JobId, g: string, crash: bool, now: Time, h: string)
    requires g in s.tenants && h in s.tenants
    ensures
      var s' := BeginRestart(cfg, s, j, g, crash, now);
      h in s'.tenants && HasValidAuth(s'.tenants[h]) == HasValidAuth(s.tenants[h])
  {
    hide BeginRestart;
    BeginFrame(cfg, s, j, g, crash, now);
  }

  lemma LeavingKeepsAuth(s: State, j: JobId, ok: bool, h: string)
    requires InPhase(s, j) && h in s.tenants
    ensures LoggedOut(s, h) ==> LoggedOut(Leave(s, j, ok), h) && LoggedOut(Cancelled(s, j), h)
  {
  }

  lemma CheckupKeepsAuth(cfg: Settings, s: State, g: string, outcome: Outcome, h: string)
    requires g in s.tenants && h in s.tenants
    ensures LoggedOut(s, h) ==> LoggedOut(Checkup(cfg, s, g, outcome), h)
  {
  }

  lemma StepStaysLoggedOut(cfg: Settings, s: State, l: Label, h: string)
    requires Exclusive(s) && Enabled(s, l) && LoggedOut(s, h) && !Reauthenticates(l.action, h)
    ensures LoggedOut(Step(cfg, s, l), h)
    ensures Of(Step(cfg, s, l).everyRestart, h) == Of(s.everyRestart, h)
  {
    hide Exclusive, BeginRestart, Granted, Leave, Cancelled, Checkup;
    if Of(Step(cfg, s, l).everyRestart, h) != Of(s.everyRestart, h) {
      RecordFollowsItsCheck(cfg, s, l, h);
    }
    match l.action {
      case Begin(j, g, crash) => BeginKeepsAuth(cfg, s, j, g, crash, l.at, h);
      case LockGranted(j) => Unfold(s, h, j);
      case LaunchReturned(j, ok) => LeavingKeepsAuth(s, j, ok, h);
      case Cancel(j) => LeavingKeepsAuth(s, j, false, h);
      case HealthResult(g, outcome) => CheckupKeepsAuth(cfg, s, g, outcome, h);
      case _ =>
    }
  }

  /** A restart requested for a logged out tenant is refused and touches neither log nor sweep clock. */
  lemma LoggedOutIsRefused(cfg: Settings, s: State, j: JobId, crash: bool, h: string, now: Time)
    requires LoggedOut(s, h) && Enabled(s, Label(Begin(j, h, crash), now))
    ensures
      var s' := Step(cfg, s, Label(Begin(j, h, crash), now));
      && s'.jobs[j].phase == Finished(false)
      && s'.history == s.history && s'.lastCleanup == s.lastCleanup && s'.everyRestart == s.everyRestart
  {
  }

  /**
   From the moment a logged out tenant's credentials are cleared, and until it is authenticated
   again, its list of restarts never grows, whatever else runs.
   */
  lemma {:induction false} LoggedOutStaysDown(
      cfg: Settings, start: Time, before: seq<Label>, after: seq<Label>, h: string)
    requires Run(cfg, start, before + after).Some?
    requires Run(cfg, start, before).Some? && LoggedOut(Run(cfg, start, before).value, h)
    requires forall i :: 0 <= i < |after| ==> !Reauthenticates(after[i].action, h)
    ensures LoggedOut(Run(cfg, start, before + after).value, h)
    ensures Of(Run(cfg, start, before + after).value.everyRestart, h)
         == Of(Run(cfg, start, before).value.everyRestart, h)
  {
    if after == [] {
      assert before + after == before;
    } else {
      var shorter := after[..|after| - 1];
      assert (before + after)[..|before + after| - 1] == before + shorter;
      LoggedOutStaysDown(cfg, start, before, shorter, h);
      AlwaysExclusive(cfg, start, before + shorter);
      StepStaysLoggedOut(cfg, Run(cfg, start, before + shorter).value, after[|after| - 1], h);
    }
  }

  /** The two tasks a logout spawns. */
  predicate LogoutTasks(one: Action, other: Action, h: string) {
    var session, clear := SessionUpdate(h, "disconnected", Some(false)), ClearCreds(h);
    (one == session && other == clear) || (one == clear && other == session)
  }

  /**
   Once both tasks of a logout have run, in either order and with anything in between, every restart
   request is refused and leaves the logs alone, until the tenant is authenticated again.
   */
  lemma LogoutIsFinal(cfg: Settings, start: Time, before: seq<Label>, one: Label, middle: seq<Label>, other: Label,
                      after: seq<Label>, h: string, j: JobId, crash: bool, now: Time)
    requires Run(cfg, start, before + [one] + middle + [other] + after).Some?
    requires LogoutTasks(one.action, other.action, h)
    requires forall l :: l in middle + after ==> !Reauthenticates(l.action, h)
    ensures
      var upTo := Run(cfg, start, before + [one] + middle + [other]);
      var s := Run(cfg, start, before + [one] + middle + [other] + after).value;
      && upTo.Some? && Of(s.everyRestart, h) == Of(upTo.value.everyRestart, h)
      && LoggedOut(s, h)
      && (Enabled(s, Label(Begin(j, h, crash), now)) ==>
            var s' := Step(cfg, s, Label(Begin(j, h, crash), now));
            && s'.jobs[j].phase == Finished(false)
            && s'.history == s.history && s'.lastCleanup == s.lastCleanup && s'.everyRestart == s.everyRestart)
  {
    hide Run, Step, Enabled, LoggedOut, Reauthenticates;
    var first := before + [one];
    var second := first + middle + [other];
    RunPrefix(cfg, start, second, after);
    RunPrefix(cfg, start, first + middle, [other]);
    RunPrefix(cfg, start, first, middle);
    if other.action == ClearCreds(h) {
      ClearingLogsOut(cfg, start, first + middle, other, h);
    } else {
      ClearingLogsOut(cfg, start, before, one, h);
      assert first + (middle + [other]) == second;
      assert !Reauthenticates(other.action, h) by { SessionAuthenticatesNobody(h); }
      LoggedOutStaysDown(cfg, start, first, middle + [other], h);
    }
    LoggedOutStaysDown(cfg, start, second, after, h);
    var s := Run(cfg, start, second + after).value;
    if Enabled(s, Label(Begin(j, h, crash), now)) {
      LoggedOutIsRefused(cfg, s, j, crash, h, now);
    }
  }

  lemma SessionAuthenticatesNobody(h: string)
    ensures !Reauthenticates(SessionUpdate(h, "disconnected", Some(false)), h)
  {
  }

  lemma {:induction false} RunPrefix(cfg: Settings, start: Time, labels: seq<Label>, more: seq<Label>)
    requires Run(cfg, start, labels + more).Some?
    ensures Run(cfg, start, labels).Some?
  {
    hide Step, Enabled;
    if more == [] {
      assert labels + more == labels;
    } else {
      assert (labels + more)[..|labels + more| - 1] == labels + more[..|more| - 1];
      RunPrefix(cfg, start, labels, more[..|more| - 1]);
    }
  }

  lemma ClearingLogsOut(cfg: Settings, start: Time, labels: seq<Label>, l: Label, h: string)
    requires Run(cfg, start, labels + [l]).Some? && l.action == ClearCreds(h)
    ensures LoggedOut(Run(cfg, start, labels + [l]).value, h)
  {
    assert (labels + [l])[..|labels|] == labels;
  }
}
