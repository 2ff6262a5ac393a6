/**
 The restart log of src/tenant/__init__.py: a list of instants per tenant, filtered on every
 permission check and swept once an hour. The filtering is proved to be invisible.
 */
module RestartLog {
  import opened Wrappers
  import opened Windows
  import opened Tenants

  const CLEANUP_INTERVAL: Time := 3600.0

  datatype Settings = Settings(
    autoRestart: bool,
    maxAttempts: int,
    window: Time,
    cooldown: Time,
    maxHealthFailures: int)

  type History = map<string, seq<Time>>

  /** One pass of the hourly sweep: unregistered tenants go, old instants go, empty lists go. */
  function Swept(history: History, active: set<string>, cutoff: Time): History {
    map h | h in history && h in active && After(history[h], cutoff) != [] :: After(history[h], cutoff)
  }

  predicate SweepDue(lastCleanup: Time, now: Time) {
    now - lastCleanup >= CLEANUP_INTERVAL
  }

  function Cleaned(cfg: Settings, history: History, lastCleanup: Time, active: set<string>, now: Time): History {
    if SweepDue(lastCleanup, now) then Swept(history, active, now - cfg.window) else history
  }

  lemma {:induction false} FilterKeeps(ts: seq<Time>, cutoff: Time, t: Time)
    ensures t in After(ts, cutoff) <==> t in ts && cutoff < t
  {
    if ts != [] {
      assert ts == [ts[0]] + ts[1..];
      FilterKeeps(ts[1..], cutoff, t);
    }
  }

  /** The sweep runs once an hour has passed, and leaves exactly the recent restarts of registered tenants. */
  lemma SweepIsExact(cfg: Settings, history: History, lastCleanup: Time, active: set<string>, now: Time, h: string)
    ensures
      var cleaned := Cleaned(cfg, history, lastCleanup, active, now);
      if now - lastCleanup < 3600.0 then cleaned == history
      else
        && (h in cleaned <==> h in history && h in active && exists t :: t in history[h] && now - cfg.window < t)
        && (h in cleaned ==> forall t :: t in cleaned[h] <==> t in history[h] && now - cfg.window < t)
  {
    hide After;
    CleanedCases(cfg, history, lastCleanup, active, now);
    if h in history && now - lastCleanup >= 3600.0 {
      var kept := After(history[h], now - cfg.window);
      forall t: Time ensures t in kept <==> t in history[h] && now - cfg.window < t {
        FilterKeeps(history[h], now - cfg.window, t);
      }
      assert kept != [] ==> kept[0] in kept;
    }
  }

  lemma CleanedCases(cfg: Settings, history: History, lastCleanup: Time, active: set<string>, now: Time)
    ensures Cleaned(cfg, history, lastCleanup, active, now)
         == if SweepDue(lastCleanup, now) then Swept(history, active, now - cfg.window) else history
  {
  }

  /** The history a permission check leaves behind. */
  function Checked(cfg: Settings, history: History, lastCleanup: Time, active: set<string>, hash: string, now: Time)
    : History
  {
    var cleaned := Cleaned(cfg, history, lastCleanup, active, now);
    if cfg.autoRestart then cleaned[hash := After(Of(cleaned, hash), now - cfg.window)] else cleaned
  }

  function Recorded(history: History, hash: string, now: Time): History {
    history[hash := Of(history, hash) + [now]]
  }

  /** What the check would say if nothing had ever been dropped. */
  predicate MayRestart(cfg: Settings, everyRestart: seq<Time>, now: Time) {
    cfg.autoRestart && CountIn(everyRestart, now - cfg.window, now) < cfg.maxAttempts
  }

  ghost predicate Tracked(cfg: Settings, kept: seq<Time>, full: seq<Time>, clock: Time) {
    Sorted(full) && NoneAfter(full, clock) && IsTail(kept, full, clock - cfg.window)
  }

  lemma StillTracked(cfg: Settings, kept: seq<Time>, full: seq<Time>, clock: Time, now: Time)
    requires Tracked(cfg, kept, full, clock) && clock <= now
    ensures Tracked(cfg, kept, full, now)
  {
  }

  /** Filtering at the window's edge keeps the list a tail, and leaves exactly what the window counts. */
  lemma FilterTracks(cfg: Settings, kept: seq<Time>, full: seq<Time>, now: Time)
    requires Tracked(cfg, kept, full, now)
    ensures Tracked(cfg, After(kept, now - cfg.window), full, now)
    ensures |After(kept, now - cfg.window)| == CountIn(full, now - cfg.window, now)
  {
    hide After, CountIn, IsTail, Sorted, NoneAfter;
    TailSorted(kept, full, now - cfg.window);
    AfterIsSuffix(kept, now - cfg.window);
    TailPruned(kept, full, now - cfg.window, now, FirstAfter(kept, now - cfg.window));
  }

  lemma RecordTracks(cfg: Settings, kept: seq<Time>, full: seq<Time>, now: Time)
    requires Tracked(cfg, kept, full, now)
    ensures Tracked(cfg, kept + [now], full + [now], now)
  {
    TailAppend(kept, full, now - cfg.window, now);
  }

  /** Every registered tenant's list stands in for its complete list of restarts. */
  ghost predicate Faithful(cfg: Settings, history: History, full: History, active: set<string>, clock: Time) {
    forall h {:trigger h in active} :: h in active ==> Tracked(cfg, Of(history, h), Of(full, h), clock)
  }

  lemma CleanupIsInvisible(cfg: Settings, history: History, full: History, lastCleanup: Time, active: set<string>,
                           clock: Time, now: Time)
    requires Faithful(cfg, history, full, active, clock) && clock <= now
    ensures Faithful(cfg, Cleaned(cfg, history, lastCleanup, active, now), full, active, now)
  {
    hide Tracked;
    forall h | h in active
      ensures Tracked(cfg, Of(Cleaned(cfg, history, lastCleanup, active, now), h), Of(full, h), now)
    {
      StillTracked(cfg, Of(history, h), Of(full, h), clock, now);
      FilterTracks(cfg, Of(history, h), Of(full, h), now);
    }
  }

  /** `can_restart` answers as it would on the complete log, whatever the sweeps dropped. */
  lemma CheckIsExact(cfg: Settings, history: History, full: History, lastCleanup: Time, active: set<string>,
                     clock: Time, now: Time, hash: string)
    requires Faithful(cfg, history, full, active, clock) && clock <= now && hash in active
    ensures Faithful(cfg, Checked(cfg, history, lastCleanup, active, hash, now), full, active, now)
    ensures cfg.autoRestart ==>
              |Of(Checked(cfg, history, lastCleanup, active, hash, now), hash)|
                == CountIn(Of(full, hash), now - cfg.window, now)
  {
    hide Tracked;
    CleanupIsInvisible(cfg, history, full, lastCleanup, active, clock, now);
    var cleaned := Cleaned(cfg, history, lastCleanup, active, now);
    FilterTracks(cfg, Of(cleaned, hash), Of(full, hash), now);
  }

  /** A check on behalf of a deleted tenant cannot disturb the registered ones either. */
  lemma CheckKeepsOthers(cfg: Settings, history: History, full: History, lastCleanup: Time, active: set<string>,
                         clock: Time, now: Time, hash: string)
    requires Faithful(cfg, history, full, active, clock) && clock <= now
    ensures Faithful(cfg, Checked(cfg, history, lastCleanup, active, hash, now), full, active, now)
  {
    hide Tracked;
    CleanupIsInvisible(cfg, history, full, lastCleanup, active, clock, now);
    if hash in active {
      CheckIsExact(cfg, history, full, lastCleanup, active, clock, now, hash);
    }
  }

  lemma RecordIsFaithful(cfg: Settings, history: History, full: History, active: set<string>, now: Time, hash: string)
    requires Faithful(cfg, history, full, active, now)
    ensures Faithful(cfg, Recorded(history, hash, now), Recorded(full, hash, now), active, now)
  {
    hide Tracked;
    if hash in active {
      RecordTracks(cfg, Of(history, hash), Of(full, hash), now);
    }
  }

  // ---- Health checks ----

  datatype Outcome = Healthy | Unhealthy | TimedOut | Errored

  /** The failure counter after a check. */
  function FailuresAfter(failures: nat, outcome: Outcome): nat {
    match outcome
    case Healthy => 0
    case Errored => failures
    case _ => failures + 1
  }

  /** The check marks its tenant offline. */
  predicate GoesOffline(cfg: Settings, failures: nat, outcome: Outcome) {
    (outcome == Unhealthy || outcome == TimedOut) && failures + 1 >= cfg.maxHealthFailures
  }

  class RestartManager {
    const cfg: Settings
    var tenants: set<string>
    var history: History
    var lastCleanup: Time
    ghost var full: History
    ghost var clock: Time

    ghost predicate Valid()
      reads this
    {
      Faithful(cfg, history, full, tenants, clock)
    }

    constructor (cfg: Settings, tenants: set<string>, now: Time)
      ensures Valid() && this.cfg == cfg && this.tenants == tenants
      ensures history == map[] && full == map[] && clock == lastCleanup == now
    {
      this.cfg, this.tenants := cfg, tenants;
      history, full, lastCleanup, clock := map[], map[], now, now;
    }

    /** The loop of the sweep, deleting and replacing entries in place. */
    method Sweep(cutoff: Time)
      modifies this`history
      ensures history == Swept(old(history), tenants, cutoff)
    {
      hide After;
      ghost var before := history;
      var todo := history.Keys;
      while todo != {}
        invariant todo <= history.Keys <= before.Keys
        invariant forall h :: h in todo ==> history[h] == before[h]
        invariant forall h :: h in before && h !in todo ==> (h in history <==> h in Swept(before, tenants, cutoff))
        invariant forall h :: h in history && h !in todo ==> history[h] == After(before[h], cutoff)
        decreases todo
      {
        var h :| h in todo;
        if h !in tenants {
          history := history - {h};
        } else {
          history := history[h := After(history[h], cutoff)];
          if history[h] == [] {
            history := history - {h};
          }
        }
        todo := todo - {h};
      }
    }

    method CleanupRestartHistory(now: Time)
      requires Valid() && clock <= now
      modifies this`history, this`lastCleanup, this`clock
      ensures Valid() && clock == now
      ensures history == Cleaned(cfg, old(history), old(lastCleanup), tenants, now)
      ensures lastCleanup == if SweepDue(old(lastCleanup), now) then now else old(lastCleanup)
    {
      hide Faithful, After, Swept, Cleaned, Sorted, IsTail, NoneAfter, CountIn, Of;
      CleanupIsInvisible(cfg, history, full, lastCleanup, tenants, clock, now);
      CleanedCases(cfg, history, lastCleanup, tenants, now);
      clock := now;
      if now - lastCleanup < CLEANUP_INTERVAL {
        return;
      }
      Sweep(now - cfg.window);
      lastCleanup := now;
    }

    method CanRestart(hash: string, now: Time) returns (ok: bool)
      requires Valid() && clock <= now
      modifies this`history, this`lastCleanup, this`clock
      ensures Valid() && clock == now
      ensures hash in tenants ==> ok == MayRestart(cfg, Of(full, hash), now)
      ensures history == Checked(cfg, old(history), old(lastCleanup), tenants, hash, now)
      ensures ok == (cfg.autoRestart && |Of(history, hash)| < cfg.maxAttempts)
      ensures lastCleanup == if SweepDue(old(lastCleanup), now) then now else old(lastCleanup)
    {
      hide Faithful, After, CountIn, Cleaned;
      CheckKeepsOthers(cfg, history, full, lastCleanup, tenants, clock, now, hash);
      if hash in tenants {
        CheckIsExact(cfg, history, full, lastCleanup, tenants, clock, now, hash);
      }
      CleanupRestartHistory(now);
      ok := false;
      assert history == Cleaned(cfg, old(history), old(lastCleanup), tenants, now);
      if cfg.autoRestart {
        history := history[hash := After(Of(history, hash), now - cfg.window)];
        ok := |history[hash]| < cfg.maxAttempts;
      }
    }

    method RecordRestart(tenant: Tenant, reason: string, now: Time)
      requires Valid() && clock <= now
      modifies this`history, this`full, this`clock
      modifies tenant`totalRestarts, tenant`lastRestartAt, tenant`lastRestartReason
      ensures Valid() && clock == now
      ensures history == Recorded(old(history), tenant.apiKeyHash, now)
      ensures full == Recorded(old(full), tenant.apiKeyHash, now)
      ensures tenant.totalRestarts == old(tenant.totalRestarts) + 1
      ensures tenant.lastRestartAt == Some(now) && tenant.lastRestartReason == Some(reason)
    {
      forall h | h in tenants
        ensures Tracked(cfg, Of(history, h), Of(full, h), now)
      {
        StillTracked(cfg, Of(history, h), Of(full, h), clock, now);
      }
      RecordIsFaithful(cfg, history, full, tenants, now, tenant.apiKeyHash);
      hide Faithful;
      if tenant.apiKeyHash !in history {
        history := history[tenant.apiKeyHash := []];
      }
      history := history[tenant.apiKeyHash := history[tenant.apiKeyHash] + [now]];
      full := Recorded(full, tenant.apiKeyHash, now);
      assert history == Recorded(old(history), tenant.apiKeyHash, now);
      tenant.totalRestarts := tenant.totalRestarts + 1;
      tenant.lastRestartAt, tenant.lastRestartReason := Some(now), Some(reason);
      clock := now;
    }

    method ResetHealthFailures(tenant: Tenant)
      modifies tenant`healthFailures
      ensures tenant.healthFailures == 0
    {
      tenant.healthFailures := 0;
    }

    method IncrementHealthFailures(tenant: Tenant) returns (failures: nat)
      modifies tenant`healthFailures
      ensures failures == tenant.healthFailures == old(tenant.healthFailures) + 1
    {
      tenant.healthFailures := tenant.healthFailures + 1;
      failures := tenant.healthFailures;
    }

    /** What the health check does with the status of one connected tenant. */
    method RecordCheck(tenant: Tenant, outcome: Outcome)
      modifies tenant`healthFailures, tenant`connectionState
      ensures tenant.healthFailures
           == match outcome
              case Healthy => 0
              case Errored => old(tenant.healthFailures)
              case _ => old(tenant.healthFailures) + 1
      ensures tenant.connectionState
           == if (outcome == Unhealthy || outcome == TimedOut) && tenant.healthFailures >= cfg.maxHealthFailures
              then "disconnected" else old(tenant.connectionState)
      ensures tenant.healthFailures == FailuresAfter(old(tenant.healthFailures), outcome)
      ensures GoesOffline(cfg, old(tenant.healthFailures), outcome)
         <==> (outcome == Unhealthy || outcome == TimedOut) && tenant.healthFailures >= cfg.maxHealthFailures
    {
      if outcome == Healthy {
        ResetHealthFailures(tenant);
      } else if outcome == Unhealthy || outcome == TimedOut {
        var failures := IncrementHealthFailures(tenant);
        if failures >= cfg.maxHealthFailures {
          tenant.connectionState := "disconnected";
        }
      }
    }
  }
}
