/**
 Whole runs of the limiter. `Replay` drives the pruning, sweeping, lazily expiring limiter through
 any chronological list of operations and is proved to give, call by call, the replies of a
 bookkeeper that keeps every admission and on which looking something up has no effect at all.
 The budgets are then theorems about the bookkeeper's replies.
 */
module LimiterRuns {
  import opened Wrappers
  import opened Windows
  import opened RateLimit
  import opened Auth

  datatype Op =
    | Visit(ip: string)                             // a request through the middleware
    | TenantCall(request: Request, keys: set<string>)
    | AdminCall(request: Request, adminKey: string)
    | Ban(ip: string, text: string)
    | Unban(ip: string)
    | Forgive(target: Option<string>)
    | Query(query: Query)

  datatype Query = AskStats(target: Option<string>) | AskBlocked | AskFailures(target: Option<string>)

  datatype Timed = Timed(op: Op, at: Time)

  datatype Reply = Rate(answer: Answer) | Auth(outcome: Outcome) | Silent

  ghost predicate InOrder(ops: seq<Timed>) {
    forall i, j :: 0 <= i < j < |ops| ==> ops[i].at <= ops[j].at
  }

  // ---- The bookkeeper ----

  function Unbanned(lim: Limits, r: Record, now: Time): Record {
    if Blocked(lim, r, now) then r.(block := None, failures := []) else r
  }

  function Reply1(lim: Limits, book: Records, step: Timed): Reply {
    match step.op
    case Visit(ip) => Rate(Judge(lim, RecordOf(book, ip), step.at))
    case TenantCall(request, keys) =>
      Auth(AuthOutcome(lim, RecordOf(book, request.ip), TenantCheck(request, keys), step.at))
    case AdminCall(request, key) =>
      Auth(AuthOutcome(lim, RecordOf(book, request.ip), AdminCheck(request, key), step.at))
    case _ => Silent
  }

  function Book1(lim: Limits, book: Records, step: Timed): Records {
    match step.op
    case Visit(ip) =>
      var r := RecordOf(book, ip);
      book[ip := Sentenced(r, Judge(lim, r, step.at), step.at)]
    case TenantCall(request, keys) =>
      book[request.ip := AuthRecord(lim, RecordOf(book, request.ip), TenantCheck(request, keys), step.at)]
    case AdminCall(request, key) =>
      book[request.ip := AuthRecord(lim, RecordOf(book, request.ip), AdminCheck(request, key), step.at)]
    case Ban(ip, text) => book[ip := RecordOf(book, ip).(block := Some(BlockInfo(step.at, Given(text))))]
    case Unban(ip) => book[ip := Unbanned(lim, RecordOf(book, ip), step.at)]
    case Forgive(None) => AllCleared(book)
    case Forgive(Some(ip)) => book[ip := RecordOf(book, ip).(failures := [])]
    case Query(_) => book
  }

  function BookAfter(lim: Limits, ops: seq<Timed>): Records {
    if ops == [] then map[] else Book1(lim, BookAfter(lim, ops[..|ops| - 1]), ops[|ops| - 1])
  }

  function Replies(lim: Limits, ops: seq<Timed>): (replies: seq<Reply>)
    ensures |replies| == |ops|
  {
    if ops == [] then []
    else
      var before := ops[..|ops| - 1];
      Replies(lim, before) + [Reply1(lim, BookAfter(lim, before), ops[|ops| - 1])]
  }

  // ---- The limiter agrees with the bookkeeper ----

  /** Equal once both have been looked at; failures hidden behind a block do not matter. */
  ghost predicate Agree(lim: Limits, r: Record, kept: Record, now: Time) {
    var a, b := Noticed(lim, r, now), Noticed(lim, kept, now);
    a.admitted == b.admitted && a.block == b.block && (a.block.None? ==> a.failures == b.failures)
  }

  ghost predicate Agreement(lim: Limits, records: Records, book: Records, now: Time) {
    forall ip: string :: Agree(lim, RecordOf(records, ip), RecordOf(book, ip), now)
  }

  lemma AgreeLater(lim: Limits, records: Records, book: Records, before: Time, now: Time)
    requires Agreement(lim, records, book, before) && before <= now
    ensures Agreement(lim, records, book, now)
  {
    forall ip: string
      ensures Agree(lim, RecordOf(records, ip), RecordOf(book, ip), now)
    {
      assert Agree(lim, RecordOf(records, ip), RecordOf(book, ip), before);
    }
  }

  lemma AgreeAt(lim: Limits, records: Records, book: Records, now: Time, ip: string, r: Record, kept: Record)
    requires Agreement(lim, records, book, now) && Agree(lim, r, kept, now)
    ensures Agreement(lim, records[ip := r], book[ip := kept], now)
  {
    var records', book' := records[ip := r], book[ip := kept];
    forall other: string
      ensures Agree(lim, RecordOf(records', other), RecordOf(book', other), now)
    {
      if other != ip {
        assert Agree(lim, RecordOf(records, other), RecordOf(book, other), now);
      }
    }
  }

  lemma AgreeSeen(lim: Limits, records: Records, book: Records, now: Time, ip: string)
    requires Agreement(lim, records, book, now)
    ensures Agreement(lim, records[ip := Noticed(lim, RecordOf(records, ip), now)], book, now)
  {
    var records' := records[ip := Noticed(lim, RecordOf(records, ip), now)];
    forall other: string
      ensures Agree(lim, RecordOf(records', other), RecordOf(book, other), now)
    {
      assert Agree(lim, RecordOf(records, other), RecordOf(book, other), now);
    }
  }

  lemma AgreeCleared(lim: Limits, records: Records, book: Records, now: Time)
    requires Agreement(lim, records, book, now)
    ensures Agreement(lim, AllCleared(records), AllCleared(book), now)
  {
    forall ip: string
      ensures Agree(lim, RecordOf(AllCleared(records), ip), RecordOf(AllCleared(book), ip), now)
    {
      assert Agree(lim, RecordOf(records, ip), RecordOf(book, ip), now);
    }
  }

  /** The middleware: a block check, then the rate check. */
  method Dispatch(limiter: RateLimiter, ip: string, now: Time) returns (answer: Answer)
    requires limiter.Valid() && limiter.clock <= now
    modifies limiter
    ensures limiter.Valid() && limiter.clock == now
    ensures answer == Judge(limiter.limits, old(limiter.Known(ip)), now)
    ensures limiter.records == old(limiter.records)[ip :=
              Sentenced(Noticed(limiter.limits, old(limiter.Known(ip)), now), answer, now)]
    ensures 1 <= limiter.limits.maxFailed ==>
              Contained(old(limiter.failedAttempts), limiter.failedAttempts, limiter.limits.maxFailed)
  {
    hide Coherent, CountIn;
    ghost var seen := Noticed(limiter.limits, limiter.Known(ip), now);
    var barred := limiter.IsBlocked(ip, now);
    assert limiter.Known(ip) == seen;
    if barred {
      return Barred;
    }
    answer := limiter.CheckRateLimit(ip, now);
    assert Noticed(limiter.limits, seen, now) == seen;
  }

  method Ask(limiter: RateLimiter, query: Query, now: Time, ghost book: Records)
    requires limiter.Valid() && limiter.clock <= now
    requires Agreement(limiter.limits, limiter.records, book, now)
    modifies limiter
    ensures limiter.Valid() && limiter.clock == now
    ensures Agreement(limiter.limits, limiter.records, book, now)
    ensures 1 <= limiter.limits.maxFailed ==>
              Contained(old(limiter.failedAttempts), limiter.failedAttempts, limiter.limits.maxFailed)
  {
    hide Coherent, CountIn, Agreement, Contained;
    ContainedStill(limiter.failedAttempts, limiter.limits.maxFailed);
    match query {
      case AskStats(Some(ip)) =>
        if ip != "" {
          AgreeSeen(limiter.limits, limiter.records, book, now, ip);
          var _ := limiter.GetStatsFor(ip, now);
          return;
        }
        var _, _, _ := limiter.GetStats(now);
      case AskStats(None) =>
        var _, _, _ := limiter.GetStats(now);
      case AskBlocked =>
        var _ := limiter.GetBlockedIps(now);
        AdvanceAll(limiter.limits, limiter.State(), limiter.records, limiter.clock, now);
        limiter.clock := now;
      case AskFailures(Some(ip)) =>
        if ip != "" {
          AgreeSeen(limiter.limits, limiter.records, book, now, ip);
          var _, _ := limiter.GetFailedFor(ip, now);
          return;
        }
        var _ := limiter.GetFailed(now);
      case AskFailures(None) =>
        var _ := limiter.GetFailed(now);
    }
  }

  method Perform(limiter: RateLimiter, step: Timed, ghost book: Records) returns (reply: Reply)
    requires limiter.Valid() && limiter.clock <= step.at
    requires Agreement(limiter.limits, limiter.records, book, limiter.clock)
    modifies limiter
    ensures limiter.Valid() && limiter.clock == step.at
    ensures reply == Reply1(limiter.limits, book, step)
    ensures Agreement(limiter.limits, limiter.records, Book1(limiter.limits, book, step), step.at)
    ensures 1 <= limiter.limits.maxFailed ==>
              Contained(old(limiter.failedAttempts), limiter.failedAttempts, limiter.limits.maxFailed)
  {
    hide Coherent, CountIn, Agreement, Contained;
    var now := step.at;
    ContainedStill(limiter.failedAttempts, limiter.limits.maxFailed);
    ghost var lim, records := limiter.limits, limiter.records;
    AgreeLater(lim, records, book, limiter.clock, now);
    reply := Silent;
    match step.op {
      case Visit(ip) =>
        var answer := Dispatch(limiter, ip, now);
        AfterVisit(lim, records, book, now, ip);
        reply := Rate(answer);
      case TenantCall(request, keys) =>
        var outcome := GetTenant(limiter, request, keys, now);
        AfterAuth(lim, records, book, now, request.ip, TenantCheck(request, keys));
        reply := Auth(outcome);
      case AdminCall(request, key) =>
        var outcome := GetAdminKey(limiter, request, key, now);
        AfterAuth(lim, records, book, now, request.ip, AdminCheck(request, key));
        reply := Auth(outcome);
      case Ban(ip, text) =>
        limiter.BlockIp(ip, Given(text), now);
        AfterBan(lim, records, book, now, ip, BlockInfo(now, Given(text)));
      case Unban(ip) =>
        var _ := limiter.UnblockIp(ip, now);
        AfterUnban(lim, records, book, now, ip);
      case Forgive(None) =>
        limiter.ClearFailedAuth(None, now);
        AgreeCleared(lim, records, book, now);
      case Forgive(Some(ip)) =>
        limiter.ClearFailedAuth(Some(ip), now);
        AfterForgive(lim, records, book, now, ip);
      case Query(query) =>
        Ask(limiter, query, now, book);
    }
  }

  lemma AfterVisit(lim: Limits, records: Records, book: Records, now: Time, ip: string)
    requires Agreement(lim, records, book, now)
    ensures
      var r, kept := RecordOf(records, ip), RecordOf(book, ip);
      && Judge(lim, r, now) == Judge(lim, kept, now)
      && Agreement(lim, records[ip := Sentenced(Noticed(lim, r, now), Judge(lim, r, now), now)],
                   book[ip := Sentenced(kept, Judge(lim, kept, now), now)], now)
  {
    hide CountIn;
    var r, kept := RecordOf(records, ip), RecordOf(book, ip);
    assert Agree(lim, r, kept, now);
    AgreeAt(lim, records, book, now, ip, Sentenced(Noticed(lim, r, now), Judge(lim, r, now), now),
            Sentenced(kept, Judge(lim, kept, now), now));
  }

  lemma AfterAuth(lim: Limits, records: Records, book: Records, now: Time, ip: string, check: Check)
    requires Agreement(lim, records, book, now)
    ensures
      var r, kept := RecordOf(records, ip), RecordOf(book, ip);
      && AuthOutcome(lim, r, check, now) == AuthOutcome(lim, kept, check, now)
      && Agreement(lim, records[ip := AuthRecord(lim, Noticed(lim, r, now), check, now)],
                   book[ip := AuthRecord(lim, kept, check, now)], now)
  {
    hide CountIn;
    var r, kept := RecordOf(records, ip), RecordOf(book, ip);
    assert Agree(lim, r, kept, now);
    AgreeAt(lim, records, book, now, ip, AuthRecord(lim, Noticed(lim, r, now), check, now),
            AuthRecord(lim, kept, check, now));
  }

  lemma AfterBan(lim: Limits, records: Records, book: Records, now: Time, ip: string, info: BlockInfo)
    requires Agreement(lim, records, book, now) && info.at == now
    ensures Agreement(lim, records[ip := RecordOf(records, ip).(block := Some(info))],
                      book[ip := RecordOf(book, ip).(block := Some(info))], now)
  {
    assert Agree(lim, RecordOf(records, ip), RecordOf(book, ip), now);
    AgreeAt(lim, records, book, now, ip, RecordOf(records, ip).(block := Some(info)),
            RecordOf(book, ip).(block := Some(info)));
  }

  lemma AfterUnban(lim: Limits, records: Records, book: Records, now: Time, ip: string)
    requires Agreement(lim, records, book, now)
    ensures
      var r := RecordOf(records, ip);
      Agreement(lim, records[ip := if r.block.Some? then r.(block := None, failures := []) else r],
                book[ip := Unbanned(lim, RecordOf(book, ip), now)], now)
  {
    var r := RecordOf(records, ip);
    assert Agree(lim, r, RecordOf(book, ip), now);
    AgreeAt(lim, records, book, now, ip, if r.block.Some? then r.(block := None, failures := []) else r,
            Unbanned(lim, RecordOf(book, ip), now));
  }

  lemma AfterForgive(lim: Limits, records: Records, book: Records, now: Time, ip: string)
    requires Agreement(lim, records, book, now)
    ensures Agreement(lim, records[ip := RecordOf(records, ip).(failures := [])],
                      book[ip := RecordOf(book, ip).(failures := [])], now)
  {
    assert Agree(lim, RecordOf(records, ip), RecordOf(book, ip), now);
    AgreeAt(lim, records, book, now, ip, RecordOf(records, ip).(failures := []), RecordOf(book, ip).(failures := []));
  }

  lemma ContainedStill(failed: map<string, seq<Time>>, limit: int)
    ensures Contained(failed, failed, limit)
  {
  }

  /** No address has more failures on its deque than the limit. */
  ghost predicate FailuresBounded(limiter: RateLimiter)
    reads limiter
  {
    1 <= limiter.limits.maxFailed ==> Contained(map[], limiter.failedAttempts, limiter.limits.maxFailed)
  }

  /**
   Any chronological run of a new limiter gives the bookkeeper's replies, and at every moment of it the
   failures of every address stay within the limit.
   */
  method Drive(limiter: RateLimiter, ops: seq<Timed>) returns (replies: seq<Reply>)
    requires limiter.Valid() && InOrder(ops) && (ops != [] ==> limiter.clock <= ops[0].at)
    requires Agreement(limiter.limits, limiter.records, map[], limiter.clock) && FailuresBounded(limiter)
    modifies limiter
    ensures replies == Replies(limiter.limits, ops)
    ensures limiter.Valid() && FailuresBounded(limiter)
  {
    hide Coherent, CountIn, Agreement, Contained;
    ghost var lim, start := limiter.limits, limiter.clock;
    replies := [];
    for i := 0 to |ops|
      invariant limiter.Valid() && FailuresBounded(limiter)
      invariant limiter.clock == if i == 0 then start else ops[i - 1].at
      invariant replies == Replies(lim, ops[..i])
      invariant Agreement(lim, limiter.records, BookAfter(lim, ops[..i]), limiter.clock)
    {
      assert ops[..i + 1][..i] == ops[..i];
      ghost var before := limiter.failedAttempts;
      var reply := Perform(limiter, ops[i], BookAfter(lim, ops[..i]));
      if 1 <= lim.maxFailed {
        ContainedTwice(map[], before, limiter.failedAttempts, lim.maxFailed);
      }
      replies := replies + [reply];
    }
    assert ops[..|ops|] == ops;
  }

  method Replay(lim: Limits, start: Time, ops: seq<Timed>) returns (replies: seq<Reply>)
    requires InOrder(ops) && (ops != [] ==> start <= ops[0].at)
    ensures replies == Replies(lim, ops)
  {
    hide Coherent, CountIn, Agreement, Contained;
    var limiter := new RateLimiter(lim, start);
    AgreeAtStart(lim, start);
    NothingContained(lim.maxFailed);
    replies := Drive(limiter, ops);
  }

  lemma NothingContained(limit: int)
    ensures 1 <= limit ==> Contained(map[], map[], limit)
  {
  }

  lemma AgreeAtStart(lim: Limits, start: Time)
    ensures Agreement(lim, map[], map[], start)
  {
  }

  // ---- Theorems about every run ----

  /** The instants at which requests from an address were let through. */
  function AdmittedTimes(lim: Limits, ops: seq<Timed>, ip: string): seq<Time> {
    if ops == [] then []
    else
      var before, last := ops[..|ops| - 1], ops[|ops| - 1];
      if last.op == Visit(ip) && Replies(lim, ops)[|ops| - 1] == Rate(Admitted)
      then AdmittedTimes(lim, before, ip) + [last.at]
      else AdmittedTimes(lim, before, ip)
  }

  lemma BookKeepsAdmissions(lim: Limits, book: Records, step: Timed, ip: string)
    ensures RecordOf(Book1(lim, book, step), ip).admitted
         == if step.op == Visit(ip) && Reply1(lim, book, step) == Rate(Admitted)
            then RecordOf(book, ip).admitted + [step.at] else RecordOf(book, ip).admitted
  {
    hide CountIn;
  }

  lemma {:induction false} BookIsComplete(lim: Limits, ops: seq<Timed>, ip: string)
    ensures RecordOf(BookAfter(lim, ops), ip).admitted == AdmittedTimes(lim, ops, ip)
  {
    if ops != [] {
      var before := ops[..|ops| - 1];
      BookIsComplete(lim, before, ip);
      BookKeepsAdmissions(lim, BookAfter(lim, before), ops[|ops| - 1], ip);
    }
  }

  /** Over any run no window of a minute or an hour admits more than its limit from one address. */
  lemma {:induction false} AdmissionBudget(lim: Limits, ops: seq<Timed>, ip: string)
    requires InOrder(ops)
    ensures AtMost(AdmittedTimes(lim, ops, ip), MINUTE, lim.perMinute)
    ensures AtMost(AdmittedTimes(lim, ops, ip), HOUR, lim.perHour)
    ensures ops != [] ==> NoneAfter(AdmittedTimes(lim, ops, ip), ops[|ops| - 1].at)
    ensures ops == [] ==> AdmittedTimes(lim, ops, ip) == []
  {
    hide AtMost, CountIn;
    if ops == [] {
      EmptyWithinBudget(MINUTE, lim.perMinute);
      EmptyWithinBudget(HOUR, lim.perHour);
    } else {
      var before, last := ops[..|ops| - 1], ops[|ops| - 1];
      AdmissionBudget(lim, before, ip);
      BookIsComplete(lim, before, ip);
      var past := AdmittedTimes(lim, before, ip);
      assert NoneAfter(past, last.at);
      if last.op == Visit(ip) && Replies(lim, ops)[|ops| - 1] == Rate(Admitted) {
        RecordKeepsBudget(past, MINUTE, lim.perMinute, last.at, last.at);
        RecordKeepsBudget(past, HOUR, lim.perHour, last.at, last.at);
      }
    }
  }

  function WithoutQueries(ops: seq<Timed>): seq<Timed> {
    if ops == [] then []
    else
      var rest := WithoutQueries(ops[..|ops| - 1]);
      if ops[|ops| - 1].op.Query? then rest else rest + [ops[|ops| - 1]]
  }

  function AnswersOnly(ops: seq<Timed>, replies: seq<Reply>): seq<Reply>
    requires |ops| == |replies|
  {
    if ops == [] then []
    else
      var rest := AnswersOnly(ops[..|ops| - 1], replies[..|ops| - 1]);
      if ops[|ops| - 1].op.Query? then rest else rest + [replies[|ops| - 1]]
  }

  /** Taking every query out of a run changes none of the other replies. */
  lemma {:induction false} QueriesAreInvisible(lim: Limits, ops: seq<Timed>)
    ensures BookAfter(lim, WithoutQueries(ops)) == BookAfter(lim, ops)
    ensures Replies(lim, WithoutQueries(ops)) == AnswersOnly(ops, Replies(lim, ops))
  {
    if ops != [] {
      var before, last := ops[..|ops| - 1], ops[|ops| - 1];
      QueriesAreInvisible(lim, before);
      assert Replies(lim, ops)[..|before|] == Replies(lim, before);
      if !last.op.Query? {
        assert (WithoutQueries(before) + [last])[..|WithoutQueries(before)|] == WithoutQueries(before);
      }
    }
  }

  /** Two limiters, one of them never asked for statistics, give the same replies to everything else. */
  method ReplayWithoutQueries(lim: Limits, start: Time, ops: seq<Timed>)
    returns (replies: seq<Reply>, quiet: seq<Reply>)
    requires InOrder(ops) && (ops != [] ==> start <= ops[0].at)
    ensures replies == Replies(lim, ops) && quiet == AnswersOnly(ops, replies)
  {
    hide Replies;
    replies := Replay(lim, start, ops);
    QuietInOrder(ops);
    quiet := Replay(lim, start, WithoutQueries(ops));
    QueriesAreInvisible(lim, ops);
  }

  lemma {:induction false} QuietInOrder(ops: seq<Timed>)
    requires InOrder(ops)
    ensures InOrder(WithoutQueries(ops))
    ensures forall step :: step in WithoutQueries(ops) ==> step in ops
    ensures WithoutQueries(ops) != [] ==> ops != [] && ops[0].at <= WithoutQueries(ops)[0].at
  {
    if ops != [] {
      var front, last := ops[..|ops| - 1], ops[|ops| - 1];
      QuietInOrder(front);
      assert ops == front + [last];
      var rest := WithoutQueries(front);
      forall step | step in rest ensures step.at <= last.at {
        var i :| 0 <= i < |front| && front[i] == step;
        assert ops[i] == step;
      }
      if rest != [] {
        assert rest[0] in rest;
      }
    }
  }

  /**
   `record_failed_auth` on its own does depend on queries: asking for the statistics of an address
   first changes the count it reports exactly when the address's block has run out unnoticed and a
   failure is still in the window. The entry points never get there, because they look first.
   */
  lemma StatsChangeRawCount(lim: Limits, r: Record, asked: Time, now: Time)
    ensures FailureCount(lim, Noticed(lim, r, asked), now) != FailureCount(lim, r, now)
       <==> Expired(lim, r, asked) && CountIn(r.failures, now - lim.failWindow, now) > 0
  {
    assert CountIn([], now - lim.failWindow, now) == 0;
  }
}
