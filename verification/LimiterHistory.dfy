/**
 What the limiter replies, stated on the operations and replies of a run alone: who is shut out and since
 when, which failures still count, and that every reply follows from them.
 */
module LimiterHistory {
  import opened Wrappers
  import opened Windows
  import opened RateLimit
  import opened Auth
  import opened LimiterRuns

  // ---- The history of one address ----

  /** The request comes from this address. */
  predicate From(op: Op, ip: string) {
    match op
    case Visit(from) => from == ip
    case TenantCall(request, _) => request.ip == ip
    case AdminCall(request, _) => request.ip == ip
    case _ => false
  }

  predicate Fails(op: Op, reply: Reply, ip: string) {
    From(op, ip) && reply.Auth? && (reply.outcome.KeyRequired? || reply.outcome.KeyInvalid?)
  }

  /** A success or an administrator wipes the failures of the address. */
  predicate Pardons(op: Op, reply: Reply, ip: string) {
    (From(op, ip) && reply.Auth? && reply.outcome.Accepted?) || op == Forgive(None) || op == Forgive(Some(ip))
  }

  /** The step blocks the address: by order, for too many requests, or as one failure too many. */
  predicate Punishes(lim: Limits, strikes: seq<Time>, step: Timed, reply: Reply, ip: string) {
    || (step.op.Ban? && step.op.ip == ip)
    || (From(step.op, ip) && (reply == Rate(OverMinute) || reply == Rate(OverHour)))
    || (Fails(step.op, reply, ip)
          && CountIn(strikes, step.at - lim.failWindow, step.at) + 1 >= lim.maxFailed)
  }

  /** The failures since the last success, pardon or block. */
  function Strikes(lim: Limits, ops: seq<Timed>, replies: seq<Reply>, ip: string): seq<Time>
    requires |ops| == |replies|
  {
    if ops == [] then []
    else
      var n := |ops| - 1;
      var before := Strikes(lim, ops[..n], replies[..n], ip);
      if Pardons(ops[n].op, replies[n], ip) || Punishes(lim, before, ops[n], replies[n], ip) then []
      else if Fails(ops[n].op, replies[n], ip) then before + [ops[n].at]
      else before
  }

  /** When the address was last blocked, unless it was unblocked since. */
  function LastBlock(lim: Limits, ops: seq<Timed>, replies: seq<Reply>, ip: string): Option<Time>
    requires |ops| == |replies|
  {
    if ops == [] then None
    else
      var n := |ops| - 1;
      if Punishes(lim, Strikes(lim, ops[..n], replies[..n], ip), ops[n], replies[n], ip) then Some(ops[n].at)
      else if ops[n].op == Unban(ip) then None
      else LastBlock(lim, ops[..n], replies[..n], ip)
  }

  predicate ShutOut(lim: Limits, ops: seq<Timed>, replies: seq<Reply>, ip: string, now: Time)
    requires |ops| == |replies|
  {
    var since := LastBlock(lim, ops, replies, ip);
    since.Some? && now - since.value <= lim.blockSeconds
  }

  // ---- The bookkeeper's records follow it ----

  ghost predicate Lapsed(lim: Limits, since: Option<Time>, clock: Time) {
    since.Some? ==> clock - since.value > lim.blockSeconds
  }

  function BlockedAt(r: Record): Option<Time> {
    if r.block.Some? then Some(r.block.value.at) else None
  }

  /** The record's block is the last one, or neither is in force any more; its failures are the strikes. */
  ghost predicate Follows(lim: Limits, r: Record, strikes: seq<Time>, since: Option<Time>, clock: Time) {
    && (BlockedAt(r) == since || (Lapsed(lim, BlockedAt(r), clock) && Lapsed(lim, since, clock)))
    && (if r.block.Some? then strikes == [] else r.failures == strikes)
  }

  function StrikesAfter(lim: Limits, strikes: seq<Time>, step: Timed, reply: Reply, ip: string): seq<Time> {
    if Pardons(step.op, reply, ip) || Punishes(lim, strikes, step, reply, ip) then []
    else if Fails(step.op, reply, ip) then strikes + [step.at]
    else strikes
  }

  function BlockAfter(lim: Limits, strikes: seq<Time>, since: Option<Time>, step: Timed, reply: Reply, ip: string)
    : Option<Time>
  {
    if Punishes(lim, strikes, step, reply, ip) then Some(step.at) else if step.op == Unban(ip) then None else since
  }

  /** The reply to a request, from whether its address is shut out and from its admissions and strikes. */
  ghost predicate Expected(lim: Limits, step: Timed, reply: Reply, out: bool, admitted: seq<Time>, strikes: seq<Time>) {
    var now := step.at;
    var count := CountIn(strikes, now - lim.failWindow, now) + 1;
    match step.op
    case Visit(_) =>
      reply == Rate(if out then Barred
                    else if CountIn(admitted, now - 60.0, now) >= lim.perMinute then OverMinute
                    else if CountIn(admitted, now - 3600.0, now) >= lim.perHour then OverHour
                    else Admitted)
    case TenantCall(request, keys) =>
      reply == Auth(if out then TooManyRequests
                    else match PresentedKey(request)
                         case None => KeyRequired
                         case Some(key) =>
                           if key in keys then Accepted(key) else KeyInvalid(count, count >= lim.maxFailed))
    case AdminCall(request, adminKey) =>
      reply == Auth(if out then TooManyRequests
                    else match PresentedKey(request)
                         case None => KeyRequired
                         case Some(key) =>
                           if adminKey == "" then NotConfigured
                           else if !Ascii(key) || !Ascii(adminKey) then ServerError
                           else if key == adminKey then Accepted(key)
                           else KeyInvalid(count, count >= lim.maxFailed))
    case _ => reply == Silent
  }

  /** The address a request comes from; "" for anything else. */
  function Sender(op: Op): string {
    match op
    case Visit(ip) => ip
    case TenantCall(request, _) => request.ip
    case AdminCall(request, _) => request.ip
    case _ => ""
  }

  lemma ReplyFollows(lim: Limits, book: Records, step: Timed, strikes: seq<Time>, since: Option<Time>, clock: Time)
    requires Follows(lim, RecordOf(book, Sender(step.op)), strikes, since, clock) && clock <= step.at
    ensures
      var r := RecordOf(book, Sender(step.op));
      var out := since.Some? && step.at - since.value <= lim.blockSeconds;
      Expected(lim, step, Reply1(lim, book, step), out, r.admitted, strikes)
  {
    hide CountIn, Ascii, PresentedKey;
  }

  lemma StepFollows(lim: Limits, book: Records, step: Timed, strikes: seq<Time>, since: Option<Time>, clock: Time,
                    ip: string)
    requires Follows(lim, RecordOf(book, ip), strikes, since, clock) && clock <= step.at
    ensures
      var reply := Reply1(lim, book, step);
      Follows(lim, RecordOf(Book1(lim, book, step), ip), StrikesAfter(lim, strikes, step, reply, ip),
              BlockAfter(lim, strikes, since, step, reply, ip), step.at)
  {
    hide CountIn, Ascii, PresentedKey, Follows, StrikesAfter, BlockAfter;
    FollowsLater(lim, RecordOf(book, ip), strikes, since, clock, step.at);
    if From(step.op, ip) && step.op.Visit? {
      VisitFollows(lim, book, step, strikes, since, ip);
    } else if From(step.op, ip) {
      var check := if step.op.TenantCall? then TenantCheck(step.op.request, step.op.keys)
                   else AdminCheck(step.op.request, step.op.adminKey);
      AuthFollows(lim, RecordOf(book, ip), step, check, strikes, since, ip);
    } else {
      OrderFollows(lim, book, step, strikes, since, ip);
    }
  }

  lemma FollowsLater(lim: Limits, r: Record, strikes: seq<Time>, since: Option<Time>, clock: Time, now: Time)
    requires Follows(lim, r, strikes, since, clock) && clock <= now
    ensures Follows(lim, r, strikes, since, now)
  {
  }

  lemma VisitFollows(lim: Limits, book: Records, step: Timed, strikes: seq<Time>, since: Option<Time>, ip: string)
    requires Follows(lim, RecordOf(book, ip), strikes, since, step.at) && step.op == Visit(ip)
    ensures
      var reply := Reply1(lim, book, step);
      Follows(lim, RecordOf(Book1(lim, book, step), ip), StrikesAfter(lim, strikes, step, reply, ip),
              BlockAfter(lim, strikes, since, step, reply, ip), step.at)
  {
    hide CountIn;
  }

  lemma AuthFollows(lim: Limits, r: Record, step: Timed, check: Check, strikes: seq<Time>, since: Option<Time>,
                    ip: string)
    requires Follows(lim, r, strikes, since, step.at) && From(step.op, ip) && !step.op.Visit?
    ensures
      var reply := Auth(AuthOutcome(lim, r, check, step.at));
      Follows(lim, AuthRecord(lim, r, check, step.at), StrikesAfter(lim, strikes, step, reply, ip),
              BlockAfter(lim, strikes, since, step, reply, ip), step.at)
  {
    hide CountIn;
  }

  /** Orders, queries and requests from elsewhere. */
  lemma OrderFollows(lim: Limits, book: Records, step: Timed, strikes: seq<Time>, since: Option<Time>, ip: string)
    requires Follows(lim, RecordOf(book, ip), strikes, since, step.at) && !From(step.op, ip)
    ensures
      var reply := Reply1(lim, book, step);
      Follows(lim, RecordOf(Book1(lim, book, step), ip), StrikesAfter(lim, strikes, step, reply, ip),
              BlockAfter(lim, strikes, since, step, reply, ip), step.at)
  {
    hide CountIn, Judge, Sentenced, AuthOutcome, AuthRecord, TenantCheck, AdminCheck;
  }

  lemma HistoryGrows(lim: Limits, ops: seq<Timed>, ip: string)
    requires ops != []
    ensures
      var n, replies := |ops| - 1, Replies(lim, ops);
      var before := Strikes(lim, ops[..n], Replies(lim, ops[..n]), ip);
      && replies[..n] == Replies(lim, ops[..n])
      && replies[n] == Reply1(lim, BookAfter(lim, ops[..n]), ops[n])
      && Strikes(lim, ops, replies, ip) == StrikesAfter(lim, before, ops[n], replies[n], ip)
      && LastBlock(lim, ops, replies, ip)
           == BlockAfter(lim, before, LastBlock(lim, ops[..n], Replies(lim, ops[..n]), ip), ops[n], replies[n], ip)
  {
    hide CountIn, Pardons, Punishes, Fails, Reply1, BookAfter;
  }

  lemma {:induction false} AlwaysFollows(lim: Limits, ops: seq<Timed>, ip: string)
    requires InOrder(ops)
    ensures
      var replies := Replies(lim, ops);
      Follows(lim, RecordOf(BookAfter(lim, ops), ip), Strikes(lim, ops, replies, ip), LastBlock(lim, ops, replies, ip),
              if ops == [] then 0.0 else ops[|ops| - 1].at)
  {
    hide Replies, Follows, StrikesAfter, BlockAfter, Book1, Reply1;
    if ops == [] {
      FollowsAtStart(lim, ip);
    } else {
      var n := |ops| - 1;
      AlwaysFollows(lim, ops[..n], ip);
      HistoryGrows(lim, ops, ip);
      var said := Replies(lim, ops[..n]);
      var strikes, since := Strikes(lim, ops[..n], said, ip), LastBlock(lim, ops[..n], said, ip);
      if n == 0 {
        FollowsAtStart(lim, ip);
        StepFollows(lim, map[], ops[n], [], None, ops[n].at, ip);
      } else {
        StepFollows(lim, BookAfter(lim, ops[..n]), ops[n], strikes, since, ops[n - 1].at, ip);
      }
    }
  }

  lemma FollowsAtStart(lim: Limits, ip: string)
    ensures forall clock: Time :: Follows(lim, RecordOf(map[], ip), [], None, clock)
  {
  }

  // ---- Every reply ----

  /**
   In every chronological run each reply is the one that follows from what was done and replied before:
   from the last block of the sender, its admissions and its strikes.
   */
  lemma RepliesAreExact(lim: Limits, ops: seq<Timed>, i: nat)
    requires InOrder(ops) && i < |ops|
    ensures
      var past, said, ip := ops[..i], Replies(lim, ops)[..i], Sender(ops[i].op);
      Expected(lim, ops[i], Replies(lim, ops)[i], ShutOut(lim, past, said, ip, ops[i].at),
               AdmittedTimes(lim, past, ip), Strikes(lim, past, said, ip))
  {
    hide Replies, Follows, Expected, Book1, Reply1, Strikes, LastBlock;
    var past, ip := ops[..i], Sender(ops[i].op);
    ReplyAt(lim, ops, i);
    AlwaysFollows(lim, past, ip);
    BookIsComplete(lim, past, ip);
    var said := Replies(lim, past);
    var strikes, since := Strikes(lim, past, said, ip), LastBlock(lim, past, said, ip);
    if i == 0 {
      HistoryStarts(lim, ip);
      FollowsAtStart(lim, ip);
      ReplyFollows(lim, map[], ops[i], [], None, ops[i].at);
    } else {
      ReplyFollows(lim, BookAfter(lim, past), ops[i], strikes, since, past[i - 1].at);
    }
  }

  lemma HistoryStarts(lim: Limits, ip: string)
    ensures Strikes(lim, [], [], ip) == [] && LastBlock(lim, [], [], ip) == None && Replies(lim, []) == []
  {
  }

  lemma {:induction false} ReplyAt(lim: Limits, ops: seq<Timed>, i: nat)
    requires i < |ops|
    ensures Replies(lim, ops)[..i] == Replies(lim, ops[..i])
    ensures Replies(lim, ops)[i] == Reply1(lim, BookAfter(lim, ops[..i]), ops[i])
  {
    hide Reply1, BookAfter;
    var n := |ops| - 1;
    if i < n {
      ReplyAt(lim, ops[..n], i);
      assert ops[..n][..i] == ops[..i];
      assert Replies(lim, ops)[..i] == Replies(lim, ops[..n])[..i];
    }
  }

  // ---- What follows for an address ----

  /** Step `i` of the run blocks the address. */
  predicate PunishedAt(lim: Limits, ops: seq<Timed>, i: nat, ip: string)
    requires i < |ops|
  {
    Punishes(lim, Strikes(lim, ops[..i], Replies(lim, ops)[..i], ip), ops[i], Replies(lim, ops)[i], ip)
  }

  lemma {:induction false} BlockLasts(lim: Limits, ops: seq<Timed>, i: nat, j: nat, ip: string)
    requires InOrder(ops) && i < j <= |ops| && PunishedAt(lim, ops, i, ip)
    requires forall k :: i < k < j ==> ops[k].op != Unban(ip)
    ensures
      var since := LastBlock(lim, ops[..j], Replies(lim, ops)[..j], ip);
      since.Some? && ops[i].at <= since.value
  {
    hide Replies, Punishes, Strikes;
    assert ops[..j][..j - 1] == ops[..j - 1];
    assert Replies(lim, ops)[..j][..j - 1] == Replies(lim, ops)[..j - 1];
    if i < j - 1 {
      BlockLasts(lim, ops, i, j - 1, ip);
    }
  }

  /** An address, once blocked, is refused at both doors until the block runs out or is lifted. */
  lemma PunishedIsShutOut(lim: Limits, ops: seq<Timed>, i: nat, j: nat, ip: string)
    requires InOrder(ops) && i < j < |ops| && PunishedAt(lim, ops, i, ip)
    requires forall k :: i < k < j ==> ops[k].op != Unban(ip)
    requires From(ops[j].op, ip) && ops[j].at - ops[i].at <= lim.blockSeconds
    ensures Replies(lim, ops)[j] == if ops[j].op.Visit? then Rate(Barred) else Auth(TooManyRequests)
  {
    hide Replies, Strikes, LastBlock, PunishedAt, CountIn;
    BlockLasts(lim, ops, i, j, ip);
    RepliesAreExact(lim, ops, j);
  }

  /**
   On the operations and replies alone: after a reply that an address is over a limit, or that it is now
   blocked, every request from it is refused for the length of the block, unless it is unblocked.
   */
  lemma RefusalBlocks(lim: Limits, ops: seq<Timed>, i: nat, j: nat, ip: string)
    requires InOrder(ops) && i < j < |ops| && From(ops[i].op, ip) && From(ops[j].op, ip)
    requires
      var reply := Replies(lim, ops)[i];
      || reply == Rate(OverMinute) || reply == Rate(OverHour)
      || (reply.Auth? && reply.outcome.KeyInvalid? && reply.outcome.blocked)
    requires forall k :: i < k < j ==> ops[k].op != Unban(ip)
    requires ops[j].at - ops[i].at <= lim.blockSeconds
    ensures Replies(lim, ops)[j] == if ops[j].op.Visit? then Rate(Barred) else Auth(TooManyRequests)
  {
    hide Replies, Strikes, LastBlock, CountIn;
    RepliesAreExact(lim, ops, i);
    PunishedIsShutOut(lim, ops, i, j, ip);
  }

  /** And nobody else is refused: behind a refusal there is such a step, with no unblocking since. */
  lemma RefusedForAReason(lim: Limits, ops: seq<Timed>, j: nat, ip: string) returns (i: nat)
    requires InOrder(ops) && j < |ops| && From(ops[j].op, ip)
    requires Replies(lim, ops)[j] == Rate(Barred) || Replies(lim, ops)[j] == Auth(TooManyRequests)
    ensures i < j && PunishedAt(lim, ops, i, ip) && ops[j].at - ops[i].at <= lim.blockSeconds
    ensures forall k :: i < k < j ==> ops[k].op != Unban(ip)
  {
    hide Replies, Strikes, LastBlock, PunishedAt, CountIn;
    RepliesAreExact(lim, ops, j);
    i := BlockOrigin(lim, ops, j, ip);
  }

  lemma {:induction false} BlockOrigin(lim: Limits, ops: seq<Timed>, j: nat, ip: string) returns (i: nat)
    requires j <= |ops| && LastBlock(lim, ops[..j], Replies(lim, ops)[..j], ip).Some?
    ensures i < j && PunishedAt(lim, ops, i, ip)
    ensures LastBlock(lim, ops[..j], Replies(lim, ops)[..j], ip) == Some(ops[i].at)
    ensures forall k :: i < k < j ==> ops[k].op != Unban(ip)
  {
    hide Replies, Punishes, Strikes;
    assert ops[..j][..j - 1] == ops[..j - 1];
    assert Replies(lim, ops)[..j][..j - 1] == Replies(lim, ops)[..j - 1];
    if PunishedAt(lim, ops, j - 1, ip) {
      i := j - 1;
    } else {
      i := BlockOrigin(lim, ops, j - 1, ip);
    }
  }

  // ---- Enough failures ----

  /** The failed calls of an address among the steps from `i` up to `j` that lie in a window. */
  function FailedCalls(lim: Limits, ops: seq<Timed>, i: nat, j: nat, ip: string, lo: Time, hi: Time): set<nat>
    requires j <= |ops|
  {
    set k: nat | i <= k < j && Fails(ops[k].op, Replies(lim, ops)[k], ip) && lo < ops[k].at <= hi
  }

  lemma FailedCallsGrow(lim: Limits, ops: seq<Timed>, i: nat, j: nat, ip: string, lo: Time, hi: Time)
    requires i <= j < |ops|
    ensures
      var now := Fails(ops[j].op, Replies(lim, ops)[j], ip) && lo < ops[j].at <= hi;
      |FailedCalls(lim, ops, i, j + 1, ip, lo, hi)|
      == |FailedCalls(lim, ops, i, j, ip, lo, hi)| + if now then 1 else 0
  {
    hide Replies, Fails;
    var before := FailedCalls(lim, ops, i, j, ip, lo, hi);
    if Fails(ops[j].op, Replies(lim, ops)[j], ip) && lo < ops[j].at <= hi {
      assert FailedCalls(lim, ops, i, j + 1, ip, lo, hi) == before + {j};
    } else {
      assert FailedCalls(lim, ops, i, j + 1, ip, lo, hi) == before;
    }
  }

  lemma StrikesGrow(lim: Limits, ops: seq<Timed>, j: nat, ip: string, lo: Time, hi: Time)
    requires j < |ops| && !Pardons(ops[j].op, Replies(lim, ops)[j], ip) && !PunishedAt(lim, ops, j, ip)
    ensures
      var replies := Replies(lim, ops);
      var now := Fails(ops[j].op, replies[j], ip) && lo < ops[j].at <= hi;
      CountIn(Strikes(lim, ops[..j + 1], replies[..j + 1], ip), lo, hi)
      == CountIn(Strikes(lim, ops[..j], replies[..j], ip), lo, hi) + if now then 1 else 0
  {
    hide Replies, Punishes, Pardons, Fails;
    var replies := Replies(lim, ops);
    assert ops[..j + 1][..j] == ops[..j] && replies[..j + 1][..j] == replies[..j];
    var strikes := Strikes(lim, ops[..j], replies[..j], ip);
    assert (strikes + [ops[j].at])[..|strikes|] == strikes;
  }

  lemma {:induction false} StrikesCount(lim: Limits, ops: seq<Timed>, i: nat, j: nat, ip: string, lo: Time, hi: Time)
    requires i <= j <= |ops|
    requires forall k :: i <= k < j ==>
               !Pardons(ops[k].op, Replies(lim, ops)[k], ip) && !PunishedAt(lim, ops, k, ip)
    ensures |FailedCalls(lim, ops, i, j, ip, lo, hi)|
         <= CountIn(Strikes(lim, ops[..j], Replies(lim, ops)[..j], ip), lo, hi)
  {
    hide Replies, PunishedAt, Pardons, Fails, CountIn, Strikes;
    if i == j {
      assert FailedCalls(lim, ops, i, j, ip, lo, hi) == {};
    } else {
      StrikesCount(lim, ops, i, j - 1, ip, lo, hi);
      FailedCallsGrow(lim, ops, i, j - 1, ip, lo, hi);
      StrikesGrow(lim, ops, j - 1, ip, lo, hi);
    }
  }

  /**
   As many failed calls of an address in the window as the maximum, the last at step `j`, with no success,
   pardon or block between: every request after it is refused for the length of the block.
   */
  lemma EnoughFailuresBlock(lim: Limits, ops: seq<Timed>, i: nat, j: nat, m: nat, ip: string)
    requires InOrder(ops) && i <= j < m < |ops| && Fails(ops[j].op, Replies(lim, ops)[j], ip)
    requires |FailedCalls(lim, ops, i, j + 1, ip, ops[j].at - lim.failWindow, ops[j].at)| >= lim.maxFailed
    requires forall k :: i <= k < j ==>
               !Pardons(ops[k].op, Replies(lim, ops)[k], ip) && !PunishedAt(lim, ops, k, ip)
    requires forall k :: j < k < m ==> ops[k].op != Unban(ip)
    requires From(ops[m].op, ip) && ops[m].at - ops[j].at <= lim.blockSeconds
    ensures Replies(lim, ops)[m] == if ops[m].op.Visit? then Rate(Barred) else Auth(TooManyRequests)
  {
    hide Replies, Strikes, CountIn, Pardons, Fails, From, FailedCalls, LastBlock;
    var lo, hi := ops[j].at - lim.failWindow, ops[j].at;
    StrikesCount(lim, ops, i, j, ip, lo, hi);
    FailedCallsGrow(lim, ops, i, j, ip, lo, hi);
    PunishedIsShutOut(lim, ops, j, m, ip);
  }
}
