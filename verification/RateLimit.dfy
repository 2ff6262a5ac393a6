/**
 The request limiter of src/middleware/ratelimit.py. Its pruned deques, its block table with lazy
 expiry and its periodic sweep are proved to be a view of `records`, ghost state in which no
 admission is ever dropped; every answer is stated on the records.
 */
module RateLimit {
  import opened Wrappers
  import opened Windows

  const MINUTE: Time := 60.0
  const HOUR: Time := 3600.0
  const CLEANUP_INTERVAL := 100
  const CLEANUP_CUTOFF: Time := 3600.0

  datatype Limits = Limits(
    perMinute: int,
    perHour: int,
    blockSeconds: Time,
    maxFailed: int,
    failWindow: Time)

  datatype Reason = MinuteLimit | HourlyLimit | FailedAuth(count: nat) | Given(text: string)

  datatype BlockInfo = BlockInfo(at: Time, reason: Reason)

  datatype Answer = Admitted | Barred | OverMinute | OverHour

  // ---- The unpruned history of one address ----

  /**
   Every admission ever made, the block nobody has lifted or seen to have lapsed, and every
   failure since the failures were last wiped.
   */
  datatype Record = Record(admitted: seq<Time>, block: Option<BlockInfo>, failures: seq<Time>)

  const BLANK := Record([], None, [])

  type Records = map<string, Record>

  function RecordOf(records: Records, ip: string): Record {
    if ip in records then records[ip] else BLANK
  }

  predicate Expired(lim: Limits, r: Record, now: Time) {
    r.block.Some? && now - r.block.value.at > lim.blockSeconds
  }

  predicate Blocked(lim: Limits, r: Record, now: Time) {
    r.block.Some? && now - r.block.value.at <= lim.blockSeconds
  }

  /** Looking an address up wipes a block that has run out, and the failures with it. */
  function Noticed(lim: Limits, r: Record, now: Time): Record {
    if Expired(lim, r, now) then r.(block := None, failures := []) else r
  }

  /** The verdict on a request, counted over every admission ever made. */
  function Judge(lim: Limits, r: Record, now: Time): Answer {
    if Blocked(lim, r, now) then Barred
    else if CountIn(r.admitted, now - MINUTE, now) >= lim.perMinute then OverMinute
    else if CountIn(r.admitted, now - HOUR, now) >= lim.perHour then OverHour
    else Admitted
  }

  function Sentenced(r: Record, answer: Answer, now: Time): Record {
    match answer
    case Barred => r
    case OverMinute => r.(block := Some(BlockInfo(now, MinuteLimit)))
    case OverHour => r.(block := Some(BlockInfo(now, HourlyLimit)))
    case Admitted => r.(admitted := r.admitted + [now])
  }

  /** The number of failures reported when one more is recorded. */
  function FailureCount(lim: Limits, r: Record, now: Time): nat {
    CountIn(r.failures, now - lim.failWindow, now) + 1
  }

  function Failed(lim: Limits, r: Record, now: Time): Record {
    var count := FailureCount(lim, r, now);
    r.(failures := r.failures + [now],
       block := if count >= lim.maxFailed then Some(BlockInfo(now, FailedAuth(count))) else r.block)
  }

  // ---- The tables and their relation to the records ----

  datatype Tables = Tables(
    minute: map<string, seq<Time>>,
    hour: map<string, seq<Time>>,
    failed: map<string, seq<Time>>,
    blocked: map<string, BlockInfo>)

  ghost predicate Chronological(ts: seq<Time>, clock: Time) {
    Sorted(ts) && NoneAfter(ts, clock)
  }

  ghost predicate AdmissionsTracked(minute: seq<Time>, hour: seq<Time>, admitted: seq<Time>, clock: Time) {
    && Chronological(admitted, clock)
    && IsTail(minute, admitted, clock - MINUTE)
    && IsTail(hour, admitted, clock - HOUR)
  }

  ghost predicate FailuresTracked(lim: Limits, failed: seq<Time>, failures: seq<Time>, clock: Time) {
    && Chronological(failures, clock)
    && IsTail(failed, failures, clock - lim.failWindow)
  }

  /** An address without a block entry has not used up its failures. */
  ghost predicate LockoutHolds(lim: Limits, failed: seq<Time>, block: Option<BlockInfo>) {
    1 <= lim.maxFailed && block.None? ==> |failed| < lim.maxFailed
  }

  ghost predicate Tracks(lim: Limits, t: Tables, r: Record, clock: Time, ip: string) {
    && AdmissionsTracked(Of(t.minute, ip), Of(t.hour, ip), r.admitted, clock)
    && FailuresTracked(lim, Of(t.failed, ip), r.failures, clock)
    && Lookup(t.blocked, ip) == r.block
    && (r.block.Some? ==> r.block.value.at <= clock)
    && LockoutHolds(lim, Of(t.failed, ip), r.block)
  }

  ghost predicate Coherent(lim: Limits, t: Tables, records: Records, clock: Time) {
    forall ip: string :: Tracks(lim, t, RecordOf(records, ip), clock, ip)
  }

  ghost predicate SameAt(t: Tables, t': Tables, ip: string) {
    && Of(t.minute, ip) == Of(t'.minute, ip)
    && Of(t.hour, ip) == Of(t'.hour, ip)
    && Of(t.failed, ip) == Of(t'.failed, ip)
    && Lookup(t.blocked, ip) == Lookup(t'.blocked, ip)
  }

  lemma Aged(lim: Limits, t: Tables, r: Record, clock: Time, now: Time, ip: string)
    requires Tracks(lim, t, r, clock, ip) && clock <= now
    ensures Tracks(lim, t, r, now, ip)
  {
  }

  lemma Unseen(lim: Limits, t: Tables, t': Tables, r: Record, clock: Time, ip: string)
    requires Tracks(lim, t, r, clock, ip) && SameAt(t, t', ip)
    ensures Tracks(lim, t', r, clock, ip)
  {
  }

  /** A step that concerns one address only has to be checked there. */
  lemma OneAddress(lim: Limits, t: Tables, t': Tables, records: Records, r: Record,
                   clock: Time, now: Time, ip: string)
    requires Coherent(lim, t, records, clock) && clock <= now
    requires forall other: string {:trigger SameAt(t, t', other)} :: other != ip ==> SameAt(t, t', other)
    requires Tracks(lim, t', r, now, ip)
    ensures Coherent(lim, t', records[ip := r], now)
  {
    var records' := records[ip := r];
    forall other: string
      ensures Tracks(lim, t', RecordOf(records', other), now, other)
    {
      if other != ip {
        Aged(lim, t, RecordOf(records, other), clock, now, other);
        assert SameAt(t, t', other);
        Unseen(lim, t, t', RecordOf(records, other), now, other);
      }
    }
  }

  // ---- One lemma per kind of update ----

  lemma AdvanceAll(lim: Limits, t: Tables, records: Records, clock: Time, now: Time)
    requires Coherent(lim, t, records, clock) && clock <= now
    ensures Coherent(lim, t, records, now)
  {
    forall ip: string
      ensures Tracks(lim, t, RecordOf(records, ip), now, ip)
    {
      Aged(lim, t, RecordOf(records, ip), clock, now, ip);
    }
  }

  lemma BlockEntry(lim: Limits, t: Tables, records: Records, clock: Time, ip: string)
    requires Coherent(lim, t, records, clock)
    ensures Lookup(t.blocked, ip) == RecordOf(records, ip).block
  {
    assert Tracks(lim, t, RecordOf(records, ip), clock, ip);
  }

  lemma Tracked(lim: Limits, t: Tables, records: Records, clock: Time, now: Time, ip: string)
    requires Coherent(lim, t, records, clock) && clock <= now
    ensures AdmissionsTracked(Of(t.minute, ip), Of(t.hour, ip), RecordOf(records, ip).admitted, now)
    ensures FailuresTracked(lim, Of(t.failed, ip), RecordOf(records, ip).failures, now)
  {
    Aged(lim, t, RecordOf(records, ip), clock, now, ip);
  }

  lemma BlockTable(lim: Limits, t: Tables, records: Records, clock: Time)
    requires Coherent(lim, t, records, clock)
    ensures t.blocked.Keys == set ip | ip in records && records[ip].block.Some?
    ensures forall ip :: ip in t.blocked ==> records[ip].block == Some(t.blocked[ip]) && t.blocked[ip].at <= clock
  {
    forall ip: string
      ensures ip in t.blocked <==> ip in records && records[ip].block.Some?
      ensures ip in t.blocked ==> records[ip].block == Some(t.blocked[ip]) && t.blocked[ip].at <= clock
    {
      assert Tracks(lim, t, RecordOf(records, ip), clock, ip);
    }
  }

  /** No block entry means the failures are not used up. */
  lemma LockoutBound(lim: Limits, t: Tables, records: Records, clock: Time, ip: string)
    requires Coherent(lim, t, records, clock) && 1 <= lim.maxFailed && ip !in t.blocked
    ensures |Of(t.failed, ip)| < lim.maxFailed
  {
    assert Tracks(lim, t, RecordOf(records, ip), clock, ip);
  }

  lemma Looked(lim: Limits, t: Tables, records: Records, clock: Time, now: Time, ip: string)
    requires Coherent(lim, t, records, clock) && clock <= now
    ensures Coherent(lim, t, records[ip := RecordOf(records, ip)], now)
  {
    Aged(lim, t, RecordOf(records, ip), clock, now, ip);
    OneAddress(lim, t, t, records, RecordOf(records, ip), clock, now, ip);
  }

  lemma Pardoned(lim: Limits, t: Tables, records: Records, clock: Time, now: Time, ip: string)
    requires Coherent(lim, t, records, clock) && clock <= now
    ensures Coherent(lim, t.(failed := t.failed - {ip}, blocked := t.blocked - {ip}),
                     records[ip := RecordOf(records, ip).(block := None, failures := [])], now)
  {
    var r := RecordOf(records, ip);
    Aged(lim, t, r, clock, now, ip);
    OneAddress(lim, t, t.(failed := t.failed - {ip}, blocked := t.blocked - {ip}), records,
               r.(block := None, failures := []), clock, now, ip);
  }

  lemma Punished(lim: Limits, t: Tables, records: Records, clock: Time, now: Time, ip: string, reason: Reason)
    requires Coherent(lim, t, records, clock) && clock <= now
    ensures Coherent(lim, t.(blocked := t.blocked[ip := BlockInfo(now, reason)]),
                     records[ip := RecordOf(records, ip).(block := Some(BlockInfo(now, reason)))], now)
  {
    var r := RecordOf(records, ip);
    Aged(lim, t, r, clock, now, ip);
    OneAddress(lim, t, t.(blocked := t.blocked[ip := BlockInfo(now, reason)]), records,
               r.(block := Some(BlockInfo(now, reason))), clock, now, ip);
  }

  lemma PrunedTracked(lim: Limits, kept: seq<Time>, full: seq<Time>, now: Time, dropped: nat)
    requires FailuresTracked(lim, kept, full, now)
    requires dropped <= |kept| && forall i :: 0 <= i < dropped ==> kept[i] <= now - lim.failWindow
    requires dropped < |kept| ==> now - lim.failWindow < kept[dropped]
    ensures FailuresTracked(lim, kept[dropped..], full, now)
    ensures |kept| - dropped == CountIn(full, now - lim.failWindow, now)
  {
    TailPruned(kept, full, now - lim.failWindow, now, dropped);
  }

  lemma AppendTracked(lim: Limits, kept: seq<Time>, full: seq<Time>, now: Time)
    requires FailuresTracked(lim, kept, full, now)
    ensures FailuresTracked(lim, kept + [now], full + [now], now)
  {
    TailAppend(kept, full, now - lim.failWindow, now);
  }

  /** What the popping loop found is what the record counts, and storing it keeps the relation. */
  lemma FailuresPruned(lim: Limits, t: Tables, records: Records, clock: Time, now: Time, ip: string, dropped: nat)
    requires Coherent(lim, t, records, clock) && clock <= now
    requires dropped <= |Of(t.failed, ip)|
    requires forall i :: 0 <= i < dropped ==> Of(t.failed, ip)[i] <= now - lim.failWindow
    requires dropped < |Of(t.failed, ip)| ==> now - lim.failWindow < Of(t.failed, ip)[dropped]
    ensures Coherent(lim, t.(failed := t.failed[ip := Of(t.failed, ip)[dropped..]]), records, now)
    ensures |Of(t.failed, ip)| - dropped == CountIn(RecordOf(records, ip).failures, now - lim.failWindow, now)
  {
    hide CountIn, Coherent, FailuresTracked;
    Tracked(lim, t, records, clock, now, ip);
    PrunedTracked(lim, Of(t.failed, ip), RecordOf(records, ip).failures, now, dropped);
    FailuresStored(lim, t, records, clock, now, ip, Of(t.failed, ip)[dropped..]);
  }

  /** A shorter failure deque that still tracks the record. */
  lemma FailuresStored(lim: Limits, t: Tables, records: Records, clock: Time, now: Time, ip: string, kept: seq<Time>)
    requires Coherent(lim, t, records, clock) && clock <= now
    requires |kept| <= |Of(t.failed, ip)| && FailuresTracked(lim, kept, RecordOf(records, ip).failures, now)
    ensures Coherent(lim, t.(failed := t.failed[ip := kept]), records, now)
  {
    hide FailuresTracked, AdmissionsTracked, CountIn;
    var r := RecordOf(records, ip);
    var t' := t.(failed := t.failed[ip := kept]);
    Aged(lim, t, r, clock, now, ip);
    assert Tracks(lim, t', r, now, ip);
    OneAddress(lim, t, t', records, r, clock, now, ip);
    SameRecords(lim, t', records, now, ip);
  }

  /** Rewriting a record with itself changes nothing. */
  lemma SameRecords(lim: Limits, t: Tables, records: Records, now: Time, ip: string)
    requires Coherent(lim, t, records[ip := RecordOf(records, ip)], now)
    ensures Coherent(lim, t, records, now)
  {
    var records' := records[ip := RecordOf(records, ip)];
    forall other: string
      ensures Tracks(lim, t, RecordOf(records, other), now, other)
    {
      assert Tracks(lim, t, RecordOf(records', other), now, other);
    }
  }

  ghost function FailingTables(lim: Limits, t: Tables, now: Time, ip: string): Tables {
    var count := |Of(t.failed, ip)| + 1;
    t.(failed := t.failed[ip := Of(t.failed, ip) + [now]],
       blocked := if count >= lim.maxFailed then t.blocked[ip := BlockInfo(now, FailedAuth(count))] else t.blocked)
  }

  /** Appending a failure to a pruned deque, and blocking when the deque is full. */
  lemma FailureAdded(lim: Limits, t: Tables, records: Records, now: Time, ip: string)
    requires Coherent(lim, t, records, now)
    requires |Of(t.failed, ip)| == CountIn(RecordOf(records, ip).failures, now - lim.failWindow, now)
    ensures Coherent(lim, FailingTables(lim, t, now, ip), records[ip := Failed(lim, RecordOf(records, ip), now)], now)
  {
    hide FailuresTracked, AdmissionsTracked;
    var r := RecordOf(records, ip);
    var t', r' := FailingTables(lim, t, now, ip), Failed(lim, r, now);
    assert Tracks(lim, t, r, now, ip);
    AppendTracked(lim, Of(t.failed, ip), r.failures, now);
    OneAddress(lim, t, t', records, r', now, now, ip);
  }

  // ---- Admissions ----

  lemma Shortened(kept: seq<Time>, full: seq<Time>, window: Time, cutoff: Time, now: Time, dropped: nat)
    requires Chronological(full, now) && IsTail(kept, full, now - window) && cutoff <= now - window
    requires dropped <= |kept| && forall i :: 0 <= i < dropped ==> kept[i] <= cutoff
    requires dropped < |kept| ==> cutoff < kept[dropped]
    ensures IsTail(kept[dropped..], full, now - window)
    ensures cutoff == now - window ==> |kept| - dropped == CountIn(full, cutoff, now)
  {
    TailDrop(kept, full, now - window, now - window, dropped);
    if cutoff == now - window {
      TailCounts(kept[dropped..], full, cutoff, now);
    }
  }

  /** New deques for one address that still track its admissions. */
  lemma Retabled(lim: Limits, t: Tables, t': Tables, records: Records, clock: Time, now: Time, ip: string)
    requires Coherent(lim, t, records, clock) && clock <= now
    requires t'.failed == t.failed && t'.blocked == t.blocked
    requires forall other: string {:trigger Of(t'.minute, other)} {:trigger Of(t'.hour, other)} :: other != ip ==>
               Of(t'.minute, other) == Of(t.minute, other) && Of(t'.hour, other) == Of(t.hour, other)
    requires AdmissionsTracked(Of(t'.minute, ip), Of(t'.hour, ip), RecordOf(records, ip).admitted, now)
    ensures Coherent(lim, t', records, now)
  {
    hide FailuresTracked, AdmissionsTracked;
    var r := RecordOf(records, ip);
    Aged(lim, t, r, clock, now, ip);
    assert Tracks(lim, t', r, now, ip);
    OneAddress(lim, t, t', records, r, clock, now, ip);
    SameRecords(lim, t', records, now, ip);
  }

  lemma MinutePruned(lim: Limits, t: Tables, records: Records, clock: Time, now: Time, ip: string, cutoff: Time,
                     dropped: nat)
    requires Coherent(lim, t, records, clock) && clock <= now && cutoff <= now - MINUTE
    requires dropped <= |Of(t.minute, ip)|
    requires forall i :: 0 <= i < dropped ==> Of(t.minute, ip)[i] <= cutoff
    requires dropped < |Of(t.minute, ip)| ==> cutoff < Of(t.minute, ip)[dropped]
    ensures Coherent(lim, t.(minute := t.minute[ip := Of(t.minute, ip)[dropped..]]), records, now)
    ensures cutoff == now - MINUTE ==>
              |Of(t.minute, ip)| - dropped == CountIn(RecordOf(records, ip).admitted, cutoff, now)
  {
    hide CountIn, IsTail, Sorted, NoneAfter, Chronological, Coherent;
    Tracked(lim, t, records, clock, now, ip);
    Shortened(Of(t.minute, ip), RecordOf(records, ip).admitted, MINUTE, cutoff, now, dropped);
    Retabled(lim, t, t.(minute := t.minute[ip := Of(t.minute, ip)[dropped..]]), records, clock, now, ip);
  }

  lemma HourPruned(lim: Limits, t: Tables, records: Records, clock: Time, now: Time, ip: string, cutoff: Time,
                   dropped: nat)
    requires Coherent(lim, t, records, clock) && clock <= now && cutoff <= now - HOUR
    requires dropped <= |Of(t.hour, ip)|
    requires forall i :: 0 <= i < dropped ==> Of(t.hour, ip)[i] <= cutoff
    requires dropped < |Of(t.hour, ip)| ==> cutoff < Of(t.hour, ip)[dropped]
    ensures Coherent(lim, t.(hour := t.hour[ip := Of(t.hour, ip)[dropped..]]), records, now)
    ensures cutoff == now - HOUR ==> |Of(t.hour, ip)| - dropped == CountIn(RecordOf(records, ip).admitted, cutoff, now)
  {
    hide CountIn, IsTail, Sorted, NoneAfter, Chronological, Coherent;
    Tracked(lim, t, records, clock, now, ip);
    Shortened(Of(t.hour, ip), RecordOf(records, ip).admitted, HOUR, cutoff, now, dropped);
    Retabled(lim, t, t.(hour := t.hour[ip := Of(t.hour, ip)[dropped..]]), records, clock, now, ip);
  }

  /** Deleting an empty deque is invisible: a missing key reads as an empty one. */
  lemma EmptiesDropped(lim: Limits, t: Tables, t': Tables, records: Records, now: Time)
    requires Coherent(lim, t, records, now)
    requires forall ip: string {:trigger SameAt(t, t', ip)} :: SameAt(t, t', ip)
    ensures Coherent(lim, t', records, now)
  {
    forall ip: string
      ensures Tracks(lim, t', RecordOf(records, ip), now, ip)
    {
      assert SameAt(t, t', ip);
      assert Tracks(lim, t, RecordOf(records, ip), now, ip);
      Unseen(lim, t, t', RecordOf(records, ip), now, ip);
    }
  }

  lemma Admitting(lim: Limits, t: Tables, records: Records, now: Time, ip: string)
    requires Coherent(lim, t, records, now)
    ensures
      var r := RecordOf(records, ip);
      Coherent(lim, t.(minute := t.minute[ip := Of(t.minute, ip) + [now]],
                       hour := t.hour[ip := Of(t.hour, ip) + [now]]),
               records[ip := r.(admitted := r.admitted + [now])], now)
  {
    hide FailuresTracked, AdmissionsTracked, CountIn;
    var r := RecordOf(records, ip);
    var r' := r.(admitted := r.admitted + [now]);
    var t' := t.(minute := t.minute[ip := Of(t.minute, ip) + [now]], hour := t.hour[ip := Of(t.hour, ip) + [now]]);
    assert Tracks(lim, t, r, now, ip);
    AdmissionAppended(Of(t.minute, ip), Of(t.hour, ip), r.admitted, now);
    assert Tracks(lim, t', r', now, ip);
    OneAddress(lim, t, t', records, r', now, now, ip);
  }

  lemma AdmissionAppended(minute: seq<Time>, hour: seq<Time>, admitted: seq<Time>, now: Time)
    requires AdmissionsTracked(minute, hour, admitted, now)
    ensures AdmissionsTracked(minute + [now], hour + [now], admitted + [now], now)
  {
    TailAppend(minute, admitted, now - MINUTE, now);
    TailAppend(hour, admitted, now - HOUR, now);
  }

  lemma FailuresCleared(lim: Limits, t: Tables, records: Records, clock: Time, now: Time, ip: string)
    requires Coherent(lim, t, records, clock) && clock <= now
    ensures Coherent(lim, t.(failed := t.failed - {ip}), records[ip := RecordOf(records, ip).(failures := [])], now)
  {
    var r := RecordOf(records, ip);
    Aged(lim, t, r, clock, now, ip);
    OneAddress(lim, t, t.(failed := t.failed - {ip}), records, r.(failures := []), clock, now, ip);
  }

  function AllCleared(records: Records): Records {
    map ip | ip in records :: records[ip].(failures := [])
  }

  lemma AllFailuresCleared(lim: Limits, t: Tables, records: Records, clock: Time, now: Time)
    requires Coherent(lim, t, records, clock) && clock <= now
    ensures Coherent(lim, t.(failed := map[]), AllCleared(records), now)
  {
    var t', records' := t.(failed := map[]), AllCleared(records);
    forall ip: string
      ensures Tracks(lim, t', RecordOf(records', ip), now, ip)
    {
      Aged(lim, t, RecordOf(records, ip), clock, now, ip);
      assert RecordOf(records', ip) == RecordOf(records, ip).(failures := []);
    }
  }

  /** An address with an empty deque has nothing in the window. */
  lemma NothingCounted(lim: Limits, t: Tables, records: Records, now: Time, ip: string)
    requires Coherent(lim, t, records, now)
    ensures Of(t.minute, ip) == [] ==> CountIn(RecordOf(records, ip).admitted, now - MINUTE, now) == 0
    ensures Of(t.hour, ip) == [] ==> CountIn(RecordOf(records, ip).admitted, now - HOUR, now) == 0
    ensures Of(t.failed, ip) == [] ==> CountIn(RecordOf(records, ip).failures, now - lim.failWindow, now) == 0
  {
    var r := RecordOf(records, ip);
    assert Tracks(lim, t, r, now, ip);
    if Of(t.minute, ip) == [] {
      TailCounts([], r.admitted, now - MINUTE, now);
    }
    if Of(t.hour, ip) == [] {
      TailCounts([], r.admitted, now - HOUR, now);
    }
    if Of(t.failed, ip) == [] {
      TailCounts([], r.failures, now - lim.failWindow, now);
    }
  }

  lemma NothingCountedAnywhere(lim: Limits, t: Tables, records: Records, now: Time)
    requires Coherent(lim, t, records, now)
    ensures ActiveSince(records, now - MINUTE, now) <= t.minute.Keys
    ensures ActiveSince(records, now - HOUR, now) <= t.hour.Keys
    ensures FailingSince(records, now - lim.failWindow, now) <= t.failed.Keys
  {
    forall ip | ip in records
      ensures ip in ActiveSince(records, now - MINUTE, now) ==> ip in t.minute
      ensures ip in ActiveSince(records, now - HOUR, now) ==> ip in t.hour
      ensures ip in FailingSince(records, now - lim.failWindow, now) ==> ip in t.failed
    {
      NothingCounted(lim, t, records, now, ip);
    }
  }

  /** The addresses admitted at least once in (since, now]. */
  function ActiveSince(records: Records, since: Time, now: Time): set<string> {
    set ip | ip in records && CountIn(records[ip].admitted, since, now) > 0
  }

  function FailingSince(records: Records, since: Time, now: Time): set<string> {
    set ip | ip in records && CountIn(records[ip].failures, since, now) > 0
  }

  lemma NoRecordNoCount(records: Records, ip: string, since: Time, now: Time)
    ensures ip !in records ==> CountIn(RecordOf(records, ip).admitted, since, now) == 0
    ensures ip !in records ==> CountIn(RecordOf(records, ip).failures, since, now) == 0
  {
  }

  datatype IpStats = IpStats(minute: nat, hour: nat, blocked: bool)

  datatype BlockedEntry = BlockedEntry(blockedAt: Time, reason: Reason, remaining: Time)

  /** No failure deque is longer than before, unless it is within the limit. */
  ghost predicate Contained(before: map<string, seq<Time>>, after: map<string, seq<Time>>, limit: int) {
    forall ip: string :: |Of(after, ip)| <= |Of(before, ip)| || |Of(after, ip)| <= limit
  }

  lemma ContainedTwice(before: map<string, seq<Time>>, middle: map<string, seq<Time>>, after: map<string, seq<Time>>,
                       limit: int)
    requires Contained(before, middle, limit)
    ensures Contained(middle, after, limit) ==> Contained(before, after, limit)
  {
    forall ip: string | Contained(middle, after, limit)
      ensures |Of(after, ip)| <= |Of(before, ip)| || |Of(after, ip)| <= limit
    {
      assert |Of(middle, ip)| <= |Of(before, ip)| || |Of(middle, ip)| <= limit;
    }
  }

  class RateLimiter {
    const limits: Limits
    var minuteRequests: map<string, seq<Time>>
    var hourRequests: map<string, seq<Time>>
    var blockedIps: map<string, BlockInfo>
    var failedAttempts: map<string, seq<Time>>
    var requestCount: nat
    ghost var records: Records
    ghost var clock: Time

    ghost function State(): Tables
      reads this
    {
      Tables(minuteRequests, hourRequests, failedAttempts, blockedIps)
    }

    ghost predicate Valid()
      reads this
    {
      Coherent(limits, State(), records, clock)
    }

    ghost function Known(ip: string): Record
      reads this
    {
      RecordOf(records, ip)
    }

    constructor (limits: Limits, ghost start: Time)
      ensures Valid() && this.limits == limits
      ensures records == map[] && clock == start && failedAttempts == map[]
    {
      this.limits := limits;
      minuteRequests, hourRequests, blockedIps, failedAttempts := map[], map[], map[], map[];
      requestCount := 0;
      records, clock := map[], start;
      new;
      forall ip: string
        ensures Tracks(limits, State(), RecordOf(records, ip), clock, ip)
      {
      }
    }

    method IsBlocked(ip: string, now: Time) returns (blocked: bool)
      requires Valid() && clock <= now
      modifies this`blockedIps, this`failedAttempts, this`records, this`clock
      ensures Valid() && clock == now
      ensures blocked == Blocked(limits, old(Known(ip)), now)
      ensures records == old(records)[ip := Noticed(limits, old(Known(ip)), now)]
      ensures !blocked ==> ip !in blockedIps
      ensures Contained(old(failedAttempts), failedAttempts, limits.maxFailed)
    {
      hide Coherent;
      blocked := false;
      BlockEntry(limits, State(), records, clock, ip);
      Looked(limits, State(), records, clock, now, ip);
      ghost var after := State();
      if ip in blockedIps {
        if now - blockedIps[ip].at > limits.blockSeconds {
          Pardoned(limits, State(), records, clock, now, ip);
          after := State().(failed := failedAttempts - {ip}, blocked := blockedIps - {ip});
          blockedIps := blockedIps - {ip};
          failedAttempts := failedAttempts - {ip};
        } else {
          blocked := true;
        }
      }
      records, clock := records[ip := Noticed(limits, Known(ip), now)], now;
      assert State() == after;
    }

    method BlockIp(ip: string, reason: Reason, now: Time)
      requires Valid() && clock <= now
      modifies this`blockedIps, this`records, this`clock
      ensures Valid() && clock == now
      ensures blockedIps == old(blockedIps)[ip := BlockInfo(now, reason)]
      ensures records == old(records)[ip := old(Known(ip)).(block := Some(BlockInfo(now, reason)))]
    {
      hide Coherent;
      Punished(limits, State(), records, clock, now, ip, reason);
      ghost var after := State().(blocked := blockedIps[ip := BlockInfo(now, reason)]);
      blockedIps := blockedIps[ip := BlockInfo(now, reason)];
      records, clock := records[ip := Known(ip).(block := Some(BlockInfo(now, reason)))], now;
      assert State() == after;
    }

    method UnblockIp(ip: string, now: Time) returns (found: bool)
      requires Valid() && clock <= now
      modifies this`blockedIps, this`failedAttempts, this`records, this`clock
      ensures Valid() && clock == now
      ensures found == old(Known(ip)).block.Some?
      ensures records == old(records)[ip := if found then old(Known(ip)).(block := None, failures := [])
                                            else old(Known(ip))]
      ensures Contained(old(failedAttempts), failedAttempts, limits.maxFailed)
    {
      hide Coherent;
      BlockEntry(limits, State(), records, clock, ip);
      Looked(limits, State(), records, clock, now, ip);
      Pardoned(limits, State(), records, clock, now, ip);
      found := ip in blockedIps;
      ghost var after := State();
      if found {
        after := State().(failed := failedAttempts - {ip}, blocked := blockedIps - {ip});
        blockedIps := blockedIps - {ip};
        failedAttempts := failedAttempts - {ip};
      }
      records := records[ip := if found then Known(ip).(block := None, failures := []) else Known(ip)];
      clock := now;
      assert State() == after;
    }

    /** The pruning `record_failed_auth` and `get_failed_auth_attempts` start with. */
    method PruneFailures(ip: string, now: Time) returns (count: nat)
      requires Valid() && clock <= now
      modifies this`failedAttempts, this`clock
      ensures Valid() && clock == now
      ensures count == |Of(failedAttempts, ip)|
      ensures count == CountIn(Known(ip).failures, now - limits.failWindow, now)
      ensures failedAttempts == old(failedAttempts)[ip := Of(failedAttempts, ip)]
      ensures count <= |Of(old(failedAttempts), ip)|
    {
      hide Coherent;
      var kept, dropped := PruneDeque(Of(failedAttempts, ip), now - limits.failWindow);
      FailuresPruned(limits, State(), records, clock, now, ip, dropped);
      ghost var after := State().(failed := failedAttempts[ip := kept]);
      failedAttempts, clock, count := failedAttempts[ip := kept], now, |kept|;
      assert State() == after;
    }

    method RecordFailedAuth(ip: string, now: Time) returns (count: nat, blocked: bool)
      requires Valid() && clock <= now
      modifies this`failedAttempts, this`blockedIps, this`records, this`clock
      ensures Valid() && clock == now
      ensures count == FailureCount(limits, old(Known(ip)), now)
      ensures blocked == (count >= limits.maxFailed)
      ensures records == old(records)[ip := Failed(limits, old(Known(ip)), now)]
      ensures blocked ==> Lookup(blockedIps, ip) == Some(BlockInfo(now, FailedAuth(count)))
      ensures |Of(failedAttempts, ip)| == count <= |Of(old(failedAttempts), ip)| + 1
      ensures forall other :: other != ip ==> Of(failedAttempts, other) == Of(old(failedAttempts), other)
    {
      hide Coherent;
      count := PruneFailures(ip, now);
      ghost var after := FailingTables(limits, State(), now, ip);
      FailureAdded(limits, State(), records, now, ip);
      failedAttempts, count := failedAttempts[ip := Of(failedAttempts, ip) + [now]], count + 1;
      blocked := count >= limits.maxFailed;
      if blocked {
        blockedIps := blockedIps[ip := BlockInfo(now, FailedAuth(count))];
      }
      records := records[ip := Failed(limits, Known(ip), now)];
      assert State() == after;
    }

    method ClearFailedAuth(ip: Option<string>, now: Time)
      requires Valid() && clock <= now
      modifies this`failedAttempts, this`records, this`clock
      ensures Valid() && clock == now
      ensures records == if ip.None? then AllCleared(old(records))
                         else old(records)[ip.value := old(Known(ip.value)).(failures := [])]
      ensures failedAttempts == if ip.None? then map[] else old(failedAttempts) - {ip.value}
      ensures Contained(old(failedAttempts), failedAttempts, limits.maxFailed)
    {
      hide Coherent;
      ghost var after;
      match ip {
        case None =>
          AllFailuresCleared(limits, State(), records, clock, now);
          after := State().(failed := map[]);
          failedAttempts, records := map[], AllCleared(records);
        case Some(one) =>
          FailuresCleared(limits, State(), records, clock, now, one);
          after := State().(failed := failedAttempts - {one});
          failedAttempts, records := failedAttempts - {one}, records[one := Known(one).(failures := [])];
      }
      clock := now;
      assert State() == after;
    }

    method PruneMinute(ip: string, cutoff: Time, now: Time) returns (count: nat)
      requires Valid() && clock <= now && cutoff <= now - MINUTE
      modifies this`minuteRequests, this`clock
      ensures Valid() && clock == now
      ensures count == |Of(minuteRequests, ip)|
      ensures cutoff == now - MINUTE ==> count == CountIn(Known(ip).admitted, cutoff, now)
      ensures minuteRequests == old(minuteRequests)[ip := Of(minuteRequests, ip)]
      ensures count > 0 ==> cutoff < Of(minuteRequests, ip)[0]
    {
      hide Coherent;
      var kept, dropped := PruneDeque(Of(minuteRequests, ip), cutoff);
      MinutePruned(limits, State(), records, clock, now, ip, cutoff, dropped);
      ghost var after := State().(minute := minuteRequests[ip := kept]);
      minuteRequests, clock, count := minuteRequests[ip := kept], now, |kept|;
      assert State() == after;
    }

    method PruneHour(ip: string, cutoff: Time, now: Time) returns (count: nat)
      requires Valid() && clock <= now && cutoff <= now - HOUR
      modifies this`hourRequests, this`clock
      ensures Valid() && clock == now
      ensures count == |Of(hourRequests, ip)|
      ensures cutoff == now - HOUR ==> count == CountIn(Known(ip).admitted, cutoff, now)
      ensures hourRequests == old(hourRequests)[ip := Of(hourRequests, ip)]
      ensures count > 0 ==> cutoff < Of(hourRequests, ip)[0]
    {
      hide Coherent;
      var kept, dropped := PruneDeque(Of(hourRequests, ip), cutoff);
      HourPruned(limits, State(), records, clock, now, ip, cutoff, dropped);
      ghost var after := State().(hour := hourRequests[ip := kept]);
      hourRequests, clock, count := hourRequests[ip := kept], now, |kept|;
      assert State() == after;
    }

    method SweepMinute(now: Time)
      requires Valid() && clock == now
      modifies this`minuteRequests, this`clock
      ensures Valid() && clock == now
      ensures forall ip :: ip in minuteRequests ==>
                minuteRequests[ip] != [] && now - CLEANUP_CUTOFF < minuteRequests[ip][0]
    {
      hide Coherent;
      var todo := minuteRequests.Keys;
      while todo != {}
        invariant Valid() && clock == now && todo <= minuteRequests.Keys
        invariant forall ip :: ip in minuteRequests && ip !in todo ==>
                    minuteRequests[ip] != [] && now - CLEANUP_CUTOFF < minuteRequests[ip][0]
        decreases todo
      {
        var ip :| ip in todo;
        var left := PruneMinute(ip, now - CLEANUP_CUTOFF, now);
        if left == 0 {
          ghost var after := State().(minute := minuteRequests - {ip});
          EmptiesDropped(limits, State(), after, records, now);
          minuteRequests := minuteRequests - {ip};
          assert State() == after;
        }
        todo := todo - {ip};
      }
    }

    method SweepHour(now: Time)
      requires Valid() && clock == now
      modifies this`hourRequests, this`clock
      ensures Valid() && clock == now
      ensures forall ip :: ip in hourRequests ==> ip in minuteRequests || hourRequests[ip] != []
    {
      hide Coherent;
      var todo := hourRequests.Keys;
      while todo != {}
        invariant Valid() && clock == now && todo <= hourRequests.Keys
        invariant forall ip :: ip in hourRequests && ip !in todo ==> ip in minuteRequests || hourRequests[ip] != []
        decreases todo
      {
        var ip :| ip in todo;
        var left := PruneHour(ip, now - CLEANUP_CUTOFF, now);
        if left == 0 && ip !in minuteRequests {
          ghost var after := State().(hour := hourRequests - {ip});
          EmptiesDropped(limits, State(), after, records, now);
          hourRequests := hourRequests - {ip};
          assert State() == after;
        }
        todo := todo - {ip};
      }
    }

    /** Nobody idle for an hour is kept. */
    ghost predicate SweptAt(now: Time)
      reads this`minuteRequests, this`hourRequests
    {
      && (forall ip :: ip in minuteRequests ==> minuteRequests[ip] != [] && now - 3600.0 < minuteRequests[ip][0])
      && forall ip :: ip in hourRequests ==> ip in minuteRequests || hourRequests[ip] != []
    }

    /** The periodic sweep: it forgets idle addresses and no admission that still counts. */
    method CleanupOldIps(now: Time)
      requires Valid() && clock == now
      modifies this`minuteRequests, this`hourRequests, this`clock
      ensures Valid() && clock == now
      ensures SweptAt(now)
    {
      SweepMinute(now);
      SweepHour(now);
    }

    /** The last lines of `check_rate_limit`. */
    method Admit(ip: string, now: Time)
      requires Valid() && clock == now
      modifies this`minuteRequests, this`hourRequests, this`requestCount, this`records, this`clock
      ensures Valid() && clock == now
      ensures records == old(records)[ip := old(Known(ip)).(admitted := old(Known(ip)).admitted + [now])]
      ensures requestCount == old(requestCount) + 1
      ensures requestCount % 100 == 0 ==> SweptAt(now)
    {
      hide Coherent;
      Admitting(limits, State(), records, now, ip);
      ghost var after := State().(minute := minuteRequests[ip := Of(minuteRequests, ip) + [now]],
                                  hour := hourRequests[ip := Of(hourRequests, ip) + [now]]);
      minuteRequests := minuteRequests[ip := Of(minuteRequests, ip) + [now]];
      hourRequests := hourRequests[ip := Of(hourRequests, ip) + [now]];
      records := records[ip := Known(ip).(admitted := Known(ip).admitted + [now])];
      assert State() == after;
      requestCount := requestCount + 1;
      if requestCount % CLEANUP_INTERVAL == 0 {
        CleanupOldIps(now);
      }
    }

    /** The part of `check_rate_limit` after the block check. */
    method WeighRequest(ip: string, now: Time) returns (answer: Answer)
      requires Valid() && clock == now && Known(ip).block.None?
      modifies this`minuteRequests, this`hourRequests, this`blockedIps, this`requestCount, this`records, this`clock
      ensures Valid() && clock == now
      ensures answer == Judge(limits, old(Known(ip)), now)
      ensures records == old(records)[ip := Sentenced(old(Known(ip)), answer, now)]
      ensures answer == OverMinute ==> Lookup(blockedIps, ip) == Some(BlockInfo(now, MinuteLimit))
      ensures answer == OverHour ==> Lookup(blockedIps, ip) == Some(BlockInfo(now, HourlyLimit))
      ensures requestCount == old(requestCount) + if answer == Admitted then 1 else 0
      ensures answer == Admitted && requestCount % 100 == 0 ==> SweptAt(now)
    {
      hide Coherent, CountIn;
      var minute := PruneMinute(ip, now - MINUTE, now);
      var hour := PruneHour(ip, now - HOUR, now);
      if minute >= limits.perMinute {
        BlockIp(ip, MinuteLimit, now);
        return OverMinute;
      }
      if hour >= limits.perHour {
        BlockIp(ip, HourlyLimit, now);
        return OverHour;
      }
      Admit(ip, now);
      return Admitted;
    }

    method CheckRateLimit(ip: string, now: Time) returns (answer: Answer)
      requires Valid() && clock <= now
      modifies this`minuteRequests, this`hourRequests, this`blockedIps, this`failedAttempts, this`requestCount,
               this`records, this`clock
      ensures Valid() && clock == now
      ensures answer == Judge(limits, old(Known(ip)), now)
      ensures records == old(records)[ip := Sentenced(Noticed(limits, old(Known(ip)), now), answer, now)]
      ensures answer == OverMinute ==> Lookup(blockedIps, ip) == Some(BlockInfo(now, MinuteLimit))
      ensures answer == OverHour ==> Lookup(blockedIps, ip) == Some(BlockInfo(now, HourlyLimit))
      ensures requestCount == old(requestCount) + if answer == Admitted then 1 else 0
      ensures answer == Admitted && requestCount % 100 == 0 ==> SweptAt(now)
      ensures Contained(old(failedAttempts), failedAttempts, limits.maxFailed)
    {
      hide Coherent, CountIn;
      var blocked := IsBlocked(ip, now);
      if blocked {
        return Barred;
      }
      assert Known(ip) == Noticed(limits, old(Known(ip)), now);
      answer := WeighRequest(ip, now);
      assert records == old(records)[ip := Sentenced(Noticed(limits, old(Known(ip)), now), answer, now)];
    }

    /** `get_stats(ip)` for a non-empty address. */
    method GetStatsFor(ip: string, now: Time) returns (stats: IpStats)
      requires Valid() && clock <= now
      modifies this`minuteRequests, this`hourRequests, this`blockedIps, this`failedAttempts, this`records, this`clock
      ensures Valid() && clock == now
      ensures stats.minute == CountIn(old(Known(ip)).admitted, now - MINUTE, now)
      ensures stats.hour == CountIn(old(Known(ip)).admitted, now - HOUR, now)
      ensures stats.blocked == Blocked(limits, old(Known(ip)), now)
      ensures records == old(records)[ip := Noticed(limits, old(Known(ip)), now)]
      ensures Contained(old(failedAttempts), failedAttempts, limits.maxFailed)
    {
      hide Coherent, CountIn;
      AdvanceAll(limits, State(), records, clock, now);
      clock := now;
      NothingCounted(limits, State(), records, now, ip);
      var minute, hour := 0, 0;
      if Of(minuteRequests, ip) != [] {
        minute := PruneMinute(ip, now - MINUTE, now);
      }
      if Of(hourRequests, ip) != [] {
        hour := PruneHour(ip, now - HOUR, now);
      }
      var blocked := IsBlocked(ip, now);
      stats := IpStats(minute, hour, blocked);
    }

    /** `get_stats()`: the addresses seen in the last minute and hour, and the blocks in force. */
    method GetStats(now: Time) returns (minute: nat, hour: nat, blocked: nat)
      requires Valid() && clock <= now
      modifies this`minuteRequests, this`hourRequests, this`clock
      ensures Valid() && clock == now
      ensures minute == |ActiveSince(records, now - MINUTE, now)|
      ensures hour == |ActiveSince(records, now - HOUR, now)|
      ensures blocked == |set ip | ip in records && Blocked(limits, records[ip], now)|
    {
      hide Coherent, CountIn;
      AdvanceAll(limits, State(), records, clock, now);
      clock := now;
      NothingCountedAnywhere(limits, State(), records, now);
      minute := CountMinute(now);
      hour := CountHour(now);
      var entries := GetBlockedIps(now);
      blocked := |entries|;
    }

    method CountMinute(now: Time) returns (unique: nat)
      requires Valid() && clock == now
      requires ActiveSince(records, now - MINUTE, now) <= minuteRequests.Keys
      modifies this`minuteRequests, this`clock
      ensures Valid() && clock == now
      ensures unique == |ActiveSince(records, now - MINUTE, now)|
    {
      hide Coherent, CountIn;
      var todo, live := minuteRequests.Keys, {};
      while todo != {}
        invariant Valid() && clock == now && todo <= minuteRequests.Keys
        invariant ActiveSince(records, now - MINUTE, now) <= todo + live
        invariant live <= ActiveSince(records, now - MINUTE, now)
        decreases todo
      {
        var ip :| ip in todo;
        var count := PruneMinute(ip, now - MINUTE, now);
        NoRecordNoCount(records, ip, now - MINUTE, now);
        if count > 0 {
          live := live + {ip};
        }
        todo := todo - {ip};
      }
      assert live == ActiveSince(records, now - MINUTE, now);
      unique := |live|;
    }

    method CountHour(now: Time) returns (unique: nat)
      requires Valid() && clock == now
      requires ActiveSince(records, now - HOUR, now) <= hourRequests.Keys
      modifies this`hourRequests, this`clock
      ensures Valid() && clock == now
      ensures unique == |ActiveSince(records, now - HOUR, now)|
    {
      hide Coherent, CountIn;
      var todo, live := hourRequests.Keys, {};
      while todo != {}
        invariant Valid() && clock == now && todo <= hourRequests.Keys
        invariant ActiveSince(records, now - HOUR, now) <= todo + live
        invariant live <= ActiveSince(records, now - HOUR, now)
        decreases todo
      {
        var ip :| ip in todo;
        var count := PruneHour(ip, now - HOUR, now);
        NoRecordNoCount(records, ip, now - HOUR, now);
        if count > 0 {
          live := live + {ip};
        }
        todo := todo - {ip};
      }
      assert live == ActiveSince(records, now - HOUR, now);
      unique := |live|;
    }

    /** Lists exactly the addresses a request from which would be barred; changes nothing. */
    method GetBlockedIps(now: Time) returns (entries: map<string, BlockedEntry>)
      requires Valid() && clock <= now
      ensures entries.Keys == set ip | ip in records && Blocked(limits, records[ip], now)
      ensures forall ip :: ip in entries ==>
                && records[ip].block == Some(BlockInfo(entries[ip].blockedAt, entries[ip].reason))
                && entries[ip].remaining == limits.blockSeconds - (now - entries[ip].blockedAt)
    {
      entries := map ip | ip in blockedIps && now - blockedIps[ip].at <= limits.blockSeconds ::
        BlockedEntry(blockedIps[ip].at, blockedIps[ip].reason,
                     if limits.blockSeconds - (now - blockedIps[ip].at) < 0.0 then 0.0
                     else limits.blockSeconds - (now - blockedIps[ip].at));
      BlockTable(limits, State(), records, clock);
    }

    /** `get_failed_auth_attempts(ip)` for a non-empty address. */
    method GetFailedFor(ip: string, now: Time) returns (attempts: nat, blocked: bool)
      requires Valid() && clock <= now
      modifies this`failedAttempts, this`blockedIps, this`records, this`clock
      ensures Valid() && clock == now
      ensures attempts == CountIn(old(Known(ip)).failures, now - limits.failWindow, now)
      ensures blocked == Blocked(limits, old(Known(ip)), now)
      ensures records == old(records)[ip := Noticed(limits, old(Known(ip)), now)]
      ensures Contained(old(failedAttempts), failedAttempts, limits.maxFailed)
    {
      hide Coherent, CountIn;
      AdvanceAll(limits, State(), records, clock, now);
      clock := now;
      NothingCounted(limits, State(), records, now, ip);
      attempts := 0;
      if Of(failedAttempts, ip) != [] {
        attempts := PruneFailures(ip, now);
      }
      blocked := IsBlocked(ip, now);
    }

    /** `get_failed_auth_attempts()`: every address with a failure in the window. */
    method GetFailed(now: Time) returns (failing: map<string, nat>)
      requires Valid() && clock <= now
      modifies this`failedAttempts, this`clock
      ensures Valid() && clock == now
      ensures failing.Keys == FailingSince(records, now - limits.failWindow, now)
      ensures forall ip :: ip in failing ==> failing[ip] == CountIn(Known(ip).failures, now - limits.failWindow, now)
      ensures Contained(old(failedAttempts), failedAttempts, limits.maxFailed)
    {
      hide Coherent, CountIn;
      AdvanceAll(limits, State(), records, clock, now);
      clock := now;
      NothingCountedAnywhere(limits, State(), records, now);
      var todo := failedAttempts.Keys;
      failing := map[];
      while todo != {}
        invariant Valid() && clock == now && todo <= failedAttempts.Keys
        invariant Contained(old(failedAttempts), failedAttempts, limits.maxFailed)
        invariant FailingSince(records, now - limits.failWindow, now) <= todo + failing.Keys
        invariant failing.Keys <= FailingSince(records, now - limits.failWindow, now)
        invariant forall ip :: ip in failing ==>
                    failing[ip] == CountIn(Known(ip).failures, now - limits.failWindow, now)
        decreases todo
      {
        var ip :| ip in todo;
        var count := PruneFailures(ip, now);
        NoRecordNoCount(records, ip, now - limits.failWindow, now);
        if count > 0 {
          failing := failing[ip := count];
        }
        todo := todo - {ip};
      }
    }
  }
}
