/**
 Sliding windows over lists of instants. A pruned list is related to the list of everything
 that ever happened by `IsTail`; every count the program takes on the pruned list is then a
 count over the full one.
 */
module Windows {
  /** Seconds. Clock rounding is not modelled. */
  type Time = real

  ghost predicate Sorted(ts: seq<Time>) {
    forall i, j :: 0 <= i < j < |ts| ==> ts[i] <= ts[j]
  }

  ghost predicate NoneAfter(ts: seq<Time>, now: Time) {
    forall i :: 0 <= i < |ts| ==> ts[i] <= now
  }

  /** How many of the instants lie in the half-open window (lo, hi]. */
  function CountIn(ts: seq<Time>, lo: Time, hi: Time): nat {
    if ts == [] then 0
    else
      var last := |ts| - 1;
      CountIn(ts[..last], lo, hi) + if lo < ts[last] <= hi then 1 else 0
  }

  /** The count is the number of positions whose instant is in the window. */
  lemma {:induction false} CountIsSize(ts: seq<Time>, lo: Time, hi: Time)
    ensures CountIn(ts, lo, hi) == |set i | 0 <= i < |ts| && lo < ts[i] <= hi|
  {
    if ts != [] {
      var last := |ts| - 1;
      CountIsSize(ts[..last], lo, hi);
      var before := set i | 0 <= i < last && lo < ts[..last][i] <= hi;
      var all := set i | 0 <= i < |ts| && lo < ts[i] <= hi;
      if lo < ts[last] <= hi {
        assert all == before + {last};
      } else {
        assert all == before;
      }
    }
  }

  /** `kept` is `full` without some oldest instants, none of which is later than `cutoff`. */
  ghost predicate IsTail(kept: seq<Time>, full: seq<Time>, cutoff: Time) {
    && |kept| <= |full|
    && kept == full[|full| - |kept|..]
    && forall i :: 0 <= i < |full| - |kept| ==> full[i] <= cutoff
  }

  ghost predicate Fits(ts: seq<Time>, window: Time, limit: int, end: Time) {
    CountIn(ts, end - window, end) <= if limit < 0 then 0 else limit
  }

  /** No window of the given width holds more than `limit` instants. */
  ghost predicate AtMost(ts: seq<Time>, window: Time, limit: int) {
    forall end: Time :: Fits(ts, window, limit, end)
  }

  /** The `while dq and dq[0] <= cutoff: dq.popleft()` loop. */
  method PruneDeque(dq: seq<Time>, cutoff: Time) returns (rest: seq<Time>, pruned: nat)
    ensures pruned <= |dq| && rest == dq[pruned..]
    ensures forall i :: 0 <= i < pruned ==> dq[i] <= cutoff
    ensures rest != [] ==> cutoff < rest[0]
  {
    rest, pruned := dq, 0;
    while rest != [] && rest[0] <= cutoff
      invariant pruned <= |dq| && rest == dq[pruned..]
      invariant forall i :: 0 <= i < pruned ==> dq[i] <= cutoff
    {
      rest := rest[1..];
      pruned := pruned + 1;
    }
  }

  /** The `[ts for ts in history if ts > cutoff]` comprehension. */
  function After(ts: seq<Time>, cutoff: Time): seq<Time> {
    if ts == [] then []
    else (if ts[0] > cutoff then [ts[0]] else []) + After(ts[1..], cutoff)
  }

  lemma {:induction false} AfterAll(ts: seq<Time>, cutoff: Time)
    requires forall i :: 0 <= i < |ts| ==> cutoff < ts[i]
    ensures After(ts, cutoff) == ts
  {
    if ts != [] {
      AfterAll(ts[1..], cutoff);
    }
  }

  /** The index of the first instant after `cutoff`. */
  function FirstAfter(ts: seq<Time>, cutoff: Time): (n: nat)
    ensures n <= |ts| && (n < |ts| ==> cutoff < ts[n])
    ensures forall i :: 0 <= i < n ==> ts[i] <= cutoff
  {
    if ts == [] || cutoff < ts[0] then 0 else 1 + FirstAfter(ts[1..], cutoff)
  }

  /** On a chronological list the filter only drops a prefix, exactly as popping from the left does. */
  lemma {:induction false} AfterIsSuffix(ts: seq<Time>, cutoff: Time)
    requires Sorted(ts)
    ensures After(ts, cutoff) == ts[FirstAfter(ts, cutoff)..]
  {
    if ts == [] {
    } else if cutoff < ts[0] {
      AfterAll(ts, cutoff);
    } else {
      var rest := ts[1..];
      AfterIsSuffix(rest, cutoff);
      assert rest[FirstAfter(rest, cutoff)..] == ts[1 + FirstAfter(rest, cutoff)..];
    }
  }

  lemma {:induction false} CountNone(ts: seq<Time>, lo: Time, hi: Time)
    requires NoneAfter(ts, lo)
    ensures CountIn(ts, lo, hi) == 0
  {
    if ts != [] {
      CountNone(ts[..|ts| - 1], lo, hi);
    }
  }

  /** What is left of a tail once everything up to `cutoff` is dropped is the number of later instants. */
  lemma {:induction false} TailCounts(kept: seq<Time>, full: seq<Time>, cutoff: Time, now: Time)
    requires Sorted(full) && NoneAfter(full, now)
    requires IsTail(kept, full, cutoff) && (kept != [] ==> cutoff < kept[0])
    ensures CountIn(full, cutoff, now) == |kept|
  {
    if kept == [] {
      CountNone(full, cutoff, now);
    } else {
      var last := |full| - 1;
      var shorter := kept[..|kept| - 1];
      assert full[last] == kept[|kept| - 1];
      assert kept[0] == full[|full| - |kept|];
      assert IsTail(shorter, full[..last], cutoff);
      TailCounts(shorter, full[..last], cutoff, now);
    }
  }

  /** Dropping old instants from the left of a tail leaves a tail. */
  lemma TailDrop(kept: seq<Time>, full: seq<Time>, before: Time, cutoff: Time, dropped: nat)
    requires IsTail(kept, full, before) && before <= cutoff
    requires dropped <= |kept| && forall i :: 0 <= i < dropped ==> kept[i] <= cutoff
    ensures IsTail(kept[dropped..], full, cutoff)
  {
    var skip := |full| - |kept|;
    forall i | 0 <= i < skip + dropped
      ensures full[i] <= cutoff
    {
      if skip <= i {
        assert full[i] == kept[i - skip];
      }
    }
    assert kept[dropped..] == full[skip + dropped..];
  }

  lemma TailPruned(kept: seq<Time>, full: seq<Time>, cutoff: Time, now: Time, dropped: nat)
    requires Sorted(full) && NoneAfter(full, now) && IsTail(kept, full, cutoff)
    requires dropped <= |kept| && forall i :: 0 <= i < dropped ==> kept[i] <= cutoff
    requires dropped < |kept| ==> cutoff < kept[dropped]
    ensures IsTail(kept[dropped..], full, cutoff)
    ensures |kept| - dropped == CountIn(full, cutoff, now)
  {
    TailDrop(kept, full, cutoff, cutoff, dropped);
    TailCounts(kept[dropped..], full, cutoff, now);
  }

  lemma TailAppend(kept: seq<Time>, full: seq<Time>, cutoff: Time, now: Time)
    requires IsTail(kept, full, cutoff)
    ensures IsTail(kept + [now], full + [now], cutoff)
  {
    assert kept + [now] == (full + [now])[|full| - |kept|..];
  }

  lemma TailSorted(kept: seq<Time>, full: seq<Time>, cutoff: Time)
    requires IsTail(kept, full, cutoff) && Sorted(full)
    ensures Sorted(kept)
  {
    var skip := |full| - |kept|;
    forall i, j | 0 <= i < j < |kept|
      ensures kept[i] <= kept[j]
    {
      assert kept[i] == full[skip + i] && kept[j] == full[skip + j];
    }
  }

  /** Moving a window later never takes in more of the past. */
  lemma {:induction false} CountLater(ts: seq<Time>, window: Time, now: Time, end: Time)
    requires NoneAfter(ts, now) && now <= end
    ensures CountIn(ts, end - window, end) <= CountIn(ts, now - window, now)
  {
    if ts != [] {
      CountLater(ts[..|ts| - 1], window, now, end);
    }
  }

  /**
   Check-then-record keeps the budget: if the window ending at the check was not full, then
   recording any time at or after the check leaves no window over its limit.
   */
  lemma RecordKeepsBudget(ts: seq<Time>, window: Time, limit: int, checked: Time, recorded: Time)
    requires NoneAfter(ts, checked) && checked <= recorded
    requires AtMost(ts, window, limit)
    requires CountIn(ts, checked - window, checked) < limit
    ensures AtMost(ts + [recorded], window, limit)
  {
    var longer := ts + [recorded];
    assert longer[..|longer| - 1] == ts;
    forall end: Time
      ensures Fits(longer, window, limit, end)
    {
      assert Fits(ts, window, limit, end);
      if recorded <= end {
        CountLater(ts, window, checked, end);
      }
    }
  }

  lemma EmptyWithinBudget(window: Time, limit: int)
    ensures AtMost([], window, limit)
  {
    forall end: Time
      ensures Fits([], window, limit, end)
    {
    }
  }
}
