/**
 Call/response correlation of src/bridge/client.py over JSON-RPC 2.0. A future is named by the
 request id it was created for. `Step` is what the event loop runs between two awaits; the class
 `BaileysBridge` holds the table and does the synchronous segments in place.
 */
module Rpc {
  import opened Wrappers

  type Id = nat
  type Value = string

  // ---- The wire ----

  /** Section 5.1 of JSON-RPC 2.0: an error object; only its message is used. */
  datatype ErrorObject = ErrorObject(message: Option<string>, hasMembers: bool)

  /** A parsed line; each Option of an Option tells an absent member from a null one. */
  datatype Wire = Wire(
    version: Option<string>,
    id: Option<Option<Id>>,
    result: Option<Option<Value>>,
    error: Option<Option<ErrorObject>>,
    methodName: Option<string>,
    hasParams: bool)

  datatype Decoded =
    | Skipped
    | Response(id: Option<Id>, error: Option<ErrorObject>, result: Option<Value>)
    | Event(methodName: string)
    | Malformed

  function Flat<T>(member: Option<Option<T>>): Option<T> {
    if member.Some? then member.value else None
  }

  /** `decode_response`: a Response object (section 5) has an id and a result or an error. */
  function Decode(w: Wire): Decoded {
    if w.version != Some("2.0") then Skipped
    else if w.id.Some? && (w.result.Some? || w.error.Some?) then Response(Flat(w.id), Flat(w.error), Flat(w.result))
    else if w.methodName.Some? && w.hasParams then Event(w.methodName.value)
    else Malformed
  }

  // ---- The table ----

  datatype Future = Open | Resolved(value: Option<Value>) | Rejected(message: string) | Dropped

  datatype Outcome =
    | Returned(value: Option<Value>)
    | Refused(message: string)      // BridgeError carrying the response's message
    | TimedOut
    | Interrupted                   // the future was cancelled by stop
    | CallerCancelled
    | WriteFailed

  datatype Phase = Draining | Awaiting | Expiring | Done(outcome: Outcome)

  datatype State = State(
    started: bool,
    running: bool,
    requestId: Id,
    pending: set<Id>,
    futures: map<Id, Future>,
    calls: map<Id, Phase>)

  const INIT := State(false, false, 0, {}, map[], map[])

  datatype Action =
    | Start
    | Stop                      // up to its first await
    | Call
    | Drained(id: Id)
    | DrainRaised(id: Id)
    | Receive(line: Wire)
    | TimerFires(id: Id)        // wait_for cancels the future ...
    | TimerDelivered(id: Id)    // ... and the caller wakes up with a TimeoutError
    | Resume(id: Id)
    | CallerCancels(id: Id)

  predicate Enabled(s: State, a: Action) {
    match a
    case Start => true
    case Stop => true
    case Call => s.started
    case Drained(i) => i in s.calls && s.calls[i].Draining?
    case DrainRaised(i) => i in s.calls && s.calls[i].Draining?
    case Receive(_) => s.running
    case TimerFires(i) => i in s.calls && s.calls[i].Awaiting? && i in s.futures
    case TimerDelivered(i) => i in s.calls && s.calls[i].Expiring?
    case Resume(i) => i in s.calls && s.calls[i].Awaiting? && i in s.futures && s.futures[i] != Open
    case CallerCancels(i) => i in s.calls && !s.calls[i].Done? && i in s.futures
  }

  function Drop(f: Future): Future {
    if f == Open then Dropped else f
  }

  /** What a response makes of an open future; one already done makes `set_result` raise, which is swallowed. */
  function Settle(f: Future, error: Option<ErrorObject>, result: Option<Value>): Future {
    if f != Open then f
    else if error.Some? && error.value.hasMembers then
      Rejected(if error.value.message.Some? then error.value.message.value else "Unknown error")
    else Resolved(result)
  }

  function OnResponse(s: State, id: Option<Id>, error: Option<ErrorObject>, result: Option<Value>): State {
    if id.Some? && id.value in s.pending && id.value in s.futures then
      s.(pending := s.pending - {id.value},
         futures := s.futures[id.value := Settle(s.futures[id.value], error, result)])
    else s
  }

  function OnLine(s: State, line: Wire): State {
    match Decode(line)
    case Response(id, error, result) => OnResponse(s, id, error, result)
    case _ => s
  }

  function Stopped(s: State): State {
    if !s.running then s
    else s.(running := false, pending := {},
            futures := map i | i in s.futures :: if i in s.pending then Drop(s.futures[i]) else s.futures[i])
  }

  function Outcome1(f: Future): Outcome
    requires f != Open
  {
    match f
    case Resolved(v) => Returned(v)
    case Rejected(m) => Refused(m)
    case Dropped => Interrupted
  }

  function Called(s: State): State {
    var i := s.requestId + 1;
    s.(requestId := i, pending := s.pending + {i}, futures := s.futures[i := Open], calls := s.calls[i := Draining])
  }

  function Step(s: State, a: Action): State
    requires Enabled(s, a)
  {
    match a
    case Start => s.(started := true, running := true)
    case Stop => Stopped(s)
    case Call => Called(s)
    case Drained(i) => s.(calls := s.calls[i := Awaiting])
    case DrainRaised(i) => s.(calls := s.calls[i := Done(WriteFailed)])
    case Receive(line) => OnLine(s, line)
    case TimerFires(i) => s.(calls := s.calls[i := Expiring], futures := s.futures[i := Drop(s.futures[i])])
    case TimerDelivered(i) => s.(calls := s.calls[i := Done(TimedOut)], pending := s.pending - {i})
    case Resume(i) => s.(calls := s.calls[i := Done(Outcome1(s.futures[i]))])
    case CallerCancels(i) =>
      s.(calls := s.calls[i := Done(CallerCancelled)],
         futures := if s.calls[i].Draining? then s.futures else s.futures[i := Drop(s.futures[i])])
  }

  function Run(actions: seq<Action>): Option<State> {
    if actions == [] then Some(INIT)
    else
      var before := Run(actions[..|actions| - 1]);
      if before.Some? && Enabled(before.value, actions[|actions| - 1])
      then Some(Step(before.value, actions[|actions| - 1])) else None
  }

  // ---- What every step keeps ----

  /** A call that is still waiting, or was abandoned without clearing its table entry. */
  predicate MayLinger(phase: Phase) {
    !phase.Done? || phase.outcome == CallerCancelled || phase.outcome == WriteFailed
  }

  ghost predicate Fits(s: State, i: Id) {
    && (i in s.calls <==> 1 <= i <= s.requestId)
    && (i in s.futures <==> i in s.calls)
    && (i in s.pending ==> i in s.calls)
    && (i in s.calls ==>
          && (s.futures[i] == Open ==> i in s.pending)
          && (s.calls[i].Done? && s.calls[i].outcome.Returned? ==> s.futures[i] == Resolved(s.calls[i].outcome.value))
          && (s.calls[i].Done? && s.calls[i].outcome.Refused? ==> s.futures[i] == Rejected(s.calls[i].outcome.message))
          && (i in s.pending ==> MayLinger(s.calls[i]))
          && (i in s.pending && (s.calls[i].Awaiting? || s.calls[i].Draining?) ==> s.futures[i] == Open)
          && (s.calls[i].Expiring? ==> s.futures[i] != Open))
  }

  ghost predicate Consistent(s: State) {
    forall i: Id :: Fits(s, i)
  }

  lemma StepKeepsFit(s: State, a: Action, i: Id)
    requires Enabled(s, a) && Fits(s, i)
    requires !a.Start? && !a.Stop? && !a.Call? && !a.Receive? ==> Fits(s, a.id)
    ensures Fits(Step(s, a), i)
  {
  }

  lemma StepKeepsConsistency(s: State, a: Action)
    requires Consistent(s) && Enabled(s, a)
    ensures Consistent(Step(s, a))
  {
    hide Fits, Step;
    forall i: Id
      ensures Fits(Step(s, a), i)
    {
      StepKeepsFit(s, a, i);
    }
  }

  lemma {:induction false} AlwaysConsistent(actions: seq<Action>)
    requires Run(actions).Some?
    ensures Consistent(Run(actions).value)
  {
    if actions == [] {
      assert forall i: Id :: Fits(INIT, i);
    } else {
      hide Step, Enabled, Consistent;
      AlwaysConsistent(actions[..|actions| - 1]);
      StepKeepsConsistency(Run(actions[..|actions| - 1]).value, actions[|actions| - 1]);
    }
  }

  // ---- Theorems about every run ----

  lemma RunOne(actions: seq<Action>, a: Action)
    requires Run(actions).Some? && Enabled(Run(actions).value, a)
    ensures Run(actions + [a]) == Some(Step(Run(actions).value, a))
  {
    assert (actions + [a])[..|actions|] == actions;
  }

  /** A new call never gets an id any earlier call had, answered or not. */
  lemma IdsAreFresh(actions: seq<Action>)
    requires Run(actions + [Call]).Some?
    ensures Run(actions).Some?
    ensures
      var before, after := Run(actions).value, Run(actions + [Call]).value;
      && after.requestId !in before.calls && after.requestId !in before.pending
      && after.calls == before.calls[after.requestId := Draining]
  {
    assert (actions + [Call])[..|actions|] == actions;
    AlwaysConsistent(actions);
    assert Fits(Run(actions).value, Run(actions).value.requestId + 1);
  }

  lemma DoneStays(s: State, a: Action, i: Id)
    requires Consistent(s) && Enabled(s, a) && i in s.calls && s.calls[i].Done?
    ensures i in Step(s, a).calls && Step(s, a).calls[i] == s.calls[i]
  {
    assert Fits(s, s.requestId + 1);
  }

  /** A call completes at most once: its outcome never changes afterwards. */
  lemma {:induction false} OutcomeIsFinal(before: seq<Action>, after: seq<Action>, i: Id)
    requires Run(before + after).Some? && Run(before).Some?
    requires i in Run(before).value.calls && Run(before).value.calls[i].Done?
    ensures i in Run(before + after).value.calls
    ensures Run(before + after).value.calls[i] == Run(before).value.calls[i]
  {
    hide Step, Enabled, Consistent;
    if after == [] {
      assert before + after == before;
    } else {
      var shorter := after[..|after| - 1];
      assert (before + after)[..|before + after| - 1] == before + shorter;
      OutcomeIsFinal(before, shorter, i);
      AlwaysConsistent(before + shorter);
      DoneStays(Run(before + shorter).value, after[|after| - 1], i);
    }
  }

  /** The line is a response with this id: it has an id and a result or an error. */
  predicate RespondsTo(line: Wire, i: Id) {
    line.version == Some("2.0") && line.id == Some(Some(i)) && (line.result.Some? || line.error.Some?)
  }

  /** Its error is an object with members, neither absent nor null nor empty. */
  predicate CarriesError(line: Wire) {
    line.error.Some? && line.error.value.Some? && line.error.value.value.hasMembers
  }

  /** What a call gets from a response: the text of its error if it carries one, otherwise its result. */
  function Meaning(line: Wire): Outcome {
    if CarriesError(line) then
      Refused(match line.error.value.value.message case Some(text) => text case None => "Unknown error")
    else Returned(match line.result case Some(result) => result case None => None)
  }

  /** A response resumes the call that awaits it with the meaning of the line, and touches no other call. */
  lemma ResponseReachesItsCall(s: State, line: Wire, i: Id)
    requires Consistent(s) && s.running && RespondsTo(line, i)
    requires i in s.pending && i in s.calls && i in s.futures && s.futures[i] == Open
    ensures
      var s' := Step(s, Receive(line));
      && s' == s.(pending := s.pending - {i}, futures := s.futures[i := s'.futures[i]])
      && (s.calls[i].Awaiting? ==>
            Enabled(s', Resume(i)) && Step(s', Resume(i)) == s'.(calls := s.calls[i := Done(Meaning(line))]))
  {
    assert Fits(s, i);
  }

  /** Action `k` of a run is a response to `i`, arriving while `i` is in the table, that means `outcome`. */
  ghost predicate IsAnswer(actions: seq<Action>, k: nat, i: Id, outcome: Outcome) {
    && k < |actions| && actions[k].Receive? && RespondsTo(actions[k].line, i) && Meaning(actions[k].line) == outcome
    && Run(actions[..k]).Some? && i in Run(actions[..k]).value.pending
  }

  ghost predicate Answered(actions: seq<Action>, i: Id, outcome: Outcome) {
    exists k: nat :: IsAnswer(actions, k, i, outcome)
  }

  lemma AnsweredLater(actions: seq<Action>, a: Action, i: Id, outcome: Outcome)
    requires Answered(actions, i, outcome)
    ensures Answered(actions + [a], i, outcome)
  {
    var k: nat :| IsAnswer(actions, k, i, outcome);
    assert (actions + [a])[..k] == actions[..k];
    assert IsAnswer(actions + [a], k, i, outcome);
  }

  /** Only a response can resolve or reject a future, and only the future of its own id. */
  lemma OnlyResponsesSettle(s: State, a: Action, i: Id)
    requires Consistent(s) && Enabled(s, a) && i in Step(s, a).futures
    requires Step(s, a).futures[i].Resolved? || Step(s, a).futures[i].Rejected?
    ensures i in s.futures
    ensures s.futures[i] == Step(s, a).futures[i]
         || (a.Receive? && i in s.pending && RespondsTo(a.line, i)
               && Outcome1(Step(s, a).futures[i]) == Meaning(a.line))
  {
    assert Fits(s, i);
  }

  lemma {:induction false} SettledByOwnAnswer(actions: seq<Action>, i: Id)
    requires Run(actions).Some? && i in Run(actions).value.futures
    requires Run(actions).value.futures[i].Resolved? || Run(actions).value.futures[i].Rejected?
    ensures Answered(actions, i, Outcome1(Run(actions).value.futures[i]))
  {
    var before, last := actions[..|actions| - 1], actions[|actions| - 1];
    assert before + [last] == actions;
    AlwaysConsistent(before);
    var s, f := Run(before).value, Run(actions).value.futures[i];
    OnlyResponsesSettle(s, last, i);
    hide Step;
    if i in s.futures && s.futures[i] == f {
      SettledByOwnAnswer(before, i);
      AnsweredLater(before, last, i, Outcome1(f));
    } else {
      assert actions[..|before|] == before;
      assert IsAnswer(actions, |before|, i, Outcome1(f));
    }
  }

  /**
   In every interleaving of calls, replies, duplicates, late replies, timeouts, cancellations and
   stops: a call returns a value only if a response without an error, sent under its own id after it was
   made, carries that result; and it is refused only if such a response carries that error text.
   */
  lemma ReturnsOwnReply(actions: seq<Action>, i: Id)
    requires Run(actions).Some? && i in Run(actions).value.calls && Run(actions).value.calls[i].Done?
    ensures
      var outcome := Run(actions).value.calls[i].outcome;
      outcome.Returned? || outcome.Refused? ==>
        exists k: nat :: IsAnswer(actions, k, i, outcome) && 1 <= i <= Run(actions[..k]).value.requestId
  {
    AlwaysConsistent(actions);
    var s := Run(actions).value;
    assert Fits(s, i);
    var outcome := s.calls[i].outcome;
    if outcome.Returned? || outcome.Refused? {
      SettledByOwnAnswer(actions, i);
      var k: nat :| IsAnswer(actions, k, i, outcome);
      AlwaysConsistent(actions[..k]);
      assert Fits(Run(actions[..k]).value, i);
    }
  }

  /** A line that is no response to an entry of the table (late, duplicate, null or unknown id) changes nothing. */
  lemma StrayReplyIsIgnored(s: State, line: Wire)
    requires s.running && forall i: Id :: RespondsTo(line, i) ==> i !in s.pending
    ensures Step(s, Receive(line)) == s
  {
    if line.id.Some? && line.id.value.Some? {
      assert !RespondsTo(line, line.id.value.value) || line.id.value.value !in s.pending;
    }
  }

  lemma DuplicateIsStray(s: State, line: Wire)
    requires s.running && Consistent(s)
    ensures Step(Step(s, Receive(line)), Receive(line)) == Step(s, Receive(line))
  {
    if Decode(line).Response? && Decode(line).id.Some? {
      assert Fits(s, Decode(line).id.value);
    }
  }

  /** An entry leaves the table by a response of its own, by its timeout, or by stopping a running bridge. */
  lemma EntriesLeave(s: State, a: Action, i: Id)
    requires Consistent(s) && Enabled(s, a)
    ensures i in Step(s, a).pending
       <==> (i in s.pending || (a == Call && i == s.requestId + 1))
            && !(a.Receive? && RespondsTo(a.line, i)) && a != TimerDelivered(i) && !(a == Stop && s.running)
  {
    assert Fits(s, i);
  }

  /** The action that interrupts a call: a stop while the bridge runs and the call is in the table. */
  ghost predicate IsStop(actions: seq<Action>, k: nat, i: Id) {
    && k < |actions| && actions[k] == Stop
    && Run(actions[..k]).Some? && Run(actions[..k]).value.running && i in Run(actions[..k]).value.pending
  }

  lemma StillStopped(actions: seq<Action>, a: Action, k: nat, i: Id)
    requires IsStop(actions, k, i)
    ensures IsStop(actions + [a], k, i)
  {
    assert (actions + [a])[..k] == actions[..k];
  }

  /** The call was interrupted, or will be once it resumes. */
  predicate Halted(s: State, i: Id) {
    && i in s.calls && i in s.futures
    && (s.calls[i] == Done(Interrupted) || ((s.calls[i].Awaiting? || s.calls[i].Draining?) && s.futures[i] == Dropped))
  }

  lemma OnlyStopsHalt(s: State, a: Action, i: Id)
    requires Consistent(s) && Enabled(s, a) && Halted(Step(s, a), i)
    ensures Halted(s, i) || (a == Stop && s.running && i in s.pending)
  {
    assert Fits(s, i);
  }

  /** A call is interrupted only by such a stop. */
  lemma {:induction false} InterruptedByStop(actions: seq<Action>, i: Id) returns (k: nat)
    requires Run(actions).Some? && Halted(Run(actions).value, i)
    ensures IsStop(actions, k, i)
  {
    hide Step, Enabled, Consistent;
    var before, last := actions[..|actions| - 1], actions[|actions| - 1];
    assert before + [last] == actions;
    AlwaysConsistent(before);
    OnlyStopsHalt(Run(before).value, last, i);
    if Halted(Run(before).value, i) {
      k := InterruptedByStop(before, i);
      StillStopped(before, last, k, i);
    } else {
      k := |before|;
      assert actions[..k] == before;
    }
  }

  /** Stopping a running bridge interrupts every call that waits for its answer. */
  lemma StopInterrupts(s: State, i: Id)
    requires Consistent(s) && s.running && i in s.pending && i in s.calls && s.calls[i].Awaiting?
    ensures
      var s' := Step(s, Stop);
      Enabled(s', Resume(i)) && Step(s', Resume(i)).calls == s.calls[i := Done(Interrupted)]
  {
    assert Fits(s, i);
  }

  /** A call is over by an answer or a stop, or by one of these. */
  predicate Ends(a: Action, i: Id, outcome: Outcome) {
    match outcome
    case TimedOut => a == TimerDelivered(i)
    case CallerCancelled => a == CallerCancels(i)
    case WriteFailed => a == DrainRaised(i)
    case _ => a == Resume(i)
  }

  lemma StepEnds(s: State, a: Action, i: Id)
    requires Consistent(s) && Enabled(s, a) && i in Step(s, a).calls && Step(s, a).calls[i].Done?
    ensures (i in s.calls && s.calls[i] == Step(s, a).calls[i]) || Ends(a, i, Step(s, a).calls[i].outcome)
  {
    assert Fits(s, i);
  }

  /** In every run a call that is over was ended by the action its outcome tells. */
  lemma {:induction false} OutcomeTellsTheEnd(actions: seq<Action>, i: Id)
    requires Run(actions).Some? && i in Run(actions).value.calls && Run(actions).value.calls[i].Done?
    ensures exists k :: 0 <= k < |actions| && Ends(actions[k], i, Run(actions).value.calls[i].outcome)
  {
    hide Step, Enabled, Consistent, Ends;
    var before, last := actions[..|actions| - 1], actions[|actions| - 1];
    AlwaysConsistent(before);
    var s := Run(before).value;
    StepEnds(s, last, i);
    if i in s.calls && s.calls[i] == Run(actions).value.calls[i] {
      OutcomeTellsTheEnd(before, i);
      var k :| 0 <= k < |before| && Ends(before[k], i, s.calls[i].outcome);
      assert actions[k] == before[k];
    }
  }

  lemma StoppedSettles(s: State)
    requires Consistent(s) && s.running
    ensures Stopped(s).pending == {} && forall i :: i in Stopped(s).futures ==> Stopped(s).futures[i] != Open
  {
    forall i | i in s.futures
      ensures Stopped(s).futures[i] != Open
    {
      assert Fits(s, i);
    }
  }

  /** Stopping a running bridge leaves no entry in the table and no future open. */
  lemma StopSettlesEverything(actions: seq<Action>)
    requires Run(actions).Some? && Run(actions).value.running
    ensures
      var s := Step(Run(actions).value, Stop);
      s.pending == {} && forall i :: i in s.futures ==> s.futures[i] != Open
  {
    AlwaysConsistent(actions);
    StoppedSettles(Run(actions).value);
  }

  /** On a bridge that is not running `stop` returns at once: the table is emptied only if it was empty. */
  lemma StopEmptiesTheTable(s: State)
    ensures Step(s, Stop).pending == {} <==> s.running || s.pending == {}
  {
  }

  /** A call made after a stop is registered and survives the next stop. */
  lemma CallAfterStopSurvives()
    ensures exists actions :: Run(actions).Some? && actions != [] && actions[|actions| - 1] == Stop
              && 1 in Run(actions).value.pending
              && 1 in Run(actions).value.futures && Run(actions).value.futures[1] == Open
  {
    RunOne([], Start);
    RunOne([] + [Start], Stop);
    RunOne([] + [Start] + [Stop], Call);
    RunOne([] + [Start] + [Stop] + [Call], Stop);
    var actions := [] + [Start] + [Stop] + [Call] + [Stop];
    assert actions[|actions| - 1] == Stop;
  }

  /** Entries only linger for calls in flight and for calls abandoned by their caller or by a failed write. */
  lemma TableHoldsOnlyWaiting(actions: seq<Action>, i: Id)
    requires Run(actions).Some? && i in Run(actions).value.pending
    ensures i in Run(actions).value.calls && MayLinger(Run(actions).value.calls[i])
  {
    AlwaysConsistent(actions);
    assert Fits(Run(actions).value, i);
  }

  // ---- The bridge object ----

  class BaileysBridge {
    var started: bool
    var running: bool
    var requestId: Id
    var pending: set<Id>
    var futures: map<Id, Future>
    ghost var calls: map<Id, Phase>

    ghost function Snapshot(): State
      reads this
    {
      State(started, running, requestId, pending, futures, calls)
    }

    constructor ()
      ensures Snapshot() == INIT
    {
      started, running, requestId, pending, futures, calls := false, false, 0, {}, map[], map[];
    }

    /** `call` up to the await of the drain; None if the bridge was never started. */
    method BeginCall() returns (id: Option<Id>)
      modifies this
      ensures !old(started) ==> id == None && Snapshot() == old(Snapshot())
      ensures old(started) ==> id == Some(requestId) && Snapshot() == Step(old(Snapshot()), Call)
    {
      if !started {
        return None;
      }
      requestId := requestId + 1;
      futures := futures[requestId := Open];
      pending := pending + {requestId};
      calls := calls[requestId := Draining];
      return Some(requestId);
    }

    /** One line read from the bridge process. */
    method HandleLine(line: Wire)
      requires Consistent(Snapshot()) && running
      modifies this`pending, this`futures
      ensures Snapshot() == Step(old(Snapshot()), Receive(line)) && Consistent(Snapshot())
    {
      StepKeepsConsistency(Snapshot(), Receive(line));
      ghost var after := Step(Snapshot(), Receive(line));
      var decoded := Decode(line);
      if decoded.Response? && decoded.id.Some? && decoded.id.value in pending {
        var id := decoded.id.value;
        assert Fits(Snapshot(), id);
        pending := pending - {id};
        futures := futures[id := Settle(futures[id], decoded.error, decoded.result)];
      }
      assert Snapshot() == after;
    }

    /** `_read_loop` over the lines that arrive before anything else happens. */
    method ReadLoop(lines: seq<Wire>)
      requires Consistent(Snapshot()) && running
      modifies this`pending, this`futures
      ensures Snapshot() == AfterLines(old(Snapshot()), lines) && Consistent(Snapshot())
    {
      var i := 0;
      assert lines[..0] == [];
      while i < |lines|
        invariant 0 <= i <= |lines| && running && Consistent(Snapshot())
        invariant Snapshot() == AfterLines(old(Snapshot()), lines[..i])
      {
        HandleLine(lines[i]);
        i := i + 1;
        assert lines[..i][..i - 1] == lines[..i - 1];
      }
      assert lines[..|lines|] == lines;
    }

    /** `stop` up to its first await: every pending future is cancelled, then the table is cleared. */
    method StopPrefix()
      requires Consistent(Snapshot())
      modifies this`running, this`pending, this`futures
      ensures Snapshot() == Step(old(Snapshot()), Stop) && Consistent(Snapshot())
      ensures old(running) ==> pending == {} && forall i :: i in futures ==> futures[i] != Open
    {
      StepKeepsConsistency(Snapshot(), Stop);
      ghost var after := Step(Snapshot(), Stop);
      if running {
        StoppedSettles(Snapshot());
        running := false;
        var todo := pending;
        while todo != {}
          invariant !running && todo <= pending == old(pending)
          invariant futures.Keys == old(futures).Keys
          invariant forall i :: i in futures ==>
                      futures[i] == if i in pending && i !in todo then Drop(old(futures)[i]) else old(futures)[i]
          decreases todo
        {
          var i :| i in todo;
          assert Fits(old(Snapshot()), i);
          if futures[i] == Open {
            futures := futures[i := Dropped];
          }
          todo := todo - {i};
        }
        pending := {};
        assert futures == after.futures;
      }
      assert Snapshot() == after;
    }
  }

  function AfterLines(s: State, lines: seq<Wire>): State {
    if lines == [] then s else OnLine(AfterLines(s, lines[..|lines| - 1]), lines[|lines| - 1])
  }
}
