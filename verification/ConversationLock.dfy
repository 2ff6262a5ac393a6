/**
 Get-or-create under a per-chat lock, with a timeout escape (src/chatwoot/integration.py).
 A step is what one task does between two awaits. Fetching the lock object never suspends: nothing
 awaits while the creation mutex is held. The cache is seen as the map of what `get` would return;
 `Lose` is an expiry or an eviction. `Close` forgets the lock table, so that a chat gets a new lock
 while tasks still hold the old one.
 */
module ConversationLock {
  import opened Wrappers

  type TaskId = nat

  datatype Phase =
    | Waiting                                  // awaiting the lock
    | Calling                                  // awaiting the client
    | Returned(conversation: int, viaClient: bool)
    | Raised

  /** The lock object made for a chat since the table was last cleared. */
  datatype Lock = Lock(jid: string, generation: nat)

  datatype Task = Task(lock: Lock, contact: int, timedOut: bool, phase: Phase)

  datatype State = State(
    tasks: map<TaskId, Task>,
    generation: nat,
    held: map<Lock, TaskId>,
    cache: map<int, int>,
    losses: map<int, nat>)

  datatype Action =
    | Start(task: TaskId, jid: string, contact: int)
    | Acquire(task: TaskId)
    | TimeOut(task: TaskId)
    | ClientReturns(task: TaskId, conversation: int)
    | ClientRaises(task: TaskId)
    | Cancel(task: TaskId)
    | Lose(contact: int)
    | Close

  const INIT := State(map[], 0, map[], map[], map[])

  predicate Enabled(s: State, a: Action) {
    match a
    case Start(i, _, _) => i !in s.tasks
    case Acquire(i) => i in s.tasks && s.tasks[i].phase.Waiting? && s.tasks[i].lock !in s.held
    case TimeOut(i) => i in s.tasks && s.tasks[i].phase.Waiting?
    case ClientReturns(i, _) => i in s.tasks && s.tasks[i].phase.Calling?
    case ClientRaises(i) => i in s.tasks && s.tasks[i].phase.Calling?
    case Cancel(i) => i in s.tasks && (s.tasks[i].phase.Waiting? || s.tasks[i].phase.Calling?)
    case Lose(c) => c in s.cache
    case Close => true
  }

  function Losses(s: State, c: int): nat {
    if c in s.losses then s.losses[c] else 0
  }

  function Move(s: State, i: TaskId, phase: Phase): State
    requires i in s.tasks
  {
    s.(tasks := s.tasks[i := s.tasks[i].(phase := phase)])
  }

  /** The `finally` clause. */
  function Release(s: State, i: TaskId): State
    requires i in s.tasks
  {
    if s.tasks[i].phase.Calling? && !s.tasks[i].timedOut then s.(held := s.held - {s.tasks[i].lock}) else s
  }

  function Step(s: State, a: Action): State
    requires Enabled(s, a)
  {
    match a
    case Start(i, jid, c) => s.(tasks := s.tasks[i := Task(Lock(jid, s.generation), c, false, Waiting)])
    case Acquire(i) =>
      var t := s.tasks[i];
      if t.contact in s.cache then Move(s, i, Returned(s.cache[t.contact], false))
      else Move(s, i, Calling).(held := s.held[t.lock := i])
    case TimeOut(i) =>
      var t := s.tasks[i];
      var late := s.(tasks := s.tasks[i := t.(timedOut := true)]);
      if t.contact in s.cache then Move(late, i, Returned(s.cache[t.contact], false)) else Move(late, i, Calling)
    case ClientReturns(i, conversation) =>
      Move(Release(s, i), i, Returned(conversation, true)).(cache := s.cache[s.tasks[i].contact := conversation])
    case ClientRaises(i) => Move(Release(s, i), i, Raised)
    case Cancel(i) => Move(Release(s, i), i, Raised)
    case Lose(c) => s.(cache := s.cache - {c}, losses := s.losses[c := Losses(s, c) + 1])
    case Close =>
      s.(generation := s.generation + 1, cache := map[],
         losses := map c | c in s.losses.Keys + s.cache.Keys :: Losses(s, c) + if c in s.cache then 1 else 0)
  }

  function Run(actions: seq<Action>): Option<State> {
    if actions == [] then Some(INIT)
    else
      var before := Run(actions[..|actions| - 1]);
      if before.Some? && Enabled(before.value, actions[|actions| - 1])
      then Some(Step(before.value, actions[|actions| - 1])) else None
  }

  // ---- The lock ----

  predicate Holds(t: Task) {
    t.phase.Calling? && !t.timedOut
  }

  ghost predicate LockFits(s: State, lock: Lock) {
    lock in s.held ==> s.held[lock] in s.tasks && s.tasks[s.held[lock]].lock == lock && Holds(s.tasks[s.held[lock]])
  }

  ghost predicate HolderFits(s: State, i: TaskId) {
    i in s.tasks ==>
      && (Holds(s.tasks[i]) ==> s.tasks[i].lock in s.held && s.held[s.tasks[i].lock] == i)
      && (s.tasks[i].phase.Waiting? ==> !s.tasks[i].timedOut)
  }

  /** A lock is held exactly while the one task that took it is inside the client. */
  ghost predicate LocksFit(s: State) {
    (forall lock: Lock :: LockFits(s, lock)) && (forall i: TaskId :: HolderFits(s, i))
  }

  lemma StepKeepsHolder(s: State, a: Action, i: TaskId)
    requires LocksFit(s) && Enabled(s, a)
    ensures HolderFits(Step(s, a), i)
  {
    assert HolderFits(s, i);
    if !a.Lose? && !a.Close? {
      assert HolderFits(s, a.task);
    }
    hide LocksFit;
  }

  lemma StepKeepsLock(s: State, a: Action, lock: Lock)
    requires LocksFit(s) && Enabled(s, a)
    ensures LockFits(Step(s, a), lock)
  {
    assert LockFits(s, lock);
    if !a.Lose? && !a.Close? && !a.Start? {
      assert HolderFits(s, a.task);
      assert LockFits(s, s.tasks[a.task].lock);
    }
    hide LocksFit;
  }

  lemma StepKeepsLocks(s: State, a: Action)
    requires LocksFit(s) && Enabled(s, a)
    ensures LocksFit(Step(s, a))
  {
    hide LockFits, HolderFits, Step;
    forall i: TaskId ensures HolderFits(Step(s, a), i) {
      StepKeepsHolder(s, a, i);
    }
    forall lock: Lock ensures LockFits(Step(s, a), lock) {
      StepKeepsLock(s, a, lock);
    }
  }

  // ---- Counting client calls for one contact ----

  /** The successful client calls: each task makes at most one. */
  function Reached(s: State, c: int): set<TaskId> {
    set i | i in s.tasks && s.tasks[i].contact == c && s.tasks[i].phase.Returned? && s.tasks[i].phase.viaClient
  }

  function TimedOut(s: State, c: int): set<TaskId> {
    set i | i in s.tasks && s.tasks[i].contact == c && s.tasks[i].timedOut
  }

  /** Those of them that were not given a conversation straight away. */
  function Strays(s: State, c: int): set<TaskId> {
    set i | i in TimedOut(s, c) && !(s.tasks[i].phase.Returned? && !s.tasks[i].phase.viaClient)
  }

  /** Those made while holding one of these locks. */
  function ReachedUnder(s: State, c: int, locks: set<Lock>): set<TaskId> {
    set i | i in Reached(s, c) && !s.tasks[i].timedOut && s.tasks[i].lock in locks
  }

  /** The locks the tasks of a contact go through. */
  function LocksOf(s: State, c: int): set<Lock> {
    set i | i in s.tasks && s.tasks[i].contact == c :: s.tasks[i].lock
  }

  ghost predicate SomeoneCalls(s: State, lock: Lock, c: int) {
    lock in s.held && s.held[lock] in s.tasks && s.tasks[s.held[lock]].contact == c
  }

  /**
   Calls made under one lock: none is wasted. While a holder is inside the client, or while nothing
   is cached, there is at least one loss for every call already made.
   */
  ghost predicate Frugal(s: State, lock: Lock, c: int) {
    && |ReachedUnder(s, c, {lock})| <= 1 + Losses(s, c)
    && (SomeoneCalls(s, lock, c) || c !in s.cache ==> |ReachedUnder(s, c, {lock})| <= Losses(s, c))
  }

  lemma ReachedStep(s: State, a: Action, c: int, lock: Lock)
    requires Enabled(s, a)
    ensures
      ReachedUnder(Step(s, a), c, {lock}) ==
      if a.ClientReturns? && s.tasks[a.task].contact == c && !s.tasks[a.task].timedOut && s.tasks[a.task].lock == lock
      then ReachedUnder(s, c, {lock}) + {a.task} else ReachedUnder(s, c, {lock})
  {
    var s' := Step(s, a);
    forall i
      ensures i in ReachedUnder(s', c, {lock}) <==>
                i in ReachedUnder(s, c, {lock})
                || (a.ClientReturns? && i == a.task && s.tasks[i].contact == c && !s.tasks[i].timedOut
                      && s.tasks[i].lock == lock)
    {
    }
  }

  /** A holder for `c` can only appear, and the cache entry of `c` only vanish, as the bound allows. */
  lemma CallersAppear(s: State, a: Action, lock: Lock, c: int)
    requires LocksFit(s) && Enabled(s, a) && !a.Lose? && !a.Close? && !a.ClientReturns?
    ensures SomeoneCalls(Step(s, a), lock, c) ==> SomeoneCalls(s, lock, c) || c !in s.cache
    ensures Step(s, a).cache == s.cache && Step(s, a).losses == s.losses
  {
    assert LockFits(s, lock);
  }

  lemma ReturnFreesLock(s: State, i: TaskId, conversation: int, lock: Lock, c: int)
    requires LocksFit(s) && Enabled(s, ClientReturns(i, conversation))
    ensures
      var s', t := Step(s, ClientReturns(i, conversation)), s.tasks[i];
      && s'.losses == s.losses && s'.cache == s.cache[t.contact := conversation]
      && (t.contact == c && !t.timedOut && t.lock == lock ==> SomeoneCalls(s, lock, c) && !SomeoneCalls(s', lock, c))
      && (SomeoneCalls(s', lock, c) ==> SomeoneCalls(s, lock, c))
  {
    assert HolderFits(s, i);
    assert LockFits(s, lock);
  }

  lemma LossKeepsCallers(s: State, a: Action, lock: Lock, c: int)
    requires Enabled(s, a) && (a.Lose? || a.Close?)
    ensures
      var s' := Step(s, a);
      && SomeoneCalls(s', lock, c) == SomeoneCalls(s, lock, c)
      && (Losses(s', c) == if c in s.cache && c !in s'.cache then Losses(s, c) + 1 else Losses(s, c))
      && (c in s'.cache ==> c in s.cache && s'.cache[c] == s.cache[c])
  {
  }

  lemma StepStaysFrugal(s: State, a: Action, lock: Lock, c: int)
    requires LocksFit(s) && Enabled(s, a) && Frugal(s, lock, c)
    ensures Frugal(Step(s, a), lock, c)
  {
    hide ReachedUnder, LocksFit, SomeoneCalls, Step;
    ReachedStep(s, a, c, lock);
    match a {
      case Lose(_) => LossKeepsCallers(s, a, lock, c);
      case Close => LossKeepsCallers(s, a, lock, c);
      case ClientReturns(i, conversation) => ReturnFreesLock(s, i, conversation, lock, c);
      case _ => CallersAppear(s, a, lock, c);
    }
  }

  lemma {:induction false} AlwaysFrugal(actions: seq<Action>, lock: Lock, c: int)
    requires Run(actions).Some?
    ensures LocksFit(Run(actions).value) && Frugal(Run(actions).value, lock, c)
  {
    if actions == [] {
      assert ReachedUnder(INIT, c, {lock}) == {};
    } else {
      hide Step, Enabled, LocksFit, Frugal;
      var before, last := Run(actions[..|actions| - 1]).value, actions[|actions| - 1];
      AlwaysFrugal(actions[..|actions| - 1], lock, c);
      StepKeepsLocks(before, last);
      StepStaysFrugal(before, last, lock, c);
    }
  }

  lemma SubsetSize<T>(small: set<T>, large: set<T>)
    requires small <= large
    ensures |small| <= |large|
  {
    assert large == small + (large - small);
  }

  lemma {:induction false} UnderLocksBounded(actions: seq<Action>, c: int, locks: set<Lock>)
    requires Run(actions).Some?
    ensures
      var s := Run(actions).value;
      |ReachedUnder(s, c, locks)| <= |locks| * (1 + Losses(s, c))
  {
    hide Run, Losses, Reached;
    var s := Run(actions).value;
    if locks == {} {
      assert ReachedUnder(s, c, locks) == {};
    } else {
      var lock :| lock in locks;
      var rest := locks - {lock};
      UnderLocksBounded(actions, c, rest);
      AlwaysFrugal(actions, lock, c);
      assert ReachedUnder(s, c, locks) == ReachedUnder(s, c, rest) + ReachedUnder(s, c, {lock});
      assert |locks| == |rest| + 1;
      assert |locks| * (1 + Losses(s, c)) == |rest| * (1 + Losses(s, c)) + (1 + Losses(s, c));
    }
  }

  // ---- Looking into the cache ----

  /** Action `k` of a run is where the task, having got the lock or given up waiting for it, looks into the cache. */
  ghost predicate Looks(actions: seq<Action>, k: nat, i: TaskId, late: bool) {
    && k < |actions| && actions[k] == (if late then TimeOut(i) else Acquire(i))
    && Run(actions[..k]).Some? && i in Run(actions[..k]).value.tasks
  }

  /** What it finds there. */
  ghost function Found(actions: seq<Action>, k: nat, i: TaskId, late: bool): Option<int>
    requires Looks(actions, k, i, late)
  {
    var s := Run(actions[..k]).value;
    Lookup(s.cache, s.tasks[i].contact)
  }

  /** The task is where its look into the cache has sent it. */
  ghost predicate WellSent(actions: seq<Action>, t: Task, i: TaskId) {
    match t.phase
    case Waiting => true
    case Calling => exists k: nat :: Looks(actions, k, i, t.timedOut) && Found(actions, k, i, t.timedOut) == None
    case Returned(conversation, true) =>
      && (exists k: nat :: Looks(actions, k, i, t.timedOut) && Found(actions, k, i, t.timedOut) == None)
      && ClientReturns(i, conversation) in actions
    case Returned(conversation, false) =>
      exists k: nat :: Looks(actions, k, i, t.timedOut) && Found(actions, k, i, t.timedOut) == Some(conversation)
    case Raised =>
      t.timedOut ==> exists k: nat :: Looks(actions, k, i, true) && Found(actions, k, i, true) == None
  }

  lemma LooksStill(actions: seq<Action>, a: Action, k: nat, i: TaskId, late: bool)
    requires Looks(actions, k, i, late)
    ensures Looks(actions + [a], k, i, late) && Found(actions + [a], k, i, late) == Found(actions, k, i, late)
  {
    assert (actions + [a])[..k] == actions[..k];
  }

  lemma SentStill(actions: seq<Action>, a: Action, t: Task, i: TaskId)
    requires WellSent(actions, t, i)
    ensures WellSent(actions + [a], t, i)
  {
    hide Looks, Found;
    forall k: nat, late: bool | Looks(actions, k, i, late)
      ensures Looks(actions + [a], k, i, late) && Found(actions + [a], k, i, late) == Found(actions, k, i, late)
    {
      LooksStill(actions, a, k, i, late);
    }
  }

  /** The last action is such a look if it is the task's own. */
  lemma LooksNow(actions: seq<Action>, a: Action, i: TaskId)
    requires Run(actions).Some? && Enabled(Run(actions).value, a) && (a == TimeOut(i) || a == Acquire(i))
    ensures
      var s := Run(actions).value;
      && Looks(actions + [a], |actions|, i, a.TimeOut?)
      && Found(actions + [a], |actions|, i, a.TimeOut?) == Lookup(s.cache, s.tasks[i].contact)
  {
    assert (actions + [a])[..|actions|] == actions;
  }

  lemma StepSends(actions: seq<Action>, a: Action, i: TaskId)
    requires Run(actions).Some? && Enabled(Run(actions).value, a) && LocksFit(Run(actions).value)
    requires i in Run(actions).value.tasks ==> WellSent(actions, Run(actions).value.tasks[i], i)
    requires i in Step(Run(actions).value, a).tasks
    ensures WellSent(actions + [a], Step(Run(actions).value, a).tasks[i], i)
  {
    hide Run, Looks, Found, LocksFit;
    var s := Run(actions).value;
    if i in s.tasks {
      SentStill(actions, a, s.tasks[i], i);
      assert HolderFits(s, i) by { Fitting(s, i); }
    }
    if a == TimeOut(i) || a == Acquire(i) {
      LooksNow(actions, a, i);
    }
  }

  lemma Fitting(s: State, i: TaskId)
    requires LocksFit(s)
    ensures HolderFits(s, i)
  {
  }

  /**
   In every run a task is in the client, or returned from it, only after it found nothing cached for its
   contact when it got the lock or timed out; a task that returned without the client got what it found.
   */
  lemma {:induction false} AlwaysWellSent(actions: seq<Action>, i: TaskId)
    requires Run(actions).Some? && i in Run(actions).value.tasks
    ensures WellSent(actions, Run(actions).value.tasks[i], i)
  {
    hide Step, Enabled, WellSent, LocksFit;
    if actions != [] {
      var before, last := actions[..|actions| - 1], actions[|actions| - 1];
      assert before + [last] == actions;
      AlwaysLocked(before);
      if i in Run(before).value.tasks {
        AlwaysWellSent(before, i);
      }
      StepSends(before, last, i);
    }
  }

  /** The tasks of a contact that timed out waiting for the lock and found nothing cached then. */
  ghost function EmptyHanded(actions: seq<Action>, c: int): set<TaskId>
    requires Run(actions).Some?
  {
    set i | i in TimedOut(Run(actions).value, c)
            && exists k: nat :: Looks(actions, k, i, true) && Found(actions, k, i, true) == None
  }

  /**
   In every interleaving, the successful client calls for a contact number at most the locks its tasks
   go through (one per chat and clearing of the lock table) times one plus the losses of its cache
   entry, plus the tasks that timed out waiting for a lock when nothing was cached.
   */
  lemma ClientCallsBounded(actions: seq<Action>, c: int)
    requires Run(actions).Some?
    ensures
      var s := Run(actions).value;
      |Reached(s, c)| <= |LocksOf(s, c)| * (1 + Losses(s, c)) + |EmptyHanded(actions, c)|
  {
    hide Run, Losses, Looks, Found;
    var s := Run(actions).value;
    UnderLocksBounded(actions, c, LocksOf(s, c));
    var loose := Reached(s, c) - ReachedUnder(s, c, LocksOf(s, c));
    forall i | i in loose ensures i in EmptyHanded(actions, c) {
      AlwaysWellSent(actions, i);
    }
    SubsetSize(loose, EmptyHanded(actions, c));
    assert Reached(s, c) == ReachedUnder(s, c, LocksOf(s, c)) + loose;
  }

  /** Through one lock: one call, plus the timeouts that found nothing cached, plus the losses. */
  lemma OneLockBound(actions: seq<Action>, c: int)
    requires Run(actions).Some? && |LocksOf(Run(actions).value, c)| <= 1
    ensures
      var s := Run(actions).value;
      |Reached(s, c)| <= 1 + |EmptyHanded(actions, c)| + Losses(s, c)
  {
    hide Run, LocksOf, Losses, Reached, EmptyHanded;
    ClientCallsBounded(actions, c);
  }

  // ---- One conversation for everybody ----

  /** All tasks for contact `c` go through this lock. */
  ghost predicate Dedicated(s: State, lock: Lock, c: int) {
    forall i :: i in s.tasks && s.tasks[i].contact == c ==> s.tasks[i].lock == lock
  }

  /** Without losses and strays every caller is given the one cached conversation. */
  ghost predicate Unanimous(s: State, lock: Lock, c: int) {
    Losses(s, c) == 0 && Strays(s, c) == {} ==>
      && (SomeoneCalls(s, lock, c) ==> c !in s.cache)
      && forall i :: i in s.tasks && s.tasks[i].contact == c && s.tasks[i].phase.Returned? ==>
           c in s.cache && s.tasks[i].phase.conversation == s.cache[c]
  }

  lemma StraysGrow(s: State, a: Action, c: int)
    requires LocksFit(s) && Enabled(s, a)
    ensures Strays(s, c) <= Strays(Step(s, a), c) && Losses(s, c) <= Losses(Step(s, a), c)
  {
    forall i | i in Strays(s, c) ensures i in Strays(Step(s, a), c) {
      assert HolderFits(s, i);
    }
  }

  lemma StepStaysUnanimous(s: State, a: Action, lock: Lock, c: int)
    requires LocksFit(s) && Enabled(s, a) && Dedicated(s, lock, c)
    requires Unanimous(s, lock, c)
    ensures Unanimous(Step(s, a), lock, c)
  {
    StraysGrow(s, a, c);
    if Losses(Step(s, a), c) == 0 && Strays(Step(s, a), c) == {} {
      if a.ClientReturns? {
        var i := a.task;
        ReturnFreesLock(s, i, a.conversation, lock, c);
        assert s.tasks[i].contact == c ==> i !in Strays(s, c);
      } else if a.Lose? || a.Close? {
        LossKeepsCallers(s, a, lock, c);
      } else {
        CallersAppear(s, a, lock, c);
      }
      hide LocksFit, SomeoneCalls;
    }
  }

  lemma EveryTaskDedicated(s: State, a: Action, lock: Lock, c: int)
    requires Enabled(s, a) && Dedicated(Step(s, a), lock, c)
    ensures Dedicated(s, lock, c)
  {
    forall i | i in s.tasks && s.tasks[i].contact == c
      ensures s.tasks[i].lock == lock
    {
      assert i in Step(s, a).tasks;
    }
  }

  lemma {:induction false} AlwaysUnanimous(actions: seq<Action>, lock: Lock, c: int)
    requires Run(actions).Some? && Dedicated(Run(actions).value, lock, c)
    ensures Unanimous(Run(actions).value, lock, c)
  {
    if actions != [] {
      hide Step, Enabled, LocksFit, Unanimous, Dedicated;
      var before, last := Run(actions[..|actions| - 1]).value, actions[|actions| - 1];
      EveryTaskDedicated(before, last, lock, c);
      AlwaysUnanimous(actions[..|actions| - 1], lock, c);
      AlwaysLocked(actions[..|actions| - 1]);
      StepStaysUnanimous(before, last, lock, c);
    }
  }

  lemma StraysFoundNothing(actions: seq<Action>, c: int)
    requires Run(actions).Some?
    ensures Strays(Run(actions).value, c) <= EmptyHanded(actions, c)
  {
    hide Run, Looks, Found;
    forall i | i in Strays(Run(actions).value, c) ensures i in EmptyHanded(actions, c) {
      AlwaysWellSent(actions, i);
      NeverLateAndWaiting(actions, i);
    }
  }

  lemma NeverLateAndWaiting(actions: seq<Action>, i: TaskId)
    requires Run(actions).Some? && i in Run(actions).value.tasks
    ensures Run(actions).value.tasks[i].phase.Waiting? ==> !Run(actions).value.tasks[i].timedOut
  {
    AlwaysLocked(actions);
    assert HolderFits(Run(actions).value, i);
  }

  /**
   If nobody timed out while nothing was cached, and nothing was lost, everybody who went through the one
   lock, or gave up waiting for it, got the same conversation.
   */
  lemma OneConversation(actions: seq<Action>, lock: Lock, c: int, i: TaskId, j: TaskId)
    requires Run(actions).Some? && Dedicated(Run(actions).value, lock, c)
    requires
      var s := Run(actions).value;
      && Losses(s, c) == 0 && EmptyHanded(actions, c) == {}
      && i in s.tasks && j in s.tasks && s.tasks[i].contact == s.tasks[j].contact == c
      && s.tasks[i].phase.Returned? && s.tasks[j].phase.Returned?
    ensures
      var s := Run(actions).value;
      s.tasks[i].phase.conversation == s.tasks[j].phase.conversation
  {
    hide EmptyHanded;
    StraysFoundNothing(actions, c);
    AlwaysUnanimous(actions, lock, c);
  }

  /** A lock never outlives its use: once no task of it is inside the client, it is free. */
  lemma NoLockIsLeaked(actions: seq<Action>, lock: Lock)
    requires Run(actions).Some?
    requires forall i :: i in Run(actions).value.tasks && Run(actions).value.tasks[i].lock == lock ==>
                           !Run(actions).value.tasks[i].phase.Calling?
    ensures lock !in Run(actions).value.held
  {
    AlwaysLocked(actions);
    assert LockFits(Run(actions).value, lock);
  }

  lemma {:induction false} AlwaysLocked(actions: seq<Action>)
    requires Run(actions).Some?
    ensures LocksFit(Run(actions).value)
  {
    if actions != [] {
      hide Step, Enabled, LocksFit;
      AlwaysLocked(actions[..|actions| - 1]);
      StepKeepsLocks(Run(actions[..|actions| - 1]).value, actions[|actions| - 1]);
    }
  }

  lemma RunOne(actions: seq<Action>, a: Action)
    requires Run(actions).Some? && Enabled(Run(actions).value, a)
    ensures Run(actions + [a]) == Some(Step(Run(actions).value, a))
  {
    assert (actions + [a])[..|actions|] == actions;
  }

  const BOTH_CALLING := [Start(0, "a", 7), Start(1, "b", 7), Acquire(0), Acquire(1)]

  lemma BothCall()
    ensures Run(BOTH_CALLING).Some?
    ensures
      var s := Run(BOTH_CALLING).value;
      && s.tasks == map[0 := Task(Lock("a", 0), 7, false, Calling), 1 := Task(Lock("b", 0), 7, false, Calling)]
      && s.held == map[Lock("a", 0) := 0, Lock("b", 0) := 1] && s.cache == map[] && s.losses == map[]
  {
    var a1 := [] + [Start(0, "a", 7)];
    RunOne([], Start(0, "a", 7));
    RunOne(a1, Start(1, "b", 7));
    var a2 := a1 + [Start(1, "b", 7)];
    hide Run;
    var t0, t1 := Task(Lock("a", 0), 7, false, Waiting), Task(Lock("b", 0), 7, false, Waiting);
    assert Run(a2).value.tasks == map[0 := t0, 1 := t1];
    RunOne(a2, Acquire(0));
    var a3 := a2 + [Acquire(0)];
    assert Run(a3).value.tasks == map[0 := t0.(phase := Calling), 1 := t1];
    RunOne(a3, Acquire(1));
    assert a2 + [Acquire(0)] + [Acquire(1)] == BOTH_CALLING;
  }

  /** Two chats that resolve to one contact have two locks: neither timeout nor loss, yet two calls. */
  lemma TwoChatsCallTwice()
    ensures exists actions ::
      && Run(actions).Some?
      && |Reached(Run(actions).value, 7)| == 2
      && TimedOut(Run(actions).value, 7) == {} && Losses(Run(actions).value, 7) == 0
  {
    hide Run;
    BothCall();
    RunOne(BOTH_CALLING, ClientReturns(0, 100));
    var once := BOTH_CALLING + [ClientReturns(0, 100)];
    RunOne(once, ClientReturns(1, 200));
    var s := Run(once + [ClientReturns(1, 200)]).value;
    assert s.tasks == map[0 := Task(Lock("a", 0), 7, false, Returned(100, true)),
                          1 := Task(Lock("b", 0), 7, false, Returned(200, true))];
    assert Reached(s, 7) == {0, 1};
  }
}
