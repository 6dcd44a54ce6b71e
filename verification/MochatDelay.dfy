/** Mochat's delayed delivery: messages are buffered per target and flushed by a mention or a timer
    (nanobot/channels/mochat.py). */
module MochatDelay {
  import opened Prelude

  /** A buffered message; it is only stored and handed on. */
  type Entry(==, !new) = string

  /** The tasks of one target. A timer sleeps, then queues for the lock. A task that holds the lock goes
      through its protected block in steps. */
  datatype Task =
    | Sleeping
    | TimerQueued
    | EnqueueQueued(entry: Entry)
    | MentionQueued(entry: Entry)
    | EnqueueHolds(entry: Entry)
    | EnqueueAppended
    | EnqueueRearming
    | FlushHolds(own: Option<Entry>)
    | FlushAppended
    | FlushDisarmed
    | Done
    | Cancelled
  {
    /** A timer that can still fire. */
    predicate Live() {
      Sleeping? || TimerQueued?
    }

    predicate Holder() {
      EnqueueHolds? || EnqueueAppended? || EnqueueRearming? || FlushHolds? || FlushAppended? || FlushDisarmed?
    }
  }

  /** One target. Task ids are below |tasks|. `arrivals` logs the entries in the order they were buffered,
      `batches` the batches in the order they were cut off the buffer, `handed` the batches in the order they
      were passed to dispatch, `dropped` those discarded by stop. */
  datatype State = State(
    entries: seq<Entry>,
    timer: Option<nat>,
    lock: Option<nat>,
    tasks: seq<Task>,
    arrivals: seq<Entry>,
    batches: seq<seq<Entry>>,
    handed: seq<nat>,
    dropped: set<nat>)

  const INITIAL := State([], None, None, [], [], [], [], {})

  datatype Event =
    | ArriveForDelay(entry: Entry)
    | ArriveWithMention(entry: Entry)
    | Wake(task: nat)
    | Acquire(task: nat)
    | Advance(task: nat)
    | Stop

  /** task.cancel(): a finished task is unaffected, anything else dies at its next suspension. */
  function CancelTask(t: Task): Task {
    if t.Done? then Done else Cancelled
  }

  /** Cancel the remembered timer unless it is `self`. */
  function CancelTimer(s: State, self: Option<nat>): State {
    if s.timer.Some? && s.timer != self && s.timer.value < |s.tasks| then
      s.(tasks := s.tasks[s.timer.value := CancelTask(s.tasks[s.timer.value])])
    else s
  }

  function SetTask(s: State, t: nat, to: Task): State
    requires t < |s.tasks|
  {
    s.(tasks := s.tasks[t := to])
  }

  /** One step of the block that the lock protects. */
  function AdvanceStep(s: State, t: nat): State
    requires t < |s.tasks|
  {
    match s.tasks[t]
    case EnqueueHolds(e) =>
      SetTask(s.(entries := s.entries + [e], arrivals := s.arrivals + [e]), t, EnqueueAppended)
    case EnqueueAppended => SetTask(CancelTimer(s, None), t, EnqueueRearming)
    case EnqueueRearming =>
      s.(tasks := s.tasks[t := Done] + [Sleeping], timer := Some(|s.tasks|), lock := None)
    case FlushHolds(Some(e)) =>
      SetTask(s.(entries := s.entries + [e], arrivals := s.arrivals + [e]), t, FlushAppended)
    case FlushHolds(None) => SetTask(s, t, FlushAppended)
    case FlushAppended => SetTask(CancelTimer(s, Some(t)).(timer := None), t, FlushDisarmed)
    case FlushDisarmed =>
      // The lock is released and the batch put on the bus's unbounded queue without a suspension in between.
      if s.entries == [] then SetTask(s, t, Done).(lock := None)
      else
        SetTask(s, t, Done).(
          batches := s.batches + [s.entries], handed := s.handed + [|s.batches|], entries := [], lock := None)
    case _ => s
  }

  /** Dropping the buffer as one more batch. */
  function DropBuffer(s: State): State {
    s.(timer := None, entries := [],
       batches := if s.entries == [] then s.batches else s.batches + [s.entries],
       dropped := if s.entries == [] then s.dropped else s.dropped + {|s.batches|})
  }

  /** An event that is not enabled leaves the state as it is. */
  function Step(s: State, e: Event): State {
    match e
    case ArriveForDelay(entry) => s.(tasks := s.tasks + [EnqueueQueued(entry)])
    case ArriveWithMention(entry) => s.(tasks := s.tasks + [MentionQueued(entry)])
    case Wake(t) => if t < |s.tasks| && s.tasks[t].Sleeping? then SetTask(s, t, TimerQueued) else s
    case Acquire(t) =>
      if t >= |s.tasks| || s.lock.Some? then s
      else (
        match s.tasks[t]
        case EnqueueQueued(entry) => SetTask(s, t, EnqueueHolds(entry)).(lock := Some(t))
        case MentionQueued(entry) => SetTask(s, t, FlushHolds(Some(entry))).(lock := Some(t))
        case TimerQueued => SetTask(s, t, FlushHolds(None)).(lock := Some(t))
        case _ => s)
    case Advance(t) => if s.lock == Some(t) && t < |s.tasks| then AdvanceStep(s, t) else s
    case Stop =>
      // The source cancels the timer and forgets the buffer without suspending, so no block is half done.
      if s.lock.Some? then s
      else
        DropBuffer(CancelTimer(s, None))
  }

  function Run(s: State, events: seq<Event>): State
    decreases |events|
  {
    if events == [] then s else Run(Step(s, events[0]), events[1..])
  }

  /* ---------- the invariant ---------- */

  /** The task inside the protected block, or Done when the lock is free. */
  function Holding(s: State): Task {
    if s.lock.Some? && s.lock.value < |s.tasks| then s.tasks[s.lock.value] else Done
  }

  predicate LiveIsRemembered(s: State) {
    forall t :: 0 <= t < |s.tasks| && s.tasks[t].Live() ==> s.timer == Some(t)
  }

  /** Timers: one that can still fire is the remembered one; and the remembered one can fire, except between
      the steps of the block that is about to replace or clear it. */
  predicate TimersOk(s: State) {
    && LiveIsRemembered(s)
    && (s.timer.Some? ==>
          && s.timer.value < |s.tasks|
          && var t := s.tasks[s.timer.value];
             || t.Live()
             || (s.lock == s.timer && (t == FlushHolds(None) || t == FlushAppended))
             || (t.Cancelled? && Holding(s) == EnqueueRearming))
    && (Holding(s) == FlushDisarmed ==> s.timer == None)
    && (Holding(s) == EnqueueRearming && s.timer.Some? ==> s.tasks[s.timer.value] == Cancelled)
    && (s.lock == None && s.entries != [] ==> s.timer.Some?)
  }

  predicate LockOk(s: State) {
    forall t :: 0 <= t < |s.tasks| ==> (s.tasks[t].Holder() <==> s.lock == Some(t))
  }

  predicate LockInRange(s: State) {
    s.lock.Some? ==> s.lock.value < |s.tasks|
  }

  /** The batches that were not dropped, in order. */
  function Undropped(n: nat, dropped: set<nat>): seq<nat> {
    if n == 0 then [] else Undropped(n - 1, dropped) + if n - 1 in dropped then [] else [n - 1]
  }

  predicate Increasing(s: seq<nat>) {
    forall i, j :: 0 <= i < j < |s| ==> s[i] < s[j]
  }

  lemma {:induction false} UndroppedAre(n: nat, dropped: set<nat>, k: nat)
    ensures k in Undropped(n, dropped) <==> k < n && k !in dropped
  {
    if n == 0 {
    } else {
      UndroppedAre(n - 1, dropped, k);
    }
  }

  lemma {:induction false} IncreasingSnoc(s: seq<nat>, x: nat)
    requires Increasing(s) && forall i :: 0 <= i < |s| ==> s[i] < x
    ensures Increasing(s + [x])
  {
  }

  lemma {:induction false} UndroppedIsOrdered(n: nat, dropped: set<nat>)
    ensures Increasing(Undropped(n, dropped))
  {
    if n == 0 {
    } else {
      UndroppedIsOrdered(n - 1, dropped);
      hide Increasing;
      var earlier := Undropped(n - 1, dropped);
      forall i | 0 <= i < |earlier|
        ensures earlier[i] < n - 1
      {
        assert earlier[i] in earlier;
        UndroppedAre(n - 1, dropped, earlier[i]);
      }
      IncreasingSnoc(earlier, n - 1);
      assert earlier + [] == earlier;
    }
  }

  lemma {:induction false} NoneDropped(n: nat)
    ensures |Undropped(n, {})| == n && forall i :: 0 <= i < n ==> Undropped(n, {})[i] == i
  {
    if n == 0 {
    } else {
      NoneDropped(n - 1);
    }
  }

  /** Dropping a later batch does not change which of the earlier ones remain. */
  lemma {:induction false} DropLater(n: nat, dropped: set<nat>, k: nat)
    requires n <= k
    ensures Undropped(n, dropped + {k}) == Undropped(n, dropped)
  {
    if n == 0 {
    } else {
      DropLater(n - 1, dropped, k);
    }
  }

  /** Batches: none is empty, and all but the dropped ones have been handed to dispatch, in order. */
  predicate BatchesOk(s: State) {
    && (forall k :: k in s.dropped ==> k < |s.batches|)
    && s.handed == Undropped(|s.batches|, s.dropped)
    && (forall k :: 0 <= k < |s.batches| ==> s.batches[k] != [])
  }

  /** The batches, in the order they were cut, followed by the buffer, are the arrivals in order. */
  predicate Conserves(s: State) {
    s.arrivals == Flatten(s.batches) + s.entries
  }

  predicate Inv(s: State) {
    TimersOk(s) && LockInRange(s) && LockOk(s) && BatchesOk(s) && Conserves(s)
  }

  lemma {:induction false} ArrivalKeepsTimers(s: State, e: Event)
    requires TimersOk(s) && LockInRange(s) && LockOk(s)
    requires e.ArriveForDelay? || e.ArriveWithMention?
    ensures TimersOk(Step(s, e)) && LockInRange(Step(s, e)) && LockOk(Step(s, e))
  {
  }

  lemma {:induction false} WakeKeepsTimers(s: State, t: nat)
    requires TimersOk(s) && LockInRange(s) && LockOk(s)
    ensures TimersOk(Step(s, Wake(t))) && LockInRange(Step(s, Wake(t))) && LockOk(Step(s, Wake(t)))
  {
  }

  lemma {:induction false} AcquireKeepsTimers(s: State, t: nat)
    requires TimersOk(s) && LockInRange(s) && LockOk(s)
    ensures TimersOk(Step(s, Acquire(t))) && LockInRange(Step(s, Acquire(t))) && LockOk(Step(s, Acquire(t)))
  {
  }

  lemma {:induction false} QueueAndLockKeepInv(s: State, e: Event)
    requires Inv(s)
    requires e.ArriveForDelay? || e.ArriveWithMention? || e.Wake? || e.Acquire?
    ensures Inv(Step(s, e))
  {
    hide TimersOk, LockOk, BatchesOk, Conserves, Step;
    QueueAndLockKeepBatches(s, e);
    match e {
      case Wake(t) => WakeKeepsTimers(s, t);
      case Acquire(t) => AcquireKeepsTimers(s, t);
      case _ => ArrivalKeepsTimers(s, e);
    }
  }

  lemma {:induction false} QueueAndLockKeepBatches(s: State, e: Event)
    requires BatchesOk(s) && Conserves(s)
    requires e.ArriveForDelay? || e.ArriveWithMention? || e.Wake? || e.Acquire?
    ensures BatchesOk(Step(s, e)) && Conserves(Step(s, e))
  {
    hide Flatten, Undropped;
  }

  lemma {:induction false} AppendKeepsConservation(s: State, e: Entry)
    requires Conserves(s)
    ensures Conserves(s.(entries := s.entries + [e], arrivals := s.arrivals + [e]))
  {
    assert s.arrivals + [e] == Flatten(s.batches) + (s.entries + [e]);
  }

  lemma {:induction false} HolderHoldsLock(s: State, t: nat)
    requires LockInRange(s) && LockOk(s) && s.lock == Some(t)
    ensures t < |s.tasks| && s.tasks[t].Holder() && Holding(s) == s.tasks[t]
  {
  }

  lemma {:induction false} EnqueueKeepsTimers(s: State, t: nat)
    requires TimersOk(s) && LockInRange(s) && LockOk(s) && s.lock == Some(t)
    requires s.tasks[t].EnqueueHolds? || s.tasks[t].EnqueueAppended? || s.tasks[t].EnqueueRearming?
    ensures TimersOk(AdvanceStep(s, t)) && LockInRange(AdvanceStep(s, t)) && LockOk(AdvanceStep(s, t))
  {
    HolderHoldsLock(s, t);
    if s.tasks[t].EnqueueAppended? {
      assert s.timer.Some? ==> s.tasks[s.timer.value].Live();
    }
  }

  lemma {:induction false} FlushKeepsTimers(s: State, t: nat)
    requires TimersOk(s) && LockInRange(s) && LockOk(s) && s.lock == Some(t)
    requires s.tasks[t].FlushHolds? || s.tasks[t].FlushAppended? || s.tasks[t].FlushDisarmed?
    ensures TimersOk(AdvanceStep(s, t)) && LockInRange(AdvanceStep(s, t)) && LockOk(AdvanceStep(s, t))
  {
    HolderHoldsLock(s, t);
  }

  lemma {:induction false} AdvanceKeepsTimers(s: State, t: nat)
    requires TimersOk(s) && LockInRange(s) && LockOk(s) && s.lock == Some(t)
    ensures TimersOk(AdvanceStep(s, t)) && LockInRange(AdvanceStep(s, t)) && LockOk(AdvanceStep(s, t))
  {
    hide TimersOk, LockOk, AdvanceStep;
    assert s.tasks[t].Holder() by { HolderHoldsLock(s, t); }
    match s.tasks[t] {
      case EnqueueHolds(e) => EnqueueKeepsTimers(s, t);
      case EnqueueAppended => EnqueueKeepsTimers(s, t);
      case EnqueueRearming => EnqueueKeepsTimers(s, t);
      case _ => FlushKeepsTimers(s, t);
    }
  }

  lemma {:induction false} AdvanceKeepsInv(s: State, t: nat)
    requires Inv(s) && s.lock == Some(t) && t < |s.tasks|
    requires s.tasks[t] != FlushDisarmed || s.entries == []
    ensures Inv(AdvanceStep(s, t))
  {
    AdvanceKeepsTimers(s, t);
    hide TimersOk, LockOk;
    match s.tasks[t] {
      case EnqueueHolds(e) => AppendKeepsConservation(s, e);
      case FlushHolds(Some(e)) => AppendKeepsConservation(s, e);
      case _ =>
    }
  }

  lemma {:induction false} CutKeepsInv(s: State, t: nat)
    requires Inv(s) && s.lock == Some(t) && t < |s.tasks|
    requires s.tasks[t] == FlushDisarmed && s.entries != []
    ensures Inv(AdvanceStep(s, t))
  {
    AdvanceKeepsTimers(s, t);
    hide TimersOk, LockOk;
    FlattenSnoc(s.batches, s.entries);
  }

  lemma {:induction false} StopKeepsTimers(s: State)
    requires TimersOk(s) && LockInRange(s) && LockOk(s) && s.lock == None
    ensures TimersOk(Step(s, Stop)) && LockInRange(Step(s, Stop)) && LockOk(Step(s, Stop))
  {
  }

  lemma {:induction false} DropKeepsBatches(s: State)
    requires BatchesOk(s) && Conserves(s)
    ensures BatchesOk(DropBuffer(s)) && Conserves(DropBuffer(s))
  {
    FlattenSnoc(s.batches, s.entries);
    DropLater(|s.batches|, s.dropped, |s.batches|);
    hide Flatten;
  }

  lemma {:induction false} StopKeepsInv(s: State)
    requires Inv(s)
    ensures Inv(Step(s, Stop))
  {
    if s.lock == None {
      StopKeepsTimers(s);
      hide TimersOk, LockOk, Flatten;
      assert BatchesOk(CancelTimer(s, None)) && Conserves(CancelTimer(s, None));
      hide BatchesOk;
      DropKeepsBatches(CancelTimer(s, None));
    }
  }

  lemma {:induction false} StepKeepsInv(s: State, e: Event)
    requires Inv(s)
    ensures Inv(Step(s, e))
  {
    hide Inv;
    match e {
      case Advance(t) =>
        if s.lock == Some(t) && t < |s.tasks| {
          if s.tasks[t] == FlushDisarmed && s.entries != [] {
            CutKeepsInv(s, t);
          } else {
            AdvanceKeepsInv(s, t);
          }
        }
      case Stop => StopKeepsInv(s);
      case _ => QueueAndLockKeepInv(s, e);
    }
  }

  lemma {:induction false} InitialInv()
    ensures Inv(INITIAL)
  {
    assert Undropped(0, {}) == [];
  }

  lemma {:induction false} RunKeepsInv(s: State, events: seq<Event>)
    requires Inv(s)
    ensures Inv(Run(s, events))
    decreases |events|
  {
    if events == [] {
    } else {
      StepKeepsInv(s, events[0]);
      RunKeepsInv(Step(s, events[0]), events[1..]);
    }
  }

  /* ---------- what every interleaving guarantees ---------- */

  /** Over every interleaving: the batches partition the arrivals in order; the batches handed to dispatch are
      exactly those that no stop dropped, each once and in order. */
  lemma {:induction false} EveryEntryHandedOnce(events: seq<Event>)
    ensures var s := Run(INITIAL, events);
      && s.arrivals == Flatten(s.batches) + s.entries
      && Increasing(s.handed)
      && forall k :: k in s.handed <==> 0 <= k < |s.batches| && k !in s.dropped
  {
    hide TimersOk, LockOk, Step, Run;
    InitialInv();
    RunKeepsInv(INITIAL, events);
    var s := Run(INITIAL, events);
    UndroppedIsOrdered(|s.batches|, s.dropped);
    forall k: nat
      ensures k in s.handed <==> k < |s.batches| && k !in s.dropped
    {
      UndroppedAre(|s.batches|, s.dropped, k);
    }
  }

  function NumberOfStops(events: seq<Event>): nat {
    if events == [] then 0 else (if events[0].Stop? then 1 else 0) + NumberOfStops(events[1..])
  }

  lemma {:induction false} NoStopNoDrop(s: State, events: seq<Event>)
    requires NumberOfStops(events) == 0
    ensures Run(s, events).dropped == s.dropped
    decreases |events|
  {
    if events == [] {
    } else {
      NoStopNoDrop(Step(s, events[0]), events[1..]);
    }
  }

  /** Without a stop, the i-th batch handed to dispatch is the i-th batch: what was handed, in order, and what is
      still buffered are all the arrivals. */
  lemma {:induction false} WithoutStopAllHanded(events: seq<Event>)
    requires NumberOfStops(events) == 0
    ensures var s := Run(INITIAL, events);
      && s.arrivals == Flatten(s.batches) + s.entries
      && |s.handed| == |s.batches| && forall i :: 0 <= i < |s.handed| ==> s.handed[i] == i
  {
    hide TimersOk, LockOk, Step, Run;
    InitialInv();
    RunKeepsInv(INITIAL, events);
    NoStopNoDrop(INITIAL, events);
    var s := Run(INITIAL, events);
    NoneDropped(|s.batches|);
  }

  predicate Waiting(s: State) {
    s.lock == None && s.entries != []
  }

  /** Whenever the lock is free and something is buffered, exactly one timer can still fire. */
  lemma {:induction false} OneLiveTimer(events: seq<Event>)
    requires Waiting(Run(INITIAL, events))
    ensures var s := Run(INITIAL, events);
      && s.timer.Some? && s.timer.value < |s.tasks| && s.tasks[s.timer.value].Live()
      && forall t :: 0 <= t < |s.tasks| && s.tasks[t].Live() ==> t == s.timer.value
  {
    hide BatchesOk, Step;
    InitialInv();
    RunKeepsInv(INITIAL, events);
  }

  /** From there, letting that timer run its course empties the buffer into one handed batch. */
  lemma {:induction false} TimerDeliversBuffer(events: seq<Event>, t: nat)
    requires Waiting(Run(INITIAL, events)) && Run(INITIAL, events).timer == Some(t)
    ensures var s := Run(INITIAL, events);
            var s' := Run(s, [Wake(t), Acquire(t), Advance(t), Advance(t), Advance(t)]);
      && s'.entries == [] && s'.arrivals == s.arrivals && s'.timer == None
      && s'.batches == s.batches + [s.entries] && s'.handed == s.handed + [|s.batches|]
  {
    OneLiveTimer(events);
    FlushBySteps(Run(INITIAL, events), t);
  }

  lemma {:induction false} FlushBySteps(s: State, t: nat)
    requires Waiting(s) && t < |s.tasks| && s.tasks[t].Live() && s.timer == Some(t)
    ensures Run(s, [Wake(t), Acquire(t), Advance(t), Advance(t), Advance(t)])
         == s.(tasks := s.tasks[t := Done], timer := None, entries := [],
               batches := s.batches + [s.entries], handed := s.handed + [|s.batches|])
  {
    var s1 := SetTask(s, t, TimerQueued);
    assert Step(s, Wake(t)) == s1;
    FlushAsBlock(s1, t, None);
    hide Step;
    RunUnfolds(s, Wake(t), [Acquire(t), Advance(t), Advance(t), Advance(t)]);
    assert [Wake(t)] + [Acquire(t), Advance(t), Advance(t), Advance(t)]
        == [Wake(t), Acquire(t), Advance(t), Advance(t), Advance(t)];
    assert s.entries + [] == s.entries && s.arrivals + [] == s.arrivals && CancelTimer(s1, Some(t)) == s1;
    assert s1.tasks[t := Done] == s.tasks[t := Done];
  }

  lemma {:induction false} RunUnfolds(s: State, e: Event, rest: seq<Event>)
    ensures Run(s, [e] + rest) == Run(Step(s, e), rest)
  {
    assert ([e] + rest)[1..] == rest;
  }

  /* ---------- the buffer object ---------- */

  function Protected(s: State, t: nat): State {
    Run(s, [Acquire(t), Advance(t), Advance(t), Advance(t)])
  }

  /** The effect of the whole block when no other step comes in between. */
  lemma {:induction false} ProtectedUnfolds(s: State, t: nat)
    ensures Protected(s, t) == Step(Step(Step(Step(s, Acquire(t)), Advance(t)), Advance(t)), Advance(t))
  {
    var s1 := Step(s, Acquire(t));
    var s2 := Step(s1, Advance(t));
    var s3 := Step(s2, Advance(t));
    var s4 := Step(s3, Advance(t));
    hide Step;
    assert Run(s4, []) == s4;
    RunUnfolds(s3, Advance(t), []);
    RunUnfolds(s2, Advance(t), [Advance(t)]);
    RunUnfolds(s1, Advance(t), [Advance(t), Advance(t)]);
    RunUnfolds(s, Acquire(t), [Advance(t), Advance(t), Advance(t)]);
  }

  /** Between blocks the remembered timer is some other task. */
  predicate TimerElsewhere(s: State, t: nat) {
    s.lock == None && t < |s.tasks| && (s.timer.Some? ==> s.timer.value < |s.tasks| && s.timer.value != t)
  }

  lemma {:induction false} EnqueueAsBlock(s: State, t: nat, e: Entry)
    requires TimerElsewhere(s, t) && s.tasks[t] == EnqueueQueued(e)
    ensures Protected(s, t) == s.(
      entries := s.entries + [e], arrivals := s.arrivals + [e],
      tasks := CancelTimer(s, None).tasks[t := Done] + [Sleeping], timer := Some(|s.tasks|))
  {
    ProtectedUnfolds(s, t);
  }

  function Own(own: Option<Entry>): seq<Entry> {
    if own.Some? then [own.value] else []
  }

  lemma {:induction false} FlushLocks(s: State, t: nat, own: Option<Entry>)
    requires s.lock == None && t < |s.tasks|
    requires s.tasks[t] == if own.Some? then MentionQueued(own.value) else TimerQueued
    ensures Step(s, Acquire(t)) == SetTask(s, t, FlushHolds(own)).(lock := Some(t))
  {
  }

  lemma {:induction false} FlushAppends(s: State, t: nat, own: Option<Entry>)
    requires s.lock == Some(t) && t < |s.tasks| && s.tasks[t] == FlushHolds(own)
    ensures Step(s, Advance(t)) ==
      SetTask(s, t, FlushAppended).(entries := s.entries + Own(own), arrivals := s.arrivals + Own(own))
  {
    assert s.entries + [] == s.entries && s.arrivals + [] == s.arrivals;
  }

  lemma {:induction false} FlushDisarms(s: State, t: nat)
    requires s.lock == Some(t) && t < |s.tasks| && s.tasks[t] == FlushAppended
    ensures Step(s, Advance(t)) == SetTask(CancelTimer(s, Some(t)).(timer := None), t, FlushDisarmed)
  {
  }

  lemma {:induction false} FlushCuts(s: State, t: nat)
    requires s.lock == Some(t) && t < |s.tasks| && s.tasks[t] == FlushDisarmed
    ensures Step(s, Advance(t)) == AfterCut(s, t)
  {
  }

  /** The lock is released and everything buffered is handed on as one batch, if there is anything. */
  function AfterCut(s: State, t: nat): State
    requires t < |s.tasks|
  {
    s.(lock := None, entries := [],
       tasks := s.tasks[t := Done],
       batches := if s.entries == [] then s.batches else s.batches + [s.entries],
       handed := if s.entries == [] then s.handed else s.handed + [|s.batches|])
  }

  /** Cancelling the timer does not see what the flushing task's own entry holds. */
  lemma {:induction false} CancelBeside(s: State, t: nat, a: Task, b: Task)
    requires t < |s.tasks|
    ensures |CancelTimer(s, Some(t)).tasks| == |s.tasks|
    ensures CancelTimer(SetTask(s, t, a), Some(t)).tasks[t := b] == CancelTimer(s, Some(t)).tasks[t := b]
  {
    hide CancelTask;
  }

  lemma {:induction false} FlushAsBlock(s: State, t: nat, own: Option<Entry>)
    requires s.lock == None && t < |s.tasks| && (s.timer.Some? ==> s.timer.value < |s.tasks|)
    requires s.tasks[t] == if own.Some? then MentionQueued(own.value) else TimerQueued
    ensures var batch := s.entries + Own(own);
      Protected(s, t) == s.(
        entries := [], timer := None, arrivals := s.arrivals + Own(own),
        tasks := CancelTimer(s, Some(t)).tasks[t := Done],
        batches := if batch == [] then s.batches else s.batches + [batch],
        handed := if batch == [] then s.handed else s.handed + [|s.batches|])
  {
    hide Step, Protected, Own, CancelTask;
    var s1 := SetTask(s, t, FlushHolds(own)).(lock := Some(t));
    var s2 := SetTask(s1, t, FlushAppended).(entries := s.entries + Own(own), arrivals := s.arrivals + Own(own));
    var s3 := SetTask(CancelTimer(s2, Some(t)).(timer := None), t, FlushDisarmed);
    ProtectedUnfolds(s, t);
    FlushLocks(s, t, own);
    FlushAppends(s1, t, own);
    FlushDisarms(s2, t);
    FlushCuts(s3, t);
    assert s2.tasks == SetTask(s, t, FlushAppended).tasks;
    CancelBeside(s, t, FlushAppended, Done);
    assert s3.tasks[t := Done] == CancelTimer(SetTask(s, t, FlushAppended), Some(t)).tasks[t := Done];
  }

  /** One target's buffer between protected blocks, when the lock is free. */
  class DelayState {
    var entries: seq<Entry>
    var timer: Option<nat>
    var tasks: seq<Task>
    /** What was cut off the buffer, and which of it was put on the bus. */
    var batches: seq<seq<Entry>>
    var handed: seq<nat>
    ghost var arrivals: seq<Entry>
    ghost var dropped: set<nat>

    constructor ()
      ensures Value() == INITIAL
    {
      entries, timer, tasks := [], None, [];
      arrivals, batches, handed, dropped := [], [], [], {};
    }

    ghost function Value(): State
      reads this
    {
      State(entries, timer, None, tasks, arrivals, batches, handed, dropped)
    }

    method CancelRememberedTimer(self: Option<nat>)
      requires timer.Some? ==> timer.value < |tasks|
      modifies this`tasks
      ensures Value() == CancelTimer(old(Value()), self)
    {
      if timer.Some? && timer != self {
        tasks := tasks[timer.value := CancelTask(tasks[timer.value])];
      }
    }

    /** Buffer the entry and start the timer over. */
    method EnqueueDelayedEntry(task: nat, entry: Entry)
      requires task < |tasks| && tasks[task] == EnqueueQueued(entry) && Inv(Value())
      modifies this
      ensures Value() == Protected(old(Value()), task)
    {
      EnqueueAsBlock(Value(), task, entry);
      hide Inv, Protected;
      entries, arrivals := entries + [entry], arrivals + [entry];
      CancelRememberedTimer(None);
      tasks := tasks[task := Done] + [Sleeping];
      timer := Some(|tasks| - 1);
    }

    /** Take everything buffered, with the mentioned message last, disarm the timer, and hand the batch on. */
    method FlushDelayedEntries(task: nat, entry: Option<Entry>) returns (batch: seq<Entry>)
      requires task < |tasks| && Inv(Value())
      requires tasks[task] == if entry.Some? then MentionQueued(entry.value) else TimerQueued
      modifies this
      ensures Value() == Protected(old(Value()), task)
      ensures batch == old(entries) + Own(entry)
      ensures batch != [] ==> batches == old(batches) + [batch] && handed == old(handed) + [|old(batches)|]
    {
      FlushAsBlock(Value(), task, entry);
      hide Inv, Protected;
      if entry.Some? {
        entries, arrivals := entries + [entry.value], arrivals + [entry.value];
      }
      assert arrivals == old(arrivals) + Own(entry) && entries == old(entries) + Own(entry);
      CancelRememberedTimer(Some(task));
      timer := None;
      batch := entries;
      entries := [];
      if batch != [] {
        batches, handed := batches + [batch], handed + [|batches|];
      }
      tasks := tasks[task := Done];
    }

    /** Stopping cancels the timer and forgets what is buffered. */
    method CancelDelayTimers()
      requires Inv(Value())
      modifies this
      ensures Value() == Step(old(Value()), Stop)
    {
      CancelRememberedTimer(None);
      timer := None;
      if entries != [] {
        dropped := dropped + {|batches|};
        batches := batches + [entries];
      }
      entries := [];
    }
  }
}
