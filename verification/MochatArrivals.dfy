/** The routed messages of a panel that waits for mentions, through every interleaving of its delay buffer
    (nanobot/channels/mochat.py). */
module MochatArrivals {
  import opened Prelude
  import opened MochatDelay
  import opened MochatWatch
  import opened MochatRouting

  /* ---------- nothing is lost before the buffer ---------- */

  /** The entry a task has yet to put into the buffer. */
  function Pending(t: Task): seq<Entry> {
    match t
    case EnqueueQueued(e) => [e]
    case MentionQueued(e) => [e]
    case EnqueueHolds(e) => [e]
    case FlushHolds(Some(e)) => [e]
    case _ => []
  }

  function AllPending(s: State): seq<Entry> {
    FlatMap(Pending, s.tasks)
  }

  function EntryOf(e: Event): seq<Entry> {
    match e
    case ArriveForDelay(entry) => [entry]
    case ArriveWithMention(entry) => [entry]
    case _ => []
  }

  /** One pending entry went into the buffer. */
  predicate Buffers(before: seq<Entry>, after: seq<Entry>, arrivals: seq<Entry>, arrivals': seq<Entry>) {
    exists i :: 0 <= i < |before| && after == before[..i] + before[i + 1..] && arrivals' == arrivals + [before[i]]
  }

  /** A step adds its arrival to the pending entries, or moves one of them into the buffer. */
  predicate Moves(s: State, e: Event, s': State) {
    || (AllPending(s') == AllPending(s) + EntryOf(e) && s'.arrivals == s.arrivals)
    || (EntryOf(e) == [] && Buffers(AllPending(s), AllPending(s'), s.arrivals, s'.arrivals))
  }

  lemma {:induction false} TaskPending(tasks: seq<Task>, t: nat)
    requires t < |tasks|
    ensures FlatMap(Pending, tasks) == FlatMap(Pending, tasks[..t]) + Pending(tasks[t]) + FlatMap(Pending, tasks[t + 1..])
  {
    hide FlatMap, Pending;
    assert tasks == tasks[..t] + ([tasks[t]] + tasks[t + 1..]);
    FlatMapAppend(Pending, tasks[..t], [tasks[t]] + tasks[t + 1..]);
    FlatMapCons(Pending, tasks[t], tasks[t + 1..]);
  }

  lemma {:induction false} SetPending(tasks: seq<Task>, t: nat, x: Task)
    requires t < |tasks|
    ensures FlatMap(Pending, tasks[t := x])
         == FlatMap(Pending, tasks[..t]) + Pending(x) + FlatMap(Pending, tasks[t + 1..])
  {
    hide FlatMap, Pending;
    var changed := tasks[t := x];
    TaskPending(changed, t);
    assert changed[..t] == tasks[..t] && changed[t + 1..] == tasks[t + 1..];
  }

  lemma {:induction false} SamePending(tasks: seq<Task>, t: nat, x: Task)
    requires t < |tasks| && Pending(x) == Pending(tasks[t])
    ensures FlatMap(Pending, tasks[t := x]) == FlatMap(Pending, tasks)
  {
    hide FlatMap, Pending;
    SetPending(tasks, t, x);
    TaskPending(tasks, t);
  }

  lemma {:induction false} MorePending(tasks: seq<Task>, x: Task)
    ensures FlatMap(Pending, tasks + [x]) == FlatMap(Pending, tasks) + Pending(x)
  {
    hide FlatMap, Pending;
    FlatMapAppend(Pending, tasks, [x]);
    FlatMapCons(Pending, x, []);
  }

  lemma {:induction false} CancelKeepsPending(s: State, self: Option<nat>)
    requires TimersOk(s)
    ensures AllPending(CancelTimer(s, self)) == AllPending(s)
  {
    hide FlatMap;
    if s.timer.Some? && s.timer != self {
      SamePending(s.tasks, s.timer.value, CancelTask(s.tasks[s.timer.value]));
    }
  }

  lemma {:induction false} EntryBuffered(s: State, t: nat, e: Entry, s': State, x: Task)
    requires t < |s.tasks| && Pending(s.tasks[t]) == [e] && Pending(x) == []
    requires s'.tasks == s.tasks[t := x] && s'.arrivals == s.arrivals + [e]
    ensures Buffers(AllPending(s), AllPending(s'), s.arrivals, s'.arrivals)
  {
    hide FlatMap, Pending;
    TaskPending(s.tasks, t);
    SetPending(s.tasks, t, x);
    var a, b := FlatMap(Pending, s.tasks[..t]), FlatMap(Pending, s.tasks[t + 1..]);
    var before := AllPending(s);
    assert before == a + [e] + b && before[|a|] == e;
    assert before[..|a|] == a && before[|a| + 1..] == b;
    assert AllPending(s') == a + b;
  }

  lemma {:induction false} AdvanceMoves(s: State, t: nat)
    requires Inv(s) && t < |s.tasks|
    ensures var s' := AdvanceStep(s, t);
      || (AllPending(s') == AllPending(s) && s'.arrivals == s.arrivals)
      || Buffers(AllPending(s), AllPending(s'), s.arrivals, s'.arrivals)
  {
    hide FlatMap, CancelTimer, TimersOk, LockOk, BatchesOk, Conserves, Buffers;
    var s' := AdvanceStep(s, t);
    match s.tasks[t] {
      case EnqueueHolds(e) => EntryBuffered(s, t, e, s', EnqueueAppended);
      case EnqueueAppended =>
        CancelKeepsPending(s, None);
        CancelKeepsTask(s, None, t);
        SamePending(CancelTimer(s, None).tasks, t, EnqueueRearming);
      case EnqueueRearming =>
        SamePending(s.tasks, t, Done);
        MorePending(s.tasks[t := Done], Sleeping);
        assert FlatMap(Pending, s.tasks) + [] == FlatMap(Pending, s.tasks);
      case FlushHolds(Some(e)) => EntryBuffered(s, t, e, s', FlushAppended);
      case FlushHolds(None) => SamePending(s.tasks, t, FlushAppended);
      case FlushAppended =>
        CancelKeepsPending(s, Some(t));
        CancelKeepsTask(s, Some(t), t);
        SamePending(CancelTimer(s, Some(t)).tasks, t, FlushDisarmed);
      case FlushDisarmed => SamePending(s.tasks, t, Done);
      case _ =>
    }
  }

  lemma {:induction false} CancelKeepsTask(s: State, self: Option<nat>, t: nat)
    requires t < |s.tasks|
    ensures var s' := CancelTimer(s, self);
      && |s'.tasks| == |s.tasks| && s'.arrivals == s.arrivals
      && (Pending(s.tasks[t]) == [] ==> Pending(s'.tasks[t]) == [])
  {
  }

  lemma {:induction false} StepMoves(s: State, e: Event)
    requires Inv(s)
    ensures Moves(s, e, Step(s, e))
  {
    hide FlatMap, AdvanceStep, CancelTimer, TimersOk, LockOk, BatchesOk, Conserves, Buffers;
    var s' := Step(s, e);
    var before := AllPending(s);
    assert before + [] == before;
    match e {
      case ArriveForDelay(entry) => MorePending(s.tasks, EnqueueQueued(entry));
      case ArriveWithMention(entry) => MorePending(s.tasks, MentionQueued(entry));
      case Wake(t) =>
        if t < |s.tasks| && s.tasks[t].Sleeping? {
          SamePending(s.tasks, t, TimerQueued);
        }
      case Acquire(t) =>
        if t < |s.tasks| && s.lock.None? {
          match s.tasks[t] {
            case EnqueueQueued(entry) => SamePending(s.tasks, t, EnqueueHolds(entry));
            case MentionQueued(entry) => SamePending(s.tasks, t, FlushHolds(Some(entry)));
            case TimerQueued => SamePending(s.tasks, t, FlushHolds(None));
            case _ =>
          }
        }
      case Advance(t) =>
        if s.lock == Some(t) && t < |s.tasks| {
          AdvanceMoves(s, t);
        }
      case Stop =>
        if s.lock.None? {
          CancelKeepsPending(s, None);
          CancelKeepsArrivals(s, None);
        }
    }
  }

  lemma {:induction false} CancelKeepsArrivals(s: State, self: Option<nat>)
    ensures CancelTimer(s, self).arrivals == s.arrivals
  {
  }

  /** Over every interleaving, what arrived is what is in a batch, in the buffer, or still on its way there. */
  lemma {:induction false} ArrivalsAccountedFor(s: State, events: seq<Event>)
    requires Inv(s)
    ensures var s' := Run(s, events);
      multiset(s'.arrivals) + multiset(AllPending(s'))
        == multiset(s.arrivals) + multiset(AllPending(s)) + multiset(FlatMap(EntryOf, events))
    decreases |events|
  {
    hide FlatMap, AllPending, Step, Inv, EntryOf, Moves;
    if events == [] {
      EmptyFlatMap(EntryOf);
    } else {
      var e, rest := events[0], events[1..];
      StepMoves(s, e);
      MovedTogether(s, e, Step(s, e));
      StepKeepsInv(s, e);
      ArrivalsAccountedFor(Step(s, e), rest);
      assert events == [e] + rest;
      FlatMapCons(EntryOf, e, rest);
    }
  }

  lemma {:induction false} MovedTogether(s: State, e: Event, s': State)
    requires Moves(s, e, s')
    ensures multiset(s'.arrivals) + multiset(AllPending(s'))
         == multiset(s.arrivals) + multiset(AllPending(s)) + multiset(EntryOf(e))
  {
    hide AllPending, Buffers;
    var before, after := AllPending(s), AllPending(s');
    if after != before + EntryOf(e) || s'.arrivals != s.arrivals {
      BufferedTogether(before, after, s.arrivals, s'.arrivals);
    }
  }

  lemma {:induction false} BufferedTogether(
    before: seq<Entry>, after: seq<Entry>, arrivals: seq<Entry>, arrivals': seq<Entry>)
    requires Buffers(before, after, arrivals, arrivals')
    ensures multiset(arrivals') + multiset(after) == multiset(arrivals) + multiset(before)
  {
    var i :| 0 <= i < |before| && after == before[..i] + before[i + 1..] && arrivals' == arrivals + [before[i]];
    assert before == before[..i] + [before[i]] + before[i + 1..];
  }

  /** No message arrives before the one ahead of it is in the buffer: the payloads of a target are processed
      under its lock. */
  predicate OneByOne(s: State, events: seq<Event>)
    decreases |events|
  {
    events == [] ||
    ((EntryOf(events[0]) != [] ==> AllPending(s) == []) && OneByOne(Step(s, events[0]), events[1..]))
  }

  lemma {:induction false} MovedInOrder(s: State, e: Event, s': State)
    requires Moves(s, e, s') && |AllPending(s)| <= 1 && (EntryOf(e) != [] ==> AllPending(s) == [])
    ensures s'.arrivals + AllPending(s') == s.arrivals + AllPending(s) + EntryOf(e) && |AllPending(s')| <= 1
  {
    hide AllPending;
    var before, after := AllPending(s), AllPending(s');
    if after == before + EntryOf(e) && s'.arrivals == s.arrivals {
    } else {
      assert Buffers(before, after, s.arrivals, s'.arrivals);
      assert before == [before[0]] && after == [];
    }
  }

  /** And then in order. */
  lemma {:induction false} ArrivalsInOrder(s: State, events: seq<Event>)
    requires Inv(s) && |AllPending(s)| <= 1 && OneByOne(s, events)
    ensures var s' := Run(s, events);
      s'.arrivals + AllPending(s') == s.arrivals + AllPending(s) + FlatMap(EntryOf, events) && |AllPending(s')| <= 1
    decreases |events|
  {
    hide FlatMap, AllPending, Step, Inv, EntryOf, Moves;
    if events == [] {
      EmptyFlatMap(EntryOf);
      assert s.arrivals + AllPending(s) + [] == s.arrivals + AllPending(s);
    } else {
      var e, rest := events[0], events[1..];
      StepMoves(s, e);
      MovedInOrder(s, e, Step(s, e));
      StepKeepsInv(s, e);
      ArrivalsInOrder(Step(s, e), rest);
      assert events == [e] + rest;
      FlatMapCons(EntryOf, e, rest);
      var start, first, more := s.arrivals + AllPending(s), EntryOf(e), FlatMap(EntryOf, rest);
      assert start + (first + more) == start + first + more;
    }
  }

  /* ---------- mentions close batches ---------- */

  /** Only the last entry can be a mention. */
  predicate MentionLast(mentions: Entry -> bool, entries: seq<Entry>) {
    forall i :: 0 <= i < |entries| - 1 ==> !mentions(entries[i])
  }

  predicate NoneMentions(mentions: Entry -> bool, entries: seq<Entry>) {
    forall i :: 0 <= i < |entries| ==> !mentions(entries[i])
  }

  predicate TaskMarked(mentions: Entry -> bool, t: Task) {
    match t
    case EnqueueQueued(e) => !mentions(e)
    case EnqueueHolds(e) => !mentions(e)
    case MentionQueued(e) => mentions(e)
    case FlushHolds(Some(e)) => mentions(e)
    case _ => true
  }

  predicate TasksMarked(mentions: Entry -> bool, s: State) {
    forall t :: 0 <= t < |s.tasks| ==> TaskMarked(mentions, s.tasks[t])
  }

  /** The mention at the end of the buffer is on its way out. */
  predicate BufferMarked(mentions: Entry -> bool, s: State) {
    if Holding(s) == FlushAppended || Holding(s) == FlushDisarmed then MentionLast(mentions, s.entries)
    else NoneMentions(mentions, s.entries)
  }

  predicate BatchesMarked(mentions: Entry -> bool, s: State) {
    forall k :: 0 <= k < |s.batches| ==> MentionLast(mentions, s.batches[k])
  }

  predicate Marked(mentions: Entry -> bool, s: State) {
    TasksMarked(mentions, s) && BufferMarked(mentions, s) && BatchesMarked(mentions, s)
  }

  /** The arrivals come with a mention exactly when their entries have one. */
  predicate EventMarked(mentions: Entry -> bool, e: Event) {
    match e
    case ArriveForDelay(entry) => !mentions(entry)
    case ArriveWithMention(entry) => mentions(entry)
    case _ => true
  }

  lemma {:induction false} AdvanceKeepsMarks(mentions: Entry -> bool, s: State, t: nat)
    requires TimersOk(s) && LockInRange(s) && LockOk(s) && s.lock == Some(t) && Marked(mentions, s)
    ensures Marked(mentions, AdvanceStep(s, t))
  {
    HolderHoldsLock(s, t);
    hide TimersOk, LockOk, Flatten;
  }

  lemma {:induction false} StepKeepsMarks(mentions: Entry -> bool, s: State, e: Event)
    requires Inv(s) && Marked(mentions, s) && EventMarked(mentions, e)
    ensures Marked(mentions, Step(s, e))
  {
    hide AdvanceStep, TimersOk, BatchesOk, Conserves;
    if e.Advance? && s.lock == Some(e.task) {
      hide LockOk;
      AdvanceKeepsMarks(mentions, s, e.task);
    }
  }

  /** Over every interleaving, a message that mentions the bot is the last of its batch, and between two steps of
      the protected blocks none waits in the buffer. */
  lemma {:induction false} MentionsCloseBatches(mentions: Entry -> bool, s: State, events: seq<Event>)
    requires Inv(s) && Marked(mentions, s)
    requires forall i :: 0 <= i < |events| ==> EventMarked(mentions, events[i])
    ensures var s' := Run(s, events);
      Inv(s') && Marked(mentions, s')
    decreases |events|
  {
    hide Step, Inv, Marked, EventMarked;
    if events == [] {
    } else {
      StepKeepsInv(s, events[0]);
      StepKeepsMarks(mentions, s, events[0]);
      MentionsCloseBatches(mentions, Step(s, events[0]), events[1..]);
    }
  }

  /* ---------- the routed messages as arrivals ---------- */

  /** Buffering is an arrival without a mention, flushing with a message one with; `entry` builds the entry. */
  function AsArrival(entry: Inbound -> Entry, a: Action): seq<Event> {
    match a
    case Buffer(m) => [ArriveForDelay(entry(m))]
    case FlushWith(m) => [ArriveWithMention(entry(m))]
    case _ => []
  }

  function ArrivalOf(e: Event): seq<Event> {
    if EntryOf(e) == [] then [] else [e]
  }

  function Entries(entry: Inbound -> Entry, ms: seq<Inbound>): seq<Entry> {
    FlatMap(m => [entry(m)], ms)
  }

  lemma {:induction false} EntriesOfArrivals(events: seq<Event>)
    ensures FlatMap(EntryOf, FlatMap(ArrivalOf, events)) == FlatMap(EntryOf, events)
  {
    hide FlatMap;
    if events == [] {
      EmptyFlatMap(EntryOf);
      EmptyFlatMap(ArrivalOf);
    } else {
      var e, rest := events[0], events[1..];
      assert events == [e] + rest;
      EntriesOfArrivals(rest);
      FlatMapCons(ArrivalOf, e, rest);
      FlatMapCons(EntryOf, e, rest);
      FlatMapAppend(EntryOf, ArrivalOf(e), FlatMap(ArrivalOf, rest));
      FlatMapCons(EntryOf, e, []);
    }
  }

  lemma {:induction false} ArrivalIsListed(events: seq<Event>, i: nat)
    requires i < |events| && EntryOf(events[i]) != []
    ensures events[i] in FlatMap(ArrivalOf, events)
  {
    hide FlatMap;
    var e, rest := events[0], events[1..];
    assert events == [e] + rest;
    FlatMapCons(ArrivalOf, e, rest);
    if i > 0 {
      ArrivalIsListed(rest, i - 1);
    } else {
      assert ArrivalOf(e)[0] == e;
    }
  }

  lemma {:induction false} RoutedArrive(
    entry: Inbound -> Entry, mentions: Entry -> bool, ms: seq<Inbound>, actions: seq<Action>)
    requires AllCarry(PanelTarget, true, ms, actions) && forall m :: mentions(entry(m)) == m.mentioned
    ensures var arrivals := FlatMap(a => AsArrival(entry, a), actions);
      && FlatMap(EntryOf, arrivals) == Entries(entry, ms)
      && forall e :: e in arrivals ==> EventMarked(mentions, e)
  {
    hide FlatMap;
    var f, g := a => AsArrival(entry, a), m => [entry(m)];
    if actions == [] {
      EmptyFlatMap(f);
      EmptyFlatMap(g);
      EmptyFlatMap(EntryOf);
      assert ms == [];
    } else {
      var a, m := actions[0], ms[0];
      assert actions == [a] + actions[1..] && ms == [m] + ms[1..];
      RoutedArrive(entry, mentions, ms[1..], actions[1..]);
      FlatMapCons(f, a, actions[1..]);
      FlatMapCons(g, m, ms[1..]);
      FlatMapAppend(EntryOf, f(a), FlatMap(f, actions[1..]));
      FlatMapCons(EntryOf, f(a)[0], []);
      assert f(a) == [f(a)[0]];
    }
  }

  /** The events of the buffer are the routed messages arriving, with the steps of its tasks in between. */
  ghost predicate Feeds(entry: Inbound -> Entry, t: Target, payloads: seq<Payload>, events: seq<Event>) {
    FlatMap(ArrivalOf, events) == FlatMap(a => AsArrival(entry, a), HandleAll(PanelTarget, true, t, payloads).1)
  }

  lemma {:induction false} FedEntries(
    entry: Inbound -> Entry, mentions: Entry -> bool, t: Target, payloads: seq<Payload>, events: seq<Event>)
    requires Feeds(entry, t, payloads, events) && forall m :: mentions(entry(m)) == m.mentioned
    ensures FlatMap(EntryOf, events) == Entries(entry, Accepted(PanelTarget, t, payloads))
    ensures forall i :: 0 <= i < |events| ==> EventMarked(mentions, events[i])
  {
    hide FlatMap, HandleAll, Accepted, AllCarry, Entries;
    EveryMessageIsRouted(PanelTarget, true, t, payloads);
    RoutedArrive(entry, mentions, Accepted(PanelTarget, t, payloads), HandleAll(PanelTarget, true, t, payloads).1);
    EntriesOfArrivals(events);
    forall i | 0 <= i < |events|
      ensures EventMarked(mentions, events[i])
    {
      if EntryOf(events[i]) != [] {
        ArrivalIsListed(events, i);
      }
    }
  }

  /** From payloads to dispatch, over every interleaving of the buffer's tasks: each accepted message is in
      exactly one batch, in the buffer, or on its way there, and in order when the messages come one by one;
      the batches that no stop dropped are handed on once each and in order; and a mention is the last of its
      batch and waits in no buffer that is not locked. */
  lemma {:induction false} PanelDelivery(
    entry: Inbound -> Entry, mentions: Entry -> bool, t: Target, payloads: seq<Payload>, events: seq<Event>)
    requires Feeds(entry, t, payloads, events) && forall m :: mentions(entry(m)) == m.mentioned
    ensures var s := Run(INITIAL, events);
            var accepted := Entries(entry, Accepted(PanelTarget, t, payloads));
      && multiset(Flatten(s.batches) + s.entries) + multiset(AllPending(s)) == multiset(accepted)
      && (OneByOne(INITIAL, events) ==> Flatten(s.batches) + s.entries + AllPending(s) == accepted)
      && Increasing(s.handed) && (forall k :: k in s.handed <==> 0 <= k < |s.batches| && k !in s.dropped)
      && (forall k :: 0 <= k < |s.batches| ==> MentionLast(mentions, s.batches[k]))
      && (s.lock == None ==> NoneMentions(mentions, s.entries))
  {
    hide FlatMap, HandleAll, Accepted, Entries, Feeds, Run, Flatten, OneByOne, EntryOf, EventMarked;
    FedEntries(entry, mentions, t, payloads, events);
    InitialInv();
    EmptyFlatMap(Pending);
    MentionsCloseBatches(mentions, INITIAL, events);
    ArrivalsAccountedFor(INITIAL, events);
    EveryEntryHandedOnce(events);
    if OneByOne(INITIAL, events) {
      ArrivalsInOrder(INITIAL, events);
    }
  }
}
