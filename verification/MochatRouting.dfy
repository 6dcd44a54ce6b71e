/** From the payloads of a target to what is dispatched: routing joined to the deduplication windows and to the
    delay buffer (nanobot/channels/mochat.py). */
module MochatRouting {
  import opened Prelude
  import opened DedupWindows
  import opened MochatWatch

  /* ---------- the messages a target accepts ---------- */

  /** An added message of a known, allowed author who is not the bot, whose id is not in the window. */
  predicate Admits(window: seq<string>, e: WatchEvent) {
    e.WatchEvent? && e.isAdd && e.body.Some? &&
    var m := e.body.value;
    m.author != "" && !m.own && m.allowed && (m.messageId == "" || m.messageId !in window)
  }

  function WindowAfter(window: seq<string>, e: WatchEvent): seq<string> {
    if Admits(window, e) && e.body.value.messageId != "" then Remember(window, MOCHAT_WINDOW, e.body.value.messageId).0
    else window
  }

  /** The messages accepted of the events, in order, and the window behind them. */
  function Accept(window: seq<string>, events: seq<WatchEvent>): (seq<string>, seq<Inbound>) {
    if events == [] then (window, [])
    else
      var last := |events| - 1;
      var (w, accepted) := Accept(window, events[..last]);
      (WindowAfter(w, events[last]), accepted + if Admits(w, events[last]) then [events[last].body.value] else [])
  }

  /** The messages a target accepts of its payloads. */
  function Accepted(kind: Kind, t: Target, payloads: seq<Payload>): seq<Inbound> {
    Accept(t.window, Processed(kind, t.cold, payloads)).1
  }

  /** What is to become of an accepted message. */
  predicate Carries(kind: Kind, delayMode: bool, m: Inbound, a: Action) {
    if kind.PanelTarget? && delayMode then a == (if m.mentioned then FlushWith(m) else Buffer(m))
    else if kind.PanelTarget? && m.requireMention && !m.mentioned then a == Ignore(m)
    else a == DispatchNow(m)
  }

  predicate AllCarry(kind: Kind, delayMode: bool, ms: seq<Inbound>, actions: seq<Action>) {
    |actions| == |ms| && forall i :: 0 <= i < |ms| ==> Carries(kind, delayMode, ms[i], actions[i])
  }

  lemma {:induction false} OneCarries(
    kind: Kind, delayMode: bool, window: seq<string>, ms: seq<Inbound>, actions: seq<Action>, e: WatchEvent)
    requires AllCarry(kind, delayMode, ms, actions)
    ensures var (w, more) := RouteOne(kind, delayMode, window, actions, e);
      && w == WindowAfter(window, e)
      && AllCarry(kind, delayMode, ms + if Admits(window, e) then [e.body.value] else [], more)
  {
    assert ms + [] == ms;
  }

  lemma {:induction false} EventsCarry(kind: Kind, delayMode: bool, window: seq<string>, events: seq<WatchEvent>)
    ensures var (w, actions) := RouteAll(kind, delayMode, window, events);
      w == Accept(window, events).0 && AllCarry(kind, delayMode, Accept(window, events).1, actions)
  {
    hide RouteOne, WindowAfter, Admits, AllCarry;
    if events == [] {
      NothingCarries(kind, delayMode);
    } else {
      var last := |events| - 1;
      EventsCarry(kind, delayMode, window, events[..last]);
      var (w, actions) := RouteAll(kind, delayMode, window, events[..last]);
      OneCarries(kind, delayMode, w, Accept(window, events[..last]).1, actions, events[last]);
    }
  }

  lemma {:induction false} NothingCarries(kind: Kind, delayMode: bool)
    ensures AllCarry(kind, delayMode, [], [])
  {
  }

  /** Over any payloads, every accepted message gets the one action its target, mode and mention ask for. */
  lemma {:induction false} EveryMessageIsRouted(kind: Kind, delayMode: bool, t: Target, payloads: seq<Payload>)
    ensures AllCarry(kind, delayMode, Accepted(kind, t, payloads), HandleAll(kind, delayMode, t, payloads).1)
  {
    hide RouteAll, HandleAll, Processed, Accept, AllCarry;
    HandleAllRoutes(kind, delayMode, t, payloads);
    EventsCarry(kind, delayMode, t.window, Processed(kind, t.cold, payloads));
  }

  /* ---------- cursors and windows ---------- */

  lemma {:induction false} EventsSetCursor(cursor: Option<int>, previous: int, events: seq<WatchEvent>)
    requires previous >= 0 && OrZero(cursor) >= 0 && (cursor.None? ==> previous == 0)
    ensures MarkAll(cursor, previous, events).Some? <==>
      cursor.Some? || exists i :: 0 <= i < |events| && Sequenced(events[i]) && events[i].sequence.value > 0
  {
    if events != [] {
      var last := |events| - 1;
      EventsSetCursor(cursor, previous, events[..last]);
      CursorIsLargest(cursor, previous, events[..last]);
      hide MarkAll;
      assert MarkAll(cursor, previous, events)
          == MarkSequence(MarkAll(cursor, previous, events[..last]), previous, events[last]) by {
        MarkUnfolds(cursor, previous, events);
      }
    }
  }

  lemma {:induction false} MarkUnfolds(cursor: Option<int>, previous: int, events: seq<WatchEvent>)
    requires events != []
    ensures var last := |events| - 1;
      MarkAll(cursor, previous, events)
        == MarkSequence(MarkAll(cursor, previous, events[..last]), previous, events[last])
  {
  }

  /** A payload gives a session a cursor when it brings one, or an event with a positive sequence number that is
      looked at. */
  predicate BringsCursor(cold: bool, p: Payload) {
    || (p.cursor.Some? && p.cursor.value >= 0)
    || (!cold && p.events.Some?
        && exists i :: 0 <= i < |p.events.value| && Sequenced(p.events.value[i]) && p.events.value[i].sequence.value > 0)
  }

  predicate SomeBringsCursor(cold: bool, payloads: seq<Payload>)
    decreases |payloads|
  {
    payloads != [] &&
    (BringsCursor(cold, payloads[0]) || SomeBringsCursor(cold && payloads[0].events.None?, payloads[1..]))
  }

  lemma {:induction false} HandleSetsCursor(delayMode: bool, t: Target, p: Payload)
    requires OrZero(t.cursor) >= 0
    ensures Handle(SessionTarget, delayMode, t, p).0.cursor.Some? <==> t.cursor.Some? || BringsCursor(t.cold, p)
  {
    var marked := MarkPayload(SessionTarget, t.cursor, p);
    PayloadMark(t.cursor, p);
    hide RouteAll, MarkAll;
    if p.events.Some? && !t.cold {
      EventsSetCursor(marked, OrZero(t.cursor), p.events.value);
    }
  }

  /** Over any payloads a session has a cursor exactly when it had one or some payload brings one. */
  lemma {:induction false} HasCursorIff(delayMode: bool, t: Target, payloads: seq<Payload>)
    requires OrZero(t.cursor) >= 0
    ensures HandleAll(SessionTarget, delayMode, t, payloads).0.cursor.Some? <==>
      t.cursor.Some? || SomeBringsCursor(t.cold, payloads)
    decreases |payloads|
  {
    hide Handle, BringsCursor;
    if payloads != [] {
      HandleSetsCursor(delayMode, t, payloads[0]);
      HandleMarks(delayMode, t, payloads[0]);
      HasCursorIff(delayMode, Handle(SessionTarget, delayMode, t, payloads[0]).0, payloads[1..]);
    }
  }

  /** Each target has a window of its own: a session's and a panel's never meet. */
  lemma {:induction false} KeysAreDistinct(kind: Kind, target: string, kind': Kind, target': string)
    ensures MochatChannel.KeyOf(kind, target) == MochatChannel.KeyOf(kind', target') <==>
      kind == kind' && target == target'
    ensures MochatChannel.KeyOf(SessionTarget, target) == "session:" + target
    ensures MochatChannel.KeyOf(PanelTarget, target) == "panel:" + target
  {
    var a, b := MochatChannel.KeyOf(kind, target), MochatChannel.KeyOf(kind', target');
    assert kind.SessionTarget? ==> a[0] == 's' && a[8..] == target;
    assert kind.PanelTarget? ==> a[0] == 'p' && a[6..] == target;
    assert kind'.SessionTarget? ==> b[0] == 's' && b[8..] == target';
    assert kind'.PanelTarget? ==> b[0] == 'p' && b[6..] == target';
  }

  /* ---------- what is dispatched when no timer fires ---------- */

  /** What has been dispatched, and what still waits in the buffer. */
  datatype Delivery = Delivery(dispatched: seq<seq<Inbound>>, buffer: seq<Inbound>)

  function Deliver(actions: seq<Action>): Delivery {
    if actions == [] then Delivery([], [])
    else
      var d := Deliver(actions[..|actions| - 1]);
      match actions[|actions| - 1]
      case Ignore(_) => d
      case DispatchNow(m) => d.(dispatched := d.dispatched + [[m]])
      case FlushWith(m) => Delivery(d.dispatched + [d.buffer + [m]], [])
      case Buffer(m) => d.(buffer := d.buffer + [m])
  }

  predicate NoMention(ms: seq<Inbound>) {
    forall i :: 0 <= i < |ms| ==> !ms[i].mentioned
  }

  /** A run of messages without a mention, closed by one with. */
  predicate ClosedByMention(batch: seq<Inbound>) {
    batch != [] && batch[|batch| - 1].mentioned && NoMention(batch[..|batch| - 1])
  }

  predicate AllClosed(batches: seq<seq<Inbound>>) {
    forall i :: 0 <= i < |batches| ==> ClosedByMention(batches[i])
  }

  lemma {:induction false} DeliverDelayed(ms: seq<Inbound>, actions: seq<Action>)
    requires AllCarry(PanelTarget, true, ms, actions)
    ensures var d := Deliver(actions);
      Flatten(d.dispatched) + d.buffer == ms && AllClosed(d.dispatched) && NoMention(d.buffer)
  {
    hide Flatten, ClosedByMention;
    if actions == [] {
      FlattenCons<Inbound>([], []);
    } else {
      var last := |actions| - 1;
      DeliverDelayed(ms[..last], actions[..last]);
      var d, m := Deliver(actions[..last]), ms[last];
      assert ms == ms[..last] + [m];
      if m.mentioned {
        FlattenSnoc(d.dispatched, d.buffer + [m]);
        BatchIsClosed(d.buffer, m);
      }
    }
  }

  lemma {:induction false} BatchIsClosed(buffer: seq<Inbound>, m: Inbound)
    requires NoMention(buffer) && m.mentioned
    ensures ClosedByMention(buffer + [m])
  {
    assert (buffer + [m])[..|buffer|] == buffer;
  }

  /** In a panel that waits for mentions, the batches and the buffer are the accepted messages in order; every
      batch is closed by the mention it ends with, and no other message of it or of the buffer is a mention. */
  lemma {:induction false} DelayedPanelBatches(t: Target, payloads: seq<Payload>)
    ensures var d := Deliver(HandleAll(PanelTarget, true, t, payloads).1);
      && Flatten(d.dispatched) + d.buffer == Accepted(PanelTarget, t, payloads)
      && AllClosed(d.dispatched) && NoMention(d.buffer)
  {
    hide HandleAll, Accepted, AllCarry, Deliver, AllClosed, NoMention, Flatten;
    EveryMessageIsRouted(PanelTarget, true, t, payloads);
    DeliverDelayed(Accepted(PanelTarget, t, payloads), HandleAll(PanelTarget, true, t, payloads).1);
  }

  /** The message is dropped: its panel requires a mention and it has none. */
  predicate Unmentioned(kind: Kind, m: Inbound) {
    kind.PanelTarget? && m.requireMention && !m.mentioned
  }

  function Single(kind: Kind, m: Inbound): seq<seq<Inbound>> {
    if Unmentioned(kind, m) then [] else [[m]]
  }

  lemma {:induction false} DeliverAtOnce(kind: Kind, delayMode: bool, ms: seq<Inbound>, actions: seq<Action>)
    requires kind.SessionTarget? || !delayMode
    requires AllCarry(kind, delayMode, ms, actions)
    ensures Deliver(actions) == Delivery(FlatMap(m => Single(kind, m), ms), [])
  {
    hide FlatMap;
    var f := m => Single(kind, m);
    if actions == [] {
      EmptyFlatMap(f);
    } else {
      var last := |actions| - 1;
      DeliverAtOnce(kind, delayMode, ms[..last], actions[..last]);
      assert ms == ms[..last] + [ms[last]];
      FlatMapAppend(f, ms[..last], [ms[last]]);
      FlatMapCons(f, ms[last], []);
      assert f(ms[last]) == Single(kind, ms[last]);
    }
  }

  lemma {:induction false} EmptyFlatMap<T, U>(f: T -> seq<U>)
    ensures FlatMap(f, []) == []
  {
  }

  /** In a session, or a panel without delay, every accepted message is dispatched at once and alone, but for
      those without the mention their panel requires; nothing is buffered. */
  lemma {:induction false} UndelayedDispatch(kind: Kind, delayMode: bool, t: Target, payloads: seq<Payload>)
    requires kind.SessionTarget? || !delayMode
    ensures Deliver(HandleAll(kind, delayMode, t, payloads).1)
         == Delivery(FlatMap(m => Single(kind, m), Accepted(kind, t, payloads)), [])
  {
    hide HandleAll, Accepted, AllCarry, Deliver, FlatMap;
    EveryMessageIsRouted(kind, delayMode, t, payloads);
    DeliverAtOnce(kind, delayMode, Accepted(kind, t, payloads), HandleAll(kind, delayMode, t, payloads).1);
  }
}
