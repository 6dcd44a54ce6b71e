/** Mochat's watch payloads: session cursors, cold sessions, and the routing of each inbound event
    (nanobot/channels/mochat.py). */
module MochatWatch {
  import opened Prelude
  import opened DedupWindows

  /** What is read from one message.add payload: the author is empty when missing, `own` says it is the bot
      itself, and the id is empty when missing. */
  datatype Inbound = Inbound(
    author: string, own: bool, allowed: bool, messageId: string, mentioned: bool, requireMention: bool)

  /** One event of a watch payload; a body that is not an object is None. */
  datatype WatchEvent = NotAnObject | WatchEvent(sequence: Option<int>, isAdd: bool, body: Option<Inbound>)

  datatype Kind = SessionTarget | PanelTarget

  datatype Payload = Payload(sessionId: string, cursor: Option<int>, events: Option<seq<WatchEvent>>)

  /** What becomes of an event: nothing, an immediate dispatch, a flush of the buffer, or buffering. */
  datatype Action = Ignore(m: Inbound) | DispatchNow(m: Inbound) | FlushWith(m: Inbound) | Buffer(m: Inbound)

  predicate Wanted(body: Option<Inbound>) {
    body.Some? && body.value.author != "" && !body.value.own && body.value.allowed
  }

  function Route(kind: Kind, delayMode: bool, m: Inbound): Action {
    var useDelay := kind.PanelTarget? && delayMode;
    if kind.PanelTarget? && m.requireMention && !m.mentioned && !useDelay then Ignore(m)
    else if useDelay then if m.mentioned then FlushWith(m) else Buffer(m)
    else DispatchNow(m)
  }

  /** A cursor only moves forward; the missing cursor counts as 0. */
  function Mark(cursor: Option<int>, to: int): Option<int> {
    var known := if cursor.Some? then cursor.value else 0;
    if to < 0 || to < known then cursor else Some(to)
  }

  /** Within the event loop a sequence number counts when it passes the cursor, or the value before the
      payload when no cursor is set. */
  function MarkSequence(cursor: Option<int>, previous: int, e: WatchEvent): Option<int> {
    var known := if cursor.Some? then cursor.value else previous;
    if e.WatchEvent? && e.sequence.Some? && e.sequence.value > known then Mark(cursor, e.sequence.value) else cursor
  }

  function MarkAll(cursor: Option<int>, previous: int, events: seq<WatchEvent>): Option<int> {
    if events == [] then cursor
    else MarkSequence(MarkAll(cursor, previous, events[..|events| - 1]), previous, events[|events| - 1])
  }

  function OrZero(cursor: Option<int>): int {
    if cursor.Some? then cursor.value else 0
  }

  predicate Sequenced(e: WatchEvent) {
    e.WatchEvent? && e.sequence.Some?
  }

  lemma {:induction false} SequenceIsMax(cursor: Option<int>, previous: int, e: WatchEvent)
    requires OrZero(cursor) >= 0 && (cursor.None? ==> previous == 0)
    ensures OrZero(MarkSequence(cursor, previous, e)) ==
      if Sequenced(e) then Max(OrZero(cursor), e.sequence.value) else OrZero(cursor)
  {
  }

  /** m is the largest of the numbers. */
  predicate IsMaximum(m: int, numbers: seq<int>) {
    m in numbers && forall x :: x in numbers ==> x <= m
  }

  lemma {:induction false} MaximumAppend(a: int, xs: seq<int>, b: int, ys: seq<int>, c: int)
    requires IsMaximum(b, [a] + xs) && IsMaximum(c, [b] + ys)
    ensures IsMaximum(c, [a] + (xs + ys))
  {
    var all := [a] + (xs + ys);
    assert ([b] + ys)[0] == b;
    assert b <= c by {
      assert b in [b] + ys;
    }
    assert c in [b] + ys && (c == b || c in ys);
    forall x | x in all
      ensures x <= c
    {
      if x in ys {
        var i :| 0 <= i < |ys| && ys[i] == x;
        assert ([b] + ys)[i + 1] == x;
        assert x in [b] + ys;
      } else {
        assert x in [a] + xs;
      }
    }
    assert c in all by {
      if c == b {
        assert b in [a] + xs;
      }
    }
  }

  function SequenceOf(e: WatchEvent): seq<int> {
    if Sequenced(e) then [e.sequence.value] else []
  }

  lemma {:induction false} SequenceStep(cursor: Option<int>, previous: int, e: WatchEvent)
    requires OrZero(cursor) >= 0 && (cursor.None? ==> previous == 0)
    ensures var after := MarkSequence(cursor, previous, e);
      && IsMaximum(OrZero(after), [OrZero(cursor)] + SequenceOf(e))
      && OrZero(after) >= 0 && (after.None? ==> previous == 0)
  {
    SequenceIsMax(cursor, previous, e);
    var numbers := [OrZero(cursor)] + SequenceOf(e);
    assert numbers[0] == OrZero(cursor);
    assert Sequenced(e) ==> numbers[1] == e.sequence.value;
  }

  /** After the events, the cursor is the largest of what it was and the sequence numbers seen. */
  lemma {:induction false} CursorIsLargest(cursor: Option<int>, previous: int, events: seq<WatchEvent>)
    requires OrZero(cursor) >= 0 && (cursor.None? ==> previous == 0)
    ensures var after := MarkAll(cursor, previous, events);
      && IsMaximum(OrZero(after), [OrZero(cursor)] + FlatMap(SequenceOf, events))
      && OrZero(after) >= 0 && (after.None? ==> previous == 0)
  {
    hide MarkSequence, IsMaximum, SequenceOf;
    if events == [] {
      FlatMapCons(SequenceOf, NotAnObject, []);
      OnlyNumber(OrZero(cursor));
    } else {
      var last := |events| - 1;
      var earlier, e := events[..last], events[last];
      CursorIsLargest(cursor, previous, earlier);
      var before := MarkAll(cursor, previous, earlier);
      SequenceStep(before, previous, e);
      MaximumAppend(OrZero(cursor), FlatMap(SequenceOf, earlier), OrZero(before), SequenceOf(e),
        OrZero(MarkSequence(before, previous, e)));
      assert events == earlier + [e];
      FlatMapAppend(SequenceOf, earlier, [e]);
      FlatMapCons(SequenceOf, e, []);
    }
  }

  lemma {:induction false} OnlyNumber(m: int)
    ensures IsMaximum(m, [m] + [])
  {
    assert ([m] + [])[0] == m;
  }

  /** The window of known ids and the actions after one event; a message without id is never filtered. */
  function RouteOne(
    kind: Kind, delayMode: bool, window: seq<string>, actions: seq<Action>, e: WatchEvent): (seq<string>, seq<Action>)
  {
    if !(e.WatchEvent? && e.isAdd && Wanted(e.body)) then (window, actions)
    else
      var m := e.body.value;
      if m.messageId == "" then (window, actions + [Route(kind, delayMode, m)])
      else
        var (window', seen) := Remember(window, MOCHAT_WINDOW, m.messageId);
        (window', if seen then actions else actions + [Route(kind, delayMode, m)])
  }

  function RouteAll(
    kind: Kind, delayMode: bool, window: seq<string>, events: seq<WatchEvent>): (seq<string>, seq<Action>)
  {
    if events == [] then (window, [])
    else
      var (w, actions) := RouteAll(kind, delayMode, window, events[..|events| - 1]);
      RouteOne(kind, delayMode, w, actions, events[|events| - 1])
  }

  lemma {:induction false} RouteOneBehind(
    kind: Kind, delayMode: bool, window: seq<string>, x: seq<Action>, y: seq<Action>, e: WatchEvent)
    ensures var (w, actions) := RouteOne(kind, delayMode, window, y, e);
      RouteOne(kind, delayMode, window, x + y, e) == (w, x + actions)
  {
    hide Route, Remember;
    if e.WatchEvent? && e.isAdd && Wanted(e.body) {
      var routed := [Route(kind, delayMode, e.body.value)];
      assert x + (y + routed) == x + y + routed;
    }
  }

  lemma {:induction false} RouteAppend(
    kind: Kind, delayMode: bool, window: seq<string>, a: seq<WatchEvent>, b: seq<WatchEvent>)
    ensures var (w1, x) := RouteAll(kind, delayMode, window, a);
            var (w2, y) := RouteAll(kind, delayMode, w1, b);
      RouteAll(kind, delayMode, window, a + b) == (w2, x + y)
  {
    hide RouteOne;
    var (w1, x) := RouteAll(kind, delayMode, window, a);
    if b == [] {
      assert a + b == a && x + [] == x;
    } else {
      var last := |b| - 1;
      RouteAppend(kind, delayMode, window, a, b[..last]);
      assert (a + b)[..|a + b| - 1] == a + b[..last];
      var (w2, y) := RouteAll(kind, delayMode, w1, b[..last]);
      RouteOneBehind(kind, delayMode, w2, x, y, b[last]);
    }
  }

  /** The id an event offers for routing, if it has one. */
  function Offered(e: WatchEvent): seq<string> {
    if e.WatchEvent? && e.isAdd && Wanted(e.body) && e.body.value.messageId != "" then [e.body.value.messageId] else []
  }

  function RoutedId(a: Action): seq<string> {
    if a.m.messageId != "" then [a.m.messageId] else []
  }

  /** The routed ids are those that the sliding window accepts of the offered ones. */
  lemma {:induction false} RoutedAreAccepted(kind: Kind, delayMode: bool, events: seq<WatchEvent>)
    ensures var (window, actions) := RouteAll(kind, delayMode, [], events);
      (window, FlatMap(RoutedId, actions)) == RunWindow(MOCHAT_WINDOW, FlatMap(Offered, events))
  {
    hide RouteOne, Remember, Offered, RunWindow, FlatMap;
    FlatMapCons(Offered, NotAnObject, []);
    if events == [] {
      NothingRouted();
    } else {
      var last := |events| - 1;
      var earlier, e := events[..last], events[last];
      RoutedAreAccepted(kind, delayMode, earlier);
      var (window, actions) := RouteAll(kind, delayMode, [], earlier);
      RoutedStep(kind, delayMode, window, actions, FlatMap(Offered, earlier), e);
      assert events == earlier + [e];
      FlatMapAppend(Offered, earlier, [e]);
      FlatMapCons(Offered, e, []);
    }
  }

  lemma {:induction false} NothingRouted()
    ensures FlatMap(RoutedId, []) == [] && RunWindow(MOCHAT_WINDOW, []) == ([], [])
  {
  }

  lemma {:induction false} RoutedStep(
    kind: Kind, delayMode: bool, window: seq<string>, actions: seq<Action>, offered: seq<string>, e: WatchEvent)
    requires (window, FlatMap(RoutedId, actions)) == RunWindow(MOCHAT_WINDOW, offered)
    ensures var (window', actions') := RouteOne(kind, delayMode, window, actions, e);
      (window', FlatMap(RoutedId, actions')) == RunWindow(MOCHAT_WINDOW, offered + Offered(e))
  {
    hide Remember, FlatMap;
    if e.WatchEvent? && e.isAdd && Wanted(e.body) {
      var m := e.body.value;
      var action := Route(kind, delayMode, m);
      FlatMapAppend(RoutedId, actions, [action]);
      FlatMapCons(RoutedId, action, []);
      if m.messageId == "" {
        assert offered + [] == offered;
        assert FlatMap(RoutedId, actions) + [] == FlatMap(RoutedId, actions);
      } else {
        assert (offered + [m.messageId])[..|offered|] == offered;
      }
    } else {
      assert offered + [] == offered;
    }
  }

  /* ---------- payloads of one target ---------- */

  /** What the channel knows of one target. */
  datatype Target = Target(cursor: Option<int>, cold: bool, window: seq<string>)

  /** One payload: the cursor follows it; a cold session takes nothing else from its first event list. */
  function Handle(kind: Kind, delayMode: bool, t: Target, p: Payload): (Target, seq<Action>) {
    var marked := MarkPayload(kind, t.cursor, p);
    if p.events.None? then (t.(cursor := marked), [])
    else if kind.SessionTarget? && t.cold then (t.(cursor := marked, cold := false), [])
    else
      var (window, actions) := RouteAll(kind, delayMode, t.window, p.events.value);
      var cursor := if kind.SessionTarget? then MarkAll(marked, OrZero(t.cursor), p.events.value) else marked;
      (Target(cursor, t.cold, window), actions)
  }

  function MarkPayload(kind: Kind, cursor: Option<int>, p: Payload): Option<int> {
    if kind.SessionTarget? && p.cursor.Some? && p.cursor.value >= 0 then Mark(cursor, p.cursor.value) else cursor
  }

  function HandleAll(kind: Kind, delayMode: bool, t: Target, payloads: seq<Payload>): (Target, seq<Action>)
    decreases |payloads|
  {
    if payloads == [] then (t, [])
    else
      var (t1, actions) := Handle(kind, delayMode, t, payloads[0]);
      var (t2, more) := HandleAll(kind, delayMode, t1, payloads[1..]);
      (t2, actions + more)
  }

  /** The events of these payloads that are looked at; the first list of a cold session is not. */
  function Processed(kind: Kind, cold: bool, payloads: seq<Payload>): seq<WatchEvent>
    decreases |payloads|
  {
    if payloads == [] then []
    else if payloads[0].events.None? then Processed(kind, cold, payloads[1..])
    else if kind.SessionTarget? && cold then Processed(kind, false, payloads[1..])
    else payloads[0].events.value + Processed(kind, cold, payloads[1..])
  }

  lemma {:induction false} HandleAllRoutes(kind: Kind, delayMode: bool, t: Target, payloads: seq<Payload>)
    ensures var (t', actions) := HandleAll(kind, delayMode, t, payloads);
      (t'.window, actions) == RouteAll(kind, delayMode, t.window, Processed(kind, t.cold, payloads))
    decreases |payloads|
  {
    hide RouteOne, MarkAll, MarkPayload;
    if payloads == [] {
    } else {
      var p, rest := payloads[0], payloads[1..];
      var (t1, actions) := Handle(kind, delayMode, t, p);
      HandleAllRoutes(kind, delayMode, t1, rest);
      if p.events.None? || (kind.SessionTarget? && t.cold) {
        var more := HandleAll(kind, delayMode, t1, rest).1;
        assert [] + more == more;
      } else {
        RouteAppend(kind, delayMode, t.window, p.events.value, Processed(kind, t.cold, rest));
      }
    }
  }

  /** Over any payloads of a target that starts with an empty window, two routed messages with one id are more
      than the window apart, every offered id is routed, and with no more different ids than the window holds
      each of them is routed exactly once. */
  lemma {:induction false} RoutedOnceWithinWindow(kind: Kind, delayMode: bool, t: Target, payloads: seq<Payload>)
    requires t.window == []
    ensures var routed := FlatMap(RoutedId, HandleAll(kind, delayMode, t, payloads).1);
            var offered := FlatMap(Offered, Processed(kind, t.cold, payloads));
      && (forall i, j :: 0 <= i < j < |routed| && routed[i] == routed[j] ==> j - i > MOCHAT_WINDOW)
      && Elements(routed) == Elements(offered)
      && (|Elements(offered)| <= MOCHAT_WINDOW ==> NoDuplicates(routed))
  {
    hide RouteAll, HandleAll, Processed, RoutedId, Offered, FlatMap, RunWindow;
    var events := Processed(kind, t.cold, payloads);
    var offered := FlatMap(Offered, events);
    HandleAllRoutes(kind, delayMode, t, payloads);
    RoutedAreAccepted(kind, delayMode, events);
    forall i, j | 0 <= i < j < |RunWindow(MOCHAT_WINDOW, offered).1|
                  && RunWindow(MOCHAT_WINDOW, offered).1[i] == RunWindow(MOCHAT_WINDOW, offered).1[j]
      ensures j - i > MOCHAT_WINDOW
    {
      RedeliveryGap(MOCHAT_WINDOW, offered, i, j);
    }
    AllDelivered(MOCHAT_WINDOW, offered);
    if |Elements(offered)| <= MOCHAT_WINDOW {
      ExactlyOnceWithinWindow(MOCHAT_WINDOW, offered);
    }
  }

  /** The numbers that count for a session's cursor: the payloads' own cursors, and the sequence numbers of the
      events that are looked at. */
  function Counted(cold: bool, payloads: seq<Payload>): seq<int>
    decreases |payloads|
  {
    if payloads == [] then []
    else
      CountedOne(cold, payloads[0]) + Counted(cold && payloads[0].events.None?, payloads[1..])
  }

  function CountedOne(cold: bool, p: Payload): seq<int> {
    (if p.cursor.Some? && p.cursor.value >= 0 then [p.cursor.value] else []) +
    (if p.events.Some? && !cold then FlatMap(SequenceOf, p.events.value) else [])
  }

  lemma {:induction false} HandleMarks(delayMode: bool, t: Target, p: Payload)
    requires OrZero(t.cursor) >= 0
    ensures var t' := Handle(SessionTarget, delayMode, t, p).0;
      && IsMaximum(OrZero(t'.cursor), [OrZero(t.cursor)] + CountedOne(t.cold, p)) && OrZero(t'.cursor) >= 0
      && t'.cold == (t.cold && p.events.None?)
  {
    var own := if p.cursor.Some? && p.cursor.value >= 0 then [p.cursor.value] else [];
    var marked := MarkPayload(SessionTarget, t.cursor, p);
    PayloadMark(t.cursor, p);
    hide MarkPayload, IsMaximum, RouteAll, MarkAll;
    if p.events.Some? && !t.cold {
      CursorIsLargest(marked, OrZero(t.cursor), p.events.value);
      MaximumAppend(OrZero(t.cursor), own, OrZero(marked), FlatMap(SequenceOf, p.events.value),
        OrZero(MarkAll(marked, OrZero(t.cursor), p.events.value)));
    } else {
      assert own + [] == own;
    }
  }

  lemma {:induction false} PayloadMark(cursor: Option<int>, p: Payload)
    requires OrZero(cursor) >= 0
    ensures var own := if p.cursor.Some? && p.cursor.value >= 0 then [p.cursor.value] else [];
            var marked := MarkPayload(SessionTarget, cursor, p);
      && IsMaximum(OrZero(marked), [OrZero(cursor)] + own) && OrZero(marked) >= 0
      && (marked.None? ==> OrZero(cursor) == 0)
  {
    var own := if p.cursor.Some? && p.cursor.value >= 0 then [p.cursor.value] else [];
    assert ([OrZero(cursor)] + own)[0] == OrZero(cursor);
    assert own != [] ==> ([OrZero(cursor)] + own)[1] == p.cursor.value;
  }

  /** Over any payloads, a session's cursor is the maximum of its start and of every number that counts. */
  lemma {:induction false} CursorIsMaximum(delayMode: bool, t: Target, payloads: seq<Payload>)
    requires OrZero(t.cursor) >= 0
    ensures var t' := HandleAll(SessionTarget, delayMode, t, payloads).0;
      IsMaximum(OrZero(t'.cursor), [OrZero(t.cursor)] + Counted(t.cold, payloads))
    decreases |payloads|
  {
    hide Handle, IsMaximum, CountedOne;
    if payloads == [] {
      OnlyNumber(OrZero(t.cursor));
    } else {
      var t1 := Handle(SessionTarget, delayMode, t, payloads[0]).0;
      HandleMarks(delayMode, t, payloads[0]);
      CursorIsMaximum(delayMode, t1, payloads[1..]);
      MaximumAppend(OrZero(t.cursor), CountedOne(t.cold, payloads[0]), OrZero(t1.cursor),
        Counted(t1.cold, payloads[1..]), OrZero(HandleAll(SessionTarget, delayMode, t1, payloads[1..]).0.cursor));
    }
  }

  class MochatChannel {
    const delayMode: bool
    const seen: MochatSeen
    var sessionCursor: map<string, int>
    var coldSessions: set<string>

    constructor (delayMode: bool)
      ensures seen.Valid() && fresh(seen) && sessionCursor == map[] && coldSessions == {}
    {
      this.delayMode := delayMode;
      seen := new MochatSeen();
      sessionCursor, coldSessions := map[], {};
    }

    function CursorOf(id: string): Option<int>
      reads this
    {
      if id in sessionCursor then Some(sessionCursor[id]) else None
    }

    ghost predicate Valid()
      reads this, seen
    {
      seen.Valid() && forall id :: id in sessionCursor ==> sessionCursor[id] >= 0
    }

    static function KeyOf(kind: Kind, target: string): string {
      (if kind.SessionTarget? then "session:" else "panel:") + target
    }

    method MarkSessionCursor(id: string, cursor: int)
      requires Valid()
      modifies this`sessionCursor
      ensures Valid()
      ensures CursorOf(id) == Mark(old(CursorOf(id)), cursor)
      ensures forall other :: other != id ==> CursorOf(other) == old(CursorOf(other))
    {
      if cursor < 0 || cursor < (if id in sessionCursor then sessionCursor[id] else 0) {
        return;
      }
      sessionCursor := sessionCursor[id := cursor];
    }

    function TargetOf(kind: Kind, id: string): Target
      reads this, seen
    {
      Target(CursorOf(id), id in coldSessions, seen.QueueOf(KeyOf(kind, id)))
    }

    /** Process one watch payload of its target; the other sessions and the other windows stay as they are. */
    method HandleWatchPayload(kind: Kind, p: Payload) returns (actions: seq<Action>)
      requires Valid()
      modifies this`sessionCursor, this`coldSessions, seen
      ensures Valid()
      ensures p.sessionId == "" ==>
        actions == [] && sessionCursor == old(sessionCursor) && coldSessions == old(coldSessions)
        && forall key :: seen.QueueOf(key) == old(seen.QueueOf(key))
      ensures p.sessionId != "" ==>
        (TargetOf(kind, p.sessionId), actions) == Handle(kind, delayMode, old(TargetOf(kind, p.sessionId)), p)
      ensures forall other :: other != p.sessionId ==>
        CursorOf(other) == old(CursorOf(other)) && (other in coldSessions <==> other in old(coldSessions))
      ensures forall key :: key != KeyOf(kind, p.sessionId) ==> seen.QueueOf(key) == old(seen.QueueOf(key))
    {
      actions := [];
      if p.sessionId == "" {
        return;
      }
      var key := KeyOf(kind, p.sessionId);
      var previous := if kind.SessionTarget? && p.sessionId in sessionCursor then sessionCursor[p.sessionId] else 0;
      if kind.SessionTarget? && p.cursor.Some? && p.cursor.value >= 0 {
        MarkSessionCursor(p.sessionId, p.cursor.value);
      }
      if p.events.None? {
        return;
      }
      if kind.SessionTarget? && p.sessionId in coldSessions {
        coldSessions := coldSessions - {p.sessionId};
        return;
      }
      var events := p.events.value;
      ghost var marked := CursorOf(p.sessionId);
      ghost var queue := seen.QueueOf(key);
      hide RouteOne, MarkSequence, Mark;
      for i := 0 to |events|
        invariant Valid() && coldSessions == old(coldSessions)
        invariant CursorOf(p.sessionId) == if kind.SessionTarget? then MarkAll(marked, previous, events[..i]) else marked
        invariant forall other :: other != p.sessionId ==> CursorOf(other) == old(CursorOf(other))
        invariant forall other :: other != key ==> seen.QueueOf(other) == old(seen.QueueOf(other))
        invariant (seen.QueueOf(key), actions) == RouteAll(kind, delayMode, queue, events[..i])
      {
        assert events[..i + 1][..i] == events[..i];
        actions := HandleEvent(kind, p.sessionId, previous, events[i], actions);
      }
      assert events[..|events|] == events;
    }

    /** The body of the event loop: follow the sequence number, then route an added message. */
    method HandleEvent(kind: Kind, target: string, previous: int, e: WatchEvent, actions: seq<Action>)
      returns (actions': seq<Action>)
      requires Valid()
      modifies this`sessionCursor, seen
      ensures Valid()
      ensures CursorOf(target) ==
        if kind.SessionTarget? then MarkSequence(old(CursorOf(target)), previous, e) else old(CursorOf(target))
      ensures OrZero(CursorOf(target)) >= OrZero(old(CursorOf(target)))
      ensures forall other :: other != target ==> CursorOf(other) == old(CursorOf(other))
      ensures forall key :: key != KeyOf(kind, target) ==> seen.QueueOf(key) == old(seen.QueueOf(key))
      ensures (seen.QueueOf(KeyOf(kind, target)), actions') ==
        RouteOne(kind, delayMode, old(seen.QueueOf(KeyOf(kind, target))), actions, e)
    {
      actions' := actions;
      if e.NotAnObject? {
        return;
      }
      if kind.SessionTarget? && e.sequence.Some?
         && e.sequence.value > (if target in sessionCursor then sessionCursor[target] else previous) {
        MarkSessionCursor(target, e.sequence.value);
      }
      if e.isAdd {
        var action := ProcessInboundEvent(kind, target, e.body);
        if action.Some? {
          actions' := actions + [action.value];
        }
      }
    }

    /** Filter one message and decide its route; None when it is dropped before routing. */
    method ProcessInboundEvent(kind: Kind, target: string, body: Option<Inbound>) returns (action: Option<Action>)
      requires Valid()
      modifies seen
      ensures Valid()
      ensures forall key :: key != KeyOf(kind, target) ==> seen.QueueOf(key) == old(seen.QueueOf(key))
      ensures var key := KeyOf(kind, target);
        var queue := old(seen.QueueOf(key));
        if !Wanted(body) then action == None && seen.QueueOf(key) == queue
        else if body.value.messageId == "" then
          action == Some(Route(kind, delayMode, body.value)) && seen.QueueOf(key) == queue
        else
          var (queue', known) := Remember(queue, MOCHAT_WINDOW, body.value.messageId);
          seen.QueueOf(key) == queue' && action == if known then None else Some(Route(kind, delayMode, body.value))
    {
      if body.None? || body.value.author == "" || body.value.own || !body.value.allowed {
        return None;
      }
      var m := body.value;
      if m.messageId != "" {
        var known := seen.RememberMessageId(KeyOf(kind, target), m.messageId);
        if known {
          return None;
        }
      }
      return Some(Route(kind, delayMode, m));
    }
  }
}
