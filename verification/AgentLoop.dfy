/** Processing one inbound message against the session store (nanobot/agent/loop.py). */
module AgentLoop {
  import opened Prelude
  import opened Chat
  import opened SessionHistory
  import opened SessionStore
  import opened AgentTurns

  /** Append the entries a turn leaves behind, one message at a time. */
  method SaveTurn(s: Session, messages: seq<Message>, skip: nat, now: string)
    requires skip <= |messages|
    modifies s
    ensures s.Value() == old(s.Value()).(messages := old(s.messages) + Saved(messages[skip..], now))
  {
    hide SaveOne;
    SavedCons(Plain(Tool, NoContent), [], now);
    for i := skip to |messages|
      invariant s.Value() == old(s.Value()).(messages := old(s.messages) + Saved(messages[skip..i], now))
    {
      assert messages[skip..i + 1] == messages[skip..i] + [messages[i]];
      SavedAppend(messages[skip..i], [messages[i]], now);
      SavedCons(messages[i], [], now);
      match SaveOne(messages[i], now) {
        case None =>
        case Some(entry) => s.messages := s.messages + [entry];
      }
    }
    assert messages[skip..|messages|] == messages[skip..];
  }

  /** The session value a key stands for: the cached object's, else the file's, else an empty one. */
  function CurrentValue(sessions: SessionManager, key: string): SessionValue
    reads sessions, sessions.cache.Values
  {
    if key in sessions.cache then sessions.cache[key].Value()
    else if key in sessions.files then Reloaded(sessions.files[key])
    else EMPTY_SESSION
  }

  /** The object of the key that exists already, if any. */
  function Held(sessions: SessionManager, key: string): set<Session>
    reads sessions
  {
    if key in sessions.cache then {sessions.cache[key]} else {}
  }

  /** A normal message: show the whole unconsolidated history, run the loop, save the turn and the session. `s`
      is the session object: the cached one, or a new one. */
  method ProcessTurn(sessions: SessionManager, key: string, system: string, t: TurnInput)
    returns (reply: Option<Reply>, shown: seq<Message>, s: Session)
    requires sessions.Valid()
    modifies sessions, Held(sessions, key)
    ensures sessions.Valid() && s.key == key && sessions.cache == old(sessions.cache)[key := s]
    ensures if key in old(sessions.cache) then s == old(sessions.cache)[key] else fresh(s)
    ensures var before := old(CurrentValue(sessions, key));
      && shown == History(before.messages, before.lastConsolidated, 0) && Legal(shown)
      && s.Value() == before.(messages := before.messages + SavedTurn(t))
      && sessions.files == old(sessions.files)[key := FileOf(s.Value())]
    ensures reply == FinalContent(t.world, t.maxIterations)
  {
    hide LoopTail, FinalContent, History, Load, BuildMessages, Saved, Legal, FileOf;
    s := sessions.GetOrCreate(key);
    shown := s.GetHistory(0);
    var initial := BuildMessages(system, shown, t.context, t.text, t.images, t.role);
    var final, used, all := RunAgentLoop(t.world, initial, t.maxIterations);
    SkipLeavesTheTurn(t, system, shown);
    SaveTurn(s, all, 1 + |shown|, t.now);
    sessions.Save(s);
    reply := final;
  }

  /** /new: take the unconsolidated messages for archiving, then clear, save and forget the session. */
  method ProcessNew(sessions: SessionManager, key: string) returns (snapshot: seq<Message>, s: Session)
    requires sessions.Valid()
    modifies sessions, Held(sessions, key)
    ensures sessions.Valid() && s.key == key && sessions.cache == old(sessions.cache) - {key}
    ensures if key in old(sessions.cache) then s == old(sessions.cache)[key] else fresh(s)
    ensures var before := old(CurrentValue(sessions, key));
      && snapshot == Unconsolidated(before.messages, before.lastConsolidated)
      && s.Value() == before.(messages := [], lastConsolidated := 0)
      && sessions.files == old(sessions.files)[key := FileOf(s.Value())]
  {
    hide Load, FileOf, Unconsolidated;
    s := sessions.GetOrCreate(key);
    snapshot := Unconsolidated(s.messages, s.lastConsolidated);
    s.Clear();
    sessions.Save(s);
    sessions.Invalidate(key);
  }

  /** The prompt round trip: what the user wrote is what the next prompt shows, first in its turn and behind
      the history shown before; nothing already saved changes. Only an old window without any user message
      gives way. */
  lemma {:induction false} NextPromptShowsUserText(
    ms: seq<Message>, offset: nat, t: TurnInput, time: string, channel: string, chatId: string)
    requires Paired(ms) && TurnBoundary(ms, offset)
    requires t.role.User? && t.images == [] && t.context == RuntimeContext(time, channel, chatId)
    requires '\n' !in time && CleanRoute(channel, chatId) && !IsBlank(t.text)
    ensures var turn := SavedTurn(t);
      && turn != [] && Project(turn)[0] == Plain(User, Text(t.text))
      && History(ms + turn, offset, 0) ==
           (if FirstUser(ms[offset..]) < |ms| - offset then History(ms, offset, 0) else []) + Project(turn)
  {
    TurnIsPaired(t);
    PromptRoundTrip(time, channel, chatId, t.text, t.now);
    hide SaveOne, RuntimeContext, LoopTail, History, Paired, TurnBoundary;
    SavedCons(t.Opening(), LoopTail(t.world, 0, t.maxIterations), t.now);
    assert SavedTurn(t)[0] == Plain(User, Text(t.text)).(timestamp := t.now);
    HistoryGrows(ms, offset, SavedTurn(t));
  }
}
