/** The steps of a conversation's runs are what the methods on the session objects do to one key
    (nanobot/agent/loop.py, nanobot/agent/memory.py and nanobot/session/manager.py). */
module ConversationObjects {
  import opened Prelude
  import opened Chat
  import opened SessionHistory
  import opened SessionStore
  import opened AgentTurns
  import opened AgentLoop
  import opened MemoryArchive
  import opened Consolidation
  import opened ConversationRuns

  /** The state is that of the key, whose session objects in this process are `objects`, oldest first. */
  ghost predicate Views(st: State, sessions: SessionManager, key: string, objects: seq<Session>)
    reads sessions, objects
  {
    && st.WellFormed() && sessions.Valid() && |objects| == |st.objects| && NoDuplicates(objects)
    && (forall i :: 0 <= i < |objects| ==> objects[i].key == key && objects[i].Value() == st.objects[i])
    && (if st.cached.Some? then key in sessions.cache && sessions.cache[key] == objects[st.cached.value]
        else key !in sessions.cache)
    && (if st.file.Some? then key in sessions.files && sessions.files[key] == st.file.value
        else key !in sessions.files)
  }

  /** A turn processed on the objects is a turn of the run. */
  method Turn(
    sessions: SessionManager, key: string, system: string, t: TurnInput, ghost st: State, ghost objects: seq<Session>)
    returns (reply: Option<AgentTurns.Reply>, shown: seq<Message>, ghost objects': seq<Session>)
    requires Views(st, sessions, key, objects)
    modifies sessions, Held(sessions, key)
    ensures Views(TurnStep(st, SavedTurn(t)), sessions, key, objects')
    ensures shown == History(Current(st).messages, Current(st).lastConsolidated, 0)
  {
    hide Load, FileOf, SavedTurn, History, FinalContent, Legal;
    var s;
    reply, shown, s := ProcessTurn(sessions, key, system, t);
    objects' := if st.cached.Some? then objects else objects + [s];
  }

  /** /new processed on the objects is a /new of the run. */
  method New(sessions: SessionManager, key: string, ghost st: State, ghost objects: seq<Session>)
    returns (snapshot: seq<Message>, ghost objects': seq<Session>)
    requires Views(st, sessions, key, objects)
    modifies sessions, Held(sessions, key)
    ensures Views(NewStep(st), sessions, key, objects')
    ensures snapshot == Unconsolidated(Current(st).messages, Current(st).lastConsolidated)
  {
    hide Load, FileOf, Unconsolidated;
    var s;
    snapshot, s := ProcessNew(sessions, key);
    objects' := if st.cached.Some? then objects else objects + [s];
  }

  /** Choosing the boundary starts a round, and touches no object. */
  method StartRound(
    s: Session, tokens: Message -> Tokens, demand: int, ghost st: State, ghost o: nat, ghost objects: seq<Session>)
    returns (boundary: Option<(nat, nat)>)
    requires st.WellFormed() && st.waiting.None? && |objects| == |st.objects| && o < |objects| && objects[o] == s
    requires s.Value() == st.objects[o]
    ensures boundary.Some? ==> s.lastConsolidated <= boundary.value.0 <= |s.messages|
    ensures StartStep(st, o, tokens, demand) ==
      if boundary.None? then st
      else st.(waiting := Some(Waiting(o, boundary.value.0, s.messages[s.lastConsolidated..boundary.value.0])))
  {
    hide Pick, Removed;
    boundary := PickConsolidationBoundary(s, tokens, demand);
  }

  /** Confirming the archived chunk on the object finishes the round. */
  method FinishRound(
    consolidator: MemoryConsolidator, s: Session, end: nat, ghost st: State, key: string, ghost objects: seq<Session>)
    requires Views(st, consolidator.sessions, key, objects)
    requires st.waiting.Some? && objects[st.waiting.value.holder] == s && st.waiting.value.end == end
    modifies s, consolidator.sessions
    ensures Views(FinishStep(st, true), consolidator.sessions, key, objects)
  {
    hide FileOf;
    consolidator.Confirm(s, end);
  }

  /** A new process starts from the files. */
  method Restart(files: map<string, seq<Line>>, ghost st: State, key: string) returns (sessions: SessionManager)
    requires st.WellFormed()
    requires if st.file.Some? then key in files && files[key] == st.file.value else key !in files
    ensures fresh(sessions) && Views(Step(st, Event.Restart), sessions, key, [])
  {
    sessions := new SessionManager(files);
  }
}
