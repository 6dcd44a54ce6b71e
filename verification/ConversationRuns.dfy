/** Whole runs of one conversation: turns, consolidation rounds split at their await, /new and restarts
    (nanobot/agent/loop.py, nanobot/agent/memory.py and nanobot/session/manager.py together). */
module ConversationRuns {
  import opened Prelude
  import opened Chat
  import opened SessionHistory
  import opened SessionStore
  import opened AgentTurns
  import opened MemoryArchive

  /** A round suspended at the model call: the session object it holds, the cut it chose, the chunk it sent. */
  datatype Waiting = Waiting(holder: nat, end: nat, chunk: seq<Message>)

  /** One conversation key. `objects` are the Session objects of this process, oldest first; `cached` is the
      one the manager holds. `archived` and `log` record what was confirmed archived and what turns saved
      since the last /new. */
  datatype State = State(
    objects: seq<SessionValue>,
    cached: Option<nat>,
    file: Option<seq<Line>>,
    waiting: Option<Waiting>,
    archived: seq<Message>,
    log: seq<Message>)
  {
    predicate WellFormed() {
      && (cached.Some? ==> cached.value < |objects|)
      && (waiting.Some? ==> waiting.value.holder < |objects|)
    }
  }

  datatype Event =
    | Turn(input: TurnInput)
    | StartRound(holder: nat, tokens: Message -> Tokens, demand: int)
    | FinishRound(confirmed: bool)
    | New
    | Restart

  const INITIAL := State([], None, None, None, [], [])

  function FromFile(file: Option<seq<Line>>): SessionValue {
    if file.Some? then Reloaded(file.value) else EMPTY_SESSION
  }

  /** The session value the next message will be processed against. */
  function Current(s: State): SessionValue
    requires s.WellFormed()
  {
    if s.cached.Some? then s.objects[s.cached.value] else FromFile(s.file)
  }

  /** get_or_create: the cached object, or a new one read from the file. */
  function GetOrCreate(s: State): (r: (State, nat))
    requires s.WellFormed()
    ensures r.0.WellFormed() && r.0.cached == Some(r.1) && r.1 < |r.0.objects|
  {
    if s.cached.Some? then (s, s.cached.value)
    else (s.(objects := s.objects + [FromFile(s.file)], cached := Some(|s.objects|)), |s.objects|)
  }

  /** save: write the object to the file and make it the cached object, whichever object was cached before. */
  function SaveObject(s: State, o: nat, v: SessionValue): (s': State)
    requires s.WellFormed() && o < |s.objects|
    ensures s'.WellFormed()
  {
    s.(objects := s.objects[o := v], cached := Some(o), file := Some(FileOf(v)))
  }

  function TurnStep(s: State, turn: seq<Message>): (s': State)
    requires s.WellFormed()
    ensures s'.WellFormed()
  {
    var (s1, o) := GetOrCreate(s);
    var v := s1.objects[o];
    SaveObject(s1, o, v.(messages := v.messages + turn)).(log := s.log + turn)
  }

  /** A round may start on any object some task still holds; the lock admits one round at a time. */
  function StartStep(s: State, o: nat, tokens: Message -> Tokens, demand: int): (s': State)
    requires s.WellFormed()
    ensures s'.WellFormed()
  {
    if s.waiting.Some? || o >= |s.objects| then s
    else
      var v := s.objects[o];
      match Pick(v.messages, tokens, v.lastConsolidated, demand)
      case None => s
      case Some(end) => s.(waiting := Some(Waiting(o, end, v.messages[v.lastConsolidated..end])))
  }

  function FinishStep(s: State, confirmed: bool): (s': State)
    requires s.WellFormed()
    ensures s'.WellFormed()
  {
    if s.waiting.None? then s
    else if !confirmed then s.(waiting := None)
    else
      var w := s.waiting.value;
      SaveObject(s, w.holder, s.objects[w.holder].(lastConsolidated := w.end))
        .(waiting := None, archived := s.archived + w.chunk)
  }

  function NewStep(s: State): (s': State)
    requires s.WellFormed()
    ensures s'.WellFormed()
  {
    var (s1, o) := GetOrCreate(s);
    SaveObject(s1, o, s1.objects[o].(messages := [], lastConsolidated := 0)).(cached := None, archived := [], log := [])
  }

  function Step(s: State, e: Event): (s': State)
    requires s.WellFormed()
    ensures s'.WellFormed()
  {
    match e
    case Turn(t) => TurnStep(s, SavedTurn(t))
    case StartRound(o, tokens, demand) => StartStep(s, o, tokens, demand)
    case FinishRound(confirmed) => FinishStep(s, confirmed)
    case New => NewStep(s)
    case Restart => s.(objects := [], cached := None, waiting := None)
  }

  function Run(s: State, events: seq<Event>): (s': State)
    requires s.WellFormed()
    ensures s'.WellFormed()
    decreases |events|
  {
    if events == [] then s else Run(Step(s, events[0]), events[1..])
  }

  /* ---------- the invariant ---------- */

  /** The session holds exactly what the turns saved, its blocks are paired, its offset is a turn boundary,
      and what lies before the offset is exactly what was confirmed archived. */
  predicate Sound(v: SessionValue, archived: seq<Message>, log: seq<Message>) {
    && v.messages == log
    && Paired(v.messages)
    && TurnBoundary(v.messages, v.lastConsolidated)
    && archived == v.messages[..v.lastConsolidated]
  }

  predicate Good(s: State) {
    && s.WellFormed()
    && Sound(Current(s), s.archived, s.log)
    && (s.cached.Some? ==> s.file == Some(FileOf(Current(s))))
    && (forall o :: 0 <= o < |s.objects| && s.cached != Some(o) ==> s.objects[o].messages == [])
    && (s.waiting.Some? ==>
          && s.cached == Some(s.waiting.value.holder)
          && var v := Current(s);
             IsCut(v.messages, v.lastConsolidated, s.waiting.value.end)
             && s.waiting.value.chunk == v.messages[v.lastConsolidated..s.waiting.value.end])
  }

  /** Turns come from the agent, and /new is only issued while no round waits. */
  predicate Polite(s: State, e: Event) {
    && (e.Turn? ==> e.input.Valid())
    && (e.New? ==> s.waiting.None?)
  }

  predicate PoliteRun(s: State, events: seq<Event>)
    requires s.WellFormed()
    decreases |events|
  {
    events == [] || (Polite(s, events[0]) && PoliteRun(Step(s, events[0]), events[1..]))
  }

  lemma {:induction false} GrownStaysSound(
    v: SessionValue, archived: seq<Message>, log: seq<Message>, turn: seq<Message>)
    requires Sound(v, archived, log) && Paired(turn)
    ensures Sound(v.(messages := v.messages + turn), archived, log + turn)
    ensures forall k :: IsCut(v.messages, v.lastConsolidated, k) ==> IsCut(v.messages + turn, v.lastConsolidated, k)
  {
    PairedAppend(v.messages, turn);
    assert (v.messages + turn)[..v.lastConsolidated] == v.messages[..v.lastConsolidated];
  }

  lemma {:induction false} TurnKeepsGood(s: State, turn: seq<Message>)
    requires Good(s) && Paired(turn)
    ensures Good(TurnStep(s, turn))
  {
    hide Load, Paired;
    var v := Current(s);
    var (s1, o) := GetOrCreate(s);
    assert s1.objects[o] == v;
    GrownStaysSound(v, s.archived, s.log, turn);
    if s.waiting.Some? {
      var w := s.waiting.value;
      assert (v.messages + turn)[v.lastConsolidated..w.end] == v.messages[v.lastConsolidated..w.end];
    }
  }

  /** A round on an idle object takes what lies in front of the boundary; confirmed, it moves the offset there, saves
      the object and archives exactly that, and unconfirmed it leaves everything as it was. */
  lemma {:induction false} RoundArchivesChunk(
    s: State, o: nat, tokens: Message -> Tokens, demand: int, confirmed: bool)
    requires s.WellFormed() && s.waiting.None? && o < |s.objects|
    ensures var v := s.objects[o];
            var cut := Pick(v.messages, tokens, v.lastConsolidated, demand);
            var waits := StartStep(s, o, tokens, demand);
            var done := FinishStep(waits, confirmed);
      if cut.None? then waits == s
      else
        && waits.waiting.Some? && waits.(waiting := None) == s && done.waiting.None?
        && if !confirmed then done == s
           else
             var v' := v.(lastConsolidated := cut.value);
             && done.objects == s.objects[o := v'] && done.cached == Some(o) && done.file == Some(FileOf(v'))
             && done.archived == s.archived + v.messages[v.lastConsolidated..cut.value] && done.log == s.log
  {
    hide Pick, FileOf;
  }

  lemma {:induction false} StartKeepsGood(s: State, o: nat, tokens: Message -> Tokens, demand: int)
    requires Good(s)
    ensures Good(StartStep(s, o, tokens, demand))
  {
  }

  lemma {:induction false} FinishKeepsGood(s: State, confirmed: bool)
    requires Good(s)
    ensures Good(FinishStep(s, confirmed))
  {
    hide Load, Paired;
    if s.waiting.Some? && confirmed {
      var v, w := Current(s), s.waiting.value;
      assert v.messages[..w.end] == v.messages[..v.lastConsolidated] + w.chunk;
    }
  }

  lemma {:induction false} NewKeepsGood(s: State)
    requires Good(s) && s.waiting.None?
    ensures Good(NewStep(s))
  {
    hide Load;
    var (s1, o) := GetOrCreate(s);
    SaveLoadRoundTrip(s1.objects[o].(messages := [], lastConsolidated := 0));
  }

  lemma {:induction false} RestartKeepsGood(s: State)
    requires Good(s)
    ensures Good(Step(s, Restart))
  {
    hide Load, Paired;
    if s.cached.Some? {
      SaveLoadRoundTrip(Current(s));
    }
  }

  lemma {:induction false} StepKeepsGood(s: State, e: Event)
    requires Good(s) && Polite(s, e)
    ensures Good(Step(s, e))
  {
    hide Good, SavedTurn;
    match e {
      case Turn(t) =>
        TurnIsPaired(t);
        TurnKeepsGood(s, SavedTurn(t));
      case StartRound(o, tokens, demand) => StartKeepsGood(s, o, tokens, demand);
      case FinishRound(confirmed) => FinishKeepsGood(s, confirmed);
      case New => NewKeepsGood(s);
      case Restart => RestartKeepsGood(s);
    }
  }

  /** Over every run in which /new never overtakes a waiting round, nothing a turn saved is lost: the session
      is the archived messages followed by the visible ones, in order, whatever was interleaved. */
  lemma {:induction false} RunKeepsGood(s: State, events: seq<Event>)
    requires Good(s) && PoliteRun(s, events)
    ensures Good(Run(s, events))
    decreases |events|
  {
    if events == [] {
    } else {
      StepKeepsGood(s, events[0]);
      RunKeepsGood(Step(s, events[0]), events[1..]);
    }
  }

  /** What the turns saved since the last /new, behind what was there before. */
  function TurnsSinceNew(before: seq<Message>, events: seq<Event>): seq<Message>
    decreases |events|
  {
    if events == [] then before
    else
      match events[0]
      case Turn(t) => TurnsSinceNew(before + SavedTurn(t), events[1..])
      case New => TurnsSinceNew([], events[1..])
      case _ => TurnsSinceNew(before, events[1..])
  }

  lemma {:induction false} LogIsTurns(s: State, events: seq<Event>)
    requires s.WellFormed()
    ensures Run(s, events).log == TurnsSinceNew(s.log, events)
    decreases |events|
  {
    hide SavedTurn;
    if events != [] {
      LogIsTurns(Step(s, events[0]), events[1..]);
    }
  }

  /** In every state such a run reaches, every result stands in the block of its call, the window handed to the
      model needs no orphan trimming, and once a prefix is archived the window is precisely everything that is
      not. */
  lemma {:induction false} ReachableHistory(events: seq<Event>)
    requires PoliteRun(INITIAL, events)
    ensures var s := Run(INITIAL, events);
            var v := Current(s);
      && Paired(v.messages) && v.lastConsolidated <= |v.messages|
      && s.archived + v.messages[v.lastConsolidated..] == TurnsSinceNew([], events)
      && LegalStart(AlignToUser(v.messages[v.lastConsolidated..])) == 0
      && (s.archived != [] ==> History(v.messages, v.lastConsolidated, 0) == Project(v.messages[v.lastConsolidated..]))
  {
    InitialIsGood();
    RunKeepsGood(INITIAL, events);
    LogIsTurns(INITIAL, events);
    hide Good, Current, Run, PoliteRun, Sound, LegalStart, AlignToUser, History, Paired;
    var s := Run(INITIAL, events);
    GoodIsSound(s);
    SoundWindow(Current(s), s.archived, s.log);
  }

  lemma {:induction false} InitialIsGood()
    ensures Good(INITIAL)
  {
  }

  lemma {:induction false} GoodIsSound(s: State)
    requires Good(s)
    ensures Sound(Current(s), s.archived, s.log)
  {
    hide Sound, Current;
  }

  lemma {:induction false} SoundWindow(v: SessionValue, archived: seq<Message>, log: seq<Message>)
    requires Sound(v, archived, log)
    ensures Paired(v.messages) && v.lastConsolidated <= |v.messages|
    ensures archived + v.messages[v.lastConsolidated..] == log
    ensures LegalStart(AlignToUser(v.messages[v.lastConsolidated..])) == 0
    ensures archived != [] ==> History(v.messages, v.lastConsolidated, 0) == Project(v.messages[v.lastConsolidated..])
  {
    hide Paired, LegalStart, AlignToUser, History, Project;
    FullWindowNeedsNoTrim(v.messages, v.lastConsolidated);
    assert v.messages[..v.lastConsolidated] + v.messages[v.lastConsolidated..] == v.messages;
  }

  /* ---------- /new overtaking a waiting round ---------- */

  /** From a good state, issuing /new and then letting a round be confirmed is safe iff no round was waiting:
      otherwise the cleared session comes back with an offset past its end. */
  lemma {:induction false} NewIsSafeIffNothingWaits(s: State)
    requires Good(s)
    ensures Good(FinishStep(NewStep(s), true)) <==> s.waiting.None?
  {
    if s.waiting.None? {
      NewKeepsGood(s);
    } else {
      var s' := FinishStep(NewStep(s), true);
      assert Current(s').messages == [] && Current(s').lastConsolidated == s.waiting.value.end;
    }
  }

  /** What the overtaken round does to a turn saved after /new: its save puts the cleared object back into the
      cache and over the file, so the turn is in neither, and was never archived. */
  lemma {:induction false} OvertakenRoundDropsTurn(s: State, turn: seq<Message>)
    requires Good(s) && s.waiting.Some?
    ensures var s' := FinishStep(TurnStep(NewStep(s), turn), true);
            var end := s.waiting.value.end;
      && s'.log == turn && end > 0
      && s'.cached == Some(s.waiting.value.holder)
      && Current(s').messages == [] && Current(s').lastConsolidated == end
      && s'.file == Some(FileOf(Current(s')))
      && s'.archived == s.waiting.value.chunk
  {
  }

  function RunTurns(s: State, turns: seq<seq<Message>>): (s': State)
    requires s.WellFormed()
    ensures s'.WellFormed()
    decreases |turns|
  {
    if turns == [] then s else RunTurns(TurnStep(s, turns[0]), turns[1..])
  }

  lemma {:induction false} RunTurnsAppends(s: State, turns: seq<seq<Message>>)
    requires s.WellFormed() && s.cached.Some?
    ensures RunTurns(s, turns).cached == s.cached
    ensures Current(RunTurns(s, turns)) == Current(s).(messages := Current(s).messages + Flatten(turns))
    decreases |turns|
  {
    hide Load;
    if turns == [] {
      assert Current(s).messages + Flatten(turns) == Current(s).messages;
    } else {
      RunTurnsAppends(TurnStep(s, turns[0]), turns[1..]);
      assert Current(s).messages + turns[0] + Flatten(turns[1..]) == Current(s).messages + Flatten(turns);
    }
  }

  lemma {:induction false} HistoryPastTheEnd(ms: seq<Message>, offset: nat)
    requires |ms| <= offset
    ensures History(ms, offset, 0) == []
  {
  }

  /** And afterwards the model sees none of the conversation until it outgrows the stale offset. */
  lemma {:induction false} StaleOffsetHidesHistory(s: State, turns: seq<seq<Message>>)
    requires s.WellFormed() && s.cached.Some?
    requires |Current(s).messages| + |Flatten(turns)| <= Current(s).lastConsolidated
    ensures var v := Current(RunTurns(s, turns));
      && v.messages == Current(s).messages + Flatten(turns)
      && History(v.messages, v.lastConsolidated, 0) == []
  {
    RunTurnsAppends(s, turns);
    var v := Current(RunTurns(s, turns));
    HistoryPastTheEnd(v.messages, v.lastConsolidated);
  }
}
