/** Whole runs of one conversation together with the memory store: where every message a turn saved is
    (nanobot/agent/loop.py, nanobot/agent/memory.py and nanobot/session/manager.py together). */
module ConversationArchive {
  import opened Prelude
  import opened Chat
  import opened SessionHistory
  import opened SessionStore
  import opened AgentTurns
  import opened MemoryArchive
  import opened Consolidation
  import opened ConversationRuns

  /** A snapshot that /new handed to the background archiver: still being attempted, or given up. */
  datatype Snapshot = Snapshot(messages: seq<Message>, attempts: nat, lost: bool)

  /** The conversation, the shared store, the chunks confirmed since the last /new, the snapshots not known to be
      archived, and every message a turn has saved. */
  datatype Whole = Whole(
    talk: State, store: StoreValue, chunks: seq<seq<Message>>, snapshots: seq<Snapshot>, ever: seq<Message>)

  datatype Happening =
    | TurnSaved(input: TurnInput)
    | RoundStarts(holder: nat, tokens: Message -> Tokens, demand: int)
    | RoundAnswered(reply: MemoryArchive.Reply)
    | NewIssued
    | SnapshotAnswered(index: nat, reply: MemoryArchive.Reply)
    | OtherSession(other: Other)
    | Restarted

  const START := Whole(INITIAL, StoreValue(0, []), [], [], [])

  /** The event of the conversation in a happening; the reply of a round is confirmed when the store says so. */
  function EventOf(w: Whole, h: Happening): Option<Event> {
    match h
    case TurnSaved(t) => Some(Turn(t))
    case RoundStarts(o, tokens, demand) => Some(StartRound(o, tokens, demand))
    case RoundAnswered(reply) =>
      if w.talk.waiting.None? then None
      else Some(FinishRound(Consolidate(w.store, w.talk.waiting.value.chunk, reply).1))
    case NewIssued => Some(New)
    case Restarted => Some(Restart)
    case _ => None
  }

  function TalkAfter(w: Whole, h: Happening): (talk: State)
    requires w.talk.WellFormed()
    ensures talk.WellFormed()
  {
    match EventOf(w, h)
    case None => w.talk
    case Some(e) => Step(w.talk, e)
  }

  /** One attempt at a snapshot: archived and forgotten, or one more failure, of which the third gives it up. */
  function Attempted(s: Snapshot, ok: bool): seq<Snapshot> {
    if ok then [] else [s.(attempts := s.attempts + 1, lost := s.attempts + 1 >= MAX_FAILURES)]
  }

  function Happens(w: Whole, h: Happening): (w': Whole)
    requires w.talk.WellFormed()
    ensures w'.talk.WellFormed()
  {
    var next := w.(talk := TalkAfter(w, h));
    match h
    case TurnSaved(t) => next.(ever := w.ever + SavedTurn(t))
    case RoundAnswered(reply) =>
      if w.talk.waiting.None? then next
      else
        var chunk := w.talk.waiting.value.chunk;
        var (store, ok) := Consolidate(w.store, chunk, reply);
        next.(store := store, chunks := if ok then w.chunks + [chunk] else w.chunks)
    case NewIssued =>
      var v := Current(w.talk);
      var snapshot := Unconsolidated(v.messages, v.lastConsolidated);
      next.(chunks := [], snapshots := w.snapshots + if snapshot == [] then [] else [Snapshot(snapshot, 0, false)])
    case SnapshotAnswered(k, reply) =>
      if k >= |w.snapshots| || w.snapshots[k].lost then next
      else
        var (store, ok) := Consolidate(w.store, w.snapshots[k].messages, reply);
        next.(store := store,
              snapshots := w.snapshots[..k] + Attempted(w.snapshots[k], ok) + w.snapshots[k + 1..])
    case OtherSession(o) => next.(store := Consolidate(w.store, o.chunk, o.reply).0)
    case Restarted =>
      // The background tasks end with the process; the failure counter starts over.
      next.(store := w.store.(failures := 0), snapshots := GivenUp(w.snapshots))
    case _ => next
  }

  function GivenUp(snapshots: seq<Snapshot>): (out: seq<Snapshot>)
    ensures |out| == |snapshots|
    ensures forall i :: 0 <= i < |snapshots| ==> out[i] == snapshots[i].(lost := true)
  {
    seq(|snapshots|, i requires 0 <= i < |snapshots| => snapshots[i].(lost := true))
  }

  function All(w: Whole, happenings: seq<Happening>): (w': Whole)
    requires w.talk.WellFormed()
    ensures w'.talk.WellFormed()
    decreases |happenings|
  {
    if happenings == [] then w else All(Happens(w, happenings[0]), happenings[1..])
  }

  /** /new is only issued while no round waits, and turns come from the agent. */
  predicate PoliteHappening(w: Whole, h: Happening) {
    match EventOf(w, h)
    case None => true
    case Some(e) => Polite(w.talk, e)
  }

  predicate PoliteAll(w: Whole, happenings: seq<Happening>)
    requires w.talk.WellFormed()
    decreases |happenings|
  {
    happenings == [] ||
    (PoliteHappening(w, happenings[0]) && PoliteAll(Happens(w, happenings[0]), happenings[1..]))
  }

  /* ---------- where messages are ---------- */

  /** The message is part of a chunk that stands in the history file. */
  predicate InFile(history: seq<Entry>, m: Message) {
    exists i :: 0 <= i < |history| && m in history[i].chunk
  }

  predicate InSnapshot(snapshots: seq<Snapshot>, m: Message) {
    exists i :: 0 <= i < |snapshots| && m in snapshots[i].messages
  }

  /** The message is in the session, in the history file, or in a snapshot that is still attempted or given up. */
  predicate Somewhere(w: Whole, m: Message) {
    m in w.talk.log || InFile(w.store.history, m) || InSnapshot(w.snapshots, m)
  }

  predicate AllSomewhere(w: Whole) {
    forall m :: m in w.ever ==> Somewhere(w, m)
  }

  /** The chunks confirmed since the last /new are the archived messages, in order, and stand in the file. */
  predicate ChunksFiled(w: Whole) {
    w.talk.archived == Flatten(w.chunks) && AllPersisted(w.store.history, w.chunks)
  }

  predicate Kept(w: Whole) {
    w.talk.WellFormed() && Good(w.talk) && ChunksFiled(w) && AllSomewhere(w)
  }

  lemma {:induction false} FileGrows(h: seq<Entry>, h': seq<Entry>, m: Message)
    requires h <= h'
    ensures InFile(h, m) ==> InFile(h', m)
  {
    if i :| 0 <= i < |h| && m in h[i].chunk {
      assert m in h'[i].chunk;
    }
  }

  lemma {:induction false} ChunksStayFiled(h: seq<Entry>, h': seq<Entry>, chunks: seq<seq<Message>>)
    requires h <= h' && AllPersisted(h, chunks)
    ensures AllPersisted(h', chunks)
  {
    forall i | 0 <= i < |chunks|
      ensures Persisted(h', chunks[i])
    {
      assert Persisted(h, chunks[i]);
      var k :| 0 <= k < |h| && h[k].chunk == chunks[i];
      assert h'[k].chunk == chunks[i];
    }
  }

  lemma {:induction false} FiledIsInFile(h: seq<Entry>, chunk: seq<Message>, m: Message)
    requires Persisted(h, chunk) && m in chunk
    ensures InFile(h, m)
  {
    var k :| 0 <= k < |h| && h[k].chunk == chunk;
    assert m in h[k].chunk;
  }

  /** Consolidating only adds to the file, and a chunk it returns True for stands there. */
  lemma {:induction false} ConsolidateFiles(st: StoreValue, chunk: seq<Message>, reply: MemoryArchive.Reply)
    ensures var (st', ok) := Consolidate(st, chunk, reply);
      st.history <= st'.history && (ok && chunk != [] ==> Persisted(st'.history, chunk))
  {
    if chunk != [] {
      ConsolidateOutcome(st, chunk, reply);
      var (st', ok) := Consolidate(st, chunk, reply);
      if ok {
        PersistedInLonger([], st.history, st'.history, chunk);
        assert st'.history[0..] == st'.history;
      }
    }
  }

  /** A larger file keeps everything where it is. */
  lemma {:induction false} StoreGrows(w: Whole, store: StoreValue)
    requires Kept(w) && w.store.history <= store.history
    ensures Kept(w.(store := store))
  {
    hide Good, InFile, InSnapshot, Flatten, AllPersisted;
    ChunksStayFiled(w.store.history, store.history, w.chunks);
    forall m | m in w.ever
      ensures Somewhere(w.(store := store), m)
    {
      assert Somewhere(w, m);
      FileGrows(w.store.history, store.history, m);
    }
  }

  lemma {:induction false} TurnKept(w: Whole, t: TurnInput)
    requires Kept(w) && t.Valid()
    ensures Kept(Happens(w, TurnSaved(t)))
  {
    hide Good, InFile, InSnapshot, Flatten, AllPersisted, SavedTurn, Load;
    TurnIsPaired(t);
    TurnKeepsGood(w.talk, SavedTurn(t));
    var w' := Happens(w, TurnSaved(t));
    forall m | m in w'.ever
      ensures Somewhere(w', m)
    {
      assert m in w.ever ==> Somewhere(w, m);
    }
  }

  lemma {:induction false} StartKept(w: Whole, o: nat, tokens: Message -> Tokens, demand: int)
    requires Kept(w)
    ensures Kept(Happens(w, RoundStarts(o, tokens, demand)))
  {
    hide Good, InFile, InSnapshot, Flatten, AllPersisted, Pick;
    StartKeepsGood(w.talk, o, tokens, demand);
    var w' := Happens(w, RoundStarts(o, tokens, demand));
    assert forall m :: m in w.ever ==> Somewhere(w, m);
  }

  lemma {:induction false} AnswerKept(w: Whole, reply: MemoryArchive.Reply)
    requires Kept(w)
    ensures Kept(Happens(w, RoundAnswered(reply)))
  {
    hide InFile, InSnapshot, AllPersisted, Consolidate, Flatten, AllSomewhere, Sound;
    if w.talk.waiting.Some? {
      var chunk := w.talk.waiting.value.chunk;
      var (store, ok) := Consolidate(w.store, chunk, reply);
      assert chunk != [];
      ConsolidateFiles(w.store, chunk, reply);
      hide Good;
      StoreGrows(w, store);
      FinishKeepsGood(w.talk, ok);
      FinishKept(w.(store := store), ok);
    }
  }

  lemma {:induction false} FinishKept(w: Whole, ok: bool)
    requires Kept(w) && Good(FinishStep(w.talk, ok)) && w.talk.waiting.Some?
    requires ok ==> Persisted(w.store.history, w.talk.waiting.value.chunk)
    ensures Kept(w.(talk := FinishStep(w.talk, ok),
      chunks := if ok then w.chunks + [w.talk.waiting.value.chunk] else w.chunks))
  {
    hide Good, InFile, InSnapshot, Persisted, Flatten;
    var chunk := w.talk.waiting.value.chunk;
    FlattenSnoc(w.chunks, chunk);
    assert forall m :: m in w.ever ==> Somewhere(w, m);
  }

  /** Clearing the session: what it showed goes into the snapshot, and what it had archived stands in the file. */
  lemma {:induction false} ClearKept(w: Whole)
    requires Kept(w) && w.talk.waiting.None?
    ensures Kept(Happens(w, NewIssued))
  {
    hide Good, InFile, InSnapshot, Flatten, AllPersisted, Load, Persisted;
    NewKeepsGood(w.talk);
    NothingFiled(w.store.history);
    var w' := Happens(w, NewIssued);
    forall m | m in w'.ever
      ensures Somewhere(w', m)
    {
      assert Somewhere(w, m);
      if m in w.talk.log {
        LoggedIsKept(w, m);
        SnapshotAdded(w.snapshots, Unconsolidated(Current(w.talk).messages, Current(w.talk).lastConsolidated), m);
      } else {
        SnapshotAdded(w.snapshots, Unconsolidated(Current(w.talk).messages, Current(w.talk).lastConsolidated), m);
      }
    }
  }

  lemma {:induction false} NothingFiled(h: seq<Entry>)
    ensures AllPersisted(h, []) && Flatten<Message>([]) == []
  {
  }

  lemma {:induction false} SnapshotAdded(snapshots: seq<Snapshot>, messages: seq<Message>, m: Message)
    ensures var longer := snapshots + if messages == [] then [] else [Snapshot(messages, 0, false)];
      (InSnapshot(snapshots, m) ==> InSnapshot(longer, m)) && (m in messages ==> InSnapshot(longer, m))
  {
    var longer := snapshots + if messages == [] then [] else [Snapshot(messages, 0, false)];
    if i :| 0 <= i < |snapshots| && m in snapshots[i].messages {
      assert m in longer[i].messages;
    }
    if m in messages {
      assert m in longer[|snapshots|].messages;
    }
  }

  /** A message of the session is in the file or shown. */
  lemma {:induction false} LoggedIsKept(w: Whole, m: Message)
    requires Kept(w) && m in w.talk.log
    ensures var v := Current(w.talk);
      InFile(w.store.history, m) || m in Unconsolidated(v.messages, v.lastConsolidated)
  {
    hide Load, InFile, InSnapshot, AllSomewhere, Flatten, Paired;
    var v := Current(w.talk);
    assert v.lastConsolidated <= |v.messages|;
    assert v.messages == v.messages[..v.lastConsolidated] + v.messages[v.lastConsolidated..];
    if m in v.messages[..v.lastConsolidated] {
      var k := InSomeChunk(w.chunks, m);
      assert Persisted(w.store.history, w.chunks[k]);
      FiledIsInFile(w.store.history, w.chunks[k], m);
    }
  }

  lemma {:induction false} InSomeChunk(chunks: seq<seq<Message>>, m: Message) returns (k: nat)
    requires m in Flatten(chunks)
    ensures k < |chunks| && m in chunks[k]
  {
    if m in chunks[0] {
      k := 0;
    } else {
      k := InSomeChunk(chunks[1..], m);
      k := k + 1;
    }
  }

  /** A snapshot leaves the list only when it stands in the file. */
  lemma {:induction false} SnapshotKept(w: Whole, k: nat, reply: MemoryArchive.Reply)
    requires Kept(w)
    ensures Kept(Happens(w, SnapshotAnswered(k, reply)))
  {
    hide Good, InFile, Flatten, AllPersisted, Consolidate, InSnapshot, Persisted;
    if k < |w.snapshots| && !w.snapshots[k].lost {
      var s := w.snapshots[k];
      var (store, ok) := Consolidate(w.store, s.messages, reply);
      ConsolidateFiles(w.store, s.messages, reply);
      StoreGrows(w, store);
      var snapshots := w.snapshots[..k] + Attempted(s, ok) + w.snapshots[k + 1..];
      var w' := Happens(w, SnapshotAnswered(k, reply));
      assert w' == w.(store := store, snapshots := snapshots);
      forall m | m in w.ever
        ensures Somewhere(w', m)
      {
        assert Somewhere(w.(store := store), m);
        if InSnapshot(w.snapshots, m) {
          SnapshotReplaced(w.snapshots, k, ok, m);
          if ok && m in s.messages {
            FiledIsInFile(store.history, s.messages, m);
          }
        }
      }
    }
  }

  lemma {:induction false} SnapshotReplaced(snapshots: seq<Snapshot>, k: nat, ok: bool, m: Message)
    requires k < |snapshots| && InSnapshot(snapshots, m)
    ensures InSnapshot(snapshots[..k] + Attempted(snapshots[k], ok) + snapshots[k + 1..], m)
      || (ok && m in snapshots[k].messages)
  {
    var out := snapshots[..k] + Attempted(snapshots[k], ok) + snapshots[k + 1..];
    var i :| 0 <= i < |snapshots| && m in snapshots[i].messages;
    if i < k {
      assert m in out[i].messages;
    } else if i > k {
      assert m in out[|out| - |snapshots| + i].messages;
    } else if !ok {
      assert m in out[k].messages;
    }
  }

  lemma {:induction false} RestartKept(w: Whole)
    requires Kept(w)
    ensures Kept(Happens(w, Restarted))
  {
    hide Good, InFile, Flatten, AllPersisted;
    RestartKeepsGood(w.talk);
    var w' := Happens(w, Restarted);
    forall m | m in w'.ever
      ensures Somewhere(w', m)
    {
      assert Somewhere(w, m);
      if i :| 0 <= i < |w.snapshots| && m in w.snapshots[i].messages {
        assert m in w'.snapshots[i].messages;
      }
    }
  }

  lemma {:induction false} HappeningKept(w: Whole, h: Happening)
    requires w.talk.WellFormed() && Kept(w) && PoliteHappening(w, h)
    ensures Kept(Happens(w, h))
  {
    hide Kept, Good, Consolidate, SavedTurn;
    match h {
      case TurnSaved(t) => TurnKept(w, t);
      case RoundStarts(o, tokens, demand) => StartKept(w, o, tokens, demand);
      case RoundAnswered(reply) => AnswerKept(w, reply);
      case NewIssued => ClearKept(w);
      case SnapshotAnswered(k, reply) => SnapshotKept(w, k, reply);
      case OtherSession(o) =>
        ConsolidateFiles(w.store, o.chunk, o.reply);
        StoreGrows(w, Consolidate(w.store, o.chunk, o.reply).0);
      case Restarted => RestartKept(w);
    }
  }

  lemma {:induction false} AllKept(w: Whole, happenings: seq<Happening>)
    requires w.talk.WellFormed() && Kept(w) && PoliteAll(w, happenings)
    ensures Kept(All(w, happenings))
    decreases |happenings|
  {
    hide Kept, Happens, PoliteHappening;
    if happenings == [] {
    } else {
      HappeningKept(w, happenings[0]);
      AllKept(Happens(w, happenings[0]), happenings[1..]);
    }
  }

  /** The i-th happening is a turn that saves the message. */
  predicate TurnSaves(happenings: seq<Happening>, i: nat, m: Message) {
    i < |happenings| && happenings[i].TurnSaved? && m in SavedTurn(happenings[i].input)
  }

  lemma {:induction false} EverStays(w: Whole, happenings: seq<Happening>, m: Message)
    requires w.talk.WellFormed() && m in w.ever
    ensures m in All(w, happenings).ever
    decreases |happenings|
  {
    hide Consolidate, SavedTurn, TalkAfter;
    if happenings != [] {
      EverStays(Happens(w, happenings[0]), happenings[1..], m);
    }
  }

  lemma {:induction false} EverIsAllTurns(w: Whole, happenings: seq<Happening>, i: nat, m: Message)
    requires w.talk.WellFormed() && TurnSaves(happenings, i, m)
    ensures m in All(w, happenings).ever
    decreases |happenings|
  {
    hide Consolidate, SavedTurn, TalkAfter;
    if i == 0 {
      EverStays(Happens(w, happenings[0]), happenings[1..], m);
    } else {
      EverIsAllTurns(Happens(w, happenings[0]), happenings[1..], i - 1, m);
    }
  }

  /** Over every run in which /new overtakes no waiting round, whatever the model answers and the other sessions
      archive: every message a turn ever saved is shown, or stands in the history file, or is in the snapshot of
      a /new that is still attempted or was given up. */
  lemma {:induction false} EveryMessageIsSomewhere(happenings: seq<Happening>, i: nat, m: Message)
    requires PoliteAll(START, happenings) && TurnSaves(happenings, i, m)
    ensures var w := All(START, happenings);
            var v := Current(w.talk);
      || m in Unconsolidated(v.messages, v.lastConsolidated)
      || InFile(w.store.history, m)
      || InSnapshot(w.snapshots, m)
  {
    hide All, PoliteAll, InFile, InSnapshot, Good, TurnSaves;
    StartIsKept();
    EverIsAllTurns(START, happenings, i, m);
    AllKept(START, happenings);
    var w := All(START, happenings);
    assert Somewhere(w, m);
    if m in w.talk.log {
      LoggedIsKept(w, m);
    }
  }

  lemma {:induction false} StartIsKept()
    ensures Kept(START)
  {
    InitialIsGood();
    NothingFiled([]);
  }

  lemma {:induction false} NoSnapshots(w: Whole, happenings: seq<Happening>)
    requires w.talk.WellFormed() && w.snapshots == []
    requires forall i :: 0 <= i < |happenings| ==> !happenings[i].NewIssued?
    ensures All(w, happenings).snapshots == []
    decreases |happenings|
  {
    hide Consolidate, SavedTurn, TalkAfter;
    if happenings == [] {
    } else {
      NoSnapshots(Happens(w, happenings[0]), happenings[1..]);
    }
  }

  /** Without /new, every message a turn ever saved is shown or stands in the history file. */
  lemma {:induction false} WithoutNewNothingIsLost(happenings: seq<Happening>, i: nat, m: Message)
    requires PoliteAll(START, happenings) && TurnSaves(happenings, i, m)
    requires forall i :: 0 <= i < |happenings| ==> !happenings[i].NewIssued?
    ensures var w := All(START, happenings);
            var v := Current(w.talk);
      m in Unconsolidated(v.messages, v.lastConsolidated) || InFile(w.store.history, m)
  {
    hide All, PoliteAll, InFile, TurnSaves;
    EveryMessageIsSomewhere(happenings, i, m);
    NoSnapshots(START, happenings);
  }
}
