/** The consolidation loop: rounds of archiving until the prompt fits (nanobot/agent/memory.py). */
module Consolidation {
  import opened Prelude
  import opened Chat
  import opened SessionHistory
  import opened SessionStore
  import opened MemoryArchive

  const MAX_ROUNDS: nat := 5

  /** What other tasks do to the session while a round waits for the model: nothing, or save turns into it, or
      /new, which clears it, saves it and evicts it, or /new and turns behind it, which go into another object. */
  datatype Meanwhile = Quiet | Appended(turns: seq<Message>) | Cleared | Replaced(turns: seq<Message>)

  /** The object cached under the session's key: the one a round holds, none, or another one. */
  datatype Cached = Same | Nobody | Another

  /** Everything a consolidation cannot compute itself, by round. estimate(0) is taken before the first round. */
  datatype Surroundings = Surroundings(
    window: int,
    tokens: Message -> Tokens,
    estimate: nat -> int,
    reply: nat -> Reply,
    meanwhile: nat -> Meanwhile,
    others: nat -> seq<Other>)

  /** The session, the store, the chunks whose consolidation returned True, in order, the value the session
      file was last written with, and which object is cached since then. */
  datatype Progress = Progress(
    session: SessionValue, store: StoreValue, chunks: seq<seq<Message>>, saved: Option<SessionValue>, cached: Cached)

  function Interrupted(s: SessionValue, m: Meanwhile): SessionValue {
    match m
    case Quiet => s
    case Appended(turns) => s.(messages := s.messages + turns)
    case _ => s.(messages := [], lastConsolidated := 0)
  }

  predicate Clears(m: Meanwhile) {
    m.Cleared? || m.Replaced?
  }

  /** What the other task saves is written to the file at once. */
  function Interrupt(p: Progress, m: Meanwhile): Progress {
    if m.Quiet? then p
    else
      var v := Interrupted(p.session, m);
      match m
      case Replaced(turns) => p.(session := v, saved := Some(v.(messages := turns)), cached := Another)
      case _ => p.(session := v, saved := Some(v), cached := if m.Cleared? then Nobody else Same)
  }

  function Chunk(s: SessionValue, end: nat): seq<Message> {
    if s.lastConsolidated <= end <= |s.messages| then s.messages[s.lastConsolidated..end] else []
  }

  /** One round that archives the messages up to `end`: the round waits, then the offset moves on success. */
  function Round(p: Progress, env: Surroundings, round: nat, end: nat): (Progress, bool) {
    var chunk := Chunk(p.session, end);
    var during := Interrupt(p, env.meanwhile(round));
    var (store, ok) := Consolidate(RunOthers(p.store, env.others(round)), chunk, env.reply(round));
    if ok then (Confirmed(during, store, chunk, end), true) else (during.(store := store), false)
  }

  function Confirmed(p: Progress, store: StoreValue, chunk: seq<Message>, end: nat): Progress {
    var v := p.session.(lastConsolidated := end);
    Progress(v, store, p.chunks + [chunk], Some(v), Same)
  }

  function Rounds(p: Progress, env: Surroundings, estimated: int, target: int, round: nat): Progress
    decreases MAX_ROUNDS - round
  {
    if round >= MAX_ROUNDS || estimated <= target then p
    else
      match Pick(p.session.messages, env.tokens, p.session.lastConsolidated, Max(1, estimated - target))
      case None => p
      case Some(end) =>
        var (p', ok) := Round(p, env, round, end);
        if !ok || env.estimate(round + 1) <= 0 then p'
        else Rounds(p', env, env.estimate(round + 1), target, round + 1)
  }

  lemma {:induction false} RoundsUnfold(p: Progress, env: Surroundings, estimated: int, target: int, round: nat)
    ensures Rounds(p, env, estimated, target, round) ==
      if round >= MAX_ROUNDS || estimated <= target then p
      else
        match Pick(p.session.messages, env.tokens, p.session.lastConsolidated, Max(1, estimated - target))
        case None => p
        case Some(end) =>
          var (p', ok) := Round(p, env, round, end);
          if !ok || env.estimate(round + 1) <= 0 then p'
          else Rounds(p', env, env.estimate(round + 1), target, round + 1)
  {
    hide Pick, Round;
  }

  function MaybeConsolidate(s: SessionValue, st: StoreValue, env: Surroundings): Progress {
    var start := Progress(s, st, [], None, Same);
    if s.messages == [] || env.window <= 0 || env.estimate(0) <= 0 || env.estimate(0) < env.window then start
    else Rounds(start, env, env.estimate(0), env.window / 2, 0)
  }

  /* ---------- conservation ---------- */

  /** No /new arrives while a round waits. */
  predicate OnlyTurnsMeanwhile(env: Surroundings) {
    forall k :: 0 <= k < MAX_ROUNDS ==> !Clears(env.meanwhile(k))
  }

  function Archived(p: Progress): nat {
    |Flatten(p.chunks)|
  }

  predicate AllPersisted(entries: seq<Entry>, chunks: seq<seq<Message>>) {
    forall i :: 0 <= i < |chunks| ==> Persisted(entries, chunks[i])
  }

  /** Each chunk is non-empty and is followed by a user message; the first one starts at `start`. */
  predicate ChunksEndAtTurns(ms: seq<Message>, start: nat, chunks: seq<seq<Message>>)
    decreases |chunks|
  {
    chunks == [] ||
    (IsCut(ms, start, start + |chunks[0]|) && ChunksEndAtTurns(ms, start + |chunks[0]|, chunks[1..]))
  }

  /** What a consolidation keeps: the old messages are a prefix of the new ones, the confirmed chunks are
      exactly the messages the offset has passed, in order, and each one is in the history file. */
  predicate Conserves(s: SessionValue, st: StoreValue, p: Progress) {
    && ConservesMessages(s, p)
    && st.history <= p.store.history
    && AllPersisted(p.store.history[|st.history|..], p.chunks)
  }

  predicate ConservesMessages(s: SessionValue, p: Progress) {
    && s.messages <= p.session.messages && p.session.metadata == s.metadata
    && p.session.lastConsolidated == s.lastConsolidated + Archived(p)
    && p.session.lastConsolidated <= |p.session.messages|
    && p.session.messages[s.lastConsolidated..p.session.lastConsolidated] == Flatten(p.chunks)
    && ChunksEndAtTurns(p.session.messages, s.lastConsolidated, p.chunks)
  }

  /** The session file, once written, holds the session as it is, and before that the session is as it was;
      except that turns behind a /new leave the file to another object, and the session cleared. */
  predicate FileFollows(s: SessionValue, p: Progress) {
    if p.saved.None? then p.session == s && p.chunks == [] && p.cached.Same?
    else if p.cached.Another? then p.session.messages == [] && p.session.lastConsolidated == 0
    else p.saved == Some(p.session)
  }

  /** Every round keeps the file up with the session, whatever comes in between. */
  lemma {:induction false} RoundKeepsFile(s: SessionValue, p: Progress, env: Surroundings, round: nat, end: nat)
    requires FileFollows(s, p)
    ensures FileFollows(s, Round(p, env, round, end).0)
  {
    hide Consolidate, RunOthers;
  }

  lemma {:induction false} RoundsKeepFile(
    s: SessionValue, p: Progress, env: Surroundings, estimated: int, target: int, round: nat)
    requires FileFollows(s, p)
    ensures FileFollows(s, Rounds(p, env, estimated, target, round))
    decreases MAX_ROUNDS - round
  {
    hide FileFollows, Round, Pick;
    if round >= MAX_ROUNDS || estimated <= target {
    } else {
      match Pick(p.session.messages, env.tokens, p.session.lastConsolidated, Max(1, estimated - target)) {
        case None =>
        case Some(end) =>
          RoundKeepsFile(s, p, env, round, end);
          var (p', ok) := Round(p, env, round, end);
          if ok && env.estimate(round + 1) > 0 {
            RoundsKeepFile(s, p', env, env.estimate(round + 1), target, round + 1);
          }
      }
    }
  }

  /** A session whose file was current is current in its file after a consolidation, whatever the other tasks
      do at the awaits. */
  lemma {:induction false} ConsolidationKeepsFile(s: SessionValue, st: StoreValue, env: Surroundings)
    ensures FileFollows(s, MaybeConsolidate(s, st, env))
  {
    hide Rounds;
    RoundsKeepFile(s, Progress(s, st, [], None, Same), env, env.estimate(0), env.window / 2, 0);
  }

  lemma {:induction false} GrownHistoryStillPersists(
    h0: seq<Entry>, h1: seq<Entry>, h2: seq<Entry>, h3: seq<Entry>, chunks: seq<seq<Message>>, last: seq<Message>)
    requires h0 <= h1 <= h2 <= h3
    requires AllPersisted(h1[|h0|..], chunks)
    ensures AllPersisted(h3[|h0|..], chunks)
    ensures Persisted(h3[|h2|..], last) ==> AllPersisted(h3[|h0|..], chunks + [last])
  {
    forall i | 0 <= i < |chunks|
      ensures Persisted(h3[|h0|..], chunks[i])
    {
      var k :| 0 <= k < |h1[|h0|..]| && h1[|h0|..][k].chunk == chunks[i];
      assert h3[|h0|..][k] == h1[|h0|..][k];
    }
    if Persisted(h3[|h2|..], last) {
      PersistedInLonger(h0, h2, h3, last);
    }
  }

  lemma {:induction false} CutsSurviveGrowth(
    ms: seq<Message>, more: seq<Message>, start: nat, chunks: seq<seq<Message>>)
    requires ms <= more && ChunksEndAtTurns(ms, start, chunks)
    ensures ChunksEndAtTurns(more, start, chunks)
    ensures chunks != [] ==> IsCut(more, start, start + |Flatten(chunks)|)
    decreases |chunks|
  {
    if chunks == [] {
    } else {
      assert more[start + |chunks[0]|] == ms[start + |chunks[0]|];
      CutsSurviveGrowth(ms, more, start + |chunks[0]|, chunks[1..]);
    }
  }

  lemma {:induction false} OneMoreCut(
    ms: seq<Message>, start: nat, chunks: seq<seq<Message>>, last: seq<Message>)
    requires ChunksEndAtTurns(ms, start, chunks)
    requires IsCut(ms, start + |Flatten(chunks)|, start + |Flatten(chunks)| + |last|)
    ensures ChunksEndAtTurns(ms, start, chunks + [last])
    decreases |chunks|
  {
    var all := chunks + [last];
    if chunks == [] {
      assert all[1..] == [];
    } else {
      OneMoreCut(ms, start + |chunks[0]|, chunks[1..], last);
      assert all[1..] == chunks[1..] + [last];
    }
  }

  /** What a round without a /new does to the session and the chunks. */
  lemma {:induction false} RoundAdvances(p: Progress, env: Surroundings, round: nat, end: nat)
    requires !Clears(env.meanwhile(round))
    ensures var (p', ok) := Round(p, env, round, end);
      && p.session.messages <= p'.session.messages && p'.session.metadata == p.session.metadata
      && p'.session.lastConsolidated == (if ok then end else p.session.lastConsolidated)
      && p'.chunks == (if ok then p.chunks + [Chunk(p.session, end)] else p.chunks)
      && (p'.store, ok) == Consolidate(RunOthers(p.store, env.others(round)), Chunk(p.session, end), env.reply(round))
  {
    hide Consolidate, RunOthers, Chunk;
  }

  /** More messages behind the archived part leave it as it was. */
  lemma {:induction false} GrowthConserves(s: SessionValue, p: Progress, p': Progress)
    requires ConservesMessages(s, p) && p.session.messages <= p'.session.messages
    requires p'.session.metadata == p.session.metadata
    requires p'.session.lastConsolidated == p.session.lastConsolidated && p'.chunks == p.chunks
    ensures ConservesMessages(s, p')
  {
    hide Flatten, ChunksEndAtTurns, IsCut;
    CutsSurviveGrowth(p.session.messages, p'.session.messages, s.lastConsolidated, p.chunks);
    assert p'.session.messages[s.lastConsolidated..p.session.lastConsolidated]
      == p.session.messages[s.lastConsolidated..p.session.lastConsolidated];
  }

  /** Moving the offset over one more chunk that ends at a turn keeps the account. */
  lemma {:induction false} ConfirmConserves(s: SessionValue, p: Progress, p': Progress, end: nat)
    requires ConservesMessages(s, p) && IsCut(p.session.messages, p.session.lastConsolidated, end)
    requires p'.session == p.session.(lastConsolidated := end) && p'.chunks == p.chunks + [Chunk(p.session, end)]
    ensures ConservesMessages(s, p')
  {
    hide Flatten, ChunksEndAtTurns;
    var ms, start, chunk := p.session.messages, p.session.lastConsolidated, Chunk(p.session, end);
    FlattenSnoc(p.chunks, chunk);
    assert ms[s.lastConsolidated..end] == ms[s.lastConsolidated..start] + chunk;
    OneMoreCut(ms, s.lastConsolidated, p.chunks, chunk);
  }

  lemma {:induction false} RoundConservesMessages(
    s: SessionValue, p: Progress, env: Surroundings, round: nat, end: nat)
    requires ConservesMessages(s, p) && !Clears(env.meanwhile(round))
    requires IsCut(p.session.messages, p.session.lastConsolidated, end)
    ensures ConservesMessages(s, Round(p, env, round, end).0)
  {
    hide Consolidate, RunOthers, Round, ConservesMessages;
    RoundAdvances(p, env, round, end);
    var (p', ok) := Round(p, env, round, end);
    var grown := p.(session := p'.session.(lastConsolidated := p.session.lastConsolidated));
    GrowthConserves(s, p, grown);
    if ok {
      assert Chunk(grown.session, end) == Chunk(p.session, end);
      ConfirmConserves(s, grown, p', end);
    } else {
      GrowthConserves(s, grown, p');
    }
  }

  lemma {:induction false} RoundConservesStore(
    st: StoreValue, p: Progress, env: Surroundings, round: nat, end: nat)
    requires st.history <= p.store.history && AllPersisted(p.store.history[|st.history|..], p.chunks)
    requires !Clears(env.meanwhile(round)) && Chunk(p.session, end) != []
    ensures var p' := Round(p, env, round, end).0;
      st.history <= p'.store.history && AllPersisted(p'.store.history[|st.history|..], p'.chunks)
  {
    RoundAdvances(p, env, round, end);
    hide Consolidate, RunOthers, Round, Persisted, AllPersisted, Chunk;
    var p', chunk, st1 := Round(p, env, round, end).0, Chunk(p.session, end), RunOthers(p.store, env.others(round));
    OthersOnlyAppend(p.store, env.others(round));
    ConsolidateOutcome(st1, chunk, env.reply(round));
    GrownHistoryStillPersists(st.history, p.store.history, st1.history, p'.store.history, p.chunks, chunk);
  }

  /** One round keeps the conservation law and, when it succeeds, strictly advances the offset. */
  lemma {:induction false} RoundConserves(
    s: SessionValue, st: StoreValue, p: Progress, env: Surroundings, round: nat, end: nat)
    requires Conserves(s, st, p) && !Clears(env.meanwhile(round))
    requires IsCut(p.session.messages, p.session.lastConsolidated, end)
    ensures var (p', ok) := Round(p, env, round, end);
      && Conserves(s, st, p')
      && p'.session.lastConsolidated == (if ok then end else p.session.lastConsolidated)
      && p'.chunks == if ok then p.chunks + [Chunk(p.session, end)] else p.chunks
  {
    RoundAdvances(p, env, round, end);
    assert Chunk(p.session, end) != [];
    hide Round, ConservesMessages, AllPersisted, Chunk;
    RoundConservesMessages(s, p, env, round, end);
    RoundConservesStore(st, p, env, round, end);
  }

  lemma {:induction false} RoundsConserve(
    s: SessionValue, st: StoreValue, p: Progress, env: Surroundings, estimated: int, target: int, round: nat)
    requires Conserves(s, st, p) && OnlyTurnsMeanwhile(env)
    requires |p.chunks| <= round <= MAX_ROUNDS
    ensures var p' := Rounds(p, env, estimated, target, round);
      Conserves(s, st, p') && |p'.chunks| <= MAX_ROUNDS
    decreases MAX_ROUNDS - round
  {
    hide Conserves, Consolidate, RunOthers, Round;
    if round >= MAX_ROUNDS || estimated <= target {
    } else {
      match Pick(p.session.messages, env.tokens, p.session.lastConsolidated, Max(1, estimated - target)) {
        case None =>
        case Some(end) =>
          RoundConserves(s, st, p, env, round, end);
          var (p', ok) := Round(p, env, round, end);
          if ok && env.estimate(round + 1) > 0 {
            RoundsConserve(s, st, p', env, env.estimate(round + 1), target, round + 1);
          }
      }
    }
  }

  /** Whatever the model answers and however many turns are saved meanwhile, a consolidation run without a
      /new in flight moves the offset over at most five non-empty chunks, each of them persisted and ending
      just before a user message, and leaves the offset on a turn boundary. */
  lemma {:induction false} ConsolidationConserves(s: SessionValue, st: StoreValue, env: Surroundings)
    requires OnlyTurnsMeanwhile(env) && TurnBoundary(s.messages, s.lastConsolidated)
    ensures var p := MaybeConsolidate(s, st, env);
      && Conserves(s, st, p) && |p.chunks| <= MAX_ROUNDS
      && TurnBoundary(p.session.messages, p.session.lastConsolidated)
  {
    hide Consolidate, RunOthers, Rounds;
    var start := Progress(s, st, [], None, Same);
    assert Conserves(s, st, start);
    RoundsConserve(s, st, start, env, env.estimate(0), env.window / 2, 0);
    var p := MaybeConsolidate(s, st, env);
    if p.chunks != [] {
      CutsSurviveGrowth(p.session.messages, p.session.messages, s.lastConsolidated, p.chunks);
    } else {
      assert s.lastConsolidated > 0 ==> p.session.messages[s.lastConsolidated] == s.messages[s.lastConsolidated];
    }
  }

  /** The first round already breaks the offset when /new clears the session while it waits: a success then
      brings the cleared object back to the cache and the file, with the offset past its end and over any turn
      saved behind the /new, for every session and every cut. */
  lemma {:induction false} ClearedMidRound(p: Progress, env: Surroundings, round: nat, end: nat)
    requires IsCut(p.session.messages, p.session.lastConsolidated, end) && Clears(env.meanwhile(round))
    ensures var (p', ok) := Round(p, env, round, end);
      && p'.session.messages == []
      && (ok ==> p'.saved == Some(p'.session) && p'.cached.Same?)
      && (!ok && env.meanwhile(round).Replaced? ==>
            p'.cached.Another? && p'.saved == Some(p'.session.(messages := env.meanwhile(round).turns)))
      && p'.session.lastConsolidated == (if ok then end else 0)
      && History(p'.session.messages, p'.session.lastConsolidated, 0) == []
  {
    hide Consolidate, RunOthers;
    assert Tail([], 0) == [] && AlignToUser([]) == [];
  }

  /* ---------- the consolidator object ---------- */

  class MemoryConsolidator {
    const store: MemoryStore
    const sessions: SessionManager

    constructor (store: MemoryStore, sessions: SessionManager)
      ensures this.store == store && this.sessions == sessions
    {
      this.store, this.sessions := store, sessions;
    }

    /** The other tasks' turn to run, at the point where a round awaits the model's answer. */
    method Await(s: Session, m: Meanwhile, others: seq<Other>)
      requires sessions.Valid()
      modifies s, store, sessions
      ensures sessions.Valid()
      ensures s.Value() == Interrupted(old(s.Value()), m)
      ensures store.Value() == RunOthers(old(store.Value()), others)
      ensures var p := Interrupt(Progress(old(s.Value()), old(store.Value()), [], None, Same), m);
        && Follows(old(Disk(sessions.files, sessions.cache)), Disk(sessions.files, sessions.cache), s, p.saved, p.cached)
        && HeldElsewhere(Disk(sessions.files, sessions.cache), s, p)
    {
      hide Consolidate, FileOf, RunOthers;
      assert old(Disk(sessions.files, sessions.cache)) == Disk(sessions.files, sessions.cache);
      match m {
        case Quiet =>
        case Appended(turns) =>
          s.messages := s.messages + turns;
          sessions.Save(s);
        case Cleared => ClearAndEvict(s);
        case Replaced(turns) =>
          ghost var before := Disk(sessions.files, sessions.cache);
          ClearAndEvict(s);
          ghost var between, cleared := Disk(sessions.files, sessions.cache), s.Value();
          TurnElsewhere(s, turns);
          Overwritten(before, between, Disk(sessions.files, sessions.cache), s, Some(cleared), Nobody,
            Some(cleared.(messages := turns)), Another);
      }
      RunAll(others);
    }

    /** What /new does to the session. */
    method ClearAndEvict(s: Session)
      requires sessions.Valid()
      modifies s, sessions
      ensures sessions.Valid()
      ensures s.Value() == Interrupted(old(s.Value()), Cleared)
      ensures Follows(
        old(Disk(sessions.files, sessions.cache)), Disk(sessions.files, sessions.cache), s, Some(s.Value()), Nobody)
    {
      hide FileOf;
      s.Clear();
      sessions.Save(s);
      sessions.Invalidate(s.key);
    }

    /** A turn into the object that is created when none is cached. */
    method TurnElsewhere(s: Session, turns: seq<Message>)
      requires sessions.Valid() && s.key !in sessions.cache
      requires s.key in sessions.files && sessions.files[s.key] == FileOf(s.Value()) && s.messages == []
      modifies sessions
      ensures sessions.Valid() && unchanged(s)
      ensures var v := s.Value().(messages := turns);
        && Follows(
          old(Disk(sessions.files, sessions.cache)), Disk(sessions.files, sessions.cache), s, Some(v), Another)
        && sessions.cache[s.key].Value() == v
    {
      SaveLoadRoundTrip(s.Value());
      hide FileOf, Load;
      var other := sessions.GetOrCreate(s.key);
      other.messages := turns;
      sessions.Save(other);
    }

    /** Retry until the chunk is saved or dumped; the third failure in a row dumps it. */
    method ArchiveMessages(messages: seq<Message>, reply: nat -> Reply, others: nat -> seq<Other>) returns (ok: bool)
      modifies store
      ensures ok
      ensures store.Value() == if messages == [] then old(store.Value())
                               else Attempts(old(store.Value()), messages, reply, others, 0).0
    {
      if messages == [] {
        return true;
      }
      for attempt := 0 to MAX_FAILURES
        invariant Attempts(old(store.Value()), messages, reply, others, 0)
               == Attempts(store.Value(), messages, reply, others, attempt)
      {
        RunAll(others(attempt));
        var saved := store.ConsolidateChunk(messages, reply(attempt));
        if saved {
          return true;
        }
      }
      return true;
    }

    method RunAll(others: seq<Other>)
      modifies store
      ensures store.Value() == RunOthers(old(store.Value()), others)
    {
      for i := 0 to |others|
        invariant RunOthers(old(store.Value()), others) == RunOthers(store.Value(), others[i..])
      {
        assert others[i..][1..] == others[i + 1..];
        var _ := store.ConsolidateChunk(others[i].chunk, others[i].reply);
      }
    }

    /** Move the offset over an archived chunk and save. */
    method Confirm(s: Session, end: nat)
      requires sessions.Valid()
      modifies s, sessions
      ensures sessions.Valid()
      ensures s.Value() == old(s.Value()).(lastConsolidated := end)
      ensures Follows(
        old(Disk(sessions.files, sessions.cache)), Disk(sessions.files, sessions.cache), s, Some(s.Value()), Same)
    {
      hide FileOf;
      s.lastConsolidated := end;
      sessions.Save(s);
    }

    /** One round: wait for the model, archive the messages up to `end`, then move the offset and save. */
    method ArchiveRound(
      s: Session, ghost p: Progress, env: Surroundings, round: nat, end: nat, ghost disk: Disk) returns (ok: bool)
      requires sessions.Valid() && s.lastConsolidated <= end <= |s.messages|
      requires p.session == s.Value() && p.store == store.Value() && p.cached.Same?
      requires Follows(disk, Disk(sessions.files, sessions.cache), s, p.saved, p.cached)
      modifies s, store, sessions
      ensures sessions.Valid()
      ensures var (p', done) := Round(p, env, round, end);
        && p'.session == s.Value() && p'.store == store.Value() && ok == done && (ok ==> p'.cached.Same?)
        && Follows(disk, Disk(sessions.files, sessions.cache), s, p'.saved, p'.cached)
        && HeldElsewhere(Disk(sessions.files, sessions.cache), s, p')
    {
      hide Consolidate, RunOthers, FileOf, Follows;
      var chunk := s.messages[s.lastConsolidated..end];
      ghost var before, p1 := Disk(sessions.files, sessions.cache), Interrupt(p, env.meanwhile(round));
      Await(s, env.meanwhile(round), env.others(round));
      ghost var between := Disk(sessions.files, sessions.cache);
      if env.meanwhile(round).Quiet? {
        NothingFollows(before, between, s);
      } else {
        Overwritten(disk, before, between, s, p.saved, p.cached, p1.saved, p1.cached);
      }
      ok := store.ConsolidateChunk(chunk, env.reply(round));
      if ok {
        Confirm(s, end);
        Overwritten(disk, between, Disk(sessions.files, sessions.cache), s, p1.saved, p1.cached, Some(s.Value()), Same);
      }
    }

    /** Archive old messages until the prompt fits within half the window; every success is saved to the file. */
    method MaybeConsolidateByTokens(s: Session, env: Surroundings)
      requires sessions.Valid()
      modifies s, store, sessions
      ensures sessions.Valid()
      ensures var p := MaybeConsolidate(old(s.Value()), old(store.Value()), env);
        && s.Value() == p.session && store.Value() == p.store
        && Follows(old(Disk(sessions.files, sessions.cache)), Disk(sessions.files, sessions.cache), s, p.saved, p.cached)
        && HeldElsewhere(Disk(sessions.files, sessions.cache), s, p)
    {
      hide Round, Rounds, Pick, FileOf, Follows, Removed;
      ghost var disk := Disk(sessions.files, sessions.cache);
      ghost var p := Progress(s.Value(), store.Value(), [], None, Same);
      NothingFollows(disk, disk, s);
      if s.messages == [] || env.window <= 0 {
        return;
      }
      var target := env.window / 2;
      var estimated := env.estimate(0);
      if estimated <= 0 || estimated < env.window {
        return;
      }
      ghost var result := MaybeConsolidate(s.Value(), store.Value(), env);
      for round := 0 to MAX_ROUNDS
        invariant sessions.Valid()
        invariant s.Value() == p.session && store.Value() == p.store
        invariant result == Rounds(p, env, estimated, target, round)
        invariant p.cached.Same? && Follows(disk, Disk(sessions.files, sessions.cache), s, p.saved, p.cached)
      {
        RoundsUnfold(p, env, estimated, target, round);
        if estimated <= target {
          return;
        }
        var boundary := PickConsolidationBoundary(s, env.tokens, Max(1, estimated - target));
        if boundary == None {
          return;
        }
        var end := boundary.value.0;
        var ok := ArchiveRound(s, p, env, round, end, disk);
        p := Round(p, env, round, end).0;
        if !ok {
          return;
        }
        estimated := env.estimate(round + 1);
        if estimated <= 0 {
          return;
        }
      }
      RoundsUnfold(p, env, estimated, target, MAX_ROUNDS);
    }
  }

  /** The files and the cache of the session manager. */
  datatype Disk = Disk(files: map<string, seq<Line>>, cache: map<string, Session>)

  /** What they become when the session file is last written with this value and this object is cached since. */
  ghost predicate Follows(disk: Disk, now: Disk, s: Session, saved: Option<SessionValue>, cached: Cached) {
    if saved.None? then now == disk
    else
      && now.files == disk.files[s.key := FileOf(saved.value)]
      && match cached
         case Same => now.cache == disk.cache[s.key := s]
         case Nobody => now.cache == disk.cache - {s.key}
         case Another =>
           && s.key in now.cache && now.cache[s.key] != s
           && now.cache == disk.cache[s.key := now.cache[s.key]]
  }

  /** The other object, if there is one, holds what was written last. */
  ghost predicate HeldElsewhere(now: Disk, s: Session, p: Progress)
    reads if s.key in now.cache then {now.cache[s.key]} else {}
  {
    p.cached.Another? ==> p.saved.Some? && s.key in now.cache && now.cache[s.key].Value() == p.saved.value
  }

  lemma {:induction false} NothingFollows(disk: Disk, now: Disk, s: Session)
    ensures Follows(disk, now, s, None, Same) <==> now == disk
  {
  }

  /** A later write covers an earlier one. */
  lemma {:induction false} Overwritten(
    disk: Disk, between: Disk, now: Disk, s: Session,
    saved: Option<SessionValue>, cached: Cached, saved': Option<SessionValue>, cached': Cached)
    requires Follows(disk, between, s, saved, cached) && Follows(between, now, s, saved', cached') && saved'.Some?
    ensures Follows(disk, now, s, saved', cached')
  {
    hide FileOf;
  }
}
