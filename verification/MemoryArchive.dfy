/** Memory consolidation: which messages are archived, and when the offset moves
    (nanobot/agent/memory.py). */
module MemoryArchive {
  import opened Prelude
  import opened Chat
  import opened SessionStore

  /* ---------- the archive store ---------- */

  /** How the model answered the request to call save_memory. When writing the long-term file raises
      (memoryWritten is false), the history entry has already been appended. */
  datatype Reply =
    | CallRaised
    | NoToolCall
    | BadArguments
    | MissingField
    | NullField
    | SaveMemory(entry: string, memoryWritten: bool)

  /** An entry of the history file, with the messages it stands for. The file holds the summary without its
      surrounding whitespace; here it is kept as answered. */
  datatype Entry = Summary(chunk: seq<Message>, text: string) | RawDump(chunk: seq<Message>)

  datatype StoreValue = StoreValue(failures: nat, history: seq<Entry>)

  const MAX_FAILURES: nat := 3

  function FailOrRawArchive(st: StoreValue, chunk: seq<Message>): (StoreValue, bool) {
    if st.failures + 1 < MAX_FAILURES then (st.(failures := st.failures + 1), false)
    else (StoreValue(0, st.history + [RawDump(chunk)]), true)
  }

  function Consolidate(st: StoreValue, chunk: seq<Message>, reply: Reply): (StoreValue, bool) {
    if chunk == [] then (st, true)
    else
      match reply
      case SaveMemory(entry, memoryWritten) =>
        if IsBlank(entry) then FailOrRawArchive(st, chunk)
        else
          var appended := st.history + [Summary(chunk, entry)];
          if memoryWritten then (StoreValue(0, appended), true)
          else FailOrRawArchive(st.(history := appended), chunk)
      case _ => FailOrRawArchive(st, chunk)
  }

  predicate Saves(reply: Reply) {
    reply.SaveMemory? && !IsBlank(reply.entry) && reply.memoryWritten
  }

  predicate Persisted(entries: seq<Entry>, chunk: seq<Message>) {
    exists i :: 0 <= i < |entries| && entries[i].chunk == chunk
  }

  /** True is returned only once the chunk is in the history file; the file only grows; and False means
      one more failure on the counter, which is then below the threshold. */
  lemma {:induction false} ConsolidateOutcome(st: StoreValue, chunk: seq<Message>, reply: Reply)
    requires chunk != []
    ensures var (st', ok) := Consolidate(st, chunk, reply);
      && st.history <= st'.history
      && (ok ==> Persisted(st'.history[|st.history|..], chunk) && st'.failures == 0)
      && (!ok ==> st'.failures == st.failures + 1 < MAX_FAILURES)
      && (ok <==> Saves(reply) || st.failures + 1 >= MAX_FAILURES)
  {
    var (st', ok) := Consolidate(st, chunk, reply);
    if ok {
      var added := st'.history[|st.history|..];
      assert added[|added| - 1] == st'.history[|st'.history| - 1];
      assert added[|added| - 1].chunk == chunk;
    }
  }

  /** What is written: the entry of a reply that has one, as answered, and behind it a raw dump when the reply
      does not save and is the third failure in a row. */
  lemma {:induction false} WhatIsWritten(st: StoreValue, chunk: seq<Message>, reply: Reply)
    ensures chunk == [] ==> Consolidate(st, chunk, reply) == (st, true)
    ensures chunk != [] ==>
            var saves := reply.SaveMemory? && !IsBlank(reply.entry) && reply.memoryWritten;
            var summary := if reply.SaveMemory? && !IsBlank(reply.entry) then [Summary(chunk, reply.entry)] else [];
            var dump := if !saves && st.failures >= 2 then [RawDump(chunk)] else [];
      Consolidate(st, chunk, reply) == (
        StoreValue(if saves || st.failures >= 2 then 0 else st.failures + 1, st.history + summary + dump),
        saves || st.failures >= 2)
  {
    hide IsBlank;
    var summary := if reply.SaveMemory? && !IsBlank(reply.entry) then [Summary(chunk, reply.entry)] else [];
    assert st.history + [] == st.history && st.history + summary + [] == st.history + summary;
  }

  class MemoryStore {
    var failures: nat
    var history: seq<Entry>

    constructor ()
      ensures Value() == StoreValue(0, [])
    {
      failures, history := 0, [];
    }

    function Value(): StoreValue
      reads this
    {
      StoreValue(failures, history)
    }

    method AppendHistory(e: Entry)
      modifies this
      ensures Value() == old(Value()).(history := old(history) + [e])
    {
      history := history + [e];
    }

    method FailOrRaw(chunk: seq<Message>) returns (ok: bool)
      modifies this
      ensures (Value(), ok) == FailOrRawArchive(old(Value()), chunk)
    {
      failures := failures + 1;
      if failures < MAX_FAILURES {
        return false;
      }
      AppendHistory(RawDump(chunk));
      failures := 0;
      return true;
    }

    method ConsolidateChunk(chunk: seq<Message>, reply: Reply) returns (ok: bool)
      modifies this
      ensures (Value(), ok) == Consolidate(old(Value()), chunk, reply)
    {
      if chunk == [] {
        return true;
      }
      if !reply.SaveMemory? {
        ok := FailOrRaw(chunk);
        return;
      }
      if IsBlank(reply.entry) {
        ok := FailOrRaw(chunk);
        return;
      }
      AppendHistory(Summary(chunk, reply.entry));
      if !reply.memoryWritten {
        ok := FailOrRaw(chunk);
        return;
      }
      failures := 0;
      return true;
    }
  }

  /* ---------- archiving a snapshot ---------- */

  /** A consolidation that some other session runs on the shared store. */
  datatype Other = Other(chunk: seq<Message>, reply: Reply)

  function RunOthers(st: StoreValue, others: seq<Other>): StoreValue
    decreases |others|
  {
    if others == [] then st else RunOthers(Consolidate(st, others[0].chunk, others[0].reply).0, others[1..])
  }

  /** The store after the attempts from `attempt` on, and whether the loop ran out of attempts. */
  function Attempts(
    st: StoreValue, chunk: seq<Message>, reply: nat -> Reply, others: nat -> seq<Other>, attempt: nat): (StoreValue, bool)
    decreases MAX_FAILURES - attempt
  {
    if attempt >= MAX_FAILURES then (st, true)
    else
      var (st', ok) := Consolidate(RunOthers(st, others(attempt)), chunk, reply(attempt));
      if ok then (st', false) else Attempts(st', chunk, reply, others, attempt + 1)
  }

  lemma {:induction false} OthersOnlyAppend(st: StoreValue, others: seq<Other>)
    ensures st.history <= RunOthers(st, others).history
    decreases |others|
  {
    if others != [] && others[0].chunk == [] {
      OthersOnlyAppend(st, others[1..]);
    } else if others != [] {
      ConsolidateOutcome(st, others[0].chunk, others[0].reply);
      OthersOnlyAppend(Consolidate(st, others[0].chunk, others[0].reply).0, others[1..]);
    }
  }

  /** The failure counter never leaves the range below the threshold. */
  lemma {:induction false} OthersKeepCounter(st: StoreValue, others: seq<Other>)
    requires st.failures < MAX_FAILURES
    ensures RunOthers(st, others).failures < MAX_FAILURES
    decreases |others|
  {
    hide IsBlank;
    if others == [] {
    } else {
      OthersKeepCounter(Consolidate(st, others[0].chunk, others[0].reply).0, others[1..]);
    }
  }

  lemma {:induction false} AttemptsKeepCounter(
    st: StoreValue, chunk: seq<Message>, reply: nat -> Reply, others: nat -> seq<Other>, attempt: nat)
    requires st.failures < MAX_FAILURES
    ensures Attempts(st, chunk, reply, others, attempt).0.failures < MAX_FAILURES
    decreases MAX_FAILURES - attempt
  {
    hide IsBlank;
    if attempt >= MAX_FAILURES {
    } else {
      OthersKeepCounter(st, others(attempt));
      var st1 := RunOthers(st, others(attempt));
      AttemptsKeepCounter(Consolidate(st1, chunk, reply(attempt)).0, chunk, reply, others, attempt + 1);
    }
  }

  /** The consolidations of others run one after the other, each on what the one before left. */
  lemma {:induction false} OthersOneByOne(st: StoreValue, others: seq<Other>, o: Other)
    ensures RunOthers(st, []) == st
    ensures RunOthers(st, others + [o]) == Consolidate(RunOthers(st, others), o.chunk, o.reply).0
    decreases |others|
  {
    hide Consolidate;
    if others == [] {
      assert [o][1..] == [];
      assert RunOthers(Consolidate(st, o.chunk, o.reply).0, []) == Consolidate(st, o.chunk, o.reply).0;
    } else {
      assert (others + [o])[1..] == others[1..] + [o];
      OthersOneByOne(Consolidate(st, others[0].chunk, others[0].reply).0, others[1..], o);
    }
  }

  /** One of these consolidations succeeds, which resets the failure counter. */
  predicate Resets(st: StoreValue, others: seq<Other>)
    decreases |others|
  {
    others != [] &&
    var (st', ok) := Consolidate(st, others[0].chunk, others[0].reply);
    (others[0].chunk != [] && ok) || Resets(st', others[1..])
  }

  lemma {:induction false} NoResetCounts(st: StoreValue, others: seq<Other>)
    requires !Resets(st, others)
    ensures RunOthers(st, others).failures >= st.failures
    decreases |others|
  {
    if others == [] {
    } else {
      var st' := Consolidate(st, others[0].chunk, others[0].reply).0;
      if others[0].chunk != [] {
        ConsolidateOutcome(st, others[0].chunk, others[0].reply);
      }
      NoResetCounts(st', others[1..]);
    }
  }

  /** Before one of the attempts of an archive call, somebody else's consolidation succeeds. */
  predicate Disturbed(
    st: StoreValue, chunk: seq<Message>, reply: nat -> Reply, others: nat -> seq<Other>, attempt: nat)
    decreases MAX_FAILURES - attempt
  {
    attempt < MAX_FAILURES &&
    (Resets(st, others(attempt)) ||
     var (st', ok) := Consolidate(RunOthers(st, others(attempt)), chunk, reply(attempt));
     !ok && Disturbed(st', chunk, reply, others, attempt + 1))
  }

  /** The attempts run out only when a foreign success comes in between: otherwise the third failure in a row
      dumps the snapshot raw. */
  lemma {:induction false} ExhaustedIsDisturbed(
    st: StoreValue, chunk: seq<Message>, reply: nat -> Reply, others: nat -> seq<Other>, attempt: nat)
    requires chunk != [] && attempt < MAX_FAILURES && st.failures >= attempt
    requires Attempts(st, chunk, reply, others, attempt).1
    ensures Disturbed(st, chunk, reply, others, attempt)
    decreases MAX_FAILURES - attempt
  {
    if Resets(st, others(attempt)) {
    } else {
      var st1 := RunOthers(st, others(attempt));
      NoResetCounts(st, others(attempt));
      ConsolidateOutcome(st1, chunk, reply(attempt));
      ExhaustedIsDisturbed(Consolidate(st1, chunk, reply(attempt)).0, chunk, reply, others, attempt + 1);
    }
  }

  /** The reply adds its entry to the history file, whatever happens to the long-term file afterwards. */
  predicate Appends(reply: Reply) {
    reply.SaveMemory? && !IsBlank(reply.entry)
  }

  function Added(before: seq<Entry>, after: seq<Entry>): seq<Entry> {
    if |before| <= |after| then after[|before|..] else []
  }

  /** What the other users of the store add between the attempts. */
  function ForeignEntries(
    st: StoreValue, chunk: seq<Message>, reply: nat -> Reply, others: nat -> seq<Other>, attempt: nat): seq<Entry>
    decreases MAX_FAILURES - attempt
  {
    if attempt >= MAX_FAILURES then []
    else
      var st1 := RunOthers(st, others(attempt));
      var (st2, ok) := Consolidate(st1, chunk, reply(attempt));
      Added(st.history, st1.history) + if ok then [] else ForeignEntries(st2, chunk, reply, others, attempt + 1)
  }

  lemma {:induction false} PersistedAppend(a: seq<Entry>, b: seq<Entry>, chunk: seq<Message>)
    ensures Persisted(a + b, chunk) <==> Persisted(a, chunk) || Persisted(b, chunk)
  {
    assert forall i :: 0 <= i < |a| ==> (a + b)[i] == a[i];
    assert forall i :: 0 <= i < |b| ==> (a + b)[|a| + i] == b[i];
  }

  /** An attempt that returns False leaves its own entry behind when the reply came with one. */
  lemma {:induction false} FailedAttempt(st: StoreValue, chunk: seq<Message>, reply: Reply)
    requires chunk != [] && !Consolidate(st, chunk, reply).1
    ensures var st' := Consolidate(st, chunk, reply).0;
      st.history <= st'.history && (Persisted(Added(st.history, st'.history), chunk) <==> Appends(reply))
  {
    if Appends(reply) {
      var added := Added(st.history, Consolidate(st, chunk, reply).0.history);
      assert added[0].chunk == chunk;
    }
  }

  lemma {:induction false} AddedJoin(h0: seq<Entry>, h1: seq<Entry>, h2: seq<Entry>)
    requires h0 <= h1 <= h2
    ensures Added(h0, h2) == Added(h0, h1) + Added(h1, h2)
  {
  }

  /** Some reply from `attempt` on comes with an entry. */
  predicate SomeReplyAppends(reply: nat -> Reply, attempt: nat) {
    exists k: nat :: attempt <= k < MAX_FAILURES && Appends(reply(k))
  }

  /** The attempts from `attempt` on put the messages into the history file exactly when they do not run out, or
      some reply adds its entry before failing, or somebody else archives the same messages. */
  lemma {:induction false} AttemptsPersistIff(
    st: StoreValue, chunk: seq<Message>, reply: nat -> Reply, others: nat -> seq<Other>, attempt: nat)
    requires chunk != []
    ensures var (st', exhausted) := Attempts(st, chunk, reply, others, attempt);
      && st.history <= st'.history
      && (Persisted(Added(st.history, st'.history), chunk) <==>
            || !exhausted
            || SomeReplyAppends(reply, attempt)
            || Persisted(ForeignEntries(st, chunk, reply, others, attempt), chunk))
    decreases MAX_FAILURES - attempt
  {
    hide Consolidate, RunOthers, Added, Appends, Persisted;
    if attempt >= MAX_FAILURES {
      NothingAdded(st.history, chunk);
    } else {
      var st1 := RunOthers(st, others(attempt));
      OthersOnlyAppend(st, others(attempt));
      var (st2, ok) := Consolidate(st1, chunk, reply(attempt));
      var foreign := Added(st.history, st1.history);
      ConsolidateOutcome(st1, chunk, reply(attempt));
      AddedJoin(st.history, st1.history, st2.history);
      PersistedAppend(foreign, Added(st1.history, st2.history), chunk);
      if ok {
        AddedIsTail(st1.history, st2.history);
      } else {
        FailedAttempt(st1, chunk, reply(attempt));
        AttemptsPersistIff(st2, chunk, reply, others, attempt + 1);
        var st3 := Attempts(st2, chunk, reply, others, attempt + 1).0;
        AddedJoin(st.history, st2.history, st3.history);
        PersistedAppend(Added(st.history, st2.history), Added(st2.history, st3.history), chunk);
        PersistedAppend(foreign, ForeignEntries(st2, chunk, reply, others, attempt + 1), chunk);
        SomeReplyStep(reply, attempt);
      }
    }
  }

  lemma {:induction false} SomeReplyStep(reply: nat -> Reply, attempt: nat)
    requires attempt < MAX_FAILURES
    ensures SomeReplyAppends(reply, attempt) <==> Appends(reply(attempt)) || SomeReplyAppends(reply, attempt + 1)
  {
    hide Appends;
  }

  lemma {:induction false} AddedIsTail(before: seq<Entry>, after: seq<Entry>)
    requires before <= after
    ensures Added(before, after) == after[|before|..]
  {
  }

  lemma {:induction false} NothingAdded(h: seq<Entry>, chunk: seq<Message>)
    ensures !Persisted(Added(h, h), chunk) && !Persisted([], chunk)
  {
  }

  /** Without a foreign success in between, the snapshot is always persisted. */
  lemma {:induction false} ArchivePersists(
    st: StoreValue, chunk: seq<Message>, reply: nat -> Reply, others: nat -> seq<Other>)
    requires chunk != [] && !Disturbed(st, chunk, reply, others, 0)
    ensures var (st', exhausted) := Attempts(st, chunk, reply, others, 0);
      !exhausted && st.history <= st'.history && Persisted(Added(st.history, st'.history), chunk)
  {
    hide Attempts, Disturbed, Persisted, Added, ForeignEntries;
    AttemptsPersistIff(st, chunk, reply, others, 0);
    if Attempts(st, chunk, reply, others, 0).1 {
      ExhaustedIsDisturbed(st, chunk, reply, others, 0);
    }
  }

  lemma {:induction false} PersistedInLonger(h0: seq<Entry>, h1: seq<Entry>, h2: seq<Entry>, chunk: seq<Message>)
    requires h0 <= h1 <= h2 && Persisted(h2[|h1|..], chunk)
    ensures Persisted(h2[|h0|..], chunk)
  {
    var i :| 0 <= i < |h2[|h1|..]| && h2[|h1|..][i].chunk == chunk;
    assert h2[|h0|..][|h1| - |h0| + i] == h2[|h1|..][i];
  }

  /** The attempts run out exactly when none of the three replies saves and the shared counter stands
      at most at one when each attempt's reply is handled. */
  lemma {:induction false} ArchiveExhaustedIff(
    st: StoreValue, chunk: seq<Message>, reply: nat -> Reply, others: nat -> seq<Other>)
    requires chunk != []
    ensures
      var a := RunOthers(st, others(0));
      var b := RunOthers(Consolidate(a, chunk, reply(0)).0, others(1));
      var c := RunOthers(Consolidate(b, chunk, reply(1)).0, others(2));
      Attempts(st, chunk, reply, others, 0).1 <==>
        && !Saves(reply(0)) && !Saves(reply(1)) && !Saves(reply(2))
        && a.failures <= 1 && b.failures <= 1 && c.failures <= 1
  {
    var a := RunOthers(st, others(0));
    var (a', _) := Consolidate(a, chunk, reply(0));
    var b := RunOthers(a', others(1));
    var (b', _) := Consolidate(b, chunk, reply(1));
    var c := RunOthers(b', others(2));
    var (c', _) := Consolidate(c, chunk, reply(2));
    ConsolidateOutcome(a, chunk, reply(0));
    ConsolidateOutcome(b, chunk, reply(1));
    ConsolidateOutcome(c, chunk, reply(2));
    assert Attempts(c', chunk, reply, others, 3) == (c', true);
  }

  /** A snapshot handed to archive_messages ends up in the history file exactly when some reply comes with an
      entry, or the shared failure counter stands at two before some attempt, or somebody else archives the same
      messages in between: for every reply and every interleaving. */
  lemma {:induction false} ArchivePersistsIff(
    st: StoreValue, chunk: seq<Message>, reply: nat -> Reply, others: nat -> seq<Other>)
    requires chunk != []
    ensures
      var a := RunOthers(st, others(0));
      var b := RunOthers(Consolidate(a, chunk, reply(0)).0, others(1));
      var c := RunOthers(Consolidate(b, chunk, reply(1)).0, others(2));
      var st' := Attempts(st, chunk, reply, others, 0).0;
      && st.history <= st'.history
      && (Persisted(Added(st.history, st'.history), chunk) <==>
            || Appends(reply(0)) || Appends(reply(1)) || Appends(reply(2))
            || a.failures >= 2 || b.failures >= 2 || c.failures >= 2
            || Persisted(ForeignEntries(st, chunk, reply, others, 0), chunk))
  {
    hide Attempts, RunOthers, Consolidate, Persisted, ForeignEntries, Added, IsBlank;
    AttemptsPersistIff(st, chunk, reply, others, 0);
    ArchiveExhaustedIff(st, chunk, reply, others);
    SomeReplyStep(reply, 0);
    SomeReplyStep(reply, 1);
    SomeReplyStep(reply, 2);
  }

  /** The bad case: another session's success before the last attempt resets the shared counter, and the
      snapshot is neither summarised nor dumped although the call returns True. */
  lemma {:induction false} ForeignSuccessLosesSnapshot(st: StoreValue, snapshot: seq<Message>, other: seq<Message>)
    requires snapshot != [] && other != [] && other != snapshot
    requires st.failures == 0 && !Persisted(st.history, snapshot)
    ensures
      var others := (k: nat) => if k == 2 then [Other(other, SaveMemory("done", true))] else [];
      var (st', exhausted) := Attempts(st, snapshot, (k: nat) => NoToolCall, others, 0);
      exhausted && !Persisted(st'.history, snapshot)
  {
    var others := (k: nat) => if k == 2 then [Other(other, SaveMemory("done", true))] else [];
    var reply := (k: nat) => NoToolCall;
    var st1, st2 := StoreValue(1, st.history), StoreValue(2, st.history);
    assert !IsSpace("done"[0]);
    var st3 := StoreValue(0, st.history + [Summary(other, "done")]);
    assert RunOthers(st, others(0)) == st && RunOthers(st1, others(1)) == st1;
    assert others(2)[1..] == [];
    assert RunOthers(st2, others(2)) == st3;
    assert Attempts(st3, snapshot, reply, others, 3).1;
    assert Attempts(st2, snapshot, reply, others, 2) == (st3.(failures := 1), true);
    assert Attempts(st1, snapshot, reply, others, 1) == Attempts(st2, snapshot, reply, others, 2);
    assert Attempts(st, snapshot, reply, others, 0) == Attempts(st1, snapshot, reply, others, 1);
  }

  /* ---------- choosing the boundary ---------- */

  type Tokens = n: int | 1 <= n witness 1

  function Removed(ms: seq<Message>, tokens: Message -> Tokens, start: nat, end: nat): nat
    requires start <= end <= |ms|
  {
    if start == end then 0 else Removed(ms, tokens, start, end - 1) + tokens(ms[end - 1])
  }

  /** A place where the session may be cut: just before a later user message. */
  predicate IsCut(ms: seq<Message>, start: nat, k: int) {
    start < k < |ms| && ms[k].role.User?
  }

  /** The cut for a demand of `demand` tokens, among the cuts at `idx` or later. */
  function PickFrom(ms: seq<Message>, tokens: Message -> Tokens, start: nat, demand: int, idx: nat): (cut: Option<nat>)
    requires start <= idx
    ensures cut == None <==> forall k :: idx <= k ==> !IsCut(ms, start, k)
    ensures cut.Some? ==> idx <= cut.value && IsCut(ms, start, cut.value)
    ensures cut.Some? ==> forall k :: idx <= k < cut.value && IsCut(ms, start, k) ==> Removed(ms, tokens, start, k) < demand
    ensures cut.Some? && Removed(ms, tokens, start, cut.value) < demand ==> forall k :: k > cut.value ==> !IsCut(ms, start, k)
    decreases |ms| - idx
  {
    if idx >= |ms| then None
    else
      var later := PickFrom(ms, tokens, start, demand, idx + 1);
      if IsCut(ms, start, idx) && (later == None || Removed(ms, tokens, start, idx) >= demand) then Some(idx) else later
  }

  function Pick(ms: seq<Message>, tokens: Message -> Tokens, offset: nat, demand: int): Option<nat> {
    if offset >= |ms| || demand <= 0 then None else PickFrom(ms, tokens, offset, demand, offset)
  }

  lemma {:induction false} PickUnfolds(ms: seq<Message>, tokens: Message -> Tokens, start: nat, demand: int, idx: nat)
    requires start <= idx <= |ms|
    ensures idx == |ms| ==> PickFrom(ms, tokens, start, demand, idx) == None
    ensures idx < |ms| ==>
      var later := PickFrom(ms, tokens, start, demand, idx + 1);
      var here := idx > start && ms[idx].role.User? && (later == None || Removed(ms, tokens, start, idx) >= demand);
      && PickFrom(ms, tokens, start, demand, idx) == (if here then Some(idx) else later)
      && Removed(ms, tokens, start, idx + 1) == Removed(ms, tokens, start, idx) + tokens(ms[idx])
    ensures Removed(ms, tokens, start, start) == 0
  {
  }

  /** One scan over the unconsolidated messages, remembering the last cut seen. */
  method PickConsolidationBoundary(s: Session, tokens: Message -> Tokens, demand: int) returns (boundary: Option<(nat, nat)>)
    ensures boundary.None? <==> Pick(s.messages, tokens, s.lastConsolidated, demand).None?
    ensures boundary.Some? ==>
      && Pick(s.messages, tokens, s.lastConsolidated, demand) == Some(boundary.value.0)
      && s.lastConsolidated <= boundary.value.0 <= |s.messages|
      && boundary.value.1 == Removed(s.messages, tokens, s.lastConsolidated, boundary.value.0)
  {
    hide PickFrom, Removed, IsCut;
    var start := s.lastConsolidated;
    if start >= |s.messages| || demand <= 0 {
      return None;
    }
    var removed := 0;
    boundary := None;
    PickUnfolds(s.messages, tokens, start, demand, start);
    for idx := start to |s.messages|
      invariant removed == Removed(s.messages, tokens, start, idx)
      invariant boundary.None? ==>
        PickFrom(s.messages, tokens, start, demand, start) == PickFrom(s.messages, tokens, start, demand, idx)
      invariant boundary.Some? ==>
        var (k, r) := boundary.value;
        var rest := PickFrom(s.messages, tokens, start, demand, idx);
        && start < k < idx && r == Removed(s.messages, tokens, start, k)
        && PickFrom(s.messages, tokens, start, demand, start) == if rest.None? then Some(k) else rest
    {
      var m := s.messages[idx];
      PickUnfolds(s.messages, tokens, start, demand, idx);
      if idx > start && m.role.User? {
        boundary := Some((idx, removed));
        if removed >= demand {
          return;
        }
      }
      removed := removed + tokens(m);
    }
    PickUnfolds(s.messages, tokens, start, demand, |s.messages|);
  }
}
