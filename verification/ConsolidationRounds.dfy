/** When a consolidation starts, what each of its rounds takes, and why it stops
    (maybe_consolidate_by_tokens in nanobot/agent/memory.py). */
module ConsolidationRounds {
  import opened Prelude
  import opened Chat
  import opened SessionStore
  import opened MemoryArchive
  import opened Consolidation

  /** Some user message stands behind the first unconsolidated message. */
  predicate HasCut(s: SessionValue) {
    exists k :: s.lastConsolidated < k < |s.messages| && s.messages[k].role.User?
  }

  /** The tokens of the messages together. */
  function Total(ms: seq<Message>, tokens: Message -> Tokens): nat {
    if ms == [] then 0 else tokens(ms[0]) + Total(ms[1..], tokens)
  }

  /** The tokens of the unconsolidated messages in front of the k-th message. */
  function InFront(s: SessionValue, tokens: Message -> Tokens, k: nat): nat
    requires s.lastConsolidated <= k <= |s.messages|
  {
    Total(s.messages[s.lastConsolidated..k], tokens)
  }

  /** The cut a round takes: the first in front of which at least `demand` tokens stand, else the last. */
  predicate ProperCut(s: SessionValue, tokens: Message -> Tokens, demand: int, end: nat) {
    && s.lastConsolidated < end < |s.messages| && s.messages[end].role.User?
    && (forall k :: s.lastConsolidated < k < end && s.messages[k].role.User? ==>
          InFront(s, tokens, k) < demand)
    && (InFront(s, tokens, end) >= demand
        || forall k :: end < k < |s.messages| ==> !s.messages[k].role.User?)
  }

  /** The k-th round leads from p to p': it removes what the estimate is above half the window, if it can. */
  ghost predicate IsRound(p: Progress, env: Surroundings, k: nat, p': Progress) {
    && env.estimate(k) > env.window / 2
    && exists end :: ProperCut(p.session, env.tokens, env.estimate(k) - env.window / 2, end)
         && p' == Round(p, env, k, end).0
  }

  /** The model's answer to the k-th round saves, or it is the third failure in a row and dumps the chunk. */
  predicate Confirms(p: Progress, env: Surroundings, k: nat) {
    Saves(env.reply(k)) || RunOthers(p.store, env.others(k)).failures >= 2
  }

  /** From the round `from` on, each state follows by one round, and every round but the last is confirmed and
      leaves a prompt that is still there. */
  ghost predicate Rounded(trace: seq<Progress>, env: Surroundings, from: nat) {
    && (forall k :: 0 <= k < |trace| - 1 ==> IsRound(trace[k], env, from + k, trace[k + 1]))
    && forall k :: 0 <= k < |trace| - 2 ==> GoesOn(trace[k], env, from + k)
  }

  predicate GoesOn(p: Progress, env: Surroundings, k: nat) {
    Confirms(p, env, k) && env.estimate(k + 1) > 0
  }

  /** Behind the rounds of the trace there is no further one: they are five, half the window is reached, no cut
      is left, or the last round was not confirmed or left no prompt. */
  predicate Stops(trace: seq<Progress>, env: Surroundings, from: nat)
    requires trace != []
  {
    var n := |trace| - 1;
    || from + n == 5
    || env.estimate(from + n) <= env.window / 2
    || !HasCut(trace[n].session)
    || (n > 0 && !GoesOn(trace[n - 1], env, from + n - 1))
  }

  lemma {:induction false} TotalSnoc(ms: seq<Message>, tokens: Message -> Tokens, m: Message)
    ensures Total(ms + [m], tokens) == Total(ms, tokens) + tokens(m)
  {
    if ms == [] {
      assert (ms + [m])[1..] == [];
    } else {
      assert (ms + [m])[1..] == ms[1..] + [m];
      TotalSnoc(ms[1..], tokens, m);
    }
  }

  lemma {:induction false} RemovedIsTotal(s: SessionValue, tokens: Message -> Tokens, k: nat)
    requires s.lastConsolidated <= k <= |s.messages|
    ensures Removed(s.messages, tokens, s.lastConsolidated, k) == InFront(s, tokens, k)
    decreases k
  {
    if k > s.lastConsolidated {
      RemovedIsTotal(s, tokens, k - 1);
      TotalSnoc(s.messages[s.lastConsolidated..k - 1], tokens, s.messages[k - 1]);
      assert s.messages[s.lastConsolidated..k] == s.messages[s.lastConsolidated..k - 1] + [s.messages[k - 1]];
    }
  }

  lemma {:induction false} PickIsProper(s: SessionValue, tokens: Message -> Tokens, demand: int)
    requires demand > 0
    ensures var cut := Pick(s.messages, tokens, s.lastConsolidated, demand);
      && (cut.None? <==> !HasCut(s))
      && forall end: nat :: cut == Some(end) <==> ProperCut(s, tokens, demand, end)
  {
    var ms, offset := s.messages, s.lastConsolidated;
    var cut := Pick(ms, tokens, offset, demand);
    assert forall k :: IsCut(ms, offset, k) <==> offset < k < |ms| && ms[k].role.User?;
    hide Removed, IsCut, InFront;
    forall k: nat | offset <= k <= |ms|
      ensures Removed(ms, tokens, offset, k) == InFront(s, tokens, k)
    {
      RemovedIsTotal(s, tokens, k);
    }
    if cut.Some? {
      forall end: nat | ProperCut(s, tokens, demand, end)
        ensures end == cut.value
      {
        assert IsCut(ms, offset, end) && IsCut(ms, offset, cut.value);
      }
    }
  }

  lemma {:induction false} RoundConfirms(p: Progress, env: Surroundings, k: nat, end: nat)
    requires p.session.lastConsolidated < end <= |p.session.messages|
    ensures Round(p, env, k, end).1 == Confirms(p, env, k)
    ensures Round(p, env, k, end).0.chunks == if Confirms(p, env, k) then p.chunks + [Chunk(p.session, end)] else p.chunks
  {
    hide Consolidate, RunOthers, Saves, Interrupted;
    var chunk, st := Chunk(p.session, end), RunOthers(p.store, env.others(k));
    assert |chunk| == end - p.session.lastConsolidated;
    ConsolidateOutcome(st, chunk, env.reply(k));
  }

  /** What one round leaves: the session with what the other tasks did to it at the await, its offset moved if the
      chunk was confirmed; the store with their consolidations and its own; the chunk among the confirmed ones; and
      in file and cache the value and object of the last to save. */
  lemma {:induction false} RoundLeaves(p: Progress, env: Surroundings, k: nat, end: nat)
    requires p.session.lastConsolidated < end <= |p.session.messages|
    ensures var (p', confirmed) := Round(p, env, k, end);
            var s, s', m := p.session, p'.session, env.meanwhile(k);
            var chunk := s.messages[s.lastConsolidated..end];
            var cleared := m.Cleared? || m.Replaced?;
      && confirmed == Confirms(p, env, k)
      && s'.messages == (match m case Quiet => s.messages case Appended(turns) => s.messages + turns case _ => [])
      && s'.lastConsolidated == (if confirmed then end else if cleared then 0 else s.lastConsolidated)
      && s'.metadata == s.metadata
      && p'.store == Consolidate(RunOthers(p.store, env.others(k)), chunk, env.reply(k)).0
      && p'.chunks == (if confirmed then p.chunks + [chunk] else p.chunks)
      && p'.saved == (if confirmed then Some(s')
                      else match m
                           case Quiet => p.saved
                           case Replaced(turns) => Some(s'.(messages := turns))
                           case _ => Some(s'))
      && p'.cached == (if confirmed then Same
                       else match m
                            case Quiet => p.cached
                            case Appended(_) => Same
                            case Cleared => Nobody
                            case Replaced(_) => Another)
  {
    RoundConfirms(p, env, k, end);
    hide Consolidate, RunOthers, Confirms;
  }

  lemma {:induction false} Prepended(p: Progress, trace: seq<Progress>, env: Surroundings, from: nat)
    requires trace != [] && IsRound(p, env, from, trace[0])
    requires Rounded(trace, env, from + 1) && (|trace| > 1 ==> GoesOn(p, env, from))
    ensures Rounded([p] + trace, env, from)
  {
    hide IsRound, GoesOn;
    var all := [p] + trace;
    forall k | 0 <= k < |all| - 1
      ensures IsRound(all[k], env, from + k, all[k + 1])
    {
      if k > 0 {
        assert IsRound(trace[k - 1], env, from + 1 + (k - 1), trace[k - 1 + 1]);
      }
    }
    forall k | 0 <= k < |all| - 2
      ensures GoesOn(all[k], env, from + k)
    {
      if k > 0 {
        assert GoesOn(trace[k - 1], env, from + 1 + (k - 1));
      }
    }
  }

  lemma {:induction false} RoundsTrace(p: Progress, env: Surroundings, round: nat) returns (trace: seq<Progress>)
    requires round <= 5 && env.window > 0
    ensures trace != [] && trace[0] == p && |trace| <= 6 - round
    ensures Rounded(trace, env, round) && Stops(trace, env, round)
    ensures trace[|trace| - 1] == Rounds(p, env, env.estimate(round), env.window / 2, round)
    decreases 5 - round
  {
    hide Round, Rounds, Pick, HasCut, ProperCut, Confirms, Rounded;
    var target := env.window / 2;
    RoundsUnfold(p, env, env.estimate(round), target, round);
    trace := [p];
    TrivialTrace(p, env, round);
    if round < 5 && env.estimate(round) > target {
      PickIsProper(p.session, env.tokens, env.estimate(round) - target);
      var cut := Pick(p.session.messages, env.tokens, p.session.lastConsolidated, env.estimate(round) - target);
      if cut.Some? {
        var p' := Round(p, env, round, cut.value).0;
        ProperIsCut(p.session, env.tokens, env.estimate(round) - target, cut.value);
        RoundConfirms(p, env, round, cut.value);
        assert IsRound(p, env, round, p');
        if GoesOn(p, env, round) {
          var rest := RoundsTrace(p', env, round + 1);
          Prepended(p, rest, env, round);
          trace := [p] + rest;
        } else {
          TrivialTrace(p', env, round + 1);
          Prepended(p, [p'], env, round);
          trace := [p] + [p'];
        }
      }
    }
  }

  lemma {:induction false} TrivialTrace(p: Progress, env: Surroundings, from: nat)
    ensures Rounded([p], env, from)
  {
  }

  lemma {:induction false} ProperIsCut(s: SessionValue, tokens: Message -> Tokens, demand: int, end: nat)
    requires ProperCut(s, tokens, demand, end)
    ensures s.lastConsolidated < end <= |s.messages|
  {
  }

  /** A consolidation is needed: there is a session, a window, and a prompt that does not fit it. */
  predicate Overflows(s: SessionValue, env: Surroundings) {
    s.messages != [] && 0 < env.window <= env.estimate(0)
  }

  /** While the prompt fits the window nothing happens: session, store, file and cache stay, nothing is archived. */
  lemma {:induction false} IdleBelowWindow(s: SessionValue, st: StoreValue, env: Surroundings)
    requires !Overflows(s, env)
    ensures MaybeConsolidate(s, st, env) == Progress(s, st, [], None, Same)
  {
  }

  /** Otherwise the consolidation is a sequence of at most five rounds, each started above half the window and
      taking the proper cut, and it stops only for one of the reasons there are. */
  lemma {:induction false} ConsolidationTrace(s: SessionValue, st: StoreValue, env: Surroundings)
    returns (trace: seq<Progress>)
    requires Overflows(s, env)
    ensures 1 <= |trace| <= 6 && trace[0] == Progress(s, st, [], None, Same)
    ensures Rounded(trace, env, 0) && Stops(trace, env, 0)
    ensures MaybeConsolidate(s, st, env) == trace[|trace| - 1]
  {
    hide Rounds, Rounded, Stops;
    trace := RoundsTrace(Progress(s, st, [], None, Same), env, 0);
  }

  lemma {:induction false} RoundIsDetermined(p: Progress, env: Surroundings, k: nat, x: Progress, y: Progress)
    requires IsRound(p, env, k, x) && IsRound(p, env, k, y)
    ensures x == y && HasCut(p.session)
  {
    hide Round, Pick, ProperCut, HasCut;
    var demand := env.estimate(k) - env.window / 2;
    PickIsProper(p.session, env.tokens, demand);
    var cut := Pick(p.session.messages, env.tokens, p.session.lastConsolidated, demand);
    var i: nat :| ProperCut(p.session, env.tokens, demand, i) && x == Round(p, env, k, i).0;
    var j: nat :| ProperCut(p.session, env.tokens, demand, j) && y == Round(p, env, k, j).0;
    assert cut == Some(i) && cut == Some(j);
  }

  lemma {:induction false} SamePrefix(a: seq<Progress>, b: seq<Progress>, env: Surroundings, n: nat)
    requires n < |a| && n < |b| && a[0] == b[0] && Rounded(a, env, 0) && Rounded(b, env, 0)
    ensures forall k :: 0 <= k <= n ==> a[k] == b[k]
  {
    hide IsRound, GoesOn;
    if n > 0 {
      SamePrefix(a, b, env, n - 1);
      assert IsRound(a[n - 1], env, 0 + (n - 1), a[n - 1 + 1]) && IsRound(b[n - 1], env, 0 + (n - 1), b[n - 1 + 1]);
      RoundIsDetermined(a[n - 1], env, n - 1, a[n], b[n]);
    }
  }

  lemma {:induction false} NoFurtherRound(a: seq<Progress>, b: seq<Progress>, env: Surroundings)
    requires a != [] && |b| <= 6 && forall k :: 0 <= k < |a| && k < |b| ==> a[k] == b[k]
    requires Stops(a, env, 0) && Rounded(b, env, 0)
    ensures |b| <= |a|
  {
    hide GoesOn, HasCut, Round, ProperCut;
    var n := |a| - 1;
    if |a| < |b| {
      assert IsRound(b[n], env, 0 + n, b[n + 1]);
      RoundIsDetermined(b[n], env, n, b[n + 1], b[n + 1]);
    }
  }

  /** The same rounds taken one after the other lead nowhere else. */
  lemma {:induction false} TraceIsUnique(a: seq<Progress>, b: seq<Progress>, env: Surroundings)
    requires a != [] && b != [] && a[0] == b[0] && env.window > 0
    requires Rounded(a, env, 0) && Stops(a, env, 0) && Rounded(b, env, 0) && Stops(b, env, 0)
    requires |a| <= 6 && |b| <= 6
    ensures a == b
  {
    SamePrefix(a, b, env, if |a| <= |b| then |a| - 1 else |b| - 1);
    NoFurtherRound(a, b, env);
    NoFurtherRound(b, a, env);
  }

  lemma {:induction false} ChunksStay(p: Progress, env: Surroundings, estimated: int, target: int, round: nat)
    ensures p.chunks <= Rounds(p, env, estimated, target, round).chunks
    decreases MAX_ROUNDS - round
  {
    hide Rounds, Round, Pick;
    RoundsUnfold(p, env, estimated, target, round);
    if round < MAX_ROUNDS && estimated > target {
      match Pick(p.session.messages, env.tokens, p.session.lastConsolidated, Max(1, estimated - target)) {
        case None =>
        case Some(end) =>
          var p' := Round(p, env, round, end).0;
          assert p.chunks <= p'.chunks by { RoundAddsChunk(p, env, round, end); }
          ChunksStay(p', env, env.estimate(round + 1), target, round + 1);
      }
    }
  }

  lemma {:induction false} RoundAddsChunk(p: Progress, env: Surroundings, round: nat, end: nat)
    ensures p.chunks <= Round(p, env, round, end).0.chunks
  {
    hide Consolidate, RunOthers, Chunk, Interrupted;
  }

  /** Something is archived exactly when the prompt overflows the window, a user message stands behind the first
      unconsolidated one, and the first answer saves or is the third failure in a row. */
  lemma {:induction false} ArchivesIff(s: SessionValue, st: StoreValue, env: Surroundings)
    ensures MaybeConsolidate(s, st, env).chunks != [] <==>
      && s.messages != [] && 0 < env.window <= env.estimate(0)
      && (exists k :: s.lastConsolidated < k < |s.messages| && s.messages[k].role.User?)
      && (Saves(env.reply(0)) || RunOthers(st, env.others(0)).failures >= 2)
  {
    hide Rounds, Round, Pick, ProperCut, Saves, RunOthers;
    var p, target := Progress(s, st, [], None, Same), env.window / 2;
    if Overflows(s, env) {
      RoundsUnfold(p, env, env.estimate(0), target, 0);
      PickIsProper(s, env.tokens, env.estimate(0) - target);
      var cut := Pick(s.messages, env.tokens, s.lastConsolidated, env.estimate(0) - target);
      if cut.Some? {
        ProperIsCut(s, env.tokens, env.estimate(0) - target, cut.value);
        RoundConfirms(p, env, 0, cut.value);
        ChunksStay(Round(p, env, 0, cut.value).0, env, env.estimate(1), target, 1);
      }
    }
  }
}
