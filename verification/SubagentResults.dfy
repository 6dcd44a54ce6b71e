/** What a run of the materializer writes, and how its counters report it
    (nanobot/runtime/subagent_materializer.py). */
module SubagentResults {
  import opened Prelude
  import opened SubagentRequests
  import opened SubagentRollup

  /* ---------- the records ---------- */

  /** The record answers the request: it names its file, id, cycle and task, and says whether it was executed. */
  predicate Answers(env: Env, body: Body<ResultRecord>, f: RequestFile) {
    body.Object? && f.body.Object? &&
    var r, q := body.value, f.body.value;
    && r.requestPath == f.path && r.requestId == (if q.requestId != "" then q.requestId else q.id)
    && r.cycleId == q.cycleId && r.taskId == q.taskId
    && r.status == (if env.executes(f) then "completed" else "blocked")
  }

  /** The request is an object, queued or pending or without a status, and no result names its file. */
  predicate Awaits(results: Results, f: RequestFile) {
    && f.body.Object? && (f.body.value.status == "" || Lower(f.body.value.status) in {"queued", "pending"})
    && forall n :: n in results && results[n].Object? ==> results[n].value.requestPath != f.path
  }

  lemma {:induction false} PendingAwaits(results: Results, f: RequestFile)
    requires f.path != ""
    ensures Pending(results, f) <==> Awaits(results, f)
  {
    hide NamedPaths, Lower;
    LowerKeeps("queued");
    UnnamedIff(results, f.path);
  }

  lemma {:induction false} UnnamedIff(results: Results, path: string)
    requires path != ""
    ensures path !in NamedPaths(results) <==>
      forall n :: n in results && results[n].Object? ==> results[n].value.requestPath != path
  {
  }

  /** A result with that name was written for the j-th request, the first one pending with it. */
  predicate WrittenFor(
    env: Env, results: Results, requests: seq<RequestFile>, j: nat, name: string, body: Body<ResultRecord>)
    requires j < |requests|
  {
    && Awaits(results, requests[j]) && ResultName(env, requests[j], requests[j].body.value) == name
    && name !in results && Answers(env, body, requests[j])
    && forall i :: 0 <= i < j ==> !(Awaits(results, requests[i])
                                    && ResultName(env, requests[i], requests[i].body.value) == name)
  }

  lemma {:induction false} WrittenIff(
    env: Env, results: Results, requests: seq<RequestFile>, j: nat, name: string, body: Body<ResultRecord>)
    requires DistinctPaths(requests) && j < |requests|
    ensures WrittenFor(env, results, requests, j, name, body) <==>
      && GetsResult(env, results, requests, j) && ResultName(env, requests[j], requests[j].body.value) == name
      && Answers(env, body, requests[j])
  {
    hide ResultName, Awaits, Pending, Answers;
    forall i | 0 <= i <= j
      ensures Pending(results, requests[i]) <==> Awaits(results, requests[i])
      ensures Pending(results, requests[i]) ==> requests[i].body.Object?
    {
      PendingAwaits(results, requests[i]);
      OnlyObjectsPend(results, requests[i]);
    }
  }

  lemma {:induction false} RecordAnswers(env: Env, f: RequestFile)
    requires f.body.Object?
    ensures Answers(env, Object(ResultOf(f, f.body.value, env.executes(f))), f)
  {
  }

  lemma {:induction false} WrittenForEarlier(
    env: Env, results: Results, earlier: seq<RequestFile>, f: RequestFile, j: nat, name: string,
    body: Body<ResultRecord>)
    requires j < |earlier| && WrittenFor(env, results, earlier, j, name, body)
    ensures WrittenFor(env, results, earlier + [f], j, name, body)
  {
    hide Awaits, ResultName, Answers;
    assert forall i :: 0 <= i <= j ==> (earlier + [f])[i] == earlier[i];
  }

  lemma {:induction false} NewNameIsWritten(env: Env, results: Results, requests: seq<RequestFile>, name: string)
    requires DistinctPaths(requests) && name !in results
    requires name in Materialize(env, Start(results), requests, None).results
    ensures var after := Materialize(env, Start(results), requests, None).results;
      exists j :: 0 <= j < |requests| && WrittenFor(env, results, requests, j, name, after[name])
    decreases |requests|
  {
    if requests == [] {
      assert false;
    } else {
      hide Materialize, ResultName, WrittenFor, GetsResult, Answers, NamedPaths;
      var last := |requests| - 1;
      var earlier, f := requests[..last], requests[last];
      assert requests == earlier + [f];
      DistinctPrefix(requests);
      var before := Materialize(env, Start(results), earlier, None).results;
      var after := Materialize(env, Start(results), requests, None).results;
      LastStep(env, results, earlier, f);
      LastGetsResult(env, results, earlier, f);
      OnlyObjectsPend(results, f);
      hide Pending, DistinctPaths;
      if GetsResult(env, results, requests, last) && ResultName(env, f, f.body.value) == name {
        RecordAnswers(env, f);
        WrittenIff(env, results, requests, last, name, after[name]);
      } else {
        assert name in before && after[name] == before[name];
        NewNameIsWritten(env, results, earlier, name);
        var j :| 0 <= j < |earlier| && WrittenFor(env, results, earlier, j, name, before[name]);
        WrittenForEarlier(env, results, earlier, f, j, name, before[name]);
      }
    }
  }

  lemma {:induction false} PrefixIsDistinct(requests: seq<RequestFile>, n: nat)
    requires DistinctPaths(requests) && n <= |requests|
    ensures DistinctPaths(requests[..n])
  {
  }

  /** A run with any limit writes a result with a name exactly when an examined request awaits one with it and
      no result has it; the result answers one examined request, the first of them, and no other. */
  lemma {:induction false} ResultsWritten(
    env: Env, results: Results, requests: seq<RequestFile>, limit: Option<int>, name: string)
    requires DistinctPaths(requests) && name !in results
    ensures var after := Materialize(env, Start(results), requests, limit).results;
            var examined := requests[..Examined(env, Start(results), requests, limit)];
      && (name in after <==>
            exists j :: 0 <= j < |examined| && Awaits(results, examined[j])
                        && ResultName(env, examined[j], examined[j].body.value) == name)
      && (name in after ==>
            exists j :: 0 <= j < |examined| && WrittenFor(env, results, examined, j, name, after[name]))
      && (name in after ==>
            forall i, j | 0 <= i < j < |examined| ::
              !WrittenFor(env, results, examined, i, name, after[name])
              || !WrittenFor(env, results, examined, j, name, after[name]))
  {
    var n := Examined(env, Start(results), requests, limit);
    var examined := requests[..n];
    LimitIsPrefix(env, Start(results), requests, limit);
    PrefixIsDistinct(requests, n);
    assert forall j :: 0 <= j < |examined| ==> examined[j].path != "";
    hide Materialize, ResultName, NamedPaths, Answers, Examined, DistinctPaths, Awaits, Pending;
    KeysAfterRun(env, results, examined, name);
    forall j | 0 <= j < |examined|
      ensures Pending(results, examined[j]) <==> Awaits(results, examined[j])
    {
      PendingAwaits(results, examined[j]);
    }
    if name in Materialize(env, Start(results), examined, None).results {
      NewNameIsWritten(env, results, examined, name);
    }
  }

  /* ---------- the counters ---------- */

  /** The results that were not there before and have the status. */
  function NewWith(results: Results, after: Results, status: string): set<string> {
    set n | n in after && n !in results && after[n].Object? && after[n].value.status == status
  }

  predicate Counts(results: Results, p: Progress) {
    && results.Keys <= p.results.Keys
    && p.executed == |NewWith(results, p.results, "completed")|
    && p.blocked == |NewWith(results, p.results, "blocked")|
  }

  lemma {:induction false} HandleCounts(env: Env, results: Results, p: Progress, f: RequestFile)
    requires Counts(results, p)
    ensures Counts(results, Handle(env, p, f))
  {
    hide ResultName, Lower, IsQueued, NewWith;
    var p' := Handle(env, p, f);
    if p'.results != p.results {
      var name, status := ResultName(env, f, f.body.value), if env.executes(f) then "completed" else "blocked";
      var body := Object(ResultOf(f, f.body.value, env.executes(f)));
      assert body.value.status == status;
      OneMoreWith(results, p.results, name, body, "completed");
      OneMoreWith(results, p.results, name, body, "blocked");
    }
  }

  lemma {:induction false} OneMoreWith(
    results: Results, before: Results, name: string, body: Body<ResultRecord>, status: string)
    requires name !in before && results.Keys <= before.Keys && body.Object?
    ensures |NewWith(results, before[name := body], status)|
         == |NewWith(results, before, status)| + if body.value.status == status then 1 else 0
  {
    var after := before[name := body];
    var fewer, more := NewWith(results, before, status), NewWith(results, after, status);
    assert name !in fewer;
    forall n: string
      ensures n in more <==> n in fewer || (n == name && body.value.status == status)
    {
    }
    hide NewWith;
    if body.value.status == status {
      assert more == fewer + {name};
    } else {
      assert more == fewer;
    }
  }

  lemma {:induction false} RunCounts(
    env: Env, results: Results, p: Progress, requests: seq<RequestFile>, limit: Option<int>)
    requires Counts(results, p)
    ensures Counts(results, Materialize(env, p, requests, limit))
    decreases |requests|
  {
    hide Counts, Handle;
    if requests != [] && !LimitReached(p, limit) {
      HandleCounts(env, results, p, requests[0]);
      RunCounts(env, results, Handle(env, p, requests[0]), requests[1..], limit);
    }
  }

  /** The counters of a run are the new results with the status completed and with the status blocked, their sum,
      and the other requests examined. */
  lemma {:induction false} CountersAreResults(
    env: Env, results: Results, requests: seq<RequestFile>, limit: Option<int>)
    ensures var run := Materialize(env, Start(results), requests, limit);
      && run.executed == |NewWith(results, run.results, "completed")|
      && run.blocked == |NewWith(results, run.results, "blocked")|
      && run.terminalized == run.executed + run.blocked
      && run.skipped == Examined(env, Start(results), requests, limit) - run.terminalized
  {
    MaterializeAccounts(env, Start(results), requests, limit);
    assert NewWith(results, results, "completed") == {} && NewWith(results, results, "blocked") == {};
    hide Materialize, NewWith;
    RunCounts(env, results, Start(results), requests, limit);
  }

  /** The limit is never passed, and a run stops short of its requests only when it is reached. */
  lemma {:induction false} LimitIsKept(env: Env, p: Progress, requests: seq<RequestFile>, limit: int)
    ensures var run := Materialize(env, p, requests, Some(limit));
      && run.terminalized <= Max(limit, p.terminalized)
      && (Examined(env, p, requests, Some(limit)) < |requests| ==> run.terminalized >= limit)
    decreases |requests|
  {
    hide ResultName, Lower, IsQueued, NamedPaths;
    if requests != [] && p.terminalized < limit {
      HandleAccounts(env, p, requests[0]);
      LimitIsKept(env, Handle(env, p, requests[0]), requests[1..], limit);
    }
  }

  /* ---------- the names ---------- */

  predicate SafeChar(env: Env, c: char) {
    env.isAlnum(c) || c == '-' || c == '_'
  }

  /** The key is all letters, digits, dashes and underscores, with no dash at its ends. */
  predicate SafeKey(env: Env, key: string) {
    key != "" && key[0] != '-' && key[|key| - 1] != '-' && forall i :: 0 <= i < |key| ==> SafeChar(env, key[i])
  }

  lemma {:induction false} SafeCharsAt(env: Env, s: string)
    ensures |SafeChars(env, s)| == |s|
    ensures forall i :: 0 <= i < |s| ==> SafeChars(env, s)[i] == if SafeChar(env, s[i]) then s[i] else '-'
  {
    if s != "" {
      SafeCharsAt(env, s[1..]);
      assert forall i :: 1 <= i < |s| ==> s[i] == s[1..][i - 1];
    }
  }

  predicate Dashes(s: string) {
    forall i :: 0 <= i < |s| ==> s[i] == '-'
  }

  /** What is left lies between dashes and has none at its ends. */
  lemma {:induction false} StrippedOfDashes(s: string) returns (front: string, back: string)
    ensures s == front + StripDashes(s) + back && Dashes(front) && Dashes(back)
    ensures var r := StripDashes(s); r != "" ==> r[0] != '-' && r[|r| - 1] != '-'
    decreases |s|
  {
    front, back := "", "";
    if s != "" && s[0] == '-' {
      front, back := StrippedOfDashes(s[1..]);
      front := ['-'] + front;
    } else if s != "" && s[|s| - 1] == '-' {
      front, back := StrippedOfDashes(s[..|s| - 1]);
      back := back + ['-'];
    }
  }

  lemma {:induction false} OnlyDashes(s: string)
    requires Dashes(s)
    ensures StripDashes(s) == ""
    decreases |s|
  {
    if s != "" {
      OnlyDashes(s[1..]);
    }
  }

  /** A safe key, the request id, else the cycle, else the file's own, stands in the name as it is; a key with
      nothing but dashes and unsafe characters gives way to the file's stem. */
  lemma {:induction false} SafeKeyNames(env: Env, f: RequestFile, q: Request)
    ensures var key := if q.requestId != "" then q.requestId else if q.cycleId != "" then q.cycleId else f.stemKey;
      && (SafeKey(env, key) ==> ResultName(env, f, q) == "result-" + key + ".json")
      && ((forall i :: 0 <= i < |key| ==> key[i] == '-' || !SafeChar(env, key[i])) ==>
            ResultName(env, f, q) == "result-" + f.stem + ".json")
  {
    var key := if q.requestId != "" then q.requestId else if q.cycleId != "" then q.cycleId else f.stemKey;
    SafeCharsAt(env, key);
    hide SafeChars;
    if SafeKey(env, key) {
      assert SafeChars(env, key) == key;
      assert StripDashes(key) == key;
    } else if forall i :: 0 <= i < |key| ==> key[i] == '-' || !SafeChar(env, key[i]) {
      OnlyDashes(SafeChars(env, key));
    }
  }
}
