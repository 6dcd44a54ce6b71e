/** Subagent requests turned into result files, and the rollup that reports on both
    (nanobot/runtime/subagent_materializer.py and nanobot/runtime/state.py). */
module SubagentRequests {
  import opened Prelude

  /** The fields of a request that decide its fate; the empty string stands for a missing value. `requestId`
      is the request_id key, `id` the id key; alternative spellings of the other keys are already merged. */
  datatype Request = Request(
    requestId: string, id: string, cycleId: string, taskId: string, status: string, profile: string)

  /** A file's content: undecodable, an empty object, or an object. */
  datatype Body<T> = Unreadable | EmptyObject | Object(value: T)

  /** `stemKey` is the file stem without the "request-" prefix. */
  datatype RequestFile = RequestFile(path: string, stem: string, stemKey: string, body: Body<Request>, age: int)

  datatype ResultRecord = ResultRecord(
    requestPath: string, requestId: string, cycleId: string, taskId: string, status: string)

  type Results = map<string, Body<ResultRecord>>

  /** What the runtime supplies: character classes, and whether the executor completes a request. */
  datatype Env = Env(isAlnum: char -> bool, executes: RequestFile -> bool)

  function LowerChar(c: char): char {
    if 'A' <= c <= 'Z' then c - 'A' + 'a' else c
  }

  function Lower(s: string): string {
    if s == "" then "" else [LowerChar(s[0])] + Lower(s[1..])
  }

  lemma {:induction false} LowerKeeps(s: string)
    requires forall i :: 0 <= i < |s| ==> !('A' <= s[i] <= 'Z')
    ensures Lower(s) == s
  {
    if s != "" {
      LowerKeeps(s[1..]);
    }
  }

  lemma {:induction false} LowerAt(s: string, i: nat)
    requires i < |s|
    ensures |Lower(s)| == |s|
    ensures Lower(s)[i] == if 'A' <= s[i] <= 'Z' then (s[i] as int + 32) as char else s[i]
    decreases i
  {
    LowerLength(s);
    if i > 0 {
      LowerAt(s[1..], i - 1);
    }
  }

  lemma {:induction false} LowerLength(s: string)
    ensures |Lower(s)| == |s|
  {
    if s != "" {
      LowerLength(s[1..]);
    }
  }

  predicate IsQueued(status: string) {
    status == "queued" || status == "pending"
  }

  /** request_status or status, "queued" when both are missing. */
  function StatusOf(q: Request): string {
    OrElse(q.status, "queued")
  }

  /* ---------- result file names ---------- */

  function StableKey(f: RequestFile, q: Request): string {
    OrElse(OrElse(q.requestId, q.cycleId), f.stemKey)
  }

  function SafeChars(env: Env, s: string): string {
    if s == "" then "" else
      [if env.isAlnum(s[0]) || s[0] == '-' || s[0] == '_' then s[0] else '-'] + SafeChars(env, s[1..])
  }

  function StripDashes(s: string): string
    decreases |s|
  {
    if s != "" && s[0] == '-' then StripDashes(s[1..])
    else if s != "" && s[|s| - 1] == '-' then StripDashes(s[..|s| - 1])
    else s
  }

  function ResultName(env: Env, f: RequestFile, q: Request): string {
    "result-" + OrElse(StripDashes(SafeChars(env, StableKey(f, q))), f.stem) + ".json"
  }

  /* ---------- the materializer ---------- */

  datatype Progress = Progress(
    results: Results, existing: set<string>, terminalized: nat, executed: nat, blocked: nat, skipped: nat)

  function NamedPaths(results: Results): set<string> {
    set n | n in results && results[n].Object? && results[n].value.requestPath != "" :: results[n].value.requestPath
  }

  function Start(results: Results): Progress {
    Progress(results, NamedPaths(results), 0, 0, 0, 0)
  }

  function ResultOf(f: RequestFile, q: Request, completed: bool): ResultRecord {
    ResultRecord(f.path, OrElse(q.requestId, q.id), q.cycleId, q.taskId, if completed then "completed" else "blocked")
  }

  function Handle(env: Env, p: Progress, f: RequestFile): Progress {
    var skip := p.(skipped := p.skipped + 1);
    if !f.body.Object? || !IsQueued(Lower(StatusOf(f.body.value))) || f.path in p.existing then skip
    else
      var name := ResultName(env, f, f.body.value);
      if name in p.results then skip.(existing := p.existing + {f.path})
      else
        var completed := env.executes(f);
        p.(results := p.results[name := Object(ResultOf(f, f.body.value, completed))],
           terminalized := p.terminalized + 1,
           executed := p.executed + if completed then 1 else 0,
           blocked := p.blocked + if completed then 0 else 1)
  }

  predicate LimitReached(p: Progress, limit: Option<int>) {
    limit.Some? && p.terminalized >= limit.value
  }

  function Materialize(env: Env, p: Progress, requests: seq<RequestFile>, limit: Option<int>): Progress
    decreases |requests|
  {
    if requests == [] || LimitReached(p, limit) then p
    else Materialize(env, Handle(env, p, requests[0]), requests[1..], limit)
  }

  /** The requests looked at before the limit stops the loop. */
  function Examined(env: Env, p: Progress, requests: seq<RequestFile>, limit: Option<int>): (n: nat)
    ensures n <= |requests|
    decreases |requests|
  {
    if requests == [] || LimitReached(p, limit) then 0
    else 1 + Examined(env, Handle(env, p, requests[0]), requests[1..], limit)
  }

  lemma {:induction false} MaterializeUnfolds(
    env: Env, p: Progress, requests: seq<RequestFile>, i: nat, limit: Option<int>)
    requires i <= |requests|
    ensures i == |requests| || LimitReached(p, limit) ==> Materialize(env, p, requests[i..], limit) == p
    ensures i < |requests| && !LimitReached(p, limit) ==>
      Materialize(env, p, requests[i..], limit) == Materialize(env, Handle(env, p, requests[i]), requests[i + 1..], limit)
  {
    hide Handle;
    assert i < |requests| ==> requests[i..][1..] == requests[i + 1..];
  }

  method MaterializeRequests(env: Env, results: Results, requests: seq<RequestFile>, limit: Option<int>)
    returns (results': Results, terminalized: nat, executed: nat, blocked: nat, skipped: nat)
    ensures var p := Materialize(env, Start(results), requests, limit);
      && results' == p.results && terminalized == p.terminalized
      && executed == p.executed && blocked == p.blocked && skipped == p.skipped
  {
    hide ResultName, Lower, NamedPaths, Materialize, StatusOf, IsQueued;
    var existing := NamedPaths(results);
    results', terminalized, executed, blocked, skipped := results, 0, 0, 0, 0;
    for i := 0 to |requests|
      invariant Materialize(env, Start(results), requests, limit) ==
        Materialize(env, Progress(results', existing, terminalized, executed, blocked, skipped), requests[i..], limit)
    {
      MaterializeUnfolds(
        env, Progress(results', existing, terminalized, executed, blocked, skipped), requests, i, limit);
      if limit.Some? && terminalized >= limit.value {
        break;
      }
      var f := requests[i];
      if !f.body.Object? || !IsQueued(Lower(StatusOf(f.body.value))) || f.path in existing {
        skipped := skipped + 1;
        continue;
      }
      var name := ResultName(env, f, f.body.value);
      if name in results' {
        existing := existing + {f.path};
        skipped := skipped + 1;
        continue;
      }
      var completed := env.executes(f);
      results' := results'[name := Object(ResultOf(f, f.body.value, completed))];
      terminalized := terminalized + 1;
      if completed {
        executed := executed + 1;
      } else {
        blocked := blocked + 1;
      }
    }
    MaterializeUnfolds(
      env, Progress(results', existing, terminalized, executed, blocked, skipped), requests, |requests|, limit);
  }

  predicate Extends(results: Results, results': Results) {
    forall n :: n in results ==> n in results' && results'[n] == results[n]
  }

  lemma {:induction false} HandleAccounts(env: Env, p: Progress, f: RequestFile)
    ensures var p1 := Handle(env, p, f);
      && Extends(p.results, p1.results)
      && p.terminalized <= p1.terminalized
      && p1.terminalized + p1.skipped == p.terminalized + p.skipped + 1
      && p1.executed + p1.blocked == p.executed + p.blocked + (p1.terminalized - p.terminalized)
      && |p1.results| == |p.results| + (p1.terminalized - p.terminalized)
  {
    hide ResultName, Lower, IsQueued;
  }

  /** No existing result is overwritten, and the counters add up. */
  lemma {:induction false} MaterializeAccounts(env: Env, p: Progress, requests: seq<RequestFile>, limit: Option<int>)
    requires p.terminalized == p.executed + p.blocked
    ensures var p' := Materialize(env, p, requests, limit);
      && Extends(p.results, p'.results)
      && p'.terminalized == p'.executed + p'.blocked
      && p'.terminalized + p'.skipped == p.terminalized + p.skipped + Examined(env, p, requests, limit)
      && |p'.results| == |p.results| + (p'.terminalized - p.terminalized)
    decreases |requests|
  {
    hide Handle;
    if requests != [] && !LimitReached(p, limit) {
      HandleAccounts(env, p, requests[0]);
      MaterializeAccounts(env, Handle(env, p, requests[0]), requests[1..], limit);
    }
  }

  /* ---------- resuming and rerunning ---------- */

  predicate DistinctPaths(requests: seq<RequestFile>) {
    (forall i :: 0 <= i < |requests| ==> requests[i].path != "")
    && forall i, j :: 0 <= i < j < |requests| ==> requests[i].path != requests[j].path
  }

  /** The two states agree on everything the remaining requests can see. */
  predicate Agree(p: Progress, q: Progress, rest: seq<RequestFile>) {
    p.results == q.results && forall i :: 0 <= i < |rest| ==> (rest[i].path in p.existing <==> rest[i].path in q.existing)
  }

  lemma {:induction false} AgreeingRuns(env: Env, p: Progress, q: Progress, rest: seq<RequestFile>)
    requires DistinctPaths(rest) && Agree(p, q, rest)
    ensures Materialize(env, p, rest, None).results == Materialize(env, q, rest, None).results
    ensures Materialize(env, p, rest, None).terminalized - p.terminalized
         == Materialize(env, q, rest, None).terminalized - q.terminalized
    decreases |rest|
  {
    hide ResultName, Lower;
    if rest == [] {
    } else {
      AgreeingRuns(env, Handle(env, p, rest[0]), Handle(env, q, rest[0]), rest[1..]);
    }
  }

  /** A request the materializer has nothing left to do for. */
  predicate Settled(env: Env, results: Results, existing: set<string>, f: RequestFile) {
    !f.body.Object? || !IsQueued(Lower(StatusOf(f.body.value))) || f.path in existing
    || ResultName(env, f, f.body.value) in results
  }

  predicate AllSettled(env: Env, results: Results, existing: set<string>, requests: seq<RequestFile>) {
    forall i :: 0 <= i < |requests| ==> Settled(env, results, existing, requests[i])
  }

  function Paths(requests: seq<RequestFile>): set<string> {
    set i | 0 <= i < |requests| :: requests[i].path
  }

  lemma {:induction false} PathsCons(requests: seq<RequestFile>)
    requires requests != []
    ensures Paths(requests) == {requests[0].path} + Paths(requests[1..])
    ensures DistinctPaths(requests) ==> DistinctPaths(requests[1..]) && requests[0].path !in Paths(requests[1..])
  {
    forall x | x in Paths(requests)
      ensures x == requests[0].path || x in Paths(requests[1..])
    {
      var i :| 0 <= i < |requests| && requests[i].path == x;
      assert i > 0 ==> requests[1..][i - 1] == requests[i];
    }
    assert forall i :: 0 <= i < |requests[1..]| ==> requests[1..][i] == requests[i + 1];
  }

  lemma {:induction false} MaterializeAppend(env: Env, p: Progress, a: seq<RequestFile>, b: seq<RequestFile>)
    ensures Materialize(env, p, a + b, None) == Materialize(env, Materialize(env, p, a, None), b, None)
    decreases |a|
  {
    hide Handle;
    if a == [] {
      assert a + b == b;
    } else {
      assert (a + b)[1..] == a[1..] + b;
      MaterializeAppend(env, Handle(env, p, a[0]), a[1..], b);
    }
  }

  /** A limited run is an unlimited run over the requests it examined. */
  lemma {:induction false} LimitIsPrefix(env: Env, p: Progress, requests: seq<RequestFile>, limit: Option<int>)
    ensures Materialize(env, p, requests, limit)
         == Materialize(env, p, requests[..Examined(env, p, requests, limit)], None)
    decreases |requests|
  {
    hide Handle;
    if requests != [] && !LimitReached(p, limit) {
      var p1 := Handle(env, p, requests[0]);
      var n := Examined(env, p, requests, limit);
      LimitIsPrefix(env, p1, requests[1..], limit);
      assert requests[..n][1..] == requests[1..][..n - 1];
    }
  }

  /** The known paths are those named by results, or they are not among the requests still to come. */
  predicate KnownPathsNamed(p: Progress, requests: seq<RequestFile>) {
    forall i :: 0 <= i < |requests| && requests[i].path in p.existing ==> requests[i].path in NamedPaths(p.results)
  }

  lemma {:induction false} HandleEffects(env: Env, p: Progress, f: RequestFile)
    ensures var p1 := Handle(env, p, f);
      && Extends(p.results, p1.results)
      && p.existing <= p1.existing <= p.existing + {f.path}
      && NamedPaths(p.results) <= NamedPaths(p1.results) <= NamedPaths(p.results) + {f.path}
      && ((f.path in p.existing ==> f.path in NamedPaths(p.results)) ==>
            Settled(env, p1.results, NamedPaths(p1.results), f))
      && (Settled(env, p.results, p.existing, f) ==> p1.results == p.results && p1.terminalized == p.terminalized)
  {
  }

  /** A run only adds the paths of its own requests to what is known and named, and settles every request. */
  lemma {:induction false} RunEffects(env: Env, p: Progress, requests: seq<RequestFile>)
    requires DistinctPaths(requests) && KnownPathsNamed(p, requests)
    ensures var p' := Materialize(env, p, requests, None);
      && Extends(p.results, p'.results)
      && p.existing <= p'.existing <= p.existing + Paths(requests)
      && NamedPaths(p.results) <= NamedPaths(p'.results) <= NamedPaths(p.results) + Paths(requests)
      && AllSettled(env, p'.results, NamedPaths(p'.results), requests)
    decreases |requests|
  {
    hide Handle, Settled, NamedPaths, Paths;
    if requests == [] {
    } else {
      var f, rest := requests[0], requests[1..];
      var p1 := Handle(env, p, f);
      HandleEffects(env, p, f);
      PathsCons(requests);
      forall i | 0 <= i < |rest| && rest[i].path in p1.existing
        ensures rest[i].path in NamedPaths(p1.results)
      {
        assert requests[i + 1].path in p.existing;
      }
      RunEffects(env, p1, rest);
      var p' := Materialize(env, p1, rest, None);
      SettledStays(env, p1.results, p'.results, f);
      assert forall i :: 1 <= i < |requests| ==> requests[i] == rest[i - 1];
    }
  }

  lemma {:induction false} SettledStays(env: Env, results: Results, results': Results, f: RequestFile)
    requires Extends(results, results') && Settled(env, results, NamedPaths(results), f)
    ensures Settled(env, results', NamedPaths(results'), f)
  {
  }

  /** Going over settled requests again adds no result. */
  lemma {:induction false} SettledRun(env: Env, p: Progress, requests: seq<RequestFile>)
    requires AllSettled(env, p.results, p.existing, requests)
    ensures var p' := Materialize(env, p, requests, None);
      && p'.results == p.results && p'.terminalized == p.terminalized
      && p.existing <= p'.existing <= p.existing + Paths(requests)
    decreases |requests|
  {
    if requests == [] {
    } else {
      var f, rest := requests[0], requests[1..];
      var p1 := Handle(env, p, f);
      HandleEffects(env, p, f);
      PathsCons(requests);
      hide Handle, ResultName, Lower;
      forall i | 0 <= i < |rest|
        ensures Settled(env, p1.results, p1.existing, rest[i])
      {
        assert Settled(env, p.results, p.existing, requests[i + 1]);
      }
      SettledRun(env, p1, rest);
    }
  }

  /** Running again right after an unlimited run terminalizes nothing. */
  lemma {:induction false} RerunDoesNothing(env: Env, results: Results, requests: seq<RequestFile>)
    requires DistinctPaths(requests)
    ensures var once := Materialize(env, Start(results), requests, None).results;
            var again := Materialize(env, Start(once), requests, None);
      again.results == once && again.terminalized == 0
  {
    hide Settled, Handle;
    RunEffects(env, Start(results), requests);
    SettledRun(env, Start(Materialize(env, Start(results), requests, None).results), requests);
  }

  /** A run stopped by any limit, followed by an unlimited run, leaves the same results as one unlimited run. */
  lemma {:induction false} ResumeCompletes(env: Env, results: Results, requests: seq<RequestFile>, limit: Option<int>)
    requires DistinctPaths(requests)
    ensures var first := Materialize(env, Start(results), requests, limit).results;
      Materialize(env, Start(first), requests, None).results == Materialize(env, Start(results), requests, None).results
  {
    hide Settled, Handle, NamedPaths, Materialize, Paths, DistinctPaths;
    var n := Examined(env, Start(results), requests, limit);
    var a, b := requests[..n], requests[n..];
    assert a + b == requests;
    LaterPathsDiffer(requests, n);
    LimitIsPrefix(env, Start(results), requests, limit);
    var p := Materialize(env, Start(results), a, None);
    MaterializeAppend(env, Start(results), a, b);
    RunEffects(env, Start(results), a);
    MaterializeAppend(env, Start(p.results), a, b);
    SettledRun(env, Start(p.results), a);
    var q := Materialize(env, Start(p.results), a, None);
    assert Agree(p, q, b);
    AgreeingRuns(env, p, q, b);
  }

  lemma {:induction false} LaterPathsDiffer(requests: seq<RequestFile>, n: nat)
    requires DistinctPaths(requests) && n <= |requests|
    ensures DistinctPaths(requests[..n]) && DistinctPaths(requests[n..])
    ensures forall i :: 0 <= i < |requests[n..]| ==> requests[n..][i].path !in Paths(requests[..n])
  {
  }
}
