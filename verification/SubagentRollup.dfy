/** The rollup over subagent requests and results (nanobot/runtime/state.py). */
module SubagentRollup {
  import opened Prelude
  import opened SubagentRequests

  /** A telemetry file; the empty string stands for a missing value. */
  datatype Telemetry = Telemetry(path: string, taskId: string, requestId: string, status: string)

  /** The result a request is linked to. */
  datatype Link = Link(path: string, status: string)

  datatype ResultFile = ResultFile(path: string, body: Body<ResultRecord>)

  datatype RequestRecord = RequestRecord(
    path: string, taskId: string, requestId: string, cycleId: string,
    requestStatus: string, status: string, link: Option<Link>, age: int)

  const TERMINAL_STATUSES := {"ok", "error", "cancelled", "canceled", "completed", "complete", "done", "pass"}

  predicate IsTerminal(t: Telemetry) {
    t.taskId != "" && Lower(t.status) in TERMINAL_STATUSES
  }

  /** The first terminal telemetry file that carries the key as its request id or task id. */
  function TelemetryLink(telemetry: seq<Telemetry>, key: string): Option<Link> {
    if key == "" || telemetry == [] then None
    else
      var t := telemetry[0];
      if IsTerminal(t) && (t.requestId == key || t.taskId == key) then Some(Link(t.path, t.status))
      else TelemetryLink(telemetry[1..], key)
  }

  datatype Field = ByPath | ById | ByCycle | ByTask

  function FieldOf(field: Field, r: ResultRecord): string {
    match field
    case ByPath => r.requestPath
    case ById => r.requestId
    case ByCycle => r.cycleId
    case ByTask => r.taskId
  }

  /** The first result file whose field holds the key. */
  function ResultLink(files: seq<ResultFile>, field: Field, key: string): Option<Link> {
    if key == "" || files == [] then None
    else if files[0].body.Object? && FieldOf(field, files[0].body.value) == key then
      Some(Link(files[0].path, OrElse(files[0].body.value.status, "completed")))
    else ResultLink(files[1..], field, key)
  }

  function Either(a: Option<Link>, b: Option<Link>): Option<Link> {
    if a.Some? then a else b
  }

  /** The request's fields; an empty object has none, and an undecodable file has no record. */
  function FieldsOf(f: RequestFile): Request {
    if f.body.Object? then f.body.value else Request("", "", "", "", "", "")
  }

  function InitialRecord(f: RequestFile, telemetry: seq<Telemetry>): RequestRecord {
    var q := FieldsOf(f);
    var id := OrElse(q.requestId, q.id);
    var link := TelemetryLink(telemetry, if id != "" then id else q.taskId);
    RequestRecord(f.path, q.taskId, id, q.cycleId, StatusOf(q),
                  if link.Some? then "completed" else StatusOf(q), link, f.age)
  }

  /** Request id first, then request path, then cycle, then task when there is no request id. */
  function FindLink(r: RequestRecord, files: seq<ResultFile>, telemetry: seq<Telemetry>): Option<Link> {
    Either(ResultLink(files, ById, r.requestId),
      Either(ResultLink(files, ByPath, r.path),
        Either(ResultLink(files, ByCycle, r.cycleId),
          if r.requestId != "" then None
          else Either(ResultLink(files, ByTask, r.taskId), TelemetryLink(telemetry, r.taskId)))))
  }

  function Linked(r: RequestRecord, link: Option<Link>): RequestRecord {
    if link.Some? then r.(link := link, status := Lower(OrElse(link.value.status, "completed"))) else r
  }

  function RecordOf(f: RequestFile, files: seq<ResultFile>, telemetry: seq<Telemetry>): RequestRecord {
    var r := InitialRecord(f, telemetry);
    Linked(r, FindLink(r, files, telemetry))
  }

  function Records(requests: seq<RequestFile>, files: seq<ResultFile>, telemetry: seq<Telemetry>): seq<RequestRecord> {
    if requests == [] then []
    else
      var last := |requests| - 1;
      Records(requests[..last], files, telemetry) +
      if requests[last].body.Unreadable? then [] else [RecordOf(requests[last], files, telemetry)]
  }

  predicate IsStale(r: RequestRecord, staleAfter: int) {
    IsQueued(r.requestStatus) && r.link == None && r.age >= staleAfter
  }

  function CountStale(records: seq<RequestRecord>, staleAfter: int): nat {
    if records == [] then 0
    else CountStale(records[..|records| - 1], staleAfter) + if IsStale(records[|records| - 1], staleAfter) then 1 else 0
  }

  function CountQueued(records: seq<RequestRecord>): nat {
    if records == [] then 0
    else CountQueued(records[..|records| - 1]) + if IsQueued(records[|records| - 1].status) then 1 else 0
  }

  /* ---------- the loops ---------- */

  function Lookup(index: map<string, Link>, key: string): Option<Link> {
    if key in index then Some(index[key]) else None
  }

  /** The index holds, for each key, what a linear search over the files finds first. */
  ghost predicate IndexOf(index: map<string, Link>, files: seq<ResultFile>, field: Field) {
    forall key :: ResultLink(files, field, key) == Lookup(index, key)
  }

  lemma {:induction false} ResultLinkSnoc(files: seq<ResultFile>, last: ResultFile, field: Field, key: string)
    ensures ResultLink(files + [last], field, key) ==
      if ResultLink(files, field, key).Some? then ResultLink(files, field, key)
      else if key != "" && last.body.Object? && FieldOf(field, last.body.value) == key then
        Some(Link(last.path, OrElse(last.body.value.status, "completed")))
      else None
  {
    if files == [] {
      assert files + [last] == [last] && [last][1..] == [];
    } else {
      assert (files + [last])[1..] == files[1..] + [last];
      ResultLinkSnoc(files[1..], last, field, key);
    }
  }

  method BuildIndex(files: seq<ResultFile>, field: Field) returns (index: map<string, Link>)
    ensures IndexOf(index, files, field)
  {
    hide ResultLink, FieldOf;
    index := map[];
    NoFiles(field);
    for i := 0 to |files|
      invariant IndexOf(index, files[..i], field)
    {
      assert files[..i + 1] == files[..i] + [files[i]];
      ghost var before := index;
      if files[i].body.Object? {
        var key := FieldOf(field, files[i].body.value);
        if key != "" && key !in index {
          index := index[key := Link(files[i].path, OrElse(files[i].body.value.status, "completed"))];
        }
      }
      forall key
        ensures ResultLink(files[..i + 1], field, key) == Lookup(index, key)
      {
        ResultLinkSnoc(files[..i], files[i], field, key);
        assert ResultLink(files[..i], field, key) == Lookup(before, key);
      }
    }
    assert files[..|files|] == files;
  }

  lemma {:induction false} NoFiles(field: Field)
    ensures IndexOf(map[], [], field)
  {
  }

  ghost predicate TelemetryIndexOf(index: map<string, Link>, telemetry: seq<Telemetry>) {
    forall key :: TelemetryLink(telemetry, key) == Lookup(index, key)
  }

  lemma {:induction false} TelemetryLinkSnoc(telemetry: seq<Telemetry>, last: Telemetry, key: string)
    ensures TelemetryLink(telemetry + [last], key) ==
      if TelemetryLink(telemetry, key).Some? then TelemetryLink(telemetry, key)
      else if key != "" && IsTerminal(last) && (last.requestId == key || last.taskId == key) then
        Some(Link(last.path, last.status))
      else None
  {
    hide IsTerminal;
    if telemetry == [] {
      assert telemetry + [last] == [last] && [last][1..] == [];
    } else {
      assert (telemetry + [last])[1..] == telemetry[1..] + [last];
      TelemetryLinkSnoc(telemetry[1..], last, key);
    }
  }

  lemma {:induction false} NoTelemetry()
    ensures TelemetryIndexOf(map[], [])
  {
  }

  method BuildTelemetryIndex(telemetry: seq<Telemetry>) returns (index: map<string, Link>)
    ensures TelemetryIndexOf(index, telemetry)
  {
    hide IsTerminal, TelemetryLink;
    index := map[];
    NoTelemetry();
    for i := 0 to |telemetry|
      invariant TelemetryIndexOf(index, telemetry[..i])
    {
      var t := telemetry[i];
      assert telemetry[..i + 1] == telemetry[..i] + [t];
      ghost var before := index;
      if IsTerminal(t) {
        TerminalHasTask(t);
        if t.requestId != "" && t.requestId !in index {
          index := index[t.requestId := Link(t.path, t.status)];
        }
        if t.taskId !in index {
          index := index[t.taskId := Link(t.path, t.status)];
        }
      }
      forall key
        ensures TelemetryLink(telemetry[..i + 1], key) == Lookup(index, key)
      {
        TelemetryLinkSnoc(telemetry[..i], t, key);
        assert TelemetryLink(telemetry[..i], key) == Lookup(before, key);
      }
    }
    assert telemetry[..|telemetry|] == telemetry;
  }

  lemma {:induction false} TerminalHasTask(t: Telemetry)
    requires IsTerminal(t)
    ensures t.taskId != ""
  {
  }

  /** Build the indexes, then the records, and link each record through the indexes. */
  method BuildRecords(requests: seq<RequestFile>, files: seq<ResultFile>, telemetry: seq<Telemetry>)
    returns (records: seq<RequestRecord>)
    ensures records == Records(requests, files, telemetry)
  {
    hide TelemetryLink, ResultLink, RecordOf;
    var terminal := BuildTelemetryIndex(telemetry);
    var byPath := BuildIndex(files, ByPath);
    var byId := BuildIndex(files, ById);
    var byCycle := BuildIndex(files, ByCycle);
    var byTask := BuildIndex(files, ByTask);
    records := [];
    for i := 0 to |requests|
      invariant records == Records(requests[..i], files, telemetry)
    {
      assert requests[..i + 1][..i] == requests[..i];
      if requests[i].body.Unreadable? {
        assert records + [] == records;
        continue;
      }
      var r := BuildRecord(requests[i], terminal, byPath, byId, byCycle, byTask, files, telemetry);
      records := records + [r];
    }
    assert requests[..|requests|] == requests;
  }

  method BuildRecord(
    f: RequestFile, terminal: map<string, Link>, byPath: map<string, Link>, byId: map<string, Link>,
    byCycle: map<string, Link>, byTask: map<string, Link>,
    ghost files: seq<ResultFile>, ghost telemetry: seq<Telemetry>) returns (r: RequestRecord)
    requires TelemetryIndexOf(terminal, telemetry)
    requires IndexOf(byPath, files, ByPath) && IndexOf(byId, files, ById)
    requires IndexOf(byCycle, files, ByCycle) && IndexOf(byTask, files, ByTask)
    ensures r == RecordOf(f, files, telemetry)
  {
    hide TelemetryLink, ResultLink, Lower;
    var q := FieldsOf(f);
    var id := OrElse(q.requestId, q.id);
    var known := Lookup(terminal, if id != "" then id else q.taskId);
    r := RequestRecord(f.path, q.taskId, id, q.cycleId, StatusOf(q),
                       if known.Some? then "completed" else StatusOf(q), known, f.age);
    var link := Lookup(byId, id);
    if link == None {
      link := Lookup(byPath, f.path);
    }
    if link == None {
      link := Lookup(byCycle, q.cycleId);
    }
    if link == None && id == "" {
      link := Either(Lookup(byTask, q.taskId), Lookup(terminal, q.taskId));
    }
    r := Linked(r, link);
  }

  /** The two counts of the rollup over all files. */
  method Rollup(requests: seq<RequestFile>, files: seq<ResultFile>, telemetry: seq<Telemetry>, staleAfter: int)
    returns (queued: nat, stale: nat)
    ensures queued == CountQueued(Records(requests, files, telemetry))
    ensures stale == CountStale(Records(requests, files, telemetry), staleAfter)
  {
    hide IsStale, Records;
    var records := BuildRecords(requests, files, telemetry);
    queued, stale := 0, 0;
    for i := 0 to |records|
      invariant queued == CountQueued(records[..i]) && stale == CountStale(records[..i], staleAfter)
    {
      assert records[..i + 1][..i] == records[..i];
      if IsQueued(records[i].status) {
        queued := queued + 1;
      }
      if IsStale(records[i], staleAfter) {
        stale := stale + 1;
      }
    }
    assert records[..|records|] == records;
  }

  /* ---------- stale is a part of queued ---------- */

  /** In every state, a request counted as stale is also counted as queued. */
  lemma {:induction false} StaleIsQueued(
    f: RequestFile, files: seq<ResultFile>, telemetry: seq<Telemetry>, staleAfter: int)
    requires IsStale(RecordOf(f, files, telemetry), staleAfter)
    ensures IsQueued(RecordOf(f, files, telemetry).status)
  {
  }

  lemma {:induction false} StaleAtMostQueued(
    requests: seq<RequestFile>, files: seq<ResultFile>, telemetry: seq<Telemetry>, staleAfter: int)
    ensures var records := Records(requests, files, telemetry);
      CountStale(records, staleAfter) <= CountQueued(records)
  {
    hide RecordOf, IsStale;
    if requests == [] {
    } else {
      var last := |requests| - 1;
      var earlier := Records(requests[..last], files, telemetry);
      StaleAtMostQueued(requests[..last], files, telemetry, staleAfter);
      assert earlier + [] == earlier;
      if !requests[last].body.Unreadable? {
        var r := RecordOf(requests[last], files, telemetry);
        assert (earlier + [r])[..|earlier|] == earlier;
        if IsStale(r, staleAfter) {
          StaleIsQueued(requests[last], files, telemetry, staleAfter);
        }
      }
    }
  }

  /* ---------- after the materializer ---------- */

  /** The request still awaits a result when the run starts. */
  predicate Pending(results: Results, f: RequestFile) {
    f.body.Object? && IsQueued(Lower(StatusOf(f.body.value))) && f.path !in NamedPaths(results)
  }

  /** The result file name of the i-th request is taken: by an old result or by an earlier pending request. */
  predicate SlotTaken(env: Env, results: Results, requests: seq<RequestFile>, i: nat)
    requires i < |requests| && requests[i].body.Object?
  {
    var name := ResultName(env, requests[i], requests[i].body.value);
    name in results ||
    exists j :: 0 <= j < i && Pending(results, requests[j]) && ResultName(env, requests[j], requests[j].body.value) == name
  }

  lemma {:induction false} DistinctPrefix(requests: seq<RequestFile>)
    requires requests != [] && DistinctPaths(requests)
    ensures DistinctPaths(requests[..|requests| - 1])
    ensures requests[|requests| - 1].path !in Paths(requests[..|requests| - 1])
  {
  }

  lemma {:induction false} HandleResults(env: Env, p: Progress, f: RequestFile)
    ensures Handle(env, p, f).results ==
      if f.body.Object? && IsQueued(Lower(StatusOf(f.body.value))) && f.path !in p.existing
         && ResultName(env, f, f.body.value) !in p.results
      then p.results[ResultName(env, f, f.body.value) := Object(ResultOf(f, f.body.value, env.executes(f)))]
      else p.results
  {
  }

  lemma {:induction false} MaterializeOne(env: Env, p: Progress, f: RequestFile)
    ensures Materialize(env, p, [f], None) == Handle(env, p, f)
  {
  }

  /** What the last request of a list adds to the run over the others. */
  lemma {:induction false} LastStep(env: Env, results: Results, earlier: seq<RequestFile>, f: RequestFile)
    requires DistinctPaths(earlier + [f])
    ensures var before := Materialize(env, Start(results), earlier, None).results;
            var after := Materialize(env, Start(results), earlier + [f], None).results;
      && after == (if Pending(results, f) && ResultName(env, f, f.body.value) !in before
                   then before[ResultName(env, f, f.body.value) := Object(ResultOf(f, f.body.value, env.executes(f)))]
                   else before)
      && NamedPaths(results) <= NamedPaths(before) && (f.path in NamedPaths(before) ==> f.path in NamedPaths(results))
  {
    var p := Materialize(env, Start(results), earlier, None);
    MaterializeAppend(env, Start(results), earlier, [f]);
    MaterializeOne(env, p, f);
    assert (earlier + [f])[|earlier|] == f && (earlier + [f])[..|earlier|] == earlier;
    DistinctPrefix(earlier + [f]);
    RunEffects(env, Start(results), earlier);
    HandleResults(env, p, f);
    hide ResultName, Lower, Materialize, Handle, NamedPaths, AllSettled;
    assert f.path in p.existing <==> f.path in NamedPaths(results);
  }

  /** The result files after a run are the old ones and one for each pending request's name. */
  lemma {:induction false} KeysAfterRun(env: Env, results: Results, requests: seq<RequestFile>, name: string)
    requires DistinctPaths(requests)
    ensures name in Materialize(env, Start(results), requests, None).results <==>
      name in results ||
      exists j :: 0 <= j < |requests| && Pending(results, requests[j])
                  && ResultName(env, requests[j], requests[j].body.value) == name
    decreases |requests|
  {
    if requests == [] {
    } else {
      hide Materialize, ResultName, Pending;
      var last := |requests| - 1;
      var earlier, f := requests[..last], requests[last];
      assert requests == earlier + [f];
      DistinctPrefix(requests);
      KeysAfterRun(env, results, earlier, name);
      LastStep(env, results, earlier, f);
      assert forall j :: 0 <= j < last ==> requests[j] == earlier[j];
    }
  }

  lemma {:induction false} SlotTakenPrefix(
    env: Env, results: Results, earlier: seq<RequestFile>, f: RequestFile, i: nat)
    requires i < |earlier| && earlier[i].body.Object?
    ensures SlotTaken(env, results, earlier + [f], i) <==> SlotTaken(env, results, earlier, i)
  {
    hide ResultName, Pending;
    assert forall j :: 0 <= j <= i ==> (earlier + [f])[j] == earlier[j];
  }

  /** The run writes a result for the i-th request. */
  predicate GetsResult(env: Env, results: Results, requests: seq<RequestFile>, i: nat)
    requires i < |requests|
  {
    Pending(results, requests[i]) && !SlotTaken(env, results, requests, i)
  }

  lemma {:induction false} GetsResultPrefix(
    env: Env, results: Results, earlier: seq<RequestFile>, f: RequestFile, i: nat)
    requires i < |earlier|
    ensures GetsResult(env, results, earlier + [f], i) <==> GetsResult(env, results, earlier, i)
  {
    hide SlotTaken, Pending;
    assert (earlier + [f])[i] == earlier[i];
    if earlier[i].body.Object? {
      SlotTakenPrefix(env, results, earlier, f, i);
    } else {
      assert !Pending(results, earlier[i]) by {
        OnlyObjectsPend(results, earlier[i]);
      }
    }
  }

  lemma {:induction false} OnlyObjectsPend(results: Results, f: RequestFile)
    ensures Pending(results, f) ==> f.body.Object?
  {
    hide NamedPaths, Lower;
  }

  /** The last request gets a result when it is pending and the run over the others left its name free. */
  lemma {:induction false} LastGetsResult(env: Env, results: Results, earlier: seq<RequestFile>, f: RequestFile)
    requires DistinctPaths(earlier + [f])
    ensures GetsResult(env, results, earlier + [f], |earlier|) <==>
      Pending(results, f) && ResultName(env, f, f.body.value)
        !in Materialize(env, Start(results), earlier, None).results
  {
    var all := earlier + [f];
    assert all[..|earlier|] == earlier && all[|earlier|] == f;
    DistinctPrefix(all);
    hide Materialize, ResultName, DistinctPaths;
    if Pending(results, f) {
      KeysAfterRun(env, results, earlier, ResultName(env, f, f.body.value));
      hide Pending;
      assert forall j :: 0 <= j < |earlier| ==> all[j] == earlier[j];
    }
  }

  /* ---------- what the results of a directory hold ---------- */

  predicate Holds(body: Body<ResultRecord>, field: Field, key: string) {
    body.Object? && FieldOf(field, body.value) == key
  }

  /** Some result has the key in that field. */
  predicate HeldIn(results: Results, field: Field, key: string) {
    key != "" && exists n :: n in results && Holds(results[n], field, key)
  }

  lemma {:induction false} HeldInsert(
    results: Results, name: string, body: Body<ResultRecord>, field: Field, key: string)
    requires name !in results
    ensures HeldIn(results[name := body], field, key) <==>
      HeldIn(results, field, key) || (key != "" && Holds(body, field, key))
  {
    hide Holds;
    var after := results[name := body];
    if key != "" && Holds(body, field, key) {
      assert after[name] == body;
    }
    if HeldIn(results, field, key) {
      var n :| n in results && Holds(results[n], field, key);
      assert after[n] == results[n];
    }
  }

  lemma {:induction false} NamedPathIff(results: Results, path: string)
    requires path != ""
    ensures path in NamedPaths(results) <==> HeldIn(results, ByPath, path)
  {
    if path in NamedPaths(results) {
      var n :| n in results && results[n].Object? && results[n].value.requestPath == path;
      assert Holds(results[n], ByPath, path);
    }
  }

  /** The run writes a result with the key in that field, for its j-th request. */
  predicate Writes(
    env: Env, results: Results, requests: seq<RequestFile>, j: nat, field: Field, key: string)
    requires j < |requests|
  {
    GetsResult(env, results, requests, j) && key != ""
    && FieldOf(field, ResultOf(requests[j], requests[j].body.value, env.executes(requests[j]))) == key
  }

  /** A result with the key is there before the run, or the run writes one. */
  predicate HeldAfter(env: Env, results: Results, requests: seq<RequestFile>, field: Field, key: string) {
    || HeldIn(results, field, key)
    || exists j :: 0 <= j < |requests| && Writes(env, results, requests, j, field, key)
  }

  lemma {:induction false} HeldAfterSnoc(
    env: Env, results: Results, earlier: seq<RequestFile>, f: RequestFile, field: Field, key: string)
    ensures HeldAfter(env, results, earlier + [f], field, key) <==>
      HeldAfter(env, results, earlier, field, key)
      || Writes(env, results, earlier + [f], |earlier|, field, key)
  {
    var all := earlier + [f];
    forall j | 0 <= j < |earlier|
      ensures Writes(env, results, all, j, field, key) <==> Writes(env, results, earlier, j, field, key)
    {
      GetsResultPrefix(env, results, earlier, f, j);
      hide GetsResult;
      assert all[j] == earlier[j];
    }
    hide Writes, HeldIn;
  }

  lemma {:induction false} LastHolds(
    env: Env, results: Results, earlier: seq<RequestFile>, f: RequestFile, field: Field, key: string)
    requires DistinctPaths(earlier + [f])
    ensures HeldIn(Materialize(env, Start(results), earlier + [f], None).results, field, key) <==>
      || HeldIn(Materialize(env, Start(results), earlier, None).results, field, key)
      || Writes(env, results, earlier + [f], |earlier|, field, key)
  {
    var before := Materialize(env, Start(results), earlier, None).results;
    LastStep(env, results, earlier, f);
    LastGetsResult(env, results, earlier, f);
    assert (earlier + [f])[|earlier|] == f;
    hide Materialize, ResultName, GetsResult, HeldIn, DistinctPaths, NamedPaths, OrElse;
    OnlyObjectsPend(results, f);
    hide Pending;
    if GetsResult(env, results, earlier + [f], |earlier|) {
      HeldInsert(before, ResultName(env, f, f.body.value),
        Object(ResultOf(f, f.body.value, env.executes(f))), field, key);
    }
  }

  /** What the results hold after an unlimited run is what they held before and what the run writes. */
  lemma {:induction false} HeldAfterIff(
    env: Env, results: Results, requests: seq<RequestFile>, field: Field, key: string)
    requires DistinctPaths(requests)
    ensures HeldIn(Materialize(env, Start(results), requests, None).results, field, key) <==>
      HeldAfter(env, results, requests, field, key)
    decreases |requests|
  {
    if requests == [] {
    } else {
      hide Materialize, HeldIn, HeldAfter, Writes;
      var last := |requests| - 1;
      DistinctPrefix(requests);
      assert requests == requests[..last] + [requests[last]];
      hide DistinctPaths;
      HeldAfterIff(env, results, requests[..last], field, key);
      LastHolds(env, results, requests[..last], requests[last], field, key);
      HeldAfterSnoc(env, results, requests[..last], requests[last], field, key);
    }
  }

  /** After an unlimited run, a request is named by a result exactly when one named it before, or it was pending
      and its result file name was still free when its turn came. */
  lemma {:induction false} NamedAfterRunIff(env: Env, results: Results, requests: seq<RequestFile>, i: nat)
    requires DistinctPaths(requests) && i < |requests|
    ensures requests[i].path in NamedPaths(Materialize(env, Start(results), requests, None).results) <==>
      requests[i].path in NamedPaths(results) || GetsResult(env, results, requests, i)
  {
    var path := requests[i].path;
    hide Materialize, NamedPaths, GetsResult, HeldIn, OrElse;
    HeldAfterIff(env, results, requests, ByPath, path);
    NamedPathIff(results, path);
    NamedPathIff(Materialize(env, Start(results), requests, None).results, path);
    assert forall j :: 0 <= j < |requests| && requests[j].path == path ==> j == i;
    if GetsResult(env, results, requests, i) {
      assert Writes(env, results, requests, i, ByPath, path);
    }
  }

  /* ---------- what a listing of them shows ---------- */

  /** The listing shows every result of the directory. */
  predicate Lists(files: seq<ResultFile>, results: Results) {
    forall n :: n in results ==> exists i :: 0 <= i < |files| && files[i].body == results[n]
  }

  /** And nothing else. */
  predicate ListsOnly(files: seq<ResultFile>, results: Results) {
    forall i :: 0 <= i < |files| ==> exists n :: n in results && results[n] == files[i].body
  }

  lemma {:induction false} LinkedIff(files: seq<ResultFile>, field: Field, key: string)
    requires key != ""
    ensures ResultLink(files, field, key).Some? <==> exists i :: 0 <= i < |files| && Holds(files[i].body, field, key)
  {
    if files == [] {
    } else {
      LinkedIff(files[1..], field, key);
      assert forall i :: 1 <= i < |files| ==> files[i] == files[1..][i - 1];
      if i :| 0 <= i < |files[1..]| && Holds(files[1..][i].body, field, key) {
        assert Holds(files[i + 1].body, field, key);
      }
    }
  }

  lemma {:induction false} HeldIsListed(files: seq<ResultFile>, results: Results, field: Field, key: string)
    requires Lists(files, results) && HeldIn(results, field, key)
    ensures ResultLink(files, field, key).Some?
  {
    hide Holds, ResultLink;
    var n :| n in results && Holds(results[n], field, key);
    var i :| 0 <= i < |files| && files[i].body == results[n];
    LinkedIff(files, field, key);
    assert Holds(files[i].body, field, key);
  }

  lemma {:induction false} ListedIsHeld(files: seq<ResultFile>, results: Results, field: Field, key: string)
    requires ListsOnly(files, results) && ResultLink(files, field, key).Some?
    ensures HeldIn(results, field, key)
  {
    assert key != "";
    hide Holds, ResultLink;
    LinkedIff(files, field, key);
    var i :| 0 <= i < |files| && Holds(files[i].body, field, key);
    var n :| n in results && results[n] == files[i].body;
    assert Holds(results[n], field, key);
  }

  /** In an exact listing, a key leads to a result exactly when some result holds it. */
  lemma {:induction false} ListedIff(files: seq<ResultFile>, results: Results, field: Field, key: string)
    requires Lists(files, results) && ListsOnly(files, results)
    ensures ResultLink(files, field, key).Some? <==> HeldIn(results, field, key)
  {
    hide ResultLink, HeldIn, Lists, ListsOnly;
    if HeldIn(results, field, key) {
      HeldIsListed(files, results, field, key);
    }
    if ResultLink(files, field, key).Some? {
      ListedIsHeld(files, results, field, key);
    }
  }

  /** A request named by some result is never stale. */
  lemma {:induction false} NamedIsNotStale(
    f: RequestFile, results: Results, files: seq<ResultFile>, telemetry: seq<Telemetry>, staleAfter: int)
    requires Lists(files, results) && f.path != "" && f.path in NamedPaths(results)
    ensures !IsStale(RecordOf(f, files, telemetry), staleAfter)
  {
    hide ResultLink, TelemetryLink, Lower, HeldIn, NamedPaths, Lists;
    NamedPathIff(results, f.path);
    HeldIsListed(files, results, ByPath, f.path);
  }

  lemma {:induction false} QueuedStaysQueued(s: string)
    requires IsQueued(s)
    ensures IsQueued(Lower(s))
  {
    LowerKeeps(s);
  }

  /** In a listing, something other than its path links the request to a result: its id, its cycle, its task when
      it has no id, or a terminal telemetry file. */
  predicate LinkedOtherwise(f: RequestFile, files: seq<ResultFile>, telemetry: seq<Telemetry>) {
    var q := FieldsOf(f);
    var id := OrElse(q.requestId, q.id);
    || TelemetryLink(telemetry, if id != "" then id else q.taskId).Some?
    || ResultLink(files, ById, id).Some?
    || ResultLink(files, ByCycle, q.cycleId).Some?
    || (id == "" && ResultLink(files, ByTask, q.taskId).Some?)
  }

  /** The same, told from what is there before the run: the results, the requests and the telemetry. */
  predicate WillBeLinked(
    env: Env, results: Results, requests: seq<RequestFile>, f: RequestFile, telemetry: seq<Telemetry>)
  {
    var q := FieldsOf(f);
    var id := OrElse(q.requestId, q.id);
    || TelemetryLink(telemetry, if id != "" then id else q.taskId).Some?
    || HeldAfter(env, results, requests, ById, id)
    || HeldAfter(env, results, requests, ByCycle, q.cycleId)
    || (id == "" && HeldAfter(env, results, requests, ByTask, q.taskId))
  }

  lemma {:induction false} LinkedAfterRunIff(
    env: Env, results: Results, requests: seq<RequestFile>, f: RequestFile, files: seq<ResultFile>,
    telemetry: seq<Telemetry>)
    requires DistinctPaths(requests)
    requires var after := Materialize(env, Start(results), requests, None).results;
      Lists(files, after) && ListsOnly(files, after)
    ensures LinkedOtherwise(f, files, telemetry) <==> WillBeLinked(env, results, requests, f, telemetry)
  {
    hide Materialize, HeldAfter, HeldIn, ResultLink, TelemetryLink, OrElse, Lists, ListsOnly, DistinctPaths;
    var q := FieldsOf(f);
    var id := OrElse(q.requestId, q.id);
    KeyAfterRunIff(env, results, requests, files, ById, id);
    KeyAfterRunIff(env, results, requests, files, ByCycle, q.cycleId);
    KeyAfterRunIff(env, results, requests, files, ByTask, q.taskId);
  }

  /** After the run, a key leads to a result exactly when one with it was there before or the run writes one. */
  lemma {:induction false} KeyAfterRunIff(
    env: Env, results: Results, requests: seq<RequestFile>, files: seq<ResultFile>, field: Field, key: string)
    requires DistinctPaths(requests)
    requires var after := Materialize(env, Start(results), requests, None).results;
      Lists(files, after) && ListsOnly(files, after)
    ensures ResultLink(files, field, key).Some? <==> HeldAfter(env, results, requests, field, key)
  {
    hide *;
    ListedIff(files, Materialize(env, Start(results), requests, None).results, field, key);
    HeldAfterIff(env, results, requests, field, key);
  }

  lemma {:induction false} StaleIff(
    f: RequestFile, files: seq<ResultFile>, telemetry: seq<Telemetry>, staleAfter: int)
    ensures IsStale(RecordOf(f, files, telemetry), staleAfter) <==>
      && IsQueued(StatusOf(FieldsOf(f))) && f.age >= staleAfter
      && ResultLink(files, ByPath, f.path) == None && !LinkedOtherwise(f, files, telemetry)
  {
    hide ResultLink, TelemetryLink, Lower, IsQueued;
  }

  /** What keeps the i-th request stale through an unlimited run: it counts as queued, is old enough, is linked to
      nothing else, no result named it, and it is an empty object or its result file name was taken. */
  predicate StaysStale(
    env: Env, results: Results, requests: seq<RequestFile>, i: nat, telemetry: seq<Telemetry>, staleAfter: int)
    requires i < |requests|
  {
    var f := requests[i];
    && IsQueued(StatusOf(FieldsOf(f))) && f.age >= staleAfter
    && !WillBeLinked(env, results, requests, f, telemetry)
    && f.path !in NamedPaths(results)
    && (f.body.EmptyObject? || (f.body.Object? && SlotTaken(env, results, requests, i)))
  }

  /** A request is stale after an unlimited run exactly then, for every directory, listing and age limit. */
  lemma {:induction false} StaleAfterRunIff(
    env: Env, results: Results, requests: seq<RequestFile>, i: nat, files: seq<ResultFile>,
    telemetry: seq<Telemetry>, staleAfter: int)
    requires DistinctPaths(requests) && i < |requests| && !requests[i].body.Unreadable?
    requires var after := Materialize(env, Start(results), requests, None).results;
      Lists(files, after) && ListsOnly(files, after)
    ensures IsStale(RecordOf(requests[i], files, telemetry), staleAfter) <==>
      StaysStale(env, results, requests, i, telemetry, staleAfter)
  {
    var f, after := requests[i], Materialize(env, Start(results), requests, None).results;
    assert f.path != "";
    hide Materialize, SlotTaken, RecordOf, LinkedOtherwise, WillBeLinked, Lower, NamedPaths, ResultLink, IsQueued,
      IsStale, Lists, ListsOnly, DistinctPaths, HeldIn;
    StaleIff(f, files, telemetry, staleAfter);
    NamedAfterRunIff(env, results, requests, i);
    ListedIff(files, after, ByPath, f.path);
    NamedPathIff(after, f.path);
    LinkedAfterRunIff(env, results, requests, f, files, telemetry);
    if IsQueued(StatusOf(FieldsOf(f))) {
      QueuedStaysQueued(StatusOf(FieldsOf(f)));
    }
  }

  /** The promise of the materializer, exactly: the rollup after an unlimited run counts no stale request if and
      only if no request meets that condition. */
  lemma {:induction false} NothingStaleAfterRunIff(
    env: Env, results: Results, requests: seq<RequestFile>, listed: seq<RequestFile>,
    files: seq<ResultFile>, telemetry: seq<Telemetry>, staleAfter: int)
    requires DistinctPaths(requests) && forall f :: f in listed <==> f in requests
    requires var after := Materialize(env, Start(results), requests, None).results;
      Lists(files, after) && ListsOnly(files, after)
    ensures CountStale(Records(listed, files, telemetry), staleAfter) == 0 <==>
      forall i :: 0 <= i < |requests| ==> !StaysStale(env, results, requests, i, telemetry, staleAfter)
  {
    hide Materialize, StaysStale, RecordOf, IsStale, CountStale, Records, Lists, ListsOnly, DistinctPaths;
    NoneStaleIff(listed, files, telemetry, staleAfter);
    forall i | 0 <= i < |requests|
      ensures requests[i] in listed
      ensures StaysStale(env, results, requests, i, telemetry, staleAfter) <==>
        ShownStale(requests[i], files, telemetry, staleAfter)
    {
      assert requests[i] in requests;
      if requests[i].body.Unreadable? {
        UnreadableIsNotStale(env, results, requests, i, telemetry, staleAfter);
      } else {
        StaleAfterRunIff(env, results, requests, i, files, telemetry, staleAfter);
      }
    }
    if f :| f in listed && ShownStale(f, files, telemetry, staleAfter) {
      var i :| 0 <= i < |requests| && requests[i] == f;
    }
  }

  predicate ShownStale(f: RequestFile, files: seq<ResultFile>, telemetry: seq<Telemetry>, staleAfter: int) {
    !f.body.Unreadable? && IsStale(RecordOf(f, files, telemetry), staleAfter)
  }

  lemma {:induction false} UnreadableIsNotStale(
    env: Env, results: Results, requests: seq<RequestFile>, i: nat, telemetry: seq<Telemetry>, staleAfter: int)
    requires i < |requests| && requests[i].body.Unreadable?
    ensures !StaysStale(env, results, requests, i, telemetry, staleAfter)
  {
    hide SlotTaken, WillBeLinked;
  }

  lemma {:induction false} AllInSnoc(
    earlier: seq<RequestFile>, last: RequestFile, files: seq<ResultFile>, telemetry: seq<Telemetry>, staleAfter: int)
    ensures (forall f :: f in earlier + [last] ==> !ShownStale(f, files, telemetry, staleAfter)) <==>
      (forall f :: f in earlier ==> !ShownStale(f, files, telemetry, staleAfter))
      && !ShownStale(last, files, telemetry, staleAfter)
  {
    hide ShownStale;
    assert (earlier + [last])[|earlier|] == last;
    assert forall f :: f in earlier + [last] <==> f in earlier || f == last;
  }

  lemma {:induction false} NoneStaleIff(
    requests: seq<RequestFile>, files: seq<ResultFile>, telemetry: seq<Telemetry>, staleAfter: int)
    ensures CountStale(Records(requests, files, telemetry), staleAfter) == 0 <==>
      forall f :: f in requests ==> !ShownStale(f, files, telemetry, staleAfter)
  {
    hide RecordOf, IsStale;
    if requests == [] {
    } else {
      var last := |requests| - 1;
      var earlier := Records(requests[..last], files, telemetry);
      NoneStaleIff(requests[..last], files, telemetry, staleAfter);
      assert earlier + [] == earlier;
      assert requests == requests[..last] + [requests[last]];
      AllInSnoc(requests[..last], requests[last], files, telemetry, staleAfter);
      if !requests[last].body.Unreadable? {
        var r := RecordOf(requests[last], files, telemetry);
        assert (earlier + [r])[..|earlier|] == earlier;
      }
    }
  }

  /** So it holds when no request file is an empty object and every pending request finds its name free. */
  lemma {:induction false} NothingStaleAfterRun(
    env: Env, results: Results, requests: seq<RequestFile>, listed: seq<RequestFile>,
    files: seq<ResultFile>, telemetry: seq<Telemetry>, staleAfter: int)
    requires DistinctPaths(requests)
    requires forall i :: 0 <= i < |listed| ==> listed[i] in requests
    requires Lists(files, Materialize(env, Start(results), requests, None).results)
    requires forall i :: 0 <= i < |requests| ==> !requests[i].body.EmptyObject?
    requires forall i :: 0 <= i < |requests| && Pending(results, requests[i]) ==> !SlotTaken(env, results, requests, i)
    ensures CountStale(Records(listed, files, telemetry), staleAfter) == 0
  {
    var after := Materialize(env, Start(results), requests, None).results;
    forall f | f in listed
      ensures !ShownStale(f, files, telemetry, staleAfter)
    {
      var i :| 0 <= i < |requests| && requests[i] == f;
      hide Materialize, SlotTaken, FindLink, TelemetryLink, Lower;
      if f.body.Object? && IsQueued(StatusOf(f.body.value)) {
        QueuedStaysQueued(StatusOf(f.body.value));
        NamedAfterRunIff(env, results, requests, i);
        NamedIsNotStale(f, after, files, telemetry, staleAfter);
      }
    }
    NoneStaleIff(listed, files, telemetry, staleAfter);
  }

  /** An empty request object is never terminalized: after an unlimited run it is stale exactly when it is old
      enough and a result of its path was not there before. */
  lemma {:induction false} EmptyRequestStaleIff(
    env: Env, results: Results, requests: seq<RequestFile>, i: nat, files: seq<ResultFile>,
    telemetry: seq<Telemetry>, staleAfter: int)
    requires DistinctPaths(requests) && i < |requests| && requests[i].body.EmptyObject?
    requires var after := Materialize(env, Start(results), requests, None).results;
      Lists(files, after) && ListsOnly(files, after)
    ensures IsStale(RecordOf(requests[i], files, telemetry), staleAfter) <==>
      requests[i].age >= staleAfter && requests[i].path !in NamedPaths(results)
  {
    hide Materialize, RecordOf, IsStale, NamedPaths, SlotTaken, Lists, ListsOnly, DistinctPaths;
    StaleAfterRunIff(env, results, requests, i, files, telemetry, staleAfter);
  }

  /** Two pending requests whose keys sanitize to the same file name: in every listing after a run into an empty
      directory the later one is stale, when neither its request id nor its cycle is the earlier one's. */
  lemma {:induction false} ClashingNameStaysStale(
    env: Env, a: RequestFile, b: RequestFile, files: seq<ResultFile>, staleAfter: int)
    requires DistinctPaths([a, b]) && a.body.Object? && b.body.Object?
    requires Pending(map[], a) && IsQueued(StatusOf(b.body.value)) && b.age >= staleAfter
    requires ResultName(env, a, a.body.value) == ResultName(env, b, b.body.value)
    requires var q, r := a.body.value, b.body.value;
      && OrElse(r.requestId, r.id) != "" && OrElse(r.requestId, r.id) != OrElse(q.requestId, q.id)
      && (r.cycleId == "" || r.cycleId != q.cycleId)
    requires var after := Materialize(env, Start(map[]), [a, b], None).results;
      Lists(files, after) && ListsOnly(files, after)
    ensures IsStale(RecordOf(b, files, []), staleAfter)
  {
    hide ResultName, Lower, Materialize, RecordOf, IsStale, Lists, ListsOnly, OrElse, DistinctPaths, IsQueued;
    StaleAfterRunIff(env, map[], [a, b], 1, files, [], staleAfter);
    assert SlotTaken(env, map[], [a, b], 1) by {
      assert [a, b][0] == a;
    }
    hide SlotTaken, Pending;
    assert !Writes(env, map[], [a, b], 1, ById, OrElse(b.body.value.requestId, b.body.value.id));
  }
}
