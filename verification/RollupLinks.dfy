/** Which result or telemetry file a request is linked to, and which status it reports
    (nanobot/runtime/state.py). */
module RollupLinks {
  import opened Prelude
  import opened SubagentRequests
  import opened SubagentRollup

  /** The i-th result file is the first whose field holds the key. */
  predicate FirstWith(files: seq<ResultFile>, field: Field, key: string, i: nat) {
    && i < |files| && Has(files[i], field, key)
    && forall j :: 0 <= j < i ==> !Has(files[j], field, key)
  }

  predicate Has(f: ResultFile, field: Field, key: string) {
    key != "" && f.body.Object? &&
    var r := f.body.value;
    match field
    case ByPath => r.requestPath == key
    case ById => r.requestId == key
    case ByCycle => r.cycleId == key
    case ByTask => r.taskId == key
  }

  predicate NoneWith(files: seq<ResultFile>, field: Field, key: string) {
    forall i :: 0 <= i < |files| ==> !Has(files[i], field, key)
  }

  lemma {:induction false} ResultLinkIs(files: seq<ResultFile>, field: Field, key: string, i: nat)
    requires FirstWith(files, field, key, i)
    ensures var status := files[i].body.value.status;
      ResultLink(files, field, key) == Some(Link(files[i].path, if status != "" then status else "completed"))
    decreases i
  {
    if i > 0 {
      assert forall j :: 0 <= j < |files| - 1 ==> files[1..][j] == files[j + 1];
      assert Has(files[0], field, key) == false;
      ResultLinkIs(files[1..], field, key, i - 1);
    }
  }

  lemma {:induction false} NoResultLink(files: seq<ResultFile>, field: Field, key: string)
    requires NoneWith(files, field, key)
    ensures ResultLink(files, field, key) == None
  {
    if files != [] {
      assert !Has(files[0], field, key);
      assert forall j :: 0 <= j < |files| - 1 ==> files[1..][j] == files[j + 1];
      NoResultLink(files[1..], field, key);
    }
  }

  /** A telemetry file of a finished task that carries the key. */
  predicate Reports(t: Telemetry, key: string) {
    && key != "" && t.taskId != "" && (t.requestId == key || t.taskId == key)
    && Lower(t.status) in ["ok", "error", "cancelled", "canceled", "completed", "complete", "done", "pass"]
  }

  predicate FirstReport(telemetry: seq<Telemetry>, key: string, i: nat) {
    i < |telemetry| && Reports(telemetry[i], key) && forall j :: 0 <= j < i ==> !Reports(telemetry[j], key)
  }

  lemma {:induction false} TelemetryLinkIs(telemetry: seq<Telemetry>, key: string, i: nat)
    requires FirstReport(telemetry, key, i)
    ensures TelemetryLink(telemetry, key) == Some(Link(telemetry[i].path, telemetry[i].status))
    decreases i
  {
    hide Lower;
    if i > 0 {
      assert forall j :: 0 <= j < |telemetry| - 1 ==> telemetry[1..][j] == telemetry[j + 1];
      assert !Reports(telemetry[0], key);
      TelemetryLinkIs(telemetry[1..], key, i - 1);
    }
  }

  lemma {:induction false} NoTelemetryLink(telemetry: seq<Telemetry>, key: string)
    requires forall j :: 0 <= j < |telemetry| ==> !Reports(telemetry[j], key)
    ensures TelemetryLink(telemetry, key) == None
  {
    hide Lower;
    if telemetry != [] {
      assert !Reports(telemetry[0], key);
      assert forall j :: 0 <= j < |telemetry| - 1 ==> telemetry[1..][j] == telemetry[j + 1];
      NoTelemetryLink(telemetry[1..], key);
    }
  }

  /** The field and key that decide: the request id, then the file's path, then the cycle, and the task only for
      a request without an id. */
  predicate Decides(files: seq<ResultFile>, f: RequestFile, field: Field, key: string) {
    var q := if f.body.Object? then f.body.value else Request("", "", "", "", "", "");
    var id := if q.requestId != "" then q.requestId else q.id;
    match field
    case ById => key == id
    case ByPath => key == f.path && NoneWith(files, ById, id)
    case ByCycle => key == q.cycleId && NoneWith(files, ById, id) && NoneWith(files, ByPath, f.path)
    case ByTask =>
      key == q.taskId && id == "" && NoneWith(files, ByPath, f.path) && NoneWith(files, ByCycle, q.cycleId)
  }

  /** A request with a result is linked to the first file that the deciding key leads to, and reports its status
      in lower case, "completed" when it has none. */
  lemma {:induction false} LinkedRecord(
    f: RequestFile, files: seq<ResultFile>, telemetry: seq<Telemetry>, field: Field, key: string, i: nat)
    requires Decides(files, f, field, key) && FirstWith(files, field, key, i)
    ensures var r := RecordOf(f, files, telemetry);
            var status := files[i].body.value.status;
      && r.link == Some(Link(files[i].path, if status != "" then status else "completed"))
      && r.status == (if status != "" then Lower(status) else "completed")
  {
    hide ResultLink, TelemetryLink, Has, Lower;
    var q := FieldsOf(f);
    ResultLinkIs(files, field, key, i);
    LowerKeeps("completed");
    match field {
      case ById =>
      case ByPath => NoResultLink(files, ById, OrElse(q.requestId, q.id));
      case ByCycle =>
        NoResultLink(files, ById, OrElse(q.requestId, q.id));
        NoResultLink(files, ByPath, f.path);
      case ByTask =>
        NoKey(files);
        NoResultLink(files, ByPath, f.path);
        NoResultLink(files, ByCycle, q.cycleId);
    }
  }

  lemma {:induction false} NoKey(files: seq<ResultFile>)
    ensures ResultLink(files, ById, "") == None
  {
  }

  /** No result links the request, by whatever key. */
  predicate Unanswered(files: seq<ResultFile>, f: RequestFile) {
    var q := if f.body.Object? then f.body.value else Request("", "", "", "", "", "");
    var id := if q.requestId != "" then q.requestId else q.id;
    && NoneWith(files, ById, id) && NoneWith(files, ByPath, f.path) && NoneWith(files, ByCycle, q.cycleId)
    && (id == "" ==> NoneWith(files, ByTask, q.taskId))
  }

  /** The key under which telemetry is looked up: the request id, else the task. */
  function TelemetryKey(f: RequestFile): string {
    var q := if f.body.Object? then f.body.value else Request("", "", "", "", "", "");
    if q.requestId != "" then q.requestId else if q.id != "" then q.id else q.taskId
  }

  /** Without a result, a request with a report is linked to the first one and reports "completed", or for want
      of an id the report's own status; without either it has no link and its own status, "queued" by default. */
  lemma {:induction false} UnansweredRecord(
    f: RequestFile, files: seq<ResultFile>, telemetry: seq<Telemetry>)
    requires Unanswered(files, f)
    ensures var r := RecordOf(f, files, telemetry);
            var own := if f.body.Object? && f.body.value.status != "" then f.body.value.status else "queued";
            var hasId := f.body.Object? && (f.body.value.requestId != "" || f.body.value.id != "");
      && (forall i: nat :: FirstReport(telemetry, TelemetryKey(f), i) ==>
            && r.link == Some(Link(telemetry[i].path, telemetry[i].status))
            && r.status == if hasId then "completed" else Lower(telemetry[i].status))
      && ((forall i :: 0 <= i < |telemetry| ==> !Reports(telemetry[i], TelemetryKey(f))) ==>
            r.link == None && r.status == own)
      && r.requestStatus == own && r.age == f.age && r.path == f.path
  {
    var q := FieldsOf(f);
    var id := OrElse(q.requestId, q.id);
    NoKey(files);
    NoResultLink(files, ById, id);
    NoResultLink(files, ByPath, f.path);
    NoResultLink(files, ByCycle, q.cycleId);
    if id == "" {
      NoResultLink(files, ByTask, q.taskId);
    }
    hide ResultLink, TelemetryLink, Has, Lower;
    forall i: nat | FirstReport(telemetry, TelemetryKey(f), i)
      ensures TelemetryLink(telemetry, TelemetryKey(f)) == Some(Link(telemetry[i].path, telemetry[i].status))
      ensures telemetry[i].status != ""
    {
      TelemetryLinkIs(telemetry, TelemetryKey(f), i);
      ReportHasStatus(telemetry[i], TelemetryKey(f));
    }
    if forall i :: 0 <= i < |telemetry| ==> !Reports(telemetry[i], TelemetryKey(f)) {
      NoTelemetryLink(telemetry, TelemetryKey(f));
    }
  }

  lemma {:induction false} ReportHasStatus(t: Telemetry, key: string)
    requires Reports(t, key)
    ensures t.status != ""
  {
  }

  /* ---------- the counts ---------- */

  function IfQueued(r: RequestRecord): seq<RequestRecord> {
    if r.status == "queued" || r.status == "pending" then [r] else []
  }

  function IfStale(r: RequestRecord, staleAfter: int): seq<RequestRecord> {
    if (r.requestStatus == "queued" || r.requestStatus == "pending") && r.link == None && r.age >= staleAfter then [r]
    else []
  }

  /** The two counts are the numbers of records that are queued, and of those that were queued, are old and are
      linked to nothing. */
  lemma {:induction false} CountsAreNumbers(records: seq<RequestRecord>, staleAfter: int)
    ensures CountQueued(records) == |FlatMap(IfQueued, records)|
    ensures CountStale(records, staleAfter) == |FlatMap(r => IfStale(r, staleAfter), records)|
  {
    var stale := r => IfStale(r, staleAfter);
    if records == [] {
    } else {
      var last := |records| - 1;
      var earlier, r := records[..last], records[last];
      CountsAreNumbers(earlier, staleAfter);
      assert records == earlier + [r];
      hide FlatMap;
      FlatMapAppend(IfQueued, earlier, [r]);
      FlatMapCons(IfQueued, r, []);
      FlatMapAppend(stale, earlier, [r]);
      FlatMapCons(stale, r, []);
    }
  }
}
