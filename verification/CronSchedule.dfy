/** The cron service: due jobs, run history, and the timer (nanobot/cron/service.py). */
module CronSchedule {
  import opened Prelude

  const MAX_RUN_HISTORY: nat := 20

  datatype Kind = At | Every | Cron

  /** Times are in milliseconds; a missing or zero time counts as none. */
  datatype Schedule = Schedule(kind: Kind, atMs: int, everyMs: int, expr: string, tz: string)

  datatype RunRecord = RunRecord(runAt: int, ok: bool, duration: int, error: string)

  datatype Job = Job(
    id: string, enabled: bool, schedule: Schedule, nextRun: int, lastRun: int, lastOk: bool, lastError: string,
    history: seq<RunRecord>, deleteAfterRun: bool, updatedAt: int)

  /** The next time a cron expression matches after a given time; 0 when it cannot be computed. */
  type CronTimes = (Schedule, int) -> int

  /** croniter's answer lies strictly after the reference time. */
  ghost predicate Forward(cron: CronTimes) {
    forall s, now :: cron(s, now) == 0 || cron(s, now) > now
  }

  function ComputeNextRun(cron: CronTimes, s: Schedule, now: int): (next: int)
    ensures Forward(cron) ==> next == 0 || next > now
  {
    match s.kind
    case At => if s.atMs != 0 && s.atMs > now then s.atMs else 0
    case Every => if s.everyMs <= 0 then 0 else now + s.everyMs
    case Cron => if s.expr == "" then 0 else cron(s, now)
  }

  predicate Scheduled(j: Job) {
    j.enabled && j.nextRun != 0
  }

  predicate Due(j: Job, now: int) {
    Scheduled(j) && now >= j.nextRun
  }

  /* ---------- executing one job ---------- */

  /** One call of the job's callback: its outcome, and the clock readings before, after, and at rescheduling. */
  datatype Call = Call(ok: bool, error: string, start: int, end: int, after: int)

  function RecordOf(c: Call): RunRecord {
    RunRecord(c.start, c.ok, c.end - c.start, if c.ok then "" else c.error)
  }

  /** What becomes of the job: None when a one-shot is deleted after its run. */
  function AfterRun(cron: CronTimes, j: Job, c: Call): Option<Job> {
    var done := j.(lastOk := c.ok, lastError := if c.ok then "" else c.error, lastRun := c.start, updatedAt := c.end,
                   history := LastN(j.history + [RecordOf(c)], MAX_RUN_HISTORY));
    if j.schedule.kind.At? then
      if j.deleteAfterRun then None else Some(done.(enabled := false, nextRun := 0))
    else Some(done.(nextRun := ComputeNextRun(cron, j.schedule, c.after)))
  }

  function Kept(j: Option<Job>): seq<Job> {
    if j.Some? then [j.value] else []
  }

  function Execute(cron: CronTimes, jobs: seq<Job>, id: string, c: Call): seq<Job> {
    if jobs == [] then []
    else if jobs[0].id == id then Kept(AfterRun(cron, jobs[0], c)) + Execute(cron, jobs[1..], id, c)
    else [jobs[0]] + Execute(cron, jobs[1..], id, c)
  }

  lemma {:induction false} ExecuteFrom(cron: CronTimes, jobs: seq<Job>, i: nat, id: string, c: Call)
    requires i <= |jobs|
    ensures i == |jobs| ==> Execute(cron, jobs[i..], id, c) == []
    ensures i < |jobs| ==>
      var here := if jobs[i].id == id then Kept(AfterRun(cron, jobs[i], c)) else [jobs[i]];
      Execute(cron, jobs[i..], id, c) == here + Execute(cron, jobs[i + 1..], id, c)
  {
    hide AfterRun;
    assert i < |jobs| ==> jobs[i..][1..] == jobs[i + 1..];
  }

  function Find(jobs: seq<Job>, id: string): Option<Job> {
    if jobs == [] then None else if jobs[0].id == id then Some(jobs[0]) else Find(jobs[1..], id)
  }

  predicate HasId(jobs: seq<Job>, id: string) {
    exists i :: 0 <= i < |jobs| && jobs[i].id == id
  }

  predicate UniqueIds(jobs: seq<Job>) {
    forall i, k :: 0 <= i < k < |jobs| ==> jobs[i].id != jobs[k].id
  }

  lemma {:induction false} FindPresent(jobs: seq<Job>, id: string)
    ensures Find(jobs, id).Some? <==> HasId(jobs, id)
    ensures Find(jobs, id).Some? ==> Find(jobs, id).value in jobs && Find(jobs, id).value.id == id
  {
    if jobs == [] {
    } else {
      FindPresent(jobs[1..], id);
      HasIdCons(jobs, id);
    }
  }

  lemma {:induction false} HasIdCons(jobs: seq<Job>, id: string)
    requires jobs != []
    ensures HasId(jobs, id) <==> jobs[0].id == id || HasId(jobs[1..], id)
    ensures UniqueIds(jobs) <==> UniqueIds(jobs[1..]) && !HasId(jobs[1..], jobs[0].id)
  {
  }

  lemma {:induction false} FindUnique(jobs: seq<Job>, j: Job)
    requires UniqueIds(jobs) && j in jobs
    ensures Find(jobs, j.id) == Some(j)
  {
    if jobs[0] != j {
      HasIdCons(jobs, jobs[0].id);
      FindUnique(jobs[1..], j);
    }
  }

  /** Executing a job changes that job alone. */
  lemma {:induction false} ExecuteFind(cron: CronTimes, jobs: seq<Job>, id: string, c: Call, x: string)
    requires UniqueIds(jobs)
    ensures Find(Execute(cron, jobs, id, c), x) ==
      if x != id then Find(jobs, x)
      else if Find(jobs, id).Some? then AfterRun(cron, Find(jobs, id).value, c) else None
  {
    hide AfterRun;
    if jobs == [] {
    } else {
      var rest := Execute(cron, jobs[1..], id, c);
      HasIdCons(jobs, id);
      ExecuteFind(cron, jobs[1..], id, c, x);
      FindPresent(jobs[1..], id);
      AfterRunKeepsId(cron, jobs[0], c);
      if jobs[0].id != id {
        assert ([jobs[0]] + rest)[1..] == rest;
      } else if AfterRun(cron, jobs[0], c).Some? {
        assert ([AfterRun(cron, jobs[0], c).value] + rest)[1..] == rest;
      } else {
        assert Kept(None) + rest == rest;
      }
    }
  }

  lemma {:induction false} ExecuteUnique(cron: CronTimes, jobs: seq<Job>, id: string, c: Call)
    requires UniqueIds(jobs)
    ensures UniqueIds(Execute(cron, jobs, id, c))
    ensures forall y :: HasId(Execute(cron, jobs, id, c), y) ==> HasId(jobs, y)
  {
    hide AfterRun, UniqueIds, HasId;
    if jobs == [] {
    } else {
      var rest := Execute(cron, jobs[1..], id, c);
      HasIdCons(jobs, id);
      ExecuteUnique(cron, jobs[1..], id, c);
      AfterRunKeepsId(cron, jobs[0], c);
      if jobs[0].id == id && AfterRun(cron, jobs[0], c).None? {
        assert Kept(None) + rest == rest;
        forall y | HasId(rest, y)
          ensures HasId(jobs, y)
        {
          HasIdCons(jobs, y);
        }
      } else {
        var head := if jobs[0].id == id then AfterRun(cron, jobs[0], c).value else jobs[0];
        assert ([head] + rest)[1..] == rest;
        HasIdCons([head] + rest, id);
        forall y | HasId([head] + rest, y)
          ensures HasId(jobs, y)
        {
          HasIdCons([head] + rest, y);
          HasIdCons(jobs, y);
        }
      }
    }
  }

  lemma {:induction false} AfterRunKeepsId(cron: CronTimes, j: Job, c: Call)
    ensures AfterRun(cron, j, c).Some? ==> AfterRun(cron, j, c).value.id == j.id
  {
  }

  /* ---------- a timer tick ---------- */

  function DueIds(jobs: seq<Job>, now: int): seq<string> {
    if jobs == [] then []
    else
      var last := |jobs| - 1;
      DueIds(jobs[..last], now) + if Due(jobs[last], now) then [jobs[last].id] else []
  }

  /** The due jobs are executed one after the other, in the order of the list. */
  function ExecuteAll(cron: CronTimes, jobs: seq<Job>, ids: seq<string>, calls: nat -> Call): seq<Job> {
    if ids == [] then jobs
    else
      var last := |ids| - 1;
      Execute(cron, ExecuteAll(cron, jobs, ids[..last], calls), ids[last], calls(last))
  }

  lemma {:induction false} DueIdsExact(jobs: seq<Job>, now: int)
    requires UniqueIds(jobs)
    ensures NoDuplicates(DueIds(jobs, now))
    ensures forall id :: id in DueIds(jobs, now) <==> exists i :: 0 <= i < |jobs| && Due(jobs[i], now) && jobs[i].id == id
  {
    hide Due;
    if jobs == [] {
    } else {
      var last := |jobs| - 1;
      var earlier := jobs[..last];
      DueIdsExact(earlier, now);
      assert forall i :: 0 <= i < last ==> earlier[i] == jobs[i];
      if Due(jobs[last], now) {
        NoDuplicatesSnoc(DueIds(earlier, now), jobs[last].id);
      } else {
        assert DueIds(earlier, now) + [] == DueIds(earlier, now);
      }
    }
  }

  /** After executing a list of different ids, each listed job went through exactly its own call, and every
      other job is as before. */
  lemma {:induction false} ExecuteAllFind(cron: CronTimes, jobs: seq<Job>, ids: seq<string>, calls: nat -> Call)
    requires UniqueIds(jobs) && NoDuplicates(ids)
    ensures UniqueIds(ExecuteAll(cron, jobs, ids, calls))
    ensures forall x :: x !in ids ==> Find(ExecuteAll(cron, jobs, ids, calls), x) == Find(jobs, x)
    ensures forall k :: 0 <= k < |ids| ==>
      Find(ExecuteAll(cron, jobs, ids, calls), ids[k]) ==
        if Find(jobs, ids[k]).Some? then AfterRun(cron, Find(jobs, ids[k]).value, calls(k)) else None
    decreases |ids|
  {
    hide AfterRun, Execute, Find, UniqueIds;
    if ids == [] {
    } else {
      var last := |ids| - 1;
      var before := ExecuteAll(cron, jobs, ids[..last], calls);
      ExecuteAllFind(cron, jobs, ids[..last], calls);
      ExecuteUnique(cron, before, ids[last], calls(last));
      forall x {
        ExecuteFind(cron, before, ids[last], calls(last), x);
      }
      assert ids[last] !in ids[..last];
    }
  }

  /** A tick runs each due job exactly once, with its own call, and touches no other job. */
  lemma {:induction false} TickRunsDueOnce(cron: CronTimes, jobs: seq<Job>, now: int, calls: nat -> Call)
    requires UniqueIds(jobs)
    ensures var ids, after := DueIds(jobs, now), ExecuteAll(cron, jobs, DueIds(jobs, now), calls);
      && UniqueIds(after) && NoDuplicates(ids)
      && forall j :: j in jobs ==>
           if Due(j, now) then exists k :: 0 <= k < |ids| && ids[k] == j.id && Find(after, j.id) == AfterRun(cron, j, calls(k))
           else Find(after, j.id) == Some(j)
  {
    hide AfterRun, ExecuteAll;
    var ids, after := DueIds(jobs, now), ExecuteAll(cron, jobs, DueIds(jobs, now), calls);
    DueIdsExact(jobs, now);
    ExecuteAllFind(cron, jobs, ids, calls);
    forall j | j in jobs
      ensures if Due(j, now) then exists k :: 0 <= k < |ids| && ids[k] == j.id && Find(after, j.id) == AfterRun(cron, j, calls(k))
              else Find(after, j.id) == Some(j)
    {
      FindUnique(jobs, j);
      if Due(j, now) {
        assert j.id in ids;
        var k :| 0 <= k < |ids| && ids[k] == j.id;
      } else {
        assert j.id !in ids;
      }
    }
  }

  /** The clock does not run backwards during the calls. */
  predicate ClockForward(now: int, calls: nat -> Call, n: nat) {
    forall k :: 0 <= k < n ==> now <= calls(k).start <= calls(k).end <= calls(k).after
  }

  /** After the tick, no enabled job is due at or before the tick time. */
  lemma {:induction false} TickLeavesNothingDue(cron: CronTimes, jobs: seq<Job>, now: int, calls: nat -> Call)
    requires UniqueIds(jobs) && Forward(cron) && ClockForward(now, calls, |DueIds(jobs, now)|)
    ensures forall j :: j in ExecuteAll(cron, jobs, DueIds(jobs, now), calls) ==> !Due(j, now)
  {
    hide ExecuteAll;
    var ids, after := DueIds(jobs, now), ExecuteAll(cron, jobs, DueIds(jobs, now), calls);
    DueIdsExact(jobs, now);
    ExecuteAllFind(cron, jobs, ids, calls);
    forall j | j in after
      ensures !Due(j, now)
    {
      FindUnique(after, j);
      if j.id in ids {
        var k :| 0 <= k < |ids| && ids[k] == j.id;
        assert calls(k).after >= now;
      } else {
        FindPresent(jobs, j.id);
        assert j in jobs;
      }
    }
  }

  /* ---------- the timer ---------- */

  /** The earliest next run over the enabled jobs; 0 when none is scheduled. */
  function NextWake(jobs: seq<Job>): (wake: int)
    ensures wake != 0 ==> exists i :: 0 <= i < |jobs| && Scheduled(jobs[i]) && jobs[i].nextRun == wake
    ensures wake != 0 ==> forall i :: 0 <= i < |jobs| && Scheduled(jobs[i]) ==> wake <= jobs[i].nextRun
    ensures wake == 0 ==> forall i :: 0 <= i < |jobs| ==> !Scheduled(jobs[i])
  {
    if jobs == [] then 0
    else
      var last := |jobs| - 1;
      var earlier := NextWake(jobs[..last]);
      if Scheduled(jobs[last]) && (earlier == 0 || jobs[last].nextRun < earlier) then
        assert forall i :: 0 <= i < last ==> jobs[..last][i] == jobs[i];
        jobs[last].nextRun
      else
        assert forall i :: 0 <= i < last ==> jobs[..last][i] == jobs[i];
        earlier
  }

  /** The firing time of the live timer: the earliest next run, or at once when that has passed. */
  function Armed(running: bool, jobs: seq<Job>, now: int): Option<int> {
    if !running || NextWake(jobs) == 0 then None else Some(Max(NextWake(jobs), now))
  }

  /* ---------- the service as a state machine ---------- */

  /** `armedAt` is the clock when the timer was last armed; `log` holds the complete run log of each job. */
  datatype State = State(jobs: seq<Job>, running: bool, timer: Option<int>, armedAt: int, log: map<string, seq<RunRecord>>)

  datatype Op =
    | Start(now: int)
    | Stop
    | Tick(now: int, calls: nat -> Call, armed: int)
    | Add(job: Job, zones: set<string>, now: int)
    | Remove(id: string, now: int)
    | Enable(id: string, enabled: bool, now: int)
    | RunNow(id: string, force: bool, call: Call)

  function Arm(s: State, now: int): State {
    s.(timer := Armed(s.running, s.jobs, now), armedAt := now)
  }

  function Recompute(cron: CronTimes, j: Job, now: int): Job {
    if j.enabled then j.(nextRun := ComputeNextRun(cron, j.schedule, now)) else j
  }

  function RecomputeAll(cron: CronTimes, jobs: seq<Job>, now: int): (out: seq<Job>)
    ensures |out| == |jobs| && forall i :: 0 <= i < |jobs| ==> out[i] == Recompute(cron, jobs[i], now)
  {
    seq(|jobs|, i requires 0 <= i < |jobs| => Recompute(cron, jobs[i], now))
  }

  function Without(jobs: seq<Job>, id: string): seq<Job> {
    if jobs == [] then [] else (if jobs[0].id == id then [] else [jobs[0]]) + Without(jobs[1..], id)
  }

  function SetEnabled(cron: CronTimes, j: Job, enabled: bool, now: int): Job {
    j.(enabled := enabled, updatedAt := now, nextRun := if enabled then ComputeNextRun(cron, j.schedule, now) else 0)
  }

  /** Replace the first job with the id. */
  function Replace(jobs: seq<Job>, id: string, j: Job): (out: seq<Job>)
    ensures |out| == |jobs|
  {
    if jobs == [] then [] else if jobs[0].id == id then [j] + jobs[1..] else [jobs[0]] + Replace(jobs[1..], id, j)
  }

  function LogOf(log: map<string, seq<RunRecord>>, id: string): seq<RunRecord> {
    if id in log then log[id] else []
  }

  function LogAll(log: map<string, seq<RunRecord>>, ids: seq<string>, calls: nat -> Call): map<string, seq<RunRecord>> {
    if ids == [] then log
    else
      var last := |ids| - 1;
      var l := LogAll(log, ids[..last], calls);
      l[ids[last] := LogOf(l, ids[last]) + [RecordOf(calls(last))]]
  }

  lemma {:induction false} DueIdsSnoc(jobs: seq<Job>, i: nat, now: int)
    requires i <= |jobs|
    ensures DueIds([], now) == []
    ensures i < |jobs| ==>
      DueIds(jobs[..i + 1], now) == DueIds(jobs[..i], now) + if Due(jobs[i], now) then [jobs[i].id] else []
  {
    hide Due;
    assert i < |jobs| ==> jobs[..i + 1][..i] == jobs[..i];
  }

  lemma {:induction false} ExecuteAllSnoc(
    cron: CronTimes, jobs: seq<Job>, log: map<string, seq<RunRecord>>, ids: seq<string>, k: nat, calls: nat -> Call)
    requires k <= |ids|
    ensures ExecuteAll(cron, jobs, [], calls) == jobs && LogAll(log, [], calls) == log
    ensures k < |ids| ==>
      var before := LogAll(log, ids[..k], calls);
      && ExecuteAll(cron, jobs, ids[..k + 1], calls)
           == Execute(cron, ExecuteAll(cron, jobs, ids[..k], calls), ids[k], calls(k))
      && LogAll(log, ids[..k + 1], calls) == before[ids[k] := LogOf(before, ids[k]) + [RecordOf(calls(k))]]
  {
    hide Execute, RecordOf, LogOf;
    assert k < |ids| ==> ids[..k + 1][..k] == ids[..k];
  }

  /** Only cron schedules may name a time zone, and it has to be a known one. */
  predicate Addable(s: Schedule, zones: set<string>) {
    s.tz == "" || (s.kind.Cron? && s.tz in zones)
  }

  /** A job as it enters the list: enabled, never run, its first run computed from now. */
  function NewJob(cron: CronTimes, job: Job, now: int): Job {
    job.(enabled := true, nextRun := ComputeNextRun(cron, job.schedule, now), lastRun := 0, lastOk := false,
         lastError := "", history := [], updatedAt := now)
  }

  function Apply(cron: CronTimes, s: State, op: Op): State {
    match op
    case Start(now) => Arm(s.(running := true, jobs := RecomputeAll(cron, s.jobs, now)), now)
    case Stop => s.(running := false, timer := None)
    case Tick(now, calls, armed) =>
      var ids := DueIds(s.jobs, now);
      Arm(s.(jobs := ExecuteAll(cron, s.jobs, ids, calls), log := LogAll(s.log, ids, calls)), armed)
    case Add(job, zones, now) =>
      if !Addable(job.schedule, zones) then s
      else Arm(s.(jobs := s.jobs + [NewJob(cron, job, now)], log := s.log[job.id := []]), now)
    case Remove(id, now) =>
      if Find(s.jobs, id).None? then s else Arm(s.(jobs := Without(s.jobs, id)), now)
    case Enable(id, enabled, now) => (
      match Find(s.jobs, id)
      case None => s
      case Some(j) => Arm(s.(jobs := Replace(s.jobs, id, SetEnabled(cron, j, enabled, now))), now))
    case RunNow(id, force, call) => (
      match Find(s.jobs, id)
      case None => s
      case Some(j) =>
        if !force && !j.enabled then s
        else Arm(s.(jobs := Execute(cron, s.jobs, id, call), log := s.log[id := LogOf(s.log, id) + [RecordOf(call)]]), call.after))
  }

  /** New job ids are fresh, and no operation names a job whose id is reused. */
  predicate Fresh(s: State, op: Op) {
    op.Add? ==> !HasId(s.jobs, op.job.id)
  }

  predicate FreshRun(cron: CronTimes, s: State, ops: seq<Op>)
    decreases |ops|
  {
    ops == [] || (Fresh(s, ops[0]) && FreshRun(cron, Apply(cron, s, ops[0]), ops[1..]))
  }

  function Run(cron: CronTimes, s: State, ops: seq<Op>): State
    decreases |ops|
  {
    if ops == [] then s else Run(cron, Apply(cron, s, ops[0]), ops[1..])
  }

  /** A run is its operations one after the other. */
  lemma {:induction false} RunSnoc(cron: CronTimes, s: State, ops: seq<Op>, op: Op)
    ensures Run(cron, s, ops + [op]) == Apply(cron, Run(cron, s, ops), op) && Run(cron, s, []) == s
    decreases |ops|
  {
    hide Apply;
    if ops == [] {
      assert [op][1..] == [];
      assert Run(cron, Apply(cron, s, op), []) == Apply(cron, s, op);
    } else {
      assert (ops + [op])[1..] == ops[1..] + [op];
      RunSnoc(cron, Apply(cron, s, ops[0]), ops[1..], op);
    }
  }

  lemma {:induction false} LastNStep(log: seq<RunRecord>, r: RunRecord)
    ensures LastN(LastN(log, MAX_RUN_HISTORY) + [r], MAX_RUN_HISTORY) == LastN(log + [r], MAX_RUN_HISTORY)
  {
  }

  lemma {:induction false} LogAllExact(log: map<string, seq<RunRecord>>, ids: seq<string>, calls: nat -> Call)
    requires NoDuplicates(ids)
    ensures forall x :: x !in ids ==> LogOf(LogAll(log, ids, calls), x) == LogOf(log, x)
    ensures forall k :: 0 <= k < |ids| ==>
      LogOf(LogAll(log, ids, calls), ids[k]) == LogOf(log, ids[k]) + [RecordOf(calls(k))]
  {
    hide RecordOf;
    if ids == [] {
    } else {
      LogAllExact(log, ids[..|ids| - 1], calls);
    }
  }

  /** The job's history is the tail of its log. */
  predicate HistoryOk(j: Job, log: map<string, seq<RunRecord>>) {
    j.history == LastN(LogOf(log, j.id), MAX_RUN_HISTORY)
  }

  predicate AllHistoriesOk(jobs: seq<Job>, log: map<string, seq<RunRecord>>) {
    forall j :: j in jobs ==> HistoryOk(j, log)
  }

  lemma {:induction false} TickKeepsHistories(
    cron: CronTimes, jobs: seq<Job>, log: map<string, seq<RunRecord>>, ids: seq<string>, calls: nat -> Call)
    requires UniqueIds(jobs) && NoDuplicates(ids) && AllHistoriesOk(jobs, log)
    ensures UniqueIds(ExecuteAll(cron, jobs, ids, calls))
    ensures AllHistoriesOk(ExecuteAll(cron, jobs, ids, calls), LogAll(log, ids, calls))
  {
    hide ExecuteAll, LogAll, RecordOf, ComputeNextRun, LastN, LogOf;
    var after := ExecuteAll(cron, jobs, ids, calls);
    ExecuteAllFind(cron, jobs, ids, calls);
    LogAllExact(log, ids, calls);
    forall j | j in after
      ensures HistoryOk(j, LogAll(log, ids, calls))
    {
      FindUnique(after, j);
      FindPresent(jobs, j.id);
      if j.id in ids {
        var k :| 0 <= k < |ids| && ids[k] == j.id;
        LastNStep(LogOf(log, j.id), RecordOf(calls(k)));
      }
    }
  }

  lemma {:induction false} WithoutKeeps(jobs: seq<Job>, id: string)
    requires UniqueIds(jobs)
    ensures UniqueIds(Without(jobs, id))
    ensures forall y :: HasId(Without(jobs, id), y) <==> HasId(jobs, y) && y != id
    ensures forall j :: j in Without(jobs, id) ==> j in jobs
  {
    if jobs == [] {
    } else {
      var rest, out := Without(jobs[1..], id), Without(jobs, id);
      HasIdCons(jobs, id);
      WithoutKeeps(jobs[1..], id);
      if jobs[0].id != id {
        assert out[1..] == rest;
        HasIdCons(out, id);
      } else {
        assert out == rest;
      }
      hide UniqueIds, HasId;
      forall y
        ensures HasId(out, y) <==> HasId(jobs, y) && y != id
      {
        HasIdCons(jobs, y);
        if jobs[0].id != id {
          HasIdCons(out, y);
        }
      }
    }
  }

  lemma {:induction false} ReplaceKeepsIds(jobs: seq<Job>, id: string, j: Job)
    requires j.id == id
    ensures forall i :: 0 <= i < |jobs| ==> Replace(jobs, id, j)[i].id == jobs[i].id
  {
    if jobs == [] {
    } else {
      ReplaceKeepsIds(jobs[1..], id, j);
    }
  }

  lemma {:induction false} RecomputeKeeps(cron: CronTimes, jobs: seq<Job>, log: map<string, seq<RunRecord>>, now: int)
    requires UniqueIds(jobs) && AllHistoriesOk(jobs, log)
    ensures UniqueIds(RecomputeAll(cron, jobs, now)) && AllHistoriesOk(RecomputeAll(cron, jobs, now), log)
  {
    hide ComputeNextRun, LastN, LogOf;
    var out := RecomputeAll(cron, jobs, now);
    forall j | j in out
      ensures HistoryOk(j, log)
    {
      var i :| 0 <= i < |out| && out[i] == j;
      assert HistoryOk(jobs[i], log);
    }
  }

  /** Ids are unique, histories are tails of the logs, and the live timer is armed for the earliest run. */
  predicate Good(s: State) {
    && UniqueIds(s.jobs)
    && AllHistoriesOk(s.jobs, s.log)
    && s.timer == Armed(s.running, s.jobs, s.armedAt)
  }

  lemma {:induction false} ApplyKeepsGood(cron: CronTimes, s: State, op: Op)
    requires Good(s) && Fresh(s, op)
    ensures Good(Apply(cron, s, op))
  {
    hide ComputeNextRun, Armed, LastN, LogOf, ExecuteAll, LogAll, Execute;
    match op {
      case Start(now) =>
        RecomputeKeeps(cron, s.jobs, s.log, now);
      case Stop => StoppedIsUnarmed(s.jobs, s.armedAt);
      case Tick(now, calls, armed) =>
        DueIdsExact(s.jobs, now);
        TickKeepsHistories(cron, s.jobs, s.log, DueIds(s.jobs, now), calls);
      case Add(job, zones, now) => AddKeepsHistories(cron, s, job, zones, now);
      case Remove(id, now) => WithoutKeeps(s.jobs, id);
      case Enable(id, enabled, now) =>
        FindPresent(s.jobs, id);
        if Find(s.jobs, id).Some? {
          var j := SetEnabled(cron, Find(s.jobs, id).value, enabled, now);
          ReplaceKeepsIds(s.jobs, id, j);
          ReplaceMembers(s.jobs, id, j);
          assert HistoryOk(Find(s.jobs, id).value, s.log);
        }
      case RunNow(id, force, call) =>
        ExecuteUnique(cron, s.jobs, id, call);
        RunNowKeepsHistories(cron, s, id, call);
    }
  }

  lemma {:induction false} StoppedIsUnarmed(jobs: seq<Job>, now: int)
    ensures Armed(false, jobs, now) == None
  {
  }

  lemma {:induction false} AddKeepsHistories(cron: CronTimes, s: State, job: Job, zones: set<string>, now: int)
    requires UniqueIds(s.jobs) && AllHistoriesOk(s.jobs, s.log) && !HasId(s.jobs, job.id)
    ensures var s' := Apply(cron, s, Add(job, zones, now)); UniqueIds(s'.jobs) && AllHistoriesOk(s'.jobs, s'.log)
  {
    hide ComputeNextRun, NextWake;
    var s' := Apply(cron, s, Add(job, zones, now));
    forall j | j in s'.jobs
      ensures HistoryOk(j, s'.log)
    {
      if j in s.jobs {
        assert HistoryOk(j, s.log) && j.id != job.id;
      }
    }
  }

  lemma {:induction false} RunNowKeepsHistories(cron: CronTimes, s: State, id: string, call: Call)
    requires UniqueIds(s.jobs) && AllHistoriesOk(s.jobs, s.log)
    ensures AllHistoriesOk(Execute(cron, s.jobs, id, call), s.log[id := LogOf(s.log, id) + [RecordOf(call)]])
  {
    hide ComputeNextRun, RecordOf, Execute, LastN;
    var after, log := Execute(cron, s.jobs, id, call), s.log[id := LogOf(s.log, id) + [RecordOf(call)]];
    ExecuteUnique(cron, s.jobs, id, call);
    forall j | j in after
      ensures HistoryOk(j, log)
    {
      FindUnique(after, j);
      ExecuteFind(cron, s.jobs, id, call, j.id);
      FindPresent(s.jobs, j.id);
      LastNStep(LogOf(s.log, id), RecordOf(call));
    }
  }

  /** Over every run of operations that uses fresh job ids. */
  lemma {:induction false} RunKeepsGood(cron: CronTimes, s: State, ops: seq<Op>)
    requires Good(s) && FreshRun(cron, s, ops)
    ensures Good(Run(cron, s, ops))
    decreases |ops|
  {
    hide Good, Apply;
    if ops == [] {
    } else {
      ApplyKeepsGood(cron, s, ops[0]);
      RunKeepsGood(cron, Apply(cron, s, ops[0]), ops[1..]);
    }
  }

  /** In such a run the live timer always stands at the earliest next run of an enabled job, or at the moment
      of arming when that had passed; and there is a live timer exactly when the service runs and some enabled
      job has a next run. */
  lemma {:induction false} TimerStandsAtEarliestRun(cron: CronTimes, s: State, ops: seq<Op>)
    requires Good(s) && FreshRun(cron, s, ops)
    ensures var s' := Run(cron, s, ops);
      && (s'.timer.Some? <==> s'.running && exists i :: 0 <= i < |s'.jobs| && Scheduled(s'.jobs[i]))
      && (s'.timer.Some? ==>
            && (forall i :: 0 <= i < |s'.jobs| && Scheduled(s'.jobs[i]) ==>
                  s'.timer.value <= Max(s'.jobs[i].nextRun, s'.armedAt))
            && exists i :: 0 <= i < |s'.jobs| && Scheduled(s'.jobs[i])
                 && s'.timer.value == Max(s'.jobs[i].nextRun, s'.armedAt))
  {
    hide Apply, AllHistoriesOk;
    RunKeepsGood(cron, s, ops);
  }

  /* ---------- one-shot jobs ---------- */

  /** Every job with the id is a disabled one-shot. */
  predicate Idle(jobs: seq<Job>, id: string) {
    forall j :: j in jobs && j.id == id ==> j.schedule.kind.At? && !j.enabled
  }

  /** The operation neither re-enables the id nor adds a job with it. */
  predicate LeavesAlone(op: Op, id: string) {
    !(op.Enable? && op.id == id && op.enabled) && !(op.Add? && op.job.id == id)
  }

  lemma {:induction false} ExecuteMembers(cron: CronTimes, jobs: seq<Job>, id: string, c: Call)
    ensures forall j :: j in Execute(cron, jobs, id, c) ==>
      j in jobs || exists o :: o in jobs && o.id == id && AfterRun(cron, o, c) == Some(j)
  {
    hide AfterRun;
    if jobs == [] {
    } else {
      ExecuteMembers(cron, jobs[1..], id, c);
      forall j | j in Execute(cron, jobs, id, c)
        ensures j in jobs || exists o :: o in jobs && o.id == id && AfterRun(cron, o, c) == Some(j)
      {
        if j in Execute(cron, jobs[1..], id, c) {
          assert forall o :: o in jobs[1..] ==> o in jobs;
        } else if jobs[0].id == id {
          assert j in Kept(AfterRun(cron, jobs[0], c));
          assert jobs[0] in jobs;
        }
      }
    }
  }

  lemma {:induction false} ExecuteKeepsIdle(cron: CronTimes, jobs: seq<Job>, id: string, x: string, c: Call)
    requires Idle(jobs, id)
    ensures Idle(Execute(cron, jobs, x, c), id)
  {
    ExecuteMembers(cron, jobs, x, c);
    hide Execute, ComputeNextRun, LastN, RecordOf;
    forall j | j in Execute(cron, jobs, x, c) && j.id == id
      ensures j.schedule.kind.At? && !j.enabled
    {
      if j !in jobs {
        var o :| o in jobs && o.id == x && AfterRun(cron, o, c) == Some(j);
        AfterRunKeepsId(cron, o, c);
      }
    }
  }

  lemma {:induction false} ExecuteAllKeepsIdle(
    cron: CronTimes, jobs: seq<Job>, id: string, ids: seq<string>, calls: nat -> Call)
    requires Idle(jobs, id)
    ensures Idle(ExecuteAll(cron, jobs, ids, calls), id)
    decreases |ids|
  {
    hide Execute, Idle;
    if ids == [] {
    } else {
      var last := |ids| - 1;
      ExecuteAllKeepsIdle(cron, jobs, id, ids[..last], calls);
      ExecuteKeepsIdle(cron, ExecuteAll(cron, jobs, ids[..last], calls), id, ids[last], calls(last));
    }
  }

  lemma {:induction false} ReplaceMembers(jobs: seq<Job>, id: string, j: Job)
    ensures forall x :: x in Replace(jobs, id, j) ==> x == j || x in jobs
  {
    if jobs == [] {
    } else {
      ReplaceMembers(jobs[1..], id, j);
    }
  }

  lemma {:induction false} WithoutMembers(jobs: seq<Job>, id: string)
    ensures forall x :: x in Without(jobs, id) ==> x in jobs
  {
    if jobs == [] {
    } else {
      WithoutMembers(jobs[1..], id);
    }
  }

  lemma {:induction false} ApplyKeepsIdle(cron: CronTimes, s: State, op: Op, id: string)
    requires Idle(s.jobs, id) && LeavesAlone(op, id)
    ensures Idle(Apply(cron, s, op).jobs, id)
  {
    hide Execute, ExecuteAll, ComputeNextRun, Armed, LogAll, DueIds;
    match op {
      case Start(now) =>
        var out := RecomputeAll(cron, s.jobs, now);
        assert forall j :: j in out ==> exists i :: 0 <= i < |s.jobs| && j == Recompute(cron, s.jobs[i], now);
        assert forall i :: 0 <= i < |s.jobs| ==> s.jobs[i] in s.jobs;
      case Tick(now, calls, armed) => ExecuteAllKeepsIdle(cron, s.jobs, id, DueIds(s.jobs, now), calls);
      case Remove(x, now) => WithoutMembers(s.jobs, x);
      case Enable(x, enabled, now) =>
        FindPresent(s.jobs, x);
        if Find(s.jobs, x).Some? {
          ReplaceMembers(s.jobs, x, SetEnabled(cron, Find(s.jobs, x).value, enabled, now));
        }
      case RunNow(x, force, call) => ExecuteKeepsIdle(cron, s.jobs, id, x, call);
      case Stop =>
      case Add(job, zones, now) =>
    }
  }

  /** Once a one-shot has been executed, no operation short of re-enabling it makes it due again, whatever
      else happens and whenever. */
  lemma {:induction false} OneShotStaysIdle(cron: CronTimes, s: State, ops: seq<Op>, id: string)
    requires Idle(s.jobs, id) && forall i :: 0 <= i < |ops| ==> LeavesAlone(ops[i], id)
    ensures Idle(Run(cron, s, ops).jobs, id)
    ensures forall j, now :: j in Run(cron, s, ops).jobs && j.id == id ==> !Due(j, now)
    decreases |ops|
  {
    hide Apply, LeavesAlone;
    if ops == [] {
    } else {
      ApplyKeepsIdle(cron, s, ops[0], id);
      OneShotStaysIdle(cron, Apply(cron, s, ops[0]), ops[1..], id);
    }
  }

  lemma {:induction false} ExecutedOneShotIsIdle(
    cron: CronTimes, jobs: seq<Job>, j: Job, now: int, calls: nat -> Call)
    requires UniqueIds(jobs) && j in jobs && Due(j, now) && j.schedule.kind.At?
    ensures Idle(ExecuteAll(cron, jobs, DueIds(jobs, now), calls), j.id)
  {
    hide ExecuteAll, DueIds;
    var after := ExecuteAll(cron, jobs, DueIds(jobs, now), calls);
    TickRunsDueOnce(cron, jobs, now, calls);
    forall x | x in after && x.id == j.id
      ensures x.schedule.kind.At? && !x.enabled
    {
      FindUnique(after, x);
    }
  }

  /** Starting the service schedules an enabled one-shot exactly when its time still lies ahead: one whose time
      passed while the service was down keeps its place in the list without a next run. */
  lemma {:induction false} StartSchedulesOneShotIff(cron: CronTimes, s: State, now: int, j: Job)
    requires UniqueIds(s.jobs) && j in s.jobs && j.enabled && j.schedule.kind.At?
    ensures var jobs := Apply(cron, s, Start(now)).jobs;
      && HasId(jobs, j.id) && (forall x :: x in jobs && x.id == j.id ==> x.enabled)
      && ((exists x :: x in jobs && x.id == j.id && Scheduled(x)) <==> j.schedule.atMs != 0 && j.schedule.atMs > now)
      && (j.schedule.atMs <= now ==> Missed(jobs, j.id, j.schedule.atMs))
  {
    hide NextWake;
    var i :| 0 <= i < |s.jobs| && s.jobs[i] == j;
    var jobs := RecomputeAll(cron, s.jobs, now);
    assert jobs[i] in jobs && jobs[i].id == j.id;
    assert forall x :: x in jobs && x.id == j.id ==> x == jobs[i];
  }

  /** Jobs with the id are one-shots for `at` or earlier that have no next run. */
  predicate Missed(jobs: seq<Job>, id: string, at: int) {
    forall j :: j in jobs && j.id == id ==> j.schedule.kind.At? && j.schedule.atMs <= at && j.nextRun == 0
  }

  /** The clock has passed `at` whenever the service starts or the job is enabled, and the id is not reused. */
  predicate IsLate(op: Op, id: string, at: int) {
    match op
    case Start(now) => now >= at
    case Enable(x, enabled, now) => x == id && enabled ==> now >= at
    case Add(job, _, _) => job.id != id
    case _ => true
  }

  lemma {:induction false} ExecuteKeepsMissed(
    cron: CronTimes, jobs: seq<Job>, id: string, at: int, x: string, c: Call)
    requires Missed(jobs, id, at)
    ensures Missed(Execute(cron, jobs, x, c), id, at)
  {
    ExecuteMembers(cron, jobs, x, c);
    hide Execute, ComputeNextRun, LastN, RecordOf;
    forall j | j in Execute(cron, jobs, x, c) && j.id == id
      ensures j.schedule.kind.At? && j.schedule.atMs <= at && j.nextRun == 0
    {
      if j !in jobs {
        var o :| o in jobs && o.id == x && AfterRun(cron, o, c) == Some(j);
        AfterRunKeepsId(cron, o, c);
      }
    }
  }

  lemma {:induction false} ExecuteAllKeepsMissed(
    cron: CronTimes, jobs: seq<Job>, id: string, at: int, ids: seq<string>, calls: nat -> Call)
    requires Missed(jobs, id, at)
    ensures Missed(ExecuteAll(cron, jobs, ids, calls), id, at)
    decreases |ids|
  {
    hide Execute, Missed;
    if ids == [] {
    } else {
      var last := |ids| - 1;
      ExecuteAllKeepsMissed(cron, jobs, id, at, ids[..last], calls);
      ExecuteKeepsMissed(cron, ExecuteAll(cron, jobs, ids[..last], calls), id, at, ids[last], calls(last));
    }
  }

  lemma {:induction false} StartKeepsMissed(cron: CronTimes, jobs: seq<Job>, id: string, at: int, now: int)
    requires Missed(jobs, id, at) && now >= at
    ensures Missed(RecomputeAll(cron, jobs, now), id, at)
  {
    var out := RecomputeAll(cron, jobs, now);
    forall j | j in out && j.id == id
      ensures j.schedule.kind.At? && j.schedule.atMs <= at && j.nextRun == 0
    {
      var i :| 0 <= i < |out| && out[i] == j;
      assert jobs[i] in jobs && jobs[i].id == id;
    }
  }

  lemma {:induction false} EnableKeepsMissed(
    cron: CronTimes, jobs: seq<Job>, id: string, at: int, j: Job, enabled: bool, now: int)
    requires Missed(jobs, id, at) && j in jobs && (j.id == id && enabled ==> now >= at)
    ensures Missed(Replace(jobs, j.id, SetEnabled(cron, j, enabled, now)), id, at)
  {
    ReplaceMembers(jobs, j.id, SetEnabled(cron, j, enabled, now));
  }

  lemma {:induction false} ApplyKeepsMissed(cron: CronTimes, s: State, op: Op, id: string, at: int)
    requires Missed(s.jobs, id, at) && IsLate(op, id, at)
    ensures Missed(Apply(cron, s, op).jobs, id, at)
  {
    hide Execute, ExecuteAll, ComputeNextRun, Armed, LogAll, DueIds, Replace, RecomputeAll, Missed;
    match op {
      case Start(now) => StartKeepsMissed(cron, s.jobs, id, at, now);
      case Tick(now, calls, armed) => ExecuteAllKeepsMissed(cron, s.jobs, id, at, DueIds(s.jobs, now), calls);
      case Remove(x, now) => RemoveKeepsMissed(s.jobs, id, at, x);
      case Enable(x, enabled, now) =>
        FindPresent(s.jobs, x);
        if Find(s.jobs, x).Some? {
          EnableKeepsMissed(cron, s.jobs, id, at, Find(s.jobs, x).value, enabled, now);
        }
      case RunNow(x, force, call) => ExecuteKeepsMissed(cron, s.jobs, id, at, x, call);
      case Stop =>
      case Add(job, zones, now) => AddKeepsMissed(s.jobs, id, at, NewJob(cron, job, now));
    }
  }

  lemma {:induction false} RemoveKeepsMissed(jobs: seq<Job>, id: string, at: int, x: string)
    requires Missed(jobs, id, at)
    ensures Missed(Without(jobs, x), id, at)
  {
    WithoutMembers(jobs, x);
  }

  lemma {:induction false} AddKeepsMissed(jobs: seq<Job>, id: string, at: int, j: Job)
    requires Missed(jobs, id, at) && j.id != id
    ensures Missed(jobs + [j], id, at)
  {
  }

  /** A missed one-shot is never due again, over every run of operations whose starts, and whose enabling of it,
      come after its time. */
  lemma {:induction false} MissedIsNeverDue(cron: CronTimes, s: State, ops: seq<Op>, id: string, at: int)
    requires Missed(s.jobs, id, at) && forall i :: 0 <= i < |ops| ==> IsLate(ops[i], id, at)
    ensures var jobs := Run(cron, s, ops).jobs;
      Missed(jobs, id, at) && forall j, now :: j in jobs && j.id == id ==> !Due(j, now)
    decreases |ops|
  {
    hide Apply, IsLate;
    if ops == [] {
    } else {
      ApplyKeepsMissed(cron, s, ops[0], id, at);
      MissedIsNeverDue(cron, Apply(cron, s, ops[0]), ops[1..], id, at);
    }
  }

  /* ---------- the service object ---------- */

  class CronService {
    const cron: CronTimes
    var jobs: seq<Job>
    var running: bool
    var timer: Option<int>
    ghost var armedAt: int
    ghost var log: map<string, seq<RunRecord>>

    constructor (cron: CronTimes, jobs: seq<Job>, ghost log: map<string, seq<RunRecord>>)
      ensures this.cron == cron && Value() == State(jobs, false, None, 0, log)
    {
      this.cron, this.jobs, running, timer := cron, jobs, false, None;
      armedAt, this.log := 0, log;
    }

    ghost function Value(): State
      reads this
    {
      State(jobs, running, timer, armedAt, log)
    }

    method ArmTimer(now: int)
      modifies this`timer, this`armedAt
      ensures Value() == Arm(old(Value()), now)
    {
      var wake := NextWake(jobs);
      timer := if !running || wake == 0 then None else Some(Max(wake, now));
      armedAt := now;
    }

    method StartService(now: int)
      modifies this
      ensures Value() == Apply(cron, old(Value()), Start(now))
    {
      hide NextWake, ComputeNextRun, Recompute;
      running := true;
      var out := [];
      for i := 0 to |jobs|
        invariant out == RecomputeAll(cron, jobs, now)[..i]
        invariant Value() == old(Value()).(running := true)
      {
        out := out + [Recompute(cron, jobs[i], now)];
      }
      jobs := out;
      ArmTimer(now);
    }

    method StopService()
      modifies this
      ensures Value() == Apply(cron, old(Value()), Stop)
    {
      running := false;
      timer := None;
    }

    method ExecuteJob(id: string, c: Call)
      modifies this`jobs, this`log
      ensures Value() == old(Value()).(
        jobs := Execute(cron, old(jobs), id, c), log := old(log)[id := LogOf(old(log), id) + [RecordOf(c)]])
    {
      hide AfterRun, RecordOf, Execute, LogOf;
      var out := [];
      for i := 0 to |jobs|
        invariant Value() == old(Value())
        invariant Execute(cron, jobs, id, c) == out + Execute(cron, jobs[i..], id, c)
      {
        ExecuteFrom(cron, jobs, i, id, c);
        if jobs[i].id == id {
          out := out + Kept(AfterRun(cron, jobs[i], c));
        } else {
          out := out + [jobs[i]];
        }
      }
      ExecuteFrom(cron, jobs, |jobs|, id, c);
      jobs := out;
      log := log[id := LogOf(log, id) + [RecordOf(c)]];
    }

    /** Collect the due jobs, run them one after the other, and arm the timer again. */
    method OnTimer(now: int, calls: nat -> Call, armed: int)
      modifies this
      ensures Value() == Apply(cron, old(Value()), Tick(now, calls, armed))
    {
      hide Execute, Due, RecordOf, ExecuteAll, LogAll, DueIds, LogOf;
      var ids := [];
      DueIdsSnoc(jobs, 0, now);
      for i := 0 to |jobs|
        invariant Value() == old(Value())
        invariant ids == DueIds(jobs[..i], now)
      {
        DueIdsSnoc(jobs, i, now);
        if Due(jobs[i], now) {
          ids := ids + [jobs[i].id];
        }
      }
      assert jobs[..|jobs|] == jobs;
      ExecuteAllSnoc(cron, jobs, log, ids, 0, calls);
      for k := 0 to |ids|
        invariant Value() == old(Value()).(
          jobs := ExecuteAll(cron, old(jobs), ids[..k], calls), log := LogAll(old(log), ids[..k], calls))
      {
        ExecuteAllSnoc(cron, old(jobs), old(log), ids, k, calls);
        ExecuteJob(ids[k], calls(k));
      }
      assert ids[..|ids|] == ids;
      ArmTimer(armed);
    }

    /** A schedule that cannot run is refused before anything changes. */
    method AddJob(job: Job, zones: set<string>, now: int) returns (added: bool)
      modifies this
      ensures added <==> Addable(job.schedule, zones)
      ensures Value() == Apply(cron, old(Value()), Add(job, zones, now))
    {
      added := Addable(job.schedule, zones);
      if !added {
        return;
      }
      jobs := jobs + [NewJob(cron, job, now)];
      log := log[job.id := []];
      ArmTimer(now);
    }

    method RemoveJob(id: string, now: int) returns (removed: bool)
      modifies this
      ensures Value() == Apply(cron, old(Value()), Remove(id, now))
      ensures removed <==> HasId(old(jobs), id)
    {
      hide NextWake;
      FindPresent(jobs, id);
      removed := Find(jobs, id).Some?;
      if removed {
        jobs := Without(jobs, id);
        ArmTimer(now);
      }
    }

    method EnableJob(id: string, enabled: bool, now: int) returns (found: bool)
      modifies this
      ensures Value() == Apply(cron, old(Value()), Enable(id, enabled, now))
      ensures found <==> HasId(old(jobs), id)
    {
      hide NextWake, ComputeNextRun;
      FindPresent(jobs, id);
      match Find(jobs, id) {
        case None => found := false;
        case Some(j) =>
          found := true;
          jobs := Replace(jobs, id, SetEnabled(cron, j, enabled, now));
          ArmTimer(now);
      }
    }

    method RunJob(id: string, force: bool, c: Call) returns (ran: bool)
      modifies this
      ensures Value() == Apply(cron, old(Value()), RunNow(id, force, c))
      ensures ran <==> Find(old(jobs), id).Some? && (force || Find(old(jobs), id).value.enabled)
    {
      hide NextWake, Execute, RecordOf;
      FindPresent(jobs, id);
      match Find(jobs, id) {
        case None => ran := false;
        case Some(j) =>
          if !force && !j.enabled {
            return false;
          }
          ExecuteJob(id, c);
          ArmTimer(c.after);
          ran := true;
      }
    }
  }
}
