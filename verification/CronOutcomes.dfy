/** What each operation of the cron service leaves in the jobs, field by field (nanobot/cron/service.py). */
module CronOutcomes {
  import opened Prelude
  import opened CronSchedule

  /** The next run of a schedule as seen at `now`; 0 when there is none. */
  predicate NextIs(cron: CronTimes, s: Schedule, now: int, next: int) {
    match s.kind
    case At => next == if s.atMs > now && s.atMs != 0 then s.atMs else 0
    case Every => if s.everyMs > 0 then next - now == s.everyMs else next == 0
    case Cron => if s.expr != "" then next == cron(s, now) else next == 0
  }

  lemma {:induction false} NextRunIs(cron: CronTimes, s: Schedule, now: int, next: int)
    ensures next == ComputeNextRun(cron, s, now) <==> NextIs(cron, s, now, next)
  {
  }

  /** At most twenty records, the latest ones. */
  predicate LatestRecords(all: seq<RunRecord>, history: seq<RunRecord>) {
    |history| <= 20 && |history| <= |all| && history == all[|all| - |history|..]
    && (|history| < |all| ==> |history| == 20)
  }

  /** What one run makes of a job: a one-shot is removed or disabled, any other waits for its next time; the
      outcome stands in the job and, as the latest record, in its history. */
  predicate Ran(cron: CronTimes, j: Job, c: Call, out: Option<Job>) {
    var error := if c.ok then "" else c.error;
    if j.schedule.kind.At? && j.deleteAfterRun then out == None
    else
      out.Some? &&
      var o := out.value;
      && o.id == j.id && o.schedule == j.schedule && o.deleteAfterRun == j.deleteAfterRun
      && o.enabled == (j.enabled && !j.schedule.kind.At?)
      && (if j.schedule.kind.At? then o.nextRun == 0 else NextIs(cron, j.schedule, c.after, o.nextRun))
      && o.lastRun == c.start && o.lastOk == c.ok && o.lastError == error && o.updatedAt == c.end
      && LatestRecords(j.history + [RunRecord(c.start, c.ok, c.end - c.start, error)], o.history)
  }

  lemma {:induction false} AfterRunIs(cron: CronTimes, j: Job, c: Call)
    ensures Ran(cron, j, c, AfterRun(cron, j, c))
  {
  }

  /** A tick runs every enabled job whose next run has come, each with its own call, and leaves the others. */
  lemma {:induction false} TickOutcome(
    cron: CronTimes, s: State, now: int, calls: nat -> Call, armed: int, j: Job)
    requires UniqueIds(s.jobs) && j in s.jobs
    ensures var s' := Apply(cron, s, Tick(now, calls, armed));
      if j.enabled && j.nextRun != 0 && j.nextRun <= now then
        exists k :: 0 <= k < |DueIds(s.jobs, now)| && DueIds(s.jobs, now)[k] == j.id
                    && Ran(cron, j, calls(k), Find(s'.jobs, j.id))
      else Find(s'.jobs, j.id) == Some(j)
  {
    TickRunsDueOnce(cron, s.jobs, now, calls);
    hide AfterRun, ExecuteAll, DueIds, Armed, LogAll, Ran;
    if Due(j, now) {
      var k :| 0 <= k < |DueIds(s.jobs, now)| && DueIds(s.jobs, now)[k] == j.id
        && Find(ExecuteAll(cron, s.jobs, DueIds(s.jobs, now), calls), j.id) == AfterRun(cron, j, calls(k));
      AfterRunIs(cron, j, calls(k));
    }
  }

  /** Running a job by hand does the same to it, unless it is disabled and not forced, and nothing to others. */
  lemma {:induction false} RunNowOutcome(
    cron: CronTimes, s: State, id: string, force: bool, c: Call, x: string)
    requires UniqueIds(s.jobs)
    ensures var found, after := Find(s.jobs, x), Find(Apply(cron, s, RunNow(id, force, c)).jobs, x);
      if x == id && found.Some? && (force || found.value.enabled) then Ran(cron, found.value, c, after)
      else after == found
  {
    hide Execute, Armed, Ran, AfterRun;
    ExecuteFind(cron, s.jobs, id, c, x);
    if Find(s.jobs, id).Some? {
      AfterRunIs(cron, Find(s.jobs, id).value, c);
    }
  }

  /** Starting gives every enabled job its next run as seen now, and touches nothing else. */
  lemma {:induction false} StartOutcome(cron: CronTimes, s: State, now: int, i: nat)
    requires i < |s.jobs|
    ensures var s' := Apply(cron, s, Start(now));
      && s'.running && |s'.jobs| == |s.jobs|
      && s'.jobs[i].(nextRun := 0) == s.jobs[i].(nextRun := 0)
      && if s.jobs[i].enabled then NextIs(cron, s.jobs[i].schedule, now, s'.jobs[i].nextRun)
         else s'.jobs[i].nextRun == s.jobs[i].nextRun
  {
    hide Armed, ComputeNextRun, NextIs;
    NextRunIs(cron, s.jobs[i].schedule, now, ComputeNextRun(cron, s.jobs[i].schedule, now));
  }

  /** A new job is refused when it names a time zone without being a cron job, or an unknown one; otherwise it
      is appended, enabled, without a past, with its next run. */
  lemma {:induction false} AddOutcome(cron: CronTimes, s: State, job: Job, zones: set<string>, now: int)
    ensures var s' := Apply(cron, s, Add(job, zones, now));
      if job.schedule.tz != "" && (!job.schedule.kind.Cron? || job.schedule.tz !in zones) then s' == s
      else
        |s'.jobs| == |s.jobs| + 1 && s'.jobs[..|s.jobs|] == s.jobs &&
        var j := s'.jobs[|s.jobs|];
        && j == Job(job.id, true, job.schedule, j.nextRun, 0, false, "", [], job.deleteAfterRun, now)
        && NextIs(cron, job.schedule, now, j.nextRun)
  {
    hide Armed, ComputeNextRun, NextIs;
    NextRunIs(cron, job.schedule, now, ComputeNextRun(cron, job.schedule, now));
  }

  /** Enabling or disabling changes the flag, the time of the change and the next run of that job alone. */
  lemma {:induction false} EnableOutcome(cron: CronTimes, s: State, id: string, enabled: bool, now: int, x: string)
    ensures var found, after := Find(s.jobs, x), Find(Apply(cron, s, Enable(id, enabled, now)).jobs, x);
      if x != id || found.None? then after == found
      else
        after.Some? &&
        var o := after.value;
        && o == found.value.(enabled := enabled, updatedAt := now, nextRun := o.nextRun)
        && if enabled then NextIs(cron, o.schedule, now, o.nextRun) else o.nextRun == 0
  {
    hide Armed, ComputeNextRun, NextIs, Replace, Find;
    var found := Find(s.jobs, id);
    FindPresent(s.jobs, id);
    if found.Some? {
      NextRunIs(cron, found.value.schedule, now, ComputeNextRun(cron, found.value.schedule, now));
      FindReplaced(s.jobs, id, SetEnabled(cron, found.value, enabled, now), x);
    }
  }

  lemma {:induction false} FindReplaced(jobs: seq<Job>, id: string, j: Job, x: string)
    requires j.id == id && Find(jobs, id).Some?
    ensures Find(Replace(jobs, id, j), x) == if x == id then Some(j) else Find(jobs, x)
  {
    if jobs[0].id != id {
      FindReplaced(jobs[1..], id, j, x);
      assert ([jobs[0]] + Replace(jobs[1..], id, j))[1..] == Replace(jobs[1..], id, j);
    } else {
      assert ([j] + jobs[1..])[1..] == jobs[1..];
    }
  }

  /** Removing an id takes away the jobs with it and keeps the others in order. */
  lemma {:induction false} RemoveOutcome(cron: CronTimes, s: State, id: string, now: int)
    ensures Apply(cron, s, Remove(id, now)).jobs == FlatMap((j: Job) => if j.id == id then [] else [j], s.jobs)
  {
    hide Armed, FlatMap, Find, Without;
    FindPresent(s.jobs, id);
    WithoutIsFilter(s.jobs, id);
    if Find(s.jobs, id).None? {
      NothingWithout(s.jobs, id);
    }
  }

  lemma {:induction false} WithoutIsFilter(jobs: seq<Job>, id: string)
    ensures Without(jobs, id) == FlatMap((j: Job) => if j.id == id then [] else [j], jobs)
  {
    if jobs != [] {
      WithoutIsFilter(jobs[1..], id);
    }
  }

  lemma {:induction false} NothingWithout(jobs: seq<Job>, id: string)
    requires !HasId(jobs, id)
    ensures Without(jobs, id) == jobs
  {
    if jobs != [] {
      HasIdCons(jobs, id);
      NothingWithout(jobs[1..], id);
    }
  }

  /** When the timer is armed: at the time of every operation that changed something, and after the callback of a
      run; stopping and refused operations leave it. */
  lemma {:induction false} ArmedWhen(cron: CronTimes, s: State, op: Op)
    ensures Apply(cron, s, op).armedAt ==
      match op
      case Start(now) => now
      case Stop => s.armedAt
      case Tick(_, _, armed) => armed
      case Add(job, zones, now) =>
        if job.schedule.tz == "" || (job.schedule.kind.Cron? && job.schedule.tz in zones) then now else s.armedAt
      case Remove(id, now) => if HasId(s.jobs, id) then now else s.armedAt
      case Enable(id, _, now) => if HasId(s.jobs, id) then now else s.armedAt
      case RunNow(id, force, call) => (
        match Find(s.jobs, id)
        case Some(j) => if force || j.enabled then call.after else s.armedAt
        case None => s.armedAt)
  {
    hide Execute, ExecuteAll, LogAll, DueIds, Armed, Find, HasId, Without, Replace, ComputeNextRun;
    match op {
      case Remove(id, now) => FindPresent(s.jobs, id);
      case Enable(id, enabled, now) => FindPresent(s.jobs, id);
      case _ =>
    }
  }
}
