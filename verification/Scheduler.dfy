/**
 * The job scheduler (internal/scheduler/store.go) as transactions on three tables. Times are integers; ids are
 * numbers in the order of their text; a lease is filed under its job, which is the table's primary key.
 */
module Scheduler {
  import opened Text

  type Id = nat

  datatype Policy = Skip | CatchUp | RunOnce
  datatype JobStatus = Active | Paused | Archived
  datatype RunStatus = Claimed | TaskCreated | Completed | Failed | TimedOut | Cancelled

  datatype Job = Job(
    key: string, interval: int, nextRun: int, maxRetries: int, backoff: int, policy: Policy, status: JobStatus,
    retryAttempt: int, retryAt: Option<int>, retryOrigin: Option<int>)

  datatype JobRun = JobRun(job: Id, key: string, scheduledAt: int, attempt: int, status: RunStatus)
  {
    /** task_request_key: the key of one delivery. */
    function DeliveryKey(): (string, int, int) {
      (key, scheduledAt, attempt)
    }

    /** core_task_key: the key under which Core deduplicates all attempts of an occurrence. */
    function CoreKey(): (string, int) {
      (key, scheduledAt)
    }
  }

  datatype Lease = Lease(run: Id, lease: Id, expires: int)

  datatype Db = Db(jobs: map<Id, Job>, runs: map<Id, JobRun>, leases: map<Id, Lease>)

  // ----- next occurrence -----

  /** The first of next, next + interval, next + 2 * interval, ... that lies strictly after now. */
  function FirstAfter(next: int, now: int, interval: int): (r: int)
    requires interval > 0
    ensures r > now && r >= next
    decreases now - next
  {
    if next > now then next else FirstAfter(next + interval, now, interval)
  }

  /** The k-th occurrence counted from start. */
  function Nth(start: int, interval: int, k: nat): int {
    start + interval * k
  }

  lemma {:induction false} NthStep(start: int, interval: int, k: nat)
    ensures Nth(start, interval, 0) == start
    ensures Nth(start, interval, k + 1) == Nth(start, interval, k) + interval
    ensures Nth(start + interval, interval, k) == Nth(start, interval, k + 1)
  {
  }

  function NextRun(scheduledAt: int, now: int, interval: int, policy: Policy): int
    requires interval > 0
  {
    match policy
    case CatchUp => scheduledAt + interval
    case Skip => FirstAfter(scheduledAt + interval, now, interval)
    case RunOnce => if scheduledAt + interval < now then now + interval else scheduledAt + interval
  }

  /** It is an occurrence, and every earlier one lies at or before now. */
  lemma {:induction false} FirstAfterIsLeast(next: int, now: int, interval: int) returns (k: nat)
    requires interval > 0
    ensures FirstAfter(next, now, interval) == Nth(next, interval, k) > now
    ensures forall m: nat | m < k :: Nth(next, interval, m) <= now
    decreases now - next
  {
    hide Nth;
    NthStep(next, interval, 0);
    if next > now {
      k := 0;
    } else {
      var n := FirstAfterIsLeast(next + interval, now, interval);
      NthStep(next, interval, n);
      k := n + 1;
      forall m: nat | m < k ensures Nth(next, interval, m) <= now {
        if m > 0 {
          NthStep(next, interval, m - 1);
        }
      }
    }
  }

  method AdvanceNextRun(scheduledAt: int, now: int, interval: int, policy: Policy) returns (next: int)
    requires interval > 0
    ensures next == NextRun(scheduledAt, now, interval, policy)
  {
    next := scheduledAt + interval;
    match policy {
      case CatchUp =>
        return;
      case Skip =>
        while next <= now
          invariant FirstAfter(scheduledAt + interval, now, interval) == FirstAfter(next, now, interval)
          decreases now - next
        {
          next := next + interval;
        }
      case RunOnce =>
        if next < now {
          return now + interval;
        }
    }
  }

  /** Whatever the policy and the clock, the next occurrence lies after the one just claimed. */
  lemma {:induction false} NextRunAdvances(scheduledAt: int, now: int, interval: int, policy: Policy)
    requires interval > 0
    ensures NextRun(scheduledAt, now, interval, policy) > scheduledAt
    ensures policy == Skip ==> NextRun(scheduledAt, now, interval, policy) > now
    ensures policy == RunOnce ==> NextRun(scheduledAt, now, interval, policy) >= now
  {
  }

  /** Under skip the next occurrence is the least later multiple of the interval strictly after now. */
  lemma {:induction false} SkipIsLeast(scheduledAt: int, now: int, interval: int) returns (k: nat)
    requires interval > 0
    ensures k >= 1 && NextRun(scheduledAt, now, interval, Skip) == Nth(scheduledAt, interval, k) > now
    ensures forall m: nat | 1 <= m < k :: Nth(scheduledAt, interval, m) <= now
  {
    hide Nth;
    var n := FirstAfterIsLeast(scheduledAt + interval, now, interval);
    k := n + 1;
    NthStep(scheduledAt, interval, n);
    forall m: nat | 1 <= m < k ensures Nth(scheduledAt, interval, m) <= now {
      NthStep(scheduledAt, interval, m - 1);
    }
  }

  // ----- the transactions -----

  datatype CreateRequest = CreateRequest(
    key: string, interval: int, nextRun: int, maxRetries: int, backoff: int, policy: Policy)

  predicate ValidRequest(q: CreateRequest) {
    Trim(q.key) != "" && q.interval > 0 && q.maxRetries >= 0 && q.backoff >= 0
  }

  function NewJob(q: CreateRequest): Job {
    Job(Trim(q.key), q.interval, q.nextRun, q.maxRetries, if q.backoff == 0 then 30 else q.backoff, q.policy,
        Active, 0, None, None)
  }

  predicate KeyTaken(db: Db, key: string) {
    exists j | j in db.jobs :: db.jobs[j].key == key
  }

  /** Create: a taken key leaves the tables alone (the caller gets the job that has it). */
  function Created(db: Db, q: CreateRequest, id: Id): Db {
    if !ValidRequest(q) || KeyTaken(db, Trim(q.key)) then db else db.(jobs := db.jobs[id := NewJob(q)])
  }

  /** What a failed or expired run does to its job. */
  function Retried(job: Job, run: JobRun, now: int): Job {
    if run.attempt <= job.maxRetries then
      job.(retryAttempt := run.attempt, retryAt := Some(now + job.backoff * run.attempt),
          retryOrigin := Some(run.scheduledAt))
    else job.(retryAttempt := 0, retryAt := None, retryOrigin := None)
  }

  /** The lease of job j has run out on a run that is still claimed. */
  predicate Expired(db: Db, j: Id, now: int) {
    j in db.leases && db.leases[j].expires <= now
  }

  predicate ExpiredRun(db: Db, j: Id, now: int) {
    Expired(db, j, now) && db.leases[j].run in db.runs && db.runs[db.leases[j].run].status == Claimed && j in db.jobs
  }

  function ExpireLeases(db: Db, now: int): Db {
    Db(map j | j in db.jobs ::
         if ExpiredRun(db, j, now) then Retried(db.jobs[j], db.runs[db.leases[j].run], now) else db.jobs[j],
       map r | r in db.runs ::
         if ExpiredRun(db, db.runs[r].job, now) && db.leases[db.runs[r].job].run == r
         then db.runs[r].(status := TimedOut) else db.runs[r],
       map j | j in db.leases && !Expired(db, j, now) :: db.leases[j])
  }

  function DueTime(job: Job): int {
    if job.retryAt.Some? then job.retryAt.value else job.nextRun
  }

  predicate Due(db: Db, j: Id, now: int) {
    j in db.jobs && db.jobs[j].status == Active && DueTime(db.jobs[j]) <= now && j !in db.leases
  }

  predicate Before(db: Db, a: Id, b: Id)
    requires a in db.jobs && b in db.jobs
  {
    DueTime(db.jobs[a]) < DueTime(db.jobs[b]) || (DueTime(db.jobs[a]) == DueTime(db.jobs[b]) && a < b)
  }

  /** The due jobs, earliest first, no more than the limit. */
  predicate DuePick(db: Db, now: int, limit: int, pick: seq<Id>) {
    && |pick| <= limit
    && (forall i | 0 <= i < |pick| :: Due(db, pick[i], now))
    && (forall i, k | 0 <= i < k < |pick| :: Before(db, pick[i], pick[k]))
    && (forall j | j in db.jobs && Due(db, j, now) && j !in pick ::
          |pick| == limit && forall i | 0 <= i < |pick| :: Before(db, pick[i], j))
  }

  function Occurrence(job: Job): int {
    if job.retryAttempt > 0 && job.retryOrigin.Some? then job.retryOrigin.value else job.nextRun
  }

  function Claim(db: Db, j: Id): JobRun
    requires j in db.jobs
  {
    JobRun(j, db.jobs[j].key, Occurrence(db.jobs[j]), db.jobs[j].retryAttempt + 1, Claimed)
  }

  /** The unique index on task_request_key would refuse the row. */
  predicate Delivered(db: Db, key: (string, int, int)) {
    exists r | r in db.runs :: db.runs[r].DeliveryKey() == key
  }

  function ClaimedJob(job: Job, now: int): Job
    requires job.interval > 0
  {
    if job.retryAttempt > 0 then job.(retryAt := None)
    else job.(nextRun := NextRun(Occurrence(job), now, job.interval, job.policy))
  }

  function ClaimOne(db: Db, j: Id, now: int, expires: int, run: Id, lease: Id): Db
    requires j in db.jobs && db.jobs[j].interval > 0
  {
    if Delivered(db, Claim(db, j).DeliveryKey()) then db else
      Db(db.jobs[j := ClaimedJob(db.jobs[j], now)], db.runs[run := Claim(db, j)],
         db.leases[j := Lease(run, lease, expires)])
  }

  /** Ids as newID makes them: unused, and different from each other. */
  predicate FreshIds(db: Db, ids: seq<(Id, Id)>) {
    && (forall i | 0 <= i < |ids| :: ids[i].0 !in db.runs)
    && (forall i, k | 0 <= i < k < |ids| :: ids[i].0 != ids[k].0)
  }

  function ClaimAll(db: Db, pick: seq<Id>, now: int, expires: int, ids: seq<(Id, Id)>): Db
    requires |ids| == |pick| && forall j | j in pick :: j in db.jobs && db.jobs[j].interval > 0
    decreases |pick|
  {
    if pick == [] then db else
      var next := ClaimOne(db, pick[0], now, expires, ids[0].0, ids[0].1);
      ClaimAll(next, pick[1..], now, expires, ids[1..])
  }

  /** The runs handed out, in order. */
  function ClaimTasks(db: Db, pick: seq<Id>, now: int, expires: int, ids: seq<(Id, Id)>): seq<JobRun>
    requires |ids| == |pick| && forall j | j in pick :: j in db.jobs && db.jobs[j].interval > 0
    decreases |pick|
  {
    if pick == [] then [] else
      var next := ClaimOne(db, pick[0], now, expires, ids[0].0, ids[0].1);
      (if Delivered(db, Claim(db, pick[0]).DeliveryKey()) then [] else [Claim(db, pick[0])]) +
      ClaimTasks(next, pick[1..], now, expires, ids[1..])
  }

  function ClaimLimit(limit: int): int {
    if limit <= 0 || limit > 100 then 10 else limit
  }

  function LeaseSeconds(seconds: int): int {
    if seconds <= 0 || seconds > 3600 then 60 else seconds
  }

  predicate Holds(db: Db, run: Id, lease: Id) {
    run in db.runs && db.runs[run].job in db.jobs && db.runs[run].job in db.leases &&
    db.leases[db.runs[run].job].run == run && db.leases[db.runs[run].job].lease == lease
  }

  function AckedJob(job: Job, run: JobRun, status: RunStatus, now: int): Job {
    match status
    case TaskCreated => job.(retryAttempt := 0, retryAt := None, retryOrigin := None)
    case Failed => Retried(job, run, now)
    case TimedOut => Retried(job, run, now)
    case _ => job.(retryAttempt := 0)
  }

  /** Acknowledge by the holder of the lease; anything else changes nothing. */
  function Acknowledged(db: Db, run: Id, lease: Id, coreTask: string, status: RunStatus, now: int): Db {
    if status == Claimed || !Holds(db, run, lease) || (status == TaskCreated && Trim(coreTask) == "") then db else
      var j := db.runs[run].job;
      Db(db.jobs[j := AckedJob(db.jobs[j], db.runs[run], status, now)],
         db.runs[run := db.runs[run].(status := status)],
         db.leases - {j})
  }

  function Changed(db: Db, j: Id, status: JobStatus): Db {
    if j !in db.jobs || db.jobs[j].status == Archived then db
    else db.(jobs := db.jobs[j := db.jobs[j].(status := status)])
  }
}
