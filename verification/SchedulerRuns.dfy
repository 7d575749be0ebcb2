/** What holds in every reachable state of the scheduler, and over whole runs of its transactions. */
module SchedulerRuns {
  import opened Text
  import opened Scheduler

  predicate EarlierClaim(a: JobRun, b: JobRun) {
    a.scheduledAt < b.scheduledAt || (a.scheduledAt == b.scheduledAt && a.attempt < b.attempt)
  }

  // ----- the invariant -----

  /** Settings, and a retry only with an origin and within the allowed number. */
  predicate JobFine(job: Job) {
    && job.interval > 0 && job.maxRetries >= 0
    && 0 <= job.retryAttempt <= job.maxRetries
    && (job.retryAttempt > 0 ==> job.retryOrigin.Some?)
  }

  /** retry_at is set exactly for a job that waits for a retry, which a leased job never does. */
  predicate RetryFine(db: Db, j: Id)
    requires j in db.jobs
  {
    if j in db.leases then db.jobs[j].retryAt.None? else (db.jobs[j].retryAt.Some? <==> db.jobs[j].retryAttempt > 0)
  }

  predicate LeaseFine(db: Db, j: Id)
    requires j in db.leases
  {
    j in db.jobs && db.leases[j].run in db.runs && db.runs[db.leases[j].run].job == j &&
    db.runs[db.leases[j].run].status == Claimed
  }

  predicate RunFine(db: Db, r: Id)
    requires r in db.runs
  {
    var run := db.runs[r];
    && run.job in db.jobs && run.key == db.jobs[run.job].key
    && 1 <= run.attempt <= db.jobs[run.job].maxRetries + 1
    && run.scheduledAt < db.jobs[run.job].nextRun
    && (run.status == Claimed ==> run.job in db.leases && db.leases[run.job].run == r)
  }

  /** No run of a job comes after its leased run, nor, without a lease, at or after its next claim. */
  predicate RunPlaced(db: Db, r: Id)
    requires r in db.runs
  {
    var run := db.runs[r];
    if run.job in db.leases then
      var leased := db.leases[run.job].run;
      leased == r || (leased in db.runs && EarlierClaim(run, db.runs[leased]))
    else run.job in db.jobs && EarlierClaim(run, Claim(db, run.job))
  }

  /** A job that waits for a retry has the failed attempt on record. */
  ghost predicate RetryOnRecord(db: Db, j: Id)
    requires j in db.jobs
  {
    j !in db.leases && db.jobs[j].retryAttempt > 0 ==>
      exists r :: r in db.runs && IsAttempt(db.runs[r], j, db.jobs[j].retryOrigin, db.jobs[j].retryAttempt)
  }

  predicate IsAttempt(run: JobRun, j: Id, scheduledAt: Option<int>, attempt: int) {
    run.job == j && Some(run.scheduledAt) == scheduledAt && run.attempt == attempt
  }

  ghost predicate Inv(db: Db) {
    && (forall j | j in db.jobs :: JobFine(db.jobs[j]) && RetryFine(db, j) && RetryOnRecord(db, j))
    && (forall j | j in db.leases :: LeaseFine(db, j))
    && (forall r | r in db.runs :: RunFine(db, r) && RunPlaced(db, r))
    && (forall i, j | i in db.jobs && j in db.jobs && db.jobs[i].key == db.jobs[j].key :: i == j)
  }

  lemma {:induction false} EmptyIsFine()
    ensures Inv(Db(map[], map[], map[]))
  {
  }

  /**
   * In every state that satisfies the invariant: a lease exists exactly when its run is claimed, retry_at is set only
   * without a lease and then stands for an allowed retry, and no attempt exceeds max_retries + 1.
   */
  lemma {:induction false} LeaseAndRetry(db: Db)
    requires Inv(db)
    ensures forall r | r in db.runs ::
              db.runs[r].status == Claimed <==> exists j :: j in db.leases && db.leases[j].run == r
    ensures forall j | j in db.jobs && db.jobs[j].retryAt.Some? ::
              j !in db.leases && 1 <= db.jobs[j].retryAttempt <= db.jobs[j].maxRetries
    ensures forall r | r in db.runs ::
              db.runs[r].job in db.jobs && db.runs[r].attempt <= db.jobs[db.runs[r].job].maxRetries + 1
  {
    forall r | r in db.runs
      ensures db.runs[r].status == Claimed <==> exists j :: j in db.leases && db.leases[j].run == r
    {
      assert RunFine(db, r);
      if db.runs[r].status == Claimed {
        assert db.runs[r].job in db.leases;
      }
      forall j | j in db.leases && db.leases[j].run == r ensures db.runs[r].status == Claimed {
        assert LeaseFine(db, j);
      }
    }
  }

  // ----- each transaction keeps it -----

  /** The job's row may have changed its status; its lease and the leased run have not changed. */
  predicate JobCarries(db: Db, after: Db, j: Id) {
    && j in db.jobs && j in after.jobs && after.jobs[j] == db.jobs[j].(status := after.jobs[j].status)
    && (j in db.leases <==> j in after.leases)
    && (j in db.leases ==> after.leases[j] == db.leases[j])
    && (forall r | r in db.runs && db.runs[r].job == j :: r in after.runs && after.runs[r] == db.runs[r])
  }

  lemma {:induction false} CarriedRun(db: Db, after: Db, r: Id)
    requires Inv(db) && r in db.runs && JobCarries(db, after, db.runs[r].job)
    ensures r in after.runs && RunFine(after, r) && RunPlaced(after, r)
  {
    hide JobFine, RetryFine, RetryOnRecord;
    var j := db.runs[r].job;
    assert RunFine(db, r) && RunPlaced(db, r);
    if j in db.leases {
      assert LeaseFine(db, j);
    }
  }

  lemma {:induction false} CarriedJob(db: Db, after: Db, j: Id)
    requires Inv(db) && JobCarries(db, after, j)
    ensures JobFine(after.jobs[j]) && RetryFine(after, j) && RetryOnRecord(after, j)
    ensures j in after.leases ==> LeaseFine(after, j)
  {
    hide RunFine, RunPlaced;
    assert JobFine(db.jobs[j]) && RetryFine(db, j) && RetryOnRecord(db, j);
    if j in db.leases {
      assert LeaseFine(db, j);
    } else if db.jobs[j].retryAttempt > 0 {
      var r :| r in db.runs && IsAttempt(db.runs[r], j, db.jobs[j].retryOrigin, db.jobs[j].retryAttempt);
      assert r in after.runs && IsAttempt(after.runs[r], j, after.jobs[j].retryOrigin, after.jobs[j].retryAttempt);
    }
  }

  lemma {:induction false} LeasedIsJob(db: Db, j: Id)
    requires Inv(db) && j in db.leases
    ensures j in db.jobs
  {
    assert LeaseFine(db, j);
  }

  lemma {:induction false} RunHasJob(db: Db, r: Id)
    requires Inv(db) && r in db.runs
    ensures db.runs[r].job in db.jobs
  {
    assert RunFine(db, r);
  }

  lemma {:induction false} CreateKeeps(db: Db, q: CreateRequest, id: Id)
    requires Inv(db) && id !in db.jobs
    ensures Inv(Created(db, q, id))
  {
    hide Trim, JobFine, RetryFine, RetryOnRecord, RunFine, RunPlaced, LeaseFine;
    var after := Created(db, q, id);
    if after != db {
      forall j | j in db.leases ensures j != id {
        LeasedIsJob(db, j);
      }
      forall r | r in db.runs ensures db.runs[r].job != id && db.runs[r].job in db.jobs {
        RunHasJob(db, r);
      }
      forall r | r in after.runs ensures RunFine(after, r) && RunPlaced(after, r) {
        CarriedRun(db, after, r);
      }
      forall j | j in after.leases ensures LeaseFine(after, j) {
        LeasedIsJob(db, j);
        CarriedJob(db, after, j);
      }
      forall j | j in after.jobs ensures JobFine(after.jobs[j]) && RetryFine(after, j) && RetryOnRecord(after, j) {
        if j == id {
          NewJobFine(after, q, id);
        } else {
          CarriedJob(db, after, j);
        }
      }
    }
  }

  lemma {:induction false} NewJobFine(db: Db, q: CreateRequest, j: Id)
    requires ValidRequest(q) && j in db.jobs && db.jobs[j] == NewJob(q) && j !in db.leases
    ensures JobFine(db.jobs[j]) && RetryFine(db, j) && RetryOnRecord(db, j)
  {
    hide Trim;
  }

  lemma {:induction false} ChangeKeeps(db: Db, id: Id, status: JobStatus)
    requires Inv(db)
    ensures Inv(Changed(db, id, status))
  {
    hide JobFine, RetryFine, RetryOnRecord, RunFine, RunPlaced, LeaseFine;
    var after := Changed(db, id, status);
    forall j | j in after.leases ensures LeaseFine(after, j) {
      LeasedIsJob(db, j);
      CarriedJob(db, after, j);
    }
    forall r | r in after.runs ensures RunFine(after, r) && RunPlaced(after, r) {
      RunHasJob(db, r);
      CarriedRun(db, after, r);
    }
    forall j | j in after.jobs ensures JobFine(after.jobs[j]) && RetryFine(after, j) && RetryOnRecord(after, j) {
      CarriedJob(db, after, j);
    }
  }

  /** The end of a claimed run: the lease goes, the run gets its status, the job is retried, reset or left. */
  predicate EndsRun(before: Job, run: JobRun, after: Job) {
    && after.key == before.key && after.interval == before.interval && after.maxRetries == before.maxRetries
    && after.nextRun == before.nextRun
    && (if after.retryAttempt == 0 then after.retryAt.None?
        else after.retryAttempt == run.attempt <= before.maxRetries && after.retryAt.Some? &&
             after.retryOrigin == Some(run.scheduledAt))
  }

  lemma {:induction false} RetriedEnds(job: Job, run: JobRun, now: int)
    requires run.attempt >= 1
    ensures EndsRun(job, run, Retried(job, run, now))
  {
    hide Text.Trim;
  }

  lemma {:induction false} AckEnds(job: Job, run: JobRun, status: RunStatus, now: int)
    requires run.attempt >= 1 && job.retryAt.None? && status != Claimed
    ensures EndsRun(job, run, AckedJob(job, run, status, now))
  {
    RetriedEnds(job, run, now);
  }

  /** Both expiry and acknowledgement end a set of leased runs, and change nothing else. */
  predicate Ends(db: Db, after: Db, ended: set<Id>) {
    && after.jobs.Keys == db.jobs.Keys && after.runs.Keys == db.runs.Keys
    && ended <= db.leases.Keys && after.leases.Keys == db.leases.Keys - ended
    && (forall j | j in after.leases :: after.leases[j] == db.leases[j])
    && (forall j | j in db.jobs && j !in ended :: after.jobs[j] == db.jobs[j])
    && (forall r | r in db.runs :: after.runs[r] == db.runs[r].(status := after.runs[r].status))
    && (forall r | r in db.runs && !(db.runs[r].job in ended && db.leases[db.runs[r].job].run == r) ::
        after.runs[r] == db.runs[r])
    && (forall j | j in ended && j in db.jobs && db.leases[j].run in db.runs ::
          after.runs[db.leases[j].run].status != Claimed
              && EndsRun(db.jobs[j], db.runs[db.leases[j].run], after.jobs[j]))
  }

  lemma {:induction false} EndsJobFine(db: Db, after: Db, ended: set<Id>, j: Id)
    requires Inv(db) && Ends(db, after, ended) && j in after.jobs
    ensures JobFine(after.jobs[j]) && RetryFine(after, j) && RetryOnRecord(after, j)
  {
    EndsRetryOnRecord(db, after, ended, j);
    hide RetryOnRecord, RunPlaced;
    assert JobFine(db.jobs[j]) && RetryFine(db, j);
    if j in ended {
      assert LeaseFine(db, j);
      assert RunFine(db, db.leases[j].run);
    }
  }

  lemma {:induction false} EndsRetryOnRecord(db: Db, after: Db, ended: set<Id>, j: Id)
    requires Inv(db) && Ends(db, after, ended) && j in after.jobs
    ensures RetryOnRecord(after, j)
  {
    hide JobFine, RetryFine, RunPlaced;
    if j in ended {
      assert LeaseFine(db, j);
      var r := db.leases[j].run;
      assert RunFine(db, r);
      if after.jobs[j].retryAttempt > 0 {
        assert r in after.runs && IsAttempt(after.runs[r], j, after.jobs[j].retryOrigin, after.jobs[j].retryAttempt);
      }
    } else if j !in db.leases && db.jobs[j].retryAttempt > 0 {
      assert RetryOnRecord(db, j);
      var r :| r in db.runs && IsAttempt(db.runs[r], j, db.jobs[j].retryOrigin, db.jobs[j].retryAttempt);
      assert r in after.runs && IsAttempt(after.runs[r], j, after.jobs[j].retryOrigin, after.jobs[j].retryAttempt);
    }
  }

  lemma {:induction false} EndsLeaseFine(db: Db, after: Db, ended: set<Id>, j: Id)
    requires Inv(db) && Ends(db, after, ended) && j in after.leases
    ensures LeaseFine(after, j)
  {
    assert LeaseFine(db, j);
  }

  lemma {:induction false} EndsRunFine(db: Db, after: Db, ended: set<Id>, r: Id)
    requires Inv(db) && Ends(db, after, ended) && r in after.runs
    ensures RunFine(after, r)
  {
    hide RunPlaced, RetryOnRecord, JobFine, RetryFine;
    var j := db.runs[r].job;
    assert RunFine(db, r);
    if j in ended {
      assert LeaseFine(db, j);
    }
  }

  lemma {:induction false} EndedRunPlaced(db: Db, after: Db, ended: set<Id>, r: Id)
    requires Inv(db) && Ends(db, after, ended) && r in db.runs && db.runs[r].job in ended
    ensures r in after.runs && RunPlaced(after, r)
  {
    var j := db.runs[r].job;
    LeasedRun(db, j);
    assert RunFine(db, r) && RunPlaced(db, r);
    hide Inv, RetryFine, RetryOnRecord, JobFine;
    var leased := db.leases[j].run;
    assert EndsRun(db.jobs[j], db.runs[leased], after.jobs[j]);
    assert EarlierClaim(db.runs[leased], Claim(after, j));
  }

  lemma {:induction false} OtherRunPlaced(db: Db, after: Db, ended: set<Id>, r: Id)
    requires Inv(db) && Ends(db, after, ended) && r in db.runs && db.runs[r].job !in ended
    ensures r in after.runs && RunPlaced(after, r)
  {
    assert RunFine(db, r) && RunPlaced(db, r);
    hide Inv, RetryFine, RetryOnRecord, JobFine, EndsRun, LeaseFine;
  }

  lemma {:induction false} EndsSameRuns(db: Db, after: Db, ended: set<Id>)
    requires Ends(db, after, ended)
    ensures after.runs.Keys == db.runs.Keys
  {
  }

  lemma {:induction false} EndsKeeps(db: Db, after: Db, ended: set<Id>)
    requires Inv(db) && Ends(db, after, ended)
    ensures Inv(after)
  {
    hide LeaseFine, JobFine, RetryFine, RetryOnRecord, EndsRun, RunPlaced, RunFine, Ends;
    forall j | j in after.leases ensures LeaseFine(after, j) {
      EndsLeaseFine(db, after, ended, j);
    }
    forall j | j in after.jobs ensures JobFine(after.jobs[j]) && RetryFine(after, j) && RetryOnRecord(after, j) {
      EndsJobFine(db, after, ended, j);
    }
    assert after.runs.Keys == db.runs.Keys by {
      EndsSameRuns(db, after, ended);
    }
    forall r | r in after.runs ensures RunFine(after, r) && RunPlaced(after, r) {
      EndsRunFine(db, after, ended, r);
      if db.runs[r].job in ended {
        EndedRunPlaced(db, after, ended, r);
      } else {
        OtherRunPlaced(db, after, ended, r);
      }
    }
    forall i, j | i in after.jobs && j in after.jobs && after.jobs[i].key == after.jobs[j].key ensures i == j {
      EndsKey(db, after, ended, i);
      EndsKey(db, after, ended, j);
    }
  }

  lemma {:induction false} EndsKey(db: Db, after: Db, ended: set<Id>, j: Id)
    requires Inv(db) && Ends(db, after, ended) && j in after.jobs
    ensures j in db.jobs && after.jobs[j].key == db.jobs[j].key
  {
    if j in ended {
      assert LeaseFine(db, j);
    }
  }

  lemma {:induction false} LeasedRun(db: Db, j: Id)
    requires Inv(db) && j in db.leases
    ensures LeaseFine(db, j) && RunFine(db, db.leases[j].run) && RetryFine(db, j)
  {
    assert LeaseFine(db, j);
  }

  lemma {:induction false} ExpireEnds(db: Db, now: int)
    requires Inv(db)
    ensures Ends(db, ExpireLeases(db, now), set j | j in db.leases && Expired(db, j, now))
  {
    hide Retried, RunPlaced, RetryOnRecord, JobFine, RetryFine, RunFine, Inv, EndsRun;
    var ended := set j | j in db.leases && Expired(db, j, now);
    var after := ExpireLeases(db, now);
    forall j | j in ended
      ensures ExpiredRun(db, j, now) && EndsRun(db.jobs[j], db.runs[db.leases[j].run], after.jobs[j])
      ensures after.runs[db.leases[j].run].status == TimedOut
    {
      LeasedRun(db, j);
      RetriedEnds(db.jobs[j], db.runs[db.leases[j].run], now) by {
        AttemptPositive(db, db.leases[j].run);
      }
    }
    assert after.leases.Keys == db.leases.Keys - ended;
  }

  lemma {:induction false} AttemptPositive(db: Db, r: Id)
    requires Inv(db) && r in db.runs
    ensures db.runs[r].attempt >= 1
  {
    assert RunFine(db, r);
  }

  lemma {:induction false} AckEndsOne(db: Db, run: Id, lease: Id, coreTask: string, status: RunStatus, now: int)
    requires Inv(db) && Acknowledged(db, run, lease, coreTask, status, now) != db
    ensures run in db.runs && Ends(db, Acknowledged(db, run, lease, coreTask, status, now), {db.runs[run].job})
  {
    hide AckedJob, RunPlaced, RetryOnRecord, Trim, JobFine, RunFine, Inv, EndsRun;
    var j := db.runs[run].job;
    LeasedRun(db, j);
    AttemptPositive(db, run);
    AckEnds(db.jobs[j], db.runs[run], status, now);
  }

  /** A claim of a due job is later than all its runs, is not refused, and keeps the invariant. */
  lemma {:induction false} ClaimIsLater(db: Db, j: Id, r: Id)
    requires Inv(db) && j in db.jobs && j !in db.leases && r in db.runs && db.runs[r].job == j
    ensures EarlierClaim(db.runs[r], Claim(db, j))
  {
    assert RunFine(db, r) && RunPlaced(db, r);
  }

  lemma {:induction false} ClaimNotDelivered(db: Db, j: Id)
    requires Inv(db) && j in db.jobs && j !in db.leases
    ensures !Delivered(db, Claim(db, j).DeliveryKey())
  {
    forall r | r in db.runs ensures db.runs[r].DeliveryKey() != Claim(db, j).DeliveryKey() {
      assert RunFine(db, r);
      if db.runs[r].job == j {
        ClaimIsLater(db, j, r);
      }
    }
  }

  /** The claimed occurrence is due before the job's next one afterwards. */
  lemma {:induction false} ClaimBeforeNext(db: Db, j: Id, now: int)
    requires Inv(db) && j in db.jobs && j !in db.leases
    ensures JobFine(db.jobs[j])
    ensures Claim(db, j).scheduledAt < ClaimedJob(db.jobs[j], now).nextRun
    ensures db.jobs[j].nextRun <= ClaimedJob(db.jobs[j], now).nextRun
  {
    var job := db.jobs[j];
    assert JobFine(job);
    if job.retryAttempt > 0 {
      assert RetryOnRecord(db, j);
      var r :| r in db.runs && IsAttempt(db.runs[r], j, job.retryOrigin, job.retryAttempt);
      assert RunFine(db, r);
    } else {
      NextRunAdvances(Occurrence(job), now, job.interval, job.policy);
    }
  }

  lemma {:induction false} ClaimedRunFine(db: Db, after: Db, j: Id, now: int, expires: int, run: Id, lease: Id, r: Id)
    requires Inv(db) && j in db.jobs && j !in db.leases && run !in db.runs && JobFine(db.jobs[j])
    requires !Delivered(db, Claim(db, j).DeliveryKey()) && after == ClaimOne(db, j, now, expires, run, lease)
    requires r in after.runs && after.runs[r].job == j
    ensures RunFine(after, r) && RunPlaced(after, r)
  {
    hide NextRun, EarlierClaim, RetryOnRecord, ClaimedJob;
    ClaimBeforeNext(db, j, now);
    ClaimedJobKeeps(db.jobs[j], now);
    if r != run {
      assert RunFine(db, r);
      ClaimIsLater(db, j, r);
    }
  }

  lemma {:induction false} ClaimedJobKeeps(job: Job, now: int)
    requires job.interval > 0
    ensures var after := ClaimedJob(job, now);
            after == job.(nextRun := after.nextRun, retryAt := after.retryAt)
                && (job.retryAttempt > 0 ==> after.retryAt.None?)
    ensures job.retryAttempt == 0 ==> ClaimedJob(job, now).retryAt == job.retryAt
  {
    hide NextRun;
  }

  lemma {:induction false} ClaimedJobFine(db: Db, after: Db, j: Id, now: int, expires: int, run: Id, lease: Id)
    requires Inv(db) && j in db.jobs && j !in db.leases && run !in db.runs && JobFine(db.jobs[j])
    requires !Delivered(db, Claim(db, j).DeliveryKey()) && after == ClaimOne(db, j, now, expires, run, lease)
    ensures LeaseFine(after, j) && JobFine(after.jobs[j]) && RetryFine(after, j) && RetryOnRecord(after, j)
  {
    hide NextRun, EarlierClaim, ClaimedJob, RunFine, RunPlaced;
    ClaimedJobKeeps(db.jobs[j], now);
    assert RetryFine(db, j);
  }

  lemma {:induction false} ClaimKeeps(db: Db, j: Id, now: int, expires: int, run: Id, lease: Id)
    requires Inv(db) && j in db.jobs && j !in db.leases && run !in db.runs
    ensures JobFine(db.jobs[j])
    ensures Inv(ClaimOne(db, j, now, expires, run, lease))
  {
    hide EarlierClaim, JobFine, RetryFine, RetryOnRecord, RunFine, RunPlaced, LeaseFine, ClaimedJob, Delivered, Claim;
    FineJob(db, j);
    ClaimNotDelivered(db, j);
    ClaimedJobKeeps(db.jobs[j], now);
    var after := ClaimOne(db, j, now, expires, run, lease);
    ClaimedJobFine(db, after, j, now, expires, run, lease);
    forall i | i in after.leases ensures LeaseFine(after, i) {
      if i != j {
        LeasedIsJob(db, i);
        CarriedJob(db, after, i);
      }
    }
    forall r | r in after.runs ensures RunFine(after, r) && RunPlaced(after, r) {
      if after.runs[r].job == j {
        ClaimedRunFine(db, after, j, now, expires, run, lease, r);
      } else {
        ClaimIsOfJob(db, j);
        RunHasJob(db, r);
        CarriedRun(db, after, r);
      }
    }
    forall i | i in after.jobs ensures JobFine(after.jobs[i]) && RetryFine(after, i) && RetryOnRecord(after, i) {
      if i != j {
        CarriedJob(db, after, i);
      }
    }
  }

  lemma {:induction false} FineJob(db: Db, j: Id)
    requires Inv(db) && j in db.jobs
    ensures JobFine(db.jobs[j]) && db.jobs[j].interval > 0
  {
  }

  lemma {:induction false} ClaimIsOfJob(db: Db, j: Id)
    requires j in db.jobs
    ensures Claim(db, j).job == j
  {
  }

  // ----- what comes after a run -----

  /**
   * The next claim of job j in db: the following attempt of run r after a delay that grows with the attempts, or the
   * next occurrence.
   */
  predicate FollowedBy(db: Db, j: Id, r: JobRun, retried: bool, at: int)
  {
    && j in db.jobs && j !in db.leases
    && Claim(db, j) == (if retried then JobRun(j, r.key, r.scheduledAt, r.attempt + 1, Claimed)
                        else JobRun(j, r.key, db.jobs[j].nextRun, 1, Claimed))
    && DueTime(db.jobs[j]) == if retried then at + db.jobs[j].backoff * r.attempt else db.jobs[j].nextRun
  }

  /**
   * A failed run is tried again as long as retries are left;
   * any other acknowledgement moves on to the next occurrence.
   */
  lemma {:induction false} AckFollowedBy(db: Db, run: Id, lease: Id, coreTask: string, status: RunStatus, now: int)
    requires Inv(db) && Acknowledged(db, run, lease, coreTask, status, now) != db
    ensures run in db.runs && db.runs[run].job in db.jobs
    ensures var r := db.runs[run];
            FollowedBy(Acknowledged(db, run, lease, coreTask, status, now), r.job, r,
                       status in {Failed, TimedOut} && r.attempt <= db.jobs[r.job].maxRetries, now)
  {
    var j := db.runs[run].job;
    LeasedRun(db, j);
    hide Inv;
  }

  /** So is a run whose lease has run out, without an acknowledgement. */
  lemma {:induction false} ExpiryFollowedBy(db: Db, j: Id, now: int)
    requires Inv(db) && Expired(db, j, now)
    ensures j in db.jobs && db.leases[j].run in db.runs
    ensures var r := db.runs[db.leases[j].run];
            FollowedBy(ExpireLeases(db, now), j, r, r.attempt <= db.jobs[j].maxRetries, now)
  {
    LeasedRun(db, j);
    hide Inv;
    var after := ExpireLeases(db, now);
    assert after.jobs[j] == Retried(db.jobs[j], db.runs[db.leases[j].run], now);
  }
}
