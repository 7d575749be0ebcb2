/** Which jobs a claim hands out: the active, due and free ones, and no others. */
module SchedulerClaims {
  import opened Scheduler
  import opened SchedulerRuns
  import opened SchedulerHistory
  import opened Text

  /** The time a job waits for: its retry, if one is set, or its next occurrence. */
  function WaitsFor(job: Job): int {
    match job.retryAt
    case Some(t) => t
    case None => job.nextRun
  }

  /** A lease that has not run out. */
  predicate Held(db: Db, j: Id, now: int) {
    j in db.leases && db.leases[j].expires > now
  }

  /** Earlier in time, or with the smaller id. */
  predicate Sooner(db: Db, a: Id, b: Id)
    requires a in db.jobs && b in db.jobs
  {
    var x, y := WaitsFor(db.jobs[a]), WaitsFor(db.jobs[b]);
    x < y || (x == y && a < b)
  }

  lemma {:induction false} ExpiryKeeps(db: Db, now: int, j: Id)
    requires j in db.jobs
    ensures var after := ExpireLeases(db, now);
            && j in after.jobs && after.jobs[j].status == db.jobs[j].status
            && (j in after.leases <==> Held(db, j, now))
  {
  }

  lemma {:induction false} ClaimTasksAre(w: World, pick: seq<Id>, now: int, expires: int, ids: seq<(Id, Id)>)
    requires History(w) && Claimable(w.db, pick, ids)
    requires forall j | j in pick :: j in w.db.jobs && w.db.jobs[j].interval > 0
    ensures var tasks := ClaimTasks(w.db, pick, now, expires, ids);
            |tasks| == |pick| && forall i | 0 <= i < |pick| :: tasks[i].job == pick[i]
    ensures var after := ClaimAll(w.db, pick, now, expires, ids);
            && (forall j | j in pick :: j in after.leases && after.leases[j].expires == expires)
            && (forall j | j in w.db.leases && j !in pick :: j in after.leases && after.leases[j] == w.db.leases[j])
    decreases |pick|
  {
    hide History, Claimable, Claim, Delivered, ClaimedJob, JobFine;
    if pick != [] {
      var j := pick[0];
      FirstClaimable(w.db, pick, ids);
      HistoryHasInv(w);
      ClaimKeepsHistory(w, j, now, expires, ids[0].0, ids[0].1);
      ClaimRestClaimable(w.db, pick, now, expires, ids);
      SettingsStay(w.db, pick, now, expires, ids[0].0, ids[0].1);
      ClaimIsOfJob(w.db, j);
      var next := ClaimOne(w.db, j, now, expires, ids[0].0, ids[0].1);
      OtherJobs(w.db, pick, ids);
      ClaimTasksAre(World(next, w.tasks + [Claim(w.db, j)]), pick[1..], now, expires, ids[1..]);
      var tasks := ClaimTasks(w.db, pick, now, expires, ids);
      assert tasks == [Claim(w.db, j)] + ClaimTasks(next, pick[1..], now, expires, ids[1..]);
      assert forall k | k in pick :: k == j || k in pick[1..];
    }
  }

  /** A claim hands out a hundred tasks at most, ten unless it asks for a number; a lease holds an hour at most. */
  lemma {:induction false} ClaimBounds(limit: int, seconds: int)
    ensures 1 <= ClaimLimit(limit) <= 100 && 1 <= LeaseSeconds(seconds) <= 3600
    ensures ClaimLimit(limit) == limit <==> 1 <= limit <= 100
    ensures LeaseSeconds(seconds) == seconds <==> 1 <= seconds <= 3600
    ensures !(1 <= limit <= 100) ==> ClaimLimit(limit) == 10
    ensures !(1 <= seconds <= 3600) ==> LeaseSeconds(seconds) == 60
  {
  }

  lemma {:induction false} OtherJobs(db: Db, pick: seq<Id>, ids: seq<(Id, Id)>)
    requires Claimable(db, pick, ids) && pick != []
    ensures pick[0] !in pick[1..]
  {
  }

  /**
   * A claim hands out one task for each job it picks, and it picks only jobs that are active, whose retry or next time
   * has come, and whose lease, if any, has run out, the sooner ones first. A job of this kind is passed over only if
   * the limit is reached with sooner ones. What is picked is held until the lease runs out.
   */
  lemma {:induction false} ClaimPicks(w: World, op: Op)
    requires History(w) && Possible(w.db, op) && op.ClaimDue?
    ensures var expired, after := ExpireLeases(w.db, op.now), Apply(w, op);
            && |after.tasks| == |w.tasks| + |op.pick| && w.tasks <= after.tasks
            && (forall i | 0 <= i < |op.pick| :: after.tasks[|w.tasks| + i].job == op.pick[i])
            && |op.pick| <= ClaimLimit(op.limit)
            && (forall i, k | 0 <= i < k < |op.pick| ::
                  op.pick[i] in expired.jobs && op.pick[k] in expired.jobs && Sooner(expired, op.pick[i], op.pick[k]))
            && (forall j | j in op.pick ::
                  && j in w.db.jobs && j in expired.jobs && w.db.jobs[j].status == Active
                  && WaitsFor(expired.jobs[j]) <= op.now && !Held(w.db, j, op.now)
                  && j in after.db.leases && after.db.leases[j].expires == op.now + LeaseSeconds(op.leaseSeconds))
            && (forall j | j in w.db.jobs && j !in op.pick ::
                  && w.db.jobs[j].status == Active && WaitsFor(expired.jobs[j]) <= op.now && !Held(w.db, j, op.now) ==>
                    && |op.pick| == ClaimLimit(op.limit)
                    && forall i | 0 <= i < |op.pick| :: Sooner(expired, op.pick[i], j))
  {
    PickIs(w, op);
    HandsOut(w, op);
    hide History, Possible, Inv, Apply, ExpireLeases, LeaseSeconds, ClaimLimit, Held, WaitsFor, Sooner;
  }

  /** What is picked, and what is passed over. */
  lemma {:induction false} PickIs(w: World, op: Op)
    requires History(w) && Possible(w.db, op) && op.ClaimDue?
    ensures var expired := ExpireLeases(w.db, op.now);
            && |op.pick| <= ClaimLimit(op.limit)
            && (forall i, k | 0 <= i < k < |op.pick| ::
                  op.pick[i] in expired.jobs && op.pick[k] in expired.jobs && Sooner(expired, op.pick[i], op.pick[k]))
            && (forall j | j in op.pick ::
                  && j in w.db.jobs && j in expired.jobs && w.db.jobs[j].status == Active
                  && WaitsFor(expired.jobs[j]) <= op.now && !Held(w.db, j, op.now))
            && (forall j | j in w.db.jobs && j !in op.pick ::
                  && j in expired.jobs
                  && (w.db.jobs[j].status == Active && WaitsFor(expired.jobs[j]) <= op.now
                      && !Held(w.db, j, op.now) ==>
                        && |op.pick| == ClaimLimit(op.limit)
                        && forall i | 0 <= i < |op.pick| ::
                             op.pick[i] in expired.jobs && Sooner(expired, op.pick[i], j)))
  {
    hide History, Inv, FreshIds, Retried, ExpireLeases, ClaimLimit, Held;
    var expired := ExpireLeases(w.db, op.now);
    SameJobs(w.db, op.now);
    forall j | j in w.db.jobs
      ensures j in expired.jobs && expired.jobs[j].status == w.db.jobs[j].status
              && (j in expired.leases <==> Held(w.db, j, op.now))
    {
      ExpiryKeeps(w.db, op.now, j);
    }
    forall i | 0 <= i < |op.pick| ensures Due(expired, op.pick[i], op.now) {
    }
    forall i, k | 0 <= i < k < |op.pick| ensures Sooner(expired, op.pick[i], op.pick[k]) {
      assert Before(expired, op.pick[i], op.pick[k]);
    }
  }

  /** What is handed out for it. */
  lemma {:induction false} HandsOut(w: World, op: Op)
    requires History(w) && Possible(w.db, op) && op.ClaimDue?
    ensures var after := Apply(w, op);
            && |after.tasks| == |w.tasks| + |op.pick| && w.tasks <= after.tasks
            && (forall i | 0 <= i < |op.pick| :: after.tasks[|w.tasks| + i].job == op.pick[i])
            && (forall j | j in op.pick ::
                  j in after.db.leases && after.db.leases[j].expires == op.now + LeaseSeconds(op.leaseSeconds))
  {
    hide History, Claimable, Claim, ClaimAll, ClaimTasks, Inv, Apply, FreshIds, ExpireLeases, LeaseSeconds, DuePick;
    HistoryHasInv(w);
    ClaimDueIs(w, op);
    var expired, expires := ExpireLeases(w.db, op.now), op.now + LeaseSeconds(op.leaseSeconds);
    StatusOnly(w.db, op);
    ExpiryEnds(w, op);
    ClaimTasksAre(World(expired, w.tasks), op.pick, op.now, expires, op.ids);
  }

  lemma {:induction false} SameJobs(db: Db, now: int)
    ensures ExpireLeases(db, now).jobs.Keys == db.jobs.Keys
  {
  }

  lemma {:induction false} ExpiryEnds(w: World, op: Op)
    requires History(w) && Possible(w.db, op) && op.ClaimDue?
    ensures History(World(ExpireLeases(w.db, op.now), w.tasks))
  {
    hide History, Inv, ExpireLeases, DuePick, FreshIds, Ends, Claimable;
    HistoryHasInv(w);
    PossibleIsClaimable(w.db, op);
    StatusOnly(w.db, op);
    StatusKeepsHistory(w, ExpireLeases(w.db, op.now));
  }

  // ----- jobs that come and change -----

  /**
   * A good request with a new key makes a job that is active, free and waits for the time asked for, with a delay of 30
   * before retries unless it says another; its first task is the first attempt at that time. Anything else changes
   * nothing.
   */
  lemma {:induction false} CreatedWaits(db: Db, q: CreateRequest, id: Id)
    requires Inv(db) && id !in db.jobs
    ensures var after := Created(db, q, id);
            if Trim(q.key) != "" && q.interval > 0 && q.maxRetries >= 0 && q.backoff >= 0
               && forall j | j in db.jobs :: db.jobs[j].key != Trim(q.key)
            then
              && after.runs == db.runs && after.leases == db.leases && id !in after.leases
              && after.jobs.Keys == db.jobs.Keys + {id} && (forall j | j in db.jobs :: after.jobs[j] == db.jobs[j])
              && var job := after.jobs[id];
              && job.status == Active && WaitsFor(job) == q.nextRun && job.policy == q.policy
              && job.interval == q.interval && job.maxRetries == q.maxRetries
              && (q.backoff > 0 ==> job.backoff == q.backoff) && (q.backoff == 0 ==> job.backoff == 30)
              && Claim(after, id) == JobRun(id, Trim(q.key), q.nextRun, 1, Claimed)
            else after == db
  {
    hide Trim, Inv;
    NotLeased(db, id);
    assert KeyTaken(db, Trim(q.key)) <==> !forall j | j in db.jobs :: db.jobs[j].key != Trim(q.key);
    hide KeyTaken;
  }

  lemma {:induction false} NotLeased(db: Db, id: Id)
    requires Inv(db) && id !in db.jobs
    ensures id !in db.leases
  {
    hide Inv;
    if id in db.leases {
      LeasedIsJob(db, id);
      assert false;
    }
  }

  /** A change of status reaches every job but the archived ones, and nothing else. */
  lemma {:induction false} ChangeReaches(db: Db, j: Id, status: JobStatus)
    ensures var after := Changed(db, j, status);
            && after.runs == db.runs && after.leases == db.leases && after.jobs.Keys == db.jobs.Keys
            && (forall i | i in db.jobs && (i != j || db.jobs[i].status == Archived) :: after.jobs[i] == db.jobs[i])
            && (j in db.jobs && db.jobs[j].status != Archived ==>
                  after.jobs[j].status == status && after.jobs[j].(status := db.jobs[j].status) == db.jobs[j])
  {
  }

  /**
   * An acknowledgement is heard exactly if it comes from the holder of the lease, says how the run ended, and names the
   * task if it says that one was created. Then the run has that status, and the job is free.
   */
  lemma {:induction false} AckHeardIff(db: Db, run: Id, lease: Id, coreTask: string, status: RunStatus, now: int)
    requires Inv(db)
    ensures var after := Acknowledged(db, run, lease, coreTask, status, now);
            && (after != db <==>
                  && (exists j :: j in db.leases && db.leases[j].run == run && db.leases[j].lease == lease)
                  && status != Claimed && (status == TaskCreated ==> Trim(coreTask) != ""))
            && (after != db ==>
                  && run in db.runs && after.runs == db.runs[run := db.runs[run].(status := status)]
                  && db.runs[run].job in db.leases && after.leases == db.leases - {db.runs[run].job})
  {
    hide Trim, AckedJob;
    if j :| j in db.leases && db.leases[j].run == run && db.leases[j].lease == lease {
      LeasedRun(db, j);
      hide Inv;
    } else {
      hide Inv;
    }
  }

  // ----- jobs that do not run -----

  function TasksOf(tasks: seq<JobRun>, j: Id): seq<JobRun> {
    Filter((t: JobRun) => t.job == j, tasks)
  }

  lemma {:induction false} TasksOfMore(a: seq<JobRun>, b: seq<JobRun>, j: Id)
    requires a <= b && forall i | |a| <= i < |b| :: b[i].job != j
    ensures TasksOf(b, j) == TasksOf(a, j)
  {
    var of := (t: JobRun) => t.job == j;
    var more := b[|a|..];
    assert b == a + more;
    forall t | t in more ensures t.job != j {
      var i :| 0 <= i < |more| && more[i] == t;
      assert b[|a| + i] == t;
    }
    FilterConcat(of, a, more);
    FilterNone(of, more);
  }

  /** The transaction makes job j active, if it is not archived. */
  predicate Activates(op: Op, j: Id) {
    op.Change? && op.job == j && op.to == Active
  }

  lemma {:induction false} StepStaysIdle(w: World, op: Op, j: Id)
    requires History(w) && Possible(w.db, op) && j in w.db.jobs && w.db.jobs[j].status != Active
    requires w.db.jobs[j].status == Archived || !Activates(op, j)
    ensures var after := Apply(w, op);
            && j in after.db.jobs && after.db.jobs[j].status != Active
            && (w.db.jobs[j].status == Archived ==> after.db.jobs[j].status == Archived)
            && TasksOf(after.tasks, j) == TasksOf(w.tasks, j)
  {
    hide History, TasksOf, Held, WaitsFor, Sooner, Inv;
    HistoryHasInv(w);
    match op
    case ClaimDue(_, _, _, _, _) =>
      ClaimPicks(w, op);
      ClaimKeepsStatus(w, op, j);
      var after := Apply(w, op);
      assert forall i | |w.tasks| <= i < |after.tasks| :: after.tasks[i].job == op.pick[i - |w.tasks|];
      TasksOfMore(w.tasks, after.tasks, j);
    case Create(_, _) => OthersKeepStatus(w, op, j);
    case Ack(_, _, _, _, _) => OthersKeepStatus(w, op, j);
    case Change(_, _) => OthersKeepStatus(w, op, j);
  }

  lemma {:induction false} OthersKeepStatus(w: World, op: Op, j: Id)
    requires Inv(w.db) && Possible(w.db, op) && j in w.db.jobs && !op.ClaimDue?
    ensures var after := Apply(w, op);
            && after.tasks == w.tasks && j in after.db.jobs
            && (after.db.jobs[j].status == w.db.jobs[j].status ||
                (op.Change? && op.job == j && w.db.jobs[j].status != Archived && after.db.jobs[j].status == op.to))
  {
    hide Inv, KeyTaken, NewJob, ValidRequest, Trim, Holds;
  }

  lemma {:induction false} ClaimKeepsStatus(w: World, op: Op, j: Id)
    requires History(w) && Possible(w.db, op) && j in w.db.jobs && op.ClaimDue?
    ensures j in Apply(w, op).db.jobs && Apply(w, op).db.jobs[j].status == w.db.jobs[j].status
  {
    hide History, Claimable, ClaimAll, ClaimTasks, Inv, Apply, FreshIds, ExpireLeases, LeaseSeconds, DuePick;
    HistoryHasInv(w);
    ClaimDueIs(w, op);
    ExpiryKeeps(w.db, op.now, j);
    AllKeepStatus(ExpireLeases(w.db, op.now), op.pick, op.now, op.now + LeaseSeconds(op.leaseSeconds), op.ids, j);
  }

  lemma {:induction false} AllKeepStatus(
    db: Db, pick: seq<Id>, now: int, expires: int, ids: seq<(Id, Id)>, j: Id)
    requires |ids| == |pick| && (forall i | i in pick :: i in db.jobs && db.jobs[i].interval > 0) && j in db.jobs
    ensures var after := ClaimAll(db, pick, now, expires, ids);
            j in after.jobs && after.jobs[j].status == db.jobs[j].status
    decreases |pick|
  {
    hide Delivered, Claim, ClaimedJob;
    if pick != [] {
      ClaimedJobKeeps(db.jobs[pick[0]], now);
      SettingsStay(db, pick, now, expires, ids[0].0, ids[0].1);
      KeepsStatus(db.jobs[pick[0]], now);
      AllKeepStatus(ClaimOne(db, pick[0], now, expires, ids[0].0, ids[0].1), pick[1..], now, expires, ids[1..], j);
    }
  }

  lemma {:induction false} KeepsStatus(job: Job, now: int)
    requires job.interval > 0
    ensures ClaimedJob(job, now).status == job.status
  {
  }

  /** A job that is not active is handed no task while nothing activates it; an archived one never again. */
  lemma {:induction false} StaysIdle(w: World, ops: seq<Op>, j: Id)
    requires History(w) && AllPossible(w, ops) && j in w.db.jobs && w.db.jobs[j].status != Active
    requires w.db.jobs[j].status == Archived || forall op | op in ops :: !Activates(op, j)
    ensures TasksOf(RunAll(w, ops).tasks, j) == TasksOf(w.tasks, j)
    decreases |ops|
  {
    hide History, Possible, Apply, TasksOf;
    HistoryHasInv(w);
    if ops != [] {
      StepStaysIdle(w, ops[0], j);
      ApplyKeepsHistory(w, ops[0]);
      assert forall op | op in ops[1..] :: op in ops;
      StaysIdle(Apply(w, ops[0]), ops[1..], j);
    }
  }

  lemma {:induction false} RunAllConcat(w: World, a: seq<Op>, b: seq<Op>)
    requires History(w) && AllPossible(w, a + b)
    ensures AllPossible(w, a) && History(RunAll(w, a)) && AllPossible(RunAll(w, a), b)
    ensures RunAll(w, a + b) == RunAll(RunAll(w, a), b)
    decreases |a|
  {
    hide History, Possible, Apply;
    HistoryHasInv(w);
    if a == [] {
      assert a + b == b;
    } else {
      assert (a + b)[0] == a[0] && (a + b)[1..] == a[1..] + b;
      ApplyKeepsHistory(w, a[0]);
      RunAllConcat(Apply(w, a[0]), a[1..], b);
    }
  }

  /**
   * Over every run: once a job that exists is paused, no task of it is handed out before it is made active again, and
   * once it is archived none ever is.
   */
  lemma {:induction false} IdleJobsNeverRun(before: seq<Op>, to: JobStatus, after: seq<Op>, j: Id)
    requires PossibleRun(before) && PossibleRun(before + ([Change(j, to)] + after)) && j in WorldAfter(before).db.jobs
    requires to == Archived || (to == Paused && forall op | op in after :: !Activates(op, j))
    ensures TasksOf(WorldAfter(before + ([Change(j, to)] + after)).tasks, j) ==
            TasksOf(WorldAfter(before).tasks, j)
  {
    hide History, AllPossible, RunAll, TasksOf, Apply, Possible, Inv;
    EmptyHistory();
    var ops := [Change(j, to)] + after;
    RunAllConcat(EMPTY, before, ops);
    var w := WorldAfter(before);
    HistoryHasInv(w);
    ChangeFirst(w, j, to, after);
    StaysIdle(Apply(w, Change(j, to)), after, j);
  }

  lemma {:induction false} ChangeFirst(w: World, j: Id, to: JobStatus, after: seq<Op>)
    requires History(w) && AllPossible(w, [Change(j, to)] + after) && j in w.db.jobs && to != Active
    ensures Inv(w.db) && Possible(w.db, Change(j, to)) && History(Apply(w, Change(j, to)))
    ensures AllPossible(Apply(w, Change(j, to)), after)
    ensures RunAll(w, [Change(j, to)] + after) == RunAll(Apply(w, Change(j, to)), after)
    ensures var next := Apply(w, Change(j, to));
            && next.tasks == w.tasks && j in next.db.jobs && next.db.jobs[j].status != Active
            && (to == Archived ==> next.db.jobs[j].status == Archived)
  {
    hide History, Inv;
    HistoryHasInv(w);
    ApplyKeepsHistory(w, Change(j, to));
    assert ([Change(j, to)] + after)[1..] == after;
  }
}
