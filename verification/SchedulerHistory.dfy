/** Whole runs of the scheduler: what has been handed out, in which order, under which keys. */
module SchedulerHistory {
  import opened Text
  import opened Scheduler
  import opened SchedulerRuns

  datatype Op =
    | Create(q: CreateRequest, id: Id)
    | ClaimDue(now: int, limit: int, leaseSeconds: int, pick: seq<Id>, ids: seq<(Id, Id)>)
    | Ack(run: Id, lease: Id, coreTask: string, status: RunStatus, ackNow: int)
    | Change(job: Id, to: JobStatus)

  /** The tables, and every task handed out so far. */
  datatype World = World(db: Db, tasks: seq<JobRun>)

  /** The choices left to the database and the id generator are legal ones. */
  predicate Possible(db: Db, op: Op) {
    match op
    case Create(_, id) => id !in db.jobs
    case ClaimDue(now, limit, _, pick, ids) =>
      DuePick(ExpireLeases(db, now), now, ClaimLimit(limit), pick) && |ids| == |pick|
          && FreshIds(ExpireLeases(db, now), ids)
    case _ => true
  }

  /** The jobs of a pick may be claimed one after the other. */
  ghost predicate Claimable(db: Db, pick: seq<Id>, ids: seq<(Id, Id)>) {
    && |ids| == |pick| && FreshIds(db, ids)
    && (forall i | 0 <= i < |pick| :: pick[i] in db.jobs && pick[i] !in db.leases)
    && (forall i, k | 0 <= i < k < |pick| :: pick[i] != pick[k])
  }

  lemma {:induction false} PossibleIsClaimable(db: Db, op: Op)
    requires Inv(db) && op.ClaimDue? && Possible(db, op)
    ensures Inv(ExpireLeases(db, op.now)) && Claimable(ExpireLeases(db, op.now), op.pick, op.ids)
    ensures forall j | j in op.pick ::
              j in ExpireLeases(db, op.now).jobs && ExpireLeases(db, op.now).jobs[j].interval > 0
  {
    hide Inv, Ends, ExpireLeases, FreshIds, DueTime;
    var expired := ExpireLeases(db, op.now);
    ExpireEnds(db, op.now);
    EndsKeeps(db, expired, set j | j in db.leases && Expired(db, j, op.now));
    forall i | 0 <= i < |op.pick| ensures op.pick[i] in expired.jobs && op.pick[i] !in expired.leases {
      assert Due(expired, op.pick[i], op.now);
    }
    forall i, k | 0 <= i < k < |op.pick| ensures op.pick[i] != op.pick[k] {
      assert Before(expired, op.pick[i], op.pick[k]);
    }
    forall j | j in op.pick ensures j in expired.jobs && expired.jobs[j].interval > 0 {
      FineJob(expired, j);
    }
  }

  ghost function Apply(w: World, op: Op): World
    requires Inv(w.db) && Possible(w.db, op)
  {
    match op
    case Create(q, id) => World(Created(w.db, q, id), w.tasks)
    case Ack(run, lease, coreTask, status, now) => World(Acknowledged(w.db, run, lease, coreTask, status, now), w.tasks)
    case Change(job, to) => World(Changed(w.db, job, to), w.tasks)
    case ClaimDue(now, limit, leaseSeconds, pick, ids) =>
      PossibleIsClaimable(w.db, op);
      var expired, expires := ExpireLeases(w.db, now), now + LeaseSeconds(leaseSeconds);
      World(ClaimAll(expired, pick, now, expires, ids), w.tasks + ClaimTasks(expired, pick, now, expires, ids))
  }

  // ----- the history that every state carries -----

  predicate SameClaim(a: JobRun, b: JobRun) {
    a == b.(status := a.status)
  }

  ghost predicate Recorded(db: Db, t: JobRun) {
    exists r :: r in db.runs && SameClaim(db.runs[r], t)
  }

  ghost predicate HandedOut(tasks: seq<JobRun>, run: JobRun) {
    exists i :: 0 <= i < |tasks| && SameClaim(tasks[i], run)
  }

  /** The tasks of one job come in strictly increasing order of occurrence and attempt. */
  predicate Increasing(tasks: seq<JobRun>) {
    forall i, k | 0 <= i < k < |tasks| && tasks[i].job == tasks[k].job :: EarlierClaim(tasks[i], tasks[k])
  }

  /** A repeated attempt follows an earlier attempt of the same occurrence. */
  ghost predicate Chained(tasks: seq<JobRun>) {
    forall k: nat | k < |tasks| && tasks[k].attempt > 1 :: HasEarlier(tasks, k)
  }

  ghost predicate History(w: World) {
    && Inv(w.db)
    && (forall i | 0 <= i < |w.tasks| :: Recorded(w.db, w.tasks[i]))
    && (forall r | r in w.db.runs :: HandedOut(w.tasks, w.db.runs[r]))
    && Increasing(w.tasks) && Chained(w.tasks)
  }

  /** A transaction that only changes the status of runs. */
  predicate OnlyStatus(db: Db, after: Db) {
    after.runs.Keys == db.runs.Keys && forall r | r in db.runs :: SameClaim(after.runs[r], db.runs[r])
  }

  lemma {:induction false} StatusKeepsHistory(w: World, after: Db)
    requires History(w) && Inv(after) && OnlyStatus(w.db, after)
    ensures History(World(after, w.tasks))
  {
    hide Inv, Increasing, Chained;
    forall i | 0 <= i < |w.tasks| ensures Recorded(after, w.tasks[i]) {
      assert Recorded(w.db, w.tasks[i]);
      var r :| r in w.db.runs && SameClaim(w.db.runs[r], w.tasks[i]);
      assert r in after.runs && SameClaim(after.runs[r], w.tasks[i]);
    }
    forall r | r in after.runs ensures HandedOut(w.tasks, after.runs[r]) {
      assert HandedOut(w.tasks, w.db.runs[r]);
      var i :| 0 <= i < |w.tasks| && SameClaim(w.tasks[i], w.db.runs[r]);
      assert SameClaim(w.tasks[i], after.runs[r]);
    }
  }

  lemma {:induction false} ClaimIncreases(w: World, j: Id)
    requires History(w) && j in w.db.jobs && j !in w.db.leases
    ensures Increasing(w.tasks + [Claim(w.db, j)])
  {
    hide Chained, HandedOut, Claim, EarlierClaim;
    ClaimIsOfJob(w.db, j);
    var tasks := w.tasks + [Claim(w.db, j)];
    forall i, k | 0 <= i < k < |tasks| && tasks[i].job == tasks[k].job ensures EarlierClaim(tasks[i], tasks[k]) {
      if k == |w.tasks| {
        assert Recorded(w.db, w.tasks[i]);
        var r :| r in w.db.runs && SameClaim(w.db.runs[r], w.tasks[i]);
        ClaimIsLater(w.db, j, r);
        SameOrder(w.db.runs[r], w.tasks[i], Claim(w.db, j));
      }
    }
  }

  lemma {:induction false} SameOrder(a: JobRun, b: JobRun, c: JobRun)
    requires SameClaim(a, b) && EarlierClaim(a, c)
    ensures EarlierClaim(b, c)
  {
  }

  /** A retry repeats a task that is already on record. */
  lemma {:induction false} RetryRepeats(w: World, j: Id) returns (i: nat)
    requires History(w) && j in w.db.jobs && j !in w.db.leases && Claim(w.db, j).attempt > 1
    ensures i < |w.tasks| && IsAttempt(w.tasks[i], j, Some(Claim(w.db, j).scheduledAt), Claim(w.db, j).attempt - 1)
  {
    hide Increasing, Chained, RunFine, RunPlaced, LeaseFine, RetryFine, Recorded;
    assert JobFine(w.db.jobs[j]) && RetryOnRecord(w.db, j);
    var r :| r in w.db.runs && IsAttempt(w.db.runs[r], j, w.db.jobs[j].retryOrigin, w.db.jobs[j].retryAttempt);
    assert HandedOut(w.tasks, w.db.runs[r]);
    i :| 0 <= i < |w.tasks| && SameClaim(w.tasks[i], w.db.runs[r]);
  }

  ghost predicate HasEarlier(tasks: seq<JobRun>, k: nat)
    requires k < |tasks|
  {
    exists i :: 0 <= i < k && IsAttempt(tasks[i], tasks[k].job, Some(tasks[k].scheduledAt), tasks[k].attempt - 1)
  }

  lemma {:induction false} ClaimChains(w: World, j: Id)
    requires History(w) && j in w.db.jobs && j !in w.db.leases
    ensures Chained(w.tasks + [Claim(w.db, j)])
  {
    hide Inv, Increasing, Claim, Recorded, HandedOut, IsAttempt;
    ClaimIsOfJob(w.db, j);
    var claim := Claim(w.db, j);
    var tasks := w.tasks + [claim];
    forall k: nat | k < |tasks| && tasks[k].attempt > 1 ensures HasEarlier(tasks, k) {
      if k < |w.tasks| {
        assert HasEarlier(w.tasks, k);
        var i :| 0 <= i < k &&
                 IsAttempt(w.tasks[i], w.tasks[k].job, Some(w.tasks[k].scheduledAt), w.tasks[k].attempt - 1);
        assert tasks[i] == w.tasks[i];
      } else {
        var i := RetryRepeats(w, j);
        assert tasks[i] == w.tasks[i];
      }
    }
  }

  lemma {:induction false} ClaimKeepsHistory(w: World, j: Id, now: int, expires: int, run: Id, lease: Id)
    requires History(w) && j in w.db.jobs && j !in w.db.leases && run !in w.db.runs
    ensures JobFine(w.db.jobs[j]) && !Delivered(w.db, Claim(w.db, j).DeliveryKey())
    ensures History(World(ClaimOne(w.db, j, now, expires, run, lease), w.tasks + [Claim(w.db, j)]))
  {
    hide Inv, Increasing, Chained, Delivered, Claim, ClaimedJob, Recorded, HandedOut, JobFine;
    ClaimKeeps(w.db, j, now, expires, run, lease);
    ClaimNotDelivered(w.db, j);
    ClaimIncreases(w, j);
    ClaimChains(w, j);
    FineJob(w.db, j);
    NewRunRecorded(w, ClaimOne(w.db, j, now, expires, run, lease), Claim(w.db, j), run);
  }

  lemma {:induction false} NewRunRecorded(w: World, after: Db, claim: JobRun, run: Id)
    requires forall i | 0 <= i < |w.tasks| :: Recorded(w.db, w.tasks[i])
    requires forall r | r in w.db.runs :: HandedOut(w.tasks, w.db.runs[r])
    requires run !in w.db.runs && after.runs == w.db.runs[run := claim]
    ensures var tasks := w.tasks + [claim];
            (forall i | 0 <= i < |tasks| :: Recorded(after, tasks[i]))
            && forall r | r in after.runs :: HandedOut(tasks, after.runs[r])
  {
    var tasks := w.tasks + [claim];
    assert run in after.runs && SameClaim(after.runs[run], claim);
    forall i | 0 <= i < |tasks| ensures Recorded(after, tasks[i]) {
      if i < |w.tasks| {
        assert Recorded(w.db, w.tasks[i]);
        var r :| r in w.db.runs && SameClaim(w.db.runs[r], w.tasks[i]);
        assert r in after.runs && SameClaim(after.runs[r], tasks[i]);
      }
    }
    forall r | r in after.runs ensures HandedOut(tasks, after.runs[r]) {
      if r == run {
        assert SameClaim(tasks[|w.tasks|], after.runs[r]);
      } else {
        assert HandedOut(w.tasks, w.db.runs[r]);
        var i :| 0 <= i < |w.tasks| && SameClaim(w.tasks[i], w.db.runs[r]);
        assert SameClaim(tasks[i], after.runs[r]);
      }
    }
  }

  lemma {:induction false} ClaimRestClaimable(db: Db, pick: seq<Id>, now: int, expires: int, ids: seq<(Id, Id)>)
    requires Claimable(db, pick, ids) && pick != [] && db.jobs[pick[0]].interval > 0
    ensures Claimable(ClaimOne(db, pick[0], now, expires, ids[0].0, ids[0].1), pick[1..], ids[1..])
  {
    hide ClaimedJob, Claim, Delivered;
    assert forall i | 0 <= i < |pick| - 1 :: pick[1..][i] == pick[i + 1] && ids[1..][i] == ids[i + 1];
  }

  lemma {:induction false} ClaimAllKeepsHistory(w: World, pick: seq<Id>, now: int, expires: int, ids: seq<(Id, Id)>)
    requires History(w) && Claimable(w.db, pick, ids)
    requires forall j | j in pick :: j in w.db.jobs && w.db.jobs[j].interval > 0
    ensures History(World(ClaimAll(w.db, pick, now, expires, ids), w.tasks + ClaimTasks(w.db, pick, now, expires, ids)))
    ensures |ClaimTasks(w.db, pick, now, expires, ids)| == |pick|
    decreases |pick|
  {
    hide History, Claimable, ClaimOne, Delivered, Claim, JobFine;
    if pick == [] {
      assert w.tasks + [] == w.tasks;
    } else {
      var j := pick[0];
      FirstClaimable(w.db, pick, ids);
      HistoryHasInv(w);
      ClaimKeepsHistory(w, j, now, expires, ids[0].0, ids[0].1);
      ClaimRestClaimable(w.db, pick, now, expires, ids);
      var next := ClaimOne(w.db, j, now, expires, ids[0].0, ids[0].1);
      SettingsStay(w.db, pick, now, expires, ids[0].0, ids[0].1);
      ClaimAllKeepsHistory(World(next, w.tasks + [Claim(w.db, j)]), pick[1..], now, expires, ids[1..]);
      var rest := ClaimTasks(next, pick[1..], now, expires, ids[1..]);
      assert w.tasks + [Claim(w.db, j)] + rest == w.tasks + ([Claim(w.db, j)] + rest);
    }
  }

  lemma {:induction false} FirstClaimable(db: Db, pick: seq<Id>, ids: seq<(Id, Id)>)
    requires Claimable(db, pick, ids) && pick != []
    ensures |ids| == |pick| && pick[0] in db.jobs && pick[0] !in db.leases && ids[0].0 !in db.runs
  {
  }

  lemma {:induction false} HistoryHasInv(w: World)
    requires History(w)
    ensures Inv(w.db)
  {
  }

  lemma {:induction false} SettingsStay(db: Db, pick: seq<Id>, now: int, expires: int, run: Id, lease: Id)
    requires pick != [] && forall j | j in pick :: j in db.jobs && db.jobs[j].interval > 0
    ensures var next := ClaimOne(db, pick[0], now, expires, run, lease);
            forall j | j in pick[1..] :: j in next.jobs && next.jobs[j].interval > 0
  {
    hide Claim, Delivered, ClaimedJob;
    ClaimedJobKeeps(db.jobs[pick[0]], now);
  }

  lemma {:induction false} ApplyKeepsHistory(w: World, op: Op)
    requires History(w) && Possible(w.db, op)
    ensures History(Apply(w, op))
  {
    hide Inv, Claimable, Ends, Created, Acknowledged, Changed, ExpireLeases, ClaimAll, ClaimTasks, Increasing,
        Chained, DuePick;
    match op
    case Create(q, id) =>
      CreateKeeps(w.db, q, id);
      StatusOnly(w.db, op);
      StatusKeepsHistory(w, Apply(w, op).db);
    case Change(job, to) =>
      ChangeKeeps(w.db, job, to);
      StatusOnly(w.db, op);
      StatusKeepsHistory(w, Apply(w, op).db);
    case Ack(run, lease, coreTask, status, now) =>
      var after := Acknowledged(w.db, run, lease, coreTask, status, now);
      if after != w.db {
        AckEndsOne(w.db, run, lease, coreTask, status, now);
        EndsKeeps(w.db, after, {w.db.runs[run].job});
      }
      StatusOnly(w.db, op);
      StatusKeepsHistory(w, after);
    case ClaimDue(now, limit, leaseSeconds, pick, ids) =>
      PossibleIsClaimable(w.db, op);
      var expired := ExpireLeases(w.db, now);
      StatusOnly(w.db, op);
      StatusKeepsHistory(w, expired);
      ClaimAllKeepsHistory(World(expired, w.tasks), pick, now, now + LeaseSeconds(leaseSeconds), ids);
  }

  lemma {:induction false} StatusOnly(db: Db, op: Op)
    requires Possible(db, op)
    ensures match op
            case Create(q, id) => OnlyStatus(db, Created(db, q, id))
            case Change(job, to) => OnlyStatus(db, Changed(db, job, to))
            case Ack(run, lease, coreTask, status, now) =>
              OnlyStatus(db, Acknowledged(db, run, lease, coreTask, status, now))
            case ClaimDue(now, limit, leaseSeconds, pick, ids) => OnlyStatus(db, ExpireLeases(db, now))
  {
    hide Trim, KeyTaken, NewJob, Retried, AckedJob, ExpiredRun, Expired, DuePick;
  }

  // ----- runs -----

  ghost predicate AllPossible(w: World, ops: seq<Op>)
    requires History(w)
    decreases |ops|
  {
    ops == [] || (Possible(w.db, ops[0]) && (ApplyKeepsHistory(w, ops[0]); AllPossible(Apply(w, ops[0]), ops[1..])))
  }

  ghost function RunAll(w: World, ops: seq<Op>): World
    requires History(w) && AllPossible(w, ops)
    decreases |ops|
  {
    if ops == [] then w else
      ApplyKeepsHistory(w, ops[0]);
      RunAll(Apply(w, ops[0]), ops[1..])
  }

  const EMPTY := World(Db(map[], map[], map[]), [])

  lemma {:induction false} EmptyHistory()
    ensures History(EMPTY)
  {
    EmptyIsFine();
  }

  /** A run of transactions that starts from empty tables. */
  ghost predicate PossibleRun(ops: seq<Op>) {
    EmptyHistory();
    AllPossible(EMPTY, ops)
  }

  ghost function WorldAfter(ops: seq<Op>): World
    requires PossibleRun(ops)
  {
    EmptyHistory();
    RunAll(EMPTY, ops)
  }

  lemma {:induction false} RunKeepsHistory(w: World, ops: seq<Op>)
    requires History(w) && AllPossible(w, ops)
    ensures History(RunAll(w, ops))
    decreases |ops|
  {
    hide History, Possible, Apply;
    HistoryHasInv(w);
    if ops != [] {
      ApplyKeepsHistory(w, ops[0]);
      RunKeepsHistory(Apply(w, ops[0]), ops[1..]);
    }
  }

  lemma {:induction false} TaskFine(w: World, i: nat)
    requires History(w) && i < |w.tasks|
    ensures var t := w.tasks[i];
            t.job in w.db.jobs && t.key == w.db.jobs[t.job].key && 1 <= t.attempt <= w.db.jobs[t.job].maxRetries + 1
  {
    hide Increasing, Chained, HandedOut, RunPlaced, RetryOnRecord, JobFine, RetryFine, LeaseFine;
    assert Recorded(w.db, w.tasks[i]);
    var r :| r in w.db.runs && SameClaim(w.db.runs[r], w.tasks[i]);
    assert RunFine(w.db, r);
  }

  /**
   * Over every run of creates, claims, acknowledgements, expiries and state changes, with any clock values: the
   * occurrences and attempts handed out for one job strictly increase, each further attempt follows an earlier one of
   * the same occurrence, and none goes beyond max_retries + 1.
   */
  lemma {:induction false} ClaimsIncrease(ops: seq<Op>)
    requires PossibleRun(ops)
    ensures var w := WorldAfter(ops);
            && Increasing(w.tasks) && Chained(w.tasks)
            && forall t | t in w.tasks :: t.job in w.db.jobs && 1 <= t.attempt <= w.db.jobs[t.job].maxRetries + 1
  {
    hide AllPossible, RunAll, Increasing, Chained, Inv, HandedOut;
    EmptyHistory();
    RunKeepsHistory(EMPTY, ops);
    var w := WorldAfter(ops);
    forall t | t in w.tasks ensures t.job in w.db.jobs && 1 <= t.attempt <= w.db.jobs[t.job].maxRetries + 1 {
      var i :| 0 <= i < |w.tasks| && w.tasks[i] == t;
      TaskFine(w, i);
    }
  }

  lemma {:induction false} KeysDiffer(w: World, i: nat, k: nat)
    requires History(w) && i < k < |w.tasks|
    ensures w.tasks[i].DeliveryKey() != w.tasks[k].DeliveryKey()
    ensures w.tasks[i].CoreKey() == w.tasks[k].CoreKey() <==>
            w.tasks[i].job == w.tasks[k].job && w.tasks[i].scheduledAt == w.tasks[k].scheduledAt
  {
    hide Chained, HandedOut, Recorded, RunPlaced, RetryOnRecord, RunFine, JobFine, RetryFine, LeaseFine;
    TaskFine(w, i);
    TaskFine(w, k);
    if w.tasks[i].job == w.tasks[k].job {
      assert EarlierClaim(w.tasks[i], w.tasks[k]);
    }
  }

  /**
   * Over every run, no delivery key is ever used twice, by any two jobs; and two tasks share their Core key exactly
   * when they are attempts of the same occurrence of the same job.
   */
  lemma {:induction false} KeysNeverClash(ops: seq<Op>, i: nat, k: nat)
    requires PossibleRun(ops) && i < k < |WorldAfter(ops).tasks|
    ensures var w := WorldAfter(ops);
            && w.tasks[i].DeliveryKey() != w.tasks[k].DeliveryKey()
            && (w.tasks[i].CoreKey() == w.tasks[k].CoreKey() <==>
                w.tasks[i].job == w.tasks[k].job && w.tasks[i].scheduledAt == w.tasks[k].scheduledAt)
  {
    hide AllPossible, RunAll, History;
    EmptyHistory();
    RunKeepsHistory(EMPTY, ops);
    KeysDiffer(WorldAfter(ops), i, k);
  }

  /**
   * Over every run: a lease exists exactly when its run is claimed, retry_at is set only without a lease and then
   * stands for an allowed retry, and no attempt exceeds max_retries + 1.
   */
  lemma {:induction false} LeasesAndRetries(ops: seq<Op>)
    requires PossibleRun(ops)
    ensures var db := WorldAfter(ops).db;
            && (forall r | r in db.runs ::
                  db.runs[r].status == Claimed <==> exists j :: j in db.leases && db.leases[j].run == r)
            && (forall j | j in db.jobs && db.jobs[j].retryAt.Some? ::
                  j !in db.leases && 1 <= db.jobs[j].retryAttempt <= db.jobs[j].maxRetries)
            && forall r | r in db.runs ::
                 db.runs[r].job in db.jobs && db.runs[r].attempt <= db.jobs[db.runs[r].job].maxRetries + 1
  {
    hide AllPossible, RunAll, History, Inv;
    EmptyHistory();
    RunKeepsHistory(EMPTY, ops);
    HistoryHasInv(WorldAfter(ops));
    LeaseAndRetry(WorldAfter(ops).db);
  }

  // ----- catching up -----

  /** Times of the first attempts of job j. */
  function FirstTimes(tasks: seq<JobRun>, j: Id): seq<int> {
    if tasks == [] then [] else
      FirstTimes(tasks[..|tasks| - 1], j) +
      if tasks[|tasks| - 1].job == j && tasks[|tasks| - 1].attempt == 1 then [tasks[|tasks| - 1].scheduledAt] else []
  }

  lemma {:induction false} FirstTimesConcat(a: seq<JobRun>, b: seq<JobRun>, j: Id)
    ensures FirstTimes(a + b, j) == FirstTimes(a, j) + FirstTimes(b, j)
  {
    if b == [] {
      assert a + b == a;
    } else {
      assert (a + b)[..|a + b| - 1] == a + b[..|b| - 1];
      FirstTimesConcat(a, b[..|b| - 1], j);
    }
  }

  /** From db to after, the first attempts of j were exactly the next |times| occurrences, without a gap. */
  predicate Gapless(db: Db, after: Db, j: Id, times: seq<int>) {
    && j in db.jobs && j in after.jobs
    && after.jobs[j].interval == db.jobs[j].interval && after.jobs[j].policy == db.jobs[j].policy
    && after.jobs[j].nextRun == Nth(db.jobs[j].nextRun, db.jobs[j].interval, |times|)
    && forall k | 0 <= k < |times| :: times[k] == Nth(db.jobs[j].nextRun, db.jobs[j].interval, k)
  }

  lemma {:induction false} NthAdds(start: int, interval: int, a: nat, b: nat)
    ensures Nth(Nth(start, interval, a), interval, b) == Nth(start, interval, a + b)
  {
    assert interval * (a + b) == interval * a + interval * b;
  }

  lemma {:induction false} GaplessJoins(a: Db, b: Db, c: Db, j: Id, first: seq<int>, second: seq<int>)
    requires Gapless(a, b, j, first) && Gapless(b, c, j, second)
    ensures Gapless(a, c, j, first + second)
  {
    hide Nth;
    var start, interval := a.jobs[j].nextRun, a.jobs[j].interval;
    NthAdds(start, interval, |first|, |second|);
    forall k | 0 <= k < |first + second| ensures (first + second)[k] == Nth(start, interval, k) {
      if k >= |first| {
        NthAdds(start, interval, |first|, k - |first|);
      }
    }
  }

  lemma {:induction false} ClaimGapless(db: Db, i: Id, j: Id, now: int, expires: int, run: Id, lease: Id)
    requires Inv(db) && i in db.jobs && i !in db.leases && j in db.jobs && db.jobs[j].policy == CatchUp
    ensures JobFine(db.jobs[i]) && !Delivered(db, Claim(db, i).DeliveryKey())
    ensures Gapless(db, ClaimOne(db, i, now, expires, run, lease), j, FirstTimes([Claim(db, i)], j))
  {
    hide Inv, EarlierClaim, Delivered;
    FineJob(db, i);
    ClaimNotDelivered(db, i);
    var claim := Claim(db, i);
    assert [claim][..0] == [] && FirstTimes([], j) == [];
    NthStep(db.jobs[j].nextRun, db.jobs[j].interval, 0);
  }

  lemma {:induction false} ClaimAllGapless(w: World, pick: seq<Id>, j: Id, now: int, expires: int, ids: seq<(Id, Id)>)
    requires History(w) && Claimable(w.db, pick, ids)
    requires forall i | i in pick :: i in w.db.jobs && w.db.jobs[i].interval > 0
    requires j in w.db.jobs && w.db.jobs[j].policy == CatchUp
    ensures Gapless(w.db, ClaimAll(w.db, pick, now, expires, ids), j,
                    FirstTimes(ClaimTasks(w.db, pick, now, expires, ids), j))
    decreases |pick|
  {
    hide History, Claimable, ClaimOne, Delivered, Claim, JobFine, FirstTimes;
    if pick == [] {
      NoTimes(w.db, j);
    } else {
      var i := pick[0];
      FirstClaimable(w.db, pick, ids);
      HistoryHasInv(w);
      ClaimKeepsHistory(w, i, now, expires, ids[0].0, ids[0].1);
      ClaimGapless(w.db, i, j, now, expires, ids[0].0, ids[0].1);
      ClaimRestClaimable(w.db, pick, now, expires, ids);
      SettingsStay(w.db, pick, now, expires, ids[0].0, ids[0].1);
      var next := ClaimOne(w.db, i, now, expires, ids[0].0, ids[0].1);
      ClaimAllGapless(World(next, w.tasks + [Claim(w.db, i)]), pick[1..], j, now, expires, ids[1..]);
      var rest := ClaimTasks(next, pick[1..], now, expires, ids[1..]);
      FirstTimesConcat([Claim(w.db, i)], rest, j);
      GaplessJoins(w.db, next, ClaimAll(w.db, pick, now, expires, ids), j,
                   FirstTimes([Claim(w.db, i)], j), FirstTimes(rest, j));
    }
  }

  lemma {:induction false} NoTimes(db: Db, j: Id)
    requires j in db.jobs
    ensures FirstTimes([], j) == [] && Gapless(db, db, j, [])
  {
  }

  lemma {:induction false} OtherOpsGapless(db: Db, op: Op, j: Id)
    requires Inv(db) && Possible(db, op) && j in db.jobs
    ensures match op
            case Create(q, id) => Gapless(db, Created(db, q, id), j, [])
            case Change(job, to) => Gapless(db, Changed(db, job, to), j, [])
            case Ack(run, lease, coreTask, status, now) =>
              Gapless(db, Acknowledged(db, run, lease, coreTask, status, now), j, [])
            case ClaimDue(now, limit, leaseSeconds, pick, ids) => Gapless(db, ExpireLeases(db, now), j, [])
  {
    hide Trim, KeyTaken, NewJob, ExpiredRun, Expired, DuePick, Inv;
    NthStep(db.jobs[j].nextRun, db.jobs[j].interval, 0);
  }

  lemma {:induction false} StillGapless(w: World, op: Op, j: Id)
    requires Inv(w.db) && Possible(w.db, op) && j in w.db.jobs && !op.ClaimDue?
    ensures Gapless(w.db, Apply(w, op).db, j, []) && Apply(w, op).tasks == w.tasks
  {
    OtherOpsGapless(w.db, op, j);
    hide Created, Acknowledged, Changed, Gapless, Inv;
  }

  lemma {:induction false} ClaimDueIs(w: World, op: Op)
    requires Inv(w.db) && Possible(w.db, op) && op.ClaimDue?
    ensures var expired := ExpireLeases(w.db, op.now);
            && Inv(expired) && Claimable(expired, op.pick, op.ids) && |op.ids| == |op.pick|
            && forall i | i in op.pick :: i in expired.jobs && expired.jobs[i].interval > 0
    ensures var expired, expires := ExpireLeases(w.db, op.now), op.now + LeaseSeconds(op.leaseSeconds);
            Apply(w, op) == World(ClaimAll(expired, op.pick, op.now, expires, op.ids),
                                  w.tasks + ClaimTasks(expired, op.pick, op.now, expires, op.ids))
  {
    PossibleIsClaimable(w.db, op);
    hide ExpireLeases, ClaimAll, ClaimTasks, DuePick, Claimable, Inv, FreshIds, LeaseSeconds, ClaimLimit;
  }

  lemma {:induction false} ApplyGapless(w: World, op: Op, j: Id) returns (times: seq<int>)
    requires History(w) && Possible(w.db, op) && j in w.db.jobs && w.db.jobs[j].policy == CatchUp
    ensures Gapless(w.db, Apply(w, op).db, j, times)
    ensures FirstTimes(Apply(w, op).tasks, j) == FirstTimes(w.tasks, j) + times
  {
    hide Apply, Possible, ExpireLeases, ClaimAll, ClaimTasks, FirstTimes, Gapless, Claimable, History, Inv;
    HistoryHasInv(w);
    if op.ClaimDue? {
      ClaimDueIs(w, op);
      var expired, expires := ExpireLeases(w.db, op.now), op.now + LeaseSeconds(op.leaseSeconds);
      OtherOpsGapless(w.db, op, j);
      StatusOnly(w.db, op);
      StatusKeepsHistory(w, expired);
      GaplessHas(w.db, expired, j);
      ClaimAllGapless(World(expired, w.tasks), op.pick, j, op.now, expires, op.ids);
      var tasks := ClaimTasks(expired, op.pick, op.now, expires, op.ids);
      times := FirstTimes(tasks, j);
      FirstTimesConcat(w.tasks, tasks, j);
      GaplessJoins(w.db, expired, Apply(w, op).db, j, [], times);
      assert [] + times == times;
    } else {
      times := [];
      StillGapless(w, op, j);
      assert FirstTimes(w.tasks, j) + [] == FirstTimes(w.tasks, j);
    }
  }

  lemma {:induction false} GaplessHas(db: Db, after: Db, j: Id)
    requires Gapless(db, after, j, [])
    ensures j in db.jobs && j in after.jobs && after.jobs[j].policy == db.jobs[j].policy
  {
  }

  /**
   * Under catch_up, over any run, the first attempts handed out for a job are exactly its next occurrence, the one an
   * interval later, and so on: none skipped, none twice, whatever clocks and leases do.
   */
  lemma {:induction false} CatchUpNeverSkips(w: World, ops: seq<Op>, j: Id) returns (times: seq<int>)
    requires History(w) && AllPossible(w, ops) && j in w.db.jobs && w.db.jobs[j].policy == CatchUp
    ensures FirstTimes(RunAll(w, ops).tasks, j) == FirstTimes(w.tasks, j) + times
    ensures forall k | 0 <= k < |times| :: times[k] == Nth(w.db.jobs[j].nextRun, w.db.jobs[j].interval, k)
    ensures Gapless(w.db, RunAll(w, ops).db, j, times)
    decreases |ops|
  {
    hide History, Possible, Apply, FirstTimes, Nth;
    HistoryHasInv(w);
    if ops == [] {
      times := [];
      NoTimes(w.db, j);
      assert FirstTimes(w.tasks, j) + [] == FirstTimes(w.tasks, j);
    } else {
      var first := ApplyGapless(w, ops[0], j);
      ApplyKeepsHistory(w, ops[0]);
      var second := CatchUpNeverSkips(Apply(w, ops[0]), ops[1..], j);
      times := first + second;
      GaplessJoins(w.db, Apply(w, ops[0]).db, RunAll(w, ops).db, j, first, second);
      assert FirstTimes(w.tasks, j) + first + second == FirstTimes(w.tasks, j) + times;
    }
  }
}
