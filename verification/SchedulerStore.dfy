/** The scheduler's store: each method is one transaction on the three tables. */
module SchedulerStore {
  import opened Text
  import opened Scheduler
  import R = SchedulerRuns
  import H = SchedulerHistory

  /** The jobs of the done leases have been retried or reset, their runs timed out. */
  function Reaped(db: Db, now: int, done: set<Id>): Db {
    Db(map j | j in db.jobs ::
         if j in done && ExpiredRun(db, j, now)
         then Retried(db.jobs[j], db.runs[db.leases[j].run], now) else db.jobs[j],
       map r | r in db.runs ::
         if db.runs[r].job in done && ExpiredRun(db, db.runs[r].job, now) && db.leases[db.runs[r].job].run == r
         then db.runs[r].(status := TimedOut) else db.runs[r],
       db.leases)
  }

  lemma {:induction false} ReapOneMore(db: Db, now: int, done: set<Id>, j: Id)
    requires R.Inv(db) && j !in done && ExpiredRun(db, j, now)
    ensures var before, r := Reaped(db, now, done), db.leases[j].run;
            && j in before.jobs && r in before.runs && before.jobs[j] == db.jobs[j] && before.runs[r] == db.runs[r]
            && Reaped(db, now, done + {j}) ==
               Db(before.jobs[j := Retried(db.jobs[j], db.runs[r], now)],
                   before.runs[r := db.runs[r].(status := TimedOut)], db.leases)
  {
    hide Retried, R.Inv, R.RunFine, R.RetryFine;
    var r := db.leases[j].run;
    R.LeasedRun(db, j);
    var before, after := Reaped(db, now, done), Reaped(db, now, done + {j});
    assert after.jobs == before.jobs[j := Retried(db.jobs[j], db.runs[r], now)];
    assert after.runs == before.runs[r := db.runs[r].(status := TimedOut)];
  }

  lemma {:induction false} ReapNone(db: Db, now: int)
    ensures Reaped(db, now, {}) == db
  {
    hide Retried, ExpiredRun;
    assert Reaped(db, now, {}).jobs == db.jobs && Reaped(db, now, {}).runs == db.runs;
  }

  lemma {:induction false} ReapAll(db: Db, now: int, all: set<Id>)
    requires forall j :: j in all <==> Expired(db, j, now)
    ensures ExpireLeases(db, now) ==
            Reaped(db, now, all).(leases := map j | j in db.leases && !Expired(db, j, now) :: db.leases[j])
  {
    hide Retried, Expired;
    var whole, part := ExpireLeases(db, now), Reaped(db, now, all);
    assert forall j | ExpiredRun(db, j, now) :: j in all;
    hide ExpiredRun;
    forall j | j in db.jobs ensures whole.jobs[j] == part.jobs[j] {
    }
    assert whole.jobs == part.jobs;
    forall r | r in db.runs ensures whole.runs[r] == part.runs[r] {
    }
    assert whole.runs == part.runs;
  }

  class Store {
    var jobs: map<Id, Job>
    var runs: map<Id, JobRun>
    var leases: map<Id, Lease>

    function Tables(): Db
      reads this
    {
      Db(jobs, runs, leases)
    }

    ghost predicate Valid()
      reads this
    {
      R.Inv(Tables())
    }

    constructor ()
      ensures Valid() && Tables() == Db(map[], map[], map[])
    {
      jobs, runs, leases := map[], map[], map[];
      new;
      R.EmptyIsFine();
    }

    /** None for a bad request; otherwise the new job, or the one that has the key already. */
    method Create(q: CreateRequest, id: Id) returns (job: Option<Id>)
      requires Valid() && id !in jobs
      modifies this
      ensures Valid() && Tables() == Created(old(Tables()), q, id)
      ensures job.Some? <==> ValidRequest(q)
      ensures job.Some? ==> job.value in jobs && jobs[job.value].key == Trim(q.key)
    {
      hide Trim, R.Inv;
      R.CreateKeeps(Tables(), q, id);
      if !ValidRequest(q) {
        return None;
      }
      if j :| j in jobs && jobs[j].key == Trim(q.key) {
        assert KeyTaken(Tables(), Trim(q.key));
        return Some(j);
      }
      jobs := jobs[id := NewJob(q)];
      return Some(id);
    }

    method ChangeState(j: Id, status: JobStatus) returns (ok: bool)
      requires Valid()
      modifies this
      ensures Valid() && Tables() == Changed(old(Tables()), j, status)
      ensures ok <==> j in old(jobs) && old(jobs)[j].status != Archived
    {
      hide R.Inv;
      R.ChangeKeeps(Tables(), j, status);
      if j !in jobs || jobs[j].status == Archived {
        return false;
      }
      jobs := jobs[j := jobs[j].(status := status)];
      return true;
    }

    method Acknowledge(run: Id, lease: Id, coreTask: string, status: RunStatus, now: int) returns (ok: bool)
      requires Valid()
      modifies this
      ensures Valid() && Tables() == Acknowledged(old(Tables()), run, lease, coreTask, status, now)
      ensures ok <==>
              status != Claimed && Holds(old(Tables()), run, lease) && (status == TaskCreated ==> Trim(coreTask) != "")
    {
      hide R.Inv, Retried, Trim;
      AckKeeps(Tables(), run, lease, coreTask, status, now);
      if status == Claimed || !Holds(Tables(), run, lease) {
        return false;
      }
      if status == TaskCreated && Trim(coreTask) == "" {
        return false;
      }
      var record := runs[run];
      var j := record.job;
      runs := runs[run := record.(status := status)];
      leases := leases - {j};
      if status == TaskCreated {
        jobs := jobs[j := jobs[j].(retryAttempt := 0, retryAt := None, retryOrigin := None)];
      } else if status == Failed || status == TimedOut {
        jobs := jobs[j := Retried(jobs[j], record, now)];
      } else {
        jobs := jobs[j := jobs[j].(retryAttempt := 0)];
      }
      return true;
    }

    /** Times out the claimed runs whose lease has run out, and drops those leases. */
    method Reap(now: int)
      requires Valid()
      modifies this
      ensures Valid() && Tables() == ExpireLeases(old(Tables()), now)
    {
      hide R.Inv, R.Ends, Retried, Reaped, ExpireLeases;
      ghost var db := Tables();
      var expired := set j | j in leases && leases[j].expires <= now;
      ghost var done: set<Id> := {};
      var todo := expired;
      ReapAll(db, now, expired);
      ReapNone(db, now);
      R.ExpireEnds(db, now);
      assert expired == set j | j in db.leases && Expired(db, j, now);
      R.EndsKeeps(db, ExpireLeases(db, now), expired);
      while todo != {}
        invariant todo <= expired && done == expired - todo
        invariant leases == db.leases && Tables() == Reaped(db, now, done)
        decreases todo
      {
        var j :| j in todo;
        R.LeasedRun(db, j);
        ReapOneMore(db, now, done, j);
        var r := leases[j].run;
        var run := runs[r];
        runs := runs[r := run.(status := TimedOut)];
        jobs := jobs[j := Retried(jobs[j], run, now)];
        todo := todo - {j};
        done := done + {j};
      }
      assert done == expired;
      leases := map j | j in leases && leases[j].expires > now :: leases[j];
      assert leases == map j | j in db.leases && !Expired(db, j, now) :: db.leases[j];
    }

    /** The least due candidate. */
    method Earliest(candidates: set<Id>) returns (m: Id)
      requires candidates != {} && forall j | j in candidates :: j in jobs
      ensures m in candidates && forall j | j in candidates && j != m :: Before(Tables(), m, j)
    {
      m :| m in candidates;
      var rest := candidates - {m};
      while rest != {}
        invariant rest <= candidates && m in candidates && m !in rest
        invariant forall j | j in candidates && j !in rest && j != m :: Before(Tables(), m, j)
        decreases rest
      {
        var j :| j in rest;
        rest := rest - {j};
        if Before(Tables(), j, m) {
          m := j;
        }
      }
    }

    method SelectDue(now: int, limit: int) returns (pick: seq<Id>)
      requires limit >= 0
      ensures DuePick(Tables(), now, limit, pick)
    {
      hide Before;
      pick := [];
      var candidates := set j | j in jobs && Due(Tables(), j, now);
      while candidates != {} && |pick| < limit
        invariant |pick| <= limit
        invariant forall j | j in candidates :: Due(Tables(), j, now) && j !in pick
        invariant forall i | 0 <= i < |pick| :: Due(Tables(), pick[i], now)
        invariant forall i, k | 0 <= i < k < |pick| :: Before(Tables(), pick[i], pick[k])
        invariant forall i, j | 0 <= i < |pick| && j in candidates :: Before(Tables(), pick[i], j)
        invariant forall j | j in jobs && Due(Tables(), j, now) :: j in candidates || j in pick
        decreases candidates
      {
        var j := Earliest(candidates);
        pick := pick + [j];
        candidates := candidates - {j};
      }
    }

    /** ClaimDue: reap, select, claim one by one. The ids come from outside; the order of ties is the table's. */
    method ClaimDue(
      now: int, limit: int, leaseSeconds: int, ids: seq<(Id, Id)>) returns (tasks: seq<JobRun>, ghost pick: seq<Id>)
      requires Valid() && |ids| >= 100 && FreshIds(Tables(), ids)
      modifies this
      ensures Valid() && |pick| <= |ids|
      ensures var op := H.ClaimDue(now, limit, leaseSeconds, pick, ids[..|pick|]);
              && H.Possible(old(Tables()), op)
              && forall earlier :: H.Apply(H.World(old(Tables()), earlier), op) == H.World(Tables(), earlier + tasks)
    {
      hide R.Inv, ExpireLeases, ClaimOne, DuePick, Delivered, Claim, ClaimedJob, H.Claimable, FreshIds;
      ghost var start := Tables();
      Reap(now);
      ghost var db := Tables();
      ReapKeepsRuns(start, now, ids);
      var due := SelectDue(now, ClaimLimit(limit));
      pick := due;
      PickLength(db, now, ClaimLimit(limit), due);
      ghost var used := ids[..|pick|];
      FreshPrefix(db, ids, |pick|);
      H.PossibleIsClaimable(start, H.ClaimDue(now, limit, leaseSeconds, pick, used));
      var expires := now + LeaseSeconds(leaseSeconds);
      tasks := [];
      assert pick[0..] == pick && used[0..] == used
          && [] + ClaimTasks(db, pick, now, expires, used) == ClaimTasks(db, pick, now, expires, used);
      for i := 0 to |due|
        invariant Valid() && H.Claimable(Tables(), pick[i..], used[i..])
        invariant forall j | j in pick[i..] :: j in jobs && jobs[j].interval > 0
        invariant ClaimAll(db, pick, now, expires, used) == ClaimAll(Tables(), pick[i..], now, expires, used[i..])
        invariant ClaimTasks(db, pick, now, expires, used) ==
                  tasks + ClaimTasks(Tables(), pick[i..], now, expires, used[i..])
      {
        var j := due[i];
        assert pick[i..][0] == j && pick[i..][1..] == pick[i + 1..];
        assert used[i..][0] == ids[i] && used[i..][1..] == used[i + 1..];
        H.FirstClaimable(Tables(), pick[i..], used[i..]);
        R.ClaimNotDelivered(Tables(), j);
        R.ClaimKeeps(Tables(), j, now, expires, ids[i].0, ids[i].1);
        H.ClaimRestClaimable(Tables(), pick[i..], now, expires, used[i..]);
        H.SettingsStay(Tables(), pick[i..], now, expires, ids[i].0, ids[i].1);
        ghost var before, done := Tables(), tasks;
        var run := ClaimRow(j, now, expires, ids[i].0, ids[i].1);
        tasks := tasks + [run];
        TasksStep(done, before, Tables(), pick[i..], now, expires, used[i..]);
      }
      assert pick[|due|..] == [] && tasks + [] == tasks;
    }

    /** One due job: insert the run and the lease, move the job on. */
    method ClaimRow(j: Id, now: int, expires: int, run: Id, lease: Id) returns (task: JobRun)
      requires j in jobs && jobs[j].interval > 0 && !Delivered(Tables(), Claim(Tables(), j).DeliveryKey())
      modifies this
      ensures task == Claim(old(Tables()), j) && Tables() == ClaimOne(old(Tables()), j, now, expires, run, lease)
    {
      hide Delivered, NextRun;
      var job := jobs[j];
      var scheduledAt := job.nextRun;
      if job.retryAttempt > 0 && job.retryOrigin.Some? {
        scheduledAt := job.retryOrigin.value;
      }
      var attempt := job.retryAttempt + 1;
      task := JobRun(j, job.key, scheduledAt, attempt, Claimed);
      runs := runs[run := task];
      leases := leases[j := Lease(run, lease, expires)];
      if job.retryAttempt > 0 {
        jobs := jobs[j := job.(retryAt := None)];
      } else {
        var next := AdvanceNextRun(scheduledAt, now, job.interval, job.policy);
        jobs := jobs[j := job.(nextRun := next)];
      }
    }
  }

  lemma {:induction false} TasksStep(
    done: seq<JobRun>, db: Db, next: Db, pick: seq<Id>, now: int, expires: int, ids: seq<(Id, Id)>)
    requires |ids| == |pick| && pick != [] && forall j | j in pick :: j in db.jobs && db.jobs[j].interval > 0
    requires !Delivered(db, Claim(db, pick[0]).DeliveryKey())
    requires next == ClaimOne(db, pick[0], now, expires, ids[0].0, ids[0].1)
    requires forall j | j in pick[1..] :: j in next.jobs && next.jobs[j].interval > 0
    ensures done + ClaimTasks(db, pick, now, expires, ids) ==
            done + [Claim(db, pick[0])] + ClaimTasks(next, pick[1..], now, expires, ids[1..])
  {
    hide Delivered, Claim, ClaimOne;
  }

  lemma {:induction false} ReapKeepsRuns(db: Db, now: int, ids: seq<(Id, Id)>)
    requires FreshIds(db, ids)
    ensures FreshIds(ExpireLeases(db, now), ids)
  {
    hide Retried;
  }

  lemma {:induction false} FreshPrefix(db: Db, ids: seq<(Id, Id)>, n: nat)
    requires FreshIds(db, ids) && n <= |ids|
    ensures FreshIds(db, ids[..n])
  {
  }

  lemma {:induction false} PickLength(db: Db, now: int, limit: int, pick: seq<Id>)
    requires DuePick(db, now, limit, pick)
    ensures |pick| <= limit
  {
  }

  lemma {:induction false} AckKeeps(db: Db, run: Id, lease: Id, coreTask: string, status: RunStatus, now: int)
    requires R.Inv(db)
    ensures R.Inv(Acknowledged(db, run, lease, coreTask, status, now))
  {
    hide R.Inv, AckedJob, Trim;
    var after := Acknowledged(db, run, lease, coreTask, status, now);
    if after != db {
      R.AckEndsOne(db, run, lease, coreTask, status, now);
      R.EndsKeeps(db, after, {db.runs[run].job});
    }
  }
}
