/** Whole runs of a job that makes up for what it missed with one run. */
module SchedulerRunOnce {
  import opened Scheduler
  import opened SchedulerRuns
  import opened SchedulerHistory
  import opened SchedulerSkip

  /** One interval later; or where a claim came later than that, one interval after the claim. */
  predicate NextOnce(t: int, next: int, interval: int, clocks: set<int>) {
    exists now | now in clocks :: next == if t + interval < now then now + interval else t + interval
  }

  /** The first attempts of j from db to after, and then its next occurrence in after. */
  function Chain(after: Db, j: Id, times: seq<int>): seq<int>
    requires j in after.jobs
  {
    times + [after.jobs[j].nextRun]
  }

  /** They begin with the next occurrence in db, and each follows from the one before and the clock of a claim. */
  predicate Paced(db: Db, after: Db, j: Id, times: seq<int>, clocks: set<int>) {
    && j in db.jobs && j in after.jobs
    && after.jobs[j].interval == db.jobs[j].interval && after.jobs[j].policy == db.jobs[j].policy
    && Chain(after, j, times)[0] == db.jobs[j].nextRun
    && forall i | 0 <= i < |times| ::
         NextOnce(Chain(after, j, times)[i], Chain(after, j, times)[i + 1], db.jobs[j].interval, clocks)
  }

  lemma {:induction false} MoreClocks(t: int, next: int, interval: int, clocks: set<int>, more: set<int>)
    requires NextOnce(t, next, interval, clocks) && clocks <= more
    ensures NextOnce(t, next, interval, more)
  {
  }

  lemma {:induction false} PacedJoins(
    a: Db, b: Db, c: Db, j: Id, first: seq<int>, before: set<int>, second: seq<int>, later: set<int>)
    requires Paced(a, b, j, first, before) && Paced(b, c, j, second, later)
    ensures Paced(a, c, j, first + second, before + later)
  {
    hide NextOnce;
    var all, m, interval := Chain(c, j, first + second), |first|, a.jobs[j].interval;
    assert all[m] == Chain(c, j, second)[0] == b.jobs[j].nextRun;
    forall i | 0 <= i < |first + second| ensures NextOnce(all[i], all[i + 1], interval, before + later) {
      if i < m {
        assert all[i] == Chain(b, j, first)[i] && all[i + 1] == Chain(b, j, first)[i + 1];
        MoreClocks(all[i], all[i + 1], interval, before, before + later);
      } else {
        assert all[i] == Chain(c, j, second)[i - m] && all[i + 1] == Chain(c, j, second)[i - m + 1];
        MoreClocks(all[i], all[i + 1], interval, later, before + later);
      }
    }
  }

  lemma {:induction false} StillPaced(db: Db, after: Db, j: Id, clocks: set<int>)
    requires Gapless(db, after, j, [])
    ensures Paced(db, after, j, [], clocks)
  {
    NthStep(db.jobs[j].nextRun, db.jobs[j].interval, 0);
  }

  // ----- claims -----

  lemma {:induction false} ClaimMakesUp(db: Db, j: Id, now: int, expires: int, run: Id, lease: Id)
    requires Inv(db) && j in db.jobs && j !in db.leases && db.jobs[j].policy == RunOnce && db.jobs[j].retryAttempt == 0
    ensures JobFine(db.jobs[j])
    ensures FirstTimes([Claim(db, j)], j) == [db.jobs[j].nextRun]
    ensures Paced(db, ClaimOne(db, j, now, expires, run, lease), j, [db.jobs[j].nextRun], {now})
  {
    FineJob(db, j);
    ClaimNotDelivered(db, j);
    hide Inv, EarlierClaim, Delivered;
    var claim := Claim(db, j);
    assert [claim][..0] == [] && FirstTimes([], j) == [];
    assert now in {now};
  }

  lemma {:induction false} ClaimPaces(db: Db, i: Id, j: Id, now: int, expires: int, run: Id, lease: Id)
    requires Inv(db) && i in db.jobs && i !in db.leases && j in db.jobs && db.jobs[j].policy == RunOnce
    ensures JobFine(db.jobs[i])
    ensures Paced(db, ClaimOne(db, i, now, expires, run, lease), j, FirstTimes([Claim(db, i)], j), {now})
  {
    hide Claim, ClaimOne, Paced, Gapless, JobFine, FirstTimes;
    FineJob(db, i);
    RetryCount(db, i);
    if i == j && db.jobs[i].retryAttempt == 0 {
      ClaimMakesUp(db, j, now, expires, run, lease);
    } else {
      ClaimOthers(db, i, j, now, expires, run, lease);
      StillPaced(db, ClaimOne(db, i, now, expires, run, lease), j, {now});
    }
  }

  lemma {:induction false} ClaimAllPaces(
    w: World, pick: seq<Id>, j: Id, now: int, expires: int, ids: seq<(Id, Id)>)
    requires History(w) && Claimable(w.db, pick, ids)
    requires forall i | i in pick :: i in w.db.jobs && w.db.jobs[i].interval > 0
    requires j in w.db.jobs && w.db.jobs[j].policy == RunOnce
    ensures Paced(w.db, ClaimAll(w.db, pick, now, expires, ids), j,
                  FirstTimes(ClaimTasks(w.db, pick, now, expires, ids), j), {now})
    decreases |pick|
  {
    hide History, Claimable, ClaimOne, Delivered, Claim, JobFine, FirstTimes, Paced, Gapless;
    if pick == [] {
      NoTimes(w.db, j);
      StillPaced(w.db, w.db, j, {now});
    } else {
      var i := pick[0];
      FirstClaimable(w.db, pick, ids);
      HistoryHasInv(w);
      ClaimKeepsHistory(w, i, now, expires, ids[0].0, ids[0].1);
      ClaimRestClaimable(w.db, pick, now, expires, ids);
      SettingsStay(w.db, pick, now, expires, ids[0].0, ids[0].1);
      var next := ClaimOne(w.db, i, now, expires, ids[0].0, ids[0].1);
      ClaimPaces(w.db, i, j, now, expires, ids[0].0, ids[0].1);
      PacedHas(w.db, next, j, FirstTimes([Claim(w.db, i)], j), {now});
      ClaimAllPaces(World(next, w.tasks + [Claim(w.db, i)]), pick[1..], j, now, expires, ids[1..]);
      var rest := ClaimTasks(next, pick[1..], now, expires, ids[1..]);
      FirstTimesConcat([Claim(w.db, i)], rest, j);
      PacedJoins(w.db, next, ClaimAll(w.db, pick, now, expires, ids), j,
                 FirstTimes([Claim(w.db, i)], j), {now}, FirstTimes(rest, j), {now});
      assert {now} + {now} == {now};
    }
  }

  lemma {:induction false} PacedHas(db: Db, after: Db, j: Id, times: seq<int>, clocks: set<int>)
    requires Paced(db, after, j, times, clocks)
    ensures j in db.jobs && j in after.jobs && after.jobs[j].policy == db.jobs[j].policy
  {
  }

  // ----- runs -----

  lemma {:induction false} ApplyPaces(w: World, op: Op, j: Id) returns (times: seq<int>)
    requires History(w) && Possible(w.db, op) && j in w.db.jobs && w.db.jobs[j].policy == RunOnce
    ensures Paced(w.db, Apply(w, op).db, j, times, Clock(op))
    ensures FirstTimes(Apply(w, op).tasks, j) == FirstTimes(w.tasks, j) + times
  {
    hide Apply, Possible, ExpireLeases, ClaimAll, ClaimTasks, FirstTimes, Gapless, Claimable, History, Inv, Paced;
    HistoryHasInv(w);
    if op.ClaimDue? {
      ClaimDueIs(w, op);
      var expired, expires := ExpireLeases(w.db, op.now), op.now + LeaseSeconds(op.leaseSeconds);
      OtherOpsGapless(w.db, op, j);
      StatusOnly(w.db, op);
      StatusKeepsHistory(w, expired);
      GaplessHas(w.db, expired, j);
      StillPaced(w.db, expired, j, {});
      ClaimAllPaces(World(expired, w.tasks), op.pick, j, op.now, expires, op.ids);
      var tasks := ClaimTasks(expired, op.pick, op.now, expires, op.ids);
      times := FirstTimes(tasks, j);
      FirstTimesConcat(w.tasks, tasks, j);
      PacedJoins(w.db, expired, Apply(w, op).db, j, [], {}, times, {op.now});
      assert [] + times == times && {} + {op.now} == Clock(op);
    } else {
      times := [];
      StillGapless(w, op, j);
      StillPaced(w.db, Apply(w, op).db, j, {});
      assert FirstTimes(w.tasks, j) + [] == FirstTimes(w.tasks, j);
    }
  }

  /**
   * Under run_once, over any run, the first attempts handed out for a job begin with its next occurrence, and each is
   * an interval after the one before, or after the clock of a claim that came later than that: however many occurrences
   * were missed, one run makes up for them, and no two are closer than an interval.
   */
  lemma {:induction false} RunOnceKeepsPace(w: World, ops: seq<Op>, j: Id) returns (times: seq<int>)
    requires History(w) && AllPossible(w, ops) && j in w.db.jobs && w.db.jobs[j].policy == RunOnce
    ensures FirstTimes(RunAll(w, ops).tasks, j) == FirstTimes(w.tasks, j) + times
    ensures Paced(w.db, RunAll(w, ops).db, j, times, Clocks(ops))
    ensures forall i | 0 < i < |times| :: times[i - 1] + w.db.jobs[j].interval <= times[i]
    decreases |ops|
  {
    hide History, Possible, Apply, FirstTimes, Paced, Gapless;
    HistoryHasInv(w);
    if ops == [] {
      times := [];
      NoTimes(w.db, j);
      StillPaced(w.db, w.db, j, {});
      assert FirstTimes(w.tasks, j) + [] == FirstTimes(w.tasks, j);
    } else {
      var first := ApplyPaces(w, ops[0], j);
      PacedHas(w.db, Apply(w, ops[0]).db, j, first, Clock(ops[0]));
      ApplyKeepsHistory(w, ops[0]);
      var second := RunOnceKeepsPace(Apply(w, ops[0]), ops[1..], j);
      times := first + second;
      PacedJoins(w.db, Apply(w, ops[0]).db, RunAll(w, ops).db, j, first, Clock(ops[0]), second, Clocks(ops[1..]));
      assert FirstTimes(w.tasks, j) + first + second == FirstTimes(w.tasks, j) + times;
    }
    PacedApart(w.db, RunAll(w, ops).db, j, times, Clocks(ops));
  }

  lemma {:induction false} PacedApart(db: Db, after: Db, j: Id, times: seq<int>, clocks: set<int>)
    requires Inv(db) && Paced(db, after, j, times, clocks)
    ensures forall i | 0 < i < |times| :: times[i - 1] + db.jobs[j].interval <= times[i]
  {
    FineJob(db, j);
    hide NextOnce, Inv;
    forall i | 0 < i < |times| ensures times[i - 1] + db.jobs[j].interval <= times[i] {
      var k, chain := i - 1, Chain(after, j, times);
      assert chain[k] == times[k] && chain[k + 1] == times[k + 1];
      NextIsLater(chain[k], chain[k + 1], db.jobs[j].interval, clocks);
    }
  }

  lemma {:induction false} NextIsLater(t: int, next: int, interval: int, clocks: set<int>)
    requires NextOnce(t, next, interval, clocks) && interval > 0
    ensures t + interval <= next
  {
  }
}
