/** Whole runs of a job that skips what it missed. */
module SchedulerSkip {
  import opened Scheduler
  import opened SchedulerRuns
  import opened SchedulerHistory

  /** At or before one of the clock values. */
  predicate Past(t: int, clocks: set<int>) {
    exists now | now in clocks :: t <= now
  }

  /** The k-th occurrence of job j counted from its next one. */
  function Occasion(db: Db, j: Id, k: nat): int
    requires j in db.jobs
  {
    Nth(db.jobs[j].nextRun, db.jobs[j].interval, k)
  }

  /**
   * From db to after, the first attempts of j were its occurrences with the numbers ks, counted from the next one in
   * db; the next one in after has the number n, and of those before it only past ones were left out.
   */
  predicate Strided(db: Db, after: Db, j: Id, times: seq<int>, ks: seq<nat>, n: nat, clocks: set<int>) {
    && j in db.jobs && j in after.jobs
    && after.jobs[j].interval == db.jobs[j].interval && after.jobs[j].policy == db.jobs[j].policy
    && after.jobs[j].nextRun == Occasion(db, j, n)
    && |ks| == |times|
    && (forall i | 0 <= i < |ks| :: ks[i] < n && times[i] == Occasion(db, j, ks[i]))
    && (forall i, k | 0 <= i < k < |ks| :: ks[i] < ks[k])
    && OnlyPastLeftOut(db, j, ks, n, clocks)
  }

  predicate OnlyPastLeftOut(db: Db, j: Id, ks: seq<nat>, n: nat, clocks: set<int>)
    requires j in db.jobs
  {
    forall k: nat | k < n && k !in ks :: Past(Occasion(db, j, k), clocks)
  }

  function Plus(a: nat, ks: seq<nat>): (r: seq<nat>)
    ensures |r| == |ks| && forall i | 0 <= i < |ks| :: r[i] == a + ks[i]
  {
    seq(|ks|, i requires 0 <= i < |ks| => a + ks[i])
  }

  lemma {:induction false} PlusHas(a: nat, ks: seq<nat>)
    ensures forall k | k in ks :: a + k in Plus(a, ks)
  {
    forall k | k in ks ensures a + k in Plus(a, ks) {
      var i :| 0 <= i < |ks| && ks[i] == k;
      assert Plus(a, ks)[i] == a + k;
    }
  }

  lemma {:induction false} LeftOutJoins(
    a: Db, b: Db, j: Id, ks: seq<nat>, m: nat, before: set<int>, ls: seq<nat>, n: nat, later: set<int>)
    requires j in a.jobs && j in b.jobs
    requires OnlyPastLeftOut(a, j, ks, m, before) && OnlyPastLeftOut(b, j, ls, n, later)
    requires forall k: nat :: Occasion(b, j, k) == Occasion(a, j, m + k)
    ensures OnlyPastLeftOut(a, j, ks + Plus(m, ls), m + n, before + later)
  {
    hide Occasion, Plus;
    PlusHas(m, ls);
    var all := ks + Plus(m, ls);
    forall k: nat | k < m + n && k !in all ensures Past(Occasion(a, j, k), before + later) {
      if k < m {
        assert Past(Occasion(a, j, k), before);
      } else {
        var l: nat := k - m;
        assert m + l !in all;
        assert Past(Occasion(b, j, l), later);
        assert Occasion(b, j, l) == Occasion(a, j, m + l);
      }
    }
  }

  lemma {:induction false} StridedJoins(
    a: Db, b: Db, c: Db, j: Id, first: seq<int>, ks: seq<nat>, m: nat, before: set<int>,
    second: seq<int>, ls: seq<nat>, n: nat, later: set<int>)
    requires Strided(a, b, j, first, ks, m, before) && Strided(b, c, j, second, ls, n, later)
    ensures Strided(a, c, j, first + second, ks + Plus(m, ls), m + n, before + later)
  {
    hide Nth, OnlyPastLeftOut;
    forall k: nat ensures Occasion(b, j, k) == Occasion(a, j, m + k) {
      NthAdds(a.jobs[j].nextRun, a.jobs[j].interval, m, k);
    }
    LeftOutJoins(a, b, j, ks, m, before, ls, n, later);
  }

  /** Nothing happened to the job: what a gapless stretch without first attempts says under any policy. */
  lemma {:induction false} StillStrided(db: Db, after: Db, j: Id, clocks: set<int>)
    requires Gapless(db, after, j, [])
    ensures Strided(db, after, j, [], [], 0, clocks)
  {
  }

  // ----- claims -----

  lemma {:induction false} ClaimOthers(db: Db, i: Id, j: Id, now: int, expires: int, run: Id, lease: Id)
    requires Inv(db) && i in db.jobs && i !in db.leases && j in db.jobs
    requires i != j || db.jobs[i].retryAttempt > 0
    ensures JobFine(db.jobs[i])
    ensures Gapless(db, ClaimOne(db, i, now, expires, run, lease), j, [])
    ensures FirstTimes([Claim(db, i)], j) == []
  {
    hide Inv, EarlierClaim, Delivered;
    FineJob(db, i);
    var claim := Claim(db, i);
    assert [claim][..0] == [] && FirstTimes([], j) == [];
    NthStep(db.jobs[j].nextRun, db.jobs[j].interval, 0);
  }

  /** A first attempt is the next occurrence, and the claim leaves out those that its clock has passed. */
  lemma {:induction false} ClaimSkips(db: Db, j: Id, now: int, expires: int, run: Id, lease: Id) returns (n: nat)
    requires Inv(db) && j in db.jobs && j !in db.leases && db.jobs[j].policy == Skip && db.jobs[j].retryAttempt == 0
    ensures JobFine(db.jobs[j])
    ensures FirstTimes([Claim(db, j)], j) == [db.jobs[j].nextRun]
    ensures var after := ClaimOne(db, j, now, expires, run, lease);
            Strided(db, after, j, [db.jobs[j].nextRun], [0], n, {now}) && after.jobs[j].nextRun > now
  {
    FineJob(db, j);
    ClaimNotDelivered(db, j);
    hide Inv, EarlierClaim, Delivered, FirstAfter, Nth;
    var claim := Claim(db, j);
    assert [claim][..0] == [] && FirstTimes([], j) == [];
    var start, interval := db.jobs[j].nextRun, db.jobs[j].interval;
    n := SkipIsLeast(start, now, interval);
    NthStep(start, interval, 0);
    assert 0 in [0];
  }

  lemma {:induction false} ClaimStrides(db: Db, i: Id, j: Id, now: int, expires: int, run: Id, lease: Id)
    returns (ks: seq<nat>, n: nat)
    requires Inv(db) && i in db.jobs && i !in db.leases && j in db.jobs && db.jobs[j].policy == Skip
    ensures JobFine(db.jobs[i])
    ensures Strided(db, ClaimOne(db, i, now, expires, run, lease), j, FirstTimes([Claim(db, i)], j), ks, n, {now})
  {
    hide Claim, ClaimOne, Strided, Gapless, JobFine, FirstTimes;
    FineJob(db, i);
    RetryCount(db, i);
    if i == j && db.jobs[i].retryAttempt == 0 {
      n := ClaimSkips(db, j, now, expires, run, lease);
      ks := [0];
    } else {
      ClaimOthers(db, i, j, now, expires, run, lease);
      StillStrided(db, ClaimOne(db, i, now, expires, run, lease), j, {now});
      ks, n := [], 0;
    }
  }

  lemma {:induction false} RetryCount(db: Db, j: Id)
    requires Inv(db) && j in db.jobs
    ensures db.jobs[j].retryAttempt >= 0
  {
    FineJob(db, j);
  }

  lemma {:induction false} ClaimAllStrides(
    w: World, pick: seq<Id>, j: Id, now: int, expires: int, ids: seq<(Id, Id)>) returns (ks: seq<nat>, n: nat)
    requires History(w) && Claimable(w.db, pick, ids)
    requires forall i | i in pick :: i in w.db.jobs && w.db.jobs[i].interval > 0
    requires j in w.db.jobs && w.db.jobs[j].policy == Skip
    ensures Strided(w.db, ClaimAll(w.db, pick, now, expires, ids), j,
                    FirstTimes(ClaimTasks(w.db, pick, now, expires, ids), j), ks, n, {now})
    decreases |pick|
  {
    hide History, Claimable, ClaimOne, Delivered, Claim, JobFine, FirstTimes, Strided, Gapless;
    if pick == [] {
      NoTimes(w.db, j);
      StillStrided(w.db, w.db, j, {now});
      ks, n := [], 0;
    } else {
      var i := pick[0];
      FirstClaimable(w.db, pick, ids);
      HistoryHasInv(w);
      ClaimKeepsHistory(w, i, now, expires, ids[0].0, ids[0].1);
      ClaimRestClaimable(w.db, pick, now, expires, ids);
      SettingsStay(w.db, pick, now, expires, ids[0].0, ids[0].1);
      var next := ClaimOne(w.db, i, now, expires, ids[0].0, ids[0].1);
      var first, m := ClaimStrides(w.db, i, j, now, expires, ids[0].0, ids[0].1);
      StridedHas(w.db, next, j, FirstTimes([Claim(w.db, i)], j), first, m, {now});
      var others, k :=
        ClaimAllStrides(World(next, w.tasks + [Claim(w.db, i)]), pick[1..], j, now, expires, ids[1..]);
      var rest := ClaimTasks(next, pick[1..], now, expires, ids[1..]);
      FirstTimesConcat([Claim(w.db, i)], rest, j);
      StridedJoins(w.db, next, ClaimAll(w.db, pick, now, expires, ids), j,
                   FirstTimes([Claim(w.db, i)], j), first, m, {now}, FirstTimes(rest, j), others, k, {now});
      ks, n := first + Plus(m, others), m + k;
      assert {now} + {now} == {now};
    }
  }

  lemma {:induction false} StridedHas(
    db: Db, after: Db, j: Id, times: seq<int>, ks: seq<nat>, n: nat, clocks: set<int>)
    requires Strided(db, after, j, times, ks, n, clocks)
    ensures j in db.jobs && j in after.jobs && after.jobs[j].policy == db.jobs[j].policy
  {
  }

  // ----- runs -----

  function Clock(op: Op): set<int> {
    if op.ClaimDue? then {op.now} else {}
  }

  /** The clock values of the claims of a run. */
  function Clocks(ops: seq<Op>): set<int> {
    if ops == [] then {} else Clock(ops[0]) + Clocks(ops[1..])
  }

  lemma {:induction false} ApplyStrides(w: World, op: Op, j: Id)
    returns (times: seq<int>, ks: seq<nat>, n: nat)
    requires History(w) && Possible(w.db, op) && j in w.db.jobs && w.db.jobs[j].policy == Skip
    ensures Strided(w.db, Apply(w, op).db, j, times, ks, n, Clock(op))
    ensures FirstTimes(Apply(w, op).tasks, j) == FirstTimes(w.tasks, j) + times
  {
    hide Apply, Possible, ExpireLeases, ClaimAll, ClaimTasks, FirstTimes, Gapless, Claimable, History, Inv, Strided;
    HistoryHasInv(w);
    if op.ClaimDue? {
      ClaimDueIs(w, op);
      var expired, expires := ExpireLeases(w.db, op.now), op.now + LeaseSeconds(op.leaseSeconds);
      OtherOpsGapless(w.db, op, j);
      StatusOnly(w.db, op);
      StatusKeepsHistory(w, expired);
      GaplessHas(w.db, expired, j);
      StillStrided(w.db, expired, j, {});
      ks, n := ClaimAllStrides(World(expired, w.tasks), op.pick, j, op.now, expires, op.ids);
      var tasks := ClaimTasks(expired, op.pick, op.now, expires, op.ids);
      times := FirstTimes(tasks, j);
      FirstTimesConcat(w.tasks, tasks, j);
      StridedJoins(w.db, expired, Apply(w, op).db, j, [], [], 0, {}, times, ks, n, {op.now});
      assert [] + times == times && [] + Plus(0, ks) == ks && {} + {op.now} == Clock(op);
    } else {
      times, ks, n := [], [], 0;
      StillGapless(w, op, j);
      StillStrided(w.db, Apply(w, op).db, j, {});
      assert FirstTimes(w.tasks, j) + [] == FirstTimes(w.tasks, j);
    }
  }

  /**
   * Under skip, over any run, the first attempts handed out for a job are occurrences of it, start plus a multiple of
   * the interval, each later than the one before; and an occurrence before the next one is left out only if the clock
   * of some claim had passed it.
   */
  lemma {:induction false} SkipKeepsTheGrid(w: World, ops: seq<Op>, j: Id)
    returns (times: seq<int>, ks: seq<nat>, n: nat)
    requires History(w) && AllPossible(w, ops) && j in w.db.jobs && w.db.jobs[j].policy == Skip
    ensures FirstTimes(RunAll(w, ops).tasks, j) == FirstTimes(w.tasks, j) + times
    ensures Strided(w.db, RunAll(w, ops).db, j, times, ks, n, Clocks(ops))
    ensures forall i, k | 0 <= i < k < |times| :: times[i] < times[k]
    decreases |ops|
  {
    hide History, Possible, Apply, FirstTimes, Strided, Gapless;
    HistoryHasInv(w);
    if ops == [] {
      times, ks, n := [], [], 0;
      NoTimes(w.db, j);
      StillStrided(w.db, w.db, j, {});
      assert FirstTimes(w.tasks, j) + [] == FirstTimes(w.tasks, j);
    } else {
      var first, ks0, m := ApplyStrides(w, ops[0], j);
      StridedHas(w.db, Apply(w, ops[0]).db, j, first, ks0, m, Clock(ops[0]));
      ApplyKeepsHistory(w, ops[0]);
      var second, ks1, k := SkipKeepsTheGrid(Apply(w, ops[0]), ops[1..], j);
      times, ks, n := first + second, ks0 + Plus(m, ks1), m + k;
      StridedJoins(w.db, Apply(w, ops[0]).db, RunAll(w, ops).db, j, first, ks0, m, Clock(ops[0]),
                   second, ks1, k, Clocks(ops[1..]));
      assert FirstTimes(w.tasks, j) + first + second == FirstTimes(w.tasks, j) + times;
    }
    StridedRises(w.db, RunAll(w, ops).db, j, times, ks, n, Clocks(ops));
  }

  lemma {:induction false} StridedRises(
    db: Db, after: Db, j: Id, times: seq<int>, ks: seq<nat>, n: nat, clocks: set<int>)
    requires Inv(db) && Strided(db, after, j, times, ks, n, clocks)
    ensures forall i, k | 0 <= i < k < |times| :: times[i] < times[k]
  {
    FineJob(db, j);
    hide Inv, Nth, OnlyPastLeftOut;
    forall i, k | 0 <= i < k < |times| ensures times[i] < times[k] {
      NthRises(db.jobs[j].nextRun, db.jobs[j].interval, ks[i], ks[k]);
    }
  }

  lemma {:induction false} NthRises(start: int, interval: int, a: nat, b: nat)
    requires interval > 0 && a < b
    ensures Nth(start, interval, a) < Nth(start, interval, b)
  {
    assert interval * b == interval * a + interval * (b - a);
  }
}
