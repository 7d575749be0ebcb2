/**
 * The coalescing reload runner of internal/configreload/watch.go: a debounce timer in front of
 * `fire`, whose calls may overlap on any number of goroutines.
 */
module Reload {
  import opened Text

  /** The two flags guarded by the run lock. */
  datatype Flags = Flags(running: bool, dirty: bool)

  /** The first locked block of `fire`: a call that finds a runner only leaves a mark. */
  function Entered(f: Flags): Flags {
    if f.running then Flags(true, true) else Flags(true, false)
  }

  /** The second locked block: a mark left during the call means one more call. */
  function Rechecked(f: Flags): Flags {
    if f.dirty then Flags(true, false) else Flags(false, false)
  }

  // --- one call of `fire`, with the calls that arrive while OnChange runs -------------------

  /** How often OnChange runs when `during[k]` further calls arrive in its k-th run and none later. */
  function Calls(during: seq<nat>): nat
    decreases |during|
  {
    if during == [] || during[0] == 0 then 1 else 1 + Calls(during[1..])
  }

  class Runner {
    var running: bool
    var dirty: bool

    function Now(): Flags
      reads this
    {
      Flags(running, dirty)
    }

    constructor ()
      ensures Now() == Flags(false, false)
    {
      running, dirty := false, false;
    }

    method Enter() returns (run: bool)
      modifies this
      ensures Now() == Entered(old(Now()))
      ensures run == !old(running)
    {
      if running {
        dirty := true;
        return false;
      }
      running := true;
      dirty := false;
      return true;
    }

    method Recheck() returns (again: bool)
      requires running
      modifies this
      ensures Now() == Rechecked(old(Now()))
      ensures again == old(dirty)
    {
      if !dirty {
        running := false;
        return false;
      }
      dirty := false;
      return true;
    }

    /** The calls that arrive during one OnChange: each finds the runner and goes away. */
    method Arrive(n: nat)
      requires running
      modifies this
      ensures Now() == Flags(true, old(dirty) || n > 0)
    {
      for i := 0 to n
        invariant Now() == Flags(true, old(dirty) || i > 0)
      {
        var run := Enter();
        assert !run;
      }
    }

    method Fire(during: seq<nat>) returns (calls: nat)
      requires !running
      modifies this
      ensures calls == Calls(during)
      ensures Now() == Flags(false, false)
    {
      var run := Enter();
      calls := 0;
      while run
        invariant run ==>
                    Now() == Flags(true, false) && calls <= |during| && calls + Calls(during[calls..]) == Calls(during)
        invariant !run ==> Now() == Flags(false, false) && calls == Calls(during)
        decreases if run then |during| + 1 - calls else 0
      {
        if calls < |during| {
          assert during[calls..][0] == during[calls] && during[calls..][1..] == during[calls + 1..];
          Arrive(during[calls]);
        }
        calls := calls + 1;
        run := Recheck();
      }
    }
  }

  // --- all interleavings --------------------------------------------------------------------

  /** Where a goroutine that owns the run stands: before, inside or after OnChange. */
  datatype Phase = Ready | Calling | Checking

  /** `pending`: the timer is armed. `arriving`: timer goroutines that have not reached the lock. */
  datatype State = State(pending: bool, arriving: nat, flags: Flags, runners: map<nat, Phase>)

  /** A watched file changes; the timer expires; then the steps of goroutine `id` inside `fire`. */
  datatype Event = Change | Expire | Enter(id: nat) | Start(id: nat) | Return(id: nat) | Recheck(id: nat)

  const INIT: State := State(false, 0, Flags(false, false), map[])

  predicate At(s: State, id: nat, p: Phase) {
    id in s.runners && s.runners[id] == p
  }

  predicate Enabled(s: State, e: Event) {
    match e
    case Change => true
    case Expire => s.pending
    case Enter(id) => s.arriving > 0 && id !in s.runners
    case Start(id) => At(s, id, Ready)
    case Return(id) => At(s, id, Calling)
    case Recheck(id) => At(s, id, Checking)
  }

  function Next(s: State, e: Event): State
    requires Enabled(s, e)
  {
    match e
    case Change => s.(pending := true)
    case Expire => s.(pending := false, arriving := s.arriving + 1)
    case Enter(id) =>
      s.(arriving := s.arriving - 1, flags := Entered(s.flags),
         runners := if s.flags.running then s.runners else s.runners[id := Ready])
    case Start(id) => s.(runners := s.runners[id := Calling])
    // a panic of OnChange is recovered and counts as a return
    case Return(id) => s.(runners := s.runners[id := Checking])
    case Recheck(id) =>
      s.(flags := Rechecked(s.flags),
         runners := if s.flags.dirty then s.runners[id := Ready] else s.runners - {id})
  }

  function After(trace: seq<Event>): Option<State>
    decreases |trace|
  {
    if trace == [] then Some(INIT)
    else match After(trace[..|trace| - 1])
      case None => None
      case Some(s) => if Enabled(s, trace[|trace| - 1]) then Some(Next(s, trace[|trace| - 1])) else None
  }

  /** An OnChange starts after position i of the run. */
  ghost predicate Served(trace: seq<Event>, i: nat) {
    exists j :: i < j < |trace| && trace[j].Start?
  }

  /** Another OnChange is certain: one is about to start, or the running one left with a mark. */
  ghost predicate Owed(s: State) {
    s.flags.dirty || exists id :: At(s, id, Ready)
  }

  ghost predicate OneRunner(s: State) {
    && (forall a, b :: a in s.runners && b in s.runners ==> a == b)
    && (s.flags.running <==> exists id :: id in s.runners)
    && (s.flags.dirty ==> s.flags.running)
  }

  /** Every `fire` is served or owed, and every file change is served, owed or still on its way. */
  ghost predicate NothingLost(trace: seq<Event>, s: State) {
    && (forall i :: 0 <= i < |trace| && trace[i].Enter? ==> Served(trace, i) || Owed(s))
    && (forall i :: 0 <= i < |trace| && trace[i].Change? ==> Served(trace, i) || Owed(s) || s.pending || s.arriving > 0)
  }

  lemma {:induction false} StepKeepsOneRunner(s: State, e: Event)
    requires OneRunner(s) && Enabled(s, e)
    ensures OneRunner(Next(s, e))
  {
    var n := Next(s, e);
    match e
    case Change =>
    case Expire =>
    case Enter(id) => assert !s.flags.running ==> id in n.runners;
    case Start(id) => assert id in n.runners && id in s.runners;
    case Return(id) => assert id in n.runners && id in s.runners;
    case Recheck(id) =>
      assert id in s.runners;
      assert s.flags.dirty ==> id in n.runners;
  }

  /** A step gives up an owed call only by starting it, and a waiting goroutine only by owing a call. */
  lemma {:induction false} StepKeepsDebt(s: State, e: Event)
    requires OneRunner(s) && Enabled(s, e)
    ensures var n := Next(s, e);
      && (e.Enter? ==> Owed(n))
      && (Owed(s) && !e.Start? ==> Owed(n))
      && (s.pending || s.arriving > 0 ==> n.pending || n.arriving > 0 || Owed(n))
  {
    var n := Next(s, e);
    forall id | At(s, id, Ready) && !e.Start?
      ensures Owed(n)
    {
      assert forall r :: r in s.runners ==> r == id;
      assert !e.Return? && !e.Recheck?;
      assert At(n, id, Ready);
    }
    if e.Enter? && !s.flags.running {
      assert At(n, e.id, Ready);
    }
    if e.Recheck? && s.flags.dirty {
      assert At(n, e.id, Ready);
    }
  }

  lemma {:induction false} ChangeArms(s: State, e: Event)
    requires Enabled(s, e)
    ensures e.Change? ==> Next(s, e).pending
  {
  }

  lemma {:induction false} ServedGrows(trace: seq<Event>, e: Event, i: nat)
    requires i < |trace|
    ensures Served(trace, i) || e.Start? ==> Served(trace + [e], i)
  {
    var longer := trace + [e];
    if e.Start? {
      assert longer[|trace|].Start?;
    }
    if Served(trace, i) {
      var j :| i < j < |trace| && trace[j].Start?;
      assert longer[j].Start?;
    }
  }

  lemma {:induction false} StepLosesNothing(trace: seq<Event>, s: State, e: Event)
    requires OneRunner(s) && NothingLost(trace, s) && Enabled(s, e)
    ensures NothingLost(trace + [e], Next(s, e))
  {
    hide Next, Owed, Served, OneRunner;
    var longer, n := trace + [e], Next(s, e);
    StepKeepsDebt(s, e);
    ChangeArms(s, e);
    forall i | 0 <= i < |longer| && longer[i].Enter?
      ensures Served(longer, i) || Owed(n)
    {
      if i < |trace| {
        ServedGrows(trace, e, i);
      }
    }
    forall i | 0 <= i < |longer| && longer[i].Change?
      ensures Served(longer, i) || Owed(n) || n.pending || n.arriving > 0
    {
      if i < |trace| {
        ServedGrows(trace, e, i);
      }
    }
  }

  /** Over every interleaving: one owner of the run at most, and no `fire` or file change is lost. */
  lemma {:induction false} RunIsSafe(trace: seq<Event>)
    requires After(trace).Some?
    ensures OneRunner(After(trace).value)
    ensures NothingLost(trace, After(trace).value)
    decreases |trace|
  {
    if trace != [] {
      var before, e := trace[..|trace| - 1], trace[|trace| - 1];
      RunIsSafe(before);
      StepKeepsOneRunner(After(before).value, e);
      StepLosesNothing(before, After(before).value, e);
      assert before + [e] == trace;
    }
  }

  /** At most one OnChange is in flight at any time. */
  lemma {:induction false} OneCallAtATime(trace: seq<Event>, a: nat, b: nat)
    requires After(trace).Some?
    requires At(After(trace).value, a, Calling) && At(After(trace).value, b, Calling)
    ensures a == b
  {
    RunIsSafe(trace);
  }

  /** No lost wake-up: with no runner, every `fire` so far was followed by an OnChange that started after it. */
  lemma {:induction false} NoLostWakeUp(trace: seq<Event>, i: nat)
    requires After(trace).Some? && !After(trace).value.flags.running
    requires i < |trace| && trace[i].Enter?
    ensures Served(trace, i)
  {
    RunIsSafe(trace);
    var s := After(trace).value;
    assert forall id :: id !in s.runners;
  }

  /** End to end: once the timer and the goroutines are quiet, every file change was followed by an OnChange. */
  lemma {:induction false} NoLostChange(trace: seq<Event>, i: nat)
    requires After(trace).Some?
    requires var s := After(trace).value; !s.flags.running && !s.pending && s.arriving == 0
    requires i < |trace| && trace[i].Change?
    ensures Served(trace, i)
  {
    RunIsSafe(trace);
    var s := After(trace).value;
    assert forall id :: id !in s.runners;
  }

  // --- coalescing and settling --------------------------------------------------------------

  function Count(trace: seq<Event>, p: Event -> bool): nat
    decreases |trace|
  {
    if trace == [] then 0
    else Count(trace[..|trace| - 1], p) + (if p(trace[|trace| - 1]) then 1 else 0)
  }

  const IS_CHANGE := (e: Event) => e.Change?
  const IS_ENTER := (e: Event) => e.Enter?
  const IS_START := (e: Event) => e.Start?

  function Bit(b: bool): nat { if b then 1 else 0 }

  ghost function Due(s: State): nat {
    Bit(s.flags.dirty) + Bit(exists id :: At(s, id, Ready))
  }

  lemma {:induction false} StepPaysDue(s: State, e: Event)
    requires OneRunner(s) && Enabled(s, e)
    ensures Due(Next(s, e)) + Bit(e.Start?) <= Due(s) + Bit(e.Enter?)
  {
    var n := Next(s, e);
    if e.Start? {
      assert At(s, e.id, Ready);
      assert forall id :: id in n.runners ==> id == e.id;
      assert !exists id :: At(n, id, Ready);
    } else if e.Recheck? {
      assert forall id :: id in s.runners ==> id == e.id;
      assert !exists id :: At(s, id, Ready);
    } else if !e.Enter? {
      forall id | At(n, id, Ready)
        ensures exists r :: At(s, r, Ready)
      {
        assert At(s, id, Ready);
      }
    } else if s.flags.running {
      forall id | At(n, id, Ready)
        ensures exists r :: At(s, r, Ready)
      {
        assert At(s, id, Ready);
      }
    }
  }

  /** Calls are coalesced: OnChange starts at most once per `fire`, and `fire` runs at most once per file change. */
  lemma {:induction false} CallsAreCoalesced(trace: seq<Event>)
    requires After(trace).Some?
    ensures Count(trace, IS_START) + Due(After(trace).value) <= Count(trace, IS_ENTER)
    ensures var s := After(trace).value;
      Count(trace, IS_ENTER) + s.arriving + Bit(s.pending) <= Count(trace, IS_CHANGE)
    decreases |trace|
  {
    if trace == [] {
      assert forall id :: !At(INIT, id, Ready);
    } else {
      var before, e := trace[..|trace| - 1], trace[|trace| - 1];
      CallsAreCoalesced(before);
      RunIsSafe(before);
      StepPaysDue(After(before).value, e);
    }
  }

  /** What the owner of the run still has to do when no further event arrives. */
  ghost function StepsLeft(s: State): nat {
    (if s.flags.dirty then 3 else 0)
    + (if exists id :: At(s, id, Ready) then 3
       else if exists id :: At(s, id, Calling) then 2
       else if exists id :: At(s, id, Checking) then 1 else 0)
  }

  predicate OwnStep(e: Event) {
    e.Start? || e.Return? || e.Recheck?
  }

  /**
   * While a runner is active it can always step,
   * every one of its steps brings it nearer to the end, and it ends idle.
   */
  lemma {:induction false} RunnerSettles(trace: seq<Event>)
    requires After(trace).Some?
    ensures var s := After(trace).value;
      && StepsLeft(s) <= 6
      && (s.flags.running <==> StepsLeft(s) > 0)
      && (s.flags.running ==> exists e :: OwnStep(e) && Enabled(s, e))
      && (forall e :: OwnStep(e) && Enabled(s, e) ==> StepsLeft(Next(s, e)) == StepsLeft(s) - 1)
  {
    RunIsSafe(trace);
    var s := After(trace).value;
    if s.flags.running {
      var id :| id in s.runners;
      assert At(s, id, s.runners[id]);
      assert forall r :: r in s.runners ==> r == id;
      match s.runners[id]
      case Ready => assert Enabled(s, Start(id));
      case Calling => assert Enabled(s, Return(id));
      case Checking => assert Enabled(s, Recheck(id));
    }
    forall e | OwnStep(e) && Enabled(s, e)
      ensures StepsLeft(Next(s, e)) == StepsLeft(s) - 1
    {
      OwnStepCounts(s, e);
    }
  }

  lemma {:induction false} OwnStepCounts(s: State, e: Event)
    requires OneRunner(s) && OwnStep(e) && Enabled(s, e)
    ensures StepsLeft(Next(s, e)) == StepsLeft(s) - 1
  {
    var n := Next(s, e);
    assert forall id :: id in s.runners ==> id == e.id;
    assert forall id :: id in n.runners ==> id == e.id;
    assert At(s, e.id, s.runners[e.id]);
    assert e.id in n.runners ==> At(n, e.id, n.runners[e.id]);
  }
}
