/**
 * Normalising a plan that is already in canonical form. The stored document is canonical and is hashed
 * again when it is loaded (internal/chatsession/grants.go), and the issue of a grant hashes the normalised
 * plan (internal/approval/grant.go), so both rely on the second pass changing nothing.
 */
module PlanRehash {
  import opened Text
  import opened Sorting
  import opened Plan
  import opened PlanMeaning
  import opened PlanAgain

  // --- steps and documents that a second pass leaves alone ----------------------------------

  ghost predicate SettledStep(ops: Ops, s: Step) {
    forall c | c in s.capabilities :: SettledCapability(ops, c)
  }

  ghost predicate Settled(ops: Ops, p: Document) {
    forall s | s in p.steps :: SettledStep(ops, s)
  }

  lemma {:induction false} StepAgain(ops: Ops, s: Step)
    requires Library(ops)
    ensures StepFields(ops, StepFields(ops, s)) == StepFields(ops, s) <==> SettledStep(ops, s)
  {
    hide Library, Map, Sort, Trim, NormalList, SettledCapability;
    CapabilitiesAgain(ops, s.capabilities);
    TrimIdempotent(s.title);
    TrimIdempotent(s.rollback);
    TextsAgain(s.sideEffects);
  }

  lemma {:induction false} StepsAgain(ops: Ops, steps: seq<Step>)
    requires Library(ops)
    ensures var f := StepFn(ops);
      (forall n | n in Map(f, steps) :: f(n) == n) <==> forall s | s in steps :: SettledStep(ops, s)
  {
    hide Library, Map, StepFields, SettledStep;
    var f := StepFn(ops);
    MapMembers(f, steps);
    forall s | s in steps
      ensures f(s) in Map(f, steps) && (f(f(s)) == f(s) <==> SettledStep(ops, s))
    {
      StepAgain(ops, s);
    }
  }

  lemma {:induction false} PositionKept(ops: Ops, s: Step)
    ensures StepFn(ops)(s).position == s.position
  {
  }

  lemma {:induction false} PositionsKept(ops: Ops, steps: seq<Step>)
    requires Ordered(STEP_ORDER, steps)
    ensures Ordered(STEP_ORDER, Map(StepFn(ops), steps))
  {
    hide StepFn, Map;
    var t := Map(StepFn(ops), steps);
    forall i | 0 <= i < |steps|
      ensures t[i].position == steps[i].position
    {
      PositionKept(ops, steps[i]);
    }
  }

  /** Normalising again changes nothing exactly when every path and every domain of the plan is settled. */
  lemma {:induction false} NormalFormIsFixedIff(ops: Ops, p: Document)
    requires Library(ops) && Normalized(ops, p).Some?
    ensures Normalized(ops, Normalized(ops, p).value) == Normalized(ops, p) <==> Settled(ops, p)
  {
    hide Library, StepFn, SettledStep, Map, Sort, Trim, ValidSteps;
    var n := Normalized(ops, p).value;
    var f, unsorted := StepFn(ops), UnsortedSteps(ops, p);
    StepsAgain(ops, p.steps);
    StepOrderIsTotal();
    SortOrders(STEP_ORDER, unsorted);
    SortPermutes(STEP_ORDER, unsorted);
    SameElements(n.steps, unsorted);
    PositionsKept(ops, n.steps);
    SortOfOrdered(STEP_ORDER, Map(f, n.steps));
    MapFixed(f, n.steps);
    TrimIdempotent(p.objective);
    if Map(f, n.steps) == n.steps {
      ValidStepsPermute(unsorted, n.steps);
    }
  }

  lemma {:induction false} StepOrderIsTotal()
    ensures TotalOrder(STEP_ORDER)
  {
  }

  lemma {:induction false} InjectiveAt<A(!new), B>(f: A -> B, a: A, b: A)
    requires Injective(f)
    ensures f(a) == f(b) <==> a == b
  {
  }

  /** So the hash of the stored, canonical document is the hash that was approved exactly for settled plans. */
  lemma {:induction false} RehashIff(ops: Ops, digest: Document -> string, p: Document)
    requires Library(ops) && Injective(digest) && Normalized(ops, p).Some?
    ensures Hash(ops, digest, Normalized(ops, p).value) == Hash(ops, digest, p) <==> Settled(ops, p)
  {
    hide Normalized, Settled, Library, Injective;
    NormalFormIsFixedIff(ops, p);
    var n := Normalized(ops, p).value;
    if Normalized(ops, n).Some? {
      InjectiveAt(digest, Normalized(ops, n).value, n);
    }
  }

  // --- a plan whose stored form hashes differently ------------------------------------------

  /** The domain "7.." loses one dot in the first pass and the other in the second. */
  const TWO_DOTS: Capability := Capability("web", [], "", [], ["7.."], 1, 1, false)
  const EXAMPLE: Document :=
    Document("p", "t", 1, "o", Budget(0, 0, 0), [Step("s", 0, "x", "R2", [], "", 0, [TWO_DOTS])])

  lemma {:induction false} Untrimmed(s: string)
    requires EdgesAreBare(s)
    ensures Trim(s) == s
  {
    TrimmedByEdges(s);
  }

  lemma {:induction false} TwoDotsUnsettled(ops: Ops)
    ensures !SettledCapability(ops, TWO_DOTS)
  {
    Untrimmed("7..");
    assert WithoutDot("7..") == "7.";
    assert !DomainSettled("7..");
    hide DomainSettled;
    assert "7.." in TWO_DOTS.domains;
    assert !DOMAIN_TEST("7..");
  }

  lemma {:induction false} MapOne<A, B>(f: A -> B, x: A)
    ensures Map(f, [x]) == [f(x)]
  {
  }

  lemma {:induction false} SortOne<T>(leq: Order<T>, x: T)
    ensures Sort(leq, [x]) == [x]
  {
    assert [x][..0] == [];
  }

  lemma {:induction false} ExampleIsValid(ops: Ops)
    ensures Normalized(ops, EXAMPLE).Some?
  {
    hide NormalList, Trim, Sort, Map;
    Untrimmed("p");
    Untrimmed("t");
    Untrimmed("o");
    Untrimmed("s");
    Untrimmed("x");
    Untrimmed("web");
    var step := EXAMPLE.steps[0];
    var n := CapabilityFields(ops, TWO_DOTS);
    MapOne(CapabilityFn(ops), TWO_DOTS);
    SortOne(CapabilityOrder(ops), n);
    assert ValidCapability(n);
    assert ValidStep(StepFields(ops, step));
    hide ValidStep;
    MapOne(StepFn(ops), step);
  }

  /** Its stored document hashes to something else than what was approved, whatever the library does. */
  lemma {:induction false} RehashCanDiffer(ops: Ops, digest: Document -> string)
    requires Library(ops) && Injective(digest)
    ensures Normalized(ops, EXAMPLE).Some?
    ensures Hash(ops, digest, Normalized(ops, EXAMPLE).value) != Hash(ops, digest, EXAMPLE)
  {
    ExampleIsValid(ops);
    TwoDotsUnsettled(ops);
    assert TWO_DOTS in EXAMPLE.steps[0].capabilities && EXAMPLE.steps[0] in EXAMPLE.steps;
    assert !SettledStep(ops, EXAMPLE.steps[0]);
    hide Normalized, Library, Injective, SettledCapability;
    RehashIff(ops, digest, EXAMPLE);
  }
}
