/** Which plans internal/approval/plan.go accepts, told from what is handed in, and what it makes of them. */
module PlanChecks {
  import opened Text
  import opened Sorting
  import opened Plan
  import opened PlanMeaning

  /** A capability names itself, may run for a while and be called, once if it is for one time; commands have places. */
  predicate GoodCapability(ops: Ops, c: Capability) {
    && Trim(c.name) != "" && c.maxDuration > 0
    && c.maxCalls > 0 && (c.oneTime ==> c.maxCalls == 1)
    && (Trim(c.name) in {"process_exec", "process_shell"} || HasPrefix(Trim(c.name), "git_") ==>
          Places(ops, c.paths) != {} && forall p | p in Places(ops, c.paths) :: Rooted(Trim(p)))
  }

  /** The cleaned paths of those that are not blank. */
  function Places(ops: Ops, paths: seq<string>): set<string> {
    set p | p in paths && Trim(Each(SLASHED, p)) != "" :: ops.clean(Trim(Each(SLASHED, p)))
  }

  /** An absolute path, on Unix or behind a drive letter. */
  predicate Rooted(p: string) {
    || (p != "" && p[0] == '/')
    || (|p| >= 3 && p[0] < 128 as char && p[1] == ':' && p[2] in {'/', '\\'})
  }

  predicate GoodStep(ops: Ops, s: Step) {
    && Trim(s.id) != "" && s.position >= 0 && Trim(s.title) != "" && s.risk in {"R0", "R1", "R2", "R3", "R4"}
    && forall c | c in s.capabilities :: GoodCapability(ops, c)
  }

  /** The sets that lists of texts and of domains stand for: what is left of them when blanks and spelling are gone. */
  lemma {:induction false} ListsAre(ops: Ops, values: seq<string>)
    ensures Image(TEXT_PICK, values) == set v | v in values && Trim(v) != "" :: Trim(v)
    ensures Image(DomainPick(ops), values) ==
            set v | v in values && Bare(v) != "" ::
              seq(|Bare(v)|, i requires 0 <= i < |Bare(v)| => ops.lower(Bare(v)[i]))
  {
    hide Trim;
    forall v: string
      ensures DomainText(ops, v) == seq(|Bare(v)|, i requires 0 <= i < |Bare(v)| => ops.lower(Bare(v)[i]))
    {
    }
    hide DomainText, Bare;
  }

  /** A domain without white space around it and without the dot at its end. */
  function Bare(v: string): string {
    var t := Trim(v);
    if t != "" && t[|t| - 1] == '.' then t[..|t| - 1] else t
  }

  lemma {:induction false} PlacesIs(ops: Ops, paths: seq<string>)
    ensures Places(ops, paths) == Image(PathPick(ops), paths)
  {
    hide Trim, Each;
  }

  lemma {:induction false} NormalListHas(pick: Pick, values: seq<string>)
    ensures forall x :: x in NormalList(pick, values) <==> x in Image(pick, values)
    ensures NormalList(pick, values) == [] <==> Image(pick, values) == {}
  {
    PickedIsImage(pick, values);
    SortedUniqueIs(Picked(pick, values));
    hide SortedUnique, Picked, Image;
    var list := NormalList(pick, values);
    if list != [] {
      assert list[0] in list;
    }
  }

  lemma {:induction false} CapabilityIff(ops: Ops, c: Capability)
    ensures ValidCapability(CapabilityFields(ops, c)) <==> GoodCapability(ops, c)
  {
    NormalListHas(PathPick(ops), c.paths);
    PlacesIs(ops, c.paths);
    hide NormalList, Image, PathPick, DomainPick, Trim, Places;
    var n := CapabilityFields(ops, c);
    forall p: string ensures Absolute(p) <==> Rooted(Trim(p)) {
    }
    hide Absolute, Rooted;
  }

  lemma {:induction false} StepIff(ops: Ops, s: Step)
    ensures ValidStep(StepFields(ops, s)) <==> GoodStep(ops, s)
  {
    hide CapabilityFields, ValidCapability, GoodCapability, NormalList, Trim, Sort;
    var mapped := Map(CapabilityFn(ops), s.capabilities);
    var n := StepFields(ops, s);
    SortPermutes(CapabilityOrder(ops), mapped);
    SameElements(n.capabilities, mapped);
    forall c: Capability ensures ValidCapability(CapabilityFields(ops, c)) <==> GoodCapability(ops, c) {
      CapabilityIff(ops, c);
    }
    if forall c | c in n.capabilities :: ValidCapability(c) {
      forall c | c in s.capabilities ensures GoodCapability(ops, c) {
        var i :| 0 <= i < |s.capabilities| && s.capabilities[i] == c;
        assert mapped[i] == CapabilityFields(ops, c) && mapped[i] in mapped;
      }
    }
    if forall c | c in s.capabilities :: GoodCapability(ops, c) {
      forall c | c in n.capabilities ensures ValidCapability(c) {
        var i :| 0 <= i < |mapped| && mapped[i] == c;
        assert s.capabilities[i] in s.capabilities && mapped[i] == CapabilityFields(ops, s.capabilities[i]);
      }
    }
  }

  lemma {:induction false} SameKeys<K>(ops: Ops, key: Step -> K, steps: seq<Step>)
    requires forall s :: key(StepFields(ops, s)) == key(s)
    ensures Distinct(key, Map(StepFn(ops), steps)) <==> Distinct(key, steps)
  {
    hide StepFields;
    var mapped := Map(StepFn(ops), steps);
    assert forall i | 0 <= i < |steps| :: key(mapped[i]) == key(steps[i]);
  }

  /**
   * A plan is accepted exactly if it has an id, a task, a revision and an objective, and steps that are all good, with
   * distinct ids and distinct positions. Then its steps are put in the order of their positions, and everything else
   * but the spelling of texts stays.
   */
  lemma {:induction false} AcceptedIff(ops: Ops, p: Document)
    ensures var r := Normalized(ops, p);
            && (r.Some? <==>
                  && Trim(p.id) != "" && Trim(p.task) != "" && p.revision >= 1 && Trim(p.objective) != ""
                  && p.steps != [] && (forall s | s in p.steps :: GoodStep(ops, s))
                  && forall i, k | 0 <= i < k < |p.steps| ::
                       p.steps[i].id != p.steps[k].id && p.steps[i].position != p.steps[k].position)
            && (r.Some? ==> var steps := r.value.steps;
                  && r.value == p.(objective := Trim(p.objective), steps := steps)
                  && multiset(steps) == multiset(Map(StepFn(ops), p.steps))
                  && forall i, k | 0 <= i < k < |steps| :: steps[i].position < steps[k].position)
  {
    GoodIff(ops, p);
    DistinctIff(p.steps);
    hide StepFields, ValidStep, GoodStep, Trim, Sort, Map, ValidSteps, Distinct;
    if Normalized(ops, p).Some? {
      Checked(UnsortedSteps(ops, p));
      Ascends(UnsortedSteps(ops, p));
    }
  }

  lemma {:induction false} Checked(steps: seq<Step>)
    requires ValidSteps(steps)
    ensures Distinct(POSITION, steps)
  {
  }

  lemma {:induction false} GoodIff(ops: Ops, p: Document)
    ensures Normalized(ops, p).Some? <==>
            && Trim(p.id) != "" && Trim(p.task) != "" && p.revision >= 1 && Trim(p.objective) != ""
            && p.steps != [] && (forall s | s in p.steps :: GoodStep(ops, s))
            && Distinct(ID, p.steps) && Distinct(POSITION, p.steps)
  {
    GoodStepsIff(ops, p.steps);
    hide StepFields, ValidSteps, GoodStep, Trim, Sort, Map, Distinct;
  }

  lemma {:induction false} GoodStepsIff(ops: Ops, steps: seq<Step>)
    ensures ValidSteps(Map(StepFn(ops), steps)) <==>
            && steps != [] && (forall s | s in steps :: GoodStep(ops, s))
            && Distinct(ID, steps) && Distinct(POSITION, steps)
  {
    hide StepFields, ValidStep, GoodStep, Map, Distinct;
    StepsIff(ops, steps);
    KeysStay(ops);
    SameKeys(ops, ID, steps);
    SameKeys(ops, POSITION, steps);
  }

  lemma {:induction false} DistinctIff(steps: seq<Step>)
    ensures Distinct(ID, steps) && Distinct(POSITION, steps) <==>
            forall i, k | 0 <= i < k < |steps| :: steps[i].id != steps[k].id && steps[i].position != steps[k].position
  {
    if Distinct(ID, steps) && Distinct(POSITION, steps) {
      forall i, k | 0 <= i < k < |steps|
        ensures steps[i].id != steps[k].id && steps[i].position != steps[k].position
      {
        assert ID(steps[i]) != ID(steps[k]) && POSITION(steps[i]) != POSITION(steps[k]);
      }
    }
  }

  lemma {:induction false} KeysStay(ops: Ops)
    ensures forall s :: ID(StepFields(ops, s)) == ID(s) && POSITION(StepFields(ops, s)) == POSITION(s)
  {
    hide NormalList, Trim, Sort, Map;
  }

  lemma {:induction false} StepsIff(ops: Ops, steps: seq<Step>)
    ensures (forall s | s in Map(StepFn(ops), steps) :: ValidStep(s)) <==> forall s | s in steps :: GoodStep(ops, s)
    ensures Map(StepFn(ops), steps) == [] <==> steps == []
  {
    hide StepFields, ValidStep, GoodStep;
    var mapped := Map(StepFn(ops), steps);
    forall i | 0 <= i < |steps| ensures ValidStep(mapped[i]) <==> GoodStep(ops, steps[i]) {
      StepIff(ops, steps[i]);
    }
    if forall s | s in mapped :: ValidStep(s) {
      forall s | s in steps ensures GoodStep(ops, s) {
        var i :| 0 <= i < |steps| && steps[i] == s;
        assert mapped[i] in mapped;
      }
    }
    if forall s | s in steps :: GoodStep(ops, s) {
      forall s | s in mapped ensures ValidStep(s) {
        var i :| 0 <= i < |mapped| && mapped[i] == s;
        assert steps[i] in steps;
      }
    }
  }

  lemma {:induction false} Ascends(steps: seq<Step>)
    requires Distinct(POSITION, steps)
    ensures var sorted := Sort(STEP_ORDER, steps);
            && multiset(sorted) == multiset(steps)
            && forall i, k | 0 <= i < k < |sorted| :: sorted[i].position < sorted[k].position
  {
    var sorted := Sort(STEP_ORDER, steps);
    SortPermutes(STEP_ORDER, steps);
    SortOrders(STEP_ORDER, steps);
    DistinctPermutes(POSITION, steps, sorted);
    forall i, k | 0 <= i < k < |sorted| ensures sorted[i].position < sorted[k].position {
      assert POSITION(sorted[i]) != POSITION(sorted[k]) && STEP_ORDER(sorted[i], sorted[k]);
    }
  }
}
