/** The canonical form of a plan, internal/approval/plan.go. Approvals and grants are bound to its hash. */
module Plan {
  import opened Text
  import opened Sorting

  datatype Capability = Capability(
    name: string, paths: seq<string>, command: string, arguments: seq<string>, domains: seq<string>,
    maxDuration: int, maxCalls: nat, oneTime: bool)

  datatype Step = Step(
    id: string, position: int, title: string, risk: string, sideEffects: seq<string>, rollback: string,
    timeout: int, capabilities: seq<Capability>)

  datatype Budget = Budget(maxTokens: int, maxCostMicros: int, maxDurationMillis: int)

  datatype Document = Document(id: string, task: string, revision: nat, objective: string, budget: Budget,
      steps: seq<Step>)

  /** path.Clean, the lower case of one character, and the JSON text of a capability. */
  datatype Ops = Ops(clean: string -> string, lower: char -> char, encode: Capability -> string)

  const RISKS: set<string> := {"R0", "R1", "R2", "R3", "R4"}

  // --- lists of texts -----------------------------------------------------------------------

  function Each(f: char -> char, s: string): (r: string)
    ensures |r| == |s|
    ensures forall i | 0 <= i < |s| :: r[i] == f(s[i])
  {
    if s == "" then "" else [f(s[0])] + Each(f, s[1..])
  }

  const SLASHED: char -> char := c => if c == '\\' then '/' else c

  type Pick = string -> Option<string>

  const TEXT_PICK: Pick := v => if Trim(v) == "" then None else Some(Trim(v))

  function PathPick(ops: Ops): Pick {
    v => var t := Trim(Each(SLASHED, v)); if t == "" then None else Some(ops.clean(t))
  }

  function WithoutDot(s: string): string {
    if s != "" && s[|s| - 1] == '.' then s[..|s| - 1] else s
  }

  function DomainText(ops: Ops, v: string): string {
    Each(ops.lower, WithoutDot(Trim(v)))
  }

  function DomainPick(ops: Ops): Pick {
    v => if DomainText(ops, v) == "" then None else Some(DomainText(ops, v))
  }

  function Picked(pick: Pick, values: seq<string>): seq<string>
    decreases |values|
  {
    if values == [] then []
    else
      var v := pick(values[|values| - 1]);
      Picked(pick, values[..|values| - 1]) + if v.Some? then [v.value] else []
  }

  function NormalList(pick: Pick, values: seq<string>): seq<string> {
    SortedUnique(Picked(pick, values))
  }

  /** The set of texts that a list stands for. */
  function Image(pick: Pick, values: seq<string>): set<string> {
    set v | v in values && pick(v).Some? :: pick(v).value
  }

  lemma {:induction false} PickedIsImage(pick: Pick, values: seq<string>)
    ensures forall x :: x in Picked(pick, values) <==> x in Image(pick, values)
    decreases |values|
  {
    if values != [] {
      var front, last := values[..|values| - 1], values[|values| - 1];
      assert values == front + [last];
      PickedIsImage(pick, front);
      assert Image(pick, values) == Image(pick, front) + (if pick(last).Some? then {pick(last).value} else {});
    }
  }

  /** Two lists normalise alike exactly when they stand for the same set: order and repetition do not matter. */
  lemma {:induction false} NormalListIff(pick: Pick, v: seq<string>, w: seq<string>)
    ensures NormalList(pick, v) == NormalList(pick, w) <==> Image(pick, v) == Image(pick, w)
  {
    PickedIsImage(pick, v);
    PickedIsImage(pick, w);
    SortedUniqueIs(Picked(pick, v));
    SortedUniqueIs(Picked(pick, w));
    hide SortedUnique, Picked, Image, Ascending;
    if Image(pick, v) == Image(pick, w) {
      AscendingIsUnique(NormalList(pick, v), NormalList(pick, w));
    }
    if NormalList(pick, v) == NormalList(pick, w) {
      assert forall x :: x in Image(pick, v) <==> x in NormalList(pick, v);
    }
  }

  /** normalizeTextList, normalizePaths and normalizeDomains are this loop with three picks. */
  method NormalizeList(pick: Pick, values: seq<string>) returns (r: seq<string>)
    ensures r == NormalList(pick, values)
  {
    var normalized: seq<string> := [];
    for i := 0 to |values|
      invariant normalized == Picked(pick, values[..i])
    {
      assert values[..i + 1][..i] == values[..i];
      var v := pick(values[i]);
      if v.Some? {
        normalized := normalized + [v.value];
      }
    }
    assert values[..|values|] == values;
    var a := new string[|normalized|](i requires 0 <= i < |normalized| => normalized[i]);
    assert a[..] == normalized;
    var kept := SortUniqueInPlace(a);
    r := a[..kept];
  }

  // --- capabilities -------------------------------------------------------------------------

  predicate Absolute(path: string) {
    var v := Trim(path);
    v != "" && (v[0] == '/' || (|v| >= 3 && v[0] < 128 as char && v[1] == ':' && (v[2] == '/' || v[2] == '\\')))
  }

  predicate NeedsPaths(name: string) {
    name == "process_exec" || name == "process_shell" || HasPrefix(name, "git_")
  }

  /** The checks on a capability whose texts are already normalised. */
  predicate ValidCapability(n: Capability) {
    && n.name != ""
    && n.maxDuration > 0
    && (if n.oneTime then n.maxCalls == 1 else n.maxCalls > 0)
    && (NeedsPaths(n.name) ==> n.paths != [] && forall p | p in n.paths :: Absolute(p))
  }

  function CapabilityFields(ops: Ops, c: Capability): Capability {
    Capability(Trim(c.name), NormalList(PathPick(ops), c.paths), Trim(c.command), c.arguments,
               NormalList(DomainPick(ops), c.domains), c.maxDuration, c.maxCalls, c.oneTime)
  }

  function CapabilityFn(ops: Ops): Capability -> Capability {
    c => CapabilityFields(ops, c)
  }

  method AllAbsolute(paths: seq<string>) returns (ok: bool)
    ensures ok <==> forall p | p in paths :: Absolute(p)
  {
    hide Absolute;
    for i := 0 to |paths|
      invariant forall p | p in paths[..i] :: Absolute(p)
    {
      if !Absolute(paths[i]) {
        return false;
      }
      assert paths[..i + 1] == paths[..i] + [paths[i]];
    }
    assert paths[..|paths|] == paths;
    return true;
  }

  method CheckCapability(n: Capability) returns (ok: bool)
    ensures ok == ValidCapability(n)
  {
    hide Absolute, NeedsPaths;
    if n.name == "" || n.maxDuration <= 0 {
      return false;
    }
    if n.oneTime {
      if n.maxCalls == 0 || n.maxCalls > 1 {
        return false;
      }
    } else if n.maxCalls == 0 {
      return false;
    }
    if !NeedsPaths(n.name) {
      return true;
    }
    if |n.paths| == 0 {
      return false;
    }
    ok := AllAbsolute(n.paths);
  }

  method NormalizeCapability(ops: Ops, c: Capability) returns (r: Option<Capability>)
    ensures r == if ValidCapability(CapabilityFields(ops, c)) then Some(CapabilityFields(ops, c)) else None
  {
    hide NormalList, ValidCapability, Trim, PathPick, DomainPick;
    var paths := NormalizeList(PathPick(ops), c.paths);
    var domains := NormalizeList(DomainPick(ops), c.domains);
    var n := Capability(Trim(c.name), paths, Trim(c.command), c.arguments, domains, c.maxDuration, c.maxCalls,
        c.oneTime);
    var ok := CheckCapability(n);
    return if ok then Some(n) else None;
  }

  // --- steps --------------------------------------------------------------------------------

  function Map<A, B>(f: A -> B, s: seq<A>): (r: seq<B>)
    ensures |r| == |s|
    ensures forall i | 0 <= i < |s| :: r[i] == f(s[i])
    decreases |s|
  {
    if s == [] then [] else Map(f, s[..|s| - 1]) + [f(s[|s| - 1])]
  }

  /** sort.Slice may use any algorithm; Sorting.OrderedIsUnique says that the result is this one. */
  function CapabilityOrder(ops: Ops): Order<Capability> {
    (a, b) => TEXT_ORDER(ops.encode(a), ops.encode(b))
  }

  const STEP_ORDER: Order<Step> := (a: Step, b: Step) => a.position <= b.position

  function StepFields(ops: Ops, s: Step): Step {
    Step(s.id, s.position, Trim(s.title), s.risk, NormalList(TEXT_PICK, s.sideEffects), Trim(s.rollback), s.timeout,
         Sort(CapabilityOrder(ops), Map(CapabilityFn(ops), s.capabilities)))
  }

  function StepFn(ops: Ops): Step -> Step {
    s => StepFields(ops, s)
  }

  predicate ValidStep(n: Step) {
    && Trim(n.id) != "" && n.position >= 0 && n.title != "" && n.risk in RISKS
    && forall c | c in n.capabilities :: ValidCapability(c)
  }

  method SortCapabilities(ops: Ops, s: seq<Capability>) returns (r: seq<Capability>)
    ensures r == Sort(CapabilityOrder(ops), s)
    ensures forall c :: c in r <==> c in s
  {
    var a := new Capability[|s|](i requires 0 <= i < |s| => s[i]);
    assert a[..] == s;
    InsertionSort(CapabilityOrder(ops), a);
    r := a[..];
    SortPermutes(CapabilityOrder(ops), s);
    SameElements(r, s);
  }

  method NormalizeStep(ops: Ops, s: Step) returns (r: Option<Step>)
    ensures r == if ValidStep(StepFields(ops, s)) then Some(StepFields(ops, s)) else None
  {
    hide CapabilityFields, ValidCapability, NormalList, Trim, Sort, Map;
    var sideEffects := NormalizeList(TEXT_PICK, s.sideEffects);
    ghost var unsorted := Map(CapabilityFn(ops), s.capabilities);
    SortPermutes(CapabilityOrder(ops), unsorted);
    SameElements(StepFields(ops, s).capabilities, unsorted);
    if Trim(s.id) == "" || s.position < 0 || Trim(s.title) == "" || s.risk !in RISKS {
      return None;
    }
    var capabilities: seq<Capability> := [];
    for i := 0 to |s.capabilities|
      invariant capabilities == unsorted[..i]
      invariant forall c | c in capabilities :: ValidCapability(c)
    {
      var c := NormalizeCapability(ops, s.capabilities[i]);
      assert unsorted[i] == CapabilityFields(ops, s.capabilities[i]);
      if c.None? {
        assert unsorted[i] in StepFields(ops, s).capabilities;
        return None;
      }
      capabilities := capabilities + [c.value];
    }
    assert capabilities == unsorted;
    var sorted := SortCapabilities(ops, capabilities);
    return Some(Step(s.id, s.position, Trim(s.title), s.risk, sideEffects, Trim(s.rollback), s.timeout, sorted));
  }

  // --- the document -------------------------------------------------------------------------

  predicate Distinct<T, K(==)>(key: T -> K, s: seq<T>) {
    forall i, j | 0 <= i < j < |s| :: key(s[i]) != key(s[j])
  }

  const ID: Step -> string := (s: Step) => s.id
  const POSITION: Step -> int := (s: Step) => s.position

  predicate ValidSteps(steps: seq<Step>) {
    steps != [] && (forall s | s in steps :: ValidStep(s)) && Distinct(ID, steps) && Distinct(POSITION, steps)
  }

  predicate ValidHead(p: Document) {
    Trim(p.id) != "" && Trim(p.task) != "" && p.revision > 0 && Trim(p.objective) != ""
  }

  function UnsortedSteps(ops: Ops, p: Document): seq<Step> {
    Map(StepFn(ops), p.steps)
  }

  function Normalized(ops: Ops, p: Document): Option<Document> {
    if ValidHead(p) && ValidSteps(UnsortedSteps(ops, p)) then
      Some(Document(p.id, p.task, p.revision, Trim(p.objective), p.budget, Sort(STEP_ORDER, UnsortedSteps(ops, p))))
    else None
  }

  lemma {:induction false} DistinctSnoc<T, K>(key: T -> K, s: seq<T>, x: T)
    ensures Distinct(key, s + [x]) <==> Distinct(key, s) && forall a | a in s :: key(a) != key(x)
  {
    var t := s + [x];
    if Distinct(key, t) {
      DistinctPrefix(key, t, |s|);
      assert t[..|s|] == s;
      forall a | a in s
        ensures key(a) != key(x)
      {
        var i :| 0 <= i < |s| && s[i] == a;
        assert key(t[i]) != key(t[|s|]);
      }
    }
    if Distinct(key, s) && forall a | a in s :: key(a) != key(x) {
      forall i, j | 0 <= i < j < |t|
        ensures key(t[i]) != key(t[j])
      {
        assert t[i] == s[i] && s[i] in s;
        assert j < |s| ==> t[j] == s[j];
      }
    }
  }

  lemma {:induction false} DistinctPrefix<T, K>(key: T -> K, s: seq<T>, n: nat)
    requires n <= |s| && Distinct(key, s)
    ensures Distinct(key, s[..n])
  {
  }

  method Normalize(ops: Ops, p: Document) returns (r: Option<Document>)
    ensures r == Normalized(ops, p)
  {
    hide StepFields, ValidStep, Distinct, Trim, Sort;
    if Trim(p.id) == "" || Trim(p.task) == "" || p.revision == 0 || Trim(p.objective) == "" || |p.steps| == 0 {
      return None;
    }
    ghost var all := UnsortedSteps(ops, p);
    var ids: set<string>, positions: set<int> := {}, {};
    var steps: seq<Step> := [];
    DistinctNone(ID);
    DistinctNone(POSITION);
    for i := 0 to |p.steps|
      invariant steps == all[..i]
      invariant forall s | s in steps :: ValidStep(s)
      invariant ids == set s | s in steps :: s.id
      invariant positions == set s | s in steps :: s.position
      invariant Distinct(ID, steps) && Distinct(POSITION, steps)
    {
      var step := NormalizeStep(ops, p.steps[i]);
      assert all[i] == StepFields(ops, p.steps[i]);
      if step.None? {
        assert all[i] in all;
        return None;
      }
      DistinctSnoc(ID, steps, step.value);
      DistinctSnoc(POSITION, steps, step.value);
      assert all[..i + 1] == steps + [step.value];
      if step.value.id in ids || step.value.position in positions {
        RepeatedIsInvalid(all, i + 1);
        return None;
      }
      ids := ids + {step.value.id};
      positions := positions + {step.value.position};
      steps := steps + [step.value];
    }
    assert all[..|p.steps|] == all;
    var a := new Step[|steps|](i requires 0 <= i < |steps| => steps[i]);
    assert a[..] == steps;
    InsertionSort(STEP_ORDER, a);
    return Some(Document(p.id, p.task, p.revision, Trim(p.objective), p.budget, a[..]));
  }

  lemma {:induction false} DistinctNone<T, K>(key: T -> K)
    ensures Distinct(key, [])
  {
  }

  lemma {:induction false} RepeatedIsInvalid(all: seq<Step>, n: nat)
    requires n <= |all| && (!Distinct(ID, all[..n]) || !Distinct(POSITION, all[..n]))
    ensures !ValidSteps(all)
  {
    if Distinct(ID, all) {
      DistinctPrefix(ID, all, n);
    }
    if Distinct(POSITION, all) {
      DistinctPrefix(POSITION, all, n);
    }
  }
}
