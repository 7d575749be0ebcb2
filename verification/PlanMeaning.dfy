/** What a plan means, without any order: its canonical form and hash stand for exactly that. */
module PlanMeaning {
  import opened Text
  import opened Sorting
  import opened Plan

  datatype CapabilityMeaning = CapabilityMeaning(
    name: string, paths: set<string>, command: string, arguments: seq<string>, domains: set<string>,
    maxDuration: int, maxCalls: nat, oneTime: bool)

  datatype StepMeaning = StepMeaning(
    id: string, position: int, title: string, risk: string, sideEffects: set<string>, rollback: string,
    timeout: int, capabilities: multiset<CapabilityMeaning>)

  datatype Meaning = Meaning(
    id: string, task: string, revision: nat, objective: string, budget: Budget, steps: multiset<StepMeaning>)

  function CapabilityMeans(ops: Ops): Capability -> CapabilityMeaning {
    (c: Capability) => CapabilityMeaning(Trim(c.name), Image(PathPick(ops), c.paths), Trim(c.command), c.arguments,
                           Image(DomainPick(ops), c.domains), c.maxDuration, c.maxCalls, c.oneTime)
  }

  function StepMeans(ops: Ops): Step -> StepMeaning {
    (s: Step) => StepMeaning(s.id, s.position, Trim(s.title), s.risk, Image(TEXT_PICK, s.sideEffects),
        Trim(s.rollback), s.timeout,
                     multiset(Map(CapabilityMeans(ops), s.capabilities)))
  }

  function Means(ops: Ops, p: Document): Meaning {
    Meaning(p.id, p.task, p.revision, Trim(p.objective), p.budget, multiset(Map(StepMeans(ops), p.steps)))
  }

  // --- two maps that identify the same elements ---------------------------------------------

  ghost predicate SameKernel<A(!new), B, C>(f: A -> B, g: A -> C) {
    forall x, y :: f(x) == f(y) <==> g(x) == g(y)
  }

  lemma {:induction false} MapConcat<A, B>(f: A -> B, s: seq<A>, t: seq<A>)
    ensures Map(f, s + t) == Map(f, s) + Map(f, t)
  {
  }

  lemma {:induction false} MapWithout<A, B>(f: A -> B, t: seq<A>, j: nat)
    requires j < |t|
    ensures multiset(Map(f, t)) == multiset(Map(f, t[..j] + t[j + 1..])) + multiset{f(t[j])}
  {
    assert t == t[..j] + [t[j]] + t[j + 1..];
    assert Map(f, t) == Map(f, t[..j]) + [f(t[j])] + Map(f, t[j + 1..]);
    MapConcat(f, t[..j], t[j + 1..]);
  }

  lemma {:induction false} MapHas<A, B>(f: A -> B, t: seq<A>, y: B) returns (j: nat)
    requires y in multiset(Map(f, t))
    ensures j < |t| && f(t[j]) == y
  {
    assert y in Map(f, t);
    j :| 0 <= j < |t| && Map(f, t)[j] == y;
  }

  lemma {:induction false} KernelTransfers<A(!new), B, C>(f: A -> B, g: A -> C, s: seq<A>, t: seq<A>)
    requires SameKernel(f, g) && multiset(Map(f, s)) == multiset(Map(f, t))
    ensures multiset(Map(g, s)) == multiset(Map(g, t))
    decreases |s|
  {
    assert |multiset(Map(f, s))| == |s| && |multiset(Map(f, t))| == |t|;
    if s != [] {
      var n := |s| - 1;
      assert s[..n] + s[n + 1..] == s[..n];
      MapWithout(f, s, n);
      MapWithout(g, s, n);
      var j := MapHas(f, t, f(s[n]));
      MapWithout(f, t, j);
      MapWithout(g, t, j);
      var u := t[..j] + t[j + 1..];
      Cancel(multiset(Map(f, s[..n])), multiset(Map(f, u)), f(s[n]));
      hide Map;
      KernelTransfers(f, g, s[..n], u);
    } else {
      assert t == [];
    }
  }

  lemma {:induction false} Cancel<T>(a: multiset<T>, b: multiset<T>, x: T)
    requires a + multiset{x} == b + multiset{x}
    ensures a == b
  {
    assert a == (a + multiset{x}) - multiset{x};
    assert b == (b + multiset{x}) - multiset{x};
  }

  lemma {:induction false} KernelIff<A(!new), B, C>(f: A -> B, g: A -> C, s: seq<A>, t: seq<A>)
    requires SameKernel(f, g)
    ensures multiset(Map(f, s)) == multiset(Map(f, t)) <==> multiset(Map(g, s)) == multiset(Map(g, t))
  {
    if multiset(Map(f, s)) == multiset(Map(f, t)) {
      KernelTransfers(f, g, s, t);
    }
    if multiset(Map(g, s)) == multiset(Map(g, t)) {
      assert SameKernel(g, f);
      KernelTransfers(g, f, s, t);
    }
  }

  // --- the orders used ----------------------------------------------------------------------

  ghost predicate Injective<A(!new), B>(f: A -> B) {
    forall a, b :: f(a) == f(b) ==> a == b
  }

  lemma {:induction false} CapabilityOrderIsTotal(ops: Ops)
    ensures TotalOrder(CapabilityOrder(ops))
  {
    TextOrderIsTotal();
    hide Less;
    var leq := CapabilityOrder(ops);
    forall a, b
      ensures leq(a, b) || leq(b, a)
    {
      assert TEXT_ORDER(ops.encode(a), ops.encode(b)) || TEXT_ORDER(ops.encode(b), ops.encode(a));
    }
    forall a, b, c | leq(a, b) && leq(b, c)
      ensures leq(a, c)
    {
      assert TEXT_ORDER(ops.encode(a), ops.encode(b)) && TEXT_ORDER(ops.encode(b), ops.encode(c));
    }
  }

  lemma {:induction false} CapabilityOrderSeparates(ops: Ops, s: seq<Capability>)
    requires Injective(ops.encode)
    ensures Antisymmetric(CapabilityOrder(ops), s)
  {
    forall a, b | a in s && b in s && CapabilityOrder(ops)(a, b) && CapabilityOrder(ops)(b, a)
      ensures a == b
    {
      LessTotal(ops.encode(a), ops.encode(b));
    }
  }

  lemma {:induction false} StepOrderSeparates(s: seq<Step>)
    requires Distinct(POSITION, s)
    ensures Antisymmetric(STEP_ORDER, s)
  {
    forall a, b | a in s && b in s && STEP_ORDER(a, b) && STEP_ORDER(b, a)
      ensures a == b
    {
      var i :| 0 <= i < |s| && s[i] == a;
      var j :| 0 <= j < |s| && s[j] == b;
      assert POSITION(s[i]) == POSITION(s[j]);
    }
  }

  // --- form and meaning agree ---------------------------------------------------------------

  lemma {:induction false} CapabilityKernel(ops: Ops)
    ensures SameKernel(CapabilityFn(ops), CapabilityMeans(ops))
  {
    hide NormalList, Image, PathPick, DomainPick, Trim;
    forall c, d
      ensures CapabilityFn(ops)(c) == CapabilityFn(ops)(d) <==> CapabilityMeans(ops)(c) == CapabilityMeans(ops)(d)
    {
      NormalListIff(PathPick(ops), c.paths, d.paths);
      NormalListIff(DomainPick(ops), c.domains, d.domains);
    }
  }

  lemma {:induction false} StepKernel(ops: Ops)
    requires Injective(ops.encode)
    ensures SameKernel(StepFn(ops), StepMeans(ops))
  {
    CapabilityKernel(ops);
    CapabilityOrderIsTotal(ops);
    hide NormalList, Image, Trim, CapabilityOrder, CapabilityFn, CapabilityMeans, Map, Sort, Injective, TotalOrder,
        SameKernel;
    forall s, t
      ensures StepFn(ops)(s) == StepFn(ops)(t) <==> StepMeans(ops)(s) == StepMeans(ops)(t)
    {
      NormalListIff(TEXT_PICK, s.sideEffects, t.sideEffects);
      KernelIff(CapabilityFn(ops), CapabilityMeans(ops), s.capabilities, t.capabilities);
      CapabilityOrderSeparates(ops, Map(CapabilityFn(ops), s.capabilities));
      SortsAlike(CapabilityOrder(ops), Map(CapabilityFn(ops), s.capabilities), Map(CapabilityFn(ops), t.capabilities));
    }
    KernelIntro(StepFn(ops), StepMeans(ops));
  }

  lemma {:induction false} KernelIntro<A(!new), B, C>(f: A -> B, g: A -> C)
    requires forall x, y :: f(x) == f(y) <==> g(x) == g(y)
    ensures SameKernel(f, g)
  {
  }

  lemma {:induction false} DistinctPermutes<T, K>(key: T -> K, s: seq<T>, t: seq<T>)
    requires multiset(s) == multiset(t) && Distinct(key, s)
    ensures Distinct(key, t)
    decreases |s|
  {
    assert |multiset(s)| == |s| && |multiset(t)| == |t|;
    if s == [] {
      assert t == [];
    } else {
      var n := |s| - 1;
      var x, front := s[n], s[..n];
      assert s == front + [x];
      DistinctSnoc(key, front, x);
      assert x in multiset(t);
      var j :| 0 <= j < |t| && t[j] == x;
      var u := t[..j] + t[j + 1..];
      assert t == t[..j] + [x] + t[j + 1..];
      assert multiset(t) == multiset(u) + multiset{x};
      Cancel(multiset(front), multiset(u), x);
      DistinctPermutes(key, front, u);
      SameElements(front, u);
      DistinctInsert(key, u, x, j);
    }
  }

  lemma {:induction false} DistinctInsert<T, K>(key: T -> K, u: seq<T>, x: T, j: nat)
    requires j <= |u| && Distinct(key, u) && forall a | a in u :: key(a) != key(x)
    ensures Distinct(key, u[..j] + [x] + u[j..])
  {
    var t := u[..j] + [x] + u[j..];
    forall a, b | 0 <= a < b < |t|
      ensures key(t[a]) != key(t[b])
    {
      assert a < j ==> t[a] == u[a];
      assert a > j ==> t[a] == u[a - 1];
      assert b < j ==> t[b] == u[b];
      assert b > j ==> t[b] == u[b - 1];
    }
  }

  /** Whether the steps are valid does not depend on their order. */
  lemma {:induction false} ValidStepsPermute(s: seq<Step>, t: seq<Step>)
    requires multiset(s) == multiset(t) && ValidSteps(s)
    ensures ValidSteps(t)
  {
    hide ValidStep;
    SameElements(s, t);
    assert s[0] in t;
    DistinctPermutes(ID, s, t);
    DistinctPermutes(POSITION, s, t);
  }

  lemma {:induction false} SameMeaningSameForm(ops: Ops, p: Document, q: Document)
    requires Injective(ops.encode) && Normalized(ops, p).Some? && Means(ops, p) == Means(ops, q)
    ensures Normalized(ops, p) == Normalized(ops, q)
  {
    hide Map, StepFn, StepMeans, Sort, Trim, Injective;
    StepKernel(ops);
    KernelIff(StepFn(ops), StepMeans(ops), p.steps, q.steps);
    var s, t := UnsortedSteps(ops, p), UnsortedSteps(ops, q);
    ValidStepsPermute(s, t);
    StepOrderSeparates(s);
    SortsAlike(STEP_ORDER, s, t);
  }

  lemma {:induction false} SameFormSameMeaning(ops: Ops, p: Document, q: Document)
    requires Injective(ops.encode) && Normalized(ops, p).Some? && Normalized(ops, p) == Normalized(ops, q)
    ensures Means(ops, p) == Means(ops, q)
  {
    hide Map, StepFn, StepMeans, Sort, Trim, Injective, ValidSteps, ValidHead;
    StepKernel(ops);
    SortPermutes(STEP_ORDER, UnsortedSteps(ops, p));
    SortPermutes(STEP_ORDER, UnsortedSteps(ops, q));
    KernelIff(StepFn(ops), StepMeans(ops), p.steps, q.steps);
  }

  /** The canonical form of a valid plan is shared by exactly the plans that mean the same. */
  lemma {:induction false} FormIsMeaning(ops: Ops, p: Document, q: Document)
    requires Injective(ops.encode) && Normalized(ops, p).Some?
    ensures Normalized(ops, p) == Normalized(ops, q) <==> Means(ops, p) == Means(ops, q)
  {
    hide Normalized, Means, Injective;
    if Means(ops, p) == Means(ops, q) {
      SameMeaningSameForm(ops, p, q);
    }
    if Normalized(ops, p) == Normalized(ops, q) {
      SameFormSameMeaning(ops, p, q);
    }
  }

  /** The digest of the canonical JSON text; None for an invalid plan. */
  function Hash(ops: Ops, digest: Document -> string, p: Document): Option<string> {
    match Normalized(ops, p)
    case None => None
    case Some(n) => Some(digest(n))
  }

  /** So an approval bound to a hash covers a plan exactly if it means what was approved. */
  lemma {:induction false} HashIsMeaning(ops: Ops, digest: Document -> string, p: Document, q: Document)
    requires Injective(ops.encode) && Injective(digest) && Normalized(ops, p).Some?
    ensures Hash(ops, digest, p) == Hash(ops, digest, q) <==> Means(ops, p) == Means(ops, q)
  {
    FormIsMeaning(ops, p, q);
    hide Normalized, Means;
  }

  // --- what may be rearranged ---------------------------------------------------------------

  lemma {:induction false} MapPermutes<A, B>(f: A -> B, s: seq<A>, t: seq<A>)
    requires multiset(s) == multiset(t)
    ensures multiset(Map(f, s)) == multiset(Map(f, t))
    decreases |s|
  {
    assert |multiset(s)| == |s| && |multiset(t)| == |t|;
    if s == [] {
      assert t == [];
    } else {
      var n := |s| - 1;
      assert s == s[..n] + [s[n]] && s[..n] + s[n + 1..] == s[..n];
      assert s[n] in multiset(t);
      var j :| 0 <= j < |t| && t[j] == s[n];
      var u := t[..j] + t[j + 1..];
      assert t == t[..j] + [s[n]] + t[j + 1..];
      Cancel(multiset(s[..n]), multiset(u), s[n]);
      MapPermutes(f, s[..n], u);
      MapWithout(f, s, n);
      MapWithout(f, t, j);
    }
  }

  /** Texts may be reordered and repeated, and capabilities of a step reordered. */
  ghost predicate SameCapability(c: Capability, d: Capability) {
    && (forall v :: v in c.paths <==> v in d.paths)
    && (forall v :: v in c.domains <==> v in d.domains)
    && c.name == d.name && c.command == d.command && c.arguments == d.arguments
    && c.maxDuration == d.maxDuration && c.maxCalls == d.maxCalls && c.oneTime == d.oneTime
  }

  ghost predicate SameStep(s: Step, t: Step) {
    && (forall v :: v in s.sideEffects <==> v in t.sideEffects)
    && s.id == t.id && s.position == t.position && s.title == t.title && s.risk == t.risk
    && s.rollback == t.rollback && s.timeout == t.timeout
    && exists u: seq<Capability> :: multiset(u) == multiset(t.capabilities)
        && Pairwise(SameCapability, s.capabilities, u)
  }

  ghost predicate Pairwise<T>(same: (T, T) -> bool, s: seq<T>, t: seq<T>) {
    |s| == |t| && forall i | 0 <= i < |s| :: same(s[i], t[i])
  }

  /** Steps may be reordered as well. */
  ghost predicate Rearranged(p: Document, q: Document) {
    && p.(steps := []) == q.(steps := [])
    && exists u: seq<Step> :: multiset(u) == multiset(q.steps) && Pairwise(SameStep, p.steps, u)
  }

  lemma {:induction false} ImageOfSame(pick: Pick, v: seq<string>, w: seq<string>)
    requires forall x :: x in v <==> x in w
    ensures Image(pick, v) == Image(pick, w)
  {
  }

  lemma {:induction false} SameCapabilityMeans(ops: Ops, c: Capability, d: Capability)
    requires SameCapability(c, d)
    ensures CapabilityMeans(ops)(c) == CapabilityMeans(ops)(d)
  {
    hide Image, PathPick, DomainPick, Trim;
    ImageOfSame(PathPick(ops), c.paths, d.paths);
    ImageOfSame(DomainPick(ops), c.domains, d.domains);
  }

  lemma {:induction false} SameStepMeans(ops: Ops, s: Step, t: Step)
    requires SameStep(s, t)
    ensures StepMeans(ops)(s) == StepMeans(ops)(t)
  {
    hide CapabilityMeans, Image, Trim, SameCapability;
    ImageOfSame(TEXT_PICK, s.sideEffects, t.sideEffects);
    var u: seq<Capability> :| multiset(u) == multiset(t.capabilities) && Pairwise(SameCapability, s.capabilities, u);
    var f := CapabilityMeans(ops);
    forall i | 0 <= i < |u|
      ensures f(s.capabilities[i]) == f(u[i])
    {
      SameCapabilityMeans(ops, s.capabilities[i], u[i]);
    }
    assert Map(f, s.capabilities) == Map(f, u);
    MapPermutes(f, u, t.capabilities);
  }

  /** Rearranging a plan in any of these ways at once leaves its canonical form and its hash as they were. */
  lemma {:induction false} RearrangedPlansAgree(ops: Ops, digest: Document -> string, p: Document, q: Document)
    requires Injective(ops.encode) && Normalized(ops, p).Some? && Rearranged(p, q)
    ensures Normalized(ops, p) == Normalized(ops, q)
    ensures Hash(ops, digest, p) == Hash(ops, digest, q)
  {
    hide Normalized, StepMeans, SameStep, Trim, Injective;
    var u: seq<Step> :| multiset(u) == multiset(q.steps) && Pairwise(SameStep, p.steps, u);
    var f := StepMeans(ops);
    forall i | 0 <= i < |u|
      ensures f(p.steps[i]) == f(u[i])
    {
      SameStepMeans(ops, p.steps[i], u[i]);
    }
    assert Map(f, p.steps) == Map(f, u);
    MapPermutes(f, u, q.steps);
    FormIsMeaning(ops, p, q);
  }
}
