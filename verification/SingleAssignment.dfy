/** Two consequences of acceptance: every value is defined exactly once before its uses, and a plan the
    verifier accepts although it cannot run. */
module SingleAssignment {
  import opened Wrappers
  import opened Plan
  import opened Rules
  import opened Vec
  import opened Semantics
  import opened RankInvariant
  import Fanout

  /** `id` is defined by the external inputs (None) or at a position of an instruction's outputs. */
  datatype Site = FromInputs(at: nat) | FromInstruction(n: nat, at: nat)

  predicate DefinesAt(plan: RuntimePlan, site: Site, id: ValueId) {
    match site
    case FromInputs(at) => at < |plan.externalInputs| && plan.externalInputs[at] == id
    case FromInstruction(n, at) =>
      n < |Instructions(plan)| && at < |Defs(Instructions(plan)[n].body)| && Defs(Instructions(plan)[n].body)[at] == id
  }

  /** The site of a definition that comes before instruction `n`. */
  lemma SiteOf(plan: RuntimePlan, n: nat, id: ValueId) returns (site: Site)
    requires n <= |Instructions(plan)| && id in DefinedBefore(plan, n)
    ensures DefinesAt(plan, site, id) && (site.FromInstruction? ==> site.n < n)
  {
    if id in plan.externalInputs {
      var at :| 0 <= at < |plan.externalInputs| && plan.externalInputs[at] == id;
      site := FromInputs(at);
    } else {
      var k :| 0 <= k < n && id in Defs(Instructions(plan)[k].body);
      var at :| 0 <= at < |Defs(Instructions(plan)[k].body)| && Defs(Instructions(plan)[k].body)[at] == id;
      site := FromInstruction(k, at);
    }
  }

  /** Every descriptor of an accepted plan is defined, at exactly one site; and every operand of every
      instruction is defined at a site before it. */
  lemma DefinedExactlyOnce(plan: RuntimePlan, loaded: LoadedSpec, skip: bool, id: ValueId) returns (site: Site)
    requires WellFormed(plan, loaded, skip) && id in DescMap(plan.values)
    ensures DefinesAt(plan, site, id) && forall other :: DefinesAt(plan, other, id) ==> other == site
  {
    hide HeaderOk, ValuesOk, OutputsOk, BodyRule, DescMap, DefinedBefore;
    site := SiteOf(plan, |Instructions(plan)|, id);
    forall other | DefinesAt(plan, other, id) ensures other == site {
      OneSite(plan, loaded, skip, id, site, other);
    }
  }

  lemma OneSite(plan: RuntimePlan, loaded: LoadedSpec, skip: bool, id: ValueId, a: Site, b: Site)
    requires WellFormed(plan, loaded, skip) && DefinesAt(plan, a, id) && DefinesAt(plan, b, id)
    ensures a == b
  {
    hide HeaderOk, ValuesOk, OutputsOk, BodyRule, DescMap;
    if a.FromInstruction? {
      assert InstructionOk(plan, loaded.spec, DescMap(plan.values), a.n);
    }
    if b.FromInstruction? {
      assert InstructionOk(plan, loaded.spec, DescMap(plan.values), b.n);
    }
    if a.FromInstruction? && b.FromInstruction? && a.n != b.n {
      Earlier(plan, id, if a.n < b.n then a else b, if a.n < b.n then b.n else a.n);
    } else if a.FromInstruction? != b.FromInstruction? {
      Earlier(plan, id, if a.FromInputs? then a else b, if a.FromInputs? then b.n else a.n);
    }
  }

  lemma Earlier(plan: RuntimePlan, id: ValueId, site: Site, n: nat)
    requires n <= |Instructions(plan)| && DefinesAt(plan, site, id) && (site.FromInstruction? ==> site.n < n)
    ensures id in DefinedBefore(plan, n)
  {
    match site
    case FromInputs(at) => assert id in plan.externalInputs;
    case FromInstruction(k, at) => assert 0 <= k < n && id in Defs(Instructions(plan)[k].body);
  }

  lemma UsesFollowDefinitions(plan: RuntimePlan, loaded: LoadedSpec, skip: bool, n: nat, id: ValueId) returns (site: Site)
    requires WellFormed(plan, loaded, skip) && n < |Instructions(plan)| && id in Uses(Instructions(plan)[n].body)
    ensures DefinesAt(plan, site, id) && (site.FromInstruction? ==> site.n < n)
    ensures id in DescMap(plan.values)
    ensures match Instructions(plan)[n].body
            case Encode(_, _) => true
            case Compute(op) => DescMap(plan.values)[id].place == op.place
            case Comm(action) => |action.sources| == 1 && DescMap(plan.values)[id].place == action.sources[0]
  {
    hide HeaderOk, ValuesOk, OutputsOk, DescMap, DefinedBefore, KindRule, SpecRule;
    assert InstructionOk(plan, loaded.spec, DescMap(plan.values), n);
    site := SiteOf(plan, n, id);
  }

  // ---- A plan that is accepted and cannot run ----

  /** One plaintext whose scale is negative, encoded and returned. */
  const NegativeDesc := ValueDesc(0, Plaintext, Place(Host, 0, 0), "ctx", 3, -1, true, 1)
  const NegativeEncode := Instruction(0, Encode(Inline([0]), 0))

  function NegativePlan(): RuntimePlan {
    RuntimePlan(
      1, Target("vec-fixed-target", 1, [0], 1, SpecRef("vec-operator-spec", 1, Fanout.ZeroDigest)), None,
      [NegativeDesc], [], [NegativeEncode], [], [], [0])
  }

  function NegativeProgram(): Program {
    Program(NegativePlan(), 8192, map[], map[])
  }

  lemma NegativeTable()
    ensures DescMap(NegativePlan().values) == map[0 := NegativeDesc]
    ensures Instructions(NegativePlan()) == [NegativeEncode]
  {
    var dm := DescMap(NegativePlan().values);
    assert NegativePlan().values[0].id == 0;
    assert dm.Keys == {0};
  }

  lemma NegativeDefined()
    ensures DefinedBefore(NegativePlan(), 0) == {} && DefinedBefore(NegativePlan(), 1) == {0}
  {
    hide DescMap;
    NegativeTable();
    DefinedNext(NegativePlan(), 0);
  }

  /** The verifier does not look at the sign of a scale: it accepts this plan, whose only encode fails. */
  lemma NegativeScaleIsAccepted()
    ensures WellFormed(NegativePlan(), Fanout.TestSpec(), false)
    ensures Accepted(NegativeProgram(), Fanout.TestSpec(), false)
    ensures !ScalesRunnable(NegativeProgram()) && 0 !in Meaning(NegativeProgram())
  {
    hide DescMap, DefinedBefore, Budget, Meaning;
    var plan, p := NegativePlan(), NegativeProgram();
    NegativeTable();
    NegativeDefined();
    Fanout.BudgetOfThree();
    assert InstructionOk(plan, Fanout.TestSpec().spec, DescMap(plan.values), 0);
    assert WellFormed(plan, Fanout.TestSpec(), false);
    assert p.Code()[0] == NegativeEncode && !ScaleRunnable(p.Table(), p.Code()[0].body);
    assert Accepted(p, Fanout.TestSpec(), false);
    VerifiedPlansRun(p, Fanout.TestSpec(), false);
  }
}
