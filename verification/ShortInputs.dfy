/** A verified plan whose inputs pass validation and which fails because their lengths differ. */
module ShortInputs {
  import opened Wrappers
  import opened Plan
  import opened Rules
  import opened Vec
  import opened Semantics
  import opened Widths
  import Fanout

  const Home := Place(Host, 0, 0)
  const ShortMeta := Meta("ctx", 8192, 3, 40, true, 2)
  const Addition := Instruction(0, Compute(ComputeOp(AddCC, [0, 1], 2, Home, NoAttrs)))

  function Cipher(id: ValueId): ValueDesc {
    ValueDesc(id, Ciphertext, Home, "ctx", 3, 40, true, 2)
  }

  /** The sum of two external inputs. */
  function SumPlan(): RuntimePlan {
    RuntimePlan(
      1, Target("vec-fixed-target", 1, [0], 1, SpecRef("vec-operator-spec", 1, Fanout.ZeroDigest)), None,
      [Cipher(0), Cipher(1), Cipher(2)], [0, 1], [], [Addition], [], [2])
  }

  /** The sum of inputs with `m` and `n` slots. */
  function SumProgram(m: nat, n: nat): Program {
    Program(SumPlan(), 8192, map[0 := Zeros(m), 1 := Zeros(n)], map[])
  }

  function Zeros(n: nat): Payload {
    Payload(Ciphertext, seq(n, _ => Lit(0)), ShortMeta)
  }

  lemma SumTable()
    ensures DescMap(SumPlan().values) == map[0 := Cipher(0), 1 := Cipher(1), 2 := Cipher(2)]
    ensures Instructions(SumPlan()) == [Addition]
  {
    hide DescMap;
    var values, dm := SumPlan().values, DescMap(SumPlan().values);
    assert values[0].id == 0 && values[1].id == 1 && values[2].id == 2;
    assert dm.Keys == {0, 1, 2};
  }

  lemma SumDefined()
    ensures DefinedBefore(SumPlan(), 0) == {0, 1} && DefinedBefore(SumPlan(), 1) == {0, 1, 2}
  {
    hide DescMap;
    SumTable();
    DefinedNext(SumPlan(), 0);
  }

  lemma SumInstruction()
    ensures InstructionOk(SumPlan(), Fanout.TestSpec().spec, DescMap(SumPlan().values), 0)
  {
    hide DescMap, DefinedBefore;
    SumTable();
    SumDefined();
    assert ComputeRule(Addition.body.op, DescMap(SumPlan().values));
  }

  lemma SumValues()
    ensures ValuesOk(SumPlan(), Fanout.TestSpec().spec) && InputsOk(SumPlan(), DescMap(SumPlan().values))
  {
    hide DescMap, DefinedBefore, DescOk, Fanout.TestSpec;
    SumTable();
    assert forall i :: 0 <= i < 3 ==> SumPlan().values[i] == Cipher(i);
    forall i | 0 <= i < 3 ensures DescOk(SumPlan(), Fanout.TestSpec().spec, SumPlan().values[i]) {
      CipherOk(i);
    }
  }

  lemma CipherOk(id: ValueId)
    ensures DescOk(SumPlan(), Fanout.TestSpec().spec, Cipher(id))
  {
    hide Budget;
    Fanout.BudgetOfThree();
  }

  lemma SumOutputs()
    ensures HeaderOk(SumPlan(), Fanout.TestSpec(), false) && OutputsOk(SumPlan(), DescMap(SumPlan().values))
  {
    hide DescMap, DefinedBefore;
    SumTable();
    SumDefined();
  }

  lemma SumWellFormed()
    ensures WellFormed(SumPlan(), Fanout.TestSpec(), false)
  {
    hide DescMap, DefinedBefore, InstructionOk, ValuesOk, InputsOk, HeaderOk, OutputsOk, Fanout.TestSpec;
    SumTable();
    SumDefined();
    SumValues();
    SumInstruction();
    SumOutputs();
  }

  lemma SumResult(m: nat, n: nat)
    ensures ComputeNow(Addition.body.op, [Zeros(m), Zeros(n)]).Success? <==> m == n
  {
  }

  lemma SumValidated(m: nat, n: nat)
    ensures Validated(SumProgram(m, n), Fanout.TestSpec(), false)
  {
    hide DescMap, DefinedBefore, WellFormed, Zeros, Validates;
    SumWellFormed();
    SumTable();
    ZerosValid(m);
    ZerosValid(n);
  }

  /** Every input passes validation whatever its length, and the sum exists only for equal lengths. */
  lemma SumNeedsEqualLengths(m: nat, n: nat)
    ensures Validated(SumProgram(m, n), Fanout.TestSpec(), false)
    ensures 2 in Meaning(SumProgram(m, n)) <==> m == n
  {
    hide DescMap, DefinedBefore, Validated, ComputeNow, Zeros;
    var p := SumProgram(m, n);
    SumValidated(m, n);
    SumTable();
    SumResult(m, n);
    assert p.Code() == [Addition];
    assert After(p, 0) == map[0 := Zeros(m), 1 := Zeros(n)];
    assert Operands(After(p, 0), [0, 1]) == [Zeros(m), Zeros(n)];
  }

  lemma ZerosValid(n: nat)
    ensures Validates(Zeros(n), Cipher(0), 8192) && Validates(Zeros(n), Cipher(1), 8192)
  {
  }
}
