/** The part of the host's intermediate language that the transpilers look at:
    opcodes, operands and instructions, with what it means for two instruction
    lists to differ. */
module Instructions {
  import opened Plugin

  /** `Other(code)` stands for every opcode the transpilers never test for. */
  datatype Opcode = Ldc_R4 | Ble_Un_S | Ble_Un | Stfld | Call | Other(code: nat)

  /** A float literal, a reference to one of the plugin's providers, any
      other operand (a field, a label, ...), or no operand. */
  datatype Operand = Float(value: real) | Method(provider: Provider) | OtherOperand(id: nat) | NoOperand

  /** An instruction: its opcode and operand, the labels that mark it as a
      branch target, and the exception blocks it opens or closes. */
  datatype Instruction = Instruction(opcode: Opcode, operand: Operand, labels: seq<nat>, blocks: seq<nat>)

  /** The instruction a transpiler writes over a literal: a freshly built call
      of `p`, which carries no labels and no exception blocks. */
  function CallTo(p: Provider): Instruction {
    Instruction(Call, Method(p), [], [])
  }

  /** Some instruction of `codes` carries label `l`, so a branch to `l` lands. */
  predicate Marks(codes: seq<Instruction>, l: nat) {
    exists j :: 0 <= j < |codes| && l in codes[j].labels
  }

  function Abs(x: real): real {
    if x < 0.0 then -x else x
  }

  /** The float literal an instruction loads, if it is an `ldc.r4` of a float. */
  function LoadedFloat(ins: Instruction): Option<real> {
    if ins.opcode == Ldc_R4 && ins.operand.Float? then Some(ins.operand.value) else None
  }

  datatype Option<T> = None | Some(value: T)

  /** The float an instruction pushes at run time under `caps`: a literal, or
      the result of calling a provider. */
  function PushedValue(ins: Instruction, caps: Caps): Option<real>
    requires InDeclaredRange(caps)
  {
    if LoadedFloat(ins).Some? then LoadedFloat(ins)
    else if ins.opcode == Call && ins.operand.Method? then Some(ProviderValue(ins.operand.provider, caps))
    else None
  }

  /** The number of positions at which two equally long lists differ. */
  function ChangedCount(a: seq<Instruction>, b: seq<Instruction>): (n: nat)
    requires |a| == |b|
    ensures n <= |a|
    ensures n == 0 <==> a == b
    decreases |a|
  {
    if |a| == 0 then 0
    else
      var k := |a| - 1;
      assert a == a[..k] + [a[k]] && b == b[..k] + [b[k]];
      ChangedCount(a[..k], b[..k]) + (if a[k] != b[k] then 1 else 0)
  }

  /** Extending both lists by one position adds one exactly when the new
      positions differ. */
  lemma ChangedCountSnoc(a: seq<Instruction>, b: seq<Instruction>, x: Instruction, y: Instruction)
    requires |a| == |b|
    ensures ChangedCount(a + [x], b + [y]) == ChangedCount(a, b) + (if x != y then 1 else 0)
  {
  }
}
