/**
 * The LS-8 machine as values: the CPU state, Python-style indexing into the
 * register file and RAM, the ALU, and one iteration of the fetch-decode-execute
 * loop of `CPU.run` as a state transition.
 *
 * Values held in registers and RAM are unbounded integers, as in the Python
 * original: nothing wraps at 8 bits.
 */
module Machine {

  datatype Option<T> = None | Some(value: T)

  const RegCount: int := 8
  const RamSize: int := 256
  /** Register 7 is the stack pointer. */
  const SP: nat := 7

  // The opcode table of the dispatch loop.
  const HLT: int := 0x01
  const LDI: int := 0x82
  const PRN: int := 0x47
  const MUL: int := 0xA2
  const ADD: int := 0xA0
  const PUSH: int := 0x45
  const POP: int := 0x46
  const CALL: int := 0x50
  const RET: int := 0x11
  const CMP: int := 0xA7
  const JMP: int := 0x54
  const JEQ: int := 0x55
  const JNE: int := 0x56

  const Opcodes: set<int> := {HLT, LDI, PRN, MUL, ADD, PUSH, POP, CALL, RET, CMP, JMP, JEQ, JNE}

  // The three flag patterns CMP writes.
  const FlagEqual: int := 0x01
  const FlagGreater: int := 0x82
  const FlagLess: int := 0x04

  /** The operation tags the ALU accepts. */
  const AluOps: set<string> := {"ADD", "SUB", "MUL", "CMP"}

  datatype State = State(reg: seq<int>, ram: seq<int>, pc: int, flag: int)

  predicate WellFormed(s: State) {
    |s.reg| == RegCount && |s.ram| == RamSize
  }

  /** How a step (or a run) ended. */
  datatype Status =
    | Continue              // the loop goes on with the next instruction
    | Halted                // HLT executed, the process exits
    | InvalidOpcode(op: int) // a byte outside the opcode table was fetched and reported
    | JmpExit               // JMP compared pc with its target and broke out of the loop
    | Fault                 // an IndexError escaped from a register or RAM access
    | OutOfFuel             // the step budget of a bounded run was used up

  datatype StepResult = StepResult(state: State, out: seq<int>, status: Status)

  datatype AluError = IndexError | UnsupportedOperation
  datatype AluResult = AluOk(state: State) | AluErr(error: AluError)

  /** The machine right after construction: all registers, RAM, pc and flag zero. */
  function Init(): (s: State)
    ensures WellFormed(s)
    ensures s.pc == 0 && s.flag == 0
    ensures forall i :: 0 <= i < RegCount ==> s.reg[i] == 0
    ensures forall i :: 0 <= i < RamSize ==> s.ram[i] == 0
  {
    State(seq(RegCount, _ => 0), seq(RamSize, _ => 0), 0, 0)
  }

  /** A fresh machine whose RAM starts with the program image. */
  function Boot(image: seq<int>): (s: State)
    requires |image| <= RamSize
    ensures WellFormed(s)
    ensures s.reg == Init().reg && s.pc == 0 && s.flag == 0
    ensures forall i :: 0 <= i < |image| ==> s.ram[i] == image[i]
    ensures forall i :: |image| <= i < RamSize ==> s.ram[i] == 0
  {
    Init().(ram := image + Init().ram[|image|..])
  }

  /**
   * Python list indexing on a list of length n: i is accepted when
   * -n <= i < n, and a negative i counts from the end of the list.
   */
  function Slot(i: int, n: int): (r: Option<nat>)
    requires n > 0
    ensures r.Some? <==> -n <= i < n
    ensures r.Some? ==> r.value < n && (r.value - i) % n == 0
  {
    if 0 <= i < n then Some(i)
    else if -n <= i < 0 then Some(i + n)
    else None
  }

  function RegSlot(i: int): Option<nat> { Slot(i, RegCount) }
  function RamSlot(i: int): Option<nat> { Slot(i, RamSize) }

  /** `ram_read`: the cell at `address`, or None where Python raises IndexError. */
  function RamRead(s: State, address: int): (r: Option<int>)
    requires WellFormed(s)
    ensures r.Some? <==> -RamSize <= address < RamSize
    ensures 0 <= address < RamSize ==> r == Some(s.ram[address])
    ensures -RamSize <= address < 0 ==> r == Some(s.ram[RamSize + address])
  {
    match RamSlot(address)
    case Some(k) => Some(s.ram[k])
    case None => None
  }

  /** `ram_write(value, address)`: note the value comes first. */
  function RamWrite(s: State, value: int, address: int): (r: Option<State>)
    requires WellFormed(s)
    ensures r.Some? <==> -RamSize <= address < RamSize
    ensures r.Some? ==> WellFormed(r.value) && RamRead(r.value, address) == Some(value)
    ensures r.Some? ==> r.value.reg == s.reg && r.value.pc == s.pc && r.value.flag == s.flag
    ensures r.Some? ==> forall k :: 0 <= k < RamSize && RamSlot(address) != Some(k) ==> r.value.ram[k] == s.ram[k]
  {
    match RamSlot(address)
    case Some(k) => Some(s.(ram := s.ram[k := value]))
    case None => None
  }

  /** The flag pattern CMP stores for registers holding x and y. */
  function Compare(x: int, y: int): (f: int)
    ensures f in {FlagEqual, FlagGreater, FlagLess}
    ensures f == FlagEqual <==> x == y
    ensures f == FlagGreater <==> x > y
    ensures f == FlagLess <==> x < y
    // bit 0, the bit JEQ and JNE test, is set exactly for "equal"
    ensures f % 2 == 1 <==> x == y
  {
    if x == y then FlagEqual
    else if x > y then FlagGreater
    else FlagLess
  }

  /** `alu(op, reg_a, reg_b)`. */
  function Alu(s: State, op: string, a: int, b: int): (r: AluResult)
    requires WellFormed(s)
    ensures r == AluErr(UnsupportedOperation) <==> op !in AluOps
    ensures r == AluErr(IndexError) <==> op in AluOps && (RegSlot(a).None? || RegSlot(b).None?)
    ensures r.AluOk? ==> WellFormed(r.state) && r.state.ram == s.ram && r.state.pc == s.pc
    ensures r.AluOk? && op != "CMP" ==>
      var i, j := RegSlot(a).value, RegSlot(b).value;
      && r.state.flag == s.flag
      && (forall k :: 0 <= k < RegCount && k != i ==> r.state.reg[k] == s.reg[k])
      && r.state.reg[i] == (if op == "ADD" then s.reg[i] + s.reg[j]
                            else if op == "SUB" then s.reg[i] - s.reg[j]
                            else s.reg[i] * s.reg[j])
    ensures r.AluOk? && op == "CMP" ==>
      r.state.reg == s.reg && r.state.flag == Compare(s.reg[RegSlot(a).value], s.reg[RegSlot(b).value])
  {
    if op in AluOps then
      match (RegSlot(a), RegSlot(b))
      case (Some(i), Some(j)) =>
        if op == "ADD" then AluOk(s.(reg := s.reg[i := s.reg[i] + s.reg[j]]))
        else if op == "SUB" then AluOk(s.(reg := s.reg[i := s.reg[i] - s.reg[j]]))
        else if op == "MUL" then AluOk(s.(reg := s.reg[i := s.reg[i] * s.reg[j]]))
        else AluOk(s.(flag := Compare(s.reg[i], s.reg[j])))
      case _ => AluErr(IndexError)
    else
      AluErr(UnsupportedOperation)
  }

  /** The opcode byte and the two bytes after it, all fetched before dispatch. */
  datatype Instr = Instr(op: int, a: int, b: int)

  function Fetch(s: State): (r: Option<Instr>)
    requires WellFormed(s)
    ensures r.Some? <==> -RamSize <= s.pc && s.pc + 2 < RamSize
    ensures r.Some? ==> RamRead(s, s.pc) == Some(r.value.op)
                        && RamRead(s, s.pc + 1) == Some(r.value.a)
                        && RamRead(s, s.pc + 2) == Some(r.value.b)
  {
    match (RamRead(s, s.pc), RamRead(s, s.pc + 1), RamRead(s, s.pc + 2))
    case (Some(op), Some(a), Some(b)) => Some(Instr(op, a, b))
    case _ => None
  }

  /** Bit 0 of the flag, `flag & 1` for any Python int. */
  function EqualBit(flag: int): int { flag % 2 }

  function Stop(s: State, status: Status): StepResult {
    StepResult(s, [], status)
  }

  /** A result with `out` printed before its own output. */
  function Prefix(out: seq<int>, r: StepResult): StepResult {
    StepResult(r.state, out + r.out, r.status)
  }

  // The handlers of the dispatch loop, one per branch. Each returns the new
  // state, what it printed and how the loop goes on; a handler that raises
  // IndexError returns Fault with the state as far as it had changed it.

  function Halt(s: State): StepResult {
    StepResult(s.(pc := s.pc + 1), [], Halted)
  }

  /** MUL prints the product and stores nothing. */
  function Mul(s: State, a: int, b: int): StepResult
    requires WellFormed(s)
  {
    match (RegSlot(a), RegSlot(b))
    case (Some(i), Some(j)) => StepResult(s.(pc := s.pc + 3), [s.reg[i] * s.reg[j]], Continue)
    case _ => Stop(s, Fault)
  }

  function Prn(s: State, a: int): StepResult
    requires WellFormed(s)
  {
    match RegSlot(a)
    case Some(i) => StepResult(s.(pc := s.pc + 2), [s.reg[i]], Continue)
    case None => Stop(s, Fault)
  }

  function Ldi(s: State, a: int, b: int): (r: StepResult)
    requires WellFormed(s)
    ensures WellFormed(r.state)
  {
    match RegSlot(a)
    case Some(i) => StepResult(s.(reg := s.reg[i := b], pc := s.pc + 3), [], Continue)
    case None => Stop(s, Fault)
  }

  /** PUSH decrements the stack pointer before it reads its operand register. */
  function Push(s: State, a: int): (r: StepResult)
    requires WellFormed(s)
    ensures WellFormed(r.state)
  {
    var s1 := s.(reg := s.reg[SP := s.reg[SP] - 1]);
    match RegSlot(a)
    case None => Stop(s1, Fault)
    case Some(i) =>
      match RamWrite(s1, s1.reg[i], s1.reg[SP])
      case None => Stop(s1, Fault)
      case Some(s2) => StepResult(s2.(pc := s.pc + 2), [], Continue)
  }

  function Pop(s: State, a: int): (r: StepResult)
    requires WellFormed(s)
    ensures WellFormed(r.state)
  {
    match RamRead(s, s.reg[SP])
    case None => Stop(s, Fault)
    case Some(v) =>
      match RegSlot(a)
      case None => Stop(s, Fault)
      case Some(i) =>
        var s1 := s.(reg := s.reg[i := v]);
        StepResult(s1.(reg := s1.reg[SP := s1.reg[SP] + 1], pc := s.pc + 2), [], Continue)
  }

  function Add(s: State, a: int, b: int): (r: StepResult)
    requires WellFormed(s)
    ensures WellFormed(r.state)
  {
    match (RegSlot(a), RegSlot(b))
    case (Some(i), Some(j)) =>
      StepResult(s.(reg := s.reg[i := s.reg[i] + s.reg[j]], pc := s.pc + 3), [], Continue)
    case _ => Stop(s, Fault)
  }

  /** CALL pushes the return address pc + 2, then reads the target register. */
  function Call(s: State, a: int): (r: StepResult)
    requires WellFormed(s)
    ensures WellFormed(r.state)
  {
    var s1 := s.(reg := s.reg[SP := s.reg[SP] - 1]);
    match RamWrite(s1, s.pc + 2, s1.reg[SP])
    case None => Stop(s1, Fault)
    case Some(s2) =>
      match RegSlot(a)
      case None => Stop(s2, Fault)
      case Some(i) => StepResult(s2.(pc := s2.reg[i]), [], Continue)
  }

  function Ret(s: State): (r: StepResult)
    requires WellFormed(s)
    ensures WellFormed(r.state)
  {
    match RamRead(s, s.reg[SP])
    case None => Stop(s, Fault)
    case Some(target) =>
      StepResult(s.(pc := target, reg := s.reg[SP := s.reg[SP] + 1]), [], Continue)
  }

  function Cmp(s: State, a: int, b: int): (r: StepResult)
    requires WellFormed(s)
    ensures WellFormed(r.state)
  {
    match Alu(s, "CMP", a, b)
    case AluOk(s1) => StepResult(s1.(pc := s.pc + 3), [], Continue)
    case AluErr(_) => Stop(s, Fault)
  }

  /** `self.pc == self.reg[reg_a]` is a comparison: pc stays, the loop ends. */
  function Jmp(s: State, a: int): StepResult {
    match RegSlot(a)
    case Some(_) => Stop(s, JmpExit)
    case None => Stop(s, Fault)
  }

  /** JEQ (`jumpIfSet`) and JNE (not `jumpIfSet`) test bit 0 of the flag. */
  function Branch(s: State, jumpIfSet: bool, a: int): StepResult
    requires WellFormed(s)
  {
    if (EqualBit(s.flag) == 1) == jumpIfSet then
      match RegSlot(a)
      case Some(i) => StepResult(s.(pc := s.reg[i]), [], Continue)
      case None => Stop(s, Fault)
    else
      StepResult(s.(pc := s.pc + 2), [], Continue)
  }

  /** The dispatch on the opcode byte. */
  function Execute(s: State, op: int, a: int, b: int): (r: StepResult)
    requires WellFormed(s)
    ensures WellFormed(r.state)
    ensures |r.out| <= 1 && r.status != OutOfFuel
  {
    if op == HLT then Halt(s)
    else if op == MUL then Mul(s, a, b)
    else if op == PRN then Prn(s, a)
    else if op == LDI then Ldi(s, a, b)
    else if op == PUSH then Push(s, a)
    else if op == POP then Pop(s, a)
    else if op == ADD then Add(s, a, b)
    else if op == CALL then Call(s, a)
    else if op == RET then Ret(s)
    else if op == CMP then Cmp(s, a, b)
    else if op == JMP then Jmp(s, a)
    else if op == JEQ then Branch(s, true, a)
    else if op == JNE then Branch(s, false, a)
    else Stop(s, InvalidOpcode(op))
  }

  /** One iteration of the `while running` loop of `run`. */
  function Step(s: State): (r: StepResult)
    requires WellFormed(s)
    ensures WellFormed(r.state)
    ensures |r.out| <= 1 && r.status != OutOfFuel
    ensures Fetch(s).None? ==> r == Stop(s, Fault)
  {
    match Fetch(s)
    case None => Stop(s, Fault)
    case Some(instr) => Execute(s, instr.op, instr.a, instr.b)
  }

  /**
   * A step function that is defined on every well-formed state, keeps it
   * well-formed, and leaves running out of fuel to the iteration.
   */
  ghost predicate Preserves(step: State --> StepResult) {
    forall t {:trigger step.requires(t)} {:trigger step(t)} :: WellFormed(t) ==>
      step.requires(t) && WellFormed(step(t).state) && step(t).status != OutOfFuel
  }

  /**
   * At most `fuel` steps of `step` from s, for as long as they continue:
   * the values printed in order, the final state, and why the iteration
   * stopped.
   */
  function Iterate(step: State --> StepResult, s: State, fuel: nat): (r: StepResult)
    requires Preserves(step) && WellFormed(s)
    ensures WellFormed(r.state)
    ensures r.status != Continue
    decreases fuel
  {
    if fuel == 0 then Stop(s, OutOfFuel)
    else
      var r1 := step(s);
      if r1.status == Continue then
        Prefix(r1.out, Iterate(step, r1.state, fuel - 1))
      else
        r1
  }

  /** `run` with a budget of `fuel` iterations of its loop. */
  function Run(s: State, fuel: nat): (r: StepResult)
    requires WellFormed(s)
    ensures WellFormed(r.state)
    ensures r.status != Continue
    ensures fuel == 0 ==> r == Stop(s, OutOfFuel)
  {
    Iterate(Step, s, fuel)
  }

  /** A run begins with one step and goes on from its state only if that step continued. */
  lemma RunFirstStep(s: State, fuel: nat)
    requires WellFormed(s) && fuel > 0
    ensures Step(s).status != Continue ==> Run(s, fuel) == Step(s)
    ensures Step(s).status == Continue ==> Run(s, fuel) == Prefix(Step(s).out, Run(Step(s).state, fuel - 1))
  {
  }
}
