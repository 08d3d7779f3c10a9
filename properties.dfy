/**
 * What one step of the LS-8 machine does, opcode by opcode, what pairs of
 * steps (PUSH/POP, CALL/RET, CMP/JEQ) achieve together, and how a bounded
 * run depends on its budget.
 */
module Properties {
  import opened Machine

  /** The instruction width `1 + (opcode >> 6)` read off the opcode byte. */
  function Width(op: int): int
    requires 0 <= op < 256
  {
    1 + op / 64
  }

  /** Whether a JEQ or JNE with this flag transfers control. */
  predicate Taken(op: int, flag: int) {
    (EqualBit(flag) == 1) == (op == JEQ)
  }

  /**
   * Every handler that does not transfer control advances pc by the width
   * encoded in the top two bits of its opcode.
   */
  lemma AdvanceByWidth(s: State)
    requires WellFormed(s) && Fetch(s).Some?
    requires Fetch(s).value.op in {HLT, LDI, PRN, MUL, ADD, PUSH, POP, CMP, JEQ, JNE}
    requires Fetch(s).value.op in {JEQ, JNE} ==> !Taken(Fetch(s).value.op, s.flag)
    ensures Step(s).status in {Continue, Halted} ==>
      Step(s).state.pc == s.pc + Width(Fetch(s).value.op)
  {
  }

  /** A byte outside the opcode table is reported and ends the run; nothing changes. */
  lemma InvalidOpcodeStops(s: State)
    requires WellFormed(s) && Fetch(s).Some?
    ensures Step(s).status.InvalidOpcode? <==> Fetch(s).value.op !in Opcodes
    ensures Fetch(s).value.op !in Opcodes ==> Step(s) == Stop(s, InvalidOpcode(Fetch(s).value.op))
  {
  }

  /** HLT advances pc past itself and halts; nothing else changes. */
  lemma HaltStops(s: State)
    requires WellFormed(s) && Fetch(s).Some?
    ensures Step(s).status == Halted <==> Fetch(s).value.op == HLT
    ensures Fetch(s).value.op == HLT ==> Step(s) == StepResult(s.(pc := s.pc + 1), [], Halted)
  {
  }

  /** JMP does not jump: pc and all other state stay, and the loop ends. */
  lemma JmpDoesNotJump(s: State, a: int, b: int)
    requires WellFormed(s) && Fetch(s) == Some(Instr(JMP, a, b))
    ensures Step(s) == Stop(s, if RegSlot(a).Some? then JmpExit else Fault)
  {
  }

  /** Only JMP ends the loop with JmpExit, and it needs a valid register operand. */
  lemma JmpExitOnlyFromJmp(s: State)
    requires WellFormed(s)
    ensures Step(s).status == JmpExit <==>
      Fetch(s).Some? && Fetch(s).value.op == JMP && RegSlot(Fetch(s).value.a).Some?
  {
  }

  /** Fetching needs pc, pc + 1 and pc + 2 to be valid RAM indices, else IndexError. */
  lemma FetchFaults(s: State)
    requires WellFormed(s)
    requires !(-RamSize <= s.pc && s.pc + 2 < RamSize)
    ensures Step(s) == Stop(s, Fault)
  {
  }

  /** The ALU refuses any tag outside ADD, SUB, MUL and CMP, whatever the operands. */
  lemma AluRejectsUnknown(s: State, op: string, a: int, b: int)
    requires WellFormed(s)
    ensures Alu(s, op, a, b).AluErr? && Alu(s, op, a, b).error == UnsupportedOperation
            <==> op !in AluOps
  {
  }

  /** LDI r, v sets exactly register r to v. */
  lemma LoadImmediate(s: State, a: int, v: int)
    requires WellFormed(s) && Fetch(s) == Some(Instr(LDI, a, v))
    ensures RegSlot(a).None? ==> Step(s) == Stop(s, Fault)
    ensures RegSlot(a).Some? ==>
      var r, i := Step(s), RegSlot(a).value;
      && r.status == Continue && r.out == []
      && r.state.reg[i] == v
      && (forall k :: 0 <= k < RegCount && k != i ==> r.state.reg[k] == s.reg[k])
      && r.state.ram == s.ram && r.state.flag == s.flag && r.state.pc == s.pc + 3
  {
  }

  /** ADD a, b stores reg[a] + reg[b] into register a and changes nothing else. */
  lemma AddStores(s: State, a: int, b: int)
    requires WellFormed(s) && Fetch(s) == Some(Instr(ADD, a, b))
    ensures RegSlot(a).None? || RegSlot(b).None? ==> Step(s) == Stop(s, Fault)
    ensures RegSlot(a).Some? && RegSlot(b).Some? ==>
      var r, i, j := Step(s), RegSlot(a).value, RegSlot(b).value;
      && r.status == Continue && r.out == []
      && r.state.reg[i] == s.reg[i] + s.reg[j]
      && (forall k :: 0 <= k < RegCount && k != i ==> r.state.reg[k] == s.reg[k])
      && r.state.ram == s.ram && r.state.flag == s.flag && r.state.pc == s.pc + 3
  {
  }

  /**
   * MUL and PRN only print: MUL prints the product of its registers and,
   * unlike ADD, stores nothing; PRN prints its register.
   */
  lemma OutputOnly(s: State, op: int, a: int, b: int)
    requires WellFormed(s) && op in {MUL, PRN} && Fetch(s) == Some(Instr(op, a, b))
    requires RegSlot(a).Some? && (op == MUL ==> RegSlot(b).Some?)
    ensures var r, x := Step(s), s.reg[RegSlot(a).value];
      && r.status == Continue
      && r.state == s.(pc := s.pc + Width(op))
      && r.out == [if op == MUL then x * s.reg[RegSlot(b).value] else x]
  {
  }

  /** CMP stores one of three flag patterns, chosen by trichotomy, and nothing else. */
  lemma CompareSetsFlag(s: State, a: int, b: int)
    requires WellFormed(s) && Fetch(s) == Some(Instr(CMP, a, b))
    requires RegSlot(a).Some? && RegSlot(b).Some?
    ensures var r, x, y := Step(s), s.reg[RegSlot(a).value], s.reg[RegSlot(b).value];
      && r.status == Continue && r.out == []
      && r.state.reg == s.reg && r.state.ram == s.ram && r.state.pc == s.pc + 3
      && (r.state.flag == FlagEqual <==> x == y)
      && (r.state.flag == FlagGreater <==> x > y)
      && (r.state.flag == FlagLess <==> x < y)
  {
  }

  /**
   * JEQ jumps exactly when bit 0 of the flag is set and JNE exactly when it
   * is clear; otherwise pc moves past the two-byte instruction. Registers,
   * RAM and the flag are untouched.
   */
  lemma BranchesAreComplements(s: State, op: int, a: int, b: int)
    requires WellFormed(s) && op in {JEQ, JNE} && Fetch(s) == Some(Instr(op, a, b))
    ensures Taken(JEQ, s.flag) <==> !Taken(JNE, s.flag)
    ensures Taken(op, s.flag) && RegSlot(a).None? ==> Step(s) == Stop(s, Fault)
    ensures Taken(op, s.flag) && RegSlot(a).Some? ==>
      Step(s) == StepResult(s.(pc := s.reg[RegSlot(a).value]), [], Continue)
    ensures !Taken(op, s.flag) ==> Step(s) == StepResult(s.(pc := s.pc + 2), [], Continue)
  {
  }

  /** Right after a CMP, JEQ jumps iff the compared registers were equal, JNE iff not. */
  lemma CompareThenBranch(s: State, a: int, b: int)
    requires WellFormed(s) && Fetch(s) == Some(Instr(CMP, a, b))
    requires RegSlot(a).Some? && RegSlot(b).Some?
    requires var t := Step(s).state;
      Fetch(t).Some? && Fetch(t).value.op in {JEQ, JNE} && RegSlot(Fetch(t).value.a).Some?
    ensures var t := Step(s).state;
      var op, x, y := Fetch(t).value.op, s.reg[RegSlot(a).value], s.reg[RegSlot(b).value];
      var u := Step(t);
      && u.status == Continue
      && u.state.pc == (if (x == y) == (op == JEQ) then t.reg[RegSlot(Fetch(t).value.a).value] else t.pc + 2)
  {
    var t := Step(s).state;
    CompareSetsFlag(s, a, b);
    BranchesAreComplements(t, Fetch(t).value.op, Fetch(t).value.a, Fetch(t).value.b);
  }

  /** PUSH r: SP goes down by one and the pushed value lands at the new SP. */
  lemma PushEffect(s: State, a: int, b: int)
    requires WellFormed(s) && Fetch(s) == Some(Instr(PUSH, a, b))
    requires RegSlot(a).Some? && RamSlot(s.reg[SP] - 1).Some?
    ensures var r, i := Step(s), RegSlot(a).value;
      && r.status == Continue && r.out == []
      && r.state.reg == s.reg[SP := s.reg[SP] - 1]
      && r.state.ram == s.ram[RamSlot(s.reg[SP] - 1).value := r.state.reg[i]]
      && r.state.flag == s.flag && r.state.pc == s.pc + 2
  {
  }

  /** POP r: register r takes the value at SP, then SP goes up by one. */
  lemma PopEffect(s: State, a: int, b: int)
    requires WellFormed(s) && Fetch(s) == Some(Instr(POP, a, b))
    requires RegSlot(a).Some? && RamSlot(s.reg[SP]).Some?
    ensures var r, i, v := Step(s), RegSlot(a).value, s.ram[RamSlot(s.reg[SP]).value];
      && r.status == Continue && r.out == []
      && r.state.reg == s.reg[i := v][SP := s.reg[i := v][SP] + 1]
      && r.state.ram == s.ram && r.state.flag == s.flag && r.state.pc == s.pc + 2
  {
  }

  /**
   * PUSH r followed by POP r restores every register (r and SP included) and
   * changes RAM only at address SP - 1.
   */
  lemma PushPopRoundTrip(s: State, r: int)
    requires WellFormed(s) && RegSlot(r).Some? && RamSlot(s.reg[SP] - 1).Some?
    requires Fetch(s).Some? && Fetch(s).value.op == PUSH && RegSlot(Fetch(s).value.a) == RegSlot(r)
    requires var t := Step(s).state;
      Fetch(t).Some? && Fetch(t).value.op == POP && RegSlot(Fetch(t).value.a) == RegSlot(r)
    ensures var t := Step(s); var u := Step(t.state);
      && t.status == Continue && u.status == Continue && t.out + u.out == []
      && u.state.reg == s.reg && u.state.flag == s.flag && u.state.pc == s.pc + 4
      && (forall k :: 0 <= k < RamSize && Some(k) != RamSlot(s.reg[SP] - 1) ==> u.state.ram[k] == s.ram[k])
  {
    var t := Step(s).state;
    var i := RegSlot(r).value;
    PushEffect(s, Fetch(s).value.a, Fetch(s).value.b);
    assert RamSlot(t.reg[SP]) == RamSlot(s.reg[SP] - 1);
    PopEffect(t, Fetch(t).value.a, Fetch(t).value.b);
    var u := Step(t).state;
    assert u.reg[i] == s.reg[i] by {
      if i != SP {
        assert u.reg[i] == t.ram[RamSlot(t.reg[SP]).value] == t.reg[i];
      }
    }
    assert u.reg == s.reg;
  }

  /** CALL r pushes the return address pc + 2 and jumps to the address in register r. */
  lemma CallEffect(s: State, a: int, b: int)
    requires WellFormed(s) && Fetch(s) == Some(Instr(CALL, a, b))
    requires RegSlot(a).Some? && RamSlot(s.reg[SP] - 1).Some?
    ensures var r := Step(s);
      && r.status == Continue && r.out == []
      && r.state.reg == s.reg[SP := s.reg[SP] - 1]
      && r.state.ram == s.ram[RamSlot(s.reg[SP] - 1).value := s.pc + 2]
      && r.state.flag == s.flag
      // the target register is read after SP has moved
      && r.state.pc == r.state.reg[RegSlot(a).value]
  {
  }

  /**
   * A RET executed while SP is back at the slot a CALL pushed, with that slot
   * intact, returns to the instruction after the CALL and gives SP back its
   * value from before the CALL.
   */
  lemma CallThenRet(s: State, t: State)
    requires WellFormed(s) && Fetch(s).Some? && Fetch(s).value.op == CALL
    requires Step(s).status == Continue
    requires WellFormed(t) && Fetch(t).Some? && Fetch(t).value.op == RET
    requires t.reg[SP] == Step(s).state.reg[SP]
    requires RamSlot(t.reg[SP]).Some?
    requires t.ram[RamSlot(t.reg[SP]).value] == Step(s).state.ram[RamSlot(t.reg[SP]).value]
    ensures Step(t).status == Continue
    ensures Step(t).state.pc == s.pc + 2
    ensures Step(t).state.reg[SP] == s.reg[SP]
  {
    CallEffect(s, Fetch(s).value.a, Fetch(s).value.b);
  }

  /** A call to a subroutine whose first instruction is RET comes straight back. */
  lemma CallRetImmediately(s: State)
    requires WellFormed(s) && Fetch(s).Some? && Fetch(s).value.op == CALL
    requires Step(s).status == Continue
    requires Fetch(Step(s).state).Some? && Fetch(Step(s).state).value.op == RET
    ensures Step(Step(s).state).status == Continue
    ensures Step(Step(s).state).state.pc == s.pc + 2
    ensures Step(Step(s).state).state.reg == s.reg
    ensures Step(Step(s).state).state.flag == s.flag
  {
    CallEffect(s, Fetch(s).value.a, Fetch(s).value.b);
    CallThenRet(s, Step(s).state);
  }

  /** Once an iteration has stopped, more fuel changes nothing. */
  lemma {:induction false} IterateStable(step: State --> StepResult, s: State, n: nat, m: nat)
    requires Preserves(step) && WellFormed(s) && n <= m
    requires Iterate(step, s, n).status != OutOfFuel
    ensures Iterate(step, s, m) == Iterate(step, s, n)
    decreases n
  {
    if step(s).status == Continue {
      IterateStable(step, step(s).state, n - 1, m - 1);
    }
  }

  /**
   * n + m steps that have not stopped after n are the first n steps followed
   * by m steps from where they left off.
   */
  lemma {:induction false} IterateSplit(step: State --> StepResult, s: State, n: nat, m: nat)
    requires Preserves(step) && WellFormed(s)
    requires Iterate(step, s, n).status == OutOfFuel
    ensures Iterate(step, s, n + m) == Prefix(Iterate(step, s, n).out, Iterate(step, Iterate(step, s, n).state, m))
    decreases n
  {
    if n > 0 {
      var r := step(s);
      var r1 := Iterate(step, r.state, n - 1);
      IterateSplit(step, r.state, n - 1, m);
      var r2 := Iterate(step, r1.state, m);
      assert (n - 1) + m == n + m - 1;
      assert r.out + (r1.out + r2.out) == (r.out + r1.out) + r2.out;
    }
  }

  /** Once a run has stopped (halted, faulted, ...), a larger budget gives the same result. */
  lemma RunStable(s: State, n: nat, m: nat)
    requires WellFormed(s) && n <= m
    requires Run(s, n).status != OutOfFuel
    ensures Run(s, m) == Run(s, n)
  {
    IterateStable(Step, s, n, m);
  }

  /** A run that has used up its budget can be resumed: n + m steps are n steps, then m more. */
  lemma RunSplit(s: State, n: nat, m: nat)
    requires WellFormed(s)
    requires Run(s, n).status == OutOfFuel
    ensures Run(s, n + m) == Prefix(Run(s, n).out, Run(Run(s, n).state, m))
  {
    IterateSplit(Step, s, n, m);
  }

  /** Every printed value comes from a step that continued: a stopped step prints nothing. */
  lemma StopsPrintNothing(s: State)
    requires WellFormed(s)
    ensures Step(s).status != Continue ==> Step(s).out == []
  {
  }
}
