/**
 * Whole programs run from a fresh machine: the image built into the CPU
 * (print8: LDI R0,8; PRN R0; HLT) and small programs that show how MUL,
 * the stack, JMP and an unknown opcode behave in this interpreter.
 */
module Programs {
  import opened Machine
  import opened Properties
  import Cpu

  /** LDI R0,8; PRN R0; HLT. */
  const Print8: seq<int> := [LDI, 0, 8, PRN, 0, HLT]

  /** LDI R0,8; LDI R1,9; MUL R0,R1; PRN R0; HLT. */
  const Mult: seq<int> := [LDI, 0, 8, LDI, 1, 9, MUL, 0, 1, PRN, 0, HLT]

  /** LDI R0,5; PUSH R0; LDI R0,0; POP R0; PRN R0; HLT. */
  const Stack: seq<int> := [LDI, 0, 5, PUSH, 0, LDI, 0, 0, POP, 0, PRN, 0, HLT]

  /** LDI R1,9; JMP R1; PRN R1; HLT. */
  const Jump: seq<int> := [LDI, 1, 9, JMP, 1, PRN, 1, HLT]

  /**
   * print8 prints 8 and halts with pc just past the HLT at address 5, with
   * R0 holding 8, given a budget of at least its three instructions.
   */
  lemma Print8Runs(fuel: nat)
    requires fuel >= 3
    ensures var s := Boot(Print8);
      Run(s, fuel) == StepResult(s.(reg := s.reg[0 := 8], pc := 6), [8], Halted)
  {
    var s0 := Boot(Print8);
    var s1 := s0.(reg := s0.reg[0 := 8], pc := 3);
    var s2 := s1.(pc := 5);
    assert Step(s0) == StepResult(s1, [], Continue);
    assert Step(s1) == StepResult(s2, [8], Continue);
    assert Step(s2) == StepResult(s2.(pc := 6), [], Halted);
    RunFirstStep(s0, 3);
    RunFirstStep(s1, 2);
    RunFirstStep(s2, 1);
    RunStable(s0, 3, fuel);
  }

  /** With fewer than three iterations print8 has not finished: nothing or only part is done. */
  lemma Print8NeedsThreeSteps(fuel: nat)
    requires fuel < 3
    ensures Run(Boot(Print8), fuel).status == OutOfFuel
    ensures Run(Boot(Print8), fuel).out == (if fuel == 2 then [8] else [])
  {
    var s0 := Boot(Print8);
    var s1 := s0.(reg := s0.reg[0 := 8], pc := 3);
    assert Step(s0) == StepResult(s1, [], Continue);
    assert Step(s1) == StepResult(s1.(pc := 5), [8], Continue);
    if fuel > 0 {
      RunFirstStep(s0, fuel);
      if fuel > 1 {
        RunFirstStep(s1, fuel - 1);
      }
    }
  }

  /**
   * MUL prints 72 but leaves R0 at 8, so the PRN after it prints 8 again.
   */
  lemma MultPrintsButDoesNotStore(fuel: nat)
    requires fuel >= 5
    ensures var r := Run(Boot(Mult), fuel);
      r.out == [72, 8] && r.status == Halted && r.state.reg[0] == 8 && r.state.reg[1] == 9 && r.state.pc == 12
  {
    var s0 := Boot(Mult);
    var s1 := s0.(reg := s0.reg[0 := 8], pc := 3);
    var s2 := s1.(reg := s1.reg[1 := 9], pc := 6);
    var s3 := s2.(pc := 9);
    var s4 := s3.(pc := 11);
    assert Step(s0) == StepResult(s1, [], Continue);
    assert Step(s1) == StepResult(s2, [], Continue);
    assert Step(s2) == StepResult(s3, [72], Continue);
    assert Step(s3) == StepResult(s4, [8], Continue);
    assert Step(s4) == StepResult(s4.(pc := 12), [], Halted);
    RunFirstStep(s0, 5);
    RunFirstStep(s1, 4);
    RunFirstStep(s2, 3);
    RunFirstStep(s3, 2);
    RunFirstStep(s4, 1);
    RunStable(s0, 5, fuel);
  }

  /**
   * With SP starting at 0 the first PUSH goes to ram[-1], the last cell;
   * the POP reads it back and SP ends where it started.
   */
  lemma StackUsesLastCell(fuel: nat)
    requires fuel >= 6
    ensures var r := Run(Boot(Stack), fuel);
      && r.out == [5] && r.status == Halted && r.state.pc == 13
      && r.state.reg[0] == 5 && r.state.reg[SP] == 0 && r.state.ram[RamSize - 1] == 5
  {
    var s0 := Boot(Stack);
    var s1 := s0.(reg := s0.reg[0 := 5], pc := 3);
    var s2 := s1.(reg := s1.reg[SP := -1], ram := s1.ram[255 := 5], pc := 5);
    var s3 := s2.(reg := s2.reg[0 := 0], pc := 8);
    var s4 := s3.(reg := s3.reg[0 := 5][SP := 0], pc := 10);
    var s5 := s4.(pc := 12);
    assert Step(s0) == StepResult(s1, [], Continue);
    assert Step(s1) == StepResult(s2, [], Continue);
    assert Step(s2) == StepResult(s3, [], Continue);
    assert Step(s3) == StepResult(s4, [], Continue);
    assert Step(s4) == StepResult(s5, [5], Continue);
    assert Step(s5) == StepResult(s5.(pc := 13), [], Halted);
    RunFirstStep(s0, 6);
    RunFirstStep(s1, 5);
    RunFirstStep(s2, 4);
    RunFirstStep(s3, 3);
    RunFirstStep(s4, 2);
    RunFirstStep(s5, 1);
    RunStable(s0, 6, fuel);
  }

  /** JMP leaves the loop at the JMP itself: the PRN and HLT after it never run. */
  lemma JumpLeavesTheLoop(fuel: nat)
    requires fuel >= 2
    ensures var s := Boot(Jump);
      Run(s, fuel) == StepResult(s.(reg := s.reg[1 := 9], pc := 3), [], JmpExit)
  {
    var s0 := Boot(Jump);
    var s1 := s0.(reg := s0.reg[1 := 9], pc := 3);
    assert Step(s0) == StepResult(s1, [], Continue);
    assert Step(s1) == Stop(s1, JmpExit);
    RunFirstStep(s0, 2);
    RunFirstStep(s1, 1);
    RunStable(s0, 2, fuel);
  }

  /** A first byte outside the opcode table is reported at once, with nothing changed. */
  lemma UnknownOpcodeFirst(fuel: nat)
    requires fuel >= 1
    ensures Run(Boot([0xFF]), fuel) == Stop(Boot([0xFF]), InvalidOpcode(0xFF))
  {
    var s0 := Boot([0xFF]);
    assert Step(s0) == Stop(s0, InvalidOpcode(0xFF));
    RunFirstStep(s0, 1);
    RunStable(s0, 1, fuel);
  }

  /**
   * A fresh `CPU` object loaded with print8 and run for `fuel` iterations
   * prints 8 and halts.
   */
  method RunPrint8(fuel: nat) returns (out: seq<int>, status: Status)
    requires fuel >= 3
    ensures out == [8] && status == Halted
  {
    var cpu := new Cpu.CPU();
    cpu.Load(Print8);
    assert cpu.State() == Boot(Print8);
    out, status := cpu.Run(fuel);
    Print8Runs(fuel);
  }
}
