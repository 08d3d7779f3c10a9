/**
 * The `CPU` object: eight registers and 256 RAM cells updated in place, the
 * program counter and the comparison flag. Each method is proved to do what
 * the value-level definitions in module Machine say.
 */
module Cpu {
  import opened Machine

  class CPU {
    const reg: array<int>
    const ram: array<int>
    var pc: int
    var flag: int

    ghost predicate Valid()
      reads this
    {
      reg.Length == RegCount && ram.Length == RamSize && reg != ram
    }

    /** The machine state this object holds. */
    ghost function State(): (s: Machine.State)
      reads this, reg, ram
      requires Valid()
      ensures WellFormed(s)
    {
      Machine.State(reg[..], ram[..], pc, flag)
    }

    constructor ()
      ensures Valid() && fresh(reg) && fresh(ram)
      ensures State() == Init()
    {
      reg := new int[RegCount](_ => 0);
      ram := new int[RamSize](_ => 0);
      pc := 0;
      flag := 0;
      new;
      assert reg[..] == Init().reg;
      assert ram[..] == Init().ram;
    }

    /**
     * The copy loop at the end of `load`: image[k] goes to ram[k], the rest of
     * RAM keeps its contents. The image is a parameter instead of a file.
     */
    method Load(image: seq<int>)
      requires Valid() && |image| <= RamSize
      modifies ram
      ensures forall k :: 0 <= k < |image| ==> ram[k] == image[k]
      ensures forall k :: |image| <= k < RamSize ==> ram[k] == old(ram[k])
    {
      for address := 0 to |image|
        invariant forall k :: 0 <= k < address ==> ram[k] == image[k]
        invariant forall k :: address <= k < RamSize ==> ram[k] == old(ram[k])
      {
        ram[address] := image[address];
      }
    }

    /** `ram_read`: the cell at `address`, None where Python raises IndexError. */
    function RamRead(address: int): (v: Option<int>)
      reads this, ram
      requires Valid()
      ensures v.Some? <==> -RamSize <= address < RamSize
      ensures 0 <= address < RamSize ==> v == Some(ram[address])
      ensures -RamSize <= address < 0 ==> v == Some(ram[RamSize + address])
    {
      match RamSlot(address)
      case Some(k) => Some(ram[k])
      case None => None
    }

    /** `ram_write(value, address)`: `ok` is false where Python raises IndexError. */
    method RamWrite(value: int, address: int) returns (ok: bool)
      requires Valid()
      modifies ram
      ensures ok <==> -RamSize <= address < RamSize
      ensures ok ==> Machine.RamWrite(old(State()), value, address) == Some(State())
      ensures !ok ==> unchanged(ram)
    {
      var k := RamSlot(address);
      if k.None? {
        return false;
      }
      ram[k.value] := value;
      return true;
    }

    /** `alu(op, reg_a, reg_b)`: `error` is the exception it raises, if any. */
    method Alu(op: string, a: int, b: int) returns (error: Option<AluError>)
      requires Valid()
      modifies this, reg
      ensures Valid()
      ensures Machine.Alu(old(State()), op, a, b) ==
        if error.None? then AluOk(State()) else AluErr(error.value)
      ensures error.Some? ==> State() == old(State())
    {
      if op !in AluOps {
        return Some(UnsupportedOperation);
      }
      var i, j := RegSlot(a), RegSlot(b);
      if i.None? || j.None? {
        return Some(IndexError);
      }
      if op == "ADD" {
        reg[i.value] := reg[i.value] + reg[j.value];
      } else if op == "SUB" {
        reg[i.value] := reg[i.value] - reg[j.value];
      } else if op == "MUL" {
        reg[i.value] := reg[i.value] * reg[j.value];
      } else if reg[i.value] == reg[j.value] {
        flag := FlagEqual;
      } else if reg[i.value] > reg[j.value] {
        flag := FlagGreater;
      } else {
        flag := FlagLess;
      }
      return None;
    }

    /** PUSH: decrement SP, then store the operand register at the new SP. */
    method Push(a: int) returns (out: seq<int>, status: Status)
      requires Valid()
      modifies reg, ram, this
      ensures Valid()
      ensures Machine.Push(old(State()), a) == StepResult(State(), out, status)
    {
      out, status := [], Continue;
      reg[SP] := reg[SP] - 1;
      var i := RegSlot(a);
      if i.None? {
        return [], Fault;
      }
      var ok := RamWrite(reg[i.value], reg[SP]);
      if !ok {
        return [], Fault;
      }
      pc := pc + 2;
    }

    /** POP: load the operand register from SP, then increment SP. */
    method Pop(a: int) returns (out: seq<int>, status: Status)
      requires Valid()
      modifies reg, this
      ensures Valid()
      ensures Machine.Pop(old(State()), a) == StepResult(State(), out, status)
    {
      out, status := [], Continue;
      var value := RamRead(reg[SP]);
      var i := RegSlot(a);
      if value.None? || i.None? {
        return [], Fault;
      }
      reg[i.value] := value.value;
      reg[SP] := reg[SP] + 1;
      pc := pc + 2;
    }

    /** CALL: push the return address pc + 2, then jump to the operand register. */
    method Call(a: int) returns (out: seq<int>, status: Status)
      requires Valid()
      modifies reg, ram, this
      ensures Valid()
      ensures Machine.Call(old(State()), a) == StepResult(State(), out, status)
    {
      out, status := [], Continue;
      reg[SP] := reg[SP] - 1;
      var ok := RamWrite(pc + 2, reg[SP]);
      var i := RegSlot(a);
      if !ok || i.None? {
        return [], Fault;
      }
      pc := reg[i.value];
    }

    /** RET: jump to the address at SP, then increment SP. */
    method Ret() returns (out: seq<int>, status: Status)
      requires Valid()
      modifies reg, this
      ensures Valid()
      ensures Machine.Ret(old(State())) == StepResult(State(), out, status)
    {
      out, status := [], Continue;
      var target := RamRead(reg[SP]);
      if target.None? {
        return [], Fault;
      }
      pc := target.value;
      reg[SP] := reg[SP] + 1;
    }

    /** HLT: step past the opcode, then leave the loop. */
    method Halt() returns (out: seq<int>, status: Status)
      requires Valid()
      modifies this
      ensures Valid()
      ensures Machine.Halt(old(State())) == StepResult(State(), out, status)
    {
      pc := pc + 1;
      return [], Halted;
    }

    /** MUL: print the product of the two operand registers. */
    method Mul(a: int, b: int) returns (out: seq<int>, status: Status)
      requires Valid()
      modifies this
      ensures Valid()
      ensures Machine.Mul(old(State()), a, b) == StepResult(State(), out, status)
    {
      var i, j := RegSlot(a), RegSlot(b);
      if i.None? || j.None? {
        return [], Fault;
      }
      out := [reg[i.value] * reg[j.value]];
      pc := pc + 3;
      status := Continue;
    }

    /** PRN: print the operand register. */
    method Prn(a: int) returns (out: seq<int>, status: Status)
      requires Valid()
      modifies this
      ensures Valid()
      ensures Machine.Prn(old(State()), a) == StepResult(State(), out, status)
    {
      var i := RegSlot(a);
      if i.None? {
        return [], Fault;
      }
      out := [reg[i.value]];
      pc := pc + 2;
      status := Continue;
    }

    /** LDI: store the immediate `b` in the operand register. */
    method Ldi(a: int, b: int) returns (out: seq<int>, status: Status)
      requires Valid()
      modifies this, reg
      ensures Valid()
      ensures Machine.Ldi(old(State()), a, b) == StepResult(State(), out, status)
    {
      var i := RegSlot(a);
      if i.None? {
        return [], Fault;
      }
      reg[i.value] := b;
      pc := pc + 3;
      return [], Continue;
    }

    /** ADD: store the sum of the two operand registers in the first. */
    method Add(a: int, b: int) returns (out: seq<int>, status: Status)
      requires Valid()
      modifies this, reg
      ensures Valid()
      ensures Machine.Add(old(State()), a, b) == StepResult(State(), out, status)
    {
      var i, j := RegSlot(a), RegSlot(b);
      if i.None? || j.None? {
        return [], Fault;
      }
      reg[i.value] := reg[i.value] + reg[j.value];
      pc := pc + 3;
      return [], Continue;
    }

    /** CMP: let the ALU set the flag, then step past the instruction. */
    method Cmp(a: int, b: int) returns (out: seq<int>, status: Status)
      requires Valid()
      modifies this, reg
      ensures Valid()
      ensures Machine.Cmp(old(State()), a, b) == StepResult(State(), out, status)
    {
      var error := Alu("CMP", a, b);
      if error.Some? {
        return [], Fault;
      }
      pc := pc + 3;
      return [], Continue;
    }

    /** JMP: the target register is only compared with pc, then the loop is left. */
    method Jmp(a: int) returns (out: seq<int>, status: Status)
      requires Valid()
      ensures Machine.Jmp(State(), a) == StepResult(State(), out, status)
    {
      if RegSlot(a).None? {
        return [], Fault;
      }
      return [], JmpExit;
    }

    /** JEQ (`jumpIfSet`) and JNE (not `jumpIfSet`): jump if bit 0 of the flag says so. */
    method Branch(jumpIfSet: bool, a: int) returns (out: seq<int>, status: Status)
      requires Valid()
      modifies this
      ensures Valid()
      ensures Machine.Branch(old(State()), jumpIfSet, a) == StepResult(State(), out, status)
    {
      out, status := [], Continue;
      if (flag % 2 == 1) == jumpIfSet {
        var i := RegSlot(a);
        if i.None? {
          return [], Fault;
        }
        pc := reg[i.value];
      } else {
        pc := pc + 2;
      }
    }

    /** One iteration of the loop in `run`: fetch, decode and execute one instruction. */
    method Step() returns (out: seq<int>, status: Status)
      requires Valid()
      modifies this, reg, ram
      ensures Valid()
      ensures Machine.Step(old(State())) == StepResult(State(), out, status)
    {
      var instruction := RamRead(pc);
      var regA := RamRead(pc + 1);
      var regB := RamRead(pc + 2);
      if instruction.None? || regA.None? || regB.None? {
        return [], Fault;
      }
      var op, a, b := instruction.value, regA.value, regB.value;
      if op == HLT {
        out, status := Halt();
      } else if op == MUL {
        out, status := Mul(a, b);
      } else if op == PRN {
        out, status := Prn(a);
      } else if op == LDI {
        out, status := Ldi(a, b);
      } else if op == PUSH {
        out, status := Push(a);
      } else if op == POP {
        out, status := Pop(a);
      } else if op == ADD {
        out, status := Add(a, b);
      } else if op == CALL {
        out, status := Call(a);
      } else if op == RET {
        out, status := Ret();
      } else if op == CMP {
        out, status := Cmp(a, b);
      } else if op == JMP {
        out, status := Jmp(a);
      } else if op == JEQ {
        out, status := Branch(true, a);
      } else if op == JNE {
        out, status := Branch(false, a);
      } else {
        out, status := [], InvalidOpcode(op);
      }
    }

    /** One pass of the loop in `run`, with the run's bookkeeping. */
    method Advance(ghost start: Machine.State, fuel: nat, out: seq<int>, left: nat)
      returns (out': seq<int>, status: Status, left': nat)
      requires Valid() && WellFormed(start) && left > 0
      requires Resumes(start, fuel, out, State(), left, Continue)
      modifies this, reg, ram
      ensures Valid()
      ensures left' == left - 1
      ensures Resumes(start, fuel, out', State(), left', status)
    {
      ghost var before := State();
      out', status := Step();
      left' := left - 1;
      RunResumes(start, fuel, out, before, left, State(), out', status);
      out' := out + out';
    }

    /**
     * `run`, stopped after at most `fuel` iterations: the printed values in
     * order and why the loop ended.
     */
    method Run(fuel: nat) returns (out: seq<int>, status: Status)
      requires Valid()
      modifies this, reg, ram
      ensures Valid()
      ensures Machine.Run(old(State()), fuel) == StepResult(State(), out, status)
    {
      ghost var start := State();
      out, status := [], Continue;
      var left := fuel;
      while status == Continue && left > 0
        invariant Valid()
        invariant Resumes(start, fuel, out, State(), left, status)
        decreases left
      {
        out, status, left := Advance(start, fuel, out, left);
      }
      if status == Continue {
        assert Machine.Run(State(), 0) == Stop(State(), OutOfFuel);
        status := OutOfFuel;
      }
    }
  }

  /**
   * A run from `start` with `fuel` iterations has printed `out`, has reached
   * `s` with `left` iterations to go, and either continues from there or has
   * ended with `status` in `s`.
   */
  ghost predicate Resumes(start: Machine.State, fuel: nat, out: seq<int>, s: Machine.State, left: nat, status: Status)
    requires WellFormed(start) && WellFormed(s)
  {
    if status == Continue then Machine.Run(start, fuel) == Prefix(out, Machine.Run(s, left))
    else Machine.Run(start, fuel) == StepResult(s, out, status)
  }

  /**
   * The bookkeeping of one loop iteration: a run that has printed `out` and
   * has `left` iterations to go from `s` goes on as the step from `s` says.
   */
  lemma RunResumes(start: Machine.State, fuel: nat, out: seq<int>, s: Machine.State, left: nat,
                   s': Machine.State, printed: seq<int>, status: Status)
    requires WellFormed(start) && WellFormed(s) && WellFormed(s') && left > 0
    requires Resumes(start, fuel, out, s, left, Continue)
    requires Machine.Step(s) == StepResult(s', printed, status)
    ensures Resumes(start, fuel, out + printed, s', left - 1, status)
  {
    RunFirstStep(s, left);
    if status == Continue {
      var rest := Machine.Run(s', left - 1);
      assert out + (printed + rest.out) == (out + printed) + rest.out;
    }
  }
}
