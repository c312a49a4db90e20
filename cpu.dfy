/** The CPU class of cpu.py: memory and registers are arrays updated in
    place, pc, flags, the running flag and the printed output are fields.
    Every instruction method, and Alu, Load, Execute, Step and Run, is
    proved to leave the machine in the state, and report the fault, that
    module Semantics gives for the same operation; RamRead and RamWrite
    state directly which cell they read or write. */
module Cpu {
  import opened Isa
  import Semantics

  class Machine {
    const ram: array<int>
    const reg: array<int>
    var pc: int
    var fl: int
    var running: bool
    /** What PRN has printed, oldest first. */
    var output: seq<int>

    /** 256 cells of memory and 8 registers, in two distinct arrays. */
    ghost predicate Valid()
      reads this
    {
      ram.Length == Semantics.RamSize && reg.Length == Semantics.NumRegisters && ram != reg
    }

    /** The machine's state as a value. */
    ghost function Model(): (s: Semantics.State)
      reads this, ram, reg
      requires Valid()
      ensures Semantics.WellFormed(s)
    {
      Semantics.State(ram[..], reg[..], pc, fl, running, output)
    }

    /** Memory and registers are all 0, so is the flags byte (and the stack
        pointer, register 7); pc is 0 and the machine is running. */
    constructor ()
      ensures Valid() && fresh(ram) && fresh(reg)
      ensures Model() == Semantics.Initial()
    {
      ram := new int[Semantics.RamSize](_ => 0);
      reg := new int[Semantics.NumRegisters](_ => 0);
      pc, fl, running, output := 0, 0, true, [];
      new;
      assert ram[..] == Semantics.Initial().ram;
      assert reg[..] == Semantics.Initial().reg;
    }

    /** Places an already parsed program in memory from address 0 on; a
        write past the last cell faults. */
    method Load(program: seq<int>) returns (fault: Option<Fault>)
      requires Valid()
      modifies ram
      ensures Valid()
      ensures Semantics.Outcome(Model(), fault) == Semantics.Load(old(Model()), program)
    {
      ghost var spec := Semantics.Load(old(Model()), program);
      var address := 0;
      while address < |program|
        invariant 0 <= address <= |program| && address <= Semantics.RamSize
        invariant forall k :: 0 <= k < address ==> ram[k] == program[k]
        invariant forall k :: address <= k < Semantics.RamSize ==> ram[k] == old(ram[k])
      {
        if address >= Semantics.RamSize {
          fault := Some(RamOutOfBounds(address));
          break;
        }
        ram[address] := program[address];
        address := address + 1;
      }
      if address == |program| {
        fault := None;
      }
      assert forall k :: 0 <= k < Semantics.RamSize ==> ram[..][k] == spec.state.ram[k];
      assert ram[..] == spec.state.ram;
    }

    /** The value at an address of memory, or the fault for an address
        outside it. */
    method RamRead(address: int) returns (r: Result<int>)
      requires Valid()
      ensures r.Read? <==> Semantics.IsAddress(address)
      ensures r.Read? ==> r.value == ram[address]
      ensures r.Failed? ==> r.fault == RamOutOfBounds(address)
    {
      if !Semantics.IsAddress(address) {
        return Failed(RamOutOfBounds(address));
      }
      r := Read(ram[address]);
    }

    /** Writes one cell of memory, or faults for an address outside it and
        writes nothing. */
    method RamWrite(address: int, value: int) returns (fault: Option<Fault>)
      requires Valid()
      modifies ram
      ensures fault.None? <==> Semantics.IsAddress(address)
      ensures fault.Some? ==> fault.value == RamOutOfBounds(address) && ram[..] == old(ram[..])
      ensures fault.None? ==> ram[..] == old(ram[..])[address := value]
    {
      if !Semantics.IsAddress(address) {
        return Some(RamOutOfBounds(address));
      }
      ram[address] := value;
      fault := None;
    }

    method Alu(op: string, a: int, b: int) returns (fault: Option<Fault>)
      requires Valid()
      modifies this, reg
      ensures Valid()
      ensures Semantics.Outcome(Model(), fault) == Semantics.Alu(old(Model()), op, a, b)
    {
      if op == "ADD" || op == "MUL" || op == "CMP" {
        if !Semantics.IsRegister(a) {
          return Some(RegisterOutOfBounds(a));
        }
        if !Semantics.IsRegister(b) {
          return Some(RegisterOutOfBounds(b));
        }
        if op == "ADD" {
          reg[a] := reg[a] + reg[b];
        } else if op == "MUL" {
          reg[a] := reg[a] * reg[b];
        } else if reg[a] < reg[b] {
          fl := Semantics.FlagLess;
        } else if reg[a] > reg[b] {
          fl := Semantics.FlagGreater;
        } else {
          fl := Semantics.FlagEqual;
        }
        fault := None;
      } else {
        fault := Some(UnsupportedOperation(op));
      }
    }

    method Ldi(a: int, b: int) returns (fault: Option<Fault>)
      requires Valid()
      modifies this, reg
      ensures Valid()
      ensures Semantics.Outcome(Model(), fault) == Semantics.Ldi(old(Model()), a, b)
    {
      if !Semantics.IsRegister(a) {
        return Some(RegisterOutOfBounds(a));
      }
      reg[a] := b;
      pc := pc + 3;
      fault := None;
    }

    method Prn(a: int) returns (fault: Option<Fault>)
      requires Valid()
      modifies this
      ensures Valid()
      ensures Semantics.Outcome(Model(), fault) == Semantics.Prn(old(Model()), a)
    {
      if !Semantics.IsRegister(a) {
        return Some(RegisterOutOfBounds(a));
      }
      output := output + [reg[a]];
      pc := pc + 2;
      fault := None;
    }

    method Hlt() returns (fault: Option<Fault>)
      requires Valid()
      modifies this
      ensures Valid()
      ensures Semantics.Outcome(Model(), fault) == Semantics.Hlt(old(Model()))
    {
      running := false;
      fault := None;
    }

    method Call(a: int) returns (fault: Option<Fault>)
      requires Valid()
      modifies this, ram, reg
      ensures Valid()
      ensures Semantics.Outcome(Model(), fault) == Semantics.Call(old(Model()), a)
    {
      var returnAddress := pc + 2;
      reg[Semantics.SP] := reg[Semantics.SP] - 1;
      fault := RamWrite(reg[Semantics.SP], returnAddress);
      if fault.Some? {
        return;
      }
      if !Semantics.IsRegister(a) {
        return Some(RegisterOutOfBounds(a));
      }
      pc := reg[a];
    }

    method Mul(a: int, b: int) returns (fault: Option<Fault>)
      requires Valid()
      modifies this, reg
      ensures Valid()
      ensures Semantics.Outcome(Model(), fault) == Semantics.Mul(old(Model()), a, b)
    {
      fault := Alu("MUL", a, b);
      if fault.None? {
        pc := pc + 3;
      }
    }

    method Jmp(a: int) returns (fault: Option<Fault>)
      requires Valid()
      modifies this
      ensures Valid()
      ensures Semantics.Outcome(Model(), fault) == Semantics.Jmp(old(Model()), a)
    {
      if !Semantics.IsRegister(a) {
        return Some(RegisterOutOfBounds(a));
      }
      pc := reg[a];
      fault := None;
    }

    method Jeq(a: int) returns (fault: Option<Fault>)
      requires Valid()
      modifies this
      ensures Valid()
      ensures Semantics.Outcome(Model(), fault) == Semantics.Jeq(old(Model()), a)
    {
      if fl == Semantics.FlagEqual {
        fault := Jmp(a);
      } else {
        pc := pc + 2;
        fault := None;
      }
    }

    method Jne(a: int) returns (fault: Option<Fault>)
      requires Valid()
      modifies this
      ensures Valid()
      ensures Semantics.Outcome(Model(), fault) == Semantics.Jne(old(Model()), a)
    {
      if fl != Semantics.FlagEqual {
        fault := Jmp(a);
      } else {
        pc := pc + 2;
        fault := None;
      }
    }

    method Cmp(a: int, b: int) returns (fault: Option<Fault>)
      requires Valid()
      modifies this, reg
      ensures Valid()
      ensures Semantics.Outcome(Model(), fault) == Semantics.Cmp(old(Model()), a, b)
    {
      fault := Alu("CMP", a, b);
      if fault.None? {
        pc := pc + 3;
      }
    }

    /** Calls the dispatch table's entry for an instruction. */
    method Execute(ins: Instr, a: int, b: int) returns (fault: Option<Fault>)
      requires Valid()
      modifies this, ram, reg
      ensures Valid()
      ensures Semantics.Outcome(Model(), fault) == Semantics.Execute(old(Model()), ins, a, b)
    {
      match ins
      case Ldi => fault := Ldi(a, b);
      case Prn => fault := Prn(a);
      case Hlt => fault := Hlt();
      case Mul => fault := Mul(a, b);
      case Call => fault := Call(a);
      case Cmp => fault := Cmp(a, b);
      case Jmp => fault := Jmp(a);
      case Jeq => fault := Jeq(a);
      case Jne => fault := Jne(a);
    }

    /** One pass of the run loop: fetch the opcode and both operand bytes,
        look the opcode up, execute it. */
    method Step() returns (fault: Option<Fault>)
      requires Valid()
      modifies this, ram, reg
      ensures Valid()
      ensures Semantics.Outcome(Model(), fault) == Semantics.Step(old(Model()))
    {
      var ir := RamRead(pc);
      if ir.Failed? {
        return Some(ir.fault);
      }
      var operandA := RamRead(pc + 1);
      if operandA.Failed? {
        return Some(operandA.fault);
      }
      var operandB := RamRead(pc + 2);
      if operandB.Failed? {
        return Some(operandB.fault);
      }
      var ins := Decode(ir.value);
      if ins.None? {
        return Some(UnknownInstruction(ir.value));
      }
      fault := Execute(ins.value, operandA.value, operandB.value);
    }

    /** The run loop, for at most `fuel` passes: it goes on while the
        machine is running and stops at the first fault. */
    method Run(fuel: nat) returns (fault: Option<Fault>)
      requires Valid()
      modifies this, ram, reg
      ensures Valid()
      ensures Semantics.Outcome(Model(), fault) == Semantics.Run(old(Model()), fuel)
    {
      var steps := 0;
      fault := None;
      while running && steps < fuel
        invariant Valid()
        invariant 0 <= steps <= fuel
        invariant fault.None?
        invariant Semantics.Run(old(Model()), fuel) == Semantics.Run(Model(), fuel - steps)
        decreases fuel - steps
      {
        fault := Step();
        if fault.Some? {
          return;
        }
        steps := steps + 1;
      }
    }
  }
}
