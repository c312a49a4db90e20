/** What the instructions, the ALU, one step and the run loop of cpu.py
    promise, proved about the functions of module Semantics. */
module Properties {
  import opened Isa
  import opened Semantics

  /** Nothing but a given register differs between two register files. */
  predicate OthersUnchanged(r: seq<int>, r': seq<int>, a: int)
    requires |r| == |r'| == NumRegisters
  {
    forall i :: 0 <= i < NumRegisters && i != a ==> r'[i] == r[i]
  }

  // ----- Instructions -----

  /** LDI a b sets register a to b, moves pc on by 3 and changes nothing
      else; with a register index out of range it faults and changes
      nothing. */
  lemma LdiLoadsRegister(s: State, a: int, b: int)
    requires WellFormed(s)
    ensures var o := Semantics.Ldi(s, a, b);
      (o.fault.None? <==> IsRegister(a)) &&
      (IsRegister(a) ==>
        o.state.reg[a] == b && OthersUnchanged(s.reg, o.state.reg, a) &&
        o.state.pc == s.pc + 3 &&
        o.state.ram == s.ram && o.state.fl == s.fl &&
        o.state.running == s.running && o.state.output == s.output) &&
      (!IsRegister(a) ==> o == Faulted(s, RegisterOutOfBounds(a)))
  {
  }

  /** PRN a appends register a to the output, moves pc on by exactly 2 and
      leaves registers, memory and flags as they were. */
  lemma PrnPrintsRegister(s: State, a: int)
    requires WellFormed(s)
    ensures var o := Semantics.Prn(s, a);
      (o.fault.None? <==> IsRegister(a)) &&
      (IsRegister(a) ==>
        o.state.output == s.output + [s.reg[a]] &&
        o.state.pc == s.pc + 2 &&
        o.state.reg == s.reg && o.state.ram == s.ram &&
        o.state.fl == s.fl && o.state.running == s.running) &&
      (!IsRegister(a) ==> o == Faulted(s, RegisterOutOfBounds(a)))
  {
  }

  /** HLT clears the running flag and changes nothing else, pc included;
      the run loop then makes no further step, however much fuel it has. */
  lemma HltStopsTheLoop(s: State, fuel: nat)
    requires WellFormed(s)
    ensures Semantics.Hlt(s) == Done(s.(running := false))
    ensures Run(Semantics.Hlt(s).state, fuel) == Semantics.Hlt(s)
  {
  }

  /** MUL a b multiplies register a by register b, without wrap-around,
      moves pc on by 3 and changes no other register, nor memory or flags. */
  lemma MulMultiplies(s: State, a: int, b: int)
    requires WellFormed(s)
    ensures var o := Semantics.Mul(s, a, b);
      (o.fault.None? <==> IsRegister(a) && IsRegister(b)) &&
      (IsRegister(a) && IsRegister(b) ==>
        o.state.reg[a] == s.reg[a] * s.reg[b] &&
        OthersUnchanged(s.reg, o.state.reg, a) &&
        (b != a ==> o.state.reg[b] == s.reg[b]) &&
        o.state.pc == s.pc + 3 &&
        o.state.ram == s.ram && o.state.fl == s.fl) &&
      (o.fault.Some? ==> o.state == s)
  {
  }

  /** CMP a b sets the flags to exactly one of 4, 2 and 1 as register a is
      less than, greater than or equal to register b, changes no register
      and moves pc on by 3. */
  lemma CmpComparesRegisters(s: State, a: int, b: int)
    requires WellFormed(s)
    ensures var o := Semantics.Cmp(s, a, b);
      (o.fault.None? <==> IsRegister(a) && IsRegister(b)) &&
      (IsRegister(a) && IsRegister(b) ==>
        (o.state.fl == FlagLess <==> s.reg[a] < s.reg[b]) &&
        (o.state.fl == FlagGreater <==> s.reg[a] > s.reg[b]) &&
        (o.state.fl == FlagEqual <==> s.reg[a] == s.reg[b]) &&
        o.state.fl in {FlagLess, FlagGreater, FlagEqual} &&
        o.state.reg == s.reg && o.state.ram == s.ram &&
        o.state.pc == s.pc + 3) &&
      (o.fault.Some? ==> o.state == s)
  {
  }

  /** JMP a sets pc to register a and changes nothing else. */
  lemma JmpJumps(s: State, a: int)
    requires WellFormed(s)
    ensures IsRegister(a) ==> Semantics.Jmp(s, a) == Done(s.(pc := s.reg[a]))
    ensures !IsRegister(a) ==> Semantics.Jmp(s, a) == Faulted(s, RegisterOutOfBounds(a))
  {
  }

  /** Whatever the flags, exactly one of JEQ and JNE jumps and the other
      moves pc on by 2; the one that does not jump never reads register a,
      so it cannot fault. */
  lemma ExactlyOneConditionalJumps(s: State, a: int)
    requires WellFormed(s)
    ensures s.fl == FlagEqual ==> Semantics.Jeq(s, a) == Semantics.Jmp(s, a) && Semantics.Jne(s, a) == FallThrough(s)
    ensures s.fl != FlagEqual ==> Semantics.Jne(s, a) == Semantics.Jmp(s, a) && Semantics.Jeq(s, a) == FallThrough(s)
    ensures FallThrough(s) == Done(s.(pc := s.pc + 2))
  {
  }

  /** With the flags the constructor sets, before any CMP, JEQ never jumps
      and JNE always does. */
  lemma InitialFlagsNeverEqual(s: State, a: int)
    requires WellFormed(s)
    requires s.fl == Initial().fl
    ensures Semantics.Jeq(s, a) == Done(s.(pc := s.pc + 2))
    ensures Semantics.Jne(s, a) == Semantics.Jmp(s, a)
  {
  }

  /** CALL a with the stack pointer at sp > 0 and a in range: the stack
      pointer goes down by exactly 1, the cell it now points at holds the
      return address pc + 2, pc becomes register a read after the decrement,
      and no other register or cell changes. */
  lemma CallPushesReturnAddress(s: State, a: int)
    requires WellFormed(s)
    requires IsAddress(s.reg[SP] - 1) && IsRegister(a)
    ensures var o := Semantics.Call(s, a);
      o.fault.None? &&
      o.state.reg[SP] == s.reg[SP] - 1 &&
      o.state.ram[o.state.reg[SP]] == s.pc + 2 &&
      o.state.pc == (if a == SP then s.reg[SP] - 1 else s.reg[a]) &&
      OthersUnchanged(s.reg, o.state.reg, SP) &&
      (forall k :: IsAddress(k) && k != o.state.reg[SP] ==> o.state.ram[k] == s.ram[k]) &&
      o.state.fl == s.fl && o.state.running == s.running
  {
  }

  /** CALL with a stack pointer that would leave memory faults after the
      decrement, which it keeps; nothing else changes. The constructor
      starts the stack pointer at 0, so a CALL before it is set faults at
      address -1. */
  lemma CallStackFault(s: State, a: int)
    requires WellFormed(s)
    requires !IsAddress(s.reg[SP] - 1)
    ensures Semantics.Call(s, a) ==
      Faulted(s.(reg := s.reg[SP := s.reg[SP] - 1]), RamOutOfBounds(s.reg[SP] - 1))
    ensures Initial().reg[SP] == 0
  {
  }

  /** CALL with the register index out of range faults after both the
      decrement and the push have taken effect, and before pc changes. */
  lemma CallRegisterFault(s: State, a: int)
    requires WellFormed(s)
    requires IsAddress(s.reg[SP] - 1) && !IsRegister(a)
    ensures var o := Semantics.Call(s, a);
      o.fault == Some(RegisterOutOfBounds(a)) &&
      o.state.pc == s.pc &&
      o.state.reg == s.reg[SP := s.reg[SP] - 1] &&
      o.state.ram == s.ram[s.reg[SP] - 1 := s.pc + 2]
  {
  }

  // ----- ALU -----

  /** "ADD" adds register b to register a, without wrap-around, and changes
      nothing else; a register index out of range faults and changes
      nothing. */
  lemma AluAdds(s: State, a: int, b: int)
    requires WellFormed(s)
    ensures var o := Alu(s, "ADD", a, b);
      (o.fault.None? <==> IsRegister(a) && IsRegister(b)) &&
      (IsRegister(a) && IsRegister(b) ==>
        o.state.reg[a] == s.reg[a] + s.reg[b] &&
        OthersUnchanged(s.reg, o.state.reg, a) &&
        o.state.fl == s.fl && o.state.pc == s.pc) &&
      (!IsRegister(a) ==> o == Faulted(s, RegisterOutOfBounds(a))) &&
      (IsRegister(a) && !IsRegister(b) ==> o == Faulted(s, RegisterOutOfBounds(b))) &&
      (o.fault.Some? ==> o.state == s)
  {
  }

  /** Exactly the names other than "ADD", "MUL" and "CMP" raise the
      unsupported-operation fault, and that fault changes nothing. */
  lemma AluRejectsUnknownOperation(s: State, op: string, a: int, b: int)
    requires WellFormed(s)
    ensures op !in {"ADD", "MUL", "CMP"} <==>
      Alu(s, op, a, b) == Faulted(s, UnsupportedOperation(op))
  {
  }

  // ----- One step -----

  /** A pc whose window pc, pc + 1, pc + 2 leaves memory faults at the first
      address outside it, before anything changes. */
  lemma StepFetchFault(s: State)
    requires WellFormed(s)
    requires !(0 <= s.pc && s.pc + 2 < RamSize)
    ensures Step(s).state == s
    ensures Step(s).fault == Some(RamOutOfBounds(
      if s.pc < 0 || s.pc >= RamSize then s.pc
      else if s.pc + 1 >= RamSize then s.pc + 1
      else s.pc + 2))
  {
  }

  /** Inside memory, a step takes its opcode from ram[pc] and its operands
      from ram[pc + 1] and ram[pc + 2]; an opcode the table does not hold
      faults before anything changes. */
  lemma StepDecodesWindow(s: State)
    requires WellFormed(s)
    requires 0 <= s.pc && s.pc + 2 < RamSize
    ensures s.ram[s.pc] !in OpCodes ==>
      Step(s) == Faulted(s, UnknownInstruction(s.ram[s.pc]))
    ensures forall ins :: OpCode(ins) == s.ram[s.pc] ==>
      Step(s) == Execute(s, ins, s.ram[s.pc + 1], s.ram[s.pc + 2])
  {
  }

  // ----- The run loop -----

  /** Going on for n more passes from where a run left off: a fault is
      final. */
  function Resume(o: Outcome, n: nat): (r: Outcome)
    requires WellFormed(o.state)
  {
    if o.fault.Some? then o else Run(o.state, n)
  }

  /** Running m + n passes is running m passes and then n more. */
  lemma {:induction false} RunSplit(s: State, m: nat, n: nat)
    requires WellFormed(s)
    ensures Run(s, m + n) == Resume(Run(s, m), n)
    decreases m
  {
    if s.running && m > 0 {
      var o := Step(s);
      if o.fault.None? {
        assert Run(s, m + n) == Run(o.state, (m - 1) + n);
        assert Run(s, m) == Run(o.state, m - 1);
        RunSplit(o.state, m - 1, n);
      }
    }
  }

  /** Once a run has faulted or cleared the running flag, more fuel changes
      nothing: the loop goes on exactly while the flag is set. */
  lemma RunFinal(s: State, fuel: nat, extra: nat)
    requires WellFormed(s)
    requires Run(s, fuel).fault.Some? || !Run(s, fuel).state.running
    ensures Run(s, fuel + extra) == Run(s, fuel)
  {
    RunSplit(s, fuel, extra);
  }

  /** A run that stopped without a fault and with the flag still set only ran
      out of fuel: one more pass is the step from where it stopped. */
  lemma RunContinues(s: State, fuel: nat)
    requires WellFormed(s)
    requires Run(s, fuel).fault.None? && Run(s, fuel).state.running
    ensures Run(s, fuel + 1) == Step(Run(s, fuel).state)
  {
    RunSplit(s, fuel, 1);
  }

  /** LDI a v followed by PRN a prints v. */
  lemma LdiThenPrn(s: State, a: int, v: int, c: int)
    requires WellFormed(s) && s.running
    requires 0 <= s.pc && s.pc + 5 < RamSize && IsRegister(a)
    requires s.ram[s.pc] == LDI && s.ram[s.pc + 1] == a && s.ram[s.pc + 2] == v
    requires s.ram[s.pc + 3] == PRN && s.ram[s.pc + 4] == a && s.ram[s.pc + 5] == c
    ensures Run(s, 2).fault.None?
    ensures Run(s, 2).state.output == s.output + [v]
    ensures Run(s, 2).state.pc == s.pc + 5
  {
  }

  /** LDI R0,8; LDI R1,9; MUL R0,R1; PRN R0; HLT. */
  const MultiplyProgram: seq<int> := [LDI, 0, 8, LDI, 1, 9, MUL, 0, 1, PRN, 0, HLT]

  /** The program above, loaded into a new machine, prints 72 and halts
      after five steps, and any further fuel changes nothing. */
  lemma MultiplyProgramPrints72(fuel: nat)
    requires fuel >= 5
    ensures var s := Load(Initial(), MultiplyProgram).state;
      Load(Initial(), MultiplyProgram).fault.None? &&
      Run(s, fuel).fault.None? &&
      Run(s, fuel).state.output == [72] &&
      !Run(s, fuel).state.running
  {
    var s0 := Load(Initial(), MultiplyProgram).state;
    assert s0.ram[..12] == MultiplyProgram;
    var s1 := s0.(reg := s0.reg[0 := 8], pc := 3);
    var s2 := s1.(reg := s1.reg[1 := 9], pc := 6);
    var s3 := s2.(reg := s2.reg[0 := 72], pc := 9);
    var s4 := s3.(output := [72], pc := 11);
    var s5 := s4.(running := false);
    assert Step(s0) == Done(s1) by { StepDecodesWindow(s0); }
    assert Step(s1) == Done(s2) by { StepDecodesWindow(s1); }
    assert Step(s2) == Done(s3) by { StepDecodesWindow(s2); }
    assert Step(s3) == Done(s4) by { StepDecodesWindow(s3); }
    assert Step(s4) == Done(s5) by { StepDecodesWindow(s4); }
    assert Run(s0, 5) == Done(s5) by {
      assert Run(s4, 1) == Run(s5, 0);
      assert Run(s3, 2) == Run(s4, 1);
      assert Run(s2, 3) == Run(s3, 2);
      assert Run(s1, 4) == Run(s2, 3);
      assert Run(s0, 5) == Run(s1, 4);
    }
    RunFinal(s0, 5, fuel - 5);
  }
}
