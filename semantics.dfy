/** The behaviour of the CPU class of cpu.py as functions on a state value:
    one function per entry of the dispatch table, the ALU, one
    fetch-decode-execute step and the run loop. The class in module Cpu is
    proved to do exactly what these functions say. */
module Semantics {
  import opened Isa

  const RamSize: int := 256
  const NumRegisters: int := 8
  /** Register 7 holds the stack pointer. */
  const SP: int := 7

  /** The values CMP leaves in the flags byte. */
  const FlagEqual: int := 0x01    // 0b00000001
  const FlagGreater: int := 0x02  // 0b00000010
  const FlagLess: int := 0x04     // 0b00000100

  /** Everything an instruction can read or change. Cells and registers
      hold unbounded integers: nothing in the source masks them to a byte.
      `output` is the sequence of values PRN has printed. */
  datatype State = State(
    ram: seq<int>,
    reg: seq<int>,
    pc: int,
    fl: int,
    running: bool,
    output: seq<int>)

  /** The state after an operation, and the fault that stopped it, if any.
      A faulting operation leaves whatever it changed before the fault. */
  datatype Outcome = Outcome(state: State, fault: Option<Fault>)

  function Done(s: State): (o: Outcome) { Outcome(s, None) }

  function Faulted(s: State, f: Fault): (o: Outcome) { Outcome(s, Some(f)) }

  /** Memory has 256 cells and there are 8 registers. */
  predicate WellFormed(s: State)
  {
    |s.ram| == RamSize && |s.reg| == NumRegisters
  }

  predicate IsAddress(x: int) { 0 <= x < RamSize }

  predicate IsRegister(i: int) { 0 <= i < NumRegisters }

  /** The state the constructor builds: every cell and register 0 (the
      stack pointer included), pc 0, flags 0, running, nothing printed. */
  function Initial(): (s: State)
    ensures WellFormed(s)
    ensures forall k :: IsAddress(k) ==> s.ram[k] == 0
    ensures forall i :: IsRegister(i) ==> s.reg[i] == 0
    ensures s.pc == 0 && s.fl == 0 && s.running && s.output == []
  {
    State(seq(RamSize, _ => 0), seq(NumRegisters, _ => 0), 0, 0, true, [])
  }

  /** Placing a program, already parsed into values, in memory from address
      0 on. A program longer than memory faults at address 256, once the
      first 256 values are written. */
  function Load(s: State, program: seq<int>): (o: Outcome)
    requires WellFormed(s)
    ensures WellFormed(o.state)
    ensures o.state == s.(ram := o.state.ram)
    ensures forall k :: 0 <= k < |program| && IsAddress(k) ==> o.state.ram[k] == program[k]
    ensures forall k :: |program| <= k < RamSize ==> o.state.ram[k] == s.ram[k]
    ensures o.fault.Some? <==> |program| > RamSize
    ensures o.fault.Some? ==> o.fault.value == RamOutOfBounds(RamSize)
  {
    if |program| <= RamSize then Done(s.(ram := program + s.ram[|program|..]))
    else Faulted(s.(ram := program[..RamSize]), RamOutOfBounds(RamSize))
  }

  /** The flags byte CMP sets for register values x and y. */
  function CmpFlag(x: int, y: int): (f: int)
    ensures f == FlagLess <==> x < y
    ensures f == FlagGreater <==> x > y
    ensures f == FlagEqual <==> x == y
  {
    if x < y then FlagLess
    else if x > y then FlagGreater
    else FlagEqual  // the source's last test, x == y, always holds here
  }

  /** The ALU on registers a and b: "ADD" and "MUL" update register a in
      place, "CMP" sets the flags, and any other name raises. Register a is
      read before register b. */
  function Alu(s: State, op: string, a: int, b: int): (o: Outcome)
    requires WellFormed(s)
    ensures WellFormed(o.state)
    ensures o.fault.Some? ==> o.state == s
    ensures o.state == s.(reg := o.state.reg, fl := o.state.fl)
  {
    if op == "ADD" || op == "MUL" || op == "CMP" then
      if !IsRegister(a) then Faulted(s, RegisterOutOfBounds(a))
      else if !IsRegister(b) then Faulted(s, RegisterOutOfBounds(b))
      else if op == "ADD" then Done(s.(reg := s.reg[a := s.reg[a] + s.reg[b]]))
      else if op == "MUL" then Done(s.(reg := s.reg[a := s.reg[a] * s.reg[b]]))
      else Done(s.(fl := CmpFlag(s.reg[a], s.reg[b])))
    else Faulted(s, UnsupportedOperation(op))
  }

  /** LDI a b: register a := b. */
  function Ldi(s: State, a: int, b: int): (o: Outcome)
    requires WellFormed(s)
    ensures WellFormed(o.state)
    ensures o.state.output == s.output && o.state.running == s.running
  {
    if !IsRegister(a) then Faulted(s, RegisterOutOfBounds(a))
    else Done(s.(reg := s.reg[a := b], pc := s.pc + 3))
  }

  /** PRN a: print register a. */
  function Prn(s: State, a: int): (o: Outcome)
    requires WellFormed(s)
    ensures WellFormed(o.state)
    ensures o.state.running == s.running
  {
    if !IsRegister(a) then Faulted(s, RegisterOutOfBounds(a))
    else Done(s.(output := s.output + [s.reg[a]], pc := s.pc + 2))
  }

  /** HLT: clear the running flag. */
  function Hlt(s: State): (o: Outcome)
    requires WellFormed(s)
    ensures WellFormed(o.state)
    ensures !o.state.running
    ensures o.state.output == s.output
  {
    Done(s.(running := false))
  }

  /** CALL a: decrement the stack pointer, store pc + 2 at the address it
      now holds, and jump to register a, read after the decrement. */
  function Call(s: State, a: int): (o: Outcome)
    requires WellFormed(s)
    ensures WellFormed(o.state)
    ensures o.state.output == s.output && o.state.running == s.running
  {
    var returnAddress := s.pc + 2;
    var t := s.(reg := s.reg[SP := s.reg[SP] - 1]);
    var top := t.reg[SP];
    if !IsAddress(top) then Faulted(t, RamOutOfBounds(top))
    else
      var u := t.(ram := t.ram[top := returnAddress]);
      if !IsRegister(a) then Faulted(u, RegisterOutOfBounds(a))
      else Done(u.(pc := u.reg[a]))
  }

  /** MUL a b: the ALU's "MUL", then pc += 3. */
  function Mul(s: State, a: int, b: int): (o: Outcome)
    requires WellFormed(s)
    ensures WellFormed(o.state)
    ensures o.state.output == s.output && o.state.running == s.running
    ensures o.state.fl == s.fl && o.state.ram == s.ram
  {
    var r := Alu(s, "MUL", a, b);
    if r.fault.Some? then r else Done(r.state.(pc := r.state.pc + 3))
  }

  /** JMP a: pc := register a. */
  function Jmp(s: State, a: int): (o: Outcome)
    requires WellFormed(s)
    ensures WellFormed(o.state)
    ensures o.state == s.(pc := o.state.pc)
  {
    if !IsRegister(a) then Faulted(s, RegisterOutOfBounds(a))
    else Done(s.(pc := s.reg[a]))
  }

  /** The state of a conditional jump that is not taken. */
  function FallThrough(s: State): (o: Outcome)
  {
    Done(s.(pc := s.pc + 2))
  }

  /** JEQ a: jump as JMP when the flags byte is exactly FlagEqual. */
  function Jeq(s: State, a: int): (o: Outcome)
    requires WellFormed(s)
    ensures WellFormed(o.state)
    ensures o.state == s.(pc := o.state.pc)
  {
    if s.fl == FlagEqual then Jmp(s, a) else FallThrough(s)
  }

  /** JNE a: jump as JMP when the flags byte is anything but FlagEqual. */
  function Jne(s: State, a: int): (o: Outcome)
    requires WellFormed(s)
    ensures WellFormed(o.state)
    ensures o.state == s.(pc := o.state.pc)
  {
    if s.fl != FlagEqual then Jmp(s, a) else FallThrough(s)
  }

  /** CMP a b: the ALU's "CMP", then pc += 3. */
  function Cmp(s: State, a: int, b: int): (o: Outcome)
    requires WellFormed(s)
    ensures WellFormed(o.state)
    ensures o.state.output == s.output && o.state.running == s.running
    ensures o.state.reg == s.reg && o.state.ram == s.ram
  {
    var r := Alu(s, "CMP", a, b);
    if r.fault.Some? then r else Done(r.state.(pc := r.state.pc + 3))
  }

  /** Calling the dispatch table's entry for an instruction with the two
      operand bytes. Only HLT clears the running flag, and only PRN adds to
      the output. */
  function Execute(s: State, ins: Instr, a: int, b: int): (o: Outcome)
    requires WellFormed(s)
    ensures WellFormed(o.state)
    ensures o.state.running == (s.running && !ins.Hlt?)
    ensures !ins.Prn? ==> o.state.output == s.output
    ensures s.output <= o.state.output
  {
    match ins
    case Ldi => Ldi(s, a, b)
    case Prn => Prn(s, a)
    case Hlt => Hlt(s)
    case Mul => Mul(s, a, b)
    case Call => Call(s, a)
    case Cmp => Cmp(s, a, b)
    case Jmp => Jmp(s, a)
    case Jeq => Jeq(s, a)
    case Jne => Jne(s, a)
  }

  /** One pass of the run loop's body: read the opcode at pc and the two
      bytes after it, look the opcode up, and execute it. Every one of the
      three reads happens before the lookup, whatever the instruction. */
  function Step(s: State): (o: Outcome)
    requires WellFormed(s)
    ensures WellFormed(o.state)
    ensures s.output <= o.state.output
    ensures o.state.running ==> s.running
  {
    if !IsAddress(s.pc) then Faulted(s, RamOutOfBounds(s.pc))
    else if !IsAddress(s.pc + 1) then Faulted(s, RamOutOfBounds(s.pc + 1))
    else if !IsAddress(s.pc + 2) then Faulted(s, RamOutOfBounds(s.pc + 2))
    else
      var ir, a, b := s.ram[s.pc], s.ram[s.pc + 1], s.ram[s.pc + 2];
      match Decode(ir)
      case None => Faulted(s, UnknownInstruction(ir))
      case Some(ins) => Execute(s, ins, a, b)
  }

  /** The run loop, for at most `fuel` passes: it goes on while the running
      flag is set and stops at the first fault. */
  function Run(s: State, fuel: nat): (o: Outcome)
    requires WellFormed(s)
    ensures WellFormed(o.state)
    ensures s.output <= o.state.output
    ensures o.state.running ==> s.running
    ensures !s.running ==> o == Done(s)
    decreases fuel
  {
    if !s.running || fuel == 0 then Done(s)
    else
      var o := Step(s);
      if o.fault.Some? then o else Run(o.state, fuel - 1)
  }
}
