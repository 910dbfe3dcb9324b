/** The LS-8 execution engine as values: the machine state, the ALU, one
    function per instruction handler, the fetch-decode-execute step and the
    run loop. `Cpu.CPU` is the same engine over arrays, and its methods are
    proved to compute exactly these functions. */
module Machine {
  import opened Wrappers
  import opened Bits
  import Opcodes

  /** Register index of the stack pointer. */
  const SP: nat := 7
  /** Initial stack pointer: the stack grows down from here. */
  const StackStart: int := 0xF4
  const RegisterCount: nat := 8
  const MemorySize: nat := 256

  /** The operations the ALU implements. Only ADD, MUL, CMP and AND are
      reachable from the branch table; the others have no opcode. */
  datatype AluOp = AluAdd | AluMul | AluCmp | AluAnd | AluOr | AluXor | AluNot | AluShl | AluShr | AluMod

  /** The instruction register holds nothing before the first fetch, then the
      fetched byte; a handler that goes through the ALU replaces it by the
      name of the ALU operation it wants. The name is one of the ALU's ten
      tag strings, represented by the operation it selects (`AluName` gives
      the string). */
  datatype Ir = NoIr | Byte(byte: int) | Tag(op: AluOp)

  /** The exceptions the emulator raises; each one ends the run. */
  datatype Fault =
    | UnknownOpcode(opcode: int)     // no branch-table entry for the byte
    | UnsupportedAluOp(ir: Ir)       // the ALU does not know the tag
    | BadRegister(index: Option<int>) // register index missing or out of 0..7
    | BadAddress(address: int)       // memory address out of 0..255
    | UnsetFlags                     // JEQ/JNE before any CMP has set FL
    | UnsetOperand                   // LDI with no staged immediate
    | NegativeShift(count: int)      // SHL/SHR by a negative count
    | ZeroDivision                   // MOD by zero

  /** Everything the machine holds. `fl`, `a` and `b` are None until first
      set; `out` is what PRN has emitted so far. */
  datatype State = State(
    reg: seq<int>,
    ram: seq<int>,
    pc: int,
    fl: Option<int>,
    ir: Ir,
    a: Option<int>,
    b: Option<int>,
    out: seq<int>)

  /** The register file and memory keep their fixed sizes. */
  predicate Wf(s: State) {
    |s.reg| == RegisterCount && |s.ram| == MemorySize
  }

  /** The machine as constructed. */
  function Init(): State {
    State(seq(RegisterCount, i => if i == SP then StackStart else 0),
          seq(MemorySize, _ => 0), 0, None, NoIr, None, None, [])
  }

  // ---------------------------------------------------------------- access

  /** A staged operand used as a register index. */
  function RegIndex(x: Option<int>): (r: Result<nat, Fault>)
    ensures r.Ok? <==> x.Some? && 0 <= x.value < RegisterCount
    ensures r.Ok? ==> r.value == x.value
    ensures r.Err? ==> r.error == BadRegister(x)
  {
    if x.Some? && 0 <= x.value < RegisterCount then Ok(x.value) else Err(BadRegister(x))
  }

  /** The register a staged operand names. */
  function GetReg(s: State, x: Option<int>): (r: Result<int, Fault>)
    requires Wf(s)
    ensures r.Ok? <==> x.Some? && 0 <= x.value < RegisterCount
    ensures r.Ok? ==> r.value == s.reg[x.value]
  {
    var i :- RegIndex(x);
    Ok(s.reg[i])
  }

  /** `ram_read`: the cell at an address. */
  function ReadRam(s: State, address: int): (r: Result<int, Fault>)
    requires Wf(s)
    ensures r.Ok? <==> 0 <= address < MemorySize
    ensures r.Ok? ==> r.value == s.ram[address]
    ensures r.Err? ==> r.error == BadAddress(address)
  {
    if 0 <= address < MemorySize then Ok(s.ram[address]) else Err(BadAddress(address))
  }

  /** `ram_write`: store a value at an address, nothing else changes. */
  function WriteRam(s: State, address: int, value: int): (r: Result<State, Fault>)
    requires Wf(s)
    ensures r.Ok? <==> 0 <= address < MemorySize
    ensures r.Ok? ==> Wf(r.value) && r.value == s.(ram := s.ram[address := value])
    ensures r.Err? ==> r.error == BadAddress(address)
  {
    if 0 <= address < MemorySize then Ok(s.(ram := s.ram[address := value]))
    else Err(BadAddress(address))
  }

  function SetReg(s: State, i: nat, value: int): (t: State)
    requires Wf(s) && i < RegisterCount
    ensures Wf(t)
  {
    s.(reg := s.reg[i := value])
  }

  // ------------------------------------------------------------------- ALU


  /** The tag string each ALU operation is selected by. */
  function AluName(op: AluOp): string {
    match op
    case AluAdd => "ADD"
    case AluMul => "MUL"
    case AluCmp => "CMP"
    case AluAnd => "AND"
    case AluOr => "OR"
    case AluXor => "XOR"
    case AluNot => "NOT"
    case AluShl => "SHL"
    case AluShr => "SHR"
    case AluMod => "MOD"
  }

  /** The ALU operation an instruction register selects, if any: a fetched
      byte selects none. */
  function AluOpOf(ir: Ir): Option<AluOp> {
    if ir.Tag? then Some(ir.op) else None
  }

  /** The flag value a comparison of x with y leaves in FL. */
  function CompareFlag(x: int, y: int): int {
    if x == y then 0x01 else if x > y then 0x02 else 0x04
  }

  /** The ALU: the operation tagged in `ir` applied to registers a and b,
      the result written back to register a, or FL set for CMP. */
  function Alu(s: State): (r: Result<State, Fault>)
    requires Wf(s)
    ensures r.Ok? ==> Wf(r.value)
  {
    var op :- if AluOpOf(s.ir).Some? then Ok(AluOpOf(s.ir).value) else Err(UnsupportedAluOp(s.ir));
    var i :- RegIndex(s.a);
    var x := s.reg[i];
    if op == AluNot then
      Ok(SetReg(s, i, BitNot(x)))
    else
      var j :- RegIndex(s.b);
      var y := s.reg[j];
      match op
      case AluAdd => Ok(SetReg(s, i, x + y))
      case AluMul => Ok(SetReg(s, i, x * y))
      case AluCmp => Ok(s.(fl := Some(CompareFlag(x, y))))
      case AluAnd => Ok(SetReg(s, i, BitAnd(x, y)))
      case AluOr => Ok(SetReg(s, i, BitOr(x, y)))
      case AluXor => Ok(SetReg(s, i, BitXor(x, y)))
      case AluShl => if y < 0 then Err(NegativeShift(y)) else Ok(SetReg(s, i, ShiftLeft(x, y)))
      case AluShr => if y < 0 then Err(NegativeShift(y)) else Ok(SetReg(s, i, ShiftRight(x, y)))
      case AluMod => if y == 0 then Err(ZeroDivision) else Ok(SetReg(s, i, FloorMod(x, y)))
  }

  // -------------------------------------------------------------- handlers

  /** ADD: ALU addition, then pc += 3. */
  function Add(s: State): (r: Result<State, Fault>)
    requires Wf(s)
    ensures r.Ok? ==> Wf(r.value)
  {
    var t :- Alu(s.(ir := Tag(AluAdd)));
    Ok(t.(pc := t.pc + 3))
  }

  /** AND: ALU bitwise and; the handler never advances pc. */
  function And(s: State): (r: Result<State, Fault>)
    requires Wf(s)
    ensures r.Ok? ==> Wf(r.value)
  {
    Alu(s.(ir := Tag(AluAnd)))
  }

  /** MUL: ALU multiplication, then pc += 3. */
  function Mul(s: State): (r: Result<State, Fault>)
    requires Wf(s)
    ensures r.Ok? ==> Wf(r.value)
  {
    var t :- Alu(s.(ir := Tag(AluMul)));
    Ok(t.(pc := t.pc + 3))
  }

  /** CMP: ALU comparison into FL, then pc += 3. */
  function Cmp(s: State): (r: Result<State, Fault>)
    requires Wf(s)
    ensures r.Ok? ==> Wf(r.value)
  {
    var t :- Alu(s.(ir := Tag(AluCmp)));
    Ok(t.(pc := t.pc + 3))
  }

  /** CALL: decrement SP, store pc + 2 at the new top, jump to register a
      (read after the decrement). */
  function Call(s: State): (r: Result<State, Fault>)
    requires Wf(s)
    ensures r.Ok? ==> Wf(r.value)
  {
    var t := SetReg(s, SP, s.reg[SP] - 1);
    var u :- WriteRam(t, t.reg[SP], s.pc + 2);
    var target :- GetReg(u, u.a);
    Ok(u.(pc := target))
  }

  /** HLT: does nothing, pc included. */
  function Hlt(s: State): (r: Result<State, Fault>)
    requires Wf(s)
    ensures r.Ok? ==> Wf(r.value)
  {
    Ok(s)
  }

  /** The flags register read by a conditional jump. */
  function Flags(s: State): (r: Result<int, Fault>) {
    if s.fl.Some? then Ok(s.fl.value) else Err(UnsetFlags)
  }

  /** JEQ: jump to register a when bit 0 of FL is set, else pc += 2. */
  function Jeq(s: State): (r: Result<State, Fault>)
    requires Wf(s)
    ensures r.Ok? ==> Wf(r.value)
  {
    var f :- Flags(s);
    if LowBit(f) == 1 then
      var target :- GetReg(s, s.a);
      Ok(s.(pc := target))
    else
      Ok(s.(pc := s.pc + 2))
  }

  /** JNE: jump to register a when bit 0 of FL is clear, else pc += 2. */
  function Jne(s: State): (r: Result<State, Fault>)
    requires Wf(s)
    ensures r.Ok? ==> Wf(r.value)
  {
    var f :- Flags(s);
    if LowBit(f) == 0 then
      var target :- GetReg(s, s.a);
      Ok(s.(pc := target))
    else
      Ok(s.(pc := s.pc + 2))
  }

  /** JMP: jump to register a. */
  function Jmp(s: State): (r: Result<State, Fault>)
    requires Wf(s)
    ensures r.Ok? ==> Wf(r.value)
  {
    var target :- GetReg(s, s.a);
    Ok(s.(pc := target))
  }

  /** LDI: register a := the immediate b, then pc += 3. */
  function Ldi(s: State): (r: Result<State, Fault>)
    requires Wf(s)
    ensures r.Ok? ==> Wf(r.value)
  {
    var v :- if s.b.Some? then Ok(s.b.value) else Err(UnsetOperand);
    var i :- RegIndex(s.a);
    Ok(SetReg(s, i, v).(pc := s.pc + 3))
  }

  /** POP: register a := memory at SP, then SP += 1 and pc += 2. */
  function Pop(s: State): (r: Result<State, Fault>)
    requires Wf(s)
    ensures r.Ok? ==> Wf(r.value)
  {
    var v :- ReadRam(s, s.reg[SP]);
    var i :- RegIndex(s.a);
    var t := SetReg(s, i, v);
    Ok(SetReg(t, SP, t.reg[SP] + 1).(pc := s.pc + 2))
  }

  /** PRN: emit register a, then pc += 2. */
  function Prn(s: State): (r: Result<State, Fault>)
    requires Wf(s)
    ensures r.Ok? ==> Wf(r.value)
  {
    var v :- GetReg(s, s.a);
    Ok(s.(out := s.out + [v], pc := s.pc + 2))
  }

  /** PUSH: decrement SP, store register a (read after the decrement) at
      the new top, then pc += 2. */
  function Push(s: State): (r: Result<State, Fault>)
    requires Wf(s)
    ensures r.Ok? ==> Wf(r.value)
  {
    var t := SetReg(s, SP, s.reg[SP] - 1);
    var v :- GetReg(t, t.a);
    var u :- WriteRam(t, t.reg[SP], v);
    Ok(u.(pc := s.pc + 2))
  }

  /** RET: pc := memory at SP, then SP += 1. */
  function Ret(s: State): (r: Result<State, Fault>)
    requires Wf(s)
    ensures r.Ok? ==> Wf(r.value)
  {
    var target :- ReadRam(s, s.reg[SP]);
    Ok(SetReg(s, SP, s.reg[SP] + 1).(pc := target))
  }

  /** ST: memory at register b := register a; the handler never advances pc. */
  function St(s: State): (r: Result<State, Fault>)
    requires Wf(s)
    ensures r.Ok? ==> Wf(r.value)
  {
    var address :- GetReg(s, s.b);
    var v :- GetReg(s, s.a);
    WriteRam(s, address, v)
  }

  /** The branch table: the handler for each opcode. */
  function Dispatch(op: Opcodes.Op, s: State): (r: Result<State, Fault>)
    requires Wf(s)
    ensures r.Ok? ==> Wf(r.value)
  {
    match op
    case ADD => Add(s)
    case AND => And(s)
    case CALL => Call(s)
    case CMP => Cmp(s)
    case HLT => Hlt(s)
    case JEQ => Jeq(s)
    case JNE => Jne(s)
    case JMP => Jmp(s)
    case LDI => Ldi(s)
    case MUL => Mul(s)
    case POP => Pop(s)
    case PRN => Prn(s)
    case PUSH => Push(s)
    case RET => Ret(s)
    case ST => St(s)
  }

  // ------------------------------------------------------------------ step

  /** `set_ab`: stage one or two operand bytes following pc; any other
      operand count leaves `a` and `b` as they were. */
  function Stage(s: State, opcount: int): (r: Result<State, Fault>)
    requires Wf(s)
    ensures r.Ok? ==> Wf(r.value)
  {
    if opcount == 1 then
      var x :- ReadRam(s, s.pc + 1);
      Ok(s.(a := Some(x)))
    else if opcount == 2 then
      var x :- ReadRam(s, s.pc + 1);
      var y :- ReadRam(s, s.pc + 2);
      Ok(s.(a := Some(x), b := Some(y)))
    else
      Ok(s)
  }

  /** One cycle of `run`: fetch the byte at pc, take `IR >> 6` as the operand
      count, stage the operands, look the byte up in the branch table and run
      its handler. */
  function Step(s: State): (r: Result<State, Fault>)
    requires Wf(s)
    ensures r.Ok? ==> Wf(r.value)
  {
    var ir :- ReadRam(s, s.pc);
    var t :- Stage(s.(ir := Byte(ir)), ShiftRight(ir, 6));
    var op :- if Opcodes.Decode(ir).Some? then Ok(Opcodes.Decode(ir).value) else Err(UnknownOpcode(ir));
    Dispatch(op, t)
  }

  // ------------------------------------------------------------------- run

  /** How a bounded run ends: still running or halted, after `steps`
      completed cycles, or on a fault in the cycle after `steps` of them. */
  datatype RunOutcome =
    | Stopped(state: State, halted: bool, steps: nat)
    | Faulted(fault: Fault, steps: nat)

  function Later(k: nat, o: RunOutcome): RunOutcome {
    match o
    case Stopped(s, h, n) => Stopped(s, h, n + k)
    case Faulted(f, n) => Faulted(f, n + k)
  }

  lemma LaterLater(k: nat, o: RunOutcome)
    ensures Later(k, Later(1, o)) == Later(k + 1, o)
  {
  }

  /** One turn of the run loop, for a caller that executes it step by step. */
  lemma RunOnce(s: State, polls: seq<bool>, t: Result<State, Fault>)
    requires Wf(s) && polls != [] && t == Step(s)
    ensures t.Err? ==> Run(s, false, polls) == Faulted(t.error, 0)
    ensures t.Ok? ==> Run(s, false, polls) == Later(1, Run(t.value, polls[0], polls[1..]))
  {
  }

  /** The run loop, one cycle per element of `polls`: element i says whether
      the cancellation key was read at the top of cycle i. The loop tests the
      halted flag only at its head, so the cycle that reads the key still
      executes its instruction. Running out of polls stands for a run that
      has not been cancelled yet. */
  function Run(s: State, halted: bool, polls: seq<bool>): (o: RunOutcome)
    requires Wf(s)
    ensures o.Stopped? ==> Wf(o.state)
    decreases |polls|
  {
    if halted || polls == [] then Stopped(s, halted, 0)
    else
      match Step(s)
      case Err(f) => Faulted(f, 0)
      case Ok(t) => Later(1, Run(t, polls[0], polls[1..]))
  }
}
