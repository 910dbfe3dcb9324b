/** What the LS-8 engine guarantees, proved of the `Machine` functions:
    construction, operand staging and dispatch, the effect of each
    instruction on registers, memory, FL and pc, the stack and call
    disciplines, the conditional jumps, and the run loop. */
module MachineLemmas {
  import opened Wrappers
  import opened Bits
  import opened Opcodes
  import opened Machine

  predicate IsReg(x: int) {
    0 <= x < RegisterCount
  }

  /** A staged operand that names a register. */
  predicate IsRegOperand(x: Option<int>) {
    x.Some? && IsReg(x.value)
  }

  /** The byte at pc is `op` and its operand bytes lie in memory. */
  predicate Fetches(s: State, op: Op) {
    Wf(s) && 0 <= s.pc && s.pc + Arity(op) < MemorySize && s.ram[s.pc] == Encode(op)
  }

  /** The state a handler sees: `ir` holds the fetched byte and the operands
      the opcode's two high bits call for are staged, the others left as
      they were. */
  function Staged(s: State, op: Op): State
    requires Fetches(s, op)
  {
    var t := s.(ir := Byte(s.ram[s.pc]));
    if Arity(op) == 0 then t
    else if Arity(op) == 1 then t.(a := Some(s.ram[s.pc + 1]))
    else t.(a := Some(s.ram[s.pc + 1]), b := Some(s.ram[s.pc + 2]))
  }

  /** n cycles of the engine, stopping at the first fault. */
  function Iterate(s: State, n: nat): (r: Result<State, Fault>)
    requires Wf(s)
    ensures r.Ok? ==> Wf(r.value)
    decreases n
  {
    if n == 0 then Ok(s)
    else
      var t :- Step(s);
      Iterate(t, n - 1)
  }

  // ----------------------------------------------------------- construction

  /** A new machine: registers all 0 but SP = 0xF4, 256 zero cells, pc 0,
      FL and the operands unset, nothing printed. */
  lemma InitialState()
    ensures Wf(Init())
    ensures forall i :: 0 <= i < RegisterCount ==> Init().reg[i] == (if i == 7 then 0xF4 else 0)
    ensures forall i :: 0 <= i < MemorySize ==> Init().ram[i] == 0
    ensures Init().pc == 0 && Init().fl == None && Init().a == None && Init().b == None
    ensures Init().out == []
  {
  }

  // ------------------------------------------------------ fetch and dispatch

  /** A step fetches the opcode at pc, stages `IR >> 6` operands, which is
      exactly the handler's arity, and runs that opcode's handler. */
  lemma {:induction false} StepDecodes(s: State, op: Op)
    requires Fetches(s, op)
    ensures Step(s) == Dispatch(op, Staged(s, op))
  {
    EncodeDecode(op);
    OperandCountIsArity(op);
    assert ShiftRight(Encode(op), 6) == Encode(op) / 64;
  }

  /** A byte with no branch-table entry is never executed: the step fails,
      with an unknown-opcode fault once its operand bytes could be read. */
  lemma StepUnknownOpcode(s: State)
    requires Wf(s) && 0 <= s.pc < MemorySize && Decode(s.ram[s.pc]).None?
    ensures Step(s).Err?
    ensures s.pc + 2 < MemorySize ==> Step(s) == Err(UnknownOpcode(s.ram[s.pc]))
  {
  }

  /** The byte 0 in particular is not an instruction. */
  lemma ZeroIsNotAnOpcode(s: State)
    requires Wf(s) && 0 <= s.pc < MemorySize && s.ram[s.pc] == 0
    ensures Step(s) == Err(UnknownOpcode(0))
  {
  }

  /** No handler touches the staged operands. */
  lemma {:induction false} DispatchKeepsOperands(op: Op, t: State)
    requires Wf(t) && Dispatch(op, t).Ok?
    ensures Dispatch(op, t).value.a == t.a && Dispatch(op, t).value.b == t.b
  {
    match op
    case ADD | AND | CMP | MUL =>
    case _ =>
  }

  /** Operand staging: after a successful step `a` is the byte after the
      opcode when the opcode takes one or two operands, `b` the byte after
      that when it takes two, and otherwise they keep their old values. */
  lemma StepStagesOperands(s: State, op: Op)
    requires Fetches(s, op) && Step(s).Ok?
    ensures Step(s).value.a == if Arity(op) >= 1 then Some(s.ram[s.pc + 1]) else s.a
    ensures Step(s).value.b == if Arity(op) == 2 then Some(s.ram[s.pc + 2]) else s.b
  {
    StepDecodes(s, op);
    DispatchKeepsOperands(op, Staged(s, op));
  }

  /** Only operand counts 1 and 2 stage anything. */
  lemma StageLeavesOperands(s: State, opcount: int)
    requires Wf(s) && opcount != 1 && opcount != 2
    ensures Stage(s, opcount) == Ok(s)
  {
  }

  // ------------------------------------------------------------------- ALU

  /** The ALU's ten tag strings are pairwise distinct, so naming a tag by
      its operation loses nothing; an instruction register that holds a
      fetched byte (or nothing) is an unsupported ALU operation. */
  lemma AluTags(s: State, op: AluOp, op': AluOp)
    requires Wf(s)
    ensures AluName(op) == AluName(op') <==> op == op'
    ensures !s.ir.Tag? ==> Alu(s) == Err(UnsupportedAluOp(s.ir))
  {
    if op != op' {
      assert AluName(op)[|AluName(op)| - 1] != AluName(op')[|AluName(op')| - 1]
        || AluName(op)[0] != AluName(op')[0] || AluName(op)[1] != AluName(op')[1];
    }
  }

  /** The ALU operations no opcode reaches. NOT uses register a only and
      stores `~x = -x - 1`; SHL and SHR refuse a negative count, SHL
      multiplies by 2^y and SHR floors; MOD refuses a zero divisor and
      its result takes the divisor's sign and is x less the floor quotient's
      multiple of the divisor; OR and XOR are the bitwise ones. */
  lemma AluOtherOps(s: State)
    requires Wf(s) && s.ir.Tag? && IsRegOperand(s.a)
    ensures var op, i, x := s.ir.op, s.a.value, s.reg[s.a.value];
      op == AluNot ==> Alu(s) == Ok(s.(reg := s.reg[i := -x - 1]))
    ensures var op, i, x := s.ir.op, s.a.value, s.reg[s.a.value];
      op != AluNot && !IsRegOperand(s.b) ==> Alu(s) == Err(BadRegister(s.b))
    ensures IsRegOperand(s.b) ==>
      var op, i, x, y := s.ir.op, s.a.value, s.reg[s.a.value], s.reg[s.b.value];
      && (op == AluShl || op == AluShr ==> (Alu(s).Ok? <==> y >= 0))
      && (op == AluShl && y >= 0 ==> Alu(s) == Ok(s.(reg := s.reg[i := x * Pow2(y)])))
      && (op == AluShr && y >= 0 ==>
            var q := Alu(s).value.reg[i]; q * Pow2(y) <= x < q * Pow2(y) + Pow2(y))
      && (op == AluMod ==> (Alu(s).Ok? <==> y != 0))
      && (op == AluMod && y > 0 ==> 0 <= Alu(s).value.reg[i] < y)
      && (op == AluMod && y < 0 ==> y < Alu(s).value.reg[i] <= 0)
      && (op == AluMod && y != 0 ==> x == FloorDiv(x, y) * y + Alu(s).value.reg[i])
      && (op == AluOr ==> Alu(s) == Ok(s.(reg := s.reg[i := BitOr(x, y)])))
      && (op == AluXor ==> Alu(s) == Ok(s.(reg := s.reg[i := BitXor(x, y)])))
  {
    if IsRegOperand(s.b) && s.ir.op == AluShr && s.reg[s.b.value] >= 0 {
      ShiftRightFloors(s.reg[s.a.value], s.reg[s.b.value]);
    }
  }

  // -------------------------------------------------------------- handlers

  /** The ADD handler on staged operands: register a := a + b, pc += 3;
      a missing or out-of-range register index is a fault. */
  lemma AddEffect(t: State)
    requires Wf(t)
    ensures Add(t).Ok? <==> IsRegOperand(t.a) && IsRegOperand(t.b)
    ensures !IsRegOperand(t.a) ==> Add(t) == Err(BadRegister(t.a))
    ensures Add(t).Ok? ==> var i, j := t.a.value, t.b.value;
      Add(t) == Ok(t.(reg := t.reg[i := t.reg[i] + t.reg[j]], pc := t.pc + 3, ir := Tag(AluAdd)))
  {
  }

  /** The MUL handler: register a := a * b, pc += 3. */
  lemma MulEffect(t: State)
    requires Wf(t)
    ensures Mul(t).Ok? <==> IsRegOperand(t.a) && IsRegOperand(t.b)
    ensures Mul(t).Ok? ==> var i, j := t.a.value, t.b.value;
      Mul(t) == Ok(t.(reg := t.reg[i := t.reg[i] * t.reg[j]], pc := t.pc + 3, ir := Tag(AluMul)))
  {
  }

  /** The AND handler: register a := a & b, pc unchanged. */
  lemma AndEffect(t: State)
    requires Wf(t)
    ensures Machine.And(t).Ok? <==> IsRegOperand(t.a) && IsRegOperand(t.b)
    ensures Machine.And(t).Ok? ==> var i, j := t.a.value, t.b.value;
      Machine.And(t) == Ok(t.(reg := t.reg[i := BitAnd(t.reg[i], t.reg[j])], ir := Tag(AluAnd)))
  {
  }

  /** The CMP handler: FL := the comparison flag of registers a and b,
      pc += 3. */
  lemma CmpEffect(t: State)
    requires Wf(t)
    ensures Cmp(t).Ok? <==> IsRegOperand(t.a) && IsRegOperand(t.b)
    ensures Cmp(t).Ok? ==> var i, j := t.a.value, t.b.value;
      Cmp(t) == Ok(t.(fl := Some(CompareFlag(t.reg[i], t.reg[j])), pc := t.pc + 3, ir := Tag(AluCmp)))
  {
  }

  /** The comparison flag is 1, 2 or 4 for equal, greater and less, and
      exactly one of them. */
  lemma CompareFlagCases(x: int, y: int)
    ensures CompareFlag(x, y) == 0x01 <==> x == y
    ensures CompareFlag(x, y) == 0x02 <==> x > y
    ensures CompareFlag(x, y) == 0x04 <==> x < y
    ensures CompareFlag(x, y) in {0x01, 0x02, 0x04}
  {
  }

  /** The PUSH handler: SP decrements, then register a (read after the
      decrement) is stored at the new top, pc += 2. */
  lemma PushEffect(t: State)
    requires Wf(t) && IsRegOperand(t.a) && 1 <= t.reg[SP] <= MemorySize
    ensures var sp := t.reg[SP] - 1; var reg := t.reg[SP := sp];
      Push(t) == Ok(t.(reg := reg, ram := t.ram[sp := reg[t.a.value]], pc := t.pc + 2))
  {
  }

  /** The POP handler: register a := the cell at SP, then SP increments,
      pc += 2. */
  lemma PopEffect(t: State)
    requires Wf(t) && IsRegOperand(t.a) && 0 <= t.reg[SP] < MemorySize
    ensures var reg := t.reg[t.a.value := t.ram[t.reg[SP]]];
      Pop(t) == Ok(t.(reg := reg[SP := reg[SP] + 1], pc := t.pc + 2))
  {
  }

  /** The CALL handler: SP decrements, pc + 2 is stored at the new top, pc
      becomes register a as read after the decrement. */
  lemma CallEffect(t: State)
    requires Wf(t) && IsRegOperand(t.a) && 1 <= t.reg[SP] <= MemorySize
    ensures var sp := t.reg[SP] - 1; var reg := t.reg[SP := sp];
      Call(t) == Ok(t.(reg := reg, ram := t.ram[sp := t.pc + 2], pc := reg[t.a.value]))
  {
  }

  /** The RET handler: pc := the cell at SP, SP increments. */
  lemma RetEffect(t: State)
    requires Wf(t) && 0 <= t.reg[SP] < MemorySize
    ensures Ret(t) == Ok(t.(reg := t.reg[SP := t.reg[SP] + 1], pc := t.ram[t.reg[SP]]))
  {
  }

  // ------------------------------------------------------------ arithmetic

  /** ADD: register a := a + b with no masking, pc += 3; no other register,
      no memory cell and not FL change. A bad register index is a fault. */
  lemma AddStep(s: State)
    requires Fetches(s, ADD)
    ensures var ra, rb := s.ram[s.pc + 1], s.ram[s.pc + 2];
      && (Step(s).Ok? <==> IsReg(ra) && IsReg(rb))
      && (!IsReg(ra) ==> Step(s) == Err(BadRegister(Some(ra))))
      && (Step(s).Ok? ==>
            Step(s) == Ok(s.(reg := s.reg[ra := s.reg[ra] + s.reg[rb]], pc := s.pc + 3,
                             ir := Tag(AluAdd), a := Some(ra), b := Some(rb))))
  {
    StepDecodes(s, ADD);
    AddEffect(Staged(s, ADD));
  }

  /** MUL: register a := a * b with no masking, pc += 3; nothing else
      changes. */
  lemma MulStep(s: State)
    requires Fetches(s, MUL)
    ensures var ra, rb := s.ram[s.pc + 1], s.ram[s.pc + 2];
      && (Step(s).Ok? <==> IsReg(ra) && IsReg(rb))
      && (Step(s).Ok? ==>
            Step(s) == Ok(s.(reg := s.reg[ra := s.reg[ra] * s.reg[rb]], pc := s.pc + 3,
                             ir := Tag(AluMul), a := Some(ra), b := Some(rb))))
  {
    StepDecodes(s, MUL);
    MulEffect(Staged(s, MUL));
  }

  /** AND: register a := a & b, and pc stays where it is, so the same AND
      runs again on the next cycle. */
  lemma AndStep(s: State)
    requires Fetches(s, AND)
    ensures var ra, rb := s.ram[s.pc + 1], s.ram[s.pc + 2];
      && (Step(s).Ok? <==> IsReg(ra) && IsReg(rb))
      && (Step(s).Ok? ==>
            Step(s) == Ok(s.(reg := s.reg[ra := BitAnd(s.reg[ra], s.reg[rb])],
                             ir := Tag(AluAnd), a := Some(ra), b := Some(rb))))
  {
    StepDecodes(s, AND);
    AndEffect(Staged(s, AND));
  }

  /** CMP: FL := the comparison flag of registers a and b (see
      `CompareFlagCases`: 1, 2 or 4 for equal, greater, less), pc += 3;
      registers, memory and the output are unchanged. */
  lemma CmpStep(s: State)
    requires Fetches(s, CMP)
    ensures var ra, rb := s.ram[s.pc + 1], s.ram[s.pc + 2];
      && (Step(s).Ok? <==> IsReg(ra) && IsReg(rb))
      && (Step(s).Ok? ==>
            Step(s) == Ok(s.(fl := Some(CompareFlag(s.reg[ra], s.reg[rb])), pc := s.pc + 3,
                             ir := Tag(AluCmp), a := Some(ra), b := Some(rb))))
  {
    StepDecodes(s, CMP);
    CmpEffect(Staged(s, CMP));
  }

  // ------------------------------------------------------------- data moves

  /** LDI: register a := the immediate byte, pc += 3. */
  lemma LdiStep(s: State)
    requires Fetches(s, LDI) && IsReg(s.ram[s.pc + 1])
    ensures var ra, v := s.ram[s.pc + 1], s.ram[s.pc + 2];
      Step(s) == Ok(s.(reg := s.reg[ra := v], pc := s.pc + 3,
                       ir := Byte(Encode(LDI)), a := Some(ra), b := Some(v)))
  {
    StepDecodes(s, LDI);
  }

  /** ST: memory at register b := register a, and pc stays where it is. */
  lemma StStep(s: State)
    requires Fetches(s, ST)
    requires IsReg(s.ram[s.pc + 1]) && IsReg(s.ram[s.pc + 2])
    ensures var ra, rb := s.ram[s.pc + 1], s.ram[s.pc + 2];
      && (Step(s).Ok? <==> 0 <= s.reg[rb] < MemorySize)
      && (Step(s).Ok? ==>
            Step(s) == Ok(s.(ram := s.ram[s.reg[rb] := s.reg[ra]],
                             ir := Byte(Encode(ST)), a := Some(ra), b := Some(rb))))
  {
    StepDecodes(s, ST);
  }

  /** PRN: register a is appended to the output, pc += 2. */
  lemma PrnStep(s: State)
    requires Fetches(s, PRN) && IsReg(s.ram[s.pc + 1])
    ensures var ra := s.ram[s.pc + 1];
      Step(s) == Ok(s.(out := s.out + [s.reg[ra]], pc := s.pc + 2,
                       ir := Byte(Encode(PRN)), a := Some(ra)))
  {
    StepDecodes(s, PRN);
  }

  /** HLT does nothing: pc, registers, memory, FL and the staged operands
      all stay, so the machine executes the same HLT forever. */
  lemma HltStep(s: State)
    requires Fetches(s, HLT)
    ensures Step(s) == Ok(s.(ir := Byte(Encode(HLT))))
  {
    StepDecodes(s, HLT);
  }

  // ------------------------------------------------------------------ stack

  /** PUSH r: SP decrements, then register r (read after the decrement)
      is stored at the new top of stack, pc += 2. */
  lemma PushStep(s: State)
    requires Fetches(s, PUSH) && IsReg(s.ram[s.pc + 1])
    requires 1 <= s.reg[SP] <= MemorySize
    ensures var r, sp := s.ram[s.pc + 1], s.reg[SP] - 1;
      var reg := s.reg[SP := sp];
      Step(s) == Ok(s.(reg := reg, ram := s.ram[sp := reg[r]], pc := s.pc + 2,
                       ir := Byte(Encode(PUSH)), a := Some(r)))
  {
    StepDecodes(s, PUSH);
    PushEffect(Staged(s, PUSH));
  }

  /** POP r: register r := the cell at SP, then SP increments (so POP into
      SP itself leaves the popped value plus one), pc += 2. */
  lemma PopStep(s: State)
    requires Fetches(s, POP) && IsReg(s.ram[s.pc + 1])
    requires 0 <= s.reg[SP] < MemorySize
    ensures var r, sp := s.ram[s.pc + 1], s.reg[SP];
      var reg := s.reg[r := s.ram[sp]];
      Step(s) == Ok(s.(reg := reg[SP := reg[SP] + 1], pc := s.pc + 2,
                       ir := Byte(Encode(POP)), a := Some(r)))
  {
    StepDecodes(s, POP);
    PopEffect(Staged(s, POP));
  }

  /** PUSH r then POP r: the register file is exactly as before (r and SP
      included), pc has moved 2 + 2, and the only memory cell written is the
      one below the old SP. */
  lemma PushThenPop(s: State, r: int)
    requires Fetches(s, PUSH) && s.pc + 3 < MemorySize && IsReg(r)
    requires s.ram[s.pc + 1] == r && s.ram[s.pc + 2] == Encode(POP) && s.ram[s.pc + 3] == r
    requires 1 <= s.reg[SP] <= MemorySize
    requires s.reg[SP] - 1 != s.pc + 2 && s.reg[SP] - 1 != s.pc + 3
    ensures Step(s).Ok? && Step(s).value.pc == s.pc + 2
    ensures Step(s).value.reg[SP] == s.reg[SP] - 1
    ensures Step(Step(s).value).Ok?
    ensures var u := Step(Step(s).value).value;
      && u.reg == s.reg
      && u.pc == s.pc + 4
      && u.ram == s.ram[s.reg[SP] - 1 := if r == SP then s.reg[SP] - 1 else s.reg[r]]
  {
    PushStep(s);
    var t := Step(s).value;
    PopStep(t);
    PushPopRegisters(s.reg, r);
  }

  /** The register file after SP := SP - 1, pushing r, popping into r and
      SP := SP + 1 is the one it started as. */
  lemma PushPopRegisters(reg: seq<int>, r: nat)
    requires |reg| == RegisterCount && r < RegisterCount
    ensures var mid := reg[SP := reg[SP] - 1]; var back := mid[r := mid[r]];
      back[SP := back[SP] + 1] == reg
  {
  }

  /** CALL r: SP decrements, pc + 2 is stored at the new top of stack, and pc
      becomes register r as read after the decrement. */
  lemma CallStep(s: State)
    requires Fetches(s, CALL) && IsReg(s.ram[s.pc + 1])
    requires 1 <= s.reg[SP] <= MemorySize
    ensures Step(s).Ok?
    ensures var t, r, sp := Step(s).value, s.ram[s.pc + 1], s.reg[SP] - 1;
      && t.reg == s.reg[SP := sp]
      && t.ram == s.ram[sp := s.pc + 2]
      && t.pc == t.reg[r]
  {
    StepDecodes(s, CALL);
    CallEffect(Staged(s, CALL));
  }

  /** RET: pc := the cell at SP, SP increments. */
  lemma RetStep(s: State)
    requires Fetches(s, RET) && 0 <= s.reg[SP] < MemorySize
    ensures Step(s) == Ok(s.(reg := s.reg[SP := s.reg[SP] + 1], pc := s.ram[s.reg[SP]],
                             ir := Byte(Encode(RET))))
  {
    StepDecodes(s, RET);
    RetEffect(Staged(s, RET));
  }

  /** CALL to a subroutine whose first instruction is RET comes back to the
      instruction after the CALL, with SP and every register restored. */
  lemma CallThenRet(s: State)
    requires Fetches(s, CALL) && IsReg(s.ram[s.pc + 1])
    requires 1 <= s.reg[SP] <= MemorySize
    requires var r, sp := s.ram[s.pc + 1], s.reg[SP] - 1;
      var target := if r == SP then sp else s.reg[r];
      0 <= target < MemorySize && target != sp && s.ram[target] == Encode(RET)
    ensures Step(s).Ok? && Step(Step(s).value).Ok?
    ensures var u := Step(Step(s).value).value;
      && u.pc == s.pc + 2
      && u.reg == s.reg
      && u.ram == s.ram[s.reg[SP] - 1 := s.pc + 2]
  {
    CallStep(s);
    var t := Step(s).value;
    assert Fetches(t, RET);
    RetStep(t);
    assert Step(t).value.reg == s.reg;
  }

  // ------------------------------------------------------------- branching

  /** JEQ jumps to register a exactly when bit 0 of FL is set, otherwise
      moves on by 2; JNE does the opposite. Before any CMP, FL is unset and
      both fail. */
  lemma {:induction false} JumpsComplement(t: State)
    requires Wf(t) && t.a.Some? && IsReg(t.a.value)
    ensures t.fl.None? ==> Jeq(t) == Err(UnsetFlags) && Jne(t) == Err(UnsetFlags)
    ensures t.fl.Some? ==>
      var taken := BitAnd(t.fl.value, 1) == 1;
      var target := t.reg[t.a.value];
      && Jeq(t) == Ok(t.(pc := if taken then target else t.pc + 2))
      && Jne(t) == Ok(t.(pc := if taken then t.pc + 2 else target))
  {
    if t.fl.Some? {
      BitAndOne(t.fl.value);
    }
  }

  /** JEQ as a whole step. */
  lemma JeqStep(s: State)
    requires Fetches(s, JEQ) && IsReg(s.ram[s.pc + 1]) && s.fl.Some?
    ensures Step(s).Ok?
    ensures Step(s).value.pc == if s.fl.value % 2 == 1 then s.reg[s.ram[s.pc + 1]] else s.pc + 2
    ensures Step(s).value.reg == s.reg && Step(s).value.ram == s.ram
  {
    StepDecodes(s, JEQ);
    JumpsComplement(Staged(s, JEQ));
  }

  /** JNE as a whole step. */
  lemma JneStep(s: State)
    requires Fetches(s, JNE) && IsReg(s.ram[s.pc + 1]) && s.fl.Some?
    ensures Step(s).Ok?
    ensures Step(s).value.pc == if s.fl.value % 2 == 1 then s.pc + 2 else s.reg[s.ram[s.pc + 1]]
    ensures Step(s).value.reg == s.reg && Step(s).value.ram == s.ram
  {
    StepDecodes(s, JNE);
    JumpsComplement(Staged(s, JNE));
  }

  /** JMP: pc := register a. */
  lemma JmpStep(s: State)
    requires Fetches(s, JMP) && IsReg(s.ram[s.pc + 1])
    ensures Step(s) == Ok(s.(pc := s.reg[s.ram[s.pc + 1]], ir := Byte(Encode(JMP)),
                             a := Some(s.ram[s.pc + 1])))
  {
    StepDecodes(s, JMP);
  }

  /** CMP x, y then JEQ r branches to register r exactly when x and y were
      equal; CMP then JNE exactly when they were not. */
  lemma CmpThenBranch(s: State, jump: Op)
    requires jump == JEQ || jump == JNE
    requires Fetches(s, CMP) && s.pc + 4 < MemorySize
    requires IsReg(s.ram[s.pc + 1]) && IsReg(s.ram[s.pc + 2])
    requires s.ram[s.pc + 3] == Encode(jump) && IsReg(s.ram[s.pc + 4])
    ensures Step(s).Ok? && Step(Step(s).value).Ok?
    ensures var equal := s.reg[s.ram[s.pc + 1]] == s.reg[s.ram[s.pc + 2]];
      var branches := if jump == JEQ then equal else !equal;
      Step(Step(s).value).value.pc == if branches then s.reg[s.ram[s.pc + 4]] else s.pc + 5
  {
    var x, y := s.reg[s.ram[s.pc + 1]], s.reg[s.ram[s.pc + 2]];
    CmpStep(s);
    var t := Step(s).value;
    assert Fetches(t, jump) && t.fl == Some(CompareFlag(x, y));
    assert CompareFlag(x, y) % 2 == 1 <==> x == y;
    if jump == JEQ {
      JeqStep(t);
    } else {
      JneStep(t);
    }
  }

  // ---------------------------------------------------------- ram accessors

  /** `ram_read` after `ram_write` sees the written value at that address
      and the old contents everywhere else. */
  lemma ReadAfterWrite(s: State, address: int, value: int, other: int)
    requires Wf(s) && 0 <= address < MemorySize
    ensures WriteRam(s, address, value).Ok?
    ensures ReadRam(WriteRam(s, address, value).value, other) ==
            if other == address then Ok(value) else ReadRam(s, other)
  {
  }

  // ------------------------------------------------------------------- run

  /** The loop checks the halted flag only before polling, so the cycle that
      reads the cancellation key still executes its instruction: with the
      key first read in cycle k, exactly k + 1 instructions run. */
  lemma {:induction false} CancelledCycleStillRuns(s: State, polls: seq<bool>, k: nat)
    requires Wf(s) && k < |polls| && polls[k]
    requires forall i :: 0 <= i < k ==> !polls[i]
    requires Iterate(s, k + 1).Ok?
    ensures Run(s, false, polls) == Stopped(Iterate(s, k + 1).value, true, k + 1)
    decreases k
  {
    var st := Step(s);
    IterateOnce(s, k, st);
    RunOnce(s, polls, st);
    if k > 0 {
      assert polls[1..][k - 1] == polls[k];
      CancelledCycleStillRuns(st.value, polls[1..], k - 1);
    }
  }

  /** The first of n + 1 cycles. */
  lemma IterateOnce(s: State, n: nat, st: Result<State, Fault>)
    requires Wf(s) && st == Step(s)
    ensures Iterate(s, n + 1) == if st.Err? then Err(st.error) else Iterate(st.value, n)
    ensures Iterate(s, 1) == st
  {
  }

  /** HLT never stops the machine: without cancellation, every cycle runs
      the same HLT at the same pc and the loop only ends when the polls run
      out. */
  lemma {:induction false} RunSpinsOnHlt(s: State, polls: seq<bool>)
    requires Fetches(s, HLT)
    requires forall i :: 0 <= i < |polls| ==> !polls[i]
    ensures Run(s, false, polls) ==
            Stopped(if polls == [] then s else s.(ir := Byte(Encode(HLT))), false, |polls|)
    decreases |polls|
  {
    if polls != [] {
      HltStep(s);
      RunSpinsOnHlt(s.(ir := Byte(Encode(HLT))), polls[1..]);
    }
  }

  // ------------------------------------------------------- a sample program

  /** pc and the k cells from pc on lie in memory. */
  predicate Room(s: State, k: nat) {
    Wf(s) && 0 <= s.pc && s.pc + k <= MemorySize
  }

  /** HLT as the last of the sample program's cycles. */
  lemma HaltTail(s: State)
    requires Room(s, 1) && s.ram[s.pc] == 0x01
    ensures Iterate(s, 1).Ok?
    ensures var u := Iterate(s, 1).value; u.reg == s.reg && u.out == s.out && u.pc == s.pc
  {
    HltStep(s);
    IterateOnce(s, 0, Step(s));
  }

  /** PRN R0; HLT. */
  lemma PrintTail(s: State)
    requires Room(s, 3) && s.ram[s.pc] == 0x47 && s.ram[s.pc + 1] == 0 && s.ram[s.pc + 2] == 0x01
    ensures Iterate(s, 2).Ok?
    ensures var u := Iterate(s, 2).value;
      u.reg == s.reg && u.out == s.out + [s.reg[0]] && u.pc == s.pc + 2
  {
    PrnStep(s);
    var t := Step(s).value;
    HaltTail(t);
    IterateOnce(s, 1, Step(s));
  }

  /** ADD R0,R1; PRN R0; HLT. */
  lemma AddTail(s: State)
    requires Room(s, 6) && s.ram[s.pc] == 0xA0 && s.ram[s.pc + 1] == 0 && s.ram[s.pc + 2] == 1
    requires s.ram[s.pc + 3] == 0x47 && s.ram[s.pc + 4] == 0 && s.ram[s.pc + 5] == 0x01
    ensures Iterate(s, 3).Ok?
    ensures var u, sum := Iterate(s, 3).value, s.reg[0] + s.reg[1];
      u.reg == s.reg[0 := sum] && u.out == s.out + [sum] && u.pc == s.pc + 5
  {
    StepDecodes(s, ADD);
    AddEffect(Staged(s, ADD));
    var t := Step(s).value;
    PrintTail(t);
    IterateOnce(s, 2, Step(s));
  }

  /** The sample program's tail ADD R0,R1; PRN R0; HLT, run until the
      cancellation key is read in the third cycle: R0 holds the sum, the
      sum has been printed once, and pc rests on the HLT. */
  lemma SumAndPrint(s: State)
    requires Room(s, 6) && s.ram[s.pc] == 0xA0 && s.ram[s.pc + 1] == 0 && s.ram[s.pc + 2] == 1
    requires s.ram[s.pc + 3] == 0x47 && s.ram[s.pc + 4] == 0 && s.ram[s.pc + 5] == 0x01
    ensures var o, sum := Run(s, false, [false, false, true]), s.reg[0] + s.reg[1];
      && o.Stopped? && o.halted && o.steps == 3
      && o.state.reg == s.reg[0 := sum] && o.state.out == s.out + [sum] && o.state.pc == s.pc + 5
  {
    AddTail(s);
    CancelledCycleStillRuns(s, [false, false, true], 2);
  }

  /** LDI R0,8; LDI R1,9; ADD R0,R1; PRN R0; HLT, from address 0. */
  function SampleCode(): seq<int> {
    [0x82, 0, 8, 0x82, 1, 9, 0xA0, 0, 1, 0x47, 0, 0x01]
  }

  /** A new machine with the sample program loaded. */
  function SampleMachine(): (s: State)
    ensures Wf(s) && s.pc == 0 && s.out == [] && s.ram[..12] == SampleCode()
  {
    var s := Init().(ram := SampleCode() + seq(MemorySize - 12, _ => 0));
    assert s.ram[..12] == SampleCode();
    s
  }

  /** The state an LDI cycle leaves: register a := the immediate byte,
      pc += 3, both operands staged. */
  function AfterLdi(s: State): (t: State)
    requires Fetches(s, LDI) && IsReg(s.ram[s.pc + 1])
    ensures Wf(t)
  {
    var ra, v := s.ram[s.pc + 1], s.ram[s.pc + 2];
    s.(reg := s.reg[ra := v], pc := s.pc + 3, ir := Byte(Encode(LDI)), a := Some(ra), b := Some(v))
  }

  /** An LDI as the first of n + 1 cycles. */
  lemma LdiFirst(s: State, n: nat)
    requires Fetches(s, LDI) && IsReg(s.ram[s.pc + 1])
    ensures Iterate(s, n + 1) == Iterate(AfterLdi(s), n)
  {
    LdiStep(s);
    IterateOnce(s, n, Step(s));
  }

  /** Where the sample program's two loads leave a machine that holds it
      from address 0: R0 = 8, R1 = 9, pc on the ADD, memory untouched. */
  lemma SampleLoads(s: State)
    requires Wf(s) && s.pc == 0 && s.ram[..12] == SampleCode()
    ensures Fetches(s, LDI) && IsReg(s.ram[s.pc + 1])
    ensures Fetches(AfterLdi(s), LDI) && IsReg(AfterLdi(s).ram[AfterLdi(s).pc + 1])
    ensures var u := AfterLdi(AfterLdi(s));
      && u.reg[0] == 8 && u.reg[1] == 9 && u.pc == 6 && u.out == s.out && u.ram == s.ram
      && Room(u, 6) && u.ram[6] == 0xA0 && u.ram[7] == 0 && u.ram[8] == 1
      && u.ram[9] == 0x47 && u.ram[10] == 0 && u.ram[11] == 0x01
  {
    assert s.ram[0] == 0x82 && s.ram[1] == 0 && s.ram[2] == 8 && s.ram[3] == 0x82 && s.ram[4] == 1;
    assert s.ram[5] == 9 && s.ram[6] == 0xA0 && s.ram[7] == 0 && s.ram[8] == 1;
    assert s.ram[9] == 0x47 && s.ram[10] == 0 && s.ram[11] == 0x01;
  }

  /** The sample program's five cycles from address 0: R0 ends as 8 + 9
      = 17, it is printed once, and pc rests on the HLT. */
  lemma SampleCycles(s: State)
    requires Wf(s) && s.pc == 0 && s.ram[..12] == SampleCode()
    ensures Iterate(s, 5).Ok?
    ensures var u := Iterate(s, 5).value; u.reg[0] == 17 && u.out == s.out + [17] && u.pc == 11
  {
    SampleLoads(s);
    var s1 := AfterLdi(s);
    AddTail(AfterLdi(s1));
    LdiFirst(s1, 3);
    LdiFirst(s, 4);
  }

  /** The sample program run until the stop key is read in the fifth
      cycle, on any machine that holds it from address 0 (a new one, as
      `SampleMachine` shows, among them): R0 holds 8 + 9 = 17, exactly `17`
      has been printed, and pc rests on the HLT. */
  lemma SampleProgram(s: State)
    requires Wf(s) && s.pc == 0 && s.ram[..12] == SampleCode()
    ensures var o := Run(s, false, [false, false, false, false, true]);
      && o.Stopped? && o.halted && o.steps == 5
      && o.state.reg[0] == 17 && o.state.out == s.out + [17] && o.state.pc == 11
  {
    SampleCycles(s);
    CancelledCycleStillRuns(s, [false, false, false, false, true], 4);
  }
}
