/** The LS-8 emulator as the object it is: a register file and a memory that
    the handlers update in place, and the scalar fields pc, FL, ir, a, b and
    halted. Every method is proved to change the object exactly as the
    matching function of `Machine` says, read through `Snapshot()`. */
module Cpu {
  import opened Wrappers
  import opened Bits
  import opened Machine
  import Opcodes
  import Loader

  class CPU {
    const register: array<int>
    const ram: array<int>
    var pc: int
    var FL: Option<int>
    var ir: Ir
    var a: Option<int>
    var b: Option<int>
    var halted: bool
    /** What PRN has printed, one value per PRN. */
    var output: seq<int>

    /** The register file has eight slots and the memory 256 cells. */
    predicate Valid() {
      register.Length == RegisterCount && ram.Length == MemorySize
    }

    /** The object's state as a `Machine.State` value. */
    function Snapshot(): (s: State)
      reads this, register, ram
      requires Valid()
      ensures Wf(s)
    {
      State(register[..], ram[..], pc, FL, ir, a, b, output)
    }

    /** The new state, or the fault a method reported. */
    function Outcome(fault: Option<Fault>): Result<State, Fault>
      reads this, register, ram
      requires Valid()
    {
      if fault.None? then Ok(Snapshot()) else Err(fault.value)
    }

    /** `__init__`: all registers 0 except SP = 0xF4, 256 zero cells, pc 0,
        nothing staged, not halted. */
    constructor ()
      ensures Valid() && fresh(register) && fresh(ram)
      ensures Snapshot() == Machine.Init() && !halted
      ensures forall i :: 0 <= i < RegisterCount ==> register[i] == (if i == SP then 0xF4 else 0)
      ensures forall i :: 0 <= i < MemorySize ==> ram[i] == 0
      ensures pc == 0 && FL.None? && a.None? && b.None?
    {
      var r := new int[RegisterCount](_ => 0);
      register := r;
      ram := new int[MemorySize](_ => 0);
      pc := 0;
      halted := false;
      ir := NoIr;
      FL := None;
      a := None;
      b := None;
      output := [];
      r[SP] := StackStart;
    }

    /** `ram_read`: the cell at an address; an address outside memory is
        an index fault. */
    function RamRead(address: int): (r: Result<int, Fault>)
      reads this, ram
      requires Valid()
      ensures r.Ok? <==> 0 <= address < MemorySize
      ensures r.Ok? ==> r.value == ram[address]
      ensures r.Err? ==> r.error == BadAddress(address)
    {
      if 0 <= address < MemorySize then Ok(ram[address]) else Err(BadAddress(address))
    }

    /** `ram_write`: one cell changes. */
    method RamWrite(address: int, value: int)
      requires Valid() && 0 <= address < MemorySize
      modifies ram
      ensures ram[..] == old(ram[..])[address := value]
    {
      ram[address] := value;
    }

    /** `alu`: the operation named by `ir` on registers a and b. */
    method Alu() returns (fault: Option<Fault>)
      requires Valid()
      modifies this, register
      ensures halted == old(halted)
      ensures Outcome(fault) == Machine.Alu(old(Snapshot()))
    {
      var op := AluOpOf(ir);
      if op.None? {
        return Some(UnsupportedAluOp(ir));
      }
      if !(a.Some? && 0 <= a.value < RegisterCount) {
        return Some(BadRegister(a));
      }
      var i := a.value;
      if op.value == AluNot {
        register[i] := BitNot(register[i]);
        return None;
      }
      if !(b.Some? && 0 <= b.value < RegisterCount) {
        return Some(BadRegister(b));
      }
      var j := b.value;
      fault := None;
      match op.value {
        case AluAdd => register[i] := register[i] + register[j];
        case AluMul => register[i] := register[i] * register[j];
        case AluCmp =>
          if register[i] == register[j] {
            FL := Some(0x01);
          } else if register[i] > register[j] {
            FL := Some(0x02);
          } else if register[i] < register[j] {
            FL := Some(0x04);
          }
        case AluAnd => register[i] := BitAnd(register[i], register[j]);
        case AluOr => register[i] := BitOr(register[i], register[j]);
        case AluXor => register[i] := BitXor(register[i], register[j]);
        case AluShl =>
          if register[j] < 0 {
            fault := Some(NegativeShift(register[j]));
          } else {
            register[i] := ShiftLeft(register[i], register[j]);
          }
        case AluShr =>
          if register[j] < 0 {
            fault := Some(NegativeShift(register[j]));
          } else {
            register[i] := ShiftRight(register[i], register[j]);
          }
        case AluMod =>
          if register[j] == 0 {
            fault := Some(ZeroDivision);
          } else {
            register[i] := FloorMod(register[i], register[j]);
          }
      }
    }

    method Add() returns (fault: Option<Fault>)
      requires Valid()
      modifies this, register
      ensures halted == old(halted)
      ensures Outcome(fault) == Machine.Add(old(Snapshot()))
    {
      ir := Tag(AluAdd);
      fault := Alu();
      if fault.None? {
        pc := pc + 3;
      }
    }

    method And8() returns (fault: Option<Fault>)
      requires Valid()
      modifies this, register
      ensures halted == old(halted)
      ensures Outcome(fault) == Machine.And(old(Snapshot()))
    {
      ir := Tag(AluAnd);
      fault := Alu();
    }

    method Mul() returns (fault: Option<Fault>)
      requires Valid()
      modifies this, register
      ensures halted == old(halted)
      ensures Outcome(fault) == Machine.Mul(old(Snapshot()))
    {
      ir := Tag(AluMul);
      fault := Alu();
      if fault.None? {
        pc := pc + 3;
      }
    }

    method Cmp8() returns (fault: Option<Fault>)
      requires Valid()
      modifies this, register
      ensures halted == old(halted)
      ensures Outcome(fault) == Machine.Cmp(old(Snapshot()))
    {
      ir := Tag(AluCmp);
      fault := Alu();
      if fault.None? {
        pc := pc + 3;
      }
    }

    method Call() returns (fault: Option<Fault>)
      requires Valid()
      modifies this, register, ram
      ensures halted == old(halted)
      ensures Outcome(fault) == Machine.Call(old(Snapshot()))
    {
      register[SP] := register[SP] - 1;
      if !(0 <= register[SP] < MemorySize) {
        return Some(BadAddress(register[SP]));
      }
      RamWrite(register[SP], pc + 2);
      if !(a.Some? && 0 <= a.value < RegisterCount) {
        return Some(BadRegister(a));
      }
      pc := register[a.value];
      fault := None;
    }

    method Hlt() returns (fault: Option<Fault>)
      requires Valid()
      ensures Outcome(fault) == Machine.Hlt(Snapshot())
    {
      fault := None;
    }

    method Jeq() returns (fault: Option<Fault>)
      requires Valid()
      modifies this
      ensures halted == old(halted)
      ensures Outcome(fault) == Machine.Jeq(old(Snapshot()))
    {
      if FL.None? {
        return Some(UnsetFlags);
      }
      if LowBit(FL.value) == 1 {
        if !(a.Some? && 0 <= a.value < RegisterCount) {
          return Some(BadRegister(a));
        }
        pc := register[a.value];
      } else {
        pc := pc + 2;
      }
      fault := None;
    }

    method Jne() returns (fault: Option<Fault>)
      requires Valid()
      modifies this
      ensures halted == old(halted)
      ensures Outcome(fault) == Machine.Jne(old(Snapshot()))
    {
      if FL.None? {
        return Some(UnsetFlags);
      }
      if LowBit(FL.value) == 0 {
        if !(a.Some? && 0 <= a.value < RegisterCount) {
          return Some(BadRegister(a));
        }
        pc := register[a.value];
      } else {
        pc := pc + 2;
      }
      fault := None;
    }

    method Jmp() returns (fault: Option<Fault>)
      requires Valid()
      modifies this
      ensures halted == old(halted)
      ensures Outcome(fault) == Machine.Jmp(old(Snapshot()))
    {
      if !(a.Some? && 0 <= a.value < RegisterCount) {
        return Some(BadRegister(a));
      }
      pc := register[a.value];
      fault := None;
    }

    method Ldi() returns (fault: Option<Fault>)
      requires Valid()
      modifies this, register
      ensures halted == old(halted)
      ensures Outcome(fault) == Machine.Ldi(old(Snapshot()))
    {
      if b.None? {
        return Some(UnsetOperand);
      }
      if !(a.Some? && 0 <= a.value < RegisterCount) {
        return Some(BadRegister(a));
      }
      register[a.value] := b.value;
      pc := pc + 3;
      fault := None;
    }

    method Pop() returns (fault: Option<Fault>)
      requires Valid()
      modifies this, register
      ensures halted == old(halted)
      ensures Outcome(fault) == Machine.Pop(old(Snapshot()))
    {
      if !(0 <= register[SP] < MemorySize) {
        return Some(BadAddress(register[SP]));
      }
      var value := ram[register[SP]];
      if !(a.Some? && 0 <= a.value < RegisterCount) {
        return Some(BadRegister(a));
      }
      register[a.value] := value;
      register[SP] := register[SP] + 1;
      pc := pc + 2;
      fault := None;
    }

    method Prn() returns (fault: Option<Fault>)
      requires Valid()
      modifies this
      ensures halted == old(halted)
      ensures Outcome(fault) == Machine.Prn(old(Snapshot()))
    {
      if !(a.Some? && 0 <= a.value < RegisterCount) {
        return Some(BadRegister(a));
      }
      output := output + [register[a.value]];
      pc := pc + 2;
      fault := None;
    }

    method Push() returns (fault: Option<Fault>)
      requires Valid()
      modifies this, register, ram
      ensures halted == old(halted)
      ensures Outcome(fault) == Machine.Push(old(Snapshot()))
    {
      register[SP] := register[SP] - 1;
      if !(a.Some? && 0 <= a.value < RegisterCount) {
        return Some(BadRegister(a));
      }
      var value := register[a.value];
      if !(0 <= register[SP] < MemorySize) {
        return Some(BadAddress(register[SP]));
      }
      ram[register[SP]] := value;
      pc := pc + 2;
      fault := None;
    }

    method Ret() returns (fault: Option<Fault>)
      requires Valid()
      modifies this, register
      ensures halted == old(halted)
      ensures Outcome(fault) == Machine.Ret(old(Snapshot()))
    {
      var target := RamRead(register[SP]);
      if target.Err? {
        return Some(target.error);
      }
      pc := target.value;
      register[SP] := register[SP] + 1;
      fault := None;
    }

    method St() returns (fault: Option<Fault>)
      requires Valid()
      modifies ram
      ensures Outcome(fault) == Machine.St(old(Snapshot()))
    {
      if !(b.Some? && 0 <= b.value < RegisterCount) {
        return Some(BadRegister(b));
      }
      if !(a.Some? && 0 <= a.value < RegisterCount) {
        return Some(BadRegister(a));
      }
      if !(0 <= register[b.value] < MemorySize) {
        return Some(BadAddress(register[b.value]));
      }
      RamWrite(register[b.value], register[a.value]);
      fault := None;
    }

    /** `set_ab`: stage the operand bytes after pc. */
    method SetAb(opcount: int) returns (fault: Option<Fault>)
      requires Valid()
      modifies this
      ensures halted == old(halted)
      ensures Outcome(fault) == Machine.Stage(old(Snapshot()), opcount)
    {
      fault := None;
      if opcount == 1 || opcount == 2 {
        var x := RamRead(pc + 1);
        if x.Err? {
          return Some(x.error);
        }
        a := Some(x.value);
      }
      if opcount == 2 {
        var y := RamRead(pc + 2);
        if y.Err? {
          return Some(y.error);
        }
        b := Some(y.value);
      }
    }

    /** One cycle of `run` after the cancellation poll: fetch, stage,
        dispatch through the branch table. */
    method Step() returns (fault: Option<Fault>)
      requires Valid()
      modifies this, register, ram
      ensures halted == old(halted)
      ensures Outcome(fault) == Machine.Step(old(Snapshot()))
    {
      if !(0 <= pc < MemorySize) {
        return Some(BadAddress(pc));
      }
      var IR := ram[pc];
      var opcount := ShiftRight(IR, 6);
      ir := Byte(IR);
      fault := SetAb(opcount);
      if fault.Some? {
        return;
      }
      var op := Opcodes.Decode(IR);
      if op.None? {
        return Some(UnknownOpcode(IR));
      }
      match op.value {
        case ADD => fault := Add();
        case AND => fault := And8();
        case CALL => fault := Call();
        case CMP => fault := Cmp8();
        case HLT => fault := Hlt();
        case JEQ => fault := Jeq();
        case JNE => fault := Jne();
        case JMP => fault := Jmp();
        case LDI => fault := Ldi();
        case MUL => fault := Mul();
        case POP => fault := Pop();
        case PRN => fault := Prn();
        case PUSH => fault := Push();
        case RET => fault := Ret();
        case ST => fault := St();
      }
    }

    /** `run`, bounded by the polls: cycle i first reads `polls[i]` (the
        cancellation key was pressed) into `halted`, then executes one
        instruction; the loop ends once `halted` is set, when the polls run
        out, or on a fault. `steps` counts the completed cycles. */
    method Run(polls: seq<bool>) returns (fault: Option<Fault>, steps: nat)
      requires Valid()
      modifies this, register, ram
      ensures Machine.Run(old(Snapshot()), old(halted), polls) ==
              if fault.None? then Stopped(Snapshot(), halted, steps) else Faulted(fault.value, steps)
    {
      fault, steps := None, 0;
      while !halted && steps < |polls|
        invariant steps <= |polls|
        invariant Machine.Run(old(Snapshot()), old(halted), polls) ==
                  Later(steps, Machine.Run(Snapshot(), halted, polls[steps..]))
      {
        ghost var before := Snapshot();
        ghost var rest := polls[steps..];
        assert rest[1..] == polls[steps + 1..];
        if polls[steps] {
          halted := true;
        }
        var f := Step();
        RunOnce(before, rest, Outcome(f));
        if f.Some? {
          return f, steps;
        }
        assert halted == polls[steps];
        ghost var next := Machine.Run(Snapshot(), halted, polls[steps + 1..]);
        assert Machine.Run(before, false, rest) == Later(1, next);
        LaterLater(steps, next);
        steps := steps + 1;
      }
    }

    /** The line-parsing loop of `load`: each line that is not a comment or
        blank is parsed from its first eight characters as base 2 and written
        to the next address from 0. */
    method Load(lines: seq<string>) returns (error: Option<Loader.LoadError>)
      requires Valid()
      modifies ram
      ensures error.None? ==> Loader.Load(old(ram[..]), lines) == Ok(ram[..])
      ensures error.Some? ==> Loader.Load(old(ram[..]), lines) == Err(error.value)
    {
      var address := 0;
      for i := 0 to |lines|
        invariant 0 <= address <= MemorySize
        invariant Loader.Load(old(ram[..]), lines) == Loader.LoadFrom(ram[..], lines[i..], address)
      {
        assert lines[i..][1..] == lines[i + 1..];
        var line := lines[i];
        if |line| == 0 {
          return Some(Loader.EmptyLine);
        }
        if line[0] == '#' || line[0] == '\n' {
          continue;
        }
        var value := Loader.ParseBinary(Loader.Head8(line));
        if value.None? {
          return Some(Loader.NotBinary(Loader.Head8(line)));
        }
        if address == MemorySize {
          return Some(Loader.MemoryFull);
        }
        ghost var before := ram[..];
        assert Loader.LoadFrom(before, lines[i..], address)
            == Loader.LoadFrom(before[address := value.value], lines[i + 1..], address + 1);
        ram[address] := value.value;
        assert ram[..] == before[address := value.value];
        address := address + 1;
      }
      assert lines[|lines|..] == [];
      error := None;
    }
  }
}
