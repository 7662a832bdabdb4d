/**
 The command decoder as the player runs it: fields are pulled out of the
 instruction word one at a time while the registers change underneath.
 Every method is proved equal to the meaning given in module Decoder.
*/
module Interpreter {
  import opened Bits
  import opened Decoder

  /** The bounds outside which vm_getbits aborts the program. */
  predicate InRange(start: int, count: int) {
    0 <= start <= 63 && 0 <= count <= 32 && start - count >= -1
  }

  class Command {
    const instruction: u64
    const env: Env
    var examined: nat
    var registers: Registers

    constructor (instruction: u64, env: Env, registers: Registers)
      ensures this.instruction == instruction && this.env == env
      ensures this.registers == registers && examined == 0
    {
      this.instruction := instruction;
      this.env := env;
      this.registers := registers;
      this.examined := 0;
    }

    method GetBits(start: int, count: int) returns (value: nat)
      requires count == 0 || InRange(start, count)
      modifies this`examined
      ensures count == 0 ==> value == 0 && examined == old(examined)
      ensures count > 0 ==> value == Slice(instruction, start, count)
      ensures count > 0 ==> forall i: nat ::
        Bit(examined, i) <==> Bit(old(examined), i) || start - count < i <= start
    {
      if count == 0 {
        return 0;
      }
      var mask := Shr(Not64(0), 63 - start);
      var bits := start + 1 - count;
      var examining := Shl64(Shr(mask, bits), bits);
      OnesShifted(start);
      SliceByMask(instruction, start, count);
      FieldMark(start, count);
      MarkedBits(examined, start, count);
      examined := Or(examined, examining);
      var result := Shr(And(instruction, mask), bits);
      Pow2At32();
      Pow2AtMost(count, 32);
      value := result % TWO32;
    }

    /** vm_getbits for the fields that fit a register. */
    method Get(start: int, count: int) returns (value: u16)
      requires 0 < count <= 16 && InRange(start, count)
      modifies this`examined
      ensures value == Field(instruction, start, count)
    {
      var bits := GetBits(start, count);
      assert bits == Field(instruction, start, count);
      value := bits;
    }

    method GetGPRM(reg: nibble) returns (value: u16)
      modifies this`registers
      ensures value == GeneralValue(old(registers), env, reg)
      ensures registers == AfterRead(old(registers), env, reg)
    {
      if registers.counter[reg] {
        var sec := env.now.sec - registers.base[reg].sec;
        var usec := env.now.usec - registers.base[reg].usec;
        if usec < 0 {
          sec := sec - 1;
          usec := usec + 1000000;
        }
        value := sec % TWO16;
        registers := registers.(gprm := registers.gprm[reg := value]);
      } else {
        value := registers.gprm[reg];
      }
    }

    method SetGPRM(reg: nibble, value: u16)
      modifies this`registers
      ensures registers == SetGeneral(old(registers), env, reg, value)
    {
      if registers.counter[reg] {
        registers := registers.(base := registers.base[reg := env.now]);
        registers := registers.(base := registers.base[reg := Time(registers.base[reg].sec - value, env.now.usec)]);
      }
      registers := registers.(gprm := registers.gprm[reg := value]);
    }

    method EvalReg(code: u16) returns (value: u16)
      requires code < 256
      modifies this`registers
      ensures value == OperandValue(old(registers), env, DecodeRegister(code))
      ensures registers == AfterOperand(old(registers), env, DecodeRegister(code))
    {
      if code >= 0x80 {
        AndOnes(code, 5);
        var n := And(code, 0x1f);
        value := if n < 24 then registers.sprm[n] else env.stray(n);
      } else {
        AndOnes(code, 4);
        var n := And(code, 0x0f);
        value := GetGPRM(n);
      }
    }

    method EvalRegOrData(imm: bool, start: int) returns (value: u16)
      requires 15 <= start <= 63
      modifies this
      ensures value == OperandValue(old(registers), env, DecodeOperand(instruction, imm, start))
      ensures registers == AfterOperand(old(registers), env, DecodeOperand(instruction, imm, start))
    {
      if imm {
        value := Get(start, 16);
      } else {
        var code := Get(start - 8, 8);
        value := EvalReg(code);
      }
    }

    method EvalRegOrData2(imm: bool, start: int, n: nat) returns (value: u16)
      requires 1 <= n <= 3 && start == 47 - 8 * n
      requires Flag(instruction, start) && imm == Flag(instruction, 60)
      modifies this
      ensures var o := DecodeStream(instruction, n).value;
        value == OperandValue(old(registers), env, o) && registers == AfterOperand(old(registers), env, o)
    {
      if imm {
        value := Get(start - 1, 7);
      } else {
        var reg := Get(start - 4, 4);
        value := GetGPRM(reg);
      }
    }

    method EvalIfVersion1() returns (cond: bool)
      modifies this
      ensures cond == TestValue(old(registers), env, DecodeTest1(instruction))
      ensures registers == AfterTest(old(registers), env, DecodeTest1(instruction))
    {
      var op := Get(54, 3);
      if op == 0 {
        return true;
      }
      var code := Get(39, 8);
      var lhs := EvalReg(code);
      var imm := Get(55, 1);
      var rhs := EvalRegOrData(imm != 0, 31);
      cond := Holds(op, lhs, rhs);
    }

    method EvalIfVersion2() returns (cond: bool)
      modifies this
      ensures cond == TestValue(old(registers), env, DecodeTest2(instruction))
      ensures registers == AfterTest(old(registers), env, DecodeTest2(instruction))
    {
      var op := Get(54, 3);
      if op == 0 {
        return true;
      }
      var code := Get(15, 8);
      var lhs := EvalReg(code);
      code := Get(7, 8);
      var rhs := EvalReg(code);
      cond := Holds(op, lhs, rhs);
    }

    method EvalIfVersion3() returns (cond: bool)
      modifies this
      ensures cond == TestValue(old(registers), env, DecodeTest3(instruction))
      ensures registers == AfterTest(old(registers), env, DecodeTest3(instruction))
    {
      var op := Get(54, 3);
      if op == 0 {
        return true;
      }
      var code := Get(47, 8);
      var lhs := EvalReg(code);
      var imm := Get(55, 1);
      var rhs := EvalRegOrData(imm != 0, 15);
      cond := Holds(op, lhs, rhs);
    }

    method EvalIfVersion4() returns (cond: bool)
      modifies this
      ensures cond == TestValue(old(registers), env, DecodeTest4(instruction))
      ensures registers == AfterTest(old(registers), env, DecodeTest4(instruction))
    {
      var op := Get(54, 3);
      if op == 0 {
        return true;
      }
      var code := Get(51, 4);
      var lhs := EvalReg(code);
      var imm := Get(55, 1);
      var rhs := EvalRegOrData(imm != 0, 31);
      cond := Holds(op, lhs, rhs);
    }

    /** The line to continue on: 0 for the next one, 256 for Break. */
    method EvalSpecialInstruction(cond: bool) returns (line: nat)
      modifies this
      ensures ExecuteSpecial(old(registers), cond, DecodeSpecial(instruction)) == Effect(registers, Line(line))
    {
      var op := Get(51, 4);
      match op
      case 1 =>
        var target := Get(7, 8);
        return if cond then target else 0;
      case 2 =>
        return if cond then 256 else 0;
      case 3 =>
        var target := Get(7, 8);
        var level := Get(11, 4);
        if cond {
          registers := registers.(sprm := registers.sprm[13 := level]);
        }
        return if cond then target else 0;
      case _ =>
        return 0;
    }

    method EvalLinkSubins(cond: bool) returns (taken: bool, link: Link)
      modifies this`examined
      ensures TakeIf(cond, DecodeSubLink(instruction)) == if taken then Take(link) else Fall
    {
      var button := Get(15, 6);
      var linkop := Get(4, 5);
      if linkop > 0x10 {
        return false, NO_LINK;
      }
      return cond, Link(SubCommand(linkop), button, 0, 0);
    }

    method EvalLinkInstruction(cond: bool) returns (taken: bool, link: Link)
      modifies this`examined
      ensures TakeIf(cond, DecodeLink(instruction)) == if taken then Take(link) else Fall
    {
      var op := Get(51, 4);
      taken, link := cond, NO_LINK;
      match op
      case 1 =>
        taken, link := EvalLinkSubins(cond);
      case 4 =>
        var pgcn := Get(14, 15);
        link := Link(LinkPGCN, pgcn, 0, 0);
      case 5 =>
        var part := Get(9, 10);
        var button := Get(15, 6);
        link := Link(LinkPTTN, part, button, 0);
      case 6 =>
        var pgn := Get(6, 7);
        var button := Get(15, 6);
        link := Link(LinkPGN, pgn, button, 0);
      case 7 =>
        var cell := Get(7, 8);
        var button := Get(15, 6);
        link := Link(LinkCN, cell, button, 0);
      case _ =>
        taken := false;
    }

    method EvalJumpInstruction(cond: bool) returns (taken: bool, link: Link)
      modifies this`examined
      ensures TakeIf(cond, DecodeJump(instruction)) == if taken then Take(link) else Fall
    {
      var op := Get(51, 4);
      taken, link := cond, NO_LINK;
      match op
      case 1 =>
        link := Link(Exit, 0, 0, 0);
      case 2 =>
        var title := Get(22, 7);
        link := Link(JumpTT, title, 0, 0);
      case 3 =>
        var title := Get(22, 7);
        link := Link(JumpVTS_TT, title, 0, 0);
      case 5 =>
        var title := Get(22, 7);
        var part := Get(41, 10);
        link := Link(JumpVTS_PTT, title, part, 0);
      case 6 =>
        link := GetJumpSS();
      case 8 =>
        link := GetCallSS();
      case _ =>
        taken := false;
    }

    method GetJumpSS() returns (link: Link)
      requires Field(instruction, 51, 4) == 6
      modifies this`examined
      ensures DecodeJump(instruction) == Some(link)
    {
      var kind := Get(23, 2);
      match kind
      case 0 =>
        link := Link(JumpSS_FP, 0, 0, 0);
      case 1 =>
        var menu := Get(19, 4);
        link := Link(JumpSS_VMGM_MENU, menu, 0, 0);
      case 2 =>
        var vts := Get(31, 8);
        var title := Get(39, 8);
        var menu := Get(19, 4);
        link := Link(JumpSS_VTSM, vts, title, menu);
      case _ =>
        var pgcn := Get(46, 15);
        link := Link(JumpSS_VMGM_PGC, pgcn, 0, 0);
    }

    method GetCallSS() returns (link: Link)
      requires Field(instruction, 51, 4) == 8
      modifies this`examined
      ensures DecodeJump(instruction) == Some(link)
    {
      var kind := Get(23, 2);
      var target, cell;
      match kind
      case 0 =>
        cell := Get(31, 8);
        link := Link(CallSS_FP, cell, 0, 0);
      case 1 =>
        target := Get(19, 4);
        cell := Get(31, 8);
        link := Link(CallSS_VMGM_MENU, target, cell, 0);
      case 2 =>
        target := Get(19, 4);
        cell := Get(31, 8);
        link := Link(CallSS_VTSM, target, cell, 0);
      case _ =>
        target := Get(46, 15);
        cell := Get(31, 8);
        link := Link(CallSS_VMGM_PGC, target, cell, 0);
    }

    method EvalStreams(cond: bool)
      requires DecodeSystem(instruction).Streams?
      modifies this
      ensures registers == ExecuteSystem(old(registers), env, cond, DecodeSystem(instruction))
    {
      ghost var streams := DecodeSystem(instruction).streams;
      for i := 1 to 4
        invariant registers == ExecuteStreams(old(registers), env, cond, streams, i - 1)
      {
        var selected := Get(63 - (2 + i) * 8, 1);
        if selected != 0 {
          var imm := Get(60, 1);
          var data := EvalRegOrData2(imm != 0, 47 - i * 8, i);
          if cond {
            registers := registers.(sprm := registers.sprm[i := data]);
          }
        }
      }
    }

    method EvalMode(cond: bool)
      requires DecodeSystem(instruction).Mode?
      modifies this
      ensures registers == ExecuteSystem(old(registers), env, cond, DecodeSystem(instruction))
    {
      var imm := Get(60, 1);
      var data := EvalRegOrData(imm != 0, 47);
      var reg := Get(19, 4);
      var toCounter := Get(23, 1);
      registers := registers.(counter := registers.counter[reg := toCounter != 0]);
      if cond {
        SetGPRM(reg, data);
      }
    }

    method EvalSystemRegisters(cond: bool)
      modifies this
      ensures registers == ExecuteSystem(old(registers), env, cond, DecodeSystem(instruction))
    {
      var op := Get(59, 4);
      match op
      case 1 =>
        EvalStreams(cond);
      case 2 =>
        var imm := Get(60, 1);
        var data := EvalRegOrData(imm != 0, 47);
        var data2 := Get(23, 8);
        if cond {
          registers := registers.(sprm := registers.sprm[9 := data][10 := data2]);
        }
      case 3 =>
        EvalMode(cond);
      case 6 =>
        var imm := Get(60, 1);
        var data := EvalRegOrData(imm != 0, 31);
        if cond {
          registers := registers.(sprm := registers.sprm[8 := data]);
        }
      case _ =>
    }

    method EvalSystemSet(cond: bool) returns (taken: bool, link: Link)
      modifies this
      ensures registers == ExecuteSystem(old(registers), env, cond, DecodeSystem(instruction))
      ensures TakeIf(cond, DecodeLink(instruction)) == if taken then Take(link) else Fall
    {
      EvalSystemRegisters(cond);
      var linkop := Get(51, 4);
      taken, link := false, NO_LINK;
      if linkop != 0 {
        taken, link := EvalLinkInstruction(cond);
      }
    }

    method MultiplyInto(reg: nibble, data: u16)
      modifies this`registers
      ensures registers == SetGeneral(old(registers), env, reg, Multiply(GeneralValue(old(registers), env, reg), data))
    {
      var a := GetGPRM(reg);
      var tmp := Wrap32(a * data);
      if tmp > 0xffff {
        tmp := 0xffff;
      }
      SetGPRM(reg, tmp % TWO16);
    }

    method DivideInto(reg: nibble, data: u16)
      modifies this`registers
      ensures registers == SetGeneral(old(registers), env, reg, Divide(GeneralValue(old(registers), env, reg), data))
    {
      if data != 0 {
        var a := GetGPRM(reg);
        var quotient: u16 := Divide(a, data);
        SetGPRM(reg, quotient);
      } else {
        SetGPRM(reg, 0xffff);
      }
    }

    method RemainderInto(reg: nibble, data: u16)
      modifies this`registers
      ensures registers == SetGeneral(old(registers), env, reg, Remainder(GeneralValue(old(registers), env, reg), data))
    {
      if data != 0 {
        var a := GetGPRM(reg);
        SetGPRM(reg, a % data);
      } else {
        SetGPRM(reg, 0xffff);
      }
    }

    method EvalSetOp(op: nibble, reg: nibble, reg2: nibble, data: u16)
      modifies this`registers
      ensures registers == ApplySet(old(registers), env, op, reg, reg2, data)
    {
      match op
      case 1 =>
        SetGPRM(reg, data);
      case 2 =>
        var a := GetGPRM(reg);
        SetGPRM(reg2, a);
        SetGPRM(reg, data);
      case 3 =>
        var a := GetGPRM(reg);
        var tmp := a + data;
        if tmp > 0xffff { tmp := 0xffff; }
        SetGPRM(reg, tmp);
      case 4 =>
        var a := GetGPRM(reg);
        var tmp := a - data;
        if tmp < 0 { tmp := 0; }
        SetGPRM(reg, tmp);
      case 5 =>
        MultiplyInto(reg, data);
      case 6 =>
        DivideInto(reg, data);
      case 7 =>
        RemainderInto(reg, data);
      case 8 =>
        SetGPRM(reg, env.random);
      case 9 =>
        var a := GetGPRM(reg);
        SetGPRM(reg, And(a, data) % TWO16);
      case 10 =>
        var a := GetGPRM(reg);
        SetGPRM(reg, Or(a, data) % TWO16);
      case 11 =>
        var a := GetGPRM(reg);
        SetGPRM(reg, Xor(a, data) % TWO16);
      case _ =>
    }

    method EvalSetVersion1(cond: bool)
      modifies this
      ensures registers == ExecuteSet(old(registers), env, cond, DecodeSet1(instruction))
    {
      var op := Get(59, 4);
      var reg := Get(35, 4);
      var reg2 := Get(19, 4);
      var imm := Get(60, 1);
      var data := EvalRegOrData(imm != 0, 31);
      if cond {
        EvalSetOp(op, reg, reg2, data);
      }
    }

    method EvalSetVersion2(cond: bool)
      modifies this
      ensures registers == ExecuteSet(old(registers), env, cond, DecodeSet2(instruction))
    {
      var op := Get(59, 4);
      var reg := Get(51, 4);
      var reg2 := Get(35, 4);
      var imm := Get(60, 1);
      var data := EvalRegOrData(imm != 0, 47);
      if cond {
        EvalSetOp(op, reg, reg2, data);
      }
    }

    method EvalLinkOrJump() returns (taken: bool, link: Link)
      requires Field(instruction, 63, 3) == 1
      modifies this
      ensures Execute(old(registers), env, Decode(instruction))
           == Effect(registers, if taken then Take(link) else Fall)
    {
      var jump := Get(60, 1);
      if jump != 0 {
        var cond := EvalIfVersion2();
        taken, link := EvalJumpInstruction(cond);
      } else {
        var cond := EvalIfVersion1();
        taken, link := EvalLinkInstruction(cond);
      }
    }

    method EvalSetThenLink() returns (taken: bool, link: Link)
      requires Decode(instruction) == SetLink(DecodeTest3(instruction), DecodeSet1(instruction), DecodeLink(instruction))
      modifies this
      ensures Execute(old(registers), env, Decode(instruction))
           == Effect(registers, if taken then Take(link) else Fall)
    {
      var cond := EvalIfVersion3();
      EvalSetVersion1(cond);
      var linkop := Get(51, 4);
      taken, link := false, NO_LINK;
      if linkop != 0 {
        taken, link := EvalLinkInstruction(cond);
      }
    }

    method EvalSetThenTest() returns (cond: bool)
      modifies this
      ensures var r := ExecuteSet(old(registers), env, true, DecodeSet2(instruction));
        cond == TestValue(r, env, DecodeTest4(instruction)) && registers == AfterTest(r, env, DecodeTest4(instruction))
    {
      EvalSetVersion2(true);
      cond := EvalIfVersion4();
    }

    method EvalTestThenSet() returns (cond: bool)
      modifies this
      ensures cond == TestValue(old(registers), env, DecodeTest4(instruction))
      ensures var r := AfterTest(old(registers), env, DecodeTest4(instruction));
        registers == ExecuteSet(r, env, cond, DecodeSet2(instruction))
    {
      cond := EvalIfVersion4();
      EvalSetVersion2(cond);
    }

    method EvalSetTestSubLink() returns (taken: bool, link: Link)
      requires Decode(instruction) == SetTestLink(DecodeTest4(instruction), DecodeSet2(instruction), DecodeSubLink(instruction))
      modifies this
      ensures Execute(old(registers), env, Decode(instruction))
           == Effect(registers, if taken then Take(link) else Fall)
    {
      var cond := EvalSetThenTest();
      taken, link := EvalLinkSubins(cond);
    }

    method EvalTestSetSubLink(always: bool) returns (taken: bool, link: Link)
      requires Decode(instruction) == TestSetLink(DecodeTest4(instruction), DecodeSet2(instruction), DecodeSubLink(instruction), always)
      modifies this
      ensures Execute(old(registers), env, Decode(instruction))
           == Effect(registers, if taken then Take(link) else Fall)
    {
      var cond := EvalTestThenSet();
      taken, link := EvalLinkSubins(always || cond);
    }

    method EvalSpecialCommand() returns (line: nat)
      requires Field(instruction, 63, 3) == 0
      modifies this
      ensures Execute(old(registers), env, Decode(instruction)) == Effect(registers, Line(line))
    {
      var cond := EvalIfVersion1();
      line := EvalSpecialInstruction(cond);
    }

    method EvalSystemCommand() returns (taken: bool, link: Link)
      requires Decode(instruction) == SystemIns(DecodeTest2(instruction), DecodeSystem(instruction), DecodeLink(instruction))
      modifies this
      ensures Execute(old(registers), env, Decode(instruction))
           == Effect(registers, if taken then Take(link) else Fall)
    {
      var cond := EvalIfVersion2();
      taken, link := EvalSystemSet(cond);
    }

    /** One command: its effect on the registers, and where to go next. */
    method EvalCommand() returns (next: Decoder.Next)
      modifies this
      ensures Execute(old(registers), env, Decode(instruction)) == Effect(registers, next)
    {
      var kind := Get(63, 3);
      if kind == 0 {
        var line := EvalSpecialCommand();
        return Line(line);
      }
      if kind > 6 {
        return AbortCommand;
      }
      var taken, link;
      if kind == 1 {
        taken, link := EvalLinkOrJump();
      } else if kind == 2 {
        taken, link := EvalSystemCommand();
      } else if kind == 3 {
        taken, link := EvalSetThenLink();
      } else if kind == 4 {
        taken, link := EvalSetTestSubLink();
      } else {
        taken, link := EvalTestSetSubLink(kind == 6);
      }
      next := if taken then Take(link) else Fall;
    }
  }
}
