/**
 The VM command set: what each 64-bit command means.

 `Decode` reads a command's bit fields once and names the instruction they
 spell; `Execute` gives that instruction its effect on the registers.  The
 step-by-step decoder of the player (module Interpreter) is proved to agree.
*/
module Decoder {
  import opened Bits

  type nibble = x: int | 0 <= x < 16

  /** A C `struct timeval`. */
  datatype Time = Time(sec: int, usec: int)

  /** System registers, general registers, and for each general register its mode and counter start. */
  datatype RegisterFile = RegisterFile(sprm: seq<u16>, gprm: seq<u16>, counter: seq<bool>, base: seq<Time>)

  type Registers = r: RegisterFile |
    |r.sprm| == 24 && |r.gprm| == 16 && |r.counter| == 16 && |r.base| == 16
    witness RegisterFile(seq(24, _ => 0), seq(16, _ => 0), seq(16, _ => false), seq(16, _ => Time(0, 0)))

  /** What one command can observe outside the registers: the clock, the random
      source, and whatever lies behind the 24 system registers in memory. */
  datatype Env = Env(now: Time, random: u16, stray: nat -> u16)

  datatype LinkCommand =
    | LinkNoLink | LinkTopC | LinkNextC | LinkPrevC
    | LinkTopPG | LinkNextPG | LinkPrevPG
    | LinkTopPGC | LinkNextPGC | LinkPrevPGC | LinkGoUpPGC | LinkTailPGC
    | LinkRSM | LinkPGCN | LinkPTTN | LinkPGN | LinkCN
    | Exit
    | JumpTT | JumpVTS_TT | JumpVTS_PTT
    | JumpSS_FP | JumpSS_VMGM_MENU | JumpSS_VTSM | JumpSS_VMGM_PGC
    | CallSS_FP | CallSS_VMGM_MENU | CallSS_VTSM | CallSS_VMGM_PGC
    | PlayThis
    | Reserved(code: nat)   // sub-instruction codes without a name: 4, 8, 14, 15

  datatype Link = Link(command: LinkCommand, data1: u16, data2: u16, data3: u16)

  const NO_LINK := Link(LinkNoLink, 0, 0, 0)

  // Instructions

  datatype Operand = Immediate(value: u16) | SystemReg(s: nat) | GeneralReg(g: nibble)

  datatype Test = Always | Compare(op: nat, lhs: Operand, rhs: Operand)

  datatype SetOp = SetOp(op: nibble, reg: nibble, reg2: nibble, operand: Operand)

  datatype Special = Nop | Goto(line: u16) | Break | Parental(line: u16, level: u16)

  datatype System =
    | NoSystem
    | Streams(streams: seq<Option<Operand>>)
    | Timer(time: Operand, pgc: u16)
    | Mode(value: Operand, reg: nibble, toCounter: bool)
    | Button(button: Operand)

  datatype Option<T> = None | Some(value: T)

  datatype Instruction =
    | SpecialIns(test: Test, special: Special)
    | LinkIns(test: Test, link: Option<Link>)
    | SystemIns(test: Test, system: System, link: Option<Link>)
    | SetLink(test: Test, set_: SetOp, link: Option<Link>)
    | SetTestLink(test: Test, set_: SetOp, link: Option<Link>)
    | TestSetLink(test: Test, set_: SetOp, link: Option<Link>, always: bool)
    | Unknown

  // Decoding

  /** The bit field of i that starts at bit `start` (counted from 0) and runs down `count` bits. */
  function Field(i: u64, start: nat, count: nat): (v: u16)
    requires count <= 16 && count <= start + 1
    ensures v == Slice(i, start, count) < Pow2(count)
  {
    Pow2AtMost(count, 16);
    Pow2At16();
    Slice(i, start, count)
  }

  predicate Flag(i: u64, bit: nat) {
    Field(i, bit, 1) != 0
  }

  function DecodeRegister(code: u16): Operand {
    if code >= 0x80 then SystemReg(Low(code, 5)) else GeneralReg(Low(code, 4))
  }

  function DecodeOperand(i: u64, immediate: bool, start: nat): Operand
    requires start >= 15
  {
    if immediate then Immediate(Field(i, start, 16)) else DecodeRegister(Field(i, start - 8, 8))
  }

  function DecodeTest(i: u64, lhs: u16, rhs: Operand): Test {
    var op := Field(i, 54, 3);
    if op == 0 then Always else Compare(op, DecodeRegister(lhs), rhs)
  }

  function DecodeTest1(i: u64): Test { DecodeTest(i, Field(i, 39, 8), DecodeOperand(i, Flag(i, 55), 31)) }

  function DecodeTest2(i: u64): Test { DecodeTest(i, Field(i, 15, 8), DecodeRegister(Field(i, 7, 8))) }

  function DecodeTest3(i: u64): Test { DecodeTest(i, Field(i, 47, 8), DecodeOperand(i, Flag(i, 55), 15)) }

  function DecodeTest4(i: u64): Test { DecodeTest(i, Field(i, 51, 4), DecodeOperand(i, Flag(i, 55), 31)) }

  function DecodeSpecial(i: u64): Special {
    match Field(i, 51, 4)
    case 1 => Goto(Field(i, 7, 8))
    case 2 => Break
    case 3 => Parental(Field(i, 7, 8), Field(i, 11, 4))
    case _ => Nop
  }

  function SubCommand(code: nat): LinkCommand {
    match code
    case 0 => LinkNoLink
    case 1 => LinkTopC
    case 2 => LinkNextC
    case 3 => LinkPrevC
    case 5 => LinkTopPG
    case 6 => LinkNextPG
    case 7 => LinkPrevPG
    case 9 => LinkTopPGC
    case 10 => LinkNextPGC
    case 11 => LinkPrevPGC
    case 12 => LinkGoUpPGC
    case 13 => LinkTailPGC
    case 16 => LinkRSM
    case _ => Reserved(code)
  }

  function DecodeSubLink(i: u64): Option<Link> {
    var code := Field(i, 4, 5);
    if code > 16 then None else Some(Link(SubCommand(code), Field(i, 15, 6), 0, 0))
  }

  function DecodeLink(i: u64): Option<Link> {
    match Field(i, 51, 4)
    case 1 => DecodeSubLink(i)
    case 4 => Some(Link(LinkPGCN, Field(i, 14, 15), 0, 0))
    case 5 => Some(Link(LinkPTTN, Field(i, 9, 10), Field(i, 15, 6), 0))
    case 6 => Some(Link(LinkPGN, Field(i, 6, 7), Field(i, 15, 6), 0))
    case 7 => Some(Link(LinkCN, Field(i, 7, 8), Field(i, 15, 6), 0))
    case _ => None
  }

  function DecodeJump(i: u64): Option<Link> {
    match Field(i, 51, 4)
    case 1 => Some(Link(Exit, 0, 0, 0))
    case 2 => Some(Link(JumpTT, Field(i, 22, 7), 0, 0))
    case 3 => Some(Link(JumpVTS_TT, Field(i, 22, 7), 0, 0))
    case 5 => Some(Link(JumpVTS_PTT, Field(i, 22, 7), Field(i, 41, 10), 0))
    case 6 => Some(
      match Field(i, 23, 2)
      case 0 => Link(JumpSS_FP, 0, 0, 0)
      case 1 => Link(JumpSS_VMGM_MENU, Field(i, 19, 4), 0, 0)
      case 2 => Link(JumpSS_VTSM, Field(i, 31, 8), Field(i, 39, 8), Field(i, 19, 4))
      case _ => Link(JumpSS_VMGM_PGC, Field(i, 46, 15), 0, 0))
    case 8 => Some(
      match Field(i, 23, 2)
      case 0 => Link(CallSS_FP, Field(i, 31, 8), 0, 0)
      case 1 => Link(CallSS_VMGM_MENU, Field(i, 19, 4), Field(i, 31, 8), 0)
      case 2 => Link(CallSS_VTSM, Field(i, 19, 4), Field(i, 31, 8), 0)
      case _ => Link(CallSS_VMGM_PGC, Field(i, 46, 15), Field(i, 31, 8), 0))
    case _ => None
  }

  /** Operand of stream register n (1 audio, 2 subpicture, 3 angle), when the command sets it. */
  function DecodeStream(i: u64, n: nat): Option<Operand>
    requires 1 <= n <= 3
  {
    if !Flag(i, 47 - 8 * n) then None
    else if Flag(i, 60) then Some(Immediate(Field(i, 46 - 8 * n, 7)))
    else Some(GeneralReg(Field(i, 43 - 8 * n, 4)))
  }

  function DecodeSystem(i: u64): System {
    match Field(i, 59, 4)
    case 1 => Streams([DecodeStream(i, 1), DecodeStream(i, 2), DecodeStream(i, 3)])
    case 2 => Timer(DecodeOperand(i, Flag(i, 60), 47), Field(i, 23, 8))
    case 3 => Mode(DecodeOperand(i, Flag(i, 60), 47), Field(i, 19, 4), Flag(i, 23))
    case 6 => Button(DecodeOperand(i, Flag(i, 60), 31))
    case _ => NoSystem
  }

  function DecodeSet1(i: u64): SetOp {
    SetOp(Field(i, 59, 4), Field(i, 35, 4), Field(i, 19, 4), DecodeOperand(i, Flag(i, 60), 31))
  }

  function DecodeSet2(i: u64): SetOp {
    SetOp(Field(i, 59, 4), Field(i, 51, 4), Field(i, 35, 4), DecodeOperand(i, Flag(i, 60), 47))
  }

  function Decode(i: u64): Instruction {
    match Field(i, 63, 3)
    case 0 => SpecialIns(DecodeTest1(i), DecodeSpecial(i))
    case 1 =>
      if Flag(i, 60) then LinkIns(DecodeTest2(i), DecodeJump(i)) else LinkIns(DecodeTest1(i), DecodeLink(i))
    case 2 => SystemIns(DecodeTest2(i), DecodeSystem(i), DecodeLink(i))
    case 3 => SetLink(DecodeTest3(i), DecodeSet1(i), DecodeLink(i))
    case 4 => SetTestLink(DecodeTest4(i), DecodeSet2(i), DecodeSubLink(i))
    case 5 => TestSetLink(DecodeTest4(i), DecodeSet2(i), DecodeSubLink(i), false)
    case 6 => TestSetLink(DecodeTest4(i), DecodeSet2(i), DecodeSubLink(i), true)
    case _ => Unknown
  }

  // Registers

  /** Whole seconds from `start` to `now`, in the 16 bits a register holds. */
  function Elapsed(start: Time, now: Time): u16 {
    (now.sec - start.sec - (if now.usec < start.usec then 1 else 0)) % TWO16
  }

  /** The value of general register g: a stored value, or a running counter. */
  function GeneralValue(r: Registers, env: Env, g: nibble): u16 {
    if r.counter[g] then Elapsed(r.base[g], env.now) else r.gprm[g]
  }

  /** Reading a counter also stores the value read. */
  function AfterRead(r: Registers, env: Env, g: nibble): Registers {
    r.(gprm := r.gprm[g := GeneralValue(r, env, g)])
  }

  function SetGeneral(r: Registers, env: Env, g: nibble, value: u16): Registers {
    r.(gprm := r.gprm[g := value],
       base := if r.counter[g] then r.base[g := Time(env.now.sec - value, env.now.usec)] else r.base)
  }

  function OperandValue(r: Registers, env: Env, o: Operand): u16 {
    match o
    case Immediate(v) => v
    case SystemReg(n) => if n < 24 then r.sprm[n] else env.stray(n)
    case GeneralReg(g) => GeneralValue(r, env, g)
  }

  function AfterOperand(r: Registers, env: Env, o: Operand): Registers {
    if o.GeneralReg? then AfterRead(r, env, o.g) else r
  }

  // Execution

  function Holds(op: nat, a: u16, b: u16): bool {
    match op
    case 1 => And(a, b) != 0
    case 2 => a == b
    case 3 => a != b
    case 4 => a >= b
    case 5 => a > b
    case 6 => a <= b
    case 7 => a < b
    case _ => false
  }

  function TestValue(r: Registers, env: Env, t: Test): bool {
    t.Always? || Holds(t.op, OperandValue(r, env, t.lhs), OperandValue(r, env, t.rhs))
  }

  function AfterTest(r: Registers, env: Env, t: Test): Registers {
    if t.Always? then r else AfterOperand(AfterOperand(r, env, t.lhs), env, t.rhs)
  }

  /** A C int32_t holding x: overflow wraps. */
  function Wrap32(x: int): int {
    (x + 0x8000_0000) % TWO32 - 0x8000_0000
  }

  /** Product capped at 0xffff, as far as a 32-bit int can tell. */
  function Multiply(a: u16, b: u16): u16 {
    var tmp := Wrap32(a * b);
    if tmp > 0xffff then 0xffff else tmp % TWO16
  }

  function Divide(a: u16, b: u16): u16 {
    if b != 0 then a / b else 0xffff
  }

  function Remainder(a: u16, b: u16): u16 {
    if b != 0 then a % b else 0xffff
  }

  /** The value a set operation other than swap stores, from the old value a and the operand b. */
  function Arith(op: nibble, a: u16, b: u16, random: u16): u16
    requires op != 0 && op != 2 && op < 12
  {
    match op
    case 1 => b
    case 3 => if a + b > 0xffff then 0xffff else a + b
    case 4 => if a - b < 0 then 0 else a - b
    case 5 => Multiply(a, b)
    case 6 => Divide(a, b)
    case 7 => Remainder(a, b)
    case 8 => random
    case 9 => And(a, b) % TWO16
    case 10 => Or(a, b) % TWO16
    case _ => Xor(a, b) % TWO16
  }

  function ApplySet(r: Registers, env: Env, op: nibble, reg: nibble, reg2: nibble, value: u16): Registers {
    if op == 0 || op >= 12 then r
    else if op == 2 then SetGeneral(SetGeneral(AfterRead(r, env, reg), env, reg2, GeneralValue(r, env, reg)), env, reg, value)
    else SetGeneral(r, env, reg, Arith(op, GeneralValue(r, env, reg), value, env.random))
  }

  function ExecuteSet(r: Registers, env: Env, cond: bool, s: SetOp): Registers {
    var r' := AfterOperand(r, env, s.operand);
    if cond then ApplySet(r', env, s.op, s.reg, s.reg2, OperandValue(r, env, s.operand)) else r'
  }

  function SetSystem(r: Registers, cond: bool, n: nat, value: u16): Registers
    requires n < 24
  {
    if cond then r.(sprm := r.sprm[n := value]) else r
  }

  /** The first n of the stream settings carried out. */
  function ExecuteStreams(r: Registers, env: Env, cond: bool, streams: seq<Option<Operand>>, n: nat): Registers
    requires n <= |streams| <= 3
  {
    if n == 0 then r else
      var r' := ExecuteStreams(r, env, cond, streams, n - 1);
      match streams[n - 1]
      case None => r'
      case Some(o) => SetSystem(AfterOperand(r', env, o), cond, n, OperandValue(r', env, o))
  }

  function ExecuteSystem(r: Registers, env: Env, cond: bool, s: System): Registers {
    match s
    case NoSystem => r
    case Streams(streams) => if |streams| == 3 then ExecuteStreams(r, env, cond, streams, 3) else r
    case Timer(o, pgc) =>
      SetSystem(SetSystem(AfterOperand(r, env, o), cond, 9, OperandValue(r, env, o)), cond, 10, pgc)
    case Mode(o, reg, toCounter) =>
      var r' := AfterOperand(r, env, o);
      var r'' := r'.(counter := r'.counter[reg := toCounter]);   // even when the test failed
      if cond then SetGeneral(r'', env, reg, OperandValue(r, env, o)) else r''
    case Button(o) => SetSystem(AfterOperand(r, env, o), cond, 8, OperandValue(r, env, o))
  }

  /** What one command does next: fall through, go to a line, take a link, or abort the program. */
  datatype Next = Fall | GotoLine(line: nat) | Take(link: Link) | AbortCommand

  datatype Effect = Effect(registers: Registers, next: Next)

  function Line(line: nat): Next {
    if line == 0 then Fall else GotoLine(line)
  }

  function TakeIf(cond: bool, link: Option<Link>): Next {
    if cond && link.Some? then Take(link.value) else Fall
  }

  function ExecuteSpecial(r: Registers, cond: bool, s: Special): Effect {
    if !cond then Effect(r, Fall) else
      match s
      case Nop => Effect(r, Fall)
      case Goto(line) => Effect(r, Line(line))
      case Break => Effect(r, GotoLine(256))
      case Parental(line, level) => Effect(SetSystem(r, true, 13, level), Line(line))
  }

  function Execute(r: Registers, env: Env, ins: Instruction): Effect {
    if ins.Unknown? then Effect(r, AbortCommand) else
      var r' := AfterTest(r, env, ins.test);
      var cond := TestValue(r, env, ins.test);
      match ins
      case SpecialIns(_, special) => ExecuteSpecial(r', cond, special)
      case LinkIns(_, link) => Effect(r', TakeIf(cond, link))
      case SystemIns(_, system, link) => Effect(ExecuteSystem(r', env, cond, system), TakeIf(cond, link))
      case SetLink(_, s, link) => Effect(ExecuteSet(r', env, cond, s), TakeIf(cond, link))
      case TestSetLink(_, s, link, always) => Effect(ExecuteSet(r', env, cond, s), TakeIf(always || cond, link))
      case SetTestLink(test, s, link) =>
        var r2 := ExecuteSet(r, env, true, s);
        Effect(AfterTest(r2, env, test), TakeIf(TestValue(r2, env, test), link))
  }
}
