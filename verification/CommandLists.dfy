/** Command lists: the goto loop of vmEval_CMD, and what holds of every list. */
module CommandLists {
  import opened Bits
  import opened Decoder
  import Interpreter

  const MAX_COMMANDS: nat := 100000

  /** Clock, random source and stray memory seen by the n-th command evaluated. */
  type Oracle = nat -> Env

  /** What the command at a line does to the registers, as the n-th command evaluated. */
  type Commands = (nat, Registers, nat) -> Effect

  /** Where a running list stands after `steps` commands. */
  datatype Cursor =
    | At(line: nat, registers: Registers, steps: nat)
    | Jumped(link: Link, registers: Registers, steps: nat)
    | Aborted

  /** A list is its length and its commands; it starts as command number `tick`. */
  datatype Program = Program(size: nat, commands: Commands, tick: nat)

  function Step(p: Program, c: Cursor): Cursor
    requires c.At?
  {
    var e := p.commands(c.line, c.registers, p.tick + c.steps);
    match e.next
    case Fall => At(c.line + 1, e.registers, c.steps + 1)
    case GotoLine(line) => At(if line > 0 then line - 1 else c.line + 1, e.registers, c.steps + 1)
    case Take(link) => Jumped(link, e.registers, c.steps + 1)
    case AbortCommand => Aborted
  }

  predicate Running(p: Program, c: Cursor) {
    c.At? && c.line < p.size && c.steps < MAX_COMMANDS
  }

  /** The whole run from c. */
  function Finish(p: Program, c: Cursor): Cursor
    decreases if c.At? then MAX_COMMANDS - c.steps else 0
  {
    if Running(p, c) then Finish(p, Step(p, c)) else c
  }

  datatype Result =
    | TakesLink(link: Link, registers: Registers, tick: nat)
    | FallsThrough(registers: Registers, tick: nat)
    | Aborts

  function Outcome(p: Program, c: Cursor): Result {
    match c
    case Jumped(link, r, steps) => TakesLink(link, r, p.tick + steps)
    case At(_, r, steps) => FallsThrough(r, p.tick + steps)
    case Aborted => Aborts
  }

  function Load(commands: seq<u64>, oracle: Oracle, tick: nat): Program {
    var run := (line: nat, r: Registers, t: nat) =>
      if line < |commands| then Execute(r, oracle(t), Decode(commands[line])) else Effect(r, Fall);
    Program(|commands|, run, tick)
  }

  function Eval(commands: seq<u64>, registers: Registers, oracle: Oracle, tick: nat): Result {
    var p := Load(commands, oracle, tick);
    Outcome(p, Finish(p, At(0, registers, 0)))
  }

  method VmEvalCmd(commands: seq<u64>, registers: Registers, oracle: Oracle, tick: nat) returns (result: Result)
    ensures result == Eval(commands, registers, oracle, tick)
  {
    hide Execute, Decode;
    ghost var p := Load(commands, oracle, tick);
    var i, total, regs := 0, 0, registers;
    while i < |commands| && total < MAX_COMMANDS
      invariant 0 <= i && 0 <= total <= MAX_COMMANDS
      invariant Finish(p, At(i, regs, total)) == Finish(p, At(0, registers, 0))
      decreases MAX_COMMANDS - total
    {
      var command := new Interpreter.Command(commands[i], oracle(tick + total), regs);
      var next := command.EvalCommand();
      assert p.commands(i, regs, tick + total) == Effect(command.registers, next);
      regs := command.registers;
      match next {
        case AbortCommand =>
          return Aborts;
        case Take(link) =>
          return TakesLink(link, regs, tick + total + 1);
        case GotoLine(line) =>
          i := if line > 0 then line - 1 else i + 1;
        case Fall =>
          i := i + 1;
      }
      total := total + 1;
    }
    return FallsThrough(regs, tick + total);
  }

  // The loop is bounded iteration of single commands

  /** n single steps from c, stopping where the loop stops. */
  function Iterate(p: Program, c: Cursor, n: nat): Cursor
    decreases n
  {
    if n == 0 || !Running(p, c) then c else Iterate(p, Step(p, c), n - 1)
  }

  function StepsLeft(p: Program, c: Cursor): nat
    decreases if c.At? then MAX_COMMANDS - c.steps else 0
  {
    if Running(p, c) then 1 + StepsLeft(p, Step(p, c)) else 0
  }

  /** The loop runs StepsLeft commands, each at a line of the list and never
      more than the cap, and then stands where the loop cannot go on. */
  lemma {:induction false} LoopIsIteration(p: Program, c: Cursor)
    requires c.At? && c.steps <= MAX_COMMANDS
    ensures var n := StepsLeft(p, c);
      && n <= MAX_COMMANDS - c.steps
      && Finish(p, c) == Iterate(p, c, n)
      && (forall m: nat | m < n :: Running(p, Iterate(p, c, m)))
      && !Running(p, Finish(p, c))
    decreases MAX_COMMANDS - c.steps
  {
    if Running(p, c) {
      var d := Step(p, c);
      if d.At? {
        LoopIsIteration(p, d);
      }
      forall m: nat | m < StepsLeft(p, c)
        ensures Running(p, Iterate(p, c, m))
      {
        if m > 0 {
          assert Iterate(p, c, m) == Iterate(p, d, m - 1);
        }
      }
    }
  }

  /** The effect of the command that cursor c stands at. */
  function EffectAt(p: Program, c: Cursor): Effect
    requires c.At?
  {
    p.commands(c.line, c.registers, p.tick + c.steps)
  }

  lemma {:induction false} LastStep(p: Program, c: Cursor)
    requires Running(p, c)
    ensures var n := StepsLeft(p, c);
      n >= 1 && Running(p, Iterate(p, c, n - 1)) && Finish(p, c) == Step(p, Iterate(p, c, n - 1))
    decreases MAX_COMMANDS - c.steps
  {
    var d := Step(p, c);
    if Running(p, d) {
      LastStep(p, d);
      assert Iterate(p, c, StepsLeft(p, c) - 1) == Iterate(p, d, StepsLeft(p, d) - 1);
    }
  }

  /** The result is a link exactly when the last command run takes that link, and the
      registers are the ones that command left. An empty list changes nothing. */
  lemma ResultMeansLink(commands: seq<u64>, registers: Registers, oracle: Oracle, tick: nat)
    ensures var p, start := Load(commands, oracle, tick), At(0, registers, 0);
      var result := Eval(commands, registers, oracle, tick);
      if commands == [] then result == FallsThrough(registers, tick)
      else
        var last := Iterate(p, start, StepsLeft(p, start) - 1);
        && Running(p, last)
        && (result.TakesLink? <==> EffectAt(p, last).next.Take?)
        && (result.TakesLink? ==> EffectAt(p, last) == Effect(result.registers, Take(result.link)))
        && (result.FallsThrough? ==> EffectAt(p, last).registers == result.registers)
  {
    hide Execute, Decode;
    if commands != [] {
      LastStep(Load(commands, oracle, tick), At(0, registers, 0));
    }
  }

  // Frame

  /** Audio, subpicture, angle, highlighted button, timer, timer target, parental level. */
  const WRITABLE: set<nat> := {1, 2, 3, 8, 9, 10, 13}

  predicate SameProtected(r: Registers, r': Registers) {
    forall k: nat | k < 24 && k !in WRITABLE :: r'.sprm[k] == r.sprm[k]
  }

  lemma SystemFrame(r: Registers, env: Env, cond: bool, s: System)
    ensures SameProtected(r, ExecuteSystem(r, env, cond, s))
  {
    if s.Streams? && |s.streams| == 3 {
      StreamsFrame(r, env, cond, s.streams, 1);
      StreamsFrame(r, env, cond, s.streams, 2);
      StreamsFrame(r, env, cond, s.streams, 3);
    }
  }

  lemma {:induction false} StreamsFrame(r: Registers, env: Env, cond: bool, streams: seq<Option<Operand>>, n: nat)
    requires n <= |streams| <= 3
    ensures SameProtected(r, ExecuteStreams(r, env, cond, streams, n))
  {
    if n > 0 {
      StreamsFrame(r, env, cond, streams, n - 1);
    }
  }

  lemma ExecuteFrame(r: Registers, env: Env, ins: Instruction)
    ensures SameProtected(r, Execute(r, env, ins).registers)
  {
    if ins.SystemIns? {
      SystemFrame(AfterTest(r, env, ins.test), env, TestValue(r, env, ins.test), ins.system);
    }
  }

  predicate LinkAllowed(next: Next) {
    next.Take? ==> next.link.command != PlayThis
  }

  predicate NeverPlayThis(link: Option<Link>) {
    link.Some? ==> link.value.command != PlayThis
  }

  lemma SubLinks(i: u64)
    ensures NeverPlayThis(DecodeSubLink(i))
  {
  }

  lemma PlainLinks(i: u64)
    ensures NeverPlayThis(DecodeLink(i))
  {
    SubLinks(i);
  }

  lemma JumpLinks(i: u64)
    ensures NeverPlayThis(DecodeJump(i))
  {
  }

  /** The link that an instruction may take. */
  function LinkOf(ins: Instruction): Option<Link> {
    if ins.SpecialIns? || ins.Unknown? then None else ins.link
  }

  lemma DecodedLinks(i: u64)
    ensures NeverPlayThis(LinkOf(Decode(i)))
  {
    hide Field, Flag, DecodeSubLink, DecodeLink, DecodeJump;
    SubLinks(i);
    PlainLinks(i);
    JumpLinks(i);
  }

  lemma ExecuteTakes(r: Registers, env: Env, ins: Instruction)
    ensures var next := Execute(r, env, ins).next;
      next.Take? ==> LinkOf(ins) == Some(next.link)
  {
    hide ExecuteSystem, ExecuteSet, AfterTest, TestValue;
  }

  /** No command takes the PlayThis link. */
  lemma ExecuteLinks(r: Registers, env: Env, i: u64)
    ensures LinkAllowed(Execute(r, env, Decode(i)).next)
  {
    hide Execute, Decode, LinkOf;
    DecodedLinks(i);
    ExecuteTakes(r, env, Decode(i));
  }

  /** A relation between registers that every single command keeps, any run keeps. */
  lemma {:induction false} ListKeeps(p: Program, c: Cursor)
    requires c.At?
    requires forall line: nat, r: Registers, t: nat :: SameProtected(r, p.commands(line, r, t).registers)
    requires forall line: nat, r: Registers, t: nat :: LinkAllowed(p.commands(line, r, t).next)
    ensures var d := Finish(p, c);
      && (!d.Aborted? ==> SameProtected(c.registers, d.registers))
      && (d.Jumped? ==> d.link.command != PlayThis)
    decreases MAX_COMMANDS - c.steps
  {
    if Running(p, c) {
      var d := Step(p, c);
      assert LinkAllowed(p.commands(c.line, c.registers, p.tick + c.steps).next);
      if d.At? {
        ListKeeps(p, d);
      }
    }
  }

  /** No command list touches a protected system register, and none links to PlayThis. */
  lemma EvalFrame(commands: seq<u64>, registers: Registers, oracle: Oracle, tick: nat)
    ensures var result := Eval(commands, registers, oracle, tick);
      && (!result.Aborts? ==> SameProtected(registers, result.registers))
      && (result.TakesLink? ==> result.link.command != PlayThis)
  {
    hide Execute, Decode;
    var p := Load(commands, oracle, tick);
    forall line: nat, r: Registers, t: nat
      ensures SameProtected(r, p.commands(line, r, t).registers) && LinkAllowed(p.commands(line, r, t).next)
    {
      if line < |commands| {
        ExecuteFrame(r, oracle(t), Decode(commands[line]));
        ExecuteLinks(r, oracle(t), commands[line]);
      }
    }
    ListKeeps(p, At(0, registers, 0));
  }

  // Where lists end

  /** A Break command is one whose test holds, and it ends the list exactly
      when the list has at most 255 commands. */
  lemma BreakEndsShortLists(commands: seq<u64>, oracle: Oracle, tick: nat, c: Cursor)
    requires var p := Load(commands, oracle, tick); Running(p, c)
    requires Field(commands[c.line], 63, 3) == 0 && Field(commands[c.line], 51, 4) == 2
    requires TestValue(c.registers, oracle(tick + c.steps), DecodeTest1(commands[c.line]))
    ensures var p := Load(commands, oracle, tick); var d := Step(p, c);
      && d.At? && d.line == 255
      && (|commands| <= 255 ==> Finish(p, c) == d)
      && (|commands| > 255 && d.steps < MAX_COMMANDS ==> Running(p, d))
  {
    var r := c.registers;
    var env := oracle(tick + c.steps);
    assert Execute(r, env, Decode(commands[c.line])).next == GotoLine(256);
  }

  /** Every goto taken in the next n steps goes to a later line. */
  predicate ForwardOnly(p: Program, c: Cursor, n: nat)
    decreases n
  {
    n == 0 || !Running(p, c) ||
    var d := Step(p, c);
    (d.At? ==> d.line > c.line) && ForwardOnly(p, d, n - 1)
  }

  /** A list whose gotos only go forward runs each line at most once. */
  lemma {:induction false} ForwardRunsAreShort(p: Program, c: Cursor)
    requires c.At? && c.steps <= MAX_COMMANDS
    requires ForwardOnly(p, c, MAX_COMMANDS - c.steps)
    ensures StepsLeft(p, c) <= if c.line <= p.size then p.size - c.line else 0
    decreases MAX_COMMANDS - c.steps
  {
    if Running(p, c) {
      var d := Step(p, c);
      if d.At? {
        ForwardRunsAreShort(p, d);
      }
    }
  }

  // Set operations

  /** Both operands of r's general registers a and b exchanged. */
  function Exchanged(r: Registers, a: nibble, b: nibble): Registers {
    r.(gprm := r.gprm[a := r.gprm[b]][b := r.gprm[a]])
  }

  /** A swap set operation that names a plain general register as its operand. */
  predicate PlainSwap(s: SetOp) {
    s.op == 2 && s.operand == GeneralReg(s.reg2)
  }

  lemma SwapExchanges(r: Registers, env: Env, s: SetOp)
    requires PlainSwap(s) && !r.counter[s.reg] && !r.counter[s.reg2]
    ensures ExecuteSet(r, env, true, s) == Exchanged(r, s.reg, s.reg2)
    ensures ExecuteSet(ExecuteSet(r, env, true, s), env, true, s) == r
  {
    var r' := ExecuteSet(r, env, true, s);
    assert AfterRead(r, env, s.reg2) == r;
    assert AfterRead(r, env, s.reg) == r;
    assert r'.gprm == r.gprm[s.reg2 := r.gprm[s.reg]][s.reg := r.gprm[s.reg2]];
    assert r'.gprm == r.gprm[s.reg := r.gprm[s.reg2]][s.reg2 := r.gprm[s.reg]];
    assert AfterRead(r', env, s.reg2) == r';
    assert AfterRead(r', env, s.reg) == r';
    assert r'.gprm[s.reg2 := r'.gprm[s.reg]][s.reg := r'.gprm[s.reg2]] == r.gprm;
  }

  lemma {:induction false} LowOfLow(x: nat, k: nat, more: nat)
    ensures Low(Low(x, k + more), k) == Low(x, k)
    decreases k
  {
    if k > 0 {
      LowOfLow(x / 2, k - 1, more);
      assert Low(x, k + more) / 2 == Low(x / 2, k - 1 + more);
    }
  }

  /** In both encodings the operand field of a swap overlaps the second
      register: a register operand below 0x80 names exactly that register. */
  lemma SwapOperand(i: u64)
    requires !Flag(i, 60)
    ensures Field(i, 59, 4) == 2 && Field(i, 23, 8) < 0x80 ==> PlainSwap(DecodeSet1(i))
    ensures Field(i, 59, 4) == 2 && Field(i, 39, 8) < 0x80 ==> PlainSwap(DecodeSet2(i))
  {
    LowOfLow(Shr(i, 16), 4, 4);
    LowOfLow(Shr(i, 32), 4, 4);
  }

  /** The same, for whole commands: set-then-link without a test, and set-test-link. */
  lemma SwapCommand(r: Registers, env: Env, i: u64)
    requires !Flag(i, 60) && Field(i, 59, 4) == 2 && Field(i, 54, 3) == 0
    requires (Field(i, 63, 3) == 3 && Field(i, 23, 8) < 0x80) || (Field(i, 63, 3) == 4 && Field(i, 39, 8) < 0x80)
    requires var s := Decode(i).set_; !r.counter[s.reg] && !r.counter[s.reg2]
    ensures var s := Decode(i).set_; var r' := Execute(r, env, Decode(i)).registers;
      && r' == Exchanged(r, s.reg, s.reg2)
      && Execute(r', env, Decode(i)).registers == r
  {
    SwapOperand(i);
    SwapExchanges(r, env, Decode(i).set_);
  }

  /** Multiplication saturates at 0xffff exactly while the product fits a
      signed 32-bit int (beyond that only by coincidence of the low bits). */
  lemma MultiplySaturates(a: u16, b: u16)
    ensures Multiply(a, b) == (if a * b > 0xffff then 0xffff else a * b)
       <==> a * b < 0x8000_0000 || a * b % TWO16 == 0xffff
  {
    var p := a * b;
    ProductBound(a, b);
    if p < 0x8000_0000 {
      assert Wrap32(p) == p;
    } else {
      assert Wrap32(p) == p - TWO32;
      assert (p - TWO32) % TWO16 == p % TWO16;
    }
  }

  lemma ProductBound(a: u16, b: u16)
    ensures 0 <= a * b <= 0xffff * 0xffff
  {
    ProductBelow(a, b, 0xffff, 0xffff);
  }

  /** 0xffff * 0xffff is stored as 1. */
  lemma MultiplyOverflows()
    ensures Multiply(0xffff, 0xffff) == 1
  {
  }

  /** A counter set to v reads v plus the whole seconds gone by, modulo 2^16. */
  lemma CounterCounts(r: Registers, env: Env, later: Env, g: nibble, v: u16)
    requires r.counter[g]
    requires 0 <= env.now.usec < 1000000 && 0 <= later.now.usec < 1000000
    ensures var elapsed := (later.now.sec * 1000000 + later.now.usec - env.now.sec * 1000000 - env.now.usec) / 1000000;
      GeneralValue(SetGeneral(r, env, g, v), later, g) == (v + elapsed) % TWO16
  {
    var s := later.now.sec - env.now.sec;
    var u := later.now.usec - env.now.usec;
    var elapsed := if u < 0 then s - 1 else s;
    assert (s * 1000000 + u) / 1000000 == elapsed;
  }

  /** Reading two registers at one instant gives the same in either order. */
  lemma ReadsCommute(r: Registers, env: Env, a: Operand, b: Operand)
    ensures OperandValue(AfterOperand(r, env, a), env, b) == OperandValue(r, env, b)
    ensures AfterOperand(AfterOperand(r, env, a), env, b).gprm == AfterOperand(AfterOperand(r, env, b), env, a).gprm
  {
  }
}
