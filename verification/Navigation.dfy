/** Following links (process_command) and the calls that start a jump. */
module Navigation {
  import opened Bits
  import opened Decoder
  import opened CommandLists
  import opened Disc
  import opened Machine

  /** One turn of the link loop: another link to follow, or the loop's return. */
  datatype Turn =
    | Follow(state: State, link: Link)
    | Return(state: State, hopped: bool)

  function Turned(p: Outcome<Played>): Outcome<Turn> {
    var played :- p;
    Ok(Follow(played.state, played.link))
  }

  /** Select the button a link names, when it names one. */
  function SelectButton(s: State, button: u16): State {
    if button != 0 then SetReg(s, HL_BTNN_REG, button * 1024) else s
  }

  /** The link itself, with its command replaced by Exit. */
  function ExitFrom(s: State, link: Link): Outcome<Turn> {
    Ok(Follow(s, link.(command := Exit)))
  }

  function VtsHasMenus(d: Disc, s: State): bool {
    s.vtsi != 0 && TitleSetAt(d, s.vtsi).menus.Some?
  }

  /** The PGC a sibling link asks for: 0 fails the assertion. */
  function LinkSibling(d: Disc, o: Oracle, s: State, link: Link, pgcn: nat, fuel: nat): Outcome<Turn> {
    if pgcn == 0 then Abort
    else
      var (found, s1) := SetPGCN(d, s, pgcn);
      if found then Turned(PlayPGC(d, o, s1, fuel)) else ExitFrom(s1, link)
  }

  /** The state with the slot's registers back in place. */
  function Restored(s: State, r: Resume): State
    requires |r.regs| == 5
  {
    s.(registers := s.registers.(sprm := s.registers.sprm[..4] + r.regs + s.registers.sprm[9..]))
  }

  /** Title set, PGC, registers and button in place; cell and program still to come. */
  function ResumedState(d: Disc, s: State, button: u16): State
    requires |s.rsm.regs| == 5
  {
    var s1 := OpenVtsi(d, s.(domain := VtsTitle), s.rsm.vtsN).1;
    SelectButton(Restored(SetPGCN(d, s1, s.rsm.pgcN).1, s.rsm), button)
  }

  function LinkResume(d: Disc, o: Oracle, s: State, link: Link, fuel: nat): Outcome<Turn> {
    if s.rsm.vtsN == 0 then ExitFrom(s, link)
    else if !OpenVtsi(d, s.(domain := VtsTitle), s.rsm.vtsN).0 || |s.rsm.regs| != 5 then Abort
    else
      var s1 := ResumedState(d, s, link.data1);
      if s.rsm.cellN == 0 then
        if s1.cellN == 0 then Abort else Turned(PlayPG(d, o, s1.(pgN := 1), fuel))
      else
        var (inside, s2) :- SetPGN(d, s1.(cellN := s.rsm.cellN));
        if !inside then Abort
        else Ok(Follow(s2, Link(PlayThis, s.rsm.blockN % TWO16, s.rsm.blockN / TWO16 % TWO16, link.data3)))
  }

  /** Links to a cell or program of the current chain. */
  function FollowMove(d: Disc, o: Oracle, s: State, link: Link, fuel: nat): Outcome<Turn> {
    var s1 := SelectButton(s, link.data1);
    var s2 := SelectButton(s, link.data2);
    match link.command
    case LinkTopC => Turned(PlayCell(d, o, s1, fuel))
    case LinkNextC => Turned(PlayCell(d, o, s1.(cellN := s1.cellN + 1), fuel))
    case LinkPrevC => if s1.cellN <= 1 then Abort else Turned(PlayCell(d, o, s1.(cellN := s1.cellN - 1), fuel))
    case LinkTopPG => Turned(PlayPG(d, o, s1, fuel))
    case LinkNextPG => Turned(PlayPG(d, o, s1.(pgN := s1.pgN + 1), fuel))
    case LinkPrevPG => if s1.pgN <= 1 then Abort else Turned(PlayPG(d, o, s1.(pgN := s1.pgN - 1), fuel))
    case LinkPGN => Turned(PlayPG(d, o, s2.(pgN := link.data1), fuel))
    case LinkCN => Turned(PlayCell(d, o, s2.(cellN := link.data1), fuel))
    case _ => Ok(Return(s1, false))   // LinkNoLink
  }

  predicate IsMove(command: LinkCommand) {
    || command.LinkNoLink? || command.LinkTopC? || command.LinkNextC? || command.LinkPrevC? || command.LinkCN?
    || command.LinkTopPG? || command.LinkNextPG? || command.LinkPrevPG? || command.LinkPGN?
  }

  /** Links between program chains, and the ends of the loop. */
  function FollowChain(d: Disc, o: Oracle, s: State, link: Link, fuel: nat): Outcome<Turn> {
    var s1 := SelectButton(s, link.data1);
    match link.command
    case LinkTopPGC => Turned(PlayPGC(d, o, s1, fuel))
    case LinkNextPGC => var pgc :- PgcOf(d, s.pgc); LinkSibling(d, o, s1, link, pgc.next, fuel)
    case LinkPrevPGC => var pgc :- PgcOf(d, s.pgc); LinkSibling(d, o, s1, link, pgc.prev, fuel)
    case LinkGoUpPGC => var pgc :- PgcOf(d, s.pgc); LinkSibling(d, o, s1, link, pgc.goUp, fuel)
    case LinkTailPGC => Turned(PlayPGCPost(d, o, s1, fuel))
    case LinkRSM => LinkResume(d, o, s, link, fuel)
    case LinkPGCN =>
      var (found, s3) := SetPGCN(d, s, link.data1);
      if found then Turned(PlayPGC(d, o, s3, fuel)) else Abort
    case LinkPTTN =>
      if s.domain != VtsTitle then Abort
      else
        var (found, s3) :- SetVtsPTT(d, SelectButton(s, link.data2), s.vtsN, Reg(s, VTS_TTN_REG), link.data1);
        if found then Turned(PlayPG(d, o, s3, fuel)) else ExitFrom(s3, link)
    case Exit => Ok(Return(s.(stopped := true), false))
    case PlayThis => Ok(Return(s.(blockN := Wrap32(link.data1 + link.data2 * TWO16)), true))
    case _ => Ok(Follow(s, link))   // reserved codes have no case: the loop spins
  }

  function PlayFound(d: Disc, o: Oracle, found: Outcome<(bool, State)>, link: Link, fuel: nat): Outcome<Turn> {
    var (ok, s) :- found;
    if ok then Turned(PlayPGC(d, o, s, fuel)) else ExitFrom(s, link)
  }

  /** As PlayFound, where the source asserts that the target exists. */
  function PlayAsserted(d: Disc, o: Oracle, found: Outcome<(bool, State)>, fuel: nat): Outcome<Turn> {
    var (ok, s) :- found;
    if ok then Turned(PlayPGC(d, o, s, fuel)) else Abort
  }

  function FollowVtsMenu(d: Disc, o: Oracle, s: State, link: Link, fuel: nat): Outcome<Turn> {
    var vts := link.data1 as int;
    if vts == 0 then
      if s.domain == VtsMenu then EnterVtsMenu(d, o, s, link, fuel) else Abort
    else if vts != s.vtsN then
      if s.domain != Vmgm && s.domain != FirstPlay then Abort
      else
        var (opened_, s1) := OpenVtsi(d, s, vts);
        if !opened_ then Abort
        else if !VtsHasMenus(d, s1) then ExitFrom(s1, link)
        else EnterVtsMenu(d, o, s1.(domain := VtsMenu), link, fuel)
    else if s.domain == VtsTitle then Abort
    else if !VtsHasMenus(d, s) then ExitFrom(s, link)
    else EnterVtsMenu(d, o, s.(domain := VtsMenu), link, fuel)
  }

  function EnterVtsMenu(d: Disc, o: Oracle, s: State, link: Link, fuel: nat): Outcome<Turn> {
    var s1 := SetReg(s, VTS_TTN_REG, link.data2);
    var s2 := SetReg(s1, TTN_REG, GetTT(d.titles, s1.vtsN, Reg(s1, VTS_TTN_REG)));
    PlayAsserted(d, o, SetMENU(d, s2, link.data3), fuel)
  }

  /** Jumps and calls between domains. */
  function FollowJump(d: Disc, o: Oracle, s: State, link: Link, fuel: nat): Outcome<Turn> {
    match link.command
    case JumpTT =>
      if s.domain != Vmgm && s.domain != FirstPlay then Abort
      else PlayFound(d, o, SetPTT(d, s, link.data1, 1), link, fuel)
    case JumpVTS_TT =>
      if s.domain != VtsMenu && s.domain != VtsTitle then Abort
      else PlayFound(d, o, SetVtsPTT(d, s, s.vtsN, link.data1, 1), link, fuel)
    case JumpVTS_PTT =>
      if s.domain != VtsMenu && s.domain != VtsTitle then Abort
      else
        var (found, s1) :- SetVtsPTT(d, s, s.vtsN, link.data1, link.data2);
        if found then Turned(PlayPGCPG(d, o, s1, s1.pgN, fuel)) else ExitFrom(s1, link)
    case JumpSS_FP =>
      if s.domain != Vmgm && s.domain != VtsMenu then Abort
      else PlayAsserted(d, o, Ok(SetFpPGC(d, s)), fuel)
    case JumpSS_VMGM_MENU =>
      if s.domain == VtsTitle then Abort
      else if d.menus.None? then ExitFrom(s, link)
      else PlayAsserted(d, o, SetMENU(d, s.(domain := Vmgm), link.data1), fuel)
    case JumpSS_VTSM => FollowVtsMenu(d, o, s, link, fuel)
    case JumpSS_VMGM_PGC =>
      if s.domain == VtsTitle then Abort
      else if d.menus.None? then ExitFrom(s, link)
      else PlayAsserted(d, o, Ok(SetPGCN(d, s.(domain := Vmgm), link.data1)), fuel)
    case _ => if IsMove(link.command) then FollowMove(d, o, s, link, fuel) else FollowChain(d, o, s, link, fuel)
  }

  predicate IsCall(command: LinkCommand) {
    command.CallSS_FP? || command.CallSS_VMGM_MENU? || command.CallSS_VTSM? || command.CallSS_VMGM_PGC?
  }

  /** The resume cell a call names; 0 asks for the current one. */
  function CallCell(link: Link): u16 {
    if link.command == CallSS_FP then link.data1 else link.data2
  }

  /** Where a call goes once the record is saved. */
  function EnterCalled(d: Disc, o: Oracle, s: State, link: Link, fuel: nat): Outcome<Turn> {
    match link.command
    case CallSS_FP => Turned(PlayPGC(d, o, SetFpPGC(d, s).1, fuel))
    case CallSS_VMGM_MENU => PlayAsserted(d, o, SetMENU(d, s.(domain := Vmgm), link.data1), fuel)
    case CallSS_VTSM => PlayAsserted(d, o, SetMENU(d, s.(domain := VtsMenu), link.data1), fuel)
    case _ => PlayAsserted(d, o, Ok(SetPGCN(d, s.(domain := Vmgm), link.data1)), fuel)
  }

  /** Calls leave the title domain after filling the resume slot. */
  function FollowCall(d: Disc, o: Oracle, s: State, link: Link, fuel: nat): Outcome<Turn> {
    if s.domain != VtsTitle then Abort
    else if (link.command.CallSS_VMGM_MENU? || link.command.CallSS_VMGM_PGC?) && d.menus.None? then ExitFrom(s, link)
    else if link.command == CallSS_VTSM && !VtsHasMenus(d, s) then ExitFrom(s, link)
    else
      var s1 :- SetRSMinfo(d, s, CallCell(link), 0);
      EnterCalled(d, o, s1, link, fuel)
  }

  function Process(d: Disc, o: Oracle, s: State, link: Link, fuel: nat): Outcome<Turn> {
    if IsCall(link.command) then FollowCall(d, o, s, link, fuel) else FollowJump(d, o, s, link, fuel)
  }

  /** process_command: the link loop, for at most `turns` turns. */
  function Loop(d: Disc, o: Oracle, s: State, link: Link, turns: nat, fuel: nat): Outcome<(State, bool)>
    decreases turns
  {
    if turns == 0 then Spent
    else
      var turn :- Process(d, o, s, link, fuel);
      match turn
      case Return(s', hopped) => Ok((s', hopped))
      case Follow(s', link') => Loop(d, o, s', link', turns - 1, fuel)
  }

  // Calls from outside

  datatype Menu = TitleMenu | EscapeMenu | OtherMenu(id: nat)

  datatype Call =
    | Start                                           // vm_start
    | Reset                                           // vm_reset
    | Stop                                            // vm_stop
    | GetNextCell                                     // vm_get_next_cell
    | JumpCellBlock(cell: int, block: int)
    | JumpTitleProgram(title: int, pgcn: int, pgn: int)
    | JumpTitlePart(title: int, part: int)
    | TopPg | NextPg | PrevPg | GoUp
    | JumpMenu(menu: Menu)
    | JumpResume
    | ExecCommand(command: u64)                       // vm_exec_cmd
    | SelectAngle(angle: u16)                         // dvdnav_angle_change
    | ChooseButton(button: nat)                       // dvdnav_button_select
    | AtBlock(block: int)                             // blockN follows the VOBU being played

  /** What is left to do once the link loop of a call returns. */
  datatype After = Nothing | ThenLastProgram | ThenBlock(cell: int, block: int)

  datatype Begun =
    | Hop(state: State, link: Link, after: After)
    | Done(state: State, result: bool)

  function Hopping(p: Outcome<Played>, after: After): Outcome<Begun> {
    var played :- p;
    Ok(Hop(played.state, played.link, after))
  }

  const LANGUAGE: u16 := 0x656e   // "en"

  function ResetRegisters(): Registers {
    var sprm := seq(24, k requires 0 <= k < 24 =>
      if k in {0, 16, 18} then LANGUAGE
      else if k == 1 then 15 else if k == 2 then 62
      else if k in {3, 4, 5, 7, 20} then 1
      else if k == 8 then 1024 else if k == 12 then 0x5553
      else if k == 13 then 15 else if k == 14 then 0x100 else 0);
    RegisterFile(sprm, seq(16, _ => 0), seq(16, _ => false), seq(16, _ => Time(0, 0)))
  }

  /** vm_reset keeps the open title set, the pgc, blockN and the slot's registers and pgcN. */
  function ResetState(s: State): State {
    s.(registers := ResetRegisters(), pgN := 0, cellN := 0, cellRestart := 0, domain := FirstPlay,
       rsm := s.rsm.(vtsN := 0, cellN := 0, blockN := 0), vtsN := -1, hopChannel := 0)
  }

  /** The state of a new player (all zero) after its first reset. */
  const INITIAL: State := ResetState(State(ResetRegisters(), 0, FirstPlay, 0, 0, NoPgc, 0, 0, 0, 0, 0,
                                           Resume(0, 0, [0, 0, 0, 0, 0], 0, 0), 0, false))

  function BeginMenu(d: Disc, o: Oracle, s: State, menu: Menu, fuel: nat): Outcome<Begun> {
    if s.domain == FirstPlay then Ok(Done(s, false))
    else
      var s1 :- if s.domain == VtsTitle then SetRSMinfo(d, s, 0, s.blockN) else Ok(s);
      var toVmgm := !menu.OtherMenu?;
      if if toVmgm then d.menus.None? else !VtsHasMenus(d, s1) then Ok(Done(s1, false))
      else
        var id := match menu case TitleMenu => 2 case EscapeMenu => 0 case OtherMenu(id) => id;
        var s2 := s1.(domain := if toVmgm then Vmgm else VtsMenu);
        var (found, s3) :- SetMENU(d, s2, id);
        if found then Hopping(PlayPGC(d, o, s3, fuel), Nothing)
        else Ok(Done(s3.(domain := s.domain), false))
  }

  /** vm_jump_title_part and vm_jump_title_program: a jump out of the
      pre-commands is ignored and the program played anyway. */
  function PlayRegardless(d: Disc, o: Oracle, s: State, fuel: nat): Outcome<Begun> {
    var played :- PlayPGCPG(d, o, s, s.pgN, fuel);
    if played.link.command == PlayThis then Ok(Hop(played.state, played.link, Nothing))
    else Hopping(PlayPG(d, o, played.state, fuel), Nothing)
  }

  function Begin(d: Disc, o: Oracle, s: State, call: Call, fuel: nat): Outcome<Begun> {
    match call
    case Start =>
      var s1 := if s.stopped then ResetState(s).(stopped := false) else s;
      Hopping(PlayPGC(d, o, SetFpPGC(d, s1).1, fuel), Nothing)
    case Reset => Ok(Done(ResetState(s), true))
    case Stop => Ok(Done(s.(stopped := true), true))
    case GetNextCell => Hopping(PlayCellPost(d, o, s, fuel), Nothing)
    case JumpCellBlock(cell, block) =>
      Hopping(PlayCell(d, o, s.(cellN := cell), fuel), ThenBlock(cell, block))
    case JumpTitleProgram(title, pgcn, pgn) =>
      var (found, s1) :- SetPROG(d, s, title, pgcn, pgn);
      if found then PlayRegardless(d, o, s1, fuel) else Ok(Done(s1, false))
    case JumpTitlePart(title, part) =>
      var (found, s1) :- SetPTT(d, s, title, part);
      if found then PlayRegardless(d, o, s1, fuel) else Ok(Done(s1, false))
    case TopPg => Hopping(PlayPG(d, o, s, fuel), Nothing)
    case NextPg =>
      var pgc :- PgcOf(d, s.pgc);
      if s.pgN >= |pgc.programs| then Hopping(PlayPGCPost(d, o, s, fuel), Nothing)
      else Hopping(PlayPG(d, o, s.(pgN := s.pgN + 1), fuel), Nothing)
    case PrevPg =>
      if s.pgN > 1 then Hopping(PlayPG(d, o, s.(pgN := s.pgN - 1), fuel), Nothing)
      else
        var pgc :- PgcOf(d, s.pgc);
        var (found, s1) := if pgc.prev != 0 then SetPGCN(d, s, pgc.prev) else (false, s);
        if found then Hopping(PlayPGC(d, o, s1, fuel), ThenLastProgram) else Ok(Done(s1, false))
    case GoUp =>
      var pgc :- PgcOf(d, s.pgc);
      var (found, s1) := if pgc.goUp != 0 then SetPGCN(d, s, pgc.goUp) else (false, s);
      if found then Hopping(PlayPGC(d, o, s1, fuel), Nothing) else Ok(Done(s1, false))
    case JumpMenu(menu) => BeginMenu(d, o, s, menu, fuel)
    case JumpResume =>
      if s.rsm.vtsN == 0 then Ok(Done(s, false)) else Ok(Hop(s, Link(LinkRSM, 0, 0, 0), Nothing))
    case ExecCommand(command) => (
      match Eval([command], s.registers, o, s.tick)
      case Aborts => Abort
      case TakesLink(link, r, t) => Ok(Hop(WithRegisters(s, r, t), link, Nothing))
      case FallsThrough(r, t) => Ok(Done(WithRegisters(s, r, t), false)))
    case SelectAngle(angle) => Ok(Done(SetReg(s, AGL_REG, angle), true))
    case ChooseButton(button) => Ok(Done(SetReg(s, HL_BTNN_REG, button * 1024), true))
    case AtBlock(block) => Ok(Done(s.(blockN := block), true))
  }

  /** What a call does after its link loop returned. */
  function Finally(d: Disc, o: Oracle, s: State, hopped: bool, after: After, fuel: nat): Outcome<Begun> {
    match after
    case Nothing => Ok(Done(s, hopped))
    case ThenLastProgram =>
      var pgc :- PgcOf(d, s.pgc);
      Hopping(PlayPG(d, o, s.(pgN := |pgc.programs|), fuel), Nothing)
    case ThenBlock(cell, block) => Ok(Done(if s.cellN == cell then s.(blockN := block) else s, true))
  }

  /** What a call that followed links answers. */
  function Answer(call: Call, s: State, hopped: bool): bool {
    match call
    case Start => !s.stopped
    case JumpResume => hopped
    case ExecCommand(_) => hopped
    case _ => true
  }

  /** One call from beginning to end, with at most `turns` turns in each link loop. */
  function Perform(d: Disc, o: Oracle, s: State, call: Call, turns: nat, fuel: nat): Outcome<(bool, State)> {
    var begun :- Begin(d, o, s, call, fuel);
    match begun
    case Done(s', result) => Ok((result, s'))
    case Hop(s', link, after) =>
      var (s1, hopped) :- Loop(d, o, s', link, turns, fuel);
      var ended :- Finally(d, o, s1, hopped, after, fuel);
      match ended
      case Done(s2, _) => Ok((Answer(call, s2, hopped), s2))
      case Hop(s2, link2, _) =>
        var (s3, hopped2) :- Loop(d, o, s2, link2, turns, fuel);
        Ok((Answer(call, s3, hopped2), s3))
  }

  // Runs

  /** Between calls, or inside a call's link loop. */
  datatype Config = Idle(state: State) | Running(state: State, link: Link, after: After)

  /** A step of the outside world: a call, or the link loop turning once. */
  datatype Event = Called(call: Call, fuel: nat) | LoopTurn(fuel: nat)

  function Begins(b: Outcome<Begun>): Outcome<Config> {
    var begun :- b;
    Ok(match begun case Hop(s, link, after) => Running(s, link, after) case Done(s, _) => Idle(s))
  }

  function Advance(d: Disc, o: Oracle, c: Config, e: Event): Outcome<Config> {
    match (c, e)
    case (Idle(s), Called(call, fuel)) => Begins(Begin(d, o, s, call, fuel))
    case (Running(s, link, after), LoopTurn(fuel)) => (
      var turn :- Process(d, o, s, link, fuel);
      match turn
      case Follow(s', link') => Ok(Running(s', link', after))
      case Return(s', hopped) => Begins(Finally(d, o, s', hopped, after, fuel)))
    case _ => Abort
  }

  /** The range checks made by dvdnav_part_play and dvdnav_program_play, and
      the one dvdnav_program_play lacks: that the PGC exists. */
  predicate Legal(d: Disc, call: Call) {
    match call
    case JumpTitlePart(title, part) => 1 <= title <= |d.titles| && 1 <= part <= d.titles[title - 1].parts
    case JumpTitleProgram(title, pgcn, _) =>
      1 <= title <= |d.titles| && 1 <= pgcn <= |TitleSetAt(d, d.titles[title - 1].vts).pgcs|
    case _ => true
  }

  /** Configurations linked by events, from c0 on; no step aborts. */
  predicate IsRun(d: Disc, o: Oracle, run: seq<Config>, events: seq<Event>) {
    && |run| == |events| + 1
    && forall i | 0 <= i < |events| ::
         && (events[i].Called? ==> Legal(d, events[i].call))
         && Advance(d, o, run[i], events[i]) == Ok(run[i + 1])
  }
}
