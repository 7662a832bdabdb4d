/** The main results about runs: linked registers, playable positions, resume. */
module NavigationTheorems {
  import opened Bits
  import opened Decoder
  import opened CommandLists
  import opened Disc
  import opened Machine
  import opened Navigation
  import opened NavigationLaws
  import opened NavigationRuns

  /** The player is running and not about to stop. */
  predicate Live(c: Config) {
    !c.state.stopped && (c.Running? ==> c.link.command != Exit)
  }

  /** In every configuration of every run of a new player on a consistent disc:
      TTN_REG never exceeds the title count; in the title domain the title it
      names is (vtsN, VTS_TTN_REG) and TT_PGCN_REG is pgcN; and a filled resume
      slot satisfies the same relation. */
  lemma LinkedRegisters(d: Disc, o: Oracle, run: seq<Config>, events: seq<Event>, i: nat)
    requires Consistent(d) && IsRun(d, o, run, events) && run[0] == Idle(INITIAL) && i < |run|
    ensures var s := run[i].state; var tt := Reg(s, TTN_REG);
      && tt as int <= |d.titles|
      && (Live(run[i]) && s.domain == VtsTitle ==>
            && tt >= 1 && d.titles[tt - 1].vts == s.vtsN && d.titles[tt - 1].vtsTitle == Reg(s, VTS_TTN_REG)
            && Reg(s, TT_PGCN_REG) == s.pgcN)
      && (Live(run[i]) && s.rsm.vtsN != 0 ==>
            && |s.rsm.regs| == 5 && 1 <= s.rsm.regs[0] as int <= |d.titles|
            && d.titles[s.rsm.regs[0] - 1].vts == s.rsm.vtsN
            && d.titles[s.rsm.regs[0] - 1].vtsTitle == s.rsm.regs[1]
            && s.rsm.regs[2] == s.rsm.pgcN)
  {
    hide IsRun, InTable;
    InitialInv(d);
    RunKeeps(d, o, run, events, i);
  }

  lemma InitialInv(d: Disc)
    requires Consistent(d)
    ensures Inv(d, INITIAL)
  {
  }

  /** set_PGN's "return 0; /* ?? */" is never reached in a run. */
  lemma TitleNumberInRange(d: Disc, o: Oracle, run: seq<Config>, events: seq<Event>, i: nat)
    requires Consistent(d) && IsRun(d, o, run, events) && run[0] == Idle(INITIAL) && i < |run|
    ensures var s := run[i].state; var r := SetPGN(d, s);
      r.Ok? && !r.value.0 ==> s.cellN > |PgcOf(d, s.pgc).value.cells|
  {
    hide IsRun, CurrentPart;
    LinkedRegisters(d, o, run, events, i);
  }

  lemma {:induction false} LeadingIsCount(programs: seq<nat>, cell: int)
    requires forall j, k | 0 <= j < k < |programs| :: programs[j] <= programs[k]
    ensures LeadingPrograms(programs, cell) == ProgramsUpTo(programs, cell)
  {
    if programs != [] {
      var front := programs[..|programs| - 1];
      LeadingIsCount(front, cell);
      LeadingOfFront(programs, cell);
    }
  }

  lemma {:induction false} LeadingOfFront(programs: seq<nat>, cell: int)
    requires programs != []
    requires forall j, k | 0 <= j < k < |programs| :: programs[j] <= programs[k]
    ensures LeadingPrograms(programs, cell) ==
      LeadingPrograms(programs[..|programs| - 1], cell) + if programs[|programs| - 1] <= cell then 1 else 0
  {
    if |programs| > 1 {
      assert programs[1..][..|programs| - 2] == programs[..|programs| - 1][1..];
      LeadingOfFront(programs[1..], cell);
    } else {
      assert programs[..0] == [] && programs[1..] == [];
    }
  }

  /** Whenever the link loop is about to report a hop, outside the first-play
      domain, the pgc is entry pgcN of the domain's table, cellN is one of its
      cells, and pgN counts the programs entered at or before that cell. */
  lemma PlayablePosition(d: Disc, o: Oracle, run: seq<Config>, events: seq<Event>, i: nat)
    requires Consistent(d) && ProgramsInRange(d)
    requires IsRun(d, o, run, events) && run[0] == Idle(INITIAL) && i < |run|
    requires run[i].Running? && run[i].link.command == PlayThis && !run[i].state.stopped
    requires run[i].state.domain != FirstPlay
    ensures var s := run[i].state; var table := CurrentTable(d, s);
      && table.Some? && 1 <= s.pgcN <= |Entries(d, table.value)| && s.pgc == TableEntry(table.value, s.pgcN)
      && var pgc := Entries(d, table.value)[s.pgcN - 1].pgc;
      && 1 <= s.cellN <= |pgc.cells|
      && (Ascending(pgc) ==> s.pgN == ProgramsUpTo(pgc.programs, s.cellN))
  {
    hide IsRun, Linked, LeadingPrograms, ProgramsUpTo;
    InitialInv(d);
    RunKeeps(d, o, run, events, i);
    var s := run[i].state;
    var pgc := Entries(d, CurrentTable(d, s).value)[s.pgcN - 1].pgc;
    if Ascending(pgc) {
      LeadingIsCount(pgc.programs, s.cellN);
    }
  }

  // The one call that can break the links

  /** vm_jump_title_program leaves the registers linked and the pgc in its table
      exactly when the chain it names exists (or the number, cut to 16 bits, is
      the one already playing). */
  lemma ProgramJumpLinks(d: Disc, s: State, title: int, pgcn: int, pgn: int)
    requires Consistent(d) && Inv(d, s) && !s.stopped && 1 <= title <= |d.titles|
    ensures var r := SetPROG(d, s, title, pgcn, pgn);
      var table := TitleTable(d.titles[title - 1].vts);
      var n := |Entries(d, table)|;
      r.Ok? ==>
        (Linked(d, r.value.1) && InTable(d, r.value.1) <==>
          1 <= pgcn <= n || (s.pgc == TableEntry(table, s.pgcN) && s.pgcN == pgcn % TWO16 && 1 <= s.pgcN <= n))
  {
    hide GetTT, CurrentPart, Saved;
    SetPROGPlaces(d, s, title, pgcn, pgn);
    var t := d.titles[title - 1];
    assert ConsistentTitle(d, t) by { assert t in d.titles; }
    var (opened_, s1) := OpenVtsi(d, s.(domain := VtsTitle), t.vts);
    OpenVtsiOpens(d, s.(domain := VtsTitle), t.vts);
    assert s1.vtsi == t.vts && s1.vtsN == t.vts;
    var tt := GetTT(d.titles, t.vts, t.vtsTitle);
    assert tt <= |d.titles| && tt > 0 by { assert d.titles[title - 1] == t; }
    assert d.titleSets[t.vts - 1] in d.titleSets;
    var s3 := SetReg(SetReg(SetReg(s1, TT_PGCN_REG, pgcn), TTN_REG, tt), VTS_TTN_REG, t.vtsTitle).(vtsN := t.vts);
    assert Reg(s3, TTN_REG) as int == tt && Reg(s3, VTS_TTN_REG) as int == t.vtsTitle && Reg(s3, TT_PGCN_REG) as int == pgcn % TWO16;
    SetPGCNPlaces(d, s3, pgcn);
  }

  /** A disc with one title of one chain, and a player inside it. */
  const ONE_CHAIN: Disc := Disc(
    [Title(1, 1, 1, 1)],
    [TitleSet([[Part(1, 1)]], [Entry(0x81, Pgc([1], [Cell(0, 0, 0, 0, 9, 0, 0, BcdTime(0, 0, 1, 0))], [], [], [], 0, 0, 0, 0))], None)],
    None, None, 0)

  const IN_CHAIN: State := INITIAL.(
    registers := INITIAL.registers.(sprm := INITIAL.registers.sprm[TT_PGCN_REG := 1]),
    domain := VtsTitle, vtsi := 1, vtsN := 1, pgc := TableEntry(TitleTable(1), 1), pgcN := 1, pgN := 1, cellN := 1)

  /** Asking for chain 2 of a one-chain title is refused, yet leaves TT_PGCN_REG at 2 and pgcN at 1. */
  lemma ProgramJumpUnlinks(o: Oracle)
    ensures Consistent(ONE_CHAIN) && Inv(ONE_CHAIN, IN_CHAIN)
    ensures var r := Begin(ONE_CHAIN, o, IN_CHAIN, JumpTitleProgram(1, 2, 1), 0);
      r.Ok? && r.value.Done? && !r.value.result && !r.value.state.stopped
      && Reg(r.value.state, TT_PGCN_REG) == 2 && r.value.state.pgcN == 1
  {
    var d := ONE_CHAIN;
    assert TitleSetAt(d, 1) == d.titleSets[0];
    assert Entries(d, TitleTable(1)) == d.titleSets[0].pgcs;
    assert GetTT(d.titles, 1, 1) == 1;
    assert FindPart([Part(1, 1)], 0, 1, 1) == 1;
    assert FindTitlePart(d.titleSets[0].titles, 0, 1, 1) == (1, 1);
  }

  // Resume

  /** The block a PlayThis link carries in two halves. */
  function Joined(link: Link): int {
    Wrap32(link.data1 + link.data2 * TWO16)
  }

  /** The turn left the resume slot alone, and the block as it was or 0; a PlayThis it
      hands on carries 0 or the slot's block. */
  predicate SlotKept(s: State, t: Outcome<Turn>) {
    t.Ok? ==>
      && t.value.state.rsm == s.rsm && (t.value.state.blockN == 0 || t.value.state.blockN == s.blockN)
      && (t.value.Follow? && t.value.link.command == PlayThis ==>
           Joined(t.value.link) == 0 || Joined(t.value.link) == Wrap32(s.rsm.blockN))
  }

  lemma TurnedSlot(d: Disc, s: State, s0: State, p: Outcome<Played>)
    requires PlayedWell(d, s, p) && SameSlot(s0, s)
    ensures SlotKept(s0, Turned(p))
  {
    hide Placed, Playable;
  }

  lemma PlayedSlot(d: Disc, o: Oracle, s: State, s0: State, fuel: nat)
    requires Consistent(d) && SameSlot(s0, s)
    ensures SlotKept(s0, Turned(PlayPGC(d, o, s, fuel)))
    ensures SlotKept(s0, Turned(PlayPGCPG(d, o, s, s.pgN, fuel)))
    ensures SlotKept(s0, Turned(PlayPG(d, o, s, fuel)))
    ensures SlotKept(s0, Turned(PlayCell(d, o, s, fuel)))
    ensures SlotKept(s0, Turned(PlayPGCPost(d, o, s, fuel)))
  {
    hide PlayPGCPG, PlayPG, PlayCell, PlayPGCPost, PlayedWell, SlotKept, Turned;
    PlayPGCPGKeeps(d, o, s, 1, fuel);
    PlayPGCPGKeeps(d, o, s, s.pgN, fuel);
    PlayPGKeeps(d, o, s, fuel);
    PlayCellKeeps(d, o, s, fuel);
    PlayPGCPostKeeps(d, o, s, fuel);
    TurnedSlot(d, s, s0, PlayPGC(d, o, s, fuel));
    TurnedSlot(d, s, s0, PlayPGCPG(d, o, s, s.pgN, fuel));
    TurnedSlot(d, s, s0, PlayPG(d, o, s, fuel));
    TurnedSlot(d, s, s0, PlayCell(d, o, s, fuel));
    TurnedSlot(d, s, s0, PlayPGCPost(d, o, s, fuel));
  }

  predicate SameSlot(s: State, t: State) {
    t.rsm == s.rsm && t.blockN == s.blockN
  }

  lemma SetSlot(d: Disc, s: State, n: int, menu: nat, vtsN: int, title: int, part: int)
    ensures SameSlot(s, SetPGCN(d, s, n).1) && SameSlot(s, SetFpPGC(d, s).1)
    ensures SetMENU(d, s, menu).Ok? ==> SameSlot(s, SetMENU(d, s, menu).value.1)
    ensures SetVtsPTT(d, s, vtsN, title, part).Ok? ==> SameSlot(s, SetVtsPTT(d, s, vtsN, title, part).value.1)
  {
  }

  lemma MoveSlot(d: Disc, o: Oracle, s: State, link: Link, fuel: nat)
    requires Consistent(d)
    ensures SlotKept(s, FollowMove(d, o, s, link, fuel))
  {
    hide PlayPGC, PlayPGCPG, PlayPG, PlayCell, PlayPGCPost;
    var s1 := SelectButton(s, link.data1);
    var s2 := SelectButton(s, link.data2);
    PlayedSlot(d, o, s1, s, fuel);
    PlayedSlot(d, o, s1.(cellN := s1.cellN + 1), s, fuel);
    PlayedSlot(d, o, s1.(cellN := s1.cellN - 1), s, fuel);
    PlayedSlot(d, o, s1.(pgN := s1.pgN + 1), s, fuel);
    PlayedSlot(d, o, s1.(pgN := s1.pgN - 1), s, fuel);
    PlayedSlot(d, o, s2.(pgN := link.data1), s, fuel);
    PlayedSlot(d, o, s2.(cellN := link.data1), s, fuel);
  }

  lemma SiblingSlot(d: Disc, o: Oracle, s: State, link: Link, pgcn: nat, fuel: nat)
    requires Consistent(d)
    ensures SlotKept(s, LinkSibling(d, o, s, link, pgcn, fuel))
  {
    hide PlayPGC, SetPGCN;
    SetSlot(d, s, pgcn, 0, 0, 0, 0);
    PlayedSlot(d, o, SetPGCN(d, s, pgcn).1, s, fuel);
  }

  lemma ResumedSlot(d: Disc, s: State, button: u16)
    requires |s.rsm.regs| == 5
    ensures SameSlot(s, ResumedState(d, s, button))
  {
    hide SetPGCN;
    SetSlot(d, OpenVtsi(d, s.(domain := VtsTitle), s.rsm.vtsN).1, s.rsm.pgcN, 0, 0, 0, 0);
  }

  lemma ResumeSlot(d: Disc, o: Oracle, s: State, link: Link, fuel: nat)
    requires Consistent(d)
    ensures SlotKept(s, LinkResume(d, o, s, link, fuel))
  {
    hide PlayPG, SetPGCN, SetPGN, Wrap32, ResumedState, OpenVtsi, Turned;
    SplitWraps(s.rsm.blockN);
    if |s.rsm.regs| == 5 {
      var s1 := ResumedState(d, s, link.data1);
      ResumedSlot(d, s, link.data1);
      PlayedSlot(d, o, s1.(pgN := 1), s, fuel);
      SetPGNKeeps(d, s1.(cellN := s.rsm.cellN));
    }
  }

  lemma ChainSlot(d: Disc, o: Oracle, s: State, link: Link, fuel: nat)
    requires Consistent(d) && link.command != PlayThis
    ensures SlotKept(s, FollowChain(d, o, s, link, fuel))
  {
    hide PlayPGC, PlayPG, PlayPGCPost, SetPGCN, SetVtsPTT, LinkSibling, LinkResume;
    var s1 := SelectButton(s, link.data1);
    var pgc := PgcOf(d, s.pgc);
    match link.command
    case LinkTopPGC => PlayedSlot(d, o, s1, s, fuel);
    case LinkNextPGC => if pgc.Ok? { SiblingSlot(d, o, s1, link, pgc.value.next, fuel); }
    case LinkPrevPGC => if pgc.Ok? { SiblingSlot(d, o, s1, link, pgc.value.prev, fuel); }
    case LinkGoUpPGC => if pgc.Ok? { SiblingSlot(d, o, s1, link, pgc.value.goUp, fuel); }
    case LinkTailPGC => PlayedSlot(d, o, s1, s, fuel);
    case LinkRSM => ResumeSlot(d, o, s, link, fuel);
    case LinkPGCN =>
      SetSlot(d, s, link.data1, 0, 0, 0, 0);
      PlayedSlot(d, o, SetPGCN(d, s, link.data1).1, s, fuel);
    case LinkPTTN =>
      var s2 := SelectButton(s, link.data2);
      SetSlot(d, s2, 0, 0, s.vtsN, Reg(s, VTS_TTN_REG), link.data1);
      var r := SetVtsPTT(d, s2, s.vtsN, Reg(s, VTS_TTN_REG), link.data1);
      if r.Ok? {
        PlayedSlot(d, o, r.value.1, s, fuel);
      }
    case _ =>
  }

  lemma AssertedSlot(d: Disc, o: Oracle, s: State, found: Outcome<(bool, State)>, link: Link, fuel: nat)
    requires Consistent(d) && (found.Ok? ==> SameSlot(s, found.value.1))
    ensures SlotKept(s, PlayAsserted(d, o, found, fuel)) && SlotKept(s, PlayFound(d, o, found, link, fuel))
  {
    hide PlayPGC;
    if found.Ok? {
      PlayedSlot(d, o, found.value.1, s, fuel);
    }
  }

  lemma VtsMenuSlot(d: Disc, o: Oracle, s: State, link: Link, fuel: nat)
    requires Consistent(d)
    ensures SlotKept(s, FollowVtsMenu(d, o, s, link, fuel))
  {
    hide PlayAsserted, SetMENU;
    EnterSlot(d, o, s, link, fuel);
    EnterSlot(d, o, OpenVtsi(d, s, link.data1).1.(domain := VtsMenu), link, fuel);
    EnterSlot(d, o, s.(domain := VtsMenu), link, fuel);
  }

  lemma EnterSlot(d: Disc, o: Oracle, s: State, link: Link, fuel: nat)
    requires Consistent(d)
    ensures SlotKept(s, EnterVtsMenu(d, o, s, link, fuel))
  {
    hide PlayAsserted, SetMENU;
    var s1 := SetReg(s, VTS_TTN_REG, link.data2);
    var s2 := SetReg(s1, TTN_REG, GetTT(d.titles, s1.vtsN, Reg(s1, VTS_TTN_REG)));
    SetSlot(d, s2, 0, link.data3, 0, 0, 0);
    AssertedSlot(d, o, s, SetMENU(d, s2, link.data3), link, fuel);
  }

  lemma JumpSlot(d: Disc, o: Oracle, s: State, link: Link, fuel: nat)
    requires Consistent(d) && link.command != PlayThis
    ensures SlotKept(s, FollowJump(d, o, s, link, fuel))
  {
    hide PlayPGCPG, PlayFound, PlayAsserted, SetPGCN, SetFpPGC, SetMENU, SetVtsPTT, FollowVtsMenu, FollowMove, FollowChain;
    var s1 := s.(domain := Vmgm);
    match link.command
    case JumpTT =>
      if 1 <= link.data1 as int <= |d.titles| {
        var t := d.titles[link.data1 - 1];
        SetSlot(d, s, 0, 0, t.vts, t.vtsTitle, 1);
      }
      AssertedSlot(d, o, s, SetPTT(d, s, link.data1, 1), link, fuel);
    case JumpVTS_TT =>
      SetSlot(d, s, 0, 0, s.vtsN, link.data1, 1);
      AssertedSlot(d, o, s, SetVtsPTT(d, s, s.vtsN, link.data1, 1), link, fuel);
    case JumpVTS_PTT =>
      SetSlot(d, s, 0, 0, s.vtsN, link.data1, link.data2);
      var r := SetVtsPTT(d, s, s.vtsN, link.data1, link.data2);
      if r.Ok? {
        PlayedSlot(d, o, r.value.1, s, fuel);
      }
    case JumpSS_FP =>
      SetSlot(d, s, 0, 0, 0, 0, 0);
      AssertedSlot(d, o, s, Ok(SetFpPGC(d, s)), link, fuel);
    case JumpSS_VMGM_MENU =>
      SetSlot(d, s1, 0, link.data1, 0, 0, 0);
      AssertedSlot(d, o, s, SetMENU(d, s1, link.data1), link, fuel);
    case JumpSS_VTSM => VtsMenuSlot(d, o, s, link, fuel);
    case JumpSS_VMGM_PGC =>
      SetSlot(d, s1, link.data1, 0, 0, 0, 0);
      AssertedSlot(d, o, s, Ok(SetPGCN(d, s1, link.data1)), link, fuel);
    case _ =>
      MoveSlot(d, o, s, link, fuel);
      ChainSlot(d, o, s, link, fuel);
  }

  /** No turn of the link loop outside the title domain changes the resume slot. */
  lemma ProcessSlot(d: Disc, o: Oracle, s: State, link: Link, fuel: nat)
    requires Consistent(d) && s.domain != VtsTitle
    ensures var t := Process(d, o, s, link, fuel); t.Ok? ==> t.value.state.rsm == s.rsm
  {
    hide FollowJump;
    if link.command == PlayThis {
      assert Process(d, o, s, link, fuel) == Ok(Return(s.(blockN := Joined(link)), true)) by {
        PlayThisReturns(d, o, s, link, fuel);
      }
    } else {
      JumpSlot(d, o, s, link, fuel);
    }
  }

  lemma PlayThisReturns(d: Disc, o: Oracle, s: State, link: Link, fuel: nat)
    requires link.command == PlayThis
    ensures Process(d, o, s, link, fuel) == Ok(Return(s.(blockN := Joined(link)), true))
  {
  }

  /** The record set_RSMinfo makes in state s. */
  predicate Recorded(r: Resume, s: State, cellN: int, blockN: int) {
    r.vtsN == s.vtsN && r.pgcN == s.pgcN && r.regs == s.registers.sprm[4..9] && r.cellN == cellN && r.blockN == blockN
  }

  /** The state is where the record says, with the record's title registers and button. */
  predicate RestoredFrom(s: State, r: Resume) {
    && |r.regs| == 5
    && s.domain == VtsTitle && s.vtsN == r.vtsN && s.pgcN == r.pgcN && s.cellN == r.cellN
    && Reg(s, TTN_REG) == r.regs[0] && Reg(s, VTS_TTN_REG) == r.regs[1] && Reg(s, TT_PGCN_REG) == r.regs[2]
    && Reg(s, HL_BTNN_REG) == r.regs[4]
  }

  /** Leaving the title domain by a call fills the slot with the current position. */
  lemma CallRecords(d: Disc, o: Oracle, s: State, link: Link, fuel: nat)
    requires Consistent(d) && Inv(d, s) && !s.stopped && IsCall(link.command)
    ensures var t := Process(d, o, s, link, fuel);
      t.Ok? && t.value.state.domain != VtsTitle ==>
        s.domain == VtsTitle && Recorded(t.value.state.rsm, s, if CallCell(link) != 0 then CallCell(link) else s.cellN, 0)
  {
    hide Placed, SetPGCN, SetFpPGC, SetMENU, PlayPGC;
    var r := SetRSMinfo(d, s, CallCell(link), 0);
    if r.Ok? && s.domain == VtsTitle {
      SavedPosition(d, s, CallCell(link), 0);
      var s1 := r.value;
      SetSlot(d, s1, 1, 0, 0, 0, 0);
      PlayedSlot(d, o, SetFpPGC(d, s1).1, s1, fuel);
      var vmgm, vtsm := s1.(domain := Vmgm), s1.(domain := VtsMenu);
      SetSlot(d, vmgm, link.data1, link.data1, 0, 0, 0);
      SetSlot(d, vtsm, link.data1, link.data1, 0, 0, 0);
      AssertedSlot(d, o, s1, SetMENU(d, vmgm, link.data1), link, fuel);
      AssertedSlot(d, o, s1, SetMENU(d, vtsm, link.data1), link, fuel);
      AssertedSlot(d, o, s1, Ok(SetPGCN(d, vmgm, link.data1)), link, fuel);
    }
  }

  lemma SavedPosition(d: Disc, s: State, cellN: int, blockN: int)
    requires Placed(d, s) && s.domain == VtsTitle
    ensures var r := SetRSMinfo(d, s, cellN, blockN);
      r.Ok? && Recorded(r.value.rsm, s, if cellN != 0 then cellN else s.cellN, blockN)
  {
  }

  /** So does a menu call. */
  lemma MenuRecords(d: Disc, o: Oracle, s: State, menu: Menu, fuel: nat)
    requires Consistent(d) && Inv(d, s) && !s.stopped && s.domain == VtsTitle
    ensures var b := Begin(d, o, s, JumpMenu(menu), fuel);
      b.Ok? ==> Recorded(b.value.state.rsm, s, s.cellN, s.blockN)
  {
    hide Placed, SetMENU, PlayPGC;
    SavedPosition(d, s, 0, s.blockN);
    var s1 := SetRSMinfo(d, s, 0, s.blockN).value;
    var id := match menu case TitleMenu => 2 case EscapeMenu => 0 case OtherMenu(id) => id;
    var s2 := s1.(domain := if menu.OtherMenu? then VtsMenu else Vmgm);
    SetSlot(d, s2, 0, id, 0, 0, 0);
    var m := SetMENU(d, s2, id);
    if m.Ok? {
      PlayedSlot(d, o, m.value.1, s1, fuel);
    }
  }

  lemma FiveRegisters(s: State)
    ensures var regs := s.registers.sprm[4..9];
      regs[0] == Reg(s, 4) && regs[1] == Reg(s, 5) && regs[2] == Reg(s, 6) && regs[4] == Reg(s, 8)
  {
  }

  /** LinkRSM hands on the slot's block in two halves. */
  lemma ResumeLinks(d: Disc, o: Oracle, s: State, link: Link, fuel: nat)
    requires |s.rsm.regs| == 5 && link.command == LinkRSM && s.rsm.vtsN != 0 && s.rsm.cellN != 0
    ensures var t, found := Process(d, o, s, link, fuel), SetPGN(d, ResumedState(d, s, link.data1).(cellN := s.rsm.cellN));
      t.Ok? ==>
        && OpenVtsi(d, s.(domain := VtsTitle), s.rsm.vtsN).0 && found.Ok?
        && t.value.Follow? && t.value.state == found.value.1 && t.value.link.command == PlayThis
        && t.value.link.data1 as int + t.value.link.data2 as int * TWO16 == s.rsm.blockN % TWO32
  {
    hide ResumedState, SetPGN, OpenVtsi;
    SplitJoin(s.rsm.blockN);
  }

  /** LinkRSM without a button puts the player where the slot says. */
  lemma ResumeRestores(d: Disc, o: Oracle, s: State, link: Link, fuel: nat)
    requires Consistent(d) && Inv(d, s) && !s.stopped
    requires link.command == LinkRSM && link.data1 == 0 && s.rsm.vtsN != 0 && s.rsm.cellN != 0
    ensures var t := Process(d, o, s, link, fuel);
      t.Ok? ==>
        && t.value.Follow? && t.value.link.command == PlayThis
        && t.value.link.data1 as int + t.value.link.data2 as int * TWO16 == s.rsm.blockN % TWO32
        && RestoredFrom(t.value.state, s.rsm)
  {
    hide Placed, Saved, ResumedState, SetPGN, OpenVtsi, Process;
    assert |s.rsm.regs| == 5;
    ResumeLinks(d, o, s, link, fuel);
    if OpenVtsi(d, s.(domain := VtsTitle), s.rsm.vtsN).0 {
      ResumedInv(d, s, 0);
      FiveRegisters(ResumedState(d, s, 0));
      SetPGNKeeps(d, ResumedState(d, s, 0).(cellN := s.rsm.cellN));
    }
  }

  /** It aborts exactly when the saved cell lies behind the chain's last cell. */
  lemma ResumeSucceeds(d: Disc, o: Oracle, s: State, link: Link, fuel: nat)
    requires Consistent(d) && ProgramsInRange(d) && Inv(d, s) && !s.stopped
    requires link.command == LinkRSM && s.rsm.vtsN != 0 && s.rsm.cellN != 0
    ensures 1 <= s.rsm.pgcN <= |Entries(d, TitleTable(s.rsm.vtsN))|
    ensures Process(d, o, s, link, fuel).Ok? <==>
      s.rsm.cellN <= |Entries(d, TitleTable(s.rsm.vtsN))[s.rsm.pgcN - 1].pgc.cells|
  {
    hide ResumedState, SetPGN, Linked, FindTitlePart, GetTT;
    ResumedInv(d, s, link.data1);
    var s1 := ResumedState(d, s, link.data1).(cellN := s.rsm.cellN);
    PlacedSame(d, ResumedState(d, s, link.data1), s1);
    SetPGNSucceeds(d, s1);
  }

  lemma SetPGNSucceeds(d: Disc, s: State)
    requires Consistent(d) && ProgramsInRange(d) && Inv(d, s) && !s.stopped && s.domain == VtsTitle
    ensures InTable(d, s)
    ensures var r := SetPGN(d, s);
      r.Ok? && (r.value.0 <==> s.cellN <= |Entries(d, CurrentTable(d, s).value)[s.pgcN - 1].pgc.cells|)
  {
    hide FindTitlePart, GetTT;
    TitleSetPositive(d, s);
    var pgc := Entries(d, CurrentTable(d, s).value)[s.pgcN - 1].pgc;
    assert EntriesInRange(pgc);
  }

  lemma SplitJoin(x: int)
    ensures x % TWO16 + x / TWO16 % TWO16 * TWO16 == x % TWO32
  {
    var hi := x / TWO16;
    assert x == hi * TWO16 + x % TWO16;
    assert hi == hi / TWO16 * TWO16 + hi % TWO16;
    assert x == hi / TWO16 * TWO32 + (hi % TWO16 * TWO16 + x % TWO16);
  }

  lemma SplitWraps(x: int)
    ensures Wrap32(x % TWO16 + x / TWO16 % TWO16 * TWO16) == Wrap32(x)
  {
    hide Wrap32;
    SplitJoin(x);
    CutWraps(x);
  }

  lemma CutWraps(x: int)
    ensures Wrap32(x % TWO32) == Wrap32(x)
  {
    var q, z := x / TWO32, x % TWO32 + 0x8000_0000;
    assert x + 0x8000_0000 == (q + z / TWO32) * TWO32 + z % TWO32;
  }

  /** The PlayThis turn joins the two halves into blockN. */
  lemma PlayThisJoins(d: Disc, o: Oracle, s: State, link: Link, fuel: nat, blockN: int)
    requires link.command == PlayThis && -0x8000_0000 <= blockN < 0x8000_0000
    requires link.data1 as int + link.data2 as int * TWO16 == blockN % TWO32
    ensures Process(d, o, s, link, fuel) == Ok(Return(s.(blockN := blockN), true))
  {
    assert Wrap32(blockN % TWO32) == blockN;
  }

  /** A step that neither runs in the title domain nor resets the player. */
  predicate Outside(c: Config, e: Event) {
    c.state.domain != VtsTitle && (e.Called? ==> e.call != Reset && (e.call == Start ==> !c.state.stopped))
  }

  /** The loop's calls: outside the title domain they do not touch the slot either. */
  lemma AdvanceSlot(d: Disc, o: Oracle, c: Config, e: Event)
    requires Consistent(d) && Outside(c, e)
    ensures var r := Advance(d, o, c, e); r.Ok? ==> r.value.state.rsm == c.state.rsm
  {
    hide Process, Begin, Finally;
    match (c, e)
    case (Idle(s), Called(call, fuel)) => BeginSlot(d, o, s, call, fuel);
    case (Running(s, link, after), LoopTurn(fuel)) =>
      ProcessSlot(d, o, s, link, fuel);
      var t := Process(d, o, s, link, fuel);
      if t.Ok? && t.value.Return? {
        FinallySlot(d, o, t.value.state, t.value.hopped, after, fuel);
      }
    case _ =>
  }

  predicate BegunSlot(s: State, b: Outcome<Begun>) {
    b.Ok? ==>
      && b.value.state.rsm == s.rsm && (b.value.state.blockN == 0 || b.value.state.blockN == s.blockN)
      && (b.value.Hop? && b.value.link.command == PlayThis ==> Joined(b.value.link) == 0)
  }

  lemma HoppingSlot(d: Disc, s: State, s0: State, p: Outcome<Played>, after: After)
    requires PlayedWell(d, s, p) && SameSlot(s0, s)
    ensures BegunSlot(s0, Hopping(p, after))
  {
    hide Placed, Playable;
  }

  lemma HoppedSlot(d: Disc, o: Oracle, s: State, s0: State, fuel: nat, after: After)
    requires Consistent(d) && SameSlot(s0, s)
    ensures BegunSlot(s0, Hopping(PlayPGC(d, o, s, fuel), after))
    ensures BegunSlot(s0, Hopping(PlayPG(d, o, s, fuel), after))
    ensures BegunSlot(s0, Hopping(PlayCell(d, o, s, fuel), after))
    ensures BegunSlot(s0, Hopping(PlayCellPost(d, o, s, fuel), after))
    ensures BegunSlot(s0, Hopping(PlayPGCPost(d, o, s, fuel), after))
  {
    hide PlayPGCPG, PlayPG, PlayCell, PlayCellPost, PlayPGCPost, PlayedWell, BegunSlot, Hopping;
    PlayPGCPGKeeps(d, o, s, 1, fuel);
    PlayPGKeeps(d, o, s, fuel);
    PlayCellKeeps(d, o, s, fuel);
    PlayCellPostKeeps(d, o, s, fuel);
    PlayPGCPostKeeps(d, o, s, fuel);
    HoppingSlot(d, s, s0, PlayPGC(d, o, s, fuel), after);
    HoppingSlot(d, s, s0, PlayPG(d, o, s, fuel), after);
    HoppingSlot(d, s, s0, PlayCell(d, o, s, fuel), after);
    HoppingSlot(d, s, s0, PlayCellPost(d, o, s, fuel), after);
    HoppingSlot(d, s, s0, PlayPGCPost(d, o, s, fuel), after);
  }

  lemma RegardlessSlot(d: Disc, o: Oracle, s: State, s0: State, fuel: nat)
    requires Consistent(d) && SameSlot(s0, s)
    ensures BegunSlot(s0, PlayRegardless(d, o, s, fuel))
  {
    hide PlayPGCPG, PlayPG, Placed, Playable;
    PlayPGCPGKeeps(d, o, s, s.pgN, fuel);
    var p := PlayPGCPG(d, o, s, s.pgN, fuel);
    if p.Ok? {
      PlayPGKeeps(d, o, p.value.state, fuel);
    }
  }

  lemma FinallySlot(d: Disc, o: Oracle, s: State, hopped: bool, after: After, fuel: nat)
    requires Consistent(d)
    ensures var r := Finally(d, o, s, hopped, after, fuel);
      (r.Ok? ==> r.value.state.rsm == s.rsm) && (!after.ThenBlock? ==> BegunSlot(s, r))
  {
    hide PlayPG;
    var pgc := PgcOf(d, s.pgc);
    if pgc.Ok? {
      HoppedSlot(d, o, s.(pgN := |pgc.value.programs|), s, fuel, Nothing);
    }
  }

  lemma JumpPartSlot(d: Disc, o: Oracle, s: State, call: Call, fuel: nat)
    requires Consistent(d) && (call.JumpTitlePart? || call.JumpTitleProgram?)
    ensures BegunSlot(s, Begin(d, o, s, call, fuel))
  {
    hide PlayRegardless, SetPGCN, CurrentPart;
    var title := call.title;
    if 1 <= title <= |d.titles| {
      var t := d.titles[title - 1];
      if call.JumpTitlePart? {
        SetSlot(d, s, 0, 0, t.vts, t.vtsTitle, call.part);
        var r := SetPTT(d, s, title, call.part);
        if r.Ok? {
          RegardlessSlot(d, o, r.value.1, s, fuel);
        }
      } else {
        ProgramSlot(d, s, title, call.pgcn, call.pgn);
        var r := SetPROG(d, s, title, call.pgcn, call.pgn);
        if r.Ok? {
          RegardlessSlot(d, o, r.value.1, s, fuel);
        }
      }
    }
  }

  lemma ProgramSlot(d: Disc, s: State, title: int, pgcn: int, pgn: int)
    ensures var r := SetPROG(d, s, title, pgcn, pgn); r.Ok? ==> SameSlot(s, r.value.1)
  {
  }

  lemma MenuSlot(d: Disc, o: Oracle, s: State, menu: Menu, fuel: nat)
    requires Consistent(d) && s.domain != VtsTitle
    ensures BegunSlot(s, BeginMenu(d, o, s, menu, fuel))
  {
    hide PlayPGC, SetMENU;
    var id := match menu case TitleMenu => 2 case EscapeMenu => 0 case OtherMenu(id) => id;
    var s2 := s.(domain := if menu.OtherMenu? then VtsMenu else Vmgm);
    SetSlot(d, s2, 0, id, 0, 0, 0);
    var m := SetMENU(d, s2, id);
    if m.Ok? {
      HoppedSlot(d, o, m.value.1, s, fuel, Nothing);
    }
  }

  lemma BeginMoveSlot(d: Disc, o: Oracle, s: State, call: Call, fuel: nat)
    requires Consistent(d) && (call.GetNextCell? || call.JumpCellBlock? || call.TopPg? || call.NextPg?)
    ensures BegunSlot(s, Begin(d, o, s, call, fuel))
  {
    hide PlayPG, PlayCell, PlayCellPost, PlayPGCPost, Hopping, BegunSlot;
    HoppedSlot(d, o, s, s, fuel, Nothing);
    if call.JumpCellBlock? {
      HoppedSlot(d, o, s.(cellN := call.cell), s, fuel, ThenBlock(call.cell, call.block));
    } else if call.NextPg? {
      HoppedSlot(d, o, s.(pgN := s.pgN + 1), s, fuel, Nothing);
      if PgcOf(d, s.pgc).IsFailure() {
        NotBegun(d, o, s, fuel);
      }
    }
  }

  lemma NotBegun(d: Disc, o: Oracle, s: State, fuel: nat)
    requires PgcOf(d, s.pgc).IsFailure()
    ensures BegunSlot(s, Begin(d, o, s, NextPg, fuel))
  {
  }

  lemma BeginChainSlot(d: Disc, o: Oracle, s: State, call: Call, fuel: nat)
    requires Consistent(d) && (call.PrevPg? || call.GoUp? || (call.Start? && !s.stopped))
    ensures BegunSlot(s, Begin(d, o, s, call, fuel))
  {
    hide PlayPGC, PlayPG, SetPGCN, SetFpPGC;
    var pgc := PgcOf(d, s.pgc);
    SetSlot(d, s, 0, 0, 0, 0, 0);
    HoppedSlot(d, o, SetFpPGC(d, s).1, s, fuel, Nothing);
    HoppedSlot(d, o, s.(pgN := s.pgN - 1), s, fuel, Nothing);
    if pgc.Ok? {
      SetSlot(d, s, pgc.value.prev, 0, 0, 0, 0);
      HoppedSlot(d, o, SetPGCN(d, s, pgc.value.prev).1, s, fuel, ThenLastProgram);
      SetSlot(d, s, pgc.value.goUp, 0, 0, 0, 0);
      HoppedSlot(d, o, SetPGCN(d, s, pgc.value.goUp).1, s, fuel, Nothing);
    }
  }

  /** The call neither resets the player nor saves its position. */
  predicate SparesSlot(s: State, call: Call) {
    call != Reset && (call == Start ==> !s.stopped) && (call.JumpMenu? ==> s.domain != VtsTitle)
  }

  lemma BeginSlot(d: Disc, o: Oracle, s: State, call: Call, fuel: nat)
    requires Consistent(d) && SparesSlot(s, call)
    ensures var b := Begin(d, o, s, call, fuel);
      (b.Ok? ==> b.value.state.rsm == s.rsm) && (!call.AtBlock? ==> BegunSlot(s, b))
  {
    hide PlayPGC, PlayPG, PlayCell, PlayCellPost, PlayPGCPost, PlayRegardless, SetPGCN, SetFpPGC, SetPTT, SetPROG,
      BeginMenu, Eval, Hopping;
    match call
    case JumpTitleProgram(_, _, _) => JumpPartSlot(d, o, s, call, fuel);
    case JumpTitlePart(_, _) => JumpPartSlot(d, o, s, call, fuel);
    case JumpMenu(menu) => MenuSlot(d, o, s, menu, fuel);
    case ExecCommand(command) => EvalKeeps(d, o, s, [command]);
    case GetNextCell => BeginMoveSlot(d, o, s, call, fuel);
    case JumpCellBlock(_, _) => BeginMoveSlot(d, o, s, call, fuel);
    case TopPg => BeginMoveSlot(d, o, s, call, fuel);
    case NextPg => BeginMoveSlot(d, o, s, call, fuel);
    case PrevPg => BeginChainSlot(d, o, s, call, fuel);
    case GoUp => BeginChainSlot(d, o, s, call, fuel);
    case Start => BeginChainSlot(d, o, s, call, fuel);
    case _ =>
  }

  lemma {:induction false} RunSlot(d: Disc, o: Oracle, run: seq<Config>, events: seq<Event>, i: nat)
    requires Consistent(d) && IsRun(d, o, run, events) && i < |run|
    requires forall k | 0 <= k < i :: Outside(run[k], events[k])
    ensures run[i].state.rsm == run[0].state.rsm
  {
    hide Advance, Outside;
    if i > 0 {
      RunSlot(d, o, run, events, i - 1);
      AdvanceSlot(d, o, run[i - 1], events[i - 1]);
    }
  }

  /** s is back at the position, title registers and button of s0. */
  predicate BackAt(s: State, s0: State, cellN: int, blockN: int) {
    && s.domain == VtsTitle && s.vtsN == s0.vtsN && s.pgcN == s0.pgcN
    && Reg(s, TTN_REG) == Reg(s0, TTN_REG) && Reg(s, VTS_TTN_REG) == Reg(s0, VTS_TTN_REG)
    && Reg(s, TT_PGCN_REG) == Reg(s0, TT_PGCN_REG) && Reg(s, HL_BTNN_REG) == Reg(s0, HL_BTNN_REG)
    && s.cellN == cellN && s.blockN == blockN
  }

  /** The link loop, if it does not abort, follows a PlayThis and returns back at s0. */
  predicate ReturnsTo(d: Disc, o: Oracle, c: Config, fuel: nat, s0: State, cellN: int, blockN: int)
    requires c.Running?
  {
    var t := Process(d, o, c.state, c.link, fuel);
    t.Ok? ==>
      && t.value.Follow? && t.value.link.command == PlayThis
      && var t' := Process(d, o, t.value.state, t.value.link, fuel);
      t'.Ok? && t'.value.Return? && t'.value.hopped && BackAt(t'.value.state, s0, cellN, blockN)
  }

  /** LinkRSM without a button is next. */
  predicate Resuming(c: Config) {
    c.Running? && c.link.command == LinkRSM && c.link.data1 == 0 && !c.state.stopped && c.state.rsm.cellN != 0
  }

  lemma ResumeReturns(d: Disc, o: Oracle, c: Config, fuel: nat, s0: State, cellN: int, blockN: int)
    requires Consistent(d) && ConfigInv(d, c) && Resuming(c)
    requires s0.vtsN >= 1 && Recorded(c.state.rsm, s0, cellN, blockN)
    requires -0x8000_0000 <= blockN < 0x8000_0000
    ensures ReturnsTo(d, o, c, fuel, s0, cellN, blockN)
  {
    hide Process, Placed;
    ResumeRestores(d, o, c.state, c.link, fuel);
    var t := Process(d, o, c.state, c.link, fuel);
    if t.Ok? {
      PlayThisJoins(d, o, t.value.state, t.value.link, fuel, blockN);
    }
  }

  /** The first step leaves the title domain by a CallSS link or a menu call. */
  predicate Departs(c: Config, e: Event) {
    && !c.state.stopped && c.state.domain == VtsTitle
    && (c.Running? ==> IsCall(c.link.command)) && (c.Idle? ==> e.Called? && e.call.JumpMenu?)
  }

  function DepartureCell(c: Config): int {
    if c.Running? && CallCell(c.link) != 0 then CallCell(c.link) as int else c.state.cellN
  }

  function DepartureBlock(c: Config): int {
    if c.Running? then 0 else c.state.blockN
  }

  lemma DepartureRecords(d: Disc, o: Oracle, c: Config, e: Event)
    requires Consistent(d) && ConfigInv(d, c) && Departs(c, e)
    ensures var r := Advance(d, o, c, e);
      r.Ok? && r.value.state.domain != VtsTitle ==>
        Recorded(r.value.state.rsm, c.state, DepartureCell(c), DepartureBlock(c))
  {
    hide Process, Begin, Recorded, Placed;
    if c.Running? {
      CallRecords(d, o, c.state, c.link, e.fuel);
      CallFollows(d, o, c.state, c.link, e.fuel);
    } else {
      MenuRecords(d, o, c.state, e.call.menu, e.fuel);
    }
  }

  lemma CallFollows(d: Disc, o: Oracle, s: State, link: Link, fuel: nat)
    requires IsCall(link.command)
    ensures var t := Process(d, o, s, link, fuel); t.Ok? ==> t.value.Follow?
  {
    hide PlayPGC, SetMENU, SetPGCN, SetFpPGC;
  }

  /** Leave the title domain by a CallSS link or a menu call, do anything
      outside it, then follow LinkRSM without a button: unless it aborts, the
      loop returns at the departure's title set, chain, title registers, button,
      cell (the call's own, when it names one) and block. */
  lemma ResumeRoundTrip(d: Disc, o: Oracle, run: seq<Config>, events: seq<Event>, fuel: nat)
    requires Consistent(d) && IsRun(d, o, run, events) && |events| >= 1
    requires ConfigInv(d, run[0]) && Departs(run[0], events[0])
    requires forall k | 1 <= k < |events| :: Outside(run[k], events[k])
    requires Resuming(run[|events|]) && run[|events|].state.domain != VtsTitle
    requires -0x8000_0000 <= DepartureBlock(run[0]) < 0x8000_0000
    ensures ReturnsTo(d, o, run[|events|], fuel, run[0].state, DepartureCell(run[0]), DepartureBlock(run[0]))
  {
    hide Advance, ConfigInv, Outside, ReturnsTo, Recorded;
    var n := |events|;
    RunKeeps(d, o, run, events, 1);
    RunKeeps(d, o, run, events, n);
    assert run[1].state.domain != VtsTitle by {
      if n > 1 {
        assert Outside(run[1], events[1]);
        OutsideMeans(run[1], events[1]);
      }
    }
    DepartureRecords(d, o, run[0], events[0]);
    RunSlot(d, o, run[1..], events[1..], n - 1);
    StartPositive(d, run[0]);
    ResumeReturns(d, o, run[n], fuel, run[0].state, DepartureCell(run[0]), DepartureBlock(run[0]));
  }

  lemma OutsideMeans(c: Config, e: Event)
    requires Outside(c, e)
    ensures c.state.domain != VtsTitle
  {
  }

  lemma StartPositive(d: Disc, c: Config)
    requires Consistent(d) && ConfigInv(d, c) && !c.state.stopped && c.state.domain == VtsTitle
    requires c.Running? ==> IsCall(c.link.command)
    ensures c.state.vtsN >= 1
  {
    TitleSetPositive(d, c.state);
  }

  lemma TitleSetPositive(d: Disc, s: State)
    requires Consistent(d) && Inv(d, s) && !s.stopped && s.domain == VtsTitle
    ensures s.vtsN >= 1
  {
    assert d.titles[Reg(s, TTN_REG) - 1] in d.titles;
  }
}
