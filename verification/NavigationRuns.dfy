/** The invariant over whole runs of the navigation machine. */
module NavigationRuns {
  import opened Bits
  import opened Decoder
  import opened CommandLists
  import opened Disc
  import opened Machine
  import opened Navigation
  import opened NavigationLaws

  // One turn

  lemma SetMENUPlaces(d: Disc, s: State, menu: nat)
    requires Consistent(d) && Bounded(d, s)
    ensures var r := SetMENU(d, s, menu);
      r.Ok? ==>
        && SameFrame(s, r.value.1) && r.value.1.cellN == s.cellN
        && (r.value.0 && SetOpen(d, s) ==> Placed(d, r.value.1))
        && (!r.value.0 ==> r.value.1 == s)
  {
    var table := CurrentTable(d, s);
    if table.Some? {
      SetPGCNPlaces(d, s, GetID(Entries(d, table.value), Or(menu, 0x80)));
    }
  }

  lemma SetFpPGCPlaces(d: Disc, s: State)
    requires Consistent(d)
    ensures var s' := SetFpPGC(d, s).1;
      SameFrame(s.(domain := FirstPlay), s') && s'.cellN == s.cellN && (SetOpen(d, s) ==> Placed(d, s'))
  {
    SetPGCNPlaces(d, s.(domain := FirstPlay), 1);
  }

  /** The record saved in the title domain satisfies the linked relation. */
  lemma SetRSMinfoSaves(d: Disc, s: State, cellN: int, blockN: int)
    requires Consistent(d) && Bounded(d, s) && cellN >= 0
    ensures var r := SetRSMinfo(d, s, cellN, blockN);
      r.Ok? ==>
        && r.value.(rsm := s.rsm) == s && Bounded(d, r.value)
        && (s.domain == VtsTitle && Placed(d, s) ==> Saved(d, r.value.rsm))
  {
    var regs := s.registers.sprm[4..9];
    assert regs[0] == Reg(s, TTN_REG) && regs[1] == Reg(s, VTS_TTN_REG) && regs[2] == Reg(s, TT_PGCN_REG);
    if s.domain == VtsTitle && Placed(d, s) {
      assert d.titles[Reg(s, TTN_REG) - 1] in d.titles;
    }
  }

  lemma PlayAssertedKeeps(d: Disc, o: Oracle, s: State, found: Outcome<(bool, State)>, fuel: nat)
    requires Consistent(d)
    requires found.Ok? && found.value.0 ==> Inv(d, found.value.1)
    ensures TurnInv(d, PlayAsserted(d, o, found, fuel))
  {
    if found.Ok? && found.value.0 {
      PlayPGCPGKeeps(d, o, found.value.1, 1, fuel);
      TurnedKeeps(d, found.value.1, PlayPGC(d, o, found.value.1, fuel));
    }
  }

  lemma PlayFoundKeeps(d: Disc, o: Oracle, found: Outcome<(bool, State)>, link: Link, fuel: nat)
    requires Consistent(d)
    requires found.Ok? ==> Bounded(d, found.value.1)
    requires found.Ok? && found.value.0 ==> Inv(d, found.value.1)
    ensures TurnInv(d, PlayFound(d, o, found, link, fuel))
  {
    if found.Ok? && found.value.0 {
      PlayPGCPGKeeps(d, o, found.value.1, 1, fuel);
      TurnedKeeps(d, found.value.1, PlayPGC(d, o, found.value.1, fuel));
    }
  }

  lemma FollowCallKeeps(d: Disc, o: Oracle, s: State, link: Link, fuel: nat)
    requires Consistent(d) && Inv(d, s)
    ensures TurnInv(d, FollowCall(d, o, s, link, fuel))
  {
    hide SetRSMinfo, Placed, Saved, SetMENU, SetPGCN, SetFpPGC;
    SetRSMinfoSaves(d, s, CallCell(link), 0);
    var r := SetRSMinfo(d, s, CallCell(link), 0);
    if r.Ok? && s.domain == VtsTitle {
      var s1 := r.value;
      OpenSame(d, s, s1);
      SetFpPGCPlaces(d, s1);
      var fp := SetFpPGC(d, s1).1;
      PlayPGCPGKeeps(d, o, fp, 1, fuel);
      TurnedKeeps(d, fp, PlayPGC(d, o, fp, fuel));
      var vmgm := s1.(domain := Vmgm);
      var vtsm := s1.(domain := VtsMenu);
      SetMENUPlaces(d, vmgm, link.data1);
      SetMENUPlaces(d, vtsm, link.data1);
      SetPGCNPlaces(d, vmgm, link.data1);
      PlayAssertedKeeps(d, o, s1, SetMENU(d, vmgm, link.data1), fuel);
      PlayAssertedKeeps(d, o, s1, SetMENU(d, vtsm, link.data1), fuel);
      PlayAssertedKeeps(d, o, s1, Ok(SetPGCN(d, vmgm, link.data1)), fuel);
    }
  }

  lemma OpenSame(d: Disc, s: State, s': State)
    requires Inv(d, s) && s'.vtsi == s.vtsi && s'.vtsN == s.vtsN
    ensures !s.stopped ==> SetOpen(d, s')
  {
  }

  /** Entering a menu of the open title set. */
  lemma EnterVtsMenuKeeps(d: Disc, o: Oracle, s: State, link: Link, fuel: nat)
    requires Consistent(d) && Bounded(d, s) && s.domain == VtsMenu
    requires !s.stopped ==> SetOpen(d, s) && Saved(d, s.rsm)
    ensures TurnInv(d, EnterVtsMenu(d, o, s, link, fuel))
  {
    hide Placed, Saved, SetMENU, GetTT;
    var s1 := SetReg(s, VTS_TTN_REG, link.data2);
    var s2 := SetReg(s1, TTN_REG, GetTT(d.titles, s1.vtsN, Reg(s1, VTS_TTN_REG)));
    SetMENUPlaces(d, s2, link.data3);
    PlayAssertedKeeps(d, o, s2, SetMENU(d, s2, link.data3), fuel);
  }

  lemma OpenVtsiOpens(d: Disc, s: State, vtsN: int)
    ensures var (opened_, s') := OpenVtsi(d, s, vtsN);
      && s'.(vtsi := s.vtsi, vtsN := s.vtsN) == s
      && (opened_ && SetOpen(d, s) ==> SetOpen(d, s') && s'.vtsN == vtsN)
  {
  }

  lemma FollowVtsMenuKeeps(d: Disc, o: Oracle, s: State, link: Link, fuel: nat)
    requires Consistent(d) && Inv(d, s)
    ensures TurnInv(d, FollowVtsMenu(d, o, s, link, fuel))
  {
    hide Saved, InTable, Linked, EnterVtsMenu, OpenVtsi;
    OpenVtsiOpens(d, s, link.data1);
    var s1 := OpenVtsi(d, s, link.data1).1;
    if s.domain == VtsMenu {
      EnterVtsMenuKeeps(d, o, s, link, fuel);
    }
    if s.stopped || SetOpen(d, s1) {
      EnterVtsMenuKeeps(d, o, s1.(domain := VtsMenu), link, fuel);
    }
    EnterVtsMenuKeeps(d, o, s.(domain := VtsMenu), link, fuel);
  }

  lemma LinkResumeKeeps(d: Disc, o: Oracle, s: State, link: Link, fuel: nat)
    requires Consistent(d) && Inv(d, s)
    ensures TurnInv(d, LinkResume(d, o, s, link, fuel))
  {
    hide Placed, Saved, ResumedState, PlayPG, SetPGN, OpenVtsi;
    var (opened_, s1) := OpenVtsi(d, s.(domain := VtsTitle), s.rsm.vtsN);
    if s.rsm.vtsN != 0 && opened_ {
      ResumedInv(d, s, link.data1);
      var s4 := ResumedState(d, s, link.data1);
      PlayPGTurn(d, o, s4, 1, fuel);
      var s5 := s4.(cellN := s.rsm.cellN);
      PlacedSame(d, s4, s5);
      MoveKeeps(d, s4, s5);
      SetPGNKeeps(d, s5);
      var p := SetPGN(d, s5);
      if s.rsm.cellN != 0 && p.Ok? && p.value.0 {
        MoveKeeps(d, s5, p.value.1);
        if ProgramsInRange(d) && !s.stopped {
          SetPGNPlayable(d, s5);
        }
      }
    }
  }

  lemma ResumedInv(d: Disc, s: State, button: u16)
    requires Consistent(d) && Inv(d, s) && s.rsm.vtsN != 0
    requires OpenVtsi(d, s.(domain := VtsTitle), s.rsm.vtsN).0
    ensures var s' := ResumedState(d, s, button);
      && Inv(d, s') && s'.rsm == s.rsm && s'.domain == VtsTitle && s'.stopped == s.stopped
      && (!s.stopped ==> s'.pgcN == s.rsm.pgcN && s'.vtsN == s.rsm.vtsN)
      && (button == 0 ==> s'.registers.sprm[4..9] == s.rsm.regs)
  {
    hide Placed, Saved, SetPGCN, SelectButton;
    OpenVtsiOpens(d, s.(domain := VtsTitle), s.rsm.vtsN);
    var s1 := OpenVtsi(d, s.(domain := VtsTitle), s.rsm.vtsN).1;
    SetPGCNPlaces(d, s1, s.rsm.pgcN);
    if !s.stopped {
      OpenSame(d, s, s);
      ResumePlaces(d, s1, s.rsm);
    }
    var s3 := Restored(SetPGCN(d, s1, s.rsm.pgcN).1, s.rsm);
    assert s3.registers.sprm[4..9] == s.rsm.regs;
    SelectButtonKeeps(d, s3, button);
    var s4 := SelectButton(s3, button);
    if button == 0 {
      assert s4 == s3 by { NoButton(s3); }
    }
  }

  lemma NoButton(s: State)
    ensures SelectButton(s, 0) == s
  {
  }

  lemma SetPGNPlayable(d: Disc, s: State)
    requires ProgramsInRange(d) && s.cellN >= 1 && s.domain != FirstPlay && Placed(d, s)
    ensures var r := SetPGN(d, s); r.Ok? && r.value.0 ==> Playable(d, r.value.1)
  {
    hide CurrentPart;
    var table := CurrentTable(d, s).value;
    assert EntriesInRange(Entries(d, table)[s.pgcN - 1].pgc);
  }

  lemma ResumePlaces(d: Disc, s: State, r: Resume)
    requires Consistent(d) && Saved(d, r) && r.vtsN != 0
    requires s.domain == VtsTitle && s.vtsN == r.vtsN && SetOpen(d, s)
    ensures var (found, s') := SetPGCN(d, s, r.pgcN);
      found && Placed(d, Restored(s', r)) && Restored(s', r).pgcN == r.pgcN
  {
    var (found, s') := SetPGCN(d, s, r.pgcN);
    SetPGCNPlaces(d, s, r.pgcN);
    var s2 := Restored(s', r);
    assert Reg(s2, 0) == Reg(s', 0) && Reg(s2, 4) == r.regs[0] && Reg(s2, 5) == r.regs[1] && Reg(s2, 6) == r.regs[2];
  }

  lemma LinkSiblingKeeps(d: Disc, o: Oracle, s: State, link: Link, pgcn: nat, fuel: nat)
    requires Consistent(d) && Inv(d, s)
    ensures TurnInv(d, LinkSibling(d, o, s, link, pgcn, fuel))
  {
    hide SetPGCN, InTable, Saved;
    SetPGCNPlaces(d, s, pgcn);
    var (found, s1) := SetPGCN(d, s, pgcn);
    PlayPGCPGKeeps(d, o, s1, 1, fuel);
    if found {
      TurnedKeeps(d, s1, PlayPGC(d, o, s1, fuel));
    }
  }

  /** Moving to another cell or program keeps the invariant. */
  lemma MoveKeeps(d: Disc, s: State, s': State)
    requires Inv(d, s) && SameFrame(s, s') && s'.cellN >= 0 && (Placed(d, s) ==> Placed(d, s'))
    ensures Inv(d, s')
  {
  }

  lemma PlayCellTurn(d: Disc, o: Oracle, s: State, cellN: nat, fuel: nat)
    requires Consistent(d) && Inv(d, s)
    ensures TurnInv(d, Turned(PlayCell(d, o, s.(cellN := cellN), fuel)))
  {
    hide Placed, Saved, PlayCell;
    var s1 := s.(cellN := cellN);
    PlacedSame(d, s, s1);
    MoveKeeps(d, s, s1);
    PlayCellKeeps(d, o, s1, fuel);
    TurnedKeeps(d, s1, PlayCell(d, o, s1, fuel));
  }

  lemma PlayPGTurn(d: Disc, o: Oracle, s: State, pgN: int, fuel: nat)
    requires Consistent(d) && Inv(d, s)
    ensures TurnInv(d, Turned(PlayPG(d, o, s.(pgN := pgN), fuel)))
  {
    hide Placed, Saved, PlayPG;
    var s1 := s.(pgN := pgN);
    PlacedSame(d, s, s1);
    MoveKeeps(d, s, s1);
    PlayPGKeeps(d, o, s1, fuel);
    TurnedKeeps(d, s1, PlayPG(d, o, s1, fuel));
  }

  lemma FollowMoveKeeps(d: Disc, o: Oracle, s: State, link: Link, fuel: nat)
    requires Consistent(d) && Inv(d, s) && IsMove(link.command)
    ensures TurnInv(d, FollowMove(d, o, s, link, fuel))
  {
    hide Placed, Saved, SelectButton, PlayCell, PlayPG;
    ButtonInv(d, s, link.data1);
    ButtonInv(d, s, link.data2);
    var s1 := SelectButton(s, link.data1);
    var s2 := SelectButton(s, link.data2);
    match link.command
    case LinkTopC => assert s1.(cellN := s1.cellN) == s1; PlayCellTurn(d, o, s1, s1.cellN, fuel);
    case LinkNextC => PlayCellTurn(d, o, s1, s1.cellN + 1, fuel);
    case LinkPrevC => if s1.cellN > 1 { PlayCellTurn(d, o, s1, s1.cellN - 1, fuel); }
    case LinkTopPG => assert s1.(pgN := s1.pgN) == s1; PlayPGTurn(d, o, s1, s1.pgN, fuel);
    case LinkNextPG => PlayPGTurn(d, o, s1, s1.pgN + 1, fuel);
    case LinkPrevPG => PlayPGTurn(d, o, s1, s1.pgN - 1, fuel);
    case LinkPGN => PlayPGTurn(d, o, s2, link.data1, fuel);
    case LinkCN => PlayCellTurn(d, o, s2, link.data1, fuel);
    case _ =>
  }

  lemma FollowChainKeeps(d: Disc, o: Oracle, s: State, link: Link, fuel: nat)
    requires Consistent(d) && LinkInv(d, s, link) && !IsMove(link.command)
    ensures TurnInv(d, FollowChain(d, o, s, link, fuel))
  {
    hide Placed, Saved, SelectButton, PlayPG, PlayPGC, PlayPGCPost, LinkSibling, LinkResume, SetPGCN, SetVtsPTT;
    if link.command != Exit {
      ButtonInv(d, s, link.data1);
      ButtonInv(d, s, link.data2);
      var s1 := SelectButton(s, link.data1);
      var pgc := PgcOf(d, s.pgc);
      match link.command
      case LinkTopPGC => PlayPGCTurn(d, o, s1, fuel);
      case LinkNextPGC => if pgc.Ok? { LinkSiblingKeeps(d, o, s1, link, pgc.value.next, fuel); }
      case LinkPrevPGC => if pgc.Ok? { LinkSiblingKeeps(d, o, s1, link, pgc.value.prev, fuel); }
      case LinkGoUpPGC => if pgc.Ok? { LinkSiblingKeeps(d, o, s1, link, pgc.value.goUp, fuel); }
      case LinkTailPGC =>
        PlayPGCPostKeeps(d, o, s1, fuel);
        TurnedKeeps(d, s1, PlayPGCPost(d, o, s1, fuel));
      case LinkRSM => LinkResumeKeeps(d, o, s, link, fuel);
      case LinkPGCN => LinkPGCNKeeps(d, o, s, link.data1, fuel);
      case LinkPTTN => LinkPTTNKeeps(d, o, s, link, fuel);
      case _ => PlacedSame(d, s, s.(blockN := Wrap32(link.data1 + link.data2 * TWO16)));
    }
  }

  lemma ButtonInv(d: Disc, s: State, button: u16)
    requires Inv(d, s)
    ensures var s' := SelectButton(s, button);
      Inv(d, s') && s'.domain == s.domain && s'.vtsN == s.vtsN && Reg(s', VTS_TTN_REG) == Reg(s, VTS_TTN_REG)
  {
    hide Placed, Saved;
    SelectButtonKeeps(d, s, button);
    MoveKeeps(d, s, SelectButton(s, button));
  }

  lemma PlayPGCTurn(d: Disc, o: Oracle, s: State, fuel: nat)
    requires Consistent(d) && Inv(d, s)
    ensures TurnInv(d, Turned(PlayPGC(d, o, s, fuel)))
  {
    PlayPGCPGKeeps(d, o, s, 1, fuel);
    TurnedKeeps(d, s, PlayPGC(d, o, s, fuel));
  }

  lemma LinkPGCNKeeps(d: Disc, o: Oracle, s: State, pgcn: int, fuel: nat)
    requires Consistent(d) && Inv(d, s)
    ensures var (found, s') := SetPGCN(d, s, pgcn); found ==> TurnInv(d, Turned(PlayPGC(d, o, s', fuel)))
  {
    hide InTable, Saved, SetPGCN, PlayPGC;
    SetPGCNPlaces(d, s, pgcn);
    var (found, s') := SetPGCN(d, s, pgcn);
    if found {
      PlayPGCTurn(d, o, s', fuel);
    }
  }

  lemma LinkPTTNKeeps(d: Disc, o: Oracle, s: State, link: Link, fuel: nat)
    requires Consistent(d) && Inv(d, s)
    ensures var r := SetVtsPTT(d, SelectButton(s, link.data2), s.vtsN, Reg(s, VTS_TTN_REG), link.data1);
      r.Ok? ==> Bounded(d, r.value.1) && (r.value.0 ==> TurnInv(d, Turned(PlayPG(d, o, r.value.1, fuel))))
  {
    hide Linked, InTable, Saved, SetVtsPTT, PlayPG, SelectButton;
    ButtonInv(d, s, link.data2);
    var s2 := SelectButton(s, link.data2);
    SetVtsPTTPlaces(d, s2, s.vtsN, Reg(s, VTS_TTN_REG), link.data1);
    var r := SetVtsPTT(d, s2, s.vtsN, Reg(s, VTS_TTN_REG), link.data1);
    if r.Ok? && r.value.0 {
      PlayPGTurn(d, o, r.value.1, r.value.1.pgN, fuel);
      assert r.value.1.(pgN := r.value.1.pgN) == r.value.1;
    }
  }

  lemma JumpVtsPttKeeps(d: Disc, o: Oracle, s: State, vtsN: int, title: int, part: int, fuel: nat)
    requires Consistent(d) && Inv(d, s)
    ensures var r := SetVtsPTT(d, s, vtsN, title, part);
      r.Ok? ==>
        && Bounded(d, r.value.1)
        && (r.value.0 ==> Inv(d, r.value.1) && TurnInv(d, Turned(PlayPGCPG(d, o, r.value.1, r.value.1.pgN, fuel))))
  {
    hide Linked, InTable, Saved, SetVtsPTT, PlayPGCPG;
    SetVtsPTTPlaces(d, s, vtsN, title, part);
    var r := SetVtsPTT(d, s, vtsN, title, part);
    if r.Ok? && r.value.0 {
      PlayPGCPGKeeps(d, o, r.value.1, r.value.1.pgN, fuel);
      TurnedKeeps(d, r.value.1, PlayPGCPG(d, o, r.value.1, r.value.1.pgN, fuel));
    }
  }

  lemma FollowJumpKeeps(d: Disc, o: Oracle, s: State, link: Link, fuel: nat)
    requires Consistent(d) && LinkInv(d, s, link)
    ensures TurnInv(d, FollowJump(d, o, s, link, fuel))
  {
    hide Placed, Saved, FollowMove, FollowChain, FollowVtsMenu, SetVtsPTT, SetMENU, SetPGCN, SetFpPGC, PlayPGC, PlayPGCPG;
    match link.command
    case JumpTT =>
      if 1 <= link.data1 as int <= |d.titles| {
        var t := d.titles[link.data1 - 1];
        JumpVtsPttKeeps(d, o, s, t.vts, t.vtsTitle, 1, fuel);
        PlayFoundKeeps(d, o, SetPTT(d, s, link.data1, 1), link, fuel);
      }
    case JumpVTS_TT =>
      JumpVtsPttKeeps(d, o, s, s.vtsN, link.data1, 1, fuel);
      PlayFoundKeeps(d, o, SetVtsPTT(d, s, s.vtsN, link.data1, 1), link, fuel);
    case JumpVTS_PTT => JumpVtsPttKeeps(d, o, s, s.vtsN, link.data1, link.data2, fuel);
    case JumpSS_FP => JumpFpKeeps(d, o, s, fuel);
    case JumpSS_VMGM_MENU => JumpVmgmKeeps(d, o, s, link.data1, fuel);
    case JumpSS_VTSM => FollowVtsMenuKeeps(d, o, s, link, fuel);
    case JumpSS_VMGM_PGC => JumpVmgmKeeps(d, o, s, link.data1, fuel);
    case _ =>
      if IsMove(link.command) {
        FollowMoveKeeps(d, o, s, link, fuel);
      } else {
        FollowChainKeeps(d, o, s, link, fuel);
      }
  }

  lemma JumpFpKeeps(d: Disc, o: Oracle, s: State, fuel: nat)
    requires Consistent(d) && Inv(d, s)
    ensures TurnInv(d, PlayAsserted(d, o, Ok(SetFpPGC(d, s)), fuel))
  {
    hide Linked, InTable, Saved, SetFpPGC;
    SetFpPGCPlaces(d, s);
    PlayAssertedKeeps(d, o, s, Ok(SetFpPGC(d, s)), fuel);
  }

  lemma JumpVmgmKeeps(d: Disc, o: Oracle, s: State, n: nat, fuel: nat)
    requires Consistent(d) && Inv(d, s)
    ensures var s1 := s.(domain := Vmgm);
      && TurnInv(d, PlayAsserted(d, o, SetMENU(d, s1, n), fuel))
      && TurnInv(d, PlayAsserted(d, o, Ok(SetPGCN(d, s1, n)), fuel))
  {
    hide Linked, InTable, Saved, SetMENU, SetPGCN;
    var s1 := s.(domain := Vmgm);
    SetMENUPlaces(d, s1, n);
    SetPGCNPlaces(d, s1, n);
    PlayAssertedKeeps(d, o, s1, SetMENU(d, s1, n), fuel);
    PlayAssertedKeeps(d, o, s1, Ok(SetPGCN(d, s1, n)), fuel);
  }

  /** Every turn of the link loop keeps the invariant, whatever link is followed. */
  lemma ProcessKeeps(d: Disc, o: Oracle, s: State, link: Link, fuel: nat)
    requires Consistent(d) && LinkInv(d, s, link)
    ensures TurnInv(d, Process(d, o, s, link, fuel))
  {
    hide FollowCall, FollowJump, Inv;
    if IsCall(link.command) {
      FollowCallKeeps(d, o, s, link, fuel);
    } else {
      FollowJumpKeeps(d, o, s, link, fuel);
    }
  }

  // Calls

  ghost predicate BegunInv(d: Disc, b: Outcome<Begun>) {
    match b
    case Ok(Hop(s, link, _)) => LinkInv(d, s, link)
    case Ok(Done(s, _)) => Inv(d, s)
    case _ => true
  }

  lemma HoppingKeeps(d: Disc, s: State, p: Outcome<Played>, after: After)
    requires PlayedWell(d, s, p) && Inv(d, s)
    ensures BegunInv(d, Hopping(p, after))
  {
  }

  lemma HopPGC(d: Disc, o: Oracle, s: State, fuel: nat, after: After)
    requires Consistent(d) && Inv(d, s)
    ensures BegunInv(d, Hopping(PlayPGC(d, o, s, fuel), after))
  {
    PlayPGCPGKeeps(d, o, s, 1, fuel);
    HoppingKeeps(d, s, PlayPGC(d, o, s, fuel), after);
  }

  lemma HopPG(d: Disc, o: Oracle, s: State, pgN: int, fuel: nat)
    requires Consistent(d) && Inv(d, s)
    ensures BegunInv(d, Hopping(PlayPG(d, o, s.(pgN := pgN), fuel), Nothing))
  {
    hide Placed, Saved, PlayPG;
    var s1 := s.(pgN := pgN);
    PlacedSame(d, s, s1);
    MoveKeeps(d, s, s1);
    PlayPGKeeps(d, o, s1, fuel);
    HoppingKeeps(d, s1, PlayPG(d, o, s1, fuel), Nothing);
  }

  lemma PlacedWithAnySlot(d: Disc, s: State, rsm: Resume)
    ensures Placed(d, s) ==> Placed(d, s.(rsm := rsm))
  {
  }

  lemma BeginMenuKeeps(d: Disc, o: Oracle, s: State, menu: Menu, fuel: nat)
    requires Consistent(d) && Inv(d, s)
    ensures BegunInv(d, BeginMenu(d, o, s, menu, fuel))
  {
    hide InTable, TitleNamed, Saved, SetRSMinfo, SetMENU, PlayPGC;
    SetRSMinfoSaves(d, s, 0, s.blockN);
    var r := if s.domain == VtsTitle then SetRSMinfo(d, s, 0, s.blockN) else Ok(s);
    if r.Ok? {
      var s1 := r.value;
      PlacedWithAnySlot(d, s, s1.rsm);
      assert s1 == s.(rsm := s1.rsm);
      var id := match menu case TitleMenu => 2 case EscapeMenu => 0 case OtherMenu(id) => id;
      var s2 := s1.(domain := if menu.OtherMenu? then VtsMenu else Vmgm);
      SetMENUPlaces(d, s2, id);
      var m := SetMENU(d, s2, id);
      if m.Ok? && m.value.0 {
        HopPGC(d, o, m.value.1, fuel, Nothing);
      } else if m.Ok? {
        assert m.value.1.(domain := s.domain) == s1;
      }
    }
  }

  lemma PlayRegardlessKeeps(d: Disc, o: Oracle, s: State, fuel: nat)
    requires Consistent(d) && Inv(d, s)
    ensures BegunInv(d, PlayRegardless(d, o, s, fuel))
  {
    hide Placed, Saved, PlayPGCPG, PlayPG;
    PlayPGCPGKeeps(d, o, s, s.pgN, fuel);
    var p := PlayPGCPG(d, o, s, s.pgN, fuel);
    if p.Ok? {
      MoveKeeps(d, s, p.value.state);
      HopPG(d, o, p.value.state, p.value.state.pgN, fuel);
      assert p.value.state.(pgN := p.value.state.pgN) == p.value.state;
    }
  }

  lemma BeginTitlePartKeeps(d: Disc, o: Oracle, s: State, title: int, part: int, fuel: nat)
    requires Consistent(d) && Inv(d, s) && Legal(d, JumpTitlePart(title, part))
    ensures BegunInv(d, Begin(d, o, s, JumpTitlePart(title, part), fuel))
  {
    hide Placed, Saved, SetVtsPTT, PlayRegardless;
    var t := d.titles[title - 1];
    assert ConsistentTitle(d, t) by { assert t in d.titles; }
    JumpVtsPttKeeps(d, o, s, t.vts, t.vtsTitle, part, fuel);
    SetVtsPTTPlaces(d, s, t.vts, t.vtsTitle, part);
    var r := SetVtsPTT(d, s, t.vts, t.vtsTitle, part);
    SetPTTFinds(d, s, title, part);
    OpenSame(d, s, s);
    if r.Ok? && r.value.0 {
      PlayRegardlessKeeps(d, o, r.value.1, fuel);
    }
  }

  /** A part within a title's range is always found. */
  lemma SetPTTFinds(d: Disc, s: State, title: int, part: int)
    requires Consistent(d) && Legal(d, JumpTitlePart(title, part))
    ensures var r := SetPTT(d, s, title, part);
      r.Ok? && SetOpen(d, s) ==> r.value.0
  {
    var t := d.titles[title - 1];
    assert ConsistentTitle(d, t) by { assert t in d.titles; }
    var set_ := d.titleSets[t.vts - 1];
    assert set_ in d.titleSets;
    assert GetTT(d.titles, t.vts, t.vtsTitle) > 0;
    assert set_.titles[t.vtsTitle - 1][part - 1].pgcn <= |set_.pgcs|;
  }

  lemma BeginTitleProgramKeeps(d: Disc, o: Oracle, s: State, title: int, pgcn: int, pgn: int, fuel: nat)
    requires Consistent(d) && Inv(d, s) && Legal(d, JumpTitleProgram(title, pgcn, pgn))
    ensures BegunInv(d, Begin(d, o, s, JumpTitleProgram(title, pgcn, pgn), fuel))
  {
    hide Placed, Saved, SetPROG, PlayRegardless;
    SetPROGPlaces(d, s, title, pgcn, pgn);
    var r := SetPROG(d, s, title, pgcn, pgn);
    if r.Ok? && r.value.0 {
      PlayRegardlessKeeps(d, o, r.value.1, fuel);
    }
  }

  /** vm_jump_title_program's setting: found exactly when the PGC exists, and
      then the registers are linked. */
  lemma SetPROGPlaces(d: Disc, s: State, title: int, pgcn: int, pgn: int)
    requires Consistent(d) && Inv(d, s) && 1 <= title <= |d.titles|
    ensures var r := SetPROG(d, s, title, pgcn, pgn);
      r.Ok? && !s.stopped ==>
        && (r.value.0 <==> 1 <= pgcn <= |TitleSetAt(d, d.titles[title - 1].vts).pgcs|)
        && (r.value.0 ==> Inv(d, r.value.1))
    ensures var r := SetPROG(d, s, title, pgcn, pgn);
      r.Ok? ==> Bounded(d, r.value.1) && r.value.1.stopped == s.stopped
  {
    hide GetTT, CurrentPart, Saved;
    var t := d.titles[title - 1];
    assert ConsistentTitle(d, t) by { assert t in d.titles; }
    var (opened_, s1) := OpenVtsi(d, s.(domain := VtsTitle), t.vts);
    OpenVtsiOpens(d, s.(domain := VtsTitle), t.vts);
    assert d.titleSets[t.vts - 1] in d.titleSets;
    var tt := GetTT(d.titles, t.vts, t.vtsTitle);
    var s2 := SetReg(SetReg(s1, TT_PGCN_REG, pgcn), TTN_REG, tt);
    var s3 := SetReg(s2, VTS_TTN_REG, t.vtsTitle).(vtsN := t.vts);
    assert Reg(s3, TTN_REG) as int == tt && Reg(s3, VTS_TTN_REG) as int == t.vtsTitle;
    SetPGCNPlaces(d, s3, pgcn);
    var s4 := SetPGCN(d, s3, pgcn).1;
    var s5 := s4.(pgN := pgn);
    PlacedSame(d, s4, s5);
    var part := CurrentPart(d, s5);
    if part.Ok? {
      PlacedSame(d, s5, SetReg(s5, PTTN_REG, part.value));
    }
  }

  lemma ResetInv(d: Disc, s: State)
    requires Consistent(d) && Bounded(d, s)
    ensures Inv(d, ResetState(s)) && SetOpen(d, ResetState(s))
  {
  }

  lemma BeginStartKeeps(d: Disc, o: Oracle, s: State, fuel: nat)
    requires Consistent(d) && Inv(d, s)
    ensures BegunInv(d, Begin(d, o, s, Start, fuel))
  {
    hide InTable, TitleNamed, Saved, SetFpPGC, ResetState, PlayPGC;
    var s1 := if s.stopped then ResetState(s).(stopped := false) else s;
    if s.stopped {
      ResetInv(d, s.(stopped := false));
      assert ResetState(s.(stopped := false)) == s1 by { ResetStopped(s); }
    }
    SetFpPGCPlaces(d, s1);
    var s2 := SetFpPGC(d, s1).1;
    HopPGC(d, o, s2, fuel, Nothing);
  }

  lemma ResetStopped(s: State)
    ensures ResetState(s.(stopped := false)) == ResetState(s).(stopped := false)
  {
  }

  lemma HopSibling(d: Disc, o: Oracle, s: State, pgcn: nat, fuel: nat, after: After)
    requires Consistent(d) && Inv(d, s)
    ensures var (found, s1) := SetPGCN(d, s, pgcn);
      Inv(d, s1) && BegunInv(d, Hopping(PlayPGC(d, o, s1, fuel), after))
  {
    hide InTable, Saved, SetPGCN, PlayPGC;
    SetPGCNPlaces(d, s, pgcn);
    HopPGC(d, o, SetPGCN(d, s, pgcn).1, fuel, after);
  }

  /** Every call keeps the invariant. */
  lemma BeginKeeps(d: Disc, o: Oracle, s: State, call: Call, fuel: nat)
    requires Consistent(d) && Inv(d, s) && Legal(d, call)
    ensures BegunInv(d, Begin(d, o, s, call, fuel))
  {
    hide Placed, Saved, PlayCell, PlayCellPost, PlayPGC, PlayPG, PlayPGCPost, SetPGCN, SetPTT, SetPROG,
      PlayRegardless, BeginMenu, SetFpPGC, ResetState, Eval;
    var pgc := PgcOf(d, s.pgc);
    match call
    case Start => BeginStartKeeps(d, o, s, fuel);
    case Reset => ResetInv(d, s);
    case Stop =>
    case GetNextCell =>
      PlayCellPostKeeps(d, o, s, fuel);
      HoppingKeeps(d, s, PlayCellPost(d, o, s, fuel), Nothing);
    case JumpCellBlock(cell, block) => HopCell(d, o, s, cell, fuel, ThenBlock(cell, block));
    case JumpTitleProgram(title, pgcn, pgn) => BeginTitleProgramKeeps(d, o, s, title, pgcn, pgn, fuel);
    case JumpTitlePart(title, part) => BeginTitlePartKeeps(d, o, s, title, part, fuel);
    case TopPg => HopPG(d, o, s, s.pgN, fuel); assert s.(pgN := s.pgN) == s;
    case NextPg =>
      HopPG(d, o, s, s.pgN + 1, fuel);
      PlayPGCPostKeeps(d, o, s, fuel);
      HoppingKeeps(d, s, PlayPGCPost(d, o, s, fuel), Nothing);
    case PrevPg =>
      HopPG(d, o, s, s.pgN - 1, fuel);
      if pgc.Ok? { HopSibling(d, o, s, pgc.value.prev, fuel, ThenLastProgram); }
    case GoUp =>
      if pgc.Ok? { HopSibling(d, o, s, pgc.value.goUp, fuel, Nothing); }
    case JumpMenu(menu) => BeginMenuKeeps(d, o, s, menu, fuel);
    case JumpResume =>
    case ExecCommand(command) =>
      EvalKeeps(d, o, s, [command]);
    case SelectAngle(angle) => PlacedSame(d, s, SetReg(s, AGL_REG, angle));
    case ChooseButton(button) => PlacedSame(d, s, SetReg(s, HL_BTNN_REG, button * 1024));
    case AtBlock(block) => PlacedSame(d, s, s.(blockN := block));
  }

  lemma HopCell(d: Disc, o: Oracle, s: State, cellN: int, fuel: nat, after: After)
    requires Consistent(d) && Inv(d, s)
    ensures BegunInv(d, Hopping(PlayCell(d, o, s.(cellN := cellN), fuel), after))
  {
    hide Placed, Saved;
    var s1 := s.(cellN := cellN);
    if cellN >= 0 {
      PlacedSame(d, s, s1);
      MoveKeeps(d, s, s1);
      PlayCellKeeps(d, o, s1, fuel);
      HoppingKeeps(d, s1, PlayCell(d, o, s1, fuel), after);
    }
  }

  lemma FinallyKeeps(d: Disc, o: Oracle, s: State, hopped: bool, after: After, fuel: nat)
    requires Consistent(d) && Inv(d, s)
    ensures BegunInv(d, Finally(d, o, s, hopped, after, fuel))
  {
    hide Placed, Saved, PlayPG;
    var pgc := PgcOf(d, s.pgc);
    match after
    case Nothing =>
    case ThenLastProgram =>
      if pgc.Ok? { HopPG(d, o, s, |pgc.value.programs|, fuel); }
    case ThenBlock(cell, block) => PlacedSame(d, s, s.(blockN := block));
  }

  // Whole calls

  /** process_command keeps the invariant, and a result of 1 means a playable position. */
  lemma {:induction false} LoopKeeps(d: Disc, o: Oracle, s: State, link: Link, turns: nat, fuel: nat)
    requires Consistent(d) && LinkInv(d, s, link)
    ensures var r := Loop(d, o, s, link, turns, fuel);
      r.Ok? ==> Inv(d, r.value.0)
                && (r.value.1 && ProgramsInRange(d) && !r.value.0.stopped ==> Playable(d, r.value.0))
    decreases turns
  {
    hide Process, Inv, Playable, ProgramsInRange;
    if turns > 0 {
      ProcessKeeps(d, o, s, link, fuel);
      var turn := Process(d, o, s, link, fuel);
      if turn.Ok? && turn.value.Follow? {
        LoopKeeps(d, o, turn.value.state, turn.value.link, turns - 1, fuel);
      }
    }
  }

  /** Every call from outside, link loop and all, keeps the invariant. */
  lemma PerformKeeps(d: Disc, o: Oracle, s: State, call: Call, turns: nat, fuel: nat)
    requires Consistent(d) && Inv(d, s) && Legal(d, call)
    ensures var r := Perform(d, o, s, call, turns, fuel); r.Ok? ==> Inv(d, r.value.1)
  {
    hide Begin, Loop, Finally, Inv, LinkInv;
    BeginKeeps(d, o, s, call, fuel);
    var begun := Begin(d, o, s, call, fuel);
    if begun.Ok? && begun.value.Hop? {
      LoopKeeps(d, o, begun.value.state, begun.value.link, turns, fuel);
      var looped := Loop(d, o, begun.value.state, begun.value.link, turns, fuel);
      if looped.Ok? {
        FinallyKeeps(d, o, looped.value.0, looped.value.1, begun.value.after, fuel);
        var ended := Finally(d, o, looped.value.0, looped.value.1, begun.value.after, fuel);
        if ended.Ok? && ended.value.Hop? {
          LoopKeeps(d, o, ended.value.state, ended.value.link, turns, fuel);
        }
      }
    }
  }

  // Runs

  ghost predicate ConfigInv(d: Disc, c: Config) {
    match c
    case Idle(s) => Inv(d, s)
    case Running(s, link, _) => LinkInv(d, s, link)
  }

  lemma AdvanceKeeps(d: Disc, o: Oracle, c: Config, e: Event)
    requires Consistent(d) && ConfigInv(d, c) && (e.Called? ==> Legal(d, e.call))
    ensures var r := Advance(d, o, c, e); r.Ok? ==> ConfigInv(d, r.value)
  {
    hide Begin, Process, Finally, Inv;
    match (c, e)
    case (Idle(s), Called(call, fuel)) => BeginKeeps(d, o, s, call, fuel);
    case (Running(s, link, after), LoopTurn(fuel)) =>
      ProcessKeeps(d, o, s, link, fuel);
      var turn := Process(d, o, s, link, fuel);
      if turn.Ok? && turn.value.Return? {
        FinallyKeeps(d, o, turn.value.state, turn.value.hopped, after, fuel);
      }
    case _ =>
  }

  lemma {:induction false} RunKeeps(d: Disc, o: Oracle, run: seq<Config>, events: seq<Event>, i: nat)
    requires Consistent(d) && IsRun(d, o, run, events) && ConfigInv(d, run[0]) && i < |run|
    ensures ConfigInv(d, run[i])
  {
    hide ConfigInv, Advance;
    if i > 0 {
      RunKeeps(d, o, run, events, i - 1);
      AdvanceKeeps(d, o, run[i - 1], events[i - 1]);
    }
  }
}
