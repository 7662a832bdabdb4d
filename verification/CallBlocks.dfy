/** Which block of its cell the VM names after a call. */
module CallBlocks {
  import opened Decoder
  import opened CommandLists
  import opened Disc
  import opened Machine
  import opened Navigation
  import opened NavigationLaws
  import opened NavigationTheorems

  /** The state names one of the blocks, and so does its resume slot. */
  predicate Among(blocks: set<int>, s: State) {
    s.blockN in blocks && Wrap32(s.rsm.blockN) in blocks
  }

  predicate LinkAmong(blocks: set<int>, s: State, link: Link) {
    Among(blocks, s) && (link.command == PlayThis ==> Joined(link) in blocks)
  }

  predicate TurnAmong(blocks: set<int>, t: Outcome<Turn>) {
    t.Ok? ==> Among(blocks, t.value.state) && (t.value.Follow? ==> LinkAmong(blocks, t.value.state, t.value.link))
  }

  predicate BegunAmong(blocks: set<int>, b: Outcome<Begun>) {
    b.Ok? ==> Among(blocks, b.value.state) && (b.value.Hop? ==> LinkAmong(blocks, b.value.state, b.value.link))
  }

  /** What keeps slot and block keeps them among the blocks. */
  lemma SlotAmong(blocks: set<int>, s: State, t: Outcome<Turn>)
    requires 0 in blocks && Among(blocks, s) && SlotKept(s, t)
    ensures TurnAmong(blocks, t)
  {
    hide Wrap32;
  }

  lemma BegunSlotAmong(blocks: set<int>, s: State, b: Outcome<Begun>)
    requires 0 in blocks && Among(blocks, s) && BegunSlot(s, b)
    ensures BegunAmong(blocks, b)
  {
    hide Wrap32;
  }

  // The link loop

  lemma SavedAmong(d: Disc, blocks: set<int>, s: State, cellN: int)
    requires 0 in blocks && Among(blocks, s)
    ensures var r := SetRSMinfo(d, s, cellN, 0); r.Ok? ==> Among(blocks, r.value)
  {
    assert Wrap32(0) == 0;
  }

  lemma EnterAmong(d: Disc, o: Oracle, blocks: set<int>, s: State, link: Link, fuel: nat)
    requires Consistent(d) && 0 in blocks && Among(blocks, s)
    ensures TurnAmong(blocks, EnterCalled(d, o, s, link, fuel))
  {
    hide SetPGCN, SetFpPGC, SetMENU, PlayPGC, PlayAsserted, SlotKept, Turned, Among, TurnAmong;
    SetSlot(d, s, 0, 0, 0, 0, 0);
    PlayedSlot(d, o, SetFpPGC(d, s).1, s, fuel);
    var vmgm, vtsm := s.(domain := Vmgm), s.(domain := VtsMenu);
    SetSlot(d, vmgm, link.data1, link.data1, 0, 0, 0);
    SetSlot(d, vtsm, link.data1, link.data1, 0, 0, 0);
    AssertedSlot(d, o, s, SetMENU(d, vmgm, link.data1), link, fuel);
    AssertedSlot(d, o, s, SetMENU(d, vtsm, link.data1), link, fuel);
    AssertedSlot(d, o, s, Ok(SetPGCN(d, vmgm, link.data1)), link, fuel);
    SlotAmong(blocks, s, EnterCalled(d, o, s, link, fuel));
  }

  lemma CallAmong(d: Disc, o: Oracle, blocks: set<int>, s: State, link: Link, fuel: nat)
    requires Consistent(d) && 0 in blocks && Among(blocks, s)
    ensures TurnAmong(blocks, FollowCall(d, o, s, link, fuel))
  {
    hide SetRSMinfo, EnterCalled, Wrap32;
    var r := SetRSMinfo(d, s, CallCell(link), 0);
    SavedAmong(d, blocks, s, CallCell(link));
    if r.Ok? {
      EnterAmong(d, o, blocks, r.value, link, fuel);
    }
  }

  lemma ProcessAmong(d: Disc, o: Oracle, blocks: set<int>, s: State, link: Link, fuel: nat)
    requires Consistent(d) && 0 in blocks && LinkAmong(blocks, s, link)
    ensures TurnAmong(blocks, Process(d, o, s, link, fuel))
  {
    hide FollowCall, FollowJump, Wrap32;
    if IsCall(link.command) {
      CallAmong(d, o, blocks, s, link, fuel);
    } else if link.command == PlayThis {
      PlayThisReturns(d, o, s, link, fuel);
    } else {
      JumpSlot(d, o, s, link, fuel);
    }
  }

  lemma {:induction false} LoopAmong(d: Disc, o: Oracle, blocks: set<int>, s: State, link: Link, turns: nat, fuel: nat)
    requires Consistent(d) && 0 in blocks && LinkAmong(blocks, s, link)
    ensures var r := Loop(d, o, s, link, turns, fuel); r.Ok? ==> Among(blocks, r.value.0)
    decreases turns
  {
    hide Process, Wrap32, Among;
    if turns > 0 {
      ProcessAmong(d, o, blocks, s, link, fuel);
      var turn := Process(d, o, s, link, fuel);
      if turn.Ok? && turn.value.Follow? {
        LoopAmong(d, o, blocks, turn.value.state, turn.value.link, turns - 1, fuel);
      }
    }
  }

  // Calls

  /** The blocks a call can leave: none, the one held, the saved one, and the one asked for.
      (A menu call saves the held one, and the menu may resume at once.) */
  function HeldBlocks(s: State, call: Call): set<int> {
    {0, s.blockN, Wrap32(s.blockN), Wrap32(s.rsm.blockN)} + AskedBlocks(call)
  }

  function AskedBlocks(call: Call): set<int> {
    match call
    case JumpCellBlock(_, block) => {block}
    case AtBlock(block) => {block}
    case _ => {}
  }

  lemma BeginAmong(d: Disc, o: Oracle, s: State, call: Call, fuel: nat)
    requires Consistent(d)
    ensures BegunAmong(HeldBlocks(s, call), Begin(d, o, s, call, fuel))
  {
    hide Begin, Wrap32;
    if SparesSlot(s, call) {
      BeginSlot(d, o, s, call, fuel);
      if call.AtBlock? {
        AtBlockDone(d, o, s, call.block, fuel);
      }
    } else if call.JumpMenu? {
      MenuAmong(d, o, s, call.menu, fuel);
    } else {
      StartAmong(d, o, s, call, fuel);
    }
  }

  lemma AtBlockDone(d: Disc, o: Oracle, s: State, block: int, fuel: nat)
    ensures Begin(d, o, s, AtBlock(block), fuel) == Ok(Done(s.(blockN := block), true))
  {
  }

  lemma MenuAmong(d: Disc, o: Oracle, s: State, menu: Menu, fuel: nat)
    requires Consistent(d)
    ensures BegunAmong(HeldBlocks(s, JumpMenu(menu)), Begin(d, o, s, JumpMenu(menu), fuel))
  {
    hide PlayPGC, SetMENU, Wrap32, BegunAmong, BegunSlot, Hopping;
    var blocks := HeldBlocks(s, JumpMenu(menu));
    var r := if s.domain == VtsTitle then SetRSMinfo(d, s, 0, s.blockN) else Ok(s);
    if r.Ok? {
      var s1 := r.value;
      var id := match menu case TitleMenu => 2 case EscapeMenu => 0 case OtherMenu(id) => id;
      var s2 := s1.(domain := if menu.OtherMenu? then VtsMenu else Vmgm);
      SetSlot(d, s2, 0, id, 0, 0, 0);
      DoneAmong(blocks, s1, false);
      var m := SetMENU(d, s2, id);
      if m.Ok? {
        DoneAmong(blocks, m.value.1.(domain := s.domain), false);
        HoppedSlot(d, o, m.value.1, s2, fuel, Nothing);
        BegunSlotAmong(blocks, s2, Hopping(PlayPGC(d, o, m.value.1, fuel), Nothing));
      }
    }
    NotBegunAmong(blocks);
    DoneAmong(blocks, s, false);
  }

  lemma DoneAmong(blocks: set<int>, s: State, result: bool)
    ensures Among(blocks, s) ==> BegunAmong(blocks, Ok(Done(s, result)))
  {
  }

  lemma NotBegunAmong(blocks: set<int>)
    ensures BegunAmong(blocks, Abort) && BegunAmong(blocks, Spent)
  {
  }

  lemma StartAmong(d: Disc, o: Oracle, s: State, call: Call, fuel: nat)
    requires Consistent(d) && (call.Reset? || (call.Start? && s.stopped))
    ensures BegunAmong(HeldBlocks(s, call), Begin(d, o, s, call, fuel))
  {
    hide PlayPGC, SetFpPGC;
    var s1 := ResetState(s).(stopped := false);
    SetSlot(d, s1, 0, 0, 0, 0, 0);
    HoppedSlot(d, o, SetFpPGC(d, s1).1, s1, fuel, Nothing);
  }

  lemma FinallyAmong(d: Disc, o: Oracle, blocks: set<int>, s: State, hopped: bool, after: After, fuel: nat)
    requires Consistent(d) && 0 in blocks && Among(blocks, s) && (after.ThenBlock? ==> after.block in blocks)
    ensures BegunAmong(blocks, Finally(d, o, s, hopped, after, fuel))
  {
    hide PlayPG, Wrap32;
    FinallySlot(d, o, s, hopped, after, fuel);
  }

  lemma AfterIsAsked(d: Disc, o: Oracle, s: State, call: Call, fuel: nat)
    ensures var b := Begin(d, o, s, call, fuel);
      b.Ok? && b.value.Hop? && b.value.after.ThenBlock? ==> b.value.after.block in AskedBlocks(call)
  {
    hide PlayPGC, PlayPG, PlayCell, PlayCellPost, PlayPGCPost, SetPGCN, SetFpPGC, SetPTT, SetPROG, SetMENU, Eval;
  }

  /** After any call, link loop and all, the VM's block is 0, the one held before, the saved
      one, or the one the call asks for. */
  lemma PerformBlocks(d: Disc, o: Oracle, s: State, call: Call, turns: nat, fuel: nat)
    requires Consistent(d)
    ensures var r := Perform(d, o, s, call, turns, fuel); r.Ok? ==> r.value.1.blockN in HeldBlocks(s, call)
  {
    hide Begin, Loop, Finally, Wrap32, HeldBlocks;
    var blocks := HeldBlocks(s, call);
    HeldHave(s, call);
    BeginAmong(d, o, s, call, fuel);
    AfterIsAsked(d, o, s, call, fuel);
    var begun := Begin(d, o, s, call, fuel);
    if begun.Ok? && begun.value.Hop? {
      LoopAmong(d, o, blocks, begun.value.state, begun.value.link, turns, fuel);
      var looped := Loop(d, o, begun.value.state, begun.value.link, turns, fuel);
      if looped.Ok? {
        FinallyAmong(d, o, blocks, looped.value.0, looped.value.1, begun.value.after, fuel);
        var ended := Finally(d, o, looped.value.0, looped.value.1, begun.value.after, fuel);
        if ended.Ok? && ended.value.Hop? {
          LoopAmong(d, o, blocks, ended.value.state, ended.value.link, turns, fuel);
        }
      }
    }
  }

  lemma HeldHave(s: State, call: Call)
    ensures 0 in HeldBlocks(s, call) && AskedBlocks(call) <= HeldBlocks(s, call)
  {
  }
}
