/** What every step of the navigation machine keeps, and what holds over all its runs. */
module NavigationLaws {
  import opened Bits
  import opened Decoder
  import opened CommandLists
  import opened Disc
  import opened Machine
  import opened Navigation

  // The invariant

  /** TTN_REG names the title (vtsN, VTS_TTN_REG). */
  predicate TitleNamed(d: Disc, s: State) {
    var tt := Reg(s, TTN_REG) as int;
    1 <= tt <= |d.titles| && d.titles[tt - 1].vts == s.vtsN && d.titles[tt - 1].vtsTitle == Reg(s, VTS_TTN_REG)
  }

  /** The three linked registers agree with the position. */
  predicate Linked(d: Disc, s: State) {
    TitleNamed(d, s) && Reg(s, TT_PGCN_REG) as int == s.pgcN
  }

  /** The pgc is entry pgcN of the current domain's table. */
  predicate InTable(d: Disc, s: State) {
    var table := CurrentTable(d, s);
    table.Some? && s.pgc == TableEntry(table.value, s.pgcN) && 1 <= s.pgcN <= |Entries(d, table.value)|
  }

  /** The current title set is the open one. */
  predicate SetOpen(d: Disc, s: State) {
    s.vtsN >= 1 ==> s.vtsi == s.vtsN <= |d.titleSets|
  }

  predicate Placed(d: Disc, s: State) {
    && SetOpen(d, s)
    && (s.domain == VtsTitle ==> Linked(d, s))
    && (s.domain != FirstPlay ==> InTable(d, s))
  }

  /** The saved record satisfies the same relation. */
  predicate Saved(d: Disc, r: Resume) {
    && |r.regs| == 5 && r.regs[0] as int <= |d.titles|
    && (r.vtsN != 0 ==>
      && 1 <= r.vtsN <= |d.titleSets| && 1 <= r.regs[0]
      && d.titles[r.regs[0] - 1].vts == r.vtsN && d.titles[r.regs[0] - 1].vtsTitle == r.regs[1] as int
      && r.regs[2] as int == r.pgcN && 1 <= r.pgcN <= |TitleSetAt(d, r.vtsN).pgcs|)
  }

  /** What holds of every state, stopped or not. */
  predicate Bounded(d: Disc, s: State) {
    && Reg(s, TTN_REG) as int <= |d.titles| && |s.rsm.regs| == 5 && s.rsm.regs[0] as int <= |d.titles|
    && s.cellN >= 0 && s.rsm.cellN >= 0
  }

  predicate Inv(d: Disc, s: State) {
    Bounded(d, s) && (!s.stopped ==> Placed(d, s) && Saved(d, s.rsm))
  }

  /** The position after a hop: a cell of the pgc, and the program that cell belongs to. */
  predicate Playable(d: Disc, s: State) {
    var pgc := PgcOf(d, s.pgc);
    pgc.Ok? && 1 <= s.cellN <= |pgc.value.cells| && s.pgN == LeadingPrograms(pgc.value.programs, s.cellN)
  }

  /** Every program of a table's PGCs enters at one of its cells. */
  ghost predicate ProgramsInRange(d: Disc) {
    forall t: TableId, k: nat | k < |Entries(d, t)| :: EntriesInRange(Entries(d, t)[k].pgc)
  }

  // The play operations

  /** What no play operation changes: everything but position, pgc, TT_PGCN, PTTN and the writable registers. */
  predicate SameFrame(s: State, s': State) {
    && s'.domain == s.domain && s'.vtsi == s.vtsi && s'.vtsN == s.vtsN
    && s'.rsm == s.rsm && s'.hopChannel == s.hopChannel && s'.stopped == s.stopped
    && Reg(s', 0) == Reg(s, 0) && Reg(s', TTN_REG) == Reg(s, TTN_REG) && Reg(s', VTS_TTN_REG) == Reg(s, VTS_TTN_REG)
    && (forall k: nat | 11 <= k < 24 && k != 13 :: Reg(s', k) == Reg(s, k))
  }

  predicate PlayedWell(d: Disc, s: State, p: Outcome<Played>) {
    p.Ok? ==>
      && SameFrame(s, p.value.state)
      && (Placed(d, s) ==> Placed(d, p.value.state))
      && (s.cellN >= 0 ==> p.value.state.cellN >= 0)
      && (p.value.state.blockN == 0 || p.value.state.blockN == s.blockN)
      && (p.value.link.command == PlayThis ==> p.value.link == PLAY_THIS && Playable(d, p.value.state))
  }

  /** Placed looks only at domain, title set, pgc and the registers 0, 4, 5 and 6. */
  lemma PlacedSame(d: Disc, s: State, s': State)
    requires SameFrame(s, s')
    requires s'.pgc == s.pgc && s'.pgcN == s.pgcN && Reg(s', TT_PGCN_REG) == Reg(s, TT_PGCN_REG)
    ensures Placed(d, s) ==> Placed(d, s')
  {
  }

  lemma EvalKeeps(d: Disc, o: Oracle, s: State, commands: seq<u64>)
    ensures var r := Eval(commands, s.registers, o, s.tick);
      !r.Aborts? ==>
        && SameFrame(s, WithRegisters(s, r.registers, r.tick))
        && (Placed(d, s) ==> Placed(d, WithRegisters(s, r.registers, r.tick)))
        && (r.TakesLink? ==> r.link.command != PlayThis)
  {
    hide Eval, Placed;
    EvalFrame(commands, s.registers, o, s.tick);
    var r := Eval(commands, s.registers, o, s.tick);
    if !r.Aborts? {
      PlacedSame(d, s, WithRegisters(s, r.registers, r.tick));
    }
  }

  lemma SetPGCNPlaces(d: Disc, s: State, pgcN: int)
    requires Consistent(d)
    ensures var (found, s') := SetPGCN(d, s, pgcN);
      && SameFrame(s, s') && s'.(pgc := s.pgc, pgcN := s.pgcN, pgN := s.pgN, registers := s.registers) == s
      && (forall k: nat | k < 24 && k != TT_PGCN_REG :: Reg(s', k) == Reg(s, k))
      && (found ==> s'.pgcN == pgcN && InTable(d, s'))
      && (found && SetOpen(d, s) && (s.domain == VtsTitle ==> TitleNamed(d, s)) ==> Placed(d, s'))
      && (!found ==> s' == s)
  {
    var table := CurrentTable(d, s);
    if table.Some? && s.domain == VtsTitle && 1 <= pgcN <= |Entries(d, table.value)| {
      assert d.titleSets[s.vtsi - 1] in d.titleSets;
      assert pgcN < TWO16;
    }
  }

  lemma SetPGNKeeps(d: Disc, s: State)
    ensures var r := SetPGN(d, s);
      r.Ok? ==>
        && SameFrame(s, r.value.1)
        && (Placed(d, s) ==> Placed(d, r.value.1))
        && r.value.1.(registers := s.registers, pgN := s.pgN) == s
        && (forall k: nat | k < 24 && k != PTTN_REG :: Reg(r.value.1, k) == Reg(s, k))
        && (r.value.0 ==> r.value.1.pgN == LeadingPrograms(PgcOf(d, s.pgc).value.programs, s.cellN))
  {
    hide Placed, CurrentPart, LeadingPrograms;
    var r := SetPGN(d, s);
    if r.Ok? {
      PlacedSame(d, s, r.value.1);
    }
  }

  lemma PlayPGCPGKeeps(d: Disc, o: Oracle, s: State, pgN: int, fuel: nat)
    requires Consistent(d)
    ensures PlayedWell(d, s, PlayPGCPG(d, o, s, pgN, fuel))
    decreases fuel, 3
  {
    hide Placed, Eval, PlayPG;
    var pgc := PgcOf(d, s.pgc);
    if pgc.Ok? {
      var s1 := s.(pgN := pgN, cellN := 0, blockN := 0);
      PlacedSame(d, s, s1);
      EvalKeeps(d, o, s1, pgc.value.pre);
      var r := Eval(pgc.value.pre, s1.registers, o, s1.tick);
      if r.FallsThrough? {
        PlayPGKeeps(d, o, WithRegisters(s1, r.registers, r.tick), fuel);
      }
    }
  }

  lemma PlayPGCPostKeeps(d: Disc, o: Oracle, s: State, fuel: nat)
    requires Consistent(d)
    ensures PlayedWell(d, s, PlayPGCPost(d, o, s, fuel))
    decreases fuel, 0
  {
    hide InTable, TitleNamed, SetOpen, Eval, SetPGCN, PlayPGCPG;
    var pgc := PgcOf(d, s.pgc);
    if pgc.Ok? {
      EvalKeeps(d, o, s, pgc.value.post);
      var r := Eval(pgc.value.post, s.registers, o, s.tick);
      if r.FallsThrough? {
        var s1 := WithRegisters(s, r.registers, r.tick);
        SetPGCNPlaces(d, s1, pgc.value.next);
        if fuel > 0 {
          var s2 := SetPGCN(d, s1, pgc.value.next).1;
          PlayPGCPGKeeps(d, o, s2, 1, fuel - 1);
        }
      }
    }
  }

  lemma PlayPGKeeps(d: Disc, o: Oracle, s: State, fuel: nat)
    requires Consistent(d)
    ensures PlayedWell(d, s, PlayPG(d, o, s, fuel))
    decreases fuel, 2
  {
    hide Placed, PlayCell, PlayPGCPost;
    var pgc := PgcOf(d, s.pgc);
    if pgc.Ok? && s.pgN > 0 {
      if s.pgN > |pgc.value.programs| {
        PlayPGCPostKeeps(d, o, s, fuel);
      } else {
        var s1 := s.(cellN := pgc.value.programs[s.pgN - 1]);
        PlacedSame(d, s, s1);
        PlayCellKeeps(d, o, s1, fuel);
      }
    }
  }

  lemma PlayCellKeeps(d: Disc, o: Oracle, s: State, fuel: nat)
    requires Consistent(d)
    ensures PlayedWell(d, s, PlayCell(d, o, s, fuel))
    decreases fuel, 1
  {
    hide Placed, SetPGN, AngleCell, LeadingPrograms, Entries, PlayPGCPost;
    var pgc := PgcOf(d, s.pgc);
    if pgc.Ok? && s.cellN > 0 {
      if s.cellN > |pgc.value.cells| {
        PlayPGCPostKeeps(d, o, s, fuel);
      } else {
        var c := AngleCell(pgc.value, s.cellN, Reg(s, AGL_REG));
        if c.Ok? {
          AngleCellInRange(pgc.value, s.cellN, Reg(s, AGL_REG));
          var s1 := s.(cellN := c.value);
          PlacedSame(d, s, s1);
          SetPGNKeeps(d, s1);
          var p := SetPGN(d, s1);
          if p.Ok? {
            var s2 := p.value.1;
            PlacedSame(d, s2, s2.(cellRestart := s2.cellRestart + 1, blockN := 0));
          }
        }
      }
    }
  }

  lemma AngleCellInRange(pgc: Pgc, c: int, angle: u16)
    requires 1 <= c <= |pgc.cells|
    ensures var a := AngleCell(pgc, c, angle); a.Ok? ==> 1 <= a.value <= |pgc.cells|
  {
  }

  lemma NextCellAhead(pgc: Pgc, c: int)
    requires 1 <= c <= |pgc.cells|
    ensures var n := NextCell(pgc, c); n.Ok? ==> c < n.value <= |pgc.cells| + 1
  {
  }

  lemma PlayCellPostKeeps(d: Disc, o: Oracle, s: State, fuel: nat)
    requires Consistent(d)
    ensures PlayedWell(d, s, PlayCellPost(d, o, s, fuel))
  {
    hide Placed, SetPGN, NextCell, LeadingPrograms, Entries, PlayCell, PlayPGCPost, Eval;
    var pgc := PgcOf(d, s.pgc);
    if pgc.Ok? && 1 <= s.cellN <= |pgc.value.cells| {
      var n := pgc.value.cells[s.cellN - 1].command;
      var commands := if 1 <= n <= |pgc.value.cellCommands| then [pgc.value.cellCommands[n - 1]] else [];
      EvalKeeps(d, o, s, commands);
      var r := Eval(commands, s.registers, o, s.tick);
      var next := NextCell(pgc.value, s.cellN);
      NextCellAhead(pgc.value, s.cellN);
      if r.FallsThrough? && next.Ok? {
        var s0 := WithRegisters(s, r.registers, r.tick);
        var s1 := s0.(cellN := next.value);
        PlacedSame(d, s0, s1);
        SetPGNKeeps(d, s1);
        var p := SetPGN(d, s1);
        if p.Ok? {
          PlayCellKeeps(d, o, p.value.1, fuel);
          PlayPGCPostKeeps(d, o, p.value.1, fuel);
        }
      }
    }
  }

  // One turn of the link loop

  /** The invariant between turns. Before an Exit only the bounds are promised: the player is about to stop. */
  ghost predicate LinkInv(d: Disc, s: State, link: Link) {
    && (if link.command == Exit then Bounded(d, s) else Inv(d, s))
    && (link.command == PlayThis && ProgramsInRange(d) && !s.stopped ==> Playable(d, s))
  }

  ghost predicate TurnInv(d: Disc, t: Outcome<Turn>) {
    match t
    case Ok(Follow(s, link)) => LinkInv(d, s, link)
    case Ok(Return(s, hopped)) => Inv(d, s) && (hopped && ProgramsInRange(d) && !s.stopped ==> Playable(d, s))
    case _ => true
  }

  lemma TurnedKeeps(d: Disc, s: State, p: Outcome<Played>)
    requires PlayedWell(d, s, p) && Inv(d, s)
    ensures TurnInv(d, Turned(p))
  {
  }

  /** Selecting a button changes nothing the invariant looks at. */
  lemma SelectButtonKeeps(d: Disc, s: State, button: u16)
    ensures var s' := SelectButton(s, button);
      && SameFrame(s, s') && (Placed(d, s) ==> Placed(d, s'))
      && s'.(registers := s.registers) == s
      && (forall k: nat | k < 24 && k != HL_BTNN_REG :: Reg(s', k) == Reg(s, k))
  {
  }

  lemma SetVtsPTTPlaces(d: Disc, s: State, vtsN: int, vtsTitle: int, part: int)
    requires Consistent(d) && Bounded(d, s)
    ensures var r := SetVtsPTT(d, s, vtsN, vtsTitle, part);
      r.Ok? ==> var s' := r.value.1;
        && s'.domain == VtsTitle && s'.rsm == s.rsm && s'.stopped == s.stopped && s'.cellN == s.cellN && Bounded(d, s')
        && (r.value.0 && SetOpen(d, s) ==> Placed(d, s'))
  {
    hide GetTT;
    var (opened_, s1) := OpenVtsi(d, s.(domain := VtsTitle), vtsN);
    if opened_ && s1.vtsi != 0 {
      var titles := TitleSetAt(d, s1.vtsi).titles;
      if 1 <= vtsTitle <= |titles| && 1 <= part <= |titles[vtsTitle - 1]| {
        var target: Part := titles[vtsTitle - 1][part - 1];
        var tt := GetTT(d.titles, vtsN, vtsTitle);
        assert d.titleSets[s1.vtsi - 1] in d.titleSets;
        var s2 := SetReg(SetReg(SetReg(s1, TT_PGCN_REG, target.pgcn), PTTN_REG, part), TTN_REG, tt);
        var s3 := SetReg(s2, VTS_TTN_REG, vtsTitle).(vtsN := vtsN);
        assert Reg(s2, TTN_REG) as int == tt && Reg(s3, VTS_TTN_REG) as int == vtsTitle;
        SetPGCNPlaces(d, s3, target.pgcn);
        if tt > 0 {
          assert d.titles[tt - 1] in d.titles;
        }
        var (found, s4) := SetPGCN(d, s3, target.pgcn);
        PlacedSame(d, s4, s4.(pgN := target.pgn));
      }
    }
  }
}
