/** Results about playing: termination, angle blocks, and jumping to a part. */
module Playback {
  import opened Bits
  import opened Decoder
  import opened CommandLists
  import opened Disc
  import opened Machine
  import opened Navigation
  import opened NavigationLaws
  import opened NavigationRuns
  import opened NavigationTheorems

  // Termination of the play operations

  /** Every chain of a table has a program, and every program a cell to enter at. */
  ghost predicate NoEmptyChains(d: Disc) {
    forall t: TableId, k: nat | k < |Entries(d, t)| ::
      |Entries(d, t)[k].pgc.programs| > 0 && EntriesInRange(Entries(d, t)[k].pgc)
  }

  lemma SetPGNEnds(d: Disc, s: State)
    ensures SetPGN(d, s) != Spent
  {
  }

  lemma CellInside(d: Disc, o: Oracle, s: State, pgc: Pgc, fuel: nat)
    requires PgcOf(d, s.pgc) == Ok(pgc) && 1 <= s.cellN <= |pgc.cells|
    ensures PlayCell(d, o, s, fuel) != Spent
  {
    var c := AngleCell(pgc, s.cellN, Reg(s, AGL_REG));
    if c.Ok? {
      SetPGNEnds(d, s.(cellN := c.value));
    }
  }

  lemma ProgramInside(d: Disc, o: Oracle, s: State, pgc: Pgc, fuel: nat)
    requires PgcOf(d, s.pgc) == Ok(pgc) && 1 <= s.pgN <= |pgc.programs| && EntriesInRange(pgc)
    ensures PlayPG(d, o, s, fuel) != Spent
  {
    hide PlayCell;
    CellInside(d, o, s.(cellN := pgc.programs[s.pgN - 1]), pgc, fuel);
  }

  lemma ChainEnds(d: Disc, o: Oracle, s: State, table: TableId, fuel: nat)
    requires NoEmptyChains(d) && s.pgc == TableEntry(table, s.pgcN) && 1 <= s.pgcN <= |Entries(d, table)|
    ensures PlayPGC(d, o, s, fuel) != Spent
  {
    hide PlayPG, Eval;
    var pgc := Entries(d, table)[s.pgcN - 1].pgc;
    assert |pgc.programs| > 0 && EntriesInRange(pgc);
    var s1 := s.(pgN := 1, cellN := 0, blockN := 0);
    var r := Eval(pgc.pre, s1.registers, o, s1.tick);
    if r.FallsThrough? {
      ProgramInside(d, o, WithRegisters(s1, r.registers, r.tick), pgc, fuel);
    }
  }

  lemma PostEnds(d: Disc, o: Oracle, s: State, fuel: nat)
    requires NoEmptyChains(d) && fuel >= 1
    ensures PlayPGCPost(d, o, s, fuel) != Spent
  {
    hide PlayPGC, Eval;
    var pgc := PgcOf(d, s.pgc);
    if pgc.Ok? {
      var r := Eval(pgc.value.post, s.registers, o, s.tick);
      if r.FallsThrough? {
        var s1 := WithRegisters(s, r.registers, r.tick);
        var (found, s2) := SetPGCN(d, s1, pgc.value.next);
        if found {
          ChainEnds(d, o, s2, CurrentTable(d, s1).value, fuel - 1);
        }
      }
    }
  }

  lemma CellEnds(d: Disc, o: Oracle, s: State, fuel: nat)
    requires NoEmptyChains(d) && fuel >= 1
    ensures PlayCell(d, o, s, fuel) != Spent
  {
    hide PlayPGCPost, SetPGN;
    PostEnds(d, o, s, fuel);
    var pgc := PgcOf(d, s.pgc);
    if pgc.Ok? && 1 <= s.cellN <= |pgc.value.cells| {
      CellInside(d, o, s, pgc.value, fuel);
    }
  }

  lemma ProgramEnds(d: Disc, o: Oracle, s: State, fuel: nat)
    requires NoEmptyChains(d) && fuel >= 1
    ensures PlayPG(d, o, s, fuel) != Spent
  {
    hide PlayPGCPost, PlayCell;
    PostEnds(d, o, s, fuel);
    var pgc := PgcOf(d, s.pgc);
    if pgc.Ok? && 1 <= s.pgN <= |pgc.value.programs| {
      CellEnds(d, o, s.(cellN := pgc.value.programs[s.pgN - 1]), fuel);
    }
  }

  lemma StartEnds(d: Disc, o: Oracle, s: State, pgN: int, fuel: nat)
    requires NoEmptyChains(d) && fuel >= 1
    ensures PlayPGCPG(d, o, s, pgN, fuel) != Spent
  {
    hide PlayPG, Eval;
    var pgc := PgcOf(d, s.pgc);
    if pgc.Ok? {
      var s1 := s.(pgN := pgN, cellN := 0, blockN := 0);
      var r := Eval(pgc.value.pre, s1.registers, o, s1.tick);
      if r.FallsThrough? {
        ProgramEnds(d, o, WithRegisters(s1, r.registers, r.tick), fuel);
      }
    }
  }

  lemma CellPostEnds(d: Disc, o: Oracle, s: State, fuel: nat)
    requires NoEmptyChains(d) && fuel >= 1
    ensures PlayCellPost(d, o, s, fuel) != Spent
  {
    hide PlayCell, PlayPGCPost, Eval, SetPGN, NextCell;
    var pgc := PgcOf(d, s.pgc);
    if pgc.Ok? && 1 <= s.cellN <= |pgc.value.cells| {
      var n := pgc.value.cells[s.cellN - 1].command;
      var r := Eval(if 1 <= n <= |pgc.value.cellCommands| then [pgc.value.cellCommands[n - 1]] else [],
                    s.registers, o, s.tick);
      var next := NextCell(pgc.value, s.cellN);
      NextCellEnds(pgc.value, s.cellN);
      if r.FallsThrough? && next.Ok? {
        var s1 := WithRegisters(s, r.registers, r.tick).(cellN := next.value);
        SetPGNEnds(d, s1);
        if SetPGN(d, s1).Ok? {
          CellEnds(d, o, SetPGN(d, s1).value.1, fuel);
          PostEnds(d, o, SetPGN(d, s1).value.1, fuel);
        }
      }
    }
  }

  lemma NextCellEnds(pgc: Pgc, c: int)
    requires 1 <= c <= |pgc.cells|
    ensures NextCell(pgc, c) != Spent
  {
  }

  /** On such a disc one next-PGC hop is enough: no play operation runs on. */
  lemma PlayOperationsEnd(d: Disc, o: Oracle, s: State, pgN: int, fuel: nat)
    requires NoEmptyChains(d) && fuel >= 1
    ensures PlayPGCPG(d, o, s, pgN, fuel) != Spent && PlayPGC(d, o, s, fuel) != Spent
    ensures PlayPG(d, o, s, fuel) != Spent && PlayCell(d, o, s, fuel) != Spent
    ensures PlayCellPost(d, o, s, fuel) != Spent && PlayPGCPost(d, o, s, fuel) != Spent
  {
    hide PlayPGCPG, PlayPG, PlayCell, PlayCellPost, PlayPGCPost;
    StartEnds(d, o, s, pgN, fuel);
    StartEnds(d, o, s, 1, fuel);
    ProgramEnds(d, o, s, fuel);
    CellEnds(d, o, s, fuel);
    CellPostEnds(d, o, s, fuel);
    PostEnds(d, o, s, fuel);
  }

  /** Fuel only decides how long to try: a result, once there, stays. */
  lemma MoreFuel(d: Disc, o: Oracle, s: State, pgN: int, fuel: nat)
    ensures PlayPGCPG(d, o, s, pgN, fuel) != Spent ==> PlayPGCPG(d, o, s, pgN, fuel + 1) == PlayPGCPG(d, o, s, pgN, fuel)
    decreases fuel, 3
  {
    hide PlayPG, Eval;
    var pgc := PgcOf(d, s.pgc);
    if pgc.Ok? {
      var s1 := s.(pgN := pgN, cellN := 0, blockN := 0);
      var r := Eval(pgc.value.pre, s1.registers, o, s1.tick);
      if r.FallsThrough? {
        MoreFuelPG(d, o, WithRegisters(s1, r.registers, r.tick), fuel);
      }
    }
  }

  lemma MoreFuelPG(d: Disc, o: Oracle, s: State, fuel: nat)
    ensures PlayPG(d, o, s, fuel) != Spent ==> PlayPG(d, o, s, fuel + 1) == PlayPG(d, o, s, fuel)
    decreases fuel, 2
  {
    hide PlayPGCPost, PlayCell;
    var pgc := PgcOf(d, s.pgc);
    if pgc.Ok? && 0 < s.pgN <= |pgc.value.programs| {
      MoreFuelCell(d, o, s.(cellN := pgc.value.programs[s.pgN - 1]), fuel);
    }
    MoreFuelPost(d, o, s, fuel);
  }

  lemma MoreFuelCell(d: Disc, o: Oracle, s: State, fuel: nat)
    ensures PlayCell(d, o, s, fuel) != Spent ==> PlayCell(d, o, s, fuel + 1) == PlayCell(d, o, s, fuel)
    decreases fuel, 1
  {
    hide PlayPGCPost, SetPGN;
    MoreFuelPost(d, o, s, fuel);
  }

  lemma MoreFuelPost(d: Disc, o: Oracle, s: State, fuel: nat)
    ensures PlayPGCPost(d, o, s, fuel) != Spent ==> PlayPGCPost(d, o, s, fuel + 1) == PlayPGCPost(d, o, s, fuel)
    decreases fuel, 0
  {
    hide PlayPGCPG, Eval;
    var pgc := PgcOf(d, s.pgc);
    if pgc.Ok? {
      var r := Eval(pgc.value.post, s.registers, o, s.tick);
      if r.FallsThrough? && fuel > 0 {
        MoreFuel(d, o, SetPGCN(d, WithRegisters(s, r.registers, r.tick), pgc.value.next).1, 1, fuel - 1);
      }
    }
  }

  // Angle blocks

  /** A cell is plain, or in an angle block; a cell that continues a block follows a cell of it. */
  predicate BlocksWellFormed(cells: seq<Cell>) {
    && (forall k | 0 <= k < |cells| :: cells[k].mode <= 3 && cells[k].kind == if cells[k].mode == 0 then 0 else 1)
    && (forall k | 0 <= k < |cells| && cells[k].mode >= 2 :: k > 0 && cells[k - 1].mode >= 1)
  }

  /** The first cell of c's block. */
  function BlockStart(cells: seq<Cell>, c: int): int
    requires BlocksWellFormed(cells) && 1 <= c <= |cells|
    ensures 1 <= BlockStart(cells, c) <= c
    decreases c
  {
    if cells[c - 1].mode >= 2 then BlockStart(cells, c - 1) else c
  }

  /** Plain cells, and the angle-th cell of each block. */
  predicate Selected(cells: seq<Cell>, angle: u16, c: int)
    requires BlocksWellFormed(cells) && 1 <= c <= |cells|
  {
    cells[c - 1].mode == 0 || c == BlockStart(cells, c) + angle - 1
  }

  /** The selected cells from c on, in order: the filter a traversal refines. */
  function SelectedFrom(cells: seq<Cell>, angle: u16, c: int): seq<int>
    requires BlocksWellFormed(cells) && 1 <= c
    decreases |cells| - c
  {
    if c > |cells| then []
    else (if Selected(cells, angle, c) then [c] else []) + SelectedFrom(cells, angle, c + 1)
  }

  /** A cell at which play can arrive: plain, or the first of a block. */
  predicate Head(cells: seq<Cell>, c: int) {
    1 <= c <= |cells| && cells[c - 1].mode < 2
  }

  /** The angle exists in every block. */
  predicate AngleExists(cells: seq<Cell>, angle: u16) {
    angle >= 1 && forall c | 1 <= c <= |cells| && Head(cells, c) && cells[c - 1].mode == 1 :: c + angle - 1 < SkipBlock(cells, c + 1)
  }

  lemma {:induction false} StartInBlock(cells: seq<Cell>, c: int, k: int)
    requires BlocksWellFormed(cells) && Head(cells, c) && c <= k < SkipBlock(cells, c + 1)
    ensures k <= |cells| && BlockStart(cells, k) == c && (k > c ==> cells[k - 1].mode >= 2)
    ensures SkipBlock(cells, k + 1) == SkipBlock(cells, c + 1)
    decreases k
  {
    if k > c {
      StartInBlock(cells, c, k - 1);
      assert cells[k - 1].mode >= 2;
    }
  }

  /** The cell selected when play arrives at cell c. */
  function ArrivedAt(cells: seq<Cell>, angle: u16, c: int): int
    requires 1 <= c <= |cells|
  {
    if cells[c - 1].mode == 0 then c else c + angle - 1
  }

  /** Within a block that is the only cell selected. */
  lemma SelectedMeans(cells: seq<Cell>, angle: u16, c: int, k: int)
    requires BlocksWellFormed(cells) && Head(cells, c) && AngleExists(cells, angle) && c <= k < SkipBlock(cells, c + 1)
    ensures k <= |cells| && ArrivedAt(cells, angle, c) < SkipBlock(cells, c + 1)
    ensures Selected(cells, angle, k) <==> k == ArrivedAt(cells, angle, c)
  {
    StartInBlock(cells, c, k);
    if cells[c - 1].mode == 0 {
      PlainAlone(cells, c);
    }
  }

  lemma {:induction false} SelectedInBlock(cells: seq<Cell>, angle: u16, c: int, k: int)
    requires BlocksWellFormed(cells) && Head(cells, c) && AngleExists(cells, angle)
    requires c <= k <= SkipBlock(cells, c + 1)
    ensures var e, a := SkipBlock(cells, c + 1), ArrivedAt(cells, angle, c);
      SelectedFrom(cells, angle, k) == (if k <= a then [a] else []) + SelectedFrom(cells, angle, e)
    decreases SkipBlock(cells, c + 1) - k
  {
    hide Selected, AngleExists, BlocksWellFormed, SkipBlock;
    SelectedMeans(cells, angle, c, c);
    if k < SkipBlock(cells, c + 1) {
      SelectedMeans(cells, angle, c, k);
      SelectedInBlock(cells, angle, c, k + 1);
    }
  }

  lemma PlainAlone(cells: seq<Cell>, c: int)
    requires BlocksWellFormed(cells) && Head(cells, c) && cells[c - 1].mode == 0
    ensures SkipBlock(cells, c + 1) == c + 1
  {
  }

  /** Looking up the current part cannot fail here. */
  predicate Steady(d: Disc, s: State) {
    s.domain == VtsTitle ==> Reg(s, TTN_REG) as int <= |d.titles| && s.vtsi != 0 && GetPGCN(d, s).Ok?
  }

  lemma PlacedIsSteady(d: Disc, s: State)
    requires Consistent(d) && Inv(d, s) && !s.stopped
    ensures Steady(d, s)
  {
    if s.domain == VtsTitle {
      TitleSetPositive(d, s);
    }
  }

  // set_PGN where the code calls it

  /** From a steady state set_PGN answers 0 only behind the chain's last cell. */
  lemma SetPGNRefuses(d: Disc, s: State, pgc: Pgc)
    requires Steady(d, s) && PgcOf(d, s.pgc) == Ok(pgc)
    ensures var r := SetPGN(d, s);
      && r.Ok? && (!r.value.0 ==> s.cellN > |pgc.cells|)
      && (EntriesInRange(pgc) ==> (!r.value.0 <==> s.cellN > |pgc.cells|))
  {
    hide FindTitlePart, GetTT;
  }

  lemma SteadyMoves(d: Disc, s: State, s': State)
    requires Steady(d, s) && SameFrame(s, s') && s'.pgc == s.pgc && s'.pgcN == s.pgcN
    ensures Steady(d, s')
  {
  }

  /** In play_Cell set_PGN never answers 0, so the assertion behind it cannot fail:
      a cell of the chain is played unless its block mode and type contradict. */
  lemma PlayCellAssertsNothing(d: Disc, o: Oracle, s: State, pgc: Pgc, fuel: nat)
    requires Consistent(d) && Inv(d, s) && !s.stopped
    requires PgcOf(d, s.pgc) == Ok(pgc) && 1 <= s.cellN <= |pgc.cells|
    ensures var c := AngleCell(pgc, s.cellN, Reg(s, AGL_REG));
      && (c.Ok? ==> var r := SetPGN(d, s.(cellN := c.value)); r.Ok? && r.value.0)
      && (PlayCell(d, o, s, fuel).Ok? <==> c.Ok?)
  {
    hide SetPGN, AngleCell, Inv;
    PlacedIsSteady(d, s);
    var c := AngleCell(pgc, s.cellN, Reg(s, AGL_REG));
    if c.Ok? {
      AngleCellInRange(pgc, s.cellN, Reg(s, AGL_REG));
      SteadyMoves(d, s, s.(cellN := c.value));
      SetPGNRefuses(d, s.(cellN := c.value), pgc);
    }
  }

  /** In play_Cell_post set_PGN answers 0 exactly when the next cell lies past the end. */
  lemma PlayCellPostAsks(d: Disc, o: Oracle, s: State, pgc: Pgc, commands: seq<u64>)
    requires Consistent(d) && Inv(d, s) && !s.stopped
    requires PgcOf(d, s.pgc) == Ok(pgc) && 1 <= s.cellN <= |pgc.cells| && EntriesInRange(pgc)
    ensures var e, next := Eval(commands, s.registers, o, s.tick), NextCell(pgc, s.cellN);
      e.FallsThrough? && next.Ok? ==>
        var r := SetPGN(d, WithRegisters(s, e.registers, e.tick).(cellN := next.value));
        r.Ok? && (!r.value.0 <==> next.value == |pgc.cells| + 1)
  {
    hide SetPGN, NextCell, Inv, Eval;
    PlacedIsSteady(d, s);
    EvalKeeps(d, o, s, commands);
    var e, next := Eval(commands, s.registers, o, s.tick), NextCell(pgc, s.cellN);
    if e.FallsThrough? && next.Ok? {
      NextCellAhead(pgc, s.cellN);
      var s1 := WithRegisters(s, e.registers, e.tick).(cellN := next.value);
      SteadyMoves(d, s, s1);
      SetPGNRefuses(d, s1, pgc);
    }
  }

  /** In LinkRSM set_PGN answers 0 only for a saved cell past the end. */
  lemma LinkResumeAsks(d: Disc, s: State, button: u16)
    requires Consistent(d) && ProgramsInRange(d) && Inv(d, s) && !s.stopped && s.rsm.vtsN != 0
    ensures var s1 := ResumedState(d, s, button).(cellN := s.rsm.cellN);
      var pgc, r := PgcOf(d, s1.pgc), SetPGN(d, s1);
      pgc.Ok? && r.Ok? && (!r.value.0 <==> s.rsm.cellN > |pgc.value.cells|)
  {
    hide ResumedState, SetPGN, FindTitlePart, GetTT;
    ResumedInv(d, s, button);
    var s0 := ResumedState(d, s, button);
    var s1 := s0.(cellN := s.rsm.cellN);
    PlacedSame(d, s0, s1);
    SetPGNSucceeds(d, s1);
  }

  /** The states at which the play operations call each other within a turn satisfy the
      invariant again, so what is said of them from such states holds throughout. */
  lemma PlayCallsKeep(d: Disc, o: Oracle, s: State, pgc: Pgc, pgN: int)
    requires Consistent(d) && Inv(d, s) && !s.stopped && PgcOf(d, s.pgc) == Ok(pgc)
    ensures var e := Eval(pgc.pre, s.registers, o, s.tick);
      !e.Aborts? ==> Inv(d, WithRegisters(s.(pgN := pgN, cellN := 0, blockN := 0), e.registers, e.tick))
    ensures 1 <= s.pgN <= |pgc.programs| ==> Inv(d, s.(cellN := pgc.programs[s.pgN - 1]))
    ensures var e := Eval(pgc.post, s.registers, o, s.tick);
      !e.Aborts? ==> Inv(d, SetPGCN(d, WithRegisters(s, e.registers, e.tick), pgc.next).1)
  {
    hide Saved, InTable, TitleNamed, Eval, SetPGCN;
    var s1 := s.(pgN := pgN, cellN := 0, blockN := 0);
    PlacedSame(d, s, s1);
    EvalKeeps(d, o, s1, pgc.pre);
    EvalKeeps(d, o, s, pgc.post);
    if 1 <= s.pgN <= |pgc.programs| {
      PlacedSame(d, s, s.(cellN := pgc.programs[s.pgN - 1]));
    }
    var post := Eval(pgc.post, s.registers, o, s.tick);
    if !post.Aborts? {
      SetPGCNPlaces(d, WithRegisters(s, post.registers, post.tick), pgc.next);
    }
  }

  /** s plays a chain without cell commands, with the angle in its register. */
  predicate Plays(d: Disc, s: State, pgc: Pgc, angle: u16) {
    && PgcOf(d, s.pgc) == Ok(pgc) && Reg(s, AGL_REG) == angle && Steady(d, s)
    && BlocksWellFormed(pgc.cells) && AngleExists(pgc.cells, angle) && EntriesInRange(pgc)
    && (forall c | c in pgc.cells :: c.command == 0)
  }

  lemma SetPGNSteady(d: Disc, s: State)
    requires PgcOf(d, s.pgc).Ok? && EntriesInRange(PgcOf(d, s.pgc).value) && Steady(d, s) && s.cellN >= 1
    ensures var r := SetPGN(d, s);
      && r.Ok? && (r.value.0 <==> s.cellN <= |PgcOf(d, s.pgc).value.cells|)
      && (!r.value.0 ==> r.value.1 == s)
      && r.value.1.cellN == s.cellN && r.value.1.pgc == s.pgc && Reg(r.value.1, AGL_REG) == Reg(s, AGL_REG)
      && Steady(d, r.value.1)
  {
    hide FindTitlePart, GetTT;
  }

  /** Arriving at a head cell plays the selected cell of its block. */
  lemma ArriveAt(d: Disc, o: Oracle, s: State, pgc: Pgc, angle: u16, fuel: nat)
    requires Plays(d, s, pgc, angle) && Head(pgc.cells, s.cellN)
    ensures var p := PlayCell(d, o, s, fuel);
      && p.Ok? && p.value.link == PLAY_THIS && Plays(d, p.value.state, pgc, angle)
      && p.value.state.pgc == s.pgc
      && p.value.state.cellN == if pgc.cells[s.cellN - 1].mode == 0 then s.cellN else s.cellN + angle - 1
  {
    hide SetPGN, AngleCell, AngleExists, BlocksWellFormed;
    PlaysMeans(d, s, pgc, angle);
    AngleChoice(pgc, s.cellN, angle);
    SetPGNSteady(d, s.(cellN := AngleCell(pgc, s.cellN, angle).value));
  }

  lemma AngleChoice(pgc: Pgc, c: int, angle: u16)
    requires BlocksWellFormed(pgc.cells) && AngleExists(pgc.cells, angle) && Head(pgc.cells, c)
    ensures AngleCell(pgc, c, angle) == Ok(if pgc.cells[c - 1].mode == 0 then c else c + angle - 1)
    ensures 1 <= AngleCell(pgc, c, angle).value <= |pgc.cells|
  {
    if pgc.cells[c - 1].mode == 1 {
      StartInBlock(pgc.cells, c, c + angle - 1);
    }
  }

  lemma NextIsBehindBlock(pgc: Pgc, c: int, k: int)
    requires BlocksWellFormed(pgc.cells) && Head(pgc.cells, c) && c <= k < SkipBlock(pgc.cells, c + 1)
    ensures k <= |pgc.cells| && NextCell(pgc, k) == Ok(SkipBlock(pgc.cells, c + 1))
  {
    StartInBlock(pgc.cells, c, k);
    if pgc.cells[k - 1].mode == 0 {
      PlainAlone(pgc.cells, c);
    }
  }

  /** play_Cell_post from s is play_Cell at cell e of the same chain, in state s'. */
  predicate ArrivesBy(d: Disc, o: Oracle, s: State, s': State, pgc: Pgc, angle: u16, e: int, fuel: nat) {
    && Plays(d, s', pgc, angle) && s'.cellN == e && s'.pgc == s.pgc
    && PlayCellPost(d, o, s, fuel) == PlayCell(d, o, s', fuel)
  }

  /** The outcome is the chain's post phase, entered from the last cell one past the chain's end. */
  predicate EntersPost(d: Disc, o: Oracle, last: State, cells: nat, fuel: nat, p: Outcome<Played>) {
    p == PlayPGCPost(d, o, last.(cellN := cells + 1), fuel)
  }

  /** Leaving a cell goes on behind its block, or to the post phase behind the last one. */
  lemma LeaveCell(d: Disc, o: Oracle, s: State, pgc: Pgc, angle: u16, c: int, fuel: nat)
    requires Plays(d, s, pgc, angle) && Head(pgc.cells, c) && c <= s.cellN < SkipBlock(pgc.cells, c + 1)
    ensures var e := SkipBlock(pgc.cells, c + 1);
      && NextCell(pgc, s.cellN) == Ok(e)
      && (e > |pgc.cells| ==> PlayCellPost(d, o, s, fuel) == PlayPGCPost(d, o, s.(cellN := |pgc.cells| + 1), fuel))
      && (e <= |pgc.cells| ==>
            && Head(pgc.cells, e)
            && exists s': State :: ArrivesBy(d, o, s, s', pgc, angle, e, fuel))
  {
    hide SetPGN, PlayCell, PlayPGCPost, EntriesInRange, AngleExists, BlockStart;
    NextIsBehindBlock(pgc, c, s.cellN);
    assert pgc.cells[s.cellN - 1] in pgc.cells;
    var e := SkipBlock(pgc.cells, c + 1);
    assert Eval([], s.registers, o, s.tick) == FallsThrough(s.registers, s.tick);
    assert WithRegisters(s, s.registers, s.tick) == s;
    SetPGNSteady(d, s.(cellN := e));
    if e <= |pgc.cells| {
      assert ArrivesBy(d, o, s, SetPGN(d, s.(cellN := e)).value.1, pgc, angle, e, fuel);
    }
  }

  /** A walk along a chain: the cells played, the state in the last one, and the outcome
      with which play_Cell_post leaves it. */
  datatype Walk = Walk(cells: seq<int>, last: State, outcome: Outcome<Played>)

  /** The cells play_Cell_post walks through from a playing state, while it
      stays in the chain. */
  function Visits(d: Disc, o: Oracle, s: State, fuel: nat, cells: nat): Walk
    decreases cells - s.cellN
  {
    var p := PlayCellPost(d, o, s, fuel);
    var pgc := PgcOf(d, s.pgc);
    if pgc.Ok? && 1 <= s.cellN <= |pgc.value.cells| == cells
       && NextCell(pgc.value, s.cellN).Ok? && NextCell(pgc.value, s.cellN).value <= cells
       && p.Ok? && p.value.state.cellN > s.cellN then
      var rest := Visits(d, o, p.value.state, fuel, cells);
      rest.(cells := [s.cellN] + rest.cells)
    else
      Walk([s.cellN], s, p)
  }

  lemma {:induction false} VisitsFrom(d: Disc, o: Oracle, s: State, pgc: Pgc, angle: u16, c: int, fuel: nat)
    requires Plays(d, s, pgc, angle) && Head(pgc.cells, c)
    requires s.cellN == if pgc.cells[c - 1].mode == 0 then c else c + angle - 1
    ensures var walk := Visits(d, o, s, fuel, |pgc.cells|);
      && walk.cells == SelectedFrom(pgc.cells, angle, c)
      && walk.last.pgc == s.pgc && walk.last.cellN == walk.cells[|walk.cells| - 1]
      && EntersPost(d, o, walk.last, |pgc.cells|, fuel, walk.outcome)
    decreases |pgc.cells| - c
  {
    hide PlayCell, PlayPGCPost, PlayCellPost, Plays, PgcOf, BlocksWellFormed, AngleExists, NextCell;
    PlaysMeans(d, s, pgc, angle);
    var e := SkipBlock(pgc.cells, c + 1);
    SelectedInBlock(pgc.cells, angle, c, c);
    LeaveCell(d, o, s, pgc, angle, c, fuel);
    if e <= |pgc.cells| {
      var s': State :| ArrivesBy(d, o, s, s', pgc, angle, e, fuel);
      ArriveAt(d, o, s', pgc, angle, fuel);
      var next := PlayCell(d, o, s', fuel).value.state;
      VisitsFrom(d, o, next, pgc, angle, e, fuel);
    }
  }

  lemma PlaysMeans(d: Disc, s: State, pgc: Pgc, angle: u16)
    requires Plays(d, s, pgc, angle)
    ensures PgcOf(d, s.pgc) == Ok(pgc) && BlocksWellFormed(pgc.cells) && AngleExists(pgc.cells, angle)
  {
  }

  /** Playing a chain from its first cell visits exactly the plain cells and
      the selected cell of each angle block, in order, and then enters the
      chain's post phase from the state of the last of them. */
  lemma AngleTraversal(d: Disc, o: Oracle, s: State, pgc: Pgc, angle: u16, fuel: nat)
    requires Plays(d, s, pgc, angle) && s.cellN == 1 <= |pgc.cells|
    ensures var p := PlayCell(d, o, s, fuel);
      && p.Ok? && p.value.link == PLAY_THIS
      && var walk := Visits(d, o, p.value.state, fuel, |pgc.cells|);
      && walk.cells == SelectedFrom(pgc.cells, angle, 1)
      && walk.last.pgc == s.pgc && walk.last.cellN == walk.cells[|walk.cells| - 1]
      && EntersPost(d, o, walk.last, |pgc.cells|, fuel, walk.outcome)
  {
    hide PlayCell, PlayPGCPost, Visits;
    ArriveAt(d, o, s, pgc, angle, fuel);
    VisitsFrom(d, o, PlayCell(d, o, s, fuel).value.state, pgc, angle, 1, fuel);
  }

  /** SelectedFrom is the filter: exactly the selected cells, each once, in order. */
  lemma {:induction false} SelectedIsFilter(cells: seq<Cell>, angle: u16, c: int, k: int)
    requires BlocksWellFormed(cells) && 1 <= c && 1 <= k <= |cells|
    ensures k in SelectedFrom(cells, angle, c) <==> c <= k && Selected(cells, angle, k)
    decreases |cells| - c
  {
    hide Selected;
    if c <= |cells| {
      SelectedIsFilter(cells, angle, c + 1, k);
    }
  }

  predicate AscendsFrom(l: seq<int>, c: int) {
    (forall i | 0 <= i < |l| :: l[i] >= c) && (forall i, j | 0 <= i < j < |l| :: l[i] < l[j])
  }

  lemma {:induction false} SelectedAscends(cells: seq<Cell>, angle: u16, c: int)
    requires BlocksWellFormed(cells) && 1 <= c
    ensures AscendsFrom(SelectedFrom(cells, angle, c), c)
    decreases |cells| - c
  {
    if c <= |cells| {
      SelectedAscends(cells, angle, c + 1);
      AscendsPrefixed(SelectedFrom(cells, angle, c + 1), c);
      assert SelectedFrom(cells, angle, c) == (if Selected(cells, angle, c) then [c] else []) + SelectedFrom(cells, angle, c + 1);
    }
  }

  lemma AscendsPrefixed(l: seq<int>, c: int)
    requires AscendsFrom(l, c + 1)
    ensures AscendsFrom([] + l, c) && AscendsFrom([c] + l, c)
  {
  }

  // Jumping to a part

  /** What a part jump needs of the tables: the pair of the title is first in the
      title table, no other title of the set has a part in the same chain, and
      the title's earlier parts in that chain name earlier programs. */
  predicate PartUnambiguous(d: Disc, title: int, part: int)
    requires Consistent(d) && Legal(d, JumpTitlePart(title, part))
  {
    var t := d.titles[title - 1];
    var titles := TitleSetAt(d, t.vts).titles;
    ConsistentTitle(d, t) &&
    var target := titles[t.vtsTitle - 1][part - 1];
    && GetTT(d.titles, t.vts, t.vtsTitle) == title
    && (forall u, p | 0 <= u < |titles| && u != t.vtsTitle - 1 && 0 <= p < |titles[u]| :: titles[u][p].pgcn != target.pgcn)
    && EarlierPrograms(titles[t.vtsTitle - 1], part - 1, target)
  }

  predicate EarlierPrograms(parts: seq<Part>, part: nat, target: Part)
    requires part < |parts|
  {
    forall p | 0 <= p < part && parts[p].pgcn == target.pgcn :: parts[p].pgn < target.pgn
  }

  /** Programs enter in strictly ascending order, and numbers fit the int16_t the search uses. */
  predicate ProgramsOrdered(p: Pgc) {
    && (forall j, k | 0 <= j < k < |p.programs| :: p.programs[j] < p.programs[k])
    && |p.programs| < 0x8000
  }

  predicate InProgram(p: Pgc, pgn: int, cell: int)
    requires 1 <= pgn <= |p.programs|
  {
    p.programs[pgn - 1] <= cell && (pgn < |p.programs| ==> cell < p.programs[pgn])
  }

  lemma LeadingInProgram(p: Pgc, pgn: int, cell: int)
    requires ProgramsOrdered(p) && 1 <= pgn <= |p.programs| && InProgram(p, pgn, cell)
    ensures LeadingPrograms(p.programs, cell) == pgn
  {
  }

  lemma {:induction false} FindPartHits(parts: seq<Part>, j: nat, part: nat, pgcn: int, pgn: int)
    requires j <= part < |parts| && parts[part].pgcn == pgcn && parts[part].pgn == pgn
    requires forall p | 0 <= p < part && parts[p].pgcn == pgcn :: parts[p].pgn < pgn
    ensures FindPart(parts, j, pgcn, pgn) == part + 1
    decreases part - j
  {
    if j < part {
      FindPartHits(parts, j + 1, part, pgcn, pgn);
    }
  }

  lemma {:induction false} FindPartMisses(parts: seq<Part>, j: nat, pgcn: int, pgn: int)
    requires forall p | 0 <= p < |parts| :: parts[p].pgcn != pgcn
    ensures FindPart(parts, j, pgcn, pgn) == 0
    decreases |parts| - j
  {
    if j < |parts| {
      FindPartMisses(parts, j + 1, pgcn, pgn);
    }
  }

  lemma {:induction false} FindTitleHits(titles: seq<seq<Part>>, u: nat, t: nat, part: nat, pgcn: int, pgn: int)
    requires u <= t < |titles| && part < |titles[t]|
    requires titles[t][part].pgcn == pgcn && titles[t][part].pgn == pgn
    requires forall p | 0 <= p < part && titles[t][p].pgcn == pgcn :: titles[t][p].pgn < pgn
    requires forall v, p | 0 <= v < |titles| && v != t && 0 <= p < |titles[v]| :: titles[v][p].pgcn != pgcn
    ensures FindTitlePart(titles, u, pgcn, pgn) == (t + 1, part + 1)
    decreases t - u
  {
    if u == t {
      FindPartHits(titles[t], 0, part, pgcn, pgn);
    } else {
      FindPartMisses(titles[u], 0, pgcn, pgn);
      FindTitleHits(titles, u + 1, t, part, pgcn, pgn);
    }
  }

  /** The table entry a part names. */
  function TargetOf(d: Disc, title: int, part: int): Part
    requires Consistent(d) && Legal(d, JumpTitlePart(title, part))
  {
    var t := d.titles[title - 1];
    assert ConsistentTitle(d, t) by { assert t in d.titles; }
    TitleSetAt(d, t.vts).titles[t.vtsTitle - 1][part - 1]
  }

  /** The state stands at the part's chain and program. */
  predicate AtPart(d: Disc, s: State, title: int, part: int)
    requires Consistent(d) && Legal(d, JumpTitlePart(title, part))
  {
    var vts, target := d.titles[title - 1].vts, TargetOf(d, title, part);
    && s.domain == VtsTitle && s.vtsi == vts && s.vtsN == vts
    && s.pgc == TableEntry(TitleTable(vts), target.pgcn) && s.pgcN == target.pgcn && s.pgN == target.pgn
  }

  /** At the part's chain and program, the query names the part. */
  lemma QueryFinds(d: Disc, s: State, title: int, part: int)
    requires Consistent(d) && Legal(d, JumpTitlePart(title, part)) && PartUnambiguous(d, title, part)
    requires AtPart(d, s, title, part)
    requires var target := TargetOf(d, title, part); target.pgcn < 0x8000 && target.pgn < 0x8000
    ensures CurrentTitlePart(d, s) == Ok(Some((title as nat, part as nat)))
  {
    hide GetTT;
    var t := d.titles[title - 1];
    var set_ := TitleSetAt(d, t.vts);
    assert set_ in d.titleSets;
    var target := TargetOf(d, title, part);
    FindTitleHits(set_.titles, 0, t.vtsTitle - 1, part - 1, target.pgcn, target.pgn);
  }

  lemma SetPTTReaches(d: Disc, s: State, title: int, part: int)
    requires Consistent(d) && Inv(d, s) && !s.stopped && Legal(d, JumpTitlePart(title, part))
    ensures var r := SetPTT(d, s, title, part); r.Ok? ==> r.value.0 && AtPart(d, r.value.1, title, part)
  {
    hide GetTT;
    SetPTTFinds(d, s, title, part);
    var t := d.titles[title - 1];
    assert ConsistentTitle(d, t) by { assert t in d.titles; }
    OpenVtsiOpens(d, s.(domain := VtsTitle), t.vts);
  }

  /** The pre-commands change registers only. */
  predicate AfterPre(s: State, s': State) {
    SameFrame(s, s') && s'.pgc == s.pgc && s'.pgcN == s.pgcN && s'.pgN == s.pgN
  }

  lemma PlayProgram(d: Disc, o: Oracle, s: State, pgc: Pgc, fuel: nat)
    requires PgcOf(d, s.pgc) == Ok(pgc) && 1 <= s.pgN <= |pgc.programs| && EntriesInRange(pgc)
    ensures var p := PlayPG(d, o, s, fuel);
      p.Ok? ==>
        && p.value.link == PLAY_THIS
        && AngleCell(pgc, pgc.programs[s.pgN - 1], Reg(s, AGL_REG)) == Ok(p.value.state.cellN)
        && var r := SetPGN(d, s.(cellN := p.value.state.cellN));
        && r.Ok? && r.value.0
        && p.value.state == r.value.1.(cellRestart := s.cellRestart + 1, blockN := 0)
  {
    hide SetPGN;
    var e := pgc.programs[s.pgN - 1];
    var c := AngleCell(pgc, e, Reg(s, AGL_REG));
    assert PlayPG(d, o, s, fuel) == PlayCell(d, o, s.(cellN := e), fuel);
    if c.Ok? {
      SetPGNKeeps(d, s.(cellN := c.value));
    }
  }

  lemma PlayRegardlessPlays(d: Disc, o: Oracle, s: State, pgc: Pgc, fuel: nat)
    requires Consistent(d)
    requires PgcOf(d, s.pgc) == Ok(pgc) && 1 <= s.pgN <= |pgc.programs| && EntriesInRange(pgc)
    ensures var b := PlayRegardless(d, o, s, fuel);
      b.Ok? ==> exists s': State :: AfterPre(s, s') && b == Hopping(PlayPG(d, o, s', fuel), Nothing)
  {
    hide PlayPG, Eval, EntriesInRange;
    var s1 := s.(cellN := 0, blockN := 0);
    EvalKeeps(d, o, s1, pgc.pre);
    var r := Eval(pgc.pre, s1.registers, o, s1.tick);
    if !r.Aborts? {
      var s2 := WithRegisters(s1, r.registers, r.tick);
      PlayProgram(d, o, s2, pgc, fuel);
      assert AfterPre(s, s2);
    }
  }

  lemma AtPartMoves(d: Disc, s: State, s': State, title: int, part: int)
    requires Consistent(d) && Legal(d, JumpTitlePart(title, part)) && AtPart(d, s, title, part)
    requires s'.domain == s.domain && s'.vtsi == s.vtsi && s'.vtsN == s.vtsN
    requires s'.pgc == s.pgc && s'.pgcN == s.pgcN && s'.pgN == s.pgN
    ensures AtPart(d, s', title, part)
  {
  }

  /** With this angle the program's entry plays a cell of the program. */
  predicate AngleStays(pgc: Pgc, pgn: int, angle: u16)
    requires 1 <= pgn <= |pgc.programs| && 1 <= pgc.programs[pgn - 1] <= |pgc.cells|
  {
    var c := AngleCell(pgc, pgc.programs[pgn - 1], angle);
    c.Ok? ==> InProgram(pgc, pgn, c.value)
  }

  ghost predicate AnglesStay(pgc: Pgc, pgn: int) {
    && 1 <= pgn <= |pgc.programs| && 1 <= pgc.programs[pgn - 1] <= |pgc.cells|
    && forall angle: u16 :: AngleStays(pgc, pgn, angle)
  }

  /** A plain entry cell is played whatever the angle. */
  lemma PlainEntryStays(pgc: Pgc, pgn: int)
    requires 1 <= pgn <= |pgc.programs| && EntriesInRange(pgc) && ProgramsOrdered(pgc)
    requires pgc.cells[pgc.programs[pgn - 1] - 1].mode != 1
    ensures AnglesStay(pgc, pgn)
  {
  }

  /** The player is in the part, and the query says so. */
  predicate Reached(d: Disc, s: State, title: int, part: int)
    requires Consistent(d) && Legal(d, JumpTitlePart(title, part))
  {
    && AtPart(d, s, title, part) && Reg(s, PTTN_REG) as int == part % TWO16
    && CurrentTitlePart(d, s) == Ok(Some((title as nat, part as nat)))
  }

  /** From the part's program, playing lands in the part. */
  lemma PlayPartProgram(d: Disc, o: Oracle, s: State, pgc: Pgc, title: int, part: int, fuel: nat)
    requires Consistent(d) && Legal(d, JumpTitlePart(title, part)) && PartUnambiguous(d, title, part)
    requires AtPart(d, s, title, part) && TargetOf(d, title, part).pgcn < 0x8000 && Reg(s, TTN_REG) as int <= |d.titles|
    requires PgcOf(d, s.pgc) == Ok(pgc) && EntriesInRange(pgc) && ProgramsOrdered(pgc) && AnglesStay(pgc, s.pgN)
    ensures var p := PlayPG(d, o, s, fuel);
      p.Ok? ==> p.value.link == PLAY_THIS && p.value.state.blockN == 0 && Reached(d, p.value.state, title, part)
  {
    hide PartUnambiguous, CurrentTitlePart, PlayPG, TargetOf, AngleCell;
    PlayProgram(d, o, s, pgc, fuel);
    var p := PlayPG(d, o, s, fuel);
    if p.Ok? {
      assert AngleStays(pgc, s.pgN, Reg(s, AGL_REG));
      LeadingInProgram(pgc, s.pgN, p.value.state.cellN);
      AtPartMoves(d, s, s.(cellN := p.value.state.cellN), title, part);
      QueryFinds(d, s.(cellN := p.value.state.cellN), title, part);
      assert s.(cellN := p.value.state.cellN).(pgN := s.pgN) == s.(cellN := p.value.state.cellN);
      AtPartMoves(d, s, p.value.state, title, part);
      QueryFinds(d, p.value.state, title, part);
    }
  }

  lemma JumpPlays(d: Disc, o: Oracle, s: State, pgc: Pgc, title: int, part: int, fuel: nat)
    requires Consistent(d) && Inv(d, s) && !s.stopped
    requires Legal(d, JumpTitlePart(title, part)) && PartUnambiguous(d, title, part)
    requires var target := TargetOf(d, title, part);
      && PgcOf(d, TableEntry(TitleTable(d.titles[title - 1].vts), target.pgcn)) == Ok(pgc)
      && AnglesStay(pgc, target.pgn) && target.pgcn < 0x8000
    requires ProgramsOrdered(pgc) && EntriesInRange(pgc)
    ensures var b := Begin(d, o, s, JumpTitlePart(title, part), fuel);
      b.Ok? ==>
        && b.value.Hop? && b.value.link == PLAY_THIS && b.value.after == Nothing
        && b.value.state.blockN == 0 && Reached(d, b.value.state, title, part)
  {
    hide PartUnambiguous, SetPTT, PlayPG, PlayRegardless, Placed, TargetOf, CurrentTitlePart, EntriesInRange,
      ProgramsOrdered, AngleCell;
    SetPTTReaches(d, s, title, part);
    var r := SetPTT(d, s, title, part);
    if r.Ok? {
      var s1 := r.value.1;
      assert Bounded(d, s1) by {
        hide Bounded;
        PartBounded(d, s, title, part);
      }
      PlayRegardlessPlays(d, o, s1, pgc, fuel);
      var b := PlayRegardless(d, o, s1, fuel);
      if b.Ok? {
        var s2: State :| AfterPre(s1, s2) && b == Hopping(PlayPG(d, o, s2, fuel), Nothing);
        PlayPartProgram(d, o, s2, pgc, title, part, fuel);
      }
    }
  }

  /** vm_jump_title_part from beginning to end, then ask: the call answers 1, the player is
      in part `part` of title `title`, PTTN_REG says so, and vm_get_current_title_part
      returns it, whether or not the chain's pre-commands tried to jump elsewhere. */
  lemma JumpThenQuery(d: Disc, o: Oracle, s: State, pgc: Pgc, title: int, part: int, turns: nat, fuel: nat)
    requires Consistent(d) && Inv(d, s) && !s.stopped
    requires Legal(d, JumpTitlePart(title, part)) && PartUnambiguous(d, title, part)
    requires var target := TargetOf(d, title, part);
      && PgcOf(d, TableEntry(TitleTable(d.titles[title - 1].vts), target.pgcn)) == Ok(pgc)
      && AnglesStay(pgc, target.pgn) && target.pgcn < 0x8000
    requires ProgramsOrdered(pgc) && EntriesInRange(pgc)
    ensures var r := Perform(d, o, s, JumpTitlePart(title, part), turns, fuel);
      r.Ok? ==> r.value.0 && Reached(d, r.value.1, title, part)
  {
    hide Begin, Reached, PartUnambiguous, TargetOf, AnglesStay, Process;
    JumpPlays(d, o, s, pgc, title, part, fuel);
    var b := Begin(d, o, s, JumpTitlePart(title, part), fuel);
    if b.Ok? {
      PlayThisJoins(d, o, b.value.state, PLAY_THIS, fuel, 0);
      assert b.value.state.(blockN := 0) == b.value.state;
    }
  }

  lemma PartBounded(d: Disc, s: State, title: int, part: int)
    requires Consistent(d) && Bounded(d, s) && 1 <= title <= |d.titles|
    ensures var r := SetPTT(d, s, title, part); r.Ok? ==> Bounded(d, r.value.1)
  {
    hide SetVtsPTT;
    SetVtsPTTPlaces(d, s, d.titles[title - 1].vts, d.titles[title - 1].vtsTitle, part);
  }
}
