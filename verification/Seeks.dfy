/**
 The seeks from end to end: the search for a cell and a block, and the jump of
 the VM, which may lead to another angle than the one asked for.
*/
module Seeks {
  import opened Bits
  import opened Decoder
  import opened CommandLists
  import opened Disc
  import opened Machine
  import opened Navigation
  import opened NavigationLaws
  import opened Positions
  import opened Searching
  import Playback

  // The jump

  /** The end of a seek: the VM jumps, and the hop counter takes a seek's step. */
  function JumpTo(d: Disc, o: Oracle, s: State, seek: Seek, turns: nat, fuel: nat): Outcome<(bool, State)> {
    match seek
    case Refused => Ok((false, s))
    case Hop(cell, block) =>
      var (_, s') :- Perform(d, o, s, JumpCellBlock(cell, block), turns, fuel);
      Ok((true, s'.(hopChannel := s'.hopChannel + HOP_SEEK)))
  }

  /** dvdnav_sector_search: whether it succeeds, and the state of the VM after it. */
  function SeekSector(d: Disc, o: Oracle, p: Searching.Player, offset: int, origin: Origin, turns: nat, fuel: nat)
    : Outcome<(bool, State)>
  {
    var seek :- SectorSearch(d, p, offset, origin);
    JumpTo(d, o, p.state, seek, turns, fuel)
  }

  /** dvdnav_time_search. */
  function SeekTime(d: Disc, o: Oracle, p: Searching.Player, time: nat, turns: nat, fuel: nat): Outcome<(bool, State)> {
    var seek :- TimeSearch(d, p, time);
    JumpTo(d, o, p.state, seek, turns, fuel)
  }

  /** The cell and block at which a jump to (cell, block) ends. */
  predicate EndsAt(pgc: Pgc, angle: u16, cell: int, block: int, s: State)
    requires 1 <= cell <= |pgc.cells|
  {
    AngleCell(pgc, cell, angle) == Ok(s.cellN) && s.blockN == if s.cellN == cell then block else 0
  }

  /** A jump ends in the cell the angle selects: at the block if that is the cell asked
      for, and else at its start. */
  lemma JumpEnds(d: Disc, o: Oracle, s: State, pgc: Pgc, cell: nat, block: int, turns: nat, fuel: nat)
    requires PgcOf(d, s.pgc) == Ok(pgc) && 1 <= cell <= |pgc.cells|
    ensures var r := JumpTo(d, o, s, Seek.Hop(cell, block), turns, fuel);
            r.Ok? ==>
              && r.value.0 && r.value.1.hopChannel == s.hopChannel + HOP_SEEK
              && Replayed(s, r.value.1.(hopChannel := s.hopChannel))
              && EndsAt(pgc, Reg(s, AGL_REG), cell, block, r.value.1)
  {
    hide Begin, Process, Finally, AngleCell;
    if Begin(d, o, s, JumpCellBlock(cell, block), fuel).Ok? {
      HopPlays(d, o, s, pgc, cell, block, fuel);
    }
  }

  /** On every state the player reaches the jump succeeds exactly when the cell's block mode
      and type allow it to be played. */
  lemma JumpSucceeds(d: Disc, o: Oracle, s: State, pgc: Pgc, cell: nat, block: int, turns: nat, fuel: nat)
    requires Consistent(d) && Inv(d, s) && !s.stopped && turns > 0
    requires PgcOf(d, s.pgc) == Ok(pgc) && 1 <= cell <= |pgc.cells|
    ensures JumpTo(d, o, s, Seek.Hop(cell, block), turns, fuel).Ok? <==> AngleCell(pgc, cell, Reg(s, AGL_REG)).Ok?
  {
    hide Process, Finally, AngleCell, PlayCell, Inv;
    var moved := s.(cellN := cell);
    assert Inv(d, moved) by {
      MovedInv(d, s, cell);
    }
    Playback.PlayCellAssertsNothing(d, o, moved, pgc, fuel);
    if PlayCell(d, o, moved, fuel).Ok? {
      HopPlays(d, o, s, pgc, cell, block, fuel);
    }
  }

  lemma MovedInv(d: Disc, s: State, cell: nat)
    requires Inv(d, s)
    ensures Inv(d, s.(cellN := cell))
  {
    hide Saved, InTable;
    PlacedSame(d, s, s.(cellN := cell));
  }

  lemma AngleCellAhead(pgc: Pgc, c: int, angle: u16)
    requires 1 <= c <= |pgc.cells| && angle >= 1
    ensures AngleCell(pgc, c, angle).Ok? ==> AngleCell(pgc, c, angle).value >= c
  {
  }

  // Sector seeks

  /** On a playing position the search is the seek to the target its origin gives. */
  lemma SearchIs(d: Disc, p: Searching.Player, pgc: Pgc, from: int, last: int, admap: seq<nat>, offset: int, origin: Origin)
    requires Playing(d, p, pgc, from, last, admap)
    ensures var pos, len := Number(pgc.cells, from, p.state.cellN, CurrentSector(p.vobu)), Before(pgc.cells, from, last + 1);
            && pos >= 0 && len >= 0
            && var target := SeekTarget(offset, origin, pos, len);
            SectorSearch(d, p, offset, origin) ==
            if target.None? then Ok(Refused) else SeekTo(d, p, target.value, target.value > pos)
  {
    hide GetPosition, SeekTo, Before, SeekTarget;
    PositionReported(d, p, pgc, from, last, admap);
  }

  /** The forward rule passes over the sector: it lies ahead in the VOBU being played, and another follows. */
  ghost predicate PassedOver(p: Searching.Player, admap: seq<nat>, n: int, sector: nat) {
    n == p.state.cellN && Scanned(admap, sector, false) <= CurrentSector(p.vobu) < sector && SomeAbove(admap, sector)
  }

  /** What a seek to a sector of cell n asks for: the VOBU that holds it; or, if that is
      passed over, the next VOBU of the cell, or else the start of the next cell. */
  ghost function Asks(p: Searching.Player, cells: seq<Cell>, admap: seq<nat>, n: int, last: int, sector: nat): Seek
    requires 1 <= n <= |cells|
  {
    var v, next, first := Scanned(admap, sector, false), Scanned(admap, sector, true), cells[n - 1].first;
    if !PassedOver(p, admap, n, sector) then Seek.Hop(n, v - first)
    else if next <= cells[n - 1].last then Seek.Hop(n, next - first)
    else if n == last then Refused
    else Seek.Hop(n + 1, 0)
  }

  /** The target of the seek is the sector, which is in play in cell n. */
  predicate Targets(p: Searching.Player, pgc: Pgc, from: int, last: int, offset: int, origin: Origin, n: int, sector: nat)
    requires 1 <= p.state.cellN <= |pgc.cells|
  {
    && InPlay(pgc.cells, from, last, n, sector)
    && var pos, len := Number(pgc.cells, from, p.state.cellN, CurrentSector(p.vobu)), Before(pgc.cells, from, last + 1);
    && pos >= 0 && len >= 0
    && var target := SeekTarget(offset, origin, pos, len);
    && target.Some? && target.value == Number(pgc.cells, from, n, sector)
  }

  /** A seek to a sector in play asks for what the address map holds there. */
  lemma SearchAsks(d: Disc, p: Searching.Player, pgc: Pgc, from: int, last: int, admap: seq<nat>,
                   offset: int, origin: Origin, n: int, sector: nat)
    requires Playing(d, p, pgc, from, last, admap) && Targets(p, pgc, from, last, offset, origin, n, sector)
    ensures var v := Scanned(admap, sector, false);
            && SectorSearch(d, p, offset, origin) == Ok(Asks(p, pgc.cells, admap, n, last, sector))
            && GreatestUpTo(admap, v, sector) && pgc.cells[n - 1].first <= v
            && (PassedOver(p, admap, n, sector) ==> LeastAbove(admap, Scanned(admap, sector, true), sector))
  {
    hide Before, Scanned, SectorSearch, SeekTo, ForwardHop, CurrentSector, SeekTarget, CellOf;
    var cells, cur, target := pgc.cells, CurrentSector(p.vobu), Number(pgc.cells, from, n, sector);
    SearchIs(d, p, pgc, from, last, admap, offset, origin);
    NumberBelow(cells, from, last, n, sector);
    NumberLocated(cells, from, last, n, sector);
    SeekLands(d, p, pgc, from, last, admap, target, target > Number(cells, from, p.state.cellN, cur));
    if n == p.state.cellN && cur < sector {
      ForwardSeekIs(d, p, pgc, from, last, admap, target);
      ForwardHopIs(cells, admap, n, last, sector, cur);
    }
  }

  /** A seek to a sector in play, jump and all: it is refused exactly when the sector is
      passed over in the last cell with no VOBU of that cell left; otherwise the VM ends
      where the angle leads from what the seek asks for. */
  lemma SeekStands(d: Disc, o: Oracle, p: Searching.Player, pgc: Pgc, from: int, last: int, admap: seq<nat>,
                   offset: int, origin: Origin, n: int, sector: nat, turns: nat, fuel: nat)
    requires Playing(d, p, pgc, from, last, admap) && Targets(p, pgc, from, last, offset, origin, n, sector)
    ensures var r, asks := SeekSector(d, o, p, offset, origin, turns, fuel), Asks(p, pgc.cells, admap, n, last, sector);
            r.Ok? ==>
              && (r.value.0 <==> asks.Hop?)
              && (r.value.0 ==>
                   && n <= asks.cell <= n + 1 && 1 <= asks.cell <= |pgc.cells|
                   && EndsAt(pgc, Reg(p.state, AGL_REG), asks.cell, asks.block, r.value.1)
                   && r.value.1.hopChannel == p.state.hopChannel + HOP_SEEK
                   && Replayed(p.state, r.value.1.(hopChannel := p.state.hopChannel)))
  {
    hide Before, Scanned, SectorSearch, Perform, AngleCell, CurrentSector, SeekTarget, PassedOver, Replayed;
    SearchAsks(d, p, pgc, from, last, admap, offset, origin, n, sector);
    var asks := Asks(p, pgc.cells, admap, n, last, sector);
    if asks.Hop? {
      JumpEnds(d, o, p.state, pgc, asks.cell, asks.block, turns, fuel);
    }
  }

  /** SEEK_SET to the number of a sector in play, jump and all, leaves the VM in its cell at
      the VOBU that holds it exactly when that VOBU is not passed over and the selected angle
      plays that very cell; or, with angle 0, when it is passed over for the next cell, from
      which that angle leads back to the start of this one, and the VOBU is the one there. */
  lemma SeekSetArrives(d: Disc, o: Oracle, p: Searching.Player, pgc: Pgc, from: int, last: int, admap: seq<nat>,
                       n: int, sector: nat, turns: nat, fuel: nat)
    requires Playing(d, p, pgc, from, last, admap) && InPlay(pgc.cells, from, last, n, sector)
    ensures var v, angle := Scanned(admap, sector, false), Reg(p.state, AGL_REG);
            var r := SeekSector(d, o, p, Number(pgc.cells, from, n, sector), SeekSet, turns, fuel);
            && GreatestUpTo(admap, v, sector)
            && (r.Ok? ==>
                 (r.value.0 && r.value.1.cellN == n && r.value.1.blockN == v - pgc.cells[n - 1].first <==>
                  || (!PassedOver(p, admap, n, sector) && AngleCell(pgc, n, angle) == Ok(n))
                  || LedBack(pgc, angle, p, admap, n, last, sector, v)))
  {
    hide Before, Scanned, SeekSector, AngleCell, CurrentSector, PassedOver, Replayed;
    SetTargets(d, p, pgc, from, last, admap, n, sector);
    SearchAsks(d, p, pgc, from, last, admap, Number(pgc.cells, from, n, sector), SeekSet, n, sector);
    SeekStands(d, o, p, pgc, from, last, admap, Number(pgc.cells, from, n, sector), SeekSet, n, sector, turns, fuel);
  }

  /** With angle 0 the way to the cell after n leads back to n, where the VOBU starts. */
  ghost predicate LedBack(pgc: Pgc, angle: u16, p: Searching.Player, admap: seq<nat>, n: int, last: int, sector: nat,
                          vobu: int)
    requires 1 <= n <= |pgc.cells|
  {
    && PassedOver(p, admap, n, sector) && Scanned(admap, sector, true) > pgc.cells[n - 1].last
    && n < last <= |pgc.cells| && AngleCell(pgc, n + 1, angle) == Ok(n) && vobu == pgc.cells[n - 1].first
  }

  lemma OnlyAngleZero(pgc: Pgc, angle: u16, p: Searching.Player, admap: seq<nat>, n: int, last: int, sector: nat, vobu: int)
    requires 1 <= n <= |pgc.cells| && LedBack(pgc, angle, p, admap, n, last, sector, vobu)
    ensures angle == 0
  {
    hide PassedOver, Scanned;
    if angle >= 1 {
      AngleCellAhead(pgc, n + 1, angle);
    }
  }

  lemma SetTargets(d: Disc, p: Searching.Player, pgc: Pgc, from: int, last: int, admap: seq<nat>, n: int, sector: nat)
    requires Playing(d, p, pgc, from, last, admap) && InPlay(pgc.cells, from, last, n, sector)
    ensures Targets(p, pgc, from, last, Number(pgc.cells, from, n, sector), SeekSet, n, sector)
  {
    hide Before, CurrentSector;
    NumberBelow(pgc.cells, from, last, n, sector);
    NumberBelow(pgc.cells, from, last, p.state.cellN, CurrentSector(p.vobu));
  }

  // Forward seeks

  /** Some VOBU of the cell starts after the sector. */
  ghost predicate Left(admap: seq<nat>, cell: Cell, sector: nat) {
    exists u :: u in admap && sector < u <= cell.last
  }

  /** The (cell, block) lies ahead of the sector of cell n: at a later VOBU of the cell, or,
      when the map goes on but the cell has none left, at the start of the cell after it, in
      the angle selected there. */
  ghost predicate LiesAhead(pgc: Pgc, angle: u16, admap: seq<nat>, n: int, sector: nat, cell: int, block: int)
    requires 1 <= n <= |pgc.cells|
  {
    if Left(admap, pgc.cells[n - 1], sector) then
      var start := block + pgc.cells[n - 1].first;
      cell == n && start in admap && sector < start <= pgc.cells[n - 1].last
    else
      && SomeAbove(admap, sector) && n < |pgc.cells|
      && cell > n && block == 0 && AngleCell(pgc, n + 1, angle) == Ok(cell)
  }

  /** What a forward seek within cell n needs to lie ahead: a later VOBU, in a cell that the
      selected angle does not lead away from. */
  ghost predicate WayAhead(pgc: Pgc, angle: u16, admap: seq<nat>, n: int, sector: nat)
    requires 1 <= n <= |pgc.cells|
  {
    if Left(admap, pgc.cells[n - 1], sector) then AngleCell(pgc, n, angle) == Ok(n)
    else
      && SomeAbove(admap, sector) && n < |pgc.cells|
      && AngleCell(pgc, n + 1, angle).Ok? && AngleCell(pgc, n + 1, angle).value > n
  }

  /** What a forward seek within the current cell asks for, by what the address map holds
      after the current sector. */
  lemma ForwardAsks(p: Searching.Player, cells: seq<Cell>, admap: seq<nat>, n: nat, last: int, sector: nat)
    requires 1 <= n <= |cells| && n <= last <= |cells| && n == p.state.cellN && Sorted(admap)
    requires cells[n - 1].first in admap && cells[n - 1].first <= CurrentSector(p.vobu) < sector <= cells[n - 1].last
    ensures var r, first, cur := Asks(p, cells, admap, n, last, sector), cells[n - 1].first, CurrentSector(p.vobu);
            if Left(admap, cells[n - 1], cur) then
              r.Hop? && r.cell == n && r.block + first in admap && cur < r.block + first <= cells[n - 1].last
            else if !SomeAbove(admap, cur) then r.Hop? && r.cell == n && r.block + first <= cur
            else r == if n == last then Refused else Seek.Hop(n + 1, 0)
  {
    hide Scanned, CurrentSector;
    ScanFinds(admap, sector);
  }

  /** A forward seek within the current cell, jump and all, leaves the VM ahead of the
      current sector exactly when the map and the selected angle leave a way ahead; it is
      refused exactly in the last cell, with VOBUs only in cells behind it. */
  lemma ForwardSeekEnds(d: Disc, o: Oracle, p: Searching.Player, pgc: Pgc, from: int, last: int, admap: seq<nat>,
                        offset: int, origin: Origin, sector: nat, turns: nat, fuel: nat)
    requires Playing(d, p, pgc, from, last, admap)
    requires Targets(p, pgc, from, last, offset, origin, p.state.cellN, sector) && CurrentSector(p.vobu) < sector
    ensures var n, cur, angle := p.state.cellN, CurrentSector(p.vobu), Reg(p.state, AGL_REG);
            var r := SeekSector(d, o, p, offset, origin, turns, fuel);
            r.Ok? ==>
              && (r.value.0 ==>
                   (LiesAhead(pgc, angle, admap, n, cur, r.value.1.cellN, r.value.1.blockN) <==>
                    WayAhead(pgc, angle, admap, n, cur)))
              && (!r.value.0 <==> n == last && !Left(admap, pgc.cells[n - 1], cur) && SomeAbove(admap, cur))
  {
    hide Before, SeekSector, AngleCell, CurrentSector, SeekTarget, Asks, Replayed;
    SeekStands(d, o, p, pgc, from, last, admap, offset, origin, p.state.cellN, sector, turns, fuel);
    ForwardAsks(p, pgc.cells, admap, p.state.cellN, last, sector);
  }

  /** A forward seek within the current cell asks for a cell that no position counts exactly
      when it leaves the cell, and the cell after it belongs to another angle. */
  lemma ForwardSeekUncounted(d: Disc, p: Searching.Player, pgc: Pgc, from: int, last: int, admap: seq<nat>,
                             offset: int, origin: Origin, sector: nat)
    requires Playing(d, p, pgc, from, last, admap)
    requires Targets(p, pgc, from, last, offset, origin, p.state.cellN, sector) && CurrentSector(p.vobu) < sector
    ensures var n, cur, cells := p.state.cellN, CurrentSector(p.vobu), pgc.cells;
            var seek := SectorSearch(d, p, offset, origin);
            && seek.Ok? && (seek.value.Hop? ==> 1 <= seek.value.cell <= |cells|)
            && (seek.value.Hop? && Skipped(cells[seek.value.cell - 1]) <==>
                !Left(admap, cells[n - 1], cur) && SomeAbove(admap, cur) && n < last && Skipped(cells[n]))
  {
    hide Before, SectorSearch, CurrentSector, SeekTarget, Asks;
    SearchAsks(d, p, pgc, from, last, admap, offset, origin, p.state.cellN, sector);
    ForwardAsks(p, pgc.cells, admap, p.state.cellN, last, sector);
  }

  // Time seeks

  /** Cell n, which positions count, is the one that plays at the time. */
  predicate PlaysAt(cells: seq<Cell>, from: int, n: int, time: nat) {
    1 <= n <= |cells| && !Skipped(cells[n - 1]) && TimeBefore(cells, from, n) <= time < TimeBefore(cells, from, n + 1)
  }

  /** The state is at the VOBU of cell n that holds the sector played at the time. */
  ghost predicate HeldAt(cells: seq<Cell>, from: int, n: int, time: nat, admap: seq<nat>, s: State)
    requires 1 <= n <= |cells|
  {
    s.cellN == n && InCell(cells[n - 1], time - TimeBefore(cells, from, n), admap, s.blockN)
  }

  /** A chain in whose cells times can be sought. */
  ghost predicate TimeSeekable(d: Disc, p: Searching.Player, pgc: Pgc, from: int, last: int, admap: seq<nat>) {
    && p.current.still == 0 && !p.state.pgc.NoPgc? && PgcOf(d, p.state.pgc) == Ok(pgc)
    && CellRange(pgc, p.state.pgN, p.pgcBased) == Ok((from, last)) && from <= last
    && Clocked(pgc.cells, from, last) && |pgc.cells| < 256
    && AdmapOf(p.maps, p.state.domain) == Some(admap) && Sorted(admap)
    && (forall n {:trigger pgc.cells[n]} | 0 <= n < |pgc.cells| :: pgc.cells[n].first in admap)
  }

  /** A time seek, jump and all: it fails exactly past the end, and otherwise the VM ends
      where the angle leads from the VOBU that holds the sector played at that time. */
  lemma TimeStands(d: Disc, o: Oracle, p: Searching.Player, pgc: Pgc, from: int, last: int, admap: seq<nat>,
                   time: nat, turns: nat, fuel: nat)
    requires TimeSeekable(d, p, pgc, from, last, admap)
    ensures var r, search := SeekTime(d, o, p, time, turns, fuel), TimeSearch(d, p, time);
            r.Ok? ==>
              && search.Ok? && (r.value.0 <==> search.value.Hop?)
              && (!r.value.0 <==> time >= TimeBefore(pgc.cells, from, last + 1))
              && (r.value.0 ==>
                   var n, block := search.value.cell, search.value.block;
                   && from <= n <= last && 1 <= n <= |pgc.cells| && PlaysAt(pgc.cells, from, n, time)
                   && InCell(pgc.cells[n - 1], time - TimeBefore(pgc.cells, from, n), admap, block)
                   && EndsAt(pgc, Reg(p.state, AGL_REG), n, block, r.value.1)
                   && r.value.1.hopChannel == p.state.hopChannel + HOP_SEEK
                   && Replayed(p.state, r.value.1.(hopChannel := p.state.hopChannel)))
  {
    hide TimeSearch, Perform, AngleCell, TimeBefore, InCell, Replayed;
    TimeSeekLands(d, p, pgc, from, last, admap, time);
    var seek := TimeSearch(d, p, time).value;
    if seek.Hop? {
      JumpEnds(d, o, p.state, pgc, seek.cell, seek.block, turns, fuel);
    }
  }

  /** A time seek, jump and all, fails exactly past the end. It leaves the VM at the VOBU that
      holds the sector played at that time, in the cell that plays it, exactly when the
      selected angle plays that very cell; otherwise at the start of the angle's cell. */
  lemma TimeSeekArrives(d: Disc, o: Oracle, p: Searching.Player, pgc: Pgc, from: int, last: int, admap: seq<nat>,
                        time: nat, turns: nat, fuel: nat)
    requires TimeSeekable(d, p, pgc, from, last, admap)
    ensures var r, angle := SeekTime(d, o, p, time, turns, fuel), Reg(p.state, AGL_REG);
            r.Ok? ==>
              && (!r.value.0 <==> time >= TimeBefore(pgc.cells, from, last + 1))
              && (r.value.0 ==>
                   exists n | from <= n <= last ::
                     && PlaysAt(pgc.cells, from, n, time)
                     && AngleCell(pgc, n, angle) == Ok(r.value.1.cellN)
                     && (r.value.1.cellN != n ==> r.value.1.blockN == 0)
                     && (HeldAt(pgc.cells, from, n, time, admap, r.value.1) <==> AngleCell(pgc, n, angle) == Ok(n)))
  {
    hide SeekTime, AngleCell, TimeBefore, InCell, Replayed, Clocked;
    TimeStands(d, o, p, pgc, from, last, admap, time, turns, fuel);
    var r := SeekTime(d, o, p, time, turns, fuel);
    if r.Ok? && r.value.0 {
      assert PlaysAt(pgc.cells, from, TimeSearch(d, p, time).value.cell, time);
    }
  }

  // Players for which seeks go astray

  /** A disc with one title of one chain and one program. */
  function OneProgram(cells: seq<Cell>, angles: nat): Disc {
    Disc([Title(1, 1, 1, angles)],
         [TitleSet([[Part(1, 1)]], [Entry(0x81, Pgc([1], cells, [], [], [], 0, 0, 0, 0))], None)],
         None, None, 0)
  }

  /** The VM in its first cell, with the angle selected. */
  function InFirstCell(angle: u16): State {
    INITIAL.(registers := INITIAL.registers.(sprm := INITIAL.registers.sprm[TT_PGCN_REG := 1][AGL_REG := angle]),
             domain := VtsTitle, vtsi := 1, vtsN := 1, pgc := TableEntry(TitleTable(1), 1), pgcN := 1, pgN := 1, cellN := 1)
  }

  /** The event pump at block blockN of the VOBU that starts at `start`. */
  function PlayerAt(admap: seq<nat>, start: nat, blockN: nat, angle: u16): Searching.Player {
    Searching.Player(InFirstCell(angle), true, Position(1, 1, VtsTitle, 62, 15, angle, 0, 1, 0, 0, 0, 0),
                     Vobu(start, 5, blockN, 5), true, Admaps(None, None, Some(admap)))
  }

  lemma FirstCellInv(cells: seq<Cell>, angles: nat, angle: u16)
    ensures Consistent(OneProgram(cells, angles)) && Inv(OneProgram(cells, angles), InFirstCell(angle))
    ensures Reg(InFirstCell(angle), AGL_REG) == angle && !InFirstCell(angle).stopped
    ensures PgcOf(OneProgram(cells, angles), InFirstCell(angle).pgc) == Ok(Pgc([1], cells, [], [], [], 0, 0, 0, 0))
  {
  }

  /** Cells in order that start at VOBUs of the map. */
  predicate Mapped(cells: seq<Cell>, admap: seq<nat>) {
    && 0 < |cells| < 256 && Sorted(admap) && Sane(cells, 1, |cells|)
    && (forall k {:trigger cells[k]} | 0 <= k < |cells| :: cells[k].first in admap)
  }

  lemma PlayerIsPlaying(cells: seq<Cell>, angles: nat, admap: seq<nat>, start: nat, blockN: nat, angle: u16)
    requires Mapped(cells, admap) && InPlay(cells, 1, |cells|, 1, start + blockN)
    ensures var pgc := Pgc([1], cells, [], [], [], 0, 0, 0, 0);
            && Playing(OneProgram(cells, angles), PlayerAt(admap, start, blockN, angle), pgc, 1, |cells|, admap)
            && CurrentSector(PlayerAt(admap, start, blockN, angle).vobu) == start + blockN
  {
    FirstCellInv(cells, angles, angle);
  }

  /** SEEK_SET within the first cell asks for what the map holds there. */
  lemma PlayerSeeks(cells: seq<Cell>, angles: nat, admap: seq<nat>, start: nat, blockN: nat, angle: u16, offset: nat)
    requires Mapped(cells, admap) && InPlay(cells, 1, |cells|, 1, start + blockN)
    requires cells[0].first == 0 && InPlay(cells, 1, |cells|, 1, offset)
    ensures var p := PlayerAt(admap, start, blockN, angle);
            && SectorSearch(OneProgram(cells, angles), p, offset, SeekSet) == Ok(Asks(p, cells, admap, 1, |cells|, offset))
            && Targets(p, Pgc([1], cells, [], [], [], 0, 0, 0, 0), 1, |cells|, offset, SeekSet, 1, offset)
            && GreatestUpTo(admap, Scanned(admap, offset, false), offset)
            && (PassedOver(p, admap, 1, offset) ==> LeastAbove(admap, Scanned(admap, offset, true), offset))
  {
    hide Mapped, Playing, SectorSearch, Targets, Asks, CurrentSector, PassedOver, Scanned;
    var pgc := Pgc([1], cells, [], [], [], 0, 0, 0, 0);
    var d, p := OneProgram(cells, angles), PlayerAt(admap, start, blockN, angle);
    PlayerIsPlaying(cells, angles, admap, start, blockN, angle);
    SetTargets(d, p, pgc, 1, |cells|, admap, 1, offset);
    assert Number(cells, 1, 1, offset) == offset;
    SearchAsks(d, p, pgc, 1, |cells|, admap, offset, SeekSet, 1, offset);
  }

  /** A search that asks for a cell the angle plays ends there. */
  lemma PlayerJumps(d: Disc, o: Oracle, p: Searching.Player, cells: seq<Cell>, angles: nat, offset: nat,
                    cell: nat, block: int)
    requires d == OneProgram(cells, angles) && p.state == InFirstCell(Reg(p.state, AGL_REG)) && 1 <= cell <= |cells|
    requires SectorSearch(d, p, offset, SeekSet) == Ok(Seek.Hop(cell, block))
    requires var pgc := Pgc([1], cells, [], [], [], 0, 0, 0, 0); AngleCell(pgc, cell, Reg(p.state, AGL_REG)).Ok?
    ensures var r, pgc := SeekSector(d, o, p, offset, SeekSet, 1, 0), Pgc([1], cells, [], [], [], 0, 0, 0, 0);
            && r.Ok? && r.value.0 && EndsAt(pgc, Reg(p.state, AGL_REG), cell, block, r.value.1)
            && r.value.1.hopChannel == p.state.hopChannel + HOP_SEEK
            && Replayed(p.state, r.value.1.(hopChannel := p.state.hopChannel))
  {
    hide SectorSearch, Perform, AngleCell, Inv, Replayed;
    var pgc := Pgc([1], cells, [], [], [], 0, 0, 0, 0);
    FirstCellInv(cells, angles, Reg(p.state, AGL_REG));
    JumpSucceeds(d, o, p.state, pgc, cell, block, 1, 0);
    JumpEnds(d, o, p.state, pgc, cell, block, 1, 0);
  }

  const ONE_SECOND: BcdTime := BcdTime(0, 0, 1, 0)

  const LONE_CELL: seq<Cell> := [Cell(0, 0, 0, 0, 9, 0, 0, ONE_SECOND)]

  lemma FallsBackAsks()
    ensures var d, p := OneProgram(LONE_CELL, 1), PlayerAt([0], 0, 3, 1);
            && Playing(d, p, PgcOf(d, p.state.pgc).value, 1, 1, [0])
            && SectorSearch(d, p, 7, SeekSet) == Ok(Seek.Hop(1, 0))
  {
    hide SectorSearch, Playing, Scanned;
    assert [0][0] in [0] && Before(LONE_CELL, 1, 2) == 10;
    PlayerIsPlaying(LONE_CELL, 1, [0], 0, 3, 1);
    PlayerSeeks(LONE_CELL, 1, [0], 0, 3, 1, 7);
    FirstCellInv(LONE_CELL, 1, 1);
  }

  /** From sector 3 of a single VOBU, SEEK_SET to 7 succeeds and goes back to sector 0. */
  lemma ForwardFallsBack(o: Oracle)
    ensures var d, p := OneProgram(LONE_CELL, 1), PlayerAt([0], 0, 3, 1);
            && Playing(d, p, PgcOf(d, p.state.pgc).value, 1, 1, [0])
            && SectorSearch(d, p, 7, SeekSet) == Ok(Seek.Hop(1, 0))
            && var r := SeekSector(d, o, p, 7, SeekSet, 1, 0);
            r.Ok? && r.value.0 && r.value.1.cellN == 1 && r.value.1.blockN == 0
  {
    hide SectorSearch, SeekSector, Playing;
    FallsBackAsks();
    PlayerJumps(OneProgram(LONE_CELL, 1), o, PlayerAt([0], 0, 3, 1), LONE_CELL, 1, 7, 1, 0);
  }

  const TWO_ANGLES: seq<Cell> := [Cell(1, 1, 0, 0, 9, 0, 0, ONE_SECOND), Cell(3, 1, 0, 10, 19, 10, 0, ONE_SECOND)]

  lemma OtherAngleAsks()
    ensures var d, p := OneProgram(TWO_ANGLES, 2), PlayerAt([0, 10], 0, 3, 1);
            && Playing(d, p, PgcOf(d, p.state.pgc).value, 1, 2, [0, 10])
            && SectorSearch(d, p, 7, SeekSet) == Ok(Seek.Hop(2, 0))
  {
    hide SectorSearch, Playing, Scanned;
    assert [0, 10][0] in [0, 10] && [0, 10][1] in [0, 10] && Before(TWO_ANGLES, 1, 3) == 10;
    PlayerIsPlaying(TWO_ANGLES, 2, [0, 10], 0, 3, 1);
    PlayerSeeks(TWO_ANGLES, 2, [0, 10], 0, 3, 1, 7);
    FirstCellInv(TWO_ANGLES, 2, 1);
  }

  /** From angle 1, SEEK_SET to 7 succeeds in the cell of angle 2, which no position counts. */
  lemma ForwardEntersOtherAngle(o: Oracle)
    ensures var d, p := OneProgram(TWO_ANGLES, 2), PlayerAt([0, 10], 0, 3, 1);
            && Playing(d, p, PgcOf(d, p.state.pgc).value, 1, 2, [0, 10])
            && SectorSearch(d, p, 7, SeekSet) == Ok(Seek.Hop(2, 0)) && Skipped(TWO_ANGLES[1])
            && var r := SeekSector(d, o, p, 7, SeekSet, 1, 0);
            r.Ok? && r.value.0 && r.value.1.cellN == 2
  {
    hide SectorSearch, SeekSector, Playing;
    OtherAngleAsks();
    PlayerJumps(OneProgram(TWO_ANGLES, 2), o, PlayerAt([0, 10], 0, 3, 1), TWO_ANGLES, 2, 7, 2, 0);
  }

  const THREE_ANGLES: seq<Cell> := [
    Cell(1, 1, 0, 0, 29, 25, 0, ONE_SECOND), Cell(2, 1, 0, 5, 34, 30, 0, ONE_SECOND),
    Cell(3, 1, 0, 10, 39, 35, 0, ONE_SECOND)]

  const THREE_MAP: seq<nat> := [0, 5, 10, 15, 20, 25, 30, 35]

  lemma HeldBy25(v: nat)
    requires GreatestUpTo(THREE_MAP, v, 27)
    ensures v == 25
  {
    assert THREE_MAP[5] in THREE_MAP;
  }

  lemma ThreeAnglesMapped()
    ensures Mapped(THREE_ANGLES, THREE_MAP) && Before(THREE_ANGLES, 1, 4) == 30
  {
    assert forall k | 0 <= k < 3 :: THREE_ANGLES[k].first == THREE_MAP[k];
    assert Before(THREE_ANGLES, 1, 2) == 30;
    assert Before(THREE_ANGLES, 1, 3) == 30;
  }

  lemma ThreeAnglesAsk()
    ensures var d, p := OneProgram(THREE_ANGLES, 3), PlayerAt(THREE_MAP, 15, 1, 3);
            && Playing(d, p, PgcOf(d, p.state.pgc).value, 1, 3, THREE_MAP) && CurrentSector(p.vobu) == 16
            && SectorSearch(d, p, 27, SeekSet) == Ok(Seek.Hop(1, 25))
  {
    hide SectorSearch, Playing, Scanned, GreatestUpTo, Mapped;
    ThreeAnglesMapped();
    PlayerIsPlaying(THREE_ANGLES, 3, THREE_MAP, 15, 1, 3);
    PlayerSeeks(THREE_ANGLES, 3, THREE_MAP, 15, 1, 3, 27);
    FirstCellInv(THREE_ANGLES, 3, 3);
    HeldBy25(Scanned(THREE_MAP, 27, false));
  }

  /** In angle 1 at sector 16, with angle 3 just selected, SEEK_SET to 27 asks for the VOBU at
      sector 25 and succeeds, but leaves the VM at sector 10, the start of angle 3. Where play
      enters is then up to the NAV packet there. */
  lemma AngleLeadsSeekBack(o: Oracle)
    ensures var d, p := OneProgram(THREE_ANGLES, 3), PlayerAt(THREE_MAP, 15, 1, 3);
            && Playing(d, p, PgcOf(d, p.state.pgc).value, 1, 3, THREE_MAP)
            && SectorSearch(d, p, 27, SeekSet) == Ok(Seek.Hop(1, 25))
            && var r := SeekSector(d, o, p, 27, SeekSet, 1, 0);
            && r.Ok? && r.value.0 && r.value.1.cellN == 3 && r.value.1.blockN == 0
            && THREE_ANGLES[2].first < CurrentSector(p.vobu)
  {
    hide SectorSearch, SeekSector, Playing, CurrentSector;
    ThreeAnglesAsk();
    PlayerJumps(OneProgram(THREE_ANGLES, 3), o, PlayerAt(THREE_MAP, 15, 1, 3), THREE_ANGLES, 3, 27, 1, 25);
  }

  const TWO_VOBUS: seq<Cell> := [Cell(0, 0, 0, 0, 9, 5, 0, ONE_SECOND)]

  /** From sector 7, in the second VOBU of a plain cell, SEEK_SET to 2 asks for the first VOBU. */
  lemma TwoVobusAsk(angles: nat)
    ensures var d, p := OneProgram(TWO_VOBUS, angles), PlayerAt([0, 5], 5, 2, 1);
            && Playing(d, p, PgcOf(d, p.state.pgc).value, 1, 1, [0, 5])
            && SectorSearch(d, p, 2, SeekSet) == Ok(Seek.Hop(1, 0))
  {
    hide SectorSearch, Playing, Scanned;
    assert [0, 5][0] in [0, 5] && Before(TWO_VOBUS, 1, 2) == 10;
    PlayerIsPlaying(TWO_VOBUS, angles, [0, 5], 5, 2, 1);
    PlayerSeeks(TWO_VOBUS, angles, [0, 5], 5, 2, 1, 2);
    FirstCellInv(TWO_VOBUS, angles, 1);
  }
}
