/**
 The seek engine: positions count the sectors of the cells in play, a seek
 finds the cell and sector of a position, and the address map turns the sector
 into the start of a VOBU.
*/
module Searching {
  import opened Bits
  import opened Decoder
  import opened CommandLists
  import opened Disc
  import opened Machine
  import Navigation
  import opened Positions
  import opened Times

  /** A 32-bit unsigned value. */
  function Cut32(x: int): (r: nat)
    ensures r < TWO32 && (0 <= x < TWO32 ==> r == x)
  {
    x % TWO32
  }

  // The address map

  /** dvdnav_scan_admap from entry k on: the last entry passed, and the last one looked at. */
  function Scan(admap: seq<nat>, k: nat, start: nat, next: nat, target: nat): (nat, nat)
    decreases |admap| - k
  {
    if k >= |admap| then (start, next)
    else if start <= target && admap[k] > target then (start, admap[k])
    else Scan(admap, k + 1, admap[k], admap[k], target)
  }

  /** The VOBU found for a sector, or the one after it. */
  function Scanned(admap: seq<nat>, target: nat, after: bool): nat {
    var (start, next) := Scan(admap, 0, SRI_END_OF_CELL, 0, target);
    if after then next else start
  }

  method ScanAdmap(admap: seq<nat>, target: nat, after: bool) returns (vobu: nat)
    ensures vobu == Scanned(admap, target, after)
  {
    var address: nat, start: nat, next: nat := 0, SRI_END_OF_CELL, 0;
    while address < |admap|
      invariant address <= |admap|
      invariant Scan(admap, 0, SRI_END_OF_CELL, 0, target) == Scan(admap, address, start, next, target)
    {
      next := admap[address];
      if start <= target && next > target {
        return if after then next else start;
      }
      start := next;
      address := address + 1;
    }
    return if after then next else start;
  }

  /** VOBU start sectors in ascending order, as an address map lists them. */
  predicate Sorted(admap: seq<nat>) {
    && (forall i, j | 0 <= i < j < |admap| :: admap[i] < admap[j])
    && (forall i | 0 <= i < |admap| :: admap[i] < SRI_END_OF_CELL)
  }

  /** Entry v is the VOBU that holds the sector. */
  predicate GreatestUpTo(admap: seq<nat>, v: nat, sector: nat) {
    v in admap && v <= sector && forall u | u in admap && u <= sector :: u <= v
  }

  predicate LeastAbove(admap: seq<nat>, v: nat, sector: nat) {
    v in admap && v > sector && forall u | u in admap && u > sector :: v <= u
  }

  lemma {:induction false} ScanFrom(admap: seq<nat>, k: nat, start: nat, next: nat, target: nat)
    requires Sorted(admap) && k <= |admap|
    requires if k == 0 then start == SRI_END_OF_CELL else start == next == admap[k - 1]
    requires k == 0 ==> |admap| > 0 && (admap[0] <= target)
    requires k > 0 ==> admap[k - 1] <= target
    ensures var (v, after) := Scan(admap, k, start, next, target);
            && GreatestUpTo(admap, v, target)
            && if exists u :: u in admap && u > target then LeastAbove(admap, after, target) else after == v
    decreases |admap| - k
  {
    if k < |admap| {
      if start <= target && admap[k] > target {
        assert forall i | k <= i < |admap| :: admap[k] <= admap[i];
        assert admap[k] in admap;
      } else {
        ScanFrom(admap, k + 1, admap[k], admap[k], target);
      }
    }
  }

  /** When some VOBU starts at or before the sector, the scan answers the last such one,
      and the one after it is the first that starts later; with none later it is the same. */
  lemma ScanFinds(admap: seq<nat>, target: nat)
    requires Sorted(admap) && exists u :: u in admap && u <= target
    ensures GreatestUpTo(admap, Scanned(admap, target, false), target)
    ensures if exists u :: u in admap && u > target then LeastAbove(admap, Scanned(admap, target, true), target)
            else Scanned(admap, target, true) == Scanned(admap, target, false)
  {
    var u :| u in admap && u <= target;
    var i :| 0 <= i < |admap| && admap[i] == u;
    assert admap[0] <= admap[i];
    ScanFrom(admap, 0, SRI_END_OF_CELL, 0, target);
  }

  /** A sector before the first VOBU is answered with the last VOBU of all. */
  lemma {:induction false} ScanMisses(admap: seq<nat>, k: nat, next: nat, target: nat)
    requires Sorted(admap) && k < |admap| && target < admap[0]
    ensures var start := if k == 0 then SRI_END_OF_CELL else admap[k - 1];
            Scan(admap, k, start, next, target) == (admap[|admap| - 1], admap[|admap| - 1])
    decreases |admap| - k
  {
    assert admap[0] <= admap[k];
    if k > 0 {
      assert admap[0] <= admap[k - 1];
    }
    if k + 1 < |admap| {
      ScanMisses(admap, k + 1, admap[k], target);
    }
  }

  // Positions

  predicate Skipped(c: Cell) {
    c.kind == 1 && c.mode != 1
  }

  /** The sectors of a cell, as C computes it on 32 bits. */
  function Length(c: Cell): nat {
    Cut32(c.last - c.first + 1)
  }

  /** The first and last cell a position counts: those of the PGC, or of the program. */
  function CellRange(pgc: Pgc, pgN: int, pgcBased: bool): Outcome<(int, int)> {
    if pgcBased then Ok((1, |pgc.cells|))
    else if pgN < 1 || pgN > |pgc.programs| then Abort
    else Ok((pgc.programs[pgN - 1], if pgN < |pgc.programs| then pgc.programs[pgN] - 1 else |pgc.cells|))
  }

  const NO_POSITION: nat := TWO32 - 1

  /** The loop of dvdnav_get_position from cell n on. */
  function Measured(cells: seq<Cell>, n: int, last: int, cellN: int, cur: nat, pos: nat, len: nat): Outcome<(nat, nat)>
    decreases last - n
  {
    if n > last then Ok((pos, len))
    else if n < 1 || n > |cells| then Abort
    else if Skipped(cells[n - 1]) then Measured(cells, n + 1, last, cellN, cur, pos, len)
    else
      var pos' := if n == cellN then Cut32(len + cur - cells[n - 1].first) else pos;
      Measured(cells, n + 1, last, cellN, cur, pos', Cut32(len + Length(cells[n - 1])))
  }

  method Measure(cells: seq<Cell>, first: int, last: int, cellN: int, cur: nat) returns (r: Outcome<(nat, nat)>)
    ensures r == Measured(cells, first, last, cellN, cur, NO_POSITION, 0)
  {
    var pos: nat, len: nat, n := NO_POSITION, 0, first;
    while n <= last
      invariant Measured(cells, first, last, cellN, cur, NO_POSITION, 0) ==
                Measured(cells, n, last, cellN, cur, pos, len)
      decreases last - n
    {
      if n < 1 || n > |cells| {
        return Abort;
      }
      var cell := cells[n - 1];
      if !Skipped(cell) {
        if n == cellN {
          pos := Cut32(len + cur - cell.first);
        }
        len := Cut32(len + Length(cell));
      }
      n := n + 1;
    }
    r := Ok((pos, len));
  }

  /** The loop of the seeks from cell n on: the cell that holds the target, and the offset there. */
  function Located(cells: seq<Cell>, n: int, last: int, target: nat): Outcome<Option<(nat, nat)>>
    decreases last - n
  {
    if n > last then Ok(None)
    else if n < 1 || n > |cells| then Abort
    else if Skipped(cells[n - 1]) then Located(cells, n + 1, last, target)
    else if target >= Length(cells[n - 1]) then Located(cells, n + 1, last, target - Length(cells[n - 1]))
    else Ok(Some((n, target)))
  }

  method Locate(cells: seq<Cell>, first: int, last: int, target: nat) returns (r: Outcome<Option<(nat, nat)>>)
    ensures r == Located(cells, first, last, target)
  {
    var n, left := first, target;
    while n <= last
      invariant left >= 0 && Located(cells, first, last, target) == Located(cells, n, last, left)
      decreases last - n
    {
      if n < 1 || n > |cells| {
        return Abort;
      }
      if !Skipped(cells[n - 1]) {
        if left < Length(cells[n - 1]) {
          return Ok(Some((n, left)));
        }
        left := left - Length(cells[n - 1]);
      }
      n := n + 1;
    }
    r := Ok(None);
  }

  // What positions number

  /** The cells from..last exist, and their sectors are in order and few enough to count in 31 bits. */
  predicate Sane(cells: seq<Cell>, from: int, last: int) {
    && 1 <= from && last <= |cells|
    && (forall n {:trigger cells[n]} | 0 <= n < |cells| :: cells[n].first <= cells[n].last < SRI_END_OF_CELL)
    && Before(cells, from, last + 1) < 0x8000_0000
  }

  function Size(c: Cell): int {
    if Skipped(c) then 0 else c.last - c.first + 1
  }

  /** The sectors in play in the cells from..n-1. */
  function Before(cells: seq<Cell>, from: int, n: int): int
    decreases n - from
  {
    if n <= from || n < 2 || n - 1 > |cells| then 0 else Before(cells, from, n - 1) + Size(cells[n - 2])
  }

  /** The sector is in play: it lies in a cell of the range that is not skipped. */
  predicate InPlay(cells: seq<Cell>, from: int, last: int, n: int, sector: int) {
    from <= n <= last && 1 <= n <= |cells| && !Skipped(cells[n - 1]) && cells[n - 1].first <= sector <= cells[n - 1].last
  }

  /** The number of a sector in play. */
  function Number(cells: seq<Cell>, from: int, n: int, sector: int): int
    requires 1 <= n <= |cells|
  {
    Before(cells, from, n) + sector - cells[n - 1].first
  }

  lemma {:induction false} BeforeGrows(cells: seq<Cell>, from: int, n: int, m: int)
    requires 1 <= from <= n <= m <= |cells| + 1
    requires forall k {:trigger cells[k]} | 0 <= k < |cells| :: cells[k].first <= cells[k].last
    ensures 0 <= Before(cells, from, n) <= Before(cells, from, m)
    decreases m - from
  {
    if n < m {
      BeforeGrows(cells, from, n, m - 1);
    } else if from < n {
      BeforeGrows(cells, from, n - 1, n - 1);
    }
  }

  lemma {:induction false} MeasuredIs(cells: seq<Cell>, from: int, n: int, last: int, cellN: int, cur: nat, pos: nat)
    requires Sane(cells, from, last) && from <= n <= last + 1
    ensures Before(cells, from, n) >= 0
    ensures Measured(cells, n, last, cellN, cur, pos, Before(cells, from, n)) ==
            Ok((if n <= cellN <= last && !Skipped(cells[cellN - 1]) then Cut32(Number(cells, from, cellN, cur)) else pos,
                Before(cells, from, last + 1)))
    decreases last - n
  {
    hide Cut32;
    BeforeGrows(cells, from, n, last + 1);
    if n <= last {
      BeforeGrows(cells, from, n + 1, last + 1);
      var pos' := if n == cellN && !Skipped(cells[n - 1]) then Cut32(Number(cells, from, cellN, cur)) else pos;
      MeasuredIs(cells, from, n + 1, last, cellN, cur, pos');
    }
  }

  lemma MeasuredFromStart(cells: seq<Cell>, from: int, last: int, cellN: int, cur: nat)
    requires Sane(cells, from, last) && from <= last && InPlay(cells, from, last, cellN, cur)
    ensures Measured(cells, from, last, cellN, cur, NO_POSITION, 0) ==
            Ok((Number(cells, from, cellN, cur), Before(cells, from, last + 1)))
    ensures Before(cells, from, last + 1) < NO_POSITION
  {
    hide Measured, Cut32;
    MeasuredIs(cells, from, from, last, cellN, cur, NO_POSITION);
    BeforeGrows(cells, from, cellN, cellN);
    BeforeGrows(cells, from, cellN + 1, last + 1);
  }

  lemma {:induction false} LocatedIs(cells: seq<Cell>, from: int, n: int, last: int, m: int, sector: int)
    requires Sane(cells, from, last) && from <= n <= m && InPlay(cells, from, last, m, sector)
    ensures Number(cells, from, m, sector) >= Before(cells, from, n)
    ensures Located(cells, n, last, Number(cells, from, m, sector) - Before(cells, from, n)) ==
            Ok(Some((m, sector - cells[m - 1].first)))
    decreases m - n
  {
    BeforeGrows(cells, from, n, m);
    if n < m {
      BeforeGrows(cells, from, n + 1, m);
      LocatedIs(cells, from, n + 1, last, m, sector);
    }
  }

  /** The cell and sector of a position. */
  function CellOf(cells: seq<Cell>, n: int, last: int, target: nat): Option<(nat, nat)> {
    var located := Located(cells, n, last, target);
    if located.Ok? && located.value.Some? && 1 <= located.value.value.0 <= |cells| then
      Some((located.value.value.0, cells[located.value.value.0 - 1].first + located.value.value.1))
    else None
  }

  lemma {:induction false} LocatedInverse(cells: seq<Cell>, from: int, n: int, last: int, target: nat)
    requires Sane(cells, from, last) && from <= n <= last + 1
    requires Before(cells, from, n) + target < Before(cells, from, last + 1)
    ensures var at := CellOf(cells, n, last, target);
            at.Some? && InPlay(cells, from, last, at.value.0, at.value.1)
            && Number(cells, from, at.value.0, at.value.1) == Before(cells, from, n) + target
    decreases last - n
  {
    if n <= last && (Skipped(cells[n - 1]) || target >= Length(cells[n - 1])) {
      LocatedInverse(cells, from, n + 1, last, target - Size(cells[n - 1]));
    }
  }

  lemma {:induction false} LocatedBeyond(cells: seq<Cell>, from: int, n: int, last: int, target: nat)
    requires Sane(cells, from, last) && from <= n <= last + 1
    requires Before(cells, from, n) + target >= Before(cells, from, last + 1)
    ensures Located(cells, n, last, target) == Ok(None)
    decreases last - n
  {
    if n <= last {
      BeforeGrows(cells, from, n + 1, last + 1);
      if Skipped(cells[n - 1]) || target >= Length(cells[n - 1]) {
        LocatedBeyond(cells, from, n + 1, last, target - Size(cells[n - 1]));
      }
    }
  }

  lemma NumberBelow(cells: seq<Cell>, from: int, last: int, m: int, sector: int)
    requires Sane(cells, from, last) && InPlay(cells, from, last, m, sector)
    ensures 0 <= Number(cells, from, m, sector) < Before(cells, from, last + 1)
  {
    BeforeGrows(cells, from, m, m);
    BeforeGrows(cells, from, m + 1, last + 1);
  }

  lemma TargetInPlay(cells: seq<Cell>, from: int, last: int, target: nat)
    requires Sane(cells, from, last) && from <= last && target < Before(cells, from, last + 1)
    ensures var at := CellOf(cells, from, last, target);
            && at.Some? && InPlay(cells, from, last, at.value.0, at.value.1) && at.value.1 < SRI_END_OF_CELL
            && Located(cells, from, last, target) == Ok(Some((at.value.0, at.value.1 - cells[at.value.0 - 1].first)))
            && Number(cells, from, at.value.0, at.value.1) == target
  {
    LocatedInverse(cells, from, from, last, target);
  }

  lemma NumberLocated(cells: seq<Cell>, from: int, last: int, m: int, sector: int)
    requires Sane(cells, from, last) && InPlay(cells, from, last, m, sector)
    ensures Number(cells, from, m, sector) >= 0
    ensures CellOf(cells, from, last, Number(cells, from, m, sector)) == Some((m, sector))
  {
    LocatedIs(cells, from, from, last, m, sector);
    NumberBelow(cells, from, last, m, sector);
  }

  /** Numbering and locating are inverse: the sectors in play are numbered 0..len-1,
      each number once. */
  lemma NumberingIsBijection(cells: seq<Cell>, from: int, last: int)
    requires Sane(cells, from, last) && from <= last + 1
    ensures forall m, sector | InPlay(cells, from, last, m, sector) ::
              0 <= Number(cells, from, m, sector) < Before(cells, from, last + 1)
              && CellOf(cells, from, last, Number(cells, from, m, sector)) == Some((m, sector))
    ensures forall p: nat | p < Before(cells, from, last + 1) ::
              var at := CellOf(cells, from, last, p);
              at.Some? && InPlay(cells, from, last, at.value.0, at.value.1)
              && Number(cells, from, at.value.0, at.value.1) == p
  {
    forall m, sector | InPlay(cells, from, last, m, sector)
      ensures 0 <= Number(cells, from, m, sector) < Before(cells, from, last + 1)
      ensures CellOf(cells, from, last, Number(cells, from, m, sector)) == Some((m, sector))
    {
      NumberBelow(cells, from, last, m, sector);
      NumberLocated(cells, from, last, m, sector);
    }
    forall p: nat | p < Before(cells, from, last + 1)
      ensures var at := CellOf(cells, from, last, p);
              at.Some? && InPlay(cells, from, last, at.value.0, at.value.1)
              && Number(cells, from, at.value.0, at.value.1) == p
    {
      LocatedInverse(cells, from, from, last, p);
    }
  }

  // The seeks

  /** The address maps of the disc and of the open title set. */
  datatype Admaps = Admaps(vmgMenu: Option<seq<nat>>, vtsMenu: Option<seq<nat>>, vtsTitle: Option<seq<nat>>)

  function AdmapOf(maps: Admaps, domain: Domain): Option<seq<nat>> {
    match domain
    case VtsTitle => maps.vtsTitle
    case VtsMenu => maps.vtsMenu
    case _ => maps.vmgMenu
  }

  /** What a seek looks at: the state of the VM, and where the event pump is. */
  datatype Player = Player(state: State, started: bool, current: Position, vobu: Vobu, pgcBased: bool, maps: Admaps)

  function CurrentSector(v: Vobu): nat {
    Cut32(v.start + v.blockN)
  }

  /** The event pump has caught up with the VM. */
  predicate Settled(p: Player) {
    && p.current.hopChannel == p.state.hopChannel && p.current.domain == p.state.domain
    && p.current.vts == p.state.vtsN && p.current.cellRestart == p.state.cellRestart
  }

  /** dvdnav_get_position: position and length, or None when it is refused. */
  function GetPosition(d: Disc, p: Player): Outcome<Option<(nat, nat)>> {
    if !p.started || p.state.pgc.NoPgc? || p.state.stopped || !Settled(p) then Ok(None)
    else
      var pgc :- PgcOf(d, p.state.pgc);
      var range :- CellRange(pgc, p.state.pgN, p.pgcBased);
      var at :- Measured(pgc.cells, range.0, range.1, p.state.cellN, CurrentSector(p.vobu), NO_POSITION, 0);
      if at.0 == NO_POSITION then Abort else Ok(Some(at))
  }

  datatype Origin = SeekSet | SeekCur | SeekEnd | OtherOrigin

  /** The position asked for, or None when it lies outside. */
  function SeekTarget(offset: int, origin: Origin, pos: nat, len: nat): Option<nat> {
    match origin
    case SeekSet => if offset >= len then None else Some(Cut32(offset))
    case SeekCur =>
      if Wrap32(pos) + offset >= len || Wrap32(pos) + offset < 0 then None else Some(Cut32(pos + offset))
    case SeekEnd => if len < offset then None else Some(Cut32(len - offset))
    case OtherOrigin => None
  }

  /** Where a seek goes: a cell, and a block of it. */
  datatype Seek = Refused | Hop(cell: nat, block: int)

  /** The forward rule: a VOBU at or before the current sector is passed over for
      the next one, in the next cell if need be. */
  function Forwarded(cells: seq<Cell>, admap: seq<nat>, n: nat, last: int, sector: nat, cur: nat): Outcome<Option<(nat, nat)>>
    requires 1 <= n <= |cells|
  {
    var next := Scanned(admap, sector, true);
    if Scanned(admap, sector, false) > cur then Ok(Some((n, sector)))
    else if next <= cells[n - 1].last then Ok(Some((n, next)))
    else if n == last then Ok(None)
    else if n + 1 > |cells| then Abort
    else Ok(Some((n + 1, cells[n].first)))
  }

  /** The VOBU start the map has for the sector, counted from the start of the cell. */
  function HopTo(cells: seq<Cell>, admap: seq<nat>, n: nat, sector: nat): (seek: Seek)
    requires 1 <= n <= |cells|
    ensures seek.Hop? && seek.cell == n
  {
    Hop(n, Wrap32(Scanned(admap, sector, false) - cells[n - 1].first))
  }

  /** dvdnav_sector_search, up to its jump to the cell. */
  function SectorSearch(d: Disc, p: Player, offset: int, origin: Origin): Outcome<Seek> {
    if p.current.still != 0 then Ok(Refused)
    else
      var at :- GetPosition(d, p);
      if at.None? then Ok(Refused)
      else
        var target := SeekTarget(offset, origin, at.value.0, at.value.1);
        if target.None? then Ok(Refused) else SeekTo(d, p, target.value, target.value > at.value.0)
  }

  function SeekTo(d: Disc, p: Player, target: nat, forward: bool): Outcome<Seek> {
    var pgc :- PgcOf(d, p.state.pgc);
    var range :- CellRange(pgc, p.state.pgN, p.pgcBased);
    var found :- Located(pgc.cells, range.0, Cut32(range.1), target);
    var admap := AdmapOf(p.maps, p.state.domain);
    if found.None? || admap.None? then Ok(Refused)
    else
      var n, cells := found.value.0, pgc.cells;
      if n < 1 || n > |cells| then Abort
      else
        var sector := Cut32(found.value.1 + cells[n - 1].first);
        if !forward || n != p.state.cellN then Ok(HopTo(cells, admap.value, n, sector))
        else
          var goal :- Forwarded(cells, admap.value, n, Cut32(range.1), sector, CurrentSector(p.vobu));
          if goal.None? then Ok(Refused)
          else if goal.value.0 < 1 || goal.value.0 > |cells| then Abort
          else Ok(HopTo(cells, admap.value, goal.value.0, goal.value.1))
  }

  method SearchSector(d: Disc, p: Player, offset: int, origin: Origin) returns (r: Outcome<Seek>)
    ensures r == SectorSearch(d, p, offset, origin)
  {
    if p.current.still != 0 {
      return Ok(Refused);
    }
    var at := FindPosition(d, p);
    if at.IsFailure() {
      return at.PropagateFailure();
    }
    if at.value.None? {
      return Ok(Refused);
    }
    var target := SeekTarget(offset, origin, at.value.value.0, at.value.value.1);
    if target.None? {
      return Ok(Refused);
    }
    r := SearchTarget(d, p, target.value, target.value > at.value.value.0);
  }

  method FindPosition(d: Disc, p: Player) returns (r: Outcome<Option<(nat, nat)>>)
    ensures r == GetPosition(d, p)
  {
    if !p.started || p.state.pgc.NoPgc? || p.state.stopped || !Settled(p) {
      return Ok(None);
    }
    var pgc := PgcOf(d, p.state.pgc);
    if !pgc.Ok? {
      return pgc.PropagateFailure();
    }
    var range := CellRange(pgc.value, p.state.pgN, p.pgcBased);
    if !range.Ok? {
      return range.PropagateFailure();
    }
    var at := Measure(pgc.value.cells, range.value.0, range.value.1, p.state.cellN, CurrentSector(p.vobu));
    if !at.Ok? {
      return at.PropagateFailure();
    }
    r := if at.value.0 == NO_POSITION then Abort else Ok(Some(at.value));
  }

  method SearchTarget(d: Disc, p: Player, target: nat, forward: bool) returns (r: Outcome<Seek>)
    ensures r == SeekTo(d, p, target, forward)
  {
    hide Located, Scanned, Wrap32, Cut32;
    var pgc := PgcOf(d, p.state.pgc);
    if !pgc.Ok? {
      return pgc.PropagateFailure();
    }
    var range := CellRange(pgc.value, p.state.pgN, p.pgcBased);
    if !range.Ok? {
      return range.PropagateFailure();
    }
    var cells, cur, last := pgc.value.cells, CurrentSector(p.vobu), Cut32(range.value.1);
    var found := Locate(cells, range.value.0, last, target);
    if !found.Ok? {
      return found.PropagateFailure();
    }
    var admap := AdmapOf(p.maps, p.state.domain);
    if found.value.None? || admap.None? {
      return Ok(Refused);
    }
    var n: int, sector: nat := found.value.value.0, found.value.value.1;
    if n < 1 || n > |cells| {
      return Abort;
    }
    sector := Cut32(sector + cells[n - 1].first);
    if forward && n == p.state.cellN {
      var vobu := ScanAdmap(admap.value, sector, false);
      if vobu <= cur {
        vobu := ScanAdmap(admap.value, sector, true);
        if vobu > cells[n - 1].last {
          if n == last {
            return Ok(Refused);
          }
          n := n + 1;
          if n > |cells| {
            return Abort;
          }
          sector := cells[n - 1].first;
        } else {
          sector := vobu;
        }
      }
    }
    var vobu := ScanAdmap(admap.value, sector, false);
    r := Ok(Hop(n, Wrap32(vobu - cells[n - 1].first)));
  }

  // Where sector seeks land

  /** A playing position on ordered cells whose first sectors are all VOBU starts. */
  ghost predicate Playing(d: Disc, p: Player, pgc: Pgc, from: int, last: int, admap: seq<nat>) {
    && p.started && p.state.pgc != NoPgc && !p.state.stopped && Settled(p) && p.current.still == 0
    && PgcOf(d, p.state.pgc) == Ok(pgc) && |pgc.cells| < 256
    && CellRange(pgc, p.state.pgN, p.pgcBased) == Ok((from, last)) && from <= last
    && Sane(pgc.cells, from, last)
    && AdmapOf(p.maps, p.state.domain) == Some(admap) && Sorted(admap)
    && (forall n {:trigger pgc.cells[n]} | 0 <= n < |pgc.cells| :: pgc.cells[n].first in admap)
    && InPlay(pgc.cells, from, last, p.state.cellN, CurrentSector(p.vobu))
  }

  /** The reported position is the number of the current sector, and lies below the length. */
  lemma PositionReported(d: Disc, p: Player, pgc: Pgc, from: int, last: int, admap: seq<nat>)
    requires Playing(d, p, pgc, from, last, admap)
    ensures var pos := Number(pgc.cells, from, p.state.cellN, CurrentSector(p.vobu));
            && GetPosition(d, p) == Ok(Some((pos, Before(pgc.cells, from, last + 1))))
            && 0 <= pos < Before(pgc.cells, from, last + 1)
  {
    hide Measured, Sane, Cut32;
    var cells, cur := pgc.cells, CurrentSector(p.vobu);
    NumberBelow(cells, from, last, p.state.cellN, cur);
    assert Before(cells, from, from) == 0;
    MeasuredFromStart(cells, from, last, p.state.cellN, cur);
  }

  /** A cell's sector is held by a VOBU of that cell. */
  lemma LandsInCell(cells: seq<Cell>, admap: seq<nat>, n: nat, sector: nat)
    requires 1 <= n <= |cells| && Sorted(admap) && cells[n - 1].first in admap
    requires cells[n - 1].first <= sector < SRI_END_OF_CELL
    ensures var v := Scanned(admap, sector, false);
            && GreatestUpTo(admap, v, sector) && cells[n - 1].first <= v
            && HopTo(cells, admap, n, sector) == Hop(n, v - cells[n - 1].first)
  {
    ScanFinds(admap, sector);
  }

  /** A seek that does not go forward within the current cell lands on the VOBU that
      holds the sector of the target. */
  lemma SeekLands(d: Disc, p: Player, pgc: Pgc, from: int, last: int, admap: seq<nat>, target: nat, forward: bool)
    requires Playing(d, p, pgc, from, last, admap) && target < Before(pgc.cells, from, last + 1)
    ensures var at := CellOf(pgc.cells, from, last, target);
            && at.Some? && InPlay(pgc.cells, from, last, at.value.0, at.value.1)
            && var v := Scanned(admap, at.value.1, false);
            && GreatestUpTo(admap, v, at.value.1) && pgc.cells[at.value.0 - 1].first <= v
            && (!forward || at.value.0 != p.state.cellN ==>
                SeekTo(d, p, target, forward) == Ok(Hop(at.value.0, v - pgc.cells[at.value.0 - 1].first)))
  {
    hide Before, Located, Scan;
    TargetInPlay(pgc.cells, from, last, target);
    var at := CellOf(pgc.cells, from, last, target).value;
    LandsInCell(pgc.cells, admap, at.0, at.1);
  }

  ghost predicate SomeAbove(admap: seq<nat>, sector: nat) {
    exists u :: u in admap && u > sector
  }

  /** The forward rule within the current cell, by what the address map holds. */
  lemma ForwardedIs(cells: seq<Cell>, admap: seq<nat>, n: nat, last: int, sector: nat, cur: nat)
    requires 1 <= n <= |cells| && n <= last <= |cells| && Sorted(admap) && cells[n - 1].first in admap
    requires cells[n - 1].first <= cur < sector <= cells[n - 1].last
    ensures var v, r := Scanned(admap, sector, false), Forwarded(cells, admap, n, last, sector, cur);
            if v > cur then r == Ok(Some((n, sector)))
            else if !SomeAbove(admap, sector) then r == Ok(Some((n, v)))
            else
              var next := Scanned(admap, sector, true);
              && LeastAbove(admap, next, sector)
              && (next <= cells[n - 1].last ==> r == Ok(Some((n, next))))
              && (next > cells[n - 1].last && n == last ==> r == Ok(None))
              && (next > cells[n - 1].last && n < last ==>
                   r.Ok? && r.value.Some? && r.value.value.0 == n + 1 && r.value.value.1 == cells[n].first)
  {
    ScanFinds(admap, sector);
  }

  /** The seek moves on: to a VOBU after the current sector, or to the start of the next cell. */
  predicate Advances(r: Outcome<Seek>, cells: seq<Cell>, admap: seq<nat>, n: int, cur: nat)
    requires 1 <= n <= |cells|
  {
    && r.Ok? && r.value.Hop?
    && ((r.value.cell == n && r.value.block + cells[n - 1].first in admap
         && cur < r.value.block + cells[n - 1].first <= cells[n - 1].last)
        || r.value == Hop(n + 1, 0))
  }

  /** Where the forward rule leads, VOBU starts and all. */
  function ForwardHop(cells: seq<Cell>, admap: seq<nat>, n: nat, last: int, sector: nat, cur: nat): Seek
    requires 1 <= n <= |cells|
  {
    var goal := Forwarded(cells, admap, n, last, sector, cur);
    if goal.Ok? && goal.value.Some? && 1 <= goal.value.value.0 <= |cells| then
      HopTo(cells, admap, goal.value.value.0, goal.value.value.1)
    else Refused
  }

  lemma ForwardSeekIs(d: Disc, p: Player, pgc: Pgc, from: int, last: int, admap: seq<nat>, target: nat)
    requires Playing(d, p, pgc, from, last, admap) && target < Before(pgc.cells, from, last + 1)
    requires CellOf(pgc.cells, from, last, target).Some?
    requires CellOf(pgc.cells, from, last, target).value.0 == p.state.cellN
    ensures var sector := CellOf(pgc.cells, from, last, target).value.1;
            SeekTo(d, p, target, true) ==
            Ok(ForwardHop(pgc.cells, admap, p.state.cellN, last, sector, CurrentSector(p.vobu)))
  {
    hide Before, Scanned, CurrentSector;
    TargetInPlay(pgc.cells, from, last, target);
  }

  /** The hop of the forward rule, by what the address map holds. */
  lemma ForwardHopIs(cells: seq<Cell>, admap: seq<nat>, n: nat, last: int, sector: nat, cur: nat)
    requires 1 <= n <= |cells| && n <= last <= |cells| && Sorted(admap)
    requires forall k {:trigger cells[k]} | 0 <= k < |cells| ::
               cells[k].first in admap && cells[k].first <= cells[k].last < SRI_END_OF_CELL
    requires cells[n - 1].first <= cur < sector <= cells[n - 1].last
    ensures var v, r, first := Scanned(admap, sector, false), ForwardHop(cells, admap, n, last, sector, cur),
                               cells[n - 1].first;
            && GreatestUpTo(admap, v, sector) && first <= v
            && (v > cur || !SomeAbove(admap, sector) ==> r == Hop(n, v - first))
            && (v <= cur && SomeAbove(admap, sector) ==>
                 var next := Scanned(admap, sector, true);
                 && LeastAbove(admap, next, sector)
                 && r == if next <= cells[n - 1].last then Hop(n, next - first)
                         else if n == last then Refused else Hop(n + 1, 0))
  {
    hide Scanned, Forwarded;
    LandsInCell(cells, admap, n, sector);
    ForwardedIs(cells, admap, n, last, sector, cur);
    var goal := Forwarded(cells, admap, n, last, sector, cur);
    if goal.value.Some? {
      LandsInCell(cells, admap, goal.value.value.0, goal.value.value.1);
    }
  }

  /** A forward seek within the current cell that succeeds moves on exactly when some
      VOBU of the map starts after the current sector. With none, it falls back. */
  lemma ForwardSeekAdvances(d: Disc, p: Player, pgc: Pgc, from: int, last: int, admap: seq<nat>, target: nat)
    requires Playing(d, p, pgc, from, last, admap) && target < Before(pgc.cells, from, last + 1)
    requires CellOf(pgc.cells, from, last, target).Some?
    requires CellOf(pgc.cells, from, last, target).value.0 == p.state.cellN
    requires target > Number(pgc.cells, from, p.state.cellN, CurrentSector(p.vobu))
    ensures var r, n, cur := SeekTo(d, p, target, true), p.state.cellN, CurrentSector(p.vobu);
            && r.Ok?
            && (r.value.Hop? ==> (Advances(r, pgc.cells, admap, n, cur) <==> SomeAbove(admap, cur)))
            && (!SomeAbove(admap, cur) ==> r.value.Hop? && r.value.cell == n
                                           && r.value.block + pgc.cells[n - 1].first <= cur)
            && (r.value.Refused? ==> n == last && forall u | u in admap :: !(cur < u <= pgc.cells[n - 1].last))
  {
    hide Before, Scanned, SeekTo, ForwardHop, CurrentSector;
    TargetInPlay(pgc.cells, from, last, target);
    ForwardSeekIs(d, p, pgc, from, last, admap, target);
    ForwardHopIs(pgc.cells, admap, p.state.cellN, last, CellOf(pgc.cells, from, last, target).value.1,
                 CurrentSector(p.vobu));
  }

  /** SEEK_SET to the number of a sector in play goes to its cell and to the VOBU that holds
      it, except from an earlier sector of that same VOBU when another VOBU follows. */
  lemma SeekSetReturns(d: Disc, p: Player, pgc: Pgc, from: int, last: int, admap: seq<nat>, n: int, sector: nat)
    requires Playing(d, p, pgc, from, last, admap) && InPlay(pgc.cells, from, last, n, sector)
    ensures var v, cur := Scanned(admap, sector, false), CurrentSector(p.vobu);
            && GreatestUpTo(admap, v, sector) && pgc.cells[n - 1].first <= v
            && (SectorSearch(d, p, Number(pgc.cells, from, n, sector), SeekSet) == Ok(Hop(n, v - pgc.cells[n - 1].first))
                <==> !(n == p.state.cellN && v <= cur < sector && SomeAbove(admap, sector)))
  {
    hide Before, Scanned, SeekTo, ForwardHop, CurrentSector, GetPosition, CellOf, Measured;
    var cells, cur, target := pgc.cells, CurrentSector(p.vobu), Number(pgc.cells, from, n, sector);
    PositionReported(d, p, pgc, from, last, admap);
    NumberBelow(cells, from, last, n, sector);
    NumberLocated(cells, from, last, n, sector);
    SeekLands(d, p, pgc, from, last, admap, target, target > Number(cells, from, p.state.cellN, cur));
    if n == p.state.cellN && cur < sector {
      ForwardSeekIs(d, p, pgc, from, last, admap, target);
      ForwardHopIs(cells, admap, n, last, sector, cur);
    }
  }

  // Time

  /** The loop of dvdnav_time_search from cell n on: the cell that holds the time, and the
      sector interpolated in 64 bits. */
  function Timed(cells: seq<Cell>, n: int, last: int, target: nat): Outcome<Option<(nat, nat)>>
    decreases last - n
  {
    if n > last then Ok(None)
    else if n < 1 || n > |cells| then Abort
    else
      var cell := cells[n - 1];
      if Skipped(cell) then Timed(cells, n + 1, last, target)
      else if target >= Ticks(cell.time) then Timed(cells, n + 1, last, target - Ticks(cell.time))
      else Ok(Some((n, Interpolated(cell, target))))
  }

  function Scaled(target: nat, length: nat, ticks: nat): nat
    requires ticks > 0
  {
    target * length % TWO64 / ticks
  }

  function Interpolated(cell: Cell, target: nat): nat
    requires target < Ticks(cell.time)
  {
    (Scaled(target, Length(cell), Ticks(cell.time)) + cell.first) % TWO64
  }

  method FindTime(cells: seq<Cell>, first: int, last: int, time: nat) returns (r: Outcome<Option<(nat, nat)>>)
    ensures r == Timed(cells, first, last, time)
  {
    hide Scaled, Ticks;
    var n, target: nat := first, time;
    while n <= last
      invariant Timed(cells, first, last, time) == Timed(cells, n, last, target)
      decreases last - n
    {
      if n < 1 || n > |cells| {
        return Abort;
      }
      var cell := cells[n - 1];
      if !Skipped(cell) {
        var length := ConvertTime(cell.time);
        if target >= length {
          target := target - length;
        } else {
          target := Scaled(target, Length(cell), length);
          return Ok(Some((n, (target + cell.first) % TWO64)));
        }
      }
      n := n + 1;
    }
    r := Ok(None);
  }

  /** dvdnav_time_search, up to its jump to the cell. */
  function TimeSearch(d: Disc, p: Player, time: nat): Outcome<Seek> {
    if p.current.still != 0 || p.state.pgc.NoPgc? then Ok(Refused)
    else
      var pgc :- PgcOf(d, p.state.pgc);
      var range :- CellRange(pgc, p.state.pgN, p.pgcBased);
      var found :- Timed(pgc.cells, range.0, Cut32(range.1), time);
      var admap := AdmapOf(p.maps, p.state.domain);
      if found.None? || admap.None? then Ok(Refused)
      else if found.value.0 < 1 || found.value.0 > |pgc.cells| then Abort
      else Ok(HopTo(pgc.cells, admap.value, found.value.0, Cut32(found.value.1)))
  }

  /** The ticks in play in the cells from..n-1. */
  function TimeBefore(cells: seq<Cell>, from: int, n: int): nat
    decreases n - from
  {
    if n <= from || n < 2 || n - 1 > |cells| then 0
    else TimeBefore(cells, from, n - 1) + if Skipped(cells[n - 2]) then 0 else Ticks(cells[n - 2].time)
  }

  /** A disc has no sector beyond this one. */
  const LAST_SECTOR: nat := 0x30_0000

  /** The cells from..last exist, their sectors are in order on the disc and their times are bytes. */
  predicate Clocked(cells: seq<Cell>, from: int, last: int) {
    && 1 <= from && last <= |cells|
    && (forall n {:trigger cells[n]} | 0 <= n < |cells| ::
          cells[n].first <= cells[n].last <= LAST_SECTOR && Bytes(cells[n].time))
  }

  lemma QuotientBelow(a: nat, b: nat, c: nat)
    requires c > 0 && a < b * c
    ensures a / c < b
  {
    if a / c >= b {
      ProductBelow(b, c, a / c, c);
    }
  }

  /** Within a cell the interpolation neither overflows nor leaves the cell's sectors. */
  lemma InterpolatedInside(cell: Cell, target: nat)
    requires cell.first <= cell.last <= LAST_SECTOR && Bytes(cell.time) && target < Ticks(cell.time)
    ensures target * Length(cell) < TWO64
    ensures Interpolated(cell, target) == cell.first + target * (cell.last - cell.first + 1) / Ticks(cell.time)
    ensures cell.first <= Interpolated(cell, target) <= cell.last
  {
    hide Ticks;
    TicksBounded(cell.time);
    var length, ticks := cell.last - cell.first + 1, Ticks(cell.time);
    assert Length(cell) == length;
    ScaledBelow(target, length, ticks);
    assert target * length % TWO64 == target * length;
  }

  lemma ScaledBelow(target: nat, length: nat, ticks: nat)
    requires target < ticks <= LONGEST && 0 < length <= LAST_SECTOR + 1
    ensures target * length < TWO64
    ensures target * length / ticks < length
  {
    ProductBelow(target, length, LONGEST, LAST_SECTOR + 1);
    ProductBelow(target + 1, length, ticks, length);
    Distributes(target, length);
    QuotientBelow(target * length, length, ticks);
  }

  lemma Distributes(a: nat, b: nat)
    ensures (a + 1) * b == a * b + b
  {
  }

  lemma QuotientGrows(a: nat, b: nat, c: nat)
    requires c > 0 && a <= b
    ensures a / c <= b / c
  {
    if a / c > b / c {
      ProductBelow(b / c + 1, c, a / c, c);
    }
  }

  /** A later time in the same cell never comes before an earlier one. */
  lemma InterpolatedMonotone(cell: Cell, t: nat, u: nat)
    requires cell.first <= cell.last <= LAST_SECTOR && Bytes(cell.time) && t <= u < Ticks(cell.time)
    ensures Interpolated(cell, t) <= Interpolated(cell, u)
  {
    hide Ticks, Interpolated;
    InterpolatedInside(cell, t);
    InterpolatedInside(cell, u);
    var length := cell.last - cell.first + 1;
    ProductBelow(t, length, u, length);
    QuotientGrows(t * length, u * length, Ticks(cell.time));
  }

  /** A time is found in the cell whose interval of play time holds it, at a sector of
      that cell; it is not found exactly when it lies past the end of the last one. */
  lemma {:induction false} TimedInside(cells: seq<Cell>, from: int, n: int, last: int, target: nat)
    requires Clocked(cells, from, last) && from <= n <= last + 1
    ensures var r := Timed(cells, n, last, target);
            && r.Ok?
            && (r.value.None? <==> TimeBefore(cells, from, n) + target >= TimeBefore(cells, from, last + 1))
            && (r.value.Some? ==>
                 var (m, sector) := r.value.value;
                 && InPlay(cells, from, last, m, sector)
                 && TimeBefore(cells, from, m) <= TimeBefore(cells, from, n) + target < TimeBefore(cells, from, m + 1)
                 && sector == Interpolated(cells[m - 1], TimeBefore(cells, from, n) + target - TimeBefore(cells, from, m)))
    decreases last - n
  {
    hide Ticks, Interpolated, Length, Cut32, Bytes;
    if n <= last {
      var cell := cells[n - 1];
      if Skipped(cell) {
        TimedInside(cells, from, n + 1, last, target);
      } else if target >= Ticks(cell.time) {
        TimedInside(cells, from, n + 1, last, target - Ticks(cell.time));
      } else {
        InterpolatedInside(cell, target);
        TimeGrows(cells, from, n + 1, last + 1);
      }
    }
  }

  lemma {:induction false} TimeGrows(cells: seq<Cell>, from: int, n: int, m: int)
    requires from <= n <= m
    requires m <= |cells| + 1
    ensures TimeBefore(cells, from, n) <= TimeBefore(cells, from, m)
    decreases m - n
  {
    if n < m {
      TimeGrows(cells, from, n, m - 1);
    }
  }

  method SearchTime(d: Disc, p: Player, time: nat) returns (r: Outcome<Seek>)
    ensures r == TimeSearch(d, p, time)
  {
    hide Timed, Scanned, Wrap32, Cut32;
    if p.current.still != 0 || p.state.pgc.NoPgc? {
      return Ok(Refused);
    }
    var pgc := PgcOf(d, p.state.pgc);
    if !pgc.Ok? {
      return pgc.PropagateFailure();
    }
    var range := CellRange(pgc.value, p.state.pgN, p.pgcBased);
    if !range.Ok? {
      return range.PropagateFailure();
    }
    var found := FindTime(pgc.value.cells, range.value.0, Cut32(range.value.1), time);
    if !found.Ok? {
      return found.PropagateFailure();
    }
    var admap := AdmapOf(p.maps, p.state.domain);
    if found.value.None? || admap.None? {
      return Ok(Refused);
    }
    var n, sector := found.value.value.0, Cut32(found.value.value.1);
    if n < 1 || n > |pgc.value.cells| {
      return Abort;
    }
    var vobu := ScanAdmap(admap.value, sector, false);
    r := Ok(Hop(n, Wrap32(vobu - pgc.value.cells[n - 1].first)));
  }

  /** A time seek goes to the VOBU that holds the interpolated sector of the cell that
      plays at that time, and is refused exactly past the end. */
  lemma TimeSeekLands(d: Disc, p: Player, pgc: Pgc, from: int, last: int, admap: seq<nat>, time: nat)
    requires p.current.still == 0 && !p.state.pgc.NoPgc? && PgcOf(d, p.state.pgc) == Ok(pgc)
    requires CellRange(pgc, p.state.pgN, p.pgcBased) == Ok((from, last)) && from <= last
    requires Clocked(pgc.cells, from, last) && |pgc.cells| < 256
    requires AdmapOf(p.maps, p.state.domain) == Some(admap) && Sorted(admap)
    requires forall n {:trigger pgc.cells[n]} | 0 <= n < |pgc.cells| :: pgc.cells[n].first in admap
    ensures var r := TimeSearch(d, p, time);
            && r.Ok? && (r.value.Refused? <==> time >= TimeBefore(pgc.cells, from, last + 1))
            && (r.value.Hop? ==>
                 var n := r.value.cell;
                 && from <= n <= last && !Skipped(pgc.cells[n - 1])
                 && TimeBefore(pgc.cells, from, n) <= time < TimeBefore(pgc.cells, from, n + 1)
                 && InCell(pgc.cells[n - 1], time - TimeBefore(pgc.cells, from, n), admap, r.value.block))
  {
    hide Timed, HopTo, InCell, TimeBefore;
    TimedHop(pgc.cells, from, last, admap, time);
  }

  lemma TimedHop(cells: seq<Cell>, from: int, last: int, admap: seq<nat>, time: nat)
    requires Clocked(cells, from, last) && from <= last && Sorted(admap)
    requires forall n {:trigger cells[n]} | 0 <= n < |cells| :: cells[n].first in admap
    ensures var r := Timed(cells, from, last, time);
            && r.Ok? && (r.value.None? <==> time >= TimeBefore(cells, from, last + 1))
            && (r.value.Some? ==>
                 var (n, sector) := r.value.value;
                 && from <= n <= last && !Skipped(cells[n - 1])
                 && TimeBefore(cells, from, n) <= time < TimeBefore(cells, from, n + 1)
                 && var seek := HopTo(cells, admap, n, Cut32(sector));
                 && seek.cell == n && InCell(cells[n - 1], time - TimeBefore(cells, from, n), admap, seek.block))
  {
    hide Timed, Interpolated, HopTo, InCell, Ticks;
    TimedInside(cells, from, from, last, time);
    assert TimeBefore(cells, from, from) == 0;
    var found := Timed(cells, from, last, time);
    if found.value.Some? {
      var (n, sector) := found.value.value;
      HopsIntoCell(cells, admap, n, time - TimeBefore(cells, from, n));
    }
  }

  lemma HopsIntoCell(cells: seq<Cell>, admap: seq<nat>, n: nat, target: nat)
    requires 1 <= n <= |cells| && Sorted(admap) && cells[n - 1].first in admap
    requires cells[n - 1].first <= cells[n - 1].last <= LAST_SECTOR && Bytes(cells[n - 1].time)
    requires target < Ticks(cells[n - 1].time)
    ensures var sector := Cut32(Interpolated(cells[n - 1], target));
            InCell(cells[n - 1], target, admap, HopTo(cells, admap, n, sector).block)
  {
    hide Interpolated, Scanned, Ticks;
    InterpolatedInside(cells[n - 1], target);
    LandsInCell(cells, admap, n, Interpolated(cells[n - 1], target));
  }

  /** The block is where the VOBU that holds the sector played at that time starts. */
  ghost predicate InCell(cell: Cell, target: int, admap: seq<nat>, block: int) {
    && 0 <= target < Ticks(cell.time) && 0 <= block
    && cell.first <= Interpolated(cell, target) <= cell.last
    && GreatestUpTo(admap, cell.first + block, Interpolated(cell, target))
  }

  // The jump at the end of a seek

  /** Another position in the same chain, played anew: the part register follows, nothing else. */
  predicate Replayed(s: State, t: State) {
    t == s.(registers := s.registers.(sprm := s.registers.sprm[PTTN_REG := Reg(t, PTTN_REG)]),
            pgN := t.pgN, cellN := t.cellN, cellRestart := s.cellRestart + 1, blockN := t.blockN)
  }

  /** vm_jump_cell_block plays the cell at the block, unless the cell starts an angle
      block and another angle is selected: then that angle plays from its start. */
  lemma HopPlays(d: Disc, o: Oracle, s: State, pgc: Pgc, cell: int, block: int, fuel: nat)
    requires PgcOf(d, s.pgc) == Ok(pgc) && 1 <= cell <= |pgc.cells|
    requires Navigation.Begin(d, o, s, Navigation.JumpCellBlock(cell, block), fuel).Ok?
    ensures var begun := Navigation.Begin(d, o, s, Navigation.JumpCellBlock(cell, block), fuel).value;
            && begun.Hop? && begun.link == PLAY_THIS
            && var turn := Navigation.Process(d, o, begun.state, begun.link, fuel);
            && turn.Ok? && turn.value.Return?
            && var done := Navigation.Finally(d, o, turn.value.state, turn.value.hopped, begun.after, fuel);
            && done.Ok? && done.value.Done? && done.value.result && Replayed(s, done.value.state)
            && AngleCell(pgc, cell, Reg(s, AGL_REG)) == Ok(done.value.state.cellN)
            && done.value.state.blockN == if done.value.state.cellN == cell then block else 0
  {
    hide SetPGN;
    var moved := s.(cellN := cell);
    var played := PlayCell(d, o, moved, fuel);
    PlayedAt(d, o, moved, pgc, fuel);
    assert Navigation.Process(d, o, played.value.state, PLAY_THIS, fuel) ==
           Ok(Navigation.Return(played.value.state.(blockN := 0), true));
  }

  lemma PlayedAt(d: Disc, o: Oracle, s: State, pgc: Pgc, fuel: nat)
    requires PgcOf(d, s.pgc) == Ok(pgc) && 1 <= s.cellN <= |pgc.cells| && PlayCell(d, o, s, fuel).Ok?
    ensures var played := PlayCell(d, o, s, fuel).value;
            && played.link == PLAY_THIS && Replayed(s, played.state) && played.state.blockN == 0
            && AngleCell(pgc, s.cellN, Reg(s, AGL_REG)) == Ok(played.state.cellN)
  {
  }
}
