/**
 The player object: the navigation operations as they update its fields in
 place.  Each method is proved to take the state to where module Machine or
 Navigation says, from every state.
*/
module Player {
  import opened Bits
  import opened Decoder
  import opened CommandLists
  import opened Disc
  import opened Machine
  import opened Navigation
  import opened Positions
  import Searching
  import Seeks
  import opened Times

  /** How an operation came back: normally, by a failed assertion, or out of fuel. */
  datatype Status = Fine | Failed | OutOfFuel

  /** The status and results of a play operation are those of the outcome p. */
  predicate Shows(p: Outcome<Played>, status: Status, s: State, link: Link) {
    match status
    case Fine => p == Ok(Played(s, link))
    case Failed => p == Abort
    case OutOfFuel => p == Spent
  }

  predicate ShowsSet(p: Outcome<(bool, State)>, status: Status, found: bool, s: State) {
    match status
    case Fine => p == Ok((found, s))
    case Failed => p == Abort
    case OutOfFuel => p == Spent
  }

  predicate ShowsTurn(t: Outcome<Turn>, status: Status, s: State, done: bool, link: Link) {
    match status
    case Fine => t == if done then Ok(Return(s, false)) else Ok(Follow(s, link))
    case Failed => t == Abort
    case OutOfFuel => t == Spent
  }

  // Table searches

  lemma {:induction false} GetTTIs(titles: seq<Title>, vts: int, vtsTitle: int, tt: nat)
    requires tt <= |titles|
    requires tt > 0 ==> titles[tt - 1].vts == vts && titles[tt - 1].vtsTitle == vtsTitle
    requires forall k | 0 <= k < |titles| && (tt == 0 || k < tt - 1) :: titles[k].vts != vts || titles[k].vtsTitle != vtsTitle
    ensures tt == GetTT(titles, vts, vtsTitle)
  {
    if titles != [] && tt != 1 {
      assert titles[0].vts != vts || titles[0].vtsTitle != vtsTitle;
      GetTTIs(titles[1..], vts, vtsTitle, if tt == 0 then 0 else tt - 1);
    }
  }

  method FindTT(d: Disc, vtsN: int, vtsTitle: int) returns (tt: nat)
    ensures tt == GetTT(d.titles, vtsN, vtsTitle)
  {
    tt := 0;
    for i := 1 to |d.titles| + 1
      invariant tt == 0
      invariant forall k | 0 <= k < i - 1 :: d.titles[k].vts != vtsN || d.titles[k].vtsTitle != vtsTitle
    {
      if d.titles[i - 1].vts == vtsN && d.titles[i - 1].vtsTitle == vtsTitle {
        tt := i;
        break;
      }
    }
    GetTTIs(d.titles, vtsN, vtsTitle, tt);
  }

  lemma {:induction false} GetIDIs(table: PgcTable, id: nat, n: nat)
    requires n <= |table|
    requires n > 0 ==> table[n - 1].id == id
    requires forall k | 0 <= k < |table| && (n == 0 || k < n - 1) :: table[k].id != id
    ensures n == GetID(table, id)
  {
    if table != [] && n != 1 {
      assert table[0].id != id;
      GetIDIs(table[1..], id, if n == 0 then 0 else n - 1);
    }
  }

  method FindID(table: PgcTable, menu: nat) returns (pgcN: nat)
    ensures pgcN == GetID(table, Or(menu, 0x80))
  {
    var id := Or(menu, 0x80);
    pgcN := 0;
    for i := 0 to |table|
      invariant pgcN == 0
      invariant forall k | 0 <= k < i :: table[k].id != id
    {
      if table[i].id == id {
        pgcN := i + 1;
        break;
      }
    }
    GetIDIs(table, id, pgcN);
  }

  lemma {:induction false} FirstUnitIs(units: seq<LanguageUnit>, language: u16, i: nat)
    requires i <= |units| && (i < |units| ==> units[i].language == language)
    requires forall k | 0 <= k < i :: units[k].language != language
    ensures i == FirstUnit(units, language)
  {
    if i > 0 {
      FirstUnitIs(units[1..], language, i - 1);
    }
  }

  method FindUnit(units: seq<LanguageUnit>, language: u16) returns (unit: nat)
    ensures unit == UnitFor(units, language)
  {
    var i := 0;
    while i < |units| && units[i].language != language
      invariant 0 <= i <= |units|
      invariant forall k | 0 <= k < i :: units[k].language != language
    {
      i := i + 1;
    }
    FirstUnitIs(units, language, i);
    return if i == |units| then 0 else i;
  }

  lemma {:induction false} LeadingIs(programs: seq<nat>, cell: int, n: nat)
    requires n <= |programs| && (n < |programs| ==> programs[n] > cell)
    requires forall k | 0 <= k < n :: programs[k] <= cell
    ensures n == LeadingPrograms(programs, cell)
  {
    if n > 0 {
      LeadingIs(programs[1..], cell, n - 1);
    }
  }

  method FindLeading(programs: seq<nat>, cell: int) returns (n: nat)
    ensures n == LeadingPrograms(programs, cell)
  {
    n := 0;
    while n < |programs| && cell >= programs[n]
      invariant n <= |programs|
      invariant forall k | 0 <= k < n :: programs[k] <= cell
    {
      n := n + 1;
    }
    LeadingIs(programs, cell, n);
  }

  /** The nested search of vm_get_current_title_part: (title in the set, part), or (0, 0). */
  method SearchTitlePart(titles: seq<seq<Part>>, pgcn: int, pgn: int) returns (vtsTitle: nat, part: nat)
    ensures (vtsTitle, part) == FindTitlePart(titles, 0, pgcn, pgn)
  {
    var t, p, found := 0, 0, false;
    while t < |titles| && !found
      invariant t <= |titles| && !found
      invariant FindTitlePart(titles, t, pgcn, pgn) == FindTitlePart(titles, 0, pgcn, pgn)
    {
      p := 0;
      while p < |titles[t]| && !found
        invariant p <= |titles[t]| && !found
        invariant FindPart(titles[t], p, pgcn, pgn) == FindPart(titles[t], 0, pgcn, pgn)
        decreases |titles[t]| - p
      {
        if titles[t][p].pgcn == pgcn {
          if titles[t][p].pgn == pgn {
            found := true;
            break;
          }
          if p > 0 && titles[t][p].pgn > pgn && titles[t][p - 1].pgn < pgn {
            p := p - 1;
            found := true;
            break;
          }
        }
        p := p + 1;
      }
      if found {
        break;
      }
      t := t + 1;
    }
    return if found then t + 1 else 0, if found then p + 1 else 0;
  }

  lemma SlotIrrelevant(d: Disc, s: State, rsm: Resume)
    ensures GetPGCN(d, s.(rsm := rsm)) == GetPGCN(d, s)
  {
  }

  class Vm {
    const disc: Disc
    const oracle: Oracle
    var registers: Registers
    var tick: nat
    var domain: Domain
    var vtsi: nat
    var vtsN: int
    var pgc: PgcRef
    var pgcN: int
    var pgN: int
    var cellN: int
    var cellRestart: int
    var blockN: int
    var rsmVtsN: int
    var rsmBlockN: int
    var rsmRegs: seq<u16>
    var rsmPgcN: int
    var rsmCellN: int
    var hopChannel: int
    var stopped: bool

    function View(): State
      reads this
    {
      State(registers, tick, domain, vtsi, vtsN, pgc, pgcN, pgN, cellN, cellRestart, blockN,
            Resume(rsmVtsN, rsmBlockN, rsmRegs, rsmPgcN, rsmCellN), hopChannel, stopped)
    }

    // Get

    method GetPGCIT() returns (table: Option<TableId>)
      ensures table == CurrentTable(disc, View())
    {
      match domain
      case VtsTitle =>
        return if vtsi == 0 then None else Some(TitleTable(vtsi));
      case VtsMenu =>
        var menus := TitleSetAt(disc, vtsi).menus;
        if menus.None? {
          return None;
        }
        var unit := FindUnit(menus.value, registers.sprm[0]);
        return Some(VtsMenuTable(vtsi, unit));
      case _ =>
        if disc.menus.None? {
          return None;
        }
        var unit := FindUnit(disc.menus.value, registers.sprm[0]);
        return Some(VmgMenuTable(unit));
    }

    method FindPGCN() returns (status: Status, n: int)
      ensures match status
        case Fine => GetPGCN(disc, View()) == Ok(n)
        case Failed => GetPGCN(disc, View()) == Abort
        case OutOfFuel => false
    {
      var table := GetPGCIT();
      if table.Some? {
        var i := 1;
        while i <= |Entries(disc, table.value)|
          invariant 1 <= i <= |Entries(disc, table.value)| + 1
          invariant pgc.TableEntry? && pgc.table == table.value ==> !(1 <= pgc.n < i)
        {
          if TableEntry(table.value, i) == pgc {
            return if pgcN == i then Fine else Failed, i;
          }
          i := i + 1;
        }
      }
      return Fine, 0;
    }

    method GetCurrentTitlePart() returns (status: Status, found: bool, title: nat, part: nat)
      ensures match status
        case Fine => CurrentTitlePart(disc, View()) == Ok(if found then Some((title, part)) else None) && (!found ==> part == 0)
        case Failed => CurrentTitlePart(disc, View()) == Abort
        case OutOfFuel => false
    {
      found, title, part := false, 0, 0;
      if vtsi == 0 {
        return Failed, false, 0, 0;
      }
      var n;
      status, n := FindPGCN();
      if status == Fine {
        var vtsTitle;
        vtsTitle, part := SearchTitlePart(TitleSetAt(disc, vtsi).titles, Wrap16(n), Wrap16(pgN));
        found := part > 0;
        if found {
          title := FindTT(disc, vtsN, vtsTitle);
        }
      }
    }

    // Set

    method IfoOpenNewVTSI(n: int) returns (ok: bool)
      modifies this
      ensures (ok, View()) == OpenVtsi(disc, old(View()), n)
    {
      if vtsN == n {
        return true;
      }
      if 1 <= n <= |disc.titleSets| {
        vtsi, vtsN := n, n;
        return true;
      }
      vtsi := 0;
      return false;
    }

    method SetPgcN(n: int) returns (found: bool)
      modifies this
      ensures (found, View()) == SetPGCN(disc, old(View()), n)
    {
      var table := GetPGCIT();
      if table.None? {
        return false;
      }
      if n < 1 || n > |Entries(disc, table.value)| {
        return false;
      }
      pgc := TableEntry(table.value, n);
      pgcN := n;
      pgN := 1;
      if domain == VtsTitle {
        registers := With(registers, TT_PGCN_REG, n);
      }
      return true;
    }

    method SetPgN() returns (status: Status, inside: bool)
      modifies this
      ensures ShowsSet(SetPGN(disc, old(View())), status, inside, View())
    {
      var p := PgcOf(disc, pgc);
      inside := false;
      if p.Abort? {
        return Failed, false;
      }
      var newPgN := FindLeading(p.value.programs, cellN);
      if newPgN == |p.value.programs| && cellN > |p.value.cells| {
        return Fine, false;
      }
      pgN := newPgN;
      if domain == VtsTitle {
        if registers.sprm[TTN_REG] as int > |disc.titles| {
          return Fine, false;
        }
        var found, title, part;
        status, found, title, part := GetCurrentTitlePart();
        if status != Fine {
          return status, false;
        }
        registers := With(registers, PTTN_REG, part);
      }
      return Fine, true;
    }

    method SaveRegisters()
      modifies this`rsmRegs
      ensures rsmRegs == registers.sprm[4..9]
    {
      rsmRegs := [];
      for i := 0 to 5
        invariant rsmRegs == registers.sprm[4..4 + i]
      {
        rsmRegs := rsmRegs + [registers.sprm[4 + i]];
      }
    }

    method SetRsmInfo(cell: int, block: int) returns (status: Status)
      modifies this
      ensures match status
        case Fine => SetRSMinfo(disc, old(View()), cell, block) == Ok(View())
        case Failed => SetRSMinfo(disc, old(View()), cell, block) == Abort
        case OutOfFuel => false
    {
      hide CurrentTable, Entries;
      if cell != 0 {
        rsmCellN, rsmBlockN := cell, block;
      } else {
        rsmCellN, rsmBlockN := cellN, block;
      }
      rsmVtsN := vtsN;
      SlotIrrelevant(disc, old(View()), View().rsm);
      var n;
      status, n := FindPGCN();
      rsmPgcN := n;
      SaveRegisters();
    }

    method OpenTitleDomain(n: int) returns (ok: bool)
      modifies this
      ensures (ok, View()) == OpenVtsi(disc, old(View()).(domain := VtsTitle), n)
    {
      domain := VtsTitle;
      ok := IfoOpenNewVTSI(n);
    }

    method EnterTitle(n: int, vtsTitle: int, chain: int, program: int) returns (found: bool)
      modifies this
      ensures var (found', s) := SetPGCN(disc, SetReg(old(View()), VTS_TTN_REG, vtsTitle).(vtsN := n), chain);
        found == found' && View() == s.(pgN := program)
    {
      hide SetPGCN;
      registers := With(registers, VTS_TTN_REG, vtsTitle);
      vtsN := n;
      found := SetPgcN(chain);
      pgN := program;
    }

    method SetVtsPart(n: int, vtsTitle: int, part: int) returns (status: Status, found: bool)
      modifies this
      ensures ShowsSet(SetVtsPTT(disc, old(View()), n, vtsTitle, part), status, found, View())
    {
      hide GetTT, SetPGCN, OpenVtsi;
      var ok := OpenTitleDomain(n);
      if !ok {
        return Fine, false;
      }
      if vtsi == 0 {
        return Failed, false;
      }
      var titles := TitleSetAt(disc, vtsi).titles;
      if vtsTitle < 1 || vtsTitle > |titles| || part < 1 || part > |titles[vtsTitle - 1]| {
        return Fine, false;
      }
      var target: Part := titles[vtsTitle - 1][part - 1];
      registers := With(registers, TT_PGCN_REG, target.pgcn);
      registers := With(registers, PTTN_REG, part);
      var tt := FindTT(disc, n, vtsTitle);
      registers := With(registers, TTN_REG, tt);
      if registers.sprm[TTN_REG] == 0 {
        return Fine, false;
      }
      found := EnterTitle(n, vtsTitle, target.pgcn, target.pgn);
      return Fine, found;
    }

    method SetPart(tt: int, part: int) returns (status: Status, found: bool)
      modifies this
      ensures ShowsSet(SetPTT(disc, old(View()), tt, part), status, found, View())
    {
      if tt < 1 || tt > |disc.titles| {
        return Failed, false;
      }
      status, found := SetVtsPart(disc.titles[tt - 1].vts, disc.titles[tt - 1].vtsTitle, part);
    }

    method SetVtsProgram(n: int, vtsTitle: int, chain: int, program: int) returns (status: Status, found: bool)
      modifies this
      ensures ShowsSet(SetVtsPROG(disc, old(View()), n, vtsTitle, chain, program), status, found, View())
    {
      hide GetTT, SetPGCN, OpenVtsi, CurrentTitlePart;
      var ok := OpenTitleDomain(n);
      if !ok {
        return Fine, false;
      }
      if vtsi == 0 {
        return Failed, false;
      }
      if vtsTitle < 1 || vtsTitle > |TitleSetAt(disc, vtsi).titles| {
        return Fine, false;
      }
      registers := With(registers, TT_PGCN_REG, chain);
      var tt := FindTT(disc, n, vtsTitle);
      registers := With(registers, TTN_REG, tt);
      if registers.sprm[TTN_REG] == 0 {
        return Failed, false;
      }
      found := EnterTitle(n, vtsTitle, chain, program);
      var hit, title, part;
      status, hit, title, part := GetCurrentTitlePart();
      if status == Fine {
        registers := With(registers, PTTN_REG, part);
      }
    }

    method SetProgram(tt: int, chain: int, program: int) returns (status: Status, found: bool)
      modifies this
      ensures ShowsSet(SetPROG(disc, old(View()), tt, chain, program), status, found, View())
    {
      if tt < 1 || tt > |disc.titles| {
        return Failed, false;
      }
      status, found := SetVtsProgram(disc.titles[tt - 1].vts, disc.titles[tt - 1].vtsTitle, chain, program);
    }

    method SetFirstPlay() returns (found: bool)
      modifies this
      ensures (found, View()) == SetFpPGC(disc, old(View()))
    {
      domain := FirstPlay;
      if disc.firstPlay.None? {
        found := SetPgcN(1);
        return;
      }
      pgc := FirstPlayPgc;
      pgcN := disc.firstPlayNr;
      return true;
    }

    method SetMenu(menu: nat) returns (status: Status, found: bool)
      modifies this
      ensures ShowsSet(SetMENU(disc, old(View()), menu), status, found, View())
    {
      if domain != Vmgm && domain != VtsMenu {
        return Failed, false;
      }
      var table := GetPGCIT();
      if table.None? {
        return Failed, false;
      }
      var n := FindID(Entries(disc, table.value), menu);
      found := SetPgcN(n);
      status := Fine;
    }

    // Play

    /** Run a command list on the player's registers. */
    method Run(commands: seq<u64>) returns (result: Result)
      modifies this`registers, this`tick
      ensures result == Eval(commands, old(registers), oracle, old(tick))
      ensures !result.Aborts? ==> registers == result.registers && tick == result.tick
    {
      result := VmEvalCmd(commands, registers, oracle, tick);
      if !result.Aborts? {
        registers, tick := result.registers, result.tick;
      }
    }

    method PlayChainAt(program: int, fuel: nat) returns (status: Status, link: Link)
      modifies this
      ensures Shows(PlayPGCPG(disc, oracle, old(View()), program, fuel), status, View(), link)
      decreases fuel, 3
    {
      hide Eval, PlayPG;
      link := NO_LINK;
      var p := PgcOf(disc, pgc);
      if p.Abort? {
        return Failed, NO_LINK;
      }
      pgN, cellN, blockN := program, 0, 0;
      var result := Run(p.value.pre);
      match result
      case Aborts => return Failed, NO_LINK;
      case TakesLink(l, _, _) => return Fine, l;
      case FallsThrough(_, _) => status, link := PlayProgram(fuel);
    }

    method PlayChain(fuel: nat) returns (status: Status, link: Link)
      modifies this
      ensures Shows(PlayPGC(disc, oracle, old(View()), fuel), status, View(), link)
      decreases fuel, 4
    {
      status, link := PlayChainAt(1, fuel);
    }

    method PlayChainPost(fuel: nat) returns (status: Status, link: Link)
      modifies this
      ensures Shows(PlayPGCPost(disc, oracle, old(View()), fuel), status, View(), link)
      decreases fuel, 0
    {
      hide Eval, PlayPGC, SetPGCN;
      link := NO_LINK;
      var p := PgcOf(disc, pgc);
      if p.Abort? {
        return Failed, NO_LINK;
      }
      var result := Run(p.value.post);
      match result
      case Aborts => return Failed, NO_LINK;
      case TakesLink(l, _, _) => return Fine, l;
      case FallsThrough(_, _) =>
        var found := SetPgcN(p.value.next);
        if !found {
          return Fine, EXIT;
        }
        if fuel == 0 {
          return OutOfFuel, NO_LINK;
        }
        status, link := PlayChain(fuel - 1);
    }

    method PlayProgram(fuel: nat) returns (status: Status, link: Link)
      modifies this
      ensures Shows(PlayPG(disc, oracle, old(View()), fuel), status, View(), link)
      decreases fuel, 2
    {
      hide PlayPGCPost, Machine.PlayCell;
      link := NO_LINK;
      var p := PgcOf(disc, pgc);
      if p.Abort? || pgN <= 0 {
        return Failed, NO_LINK;
      }
      if pgN > |p.value.programs| {
        if pgN != |p.value.programs| + 1 {
          return Failed, NO_LINK;
        }
        status, link := PlayChainPost(fuel);
        return;
      }
      cellN := p.value.programs[pgN - 1];
      status, link := PlayCell(fuel);
    }

    /** Move cellN to the selected angle, when it is the first cell of a block. */
    method SelectAngleCell(p: Pgc) returns (ok: bool)
      requires 1 <= cellN <= |p.cells|
      modifies this`cellN
      ensures ok ==> AngleCell(p, old(cellN), registers.sprm[AGL_REG]) == Ok(cellN)
      ensures !ok ==> AngleCell(p, old(cellN), registers.sprm[AGL_REG]) == Abort
    {
      var angle := registers.sprm[AGL_REG];
      match p.cells[cellN - 1].mode
      case 0 =>
        return p.cells[cellN - 1].kind == 0;
      case 1 =>
        if p.cells[cellN - 1].kind != 1 {
          return false;
        }
        cellN := cellN + angle - 1;
        if cellN <= |p.cells| && cellN < 1 {
          return false;
        }
        if !(cellN <= |p.cells|) || !(p.cells[cellN - 1].mode != 0) || !(p.cells[cellN - 1].kind == 1) {
          cellN := cellN - angle + 1;
        }
        return true;
      case _ =>
        return true;
    }

    method PlayCell(fuel: nat) returns (status: Status, link: Link)
      modifies this
      ensures Shows(Machine.PlayCell(disc, oracle, old(View()), fuel), status, View(), link)
      decreases fuel, 1
    {
      hide PlayPGCPost, AngleCell, SetPGN;
      link := NO_LINK;
      var p := PgcOf(disc, pgc);
      if p.Abort? || cellN <= 0 {
        return Failed, NO_LINK;
      }
      if cellN > |p.value.cells| {
        if cellN != |p.value.cells| + 1 {
          return Failed, NO_LINK;
        }
        status, link := PlayChainPost(fuel);
        return;
      }
      var ok := SelectAngleCell(p.value);
      if !ok {
        return Failed, NO_LINK;
      }
      var inside;
      status, inside := SetPgN();
      if status != Fine {
        return status, NO_LINK;
      }
      if !inside {
        return Failed, NO_LINK;
      }
      cellRestart := cellRestart + 1;
      blockN := 0;
      return Fine, PLAY_THIS;
    }

    /** Move cellN behind the cell just played, over the other angles of its block. */
    method SkipCell(p: Pgc) returns (ok: bool)
      requires 1 <= cellN <= |p.cells|
      modifies this`cellN
      ensures ok ==> NextCell(p, old(cellN)) == Ok(cellN)
      ensures !ok ==> NextCell(p, old(cellN)) == Abort
    {
      var cell := p.cells[cellN - 1];
      if cell.mode == 0 {
        if cell.kind != 0 {
          return false;
        }
        cellN := cellN + 1;
        return true;
      }
      if cell.kind != 1 {
        return false;
      }
      ghost var start := cellN + 1;
      cellN := cellN + 1;
      while cellN <= |p.cells| && p.cells[cellN - 1].mode >= 2
        invariant start <= cellN <= |p.cells| + 1
        invariant SkipBlock(p.cells, cellN) == SkipBlock(p.cells, start)
        decreases |p.cells| - cellN
      {
        cellN := cellN + 1;
      }
      return true;
    }

    method PlayCellPost(fuel: nat) returns (status: Status, link: Link)
      modifies this
      ensures Shows(Machine.PlayCellPost(disc, oracle, old(View()), fuel), status, View(), link)
    {
      hide Eval, PlayPGCPost, Machine.PlayCell, NextCell, SetPGN;
      link := NO_LINK;
      var p := PgcOf(disc, pgc);
      if p.Abort? || cellN < 1 || cellN > |p.value.cells| {
        return Failed, NO_LINK;
      }
      var n := p.value.cells[cellN - 1].command;
      var commands := if n != 0 && |p.value.cellCommands| >= n then [p.value.cellCommands[n - 1]] else [];
      var result := Run(commands);
      match result {
        case Aborts => return Failed, NO_LINK;
        case TakesLink(l, _, _) => return Fine, l;
        case FallsThrough(_, _) =>
      }
      var ok := SkipCell(p.value);
      if !ok {
        return Failed, NO_LINK;
      }
      var inside;
      status, inside := SetPgN();
      if status != Fine {
        return status, NO_LINK;
      }
      if !inside {
        status, link := PlayChainPost(fuel);
      } else {
        status, link := PlayCell(fuel);
      }
    }

    // Links

    method PressButton(button: u16)
      modifies this`registers
      ensures View() == SelectButton(old(View()), button)
    {
      if button != 0 {
        registers := With(registers, HL_BTNN_REG, button * 1024);
      }
    }

    method FollowSibling(link: Link, chain: nat, fuel: nat) returns (status: Status, next: Link)
      modifies this
      ensures ShowsTurn(LinkSibling(disc, oracle, old(View()), link, chain, fuel), status, View(), false, next)
    {
      hide SetPGCN, PlayPGC;
      if chain == 0 {
        return Failed, NO_LINK;
      }
      var found := SetPgcN(chain);
      if !found {
        return Fine, link.(command := Exit);
      }
      status, next := PlayChain(fuel);
    }

    /** The slot's title set, chain and registers, and the link's button. */
    method RestoreSlot(button: u16) returns (ok: bool)
      modifies this
      ensures ok <==> OpenVtsi(disc, old(View()).(domain := VtsTitle), old(rsmVtsN)).0 && |old(rsmRegs)| == 5
      ensures ok ==> View() == ResumedState(disc, old(View()), button)
    {
      hide SetPGCN;
      ok := OpenTitleDomain(rsmVtsN);
      if !ok || |rsmRegs| != 5 {
        return false;
      }
      ghost var opened_ := View();
      var found := SetPgcN(rsmPgcN);
      ChainKeepsSlot(disc, opened_, opened_.rsm.pgcN);
      registers := registers.(sprm := registers.sprm[..4] + rsmRegs + registers.sprm[9..]);
      PressButton(button);
    }

    method FollowResume(link: Link, fuel: nat) returns (status: Status, next: Link)
      modifies this
      ensures ShowsTurn(LinkResume(disc, oracle, old(View()), link, fuel), status, View(), false, next)
    {
      hide ResumedState, OpenVtsi, PlayPG, SetPGN;
      if rsmVtsN == 0 {
        return Fine, link.(command := Exit);
      }
      ghost var slot := View().rsm;
      var ok := RestoreSlot(link.data1);
      if !ok {
        return Failed, NO_LINK;
      }
      assert View().rsm == slot by { ResumedSlot(disc, old(View()), link.data1); }
      if rsmCellN == 0 {
        if cellN == 0 {
          return Failed, NO_LINK;
        }
        pgN := 1;
        status, next := PlayProgram(fuel);
      } else {
        cellN := rsmCellN;
        next := Link(PlayThis, rsmBlockN % TWO16, rsmBlockN / TWO16 % TWO16, link.data3);
        var inside;
        status, inside := SetPgN();
        if status == Fine && !inside {
          status := Failed;
        }
      }
    }

    method FollowCellMove(link: Link, fuel: nat) returns (status: Status, next: Link)
      requires link.command == LinkTopC || link.command == LinkNextC || link.command == LinkPrevC || link.command == LinkCN
      modifies this
      ensures ShowsTurn(FollowMove(disc, oracle, old(View()), link, fuel), status, View(), false, next)
    {
      hide Machine.PlayCell, PlayPG, SelectButton;
      PressButton(if link.command == LinkCN then link.data2 else link.data1);
      if link.command == LinkNextC {
        cellN := cellN + 1;
      } else if link.command == LinkPrevC {
        if cellN <= 1 {
          return Failed, NO_LINK;
        }
        cellN := cellN - 1;
      } else if link.command == LinkCN {
        cellN := link.data1;
      }
      status, next := PlayCell(fuel);
    }

    method FollowProgramMove(link: Link, fuel: nat) returns (status: Status, next: Link)
      requires link.command == LinkTopPG || link.command == LinkNextPG || link.command == LinkPrevPG || link.command == LinkPGN
      modifies this
      ensures ShowsTurn(FollowMove(disc, oracle, old(View()), link, fuel), status, View(), false, next)
    {
      hide Machine.PlayCell, PlayPG, SelectButton;
      PressButton(if link.command == LinkPGN then link.data2 else link.data1);
      if link.command == LinkNextPG {
        pgN := pgN + 1;
      } else if link.command == LinkPrevPG {
        if pgN <= 1 {
          return Failed, NO_LINK;
        }
        pgN := pgN - 1;
      } else if link.command == LinkPGN {
        pgN := link.data1;
      }
      status, next := PlayProgram(fuel);
    }

    method FollowMoveLink(link: Link, fuel: nat) returns (status: Status, done: bool, next: Link)
      requires IsMove(link.command)
      modifies this
      ensures ShowsTurn(FollowMove(disc, oracle, old(View()), link, fuel), status, View(), done, next)
    {
      if link.command == LinkNoLink {
        PressButton(link.data1);
        return Fine, true, NO_LINK;
      }
      hide FollowMove;
      done := false;
      if link.command == LinkTopC || link.command == LinkNextC || link.command == LinkPrevC || link.command == LinkCN {
        status, next := FollowCellMove(link, fuel);
      } else {
        status, next := FollowProgramMove(link, fuel);
      }
    }

    method FollowPartLink(link: Link, fuel: nat) returns (status: Status, next: Link)
      requires link.command == LinkPTTN
      modifies this
      ensures ShowsTurn(FollowChain(disc, oracle, old(View()), link, fuel), status, View(), false, next)
    {
      hide PlayPG, SetVtsPTT;
      next := NO_LINK;
      if domain != VtsTitle {
        return Failed, NO_LINK;
      }
      PressButton(link.data2);
      assert View() == SelectButton(old(View()), link.data2);
      var found;
      status, found := SetVtsPart(vtsN, registers.sprm[VTS_TTN_REG], link.data1);
      if status == Fine {
        if !found {
          return Fine, link.(command := Exit);
        }
        status, next := PlayProgram(fuel);
      }
    }

    method FollowChainLink(link: Link, fuel: nat) returns (status: Status, done: bool, next: Link)
      requires !IsMove(link.command) && link.command != PlayThis
      modifies this
      ensures ShowsTurn(FollowChain(disc, oracle, old(View()), link, fuel), status, View(), done, next)
    {
      hide PlayPG, PlayPGC, PlayPGCPost, LinkSibling, LinkResume, SetVtsPTT, SetPGCN, SelectButton;
      done, next := false, NO_LINK;
      var p := PgcOf(disc, pgc);
      match link.command
      case LinkTopPGC => PressButton(link.data1); status, next := PlayChain(fuel);
      case LinkNextPGC =>
        if p.Abort? { return Failed, false, NO_LINK; }
        PressButton(link.data1);
        status, next := FollowSibling(link, p.value.next, fuel);
      case LinkPrevPGC =>
        if p.Abort? { return Failed, false, NO_LINK; }
        PressButton(link.data1);
        status, next := FollowSibling(link, p.value.prev, fuel);
      case LinkGoUpPGC =>
        if p.Abort? { return Failed, false, NO_LINK; }
        PressButton(link.data1);
        status, next := FollowSibling(link, p.value.goUp, fuel);
      case LinkTailPGC => PressButton(link.data1); status, next := PlayChainPost(fuel);
      case LinkRSM => status, next := FollowResume(link, fuel);
      case LinkPGCN =>
        var found := SetPgcN(link.data1);
        if !found { return Failed, false, NO_LINK; }
        status, next := PlayChain(fuel);
      case LinkPTTN => status, next := FollowPartLink(link, fuel);
      case Exit =>
        stopped := true;
        return Fine, true, NO_LINK;
      case _ =>
        return Fine, false, link;
    }

    /** The chain a setting found is played; one not found ends in Exit, or fails where the source asserts it. */
    method PlayIfFound(before: Status, found: bool, asserted: bool, link: Link, fuel: nat, ghost r: Outcome<(bool, State)>)
        returns (status: Status, next: Link)
      requires ShowsSet(r, before, found, View())
      modifies this
      ensures asserted ==> ShowsTurn(PlayAsserted(disc, oracle, r, fuel), status, View(), false, next)
      ensures !asserted ==> ShowsTurn(PlayFound(disc, oracle, r, link, fuel), status, View(), false, next)
    {
      hide PlayPGC;
      next := NO_LINK;
      if before != Fine {
        return before, NO_LINK;
      }
      if !found {
        if asserted {
          return Failed, NO_LINK;
        }
        return Fine, link.(command := Exit);
      }
      status, next := PlayChain(fuel);
    }

    method EnterMenu(link: Link, fuel: nat) returns (status: Status, next: Link)
      modifies this
      ensures ShowsTurn(EnterVtsMenu(disc, oracle, old(View()), link, fuel), status, View(), false, next)
    {
      hide PlayAsserted, SetMENU, GetTT;
      registers := With(registers, VTS_TTN_REG, link.data2);
      var tt := FindTT(disc, vtsN, registers.sprm[VTS_TTN_REG]);
      registers := With(registers, TTN_REG, tt);
      ghost var s := View();
      var found;
      status, found := SetMenu(link.data3);
      status, next := PlayIfFound(status, found, true, link, fuel, SetMENU(disc, s, link.data3));
    }

    method FollowVtsMenuLink(link: Link, fuel: nat) returns (status: Status, next: Link)
      modifies this
      ensures ShowsTurn(FollowVtsMenu(disc, oracle, old(View()), link, fuel), status, View(), false, next)
    {
      hide EnterVtsMenu, OpenVtsi;
      var vts := link.data1;
      if vts != 0 {
        if vts as int != vtsN {
          if domain != Vmgm && domain != FirstPlay {
            return Failed, NO_LINK;
          }
          var ok := IfoOpenNewVTSI(vts);
          if !ok {
            return Failed, NO_LINK;
          }
        } else if domain == VtsTitle {
          return Failed, NO_LINK;
        }
        if !VtsHasMenus(disc, View()) {
          return Fine, link.(command := Exit);
        }
        domain := VtsMenu;
      } else if domain != VtsMenu {
        return Failed, NO_LINK;
      }
      status, next := EnterMenu(link, fuel);
    }

    method FollowJumpLink(link: Link, fuel: nat) returns (status: Status, done: bool, next: Link)
      requires link.command != PlayThis
      modifies this
      ensures ShowsTurn(FollowJump(disc, oracle, old(View()), link, fuel), status, View(), done, next)
    {
      hide PlayAsserted, PlayFound, PlayPGCPG, SetPTT, SetVtsPTT, SetMENU, SetPGCN, SetFpPGC, FollowVtsMenu, FollowMove, FollowChain;
      done, next := false, NO_LINK;
      var found;
      ghost var s := View();
      if link.command == JumpTT {
        if domain != Vmgm && domain != FirstPlay { return Failed, false, NO_LINK; }
        status, found := SetPart(link.data1, 1);
        status, next := PlayIfFound(status, found, false, link, fuel, SetPTT(disc, s, link.data1, 1));
      } else if link.command == JumpVTS_TT {
        if domain != VtsMenu && domain != VtsTitle { return Failed, false, NO_LINK; }
        status, found := SetVtsPart(vtsN, link.data1, 1);
        status, next := PlayIfFound(status, found, false, link, fuel, SetVtsPTT(disc, s, s.vtsN, link.data1, 1));
      } else if link.command == JumpVTS_PTT {
        if domain != VtsMenu && domain != VtsTitle { return Failed, false, NO_LINK; }
        status, found := SetVtsPart(vtsN, link.data1, link.data2);
        if status == Fine {
          if !found { return Fine, false, link.(command := Exit); }
          status, next := PlayChainAt(pgN, fuel);
        }
      } else if link.command == JumpSS_FP {
        if domain != Vmgm && domain != VtsMenu { return Failed, false, NO_LINK; }
        found := SetFirstPlay();
        status, next := PlayIfFound(Fine, found, true, link, fuel, Ok(SetFpPGC(disc, s)));
      } else if link.command == JumpSS_VTSM {
        status, next := FollowVtsMenuLink(link, fuel);
      } else if link.command == JumpSS_VMGM_MENU || link.command == JumpSS_VMGM_PGC {
        if domain == VtsTitle { return Failed, false, NO_LINK; }
        if disc.menus.None? { return Fine, false, link.(command := Exit); }
        status, next := EnterVmgm(link.command == JumpSS_VMGM_MENU, link, fuel);
      } else if IsMove(link.command) {
        status, done, next := FollowMoveLink(link, fuel);
      } else {
        status, done, next := FollowChainLink(link, fuel);
      }
    }

    /** Go to the video manager's menus: to a menu by its kind, or to a chain by number. */
    method EnterVmgm(byKind: bool, link: Link, fuel: nat) returns (status: Status, next: Link)
      modifies this
      ensures var s := old(View()).(domain := Vmgm);
        var target := if byKind then SetMENU(disc, s, link.data1) else Ok(SetPGCN(disc, s, link.data1));
        ShowsTurn(PlayAsserted(disc, oracle, target, fuel), status, View(), false, next)
    {
      hide PlayAsserted, SetMENU, SetPGCN;
      domain := Vmgm;
      ghost var s := View();
      var found;
      if byKind {
        status, found := SetMenu(link.data1);
        status, next := PlayIfFound(status, found, true, link, fuel, SetMENU(disc, s, link.data1));
      } else {
        found := SetPgcN(link.data1);
        status, next := PlayIfFound(Fine, found, true, link, fuel, Ok(SetPGCN(disc, s, link.data1)));
      }
    }

    method EnterOwnMenu(link: Link, fuel: nat) returns (status: Status, next: Link)
      modifies this
      ensures var s := old(View()).(domain := VtsMenu);
        ShowsTurn(PlayAsserted(disc, oracle, SetMENU(disc, s, link.data1), fuel), status, View(), false, next)
    {
      hide PlayAsserted, SetMENU;
      domain := VtsMenu;
      ghost var s := View();
      var found;
      status, found := SetMenu(link.data1);
      status, next := PlayIfFound(status, found, true, link, fuel, SetMENU(disc, s, link.data1));
    }

    method EnterCall(link: Link, fuel: nat) returns (status: Status, next: Link)
      requires IsCall(link.command)
      modifies this
      ensures ShowsTurn(EnterCalled(disc, oracle, old(View()), link, fuel), status, View(), false, next)
    {
      hide PlayAsserted, PlayPGC, SetMENU, SetPGCN, SetFpPGC;
      if link.command == CallSS_FP {
        var found := SetFirstPlay();
        status, next := PlayChain(fuel);
      } else if link.command == CallSS_VTSM {
        status, next := EnterOwnMenu(link, fuel);
      } else {
        status, next := EnterVmgm(link.command == CallSS_VMGM_MENU, link, fuel);
      }
    }

    method FollowCallLink(link: Link, fuel: nat) returns (status: Status, next: Link)
      requires IsCall(link.command)
      modifies this
      ensures ShowsTurn(FollowCall(disc, oracle, old(View()), link, fuel), status, View(), false, next)
    {
      hide EnterCalled, SetRSMinfo;
      next := NO_LINK;
      if domain != VtsTitle {
        return Failed, NO_LINK;
      }
      if (link.command == CallSS_VMGM_MENU || link.command == CallSS_VMGM_PGC) && disc.menus.None? {
        return Fine, link.(command := Exit);
      }
      if link.command == CallSS_VTSM && !VtsHasMenus(disc, View()) {
        return Fine, link.(command := Exit);
      }
      status := SetRsmInfo(CallCell(link), 0);
      if status == Fine {
        status, next := EnterCall(link, fuel);
      }
    }

    /** process_command. The loop need not end, so it is given a number of turns. */
    method ProcessCommand(first: Link, turns: nat, fuel: nat) returns (status: Status, hopped: bool)
      modifies this
      ensures ShowsSet(Swapped(Loop(disc, oracle, old(View()), first, turns, fuel)), status, hopped, View())
    {
      hide FollowCall, FollowJump;
      hopped := false;
      var link := first;
      var left: nat := turns;
      while link.command != PlayThis && left > 0
        invariant Loop(disc, oracle, View(), link, left, fuel) == Loop(disc, oracle, old(View()), first, turns, fuel)
        invariant left <= turns
        decreases left
      {
        var done := false;
        ghost var before := View();
        if IsCall(link.command) {
          status, link := FollowCallLink(link, fuel);
        } else {
          status, done, link := FollowJumpLink(link, fuel);
        }
        if status != Fine || done {
          return;
        }
        left := left - 1;
      }
      if left == 0 {
        return OutOfFuel, false;
      }
      PlayThisReturns(disc, oracle, View(), link, fuel);
      blockN := Wrap32(link.data1 + link.data2 * TWO16);
      return Fine, true;
    }

    // Calls from outside. A call that follows links is given a number of turns.

    /** vm_start. */
    method StartPlaying(turns: nat, fuel: nat) returns (status: Status, playing: bool)
      modifies this
      ensures ShowsSet(Perform(disc, oracle, old(View()), Call.Start, turns, fuel), status, playing, View())
    {
      hide Loop, PlayPGC, SetFpPGC, ResetState;
      if stopped {
        ResetPlayer();
        stopped := false;
      }
      var found := SetFirstPlay();
      var link;
      status, link := PlayChain(fuel);
      playing := false;
      if status == Fine {
        status, playing := ProcessCommand(link, turns, fuel);
        playing := !stopped;
      }
    }

    /** vm_reset on an open disc. */
    method ResetPlayer()
      modifies this
      ensures View() == ResetState(old(View()))
    {
      registers := ResetRegisters();
      pgN, cellN, cellRestart := 0, 0, 0;
      domain := FirstPlay;
      rsmVtsN, rsmCellN, rsmBlockN := 0, 0, 0;
      vtsN := -1;
      hopChannel := 0;
    }

    /** vm_get_next_cell. */
    method GoToNextCell(turns: nat, fuel: nat) returns (status: Status, done: bool)
      modifies this
      ensures ShowsSet(Perform(disc, oracle, old(View()), Call.GetNextCell, turns, fuel), status, done, View())
    {
      hide Loop, Machine.PlayCellPost;
      var link;
      status, link := PlayCellPost(fuel);
      done := false;
      if status == Fine {
        status, done := ProcessCommand(link, turns, fuel);
        done := true;
      }
    }

    /** vm_jump_pg. */
    method GoToProgram(program: int, turns: nat, fuel: nat) returns (status: Status, hopped: bool)
      modifies this
      ensures var played := PlayPG(disc, oracle, old(View()).(pgN := program), fuel);
              ShowsSet(Follows(disc, oracle, played, turns, fuel), status, hopped, View())
    {
      hide Loop, PlayPG;
      pgN := program;
      var link;
      status, link := PlayProgram(fuel);
      hopped := false;
      if status == Fine {
        status, hopped := ProcessCommand(link, turns, fuel);
      }
    }

    /** vm_jump_cell_block: an angle may lead to another cell, which then keeps its start. */
    method GoToCellBlock(cell: int, block: int, turns: nat, fuel: nat) returns (status: Status, done: bool)
      modifies this
      ensures ShowsSet(Perform(disc, oracle, old(View()), JumpCellBlock(cell, block), turns, fuel), status, done, View())
    {
      hide Loop, Machine.PlayCell;
      cellN := cell;
      var link;
      status, link := PlayCell(fuel);
      done := false;
      if status == Fine {
        status, done := ProcessCommand(link, turns, fuel);
        done := true;
        if status == Fine && cellN == cell {
          blockN := block;
        }
      }
    }

    /** The end of both title jumps: a jump out of the pre-commands is ignored. */
    method PlayWhateverHappens(turns: nat, fuel: nat) returns (status: Status, hopped: bool)
      modifies this
      ensures ShowsSet(FollowsBegun(disc, oracle, PlayRegardless(disc, oracle, old(View()), fuel), turns, fuel),
                       status, hopped, View())
    {
      hide Loop, PlayPG, PlayPGCPG;
      var link;
      status, link := PlayChainAt(pgN, fuel);
      hopped := false;
      if status == Fine && link.command != PlayThis {
        status, link := PlayProgram(fuel);
      }
      if status == Fine {
        status, hopped := ProcessCommand(link, turns, fuel);
      }
    }

    /** vm_jump_title_part. */
    method GoToTitlePart(title: int, part: int, turns: nat, fuel: nat) returns (status: Status, done: bool)
      modifies this
      ensures ShowsSet(Perform(disc, oracle, old(View()), JumpTitlePart(title, part), turns, fuel), status, done, View())
    {
      hide Loop, PlayRegardless, SetPTT;
      RegardlessHops(disc, oracle, fuel);
      status, done := SetPart(title, part);
      if status == Fine && done {
        status, done := PlayWhateverHappens(turns, fuel);
        done := true;
      }
    }

    /** vm_jump_title_program. */
    method GoToTitleProgram(title: int, chain: int, program: int, turns: nat, fuel: nat)
      returns (status: Status, done: bool)
      modifies this
      ensures ShowsSet(Perform(disc, oracle, old(View()), JumpTitleProgram(title, chain, program), turns, fuel),
                       status, done, View())
    {
      hide Loop, PlayRegardless, SetPROG;
      RegardlessHops(disc, oracle, fuel);
      status, done := SetProgram(title, chain, program);
      if status == Fine && done {
        status, done := PlayWhateverHappens(turns, fuel);
        done := true;
      }
    }

    /** vm_jump_top_pg. */
    method GoToTopProgram(turns: nat, fuel: nat) returns (status: Status, done: bool)
      modifies this
      ensures ShowsSet(Perform(disc, oracle, old(View()), TopPg, turns, fuel), status, done, View())
    {
      hide Loop, PlayPG;
      var link;
      status, link := PlayProgram(fuel);
      done := false;
      if status == Fine {
        status, done := ProcessCommand(link, turns, fuel);
        done := true;
      }
    }

    /** vm_jump_next_pg. */
    method GoToNextProgram(turns: nat, fuel: nat) returns (status: Status, done: bool)
      modifies this
      ensures ShowsSet(Perform(disc, oracle, old(View()), NextPg, turns, fuel), status, done, View())
    {
      hide Loop, PlayPG, PlayPGCPost;
      done := false;
      var p := PgcOf(disc, pgc);
      if p.Abort? {
        return Failed, false;
      }
      if pgN >= |p.value.programs| {
        var link;
        status, link := PlayChainPost(fuel);
        if status == Fine {
          status, done := ProcessCommand(link, turns, fuel);
        }
      } else {
        status, done := GoToProgram(pgN + 1, turns, fuel);
      }
      done := true;
    }

    /** vm_jump_prev_pg: before the first program comes the last one of the previous PGC. */
    method GoToPreviousProgram(turns: nat, fuel: nat) returns (status: Status, done: bool)
      modifies this
      ensures ShowsSet(Perform(disc, oracle, old(View()), PrevPg, turns, fuel), status, done, View())
    {
      hide Loop, PlayPG, PlayPGC, SetPGCN;
      done := true;
      var hopped;
      if pgN > 1 {
        status, hopped := GoToProgram(pgN - 1, turns, fuel);
        return;
      }
      var p := PgcOf(disc, pgc);
      if p.Abort? {
        return Failed, false;
      }
      var found := false;
      if p.value.prev != 0 {
        found := SetPgcN(p.value.prev);
      }
      if !found {
        return Fine, false;
      }
      status, hopped := PlayAndFollow(turns, fuel);
      if status == Fine {
        var now := PgcOf(disc, pgc);
        if now.Abort? {
          return Failed, false;
        }
        status, hopped := GoToProgram(|now.value.programs|, turns, fuel);
      }
    }

    /** play_PGC and the link loop. */
    method PlayAndFollow(turns: nat, fuel: nat) returns (status: Status, hopped: bool)
      modifies this
      ensures ShowsSet(Follows(disc, oracle, PlayPGC(disc, oracle, old(View()), fuel), turns, fuel), status, hopped, View())
    {
      hide Loop, PlayPGC;
      var link;
      status, link := PlayChain(fuel);
      hopped := false;
      if status == Fine {
        status, hopped := ProcessCommand(link, turns, fuel);
      }
    }

    /** vm_jump_up. */
    method GoUpwards(turns: nat, fuel: nat) returns (status: Status, done: bool)
      modifies this
      ensures ShowsSet(Perform(disc, oracle, old(View()), GoUp, turns, fuel), status, done, View())
    {
      hide Loop, PlayPGC, SetPGCN;
      done := false;
      var p := PgcOf(disc, pgc);
      if p.Abort? {
        return Failed, false;
      }
      if p.value.goUp != 0 {
        done := SetPgcN(p.value.goUp);
      }
      if !done {
        return Fine, false;
      }
      var hopped;
      status, hopped := PlayAndFollow(turns, fuel);
    }

    /** Entering the menu domain for vm_jump_menu. */
    method EnterMenuDomain(menu: Menu) returns (status: Status, found: bool)
      modifies this
      ensures ShowsSet(MenuEntered(disc, old(View()), menu), status, found, View())
    {
      hide SetMENU, SetRSMinfo;
      if domain == FirstPlay {
        return Fine, false;
      }
      var left := domain;
      if domain == VtsTitle {
        status := SetRsmInfo(0, blockN);
        if status != Fine {
          return status, false;
        }
      }
      var id: nat := 2;
      if menu.OtherMenu? {
        if !VtsHasMenus(disc, View()) {
          return Fine, false;
        }
        id := menu.id;
        domain := VtsMenu;
      } else {
        if disc.menus.None? {
          return Fine, false;
        }
        id := if menu.TitleMenu? then 2 else 0;
        domain := Vmgm;
      }
      status, found := SetMenu(id);
      if status == Fine && !found {
        domain := left;
      }
    }

    /** vm_jump_menu. */
    method GoToMenu(menu: Menu, turns: nat, fuel: nat) returns (status: Status, done: bool)
      modifies this
      ensures ShowsSet(Perform(disc, oracle, old(View()), JumpMenu(menu), turns, fuel), status, done, View())
    {
      hide Perform, Loop, PlayPGC, MenuEntered;
      MenuPerforms(disc, oracle, View(), menu, turns, fuel);
      status, done := EnterMenuDomain(menu);
      if status == Fine && done {
        status, done := PlayAndFollow(turns, fuel);
        done := true;
      }
    }

    /** vm_jump_resume. */
    method GoBack(turns: nat, fuel: nat) returns (status: Status, hopped: bool)
      modifies this
      ensures ShowsSet(Perform(disc, oracle, old(View()), JumpResume, turns, fuel), status, hopped, View())
    {
      hide Loop;
      if rsmVtsN == 0 {
        return Fine, false;
      }
      status, hopped := ProcessCommand(Link(LinkRSM, 0, 0, 0), turns, fuel);
    }

    /** vm_exec_cmd. */
    method Execute(command: u64, turns: nat, fuel: nat) returns (status: Status, hopped: bool)
      modifies this
      ensures ShowsSet(Perform(disc, oracle, old(View()), ExecCommand(command), turns, fuel), status, hopped, View())
    {
      hide Loop, Eval;
      hopped := false;
      var result := Run([command]);
      if result.Aborts? {
        return Failed, false;
      }
      if result.FallsThrough? {
        return Fine, false;
      }
      status, hopped := ProcessCommand(result.link, turns, fuel);
    }

    /** The end of both seeks: the jump, and a seek's step of the hop counter. */
    method FinishSeek(seek: Searching.Seek, turns: nat, fuel: nat) returns (status: Status, done: bool)
      modifies this
      ensures ShowsSet(Seeks.JumpTo(disc, oracle, old(View()), seek, turns, fuel), status, done, View())
    {
      hide Perform;
      if seek.Refused? {
        return Fine, false;
      }
      status, done := GoToCellBlock(seek.cell, seek.block, turns, fuel);
      if status == Fine {
        hopChannel := hopChannel + HOP_SEEK;
        done := true;
      }
    }

    // Queries of the event pump

    /** vm_get_angle_info. */
    method GetAngleInfo() returns (status: Status, current: int, available: int)
      ensures status == if Angles(disc, View()).Ok? then Fine else Failed
      ensures status == Fine ==> Angles(disc, View()) == Ok((current, available))
    {
      current, available := 1, 1;
      if domain == VtsTitle {
        var tt := registers.sprm[TTN_REG] as int;
        if tt > |disc.titles| {
          return Fine, 1, 1;
        }
        if tt < 1 {
          return Failed, 1, 1;
        }
        var title := disc.titles[tt - 1];
        if title.vts != vtsN || title.vtsTitle != registers.sprm[VTS_TTN_REG] as int {
          return Fine, 1, 1;
        }
        available := title.angles;
        current := registers.sprm[AGL_REG];
      }
      return Fine, current, available;
    }

    /** vm_position_get: a cell without a still but with far more time than sectors gets one. */
    method GetPosition() returns (status: Status, position: Position)
      ensures status == if PositionOf(disc, View()).Ok? then Fine else Failed
      ensures status == Fine ==> PositionOf(disc, View()) == Ok(position)
    {
      hide Digits;
      position := Position(registers.sprm[HL_BTNN_REG] / 1024, vtsN, domain, registers.sprm[2], registers.sprm[1],
                           registers.sprm[AGL_REG], hopChannel, cellN, cellRestart, 0, 0, blockN);
      var p := PgcOf(disc, pgc);
      if p.Abort? || cellN < 1 || cellN > |p.value.cells| {
        return Failed, position;
      }
      var cell := p.value.cells[cellN - 1];
      var still := cell.still;
      if cellN == |p.value.cells| {
        still := still + p.value.still;
      }
      var size := (cell.last - cell.first) % TWO32;
      if still == 0 && cell.last == cell.lastVobu && size < 1024 {
        var time := Digits(cell.time.hour) * 3600;
        time := time + Digits(cell.time.minute) * 60;
        time := time + Digits(cell.time.second);
        if time != 0 {
          RateAbove(size, time);
        }
        if time != 0 && size / time <= 30 {
          still := if time > 0xff then 0xff else time;
        }
      }
      position := position.(cellStart := cell.first, still := still);
      return Fine, position;
    }
  }

  lemma RegardlessHops(d: Disc, o: Oracle, fuel: nat)
    ensures forall s {:trigger PlayRegardless(d, o, s, fuel)} ::
              PlayRegardless(d, o, s, fuel).Ok? ==>
                PlayRegardless(d, o, s, fuel).value.Hop? && PlayRegardless(d, o, s, fuel).value.after == Nothing
  {
  }

  /** The part of vm_jump_menu before the menu plays. */
  function MenuEntered(d: Disc, s: State, menu: Menu): Outcome<(bool, State)> {
    if s.domain == FirstPlay then Ok((false, s))
    else
      var s1 :- if s.domain == VtsTitle then SetRSMinfo(d, s, 0, s.blockN) else Ok(s);
      if if menu.OtherMenu? then !VtsHasMenus(d, s1) else d.menus.None? then Ok((false, s1))
      else
        var id := match menu case TitleMenu => 2 case EscapeMenu => 0 case OtherMenu(id) => id;
        var (found, s2) :- SetMENU(d, s1.(domain := if menu.OtherMenu? then VtsMenu else Vmgm), id);
        Ok((found, if found then s2 else s2.(domain := s.domain)))
  }

  lemma MenuIsEntered(d: Disc, o: Oracle, s: State, menu: Menu, fuel: nat)
    ensures var entered, begun := MenuEntered(d, s, menu), BeginMenu(d, o, s, menu, fuel);
            if entered.Abort? then begun == Abort
            else if entered.Spent? then begun == Spent
            else if entered.value.0 then begun == Hopping(PlayPGC(d, o, entered.value.1, fuel), Nothing)
            else begun == Ok(Begun.Done(entered.value.1, false))
  {
    hide SetMENU, SetRSMinfo, PlayPGC;
  }

  /** The call answers 1, whatever the link loop answered. */
  function Hopped(r: Outcome<(bool, State)>): Outcome<(bool, State)> {
    var p :- r;
    Ok((true, p.1))
  }

  lemma MenuPerforms(d: Disc, o: Oracle, s: State, menu: Menu, turns: nat, fuel: nat)
    ensures var entered := MenuEntered(d, s, menu);
            Perform(d, o, s, JumpMenu(menu), turns, fuel) ==
            if entered.Ok? && entered.value.0 then
              Hopped(Follows(d, o, PlayPGC(d, o, entered.value.1, fuel), turns, fuel))
            else entered
  {
    hide Loop, PlayPGC, MenuEntered, BeginMenu;
    MenuIsEntered(d, o, s, menu, fuel);
  }

  /** A play operation and the link loop that follows it. */
  function Follows(d: Disc, o: Oracle, played: Outcome<Played>, turns: nat, fuel: nat): Outcome<(bool, State)> {
    var p :- played;
    Swapped(Loop(d, o, p.state, p.link, turns, fuel))
  }

  function FollowsBegun(d: Disc, o: Oracle, begun: Outcome<Begun>, turns: nat, fuel: nat): Outcome<(bool, State)> {
    var b :- begun;
    match b
    case Done(s, result) => Ok((result, s))
    case Hop(s, link, _) => Swapped(Loop(d, o, s, link, turns, fuel))
  }

  function Swapped(r: Outcome<(State, bool)>): Outcome<(bool, State)> {
    var (s, b) :- r;
    Ok((b, s))
  }

  lemma PlayThisReturns(d: Disc, o: Oracle, s: State, link: Link, fuel: nat)
    requires link.command == PlayThis
    ensures Process(d, o, s, link, fuel) == Ok(Return(s.(blockN := Wrap32(link.data1 + link.data2 * TWO16)), true))
  {
  }

  lemma ChainKeepsSlot(d: Disc, s: State, n: int)
    ensures SetPGCN(d, s, n).1.rsm == s.rsm
  {
  }

  lemma ResumedSlot(d: Disc, s: State, button: u16)
    requires |s.rsm.regs| == 5
    ensures ResumedState(d, s, button).rsm == s.rsm
  {
  }
}
