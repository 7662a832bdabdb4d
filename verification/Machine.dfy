/**
 The navigation state machine: what each play, set and get operation makes of
 the player's state.  A failed C assertion, and an access outside a table, is
 the outcome Abort.  The play operations call each other through next PGCs
 without bound; `fuel` counts those hops and Spent says it ran out.
*/
module Machine {
  import opened Bits
  import opened Decoder
  import opened CommandLists
  import opened Disc

  datatype Outcome<+T> = Abort | Spent | Ok(value: T) {
    predicate IsFailure() { !Ok? }

    function PropagateFailure<U>(): Outcome<U>
      requires IsFailure()
    {
      if Abort? then Abort else Spent
    }

    function Extract(): T
      requires Ok?
    {
      value
    }
  }

  datatype Domain = FirstPlay | VtsTitle | VtsMenu | Vmgm

  /** The one-deep resume slot. */
  datatype Resume = Resume(vtsN: int, blockN: int, regs: seq<u16>, pgcN: int, cellN: int)

  /** The player: registers, position, resume slot. `vtsi` is the title set
      whose tables are open (0 for none) and `tick` counts commands run. */
  datatype State = State(
    registers: Registers, tick: nat,
    domain: Domain, vtsi: nat, vtsN: int, pgc: PgcRef, pgcN: int, pgN: int, cellN: int,
    cellRestart: int, blockN: int, rsm: Resume, hopChannel: int, stopped: bool)

  const AGL_REG := 3
  const TTN_REG := 4
  const VTS_TTN_REG := 5
  const TT_PGCN_REG := 6
  const PTTN_REG := 7
  const HL_BTNN_REG := 8

  function Reg(s: State, k: nat): u16
    requires k < 24
  {
    s.registers.sprm[k]
  }

  /** The register file with a system register assigned: values are cut to 16 bits. */
  function With(r: Registers, k: nat, value: int): Registers
    requires k < 24
  {
    r.(sprm := r.sprm[k := value % TWO16])
  }

  function SetReg(s: State, k: nat, value: int): State
    requires k < 24
  {
    s.(registers := With(s.registers, k, value))
  }

  // Get

  /** First unit of the language, or the first unit. */
  function UnitFor(units: seq<LanguageUnit>, language: u16): (u: nat)
    ensures |units| > 0 ==> u < |units|
  {
    var found := FirstUnit(units, language);
    if found == |units| then 0 else found
  }

  function FirstUnit(units: seq<LanguageUnit>, language: u16): (u: nat)
    ensures u <= |units|
    ensures u < |units| ==> units[u].language == language
    ensures forall k | 0 <= k < u :: units[k].language != language
  {
    if units == [] || units[0].language == language then 0 else 1 + FirstUnit(units[1..], language)
  }

  /** The PGC table of the current domain, when there is one. */
  function CurrentTable(d: Disc, s: State): Option<TableId> {
    match s.domain
    case VtsTitle => if s.vtsi == 0 then None else Some(TitleTable(s.vtsi))
    case VtsMenu =>
      var menus := TitleSetAt(d, s.vtsi).menus;
      if menus.None? then None else Some(VtsMenuTable(s.vtsi, UnitFor(menus.value, Reg(s, 0))))
    case _ =>
      if d.menus.None? then None else Some(VmgMenuTable(UnitFor(d.menus.value, Reg(s, 0))))
  }

  function PgcOf(d: Disc, ref: PgcRef): Outcome<Pgc> {
    match ref
    case NoPgc => Abort
    case FirstPlayPgc => if d.firstPlay.Some? then Ok(d.firstPlay.value) else Abort
    case TableEntry(table, n) => if 1 <= n <= |Entries(d, table)| then Ok(Entries(d, table)[n - 1].pgc) else Abort
  }

  function GetPGCN(d: Disc, s: State): Outcome<int> {
    var table := CurrentTable(d, s);
    if table.Some? && s.pgc.TableEntry? && s.pgc.table == table.value && 1 <= s.pgc.n <= |Entries(d, table.value)| then
      if s.pgcN == s.pgc.n then Ok(s.pgcN) else Abort
    else
      Ok(0)
  }

  /** The first title that is (vts, vtsTitle), counted from 1; 0 when there is none. */
  function GetTT(titles: seq<Title>, vts: int, vtsTitle: int): (tt: nat)
    ensures tt <= |titles|
    ensures tt > 0 ==> titles[tt - 1].vts == vts && titles[tt - 1].vtsTitle == vtsTitle
    ensures forall k | 0 <= k < |titles| && (tt == 0 || k < tt - 1) ::
      titles[k].vts != vts || titles[k].vtsTitle != vtsTitle
  {
    if titles == [] then 0
    else if titles[0].vts == vts && titles[0].vtsTitle == vtsTitle then 1
    else var rest := GetTT(titles[1..], vts, vtsTitle); if rest == 0 then 0 else rest + 1
  }

  /** The first entry with the id, counted from 1; 0 when there is none. */
  function GetID(table: PgcTable, id: nat): (n: nat)
    ensures n <= |table|
    ensures n > 0 ==> table[n - 1].id == id
    ensures forall k | 0 <= k < |table| && (n == 0 || k < n - 1) :: table[k].id != id
  {
    if table == [] then 0
    else if table[0].id == id then 1
    else var rest := GetID(table[1..], id); if rest == 0 then 0 else rest + 1
  }

  /** A C int16_t holding x. */
  function Wrap16(x: int): int {
    (x + 0x8000) % TWO16 - 0x8000
  }

  /** Part j of the list is where program pgn of chain pgcn lies: by name, or because the
      previous part starts before the program and part j after it. */
  predicate PartHit(parts: seq<Part>, j: nat, pgcn: int, pgn: int)
    requires j < |parts|
  {
    parts[j].pgcn == pgcn && (parts[j].pgn == pgn || PartBetween(parts, j, pgn))
  }

  predicate PartBetween(parts: seq<Part>, j: nat, pgn: int)
    requires j < |parts|
  {
    j > 0 && parts[j].pgn > pgn && parts[j - 1].pgn < pgn
  }

  /** The part, counted from 1, at the first hit from j on; 0 without one. */
  function FindPart(parts: seq<Part>, j: nat, pgcn: int, pgn: int): nat
    decreases |parts| - j
  {
    if j >= |parts| then 0
    else if PartHit(parts, j, pgcn, pgn) then (if parts[j].pgn == pgn then j + 1 else j)
    else FindPart(parts, j + 1, pgcn, pgn)
  }

  /** (title within the set, part) of the first title from t on with a hit; (0, 0) without one. */
  function FindTitlePart(titles: seq<seq<Part>>, t: nat, pgcn: int, pgn: int): (nat, nat)
    decreases |titles| - t
  {
    if t >= |titles| then (0, 0)
    else
      var part := FindPart(titles[t], 0, pgcn, pgn);
      if part > 0 then (t + 1, part) else FindTitlePart(titles, t + 1, pgcn, pgn)
  }

  /** vm_get_current_title_part: (title, part), or None when the chapter is not found. */
  function CurrentTitlePart(d: Disc, s: State): Outcome<Option<(nat, nat)>> {
    if s.vtsi == 0 then Abort else
    var pgcn :- GetPGCN(d, s);
    var (vtsTitle, part) := FindTitlePart(TitleSetAt(d, s.vtsi).titles, 0, Wrap16(pgcn), Wrap16(s.pgN));
    if part == 0 then Ok(None) else Ok(Some((GetTT(d.titles, s.vtsN, vtsTitle), part)))
  }

  /** The part number only, 0 when it is not found. */
  function CurrentPart(d: Disc, s: State): Outcome<nat> {
    var found :- CurrentTitlePart(d, s);
    Ok(if found.Some? then found.value.1 else 0)
  }

  // Set

  function OpenVtsi(d: Disc, s: State, vtsN: int): (bool, State) {
    if s.vtsN == vtsN then (true, s)
    else if 1 <= vtsN <= |d.titleSets| then (true, s.(vtsi := vtsN, vtsN := vtsN))
    else (false, s.(vtsi := 0))
  }

  function SetPGCN(d: Disc, s: State, pgcN: int): (bool, State) {
    var table := CurrentTable(d, s);
    if table.None? || pgcN < 1 || pgcN > |Entries(d, table.value)| then (false, s)
    else
      var s' := s.(pgc := TableEntry(table.value, pgcN), pgcN := pgcN, pgN := 1);
      (true, if s.domain == VtsTitle then SetReg(s', TT_PGCN_REG, pgcN) else s')
  }

  /** The number of leading programs entered at or before `cell`. */
  function LeadingPrograms(programs: seq<nat>, cell: int): (n: nat)
    ensures n <= |programs|
    ensures forall k | 0 <= k < n :: programs[k] <= cell
    ensures n < |programs| ==> programs[n] > cell
  {
    if programs == [] || programs[0] > cell then 0 else 1 + LeadingPrograms(programs[1..], cell)
  }

  /** Program and part from the cell; false when the cell lies past the end. */
  function SetPGN(d: Disc, s: State): Outcome<(bool, State)> {
    var pgc :- PgcOf(d, s.pgc);
    var pgN := LeadingPrograms(pgc.programs, s.cellN);
    if pgN == |pgc.programs| && s.cellN > |pgc.cells| then Ok((false, s))
    else
      var s' := s.(pgN := pgN);
      if s.domain != VtsTitle then Ok((true, s'))
      else if Reg(s, TTN_REG) > |d.titles| then Ok((false, s'))
      else
        var part :- CurrentPart(d, s');
        Ok((true, SetReg(s', PTTN_REG, part)))
  }

  function SetRSMinfo(d: Disc, s: State, cellN: int, blockN: int): Outcome<State> {
    var pgcN :- GetPGCN(d, s);
    Ok(s.(rsm := Resume(s.vtsN, blockN, s.registers.sprm[4..9], pgcN, if cellN != 0 then cellN else s.cellN)))
  }

  function SetVtsPTT(d: Disc, s: State, vtsN: int, vtsTitle: int, part: int): Outcome<(bool, State)> {
    var (opened_, s1) := OpenVtsi(d, s.(domain := VtsTitle), vtsN);
    if !opened_ then Ok((false, s1))
    else if s1.vtsi == 0 then Abort
    else
      var titles := TitleSetAt(d, s1.vtsi).titles;
      if vtsTitle < 1 || vtsTitle > |titles| || part < 1 || part > |titles[vtsTitle - 1]| then Ok((false, s1))
      else
        var target := titles[vtsTitle - 1][part - 1];
        var tt := GetTT(d.titles, vtsN, vtsTitle);
        var s2 := SetReg(SetReg(SetReg(s1, TT_PGCN_REG, target.pgcn), PTTN_REG, part), TTN_REG, tt);
        if Reg(s2, TTN_REG) == 0 then Ok((false, s2))
        else
          var (found, s3) := SetPGCN(d, SetReg(s2, VTS_TTN_REG, vtsTitle).(vtsN := vtsN), target.pgcn);
          Ok((found, s3.(pgN := target.pgn)))
  }

  function SetPTT(d: Disc, s: State, tt: int, part: int): Outcome<(bool, State)> {
    if tt < 1 || tt > |d.titles| then Abort
    else SetVtsPTT(d, s, d.titles[tt - 1].vts, d.titles[tt - 1].vtsTitle, part)
  }

  function SetVtsPROG(d: Disc, s: State, vtsN: int, vtsTitle: int, pgcN: int, pgN: int): Outcome<(bool, State)> {
    var (opened_, s1) := OpenVtsi(d, s.(domain := VtsTitle), vtsN);
    if !opened_ then Ok((false, s1))
    else if s1.vtsi == 0 then Abort
    else if vtsTitle < 1 || vtsTitle > |TitleSetAt(d, s1.vtsi).titles| then Ok((false, s1))
    else
      var s2 := SetReg(SetReg(s1, TT_PGCN_REG, pgcN), TTN_REG, GetTT(d.titles, vtsN, vtsTitle));
      if Reg(s2, TTN_REG) == 0 then Abort
      else
        var (found, s3) := SetPGCN(d, SetReg(s2, VTS_TTN_REG, vtsTitle).(vtsN := vtsN), pgcN);
        var s4 := s3.(pgN := pgN);
        var part :- CurrentPart(d, s4);
        Ok((found, SetReg(s4, PTTN_REG, part)))
  }

  function SetPROG(d: Disc, s: State, tt: int, pgcN: int, pgN: int): Outcome<(bool, State)> {
    if tt < 1 || tt > |d.titles| then Abort
    else SetVtsPROG(d, s, d.titles[tt - 1].vts, d.titles[tt - 1].vtsTitle, pgcN, pgN)
  }

  function SetFpPGC(d: Disc, s: State): (bool, State) {
    var s1 := s.(domain := FirstPlay);
    if d.firstPlay.None? then SetPGCN(d, s1, 1)
    else (true, s1.(pgc := FirstPlayPgc, pgcN := d.firstPlayNr))
  }

  function SetMENU(d: Disc, s: State, menu: nat): Outcome<(bool, State)> {
    var table := CurrentTable(d, s);
    if (s.domain != Vmgm && s.domain != VtsMenu) || table.None? then Abort
    else Ok(SetPGCN(d, s, GetID(Entries(d, table.value), Or(menu, 0x80))))
  }

  // Play

  /** What a play operation leaves: the state, and the link to follow. */
  datatype Played = Played(state: State, link: Link)

  const PLAY_THIS := Link(PlayThis, 0, 0, 0)
  const EXIT := Link(Exit, 0, 0, 0)

  function WithRegisters(s: State, registers: Registers, tick: nat): State {
    s.(registers := registers, tick := tick)
  }

  function PlayPGCPG(d: Disc, o: Oracle, s: State, pgN: int, fuel: nat): Outcome<Played>
    decreases fuel, 3
  {
    var pgc :- PgcOf(d, s.pgc);
    var s1 := s.(pgN := pgN, cellN := 0, blockN := 0);
    match Eval(pgc.pre, s1.registers, o, s1.tick)
    case Aborts => Abort
    case TakesLink(link, r, t) => Ok(Played(WithRegisters(s1, r, t), link))
    case FallsThrough(r, t) => PlayPG(d, o, WithRegisters(s1, r, t), fuel)
  }

  function PlayPGC(d: Disc, o: Oracle, s: State, fuel: nat): Outcome<Played>
    decreases fuel, 4
  {
    PlayPGCPG(d, o, s, 1, fuel)
  }

  function PlayPGCPost(d: Disc, o: Oracle, s: State, fuel: nat): Outcome<Played>
    decreases fuel, 0
  {
    var pgc :- PgcOf(d, s.pgc);
    match Eval(pgc.post, s.registers, o, s.tick)
    case Aborts => Abort
    case TakesLink(link, r, t) => Ok(Played(WithRegisters(s, r, t), link))
    case FallsThrough(r, t) =>
      var (found, s2) := SetPGCN(d, WithRegisters(s, r, t), pgc.next);
      if !found then Ok(Played(s2, EXIT))
      else if fuel == 0 then Spent
      else PlayPGC(d, o, s2, fuel - 1)
  }

  function PlayPG(d: Disc, o: Oracle, s: State, fuel: nat): Outcome<Played>
    decreases fuel, 2
  {
    var pgc :- PgcOf(d, s.pgc);
    if s.pgN <= 0 then Abort
    else if s.pgN > |pgc.programs| then
      if s.pgN == |pgc.programs| + 1 then PlayPGCPost(d, o, s, fuel) else Abort
    else PlayCell(d, o, s.(cellN := pgc.programs[s.pgN - 1]), fuel)
  }

  /** The cell to play for cell c: itself, or the selected angle of the block c starts. */
  function AngleCell(pgc: Pgc, c: int, angle: u16): Outcome<int>
    requires 1 <= c <= |pgc.cells|
  {
    var cell := pgc.cells[c - 1];
    if cell.mode == 0 then (if cell.kind == 0 then Ok(c) else Abort)
    else if cell.mode != 1 then Ok(c)
    else if cell.kind != 1 then Abort
    else
      var a := c + angle - 1;
      if a > |pgc.cells| then Ok(c)
      else if a < 1 then Abort
      else if pgc.cells[a - 1].mode != 0 && pgc.cells[a - 1].kind == 1 then Ok(a)
      else Ok(c)
  }

  function PlayCell(d: Disc, o: Oracle, s: State, fuel: nat): Outcome<Played>
    decreases fuel, 1
  {
    var pgc :- PgcOf(d, s.pgc);
    if s.cellN <= 0 then Abort
    else if s.cellN > |pgc.cells| then
      if s.cellN == |pgc.cells| + 1 then PlayPGCPost(d, o, s, fuel) else Abort
    else
      var c :- AngleCell(pgc, s.cellN, Reg(s, AGL_REG));
      var (inside, s1) :- SetPGN(d, s.(cellN := c));
      if !inside then Abort
      else Ok(Played(s1.(cellRestart := s1.cellRestart + 1, blockN := 0), PLAY_THIS))
  }

  /** The first cell from c on that does not continue a block. */
  function SkipBlock(cells: seq<Cell>, c: int): (c': int)
    requires 1 <= c
    ensures c <= c'
    ensures c <= |cells| + 1 ==> c' <= |cells| + 1
    ensures c' <= |cells| ==> cells[c' - 1].mode < 2
    ensures forall k {:trigger cells[k]} | c - 1 <= k < c' - 1 && k < |cells| :: cells[k].mode >= 2
    decreases |cells| - c
  {
    if c <= |cells| && cells[c - 1].mode >= 2 then SkipBlock(cells, c + 1) else c
  }

  /** The cell that follows c, over the other angles of c's block. */
  function NextCell(pgc: Pgc, c: int): Outcome<int>
    requires 1 <= c <= |pgc.cells|
  {
    var cell := pgc.cells[c - 1];
    if cell.mode == 0 then (if cell.kind == 0 then Ok(c + 1) else Abort)
    else if cell.kind == 1 then Ok(SkipBlock(pgc.cells, c + 1))
    else Abort
  }

  function PlayCellPost(d: Disc, o: Oracle, s: State, fuel: nat): Outcome<Played> {
    var pgc :- PgcOf(d, s.pgc);
    if s.cellN < 1 || s.cellN > |pgc.cells| then Abort
    else
      var n := pgc.cells[s.cellN - 1].command;
      match Eval(if 1 <= n <= |pgc.cellCommands| then [pgc.cellCommands[n - 1]] else [], s.registers, o, s.tick)
      case Aborts => Abort
      case TakesLink(link, r, t) => Ok(Played(WithRegisters(s, r, t), link))
      case FallsThrough(r, t) =>
        var next :- NextCell(pgc, s.cellN);
        var (inside, s2) :- SetPGN(d, WithRegisters(s, r, t).(cellN := next));
        if inside then PlayCell(d, o, s2, fuel) else PlayPGCPost(d, o, s2, fuel)
  }
}
