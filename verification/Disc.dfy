/** A disc: title table, part tables, program chains and their cells. Read only. */
module Disc {
  import opened Bits
  import opened Decoder

  /** The four BCD bytes of a dvd_time_t. */
  datatype BcdTime = BcdTime(hour: nat, minute: nat, second: nat, frame: nat)

  datatype Cell = Cell(mode: nat, kind: nat, command: nat, first: nat, last: nat, lastVobu: nat,
                       still: nat, time: BcdTime)

  datatype Pgc = Pgc(programs: seq<nat>, cells: seq<Cell>,
                     pre: seq<u64>, post: seq<u64>, cellCommands: seq<u64>,
                     next: nat, prev: nat, goUp: nat, still: nat)

  datatype Entry = Entry(id: nat, pgc: Pgc)

  type PgcTable = seq<Entry>

  datatype LanguageUnit = LanguageUnit(language: u16, table: PgcTable)

  /** A part (chapter) of a title: program chain and program. */
  datatype Part = Part(pgcn: nat, pgn: nat)

  datatype TitleSet = TitleSet(titles: seq<seq<Part>>, pgcs: PgcTable, menus: Option<seq<LanguageUnit>>)

  datatype Title = Title(vts: nat, vtsTitle: nat, parts: nat, angles: nat)

  datatype Disc = Disc(titles: seq<Title>, titleSets: seq<TitleSet>, menus: Option<seq<LanguageUnit>>,
                       firstPlay: Option<Pgc>, firstPlayNr: nat)

  /** Names one PGC table of the disc. */
  datatype TableId = TitleTable(vts: nat) | VtsMenuTable(vts: nat, unit: nat) | VmgMenuTable(unit: nat)

  /** Names one PGC: the player's pgc pointer. Distinct table slots hold distinct PGCs. */
  datatype PgcRef = NoPgc | FirstPlayPgc | TableEntry(table: TableId, n: int)

  function Units(menus: Option<seq<LanguageUnit>>): seq<LanguageUnit> {
    if menus.Some? then menus.value else []
  }

  function UnitTable(menus: Option<seq<LanguageUnit>>, unit: nat): PgcTable {
    if unit < |Units(menus)| then Units(menus)[unit].table else []
  }

  function TitleSetAt(d: Disc, vts: int): TitleSet {
    if 1 <= vts <= |d.titleSets| then d.titleSets[vts - 1] else TitleSet([], [], None)
  }

  function Entries(d: Disc, id: TableId): PgcTable {
    match id
    case TitleTable(vts) => TitleSetAt(d, vts).pgcs
    case VtsMenuTable(vts, unit) => UnitTable(TitleSetAt(d, vts).menus, unit)
    case VmgMenuTable(unit) => UnitTable(d.menus, unit)
  }

  // Consistency of the tables

  predicate ConsistentTitle(d: Disc, t: Title) {
    && 1 <= t.vts <= |d.titleSets|
    && 1 <= t.vtsTitle <= |d.titleSets[t.vts - 1].titles|
    && t.parts <= |d.titleSets[t.vts - 1].titles[t.vtsTitle - 1]|
  }

  predicate ConsistentParts(s: TitleSet) {
    forall t, p | 0 <= t < |s.titles| && 0 <= p < |s.titles[t]| :: 1 <= s.titles[t][p].pgcn <= |s.pgcs|
  }

  predicate ConsistentUnits(menus: Option<seq<LanguageUnit>>) {
    menus.Some? ==> |menus.value| > 0
  }

  /** Titles and parts point at existing entries, and counts fit their on-disc 16 bits. */
  predicate Consistent(d: Disc) {
    && 1 <= |d.titles| < TWO16
    && ConsistentUnits(d.menus)
    && (forall t | t in d.titles :: ConsistentTitle(d, t))
    && (forall s | s in d.titleSets ::
          ConsistentParts(s) && ConsistentUnits(s.menus) && |s.titles| < TWO16 && |s.pgcs| < TWO16)
  }

  /** Every program enters at a cell of its PGC. */
  predicate EntriesInRange(p: Pgc) {
    forall k | 0 <= k < |p.programs| :: 1 <= p.programs[k] <= |p.cells|
  }

  predicate Ascending(p: Pgc) {
    forall j, k | 0 <= j < k < |p.programs| :: p.programs[j] <= p.programs[k]
  }

  /** The number of programs whose entry cell is at or before `cell`. */
  function ProgramsUpTo(programs: seq<nat>, cell: int): nat {
    if programs == [] then 0
    else ProgramsUpTo(programs[..|programs| - 1], cell) + if programs[|programs| - 1] <= cell then 1 else 0
  }
}
