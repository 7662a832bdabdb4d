/**
 The event pump, dvdnav_get_next_cache_block: each call compares where the
 player is with what the application has been told, announces the most
 important difference, and delivers sectors once nothing differs.
*/
module EventPump {
  import opened Decoder
  import opened CommandLists
  import opened Disc
  import opened Machine
  import opened Positions
  import opened Times
  import Navigation
  import Remap

  // What the pump reads

  /** The fields of a NAV packet that the pump looks at. The two angle tables have nine entries. */
  datatype Nav = Nav(lbn: nat, length: nat, next: nat, category: nat, ilvuLength: nat,
                     jumps: seq<nat>, seamless: seq<nat>, buttons: bool, elapsed: BcdTime)

  datatype Content = Unreadable | Plain | NavPack(nav: Nav)

  /** The video file that is open: a title set's, or a menu's. */
  datatype VideoFile = VideoFile(vts: int, menu: bool)

  /** dvdnav_t, without the VM and the cache. */
  datatype Pump = Pump(
    file: Option<VideoFile>, current: Position, vobu: Vobu, buttons: bool, lastCommandNav: nat,
    skipStill: bool, syncWait: bool, syncWaitSkip: bool, clutChanged: bool, started: bool, cellTime: int)

  /** What one call meets: disc, command inputs, whether a file opens, and what its sectors hold. */
  datatype World = World(disc: Disc, oracle: Oracle, turns: nat, fuel: nat, map_: Option<seq<Remap.Block>>,
                     opens: bool, media: int -> Content)

  datatype Event =
    | Nop | Stop | HopChannel | Wait | SpuClut | SpuStream
    | Highlight(button: int)
    | VtsChange(from: VideoPlace, to: VideoPlace)
    | CellChange(lengths: CellLengths)
    | AudioStream(logical: int)
    | StillFrame(length: int)
    | NavPacket(sector: int)
    | BlockOk(sector: int)

  datatype VideoPlace = VideoPlace(vts: int, domain: Domain)

  datatype CellLengths = CellLengths(cellN: int, pgN: int, cell: nat, pg: nat, cellStart: nat, pgStart: nat)

  datatype Status = Failed | Told(event: Event)

  datatype Stepped = Stepped(pump: Pump, vm: State, status: Status)

  function Say(p: Pump, s: State, event: Event): Outcome<Stepped> {
    Ok(Stepped(p, s, Told(event)))
  }

  function Fail(p: Pump, s: State): Outcome<Stepped> {
    Ok(Stepped(p, s, Failed))
  }

  function Read(e: World, p: Pump, sector: int): Content {
    if p.file.None? then Unreadable else e.media(sector)
  }

  // The VM as the pump uses it

  /** A call into the VM and its link loop. */
  function CallVm(e: World, s: State, call: Navigation.Call): Outcome<State> {
    var (_, s') :- Navigation.Perform(e.disc, e.oracle, s, call, e.turns, e.fuel);
    Ok(s')
  }

  const OFFSET_MASK := 0x4000_0000

  function Offset(word: nat): int {
    word % OFFSET_MASK
  }

  /** Bit 31 makes an angle offset point backward. */
  function SignedOffset(word: nat): int {
    if word / 0x8000_0000 % 2 == 1 then -Offset(word) else Offset(word)
  }

  const ILVU_END := 5   // DSI_ILVU_BLOCK | DSI_ILVU_LAST, shifted down

  /** dvdnav_get_vobu: the VOBU of a NAV packet. At the last VOBU of an interleaved unit
      the next one follows the angle. */
  function GetVobu(d: Disc, s: State, nav: Nav, blockN: int): Outcome<Vobu> {
    var (angle, angles) :- Angles(d, s);
    var plain := Vobu(nav.lbn, nav.length, blockN, Offset(nav.next));
    if angles == 0 || nav.category / 0x1000 % 16 != ILVU_END then Ok(plain)
    else if angle < 1 || angle > |nav.jumps| || angle > |nav.seamless| then Abort
    else if nav.jumps[angle - 1] != 0 then
      Ok(if Offset(nav.jumps[angle - 1]) != 0 then plain.(next := SignedOffset(nav.jumps[angle - 1])) else plain)
    else if nav.seamless[angle - 1] != 0 then
      Ok(plain.(length := nav.ilvuLength, next := SignedOffset(nav.seamless[angle - 1])))
    else Ok(plain)
  }

  function DomainNumber(domain: Domain): int {
    match domain
    case FirstPlay => 1
    case VtsTitle => 2
    case Vmgm => 4
    case VtsMenu => 8
  }

  /** The next VOBU's offset after a remapping jump. */
  function NextOffset(e: World, p: Pump, s: State): int {
    if e.map_.None? then p.vobu.next
    else Wrap32(Remap.Remapped(e.map_.value, DomainNumber(s.domain), Reg(s, TTN_REG), s.pgN,
                               p.vobu.start % Remap.WIDTH, p.vobu.next % Remap.WIDTH))
  }

  // One call

  /** The ticks of cells a..b, counted from 1. */
  function TicksOf(cells: seq<Cell>, a: int, b: int): nat
    requires 1 <= a && b <= |cells|
    decreases b - a
  {
    if b < a then 0 else TicksOf(cells, a, b - 1) + Ticks(cells[b - 1].time)
  }

  function Lengths(pgc: Pgc, s: State): Outcome<CellLengths> {
    var cells, programs := pgc.cells, pgc.programs;
    if s.cellN < 1 || s.cellN > |cells| || s.pgN < 1 || s.pgN > |programs| then Abort
    else
      var first := programs[s.pgN - 1];
      var last := if s.pgN < |programs| then programs[s.pgN] - 1 else |cells|;
      if first < 1 || first > |cells| + 1 || last > |cells| then Abort
      else Ok(CellLengths(s.cellN, s.pgN, Ticks(cells[s.cellN - 1].time), TicksOf(cells, first, last),
                          TicksOf(cells, 1, s.cellN - 1), TicksOf(cells, 1, first - 1)))
  }

  /** The VOBU record that makes the next read expect a NAV packet at the entry sector. */
  function EntryVobu(next: Position): Vobu {
    Vobu(next.cellStart + next.block, 0, 0, 0)
  }

  function Hopped(p: Pump, next: Position): Pump {
    p.(current := p.current.(hopChannel := next.hopChannel), vobu := EntryVobu(next), syncWait := false)
  }

  /** A hop. After a seek among several angles the VM moves on to the second VOBU. */
  function HopStep(e: World, p: Pump, s: State, next: Position): Outcome<Stepped> {
    if next.hopChannel - p.current.hopChannel < HOP_SEEK then Say(Hopped(p, next), s, HopChannel)
    else
      var (_, angles) :- Angles(e.disc, s);
      if angles <= 1 then Say(Hopped(p, next), s, HopChannel)
      else
        match Read(e, p, next.cellStart + next.block)
        case NavPack(nav) =>
          var vobu :- GetVobu(e.disc, s, nav, p.vobu.blockN);
          var start := if vobu.next != SRI_END_OF_CELL then vobu.start + vobu.next else vobu.start;
          Say(Hopped(p.(buttons := nav.buttons), next), s.(blockN := start - next.cellStart), HopChannel)
        case _ => Fail(p, s)
  }

  function FileFor(next: Position): VideoFile {
    match next.domain
    case VtsMenu => VideoFile(next.vts, true)
    case VtsTitle => VideoFile(next.vts, false)
    case _ => VideoFile(0, true)
  }

  function VtsStep(e: World, p: Pump, s: State, next: Position): Outcome<Stepped> {
    var moved := p.current.(vts := next.vts, domain := next.domain);
    if !e.opens then Fail(p.(current := moved, file := None), s)
    else
      Say(p.(current := moved.(cell := -1, spu := -1, audio := -1), file := Some(FileFor(next)), clutChanged := true), s,
          VtsChange(VideoPlace(p.current.vts, p.current.domain), VideoPlace(next.vts, next.domain)))
  }

  function CellStep(e: World, p: Pump, s: State, next: Position): Outcome<Stepped> {
    var pgc :- PgcOf(e.disc, s.pgc);
    var lengths :- Lengths(pgc, s);
    Say(p.(current := p.current.(cell := next.cell, cellRestart := next.cellRestart, cellStart := next.cellStart,
                                 block := next.block, spu := -1, audio := -1),
           vobu := EntryVobu(next), clutChanged := true, cellTime := 0), s, CellChange(lengths))
  }

  /** The end of a cell: its still, if any, or the next cell. */
  function EndOfCell(e: World, p: Pump, s: State, next: Position): Outcome<Stepped> {
    var waiting := p.(current := p.current.(still := next.still),
                      syncWait := p.syncWait || ((next.still != 0 || p.buttons) && !p.syncWaitSkip));
    if next.still != 0 && !p.skipStill then Say(waiting, s, Event.Nop)
    else
      var s' :- CallVm(e, s, Navigation.GetNextCell);
      Say(waiting.(current := waiting.current.(still := 0), skipStill := false, syncWaitSkip := false), s', Event.Nop)
  }

  /** A NAV packet has been read: the VM is told the VOBU just left, and the next begins. */
  function NavTaken(e: World, p: Pump, s: State, nav: Nav, sector: int): Outcome<Stepped> {
    var s1 := s.(blockN := p.vobu.start - p.current.cellStart);
    var vobu :- GetVobu(e.disc, s1, nav, 0);
    Say(p.(vobu := vobu, buttons := nav.buttons, cellTime := Wrap32(Ticks(nav.elapsed)),
           lastCommandNav := if p.lastCommandNav == nav.lbn then SRI_END_OF_CELL else p.lastCommandNav),
        s1, NavPacket(sector))
  }

  /** The start of a VOBU. */
  function NavStep(e: World, p: Pump, s: State): Outcome<Stepped> {
    var p1 := p.(vobu := p.vobu.(next := NextOffset(e, p, s)));
    var sector := p1.vobu.start + p1.vobu.next;
    match Read(e, p1, sector)
    case NavPack(nav) => NavTaken(e, p1, s, nav, sector)
    case _ => Fail(p1, s)
  }

  function BlockStep(e: World, p: Pump, s: State): Outcome<Stepped> {
    var p1 := p.(vobu := p.vobu.(blockN := p.vobu.blockN + 1));
    var sector := p1.vobu.start + p1.vobu.blockN;
    if Read(e, p, sector) == Unreadable then Fail(p1, s) else Say(p1, s, BlockOk(sector))
  }

  /** With nothing to announce: stills and sectors. */
  function Deliver(e: World, p: Pump, s: State, next: Position): Outcome<Stepped> {
    if p.current.still != 0 then Say(p, s, StillFrame(p.current.still))
    else if p.vobu.blockN < p.vobu.length then BlockStep(e, p, s)
    else if p.vobu.next == SRI_END_OF_CELL then EndOfCell(e, p, s, next)
    else NavStep(e, p, s)
  }

  function Announce(e: World, p: Pump, s: State, next: Position): Outcome<Stepped> {
    if p.current.hopChannel != next.hopChannel then HopStep(e, p, s, next)
    else if p.current.button != next.button then
      Say(p.(current := p.current.(button := next.button)), s, Highlight(next.button))
    else if p.syncWait then Say(p, s, Wait)
    else if p.file.None? || p.current.vts != next.vts || p.current.domain != next.domain then VtsStep(e, p, s, next)
    else if CellDiffers(p.current, next) then CellStep(e, p, s, next)
    else if p.clutChanged then Say(p.(clutChanged := false), s, SpuClut)
    else if p.current.spu != next.spu then Say(p.(current := p.current.(spu := next.spu)), s, SpuStream)
    else if p.current.audio != next.audio then
      Say(p.(current := p.current.(audio := next.audio)), s, AudioStream(next.audio))
    else Deliver(e, p, s, next)
  }

  predicate CellDiffers(current: Position, next: Position) {
    current.cell != next.cell || current.cellRestart != next.cellRestart || current.cellStart != next.cellStart
  }

  function Proceed(e: World, p: Pump, s: State): Outcome<Stepped> {
    if s.stopped then Say(p.(started := false), s, Stop)
    else
      var next :- PositionOf(e.disc, s);
      Announce(e, p, s, next)
  }

  /** dvdnav_get_next_cache_block. */
  function GetNextBlock(e: World, p: Pump, s: State): Outcome<Stepped> {
    if p.started then Proceed(e, p, s)
    else
      var s1 :- CallVm(e, s, Navigation.Start);
      if s1.stopped then Fail(p, s1) else Proceed(e, p.(started := true), s1)
  }
}
