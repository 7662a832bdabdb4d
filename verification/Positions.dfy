/** Where the player says it is, as the event pump compares it from call to call. */
module Positions {
  import opened Bits
  import opened Disc
  import opened Machine
  import opened Times

  /** vm_position_t; cellStart is the first sector of the cell in play. */
  datatype Position = Position(button: int, vts: int, domain: Domain, spu: int, audio: int, angle: int,
                               hopChannel: int, cell: int, cellRestart: int, cellStart: int, still: int, block: int)

  /** The VOBU in play: blockN of its sectors, out of length, have been delivered
      after the NAV packet at `start`. `next` is the offset of the next VOBU. */
  datatype Vobu = Vobu(start: int, length: int, blockN: int, next: int)

  /** The record before anything has been announced. */
  const NOWHERE: Position := Position(0, 0, FirstPlay, 0, 0, 0, 0, 0, 0, 0, 0, 0)

  /** What a seek adds to the hop counter, so that the event pump can tell it from other hops. */
  const HOP_SEEK := 0x1000

  const SRI_END_OF_CELL: nat := 0x3fff_ffff

  /** vm_position_get. */
  function PositionOf(d: Disc, s: State): Outcome<Position> {
    var pgc :- PgcOf(d, s.pgc);
    if s.cellN < 1 || s.cellN > |pgc.cells| then Abort
    else
      var cell := pgc.cells[s.cellN - 1];
      Ok(Position(Reg(s, HL_BTNN_REG) / 1024, s.vtsN, s.domain, Reg(s, 2), Reg(s, 1), Reg(s, AGL_REG), s.hopChannel,
                  s.cellN, s.cellRestart, cell.first,
                  StillOf(cell, if s.cellN == |pgc.cells| then pgc.still else 0), s.blockN))
  }

  /** A declared still, or one guessed from a short cell with a long time. */
  function StillOf(cell: Cell, pgcStill: nat): nat {
    var still := cell.still + pgcStill;
    var size := cell.last - cell.first;
    var seconds := Seconds(cell.time);
    if still != 0 then still
    else if cell.last != cell.lastVobu || size % TWO32 >= 1024 then 0
    else if seconds == 0 || size % TWO32 >= 31 * seconds then 0   // more than 30 sectors a second
    else if seconds > 0xff then 0xff
    else seconds
  }

  /** The rate above which a short cell is no still, without the division. */
  lemma RateAbove(size: nat, seconds: nat)
    requires seconds > 0
    ensures size / seconds > 30 <==> size >= 31 * seconds
  {
    var rate := size / seconds;
    assert size == rate * seconds + size % seconds;
    if rate > 30 {
      ProductBelow(31, seconds, rate, seconds);
    } else {
      ProductBelow(rate, seconds, 30, seconds);
    }
  }

  function Seconds(t: BcdTime): nat {
    Digits(t.hour) * 3600 + Digits(t.minute) * 60 + Digits(t.second)
  }

  /** vm_get_angle_info: the angle played, and how many there are. */
  function Angles(d: Disc, s: State): Outcome<(int, int)> {
    if s.domain != VtsTitle || Reg(s, TTN_REG) > |d.titles| then Ok((1, 1))
    else if Reg(s, TTN_REG) == 0 then Abort
    else
      var title := d.titles[Reg(s, TTN_REG) - 1];
      if title.vts != s.vtsN || title.vtsTitle != Reg(s, VTS_TTN_REG) then Ok((1, 1))
      else Ok((Reg(s, AGL_REG), title.angles))
  }
}
