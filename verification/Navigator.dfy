/** The event pump in place: dvdnav_t's fields, updated step by step as in src/dvdnav.c,
    with sectors read through the cache. */
module Navigator {
  import opened Decoder
  import opened Disc
  import opened Machine
  import opened Positions
  import opened Times
  import opened EventPump
  import Navigation
  import ReadCache

  class Dvdnav {
    var file: Option<VideoFile>
    var current: Position
    var vobu: Vobu
    var buttons: bool
    var lastCommandNav: nat
    var skipStill: bool
    var syncWait: bool
    var syncWaitSkip: bool
    var clutChanged: bool
    var started: bool
    var cellTime: int
    var vm: State
    var useReadAhead: bool
    const cache: ReadCache.Cache
    const decode: ReadCache.Sector -> Content   // what a sector holds, for the pump

    constructor (vm: State, decode: ReadCache.Sector -> Content, file: ReadCache.File)
      ensures View() == Pump(None, NOWHERE, Vobu(0, 0, 0, 0), false, SRI_END_OF_CELL, false, false, false, false, false, 0)
      ensures this.vm == vm && this.decode == decode && cache.Valid() && !cache.freeing && cache.issued == []
      ensures fresh(cache) && fresh(cache.Buffers())
    {
      this.vm, this.decode := vm, decode;
      this.file, current, vobu := None, NOWHERE, Vobu(0, 0, 0, 0);
      buttons, lastCommandNav, cellTime := false, SRI_END_OF_CELL, 0;
      skipStill, syncWait, syncWaitSkip, clutChanged, started := false, false, false, false, false;
      useReadAhead := false;
      cache := new ReadCache.Cache(file);
    }

    /** The cache serves the open file, and the caller's own block lies outside it. */
    ghost predicate Cached(own: array<ReadCache.Sector>)
      reads cache, cache.Buffers()
    {
      cache.Valid() && !cache.freeing && own.Length > 0 && own !in cache.Buffers()
    }

    /** The world's sectors are those of the file behind the cache. */
    ghost predicate Shows(e: World)
      reads cache
    {
      forall sector :: e.media(sector) == decode(cache.file(sector))
    }

    function View(): Pump
      reads this
    {
      Pump(file, current, vobu, buttons, lastCommandNav, skipStill, syncWait, syncWaitSkip, clutChanged, started, cellTime)
    }

    /** The call answered as the step says, and left the fields it says. */
    ghost predicate Did(r: Outcome<Status>, want: Outcome<Stepped>)
      reads this
    {
      match want
      case Abort => r.Abort?
      case Spent => r.Spent?
      case Ok(stepped) => r == Ok(stepped.status) && View() == stepped.pump && vm == stepped.vm
    }

    /** One sector through the cache, as the pump sees it. */
    method ReadSector(e: World, sector: int, own: array<ReadCache.Sector>) returns (content: Content)
      requires Cached(own) && Shows(e)
      modifies cache, own, cache.Buffers()
      ensures Cached(own) && Shows(e) && fresh(cache.Buffers() - old(cache.Buffers())) && cache.file == old(cache.file)
      ensures content == Read(e, View(), sector)
    {
      if file == None {
        return Unreadable;
      }
      var buffer, offset := cache.ReadBlock(sector, useReadAhead, own);
      content := decode(buffer[offset]);
    }

    /** The hint that the VOBU just begun, and the NAV packet after it, will be read. */
    method Hint(own: array<ReadCache.Sector>)
      requires Cached(own) && vobu.length >= 0
      modifies cache
      ensures Cached(own) && fresh(cache.Buffers() - old(cache.Buffers())) && cache.file == old(cache.file)
    {
      hide ReadCache.Choose;
      cache.PreCache(vobu.start + 1, vobu.length + 1, useReadAhead);
    }

    /** Clears the cache for a change of file, and changes it if the file opens. */
    method Switch(opens: bool, newFile: ReadCache.File, own: array<ReadCache.Sector>)
      requires Cached(own)
      modifies cache
      ensures Cached(own) && cache.Buffers() == old(cache.Buffers())
      ensures cache.file == if opens then newFile else old(cache.file)
    {
      cache.Clear();
      if opens {
        cache.OpenFile(newFile);
      }
    }

    /** dvdnav_get_vobu. */
    method FillVobu(e: World, nav: Nav) returns (r: Outcome<bool>)
      modifies this`vobu
      ensures match GetVobu(e.disc, vm, nav, old(vobu).blockN)
        case Abort => r.Abort?
        case Spent => r.Spent?
        case Ok(filled) => r == Ok(true) && vobu == filled
    {
      hide Angles;
      vobu := vobu.(start := nav.lbn, length := nav.length);
      vobu := vobu.(next := Offset(nav.next));
      var angles := Angles(e.disc, vm);
      if !angles.Ok? {
        return angles.PropagateFailure();
      }
      var angle := angles.value.0;
      if angles.value.1 != 0 && nav.category / 0x1000 % 16 == ILVU_END {
        if angle < 1 || angle > |nav.jumps| || angle > |nav.seamless| {
          return Abort;
        }
        var next := nav.jumps[angle - 1];
        if next != 0 {
          if Offset(next) != 0 {
            if next / 0x8000_0000 % 2 == 1 {
              vobu := vobu.(next := -Offset(next));
            } else {
              vobu := vobu.(next := Offset(next));
            }
          }
        } else {
          next := nav.seamless[angle - 1];
          if next != 0 {
            vobu := vobu.(length := nav.ilvuLength);
            if next / 0x8000_0000 % 2 == 1 && next != 0x7fff_ffff {
              vobu := vobu.(next := -Offset(next));
            } else {
              vobu := vobu.(next := Offset(next));
            }
          }
        }
      }
      return Ok(true);
    }

    /** The hop branch: a seek among several angles first reads the VOBU it leads to. */
    method Hop(e: World, next: Position, own: array<ReadCache.Sector>) returns (r: Outcome<Status>)
      requires Cached(own) && Shows(e)
      modifies this, cache, own, cache.Buffers()
      ensures Cached(own) && fresh(cache.Buffers() - old(cache.Buffers())) && cache.file == old(cache.file)
      ensures !Changed(r) && Did(r, HopStep(e, old(View()), old(vm), next))
    {
      hide ReadCache.Shaped, ReadCache.Counted, ReadCache.Accounted, ReadCache.InBounds, GetVobu, Angles, HopStep;
      var seen := Plain;
      if next.hopChannel - current.hopChannel >= HOP_SEEK {
        var angles := Angles(e.disc, vm);
        if angles.Ok? && angles.value.1 > 1 {
          seen := ReadSector(e, next.cellStart + next.block, own);
        }
      }
      r := HopSeeing(e, next, seen);
    }

    method HopSeeing(e: World, next: Position, seen: Content) returns (r: Outcome<Status>)
      requires (next.hopChannel - current.hopChannel >= HOP_SEEK
                && Angles(e.disc, vm).Ok? && Angles(e.disc, vm).value.1 > 1) ==>
                 seen == Read(e, View(), next.cellStart + next.block)
      modifies `current, `vobu, `buttons, `syncWait, `vm
      ensures !Changed(r) && Did(r, HopStep(e, old(View()), old(vm), next))
    {
      hide GetVobu, Angles;
      if next.hopChannel - current.hopChannel >= HOP_SEEK {
        var angles := Angles(e.disc, vm);
        if !angles.Ok? {
          return angles.PropagateFailure();
        }
        if angles.value.1 > 1 {
          // the first VOBU after a seek may belong to the wrong angle
          if !seen.NavPack? {
            return Ok(Failed);
          }
          var filled := FillVobu(e, seen.nav);
          if !filled.Ok? {
            return filled.PropagateFailure();
          }
          buttons := seen.nav.buttons;
          if vobu.next != SRI_END_OF_CELL {
            vobu := vobu.(start := vobu.start + vobu.next, next := 0);
          }
          vm := vm.(blockN := vobu.start - next.cellStart);
        }
      }
      current := current.(hopChannel := next.hopChannel);
      vobu := EntryVobu(next);
      syncWait := false;
      r := Ok(Told(HopChannel));
    }

    method ChangeVts(e: World, next: Position, own: array<ReadCache.Sector>, newFile: ReadCache.File) returns (r: Outcome<Status>)
      requires Cached(own)
      modifies this, cache, own, cache.Buffers()
      ensures Cached(own) && fresh(cache.Buffers() - old(cache.Buffers()))
      ensures cache.file == if Changed(r) then newFile else old(cache.file)
      ensures Did(r, VtsStep(e, old(View()), old(vm), next))
    {
      hide ReadCache.Shaped, ReadCache.Counted, ReadCache.Accounted, ReadCache.InBounds;
      var left := VideoPlace(current.vts, current.domain);
      file := None;
      current := current.(vts := next.vts, domain := next.domain);
      Switch(e.opens, newFile, own);
      if !e.opens {
        return Ok(Failed);
      }
      file := Some(FileFor(next));
      clutChanged := true;
      current := current.(cell := -1, spu := -1, audio := -1);
      r := Ok(Told(VtsChange(left, VideoPlace(next.vts, next.domain))));
    }

    /** Adds up the ticks of cells a..b. */
    static method AddTicks(cells: seq<Cell>, a: int, b: int) returns (sum: nat)
      requires 1 <= a <= |cells| + 1 && b <= |cells|
      ensures sum == TicksOf(cells, a, b)
    {
      hide Ticks;
      sum := 0;
      var i := a;
      while i <= b
        invariant a <= i && (i <= b + 1 || i == a)
        invariant sum == TicksOf(cells, a, i - 1)
      {
        var time := ConvertTime(cells[i - 1].time);
        sum := sum + time;
        i := i + 1;
      }
    }

    method CellEvent(pgc: Pgc) returns (r: Outcome<CellLengths>)
      ensures r == Lengths(pgc, vm)
    {
      hide Ticks, TicksOf;
      var cells, programs := pgc.cells, pgc.programs;
      if vm.cellN < 1 || vm.cellN > |cells| || vm.pgN < 1 || vm.pgN > |programs| {
        return Abort;
      }
      var cell := ConvertTime(cells[vm.cellN - 1].time);
      var first := programs[vm.pgN - 1];
      var last: int := |cells|;
      if vm.pgN < |programs| {
        last := programs[vm.pgN] as int - 1;
      }
      if first < 1 || first > |cells| + 1 || last > |cells| {
        return Abort;
      }
      var pg := AddTicks(cells, first, last);
      var cellStart := AddTicks(cells, 1, vm.cellN - 1);
      var pgStart := AddTicks(cells, 1, first - 1);
      r := Ok(CellLengths(vm.cellN, vm.pgN, cell, pg, cellStart, pgStart));
    }

    method ChangeCell(e: World, next: Position) returns (r: Outcome<Status>)
      modifies this
      ensures Did(r, CellStep(e, old(View()), old(vm), next))
      ensures !Changed(r)
    {
      hide Lengths;
      var pgc := PgcOf(e.disc, vm.pgc);
      if !pgc.Ok? {
        return pgc.PropagateFailure();
      }
      var lengths := CellEvent(pgc.value);
      if !lengths.Ok? {
        return lengths.PropagateFailure();
      }
      cellTime := 0;
      current := current.(cell := next.cell, cellRestart := next.cellRestart, cellStart := next.cellStart,
                          block := next.block);
      vobu := EntryVobu(next);
      clutChanged := true;
      current := current.(spu := -1, audio := -1);
      r := Ok(Told(CellChange(lengths.value)));
    }

    method EndCell(e: World, next: Position) returns (r: Outcome<Status>)
      modifies this
      ensures Did(r, EndOfCell(e, old(View()), old(vm), next))
      ensures !Changed(r)
    {
      hide CallVm;
      current := current.(still := next.still);
      if (current.still != 0 || buttons) && !syncWaitSkip {
        syncWait := true;
      }
      if current.still == 0 || skipStill {
        var moved := CallVm(e, vm, Navigation.GetNextCell);
        if !moved.Ok? {
          return moved.PropagateFailure();
        }
        vm := moved.value;
        current := current.(still := 0);
        skipStill := false;
        syncWaitSkip := false;
      }
      r := Ok(Told(Event.Nop));
    }

    method TakeNav(e: World, nav: Nav, sector: int) returns (r: Outcome<Status>)
      modifies `vobu, `buttons, `lastCommandNav, `cellTime, `vm
      ensures !Changed(r) && Did(r, NavTaken(e, old(View()), old(vm), nav, sector))
      ensures r.Ok? ==> vobu.length >= 0
    {
      hide GetVobu, Ticks, Wrap32;
      vm := vm.(blockN := vobu.start - current.cellStart);
      BlockKept(e.disc, vm, nav, vobu.blockN);
      var filled := FillVobu(e, nav);
      if !filled.Ok? {
        return filled.PropagateFailure();
      }
      vobu := vobu.(blockN := 0);
      buttons := nav.buttons;
      if lastCommandNav == nav.lbn {
        lastCommandNav := SRI_END_OF_CELL;
      }
      var elapsed := ConvertTime(nav.elapsed);
      cellTime := Wrap32(elapsed);
      r := Ok(Told(NavPacket(sector)));
    }

    method ReadNav(e: World, own: array<ReadCache.Sector>) returns (r: Outcome<Status>)
      requires Cached(own) && Shows(e)
      modifies this, cache, own, cache.Buffers()
      ensures Cached(own) && fresh(cache.Buffers() - old(cache.Buffers())) && cache.file == old(cache.file)
      ensures !Changed(r) && Did(r, NavStep(e, old(View()), old(vm)))
    {
      hide ReadCache.Shaped, ReadCache.Counted, ReadCache.Accounted, ReadCache.InBounds, NextOffset, NavTaken;
      vobu := vobu.(next := NextOffset(e, View(), vm));
      var sector := vobu.start + vobu.next;
      var block := ReadSector(e, sector, own);
      if block.NavPack? {
        r := TakeNav(e, block.nav, sector);
        if r.Ok? {
          Hint(own);
        }
      } else {
        r := Ok(Failed);
      }
    }

    method ReadBlock(e: World, own: array<ReadCache.Sector>) returns (r: Outcome<Status>)
      requires Cached(own) && Shows(e)
      modifies this, cache, own, cache.Buffers()
      ensures Cached(own) && fresh(cache.Buffers() - old(cache.Buffers())) && cache.file == old(cache.file)
      ensures Did(r, BlockStep(e, old(View()), old(vm)))
      ensures !Changed(r)
    {
      hide ReadCache.Shaped, ReadCache.Counted, ReadCache.Accounted, ReadCache.InBounds;
      vobu := vobu.(blockN := vobu.blockN + 1);
      var sector := vobu.start + vobu.blockN;
      var block := ReadSector(e, sector, own);
      if block == Unreadable {
        return Ok(Failed);
      }
      r := Ok(Told(BlockOk(sector)));
    }

    method DeliverNext(e: World, next: Position, own: array<ReadCache.Sector>) returns (r: Outcome<Status>)
      requires Cached(own) && Shows(e)
      modifies this, cache, own, cache.Buffers()
      ensures Cached(own) && fresh(cache.Buffers() - old(cache.Buffers())) && cache.file == old(cache.file)
      ensures Did(r, Deliver(e, old(View()), old(vm), next))
      ensures !Changed(r)
    {
      hide ReadCache.Shaped, ReadCache.Counted, ReadCache.Accounted, ReadCache.InBounds;
      hide BlockStep, EndOfCell, NavStep;
      if current.still != 0 {
        r := Ok(Told(StillFrame(current.still)));
      } else if vobu.blockN < vobu.length {
        r := ReadBlock(e, own);
      } else if vobu.next == SRI_END_OF_CELL {
        r := EndCell(e, next);
      } else {
        r := ReadNav(e, own);
      }
    }

    method AnnounceNext(e: World, next: Position, own: array<ReadCache.Sector>, newFile: ReadCache.File) returns (r: Outcome<Status>)
      requires Cached(own) && Shows(e)
      modifies this, cache, own, cache.Buffers()
      ensures Cached(own) && fresh(cache.Buffers() - old(cache.Buffers()))
      ensures cache.file == if Changed(r) then newFile else old(cache.file)
      ensures Did(r, Announce(e, old(View()), old(vm), next))
    {
      hide ReadCache.Shaped, ReadCache.Counted, ReadCache.Accounted, ReadCache.InBounds;
      hide HopStep, VtsStep, CellStep, Deliver;
      if current.hopChannel != next.hopChannel {
        r := Hop(e, next, own);
      } else if current.button != next.button {
        current := current.(button := next.button);
        r := Ok(Told(Highlight(next.button)));
      } else if syncWait {
        r := Ok(Told(Wait));
      } else if file == None || current.vts != next.vts || current.domain != next.domain {
        r := ChangeVts(e, next, own, newFile);
      } else if CellDiffers(current, next) {
        r := ChangeCell(e, next);
      } else if clutChanged {
        clutChanged := false;
        r := Ok(Told(SpuClut));
      } else if current.spu != next.spu {
        current := current.(spu := next.spu);
        r := Ok(Told(SpuStream));
      } else if current.audio != next.audio {
        current := current.(audio := next.audio);
        r := Ok(Told(AudioStream(next.audio)));
      } else {
        r := DeliverNext(e, next, own);
      }
    }

    /** dvdnav_get_next_cache_block. */
    method GetNextCacheBlock(e: World, own: array<ReadCache.Sector>, newFile: ReadCache.File) returns (r: Outcome<Status>)
      requires Cached(own) && Shows(e)
      modifies this, cache, own, cache.Buffers()
      ensures Cached(own) && fresh(cache.Buffers() - old(cache.Buffers()))
      ensures cache.file == if Changed(r) then newFile else old(cache.file)
      ensures Did(r, GetNextBlock(e, old(View()), old(vm)))
    {
      hide ReadCache.Shaped, ReadCache.Counted, ReadCache.Accounted, ReadCache.InBounds;
      hide Announce, CallVm;
      if !started {
        var begun := CallVm(e, vm, Navigation.Start);
        if !begun.Ok? {
          return begun.PropagateFailure();
        }
        vm := begun.value;
        if vm.stopped {
          return Ok(Failed);
        }
        started := true;
      }
      if vm.stopped {
        started := false;
        return Ok(Told(Event.Stop));
      }
      var next := PositionOf(e.disc, vm);
      if !next.Ok? {
        return next.PropagateFailure();
      }
      r := AnnounceNext(e, next.value, own, newFile);
    }
  }

  /** The call opened another video file. */
  predicate Changed(r: Outcome<Status>) {
    r.Ok? && r.value.Told? && r.value.event.VtsChange?
  }

  /** The blocks delivered before play no part in the VOBU record of a NAV packet. */
  lemma BlockKept(d: Disc, s: State, nav: Nav, blockN: int)
    ensures var r, zero := GetVobu(d, s, nav, blockN), GetVobu(d, s, nav, 0);
            if r.Ok? then zero == Ok(r.value.(blockN := 0)) && r.value.length >= 0 else zero == r
  {
    hide Angles;
  }
}
