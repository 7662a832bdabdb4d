/** What the event pump promises over whole runs of calls. */
module PumpTheorems {
  import opened Decoder
  import opened CommandLists
  import opened Disc
  import opened Machine
  import opened NavigationLaws
  import opened Positions
  import opened Times
  import opened EventPump
  import opened CallBlocks
  import Navigation
  import NavigationTheorems

  // Announcements

  /** The most important difference still to be announced: 7 for a hop down to 1 for the
      audio stream, and 0 when the application knows the position. */
  function Pending(p: Pump, next: Position): nat {
    if p.current.hopChannel != next.hopChannel then 7
    else if p.current.button != next.button then 6
    else if p.file.None? || p.current.vts != next.vts || p.current.domain != next.domain then 5
    else if CellDiffers(p.current, next) then 4
    else if p.clutChanged then 3
    else if p.current.spu != next.spu then 2
    else if p.current.audio != next.audio then 1
    else 0
  }

  /** Which difference an event announces; stills, waits, nops and sectors announce none. */
  function Level(e: Event): nat {
    match e
    case HopChannel => 7
    case Highlight(_) => 6
    case VtsChange(_, _) => 5
    case CellChange(_) => 4
    case SpuClut => 3
    case SpuStream => 2
    case AudioStream(_) => 1
    case _ => 0
  }

  /** Positions that differ at most in the block. */
  predicate SamePlace(a: Position, b: Position) {
    a.(block := 0) == b.(block := 0)
  }

  predicate WaitsOnlyWhenTold(p: Pump, next: Position) {
    p.syncWait ==> Pending(p, next) == 0
  }

  // What each kind of call does to the pump, when it succeeds

  lemma HopIs(e: World, p: Pump, s: State, next: Position)
    ensures var r := HopStep(e, p, s, next);
            r.Ok? && r.value.status.Told? ==>
              r.value.status.event == HopChannel
              && r.value.pump == Hopped(p.(buttons := r.value.pump.buttons), next)
  {
    hide GetVobu, Angles;
  }

  lemma VtsIs(e: World, p: Pump, s: State, next: Position)
    ensures var r := VtsStep(e, p, s, next);
            r.Ok? && r.value.status.Told? ==>
              r.value.status.event.VtsChange? && r.value.pump.vobu == p.vobu
              && r.value.pump.syncWait == p.syncWait && r.value.pump.file.Some?
              && r.value.pump.current == p.current.(vts := next.vts, domain := next.domain, cell := -1, spu := -1, audio := -1)
  {
  }

  lemma CellIs(e: World, p: Pump, s: State, next: Position)
    ensures var r := CellStep(e, p, s, next);
            r.Ok? && r.value.status.Told? ==>
              r.value.status.event.CellChange? && r.value.pump.vobu == EntryVobu(next)
              && r.value.pump.syncWait == p.syncWait && r.value.pump.file == p.file
              && r.value.pump.current == p.current.(cell := next.cell, cellRestart := next.cellRestart,
                   cellStart := next.cellStart, block := next.block, spu := -1, audio := -1)
  {
    hide Lengths;
  }

  lemma NavIs(e: World, p: Pump, s: State)
    ensures var r := NavStep(e, p, s);
            r.Ok? ==>
              r.value.pump.current == p.current && r.value.pump.file == p.file
              && r.value.pump.clutChanged == p.clutChanged
              && (r.value.status.Told? ==> r.value.status.event.NavPacket?)
  {
    hide GetVobu, NextOffset;
  }

  lemma DeliverIs(e: World, p: Pump, s: State, next: Position)
    ensures var r := Deliver(e, p, s, next);
            r.Ok? ==>
              r.value.pump.current == p.current.(still := r.value.pump.current.still)
              && r.value.pump.file == p.file && r.value.pump.clutChanged == p.clutChanged
              && (r.value.status.Told? ==> Level(r.value.status.event) == 0)
  {
    hide NavStep, CallVm;
    NavIs(e, p, s);
  }

  /** A successful call announces the most important difference, and leaves only lesser ones. */
  lemma AnnouncesInOrder(e: World, p: Pump, s: State, next: Position, later: Position)
    requires WaitsOnlyWhenTold(p, next) && SamePlace(next, later)
    requires Announce(e, p, s, next).Ok? && Announce(e, p, s, next).value.status.Told?
    ensures var r := Announce(e, p, s, next).value;
            && Level(r.status.event) == Pending(p, next)
            && (if Pending(p, next) > 0 then Pending(r.pump, later) < Pending(p, next) else Pending(r.pump, later) == 0)
            && WaitsOnlyWhenTold(r.pump, later)
  {
    hide HopStep, VtsStep, CellStep, Deliver;
    HopIs(e, p, s, next);
    VtsIs(e, p, s, next);
    CellIs(e, p, s, next);
    DeliverIs(e, p, s, next);
  }

  // Runs of calls

  /** A call by the application: for the next block, with the VM as other calls left it,
      or one of those that only change the pump's flags. */
  datatype Action =
    | Pull(world: World, vm: State)
    | SkipStill
    | SkipWait
    | LeaveStill(nav: Option<nat>, wait: bool)   // jumps and button activations
    | ForceHighlight
    | ClearAll

  datatype Heard = Silent | Heard(status: Status)

  function Act(p: Pump, a: Action): Outcome<(Pump, Heard)> {
    match a
    case Pull(world, vm) =>
      var r :- GetNextBlock(world, p, vm);
      Ok((r.pump, Heard(r.status)))
    case SkipStill =>
      Ok((p.(current := p.current.(still := 0), skipStill := true, syncWait := false, syncWaitSkip := true), Silent))
    case SkipWait => Ok((p.(syncWait := false, syncWaitSkip := true), Silent))
    case LeaveStill(nav, wait) =>
      Ok((p.(current := p.current.(still := 0), syncWait := p.syncWait && wait,
             lastCommandNav := if nav.Some? then nav.value else p.lastCommandNav), Silent))
    case ForceHighlight => Ok((p.(current := p.current.(button := -1)), Silent))
    case ClearAll =>
      Ok((p.(file := None, current := NOWHERE, buttons := false, lastCommandNav := SRI_END_OF_CELL, skipStill := false,
             syncWait := false, syncWaitSkip := false, clutChanged := false, started := false, cellTime := 0), Silent))
  }

  /** Action i leads from one pump to the next, with its answer. */
  predicate StepAt(run: seq<Pump>, actions: seq<Action>, heard: seq<Heard>, i: nat)
    requires |run| == |actions| + 1 && |heard| == |actions| && i < |actions|
  {
    Act(run[i], actions[i]) == Ok((run[i + 1], heard[i]))
  }

  /** Pumps linked by actions, and what each action was answered; no action aborts. */
  ghost predicate IsRun(run: seq<Pump>, actions: seq<Action>, heard: seq<Heard>) {
    && |run| == |actions| + 1 && |heard| == |actions|
    && forall i: nat | i < |actions| :: StepAt(run, actions, heard, i)
  }

  predicate Hears(h: Heard, level: nat) {
    h.Heard? && h.status.Told? && Level(h.status.event) == level
  }

  /** Action i pulls while the VM stays at `next`, and is answered. */
  predicate PullsAt(p: Pump, a: Action, h: Heard, next: Position) {
    && a.Pull? && p.started && !a.vm.stopped
    && PositionOf(a.world.disc, a.vm).Ok? && SamePlace(PositionOf(a.world.disc, a.vm).value, next)
    && h.Heard? && h.status.Told?
  }

  lemma PullAnnounces(p: Pump, a: Action, h: Heard, after: Pump, next: Position)
    requires PullsAt(p, a, h, next) && WaitsOnlyWhenTold(p, next)
    ensures Act(p, a) == Ok((after, h)) ==>
              && Hears(h, Pending(p, next)) && WaitsOnlyWhenTold(after, next)
              && if Pending(p, next) > 0 then Pending(after, next) < Pending(p, next) else Pending(after, next) == 0
  {
    hide Announce, Pending;
    if Act(p, a) == Ok((after, h)) {
      var now := PositionOf(a.world.disc, a.vm).value;
      PendingSame(p, now, next);
      AnnouncesInOrder(a.world, p, a.vm, now, next);
    }
  }

  lemma PendingSame(p: Pump, a: Position, b: Position)
    requires SamePlace(a, b)
    ensures Pending(p, a) == Pending(p, b)
  {
  }

  /** While the VM stays where it is, the first pulls announce at most one event of each
      kind, hops before highlights before file, cell, palette, subtitle and audio changes;
      after at most seven of them only stills, nops, waits and sectors follow. */
  lemma {:induction false} AnnouncementsEnd(run: seq<Pump>, actions: seq<Action>, heard: seq<Heard>, next: Position, k: nat)
    requires IsRun(run, actions, heard) && k <= |actions|
    requires forall i {:trigger PullsAt(run[i], actions[i], heard[i], next)} | 0 <= i < |actions| ::
               PullsAt(run[i], actions[i], heard[i], next)
    requires WaitsOnlyWhenTold(run[0], next)
    ensures WaitsOnlyWhenTold(run[k], next)
    ensures Pending(run[k], next) <= if k < 7 then 7 - k else 0
    ensures k < |actions| ==> Hears(heard[k], Pending(run[k], next))
    ensures forall i | 0 <= i < k :: Pending(run[k], next) == 0 || Pending(run[i], next) > Pending(run[k], next)
  {
    hide Act, Pending, PullsAt, WaitsOnlyWhenTold;
    if k == 0 {
      assert Pending(run[0], next) <= 7 by {
        PendingAtMost(run[0], next);
      }
    } else {
      AnnouncementsEnd(run, actions, heard, next, k - 1);
      assert StepAt(run, actions, heard, k - 1);
      PullAnnounces(run[k - 1], actions[k - 1], heard[k - 1], run[k], next);
    }
    if k < |actions| {
      assert StepAt(run, actions, heard, k);
      PullAnnounces(run[k], actions[k], heard[k], run[k + 1], next);
    }
  }

  lemma PendingAtMost(p: Pump, next: Position)
    ensures Pending(p, next) <= 7
  {
  }

  predicate Outranks(a: Heard, b: Heard) {
    a.Heard? && a.status.Told? && b.Heard? && b.status.Told? && Level(a.status.event) > Level(b.status.event)
  }

  /** Of two announcements heard while the VM stays put, the later one is the lesser. */
  lemma AnnouncedOnceInOrder(run: seq<Pump>, actions: seq<Action>, heard: seq<Heard>, next: Position, i: nat, j: nat)
    requires IsRun(run, actions, heard) && i < j < |actions|
    requires forall k {:trigger PullsAt(run[k], actions[k], heard[k], next)} | 0 <= k < |actions| ::
               PullsAt(run[k], actions[k], heard[k], next)
    requires WaitsOnlyWhenTold(run[0], next)
    ensures Hears(heard[j], 0) || Outranks(heard[i], heard[j])
    ensures j >= 7 ==> Hears(heard[j], 0)
  {
    hide Act, Pending;
    AnnouncementsEnd(run, actions, heard, next, i);
    AnnouncementsEnd(run, actions, heard, next, j);
  }

  /** Stills, nops and sectors come only when the application knows the position and need not wait. */
  lemma DataOnlyWhenTold(e: World, p: Pump, s: State, next: Position)
    requires Announce(e, p, s, next).Ok? && Announce(e, p, s, next).value.status.Told?
    ensures var event := Announce(e, p, s, next).value.status.event;
            event.StillFrame? || event.NavPacket? || event.BlockOk? || event.Nop? <==>
            Pending(p, next) == 0 && !p.syncWait
  {
    hide HopStep, VtsStep, CellStep, GetVobu, NextOffset, CallVm;
    HopIs(e, p, s, next);
    VtsIs(e, p, s, next);
    CellIs(e, p, s, next);
  }

  // VOBUs

  /** What a call that finds the player at `next` does to the VOBU record, told from its answer. */
  predicate VobuMoves(v: Vobu, w: Vobu, h: Heard, media: int -> Content, next: Position) {
    match h
    case Silent => w == v
    case Heard(Failed) =>
      w == v || w == v.(next := w.next) || (v.blockN < v.length && w == v.(blockN := v.blockN + 1))
    case Heard(Told(HopChannel)) => w == EntryVobu(next)
    case Heard(Told(CellChange(_))) => w == EntryVobu(next)
    case Heard(Told(NavPacket(sector))) =>
      v.blockN >= v.length && w.blockN == 0 && w.length >= 0
      && media(sector).NavPack? && w.start == media(sector).nav.lbn
    case Heard(Told(BlockOk(sector))) =>
      v.blockN < v.length && w == v.(blockN := v.blockN + 1) && sector == v.start + w.blockN
    case Heard(Told(Nop)) => v.blockN >= v.length && v.next == SRI_END_OF_CELL && w == v
    case Heard(_) => w == v
  }

  lemma GetVobuIs(d: Disc, s: State, nav: Nav, blockN: int)
    ensures var r := GetVobu(d, s, nav, blockN);
            r.Ok? ==> r.value.start == nav.lbn && r.value.blockN == blockN
                      && (r.value.length == nav.length || r.value.length == nav.ilvuLength)
  {
    hide Angles;
  }

  /** Reading a NAV packet also tells the VM the VOBU just left. */
  lemma NavMoves(e: World, p: Pump, s: State, next: Position)
    requires p.vobu.blockN >= p.vobu.length
    ensures var r := NavStep(e, p, s);
            r.Ok? ==> VobuMoves(p.vobu, r.value.pump.vobu, Heard(r.value.status), e.media, next)
                      && (r.value.status.Told? ==> r.value.vm == s.(blockN := p.vobu.start - p.current.cellStart))
  {
    hide GetVobu, NextOffset;
    var sector := p.vobu.start + NextOffset(e, p, s);
    if Read(e, p, sector).NavPack? {
      GetVobuIs(e.disc, s.(blockN := p.vobu.start - p.current.cellStart), Read(e, p, sector).nav, 0);
    }
  }

  predicate TellsVm(p: Pump, r: Stepped) {
    r.status.Told? && r.status.event.NavPacket? ==> r.vm.blockN == p.vobu.start - p.current.cellStart
  }

  lemma DeliverMoves(e: World, p: Pump, s: State, next: Position)
    ensures var r := Deliver(e, p, s, next);
            r.Ok? ==> VobuMoves(p.vobu, r.value.pump.vobu, Heard(r.value.status), e.media, next) && TellsVm(p, r.value)
  {
    hide NavStep, CallVm;
    if p.vobu.blockN >= p.vobu.length {
      NavMoves(e, p, s, next);
    }
  }

  lemma HopMoves(e: World, p: Pump, s: State, next: Position)
    ensures var r := HopStep(e, p, s, next);
            r.Ok? ==> VobuMoves(p.vobu, r.value.pump.vobu, Heard(r.value.status), e.media, next) && TellsVm(p, r.value)
  {
    hide GetVobu, Angles;
  }

  lemma CellMoves(e: World, p: Pump, s: State, next: Position)
    ensures var r := CellStep(e, p, s, next);
            r.Ok? ==> VobuMoves(p.vobu, r.value.pump.vobu, Heard(r.value.status), e.media, next) && TellsVm(p, r.value)
  {
    hide Lengths;
  }

  lemma AnnounceMoves(e: World, p: Pump, s: State, next: Position)
    ensures var r := Announce(e, p, s, next);
            r.Ok? ==> VobuMoves(p.vobu, r.value.pump.vobu, Heard(r.value.status), e.media, next) && TellsVm(p, r.value)
  {
    hide HopStep, CellStep, Deliver;
    HopMoves(e, p, s, next);
    CellMoves(e, p, s, next);
    DeliverMoves(e, p, s, next);
  }

  /** Where a call finds the player: the VM is started first if need be. */
  function Found(p: Pump, a: Action): Position {
    if !a.Pull? then NOWHERE
    else
      var vm := if p.started then Ok(a.vm) else CallVm(a.world, a.vm, Navigation.Start);
      if !vm.Ok? then NOWHERE
      else
        var position := PositionOf(a.world.disc, vm.value);
        if position.Ok? then position.value else NOWHERE
  }

  function MediaOf(a: Action): int -> Content {
    if a.Pull? then a.world.media else _ => Plain
  }

  lemma ActMoves(p: Pump, a: Action)
    ensures var r := Act(p, a);
            r.Ok? ==> VobuMoves(p.vobu, r.value.0.vobu, r.value.1, MediaOf(a), Found(p, a))
  {
    hide Announce, CallVm, VobuMoves;
    if a.Pull? {
      var next := Found(p, a);
      var vm := if p.started then Ok(a.vm) else CallVm(a.world, a.vm, Navigation.Start);
      if vm.Ok? && !vm.value.stopped && PositionOf(a.world.disc, vm.value).Ok? {
        AnnounceMoves(a.world, p.(started := true), vm.value, next);
        assert p.started ==> p.(started := true) == p;
      } else {
        SameMoves(p.vobu, MediaOf(a), next);
      }
    } else {
      SameMoves(p.vobu, MediaOf(a), Found(p, a));
    }
  }

  lemma SameMoves(v: Vobu, media: int -> Content, next: Position)
    ensures VobuMoves(v, v, Silent, media, next) && VobuMoves(v, v, Heard(Failed), media, next)
    ensures VobuMoves(v, v, Heard(Told(Event.Stop)), media, next)
  {
  }

  /** Over every run the record never holds more delivered sectors than its VOBU has. */
  lemma {:induction false} DeliveredBounded(run: seq<Pump>, actions: seq<Action>, heard: seq<Heard>, k: nat)
    requires IsRun(run, actions, heard) && k <= |actions|
    requires 0 <= run[0].vobu.blockN <= run[0].vobu.length
    ensures 0 <= run[k].vobu.blockN <= run[k].vobu.length
  {
    hide Act, Found;
    if k > 0 {
      DeliveredBounded(run, actions, heard, k - 1);
      ActMoves(run[k - 1], actions[k - 1]);
      assert StepAt(run, actions, heard, k - 1);
    }
  }

  function BlockHeard(h: Heard): seq<int> {
    match h
    case Heard(Told(BlockOk(sector))) => [sector]
    case _ => []
  }

  /** The sectors of the BLOCK_OK events among heard[i..j]. */
  function BlocksHeard(heard: seq<Heard>, i: nat, j: nat): seq<int>
    requires i <= j <= |heard|
    decreases j
  {
    if i == j then [] else BlocksHeard(heard, i, j - 1) + BlockHeard(heard[j - 1])
  }

  /** The n sectors after the given one. */
  function SectorsAfter(start: int, n: int): seq<int>
    decreases n
  {
    if n <= 0 then [] else SectorsAfter(start, n - 1) + [start + n]
  }

  /** The answer neither fails nor begins another VOBU. */
  predicate Continues(h: Heard) {
    match h
    case Heard(Failed) => false
    case Heard(Told(event)) => !event.HopChannel? && !event.CellChange? && !event.NavPacket?
    case Silent => true
  }

  predicate EndsVobu(h: Heard) {
    h.Heard? && h.status.Told? && (h.status.event.NavPacket? || h.status.event.Nop?)
  }

  /** VOBU records, each as its call leaves it. */
  ghost predicate VobuChain(vobus: seq<Vobu>, heard: seq<Heard>, media: seq<int -> Content>, found: seq<Position>) {
    && |vobus| == |heard| + 1 && |media| == |found| == |heard|
    && forall i | 0 <= i < |heard| :: VobuMoves(vobus[i], vobus[i + 1], heard[i], media[i], found[i])
  }

  predicate HeardNav(h: Heard) {
    h.Heard? && h.status.Told? && h.status.event.NavPacket?
  }

  /** From a NAV packet on, while no call fails, hops or changes the cell, the sectors
      delivered are the next ones of its VOBU, in order and once each; all of them have
      been when the next NAV packet is read or the end of the cell is reached. */
  lemma {:induction false} ChainDelivers(vobus: seq<Vobu>, heard: seq<Heard>, media: seq<int -> Content>,
                                         found: seq<Position>, i: nat, j: nat)
    requires VobuChain(vobus, heard, media, found) && i < j <= |heard| && HeardNav(heard[i])
    requires forall k | i < k < j :: Continues(heard[k])
    ensures var v := vobus[j];
            && v.start == vobus[i + 1].start && v.length == vobus[i + 1].length && 0 <= v.blockN <= v.length
            && BlocksHeard(heard, i + 1, j) == SectorsAfter(v.start, v.blockN)
    ensures j < |heard| && EndsVobu(heard[j]) ==>
              BlocksHeard(heard, i + 1, j) == SectorsAfter(vobus[i + 1].start, vobus[i + 1].length)
    decreases j
  {
    hide VobuMoves, BlockHeard, Continues, EndsVobu;
    assert VobuMoves(vobus[j - 1], vobus[j], heard[j - 1], media[j - 1], found[j - 1]);
    if i + 1 < j {
      ChainDelivers(vobus, heard, media, found, i, j - 1);
      StepDelivers(vobus[j - 1], vobus[j], heard[j - 1], media[j - 1], found[j - 1]);
    } else {
      NavBegins(vobus[i], vobus[i + 1], heard[i], media[i], found[i]);
    }
    if j < |heard| && EndsVobu(heard[j]) {
      assert VobuMoves(vobus[j], vobus[j + 1], heard[j], media[j], found[j]);
      EndDelivers(vobus[j], vobus[j + 1], heard[j], media[j], found[j]);
    }
  }

  lemma StepDelivers(v: Vobu, w: Vobu, h: Heard, media: int -> Content, next: Position)
    requires VobuMoves(v, w, h, media, next) && Continues(h) && 0 <= v.blockN <= v.length
    ensures w.start == v.start && w.length == v.length && 0 <= w.blockN <= w.length
    ensures SectorsAfter(w.start, w.blockN) == SectorsAfter(v.start, v.blockN) + BlockHeard(h)
  {
  }

  lemma NavBegins(v: Vobu, w: Vobu, h: Heard, media: int -> Content, next: Position)
    requires VobuMoves(v, w, h, media, next) && HeardNav(h)
    ensures w.blockN == 0 <= w.length
  {
  }

  lemma EndDelivers(v: Vobu, w: Vobu, h: Heard, media: int -> Content, next: Position)
    requires VobuMoves(v, w, h, media, next) && EndsVobu(h)
    ensures v.blockN >= v.length
  {
  }

  function Vobus(run: seq<Pump>): seq<Vobu> {
    seq(|run|, i requires 0 <= i < |run| => run[i].vobu)
  }

  ghost function Medias(actions: seq<Action>): seq<int -> Content> {
    seq(|actions|, i requires 0 <= i < |actions| => MediaOf(actions[i]))
  }

  ghost function Founds(run: seq<Pump>, actions: seq<Action>): seq<Position>
    requires |run| == |actions| + 1
  {
    seq(|actions|, i requires 0 <= i < |actions| => Found(run[i], actions[i]))
  }

  /** Over every run the pump's VOBU records are such a chain. */
  lemma RunIsChain(run: seq<Pump>, actions: seq<Action>, heard: seq<Heard>)
    requires IsRun(run, actions, heard)
    ensures VobuChain(Vobus(run), heard, Medias(actions), Founds(run, actions))
  {
    hide Act, Found, VobuMoves, MediaOf;
    forall i | 0 <= i < |heard|
      ensures VobuMoves(Vobus(run)[i], Vobus(run)[i + 1], heard[i], Medias(actions)[i], Founds(run, actions)[i])
    {
      assert StepAt(run, actions, heard, i);
      ActMoves(run[i], actions[i]);
    }
  }

  /** What holds of chains, said of a run of calls. */
  lemma SegmentDelivers(run: seq<Pump>, actions: seq<Action>, heard: seq<Heard>, i: nat, j: nat)
    requires IsRun(run, actions, heard) && i < j <= |actions| && HeardNav(heard[i])
    requires forall k | i < k < j :: Continues(heard[k])
    ensures var v := run[j].vobu;
            && v.start == run[i + 1].vobu.start && v.length == run[i + 1].vobu.length && 0 <= v.blockN <= v.length
            && BlocksHeard(heard, i + 1, j) == SectorsAfter(v.start, v.blockN)
    ensures j < |actions| && EndsVobu(heard[j]) ==>
              BlocksHeard(heard, i + 1, j) == SectorsAfter(run[i + 1].vobu.start, run[i + 1].vobu.length)
  {
    hide IsRun, VobuChain, Medias, Founds, BlocksHeard, SectorsAfter;
    assert |run| == |actions| + 1 && |heard| == |actions| by {
      RunLengths(run, actions, heard);
    }
    RunIsChain(run, actions, heard);
    ChainDelivers(Vobus(run), heard, Medias(actions), Founds(run, actions), i, j);
  }

  lemma RunLengths(run: seq<Pump>, actions: seq<Action>, heard: seq<Heard>)
    requires IsRun(run, actions, heard)
    ensures |run| == |actions| + 1 && |heard| == |actions|
  {
  }

  // The VOBU the VM is told

  /** Every NAV packet carries the number of the sector it was read from. */
  ghost predicate NumberedMedia(a: Action) {
    a.Pull? ==> forall sector :: a.world.media(sector).NavPack? ==> a.world.media(sector).nav.lbn == sector
  }

  /** The last NAV packet delivered, or the entry sector of a later hop or cell change. */
  ghost function Anchor(run: seq<Pump>, actions: seq<Action>, heard: seq<Heard>, k: nat): int
    requires IsRun(run, actions, heard) && k <= |actions|
  {
    if k == 0 then run[0].vobu.start
    else match heard[k - 1]
      case Heard(Told(NavPacket(sector))) => sector
      case Heard(Told(HopChannel)) => EntryVobu(Found(run[k - 1], actions[k - 1])).start
      case Heard(Told(CellChange(_))) => EntryVobu(Found(run[k - 1], actions[k - 1])).start
      case _ => Anchor(run, actions, heard, k - 1)
  }

  lemma {:induction false} AnchorIsStart(run: seq<Pump>, actions: seq<Action>, heard: seq<Heard>, k: nat)
    requires IsRun(run, actions, heard) && k <= |actions|
    requires forall i | 0 <= i < |actions| :: NumberedMedia(actions[i])
    ensures run[k].vobu.start == Anchor(run, actions, heard, k)
  {
    hide Act, Found;
    if k > 0 {
      AnchorIsStart(run, actions, heard, k - 1);
      assert StepAt(run, actions, heard, k - 1);
      ActMoves(run[k - 1], actions[k - 1]);
      assert NumberedMedia(actions[k - 1]);
    }
  }

  /** With each NAV packet the VM's blockN is set to name the last NAV packet delivered
      before it, or the entry sector if there was none since. */
  lemma VmNamesVobu(run: seq<Pump>, actions: seq<Action>, heard: seq<Heard>, k: nat)
    requires IsRun(run, actions, heard) && k < |actions| && actions[k].Pull? && run[k].started
    requires forall i | 0 <= i < |actions| :: NumberedMedia(actions[i])
    requires heard[k].Heard? && heard[k].status.Told? && heard[k].status.event.NavPacket?
    ensures var r := GetNextBlock(actions[k].world, run[k], actions[k].vm);
            r.Ok? && run[k].current.cellStart + r.value.vm.blockN == Anchor(run, actions, heard, k)
  {
    hide Announce, Found;
    AnchorIsStart(run, actions, heard, k);
    assert StepAt(run, actions, heard, k);
    var vm := actions[k].vm;
    if !vm.stopped && PositionOf(actions[k].world.disc, vm).Ok? {
      AnnounceMoves(actions[k].world, run[k], vm, PositionOf(actions[k].world.disc, vm).value);
    }
  }

  // The block the VM holds, over runs in which the VM is handed from call to call

  /** The sector that the VM's cell and blockN name. */
  function PlaceOf(d: Disc, s: State): int {
    var r := PositionOf(d, s);
    if r.Ok? then EntryVobu(r.value).start else 0
  }

  /** What goes with an action that is not a pull: nothing, or a call into the VM and a
      change of the hop counter. */
  datatype Move = Stays | Calls(call: Navigation.Call, oracle: Oracle, turns: nat, fuel: nat, hops: nat)

  predicate Moves(d: Disc, m: Move, s: State, s': State) {
    match m
    case Stays => s' == s
    case Calls(call, oracle, turns, fuel, hops) =>
      var r := Navigation.Perform(d, oracle, s, call, turns, fuel);
      r.Ok? && s' == r.value.1.(hopChannel := r.value.1.hopChannel + hops)
  }

  /** A run, and the VM before and after each action. */
  datatype Session = Session(pumps: seq<Pump>, actions: seq<Action>, heard: seq<Heard>, vms: seq<State>, moves: seq<Move>) {
    predicate Shaped() {
      |pumps| == |vms| == |actions| + 1 && |heard| == |moves| == |actions|
    }
  }

  /** A pull meets the VM as it was left, and leaves it as the step says. */
  ghost predicate MeetsVm(d: Disc, x: Session, i: nat)
    requires x.Shaped() && i < |x.actions|
  {
    var a := x.actions[i];
    if a.Pull? then
      x.pumps[i].started && a.world.disc == d && a.vm == x.vms[i] && LeavesVm(a.world, x.pumps[i], x.vms[i], x.vms[i + 1])
    else Moves(d, x.moves[i], x.vms[i], x.vms[i + 1])
  }

  ghost predicate Threaded(d: Disc, x: Session) {
    && x.Shaped() && IsRun(x.pumps, x.actions, x.heard)
    && forall i: nat | i < |x.actions| :: MeetsVm(d, x, i)
  }

  predicate LeavesVm(e: World, p: Pump, s: State, s': State) {
    var r := GetNextBlock(e, p, s);
    r.Ok? && r.value.vm == s'
  }

  /** Where play enters after a seek that left the VM at the sector: there, or, with several
      angles, at the VOBU that the NAV packet there names, if it names one. */
  function Entered(d: Disc, s: State, media: int -> Content, sector: int): Option<int> {
    var angles := Angles(d, s);
    if !angles.Ok? then None
    else if angles.value.1 <= 1 then Some(sector)
    else
      match media(sector)
      case NavPack(nav) =>
        var vobu := GetVobu(d, s, nav, 0);
        if !vobu.Ok? then None
        else Some(vobu.value.start + if vobu.value.next == SRI_END_OF_CELL then 0 else vobu.value.next)
      case _ => None
  }

  /** Step i takes the VM to an entry point: to where a seek among angles enters, into the
      next cell, or where a call leads. */
  ghost predicate EntryStep(d: Disc, x: Session, i: nat)
    requires x.Shaped() && i < |x.actions|
  {
    var a, s, s' := x.actions[i], x.vms[i], x.vms[i + 1];
    if a.Pull? then
      || (Hears(x.heard[i], 7) && Entered(d, s, a.world.media, PlaceOf(d, s)) == Some(PlaceOf(d, s')))
      || (Hears(x.heard[i], 0) && s'.blockN in HeldBlocks(s, Navigation.GetNextCell))
    else x.moves[i].Calls? && s'.blockN in HeldBlocks(s, x.moves[i].call)
  }

  /** The VM stands at an entry point: at the start, or because step i - 1 took it there. */
  ghost predicate Entry(d: Disc, x: Session, i: nat)
    requires x.Shaped()
  {
    i == 0 || (i <= |x.actions| && EntryStep(d, x, i - 1))
  }

  /** The sector is an entry point up to k, or that of a NAV packet delivered before k. */
  ghost predicate Known(d: Disc, x: Session, k: nat, sector: int)
    requires x.Shaped()
  {
    || (exists j: nat | j < k && j < |x.heard| :: HeardNav(x.heard[j]) && x.heard[j].status.event.sector == sector)
    || (exists j: nat | j <= k && j < |x.vms| :: Entry(d, x, j) && PlaceOf(d, x.vms[j]) == sector)
  }

  lemma PlaceWithBlock(d: Disc, s: State, blockN: int)
    ensures PositionOf(d, s).Ok? ==>
              PlaceOf(d, s.(blockN := blockN)) == PositionOf(d, s).value.cellStart + blockN
  {
    hide StillOf;
  }

  /** A NAV packet makes the VM name the VOBU just left. */
  lemma NavNames(p: Pump, a: Action)
    requires a.Pull? && p.started
    ensures var r, stepped := Act(p, a), GetNextBlock(a.world, p, a.vm);
            r.Ok? && HeardNav(r.value.1) ==> stepped.Ok? && PlaceOf(a.world.disc, stepped.value.vm) == p.vobu.start
  {
    hide HopStep, VtsStep, CellStep, NavStep, CallVm, PlaceOf;
    if Act(p, a).Ok? && HeardNav(Act(p, a).value.1) {
      var e, s := a.world, a.vm;
      var next := PositionOf(e.disc, s).value;
      HopIs(e, p, s, next);
      VtsIs(e, p, s, next);
      CellIs(e, p, s, next);
      assert Announce(e, p, s, next) == NavStep(e, p, s);
      NavMoves(e, p, s, next);
      PlaceWithBlock(e.disc, s, p.vobu.start - p.current.cellStart);
    }
  }

  lemma HopLands(e: World, p: Pump, s: State, next: Position)
    requires PositionOf(e.disc, s) == Ok(next)
    ensures var r := HopStep(e, p, s, next);
            r.Ok? ==>
              && r.value.vm == s.(blockN := r.value.vm.blockN) && PositionOf(e.disc, r.value.vm).Ok?
              && (r.value.status.Failed? ==> r.value.vm == s)
              && (r.value.status.Told? && next.hopChannel - p.current.hopChannel >= HOP_SEEK ==>
                   Entered(e.disc, s, e.media, PlaceOf(e.disc, s)) == Some(PlaceOf(e.disc, r.value.vm)))
              && (r.value.status.Told? && next.hopChannel - p.current.hopChannel < HOP_SEEK ==> r.value.vm == s)
  {
    hide Angles, StillOf;
  }

  lemma VtsCellStay(e: World, p: Pump, s: State, next: Position)
    ensures VtsStep(e, p, s, next).Ok? ==> VtsStep(e, p, s, next).value.vm == s
    ensures CellStep(e, p, s, next).Ok? ==> CellStep(e, p, s, next).value.vm == s
  {
    hide Lengths;
  }

  lemma DeliverLands(e: World, p: Pump, s: State, next: Position)
    requires Consistent(e.disc)
    ensures var r := Deliver(e, p, s, next);
            r.Ok? ==>
              || r.value.vm == s || HeardNav(Heard(r.value.status))
              || (Hears(Heard(r.value.status), 0) && r.value.vm.blockN in HeldBlocks(s, Navigation.GetNextCell))
  {
    hide Navigation.Perform, HeldBlocks, GetVobu, NextOffset;
    PerformBlocks(e.disc, e.oracle, s, Navigation.GetNextCell, e.turns, e.fuel);
  }

  /** The VM stays, or the answer tells of a NAV packet, a hop or the end of a cell. */
  ghost predicate Lands(e: World, s: State, r: Stepped) {
    || r.vm == s || HeardNav(Heard(r.status))
    || (Hears(Heard(r.status), 7) && Entered(e.disc, s, e.media, PlaceOf(e.disc, s)) == Some(PlaceOf(e.disc, r.vm)))
    || (Hears(Heard(r.status), 0) && r.vm.blockN in HeldBlocks(s, Navigation.GetNextCell))
  }

  lemma AnnounceLands(e: World, p: Pump, s: State, next: Position)
    requires Consistent(e.disc) && PositionOf(e.disc, s) == Ok(next)
    ensures var r := Announce(e, p, s, next); r.Ok? ==> Lands(e, s, r.value)
  {
    hide HopStep, VtsStep, CellStep, Deliver, PlaceOf, Entered, HeldBlocks;
    HopIs(e, p, s, next);
    HopLands(e, p, s, next);
    VtsCellStay(e, p, s, next);
    DeliverLands(e, p, s, next);
  }

  /** While playing, at every state of every run the VM's cell and blockN name an entry point
      of the run or a NAV packet delivered before, and so does the pump's VOBU record. */
  lemma {:induction false} VmAlwaysNamesKnown(d: Disc, x: Session, k: nat)
    requires Consistent(d) && Threaded(d, x) && x.pumps[0].vobu.start == PlaceOf(d, x.vms[0]) && k <= |x.actions|
    requires forall i | 0 <= i < |x.actions| :: NumberedMedia(x.actions[i])
    ensures Known(d, x, k, PlaceOf(d, x.vms[k])) && Known(d, x, k, x.pumps[k].vobu.start)
  {
    hide Act, PlaceOf, Found, EntryVobu, Known, VobuMoves, EntryStep, Moves;
    if k == 0 {
      EntryIsKnown(d, x, 0);
    } else {
      VmAlwaysNamesKnown(d, x, k - 1);
      var p, a := x.pumps[k - 1], x.actions[k - 1];
      StaysKnown(d, x, k - 1, PlaceOf(d, x.vms[k - 1]));
      StaysKnown(d, x, k - 1, p.vobu.start);
      assert StepAt(x.pumps, x.actions, x.heard, k - 1) && MeetsVm(d, x, k - 1);
      ActMoves(p, a);
      if a.Pull? {
        FoundIsPlace(d, p, a);
        NavNames(p, a);
      } else {
        OthersAreSilent(p, a);
      }
      VobuStaysKnown(d, x, k, p.vobu, x.pumps[k].vobu, MediaOf(a), Found(p, a));
      if !HeardNav(x.heard[k - 1]) && x.vms[k] != x.vms[k - 1] {
        MovedEnters(d, x, k - 1);
        EntryIsKnown(d, x, k);
      }
    }
  }

  /** A VM that moved without a NAV packet is at an entry point. */
  lemma MovedEnters(d: Disc, x: Session, i: nat)
    requires Consistent(d) && Threaded(d, x) && i < |x.actions| && x.vms[i + 1] != x.vms[i] && !HeardNav(x.heard[i])
    ensures EntryStep(d, x, i)
  {
    hide Announce, PlaceOf, Entered, HeldBlocks, Navigation.Perform, StillOf;
    assert StepAt(x.pumps, x.actions, x.heard, i) && MeetsVm(d, x, i);
    var a, m := x.actions[i], x.moves[i];
    if a.Pull? {
      var next := PositionOf(d, a.vm);
      if !a.vm.stopped && next.Ok? {
        AnnounceLands(a.world, x.pumps[i], a.vm, next.value);
      }
    } else {
      PerformBlocks(d, m.oracle, x.vms[i], m.call, m.turns, m.fuel);
    }
  }

  lemma StaysKnown(d: Disc, x: Session, k: nat, sector: int)
    requires x.Shaped() && Known(d, x, k, sector)
    ensures Known(d, x, k + 1, sector)
  {
    hide PlaceOf, Entry, HeardNav;
  }

  lemma EntryIsKnown(d: Disc, x: Session, k: nat)
    requires x.Shaped() && k < |x.vms| && Entry(d, x, k)
    ensures Known(d, x, k, PlaceOf(d, x.vms[k]))
  {
    hide PlaceOf, Entry;
  }

  /** The record's start stays known when it moves, if the place it is entered from is known. */
  lemma VobuStaysKnown(d: Disc, x: Session, k: nat, v: Vobu, w: Vobu, media: int -> Content, next: Position)
    requires x.Shaped() && 0 < k <= |x.heard| && VobuMoves(v, w, x.heard[k - 1], media, next)
    requires forall sector :: media(sector).NavPack? ==> media(sector).nav.lbn == sector
    requires Known(d, x, k, v.start)
    requires x.heard[k - 1].Silent? || Known(d, x, k, EntryVobu(next).start)
    ensures Known(d, x, k, w.start)
  {
    hide PlaceOf, Entry, EntryVobu;
    assert HeardNav(x.heard[k - 1]) ==> w.start == x.heard[k - 1].status.event.sector;
  }

  lemma OthersAreSilent(p: Pump, a: Action)
    requires !a.Pull?
    ensures Act(p, a).Ok? ==> Act(p, a).value.1 == Silent
  {
  }

  lemma FoundIsPlace(d: Disc, p: Pump, a: Action)
    requires a.Pull? && p.started && a.world.disc == d
    ensures EntryVobu(Found(p, a)).start == PlaceOf(d, a.vm)
  {
    hide StillOf, CallVm;
  }

  /** After a seek among several angles the VM stands on the second VOBU from the target,
      and the cell change that follows enters there. */
  lemma AngleSeekEntersSecond(e: World, p: Pump, s: State, next: Position)
    requires PositionOf(e.disc, s) == Ok(next) && next.hopChannel - p.current.hopChannel >= HOP_SEEK
    requires Angles(e.disc, s).Ok? && Angles(e.disc, s).value.1 > 1
    requires HopStep(e, p, s, next).Ok? && HopStep(e, p, s, next).value.status.Told?
    ensures var sector, r := next.cellStart + next.block, HopStep(e, p, s, next).value;
            && p.file.Some? && e.media(sector).NavPack?
            && var first := GetVobu(e.disc, s, e.media(sector).nav, p.vobu.blockN);
            && first.Ok? && PositionOf(e.disc, r.vm).Ok?
            && EntryVobu(PositionOf(e.disc, r.vm).value).start ==
               first.value.start + if first.value.next == SRI_END_OF_CELL then 0 else first.value.next
  {
    hide GetVobu, Angles, StillOf;
  }

  // The pump on states the VM reaches

  /** On every state the VM reaches in a title, the angle query's fallbacks are dead: the
      title it finds is the one playing. */
  lemma AnglesOfTitle(d: Disc, o: Oracle, run: seq<Navigation.Config>, events: seq<Navigation.Event>, i: nat)
    requires Consistent(d) && Navigation.IsRun(d, o, run, events) && run[0] == Navigation.Idle(Navigation.INITIAL)
    requires i < |run| && NavigationTheorems.Live(run[i]) && run[i].state.domain == VtsTitle
    ensures var s := run[i].state;
            && 1 <= Reg(s, TTN_REG) <= |d.titles|
            && Angles(d, s) == Ok((Reg(s, AGL_REG), d.titles[Reg(s, TTN_REG) - 1].angles))
  {
    hide Navigation.IsRun;
    NavigationTheorems.LinkedRegisters(d, o, run, events, i);
  }

  /** After a successful hop the position is read without leaving the tables, and it names
      the cell and its first sector. */
  lemma PositionIsSafe(d: Disc, s: State)
    requires Playable(d, s)
    ensures var r := PositionOf(d, s);
            && r.Ok? && r.value.cell == s.cellN && r.value.block == s.blockN
            && r.value.cellStart == PgcOf(d, s.pgc).value.cells[s.cellN - 1].first
            && r.value.button < 64 && r.value.still >= 0
  {
    hide StillOf;
  }

  lemma {:induction false} TicksSplit(cells: seq<Cell>, a: int, m: int, b: int)
    requires 1 <= a <= m <= b + 1 && b <= |cells|
    ensures TicksOf(cells, a, b) == TicksOf(cells, a, m - 1) + TicksOf(cells, m, b)
    decreases b
  {
    if m <= b {
      TicksSplit(cells, a, m, b - 1);
    }
  }

  /** The times of a cell event fit: on a playable position with ascending programs, the
      first at cell 1, the cell lies inside its program. */
  lemma CellInsideProgram(d: Disc, s: State)
    requires Playable(d, s)
    requires var pgc := PgcOf(d, s.pgc).value;
             Ascending(pgc) && EntriesInRange(pgc) && |pgc.programs| > 0 && pgc.programs[0] == 1
    ensures var r := Lengths(PgcOf(d, s.pgc).value, s);
            && r.Ok? && r.value.cellN == s.cellN && r.value.pgN == s.pgN
            && r.value.pgStart <= r.value.cellStart
            && r.value.cellStart + r.value.cell <= r.value.pgStart + r.value.pg
  {
    hide Ticks;
    var pgc := PgcOf(d, s.pgc).value;
    var cells, programs := pgc.cells, pgc.programs;
    var first := programs[s.pgN - 1];
    var last := if s.pgN < |programs| then programs[s.pgN] - 1 else |cells|;
    TicksSplit(cells, 1, first, s.cellN - 1);
    TicksSplit(cells, first, s.cellN, last);
    TicksSplit(cells, s.cellN, s.cellN + 1, last);
  }
}
