/**
 Where playback begins after a seek: the search, the jump of the VM, and the
 calls of the event pump up to the first NAV packet.
*/
module Arrivals {
  import opened Bits
  import opened Decoder
  import opened CommandLists
  import opened Disc
  import opened Machine
  import opened NavigationLaws
  import opened Positions
  import opened EventPump
  import opened PumpTheorems
  import opened NavigationTheorems
  import Navigation
  import NavigationRuns
  import Searching
  import Seeks

  // From the seek to the first NAV packet

  /** The pump on its way from a seek that left the VM at s: first it owes the hop, then
      the cell change, and then it stands where play enters. */
  ghost predicate OnTheWay(d: Disc, media: int -> Content, s: State, q: Pump, v: State) {
    && PositionOf(d, s).Ok? && !s.stopped && v == s.(blockN := v.blockN)
    && q.started && q.file.Some? && q.current.still == 0 && q.current.vts == s.vtsN && q.current.domain == s.domain
    && if q.current.hopChannel != s.hopChannel then
         v == s && s.hopChannel - q.current.hopChannel >= HOP_SEEK && q.current.cellRestart != s.cellRestart
       else
         && !q.syncWait && Entered(d, s, media, PlaceOf(d, s)) == Some(PlaceOf(d, v))
         && (CellDiffers(q.current, PositionOf(d, s).value) || q.vobu == Vobu(PlaceOf(d, v), 0, 0, 0))
  }

  /** The sectors are those of the disc, and no table remaps them. */
  ghost predicate Plainly(e: World, d: Disc, media: int -> Content) {
    e.disc == d && e.media == media && e.map_.None?
  }

  /** What an answer on the way means. */
  ghost predicate Arrives(d: Disc, media: int -> Content, s: State, q: Pump, v: State, r: Stepped) {
    && (q.current.hopChannel != s.hopChannel && r.status.Told? ==>
         r.status.event == HopChannel && r.pump.current.hopChannel == s.hopChannel)
    && (Hears(Heard(r.status), 4) ==>
         r.pump.current.hopChannel == s.hopChannel && r.pump.vobu == Vobu(PlaceOf(d, r.vm), 0, 0, 0))
    && if HeardNav(Heard(r.status)) then
         Entered(d, s, media, PlaceOf(d, s)) == Some(r.status.event.sector) && r.status.event.sector == PlaceOf(d, v)
       else OnTheWay(d, media, s, r.pump, r.vm)
  }

  lemma HopArrives(e: World, media: int -> Content, s: State, q: Pump, next: Position)
    requires OnTheWay(e.disc, media, s, q, s) && Plainly(e, e.disc, media) && PositionOf(e.disc, s) == Ok(next)
    requires q.current.hopChannel != s.hopChannel
    ensures var r := HopStep(e, q, s, next); r.Ok? ==> Arrives(e.disc, media, s, q, s, r.value)
  {
    hide PlaceOf, Entered, StillOf, HopStep;
    HopIs(e, q, s, next);
    HopLands(e, q, s, next);
    HopFails(e, q, s, next);
  }

  lemma HopFails(e: World, q: Pump, s: State, next: Position)
    ensures var r := HopStep(e, q, s, next); r.Ok? && r.value.status.Failed? ==> r.value == Stepped(q, s, Failed)
  {
    hide Angles, GetVobu;
  }

  lemma DeliverArrives(e: World, media: int -> Content, s: State, q: Pump, v: State, next: Position)
    requires OnTheWay(e.disc, media, s, q, v) && Plainly(e, e.disc, media) && PositionOf(e.disc, v) == Ok(next)
    requires q.current.hopChannel == s.hopChannel && !CellDiffers(q.current, next)
    ensures var r := Deliver(e, q, v, next); r.Ok? ==> Arrives(e.disc, media, s, q, v, r.value)
  {
    hide PlaceOf, Entered, StillOf, GetVobu;
    PlaceWithBlock(e.disc, s, v.blockN);
  }

  lemma CellArrives(e: World, media: int -> Content, s: State, q: Pump, v: State, next: Position)
    requires OnTheWay(e.disc, media, s, q, v) && Plainly(e, e.disc, media) && PositionOf(e.disc, v) == Ok(next)
    requires q.current.hopChannel == s.hopChannel
    ensures var r := CellStep(e, q, v, next); r.Ok? ==> Arrives(e.disc, media, s, q, v, r.value)
  {
    hide Entered, StillOf, Lengths;
  }

  lemma AnnounceArrives(e: World, media: int -> Content, s: State, q: Pump, v: State, next: Position)
    requires OnTheWay(e.disc, media, s, q, v) && Plainly(e, e.disc, media) && PositionOf(e.disc, v) == Ok(next)
    ensures var r := Announce(e, q, v, next); r.Ok? ==> Arrives(e.disc, media, s, q, v, r.value)
  {
    hide PlaceOf, Entered, StillOf, HopStep, CellStep, Deliver;
    if q.current.hopChannel != s.hopChannel {
      HopArrives(e, media, s, q, next);
    } else {
      CellArrives(e, media, s, q, v, next);
      if !CellDiffers(q.current, next) {
        DeliverArrives(e, media, s, q, v, next);
      }
    }
  }

  lemma PositionMoves(d: Disc, s: State, blockN: int)
    ensures PositionOf(d, s).Ok? <==> PositionOf(d, s.(blockN := blockN)).Ok?
  {
    hide StillOf;
  }

  /** What else the application does leaves the VM alone, and does not start the pump over. */
  lemma OtherArrives(d: Disc, media: int -> Content, s: State, q: Pump, v: State, a: Action)
    requires OnTheWay(d, media, s, q, v) && !a.Pull? && !a.ClearAll?
    ensures Act(q, a).Ok? && OnTheWay(d, media, s, Act(q, a).value.0, v)
  {
    hide PlaceOf, Entered, StillOf;
  }

  /** Up to step k the pulls read plain sectors and nothing else moves the VM. */
  ghost predicate Undisturbed(d: Disc, media: int -> Content, x: Session, k: nat)
    requires x.Shaped() && k <= |x.actions|
  {
    forall i {:trigger x.actions[i]} | 0 <= i < k ::
      if x.actions[i].Pull? then Plainly(x.actions[i].world, d, media) else x.moves[i].Stays? && !x.actions[i].ClearAll?
  }

  ghost predicate NoNavBefore(x: Session, k: nat)
    requires x.Shaped() && k <= |x.actions|
  {
    forall i | 0 <= i < k :: !HeardNav(x.heard[i])
  }

  /** From a seek on, until the first NAV packet, the pump stays on its way. */
  lemma {:induction false} StaysOnTheWay(d: Disc, media: int -> Content, x: Session, k: nat)
    requires Threaded(d, x) && k <= |x.actions| && Undisturbed(d, media, x, k) && NoNavBefore(x, k)
    requires OnTheWay(d, media, x.vms[0], x.pumps[0], x.vms[0])
    ensures OnTheWay(d, media, x.vms[0], x.pumps[k], x.vms[k])
  {
    hide OnTheWay, Act, GetNextBlock, PlaceOf, Navigation.Perform;
    if k > 0 {
      StaysOnTheWay(d, media, x, k - 1);
      StepArrives(d, media, x, x.vms[0], k - 1);
    }
  }

  lemma StepArrives(d: Disc, media: int -> Content, x: Session, s: State, i: nat)
    requires Threaded(d, x) && i < |x.actions| && Undisturbed(d, media, x, i + 1)
    requires OnTheWay(d, media, s, x.pumps[i], x.vms[i])
    ensures x.actions[i].Pull? ==>
              && x.heard[i].Heard?
              && Arrives(d, media, s, x.pumps[i], x.vms[i], Stepped(x.pumps[i + 1], x.vms[i + 1], x.heard[i].status))
    ensures !x.actions[i].Pull? ==> x.heard[i].Silent? && OnTheWay(d, media, s, x.pumps[i + 1], x.vms[i + 1])
  {
    hide Arrives, Announce, PlaceOf, Entered, StillOf, Navigation.Perform;
    var a := x.actions[i];
    assert StepAt(x.pumps, x.actions, x.heard, i) && MeetsVm(d, x, i);
    if a.Pull? {
      PositionMoves(d, s, x.vms[i].blockN);
      AnnounceArrives(a.world, media, s, x.pumps[i], x.vms[i], PositionOf(d, x.vms[i]).value);
    } else {
      OtherArrives(d, media, s, x.pumps[i], x.vms[i], a);
      OthersAreSilent(x.pumps[i], a);
    }
  }

  /** The first answer after a seek is the hop, and it leaves the VM where play enters; the
      cell change enters there, and there the first NAV packet is read, in the cell in which
      the seek left the VM. */
  lemma PlayEnters(d: Disc, media: int -> Content, x: Session, k: nat)
    requires Threaded(d, x) && k < |x.actions| && Undisturbed(d, media, x, k + 1) && NoNavBefore(x, k)
    requires OnTheWay(d, media, x.vms[0], x.pumps[0], x.vms[0])
    ensures var s := x.vms[0];
            && x.vms[k].cellN == s.cellN
            && (x.pumps[k].current.hopChannel != s.hopChannel && x.heard[k].Heard? && x.heard[k].status.Told? ==>
                 x.heard[k].status.event == HopChannel
                 && Entered(d, s, media, PlaceOf(d, s)) == Some(PlaceOf(d, x.vms[k + 1])))
            && (Hears(x.heard[k], 4) ==> Entered(d, s, media, PlaceOf(d, s)) == Some(x.pumps[k + 1].vobu.start))
            && (HeardNav(x.heard[k]) ==>
                 Entered(d, s, media, PlaceOf(d, s)) == Some(x.heard[k].status.event.sector))
  {
    hide Act, GetNextBlock, PlaceOf, Entered, Navigation.Perform, StillOf;
    StaysOnTheWay(d, media, x, k);
    StepArrives(d, media, x, x.vms[0], k);
  }

  // How soon

  function Owed(d: Disc, q: Pump, v: State): nat {
    var next := PositionOf(d, v);
    if next.Ok? then Pending(q, next.value) else 0
  }

  lemma DeliverIsNav(e: World, media: int -> Content, s: State, q: Pump, v: State, next: Position)
    requires OnTheWay(e.disc, media, s, q, v) && PositionOf(e.disc, v) == Ok(next) && Pending(q, next) == 0
    ensures var r := Announce(e, q, v, next); r.Ok? && r.value.status.Told? ==> HeardNav(Heard(r.value.status))
  {
    hide PlaceOf, Entered, StillOf, GetVobu, HopStep, VtsStep, CellStep;
    PlaceWithBlock(e.disc, s, v.blockN);
  }

  lemma PendingHop(q: Pump, next: Position)
    ensures if q.current.hopChannel != next.hopChannel then Pending(q, next) == 7 else Pending(q, next) < 7
  {
  }

  /** While every pull is answered, the NAV packet is among the first eight answers. */
  lemma {:induction false} NavComesSoon(d: Disc, media: int -> Content, x: Session, k: nat)
    requires Threaded(d, x) && k <= |x.actions| && Undisturbed(d, media, x, k) && NoNavBefore(x, k)
    requires OnTheWay(d, media, x.vms[0], x.pumps[0], x.vms[0])
    requires forall i | 0 <= i < k :: x.actions[i].Pull? && x.heard[i].Heard? && x.heard[i].status.Told?
    ensures k + Owed(d, x.pumps[k], x.vms[k]) <= 7
  {
    hide OnTheWay, Act, GetNextBlock, PlaceOf, Owed, Navigation.Perform;
    if k == 0 {
      OwedAtMost(d, x.pumps[0], x.vms[0]);
    } else {
      NavComesSoon(d, media, x, k - 1);
      StaysOnTheWay(d, media, x, k - 1);
      PullStep(d, media, x, x.vms[0], k - 1);
    }
  }

  lemma OwedAtMost(d: Disc, q: Pump, v: State)
    ensures Owed(d, q, v) <= 7
  {
    hide StillOf;
  }

  /** Each answer before the NAV packet announces something, and leaves less to announce. */
  lemma PullStep(d: Disc, media: int -> Content, x: Session, s: State, i: nat)
    requires Threaded(d, x) && i < |x.actions| && Undisturbed(d, media, x, i + 1)
    requires OnTheWay(d, media, s, x.pumps[i], x.vms[i])
    requires x.actions[i].Pull? && x.heard[i].Heard? && x.heard[i].status.Told? && !HeardNav(x.heard[i])
    ensures Owed(d, x.pumps[i + 1], x.vms[i + 1]) < Owed(d, x.pumps[i], x.vms[i])
  {
    hide Announce, PlaceOf, Entered, StillOf, Pending, Navigation.Perform;
    assert StepAt(x.pumps, x.actions, x.heard, i) && MeetsVm(d, x, i);
    var e, q, v := x.actions[i].world, x.pumps[i], x.vms[i];
    StepArrives(d, media, x, s, i);
    PlaceWithBlock(d, s, v.blockN);
    PositionMoves(d, s, v.blockN);
    PositionMoves(d, s, x.vms[i + 1].blockN);
    var next, later := PositionOf(d, v).value, PositionOf(d, x.vms[i + 1]).value;
    if q.current.hopChannel != s.hopChannel {
      PendingHop(q, next);
      PendingHop(x.pumps[i + 1], later);
    } else {
      if Pending(q, next) == 0 {
        DeliverIsNav(e, media, s, q, v, next);
      }
      AnnouncesInOrder(e, q, v, next, later);
    }
  }

  // That it comes at all

  /** The times of the cell event are inside the chain's tables. */
  predicate Measurable(pgc: Pgc, s: State) {
    && 1 <= s.cellN <= |pgc.cells| && 1 <= s.pgN <= |pgc.programs| && 1 <= pgc.programs[s.pgN - 1] <= |pgc.cells| + 1
    && (s.pgN < |pgc.programs| ==> pgc.programs[s.pgN] as int - 1 <= |pgc.cells|)
  }

  /** The cell event can be told, and the NAV packets on the way can be read: where the VM
      stands, and where play enters. */
  ghost predicate Readable(e: World, s: State) {
    var at := Entered(e.disc, s, e.media, PlaceOf(e.disc, s));
    && PgcOf(e.disc, s.pgc).Ok? && Measurable(PgcOf(e.disc, s.pgc).value, s)
    && at.Some? && e.media(at.value).NavPack? && GetVobu(e.disc, s, e.media(at.value).nav, 0).Ok?
  }

  lemma HopGoes(e: World, s: State, q: Pump, next: Position)
    requires OnTheWay(e.disc, e.media, s, q, s) && Readable(e, s) && PositionOf(e.disc, s) == Ok(next)
    ensures HopStep(e, q, s, next).Ok? && HopStep(e, q, s, next).value.status.Told?
  {
    hide StillOf, Lengths, Angles;
  }

  lemma CellGoes(e: World, s: State, q: Pump, v: State, next: Position)
    requires OnTheWay(e.disc, e.media, s, q, v) && Readable(e, s)
    ensures CellStep(e, q, v, next).Ok? && CellStep(e, q, v, next).value.status.Told?
  {
    hide StillOf, TicksOf, Entered, GetVobu, PlaceOf;
  }

  lemma DeliverGoes(e: World, s: State, q: Pump, v: State, next: Position)
    requires OnTheWay(e.disc, e.media, s, q, v) && Readable(e, s) && Plainly(e, e.disc, e.media)
    requires PositionOf(e.disc, v) == Ok(next) && q.current.hopChannel == s.hopChannel && !CellDiffers(q.current, next)
    ensures Deliver(e, q, v, next).Ok? && Deliver(e, q, v, next).value.status.Told?
  {
    hide StillOf, Lengths, Entered, PlaceOf, Angles;
    PlaceWithBlock(e.disc, s, v.blockN);
    var nav := e.media(PlaceOf(e.disc, v)).nav;
    VobuGoes(e.disc, s, v.(blockN := q.vobu.start - q.current.cellStart), nav);
  }

  lemma VobuGoes(d: Disc, s: State, v: State, nav: Nav)
    requires v == s.(blockN := v.blockN)
    ensures GetVobu(d, v, nav, 0) == GetVobu(d, s, nav, 0)
  {
  }

  lemma AnnounceGoes(e: World, s: State, q: Pump, v: State, next: Position)
    requires OnTheWay(e.disc, e.media, s, q, v) && Readable(e, s) && Plainly(e, e.disc, e.media)
    requires PositionOf(e.disc, v) == Ok(next)
    ensures Announce(e, q, v, next).Ok? && Announce(e, q, v, next).value.status.Told?
  {
    hide StillOf, Entered, PlaceOf, Readable, HopStep, CellStep, Deliver;
    if q.current.hopChannel != s.hopChannel {
      HopGoes(e, s, q, next);
    } else {
      CellGoes(e, s, q, v, next);
      if !CellDiffers(q.current, next) {
        DeliverGoes(e, s, q, v, next);
      }
    }
  }

  /** One step, and a session that goes on from there. */
  function Then(q: Pump, a: Action, h: Heard, v: State, y: Session): Session {
    Session([q] + y.pumps, [a] + y.actions, [h] + y.heard, [v] + y.vms, [Stays] + y.moves)
  }

  /** Calling for blocks, at most n times, up to the first NAV packet. */
  function Pulled(e: World, q: Pump, v: State, n: nat): (x: Session)
    ensures x.Shaped() && x.pumps[0] == q && x.vms[0] == v && |x.actions| <= n
    decreases n
  {
    var r := GetNextBlock(e, q, v);
    if n == 0 || !q.started || !r.Ok? then Alone(q, v)
    else
      var h := Heard(r.value.status);
      Then(q, Pull(e, v), h, v,
           if HeardNav(h) then Alone(r.value.pump, r.value.vm) else Pulled(e, r.value.pump, r.value.vm, n - 1))
  }

  function Alone(q: Pump, v: State): Session {
    Session([q], [], [], [v], [])
  }

  /** All actions are such calls, and there are n of them, or a NAV packet ends them, or no
      further call can be made. */
  ghost predicate Complete(e: World, x: Session, n: nat)
    requires x.Shaped()
  {
    var last := |x.actions|;
    && (forall i | 0 <= i < last :: x.actions[i].Pull? && x.actions[i].world == e)
    && (last == n || (last > 0 && HeardNav(x.heard[last - 1]))
        || !x.pumps[last].started || !GetNextBlock(e, x.pumps[last], x.vms[last]).Ok?)
  }

  lemma ThreadedThen(d: Disc, q: Pump, a: Action, h: Heard, v: State, y: Session)
    requires Threaded(d, y) && a.Pull? && q.started && a.world.disc == d && a.vm == v
    requires Act(q, a) == Ok((y.pumps[0], h)) && LeavesVm(a.world, q, v, y.vms[0])
    ensures Threaded(d, Then(q, a, h, v, y))
  {
    hide Act, LeavesVm, Moves;
    var z := Then(q, a, h, v, y);
    forall i: nat | i < |z.actions| ensures StepAt(z.pumps, z.actions, z.heard, i) && MeetsVm(d, z, i) {
      if i > 0 {
        assert StepAt(y.pumps, y.actions, y.heard, i - 1) && MeetsVm(d, y, i - 1);
      }
    }
  }

  /** Such calls are a session, and a complete one. */
  lemma {:induction false} PulledIsSession(e: World, q: Pump, v: State, n: nat)
    ensures Threaded(e.disc, Pulled(e, q, v, n)) && Complete(e, Pulled(e, q, v, n), n)
    decreases n
  {
    hide GetNextBlock;
    var r := GetNextBlock(e, q, v);
    if n > 0 && q.started && r.Ok? {
      var h, p', v' := Heard(r.value.status), r.value.pump, r.value.vm;
      PulledIsSession(e, p', v', n - 1);
      ThreadedThen(e.disc, q, Pull(e, v), h, v, if HeardNav(h) then Alone(p', v') else Pulled(e, p', v', n - 1));
    }
  }

  lemma PullAnswered(e: World, s: State, q: Pump, v: State)
    requires OnTheWay(e.disc, e.media, s, q, v) && Readable(e, s) && Plainly(e, e.disc, e.media)
    ensures GetNextBlock(e, q, v).Ok? && GetNextBlock(e, q, v).value.status.Told?
  {
    hide Announce, StillOf, Entered, PlaceOf, Readable, CallVm;
    PositionMoves(e.disc, s, v.blockN);
    AnnounceGoes(e, s, q, v, PositionOf(e.disc, v).value);
  }

  /** On the way every call is answered. */
  lemma AnsweredAt(e: World, x: Session, i: nat)
    requires Threaded(e.disc, x) && i < |x.actions| && NoNavBefore(x, i)
    requires forall j | 0 <= j < |x.actions| :: x.actions[j].Pull? && x.actions[j].world == e
    requires OnTheWay(e.disc, e.media, x.vms[0], x.pumps[0], x.vms[0])
    requires Readable(e, x.vms[0]) && Plainly(e, e.disc, e.media)
    ensures x.heard[i].Heard? && x.heard[i].status.Told?
  {
    hide OnTheWay, Readable, GetNextBlock;
    StaysOnTheWay(e.disc, e.media, x, i);
    assert StepAt(x.pumps, x.actions, x.heard, i) && MeetsVm(e.disc, x, i);
    PullAnswered(e, x.vms[0], x.pumps[i], x.vms[i]);
  }

  /** After a seek play does begin: if the NAV packets on the way can be read, calling for
      blocks eight times, or up to the first NAV packet, gets there. */
  lemma PlayStarts(e: World, x: Session)
    requires Threaded(e.disc, x) && Complete(e, x, 8)
    requires OnTheWay(e.disc, e.media, x.vms[0], x.pumps[0], x.vms[0])
    requires Readable(e, x.vms[0]) && Plainly(e, e.disc, e.media)
    ensures exists k: nat | k <= 7 && k < |x.actions| ::
              Undisturbed(e.disc, e.media, x, k + 1) && NoNavBefore(x, k) && HeardNav(x.heard[k])
  {
    hide OnTheWay, Readable, GetNextBlock, IsRun, MeetsVm, Owed;
    var k := FirstNav(x);
    forall i | 0 <= i < k ensures x.heard[i].Heard? && x.heard[i].status.Told? {
      AnsweredAt(e, x, i);
    }
    NavComesSoon(e.disc, e.media, x, k);
    if k == |x.actions| {
      StaysOnTheWay(e.disc, e.media, x, k);
      assert x.pumps[k].started by {
        WayIsStarted(e.disc, e.media, x.vms[0], x.pumps[k], x.vms[k]);
      }
      PullAnswered(e, x.vms[0], x.pumps[k], x.vms[k]);
    }
  }

  lemma WayIsStarted(d: Disc, media: int -> Content, s: State, q: Pump, v: State)
    requires OnTheWay(d, media, s, q, v)
    ensures q.started
  {
  }

  /** The first step that hears a NAV packet, or the number of steps. */
  function FirstNav(x: Session): (k: nat)
    requires x.Shaped()
    ensures k <= |x.actions| && NoNavBefore(x, k) && (k < |x.actions| ==> HeardNav(x.heard[k]))
  {
    NavFrom(x, 0)
  }

  function NavFrom(x: Session, i: nat): (k: nat)
    requires x.Shaped() && i <= |x.actions| && NoNavBefore(x, i)
    ensures k <= |x.actions| && NoNavBefore(x, k) && (k < |x.actions| ==> HeardNav(x.heard[k]))
    decreases |x.actions| - i
  {
    if i == |x.actions| || HeardNav(x.heard[i]) then i else NavFrom(x, i + 1)
  }

  // Seeks, from the call to the first NAV packet

  /** The event pump of the player, with its file open. */
  predicate PumpOf(q: Pump, p: Searching.Player) {
    q.started == p.started && q.current == p.current && q.vobu == p.vobu && q.file.Some?
  }

  /** The pump has told all there is to tell, and nothing holds the player. */
  predicate Ready(p: Searching.Player) {
    p.started && Searching.Settled(p) && p.current.still == 0 && !p.state.stopped
  }

  /** The state in which a jump to a cell leaves the VM. */
  predicate SoughtFrom(p: Searching.Player, s: State) {
    s.hopChannel == p.state.hopChannel + HOP_SEEK && Searching.Replayed(p.state, s.(hopChannel := p.state.hopChannel))
  }

  /** The session starts with the pump of the player and the VM at s, and step k hears its
      first NAV packet. */
  ghost predicate PlaysFirst(d: Disc, media: int -> Content, p: Searching.Player, s: State, x: Session, k: nat) {
    && Threaded(d, x) && k < |x.actions| && Undisturbed(d, media, x, k + 1)
    && PumpOf(x.pumps[0], p) && x.vms[0] == s && NoNavBefore(x, k) && HeardNav(x.heard[k])
  }

  lemma AnglesKept(d: Disc, p: Searching.Player, s: State, media: int -> Content, sector: int)
    requires SoughtFrom(p, s)
    ensures Angles(d, s) == Angles(d, p.state) && Entered(d, s, media, sector) == Entered(d, p.state, media, sector)
  {
  }

  lemma SetsOff(d: Disc, media: int -> Content, p: Searching.Player, pgc: Pgc, s: State, q: Pump)
    requires Ready(p) && PumpOf(q, p) && SoughtFrom(p, s)
    requires PgcOf(d, p.state.pgc) == Ok(pgc) && 1 <= s.cellN <= |pgc.cells|
    ensures OnTheWay(d, media, s, q, s) && PlaceOf(d, s) == pgc.cells[s.cellN - 1].first + s.blockN
  {
    hide Entered, StillOf;
  }

  /** After a seek play begins where the state of the VM says, in a title with one angle;
      with several, at the VOBU named by the NAV packet there, if it names one. */
  lemma SeekEnters(d: Disc, media: int -> Content, p: Searching.Player, pgc: Pgc, s: State, x: Session, k: nat)
    requires Ready(p) && SoughtFrom(p, s) && PlaysFirst(d, media, p, s, x, k)
    requires PgcOf(d, p.state.pgc) == Ok(pgc) && 1 <= s.cellN <= |pgc.cells|
    ensures x.vms[k].cellN == s.cellN
    ensures Entered(d, p.state, media, pgc.cells[s.cellN - 1].first + s.blockN) == Some(x.heard[k].status.event.sector)
  {
    hide Undisturbed, NoNavBefore, OnTheWay, Entered, PlaceOf, Searching.Replayed, Searching.Settled;
    SetsOff(d, media, p, pgc, s, x.pumps[0]);
    PlayEnters(d, media, x, k);
    AnglesKept(d, p, s, media, PlaceOf(d, s));
  }

  /** Whatever a seek asks for, play begins within eight calls for blocks if the NAV packets
      on the way can be read. */
  lemma SeekStarts(e: World, p: Searching.Player, pgc: Pgc, s: State, x: Session)
    requires Ready(p) && SoughtFrom(p, s) && Readable(e, s) && Plainly(e, e.disc, e.media)
    requires PgcOf(e.disc, p.state.pgc) == Ok(pgc) && 1 <= s.cellN <= |pgc.cells|
    requires Threaded(e.disc, x) && Complete(e, x, 8) && PumpOf(x.pumps[0], p) && x.vms[0] == s
    ensures exists k: nat :: k <= 7 && PlaysFirst(e.disc, e.media, p, s, x, k)
  {
    hide OnTheWay, Readable, Complete, IsRun, MeetsVm, Undisturbed, NoNavBefore;
    SetsOff(e.disc, e.media, p, pgc, s, x.pumps[0]);
    PlayStarts(e, x);
    var k: nat :| k <= 7 && k < |x.actions|
                  && Undisturbed(e.disc, e.media, x, k + 1) && NoNavBefore(x, k) && HeardNav(x.heard[k]);
    assert PlaysFirst(e.disc, e.media, p, s, x, k);
  }

  /** A seek to a sector of cell n plays from the VOBU that holds it, in that cell, exactly
      when the VOBU is not passed over, the selected angle plays that very cell, and the
      title has one angle or the VOBU's NAV packet names no next one; or when the VOBU asked
      for instead leads back: its NAV packet to this VOBU, or angle 0 from the next cell. */
  lemma SeekPlays(d: Disc, o: Oracle, p: Searching.Player, pgc: Pgc, from: int, last: int, admap: seq<nat>,
                  offset: int, origin: Searching.Origin, n: int, sector: nat, turns: nat, fuel: nat,
                  media: int -> Content, x: Session, k: nat)
    requires Searching.Playing(d, p, pgc, from, last, admap) && Seeks.Targets(p, pgc, from, last, offset, origin, n, sector)
    requires var r := Seeks.SeekSector(d, o, p, offset, origin, turns, fuel);
             r.Ok? && r.value.0 && PlaysFirst(d, media, p, r.value.1, x, k)
    ensures var v, next := Searching.Scanned(admap, sector, false), Searching.Scanned(admap, sector, true);
            var angle, first := Reg(p.state, AGL_REG), pgc.cells[n - 1].first;
            && Searching.GreatestUpTo(admap, v, sector)
            && (x.heard[k].status.event.sector == v && x.vms[k].cellN == n <==>
                || (!Seeks.PassedOver(p, admap, n, sector) && AngleCell(pgc, n, angle) == Ok(n)
                    && Entered(d, p.state, media, v) == Some(v))
                || (Seeks.PassedOver(p, admap, n, sector) && next <= pgc.cells[n - 1].last
                    && AngleCell(pgc, n, angle) == Ok(n) && Entered(d, p.state, media, next) == Some(v))
                || (Seeks.LedBack(pgc, angle, p, admap, n, last, sector, first)
                    && Entered(d, p.state, media, first) == Some(v)))
  {
    hide IsRun, MeetsVm, Undisturbed, NoNavBefore, Entered, Seeks.SeekSector, Seeks.PassedOver, Searching.Scanned,
      Searching.Before, Searching.Replayed, Searching.SeekTarget, Searching.CurrentSector, AngleCell,
      Searching.GreatestUpTo, Seeks.LedBack, Seeks.EndsAt;
    var s := Seeks.SeekSector(d, o, p, offset, origin, turns, fuel).value.1;
    Seeks.SearchAsks(d, p, pgc, from, last, admap, offset, origin, n, sector);
    Seeks.SeekStands(d, o, p, pgc, from, last, admap, offset, origin, n, sector, turns, fuel);
    var asks := Seeks.Asks(p, pgc.cells, admap, n, last, sector);
    EndsInChain(pgc, Reg(p.state, AGL_REG), asks.cell, asks.block, s);
    SeekEnters(d, media, p, pgc, s, x, k);
    TargetCases(d, p, pgc, admap, n, last, sector, s, media, x.heard[k].status.event.sector);
  }

  lemma EndsInChain(pgc: Pgc, angle: u16, cell: int, block: int, s: State)
    requires 1 <= cell <= |pgc.cells| && Seeks.EndsAt(pgc, angle, cell, block, s)
    ensures 1 <= s.cellN <= |pgc.cells|
  {
    AngleCellInRange(pgc, cell, angle);
  }

  /** From what the seek asks for to the target: in place, back by the NAV packet, or back by angle 0. */
  lemma TargetCases(d: Disc, p: Searching.Player, pgc: Pgc, admap: seq<nat>, n: int, last: int, sector: nat, s: State,
                    media: int -> Content, begins: int)
    requires 1 <= n <= |pgc.cells| && last <= |pgc.cells| && 1 <= s.cellN <= |pgc.cells|
    requires var asks := Seeks.Asks(p, pgc.cells, admap, n, last, sector);
             && asks.Hop? && n <= asks.cell <= |pgc.cells| && asks.cell <= (if n < last then n + 1 else n)
             && Seeks.EndsAt(pgc, Reg(p.state, AGL_REG), asks.cell, asks.block, s)
    requires Entered(d, p.state, media, pgc.cells[s.cellN - 1].first + s.blockN) == Some(begins)
    requires Seeks.PassedOver(p, admap, n, sector) ==> Searching.Scanned(admap, sector, true) > sector
    ensures var v, next := Searching.Scanned(admap, sector, false), Searching.Scanned(admap, sector, true);
            var angle, first := Reg(p.state, AGL_REG), pgc.cells[n - 1].first;
            (begins == v && s.cellN == n <==>
             || (!Seeks.PassedOver(p, admap, n, sector) && AngleCell(pgc, n, angle) == Ok(n)
                 && Entered(d, p.state, media, v) == Some(v))
             || (Seeks.PassedOver(p, admap, n, sector) && next <= pgc.cells[n - 1].last
                 && AngleCell(pgc, n, angle) == Ok(n) && Entered(d, p.state, media, next) == Some(v))
             || (Seeks.LedBack(pgc, angle, p, admap, n, last, sector, first)
                 && Entered(d, p.state, media, first) == Some(v)))
  {
    hide Entered, Seeks.PassedOver, Searching.Scanned, AngleCell;
  }

  /** Without angle 0, and unless the NAV packet of the VOBU asked for instead leads back,
      only the first case remains. */
  lemma SeekPlaysPlainly(d: Disc, o: Oracle, p: Searching.Player, pgc: Pgc, from: int, last: int, admap: seq<nat>,
                         offset: int, origin: Searching.Origin, n: int, sector: nat, turns: nat, fuel: nat,
                         media: int -> Content, x: Session, k: nat)
    requires Searching.Playing(d, p, pgc, from, last, admap) && Seeks.Targets(p, pgc, from, last, offset, origin, n, sector)
    requires var r := Seeks.SeekSector(d, o, p, offset, origin, turns, fuel);
             r.Ok? && r.value.0 && PlaysFirst(d, media, p, r.value.1, x, k)
    requires Reg(p.state, AGL_REG) >= 1
    requires var next := Searching.Scanned(admap, sector, true);
             Entered(d, p.state, media, next).Some? ==> Entered(d, p.state, media, next).value >= next
    ensures var v := Searching.Scanned(admap, sector, false);
            && Searching.GreatestUpTo(admap, v, sector)
            && (x.heard[k].status.event.sector == v && x.vms[k].cellN == n <==>
                !Seeks.PassedOver(p, admap, n, sector) && AngleCell(pgc, n, Reg(p.state, AGL_REG)) == Ok(n)
                && Entered(d, p.state, media, v) == Some(v))
  {
    hide PlaysFirst, Entered, Seeks.SeekSector, Seeks.PassedOver, Seeks.LedBack, Searching.Playing, Searching.Scanned,
      Searching.SeekTarget, Searching.Before, Searching.CurrentSector, AngleCell;
    SeekPlays(d, o, p, pgc, from, last, admap, offset, origin, n, sector, turns, fuel, media, x, k);
    Seeks.SearchAsks(d, p, pgc, from, last, admap, offset, origin, n, sector);
    var first := pgc.cells[n - 1].first;
    if Seeks.LedBack(pgc, Reg(p.state, AGL_REG), p, admap, n, last, sector, first) {
      Seeks.OnlyAngleZero(pgc, Reg(p.state, AGL_REG), p, admap, n, last, sector, first);
    }
  }

  // Forward seeks

  /** The VOBU that a forward seek to the sector asks for when one is left in the cell. */
  function NextVobu(admap: seq<nat>, sector: nat, cur: nat): nat {
    if Searching.Scanned(admap, sector, false) > cur then Searching.Scanned(admap, sector, false)
    else Searching.Scanned(admap, sector, true)
  }

  /** Play in cell m from the sector is ahead of `cur` in cell n: later in that cell while a
      VOBU of it is left, and else in the next cell, as the angle plays it. */
  ghost predicate PlaysAhead(pgc: Pgc, angle: u16, admap: seq<nat>, n: int, cur: nat, m: int, sector: int)
    requires 1 <= n <= |pgc.cells|
  {
    if Seeks.Left(admap, pgc.cells[n - 1], cur) then m == n && sector > cur
    else Searching.SomeAbove(admap, cur) && n < |pgc.cells| && m > n && AngleCell(pgc, n + 1, angle) == Ok(m)
  }

  /** What that needs: of the cell, a VOBU left from which play enters ahead, in a cell that
      the selected angle does not lead away from. */
  ghost predicate WayToPlay(d: Disc, s: State, media: int -> Content, pgc: Pgc, admap: seq<nat>, n: int, cur: nat, vobu: nat)
    requires 1 <= n <= |pgc.cells|
  {
    if Seeks.Left(admap, pgc.cells[n - 1], cur) then
      && AngleCell(pgc, n, Reg(s, AGL_REG)) == Ok(n)
      && Entered(d, s, media, vobu).Some? && Entered(d, s, media, vobu).value > cur
    else
      && Searching.SomeAbove(admap, cur) && n < |pgc.cells|
      && AngleCell(pgc, n + 1, Reg(s, AGL_REG)).Ok? && AngleCell(pgc, n + 1, Reg(s, AGL_REG)).value > n
  }

  /** A forward seek within the current cell plays ahead of the current sector exactly when
      the map, the selected angle and the NAV packet of the VOBU asked for lead there; in a
      title with one angle the packet has no say. */
  lemma ForwardSeekPlays(d: Disc, o: Oracle, p: Searching.Player, pgc: Pgc, from: int, last: int, admap: seq<nat>,
                         offset: int, origin: Searching.Origin, sector: nat, turns: nat, fuel: nat,
                         media: int -> Content, x: Session, k: nat)
    requires Searching.Playing(d, p, pgc, from, last, admap) && Searching.CurrentSector(p.vobu) < sector
    requires Seeks.Targets(p, pgc, from, last, offset, origin, p.state.cellN, sector)
    requires var r := Seeks.SeekSector(d, o, p, offset, origin, turns, fuel);
             r.Ok? && r.value.0 && PlaysFirst(d, media, p, r.value.1, x, k)
    ensures var n, cur, angle := p.state.cellN, Searching.CurrentSector(p.vobu), Reg(p.state, AGL_REG);
            var vobu := NextVobu(admap, sector, cur);
            && (PlaysAhead(pgc, angle, admap, n, cur, x.vms[k].cellN, x.heard[k].status.event.sector) <==>
                WayToPlay(d, p.state, media, pgc, admap, n, cur, vobu))
            && (Angles(d, p.state).Ok? && Angles(d, p.state).value.1 <= 1 ==>
                (WayToPlay(d, p.state, media, pgc, admap, n, cur, vobu) <==> Seeks.WayAhead(pgc, angle, admap, n, cur)))
  {
    hide PlaysFirst, Entered, Seeks.SeekSector, Searching.Scanned, Searching.Before, Searching.Replayed,
      Searching.SeekTarget, Searching.CurrentSector, AngleCell, Angles;
    var n, cur := p.state.cellN, Searching.CurrentSector(p.vobu);
    var s := Seeks.SeekSector(d, o, p, offset, origin, turns, fuel).value.1;
    Seeks.SeekStands(d, o, p, pgc, from, last, admap, offset, origin, n, sector, turns, fuel);
    Seeks.ForwardAsks(p, pgc.cells, admap, n, last, sector);
    var asks := Seeks.Asks(p, pgc.cells, admap, n, last, sector);
    AngleCellInRange(pgc, asks.cell, Reg(p.state, AGL_REG));
    SeekEnters(d, media, p, pgc, s, x, k);
    OneAngle(d, p.state, media, NextVobu(admap, sector, cur));
  }

  lemma OneAngle(d: Disc, s: State, media: int -> Content, sector: int)
    ensures Angles(d, s).Ok? && Angles(d, s).value.1 <= 1 ==> Entered(d, s, media, sector) == Some(sector)
  {
  }

  // Time seeks

  /** Cell n plays at the time, and v is the VOBU that holds the sector played then. */
  ghost predicate TimedAt(cells: seq<Cell>, from: int, last: int, admap: seq<nat>, time: nat, n: int, v: int) {
    && from <= n <= last && 1 <= n <= |cells| && Seeks.PlaysAt(cells, from, n, time)
    && Searching.InCell(cells[n - 1], time - Searching.TimeBefore(cells, from, n), admap, v - cells[n - 1].first)
  }

  lemma TimedOnce(cells: seq<Cell>, from: int, last: int, admap: seq<nat>, time: nat, n: int, v: int, m: int, w: int)
    requires TimedAt(cells, from, last, admap, time, n, v) && TimedAt(cells, from, last, admap, time, m, w)
    ensures m == n && w == v
  {
    hide Searching.Interpolated;
    if n < m {
      Searching.TimeGrows(cells, from, n + 1, m);
    } else if m < n {
      Searching.TimeGrows(cells, from, m + 1, n);
    }
  }

  /** A time seek plays from the VOBU that holds the sector played at that time, in the cell
      that plays it, exactly when the selected angle plays that very cell, and the title has
      one angle or the VOBU's NAV packet names no next one. */
  lemma TimeSeekPlays(d: Disc, o: Oracle, p: Searching.Player, pgc: Pgc, from: int, last: int, admap: seq<nat>,
                      time: nat, turns: nat, fuel: nat, media: int -> Content, x: Session, k: nat)
    requires Ready(p) && Seeks.TimeSeekable(d, p, pgc, from, last, admap)
    requires var r := Seeks.SeekTime(d, o, p, time, turns, fuel);
             r.Ok? && r.value.0 && PlaysFirst(d, media, p, r.value.1, x, k)
    ensures exists n, v :: TimedAt(pgc.cells, from, last, admap, time, n, v)
    ensures forall n, v | TimedAt(pgc.cells, from, last, admap, time, n, v) ::
              (x.heard[k].status.event.sector == v && x.vms[k].cellN == n <==>
                  AngleCell(pgc, n, Reg(p.state, AGL_REG)) == Ok(n) && Entered(d, p.state, media, v) == Some(v))
  {
    hide PlaysFirst, Entered, Seeks.SeekTime, Searching.Replayed, Searching.TimeBefore, Searching.InCell, Seeks.PlaysAt,
      Searching.TimeSearch, AngleCell, Searching.Settled, Searching.Clocked;
    var s := Seeks.SeekTime(d, o, p, time, turns, fuel).value.1;
    Seeks.TimeStands(d, o, p, pgc, from, last, admap, time, turns, fuel);
    var seek := Searching.TimeSearch(d, p, time).value;
    AngleCellInRange(pgc, seek.cell, Reg(p.state, AGL_REG));
    SeekEnters(d, media, p, pgc, s, x, k);
    var n, v := seek.cell, seek.block + pgc.cells[seek.cell - 1].first;
    assert v - pgc.cells[n - 1].first == seek.block;
    assert TimedAt(pgc.cells, from, last, admap, time, n, v);
    forall m, w | TimedAt(pgc.cells, from, last, admap, time, m, w) ensures m == n && w == v {
      TimedOnce(pgc.cells, from, last, admap, time, n, v, m, w);
    }
  }

  // Where two of those seeks play

  /** The NAV packet at the sector carries that number and names the next VOBU, or none, by
      its offset; it does not end an interleaved unit. */
  predicate NamesNext(media: int -> Content, sector: nat, next: nat) {
    && media(sector).NavPack?
    && var nav := media(sector).nav;
    nav.lbn == sector && nav.next == next && nav.category == 0
  }

  lemma ProgramAngles(cells: seq<Cell>, angles: nat, angle: u16, media: int -> Content, sector: nat, next: nat)
    requires NamesNext(media, sector, next) && next <= SRI_END_OF_CELL
    ensures Entered(Seeks.OneProgram(cells, angles), Seeks.InFirstCell(angle), media, sector) ==
            Some(sector + if angles <= 1 || next == SRI_END_OF_CELL then 0 else next)
  {
  }

  lemma ProgramEnters(cells: seq<Cell>, angles: nat, p: Searching.Player, s: State, sector: nat, next: nat,
                      media: int -> Content, x: Session, k: nat)
    requires p.state == Seeks.InFirstCell(Reg(p.state, AGL_REG)) && Ready(p) && SoughtFrom(p, s)
    requires PlaysFirst(Seeks.OneProgram(cells, angles), media, p, s, x, k)
    requires 1 <= s.cellN <= |cells| && sector == cells[s.cellN - 1].first + s.blockN
    requires NamesNext(media, sector, next) && next <= SRI_END_OF_CELL
    ensures x.vms[k].cellN == s.cellN
    ensures x.heard[k].status.event.sector == sector + if angles <= 1 || next == SRI_END_OF_CELL then 0 else next
  {
    hide PlaysFirst, SoughtFrom, Ready, Entered, NamesNext;
    Seeks.FirstCellInv(cells, angles, Reg(p.state, AGL_REG));
    SeekEnters(Seeks.OneProgram(cells, angles), media, p, Pgc([1], cells, [], [], [], 0, 0, 0, 0), s, x, k);
    ProgramAngles(cells, angles, Reg(p.state, AGL_REG), media, sector, next);
  }

  /** From sector 7 of a plain cell, SEEK_SET to 2 leaves the VM at the VOBU that holds sector
      2. In a title with one angle play begins there; but with several, and a NAV packet
      there that names the VOBU at 5, play begins at 5, behind the target. */
  lemma SeekSkipsTarget(o: Oracle, angles: nat, media: int -> Content, x: Session, k: nat)
    requires NamesNext(media, 0, 5)
    requires var d, p := Seeks.OneProgram(Seeks.TWO_VOBUS, angles), Seeks.PlayerAt([0, 5], 5, 2, 1);
             var r := Seeks.SeekSector(d, o, p, 2, Searching.SeekSet, 1, 0);
             r.Ok? && PlaysFirst(d, media, p, r.value.1, x, k)
    ensures x.vms[0].cellN == 1 && x.vms[0].blockN == 0
    ensures x.vms[k].cellN == 1 && x.heard[k].status.event.sector == if angles <= 1 then 0 else 5
  {
    hide IsRun, MeetsVm, Undisturbed, NoNavBefore, Seeks.SeekSector,
      SoughtFrom, NamesNext, Searching.SectorSearch, Searching.Playing, Searching.Replayed;
    var d, p := Seeks.OneProgram(Seeks.TWO_VOBUS, angles), Seeks.PlayerAt([0, 5], 5, 2, 1);
    Seeks.TwoVobusAsk(angles);
    Seeks.PlayerJumps(d, o, p, Seeks.TWO_VOBUS, angles, 2, 1, 0);
    var s := Seeks.SeekSector(d, o, p, 2, Searching.SeekSet, 1, 0).value.1;
    SoughtMeans(p, s);
    ProgramEnters(Seeks.TWO_VOBUS, angles, p, s, 0, 5, media, x, k);
  }

  lemma SoughtMeans(p: Searching.Player, s: State)
    requires s.hopChannel == p.state.hopChannel + HOP_SEEK
    requires Searching.Replayed(p.state, s.(hopChannel := p.state.hopChannel))
    ensures SoughtFrom(p, s)
  {
  }

  /** With angle 3 just selected, SEEK_SET from sector 16 to 27 plays from the VOBU that the
      NAV packet at sector 10, the start of angle 3, names: from the one at 25, which holds
      27, if its offset is 15; but behind sector 16 if it is 5, or if it names none. */
  lemma AngleSeekPlays(o: Oracle, next: nat, media: int -> Content, x: Session, k: nat)
    requires NamesNext(media, 10, next) && next <= SRI_END_OF_CELL
    requires var d, p := Seeks.OneProgram(Seeks.THREE_ANGLES, 3), Seeks.PlayerAt(Seeks.THREE_MAP, 15, 1, 3);
             var r := Seeks.SeekSector(d, o, p, 27, Searching.SeekSet, 1, 0);
             r.Ok? && PlaysFirst(d, media, p, r.value.1, x, k)
    ensures x.vms[k].cellN == 3
    ensures x.heard[k].status.event.sector == 10 + if next == SRI_END_OF_CELL then 0 else next
  {
    hide Seeks.SeekSector, PlaysFirst, SoughtFrom, NamesNext, Searching.SectorSearch, Searching.Playing, Searching.Replayed,
      Searching.CurrentSector;
    var d, p := Seeks.OneProgram(Seeks.THREE_ANGLES, 3), Seeks.PlayerAt(Seeks.THREE_MAP, 15, 1, 3);
    Seeks.ThreeAnglesAsk();
    Seeks.PlayerJumps(d, o, p, Seeks.THREE_ANGLES, 3, 27, 1, 25);
    var s := Seeks.SeekSector(d, o, p, 27, Searching.SeekSet, 1, 0).value.1;
    SoughtMeans(p, s);
    ProgramEnters(Seeks.THREE_ANGLES, 3, p, s, 10, next, media, x, k);
  }

  // Resuming

  lemma ResumeGoesOn(d: Disc, o: Oracle, s: State, link: Link, fuel: nat)
    requires Consistent(d) && Inv(d, s) && !s.stopped
    requires link.command == LinkRSM && link.data1 == 0 && s.rsm.cellN != 0
    ensures var t := Navigation.Process(d, o, s, link, fuel); t.Ok? ==> !t.value.state.stopped
  {
    hide Placed, Saved, Navigation.ResumedState, SetPGN, OpenVtsi;
    if s.rsm.vtsN != 0 && OpenVtsi(d, s.(domain := VtsTitle), s.rsm.vtsN).0 {
      NavigationRuns.ResumedInv(d, s, 0);
      SetPGNKeeps(d, Navigation.ResumedState(d, s, 0).(cellN := s.rsm.cellN));
    }
  }

  /** Title set, chain number, cell and block tell the place of a live state in a title. */
  lemma SamePlaceBack(d: Disc, s: State, s0: State)
    requires Consistent(d) && Inv(d, s) && Inv(d, s0) && !s.stopped && !s0.stopped && s0.domain == VtsTitle
    requires NavigationTheorems.BackAt(s, s0, s0.cellN, s0.blockN)
    ensures PlaceOf(d, s) == PlaceOf(d, s0)
  {
    hide StillOf, Saved, Linked;
    TitleSetPositive(d, s0);
    TitleSetPositive(d, s);
  }

  /** A menu call made while a VOBU plays, anything outside titles, and a resume: play does
      not go on with that VOBU but with the one before it, which the VM was told last. */
  lemma ResumeReplays(d: Disc, o: Oracle, run: seq<Navigation.Config>, events: seq<Navigation.Event>, fuel: nat,
                      x: Session, j: nat)
    requires Consistent(d) && Navigation.IsRun(d, o, run, events) && |events| >= 1
    requires NavigationRuns.ConfigInv(d, run[0]) && Departs(run[0], events[0]) && run[0].Idle?
    requires forall k | 1 <= k < |events| :: Outside(run[k], events[k])
    requires Resuming(run[|events|]) && run[|events|].state.domain != VtsTitle
    requires -0x8000_0000 <= run[0].state.blockN < 0x8000_0000
    requires Threaded(d, x) && j < |x.actions| && x.actions[j].Pull? && HeardNav(x.heard[j])
    requires x.vms[j + 1] == run[0].state
    ensures var c := run[|events|];
            var t := Navigation.Process(d, o, c.state, c.link, fuel);
            t.Ok? ==>
              && t.value.Follow?
              && var t' := Navigation.Process(d, o, t.value.state, t.value.link, fuel);
              t'.Ok? && t'.value.Return? && t'.value.hopped && PlaceOf(d, t'.value.state) == x.pumps[j].vobu.start
  {
    hide Navigation.Process, Act, GetNextBlock, Inv, PlaceOf, Outside, Navigation.Advance;
    ResumeRoundTrip(d, o, run, events, fuel);
    NavigationRuns.RunKeeps(d, o, run, events, |events|);
    assert StepAt(x.pumps, x.actions, x.heard, j) && MeetsVm(d, x, j);
    NavNames(x.pumps[j], x.actions[j]);
    var c := run[|events|];
    var t := Navigation.Process(d, o, c.state, c.link, fuel);
    if t.Ok? {
      NavigationRuns.ProcessKeeps(d, o, c.state, c.link, fuel);
      NavigationRuns.ProcessKeeps(d, o, t.value.state, t.value.link, fuel);
      ResumeGoesOn(d, o, c.state, c.link, fuel);
      PlayThisReturns(d, o, t.value.state, t.value.link, fuel);
      SamePlaceBack(d, Navigation.Process(d, o, t.value.state, t.value.link, fuel).value.state, run[0].state);
    }
  }
}
