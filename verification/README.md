# A model of libdvdnav

This project models the DVD player core of libdvdnav in Dafny and proves what
the code and its documentation promise about it. Six parts are modelled:

* the command interpreter (`Bits`, `Decoder`, `Interpreter`, `CommandLists`):
  bit fields of 64-bit instructions, conditions, set operations, and the goto
  loop with its cap of 100000 commands;
* the navigation state machine (`Disc`, `Machine`, `Navigation`, `Player`):
  about thirty link kinds, the mutually recursive play operations, the calls
  from outside and the one-deep resume slot, with what every run keeps in
  `NavigationLaws`, `NavigationRuns`, `NavigationTheorems`, `CallBlocks` and
  `Playback`;
* the zero-copy read cache (`ReadCache`), on heap arrays;
* the event pump (`Positions`, `EventPump`, `PumpTheorems`), and in place on top
  of the cache (`Navigator`);
* seeking by sector and by time (`Times`, `Searching`; with the jump of the VM
  `Seeks`; and with the event pump, up to the first NAV packet, `Arrivals`);
* the remap table (`Remap`).

Code that updates state in place is a class (`Interpreter.Command`,
`Player.Vm`, `ReadCache.Cache`, `Navigator.Dvdnav`, `Remap.Table`), or a method
with the source's loop. Each method is proved to compute a specification
function of the old state; the theorems are lemmas about those functions and
about runs of them, or invariants every method keeps.

## Conventions

* A failed C assertion, an access outside a table and an undefined read are the
  outcome `Abort`. Theorems about results speak of outcomes that are `Ok`.
* The disc is an immutable value. Distinct table slots hold distinct PGCs, and
  a title set opens exactly when its number exists.
* Play operations call each other through next-chain links, and the link loop
  of `process_command` need not end (codes 4, 8, 14 and 15 have no case). Both
  get a bound; running out of it is the outcome `Spent`. Theorems hold for every
  bound, and `Playback` proves when the play operations never run out.
* Clock, random numbers and reads of system registers 24 to 31 (which C takes
  from behind the array) come from an arbitrary oracle, one value per command.
* A product in a set operation that leaves int32 wraps around.

## Where the code and its comments or promises differ

* `*=` is meant to saturate and does so only while the product fits an int32
  (`MultiplySaturates`, `MultiplyOverflows`).
* `vm_jump_title_program` with a chain that does not exist is refused after the
  title registers were already changed (`ProgramJumpLinks`,
  `ProgramJumpUnlinks`). `dvdnav_program_play` does not check the chain, so
  `Legal` asks it of the caller.
* `dvdnav_sector_search` promises playback from the last VOBU boundary before the
  sector (src/dvdnav/dvdnav.h:355-360). Three things decide whether it plays from
  there (`SeekPlays`; `TimeSeekPlays` for times):
  * A forward seek within the VOBU being played passes the sector over, for the
    next VOBU, if the address map has one (`PassedOver`). From the first angle of a
    block it can step into another angle's cell (`ForwardSeekUncounted`,
    `ForwardEntersOtherAngle`). If the map has no VOBU after the current sector the
    seek goes back instead (`ForwardSeekEnds`, `ForwardFallsBack`).
  * The jump that ends a seek plays the selected angle. A target in an angle block
    is kept only if that angle plays the block's first cell; otherwise the VM stands
    at the start of the angle's cell, possibly behind the current sector
    (`SeekSetArrives`, `TimeSeekArrives`, `AngleLeadsSeekBack`).
  * In a title with several angles, as dvdnav_get_angle_info reports it, the event
    pump then drops the VOBU the VM stands at, plain cell or not, and plays from the
    next one that its NAV packet names (src/dvdnav.c:512-543). So the target's own
    VOBU is played only if its packet names none (`SeekPlays`, `SeekSkipsTarget`),
    and where play begins in another angle is up to the packet at the start of its
    cell: ahead or behind (`AngleSeekPlays`). A forward seek plays ahead exactly
    when the map, the angle and that packet lead there (`ForwardSeekPlays`).
* The comment at src/dvdnav.c:838-840 says that blockN tells which VOBU is being
  played, so that a resume goes back to it. It names the VOBU just left (`NavNames`),
  and a resume replays from the VOBU before the one that was playing
  (`ResumeReplays`).
* A remap entry that bridges two stored blocks leaves the table unsorted
  (`StaysSortedIff`, `BridgeExample`); coverage stays exact all the same.
* A sector before the first address-map entry is answered with the last one
  (`ScanMisses`).

## Model

| member | source | states |
|---|---|---|
| Interpreter.Command.GetBits | src/vm/decoder.c:43-67 | A bit field is the slice of the instruction it names, and exactly those bits become examined; a call outside the range aborts in C and is excluded by InRange |
| Bits.SliceIsFloorMod | src/vm/decoder.c:43-67 | Slicing count bits down from bit start is floor(x / 2^(start+1-count)) mod 2^count |
| Bits.SliceByMask | src/vm/decoder.c:48-66 | The mask-and-shift code computes that slice |
| Bits.MarkedBits | src/vm/decoder.c:58-60 | The examined mask grows by exactly the bits start down to start-count+1 |
| Interpreter.Command.GetGPRM | src/vm/decoder.c:69-84 | A register in counter mode reads its start value plus the seconds elapsed, modulo 2^16; others read their value |
| Interpreter.Command.SetGPRM | src/vm/decoder.c:86-91 | Setting a counter register restarts its clock; nothing else changes |
| CommandLists.CounterCounts | src/vm/decoder.c:69-91 | A counter set to v later reads v plus the whole seconds gone by, modulo 2^16 |
| Interpreter.Command.EvalReg | src/vm/decoder.c:107-116 | System and general registers are told apart by bit 7 of the code |
| Interpreter.Command.EvalRegOrData | src/vm/decoder.c:121-127 | An operand is the 16-bit immediate or the register its low byte names |
| Interpreter.Command.EvalRegOrData2 | src/vm/decoder.c:133-139 | An operand is a 7-bit immediate or a general register |
| Interpreter.Command.EvalIfVersion1 | src/vm/decoder.c:168-175 | The test decoded from the version-1 fields, over the register values |
| Interpreter.Command.EvalIfVersion2 | src/vm/decoder.c:179-186 | The test decoded from the version-2 fields |
| Interpreter.Command.EvalIfVersion3 | src/vm/decoder.c:190-197 | The test decoded from the version-3 fields |
| Interpreter.Command.EvalIfVersion4 | src/vm/decoder.c:202-209 | The test decoded from the version-4 fields |
| CommandLists.ReadsCommute | src/vm/decoder.c:144-209 | The two operands of a test read the same in either order at one instant |
| Interpreter.Command.EvalSpecialInstruction | src/vm/decoder.c:213-238 | Nop, goto, break and parental level as decoded; break is a goto to line 256 |
| Interpreter.Command.EvalLinkSubins | src/vm/decoder.c:243-254 | A sub-instruction link with its button, taken when the condition holds |
| Interpreter.Command.EvalLinkInstruction | src/vm/decoder.c:260-287 | Every link instruction as decoded; codes without a case give no link |
| Interpreter.Command.EvalJumpInstruction | src/vm/decoder.c:293-358 | Every jump and call as decoded, with its operands |
| Interpreter.Command.EvalSystemSet | src/vm/decoder.c:362-408 | Exactly the stream, timer, counter-mode and button registers the instruction names are assigned |
| Interpreter.Command.EvalSetOp | src/vm/decoder.c:415-468 | Each set operation leaves the register file the specification gives: capped sums and products, guarded division, swap |
| Interpreter.Command.EvalSetVersion1 | src/vm/decoder.c:471-480 | The first set encoding reads the operand fields it should and applies the operation under the condition |
| Interpreter.Command.EvalSetVersion2 | src/vm/decoder.c:484-493 | The second set encoding, likewise |
| Interpreter.Command.EvalCommand | src/vm/decoder.c:499-585 | One evaluated command equals executing its decoding, for every 64-bit word: test, set and link in the order each type prescribes |
| CommandLists.MultiplySaturates | src/vm/decoder.c:436-440 | Multiplication is min(a*b, 0xffff) exactly while the product fits an int32 (or wraps to a negative that is stored whole); the condition is an if-and-only-if |
| CommandLists.MultiplyOverflows | src/vm/decoder.c:436-440 | A concrete product that does not saturate: 0xffff * 0xffff is stored as 1 |
| CommandLists.SwapExchanges | src/vm/decoder.c:422-425 | A swap with a plain register operand exchanges exactly two registers and is its own inverse |
| CommandLists.SwapOperand | src/vm/decoder.c:471-493 | In both encodings the operand of a swap in register mode is the register of its second field |
| CommandLists.SwapCommand | src/vm/decoder.c:471-585 | The same for whole commands of types 3 and 4 |
| CommandLists.VmEvalCmd | src/vm/decoder.c:588-637 | The goto loop returns what the recursive run of the list returns; an index outside the list ends it |
| CommandLists.LoopIsIteration | src/vm/decoder.c:588-637 | The loop is iteration of single steps: every step runs a command of the list, at most 100000 in all, and it stops at the first step that cannot run |
| CommandLists.ResultMeansLink | src/vm/decoder.c:588-637 | The result is a link exactly when the last command run takes that very link, with the registers that command left; an empty list changes nothing |
| CommandLists.BreakEndsShortLists | src/vm/decoder.c:223-226 | A taken break goes to line 256 and ends every list of at most 255 commands; a longer list runs on |
| CommandLists.ForwardRunsAreShort | src/vm/decoder.c:588-637 | A run whose taken gotos all go forward ends within the length of the list |
| CommandLists.ExecuteFrame | src/vm/decoder.c:213-493 | One command, whatever its bits, leaves every system register but 1, 2, 3, 8, 9, 10 and 13 alone |
| CommandLists.ExecuteLinks | src/vm/decoder.c:243-358 | No command decodes to the PlayThis link |
| CommandLists.EvalFrame | src/vm/decoder.c:588-637 | No command list changes a protected system register or ends in PlayThis |
| Player.FindTT | src/vm/vm.c:1871-1883 | The search finds the first title (vts, title within the set), or 0 exactly when there is none |
| Player.FindID | src/vm/vm.c:1888-1922 | The first entry with the menu id, or 0 exactly when there is none |
| Player.FindUnit | src/vm/vm.c:1945-1973 | The first unit of the language, else the first unit |
| Player.FindLeading | src/vm/vm.c:1823-1825 | The number of leading programs entered at or before the cell |
| Player.SearchTitlePart | src/vm/vm.c:726-745 | The first title and part where the chain and program lie, by name or between two parts |
| Player.Vm.GetPGCIT | src/vm/vm.c:1976-1997 | The PGC table of the current domain |
| Player.Vm.FindPGCN | src/vm/vm.c:1925-1943 | The entry that holds the current PGC; the assertion on pgcN is an abort |
| Player.Vm.GetCurrentTitlePart | src/vm/vm.c:716-766 | The title and part of the current position, or not found |
| Player.Vm.IfoOpenNewVTSI | src/vm/vm.c:247-283 | Opens the title set unless it is the current one |
| Player.Vm.SetPgcN | src/vm/vm.c:1794-1816 | Sets the PGC, its number, program 1 and, in titles, TT_PGCN_REG; refuses numbers outside the table |
| Player.Vm.SetPgN | src/vm/vm.c:1819-1841 | Program and part from the cell; false behind the last cell |
| Player.Vm.SetRsmInfo | src/vm/vm.c:1844-1862 | Saves title set, block, registers 4 to 8, chain and cell |
| Player.Vm.SetVtsPart | src/vm/vm.c:1710-1740 | Goes to a part of a title of a set: registers 4 to 7 and the chain |
| Player.Vm.SetPart | src/vm/vm.c:1700-1704 | The same by title number |
| Player.Vm.SetVtsProgram | src/vm/vm.c:1748-1776 | Goes to a program of a chain of a title |
| Player.Vm.SetProgram | src/vm/vm.c:1742-1746 | The same by title number |
| Player.Vm.SetFirstPlay | src/vm/vm.c:1778-1786 | Goes to the First Play PGC, or to entry 1 when there is none |
| Player.Vm.SetMenu | src/vm/vm.c:1789-1792 | Goes to the menu of the given kind |
| Player.Vm.PlayChainAt | src/vm/vm.c:1054-1092 | Runs the pre-commands, then the program |
| Player.Vm.PlayChain | src/vm/vm.c:1014-1052 | The same from program 1 |
| Player.Vm.PlayChainPost | src/vm/vm.c:1094-1122 | Runs the post-commands, then the next chain |
| Player.Vm.PlayProgram | src/vm/vm.c:1124-1142 | Enters the program's cell, or the post phase behind the last program |
| Player.Vm.PlayCell | src/vm/vm.c:1144-1215 | Picks the angle's cell, sets program and part, and plays |
| Player.Vm.PlayCellPost | src/vm/vm.c:1217-1294 | Runs the cell command and moves on over the other angles of a block |
| Player.Vm.FollowResume | src/vm/vm.c:1417-1462 | LinkRSM: restores the saved record, and splits the block over two link fields |
| Player.Vm.FollowMoveLink | src/vm/vm.c:1313-1367 | The cell and program links |
| Player.Vm.FollowPartLink | src/vm/vm.c:1469-1480 | LinkPTTN |
| Player.Vm.FollowChainLink | src/vm/vm.c:1369-1500 | The chain links, exit and the codes without a case |
| Player.Vm.FollowVtsMenuLink | src/vm/vm.c:1565-1608 | JumpSS to a menu of a title set |
| Player.Vm.FollowJumpLink | src/vm/vm.c:1504-1622 | Every jump link |
| Player.Vm.FollowCallLink | src/vm/vm.c:1623-1680 | Every call link: the record is saved, then the target entered |
| Player.Vm.ProcessCommand | src/vm/vm.c:1299-1691 | The link loop in place computes the iterated single turns, for any number of turns |
| Player.Vm.StartPlaying | src/vm/vm.c:318-329 | vm_start computes the same state as the transition system's Start |
| Player.Vm.ResetPlayer | src/vm/vm.c:351-385 | vm_reset on an open disc |
| Player.Vm.GoToNextCell | src/vm/vm.c:545-547 | vm_get_next_cell |
| Player.Vm.GoToProgram | src/vm/vm.c:552-556 | vm_jump_pg |
| Player.Vm.GoToCellBlock | src/vm/vm.c:558-565 | vm_jump_cell_block keeps the block only when no angle led elsewhere |
| Player.Vm.GoToTitleProgram | src/vm/vm.c:567-583 | vm_jump_title_program |
| Player.Vm.GoToTitlePart | src/vm/vm.c:585-601 | vm_jump_title_part: a jump out of the pre-commands is ignored |
| Player.Vm.GoToTopProgram | src/vm/vm.c:603-606 | vm_jump_top_pg |
| Player.Vm.GoToNextProgram | src/vm/vm.c:608-617 | vm_jump_next_pg: the post phase after the last program |
| Player.Vm.GoToPreviousProgram | src/vm/vm.c:619-632 | vm_jump_prev_pg: the last program of the previous chain before the first |
| Player.Vm.GoUpwards | src/vm/vm.c:634-640 | vm_jump_up |
| Player.Vm.GoToMenu | src/vm/vm.c:642-682 | vm_jump_menu saves the record from a title and restores the domain on failure |
| Player.Vm.GoBack | src/vm/vm.c:684-692 | vm_jump_resume |
| Player.Vm.Execute | src/vm/vm.c:694-701 | vm_exec_cmd |
| NavigationTheorems.LinkedRegisters | src/vm/vm.c:1299-1691 | Over all runs: in a live title state TTN_REG names (vtsN, VTS_TTN_REG) and TT_PGCN_REG is pgcN; a live saved record satisfies the same; TTN_REG never exceeds the title count |
| NavigationTheorems.TitleNumberInRange | src/vm/vm.c:1833-1835 | Over all runs, on the states between calls and turns, set_PGN answers 0 only behind the last cell |
| Playback.PlayCellAssertsNothing | src/vm/vm.c:1144-1215 | In play_Cell set_PGN never answers 0, so the assertion behind it is dead: a cell of the chain is played exactly when its block mode and type allow it |
| Playback.PlayCellPostAsks | src/vm/vm.c:1217-1294 | In play_Cell_post set_PGN answers 0 exactly when the next cell lies past the end |
| Playback.LinkResumeAsks | src/vm/vm.c:1417-1462 | In LinkRSM set_PGN answers 0 exactly when the saved cell lies past the end |
| Playback.PlayCallsKeep | src/vm/vm.c:1014-1142 | The states at which the play operations call each other within a turn satisfy the invariant again |
| NavigationRuns.ProcessKeeps | src/vm/vm.c:1299-1691 | One turn of the link loop keeps the invariant: registers linked, PGC in the domain's table, title set open, record consistent |
| NavigationRuns.LoopKeeps | src/vm/vm.c:1299-1691 | The whole link loop keeps it, and a result of 1 leaves a playable position |
| NavigationRuns.PerformKeeps | src/vm/vm.c:318-701 | Every call from outside, link loop and all, keeps it |
| NavigationRuns.RunKeeps | src/vm/vm.c:318-1691 | Every run of calls and turns keeps it |
| NavigationTheorems.ProgramJumpLinks | src/vm/vm.c:1748-1776 | The one operation that can break the links does so exactly when the chain asked for does not exist (and is not, cut to 16 bits, the one playing) |
| NavigationTheorems.ProgramJumpUnlinks | src/vm/vm.c:1748-1776 | A concrete disc and state where it does: refused, yet TT_PGCN_REG changed |
| NavigationTheorems.LeadingIsCount | src/vm/vm.c:1823-1825 | With ascending entries the leading programs are all programs entered at or before the cell |
| NavigationTheorems.PlayablePosition | src/vm/vm.c:1144-1215 | Over all runs, before PlayThis outside First Play: the PGC is entry pgcN of the domain's table, the cell is one of its cells, and pgN counts the programs entered up to it |
| NavigationTheorems.ProcessSlot | src/vm/vm.c:1299-1691 | No turn outside the title domain changes the saved record |
| NavigationTheorems.RunSlot | src/vm/vm.c:318-1691 | Nor does any run outside it |
| NavigationTheorems.CallRecords | src/vm/vm.c:1623-1680 | A CallSS link that leaves the title domain saves the position it left |
| NavigationTheorems.MenuRecords | src/vm/vm.c:642-648 | So does a menu call, with the current block |
| NavigationTheorems.ResumeRestores | src/vm/vm.c:1417-1462 | LinkRSM without a button goes to the saved title set, chain, cell and registers 4, 5, 6 and 8 |
| NavigationTheorems.ResumeSucceeds | src/vm/vm.c:1417-1462 | It aborts exactly when the saved cell lies behind the chain's last cell |
| NavigationTheorems.PlayThisJoins | src/vm/vm.c:1689-1689 | The block survives the split over two 16-bit link fields, for every 32-bit value |
| NavigationTheorems.ResumeRoundTrip | src/vm/vm.c:1417-1680 | Leave a title by CallSS or a menu call, run anything outside titles, follow LinkRSM: unless it aborts, the player is back at the title set, chain, registers, cell and block it left |
| Playback.PlayOperationsEnd | src/vm/vm.c:1014-1294 | With no empty chain and entries in range the play operations end within one hop to another chain |
| Playback.MoreFuel | src/vm/vm.c:1014-1294 | The bound on hops does not matter: more of it gives the same result |
| Playback.AngleTraversal | src/vm/vm.c:1144-1294 | With no cell commands, playing from cell 1 and after each cell visits exactly the selected cells, and enters the post phase from the state of the last one |
| Playback.SelectedIsFilter | src/vm/vm.c:1144-1294 | The selected cells are the plain cells and the AGL-th cell of each block |
| Playback.SelectedAscends | src/vm/vm.c:1144-1294 | They are visited once each in increasing order |
| Playback.PlacedIsSteady | src/vm/vm.c:1819-1841 | On every state the player reaches, the part lookup of set_PGN cannot abort |
| Playback.QueryFinds | src/vm/vm.c:716-766 | Where parts are unambiguous, the current-part query answers the title and part being played |
| Playback.JumpThenQuery | src/vm/vm.c:585-601 | The whole call of a jump to a part answers 1 and leaves the query answering that title and part, and PTTN_REG that part, whether or not the pre-commands tried to jump, if every angle of the program's entry stays in the program |
| Playback.PlainEntryStays | src/vm/vm.c:1144-1215 | A program entered at a plain cell meets that condition |
| Player.Vm.GetPosition | src/vm/vm.c:496-543 | vm_position_get: the position, with a still declared by cell and PGC or guessed from a short cell with a long time |
| Player.Vm.GetAngleInfo | src/vm/vm.c:873-889 | vm_get_angle_info: the angle played and the number of angles, with its fallbacks |
| PumpTheorems.PositionIsSafe | src/vm/vm.c:496-543 | On every playable position vm_position_get stays inside the tables and names cell, first sector and block |
| PumpTheorems.AnglesOfTitle | src/vm/vm.c:873-889 | Over all runs, in a title the angle query's two fallbacks are dead |
| Searching.HopPlays | src/vm/vm.c:558-565 | A seek's jump plays the cell at the block, unless an angle leads to another cell, which then plays from its start |
| Player.Vm.FinishSeek | src/searching.c:322-329 | The end of both seeks in place: the jump, and the step of the hop counter |
| ReadCache.BestFitIsSmallest | src/read_cache.c:172-178 | The first selection loop finds the first of the smallest free buffers that fit |
| ReadCache.LargestIsLargest | src/read_cache.c:181-185 | The second finds the first of the largest free buffers |
| ReadCache.FirstEmptyIsFirst | src/read_cache.c:195-199 | The third finds the first chunk without a buffer |
| ReadCache.ChooseSparesUsed | src/read_cache.c:172-224 | Pre-caching never takes a chunk with blocks handed out, and gives up exactly when every chunk has some |
| ReadCache.AheadStaysInBounds | src/read_cache.c:260-290 | Over any list of hits the read-ahead size stays in 4..512, never shrinks on consecutive sectors, and is 4 after a jump |
| ReadCache.ReadSizeReaches | src/read_cache.c:292-301 | A hit reads at least up to the wanted sector and never past the chunk |
| ReadCache.FreedExactlyOnce | src/read_cache.c:124-145 | Once no chunk has a buffer, every buffer ever allocated has been freed exactly once |
| ReadCache.NothingLeft | src/read_cache.c:128-140 | With all unused buffers dropped, none is left exactly when no block is handed out |
| ReadCache.Cache.constructor | src/read_cache.c:100-122 | A new cache is empty, with ten invalid chunks whose other fields are arbitrary |
| ReadCache.Cache.Clear | src/read_cache.c:148-158 | Clearing invalidates every chunk and disturbs no outstanding block |
| ReadCache.Cache.PreCache | src/read_cache.c:161-226 | The chosen chunk is pointed at the new range, in its old buffer, a resized one or a new one; nothing handed out changes |
| ReadCache.Cache.ReadBlock | src/read_cache.c:228-325 | One sector is delivered exactly as on the disc, on hit or miss; a hit adds one outstanding block and reads ahead in its chunk only |
| ReadCache.Cache.FreeBlock | src/read_cache.c:327-352 | Any block is counted off every chunk that contains it; while disposing, unused buffers go, and the cache with the last buffer. Returning outstanding or foreign blocks keeps every promise of the cache |
| ReadCache.Cache.Dispose | src/read_cache.c:124-145 | Every buffer without outstanding blocks is freed, and the cache exactly when no buffer is left; on a valid cache that is when no block is out, all buffers freed once |
| ReadCache.Replay | src/read_cache.c:124-352 | Over every history of pre-caching, reads, file changes, disposing and returns the cache delivers what uncached reads deliver, outstanding blocks hold what they held, and the cache goes, once, exactly when disposing was asked for and the last block is back |
| ReadCache.Cache.Answer | src/read_cache.c:124-352 | One request keeps all of it; once disposing has begun only returns matter |
| ReadCache.Cache.OpenFile | src/dvdnav.c:621-624 | The cache is cleared with every change of file |
| Times.ConvertTime | src/dvdnav.c:263-283 | The accumulated sum is the tick count of the four bytes |
| Times.TicksOfBcd | src/dvdnav.c:263-283 | A time written in BCD at 25 or 30 frames a second reads back as its length in 90 kHz ticks |
| Times.TicksBounded | src/dvdnav.c:263-283 | No four bytes stand for more than LONGEST ticks |
| Navigator.Dvdnav.FillVobu | src/dvdnav.c:357-422 | dvdnav_get_vobu in place: length and next VOBU from the packet, or from the angle tables at the end of an interleaved unit |
| Navigator.Dvdnav.ReadSector | src/dvdnav.c:825-837 | A sector read through the cache is what the disc holds there |
| Navigator.Dvdnav.Hop | src/dvdnav.c:506-554 | The hop branch in place, with the extra VOBU read through the cache after a seek among angles |
| Navigator.Dvdnav.ChangeVts | src/dvdnav.c:583-649 | The file-change branch in place: the cache is cleared and serves the new file |
| Navigator.Dvdnav.CellEvent | src/dvdnav.c:665-692 | The sums of the cell event |
| Navigator.Dvdnav.ChangeCell | src/dvdnav.c:651-713 | The cell-change branch in place |
| Navigator.Dvdnav.EndCell | src/dvdnav.c:787-813 | The end of a cell in place: still, wait and next cell |
| Navigator.Dvdnav.ReadNav | src/dvdnav.c:815-863 | The start of a VOBU in place: NAV packet through the cache, and the hint that pre-caches the VOBU |
| Navigator.Dvdnav.ReadBlock | src/dvdnav.c:865-884 | A plain block in place, through the cache |
| Navigator.Dvdnav.GetNextCacheBlock | src/dvdnav.c:467-884 | The whole call in place, with every sector read through the cache, computes the specified step: status, event, every field and the VM state; the cache stays valid and serves the open file |
| PumpTheorems.AnnouncesInOrder | src/dvdnav.c:506-768 | A successful call announces exactly the most important difference between the told and the actual position and leaves only lesser ones, although file and cell changes re-arm later events |
| PumpTheorems.AnnouncementsEnd | src/dvdnav.c:506-768 | While the VM stays put, after at most seven calls nothing is left to announce |
| PumpTheorems.AnnouncedOnceInOrder | src/dvdnav.c:506-768 | Of two announcements the later one is the lesser: each kind comes at most once, in the order hop, highlight, file, cell, palette, subtitle, audio |
| PumpTheorems.DataOnlyWhenTold | src/dvdnav.c:770-884 | A call answers with a still, a nop or a sector exactly when nothing differs and no wait is due |
| PumpTheorems.DeliveredBounded | src/dvdnav.c:784-884 | Over every run of calls 0 <= blockN <= vobu_length |
| PumpTheorems.RunIsChain | src/dvdnav.c:467-884 | Every call of a run does to the VOBU record what its answer tells |
| PumpTheorems.ChainDelivers | src/dvdnav.c:784-884 | On any such chain the sectors heard after a NAV packet are the next ones of its VOBU in order, once each, all of them by its end |
| PumpTheorems.SegmentDelivers | src/dvdnav.c:784-884 | From a NAV packet on, without hop, cell change or failure, the sectors delivered are the next ones of its VOBU in order, once each, and all of them when the next NAV packet is read or the cell ends |
| PumpTheorems.GetVobuIs | src/dvdnav.c:357-422 | A NAV packet's own number starts the VOBU, and its length is the VOBU's or the interleaved unit's |
| PumpTheorems.AnchorIsStart | src/dvdnav.c:506-863 | The VOBU start is always the last NAV packet delivered, or the entry sector of a later hop or cell change |
| PumpTheorems.VmNamesVobu | src/dvdnav.c:838-841 | The block told to the VM with a NAV packet names the one before it, or the entry sector |
| PumpTheorems.NavNames | src/dvdnav.c:838-841 | A NAV packet makes cell and blockN of the VM name the VOBU just left |
| Arrivals.ResumeReplays | src/dvdnav.c:838-841 | A menu call while a VOBU plays, anything outside titles, and a resume: the place resumed at is the VOBU before the one that was playing |
| PumpTheorems.VmAlwaysNamesKnown | src/dvdnav.c:467-884 | While playing, with the VM handed on from call to call, at every state of every run cell and blockN name a NAV packet delivered before or an entry point: the start, the second VOBU of a seek among angles, or the block that a call into the VM can leave |
| CallBlocks.PerformBlocks | src/vm/vm.c:318-700 | After any call into the VM, link loop and all, blockN is 0, the block held before, the saved one or the one the call asks for |
| PumpTheorems.AngleSeekEntersSecond | src/dvdnav.c:512-546 | After a seek among angles the block told to the VM is the second VOBU from the target, and the next cell change enters there |
| PumpTheorems.CellInsideProgram | src/dvdnav.c:665-692 | On playable positions with ascending programs the cell event's times place the cell inside its program |
| Searching.ScanAdmap | src/searching.c:50-97 | The address-map loop computes the specified scan |
| Searching.ScanFinds | src/searching.c:80-92 | On a sorted map with an entry at or before the sector: the greatest such entry, and the least one above, or the same entry when none is |
| Searching.ScanMisses | src/searching.c:80-92 | A sector before the first entry is answered with the last entry |
| Searching.Measure | src/searching.c:552-564 | The position loop computes the specified sums |
| Searching.Locate | src/searching.c:276-286 | The seek loop finds the specified cell and offset |
| Searching.FindPosition | src/searching.c:508-571 | dvdnav_get_position: refused, position and length, or the failed assertion |
| Searching.NumberingIsBijection | src/searching.c:552-564 | Positions number the sectors in play 0..len-1, and locating a position inverts its number, both ways |
| Searching.PositionReported | src/searching.c:536-564 | The reported position is the number of the current sector and lies below the reported length |
| Searching.SearchSector | src/searching.c:184-339 | dvdnav_sector_search up to its jump: origins, 32-bit cuts, forward rule and refusals |
| Searching.SeekLands | src/searching.c:276-322 | A seek that does not go forward in the current cell asks for the VOBU that holds the target's sector, in the target's cell |
| Searching.SeekSetReturns | src/searching.c:203-322 | SEEK_SET to a reported position asks for its cell and VOBU, exactly unless it lies ahead in the VOBU being played and another VOBU follows |
| Searching.ForwardHopIs | src/searching.c:287-307 | The forward rule by what the map holds: the target's VOBU, the next one, the next cell's first, or a refusal |
| Searching.ForwardSeekAdvances | src/searching.c:287-307 | What a successful forward seek in the current cell asks for lies ahead exactly when some VOBU starts after the current sector; it is refused only in the last cell with no VOBU left in it |
| Seeks.JumpEnds | src/searching.c:313-331 | The jump of a seek ends in the cell the angle selects: at the block asked for if that is the cell asked for, else at its start; the hop counter takes a seek's step |
| Seeks.JumpSucceeds | src/searching.c:313-331 | On every state the player reaches the jump succeeds exactly when the cell's block mode and type allow it to be played |
| Seeks.SearchAsks | src/searching.c:184-311 | A seek of any origin to a sector in play asks for the VOBU that holds it; or, when that is passed over, for the next VOBU of the cell, or else the start of the next cell; or it is refused |
| Seeks.SeekStands | src/searching.c:184-339 | With the jump, it is refused exactly then, and otherwise the VM ends where the angle leads from there; nothing but position, part register and hop counter changes |
| Seeks.SeekSetArrives | src/searching.c:184-339 | SEEK_SET to a reported position, jump and all, leaves the VM at its cell and VOBU exactly when the forward rule does not pass over it and the selected angle plays that cell; or, with angle 0 only, when the next cell leads back to the VOBU at the start of this one |
| Seeks.ForwardSeekEnds | src/searching.c:184-339 | A forward seek within the current cell, jump and all, leaves the VM ahead of the current sector exactly when a VOBU is left in the cell and the angle does not lead away from it, or the map goes on and the next cell is played; it is refused exactly in the last cell, with VOBUs only behind that cell |
| Seeks.ForwardSeekUncounted | src/searching.c:287-307 | It asks for a cell no position counts exactly when no VOBU is left in the cell, the map goes on, and the next cell belongs to another angle |
| Seeks.AngleLeadsSeekBack | src/searching.c:184-339 | A concrete player in angle 1 at sector 16, with angle 3 selected, whose successful SEEK_SET to 27 leaves the VM at sector 10 |
| Seeks.ForwardFallsBack | src/searching.c:287-307 | A concrete player in a title with one angle whose successful SEEK_SET from sector 3 to 7 ends at sector 0 |
| Seeks.ForwardEntersOtherAngle | src/searching.c:297-302 | A concrete player whose forward SEEK_SET ends in the cell of another angle |
| Arrivals.StaysOnTheWay | src/dvdnav.c:467-860 | From a seek on, until the first NAV packet, whatever else the application does to the pump's flags: first the hop is owed, then the cell change, and then the pump stands where play enters |
| Arrivals.PlayEnters | src/dvdnav.c:467-860 | The first answer after a seek is the hop and leaves the VM where play enters, the cell change enters there, and the first NAV packet is read there: where the VM stood with one angle, and with several at the VOBU named by the packet there, if any |
| Arrivals.NavComesSoon | src/dvdnav.c:467-860 | While every call is answered, that NAV packet is among the first eight answers |
| Arrivals.PulledIsSession | src/dvdnav.c:467-860 | Calling for blocks, at most n times and up to the first NAV packet, is such a session, ended early only by that packet or by a call that cannot be made |
| Arrivals.PlayStarts | src/dvdnav.c:467-860 | And the packet does come: if the NAV packets on the way can be read, calling for blocks after a seek reads the first one within eight calls |
| Arrivals.SeekStarts | src/dvdnav.c:467-860 | The same from the player's side |
| Arrivals.SeekEnters | src/dvdnav.c:506-554 | The same from the player's side: angles and register are those before the seek |
| Arrivals.SeekPlays | src/dvdnav/dvdnav.h:355-360 | A seek of any origin plays from the VOBU that holds its target, in the target's cell, exactly when the VOBU is not passed over, the angle plays that cell, and there is one angle or its NAV packet names no next VOBU; or the VOBU asked for instead leads back to it, by its packet or by angle 0 |
| Arrivals.SeekPlaysPlainly | src/dvdnav/dvdnav.h:355-360 | Without those two ways back only the first case remains |
| Arrivals.ForwardSeekPlays | src/searching.c:287-307 | A forward seek within the current cell plays ahead of the current sector exactly when map, angle and the NAV packet of the VOBU asked for lead there; with one angle the packet has no say |
| Arrivals.SeekSkipsTarget | src/dvdnav.c:512-543 | A concrete player in a plain cell whose SEEK_SET to 2 plays from the VOBU at 0 with one angle, and from the one at 5 with several |
| Arrivals.AngleSeekPlays | src/dvdnav.c:512-543 | The player of AngleLeadsSeekBack plays from the VOBU that the packet at sector 10 names: in the VOBU that holds the target, or behind the current sector |
| Searching.FindTime | src/searching.c:139-155 | The time loop computes the specified cell and sector |
| Searching.InterpolatedInside | src/searching.c:144-150 | The interpolation needs no more than 64 bits for sectors up to 0x300000 and stays in first_sector..last_sector |
| Searching.InterpolatedMonotone | src/searching.c:144-150 | A later time in a cell is never answered with an earlier sector |
| Searching.TimedInside | src/searching.c:139-155 | The cell found is the one whose cumulative interval holds the time; none is found exactly past the end |
| Searching.SearchTime | src/searching.c:101-182 | dvdnav_time_search up to its jump |
| Searching.TimeSeekLands | src/searching.c:101-182 | A time seek asks for the VOBU that holds the interpolated sector of the cell playing at that time, refused exactly past the end |
| Seeks.TimeSeekArrives | src/searching.c:101-182 | A time seek, jump and all, fails exactly past the end and leaves the VM at the VOBU that holds the sector playing at that time exactly when the selected angle plays that cell; otherwise at the start of the angle's cell |
| Arrivals.TimeSeekPlays | src/searching.c:101-182 | A time seek plays from the VOBU that holds the sector played at that time, in the cell that plays it, exactly when the angle plays that cell and there is one angle or the VOBU's packet names no next one; cell and VOBU exist and are unique |
| Remap.CompareIsOverlap | src/remap.c:77-109 | The comparison is 0 exactly when some sector lies in both blocks |
| Remap.SearchMisses | src/remap.c:111-129 | On a sorted table the halving search misses only when nothing overlaps the key |
| Remap.FindIsCovered | src/remap.c:111-129 | It hits a sector exactly when the table covers it, in the only block that does |
| Remap.Table.FindBlock | src/remap.c:111-129 | The loop computes that search |
| Remap.MergeIsUnion | src/remap.c:131-134 | A merged block covers exactly its two parts |
| Remap.Table.MergeBlock | src/remap.c:131-134 | Merges in place and leaves the other blocks |
| Remap.Table.AddNode | src/remap.c:136-158 | Merges into the block found, or grows the array by 20 and shifts the block in at its slot |
| Remap.AddedCovers | src/remap.c:136-158 | One insertion covers what was covered and the block, whatever the order of the table |
| Remap.CoverageIsUnion | src/remap.c:136-158 | After any insertions the covered sectors are exactly those of the inserted blocks |
| Remap.StaysSortedIff | src/remap.c:136-158 | An insertion keeps the table sorted and disjoint exactly when it overlaps at most one stored block |
| Remap.BridgeExample | src/remap.c:131-158 | A concrete block that bridges two stored ones and leaves the table unsorted |
| Remap.TableIsSorted | src/remap.c:136-158 | After any insertions without bridges the table is sorted and disjoint |
| Remap.LoadMap | src/remap.c:231-244 | Loading adds the entries one after another |
| Remap.Table.RemapBlock | src/remap.c:254-279 | The remapped offset, on 64-bit unsigned arithmetic |
| Remap.RemappedMovesForwardOnce | src/remap.c:254-279 | On a sorted table a remapped sector moves to the end of the block that covers it, never backward, and remapping again changes nothing |

## Left out

- Player.Vm.ProcessCommand: the number of turns is a parameter, because the loop need not end; the theorems hold for every number.
- Playback.AngleTraversal: stated for chains without cell commands and with well-formed angle blocks, as only there the cells visited are a function of the angle.
- Interpreter.Command.EvalCommand: the warning about unexamined bits is not modelled; examined bits are tracked in Interpreter.Command.GetBits only.
- CommandLists.CounterCounts: the clock is an input with microseconds below a million; a clock that runs backward is covered only by the modulus.
- ReadCache.Cache.ReadBlock: one sector at a time, as every caller asks; sector numbers are mathematical integers, so the size_t conversions of negative sectors are not modelled, and reads return the full count. The read-ahead happens in the same step that hands the block out.
- ReadCache.Cache.FreeBlock: what a block returned twice does to the chunk is stated; what it does to the promises of the cache is not, as then they no longer hold.
- ReadCache.Cache.PreCache: resizing always gives a new buffer with arbitrary contents; allocation failure and alignment are not modelled.
- PumpTheorems.DeliveredBounded: VOBU lengths are natural numbers; a NAV packet with a length of 2^31 or more, negative in C, is not modelled. Sums of sector numbers in the pump are not cut to 32 bits.
- PumpTheorems.SegmentDelivers: a failed read counts its sector as delivered in C too, so the exact order is stated for segments without failures.
- PumpTheorems.VmAlwaysNamesKnown: stated for consistent discs whose NAV packets carry the number of their own sector, and from a start at an entry point.
- Arrivals.SeekPlays: it and the other theorems of Arrivals are about what is played once the seek succeeds and a NAV packet is delivered, with no remap table loaded and no other call into the VM in between.
- Searching.SearchSector: it and Searching.SearchTime stop before the jump; Seeks.SeekSector and Seeks.SeekTime add it, and Player.Vm.FinishSeek carries it out.
- Seeks.SeekSetArrives: for sorted address maps that contain each cell's first sector, and positions below 2^31.
- Remap.RemappedMovesForwardOnce: for sorted tables; on a table unsorted by a bridge the search may find another block.
- Remap.Table.AddNode: allocation failure is not modelled.
- Playback.JumpThenQuery: chain and program numbers below 0x8000, since the query cuts them to int16_t; and of the angles it asks what a caller can check in the program's entry cell.
- Disc, IFO and NAV packet reading, and opening files: their results are inputs or part of the disc.
- Navigator.Dvdnav.GetNextCacheBlock: the PGC length of the cell event, the palette and the physical stream numbers, which are copied from tables, and the pointer to the sector, which ReadCache.Cache.ReadBlock describes.
- Changing the menu language between calls (src/settings.c), which would change the menu table under a playing menu.
- vm_new_copy and vm_merge, which the next-chapter and menu calls use to try a jump on a copy.
- Threads: each call that holds the lock is one step.
- Highlight geometry, stream, aspect and language getters, dvdnav_get_position_in_title (documented as wrong), chapter descriptions, map-file parsing, and the command printer.
