/** The remap table of src/remap.c: a sorted array of sector ranges that playback
    leaves early, searched by halving and extended in place. */
module Remap {

  /** A range of sectors of one program, both ends included. */
  datatype Block = Block(domain: int, title: int, program: int, start: nat, end: nat)

  /** A sector of one program. */
  datatype Point = Point(domain: int, title: int, program: int, sector: nat)

  /** unsigned long holds 64 bits. */
  const WIDTH := 0x1_0000_0000_0000_0000

  const GROWTH := 20

  // Comparing blocks

  /** -1 if a precedes b, 1 if a follows b, 0 if they share a sector. */
  function Compare(a: Block, b: Block): int {
    if a.domain < b.domain then -1
    else if a.domain > b.domain then 1
    else if a.title < b.title then -1
    else if a.title > b.title then 1
    else if a.program < b.program then -1
    else if a.program > b.program then 1
    else if a.end < b.start then -1
    else if a.start > b.end then 1
    else 0
  }

  predicate Proper(b: Block) {
    b.start <= b.end
  }

  ghost predicate AllProper(s: seq<Block>) {
    forall i :: 0 <= i < |s| ==> Proper(s[i])
  }

  predicate Covers(b: Block, p: Point) {
    b.domain == p.domain && b.title == p.title && b.program == p.program && b.start <= p.sector <= b.end
  }

  ghost predicate Covered(s: seq<Block>, p: Point) {
    exists i :: 0 <= i < |s| && Covers(s[i], p)
  }

  /** Every block lies strictly before all later ones: sorted, and no two share a sector. */
  ghost predicate Sorted(s: seq<Block>) {
    forall i, j :: 0 <= i < j < |s| ==> Compare(s[i], s[j]) < 0
  }

  ghost predicate OverlapsAtMostOne(s: seq<Block>, b: Block) {
    forall i, j :: 0 <= i < j < |s| ==> !(Compare(b, s[i]) == 0 && Compare(b, s[j]) == 0)
  }

  /** The comparison decides overlap: it is 0 exactly when some sector lies in both blocks. */
  lemma CompareIsOverlap(a: Block, b: Block)
    requires Proper(a) && Proper(b)
    ensures Compare(a, b) == 0 <==> exists p :: Covers(a, p) && Covers(b, p)
  {
    if Compare(a, b) == 0 {
      var p := Point(a.domain, a.title, a.program, if a.start < b.start then b.start else a.start);
      assert Covers(a, p) && Covers(b, p);
    }
  }

  lemma CompareFlips(a: Block, b: Block)
    requires Proper(a) && Proper(b)
    ensures Compare(a, b) == -Compare(b, a)
  {
  }

  lemma PrecedesIsTransitive(a: Block, b: Block, c: Block)
    requires Proper(b)
    requires Compare(a, b) < 0 && Compare(b, c) < 0
    ensures Compare(a, c) < 0
  {
  }

  // The halving search

  /** The index findblock answers on s[lb..ub+1], or -1. */
  function Search(s: seq<Block>, key: Block, lb: int, ub: int): (i: int)
    requires 0 <= lb && ub < |s|
    ensures i == -1 || (lb <= i <= ub && Compare(key, s[i]) == 0)
    decreases ub - lb + 1
  {
    if lb > ub then -1
    else
      var mid := lb + (ub - lb) / 2;
      var order := Compare(key, s[mid]);
      if order < 0 then Search(s, key, lb, mid - 1)
      else if order > 0 then Search(s, key, mid + 1, ub)
      else mid
  }

  function Find(s: seq<Block>, key: Block): (i: int)
    ensures i == -1 || (0 <= i < |s| && Compare(key, s[i]) == 0)
  {
    Search(s, key, 0, |s| - 1)
  }

  /** On a sorted table the search misses only when no block overlaps the key. */
  lemma {:induction false} SearchMisses(s: seq<Block>, key: Block, lb: int, ub: int)
    requires 0 <= lb && ub < |s| && Sorted(s) && AllProper(s) && Proper(key)
    requires Search(s, key, lb, ub) == -1
    ensures forall i :: lb <= i <= ub ==> Compare(key, s[i]) != 0
    decreases ub - lb + 1
  {
    if lb <= ub {
      var mid := lb + (ub - lb) / 2;
      assert Proper(s[mid]);
      if Compare(key, s[mid]) < 0 {
        SearchMisses(s, key, lb, mid - 1);
        forall i | mid < i <= ub ensures Compare(key, s[i]) != 0 {
          PrecedesIsTransitive(key, s[mid], s[i]);
        }
      } else {
        SearchMisses(s, key, mid + 1, ub);
        CompareFlips(key, s[mid]);
        forall i | lb <= i < mid ensures Compare(key, s[i]) != 0 {
          assert Proper(s[i]);
          PrecedesIsTransitive(s[i], s[mid], key);
          CompareFlips(key, s[i]);
        }
      }
    }
  }

  function Key(p: Point): Block {
    Block(p.domain, p.title, p.program, p.sector, p.sector)
  }

  /** Binary search hits a sector exactly when the table covers it, and then the
      block it answers is the only one that covers the sector. */
  lemma FindIsCovered(s: seq<Block>, p: Point)
    requires Sorted(s) && AllProper(s)
    ensures Find(s, Key(p)) >= 0 <==> Covered(s, p)
    ensures forall i :: 0 <= i < |s| && Covers(s[i], p) ==> Find(s, Key(p)) == i
  {
    var k := Find(s, Key(p));
    if k == -1 {
      SearchMisses(s, Key(p), 0, |s| - 1);
      assert forall i :: 0 <= i < |s| && Covers(s[i], p) ==> Compare(Key(p), s[i]) == 0;
    } else {
      assert Covers(s[k], p);
      forall i | 0 <= i < |s| && Covers(s[i], p) ensures i == k {
        assert Compare(s[i], s[k]) == 0 && Compare(s[k], s[i]) == 0;
      }
    }
  }

  // Adding a block

  function Merge(b: Block, other: Block): Block {
    b.(start := if other.start < b.start then other.start else b.start,
       end := if other.end > b.end then other.end else b.end)
  }

  /** Where the shifting loop stops when it starts at n. */
  function Slot(s: seq<Block>, b: Block, n: nat): (at: nat)
    requires n <= |s|
    ensures at <= n
  {
    if n > 0 && Compare(b, s[n - 1]) < 0 then Slot(s, b, n - 1) else n
  }

  function Added(s: seq<Block>, b: Block): seq<Block> {
    var i := Find(s, b);
    if i >= 0 then s[i := Merge(s[i], b)]
    else
      var at := Slot(s, b, |s|);
      s[..at] + [b] + s[at..]
  }

  /** The table after a list of insertions, first one first. */
  function AddedAll(s: seq<Block>, more: seq<Block>): seq<Block>
    decreases |more|
  {
    if more == [] then s else Added(AddedAll(s, more[..|more| - 1]), more[|more| - 1])
  }

  lemma AddedStaysProper(s: seq<Block>, b: Block)
    requires AllProper(s) && Proper(b)
    ensures AllProper(Added(s, b))
  {
    var i := Find(s, b);
    if i >= 0 {
      assert Proper(s[i]);
    }
  }

  /** A merged block holds exactly the sectors of its two parts. */
  lemma MergeIsUnion(a: Block, b: Block, p: Point)
    requires Compare(b, a) == 0
    ensures Covers(Merge(a, b), p) <==> Covers(a, p) || Covers(b, p)
  {
  }

  /** One insertion covers what was covered and the block, whatever the order of the table. */
  lemma AddedCovers(s: seq<Block>, b: Block, p: Point)
    ensures Covered(Added(s, b), p) <==> Covered(s, p) || Covers(b, p)
  {
    var i, t := Find(s, b), Added(s, b);
    if i >= 0 {
      MergeIsUnion(s[i], b, p);
      assert forall j :: 0 <= j < |s| && j != i ==> t[j] == s[j];
      if Covered(s, p) {
        var j :| 0 <= j < |s| && Covers(s[j], p);
        assert Covers(t[j], p);
      }
      if Covers(b, p) {
        assert Covers(t[i], p);
      }
    } else {
      var at := Slot(s, b, |s|);
      assert t[at] == b;
      assert forall j :: 0 <= j < at ==> t[j] == s[j];
      assert forall j :: at <= j < |s| ==> t[j + 1] == s[j];
      if Covered(s, p) {
        var j :| 0 <= j < |s| && Covers(s[j], p);
        assert Covers(t[if j < at then j else j + 1], p);
      }
      if Covers(b, p) {
        assert Covers(t[at], p);
      }
    }
  }

  /** After any insertions, bridging ones included, the covered sectors are exactly
      those of the inserted blocks. */
  lemma {:induction false} CoverageIsUnion(more: seq<Block>, p: Point)
    ensures Covered(AddedAll([], more), p) <==> Covered(more, p)
    decreases |more|
  {
    if more != [] {
      var front, last := more[..|more| - 1], more[|more| - 1];
      CoverageIsUnion(front, p);
      AddedCovers(AddedAll([], front), last, p);
      if Covered(front, p) {
        var i :| 0 <= i < |front| && Covers(front[i], p);
        assert Covers(more[i], p);
      }
      if Covered(more, p) {
        var i :| 0 <= i < |more| && Covers(more[i], p);
        assert i < |front| ==> Covers(front[i], p);
      }
    }
  }

  // When the table stays sorted

  lemma {:induction false} SlotSplits(s: seq<Block>, b: Block, n: nat)
    requires n <= |s| && Sorted(s) && AllProper(s)
    requires forall j :: n <= j < |s| ==> Compare(b, s[j]) < 0
    ensures forall j :: Slot(s, b, n) <= j < |s| ==> Compare(b, s[j]) < 0
    ensures Slot(s, b, n) > 0 ==> Compare(b, s[Slot(s, b, n) - 1]) >= 0
  {
    if n > 0 && Compare(b, s[n - 1]) < 0 {
      SlotSplits(s, b, n - 1);
    }
  }

  /** All blocks before the slot precede the block. */
  lemma BeforeSlot(s: seq<Block>, b: Block, j: int)
    requires Sorted(s) && AllProper(s) && Proper(b)
    requires 0 <= j < Slot(s, b, |s|) && Compare(b, s[Slot(s, b, |s|) - 1]) != 0
    ensures Compare(s[j], b) < 0
  {
    hide Compare;
    var at := Slot(s, b, |s|);
    SlotSplits(s, b, |s|);
    CompareFlips(s[at - 1], b);
    if j < at - 1 {
      PrecedesIsTransitive(s[j], s[at - 1], b);
    }
  }

  lemma InsertedIsSorted(s: seq<Block>, b: Block)
    requires Sorted(s) && AllProper(s) && Proper(b) && Find(s, b) == -1
    ensures Sorted(Added(s, b))
  {
    hide Compare;
    var at, t := Slot(s, b, |s|), Added(s, b);
    SearchMisses(s, b, 0, |s| - 1);
    SlotSplits(s, b, |s|);
    forall j | 0 <= j < at ensures Compare(s[j], b) < 0 {
      BeforeSlot(s, b, j);
    }
    forall i, j | 0 <= i < j < |t| ensures Compare(t[i], t[j]) < 0 {
      assert t[i] == if i < at then s[i] else if i == at then b else s[i - 1];
      assert t[j] == if j < at then s[j] else if j == at then b else s[j - 1];
    }
  }

  lemma MergedIsSorted(s: seq<Block>, b: Block)
    requires Sorted(s) && AllProper(s) && Proper(b) && OverlapsAtMostOne(s, b) && Find(s, b) >= 0
    ensures Sorted(Added(s, b))
  {
    var k, t := Find(s, b), Added(s, b);
    forall i, j | 0 <= i < j < |t| ensures Compare(t[i], t[j]) < 0 {
      assert Proper(s[i]) && Proper(s[j]);
      assert Compare(s[i], s[j]) < 0;
      assert i == k ==> Compare(b, s[j]) != 0;
      assert j == k ==> Compare(b, s[i]) != 0;
    }
  }

  lemma MergeKeepsOverlap(a: Block, b: Block, c: Block)
    requires Proper(a) && Proper(b) && Proper(c) && Compare(b, a) == 0 && Compare(b, c) == 0
    ensures Compare(Merge(a, b), c) == 0 && Compare(c, Merge(a, b)) == 0
  {
  }

  /** A block that overlaps two stored blocks is merged into one of them and then
      overlaps the other. */
  lemma BridgeBreaksOrder(s: seq<Block>, b: Block)
    requires AllProper(s) && Proper(b) && Sorted(s) && !OverlapsAtMostOne(s, b)
    ensures !Sorted(Added(s, b))
  {
    hide Compare;
    var i, j :| 0 <= i < j < |s| && Compare(b, s[i]) == 0 && Compare(b, s[j]) == 0;
    var k, t := Find(s, b), Added(s, b);
    if k == -1 {
      SearchMisses(s, b, 0, |s| - 1);
    }
    var other := if k == i then j else i;
    MergeKeepsOverlap(s[k], b, s[other]);
    assert t[k] == Merge(s[k], b) && t[other] == s[other];
    assert if k < other then Compare(t[k], t[other]) == 0 else Compare(t[other], t[k]) == 0;
  }

  /** An insertion keeps the table sorted and disjoint exactly when the new block
      overlaps at most one stored block. */
  lemma StaysSortedIff(s: seq<Block>, b: Block)
    requires Sorted(s) && AllProper(s) && Proper(b)
    ensures Sorted(Added(s, b)) <==> OverlapsAtMostOne(s, b)
  {
    if !OverlapsAtMostOne(s, b) {
      BridgeBreaksOrder(s, b);
    } else if Find(s, b) >= 0 {
      MergedIsSorted(s, b);
    } else {
      InsertedIsSorted(s, b);
    }
  }

  /** The smallest bridge: 0-1, 3-4, then 1-3. */
  lemma BridgeExample()
    ensures var stored := AddedAll([], [Block(0, 0, 0, 0, 1), Block(0, 0, 0, 3, 4)]);
            Sorted(stored) && !Sorted(Added(stored, Block(0, 0, 0, 1, 3)))
  {
    var a, c, bridge := Block(0, 0, 0, 0, 1), Block(0, 0, 0, 3, 4), Block(0, 0, 0, 1, 3);
    assert AddedAll([], [a]) == [a] by {
      assert [a][..0] == [];
    }
    assert AddedAll([], [a, c]) == [a, c] by {
      assert [a, c][..1] == [a];
      assert Slot([a], c, 1) == 1;
    }
    assert Compare(bridge, [a, c][0]) == 0 && Compare(bridge, [a, c][1]) == 0;
    BridgeBreaksOrder([a, c], bridge);
  }

  /** No insertion of the list overlaps more than one block stored before it. */
  ghost predicate NoBridges(more: seq<Block>) {
    forall n :: 0 <= n < |more| ==> Proper(more[n]) && OverlapsAtMostOne(AddedAll([], more[..n]), more[n])
  }

  lemma {:induction false} TableIsSorted(more: seq<Block>)
    requires NoBridges(more)
    ensures Sorted(AddedAll([], more)) && AllProper(AddedAll([], more))
    decreases |more|
  {
    if more != [] {
      var n := |more| - 1;
      assert forall k :: 0 <= k < n ==> more[..n][..k] == more[..k] && more[..n][k] == more[k];
      TableIsSorted(more[..n]);
      AddedStaysProper(AddedAll([], more[..n]), more[n]);
      StaysSortedIff(AddedAll([], more[..n]), more[n]);
    }
  }

  // Remapping

  function Remapped(s: seq<Block>, domain: int, title: int, program: int, cblock: nat, offset: nat): nat {
    var sector := (cblock + offset) % WIDTH;
    var i := Find(s, Key(Point(domain, title, program, sector)));
    if i >= 0 then (s[i].end - cblock) % WIDTH else offset
  }

  lemma Rejoined(end: nat, cblock: nat)
    requires end < WIDTH && cblock < WIDTH
    ensures (cblock + (end - cblock) % WIDTH) % WIDTH == end
  {
  }

  /** A remapped position moves to the end of the block that covers it and otherwise
      stays; it never moves backward, and remapping it again changes nothing. */
  lemma RemappedMovesForwardOnce(s: seq<Block>, domain: int, title: int, program: int, cblock: nat, offset: nat)
    requires Sorted(s) && AllProper(s) && (forall i :: 0 <= i < |s| ==> s[i].end < WIDTH)
    requires cblock < WIDTH && offset < WIDTH
    ensures var sector := (cblock + offset) % WIDTH;
            var moved := Remapped(s, domain, title, program, cblock, offset);
            && moved < WIDTH
            && (!Covered(s, Point(domain, title, program, sector)) ==> moved == offset)
            && (forall i :: 0 <= i < |s| && Covers(s[i], Point(domain, title, program, sector)) ==>
               (cblock + moved) % WIDTH == s[i].end)
            && sector <= (cblock + moved) % WIDTH
            && Remapped(s, domain, title, program, cblock, moved) == moved
  {
    var sector := (cblock + offset) % WIDTH;
    var p := Point(domain, title, program, sector);
    var moved := Remapped(s, domain, title, program, cblock, offset);
    FindIsCovered(s, p);
    var i := Find(s, Key(p));
    if i >= 0 {
      var end := s[i].end;
      Rejoined(end, cblock);
      assert Covers(s[i], Point(domain, title, program, end));
      FindIsCovered(s, Point(domain, title, program, end));
    }
  }

  // The table in place

  class Table {
    var blocks: array<Block>
    var nblocks: nat

    ghost predicate Valid()
      reads this
    {
      nblocks <= blocks.Length
    }

    ghost function Contents(): seq<Block>
      requires Valid()
      reads this, blocks
    {
      blocks[..nblocks]
    }

    constructor ()
      ensures Valid() && Contents() == [] && fresh(blocks)
    {
      blocks := new Block[0];
      nblocks := 0;
    }

    method FindBlock(key: Block) returns (found: int)
      requires Valid()
      ensures found == Find(Contents(), key)
    {
      var lb, ub := 0, nblocks - 1;
      while lb <= ub
        invariant 0 <= lb && ub < nblocks
        invariant Find(Contents(), key) == Search(Contents(), key, lb, ub)
        decreases ub - lb + 1
      {
        var mid := lb + (ub - lb) / 2;
        var order := Compare(key, blocks[mid]);
        if order < 0 {
          ub := mid - 1;
        } else if order > 0 {
          lb := mid + 1;
        } else {
          return mid;
        }
      }
      return -1;
    }

    method MergeBlock(at: nat, other: Block)
      requires Valid() && at < nblocks
      modifies blocks
      ensures Contents() == old(Contents())[at := Merge(old(Contents())[at], other)]
    {
      if other.start < blocks[at].start {
        blocks[at] := blocks[at].(start := other.start);
      }
      if other.end > blocks[at].end {
        blocks[at] := blocks[at].(end := other.end);
      }
    }

    /** Makes room for one more block, 20 at a time. */
    method Grow()
      requires Valid()
      modifies this
      ensures Valid() && nblocks == old(nblocks) < blocks.Length && Contents() == old(Contents())
      ensures blocks == old(blocks) || fresh(blocks)
    {
      if nblocks >= blocks.Length {
        var filler := Block(0, 0, 0, 0, 0);
        var wider := new Block[blocks.Length + GROWTH](_ => filler);
        forall i | 0 <= i < nblocks {
          wider[i] := blocks[i];
        }
        blocks := wider;
      }
    }

    method ShiftIn(block: Block)
      requires Valid() && nblocks < blocks.Length
      modifies this`nblocks, blocks
      ensures Valid()
      ensures var s := old(Contents());
              var at := Slot(s, block, |s|);
              Contents() == s[..at] + [block] + s[at..]
    {
      hide Compare;
      ghost var s := Contents();
      var n := nblocks;
      nblocks := nblocks + 1;
      while n > 0 && Compare(block, blocks[n - 1]) < 0
        invariant 0 <= n <= |s| && nblocks == |s| + 1
        invariant Slot(s, block, |s|) == Slot(s, block, n)
        invariant forall j :: 0 <= j < n ==> blocks[j] == s[j]
        invariant forall j :: n < j <= |s| ==> blocks[j] == s[j - 1]
      {
        blocks[n] := blocks[n - 1];
        n := n - 1;
      }
      blocks[n] := block;
      assert Contents() == s[..n] + [block] + s[n..];
    }

    method AddNode(block: Block)
      requires Valid()
      modifies this, blocks
      ensures Valid() && Contents() == Added(old(Contents()), block)
      ensures blocks == old(blocks) || fresh(blocks)
    {
      var found := FindBlock(block);
      if found >= 0 {
        MergeBlock(found, block);
      } else {
        Grow();
        ShiftIn(block);
      }
    }

    method RemapBlock(domain: int, title: int, program: int, cblock: nat, offset: nat) returns (moved: nat)
      requires Valid()
      ensures moved == Remapped(Contents(), domain, title, program, cblock, offset)
    {
      var sector := (cblock + offset) % WIDTH;
      var found := FindBlock(Block(domain, title, program, sector, sector));
      if found >= 0 {
        return (blocks[found].end - cblock) % WIDTH;
      }
      return offset;
    }
  }

  /** Loading a map file adds its blocks one after another to an empty table. */
  method LoadMap(entries: seq<Block>) returns (table: Table)
    ensures table.Valid() && fresh(table) && table.Contents() == AddedAll([], entries)
  {
    table := new Table();
    for n := 0 to |entries|
      invariant table.Valid() && fresh(table) && fresh(table.blocks)
      invariant table.Contents() == AddedAll([], entries[..n])
    {
      assert entries[..n + 1][..n] == entries[..n];
      table.AddNode(entries[n]);
    }
    assert entries[..|entries|] == entries;
  }
}
