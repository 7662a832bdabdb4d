/** The zero-copy read cache of src/read_cache.c. Reads hand out pointers into ten
    reusable buffers, which must show the disc and stay put until they come back. */
module ReadCache {

  type Sector = seq<bv8>

  /** What an open file holds at each sector. */
  type File = int -> Sector

  /** One of the ten chunks. The first readCount sectors of the buffer have been read,
      blockCount sectors will go in, and the buffer has room for capacity sectors.
      usage counts the blocks of the buffer that are handed out. */
  datatype Chunk = Chunk(buffer: array?<Sector>, start: int, readCount: nat, blockCount: nat,
                         capacity: nat, valid: bool, usage: int)

  /** A block handed out: a place in a buffer, and what was there. */
  datatype Handle = Handle(buffer: array<Sector>, offset: nat, data: Sector)

  const CHUNKS := 10
  const FIRST_MALLOC := 500
  const READ_AHEAD_SIZE_MIN := 4
  const READ_AHEAD_SIZE_MAX := 512

  // Choosing a chunk

  predicate Free(c: Chunk) {
    c.usage == 0 && c.buffer != null
  }

  /** The choice of each selection loop after its first i rounds; -1 for none. */
  function BestFit(chunks: seq<Chunk>, n: nat, i: nat): (use: int)
    requires i <= |chunks|
    ensures -1 <= use < i
  {
    if i == 0 then -1
    else
      var use := BestFit(chunks, n, i - 1);
      var c := chunks[i - 1];
      if Free(c) && c.capacity >= n && (use == -1 || chunks[use].capacity > c.capacity) then i - 1 else use
  }

  function Largest(chunks: seq<Chunk>, i: nat): (use: int)
    requires i <= |chunks|
    ensures -1 <= use < i
  {
    if i == 0 then -1
    else
      var use := Largest(chunks, i - 1);
      var c := chunks[i - 1];
      if Free(c) && (use == -1 || chunks[use].capacity < c.capacity) then i - 1 else use
  }

  function FirstEmpty(chunks: seq<Chunk>, i: nat): (use: int)
    requires i <= |chunks|
    ensures use == -1 || (i <= use < |chunks| && chunks[use].buffer == null)
    decreases |chunks| - i
  {
    if i == |chunks| then -1 else if chunks[i].buffer == null then i else FirstEmpty(chunks, i + 1)
  }

  /** The best fit is the first of the smallest free buffers that are large enough. */
  lemma {:induction false} BestFitIsSmallest(chunks: seq<Chunk>, n: nat, i: nat)
    requires i <= |chunks|
    ensures var use := BestFit(chunks, n, i);
            && (use >= 0 ==> Free(chunks[use]) && chunks[use].capacity >= n)
            && (forall j :: 0 <= j < i && Free(chunks[j]) && chunks[j].capacity >= n ==>
                 use >= 0 && chunks[use].capacity <= chunks[j].capacity
                 && (j < use ==> chunks[use].capacity < chunks[j].capacity))
  {
    if i > 0 {
      BestFitIsSmallest(chunks, n, i - 1);
    }
  }

  lemma {:induction false} LargestIsLargest(chunks: seq<Chunk>, i: nat)
    requires i <= |chunks|
    ensures var use := Largest(chunks, i);
            && (use >= 0 ==> Free(chunks[use]))
            && (forall j :: 0 <= j < i && Free(chunks[j]) ==>
                 use >= 0 && chunks[j].capacity <= chunks[use].capacity
                 && (j < use ==> chunks[j].capacity < chunks[use].capacity))
  {
    if i > 0 {
      LargestIsLargest(chunks, i - 1);
    }
  }

  lemma {:induction false} FirstEmptyIsFirst(chunks: seq<Chunk>, i: nat)
    requires i <= |chunks|
    ensures forall j :: i <= j < |chunks| && chunks[j].buffer == null ==> i <= FirstEmpty(chunks, i) <= j
    decreases |chunks| - i
  {
    if i < |chunks| {
      FirstEmptyIsFirst(chunks, i + 1);
    }
  }

  /** How a chunk is found for n sectors. */
  datatype Choice = Reuse(use: nat) | Resize(use: nat) | Allocate(use: nat) | Nothing

  function Choose(chunks: seq<Chunk>, n: nat): Choice {
    var best, largest, empty := BestFit(chunks, n, |chunks|), Largest(chunks, |chunks|), FirstEmpty(chunks, 0);
    if best >= 0 then Reuse(best)
    else if largest >= 0 then Resize(largest)
    else if empty >= 0 then Allocate(empty)
    else Nothing
  }

  /** The buffer that pre-caching gives back to the allocator. */
  ghost function Replaced(chunks: seq<Chunk>, n: nat): seq<array<Sector>> {
    var choice := Choose(chunks, n);
    if choice.Resize? && choice.use < |chunks| && Free(chunks[choice.use]) then [chunks[choice.use].buffer] else []
  }

  /** Pre-caching gives up only when every chunk has blocks handed out, and it never
      takes a chunk that does. */
  lemma ChooseSparesUsed(chunks: seq<Chunk>, n: nat)
    requires forall j :: 0 <= j < |chunks| && chunks[j].buffer == null ==> chunks[j].usage == 0
    ensures Choose(chunks, n) == Nothing <==> forall j :: 0 <= j < |chunks| ==> chunks[j].usage != 0
    ensures Choose(chunks, n) != Nothing ==> Choose(chunks, n).use < |chunks| && chunks[Choose(chunks, n).use].usage == 0
    ensures Choose(chunks, n).Reuse? || Choose(chunks, n).Resize? ==> Free(chunks[Choose(chunks, n).use])
    ensures Choose(chunks, n).Reuse? ==> chunks[Choose(chunks, n).use].capacity >= n
    ensures !Choose(chunks, n).Reuse? ==> forall j :: 0 <= j < |chunks| && Free(chunks[j]) ==> chunks[j].capacity < n
  {
    BestFitIsSmallest(chunks, n, |chunks|);
    LargestIsLargest(chunks, |chunks|);
    FirstEmptyIsFirst(chunks, 0);
  }

  // Finding a sector

  predicate Holds(c: Chunk, sector: int) {
    c.valid && c.start <= sector <= c.start + c.readCount && sector + 1 <= c.start + c.blockCount
  }

  /** The last of the first i chunks that holds the sector. */
  function LastHolding(chunks: seq<Chunk>, sector: int, i: nat): (use: int)
    requires i <= |chunks|
    ensures -1 <= use < i && (use >= 0 ==> Holds(chunks[use], sector))
  {
    if i == 0 then -1
    else if Holds(chunks[i - 1], sector) then i - 1
    else LastHolding(chunks, sector, i - 1)
  }

  /** The current chunk is asked first. */
  function Hit(chunks: seq<Chunk>, current: nat, sector: int, useReadAhead: bool): (use: int)
    requires current < |chunks|
    ensures -1 <= use < |chunks| && (use >= 0 ==> Holds(chunks[use], sector))
  {
    if !useReadAhead then -1
    else if Holds(chunks[current], sector) then current
    else LastHolding(chunks, sector, |chunks|)
  }

  // Reading ahead

  datatype Ahead = Ahead(size: nat, incr: nat, lastSector: int)

  function NextAhead(a: Ahead, sector: int): Ahead {
    var follows := sector == a.lastSector + 1;
    var incr := if !follows then 0 else if a.incr < READ_AHEAD_SIZE_MAX then a.incr + 1 else a.incr;
    var size := if follows then a.size else READ_AHEAD_SIZE_MIN;
    Ahead(if size + incr / 2 > READ_AHEAD_SIZE_MAX then READ_AHEAD_SIZE_MAX else size + incr / 2, incr, sector)
  }

  predicate InBounds(a: Ahead) {
    READ_AHEAD_SIZE_MIN <= a.size <= READ_AHEAD_SIZE_MAX && a.incr <= READ_AHEAD_SIZE_MAX
  }

  /** The state of read-ahead after a list of hits. */
  function AheadAfter(a: Ahead, sectors: seq<int>): Ahead
    decreases |sectors|
  {
    if sectors == [] then a else NextAhead(AheadAfter(a, sectors[..|sectors| - 1]), sectors[|sectors| - 1])
  }

  /** Over any reads the read-ahead size stays in 4..512; on a run of consecutive
      sectors it never shrinks, and any jump brings it back to 4. */
  lemma {:induction false} AheadStaysInBounds(a: Ahead, sectors: seq<int>)
    requires InBounds(a)
    ensures InBounds(AheadAfter(a, sectors))
    ensures (forall k :: 0 <= k < |sectors| ==> sectors[k] == a.lastSector + 1 + k) ==>
              AheadAfter(a, sectors).size >= a.size
              && AheadAfter(a, sectors).lastSector == a.lastSector + |sectors|
    ensures |sectors| >= 2 && sectors[|sectors| - 1] != sectors[|sectors| - 2] + 1 ==>
              AheadAfter(a, sectors).size == READ_AHEAD_SIZE_MIN
    decreases |sectors|
  {
    if sectors != [] {
      AheadStaysInBounds(a, sectors[..|sectors| - 1]);
    }
  }

  /** How many sectors a hit reads from the disc. */
  function ReadSize(c: Chunk, aheadSize: nat, sector: int): int {
    if c.readCount + aheadSize > c.blockCount then c.blockCount - c.readCount
    else if sector >= c.start + c.readCount + aheadSize then sector - c.start - c.readCount
    else aheadSize
  }

  /** A hit reads up to the wanted sector at least, and never past the chunk. */
  lemma ReadSizeReaches(c: Chunk, aheadSize: nat, sector: int)
    requires Holds(c, sector) && c.readCount <= c.blockCount && aheadSize >= READ_AHEAD_SIZE_MIN
    ensures var size := ReadSize(c, aheadSize, sector);
            && 0 <= size && c.readCount + size <= c.blockCount
            && sector < c.start + c.readCount + size
  {
  }

  // Blocks handed out

  /** How many blocks of a buffer are handed out. */
  ghost function Count(issued: seq<Handle>, buffer: array?<Sector>): nat
    decreases |issued|
  {
    if issued == [] then 0
    else Count(issued[..|issued| - 1], buffer) + if issued[|issued| - 1].buffer == buffer then 1 else 0
  }

  ghost function Without(issued: seq<Handle>, k: nat): seq<Handle>
    requires k < |issued|
  {
    issued[..k] + issued[k + 1..]
  }

  lemma {:induction false} CountWithout(issued: seq<Handle>, k: nat, buffer: array?<Sector>)
    requires k < |issued|
    ensures Count(Without(issued, k), buffer) == Count(issued, buffer) - if issued[k].buffer == buffer then 1 else 0
    decreases |issued|
  {
    var n := |issued| - 1;
    if k < n {
      CountWithout(issued[..n], k, buffer);
      assert Without(issued, k)[..n - 1] == Without(issued[..n], k);
    } else {
      assert Without(issued, k) == issued[..n];
    }
  }

  lemma {:induction false} CountIsPositive(issued: seq<Handle>, buffer: array?<Sector>)
    ensures Count(issued, buffer) > 0 <==> exists k :: 0 <= k < |issued| && issued[k].buffer == buffer
    decreases |issued|
  {
    if issued != [] {
      var n := |issued| - 1;
      CountIsPositive(issued[..n], buffer);
      if Count(issued[..n], buffer) > 0 {
        var k :| 0 <= k < n && issued[..n][k].buffer == buffer;
        assert issued[k].buffer == buffer;
      }
      forall k | 0 <= k < n && issued[k].buffer == buffer ensures Count(issued[..n], buffer) > 0 {
        assert issued[..n][k].buffer == buffer;
      }
    }
  }

  // The cache

  ghost function BuffersOf(chunks: seq<Chunk>): set<array<Sector>> {
    set i | 0 <= i < |chunks| && chunks[i].buffer != null :: chunks[i].buffer
  }

  ghost predicate Distinct(chunks: seq<Chunk>) {
    forall i, j :: 0 <= i < j < |chunks| && chunks[i].buffer != null ==> chunks[i].buffer != chunks[j].buffer
  }

  lemma SameBuffers(chunks: seq<Chunk>, use: nat, c: Chunk)
    requires use < |chunks| && c.buffer == chunks[use].buffer
    ensures BuffersOf(chunks[use := c]) == BuffersOf(chunks)
  {
    var changed := chunks[use := c];
    assert forall i :: 0 <= i < |chunks| ==> changed[i].buffer == chunks[i].buffer;
    assert BuffersOf(changed) <= BuffersOf(chunks);
    forall b | b in BuffersOf(chunks) ensures b in BuffersOf(changed) {
      var i :| 0 <= i < |chunks| && chunks[i].buffer == b;
      assert changed[i].buffer == b;
    }
  }

  lemma OtherBuffer(chunks: seq<Chunk>, use: nat, c: Chunk)
    requires use < |chunks| && Distinct(chunks) && c.buffer != null && c.buffer !in BuffersOf(chunks)
    ensures BuffersOf(chunks[use := c]) == (set b | b in BuffersOf(chunks) && b != chunks[use].buffer) + {c.buffer}
    ensures Distinct(chunks[use := c])
  {
    var changed := chunks[use := c];
    assert changed[use].buffer == c.buffer;
    forall b | b in BuffersOf(chunks) && b != chunks[use].buffer ensures b in BuffersOf(changed) {
      var i :| 0 <= i < |chunks| && chunks[i].buffer == b;
      assert changed[i].buffer == b;
    }
  }

  /** The sizes of one chunk fit each other. */
  predicate Fits(c: Chunk)
  {
    if c.buffer == null then c.usage == 0
    else c.capacity == c.buffer.Length && c.readCount <= c.blockCount <= c.capacity
  }

  ghost predicate Shaped(chunks: seq<Chunk>, freeing: bool) {
    && |chunks| == CHUNKS
    && (forall i :: 0 <= i < CHUNKS ==> Fits(chunks[i]))
    && (forall i :: 0 <= i < CHUNKS && chunks[i].valid && !freeing ==> chunks[i].buffer != null)
    && Distinct(chunks)
  }

  /** Every outstanding block lies in the read part of a chunk, and usage counts them. */
  ghost predicate Counted(chunks: seq<Chunk>, issued: seq<Handle>) {
    && (forall i :: 0 <= i < |chunks| && chunks[i].buffer != null ==>
         chunks[i].usage == Count(issued, chunks[i].buffer))
    && (forall k :: 0 <= k < |issued| ==>
         issued[k].buffer in BuffersOf(chunks) && issued[k].offset < issued[k].buffer.Length)
    && (forall k, i :: 0 <= k < |issued| && 0 <= i < |chunks| && chunks[i].buffer == issued[k].buffer ==>
         issued[k].offset < chunks[i].readCount)
  }

  /** What writing into the unread part of a chunk cannot disturb. */
  lemma Owned(chunks: seq<Chunk>, issued: seq<Handle>, use: nat)
    requires Distinct(chunks) && Counted(chunks, issued) && use < |chunks| && chunks[use].buffer != null
    ensures chunks[use].buffer in BuffersOf(chunks)
    ensures forall i :: 0 <= i < |chunks| && i != use ==> chunks[i].buffer != chunks[use].buffer
    ensures forall k :: 0 <= k < |issued| && issued[k].buffer == chunks[use].buffer ==>
              issued[k].offset < chunks[use].readCount
  {
  }

  /** Every buffer ever allocated is either in a chunk or was freed, and only once. */
  ghost predicate Accounted(chunks: seq<Chunk>, freed: seq<array<Sector>>, mallocs: set<array<Sector>>) {
    && (set b | b in freed) + BuffersOf(chunks) == mallocs
    && (forall b <- freed :: b !in BuffersOf(chunks))
    && (forall i, j :: 0 <= i < j < |freed| ==> freed[i] != freed[j])
  }

  lemma SameAccounts(was: seq<Chunk>, chunks: seq<Chunk>, freed: seq<array<Sector>>, mallocs: set<array<Sector>>)
    requires Accounted(was, freed, mallocs) && BuffersOf(was) == BuffersOf(chunks)
    ensures Accounted(chunks, freed, mallocs)
  {
  }

  /** An unused chunk may get any buffer that no other chunk has. */
  lemma Repointed(chunks: seq<Chunk>, issued: seq<Handle>, use: nat, c: Chunk)
    requires Shaped(chunks, false) && Counted(chunks, issued)
    requires use < CHUNKS && chunks[use].usage == 0 && c.usage == 0 && c.buffer != null && Fits(c)
    requires c.buffer == chunks[use].buffer || c.buffer !in BuffersOf(chunks)
    ensures Shaped(chunks[use := c], false) && Counted(chunks[use := c], issued)
    ensures c.buffer == chunks[use].buffer ==> BuffersOf(chunks[use := c]) == BuffersOf(chunks)
    ensures c.buffer != chunks[use].buffer ==>
              BuffersOf(chunks[use := c]) == (set b | b in BuffersOf(chunks) && b != chunks[use].buffer) + {c.buffer}
  {
    CountIsPositive(issued, c.buffer);
    CountIsPositive(issued, chunks[use].buffer);
    if c.buffer == chunks[use].buffer {
      SameBuffers(chunks, use, c);
    } else {
      OtherBuffer(chunks, use, c);
    }
  }

  lemma ResizedAccounts(chunks: seq<Chunk>, freed: seq<array<Sector>>, mallocs: set<array<Sector>>, use: nat, c: Chunk)
    requires Accounted(chunks, freed, mallocs) && Distinct(chunks) && use < |chunks| && chunks[use].buffer != null
    requires c.buffer != null && c.buffer !in mallocs
    ensures Accounted(chunks[use := c], freed + [chunks[use].buffer], mallocs + {c.buffer})
  {
    OtherBuffer(chunks, use, c);
    var more := freed + [chunks[use].buffer];
    assert chunks[use].buffer in BuffersOf(chunks);
    assert (set b | b in more) == (set b | b in freed) + {chunks[use].buffer};
  }

  lemma GrownChunk(chunks: seq<Chunk>, issued: seq<Handle>, use: nat, readCount: nat)
    requires Shaped(chunks, false) && Counted(chunks, issued) && use < CHUNKS && chunks[use].buffer != null
    requires chunks[use].readCount <= readCount <= chunks[use].blockCount
    ensures var c := chunks[use].(readCount := readCount);
            && Shaped(chunks[use := c], false) && Counted(chunks[use := c], issued)
            && BuffersOf(chunks[use := c]) == BuffersOf(chunks)
  {
    SameBuffers(chunks, use, chunks[use].(readCount := readCount));
  }

  /** One more block is handed out from the read part of a chunk. */
  lemma HandedOut(chunks: seq<Chunk>, issued: seq<Handle>, use: nat, h: Handle)
    requires Shaped(chunks, false) && Counted(chunks, issued) && use < CHUNKS && chunks[use].buffer == h.buffer
    requires h.offset < chunks[use].readCount
    ensures var c := chunks[use].(usage := chunks[use].usage + 1);
            && Shaped(chunks[use := c], false) && Counted(chunks[use := c], issued + [h])
            && BuffersOf(chunks[use := c]) == BuffersOf(chunks)
  {
    SameBuffers(chunks, use, chunks[use].(usage := chunks[use].usage + 1));
    assert (issued + [h])[..|issued|] == issued;
    assert h.buffer in BuffersOf(chunks);
  }

  /** What disposing does to a chunk, and the buffers it frees among the first i chunks. */
  function Dropped(c: Chunk): Chunk {
    if Free(c) then c.(buffer := null) else c
  }

  ghost function DroppedBuffers(chunks: seq<Chunk>, i: nat): seq<array<Sector>>
    requires i <= |chunks|
  {
    if i == 0 then []
    else DroppedBuffers(chunks, i - 1) + if Free(chunks[i - 1]) then [chunks[i - 1].buffer] else []
  }

  lemma DroppedOne(chunks: seq<Chunk>, issued: seq<Handle>, freed: seq<array<Sector>>, mallocs: set<array<Sector>>, use: nat)
    requires Shaped(chunks, true) && Counted(chunks, issued) && Accounted(chunks, freed, mallocs)
    requires use < CHUNKS && Free(chunks[use])
    ensures var fewer := chunks[use := Dropped(chunks[use])];
            && Shaped(fewer, true) && Counted(fewer, issued)
            && BuffersOf(fewer) == (set b | b in BuffersOf(chunks) && b != chunks[use].buffer)
            && Accounted(fewer, freed + [chunks[use].buffer], mallocs)
  {
    var fewer, more := chunks[use := Dropped(chunks[use])], freed + [chunks[use].buffer];
    CountIsPositive(issued, chunks[use].buffer);
    assert chunks[use].buffer in BuffersOf(chunks);
    forall b | b in BuffersOf(chunks) && b != chunks[use].buffer ensures b in BuffersOf(fewer) {
      var i :| 0 <= i < |chunks| && chunks[i].buffer == b;
      assert fewer[i].buffer == b;
    }
    assert (set b | b in more) == (set b | b in freed) + {chunks[use].buffer};
  }

  /** Nothing is left exactly when nothing is handed out. */
  lemma NothingLeft(chunks: seq<Chunk>, issued: seq<Handle>)
    requires Counted(chunks, issued) && forall i :: 0 <= i < |chunks| ==> !Free(chunks[i])
    ensures issued == [] <==> BuffersOf(chunks) == {}
  {
    if issued == [] {
      forall i | 0 <= i < |chunks| ensures chunks[i].buffer == null {
        assert chunks[i].buffer != null ==> chunks[i].usage == Count(issued, chunks[i].buffer);
      }
    } else {
      assert issued[0].buffer in BuffersOf(chunks);
    }
  }

  /** Once the chunks are empty, every buffer ever allocated has been freed exactly once. */
  lemma FreedExactlyOnce(chunks: seq<Chunk>, freed: seq<array<Sector>>, mallocs: set<array<Sector>>)
    requires Accounted(chunks, freed, mallocs) && BuffersOf(chunks) == {}
    ensures multiset(freed) == multiset(mallocs)
  {
    forall b: array<Sector> | b in freed ensures multiset(freed)[b] == 1 {
      var i :| 0 <= i < |freed| && freed[i] == b;
      assert freed == freed[..i] + [b] + freed[i + 1..];
      assert b !in freed[..i] && b !in freed[i + 1..];
    }
    forall b: array<Sector> | b in mallocs ensures b in freed {
      assert b in (set x | x in freed);
    }
  }

  lemma Emptied(chunks: seq<Chunk>, issued: seq<Handle>, freed: seq<array<Sector>>, mallocs: set<array<Sector>>)
    requires Counted(chunks, issued) && Accounted(chunks, freed, mallocs)
    requires forall i :: 0 <= i < |chunks| ==> !Free(chunks[i])
    ensures issued == [] <==> BuffersOf(chunks) == {}
    ensures BuffersOf(chunks) == {} ==> multiset(freed) == multiset(mallocs)
  {
    hide Counted, Accounted, BuffersOf;
    NothingLeft(chunks, issued);
    if BuffersOf(chunks) == {} {
      FreedExactlyOnce(chunks, freed, mallocs);
    }
  }

  lemma StillShaped(chunks: seq<Chunk>, freeing: bool)
    requires Shaped(chunks, freeing)
    ensures Shaped(chunks, true)
  {
  }

  /** The place of a block returned. */
  predicate Contains(c: Chunk, buffer: array<Sector>, offset: nat) {
    c.buffer == buffer && offset < c.capacity
  }

  function Returned(c: Chunk, buffer: array<Sector>, offset: nat): Chunk {
    if Contains(c, buffer, offset) then c.(usage := c.usage - 1) else c
  }

  ghost predicate IsAt(h: Handle, buffer: array<Sector>, offset: nat) {
    h.buffer == buffer && h.offset == offset
  }

  lemma MappedBuffers(a: seq<Chunk>, b: seq<Chunk>)
    requires |a| == |b| && forall i :: 0 <= i < |a| ==> a[i].buffer == b[i].buffer
    ensures BuffersOf(a) == BuffersOf(b)
  {
    assert forall i :: 0 <= i < |a| && a[i].buffer != null ==> b[i].buffer in BuffersOf(b) && a[i].buffer in BuffersOf(a);
  }

  lemma ShapedReturned(was: seq<Chunk>, chunks: seq<Chunk>, freeing: bool, issued: seq<Handle>, k: nat)
    requires Shaped(was, freeing) && Counted(was, issued) && k < |issued| && |chunks| == CHUNKS
    requires forall i :: 0 <= i < CHUNKS ==> chunks[i] == Returned(was[i], issued[k].buffer, issued[k].offset)
    ensures Shaped(chunks, freeing) && BuffersOf(chunks) == BuffersOf(was)
  {
    hide BuffersOf;
    MappedBuffers(was, chunks);
  }

  lemma BlockReturned(was: seq<Chunk>, chunks: seq<Chunk>, freeing: bool, issued: seq<Handle>, k: nat)
    requires Shaped(was, freeing) && Counted(was, issued) && k < |issued| && |chunks| == CHUNKS
    requires forall i :: 0 <= i < CHUNKS ==> chunks[i] == Returned(was[i], issued[k].buffer, issued[k].offset)
    ensures Shaped(chunks, freeing) && Counted(chunks, Without(issued, k)) && BuffersOf(chunks) == BuffersOf(was)
  {
    hide BuffersOf, Distinct;
    ShapedReturned(was, chunks, freeing, issued, k);
    var fewer := Without(issued, k);
    forall j | 0 <= j < |fewer| ensures fewer[j] in issued {
      assert fewer[j] == if j < k then issued[j] else issued[j + 1];
    }
    forall i | 0 <= i < CHUNKS && chunks[i].buffer != null ensures chunks[i].usage == Count(fewer, chunks[i].buffer) {
      CountWithout(issued, k, chunks[i].buffer);
    }
  }

  /** The sectors already read into a valid chunk are those of the file. */
  ghost predicate Mirrors(c: Chunk, file: File)
    requires Fits(c) && c.buffer != null
    reads c.buffer
  {
    c.valid ==> forall k :: 0 <= k < c.readCount ==> c.buffer[k] == file(c.start + k)
  }

  /** What an application asks of the cache. */
  datatype Request =
    | PreCaching(sector: int, n: nat, useReadAhead: bool)
    | Reading(sector: int, useReadAhead: bool)
    | Returning(k: nat)
    | Opening(file: File)
    | Disposing

  class Cache {
    var chunks: seq<Chunk>
    var current: nat
    var freeing: bool
    var ahead: Ahead
    var file: File

    ghost var issued: seq<Handle>         // blocks handed out and not returned
    ghost var mallocs: set<array<Sector>>   // every buffer ever allocated
    ghost var freed: seq<array<Sector>>   // every call of free on a buffer
    ghost var disposals: nat              // every call of free on the cache itself

    ghost function Buffers(): set<array<Sector>>
      reads this
    {
      BuffersOf(chunks)
    }

    /** Every outstanding block still holds what it held when it was handed out. */
    ghost predicate Pinned()
      requires Counted(chunks, issued)
      reads this, Buffers()
    {
      forall k :: 0 <= k < |issued| ==> issued[k].buffer[issued[k].offset] == issued[k].data
    }

    ghost predicate MirrorsFile()
      requires Shaped(chunks, freeing)
      reads this, Buffers()
    {
      forall i :: 0 <= i < CHUNKS && chunks[i].buffer != null ==> Mirrors(chunks[i], file)
    }

    ghost predicate Valid()
      reads this, Buffers()
    {
      && Shaped(chunks, freeing) && Counted(chunks, issued) && Accounted(chunks, freed, mallocs)
      && |chunks| == CHUNKS && current < CHUNKS && InBounds(ahead)
      && Pinned() && MirrorsFile()
    }

    constructor (file: File)
      ensures Valid() && !freeing && issued == [] && disposals == 0 && mallocs == {} && this.file == file && Buffers() == {}
    {
      var junk: Chunk := *;
      chunks := seq(CHUNKS, _ => junk.(buffer := null, valid := false, usage := 0));
      current := 0;
      freeing := false;
      ahead := Ahead(READ_AHEAD_SIZE_MIN, 0, 0);
      this.file := file;
      issued, mallocs, freed, disposals := [], {}, [], 0;
    }

    /** dvdnav_read_cache_clear: must be called whenever the file changes. */
    method Clear()
      requires Valid()
      modifies this`chunks
      ensures Valid() && Buffers() == old(Buffers())
      ensures forall i :: 0 <= i < CHUNKS ==> chunks[i] == old(chunks)[i].(valid := false)
    {
      var i := 0;
      while i < CHUNKS
        invariant 0 <= i <= CHUNKS && Valid() && Buffers() == old(Buffers())
        invariant forall j :: 0 <= j < i ==> chunks[j] == old(chunks)[j].(valid := false)
        invariant forall j :: i <= j < CHUNKS ==> chunks[j] == old(chunks)[j]
      {
        Invalidate(i);
        i := i + 1;
      }
    }

    method Invalidate(i: nat)
      requires Valid() && i < CHUNKS
      modifies this`chunks
      ensures Valid() && Buffers() == old(Buffers()) && chunks == old(chunks)[i := old(chunks)[i].(valid := false)]
    {
      hide BuffersOf;
      SameBuffers(chunks, i, chunks[i].(valid := false));
      chunks := chunks[i := chunks[i].(valid := false)];
    }

    /** Opening another file clears the cache first. */
    method OpenFile(file: File)
      requires Valid()
      modifies this`chunks, this`file
      ensures Valid() && this.file == file && Buffers() == old(Buffers())
      ensures forall i :: 0 <= i < CHUNKS ==> chunks[i] == old(chunks)[i].(valid := false)
    {
      Clear();
      this.file := file;
    }

    method FindBestFit(n: nat) returns (use: int)
      ensures use == BestFit(chunks, n, |chunks|)
    {
      use := -1;
      for i := 0 to |chunks|
        invariant use == BestFit(chunks, n, i)
      {
        if Free(chunks[i]) && chunks[i].capacity >= n && (use == -1 || chunks[use].capacity > chunks[i].capacity) {
          use := i;
        }
      }
    }

    method FindLargest() returns (use: int)
      ensures use == Largest(chunks, |chunks|)
    {
      use := -1;
      for i := 0 to |chunks|
        invariant use == Largest(chunks, i)
      {
        if Free(chunks[i]) && (use == -1 || chunks[use].capacity < chunks[i].capacity) {
          use := i;
        }
      }
    }

    method FindEmpty() returns (use: int)
      ensures use == FirstEmpty(chunks, 0)
    {
      use := -1;
      for i := 0 to |chunks|
        invariant use == -1 && FirstEmpty(chunks, 0) == FirstEmpty(chunks, i)
      {
        if chunks[i].buffer == null {
          use := i;
          break;
        }
      }
    }

    /** Points chunk use at the n sectors from the given one, in the given buffer. */
    ghost predicate Pointed(was: seq<Chunk>, use: nat, sector: int, n: nat)
      requires use < |was|
      reads this
    {
      && |chunks| == |was| && current == use
      && chunks == was[use := Chunk(chunks[use].buffer, sector, 0, n, chunks[use].capacity, true, 0)]
    }

    method Reuse(use: nat, sector: int, n: nat)
      requires Valid() && !freeing && use < CHUNKS && Free(chunks[use]) && chunks[use].capacity >= n
      modifies this`chunks, this`current
      ensures Valid() && Pointed(old(chunks), use, sector, n) && Buffers() == old(Buffers())
      ensures chunks[use].buffer == old(chunks)[use].buffer && chunks[use].capacity == old(chunks)[use].capacity
    {
      hide Distinct, BuffersOf, Counted;
      var c := chunks[use].(start := sector, blockCount := n, readCount := 0, valid := true);
      Repointed(chunks, issued, use, c);
      chunks := chunks[use := c];
      current := use;
    }

    method Resize(use: nat, n: nat)
      requires Valid() && !freeing && use < CHUNKS && Free(chunks[use])
      modifies this`chunks, this`freed, this`mallocs
      ensures Valid() && fresh(Buffers() - old(Buffers())) && fresh(chunks[use].buffer) && freed == old(freed) + [old(chunks)[use].buffer]
      ensures |chunks| == CHUNKS && Free(chunks[use]) && chunks[use].capacity == n
      ensures forall i :: 0 <= i < CHUNKS && i != use ==> chunks[i] == old(chunks)[i]
    {
      hide Distinct, BuffersOf, Counted;
      var buffer := new Sector[n];
      var c := chunks[use].(buffer := buffer, capacity := n, readCount := 0, blockCount := 0);
      ResizedAccounts(chunks, freed, mallocs, use, c);
      freed := freed + [chunks[use].buffer];
      mallocs := mallocs + {buffer};
      Repointed(chunks, issued, use, c);
      chunks := chunks[use := c];
    }

    method Allocate(use: nat, n: nat)
      requires Valid() && !freeing && use < CHUNKS && chunks[use].buffer == null
      modifies this`chunks, this`mallocs
      ensures Valid() && fresh(Buffers() - old(Buffers())) && fresh(chunks[use].buffer)
      ensures |chunks| == CHUNKS && Free(chunks[use])
      ensures chunks[use].capacity == if n > FIRST_MALLOC then n else FIRST_MALLOC
      ensures forall i :: 0 <= i < CHUNKS && i != use ==> chunks[i] == old(chunks)[i]
    {
      hide Distinct, BuffersOf, Counted;
      var room := if n > FIRST_MALLOC then n else FIRST_MALLOC;
      var buffer := new Sector[room];
      mallocs := mallocs + {buffer};
      var c := chunks[use].(buffer := buffer, capacity := room, readCount := 0, blockCount := 0);
      Repointed(chunks, issued, use, c);
      chunks := chunks[use := c];
    }

    /** dvdnav_pre_cache_blocks: makes room for the n sectors from the given one. */
    method PreCache(sector: int, n: nat, useReadAhead: bool)
      requires Valid() && !freeing
      modifies this`chunks, this`current, this`freed, this`mallocs
      ensures Valid() && fresh(Buffers() - old(Buffers()))
      ensures freed == old(freed) + (if useReadAhead then Replaced(old(chunks), n) else [])
      ensures var choice := Choose(old(chunks), n);
              if !useReadAhead || choice == Nothing then
                chunks == old(chunks) && current == old(current)
              else
                && Pointed(old(chunks), choice.use, sector, n)
                && (if choice.Reuse? then chunks[current].buffer == old(chunks)[current].buffer
                    else fresh(chunks[current].buffer))
                && (choice.Resize? ==> chunks[current].capacity == n)
                && (choice.Allocate? ==> chunks[current].capacity == if n > FIRST_MALLOC then n else FIRST_MALLOC)
    {
      hide Distinct, BuffersOf, Counted, Mirrors;
      if !useReadAhead {
        return;
      }
      ChooseSparesUsed(chunks, n);
      var use := FindBestFit(n);
      if use == -1 {
        use := MakeRoom(n);
      }
      if use >= 0 {
        Reuse(use, sector, n);
      }
    }

    /** Finds a chunk for n sectors when none fits. */
    method MakeRoom(n: nat) returns (use: int)
      requires Valid() && !freeing && BestFit(chunks, n, |chunks|) == -1
      modifies this`chunks, this`freed, this`mallocs
      ensures Valid() && fresh(Buffers() - old(Buffers()))
      ensures freed == old(freed) + Replaced(old(chunks), n)
      ensures var choice := Choose(old(chunks), n);
              && !choice.Reuse? && |chunks| == CHUNKS
              && (forall i :: 0 <= i < CHUNKS && i != use ==> chunks[i] == old(chunks)[i])
              && (if choice == Nothing then use == -1
                  else use == choice.use < CHUNKS && Free(chunks[use]) && chunks[use].capacity >= n
                       && fresh(chunks[use].buffer))
              && (choice.Resize? ==> chunks[use].capacity == n)
              && (choice.Allocate? ==> chunks[use].capacity == if n > FIRST_MALLOC then n else FIRST_MALLOC)
    {
      hide Distinct, BuffersOf, Counted, Mirrors, BestFit, Largest, FirstEmpty;
      ChooseSparesUsed(chunks, n);
      use := FindLargest();
      if use >= 0 {
        Resize(use, n);
      } else {
        use := FindEmpty();
        if use >= 0 {
          Allocate(use, n);
        }
      }
    }

    method FindHit(sector: int, useReadAhead: bool) returns (use: int)
      requires current < |chunks|
      ensures use == Hit(chunks, current, sector, useReadAhead)
    {
      use := -1;
      if useReadAhead {
        if Holds(chunks[current], sector) {
          use := current;
        } else {
          for i := 0 to |chunks|
            invariant use == LastHolding(chunks, sector, i)
          {
            if Holds(chunks[i], sector) {
              use := i;
            }
          }
        }
      }
    }

    /** DVDReadBlocks: size sectors of the file from start, written at a place of a buffer. */
    static method ReadBlocks(file: File, start: int, size: nat, into: array<Sector>, at: nat)
      requires at + size <= into.Length
      modifies into
      ensures forall k :: 0 <= k < into.Length ==>
                into[k] == if at <= k < at + size then file(start + k - at) else old(into[k])
    {
      for i := 0 to size
        invariant forall k :: 0 <= k < into.Length ==>
                    into[k] == if at <= k < at + i then file(start + k - at) else old(into[k])
      {
        into[at + i] := file(start + i);
      }
    }

    /** dvdnav_read_cache_block, for one sector: a pointer into a chunk on a hit, and
        otherwise the caller's own block. */
    method ReadBlock(sector: int, useReadAhead: bool, own: array<Sector>) returns (buffer: array<Sector>, offset: nat)
      requires Valid() && !freeing && own.Length > 0 && own !in Buffers()
      modifies this`chunks, this`ahead, this`issued, own, Buffers()
      ensures Valid() && Buffers() == old(Buffers())
      ensures offset < buffer.Length && buffer[offset] == file(sector)
      ensures var use := Hit(old(chunks), current, sector, useReadAhead);
              if use >= 0 then
                var c := old(chunks)[use];
                && buffer == c.buffer && offset == sector - c.start
                && ahead == NextAhead(old(ahead), sector)
                && issued == old(issued) + [Handle(buffer, offset, file(sector))]
                && chunks == old(chunks)[use := c.(usage := c.usage + 1,
                                                   readCount := c.readCount + ReadSize(c, ahead.size, sector))]
              else
                && buffer == own && offset == 0
                && chunks == old(chunks) && ahead == old(ahead) && issued == old(issued)
    {
      hide Distinct, BuffersOf, Counted, Count, Accounted, Mirrors, ReadSize, Holds;
      var use := FindHit(sector, useReadAhead);
      if use >= 0 {
        ahead := NextAhead(ahead, sector);
        buffer, offset := Serve(use, sector);
      } else {
        own[0] := file(sector);
        buffer, offset := own, 0;
      }
    }

    /** Reads size more sectors into a chunk. */
    method ReadMore(use: nat, size: nat)
      requires Valid() && !freeing && use < CHUNKS && chunks[use].buffer != null && chunks[use].valid
      requires chunks[use].readCount + size <= chunks[use].blockCount
      modifies this`chunks, Buffers()
      ensures Valid() && Buffers() == old(Buffers())
      ensures chunks == old(chunks)[use := old(chunks)[use].(readCount := old(chunks)[use].readCount + size)]
    {
      hide Distinct, BuffersOf, Counted, Count, Accounted;
      Owned(chunks, issued, use);
      var c := chunks[use];
      ReadBlocks(file, c.start + c.readCount, size, c.buffer, c.readCount);
      ghost var was := chunks;
      chunks := chunks[use := c.(readCount := c.readCount + size)];
      GrownChunk(was, issued, use, c.readCount + size);
      SameAccounts(was, chunks, freed, mallocs);
    }

    /** Records that a block in the read part of a chunk is handed out. */
    method HandOut(use: nat, offset: nat)
      requires Valid() && !freeing && use < CHUNKS && chunks[use].buffer != null && offset < chunks[use].readCount
      modifies this`chunks, this`issued
      ensures Valid() && Buffers() == old(Buffers())
      ensures chunks == old(chunks)[use := old(chunks)[use].(usage := old(chunks)[use].usage + 1)]
      ensures issued == old(issued) + [Handle(chunks[use].buffer, offset, chunks[use].buffer[offset])]
    {
      hide Distinct, BuffersOf, Counted, Count, Accounted;
      ghost var was, h := chunks, Handle(chunks[use].buffer, offset, chunks[use].buffer[offset]);
      HandedOut(chunks, issued, use, h);
      chunks := chunks[use := chunks[use].(usage := chunks[use].usage + 1)];
      issued := issued + [h];
      SameAccounts(was, chunks, freed, mallocs);
    }

    /** Hands out a block of a chunk and reads ahead in it. */
    method Serve(use: nat, sector: int) returns (buffer: array<Sector>, offset: nat)
      requires Valid() && !freeing && use < CHUNKS && Holds(chunks[use], sector)
      modifies this`chunks, this`issued, Buffers()
      ensures Valid() && Buffers() == old(Buffers())
      ensures var c := old(chunks)[use];
              && buffer == c.buffer && offset == sector - c.start < buffer.Length && buffer[offset] == file(sector)
              && issued == old(issued) + [Handle(buffer, offset, file(sector))]
              && chunks == old(chunks)[use := c.(usage := c.usage + 1,
                                                 readCount := c.readCount + ReadSize(c, ahead.size, sector))]
    {
      hide Distinct, BuffersOf, ReadSize, Counted, Count, Accounted;
      var c := chunks[use];
      var size := ReadSize(c, ahead.size, sector);
      ReadSizeReaches(c, ahead.size, sector);
      buffer, offset := c.buffer, sector - c.start;
      ReadMore(use, size);
      HandOut(use, offset);
    }

    /** Counts a returned block off every chunk that contains it. */
    method Release(buffer: array<Sector>, offset: nat)
      requires |chunks| == CHUNKS
      modifies this`chunks
      ensures |chunks| == CHUNKS
      ensures forall i :: 0 <= i < CHUNKS ==> chunks[i] == Returned(old(chunks)[i], buffer, offset)
    {
      for i := 0 to CHUNKS
        invariant |chunks| == CHUNKS
        invariant forall j :: 0 <= j < i ==> chunks[j] == Returned(old(chunks)[j], buffer, offset)
        invariant forall j :: i <= j < CHUNKS ==> chunks[j] == old(chunks)[j]
      {
        if Contains(chunks[i], buffer, offset) {
          chunks := chunks[i := chunks[i].(usage := chunks[i].usage - 1)];
        }
      }
    }

    /** The place lies in no chunk (k negative), or is that of the k-th outstanding block. */
    ghost predicate Returnable(buffer: array<Sector>, offset: nat, k: int)
      reads this
    {
      if k < 0 then buffer !in Buffers() else k < |issued| && IsAt(issued[k], buffer, offset)
    }

    method TakeBack(buffer: array<Sector>, offset: nat, ghost k: int)
      requires |chunks| == CHUNKS
      modifies this`chunks, this`issued
      ensures |chunks| == CHUNKS
      ensures forall i :: 0 <= i < CHUNKS ==> chunks[i] == Returned(old(chunks)[i], buffer, offset)
      ensures issued == if 0 <= k < |old(issued)| then Without(old(issued), k) else old(issued)
      ensures old(Valid() && Returnable(buffer, offset, k)) ==> Valid() && Buffers() == old(Buffers())
    {
      hide Distinct, Counted, Count, InBounds, Accounted;
      ghost var was, keeps := chunks, Valid() && Returnable(buffer, offset, k);
      Release(buffer, offset);
      if keeps {
        if k >= 0 {
          BlockReturned(was, chunks, freeing, issued, k);
          SameAccounts(was, chunks, freed, mallocs);
        } else {
          assert chunks == was;
        }
      }
      if 0 <= k < |issued| {
        issued := Without(issued, k);
      }
    }

    method Drop(i: nat)
      requires |chunks| == CHUNKS && i < CHUNKS && Free(chunks[i])
      modifies this`chunks, this`freed
      ensures chunks == old(chunks)[i := Dropped(old(chunks)[i])] && freed == old(freed) + [old(chunks)[i].buffer]
      ensures old(Valid() && freeing) ==> Valid() && Buffers() <= old(Buffers())
    {
      hide Distinct, BuffersOf, Counted, Accounted, Mirrors;
      if Valid() && freeing {
        DroppedOne(chunks, issued, freed, mallocs, i);
      }
      freed := freed + [chunks[i].buffer];
      chunks := chunks[i := chunks[i].(buffer := null)];
    }

    method StartFreeing()
      modifies this`freeing
      ensures freeing && (old(Valid()) ==> Valid())
    {
      hide Distinct, BuffersOf, Counted, Accounted, Mirrors, Count, Shaped, InBounds;
      if Valid() {
        StillShaped(chunks, freeing);
      }
      freeing := true;
    }

    /** Frees every buffer with nothing handed out. */
    method DropAll()
      requires |chunks| == CHUNKS && freeing
      modifies this`chunks, this`freed
      ensures |chunks| == CHUNKS
      ensures forall i :: 0 <= i < CHUNKS ==> chunks[i] == Dropped(old(chunks)[i])
      ensures freed == old(freed) + DroppedBuffers(old(chunks), CHUNKS)
      ensures old(Valid()) ==> Valid() && Buffers() <= old(Buffers())
    {
      hide Distinct, BuffersOf, Counted, Accounted, Mirrors, Shaped;
      ghost var valid := Valid();
      for i := 0 to CHUNKS
        invariant |chunks| == CHUNKS
        invariant valid ==> Valid() && Buffers() <= old(Buffers())
        invariant forall j :: 0 <= j < i ==> chunks[j] == Dropped(old(chunks)[j])
        invariant forall j :: i <= j < CHUNKS ==> chunks[j] == old(chunks)[j]
        invariant freed == old(freed) + DroppedBuffers(old(chunks), i)
      {
        if Free(chunks[i]) {
          Drop(i);
        }
      }
    }

    /** dvdnav_read_cache_free: frees the buffers with nothing handed out, and the cache
        itself once no buffer is left; that is, on a valid cache, once no block is out. */
    method Dispose()
      requires |chunks| == CHUNKS && disposals == 0
      modifies this`chunks, this`freed, this`freeing, this`disposals
      ensures freeing && |chunks| == CHUNKS
      ensures forall i :: 0 <= i < CHUNKS ==> chunks[i] == Dropped(old(chunks)[i])
      ensures freed == old(freed) + DroppedBuffers(old(chunks), CHUNKS)
      ensures disposals == if Buffers() == {} then 1 else 0
      ensures old(Valid()) ==> Valid() && Buffers() <= old(Buffers()) && Settled()
    {
      hide Distinct, BuffersOf, Counted, Accounted, Mirrors, Count, Shaped, InBounds;
      ghost var valid := Valid();
      StartFreeing();
      DropAll();
      var left := AnyLeft();
      if valid {
        Emptied(chunks, issued, freed, mallocs);
      }
      if !left {
        disposals := 1;
      }
    }

    method AnyLeft() returns (left: bool)
      ensures left <==> Buffers() != {}
    {
      for i := 0 to |chunks|
        invariant forall j :: 0 <= j < i ==> chunks[j].buffer == null
      {
        if chunks[i].buffer != null {
          assert chunks[i].buffer in Buffers();
          return true;
        }
      }
      return false;
    }

    /** The cache is gone exactly when disposing has begun and no block is out. */
    ghost predicate Settled()
      reads this
    {
      && disposals == (if freeing && issued == [] then 1 else 0)
      && (disposals == 1 ==> multiset(freed) == multiset(mallocs))
    }

    /** dvdnav_free_cache_block: counts the block off every chunk that contains it, and goes
        on disposing if that has begun. What the cache promises lasts as long as the blocks
        that come back are outstanding ones or lie in no chunk. */
    method FreeBlock(buffer: array<Sector>, offset: nat, ghost k: int)
      requires |chunks| == CHUNKS && disposals == 0
      modifies this`chunks, this`issued, this`freed, this`freeing, this`disposals
      ensures freeing == old(freeing) && |chunks| == CHUNKS
      ensures issued == if 0 <= k < |old(issued)| then Without(old(issued), k) else old(issued)
      ensures forall i :: 0 <= i < CHUNKS ==>
                var c := Returned(old(chunks)[i], buffer, offset);
                chunks[i] == if freeing then Dropped(c) else c
      ensures if freeing then disposals == if Buffers() == {} then 1 else 0
              else disposals == 0 && freed == old(freed)
      ensures old(Valid() && Returnable(buffer, offset, k)) ==> Valid() && Buffers() <= old(Buffers()) && Settled()
    {
      hide Distinct, BuffersOf, Counted, Accounted, Mirrors;
      TakeBack(buffer, offset, k);
      if freeing {
        Dispose();
      }
    }

    // Requests

    /** Answers one request; once disposing has begun only returned blocks matter. */
    method Answer(request: Request, own: array<Sector>, out: seq<Handle>)
      returns (block: seq<Sector>, rest: seq<Handle>)
      requires Valid() && Settled() && own.Length > 0 && own !in Buffers() && out == issued
      modifies this, own, Buffers()
      ensures Valid() && Settled() && fresh(Buffers() - old(Buffers())) && own !in Buffers() && rest == issued
      ensures freeing == (old(freeing) || request.Disposing?)
      ensures block == if request.Reading? && !old(freeing) then [old(file)(request.sector)] else []
      ensures !freeing ==> file == if request.Opening? then request.file else old(file)
    {
      hide Shaped, Accounted, Mirrors, Hit, Choose, Returned, Dropped, ReadSize, NextAhead, Count;
      block, rest := [], out;
      if request.Returning? {
        if request.k < |out| {
          FreeBlock(out[request.k].buffer, out[request.k].offset, request.k);
          rest := out[..request.k] + out[request.k + 1..];
        }
      } else if !freeing {
        if request.PreCaching? {
          PreCache(request.sector, request.n, request.useReadAhead);
        } else if request.Reading? {
          var buffer, offset := ReadBlock(request.sector, request.useReadAhead, own);
          block := [buffer[offset]];
          if buffer != own {
            rest := out + [Handle(buffer, offset, buffer[offset])];
          }
        } else if request.Opening? {
          OpenFile(request.file);
        } else {
          Dispose();
        }
      }
    }
  }

  // Whole histories

  /** The cache is being disposed of; from then on blocks only come back. */
  predicate Closed(requests: seq<Request>)
    decreases |requests|
  {
    requests != [] && (requests[|requests| - 1].Disposing? || Closed(requests[..|requests| - 1]))
  }

  /** What the reads of a history deliver without any cache. */
  function PlainReads(file: File, requests: seq<Request>): seq<Sector>
    decreases |requests|
  {
    if requests == [] then []
    else
      var front, last := requests[..|requests| - 1], requests[|requests| - 1];
      PlainReads(file, front) + if last.Reading? && !Closed(front) then [OpenFile(file, front)(last.sector)] else []
  }

  /** The file that is open after a history. */
  function OpenFile(file: File, requests: seq<Request>): File
    decreases |requests|
  {
    if requests == [] then file
    else
      var front, last := requests[..|requests| - 1], requests[|requests| - 1];
      if last.Opening? && !Closed(front) then last.file else OpenFile(file, front)
  }

  /** Over every history the cache delivers what plain reads of the disc deliver, and
      the blocks still out hold what they held when they were handed out. It is disposed of,
      once, exactly when disposing was asked for and the last block is back, and then every
      buffer has been freed once. */
  method Replay(file: File, requests: seq<Request>)
    returns (delivered: seq<Sector>, out: seq<Handle>, cache: Cache)
    ensures delivered == PlainReads(file, requests)
    ensures forall k :: 0 <= k < |out| ==>
              out[k].offset < out[k].buffer.Length && out[k].buffer[out[k].offset] == out[k].data
    ensures out == cache.issued
    ensures cache.disposals == if Closed(requests) && out == [] then 1 else 0
    ensures cache.disposals == 1 ==> multiset(cache.freed) == multiset(cache.mallocs)
  {
    hide Shaped, Accounted, Mirrors;
    var own := new Sector[1];
    cache := new Cache(file);
    delivered, out := [], [];
    for i := 0 to |requests|
      invariant fresh(cache) && fresh(cache.Buffers()) && own !in cache.Buffers()
      invariant cache.Valid() && cache.Settled() && cache.freeing == Closed(requests[..i])
      invariant !cache.freeing ==> cache.file == OpenFile(file, requests[..i])
      invariant delivered == PlainReads(file, requests[..i])
      invariant out == cache.issued
    {
      assert requests[..i + 1][..i] == requests[..i];
      var block;
      block, out := cache.Answer(requests[i], own, out);
      delivered := delivered + block;
    }
    assert requests[..|requests|] == requests;
  }
}
