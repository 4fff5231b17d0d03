/** Addresses in the shared segment: segments of 1024 pages, pages cut into equal blocks, and the size
    classes of the page queues. Addresses are offsets from the start of the segment. */
module Layout {

  const PAGE_SIZE: nat := 0x1_0000
  const SEGMENT_SIZE: nat := 0x400_0000
  const PAGES_PER_SEGMENT: nat := 1024
  const SEGMENTS_AREA_START: nat := 0x800_0000
  const CXL_BIN_SIZE: nat := 66
  const ROOT_REF_SIZE: nat := 16
  const MESSAGE_QUEUE_SIZE: nat := 192
  const MAX_BLOCK: nat := 1024

  // ----- address arithmetic

  /** Clearing the low bits of an offset. */
  function PtrSegment(p: nat): nat {
    p - p % SEGMENT_SIZE
  }

  /** Index of the page descriptor for an address in a segment. */
  function PageIndex(segment: nat, p: nat): nat
    requires segment <= p
  {
    (p - segment) / PAGE_SIZE
  }

  function PageStart(segment: nat, index: nat): nat {
    segment + index * PAGE_SIZE
  }

  function BlockAt(pageStart: nat, blockSize: nat, i: nat): nat {
    pageStart + i * blockSize
  }

  /** How many blocks of a size a page holds. */
  function Capacity(blockSize: nat): (n: nat)
    requires 0 < blockSize <= PAGE_SIZE
    ensures n > 0 && n * blockSize <= PAGE_SIZE
  {
    PAGE_SIZE / blockSize
  }

  lemma {:induction false} MulLess(i: nat, j: nat, n: nat)
    requires i < j
    ensures i * n + n <= j * n
    decreases j
  {
    assert j * n == (j - 1) * n + n;
    if i < j - 1 {
      MulLess(i, j - 1, n);
    }
  }

  /** Block i lies inside its page, to the last byte. */
  lemma BlockInside(blockSize: nat, i: nat)
    requires 0 < blockSize <= PAGE_SIZE && i < Capacity(blockSize)
    ensures i * blockSize + blockSize <= PAGE_SIZE
  {
    MulLess(i, Capacity(blockSize), blockSize);
  }

  /** Every byte of a block leads back to the block's segment and page: the descriptor that `cxl_free`
      finds is the one the block was cut from. */
  lemma PageOfBlock(segment: nat, index: nat, blockSize: nat, i: nat, byte: nat)
    requires segment % SEGMENT_SIZE == 0 && index < PAGES_PER_SEGMENT
    requires 0 < blockSize <= PAGE_SIZE && i < Capacity(blockSize) && byte < blockSize
    ensures var p := BlockAt(PageStart(segment, index), blockSize, i) + byte;
            && PtrSegment(p) == segment && PageIndex(segment, p) == index
            && segment == p - p % 0x400_0000 && index == (p % 0x400_0000) / 0x1_0000
  {
    BlockInside(blockSize, i);
    var d := i * blockSize + byte;
    assert d < PAGE_SIZE;
    assert index * PAGE_SIZE + d < SEGMENT_SIZE;
    OffsetInSegment(segment, index * PAGE_SIZE + d);
  }

  /** The pages of a segment fill it. */
  lemma PagesFill(segment: nat, p: nat)
    requires segment <= p
    ensures PageIndex(segment, p) < PAGES_PER_SEGMENT <==> p < segment + SEGMENT_SIZE
  {
  }

  lemma OffsetInSegment(segment: nat, d: nat)
    requires segment % SEGMENT_SIZE == 0 && d < SEGMENT_SIZE
    ensures PtrSegment(segment + d) == segment
  {
  }

  /** Blocks do not overlap: a byte belongs to one block of one page. */
  lemma BlocksDisjoint(segment: nat, segment': nat, index: nat, index': nat, blockSize: nat, blockSize': nat,
                       i: nat, i': nat, byte: nat, byte': nat)
    requires segment % SEGMENT_SIZE == 0 && segment' % SEGMENT_SIZE == 0
    requires index < PAGES_PER_SEGMENT && index' < PAGES_PER_SEGMENT
    requires 0 < blockSize <= PAGE_SIZE && i < Capacity(blockSize) && byte < blockSize
    requires 0 < blockSize' <= PAGE_SIZE && i' < Capacity(blockSize') && byte' < blockSize'
    requires segment == segment' && index == index' ==> blockSize == blockSize'
    requires BlockAt(PageStart(segment, index), blockSize, i) + byte
             == BlockAt(PageStart(segment', index'), blockSize', i') + byte'
    ensures segment == segment' && index == index' && i == i' && byte == byte'
  {
    PageOfBlock(segment, index, blockSize, i, byte);
    PageOfBlock(segment', index', blockSize', i', byte');
    SameMultiple(blockSize, i, i', byte, byte');
  }

  lemma SameMultiple(n: nat, i: nat, j: nat, a: nat, b: nat)
    requires a < n && b < n && i * n + a == j * n + b
    ensures i == j && a == b
  {
    if i < j {
      MulLess(i, j, n);
    } else if j < i {
      MulLess(j, i, n);
    }
  }

  /** The sweep over a page from its first block, block size by block size, up to the last block meets
      exactly the blocks of the page. */
  lemma SweepMeetsBlocks(pageStart: nat, blockSize: nat, k: nat)
    requires 0 < blockSize <= PAGE_SIZE
    ensures BlockAt(pageStart, blockSize, k) <= BlockAt(pageStart, blockSize, Capacity(blockSize) - 1) <==>
              k < Capacity(blockSize)
    ensures BlockAt(pageStart, blockSize, k) + blockSize == BlockAt(pageStart, blockSize, k + 1)
  {
    var n := Capacity(blockSize);
    assert (k + 1) * blockSize == k * blockSize + blockSize;
    if k < n - 1 {
      MulLess(k, n - 1, blockSize);
    } else if n - 1 < k {
      MulLess(n - 1, k, blockSize);
    }
  }

  // ----- size classes

  /** The block size a client gives its queues when it starts. */
  function ClassSize(c: nat): nat
    requires c < CXL_BIN_SIZE
  {
    if c == 0 then 16
    else if c == 1 then 16 * ((MESSAGE_QUEUE_SIZE - 1) / 16) + 16
    else 16 * (c - 1)
  }

  /** The queue for a request. */
  function QueueFor(special: bool, size: nat): nat
    requires size > 0
  {
    if special && size == ROOT_REF_SIZE then 0
    else if special && size == MESSAGE_QUEUE_SIZE then 1
    else (size - 1) / 16 + 2
  }

  predicate Special(c: nat) {
    c < 2
  }

  /** Looking a queue up by the block size of its own pages finds it again. */
  lemma QueueRoundTrip(c: nat)
    requires c < CXL_BIN_SIZE
    ensures ClassSize(c) > 0 && QueueFor(Special(c), ClassSize(c)) == c
    ensures ClassSize(0) == 16 && ClassSize(1) == 192
  {
  }

  /** A request is served by the smallest class that holds it, and within the table up to 1024 bytes. */
  lemma RequestFits(size: nat)
    requires 0 < size <= MAX_BLOCK
    ensures var c := QueueFor(false, size);
            2 <= c < CXL_BIN_SIZE && size <= ClassSize(c) < size + 16
            && forall d :: 2 <= d < c ==> ClassSize(d) < size
  {
  }

  /** A larger request leaves the table. */
  lemma RequestTooLarge(size: nat)
    requires size > 0
    ensures QueueFor(false, size) < CXL_BIN_SIZE <==> size <= MAX_BLOCK
  {
  }
}
