/**
 The heap of one client: allocation and release of blocks, pages and segments. Other clients release
 blocks of this heap by pushing them on the segment's list. `LiveBlocks` is what it amounts to.
 */
module Heap {
  import opened RefTypes
  import opened Layout
  import opened BlockLists
  import PageLists
  import PageQueue

  /** What is in somebody's hands. */
  ghost function LiveSet(place: map<Blk, Place>): set<Blk> {
    set b | b in place && place[b].Live?
  }

  lemma LiveChange(place: map<Blk, Place>, b: Blk, x: Place)
    requires b in place
    ensures LiveSet(place[b := x]) == if x.Live? then LiveSet(place) + {b} else LiveSet(place) - {b}
  {
  }

  lemma LiveReplaced(place: map<Blk, Place>, l: ListId, m: ListId)
    ensures LiveSet(Replace(place, l, m)) == LiveSet(place) && Replace(place, l, m).Keys == place.Keys
  {
  }

  /** Segment s was collected: its waiting blocks are on their own pages' local lists, all else is as before. */
  ghost predicate Collected(place0: map<Blk, Place>, place: map<Blk, Place>, s: nat) {
    && place.Keys == place0.Keys
    && forall b :: b in place0 ==>
         if place0[b] == In(ThreadOf(s)) then b.At? && place[b] == In(LocalOf(b.page)) else place[b] == place0[b]
  }

  /** The blocks that wait on segment s's list are back on their own pages' local lists. */
  ghost function Homecoming(place: map<Blk, Place>, s: nat): map<Blk, Place> {
    map b | b in place :: if place[b] == In(ThreadOf(s)) && b.At? then In(LocalOf(b.page)) else place[b]
  }

  lemma CollectedIs(place0: map<Blk, Place>, place: map<Blk, Place>, s: nat)
    requires Collected(place0, place, s)
    ensures place == Homecoming(place0, s)
  {
    forall b | b in place0 ensures place[b] == Homecoming(place0, s)[b] {
    }
  }

  ghost predicate HasFree(place: map<Blk, Place>, p: nat) {
    exists b :: b in place && place[b] == In(FreeOf(p))
  }

  /** Collecting for page p: what waits comes home, and an empty free list is replaced by the local list. */
  ghost function Refill(place: map<Blk, Place>, p: nat): map<Blk, Place> {
    var back := Homecoming(place, PageLists.SegmentOf(p));
    if HasFree(place, p) then back else Replace(back, LocalOf(p), FreeOf(p))
  }

  ghost function Refills(place: map<Blk, Place>, pages: seq<nat>, n: nat): map<Blk, Place>
    requires n <= |pages|
  {
    if n == 0 then place else Refill(Refills(place, pages, n - 1), pages[n - 1])
  }

  lemma ReplaceNone(place: map<Blk, Place>, l: ListId, m: ListId)
    requires forall b :: b in place ==> place[b] != In(l)
    ensures Replace(place, l, m) == place
  {
  }

  /** The entries below n that belong to nobody. */
  ghost function Unowned(owner: seq<Tid>, n: nat): set<nat> {
    set s: nat | s < n && s < |owner| && owner[s] == 0
  }

  lemma UnownedNext(owner: seq<Tid>, n: nat)
    requires n < |owner|
    ensures Unowned(owner, n + 1) == if owner[n] == 0 then Unowned(owner, n) + {n} else Unowned(owner, n)
  {
  }

  function NoPages(c: nat): seq<nat> {
    []
  }

  class Heap {
    const tid: Tid
    // the blocks' first words, the list heads, the pages' counters
    var next: map<Blk, Blk>
    var head: map<ListId, Blk>
    var used: map<nat, int>
    // pages and segments
    var owner: seq<Tid>
    var segUsed: map<nat, int>
    var freePages: seq<nat>
    var queue: map<nat, seq<nat>>
    var size: map<nat, nat>
    var spurious: nat        // how often a weak compare-and-swap may still fail for no reason
    ghost var lists: map<ListId, seq<Blk>>
    ghost var place: map<Blk, Place>
    ghost var home: map<nat, nat>

    /** A client that starts: its queues are empty. */
    constructor (tid: Tid, owner: seq<Tid>, spurious: nat)
      requires tid != 0 && tid !in owner
      ensures Valid() && LiveBlocks() == {} && home == map[] && freePages == []
      ensures this.tid == tid && this.owner == owner && this.spurious == spurious
    {
      this.tid := tid;
      this.owner, this.spurious := owner, spurious;
      next, head, used, segUsed, freePages, size := map[], map[], map[], map[], [], map[];
      queue := map c | 0 <= c < CXL_BIN_SIZE :: NoPages(c);
      lists, place, home := map[], map[], map[];
      new;
      EmptyOk(BlockView(), PageView());
    }

    ghost function BlockView(): Blocks
      reads this
    {
      Blocks(next, head, used, lists, place)
    }

    ghost function PageView(): PageLists.Pages
      reads this
    {
      PageLists.Pages(owner, segUsed, freePages, queue, size, home)
    }

    ghost predicate Valid()
      reads this
    {
      BlocksOk(BlockView(), size) && PageLists.PagesOk(PageView(), tid, {}) && Taken !in head
    }

    ghost function LiveBlocks(): set<Blk>
      reads this
    {
      LiveSet(place)
    }

    static lemma EmptyOk(v: Blocks, w: PageLists.Pages)
      requires v == Blocks(map[], map[], map[], map[], map[])
      requires w.segUsed == map[] && w.free == [] && w.size == map[] && w.home == map[]
      requires w.queue == map c | 0 <= c < CXL_BIN_SIZE :: NoPages(c)
      ensures BlocksOk(v, map[]) && forall tid: Tid :: tid != 0 && tid !in w.owner ==> PageLists.PagesOk(w, tid, {})
    {
    }

    function HeadOf(l: ListId): Blk
      reads this
    {
      if l in head then head[l] else Null
    }

    method CompareExchangeWeak(matches: bool) returns (ok: bool)
      modifies this`spurious
      ensures ok ==> matches
      ensures spurious == if matches && !ok then old(spurious) - 1 else old(spurious)
    {
      ok := matches;
      if ok && spurious > 0 {
        var fails: bool := *;
        if fails {
          spurious := spurious - 1;
          ok := false;
        }
      }
    }

    // ----- segments and pages

    /** Claim the first segment whose entry could be set; its 1023 usable pages become free pages. A
        segment of nobody is passed over for each spurious failure, and for no other reason. */
    method SegmentAlloc() returns (s: int)
      requires PageLists.PagesOk(PageView(), tid, {})
      modifies this`owner, this`segUsed, this`freePages, this`spurious
      ensures PageLists.PagesOk(PageView(), tid, {})
      ensures spurious <= old(spurious)
      ensures |Unowned(old(owner), if s < 0 then |old(owner)| else s)| == old(spurious) - spurious
      ensures s < 0 ==> PageView() == old(PageView())
      ensures s >= 0 ==>
                s < old(|owner|) && old(owner)[s] == 0 && PageView() == PageLists.Claimed(old(PageView()), s, tid)
    {
      hide PageLists.PagesOk, PageLists.UsablePages;
      ghost var v := PageView();
      var count := 0;
      while true
        invariant count <= |owner| && PageView() == v
        invariant |Unowned(owner, count)| == old(spurious) - spurious
        decreases |owner| - count
      {
        if count >= |owner| {
          return -1;
        }
        UnownedNext(owner, count);
        var ok := CompareExchangeWeak(owner[count] == 0);
        if ok {
          break;
        }
        count := count + 1;
      }
      s := count;
      PageLists.ClaimKeeps(v, tid, s);
      owner := owner[s := tid];
      segUsed := segUsed[s := 0];
      PushPages(s);
    }

    /** Push the usable pages of a segment on the free queue, last page first. */
    method PushPages(s: nat)
      modifies this`freePages
      ensures freePages == PageLists.UsablePages(s, PAGES_PER_SEGMENT - 1) + old(freePages)
    {
      var page := PAGES_PER_SEGMENT - 1;
      ghost var usable := PageLists.UsablePages(s, PAGES_PER_SEGMENT - 1);
      while page >= 1
        invariant 0 <= page < PAGES_PER_SEGMENT
        invariant freePages == usable[page..] + old(freePages)
        decreases page
      {
        assert usable[page - 1..] == [usable[page - 1]] + usable[page..];
        freePages := [s * PAGES_PER_SEGMENT + page] + freePages;
        page := page - 1;
      }
    }

    /** Page p is the first usable page of a segment that was nobody's and is now the client's; up to n such
        segments before it were passed over. */
    static ghost predicate FromNewSegment(v: PageLists.Pages, w: PageLists.Pages, tid: Tid, p: nat, n: int) {
      exists s: nat :: s < |v.owner| && v.owner[s] == 0 && p == s * PAGES_PER_SEGMENT + 1 && |Unowned(v.owner, s)| <= n
        && PageLists.SegmentOf(p) in PageLists.Claimed(v, s, tid).segUsed
        && w == PageLists.Taken(PageLists.Claimed(v, s, tid), p)
    }

    /** Page p was the first free page; without free page it is from a new segment. */
    static ghost predicate Supplied(v: PageLists.Pages, w: PageLists.Pages, tid: Tid, p: nat, n: int) {
      if v.free == [] then FromNewSegment(v, w, tid, p, n)
      else p == v.free[0] && PageLists.SegmentOf(p) in v.segUsed && w == PageLists.Taken(v, p)
    }

    /** No page is free, and no segment to be had: at most n of nobody's were passed over. */
    static ghost predicate NoRoom(v: PageLists.Pages, n: int) {
      v.free == [] && |Unowned(v.owner, |v.owner|)| <= n
    }

    static lemma FreeNotNull(v: PageLists.Pages, tid: Tid, p: nat)
      requires PageLists.PagesOk(v, tid, {}) && p in v.free
      ensures p != 0
    {
      assert PageLists.Mine(v, tid, p);
    }

    /** Take a free page; if there is none, claim a segment and try once more. */
    method SegmentPageAlloc() returns (p: nat)
      requires PageLists.PagesOk(PageView(), tid, {})
      modifies this`owner, this`segUsed, this`freePages, this`spurious
      ensures PageLists.PagesOk(PageView(), tid, if p == 0 then {} else {p})
      ensures spurious <= old(spurious) && (old(freePages) != [] ==> spurious == old(spurious))
      ensures p == 0 ==> PageView() == old(PageView()) && NoRoom(PageView(), old(spurious) - spurious)
      ensures p != 0 ==> Supplied(old(PageView()), PageView(), tid, p, old(spurious) - spurious)
      decreases if freePages == [] then 1 else 0
    {
      hide PageLists.PagesOk, PageLists.Drop;
      if freePages == [] {
        var s := SegmentAlloc();
        if s < 0 {
          return 0;
        }
        assert freePages[0] == s * PAGES_PER_SEGMENT + 1;
        p := SegmentPageAlloc();
        return;
      }
      p := freePages[0];
      assert p in freePages;
      PageLists.TakeKeeps(PageView(), tid, p);
      FreeNotNull(PageView(), tid, p);
      freePages := PageLists.Drop(freePages, p);
      segUsed := segUsed[PageLists.SegmentOf(p) := segUsed[PageLists.SegmentOf(p)] + 1];
    }

    /** Unlink a page from the free queue: it must be there. */
    method RemoveFree(p: nat)
      requires p in freePages && PageQueue.Distinct(freePages)
      modifies this`freePages
      ensures freePages == PageLists.Drop(old(freePages), p)
    {
      freePages := PageLists.Drop(freePages, p);
    }

    /** The queue without the first n usable pages of segment s. */
    static function DropPages(pages: seq<nat>, s: nat, n: nat): seq<nat> {
      if n == 0 then pages else PageLists.Drop(DropPages(pages, s, n - 1), s * PAGES_PER_SEGMENT + n)
    }

    /** Give an idle segment back: each of its pages is unlinked from the free queue, where it is found. */
    method SegmentFree(s: nat)
      requires PageLists.PagesOk(PageView(), tid, {}) && s < |owner| && owner[s] == tid && segUsed[s] == 0
      modifies this`owner, this`segUsed, this`freePages, this`spurious
      ensures PageLists.PagesOk(PageView(), tid, {}) && owner == old(owner)[s := 0] && segUsed == old(segUsed) - {s}
      ensures forall p :: p in freePages <==> p in old(freePages) && PageLists.SegmentOf(p) != s
      ensures freePages == DropPages(old(freePages), s, PAGES_PER_SEGMENT - 1) && spurious <= old(spurious)
    {
      ghost var v := PageView();
      hide PageLists.CountersOk, PageLists.QueuesOk, PageLists.FreeOk, PageQueue.Distinct, PageLists.Drop;
      assert PageQueue.Distinct(freePages) by {
        KnownDistinct(v, tid);
      }
      var i := 1;
      while i < PAGES_PER_SEGMENT
        invariant 1 <= i <= PAGES_PER_SEGMENT && PageQueue.Distinct(freePages)
        invariant forall p :: p in freePages <==>
                    p in v.free && !(s * PAGES_PER_SEGMENT < p < s * PAGES_PER_SEGMENT + i)
        invariant freePages == DropPages(v.free, s, i - 1)
        modifies this`freePages
      {
        PageLists.IdleSegmentIsFree(v, tid, s, s * PAGES_PER_SEGMENT + i);
        RemoveFree(s * PAGES_PER_SEGMENT + i);
        i := i + 1;
      }
      forall p | p in v.free
        ensures PageLists.SegmentOf(p) == s <==> s * PAGES_PER_SEGMENT < p < s * PAGES_PER_SEGMENT + i
      {
        PagePlace(v, tid, s, p);
      }
      PageLists.ReleaseKeeps(v, tid, s, freePages);
      segUsed := segUsed - {s};
      var ok := false;
      while !ok
        invariant spurious <= old(spurious)
        decreases spurious, !ok
        modifies this`spurious
      {
        ok := CompareExchangeWeak(owner[s] == tid);
      }
      owner := owner[s := 0];
    }

    static lemma KnownDistinct(v: PageLists.Pages, tid: Tid)
      requires PageLists.PagesOk(v, tid, {})
      ensures PageQueue.Distinct(v.free)
    {
    }

    static lemma PagePlace(v: PageLists.Pages, tid: Tid, s: nat, p: nat)
      requires PageLists.PagesOk(v, tid, {}) && p in v.free
      ensures PageLists.SegmentOf(p) == s <==> s * PAGES_PER_SEGMENT < p < s * PAGES_PER_SEGMENT + PAGES_PER_SEGMENT
    {
      assert PageLists.Mine(v, tid, p);
    }

    /** Chain the n blocks of a page in order, and the last one to what the free list held. */
    method ChainBlocks(p: nat, n: nat)
      requires n > 0 && HeadOf(FreeOf(p)) == Null
      modifies this`next
      ensures forall b :: b in old(next) && !(b.At? && b.page == p) ==> b in next && next[b] == old(next)[b]
      ensures forall i: nat :: i < n ==> Laid(next, p, n, i)
    {
      hide Laid;
      ghost var next0 := next;
      var k := 0;
      while k < n - 1
        invariant 0 <= k <= n - 1
        invariant forall b :: b in next0 && !(b.At? && b.page == p) ==> b in next && next[b] == next0[b]
        invariant forall i: nat :: i < k ==> Laid(next, p, n, i)
      {
        ghost var before := next;
        next := next[At(p, k) := At(p, k + 1)];
        LaidOneMore(before, next, p, n, k);
        k := k + 1;
      }
      ghost var before := next;
      next := next[At(p, n - 1) := HeadOf(FreeOf(p))];
      LaidOneMore(before, next, p, n, k);
    }

    /** Initialise a page: its blocks form one null-terminated chain, in order. */
    method PageInit(p: nat, blockSize: nat)
      requires BlocksOk(BlockView(), size) && p !in size && 0 < blockSize <= PAGE_SIZE
      modifies this`next, this`head, this`used, this`size, this`lists, this`place
      ensures size == old(size)[p := blockSize] && BlocksOk(BlockView(), size)
      ensures BlockView() == Opened(old(BlockView()), p, Capacity(blockSize), next)
      ensures old(Taken !in head) ==> Taken !in head
      ensures forall i: nat :: i < Capacity(blockSize) ==> Laid(next, p, Capacity(blockSize), i)
    {
      hide BlocksOk, Capacity, Laid, BlockLists.Blocks0;
      ghost var v := BlockView();
      UnusedEmpty(v, size, p);
      head := head[LocalOf(p) := Null];
      size := size[p := blockSize];
      used := used[p := 0];
      ChainBlocks(p, Capacity(blockSize));
      head := head[FreeOf(p) := At(p, 0)];
      OpenKeeps(v, old(size), p, blockSize, next);
      ghost var w := Opened(v, p, Capacity(blockSize), next);
      lists, place := w.lists, w.place;
    }

    static lemma LaidOneMore(before: map<Blk, Blk>, after: map<Blk, Blk>, p: nat, n: nat, k: nat)
      requires forall i: nat :: i < k ==> Laid(before, p, n, i)
      requires At(p, k) in after && after[At(p, k)] == if k + 1 < n then At(p, k + 1) else Null
      requires forall b :: b in before && b != At(p, k) ==> b in after && after[b] == before[b]
      ensures forall i: nat :: i < k + 1 ==> Laid(after, p, n, i)
    {
      forall i: nat | i < k + 1 ensures Laid(after, p, n, i) {
        assert i < k ==> Laid(before, p, n, i);
      }
    }

    /** A fresh page for class c, first in its queue, all its blocks free. Null if there is no segment left. */
    method PageFresh(c: nat) returns (p: nat)
      requires Valid() && c < CXL_BIN_SIZE
      modifies this
      ensures Valid() && LiveBlocks() == old(LiveBlocks())
      ensures spurious <= old(spurious)
      ensures p == 0 ==> BlockView() == old(BlockView()) && PageView() == old(PageView())
      ensures p == 0 ==> NoRoom(PageView(), old(spurious) - spurious)
      ensures p != 0 ==> p !in old(size) && Fresh(old(BlockView()), BlockView(), p, c)
      ensures p != 0 ==> Served(old(PageView()), PageView(), tid, p, c, old(spurious) - spurious)
      ensures p != 0 ==> HeadOf(FreeOf(p)) != Null
    {
      hide BlocksOk, PageLists.PagesOk, PageLists.Drop, Fresh;
      p := SegmentPageAlloc();
      if p == 0 {
        return;
      }
      OnTheWay(PageView(), tid, p);
      OpenPage(p, c);
    }

    /** Page p has just been laid out for class c. */
    static ghost predicate Fresh(v: Blocks, w: Blocks, p: nat, c: nat) {
      && c < CXL_BIN_SIZE && 0 < ClassSize(c) <= PAGE_SIZE && w == Opened(v, p, Capacity(ClassSize(c)), w.next)
      && forall i: nat :: i < Capacity(ClassSize(c)) ==> Laid(w.next, p, Capacity(ClassSize(c)), i)
    }

    /** Page p has just been supplied, and heads the queue of class c. */
    static ghost predicate Served(v: PageLists.Pages, w: PageLists.Pages, tid: Tid, p: nat, c: nat, n: int) {
      && c < CXL_BIN_SIZE && c in v.queue && w.queue == v.queue[c := [p] + v.queue[c]]
      && w.size == v.size[p := ClassSize(c)] && w.home == v.home[p := c]
      && Supplied(v, w.(queue := v.queue, size := v.size, home := v.home), tid, p, n)
    }

    /** Lay out a page that was taken from the free queue and put it in front of its queue. */
    method OpenPage(p: nat, c: nat)
      requires BlocksOk(BlockView(), size) && PageLists.PagesOk(PageView(), tid, {p}) && Taken !in head
               && c < CXL_BIN_SIZE && p !in size
      modifies this`next, this`head, this`used, this`size, this`queue, this`home, this`lists, this`place
      ensures Valid() && LiveBlocks() == old(LiveBlocks())
      ensures Fresh(old(BlockView()), BlockView(), p, c)
      ensures home == old(home)[p := c] && c in old(queue) && queue == old(queue)[c := [p] + old(queue)[c]]
      ensures size == old(size)[p := ClassSize(c)] && HeadOf(FreeOf(p)) != Null
    {
      hide BlocksOk, PageLists.PagesOk, ClassSize, Capacity, Laid;
      ghost var v, w := BlockView(), PageView();
      QueueRoundTrip(c);
      ClassFits(c);
      PageInit(p, ClassSize(c));
      OpenLive(v, w.size, p, Capacity(ClassSize(c)), next);
      PageLists.QueueKeeps(w, tid, p, c);
      queue := queue[c := [p] + queue[c]];
      home := home[p := c];
    }

    static lemma ClassFits(c: nat)
      requires c < CXL_BIN_SIZE
      ensures 0 < ClassSize(c) <= PAGE_SIZE
    {
    }

    static lemma OnTheWay(w: PageLists.Pages, tid: Tid, p: nat)
      requires PageLists.PagesOk(w, tid, {p})
      ensures p !in w.size && p !in w.home
    {
      assert p in {p};
    }

    static lemma OpenLive(v: Blocks, size: map<nat, nat>, p: nat, n: nat, next: map<Blk, Blk>)
      requires BlocksOk(v, size) && p !in size
      ensures LiveSet(Opened(v, p, n, next).place) == LiveSet(v.place)
    {
    }

    ghost predicate SegmentOwn(p: nat)
      reads this
    {
      PageLists.SegmentOf(p) < |owner| && owner[PageLists.SegmentOf(p)] == tid && PageLists.SegmentOf(p) in segUsed
    }

    /** Unlink a page from its queue and wipe its descriptor. */
    method Retire(p: nat, c: nat)
      requires Valid() && p in size && used[p] == 0 && p in home && home[p] == c
      modifies this`queue, this`head, this`used, this`size, this`home, this`lists, this`place
      ensures BlocksOk(BlockView(), size) && PageLists.PagesOk(PageView(), tid, {p}) && Taken !in head
      ensures LiveBlocks() == old(LiveBlocks()) && p !in size && home == old(home) - {p}
      ensures BlockView() == Closed(old(BlockView()), p) && size == old(size) - {p} && SegmentOwn(p)
      ensures c in old(queue) && queue == old(queue)[c := PageLists.Drop(old(queue)[c], p)]
    {
      hide BlocksOk, PageLists.PagesOk, PageLists.Drop;
      SegmentOwned(PageView(), tid, p);
      ghost var v, w := BlockView(), PageView();
      PageLists.UnqueueKeeps(w, tid, p);
      CloseKeeps(v, size, p);
      CloseLive(v, size, p);
      queue := queue[c := PageLists.Drop(queue[c], p)];
      head := head[LocalOf(p) := Null][FreeOf(p) := Null];
      used, size, home := used - {p}, size - {p}, home - {p};
      lists, place := Closed(v, p).lists, Closed(v, p).place;
    }

    /** A page whose last block came home leaves its queue and becomes a free page; a segment without
        pages in use is given back. */
    method PageFree(p: nat, c: nat)
      requires Valid() && p in size && used[p] == 0 && p in home && home[p] == c
      modifies this
      ensures Valid() && LiveBlocks() == old(LiveBlocks()) && p !in size && home == old(home) - {p}
      ensures BlockView() == Closed(old(BlockView()), p)
      ensures old(SegmentOwn(p)) && GivenUp(old(PageView()), PageView(), p, c) && spurious <= old(spurious)
    {
      hide BlocksOk, PageLists.PagesOk, Closed, PageLists.Drop, DropPages;
      Retire(p, c);
      PageLists.GiveKeeps(PageView(), tid, p);
      var s := PageLists.SegmentOf(p);
      freePages := [p] + freePages;
      segUsed := segUsed[s := segUsed[s] - 1];
      if segUsed[s] == 0 {
        SegmentFree(s);
      }
    }

    /** Page p left the queue of class c and is free, and with the last page in use its whole segment is nobody's. */
    static ghost predicate GivenUp(v: PageLists.Pages, w: PageLists.Pages, p: nat, c: nat) {
      var s := PageLists.SegmentOf(p);
      && c in v.queue && s in v.segUsed && s < |v.owner|
      && w.queue == v.queue[c := PageLists.Drop(v.queue[c], p)] && w.size == v.size - {p} && w.home == v.home - {p}
      && if v.segUsed[s] == 1
         then w.owner == v.owner[s := 0] && w.segUsed == v.segUsed - {s}
              && w.free == DropPages([p] + v.free, s, PAGES_PER_SEGMENT - 1)
         else w.owner == v.owner && w.segUsed == v.segUsed[s := v.segUsed[s] - 1] && w.free == [p] + v.free
    }

    static lemma SegmentOwned(w: PageLists.Pages, tid: Tid, p: nat)
      requires PageLists.PagesOk(w, tid, {}) && p in w.size
      ensures PageLists.SegmentOf(p) < |w.owner| && w.owner[PageLists.SegmentOf(p)] == tid
              && PageLists.SegmentOf(p) in w.segUsed
    {
    }

    static lemma CloseLive(v: Blocks, size: map<nat, nat>, p: nat)
      requires BlocksOk(v, size) && p in size && v.used[p] == 0
      ensures LiveSet(Closed(v, p).place) == LiveSet(v.place)
    {
      UnusedPageIsHome(v, size, p);
    }

    static ghost predicate Allocates(v: Blocks, w: Blocks, p: nat) {
      |Listed(v, FreeOf(p))| > 0 && Head(v, FreeOf(p)) in v.next && p in v.used && w == Allocated(v, p)
    }

    /** Hand out the first free block of a page. */
    method TakeBlock(p: nat) returns (b: Blk)
      requires Valid() && p in size && HeadOf(FreeOf(p)) != Null
      modifies this`used, this`head, this`lists, this`place
      ensures Valid() && b.At? && b.page == p && Allocates(old(BlockView()), BlockView(), p)
      ensures b !in old(LiveBlocks()) && LiveBlocks() == old(LiveBlocks()) + {b}
      ensures b in old(place) && old(place)[b] == In(FreeOf(p)) && place == old(place)[b := Live]
    {
      hide BlocksOk, PageLists.PagesOk;
      ghost var v := BlockView();
      AllocateKeeps(v, size, p);
      b := HeadOf(FreeOf(p));
      LiveChange(place, b, Live);
      used := used[p := used[p] + 1];
      head := head[FreeOf(p) := next[b]];
      lists, place := Allocated(v, p).lists, Allocated(v, p).place;
    }

    /** Release a block on behalf of client `who`. The owner puts it on the page's local list and gives
        the page up when nothing of it is used any more; anybody else pushes it on the segment's list. */
    method CxlFree(who: Tid, special: bool, b: Blk)
      requires Valid() && b in LiveBlocks()
      requires b.At? && b.page in home && special == Special(home[b.page])
      modifies this
      ensures Valid() && LiveBlocks() == old(LiveBlocks()) - {b}
      ensures b.page in old(used) && spurious <= old(spurious)
      ensures who != tid ==> BlockView() == FreedThere(old(BlockView()), b) && PageView() == old(PageView())
      ensures who == tid && old(used)[b.page] != 1 ==>
                BlockView() == FreedHere(old(BlockView()), b) && PageView() == old(PageView())
      ensures who == tid && old(used)[b.page] == 1 ==>
                && BlockView() == Closed(FreedHere(old(BlockView()), b), b.page)
                && GivenUp(old(PageView()), PageView(), b.page, old(home)[b.page])
    {
      hide BlocksOk, PageLists.PagesOk, ClassSize, QueueFor, FreedHere, FreedThere, Closed, GivenUp;
      Known(BlockView(), PageView(), tid, b);
      var s := PageLists.SegmentOf(b.page);
      if owner[s] == who {
        PushLocal(b);
        if used[b.page] == 0 {
          QueueRoundTrip(home[b.page]);
          PageFree(b.page, QueueFor(special, size[b.page]));
        }
      } else {
        PushThread(b, s);
      }
    }

    method PushLocal(b: Blk)
      requires Valid() && b in LiveBlocks() && b.At? && b.page in used
      modifies this`next, this`head, this`used, this`lists, this`place
      ensures Valid() && LiveBlocks() == old(LiveBlocks()) - {b}
      ensures used == old(used)[b.page := old(used)[b.page] - 1] && BlockView() == FreedHere(old(BlockView()), b)
    {
      hide BlocksOk, PageLists.PagesOk;
      ghost var v := BlockView();
      FreeHereKeeps(v, size, b);
      LiveChange(place, b, In(LocalOf(b.page)));
      next := next[b := HeadOf(LocalOf(b.page))];
      head := head[LocalOf(b.page) := b];
      used := used[b.page := used[b.page] - 1];
      lists, place := FreedHere(v, b).lists, FreedHere(v, b).place;
    }

    method PushThread(b: Blk, s: nat)
      requires Valid() && b in LiveBlocks() && b.At? && s == PageLists.SegmentOf(b.page)
      modifies this`next, this`head, this`spurious, this`lists, this`place
      ensures Valid() && LiveBlocks() == old(LiveBlocks()) - {b} && BlockView() == FreedThere(old(BlockView()), b)
      ensures spurious <= old(spurious)
    {
      hide BlocksOk, PageLists.PagesOk;
      ghost var v := BlockView();
      FreeThereKeeps(v, size, b);
      LiveChange(place, b, In(ThreadOf(s)));
      PushHead(b, s);
      lists, place := FreedThere(v, b).lists, FreedThere(v, b).place;
    }

    /** Link the block to the head that was read, and try to make it the head. */
    method PushHead(b: Blk, s: nat)
      modifies this`next, this`head, this`spurious
      ensures next == old(next)[b := old(HeadOf(ThreadOf(s)))] && head == old(head)[ThreadOf(s) := b]
      ensures spurious <= old(spurious)
    {
      var ok := false;
      while !ok
        invariant head == if ok then old(head)[ThreadOf(s) := b] else old(head)
        invariant next == old(next)[b := old(HeadOf(ThreadOf(s)))] || (!ok && next == old(next))
        invariant spurious <= old(spurious)
        decreases spurious, !ok
      {
        var info := HeadOf(ThreadOf(s));
        next := next[b := info];
        ok := CompareExchangeWeak(HeadOf(ThreadOf(s)) == info);
        if ok {
          head := head[ThreadOf(s) := b];
        }
      }
    }

    static lemma Known(v: Blocks, w: PageLists.Pages, tid: Tid, b: Blk)
      requires BlocksOk(v, w.size) && PageLists.PagesOk(w, tid, {}) && b in v.place
      ensures b.At? && b.page in w.size && b.page in w.home && b.page in v.used
      ensures w.home[b.page] < CXL_BIN_SIZE && w.size[b.page] == ClassSize(w.home[b.page])
      ensures PageLists.SegmentOf(b.page) < |w.owner| && w.owner[PageLists.SegmentOf(b.page)] == tid
    {
    }

    /** The chain in hand, as a list like the others. */
    ghost function InHand(tail: Blk): Blocks
      reads this
    {
      BlockView().(head := head[Taken := tail])
    }

    /** Exchange a segment's list for the empty one. */
    method TakeAll(s: nat) returns (tail: Blk)
      requires Valid()
      modifies this`head, this`spurious, this`lists, this`place
      ensures Taken !in head && BlocksOk(InHand(tail), size) && forall b :: b in old(place) ==>
                old(place)[b] != In(Taken)
      ensures place == Replace(old(place), ThreadOf(s), Taken) && BroughtHome(old(place), place, s)
      ensures (forall p :: HeadOf(FreeOf(p)) == old(HeadOf(FreeOf(p)))) && spurious <= old(spurious)
    {
      hide BlocksOk, PageLists.PagesOk;
      ghost var v := BlockView();
      NoneInHand(v, size);
      TakeAllKeeps(v, size, s);
      var info := HeadOf(ThreadOf(s));
      var ok := false;
      while !ok
        invariant head == if ok then v.head[ThreadOf(s) := Null] else v.head
        invariant (ok ==> info == Head(v, ThreadOf(s))) && spurious <= old(spurious)
        decreases spurious, !ok
        modifies this`head, this`spurious
      {
        info := HeadOf(ThreadOf(s));
        ok := CompareExchangeWeak(HeadOf(ThreadOf(s)) == info);
        if ok {
          head := head[ThreadOf(s) := Null];
        }
      }
      tail := info;
      lists, place := Moved(v, ThreadOf(s), Taken).lists, Moved(v, ThreadOf(s), Taken).place;
      assert InHand(tail).head == Moved(v, ThreadOf(s), Taken).head;
    }

    static lemma NoneInHand(v: Blocks, size: map<nat, nat>)
      requires BlocksOk(v, size) && Head(v, Taken) == Null
      ensures forall b :: b in v.place ==> v.place[b] != In(Taken)
    {
      NothingTaken(v);
    }

    /** Bring the first block of the chain in hand home; `next` is read before it is rewritten. */
    method WalkHome(tail: Blk) returns (rest: Blk)
      requires BlocksOk(InHand(tail), size) && Taken !in head && tail != Null
      modifies this`next, this`head, this`used, this`lists, this`place
      ensures Taken !in head && BlocksOk(InHand(rest), size)
      ensures |Listed(InHand(rest), Taken)| < old(|Listed(InHand(tail), Taken)|)
      ensures tail.At? && tail in old(place) && old(place)[tail] == In(Taken)
              && place == old(place)[tail := In(LocalOf(tail.page))]
      ensures tail.page in old(used) && used == old(used)[tail.page := old(used)[tail.page] - 1]
      ensures forall p :: HeadOf(FreeOf(p)) == old(HeadOf(FreeOf(p)))
    {
      hide BlocksOk;
      ghost var v := InHand(tail);
      HomeKeeps(v, size);
      ghost var w := Homed(v);
      rest := next[tail];
      var p := tail.page;
      next := next[tail := HeadOf(LocalOf(p))];
      head := head[LocalOf(p) := tail];
      used := used[p := used[p] - 1];
      lists, place := w.lists, w.place;
      assert InHand(rest).head == w.head;
      assert place == v.place[tail := In(LocalOf(p))];
    }

    /** Take everything that others pushed on a segment's list and bring each block home: onto the local
        list of its own page, where it is no longer counted. */
    method ThreadFreeCollect(s: nat)
      requires Valid()
      modifies this`next, this`head, this`used, this`spurious, this`lists, this`place
      ensures Valid() && LiveBlocks() == old(LiveBlocks())
      ensures Collected(old(place), place, s) && spurious <= old(spurious)
      ensures forall p :: HeadOf(FreeOf(p)) == old(HeadOf(FreeOf(p)))
    {
      hide BlocksOk, PageLists.PagesOk, LiveSet, Listed;
      ghost var v := BlockView();
      if HeadOf(ThreadOf(s)) == Null {
        NobodyIn(v, size, ThreadOf(s));
        return;
      }
      var tail := TakeAll(s);
      while tail != Null
        invariant Taken !in head && BlocksOk(InHand(tail), size)
        invariant BroughtHome(v.place, place, s)
        invariant forall p :: HeadOf(FreeOf(p)) == Head(v, FreeOf(p))
        decreases |Listed(InHand(tail), Taken)|
        modifies this`next, this`head, this`used, this`lists, this`place
      {
        ghost var before := place;
        tail := WalkHome(tail);
        HomeAgain(v.place, before, place, s);
      }
      AllHome(InHand(Null), BlockView(), size, v.place, s);
    }

    static lemma HomeAgain(place0: map<Blk, Place>, before: map<Blk, Place>, after: map<Blk, Place>, s: nat)
      requires BroughtHome(place0, before, s) && forall b :: b in place0 ==> place0[b] != In(Taken)
      requires exists b: Blk ::
                 b.At? && b in before && before[b] == In(Taken) && after == before[b := In(LocalOf(b.page))]
      ensures BroughtHome(place0, after, s)
    {
    }

    static lemma NobodyIn(v: Blocks, size: map<nat, nat>, l: ListId)
      requires BlocksOk(v, size) && Head(v, l) == Null
      ensures forall b :: b in v.place ==> v.place[b] != In(l)
    {
      assert ListOk(v, l);
      ChainNull(v.next, Head(v, l), Listed(v, l));
    }

    static lemma AllHome(v: Blocks, w: Blocks, size: map<nat, nat>, place0: map<Blk, Place>, s: nat)
      requires BlocksOk(v, size) && Head(v, Taken) == Null && BroughtHome(place0, v.place, s)
      requires w == v.(head := w.head) && forall l :: Head(w, l) == Head(v, l)
      ensures BlocksOk(w, size) && LiveSet(v.place) == LiveSet(place0)
      ensures Collected(place0, v.place, s)
    {
      NothingTaken(v);
      SameLists(v, w);
      hide ListsOk, UsedOk, Domain;
      assert LiveSet(v.place) == LiveSet(place0);
    }

    /** Nothing of the page can be had: every block is in somebody's hands. */
    static ghost predicate AllLive(place: map<Blk, Place>, p: nat) {
      forall b :: b in place && b.At? && b.page == p ==> place[b].Live?
    }

    static lemma StillLive(place0: map<Blk, Place>, place: map<Blk, Place>, p: nat)
      requires AllLive(place0, p) && place.Keys == place0.Keys && LiveSet(place) == LiveSet(place0)
      ensures AllLive(place, p)
    {
      forall b | b in place && b.At? && b.page == p ensures place[b].Live? {
        assert b in place0.Keys;
        assert b in LiveSet(place0);
      }
    }

    static lemma NobodyWaits(place0: map<Blk, Place>, place: map<Blk, Place>, s: nat)
      requires Collected(place0, place, s)
      ensures forall b :: b in place ==> place[b] != In(ThreadOf(s))
    {
      forall b | b in place ensures place[b] != In(ThreadOf(s)) {
        assert b in place0.Keys;
      }
    }

    /** Collect what others released; then, if the page has no free block, its local list becomes its free
        list. */
    method PageFreeCollect(p: nat)
      requires Valid() && p in size
      modifies this`next, this`head, this`used, this`spurious, this`lists, this`place
      ensures Valid() && LiveBlocks() == old(LiveBlocks())
      ensures place.Keys == old(place).Keys && place == Refill(old(place), p) && spurious <= old(spurious)
      ensures HeadOf(FreeOf(p)) == Null ==> HeadOf(LocalOf(p)) == Null && AllLive(place, p)
      ensures old(HeadOf(FreeOf(p))) != Null ==> HeadOf(FreeOf(p)) == old(HeadOf(FreeOf(p)))
    {
      hide PageLists.PagesOk;
      hide BlocksOk, Homecoming, Replace, HasFree;
      FreeKnown(BlockView(), size, p);
      ThreadFreeCollect(PageLists.SegmentOf(p));
      ghost var v := BlockView();
      CollectedIs(old(place), place, PageLists.SegmentOf(p));
      NobodyWaits(old(place), place, PageLists.SegmentOf(p));
      if HeadOf(LocalOf(p)) != Null {
        if HeadOf(FreeOf(p)) == Null {
          SwapKeeps(v, size, p);
          LiveReplaced(place, LocalOf(p), FreeOf(p));
          head := head[FreeOf(p) := HeadOf(LocalOf(p))];
          head := head[LocalOf(p) := Null];
          lists, place := Moved(v, LocalOf(p), FreeOf(p)).lists, Moved(v, LocalOf(p), FreeOf(p)).place;
        }
      } else if HeadOf(FreeOf(p)) == Null {
        NobodyHome(v, size, p);
        NobodyIn(v, size, LocalOf(p));
        ReplaceNone(place, LocalOf(p), FreeOf(p));
      }
    }

    static lemma FreeKnown(v: Blocks, size: map<nat, nat>, p: nat)
      requires BlocksOk(v, size)
      ensures Head(v, FreeOf(p)) != Null <==> HasFree(v.place, p)
    {
      assert ListOk(v, FreeOf(p));
      ChainNull(v.next, Head(v, FreeOf(p)), Listed(v, FreeOf(p)));
      if Head(v, FreeOf(p)) != Null {
        assert Listed(v, FreeOf(p))[0] in Listed(v, FreeOf(p));
      }
    }

    static lemma NobodyHome(v: Blocks, size: map<nat, nat>, p: nat)
      requires BlocksOk(v, size) && Head(v, FreeOf(p)) == Null && Head(v, LocalOf(p)) == Null && Head(v, Taken) == Null
      requires forall b :: b in v.place ==> v.place[b] != In(ThreadOf(PageLists.SegmentOf(p)))
      ensures AllLive(v.place, p)
    {
      NobodyIn(v, size, FreeOf(p));
      NobodyIn(v, size, LocalOf(p));
      NobodyIn(v, size, Taken);
      HomePlaces(v, p);
    }

    static lemma HomePlaces(v: Blocks, p: nat)
      requires ListsOk(v)
      ensures forall b :: b in v.place && b.At? && b.page == p && v.place[b].In? ==>
                v.place[b].list in [FreeOf(p), LocalOf(p), ThreadOf(PageLists.SegmentOf(p)), Taken]
    {
      forall b | b in v.place && b.At? && b.page == p && v.place[b].In?
        ensures v.place[b].list in [FreeOf(p), LocalOf(p), ThreadOf(PageLists.SegmentOf(p)), Taken]
      {
        assert ListOk(v, v.place[b].list);
      }
    }

    /** Page p is in the queue, every page before it has all its blocks in somebody's hands, and up to p the pages
        were collected for. */
    static ghost predicate FirstWithFree(pages: seq<nat>, p: nat, place0: map<Blk, Place>, place: map<Blk, Place>) {
      exists i: nat :: i < |pages| && pages[i] == p && place == Refills(place0, pages, i + 1)
        && forall j: nat :: j < i ==> AllLive(place, pages[j])
    }

    /** All pages of the queue were collected for, and all their blocks are in somebody's hands. */
    static ghost predicate Exhausted(pages: seq<nat>, place0: map<Blk, Place>, place: map<Blk, Place>) {
      && (forall j: nat :: j < |pages| ==> AllLive(place, pages[j]))
      && forall b :: b in place0 ==>
           b in place && b in Refills(place0, pages, |pages|) && place[b] == Refills(place0, pages, |pages|)[b]
    }

    /** A page of class c with a free block: the first in the queue that has one after collecting. Only if
        every block of every page of the class is in somebody's hands, a fresh page; null only if then no page is
        free and no segment to be had. */
    method FindFree(c: nat) returns (p: nat)
      requires Valid() && c < CXL_BIN_SIZE
      modifies this
      ensures Valid() && LiveBlocks() == old(LiveBlocks()) && c in old(queue) && spurious <= old(spurious)
      ensures p != 0 ==> p in home && home[p] == c && HeadOf(FreeOf(p)) != Null
      ensures p == 0 || p in old(home) ==> PageView() == old(PageView())
      ensures p in old(home) ==> FirstWithFree(old(queue)[c], p, old(place), place)
      ensures p !in old(home) ==> Exhausted(old(queue)[c], old(place), place)
      ensures p == 0 ==> NoRoom(old(PageView()), old(spurious) - spurious)
      ensures p != 0 && p !in old(home) ==> Served(old(PageView()), PageView(), tid, p, c, old(spurious) - spurious)
    {
      hide BlocksOk, PageLists.PagesOk, AllLive, Fresh, Refill, Supplied;
      ghost var w, pl := PageView(), place;
      QueueKnown(w, tid, c);
      var pages := queue[c];
      var i := 0;
      while i < |pages|
        invariant 0 <= i <= |pages| && spurious <= old(spurious)
        invariant Valid() && LiveBlocks() == old(LiveBlocks()) && PageView() == w && place.Keys == pl.Keys
        invariant place == Refills(pl, pages, i)
        invariant forall j :: 0 <= j < i ==> AllLive(place, pages[j])
        modifies this`next, this`head, this`used, this`spurious, this`lists, this`place
      {
        assert pages[i] in queue[c];
        ghost var before := place;
        PageFreeCollect(pages[i]);
        forall j | 0 <= j < i ensures AllLive(place, pages[j]) {
          StillLive(before, place, pages[j]);
        }
        if HeadOf(FreeOf(pages[i])) != Null {
          return pages[i];
        }
        i := i + 1;
      }
      ghost var v, used0 := BlockView(), spurious;
      p := PageFresh(c);
      if p != 0 {
        ServedKnows(w, PageView(), tid, p, c, used0 - spurious, old(spurious) - spurious);
        FreshPlace(v, BlockView(), w.size, p, c);
        forall j: nat | j < |pages| ensures AllLive(place, pages[j]) {
          FreshElsewhere(v, BlockView(), p, c, pages[j]);
        }
      }
    }

    static lemma ServedKnows(v: PageLists.Pages, w: PageLists.Pages, tid: Tid, p: nat, c: nat, n: int, n': int)
      requires Served(v, w, tid, p, c, n) && n <= n' && PageLists.PagesOk(v, tid, {}) && PageLists.PagesOk(w, tid, {})
      requires p !in v.size
      ensures Served(v, w, tid, p, c, n') && p !in v.home && p in w.home && w.home[p] == c
      ensures c in v.queue && forall q :: q in v.queue[c] ==> q != p
    {
      assert p !in v.home.Keys;
    }

    /** Laying out a fresh page leaves every block where it is. */
    static lemma FreshPlace(v: Blocks, w: Blocks, size: map<nat, nat>, p: nat, c: nat)
      requires Fresh(v, w, p, c) && BlocksOk(v, size) && p !in size
      ensures forall b :: b in v.place ==> b in w.place && w.place[b] == v.place[b]
    {
    }

    static lemma FreshElsewhere(v: Blocks, w: Blocks, p: nat, c: nat, q: nat)
      requires Fresh(v, w, p, c) && q != p && AllLive(v.place, q)
      ensures AllLive(w.place, q)
    {
    }

    static lemma QueueKnown(w: PageLists.Pages, tid: Tid, c: nat)
      requires PageLists.PagesOk(w, tid, {}) && c < CXL_BIN_SIZE
      ensures c in w.queue && forall p :: p in w.queue[c] ==> p in w.home && w.home[p] == c && p in w.size && p != 0
      ensures forall p :: p in w.home && w.home[p] == c ==> p in w.queue[c]
      ensures 0 !in w.home && forall p :: p in w.home ==> p in w.size
    {
      forall p | p in w.home ensures p in w.size && p != 0 {
        assert p in w.home.Keys;
        assert PageLists.Mine(w, tid, p);
      }
      forall p | p in w.queue[c] ensures p in w.home && w.home[p] == c && p in w.size && p != 0 {
        assert p in w.home.Keys;
        assert PageLists.Mine(w, tid, p);
      }
    }

    /** The first page of class c's queue, null if the queue is empty. */
    function FirstPage(c: nat): nat
      requires c in queue
      reads this
    {
      if queue[c] == [] then 0 else queue[c][0]
    }

    /** Allocate a block of class c: from the first page of the queue if it has a free block, otherwise the
        slow way. A block that is handed out was in nobody's hands; none is only if every block of the class is,
        no page is free and no segment to be had. */
    method BlockAlloc(c: nat) returns (b: Blk)
      requires Valid() && c < CXL_BIN_SIZE
      modifies this
      ensures Valid() && c in old(queue) && spurious <= old(spurious)
      ensures b == Null ==> LiveBlocks() == old(LiveBlocks()) && PageView() == old(PageView())
      ensures b == Null ==>
                Exhausted(old(queue)[c], old(place), place) && NoRoom(old(PageView()), old(spurious) - spurious)
      ensures b != Null ==> b !in old(LiveBlocks()) && LiveBlocks() == old(LiveBlocks()) + {b}
      ensures b != Null ==>
                b.page in home && home[b.page] == c && size[b.page] == ClassSize(c) && b.index < Capacity(size[b.page])
      ensures old(FirstPage(c)) != 0 && old(HeadOf(FreeOf(FirstPage(c)))) != Null ==>
                b != Null && b.page == old(FirstPage(c)) && Allocates(old(BlockView()), BlockView(), b.page)
                && PageView() == old(PageView()) && spurious == old(spurious)
      ensures !(old(FirstPage(c)) != 0 && old(HeadOf(FreeOf(FirstPage(c)))) != Null) && b != Null ==>
                var before := place[b := In(FreeOf(b.page))];
                if b.page in old(home)
                then PageView() == old(PageView()) && FirstWithFree(old(queue)[c], b.page, old(place), before)
                else Served(old(PageView()), PageView(), tid, b.page, c, old(spurious) - spurious)
                     && Exhausted(old(queue)[c], old(place), before)
    {
      hide BlocksOk, PageLists.PagesOk, ClassSize, Capacity, Exhausted, FirstWithFree, Served, NoRoom, Allocates;
      QueueKnown(PageView(), tid, c);
      var p := FirstPage(c);
      if p == 0 || HeadOf(FreeOf(p)) == Null {
        p := FindFree(c);
        if p == 0 {
          return Null;
        }
      }
      HomeKnown(PageView(), tid, p);
      ghost var before := place;
      b := TakeBlock(p);
      assert place[b := In(FreeOf(p))] == before;
      Known(BlockView(), PageView(), tid, b);
      InRange(BlockView(), size, b);
    }

    static lemma HomeKnown(w: PageLists.Pages, tid: Tid, p: nat)
      requires PageLists.PagesOk(w, tid, {}) && p in w.home
      ensures p in w.size
    {
      assert p in w.home.Keys;
    }

    static lemma InRange(v: Blocks, size: map<nat, nat>, b: Blk)
      requires BlocksOk(v, size) && b in v.place
      ensures b.At? && b.page in size && 0 < size[b.page] <= PAGE_SIZE && b.index < Capacity(size[b.page])
    {
    }

    // ----- what the counters mean

    ghost function LiveOf(p: nat): set<Blk>
      reads this
    {
      set b | b in place && b.At? && b.page == p && place[b].Live?
    }

    /** The page's blocks that other clients released and the owner has not collected. */
    ghost function WaitingOf(p: nat): set<Blk>
      reads this
    {
      set b | b in place && b.At? && b.page == p && b in Listed(BlockView(), ThreadOf(PageLists.SegmentOf(p)))
    }

    /** Between operations a page's counter is its live blocks plus its blocks waiting in the segment's list;
        with its two own lists that makes all its blocks. */
    lemma Conservation(p: nat)
      requires Valid() && p in size
      ensures p in used && used[p] == |LiveOf(p)| + |WaitingOf(p)| && 0 < size[p] <= PAGE_SIZE
      ensures |Listed(BlockView(), FreeOf(p))| + |Listed(BlockView(), LocalOf(p))| + |LiveOf(p)| + |WaitingOf(p)|
              == Capacity(size[p])
    {
      var v := BlockView();
      PageAccount(v, size, p);
      NothingTaken(v);
      BusyIs(v, p, LiveOf(p), WaitingOf(p));
    }

    static lemma BusyIs(v: Blocks, p: nat, live: set<Blk>, waiting: set<Blk>)
      requires ListsOk(v) && forall b :: b in v.place ==> v.place[b] != In(Taken)
      requires forall b :: b in live <==> b in v.place && b.At? && b.page == p && v.place[b].Live?
      requires forall b :: b in waiting <==>
                 b in v.place && b.At? && b.page == p && b in Listed(v, ThreadOf(PageLists.SegmentOf(p)))
      ensures |Busy(v.place, p)| == |live| + |waiting|
    {
      assert ListOk(v, ThreadOf(PageLists.SegmentOf(p)));
      forall b ensures b in Busy(v.place, p) <==> b in live + waiting {
        if b in v.place && b.At? && b.page == p && v.place[b].In? {
          assert ListOk(v, v.place[b].list);
        }
      }
      assert Busy(v.place, p) == live + waiting;
      assert live !! waiting;
    }
  }
}
