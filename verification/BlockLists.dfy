/** The free lists that run through the blocks of a client's pages: for each page its free list and its
    local free list, for each segment the list that other clients push on. */
module BlockLists {
  import opened Layout

  /** A block is named by its page (counted over all segments) and its index there. */
  datatype Blk = Null | At(page: nat, index: nat)

  /** A list, or rather the field that holds its head: `page->free`, `page->local_free`, the segment's
      `thread_free`, and the chain in the hands of a client that has just taken the latter. */
  datatype ListId = FreeOf(page: nat) | LocalOf(page: nat) | ThreadOf(segment: nat) | Taken

  datatype Place = In(list: ListId) | Live

  /** The first words of the blocks, the list heads and the pages' `used` counters; `lists` and `place`
      only observe what each list holds and where each block is. */
  datatype Blocks = Blocks(next: map<Blk, Blk>, head: map<ListId, Blk>, used: map<nat, int>,
                           lists: map<ListId, seq<Blk>>, place: map<Blk, Place>)

  function Head(v: Blocks, l: ListId): Blk {
    if l in v.head then v.head[l] else Null
  }

  function Listed(v: Blocks, l: ListId): seq<Blk> {
    if l in v.lists then v.lists[l] else []
  }

  function Nth(s: seq<Blk>, i: nat): Blk {
    if i < |s| then s[i] else Null
  }

  /** The block at position i points to the one after it. */
  predicate Linked(next: map<Blk, Blk>, s: seq<Blk>, i: nat)
    requires i < |s|
  {
    s[i].At? && s[i] in next && next[s[i]] == Nth(s, i + 1)
  }

  /** From the head, the `next` words lead through exactly these blocks, each once, to null. */
  ghost predicate Chain(next: map<Blk, Blk>, head: Blk, s: seq<Blk>) {
    && head == Nth(s, 0)
    && (forall i: nat :: i < |s| ==> Linked(next, s, i))
    && (forall i, j :: 0 <= i < j < |s| ==> s[i] != s[j])
  }

  /** Which lists may hold a block. */
  predicate Fits(b: Blk, l: ListId) {
    match l
    case FreeOf(p) => b.At? && b.page == p
    case LocalOf(p) => b.At? && b.page == p
    case ThreadOf(s) => b.At? && b.page / PAGES_PER_SEGMENT == s
    case Taken => true
  }

  /** List l is a chain of the blocks that are placed in it. */
  ghost predicate ListOk(v: Blocks, l: ListId) {
    && Chain(v.next, Head(v, l), Listed(v, l))
    && (forall b :: b in Listed(v, l) <==> b in v.place && v.place[b] == In(l))
    && (forall b :: b in Listed(v, l) ==> Fits(b, l))
  }

  ghost predicate ListsOk(v: Blocks) {
    forall l :: ListOk(v, l)
  }

  /** Not in a list of its own page: what `used` counts. */
  predicate Out(x: Place) {
    x.Live? || x.list.ThreadOf? || x.list.Taken?
  }

  ghost function Busy(place: map<Blk, Place>, p: nat): set<Blk> {
    set b | b in place && b.At? && b.page == p && Out(place[b])
  }

  ghost predicate UsedOk(v: Blocks) {
    forall p :: p in v.used ==> v.used[p] == |Busy(v.place, p)|
  }

  /** Placed are exactly the blocks of the pages in use. */
  ghost predicate Domain(v: Blocks, size: map<nat, nat>) {
    && v.used.Keys == size.Keys
    && (forall p :: p in size ==> 0 < size[p] <= PAGE_SIZE)
    && (forall b :: b in v.place <==> b.At? && b.page in size && b.index < Capacity(size[b.page]))
  }

  ghost predicate BlocksOk(v: Blocks, size: map<nat, nat>) {
    ListsOk(v) && UsedOk(v) && Domain(v, size)
  }

  // ----- pushing and popping

  function Pushed(v: Blocks, b: Blk, l: ListId): Blocks {
    v.(next := v.next[b := Head(v, l)], head := v.head[l := b],
       lists := v.lists[l := [b] + Listed(v, l)], place := v.place[b := In(l)])
  }

  function Popped(v: Blocks, l: ListId): Blocks
    requires |Listed(v, l)| > 0 && Head(v, l) in v.next
  {
    v.(head := v.head[l := v.next[Head(v, l)]], lists := v.lists[l := Listed(v, l)[1..]],
       place := v.place[Head(v, l) := Live])
  }

  lemma ChainPush(next: map<Blk, Blk>, head: Blk, s: seq<Blk>, b: Blk)
    requires Chain(next, head, s) && b !in s && b.At?
    ensures Chain(next[b := head], b, [b] + s)
  {
    var t, after := [b] + s, next[b := head];
    forall i: nat | i < |t| ensures Linked(after, t, i) {
      if i > 0 {
        assert Linked(next, s, i - 1);
        assert t[i] == s[i - 1];
      }
    }
  }

  lemma ChainKept(next: map<Blk, Blk>, head: Blk, s: seq<Blk>, b: Blk, x: Blk)
    requires Chain(next, head, s) && b !in s
    ensures Chain(next[b := x], head, s)
  {
    var after := next[b := x];
    forall i: nat | i < |s| ensures Linked(after, s, i) {
      assert Linked(next, s, i);
    }
  }

  lemma ChainPop(next: map<Blk, Blk>, head: Blk, s: seq<Blk>)
    requires Chain(next, head, s) && |s| > 0
    ensures head == s[0] && head in next && head !in s[1..] && Chain(next, next[head], s[1..])
  {
    assert Linked(next, s, 0);
    forall i: nat | i < |s[1..]| ensures Linked(next, s[1..], i) {
      assert Linked(next, s, i + 1);
    }
  }

  lemma ChainNull(next: map<Blk, Blk>, head: Blk, s: seq<Blk>)
    requires Chain(next, head, s)
    ensures head == Null <==> s == []
  {
    if s != [] {
      assert Linked(next, s, 0);
    }
  }

  lemma PushKeeps(v: Blocks, b: Blk, l: ListId)
    requires ListsOk(v) && b in v.place && v.place[b].Live? && b.At? && Fits(b, l)
    ensures ListsOk(Pushed(v, b, l))
  {
    var w := Pushed(v, b, l);
    forall m ensures ListOk(w, m) {
      hide Chain, Fits;
      assert ListOk(v, m) && ListOk(v, l);
      if m == l {
        ChainPush(v.next, Head(v, l), Listed(v, l), b);
      } else {
        ChainKept(v.next, Head(v, m), Listed(v, m), b, Head(v, l));
      }
    }
  }

  lemma PopKeeps(v: Blocks, l: ListId)
    requires ListsOk(v) && Head(v, l) != Null
    ensures |Listed(v, l)| > 0 && Head(v, l) == Listed(v, l)[0] && Head(v, l) in v.next
    ensures Head(v, l) in v.place && v.place[Head(v, l)] == In(l) && Fits(Head(v, l), l)
    ensures ListsOk(Popped(v, l))
  {
    assert ListOk(v, l);
    ChainNull(v.next, Head(v, l), Listed(v, l));
    ChainPop(v.next, Head(v, l), Listed(v, l));
    var w := Popped(v, l);
    forall m ensures ListOk(w, m) {
      hide Chain, Fits;
      assert ListOk(v, m);
      if m == l {
        assert forall b :: b in Listed(v, l) <==> b == Head(v, l) || b in Listed(v, l)[1..];
      }
    }
  }

  // ----- moving a whole list

  function Replace(place: map<Blk, Place>, l: ListId, m: ListId): map<Blk, Place> {
    map b | b in place :: if place[b] == In(l) then In(m) else place[b]
  }

  function Moved(v: Blocks, l: ListId, m: ListId): Blocks
    requires l != m
  {
    v.(head := v.head[m := Head(v, l)][l := Null], lists := v.lists[m := Listed(v, l)][l := []],
       place := Replace(v.place, l, m))
  }

  lemma MoveKeeps(v: Blocks, l: ListId, m: ListId)
    requires ListsOk(v) && l != m && Head(v, m) == Null && forall b :: Fits(b, l) ==> Fits(b, m)
    ensures ListsOk(Moved(v, l, m))
  {
    var w := Moved(v, l, m);
    assert ListOk(v, l) && ListOk(v, m);
    ChainNull(v.next, Head(v, m), Listed(v, m));
    forall k ensures ListOk(w, k) {
      hide Fits;
      assert ListOk(v, k);
      if k != l && k != m {
        hide Chain;
        assert Head(w, k) == Head(v, k) && Listed(w, k) == Listed(v, k);
      }
    }
  }

  // ----- the used counters

  lemma BusyGains(place: map<Blk, Place>, b: Blk, x: Place)
    requires b in place && b.At? && !Out(place[b]) && Out(x)
    ensures |Busy(place[b := x], b.page)| == |Busy(place, b.page)| + 1
    ensures forall p :: p != b.page ==> Busy(place[b := x], p) == Busy(place, p)
  {
    assert Busy(place[b := x], b.page) == Busy(place, b.page) + {b};
  }

  lemma BusyLoses(place: map<Blk, Place>, b: Blk, x: Place)
    requires b in place && b.At? && Out(place[b]) && !Out(x)
    ensures |Busy(place[b := x], b.page)| == |Busy(place, b.page)| - 1
    ensures forall p :: p != b.page ==> Busy(place[b := x], p) == Busy(place, p)
  {
    assert Busy(place, b.page) == Busy(place[b := x], b.page) + {b};
  }

  lemma BusySame(place: map<Blk, Place>, place': map<Blk, Place>)
    requires place.Keys == place'.Keys && forall b :: b in place ==> Out(place[b]) == Out(place'[b])
    ensures forall p :: Busy(place', p) == Busy(place, p)
  {
    forall p ensures Busy(place', p) == Busy(place, p) {
      assert forall b :: b in place <==> b in place';
    }
  }

  // ----- the operations on blocks

  /** The first free block of a page goes into somebody's hands. */
  function Allocated(v: Blocks, p: nat): Blocks
    requires |Listed(v, FreeOf(p))| > 0 && Head(v, FreeOf(p)) in v.next && p in v.used
  {
    Popped(v, FreeOf(p)).(used := v.used[p := v.used[p] + 1])
  }

  lemma AllocateKeeps(v: Blocks, size: map<nat, nat>, p: nat)
    requires BlocksOk(v, size) && p in size && Head(v, FreeOf(p)) != Null
    ensures |Listed(v, FreeOf(p))| > 0 && Head(v, FreeOf(p)) in v.next && p in v.used
    ensures Head(v, FreeOf(p)) in v.place && v.place[Head(v, FreeOf(p))] == In(FreeOf(p))
    ensures Head(v, FreeOf(p)).At? && Head(v, FreeOf(p)).page == p
    ensures BlocksOk(Allocated(v, p), size)
  {
    PopKeeps(v, FreeOf(p));
    BusyGains(v.place, Head(v, FreeOf(p)), Live);
    hide ListsOk;
    SameLists(Popped(v, FreeOf(p)), Allocated(v, p));
  }

  /** The owner releases a block: it goes on the page's local list. */
  function FreedHere(v: Blocks, b: Blk): Blocks
    requires b.At? && b.page in v.used
  {
    Pushed(v, b, LocalOf(b.page)).(used := v.used[b.page := v.used[b.page] - 1])
  }

  lemma FreeHereKeeps(v: Blocks, size: map<nat, nat>, b: Blk)
    requires BlocksOk(v, size) && b in v.place && v.place[b].Live?
    ensures b.At? && b.page in v.used && BlocksOk(FreedHere(v, b), size)
  {
    PushKeeps(v, b, LocalOf(b.page));
    BusyLoses(v.place, b, In(LocalOf(b.page)));
    hide ListsOk;
    SameLists(Pushed(v, b, LocalOf(b.page)), FreedHere(v, b));
  }

  /** Another client releases a block: it goes on the segment's list and stays counted. */
  function FreedThere(v: Blocks, b: Blk): Blocks
    requires b.At?
  {
    Pushed(v, b, ThreadOf(b.page / PAGES_PER_SEGMENT))
  }

  lemma FreeThereKeeps(v: Blocks, size: map<nat, nat>, b: Blk)
    requires BlocksOk(v, size) && b in v.place && v.place[b].Live?
    ensures b.At? && BlocksOk(FreedThere(v, b), size)
  {
    PushKeeps(v, b, ThreadOf(b.page / PAGES_PER_SEGMENT));
    BusySame(v.place, FreedThere(v, b).place);
  }

  lemma TakeAllKeeps(v: Blocks, size: map<nat, nat>, s: nat)
    requires BlocksOk(v, size) && Head(v, Taken) == Null
    ensures BlocksOk(Moved(v, ThreadOf(s), Taken), size)
  {
    MoveKeeps(v, ThreadOf(s), Taken);
    hide ListsOk;
    BusySame(v.place, Moved(v, ThreadOf(s), Taken).place);
  }

  /** The first block of the taken chain goes home. */
  function Homed(v: Blocks): Blocks
    requires |Listed(v, Taken)| > 0 && Head(v, Taken) in v.next && Head(v, Taken).At? && Head(v, Taken).page in v.used
  {
    FreedHere(Popped(v, Taken), Head(v, Taken))
  }

  lemma HomeKeeps(v: Blocks, size: map<nat, nat>)
    requires BlocksOk(v, size) && Head(v, Taken) != Null
    ensures |Listed(v, Taken)| > 0 && Head(v, Taken) in v.next && Head(v, Taken).At? && Head(v, Taken).page in v.used
    ensures Head(v, Taken) in v.place && v.place[Head(v, Taken)] == In(Taken)
    ensures BlocksOk(Homed(v), size)
  {
    PopKeeps(v, Taken);
    var w := Popped(v, Taken);
    BusySame(v.place, w.place);
    assert BlocksOk(w, size) by {
      hide ListsOk;
    }
    hide BlocksOk;
    FreeHereKeeps(w, size, Head(v, Taken));
  }

  /** Where blocks are while a collected chain is brought home. */
  ghost predicate BroughtHome(place0: map<Blk, Place>, place: map<Blk, Place>, s: nat) {
    && place.Keys == place0.Keys
    && forall b :: b in place0 ==>
         if place0[b] == In(ThreadOf(s)) then place[b] == In(Taken) || (b.At? && place[b] == In(LocalOf(b.page)))
         else place[b] == place0[b]
  }

  lemma NothingTaken(v: Blocks)
    requires ListsOk(v) && Head(v, Taken) == Null
    ensures Listed(v, Taken) == [] && forall b :: b in v.place ==> v.place[b] != In(Taken)
  {
    assert ListOk(v, Taken);
    ChainNull(v.next, Head(v, Taken), Listed(v, Taken));
  }

  lemma SwapKeeps(v: Blocks, size: map<nat, nat>, p: nat)
    requires BlocksOk(v, size) && Head(v, FreeOf(p)) == Null
    ensures BlocksOk(Moved(v, LocalOf(p), FreeOf(p)), size)
  {
    MoveKeeps(v, LocalOf(p), FreeOf(p));
    hide ListsOk;
    BusySame(v.place, Moved(v, LocalOf(p), FreeOf(p)).place);
  }

  /** Lists do not depend on the counters, nor on heads that are both null. */
  lemma SameLists(v: Blocks, w: Blocks)
    requires ListsOk(v) && w.next == v.next && w.lists == v.lists && w.place == v.place
    requires forall l :: Head(w, l) == Head(v, l)
    ensures ListsOk(w)
  {
    forall l ensures ListOk(w, l) {
      assert ListOk(v, l);
      hide Chain, Fits;
    }
  }

  // ----- opening and closing a page

  function Blocks0(p: nat, n: nat): (s: seq<Blk>)
    ensures |s| == n
    ensures forall i :: 0 <= i < n ==> s[i] == At(p, i)
  {
    if n == 0 then [] else Blocks0(p, n - 1) + [At(p, n - 1)]
  }

  /** Block i of a new page points to the next one, the last to null. */
  predicate Laid(next: map<Blk, Blk>, p: nat, n: nat, i: nat) {
    At(p, i) in next && next[At(p, i)] == if i + 1 < n then At(p, i + 1) else Null
  }

  lemma FirstChain(next: map<Blk, Blk>, p: nat, n: nat)
    requires n > 0 && forall i: nat :: i < n ==> Laid(next, p, n, i)
    ensures Chain(next, At(p, 0), Blocks0(p, n))
  {
    var s := Blocks0(p, n);
    forall i: nat | i < n ensures Linked(next, s, i) {
      assert Laid(next, p, n, i);
    }
  }

  lemma FirstBlocks(p: nat, n: nat, b: Blk)
    ensures b in Blocks0(p, n) <==> b.At? && b.page == p && b.index < n
  {
    if b.At? && b.page == p && b.index < n {
      assert Blocks0(p, n)[b.index] == b;
    }
  }

  /** A page that was not in use gets all its blocks on its free list. */
  function Opened(v: Blocks, p: nat, n: nat, next: map<Blk, Blk>): Blocks {
    v.(next := next, head := v.head[LocalOf(p) := Null][FreeOf(p) := At(p, 0)], used := v.used[p := 0],
       lists := v.lists[LocalOf(p) := []][FreeOf(p) := Blocks0(p, n)],
       place := v.place + map i | 0 <= i < n :: At(p, i) := In(FreeOf(p)))
  }

  /** A page leaves use: its descriptor is wiped. */
  function Closed(v: Blocks, p: nat): Blocks {
    v.(head := v.head[LocalOf(p) := Null][FreeOf(p) := Null], used := v.used - {p},
       lists := v.lists[LocalOf(p) := []][FreeOf(p) := []],
       place := map b | b in v.place && !(b.At? && b.page == p) :: v.place[b])
  }

  lemma HasMember(s: seq<Blk>)
    ensures s != [] ==> exists b :: b in s
  {
    if s != [] {
      assert s[0] in s;
    }
  }

  /** The lists of a page that is not in use are empty. */
  lemma UnusedEmpty(v: Blocks, size: map<nat, nat>, p: nat)
    requires BlocksOk(v, size) && p !in size
    ensures Head(v, FreeOf(p)) == Null && Head(v, LocalOf(p)) == Null
    ensures Listed(v, FreeOf(p)) == [] && Listed(v, LocalOf(p)) == []
  {
    forall l | l == FreeOf(p) || l == LocalOf(p) ensures Listed(v, l) == [] && Head(v, l) == Null {
      assert ListOk(v, l);
      HasMember(Listed(v, l));
    }
  }

  lemma OpenKeeps(v: Blocks, size: map<nat, nat>, p: nat, blockSize: nat, next: map<Blk, Blk>)
    requires BlocksOk(v, size) && p !in size && 0 < blockSize <= PAGE_SIZE
    requires forall b :: b in v.next && !(b.At? && b.page == p) ==> b in next && next[b] == v.next[b]
    requires forall i: nat :: i < Capacity(blockSize) ==> Laid(next, p, Capacity(blockSize), i)
    ensures BlocksOk(Opened(v, p, Capacity(blockSize), next), size[p := blockSize])
  {
    hide ListOk, UsedOk, Domain, Opened;
    var n := Capacity(blockSize);
    var w := Opened(v, p, n, next);
    forall l ensures ListOk(w, l) {
      OpenList(v, size, p, n, next, l);
    }
    OpenDomain(v, size, p, blockSize, next);
    OpenUsed(v, size, p, n, next);
  }

  lemma OpenUsed(v: Blocks, size: map<nat, nat>, p: nat, n: nat, next: map<Blk, Blk>)
    requires UsedOk(v) && Domain(v, size) && p !in size
    ensures UsedOk(Opened(v, p, n, next))
  {
    var w := Opened(v, p, n, next);
    forall q | q in w.used ensures w.used[q] == |Busy(w.place, q)| {
      OpenBusy(v, size, p, n, next, q);
    }
  }

  lemma OpenDomain(v: Blocks, size: map<nat, nat>, p: nat, blockSize: nat, next: map<Blk, Blk>)
    requires Domain(v, size) && p !in size && 0 < blockSize <= PAGE_SIZE
    ensures Domain(Opened(v, p, Capacity(blockSize), next), size[p := blockSize])
  {
    hide Capacity;
  }

  lemma OpenBusy(v: Blocks, size: map<nat, nat>, p: nat, n: nat, next: map<Blk, Blk>, q: nat)
    requires Domain(v, size) && p !in size
    ensures Busy(Opened(v, p, n, next).place, q) == if q == p then {} else Busy(v.place, q)
  {
  }

  lemma OpenList(v: Blocks, size: map<nat, nat>, p: nat, n: nat, next: map<Blk, Blk>, l: ListId)
    requires BlocksOk(v, size) && p !in size && n > 0
    requires forall b :: b in v.next && !(b.At? && b.page == p) ==> b in next && next[b] == v.next[b]
    requires forall i: nat :: i < n ==> Laid(next, p, n, i)
    ensures ListOk(Opened(v, p, n, next), l)
  {
    assert ListOk(v, l);
    UnusedEmpty(v, size, p);
    if l == FreeOf(p) {
      OpenFree(v, size, p, n, next);
    } else if l != LocalOf(p) {
      OpenOther(v, size, p, n, next, l);
    }
  }

  lemma OpenFree(v: Blocks, size: map<nat, nat>, p: nat, n: nat, next: map<Blk, Blk>)
    requires Domain(v, size) && p !in size && n > 0
    requires forall i: nat :: i < n ==> Laid(next, p, n, i)
    requires forall b :: b in v.place ==> v.place[b] != In(FreeOf(p))
    ensures ListOk(Opened(v, p, n, next), FreeOf(p))
  {
    hide Laid, Chain, Domain;
    FirstChain(next, p, n);
    var w := Opened(v, p, n, next);
    forall b ensures b in Blocks0(p, n) <==> b in w.place && w.place[b] == In(FreeOf(p)) {
      FirstBlocks(p, n, b);
      OpenPlace(v, p, n, next, b);
    }
    forall b | b in Blocks0(p, n) ensures Fits(b, FreeOf(p)) {
      FirstBlocks(p, n, b);
    }
  }

  lemma OpenPlace(v: Blocks, p: nat, n: nat, next: map<Blk, Blk>, b: Blk)
    requires forall b :: b in v.place ==> v.place[b] != In(FreeOf(p))
    ensures var w := Opened(v, p, n, next).place;
            b in w && w[b] == In(FreeOf(p)) <==> b.At? && b.page == p && b.index < n
  {
  }

  lemma OpenOther(v: Blocks, size: map<nat, nat>, p: nat, n: nat, next: map<Blk, Blk>, l: ListId)
    requires Domain(v, size) && ListOk(v, l) && p !in size && l != FreeOf(p) && l != LocalOf(p)
    requires forall b :: b in v.next && !(b.At? && b.page == p) ==> b in next && next[b] == v.next[b]
    ensures ListOk(Opened(v, p, n, next), l)
  {
    forall i: nat | i < |Listed(v, l)| ensures Linked(next, Listed(v, l), i) {
      assert Linked(v.next, Listed(v, l), i);
      assert Listed(v, l)[i] in Listed(v, l);
    }
  }

  /** When `used` is 0, all blocks are on the page's own two lists: none is live, none is waiting in the
      segment's list or in a client's hands. */
  lemma UnusedPageIsHome(v: Blocks, size: map<nat, nat>, p: nat)
    requires BlocksOk(v, size) && p in size && v.used[p] == 0
    ensures forall b :: b in v.place && b.At? && b.page == p ==>
              v.place[b] == In(FreeOf(p)) || v.place[b] == In(LocalOf(p))
  {
    forall b | b in v.place && b.At? && b.page == p
      ensures v.place[b] == In(FreeOf(p)) || v.place[b] == In(LocalOf(p))
    {
      assert b !in Busy(v.place, p);
      assert ListOk(v, v.place[b].list);
    }
  }

  lemma CloseKeeps(v: Blocks, size: map<nat, nat>, p: nat)
    requires BlocksOk(v, size) && p in size && v.used[p] == 0
    ensures BlocksOk(Closed(v, p), size - {p})
  {
    var w := Closed(v, p);
    UnusedPageIsHome(v, size, p);
    forall l ensures ListOk(w, l) {
      assert ListOk(v, l);
    }
    hide ListOk;
    forall q | q in w.used ensures w.used[q] == |Busy(w.place, q)| {
      assert Busy(w.place, q) == Busy(v.place, q);
    }
  }

  // ----- conservation

  /** Every block of a page in use is in exactly one place, and if it is a list, exactly once there. */
  lemma OnePlace(v: Blocks, size: map<nat, nat>, b: Blk, l: ListId, i: nat)
    requires BlocksOk(v, size) && b.At? && b.page in size && b.index < Capacity(size[b.page])
    requires i < |Listed(v, l)| && Listed(v, l)[i] == b
    ensures v.place[b] == In(l)
    ensures forall m, j :: 0 <= j < |Listed(v, m)| && Listed(v, m)[j] == b ==> m == l && j == i
  {
    assert ListOk(v, l);
    assert b in Listed(v, l);
    forall m, j | 0 <= j < |Listed(v, m)| && Listed(v, m)[j] == b ensures m == l && j == i {
      assert ListOk(v, m);
      assert b in Listed(v, m);
    }
  }

  /** The blocks of a page split into its free list, its local list and those that `used` counts. */
  lemma PageAccount(v: Blocks, size: map<nat, nat>, p: nat)
    requires BlocksOk(v, size) && p in size
    ensures 0 < size[p] <= PAGE_SIZE
    ensures |Listed(v, FreeOf(p))| + |Listed(v, LocalOf(p))| + v.used[p] == Capacity(size[p])
  {
    var f, g := Listed(v, FreeOf(p)), Listed(v, LocalOf(p));
    PageSets(v, size, p);
    assert ListOk(v, FreeOf(p)) && ListOk(v, LocalOf(p));
    ThreeParts(Members(Blocks0(p, Capacity(size[p]))), Members(f), Members(g), Busy(v.place, p));
  }

  lemma PageSets(v: Blocks, size: map<nat, nat>, p: nat)
    requires BlocksOk(v, size) && p in size && 0 < size[p] <= PAGE_SIZE
    ensures var f, g, u := Members(Listed(v, FreeOf(p))), Members(Listed(v, LocalOf(p))), Busy(v.place, p);
            Members(Blocks0(p, Capacity(size[p]))) == f + g + u && f !! g && (f + g) !! u
  {
    hide *;
    forall b ensures b in Blocks0(p, Capacity(size[p])) <==>
                       b in Listed(v, FreeOf(p)) || b in Listed(v, LocalOf(p)) || b in Busy(v.place, p)
      ensures !(b in Listed(v, FreeOf(p)) && b in Listed(v, LocalOf(p)))
      ensures b in Listed(v, FreeOf(p)) || b in Listed(v, LocalOf(p)) ==> b !in Busy(v.place, p)
    {
      BlockAccount(v, size, p, b);
    }
  }

  lemma ThreeParts(all: set<Blk>, f: set<Blk>, g: set<Blk>, u: set<Blk>)
    requires all == f + g + u && f !! g && (f + g) !! u
    ensures |all| == |f| + |g| + |u|
  {
  }

  lemma BlockAccount(v: Blocks, size: map<nat, nat>, p: nat, b: Blk)
    requires BlocksOk(v, size) && p in size && 0 < size[p] <= PAGE_SIZE
    ensures b in Blocks0(p, Capacity(size[p])) <==>
              b in Listed(v, FreeOf(p)) || b in Listed(v, LocalOf(p)) || b in Busy(v.place, p)
    ensures !(b in Listed(v, FreeOf(p)) && b in Listed(v, LocalOf(p)))
    ensures b in Listed(v, FreeOf(p)) || b in Listed(v, LocalOf(p)) ==> b !in Busy(v.place, p)
  {
    FirstBlocks(p, Capacity(size[p]), b);
    assert ListOk(v, FreeOf(p)) && ListOk(v, LocalOf(p));
    if b in v.place && !Out(v.place[b]) {
      assert ListOk(v, v.place[b].list);
    }
  }

  function Members(s: seq<Blk>): (r: set<Blk>)
    ensures forall b :: b in r <==> b in s
    ensures (forall i, j :: 0 <= i < j < |s| ==> s[i] != s[j]) ==> |r| == |s|
  {
    if s == [] then {}
    else
      assert forall b :: b in s <==> b == s[0] || b in s[1..];
      Members(s[1..]) + {s[0]}
  }
}
