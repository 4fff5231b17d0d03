/** Which pages a client owns, which of them are in use in which queue, and the segments they lie in. */
module PageLists {
  import opened Layout
  import opened RefTypes
  import PageQueue

  /** The allocation vector `owner`, the segments' counters, the free page queue, the page queues by
      size class, and the block size of each page in use; `home`, the class of each page in use, only
      observes. Pages are counted over all segments. */
  datatype Pages = Pages(owner: seq<Tid>, segUsed: map<nat, int>, free: seq<nat>, queue: map<nat, seq<nat>>,
                         size: map<nat, nat>, home: map<nat, nat>)

  function SegmentOf(p: nat): nat {
    p / PAGES_PER_SEGMENT
  }

  /** Page 0 of a segment holds the descriptors. */
  predicate Mine(v: Pages, tid: Tid, p: nat) {
    SegmentOf(p) < |v.owner| && v.owner[SegmentOf(p)] == tid && p % PAGES_PER_SEGMENT != 0
  }

  ghost function InUse(pages: set<nat>, s: nat): set<nat> {
    set p | p in pages && SegmentOf(p) == s
  }

  ghost predicate QueuesOk(v: Pages) {
    && v.home.Keys == v.size.Keys
    && (forall c :: c in v.queue <==> 0 <= c < CXL_BIN_SIZE)
    && (forall c :: c in v.queue ==> PageQueue.Distinct(v.queue[c]))
    && (forall c, p :: c in v.queue ==> (p in v.queue[c] <==> p in v.home && v.home[p] == c))
    && (forall p :: p in v.home ==> v.home[p] < CXL_BIN_SIZE && v.size[p] == ClassSize(v.home[p]))
  }

  /** Free are the client's pages that are neither in use nor, on their way, in `out`. */
  ghost predicate FreeOk(v: Pages, tid: Tid, out: set<nat>) {
    && PageQueue.Distinct(v.free)
    && (forall p :: p in v.free <==> Mine(v, tid, p) && p !in v.size && p !in out)
    && (forall p :: p in v.size || p in out ==> Mine(v, tid, p))
  }

  /** A segment's counter is the number of its pages that are not free. */
  ghost predicate CountersOk(v: Pages, tid: Tid, out: set<nat>) {
    forall s :: 0 <= s < |v.owner| && v.owner[s] == tid ==>
      s in v.segUsed && v.segUsed[s] == |InUse(v.size.Keys + out, s)|
  }

  ghost predicate PagesOk(v: Pages, tid: Tid, out: set<nat>) {
    tid != 0 && out !! v.size.Keys && QueuesOk(v) && FreeOk(v, tid, out) && CountersOk(v, tid, out)
  }

  function Drop(s: seq<nat>, p: nat): (r: seq<nat>)
    ensures PageQueue.Distinct(s) ==> PageQueue.Distinct(r) && forall q :: q in r <==> q in s && q != p
    ensures p !in s ==> r == s
  {
    if s == [] then []
    else
      assert forall q :: q in s <==> q == s[0] || q in s[1..];
      assert PageQueue.Distinct(s) ==> PageQueue.Distinct(s[1..]) && s[0] !in s[1..];
      var rest := Drop(s[1..], p);
      if s[0] == p then s[1..]
      else
        assert forall q :: q in [s[0]] + rest <==> q == s[0] || q in rest;
        assert PageQueue.Distinct(rest) && s[0] !in rest ==> PageQueue.Distinct([s[0]] + rest);
        [s[0]] + rest
  }

  /** Dropping a member is what the linked queue does. */
  lemma {:induction false} DropIsRemove(s: seq<nat>, p: nat) returns (i: nat)
    requires p in s
    ensures i < |s| && s[i] == p && Drop(s, p) == PageQueue.Without(s, i)
  {
    if s[0] == p {
      i := 0;
    } else {
      assert p in s[1..];
      i := DropIsRemove(s[1..], p);
      i := i + 1;
      assert PageQueue.Without(s, i) == [s[0]] + PageQueue.Without(s[1..], i - 1);
    }
  }

  lemma DistinctPush(s: seq<nat>, p: nat)
    requires PageQueue.Distinct(s) && p !in s
    ensures PageQueue.Distinct([p] + s)
  {
  }

  lemma InUseOne(pages: set<nat>, p: nat)
    requires p !in pages
    ensures |InUse(pages + {p}, SegmentOf(p))| == |InUse(pages, SegmentOf(p))| + 1
    ensures forall s :: s != SegmentOf(p) ==> InUse(pages + {p}, s) == InUse(pages, s)
  {
    assert InUse(pages + {p}, SegmentOf(p)) == InUse(pages, SegmentOf(p)) + {p};
  }

  // ----- taking a page from the free queue and giving it back

  function Taken(v: Pages, p: nat): Pages
    requires SegmentOf(p) in v.segUsed
  {
    v.(free := Drop(v.free, p), segUsed := v.segUsed[SegmentOf(p) := v.segUsed[SegmentOf(p)] + 1])
  }

  lemma SameQueues(v: Pages, w: Pages)
    requires QueuesOk(v) && w.home == v.home && w.size == v.size && w.queue == v.queue
    ensures QueuesOk(w)
  {
  }

  lemma TakeKeeps(v: Pages, tid: Tid, p: nat)
    requires PagesOk(v, tid, {}) && p in v.free
    ensures SegmentOf(p) in v.segUsed && PagesOk(Taken(v, p), tid, {p}) && p !in v.size
  {
    hide FreeOk, CountersOk, QueuesOk;
    TakeFree(v, tid, p);
    CountOneMore(v, tid, p);
    SameQueues(v, Taken(v, p));
  }

  lemma TakeFree(v: Pages, tid: Tid, p: nat)
    requires FreeOk(v, tid, {}) && p in v.free
    ensures Mine(v, tid, p) && p !in v.size
    ensures SegmentOf(p) in v.segUsed ==> FreeOk(Taken(v, p), tid, {p})
  {
    hide SegmentOf, PageQueue.Distinct;
    if SegmentOf(p) in v.segUsed {
      var w := Taken(v, p);
      hide Drop;
      forall q: nat ensures q in w.free <==> Mine(w, tid, q) && q !in w.size && q !in {p} {
        assert q in v.free <==> Mine(v, tid, q) && q !in v.size;
      }
    }
  }

  lemma CountOneMore(v: Pages, tid: Tid, p: nat)
    requires CountersOk(v, tid, {}) && p !in v.size && SegmentOf(p) < |v.owner| && v.owner[SegmentOf(p)] == tid
    ensures SegmentOf(p) in v.segUsed && CountersOk(Taken(v, p), tid, {p})
  {
    hide SegmentOf, Drop, InUse;
    InUseOne(v.size.Keys, p);
    assert v.size.Keys + {} == v.size.Keys;
  }

  function Given(v: Pages, p: nat): Pages
    requires SegmentOf(p) in v.segUsed
  {
    v.(free := [p] + v.free, segUsed := v.segUsed[SegmentOf(p) := v.segUsed[SegmentOf(p)] - 1])
  }

  lemma GiveKeeps(v: Pages, tid: Tid, p: nat)
    requires PagesOk(v, tid, {p})
    ensures SegmentOf(p) in v.segUsed && PagesOk(Given(v, p), tid, {})
  {
    assert p in {p} && p !in v.size;
    assert Mine(v, tid, p);
    hide FreeOk, CountersOk, QueuesOk;
    CountOneLess(v, tid, p);
    GiveFree(v, tid, p);
    SameQueues(v, Given(v, p));
  }

  lemma GiveFree(v: Pages, tid: Tid, p: nat)
    requires FreeOk(v, tid, {p}) && p !in v.size && SegmentOf(p) in v.segUsed
    ensures FreeOk(Given(v, p), tid, {})
  {
    var w := Given(v, p);
    DistinctPush(v.free, p);
    hide SegmentOf, PageQueue.Distinct;
    forall q: nat ensures q in w.free <==> Mine(w, tid, q) && q !in w.size && q !in {} {
      assert q in w.free <==> q == p || q in v.free;
    }
  }

  lemma CountOneLess(v: Pages, tid: Tid, p: nat)
    requires CountersOk(v, tid, {p}) && p !in v.size && SegmentOf(p) < |v.owner| && v.owner[SegmentOf(p)] == tid
    ensures SegmentOf(p) in v.segUsed && CountersOk(Given(v, p), tid, {})
  {
    hide SegmentOf, InUse;
    InUseOne(v.size.Keys, p);
    assert v.size.Keys + {} == v.size.Keys;
  }

  // ----- putting a page to use and out of use

  function Queued(v: Pages, p: nat, c: nat): Pages
    requires c in v.queue && c < CXL_BIN_SIZE
  {
    v.(queue := v.queue[c := [p] + v.queue[c]], size := v.size[p := ClassSize(c)], home := v.home[p := c])
  }

  lemma QueueKeeps(v: Pages, tid: Tid, p: nat, c: nat)
    requires PagesOk(v, tid, {p}) && c < CXL_BIN_SIZE
    ensures c in v.queue && PagesOk(Queued(v, p, c), tid, {})
  {
    var w := Queued(v, p, c);
    QueueQueues(v, p, c);
    assert v.size.Keys + {p} == w.size.Keys + {};
    hide CountersOk, QueuesOk, SegmentOf, ClassSize;
    MoveOut(v, w, tid, {p}, {});
  }

  /** Only which pages are free matters for these two. */
  lemma MoveOut(v: Pages, w: Pages, tid: Tid, out: set<nat>, out': set<nat>)
    requires FreeOk(v, tid, out) && CountersOk(v, tid, out)
    requires w.free == v.free && w.owner == v.owner && w.segUsed == v.segUsed && v.size.Keys + out == w.size.Keys + out'
    ensures FreeOk(w, tid, out') && CountersOk(w, tid, out')
  {
    hide SegmentOf, InUse, PageQueue.Distinct;
    forall q: nat ensures (q in v.size || q in out) <==> (q in w.size || q in out') {
      assert q in v.size.Keys + out <==> q in w.size.Keys + out';
    }
  }

  lemma QueueQueues(v: Pages, p: nat, c: nat)
    requires QueuesOk(v) && c < CXL_BIN_SIZE && p !in v.size
    ensures c in v.queue && QueuesOk(Queued(v, p, c))
  {
    hide ClassSize;
    assert p !in v.home && p !in v.queue[c];
    DistinctPush(v.queue[c], p);
  }

  function Unqueued(v: Pages, p: nat, c: nat): Pages
    requires c in v.queue
  {
    v.(queue := v.queue[c := Drop(v.queue[c], p)], size := v.size - {p}, home := v.home - {p})
  }

  lemma UnqueueKeeps(v: Pages, tid: Tid, p: nat)
    requires PagesOk(v, tid, {}) && p in v.size
    ensures p in v.home && v.home[p] in v.queue && p in v.queue[v.home[p]]
    ensures PagesOk(Unqueued(v, p, v.home[p]), tid, {p})
  {
    UnqueueQueues(v, p);
    var w := Unqueued(v, p, v.home[p]);
    assert v.size.Keys + {} == w.size.Keys + {p};
    hide CountersOk, QueuesOk, FreeOk;
    MoveOut(v, w, tid, {}, {p});
  }

  lemma UnqueueQueues(v: Pages, p: nat)
    requires QueuesOk(v) && p in v.size
    ensures p in v.home && v.home[p] in v.queue && p in v.queue[v.home[p]]
    ensures QueuesOk(Unqueued(v, p, v.home[p]))
  {
    hide ClassSize, Drop, PageQueue.Distinct;
  }

  // ----- segments

  /** The first k pages of a segment that a client may use. */
  function UsablePages(s: nat, k: nat): (r: seq<nat>)
    ensures |r| == k && forall i :: 0 <= i < k ==> r[i] == s * PAGES_PER_SEGMENT + i + 1
  {
    seq(k, i requires 0 <= i < k => s * PAGES_PER_SEGMENT + i + 1)
  }

  lemma Usable(s: nat, p: nat)
    ensures p in UsablePages(s, PAGES_PER_SEGMENT - 1) <==> SegmentOf(p) == s && p % PAGES_PER_SEGMENT != 0
  {
    if SegmentOf(p) == s && p % PAGES_PER_SEGMENT != 0 {
      assert UsablePages(s, PAGES_PER_SEGMENT - 1)[p % PAGES_PER_SEGMENT - 1] == p;
    }
  }

  function Claimed(v: Pages, s: nat, tid: Tid): Pages
    requires s < |v.owner|
  {
    v.(owner := v.owner[s := tid], segUsed := v.segUsed[s := 0], free := UsablePages(s, PAGES_PER_SEGMENT - 1) + v.free)
  }

  lemma ClaimKeeps(v: Pages, tid: Tid, s: nat)
    requires PagesOk(v, tid, {}) && s < |v.owner| && v.owner[s] == 0
    ensures PagesOk(Claimed(v, s, tid), tid, {})
  {
    hide QueuesOk, CountersOk, FreeOk;
    ClaimFree(v, tid, s);
    ClaimCounters(v, tid, s);
    SameQueues(v, Claimed(v, s, tid));
  }

  lemma ClaimCounters(v: Pages, tid: Tid, s: nat)
    requires tid != 0 && FreeOk(v, tid, {}) && CountersOk(v, tid, {}) && s < |v.owner| && v.owner[s] == 0
    ensures CountersOk(Claimed(v, s, tid), tid, {})
  {
    hide UsablePages, PageQueue.Distinct;
    assert InUse(v.size.Keys + {}, s) == {} by {
      hide CountersOk;
    }
    hide FreeOk, InUse;
  }

  lemma ClaimFree(v: Pages, tid: Tid, s: nat)
    requires tid != 0 && FreeOk(v, tid, {}) && s < |v.owner| && v.owner[s] == 0
    ensures FreeOk(Claimed(v, s, tid), tid, {})
  {
    var w, fresh0 := Claimed(v, s, tid), UsablePages(s, PAGES_PER_SEGMENT - 1);
    forall p: nat ensures p in fresh0 <==> SegmentOf(p) == s && p % PAGES_PER_SEGMENT != 0 {
      Usable(s, p);
    }
    assert PageQueue.Distinct(w.free) by {
      forall i, j | 0 <= i < |fresh0| && 0 <= j < |v.free| ensures fresh0[i] != v.free[j] {
        assert fresh0[i] in fresh0 && v.free[j] in v.free;
      }
    }
    hide PageQueue.Distinct, UsablePages;
    forall p: nat ensures p in w.free <==> Mine(w, tid, p) && p !in v.size {
      assert p in w.free <==> p in fresh0 || p in v.free;
    }
  }

  /** A segment leaves the client: nothing of it may be in use. */
  function Released(v: Pages, s: nat, free: seq<nat>): Pages
    requires s < |v.owner|
  {
    v.(owner := v.owner[s := 0], segUsed := v.segUsed - {s}, free := free)
  }

  /** When the counter is 0 every page of the segment is in the free queue, so that each of the 1023
      removals finds its page. */
  lemma IdleSegmentIsFree(v: Pages, tid: Tid, s: nat, p: nat)
    requires PagesOk(v, tid, {}) && s < |v.owner| && v.owner[s] == tid && v.segUsed[s] == 0
    requires SegmentOf(p) == s && p % PAGES_PER_SEGMENT != 0
    ensures p in v.free && p !in v.size
  {
    assert v.size.Keys + {} == v.size.Keys;
    assert p !in InUse(v.size.Keys, s);
  }

  lemma IdlePage(v: Pages, tid: Tid, s: nat, p: nat)
    requires PagesOk(v, tid, {}) && s < |v.owner| && v.owner[s] == tid && v.segUsed[s] == 0 && p in v.size
    ensures SegmentOf(p) != s
  {
    assert Mine(v, tid, p) && p in v.size.Keys + {};
    assert p in InUse(v.size.Keys + {}, SegmentOf(p));
  }

  lemma ReleaseKeeps(v: Pages, tid: Tid, s: nat, free: seq<nat>)
    requires PagesOk(v, tid, {}) && s < |v.owner| && v.owner[s] == tid && v.segUsed[s] == 0
    requires PageQueue.Distinct(free) && forall p :: p in free <==> p in v.free && SegmentOf(p) != s
    ensures PagesOk(Released(v, s, free), tid, {})
  {
    var w := Released(v, s, free);
    forall p | p in v.size ensures SegmentOf(p) != s {
      IdlePage(v, tid, s, p);
    }
    hide QueuesOk, CountersOk, FreeOk;
    SameQueues(v, w);
    ReleaseFree(v, tid, s, free);
    ReleaseCounters(v, tid, s, free);
  }

  lemma ReleaseFree(v: Pages, tid: Tid, s: nat, free: seq<nat>)
    requires tid != 0 && FreeOk(v, tid, {}) && s < |v.owner| && forall p :: p in v.size ==> SegmentOf(p) != s
    requires PageQueue.Distinct(free) && forall p :: p in free <==> p in v.free && SegmentOf(p) != s
    ensures FreeOk(Released(v, s, free), tid, {})
  {
    hide SegmentOf, PageQueue.Distinct;
    var w := Released(v, s, free);
    forall p: nat ensures Mine(w, tid, p) <==> Mine(v, tid, p) && SegmentOf(p) != s {
    }
  }

  lemma ReleaseCounters(v: Pages, tid: Tid, s: nat, free: seq<nat>)
    requires tid != 0 && CountersOk(v, tid, {}) && s < |v.owner|
    ensures CountersOk(Released(v, s, free), tid, {})
  {
    hide SegmentOf, InUse;
  }
}
