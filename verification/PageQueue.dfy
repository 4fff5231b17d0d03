/** The intrusive doubly linked page queues. A page is its offset; offset 0 is null. Every queue threads
    its pages through the same `next` and `prev` fields. */
module PageQueue {

  ghost predicate Distinct(pages: seq<nat>) {
    forall i, j :: 0 <= i < j < |pages| ==> pages[i] != pages[j]
  }

  /** The neighbour at position i, null outside. */
  function Nth(pages: seq<nat>, i: int): nat {
    if 0 <= i < |pages| then pages[i] else 0
  }

  /** The queue without the page at position i. */
  function Without(pages: seq<nat>, i: nat): seq<nat>
    requires i < |pages|
  {
    pages[..i] + pages[i + 1..]
  }

  /** The link fields of all pages of the segment. */
  class Links {
    const next: array<nat>
    const prev: array<nat>

    constructor (n: nat)
      ensures next.Length == prev.Length == n && next != prev && fresh(next) && fresh(prev)
    {
      next, prev := new nat[n](_ => 0), new nat[n](_ => 0);
    }
  }

  /** The fields of the page at position i point to its neighbours. */
  predicate Joined(next: seq<nat>, prev: seq<nat>, pages: seq<nat>, i: nat)
    requires i < |pages| && |next| == |prev|
  {
    && 0 < pages[i] < |next|
    && next[pages[i]] == Nth(pages, i + 1) && prev[pages[i]] == Nth(pages, i - 1)
  }

  ghost predicate Threaded(next: seq<nat>, prev: seq<nat>, pages: seq<nat>) {
    |next| == |prev| && forall i: nat :: i < |pages| ==> Joined(next, prev, pages, i)
  }

  /** A new first page becomes the left neighbour of the old one. */
  lemma PushedThreads(next: seq<nat>, prev: seq<nat>, next': seq<nat>, prev': seq<nat>, pages: seq<nat>, page: nat)
    requires Distinct(pages) && Threaded(next, prev, pages) && 0 < page < |next| && page !in pages
    requires |next'| == |prev'| == |next| && next'[page] == Nth(pages, 0) && prev'[page] == 0
    requires forall p :: 0 < p < |next| && p != page ==>
               next'[p] == next[p] && prev'[p] == if p == Nth(pages, 0) then page else prev[p]
    ensures Distinct([page] + pages) && Threaded(next', prev', [page] + pages)
  {
    var longer := [page] + pages;
    assert forall k :: 1 <= k < |longer| ==> longer[k] == pages[k - 1];
    forall k: nat | k < |longer| ensures Joined(next', prev', longer, k) {
      if k > 0 {
        assert Joined(next, prev, pages, k - 1);
        assert pages[k - 1] != page;
        assert k > 1 ==> pages[k - 1] != pages[0];
      }
    }
  }

  /** Bridging the neighbours of one page leaves the others threaded. */
  lemma RemovedThreads(next: seq<nat>, prev: seq<nat>, next': seq<nat>, prev': seq<nat>, pages: seq<nat>, i: nat)
    requires Distinct(pages) && Threaded(next, prev, pages) && i < |pages| && |next'| == |prev'| == |next|
    requires forall p :: 0 < p < |next| && p != pages[i] ==>
               && next'[p] == (if p == Nth(pages, i - 1) then Nth(pages, i + 1) else next[p])
               && prev'[p] == (if p == Nth(pages, i + 1) then Nth(pages, i - 1) else prev[p])
    ensures Distinct(Without(pages, i)) && Threaded(next', prev', Without(pages, i)) && pages[i] !in Without(pages, i)
  {
    var rest := Without(pages, i);
    forall k: nat | k < |rest| ensures rest[k] == pages[if k < i then k else k + 1] {
    }
    forall k: nat | k < |rest| ensures Joined(next', prev', rest, k) {
      RemovedJoins(next, prev, next', prev', pages, i, k);
    }
  }

  lemma RemovedJoins(next: seq<nat>, prev: seq<nat>, next': seq<nat>, prev': seq<nat>, pages: seq<nat>, i: nat, k: nat)
    requires Distinct(pages) && Threaded(next, prev, pages) && i < |pages| && |next'| == |prev'| == |next|
    requires k < |Without(pages, i)|
    requires forall p :: 0 < p < |next| && p != pages[i] ==>
               && next'[p] == (if p == Nth(pages, i - 1) then Nth(pages, i + 1) else next[p])
               && prev'[p] == (if p == Nth(pages, i + 1) then Nth(pages, i - 1) else prev[p])
    ensures Joined(next', prev', Without(pages, i), k)
  {
    var rest := Without(pages, i);
    var j := if k < i then k else k + 1;
    var p := pages[j];
    assert rest[k] == p && p != pages[i];
    assert Joined(next, prev, pages, j);
    assert p == Nth(pages, i - 1) <==> j == i - 1;
    assert p == Nth(pages, i + 1) <==> j == i + 1;
  }

  /** The links with the neighbour p pointing past the page to q, and those of the page itself wiped. */
  function Unlinked(links: seq<nat>, page: nat, p: nat, q: nat): seq<nat>
    requires page < |links| && p < |links|
  {
    (if p != 0 then links[p := q] else links)[page := 0]
  }

  lemma BridgedThreads(next: seq<nat>, prev: seq<nat>, next': seq<nat>, prev': seq<nat>, pages: seq<nat>, i: nat)
    requires Distinct(pages) && Threaded(next, prev, pages) && i < |pages|
    requires pages[i] < |next| && Nth(pages, i - 1) < |next| && Nth(pages, i + 1) < |next|
    requires next' == Unlinked(next, pages[i], Nth(pages, i - 1), Nth(pages, i + 1))
    requires prev' == Unlinked(prev, pages[i], Nth(pages, i + 1), Nth(pages, i - 1))
    ensures Distinct(Without(pages, i)) && Threaded(next', prev', Without(pages, i)) && pages[i] !in Without(pages, i)
  {
    RemovedThreads(next, prev, next', prev', pages, i);
  }

  lemma EndsKnown(next: seq<nat>, prev: seq<nat>, pages: seq<nat>)
    requires Threaded(next, prev, pages) && |pages| > 0
    ensures 0 < pages[0] < |next| && 0 < pages[|pages| - 1] < |next|
  {
    assert Joined(next, prev, pages, 0) && Joined(next, prev, pages, |pages| - 1);
  }

  /** What removal of the page at position i reads. */
  lemma PageKnown(next: seq<nat>, prev: seq<nat>, pages: seq<nat>, i: nat)
    requires Distinct(pages) && Threaded(next, prev, pages) && i < |pages|
    ensures 0 < pages[i] < |next| && next[pages[i]] == Nth(pages, i + 1) && prev[pages[i]] == Nth(pages, i - 1)
    ensures Nth(pages, i + 1) < |next| && Nth(pages, i - 1) < |next|
    ensures i + 1 < |pages| ==> Nth(pages, i + 1) > 0 && prev[Nth(pages, i + 1)] == pages[i] != Nth(pages, i + 1)
    ensures i > 0 ==> Nth(pages, i - 1) > 0 && next[Nth(pages, i - 1)] == pages[i] != Nth(pages, i - 1)
    ensures pages[i] == pages[0] <==> i == 0
    ensures pages[i] == pages[|pages| - 1] <==> i == |pages| - 1
  {
    assert Joined(next, prev, pages, i);
    if i > 0 {
      assert Joined(next, prev, pages, i - 1);
    }
    if i + 1 < |pages| {
      assert Joined(next, prev, pages, i + 1);
    }
  }

  class PageQueue {
    const links: Links
    var first: nat
    var last: nat
    ghost var pages: seq<nat>   // what the queue holds, first to last

    constructor (links: Links)
      requires links.next.Length == links.prev.Length && links.next != links.prev
      ensures Valid() && pages == [] && this.links == links
    {
      this.links := links;
      first, last, pages := 0, 0, [];
    }

    ghost predicate Valid()
      reads this, links.next, links.prev
    {
      && links.next != links.prev && links.next.Length == links.prev.Length
      && Distinct(pages) && Threaded(links.next[..], links.prev[..], pages)
      && first == Nth(pages, 0) && last == Nth(pages, |pages| - 1)
    }

    method Push(page: nat)
      requires Valid() && 0 < page < links.next.Length && page !in pages
      modifies this, links.next, links.prev
      ensures Valid() && pages == [page] + old(pages)
      ensures forall p :: 0 <= p < links.next.Length && p != page && p !in old(pages) ==>
                links.next[p] == old(links.next[p]) && links.prev[p] == old(links.prev[p])
    {
      hide Distinct, Threaded;
      var next, prev := links.next, links.prev;
      if |pages| > 0 {
        EndsKnown(next[..], prev[..], pages);
      }
      next[page] := first;
      prev[page] := 0;
      if first != 0 {
        prev[first] := page;
        first := page;
      } else {
        first := page;
        last := page;
      }
      PushedThreads(old(next[..]), old(prev[..]), next[..], prev[..], pages, page);
      pages := [page] + pages;
    }

    method Remove(page: nat)
      requires Valid() && page in pages
      modifies this, links.next, links.prev
      ensures Valid() && exists i :: 0 <= i < |old(pages)| && old(pages)[i] == page && pages == Without(old(pages), i)
      ensures page !in pages && 0 < page < links.next.Length && links.next[page] == 0 && links.prev[page] == 0
      ensures forall p :: 0 <= p < links.next.Length && p !in old(pages) ==>
                links.next[p] == old(links.next[p]) && links.prev[p] == old(links.prev[p])
    {
      var next, prev := links.next, links.prev;
      ghost var i :| 0 <= i < |pages| && pages[i] == page;
      hide Distinct, Threaded;
      PageKnown(next[..], prev[..], pages, i);
      var before, after := prev[page], next[page];
      if before != 0 {
        next[before] := after;
      }
      if after != 0 {
        prev[after] := before;
      }
      if page == last {
        last := before;
      }
      if page == first {
        first := after;
      }
      next[page] := 0;
      prev[page] := 0;
      pages := Without(pages, i);
      assert next[..] == Unlinked(old(next[..]), page, before, after);
      assert prev[..] == Unlinked(old(prev[..]), page, after, before);
      BridgedThreads(old(next[..]), old(prev[..]), next[..], prev[..], old(pages), i);
    }
  }

  /** A queue that shares no page with the one that changed stays as it was. */
  lemma OtherQueueKept(next: seq<nat>, prev: seq<nat>, next': seq<nat>, prev': seq<nat>, changed: set<nat>,
                       other: seq<nat>)
    requires Threaded(next, prev, other) && |next'| == |prev'| == |next|
    requires forall p :: 0 <= p < |next| && p !in changed ==> next'[p] == next[p] && prev'[p] == prev[p]
    requires forall i :: 0 <= i < |other| ==> other[i] !in changed
    ensures Threaded(next', prev', other)
  {
    forall i: nat | i < |other| ensures Joined(next', prev', other, i) {
      assert Joined(next, prev, other, i);
    }
  }

  /** Following `next` from `first` visits the pages in order and ends at null: there is no cycle. */
  lemma {:induction false} WalkEnds(next: seq<nat>, prev: seq<nat>, pages: seq<nat>, k: nat)
    requires Threaded(next, prev, pages) && k <= |pages|
    ensures Walk(next, Nth(pages, 0), k) == Nth(pages, k)
  {
    if k > 0 {
      WalkEnds(next, prev, pages, k - 1);
      assert Joined(next, prev, pages, k - 1);
    }
  }

  /** The page after k steps along `next`; null stays null. */
  function Walk(next: seq<nat>, page: nat, k: nat): nat {
    if k == 0 then page
    else
      var p := Walk(next, page, k - 1);
      if 0 < p < |next| then next[p] else 0
  }
}
