/** Allocation of an object behind a fresh root slot, and what the monitor makes of a client that stopped in
    the middle of it. `mayStop` guards the points where the client may stop. */
module Allocation {
  import opened RefTypes
  import opened ObjectGraph
  import opened Tracing
  import opened Cascade
  import opened SharedMemory

  // ----- what an allocation does to the object graph

  /** Slot t is a root slot without object, b a block without count, and its first n words hold nothing and
      belong to nobody. */
  ghost predicate Blank(m: Mem, t: Slot, b: Obj, n: nat) {
    && t in m.slots && m.slots[t] == 0 && IsRoot(m, t)
    && b in m.words && m.words[b] == ZeroWord && b in m.emb && m.emb[b] == 0
    && forall k: nat :: k < n ==>
         EmbSlot(b, k) in m.slots && m.slots[EmbSlot(b, k)] == 0 && IsRoot(m, EmbSlot(b, k)) && EmbSlot(b, k) != t
  }

  /** Block b has become an object with n embedded references, held by slot t. */
  ghost predicate Allocated(m: Mem, m': Mem, t: Slot, b: Obj, w: Word, n: nat) {
    b in m.words && m'.words == m.words[b := w] && m'.emb == m.emb[b := n] && m'.slots == m.slots[t := b]
  }

  lemma EmbeddedAfter(m: Mem, m': Mem, t: Slot, b: Obj, w: Word, n: nat, x: Slot, p: Obj, k: nat)
    requires Blank(m, t, b, n) && Allocated(m, m', t, b, w, n)
    ensures EmbeddedIn(m', x, p, k) <==> EmbeddedIn(m, x, p, k) || (p == b && k < n && x == EmbSlot(b, k))
  {
  }

  lemma AllocatedShape(m: Mem, m': Mem, t: Slot, b: Obj, w: Word, n: nat)
    requires Shape(m) && Blank(m, t, b, n) && Allocated(m, m', t, b, w, n)
    ensures Shape(m')
  {
    assert m'.words.Keys == m.words.Keys && m'.emb.Keys == m.emb.Keys;
    forall x, p, k, q, l | EmbeddedIn(m', x, p, k) && EmbeddedIn(m', x, q, l) ensures p == q {
      EmbeddedAfter(m, m', t, b, w, n, x, p, k);
      EmbeddedAfter(m, m', t, b, w, n, x, q, l);
    }
  }

  lemma AllocatedExact(m: Mem, m': Mem, t: Slot, b: Obj, w: Word, n: nat)
    requires Exact(m) && 0 !in m.words && Blank(m, t, b, n) && Allocated(m, m', t, b, w, n) && w.cnt == 1
    ensures Exact(m')
  {
    assert Holders(m.slots, b) == {};
    forall o | o in m'.words ensures m'.words[o].cnt == |Holders(m'.slots, o)| {
      if o == b {
        forall x | x in Holders(m'.slots, b) ensures x == t {
          assert x in m.slots && (x != t ==> x in Holders(m.slots, b));
        }
        assert Holders(m'.slots, b) == {t};
      } else {
        assert Holders(m'.slots, o) == Holders(m.slots, o);
      }
    }
  }

  lemma AllocatedClean(m: Mem, m': Mem, t: Slot, b: Obj, w: Word, n: nat)
    requires Clean(m) && Blank(m, t, b, n) && Allocated(m, m', t, b, w, n) && w.cnt == 1
    ensures Clean(m')
  {
    forall p, k | p in m'.words && p in m'.emb && m'.words[p].cnt == 0 && k < m'.emb[p] && EmbSlot(p, k) in m'.slots
      ensures m'.slots[EmbSlot(p, k)] == 0
    {
      assert EmbeddedIn(m, EmbSlot(p, k), p, k);
    }
  }

  /** The graph stays sound and acyclic. */
  lemma AllocatedSound(m: Mem, m': Mem, t: Slot, b: Obj, w: Word, n: nat, rank: map<Obj, nat>, top: nat)
    requires Sound(m) && Ranked(m, rank, top) && Blank(m, t, b, n) && Allocated(m, m', t, b, w, n) && w.cnt == 1
    ensures Sound(m') && Ranked(m', rank, top)
  {
    AllocatedShape(m, m', t, b, w, n);
    AllocatedExact(m, m', t, b, w, n);
    AllocatedClean(m, m', t, b, w, n);
    forall x, p, k | EmbeddedIn(m', x, p, k) && x in m'.slots && m'.slots[x] in m'.words && p in m'.words
      ensures rank[m'.slots[x]] < rank[p]
    {
      EmbeddedAfter(m, m', t, b, w, n, x, p, k);
    }
  }

  /** Fewer words of the block, if the count of embedded references was not written. */
  lemma BlankFewer(m: Mem, t: Slot, b: Obj, n: nat, k: nat)
    requires Blank(m, t, b, n) && k <= n
    ensures Blank(m, t, b, k)
  {
  }

  /** Memories that agree on references reach the same objects. */
  lemma {:induction false} SamePath(c: Mem, d: Mem, path: seq<Obj>)
    requires c.slots == d.slots && Path(c, path) && 0 !in path
    requires forall x, p, k :: x in c.slots && c.slots[x] != 0 ==> (EmbeddedIn(c, x, p, k) <==> EmbeddedIn(d, x, p, k))
    ensures Path(d, path)
  {
    var x :| x in c.slots && c.slots[x] == path[0] && IsRoot(c, x);
    assert IsRoot(d, x);
    forall i | 0 <= i < |path| - 1 ensures Refers(d, path[i], path[i + 1]) {
      assert Refers(c, path[i], path[i + 1]);
      var y, k :| EmbeddedIn(c, y, path[i], k) && y in c.slots && c.slots[y] == path[i + 1];
      assert EmbeddedIn(d, y, path[i], k);
    }
  }

  lemma SameReach(c: Mem, d: Mem, o: Obj)
    requires c.slots == d.slots && Shape(c) && Shape(d) && o in c.words && o in d.words
    requires forall x, p, k :: x in c.slots && c.slots[x] != 0 ==> (EmbeddedIn(c, x, p, k) <==> EmbeddedIn(d, x, p, k))
    ensures Reachable(c, o) <==> Reachable(d, o)
  {
    if Reachable(c, o) {
      var path :| Path(c, path) && path[|path| - 1] == o;
      NonzeroPath(c, path, o);
      SamePath(c, d, path);
    }
    if Reachable(d, o) {
      var path :| Path(d, path) && path[|path| - 1] == o;
      NonzeroPath(d, path, o);
      SamePath(d, c, path);
    }
  }

  /** Without slot t the new object cannot be reached, and the others as before. */
  lemma AllocatedReach(m: Mem, m': Mem, t: Slot, b: Obj, w: Word, n: nat, R: set<Slot>, o: Obj)
    requires Shape(m) && Blank(m, t, b, n) && Allocated(m, m', t, b, w, n) && t in R && o in m.words
    ensures Reachable(Cut(m', R), o) <==> Reachable(Cut(m, R), o)
  {
    AllocatedShape(m, m', t, b, w, n);
    CutShape(m, R);
    CutShape(m', R);
    var c, d := Cut(m, R), Cut(m', R);
    assert c.slots == d.slots;
    forall x, p, k | x in c.slots && c.slots[x] != 0 ensures EmbeddedIn(c, x, p, k) <==> EmbeddedIn(d, x, p, k) {
      EmbeddedAfter(m, m', t, b, w, n, x, p, k);
    }
    SameReach(c, d, o);
  }

  /** An empty slot makes no difference. */
  lemma CutEmpty(m: Mem, R: set<Slot>, t: Slot)
    requires t in m.slots && m.slots[t] == 0
    ensures Cut(m, R + {t}) == Cut(m, R)
  {
    assert Cut(m, R + {t}).slots == Cut(m, R).slots;
  }

  /** Storing the block before it is stamped opens a hole at slot t and changes nothing else. */
  lemma Stored(m: Mem, t: Slot, b: Obj, n: nat)
    requires Blank(m, t, b, n)
    ensures var m' := m.(slots := m.slots[t := b]); Unstamped(m', {t}) && Cut(m', {t}) == m
  {
    var m' := m.(slots := m.slots[t := b]);
    assert Cut(m', {t}).slots == m.slots;
    assert forall p, k :: EmbeddedIn(m', t, p, k) <==> EmbeddedIn(m, t, p, k);
  }

  /** The objects handed over are distinct: those that died, and those of `more`, which had no count. */
  ghost predicate HandedOver(m: Mem, m': Mem, f: seq<Obj>, f': seq<Obj>, more: set<Obj>) {
    && f <= f'
    && (forall i, j :: |f| <= i < j < |f'| ==> f'[i] != f'[j])
    && forall o :: o in f'[|f|..] <==> Died(m, m', o) || o in more
  }

  // ----- what the monitor makes of the client's newest record

  /** Neither spending the era nor stamping a fresh block makes an old record look committed, or not. */
  lemma NeedRedoKept(words: map<Obj, Word>, era: EraMatrix, i: Tid, rec: RedoLog, b: Obj, e: nat)
    requires b in words && words[b] == ZeroWord && i > 0 && rec.era < e
    ensures NeedRedo(words[b := Word(i, 1, e)], era, i, rec) == NeedRedo(words, era, i, rec)
    ensures NeedRedo(words, BumpEra(era, i), i, rec) == NeedRedo(words, era, i, rec)
  {
    MaxRowOwn(era, i, i, EraAt(era, i, i) + 1, MAX_THREAD);
  }

  /** Spending the era and stamping a fresh block hides nothing from the monitor. */
  lemma AllocationStep(words: map<Obj, Word>, era: EraMatrix, words': map<Obj, Word>, era': EraMatrix, i: Tid, b: Obj)
    requires b in words && words[b] == ZeroWord && (era' == era || era' == BumpEra(era, i))
    requires words' == words || (words' == words[b := Word(i, 1, EraAt(era, i, i))] && era' == BumpEra(era, i))
    ensures EraStep(words, era, words', era', i)
  {
    hide NeedRedo;
    BumpRow(era, i);
    NoneHidden(words, era, b, words'[b], era', i);
    assert words[b := words'[b]] == words';
  }

  /** How far an allocation came: the slot is empty; it holds the block; the block is stamped. */
  datatype Stage = Untouched | Held | Stamped(n: nat)

  ghost predicate Reached(stage: Stage, m: Mem, m': Mem, t: Slot, b: Obj, w: Word, n: nat) {
    match stage
    case Untouched => m' == m
    case Held => m' == m.(slots := m.slots[t := b])
    case Stamped(k) => Allocated(m, m', t, b, w, k) && (k == n || k == 0)
  }

  /** Every stage leaves a sound graph, with the slot out of account while the block is not stamped. */
  lemma StageKeeps(stage: Stage, m: Mem, m': Mem, t: Slot, b: Obj, w: Word, n: nat, rank: map<Obj, nat>, top: nat)
    requires Sound(m) && Ranked(m, rank, top) && Blank(m, t, b, n) && w.cnt == 1 && Reached(stage, m, m', t, b, w, n)
    ensures Unstamped(m', {}) && Cut(m', {}) == m'
    ensures stage.Held? ==> Unstamped(m', {t}) && Cut(m', {t}) == m
    ensures stage.Stamped? ==> Sound(m') && Ranked(m', rank, top)
  {
    CutNone(m');
    match stage
    case Untouched =>
    case Held => Stored(m, t, b, n);
    case Stamped(k) =>
      BlankFewer(m, t, b, n, k);
      AllocatedSound(m, m', t, b, w, k, rank, top);
  }

  /** The replay changes nothing, or empties the new root slot if the record is stale; and then the record is
      not harmless any more. */
  lemma RedoEffect(m: Mem, era: EraMatrix, i: Tid, rec: RedoLog, t: Slot, b: Obj, stage: Stage, m': Mem,
                   era': EraMatrix, w: Word, n: nat)
    requires Sound(m) && Blank(m, t, b, n) && Harmless(m.words, m.slots, era, i, rec) && i > 0
    requires w == Word(i, 1, EraAt(era, i, i)) && rec.era < w.era && Reached(stage, m, m', t, b, w, n)
    requires era' == era || era' == BumpEra(era, i)
    requires stage.Stamped? ==> era' == BumpEra(era, i)
    ensures var stale := !rec.func.NoFunc? && rec.ref == t && NeedRedo(m.words, era, i, rec);
            Replayed(m'.slots, rec, NeedRedo(m'.words, era', i, rec)) == if stale then m.slots else m'.slots
    ensures !rec.func.NoFunc? ==> rec.refed in m'.words && rec.ref in m'.slots
    ensures stage.Stamped? ==>
              (Harmless(m'.words, m'.slots, era', i, rec) <==>
                    !(!rec.func.NoFunc? && rec.ref == t && NeedRedo(m.words, era, i, rec)))
  {
    NeedRedoKept(m.words, era, i, rec, b, w.era);
    NeedRedoKept(m.words, era', i, rec, b, w.era);
  }

  /** After the replay the graph is sound, with the hole out of account, unless the new object lost its slot. */
  lemma AfterRedo(stage: Stage, m: Mem, m': Mem, m2: Mem, t: Slot, b: Obj, w: Word, n: nat, stale: bool,
                  hole: set<Slot>,
                  rank: map<Obj, nat>, top: nat)
    requires Sound(m) && Ranked(m, rank, top) && Blank(m, t, b, n) && w.cnt == 1 && Reached(stage, m, m', t, b, w, n)
    requires m2 == m'.(slots := if stale then m.slots else m'.slots)
    requires hole == if stage.Held? && !stale then {t} else {}
    ensures Unstamped(m2, hole)
    ensures Sound(Cut(m2, hole)) <==> !(stage.Stamped? && stale)
    ensures stage.Stamped? && stale ==> b in m2.words && m2.words[b].cnt == 1 && Holders(m2.slots, b) == {}
    ensures !(stage.Stamped? && stale) ==>
              && Ranked(Cut(m2, hole), rank, top)
              && if stage.Stamped? then Allocated(m, Cut(m2, hole), t, b, w, stage.n) else Cut(m2, hole) == m
  {
    hide Shape, Clean, Ranked;
    StageKeeps(stage, m, m', t, b, w, n, rank, top);
    CutNone(m2);
    assert Holders(m.slots, b) == {};
  }

  lemma AllSlots(roots: seq<Slot>, t: Slot, all: seq<Slot>)
    requires all == roots || all == roots + [t]
    ensures SlotSet(all) == if all == roots then SlotSet(roots) else SlotSet(roots) + {t}
    ensures forall x :: x in SlotSet(all) <==> x in all
  {
  }

  ghost predicate Came(m: Mem, m1: Mem, stage: Stage, t: Slot, b: Obj, w: Word) {
    if stage.Stamped? then Allocated(m, m1, t, b, w, stage.n) else m1 == m
  }

  lemma SameKeys(m: Mem, n1: Mem, hole: set<Slot>, stage: Stage, t: Slot, b: Obj, w: Word)
    requires Came(m, Cut(n1, hole), stage, t, b, w) && t in m.slots
    ensures n1.slots.Keys == m.slots.Keys && n1.words.Keys == m.words.Keys
  {
  }

  /** The first free block of the page has no count: it is still the block, not stamped, or the next one. */
  lemma FirstFreeDead(m: Mem, n1: Mem, hole: set<Slot>, stage: Stage, t: Slot, b: Obj, w: Word, free: Obj, second: Obj)
    requires Came(m, Cut(n1, hole), stage, t, b, w) && b in m.words && m.words[b] == ZeroWord && second != b
    requires free == b || free == second
    requires stage.Stamped? ==> free == second
    requires second != 0 ==> Dead(m, second)
    ensures free != 0 ==> Dead(n1, free)
  {
  }

  lemma Unheld(m: Mem, R: set<Slot>, b: Obj)
    requires Sound(m) && Dead(m, b)
    ensures !Reachable(Cut(m, R), b)
  {
    var c := Cut(m, R);
    if Reachable(c, b) {
      var path :| Path(c, path) && path[|path| - 1] == b;
      if |path| > 1 {
        assert Refers(c, path[|path| - 2], path[|path| - 2 + 1]);
      }
      var x :| x in c.slots && c.slots[x] == b;
      assert b != 0;
      HeldIsLive(m, x);
      assert false;
    }
  }

  /** The sweep after the allocation came to a stage, seen from before the allocation. */
  lemma AfterSweep(m: Mem, n1: Mem, hole: set<Slot>, m2: Mem, stage: Stage, t: Slot, b: Obj, w: Word, n: nat,
                   R: set<Slot>, A: set<Slot>, f: seq<Obj>, f': seq<Obj>)
    requires Sound(m) && Blank(m, t, b, n) && Came(m, Cut(n1, hole), stage, t, b, w) && w.cnt == 1
    requires (stage.Stamped? ==> stage.n <= n) && m2.words.Keys == m.words.Keys && n1.words.Keys == m.words.Keys
    requires hole <= A && (A == R + {t} || (A == R && stage.Untouched?))
    requires forall o :: o in n1.words ==> (Live(m2, o) <==> Reachable(Cut(n1, A), o))
    requires Freed(Cut(n1, hole), m2, f, f', {})
    ensures forall o :: o in m.words ==> (Live(m2, o) <==> Reachable(Cut(m, R), o))
    ensures HandedOver(m, m2, f, f', if stage.Stamped? then {b} else {})
  {
    hide Reachable;
    var m1 := Cut(n1, hole);
    CutCut(n1, hole, A);
    CutEmpty(m, R, t);
    forall o | o in m.words ensures Live(m2, o) <==> Reachable(Cut(m, R), o) {
      if stage.Stamped? {
        BlankFewer(m, t, b, n, stage.n);
        AllocatedReach(m, m1, t, b, w, stage.n, A, o);
      }
    }
    Unheld(m, R, b);
    forall o ensures Died(m1, m2, o) <==> Died(m, m2, o) || (stage.Stamped? && o == b) {
      assert o in m1.words.Keys <==> o in m.words.Keys;
    }
  }

  lemma SweptAfter(n1: Mem, hole: set<Slot>, m2: Mem, A: set<Slot>)
    requires Swept(Cut(n1, hole), m2, A)
    ensures Sound(m2) && m2.words.Keys == n1.words.Keys
  {
  }

  class Allocation {
    const shm: Shm
    var next: map<nat, nat>      // first words of free blocks; of a free root slot it is its only word
    var rootFree: Slot           // the page of root slots
    var rootUsed: int
    var free: Obj                // the page of objects
    var used: int
    var inUse: set<Slot>
    var handles: map<Slot, nat>

    constructor (shm: Shm, next: map<nat, nat>, rootFree: Slot, rootUsed: int, free: Obj, used: int, inUse: set<Slot>,
                 handles: map<Slot, nat>)
      ensures this.shm == shm && this.next == next && this.rootFree == rootFree && this.rootUsed == rootUsed
      ensures this.free == free && this.used == used && this.inUse == inUse && this.handles == handles
    {
      this.shm, this.next, this.rootFree, this.rootUsed := shm, next, rootFree, rootUsed;
      this.free, this.used, this.inUse, this.handles := free, used, inUse, handles;
    }

    /** Both pages have a free block, and the free lists do not lead back to it; what is next on the objects'
        list has no count either. */
    ghost predicate Ready(n: nat)
      reads this, shm
    {
      && shm.tid > 0 && shm.Between() && Sound(shm.Now()) && Blank(shm.Now(), rootFree, free, n)
      && rootFree in next && rootFree !in inUse && free in next && next[free] != free
      && (next[free] != 0 ==> Dead(shm.Now(), next[free]))
    }

    /** The newest record says that root slot t was emptied, and would be replayed. */
    ghost predicate Stale(t: Slot)
      requires |shm.logs| > 0
      reads shm
    {
      var rec := Newest(shm.logs);
      !rec.func.NoFunc? && rec.ref == t && NeedRedo(shm.words, shm.era, shm.tid, rec)
    }

    /** The root slot is counted, taken off the free list and marked, in this order. */
    ghost predicate Taken(rootFree0: Slot, rootUsed0: int, inUse0: set<Slot>, rootFree1: Slot, rootUsed1: int,
                          inUse1: set<Slot>)
      requires rootFree0 in next
      reads this
    {
      && (rootUsed1 == rootUsed0 || rootUsed1 == rootUsed0 + 1)
      && (rootFree1 == rootFree0 || (rootFree1 == next[rootFree0] && rootUsed1 == rootUsed0 + 1))
      && if rootFree0 in inUse1
         then inUse1 == inUse0 + {rootFree0} && rootFree1 == next[rootFree0] && rootUsed1 == rootUsed0 + 1
         else inUse1 == inUse0
    }

    /** Take the first root slot. */
    method BlockToRootRef(t: Slot) returns (crashed: bool)
      requires t == rootFree && t in next && t !in inUse
      modifies this`rootUsed, this`rootFree, this`inUse, this`handles
      ensures crashed ==> shm.mayStop
      ensures Taken(t, old(rootUsed), old(inUse), rootFree, rootUsed, inUse)
      ensures handles == old(handles) || (handles == old(handles)[t := 0] && t in inUse)
      ensures !crashed ==> t in inUse && handles == old(handles)[t := 0]
    {
      if { case shm.mayStop => return true; case true => }
      rootUsed := rootUsed + 1;
      if { case shm.mayStop => return true; case true => }
      rootFree := next[t];
      if { case shm.mayStop => return true; case true => }
      inUse := inUse + {t};
      if { case shm.mayStop => return true; case true => }
      handles := handles[t := 0];
      return false;
    }

    /** Store the block in the root slot; only then count the handle. */
    method LinkBlock(t: Slot, b: Obj) returns (crashed: bool)
      requires t in handles && handles[t] == 0
      modifies this`handles, shm`slots
      ensures crashed ==> shm.mayStop
      ensures shm.slots == old(shm.slots) || shm.slots == old(shm.slots)[t := b]
      ensures handles == old(handles) || (handles == old(handles)[t := 1] && shm.slots == old(shm.slots)[t := b])
      ensures !crashed ==> handles == old(handles)[t := 1]
    {
      if { case shm.mayStop => return true; case true => }
      shm.slots := shm.slots[t := b];
      if { case shm.mayStop => return true; case true => }
      handles := handles[t := handles[t] + 1];
      return false;
    }

    /** Count the block, take it off the page, spend the era, stamp, in this order. */
    method BlockToObject(b: Obj, n: nat) returns (crashed: bool)
      requires b == free && b in next && b in shm.words && next[b] != b && b in shm.emb && shm.emb[b] == 0
      modifies this`used, this`free, shm`era, shm`words, shm`emb
      ensures crashed ==> shm.mayStop
      ensures used == old(used) || used == old(used) + 1
      ensures free == old(free) || (free == next[b] && used == old(used) + 1)
      ensures shm.era == old(shm.era) || (shm.era == BumpEra(old(shm.era), shm.tid) && free == next[b])
      ensures shm.words == old(shm.words)
              || (shm.words == old(shm.words)[b := Word(shm.tid, 1, old(shm.OwnEra()))]
                  && shm.era == BumpEra(old(shm.era), shm.tid))
      ensures shm.emb == old(shm.emb)
              || (shm.emb == old(shm.emb)[b := n]
                  && shm.words == old(shm.words)[b := Word(shm.tid, 1, old(shm.OwnEra()))])
      ensures !crashed ==> shm.emb == old(shm.emb)[b := n] && free == next[b] && used == old(used) + 1
                           && shm.words == old(shm.words)[b := Word(shm.tid, 1, old(shm.OwnEra()))]
    {
      if { case shm.mayStop => return true; case true => }
      used := used + 1;
      if { case shm.mayStop => return true; case true => }
      free := next[b];
      if { case shm.mayStop => return true; case true => }
      var info := Word(shm.tid, 1, shm.OwnEra());
      if { case shm.mayStop => return true; case true => }
      shm.era := BumpEra(shm.era, shm.tid);
      if { case shm.mayStop => return true; case true => }
      shm.words := shm.words[b := info];
      if { case shm.mayStop => return true; case true => }
      shm.emb := shm.emb[b := n];
      return false;
    }

    static lemma NotNull(m: Mem, b: Obj)
      requires Sound(m) && b in m.words
      ensures b != 0
    {
    }

    /** Allocate an object with n embedded references behind a fresh root slot. */
    method Malloc(n: nat) returns (crashed: bool, ghost stage: Stage)
      requires Ready(n)
      modifies this`rootUsed, this`rootFree, this`inUse, this`handles, this`used, this`free
      modifies shm`slots, shm`era, shm`words, shm`emb
      ensures crashed ==> shm.mayStop
      ensures Reached(stage, old(shm.Now()), shm.Now(), old(rootFree), old(free),
                      Word(shm.tid, 1, old(shm.OwnEra())), n)
      ensures Taken(old(rootFree), old(rootUsed), old(inUse), rootFree, rootUsed, inUse)
      ensures old(rootFree) in inUse || stage.Untouched?
      ensures handles == old(handles) || (handles == old(handles)[old(rootFree) := 0] && old(rootFree) in inUse)
              || (handles == old(handles)[old(rootFree) := 1] && !stage.Untouched?)
      ensures used == old(used) || (used == old(used) + 1 && !stage.Untouched?)
      ensures free == old(free) || (free == next[old(free)] && used == old(used) + 1)
      ensures shm.era == old(shm.era) || (shm.era == BumpEra(old(shm.era), shm.tid) && free == next[old(free)])
      ensures stage.Stamped? ==> free == next[old(free)] && shm.era == BumpEra(old(shm.era), shm.tid)
      ensures !crashed ==> stage == Stamped(n) && handles == old(handles)[old(rootFree) := 1] && used == old(used) + 1
    {
      hide Sound, IsRoot, NeedRedo, Newest;
      stage := Untouched;
      NotNull(shm.Now(), free);
      var t := rootFree;
      if { case shm.mayStop => return true, stage; case true => }
      crashed := BlockToRootRef(t);
      if crashed { return; }
      var b := free;
      if { case shm.mayStop => return true, stage; case true => }
      crashed := LinkBlock(t, b);
      assert old(handles)[t := 0][t := 1] == old(handles)[t := 1];
      if shm.slots != old(shm.slots) {
        stage := Held;
      }
      if crashed { return; }
      stage := Held;
      if { case shm.mayStop => return true, stage; case true => }
      crashed := BlockToObject(b, n);
      if shm.words != old(shm.words) {
        stage := Stamped(shm.emb[b]);
      }
    }

    /** An allocation, and if it stops, the replay of the client's newest record. Afterwards the graph is as
        before, up to the block that its root slot may hold without a count, or has the new object - unless
        the block was stamped and the replay empties its root slot: then it keeps a count that nobody
        holds. */
    method MallocAndRedo(n: nat, ghost rank: map<Obj, nat>, ghost top: nat)
      returns (crashed: bool, ghost stage: Stage, ghost hole: set<Slot>)
      requires Ready(n) && Ranked(shm.Now(), rank, top)
      modifies this`rootUsed, this`rootFree, this`inUse, this`handles, this`used, this`free
      modifies shm`slots, shm`era, shm`words, shm`emb
      ensures crashed ==> shm.mayStop
      ensures Taken(old(rootFree), old(rootUsed), old(inUse), rootFree, rootUsed, inUse)
      ensures old(rootFree) in inUse || stage.Untouched?
      ensures handles == old(handles) || (handles == old(handles)[old(rootFree) := 0] && old(rootFree) in inUse)
              || (handles == old(handles)[old(rootFree) := 1] && !stage.Untouched?)
      ensures used == old(used) || (used == old(used) + 1 && !stage.Untouched?)
      ensures free == old(free) || (free == next[old(free)] && used == old(used) + 1)
      ensures shm.era == old(shm.era) || (shm.era == BumpEra(old(shm.era), shm.tid) && free == next[old(free)])
      ensures stage.Stamped? ==> free == next[old(free)] && shm.era == BumpEra(old(shm.era), shm.tid)
      ensures shm.words == if stage.Stamped?
                           then old(shm.words)[old(free) := Word(shm.tid, 1, old(shm.OwnEra()))] else old(shm.words)
      ensures shm.emb == if stage.Stamped? then old(shm.emb)[old(free) := stage.n] else old(shm.emb)
      ensures shm.slots == if stage.Untouched? || (crashed && old(Stale(rootFree)))
                           then old(shm.slots) else old(shm.slots)[old(rootFree) := old(free)]
      ensures !crashed ==> handles == old(handles)[old(rootFree) := 1] && used == old(used) + 1
      ensures EraStep(old(shm.words), old(shm.era), shm.words, shm.era, shm.tid)
      ensures hole == {} || (hole == {old(rootFree)} && stage.Held?)
      ensures !crashed ==> stage == Stamped(n) && (shm.Between() <==> !old(Stale(rootFree)))
      ensures Unstamped(shm.Now(), hole)
      ensures crashed ==> (Sound(shm.View(hole)) <==> !(stage.Stamped? && old(Stale(rootFree))))
      ensures crashed && stage.Stamped? && old(Stale(rootFree)) ==>
                old(free) in shm.words && shm.words[old(free)].cnt == 1 && Holders(shm.slots, old(free)) == {}
      ensures !crashed || !(stage.Stamped? && old(Stale(rootFree))) ==>
                && Sound(shm.View(hole)) && Ranked(shm.View(hole), rank, top)
                && (if stage.Stamped?
                    then Allocated(old(shm.Now()), shm.View(hole), old(rootFree), old(free),
                                   Word(shm.tid, 1, old(shm.OwnEra())), stage.n)
                         && stage.n <= n
                    else shm.View(hole) == old(shm.Now()))
    {
      hide Sound, IsRoot, NeedRedo, Newest, Ranked, Cut, Unstamped, SharedMemory.Replayed, RowsBelow, EraStep;
      ghost var m0, t, b, w := shm.Now(), rootFree, free, Word(shm.tid, 1, shm.OwnEra());
      ghost var rec, stale := Newest(shm.logs), Stale(rootFree);
      crashed, stage := Malloc(n);
      ghost var m1 := shm.Now();
      hole := {};
      AllocationStep(m0.words, old(shm.era), shm.words, shm.era, shm.tid, b);
      RedoEffect(m0, old(shm.era), shm.tid, rec, t, b, stage, m1, shm.era, w, n);
      if crashed {
        shm.RedoRefCnt();
        hole := if stage.Held? && !stale then {t} else {};
      } else {
        RowsBumped(old(shm.era), shm.tid);
      }
      AfterRedo(stage, m0, m1, shm.Now(), t, b, w, n, crashed && stale, hole, rank, top);
    }

    lemma ReadyKnown(n: nat)
      requires Ready(n)
      ensures shm.Between() && Sound(shm.Now()) && Blank(shm.Now(), rootFree, free, n)
      ensures rootFree in shm.slots && free in shm.words && shm.words[free] == ZeroWord
      ensures rootFree in next && rootFree !in inUse && free in next && next[free] != free
      ensures next[free] != 0 ==> Dead(shm.Now(), next[free])
    {
    }

    /** An allocation that stops anywhere leaves nothing behind, provided the newest record is not stale: after
        replay and sweep exactly the objects that other clients' root slots reach have a count, as if the
        allocation had not begun. What died was handed over once; so was the block, if it was stamped, and
        then it was off the free list. */
    method MallocWithRecovery(n: nat, roots: seq<Slot>, ghost rank: map<Obj, nat>, ghost top: nat)
      returns (crashed: bool, ghost stage: Stage)
      requires Ready(n) && Ranked(shm.Now(), rank, top) && !Stale(rootFree)
      requires forall x :: x in roots <==> x in inUse
      requires forall x :: x in roots ==> x in shm.slots
      modifies this`rootUsed, this`rootFree, this`inUse, this`handles, this`used, this`free
      modifies shm`slots, shm`era, shm`words, shm`emb, shm`spurious, shm`freed
      ensures crashed ==> shm.mayStop
      ensures !crashed ==>
                && Allocated(old(shm.Now()), shm.Now(), old(rootFree), old(free),
                             Word(shm.tid, 1, old(shm.OwnEra())), n)
                && shm.Between() && Sound(shm.Now()) && shm.freed == old(shm.freed)
                && shm.era == BumpEra(old(shm.era), shm.tid) && inUse == old(inUse) + {old(rootFree)}
                && rootFree == next[old(rootFree)] && rootUsed == old(rootUsed) + 1 && used == old(used) + 1
                && free == next[old(free)] && handles == old(handles)[old(rootFree) := 1]
      ensures crashed ==>
                && inUse == {} && Sound(shm.Now())
                && (forall o :: o in old(shm.words) ==>
                      (Live(shm.Now(), o) <==> Reachable(Cut(old(shm.Now()), SlotSet(roots)), o)))
                && HandedOver(old(shm.Now()), shm.Now(), old(shm.freed), shm.freed,
                              if stage.Stamped? then {old(free)} else {})
                && (stage.Stamped? ==> free == next[old(free)])
      ensures EraStep(old(shm.words), old(shm.era), shm.words, shm.era, shm.tid)
    {
      hide Sound, IsRoot, NeedRedo, Newest, Ranked, Allocated, Cut, Unstamped, Live, Reachable, Freed, Swept,
           HandedOver, Dead, EraStep, Unlinks, Spends, Emptied, StampsBelow, Ready, Blank, RowsBelow, Shm.Between,
           Harmless;
      ReadyKnown(n);
      ghost var hole;
      ghost var m0, b, f0, w := shm.Now(), free, shm.freed, Word(shm.tid, 1, shm.OwnEra());
      ghost var w0, r0 := shm.words, shm.era;
      var t := rootFree;
      shm.BetweenStamps();
      crashed, stage, hole := MallocAndRedo(n, rank, top);
      if crashed {
        var all := if t in inUse then roots + [t] else roots;
        var firstFree := if free == 0 then {} else {free};
        ghost var n1, r1 := shm.Now(), shm.era;
        SameKeys(m0, n1, hole, stage, t, b, w);
        AllSlots(roots, t, all);
        FirstFreeDead(m0, n1, hole, stage, t, b, w, free, next[b]);
        shm.RecoverRoots(all, firstFree, hole, rank, top);
        SpendsEras(w0, r0, n1.words, r1, shm.words, shm.era, shm.tid, |Emptied(Cut(n1, hole), shm.Now())|);
        SweptAfter(n1, hole, shm.Now(), SlotSet(all));
        AfterSweep(m0, n1, hole, shm.Now(), stage, t, b, w, n, SlotSet(roots), SlotSet(all), f0, shm.freed);
        inUse := {};
      } else {
        CutNone(shm.Now());
      }
    }
  }
}
