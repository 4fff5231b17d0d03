/** The object graph: counted words, embedded references, and what releasing one slot does to it. */
module ObjectGraph {
  import opened RefTypes

  const OBJ_HEADER: nat := 24

  /** Offset of the k-th embedded reference of the object at offset o. */
  function EmbSlot(o: Obj, k: nat): Slot {
    o + OBJ_HEADER + 8 * k
  }

  datatype Mem = Mem(words: map<Obj, Word>, emb: map<Obj, nat>, slots: map<Slot, Obj>)

  /** Slot x is the k-th embedded reference of object p. */
  ghost predicate EmbeddedIn(m: Mem, x: Slot, p: Obj, k: nat) {
    p in m.emb && k < m.emb[p] && x == EmbSlot(p, k)
  }

  ghost predicate IsRoot(m: Mem, x: Slot) {
    forall p, k :: !EmbeddedIn(m, x, p, k)
  }

  ghost predicate Shape(m: Mem) {
    && 0 !in m.words && m.words.Keys == m.emb.Keys
    && (forall p, k :: p in m.emb && k < m.emb[p] ==> EmbSlot(p, k) in m.slots)
    && (forall x, p, k, q, l :: EmbeddedIn(m, x, p, k) && EmbeddedIn(m, x, q, l) ==> p == q)
    && (forall x :: x in m.slots ==> m.slots[x] == 0 || m.slots[x] in m.words)
  }

  /** Counts are in-degrees. */
  ghost predicate Exact(m: Mem) {
    forall o :: o in m.words ==> m.words[o].cnt == |Holders(m.slots, o)|
  }

  /** A dead object refers to nothing. */
  ghost predicate Clean(m: Mem) {
    forall p, k :: p in m.words && p in m.emb && m.words[p].cnt == 0 && k < m.emb[p] && EmbSlot(p, k) in m.slots ==>
      m.slots[EmbSlot(p, k)] == 0
  }

  ghost predicate Sound(m: Mem) {
    Shape(m) && Exact(m) && Clean(m)
  }

  /** The graph is acyclic: references go down in a rank below `top`. */
  ghost predicate Ranked(m: Mem, rank: map<Obj, nat>, top: nat) {
    && (forall p :: p in m.words ==> p in rank && rank[p] < top)
    && (forall x, p, k :: EmbeddedIn(m, x, p, k) && x in m.slots && m.slots[x] in m.words && p in m.words ==>
          rank[m.slots[x]] < rank[p])
  }

  // ----- one unlink

  /** Slot r is emptied and its object loses one count; at zero the header may have been wiped. */
  ghost predicate Dropped(m: Mem, m': Mem, r: Slot) {
    && r in m.slots && m.slots[r] in m.words
    && m'.slots == m.slots[r := 0]
    && m'.words.Keys == m.words.Keys && m'.emb.Keys == m.emb.Keys
    && (forall p :: p in m.words && p != m.slots[r] ==> m'.words[p] == m.words[p])
    && (forall p :: p in m.emb && p != m.slots[r] ==> m'.emb[p] == m.emb[p])
    && m'.words[m.slots[r]].cnt == m.words[m.slots[r]].cnt - 1
    && (m.slots[r] in m.emb ==>
          m'.emb[m.slots[r]] == m.emb[m.slots[r]]
          || (m'.emb[m.slots[r]] == 0 && m'.words[m.slots[r]].cnt == 0))
  }

  lemma DropsOne(m: Mem, m': Mem, r: Slot, w: Word)
    requires r in m.slots && m.slots[r] in m.words && m.slots[r] in m.emb && w.cnt == m.words[m.slots[r]].cnt - 1
    requires m'.words == m.words[m.slots[r] := w] && m'.slots == m.slots[r := 0]
    requires m'.emb == m.emb || (m'.emb == m.emb[m.slots[r] := 0] && w.cnt == 0)
    ensures Dropped(m, m', r) && m'.words[m.slots[r]] == w
  {
  }

  ghost predicate Childless(m: Mem, o: Obj) {
    forall k :: o in m.emb && k < m.emb[o] && EmbSlot(o, k) in m.slots ==> m.slots[EmbSlot(o, k)] == 0
  }

  lemma HolderCount(slots: map<Slot, Obj>, r: Slot)
    requires r in slots && slots[r] != 0
    ensures |Holders(slots[r := 0], slots[r])| == |Holders(slots, slots[r])| - 1
    ensures forall o :: o != slots[r] && o != 0 ==> Holders(slots[r := 0], o) == Holders(slots, o)
  {
    assert Holders(slots, slots[r]) == Holders(slots[r := 0], slots[r]) + {r};
  }

  lemma DropShape(m: Mem, m': Mem, r: Slot)
    requires Shape(m) && Dropped(m, m', r)
    ensures Shape(m')
  {
    forall p, k | p in m'.emb && k < m'.emb[p] ensures EmbSlot(p, k) in m'.slots {
      assert p in m.emb.Keys && k < m.emb[p];
    }
    forall x, p, k, q, l | EmbeddedIn(m', x, p, k) && EmbeddedIn(m', x, q, l) ensures p == q {
      assert p in m.emb.Keys && q in m.emb.Keys;
      assert EmbeddedIn(m, x, p, k) && EmbeddedIn(m, x, q, l);
    }
  }

  lemma DropExact(m: Mem, m': Mem, r: Slot)
    requires Exact(m) && 0 !in m.words && Dropped(m, m', r)
    ensures Exact(m')
  {
    HolderCount(m.slots, r);
    forall o | o in m'.words ensures m'.words[o].cnt == |Holders(m'.slots, o)| {
      assert o in m.words.Keys;
    }
  }

  lemma DropClean(m: Mem, m': Mem, r: Slot)
    requires Clean(m) && Dropped(m, m', r)
    requires m.words[m.slots[r]].cnt == 1 ==> Childless(m, m.slots[r])
    ensures Clean(m')
  {
    forall p, k | p in m'.words && p in m'.emb && m'.words[p].cnt == 0 && k < m'.emb[p] && EmbSlot(p, k) in m'.slots
      ensures m'.slots[EmbSlot(p, k)] == 0
    {
      assert p in m.words.Keys && p in m.emb.Keys;
    }
  }

  /** Unlinking keeps the graph sound, provided the last reference goes only after the children. */
  lemma DropSound(m: Mem, m': Mem, r: Slot)
    requires Sound(m) && Dropped(m, m', r)
    requires m.words[m.slots[r]].cnt == 1 ==> Childless(m, m.slots[r])
    ensures Sound(m')
  {
    hide Shape, Exact, Clean, Dropped, Childless;
    assert 0 !in m.words by { ZeroOut(m); }
    DropShape(m, m', r);
    DropExact(m, m', r);
    DropClean(m, m', r);
  }

  lemma ZeroOut(m: Mem)
    requires Shape(m)
    ensures 0 !in m.words
  {
  }

  // ----- releasing everything that only slot r keeps alive

  ghost predicate SameDomains(m: Mem, m': Mem) {
    m'.words.Keys == m.words.Keys && m'.emb.Keys == m.emb.Keys && m'.slots.Keys == m.slots.Keys
  }

  ghost predicate Dead(m: Mem, o: Obj) {
    o in m.words && m.words[o].cnt == 0
  }

  /** A slot is left alone or emptied; emptied are those of R and slots of doomed or dead objects. */
  ghost predicate SlotsShrink(m: Mem, m': Mem, R: set<Slot>, doomed: set<Obj>) {
    forall x :: x in m.slots && x in m'.slots && m'.slots[x] != m.slots[x] ==>
      m'.slots[x] == 0 && (x in R || exists p, k :: EmbeddedIn(m, x, p, k) && (p in doomed || Dead(m', p)))
  }

  /** A header is left alone or wiped; wiped are dead objects with empty slots. */
  ghost predicate HeadersKept(m: Mem, m': Mem) {
    forall p :: p in m.emb && p in m'.emb && m'.emb[p] != m.emb[p] ==>
      m'.emb[p] == 0 && Dead(m', p)
      && forall k :: k < m.emb[p] && EmbSlot(p, k) in m'.slots ==> m'.slots[EmbSlot(p, k)] == 0
  }

  /** The doomed objects hang from slot r alone. */
  ghost predicate HangsFrom(m: Mem, r: Slot, doomed: set<Obj>) {
    forall x :: x in m.slots && m.slots[x] in doomed ==>
      x == r || exists q, k :: q in doomed && EmbeddedIn(m, x, q, k)
  }

  /** The release of slot r is under way from m to m'. */
  ghost predicate Progress(m: Mem, m': Mem, r: Slot, doomed: set<Obj>) {
    && SameDomains(m, m') && Sound(m') && 0 !in doomed
    && SlotsShrink(m, m', {r}, doomed) && HeadersKept(m, m') && HangsFrom(m', r, doomed)
  }

  /** The slots of R are released, and what only they kept alive. */
  ghost predicate Swept(m: Mem, m': Mem, R: set<Slot>) {
    && SameDomains(m, m') && Sound(m') && SlotsShrink(m, m', R, {}) && HeadersKept(m, m')
    && forall x :: x in R ==> x in m'.slots && m'.slots[x] == 0
  }

  /** The release of slot r is complete. */
  ghost predicate Collected(m: Mem, m': Mem, r: Slot) {
    Swept(m, m', {r})
  }

  lemma HeldIsLive(m: Mem, x: Slot)
    requires Exact(m) && x in m.slots && m.slots[x] in m.words
    ensures m.words[m.slots[x]].cnt > 0
  {
    assert x in Holders(m.slots, m.slots[x]);
  }

  lemma LiveIsHeld(m: Mem, o: Obj) returns (x: Slot)
    requires Exact(m) && o in m.words && m.words[o].cnt > 0
    ensures x in m.slots && m.slots[x] == o
  {
    assert Holders(m.slots, o) != {};
    x :| x in Holders(m.slots, o);
  }

  /** The slot of a dead object is empty, even if the header was wiped since m. */
  lemma DeadSlotEmpty(m: Mem, m': Mem, x: Slot, p: Obj, k: nat)
    requires SameDomains(m, m') && Clean(m') && HeadersKept(m, m')
    requires EmbeddedIn(m, x, p, k) && x in m'.slots && Dead(m', p)
    ensures m'.slots[x] == 0
  {
    assert p in m'.emb.Keys;
  }

  /** Once slot r is released, what hung from it alone is dead. */
  lemma {:induction false} DoomedDie(m1: Mem, m2: Mem, R: set<Slot>, r: Slot, doomed: set<Obj>, p: Obj,
                                     rank: map<Obj, nat>, top: nat)
    requires Shape(m1) && Ranked(m1, rank, top) && HangsFrom(m1, r, doomed) && 0 !in doomed
    requires Swept(m1, m2, R) && r in R && p in doomed && p in m1.words
    ensures Dead(m2, p)
    decreases top - rank[p]
  {
    assert p in m2.words.Keys;
    if m2.words[p].cnt > 0 {
      var x := LiveIsHeld(m2, p);
      assert x in m1.slots.Keys && m1.slots[x] == p;
      var q, k :| q in doomed && EmbeddedIn(m1, x, q, k);
      assert q in m1.words.Keys;
      DoomedDie(m1, m2, R, r, doomed, q, rank, top);
      DeadSlotEmpty(m1, m2, x, q, k);
    }
  }

  /** A release of slot r that stopped half-way, and then a sweep of slots with r among them, is that sweep. */
  lemma Resume(m: Mem, m1: Mem, m2: Mem, R: set<Slot>, r: Slot, doomed: set<Obj>, rank: map<Obj, nat>, top: nat)
    requires Progress(m, m1, r, doomed) && Swept(m1, m2, R) && r in R
    requires Sound(m) && Ranked(m1, rank, top)
    ensures Swept(m, m2, R)
  {
    hide Clean, Exact;
    forall p | p in doomed && p in m.words ensures Dead(m2, p) {
      assert p in m1.words.Keys;
      DoomedDie(m1, m2, R, r, doomed, p, rank, top);
    }
    StaysDead(m1, m2, R, {});
    ResumeSlots(m, m1, m2, {r}, R, doomed);
    assert {r} + R == R;
    ResumeHeaders(m, m1, m2);
  }

  /** Two sweeps, one after the other, are one sweep. */
  lemma SweepOn(m: Mem, m1: Mem, m2: Mem, R1: set<Slot>, R2: set<Slot>)
    requires Sound(m) && Swept(m, m1, R1) && Swept(m1, m2, R2)
    ensures Swept(m, m2, R1 + R2)
  {
    hide Clean, Exact;
    StaysDead(m1, m2, R2, {});
    ResumeSlots(m, m1, m2, R1, R2, {});
    ResumeHeaders(m, m1, m2);
    forall x | x in R1 ensures x in m2.slots && m2.slots[x] == 0 {
      assert x in m1.slots.Keys;
    }
  }

  lemma StaysDead(m1: Mem, m2: Mem, R: set<Slot>, doomed: set<Obj>)
    requires Sound(m1) && SameDomains(m1, m2) && Sound(m2) && SlotsShrink(m1, m2, R, doomed)
    ensures forall p :: Dead(m1, p) ==> Dead(m2, p)
  {
    forall p | Dead(m1, p) ensures Dead(m2, p) {
      assert p in m2.words.Keys;
      if m2.words[p].cnt > 0 {
        var x := LiveIsHeld(m2, p);
        assert x in m1.slots.Keys && m1.slots[x] == p;
        HeldIsLive(m1, x);
      }
    }
  }

  lemma ResumeSlots(m: Mem, m1: Mem, m2: Mem, R1: set<Slot>, R2: set<Slot>, doomed: set<Obj>)
    requires SameDomains(m, m1) && SameDomains(m1, m2) && m.words.Keys == m.emb.Keys
    requires SlotsShrink(m, m1, R1, doomed) && SlotsShrink(m1, m2, R2, {}) && HeadersKept(m, m1)
    requires forall p :: Dead(m1, p) ==> Dead(m2, p)
    requires forall p :: p in doomed && p in m.words ==> Dead(m2, p)
    ensures SlotsShrink(m, m2, R1 + R2, {})
  {
    forall x | x in m.slots && x in m2.slots && m2.slots[x] != m.slots[x]
      ensures m2.slots[x] == 0 && (x in R1 + R2 || exists p, k :: EmbeddedIn(m, x, p, k) && Dead(m2, p))
    {
      assert x in m1.slots.Keys;
      if m1.slots[x] != m.slots[x] {
        if x !in R1 {
          var p, k :| EmbeddedIn(m, x, p, k) && (p in doomed || Dead(m1, p));
          assert p in m.words.Keys && Dead(m2, p);
        }
      } else if x !in R2 {
        var p, k :| EmbeddedIn(m1, x, p, k) && Dead(m2, p);
        assert p in m.emb.Keys && EmbeddedIn(m, x, p, k);
      }
    }
  }

  lemma ResumeHeaders(m: Mem, m1: Mem, m2: Mem)
    requires SameDomains(m, m1) && SameDomains(m1, m2) && HeadersKept(m, m1) && HeadersKept(m1, m2)
    requires forall x :: x in m1.slots && x in m2.slots && m1.slots[x] == 0 ==> m2.slots[x] == 0
    requires forall p :: Dead(m1, p) ==> Dead(m2, p)
    ensures HeadersKept(m, m2)
  {
    forall p | p in m.emb && p in m2.emb && m2.emb[p] != m.emb[p]
      ensures m2.emb[p] == 0 && Dead(m2, p)
      ensures forall k :: k < m.emb[p] && EmbSlot(p, k) in m2.slots ==> m2.slots[EmbSlot(p, k)] == 0
    {
      assert p in m1.emb.Keys;
      forall k | k < m.emb[p] && EmbSlot(p, k) in m2.slots ensures m2.slots[EmbSlot(p, k)] == 0 {
        assert EmbSlot(p, k) in m1.slots.Keys;
      }
    }
  }

  // ----- some slots left out of account

  /** The memory with the slots of R read as empty. */
  ghost function Cut(m: Mem, R: set<Slot>): (c: Mem)
    ensures c.slots.Keys == m.slots.Keys && c.words == m.words && c.emb == m.emb
  {
    m.(slots := map x | x in m.slots :: if x in R then 0 else m.slots[x])
  }

  lemma CutNone(m: Mem)
    ensures Cut(m, {}) == m
  {
    assert Cut(m, {}).slots == m.slots;
  }

  /** The slots of `hole` are root slots that hold objects without a count: the client stopped between
      storing the slot and stamping the object it allocated. */
  ghost predicate Unstamped(m: Mem, hole: set<Slot>) {
    forall x :: x in hole ==> x in m.slots && IsRoot(m, x) && Dead(m, m.slots[x])
  }

  /** What an unlink outside of the hole does is the same with the hole left out of account. */
  lemma DroppedBeside(m: Mem, m': Mem, r: Slot, hole: set<Slot>)
    requires Dropped(m, m', r) && r !in hole && Unstamped(m, hole) && m.words[m.slots[r]].cnt > 0
    ensures Dropped(Cut(m, hole), Cut(m', hole), r) && Unstamped(m', hole)
    ensures forall x :: x in hole ==> x in m.slots && x in m'.slots && m'.slots[x] == m.slots[x]
  {
    assert Cut(m', hole).slots == Cut(m, hole).slots[r := 0];
    forall x | x in hole ensures IsRoot(m', x) && Dead(m', m'.slots[x]) {
      assert m.slots[x] in m'.words.Keys;
      forall p, k ensures EmbeddedIn(m', x, p, k) ==> EmbeddedIn(m, x, p, k) {
        assert p in m.emb.Keys <==> p in m'.emb.Keys;
      }
    }
  }

  /** Wiping a slot that is left out of account, or reads as empty anyway. */
  lemma WipeBeside(m: Mem, r: Slot, hole: set<Slot>)
    requires r in m.slots && Cut(m, hole).slots[r] == 0 && Unstamped(m, hole)
    ensures Cut(m.(slots := m.slots[r := 0]), hole - {r}) == Cut(m, hole)
    ensures Unstamped(m.(slots := m.slots[r := 0]), hole - {r})
  {
    var m' := m.(slots := m.slots[r := 0]);
    assert Cut(m', hole - {r}).slots == Cut(m, hole).slots;
    forall x | x in hole - {r} ensures IsRoot(m', x) {
      assert forall p, k :: EmbeddedIn(m', x, p, k) <==> EmbeddedIn(m, x, p, k);
    }
  }
}
