/** The steps of a cascading release, on values. */
module Cascade {
  import opened RefTypes
  import opened ObjectGraph
  import opened Tracing

  /** Objects that lost their last count are below the bound. */
  ghost predicate OnlyBelow(m: Mem, m': Mem, rank: map<Obj, nat>, bound: nat) {
    forall p :: p in m.words && m.words[p].cnt > 0 && Dead(m', p) ==> p in rank && rank[p] < bound
  }

  /** Object o, held by slot r alone, is being emptied: its first n children are released. */
  ghost predicate Emptying(m0: Mem, m: Mem, r: Slot, o: Obj, n: nat) {
    && Progress(m0, m, r, {o})
    && r in m.slots && m.slots[r] == o && o in m.words && m.words[o].cnt == 1
    && o in m.emb && o in m0.emb && m.emb[o] == m0.emb[o]
    && forall k: nat :: k < n && k < m.emb[o] && EmbSlot(o, k) in m.slots ==> m.slots[EmbSlot(o, k)] == 0
  }

  lemma OnlyHolder(m: Mem, r: Slot, o: Obj, x: Slot)
    requires Exact(m) && o in m.words && m.words[o].cnt == 1
    requires r in m.slots && m.slots[r] == o && x in m.slots && m.slots[x] == o
    ensures x == r
  {
    var h := Holders(m.slots, o);
    assert r in h && x in h;
    assert |h - {r}| == 0;
  }

  lemma Begin(m: Mem, r: Slot, o: Obj)
    requires Sound(m) && r in m.slots && m.slots[r] == o && o in m.words && m.words[o].cnt == 1
    ensures Emptying(m, m, r, o, 0)
  {
    forall x | x in m.slots && m.slots[x] in {o} ensures x == r {
      OnlyHolder(m, r, o, x);
    }
    assert HangsFrom(m, r, {o});
  }

  lemma NothingYet(m: Mem, r: Slot)
    requires Sound(m)
    ensures Progress(m, m, r, {})
  {
  }

  /** The child's release, finished or not, seen from the object that is being emptied. */
  lemma ChildStep(m0: Mem, m: Mem, m': Mem, r: Slot, o: Obj, n: nat, doomed: set<Obj>, rank: map<Obj, nat>, top: nat)
    requires Emptying(m0, m, r, o, n) && n < m.emb[o] && Sound(m0) && Ranked(m, rank, top)
    requires Progress(m, m', EmbSlot(o, n), doomed) && OnlyBelow(m, m', rank, rank[o])
    ensures Progress(m0, m', r, doomed + {o})
    ensures o in m'.words && m'.words[o].cnt > 0 && m'.emb[o] == m.emb[o]
  {
    hide Exact, Clean;
    assert o in m'.words.Keys && o in m'.emb.Keys;
    assert !Dead(m', o);
    StaysDead(m, m', {EmbSlot(o, n)}, doomed);
    StepSlots(m0, m, m', r, o, n, doomed);
    ResumeHeaders(m0, m, m');
    StepHangs(m0, m, m', r, o, n, doomed, rank, top);
  }

  lemma StepSlots(m0: Mem, m: Mem, m': Mem, r: Slot, o: Obj, n: nat, doomed: set<Obj>)
    requires SameDomains(m0, m) && SameDomains(m, m') && m0.words.Keys == m0.emb.Keys
    requires SlotsShrink(m0, m, {r}, {o}) && SlotsShrink(m, m', {EmbSlot(o, n)}, doomed) && HeadersKept(m0, m)
    requires o in m0.emb && n < m0.emb[o]
    requires forall p :: Dead(m, p) ==> Dead(m', p)
    ensures SlotsShrink(m0, m', {r}, doomed + {o})
  {
    forall x | x in m0.slots && x in m'.slots && m'.slots[x] != m0.slots[x]
      ensures m'.slots[x] == 0
      ensures x == r || exists p, k :: EmbeddedIn(m0, x, p, k) && (p in doomed + {o} || Dead(m', p))
    {
      assert x in m.slots.Keys;
      if m.slots[x] != m0.slots[x] {
        if x != r {
          var p, k :| EmbeddedIn(m0, x, p, k) && (p in {o} || Dead(m, p));
          assert p in doomed + {o} || Dead(m', p);
        }
      } else if x == EmbSlot(o, n) {
        assert EmbeddedIn(m0, x, o, n);
      } else {
        var p, k :| EmbeddedIn(m, x, p, k) && (p in doomed || Dead(m', p));
        assert p in m0.emb.Keys && EmbeddedIn(m0, x, p, k);
        assert p in doomed + {o} || Dead(m', p);
      }
    }
  }

  lemma StepHangs(m0: Mem, m: Mem, m': Mem, r: Slot, o: Obj, n: nat, doomed: set<Obj>, rank: map<Obj, nat>, top: nat)
    requires Emptying(m0, m, r, o, n) && n < m.emb[o] && Ranked(m, rank, top)
    requires Progress(m, m', EmbSlot(o, n), doomed) && o in m'.emb && m'.emb[o] == m.emb[o]
    ensures HangsFrom(m', r, doomed + {o})
  {
    forall x | x in m'.slots && m'.slots[x] in doomed + {o}
      ensures x == r || exists q, k :: q in doomed + {o} && EmbeddedIn(m', x, q, k)
    {
      assert x in m.slots.Keys;
      if m'.slots[x] == o {
        assert m.slots[x] == o;
        OnlyHolder(m, r, o, x);
      } else if x == EmbSlot(o, n) {
        assert EmbeddedIn(m', x, o, n);
      } else {
        var q, k :| q in doomed && EmbeddedIn(m', x, q, k);
        assert q in doomed + {o};
      }
    }
  }

  /** A child's release that finished leaves one child fewer. */
  lemma ChildDone(m0: Mem, m: Mem, m': Mem, r: Slot, o: Obj, n: nat, rank: map<Obj, nat>, top: nat)
    requires Emptying(m0, m, r, o, n) && n < m.emb[o] && Sound(m0) && Ranked(m, rank, top)
    requires Collected(m, m', EmbSlot(o, n)) && OnlyBelow(m, m', rank, rank[o])
    ensures Emptying(m0, m', r, o, n + 1)
  {
    hide Clean;
    ChildStep(m0, m, m', r, o, n, {}, rank, top);
    assert {} + {o} == {o};
    StillHeld(m, m', r, o, EmbSlot(o, n));
    forall k: nat | k < n + 1 && k < m'.emb[o] && EmbSlot(o, k) in m'.slots ensures m'.slots[EmbSlot(o, k)] == 0 {
      assert EmbSlot(o, k) in m.slots.Keys;
    }
  }

  /** The object is still held by slot r and nothing else. */
  lemma StillHeld(m: Mem, m': Mem, r: Slot, o: Obj, c: Slot)
    requires Exact(m) && o in m.words && m.words[o].cnt == 1 && r in m.slots && m.slots[r] == o && o != 0
    requires Progress(m, m', c, {}) && o in m'.words && m'.words[o].cnt > 0
    ensures r in m'.slots && m'.slots[r] == o && m'.words[o].cnt == 1
  {
    forall x | x in m'.slots && m'.slots[x] == o ensures x in m.slots && m.slots[x] == o && x == r {
      assert x in m.slots.Keys && m.slots[x] == o;
      OnlyHolder(m, r, o, x);
    }
    var x := LiveIsHeld(m', o);
    OneHolder(m, m', r, o);
  }

  lemma OneHolder(m: Mem, m': Mem, r: Slot, o: Obj)
    requires Exact(m) && Exact(m') && o in m.words && m.words[o].cnt == 1 && o in m'.words && o != 0
    requires r in m.slots && m.slots[r] == o && r in m'.slots && m'.slots[r] == o
    requires forall x :: x in m'.slots && m'.slots[x] == o ==> x in m.slots && m.slots[x] == o
    ensures m'.words[o].cnt == 1
  {
    forall x | x in Holders(m'.slots, o) ensures x in {r} {
      OnlyHolder(m, r, o, x);
    }
    assert Holders(m'.slots, o) == {r};
  }

  /** The last reference goes when the children are gone. */
  lemma Finish(m0: Mem, m: Mem, m': Mem, r: Slot, o: Obj)
    requires o in m.emb && Emptying(m0, m, r, o, m.emb[o]) && Sound(m0) && Dropped(m, m', r)
    ensures Collected(m0, m', r) && OnlyDie(m, m')
  {
    DropSound(m, m', r);
    DropKeeps(m, m', r);
    StaysDead(m, m', {r}, {});
    FinishSlots(m0, m, m', r, o);
    ResumeHeaders(m0, m, m');
  }

  lemma DropKeeps(m: Mem, m': Mem, r: Slot)
    requires Sound(m) && Sound(m') && Dropped(m, m', r)
    requires m.words[m.slots[r]].cnt == 1 ==> Childless(m, m.slots[r])
    ensures Progress(m, m', r, {})
  {
    var o := m.slots[r];
    forall k | o in m.emb && k < m.emb[o] && EmbSlot(o, k) in m'.slots && m'.emb[o] != m.emb[o]
      ensures m'.slots[EmbSlot(o, k)] == 0
    {
      assert EmbSlot(o, k) in m.slots.Keys;
    }
  }

  lemma FinishSlots(m0: Mem, m: Mem, m': Mem, r: Slot, o: Obj)
    requires SameDomains(m0, m) && SlotsShrink(m0, m, {r}, {o}) && r in m.slots && m'.slots == m.slots[r := 0]
    requires Dead(m', o) && forall p :: Dead(m, p) ==> Dead(m', p)
    ensures SlotsShrink(m0, m', {r}, {})
  {
    forall x | x in m0.slots && x in m'.slots && m'.slots[x] != m0.slots[x]
      ensures m'.slots[x] == 0 && (x == r || exists p, k :: EmbeddedIn(m0, x, p, k) && Dead(m', p))
    {
      if x != r {
        var p, k :| EmbeddedIn(m0, x, p, k) && (p in {o} || Dead(m, p));
        assert Dead(m', p);
      }
    }
  }

  /** A reference that is not the last goes alone. */
  lemma DropOne(m: Mem, m': Mem, r: Slot)
    requires Sound(m) && Dropped(m, m', r) && m.words[m.slots[r]].cnt > 1
    ensures Collected(m, m', r) && OnlyDie(m, m')
  {
    DropSound(m, m', r);
    DropKeeps(m, m', r);
    StaysDead(m, m', {r}, {});
  }

  lemma BelowTrans(m0: Mem, m1: Mem, m2: Mem, rank: map<Obj, nat>, b1: nat, b2: nat)
    requires OnlyBelow(m0, m1, rank, b1) && OnlyBelow(m1, m2, rank, b2) && b1 <= b2
    requires m1.words.Keys == m0.words.Keys
    ensures OnlyBelow(m0, m2, rank, b2)
  {
    forall p | p in m0.words && m0.words[p].cnt > 0 && Dead(m2, p) ensures p in rank && rank[p] < b2 {
      assert p in m1.words.Keys;
    }
  }

  lemma DropBelow(m: Mem, m': Mem, r: Slot, rank: map<Obj, nat>, top: nat)
    requires Sound(m) && Dropped(m, m', r) && Ranked(m, rank, top)
    ensures m.slots[r] in rank && OnlyBelow(m, m', rank, rank[m.slots[r]] + 1)
  {
  }

  lemma SameBelow(m: Mem, rank: map<Obj, nat>, bound: nat)
    ensures OnlyBelow(m, m, rank, bound)
  {
  }

  lemma RaiseBelow(m: Mem, m': Mem, rank: map<Obj, nat>, b1: nat, b2: nat)
    requires OnlyBelow(m, m', rank, b1) && b1 <= b2
    ensures OnlyBelow(m, m', rank, b2)
  {
  }

  lemma KnownObject(m: Mem, r: Slot, rank: map<Obj, nat>, top: nat)
    requires Sound(m) && Ranked(m, rank, top) && r in m.slots && m.slots[r] != 0
    ensures m.slots[r] in m.words && m.slots[r] in m.emb && m.slots[r] in rank && m.words[m.slots[r]].cnt > 0
  {
    assert m.slots[r] in m.words.Keys;
    HeldIsLive(m, r);
  }

  lemma CollectedEmpty(m: Mem, r: Slot)
    requires Sound(m) && r in m.slots && m.slots[r] == 0
    ensures Collected(m, m, r)
  {
  }

  lemma Underway(m: Mem, m': Mem, r: Slot)
    requires Collected(m, m', r)
    ensures Progress(m, m', r, {})
  {
  }

  /** What is known while object o is being emptied. */
  lemma WhileEmptying(m0: Mem, m: Mem, r: Slot, o: Obj, n: nat)
    requires Emptying(m0, m, r, o, n) && Sound(m0)
    ensures OnlyDie(m0, m)
    ensures Progress(m0, m, r, {o}) && Sound(m) && Shape(m) && m.words.Keys == m0.words.Keys
    ensures r in m.slots && m.slots[r] == o && o in m.words && m.words[o].cnt == 1
    ensures o in m0.emb && o in m.emb && m.emb[o] == m0.emb[o]
  {
    StaysDead(m0, m, {r}, {o});
  }

  /** The child of an object hangs strictly lower. */
  lemma ChildSlot(m: Mem, o: Obj, n: nat, rank: map<Obj, nat>, top: nat)
    requires Shape(m) && Ranked(m, rank, top) && o in m.words && o in m.emb && n < m.emb[o]
    ensures EmbSlot(o, n) in m.slots && o in rank
    ensures m.slots[EmbSlot(o, n)] in m.words ==>
              m.slots[EmbSlot(o, n)] in rank && rank[m.slots[EmbSlot(o, n)]] < rank[o]
  {
    assert EmbeddedIn(m, EmbSlot(o, n), o, n);
  }

  lemma KeepsDomains(m: Mem, m': Mem, r: Slot, doomed: set<Obj>)
    requires Progress(m, m', r, doomed)
    ensures m'.slots.Keys == m.slots.Keys && Sound(m')
  {
  }

  // ----- what is handed to the block allocator

  ghost predicate Died(m: Mem, m': Mem, o: Obj) {
    Live(m, o) && Dead(m', o)
  }

  /** The objects handed over are distinct; with those in `left` they are exactly the ones that died. */
  ghost predicate Freed(m: Mem, m': Mem, f: seq<Obj>, f': seq<Obj>, left: set<Obj>) {
    && f <= f'
    && (forall i, j :: |f| <= i < j < |f'| ==> f'[i] != f'[j])
    && (forall o :: Died(m, m', o) <==> o in f'[|f|..] || o in left)
    && (forall o :: o in left ==> o !in f'[|f|..])
  }

  ghost predicate OnlyDie(m: Mem, m': Mem) {
    m'.words.Keys == m.words.Keys && forall p :: Dead(m, p) ==> Dead(m', p)
  }

  lemma SameDead(m: Mem)
    ensures OnlyDie(m, m)
  {
  }

  lemma ProgressOnlyDie(m: Mem, m': Mem, r: Slot, doomed: set<Obj>)
    requires Sound(m) && Progress(m, m', r, doomed)
    ensures OnlyDie(m, m')
  {
    StaysDead(m, m', {r}, doomed);
  }

  lemma FreedNone(m: Mem, f: seq<Obj>)
    ensures Freed(m, m, f, f, {})
  {
  }

  lemma DiedTrans(m0: Mem, m1: Mem, m2: Mem, o: Obj)
    requires OnlyDie(m0, m1) && OnlyDie(m1, m2)
    ensures Died(m0, m2, o) <==> Died(m0, m1, o) || Died(m1, m2, o)
    ensures !(Died(m0, m1, o) && Died(m1, m2, o))
  {
    assert o in m0.words.Keys <==> o in m1.words.Keys;
    assert o in m1.words.Keys <==> o in m2.words.Keys;
    if o in m0.words {
      assert Live(m0, o) <==> !Dead(m0, o);
      assert Live(m1, o) <==> !Dead(m1, o);
    }
  }

  lemma FreedTrans(m0: Mem, m1: Mem, m2: Mem, f0: seq<Obj>, f1: seq<Obj>, f2: seq<Obj>, left1: set<Obj>,
                   left2: set<Obj>)
    requires OnlyDie(m0, m1) && OnlyDie(m1, m2)
    requires Freed(m0, m1, f0, f1, left1) && Freed(m1, m2, f1, f2, left2)
    ensures Freed(m0, m2, f0, f2, left1 + left2)
  {
    hide OnlyDie, Died;
    var handed := f2[|f0|..];
    assert handed == f1[|f0|..] + f2[|f1|..];
    forall o ensures Died(m0, m2, o) <==> o in handed || o in left1 + left2 {
      DiedTrans(m0, m1, m2, o);
    }
    forall o | o in left1 + left2 ensures o !in handed {
      DiedTrans(m0, m1, m2, o);
    }
    forall i, j | |f0| <= i < j < |f2| ensures f2[i] != f2[j] {
      DiedTrans(m0, m1, m2, f2[i]);
      if i < |f1| <= j {
        assert f2[i] == f1[|f0|..][i - |f0|] && f2[j] == f2[|f1|..][j - |f1|];
      }
    }
  }

  lemma FreedOn(m0: Mem, m1: Mem, m2: Mem, f0: seq<Obj>, f1: seq<Obj>, f2: seq<Obj>)
    requires OnlyDie(m0, m1) && OnlyDie(m1, m2)
    requires Freed(m0, m1, f0, f1, {}) && Freed(m1, m2, f1, f2, {})
    ensures Freed(m0, m2, f0, f2, {})
  {
    hide Freed, OnlyDie;
    var none: set<Obj> := {};
    FreedTrans(m0, m1, m2, f0, f1, f2, none, none);
    assert none + none == none;
  }

  /** One unlink hands over its object when the count reached zero, or leaves it. */
  lemma FreedOne(m: Mem, m': Mem, r: Slot, f: seq<Obj>, f': seq<Obj>, left: set<Obj>)
    requires Sound(m) && Dropped(m, m', r)
    requires if m.words[m.slots[r]].cnt > 1 then f' == f && left == {}
             else (f' == f + [m.slots[r]] && left == {}) || (f' == f && left == {m.slots[r]})
    ensures Freed(m, m', f, f', left)
  {
    HeldIsLive(m, r);
    if f' != f {
      assert f'[|f|..] == [m.slots[r]];
    }
    forall o | Died(m, m', o) ensures o == m.slots[r] && m.words[o].cnt == 1 {
      assert o in m.words.Keys;
    }
  }

  // ----- which words a release touches

  ghost function Emptied(m: Mem, m': Mem): set<Slot> {
    set x | x in m.slots && x in m'.slots && m.slots[x] != 0 && m'.slots[x] == 0
  }

  /** References were dropped by unlinks of client i: slots stay or are emptied, the words of the objects that lost
      a reference carry the client's stamp or are wiped - all that are dead, but for those in `left` - and
      every other word is untouched. */
  ghost predicate Unlinks(m: Mem, m': Mem, i: Tid, left: set<Obj>) {
    && m'.slots.Keys == m.slots.Keys && m'.words.Keys == m.words.Keys
    && (forall x :: x in m.slots && m'.slots[x] != m.slots[x] ==> m'.slots[x] == 0)
    && (forall x :: x in Emptied(m, m') && m.slots[x] in m.words ==>
          Touched(m'.words[m.slots[x]], i, m.slots[x] in left))
    && (forall p :: p in m.words && m'.words[p] != m.words[p] ==> exists x :: x in Emptied(m, m') && m.slots[x] == p)
  }

  predicate Touched(w: Word, i: Tid, left: bool) {
    w == ZeroWord || (w.cid == i && (w.cnt > 0 || left))
  }

  lemma UnlinksNone(m: Mem, i: Tid)
    ensures Unlinks(m, m, i, {}) && Emptied(m, m) == {}
  {
  }

  lemma UnlinksOne(m: Mem, m': Mem, r: Slot, i: Tid, left: set<Obj>)
    requires Dropped(m, m', r) && m.slots[r] != 0 && Touched(m'.words[m.slots[r]], i, m.slots[r] in left)
    ensures Unlinks(m, m', i, left) && Emptied(m, m') == {r}
  {
    assert r in Emptied(m, m');
  }

  /** One unlink by client i: the word of the object carries its stamp, or is wiped with its object. */
  lemma DropTouches(m: Mem, m': Mem, r: Slot, i: Tid, left: set<Obj>)
    requires Sound(m) && Dropped(m, m', r) && Touched(m'.words[m.slots[r]], i, m.slots[r] in left)
    ensures Unlinks(m, m', i, left) && |Emptied(m, m')| == 1
  {
    hide Exact, Clean;
    UnlinksOne(m, m', r, i, left);
  }

  lemma UnlinksOn(m0: Mem, m1: Mem, m2: Mem, i: Tid, left1: set<Obj>, left2: set<Obj>)
    requires Unlinks(m0, m1, i, left1) && Unlinks(m1, m2, i, left2)
    ensures Unlinks(m0, m2, i, left1 + left2) && |Emptied(m0, m2)| == |Emptied(m0, m1)| + |Emptied(m1, m2)|
  {
    var a, b, ab := Emptied(m0, m1), Emptied(m1, m2), Emptied(m0, m2);
    forall x | x in m0.slots
      ensures x in m1.slots && x in m2.slots && (x in ab <==> x in a || x in b) && !(x in a && x in b)
    {
      assert x in m1.slots.Keys && x in m2.slots.Keys;
    }
    assert ab == a + b && a !! b;
    forall p | p in m0.words && m2.words[p] != m0.words[p] ensures exists x :: x in ab && m0.slots[x] == p {
      assert p in m1.words.Keys;
      if m1.words[p] != m0.words[p] {
        var x :| x in a && m0.slots[x] == p;
        assert x in ab;
      } else {
        var x :| x in b && m1.slots[x] == p;
        assert x in ab && m0.slots[x] == p;
      }
    }
    forall x | x in ab && m0.slots[x] in m0.words
      ensures Touched(m2.words[m0.slots[x]], i, m0.slots[x] in left1 + left2)
    {
      var p := m0.slots[x];
      assert p in m1.words.Keys;
      if m2.words[p] != m1.words[p] {
        var y :| y in b && m1.slots[y] == p;
      } else if x in b {
        assert m1.slots[x] == p;
      }
    }
  }

  lemma UnlinksBoth(m0: Mem, m1: Mem, m2: Mem, i: Tid)
    requires Unlinks(m0, m1, i, {}) && Unlinks(m1, m2, i, {})
    ensures Unlinks(m0, m2, i, {}) && |Emptied(m0, m2)| == |Emptied(m0, m1)| + |Emptied(m1, m2)|
  {
    hide Unlinks, Emptied;
    var none: set<Obj> := {};
    UnlinksOn(m0, m1, m2, i, none, none);
    assert none + none == none;
  }

  // ----- a release, step by step

  /** A reference that is not the last was dropped. */
  lemma DropAlone(m: Mem, m': Mem, r: Slot, rank: map<Obj, nat>, top: nat)
    requires Sound(m) && Ranked(m, rank, top) && Dropped(m, m', r) && m.words[m.slots[r]].cnt > 1
    ensures Collected(m, m', r) && Progress(m, m', r, {})
    ensures m.slots[r] in rank && OnlyBelow(m, m', rank, rank[m.slots[r]] + 1)
  {
    hide *;
    DropOne(m, m', r);
    Underway(m, m', r);
    DropBelow(m, m', r, rank, top);
  }

  /** A child was released. */
  lemma ChildFreed(m0: Mem, m: Mem, m': Mem, r: Slot, o: Obj, i: nat, h: nat, rank: map<Obj, nat>, top: nat)
    requires Sound(m0) && Emptying(m0, m, r, o, i) && i < m.emb[o] && Ranked(m, rank, top)
    requires Collected(m, m', EmbSlot(o, i)) && o in rank && h <= rank[o]
    requires OnlyBelow(m0, m, rank, rank[o]) && OnlyBelow(m, m', rank, h)
    ensures Emptying(m0, m', r, o, i + 1) && Ranked(m', rank, top)
    ensures OnlyBelow(m0, m', rank, rank[o])
    ensures o in m'.words && o in m'.emb && o in m0.emb && m'.emb[o] == m0.emb[o]
  {
    hide *;
    WhileEmptying(m0, m, r, o, i);
    RaiseBelow(m, m', rank, h, rank[o]);
    Underway(m, m', EmbSlot(o, i));
    DomainsOf(m0, m);
    BelowTrans(m0, m, m', rank, rank[o], rank[o]);
    ChildDone(m0, m, m', r, o, i, rank, top);
    WhileEmptying(m0, m', r, o, i + 1);
    StillRanked(m, m', EmbSlot(o, i), {}, rank, top);
  }

  lemma DomainsOf(m: Mem, m': Mem)
    requires OnlyDie(m, m')
    ensures m'.words.Keys == m.words.Keys
  {
  }

  /** The release of a child stopped. */
  lemma ChildStopped(m0: Mem, m: Mem, m': Mem, r: Slot, o: Obj, i: nat, doomed: set<Obj>, h: nat,
                     rank: map<Obj, nat>, top: nat)
    requires Sound(m0) && Emptying(m0, m, r, o, i) && i < m.emb[o] && Ranked(m, rank, top)
    requires Progress(m, m', EmbSlot(o, i), doomed) && o in rank && h <= rank[o]
    requires OnlyBelow(m0, m, rank, rank[o]) && OnlyBelow(m, m', rank, h)
    ensures Progress(m0, m', r, doomed + {o}) && OnlyBelow(m0, m', rank, rank[o] + 1)
  {
    hide *;
    WhileEmptying(m0, m, r, o, i);
    RaiseBelow(m, m', rank, h, rank[o]);
    DomainsOf(m0, m);
    BelowTrans(m0, m, m', rank, rank[o], rank[o]);
    ChildStep(m0, m, m', r, o, i, doomed, rank, top);
    RaiseBelow(m0, m', rank, rank[o], rank[o] + 1);
  }

  /** The last reference goes. */
  lemma LastDropped(m0: Mem, m: Mem, m': Mem, r: Slot, o: Obj, rank: map<Obj, nat>, top: nat)
    requires Sound(m0) && o in m.emb && Emptying(m0, m, r, o, m.emb[o]) && Ranked(m, rank, top) && Dropped(m, m', r)
    requires o in rank && OnlyBelow(m0, m, rank, rank[o])
    ensures Collected(m0, m', r) && Progress(m0, m', r, {}) && OnlyBelow(m0, m', rank, rank[o] + 1)
    ensures OnlyDie(m0, m) && OnlyDie(m, m')
  {
    hide *;
    WhileEmptying(m0, m, r, o, m.emb[o]);
    Finish(m0, m, m', r, o);
    DomainsOf(m0, m);
    Underway(m0, m', r);
    DropBelow(m, m', r, rank, top);
    BelowTrans(m0, m, m', rank, rank[o], rank[o] + 1);
  }

  // ----- sweeping over slots

  lemma StillRanked(m: Mem, m': Mem, r: Slot, doomed: set<Obj>, rank: map<Obj, nat>, top: nat)
    requires Ranked(m, rank, top) && Progress(m, m', r, doomed)
    ensures Ranked(m', rank, top)
  {
    RankedAfter(m, m', {r}, doomed, rank, top);
  }

  lemma SweptSound(m: Mem, m': Mem, R: set<Slot>)
    requires Swept(m, m', R)
    ensures Sound(m') && m'.words.Keys == m.words.Keys && m'.slots.Keys == m.slots.Keys
  {
  }

  lemma SweptOnlyDie(m: Mem, m': Mem, R: set<Slot>)
    requires Sound(m) && Swept(m, m', R)
    ensures OnlyDie(m, m')
  {
    StaysDead(m, m', R, {});
  }

  lemma SweptNone(m: Mem)
    requires Sound(m)
    ensures Swept(m, m, {})
  {
  }

  lemma CollectedSwept(m: Mem, m': Mem, r: Slot)
    requires Collected(m, m', r)
    ensures Swept(m, m', {r})
  {
  }

  /** What a complete release of slot r leaves behind. */
  lemma CollectedEffect(m: Mem, m': Mem, r: Slot, rank: map<Obj, nat>, top: nat)
    requires Sound(m) && Collected(m, m', r) && Ranked(m, rank, top)
    ensures Sound(m') && Ranked(m', rank, top) && OnlyDie(m, m')
    ensures r in m'.slots && m'.slots[r] == 0 && m'.slots.Keys == m.slots.Keys
  {
    SweptOnlyDie(m, m', {r});
    RankedAfter(m, m', {r}, {}, rank, top);
    assert r in {r};
  }

  /** One slot more. */
  lemma SweepStep(m0: Mem, m: Mem, m': Mem, R: set<Slot>, r: Slot)
    requires Sound(m0) && Swept(m0, m, R) && Collected(m, m', r)
    ensures Swept(m0, m', R + {r}) && OnlyDie(m0, m) && OnlyDie(m, m')
  {
    hide OnlyDie;
    SweptSound(m0, m, R);
    SweepOn(m0, m, m', R, {r});
    SweptOnlyDie(m0, m, R);
    SweptOnlyDie(m, m', {r});
  }

  lemma StillDead(m: Mem, m': Mem)
    requires OnlyDie(m, m')
    ensures forall o :: Dead(m, o) ==> Dead(m', o)
  {
  }

  lemma NoHole(m: Mem)
    ensures Unstamped(m, {})
  {
  }

  lemma CutCut(m: Mem, hole: set<Slot>, R: set<Slot>)
    requires hole <= R
    ensures Cut(Cut(m, hole), R) == Cut(m, R)
  {
    assert Cut(Cut(m, hole), R).slots == Cut(m, R).slots;
  }

  /** A slot of the hole holds an object without a count, and is no embedded reference. */
  lemma HoleSlots(m: Mem, hole: set<Slot>)
    requires Unstamped(m, hole)
    ensures forall x :: x in hole ==> x in m.slots && m.slots[x] in m.words && m.words[m.slots[x]].cnt == 0
    ensures forall p, k :: p in m.emb && k < m.emb[p] ==> EmbSlot(p, k) !in hole
  {
    forall p, k | p in m.emb && k < m.emb[p] ensures EmbSlot(p, k) !in hole {
      assert EmbeddedIn(m, EmbSlot(p, k), p, k);
    }
  }

  lemma HoleEmpty(m: Mem, hole: set<Slot>, r: Slot)
    requires r in m.slots
    ensures r in Cut(m, hole).slots && Cut(m, hole).slots[r] == if r in hole then 0 else m.slots[r]
    ensures Cut(m, hole).slots.Keys == m.slots.Keys
  {
  }

  /** Only a slot of the hole can hold a block that is still on a free list. */
  lemma FirstFreeOut(m: Mem, hole: set<Slot>, r: Slot, firstFree: set<Obj>, rank: map<Obj, nat>, top: nat)
    requires r in m.slots && Sound(Cut(m, hole)) && Ranked(Cut(m, hole), rank, top)
    requires forall o :: o in firstFree ==> Dead(m, o)
    ensures r !in hole && m.slots[r] in firstFree ==> m.slots[r] == 0
  {
    if r !in hole && m.slots[r] != 0 {
      KnownObject(Cut(m, hole), r, rank, top);
    }
  }

  lemma DeadWords(m: Mem)
    ensures forall o :: Dead(m, o) <==> o in m.words && m.words[o].cnt == 0
  {
  }

  lemma DeadInView(m: Mem, m': Mem, hole: set<Slot>, o: Obj)
    requires OnlyDie(Cut(m, hole), Cut(m', hole)) && Dead(m, o)
    ensures Dead(m', o)
  {
    assert Dead(Cut(m, hole), o);
  }
}
