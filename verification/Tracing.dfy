/** Releasing a slot by counts is tracing from the remaining root slots. */
module Tracing {
  import opened RefTypes
  import opened ObjectGraph

  ghost predicate RootHolds(m: Mem, o: Obj) {
    exists x :: x in m.slots && m.slots[x] == o && IsRoot(m, x)
  }

  ghost predicate Refers(m: Mem, p: Obj, o: Obj) {
    exists x, k :: EmbeddedIn(m, x, p, k) && x in m.slots && m.slots[x] == o
  }

  ghost predicate Path(m: Mem, path: seq<Obj>) {
    && |path| > 0 && RootHolds(m, path[0])
    && forall i :: 0 <= i < |path| - 1 ==> Refers(m, path[i], path[i + 1])
  }

  /** Some chain of references leads from a root slot to o. */
  ghost predicate Reachable(m: Mem, o: Obj) {
    exists path :: Path(m, path) && path[|path| - 1] == o
  }

  ghost predicate Live(m: Mem, o: Obj) {
    o in m.words && m.words[o].cnt > 0
  }

  lemma Step(m: Mem, p: Obj, o: Obj)
    requires Reachable(m, p) && Refers(m, p, o)
    ensures Reachable(m, o)
  {
    var path :| Path(m, path) && path[|path| - 1] == p;
    var longer := path + [o];
    assert Path(m, longer) by {
      forall i | 0 <= i < |longer| - 1 ensures Refers(m, longer[i], longer[i + 1]) {
        if i < |path| - 1 {
          assert Refers(m, path[i], path[i + 1]);
        }
      }
    }
    assert longer[|longer| - 1] == o;
  }

  lemma Start(m: Mem, o: Obj)
    requires RootHolds(m, o)
    ensures Reachable(m, o)
  {
    assert Path(m, [o]);
  }

  /** In a sound acyclic graph exactly the reachable objects have a count. */
  lemma {:induction false} LiveReachable(m: Mem, o: Obj, rank: map<Obj, nat>, top: nat)
    requires Sound(m) && Ranked(m, rank, top) && Live(m, o)
    ensures Reachable(m, o)
    decreases top - rank[o]
  {
    var x := LiveIsHeld(m, o);
    if IsRoot(m, x) {
      assert RootHolds(m, o);
      Start(m, o);
    } else {
      var p, k :| EmbeddedIn(m, x, p, k);
      assert p in m.words.Keys;
      assert Live(m, p);
      LiveReachable(m, p, rank, top);
      assert Refers(m, p, o);
      Step(m, p, o);
    }
  }

  /** A reference left after the sweep was there before, and not in a swept slot. */
  lemma EdgeKept(m: Mem, m': Mem, R: set<Slot>, x: Slot)
    requires Shape(m) && Swept(m, m', R)
    requires x in m'.slots && m'.slots[x] != 0
    ensures x in m.slots && x !in R && Cut(m, R).slots[x] == m'.slots[x]
    ensures IsRoot(m', x) ==> IsRoot(Cut(m, R), x)
    ensures forall p, k :: EmbeddedIn(m', x, p, k) ==> EmbeddedIn(Cut(m, R), x, p, k)
  {
    assert x in m.slots.Keys;
    forall p, k | EmbeddedIn(m', x, p, k) ensures EmbeddedIn(Cut(m, R), x, p, k) {
      assert p in m.emb.Keys;
    }
    forall p, k | EmbeddedIn(Cut(m, R), x, p, k) ensures EmbeddedIn(m', x, p, k) {
      assert p in m'.emb.Keys && EmbeddedIn(m, x, p, k);
    }
  }

  lemma RootEdge(m: Mem, m': Mem, R: set<Slot>, o: Obj)
    requires Shape(m) && Swept(m, m', R) && o != 0 && RootHolds(m', o)
    ensures RootHolds(Cut(m, R), o)
  {
    var x :| x in m'.slots && m'.slots[x] == o && IsRoot(m', x);
    EdgeKept(m, m', R, x);
  }

  lemma InnerEdge(m: Mem, m': Mem, R: set<Slot>, p: Obj, o: Obj)
    requires Shape(m) && Swept(m, m', R) && o != 0 && Refers(m', p, o)
    ensures Refers(Cut(m, R), p, o)
  {
    var x, k :| EmbeddedIn(m', x, p, k) && x in m'.slots && m'.slots[x] == o;
    EdgeKept(m, m', R, x);
    assert EmbeddedIn(Cut(m, R), x, p, k);
  }

  /** Live objects are reachable after the release, by references that were there before. */
  lemma {:induction false} LiveWasReachable(m: Mem, m': Mem, R: set<Slot>, o: Obj, rank: map<Obj, nat>, top: nat)
    requires Shape(m) && Swept(m, m', R) && Ranked(m', rank, top) && Live(m', o)
    ensures Reachable(Cut(m, R), o)
    decreases top - rank[o]
  {
    var x := LiveIsHeld(m', o);
    if IsRoot(m', x) {
      assert RootHolds(m', o);
      RootEdge(m, m', R, o);
      Start(Cut(m, R), o);
    } else {
      var p, k :| EmbeddedIn(m', x, p, k);
      assert p in m'.words.Keys;
      assert Live(m', p);
      LiveWasReachable(m, m', R, p, rank, top);
      assert Refers(m', p, o);
      InnerEdge(m, m', R, p, o);
      Step(Cut(m, R), p, o);
    }
  }

  /** A slot of a live object, or a root slot outside R, is as before. */
  lemma SurvivorSlot(m: Mem, m': Mem, R: set<Slot>, x: Slot)
    requires Shape(m) && Swept(m, m', R) && x in m.slots && x !in R
    requires forall p, k :: EmbeddedIn(m, x, p, k) ==> !Dead(m', p)
    ensures x in m'.slots && m'.slots[x] == m.slots[x]
  {
    assert x in m'.slots.Keys;
  }

  lemma {:induction false} PathStaysLive(m: Mem, m': Mem, R: set<Slot>, path: seq<Obj>, i: nat)
    requires Shape(m) && Swept(m, m', R)
    requires Path(Cut(m, R), path) && i < |path| && 0 !in path
    ensures Live(m', path[i])
    decreases i
  {
    var c := Cut(m, R);
    var x: Slot;
    if i == 0 {
      x :| x in c.slots && c.slots[x] == path[0] && IsRoot(c, x);
      assert forall p, k :: EmbeddedIn(c, x, p, k) <==> EmbeddedIn(m, x, p, k);
    } else {
      PathStaysLive(m, m', R, path, i - 1);
      assert Refers(c, path[i - 1], path[i - 1 + 1]);
      var k: nat;
      x, k :| EmbeddedIn(c, x, path[i - 1], k) && x in c.slots && c.slots[x] == path[i];
      assert EmbeddedIn(m, x, path[i - 1], k);
    }
    SurvivorSlot(m, m', R, x);
    HeldIsLive(m', x);
  }

  lemma {:induction false} NonzeroPath(m: Mem, path: seq<Obj>, o: Obj)
    requires Shape(m) && Path(m, path) && o == path[|path| - 1] && o in m.words
    ensures 0 !in path
  {
    forall i | 0 <= i < |path| ensures path[i] != 0 {
      if i < |path| - 1 {
        assert Refers(m, path[i], path[i + 1]);
        var x, k :| EmbeddedIn(m, x, path[i], k) && x in m.slots && m.slots[x] == path[i + 1];
        assert path[i] in m.words.Keys;
      }
    }
  }

  lemma CutShape(m: Mem, R: set<Slot>)
    requires Shape(m)
    ensures Shape(Cut(m, R))
  {
    forall x, p, k, q, l | EmbeddedIn(Cut(m, R), x, p, k) && EmbeddedIn(Cut(m, R), x, q, l) ensures p == q {
      assert EmbeddedIn(m, x, p, k) && EmbeddedIn(m, x, q, l);
    }
  }

  lemma RankedAfter(m: Mem, m': Mem, R: set<Slot>, doomed: set<Obj>, rank: map<Obj, nat>, top: nat)
    requires Ranked(m, rank, top) && SameDomains(m, m') && SlotsShrink(m, m', R, doomed) && HeadersKept(m, m')
             && 0 !in m'.words
    ensures Ranked(m', rank, top)
  {
    forall x, p, k | EmbeddedIn(m', x, p, k) && x in m'.slots && m'.slots[x] in m'.words && p in m'.words
      ensures rank[m'.slots[x]] < rank[p]
    {
      assert p in m.emb.Keys && x in m.slots.Keys && p in m.words.Keys && m'.slots[x] in m.words.Keys;
      assert EmbeddedIn(m, x, p, k);
    }
  }

  /** Cascading release equals tracing: after the release of the slots of R exactly the objects that
      can still be reached without them have a count, and it is their in-degree. */
  lemma ReleaseIsTracing(m: Mem, m': Mem, R: set<Slot>, o: Obj, rank: map<Obj, nat>, top: nat)
    requires Sound(m) && Ranked(m, rank, top) && Swept(m, m', R) && o in m.words
    ensures Live(m', o) <==> Reachable(Cut(m, R), o)
    ensures o in m'.words && m'.words[o].cnt == |Holders(m'.slots, o)|
  {
    assert o in m'.words.Keys;
    if Live(m', o) {
      RankedAfter(m, m', R, {}, rank, top);
      LiveWasReachable(m, m', R, o, rank, top);
    }
    if Reachable(Cut(m, R), o) {
      var path :| Path(Cut(m, R), path) && path[|path| - 1] == o;
      CutShape(m, R);
      NonzeroPath(Cut(m, R), path, o);
      PathStaysLive(m, m', R, path, |path| - 1);
    }
  }

  /** The outcome of a sweep is unique: slots and counts depend neither on the order of the slots nor on
      interruptions. */
  lemma ReleaseIsUnique(m: Mem, a: Mem, b: Mem, R: set<Slot>, rank: map<Obj, nat>, top: nat)
    requires Sound(m) && Ranked(m, rank, top) && Swept(m, a, R) && Swept(m, b, R)
    ensures a.slots == b.slots
    ensures forall o :: o in m.words ==> o in a.words && o in b.words && a.words[o].cnt == b.words[o].cnt
  {
    hide SlotsShrink, HeadersKept, Ranked, Clean, Shape, Reachable;
    forall o | o in m.words ensures Dead(a, o) <==> Dead(b, o) {
      ReleaseIsTracing(m, a, R, o, rank, top);
      ReleaseIsTracing(m, b, R, o, rank, top);
    }
    SameSlots(m, a, b, R);
    forall o | o in m.words ensures o in a.words && o in b.words && a.words[o].cnt == b.words[o].cnt {
      assert o in a.words.Keys && o in b.words.Keys;
    }
  }

  lemma SameSlots(m: Mem, a: Mem, b: Mem, R: set<Slot>)
    requires Sound(m) && Swept(m, a, R) && Swept(m, b, R)
    requires forall o :: o in m.words ==> (Dead(a, o) <==> Dead(b, o))
    ensures a.slots == b.slots
  {
    hide Exact;
    forall x | x in m.slots.Keys ensures a.slots[x] == b.slots[x] {
      assert x in a.slots.Keys && x in b.slots.Keys;
      if x !in R && a.slots[x] != m.slots[x] {
        var p, k :| EmbeddedIn(m, x, p, k) && Dead(a, p);
        assert p in m.words.Keys;
        DeadSlotEmpty(m, b, x, p, k);
      }
      if x !in R && b.slots[x] != m.slots[x] {
        var p, k :| EmbeddedIn(m, x, p, k) && Dead(b, p);
        assert p in m.words.Keys;
        DeadSlotEmpty(m, a, x, p, k);
      }
    }
    assert a.slots.Keys == b.slots.Keys;
  }
}
