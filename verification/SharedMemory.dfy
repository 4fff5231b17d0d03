/**
 One client's view of the shared segment while the others stand still: counted references, the
 cascading release, and the monitor's recovery of the client. `mayStop` guards the points where the
 client may stop for good.
 */
module SharedMemory {
  import opened RefTypes
  import opened ObjectGraph
  import opened Tracing
  import opened Cascade

  /** Greatest era of client i in the rows below n, its own row left out. */
  function MaxRow(m: EraMatrix, i: Tid, n: nat): nat {
    if n == 0 then 0
    else
      var rest := MaxRow(m, i, n - 1);
      if n - 1 != i && EraAt(m, n - 1, i) > rest then EraAt(m, n - 1, i) else rest
  }

  /** No other row has seen era e of client i. */
  ghost predicate RowsBelow(m: EraMatrix, i: Tid, e: nat) {
    forall j :: j != i ==> EraAt(m, j, i) < e
  }

  /** Recording what it saw does not touch the client's own era nor what others saw of it. */
  lemma RowsObserve(m: EraMatrix, i: Tid, w: Word)
    requires w.cid == i ==> w.era < EraAt(m, i, i)
    ensures EraAt(Observe(m, i, w), i, i) == EraAt(m, i, i)
    ensures forall e :: RowsBelow(m, i, e) ==> RowsBelow(Observe(m, i, w), i, e)
    ensures MaxRow(Observe(m, i, w), i, MAX_THREAD) == MaxRow(m, i, MAX_THREAD)
  {
    if w.era > EraAt(m, i, w.cid) {
      MaxRowOwn(m, i, w.cid, w.era, MAX_THREAD);
    }
    forall e | RowsBelow(m, i, e) ensures RowsBelow(Observe(m, i, w), i, e) {
      forall j | j != i ensures EraAt(Observe(m, i, w), j, i) < e {
        assert EraAt(Observe(m, i, w), j, i) == EraAt(m, j, i);
      }
    }
  }

  lemma {:induction false} MaxRowOwn(m: EraMatrix, i: Tid, c: Tid, e: nat, n: nat)
    ensures MaxRow(m[(i, c) := e], i, n) == MaxRow(m, i, n)
  {
    if n > 0 {
      MaxRowOwn(m, i, c, e, n - 1);
    }
  }

  lemma RowsBumped(m: EraMatrix, i: Tid)
    requires RowsBelow(m, i, EraAt(m, i, i))
    ensures RowsBelow(BumpEra(m, i), i, EraAt(m, i, i) + 1)
  {
    forall j | j != i ensures EraAt(BumpEra(m, i), j, i) < EraAt(m, i, i) + 1 {
      assert EraAt(BumpEra(m, i), j, i) == EraAt(m, j, i);
    }
  }

  lemma {:induction false} MaxRowBelow(m: EraMatrix, i: Tid, n: nat, e: nat)
    requires e > 0 && RowsBelow(m, i, e)
    ensures MaxRow(m, i, n) < e
  {
    if n > 0 {
      MaxRowBelow(m, i, n - 1, e);
    }
  }

  /** The monitor's decision: the word carries the record's stamp, or some row has seen its era. */
  predicate NeedRedo(words: map<Obj, Word>, era: EraMatrix, i: Tid, rec: RedoLog) {
    && !rec.func.NoFunc? && rec.refed in words
    && ((words[rec.refed].cid == i && words[rec.refed].era == rec.era)
        || rec.era <= MaxRow(era, i, MAX_THREAD))
  }

  lemma {:induction false} MaxRowAtLeast(m: EraMatrix, i: Tid, n: nat, e: nat)
    requires e > 0
    ensures e <= MaxRow(m, i, n) <==> exists j: nat :: j < n && j != i && EraAt(m, j, i) >= e
  {
    if n > 0 {
      MaxRowAtLeast(m, i, n - 1, e);
      if e <= MaxRow(m, i, n) && e > MaxRow(m, i, n - 1) {
        assert n - 1 != i && EraAt(m, n - 1, i) >= e;
      }
    }
  }

  /** The monitor replays a record exactly if the word carries its stamp or one of the rows it scans has seen its
      era; it scans the rows below 1024. */
  lemma NeedRedoExact(words: map<Obj, Word>, era: EraMatrix, i: Tid, rec: RedoLog)
    requires !rec.func.NoFunc? && rec.refed in words && rec.era > 0
    ensures NeedRedo(words, era, i, rec) <==>
              (words[rec.refed].cid == i && words[rec.refed].era == rec.era)
              || exists j: nat :: j < 1024 && j != i && EraAt(era, j, i) >= rec.era
  {
    MaxRowAtLeast(era, i, MAX_THREAD, rec.era);
  }

  /** Registration hands out ids up to 1024. What only the client with that id has seen is missed: client 1
      links slot 2 to object 10, client 1024 records that and links the object once more, and the monitor
      does not replay the record, although the count includes the reference. */
  lemma LastIdMissed()
    ensures var first := Stamp(1, LinkRef, Word(1, 1, 1), 2);
            var era := Observe(map[(1, 1) := 2, (MAX_THREAD, MAX_THREAD) := 1], MAX_THREAD, first);
            var second := Stamp(MAX_THREAD, LinkRef, first, 1);
            var rec := RedoLog(LinkRef, 1, 2, 2, 10);
            EraAt(era, MAX_THREAD, 1) >= rec.era && second.cnt == 3 && !NeedRedo(map[10 := second], era, 1, rec)
  {
    var first := Stamp(1, LinkRef, Word(1, 1, 1), 2);
    var era := Observe(map[(1, 1) := 2, (MAX_THREAD, MAX_THREAD) := 1], MAX_THREAD, first);
    var second := Stamp(MAX_THREAD, LinkRef, first, 1);
    NeedRedoExact(map[10 := second], era, 1, RedoLog(LinkRef, 1, 2, 2, 10));
    forall j: nat | j < MAX_THREAD && j != 1 ensures EraAt(era, j, 1) == 0 {
    }
  }

  function Replayed(slots: map<Slot, Obj>, rec: RedoLog, need: bool): map<Slot, Obj> {
    if need then slots[rec.ref := Target(rec)] else slots
  }

  /** A record whose replay would not change its slot. */
  predicate Harmless(words: map<Obj, Word>, slots: map<Slot, Obj>, era: EraMatrix, i: Tid, rec: RedoLog) {
    !rec.func.NoFunc? ==>
      rec.refed in words && rec.ref in slots && (NeedRedo(words, era, i, rec) ==> slots[rec.ref] == Target(rec))
  }

  lemma HarmlessReplay(words: map<Obj, Word>, slots: map<Slot, Obj>, era: EraMatrix, i: Tid, rec: RedoLog)
    requires Harmless(words, slots, era, i, rec)
    ensures Replayed(slots, rec, NeedRedo(words, era, i, rec)) == slots
  {
  }

  lemma HarmlessExact(words: map<Obj, Word>, slots: map<Slot, Obj>, era: EraMatrix, i: Tid, rec: RedoLog)
    requires !rec.func.NoFunc? ==> rec.refed in words && rec.ref in slots
    ensures Harmless(words, slots, era, i, rec) <==> Replayed(slots, rec, NeedRedo(words, era, i, rec)) == slots
  {
    hide MaxRow;
    if !rec.func.NoFunc? {
      assert slots[rec.ref := Target(rec)][rec.ref] == Target(rec);
      assert slots[rec.ref] == Target(rec) ==> slots[rec.ref := Target(rec)] == slots;
    }
  }

  lemma HarmlessObserved(words: map<Obj, Word>, slots: map<Slot, Obj>, era: EraMatrix, i: Tid, w: Word, rec: RedoLog)
    requires Harmless(words, slots, era, i, rec) && (w.cid == i ==> w.era < EraAt(era, i, i))
    ensures Harmless(words, slots, Observe(era, i, w), i, rec)
  {
    RowsObserve(era, i, w);
  }

  /** The line written in the current era is the one the scan picks. */
  lemma NewestLine(logs: seq<RedoLog>, e: nat, rec: RedoLog)
    requires |logs| == REDO_CACHELINE_CNT && rec.era == e
    requires forall k :: 0 <= k < |logs| && k != e % REDO_CACHELINE_CNT ==> logs[k].era < e
    ensures Newest(logs[e % REDO_CACHELINE_CNT := rec]) == rec
  {
    var l := logs[e % REDO_CACHELINE_CNT := rec];
    var j :| 0 <= j < |l| && l[j] == Newest(l);
    assert l[e % REDO_CACHELINE_CNT] in l;
  }

  // ----- what a client's updates do to the eras

  /** Client i writes its own row only, and lowers no cell. */
  ghost predicate RowOnly(era: EraMatrix, era': EraMatrix, i: Tid) {
    && (forall j, c :: j != i ==> EraAt(era', j, c) == EraAt(era, j, c))
    && (forall c :: EraAt(era', i, c) >= EraAt(era, i, c))
  }

  /** Whatever record of another client the monitor would have replayed, it would still replay: nobody's commit
      is hidden. */
  ghost predicate HidesNothing(words: map<Obj, Word>, era: EraMatrix, words': map<Obj, Word>, era': EraMatrix, i: Tid) {
    i < MAX_THREAD ==>
      forall j: Tid, rec: RedoLog :: j != i && rec.era > 0 && NeedRedo(words, era, j, rec) ==>
        NeedRedo(words', era', j, rec)
  }

  /** No word carries a stamp of client i with era e or above. */
  ghost predicate StampsBelow(words: map<Obj, Word>, i: Tid, e: nat) {
    forall o :: o in words && words[o].cid == i ==> words[o].era < e
  }

  /** What client i added to its row it saw on a word, and the words it changed carry its id or are wiped. */
  ghost predicate SeenOnly(words: map<Obj, Word>, era: EraMatrix, words': map<Obj, Word>, era': EraMatrix, i: Tid) {
    && words'.Keys == words.Keys
    && (forall o :: o in words && o in words' && words'[o] != words[o] ==> words'[o] == ZeroWord || words'[o].cid == i)
    && (forall c :: c != i && EraAt(era', i, c) != EraAt(era, i, c) ==>
          exists o :: o in words && words[o].cid == c && words[o].era == EraAt(era', i, c))
  }

  ghost predicate EraStep(words: map<Obj, Word>, era: EraMatrix, words': map<Obj, Word>, era': EraMatrix, i: Tid) {
    && RowOnly(era, era', i) && SeenOnly(words, era, words', era', i) && HidesNothing(words, era, words', era', i)
    && (StampsBelow(words, i, EraAt(era, i, i) + 1) ==> StampsBelow(words', i, EraAt(era', i, i) + 1))
  }

  lemma EraStepNone(words: map<Obj, Word>, era: EraMatrix, i: Tid)
    ensures EraStep(words, era, words, era, i)
  {
  }

  lemma EraStepOn(words0: map<Obj, Word>, era0: EraMatrix, words1: map<Obj, Word>, era1: EraMatrix,
                  words2: map<Obj, Word>, era2: EraMatrix, i: Tid)
    requires EraStep(words0, era0, words1, era1, i) && EraStep(words1, era1, words2, era2, i)
    ensures EraStep(words0, era0, words2, era2, i)
  {
    hide NeedRedo, StampsBelow, RowOnly, SeenOnly;
    RowTrans(era0, era1, era2, i);
    SeenTrans(words0, era0, words1, era1, words2, era2, i);
  }

  lemma SeenTrans(words0: map<Obj, Word>, era0: EraMatrix, words1: map<Obj, Word>, era1: EraMatrix,
                  words2: map<Obj, Word>, era2: EraMatrix, i: Tid)
    requires RowOnly(era0, era1, i) && RowOnly(era1, era2, i)
    requires SeenOnly(words0, era0, words1, era1, i) && SeenOnly(words1, era1, words2, era2, i)
    ensures SeenOnly(words0, era0, words2, era2, i)
  {
    forall c | c != i && EraAt(era2, i, c) != EraAt(era0, i, c)
      ensures exists o :: o in words0 && words0[o].cid == c && words0[o].era == EraAt(era2, i, c)
    {
      if EraAt(era2, i, c) != EraAt(era1, i, c) {
        var o :| o in words1 && words1[o].cid == c && words1[o].era == EraAt(era2, i, c);
        assert o in words0.Keys && words1[o] == words0[o];
      }
    }
    forall o | o in words0 && o in words2 && words2[o] != words0[o]
      ensures words2[o] == ZeroWord || words2[o].cid == i
    {
      assert o in words1.Keys;
    }
  }

  /** What was seen of the word, and nothing else, is in the client's row. */
  lemma ObserveRow(m: EraMatrix, i: Tid, w: Word)
    ensures EraAt(Observe(m, i, w), i, w.cid) == if w.era > EraAt(m, i, w.cid) then w.era else EraAt(m, i, w.cid)
    ensures forall j: Tid, c: Tid :: (j, c) != (i, w.cid) ==> EraAt(Observe(m, i, w), j, c) == EraAt(m, j, c)
    ensures RowOnly(m, Observe(m, i, w), i)
  {
  }

  lemma BumpRow(m: EraMatrix, i: Tid)
    ensures RowOnly(m, BumpEra(m, i), i) && EraAt(BumpEra(m, i), i, i) == EraAt(m, i, i) + 1
    ensures forall j: Tid, c: Tid :: (j, c) != (i, i) ==> EraAt(BumpEra(m, i), j, c) == EraAt(m, j, c)
  {
  }

  lemma RowTrans(m0: EraMatrix, m1: EraMatrix, m2: EraMatrix, i: Tid)
    requires RowOnly(m0, m1, i) && RowOnly(m1, m2, i)
    ensures RowOnly(m0, m2, i)
  {
  }

  /** A word may be overwritten once its era is in the row of the client that does it. */
  lemma NoneHidden(words: map<Obj, Word>, era: EraMatrix, o: Obj, w: Word, era': EraMatrix, i: Tid)
    requires o in words && RowOnly(era, era', i) && (words[o] != w ==> EraAt(era', i, words[o].cid) >= words[o].era)
    ensures HidesNothing(words, era, words[o := w], era', i)
  {
    if i < MAX_THREAD {
      forall j: Tid, rec: RedoLog | j != i && rec.era > 0 && NeedRedo(words, era, j, rec)
        ensures NeedRedo(words[o := w], era', j, rec)
      {
        hide NeedRedo;
        NeedRedoKnows(words, era, j, rec);
        NeedRedoExact(words, era, j, rec);
        NeedRedoExact(words[o := w], era', j, rec);
        if words[rec.refed].cid == j && words[rec.refed].era == rec.era {
          assert rec.refed == o && words[o] != w ==> EraAt(era', i, j) >= rec.era;
        } else {
          var k: nat :| k < MAX_THREAD && k != j && EraAt(era, k, j) >= rec.era;
          assert EraAt(era', k, j) >= rec.era;
        }
      }
    }
  }

  lemma NeedRedoKnows(words: map<Obj, Word>, era: EraMatrix, i: Tid, rec: RedoLog)
    requires NeedRedo(words, era, i, rec)
    ensures !rec.func.NoFunc? && rec.refed in words
  {
  }

  /** The eras after one counted update: seen, and spent if the update ran to its end. */
  lemma OneUpdate(words: map<Obj, Word>, era: EraMatrix, o: Obj, w: Word, i: Tid, spent: bool)
    requires o in words && (words[o].cid == i ==> words[o].era <= EraAt(era, i, i))
    requires w == ZeroWord || w == words[o] || (w.cid == i && w.era == EraAt(era, i, i))
    ensures var seen := Observe(era, i, words[o]);
            EraStep(words, era, words[o := w], if spent then BumpEra(seen, i) else seen, i)
  {
    var seen := Observe(era, i, words[o]);
    var era' := if spent then BumpEra(seen, i) else seen;
    ObserveRow(era, i, words[o]);
    BumpRow(seen, i);
    RowTrans(era, seen, BumpEra(seen, i), i);
    NoneHidden(words, era, o, w, era', i);
    SeenHere(words, era, o, w, era', i);
  }

  lemma SeenHere(words: map<Obj, Word>, era: EraMatrix, o: Obj, w: Word, era': EraMatrix, i: Tid)
    requires o in words && (w == ZeroWord || w == words[o] || w.cid == i)
    requires era' == Observe(era, i, words[o]) || era' == BumpEra(Observe(era, i, words[o]), i)
    ensures SeenOnly(words, era, words[o := w], era', i)
  {
  }

  /** Client i has spent n eras, and is still ahead of its stamps. */
  ghost predicate Spends(words: map<Obj, Word>, era: EraMatrix, words': map<Obj, Word>, era': EraMatrix, i: Tid,
                         n: nat) {
    && RowOnly(era, era', i) && SeenOnly(words, era, words', era', i)
    && (StampsBelow(words, i, EraAt(era, i, i) + 1) ==>
          EraStep(words, era, words', era', i) && EraAt(era', i, i) == EraAt(era, i, i) + n)
    && (StampsBelow(words, i, EraAt(era, i, i)) ==> StampsBelow(words', i, EraAt(era', i, i)))
  }

  lemma SpendsNone(words: map<Obj, Word>, era: EraMatrix, i: Tid)
    ensures Spends(words, era, words, era, i, 0)
  {
  }

  lemma SpendsOn(words0: map<Obj, Word>, era0: EraMatrix, words1: map<Obj, Word>, era1: EraMatrix,
                 words2: map<Obj, Word>, era2: EraMatrix, i: Tid, n1: nat, n2: nat)
    requires Spends(words0, era0, words1, era1, i, n1) && Spends(words1, era1, words2, era2, i, n2)
    ensures Spends(words0, era0, words2, era2, i, n1 + n2)
  {
    hide StampsBelow, HidesNothing, SeenOnly;
    RowTrans(era0, era1, era2, i);
    SeenTrans(words0, era0, words1, era1, words2, era2, i);
    if StampsBelow(words0, i, EraAt(era0, i, i) + 1) {
      EraStepOn(words0, era0, words1, era1, words2, era2, i);
    }
  }

  lemma SpendsEras(words0: map<Obj, Word>, era0: EraMatrix, words1: map<Obj, Word>, era1: EraMatrix,
                   words2: map<Obj, Word>, era2: EraMatrix, i: Tid, n: nat)
    requires StampsBelow(words0, i, EraAt(era0, i, i) + 1)
    requires EraStep(words0, era0, words1, era1, i) && Spends(words1, era1, words2, era2, i, n)
    ensures EraStep(words0, era0, words2, era2, i) && EraAt(era2, i, i) == EraAt(era1, i, i) + n
  {
    hide StampsBelow, HidesNothing, RowOnly, SeenOnly;
    EraStepOn(words0, era0, words1, era1, words2, era2, i);
  }

  /** The client, or the monitor for it, unlinks one object. */
  lemma SpendsOne(words: map<Obj, Word>, era: EraMatrix, o: Obj, w: Word, i: Tid)
    requires o in words
    requires (words[o].cid == i ==> words[o].era <= EraAt(era, i, i)) ==>
               w == ZeroWord || (w.cid == i && w.era == EraAt(era, i, i))
    requires !(words[o].cid == i ==> words[o].era <= EraAt(era, i, i)) ==> w == ZeroWord || w.cid == i
    ensures Spends(words, era, words[o := w], BumpEra(Observe(era, i, words[o]), i), i, 1)
  {
    var seen := Observe(era, i, words[o]);
    ObserveRow(era, i, words[o]);
    BumpRow(seen, i);
    RowTrans(era, seen, BumpEra(seen, i), i);
    SeenHere(words, era, o, w, BumpEra(seen, i), i);
    if words[o].cid == i ==> words[o].era <= EraAt(era, i, i) {
      OneUpdate(words, era, o, w, i, true);
    }
  }

  /** Looking at a word. */
  lemma SeenStep(words: map<Obj, Word>, era: EraMatrix, o: Obj, i: Tid)
    requires o in words && (words[o].cid == i ==> words[o].era <= EraAt(era, i, i))
    ensures EraStep(words, era, words, Observe(era, i, words[o]), i)
    ensures Observe(Observe(era, i, words[o]), i, words[o]) == Observe(era, i, words[o])
  {
    OneUpdate(words, era, o, words[o], i, false);
    assert words[o := words[o]] == words;
  }

  // ----- what the records tell

  /** If the newest record was written in era e or later, it is of an object that had a count in m; otherwise
      nothing was logged since. */
  ghost predicate Trail(logs: seq<RedoLog>, logs0: seq<RedoLog>, e: nat, m: Mem) {
    |logs| > 0 && (logs == logs0 || Newest(logs).era >= e) && (Newest(logs).era >= e ==> Live(m, Newest(logs).refed))
  }

  lemma TrailStart(logs: seq<RedoLog>, e: nat, m: Mem)
    requires |logs| > 0 && forall k :: 0 <= k < |logs| ==> logs[k].era < e
    ensures Trail(logs, logs, e, m)
  {
  }

  lemma TrailJoin(logs0: seq<RedoLog>, logs1: seq<RedoLog>, logs2: seq<RedoLog>, e0: nat, e1: nat, m0: Mem, m1: Mem)
    requires Trail(logs1, logs0, e0, m0) && Trail(logs2, logs1, e1, m1) && e0 <= e1 && OnlyDie(m0, m1)
    ensures Trail(logs2, logs0, e0, m0)
  {
    hide Newest;
    if logs2 != logs1 {
      var o := Newest(logs2).refed;
      assert o in m0.words.Keys;
      assert !Dead(m0, o);
    }
  }

  lemma TrailRecord(logs: seq<RedoLog>, logs0: seq<RedoLog>, e: nat, m: Mem, rec: RedoLog)
    requires |logs0| == REDO_CACHELINE_CNT && rec.era == e && Live(m, rec.refed)
    requires forall k :: 0 <= k < |logs0| ==> logs0[k].era < e
    requires logs == logs0 || logs == logs0[e % REDO_CACHELINE_CNT := rec]
    ensures Trail(logs, logs0, e, m)
  {
    if logs == logs0 {
      TrailStart(logs, e, m);
    } else {
      NewestLine(logs0, e, rec);
    }
  }

  /** What died and was not handed over is nothing, or the object of a record that took its last count. */
  ghost predicate AtMostNewest(left: set<Obj>, logs: seq<RedoLog>, e: nat)
    requires |logs| > 0
  {
    left == {} || (Newest(logs).func.UnlinkRef? && Newest(logs).savedCnt == 1 && Newest(logs).era >= e
        && left == {Newest(logs).refed})
  }

  lemma AtMostNone(logs: seq<RedoLog>, e: nat)
    requires |logs| > 0
    ensures AtMostNewest({}, logs, e)
  {
  }

  lemma AtMostOne(logs: seq<RedoLog>, e: nat, o: Obj)
    requires |logs| > 0 && Newest(logs).func.UnlinkRef? && Newest(logs).savedCnt == 1 && Newest(logs).era >= e
             && Newest(logs).refed == o
    ensures AtMostNewest({o}, logs, e)
  {
  }

  lemma AtMostSince(left: set<Obj>, logs: seq<RedoLog>, e: nat, e0: nat)
    requires |logs| > 0 && AtMostNewest(left, logs, e) && e0 <= e
    ensures AtMostNewest(left, logs, e0)
  {
  }

  /** The newest record was written in era e or later and took the last count of an object, which is dead
      and was not handed over. */
  ghost predicate Unhanded(m: Mem, f: seq<Obj>, f': seq<Obj>, logs: seq<RedoLog>, e: nat)
    requires |logs| > 0 && |f| <= |f'|
  {
    var rec := Newest(logs);
    rec.era >= e && rec.func.UnlinkRef? && rec.savedCnt == 1 && Dead(m, rec.refed) && rec.refed !in f'[|f|..]
  }

  lemma LostExact(m: Mem, m': Mem, f: seq<Obj>, f': seq<Obj>, left: set<Obj>, logs: seq<RedoLog>, logs0: seq<RedoLog>,
                  e: nat)
    requires Freed(m, m', f, f', left) && Trail(logs, logs0, e, m) && AtMostNewest(left, logs, e)
    ensures |f| <= |f'| && left == if Unhanded(m', f, f', logs, e) then {Newest(logs).refed} else {}
  {
    assert Died(m, m', Newest(logs).refed) <==> Newest(logs).refed in f'[|f|..] || Newest(logs).refed in left;
  }

  // ----- the account of a release

  /** Each reference dropped costs an era; the last one may not be paid for if the client stopped. */
  predicate OpenSince(n: nat, e0: nat, e: nat, crashed: bool) {
    e == e0 + n || (crashed && e + 1 == e0 + n)
  }

  /** What a client leaves: the memory, its eras and records, and what it handed over. */
  datatype Legacy = Legacy(mem: Mem, era: EraMatrix, logs: seq<RedoLog>, freed: seq<Obj>)

  /** What died was handed over or is in `left`; references were dropped by unlinks of client i, each for an era,
      that hid nothing; and the newest record is of one of them. */
  ghost predicate Account(a: Legacy, b: Legacy, i: Tid, crashed: bool, left: set<Obj>) {
    var e := EraAt(a.era, i, i);
    && Freed(a.mem, b.mem, a.freed, b.freed, left) && Unlinks(a.mem, b.mem, i, left)
    && EraStep(a.mem.words, a.era, b.mem.words, b.era, i)
    && OpenSince(|Emptied(a.mem, b.mem)|, e, EraAt(b.era, i, i), crashed)
    && Trail(b.logs, a.logs, e, a.mem) && AtMostNewest(left, b.logs, e)
  }

  lemma AccountNone(a: Legacy, i: Tid, crashed: bool)
    requires |a.logs| > 0 && forall k :: 0 <= k < |a.logs| ==> a.logs[k].era < EraAt(a.era, i, i)
    ensures Account(a, a, i, crashed, {})
  {
    hide Newest, Freed, Unlinks, EraStep, Emptied, Trail;
    FreedNone(a.mem, a.freed);
    UnlinksNone(a.mem, i);
    EraStepNone(a.mem.words, a.era, i);
    TrailStart(a.logs, EraAt(a.era, i, i), a.mem);
  }

  /** An unlink that stopped before its CAS. */
  lemma AccountStopped(a: Legacy, b: Legacy, i: Tid)
    requires b.mem == a.mem && b.freed == a.freed && EraAt(b.era, i, i) == EraAt(a.era, i, i)
    requires EraStep(a.mem.words, a.era, b.mem.words, b.era, i) && Trail(b.logs, a.logs, EraAt(a.era, i, i), a.mem)
    ensures Account(a, b, i, true, {})
  {
    hide Newest, Freed, Unlinks, EraStep, Emptied;
    FreedNone(a.mem, a.freed);
    UnlinksNone(a.mem, i);
  }

  /** An unlink that was made. */
  lemma AccountOne(a: Legacy, b: Legacy, r: Slot, i: Tid, crashed: bool, left: set<Obj>)
    requires Sound(a.mem) && Dropped(a.mem, b.mem, r)
    requires EraStep(a.mem.words, a.era, b.mem.words, b.era, i) && Trail(b.logs, a.logs, EraAt(a.era, i, i), a.mem)
    requires OpenSince(1, EraAt(a.era, i, i), EraAt(b.era, i, i), crashed)
    requires Touched(b.mem.words[a.mem.slots[r]], i, a.mem.slots[r] in left)
    requires if a.mem.words[a.mem.slots[r]].cnt > 1 then b.freed == a.freed && left == {}
             else if crashed then b.freed == a.freed && left == {a.mem.slots[r]}
             else b.freed == a.freed + [a.mem.slots[r]] && left == {}
    requires AtMostNewest(left, b.logs, EraAt(a.era, i, i))
    ensures Account(a, b, i, crashed, left)
  {
    hide Newest, Freed, Unlinks, EraStep, Emptied, Trail, AtMostNewest, Sound;
    FreedOne(a.mem, b.mem, r, a.freed, b.freed, left);
    DropTouches(a.mem, b.mem, r, i, left);
  }

  lemma AccountOn(a: Legacy, b: Legacy, c: Legacy, i: Tid, crashed: bool, left: set<Obj>)
    requires OnlyDie(a.mem, b.mem) && OnlyDie(b.mem, c.mem)
    requires Account(a, b, i, false, {}) && Account(b, c, i, crashed, left)
    ensures Account(a, c, i, crashed, left)
  {
    hide Newest, Freed, Unlinks, EraStep, Emptied, Trail, AtMostNewest, OnlyDie;
    AccountKnows(b, c, i, crashed, left);
    FreedTrans(a.mem, b.mem, c.mem, a.freed, b.freed, c.freed, {}, left);
    UnlinksOn(a.mem, b.mem, c.mem, i, {}, left);
    assert {} + left == left;
    EraStepOn(a.mem.words, a.era, b.mem.words, b.era, c.mem.words, c.era, i);
    TrailJoin(a.logs, b.logs, c.logs, EraAt(a.era, i, i), EraAt(b.era, i, i), a.mem, b.mem);
    AtMostSince(left, c.logs, EraAt(b.era, i, i), EraAt(a.era, i, i));
  }

  lemma AccountKnows(a: Legacy, b: Legacy, i: Tid, crashed: bool, left: set<Obj>)
    requires Account(a, b, i, crashed, left)
    ensures |b.logs| > 0
  {
  }

  lemma AccountAll(a: Legacy, b: Legacy, i: Tid, crashed: bool, left: set<Obj>)
    requires Account(a, b, i, crashed, left)
    ensures Freed(a.mem, b.mem, a.freed, b.freed, left) && Unlinks(a.mem, b.mem, i, left)
    ensures EraStep(a.mem.words, a.era, b.mem.words, b.era, i)
    ensures OpenSince(|Emptied(a.mem, b.mem)|, EraAt(a.era, i, i), EraAt(b.era, i, i), crashed)
    ensures Trail(b.logs, a.logs, EraAt(a.era, i, i), a.mem) && AtMostNewest(left, b.logs, EraAt(a.era, i, i))
  {
  }

  lemma AccountChild(a: Legacy, b: Legacy, c: Legacy, r: Slot, o: Obj, n: nat, i: Tid, crashed: bool, doomed: set<Obj>,
                     left: set<Obj>)
    requires Sound(a.mem) && Emptying(a.mem, b.mem, r, o, n) && Progress(b.mem, c.mem, EmbSlot(o, n), doomed)
    requires Account(a, b, i, false, {}) && Account(b, c, i, crashed, left)
    ensures Account(a, c, i, crashed, left)
  {
    hide *;
    WhileEmptying(a.mem, b.mem, r, o, n);
    ProgressOnlyDie(b.mem, c.mem, EmbSlot(o, n), doomed);
    AccountOn(a, b, c, i, crashed, left);
  }

  /** What died was handed over, and references were dropped by unlinks for client i, each for an era. */
  ghost predicate Paid(a: Legacy, b: Legacy, i: Tid) {
    && Freed(a.mem, b.mem, a.freed, b.freed, {}) && Unlinks(a.mem, b.mem, i, {})
    && Spends(a.mem.words, a.era, b.mem.words, b.era, i, |Emptied(a.mem, b.mem)|)
  }

  lemma PaidNone(a: Legacy, i: Tid)
    ensures Paid(a, a, i)
  {
    hide Freed, Unlinks, Spends, Emptied;
    FreedNone(a.mem, a.freed);
    UnlinksNone(a.mem, i);
    SpendsNone(a.mem.words, a.era, i);
  }

  lemma PaidOne(a: Legacy, b: Legacy, r: Slot, i: Tid)
    requires Sound(a.mem) && Dropped(a.mem, b.mem, r)
    requires Spends(a.mem.words, a.era, b.mem.words, b.era, i, 1)
    requires Touched(b.mem.words[a.mem.slots[r]], i, false)
    requires b.freed == if a.mem.words[a.mem.slots[r]].cnt > 1 then a.freed else a.freed + [a.mem.slots[r]]
    ensures Paid(a, b, i)
  {
    hide Freed, Unlinks, Spends, Emptied, Sound;
    FreedOne(a.mem, b.mem, r, a.freed, b.freed, {});
    DropTouches(a.mem, b.mem, r, i, {});
  }

  lemma PaidOn(a: Legacy, b: Legacy, c: Legacy, i: Tid)
    requires OnlyDie(a.mem, b.mem) && OnlyDie(b.mem, c.mem) && Paid(a, b, i) && Paid(b, c, i)
    ensures Paid(a, c, i)
  {
    hide Freed, Unlinks, Spends, Emptied, OnlyDie;
    FreedOn(a.mem, b.mem, c.mem, a.freed, b.freed, c.freed);
    UnlinksBoth(a.mem, b.mem, c.mem, i);
    SpendsOn(a.mem.words, a.era, b.mem.words, b.era, c.mem.words, c.era, i, |Emptied(a.mem, b.mem)|,
             |Emptied(b.mem, c.mem)|);
  }

  lemma PaidAll(a: Legacy, b: Legacy, i: Tid)
    requires Paid(a, b, i)
    ensures Freed(a.mem, b.mem, a.freed, b.freed, {}) && Unlinks(a.mem, b.mem, i, {})
    ensures Spends(a.mem.words, a.era, b.mem.words, b.era, i, |Emptied(a.mem, b.mem)|)
    ensures StampsBelow(a.mem.words, i, EraAt(a.era, i, i)) ==> StampsBelow(b.mem.words, i, EraAt(b.era, i, i))
  {
  }

  lemma PaidBack(a: Legacy, b: Legacy, i: Tid)
    requires Freed(a.mem, b.mem, a.freed, b.freed, {}) && Unlinks(a.mem, b.mem, i, {})
    requires Spends(a.mem.words, a.era, b.mem.words, b.era, i, |Emptied(a.mem, b.mem)|)
    ensures Paid(a, b, i)
  {
  }

  lemma PaidChild(a: Legacy, b: Legacy, c: Legacy, r: Slot, o: Obj, n: nat, i: Tid)
    requires Sound(a.mem) && Emptying(a.mem, b.mem, r, o, n) && Collected(b.mem, c.mem, EmbSlot(o, n))
    requires Paid(a, b, i) && Paid(b, c, i)
    ensures Paid(a, c, i)
  {
    hide *;
    WhileEmptying(a.mem, b.mem, r, o, n);
    Underway(b.mem, c.mem, EmbSlot(o, n));
    ProgressOnlyDie(b.mem, c.mem, EmbSlot(o, n), {});
    PaidOn(a, b, c, i);
  }

  /** The account of a release by the client, and of the monitor's sweep after it. */
  lemma AccountPaid(a: Legacy, b: Legacy, c: Legacy, i: Tid, left: set<Obj>)
    requires OnlyDie(a.mem, b.mem) && OnlyDie(b.mem, c.mem) && StampsBelow(a.mem.words, i, EraAt(a.era, i, i) + 1)
    requires Account(a, b, i, true, left) && Paid(b, c, i)
    ensures Freed(a.mem, c.mem, a.freed, c.freed, left) && Unlinks(a.mem, c.mem, i, left)
    ensures EraStep(a.mem.words, a.era, c.mem.words, c.era, i)
    ensures OpenSince(|Emptied(a.mem, c.mem)|, EraAt(a.era, i, i), EraAt(c.era, i, i), true)
    ensures Trail(b.logs, a.logs, EraAt(a.era, i, i), a.mem) && AtMostNewest(left, b.logs, EraAt(a.era, i, i))
  {
    hide Freed, Unlinks, Spends, Emptied, OnlyDie, EraStep, StampsBelow, Trail, AtMostNewest, Newest;
    FreedTrans(a.mem, b.mem, c.mem, a.freed, b.freed, c.freed, left, {});
    UnlinksOn(a.mem, b.mem, c.mem, i, left, {});
    assert left + {} == left;
    SpendsEras(a.mem.words, a.era, b.mem.words, b.era, c.mem.words, c.era, i, |Emptied(b.mem, c.mem)|);
  }

  /** The slots of the hole hold what they held. */
  ghost predicate HoleKept(m: Mem, m': Mem, hole: set<Slot>) {
    Unstamped(m', hole) && forall x :: x in hole ==> x in m.slots && x in m'.slots && m'.slots[x] == m.slots[x]
  }

  lemma HoleSame(m: Mem, hole: set<Slot>)
    requires Unstamped(m, hole)
    ensures HoleKept(m, m, hole)
  {
  }

  lemma HoleStill(m: Mem, m': Mem, hole: set<Slot>)
    requires HoleKept(m, m', hole)
    ensures Unstamped(m', hole)
    ensures forall x :: x in hole ==> x in m.slots && x in m'.slots && m'.slots[x] == m.slots[x]
  {
  }

  lemma HoleOn(m0: Mem, m: Mem, m': Mem, hole: set<Slot>)
    requires HoleKept(m0, m, hole) && HoleKept(m, m', hole)
    ensures HoleKept(m0, m', hole)
  {
  }

  lemma HoleBeside(m0: Mem, m: Mem, m': Mem, r: Slot, hole: set<Slot>)
    requires HoleKept(m0, m, hole) && Dropped(m, m', r) && r !in hole && m.words[m.slots[r]].cnt > 0
    ensures HoleKept(m0, m', hole) && Dropped(Cut(m, hole), Cut(m', hole), r)
  {
    hide Dropped, Cut;
    DroppedBeside(m, m', r, hole);
  }

  function SlotSet(roots: seq<Slot>): set<Slot> {
    set x | x in roots
  }

  lemma SlotSetMore(roots: seq<Slot>, r: Slot)
    ensures SlotSet(roots + [r]) == SlotSet(roots) + {r}
  {
  }

  class Shm {
    const tid: Tid
    const mayStop: bool      // whether this client may stop for good
    var words: map<Obj, Word>
    var emb: map<Obj, nat>
    var slots: map<Slot, Obj>
    var era: EraMatrix
    var logs: seq<RedoLog>
    var freed: seq<Obj>      // objects handed to the block allocator, in order
    var spurious: nat        // how often a weak compare-and-swap may still fail for no reason

    constructor (tid: Tid, mayStop: bool, words: map<Obj, Word>, emb: map<Obj, nat>, slots: map<Slot, Obj>,
                 era: EraMatrix, logs: seq<RedoLog>, spurious: nat)
      ensures this.tid == tid && this.mayStop == mayStop && Now() == Mem(words, emb, slots) && this.era == era
      ensures this.logs == logs && this.freed == [] && this.spurious == spurious
    {
      this.tid, this.mayStop := tid, mayStop;
      this.words, this.emb, this.slots := words, emb, slots;
      this.era, this.logs, this.freed, this.spurious := era, logs, [], spurious;
    }

    ghost function Now(): Mem
      reads this
    {
      Mem(words, emb, slots)
    }

    function OwnEra(): nat
      reads this
    {
      EraAt(era, tid, tid)
    }

    /** The memory as it will be once the monitor has replayed the client's newest record. */
    ghost function Redone(): Mem
      requires |logs| > 0
      reads this
    {
      var rec := Newest(logs);
      Mem(words, emb, Replayed(slots, rec, NeedRedo(words, era, tid, rec)))
    }

    /** What the client leaves behind: if it stopped, as the monitor's replay will make it. */
    ghost function Leaves(crashed: bool): (l: Legacy)
      requires crashed ==> |logs| > 0
      reads this
      ensures l.mem.words == words && l.mem.emb == emb
    {
      Legacy(if crashed then Redone() else Now(), era, logs, freed)
    }

    /** No stamp of the client's current era is anywhere: not on a word, in a row or in its log. */
    ghost predicate EraUnused()
      reads this
    {
      && OwnEra() > 0
      && (forall o :: o in words && words[o].cid == tid ==> words[o].era < OwnEra())
      && RowsBelow(era, tid, OwnEra())
    }

    /** Between two counted updates. */
    ghost predicate Between()
      reads this
    {
      && |logs| == REDO_CACHELINE_CNT && EraUnused()
      && (forall k :: 0 <= k < |logs| ==> logs[k].era < OwnEra())
      && Harmless(words, slots, era, tid, Newest(logs))
    }

    method CompareExchangeWeak(o: Obj, expected: Word, desired: Word) returns (ok: bool)
      requires o in words
      modifies this`words, this`spurious
      ensures ok ==> old(words)[o] == expected && words == old(words)[o := desired] && spurious == old(spurious)
      ensures !ok ==> words == old(words)
      ensures !ok ==> spurious == if old(words)[o] == expected then old(spurious) - 1 else old(spurious)
    {
      ok := words[o] == expected;
      if ok && spurious > 0 {
        var fails: bool := *;
        if fails {
          spurious := spurious - 1;
          ok := false;
        }
      }
      if ok {
        words := words[o := desired];
      }
    }

    /** The newest record, if there is one, names a known slot and a known object. */
    predicate Readable()
      reads this
    {
      |logs| == REDO_CACHELINE_CNT
      && var rec := Newest(logs); !rec.func.NoFunc? ==> rec.refed in words && rec.ref in slots
    }

    lemma BetweenRedone()
      requires Between()
      ensures Readable() && Redone() == Now()
    {
      HarmlessReplay(words, slots, era, tid, Newest(logs));
    }

    /** The retry loop shared by link and unlink: observe, log, try. Every attempt logs the same era, so
        it rewrites the same line, and no attempt that failed can be mistaken for a success. */
    method LogAndTry(func: Func, r: Slot, o: Obj) returns (crashed: bool, saw: Word)
      requires Between() && r in slots && o in words
      requires func.UnlinkRef? ==> words[o].cnt > 0
      requires !func.NoFunc?
      modifies this`words, this`era, this`logs, this`spurious
      ensures crashed ==> mayStop
      ensures |logs| == 8 && OwnEra() == old(OwnEra()) && saw == old(words)[o]
      ensures crashed ==> Readable()
      ensures RowsBelow(era, tid, OwnEra())
      ensures crashed ==> Redone() == old(Now()) && words == old(words)
      ensures era == old(era) || era == Observe(old(era), tid, old(words)[o])
      ensures logs != old(logs) || !crashed ==> era == Observe(old(era), tid, old(words)[o])
      ensures EraStep(old(words), old(era), words, era, tid)
      ensures logs == old(logs)
              || logs == old(logs)[OwnEra() % REDO_CACHELINE_CNT := RedoLog(func, old(words)[o].cnt, OwnEra(), r, o)]
      ensures !crashed ==>
                && words == old(words)[o := Stamp(tid, func, old(words)[o], old(OwnEra()))]
                && logs == old(logs)[OwnEra() % REDO_CACHELINE_CNT := RedoLog(func, old(words)[o].cnt, OwnEra(), r, o)]
    {
      saw := words[o];
      crashed := true;
      ghost var line := OwnEra() % REDO_CACHELINE_CNT;
      ghost var rec := RedoLog(func, saw.cnt, OwnEra(), r, o);
      var ok := false;
      hide Newest, MaxRow, NeedRedo, Redone, Replayed, RowsBelow, EraStep;
      HarmlessReplay(words, slots, era, tid, Newest(logs));
      EraStepNone(words, era, tid);
      SeenStep(words, era, o, tid);
      while !ok
        invariant !ok ==> words == old(words)
        invariant ok ==> words == old(words)[o := Stamp(tid, func, saw, OwnEra())]
        invariant OwnEra() == old(OwnEra())
        invariant RowsBelow(era, tid, OwnEra())
        invariant !ok ==> Harmless(words, slots, era, tid, Newest(old(logs)))
        invariant era == old(era) || era == Observe(old(era), tid, saw)
        invariant logs != old(logs) || ok ==> era == Observe(old(era), tid, saw)
        invariant logs == old(logs) || logs == old(logs)[line := rec]
        invariant ok ==> logs == old(logs)[line := rec]
        decreases spurious, !ok
      {
        if { case mayStop => ShowAbandoned(func, r, o, old(logs)); return; case true => }
        var refInfo := words[o];
        if { case mayStop => ShowAbandoned(func, r, o, old(logs)); return; case true => }
        RowsObserve(era, tid, refInfo);
        HarmlessObserved(words, slots, era, tid, refInfo, Newest(old(logs)));
        if refInfo.era > EraAt(era, tid, refInfo.cid) {
          era := era[(tid, refInfo.cid) := refInfo.era];
        }
        if { case mayStop => ShowAbandoned(func, r, o, old(logs)); return; case true => }
        var curEra := OwnEra();
        logs := logs[curEra % REDO_CACHELINE_CNT := RedoLog(func, refInfo.cnt, curEra, r, o)];
        if { case mayStop => ShowAbandoned(func, r, o, old(logs)); return; case true => }
        ok := CompareExchangeWeak(o, refInfo, Stamp(tid, func, refInfo, curEra));
      }
      OneUpdate(old(words), old(era), o, words[o], tid, false);
      crashed := false;
    }

    /** Stopping before the CAS leaves nothing for redo to do. */
    lemma ShowAbandoned(func: Func, r: Slot, o: Obj, logs0: seq<RedoLog>)
      requires |logs0| == REDO_CACHELINE_CNT && EraUnused() && r in slots && o in words
      requires forall k :: 0 <= k < |logs0| ==> logs0[k].era < OwnEra()
      requires Harmless(words, slots, era, tid, Newest(logs0))
      requires logs == logs0
               || logs == logs0[OwnEra() % REDO_CACHELINE_CNT := RedoLog(func, words[o].cnt, OwnEra(), r, o)]
      ensures Readable() && Redone() == Now()
    {
      if logs == logs0 {
        HarmlessReplay(words, slots, era, tid, Newest(logs));
      } else {
        NewestLine(logs0, OwnEra(), RedoLog(func, words[o].cnt, OwnEra(), r, o));
        MaxRowBelow(era, tid, MAX_THREAD, OwnEra());
      }
    }

    /** After the CAS, whatever the client still manages to do, the record is replayed onto slot r. */
    lemma ShowCommitted(func: Func, r: Slot, o: Obj, saw: Word, e: nat, logs0: seq<RedoLog>)
      requires |logs0| == REDO_CACHELINE_CNT && !func.NoFunc? && r in slots && o in words
      requires forall k :: 0 <= k < |logs0| ==> logs0[k].era < e
      requires logs == logs0[e % REDO_CACHELINE_CNT := RedoLog(func, saw.cnt, e, r, o)]
      requires (words[o].cid == tid && words[o].era == e) || slots[r] == Target(RedoLog(func, saw.cnt, e, r, o))
      ensures Readable()
      ensures Newest(logs) == RedoLog(func, saw.cnt, e, r, o)
      ensures Redone() == Mem(words, emb, slots[r := Target(RedoLog(func, saw.cnt, e, r, o))])
    {
      NewestLine(logs0, e, RedoLog(func, saw.cnt, e, r, o));
    }

    /** Slot r refers to o and o has one more count. */
    ghost predicate Linked(m: Mem, m': Mem, r: Slot, o: Obj) {
      && o in m.words && m'.emb == m.emb && m'.slots == m.slots[r := o]
      && m'.words.Keys == m.words.Keys && m'.words[o].cnt == m.words[o].cnt + 1
      && forall p :: p in m.words && p != o ==> m'.words[p] == m.words[p]
    }

    /** The client has seen the word before it logs, has logged before it updates the word, and spends its era at
        the end: not `tried`, it may have stopped before each of these. */
    predicate Recorded(func: Func, r: Slot, o: Obj, logs0: seq<RedoLog>, logs: seq<RedoLog>, w: Word,
                       era0: EraMatrix, era: EraMatrix, tried: bool, spent: bool)
      requires |logs0| == REDO_CACHELINE_CNT
    {
      var e := EraAt(era0, tid, tid);
      var seen := Observe(era0, tid, w);
      var logged := logs0[e % REDO_CACHELINE_CNT := RedoLog(func, w.cnt, e, r, o)];
      if tried then (logs == logs0 && (era == era0 || era == seen)) || (logs == logged && era == seen)
      else logs == logged && era == if spent then BumpEra(seen, tid) else seen
    }

    /** A link that runs to its end counts the reference; one that stops anywhere is, after redo,
        either not made at all or made completely. */
    method LinkReference(r: Slot, o: Obj) returns (crashed: bool)
      requires Between() && r in slots && o in words && slots[r] == 0
      modifies this`words, this`slots, this`era, this`logs, this`spurious
      ensures crashed ==> mayStop
      ensures |logs| == REDO_CACHELINE_CNT && (crashed ==> Readable())
      ensures !crashed ==>
                && Between() && OwnEra() == old(OwnEra()) + 1
                && Now() == Mem(old(words)[o := Word(tid, old(words)[o].cnt + 1, old(OwnEra()))],
                                emb, old(slots)[r := o])
      ensures crashed ==> Redone() == old(Now()) || Linked(old(Now()), Redone(), r, o)
      ensures crashed ==>
                words == old(words) || words == old(words)[o := Word(tid, old(words)[o].cnt + 1, old(OwnEra()))]
      ensures Recorded(LinkRef, r, o, old(logs), logs, old(words)[o], old(era), era,
                       crashed && words == old(words), !crashed)
      ensures EraStep(old(words), old(era), words, era, tid)
    {
      ghost var e, logs0 := OwnEra(), logs;
      var saw;
      hide Newest, MaxRow, NeedRedo, Redone, Replayed, RowsBelow, EraStep;
      crashed, saw := LogAndTry(LinkRef, r, o);
      if crashed { return; }
      OneUpdate(old(words), old(era), o, words[o], tid, true);
      ShowCommitted(LinkRef, r, o, saw, e, logs0);
      if { case mayStop => return true; case true => }
      slots := slots[r := o];
      ShowCommitted(LinkRef, r, o, saw, e, logs0);
      if { case mayStop => return true; case true => }
      RowsBumped(era, tid);
      era := BumpEra(era, tid);
      return false;
    }

    /** An unlink that runs to its end drops the reference and releases an object without count; one
        that stops anywhere is, after redo, either not made at all or made completely. */
    method UnlinkReference(r: Slot, o: Obj) returns (crashed: bool)
      requires Between() && r in slots && o in words && o in emb && slots[r] == o && words[o].cnt > 0
      modifies this`words, this`emb, this`slots, this`era, this`logs, this`spurious, this`freed
      ensures crashed ==> mayStop
      ensures |logs| == REDO_CACHELINE_CNT && (crashed ==> Readable())
      ensures !crashed ==>
                && Between() && OwnEra() == old(OwnEra()) + 1 && Dropped(old(Now()), Now(), r)
                && (if old(words)[o].cnt == 1
                    then words[o] == ZeroWord && emb[o] == 0 && freed == old(freed) + [o]
                    else words[o] == Word(tid, old(words)[o].cnt - 1, old(OwnEra()))
                         && emb == old(emb) && freed == old(freed))
      ensures crashed ==>
                && freed == old(freed)
                && (Redone() == old(Now())
                    || (Dropped(old(Now()), Redone(), r)
                        && Newest(logs) == RedoLog(UnlinkRef, old(words)[o].cnt, old(OwnEra()), r, o)
                        && (words[o] == Word(tid, old(words)[o].cnt - 1, old(OwnEra()))
                            || (words[o] == ZeroWord && old(words)[o].cnt == 1 && OwnEra() > old(OwnEra())))))
      ensures crashed && words != old(words) && OwnEra() > old(OwnEra()) ==> slots == old(slots)[r := 0]
      ensures crashed && words == old(words) ==> Now() == old(Now()) && OwnEra() == old(OwnEra())
      ensures OwnEra() <= old(OwnEra()) + 1
      ensures Recorded(UnlinkRef, r, o, old(logs), logs, old(words)[o], old(era), era, crashed && words == old(words),
                       OwnEra() > old(OwnEra()))
      ensures EraStep(old(words), old(era), words, era, tid)
      ensures Trail(logs, old(logs), old(OwnEra()), old(Now())) && OwnEra() >= old(OwnEra())
    {
      ghost var e, era0, logs0, m0 := OwnEra(), era, logs, Now();
      var saw;
      hide Newest, MaxRow, NeedRedo, Redone, Replayed, RowsBelow, Trail, EraStep, Dropped, Observe;
      crashed, saw := LogAndTry(UnlinkRef, r, o);
      TrailRecord(logs, logs0, e, m0, RedoLog(UnlinkRef, m0.words[o].cnt, e, r, o));
      if crashed { return; }
      ShowUnlinked(m0, era0, logs0, r, o);
      if { case mayStop => return true; case true => }
      slots := slots[r := 0];
      ShowUnlinked(m0, era0, logs0, r, o);
      if { case mayStop => return true; case true => }
      RowsBumped(era, tid);
      era := BumpEra(era, tid);
      ShowUnlinked(m0, era0, logs0, r, o);
      if { case mayStop => return true; case true => }
      if saw.cnt == 1 {
        words, emb := words[o := ZeroWord], emb[o := 0];
        ShowUnlinked(m0, era0, logs0, r, o);
        if { case mayStop => return true; case true => }
        freed := freed + [o];
      }
      return false;
    }

    /** How far an unlink came after its CAS: the slot is written, then the era spent, then a dead object's header
        wiped. */
    ghost predicate PastCas(m0: Mem, era0: EraMatrix, logs0: seq<RedoLog>, r: Slot, o: Obj)
      requires |logs0| == REDO_CACHELINE_CNT && o in m0.words && m0.words[o].cnt > 0
      reads this
    {
      var e, w, seen := EraAt(era0, tid, tid), m0.words[o], Observe(era0, tid, m0.words[o]);
      && logs == logs0[e % REDO_CACHELINE_CNT := RedoLog(UnlinkRef, w.cnt, e, r, o)]
      && (slots == m0.slots || slots == m0.slots[r := 0])
      && (era == seen || (era == BumpEra(seen, tid) && slots == m0.slots[r := 0]))
      && ((words == m0.words[o := Word(tid, w.cnt - 1, e)] && emb == m0.emb)
          || (words == m0.words[o := ZeroWord] && emb == m0.emb[o := 0] && w.cnt == 1 && era == BumpEra(seen, tid)))
    }

    lemma ShowUnlinked(m0: Mem, era0: EraMatrix, logs0: seq<RedoLog>, r: Slot, o: Obj)
      requires |logs0| == REDO_CACHELINE_CNT && (forall k :: 0 <= k < |logs0| ==> logs0[k].era < EraAt(era0, tid, tid))
      requires r in m0.slots && o in m0.words && o in m0.emb && m0.slots[r] == o && m0.words[o].cnt > 0
      requires (m0.words[o].cid == tid ==> m0.words[o].era < EraAt(era0, tid, tid)) && PastCas(m0, era0, logs0, r, o)
      ensures Readable() && Newest(logs) == RedoLog(UnlinkRef, m0.words[o].cnt, EraAt(era0, tid, tid), r, o)
      ensures Dropped(m0, Redone(), r) && (slots == m0.slots[r := 0] ==> Redone() == Now())
      ensures EraStep(m0.words, era0, words, era, tid)
      ensures OwnEra() == EraAt(era0, tid, tid) + if era == Observe(era0, tid, m0.words[o]) then 0 else 1
    {
      hide Newest, MaxRow, NeedRedo, EraStep;
      var e := EraAt(era0, tid, tid);
      ShowCommitted(UnlinkRef, r, o, m0.words[o], e, logs0);
      OneUpdate(m0.words, era0, o, words[o], tid, false);
      OneUpdate(m0.words, era0, o, words[o], tid, true);
      ObserveRow(era0, tid, m0.words[o]);
      BumpRow(Observe(era0, tid, m0.words[o]), tid);
    }

    /** Stopping between two unlinks. */
    lemma ShowPaused(m0: Mem, a: Legacy, r: Slot, o: Obj, rank: map<Obj, nat>)
      requires Between() && o in rank && OnlyBelow(m0, Now(), rank, rank[o])
      requires Account(a, Leaves(false), tid, false, {})
      ensures Readable() && Redone() == Now() && OnlyBelow(m0, Now(), rank, rank[o] + 1)
      ensures Account(a, Leaves(true), tid, true, {})
    {
      hide Newest, MaxRow, NeedRedo, Redone, Replayed, RowsBelow, Harmless, EraUnused, EraStep, Trail, AtMostNewest,
           Freed, Unlinks, Emptied, OnlyBelow;
      BetweenRedone();
      RaiseBelow(m0, Now(), rank, rank[o], rank[o] + 1);
    }

    /** How high a release of slot r can reach. */
    ghost function Height(r: Slot, rank: map<Obj, nat>): nat
      requires r in slots
      reads this
    {
      if slots[r] in words && slots[r] in rank then rank[slots[r]] + 1 else 0
    }

    /** The unlink of the last reference was made. */
    lemma ShowLast(b: Legacy, r: Slot, o: Obj, crashed: bool, left: set<Obj>)
      requires Sound(b.mem) && r in b.mem.slots && b.mem.slots[r] == o && o in b.mem.words && b.mem.words[o].cnt == 1
      requires |logs| > 0 && Dropped(b.mem, Leaves(crashed).mem, r)
      requires EraStep(b.mem.words, b.era, words, era, tid) && Trail(logs, b.logs, EraAt(b.era, tid, tid), b.mem)
      requires OpenSince(1, EraAt(b.era, tid, tid), OwnEra(), crashed)
      requires if crashed then freed == b.freed && left == {o} else freed == b.freed + [o] && left == {}
      requires crashed ==> Newest(logs) == RedoLog(UnlinkRef, 1, EraAt(b.era, tid, tid), r, o)
      requires words[o] == ZeroWord || (crashed && words[o].cid == tid)
      ensures Account(b, Leaves(crashed), tid, crashed, left)
    {
      hide Newest, MaxRow, NeedRedo, Redone, Replayed, EraStep, Trail, Sound, Dropped, Account;
      if crashed {
        AtMostOne(logs, EraAt(b.era, tid, tid), o);
      } else {
        AtMostNone(logs, EraAt(b.era, tid, tid));
      }
      AccountOne(b, Leaves(crashed), r, tid, crashed, left);
    }

    /** Release slot r; the last reference to an object releases its embedded references first. If it
        stops anywhere, redo leaves a release that is under way: what is still missing hangs from slot
        r alone. */
    method TestFree(r: Slot, ghost rank: map<Obj, nat>, ghost top: nat)
      returns (crashed: bool, ghost doomed: set<Obj>, ghost left: set<Obj>)
      requires Between() && Sound(Now()) && Ranked(Now(), rank, top) && r in slots
      modifies this`words, this`emb, this`slots, this`era, this`logs, this`spurious, this`freed
      ensures crashed ==> mayStop
      ensures |logs| == REDO_CACHELINE_CNT && (crashed ==> Readable())
      ensures !crashed ==> Between() && Collected(old(Now()), Now(), r)
      ensures crashed ==> Progress(old(Now()), Redone(), r, doomed)
      ensures OnlyBelow(old(Now()), Leaves(crashed).mem, rank, old(Height(r, rank)))
      ensures Account(old(Leaves(false)), Leaves(crashed), tid, crashed, left) && (!crashed ==> left == {})
      decreases Height(r, rank)
    {
      hide Newest, MaxRow, NeedRedo, Redone, Replayed, RowsBelow, Harmless, EraUnused;
      hide EraStep, Trail, Observe, Recorded, AtMostNewest, Account;
      hide Progress, Collected, Dropped, Sound, Shape, Exact, Clean, OnlyBelow, Emptying, Ranked, SameDomains, OnlyDie;
      ghost var m0, a := Now(), Leaves(false);
      doomed, left := {}, {};
      AccountNone(a, tid, false);
      AccountNone(a, tid, true);
      BetweenRedone();
      NothingYet(m0, r);
      SameBelow(m0, rank, Height(r, rank));
      if { case mayStop => return true, doomed, left; case true => }
      var o := slots[r];
      if o == 0 {
        CollectedEmpty(m0, r);
        return false, doomed, left;
      }
      KnownObject(m0, r, rank, top);
      var refInfo := words[o];
      if { case mayStop => return true, doomed, left; case true => }
      if refInfo.cnt - 1 > 0 {
        crashed := UnlinkReference(r, o);
        if crashed && Redone() == m0 {
          AccountStopped(a, Leaves(true), tid);
        } else {
          AtMostNone(logs, EraAt(a.era, tid, tid));
          AccountOne(a, Leaves(crashed), r, tid, crashed, {});
          DropAlone(m0, Leaves(crashed).mem, r, rank, top);
        }
        return crashed, doomed, left;
      }
      Begin(m0, r, o);
      SameBelow(m0, rank, rank[o]);
      var i := 0;
      while i < emb[o]
        invariant o in m0.emb && o in emb && emb[o] == m0.emb[o] && o in words && o in rank
                  && rank[o] < old(Height(r, rank)) && 0 <= i <= emb[o]
        invariant Between() && Emptying(m0, Now(), r, o, i) && Ranked(Now(), rank, top)
        invariant OnlyBelow(m0, Now(), rank, rank[o]) && Account(a, Leaves(false), tid, false, {}) && left == {}
        decreases emb[o] - i
      {
        ghost var m, b := Now(), Leaves(false);
        WhileEmptying(m0, m, r, o, i);
        ChildSlot(m, o, i, rank, top);
        if {
          case mayStop =>
            ShowPaused(m0, a, r, o, rank);
            return true, {o}, left;
          case true =>
        }
        ghost var h, below := Height(EmbSlot(o, i), rank), {};
        crashed, below, left := TestFree(EmbSlot(o, i), rank, top);
        if crashed {
          AccountChild(a, b, Leaves(true), r, o, i, tid, true, below, left);
          ChildStopped(m0, m, Redone(), r, o, i, below, h, rank, top);
          return true, below + {o}, left;
        }
        Underway(m, Now(), EmbSlot(o, i));
        AccountChild(a, b, Leaves(false), r, o, i, tid, false, {}, left);
        ChildFreed(m0, m, Now(), r, o, i, h, rank, top);
        i := i + 1;
      }
      ghost var m, b := Now(), Leaves(false);
      WhileEmptying(m0, m, r, o, i);
      if {
        case mayStop =>
          ShowPaused(m0, a, r, o, rank);
          return true, {o}, left;
        case true =>
      }
      crashed := UnlinkReference(r, o);
      if crashed && Redone() == m {
        AccountStopped(b, Leaves(true), tid);
        SameDead(m);
        RaiseBelow(m0, m, rank, rank[o], rank[o] + 1);
        doomed := {o};
      } else {
        left := if crashed then {o} else {};
        ShowLast(b, r, o, crashed, left);
        LastDropped(m0, m, Leaves(crashed).mem, r, o, rank, top);
      }
      AccountOn(a, b, Leaves(crashed), tid, crashed, left);
      return crashed, doomed, left;
    }

    // ----- the monitor, on behalf of a client that stopped

    /** The scan of the redo lines and the decision whether the recorded CAS happened. */
    method RedoRefCnt()
      requires Readable()
      modifies this`slots
      ensures Now() == old(Redone())
    {
      var redo := logs[0];
      var i := 1;
      while i < REDO_CACHELINE_CNT
        invariant 1 <= i <= REDO_CACHELINE_CNT
        invariant redo == Newest(logs[..i])
      {
        assert logs[..i + 1][..i] == logs[..i];
        if logs[i].era > redo.era {
          redo := logs[i];
        }
        i := i + 1;
      }
      assert logs[..i] == logs;
      if redo.func.LinkRef? {
        var need := NeedsRedo(redo);
        if need {
          slots := slots[redo.ref := redo.refed];
        }
      } else if redo.func.UnlinkRef? {
        var need := NeedsRedo(redo);
        if need {
          slots := slots[redo.ref := 0];
        }
      }
    }

    method NeedsRedo(redo: RedoLog) returns (need: bool)
      requires !redo.func.NoFunc? && redo.refed in words
      ensures need == NeedRedo(words, era, tid, redo)
    {
      var w := words[redo.refed];
      if w.cid == tid && w.era == redo.era {
        return true;
      }
      var maxEra, j := 0, 0;
      while j < MAX_THREAD
        invariant 0 <= j <= MAX_THREAD && maxEra == MaxRow(era, tid, j)
      {
        if j != tid && EraAt(era, j, tid) > maxEra {
          maxEra := EraAt(era, j, tid);
        }
        j := j + 1;
      }
      return redo.era <= maxEra;
    }

    method RecoveryUnlinkReference(r: Slot, o: Obj)
      requires r in slots && o in words && o in emb && slots[r] == o && words[o].cnt > 0
      modifies this`words, this`emb, this`slots, this`era, this`spurious, this`freed
      ensures Dropped(old(Now()), Now(), r)
      ensures if old(words)[o].cnt == 1
              then words[o] == ZeroWord && emb[o] == 0 && freed == old(freed) + [o]
              else words[o] == Word(tid, old(words)[o].cnt - 1, words[o].era) && emb == old(emb) && freed == old(freed)
      ensures old(words)[o].cnt > 1 && (old(words)[o].cid == tid ==> old(words)[o].era <= old(OwnEra())) ==>
                words[o].era == old(OwnEra())
      ensures era == BumpEra(Observe(old(era), tid, old(words)[o]), tid)
      ensures Spends(old(words), old(era), words, era, tid, 1)
    {
      hide Spends, NeedRedo, Dropped;
      var saw := words[o];
      var ok := false;
      ghost var e := OwnEra();
      while !ok
        invariant saw == old(words)[o]
        invariant words == if ok then old(words)[o := Word(tid, saw.cnt - 1, e)] else old(words)
        invariant (saw.cid == tid ==> saw.era <= old(OwnEra())) ==> e == old(OwnEra()) && e == OwnEra()
        invariant era == Observe(old(era), tid, saw) || (era == old(era) && !ok)
        decreases spurious, !ok
        modifies this`words, this`era, this`spurious
      {
        saw := words[o];
        var curEra := OwnEra();
        e := curEra;
        if saw.era > EraAt(era, tid, saw.cid) {
          era := era[(tid, saw.cid) := saw.era];
        }
        ok := CompareExchangeWeak(o, saw, Stamp(tid, UnlinkRef, saw, curEra));
      }
      slots := slots[r := 0];
      era := BumpEra(era, tid);
      if saw.cnt == 1 {
        words, emb := words[o := ZeroWord], emb[o := 0];
        freed := freed + [o];
      }
      DropsOne(old(Now()), Now(), r, words[o]);
      SpendsOne(old(words), old(era), o, words[o], tid);
    }

    /** The memory with some slots left out of account. */
    ghost function View(hole: set<Slot>): Mem
      reads this
    {
      Cut(Now(), hole)
    }

    /** The same with the slots of `hole` left out of account. */
    ghost function Beside(hole: set<Slot>): (l: Legacy)
      reads this
      ensures l.mem.words == words
    {
      Legacy(View(hole), era, logs, freed)
    }

    /** The monitor's release of a slot. Objects that never got their first count may be held by the slots of
        `hole`: such a slot is left alone, and the others are released as if it were empty. */
    method RecoveryTestFree(r: Slot, ghost hole: set<Slot>, ghost rank: map<Obj, nat>, ghost top: nat)
      requires r in slots && Unstamped(Now(), hole) && Sound(View(hole)) && Ranked(View(hole), rank, top)
      modifies this`words, this`emb, this`slots, this`era, this`spurious, this`freed
      ensures HoleKept(old(Now()), Now(), hole)
      ensures r in hole ==> Now() == old(Now()) && freed == old(freed) && era == old(era)
      ensures r !in hole ==>
                && Collected(old(View(hole)), View(hole), r)
                && OnlyBelow(old(View(hole)), View(hole), rank, old(Height(r, rank)))
      ensures Paid(old(Beside(hole)), Beside(hole), tid)
      decreases Height(r, rank)
    {
      hide Newest, MaxRow, NeedRedo, Redone, Replayed, RowsBelow, Harmless, EraUnused, Unstamped;
      hide Progress, Collected, Dropped, Sound, Shape, Exact, Clean, OnlyBelow, Emptying, Ranked, SameDomains, OnlyDie;
      hide Spends, Paid, Observe, HoleKept;
      ghost var n0, m0, a := Now(), View(hole), Beside(hole);
      HoleSame(n0, hole);
      PaidNone(a, tid);
      SameBelow(m0, rank, Height(r, rank));
      HoleSlots(Now(), hole);
      if slots[r] == 0 {
        CollectedEmpty(m0, r);
        return;
      }
      var o := slots[r];
      if r !in hole {
        KnownObject(m0, r, rank, top);
      }
      var refCnt := words[o].cnt;
      if refCnt == 0 {
        return;
      }
      if refCnt - 1 > 0 {
        RecoveryUnlinkReference(r, o);
        HoleBeside(n0, n0, Now(), r, hole);
        DropAlone(m0, View(hole), r, rank, top);
        PaidOne(a, Beside(hole), r, tid);
        return;
      }
      Begin(m0, r, o);
      SameBelow(m0, rank, rank[o]);
      var i := 0;
      while i < emb[o]
        invariant o in m0.emb && o in emb && emb[o] == m0.emb[o] && o in words && o in rank
        invariant rank[o] < old(Height(r, rank)) && 0 <= i <= emb[o]
        invariant Emptying(m0, View(hole), r, o, i) && Ranked(View(hole), rank, top)
        invariant HoleKept(n0, Now(), hole)
        invariant OnlyBelow(m0, View(hole), rank, rank[o]) && Paid(a, Beside(hole), tid)
        decreases emb[o] - i
      {
        ghost var n, m, b := Now(), View(hole), Beside(hole);
        HoleStill(n0, n, hole);
        WhileEmptying(m0, m, r, o, i);
        ChildSlot(m, o, i, rank, top);
        HoleSlots(Now(), hole);
        ghost var h := Height(EmbSlot(o, i), rank);
        RecoveryTestFree(EmbSlot(o, i), hole, rank, top);
        HoleOn(n0, n, Now(), hole);
        ChildFreed(m0, m, View(hole), r, o, i, h, rank, top);
        PaidChild(a, b, Beside(hole), r, o, i, tid);
        i := i + 1;
      }
      ghost var n, m, b := Now(), View(hole), Beside(hole);
      WhileEmptying(m0, m, r, o, i);
      RecoveryUnlinkReference(r, o);
      HoleBeside(n0, n, Now(), r, hole);
      LastDropped(m0, m, View(hole), r, o, rank, top);
      PaidOne(b, Beside(hole), r, tid);
      PaidOn(a, b, Beside(hole), tid);
    }

    /** One root slot of the monitor's sweep: what it holds is released, unless it is still the first free
        block of its page; then the slot is wiped. */
    method RecoverRoot(r: Slot, firstFree: set<Obj>, ghost hole: set<Slot>, ghost rank: map<Obj, nat>, ghost top: nat)
      requires r in slots && Unstamped(Now(), hole) && Sound(View(hole)) && Ranked(View(hole), rank, top)
      requires forall o :: o in firstFree ==> Dead(Now(), o)
      modifies this`words, this`emb, this`slots, this`era, this`spurious, this`freed
      ensures Unstamped(Now(), hole - {r}) && slots.Keys == old(slots).Keys
      ensures Collected(old(View(hole)), View(hole - {r}), r) && Ranked(View(hole - {r}), rank, top)
      ensures Paid(old(Beside(hole)), Beside(hole - {r}), tid)
      ensures forall o :: o in firstFree ==> Dead(Now(), o)
    {
      hide Newest, MaxRow, NeedRedo, Redone, Replayed, RowsBelow, Harmless, EraUnused, Unstamped;
      hide Progress, Collected, Dropped, Sound, Shape, Exact, Clean, OnlyBelow, Emptying, Ranked, SameDomains, OnlyDie;
      hide Dead, Cut, Paid;
      ghost var m0 := View(hole);
      PaidNone(Beside(hole), tid);
      HoleEmpty(Now(), hole, r);
      if m0.slots[r] == 0 {
        CollectedEmpty(m0, r);
      }
      FirstFreeOut(Now(), hole, r, firstFree, rank, top);
      if slots[r] != 0 && slots[r] !in firstFree {
        RecoveryTestFree(r, hole, rank, top);
        HoleStill(old(Now()), Now(), hole);
      }
      ghost var m1 := View(hole);
      CollectedEffect(m0, m1, r, rank, top);
      forall o | o in firstFree ensures Dead(Now(), o) {
        DeadInView(old(Now()), Now(), hole, o);
      }
      WipeBeside(Now(), r, hole);
      DeadWords(Now());
      slots := slots[r := 0];
      DeadWords(Now());
    }

    /** The monitor's sweep over the root slots of a client that stopped. Afterwards exactly the objects that
        can be reached from the other root slots have a count, and what died was handed over, each object
        once. Each reference dropped cost an era, and no stamp of the client's era is anywhere if none was. */
    method RecoverRoots(roots: seq<Slot>, firstFree: set<Obj>, ghost hole: set<Slot>, ghost rank: map<Obj, nat>,
                        ghost top: nat)
      requires Unstamped(Now(), hole) && Sound(View(hole)) && Ranked(View(hole), rank, top)
      requires (forall r :: r in roots ==> r in slots) && (forall x :: x in hole ==> x in roots)
      requires forall o :: o in firstFree ==> Dead(Now(), o)
      modifies this`words, this`emb, this`slots, this`era, this`spurious, this`freed
      ensures Swept(old(View(hole)), Now(), SlotSet(roots))
      ensures forall o :: o in old(words) ==> (Live(Now(), o) <==> Reachable(Cut(old(Now()), SlotSet(roots)), o))
      ensures Freed(old(View(hole)), Now(), old(freed), freed, {}) && Unlinks(old(View(hole)), Now(), tid, {})
      ensures Spends(old(words), old(era), words, era, tid, |Emptied(old(View(hole)), Now())|)
      ensures StampsBelow(old(words), tid, old(OwnEra())) ==> StampsBelow(words, tid, OwnEra())
    {
      hide Newest, MaxRow, NeedRedo, Redone, Replayed, RowsBelow, Harmless, EraUnused, Unstamped;
      hide Progress, Collected, Dropped, Sound, Shape, Exact, Clean, OnlyBelow, Emptying, Ranked, SameDomains, OnlyDie;
      hide Swept, Live, Reachable, Dead, Cut, Paid, StampsBelow;
      ghost var m0, a, rest := View(hole), Beside(hole), hole;
      ghost var done: set<Slot> := {};
      PaidNone(a, tid);
      SweptNone(m0);
      var i := 0;
      while i < |roots|
        invariant 0 <= i <= |roots| && done == SlotSet(roots[..i]) && rest == hole - done
        invariant slots.Keys == old(slots).Keys
        invariant Unstamped(Now(), rest) && Swept(m0, View(rest), done) && Ranked(View(rest), rank, top)
        invariant Paid(a, Beside(rest), tid)
        invariant forall o :: o in firstFree ==> Dead(Now(), o)
      {
        ghost var m, b := View(rest), Beside(rest);
        SweptSound(m0, m, done);
        assert roots[i] in roots;
        RecoverRoot(roots[i], firstFree, rest, rank, top);
        ghost var m1, c := View(rest - {roots[i]}), Beside(rest - {roots[i]});
        SweepStep(m0, m, m1, done, roots[i]);
        PaidOn(a, b, c, tid);
        assert roots[..i + 1] == roots[..i] + [roots[i]];
        SlotSetMore(roots[..i], roots[i]);
        done, rest := done + {roots[i]}, rest - {roots[i]};
        i := i + 1;
      }
      assert roots[..i] == roots && done == SlotSet(roots) && rest == {};
      CutNone(Now());
      CutCut(old(Now()), hole, done);
      PaidAll(a, Beside(rest), tid);
      forall o | o in m0.words ensures Live(Now(), o) <==> Reachable(Cut(m0, done), o) {
        ReleaseIsTracing(m0, Now(), done, o, rank, top);
      }
    }

    lemma BetweenStamps()
      requires Between()
      ensures StampsBelow(words, tid, OwnEra() + 1)
    {
    }

    /** A client releases slot r; if it stops anywhere, the monitor replays its newest record and sweeps all of
        its root slots. Either way exactly what can still be reached from the root slots that are left has a
        count, and nothing is handed to the allocator twice. An object that died is not handed over exactly if
        the client stopped after its newest record took the last count and before it handed the object over. */
    method ReleaseWithRecovery(r: Slot, roots: seq<Slot>, firstFree: set<Obj>, ghost rank: map<Obj, nat>,
                               ghost top: nat)
      returns (crashed: bool, ghost left: set<Obj>)
      requires Between() && Sound(Now()) && Ranked(Now(), rank, top)
      requires r in roots && forall x :: x in roots ==> x in slots
      requires forall o :: o in firstFree ==> Dead(Now(), o)
      modifies this`words, this`emb, this`slots, this`era, this`logs, this`spurious, this`freed
      ensures crashed ==> mayStop
      ensures var R := if crashed then SlotSet(roots) else {r};
              && Swept(old(Now()), Now(), R)
              && forall o :: o in old(words) ==> (Live(Now(), o) <==> Reachable(Cut(old(Now()), R), o))
      ensures Freed(old(Now()), Now(), old(freed), freed, left)
      ensures |logs| > 0 && |old(freed)| <= |freed|
      ensures left ==
                if crashed && Unhanded(Now(), old(freed), freed, logs, old(OwnEra())) then {Newest(logs).refed} else {}
      ensures Unlinks(old(Now()), Now(), tid, left) && EraStep(old(words), old(era), words, era, tid)
      ensures OpenSince(|Emptied(old(Now()), Now())|, old(OwnEra()), OwnEra(), crashed)
    {
      hide Newest, MaxRow, NeedRedo, Redone, Replayed, RowsBelow, Harmless, EraUnused, Between, Readable;
      hide Progress, Collected, Dropped, Sound, Shape, Exact, Clean, OnlyBelow, Ranked, SameDomains, Freed, OnlyDie;
      hide Swept, Live, Reachable, Unstamped, Trail, AtMostNewest, Unhanded;
      hide Spends, EraStep, Unlinks, Emptied, Observe, StampsBelow, Account, Paid;
      ghost var m0, a := Now(), Leaves(false);
      BetweenStamps();
      ghost var doomed;
      crashed, doomed, left := TestFree(r, rank, top);
      ghost var R := if crashed then SlotSet(roots) else {r};
      if crashed {
        ghost var b := Leaves(true);
        RedoRefCnt();
        ghost var m1 := Now();
        StillRanked(m0, m1, r, doomed, rank, top);
        KeepsDomains(m0, m1, r, doomed);
        ProgressOnlyDie(m0, m1, r, doomed);
        StillDead(m0, m1);
        NoHole(m1);
        CutNone(m1);
        RecoverRoots(roots, firstFree, {}, rank, top);
        Resume(m0, m1, Now(), R, r, doomed, rank, top);
        SweptOnlyDie(m1, Now(), R);
        PaidBack(b, Leaves(false), tid);
        AccountPaid(a, b, Leaves(false), tid, left);
      } else {
        CollectedSwept(m0, Now(), r);
        AccountAll(a, Leaves(false), tid, false, left);
      }
      LostExact(m0, Now(), a.freed, freed, left, logs, a.logs, EraAt(a.era, tid, tid));
      forall o | o in m0.words ensures Live(Now(), o) <==> Reachable(Cut(m0, R), o) {
        ReleaseIsTracing(m0, Now(), R, o, rank, top);
      }
    }

    /** Somebody new is given the id: registration bumps the era and leaves the redo lines. The old record is
        harmless to the new owner exactly if its replay would change nothing. */
    method ThreadInit()
      requires Readable() && OwnEra() > 0 && (forall k :: 0 <= k < |logs| ==> logs[k].era <= OwnEra())
      requires forall o :: o in words && words[o].cid == tid ==> words[o].era <= OwnEra()
      requires forall j :: j != tid ==> EraAt(era, j, tid) <= OwnEra()
      modifies this`era
      ensures era == BumpEra(old(era), tid)
      ensures Between() <==> Redone() == Now()
    {
      hide Newest, MaxRow;
      var e := OwnEra();
      era := era[(tid, tid) := e + 1];
      assert RowsBelow(era, tid, e + 1) by {
        forall j | j != tid ensures EraAt(era, j, tid) < e + 1 {
          assert EraAt(era, j, tid) == EraAt(old(era), j, tid);
        }
      }
      assert EraUnused();
      assert Between() <==> Harmless(words, slots, era, tid, Newest(logs));
      HarmlessExact(words, slots, era, tid, Newest(logs));
    }
  }
}
