/** Two runs of the code in which redo goes wrong, step by step. */
module RefWitness {
  import opened RefTypes
  import opened RefMachine
  import opened RefSteps
  import opened RefTheorems

  lemma {:induction false} Extend(s: State, run: seq<Action>, a: Action)
    requires Legal(s, run) && Can(Final(s, run), a) && (a.Redo? ==> Calm(Final(s, run), a.i))
    ensures Legal(s, run + [a]) && Final(s, run + [a]) == Do(Final(s, run), a)
    decreases |run|
  {
    hide Can, Do, Calm;
    if run == [] {
      assert [a][1..] == [];
    } else {
      Extend(Do(s, run[0]), run[1..], a);
      assert (run + [a])[1..] == run[1..] + [a];
    }
  }

  /** The state after client i has allocated object o into slot dst. */
  function Allocated(s: State, i: Tid, dst: Slot, o: Obj): State
    requires i in s.th && o in s.ver
  {
    State(s.words[o := Word(i, 1, Own(s, i))], s.slots[dst := o], s.era[(i, i) := Own(s, i) + 1],
          s.th[i := s.th[i].(pc := Idle, func := NoFunc, dst := dst, src := dst, obj := o)],
          s.eff[dst := o], s.ver[o := s.ver[o] + 1], s.pool - {o}, s.pub + {(i, Own(s, i))}, s.left)
  }

  lemma AllocSteps(s: State, i: Tid, dst: Slot, o: Obj)
    requires CanBeginAlloc(s, i, dst, o) && o in s.ver && Own(s, i) < ERA_LIMIT
    ensures var s1 := DoBeginAlloc(s, i, dst, o);
            CanAllocBump(s1, i) && CanAllocStamp(DoAllocBump(s1, i), i)
            && DoAllocStamp(DoAllocBump(s1, i), i) == Allocated(s, i, dst, o)
  {
    hide Available, NotLinkedFrom;
  }

  lemma RunAlloc(s0: State, run0: seq<Action>, s: State, i: Tid, dst: Slot, o: Obj) returns (run: seq<Action>)
    requires Legal(s0, run0) && s == Final(s0, run0) && CanBeginAlloc(s, i, dst, o) && o in s.ver
    requires Own(s, i) < ERA_LIMIT
    ensures Legal(s0, run) && Final(s0, run) == Allocated(s, i, dst, o)
  {
    hide Legal, Final, CanBeginAlloc, DoBeginAlloc, CanAllocBump, DoAllocBump, CanAllocStamp, DoAllocStamp, Allocated;
    AllocSteps(s, i, dst, o);
    var a1, a2, a3 := BeginAlloc(i, dst, o), AllocBump(i), AllocStamp(i);
    Extend(s0, run0, a1);
    Extend(s0, run0 + [a1], a2);
    run := run0 + [a1] + [a2] + [a3];
    Extend(s0, run0 + [a1] + [a2], a3);
  }

  /** The state after client i has logged a link or an unlink and is about to try its CAS. */
  function Tried(s: State, i: Tid, func: Func, dst: Slot, src: Slot, o: Obj): State
    requires i in s.th && o in s.words && o in s.ver && |s.th[i].logs| == REDO_CACHELINE_CNT
  {
    var rec := RedoLog(func, s.words[o].cnt, Own(s, i), dst, o);
    s.(era := Observe(s.era, i, s.words[o]),
       th := s.th[i := s.th[i].(pc := Logged, func := func, dst := dst, src := src, obj := o,
                                reg := s.words[o], regVer := s.ver[o],
                                logs := s.th[i].logs[Own(s, i) % REDO_CACHELINE_CNT := rec])])
  }

  lemma TrySteps(s: State, i: Tid)
    requires Running(s, i) && CanLoad(s, i) && s.words.Keys == s.ver.Keys
    requires |s.th[i].logs| == REDO_CACHELINE_CNT && s.th[i].obj in s.words
    requires s.words[s.th[i].obj].cid == i ==> s.words[s.th[i].obj].era <= Own(s, i)
    ensures var s1 := DoLoad(s, i);
            CanRecord(s1, i) && CanWriteLog(DoRecord(s1, i), i)
            && DoWriteLog(DoRecord(s1, i), i) == Tried(s, i, s.th[i].func, s.th[i].dst, s.th[i].src, s.th[i].obj)
  {
    var s2 := DoRecord(DoLoad(s, i), i);
    assert Own(s2, i) == Own(s, i);
  }

  lemma OpenSteps(s: State, open: Action)
    requires Can(s, open) && Running(s, open.i) && (open.BeginLink? || open.BeginUnlink?)
    requires |s.th[open.i].logs| == REDO_CACHELINE_CNT && s.words.Keys == s.ver.Keys
    ensures var s1 := Do(s, open);
            var t := s1.th[open.i];
            && Running(s1, open.i) && CanLoad(s1, open.i) && s1.words == s.words && s1.ver == s.ver
            && t.logs == s.th[open.i].logs && t.obj in s.words && Own(s1, open.i) == Own(s, open.i)
            && Tried(s1, open.i, t.func, t.dst, t.src, t.obj) == Tried(s, open.i, t.func, t.dst, t.src, t.obj)
  {
    hide Available, NotLinkedFrom;
  }

  lemma RunTry(s0: State, run0: seq<Action>, s: State, open: Action) returns (run: seq<Action>)
    requires Legal(s0, run0) && s == Final(s0, run0) && Can(s, open) && Running(s, open.i)
             && (open.BeginLink? || open.BeginUnlink?)
    requires |s.th[open.i].logs| == REDO_CACHELINE_CNT && s.words.Keys == s.ver.Keys
    requires forall o :: o in s.words && s.words[o].cid == open.i ==> s.words[o].era <= Own(s, open.i)
    ensures Legal(s0, run)
    ensures var t := Do(s, open).th[open.i];
            t.obj in s.words && Final(s0, run) == Tried(s, open.i, t.func, t.dst, t.src, t.obj)
  {
    hide Legal, Final, CanBeginLink, DoBeginLink, CanBeginUnlink, DoBeginUnlink, CanLoad, DoLoad, CanRecord, DoRecord,
         CanWriteLog, DoWriteLog, Tried;
    var i := open.i;
    var a1, a2, a3 := Load(i), Record(i), WriteLog(i);
    OpenSteps(s, open);
    TrySteps(Do(s, open), i);
    Extend(s0, run0, open);
    Extend(s0, run0 + [open], a1);
    Extend(s0, run0 + [open] + [a1], a2);
    Extend(s0, run0 + [open] + [a1] + [a2], a3);
    run := run0 + [open] + [a1] + [a2] + [a3];
  }

  /** The state after the pending link or unlink of client i has run to its bump. */
  function Closed(s: State, i: Tid): State
    requires CanCasOk(s, i)
  {
    var t := s.th[i];
    s.(words := s.words[t.obj := Stamp(i, t.func, t.reg, Own(s, i))], ver := s.ver[t.obj := s.ver[t.obj] + 1],
       slots := s.slots[t.dst := Goal(t)], eff := s.eff[t.dst := Goal(t)],
       era := s.era[(i, i) := Own(s, i) + 1], pub := s.pub + {(i, Own(s, i))},
       th := s.th[i := t.(pc := Idle)])
  }

  lemma CloseSteps(s: State, i: Tid)
    requires Running(s, i) && CanCasOk(s, i) && (s.th[i].func.LinkRef? || s.th[i].reg.cnt > 1)
    ensures var s1 := DoCasOk(s, i);
            CanWriteSlot(s1, i) && CanBump(DoWriteSlot(s1, i), i)
            && DoBump(DoWriteSlot(s1, i), i) == Closed(s, i)
  {
  }

  lemma RunClose(s0: State, run0: seq<Action>, s: State, i: Tid) returns (run: seq<Action>)
    requires Legal(s0, run0) && s == Final(s0, run0) && Running(s, i) && CanCasOk(s, i)
    requires s.th[i].func.LinkRef? || s.th[i].reg.cnt > 1
    ensures Legal(s0, run) && Final(s0, run) == Closed(s, i)
  {
    hide Legal, Final, CanCasOk, DoCasOk, CanWriteSlot, DoWriteSlot, CanBump, DoBump, Closed;
    var a1, a2, a3 := CasOk(i), WriteSlot(i), Bump(i);
    CloseSteps(s, i);
    Extend(s0, run0, a1);
    Extend(s0, run0 + [a1], a2);
    Extend(s0, run0 + [a1] + [a2], a3);
    run := run0 + [a1] + [a2] + [a3];
  }

  function Ready(): Thread {
    Thread(Idle, NoFunc, 0, 0, 0, ZeroWord, 0, seq(REDO_CACHELINE_CNT, _ => ClearedLog), Up)
  }

  /** Two clients, two objects (offsets 10 and 20), four slots. */
  function Boot(): State {
    State(map[10 := ZeroWord, 20 := ZeroWord], map[1 := 0, 2 := 0, 3 := 0, 4 := 0],
          map[(1, 1) := 1, (2, 2) := 1], map[1 := Ready(), 2 := Ready()],
          map[1 := 0, 2 := 0, 3 := 0, 4 := 0], map[10 := 0, 20 := 0], {10, 20}, {}, {})
  }

  ghost predicate Twins(s: State) {
    && 1 in s.th && 2 in s.th && (forall j :: j in s.th ==> j == 1 || j == 2)
    && 10 in s.words && 20 in s.words && s.words.Keys == {10, 20} && s.ver.Keys == {10, 20}
    && 1 in s.slots && 2 in s.slots && 3 in s.slots && 4 in s.slots
    && |s.th[1].logs| == REDO_CACHELINE_CNT && |s.th[2].logs| == REDO_CACHELINE_CNT
  }

  predicate Rested(t: Thread) {
    t.pc.Idle? && t.mon.Up?
  }

  /** Object 10 in slot 1 is client 1's; both clients are in their second era. */
  ghost predicate Owned(s: State) {
    && Twins(s) && s.words[10] == Word(1, 1, 1) && s.words[20] == Word(2, 1, 1)
    && s.slots[1] == 10 && s.slots[2] == 0 && s.slots[3] == 0
    && Own(s, 1) == 2 && Own(s, 2) == 2 && Rested(s.th[1]) && Rested(s.th[2])
    && s.th[1].logs == Ready().logs
  }

  /** Client 1 has allocated object 10 into slot 1. */
  ghost predicate OneOwned(s: State) {
    && Twins(s) && s.words[10] == Word(1, 1, 1) && 20 in s.pool && 20 in s.ver
    && s.slots[1] == 10 && s.slots[2] == 0 && s.slots[3] == 0 && s.slots[4] == 0
    && Own(s, 1) == 2 && Own(s, 2) == 1 && Rested(s.th[1]) && Rested(s.th[2])
    && s.th[1].logs == Ready().logs && s.th[2].logs == Ready().logs
    && s.words[20] == ZeroWord && Holders(s.slots, 20) == {}
  }

  lemma First(s: State)
    requires s == Boot()
    ensures CanBeginAlloc(s, 1, 1, 10) && 1 in s.th && 10 in s.ver && Own(s, 1) == 1
    ensures OneOwned(Allocated(s, 1, 1, 10))
  {
  }

  lemma Second(s: State)
    requires OneOwned(s)
    ensures CanBeginAlloc(s, 2, 4, 20) && Owned(Allocated(s, 2, 4, 20))
  {
  }

  lemma RunOwned() returns (run: seq<Action>)
    ensures Legal(Boot(), run) && Owned(Final(Boot(), run))
  {
    hide Legal, Final, Newest, CanBeginAlloc, Boot, Allocated;
    assert Legal(Boot(), []) && Final(Boot(), []) == Boot() by { Nothing(Boot()); }
    First(Boot());
    run := RunAlloc(Boot(), [], Boot(), 1, 1, 10);
    Second(Allocated(Boot(), 1, 1, 10));
    run := RunAlloc(Boot(), run, Allocated(Boot(), 1, 1, 10), 2, 4, 20);
  }

  /** Client 1 stopped with its link of slot 2 logged; the monitor has read its id from the word. */
  ghost predicate HalfRead(s: State) {
    && Twins(s) && s.words[10] == Word(1, 1, 1) && s.words[20] == Word(2, 1, 1)
    && s.slots[1] == 10 && s.slots[3] == 0
    && Own(s, 1) == 2 && Own(s, 2) == 2 && Rested(s.th[2])
    && s.th[1].pc.Logged? && s.th[1].func.LinkRef? && s.th[1].dst == 2 && s.th[1].src == 1
    && s.th[1].mon == CidRead(1)
    && Rec(s.th[1]).era == 2 && Rec(s.th[1]).refed == 10
  }

  /** Client 1 is about to link slot 2 to object 10: the link is logged. */
  ghost predicate LinkLogged(s: State) {
    && Twins(s) && s.words[10] == Word(1, 1, 1) && s.words[20] == Word(2, 1, 1)
    && s.slots[1] == 10 && s.slots[3] == 0
    && Own(s, 1) == 2 && Own(s, 2) == 2 && Rested(s.th[2])
    && s.th[1].pc.Logged? && s.th[1].func.LinkRef? && s.th[1].dst == 2 && s.th[1].src == 1 && s.th[1].mon.Up?
    && Rec(s.th[1]).era == 2 && Rec(s.th[1]).refed == 10 && Rec(s.th[1]).func.LinkRef?
  }

  lemma HalfSteps(s: State)
    requires LinkLogged(s)
    ensures Can(s, Crash(1)) && Can(Do(s, Crash(1)), Redo(1)) && Calm(Do(s, Crash(1)), 1)
    ensures HalfRead(Do(Do(s, Crash(1)), Redo(1)))
  {
    hide Newest;
  }

  lemma LogSteps(s: State)
    requires Owned(s)
    ensures Can(s, BeginLink(1, 2, 1)) && LinkLogged(Tried(s, 1, LinkRef, 2, 1, 10))
  {
    hide Newest;
    NewestAt(Tried(s, 1, LinkRef, 2, 1, 10).th[1].logs, 2);
  }

  lemma RunHalfRead() returns (run: seq<Action>)
    ensures Legal(Boot(), run) && HalfRead(Final(Boot(), run))
  {
    hide Legal, Final, Newest, Boot, HalfRead, LinkLogged, Tried, CanRedo, DoRedo;
    run := RunOwned();
    var s2 := Final(Boot(), run);
    LogSteps(s2);
    run := RunTry(Boot(), run, s2, BeginLink(1, 2, 1));
    HalfSteps(Final(Boot(), run));
    Extend(Boot(), run, Crash(1));
    run := run + [Crash(1)];
    Extend(Boot(), run, Redo(1));
    run := run + [Redo(1)];
  }

  lemma BootInit()
    ensures Init(Boot())
  {
  }

  /** Client 1 stops with its link of slot 2 logged but not committed; the monitor loads its client
      id from the word; client 2, whose era has the same value, links slot 3; the era the monitor
      loads next matches the record. */
  lemma TornReadHappens() returns (run: seq<Action>)
    ensures Init(Boot()) && Legal(Boot(), run)
    ensures var s := Final(Boot(), run);
            CanReadEra(s, 1) && FreshRec(s, 1) && Torn(s, 1) && !Done(s.th[1])
  {
    hide Legal, Final, Newest, Boot, Init;
    BootInit();
    run := RunHalfRead();
    run := RunTry(Boot(), run, Final(Boot(), run), BeginLink(2, 3, 1));
    Extend(Boot(), run, CasOk(2));
    run := run + [CasOk(2)];
  }

  lemma Nothing(s: State)
    ensures Legal(s, []) && Final(s, []) == s
  {
  }

  /** Client 1 linked slot 2 in era 2. */
  ghost predicate Linked(s: State) {
    && Twins(s) && s.words[10] == Word(1, 2, 2) && s.words[20] == ZeroWord && 20 in s.pool
    && s.slots[2] == 10 && s.slots[4] == 0 && Own(s, 1) == 3 && Rested(s.th[1]) && !Active(s.th[2])
    && s.th[1].logs == Ready().logs[2 := RedoLog(LinkRef, 1, 2, 2, 10)]
    && Holders(s.slots, 20) == {}
  }

  /** Client 1 unlinked slot 2 in era 3. */
  ghost predicate Unlinked(s: State) {
    && Twins(s) && s.words[10] == Word(1, 1, 3) && 20 in s.pool
    && s.slots[2] == 0 && Own(s, 1) == 4 && Rested(s.th[1]) && !Active(s.th[2])
    && s.th[1].logs == Ready().logs[2 := RedoLog(LinkRef, 1, 2, 2, 10)][3 := RedoLog(UnlinkRef, 2, 3, 2, 10)]
    && Holders(s.slots, 20) == {}
  }

  lemma LinkSteps(s: State)
    requires OneOwned(s)
    ensures CanBeginLink(s, 1, 2, 1) && CanCasOk(Tried(s, 1, LinkRef, 2, 1, 10), 1)
    ensures Linked(Closed(Tried(s, 1, LinkRef, 2, 1, 10), 1))
  {
  }

  lemma UnlinkSteps(s: State)
    requires Linked(s)
    ensures CanBeginUnlink(s, 1, 2) && CanCasOk(Tried(s, 1, UnlinkRef, 2, 2, 10), 1)
    ensures Unlinked(Closed(Tried(s, 1, UnlinkRef, 2, 2, 10), 1))
  {
  }

  /** Client 1 has allocated object 20 into slot 2; its newest record is the unlink of era 3. */
  ghost predicate Reused(s: State) {
    && Twins(s) && s.words[10] == Word(1, 1, 3) && s.words[20] == Word(1, 1, 4) && s.slots[2] == 20
    && Own(s, 1) == 5 && s.th[1].mon.Up? && |s.th[1].logs| > 0
    && Rec(s.th[1]) == RedoLog(UnlinkRef, 2, 3, 2, 10)
    && Holders(s.slots, 20) == {2}
  }

  lemma ReuseSteps(s: State)
    requires Unlinked(s)
    ensures CanBeginAlloc(s, 1, 2, 20) && Reused(Allocated(s, 1, 2, 20))
  {
    hide Newest;
    NewestAt(s.th[1].logs, 3);
    assert Holders(Allocated(s, 1, 2, 20).slots, 20) == Holders(s.slots, 20) + {2};
  }

  lemma RunReused() returns (run: seq<Action>)
    ensures Legal(Boot(), run) && Reused(Final(Boot(), run))
  {
    hide Legal, Final, Newest, Boot, Linked, Unlinked, Reused, OneOwned, Allocated, Tried, Closed, CanCasOk,
         CanBeginLink, CanBeginUnlink, CanBeginAlloc;
    assert Legal(Boot(), []) && Final(Boot(), []) == Boot() by { Nothing(Boot()); }
    First(Boot());
    run := RunAlloc(Boot(), [], Boot(), 1, 1, 10);
    run := RunLinks(run);
  }

  lemma RunLinks(run0: seq<Action>) returns (run: seq<Action>)
    requires Legal(Boot(), run0) && OneOwned(Final(Boot(), run0))
    ensures Legal(Boot(), run) && Reused(Final(Boot(), run))
  {
    hide Legal, Final, Newest, Boot, Reused, Available, NotLinkedFrom, Holders;
    var s1 := Final(Boot(), run0);
    LinkSteps(s1);
    run := RunTry(Boot(), run0, s1, BeginLink(1, 2, 1));
    run := RunClose(Boot(), run, Tried(s1, 1, LinkRef, 2, 1, 10), 1);
    run := RunUnlinks(run);
  }

  lemma RunUnlinks(run0: seq<Action>) returns (run: seq<Action>)
    requires Legal(Boot(), run0) && Linked(Final(Boot(), run0))
    ensures Legal(Boot(), run) && Reused(Final(Boot(), run))
  {
    hide Legal, Final, Newest, Boot, Reused, Available, NotLinkedFrom, Holders;
    var s1 := Final(Boot(), run0);
    UnlinkSteps(s1);
    run := RunTry(Boot(), run0, s1, BeginUnlink(1, 2));
    run := RunClose(Boot(), run, Tried(s1, 1, UnlinkRef, 2, 2, 10), 1);
    var s2 := Final(Boot(), run);
    ReuseSteps(s2);
    run := RunAlloc(Boot(), run, s2, 1, 2, 20);
  }

  lemma Zeroed(m: map<Slot, Obj>, r: Slot, o: Obj)
    requires r in m && o != 0 && Holders(m, o) == {r}
    ensures Holders(m[r := 0], o) == {}
  {
    var m' := m[r := 0];
    forall x | x in m' ensures m'[x] != o {
      assert x in Holders(m, o) <==> m[x] == o;
    }
  }

  /** Client 1 unlinks slot 2, allocates object 20 into that slot and stops. The newest record is
      still the unlink; redo zeroes the slot and object 20 keeps a count that no slot accounts for. */
  lemma StaleReplayHappens() returns (run: seq<Action>)
    ensures Init(Boot()) && Legal(Boot(), run)
    ensures var s := Final(Boot(), run);
            && CanReplay(s, 1) && !FreshRec(s, 1) && ReplayChanges(s, 1)
            && 20 in s.words && s.words[20].cnt == 1 && Holders(DoReplay(s, 1).slots, 20) == {}
  {
    hide Legal, Final, Newest, Boot, Init;
    BootInit();
    run := RunReused();
    var s := Final(Boot(), run);
    Extend(Boot(), run, Crash(1));
    run := run + [Crash(1)];
    Extend(Boot(), run, Redo(1));
    run := run + [Redo(1)];
    Extend(Boot(), run, Redo(1));
    run := run + [Redo(1)];
    Zeroed(s.slots, 2, 20);
  }
}
