/** Which objects recovery leaves to the search for leaked blocks: exactly when, and a run. */
module RefLost {
  import opened RefTypes
  import opened RefMachine
  import opened RefInvariant
  import opened RefSteps
  import opened RefTheorems
  import opened RefRelease
  import opened RefEras
  import opened RefWitness

  /** The client has taken the last count of its object and has not handed the object over. */
  predicate BeforeHandOver(t: Thread) {
    (Done(t) && !t.func.LinkRef? && t.reg.cnt == 1) || t.pc.FreeDue?
  }

  /** The client stopped with record t1, and has not been turned to by the monitor but for its redo. */
  predicate StoppedAs(t1: Thread, t: Thread) {
    && t.obj == t1.obj && t.func == t1.func && t.reg == t1.reg
    && !t.mon.Up? && !t.mon.Sweep? && (t.mon.Recovered? ==> !Done(t))
    && (t.pc == t1.pc || (Done(t1) && t.pc.Finished?) || (Trying(t1) && t.pc.Aborted?))
  }

  lemma OtherOpen(s: State, a: Action, i: Tid)
    requires Can(s, a) && i in s.th && a.i != i
    requires a.BeginLink? || a.BeginUnlink? || a.Load? || a.Record? || a.WriteLog? || a.Skip? || a.CasOk? || a.CasFail?
    ensures i in Do(s, a).th && Do(s, a).th[i] == s.th[i]
  {
    hide Newest, Available, NotLinkedFrom, Calm, CanRedo, DoRedo;
  }

  lemma OtherClose(s: State, a: Action, i: Tid)
    requires Can(s, a) && i in s.th && a.i != i
    requires a.WriteSlot? || a.Bump? || a.Free? || a.BeginAlloc? || a.AllocBump? || a.AllocStamp? || a.ClearLogs?
             || a.Crash? || a.StartSweep?
    ensures i in Do(s, a).th && Do(s, a).th[i] == s.th[i]
  {
    hide Newest, Available, NotLinkedFrom, Calm, CanRedo, DoRedo;
  }

  lemma OtherStep(s: State, a: Action, i: Tid)
    requires Can(s, a) && i in s.th && a.i != i
    ensures i in Do(s, a).th && Do(s, a).th[i] == s.th[i]
  {
    if a.Redo? {
      hide CanRedo, DoRedo, Newest;
      RedoFrame(s, a.i);
    } else if a.BeginLink? || a.BeginUnlink? || a.Load? || a.Record? || a.WriteLog? || a.Skip? || a.CasOk?
        || a.CasFail? {
      hide Can, Do;
      OtherOpen(s, a, i);
    } else {
      hide Can, Do;
      OtherClose(s, a, i);
    }
  }

  /** Redo goes on, or ends with the operation finished. */
  lemma RedoPhase(s: State, i: Tid)
    requires CanRedo(s, i)
    ensures i in DoRedo(s, i).th
    ensures var m := DoRedo(s, i).th[i].mon; !m.Up? && !m.Sweep? && (m.Recovered? ==> !Done(DoRedo(s, i).th[i]))
  {
    hide Newest;
    if s.th[i].mon.Decided? {
      assert DoRedo(s, i) == DoReplay(s, i);
    }
  }

  lemma StoppedRedo(s: State, i: Tid, t1: Thread)
    requires CanRedo(s, i) && StoppedAs(t1, s.th[i])
    ensures i in DoRedo(s, i).th && StoppedAs(t1, DoRedo(s, i).th[i])
  {
    hide CanRedo, DoRedo, Newest;
    RedoFrame(s, i);
    RedoPhase(s, i);
  }

  lemma StoppedStep(s: State, a: Action, i: Tid, t1: Thread)
    requires Can(s, a) && i in s.th && StoppedAs(t1, s.th[i]) && a != StartSweep(i)
    ensures i in Do(s, a).th && StoppedAs(t1, Do(s, a).th[i])
  {
    if a.i != i {
      hide Can, Do, StoppedAs;
      OtherStep(s, a, i);
    } else {
      hide CanRedo, DoRedo, Available, NotLinkedFrom, Newest;
      assert a.Redo?;
      StoppedRedo(s, i, t1);
    }
  }

  lemma {:induction false} StoppedRun(s: State, run: seq<Action>, i: Tid, t1: Thread)
    requires Legal(s, run) && i in s.th && StoppedAs(t1, s.th[i]) && StartSweep(i) !in run
    ensures i in Final(s, run).th && StoppedAs(t1, Final(s, run).th[i])
    decreases |run|
  {
    hide Can, Do, Calm, StoppedAs;
    if run != [] {
      assert run[0] in run;
      StoppedStep(s, run[0], i, t1);
      StoppedRun(Do(s, run[0]), run[1..], i, t1);
    }
  }

  /** When the monitor turns from a client's record to its references, it leaves an object to the search exactly
      if the client stopped between taking its last count and handing it over, or inside its allocation;
      whatever the others did meanwhile. */
  lemma LossExact(s0: State, run: seq<Action>, i: Tid, more: seq<Action>)
    requires Init(s0) && Legal(s0, run) && CanCrash(Final(s0, run), i)
    requires Legal(DoCrash(Final(s0, run), i), more) && StartSweep(i) !in more
    requires CanStartSweep(Final(DoCrash(Final(s0, run), i), more), i)
    ensures var t := Final(s0, run).th[i];
            var s := Final(DoCrash(Final(s0, run), i), more);
            if BeforeHandOver(t) || Allocating(t)
            then t.obj !in s.left && DoStartSweep(s, i).left == s.left + {t.obj}
            else DoStartSweep(s, i).left == s.left
  {
    hide Init, Legal, Final, Inv, LeftOk, Newest;
    var s1 := Final(s0, run);
    StillUp(s0, run, i);
    LeftFine(s0, run, i, more);
    StoppedRun(DoCrash(s1, i), more, i, s1.th[i]);
    LossOf(Final(DoCrash(s1, i), more), i, s1.th[i]);
  }

  lemma LeftFine(s0: State, run: seq<Action>, i: Tid, more: seq<Action>)
    requires Init(s0) && Legal(s0, run) && CanCrash(Final(s0, run), i) && Legal(DoCrash(Final(s0, run), i), more)
    ensures LeftOk(Final(DoCrash(Final(s0, run), i), more))
  {
    hide Init, Legal, Final, Inv, LeftOk, CanCrash, DoCrash;
    InitInv(s0);
    NoneLeft(s0);
    Reached(s0, run);
    LeftRun(s0, run);
    Keep(Final(s0, run), Crash(i));
    KeepLeft(Final(s0, run), Crash(i));
    LeftRun(DoCrash(Final(s0, run), i), more);
  }

  lemma LossOf(s: State, i: Tid, t1: Thread)
    requires LeftOk(s) && CanStartSweep(s, i) && StoppedAs(t1, s.th[i]) && !t1.pc.Finished? && !t1.pc.Aborted?
    ensures if BeforeHandOver(t1) || Allocating(t1)
            then t1.obj !in s.left && DoStartSweep(s, i).left == s.left + {t1.obj}
            else DoStartSweep(s, i).left == s.left
  {
  }

  lemma NoneLeft(s: State)
    requires Init(s)
    ensures LeftOk(s)
  {
  }

  /** Only the monitor finishes or aborts an operation. */
  lemma StillUp(s0: State, run: seq<Action>, i: Tid)
    requires Init(s0) && Legal(s0, run) && Running(Final(s0, run), i)
    ensures !Final(s0, run).th[i].pc.Finished? && !Final(s0, run).th[i].pc.Aborted?
  {
    hide Init, Legal, Final, Shape, EffOk, Exclusive, CountOk, PoolOk, StampsOk, RowsOk, PubOk, ShapeT, OpOk, RegOk,
         CommitOk, ReleaseOk, MonOk;
    Reached(s0, run);
    assert ThreadOk(Final(s0, run), i, Final(s0, run).th[i]);
  }

  /** An object without a count, with nobody in charge of it, is free if and only if it is not left to the search. */
  lemma FreeOrLost(s0: State, run: seq<Action>, o: Obj)
    requires Init(s0) && Legal(s0, run)
    requires o in Final(s0, run).words && Final(s0, run).words[o].cnt == 0
    requires forall i :: !InCharge(Final(s0, run), i, o)
    ensures o in Final(s0, run).pool <==> o !in Final(s0, run).left
  {
    hide InCharge, Final, Legal, Init;
    ZeroCountIsInCharge(s0, run, o);
    if o in Final(s0, run).left {
      LeftIsDead(s0, run, o);
    }
  }

  // ----- a run

  /** Client 1 unlinks slot 1, the only one that holds object 10. */
  ghost predicate Last(s: State, pc: Pc, mon: Mon) {
    && 1 in s.th && 10 in s.words && 10 in s.ver && s.words.Keys == {10, 20} && 1 in s.slots
    && s.th[1].pc == pc && s.th[1].mon == mon && s.th[1].func.UnlinkRef? && s.th[1].dst == 1 && s.th[1].obj == 10
    && s.th[1].reg == Word(1, 1, 1) && Own(s, 1) == 2 && HasLogs(s, 1)
       && Rec(s.th[1]) == RedoLog(UnlinkRef, 1, 2, 1, 10)
  }

  ghost predicate LastTaken(s: State, pc: Pc, mon: Mon) {
    Last(s, pc, mon) && s.words[10] == Word(1, 0, 2)
  }

  lemma LastSteps(s: State)
    requires OneOwned(s)
    ensures CanBeginUnlink(s, 1, 1) && Last(Tried(s, 1, UnlinkRef, 1, 1, 10), Logged, Up)
    ensures Tried(s, 1, UnlinkRef, 1, 1, 10).words[10] == Word(1, 1, 1)
  {
    hide Newest;
    NewestAt(Tried(s, 1, UnlinkRef, 1, 1, 10).th[1].logs, 2);
  }

  lemma TakeStep(s: State)
    requires Last(s, Logged, Up) && s.words[10] == Word(1, 1, 1)
    ensures Can(s, CasOk(1)) && LastTaken(Do(s, CasOk(1)), Committed, Up)
  {
    hide Newest;
  }

  lemma StopStep(s: State)
    requires LastTaken(s, Committed, Up)
    ensures Can(s, Crash(1)) && LastTaken(Do(s, Crash(1)), Committed, Down)
  {
    hide Newest;
  }

  lemma LookSteps(s: State)
    requires LastTaken(s, Committed, Down)
    ensures Can(s, Redo(1)) && Calm(s, 1) && LastTaken(Do(s, Redo(1)), Committed, CidRead(1))
  {
    hide Newest;
  }

  lemma MatchStep(s: State)
    requires LastTaken(s, Committed, CidRead(1))
    ensures Can(s, Redo(1)) && Calm(s, 1) && LastTaken(Do(s, Redo(1)), Committed, Decided(true))
  {
    hide Newest;
  }

  lemma ReplayStep(s: State)
    requires LastTaken(s, Committed, Decided(true))
    ensures Can(s, Redo(1)) && Calm(s, 1) && LastTaken(Do(s, Redo(1)), Finished, Recovered)
  {
    hide Newest;
  }

  lemma LoseStep(s: State)
    requires LastTaken(s, Finished, Recovered)
    ensures Can(s, StartSweep(1)) && 10 in Do(s, StartSweep(1)).left
  {
    hide Newest;
  }

  lemma RunLast() returns (run: seq<Action>)
    ensures Legal(Boot(), run) && Last(Final(Boot(), run), Logged, Up) && Final(Boot(), run).words[10] == Word(1, 1, 1)
  {
    hide Legal, Final, Newest, Boot, Last, Allocated, Tried, OneOwned, CanBeginAlloc, Available, NotLinkedFrom;
    assert Legal(Boot(), []) && Final(Boot(), []) == Boot() by { Nothing(Boot()); }
    First(Boot());
    run := RunAlloc(Boot(), [], Boot(), 1, 1, 10);
    var s := Final(Boot(), run);
    LastSteps(s);
    OwnedReady(s);
    run := RunTry(Boot(), run, s, BeginUnlink(1, 1));
  }

  lemma OwnedReady(s: State)
    requires OneOwned(s)
    ensures Running(s, 1) && |s.th[1].logs| == REDO_CACHELINE_CNT && s.words.Keys == s.ver.Keys && 1 in s.slots
            && s.slots[1] == 10
    ensures 10 in s.words && 10 in s.ver
    ensures forall o :: o in s.words && s.words[o].cid == 1 ==> s.words[o].era <= Own(s, 1)
  {
  }

  /** Client 1 takes the last count of its object and stops; the monitor replays the unlink, and nobody has the
      object, nor is it free. */
  lemma LossHappens() returns (run: seq<Action>)
    ensures Init(Boot()) && Legal(Boot(), run) && 10 in Final(Boot(), run).left
  {
    hide Legal, Final, Newest, Boot, Init, Can, Do, Calm, LastTaken, Last;
    BootInit();
    run := RunLast();
    TakeStep(Final(Boot(), run));
    Extend(Boot(), run, CasOk(1));
    run := run + [CasOk(1)];
    StopStep(Final(Boot(), run));
    Extend(Boot(), run, Crash(1));
    run := run + [Crash(1)];
    LookSteps(Final(Boot(), run));
    Extend(Boot(), run, Redo(1));
    run := run + [Redo(1)];
    MatchStep(Final(Boot(), run));
    Extend(Boot(), run, Redo(1));
    run := run + [Redo(1)];
    ReplayStep(Final(Boot(), run));
    Extend(Boot(), run, Redo(1));
    run := run + [Redo(1)];
    LoseStep(Final(Boot(), run));
    Extend(Boot(), run, StartSweep(1));
    run := run + [StartSweep(1)];
  }
}
