/**
 A run in which recovery repeats a stamp: a client stops between CAS and bump, the monitor unlinks in
 its name with the era it found, and a third client's CAS takes the new word for the one it loaded.
 */
module RefRestamp {
  import opened RefTypes
  import opened RefMachine
  import opened RefSteps
  import opened RefTheorems
  import opened RefWitness

  /** Three clients, one object (offset 10), four slots. */
  function Boot3(): State {
    State(map[10 := ZeroWord], map[1 := 0, 2 := 0, 3 := 0, 4 := 0],
          map[(1, 1) := 1, (2, 2) := 1, (3, 3) := 1], map[1 := Ready(), 2 := Ready(), 3 := Ready()],
          map[1 := 0, 2 := 0, 3 := 0, 4 := 0], map[10 := 0], {10}, {}, {})
  }

  ghost predicate Trio(s: State) {
    && 1 in s.th && 2 in s.th && 3 in s.th && (forall j :: j in s.th ==> j == 1 || j == 2 || j == 3)
    && s.words.Keys == {10} && s.ver.Keys == {10} && 10 in s.words && 10 in s.ver
    && 1 in s.slots && 2 in s.slots && 3 in s.slots && 4 in s.slots && s.slots[1] == 10
    && (forall j :: j in s.th ==> |s.th[j].logs| == REDO_CACHELINE_CNT)
    && Own(s, 1) == 2 && Own(s, 2) == 1 && Own(s, 3) == 1
  }

  /** Slots 3 and 4 are empty and client i is about to start. */
  predicate Fresh(s: State, i: Tid) {
    i in s.th && Rested(s.th[i]) && s.th[i].logs == Ready().logs
  }

  ghost predicate Owner(s: State) {
    && Trio(s) && s.words[10] == Word(1, 1, 1) && s.slots[2] == 0 && s.slots[3] == 0 && s.slots[4] == 0
    && Fresh(s, 1) && Fresh(s, 2) && Fresh(s, 3)
  }

  lemma OwnerSteps(s: State)
    requires s == Boot3()
    ensures CanBeginAlloc(s, 1, 1, 10) && 1 in s.th && 10 in s.ver && Own(s, 1) == 1
    ensures Owner(Allocated(s, 1, 1, 10))
  {
  }

  /** Client 1's link of slot 2: it has the record in its log. */
  ghost predicate Linker(s: State, pc: Pc, mon: Mon) {
    && Trio(s) && s.slots[3] == 0 && s.slots[4] == 0 && Fresh(s, 2) && Fresh(s, 3)
    && s.th[1].pc == pc && s.th[1].mon == mon
    && s.th[1].func.LinkRef? && s.th[1].dst == 2 && s.th[1].src == 1 && s.th[1].obj == 10
       && s.th[1].reg == Word(1, 1, 1)
    && Rec(s.th[1]) == RedoLog(LinkRef, 1, 2, 2, 10)
  }

  lemma LinkerSteps(s: State)
    requires Owner(s)
    ensures Can(s, BeginLink(1, 2, 1)) && Linker(Tried(s, 1, LinkRef, 2, 1, 10), Logged, Up)
    ensures Tried(s, 1, LinkRef, 2, 1, 10).words == s.words
  {
    hide Newest;
    NewestAt(Tried(s, 1, LinkRef, 2, 1, 10).th[1].logs, 2);
  }

  ghost predicate OnWord(s: State, pc: Pc, mon: Mon) {
    Linker(s, pc, mon) && s.words[10] == Word(1, 2, 2) && (1, 2) in s.pub
  }

  lemma CommitStep(s: State)
    requires Linker(s, Logged, Up) && s.words[10] == Word(1, 1, 1)
    ensures Can(s, CasOk(1)) && OnWord(Do(s, CasOk(1)), Committed, Up)
  {
    hide Newest;
  }

  lemma StopStep(s: State)
    requires OnWord(s, Committed, Up)
    ensures Can(s, Crash(1)) && OnWord(Do(s, Crash(1)), Committed, Down)
  {
    hide Newest;
  }

  lemma RedoSteps(s: State)
    requires OnWord(s, Committed, Down)
    ensures Can(s, Redo(1)) && Calm(s, 1) && OnWord(Do(s, Redo(1)), Committed, CidRead(1))
  {
    hide Newest;
  }

  lemma MatchStep(s: State)
    requires OnWord(s, Committed, CidRead(1))
    ensures Can(s, Redo(1)) && Calm(s, 1) && OnWord(Do(s, Redo(1)), Committed, Decided(true))
  {
    hide Newest;
  }

  lemma ReplayStep(s: State)
    requires OnWord(s, Committed, Decided(true))
    ensures Can(s, Redo(1)) && Calm(s, 1) && OnWord(Do(s, Redo(1)), Finished, Recovered)
    ensures Do(s, Redo(1)).slots[2] == 10
  {
    hide Newest;
  }

  /** The client stopped between its CAS and its bump, and redo is done. */
  ghost predicate Midway(s: State) {
    OnWord(s, Finished, Recovered) && s.slots[2] == 10
  }

  lemma RunLogged() returns (run: seq<Action>)
    ensures Legal(Boot3(), run) && Linker(Final(Boot3(), run), Logged, Up)
            && Final(Boot3(), run).words[10] == Word(1, 1, 1)
  {
    hide Legal, Final, Newest, CanBeginAlloc, Boot3, Allocated, Tried, Linker, Trio, Fresh;
    assert Legal(Boot3(), []) && Final(Boot3(), []) == Boot3() by { Nothing(Boot3()); }
    OwnerSteps(Boot3());
    run := RunAlloc(Boot3(), [], Boot3(), 1, 1, 10);
    var s := Final(Boot3(), run);
    OwnerReady(s);
    LinkerSteps(s);
    run := RunTry(Boot3(), run, s, BeginLink(1, 2, 1));
  }

  lemma OwnerReady(s: State)
    requires Owner(s)
    ensures Running(s, 1) && |s.th[1].logs| == REDO_CACHELINE_CNT && s.words.Keys == s.ver.Keys && s.slots[1] == 10
    ensures forall o :: o in s.words && s.words[o].cid == 1 ==> s.words[o].era <= Own(s, 1)
  {
  }

  /** A reachable state in which the client is recovered and its era is on a word: the next stamp made in
      its name repeats a published one. */
  lemma RestampMidway() returns (run: seq<Action>)
    ensures Legal(Boot3(), run) && Midway(Final(Boot3(), run))
    ensures Final(Boot3(), run).th[1].mon.Recovered? && Final(Boot3(), run).th[1].pc.Finished?
    ensures (1, Own(Final(Boot3(), run), 1)) in Final(Boot3(), run).pub
  {
    hide Legal, Final, Newest, Boot3, Linker, Can, Do, Calm;
    run := RunLogged();
    CommitStep(Final(Boot3(), run));
    Extend(Boot3(), run, CasOk(1));
    run := run + [CasOk(1)];
    StopStep(Final(Boot3(), run));
    Extend(Boot3(), run, Crash(1));
    run := run + [Crash(1)];
    RedoSteps(Final(Boot3(), run));
    Extend(Boot3(), run, Redo(1));
    run := run + [Redo(1)];
    MatchStep(Final(Boot3(), run));
    Extend(Boot3(), run, Redo(1));
    run := run + [Redo(1)];
    ReplayStep(Final(Boot3(), run));
    Extend(Boot3(), run, Redo(1));
    run := run + [Redo(1)];
    MidwayOwn(Final(Boot3(), run));
  }

  lemma MidwayOwn(s: State)
    requires Midway(s)
    ensures s.th[1].mon.Recovered? && s.th[1].pc.Finished? && (1, Own(s, 1)) in s.pub
  {
  }

  lemma Boot3Init()
    ensures Init(Boot3())
  {
  }

  // ----- the third client

  /** Client 2 has loaded a word with era 2 of client 1, and is about to link slot 3. */
  ghost predicate Loader(s: State) {
    && 2 in s.th && s.th[2].pc.Loaded? && s.th[2].mon.Up? && s.th[2].func.LinkRef? && s.th[2].obj == 10
    && s.th[2].dst == 3 && s.th[2].src == 1 && s.th[2].reg == Word(1, 2, 2)
  }

  ghost predicate Loaded2(s: State) {
    && Trio(s) && s.words[10] == Word(1, 2, 2) && s.slots[2] == 10 && s.slots[4] == 0 && (1, 2) in s.pub
    && s.th[1].pc.Finished? && s.th[1].mon.Recovered? && Fresh(s, 3)
    && Loader(s) && s.th[2].regVer == s.ver[10]
  }

  lemma BeginStep(s: State)
    requires Midway(s)
    ensures Can(s, BeginLink(2, 3, 1)) && Can(Do(s, BeginLink(2, 3, 1)), Load(2))
    ensures Loaded2(Do(Do(s, BeginLink(2, 3, 1)), Load(2)))
  {
    hide Newest;
  }

  /** Client 3 has logged its link of slot 4. */
  ghost predicate Logged3(s: State) {
    && Trio(s) && s.words[10] == Word(1, 2, 2) && s.slots[2] == 10 && (1, 2) in s.pub
    && s.th[1].pc.Finished? && s.th[1].mon.Recovered? && Loader(s) && s.th[2].regVer == s.ver[10]
    && s.th[3].pc.Logged? && s.th[3].mon.Up? && s.th[3].func.LinkRef? && s.th[3].obj == 10 && s.th[3].dst == 4
       && s.th[3].src == 1
    && s.th[3].reg == Word(1, 2, 2)
  }

  lemma ThirdSteps(s: State)
    requires Loaded2(s)
    ensures Can(s, BeginLink(3, 4, 1)) && Running(s, 3) && |s.th[3].logs| == REDO_CACHELINE_CNT
            && s.words.Keys == s.ver.Keys
    ensures forall o :: o in s.words && s.words[o].cid == 3 ==> s.words[o].era <= Own(s, 3)
    ensures var t := Do(s, BeginLink(3, 4, 1)).th[3]; t.obj == 10 && t.func.LinkRef? && t.dst == 4 && t.src == 1
    ensures Logged3(Tried(s, 3, LinkRef, 4, 1, 10))
  {
    hide Newest;
  }

  ghost predicate Overwritten(s: State) {
    && Trio(s) && s.words[10] == Word(3, 3, 1) && s.slots[2] == 10 && (1, 2) in s.pub
    && s.th[1].mon.Recovered? && s.th[1].pc.Finished? && Loader(s) && s.th[2].regVer < s.ver[10]
    && s.th[3].pc.Committed? && s.th[3].dst == 4 && s.th[3].func.LinkRef?
  }

  lemma OverwriteStep(s: State)
    requires Logged3(s)
    ensures Can(s, CasOk(3)) && Overwritten(Do(s, CasOk(3)))
  {
    hide Newest;
  }

  /** The monitor unlinks slot 2 in client 1's name. */
  ghost predicate Sweeping(s: State, pc: Pc) {
    && Trio(s) && s.words[10] == Word(3, 3, 1) && s.slots[2] == 10 && (1, 2) in s.pub
    && Loader(s) && s.th[2].regVer < s.ver[10] && s.th[3].pc.Committed? && s.th[3].dst == 4 && s.th[3].func.LinkRef?
    && s.th[1].pc == pc && s.th[1].mon == Sweep(true, true)
  }

  ghost predicate Unlinker(s: State) {
    1 in s.th && s.th[1].func.UnlinkRef? && s.th[1].dst == 2 && s.th[1].obj == 10
  }

  lemma SweepStep(s: State)
    requires Overwritten(s)
    ensures Can(s, StartSweep(1)) && Sweeping(Do(s, StartSweep(1)), Idle)
  {
    hide Newest;
  }

  lemma UnlinkStep(s: State)
    requires Sweeping(s, Idle)
    ensures Can(s, BeginUnlink(1, 2)) && Sweeping(Do(s, BeginUnlink(1, 2)), Start) && Unlinker(Do(s, BeginUnlink(1, 2)))
  {
    hide Newest;
  }

  lemma LoadStep(s: State)
    requires Sweeping(s, Start) && Unlinker(s)
    ensures Can(s, Load(1)) && Sweeping(Do(s, Load(1)), Loaded) && Unlinker(Do(s, Load(1)))
    ensures Do(s, Load(1)).th[1].reg == Word(3, 3, 1)
  {
    hide Newest;
  }

  lemma RecordStep(s: State)
    requires Sweeping(s, Loaded) && Unlinker(s) && s.th[1].reg == Word(3, 3, 1)
    ensures Can(s, Record(1)) && Sweeping(Do(s, Record(1)), Recorded) && Unlinker(Do(s, Record(1)))
    ensures Do(s, Record(1)).th[1].reg == Word(3, 3, 1)
  {
    hide Newest;
  }

  lemma SkipStep(s: State)
    requires Sweeping(s, Recorded) && Unlinker(s) && s.th[1].reg == Word(3, 3, 1)
    ensures Can(s, Skip(1)) && Sweeping(Do(s, Skip(1)), Logged) && Unlinker(Do(s, Skip(1)))
    ensures Do(s, Skip(1)).th[1].reg == Word(3, 3, 1)
  {
    hide Newest;
  }

  /** The word client 2 loaded is back, after two other writes. */
  ghost predicate Back(s: State, pc: Pc) {
    && Trio(s) && s.words[10] == Word(1, 2, 2) && s.th[2].regVer < s.ver[10] && s.th[2].reg == Word(1, 2, 2)
    && s.th[2].pc == pc && s.th[2].mon.Up? && s.th[2].func.LinkRef? && s.th[2].obj == 10 && s.th[2].dst == 3
  }

  lemma RepeatStep(s: State)
    requires Sweeping(s, Logged) && Unlinker(s) && s.th[1].reg == Word(3, 3, 1)
    ensures Can(s, CasOk(1)) && (1, Own(s, 1)) in s.pub && Back(Do(s, CasOk(1)), Loaded)
  {
    hide Newest;
  }

  lemma SecondSteps(s: State)
    requires Back(s, Loaded)
    ensures Can(s, Record(2)) && Can(Do(s, Record(2)), WriteLog(2))
    ensures Back(Do(Do(s, Record(2)), WriteLog(2)), Logged)
  {
    hide Newest;
  }

  lemma RunSweeping() returns (run: seq<Action>)
    ensures Legal(Boot3(), run)
    ensures var s := Final(Boot3(), run); Sweeping(s, Logged) && Unlinker(s) && s.th[1].reg == Word(3, 3, 1)
  {
    hide Legal, Final, Newest, Boot3, Can, Do, Calm, Midway, Loaded2, Logged3, Overwritten, Sweeping, Unlinker, Tried;
    run := RunOverwritten();
    SweepStep(Final(Boot3(), run));
    Extend(Boot3(), run, StartSweep(1));
    run := run + [StartSweep(1)];
    UnlinkStep(Final(Boot3(), run));
    Extend(Boot3(), run, BeginUnlink(1, 2));
    run := run + [BeginUnlink(1, 2)];
    LoadStep(Final(Boot3(), run));
    Extend(Boot3(), run, Load(1));
    run := run + [Load(1)];
    RecordStep(Final(Boot3(), run));
    Extend(Boot3(), run, Record(1));
    run := run + [Record(1)];
    SkipStep(Final(Boot3(), run));
    Extend(Boot3(), run, Skip(1));
    run := run + [Skip(1)];
  }

  lemma RunOverwritten() returns (run: seq<Action>)
    ensures Legal(Boot3(), run) && Overwritten(Final(Boot3(), run))
  {
    hide Legal, Final, Newest, Boot3, CanBeginLink, DoBeginLink, CanLoad, DoLoad, CanCasOk, DoCasOk, Midway, Loaded2,
         Logged3, Overwritten, Tried;
    run := RestampMidway();
    BeginStep(Final(Boot3(), run));
    Extend(Boot3(), run, BeginLink(2, 3, 1));
    run := run + [BeginLink(2, 3, 1)];
    Extend(Boot3(), run, Load(2));
    run := run + [Load(2)];
    var s := Final(Boot3(), run);
    ThirdSteps(s);
    run := RunTry(Boot3(), run, s, BeginLink(3, 4, 1));
    OverwriteStep(Final(Boot3(), run));
    Extend(Boot3(), run, CasOk(3));
    run := run + [CasOk(3)];
  }

  /** The monitor's CAS in client 1's name publishes a stamp that client 1 had published. */
  lemma StampRepeated() returns (run: seq<Action>)
    ensures Init(Boot3()) && Legal(Boot3(), run)
    ensures var s := Final(Boot3(), run); Can(s, CasOk(1)) && s.th[1].mon.Sweep? && (1, Own(s, 1)) in s.pub
  {
    hide Legal, Final, Boot3, Init, Can, Do;
    Boot3Init();
    run := RunSweeping();
    RepeatStep(Final(Boot3(), run));
  }

  /** And client 2's CAS succeeds on a word that was written twice since it was loaded. */
  lemma AbaHappens() returns (run: seq<Action>)
    ensures Init(Boot3()) && Legal(Boot3(), run)
    ensures var s := Final(Boot3(), run); CanCasOk(s, 2) && s.th[2].regVer < s.ver[s.th[2].obj]
  {
    hide Legal, Final, Boot3, Init, Can, Do, Sweeping, Unlinker, CanCasOk;
    Boot3Init();
    run := RunSweeping();
    RepeatStep(Final(Boot3(), run));
    Extend(Boot3(), run, CasOk(1));
    run := run + [CasOk(1)];
    SecondSteps(Final(Boot3(), run));
    Extend(Boot3(), run, Record(2));
    run := run + [Record(2)];
    Extend(Boot3(), run, WriteLog(2));
    run := run + [WriteLog(2)];
    BackCas(Final(Boot3(), run));
  }

  lemma BackCas(s: State)
    requires Back(s, Logged)
    ensures CanCasOk(s, 2) && s.th[2].regVer < s.ver[s.th[2].obj]
  {
  }
}
