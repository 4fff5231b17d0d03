/** What the protocol promises, for every run from an initial state. */
module RefTheorems {
  import opened RefTypes
  import opened RefMachine
  import opened RefInvariant
  import opened RefSteps
  import opened RefOpen
  import opened RefUpdates
  import opened RefFinish

  lemma InitInv(s: State)
    requires Init(s)
    ensures Inv(s)
  {
    assert Shape(s);
    forall o | o in s.words ensures s.words[o].cnt == |Holders(s.eff, o)| {
      assert Holders(s.eff, o) == {};
    }
    forall j, c ensures RowOk(s, j, c) {
    }
    forall i | i in s.th ensures ThreadOk(s, i, s.th[i]) {
      hide Newest;
      assert Own(s, i) == 1;
    }
  }

  lemma KeepRedo(s: State, i: Tid)
    requires Inv(s) && CanRedo(s, i) && Calm(s, i)
    ensures Inv(DoRedo(s, i))
  {
    hide Inv;
    match s.th[i].mon
    case Down => KeepReadCid(s, i);
    case CidRead(_) => KeepReadEra(s, i);
    case Scan(_, _) => KeepCompare(s, i);
    case Grow(_, _) => KeepGrow(s, i);
    case Decided(_) => KeepReplay(s, i);
  }

  /** The invariant is inductive. */
  lemma Keep(s: State, a: Action)
    requires Inv(s) && Can(s, a) && (a.Redo? ==> Calm(s, a.i))
    ensures Inv(Do(s, a))
  {
    hide Inv, CanRedo, Calm, DoRedo;
    match a
    case BeginLink(i, dst, src) => KeepBeginLink(s, i, dst, src);
    case BeginUnlink(i, dst) => KeepBeginUnlink(s, i, dst);
    case Load(i) => KeepLoad(s, i);
    case Record(i) => KeepRecord(s, i);
    case WriteLog(i) => KeepWriteLog(s, i);
    case CasOk(i) => KeepCasOk(s, i);
    case CasFail(i) => KeepCasFail(s, i);
    case WriteSlot(i) => KeepWriteSlot(s, i);
    case Bump(i) => KeepBump(s, i);
    case Free(i) => KeepFree(s, i);
    case BeginAlloc(i, dst, o) => KeepBeginAlloc(s, i, dst, o);
    case AllocBump(i) => KeepAllocBump(s, i);
    case AllocStamp(i) => KeepAllocStamp(s, i);
    case ClearLogs(i) => KeepClearLogs(s, i);
    case Crash(i) => KeepCrash(s, i);
    case Redo(i) => KeepRedo(s, i);
    case StartSweep(i) => KeepStartSweep(s, i);
    case Skip(i) => KeepSkip(s, i);
  }

  // ----- runs

  /** A run the code can take, under the two hypotheses `Calm` puts on the monitor. */
  ghost predicate Legal(s: State, run: seq<Action>)
    decreases |run|
  {
    run == [] ||
    (Can(s, run[0]) && (run[0].Redo? ==> Calm(s, run[0].i)) && Legal(Do(s, run[0]), run[1..]))
  }

  ghost function Final(s: State, run: seq<Action>): State
    requires Legal(s, run)
    decreases |run|
  {
    if run == [] then s else Final(Do(s, run[0]), run[1..])
  }

  lemma {:induction false} RunInv(s: State, run: seq<Action>)
    requires Inv(s) && Legal(s, run)
    ensures Inv(Final(s, run))
    decreases |run|
  {
    hide Inv, Can, Do, Calm;
    if run != [] {
      Keep(s, run[0]);
      RunInv(Do(s, run[0]), run[1..]);
    }
  }

  lemma Reached(s0: State, run: seq<Action>)
    requires Init(s0) && Legal(s0, run)
    ensures Inv(Final(s0, run))
  {
    hide Inv, Init, Legal;
    InitInv(s0);
    RunInv(s0, run);
  }

  // ----- the commit test

  /** The test of `redo_ref_cnt` is exact for a client stopped between its log write and its bump:
      the word carries its stamp or another row has seen its era if and only if its CAS succeeded. */
  lemma CommitTestExact(s0: State, run: seq<Action>, i: Tid)
    requires Init(s0) && Legal(s0, run)
    requires i in Final(s0, run).th && HasLogs(Final(s0, run), i) && FreshRec(Final(s0, run), i)
    requires !Final(s0, run).th[i].mon.Recovered? && !Final(s0, run).th[i].mon.Sweep?
    ensures var s := Final(s0, run);
            var rec := Rec(s.th[i]);
            Done(s.th[i]) <==> Evidence(s, i, rec.refed, rec.era)
  {
    hide Init, Legal, Inv, Newest;
    var s := Final(s0, run);
    Reached(s0, run);
    FreshRecord(s, i);
    TestExact(s, i);
  }

  lemma TestExact(s: State, i: Tid)
    requires Inv(s) && i in s.th && HasLogs(s, i) && FreshRec(s, i) && !s.th[i].mon.Recovered? && !s.th[i].mon.Sweep?
    requires CurrentLog(s.th[i], Rec(s.th[i]))
    ensures Done(s.th[i]) <==> Evidence(s, i, s.th[i].obj, Own(s, i))
  {
    hide EffOk, Exclusive, CountOk, PoolOk, StampOk, PubOk, RowOk, RegOk, OpOk, MonOk, ReleaseOk, Newest;
    var t := s.th[i];
    assert ThreadOk(s, i, t);
    if Evidence(s, i, t.obj, Own(s, i)) && !Published(t) {
      if Carries(s, i, t.obj, Own(s, i)) {
        assert StampOk(s, t.obj, s.words[t.obj]);
        WrongStamp(s, i, t.obj);
      } else {
        var j :| SeenBy(s, j, i, Own(s, i));
        assert RowOk(s, j, i);
        WrongRow(s, i, j);
      }
    }
  }

  lemma WrongStamp(s: State, i: Tid, o: Obj)
    requires o in s.words && StampOk(s, o, s.words[o]) && Carries(s, i, o, Own(s, i)) && i != 0
    ensures i in s.th && Published(s.th[i])
  {
  }

  lemma WrongRow(s: State, i: Tid, j: Tid)
    requires RowOk(s, j, i) && SeenBy(s, j, i, Own(s, i)) && Own(s, i) > 0
    ensures i in s.th && Published(s.th[i])
  {
  }

  /** The monitor's two loads and its cell-by-cell scan, interleaved with running clients, decide as
      the atomic test would: redo is needed if and only if the CAS succeeded. */
  lemma ScanDecidesExactly(s0: State, run: seq<Action>, i: Tid)
    requires Init(s0) && Legal(s0, run)
    requires HasLogs(Final(s0, run), i) && FreshRec(Final(s0, run), i)
    requires Final(s0, run).th[i].mon.Decided?
    ensures Final(s0, run).th[i].mon.need <==> Done(Final(s0, run).th[i])
  {
    hide Init, Legal, Newest, StampsOk, RowsOk, CommitOk, OpOk, ShapeT, RegOk, ReleaseOk;
    Reached(s0, run);
    Unpack(Final(s0, run), i);
  }

  // ----- counts

  ghost function Unlinking(s: State, o: Obj): set<Tid> {
    set i | i in s.th && s.th[i].pc.Committed? && !s.th[i].func.LinkRef? && s.th[i].obj == o
  }

  ghost function Linking(s: State, o: Obj): set<Tid> {
    set i | i in s.th && s.th[i].pc.Committed? && s.th[i].func.LinkRef? && s.th[i].obj == o
  }

  ghost function Stamping(s: State, o: Obj): set<Tid> {
    set i | i in s.th && Allocating(s.th[i]) && s.th[i].obj == o
  }

  ghost function DstOf(s: State, c: set<Tid>): set<Slot>
    requires c <= s.th.Keys
  {
    set i | i in c :: s.th[i].dst
  }

  /** Operators have distinct slots. */
  lemma {:induction false} DstSize(s: State, c: set<Tid>)
    requires Exclusive(s) && c <= s.th.Keys && forall i :: i in c ==> Active(s.th[i])
    ensures |DstOf(s, c)| == |c|
  {
    if c != {} {
      var i :| i in c;
      var rest := c - {i};
      DstSize(s, rest);
      assert DstOf(s, c) == DstOf(s, rest) + {s.th[i].dst};
      forall j | j in rest ensures s.th[j].dst != s.th[i].dst {
        assert Apart(s.th[i], s.th[j]);
      }
    }
  }

  /** Every reference is accounted for: a slot that holds the object has its count, but for unlinks
      and links between their CAS and their slot write, and allocations not stamped yet. */
  lemma CountConserved(s0: State, run: seq<Action>, o: Obj)
    requires Init(s0) && Legal(s0, run) && o in Final(s0, run).words
    ensures var s := Final(s0, run);
            s.words[o].cnt + |Unlinking(s, o)| + |Stamping(s, o)|
            == |Holders(s.slots, o)| + |Linking(s, o)|
  {
    hide Init, Legal, Inv;
    Reached(s0, run);
    Balance(Final(s0, run), o);
  }

  lemma SlotAccount(s: State, o: Obj, r: Slot)
    requires EffOk(s) && ThreadsOk(s) && s.slots.Keys == s.eff.Keys && o != 0
    ensures r in Holders(s.slots, o) && r !in DstOf(s, Unlinking(s, o) + Stamping(s, o)) ==> r in Holders(s.eff, o)
    ensures r in Holders(s.eff, o) && r !in DstOf(s, Linking(s, o)) ==> r in Holders(s.slots, o)
    ensures r in DstOf(s, Unlinking(s, o) + Stamping(s, o)) ==> r in Holders(s.slots, o) && r !in Holders(s.eff, o)
    ensures r in DstOf(s, Linking(s, o)) ==> r in Holders(s.eff, o) && r !in Holders(s.slots, o)
  {
    hide ShapeT, RegOk, CommitOk, LogOk, ReleaseOk, MonOk;
    assert forall i :: i in s.th ==> OpOk(s, s.th[i]) by {
      forall i | i in s.th ensures OpOk(s, s.th[i]) {
        assert ThreadOk(s, i, s.th[i]);
      }
    }
    if r in s.slots && r in s.eff && s.eff[r] != s.slots[r] {
      var j :| j in s.th && Pending(s.th[j]) && s.th[j].dst == r;
      assert OpOk(s, s.th[j]);
      assert j in Unlinking(s, s.th[j].obj) + Stamping(s, s.th[j].obj) + Linking(s, s.th[j].obj);
    }
  }

  lemma SetBalance(a: set<Slot>, out: set<Slot>, e: set<Slot>, into: set<Slot>)
    requires out <= a && into <= e && a - out == e - into
    ensures |a| + |into| == |e| + |out|
  {
    assert a == (a - out) + out;
    assert e == (e - into) + into;
  }

  lemma Balance(s: State, o: Obj)
    requires Inv(s) && o in s.words
    ensures s.words[o].cnt + |Unlinking(s, o)| + |Stamping(s, o)|
            == |Holders(s.slots, o)| + |Linking(s, o)|
  {
    hide StampsOk, RowsOk, PubOk, PoolOk, ThreadsOk, EffOk, Exclusive, Holders, DstOf;
    var out, into := Unlinking(s, o) + Stamping(s, o), Linking(s, o);
    forall r {
      SlotAccount(s, o, r);
    }
    DstSize(s, out);
    DstSize(s, into);
    SetBalance(Holders(s.slots, o), DstOf(s, out), Holders(s.eff, o), DstOf(s, into));
    assert Unlinking(s, o) !! Stamping(s, o);
  }

  /** Once every operation is finished, or redone after a crash, the counts are the slots. */
  lemma QuietCounts(s0: State, run: seq<Action>, o: Obj)
    requires Init(s0) && Legal(s0, run) && o in Final(s0, run).words
    requires forall i :: i in Final(s0, run).th ==> !Pending(Final(s0, run).th[i])
    ensures Final(s0, run).words[o].cnt == |Holders(Final(s0, run).slots, o)|
  {
    hide Init, Legal, Inv, Holders;
    CountConserved(s0, run, o);
    var s := Final(s0, run);
    assert Unlinking(s, o) == {} && Stamping(s, o) == {} && Linking(s, o) == {};
  }

  /** The replay of a crashed client's open operation completes it if it was committed and drops it
      otherwise; either way its slot agrees with the counts. */
  lemma RedoCompletes(s0: State, run: seq<Action>, i: Tid)
    requires Init(s0) && Legal(s0, run)
    requires CanReplay(Final(s0, run), i) && FreshRec(Final(s0, run), i)
    ensures var s := Final(s0, run);
            var t, s' := s.th[i], DoReplay(s, i);
            && s'.words == s.words && s'.eff == s.eff
            && s'.slots == (if Done(t) then s.slots[t.dst := Goal(t)] else s.slots)
            && t.dst in s'.slots && t.dst in s'.eff && s'.slots[t.dst] == s'.eff[t.dst]
  {
    hide Init, Legal, Newest, StampsOk, RowsOk, CommitOk, RegOk, ReleaseOk;
    var s := Final(s0, run);
    Reached(s0, run);
    Unpack(s, i);
    FreshRecord(s, i);
    FuncKnown(s, s.th[i]);
  }
}
