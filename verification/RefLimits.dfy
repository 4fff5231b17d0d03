/** Where redo is not safe: the exact conditions, and runs that meet them. */
module RefLimits {
  import opened RefTypes
  import opened RefMachine
  import opened RefInvariant
  import opened RefSteps
  import opened RefFinish
  import opened RefTheorems

  // ----- the two loads of the word

  /** The monitor loads the client id and the era of the word separately. A match found this way is
      trustworthy if and only if another client has not slipped in a word with the logged era. */
  lemma TornReadExact(s0: State, run: seq<Action>, i: Tid)
    requires Init(s0) && Legal(s0, run)
    requires CanReadEra(Final(s0, run), i) && FreshRec(Final(s0, run), i) && !Done(Final(s0, run).th[i])
    ensures var s := Final(s0, run);
            DoReadEra(s, i).th[i].mon == Decided(true) <==> Torn(s, i)
  {
    hide Init, Legal, Newest, StampsOk, RowsOk, CommitOk, OpOk, ShapeT, RegOk, ReleaseOk, MonOk;
    var s := Final(s0, run);
    Reached(s0, run);
    Unpack(s, i);
    FreshRecord(s, i);
    OneStamp(s, s.th[i].obj);
  }

  // ----- a record older than the client's era

  /** Counts and slots agree but for operations between their two writes. */
  ghost predicate Accounted(s: State) {
    forall o :: o in s.words ==>
      s.words[o].cnt + |Unlinking(s, o)| + |Stamping(s, o)| == |Holders(s.slots, o)| + |Linking(s, o)|
  }

  /** The same words and open operations with one slot changed: no longer. */
  lemma Unaccounted(s: State, s': State, r: Slot, v: Obj)
    requires Accounted(s) && r in s.slots && s.slots[r] != v && s'.slots == s.slots[r := v] && s'.words == s.words
    requires 0 !in s.words && (v != 0 ==> v in s.words) && (s.slots[r] != 0 ==> s.slots[r] in s.words)
    requires forall o ::
               && Unlinking(s', o) == Unlinking(s, o) && Stamping(s', o) == Stamping(s, o)
               && Linking(s', o) == Linking(s, o)
    ensures !Accounted(s')
  {
    hide Unlinking, Stamping, Linking, Holders;
    var o := if v != 0 then v else s.slots[r];
    assert |Unlinking(s', o)| == |Unlinking(s, o)| && |Stamping(s', o)| == |Stamping(s, o)|
           && |Linking(s', o)| == |Linking(s, o)|;
    HoldersMoved(s.slots, r, v, o);
    assert s'.words[o] == s.words[o];
  }

  lemma HoldersMoved(slots: map<Slot, Obj>, r: Slot, v: Obj, o: Obj)
    requires r in slots && slots[r] != v && (o == v || o == slots[r])
    ensures |Holders(slots[r := v], o)| != |Holders(slots, o)|
  {
    if o == v {
      assert Holders(slots[r := v], o) == Holders(slots, o) + {r};
    } else {
      assert Holders(slots, o) == Holders(slots[r := v], o) + {r};
    }
  }

  lemma SameAccount(s: State, s': State)
    requires Accounted(s) && s'.slots == s.slots && s'.words == s.words
    requires forall o ::
               && Unlinking(s', o) == Unlinking(s, o) && Stamping(s', o) == Stamping(s, o)
               && Linking(s', o) == Linking(s, o)
    ensures Accounted(s')
  {
    forall o | o in s'.words
      ensures s'.words[o].cnt + |Unlinking(s', o)| + |Stamping(s', o)| == |Holders(s'.slots, o)| + |Linking(s', o)|
    {
      assert Unlinking(s', o) == Unlinking(s, o);
    }
  }

  lemma SameOpen(s: State, i: Tid, t': Thread, o: Obj)
    requires i in s.th && t'.obj == s.th[i].obj && !s.th[i].pc.Committed? && !t'.pc.Committed?
    requires Allocating(t') <==> Allocating(s.th[i])
    ensures var s' := SetThread(s, i, t');
            Unlinking(s', o) == Unlinking(s, o) && Stamping(s', o) == Stamping(s, o) && Linking(s', o) == Linking(s, o)
  {
    var s' := SetThread(s, i, t');
    assert forall j :: j in s.th <==> j in s'.th.Keys;
  }

  /** A client that stopped outside an operation leaves the record of a closed one. Whatever others are
      doing, replaying it keeps the account of counts and slots if and only if it does not change the slot. */
  lemma StaleReplayExact(s0: State, run: seq<Action>, i: Tid)
    requires Init(s0) && Legal(s0, run)
    requires CanReplay(Final(s0, run), i) && !FreshRec(Final(s0, run), i)
    ensures Accounted(DoReplay(Final(s0, run), i)) <==> !ReplayChanges(Final(s0, run), i)
  {
    hide Init, Legal, Inv, ReplayChanges, DoReplay;
    Reached(s0, run);
    AccountedNow(Final(s0, run));
    StaleReplay(Final(s0, run), i);
  }

  lemma StaleReplay(s: State, i: Tid)
    requires Inv(s) && Accounted(s) && CanReplay(s, i) && !FreshRec(s, i)
    ensures Accounted(DoReplay(s, i)) <==> !ReplayChanges(s, i)
  {
    hide Newest, StampsOk, RowsOk, CommitOk, OpOk, RegOk, ReleaseOk, MonOk, LogOk, Accounted, Holders, CountOk,
         Exclusive, EffOk, Unlinking, Linking, Stamping;
    Unpack(s, i);
    if Done(s.th[i]) {
      DoneIsFresh(s, i);
    }
    var rec, s' := Rec(s.th[i]), DoReplay(s, i);
    var k :| 0 <= k < |s.th[i].logs| && s.th[i].logs[k] == rec;
    assert LogShape(s, rec);
    forall o
      ensures Unlinking(s', o) == Unlinking(s, o) && Stamping(s', o) == Stamping(s, o)
              && Linking(s', o) == Linking(s, o)
    {
      SameOpen(s, i, s'.th[i], o);
      SlotsApart(SetThread(s, i, s'.th[i]), s', o);
    }
    if ReplayChanges(s, i) {
      Unaccounted(s, s', rec.ref, Target(rec));
    } else {
      SameAccount(s, s');
    }
  }

  lemma SlotsApart(s: State, s': State, o: Obj)
    requires s'.th == s.th
    ensures Unlinking(s', o) == Unlinking(s, o) && Stamping(s', o) == Stamping(s, o) && Linking(s', o) == Linking(s, o)
  {
  }

  lemma AccountedNow(s: State)
    requires Inv(s)
    ensures Accounted(s)
  {
    hide Inv, Holders, Unlinking, Linking, Stamping;
    forall o | o in s.words
      ensures s.words[o].cnt + |Unlinking(s, o)| + |Stamping(s, o)| == |Holders(s.slots, o)| + |Linking(s, o)|
    {
      Balance(s, o);
    }
  }

  /** A torn read that claims a match has its price: the replay changes the slot of an operation that never
      happened, and counts and slots disagree. */
  lemma TornReplay(s0: State, run: seq<Action>, i: Tid)
    requires Init(s0) && Legal(s0, run)
    requires CanReadEra(Final(s0, run), i) && FreshRec(Final(s0, run), i) && !Done(Final(s0, run).th[i])
    ensures var t := DoReadEra(Final(s0, run), i);
            t.th[i].mon == Decided(true) ==> CanReplay(t, i) && !Accounted(DoReplay(t, i))
  {
    hide Init, Legal, Inv, Accounted, DoReplay, Newest;
    Reached(s0, run);
    AccountedNow(Final(s0, run));
    if DoReadEra(Final(s0, run), i).th[i].mon == Decided(true) {
      TornBreaks(Final(s0, run), i);
    }
  }

  lemma OpenRecord(s: State, i: Tid)
    requires Inv(s) && HasLogs(s, i) && FreshRec(s, i) && !Done(s.th[i]) && s.th[i].mon.CidRead?
    ensures var rec := Rec(s.th[i]);
            && Trying(s.th[i]) && !rec.func.NoFunc? && rec.ref in s.slots && s.slots[rec.ref] != Target(rec)
            && (Target(rec) != 0 ==> Target(rec) in s.words) && (s.slots[rec.ref] != 0 ==> s.slots[rec.ref] in s.words)
            && 0 !in s.words
  {
    hide Newest, StampsOk, RowsOk, CommitOk, RegOk, ReleaseOk, CountOk, Exclusive, EffOk, PoolOk, PubOk;
    assert ThreadOk(s, i, s.th[i]);
    FreshRecord(s, i);
  }

  lemma TornShape(s: State, i: Tid)
    requires CanReadEra(s, i) && Trying(s.th[i]) && !Rec(s.th[i]).func.NoFunc?
             && DoReadEra(s, i).th[i].mon == Decided(true)
    ensures CanReplay(DoReadEra(s, i), i)
    ensures var s', rec := DoReplay(DoReadEra(s, i), i), Rec(s.th[i]);
            && s'.words == s.words && s'.slots == s.slots[rec.ref := Target(rec)]
            && s'.th == s.th[i := s.th[i].(pc := Aborted, mon := Recovered)]
  {
    hide Newest;
  }

  lemma TornBreaks(s: State, i: Tid)
    requires Inv(s) && Accounted(s) && CanReadEra(s, i) && FreshRec(s, i) && !Done(s.th[i])
    requires DoReadEra(s, i).th[i].mon == Decided(true)
    ensures CanReplay(DoReadEra(s, i), i) && !Accounted(DoReplay(DoReadEra(s, i), i))
  {
    hide Newest, Inv, Accounted, Unlinking, Linking, Stamping, DoReadEra, DoReplay, FreshRec;
    OpenRecord(s, i);
    TornShape(s, i);
    var rec, s' := Rec(s.th[i]), DoReplay(DoReadEra(s, i), i);
    forall o
      ensures Unlinking(s', o) == Unlinking(s, o) && Stamping(s', o) == Stamping(s, o)
              && Linking(s', o) == Linking(s, o)
    {
      SameOpen(s, i, s.th[i].(pc := Aborted, mon := Recovered), o);
      SlotsApart(SetThread(s, i, s.th[i].(pc := Aborted, mon := Recovered)), s', o);
    }
    Unaccounted(s, s', rec.ref, Target(rec));
  }

  // ----- the stamp of the first counted update that recovery makes for the client

  /** Recovery goes on with the client's era as it found it. Its first stamp repeats one that has been
      published if and only if redo found the client between its CAS and its bump. */
  lemma RecoveryRestamps(s0: State, run: seq<Action>, i: Tid)
    requires Init(s0) && Legal(s0, run)
    requires i in Final(s0, run).th && Final(s0, run).th[i].mon.Recovered?
    ensures var s := Final(s0, run); (i, Own(s, i)) in s.pub <==> s.th[i].pc.Finished?
  {
    hide Init, Legal, Inv;
    Reached(s0, run);
    Restamp(Final(s0, run), i);
  }

  lemma Restamp(s: State, i: Tid)
    requires Inv(s) && i in s.th && s.th[i].mon.Recovered?
    ensures (i, Own(s, i)) in s.pub <==> s.th[i].pc.Finished?
  {
    hide Newest, StampsOk, RowsOk, OpOk, RegOk, ReleaseOk, LogOk, CountOk, Exclusive, EffOk;
    Unpack(s, i);
    var t := s.th[i];
    if t.pc.Finished? {
      if Carries(s, i, t.obj, Own(s, i)) {
        OneStamp(s, t.obj);
      } else {
        var j :| SeenBy(s, j, i, Own(s, i));
        OneRow(s, j, i);
      }
    }
  }
}
