/** The era matrix over whole runs. */
module RefEras {
  import opened RefTypes
  import opened RefMachine
  import opened RefInvariant
  import opened RefTheorems
  import opened RefRelease

  /** No word carries an era of client i above the client's own; it carries that one only while the client
      is between its CAS and its bump, or was recovered there. Another client has seen only published
      eras of i, none above its own. */
  lemma EraBounds(s0: State, run: seq<Action>, o: Obj, i: Tid, j: Tid)
    requires Init(s0) && Legal(s0, run) && i != 0
    ensures var s := Final(s0, run);
            && (o in s.words && s.words[o].cid == i ==>
                  i in s.th && s.words[o].era <= Own(s, i) && (s.words[o].era == Own(s, i) ==> Published(s.th[i])))
            && (j != i && EraAt(s.era, j, i) > 0 ==>
                  i in s.th && EraAt(s.era, j, i) <= Own(s, i) && (i, EraAt(s.era, j, i)) in s.pub)
  {
    Reached(s0, run);
    assert RowOk(Final(s0, run), j, i);
  }

  lemma OthersKeepEras(s: State, a: Action)
    requires Can(s, a) && !a.Record? && !a.Bump? && !a.AllocBump?
    ensures Do(s, a).era == s.era
  {
    hide Newest, Available, NotLinkedFrom;
  }

  /** No step lowers a cell. */
  lemma StepGrows(s: State, a: Action, j: Tid, i: Tid)
    requires Can(s, a)
    ensures EraAt(Do(s, a).era, j, i) >= EraAt(s.era, j, i)
  {
    if a.Record? {
      assert Do(s, a).era == Observe(s.era, a.i, s.th[a.i].reg);
    } else if a.Bump? || a.AllocBump? {
      assert Do(s, a).era == BumpEra(s.era, a.i);
    } else {
      OthersKeepEras(s, a);
    }
  }

  /** Eras only grow, own ones and those seen of others. */
  lemma {:induction false} ErasGrow(s: State, run: seq<Action>, j: Tid, i: Tid)
    requires Legal(s, run)
    ensures EraAt(Final(s, run).era, j, i) >= EraAt(s.era, j, i)
    decreases |run|
  {
    hide Can, Do;
    if run != [] {
      StepGrows(s, run[0], j, i);
      ErasGrow(Do(s, run[0]), run[1..], j, i);
    }
  }

  /** No object is lost: in every run an object without a count is free, left to the search for leaked
      blocks, or in some client's charge. */
  lemma ZeroCountIsInCharge(s0: State, run: seq<Action>, o: Obj)
    requires Init(s0) && Legal(s0, run)
    requires o in Final(s0, run).words && Final(s0, run).words[o].cnt == 0
    ensures o in Final(s0, run).pool || o in Final(s0, run).left || exists i :: InCharge(Final(s0, run), i, o)
  {
    assert NoneLost(s0);
    NothingLost(s0, run);
  }
}
