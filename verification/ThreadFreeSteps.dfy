/** Every step on a segment's lock-free list keeps its invariant, and what that means for whole runs. */
module ThreadFreeSteps {
  import opened RefTypes
  import opened BlockLists
  import opened ThreadFree

  /** The first word of a block in somebody's hands is in no list. */
  lemma SetNextKeeps(v: Blocks, b: Blk, x: Blk)
    requires ListsOk(v) && b in v.place && v.place[b].Live?
    ensures ListsOk(SetNext(v, b, x))
  {
    forall l ensures ListOk(SetNext(v, b, x), l) {
      assert ListOk(v, l);
      assert b !in Listed(v, l);
      hide Chain, Fits;
      ChainKept(v.next, Head(v, l), Listed(v, l), b, x);
    }
  }

  lemma AlreadyLinked(v: Blocks, b: Blk, l: ListId)
    requires b in v.next && v.next[b] == Head(v, l)
    ensures Pushed(v, b, l).next == v.next
  {
  }

  lemma KeepBegin(s: State, t: Tid, b: Blk)
    requires Inv(s) && Begin(s, t, b).Some?
    ensures Inv(Begin(s, t, b).value)
  {
    hide ListsOk, UsedLags, Fits;
  }

  lemma KeepLoad(s: State, t: Tid)
    requires Inv(s) && Load(s, t).Some?
    ensures Inv(Load(s, t).value)
  {
    hide ListsOk, UsedLags, Fits;
  }

  lemma KeepLink(s: State, t: Tid)
    requires Inv(s) && Link(s, t).Some?
    ensures Inv(Link(s, t).value)
  {
    SetNextKeeps(s.v, Pc(s, t).b, Pc(s, t).info);
    hide ListsOk, Busy, Fits;
  }

  lemma KeepCasOk(s: State, t: Tid)
    requires Inv(s) && CasOk(s, t).Some?
    ensures Inv(CasOk(s, t).value)
  {
    CasPushers(s, t);
    CasLists(s, t);
    CasLogged(s, t);
    hide ListsOk, UsedLags, PushersOk, Logged, Fits;
  }

  lemma CasPushers(s: State, t: Tid)
    requires PushersOk(s) && CasOk(s, t).Some?
    ensures PushersOk(CasOk(s, t).value)
    ensures Pc(s, t).b in s.v.place && s.v.place[Pc(s, t).b].Live? && !OwnerHolds(s, Pc(s, t).b)
  {
    hide Fits;
    assert t in s.push;
  }

  lemma CasLists(s: State, t: Tid)
    requires ListsOk(s.v) && UsedLags(s.v, Lag(s.col)) && PushersOk(s) && CasOk(s, t).Some?
    ensures ListsOk(CasOk(s, t).value.v) && UsedLags(CasOk(s, t).value.v, Lag(s.col))
  {
    hide ListsOk, Busy, Fits;
    var b := Pc(s, t).b;
    assert t in s.push;
    FitsAt(b, s.seg);
    PushKeeps(s.v, b, Waiting(s));
    AlreadyLinked(s.v, b, Waiting(s));
    assert CasOk(s, t).value.v == Pushed(s.v, b, Waiting(s));
    BusySame(s.v.place, CasOk(s, t).value.v.place);
  }

  lemma CasLogged(s: State, t: Tid)
    requires Logged(s) && CasOk(s, t).Some?
    ensures Logged(CasOk(s, t).value)
  {
  }

  lemma FitsAt(b: Blk, seg: nat)
    requires Fits(b, ThreadOf(seg))
    ensures b.At?
  {
  }

  lemma KeepCasFail(s: State, t: Tid)
    requires Inv(s) && CasFail(s, t).Some?
    ensures Inv(CasFail(s, t).value)
  {
    hide ListsOk, UsedLags, Fits;
  }

  lemma KeepSee(s: State)
    requires Inv(s) && See(s).Some?
    ensures Inv(See(s).value)
  {
    hide ListsOk, UsedLags, Fits;
  }

  lemma KeepRead(s: State)
    requires Inv(s) && Read(s).Some?
    ensures Inv(Read(s).value)
  {
    hide ListsOk, UsedLags, Fits;
  }

  lemma KeepSwapOk(s: State)
    requires Inv(s) && SwapOk(s).Some?
    ensures Inv(SwapOk(s).value)
  {
    MoveKeeps(s.v, Waiting(s), Taken);
    NothingTaken(s.v);
    hide ListsOk, Fits;
    BusySame(s.v.place, SwapOk(s).value.v.place);
    hide Busy;
  }

  lemma KeepSwapFail(s: State)
    requires Inv(s) && SwapFail(s).Some?
    ensures Inv(SwapFail(s).value)
  {
    hide ListsOk, UsedLags, Fits;
  }

  lemma KeepSuccessor(s: State)
    requires Inv(s) && Successor(s).Some?
    ensures Inv(Successor(s).value)
  {
    if Head(s.v, Taken) == Null {
      hide ListsOk, UsedLags, PushersOk, Logged;
    } else {
      PopKeeps(s.v, Taken);
      OnlyBlocks(s.v, Taken);
      SuccessorPushers(s);
      SuccessorLogged(s);
      hide ListsOk, PushersOk, Logged, Busy, Fits;
      BusySame(s.v.place, Popped(s.v, Taken).place);
    }
  }

  lemma SuccessorPushers(s: State)
    requires PushersOk(s) && Successor(s).Some? && Head(s.v, Taken) in s.v.place
             && s.v.place[Head(s.v, Taken)] == In(Taken)
    ensures PushersOk(Successor(s).value)
  {
    hide Fits;
  }

  lemma SuccessorLogged(s: State)
    requires Logged(s) && Successor(s).Some? && Head(s.v, Taken) != Null
             && Head(s.v, Taken) == Nth(Listed(s.v, Taken), 0)
    ensures Logged(Successor(s).value)
  {
    assert Listed(s.v, Taken) == [Head(s.v, Taken)] + Listed(s.v, Taken)[1..];
  }

  lemma OnlyBlocks(v: Blocks, l: ListId)
    requires ListsOk(v) && Head(v, l) != Null
    ensures Head(v, l).At?
  {
  }

  lemma KeepHook(s: State)
    requires Inv(s) && Hook(s).Some?
    ensures Inv(Hook(s).value)
  {
    SetNextKeeps(s.v, s.col.b, Head(s.v, LocalOf(s.col.b.page)));
    hide ListsOk, Busy, Fits;
  }

  lemma KeepStore(s: State)
    requires Inv(s) && Store(s).Some?
    ensures Inv(Store(s).value)
  {
    hide ListsOk, Busy, Fits;
    var b := s.col.b;
    var l := LocalOf(b.page);
    FitsLocal(b);
    PushKeeps(s.v, b, l);
    AlreadyLinked(s.v, b, l);
    var w := Store(s).value.v;
    assert w == Pushed(s.v, b, l);
    BusyLoses(s.v.place, b, In(l));
  }

  lemma FitsLocal(b: Blk)
    requires b.At?
    ensures Fits(b, LocalOf(b.page))
  {
  }

  lemma KeepCount(s: State)
    requires Inv(s) && Count(s).Some?
    ensures Inv(Count(s).value)
  {
    SameLists(s.v, Count(s).value.v);
    hide ListsOk, Busy, Fits;
  }

  lemma KeepOwnerAlloc(s: State, p: nat)
    requires Inv(s) && OwnerAlloc(s, p).Some?
    ensures Inv(OwnerAlloc(s, p).value)
  {
    var b := Head(s.v, LocalOf(p));
    LocalHead(s.v, p);
    PopKeeps(s.v, LocalOf(p));
    SameLists(Popped(s.v, LocalOf(p)), OwnerAlloc(s, p).value.v);
    hide ListsOk, Busy, Fits;
    BusyGains(s.v.place, b, Live);
  }

  lemma LocalHead(v: Blocks, p: nat)
    requires ListsOk(v) && |Listed(v, LocalOf(p))| > 0
    ensures Head(v, LocalOf(p)).At? && Head(v, LocalOf(p)).page == p
    ensures Head(v, LocalOf(p)) in v.place && v.place[Head(v, LocalOf(p))] == In(LocalOf(p))
  {
    assert ListOk(v, LocalOf(p));
    assert Listed(v, LocalOf(p))[0] in Listed(v, LocalOf(p));
  }

  lemma KeepOwnerFree(s: State, b: Blk)
    requires Inv(s) && OwnerFree(s, b).Some?
    ensures Inv(OwnerFree(s, b).value)
  {
    FitsLocal(b);
    PushKeeps(s.v, b, LocalOf(b.page));
    SameLists(Pushed(s.v, b, LocalOf(b.page)), FreedHere(s.v, b));
    BusyLoses(s.v.place, b, In(LocalOf(b.page)));
    hide ListsOk, Busy, Fits;
  }

  lemma Keep(s: State, a: Action)
    requires Inv(s) && Next(s, a).Some?
    ensures Inv(Next(s, a).value)
  {
    hide Inv;
    match a
    case DoBegin(t, b) => KeepBegin(s, t, b);
    case DoLoad(t) => KeepLoad(s, t);
    case DoLink(t) => KeepLink(s, t);
    case DoCasOk(t) => KeepCasOk(s, t);
    case DoCasFail(t) => KeepCasFail(s, t);
    case DoSee => KeepSee(s);
    case DoRead => KeepRead(s);
    case DoSwapOk => KeepSwapOk(s);
    case DoSwapFail => KeepSwapFail(s);
    case DoSuccessor => KeepSuccessor(s);
    case DoHook => KeepHook(s);
    case DoStore => KeepStore(s);
    case DoCount => KeepCount(s);
    case DoOwnerAlloc(p) => KeepOwnerAlloc(s, p);
    case DoOwnerFree(b) => KeepOwnerFree(s, b);
  }

  // ----- runs

  ghost predicate Legal(s: State, run: seq<Action>)
    decreases |run|
  {
    run == [] || (Next(s, run[0]).Some? && Legal(Next(s, run[0]).value, run[1..]))
  }

  ghost function Final(s: State, run: seq<Action>): State
    requires Legal(s, run)
    decreases |run|
  {
    if run == [] then s else Final(Next(s, run[0]).value, run[1..])
  }

  /** Nobody is in the middle of anything and nothing was logged. */
  ghost predicate Init(s: State, size: map<nat, nat>) {
    && BlocksOk(s.v, size) && s.push == map[] && s.col.CIdle? && Head(s.v, Taken) == Null
    && Head(s.v, ThreadOf(s.seg)) == Null && s.pushed == [] && s.moved == []
  }

  lemma InitInv(s: State, size: map<nat, nat>)
    requires Init(s, size)
    ensures Inv(s)
  {
    NothingTaken(s.v);
    assert ListOk(s.v, Waiting(s));
    ChainNull(s.v.next, Head(s.v, Waiting(s)), Listed(s.v, Waiting(s)));
    hide ListsOk, Domain, Busy;
  }

  lemma {:induction false} RunInv(s: State, run: seq<Action>)
    requires Inv(s) && Legal(s, run)
    ensures Inv(Final(s, run))
    decreases |run|
  {
    hide Inv, Next;
    if run != [] {
      Keep(s, run[0]);
      RunInv(Next(s, run[0]).value, run[1..]);
    }
  }

  /** In every reachable state the list is an acyclic chain of distinct blocks, it holds exactly the
      blocks waiting, and every push ever made is in the list, in the owner's hands, or home - each once
      for each time it was made. */
  lemma PushesAccounted(s0: State, size: map<nat, nat>, run: seq<Action>)
    requires Init(s0, size) && Legal(s0, run)
    ensures var s := Final(s0, run);
            && Chain(s.v.next, Head(s.v, Waiting(s)), Listed(s.v, Waiting(s)))
            && (forall b :: b in Listed(s.v, Waiting(s)) <==> b in s.v.place && s.v.place[b] == In(Waiting(s)))
            && multiset(s.pushed)
               == multiset(Listed(s.v, Waiting(s))) + multiset(Listed(s.v, Taken)) + InTransit(s.col)
                  + multiset(s.moved)
  {
    InitInv(s0, size);
    RunInv(s0, run);
    var s := Final(s0, run);
    assert ListOk(s.v, Waiting(s));
  }

  /** When the owner is between collections and the list is empty, every block pushed has come home as
      often as it was pushed, and each page's counter is exactly the number of its blocks that are out. */
  lemma Quiet(s0: State, size: map<nat, nat>, run: seq<Action>, p: nat)
    requires Init(s0, size) && Legal(s0, run)
    requires Final(s0, run).col.CIdle?
    ensures var s := Final(s0, run);
            && (p in s.v.used ==> s.v.used[p] == |Busy(s.v.place, p)|)
            && (Head(s.v, Waiting(s)) == Null ==> multiset(s.pushed) == multiset(s.moved))
  {
    InitInv(s0, size);
    RunInv(s0, run);
    var s := Final(s0, run);
    NothingTaken(s.v);
    assert ListOk(s.v, Waiting(s));
    ChainNull(s.v.next, Head(s.v, Waiting(s)), Listed(s.v, Waiting(s)));
  }

  /** Whatever pushes and collections are under way: a page whose counter is 0 may be given up. All its blocks
      are on its own two lists; no client holds one, in whatever state its push is, none is waiting, and none
      is in the collecting owner's hands. */
  lemma UnusedPage(s0: State, size: map<nat, nat>, run: seq<Action>, p: nat)
    requires Init(s0, size) && Legal(s0, run)
    requires p in Final(s0, run).v.used && Final(s0, run).v.used[p] == 0
    ensures var s := Final(s0, run);
            && (forall b :: b in s.v.place && b.At? && b.page == p ==>
                 s.v.place[b] == In(FreeOf(p)) || s.v.place[b] == In(LocalOf(p)))
            && (forall t :: Pc(s, t).PIdle? || !Pc(s, t).b.At? || Pc(s, t).b.page != p)
            && (forall b :: OwnerHolds(s, b) ==> b.At? && b.page != p)
  {
    InitInv(s0, size);
    RunInv(s0, run);
    var s := Final(s0, run);
    forall b | b in s.v.place && b.At? && b.page == p
      ensures s.v.place[b] == In(FreeOf(p)) || s.v.place[b] == In(LocalOf(p))
    {
      assert b !in Busy(s.v.place, p);
      assert ListOk(s.v, s.v.place[b].list);
    }
  }

  /** A block comes home to its own page, and with the count that follows that page's counter loses one;
      no other page is touched. */
  lemma HomeToOwnPage(s0: State, size: map<nat, nat>, run: seq<Action>)
    requires Init(s0, size) && Legal(s0, run)
    requires Store(Final(s0, run)).Some? && Count(Store(Final(s0, run)).value).Some?
    ensures var s := Final(s0, run);
            var s' := Count(Store(s).value).value;
            var b := s.col.b;
            && b.At? && b.page in s.v.used && s'.v.used == s.v.used[b.page := s.v.used[b.page] - 1]
            && s'.v.used[b.page] == |Busy(s'.v.place, b.page)|
            && Listed(s'.v, LocalOf(b.page)) == [b] + Listed(s.v, LocalOf(b.page))
            && Chain(s'.v.next, Head(s'.v, LocalOf(b.page)), Listed(s'.v, LocalOf(b.page)))
  {
    InitInv(s0, size);
    RunInv(s0, run);
    var s := Final(s0, run);
    hide Inv, ListsOk, Busy;
    KeepStore(s);
    KeepCount(Store(s).value);
    var s' := Count(Store(s).value).value;
    HomeChain(s', s.col.b.page);
  }

  lemma HomeChain(s: State, p: nat)
    requires Inv(s) && s.col.CWalk? && p in s.v.used
    ensures s.v.used[p] == |Busy(s.v.place, p)| && Chain(s.v.next, Head(s.v, LocalOf(p)), Listed(s.v, LocalOf(p)))
  {
    assert ListOk(s.v, LocalOf(p));
  }
}
