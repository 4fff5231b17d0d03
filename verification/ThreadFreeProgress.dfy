/** Nobody waits for anybody on a segment's list: from every reachable state a releasing client, or the
    collecting owner, finishes by its own steps alone. */
module ThreadFreeProgress {
  import opened RefTypes
  import opened BlockLists
  import opened ThreadFree
  import opened ThreadFreeSteps

  lemma Then(s: State, a: Action, rest: seq<Action>)
    requires Next(s, a).Some? && Legal(Next(s, a).value, rest)
    ensures Legal(s, [a] + rest) && Final(s, [a] + rest) == Final(Next(s, a).value, rest)
  {
    hide Next;
    assert ([a] + rest)[1..] == rest;
  }

  // ----- a releasing client

  predicate ByClient(a: Action, t: Tid) {
    (a.DoLoad? || a.DoLink? || a.DoCasOk? || a.DoCasFail?) && a.t == t
  }

  /** The client's next step: a compare-and-swap that can succeed does. */
  function ClientStep(s: State, t: Tid): Action {
    match Pc(s, t)
    case PHas(_) => DoLoad(t)
    case PLoaded(_, _) => DoLink(t)
    case PLinked(_, info) => if Head(s.v, Waiting(s)) == info then DoCasOk(t) else DoCasFail(t)
    case PIdle => DoLoad(t)
  }

  function StepsLeft(s: State, t: Tid): nat {
    match Pc(s, t)
    case PIdle => 0
    case PHas(_) => 3
    case PLoaded(_, info) => if Head(s.v, Waiting(s)) == info then 2 else 5
    case PLinked(_, info) => if Head(s.v, Waiting(s)) == info then 1 else 4
  }

  /** Block b is on the list, in front of what was there; the others have not moved. */
  ghost predicate PushedBy(s: State, s': State, t: Tid, b: Blk) {
    && s'.pushed == s.pushed + [b] && s'.moved == s.moved && s'.col == s.col && s'.seg == s.seg
    && Listed(s'.v, Waiting(s)) == [b] + Listed(s.v, Waiting(s))
    && Pc(s', t) == PIdle && forall u :: u != t ==> Pc(s', u) == Pc(s, u)
  }

  lemma ClientCan(s: State, t: Tid)
    requires !Pc(s, t).PIdle?
    ensures Next(s, ClientStep(s, t)).Some?
    ensures var s' := Next(s, ClientStep(s, t)).value;
            if Pc(s, t).PLinked? && Head(s.v, Waiting(s)) == Pc(s, t).info then PushedBy(s, s', t, Pc(s, t).b)
            else
              && StepsLeft(s', t) < StepsLeft(s, t) && !Pc(s', t).PIdle? && Pc(s', t).b == Pc(s, t).b
              && s'.pushed == s.pushed && s'.moved == s.moved && s'.col == s.col && s'.seg == s.seg
              && Listed(s'.v, Waiting(s)) == Listed(s.v, Waiting(s)) && forall u :: u != t ==> Pc(s', u) == Pc(s, u)
  {
  }

  /** A client that has begun to release a block gets it onto the list within five steps of its own, whatever
      state the others are in. */
  lemma {:induction false} PushFinishes(s: State, t: Tid) returns (run: seq<Action>)
    requires !Pc(s, t).PIdle?
    ensures |run| <= StepsLeft(s, t) <= 5 && (forall a :: a in run ==> ByClient(a, t)) && Legal(s, run)
    ensures PushedBy(s, Final(s, run), t, Pc(s, t).b)
    decreases StepsLeft(s, t)
  {
    ClientCan(s, t);
    var a := ClientStep(s, t);
    var s' := Next(s, a).value;
    hide Next;
    var rest := [];
    if Pc(s, t).PLinked? && Head(s.v, Waiting(s)) == Pc(s, t).info {
      assert Legal(s', rest) && Final(s', rest) == s';
    } else {
      rest := PushFinishes(s', t);
    }
    Then(s, a, rest);
    run := [a] + rest;
  }

  /** A live block of the segment that nobody is releasing can be released. */
  lemma ReleaseFinishes(s: State, t: Tid, b: Blk) returns (run: seq<Action>)
    requires Pc(s, t).PIdle? && b in s.v.place && s.v.place[b].Live? && Fits(b, Waiting(s)) && !Held(s, b)
    ensures Legal(s, run) && PushedBy(s, Final(s, run), t, b)
  {
    run := PushFinishes(Next(s, DoBegin(t, b)).value, t);
    Then(s, DoBegin(t, b), run);
    run := [DoBegin(t, b)] + run;
  }

  // ----- the collecting owner

  predicate ByOwner(a: Action) {
    || a.DoSee? || a.DoRead? || a.DoSwapOk? || a.DoSwapFail? || a.DoSuccessor? || a.DoHook? || a.DoStore?
    || a.DoCount?
  }

  function OwnerStep(s: State): Action {
    match s.col
    case CIdle => DoSee
    case CSeen => DoRead
    case CLoaded(info) => if Head(s.v, Waiting(s)) == info then DoSwapOk else DoSwapFail
    case CWalk => DoSuccessor
    case CRead(_) => DoHook
    case CHooked(_) => DoStore
    case CStored(_) => DoCount
  }

  /** How many blocks are not home, and how far the owner is from bringing the next one home. */
  function Away(s: State): nat {
    |Listed(s.v, Waiting(s))| + |Listed(s.v, Taken)| + if s.col.CRead? || s.col.CHooked? then 1 else 0
  }

  function Phase(s: State): nat {
    var empty := Head(s.v, Waiting(s)) == Null;
    match s.col
    case CStored(_) => 12
    case CLoaded(info) => if Head(s.v, Waiting(s)) != info then 11 else if empty then 9 else 5
    case CSeen => if empty then 10 else 6
    case CWalk => if Head(s.v, Taken) == Null then 8 else 4
    case CIdle => 7
    case CRead(_) => 3
    case CHooked(_) => 2
  }

  /** Every block is of a page that is counted. */
  ghost predicate Counted(s: State) {
    && (forall b :: b in s.v.place ==> b.At? && b.page in s.v.used)
    && (s.col.CStored? ==> s.col.b.At? && s.col.b.page in s.v.used)
  }

  /** No step adds a block or a page, or removes one. */
  lemma KeepCounted(s: State, a: Action)
    requires Inv(s) && Counted(s) && Next(s, a).Some?
    ensures Counted(Next(s, a).value)
  {
    ListHead(s.v, Taken);
    if a.DoOwnerAlloc? {
      ListHead(s.v, LocalOf(a.p));
    }
    hide ListsOk, UsedLags, Logged, Busy, Listed;
  }

  lemma {:induction false} RunCounted(s: State, run: seq<Action>)
    requires Inv(s) && Counted(s) && Legal(s, run)
    ensures Inv(Final(s, run)) && Counted(Final(s, run))
    decreases |run|
  {
    hide Inv, Next, Counted;
    if run != [] {
      Keep(s, run[0]);
      KeepCounted(s, run[0]);
      RunCounted(Next(s, run[0]).value, run[1..]);
    }
  }

  lemma ListHead(v: Blocks, l: ListId)
    requires ListsOk(v)
    ensures Head(v, l) == Null <==> Listed(v, l) == []
    ensures Head(v, l) != Null ==>
              Head(v, l) == Listed(v, l)[0] && Head(v, l) in v.next && Head(v, l) in v.place && Head(v, l).At?
  {
    assert ListOk(v, l);
    ChainNull(v.next, Head(v, l), Listed(v, l));
    if Head(v, l) != Null {
      ChainPop(v.next, Head(v, l), Listed(v, l));
      assert Listed(v, l)[0] in Listed(v, l);
      assert Linked(v.next, Listed(v, l), 0);
    }
  }

  /** The step is possible, leaves the clients alone, and brings the end nearer. */
  ghost predicate Nearer(s: State) {
    Next(s, OwnerStep(s)).Some? &&
    var s' := Next(s, OwnerStep(s)).value;
    && s'.push == s.push && s'.pushed == s.pushed && s'.seg == s.seg
    && (Away(s') < Away(s) || (Away(s') == Away(s) && Phase(s') < Phase(s)))
  }

  lemma NearerBefore(s: State)
    requires ListsOk(s.v) && OwnerOk(s) && (s.col.CIdle? || s.col.CSeen? || s.col.CLoaded?)
    requires s.col.CIdle? ==> Head(s.v, Waiting(s)) != Null
    ensures Nearer(s)
  {
    ListHead(s.v, Waiting(s));
    ListHead(s.v, Taken);
    hide ListsOk;
  }

  lemma NearerWalk(s: State)
    requires ListsOk(s.v) && (s.col.CWalk? || s.col.CRead?)
    requires s.col.CRead? ==> s.col.b.At?
    ensures Nearer(s)
  {
    ListHead(s.v, Taken);
    hide ListsOk;
  }

  lemma NearerHome(s: State)
    requires (s.col.CHooked? && s.col.b.At?) || (s.col.CStored? && s.col.b.At? && s.col.b.page in s.v.used)
    ensures Nearer(s)
  {
  }

  lemma OwnerCan(s: State)
    requires Inv(s) && Counted(s) && !(s.col.CIdle? && Head(s.v, Waiting(s)) == Null)
    ensures Nearer(s)
  {
    hide Nearer, ListsOk, UsedLags, PushersOk, Logged;
    match s.col
    case CIdle => NearerBefore(s);
    case CSeen => NearerBefore(s);
    case CLoaded(_) => NearerBefore(s);
    case CWalk => NearerWalk(s);
    case CRead(_) => NearerWalk(s);
    case CHooked(_) => NearerHome(s);
    case CStored(_) => NearerHome(s);
  }

  lemma {:induction false} Collecting(s: State) returns (run: seq<Action>)
    requires Inv(s) && Counted(s)
    ensures (forall a :: a in run ==> ByOwner(a)) && Legal(s, run)
    ensures var s' := Final(s, run);
            && s'.col.CIdle? && Listed(s'.v, Waiting(s)) == [] && multiset(s'.moved) == multiset(s.pushed)
            && s'.push == s.push && s'.pushed == s.pushed
    decreases Away(s), Phase(s)
  {
    if s.col.CIdle? && Head(s.v, Waiting(s)) == Null {
      ListHead(s.v, Waiting(s));
      ListHead(s.v, Taken);
      run := [];
    } else {
      OwnerCan(s);
      Keep(s, OwnerStep(s));
      KeepCounted(s, OwnerStep(s));
      hide Inv, Next, Counted, Away, Phase;
      run := Collecting(Next(s, OwnerStep(s)).value);
      Then(s, OwnerStep(s), run);
      run := [OwnerStep(s)] + run;
    }
  }

  /** In every reachable state the owner, at whatever point of a collection, empties the list by its own steps, in
      whatever state the clients are: then everything that was pushed has come home. */
  lemma CollectFinishes(s0: State, size: map<nat, nat>, run: seq<Action>) returns (more: seq<Action>)
    requires Init(s0, size) && Legal(s0, run)
    ensures (forall a :: a in more ==> ByOwner(a)) && Legal(Final(s0, run), more)
    ensures var s := Final(s0, run);
            var s' := Final(s, more);
            && s'.col.CIdle? && Listed(s'.v, Waiting(s)) == [] && multiset(s'.moved) == multiset(s.pushed)
            && s'.push == s.push && s'.pushed == s.pushed
  {
    InitInv(s0, size);
    assert Counted(s0);
    hide Inv, Init;
    RunCounted(s0, run);
    more := Collecting(Final(s0, run));
  }
}
