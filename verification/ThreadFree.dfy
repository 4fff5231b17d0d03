/**
 The lock-free list of a segment, step by step: any number of clients push released blocks with a
 weak compare-and-swap, the owner takes the whole list and brings the blocks home one by one. Blocks
 that came home are handed out and released again, so a head that a client has read may be back.
 */
module ThreadFree {
  import opened RefTypes
  import opened BlockLists

  /** Where a client is in its release of a block: has it; has read the head; has linked to it. */
  datatype PushPc = PIdle | PHas(b: Blk) | PLoaded(b: Blk, info: Blk) | PLinked(b: Blk, info: Blk)

  /** Where the owner is: saw a nonempty list; has read the head; walks the chain it took; has read a
      block's successor; has linked the block to the local list; has stored it there. */
  datatype CollectPc = CIdle | CSeen | CLoaded(info: Blk) | CWalk | CRead(b: Blk) | CHooked(b: Blk) | CStored(b: Blk)

  /** Shared memory is `v`; the list of interest is that of segment `seg`, and the head of `Taken` is the
      owner's variable. The logs `pushed` and `moved` only observe. */
  datatype State = State(v: Blocks, seg: nat, push: map<Tid, PushPc>, col: CollectPc, pushed: seq<Blk>, moved: seq<Blk>)

  function Waiting(s: State): ListId {
    ThreadOf(s.seg)
  }

  function Pc(s: State, t: Tid): PushPc {
    if t in s.push then s.push[t] else PIdle
  }

  function SetPc(s: State, t: Tid, pc: PushPc): State {
    s.(push := s.push[t := pc])
  }

  function SetNext(v: Blocks, b: Blk, x: Blk): Blocks {
    v.(next := v.next[b := x])
  }

  /** A block in the hands of a releasing client or of the owner. */
  predicate Held(s: State, b: Blk) {
    (exists t :: t in s.push && !s.push[t].PIdle? && s.push[t].b == b) || OwnerHolds(s, b)
  }

  predicate OwnerHolds(s: State, b: Blk) {
    (s.col.CRead? || s.col.CHooked?) && s.col.b == b
  }

  // ----- the remote path of cxl_free

  ghost function Begin(s: State, t: Tid, b: Blk): Option<State> {
    if Pc(s, t).PIdle? && b in s.v.place && s.v.place[b].Live? && Fits(b, Waiting(s)) && !Held(s, b)
    then Some(SetPc(s, t, PHas(b))) else None
  }

  function Load(s: State, t: Tid): Option<State> {
    if Pc(s, t).PHas? then Some(SetPc(s, t, PLoaded(Pc(s, t).b, Head(s.v, Waiting(s))))) else None
  }

  function Link(s: State, t: Tid): Option<State> {
    if Pc(s, t).PLoaded?
    then Some(SetPc(s, t, PLinked(Pc(s, t).b, Pc(s, t).info)).(v := SetNext(s.v, Pc(s, t).b, Pc(s, t).info))) else None
  }

  /** The compare looks at the head alone, not at whether the list is still the one that was read. */
  function CasOk(s: State, t: Tid): Option<State> {
    if Pc(s, t).PLinked? && Head(s.v, Waiting(s)) == Pc(s, t).info
    then
      var b := Pc(s, t).b;
      Some(SetPc(s, t, PIdle).(
        v := s.v.(head := s.v.head[Waiting(s) := b], lists := s.v.lists[Waiting(s) := [b] + Listed(s.v, Waiting(s))],
                  place := s.v.place[b := In(Waiting(s))]),
        pushed := s.pushed + [b]))
    else None
  }

  function CasFail(s: State, t: Tid): Option<State> {
    if Pc(s, t).PLinked? then Some(SetPc(s, t, PHas(Pc(s, t).b))) else None
  }

  // ----- cxl_thread_free_collect

  function See(s: State): Option<State> {
    if s.col.CIdle? && Head(s.v, Waiting(s)) != Null then Some(s.(col := CSeen)) else None
  }

  function Read(s: State): Option<State> {
    if s.col.CSeen? then Some(s.(col := CLoaded(Head(s.v, Waiting(s))))) else None
  }

  function SwapOk(s: State): Option<State> {
    if s.col.CLoaded? && Head(s.v, Waiting(s)) == s.col.info
    then Some(s.(v := Moved(s.v, Waiting(s), Taken), col := CWalk)) else None
  }

  function SwapFail(s: State): Option<State> {
    if s.col.CLoaded? then Some(s.(col := CSeen)) else None
  }

  /** `next` of the block is read before it is rewritten. */
  function Successor(s: State): Option<State> {
    if !s.col.CWalk? then None
    else if Head(s.v, Taken) == Null then Some(s.(col := CIdle))
    else if |Listed(s.v, Taken)| > 0 && Head(s.v, Taken) in s.v.next
    then Some(s.(v := Popped(s.v, Taken), col := CRead(Head(s.v, Taken))))
    else None
  }

  function Hook(s: State): Option<State> {
    if s.col.CRead? && s.col.b.At?
    then Some(s.(v := SetNext(s.v, s.col.b, Head(s.v, LocalOf(s.col.b.page))), col := CHooked(s.col.b))) else None
  }

  function Store(s: State): Option<State> {
    if s.col.CHooked? && s.col.b.At?
    then
      var l := LocalOf(s.col.b.page);
      Some(s.(v := s.v.(head := s.v.head[l := s.col.b], lists := s.v.lists[l := [s.col.b] + Listed(s.v, l)],
                        place := s.v.place[s.col.b := In(l)]),
              col := CStored(s.col.b), moved := s.moved + [s.col.b]))
    else None
  }

  function Count(s: State): Option<State> {
    if s.col.CStored? && s.col.b.At? && s.col.b.page in s.v.used
    then Some(s.(v := s.v.(used := s.v.used[s.col.b.page := s.v.used[s.col.b.page] - 1]), col := CWalk)) else None
  }

  // ----- the owner's own allocations and releases, between collections

  function OwnerAlloc(s: State, p: nat): Option<State> {
    if s.col.CIdle? && p in s.v.used && |Listed(s.v, LocalOf(p))| > 0 && Head(s.v, LocalOf(p)) in s.v.next
    then Some(s.(v := Popped(s.v, LocalOf(p)).(used := s.v.used[p := s.v.used[p] + 1]))) else None
  }

  ghost function OwnerFree(s: State, b: Blk): Option<State> {
    if s.col.CIdle? && b in s.v.place && s.v.place[b].Live? && b.At? && b.page in s.v.used && !Held(s, b)
    then Some(s.(v := FreedHere(s.v, b))) else None
  }

  datatype Action =
    | DoBegin(t: Tid, b: Blk) | DoLoad(t: Tid) | DoLink(t: Tid) | DoCasOk(t: Tid) | DoCasFail(t: Tid)
    | DoSee | DoRead | DoSwapOk | DoSwapFail | DoSuccessor | DoHook | DoStore | DoCount
    | DoOwnerAlloc(p: nat) | DoOwnerFree(b: Blk)

  ghost function Next(s: State, a: Action): Option<State> {
    match a
    case DoBegin(t, b) => Begin(s, t, b)
    case DoLoad(t) => Load(s, t)
    case DoLink(t) => Link(s, t)
    case DoCasOk(t) => CasOk(s, t)
    case DoCasFail(t) => CasFail(s, t)
    case DoSee => See(s)
    case DoRead => Read(s)
    case DoSwapOk => SwapOk(s)
    case DoSwapFail => SwapFail(s)
    case DoSuccessor => Successor(s)
    case DoHook => Hook(s)
    case DoStore => Store(s)
    case DoCount => Count(s)
    case DoOwnerAlloc(p) => OwnerAlloc(s, p)
    case DoOwnerFree(b) => OwnerFree(s, b)
  }

  // ----- the invariant

  /** A page's counter lags by the block that is stored and not yet counted. */
  ghost predicate UsedLags(v: Blocks, lag: Blk) {
    forall p :: p in v.used ==> v.used[p] == |Busy(v.place, p)| + if lag.At? && lag.page == p then 1 else 0
  }

  function Lag(col: CollectPc): Blk {
    if col.CStored? then col.b else Null
  }

  ghost predicate PushersOk(s: State) {
    && (forall t :: t in s.push && !s.push[t].PIdle? ==>
          && s.push[t].b in s.v.place && s.v.place[s.push[t].b].Live? && Fits(s.push[t].b, Waiting(s))
          && !OwnerHolds(s, s.push[t].b))
    && (forall t, u :: t in s.push && u in s.push && t != u && !s.push[t].PIdle? && !s.push[u].PIdle? ==>
          s.push[t].b != s.push[u].b)
    && (forall t :: t in s.push && s.push[t].PLinked? ==>
         s.push[t].b in s.v.next && s.v.next[s.push[t].b] == s.push[t].info)
  }

  ghost predicate OwnerOk(s: State) {
    && (s.col.CIdle? || s.col.CSeen? || s.col.CLoaded? ==> Head(s.v, Taken) == Null)
    && (s.col.CRead? || s.col.CHooked? ==> s.col.b in s.v.place && s.v.place[s.col.b].Live? && s.col.b.At?)
    && (s.col.CHooked? ==> s.col.b in s.v.next && s.v.next[s.col.b] == Head(s.v, LocalOf(s.col.b.page)))
    && (s.col.CStored? ==> s.col.b.At?)
  }

  function InTransit(col: CollectPc): multiset<Blk> {
    if col.CRead? || col.CHooked? then multiset{col.b} else multiset{}
  }

  /** Every push is accounted for: still in the list, taken and not yet home, or home. */
  ghost predicate Logged(s: State) {
    multiset(s.pushed)
    == multiset(Listed(s.v, Waiting(s))) + multiset(Listed(s.v, Taken)) + InTransit(s.col) + multiset(s.moved)
  }

  ghost predicate Inv(s: State) {
    ListsOk(s.v) && UsedLags(s.v, Lag(s.col)) && PushersOk(s) && OwnerOk(s) && Logged(s)
  }
}
