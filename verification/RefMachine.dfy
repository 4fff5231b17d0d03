/**
 The counted-reference protocol as a transition system: one step per shared access of
 `link_reference`, `unlink_reference`, object allocation and `redo_ref_cnt`, for any number of
 clients and any interleaving. A client may stop between any two steps.
 */
module RefMachine {
  import opened RefTypes

  /** Program counter of a client. Finished and Aborted: the monitor completed, or gave up, the
      operation the client was in. */
  datatype Pc =
    | Idle | Start | Loaded | Recorded | Logged | Committed | Written | FreeDue
    | AllocLinked | AllocBumped
    | Finished | Aborted

  /** Phase of the monitor with respect to one client; Up means the client is running. In Sweep the
      monitor unlinks what the client held, in the client's name: `again` says that the client's current
      era is already on a word or was, `twice` that it was so when the sweep began. */
  datatype Mon =
    | Up | Down
    | CidRead(cid: nat)
    | Scan(row: nat, max: nat)
    | Grow(row: nat, max: nat)
    | Decided(need: bool)
    | Recovered
    | Sweep(again: bool, twice: bool)

  datatype Thread = Thread(pc: Pc, func: Func, dst: Slot, src: Slot, obj: Obj,
                           reg: Word, regVer: nat, logs: seq<RedoLog>, mon: Mon)

  /** Shared memory is `words`, `slots`, `era` and the clients' logs. The fields `eff` (slot values
      as of the last committed counted update), `ver` (number of writes to each word), `pool`
      (objects that may be allocated), `pub` (stamps written to words) and `left` (objects without count
      that are left to the search for leaked blocks) only observe. */
  datatype State = State(words: map<Obj, Word>, slots: map<Slot, Obj>, era: EraMatrix,
                         th: map<Tid, Thread>,
                         eff: map<Slot, Obj>, ver: map<Obj, nat>, pool: set<Obj>, pub: set<(Tid, nat)>,
                         left: set<Obj>)

  /** Before its CAS. */
  predicate Trying(t: Thread) {
    t.pc.Start? || t.pc.Loaded? || t.pc.Recorded? || t.pc.Logged?
  }

  predicate Allocating(t: Thread) {
    t.pc.AllocLinked? || t.pc.AllocBumped?
  }

  /** Past its CAS, with the logged operation still open: what redo has to recognise. */
  predicate Done(t: Thread) {
    t.pc.Committed? || t.pc.Written?
  }

  /** Holds its destination slot. */
  predicate Active(t: Thread) {
    Trying(t) || Done(t) || Allocating(t)
  }

  /** Its own operation put its current era on a word. */
  predicate Stamped(t: Thread) {
    Done(t) || t.pc.Finished?
  }

  /** Its current era is on a word or was. */
  predicate Published(t: Thread) {
    Stamped(t) || (t.mon.Sweep? && t.mon.again)
  }

  predicate UsesSrc(t: Thread) {
    Trying(t) && t.func.LinkRef?
  }

  /** The client that has to release its object, or is about to stamp it. */
  predicate Responsible(t: Thread) {
    || (Stamped(t) && !t.func.LinkRef? && t.reg.cnt == 1)
    || t.pc.FreeDue? || Allocating(t)
  }

  /** The value a finished operation leaves in its slot. */
  function Goal(t: Thread): Obj {
    if t.func.LinkRef? then t.obj else 0
  }

  function Own(s: State, i: Tid): nat {
    EraAt(s.era, i, i)
  }

  function Rec(t: Thread): RedoLog
    requires |t.logs| > 0
  {
    Newest(t.logs)
  }

  /** The slot has no operator: the caller discipline of one operator per slot. */
  predicate Available(s: State, r: Slot) {
    forall j :: j in s.th ==> !(Active(s.th[j]) && s.th[j].dst == r)
  }

  predicate NotLinkedFrom(s: State, r: Slot) {
    forall j :: j in s.th ==> !(UsesSrc(s.th[j]) && s.th[j].src == r)
  }

  predicate Running(s: State, i: Tid) {
    i in s.th && s.th[i].mon.Up?
  }

  /** The client itself, or the monitor in its name. */
  predicate Acting(s: State, i: Tid) {
    i in s.th && (s.th[i].mon.Up? || s.th[i].mon.Sweep?)
  }

  function SetThread(s: State, i: Tid, t: Thread): State {
    s.(th := s.th[i := t])
  }

  // ----- link_reference and unlink_reference

  predicate CanBeginLink(s: State, i: Tid, dst: Slot, src: Slot) {
    && Running(s, i) && s.th[i].pc.Idle?
    && dst != src && dst in s.slots && src in s.slots
    && s.slots[dst] == 0 && s.slots[src] in s.words
    && Available(s, dst) && Available(s, src) && NotLinkedFrom(s, dst)
  }

  function DoBeginLink(s: State, i: Tid, dst: Slot, src: Slot): State
    requires CanBeginLink(s, i, dst, src)
  {
    SetThread(s, i, s.th[i].(pc := Start, func := LinkRef, dst := dst, src := src, obj := s.slots[src]))
  }

  predicate CanBeginUnlink(s: State, i: Tid, dst: Slot) {
    && Acting(s, i) && s.th[i].pc.Idle?
    && dst in s.slots && s.slots[dst] in s.words
    && Available(s, dst) && NotLinkedFrom(s, dst)
  }

  function DoBeginUnlink(s: State, i: Tid, dst: Slot): State
    requires CanBeginUnlink(s, i, dst)
  {
    SetThread(s, i, s.th[i].(pc := Start, func := UnlinkRef, dst := dst, src := dst, obj := s.slots[dst]))
  }

  predicate CanLoad(s: State, i: Tid) {
    Acting(s, i) && s.th[i].pc.Start? && s.th[i].obj in s.words && s.th[i].obj in s.ver
  }

  function DoLoad(s: State, i: Tid): State
    requires CanLoad(s, i)
  {
    var t := s.th[i];
    SetThread(s, i, t.(pc := Loaded, reg := s.words[t.obj], regVer := s.ver[t.obj]))
  }

  predicate CanRecord(s: State, i: Tid) {
    Acting(s, i) && s.th[i].pc.Loaded?
  }

  function DoRecord(s: State, i: Tid): State
    requires CanRecord(s, i)
  {
    SetThread(s, i, s.th[i].(pc := Recorded)).(era := Observe(s.era, i, s.th[i].reg))
  }

  predicate CanWriteLog(s: State, i: Tid) {
    Running(s, i) && s.th[i].pc.Recorded? && |s.th[i].logs| == REDO_CACHELINE_CNT
  }

  function DoWriteLog(s: State, i: Tid): State
    requires CanWriteLog(s, i)
  {
    var t := s.th[i];
    var rec := RedoLog(t.func, t.reg.cnt, Own(s, i), t.dst, t.obj);
    SetThread(s, i, t.(pc := Logged, logs := t.logs[Own(s, i) % REDO_CACHELINE_CNT := rec]))
  }

  /** The monitor goes the same way, but writes no record. */
  predicate CanSkip(s: State, i: Tid) {
    i in s.th && s.th[i].mon.Sweep? && s.th[i].pc.Recorded?
  }

  function DoSkip(s: State, i: Tid): State
    requires CanSkip(s, i)
  {
    SetThread(s, i, s.th[i].(pc := Logged))
  }

  /** The compare succeeds only on the loaded word; the era and the count must fit their fields. */
  predicate CanCasOk(s: State, i: Tid) {
    && Acting(s, i) && s.th[i].pc.Logged?
    && s.th[i].obj in s.words && s.th[i].obj in s.ver
    && s.words[s.th[i].obj] == s.th[i].reg
    && Own(s, i) < ERA_LIMIT
    && (if s.th[i].func.LinkRef? then s.th[i].reg.cnt + 1 < COUNT_LIMIT else s.th[i].reg.cnt > 0)
  }

  function DoCasOk(s: State, i: Tid): State
    requires CanCasOk(s, i)
  {
    var t := s.th[i];
    SetThread(s, i, t.(pc := Committed))
      .(words := s.words[t.obj := Stamp(i, t.func, t.reg, Own(s, i))],
        ver := s.ver[t.obj := s.ver[t.obj] + 1],
        eff := s.eff[t.dst := Goal(t)],
        pub := s.pub + {(i, Own(s, i))})
  }

  /** A weak compare-and-swap may fail for no reason. */
  predicate CanCasFail(s: State, i: Tid) {
    Acting(s, i) && s.th[i].pc.Logged?
  }

  function DoCasFail(s: State, i: Tid): State
    requires CanCasFail(s, i)
  {
    SetThread(s, i, s.th[i].(pc := Start))
  }

  predicate CanWriteSlot(s: State, i: Tid) {
    Acting(s, i) && s.th[i].pc.Committed?
  }

  function DoWriteSlot(s: State, i: Tid): State
    requires CanWriteSlot(s, i)
  {
    var t := s.th[i];
    SetThread(s, i, t.(pc := Written)).(slots := s.slots[t.dst := Goal(t)])
  }

  /** The new era is nowhere yet. */
  function AfterBump(m: Mon): Mon {
    if m.Sweep? then Sweep(false, m.twice) else m
  }

  predicate CanBump(s: State, i: Tid) {
    Acting(s, i) && s.th[i].pc.Written?
  }

  function DoBump(s: State, i: Tid): State
    requires CanBump(s, i)
  {
    var t := s.th[i];
    var last := !t.func.LinkRef? && t.reg.cnt == 1;
    SetThread(s, i, t.(pc := if last then FreeDue else Idle, mon := AfterBump(t.mon))).(era := BumpEra(s.era, i))
  }

  // ----- release and allocation of an object

  predicate CanFree(s: State, i: Tid) {
    Acting(s, i) && s.th[i].pc.FreeDue? && s.th[i].obj in s.words && s.th[i].obj in s.ver
  }

  function DoFree(s: State, i: Tid): State
    requires CanFree(s, i)
  {
    var t := s.th[i];
    SetThread(s, i, t.(pc := Idle))
      .(words := s.words[t.obj := ZeroWord], ver := s.ver[t.obj := s.ver[t.obj] + 1],
        pool := s.pool + {t.obj})
  }

  predicate CanBeginAlloc(s: State, i: Tid, dst: Slot, o: Obj) {
    && Running(s, i) && s.th[i].pc.Idle?
    && dst in s.slots && s.slots[dst] == 0 && o in s.pool && o in s.words
    && Available(s, dst) && NotLinkedFrom(s, dst)
  }

  function DoBeginAlloc(s: State, i: Tid, dst: Slot, o: Obj): State
    requires CanBeginAlloc(s, i, dst, o)
  {
    SetThread(s, i, s.th[i].(pc := AllocLinked, func := NoFunc, dst := dst, src := dst, obj := o))
      .(slots := s.slots[dst := o], pool := s.pool - {o})
  }

  predicate CanAllocBump(s: State, i: Tid) {
    Running(s, i) && s.th[i].pc.AllocLinked? && Own(s, i) < ERA_LIMIT
  }

  function DoAllocBump(s: State, i: Tid): State
    requires CanAllocBump(s, i)
  {
    SetThread(s, i, s.th[i].(pc := AllocBumped)).(era := BumpEra(s.era, i))
  }

  predicate CanAllocStamp(s: State, i: Tid) {
    && Running(s, i) && s.th[i].pc.AllocBumped? && s.th[i].obj in s.words && s.th[i].obj in s.ver
    && 0 < Own(s, i) <= ERA_LIMIT
  }

  function DoAllocStamp(s: State, i: Tid): State
    requires CanAllocStamp(s, i)
  {
    var t := s.th[i];
    SetThread(s, i, t.(pc := Idle))
      .(words := s.words[t.obj := Word(i, 1, Own(s, i) - 1)],
        ver := s.ver[t.obj := s.ver[t.obj] + 1],
        eff := s.eff[t.dst := t.obj],
        pub := s.pub + {(i, Own(s, i) - 1)})
  }

  /** The slow allocation path wipes the redo lines. */
  predicate CanClearLogs(s: State, i: Tid) {
    Running(s, i) && s.th[i].pc.Idle?
  }

  function DoClearLogs(s: State, i: Tid): State
    requires CanClearLogs(s, i)
  {
    SetThread(s, i, s.th[i].(logs := seq(REDO_CACHELINE_CNT, _ => ClearedLog)))
  }

  // ----- crash, and redo_ref_cnt on behalf of the crashed client

  predicate CanCrash(s: State, i: Tid) {
    Running(s, i)
  }

  function DoCrash(s: State, i: Tid): State
    requires CanCrash(s, i)
  {
    SetThread(s, i, s.th[i].(mon := Down))
  }

  predicate HasLogs(s: State, i: Tid) {
    i in s.th && |s.th[i].logs| > 0
  }

  /** The newest record belongs to the era the client was in when it stopped. */
  predicate FreshRec(s: State, i: Tid)
    requires HasLogs(s, i)
  {
    Rec(s.th[i]).era == Own(s, i)
  }

  predicate CanReadCid(s: State, i: Tid) {
    && HasLogs(s, i) && s.th[i].mon.Down?
    && (!Rec(s.th[i]).func.NoFunc? ==> Rec(s.th[i]).refed in s.words)
  }

  /** First load of the word: the client id. Without a record there is nothing to replay. */
  function DoReadCid(s: State, i: Tid): State
    requires CanReadCid(s, i)
  {
    var rec := Rec(s.th[i]);
    SetThread(s, i, s.th[i].(mon := if rec.func.NoFunc? then Decided(false)
                                    else CidRead(s.words[rec.refed].cid)))
  }

  /** The client id read first is the crashed client's, the era read second equals the logged era,
      but the second word belongs to somebody else. */
  predicate Torn(s: State, i: Tid)
    requires HasLogs(s, i) && s.th[i].mon.CidRead? && Rec(s.th[i]).refed in s.words
  {
    var w := s.words[Rec(s.th[i]).refed];
    s.th[i].mon.cid == i && w.era == Rec(s.th[i]).era && w.cid != i
  }

  predicate CanReadEra(s: State, i: Tid) {
    HasLogs(s, i) && s.th[i].mon.CidRead? && Rec(s.th[i]).refed in s.words
  }

  /** Second load of the word: the era. */
  function DoReadEra(s: State, i: Tid): State
    requires CanReadEra(s, i)
  {
    var rec := Rec(s.th[i]);
    var same := s.th[i].mon.cid == i && s.words[rec.refed].era == rec.era;
    SetThread(s, i, s.th[i].(mon := if same then Decided(true) else Scan(0, 0)))
  }

  predicate CanCompare(s: State, i: Tid) {
    HasLogs(s, i) && s.th[i].mon.Scan?
  }

  /** One comparison of the column scan, or its end. */
  function DoCompare(s: State, i: Tid): State
    requires CanCompare(s, i)
  {
    var Scan(j, max) := s.th[i].mon;
    SetThread(s, i, s.th[i].(mon :=
      if j == MAX_THREAD then Decided(Rec(s.th[i]).era <= max)
      else if j != i && EraAt(s.era, j, i) > max then Grow(j, max)
      else Scan(j + 1, max)))
  }

  predicate CanGrow(s: State, i: Tid) {
    HasLogs(s, i) && s.th[i].mon.Grow?
  }

  /** The scan reads the cell again to take it as the new maximum. */
  function DoGrow(s: State, i: Tid): State
    requires CanGrow(s, i)
  {
    var j := s.th[i].mon.row;
    SetThread(s, i, s.th[i].(mon := Scan(j + 1, EraAt(s.era, j, i))))
  }

  /** Replaying the record would change the slot. */
  predicate ReplayChanges(s: State, i: Tid)
    requires HasLogs(s, i) && s.th[i].mon.Decided?
  {
    var rec := Rec(s.th[i]);
    && !rec.func.NoFunc? && s.th[i].mon.need
    && (rec.ref !in s.slots || s.slots[rec.ref] != Target(rec))
  }

  predicate CanReplay(s: State, i: Tid) {
    HasLogs(s, i) && s.th[i].mon.Decided?
  }

  function DoReplay(s: State, i: Tid): State
    requires CanReplay(s, i)
  {
    var t := s.th[i];
    var rec := Rec(t);
    var pc := if Done(t) then Finished else if Trying(t) then Aborted else t.pc;
    SetThread(s, i, t.(pc := pc, mon := Recovered))
      .(slots := if t.mon.need && !rec.func.NoFunc? then s.slots[rec.ref := Target(rec)] else s.slots)
  }

  // ----- recovery_unlink_reference: the monitor releases what the client held

  predicate CanStartSweep(s: State, i: Tid) {
    i in s.th && s.th[i].mon.Recovered?
  }

  /** The monitor turns from the client's record to its references. A root slot whose object was never
      stamped is given up. */
  function DoStartSweep(s: State, i: Tid): State
    requires CanStartSweep(s, i)
  {
    var t := s.th[i];
    SetThread(s, i, t.(pc := Idle, mon := Sweep(t.pc.Finished?, t.pc.Finished?)))
      .(slots := if Allocating(t) then s.slots[t.dst := 0] else s.slots,
        left := if Responsible(t) then s.left + {t.obj} else s.left)
  }

  // ----- runs

  datatype Action =
    | BeginLink(i: Tid, dst: Slot, src: Slot)
    | BeginUnlink(i: Tid, dst: Slot)
    | Load(i: Tid)
    | Record(i: Tid)
    | WriteLog(i: Tid)
    | CasOk(i: Tid)
    | CasFail(i: Tid)
    | WriteSlot(i: Tid)
    | Bump(i: Tid)
    | Free(i: Tid)
    | BeginAlloc(i: Tid, dst: Slot, o: Obj)
    | AllocBump(i: Tid)
    | AllocStamp(i: Tid)
    | ClearLogs(i: Tid)
    | Crash(i: Tid)
    | Redo(i: Tid)
    | StartSweep(i: Tid)
    | Skip(i: Tid)

  predicate CanRedo(s: State, i: Tid) {
    i in s.th &&
    match s.th[i].mon
    case Down => CanReadCid(s, i)
    case CidRead(_) => CanReadEra(s, i)
    case Scan(_, _) => CanCompare(s, i)
    case Grow(_, _) => CanGrow(s, i)
    case Decided(_) => CanReplay(s, i)
    case _ => false
  }

  /** The monitor's next access on behalf of client i. */
  function DoRedo(s: State, i: Tid): State
    requires CanRedo(s, i)
  {
    match s.th[i].mon
    case Down => DoReadCid(s, i)
    case CidRead(_) => DoReadEra(s, i)
    case Scan(_, _) => DoCompare(s, i)
    case Grow(_, _) => DoGrow(s, i)
    case Decided(_) => DoReplay(s, i)
  }

  predicate Can(s: State, a: Action) {
    match a
    case BeginLink(i, dst, src) => CanBeginLink(s, i, dst, src)
    case BeginUnlink(i, dst) => CanBeginUnlink(s, i, dst)
    case Load(i) => CanLoad(s, i)
    case Record(i) => CanRecord(s, i)
    case WriteLog(i) => CanWriteLog(s, i)
    case CasOk(i) => CanCasOk(s, i)
    case CasFail(i) => CanCasFail(s, i)
    case WriteSlot(i) => CanWriteSlot(s, i)
    case Bump(i) => CanBump(s, i)
    case Free(i) => CanFree(s, i)
    case BeginAlloc(i, dst, o) => CanBeginAlloc(s, i, dst, o)
    case AllocBump(i) => CanAllocBump(s, i)
    case AllocStamp(i) => CanAllocStamp(s, i)
    case ClearLogs(i) => CanClearLogs(s, i)
    case Crash(i) => CanCrash(s, i)
    case Redo(i) => CanRedo(s, i)
    case StartSweep(i) => CanStartSweep(s, i)
    case Skip(i) => CanSkip(s, i)
  }

  function Do(s: State, a: Action): State
    requires Can(s, a)
  {
    match a
    case BeginLink(i, dst, src) => DoBeginLink(s, i, dst, src)
    case BeginUnlink(i, dst) => DoBeginUnlink(s, i, dst)
    case Load(i) => DoLoad(s, i)
    case Record(i) => DoRecord(s, i)
    case WriteLog(i) => DoWriteLog(s, i)
    case CasOk(i) => DoCasOk(s, i)
    case CasFail(i) => DoCasFail(s, i)
    case WriteSlot(i) => DoWriteSlot(s, i)
    case Bump(i) => DoBump(s, i)
    case Free(i) => DoFree(s, i)
    case BeginAlloc(i, dst, o) => DoBeginAlloc(s, i, dst, o)
    case AllocBump(i) => DoAllocBump(s, i)
    case AllocStamp(i) => DoAllocStamp(s, i)
    case ClearLogs(i) => DoClearLogs(s, i)
    case Crash(i) => DoCrash(s, i)
    case Redo(i) => DoRedo(s, i)
    case StartSweep(i) => DoStartSweep(s, i)
    case Skip(i) => DoSkip(s, i)
  }

  /** Two hypotheses the protocol needs and does not check: for a client whose CAS failed or did not
      happen the monitor's two loads are not torn, and a record older than the client's era is replayed
      only onto an unchanged slot. */
  predicate Calm(s: State, i: Tid)
    requires CanRedo(s, i)
  {
    && (s.th[i].mon.CidRead? && FreshRec(s, i) && !Done(s.th[i]) ==> !Torn(s, i))
    && (s.th[i].mon.Decided? ==> FreshRec(s, i) || !ReplayChanges(s, i))
  }

  /** Every client ready to run, no object allocated, all slots empty. */
  ghost predicate Init(s: State) {
    && (forall i :: i in s.th ==>
          0 < i < MAX_THREAD && s.th[i].pc == Idle && s.th[i].mon == Up
          && s.th[i].logs == seq(REDO_CACHELINE_CNT, _ => ClearedLog))
    && 0 !in s.words && s.words.Keys == s.ver.Keys && s.slots.Keys == s.eff.Keys
    && s.pool == s.words.Keys && s.pub == {} && s.left == {}
    && (forall o :: o in s.words ==> s.words[o] == ZeroWord)
    && (forall r :: r in s.slots ==> s.slots[r] == 0 && s.eff[r] == 0)
    && (forall j, i :: EraAt(s.era, j, i) == if j == i && i in s.th then 1 else 0)
  }
}
