/** Values shared by the reference-counting protocol, its recovery and the cascade. */
module RefTypes {

  datatype Option<T> = None | Some(value: T)

  /** Client ids start at 1; objects and slots are offsets into the shared segment, 0 is null. */
  type Tid = nat
  type Obj = nat
  type Slot = nat

  const MAX_THREAD := 1024
  const REDO_CACHELINE_CNT := 8
  const COUNT_LIMIT := 0x1_0000
  const ERA_LIMIT := 0x1_0000_0000

  /** The three fields packed in `ref_info`: last client, count, era of that client's last update. */
  datatype Word = Word(cid: nat, cnt: nat, era: nat)

  const ZeroWord := Word(0, 0, 0)

  datatype Func = NoFunc | LinkRef | UnlinkRef

  /** One redo cache line: enough to finish the slot write of a link or an unlink. */
  datatype RedoLog = RedoLog(func: Func, savedCnt: nat, era: nat, ref: Slot, refed: Obj)

  const ClearedLog := RedoLog(NoFunc, 0, 0, 0, 0)

  /** The record the monitor's scan picks: the first one with the greatest era. */
  function Newest(logs: seq<RedoLog>): (r: RedoLog)
    requires |logs| > 0
    ensures r in logs
    ensures forall l :: l in logs ==> l.era <= r.era
  {
    var last := logs[|logs| - 1];
    if |logs| == 1 then last
    else
      var r := Newest(logs[..|logs| - 1]);
      assert forall l :: l in logs ==> l in logs[..|logs| - 1] || l == last;
      if last.era > r.era then last else r
  }

  /** What the monitor stores in the logged slot when it replays the record. */
  function Target(l: RedoLog): Obj {
    if l.func == LinkRef then l.refed else 0
  }

  /** The word a counted update publishes. */
  function Stamp(i: Tid, func: Func, w: Word, e: nat): Word
    requires func != LinkRef ==> w.cnt > 0
  {
    Word(i, if func == LinkRef then w.cnt + 1 else w.cnt - 1, e)
  }

  type EraMatrix = map<(Tid, Tid), nat>

  /** Cell (j, i): the greatest era of client i that client j has seen; unused rows read 0. */
  function EraAt(m: EraMatrix, j: Tid, i: Tid): nat {
    if (j, i) in m then m[(j, i)] else 0
  }

  /** A client records the era it saw before it may overwrite the word. */
  function Observe(m: EraMatrix, j: Tid, w: Word): EraMatrix {
    if w.era > EraAt(m, j, w.cid) then m[(j, w.cid) := w.era] else m
  }

  function BumpEra(m: EraMatrix, i: Tid): EraMatrix {
    m[(i, i) := EraAt(m, i, i) + 1]
  }

  /** The slots that hold o. */
  ghost function Holders(slots: map<Slot, Obj>, o: Obj): set<Slot> {
    set x | x in slots && slots[x] == o
  }
}
