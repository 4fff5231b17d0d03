/** The 64-bit `ref_info` word: client id in the top 16 bits, count in the next 16, era in the low 32. */
module RefInfo {
  import opened RefTypes
  import opened RefMachine
  import opened RefInvariant
  import opened RefTheorems

  const TWO16: nat := 0x1_0000
  const TWO32: nat := 0x1_0000_0000
  const TWO48: nat := 0x1_0000_0000_0000
  const TWO64: nat := 0x1_0000_0000_0000_0000

  /** Sum of shifted fields, modulo 2^64. The count is the caller's `cnt + 1` or `cnt - 1`. */
  function Pack(lcid: nat, cnt: int, lenum: nat): nat {
    (lcid * TWO48 + cnt * TWO32 + lenum) % TWO64
  }

  function GetCnt(info: nat): nat {
    (info / TWO32) % TWO16
  }

  function GetLenum(info: nat): nat {
    info % TWO32
  }

  function GetLcid(info: nat): nat {
    (info / TWO48) % TWO16
  }

  predicate Reads(info: nat, lcid: int, cnt: int, lenum: nat) {
    GetLcid(info) == lcid && GetCnt(info) == cnt && GetLenum(info) == lenum
  }

  lemma Split(hi: nat, mid: nat, lo: nat)
    requires mid < TWO16 && lo < TWO32
    ensures (hi * TWO48 + mid * TWO32 + lo) % TWO32 == lo
    ensures (hi * TWO48 + mid * TWO32 + lo) / TWO32 == hi * TWO16 + mid
    ensures (hi * TWO48 + mid * TWO32 + lo) / TWO48 == hi
  {
  }

  /** The fields come back for every client id, count and era that fit. */
  lemma PackReads(lcid: nat, cnt: nat, lenum: nat)
    requires lcid < TWO16 && cnt < TWO16 && lenum < TWO32
    ensures Reads(Pack(lcid, cnt, lenum), lcid, cnt, lenum)
    ensures Pack(lcid, cnt, lenum) == lcid * 0x1_0000_0000_0000 + cnt * 0x1_0000_0000 + lenum
  {
    Split(lcid, cnt, lenum);
  }

  /** A count past its field carries into the client id. */
  lemma PackCarry(lcid: nat, lenum: nat)
    requires lcid < TWO16 && lenum < TWO32
    ensures Reads(Pack(lcid, TWO16, lenum), (lcid + 1) % TWO16, 0, lenum)
  {
    if lcid + 1 < TWO16 {
      Split(lcid + 1, 0, lenum);
    } else {
      Split(0, 0, lenum);
      assert lcid * TWO48 + TWO16 * TWO32 + lenum == TWO64 + lenum;
    }
  }

  /** The count 0 - 1 borrows from the client id. */
  lemma PackBorrow(lcid: nat, lenum: nat)
    requires lcid < TWO16 && lenum < TWO32
    ensures Reads(Pack(lcid, -1, lenum), (lcid - 1) % TWO16, TWO16 - 1, lenum)
  {
    if lcid > 0 {
      Split(lcid - 1, TWO16 - 1, lenum);
      assert lcid * TWO48 - TWO32 + lenum == (lcid - 1) * TWO48 + (TWO16 - 1) * TWO32 + lenum;
    } else {
      Split(TWO16 - 1, TWO16 - 1, lenum);
      assert TWO64 - TWO32 + lenum == (TWO16 - 1) * TWO48 + (TWO16 - 1) * TWO32 + lenum;
    }
  }

  /** Incrementing or decrementing a 16-bit count leaves the fields intact exactly when the new count
      is again a 16-bit count. */
  lemma UpdateExact(lcid: nat, cnt: nat, up: bool, lenum: nat)
    requires lcid < TWO16 && cnt < TWO16 && lenum < TWO32
    ensures var c := if up then cnt + 1 else cnt - 1;
            Reads(Pack(lcid, c, lenum), lcid, c, lenum) <==> 0 <= c < TWO16
  {
    if up {
      if cnt + 1 < TWO16 {
        PackReads(lcid, cnt + 1, lenum);
      } else {
        PackCarry(lcid, lenum);
      }
    } else if cnt > 0 {
      PackReads(lcid, cnt - 1, lenum);
    } else {
      PackBorrow(lcid, lenum);
    }
  }

  // ----- the packed word refines the protocol's word

  predicate Fits(w: Word) {
    w.cid < TWO16 && w.cnt < TWO16 && w.era < TWO32
  }

  function PackWord(w: Word): nat {
    Pack(w.cid, w.cnt, w.era)
  }

  /** Comparing packed words is comparing words. */
  lemma SameWord(v: Word, w: Word)
    requires Fits(v) && Fits(w)
    ensures PackWord(v) == PackWord(w) <==> v == w
  {
    PackReads(v.cid, v.cnt, v.era);
    PackReads(w.cid, w.cnt, w.era);
  }

  /** The new word the code packs from the loaded one is the protocol's stamp. */
  lemma PackedStamp(i: Tid, func: Func, w: Word, e: nat)
    requires Fits(w) && i < TWO16 && e < TWO32 && !func.NoFunc?
    requires if func.LinkRef? then w.cnt + 1 < TWO16 else w.cnt > 0
    ensures var c := GetCnt(PackWord(w));
            Pack(i, if func.LinkRef? then c + 1 else c - 1, e) == PackWord(Stamp(i, func, w, e))
    ensures Fits(Stamp(i, func, w, e))
  {
    PackReads(w.cid, w.cnt, w.era);
  }

  /** What the machine asks of a CAS is exactly that the new word, as the code packs it, reads back as its fields. */
  lemma GuardExact(s: State, i: Tid)
    requires CanCasFail(s, i) && i < TWO16 && !s.th[i].func.NoFunc? && Fits(s.th[i].reg)
    requires s.th[i].obj in s.words && s.th[i].obj in s.ver && s.words[s.th[i].obj] == s.th[i].reg
    ensures var t := s.th[i];
            var c := if t.func.LinkRef? then t.reg.cnt + 1 else t.reg.cnt - 1;
            CanCasOk(s, i) <==> Reads(Pack(i, c, Own(s, i)), i, c, Own(s, i))
  {
    var t, e := s.th[i], Own(s, i);
    hide Own, Pack;
    if e < TWO32 {
      UpdateExact(i, t.reg.cnt, t.func.LinkRef?, e);
    }
  }

  ghost predicate AllFit(s: State) {
    forall o :: o in s.words ==> Fits(s.words[o])
  }

  lemma KeepFit(s: State, a: Action)
    requires Shape(s) && AllFit(s) && Can(s, a)
    ensures AllFit(Do(s, a))
  {
    if a.CasOk? {
      FitStep(s, DoCasOk(s, a.i), s.th[a.i].obj);
    } else if a.AllocStamp? {
      FitStep(s, DoAllocStamp(s, a.i), s.th[a.i].obj);
    } else if a.Free? {
      FitStep(s, DoFree(s, a.i), s.th[a.i].obj);
    } else {
      WordsKept(s, a);
    }
  }

  lemma FitStep(s: State, s': State, o: Obj)
    requires AllFit(s) && o in s'.words && Fits(s'.words[o]) && s'.words == s.words[o := s'.words[o]]
    ensures AllFit(s')
  {
  }

  lemma WordsKept(s: State, a: Action)
    requires Can(s, a) && !a.CasOk? && !a.AllocStamp? && !a.Free?
    ensures Do(s, a).words == s.words
  {
    hide Newest, Available, NotLinkedFrom;
    if a.Redo? {
      RedoWords(s, a.i);
    } else {
      hide CanRedo, DoRedo;
    }
  }

  lemma RedoWords(s: State, i: Tid)
    requires CanRedo(s, i)
    ensures DoRedo(s, i).words == s.words
  {
    hide Newest;
  }

  /** In every run every word fits, so that `SameWord` and `PackedStamp` apply at every CAS. */
  lemma {:induction false} RunFits(s: State, run: seq<Action>)
    requires Inv(s) && AllFit(s) && Legal(s, run)
    ensures AllFit(Final(s, run))
    decreases |run|
  {
    hide Can, Do, Calm, AllFit, Inv;
    if run != [] {
      assert Shape(s) by { ShapeOf(s); }
      KeepFit(s, run[0]);
      Keep(s, run[0]);
      RunFits(Do(s, run[0]), run[1..]);
    }
  }

  lemma ShapeOf(s: State)
    requires Inv(s)
    ensures Shape(s)
  {
  }

  // ----- the era matrix in memory

  const ERA_ARRAY_START: nat := 0x40_0000
  const THREAD_LOCAL_VEC_START: nat := 0x80_0000

  /** Byte offset of cell (x, y), ids counted from 1. */
  function EraOffset(x: int, y: int): int {
    ERA_ARRAY_START + 4 * ((x - 1) * MAX_THREAD + (y - 1))
  }

  /** Distinct pairs of ids have distinct cells inside the matrix; row 0, which the monitor's scan
      starts with, lies below it. */
  lemma EraCells(x: Tid, y: Tid, u: Tid, v: Tid)
    requires 0 < x <= MAX_THREAD && 0 < y <= MAX_THREAD && 0 < u <= MAX_THREAD && 0 < v <= MAX_THREAD
    ensures ERA_ARRAY_START <= EraOffset(x, y) && EraOffset(x, y) + 4 <= THREAD_LOCAL_VEC_START
    ensures EraOffset(x, y) == EraOffset(u, v) <==> x == u && y == v
    ensures EraOffset(0, y) < ERA_ARRAY_START
  {
    if x < u {
      assert (u - 1) * MAX_THREAD >= (x - 1) * MAX_THREAD + MAX_THREAD;
    } else if u < x {
      assert (x - 1) * MAX_THREAD >= (u - 1) * MAX_THREAD + MAX_THREAD;
    }
  }
}
