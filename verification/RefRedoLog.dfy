/** The record redo selects is the last one written. */
module RefRedoLog {
  import opened RefTypes
  import opened RefMachine
  import opened RefInvariant
  import opened RefSteps
  import opened RefTheorems
  import opened RefRelease

  /** The last record of client i after one more step. */
  ghost function NextRecord(s: State, a: Action, i: Tid, last: RedoLog): RedoLog
    requires a == WriteLog(i) ==> i in s.th
  {
    if a == WriteLog(i) then
      RedoLog(s.th[i].func, s.th[i].reg.cnt, Own(s, i), s.th[i].dst, s.th[i].obj)
    else if a == ClearLogs(i) then ClearedLog
    else last
  }

  /** The last record client i wrote in the run since it last wiped its log, starting from `last`. */
  ghost function LastWritten(s: State, run: seq<Action>, i: Tid, last: RedoLog): RedoLog
    requires Legal(s, run)
    decreases |run|
  {
    if run == [] then last
    else LastWritten(Do(s, run[0]), run[1..], i, NextRecord(s, run[0], i, last))
  }

  lemma NewestCleared(logs: seq<RedoLog>)
    requires |logs| > 0 && forall k :: 0 <= k < |logs| ==> logs[k] == ClearedLog
    ensures Newest(logs) == ClearedLog
  {
  }

  lemma WrittenIsNewest(s: State, i: Tid)
    requires CanWriteLog(s, i) && LogOk(s, i, s.th[i])
    ensures var t := s.th[i];
            Rec(DoWriteLog(s, i).th[i]) == RedoLog(t.func, t.reg.cnt, Own(s, i), t.dst, t.obj)
  {
    hide Newest;
    NewestAt(DoWriteLog(s, i).th[i].logs, Own(s, i) % REDO_CACHELINE_CNT);
  }

  /** Only its own two log writes change a client's log. */
  ghost predicate SameLogs(s: State, s': State, a: Action) {
    forall i :: i in s.th && a != WriteLog(i) && a != ClearLogs(i) ==> i in s'.th && s'.th[i].logs == s.th[i].logs
  }

  lemma LogsKeptOpen(s: State, a: Action)
    requires Can(s, a) && (a.BeginLink? || a.BeginUnlink? || a.BeginAlloc? || a.Load? || a.Record?)
    ensures SameLogs(s, Do(s, a), a)
  {
    hide Newest, Available, NotLinkedFrom;
  }

  lemma LogsKeptTry(s: State, a: Action)
    requires Can(s, a) && (a.WriteLog? || a.Skip? || a.CasOk? || a.CasFail? || a.ClearLogs? || a.Crash?
             || a.StartSweep?)
    ensures SameLogs(s, Do(s, a), a)
  {
    hide Newest;
  }

  lemma LogsKeptClose(s: State, a: Action)
    requires Can(s, a) && (a.WriteSlot? || a.Bump? || a.Free? || a.AllocBump? || a.AllocStamp?)
    ensures SameLogs(s, Do(s, a), a)
  {
    hide Newest;
  }

  lemma LogsKeptRedo(s: State, i: Tid)
    requires CanRedo(s, i)
    ensures SameLogs(s, DoRedo(s, i), Redo(i))
  {
    hide Newest;
    RedoFrame(s, i);
    var s' := DoRedo(s, i);
    forall j | j in s.th ensures j in s'.th && s'.th[j].logs == s.th[j].logs {
      assert j in s'.th.Keys;
    }
  }

  lemma LogsKept(s: State, a: Action)
    requires Can(s, a)
    ensures SameLogs(s, Do(s, a), a)
  {
    hide Can, Do, SameLogs;
    match a
    case WriteLog(_) => LogsKeptTry(s, a);
    case Skip(_) => LogsKeptTry(s, a);
    case StartSweep(_) => LogsKeptTry(s, a);
    case CasOk(_) => LogsKeptTry(s, a);
    case CasFail(_) => LogsKeptTry(s, a);
    case ClearLogs(_) => LogsKeptTry(s, a);
    case Crash(_) => LogsKeptTry(s, a);
    case WriteSlot(_) => LogsKeptClose(s, a);
    case Bump(_) => LogsKeptClose(s, a);
    case Free(_) => LogsKeptClose(s, a);
    case AllocBump(_) => LogsKeptClose(s, a);
    case AllocStamp(_) => LogsKeptClose(s, a);
    case Redo(i) => RedoIsRedo(s, i); LogsKeptRedo(s, i);
    case _ => LogsKeptOpen(s, a);
  }

  lemma RedoIsRedo(s: State, i: Tid)
    requires Can(s, Redo(i))
    ensures CanRedo(s, i) && Do(s, Redo(i)) == DoRedo(s, i)
  {
    hide CanRedo, DoRedo;
  }

  lemma StepSelects(s: State, a: Action, i: Tid, last: RedoLog)
    requires Inv(s) && Can(s, a) && HasLogs(s, i) && Rec(s.th[i]) == last
    ensures HasLogs(Do(s, a), i) && Rec(Do(s, a).th[i]) == NextRecord(s, a, i, last)
  {
    hide Newest, StampsOk, RowsOk, CommitOk, OpOk, ShapeT, RegOk, ReleaseOk, LogOk, Can, Do;
    if a == WriteLog(i) {
      Unpack(s, i);
      WriteSelects(s, i);
    } else if a == ClearLogs(i) {
      ClearSelects(s, i);
    } else {
      LogsKept(s, a);
    }
  }

  lemma WriteSelects(s: State, i: Tid)
    requires Can(s, WriteLog(i)) && LogOk(s, i, s.th[i])
    ensures HasLogs(Do(s, WriteLog(i)), i)
    ensures Rec(Do(s, WriteLog(i)).th[i]) == NextRecord(s, WriteLog(i), i, ClearedLog)
  {
    WrittenIsNewest(s, i);
  }

  lemma ClearSelects(s: State, i: Tid)
    requires Can(s, ClearLogs(i))
    ensures HasLogs(Do(s, ClearLogs(i)), i) && Rec(Do(s, ClearLogs(i)).th[i]) == ClearedLog
  {
    NewestCleared(DoClearLogs(s, i).th[i].logs);
  }

  /** Era gaps left by allocations, retries within one era and reuse of the eight lines do not mislead
      the scan: it returns the last record written since the log was wiped. */
  lemma {:induction false} RunSelects(s: State, run: seq<Action>, i: Tid)
    requires Inv(s) && Legal(s, run) && HasLogs(s, i)
    ensures HasLogs(Final(s, run), i)
    ensures Rec(Final(s, run).th[i]) == LastWritten(s, run, i, Rec(s.th[i]))
    decreases |run|
  {
    hide Inv, Can, Do, Calm, Newest;
    if run != [] {
      Keep(s, run[0]);
      StepSelects(s, run[0], i, Rec(s.th[i]));
      RunSelects(Do(s, run[0]), run[1..], i);
    }
  }

  lemma RedoSelectsLast(s0: State, run: seq<Action>, i: Tid)
    requires Init(s0) && Legal(s0, run) && i in s0.th
    ensures HasLogs(Final(s0, run), i)
    ensures Rec(Final(s0, run).th[i]) == LastWritten(s0, run, i, ClearedLog)
  {
    hide Legal, Inv;
    InitInv(s0);
    NewestCleared(s0.th[i].logs);
    RunSelects(s0, run, i);
  }
}
