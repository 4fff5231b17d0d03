/** The message queue in place: sending, receiving, and the monitor's two recovery scans as loops. */
module MessageQueue {
  import opened RefTypes
  import opened RingMachine

  function At(i: nat, k: nat): (j: nat)
    ensures j < MESSAGE_BUFFER_SIZE
  {
    (i + k) % MESSAGE_BUFFER_SIZE
  }

  /** Steps from slot i to slot j, going round. */
  function Dist(i: nat, j: nat): nat
    requires i < MESSAGE_BUFFER_SIZE
  {
    if j >= i then j - i else j + MESSAGE_BUFFER_SIZE - i
  }

  /** The n slots from slot i on. */
  function Slots(b: seq<Obj>, i: nat, n: nat): (s: seq<Obj>)
    requires |b| == MESSAGE_BUFFER_SIZE
    ensures |s| == n
  {
    seq(n, k requires 0 <= k < n => b[At(i, k)])
  }

  /** The references among them, in order. */
  function NonZero(s: seq<Obj>): seq<Obj> {
    if s == [] then []
    else NonZero(s[..|s| - 1]) + if s[|s| - 1] != 0 then [s[|s| - 1]] else []
  }

  lemma NonZeroNext(b: seq<Obj>, i: nat, n: nat)
    requires |b| == MESSAGE_BUFFER_SIZE
    ensures NonZero(Slots(b, i, n + 1)) == NonZero(Slots(b, i, n)) + if b[At(i, n)] != 0 then [b[At(i, n)]] else []
  {
    var s := Slots(b, i, n + 1);
    assert s[..n] == Slots(b, i, n);
  }

  lemma {:induction false} NonZeroNone(s: seq<Obj>)
    requires forall k :: 0 <= k < |s| ==> s[k] == 0
    ensures NonZero(s) == []
  {
    if s != [] {
      NonZeroNone(s[..|s| - 1]);
    }
  }

  lemma {:induction false} NonZeroFirst(s: seq<Obj>)
    requires |s| > 0 && forall k :: 1 <= k < |s| ==> s[k] == 0
    ensures NonZero(s) == if s[0] != 0 then [s[0]] else []
  {
    if |s| > 1 {
      NonZeroFirst(s[..|s| - 1]);
    } else {
      assert s[..0] == [];
    }
  }

  lemma AtStep(i: nat, k: nat)
    requires i < MESSAGE_BUFFER_SIZE && k < MESSAGE_BUFFER_SIZE
    ensures At(i, k + 1) == (At(i, k) + 1) % MESSAGE_BUFFER_SIZE
    ensures Dist(i, At(i, k)) == k && At(i, 0) == i
  {
  }

  /** Going round from i meets j after Dist(i, j) steps and, within a round, not before. */
  lemma AtMeets(i: nat, j: nat, k: nat)
    requires i < MESSAGE_BUFFER_SIZE && j < MESSAGE_BUFFER_SIZE && k <= MESSAGE_BUFFER_SIZE
    ensures At(i, k) == j <==> k == Dist(i, j) || (i == j && k == MESSAGE_BUFFER_SIZE)
  {
  }

  lemma SlotsZero(b: seq<Obj>, i: nat, n: nat)
    requires |b| == MESSAGE_BUFFER_SIZE && i < MESSAGE_BUFFER_SIZE && n <= MESSAGE_BUFFER_SIZE
    requires forall j :: 0 <= j < MESSAGE_BUFFER_SIZE && Dist(i, j) < n ==> b[j] == 0
    ensures Slots(b, i, n) == seq(n, _ => 0)
  {
    forall k | 0 <= k < n ensures Slots(b, i, n)[k] == 0 {
      AtStep(i, k);
    }
  }

  lemma SlotsSame(b: seq<Obj>, c: seq<Obj>, i: nat, n: nat)
    requires |b| == |c| == MESSAGE_BUFFER_SIZE && i < MESSAGE_BUFFER_SIZE && n <= MESSAGE_BUFFER_SIZE
    requires forall j :: 0 <= j < MESSAGE_BUFFER_SIZE && Dist(i, j) < n ==> b[j] == c[j]
    ensures Slots(b, i, n) == Slots(c, i, n)
  {
    forall k | 0 <= k < n ensures Slots(b, i, n)[k] == Slots(c, i, n)[k] {
      AtStep(i, k);
    }
  }

  lemma SlotsLast(b: seq<Obj>, i: nat, n: nat)
    requires |b| == MESSAGE_BUFFER_SIZE && i < MESSAGE_BUFFER_SIZE && n < MESSAGE_BUFFER_SIZE
    ensures Slots(b, i, n + 1) == Slots(b, i, n) + [b[At(i, n)]]
  {
  }

  lemma SlotsShift(b: seq<Obj>, i: nat, n: nat)
    requires |b| == MESSAGE_BUFFER_SIZE && i < MESSAGE_BUFFER_SIZE && 0 < n < MESSAGE_BUFFER_SIZE
    ensures Slots(b, i, n) == [b[i]] + Slots(b, At(i, 1), n - 1)
  {
  }

  /** The slots from `end` to `start` are the others than those from `start` to `end`. */
  lemma DistSplit(i: nat, j: nat, k: nat)
    requires i < MESSAGE_BUFFER_SIZE && j < MESSAGE_BUFFER_SIZE && k < MESSAGE_BUFFER_SIZE
    ensures Dist(i, j) == Dist(i, k) <==> j == k
    ensures i != j ==> (Dist(j, k) < Dist(j, i) <==> Dist(i, k) >= Dist(i, j))
    ensures Dist(j, k) < MESSAGE_BUFFER_SIZE
  {
  }

  class MessageQueue {
    const buffer: array<Obj>
    var start: nat
    var end: nat
    var senderId: nat
    var receiverId: nat
    var released: seq<Obj>   // the references given to recovery_test_free, in order

    constructor (sender: nat)
      ensures Valid() && fresh(buffer) && Contents() == [] && forall j :: 0 <= j < MESSAGE_BUFFER_SIZE ==>
                buffer[j] == 0
      ensures senderId == sender && receiverId == 0 && released == []
    {
      buffer := new Obj[MESSAGE_BUFFER_SIZE](_ => 0);
      start, end, senderId, receiverId, released := 0, 0, sender, 0, [];
    }

    /** How many references are queued. */
    function Queued(): nat
      requires start < MESSAGE_BUFFER_SIZE
      reads this
    {
      Dist(start, end)
    }

    /** What is queued, oldest first. */
    function Contents(): seq<Obj>
      requires start < MESSAGE_BUFFER_SIZE && buffer.Length == MESSAGE_BUFFER_SIZE
      reads this, buffer
    {
      Slots(buffer[..], start, Queued())
    }

    /** Slots outside [start, end) are empty, except perhaps the one at `end`. */
    ghost predicate Valid()
      reads this, buffer
    {
      && buffer.Length == MESSAGE_BUFFER_SIZE && start < MESSAGE_BUFFER_SIZE && end < MESSAGE_BUFFER_SIZE
      && forall j :: 0 <= j < MESSAGE_BUFFER_SIZE && Dist(start, j) > Queued() ==> buffer[j] == 0
    }

    /** Sending appends, unless 15 references are queued. */
    method SentTo(o: Obj) returns (ok: bool)
      requires Valid() && buffer[end] == 0 && o != 0
      modifies this`end, buffer
      ensures Valid() && start == old(start)
      ensures ok == (old(Queued()) < 15)
      ensures Contents() == if ok then old(Contents()) + [o] else old(Contents())
      ensures buffer[..] == if ok then old(buffer[..])[old(end) := o] else old(buffer[..])
      ensures end == (if ok then (old(end) + 1) % MESSAGE_BUFFER_SIZE else old(end)) && buffer[end] == 0
    {
      hide At, Slots;
      AtStep(start, Queued());
      AtMeets(start, end, Queued());
      ghost var b, n := buffer[..], Queued();
      if end + 1 == start || (end >= start && end - start == MESSAGE_BUFFER_SIZE - 1) {
        return false;
      }
      buffer[end] := o;
      end := (end + 1) % MESSAGE_BUFFER_SIZE;
      SlotsSame(b, buffer[..], start, n);
      SlotsLast(buffer[..], start, n);
      return true;
    }

    /** Receiving takes the oldest reference and empties its slot, and no other; it fails if nothing is queued or the
        slot was emptied. */
    method CxlUnwrap(id: nat) returns (o: Obj)
      requires Valid()
      modifies this`start, this`receiverId, buffer
      ensures Valid() && end == old(end)
      ensures receiverId == if old(receiverId) == 0 then id else old(receiverId)
      ensures o == 0 <==> old(Queued()) == 0 || old(Contents())[0] == 0
      ensures o == 0 ==> start == old(start) && buffer[..] == old(buffer[..])
      ensures o != 0 ==> old(Contents()) == [o] + Contents() && buffer[..] == old(buffer[..])[old(start) := 0]
    {
      hide At, Slots;
      ghost var b, n := buffer[..], Queued();
      AtStep(start, 0);
      if n > 0 {
        SlotsShift(b, start, n);
      }
      if receiverId == 0 {
        receiverId := id;
      }
      if start == end || buffer[start] == 0 {
        return 0;
      }
      o := buffer[start];
      buffer[start] := 0;
      start := (start + 1) % MESSAGE_BUFFER_SIZE;
      SlotsSame(b, buffer[..], start, n - 1);
    }

    /** Distance from `end` to `start` as the first scan of a recovered sender goes: a full round if equal. */
    function Free(): nat
      requires end < MESSAGE_BUFFER_SIZE
      reads this
    {
      if start == end then MESSAGE_BUFFER_SIZE else Dist(end, start)
    }

    method ReleaseSlot(i: nat)
      requires buffer.Length == MESSAGE_BUFFER_SIZE && i < MESSAGE_BUFFER_SIZE
      modifies this`released, buffer
      ensures buffer[..] == old(buffer[..])[i := 0]
      ensures released == old(released) + if old(buffer[i]) != 0 then [old(buffer[i])] else []
    {
      if buffer[i] != 0 {
        released := released + [buffer[i]];
        buffer[i] := 0;
      }
    }

    /** The scan from `start` to `end`. */
    method ReleaseQueued()
      requires buffer.Length == MESSAGE_BUFFER_SIZE && start < MESSAGE_BUFFER_SIZE && end < MESSAGE_BUFFER_SIZE
      modifies this`released, buffer
      ensures released == old(released) + NonZero(old(Contents()))
      ensures Contents() == seq(Queued(), _ => 0)
      ensures forall j :: 0 <= j < MESSAGE_BUFFER_SIZE ==>
                buffer[j] == if Dist(start, j) < Queued() then 0 else old(buffer[j])
    {
      hide At, Slots, NonZero;
      ghost var b, r, k := buffer[..], released, 0;
      var i := start;
      AtStep(start, 0);
      NonZeroNone(Slots(b, start, 0));
      while i != end
        invariant 0 <= k <= Queued() && i == At(start, k)
        invariant released == r + NonZero(Slots(b, start, k))
        invariant forall j :: 0 <= j < MESSAGE_BUFFER_SIZE ==> buffer[j] == if Dist(start, j) < k then 0 else b[j]
        decreases Queued() - k
      {
        NonZeroNext(b, start, k);
        AtStep(start, k);
        AtMeets(start, end, k);
        AtMeets(start, end, k + 1);
        ReleaseSlot(i);
        i := (i + 1) % MESSAGE_BUFFER_SIZE;
        k := k + 1;
      }
      AtMeets(start, end, k);
      SlotsZero(buffer[..], start, Queued());
    }

    /** The scan from `end` to `start`. */
    method ReleaseOthers()
      requires buffer.Length == MESSAGE_BUFFER_SIZE && start < MESSAGE_BUFFER_SIZE && end < MESSAGE_BUFFER_SIZE
      modifies this`released, buffer
      ensures released == old(released) + NonZero(Slots(old(buffer[..]), end, Free()))
      ensures forall j :: 0 <= j < MESSAGE_BUFFER_SIZE ==>
                buffer[j] == if Dist(end, j) < Free() then 0 else old(buffer[j])
    {
      hide At, Slots, NonZero;
      ghost var b, r := buffer[..], released;
      var i := end;
      AtStep(end, 0);
      AtMeets(end, start, MESSAGE_BUFFER_SIZE);
      NonZeroNone(Slots(b, end, 0));
      var first := true;
      ghost var k := 0;
      while first || i != start
        invariant 0 <= k <= Free() && first == (k == 0) && i == At(end, k)
        invariant released == r + NonZero(Slots(b, end, k))
        invariant forall j :: 0 <= j < MESSAGE_BUFFER_SIZE ==> buffer[j] == if Dist(end, j) < k then 0 else b[j]
        decreases Free() - k
      {
        NonZeroNext(b, end, k);
        AtStep(end, k);
        AtMeets(end, start, k);
        AtMeets(end, start, k + 1);
        first := false;
        ReleaseSlot(i);
        i := (i + 1) % MESSAGE_BUFFER_SIZE;
        k := k + 1;
      }
      AtMeets(end, start, k);
    }

    /** Recovery of the sender: the slots from `end` to `start` are released, and those from `start` to
        `end` too if there is no receiver. Every reference is released once, in ring order, and what was
        visited is empty. */
    method RecoverSender()
      requires Valid()
      modifies this`senderId, this`released, buffer
      ensures Valid() && senderId == 0
      ensures released == old(released) + NonZero(Slots(old(buffer[..]), end, Free()))
                          + if receiverId == 0 then NonZero(old(Contents())) else []
      ensures Contents() == if receiverId == 0 then seq(Queued(), _ => 0) else old(Contents())
      ensures forall j :: 0 <= j < MESSAGE_BUFFER_SIZE ==>
                buffer[j] == if j == end || receiverId == 0 then 0 else old(buffer[j])
    {
      hide At, Slots, NonZero;
      ghost var b := buffer[..];
      ReleaseOthers();
      forall j | 0 <= j < MESSAGE_BUFFER_SIZE
        ensures buffer[j] == if Dist(start, j) < Queued() then b[j] else 0
        ensures Dist(start, j) >= Queued() && j != end ==> b[j] == 0
      {
        DistSplit(start, end, j);
        DistSplit(start, j, end);
      }
      SlotsSame(b, buffer[..], start, Queued());
      DistSplit(start, end, end);
      if receiverId == 0 {
        ReleaseQueued();
      }
      senderId := 0;
    }

    /** Recovery of the receiver: what is queued is released once each, in order; `start` stays. */
    method RecoverReceiver()
      requires Valid()
      modifies this`receiverId, this`released, buffer
      ensures Valid() && receiverId == 0
      ensures released == old(released) + NonZero(old(Contents()))
      ensures Contents() == seq(Queued(), _ => 0)
      ensures forall j :: 0 <= j < MESSAGE_BUFFER_SIZE ==> buffer[j] == if j == end then old(buffer[j]) else 0
    {
      hide At, Slots, NonZero;
      forall j | 0 <= j < MESSAGE_BUFFER_SIZE ensures Dist(start, j) == Queued() <==> j == end {
        DistSplit(start, end, j);
        DistSplit(start, j, end);
      }
      ReleaseQueued();
      receiverId := 0;
    }

    /** The first scan finds at most the reference that was linked and not published. */
    lemma FirstScanFinds()
      requires Valid()
      ensures NonZero(Slots(buffer[..], end, Free())) == if buffer[end] != 0 then [buffer[end]] else []
    {
      var s := Slots(buffer[..], end, Free());
      assert s[0] == buffer[At(end, 0)] && forall k :: 1 <= k < |s| ==> s[k] == buffer[At(end, k)];
      hide At, Slots, NonZero;
      AtStep(end, 0);
      forall k | 1 <= k < |s| ensures s[k] == 0 {
        AtStep(end, k);
        DistSplit(start, end, At(end, k));
        DistSplit(start, At(end, k), end);
        DistSplit(end, At(end, k), end);
        assert Dist(start, At(end, k)) > Queued();
      }
      NonZeroFirst(s);
    }

    /** A receive while a reference is linked at `end` and not published, and then the sender stops: the monitor
        releases that reference, once, and what is queued stays for the receiver. */
    method ReceiveThenRecover(id: nat) returns (o: Obj)
      requires Valid() && buffer[end] != 0 && id != 0
      modifies this`start, this`senderId, this`receiverId, this`released, buffer
      ensures Valid() && senderId == 0 && end == old(end) && buffer[end] == 0
      ensures released == old(released) + [old(buffer[end])]
      ensures o == if old(Queued()) == 0 then 0 else old(Contents())[0]
      ensures Contents() == if o != 0 then old(Contents())[1..] else old(Contents())
    {
      hide NonZero, Slots, At;
      o := CxlUnwrap(id);
      FirstScanFinds();
      RecoverSender();
    }
  }
}
