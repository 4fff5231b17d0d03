/** The chained hash index: one partition of the bucket table for each writer, read by everybody. */
module HashIndex {
  import opened RefTypes
  import Layout

  const BUCKETS: nat := 0x2_0000
  const PARTITIONS: nat := 64

  /** The bucket is the low 17 bits of the key, the partition that readers look in the top 8 bits. */
  function Bucket(key: nat): (b: nat)
    ensures b < BUCKETS
  {
    key % BUCKETS
  }

  function Partition(key: nat): nat {
    key / 0x100_0000_0000_0000
  }

  /** Index of a bucket in the table of all partitions. */
  function SlotOf(partition: nat, key: nat): nat {
    partition * BUCKETS + Bucket(key)
  }

  const HASH_TABLE_START: nat := 0x400_0000
  const HASH_TABLE_SIZE: nat := 0x10_0000

  /** The offset that `put` and `get` compute for an entry. */
  function EntryOffset(partition: nat, key: nat): nat {
    HASH_TABLE_START + partition * HASH_TABLE_SIZE + 8 * Bucket(key)
  }

  /** The entry of a key with low 17 bits `low` is word `low` of the partition's megabyte. It lies in the table, in
      the word that `SlotOf` says, exactly for the first 64 partitions; the others lie in the segments. */
  lemma EntryInTable(partition: nat, high: nat, low: nat)
    requires low < 0x2_0000
    ensures var key := high * 0x2_0000 + low;
            && EntryOffset(partition, key) == 0x400_0000 + partition * 0x10_0000 + 8 * low
            && EntryOffset(partition, key) == HASH_TABLE_START + 8 * SlotOf(partition, key)
            && (partition < PARTITIONS <==> EntryOffset(partition, key) < Layout.SEGMENTS_AREA_START)
            && (partition < PARTITIONS <==> SlotOf(partition, key) < PARTITIONS * BUCKETS)
  {
  }

  predicate HasTop(k: nat, top: nat) {
    top * 0x100_0000_0000_0000 <= k < (top + 1) * 0x100_0000_0000_0000
  }

  /** The key with a given top byte and 56 low bits. */
  function Key(top: nat, low: nat): (k: nat)
    requires top < 0x100 && low < 0x100_0000_0000_0000
    ensures HasTop(k, top) && k % 0x100_0000_0000_0000 == low
  {
    top * 0x100_0000_0000_0000 + low
  }

  /** Readers look in the partition that the top byte names. */
  lemma PartitionIsTop(k: nat, top: nat)
    ensures Partition(k) == top <==> HasTop(k, top)
  {
  }

  function Nth(c: seq<nat>, i: nat): nat {
    if i < |c| then c[i] else 0
  }

  /** The words of the nodes; `home` (the slot whose chain a node is in) only observes. */
  datatype Nodes = Nodes(key: map<nat, nat>, value: map<nat, nat>, next: map<nat, nat>, home: map<nat, nat>)

  /** The node at position j of slot i's chain. */
  predicate NodeOk(m: Nodes, i: nat, c: seq<nat>, j: nat)
    requires j < |c|
  {
    var n := c[j];
    && n != 0 && n in m.key && n in m.value && n in m.next && n in m.home
    && m.next[n] == Nth(c, j + 1) && m.home[n] == i && Bucket(m.key[n]) == i % BUCKETS
  }

  /** From the table entry the `next` words lead through exactly c to null, and no key occurs twice. */
  ghost predicate ChainOk(m: Nodes, i: nat, entry: nat, c: seq<nat>) {
    && entry == Nth(c, 0)
    && (forall j: nat :: j < |c| ==> NodeOk(m, i, c, j))
    && (forall j, k :: 0 <= j < k < |c| && c[j] in m.key && c[k] in m.key ==> m.key[c[j]] != m.key[c[k]])
  }

  /** The first node of a chain with the key; null if there is none. */
  function Find(key: map<nat, nat>, c: seq<nat>, k: nat): (n: nat)
    ensures n != 0 ==> n in c && n in key && key[n] == k
  {
    if c == [] then 0
    else if c[0] in key && key[c[0]] == k then c[0]
    else Find(key, c[1..], k)
  }

  lemma {:induction false} FindHere(key: map<nat, nat>, c: seq<nat>, k: nat, j: nat)
    requires j < |c| && c[j] in key && key[c[j]] == k
    requires forall l :: 0 <= l < j ==> c[l] in key && key[c[l]] != k
    ensures Find(key, c, k) == c[j]
  {
    if j > 0 {
      FindHere(key, c[1..], k, j - 1);
    }
  }

  lemma {:induction false} FindNone(key: map<nat, nat>, c: seq<nat>, k: nat)
    requires forall l :: 0 <= l < |c| ==> c[l] in key && key[c[l]] != k
    ensures Find(key, c, k) == 0
  {
    if c != [] {
      FindNone(key, c[1..], k);
    }
  }

  lemma {:induction false} FindAppend(key: map<nat, nat>, c: seq<nat>, n: nat, x: nat, k: nat)
    requires n !in c && n != 0 && 0 !in c
    ensures Find(key[n := x], c + [n], k) ==
            if Find(key, c, k) != 0 then Find(key, c, k) else if x == k then n else 0
  {
    if c != [] {
      assert (c + [n])[1..] == c[1..] + [n];
      FindAppend(key, c[1..], n, x, k);
    }
  }

  // ----- what a put does to one chain

  function WithValue(m: Nodes, n: nat, v: nat): Nodes {
    m.(value := m.value[n := v])
  }

  lemma ValueKeeps(m: Nodes, i: nat, entry: nat, c: seq<nat>, n: nat, v: nat)
    requires ChainOk(m, i, entry, c)
    ensures ChainOk(WithValue(m, n, v), i, entry, c)
  {
    forall j: nat | j < |c| ensures NodeOk(WithValue(m, n, v), i, c, j) {
      assert NodeOk(m, i, c, j);
    }
  }

  /** The nodes after a new node was filled in and the last word of slot i's chain set to it. */
  function WithNode(m: Nodes, i: nat, c: seq<nat>, n: nat, k: nat, v: nat): Nodes {
    var next := m.next[n := 0];
    Nodes(m.key[n := k], m.value[n := v], if c == [] then next else next[c[|c| - 1] := n], m.home[n := i])
  }

  lemma NodeKeeps(m: Nodes, i: nat, entry: nat, c: seq<nat>, n: nat, k: nat, v: nat)
    requires ChainOk(m, i, entry, c) && n != 0 && n !in m.home && Bucket(k) == i % BUCKETS
    requires forall l :: 0 <= l < |c| && c[l] in m.key ==> m.key[c[l]] != k
    ensures ChainOk(WithNode(m, i, c, n, k, v), i, if c == [] then n else entry, c + [n])
  {
    var w, d := WithNode(m, i, c, n, k, v), c + [n];
    forall j: nat | j < |c| ensures c[j] != n && c[j] in m.key {
      assert NodeOk(m, i, c, j);
    }
    forall j: nat | j < |d| ensures NodeOk(w, i, d, j) {
      if j < |c| {
        assert NodeOk(m, i, c, j);
        if j < |c| - 1 {
          LastOnce(m, i, entry, c, j);
        }
      }
    }
  }

  lemma LastOnce(m: Nodes, i: nat, entry: nat, c: seq<nat>, j: nat)
    requires ChainOk(m, i, entry, c) && j < |c| - 1
    ensures c[j] != c[|c| - 1]
  {
    assert NodeOk(m, i, c, j) && NodeOk(m, i, c, |c| - 1);
  }

  /** Another slot's chain does not notice. */
  lemma OtherKeeps(m: Nodes, i: nat, c: seq<nat>, n: nat, k: nat, v: nat, o: nat, entry: nat, d: seq<nat>)
    requires ChainOk(m, o, entry, d) && o != i && n !in m.home
             && (c == [] || (c[|c| - 1] in m.home && m.home[c[|c| - 1]] == i))
    ensures ChainOk(WithNode(m, i, c, n, k, v), o, entry, d)
  {
    var w := WithNode(m, i, c, n, k, v);
    forall j: nat | j < |d| ensures NodeOk(w, o, d, j) && d[j] != n {
      assert NodeOk(m, o, d, j);
    }
  }

  // ----- what a reader of a chain sees

  ghost function Seen(m: Nodes, c: seq<nat>, k: nat): Option<nat> {
    var n := Find(m.key, c, k);
    if n != 0 && n in m.value then Some(m.value[n]) else None
  }

  lemma InChain(m: Nodes, i: nat, entry: nat, c: seq<nat>, n: nat)
    requires ChainOk(m, i, entry, c) && n in c
    ensures n != 0 && n in m.key && n in m.value && n in m.home && m.home[n] == i
  {
    var j :| 0 <= j < |c| && c[j] == n;
    assert NodeOk(m, i, c, j);
  }

  lemma {:induction false} FindFrame(key: map<nat, nat>, c: seq<nat>, n: nat, x: nat, k: nat)
    requires n !in c
    ensures Find(key[n := x], c, k) == Find(key, c, k)
  {
    if c != [] {
      FindFrame(key, c[1..], n, x, k);
    }
  }

  /** Overwriting the value of a node changes what is seen for its key in its chain, nothing else. */
  lemma SeenValue(m: Nodes, i: nat, c: seq<nat>, o: nat, d: seq<nat>, e: nat, e': nat, n: nat, v: nat, k: nat, q: nat)
    requires ChainOk(m, i, e, c) && ChainOk(m, o, e', d) && (o == i ==> d == c)
    requires n in c && n in m.key && m.key[n] == k && Find(m.key, c, k) == n
    ensures Seen(WithValue(m, n, v), d, q) == if o == i && q == k then Some(v) else Seen(m, d, q)
  {
    InChain(m, i, e, c, n);
    var f := Find(m.key, d, q);
    if f != 0 {
      InChain(m, o, e', d, f);
    }
  }

  /** A new node adds its key to its chain; nothing else is seen differently. */
  lemma SeenNode(m: Nodes, i: nat, c: seq<nat>, o: nat, d: seq<nat>, e: nat, e': nat, n: nat, k: nat, v: nat, q: nat)
    requires ChainOk(m, i, e, c) && ChainOk(m, o, e', d) && (o == i ==> d == c)
    requires n != 0 && n !in m.home && Find(m.key, c, k) == 0
    ensures Seen(WithNode(m, i, c, n, k, v), if o == i then c + [n] else d, q) ==
            if o == i && q == k then Some(v) else Seen(m, d, q)
  {
    forall x | x in d ensures x != n && x != 0 && x in m.value {
      InChain(m, o, e', d, x);
    }
    if o == i {
      FindAppend(m.key, c, n, k, q);
    } else {
      FindFrame(m.key, d, n, k, q);
    }
  }

  /** The word that leads to the next node: a table entry or a node's `next`. */
  datatype Cell = Entry(slot: nat) | NextOf(node: nat)

  class HashIndex {
    const table: array<nat>
    var key: map<nat, nat>
    var value: map<nat, nat>
    var next: map<nat, nat>
    ghost var home: map<nat, nat>
    ghost var chains: map<nat, seq<nat>>

    constructor ()
      ensures Valid() && fresh(table) && home == map[]
      ensures forall p: nat, k: nat :: p < PARTITIONS ==> Lookup(p, k) == None
    {
      table := new nat[PARTITIONS * BUCKETS](_ => 0);
      key, value, next, home := map[], map[], map[], map[];
      chains := map[];
    }

    ghost function NodeView(): Nodes
      reads this
    {
      Nodes(key, value, next, home)
    }

    ghost function ChainOf(i: nat): seq<nat>
      reads this
    {
      if i in chains then chains[i] else []
    }

    ghost predicate Valid()
      reads this, table
    {
      && table.Length == PARTITIONS * BUCKETS
      && forall i :: 0 <= i < table.Length ==> ChainOk(NodeView(), i, table[i], ChainOf(i))
    }

    /** The index as a map from partition and key to value. */
    ghost function Lookup(partition: nat, k: nat): Option<nat>
      reads this
    {
      Seen(NodeView(), ChainOf(SlotOf(partition, k)), k)
    }

    predicate Readable(cell: Cell)
      reads this
    {
      match cell
      case Entry(i) => i < table.Length
      case NextOf(n) => n in next
    }

    function Load(cell: Cell): nat
      requires Readable(cell)
      reads this, table
    {
      match cell
      case Entry(i) => table[i]
      case NextOf(n) => next[n]
    }

    /** Walk the chain of a slot to the word after the last node before one with the key. */
    method Walk(i: nat, k: nat) returns (cell: Cell, ghost j: nat)
      requires Valid() && i < table.Length
      ensures j <= |ChainOf(i)| && forall l :: 0 <= l < j ==> ChainOf(i)[l] in key && key[ChainOf(i)[l]] != k
      ensures cell == if j == 0 then Entry(i) else NextOf(ChainOf(i)[j - 1])
      ensures j > 0 ==> ChainOf(i)[j - 1] in next && next[ChainOf(i)[j - 1]] == Nth(ChainOf(i), j)
      ensures j == 0 ==> table[i] == Nth(ChainOf(i), 0)
      ensures Readable(cell) && (Load(cell) == 0 ==> j == |ChainOf(i)| && Find(key, ChainOf(i), k) == 0)
      ensures Load(cell) != 0 ==> j < |ChainOf(i)| && Load(cell) == ChainOf(i)[j]
      ensures j < |ChainOf(i)| ==>
                ChainOf(i)[j] in key && key[ChainOf(i)[j]] == k && ChainOf(i)[j] in value && ChainOf(i)[j] != 0
    {
      ghost var c := ChainOf(i);
      assert ChainOk(NodeView(), i, table[i], c);
      cell, j := Entry(i), 0;
      while Load(cell) != 0
        invariant j <= |c| && forall l :: 0 <= l < j ==> c[l] in key && key[c[l]] != k
        invariant cell == if j == 0 then Entry(i) else NextOf(c[j - 1])
        invariant j > 0 ==> c[j - 1] in next && next[c[j - 1]] == Nth(c, j)
        decreases |c| - j
      {
        assert NodeOk(NodeView(), i, c, j);
        if key[Load(cell)] == k {
          return;
        }
        cell := NextOf(Load(cell));
        j := j + 1;
      }
      if j < |c| {
        assert NodeOk(NodeView(), i, c, j);
      } else {
        FindNone(key, c, k);
      }
    }

    /** Writer `tid` stores a value: in the node that has the key, or in a new node at the end of its chain. */
    method Put(tid: Tid, k: nat, v: nat, block: nat)
      requires Valid() && 1 <= tid <= PARTITIONS && block != 0 && block !in home
      modifies this, table
      ensures Valid()
      ensures forall p: nat, q: nat :: p < PARTITIONS ==>
                Lookup(p, q) == if p == tid - 1 && q == k then Some(v) else old(Lookup(p, q))
      ensures home.Keys <= old(home).Keys + {block}
    {
      hide Find, ChainOk, Seen, SlotOf, Bucket;
      var i := SlotOf(tid - 1, k);
      SlotInTable(tid - 1, k);
      ghost var c := ChainOf(i);
      var cell;
      ghost var j;
      cell, j := Walk(i, k);
      var node := Load(cell);
      if node != 0 {
        FindHere(key, c, k, j);
        Overwrite(tid, i, k, v, node);
      } else {
        Append(tid, i, k, v, block, cell);
      }
    }

    method Overwrite(tid: Tid, i: nat, k: nat, v: nat, node: nat)
      requires Valid() && 1 <= tid <= PARTITIONS && i == SlotOf(tid - 1, k) && i < table.Length
      requires node != 0 && node in ChainOf(i) && node in key && key[node] == k && Find(key, ChainOf(i), k) == node
      modifies this`value
      ensures Valid()
      ensures forall p: nat, q: nat :: p < PARTITIONS ==>
                Lookup(p, q) == if p == tid - 1 && q == k then Some(v) else old(Lookup(p, q))
    {
      hide Find, ChainOk, Seen, SlotOf, Bucket, WithValue;
      ghost var m := NodeView();
      value := value[node := v];
      assert NodeView() == WithValue(m, node, v) by {
        ValueIs(m, node, v);
      }
      forall o | 0 <= o < table.Length ensures ChainOk(NodeView(), o, table[o], ChainOf(o)) {
        ValueKeeps(m, o, table[o], ChainOf(o), node, v);
      }
      forall p: nat, q: nat | p < PARTITIONS
        ensures Lookup(p, q) == if p == tid - 1 && q == k then Some(v) else old(Lookup(p, q))
      {
        SlotInTable(p, q);
        Separate(tid - 1, k, p, q);
        SeenValue(m, i, ChainOf(i), SlotOf(p, q), ChainOf(SlotOf(p, q)), table[i], table[SlotOf(p, q)], node, v, k, q);
      }
    }

    static lemma ValueIs(m: Nodes, n: nat, v: nat)
      ensures WithValue(m, n, v) == m.(value := m.value[n := v])
    {
    }

    method Append(tid: Tid, i: nat, k: nat, v: nat, block: nat, cell: Cell)
      requires Valid() && 1 <= tid <= PARTITIONS && i == SlotOf(tid - 1, k) && i < table.Length
               && i % BUCKETS == Bucket(k)
      requires block != 0 && block !in home && Find(key, ChainOf(i), k) == 0
      requires forall l :: 0 <= l < |ChainOf(i)| ==> ChainOf(i)[l] in key && key[ChainOf(i)[l]] != k
      requires cell == if ChainOf(i) == [] then Entry(i) else NextOf(ChainOf(i)[|ChainOf(i)| - 1])
      modifies this, table
      ensures Valid() && home.Keys == old(home).Keys + {block}
      ensures forall p: nat, q: nat :: p < PARTITIONS ==>
                Lookup(p, q) == if p == tid - 1 && q == k then Some(v) else old(Lookup(p, q))
    {
      hide Find, ChainOk, Seen, SlotOf, Bucket, WithNode;
      ghost var m, c, t := NodeView(), ChainOf(i), table[..];
      LinkNode(i, k, v, block, cell);
      ghost var w := WithNode(m, i, c, block, k, v);
      forall o | 0 <= o < table.Length ensures ChainOk(w, o, table[o], ChainOf(o)) {
        PutKeeps(m, i, t[i], c, block, k, v, o, t[o], old(ChainOf(o)));
      }
      forall p: nat, q: nat | p < PARTITIONS
        ensures Lookup(p, q) == if p == tid - 1 && q == k then Some(v) else old(Lookup(p, q))
      {
        SlotInTable(p, q);
        Separate(tid - 1, k, p, q);
        SeenNode(m, i, c, SlotOf(p, q), old(ChainOf(SlotOf(p, q))), t[i], t[SlotOf(p, q)], block, k, v, q);
      }
    }

    /** Fill in the new node and set the last word of the chain to it. */
    method LinkNode(i: nat, k: nat, v: nat, block: nat, cell: Cell)
      requires i < table.Length && table.Length == PARTITIONS * BUCKETS && block != 0
      requires cell == if ChainOf(i) == [] then Entry(i) else NextOf(ChainOf(i)[|ChainOf(i)| - 1])
      modifies this, table
      ensures NodeView() == WithNode(old(NodeView()), i, old(ChainOf(i)), block, k, v)
      ensures chains == old(chains)[i := old(ChainOf(i)) + [block]] && home == old(home)[block := i]
      ensures table[..] == if old(ChainOf(i)) == [] then old(table[..])[i := block] else old(table[..])
    {
      ghost var c := ChainOf(i);
      key, value, next := key[block := k], value[block := v], next[block := 0];
      match cell {
        case Entry(slot) => table[slot] := block;
        case NextOf(n) => next := next[n := block];
      }
      home, chains := home[block := i], chains[i := c + [block]];
    }

    /** Readers look in the partition that the key's top byte names. If there is none, they read words of the
        segments, which may be anything. */
    method Get(k: nat) returns (found: bool, v: nat)
      requires Valid()
      ensures forall top: nat :: top < PARTITIONS && HasTop(k, top) ==>
                (found <==> Lookup(top, k).Some?) && (found ==> Lookup(top, k) == Some(v))
    {
      forall top: nat ensures Partition(k) == top <==> HasTop(k, top) {
        PartitionIsTop(k, top);
      }
      hide Partition, HasTop;
      if Partition(k) >= PARTITIONS {
        found, v := *, *;
        return;
      }
      SlotInTable(Partition(k), k);
      var cell;
      ghost var j;
      cell, j := Walk(SlotOf(Partition(k), k), k);
      ghost var c := ChainOf(SlotOf(Partition(k), k));
      if Load(cell) != 0 {
        FindHere(key, c, k, j);
        return true, value[Load(cell)];
      }
      FindNone(key, c, k);
      return false, 0;
    }

    /** A client puts a key, and somebody gets it: the new value comes back exactly if the key's top byte is
        the client's id minus 1; otherwise what was found before. */
    method PutThenGet(tid: Tid, top: nat, low: nat, v: nat, block: nat) returns (found: bool, r: nat)
      requires Valid() && 1 <= tid <= PARTITIONS && block != 0 && block !in home
      requires top < 0x100 && low < 0x100_0000_0000_0000
      modifies this, table
      ensures Valid()
      ensures top == tid - 1 ==> found && r == v
      ensures top != tid - 1 && top < PARTITIONS ==>
                (found <==> old(Lookup(top, Key(top, low))).Some?)
                && (found ==> old(Lookup(top, Key(top, low))) == Some(r))
      ensures Lookup(tid - 1, Key(top, low)) == Some(v)
    {
      hide Seen, Key, HasTop;
      Put(tid, Key(top, low), v, block);
      found, r := Get(Key(top, low));
    }
  }

  lemma Separate(p: nat, k: nat, p': nat, k': nat)
    ensures SlotOf(p, k) == SlotOf(p', k') ==> p == p'
  {
  }

  /** A new node in slot i's chain keeps every slot's chain. */
  lemma PutKeeps(m: Nodes, i: nat, entry: nat, c: seq<nat>, n: nat, k: nat, v: nat, o: nat, entry': nat, d: seq<nat>)
    requires ChainOk(m, i, entry, c) && ChainOk(m, o, entry', d) && (o == i ==> d == c && entry' == entry)
    requires n != 0 && n !in m.home && Bucket(k) == i % BUCKETS
    requires forall l :: 0 <= l < |c| ==> c[l] in m.key && m.key[c[l]] != k
    ensures ChainOk(WithNode(m, i, c, n, k, v), o, if o == i && c == [] then n else entry',
                    if o == i then c + [n] else d)
  {
    if o == i {
      NodeKeeps(m, i, entry, c, n, k, v);
    } else {
      if c != [] {
        InChain(m, i, entry, c, c[|c| - 1]);
      }
      OtherKeeps(m, i, c, n, k, v, o, entry', d);
    }
  }

  lemma SlotInTable(partition: nat, k: nat)
    requires partition < PARTITIONS
    ensures SlotOf(partition, k) < PARTITIONS * BUCKETS && SlotOf(partition, k) % BUCKETS == Bucket(k)
  {
  }

  // ----- what readers get, for any sequence of puts

  datatype Write = Write(tid: Tid, key: nat, value: nat)

  /** Write i stores the key where readers look for it: its writer's id is the key's top byte plus 1. */
  predicate Visible(writes: seq<Write>, top: nat, low: nat, i: nat)
    requires top < 0x100 && low < 0x100_0000_0000_0000 && i < |writes|
  {
    writes[i].key == Key(top, low) && writes[i].tid == top + 1
  }

  /** Write i is the newest of them. */
  ghost predicate Newest(writes: seq<Write>, top: nat, low: nat, i: nat)
    requires top < 0x100 && low < 0x100_0000_0000_0000 && i < |writes|
  {
    Visible(writes, top, low, i) && forall j: nat :: i < j < |writes| ==> !Visible(writes, top, low, j)
  }

  function Last(writes: seq<Write>, top: nat, low: nat): Option<nat>
    requires top < 0x100 && low < 0x100_0000_0000_0000
  {
    if writes == [] then None
    else if Visible(writes, top, low, |writes| - 1) then Some(writes[|writes| - 1].value)
    else Last(writes[..|writes| - 1], top, low)
  }

  /** Without visible write there is nothing to find; otherwise the newest one counts. */
  lemma {:induction false} LastIsNewest(writes: seq<Write>, top: nat, low: nat) returns (i: nat)
    requires top < 0x100 && low < 0x100_0000_0000_0000
    ensures if Last(writes, top, low).Some?
            then i < |writes| && Newest(writes, top, low, i) && Last(writes, top, low) == Some(writes[i].value)
            else forall j: nat :: j < |writes| ==> !Visible(writes, top, low, j)
  {
    i := 0;
    if writes != [] {
      var n := |writes| - 1;
      if Visible(writes, top, low, n) {
        i := n;
      } else {
        i := LastIsNewest(writes[..n], top, low);
        forall j: nat | j < n ensures Visible(writes, top, low, j) == Visible(writes[..n], top, low, j) {
          assert writes[j] == writes[..n][j];
        }
      }
    }
  }

  /** All puts in order, then one get: the reader finds the key if the writer whose id is the key's top byte plus 1
      has put it, and then gets what that writer put last. Puts of the key by others do not count. */
  method PutsThenGet(writes: seq<Write>, top: nat, low: nat, blocks: seq<nat>) returns (found: bool, v: nat)
    requires top < 0x100 && low < 0x100_0000_0000_0000 && |blocks| == |writes|
    requires forall i :: 0 <= i < |writes| ==> 1 <= writes[i].tid <= PARTITIONS
    requires forall i :: 0 <= i < |blocks| ==> blocks[i] != 0
    requires forall i, j :: 0 <= i < j < |blocks| ==> blocks[i] != blocks[j]
    ensures (exists i: nat :: i < |writes| && Visible(writes, top, low, i)) ==> found
    ensures found && top < PARTITIONS ==> exists i: nat :: i < |writes| && Visible(writes, top, low, i)
    ensures forall i: nat :: i < |writes| && Newest(writes, top, low, i) ==> v == writes[i].value
  {
    hide Seen, Key, HasTop;
    var index := new HashIndex();
    var i := 0;
    while i < |writes|
      invariant 0 <= i <= |writes| && index.Valid() && fresh(index) && fresh(index.table)
      invariant top < PARTITIONS ==> index.Lookup(top, Key(top, low)) == Last(writes[..i], top, low)
      invariant forall j :: i <= j < |blocks| ==> blocks[j] !in index.home
    {
      assert writes[..i + 1][..i] == writes[..i];
      index.Put(writes[i].tid, writes[i].key, writes[i].value, blocks[i]);
      i := i + 1;
    }
    assert writes[..i] == writes;
    ghost var newest := LastIsNewest(writes, top, low);
    found, v := index.Get(Key(top, low));
    forall k: nat | k < |writes| && Newest(writes, top, low, k) ensures k == newest {
      assert Visible(writes, top, low, newest) && Visible(writes, top, low, k);
    }
  }
}
