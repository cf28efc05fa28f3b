/**
  The active semaphore list: a singly linked list of descriptors, sorted by semaphore
  address, in which every descriptor owns the queue of processes blocked on its semaphore.
  The abstract value is the field queues, a map from addresses to non-empty sequences of blocks.
  */
module ActiveSemaphores {
  import opened Collections
  import opened Types
  import opened ProcQueue

  /** Key of the second dummy. Addresses of real semaphores are larger, so it is not the tail. */
  const MAXINT: Addr := 0x0FFF_FFFF

  predicate IsDummy(a: Addr) {
    a == 0 || a == MAXINT
  }

  ghost predicate NullChain(first: Semd?, list: seq<Semd>)
    reads list`next
  {
    && Distinct(list)
    && first == (if list == [] then null else list[0])
    && (forall i {:trigger list[i].next} :: 0 <= i < |list| ==>
      list[i].next == if i + 1 < |list| then list[i + 1] else null)
  }

  /** What one active descriptor stands for: its key and the blocks of its queue. */
  datatype Entry = Entry(key: Addr, queue: seq<Pcb>)

  ghost predicate EntryOk(s: Semd, e: Entry)
    reads s`semAdd, s`procQ, e.queue`next, e.queue`prev, e.queue`semAdd
  {
    && s.semAdd == e.key
    && IsProcQ(s.procQ, e.queue)
    && (forall p | p in e.queue :: p.semAdd == Some(e.key))
    && (IsDummy(e.key) ==> e.queue == [])
  }

  /** Every descriptor is as its entry says; the queues hold blocks of the set w only. */
  ghost predicate AllOk(ns: seq<Semd>, es: seq<Entry>, w: set<Pcb>)
    reads ns`semAdd, ns`procQ, w`next, w`prev, w`semAdd
  {
    && |ns| == |es|
    && (forall i, p | 0 <= i < |es| && p in es[i].queue :: p in w)
    && (forall i | 0 <= i < |es| :: EntryOk(ns[i], es[i]))
  }

  lemma AllOkInserted(ns: seq<Semd>, es: seq<Entry>, w: set<Pcb>, k: nat, s: Semd, e: Entry)
    requires AllOk(ns, es, w) && k <= |es| && EntryOk(s, e) && e.queue == []
    ensures AllOk(Inserted(ns, k, s), Inserted(es, k, e), w)
  {
    hide EntryOk;
  }

  lemma AllOkCut(ns: seq<Semd>, es: seq<Entry>, w: set<Pcb>, k: nat)
    requires AllOk(ns, es, w) && k < |es|
    ensures AllOk(Cut(ns, k), Cut(es, k), w)
  {
    hide EntryOk;
  }

  lemma AllOkUpdate(ns: seq<Semd>, es: seq<Entry>, w: set<Pcb>, k: nat, e: Entry)
    requires |ns| == |es| && k < |es| && EntryOk(ns[k], e) && forall p | p in e.queue :: p in w
    requires forall i | 0 <= i < |ns| && i != k :: EntryOk(ns[i], es[i])
    requires forall i, p | 0 <= i < |es| && i != k && p in es[i].queue :: p in w
    ensures AllOk(ns, es[k := e], w)
  {
    hide EntryOk;
  }

  ghost predicate Ascending(es: seq<Entry>) {
    forall i, j :: 0 <= i < j < |es| ==> es[i].key < es[j].key
  }

  method LinkAfter(s: Semd, prev: Semd, curr: Semd?, ghost first: Semd?, ghost list: seq<Semd>, ghost k: nat)
    requires NullChain(first, list) && s !in list && 0 < k <= |list|
    requires prev == list[k - 1] && curr == if k < |list| then list[k] else null
    modifies s`next, prev`next
    ensures NullChain(first, list[..k] + [s] + list[k..])
  {
    s.next := curr;
    prev.next := s;
  }

  method UnlinkAfter(curr: Semd, prev: Semd, ghost first: Semd?, ghost list: seq<Semd>, ghost k: nat)
    requires NullChain(first, list) && 0 < k < |list| && curr == list[k] && prev == list[k - 1]
    modifies prev`next
    ensures NullChain(first, list[..k] + list[k + 1..])
  {
    prev.next := curr.next;
  }

  ghost function Inserted<T>(s: seq<T>, k: nat, x: T): seq<T>
    requires k <= |s|
  {
    s[..k] + [x] + s[k..]
  }

  ghost function Cut<T>(s: seq<T>, k: nat): seq<T>
    requires k < |s|
  {
    s[..k] + s[k + 1..]
  }

  /** The active list begins with the dummy head, is sorted, and keeps the second dummy. */
  ghost predicate Sorted(es: seq<Entry>) {
    es != [] && es[0].key == 0 && Ascending(es) && MAXINT in Keys(es)
  }

  lemma AscendingInserted(es: seq<Entry>, k: nat, e: Entry)
    requires Ascending(es) && k <= |es|
    requires (forall i | 0 <= i < k :: es[i].key < e.key) && (k < |es| ==> e.key < es[k].key)
    ensures Ascending(Inserted(es, k, e))
  {
    assert forall i | k < i < |es| :: es[k].key < es[i].key;
  }

  lemma SortedInserted(es: seq<Entry>, k: nat, e: Entry)
    requires Sorted(es) && 0 < k <= |es|
    requires (forall i | 0 <= i < k :: es[i].key < e.key) && (k < |es| ==> e.key < es[k].key)
    ensures Sorted(Inserted(es, k, e))
  {
    AscendingInserted(es, k, e);
    KeysInserted(es, k, e);
    hide Ascending;
  }

  /** Descriptors that are not dummies have a waiting process. */
  ghost predicate Busy(es: seq<Entry>) {
    forall i | 0 <= i < |es| && es[i].queue == [] :: IsDummy(es[i].key)
  }

  ghost predicate BusyBut(es: seq<Entry>, k: nat) {
    forall i | 0 <= i < |es| && i != k && es[i].queue == [] :: IsDummy(es[i].key)
  }

  lemma BusyInserted(es: seq<Entry>, k: nat, e: Entry)
    requires Busy(es) && k <= |es|
    ensures BusyBut(Inserted(es, k, e), k)
  {
  }

  lemma BusyUpdate(es: seq<Entry>, k: nat, e: Entry)
    requires BusyBut(es, k) && k < |es|
    ensures BusyBut(es[k := e], k)
    ensures e.queue != [] ==> Busy(es[k := e])
  {
  }

  lemma BusyCut(es: seq<Entry>, k: nat)
    requires BusyBut(es, k) && k < |es|
    ensures Busy(Cut(es, k))
  {
  }

  lemma SortedUpdate(es: seq<Entry>, k: nat, e: Entry)
    requires Sorted(es) && k < |es| && e.key == es[k].key
    ensures Sorted(es[k := e])
  {
    KeysUpdate(es, k, e);
  }

  lemma KeysInserted(es: seq<Entry>, k: nat, e: Entry)
    requires k <= |es|
    ensures Keys(es) <= Keys(Inserted(es, k, e))
  {
    var es' := Inserted(es, k, e);
    forall i | 0 <= i < |es| ensures es[i].key in Keys(es') {
      assert es'[if i < k then i else i + 1].key == es[i].key;
    }
  }

  lemma SortedCut(es: seq<Entry>, k: nat)
    requires Sorted(es) && k < |es| && !IsDummy(es[k].key)
    ensures k > 0 && Sorted(Cut(es, k))
  {
    KeysCut(es, k);
  }

  lemma KeysCut(es: seq<Entry>, k: nat)
    requires k < |es|
    ensures Keys(es) <= Keys(Cut(es, k)) + {es[k].key}
  {
    var es' := Cut(es, k);
    forall i | 0 <= i < |es| && i != k ensures es[i].key in Keys(es') {
      assert es'[if i < k then i else i - 1].key == es[i].key;
    }
  }

  ghost function Keys(es: seq<Entry>): (r: set<Addr>)
    ensures forall i | 0 <= i < |es| :: es[i].key in r
    ensures forall a | a in r :: exists i :: 0 <= i < |es| && es[i].key == a
  {
    set i | 0 <= i < |es| :: es[i].key
  }

  /** The queue of a in a map that has no entries for empty queues. */
  ghost function QueueOf(m: map<Addr, seq<Pcb>>, a: Addr): seq<Pcb> {
    if a in m then m[a] else []
  }

  /** m with the queue of a replaced. */
  ghost function WithQueue(m: map<Addr, seq<Pcb>>, a: Addr, q: seq<Pcb>): map<Addr, seq<Pcb>> {
    if q == [] then m - {a} else m[a := q]
  }

  /** The map m gives each key the queue of its entry. */
  ghost predicate Agree(es: seq<Entry>, m: map<Addr, seq<Pcb>>) {
    forall i | 0 <= i < |es| :: QueueOf(m, es[i].key) == es[i].queue
  }

  /** The map m holds non-empty queues of keys that have an entry. */
  ghost predicate Covered(es: seq<Entry>, m: map<Addr, seq<Pcb>>) {
    forall a | a in m :: m[a] != [] && a in Keys(es)
  }

  ghost function Blocks(m: map<Addr, seq<Pcb>>): (r: set<Pcb>)
    ensures forall a, p | a in m && p in m[a] :: p in r
    ensures forall p | p in r :: exists a :: a in m && p in m[a]
  {
    set a, p | a in m && p in m[a] :: p
  }

  /** No block occurs in the queues of two keys. */
  ghost predicate Separate(m: map<Addr, seq<Pcb>>) {
    forall a, b, p | a in m && b in m && p in m[a] && p in m[b] :: a == b
  }

  lemma SeparateUpdate(m: map<Addr, seq<Pcb>>, a: Addr, q: seq<Pcb>)
    requires Separate(m) && forall p | p in q :: p in QueueOf(m, a) || p !in Blocks(m)
    ensures Separate(WithQueue(m, a, q))
  {
  }

  lemma BlocksUpdate(m: map<Addr, seq<Pcb>>, a: Addr, q: seq<Pcb>)
    requires Separate(m)
    ensures Blocks(WithQueue(m, a, q)) == Blocks(m) - Elements(QueueOf(m, a)) + Elements(q)
  {
    var m' := WithQueue(m, a, q);
    forall p | p in Blocks(m) && p !in QueueOf(m, a) ensures p in Blocks(m') {
      var b :| b in m && p in m[b];
      assert b in m' && m'[b] == m[b];
    }
    forall p | p in q ensures p in Blocks(m') {
      assert a in m' && m'[a] == q;
    }
  }

  lemma KeysUpdate(es: seq<Entry>, k: nat, e: Entry)
    requires k < |es| && e.key == es[k].key
    ensures Keys(es[k := e]) == Keys(es)
    ensures Ascending(es) ==> Ascending(es[k := e])
  {
    forall i | 0 <= i < |es| ensures es[i].key in Keys(es[k := e]) {
      assert es[k := e][i].key == es[i].key;
    }
  }

  lemma AgreeUpdate(es: seq<Entry>, m: map<Addr, seq<Pcb>>, k: nat, e: Entry)
    requires Sorted(es) && k < |es| && Agree(es, m) && e.key == es[k].key
    ensures QueueOf(m, e.key) == es[k].queue
    ensures Agree(es[k := e], WithQueue(m, e.key, e.queue))
  {
  }

  lemma CoveredUpdate(es: seq<Entry>, m: map<Addr, seq<Pcb>>, k: nat, e: Entry)
    requires k < |es| && Covered(es, m) && e.key == es[k].key
    ensures Covered(es[k := e], WithQueue(m, e.key, e.queue))
  {
    KeysUpdate(es, k, e);
  }

  lemma AgreeInserted(es: seq<Entry>, m: map<Addr, seq<Pcb>>, k: nat, e: Entry)
    requires Agree(es, m) && k <= |es| && QueueOf(m, e.key) == e.queue
    ensures Agree(Inserted(es, k, e), m)
  {
  }

  lemma CoveredInserted(es: seq<Entry>, m: map<Addr, seq<Pcb>>, k: nat, e: Entry)
    requires Covered(es, m) && k <= |es|
    ensures Covered(Inserted(es, k, e), m)
  {
    KeysInserted(es, k, e);
  }

  lemma AgreeCut(es: seq<Entry>, m: map<Addr, seq<Pcb>>, k: nat)
    requires Agree(es, m) && k < |es|
    ensures Agree(Cut(es, k), m)
  {
  }

  lemma CoveredCut(es: seq<Entry>, m: map<Addr, seq<Pcb>>, k: nat)
    requires Agree(es, m) && Covered(es, m) && k < |es| && es[k].queue == []
    ensures Covered(Cut(es, k), m)
  {
    KeysCut(es, k);
  }

  lemma AscendingSize(es: seq<Entry>)
    requires Ascending(es)
    ensures |Keys(es)| == |es|
  {
    var keys := seq(|es|, i requires 0 <= i < |es| => es[i].key);
    forall a ensures a in Keys(es) <==> a in keys {
      if a in Keys(es) {
        var i :| 0 <= i < |es| && es[i].key == a;
        assert keys[i] == a;
      }
    }
    DistinctSize(keys);
    assert Elements(keys) == Keys(es);
  }

  /** One entry for each key with a queue, and the two dummies. */
  lemma KeysCovered(es: seq<Entry>, m: map<Addr, seq<Pcb>>)
    requires Sorted(es) && Agree(es, m) && Covered(es, m) && Busy(es)
    requires forall i | 0 <= i < |es| && IsDummy(es[i].key) :: es[i].queue == []
    ensures Keys(es) == m.Keys + {0, MAXINT} && m.Keys !! {0, MAXINT}
  {
    forall a | a in Keys(es) ensures a in m || IsDummy(a) {
      var i :| 0 <= i < |es| && es[i].key == a;
      assert es[i].queue == QueueOf(m, a);
    }
    forall a | a in m ensures !IsDummy(a) {
      var i :| 0 <= i < |es| && es[i].key == a;
      assert es[i].queue == QueueOf(m, a);
    }
  }

  /** Queues of different keys are headed by different blocks, so there are at most as many queues as blocks. */
  lemma QueuesAreFew(m: map<Addr, seq<Pcb>>, blocks: set<Pcb>)
    requires Separate(m) && Blocks(m) <= blocks && forall a | a in m :: m[a] != []
    ensures |m| <= |blocks|
  {
    var heads := map a | a in m :: m[a][0];
    forall a | a in m ensures heads[a] in blocks && heads[a] in m[a] {
      assert m[a][0] in m[a] && m[a][0] in Blocks(m);
    }
    InjectiveImageSize(m.Keys, heads, blocks);
  }

  lemma DummyEntries()
    ensures var es := [Entry(0, []), Entry(MAXINT, [])]; Sorted(es) && Agree(es, map[]) && Covered(es, map[])
  {
    var es := [Entry(0, []), Entry(MAXINT, [])];
    assert es[1].key in Keys(es);
  }

  class Asl {
    var head: Semd?
    var freeHead: Semd?
    // the active descriptors, and what each of them stands for
    ghost var nodes: seq<Semd>
    ghost var entries: seq<Entry>
    ghost var spare: seq<Semd>
    // the abstract value, and all blocks that occur in it
    ghost var queues: map<Addr, seq<Pcb>>
    ghost var waiting: set<Pcb>
    // the static table of descriptors
    ghost const table: set<Semd>

    ghost predicate SpareOk()
      reads this`spare, this`freeHead, spare`next
    {
      (freeHead == null <==> spare == []) && NullChain(freeHead, spare)
    }

    ghost predicate ChainOk()
      reads this`nodes, this`head, nodes`next
    {
      NullChain(head, nodes)
    }

    /** Every descriptor of the table is either active or spare. */
    ghost predicate TableOk()
      reads this`nodes, this`spare
    {
      && Elements(nodes) !! Elements(spare)
      && Elements(nodes) + Elements(spare) == table
    }

    ghost predicate EntriesOk()
      reads this`nodes, this`entries, this`waiting, nodes`semAdd, nodes`procQ
      reads waiting`next, waiting`prev, waiting`semAdd
    {
      AllOk(nodes, entries, waiting)
    }

    ghost predicate MapOk()
      reads this`entries, this`queues, this`waiting
    {
      && Sorted(entries) && Agree(entries, queues) && Covered(entries, queues)
      && Separate(queues) && waiting == Blocks(queues)
    }

    /** Everything but: a descriptor that is not a dummy has a waiting process. */
    ghost predicate ListValid()
      reads this, table, waiting`next, waiting`prev, waiting`semAdd
    {
      TableOk() && SpareOk() && ChainOk() && EntriesOk() && MapOk()
    }

    ghost predicate Valid()
      reads this, table, waiting`next, waiting`prev, waiting`semAdd
    {
      ListValid() && Busy(entries)
    }

    /** initASL: frees all maxSemds descriptors of the table, then takes two of them as dummies. */
    constructor (maxSemds: nat)
      requires maxSemds >= 2
      ensures Valid() && queues == map[] && fresh(table) && |table| == maxSemds
    {
      var list := MakeTable(maxSemds);
      table := Elements(list);
      freeHead, spare := null, [];
      head, nodes, entries, queues, waiting := null, [], [], map[], {};
      new;
      DistinctSize(list);
      FreeTable(list);
      MakeDummies();
    }

    method FreeTable(list: seq<Semd>)
      requires SpareOk() && spare == [] && Distinct(list)
      modifies this`freeHead, this`spare, list`next
      ensures SpareOk() && Distinct(spare) && Elements(spare) == Elements(list) && |spare| == |list|
    {
      for i := 0 to |list|
        invariant SpareOk() && |spare| == i
        invariant forall s | s in spare :: s in list[..i]
        invariant forall s | s in list[..i] :: s in spare
      {
        FreeSemd(list[i]);
      }
      assert list[..|list|] == list;
    }

    static method MakeTable(n: nat) returns (list: seq<Semd>)
      ensures |list| == n && Distinct(list) && fresh(list)
    {
      list := [];
      for i := 0 to n
        invariant |list| == i && Distinct(list) && fresh(list)
      {
        var s := new Semd();
        list := list + [s];
      }
    }

    /** The part of initASL that links dummy head and dummy tail. */
    method MakeDummies()
      requires SpareOk() && |spare| >= 2 && Elements(spare) == table && queues == map[] && waiting == {}
      modifies this`head, this`freeHead, this`nodes, this`entries, this`spare, table
      ensures Valid() && queues == map[]
    {
      hide NullChain, EntryOk, Sorted, Agree, Covered;
      var first, second := AllocTwo();
      head := first;
      LinkDummies(first, second);
      nodes := [first, second];
      entries := [Entry(0, []), Entry(MAXINT, [])];
      DummiesValid(first, second);
    }

    lemma DummiesValid(s: Semd, t: Semd)
      requires SpareOk() && s != t && s !in spare && t !in spare && {s, t} + Elements(spare) == table
      requires queues == map[] && waiting == {}
      requires head == s && nodes == [s, t] && entries == [Entry(0, []), Entry(MAXINT, [])]
      requires s.semAdd == 0 && s.procQ == null && s.next == t
      requires t.semAdd == MAXINT && t.procQ == null && t.next == null
      ensures Valid()
    {
      hide Sorted, Agree, Covered;
      DummyEntries();
      assert TableOk();
    }

    method LinkDummies(first: Semd, second: Semd)
      requires SpareOk() && first !in spare && second !in spare && first != second
      modifies first, second
      ensures SpareOk()
      ensures first.semAdd == 0 && first.procQ == null && first.next == second
      ensures second.semAdd == MAXINT && second.procQ == null && second.next == null
    {
      first.semAdd := 0;
      first.procQ := MkEmptyProcQ();
      second.semAdd := MAXINT;
      second.procQ := MkEmptyProcQ();
      first.next := second;
      second.next := null;
    }

    method AllocTwo() returns (s: Semd, t: Semd)
      requires SpareOk() && |spare| >= 2
      modifies this`freeHead, this`spare, spare`next
      ensures SpareOk() && s !in spare && t !in spare && s != t
      ensures {s, t} + Elements(spare) == old(Elements(spare))
    {
      ghost var before := spare;
      var first := AllocSemd();
      var second := AllocSemd();
      s, t := first, second;
      assert before == [s, t] + spare && before[0] == s && before[1] == t;
      assert forall i | 0 <= i < |spare| :: spare[i] == before[i + 2];
    }

    method FreeSemd(s: Semd?)
      requires SpareOk() && s !in spare
      modifies this`freeHead, this`spare, (if s == null then {} else {s})`next
      ensures SpareOk() && spare == if s == null then old(spare) else [s] + old(spare)
    {
      if s == null {
        return;
      }
      if freeHead == null {
        s.next := null;
      } else {
        s.next := freeHead;
      }
      freeHead := s;
      spare := [s] + spare;
    }

    method AllocSemd() returns (s: Semd?)
      requires SpareOk()
      modifies this`freeHead, this`spare, spare`next
      ensures SpareOk()
      ensures old(spare) == [] ==> s == null && spare == []
      ensures old(spare) != [] ==> s == old(spare[0]) && s.next == null && spare == old(spare)[1..]
    {
      if freeHead == null {
        return null;
      }
      s := freeHead;
      freeHead := s.next;
      s.next := null;
      spare := spare[1..];
    }

    /** Where a search for key a ends: at index k, behind all smaller keys and before the rest. */
    ghost predicate EndsAt(a: Addr, prev: Semd?, curr: Semd?, k: nat)
      reads this`nodes, this`entries
    {
      && k <= |nodes| == |entries|
      && (forall i :: 0 <= i < k ==> entries[i].key < a)
      && (k < |entries| ==> entries[k].key >= a)
      && curr == (if k < |nodes| then nodes[k] else null)
      && prev == (if k > 0 then nodes[k - 1] else null)
    }

    method GetSemd(a: Addr) returns (curr: Semd?, prev: Semd?, ghost k: nat)
      requires ChainOk() && EntriesOk()
      ensures EndsAt(a, prev, curr, k)
      ensures curr != null ==> curr.semAdd >= a
      ensures prev != null ==> prev.semAdd < a && prev.next == curr
      ensures prev == null ==> curr == head
    {
      curr, prev, k := head, null, 0;
      while curr != null && curr.semAdd < a
        invariant k <= |nodes| && forall i :: 0 <= i < k ==> entries[i].key < a
        invariant curr == (if k < |nodes| then nodes[k] else null)
        invariant prev == (if k > 0 then nodes[k - 1] else null)
        invariant prev != null ==> prev.semAdd < a && prev.next == curr
        invariant prev == null ==> curr == head
        decreases |nodes| - k
      {
        assert EntryOk(nodes[k], entries[k]);
        prev := curr;
        curr := curr.next;
        k := k + 1;
      }
      assert k < |nodes| ==> EntryOk(nodes[k], entries[k]);
    }

    /** Where no descriptor has key a, the search ends behind the dummy head and a has no queue. */
    lemma Absent(a: Addr, prev: Semd?, curr: Semd?, k: nat)
      requires MapOk() && EndsAt(a, prev, curr, k) && a != 0
      requires k < |entries| ==> entries[k].key != a
      ensures k > 0 && prev == nodes[k - 1] && a !in queues
    {
      assert forall i | k < i < |entries| :: entries[k].key < entries[i].key;
    }

    /** AllocSemd and the initialisation of the descriptor in InsertBlocked. */
    method NewSemd(a: Addr) returns (s: Semd)
      requires TableOk() && SpareOk() && ChainOk() && EntriesOk() && spare != []
      modifies this`freeHead, this`spare, spare
      ensures SpareOk() && ChainOk() && EntriesOk()
      ensures s == old(spare[0]) && spare == old(spare)[1..] && s.semAdd == a && s.procQ == null
    {
      hide AllOk, NullChain;
      assert forall x | x in nodes :: x in Elements(nodes) && x !in spare;
      assert spare[0] in spare;
      var first := AllocSemd();
      assert forall x | x in nodes :: x.next == old(x.next);
      s := first;
      s.semAdd := a;
      s.procQ := MkEmptyProcQ();
    }

    /** Takes a descriptor for a and links it between prev and curr. */
    method LinkNew(a: Addr, prev: Semd, curr: Semd?, ghost k: nat) returns (s: Semd)
      requires TableOk() && SpareOk() && ChainOk() && EntriesOk() && spare != []
      requires 0 < k <= |nodes| && prev == nodes[k - 1] && curr == if k < |nodes| then nodes[k] else null
      modifies this`freeHead, this`spare, table
      ensures SpareOk() && NullChain(head, Inserted(nodes, k, s)) && EntriesOk()
      ensures s == old(spare[0]) && spare == old(spare)[1..] && s.semAdd == a && s.procQ == null
    {
      hide NullChain, AllOk;
      TableInserted(freeHead, nodes, spare, table, k);
      assert forall x | x in spare :: x in Elements(spare) && x !in nodes;
      s := NewSemd(a);
      assert nodes[k - 1] in nodes && Inserted(nodes, k, s)[k] == s;
      assert forall x | x in spare :: x in Elements(spare) && x != s && x != prev;
      LinkAfter(s, prev, curr, head, nodes, k);
    }

    /** The branch of InsertBlocked that puts a new descriptor, with an empty queue, between prev and curr. */
    method AddDescriptor(a: Addr, prev: Semd?, curr: Semd?, ghost k: nat) returns (s: Semd)
      requires ListValid() && !IsDummy(a) && EndsAt(a, prev, curr, k) && spare != []
      requires k < |entries| ==> entries[k].key != a
      modifies this`freeHead, this`spare, this`nodes, this`entries, table
      ensures ListValid()
      ensures entries == Inserted(old(entries), k, Entry(a, [])) && nodes == Inserted(old(nodes), k, s)
    {
      hide NullChain, AllOk, Sorted, Agree, Covered;
      Absent(a, prev, curr, k);
      SortedInserted(entries, k, Entry(a, []));
      AgreeInserted(entries, queues, k, Entry(a, []));
      CoveredInserted(entries, queues, k, Entry(a, []));
      TableInserted(freeHead, nodes, spare, table, k);
      s := LinkNew(a, prev, curr, k);
      AllOkInserted(nodes, entries, waiting, k, s, Entry(a, []));
      nodes := Inserted(nodes, k, s);
      entries := Inserted(entries, k, Entry(a, []));
    }

    /** A block waits in at most one queue. */
    lemma QueuesApart(k: nat)
      requires MapOk() && k < |entries|
      ensures forall i, x | 0 <= i < |entries| && i != k && x in entries[i].queue :: x !in entries[k].queue
    {
      forall i, x | 0 <= i < |entries| && i != k && x in entries[i].queue ensures x !in entries[k].queue {
        assert entries[i].key != entries[k].key;
        assert x in QueueOf(queues, entries[i].key);
        assert QueueOf(queues, entries[k].key) == entries[k].queue;
      }
    }

    lemma NodesApart(k: nat)
      requires ChainOk() && k < |nodes|
      ensures forall i | 0 <= i < |nodes| && i != k :: nodes[i] != nodes[k]
    {
    }

    /** Descriptors other than number k are as their entries say. */
    ghost predicate OthersOk(k: nat)
      reads this`nodes, this`entries, nodes`semAdd, nodes`procQ
      reads this`waiting, waiting`next, waiting`prev, waiting`semAdd
    {
      && |nodes| == |entries|
      && (forall i, p | 0 <= i < |entries| && p in entries[i].queue :: p in waiting)
      && (forall i | 0 <= i < |nodes| && i != k :: EntryOk(nodes[i], entries[i]))
    }

    /** InsertAt for descriptor number k: no other descriptor is disturbed. */
    method InsertAtIndex(curr: Semd, p: Pcb, ghost k: nat)
      requires EntriesOk() && ChainOk() && MapOk()
      requires k < |nodes| && nodes[k] == curr && p !in waiting && !IsDummy(entries[k].key)
      modifies curr`procQ, waiting`next, waiting`prev, p`next, p`prev, p`semAdd
      ensures OthersOk(k) && EntryOk(curr, Entry(entries[k].key, entries[k].queue + [p]))
      ensures p.semAdd == Some(entries[k].key)
    {
      hide EntryOk, NullChain, Sorted, Agree, Covered, Separate;
      QueuesApart(k);
      NodesApart(k);
      InsertAt(curr, p, entries[k]);
      assert forall x | x in waiting && x !in entries[k].queue ::
        x.next == old(x.next) && x.prev == old(x.prev) && x.semAdd == old(x.semAdd);
      forall i | 0 <= i < |nodes| && i != k ensures EntryOk(nodes[i], entries[i]) {
        assert forall x | x in entries[i].queue ::
          x.next == old(x.next) && x.prev == old(x.prev) && x.semAdd == old(x.semAdd);
      }
    }

    /** RemoveAt for descriptor number k. */
    method RemoveAtIndex(curr: Semd, ghost k: nat) returns (removed: Pcb)
      requires EntriesOk() && ChainOk() && MapOk()
      requires k < |nodes| && nodes[k] == curr && entries[k].queue != []
      modifies curr`procQ, waiting`next, waiting`prev, waiting`semAdd
      ensures removed == entries[k].queue[0] && removed.semAdd == None
      ensures OthersOk(k) && EntryOk(curr, Entry(entries[k].key, entries[k].queue[1..]))
      ensures forall x | x in waiting && x != removed :: x.semAdd == old(x.semAdd)
    {
      hide EntryOk, NullChain, Sorted, Agree, Covered, Separate;
      QueuesApart(k);
      NodesApart(k);
      assert entries[k].queue[0] in waiting;
      var first := RemoveAt(curr, entries[k]);
      removed := first;
      assert forall x | x in waiting && x !in entries[k].queue ::
        x.next == old(x.next) && x.prev == old(x.prev) && x.semAdd == old(x.semAdd);
      forall i | 0 <= i < |nodes| && i != k ensures EntryOk(nodes[i], entries[i]) {
        assert forall x | x in entries[i].queue ::
          x.next == old(x.next) && x.prev == old(x.prev) && x.semAdd == old(x.semAdd);
      }
    }

    /** OutAt for descriptor number k. */
    method OutAtIndex(curr: Semd, p: Pcb, ghost k: nat) returns (removed: Pcb?)
      requires EntriesOk() && ChainOk() && MapOk() && k < |nodes| && nodes[k] == curr
      modifies curr`procQ, waiting`next, waiting`prev
      ensures OthersOk(k)
      ensures p in entries[k].queue ==>
        removed == p && EntryOk(curr, Entry(entries[k].key, Minus(entries[k].queue, {p})))
      ensures p !in entries[k].queue ==> removed == null && EntryOk(curr, entries[k])
    {
      hide EntryOk, NullChain, Sorted, Agree, Covered, Separate;
      QueuesApart(k);
      NodesApart(k);
      removed := OutAt(curr, p, entries[k]);
      assert forall x | x in waiting && x !in entries[k].queue ::
        x.next == old(x.next) && x.prev == old(x.prev) && x.semAdd == old(x.semAdd);
      forall i | 0 <= i < |nodes| && i != k ensures EntryOk(nodes[i], entries[i]) {
        assert forall x | x in entries[i].queue ::
          x.next == old(x.next) && x.prev == old(x.prev) && x.semAdd == old(x.semAdd);
      }
    }

    /** Records the new queue q of descriptor number k, once the pointers are in place. */
    ghost method Commit(k: nat, q: seq<Pcb>)
      requires TableOk() && SpareOk() && ChainOk() && MapOk() && k < |nodes| && OthersOk(k)
      requires !IsDummy(entries[k].key) && EntryOk(nodes[k], Entry(entries[k].key, q))
      requires forall p | p in q :: p in entries[k].queue || p !in waiting
      modifies this`entries, this`queues, this`waiting
      ensures ListValid() && entries == old(entries)[k := Entry(old(entries)[k].key, q)]
      ensures queues == WithQueue(old(queues), old(entries)[k].key, q)
      ensures waiting == old(waiting) - Elements(old(entries)[k].queue) + Elements(q)
    {
      hide EntryOk, NullChain, Sorted, Agree, Covered, Separate, Blocks;
      var e := Entry(entries[k].key, q);
      QueuesApart(k);
      SortedUpdate(entries, k, e);
      AgreeUpdate(entries, queues, k, e);
      CoveredUpdate(entries, queues, k, e);
      SeparateUpdate(queues, e.key, q);
      BlocksUpdate(queues, e.key, q);
      var w := waiting - Elements(entries[k].queue) + Elements(q);
      AllOkUpdate(nodes, entries, w, k, e);
      queues := WithQueue(queues, e.key, q);
      entries := entries[k := e];
      waiting := w;
    }

    /** The last step of RemoveBlocked and OutBlocked: a descriptor with an empty queue is unlinked and freed. */
    method DropDescriptor(prev: Semd?, curr: Semd, ghost k: nat)
      requires ListValid() && k < |nodes| == |entries| && curr == nodes[k]
      requires !IsDummy(entries[k].key) && entries[k].queue == []
      requires prev == if k > 0 then nodes[k - 1] else null
      modifies this`freeHead, this`spare, this`nodes, this`entries, table
      ensures ListValid() && entries == Cut(old(entries), k)
    {
      hide NullChain, AllOk, Sorted, Agree, Covered, Separate;
      SortedCut(entries, k);
      AgreeCut(entries, queues, k);
      CoveredCut(entries, queues, k);
      AllOkCut(nodes, entries, waiting, k);
      TableCut(head, nodes, spare, table, k);
      UnlinkAndFree(prev, curr, k);
      entries := Cut(entries, k);
    }

    method UnlinkAndFree(prev: Semd?, curr: Semd, ghost k: nat)
      requires TableOk() && ChainOk() && SpareOk() && 0 < k < |nodes| && curr == nodes[k] && prev == nodes[k - 1]
      modifies this`freeHead, this`spare, this`nodes, table`next
      ensures ChainOk() && SpareOk() && nodes == Cut(old(nodes), k) && spare == [curr] + old(spare)
    {
      hide NullChain;
      assert curr in Elements(nodes) && prev in Elements(nodes);
      TableCut(head, nodes, spare, table, k);
      if prev != null {
        UnlinkAfter(curr, prev, head, nodes, k);
      }
      nodes := Cut(nodes, k);
      FreeSemd(curr);
    }

    lemma ChainSize(first: Semd?, list: seq<Semd>)
      requires NullChain(first, list)
      ensures |Elements(list)| == |list|
    {
      DistinctSize(list);
    }

    lemma EntriesFacts()
      requires EntriesOk()
      ensures |nodes| == |entries|
      ensures forall i | 0 <= i < |entries| && IsDummy(entries[i].key) :: entries[i].queue == []
    {
      assert forall i | 0 <= i < |entries| :: EntryOk(nodes[i], entries[i]);
    }

    lemma MapFacts()
      requires Valid()
      ensures Separate(queues) && waiting == Blocks(queues) && forall a | a in queues :: queues[a] != []
    {
    }

    /** No descriptor is ever lost: those without a queue to keep, other than the dummies, are free. */
    lemma DescriptorsConserved()
      requires Valid()
      ensures |spare| + |queues| + 2 == |table|
    {
      hide NullChain, AllOk, EntryOk, Agree, Covered, Separate, Ascending, Busy;
      EntriesFacts();
      ChainSize(head, nodes);
      ChainSize(freeHead, spare);
      AscendingSize(entries);
      KeysCovered(entries, queues);
      var dummies: set<Addr> := {0, MAXINT};
      assert |queues.Keys + dummies| == |queues.Keys| + 2;
      assert |Elements(nodes) + Elements(spare)| == |nodes| + |spare|;
    }

    /** As long as the table has more descriptors than blocks that may wait, and two, one is free. */
    lemma NeverFull(blocks: set<Pcb>)
      requires Valid() && waiting <= blocks && |blocks| + 2 < |table|
      ensures spare != []
    {
      hide Valid, Separate, Blocks;
      DescriptorsConserved();
      MapFacts();
      QueuesAreFew(queues, blocks);
    }

    /** What it means for the search to have found a descriptor for a, or not. */
    lemma SearchResult(a: Addr, prev: Semd?, curr: Semd?, k: nat)
      requires Valid() && EndsAt(a, prev, curr, k)
      ensures curr != null && curr.semAdd == a ==>
        k < |entries| && entries[k].key == a && QueueOf(queues, a) == entries[k].queue
      ensures curr != null && curr.semAdd == a ==> (a in queues <==> !IsDummy(a))
      ensures curr == null || curr.semAdd != a ==> a !in queues && (k < |entries| ==> entries[k].key != a)
    {
      if k < |entries| {
        assert EntryOk(nodes[k], entries[k]);
        assert QueueOf(queues, entries[k].key) == entries[k].queue;
      }
      if k == |entries| || entries[k].key != a {
        Absent(a, prev, curr, k);
      }
    }

    method InsertBlocked(a: Addr, p: Pcb) returns (full: bool)
      requires Valid() && !IsDummy(a) && p !in waiting
      modifies this, table, waiting`next, waiting`prev, p`next, p`prev, p`semAdd
      ensures Valid()
      ensures full <==> a !in old(queues) && old(spare) == []
      ensures full ==> queues == old(queues) && waiting == old(waiting) && unchanged(p)
      ensures !full ==> queues == WithQueue(old(queues), a, QueueOf(old(queues), a) + [p])
      ensures !full ==> waiting == old(waiting) + {p} && p.semAdd == Some(a)
    {
      hide NullChain, AllOk, EntryOk, Sorted, Agree, Covered, Separate;
      var curr, prev, k := GetSemd(a);
      SearchResult(a, prev, curr, k);
      if curr == null || curr.semAdd != a {
        if freeHead == null {
          return true;
        }
        BusyInserted(entries, k, Entry(a, []));
        curr := AddDescriptor(a, prev, curr, k);
      }
      AppendTo(curr, p, k);
      full := false;
    }

    /** The common end of both branches of InsertBlocked: p joins the queue of descriptor number k. */
    method AppendTo(curr: Semd, p: Pcb, ghost k: nat)
      requires ListValid() && k < |nodes| == |entries| && nodes[k] == curr && BusyBut(entries, k)
      requires p !in waiting && !IsDummy(entries[k].key)
      modifies this`entries, this`queues, this`waiting, curr`procQ
      modifies waiting`next, waiting`prev, p`next, p`prev, p`semAdd
      ensures Valid() && p.semAdd == Some(old(entries)[k].key)
      ensures queues == WithQueue(old(queues), old(entries)[k].key, old(entries)[k].queue + [p])
      ensures waiting == old(waiting) + {p}
    {
      hide NullChain, AllOk, EntryOk, Sorted, Agree, Covered, Separate;
      EntriesInWaiting(k);
      BusyUpdate(entries, k, Entry(entries[k].key, entries[k].queue + [p]));
      InsertAtIndex(curr, p, k);
      Commit(k, entries[k].queue + [p]);
    }

    lemma EntriesInWaiting(k: nat)
      requires EntriesOk() && k < |entries|
      ensures Elements(entries[k].queue) <= waiting
    {
    }

    method RemoveBlocked(a: Addr) returns (removed: Pcb?)
      requires Valid() && !IsDummy(a)
      modifies this, table, waiting`next, waiting`prev, waiting`semAdd
      ensures Valid()
      ensures a !in old(queues) ==> removed == null && queues == old(queues) && waiting == old(waiting)
      ensures a in old(queues) ==>
        && removed == old(queues)[a][0] && removed.semAdd == None
        && queues == WithQueue(old(queues), a, old(queues)[a][1..])
      ensures forall x | x in old(waiting) && x != removed :: x.semAdd == old(x.semAdd)
      ensures waiting <= old(waiting)
    {
      hide NullChain, AllOk, EntryOk, Sorted, Agree, Covered, Separate;
      var curr, prev, k := GetSemd(a);
      SearchResult(a, prev, curr, k);
      if curr == null || curr.semAdd != a {
        return null;
      }
      BusyUpdate(entries, k, Entry(a, entries[k].queue[1..]));
      var first := RemoveAtIndex(curr, k);
      removed := first;
      Commit(k, entries[k].queue[1..]);
      DropIfEmpty(prev, curr, k);
    }

    method OutBlocked(p: Pcb?) returns (removed: Pcb?)
      requires Valid()
      modifies this, table, waiting`next, waiting`prev
      ensures Valid()
      ensures p == null || p.semAdd == None || p !in QueueOf(old(queues), p.semAdd.value) ==>
        removed == null && queues == old(queues) && waiting == old(waiting)
      ensures p != null && p.semAdd != None && p in QueueOf(old(queues), p.semAdd.value) ==>
        && removed == p
        && queues == WithQueue(old(queues), p.semAdd.value, Minus<Pcb>(old(queues)[p.semAdd.value], {p}))
      ensures waiting <= old(waiting)
    {
      hide NullChain, AllOk, EntryOk, Sorted, Agree, Covered, Separate;
      if p == null || p.semAdd == None {
        return null;
      }
      var a := p.semAdd.value;
      var curr, prev, k := GetSemd(a);
      SearchResult(a, prev, curr, k);
      if curr == null || curr.semAdd != a {
        return null;
      }
      ghost var q := if p in entries[k].queue then Minus<Pcb>(entries[k].queue, {p}) else entries[k].queue;
      BusyUpdate(entries, k, Entry(a, q));
      removed := OutAtIndex(curr, p, k);
      if removed == null {
        SameEntry(k);
        return;
      }
      Commit(k, q);
      DropIfEmpty(prev, curr, k);
    }

    /** The queue of descriptor number k turns out to be as it was. */
    lemma SameEntry(k: nat)
      requires OthersOk(k) && k < |nodes| && EntryOk(nodes[k], entries[k])
      ensures EntriesOk()
    {
      hide EntryOk;
      AllOkUpdate(nodes, entries, waiting, k, entries[k]);
      assert entries[k := entries[k]] == entries;
    }

    /** The test at the end of RemoveBlocked and OutBlocked. */
    method DropIfEmpty(prev: Semd?, curr: Semd, ghost k: nat)
      requires ListValid() && BusyBut(entries, k) && k < |nodes| == |entries| && curr == nodes[k]
      requires !IsDummy(entries[k].key) && prev == if k > 0 then nodes[k - 1] else null
      modifies this`freeHead, this`spare, this`nodes, this`entries, table
      ensures Valid()
    {
      assert EntryOk(curr, entries[k]);
      var empty := EmptyProcQ(curr.procQ, entries[k].queue);
      if empty {
        BusyCut(entries, k);
        DropDescriptor(prev, curr, k);
      }
    }

    method HeadBlocked(a: Addr) returns (p: Pcb?)
      requires Valid()
      ensures p == if a in queues then queues[a][0] else null
    {
      var curr, prev, k := GetSemd(a);
      SearchResult(a, prev, curr, k);
      if curr == null || curr.semAdd != a {
        return null;
      }
      assert EntryOk(curr, entries[k]);
      p := HeadProcQ(curr.procQ, entries[k].queue);
    }
  }

  /** What InsertBlocked does to the block and to the queue of its descriptor. */
  method InsertAt(curr: Semd, p: Pcb, ghost e: Entry)
    requires EntryOk(curr, e) && p !in e.queue && !IsDummy(e.key)
    modifies curr`procQ, e.queue`next, e.queue`prev, p`next, p`prev, p`semAdd
    ensures EntryOk(curr, Entry(e.key, e.queue + [p])) && p.semAdd == Some(e.key)
  {
    p.semAdd := Some(curr.semAdd);
    curr.procQ := InsertProcQ(curr.procQ, p, e.queue);
  }

  /** What RemoveBlocked does to the queue of the descriptor and to its first block. */
  method RemoveAt(curr: Semd, ghost e: Entry) returns (removed: Pcb?)
    requires EntryOk(curr, e)
    modifies curr`procQ, e.queue`next, e.queue`prev, e.queue`semAdd
    ensures e.queue == [] ==> removed == null && EntryOk(curr, e)
    ensures e.queue != [] ==>
      removed == e.queue[0] && EntryOk(curr, Entry(e.key, e.queue[1..])) && removed.semAdd == None
    ensures forall x | x in e.queue && x != removed :: x.semAdd == old(x.semAdd)
  {
    curr.procQ, removed := RemoveProcQ(curr.procQ, e.queue);
    if removed != null {
      removed.semAdd := None;
    }
  }

  /** What OutBlocked does to the queue of the descriptor. */
  method OutAt(curr: Semd, p: Pcb, ghost e: Entry) returns (removed: Pcb?)
    requires EntryOk(curr, e)
    modifies curr`procQ, e.queue`next, e.queue`prev
    ensures p in e.queue ==> removed == p && EntryOk(curr, Entry(e.key, Minus(e.queue, {p})))
    ensures p !in e.queue ==> removed == null && EntryOk(curr, e)
  {
    curr.procQ, removed := OutProcQ(curr.procQ, p, e.queue);
  }

  lemma TableInserted(first: Semd?, nodes: seq<Semd>, spare: seq<Semd>, table: set<Semd>, k: nat)
    requires Elements(nodes) !! Elements(spare) && Elements(nodes) + Elements(spare) == table
    requires NullChain(first, spare) && spare != [] && k <= |nodes|
    ensures var nodes' := Inserted(nodes, k, spare[0]);
      Elements(nodes') !! Elements(spare[1..]) && Elements(nodes') + Elements(spare[1..]) == table
  {
    var s, nodes' := spare[0], Inserted(nodes, k, spare[0]);
    assert spare == [s] + spare[1..];
    assert nodes == nodes[..k] + nodes[k..];
    assert Elements(nodes') == Elements(nodes) + {s};
    assert Elements(spare[1..]) == Elements(spare) - {s};
  }

  lemma TableCut(first: Semd?, nodes: seq<Semd>, spare: seq<Semd>, table: set<Semd>, k: nat)
    requires Elements(nodes) !! Elements(spare) && Elements(nodes) + Elements(spare) == table
    requires NullChain(first, nodes) && k < |nodes|
    ensures var nodes', spare' := Cut(nodes, k), [nodes[k]] + spare;
      Elements(nodes') !! Elements(spare') && Elements(nodes') + Elements(spare') == table
  {
    var s := nodes[k];
    assert Elements(Cut(nodes, k)) == Elements(nodes) - {s};
    assert Elements([s] + spare) == Elements(spare) + {s};
  }
}
