/** What the abstract invariant says about the pointer structures themselves. */
module ConcretePlaces {
  import opened Collections
  import opened Types
  import opened NucleusState
  import opened NucleusKernel

  /** Where a block can be. */
  ghost predicate IsFree(k: Kernel, p: Pcb)
    reads k.pcbs
  {
    p in k.pcbs.free
  }

  ghost predicate IsReady(k: Kernel, p: Pcb)
    reads k`st
  {
    p in k.st.pl.ready
  }

  ghost predicate IsBlockedOn(k: Kernel, p: Pcb, a: Addr)
    reads k.asl
  {
    a in k.asl.queues && p in k.asl.queues[a]
  }

  lemma PlacesApart(pl: Places, p: Pcb)
    requires Located(pl) && CurrentOk(pl)
    ensures p !in pl.live ==> p != pl.current && p !in pl.ready && forall a | a in pl.blocked :: p !in pl.blocked[a]
    ensures p in pl.ready ==> p != pl.current
    ensures p in pl.ready || p == pl.current ==> forall a | a in pl.blocked :: p !in pl.blocked[a]
    ensures p in pl.live ==> p in pl.waitsOn
    ensures p in pl.live ==> p == pl.current || p in pl.ready || pl.waitsOn[p] != None
    ensures p in pl.live ==> forall a: Addr :: pl.waitsOn[p] == Some(a) <==> a in pl.blocked && p in pl.blocked[a]
  {
  }

  /**
    Every block of the table is on the free list, or running, or in the ready queue, or in
    one semaphore queue, and never in two of these places. A live block names the semaphore
    in whose queue it is, and no other.
    */
  lemma ExactlyOnePlace(k: Kernel, p: Pcb)
    requires k.Rep() && Inv(k.st) && p in k.cfg.pool
    ensures IsFree(k, p) ==> p != k.currentProcess && !IsReady(k, p) && forall a: Addr :: !IsBlockedOn(k, p, a)
    ensures p == k.currentProcess ==> !IsReady(k, p) && forall a: Addr :: !IsBlockedOn(k, p, a)
    ensures IsReady(k, p) ==> forall a: Addr :: !IsBlockedOn(k, p, a)
    ensures IsFree(k, p) || p == k.currentProcess || IsReady(k, p) || exists a: Addr :: IsBlockedOn(k, p, a)
    ensures !IsFree(k, p) ==> forall a: Addr :: p.semAdd == Some(a) <==> IsBlockedOn(k, p, a)
  {
    hide Located, CurrentOk, Rooted, Kinship, Words, Queued, Domains, Kernel.Rep;
    k.PlacesAre();
    PlacesApart(k.st.pl, p);
    if p in k.st.pl.live && k.st.pl.waitsOn[p] != None {
      assert IsBlockedOn(k, p, k.st.pl.waitsOn[p].value);
    }
  }

  lemma FreeCount(k: Kernel)
    requires k.Rep() && Inv(k.st)
    ensures k.processCount == |k.cfg.pool| - |k.pcbs.free|
  {
    hide Located, CurrentOk, Rooted, Kinship, Words, Queued, Domains, Kernel.Rep, Distinct;
    k.PlacesAre();
    k.Known();
    DistinctSize(k.pcbs.free);
    assert Elements(k.pcbs.free) == k.cfg.pool - k.st.pl.live;
  }

  /** n parent links up from p. */
  ghost function Ancestor(fo: Forest, p: Pcb, n: nat): Pcb? {
    if n == 0 then p
    else var q := Ancestor(fo, p, n - 1); if q == null || q !in fo.parent then null else fo.parent[q]
  }

  lemma {:induction false} AncestorsAreOlder(fo: Forest, p: Pcb, n: nat)
    requires Rooted(fo) && p in fo.parent && Ancestor(fo, p, n) != null
    ensures Ancestor(fo, p, n) in fo.parent && fo.birth[Ancestor(fo, p, n)] + n <= fo.birth[p]
  {
    if n > 0 {
      AncestorsAreOlder(fo, p, n - 1);
    }
  }

  /** Nobody is an ancestor of itself, and every line of ancestors ends. */
  lemma NoCycle(k: Kernel, p: Pcb, n: nat)
    requires k.Rep() && Inv(k.st) && p in k.st.pl.live && n > 0
    ensures Ancestor(k.st.fo, p, n) != p
    ensures n >= k.st.fo.stamp ==> Ancestor(k.st.fo, p, n) == null
  {
    hide Located, CurrentOk, Words, Queued, Kinship, Kernel.Rep, Ancestor;
    if Ancestor(k.st.fo, p, n) != null {
      AncestorsAreOlder(k.st.fo, p, n);
    }
  }
}
