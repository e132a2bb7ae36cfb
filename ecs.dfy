/** The entity-component store as the systems see it. A `VecStorage` is a
    vector indexed by entity id with a presence mask, so a storage is a
    sequence of optional components; a join over two storages visits, in
    ascending entity order, exactly the entities present in both. */
module Ecs {
  import opened Base

  type Storage<T> = seq<Option<T>>

  /** Entity `e` owns a component in both storages. */
  predicate Joined<A, B>(a: Storage<A>, b: Storage<B>, e: int) {
    0 <= e < |a| && e < |b| && a[e].Some? && b[e].Some?
  }

  /** The entity range a join over `a` and `b` scans. */
  function JoinLen<A, B>(a: Storage<A>, b: Storage<B>): (n: nat)
    ensures n <= |a| && n <= |b|
    ensures forall e :: n <= e ==> !Joined(a, b, e)
  {
    if |a| < |b| then |a| else |b|
  }

  /** The joined entities below `k`, in the order the join yields them. */
  function JoinedUpTo<A, B>(a: Storage<A>, b: Storage<B>, k: nat): seq<nat> {
    if k == 0 then []
    else JoinedUpTo(a, b, k - 1) + (if Joined(a, b, k - 1) then [k - 1] else [])
  }

  function Join<A, B>(a: Storage<A>, b: Storage<B>): seq<nat> {
    JoinedUpTo(a, b, JoinLen(a, b))
  }

  /** The join is the inner join in strictly ascending entity order. */
  lemma {:induction false} JoinedUpToIsInnerJoin<A, B>(a: Storage<A>, b: Storage<B>, k: nat)
    ensures forall e :: e in JoinedUpTo(a, b, k) <==> e < k && Joined(a, b, e)
    ensures forall i, j :: 0 <= i < j < |JoinedUpTo(a, b, k)| ==> JoinedUpTo(a, b, k)[i] < JoinedUpTo(a, b, k)[j]
    ensures forall i :: 0 <= i < |JoinedUpTo(a, b, k)| ==> JoinedUpTo(a, b, k)[i] < k
  {
    if k > 0 {
      JoinedUpToIsInnerJoin(a, b, k - 1);
    }
  }

  /** Without joined entities the join is empty. */
  lemma {:induction false} NothingJoined<A, B>(a: Storage<A>, b: Storage<B>, k: nat)
    requires forall e :: 0 <= e < k ==> !Joined(a, b, e)
    ensures JoinedUpTo(a, b, k) == []
  {
    if k > 0 {
      NothingJoined(a, b, k - 1);
    }
  }

  /** How many entities below `k` satisfy `p`. A builder that creates one
      object for each entity it has work for hands entity `e` the handle
      `next + CountBelow(p, e)`. */
  function CountBelow(p: nat -> bool, k: nat): nat {
    if k == 0 then 0
    else CountBelow(p, k - 1) + (if p(k - 1) then 1 else 0)
  }

  /** Counts grow past every counted entity, so handles taken this way
      increase with the entity. */
  lemma {:induction false} CountBelowMonotone(p: nat -> bool, i: nat, j: nat)
    requires i < j && p(i)
    ensures CountBelow(p, i) < CountBelow(p, j)
  {
    if j > i + 1 {
      CountBelowMonotone(p, i, j - 1);
    }
  }

  /** With no entity counted, no handle is taken. */
  lemma {:induction false} NothingCounted(p: nat -> bool, k: nat)
    requires forall e :: 0 <= e < k ==> !p(e)
    ensures CountBelow(p, k) == 0
  {
    if k > 0 {
      NothingCounted(p, k - 1);
    }
  }
}
