/**
 * `core::Pool` (molten-core/src/pool.h, pool.cpp): a fixed-capacity pool of
 * slot indices kept as a stack of free indices. A pool of `size` slots hands
 * out 1 .. size-1; index 0 is the "exhausted / invalid" sentinel.
 *
 * The pure functions over PoolState say what each operation does to the
 * three fields; the class Pool updates its fields in place and is proved to
 * agree with them. The lemmas state the stack discipline and the invariant
 * that no live index is handed out twice.
 */
module CorePool {
  import opened Uint

  /** The three fields of `core::Pool`. */
  datatype PoolState = PoolState(freeQueue: seq<u32>, queueTop: u32, size: u32)

  /** A default-constructed pool: an empty queue, `queue_top = 0`, `size = 0`. */
  const DEFAULT_POOL := PoolState([], 0, 0)

  /** The indices a pool of `size` slots may hand out. */
  function Slots(size: nat): (slots: set<int>)
    ensures forall i :: i in slots <==> 1 <= i < size
  {
    if size <= 1 then {} else Slots(size - 1) + {size - 1}
  }

  /**
   * Memory safety of the stack: the queue has `size` entries, the top lies
   * inside it, and every entry below the top is a slot index, so the
   * assertion in `alloc_index` holds.
   */
  ghost predicate Safe(s: PoolState)
  {
    && |s.freeQueue| == s.size
    && s.queueTop <= s.size
    && forall k :: 0 <= k < s.queueTop ==> 0 < s.freeQueue[k] < s.size
  }

  /** The free indices: the entries of the queue below the top. */
  function FreeSet(s: PoolState): set<int>
    requires s.queueTop <= |s.freeQueue|
  {
    set k | 0 <= k < s.queueTop :: s.freeQueue[k] as int
  }

  ghost predicate Distinct(q: seq<u32>)
  {
    forall i, j :: 0 <= i < j < |q| ==> q[i] != q[j]
  }

  /**
   * The pool invariant, given the set of live (handed out, not yet freed)
   * indices: the free indices are distinct, none of them is live, and
   * together with the live ones they are exactly the slots 1 .. size-1.
   */
  ghost predicate Partition(s: PoolState, live: set<int>)
  {
    && Safe(s)
    && Distinct(s.freeQueue[..s.queueTop])
    && FreeSet(s) !! live
    && FreeSet(s) + live == Slots(s.size)
  }

  /**
   * `init(n)`: the queue holds n-1, n-2, …, 1, 0 from the bottom up, and the
   * top sits below the 0, computed as the `uint32_t` `n - 1`.
   */
  function InitState(poolSize: u32): (s: PoolState)
    ensures s.size == poolSize
    ensures poolSize >= 1 ==> Safe(s) && s.queueTop == poolSize - 1
    ensures poolSize == 0 ==> s.queueTop == U32_MODULUS - 1 && !Safe(s)
  {
    PoolState(seq(poolSize, k requires 0 <= k < poolSize => poolSize - 1 - k), Dec32(poolSize), poolSize)
  }

  /** `alloc_index`: pops the top of the free stack, or gives the sentinel 0 when it is empty. */
  function Alloc(s: PoolState): (r: (PoolState, u32))
    requires Safe(s)
    ensures Safe(r.0)
    ensures r.1 == 0 <==> s.queueTop == 0
    ensures r.1 == 0 ==> r.0 == s
    ensures r.1 != 0 ==> 0 < r.1 < s.size && r.0.queueTop == s.queueTop - 1 && r.1 == s.freeQueue[r.0.queueTop]
    ensures r.0.freeQueue == s.freeQueue && r.0.size == s.size
  {
    if s.queueTop > 0 then
      var top := s.queueTop - 1;
      (s.(queueTop := top), s.freeQueue[top])
    else
      (s, 0)
  }

  /**
   * `free_index(i)`: pushes i onto the free stack. The source asserts
   * `0 < i < size`; writing `free_queue[queue_top]` needs `queue_top < size`.
   */
  function Free(s: PoolState, slotIndex: u32): (r: PoolState)
    requires Safe(s)
    requires 0 < slotIndex < s.size
    requires s.queueTop < s.size
    ensures Safe(r)
    ensures r.queueTop == s.queueTop + 1 && r.size == s.size
    ensures r.freeQueue[s.queueTop] == slotIndex
    ensures forall k :: 0 <= k < |s.freeQueue| && k != s.queueTop ==> r.freeQueue[k] == s.freeQueue[k]
  {
    PoolState(s.freeQueue[s.queueTop := slotIndex], s.queueTop + 1, s.size)
  }

  /** LIFO: an index just freed is the next one allocated, and the stack is back at its old height. */
  lemma FreeThenAlloc(s: PoolState, slotIndex: u32)
    requires Safe(s) && 0 < slotIndex < s.size && s.queueTop < s.size
    ensures Alloc(Free(s, slotIndex)).1 == slotIndex
    ensures Alloc(Free(s, slotIndex)).0 == s.(freeQueue := s.freeQueue[s.queueTop := slotIndex])
  {
  }

  /** `k` successive `alloc_index` calls: the final state and the indices returned, in order. */
  function AllocMany(s: PoolState, k: nat): (r: (PoolState, seq<u32>))
    requires Safe(s)
    ensures Safe(r.0) && |r.1| == k
    ensures r.0.size == s.size && r.0.freeQueue == s.freeQueue
  {
    if k == 0 then (s, [])
    else
      var prev := AllocMany(s, k - 1);
      var next := Alloc(prev.0);
      (next.0, prev.1 + [next.1])
  }

  /** The indices 1, 2, …, k in increasing order. */
  function Ascending(k: nat): (r: seq<u32>)
    requires k < U32_MODULUS
    ensures |r| == k && forall i :: 0 <= i < k ==> r[i] == i + 1
  {
    if k == 0 then [] else Ascending(k - 1) + [k]
  }

  /** After `init(n)`, the first k allocations return 1, 2, …, k, in that order. */
  lemma {:induction false} InitThenAllocInOrder(n: u32, k: nat)
    requires 1 <= n && k <= n - 1
    ensures AllocMany(InitState(n), k).1 == Ascending(k)
    ensures AllocMany(InitState(n), k).0.queueTop == n - 1 - k
  {
    if k > 0 {
      InitThenAllocInOrder(n, k - 1);
      var prev := AllocMany(InitState(n), k - 1);
      assert prev.0.freeQueue == InitState(n).freeQueue;
      assert prev.0.freeQueue[n - 1 - k] == k;
    }
  }

  /** After `init(n)`, every index 1 .. n-1 has been handed out once and the next allocation gives 0. */
  lemma InitExhaustsAfterAll(n: u32)
    requires 1 <= n
    ensures Alloc(AllocMany(InitState(n), n - 1).0).1 == 0
  {
    InitThenAllocInOrder(n, n - 1);
  }

  /** The slot set of a freshly initialised pool is its whole free stack. */
  lemma InitPartition(n: u32)
    requires 1 <= n
    ensures Partition(InitState(n), {})
  {
    var s := InitState(n);
    forall i | i in Slots(n) ensures i in FreeSet(s) {
      assert s.freeQueue[n - 1 - i] == i;
    }
  }

  /** A distinct sequence has as many elements in its set as in itself. */
  lemma {:induction false} DistinctCard(q: seq<u32>)
    requires Distinct(q)
    ensures |set k | 0 <= k < |q| :: q[k] as int| == |q|
  {
    if q != [] {
      var p := q[..|q| - 1];
      DistinctCard(p);
      var sq := set k | 0 <= k < |q| :: q[k] as int;
      var sp := set k | 0 <= k < |p| :: p[k] as int;
      assert sq == sp + {q[|q| - 1] as int};
      assert q[|q| - 1] as int !in sp;
    }
  }

  lemma {:induction false} SlotsCard(n: nat)
    ensures |Slots(n)| == if n == 0 then 0 else n - 1
  {
    if n > 1 {
      SlotsCard(n - 1);
    }
  }

  /** Free and live indices always add up to size-1, so at most size-1 indices are live. */
  lemma LiveCount(s: PoolState, live: set<int>)
    requires Partition(s, live)
    ensures s.size == 0 ==> live == {} && s.queueTop == 0
    ensures s.size >= 1 ==> |live| + s.queueTop == s.size - 1
  {
    var q := s.freeQueue[..s.queueTop];
    DistinctCard(q);
    assert (set k | 0 <= k < |q| :: q[k] as int) == FreeSet(s);
    SlotsCard(s.size);
  }

  /** A successful allocation hands out an index that is not live, and the invariant carries over. */
  lemma AllocKeepsPartition(s: PoolState, live: set<int>)
    requires Partition(s, live)
    ensures Alloc(s).1 != 0 ==> Alloc(s).1 !in live && Partition(Alloc(s).0, live + {Alloc(s).1 as int})
    ensures Alloc(s).1 == 0 ==> Partition(Alloc(s).0, live)
  {
    var r := Alloc(s);
    if r.1 != 0 {
      var top := s.queueTop - 1;
      assert s.freeQueue[..s.queueTop] == r.0.freeQueue[..top] + [r.1];
      assert FreeSet(s) == FreeSet(r.0) + {r.1 as int};
      assert r.1 as int !in FreeSet(r.0);
    }
  }

  /** Pushing an index that is not on the stack keeps the stack distinct. */
  lemma DistinctPush(q: seq<u32>, x: u32)
    requires Distinct(q) && forall k :: 0 <= k < |q| ==> q[k] != x
    ensures Distinct(q + [x])
  {
  }

  /** Freeing a live index keeps the invariant; a live index exists only while the queue has room for it. */
  lemma FreeKeepsPartition(s: PoolState, live: set<int>, slotIndex: u32)
    requires Partition(s, live) && slotIndex as int in live
    ensures 0 < slotIndex < s.size && s.queueTop < s.size
    ensures Partition(Free(s, slotIndex), live - {slotIndex as int})
  {
    LiveCount(s, live);
    assert 0 < slotIndex < s.size && s.queueTop < s.size;
    var r := Free(s, slotIndex);
    var q := s.freeQueue[..s.queueTop];
    assert r.freeQueue[..r.queueTop] == q + [slotIndex];
    assert forall k :: 0 <= k < |q| ==> q[k] as int in FreeSet(s);
    DistinctPush(q, slotIndex);
    FreeSetPush(s, slotIndex);
  }

  /** A push adds exactly the pushed index to the free set. */
  lemma FreeSetPush(s: PoolState, slotIndex: u32)
    requires Safe(s) && 0 < slotIndex < s.size && s.queueTop < s.size
    ensures FreeSet(Free(s, slotIndex)) == FreeSet(s) + {slotIndex as int}
  {
    var r := Free(s, slotIndex);
    assert forall k :: 0 <= k < s.queueTop ==> r.freeQueue[k] == s.freeQueue[k];
    assert r.freeQueue[s.queueTop] == slotIndex;
  }

  /** `core::Pool`, with the free queue as a `std::vector` (a sequence field). */
  class Pool {
    var freeQueue: seq<u32>
    var queueTop: u32
    var size: u32
    /** The indices handed out and not freed since the last `init`; used by the proofs only. */
    ghost var live: set<int>

    function State(): PoolState
      reads this
    {
      PoolState(freeQueue, queueTop, size)
    }

    ghost predicate Valid()
      reads this
    {
      Safe(State())
    }

    constructor ()
      ensures Valid() && State() == DEFAULT_POOL && live == {}
    {
      freeQueue, queueTop, size := [], 0, 0;
      live := {};
    }

    /** `init(pool_size)`: resize the queue, fill it with `std::iota` over the reverse range, set the top. */
    method Init(poolSize: u32)
      modifies this
      ensures State() == InitState(poolSize) && live == {}
      ensures poolSize >= 1 ==> Valid() && Partition(State(), live)
    {
      size := poolSize;
      var q := if poolSize <= |freeQueue| then freeQueue[..poolSize]
               else freeQueue + seq(poolSize - |freeQueue|, _ => 0);
      var k := 0;
      while k < poolSize
        invariant 0 <= k <= poolSize && |q| == poolSize
        invariant forall j :: poolSize - k <= j < poolSize ==> q[j] == poolSize - 1 - j
      {
        q := q[poolSize - 1 - k := k];
        k := k + 1;
      }
      freeQueue := q;
      queueTop := Dec32(poolSize);
      live := {};
      assert freeQueue == InitState(poolSize).freeQueue;
      if poolSize >= 1 {
        InitPartition(poolSize);
      }
    }

    /** `alloc_index` */
    method AllocIndex() returns (slotIndex: u32)
      requires Valid()
      modifies this
      ensures Valid()
      ensures (State(), slotIndex) == Alloc(old(State()))
      ensures live == if slotIndex == 0 then old(live) else old(live) + {slotIndex as int}
      ensures old(Partition(State(), live)) ==> Partition(State(), live) && slotIndex !in old(live)
    {
      if queueTop > 0 {
        queueTop := queueTop - 1;
        slotIndex := freeQueue[queueTop];
        live := live + {slotIndex as int};
      } else {
        slotIndex := 0;
      }
      if old(Partition(State(), live)) {
        AllocKeepsPartition(old(State()), old(live));
      }
    }

    /** `free_index(slot_index)` */
    method FreeIndex(slotIndex: u32)
      requires Valid()
      requires 0 < slotIndex < size && queueTop < size
      modifies this
      ensures Valid()
      ensures State() == Free(old(State()), slotIndex)
      ensures live == old(live) - {slotIndex as int}
      ensures old(Partition(State(), live)) && slotIndex as int in old(live) ==> Partition(State(), live)
    {
      freeQueue := freeQueue[queueTop := slotIndex];
      queueTop := queueTop + 1;
      live := live - {slotIndex as int};
      if old(Partition(State(), live)) && slotIndex as int in old(live) {
        FreeKeepsPartition(old(State()), old(live), slotIndex);
      }
    }
  }
}
