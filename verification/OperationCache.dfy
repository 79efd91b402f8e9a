/// The bounded in-memory cache of browser operations in
/// cmd/agent/browser_operations.go: byte accounting, batch eviction in a fixed
/// order, and the bounds that hold after every admission.

module OperationCache {

  type Id = nat

  const CACHE_MAX := 4096
  const RUNNING_MAX := 128
  const READ_MAX := 128
  const BYTES_MAX := 33_554_432

  /** `keyed` operations are mutations; `bytes` is the size last measured by `CacheOperation`. */
  datatype Op = Op(id: Id, keyed: bool, running: bool, at: int, bytes: nat)

  type Cache = map<Id, Op>

  /** Eviction order: reads first, then the oldest, then the smallest ID. */
  predicate Before(a: Op, c: Op) {
    if a.keyed != c.keyed then !a.keyed
    else if a.at == c.at then a.id < c.id
    else a.at < c.at
  }

  // ---------- measures of a cache ----------

  ghost function Bytes(ops: Cache): nat {
    if ops == map[] then 0 else var id :| id in ops; ops[id].bytes + Bytes(ops - {id})
  }

  lemma {:induction false} BytesWithout(ops: Cache, id: Id)
    requires id in ops
    ensures Bytes(ops) == ops[id].bytes + Bytes(ops - {id})
    decreases ops
  {
    var first :| first in ops && Bytes(ops) == ops[first].bytes + Bytes(ops - {first});
    if first != id {
      BytesWithout(ops - {first}, id);
      BytesWithout(ops - {id}, first);
      assert ops - {first} - {id} == ops - {id} - {first};
    }
  }

  lemma BytesWith(ops: Cache, op: Op)
    ensures Bytes(ops[op.id := op]) == Bytes(ops) + op.bytes - if op.id in ops then ops[op.id].bytes else 0
  {
    var ops' := ops[op.id := op];
    BytesWithout(ops', op.id);
    assert ops' - {op.id} == ops - {op.id};
    if op.id in ops {
      BytesWithout(ops, op.id);
    } else {
      assert ops - {op.id} == ops;
    }
  }

  function Reads(ops: Cache): set<Id> {
    set id | id in ops && !ops[id].running && !ops[id].keyed
  }

  function RunningOps(ops: Cache): set<Id> {
    set id | id in ops && ops[id].running
  }

  ghost function Completed(ops: Cache): set<Id> {
    set id | id in ops && !ops[id].running
  }

  ghost predicate Within(ops: Cache, target: int) {
    |ops| <= target && |Reads(ops)| <= READ_MAX && Bytes(ops) <= BYTES_MAX
  }

  function Target(size: nat, limit: nat): nat {
    if size > limit then limit - limit / 8 else limit
  }

  // ---------- the order of eviction ----------

  function Insert(op: Op, sorted: seq<Op>): seq<Op> {
    if |sorted| == 0 || Before(op, sorted[0]) then [op] + sorted else [sorted[0]] + Insert(op, sorted[1..])
  }

  ghost predicate Sorted(ops: seq<Op>) {
    forall i, j | 0 <= i < j < |ops| :: Before(ops[i], ops[j])
  }

  ghost function IdsOf(ops: seq<Op>): set<Id> {
    set i | 0 <= i < |ops| :: ops[i].id
  }

  lemma {:induction false} InsertKeepsSorted(op: Op, sorted: seq<Op>)
    requires Sorted(sorted) && op.id !in IdsOf(sorted)
    ensures Sorted(Insert(op, sorted))
    ensures forall x :: x in Insert(op, sorted) <==> x == op || x in sorted
    decreases |sorted|
  {
    if |sorted| > 0 && !Before(op, sorted[0]) {
      var first, rest := sorted[0], sorted[1..];
      assert op.id != first.id;
      assert IdsOf(rest) <= IdsOf(sorted) by {
        forall id | id in IdsOf(rest) ensures id in IdsOf(sorted) {
          var i :| 0 <= i < |rest| && rest[i].id == id;
          assert sorted[i + 1].id == id;
        }
      }
      InsertKeepsSorted(op, rest);
      assert forall x | x in Insert(op, rest) :: Before(first, x);
    } else if |sorted| > 0 {
      assert forall i | 0 <= i < |sorted| :: Before(op, sorted[i]);
    }
  }

  /** What is left after evicting the first `n` of `order`. */
  ghost function Evict(ops: Cache, order: seq<Op>, n: nat): Cache
    requires n <= |order|
  {
    if n == 0 then ops else Evict(ops, order, n - 1) - {order[n - 1].id}
  }

  /** `order` lists the completed operations of `ops`, first to be evicted first. */
  ghost predicate EvictionOrder(ops: Cache, order: seq<Op>) {
    && Sorted(order)
    && (forall id | id in ops :: ops[id].id == id)
    && (forall op | op in order :: op.id in ops && ops[op.id] == op && !op.running)
    && (forall id | id in ops && !ops[id].running :: ops[id] in order)
  }

  lemma {:induction false} EvictKeeps(ops: Cache, order: seq<Op>, n: nat)
    requires EvictionOrder(ops, order) && n <= |order|
    ensures forall id :: id in Evict(ops, order, n) <==> id in ops && forall i | 0 <= i < n :: order[i].id != id
    ensures forall id | id in Evict(ops, order, n) :: Evict(ops, order, n)[id] == ops[id]
    decreases n
  {
    if n > 0 {
      EvictKeeps(ops, order, n - 1);
    }
  }

  /** The next victim is still cached, and removing it takes its bytes and its read along. */
  lemma EvictOne(ops: Cache, order: seq<Op>, n: nat)
    requires EvictionOrder(ops, order) && n < |order|
    ensures var now, op := Evict(ops, order, n), order[n];
            && op.id in now && now[op.id] == op
            && Evict(ops, order, n + 1) == now - {op.id}
            && Bytes(now - {op.id}) == Bytes(now) - op.bytes
            && |Reads(now - {op.id})| == |Reads(now)| - if op.keyed then 0 else 1
  {
    EvictKeeps(ops, order, n);
    var now, op := Evict(ops, order, n), order[n];
    assert op in order;
    forall i | 0 <= i < n ensures order[i].id != op.id {
      assert order[i] in order && Before(order[i], order[n]);
    }
    BytesWithout(now, op.id);
    assert Reads(now - {op.id}) == Reads(now) - {op.id};
  }

  lemma AllEvicted(ops: Cache, order: seq<Op>)
    requires EvictionOrder(ops, order)
    ensures Completed(Evict(ops, order, |order|)) == {}
  {
    EvictKeeps(ops, order, |order|);
    assert forall id | id in ops && !ops[id].running :: exists i :: 0 <= i < |order| && order[i].id == id;
  }

  /** No shorter prefix of `order` would have sufficed. */
  ghost predicate Needed(ops: Cache, order: seq<Op>, target: int, n: nat)
    requires n <= |order|
  {
    forall m | 0 <= m < n :: !Within(Evict(ops, order, m), target)
  }

  lemma NothingNeeded(ops: Cache, order: seq<Op>, target: int)
    ensures Evict(ops, order, 0) == ops && Needed(ops, order, target, 0)
  {
  }

  lemma OneMoreNeeded(ops: Cache, order: seq<Op>, target: int, n: nat)
    requires n < |order| && Needed(ops, order, target, n) && !Within(Evict(ops, order, n), target)
    ensures Needed(ops, order, target, n + 1)
  {
    hide Within, Evict;
  }

  // ---------- who goes, and how many ----------

  /**
   * Who is evicted while another completed operation stays: a read before a mutation; of the same kind the
   * older one, of the same age the one with the smaller ID; and nobody who runs.
   */
  lemma WhoGoesFirst(ops: Cache, order: seq<Op>, n: nat, gone: Id, kept: Id)
    requires EvictionOrder(ops, order) && n <= |order|
    requires gone in ops && kept in ops && gone !in Evict(ops, order, n) && kept in Evict(ops, order, n) && !ops[kept].running
    ensures !ops[gone].running
    ensures var g, k := ops[gone], ops[kept];
            (!g.keyed && k.keyed) || (g.keyed == k.keyed && (g.at < k.at || (g.at == k.at && gone < kept)))
  {
    EvictKeeps(ops, order, n);
    var i :| 0 <= i < n && order[i].id == gone;
    assert order[i] in order && ops[kept] in order;
    var j :| 0 <= j < |order| && order[j] == ops[kept];
    assert i < n <= j;
  }

  lemma {:induction false} EvictedSize(ops: Cache, order: seq<Op>, n: nat)
    requires EvictionOrder(ops, order) && n <= |order|
    ensures |Evict(ops, order, n)| == |ops| - n
    ensures |Reads(Evict(ops, order, n))| <= |Reads(ops)| && Bytes(Evict(ops, order, n)) <= Bytes(ops)
    decreases n
  {
    hide Evict, Reads, Bytes, EvictionOrder;
    if n == 0 {
      NothingNeeded(ops, order, 0);
    } else {
      EvictedSize(ops, order, n - 1);
      SmallerByOne(ops, order, n - 1);
    }
  }

  lemma SmallerByOne(ops: Cache, order: seq<Op>, n: nat)
    requires EvictionOrder(ops, order) && n < |order|
    ensures var now, then' := Evict(ops, order, n), Evict(ops, order, n + 1);
            |then'| == |now| - 1 && |Reads(then')| <= |Reads(now)| && Bytes(then') <= Bytes(now)
  {
    hide Evict, Reads, Bytes, EvictionOrder;
    EvictOne(ops, order, n);
    OneLess(Evict(ops, order, n), order[n].id);
  }

  lemma OneLess(ops: Cache, id: Id)
    requires id in ops
    ensures |ops - {id}| == |ops| - 1
  {
    assert (ops - {id}).Keys == ops.Keys - {id};
    assert |ops| == |ops.Keys| && |ops - {id}| == |(ops - {id}).Keys|;
  }

  /**
   * How many go, of a cache that is over some limit: over its size, it falls to seven eighths of the limit, exactly if
   * nothing else was over and enough operations have ended; otherwise an operation goes only while more than 128 reads
   * or more than 32 MiB are cached.
   */
  lemma HowManyGo(ops: Cache, order: seq<Op>, limit: nat, n: nat)
    requires EvictionOrder(ops, order) && n <= |order| && Needed(ops, order, Target(|ops|, limit), n)
    requires Within(Evict(ops, order, n), Target(|ops|, limit)) || n == |order|
    ensures |ops| > limit && |Reads(ops)| <= 128 && Bytes(ops) <= 33_554_432 && |ops| - |order| <= limit - limit / 8 ==>
              |Evict(ops, order, n)| == limit - limit / 8
    ensures |ops| > limit && n < |order| ==> |Evict(ops, order, n)| <= limit - limit / 8
    ensures n < |order| ==> |Reads(Evict(ops, order, n))| <= 128 && Bytes(Evict(ops, order, n)) <= 33_554_432
    ensures |ops| <= limit ==>
              forall m | 0 <= m < n :: |Reads(Evict(ops, order, m))| > 128 || Bytes(Evict(ops, order, m)) > 33_554_432
  {
    hide Evict, Reads, Bytes, EvictionOrder;
    EvictedSize(ops, order, n);
    if |ops| > limit && n > 0 {
      EvictedSize(ops, order, n - 1);
      assert !Within(Evict(ops, order, n - 1), Target(|ops|, limit));
    }
    if |ops| <= limit {
      SizeIsNoReason(ops, order, limit, n);
    }
    hide Needed;
  }

  lemma SizeIsNoReason(ops: Cache, order: seq<Op>, limit: nat, n: nat)
    requires EvictionOrder(ops, order) && n <= |order| && |ops| <= limit && Needed(ops, order, limit, n)
    ensures forall m | 0 <= m < n :: |Reads(Evict(ops, order, m))| > 128 || Bytes(Evict(ops, order, m)) > 33_554_432
  {
    hide Evict, Reads, Bytes, EvictionOrder;
    forall m | 0 <= m < n
      ensures |Reads(Evict(ops, order, m))| > 128 || Bytes(Evict(ops, order, m)) > 33_554_432
    {
      EvictedSize(ops, order, m);
    }
  }

  // ---------- the cache object ----------

  class BrowserCache {
    var operations: Cache
    var cacheBytes: int

    /** The byte count is exact, and every operation is stored under its own ID. */
    ghost predicate Valid()
      reads this
    {
      cacheBytes == Bytes(operations) && forall id | id in operations :: operations[id].id == id
    }

    constructor ()
      ensures Valid() && operations == map[]
    {
      operations, cacheBytes := map[], 0;
    }

    /** Stores or re-stores an operation; `size` is its measured size. */
    method CacheOperation(op: Op, size: nat)
      requires Valid()
      modifies this
      ensures Valid() && operations == old(operations)[op.id := op.(bytes := size)]
    {
      BytesWith(operations, op.(bytes := size));
      if op.id in operations {
        cacheBytes := cacheBytes - operations[op.id].bytes;
      }
      operations := operations[op.id := op.(bytes := size)];
      cacheBytes := cacheBytes + size;
    }

    method RemoveCachedOperation(id: Id)
      requires Valid()
      modifies this
      ensures Valid() && operations == old(operations) - {id}
    {
      if id in operations {
        BytesWithout(operations, id);
        cacheBytes := cacheBytes - operations[id].bytes;
        operations := operations - {id};
      }
    }

    /** Collects the completed operations, in whatever order the map yields them, and sorts them. */
    method SortCompleted() returns (order: seq<Op>)
      requires Valid()
      ensures EvictionOrder(operations, order)
    {
      order := [];
      var rest := operations.Keys;
      while rest != {}
        invariant rest <= operations.Keys && Sorted(order)
        invariant forall op | op in order :: op.id in operations && op.id !in rest && operations[op.id] == op && !op.running
        invariant forall id | id in operations && id !in rest && !operations[id].running :: operations[id] in order
        decreases rest
      {
        var id :| id in rest;
        rest := rest - {id};
        if !operations[id].running {
          InsertKeepsSorted(operations[id], order);
          order := Insert(operations[id], order);
        }
      }
    }

    /**
     * Evicts nothing if all three limits hold.  Otherwise evicts, in eviction order, the
     * shortest prefix of the completed operations that brings the cache within its
     * limits, or all of them.  Running operations stay.
     */
    method TrimOperations(limit: nat) returns (ghost order: seq<Op>, ghost n: nat)
      requires Valid()
      modifies this
      ensures Valid() && EvictionOrder(old(operations), order)
      ensures n <= |order| && operations == Evict(old(operations), order, n)
      ensures Within(old(operations), limit) ==> n == 0
      ensures !Within(old(operations), limit) ==>
                var target := Target(|old(operations)|, limit);
                && Needed(old(operations), order, target, n)
                && (Within(operations, target) || Completed(operations) == {})
      ensures RunningOps(operations) == RunningOps(old(operations))
    {
      var readCount := |Reads(operations)|;
      var completed := SortCompleted();
      order, n := completed, 0;
      if |operations| <= limit && readCount <= READ_MAX && cacheBytes <= BYTES_MAX {
        return;
      }
      var target := limit;
      if |operations| > limit {
        target := target - limit / 8;
      }
      n := EvictUntilWithin(completed, target, readCount);
      RunningStay(old(operations), completed, n);
    }

    /** The eviction loop; once the limits hold it only runs on without effect. */
    method EvictUntilWithin(completed: seq<Op>, target: int, count: int) returns (ghost n: nat)
      requires Valid() && EvictionOrder(operations, completed) && count == |Reads(operations)|
      modifies this
      ensures Valid() && n <= |completed| && operations == Evict(old(operations), completed, n)
      ensures Needed(old(operations), completed, target, n)
      ensures Within(operations, target) || Completed(operations) == {}
    {
      hide Reads, Completed, EvictionOrder, Bytes, Evict, Needed;
      NothingNeeded(operations, completed, target);
      var readCount := count;
      var i := 0;
      n := 0;
      while i < |completed|
        invariant 0 <= n <= i <= |completed| && Valid()
        invariant operations == Evict(old(operations), completed, n)
        invariant readCount == |Reads(operations)|
        invariant n < i ==> Within(operations, target)
        invariant Needed(old(operations), completed, target, n)
      {
        assert Within(operations, target) <==> |operations| <= target && readCount <= READ_MAX && cacheBytes <= BYTES_MAX;
        if !(|operations| <= target && readCount <= READ_MAX && cacheBytes <= BYTES_MAX) {
          OneMoreNeeded(old(operations), completed, target, n);
          EvictOne(old(operations), completed, n);
          RemoveCachedOperation(completed[i].id);
          if !completed[i].keyed {
            readCount := readCount - 1;
          }
          n := n + 1;
        }
        i := i + 1;
      }
      if n == |completed| {
        AllEvicted(old(operations), completed);
      }
    }

    /** The cache part of `call`: admits unless 128 operations run, after making room. */
    method AdmitOperation(op: Op, size: nat) returns (admitted: bool)
      requires Valid() && op.running
      modifies this
      ensures Valid() && admitted == (|RunningOps(old(operations))| < 128)
      ensures !admitted ==> operations == old(operations)
      ensures admitted ==> op.id in operations && |operations| <= 4096 && |RunningOps(operations)| <= 128
      ensures admitted ==> RunningOps(operations) == RunningOps(old(operations)) + {op.id}
      ensures admitted && |old(operations)| <= 4095 && |Reads(old(operations))| <= 128 && old(cacheBytes) <= 33_554_432 ==>
                operations == old(operations)[op.id := op.(bytes := size)]
    {
      var running := |RunningOps(operations)|;
      if running >= RUNNING_MAX {
        return false;
      }
      ghost var order, n := TrimOperations(CACHE_MAX - 1);
      RoomLeft(operations, CACHE_MAX - 1);
      AdmittedCounts(operations, op.(bytes := size));
      CacheOperation(op, size);
      return true;
    }
  }

  lemma AdmittedCounts(ops: Cache, op: Op)
    requires op.running
    ensures RunningOps(ops[op.id := op]) == RunningOps(ops) + {op.id}
    ensures |ops[op.id := op]| <= |ops| + 1
    ensures |RunningOps(ops[op.id := op])| <= |RunningOps(ops)| + 1
  {
    assert ops[op.id := op].Keys == ops.Keys + {op.id};
    assert RunningOps(ops[op.id := op]) == RunningOps(ops) + {op.id};
  }

  lemma RoomLeft(ops: Cache, limit: nat)
    requires (Completed(ops) == {} && |RunningOps(ops)| <= limit) || |ops| <= limit
    ensures |ops| <= limit
  {
    if Completed(ops) == {} {
      forall id | id in ops ensures id in RunningOps(ops) {
        assert id !in Completed(ops);
      }
      assert ops.Keys == RunningOps(ops);
    }
  }

  lemma RunningStay(ops: Cache, order: seq<Op>, n: nat)
    requires EvictionOrder(ops, order) && n <= |order|
    ensures RunningOps(Evict(ops, order, n)) == RunningOps(ops)
  {
    EvictKeeps(ops, order, n);
    forall id | id in RunningOps(ops) ensures id in Evict(ops, order, n) {
      forall i | 0 <= i < n ensures order[i].id != id {
        assert order[i] in order;
      }
    }
  }
}
