/** The tensor map object, updating its arrays in place. */
module TensorMapObjects {
  import opened Common
  import opened TensorMaps
  import opened TensorMapRuns

  class TensorMap {
    const mix: nat -> nat
    const buckets: array<int>
    const pool: array<Entry>
    var nextEntry: nat
    var lastTaskAlive: nat
    ghost var chains: seq<seq<nat>>

    ghost function View(): Chained
      reads this, buckets, pool
    {
      Chained(buckets[..], pool[..], chains, nextEntry, lastTaskAlive, mix)
    }

    ghost predicate Valid()
      reads this, buckets, pool
    {
      WellFormed(View())
    }

    constructor (numBuckets: nat, poolSize: nat, mix: nat -> nat)
      requires numBuckets > 0 && poolSize > 0
      ensures Valid() && View() == Empty(numBuckets, poolSize, mix)
      ensures fresh(buckets) && fresh(pool)
    {
      this.mix := mix;
      buckets := new int[numBuckets](_ => -1);
      pool := new Entry[poolSize](_ => Entry(0, 0, 0, false, false));
      nextEntry := 0;
      lastTaskAlive := 0;
      chains := seq(numBuckets, _ => []);
      new;
      assert buckets[..] == seq(numBuckets, _ => -1);
      assert pool[..] == seq(poolSize, _ => Entry(0, 0, 0, false, false));
      EmptyWellFormed(numBuckets, poolSize, mix);
    }

    /** Walks the handle's chain and clears the valid flag of live older outputs. */
    method RemoveStaleForHandle(handle: nat, newTask: nat)
      requires Valid()
      modifies pool
      ensures View() == RemoveStale(old(View()), handle, newTask)
    {
      ghost var before := View();
      var b := mix(handle) % buckets.Length;
      assert b == BucketOf(before, handle);
      ghost var chain := chains[b];
      assert ChainOk(before, b);
      var cur := buckets[b];
      ghost var k := 0;
      while cur >= 0
        invariant k <= |chain| && cur == HeadOf(chain[k..])
        invariant pool[..] == DimAll(before.pool, chain[..k], handle, newTask, lastTaskAlive)
        decreases |chain| - k
      {
        var e := pool[cur];
        DimMore(before.pool, chain, k, handle, newTask, lastTaskAlive);
        if e.valid && e.handle == handle && e.producer >= lastTaskAlive && e.producer < newTask && e.isOutput {
          pool[cur] := e.(valid := false);
        }
        cur := e.next;
        k := k + 1;
      }
      assert chain[..k] == chain;
    }

    /** Takes entry idx off its chain if it is there. */
    method UnlinkEntry(idx: nat)
      requires Valid() && idx < pool.Length
      modifies this`chains, buckets, pool
      ensures var c, b := old(View()), BucketOf(old(View()), old(View()).pool[idx].handle);
              && ChainOk(c, b)
              && View() == if idx in c.chains[b] then Unlink(c, b, PositionOf(c.chains[b], idx)) else c
    {
      ghost var before := View();
      var b := mix(pool[idx].handle) % buckets.Length;
      ghost var chain := chains[b];
      assert b == BucketOf(before, before.pool[idx].handle);
      assert ChainOk(before, b);
      var prev := -1;
      var cur := buckets[b];
      ghost var k := 0;
      while cur >= 0 && cur != idx
        invariant k <= |chain| && cur == if k < |chain| then chain[k] else -1
        invariant prev == if k == 0 then -1 else chain[k - 1]
        invariant idx !in chain[..k]
        decreases |chain| - k
      {
        assert chain[..k + 1] == chain[..k] + [chain[k]];
        prev := cur;
        cur := pool[cur].next;
        k := k + 1;
      }
      if cur >= 0 {
        FirstPosition(chain, idx, k);
        if prev < 0 {
          buckets[b] := pool[cur].next;
        } else {
          pool[prev] := pool[prev].(next := pool[cur].next);
        }
        chains := chains[b := Without(chain, k)];
        assert View() == Unlink(before, b, k);
      } else {
        assert chain[..k] == chain;
      }
    }

    /** Frees entry idx; an entry whose valid flag is cleared stays on its chain. */
    method RecycleEntry(idx: nat)
      requires Valid() && idx < pool.Length
      modifies this`chains, buckets, pool
      ensures View() == Recycle(old(View()), idx)
    {
      if pool[idx].valid {
        UnlinkEntry(idx);
        pool[idx] := pool[idx].(valid := false);
      }
    }

    /** Writes entry idx at the head of its handle's chain. */
    method LinkEntry(idx: nat, handle: nat, task: nat, isOutput: bool)
      requires |chains| == buckets.Length > 0 && idx < pool.Length
      modifies this, buckets, pool
      ensures View() == Link(old(View()), idx, handle, task, isOutput)
    {
      nextEntry := nextEntry + 1;
      var b := mix(handle) % buckets.Length;
      pool[idx] := Entry(handle, task, buckets[b], true, isOutput);
      buckets[b] := idx;
      chains := chains[b := [idx] + chains[b]];
    }

    /** Records a producer of the handle. The map stays usable when the slot to be
        recycled is not on a chain with its valid flag cleared; InsertKeepsExactly says that
        otherwise it does not. */
    method InsertEntry(handle: nat, task: nat, isOutput: bool)
      requires Valid()
      modifies this, buckets, pool
      ensures View() == Insert(old(View()), handle, task, isOutput)
      ensures SafeToInsert(old(View()), handle, task) ==> Valid()
    {
      ghost var before := View();
      RemoveStaleKeeps(before, handle, task);
      RemoveStaleForHandle(handle, task);
      var idx := nextEntry % pool.Length;
      RecycleEntry(idx);
      LinkEntry(idx, handle, task, isOutput);
      if SafeToInsert(before, handle, task) { InsertKeeps(before, handle, task, isOutput); }
    }

    method FindProducer(handle: nat) returns (found: bool, producer: nat)
      requires Valid()
      ensures found <==> Lookup(View(), handle) >= 0
      ensures found ==> producer == Lookup(View(), handle)
    {
      var b := mix(handle) % buckets.Length;
      ghost var chain := chains[b];
      assert b == BucketOf(View(), handle);
      assert ChainOk(View(), b);
      var cur := buckets[b];
      var best: int := -1;
      ghost var k := 0;
      while cur >= 0
        invariant k <= |chain| && cur == if k < |chain| then chain[k] else -1
        invariant best == Best(pool[..], chain[..k], handle, lastTaskAlive)
        decreases |chain| - k
      {
        var e := pool[cur];
        if e.valid && e.handle == handle && e.producer >= lastTaskAlive && e.producer > best {
          best := e.producer;
        }
        assert chain[..k + 1][..k] == chain[..k];
        cur := e.next;
        k := k + 1;
      }
      assert chain[..k] == chain;
      found := best >= 0;
      producer := if best >= 0 then best else 0;
    }

    method InvalidateBelow(lastAlive: nat)
      modifies this`lastTaskAlive
      ensures View() == old(View()).(last := lastAlive) && (old(Valid()) ==> Valid())
    {
      ghost var before := View();
      lastTaskAlive := lastAlive;
      if WellFormed(before) {
        forall b | 0 <= b < |View().buckets| ensures ChainOk(View(), b) { assert ChainOk(before, b); }
      }
    }
  }

  lemma DimMore(pool: seq<Entry>, chain: seq<nat>, k: nat, handle: nat, task: nat, last: nat)
    requires k < |chain| && chain[k] < |pool| && Distinct(chain)
    ensures DimAll(pool, chain[..k], handle, task, last)[chain[k]] == pool[chain[k]]
    ensures DimAll(pool, chain[..k + 1], handle, task, last) ==
            DimAll(pool, chain[..k], handle, task, last)[chain[k] := Dim(pool[chain[k]], handle, task, last)]
  {
  }

  lemma {:induction false} FirstPosition(chain: seq<nat>, x: nat, k: nat)
    requires k < |chain| && chain[k] == x && x !in chain[..k]
    ensures PositionOf(chain, x) == k
  {
  }

  // ---- A cycle ---------------------------------------------------------------------

  /** Three inserts into one bucket over a pool of two: the second invalidates the first,
      whose entry stays linked, and the third recycles it. The links then form a cycle, on
      which a walk along the bucket never ends. */
  lemma ThreeInsertsMakeACycle(mix: nat -> nat)
    ensures var c0 := Empty(1, 2, mix);
            && WellFormed(c0)
            && WellFormed(Insert(c0, 1, 0, true))
            && WellFormed(Insert(Insert(c0, 1, 0, true), 1, 1, true))
            && var c3 := Insert(Insert(Insert(c0, 1, 0, true), 1, 1, true), 2, 2, true);
               c3.buckets[0] == 0 && c3.pool[0].next == 1 && c3.pool[1].next == 0
  {
    var c0 := Empty(1, 2, mix);
    EmptyWellFormed(1, 2, mix);
    InsertKeeps(c0, 1, 0, true);
    var c1 := Insert(c0, 1, 0, true);
    assert Slot(c0) == 0;
    assert c1.pool[0] == Entry(1, 0, -1, true, true) && c1.chains[0] == [0];
    assert Slot(c1) == 1;
    InsertKeeps(c1, 1, 1, true);
    var c2 := Insert(c1, 1, 1, true);
    assert c2.chains[0] == [1, 0];
    assert !c2.pool[0].valid && c2.pool[1] == Entry(1, 1, 0, true, true);
    assert Slot(c2) == 0;
    RemoveStaleKeeps(c2, 2, 2);
  }
}
