/** The handle-to-producer map: hash buckets of intrusive chains over a recycled pool of
    entries. Chains are kept beside the arrays as ghost sequences of entry indices. */
module TensorMaps {
  import opened Common

  datatype Entry = Entry(handle: nat, producer: nat, next: int, valid: bool, isOutput: bool)

  /** The arrays of the map and the chains they encode. */
  datatype Chained = Chained(
    buckets: seq<int>,        // head index of each chain, -1 if empty
    pool: seq<Entry>,
    chains: seq<seq<nat>>,
    next: nat,                // inserts so far
    last: nat,                // producers below are dead
    mix: nat -> nat)          // the bit mixing of the hash

  function BucketOf(c: Chained, handle: nat): (b: nat)
    requires |c.buckets| > 0
    ensures b < |c.buckets|
  {
    c.mix(handle) % |c.buckets|
  }

  function HeadOf(chain: seq<nat>): int {
    if chain == [] then -1 else chain[0]
  }

  function After(chain: seq<nat>, k: nat): int {
    if k + 1 < |chain| then chain[k + 1] else -1
  }

  /** The links of one bucket spell out its chain. */
  predicate Spells(c: Chained, b: nat)
    requires b < |c.buckets| == |c.chains|
  {
    var chain := c.chains[b];
    && c.buckets[b] == HeadOf(chain)
    && (forall k :: 0 <= k < |chain| ==> chain[k] < |c.pool|)
    && (forall k :: 0 <= k < |chain| ==> c.pool[chain[k]].next == After(chain, k))
  }

  ghost predicate ChainOk(c: Chained, b: nat)
    requires b < |c.buckets| == |c.chains|
  {
    var chain := c.chains[b];
    && Spells(c, b)
    && (forall k :: 0 <= k < |chain| ==> BucketOf(c, c.pool[chain[k]].handle) == b)
    && Distinct(chain)
  }

  /** Every bucket leads along a finite chain without repetition; as an entry is only in the
      chain of its own handle's bucket, chains are also disjoint. */
  ghost predicate WellFormed(c: Chained) {
    && |c.buckets| == |c.chains| > 0 && |c.pool| > 0
    && forall b :: 0 <= b < |c.buckets| ==> ChainOk(c, b)
  }

  /** Entry i is on a chain. */
  predicate Linked(c: Chained, i: nat)
    requires |c.buckets| == |c.chains| > 0
  {
    i < |c.pool| && i in c.chains[BucketOf(c, c.pool[i].handle)]
  }

  lemma OnlyOwnChain(c: Chained, b: nat, i: nat)
    requires WellFormed(c) && b < |c.buckets| && i in c.chains[b]
    ensures i < |c.pool| && Linked(c, i) && BucketOf(c, c.pool[i].handle) == b
  {
    assert ChainOk(c, b);
  }

  // ---- The three parts of an insert -------------------------------------------------

  /** A live older output entry of the handle. */
  predicate Stale(e: Entry, handle: nat, task: nat, last: nat) {
    e.valid && e.handle == handle && e.producer >= last && e.producer < task && e.isOutput
  }

  function Dim(e: Entry, handle: nat, task: nat, last: nat): Entry {
    if Stale(e, handle, task, last) then e.(valid := false) else e
  }

  /** Invalidates the stale entries among the given ones; links are untouched. */
  function DimAll(pool: seq<Entry>, among: seq<nat>, handle: nat, task: nat, last: nat): (r: seq<Entry>)
    ensures |r| == |pool|
  {
    seq(|pool|, i requires 0 <= i < |pool| => if i in among then Dim(pool[i], handle, task, last) else pool[i])
  }

  function RemoveStale(c: Chained, handle: nat, task: nat): Chained
    requires |c.buckets| == |c.chains| > 0
  {
    c.(pool := DimAll(c.pool, c.chains[BucketOf(c, handle)], handle, task, c.last))
  }

  lemma RemoveStaleKeeps(c: Chained, handle: nat, task: nat)
    requires WellFormed(c)
    ensures WellFormed(RemoveStale(c, handle, task))
    ensures forall i :: 0 <= i < |c.pool| ==> Linked(RemoveStale(c, handle, task), i) == Linked(c, i)
  {
    var r := RemoveStale(c, handle, task);
    forall b | 0 <= b < |r.buckets| ensures ChainOk(r, b) { assert ChainOk(c, b); }
  }

  function Without(chain: seq<nat>, k: nat): seq<nat>
    requires k < |chain|
  {
    chain[..k] + chain[k + 1..]
  }

  /** Takes the entry at position k off the chain of bucket b. */
  function Unlink(c: Chained, b: nat, k: nat): Chained
    requires b < |c.buckets| == |c.chains| && k < |c.chains[b]| && c.chains[b][k] < |c.pool|
    requires k > 0 ==> c.chains[b][k - 1] < |c.pool|
  {
    var chain := c.chains[b];
    var after := c.pool[chain[k]].next;
    var c1 := c.(chains := c.chains[b := Without(chain, k)]);
    if k == 0 then c1.(buckets := c.buckets[b := after])
    else c1.(pool := c.pool[chain[k - 1] := c.pool[chain[k - 1]].(next := after)])
  }

  lemma WithoutDistinct(chain: seq<nat>, k: nat)
    requires k < |chain| && Distinct(chain)
    ensures Distinct(Without(chain, k))
    ensures forall x :: x in Without(chain, k) <==> x in chain && x != chain[k]
  {
  }

  lemma UnlinkOwn(c: Chained, b: nat, k: nat)
    requires WellFormed(c) && b < |c.buckets| && k < |c.chains[b]|
    ensures ChainOk(c, b) && ChainOk(Unlink(c, b, k), b)
  {
    assert ChainOk(c, b);
    var r, chain := Unlink(c, b, k), c.chains[b];
    var w := Without(chain, k);
    WithoutDistinct(chain, k);
    assert r.chains[b] == w;
    forall i | 0 <= i < |w|
      ensures w[i] < |r.pool| && r.pool[w[i]].next == After(w, i) && BucketOf(r, r.pool[w[i]].handle) == b
    {
      UnlinkAt(c, b, k, i);
    }
  }

  lemma UnlinkAt(c: Chained, b: nat, k: nat, i: nat)
    requires b < |c.buckets| == |c.chains| && ChainOk(c, b) && k < |c.chains[b]| && i < |c.chains[b]| - 1
    ensures var r, w := Unlink(c, b, k), Without(c.chains[b], k);
            w[i] < |r.pool| && r.pool[w[i]].next == After(w, i) && BucketOf(r, r.pool[w[i]].handle) == b
  {
    var chain, r := c.chains[b], Unlink(c, b, k);
    var w := Without(chain, k);
    var j := if i < k then i else i + 1;
    assert w[i] == chain[j];
    assert c.pool[chain[j]].next == After(chain, j) && c.pool[chain[k]].next == After(chain, k);
    if k > 0 && j == k - 1 {
      assert r.pool[chain[j]] == c.pool[chain[j]].(next := After(chain, k));
      WithoutNext(chain, k, i);
    } else {
      assert k > 0 ==> chain[j] != chain[k - 1];
      assert r.pool[chain[j]] == c.pool[chain[j]];
      WithoutNext(chain, k, i);
    }
  }

  /** What follows position i of a chain once position k is gone. */
  lemma WithoutNext(chain: seq<nat>, k: nat, i: nat)
    requires k < |chain| && i < |chain| - 1
    ensures After(Without(chain, k), i) ==
            if i + 1 < k then After(chain, i) else if i + 1 == k then After(chain, k) else After(chain, i + 1)
  {
  }

  lemma UnlinkOther(c: Chained, b: nat, k: nat, d: nat)
    requires WellFormed(c) && b < |c.buckets| && k < |c.chains[b]| && d < |c.buckets| && d != b
    ensures ChainOk(c, b) && ChainOk(Unlink(c, b, k), d)
  {
    assert ChainOk(c, b) && ChainOk(c, d);
    var r := Unlink(c, b, k);
    if k > 0 {
      var p := c.chains[b][k - 1];
      forall i | 0 <= i < |c.chains[d]| ensures c.chains[d][i] != p {
        assert BucketOf(c, c.pool[c.chains[d][i]].handle) == d;
      }
    }
  }

  /** Unlinking keeps the map well formed and removes exactly that entry. */
  lemma UnlinkKeeps(c: Chained, b: nat, k: nat)
    requires WellFormed(c) && b < |c.buckets| && k < |c.chains[b]|
    ensures ChainOk(c, b) && WellFormed(Unlink(c, b, k))
    ensures var r := Unlink(c, b, k);
            forall i :: 0 <= i < |c.pool| ==>
              && r.pool[i] == c.pool[i].(next := r.pool[i].next)
              && (Linked(r, i) <==> Linked(c, i) && i != c.chains[b][k])
  {
    assert ChainOk(c, b);
    var r := Unlink(c, b, k);
    forall d | 0 <= d < |r.buckets| ensures ChainOk(r, d) {
      if d == b { UnlinkOwn(c, b, k); } else { UnlinkOther(c, b, k, d); }
    }
    WithoutDistinct(c.chains[b], k);
  }

  /** Writes entry idx and puts it at the front of its handle's chain. */
  function Link(c: Chained, idx: nat, handle: nat, task: nat, isOutput: bool): Chained
    requires |c.buckets| == |c.chains| > 0 && idx < |c.pool|
  {
    var b := BucketOf(c, handle);
    c.(pool := c.pool[idx := Entry(handle, task, c.buckets[b], true, isOutput)],
       buckets := c.buckets[b := idx],
       chains := c.chains[b := [idx] + c.chains[b]],
       next := c.next + 1)
  }

  lemma LinkKeeps(c: Chained, idx: nat, handle: nat, task: nat, isOutput: bool)
    requires WellFormed(c) && idx < |c.pool| && !Linked(c, idx)
    ensures WellFormed(Link(c, idx, handle, task, isOutput))
    ensures var r := Link(c, idx, handle, task, isOutput);
            forall i :: 0 <= i < |c.pool| && i != idx ==> r.pool[i] == c.pool[i] && Linked(r, i) == Linked(c, i)
    ensures Linked(Link(c, idx, handle, task, isOutput), idx)
  {
    var r, b := Link(c, idx, handle, task, isOutput), BucketOf(c, handle);
    forall d | 0 <= d < |r.buckets| ensures ChainOk(r, d) {
      assert ChainOk(c, d);
      forall k | 0 <= k < |c.chains[d]| ensures c.chains[d][k] != idx {
        OnlyOwnChain(c, d, c.chains[d][k]);
      }
      LinkChain(c, idx, handle, task, isOutput, d);
    }
  }

  lemma LinkChain(c: Chained, idx: nat, handle: nat, task: nat, isOutput: bool, d: nat)
    requires |c.buckets| == |c.chains| > 0 && idx < |c.pool| && d < |c.buckets| && ChainOk(c, d)
    requires forall k :: 0 <= k < |c.chains[d]| ==> c.chains[d][k] != idx
    ensures ChainOk(Link(c, idx, handle, task, isOutput), d)
  {
    var r, b := Link(c, idx, handle, task, isOutput), BucketOf(c, handle);
    var chain, was := r.chains[d], c.chains[d];
    if d == b {
      DistinctPrepend(was, idx);
      assert chain == [idx] + was;
      forall k | 0 <= k < |chain|
        ensures chain[k] < |r.pool| && r.pool[chain[k]].next == After(chain, k)
                && BucketOf(r, r.pool[chain[k]].handle) == b
      {
        if k > 0 {
          assert chain[k] == was[k - 1];
          assert c.pool[was[k - 1]].next == After(was, k - 1);
        }
      }
    } else {
      assert chain == was;
      forall k | 0 <= k < |was| ensures r.pool[was[k]] == c.pool[was[k]] { }
    }
  }

  /** The slot the next insert recycles. */
  function Slot(c: Chained): nat
    requires |c.pool| > 0
  {
    c.next % |c.pool|
  }

  function PositionOf(chain: seq<nat>, x: nat): (k: nat)
    requires x in chain
    ensures k < |chain| && chain[k] == x && x !in chain[..k]
  {
    if chain[0] == x then 0 else 1 + PositionOf(chain[1..], x)
  }

  /** An old entry is taken off its chain, but only if its valid flag is still set. */
  function Recycle(c: Chained, idx: nat): (r: Chained)
    requires WellFormed(c) && idx < |c.pool|
    ensures |r.pool| == |c.pool| && |r.buckets| == |r.chains| == |c.buckets|
  {
    if c.pool[idx].valid then
      var b := BucketOf(c, c.pool[idx].handle);
      assert ChainOk(c, b);
      var c1 := if idx in c.chains[b] then Unlink(c, b, PositionOf(c.chains[b], idx)) else c;
      c1.(pool := c1.pool[idx := c1.pool[idx].(valid := false)])
    else c
  }

  lemma FlagKeeps(c: Chained, idx: nat, flag: bool)
    requires WellFormed(c) && idx < |c.pool|
    ensures WellFormed(c.(pool := c.pool[idx := c.pool[idx].(valid := flag)]))
  {
    var r := c.(pool := c.pool[idx := c.pool[idx].(valid := flag)]);
    forall b | 0 <= b < |r.buckets| ensures ChainOk(r, b) { assert ChainOk(c, b); }
  }

  lemma RecycleKeeps(c: Chained, idx: nat)
    requires WellFormed(c) && idx < |c.pool|
    ensures WellFormed(Recycle(c, idx))
    ensures Linked(Recycle(c, idx), idx) <==> Linked(c, idx) && !c.pool[idx].valid
    ensures forall i :: 0 <= i < |c.pool| && i != idx ==>
              && Recycle(c, idx).pool[i] == c.pool[i].(next := Recycle(c, idx).pool[i].next)
              && Linked(Recycle(c, idx), i) == Linked(c, i)
  {
    if c.pool[idx].valid {
      var b := BucketOf(c, c.pool[idx].handle);
      assert ChainOk(c, b);
      if idx in c.chains[b] {
        UnlinkKeeps(c, b, PositionOf(c.chains[b], idx));
        FlagKeeps(Unlink(c, b, PositionOf(c.chains[b], idx)), idx, false);
      } else {
        FlagKeeps(c, idx, false);
      }
    }
  }

  /** The whole insert. */
  function Insert(c: Chained, handle: nat, task: nat, isOutput: bool): Chained
    requires WellFormed(c)
  {
    RemoveStaleKeeps(c, handle, task);
    var c1 := RemoveStale(c, handle, task);
    var c2 := Recycle(c1, Slot(c1));
    Link(c2, Slot(c1), handle, task, isOutput)
  }

  /** The slot to be recycled is not an entry that is still on a chain but has been, or is
      about to be, invalidated. */
  predicate SafeToInsert(c: Chained, handle: nat, task: nat)
    requires |c.buckets| == |c.chains| > 0 && |c.pool| > 0
  {
    Linked(c, Slot(c)) ==> c.pool[Slot(c)].valid && !Stale(c.pool[Slot(c)], handle, task, c.last)
  }

  lemma InsertKeeps(c: Chained, handle: nat, task: nat, isOutput: bool)
    requires WellFormed(c) && SafeToInsert(c, handle, task)
    ensures WellFormed(Insert(c, handle, task, isOutput))
    ensures var r := Insert(c, handle, task, isOutput);
            && |r.pool| == |c.pool| && Linked(r, Slot(c))
            && forall i :: 0 <= i < |c.pool| && i != Slot(c) ==>
                 && Linked(r, i) == Linked(c, i)
                 && r.pool[i] == RemoveStale(c, handle, task).pool[i].(next := r.pool[i].next)
  {
    var c1 := RemoveStale(c, handle, task);
    RemoveStaleKeeps(c, handle, task);
    RecycleKeeps(c1, Slot(c1));
    LinkKeeps(Recycle(c1, Slot(c1)), Slot(c1), handle, task, isOutput);
  }

  // ---- When an insert breaks the chains ----------------------------------------------

  /** Chains that share their links share their entries. */
  lemma {:induction false} ChainForced(pool: seq<Entry>, found: seq<nat>, s: nat, chain: seq<nat>, k: nat)
    requires k < |chain| && s < |found| && found[s] == chain[0]
    requires forall i :: 0 <= i < |found| ==> found[i] < |pool| && pool[found[i]].next == After(found, i)
    requires forall j :: 0 <= j < k ==> chain[j] < |pool| && pool[chain[j]].next == chain[j + 1]
    ensures s + k < |found| && found[s + k] == chain[k]
  {
    if k > 0 {
      ChainForced(pool, found, s, chain, k - 1);
      var i := s + (k - 1);
      assert found[i] == chain[k - 1];
      assert pool[found[i]].next == After(found, i);
      assert pool[chain[k - 1]].next == chain[k - 1 + 1];
    }
  }

  /** After writing a slot that is still on a chain, any chains that the links spell out
      meet the slot twice: once as the new head, once where the old chain still leads. */
  lemma OldChainRunsIntoNew(c: Chained, idx: nat, handle: nat, task: nat, isOutput: bool, chains: seq<seq<nat>>)
    requires WellFormed(c) && idx < |c.pool| && Linked(c, idx) && |chains| == |c.buckets|
    requires var r := Link(c, idx, handle, task, isOutput).(chains := chains);
             Spells(r, BucketOf(c, c.pool[idx].handle)) && Spells(r, BucketOf(c, handle))
    ensures var a, b := BucketOf(c, c.pool[idx].handle), BucketOf(c, handle);
            && |chains[b]| > 0 && chains[b][0] == idx
            && (if a == b then exists k :: 1 <= k < |chains[a]| && chains[a][k] == idx else idx in chains[a])
  {
    var r := Link(c, idx, handle, task, isOutput).(chains := chains);
    var a, b := BucketOf(c, c.pool[idx].handle), BucketOf(c, handle);
    var chain := c.chains[a];
    assert ChainOk(c, a);
    var k := PositionOf(chain, idx);
    forall j | 0 <= j < k ensures r.pool[chain[j]].next == chain[j + 1] {
      assert chain[j] != chain[k];
      assert c.pool[chain[j]].next == After(chain, j);
    }
    if a == b {
      assert r.pool[chains[a][0]].next == After(chains[a], 0);
      ChainForced(r.pool, chains[a], 1, chain, k);
    } else {
      ChainForced(r.pool, chains[a], 0, chain, k);
    }
  }

  lemma LinkOnLinkedBreaks(c: Chained, idx: nat, handle: nat, task: nat, isOutput: bool, chains: seq<seq<nat>>)
    requires WellFormed(c) && idx < |c.pool| && Linked(c, idx)
    ensures !WellFormed(Link(c, idx, handle, task, isOutput).(chains := chains))
  {
    var r := Link(c, idx, handle, task, isOutput).(chains := chains);
    var a, b := BucketOf(c, c.pool[idx].handle), BucketOf(c, handle);
    if |chains| == |r.buckets| && ChainOk(r, a) && ChainOk(r, b) {
      OldChainRunsIntoNew(c, idx, handle, task, isOutput, chains);
      assert false;
    }
  }

  /** Exactly when an insert keeps the chains acyclic and disjoint. */
  lemma InsertKeepsExactly(c: Chained, handle: nat, task: nat, isOutput: bool)
    requires WellFormed(c)
    ensures (exists chains :: WellFormed(Insert(c, handle, task, isOutput).(chains := chains)))
            <==> SafeToInsert(c, handle, task)
  {
    var r := Insert(c, handle, task, isOutput);
    if SafeToInsert(c, handle, task) {
      InsertKeeps(c, handle, task, isOutput);
      assert WellFormed(r.(chains := r.chains));
    } else {
      var c1 := RemoveStale(c, handle, task);
      RemoveStaleKeeps(c, handle, task);
      OwnBucket(c, Slot(c), handle, task);
      assert Recycle(c1, Slot(c1)) == c1;
      forall chains ensures !WellFormed(r.(chains := chains)) {
        LinkOnLinkedBreaks(c1, Slot(c1), handle, task, isOutput, chains);
      }
    }
  }

  /** A linked stale entry is on the walk that invalidates it. */
  lemma OwnBucket(c: Chained, i: nat, handle: nat, task: nat)
    requires WellFormed(c) && Linked(c, i)
    ensures RemoveStale(c, handle, task).pool[i].valid <==> c.pool[i].valid && !Stale(c.pool[i], handle, task, c.last)
  {
  }

  function Empty(buckets: nat, poolSize: nat, mix: nat -> nat): Chained {
    Chained(seq(buckets, _ => -1), seq(poolSize, _ => Entry(0, 0, 0, false, false)), seq(buckets, _ => []), 0, 0, mix)
  }

  lemma EmptyWellFormed(buckets: nat, poolSize: nat, mix: nat -> nat)
    requires buckets > 0 && poolSize > 0
    ensures WellFormed(Empty(buckets, poolSize, mix))
    ensures forall i :: 0 <= i < poolSize ==> !Linked(Empty(buckets, poolSize, mix), i)
  {
  }
}
