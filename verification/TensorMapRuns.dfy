/** What a lookup returns in terms of the inserts that were made. */
module TensorMapRuns {
  import opened Common
  import opened TensorMaps

  // ---- Lookup ---------------------------------------------------------------------

  predicate Live(e: Entry, handle: nat, last: nat) {
    e.valid && e.handle == handle && e.producer >= last
  }

  /** The largest live producer of the handle along a chain, or -1. */
  function Best(pool: seq<Entry>, chain: seq<nat>, handle: nat, last: nat): int
    requires forall k :: 0 <= k < |chain| ==> chain[k] < |pool|
  {
    if chain == [] then -1
    else
      var r, e := Best(pool, chain[..|chain| - 1], handle, last), pool[chain[|chain| - 1]];
      if Live(e, handle, last) && e.producer > r then e.producer else r
  }

  lemma {:induction false} BestIsLargest(pool: seq<Entry>, chain: seq<nat>, handle: nat, last: nat)
    requires forall k :: 0 <= k < |chain| ==> chain[k] < |pool|
    ensures var r := Best(pool, chain, handle, last);
            && r >= -1
            && (forall k :: 0 <= k < |chain| && Live(pool[chain[k]], handle, last) ==> pool[chain[k]].producer <= r)
            && (r >= 0 ==> exists k :: 0 <= k < |chain| && Live(pool[chain[k]], handle, last)
                                       && pool[chain[k]].producer == r)
  {
    if chain != [] {
      var front := chain[..|chain| - 1];
      BestIsLargest(pool, front, handle, last);
      var r := Best(pool, front, handle, last);
      if r >= 0 {
        var k :| 0 <= k < |front| && Live(pool[front[k]], handle, last) && pool[front[k]].producer == r;
        assert chain[k] == front[k];
      }
      forall k | 0 <= k < |chain| && Live(pool[chain[k]], handle, last)
        ensures pool[chain[k]].producer <= Best(pool, chain, handle, last)
      {
        if k < |front| { assert chain[k] == front[k]; }
      }
    }
  }

  /** The answer to a lookup: the latest live producer, or -1 for none. */
  function Lookup(c: Chained, handle: nat): int
    requires WellFormed(c)
  {
    var b := BucketOf(c, handle);
    assert ChainOk(c, b);
    Best(c.pool, c.chains[b], handle, c.last)
  }

  // ---- Runs -------------------------------------------------------------------------

  datatype MapOp = Put(handle: nat, producer: nat, isOutput: bool) | Invalidate(last: nat)

  function Apply(c: Chained, op: MapOp): Chained
    requires WellFormed(c)
  {
    match op
    case Put(handle, producer, isOutput) => Insert(c, handle, producer, isOutput)
    case Invalidate(last) => c.(last := last)
  }

  /** The inserts among the first k operations. */
  function Puts(ops: seq<MapOp>, k: nat): seq<MapOp>
    requires k <= |ops|
  {
    if k == 0 then [] else if ops[k - 1].Put? then Puts(ops, k - 1) + [ops[k - 1]] else Puts(ops, k - 1)
  }

  /** A run from an empty map. Nothing is said about the state after one whose chains are
      broken: there the code may loop. */
  ghost predicate IsRun(buckets: nat, poolSize: nat, mix: nat -> nat, ops: seq<MapOp>, states: seq<Chained>) {
    && buckets > 0 && poolSize > 0 && |states| == |ops| + 1
    && states[0] == Empty(buckets, poolSize, mix)
    && forall i :: 0 <= i < |ops| ==> WellFormed(states[i]) ==> states[i + 1] == Apply(states[i], ops[i])
  }

  /** The insert finds no live older output entry for its handle. */
  ghost predicate FindsNoOlder(c: Chained, op: MapOp) {
    op.Put? && WellFormed(c) ==>
      forall i :: 0 <= i < |c.pool| && Linked(c, i) ==> !Stale(c.pool[i], op.handle, op.producer, c.last)
  }

  /** Entry e still holds the insert, apart from its valid flag. */
  predicate Holds(e: Entry, put: MapOp) {
    put.Put? && e.handle == put.handle && e.producer == put.producer && e.isOutput == put.isOutput
  }

  /** Insert j is among the last poolSize ones. */
  predicate Recent(n: nat, poolSize: nat, j: int) {
    0 <= j < n && n - poolSize <= j
  }

  /** A later recent insert of the same handle has a larger producer. */
  ghost predicate Superseded(puts: seq<MapOp>, j: nat)
    requires j < |puts| && forall i :: 0 <= i < |puts| ==> puts[i].Put?
  {
    exists i :: j < i < |puts| && puts[i].handle == puts[j].handle && puts[i].producer > puts[j].producer
  }

  ghost predicate RecordOk(c: Chained, puts: seq<MapOp>, j: nat)
    requires j < |puts| && (forall i :: 0 <= i < |puts| ==> puts[i].Put?)
    requires |c.buckets| == |c.chains| > 0 && |c.pool| > 0
  {
    var i := j % |c.pool|;
    Linked(c, i) && Holds(c.pool[i], puts[j]) && (c.pool[i].valid || Superseded(puts, j))
  }

  /** The chains hold exactly the recent inserts; one that is no longer valid has been
      superseded by a later one with a larger producer. */
  ghost predicate Records(c: Chained, puts: seq<MapOp>) {
    && WellFormed(c) && c.next == |puts|
    && (forall j :: 0 <= j < |puts| ==> puts[j].Put?)
    && (forall j :: Recent(|puts|, |c.pool|, j) ==> RecordOk(c, puts, j))
    && (forall i :: 0 <= i < |c.pool| && Linked(c, i) ==> exists j :: Recent(|puts|, |c.pool|, j) && j % |c.pool| == i)
  }

  /** The largest live producer among the recent inserts of the handle, or -1. */
  ghost predicate LatestProducer(puts: seq<MapOp>, poolSize: nat, handle: nat, last: nat, r: int)
    requires forall i :: 0 <= i < |puts| ==> puts[i].Put?
  {
    && r >= -1
    && (forall j :: Recent(|puts|, poolSize, j) && puts[j].handle == handle && puts[j].producer >= last ==>
         puts[j].producer <= r)
    && (r >= 0 ==> exists j :: Recent(|puts|, poolSize, j) && puts[j].handle == handle && puts[j].producer >= last
                               && puts[j].producer == r)
  }

  // ---- The records are kept -----------------------------------------------------------

  lemma RecentSlots(n: nat, poolSize: nat, j: nat)
    requires poolSize > 0 && Recent(n + 1, poolSize, j) && j < n
    ensures j % poolSize != n % poolSize
  {
    ModInjective(j, n, poolSize);
  }

  lemma SlotReused(n: nat, m: nat)
    requires m > 0 && n >= m
    ensures (n - m) % m == n % m
  {
    var q := (n - m) / m;
    Distribute(m, q, 1);
    DivModUnique(n, q + 1, (n - m) % m, m);
  }

  /** What a safe insert leaves of an older record. */
  lemma PutKeepsRecord(c: Chained, puts: seq<MapOp>, op: MapOp, j: nat)
    requires Records(c, puts) && op.Put? && SafeToInsert(c, op.handle, op.producer)
    requires Recent(|puts| + 1, |c.pool|, j) && j < |puts|
    ensures var r := Insert(c, op.handle, op.producer, op.isOutput);
            |r.pool| == |c.pool| && |r.buckets| == |r.chains| > 0 && RecordOk(r, puts + [op], j)
  {
    var r, more := Insert(c, op.handle, op.producer, op.isOutput), puts + [op];
    InsertKeeps(c, op.handle, op.producer, op.isOutput);
    RecentSlots(|puts|, |c.pool|, j);
    assert Recent(|puts|, |c.pool|, j);
    assert RecordOk(c, puts, j);
    var i := j % |c.pool|;
    OwnBucket(c, i, op.handle, op.producer);
    assert r.pool[i].valid <==> c.pool[i].valid && !Stale(c.pool[i], op.handle, op.producer, c.last);
    if !r.pool[i].valid {
      if c.pool[i].valid {
        assert more[|puts|] == op && more[j] == puts[j];
      } else {
        var i' :| j < i' < |puts| && puts[i'].handle == puts[j].handle && puts[i'].producer > puts[j].producer;
        assert more[i'] == puts[i'] && more[j] == puts[j];
      }
      assert Superseded(more, j);
    }
  }

  lemma NewRecord(c: Chained, op: MapOp, puts: seq<MapOp>)
    requires Records(c, puts) && op.Put? && SafeToInsert(c, op.handle, op.producer)
    ensures var r := Insert(c, op.handle, op.producer, op.isOutput);
            |r.pool| == |c.pool| && |r.buckets| == |r.chains| > 0 && RecordOk(r, puts + [op], |puts|)
  {
    InsertKeeps(c, op.handle, op.producer, op.isOutput);
    assert (puts + [op])[|puts|] == op;
  }

  lemma PutKeepsRecords(c: Chained, puts: seq<MapOp>, op: MapOp)
    requires Records(c, puts) && op.Put? && SafeToInsert(c, op.handle, op.producer)
    ensures Records(Insert(c, op.handle, op.producer, op.isOutput), puts + [op])
  {
    var r, more := Insert(c, op.handle, op.producer, op.isOutput), puts + [op];
    InsertKeeps(c, op.handle, op.producer, op.isOutput);
    forall j | Recent(|more|, |r.pool|, j) ensures RecordOk(r, more, j) {
      if j < |puts| { PutKeepsRecord(c, puts, op, j); } else { NewRecord(c, op, puts); }
    }
    forall i | 0 <= i < |r.pool| && Linked(r, i) ensures exists j :: Recent(|more|, |r.pool|, j) && j % |r.pool| == i {
      LinkedIsRecent(c, puts, op, i);
    }
  }

  lemma LinkedIsRecent(c: Chained, puts: seq<MapOp>, op: MapOp, i: nat)
    requires Records(c, puts) && op.Put? && SafeToInsert(c, op.handle, op.producer) && i < |c.pool|
    requires var r := Insert(c, op.handle, op.producer, op.isOutput); |r.buckets| == |r.chains| > 0 && Linked(r, i)
    ensures exists j :: Recent(|puts| + 1, |c.pool|, j) && j % |c.pool| == i
  {
    var n, m := |puts|, |c.pool|;
    InsertKeeps(c, op.handle, op.producer, op.isOutput);
    if i == Slot(c) {
      assert Recent(n + 1, m, n);
    } else {
      assert Linked(c, i);
      var j :| Recent(n, m, j) && j % m == i;
      if j == n - m { SlotReused(n, m); }
      assert Recent(n + 1, m, j);
    }
  }

  /** The operation is no insert that would break the chains. */
  ghost predicate Safe(c: Chained, op: MapOp) {
    op.Put? ==> WellFormed(c) && SafeToInsert(c, op.handle, op.producer)
  }

  /** In every run whose inserts are all safe the chains hold exactly the recent inserts. */
  lemma {:induction false} RunKeepsRecords(buckets: nat, poolSize: nat, mix: nat -> nat, ops: seq<MapOp>,
                                           states: seq<Chained>, k: nat)
    requires IsRun(buckets, poolSize, mix, ops, states) && k < |states|
    requires forall i :: 0 <= i < k ==> Safe(states[i], ops[i])
    ensures Records(states[k], Puts(ops, k))
    ensures |states[k].pool| == poolSize
  {
    if k == 0 {
      EmptyWellFormed(buckets, poolSize, mix);
    } else {
      RunKeepsRecords(buckets, poolSize, mix, ops, states, k - 1);
      var c := states[k - 1];
      assert Safe(c, ops[k - 1]);
      match ops[k - 1]
      case Put(handle, producer, isOutput) =>
        InsertKeeps(c, handle, producer, isOutput);
        PutKeepsRecords(c, Puts(ops, k - 1), ops[k - 1]);
      case Invalidate(last) =>
        InvalidateKeepsRecords(c, Puts(ops, k - 1), last);
    }
  }

  lemma InvalidateKeepsRecords(c: Chained, puts: seq<MapOp>, last: nat)
    requires Records(c, puts)
    ensures Records(c.(last := last), puts)
  {
    var r := c.(last := last);
    forall b | 0 <= b < |r.buckets| ensures ChainOk(r, b) { assert ChainOk(c, b); }
    forall j | Recent(|puts|, |r.pool|, j) ensures RecordOk(r, puts, j) { assert RecordOk(c, puts, j); }
    forall i | 0 <= i < |r.pool| && Linked(r, i) ensures exists j :: Recent(|puts|, |r.pool|, j) && j % |r.pool| == i {
      assert Linked(c, i);
    }
  }

  /** The condition is exact over whole runs: the chains stay acyclic and disjoint in every
      state if and only if every insert was safe. */
  lemma {:induction false} WellFormedExactly(buckets: nat, poolSize: nat, mix: nat -> nat, ops: seq<MapOp>,
                                             states: seq<Chained>, k: nat)
    requires IsRun(buckets, poolSize, mix, ops, states) && k < |states|
    ensures (forall i :: 0 <= i <= k ==> WellFormed(states[i]))
            <==> (forall i :: 0 <= i < k ==> Safe(states[i], ops[i]))
  {
    if forall i :: 0 <= i < k ==> Safe(states[i], ops[i]) {
      forall i | 0 <= i <= k ensures WellFormed(states[i]) {
        RunKeepsRecords(buckets, poolSize, mix, ops, states, i);
      }
    }
    if forall i :: 0 <= i <= k ==> WellFormed(states[i]) {
      forall i | 0 <= i < k ensures Safe(states[i], ops[i]) {
        if ops[i].Put? {
          assert WellFormed(states[i + 1]);
          assert states[i + 1] == states[i + 1].(chains := states[i + 1].chains);
          InsertKeepsExactly(states[i], ops[i].handle, ops[i].producer, ops[i].isOutput);
        }
      }
    }
  }

  // ---- Every entry, exactly -------------------------------------------------------------

  /** The last liveness bound that the log sets. */
  function Bound(ops: seq<MapOp>): nat {
    if ops == [] then 0
    else if ops[|ops| - 1].Invalidate? then ops[|ops| - 1].last
    else Bound(ops[..|ops| - 1])
  }

  lemma {:induction false} MapBound(buckets: nat, poolSize: nat, mix: nat -> nat, ops: seq<MapOp>,
                                    states: seq<Chained>, k: nat)
    requires IsRun(buckets, poolSize, mix, ops, states) && k < |states|
    requires forall i :: 0 <= i < k ==> Safe(states[i], ops[i])
    ensures states[k].last == Bound(ops[..k])
  {
    if k > 0 {
      MapBound(buckets, poolSize, mix, ops, states, k - 1);
      RunKeepsRecords(buckets, poolSize, mix, ops, states, k - 1);
      assert ops[..k][..k - 1] == ops[..k - 1];
    }
  }

  /** Insert a was made stale before operation k: by a later insert of its handle by a
      younger task, while its own producer was live, if it recorded an output. */
  ghost predicate Dimmed(ops: seq<MapOp>, a: nat, k: nat)
    requires a < k <= |ops| && ops[a].Put?
  {
    exists q :: a < q < k && MadeStale(ops, a, q)
  }

  predicate MadeStale(ops: seq<MapOp>, a: nat, q: nat)
    requires a < |ops| && ops[a].Put? && q < |ops|
  {
    && ops[q].Put? && ops[q].handle == ops[a].handle && ops[a].producer < ops[q].producer
    && ops[a].isOutput && Bound(ops[..q]) <= ops[a].producer
  }

  lemma {:induction false} SizesKept(buckets: nat, poolSize: nat, mix: nat -> nat, ops: seq<MapOp>,
                                     states: seq<Chained>, k: nat)
    requires IsRun(buckets, poolSize, mix, ops, states) && k < |states|
    requires forall i :: 0 <= i < k ==> Safe(states[i], ops[i])
    ensures |states[k].buckets| == buckets && states[k].mix == mix
  {
    if k > 0 {
      SizesKept(buckets, poolSize, mix, ops, states, k - 1);
      RunKeepsRecords(buckets, poolSize, mix, ops, states, k - 1);
      ApplySizes(states[k - 1], ops[k - 1]);
    }
  }

  lemma ApplySizes(c: Chained, op: MapOp)
    requires WellFormed(c)
    ensures |Apply(c, op).buckets| == |c.buckets| && Apply(c, op).mix == c.mix
  {
    if op.Put? { RemoveStaleKeeps(c, op.handle, op.producer); }
  }

  /** Earlier inserts keep their number. */
  lemma {:induction false} PutsGrow(ops: seq<MapOp>, a: nat, k: nat)
    requires a <= k <= |ops|
    ensures |Puts(ops, a)| <= |Puts(ops, k)|
    ensures Puts(ops, k)[..|Puts(ops, a)|] == Puts(ops, a)
    decreases k
  {
    if a < k { PutsGrow(ops, a, k - 1); }
  }

  /** One more operation leaves an older entry valid, unless it makes it stale. */
  lemma StaysValid(c: Chained, puts: seq<MapOp>, op: MapOp, j: nat)
    requires Records(c, puts) && Safe(c, op) && j < |puts|
    requires Recent(|puts| + (if op.Put? then 1 else 0), |c.pool|, j)
    ensures Records(c, puts) && RecordOk(c, puts, j) && |Apply(c, op).pool| == |c.pool|
    ensures var i := j % |c.pool|;
            Apply(c, op).pool[i].valid <==>
              && c.pool[i].valid
              && !(op.Put? && op.handle == puts[j].handle && c.last <= puts[j].producer < op.producer
                 && puts[j].isOutput)
  {
    assert Recent(|puts|, |c.pool|, j);
    assert RecordOk(c, puts, j);
    if op.Put? {
      InsertKeeps(c, op.handle, op.producer, op.isOutput);
      RecentSlots(|puts|, |c.pool|, j);
      OwnBucket(c, j % |c.pool|, op.handle, op.producer);
    }
  }

  lemma PutAt(ops: seq<MapOp>, a: nat, k: nat)
    requires a < k <= |ops| && ops[a].Put?
    ensures |Puts(ops, a)| < |Puts(ops, k)| && Puts(ops, k)[|Puts(ops, a)|] == ops[a]
  {
    PutsGrow(ops, a + 1, k);
    assert Puts(ops, a + 1) == Puts(ops, a) + [ops[a]];
    assert Puts(ops, k)[..|Puts(ops, a + 1)|][|Puts(ops, a)|] == ops[a];
  }

  lemma DimmedNext(ops: seq<MapOp>, a: nat, k: nat)
    requires a < k < |ops| && ops[a].Put?
    ensures Dimmed(ops, a, k + 1) <==> Dimmed(ops, a, k) || MadeStale(ops, a, k)
  {
  }

  lemma NewIsValid(buckets: nat, poolSize: nat, mix: nat -> nat, ops: seq<MapOp>, states: seq<Chained>, a: nat)
    requires IsRun(buckets, poolSize, mix, ops, states) && a < |ops| && ops[a].Put?
    requires forall i :: 0 <= i <= a ==> Safe(states[i], ops[i])
    ensures |states[a + 1].pool| == poolSize && states[a + 1].pool[|Puts(ops, a)| % poolSize].valid
    ensures !Dimmed(ops, a, a + 1)
  {
    RunKeepsRecords(buckets, poolSize, mix, ops, states, a);
    RemoveStaleKeeps(states[a], ops[a].handle, ops[a].producer);
  }

  /** An entry is valid exactly as long as nothing has made it stale. */
  lemma {:induction false} ValidExactly(buckets: nat, poolSize: nat, mix: nat -> nat, ops: seq<MapOp>,
                                        states: seq<Chained>, k: nat, a: nat)
    requires IsRun(buckets, poolSize, mix, ops, states) && a < k < |states| && ops[a].Put?
    requires forall i :: 0 <= i < k ==> Safe(states[i], ops[i])
    requires Recent(|Puts(ops, k)|, poolSize, |Puts(ops, a)|)
    ensures |states[k].pool| == poolSize
    ensures states[k].pool[|Puts(ops, a)| % poolSize].valid <==> !Dimmed(ops, a, k)
    decreases k
  {
    if k == a + 1 {
      NewIsValid(buckets, poolSize, mix, ops, states, a);
    } else {
      var m := k - 1;
      PutAt(ops, a, m);
      PutsGrow(ops, m, k);
      NextValid(buckets, poolSize, mix, ops, states, m, a);
      ValidExactly(buckets, poolSize, mix, ops, states, m, a);
      var i := |Puts(ops, a)| % poolSize;
      assert states[k].pool[i].valid <==> states[m].pool[i].valid && !MadeStale(ops, a, m);
      DimmedNext(ops, a, m);
    }
  }

  lemma NextValid(buckets: nat, poolSize: nat, mix: nat -> nat, ops: seq<MapOp>, states: seq<Chained>, k: nat, a: nat)
    requires IsRun(buckets, poolSize, mix, ops, states) && a < k < |ops| && ops[a].Put?
    requires forall i :: 0 <= i <= k ==> Safe(states[i], ops[i])
    requires Recent(|Puts(ops, k + 1)|, poolSize, |Puts(ops, a)|)
    ensures |states[k].pool| == |states[k + 1].pool| == poolSize
    ensures var i := |Puts(ops, a)| % poolSize;
            states[k + 1].pool[i].valid <==> states[k].pool[i].valid && !MadeStale(ops, a, k)
  {
    var c := states[k];
    RunKeepsRecords(buckets, poolSize, mix, ops, states, k);
    assert c.last == Bound(ops[..k]) by { MapBound(buckets, poolSize, mix, ops, states, k); }
    PutAt(ops, a, k);
    assert Safe(c, ops[k]) && states[k + 1] == Apply(c, ops[k]);
    StaysValid(c, Puts(ops, k), ops[k], |Puts(ops, a)|);
  }

  /** In every run whose inserts are all safe, each of the last poolSize inserts is in its
      place in the pool, on the chain of its handle's bucket, and valid exactly as long as
      nothing has made it stale. */
  lemma EntriesExactly(buckets: nat, poolSize: nat, mix: nat -> nat, ops: seq<MapOp>, states: seq<Chained>,
                       k: nat, a: nat)
    requires IsRun(buckets, poolSize, mix, ops, states) && a < k < |states| && ops[a].Put?
    requires forall i :: 0 <= i < k ==> Safe(states[i], ops[i])
    requires Recent(|Puts(ops, k)|, poolSize, |Puts(ops, a)|)
    ensures var c, i := states[k], |Puts(ops, a)| % poolSize;
            && |c.pool| == poolSize && |c.chains| == buckets && i in c.chains[mix(ops[a].handle) % buckets]
            && c.pool[i].handle == ops[a].handle && c.pool[i].producer == ops[a].producer
            && c.pool[i].isOutput == ops[a].isOutput && (c.pool[i].valid <==> !Dimmed(ops, a, k))
  {
    ValidExactly(buckets, poolSize, mix, ops, states, k, a);
    RunKeepsRecords(buckets, poolSize, mix, ops, states, k);
    SizesKept(buckets, poolSize, mix, ops, states, k);
    PutAt(ops, a, k);
    RecordPlaced(states[k], Puts(ops, k), |Puts(ops, a)|);
  }

  lemma RecordPlaced(c: Chained, puts: seq<MapOp>, j: nat)
    requires Records(c, puts) && Recent(|puts|, |c.pool|, j)
    ensures var i := j % |c.pool|;
            && |c.chains| == |c.buckets| && Holds(c.pool[i], puts[j])
            && i in c.chains[c.mix(puts[j].handle) % |c.buckets|]
  {
    assert RecordOk(c, puts, j);
  }

  // ---- Two ways to be safe ------------------------------------------------------------

  ghost predicate AllValid(c: Chained) {
    WellFormed(c) && forall i :: 0 <= i < |c.pool| && Linked(c, i) ==> c.pool[i].valid
  }

  lemma NoOlderKeepsValid(c: Chained, op: MapOp)
    requires AllValid(c) && FindsNoOlder(c, op)
    ensures Safe(c, op) && AllValid(Apply(c, op))
  {
    var r := Apply(c, op);
    if op.Put? {
      InsertKeeps(c, op.handle, op.producer, op.isOutput);
      forall i | 0 <= i < |r.pool| && Linked(r, i) ensures r.pool[i].valid {
        if i != Slot(c) { OwnBucket(c, i, op.handle, op.producer); }
      }
    } else {
      forall b | 0 <= b < |r.buckets| ensures ChainOk(r, b) { assert ChainOk(c, b); }
      forall i | 0 <= i < |r.pool| && Linked(r, i) ensures r.pool[i].valid { assert Linked(c, i); }
    }
  }

  /** A run in which no insert finds a live older output entry is safe throughout. */
  lemma {:induction false} NoOlderIsSafe(buckets: nat, poolSize: nat, mix: nat -> nat, ops: seq<MapOp>,
                                         states: seq<Chained>, k: nat)
    requires IsRun(buckets, poolSize, mix, ops, states) && k < |states|
    requires forall i :: 0 <= i < k ==> FindsNoOlder(states[i], ops[i])
    ensures AllValid(states[k]) && forall i :: 0 <= i < k ==> Safe(states[i], ops[i])
  {
    if k == 0 {
      EmptyWellFormed(buckets, poolSize, mix);
    } else {
      NoOlderIsSafe(buckets, poolSize, mix, ops, states, k - 1);
      NoOlderKeepsValid(states[k - 1], ops[k - 1]);
    }
  }

  /** Before the pool wraps for the first time every insert is safe. */
  lemma {:induction false} FirstLapIsSafe(buckets: nat, poolSize: nat, mix: nat -> nat, ops: seq<MapOp>,
                                          states: seq<Chained>, k: nat)
    requires IsRun(buckets, poolSize, mix, ops, states) && k < |states| && |Puts(ops, k)| <= poolSize
    ensures forall i :: 0 <= i < k ==> Safe(states[i], ops[i])
  {
    if k > 0 {
      FirstLapIsSafe(buckets, poolSize, mix, ops, states, k - 1);
      if ops[k - 1].Put? {
        RunKeepsRecords(buckets, poolSize, mix, ops, states, k - 1);
        FreeSlotIsSafe(states[k - 1], Puts(ops, k - 1), ops[k - 1]);
      }
    }
  }

  lemma FreeSlotIsSafe(c: Chained, puts: seq<MapOp>, op: MapOp)
    requires Records(c, puts) && op.Put? && |puts| < |c.pool|
    ensures Safe(c, op)
  {
    if Linked(c, Slot(c)) {
      var j :| Recent(|puts|, |c.pool|, j) && j % |c.pool| == Slot(c);
      ModInjective(j, |puts|, |c.pool|);
      assert false;
    }
  }

  // ---- What lookup finds ---------------------------------------------------------------

  /** Of several inserts of a handle the one with the largest producer is never superseded. */
  lemma {:induction false} LargestNotSuperseded(puts: seq<MapOp>, j: nat) returns (i: nat)
    requires (forall i :: 0 <= i < |puts| ==> puts[i].Put?) && j < |puts|
    ensures j <= i < |puts| && puts[i].handle == puts[j].handle && puts[i].producer >= puts[j].producer
    ensures !Superseded(puts, i)
    decreases |puts| - j
  {
    i := j;
    if Superseded(puts, j) {
      var k :| j < k < |puts| && puts[k].handle == puts[j].handle && puts[k].producer > puts[j].producer;
      i := LargestNotSuperseded(puts, k);
    }
  }

  lemma RecordIsOnChain(c: Chained, puts: seq<MapOp>, j: nat) returns (k: nat)
    requires Records(c, puts) && Recent(|puts|, |c.pool|, j)
    ensures k < |c.chains[BucketOf(c, puts[j].handle)]| && c.chains[BucketOf(c, puts[j].handle)][k] == j % |c.pool|
  {
    assert RecordOk(c, puts, j);
    k := PositionOf(c.chains[BucketOf(c, puts[j].handle)], j % |c.pool|);
  }

  lemma LookupAtLeast(c: Chained, puts: seq<MapOp>, j: nat)
    requires Records(c, puts) && Recent(|puts|, |c.pool|, j) && puts[j].producer >= c.last
    ensures puts[j].producer <= Lookup(c, puts[j].handle)
  {
    var i := LargestNotSuperseded(puts, j);
    assert Recent(|puts|, |c.pool|, i);
    assert RecordOk(c, puts, i);
    var b := BucketOf(c, puts[j].handle);
    assert ChainOk(c, b);
    var k := RecordIsOnChain(c, puts, i);
    BestIsLargest(c.pool, c.chains[b], puts[j].handle, c.last);
    assert Live(c.pool[c.chains[b][k]], puts[j].handle, c.last);
  }

  /** With the records kept, lookup returns the largest live producer of the handle among
      the recent inserts. */
  lemma LookupFindsLatest(c: Chained, puts: seq<MapOp>, handle: nat)
    requires Records(c, puts)
    ensures LatestProducer(puts, |c.pool|, handle, c.last, Lookup(c, handle))
  {
    var r, b := Lookup(c, handle), BucketOf(c, handle);
    assert ChainOk(c, b);
    BestIsLargest(c.pool, c.chains[b], handle, c.last);
    forall j | Recent(|puts|, |c.pool|, j) && puts[j].handle == handle && puts[j].producer >= c.last
      ensures puts[j].producer <= r
    {
      LookupAtLeast(c, puts, j);
    }
    if r >= 0 {
      var k :| 0 <= k < |c.chains[b]| && Live(c.pool[c.chains[b][k]], handle, c.last)
          && c.pool[c.chains[b][k]].producer == r;
      OnlyOwnChain(c, b, c.chains[b][k]);
      var j :| Recent(|puts|, |c.pool|, j) && j % |c.pool| == c.chains[b][k];
      assert RecordOk(c, puts, j);
    }
  }

  /** The refinement theorem: while every insert is safe, through any number of wraps, the
      chains stay acyclic and disjoint and lookup answers with the largest live producer
      among the last poolSize inserts. */
  lemma MapRefinesLog(buckets: nat, poolSize: nat, mix: nat -> nat, ops: seq<MapOp>, states: seq<Chained>, k: nat,
                      handle: nat)
    requires IsRun(buckets, poolSize, mix, ops, states) && k < |states|
    requires forall i :: 0 <= i < k ==> Safe(states[i], ops[i])
    ensures WellFormed(states[k])
    ensures forall i :: 0 <= i < |Puts(ops, k)| ==> Puts(ops, k)[i].Put?
    ensures LatestProducer(Puts(ops, k), poolSize, handle, states[k].last, Lookup(states[k], handle))
  {
    RunKeepsRecords(buckets, poolSize, mix, ops, states, k);
    LookupFindsLatest(states[k], Puts(ops, k), handle);
  }

  // ---- Inserts in the order of task ids -----------------------------------------------

  /** The position of the newest insert of the handle, or -1. */
  function Newest(puts: seq<MapOp>, handle: nat): (j: int)
    requires forall i :: 0 <= i < |puts| ==> puts[i].Put?
    ensures -1 <= j < |puts|
    ensures j >= 0 ==> puts[j].handle == handle
    ensures forall i :: j < i < |puts| ==> puts[i].handle != handle
  {
    if puts == [] then -1
    else if puts[|puts| - 1].handle == handle then |puts| - 1
    else Newest(puts[..|puts| - 1], handle)
  }

  /** The newest producer of the handle if it is live, or -1. */
  function LatestLive(puts: seq<MapOp>, handle: nat, last: nat): int
    requires forall i :: 0 <= i < |puts| ==> puts[i].Put?
  {
    var j := Newest(puts, handle);
    if j >= 0 && puts[j].producer >= last then puts[j].producer else -1
  }

  /** Inserts come in the order of task ids. */
  ghost predicate InOrder(puts: seq<MapOp>)
    requires forall i :: 0 <= i < |puts| ==> puts[i].Put?
  {
    forall i, j :: 0 <= i < j < |puts| ==> puts[i].producer <= puts[j].producer
  }

  /** Lookup answers with the newest live producer of the handle if and only if that one,
      when there is one, is still among the last poolSize inserts. */
  lemma LookupIsLatest(c: Chained, puts: seq<MapOp>, handle: nat)
    requires Records(c, puts) && InOrder(puts)
    ensures Lookup(c, handle) == LatestLive(puts, handle, c.last) <==>
            (LatestLive(puts, handle, c.last) >= 0 ==> Recent(|puts|, |c.pool|, Newest(puts, handle)))
  {
    var r, j := Lookup(c, handle), Newest(puts, handle);
    assert LatestProducer(puts, |c.pool|, handle, c.last, r) by { LookupFindsLatest(c, puts, handle); }
    NewestDecides(puts, |c.pool|, handle, c.last, r);
  }

  /** The largest recent live producer is the newest live one, if that is recent. */
  lemma NewestDecides(puts: seq<MapOp>, poolSize: nat, handle: nat, last: nat, r: int)
    requires (forall i :: 0 <= i < |puts| ==> puts[i].Put?) && InOrder(puts)
    requires LatestProducer(puts, poolSize, handle, last, r)
    ensures r == LatestLive(puts, handle, last) <==>
            (LatestLive(puts, handle, last) >= 0 ==> Recent(|puts|, poolSize, Newest(puts, handle)))
  {
    var j := Newest(puts, handle);
    if r >= 0 {
      var i :| Recent(|puts|, poolSize, i) && puts[i].handle == handle && puts[i].producer >= last
          && puts[i].producer == r;
      assert i <= j;
      assert puts[i].producer <= puts[j].producer;
    }
  }
}
