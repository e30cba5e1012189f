/** How a ring of descriptors with lists in the dependency pool stands for the tasks of the
    lifecycle: every id that still has its slot is shown there in full. */
module Refinement {
  import opened Lifecycle
  import opened Submission
  import opened DepPools
  import opened TaskRings
  import opened ScopeStacks

  /** The descriptor of task t under id i, given the heads of its lists. */
  function Shown(t: Task, i: nat, depHead: int, fanoutHead: int): Descriptor {
    Descriptor(i, depHead, t.faninCount, fanoutHead, t.fanoutCount, t.heapEnd, t.status,
               t.fanoutRef, t.faninRef, t.isGroup, t.groupSize, t.subDone)
  }

  ghost predicate Matches(d: Descriptor, pool: seq<Entry>, t: Task, i: nat) {
    && d.depHead < |pool| && d.fanoutHead < |pool|
    && ListOf(pool, d.depHead) == t.producers
    && ListOf(pool, d.fanoutHead) == t.consumers
    && d == Shown(t, i, d.depHead, d.fanoutHead)
  }

  ghost predicate Represents(slots: seq<Descriptor>, pool: seq<Entry>, ts: seq<Task>) {
    && |slots| > 0 && |pool| > 0 && Descending(pool)
    && forall i: nat :: Owned(|ts|, |slots|, i) ==> Matches(slots[i % |slots|], pool, ts[i], i)
  }

  /** Writing one descriptor changes one task. */
  lemma WriteRepresents(slots: seq<Descriptor>, pool: seq<Entry>, ts: seq<Task>, i: nat, d: Descriptor, t: Task)
    requires Represents(slots, pool, ts) && Owned(|ts|, |slots|, i) && Matches(d, pool, t, i)
    ensures Represents(slots[i % |slots| := d], pool, ts[i := t])
  {
    var w := |slots|;
    forall j: nat | Owned(|ts|, w, j) ensures Matches(slots[i % w := d][j % w], pool, ts[i := t][j], j) {
      assert Matches(slots[j % w], pool, ts[j], j);
      if j != i { OwnedApart(|ts|, w, i, j); }
    }
  }

  /** The same when the lists stay as they are. */
  lemma TouchRepresents(slots: seq<Descriptor>, pool: seq<Entry>, ts: seq<Task>, i: nat, d: Descriptor, t: Task)
    requires Represents(slots, pool, ts) && Owned(|ts|, |slots|, i)
    requires t.producers == ts[i].producers && t.consumers == ts[i].consumers
    requires d == Shown(t, i, slots[i % |slots|].depHead, slots[i % |slots|].fanoutHead)
    ensures Represents(slots[i % |slots| := d], pool, ts[i := t])
  {
  }

  /** A new task takes the slot of the task a window before it. */
  lemma AllocRepresents(slots: seq<Descriptor>, pool: seq<Entry>, ts: seq<Task>, d: Descriptor, t: Task)
    requires Represents(slots, pool, ts) && Matches(d, pool, t, |ts|)
    ensures Represents(slots[|ts| % |slots| := d], pool, ts + [t])
  {
    var w, n := |slots|, |ts|;
    forall j: nat | Owned(n + 1, w, j) ensures Matches(slots[n % w := d][j % w], pool, (ts + [t])[j], j) {
      if j < n {
        OwnedApart(n + 1, w, n, j);
        assert Owned(n, w, j);
      }
    }
  }

  /** New pool entries leave every list alone. */
  lemma GrowRepresents(slots: seq<Descriptor>, pool: seq<Entry>, ts: seq<Task>, e: Entry)
    requires Represents(slots, pool, ts) && e.next < |pool|
    ensures Represents(slots, pool + [e], ts)
  {
    forall i: nat | Owned(|ts|, |slots|, i) ensures Matches(slots[i % |slots|], pool + [e], ts[i], i) {
      var d := slots[i % |slots|];
      assert Matches(d, pool, ts[i], i);
      ListStable(pool, [e], d.depHead);
      ListStable(pool, [e], d.fanoutHead);
    }
  }

  /** All listed tasks still have their slots. */
  ghost predicate AllOwned(list: seq<nat>, n: nat, w: nat) {
    forall k :: 0 <= k < |list| ==> Owned(n, w, list[k])
  }

  /** Dropping the references of a scope in the ring gives the scope's tokens. */
  lemma {:induction false} DropRepresents(slots: seq<Descriptor>, pool: seq<Entry>, ts: seq<Task>, list: seq<nat>)
    requires Represents(slots, pool, ts) && AllOwned(list, |ts|, |slots|)
    ensures Represents(Dropped(slots, list), pool, GiveTokens(ts, list))
  {
    if list != [] {
      var front, i := list[..|list| - 1], list[|list| - 1];
      DropRepresents(slots, pool, ts, front);
      var r, us := Dropped(slots, front), GiveTokens(ts, front);
      var d := r[i % |r|];
      assert Matches(d, pool, us[i], i);
      TouchRepresents(r, pool, us, i, d.(fanoutRef := d.fanoutRef + 1),
                      us[i].(fanoutRef := us[i].fanoutRef + 1, released := true));
    }
  }

  // ---- A new edge ---------------------------------------------------------------

  /** Prepending to the producers of task c. */
  lemma PrependDep(slots: seq<Descriptor>, pool: seq<Entry>, ts: seq<Task>, c: nat, p: nat, t: Task)
    requires Represents(slots, pool, ts) && Owned(|ts|, |slots|, c)
    requires t == ts[c].(producers := [p] + ts[c].producers, preDone := t.preDone)
    ensures var d := slots[c % |slots|];
            Represents(slots[c % |slots| := d.(depHead := |pool|)], pool + [Entry(p, d.depHead)], ts[c := t])
  {
    var d := slots[c % |slots|];
    var e := Entry(p, d.depHead);
    assert Matches(d, pool, ts[c], c);
    GrowRepresents(slots, pool, ts, e);
    PrependList(pool, d.depHead, p);
    ListStable(pool, [e], d.fanoutHead);
    assert Matches(d.(depHead := |pool|), pool + [e], t, c);
    WriteRepresents(slots, pool + [e], ts, c, d.(depHead := |pool|), t);
  }

  /** Prepending to the consumers of task p, and counting the new one. */
  lemma PrependFanout(slots: seq<Descriptor>, pool: seq<Entry>, ts: seq<Task>, p: nat, c: nat, t: Task)
    requires Represents(slots, pool, ts) && Owned(|ts|, |slots|, p)
    requires t == ts[p].(fanoutCount := ts[p].fanoutCount + 1, consumers := [c] + ts[p].consumers)
    ensures var d := slots[p % |slots|];
            Represents(slots[p % |slots| := d.(fanoutCount := d.fanoutCount + 1, fanoutHead := |pool|)],
                       pool + [Entry(c, d.fanoutHead)], ts[p := t])
  {
    var d := slots[p % |slots|];
    var e, d' := Entry(c, d.fanoutHead), d.(fanoutCount := d.fanoutCount + 1, fanoutHead := |pool|);
    assert Matches(d, pool, ts[p], p);
    GrowRepresents(slots, pool, ts, e);
    PrependList(pool, d.fanoutHead, c);
    ListStable(pool, [e], d.depHead);
    assert Matches(d', pool + [e], t, p);
    WriteRepresents(slots, pool + [e], ts, p, d', t);
  }

  // ---- Edges of one submission ----------------------------------------------------

  lemma {:induction false} SourcesGrow(s: Orch, params: seq<Param>, tid: nat, k: nat)
    requires k <= |params|
    ensures |Sources(s, params[..k], tid)| <= |Sources(s, params, tid)|
    decreases |params|
  {
    if k == |params| {
      assert params[..k] == params;
    } else {
      var earlier := params[..|params| - 1];
      assert earlier[..k] == params[..k];
      SourcesGrow(s, earlier, tid, k);
    }
  }

  /** A parameter that adds an edge is within the count of the whole list. */
  lemma NextEdgeCounted(s: Orch, params: seq<Param>, k: nat)
    requires |s.tasks| > 0 && HandlesKnown(s) && s.last < |s.tasks| && k < |params|
    requires s.tasks[|s.tasks| - 1].producers == []
    ensures var tid, mid := |s.tasks| - 1, Scan(s, params[..k]);
            |ScanOne(mid, params[k]).tasks[tid].producers| <= |Sources(s, params, tid)|
  {
    ScanFindsSources(s, params[..k + 1]);
    assert params[..k + 1][..k] == params[..k];
    SourcesGrow(s, params, |s.tasks| - 1, k + 1);
  }
}
