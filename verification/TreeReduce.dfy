/** The binary reduction builder: it submits every pair task up front and leaves the order
    of execution to the scheduler. */
module TreeReduce {
  import opened Common

  /** A submitted pair task: reduces tensors a and b into the new tensor out. */
  datatype PairTask = PairTask(a: nat, b: nat, out: nat)

  /** Tensors below base are leaves; task i produces tensor base + i from older tensors. */
  predicate SingleAssignment(tasks: seq<PairTask>, base: nat) {
    forall i :: 0 <= i < |tasks| ==> tasks[i].out == base + i && tasks[i].a < base + i && tasks[i].b < base + i
  }

  /** The leaves below a tensor, from left to right. */
  function Yield(tasks: seq<PairTask>, base: nat, h: nat): seq<nat>
    requires SingleAssignment(tasks, base) && h < base + |tasks|
    decreases h
  {
    if h < base then [h]
    else Yield(tasks, base, tasks[h - base].a) + Yield(tasks, base, tasks[h - base].b)
  }

  predicate Below(hs: seq<nat>, bound: nat) {
    forall i :: 0 <= i < |hs| ==> hs[i] < bound
  }

  function YieldAll(tasks: seq<PairTask>, base: nat, hs: seq<nat>): seq<nat>
    requires SingleAssignment(tasks, base) && Below(hs, base + |tasks|)
  {
    if hs == [] then [] else YieldAll(tasks, base, hs[..|hs| - 1]) + Yield(tasks, base, hs[|hs| - 1])
  }

  lemma {:induction false} YieldStable(tasks: seq<PairTask>, base: nat, t: PairTask, h: nat)
    requires SingleAssignment(tasks, base) && SingleAssignment(tasks + [t], base) && h < base + |tasks|
    ensures Yield(tasks + [t], base, h) == Yield(tasks, base, h)
    decreases h
  {
    if h >= base {
      assert (tasks + [t])[h - base] == tasks[h - base];
      YieldStable(tasks, base, t, tasks[h - base].a);
      YieldStable(tasks, base, t, tasks[h - base].b);
    }
  }

  lemma {:induction false} YieldAllStable(tasks: seq<PairTask>, base: nat, t: PairTask, hs: seq<nat>)
    requires SingleAssignment(tasks, base) && SingleAssignment(tasks + [t], base)
    requires Below(hs, base + |tasks|)
    ensures YieldAll(tasks + [t], base, hs) == YieldAll(tasks, base, hs)
  {
    if hs != [] {
      YieldAllStable(tasks, base, t, hs[..|hs| - 1]);
      YieldStable(tasks, base, t, hs[|hs| - 1]);
    }
  }

  lemma YieldAllSnoc(tasks: seq<PairTask>, base: nat, hs: seq<nat>, h: nat)
    requires SingleAssignment(tasks, base) && Below(hs, base + |tasks|) && h < base + |tasks|
    ensures Below(hs + [h], base + |tasks|)
    ensures YieldAll(tasks, base, hs + [h]) == YieldAll(tasks, base, hs) + Yield(tasks, base, h)
  {
    assert (hs + [h])[..|hs|] == hs;
  }

  lemma {:induction false} YieldAllConcat(tasks: seq<PairTask>, base: nat, xs: seq<nat>, ys: seq<nat>)
    requires SingleAssignment(tasks, base)
    requires Below(xs, base + |tasks|) && Below(ys, base + |tasks|)
    ensures YieldAll(tasks, base, xs + ys) == YieldAll(tasks, base, xs) + YieldAll(tasks, base, ys)
    decreases |ys|
  {
    if ys == [] {
      assert xs + ys == xs;
    } else {
      var front, h := ys[..|ys| - 1], ys[|ys| - 1];
      assert front + [h] == ys && xs + front + [h] == xs + ys;
      YieldAllConcat(tasks, base, xs, front);
      YieldAllSnoc(tasks, base, front, h);
      YieldAllSnoc(tasks, base, xs + front, h);
    }
  }

  lemma {:induction false} YieldAllLeaves(tasks: seq<PairTask>, base: nat, hs: seq<nat>)
    requires SingleAssignment(tasks, base) && Below(hs, base)
    ensures YieldAll(tasks, base, hs) == hs
  {
    if hs != [] {
      var front, h := hs[..|hs| - 1], hs[|hs| - 1];
      YieldAllLeaves(tasks, base, front);
      assert Yield(tasks, base, h) == [h];
      assert front + [h] == hs;
    }
  }

  lemma YieldOne(tasks: seq<PairTask>, base: nat, h: nat)
    requires SingleAssignment(tasks, base) && h < base + |tasks|
    ensures YieldAll(tasks, base, [h]) == Yield(tasks, base, h)
  {
    assert [h][..0] == [];
  }

  /** One more pair: its output stands for both inputs. */
  lemma PairStep(tasks: seq<PairTask>, base: nat, next: seq<nat>, rest: seq<nat>, t: PairTask)
    requires SingleAssignment(tasks, base) && t.out == base + |tasks|
    requires t.a < base + |tasks| && t.b < base + |tasks|
    requires Below(next, base + |tasks|) && Below(rest, base + |tasks|)
    ensures SingleAssignment(tasks + [t], base)
    ensures YieldAll(tasks + [t], base, next + [t.out]) + YieldAll(tasks + [t], base, rest) ==
            YieldAll(tasks, base, next) + YieldAll(tasks, base, [t.a, t.b] + rest)
  {
    var more := tasks + [t];
    assert SingleAssignment(more, base);
    YieldAllStable(tasks, base, t, next);
    YieldAllStable(tasks, base, t, rest);
    PairYield(tasks, base, t);
    YieldAllSnoc(more, base, next, t.out);
    YieldAllConcat(tasks, base, [t.a, t.b], rest);
    YieldTwo(tasks, base, t.a, t.b);
  }

  lemma YieldTwo(tasks: seq<PairTask>, base: nat, a: nat, b: nat)
    requires SingleAssignment(tasks, base) && a < base + |tasks| && b < base + |tasks|
    ensures YieldAll(tasks, base, [a, b]) == Yield(tasks, base, a) + Yield(tasks, base, b)
  {
    YieldOne(tasks, base, a);
    YieldAllSnoc(tasks, base, [a], b);
    assert [a] + [b] == [a, b];
  }

  lemma RoundStep(tasks: seq<PairTask>, base: nat, next: seq<nat>, current: seq<nat>, i: nat)
    requires SingleAssignment(tasks, base) && Below(next, base + |tasks|) && Below(current, base + |tasks|)
    requires i + 1 < |current|
    ensures var t := PairTask(current[i], current[i + 1], base + |tasks|);
            var more := tasks + [t];
            && SingleAssignment(more, base) && Below(next + [t.out], base + |more|) && Below(current, base + |more|)
            && YieldAll(more, base, next + [t.out]) + YieldAll(more, base, current[i + 2..]) ==
               YieldAll(tasks, base, next) + YieldAll(tasks, base, current[i..])
  {
    assert current[i..] == [current[i], current[i + 1]] + current[i + 2..];
    PairStep(tasks, base, next, current[i + 2..], PairTask(current[i], current[i + 1], base + |tasks|));
  }

  /** The tensor left over by an odd round stands for itself in the next one. */
  lemma CarryOver(tasks: seq<PairTask>, base: nat, next: seq<nat>, current: seq<nat>, i: nat)
    requires SingleAssignment(tasks, base) && Below(next, base + |tasks|) && Below(current, base + |tasks|)
    requires i <= |current| <= i + 1 && i % 2 == 0 && |current| > 0
    ensures var after := if |current| % 2 == 1 then next + [current[|current| - 1]] else next;
            && Below(after, base + |tasks|)
            && YieldAll(tasks, base, after) == YieldAll(tasks, base, next) + YieldAll(tasks, base, current[i..])
  {
  }

  // ---- The shape of the reduction ---------------------------------------------------

  function Pow2(k: nat): (r: nat)
    ensures r > 0
  {
    if k == 0 then 1 else 2 * Pow2(k - 1)
  }

  /** How many leaves a tensor stands for. */
  function Width(tasks: seq<PairTask>, base: nat, h: nat): (w: nat)
    requires SingleAssignment(tasks, base) && h < base + |tasks|
    ensures w > 0
    decreases h
  {
    if h < base then 1 else Width(tasks, base, tasks[h - base].a) + Width(tasks, base, tasks[h - base].b)
  }

  lemma {:induction false} WidthIsYield(tasks: seq<PairTask>, base: nat, h: nat)
    requires SingleAssignment(tasks, base) && h < base + |tasks|
    ensures Width(tasks, base, h) == |Yield(tasks, base, h)|
    decreases h
  {
    if h >= base {
      WidthIsYield(tasks, base, tasks[h - base].a);
      WidthIsYield(tasks, base, tasks[h - base].b);
    }
  }

  lemma {:induction false} WidthStable(tasks: seq<PairTask>, base: nat, t: PairTask, h: nat)
    requires SingleAssignment(tasks, base) && SingleAssignment(tasks + [t], base) && h < base + |tasks|
    ensures Width(tasks + [t], base, h) == Width(tasks, base, h)
    decreases h
  {
    if h >= base {
      assert (tasks + [t])[h - base] == tasks[h - base];
      WidthStable(tasks, base, t, tasks[h - base].a);
      WidthStable(tasks, base, t, tasks[h - base].b);
    }
  }

  /** The left input of task i stands for as many of the leaves below it as the largest power
      of two that leaves some for the right. */
  ghost predicate Balanced(tasks: seq<PairTask>, base: nat, i: nat)
    requires SingleAssignment(tasks, base) && i < |tasks|
  {
    exists k: nat :: Width(tasks, base, tasks[i].a) == Pow2(k) < Width(tasks, base, base + i) <= Pow2(k + 1)
  }

  /** The width of the left input: the round that submitted the task. */
  function LeftOf(tasks: seq<PairTask>, base: nat, i: nat): nat
    requires SingleAssignment(tasks, base) && i < |tasks|
  {
    Width(tasks, base, tasks[i].a)
  }

  /** Every task is balanced, and none comes after a task of a later round. */
  ghost predicate Shaped(tasks: seq<PairTask>, base: nat) {
    && SingleAssignment(tasks, base)
    && (forall i :: 0 <= i < |tasks| ==> Balanced(tasks, base, i))
    && (forall i, j :: 0 <= i < j < |tasks| ==> LeftOf(tasks, base, i) <= LeftOf(tasks, base, j))
  }

  /** Where the leaves below task i begin: right after those of the task before it, or at the
      first leaf when a new round begins. */
  function Offset(tasks: seq<PairTask>, base: nat, i: nat): nat
    requires SingleAssignment(tasks, base) && i < |tasks|
  {
    if i == 0 || LeftOf(tasks, base, i) != LeftOf(tasks, base, i - 1) then 0
    else Offset(tasks, base, i - 1) + Width(tasks, base, base + i - 1)
  }

  predicate Infix(leaves: seq<nat>, from: nat, part: seq<nat>) {
    from + |part| <= |leaves| && leaves[from..from + |part|] == part
  }

  /** Task i stands for the leaves from its offset on. */
  predicate InPlace(tasks: seq<PairTask>, base: nat, leaves: seq<nat>, i: nat)
    requires SingleAssignment(tasks, base) && i < |tasks|
  {
    Infix(leaves, Offset(tasks, base, i), Yield(tasks, base, base + i))
  }

  ghost predicate Placed(tasks: seq<PairTask>, base: nat, leaves: seq<nat>) {
    SingleAssignment(tasks, base) && forall i :: 0 <= i < |tasks| ==> InPlace(tasks, base, leaves, i)
  }

  // ---- One more task, by numbers --------------------------------------------------------

  lemma LeftStable(tasks: seq<PairTask>, base: nat, t: PairTask, i: nat)
    requires SingleAssignment(tasks, base) && SingleAssignment(tasks + [t], base) && i < |tasks|
    ensures LeftOf(tasks + [t], base, i) == LeftOf(tasks, base, i)
  {
    WidthStable(tasks, base, t, tasks[i].a);
  }

  lemma BalancedStable(tasks: seq<PairTask>, base: nat, t: PairTask, i: nat)
    requires SingleAssignment(tasks, base) && SingleAssignment(tasks + [t], base) && i < |tasks|
    requires Balanced(tasks, base, i)
    ensures Balanced(tasks + [t], base, i)
  {
    var k: nat :| Width(tasks, base, tasks[i].a) == Pow2(k) < Width(tasks, base, base + i) <= Pow2(k + 1);
    WidthStable(tasks, base, t, tasks[i].a);
    WidthStable(tasks, base, t, base + i);
    assert Width(tasks + [t], base, (tasks + [t])[i].a) == Pow2(k) < Width(tasks + [t], base, base + i) <= Pow2(k + 1);
  }

  /** A balanced task of the latest round keeps the shape. */
  lemma ShapedOn(tasks: seq<PairTask>, base: nat, t: PairTask)
    requires Shaped(tasks, base) && SingleAssignment(tasks + [t], base) && Balanced(tasks + [t], base, |tasks|)
    requires forall i :: 0 <= i < |tasks| ==> LeftOf(tasks, base, i) <= LeftOf(tasks + [t], base, |tasks|)
    ensures Shaped(tasks + [t], base)
  {
    var more := tasks + [t];
    forall i | 0 <= i < |more| ensures Balanced(more, base, i) {
      if i < |tasks| { BalancedStable(tasks, base, t, i); }
    }
    forall i, j | 0 <= i < j < |more| ensures LeftOf(more, base, i) <= LeftOf(more, base, j) {
      LeftStable(tasks, base, t, i);
      if j < |tasks| { LeftStable(tasks, base, t, j); }
    }
  }

  /** All tensors of a round stand for the same number of leaves, but for a shorter last. */
  ghost predicate Even(tasks: seq<PairTask>, base: nat, hs: seq<nat>, width: nat) {
    && SingleAssignment(tasks, base) && Below(hs, base + |tasks|)
    && forall i :: 0 <= i < |hs| ==> Width(tasks, base, hs[i]) <= width
                                     && (i + 1 < |hs| ==> Width(tasks, base, hs[i]) == width)
  }

  /** Of a round of tensors of width Pow2(r) the first i have been paired: n tasks are from
      earlier rounds, the others have produced next. */
  ghost predicate Midway(tasks: seq<PairTask>, base: nat, current: seq<nat>, r: nat, n: nat, i: nat, next: seq<nat>) {
    && Shaped(tasks, base) && Even(tasks, base, current, Pow2(r)) && Below(next, base + |tasks|)
    && i <= |current| && i == 2 * |next| && |tasks| == n + |next|
    && (forall j :: 0 <= j < n ==> LeftOf(tasks, base, j) < Pow2(r))
    && (forall j :: n <= j < |tasks| ==> LeftOf(tasks, base, j) == Pow2(r))
    && (forall j :: 0 <= j < |next| ==> next[j] == base + n + j)
    && forall j :: 0 <= j < |next| ==>
         Width(tasks, base, next[j]) <= Pow2(r + 1) && (2 * j + 2 < |current| ==>
               Width(tasks, base, next[j]) == Pow2(r + 1))
  }

  lemma PairWidths(tasks: seq<PairTask>, base: nat, current: seq<nat>, r: nat, i: nat)
    requires Even(tasks, base, current, Pow2(r)) && i + 1 < |current|
    ensures var t := PairTask(current[i], current[i + 1], base + |tasks|);
            && SingleAssignment(tasks + [t], base)
            && LeftOf(tasks + [t], base, |tasks|) == Pow2(r) && Balanced(tasks + [t], base, |tasks|)
            && Width(tasks + [t], base, t.out) <= Pow2(r + 1)
            && (i + 2 < |current| ==> Width(tasks + [t], base, t.out) == Pow2(r + 1))
  {
    var t := PairTask(current[i], current[i + 1], base + |tasks|);
    var more := tasks + [t];
    WidthStable(tasks, base, t, t.a);
    WidthStable(tasks, base, t, t.b);
    assert Width(more, base, t.out) == Width(more, base, t.a) + Width(more, base, t.b);
    assert Width(more, base, more[|tasks|].a) == Pow2(r) < Width(more, base, base + |tasks|) <= Pow2(r + 1);
  }

  lemma EvenStable(tasks: seq<PairTask>, base: nat, t: PairTask, hs: seq<nat>, width: nat)
    requires Even(tasks, base, hs, width) && SingleAssignment(tasks + [t], base)
    ensures Even(tasks + [t], base, hs, width)
  {
    forall i | 0 <= i < |hs| ensures Width(tasks + [t], base, hs[i]) == Width(tasks, base, hs[i]) {
      WidthStable(tasks, base, t, hs[i]);
    }
  }

  /** One pair more. */
  lemma MidwayOn(tasks: seq<PairTask>, base: nat, current: seq<nat>, r: nat, n: nat, i: nat, next: seq<nat>)
    requires Midway(tasks, base, current, r, n, i, next) && i + 1 < |current|
    ensures var t := PairTask(current[i], current[i + 1], base + |tasks|);
            Midway(tasks + [t], base, current, r, n, i + 2, next + [t.out])
  {
    var t := PairTask(current[i], current[i + 1], base + |tasks|);
    var more, after := tasks + [t], next + [t.out];
    PairWidths(tasks, base, current, r, i);
    ShapedOn(tasks, base, t);
    EvenStable(tasks, base, t, current, Pow2(r));
    forall j | 0 <= j < |tasks| ensures LeftOf(more, base, j) == LeftOf(tasks, base, j) {
      LeftStable(tasks, base, t, j);
    }
    forall j | 0 <= j < |next| ensures Width(more, base, after[j]) == Width(tasks, base, next[j]) {
      WidthStable(tasks, base, t, next[j]);
    }
  }

  // ---- One more task, by leaves -----------------------------------------------------------

  lemma {:induction false} OffsetStable(tasks: seq<PairTask>, base: nat, t: PairTask, i: nat)
    requires SingleAssignment(tasks, base) && SingleAssignment(tasks + [t], base) && i < |tasks|
    ensures Offset(tasks + [t], base, i) == Offset(tasks, base, i)
  {
    LeftStable(tasks, base, t, i);
    if i > 0 {
      LeftStable(tasks, base, t, i - 1);
      WidthStable(tasks, base, t, base + i - 1);
      OffsetStable(tasks, base, t, i - 1);
    }
  }

  /** The leaves that the round has paired so far end where those of the last task do. */
  ghost predicate Reached(tasks: seq<PairTask>, base: nat, next: seq<nat>) {
    && SingleAssignment(tasks, base) && Below(next, base + |tasks|)
    && (next != [] ==> tasks != [])
    && (next != [] ==>
          Offset(tasks, base, |tasks| - 1) + Width(tasks, base, base + |tasks| - 1) == |YieldAll(tasks, base, next)|)
  }

  /** The next pair begins where the round has got to. */
  lemma PairOffset(tasks: seq<PairTask>, base: nat, t: PairTask, n: nat, next: seq<nat>)
    requires SingleAssignment(tasks + [t], base) && Reached(tasks, base, next) && |tasks| == n + |next|
    requires forall j :: 0 <= j < n ==> LeftOf(tasks, base, j) < LeftOf(tasks + [t], base, |tasks|)
    requires forall j :: n <= j < |tasks| ==> LeftOf(tasks, base, j) == LeftOf(tasks + [t], base, |tasks|)
    ensures Offset(tasks + [t], base, |tasks|) == |YieldAll(tasks, base, next)|
  {
    if |tasks| > 0 {
      var m := |tasks| - 1;
      LeftStable(tasks, base, t, m);
      WidthStable(tasks, base, t, base + m);
      OffsetStable(tasks, base, t, m);
    }
  }

  /** The first two tensors of what is left. */
  lemma PairFront(tasks: seq<PairTask>, base: nat, current: seq<nat>, i: nat)
    requires SingleAssignment(tasks, base) && Below(current, base + |tasks|) && i + 1 < |current|
    ensures YieldAll(tasks, base, current[i..])
            == Yield(tasks, base, current[i]) + Yield(tasks, base, current[i + 1]) + YieldAll(tasks, base,
                  current[i + 2..])
  {
    var pair := [current[i], current[i + 1]];
    assert current[i..] == pair + current[i + 2..];
    YieldAllConcat(tasks, base, pair, current[i + 2..]);
    YieldTwo(tasks, base, current[i], current[i + 1]);
  }

  lemma InfixMiddle(a: seq<nat>, b: seq<nat>, c: seq<nat>)
    ensures Infix(a + (b + c), |a|, b)
  {
  }

  lemma PlacedOn(tasks: seq<PairTask>, base: nat, t: PairTask, leaves: seq<nat>)
    requires Placed(tasks, base, leaves) && SingleAssignment(tasks + [t], base)
    requires InPlace(tasks + [t], base, leaves, |tasks|)
    ensures Placed(tasks + [t], base, leaves)
  {
    var more := tasks + [t];
    forall i | 0 <= i < |more| ensures InPlace(more, base, leaves, i) {
      if i < |tasks| {
        assert InPlace(tasks, base, leaves, i);
        OffsetStable(tasks, base, t, i);
        YieldStable(tasks, base, t, base + i);
      }
    }
  }

  lemma PairYield(tasks: seq<PairTask>, base: nat, t: PairTask)
    requires SingleAssignment(tasks, base) && SingleAssignment(tasks + [t], base)
    requires t.a < base + |tasks| && t.b < base + |tasks|
    ensures Yield(tasks + [t], base, base + |tasks|) == Yield(tasks, base, t.a) + Yield(tasks, base, t.b)
  {
    assert (tasks + [t])[|tasks|] == t;
    YieldStable(tasks, base, t, t.a);
    YieldStable(tasks, base, t, t.b);
  }

  /** The round so far and what is left of it are the leaves. */
  ghost predicate Covers(tasks: seq<PairTask>, base: nat, leaves: seq<nat>, current: seq<nat>, i: nat, next: seq<nat>) {
    && Placed(tasks, base, leaves) && Below(current, base + |tasks|) && i <= |current| && Reached(tasks, base, next)
    && YieldAll(tasks, base, next) + YieldAll(tasks, base, current[i..]) == leaves
  }

  lemma CoversOn(tasks: seq<PairTask>, base: nat, leaves: seq<nat>, current: seq<nat>, n: nat, i: nat, next: seq<nat>)
    requires Covers(tasks, base, leaves, current, i, next) && i + 1 < |current| && |tasks| == n + |next|
    requires var t := PairTask(current[i], current[i + 1], base + |tasks|);
             && SingleAssignment(tasks + [t], base)
             && (forall j :: 0 <= j < n ==> LeftOf(tasks, base, j) < LeftOf(tasks + [t], base, |tasks|))
             && (forall j :: n <= j < |tasks| ==> LeftOf(tasks, base, j) == LeftOf(tasks + [t], base, |tasks|))
    ensures var t := PairTask(current[i], current[i + 1], base + |tasks|);
            Covers(tasks + [t], base, leaves, current, i + 2, next + [t.out])
  {
    var t := PairTask(current[i], current[i + 1], base + |tasks|);
    var more, after := tasks + [t], next + [t.out];
    PairOffset(tasks, base, t, n, next);
    PairYield(tasks, base, t);
    PairFront(tasks, base, current, i);
    InfixMiddle(YieldAll(tasks, base, next), Yield(more, base, t.out), YieldAll(tasks, base, current[i + 2..]));
    PlacedOn(tasks, base, t, leaves);
    RoundStep(tasks, base, next, current, i);
    ReachedOn(tasks, base, t, next);
  }

  lemma ReachedOn(tasks: seq<PairTask>, base: nat, t: PairTask, next: seq<nat>)
    requires SingleAssignment(tasks, base) && SingleAssignment(tasks + [t], base) && Below(next, base + |tasks|)
    requires Offset(tasks + [t], base, |tasks|) == |YieldAll(tasks, base, next)|
    ensures Reached(tasks + [t], base, next + [t.out])
  {
    var more, after := tasks + [t], next + [t.out];
    assert after[..|next|] == next && more[|tasks|] == t;
    YieldAllStable(tasks, base, t, next);
    WidthIsYield(more, base, t.out);
  }

  // ---- The builder --------------------------------------------------------------------

  /** A round of tensors of width Pow2(r), all tasks so far being of earlier rounds. */
  ghost predicate Between(tasks: seq<PairTask>, base: nat, leaves: seq<nat>, current: seq<nat>, r: nat) {
    && Shaped(tasks, base) && Even(tasks, base, current, Pow2(r)) && Placed(tasks, base, leaves)
    && YieldAll(tasks, base, current) == leaves
    && (forall j :: 0 <= j < |tasks| ==> LeftOf(tasks, base, j) < Pow2(r))
  }

  /** The round in progress, by numbers and by leaves. */
  ghost predicate Round(tasks: seq<PairTask>, base: nat, leaves: seq<nat>, current: seq<nat>, r: nat, n: nat,
                        i: nat, next: seq<nat>) {
    Midway(tasks, base, current, r, n, i, next) && Covers(tasks, base, leaves, current, i, next)
  }

  lemma RoundBegins(tasks: seq<PairTask>, base: nat, leaves: seq<nat>, current: seq<nat>, r: nat)
    requires Between(tasks, base, leaves, current, r)
    ensures Round(tasks, base, leaves, current, r, |tasks|, 0, [])
  {
    assert current[0..] == current;
  }

  lemma RoundGoesOn(tasks: seq<PairTask>, base: nat, leaves: seq<nat>, current: seq<nat>, r: nat, n: nat,
                    i: nat, next: seq<nat>)
    requires Round(tasks, base, leaves, current, r, n, i, next) && i + 1 < |current|
    ensures var t := PairTask(current[i], current[i + 1], base + |tasks|);
            Round(tasks + [t], base, leaves, current, r, n, i + 2, next + [t.out])
  {
    PairWidths(tasks, base, current, r, i);
    CoversOn(tasks, base, leaves, current, n, i, next);
    MidwayOn(tasks, base, current, r, n, i, next);
  }

  function Carried(current: seq<nat>, next: seq<nat>): seq<nat> {
    if |current| % 2 == 1 then next + [current[|current| - 1]] else next
  }

  lemma RoundEnds(tasks: seq<PairTask>, base: nat, leaves: seq<nat>, current: seq<nat>, r: nat, n: nat,
                  i: nat, next: seq<nat>)
    requires Round(tasks, base, leaves, current, r, n, i, next) && i <= |current| <= i + 1 && |current| > 0
    ensures Between(tasks, base, leaves, Carried(current, next), r + 1)
  {
    EvenCarried(tasks, base, current, r, n, i, next);
    CoversCarried(tasks, base, leaves, current, i, next);
    LeftDoubles(tasks, base, current, r, n, i, next);
  }

  /** The carried tensor makes up for an odd number. */
  lemma CarriedCount(current: seq<nat>, next: seq<nat>, i: nat)
    requires i <= |current| <= i + 1 && i == 2 * |next|
    ensures |Carried(current, next)| == |current| - |next| && |current| <= 2 * |Carried(current, next)| <= |current| + 1
    ensures |Carried(current, next)| == 1 && |current| > 1 ==> Carried(current, next) == next
  {
  }

  lemma CoversCarried(tasks: seq<PairTask>, base: nat, leaves: seq<nat>, current: seq<nat>, i: nat, next: seq<nat>)
    requires Covers(tasks, base, leaves, current, i, next) && i <= |current| <= i + 1 && i % 2 == 0 && |current| > 0
    ensures Below(Carried(current, next), base + |tasks|) && YieldAll(tasks, base, Carried(current, next)) == leaves
  {
    CarryOver(tasks, base, next, current, i);
  }

  lemma LeftDoubles(tasks: seq<PairTask>, base: nat, current: seq<nat>, r: nat, n: nat, i: nat, next: seq<nat>)
    requires Midway(tasks, base, current, r, n, i, next)
    ensures forall j :: 0 <= j < |tasks| ==> LeftOf(tasks, base, j) < Pow2(r + 1)
  {
    forall j | 0 <= j < |tasks| ensures LeftOf(tasks, base, j) < Pow2(r + 1) {
      assert LeftOf(tasks, base, j) <= Pow2(r) < 2 * Pow2(r);
    }
  }

  lemma EvenCarried(tasks: seq<PairTask>, base: nat, current: seq<nat>, r: nat, n: nat, i: nat, next: seq<nat>)
    requires Midway(tasks, base, current, r, n, i, next) && i <= |current| <= i + 1 && |current| > 0
    ensures Even(tasks, base, Carried(current, next), Pow2(r + 1))
  {
    var after := Carried(current, next);
    forall j | 0 <= j < |after|
      ensures after[j] < base + |tasks| && Width(tasks, base, after[j]) <= Pow2(r + 1)
              && (j + 1 < |after| ==> Width(tasks, base, after[j]) == Pow2(r + 1))
    {
      if j == |next| { assert after[j] == current[|current| - 1]; } else { assert after[j] == next[j]; }
    }
  }

  /** One round: pairs up neighbours, submits a task for each pair and carries an odd last
      tensor over. All tensors of a round, but for a shorter last one, stand for the same
      power of two of leaves; those of the next round stand for twice as many. */
  method PairNeighbours(submitted: seq<PairTask>, base: nat, current: seq<nat>, ghost leaves: seq<nat>, ghost r: nat)
      returns (tasks: seq<PairTask>, next: seq<nat>)
    requires |current| > 1 && Between(submitted, base, leaves, current, r)
    ensures Between(tasks, base, leaves, next, r + 1) && |current| <= 2 * |next| <= |current| + 1
    ensures |submitted| < |tasks| && |tasks| + |next| == |submitted| + |current|
    ensures |next| == 1 ==> next[0] == tasks[|tasks| - 1].out
  {
    tasks, next := submitted, [];
    var i: nat := 0;
    RoundBegins(tasks, base, leaves, current, r);
    while i + 1 < |current|
      invariant i <= |current| && i == 2 * |next| && |tasks| == |submitted| + |next|
      invariant next != [] ==> tasks[|tasks| - 1].out == next[|next| - 1]
      invariant Round(tasks, base, leaves, current, r, |submitted|, i, next)
    {
      var t := PairTask(current[i], current[i + 1], base + |tasks|);
      RoundGoesOn(tasks, base, leaves, current, r, |submitted|, i, next);
      tasks := tasks + [t];
      next := next + [t.out];
      i := i + 2;
    }
    CarriedCount(current, next, i);
    RoundEnds(tasks, base, leaves, current, r, |submitted|, i, next);
    next := Carried(current, next);
  }

  /** Builds the reduction of the leaves, all pair tasks of one round before those of the
      next. The tasks are in single-assignment form, one fewer than there are leaves; the
      last one submitted produces the root, the leaves below the root are the given leaves in
      order, and every task is balanced and in place. The code asserts that there is a leaf. */
  method Build(leaves: seq<nat>, base: nat) returns (tasks: seq<PairTask>, root: nat)
    requires leaves != [] && Below(leaves, base)
    ensures SingleAssignment(tasks, base)
    ensures |tasks| == |leaves| - 1
    ensures root < base + |tasks| && (tasks != [] ==> root == tasks[|tasks| - 1].out)
    ensures Yield(tasks, base, root) == leaves
    ensures Shaped(tasks, base) && Placed(tasks, base, leaves)
  {
    tasks := [];
    if |leaves| == 1 {
      return [], leaves[0];
    }
    var current: seq<nat> := leaves;
    YieldAllLeaves(tasks, base, leaves);
    ghost var r := 0;
    while |current| > 1
      invariant Between(tasks, base, leaves, current, r)
      invariant 1 <= |current| && |tasks| + |current| == |leaves|
      invariant |current| == 1 ==> tasks != [] && current[0] == tasks[|tasks| - 1].out
      decreases |current|
    {
      tasks, current := PairNeighbours(tasks, base, current, leaves, r);
      r := r + 1;
    }
    root := current[0];
    assert current == [root];
    YieldOne(tasks, base, root);
  }

  // ---- Depth ----------------------------------------------------------------------------

  /** The longest chain of tasks that must run one after the other to produce a tensor. */
  function Depth(tasks: seq<PairTask>, base: nat, h: nat): nat
    requires SingleAssignment(tasks, base) && h < base + |tasks|
    decreases h
  {
    if h < base then 0
    else
      var l, r := Depth(tasks, base, tasks[h - base].a), Depth(tasks, base, tasks[h - base].b);
      1 + if l >= r then l else r
  }

  lemma {:induction false} Pow2Order(j: nat, k: nat)
    requires Pow2(j) < Pow2(k)
    ensures j < k && Pow2(j) <= Pow2(k - 1)
  {
    if k > 0 && j > 0 { Pow2Order(j - 1, k - 1); }
  }

  lemma {:induction false} DepthWithin(tasks: seq<PairTask>, base: nat, h: nat, k: nat)
    requires SingleAssignment(tasks, base) && (forall i :: 0 <= i < |tasks| ==> Balanced(tasks, base, i))
    requires h < base + |tasks| && Width(tasks, base, h) <= Pow2(k)
    ensures Depth(tasks, base, h) <= k
    decreases h
  {
    if h >= base {
      var i := h - base;
      assert Balanced(tasks, base, i);
      var l: nat :| Width(tasks, base, tasks[i].a) == Pow2(l) < Width(tasks, base, base + i) <= Pow2(l + 1);
      Pow2Order(l, k);
      DepthWithin(tasks, base, tasks[i].a, k - 1);
      DepthWithin(tasks, base, tasks[i].b, k - 1);
    }
  }

  /** The reduction of n > 1 leaves takes the logarithm of n, rounded up, in a row. */
  lemma DepthBound(tasks: seq<PairTask>, base: nat, leaves: seq<nat>, root: nat)
    requires SingleAssignment(tasks, base) && (forall i :: 0 <= i < |tasks| ==> Balanced(tasks, base, i))
    requires base <= root < base + |tasks| && Yield(tasks, base, root) == leaves
    ensures Depth(tasks, base, root) >= 1 && Pow2(Depth(tasks, base, root) - 1) < |leaves|
  {
    var d := Depth(tasks, base, root);
    WidthIsYield(tasks, base, root);
    if Pow2(d - 1) >= |leaves| { DepthWithin(tasks, base, root, d - 1); }
  }

  // ---- Execution in any order ---------------------------------------------------

  ghost predicate Associative<T(!new)>(f: (T, T) -> T) {
    forall x, y, z :: f(f(x, y), z) == f(x, f(y, z))
  }

  /** The value of a tensor: leaves have the given values, other tensors what has been written. */
  function ValueAt<T>(val: nat -> T, written: map<nat, T>, base: nat, h: nat): Option<T> {
    if h < base then Some(val(h)) else if h in written then Some(written[h]) else None
  }

  /** One pair task runs; it finds its inputs written. */
  function Execute<T>(f: (T, T) -> T, val: nat -> T, written: map<nat, T>, base: nat, t: PairTask): map<nat, T> {
    var a, b := ValueAt(val, written, base, t.a), ValueAt(val, written, base, t.b);
    if a.Some? && b.Some? then written[t.out := f(a.value, b.value)] else written
  }

  /** What has been written after the tasks with the given indices ran in this order. */
  function ExecuteAll<T>(f: (T, T) -> T, val: nat -> T, base: nat, tasks: seq<PairTask>, order: seq<nat>): map<nat, T>
    requires Below(order, |tasks|)
  {
    if order == [] then map[]
    else Execute(f, val, ExecuteAll(f, val, base, tasks, order[..|order| - 1]), base, tasks[order[|order| - 1]])
  }

  /** Each task runs only after the tasks that produce its inputs. */
  ghost predicate Respects(tasks: seq<PairTask>, base: nat, order: seq<nat>) {
    && Below(order, |tasks|)
    && (forall k :: 0 <= k < |order| ==>
          && (tasks[order[k]].a < base || tasks[order[k]].a - base in order[..k])
          && (tasks[order[k]].b < base || tasks[order[k]].b - base in order[..k]))
  }

  /** The value a tensor denotes. */
  function Denotes<T>(f: (T, T) -> T, val: nat -> T, tasks: seq<PairTask>, base: nat, h: nat): T
    requires SingleAssignment(tasks, base) && h < base + |tasks|
    decreases h
  {
    if h < base then val(h)
    else f(Denotes(f, val, tasks, base, tasks[h - base].a), Denotes(f, val, tasks, base, tasks[h - base].b))
  }

  lemma RespectsPrefix(tasks: seq<PairTask>, base: nat, order: seq<nat>)
    requires order != [] && Respects(tasks, base, order)
    ensures Respects(tasks, base, order[..|order| - 1])
  {
    var earlier := order[..|order| - 1];
    assert forall k :: 0 <= k < |earlier| ==> earlier[k] == order[k] && earlier[..k] == order[..k];
  }

  /** The last task of an order adds its own output to what was written before. */
  lemma LastAdds<T>(f: (T, T) -> T, val: nat -> T, tasks: seq<PairTask>, base: nat, order: seq<nat>, x: T, y: T)
    requires order != [] && Below(order, |tasks|) && Below(order[..|order| - 1], |tasks|)
    requires var t, w := tasks[order[|order| - 1]], ExecuteAll(f, val, base, tasks, order[..|order| - 1]);
             ValueAt(val, w, base, t.a) == Some(x) && ValueAt(val, w, base, t.b) == Some(y)
    ensures var t, w := tasks[order[|order| - 1]], ExecuteAll(f, val, base, tasks, order[..|order| - 1]);
            ExecuteAll(f, val, base, tasks, order) == w[t.out := f(x, y)]
  {
  }

  /** Whatever the order, exactly the tensors of the tasks that ran are written, and each
      holds what it denotes. */
  lemma {:induction false} WrittenIsDenoted<T>(f: (T, T) -> T, val: nat -> T, tasks: seq<PairTask>, base: nat,
                                               order: seq<nat>, i: nat)
    requires SingleAssignment(tasks, base) && Respects(tasks, base, order) && i < |tasks|
    ensures var w := ExecuteAll(f, val, base, tasks, order);
            (base + i in w <==> i in order) && (i in order ==> w[base + i] == Denotes(f, val, tasks, base, base + i))
    decreases |order|, 1
  {
    if order != [] {
      var n := |order| - 1;
      var earlier, last := order[..n], order[n];
      var t := tasks[last];
      RespectsPrefix(tasks, base, order);
      WrittenIsDenoted(f, val, tasks, base, earlier, i);
      InputDenoted(f, val, tasks, base, order, t.a);
      InputDenoted(f, val, tasks, base, order, t.b);
      var x, y := Denotes(f, val, tasks, base, t.a), Denotes(f, val, tasks, base, t.b);
      LastAdds(f, val, tasks, base, order, x, y);
      assert Denotes(f, val, tasks, base, t.out) == f(x, y);
      assert t.out == base + last;
      assert i in order <==> i in earlier || i == last by { assert order == earlier + [last]; }
    }
  }

  /** An input of the last task to run holds what it denotes. */
  lemma {:induction false} InputDenoted<T>(f: (T, T) -> T, val: nat -> T, tasks: seq<PairTask>, base: nat,
                                           order: seq<nat>, h: nat)
    requires SingleAssignment(tasks, base) && order != [] && Respects(tasks, base, order)
    requires h == tasks[order[|order| - 1]].a || h == tasks[order[|order| - 1]].b
    ensures h < base + |tasks| && Below(order[..|order| - 1], |tasks|)
    ensures ValueAt(val, ExecuteAll(f, val, base, tasks, order[..|order| - 1]), base, h) ==
            Some(Denotes(f, val, tasks, base, h))
    decreases |order|, 0
  {
    var n := |order| - 1;
    assert tasks[order[n]].out == base + order[n];
    if h >= base {
      RespectsPrefix(tasks, base, order);
      WrittenIsDenoted(f, val, tasks, base, order[..n], h - base);
      assert base + (h - base) == h;
    }
  }

  /** The leaves combined from left to right. */
  function Fold<T>(f: (T, T) -> T, val: nat -> T, leaves: seq<nat>): T
    requires leaves != []
  {
    if |leaves| == 1 then val(leaves[0])
    else f(Fold(f, val, leaves[..|leaves| - 1]), val(leaves[|leaves| - 1]))
  }

  lemma {:induction false} FoldConcat<T(!new)>(f: (T, T) -> T, val: nat -> T, a: seq<nat>, b: seq<nat>)
    requires a != [] && b != [] && Associative(f)
    ensures Fold(f, val, a + b) == f(Fold(f, val, a), Fold(f, val, b))
    decreases |b|
  {
    var n := |b| - 1;
    assert (a + b)[..|a + b| - 1] == a + b[..n];
    if n == 0 {
      assert a + b[..n] == a;
    } else {
      FoldConcat(f, val, a, b[..n]);
      assert f(f(Fold(f, val, a), Fold(f, val, b[..n])), val(b[n]))
             == f(Fold(f, val, a), f(Fold(f, val, b[..n]), val(b[n])));
    }
  }

  lemma {:induction false} DenotesFold<T(!new)>(f: (T, T) -> T, val: nat -> T, tasks: seq<PairTask>, base: nat, h: nat)
    requires SingleAssignment(tasks, base) && h < base + |tasks| && Associative(f)
    ensures Yield(tasks, base, h) != []
    ensures Denotes(f, val, tasks, base, h) == Fold(f, val, Yield(tasks, base, h))
    decreases h
  {
    if h >= base {
      var t := tasks[h - base];
      DenotesFold(f, val, tasks, base, t.a);
      DenotesFold(f, val, tasks, base, t.b);
      FoldConcat(f, val, Yield(tasks, base, t.a), Yield(tasks, base, t.b));
    }
  }

  /** Schedule independence: with an associative pair function, every execution order that
      respects the input and output edges and runs the root's task leaves the left-to-right
      fold of the leaves in the root. */
  lemma ScheduleIndependence<T(!new)>(f: (T, T) -> T, val: nat -> T, tasks: seq<PairTask>, base: nat,
                                      leaves: seq<nat>, root: nat, order: seq<nat>)
    requires SingleAssignment(tasks, base) && base <= root < base + |tasks| && Yield(tasks, base, root) == leaves
    requires Respects(tasks, base, order) && root - base in order && Associative(f)
    ensures leaves != []
    ensures var w := ExecuteAll(f, val, base, tasks, order);
            root in w && w[root] == Fold(f, val, leaves)
  {
    WrittenIsDenoted(f, val, tasks, base, order, root - base);
    DenotesFold(f, val, tasks, base, root);
    assert base + (root - base) == root;
  }
}
