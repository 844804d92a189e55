/** The selective grab of the thread-safe container (simple_container_V2.h).  Each operation is one
    critical section, so the container is its item list. */
module Container {
  import opened Wrappers

  datatype Select = Skip | Grab | Stop | StopAndRequeue

  /** The selection function: what its i-th call decides about the item it is given.  It may depend on
      the number of calls made before, so every sequence of decisions is covered. */
  type Selector<!T> = (nat, T) -> Select

  // ----- The specification: a stable partition of the items from the offset on

  /** Those of the first n items that are decided as d, in their order. */
  function Filter<T>(items: seq<T>, n: nat, choose: Selector<T>, d: Select): seq<T>
    requires n <= |items|
  {
    if n == 0 then []
    else
      var before := Filter(items, n - 1, choose, d);
      if choose(n - 1, items[n - 1]) == d then before + [items[n - 1]] else before
  }

  /** The walk ends before item n: it is the first one at which the container is exhausted, the
      selector stops, or enough was taken. */
  ghost predicate EndsAt<T>(items: seq<T>, choose: Selector<T>, count: nat, n: nat) {
    && n <= |items|
    && (forall i: nat :: i < n ==> Passes(items, choose, i))
    && (forall i: nat :: i < n ==> |Filter(items, i, choose, Grab)| < count)
    && |Filter(items, n, choose, Grab)| <= count
    && (n == |items| || |Filter(items, n, choose, Grab)| == count
        || choose(n, items[n]) == Stop || choose(n, items[n]) == StopAndRequeue)
  }

  /** The selector asked for everything to be put back. */
  ghost predicate Requeues<T>(items: seq<T>, choose: Selector<T>, count: nat, n: nat)
    requires EndsAt(items, choose, count, n)
  {
    n < |items| && |Filter(items, n, choose, Grab)| < count && choose(n, items[n]) == StopAndRequeue
  }

  /** What stays: the skipped items, and those the walk did not reach. */
  ghost function Kept<T>(items: seq<T>, choose: Selector<T>, n: nat): seq<T>
    requires n <= |items|
  {
    Filter(items, n, choose, Skip) + items[n..]
  }

  ghost function Taken<T>(items: seq<T>, choose: Selector<T>, n: nat): seq<T>
    requires n <= |items|
  {
    Filter(items, n, choose, Grab)
  }

  ghost predicate Passes<T>(items: seq<T>, choose: Selector<T>, i: nat)
  {
    i < |items| && (choose(i, items[i]) == Grab || choose(i, items[i]) == Skip)
  }

  /** The end of the walk is determined: no end lies past another. */
  lemma EndIsUnique<T>(items: seq<T>, choose: Selector<T>, count: nat, m: nat, n: nat)
    requires EndsAt(items, choose, count, m) && EndsAt(items, choose, count, n)
    ensures m == n
  {
    assert Passes(items, choose, m) ==> |Filter(items, m, choose, Grab)| == count;
    assert Passes(items, choose, n) ==> |Filter(items, n, choose, Grab)| == count;
    assert m < n ==> Passes(items, choose, m);
    assert n < m ==> Passes(items, choose, n);
  }

  lemma MultisetAppend<T>(s: seq<T>, t: seq<T>)
    ensures multiset(s + t) == multiset(s) + multiset(t)
  {
  }

  lemma PutEither<T>(a: multiset<T>, b: multiset<T>, x: T)
    ensures (a + multiset{x}) + b == (a + b) + multiset{x}
    ensures a + (b + multiset{x}) == (a + b) + multiset{x}
  {
  }

  /** Two lists hold between them what a third one holds. */
  ghost predicate Splits<T>(a: seq<T>, b: seq<T>, all: seq<T>) {
    multiset(a) + multiset(b) == multiset(all)
  }

  /** Putting one more item in one of the two. */
  lemma PutOne<T>(a: seq<T>, b: seq<T>, all: seq<T>, x: T)
    requires Splits(a, b, all)
    ensures Splits(a + [x], b, all + [x]) && Splits(a, b + [x], all + [x])
  {
    MultisetAppend(a, [x]);
    MultisetAppend(b, [x]);
    MultisetAppend(all, [x]);
    PutEither(multiset(a), multiset(b), x);
  }

  lemma {:induction false} FilterSplits<T>(items: seq<T>, choose: Selector<T>, n: nat)
    requires n <= |items| && forall i: nat :: i < n ==> Passes(items, choose, i)
    ensures Splits(Filter(items, n, choose, Grab), Filter(items, n, choose, Skip), items[..n])
  {
    if n > 0 {
      var m := n - 1;
      FilterSplits(items, choose, m);
      assert Passes(items, choose, m);
      assert items[..n] == items[..m] + [items[m]];
      PutOne(Filter(items, m, choose, Grab), Filter(items, m, choose, Skip), items[..m], items[m]);
    }
  }

  lemma PutMany<T>(a: seq<T>, b: seq<T>, done: seq<T>, more: seq<T>)
    requires multiset(a) + multiset(b) == multiset(done)
    ensures multiset(a) + multiset(b + more) == multiset(done + more)
  {
    MultisetAppend(b, more);
    MultisetAppend(done, more);
    assert multiset(a) + (multiset(b) + multiset(more)) == (multiset(a) + multiset(b)) + multiset(more);
  }

  lemma PutFront<T>(front: seq<T>, kept: seq<T>, taken: seq<T>, rest: seq<T>)
    requires multiset(taken) + multiset(kept) == multiset(rest)
    ensures multiset(taken) + multiset(front + kept) == multiset(front + rest)
    ensures multiset(front + kept + taken) == multiset(front + rest)
  {
    MultisetAppend(front, kept);
    MultisetAppend(front, rest);
    MultisetAppend(front + kept, taken);
    assert multiset(taken) + (multiset(front) + multiset(kept)) == multiset(front) + (multiset(taken) + multiset(kept));
  }

  /** Nothing is lost, duplicated or invented, and no more than `count` items are taken. */
  lemma PartitionConserves<T>(items: seq<T>, choose: Selector<T>, count: nat, n: nat)
    requires EndsAt(items, choose, count, n)
    ensures multiset(Taken(items, choose, n)) + multiset(Kept(items, choose, n)) == multiset(items)
    ensures |Taken(items, choose, n)| <= count
  {
    FilterSplits(items, choose, n);
    assert items == items[..n] + items[n..];
    PutMany(Taken(items, choose, n), Filter(items, n, choose, Skip), items[..n], items[n..]);
  }

  ghost predicate Increasing(at: seq<nat>) {
    forall i, j :: 0 <= i < j < |at| ==> at[i] < at[j]
  }

  /** The partition is stable: the filtered items sit at increasing positions, exactly those decided
      as d. */
  lemma {:induction false} FilterKeepsOrder<T>(items: seq<T>, n: nat, choose: Selector<T>, d: Select) returns (at: seq<nat>)
    requires n <= |items|
    ensures |at| == |Filter(items, n, choose, d)| && Increasing(at)
    ensures forall k :: 0 <= k < |at| ==> at[k] < n && Filter(items, n, choose, d)[k] == items[at[k]]
    ensures forall i: nat :: i < n ==> (i in at <==> choose(i, items[i]) == d)
  {
    at := [];
    if n > 0 {
      var before := FilterKeepsOrder(items, n - 1, choose, d);
      if choose(n - 1, items[n - 1]) == d {
        at := before + [n - 1];
        assert Filter(items, n, choose, d) == Filter(items, n - 1, choose, d) + [items[n - 1]];
        assert forall i: nat :: i in at <==> i in before || i == n - 1;
      } else {
        at := before;
        assert Filter(items, n, choose, d) == Filter(items, n - 1, choose, d);
      }
    }
  }

  // ----- The walk

  /** In the middle of a grab: the first `call` items of `rest` have been decided about; the skipped
      ones were walked over, the taken ones erased. */
  ghost predicate Walking<T>(front: seq<T>, rest: seq<T>, choose: Selector<T>, count: nat,
                             call: nat, items: seq<T>, current: nat, result: seq<T>) {
    && call <= |rest|
    && items == front + Kept(rest, choose, call)
    && current == |front| + |Filter(rest, call, choose, Skip)|
    && result == Taken(rest, choose, call)
    && (forall i: nat :: i < call ==> Passes(rest, choose, i))
    && (forall i: nat :: i < call ==> |Filter(rest, i, choose, Grab)| < count)
  }

  lemma AtCurrent<T>(front: seq<T>, skipped: seq<T>, tail: seq<T>)
    ensures var all := front + (skipped + tail);
            var current := |front| + |skipped|;
            all[..current] == front + skipped && all[current..] == tail
  {
    assert front + (skipped + tail) == (front + skipped) + tail;
  }

  lemma WalkStarts<T>(front: seq<T>, rest: seq<T>, choose: Selector<T>, count: nat)
    ensures Walking(front, rest, choose, count, 0, front + rest, |front|, [])
  {
    assert Kept(rest, choose, 0) == rest;
  }

  lemma WalkGrabs<T>(front: seq<T>, rest: seq<T>, choose: Selector<T>, count: nat,
                     call: nat, items: seq<T>, current: nat, result: seq<T>)
    requires Walking(front, rest, choose, count, call, items, current, result)
    requires |result| < count && current < |items|
    ensures call < |rest| && items[current] == rest[call]
    ensures choose(call, rest[call]) == Grab ==>
              Walking(front, rest, choose, count, call + 1, items[..current] + items[current + 1..], current, result + [rest[call]])
  {
    var skipped := Filter(rest, call, choose, Skip);
    AtCurrent(front, skipped, rest[call..]);
    assert items[current] == items[current..][0];
    assert items[current + 1..] == items[current..][1..] == rest[call + 1..];
    assert (front + skipped) + rest[call + 1..] == front + (skipped + rest[call + 1..]);
  }

  lemma WalkSkips<T>(front: seq<T>, rest: seq<T>, choose: Selector<T>, count: nat,
                     call: nat, items: seq<T>, current: nat, result: seq<T>)
    requires Walking(front, rest, choose, count, call, items, current, result)
    requires |result| < count && call < |rest| && choose(call, rest[call]) == Skip
    ensures Walking(front, rest, choose, count, call + 1, items, current + 1, result)
  {
    var skipped := Filter(rest, call, choose, Skip);
    assert rest[call..] == [rest[call]] + rest[call + 1..];
    assert skipped + rest[call..] == (skipped + [rest[call]]) + rest[call + 1..];
  }

  /** What a grab of the items from `rest` on leaves behind and returns. */
  ghost predicate Grabbed<T>(front: seq<T>, rest: seq<T>, choose: Selector<T>, count: nat,
                             call: nat, items: seq<T>, result: seq<T>) {
    && EndsAt(rest, choose, count, call)
    && if Requeues(rest, choose, count, call)
       then result == [] && items == front + Kept(rest, choose, call) + Taken(rest, choose, call)
       else result == Taken(rest, choose, call) && items == front + Kept(rest, choose, call)
  }

  /** The walk over, whichever way it ended. */
  lemma WalkEnds<T>(front: seq<T>, rest: seq<T>, choose: Selector<T>, count: nat,
                    call: nat, items: seq<T>, current: nat, result: seq<T>)
    requires Walking(front, rest, choose, count, call, items, current, result)
    ensures |result| == count ==> Grabbed(front, rest, choose, count, call, items, result)
    ensures |result| < count && current >= |items| ==> Grabbed(front, rest, choose, count, call, items, result)
    ensures |result| < count && call < |rest| && choose(call, rest[call]) == Stop ==>
              Grabbed(front, rest, choose, count, call, items, result)
    ensures |result| < count && call < |rest| && choose(call, rest[call]) == StopAndRequeue ==>
              Grabbed(front, rest, choose, count, call, items + result, [])
  {
  }

  /** One turn of the walk, by what the selector decides about the item it is at. */
  lemma WalkStep<T>(front: seq<T>, rest: seq<T>, choose: Selector<T>, count: nat,
                    call: nat, items: seq<T>, current: nat, result: seq<T>)
    requires Walking(front, rest, choose, count, call, items, current, result)
    requires |result| < count && current < |items|
    ensures call < |rest|
    ensures match choose(call, items[current])
            case StopAndRequeue => Grabbed(front, rest, choose, count, call, items + result, [])
            case Stop => Grabbed(front, rest, choose, count, call, items, result)
            case Skip => Walking(front, rest, choose, count, call + 1, items, current + 1, result)
            case Grab =>
              var items', result' := items[..current] + items[current + 1..], result + [items[current]];
              Walking(front, rest, choose, count, call + 1, items', current, result')
              && (|result'| == count ==> Grabbed(front, rest, choose, count, call + 1, items', result'))
  {
    WalkGrabs(front, rest, choose, count, call, items, current, result);
    match choose(call, items[current])
    case Skip => WalkSkips(front, rest, choose, count, call, items, current, result);
    case Grab =>
      WalkEnds(front, rest, choose, count, call + 1, items[..current] + items[current + 1..], current, result + [items[current]]);
    case _ => WalkEnds(front, rest, choose, count, call, items, current, result);
  }

  datatype Outcome<T> = Outcome(items: seq<T>, result: seq<T>, calls: nat)

  /** The walk itself, from any point on. */
  ghost function Walk<T>(items: seq<T>, current: nat, call: nat, result: seq<T>, choose: Selector<T>, count: nat): Outcome<T>
    requires current <= |items|
    decreases |items| - current
  {
    if current == |items| then Outcome(items, result, call)
    else match choose(call, items[current])
      case StopAndRequeue => Outcome(items + result, [], call)
      case Stop => Outcome(items, result, call)
      case Skip => Walk(items, current + 1, call + 1, result, choose, count)
      case Grab =>
        var erased, more := items[..current] + items[current + 1..], result + [items[current]];
        if |more| >= count then Outcome(erased, more, call + 1) else Walk(erased, current, call + 1, more, choose, count)
  }

  lemma {:induction false} WalkGrabbed<T>(front: seq<T>, rest: seq<T>, choose: Selector<T>, count: nat,
                                          call: nat, items: seq<T>, current: nat, result: seq<T>)
    requires Walking(front, rest, choose, count, call, items, current, result)
    requires |result| < count && current <= |items|
    ensures var o := Walk(items, current, call, result, choose, count);
            Grabbed(front, rest, choose, count, o.calls, o.items, o.result)
    decreases |items| - current
  {
    if current == |items| {
      WalkEnds(front, rest, choose, count, call, items, current, result);
    } else {
      WalkStep(front, rest, choose, count, call, items, current, result);
      match choose(call, items[current])
      case Skip => WalkGrabbed(front, rest, choose, count, call + 1, items, current + 1, result);
      case Grab =>
        if |result| + 1 < count {
          WalkGrabbed(front, rest, choose, count, call + 1, items[..current] + items[current + 1..], current, result + [items[current]]);
        }
      case _ =>
    }
  }

  /** The walk with its erasures is a stable partition of the items from its start on. */
  lemma GrabPartitions<T>(items: seq<T>, from: nat, choose: Selector<T>, count: nat)
    requires from <= |items| && count > 0
    ensures var o := Walk(items, from, 0, [], choose, count);
            Grabbed(items[..from], items[from..], choose, count, o.calls, o.items, o.result)
  {
    WalkStarts(items[..from], items[from..], choose, count);
    assert items[..from] + items[from..] == items;
    WalkGrabbed(items[..from], items[from..], choose, count, 0, items, from, []);
  }

  /** What a caller sees of a grab: whatever the selector does, the container and the result together
      hold the items there were, and those before the offset are where they were. */
  lemma GrabConserves<T>(front: seq<T>, rest: seq<T>, choose: Selector<T>, count: nat,
                         call: nat, items: seq<T>, result: seq<T>)
    requires Grabbed(front, rest, choose, count, call, items, result)
    ensures multiset(result) + multiset(items) == multiset(front + rest)
    ensures |result| <= count && front <= items
  {
    PartitionConserves(rest, choose, count, call);
    PutFront(front, Kept(rest, choose, call), Taken(rest, choose, call), rest);
    assert multiset(result) + multiset(items) == multiset(front + rest);
  }

  // ----- The container

  class Items<T> {
    var items: seq<T>

    constructor ()
      ensures items == []
    {
      items := [];
    }

    /** insertManyUnlocked, and with it requeueUnlocked. */
    method InsertMany(more: seq<T>, insertBack: bool)
      modifies this
      ensures items == if insertBack then old(items) + more else more + old(items)
    {
      items := if insertBack then items + more else more + items;
    }

    /** grabItemsUnlocked. */
    method GrabFront(count: nat) returns (result: seq<T>)
      modifies this
      ensures result + items == old(items) && |result| == Min(count, |old(items)|)
    {
      var actualCount := Min(count, |items|);
      result := items[..actualCount];
      items := items[actualCount..];
    }

    /** snapshot: up to `count` items from `offset` on; the container is untouched. */
    method Snapshot(count: nat, offset: nat) returns (result: seq<T>)
      ensures var from := Min(offset, |items|);
              result <= items[from..] && |result| == Min(count, |items| - from)
    {
      var current := Min(offset, |items|);
      ghost var from := current;
      result := [];
      while current < |items| && |result| < count
        invariant from <= current <= |items| && result == items[from..current] && |result| <= count
      {
        result := result + [items[current]];
        current := current + 1;
      }
    }

    /** The predicate form of grab: items before the offset are untouched, the others are partitioned
        stably, and a requeue returns nothing and appends what was taken to what remained.  `calls` is
        how many items were passed over. */
    method GrabSelected(count: nat, selector: Option<Selector<T>>, offset: nat)
      returns (result: seq<T>, ghost calls: nat)
      modifies this
      ensures count == 0 || selector.None? ==> result == [] && items == old(items)
      ensures count > 0 && selector.Some? ==>
                var from := Min(offset, |old(items)|);
                Grabbed(old(items)[..from], old(items)[from..], selector.value, count, calls, items, result)
    {
      if count == 0 || selector.None? {
        return [], 0;
      }
      var current := Min(offset, |items|);
      GrabPartitions(items, current, selector.value, count);
      result, calls := GrabFrom(count, selector.value, current);
    }

    /** The loop of GrabSelected, from a position on. */
    method GrabFrom(count: nat, choose: Selector<T>, from: nat) returns (result: seq<T>, ghost calls: nat)
      requires from <= |items|
      modifies this
      ensures Outcome(items, result, calls) == Walk(old(items), from, 0, [], choose, count)
    {
      var current: nat, call: nat := from, 0;
      result := [];
      while current < |items|
        invariant current <= |items|
        invariant Walk(items, current, call, result, choose, count) == Walk(old(items), from, 0, [], choose, count)
        decreases |items| - current
      {
        match choose(call, items[current])
        case StopAndRequeue =>
          InsertMany(result, true);
          return [], call;
        case Stop =>
          return result, call;
        case Grab =>
          result := result + [items[current]];
          items := items[..current] + items[current + 1..];
          call := call + 1;
          if |result| >= count {
            return result, call;
          }
        case Skip =>
          current := current + 1;
          call := call + 1;
      }
      return result, call;
    }
  }
}
