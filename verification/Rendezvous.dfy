/** The two-sided rendezvous of `basic_item_queue`: pushed items meet waiting poppers.
    Both sides are stacks: the newest item and the newest waiter are served first. */
module Rendezvous {
  import opened Options

  /** A parked popper: the event to set and the slot to fill. */
  datatype Waiter<E, S> = Waiter(event: E, slot: S)

  datatype Queue<T, E(==), S> = Queue(items: seq<T>, waiters: seq<Waiter<E, S>>) {

    /** Items and waiters are never both present. */
    predicate OneSided() {
      items == [] || waiters == []
    }

    /** The queue after a push, and the waiter it finished, if any. */
    function Push(item: T): (Queue<T, E, S>, Option<Waiter<E, S>>) {
      if waiters == [] then (Queue(items + [item], waiters), None)
      else (Queue(items, waiters[..|waiters| - 1]), Some(waiters[|waiters| - 1]))
    }

    /** The queue after a pop, and the item it received, if any. */
    function Pop(w: Waiter<E, S>): (Queue<T, E, S>, Option<T>) {
      if items == [] then (Queue(items, waiters + [w]), None)
      else (Queue(items[..|items| - 1], waiters), Some(items[|items| - 1]))
    }

    predicate TailIs(event: E) {
      waiters != [] && waiters[|waiters| - 1].event == event
    }

    /** Only a waiter at the tail can be cancelled. */
    function Cancel(event: E): Queue<T, E, S> {
      if TailIs(event) then Queue(items, waiters[..|waiters| - 1]) else this
    }

    function Level(): int {
      |items| - |waiters|
    }
  }

  datatype Op<T, E, S> = Push(item: T) | Pop(event: E, slot: S) | Cancel(event: E)

  /** What a run has done: the queue of operation numbers still held, and the
      deliveries (number of the push, number of the pop). */
  datatype History<E(==)> = History(queue: Queue<nat, E, nat>, deliveries: set<(nat, nat)>)

  function Advance<T, E(==), S>(h: History<E>, op: Op<T, E, S>, k: nat): History<E> {
    match op
    case Push(_) =>
      var (q, served) := h.queue.Push(k);
      History(q, if served.Some? then h.deliveries + {(k, served.value.slot)} else h.deliveries)
    case Pop(event, _) =>
      var (q, got) := h.queue.Pop(Waiter(event, k));
      History(q, if got.Some? then h.deliveries + {(got.value, k)} else h.deliveries)
    case Cancel(event) =>
      History(h.queue.Cancel(event), h.deliveries)
  }

  /** The history after the first k operations. */
  function After<T, E(==), S>(ops: seq<Op<T, E, S>>, k: nat): History<E>
    requires k <= |ops|
  {
    if k == 0 then History(Queue([], []), {})
    else Advance(After(ops, k - 1), ops[k - 1], k - 1)
  }

  /** Items held minus poppers parked after k operations. */
  function Level<T, E(==), S>(ops: seq<Op<T, E, S>>, k: nat): int
    requires k <= |ops|
  {
    After(ops, k).queue.Level()
  }

  /** Step b is the first step after a whose effect brings the level back to what it was before a. */
  ghost predicate FirstReturn<T, E, S>(ops: seq<Op<T, E, S>>, a: nat, b: nat) {
    && a < b < |ops|
    && Level(ops, b + 1) == Level(ops, a)
    && forall t: nat :: a < t <= b ==> Level(ops, t) != Level(ops, a)
  }

  /** Push i is meant for pop j: bracket matching on the level, in either order. */
  ghost predicate Matched<T, E, S>(ops: seq<Op<T, E, S>>, i: nat, j: nat) {
    && i < |ops| && j < |ops| && ops[i].Push? && ops[j].Pop?
    && if i < j then Level(ops, i) >= 0 && FirstReturn(ops, i, j)
       else Level(ops, j) <= 0 && FirstReturn(ops, j, i)
  }

  /** Position p of the item stack holds the push that raised the level from p, not undone since. */
  ghost predicate ItemsPlaced<T, E, S>(ops: seq<Op<T, E, S>>, k: nat)
    requires k <= |ops|
  {
    var items := After(ops, k).queue.items;
    forall p :: 0 <= p < |items| ==>
      && items[p] < k && ops[items[p]].Push? && Level(ops, items[p]) == p
      && forall t: nat :: items[p] < t <= k ==> Level(ops, t) > p
  }

  /** Position p of the waiter stack holds the pop that lowered the level from -p, not undone since. */
  ghost predicate WaitersPlaced<T, E, S>(ops: seq<Op<T, E, S>>, k: nat)
    requires k <= |ops|
  {
    var waiters := After(ops, k).queue.waiters;
    forall p :: 0 <= p < |waiters| ==>
      && waiters[p].slot < k && ops[waiters[p].slot].Pop? && ops[waiters[p].slot].event == waiters[p].event
      && Level(ops, waiters[p].slot) == -p
      && forall t: nat :: waiters[p].slot < t <= k ==> Level(ops, t) < -p
  }

  /** A push raises the level, a pop lowers it, a cancel raises it or leaves it. */
  lemma LevelStep<T, E, S>(ops: seq<Op<T, E, S>>, k: nat)
    requires k < |ops|
    ensures ops[k].Push? ==> Level(ops, k + 1) == Level(ops, k) + 1
    ensures ops[k].Pop? ==> Level(ops, k + 1) == Level(ops, k) - 1
    ensures ops[k].Cancel? ==>
      Level(ops, k + 1) == Level(ops, k) + if After(ops, k).queue.TailIs(ops[k].event) then 1 else 0
  {
    assert After(ops, k + 1) == Advance(After(ops, k), ops[k], k);
  }

  lemma ItemsStep<T, E, S>(ops: seq<Op<T, E, S>>, k: nat)
    requires k < |ops| && After(ops, k).queue.OneSided() && ItemsPlaced(ops, k)
    ensures ItemsPlaced(ops, k + 1)
  {
    LevelStep(ops, k);
    var items, items' := After(ops, k).queue.items, After(ops, k + 1).queue.items;
    forall p | 0 <= p < |items'|
      ensures items'[p] < k + 1 && ops[items'[p]].Push? && Level(ops, items'[p]) == p
      ensures forall t: nat :: items'[p] < t <= k + 1 ==> Level(ops, t) > p
    {
      assert Level(ops, k + 1) > p;
      if p < |items| {
        assert items'[p] == items[p];
      }
    }
  }

  lemma WaitersStep<T, E, S>(ops: seq<Op<T, E, S>>, k: nat)
    requires k < |ops| && After(ops, k).queue.OneSided() && WaitersPlaced(ops, k)
    ensures WaitersPlaced(ops, k + 1)
  {
    LevelStep(ops, k);
    var waiters, waiters' := After(ops, k).queue.waiters, After(ops, k + 1).queue.waiters;
    forall p | 0 <= p < |waiters'|
      ensures waiters'[p].slot < k + 1 && ops[waiters'[p].slot].Pop? && ops[waiters'[p].slot].event == waiters'[p].event
      ensures Level(ops, waiters'[p].slot) == -p
      ensures forall t: nat :: waiters'[p].slot < t <= k + 1 ==> Level(ops, t) < -p
    {
      assert Level(ops, k + 1) < -p;
      if p < |waiters| {
        assert waiters'[p] == waiters[p];
      }
    }
  }

  /** In every run the queue stays one-sided. */
  lemma {:induction false} OneSidedAlways<T, E, S>(ops: seq<Op<T, E, S>>, k: nat)
    requires k <= |ops|
    ensures After(ops, k).queue.OneSided()
  {
    if k == 0 {
    } else {
      OneSidedAlways(ops, k - 1);
      assert After(ops, k) == Advance(After(ops, k - 1), ops[k - 1], k - 1);
    }
  }

  lemma {:induction false} ItemsAlwaysPlaced<T, E, S>(ops: seq<Op<T, E, S>>, k: nat)
    requires k <= |ops|
    ensures ItemsPlaced(ops, k)
  {
    if k == 0 {
    } else {
      ItemsAlwaysPlaced(ops, k - 1);
      OneSidedAlways(ops, k - 1);
      ItemsStep(ops, k - 1);
    }
  }

  lemma {:induction false} WaitersAlwaysPlaced<T, E, S>(ops: seq<Op<T, E, S>>, k: nat)
    requires k <= |ops|
    ensures WaitersPlaced(ops, k)
  {
    if k == 0 {
    } else {
      WaitersAlwaysPlaced(ops, k - 1);
      OneSidedAlways(ops, k - 1);
      WaitersStep(ops, k - 1);
    }
  }

  /** Both stacks of a one-sided queue record the unreturned levels, in every run. */
  lemma Placed<T, E, S>(ops: seq<Op<T, E, S>>, k: nat)
    requires k <= |ops|
    ensures After(ops, k).queue.OneSided()
    ensures ItemsPlaced(ops, k) && WaitersPlaced(ops, k)
  {
    OneSidedAlways(ops, k);
    ItemsAlwaysPlaced(ops, k);
    WaitersAlwaysPlaced(ops, k);
  }

  /** Before its first return the level stays on the side its first step went to. */
  lemma {:induction false} StaysOnSide<T, E, S>(ops: seq<Op<T, E, S>>, a: nat, b: nat, t: nat)
    requires FirstReturn(ops, a, b) && a < t <= b
    ensures ops[a].Push? ==> Level(ops, t) > Level(ops, a)
    ensures ops[a].Pop? ==> Level(ops, t) < Level(ops, a)
  {
    LevelStep(ops, t - 1);
    if t == a + 1 {
    } else {
      StaysOnSide(ops, a, b, t - 1);
    }
  }

  /** Step k delivers to or from k exactly the pair bracket matching asks for. */
  lemma DeliveredNow<T, E, S>(ops: seq<Op<T, E, S>>, k: nat, i: nat, j: nat)
    requires k < |ops|
    requires (i == k && j < k) || (j == k && i < k)
    requires (i, j) !in After(ops, k).deliveries
    ensures (i, j) in After(ops, k + 1).deliveries <==> Matched(ops, i, j)
  {
    Placed(ops, k);
    var q := After(ops, k).queue;
    if j == k && Matched(ops, i, k) {
      StaysOnSide(ops, i, k, k);
      var s := q.items[|q.items| - 1];
      if i < s { StaysOnSide(ops, i, k, s); }
      assert s == i;
    }
    if i == k && Matched(ops, k, j) {
      StaysOnSide(ops, j, k, k);
      var s := q.waiters[|q.waiters| - 1].slot;
      if j < s { StaysOnSide(ops, j, k, s); }
      assert s == j;
    }
  }

  /** Every delivery made by a step involves that step. */
  lemma DeliveriesGrow<T, E, S>(ops: seq<Op<T, E, S>>, k: nat, i: nat, j: nat)
    requires k < |ops|
    ensures (i, j) in After(ops, k).deliveries ==> (i, j) in After(ops, k + 1).deliveries
    ensures (i, j) in After(ops, k + 1).deliveries && (i, j) !in After(ops, k).deliveries ==>
      (i == k && j < k) || (j == k && i < k)
  {
    Placed(ops, k);
    assert After(ops, k + 1) == Advance(After(ops, k), ops[k], k);
  }

  lemma {:induction false} DeliveredUpTo<T, E, S>(ops: seq<Op<T, E, S>>, k: nat, i: nat, j: nat)
    requires k <= |ops|
    ensures (i, j) in After(ops, k).deliveries <==> i < k && j < k && Matched(ops, i, j)
  {
    if k == 0 {
    } else {
      DeliveredUpTo(ops, k - 1, i, j);
      DeliveriesGrow(ops, k - 1, i, j);
      if (i == k - 1 && j < k - 1) || (j == k - 1 && i < k - 1) {
        DeliveredNow(ops, k - 1, i, j);
      }
    }
  }

  /** Main result: over any run, the item of push i is given to pop j exactly when the later of
      the two is the first step at which the level returns to its value before the earlier one. */
  lemma ExactMatching<T, E, S>(ops: seq<Op<T, E, S>>, i: nat, j: nat)
    ensures (i, j) in After(ops, |ops|).deliveries <==> Matched(ops, i, j)
  {
    DeliveredUpTo(ops, |ops|, i, j);
  }

  /** Between the two ends of a match the level never returns, on either side. */
  lemma MatchSpan<T, E, S>(ops: seq<Op<T, E, S>>, i: nat, j: nat, t: nat)
    requires Matched(ops, i, j)
    ensures i < t <= j ==> Level(ops, t) > Level(ops, i) >= 0 && Level(ops, j + 1) == Level(ops, i)
    ensures j < t <= i ==> Level(ops, t) < Level(ops, j) <= 0 && Level(ops, i + 1) == Level(ops, j)
  {
    if i < t <= j {
      StaysOnSide(ops, i, j, t);
    } else if j < t <= i {
      StaysOnSide(ops, j, i, t);
    }
  }

  /** A push serves at most one pop and a pop is served at most once. */
  lemma OneToOne<T, E, S>(ops: seq<Op<T, E, S>>, i: nat, j: nat, i': nat, j': nat)
    requires Matched(ops, i, j) && Matched(ops, i', j')
    ensures i == i' <==> j == j'
  {
  }

  /** Matches are nested or disjoint: an operation strictly inside a match has its partner inside too. */
  lemma NonCrossing<T, E, S>(ops: seq<Op<T, E, S>>, i: nat, j: nat, i': nat, j': nat)
    requires Matched(ops, i, j) && Matched(ops, i', j')
    ensures i < i' < j ==> i < j' < j
    ensures i < j' < j ==> i < i' < j
    ensures j < i' < i ==> j < j' < i
    ensures j < j' < i ==> j < i' < i
  {
    OneToOne(ops, i, j, i', j');
    MatchSpan(ops, i, j, i'); MatchSpan(ops, i, j, j');
    MatchSpan(ops, i', j', i); MatchSpan(ops, i', j', j);
    MatchSpan(ops, i, j, i' + 1); MatchSpan(ops, i, j, j' + 1);
    MatchSpan(ops, i', j', i + 1); MatchSpan(ops, i', j', j + 1);
  }

  /** An item is still stored exactly when its push opened a level that was never given back. */
  lemma StillStored<T, E, S>(ops: seq<Op<T, E, S>>, k: nat, i: nat)
    requires k <= |ops|
    ensures i in After(ops, k).queue.items <==>
      i < k && ops[i].Push? && Level(ops, i) >= 0 && forall t: nat :: i < t <= k ==> Level(ops, t) > Level(ops, i)
  {
    Placed(ops, k);
    if i < k && ops[i].Push? && Level(ops, i) >= 0 && forall t: nat :: i < t <= k ==> Level(ops, t) > Level(ops, i) {
      var items := After(ops, k).queue.items;
      assert Level(ops, k) == After(ops, k).queue.Level();
      var s := items[Level(ops, i)];
      assert s == i;
    }
  }

  /** A popper is still parked exactly when its pop opened a debt that was never paid or cancelled. */
  lemma StillParked<T, E, S>(ops: seq<Op<T, E, S>>, k: nat, j: nat)
    requires k <= |ops| && j < |ops| && ops[j].Pop?
    ensures Waiter(ops[j].event, j) in After(ops, k).queue.waiters <==>
      j < k && Level(ops, j) <= 0 && forall t: nat :: j < t <= k ==> Level(ops, t) < Level(ops, j)
  {
    Placed(ops, k);
    if j < k && Level(ops, j) <= 0 && forall t: nat :: j < t <= k ==> Level(ops, t) < Level(ops, j) {
      var waiters := After(ops, k).queue.waiters;
      assert Level(ops, k) == After(ops, k).queue.Level();
      var w := waiters[-Level(ops, j)];
      assert w.slot == j;
    }
  }

  /** The first step at which the level a push opened is given back: always a pop. */
  lemma {:induction false} FirstDrop<T, E, S>(ops: seq<Op<T, E, S>>, i: nat, n: nat) returns (b: nat)
    requires i < n <= |ops| && ops[i].Push? && Level(ops, n) <= Level(ops, i)
    ensures b < n && FirstReturn(ops, i, b) && ops[b].Pop?
  {
    LevelStep(ops, i);
    if t: nat :| i < t < n && Level(ops, t) <= Level(ops, i) {
      b := FirstDrop(ops, i, t);
    } else {
      b := n - 1;
      LevelStep(ops, b);
    }
  }

  /** The first step at which the debt a pop opened is paid: a push, or a cancel of that very popper. */
  lemma {:induction false} FirstRise<T, E, S>(ops: seq<Op<T, E, S>>, j: nat, n: nat) returns (b: nat)
    requires j < n <= |ops| && ops[j].Pop? && Level(ops, n) >= Level(ops, j)
    ensures b < n && FirstReturn(ops, j, b)
    ensures ops[b].Push? || (ops[b].Cancel? && After(ops, b).queue.TailIs(ops[b].event))
  {
    LevelStep(ops, j);
    if t: nat :| j < t < n && Level(ops, t) >= Level(ops, j) {
      b := FirstRise(ops, j, t);
    } else {
      b := n - 1;
      LevelStep(ops, b);
    }
  }

  /** Conservation: a pushed item is either still stored or was given to a pop, never both, never lost. */
  lemma PushFate<T, E, S>(ops: seq<Op<T, E, S>>, i: nat)
    requires i < |ops| && ops[i].Push?
    ensures i in After(ops, |ops|).queue.items <==> !exists j: nat :: (i, j) in After(ops, |ops|).deliveries
  {
    var n := |ops|;
    StillStored(ops, n, i);
    if i in After(ops, n).queue.items {
      forall j: nat ensures (i, j) !in After(ops, n).deliveries {
        ExactMatching(ops, i, j);
        if Matched(ops, i, j) { MatchSpan(ops, i, j, i); }
      }
    } else if Level(ops, i) < 0 {
      Placed(ops, i);
      var j := After(ops, i).queue.waiters[|After(ops, i).queue.waiters| - 1].slot;
      assert (i, j) in After(ops, i + 1).deliveries;
      DeliveredUpTo(ops, i + 1, i, j);
      ExactMatching(ops, i, j);
    } else {
      var t: nat :| i < t <= n && Level(ops, t) <= Level(ops, i);
      var j := FirstDrop(ops, i, t);
      ExactMatching(ops, i, j);
    }
  }

  /** A pop that finds items is served at once. */
  lemma ServedAtOnce<T, E, S>(ops: seq<Op<T, E, S>>, j: nat)
    requires j < |ops| && ops[j].Pop? && Level(ops, j) > 0
    ensures exists i: nat :: (i, j) in After(ops, |ops|).deliveries
  {
    Placed(ops, j);
    var items := After(ops, j).queue.items;
    var i := items[|items| - 1];
    assert (i, j) in After(ops, j + 1).deliveries;
    DeliveredUpTo(ops, j + 1, i, j);
    ExactMatching(ops, i, j);
  }

  /** A cancel that ends a popper's wait names that popper's own event. */
  lemma CancelledByName<T, E, S>(ops: seq<Op<T, E, S>>, j: nat, b: nat)
    requires FirstReturn(ops, j, b) && ops[j].Pop? && Level(ops, j) <= 0
    requires ops[b].Cancel? && After(ops, b).queue.TailIs(ops[b].event)
    ensures ops[b] == Cancel(ops[j].event)
  {
    StaysOnSide(ops, j, b, b);
    LevelStep(ops, b);
    Placed(ops, b);
    var waiters := After(ops, b).queue.waiters;
    var s := waiters[|waiters| - 1].slot;
    if j < s { StaysOnSide(ops, j, b, s); }
    assert s == j;
  }

  /** A popper was served, or is still parked, or was removed by a cancel naming its own event. */
  lemma PopFate<T, E, S>(ops: seq<Op<T, E, S>>, j: nat)
    requires j < |ops| && ops[j].Pop?
    ensures (exists i: nat :: (i, j) in After(ops, |ops|).deliveries)
         || Waiter(ops[j].event, j) in After(ops, |ops|).queue.waiters
         || exists b: nat :: FirstReturn(ops, j, b) && ops[b] == Cancel(ops[j].event)
  {
    var n := |ops|;
    StillParked(ops, n, j);
    if Level(ops, j) > 0 {
      ServedAtOnce(ops, j);
    } else if t: nat :| j < t <= n && Level(ops, t) >= Level(ops, j) {
      var b := FirstRise(ops, j, t);
      if ops[b].Push? {
        ExactMatching(ops, b, j);
      } else {
        CancelledByName(ops, j, b);
      }
    }
  }

  /** A popper still parked has not been served. */
  lemma ParkedNotServed<T, E, S>(ops: seq<Op<T, E, S>>, w: Waiter<E, nat>, i: nat)
    requires w in After(ops, |ops|).queue.waiters
    ensures (i, w.slot) !in After(ops, |ops|).deliveries
  {
    Placed(ops, |ops|);
    StillParked(ops, |ops|, w.slot);
    ExactMatching(ops, i, w.slot);
    if Matched(ops, i, w.slot) {
      MatchSpan(ops, i, w.slot, w.slot);
    }
  }

  /** Pushes minus pops among the first k operations. */
  function Balance<T, E, S>(ops: seq<Op<T, E, S>>, k: nat): int
    requires k <= |ops|
  {
    if k == 0 then 0
    else Balance(ops, k - 1) + match ops[k - 1] case Push(_) => 1 case Pop(_, _) => -1 case Cancel(_) => 0
  }

  /** Without cancels the level is pushes minus pops, which the caller can count. */
  lemma {:induction false} LevelIsBalance<T, E, S>(ops: seq<Op<T, E, S>>, k: nat)
    requires k <= |ops| && forall t :: 0 <= t < k ==> !ops[t].Cancel?
    ensures Level(ops, k) == Balance(ops, k)
  {
    if k == 0 {
    } else {
      LevelIsBalance(ops, k - 1);
      LevelStep(ops, k - 1);
    }
  }

  /** A run's prefix does not depend on what follows. */
  lemma {:induction false} Extend<T, E, S>(ops: seq<Op<T, E, S>>, op: Op<T, E, S>, k: nat)
    requires k <= |ops|
    ensures After(ops + [op], k) == After(ops, k)
    ensures k == |ops| ==> After(ops + [op], k + 1) == Advance(After(ops, k), op, k)
  {
    if k == 0 {
    } else {
      Extend(ops, op, k - 1);
    }
  }

  /** The real queue q holds, position by position, the items and poppers the replay of ops holds. */
  ghost predicate Records<T, E, S>(ops: seq<Op<T, E, S>>, q: Queue<T, E, S>) {
    var held := After(ops, |ops|).queue;
    && |q.items| == |held.items| && |q.waiters| == |held.waiters|
    && (forall p :: 0 <= p < |q.items| ==> held.items[p] < |ops| && ops[held.items[p]] == Push(q.items[p]))
    && (forall p :: 0 <= p < |q.waiters| ==>
      && held.waiters[p].slot < |ops| && ops[held.waiters[p].slot] == Pop(q.waiters[p].event, q.waiters[p].slot)
      && held.waiters[p].event == q.waiters[p].event)
  }

  ghost function Apply<T, E, S>(q: Queue<T, E, S>, op: Op<T, E, S>): Queue<T, E, S> {
    match op
    case Push(item) => q.Push(item).0
    case Pop(event, slot) => q.Pop(Waiter(event, slot)).0
    case Cancel(event) => q.Cancel(event)
  }

  lemma RecordsPush<T, E, S>(ops: seq<Op<T, E, S>>, q: Queue<T, E, S>, item: T)
    requires Records(ops, q)
    ensures Records(ops + [Op<T, E, S>.Push(item)], q.Push(item).0)
  {
    var op := Op<T, E, S>.Push(item);
    Extend(ops, op, |ops|);
    assert After(ops + [op], |ops| + 1).queue == After(ops, |ops|).queue.Push(|ops|).0;
  }

  lemma RecordsPop<T, E, S>(ops: seq<Op<T, E, S>>, q: Queue<T, E, S>, event: E, slot: S)
    requires Records(ops, q)
    ensures Records(ops + [Op<T, E, S>.Pop(event, slot)], q.Pop(Waiter(event, slot)).0)
  {
    var op := Op<T, E, S>.Pop(event, slot);
    Extend(ops, op, |ops|);
    assert After(ops + [op], |ops| + 1).queue == After(ops, |ops|).queue.Pop(Waiter(event, |ops|)).0;
  }

  lemma RecordsCancel<T, E, S>(ops: seq<Op<T, E, S>>, q: Queue<T, E, S>, event: E)
    requires Records(ops, q)
    ensures Records(ops + [Op<T, E, S>.Cancel(event)], q.Cancel(event))
  {
    var op := Op<T, E, S>.Cancel(event);
    Extend(ops, op, |ops|);
    assert After(ops + [op], |ops| + 1).queue == After(ops, |ops|).queue.Cancel(event);
  }

  /** Data independence: the queue treats real items as it treats their push numbers. */
  lemma RecordsApply<T, E, S>(ops: seq<Op<T, E, S>>, q: Queue<T, E, S>, op: Op<T, E, S>)
    requires Records(ops, q)
    ensures Records(ops + [op], Apply(q, op))
  {
    match op
    case Push(item) => RecordsPush(ops, q, item);
    case Pop(event, slot) => RecordsPop(ops, q, event, slot);
    case Cancel(event) => RecordsCancel(ops, q, event);
  }

  /** What the real queue holds after a run from empty. */
  ghost function Contents<T, E, S>(ops: seq<Op<T, E, S>>): Queue<T, E, S> {
    if ops == [] then Queue([], [])
    else Apply(Contents(ops[..|ops| - 1]), ops[|ops| - 1])
  }

  lemma ContentsExtend<T, E, S>(ops: seq<Op<T, E, S>>, op: Op<T, E, S>)
    ensures Contents(ops + [op]) == Apply(Contents(ops), op)
  {
    assert (ops + [op])[..|ops|] == ops;
  }

  /** Every real queue records its own run, so the matching results speak about real items. */
  lemma {:induction false} ContentsRecorded<T, E, S>(ops: seq<Op<T, E, S>>)
    ensures Records(ops, Contents(ops))
  {
    if ops == [] {
    } else {
      var before := ops[..|ops| - 1];
      ContentsRecorded(before);
      RecordsApply(before, Contents(before), ops[|ops| - 1]);
      assert before + [ops[|ops| - 1]] == ops;
    }
  }
}
