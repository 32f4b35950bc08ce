/** Who gets which request: the pipeline's answer is the rendezvous' bracket matching. */
module PipelineMatching {
  import opened Options
  import opened Rendezvous
  import opened Registries
  import opened Pipelines
  import opened PipelineProofs
  import opened PipelineTheorems

  type QueueOps = seq<Op<nat, nat, nat>>

  /** The operation numbers of the pops, in order. */
  ghost function Pops(ops: QueueOps): seq<nat> {
    if ops == [] then []
    else Pops(ops[..|ops| - 1]) + if ops[|ops| - 1].Pop? then [|ops| - 1] else []
  }

  lemma PopsExtend(ops: QueueOps, op: Op<nat, nat, nat>)
    ensures Pops(ops + [op]) == Pops(ops) + if op.Pop? then [|ops|] else []
  {
    assert (ops + [op])[..|ops|] == ops;
  }

  lemma {:induction false} PopsComplete(ops: QueueOps, j: nat) returns (k: nat)
    requires j < |ops| && ops[j].Pop?
    ensures k < |Pops(ops)| && Pops(ops)[k] == j
  {
    if j == |ops| - 1 {
      k := |Pops(ops)| - 1;
    } else {
      k := PopsComplete(ops[..|ops| - 1], j);
    }
  }

  /** Everything a connection ever received: what its handlers got, and what was in its slot last. */
  ghost function Received(conn: Conn): seq<nat> {
    conn.taken
    + (if conn.end.slot.Some? then [conn.end.slot.value] else [])
    + (if conn.dropped.Some? then [conn.dropped.value] else [])
  }

  /** Pop number j of the queue was answered with request r. */
  ghost predicate AnsweredBy(ops: QueueOps, j: nat, r: nat) {
    exists i: nat :: i < |ops| && ops[i] == Op.Push(r) && (i, j) in After(ops, |ops|).deliveries
  }

  /** What was received answers the first pops, one by one. */
  ghost predicate AnswersFirst(ops: QueueOps, got: seq<nat>) {
    |got| <= |Pops(ops)| && forall k :: 0 <= k < |got| ==> AnsweredBy(ops, Pops(ops)[k], got[k])
  }

  /** The k-th request received answers the k-th pop; only an armed or destroyed connection has a
      pop that is not answered. */
  ghost predicate Answered(ops: QueueOps, conn: Conn) {
    var pops, got := Pops(ops), Received(conn);
    && AnswersFirst(ops, got) && |pops| <= |got| + 1
    && (conn.end.Armed() ==> |pops| == |got| + 1)
    && (!conn.end.Armed() && !conn.end.phase.Closed? ==> |pops| == |got|)
  }

  lemma AnsweredByExtend(ops: QueueOps, op: Op<nat, nat, nat>, j: nat, r: nat)
    requires AnsweredBy(ops, j, r)
    ensures AnsweredBy(ops + [op], j, r)
  {
    Extend(ops, op, |ops|);
    var i: nat :| i < |ops| && ops[i] == Op.Push(r) && (i, j) in After(ops, |ops|).deliveries;
    DeliveriesGrow(ops + [op], |ops|, i, j);
    assert (ops + [op])[i] == ops[i];
  }

  /** A push that finds one popper parked answers the last pop. */
  lemma PushAnswers(ops: QueueOps, q: Queue<nat, nat, nat>, got: seq<nat>, w: Waiter<nat, nat>, r: nat)
    requires q == Contents(ops) && q.waiters == [w] && AnswersFirst(ops, got) && |Pops(ops)| == |got| + 1
    ensures AnsweredBy(ops + [Op.Push(r)], Pops(ops)[|got|], r)
  {
    ContentsRecorded(ops);
    var held := After(ops, |ops|).queue;
    var j := held.waiters[0].slot;
    var k := PopsComplete(ops, j);
    if k < |got| {
      assert AnsweredBy(ops, j, got[k]);
      var i: nat :| (i, j) in After(ops, |ops|).deliveries;
      ParkedNotServed(ops, held.waiters[0], i);
      assert false;
    }
    Extend(ops, Op.Push(r), |ops|);
    assert (|ops|, j) in After(ops + [Op.Push(r)], |ops| + 1).deliveries;
    assert (ops + [Op.Push(r)])[|ops|] == Op.Push(r);
  }

  /** A pop that finds a request is answered with it. */
  lemma PopAnswers(ops: QueueOps, q: Queue<nat, nat, nat>, c: nat)
    requires q == Contents(ops) && q.items != []
    ensures AnsweredBy(ops + [Op.Pop(c, c)], |ops|, q.items[|q.items| - 1])
  {
    ContentsRecorded(ops);
    var held := After(ops, |ops|).queue;
    var i := held.items[|held.items| - 1];
    Extend(ops, Op.Pop(c, c), |ops|);
    var h := Advance(After(ops, |ops|), Op<nat, nat, nat>.Pop(c, c), |ops|);
    assert (i, |ops|) in h.deliveries;
    assert After(ops + [Op.Pop(c, c)], |ops| + 1) == h;
    assert (ops + [Op.Pop(c, c)])[i] == ops[i];
  }

  ghost predicate EntryAnswered(s: State, n: nat, ops: QueueOps) {
    && (forall c :: 0 <= c < |s.conns| && s.conns[c].entry == n ==> Answered(ops, s.conns[c]))
    && ((forall c :: 0 <= c < |s.conns| ==> s.conns[c].entry != n) ==> Pops(ops) == [])
  }

  lemma AnsweredExtend(ops: QueueOps, op: Op<nat, nat, nat>, conn: Conn)
    requires Answered(ops, conn) && !op.Pop?
    ensures Answered(ops + [op], conn)
  {
    PopsExtend(ops, op);
    var pops, got := Pops(ops), Received(conn);
    forall k | 0 <= k < |got| ensures AnsweredBy(ops + [op], pops[k], got[k]) {
      AnsweredByExtend(ops, op, pops[k], got[k]);
    }
  }

  lemma AnsweredAfterPost(s: State, id: ConnId, c: nat, ops: QueueOps)
    requires Enabled(s, Post(id)) && c < |s.conns| && s.conns[c].entry == s.reg.live[id]
    requires ConnInv(s, c) && s.reg.channels[s.reg.live[id]].queue == Contents(ops) && Answered(ops, s.conns[c])
    requires s.reg.channels[s.conns[c].entry].queue.waiters == if s.conns[c].end.Armed() then [Waiter(c, c)] else []
    ensures Answered(ops + [Op.Push(|s.posts|)], Next(s, Post(id)).conns[c])
  {
    var conn, r := s.conns[c], |s.posts|;
    var op := Op.Push(r);
    AnsweredExtend(ops, op, conn);
    if conn.end.Armed() {
      PushAnswers(ops, Contents(ops), Received(conn), Waiter(c, c), r);
      PopsExtend(ops, op);
      assert Received(Next(s, Post(id)).conns[c]) == Received(conn) + [r];
    } else {
      assert Next(s, Post(id)).conns[c] == conn;
    }
  }

  lemma AnsweredAfterPop(s: State, c: nat, ops: QueueOps)
    requires Enabled(s, PopRequest(c)) && ConnInv(s, c)
    requires s.reg.channels[s.conns[c].entry].queue == Contents(ops) && Answered(ops, s.conns[c])
    ensures Answered(ops + [Op.Pop(c, c)], Next(s, PopRequest(c)).conns[c])
  {
    var conn, q := s.conns[c], Contents(ops);
    var conn', op := Next(s, PopRequest(c)).conns[c], Op.Pop(c, c);
    PopsExtend(ops, op);
    var pops, got := Pops(ops), Received(conn);
    forall k | 0 <= k < |got| ensures AnsweredBy(ops + [op], pops[k], got[k]) {
      AnsweredByExtend(ops, op, pops[k], got[k]);
    }
    if q.items != [] {
      PopAnswers(ops, q, c);
      assert Received(conn') == got + [q.items[|q.items| - 1]];
    } else {
      assert Received(conn') == got;
    }
  }

  /** Taking, clearing and destroying lose nothing a connection received. */
  lemma AnsweredAfterOwn(s: State, step: Step, c: nat, ops: QueueOps)
    requires Enabled(s, step) && c < |s.conns| && ConnInv(s, c) && Answered(ops, s.conns[c])
    requires step == TakeRequest(c) || step == ClearConn(c) || step == DestroyConn(c)
    ensures Answered(ops, Next(s, step).conns[c])
  {
    assert Received(Next(s, step).conns[c]) == Received(s.conns[c]);
  }

  lemma OthersUntouched(steps: seq<Step>, s: State, step: Step, c: nat)
    requires Run(steps) == Some(s) && Enabled(s, step) && c < |s.conns|
    requires step.Post? ==> s.reg.live[step.id] != s.conns[c].entry
    requires step.ClearConn? || step.PopRequest? || step.TakeRequest? || step.DestroyConn? ==> step.c != c
    ensures Next(s, step).conns[c] == s.conns[c]
  {
    if step.Post? {
      var q := s.reg.channels[s.reg.live[step.id]].queue;
      if q.waiters != [] { NoDeadPopper(steps, s, s.reg.live[step.id], |q.waiters| - 1); }
    }
  }

  lemma NewConnAnswered(steps: seq<Step>, s: State, n: nat, ops: QueueOps)
    requires Run(steps) == Some(s) && s.acceptor.Ready() && s.acceptor.slot == Some(n)
    requires EntryAnswered(s, n, ops)
    ensures Pops(ops) == []
  {
    var spots, places := RunKeeps(steps);
    assert EntryAt(s, n, Held);
    forall d | 0 <= d < |s.conns| ensures s.conns[d].entry != n {
      assert !EntryAt(s, n, Handed(d));
    }
  }

  lemma SameConn(steps: seq<Step>, s: State, c: nat, d: nat)
    requires Run(steps) == Some(s) && c < |s.conns| && d < |s.conns| && s.conns[c].entry == s.conns[d].entry
    ensures c == d
  {
    var spots, places := RunKeeps(steps);
    OwnQueues(s, spots, c, d);
  }

  lemma KnownConn(steps: seq<Step>, s: State, c: nat)
    requires Run(steps) == Some(s) && c < |s.conns|
    ensures ConnInv(s, c)
    ensures s.reg.channels[s.conns[c].entry].queue.waiters == if s.conns[c].end.Armed() then [Waiter(c, c)] else []
  {
    var spots, places := RunKeeps(steps);
    assert ConnInv(s, c);
    NobodyElseParked(s, spots, c);
  }

  lemma ConnAnsweredStep(steps: seq<Step>, s: State, step: Step, n: nat, c: nat, ops: QueueOps)
    requires Run(steps) == Some(s) && Enabled(s, step) && EntryAnswered(s, n, ops)
    requires c < |s.conns| && s.conns[c].entry == n
    requires n in s.reg.channels ==> s.reg.channels[n].queue == Contents(ops)
    ensures Answered(ops + OpOn(s, step, n), Next(s, step).conns[c])
  {
    KnownConn(steps, s, c);
    if step.Post? && s.reg.live[step.id] == n {
      AnsweredAfterPost(s, step.id, c, ops);
    } else if (step.PopRequest? || step.DestroyConn?) && s.conns[step.c].entry == n {
      SameConn(steps, s, c, step.c);
      if step.PopRequest? {
        AnsweredAfterPop(s, c, ops);
      } else {
        AnsweredExtend(ops, Op.Cancel(c), s.conns[c]);
        AnsweredAfterOwn(s, step, c, ops + [Op.Cancel(c)]);
      }
    } else {
      assert ops + [] == ops;
      if step == TakeRequest(c) || step == ClearConn(c) {
        AnsweredAfterOwn(s, step, c, ops);
      } else {
        OthersUntouched(steps, s, step, c);
      }
    }
  }

  lemma UnservedStep(s: State, step: Step, n: nat, ops: QueueOps)
    requires Enabled(s, step) && EntryAnswered(s, n, ops)
    requires forall c :: 0 <= c < |Next(s, step).conns| ==> Next(s, step).conns[c].entry != n
    ensures Pops(ops + OpOn(s, step, n)) == []
  {
    forall c | 0 <= c < |s.conns| ensures s.conns[c].entry != n {
      assert Next(s, step).conns[c].entry == s.conns[c].entry;
    }
    var op := OpOn(s, step, n);
    if op != [] {
      PopsExtend(ops, op[0]);
      assert op == [op[0]];
    } else {
      assert ops + op == ops;
    }
  }

  lemma AnsweredStep(steps: seq<Step>, s: State, step: Step, n: nat, ops: QueueOps)
    requires Run(steps) == Some(s) && Enabled(s, step) && EntryAnswered(s, n, ops)
    requires n in s.reg.channels ==> s.reg.channels[n].queue == Contents(ops)
    ensures EntryAnswered(Next(s, step), n, ops + OpOn(s, step, n))
  {
    var s', ops' := Next(s, step), ops + OpOn(s, step, n);
    forall c | 0 <= c < |s'.conns| && s'.conns[c].entry == n ensures Answered(ops', s'.conns[c]) {
      if c < |s.conns| {
        assert s.conns[c].entry == n;
        ConnAnsweredStep(steps, s, step, n, c, ops);
      } else {
        NewConnAnswered(steps, s, n, ops);
        assert ops' == ops;
      }
    }
    if forall c :: 0 <= c < |s'.conns| ==> s'.conns[c].entry != n {
      UnservedStep(s, step, n, ops);
    }
  }

  lemma {:induction false} ReceivedByMatching(steps: seq<Step>, s: State, n: nat)
    requires Run(steps) == Some(s)
    ensures EntryAnswered(s, n, OpsOn(steps, n))
  {
    if steps == [] {
    } else {
      var before, last := steps[..|steps| - 1], steps[|steps| - 1];
      ReceivedByMatching(before, Run(before).value, n);
      QueueIsItsOwnRun(before, Run(before).value, n);
      AnsweredStep(before, Run(before).value, last, n, OpsOn(before, n));
    }
  }

  /** Who gets what: the k-th request a server connection receives is the one bracket matching, on the
      operations of that connection's own queue, assigns to the connection's k-th pop. */
  lemma KthReceivedMatchesKthPop(steps: seq<Step>, s: State, c: nat, k: nat) returns (i: nat)
    requires Run(steps) == Some(s) && c < |s.conns| && k < |Received(s.conns[c])|
    ensures var ops := OpsOn(steps, s.conns[c].entry);
      k < |Pops(ops)| && Matched(ops, i, Pops(ops)[k]) && ops[i] == Op.Push(Received(s.conns[c])[k])
  {
    var n := s.conns[c].entry;
    var ops := OpsOn(steps, n);
    ReceivedByMatching(steps, s, n);
    assert AnsweredBy(ops, Pops(ops)[k], Received(s.conns[c])[k]);
    i :| i < |ops| && ops[i] == Op.Push(Received(s.conns[c])[k]) && (i, Pops(ops)[k]) in After(ops, |ops|).deliveries;
    ExactMatching(ops, i, Pops(ops)[k]);
  }
}
