/** Who accepts which connection: the same answer for the queue of pending connections. */
module AcceptorMatching {
  import opened Options
  import opened Rendezvous
  import opened Registries
  import opened Pipelines
  import opened PipelineTheorems
  import opened PipelineMatching

  ghost function EntriesOf(conns: seq<Conn>): (entries: seq<nat>)
    ensures |entries| == |conns|
  {
    seq(|conns|, c requires 0 <= c < |conns| => conns[c].entry)
  }

  /** The entries accepted so far: those of the server connections, in the order of their creation, and
      the one a completed wait is about to hand over. */
  ghost function Accepted(s: State): seq<nat> {
    EntriesOf(s.conns) + if s.acceptor.phase.Waiting? && s.acceptor.slot.Some? then [s.acceptor.slot.value] else []
  }

  /** What a step does to the queue of pending connections. */
  ghost function PendingOp(s: State, step: Step): QueueOps {
    match step
    case Connect(_) => [Op.Push(s.added)]
    case PopEntry => [Op.Pop(0, 0)]
    case CloseAcceptor => [Op.Cancel(0)]
    case _ => []
  }

  ghost function PendingOps(steps: seq<Step>): QueueOps
    requires Run(steps).Some?
  {
    if steps == [] then []
    else
      var before := steps[..|steps| - 1];
      PendingOps(before) + PendingOp(Run(before).value, steps[|steps| - 1])
  }

  /** The queue is what those operations leave, and every accepted entry answers a pop; only an armed or
      closed acceptor has a pop without answer. */
  ghost predicate AcceptorAnswered(s: State, ops: QueueOps) {
    && s.reg.pending == Contents(ops)
    && AnswersFirst(ops, Accepted(s)) && |Pops(ops)| <= |Accepted(s)| + 1
    && (s.acceptor.Armed() ==> |Pops(ops)| == |Accepted(s)| + 1)
    && (!s.acceptor.Armed() && !s.acceptor.phase.Closed? ==> |Pops(ops)| == |Accepted(s)|)
  }

  lemma AnswersKept(ops: QueueOps, op: Op<nat, nat, nat>, got: seq<nat>)
    requires AnswersFirst(ops, got)
    ensures AnswersFirst(ops + [op], got)
  {
    PopsExtend(ops, op);
    forall k | 0 <= k < |got| ensures AnsweredBy(ops + [op], Pops(ops)[k], got[k]) {
      AnsweredByExtend(ops, op, Pops(ops)[k], got[k]);
    }
  }

  lemma AfterConnect(steps: seq<Step>, s: State, id: ConnId, ops: QueueOps)
    requires Run(steps) == Some(s) && Enabled(s, Connect(id)) && AcceptorAnswered(s, ops)
    ensures AcceptorAnswered(Next(s, Connect(id)), ops + [Op.Push(s.added)])
  {
    var op, got := Op<nat, nat, nat>.Push(s.added), Accepted(s);
    ContentsExtend(ops, op);
    AnswersKept(ops, op, got);
    PopsExtend(ops, op);
    if s.acceptor.Armed() {
      ArmedAccepts(steps, s, id);
      PushAnswers(ops, s.reg.pending, got, Waiter(0, 0), s.added);
    } else {
      NoWaiter(steps, s);
      assert Next(s, Connect(id)).acceptor == s.acceptor;
      assert Accepted(Next(s, Connect(id))) == got;
    }
  }

  lemma ArmedAccepts(steps: seq<Step>, s: State, id: ConnId)
    requires Run(steps) == Some(s) && Enabled(s, Connect(id)) && s.acceptor.Armed()
    ensures s.reg.pending.waiters == [Waiter(0, 0)]
    ensures Accepted(Next(s, Connect(id))) == Accepted(s) + [s.added] && Next(s, Connect(id)).acceptor.Ready()
  {
    AcceptorNeverSleepsOnWork(steps, s);
  }

  lemma NoWaiter(steps: seq<Step>, s: State)
    requires Run(steps) == Some(s) && !s.acceptor.Armed()
    ensures s.reg.pending.waiters == []
  {
    var spots, places := RunKeeps(steps);
  }

  lemma AfterPopEntry(steps: seq<Step>, s: State, ops: QueueOps)
    requires Run(steps) == Some(s) && Enabled(s, PopEntry) && AcceptorAnswered(s, ops)
    ensures AcceptorAnswered(Next(s, PopEntry), ops + [Op.Pop(0, 0)])
  {
    var op, got := Op<nat, nat, nat>.Pop(0, 0), Accepted(s);
    AcceptorNeverSleepsOnWork(steps, s);
    SlotEmpty(steps, s);
    ContentsExtend(ops, op);
    AnswersKept(ops, op, got);
    PopsExtend(ops, op);
    var items, got' := s.reg.pending.items, Accepted(Next(s, PopEntry));
    if items != [] {
      PopAnswers(ops, s.reg.pending, 0);
      assert got' == got + [items[|items| - 1]];
    } else {
      assert got' == got;
    }
  }

  lemma SlotEmpty(steps: seq<Step>, s: State)
    requires Run(steps) == Some(s) && s.acceptor.phase == Cleared
    ensures s.acceptor.slot == None && !s.acceptor.signalled
  {
    var spots, places := RunKeeps(steps);
  }

  lemma AfterClose(steps: seq<Step>, s: State, ops: QueueOps)
    requires Run(steps) == Some(s) && Enabled(s, CloseAcceptor) && AcceptorAnswered(s, ops)
    ensures AcceptorAnswered(Next(s, CloseAcceptor), ops + [Op.Cancel(0)])
  {
    var op, got := Op<nat, nat, nat>.Cancel(0), Accepted(s);
    AcceptorNeverSleepsOnWork(steps, s);
    ContentsExtend(ops, op);
    AnswersKept(ops, op, got);
    PopsExtend(ops, op);
    if s.acceptor.Armed() {
      assert Accepted(Next(s, CloseAcceptor)) == got;
    } else {
      NoWaiter(steps, s);
    }
  }

  /** Steps that leave the queue of pending connections alone. */
  lemma AfterOther(steps: seq<Step>, s: State, step: Step, ops: QueueOps)
    requires Run(steps) == Some(s) && Enabled(s, step) && PendingOp(s, step) == [] && AcceptorAnswered(s, ops)
    ensures AcceptorAnswered(Next(s, step), ops)
  {
    AcceptorNeverSleepsOnWork(steps, s);
    assert Accepted(Next(s, step)) == Accepted(s);
  }

  lemma {:induction false} AcceptedByMatching(steps: seq<Step>, s: State)
    requires Run(steps) == Some(s)
    ensures AcceptorAnswered(s, PendingOps(steps))
  {
    if steps == [] {
    } else {
      var before, last := steps[..|steps| - 1], steps[|steps| - 1];
      var s0 := Run(before).value;
      AcceptedByMatching(before, s0);
      match last
      case Connect(id) => AfterConnect(before, s0, id, PendingOps(before));
      case PopEntry => AfterPopEntry(before, s0, PendingOps(before));
      case CloseAcceptor => AfterClose(before, s0, PendingOps(before));
      case _ =>
        assert PendingOps(before) + [] == PendingOps(before);
        AfterOther(before, s0, last, PendingOps(before));
    }
  }

  /** Who accepts what: the k-th accepted connection is the one bracket matching, on the operations of the
      queue of pending connections, assigns to the acceptor's k-th pop. */
  lemma KthAcceptedMatchesKthPop(steps: seq<Step>, s: State, k: nat) returns (i: nat)
    requires Run(steps) == Some(s) && k < |Accepted(s)|
    ensures var ops := PendingOps(steps);
      k < |Pops(ops)| && Matched(ops, i, Pops(ops)[k]) && ops[i] == Op.Push(Accepted(s)[k])
  {
    var ops := PendingOps(steps);
    AcceptedByMatching(steps, s);
    assert AnsweredBy(ops, Pops(ops)[k], Accepted(s)[k]);
    i :| i < |ops| && ops[i] == Op.Push(Accepted(s)[k]) && (i, Pops(ops)[k]) in After(ops, |ops|).deliveries;
    ExactMatching(ops, i, Pops(ops)[k]);
  }
}
