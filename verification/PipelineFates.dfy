/** What can still become of a posted request: some continuation of the run hands it to a handler, unless it
    was destroyed in a slot or waits in a queue that nobody will ever pop again. */
module PipelineFates {
  import opened Options
  import opened Rendezvous
  import opened Registries
  import opened Pipelines
  import opened PipelineProofs
  import opened PipelineTheorems

  ghost predicate Handled(s: State, r: nat) {
    exists c: nat :: At(s, r, Taken(c))
  }

  /** Some continuation of the run hands the request to a handler. */
  ghost predicate CanBeHandled(steps: seq<Step>, r: nat) {
    exists more: seq<Step> :: Run(steps + more).Some? && Handled(Run(steps + more).value, r)
  }

  /** Nobody pops the queue of entry n again: its server connection is closed, or it was never accepted and
      the acceptor is closed. */
  ghost predicate Abandoned(s: State, n: nat) {
    || (exists c: nat :: c < |s.conns| && s.conns[c].entry == n && s.conns[c].end.phase.Closed?)
    || (n in s.reg.pending.items && s.acceptor.phase.Closed?)
  }

  /** Lost for good: destroyed with the slot it lay in, or left in an abandoned queue. */
  ghost predicate Lost(s: State, r: nat) {
    || (exists c: nat :: At(s, r, Dropped(c)))
    || (exists n: nat :: At(s, r, Queued(n)) && Abandoned(s, n))
  }

  lemma RunStep(steps: seq<Step>, s: State, step: Step)
    requires Run(steps) == Some(s) && Enabled(s, step)
    ensures Run(steps + [step]) == Some(Next(s, step))
  {
    assert (steps + [step])[..|steps|] == steps;
  }

  lemma StepThen(steps: seq<Step>, step: Step, more: seq<Step>)
    ensures Run(steps + ([step] + more)) == Run(steps + [step] + more)
  {
    assert steps + ([step] + more) == steps + [step] + more;
  }

  // ----- A request that is not lost can be handled -----

  /** The next step of a server connection that loops over its accepts. */
  function AcceptStep(end: Endpoint<nat>, c: nat): Step {
    match end.phase
    case Idle => ClearConn(c)
    case Cleared => PopRequest(c)
    case _ => TakeRequest(c)
  }

  function Rank(phase: Phase): nat {
    match phase
    case Waiting => 2
    case Idle => 1
    case _ => 0
  }

  lemma SlotHandled(steps: seq<Step>, s: State, c: nat, r: nat) returns (more: seq<Step>)
    requires Run(steps) == Some(s) && At(s, r, InSlot(c))
    ensures Run(steps + more).Some? && Handled(Run(steps + more).value, r)
  {
    var spots, places := RunKeeps(steps);
    assert ConnInv(s, c);
    RunStep(steps, s, TakeRequest(c));
    assert At(Next(s, TakeRequest(c)), r, Taken(c));
    more := [TakeRequest(c)];
  }

  /** Accept after accept an open connection pops what lies above the request, and then the request. */
  lemma {:induction false} QueueHandled(steps: seq<Step>, s: State, c: nat, r: nat) returns (more: seq<Step>)
    requires Run(steps) == Some(s) && c < |s.conns| && !s.conns[c].end.phase.Closed?
    requires At(s, r, Queued(s.conns[c].entry))
    ensures Run(steps + more).Some? && Handled(Run(steps + more).value, r)
    decreases |s.reg.channels[s.conns[c].entry].queue.items|, Rank(s.conns[c].end.phase)
  {
    ConnNeverSleepsOnWork(steps, s, c);
    var step := AcceptStep(s.conns[c].end, c);
    var s', items := Next(s, step), s.reg.channels[s.conns[c].entry].queue.items;
    RunStep(steps, s, step);
    if step.PopRequest? && r == items[|items| - 1] {
      assert At(s', r, InSlot(c));
      more := SlotHandled(steps + [step], s', c, r);
    } else {
      more := QueueHandled(steps + [step], s', c, r);
    }
    StepThen(steps, step, more);
    more := [step] + more;
  }

  lemma HeldHandled(steps: seq<Step>, s: State, n: nat, r: nat) returns (more: seq<Step>)
    requires Run(steps) == Some(s) && EntryAt(s, n, Held) && At(s, r, Queued(n))
    ensures Run(steps + more).Some? && Handled(Run(steps + more).value, r)
  {
    AcceptorNeverSleepsOnWork(steps, s);
    RunStep(steps, s, TakeConn);
    more := QueueHandled(steps + [TakeConn], Next(s, TakeConn), |s.conns|, r);
    StepThen(steps, TakeConn, more);
    more := [TakeConn] + more;
  }

  function AcceptorStep(end: Endpoint<nat>): Step {
    match end.phase
    case Idle => ClearAcceptor
    case Cleared => PopEntry
    case _ => TakeConn
  }

  /** One step of the acceptor's loop: the entry is handed on, or comes closer to it. */
  lemma PendingStep(steps: seq<Step>, s: State, n: nat, r: nat)
    requires Run(steps) == Some(s) && n in s.reg.pending.items && !s.acceptor.phase.Closed? && At(s, r, Queued(n))
    ensures Enabled(s, AcceptorStep(s.acceptor))
    ensures var s' := Next(s, AcceptorStep(s.acceptor));
      && At(s', r, Queued(n))
      && (EntryAt(s', n, Held) || (n in s'.reg.pending.items && !s'.acceptor.phase.Closed?))
      && |s'.reg.pending.items| <= |s.reg.pending.items|
      && (|s'.reg.pending.items| < |s.reg.pending.items| || Rank(s'.acceptor.phase) < Rank(s.acceptor.phase))
  {
    AcceptorNeverSleepsOnWork(steps, s);
  }

  /** Accept after accept an open acceptor hands out the entries above this one, and then this one. */
  lemma {:induction false} PendingHandled(steps: seq<Step>, s: State, n: nat, r: nat) returns (more: seq<Step>)
    requires Run(steps) == Some(s) && n in s.reg.pending.items && !s.acceptor.phase.Closed? && At(s, r, Queued(n))
    ensures Run(steps + more).Some? && Handled(Run(steps + more).value, r)
    decreases |s.reg.pending.items|, Rank(s.acceptor.phase)
  {
    PendingStep(steps, s, n, r);
    var step := AcceptorStep(s.acceptor);
    RunStep(steps, s, step);
    if EntryAt(Next(s, step), n, Held) {
      more := HeldHandled(steps + [step], Next(s, step), n, r);
    } else {
      more := PendingHandled(steps + [step], Next(s, step), n, r);
    }
    StepThen(steps, step, more);
    more := [step] + more;
  }

  lemma UnlostHandled(steps: seq<Step>, s: State, r: nat) returns (more: seq<Step>)
    requires Run(steps) == Some(s) && r < |s.posts| && !Lost(s, r)
    ensures Run(steps + more).Some? && Handled(Run(steps + more).value, r)
  {
    var place := ExactlyOnePlace(steps, s, r);
    assert At(s, r, place);
    match place
    case Taken(c) =>
      more := [];
      assert steps + [] == steps;
    case InSlot(c) => more := SlotHandled(steps, s, c, r);
    case Dropped(c) => assert false;
    case Queued(n) =>
      var spot := EntryWhereabouts(steps, s, n);
      match spot
      case Pending => more := PendingHandled(steps, s, n, r);
      case Held => more := HeldHandled(steps, s, n, r);
      case Handed(c) => more := QueueHandled(steps, s, c, r);
  }

  lemma EntryWhereabouts(steps: seq<Step>, s: State, n: nat) returns (spot: Spot)
    requires Run(steps) == Some(s) && n in s.reg.channels
    ensures forall p :: EntryAt(s, n, p) <==> p == spot
    ensures EntryAt(s, n, spot)
  {
    ChannelsKnown(steps, s);
    spot := EntriesHandedOnce(steps, s, n);
  }

  // ----- A lost request stays where it is -----

  lemma AbandonedStays(steps: seq<Step>, s: State, step: Step, n: nat)
    requires Run(steps) == Some(s) && Enabled(s, step) && Abandoned(s, n)
    ensures Abandoned(Next(s, step), n)
  {
    if c: nat :| c < |s.conns| && s.conns[c].entry == n && s.conns[c].end.phase.Closed? {
      DestroyedStaysEmpty(steps, s, step, c);
      assert Next(s, step).conns[c].end.phase.Closed?;
    } else {
      AcceptorNeverSleepsOnWork(steps, s);
    }
  }

  /** An abandoned entry has no server connection that could pop or leave its queue. */
  lemma NobodyPops(steps: seq<Step>, s: State, n: nat, c: nat)
    requires Run(steps) == Some(s) && Abandoned(s, n) && c < |s.conns| && s.conns[c].entry == n
    ensures s.conns[c].end.phase.Closed?
  {
    var spots, places := RunKeeps(steps);
    assert EntryAt(s, n, Handed(c)) && !EntryAt(s, n, Pending);
    var d: nat :| d < |s.conns| && s.conns[d].entry == n && s.conns[d].end.phase.Closed?;
    OwnQueues(s, spots, c, d);
  }

  /** What lies in an abandoned queue stays there. */
  lemma QueuedStays(steps: seq<Step>, s: State, step: Step, n: nat, r: nat)
    requires Run(steps) == Some(s) && Enabled(s, step) && Abandoned(s, n) && At(s, r, Queued(n))
    ensures At(Next(s, step), r, Queued(n))
  {
    var spots, places := RunKeeps(steps);
    assert ChannelInv(s, n);
    if step.PopRequest? && s.conns[step.c].entry == n { NobodyPops(steps, s, n, step.c); }
  }

  lemma LostStays(steps: seq<Step>, s: State, step: Step, r: nat)
    requires Run(steps) == Some(s) && Enabled(s, step) && Lost(s, r)
    ensures Lost(Next(s, step), r)
  {
    if c: nat :| At(s, r, Dropped(c)) {
      DroppedExactlyWhenDestroyedReady(steps, s, step, r, c);
      assert At(Next(s, step), r, Dropped(c));
    } else {
      var n: nat :| At(s, r, Queued(n)) && Abandoned(s, n);
      QueuedStays(steps, s, step, n, r);
      AbandonedStays(steps, s, step, n);
    }
  }

  lemma {:induction false} LostForGood(steps: seq<Step>, s: State, more: seq<Step>, r: nat)
    requires Run(steps) == Some(s) && Lost(s, r) && Run(steps + more).Some?
    ensures Lost(Run(steps + more).value, r)
  {
    if more == [] {
      assert steps + more == steps;
    } else {
      var before, last := more[..|more| - 1], more[|more| - 1];
      assert (steps + more)[..|steps + more| - 1] == steps + before;
      LostForGood(steps, s, before, r);
      LostStays(steps + before, Run(steps + before).value, last, r);
    }
  }

  lemma LostIsNotHandled(steps: seq<Step>, s: State, r: nat)
    requires Run(steps) == Some(s) && Lost(s, r)
    ensures !Handled(s, r)
  {
    NothingInvented(steps, s);
    var place := ExactlyOnePlace(steps, s, r);
  }

  /** Main result: some continuation of the run hands a posted request to a handler if and only if it is not
      lost. */
  lemma HandledUnlessLost(steps: seq<Step>, s: State, r: nat)
    requires Run(steps) == Some(s) && r < |s.posts|
    ensures CanBeHandled(steps, r) <==> !Lost(s, r)
  {
    if Lost(s, r) {
      forall more: seq<Step> | Run(steps + more).Some? ensures !Handled(Run(steps + more).value, r) {
        LostForGood(steps, s, more, r);
        LostIsNotHandled(steps + more, Run(steps + more).value, r);
      }
    } else {
      var more := UnlostHandled(steps, s, r);
    }
  }

  // ----- Both kinds of abandoned queue are reachable -----

  ghost predicate LostInQueue(s: State, r: nat) {
    Lost(s, r) && (exists n: nat :: At(s, r, Queued(n))) && forall c: nat :: !At(s, r, Dropped(c))
  }

  /** A first connection, accepted. */
  lemma AcceptedOne(id: ConnId) returns (steps: seq<Step>, s: State)
    ensures steps == [Connect(id), ClearAcceptor, PopEntry, TakeConn] && Run(steps) == Some(s)
    ensures s.reg == Registry(map[id := 0], map[0 := Channel(id, Queue([], []))], Queue([], []))
    ensures s.conns == [Conn(0, Endpoint(Idle, false, None), [], None)] && s.posts == []
  {
    steps, s := [], START;
    RunStep(steps, s, Connect(id));
    steps, s := steps + [Connect(id)], Next(s, Connect(id));
    RunStep(steps, s, ClearAcceptor);
    steps, s := steps + [ClearAcceptor], Next(s, ClearAcceptor);
    RunStep(steps, s, PopEntry);
    steps, s := steps + [PopEntry], Next(s, PopEntry);
    RunStep(steps, s, TakeConn);
    steps, s := steps + [TakeConn], Next(s, TakeConn);
  }

  /** A request posted after its server connection was destroyed was never in a slot, and is lost. */
  lemma PostedBehindClosed(id: ConnId) returns (steps: seq<Step>, s: State)
    ensures Run(steps) == Some(s) && LostInQueue(s, 0)
    ensures steps == [Connect(id), ClearAcceptor, PopEntry, TakeConn, DestroyConn(0), Post(id)]
  {
    steps, s := AcceptedOne(id);
    RunStep(steps, s, DestroyConn(0));
    steps, s := steps + [DestroyConn(0)], Next(s, DestroyConn(0));
    RunStep(steps, s, Post(id));
    steps, s := steps + [Post(id)], Next(s, Post(id));
    assert s.conns[0].entry == 0 && s.conns[0].end.phase.Closed?;
    assert At(s, 0, Queued(0)) && Abandoned(s, 0);
  }

  /** An acceptor closed while it waits for the first connection. */
  lemma ClosedAtOnce() returns (steps: seq<Step>, s: State)
    ensures steps == [ClearAcceptor, PopEntry, CloseAcceptor] && Run(steps) == Some(s)
    ensures s == START.(acceptor := Endpoint(Closed, false, None))
  {
    steps, s := [], START;
    RunStep(steps, s, ClearAcceptor);
    steps, s := steps + [ClearAcceptor], Next(s, ClearAcceptor);
    RunStep(steps, s, PopEntry);
    steps, s := steps + [PopEntry], Next(s, PopEntry);
    RunStep(steps, s, CloseAcceptor);
    steps, s := steps + [CloseAcceptor], Next(s, CloseAcceptor);
  }

  /** So is one posted to a connection that a closed acceptor left pending. */
  lemma PostedUnaccepted(id: ConnId) returns (steps: seq<Step>, s: State)
    ensures Run(steps) == Some(s) && LostInQueue(s, 0)
    ensures steps == [ClearAcceptor, PopEntry, CloseAcceptor, Connect(id), Post(id)]
  {
    steps, s := ClosedAtOnce();
    RunStep(steps, s, Connect(id));
    steps, s := steps + [Connect(id)], Next(s, Connect(id));
    RunStep(steps, s, Post(id));
    steps, s := steps + [Post(id)], Next(s, Post(id));
    assert At(s, 0, Queued(0)) && Abandoned(s, 0);
  }
}
