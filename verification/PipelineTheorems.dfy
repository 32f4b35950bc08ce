/** What every run of the accept pipeline guarantees. */
module PipelineTheorems {
  import opened Options
  import opened Rendezvous
  import opened Registries
  import opened Pipelines
  import opened PipelineProofs

  ghost predicate Inv(s: State, spots: seq<Spot>, places: seq<Place>) {
    RegistryInv(s) && EndpointInv(s) && EntriesInv(s, spots) && RequestsInv(s, places)
  }

  lemma {:induction false} RunKeeps(steps: seq<Step>) returns (spots: seq<Spot>, places: seq<Place>)
    requires Run(steps).Some?
    ensures Inv(Run(steps).value, spots, places)
  {
    if steps == [] {
      spots, places := [], [];
    } else {
      var before, last := steps[..|steps| - 1], steps[|steps| - 1];
      spots, places := RunKeeps(before);
      var s := Run(before).value;
      RegistryKept(s, last);
      EndpointsKept(s, spots, last);
      places := RequestsKept(s, places, last);
      spots := EntriesKept(s, spots, last);
    }
  }

  /** Conservation and isolation: every posted request is in exactly one place, that place belongs
      to the entry it was posted to, and that entry carries the id it was posted under. */
  lemma ExactlyOnePlace(steps: seq<Step>, s: State, r: nat) returns (place: Place)
    requires Run(steps) == Some(s) && r < |s.posts|
    ensures forall p :: At(s, r, p) <==> p == place
    ensures EntryOf(s, place) == s.posts[r].entry
    ensures s.posts[r].entry in s.reg.channels && s.reg.channels[s.posts[r].entry].connId == s.posts[r].connId
  {
    var spots, places := RunKeeps(steps);
    place := places[r];
  }

  /** Nothing is ever queued or yielded that was not posted, and nothing twice. */
  lemma NothingInvented(steps: seq<Step>, s: State)
    requires Run(steps) == Some(s)
    ensures forall r: nat, p :: At(s, r, p) ==> r < |s.posts|
    ensures forall n: nat :: n in s.reg.channels ==> NoDup(s.reg.channels[n].queue.items)
    ensures forall c: nat :: c < |s.conns| ==> NoDup(s.conns[c].taken)
  {
    var spots, places := RunKeeps(steps);
  }

  /** Every entry is pending, held for the acceptor, or with one server connection; never two of them,
      so no two server connections share a queue and each connection is handed out at most once. */
  lemma EntriesHandedOnce(steps: seq<Step>, s: State, e: nat) returns (spot: Spot)
    requires Run(steps) == Some(s) && e < s.added
    ensures forall p :: EntryAt(s, e, p) <==> p == spot
  {
    var spots, places := RunKeeps(steps);
    spot := spots[e];
  }

  /** No lost wake-up at the acceptor: while it waits, its event is set exactly when its holder is
      full; while it waits unsignalled it is parked and no connection is pending; a freshly cleared
      event is unset and nobody can set it; a completing wait always finds an entry. */
  lemma AcceptorNeverSleepsOnWork(steps: seq<Step>, s: State)
    requires Run(steps) == Some(s)
    ensures s.acceptor.phase == Waiting ==> (s.acceptor.signalled <==> s.acceptor.slot.Some?)
    ensures s.acceptor.Armed() <==> s.reg.pending.waiters == [Waiter(0, 0)]
    ensures s.acceptor.Armed() ==> s.reg.pending.items == []
    ensures s.acceptor.phase == Cleared ==> !s.acceptor.signalled && s.reg.pending.waiters == []
    ensures Enabled(s, TakeConn) ==> s.acceptor.slot.Some?
  {
    var spots, places := RunKeeps(steps);
  }

  /** The same at every server connection. The two asserts of an accept hold as well: an idle
      connection's slot is empty, and its queue is set. */
  lemma ConnNeverSleepsOnWork(steps: seq<Step>, s: State, c: nat)
    requires Run(steps) == Some(s) && c < |s.conns|
    ensures s.conns[c].entry in s.reg.channels
    ensures var end, q := s.conns[c].end, s.reg.channels[s.conns[c].entry].queue;
      && (end.phase == Waiting ==> (end.signalled <==> end.slot.Some?))
      && (end.Armed() <==> q.waiters == [Waiter(c, c)])
      && (end.Armed() ==> q.items == [])
      && (!end.Armed() ==> q.waiters == [])
      && (end.phase == Cleared ==> !end.signalled)
      && (end.phase == Idle ==> end.slot == None)
      && (Enabled(s, TakeRequest(c)) ==> end.slot.Some?)
  {
    var spots, places := RunKeeps(steps);
    assert ConnInv(s, c);
    NobodyElseParked(s, spots, c);
    assert ChannelInv(s, s.conns[c].entry);
  }

  /** A request posted while its connection waits unsignalled wakes it, with that very request. */
  lemma PostWakes(steps: seq<Step>, s: State, c: nat, id: ConnId)
    requires Run(steps) == Some(s) && c < |s.conns| && s.conns[c].end.Armed()
    requires Enabled(s, Post(id)) && s.reg.live[id] == s.conns[c].entry
    ensures Next(s, Post(id)).conns[c].end == Endpoint(Waiting, true, Some(|s.posts|))
  {
    ConnNeverSleepsOnWork(steps, s, c);
  }

  /** Cancelling at the tail is enough: after a server connection is destroyed no queue holds a
      popper that names it, and every popper ever parked, the acceptor's included, names an endpoint
      still waiting unsignalled, so no push, now or later in the run, writes to a closed endpoint. */
  lemma NoDeadPopper(steps: seq<Step>, s: State, n: nat, p: nat)
    requires Run(steps) == Some(s) && n in s.reg.channels && p < |s.reg.channels[n].queue.waiters|
    ensures var w := s.reg.channels[n].queue.waiters[p];
      w.slot == w.event < |s.conns| && s.conns[w.slot].entry == n && s.conns[w.slot].end.Armed()
    ensures s.reg.pending.waiters == if s.acceptor.Armed() then [Waiter(0, 0)] else []
  {
    var spots, places := RunKeeps(steps);
    assert ChannelInv(s, n);
  }

  /** A destroyed connection's endpoint stays closed and empty, whatever happens next. */
  lemma DestroyedStaysEmpty(steps: seq<Step>, s: State, step: Step, c: nat)
    requires Run(steps) == Some(s) && c < |s.conns| && s.conns[c].end.phase == Closed && Enabled(s, step)
    ensures Next(s, step).conns[c] == s.conns[c]
  {
    var spots, places := RunKeeps(steps);
    if step.Post? {
      assert ChannelInv(s, s.reg.live[step.id]);
    }
  }

  /** A request is dropped from a slot exactly when its server connection is destroyed after the request
      reached the slot and before the handler took it. */
  lemma DroppedExactlyWhenDestroyedReady(steps: seq<Step>, s: State, step: Step, r: nat, c: nat)
    requires Run(steps) == Some(s) && Enabled(s, step) && c < |s.conns|
    ensures At(Next(s, step), r, Dropped(c)) <==>
      At(s, r, Dropped(c)) || (step == DestroyConn(c) && s.conns[c].end.Ready() && s.conns[c].end.slot == Some(r))
  {
    var spots, places := RunKeeps(steps);
    assert ConnInv(s, c);
    RequestMoves(s, places, step, r, Dropped(c));
    if step.Post? {
      assert ChannelInv(s, s.reg.live[step.id]);
    }
  }

  // ----- The run seen from outside -----

  function Connects(steps: seq<Step>): nat {
    if steps == [] then 0
    else Connects(steps[..|steps| - 1]) + if steps[|steps| - 1].Connect? then 1 else 0
  }

  function Posts(steps: seq<Step>): nat {
    if steps == [] then 0
    else Posts(steps[..|steps| - 1]) + if steps[|steps| - 1].Post? then 1 else 0
  }

  /** Step k opened the session of id that is still open after the run. */
  ghost predicate OpenSession(steps: seq<Step>, id: ConnId, k: nat) {
    && k < |steps| && steps[k] == Connect(id)
    && forall j :: k < j < |steps| ==> steps[j] != Connect(id) && steps[j] != Disconnect(id)
  }

  lemma OpenSessionStep(before: seq<Step>, last: Step, id: ConnId, k: nat)
    ensures OpenSession(before + [last], id, k) <==>
      (k == |before| && last == Connect(id)) ||
        (OpenSession(before, id, k) && last != Connect(id) && last != Disconnect(id))
  {
    var steps := before + [last];
    if OpenSession(before, id, k) && last != Connect(id) && last != Disconnect(id) {
      forall j | k < j < |steps| ensures steps[j] != Connect(id) && steps[j] != Disconnect(id) {
        assert j < |before| ==> steps[j] == before[j];
      }
    }
    if OpenSession(steps, id, k) && k < |before| {
      assert steps[|before|] == last;
      forall j | k < j < |before| ensures before[j] != Connect(id) && before[j] != Disconnect(id) {
        assert before[j] == steps[j];
      }
    }
  }

  ghost predicate LiveMatches(steps: seq<Step>, live: map<ConnId, nat>, id: ConnId) {
    && (id in live <==> exists k: nat :: OpenSession(steps, id, k))
    && (forall k: nat :: OpenSession(steps, id, k) ==> id in live && live[id] == Connects(steps[..k]))
  }

  lemma LiveStep(before: seq<Step>, s: State, last: Step, id: ConnId)
    requires LiveMatches(before, s.reg.live, id) && Enabled(s, last) && s.added == Connects(before)
    ensures LiveMatches(before + [last], Next(s, last).reg.live, id)
  {
    var steps := before + [last];
    var live' := Next(s, last).reg.live;
    forall k: nat | OpenSession(steps, id, k) ensures id in live' && live'[id] == Connects(steps[..k]) {
      OpenSessionStep(before, last, id, k);
      assert steps[..k] == before[..k];
      assert before[..|before|] == before;
    }
    if id in live' {
      if last == Connect(id) {
        OpenSessionStep(before, last, id, |before|);
      } else {
        var k: nat :| OpenSession(before, id, k);
        OpenSessionStep(before, last, id, k);
      }
    }
  }

  lemma {:induction false} AddedAndPosted(steps: seq<Step>, s: State)
    requires Run(steps) == Some(s)
    ensures s.added == Connects(steps) && |s.posts| == Posts(steps)
  {
    if steps == [] {
    } else {
      var before := steps[..|steps| - 1];
      AddedAndPosted(before, Run(before).value);
      CountsStep(Run(before).value, steps[|steps| - 1]);
    }
  }

  lemma CountsStep(s: State, step: Step)
    requires Enabled(s, step)
    ensures Next(s, step).added == s.added + if step.Connect? then 1 else 0
    ensures |Next(s, step).posts| == |s.posts| + if step.Post? then 1 else 0
  {
  }

  lemma {:induction false} LiveMatchesAlways(steps: seq<Step>, s: State, id: ConnId)
    requires Run(steps) == Some(s)
    ensures LiveMatches(steps, s.reg.live, id)
  {
    if steps == [] {
      assert forall k: nat :: !OpenSession(steps, id, k);
    } else {
      var before, last := steps[..|steps| - 1], steps[|steps| - 1];
      LiveMatchesAlways(before, Run(before).value, id);
      AddedAndPosted(before, Run(before).value);
      LiveStep(before, Run(before).value, last, id);
      assert steps == before + [last];
    }
  }

  /** The live map is the history of connects and disconnects: id is live exactly when some connect
      of it was never followed by a disconnect, and it names the entry that connect created. */
  lemma LiveIsHistory(steps: seq<Step>, s: State, id: ConnId)
    requires Run(steps) == Some(s)
    ensures s.added == Connects(steps) && |s.posts| == Posts(steps)
    ensures id in s.reg.live <==> exists k: nat :: OpenSession(steps, id, k)
    ensures forall k: nat :: OpenSession(steps, id, k) ==> id in s.reg.live && s.reg.live[id] == Connects(steps[..k])
  {
    AddedAndPosted(steps, s);
    LiveMatchesAlways(steps, s, id);
  }

  lemma PostsKept(s: State, step: Step)
    requires Enabled(s, step)
    ensures s.posts <= Next(s, step).posts
    ensures step.Post? ==> Next(s, step).posts == s.posts + [Posted(step.id, s.reg.live[step.id])]
  {
  }

  /** The request posted by step t belongs to the session of its id open at that moment: to the entry
      created by that session's connect, whatever connects and disconnects of the same id follow. */
  lemma {:induction false} OwnGeneration(steps: seq<Step>, s: State, t: nat, id: ConnId) returns (k: nat)
    requires Run(steps) == Some(s) && t < |steps| && steps[t] == Post(id)
    ensures OpenSession(steps[..t], id, k)
    ensures Posts(steps[..t]) < |s.posts| && s.posts[Posts(steps[..t])] == Posted(id, Connects(steps[..k]))
  {
    var before := steps[..|steps| - 1];
    var s0 := Run(before).value;
    LiveIsHistory(before, s0, id);
    PostsKept(s0, steps[|before|]);
    if t == |before| {
      k :| OpenSession(before, id, k);
      assert steps[..k] == before[..k];
    } else {
      k := OwnGeneration(before, s0, t, id);
      assert steps[..t] == before[..t];
      assert steps[..k] == before[..k];
    }
  }

  lemma {:induction false} ConnectsGrow(steps: seq<Step>, k: nat, l: nat)
    requires k < l <= |steps| && steps[k].Connect?
    ensures Connects(steps[..k]) < Connects(steps[..l])
  {
    assert steps[..l][..l - 1] == steps[..l - 1];
    if k == l - 1 {
    } else {
      ConnectsGrow(steps, k, l - 1);
    }
  }

  /** A session open at u with a disconnect before it began after that disconnect. */
  lemma SessionsApart(steps: seq<Step>, id: ConnId, t: nat, d: nat, u: nat, k: nat, l: nat)
    requires t < d < u <= |steps| && steps[d] == Disconnect(id)
    requires OpenSession(steps[..t], id, k) && OpenSession(steps[..u], id, l)
    ensures Connects(steps[..k]) < Connects(steps[..l])
  {
    assert steps[..u][d] == Disconnect(id);
    ConnectsGrow(steps, k, l);
  }

  lemma PlacesApart(steps: seq<Step>, s: State, r: nat, r': nat)
    requires Run(steps) == Some(s) && r < |s.posts| && r' < |s.posts| && s.posts[r].entry != s.posts[r'].entry
    ensures forall p, q :: At(s, r, p) && At(s, r', q) ==> EntryOf(s, p) != EntryOf(s, q)
  {
    var p := ExactlyOnePlace(steps, s, r);
    var q := ExactlyOnePlace(steps, s, r');
  }

  /** Two requests posted under one id with a disconnect between them never meet: they are never
      in places that belong to the same entry, hence never with the same server connection. */
  lemma GenerationsNeverMix(steps: seq<Step>, s: State, t: nat, d: nat, u: nat, id: ConnId)
    requires Run(steps) == Some(s) && t < d < u < |steps|
    requires steps[t] == Post(id) && steps[d] == Disconnect(id) && steps[u] == Post(id)
    ensures Posts(steps[..t]) < |s.posts| && Posts(steps[..u]) < |s.posts|
    ensures s.posts[Posts(steps[..t])].entry != s.posts[Posts(steps[..u])].entry
    ensures forall p, q :: At(s, Posts(steps[..t]), p) && At(s, Posts(steps[..u]), q) ==> EntryOf(s, p) != EntryOf(s, q)
  {
    var k := OwnGeneration(steps, s, t, id);
    var l := OwnGeneration(steps, s, u, id);
    SessionsApart(steps, id, t, d, u, k, l);
    PlacesApart(steps, s, Posts(steps[..t]), Posts(steps[..u]));
  }

  // ----- Every request queue is a rendezvous of its own -----

  /** What a step does to the queue of entry n. */
  ghost function OpOn(s: State, step: Step, n: nat): seq<Op<nat, nat, nat>>
    requires Enabled(s, step)
  {
    match step
    case Post(id) => if s.reg.live[id] == n then [Op.Push(|s.posts|)] else []
    case PopRequest(c) => if s.conns[c].entry == n then [Op.Pop(c, c)] else []
    case DestroyConn(c) => if s.conns[c].entry == n then [Op.Cancel(c)] else []
    case _ => []
  }

  ghost function OpsOn(steps: seq<Step>, n: nat): seq<Op<nat, nat, nat>>
    requires Run(steps).Some?
  {
    if steps == [] then []
    else
      var before := steps[..|steps| - 1];
      OpsOn(before, n) + OpOn(Run(before).value, steps[|steps| - 1], n)
  }

  lemma ChannelsKnown(steps: seq<Step>, s: State)
    requires Run(steps) == Some(s)
    ensures RegistryInv(s) && forall c :: 0 <= c < |s.conns| ==> s.conns[c].entry in s.reg.channels
  {
    var spots, places := RunKeeps(steps);
    forall c | 0 <= c < |s.conns| ensures s.conns[c].entry in s.reg.channels {
      assert ConnInv(s, c);
    }
  }

  lemma QueueStep(s: State, step: Step, n: nat, ops: seq<Op<nat, nat, nat>>)
    requires RegistryInv(s) && Enabled(s, step)
    requires if n in s.reg.channels then s.reg.channels[n].queue == Contents(ops) else ops == []
    requires forall c :: 0 <= c < |s.conns| ==> s.conns[c].entry in s.reg.channels
    ensures var ops' := ops + OpOn(s, step, n);
      if n in Next(s, step).reg.channels then Next(s, step).reg.channels[n].queue == Contents(ops') else ops' == []
  {
    var op := OpOn(s, step, n);
    if op != [] {
      ContentsExtend(ops, op[0]);
      assert op == [op[0]];
    } else {
      assert ops + op == ops;
    }
  }

  /** Projection: whatever interleaves, the queue of entry n has seen exactly the operations on n. */
  lemma {:induction false} QueueIsItsOwnRun(steps: seq<Step>, s: State, n: nat)
    requires Run(steps) == Some(s)
    ensures if n in s.reg.channels then s.reg.channels[n].queue == Contents(OpsOn(steps, n)) else OpsOn(steps, n) == []
  {
    if steps == [] {
    } else {
      var before, last := steps[..|steps| - 1], steps[|steps| - 1];
      var s0 := Run(before).value;
      QueueIsItsOwnRun(before, s0, n);
      ChannelsKnown(before, s0);
      QueueStep(s0, last, n, OpsOn(before, n));
    }
  }
}
