/** Every run of the accept pipeline keeps its invariants. */
module PipelineProofs {
  import opened Options
  import opened Rendezvous
  import opened Registries
  import opened Pipelines

  lemma RegistryKept(s: State, step: Step)
    requires RegistryInv(s) && Enabled(s, step)
    ensures RegistryInv(Next(s, step))
  {
    if step.Post? {
      var s' := Next(s, step);
      assert forall n :: n in s'.reg.channels <==> n in s.reg.channels;
      assert forall n :: n in s.reg.channels ==> s'.reg.channels[n].connId == s.reg.channels[n].connId;
    }
  }

  /** Distinct server connections never share a request queue. */
  lemma OwnQueues(s: State, spots: seq<Spot>, c: nat, c': nat)
    requires EntriesInv(s, spots) && c < |s.conns| && c' < |s.conns|
    requires s.conns[c].entry == s.conns[c'].entry
    ensures c == c'
  {
    assert EntryAt(s, s.conns[c].entry, Handed(c)) && EntryAt(s, s.conns[c].entry, Handed(c'));
  }

  lemma AcceptorKept(s: State, step: Step)
    requires AcceptorInv(s) && Enabled(s, step)
    ensures AcceptorInv(Next(s, step))
  {
  }

  lemma EndpointsKept(s: State, spots: seq<Spot>, step: Step)
    requires RegistryInv(s) && EndpointInv(s) && EntriesInv(s, spots) && Enabled(s, step)
    ensures EndpointInv(Next(s, step))
  {
    AcceptorKept(s, step);
    var s' := Next(s, step);
    forall c: nat | c < |s'.conns| ensures ConnInv(s', c) {
      ConnKept(s, spots, step, c);
    }
    forall n: nat | n in s'.reg.channels ensures ChannelInv(s', n) {
      ChannelKept(s, spots, step, n);
    }
  }

  /** A connection about to pop, or being destroyed while not armed, finds nobody parked in its queue. */
  lemma NobodyElseParked(s: State, spots: seq<Spot>, c: nat)
    requires EndpointInv(s) && EntriesInv(s, spots) && c < |s.conns| && s.conns[c].entry in s.reg.channels
    ensures s.reg.channels[s.conns[c].entry].queue.waiters == if s.conns[c].end.Armed() then [Waiter(c, c)] else []
  {
    assert ConnInv(s, c);
    var n := s.conns[c].entry;
    assert ChannelInv(s, n);
    if s.reg.channels[n].queue.waiters != [] {
      OwnQueues(s, spots, s.reg.channels[n].queue.waiters[0].slot, c);
    }
  }

  lemma ConnKeptByPost(s: State, id: ConnId, c: nat)
    requires EndpointInv(s) && Enabled(s, Post(id)) && c < |s.conns|
    ensures ConnInv(Next(s, Post(id)), c)
  {
    assert ConnInv(s, c);
    assert ChannelInv(s, s.reg.live[id]);
  }

  /** Popping from or leaving one queue does not touch a connection that has another. */
  lemma ConnKeptByOwner(s: State, spots: seq<Spot>, step: Step, c: nat)
    requires EndpointInv(s) && EntriesInv(s, spots) && Enabled(s, step) && c < |s.conns|
    requires step.PopRequest? || step.DestroyConn?
    ensures ConnInv(Next(s, step), c)
  {
    assert ConnInv(s, c);
    NobodyElseParked(s, spots, step.c);
    if s.conns[c].entry == s.conns[step.c].entry { OwnQueues(s, spots, c, step.c); }
  }

  lemma ConnKept(s: State, spots: seq<Spot>, step: Step, c: nat)
    requires RegistryInv(s) && EndpointInv(s) && EntriesInv(s, spots) && Enabled(s, step)
    requires c < |Next(s, step).conns|
    ensures ConnInv(Next(s, step), c)
  {
    if c >= |s.conns| {
      assert EntryAt(s, s.acceptor.slot.value, Held);
    } else if step.Post? {
      ConnKeptByPost(s, step.id, c);
    } else if step.PopRequest? || step.DestroyConn? {
      ConnKeptByOwner(s, spots, step, c);
    } else {
      assert ConnInv(s, c);
    }
  }

  lemma ChannelKeptByPost(s: State, id: ConnId, n: nat)
    requires EndpointInv(s) && Enabled(s, Post(id)) && n in s.reg.channels
    ensures ChannelInv(Next(s, Post(id)), n)
  {
    assert ChannelInv(s, n);
    assert ChannelInv(s, s.reg.live[id]);
  }

  lemma ChannelKeptByOwner(s: State, spots: seq<Spot>, step: Step, n: nat)
    requires EndpointInv(s) && EntriesInv(s, spots) && Enabled(s, step) && n in s.reg.channels
    requires step.PopRequest? || step.DestroyConn?
    ensures ChannelInv(Next(s, step), n)
  {
    assert ChannelInv(s, n);
    assert ConnInv(s, step.c);
    NobodyElseParked(s, spots, step.c);
  }

  lemma ChannelKept(s: State, spots: seq<Spot>, step: Step, n: nat)
    requires RegistryInv(s) && EndpointInv(s) && EntriesInv(s, spots) && Enabled(s, step)
    requires n in Next(s, step).reg.channels
    ensures ChannelInv(Next(s, step), n)
  {
    if n in s.reg.channels {
      if step.Post? {
        ChannelKeptByPost(s, step.id, n);
      } else if step.PopRequest? || step.DestroyConn? {
        ChannelKeptByOwner(s, spots, step, n);
      } else {
        assert ChannelInv(s, n);
      }
    }
  }

  // ----- Where entries and requests go -----

  /** The one entry a step moves, and where to. */
  ghost function MovedEntry(s: State, step: Step): Option<(nat, Spot)> {
    match step
    case Connect(_) => Some((s.added, if s.reg.pending.waiters == [] then Pending else Held))
    case PopEntry =>
      var items := s.reg.pending.items;
      if items == [] then None else Some((items[|items| - 1], Held))
    case TakeConn => if s.acceptor.slot.None? then None else Some((s.acceptor.slot.value, Handed(|s.conns|)))
    case _ => None
  }

  /** A step changes the whereabouts of no entry but the one it moves. */
  lemma EntryMoves(s: State, spots: seq<Spot>, step: Step, e: nat, spot: Spot)
    requires AcceptorInv(s) && EntriesInv(s, spots) && Enabled(s, step)
    ensures EntryAt(Next(s, step), e, spot) <==>
      if MovedEntry(s, step).Some? && MovedEntry(s, step).value.0 == e then spot == MovedEntry(s, step).value.1
      else EntryAt(s, e, spot)
  {
    assert EntryAt(s, e, spot) ==> e < s.added && spots[e] == spot;
    if step.PopEntry? && s.reg.pending.items != [] {
      assert EntryAt(s, s.reg.pending.items[|s.reg.pending.items| - 1], Pending);
    } else if step.TakeConn? && s.acceptor.slot.Some? {
      assert EntryAt(s, s.acceptor.slot.value, Held);
    }
  }

  /** A step moves an entry already added, or the one it adds. */
  lemma MovedEntryKnown(s: State, spots: seq<Spot>, step: Step)
    requires AcceptorInv(s) && EntriesInv(s, spots) && Enabled(s, step)
    ensures MovedEntry(s, step).Some? ==> MovedEntry(s, step).value.0 <= s.added
    ensures step.Connect? <==> MovedEntry(s, step).Some? && MovedEntry(s, step).value.0 == s.added
  {
    if step.PopEntry? && s.reg.pending.items != [] {
      assert EntryAt(s, s.reg.pending.items[|s.reg.pending.items| - 1], Pending);
    } else if step.TakeConn? && s.acceptor.slot.Some? {
      assert EntryAt(s, s.acceptor.slot.value, Held);
    }
  }

  function Put<P>(places: seq<P>, i: nat, x: P): seq<P>
    requires i <= |places|
  {
    if i == |places| then places + [x] else places[i := x]
  }

  lemma EntriesKept(s: State, spots: seq<Spot>, step: Step) returns (spots': seq<Spot>)
    requires AcceptorInv(s) && EntriesInv(s, spots) && Enabled(s, step)
    ensures EntriesInv(Next(s, step), spots')
  {
    var s', m := Next(s, step), MovedEntry(s, step);
    MovedEntryKnown(s, spots, step);
    spots' := if m.None? then spots else Put(spots, m.value.0, m.value.1);
    forall e: nat, spot ensures EntryAt(s', e, spot) <==> e < s'.added && spots'[e] == spot {
      EntryMoves(s, spots, step, e, spot);
    }
    assert !EntryAt(s, s.added, Pending);
  }

  /** The one request a step moves, and where to. */
  ghost function Moved(s: State, step: Step): Option<(nat, Place)>
    requires Enabled(s, step)
  {
    match step
    case Post(id) =>
      var waiters := s.reg.channels[s.reg.live[id]].queue.waiters;
      Some((|s.posts|, if waiters == [] then Queued(s.reg.live[id]) else InSlot(waiters[|waiters| - 1].slot)))
    case PopRequest(c) =>
      var items := s.reg.channels[s.conns[c].entry].queue.items;
      if items == [] then None else Some((items[|items| - 1], InSlot(c)))
    case TakeRequest(c) =>
      if s.conns[c].end.slot.None? then None else Some((s.conns[c].end.slot.value, Taken(c)))
    case DestroyConn(c) =>
      if s.conns[c].end.slot.None? then None else Some((s.conns[c].end.slot.value, Dropped(c)))
    case _ => None
  }

  ghost predicate MovesOnly(s: State, step: Step, r: nat, place: Place)
    requires Enabled(s, step)
  {
    At(Next(s, step), r, place) <==>
      if Moved(s, step).Some? && Moved(s, step).value.0 == r then place == Moved(s, step).value.1
      else At(s, r, place)
  }

  /** A post, seen from the queues. */
  lemma PostMovesQueued(s: State, places: seq<Place>, id: ConnId, r: nat, n: nat)
    requires RegistryInv(s) && EndpointInv(s) && RequestsInv(s, places) && Enabled(s, Post(id))
    ensures MovesOnly(s, Post(id), r, Queued(n))
  {
    assert At(s, r, Queued(n)) ==> r < |s.posts| && places[r] == Queued(n);
  }

  /** A post, seen from the endpoints. */
  lemma PostMovesOther(s: State, places: seq<Place>, id: ConnId, r: nat, place: Place)
    requires RegistryInv(s) && EndpointInv(s) && RequestsInv(s, places) && Enabled(s, Post(id)) && !place.Queued?
    ensures MovesOnly(s, Post(id), r, place)
  {
    assert ChannelInv(s, s.reg.live[id]);
    var waiters := s.reg.channels[s.reg.live[id]].queue.waiters;
    if waiters != [] { assert ConnInv(s, waiters[0].slot); }
    assert At(s, r, place) ==> r < |s.posts| && places[r] == place;
  }

  lemma PostMoves(s: State, places: seq<Place>, id: ConnId, r: nat, place: Place)
    requires RegistryInv(s) && EndpointInv(s) && RequestsInv(s, places) && Enabled(s, Post(id))
    ensures MovesOnly(s, Post(id), r, place)
  {
    if place.Queued? {
      PostMovesQueued(s, places, id, r, place.entry);
    } else {
      PostMovesOther(s, places, id, r, place);
    }
  }

  /** Without duplicates the last item leaves when it is taken off the end. */
  lemma LastLeaves(items: seq<nat>, x: nat)
    requires items != [] && NoDup(items)
    ensures x in items[..|items| - 1] <==> x in items && x != items[|items| - 1]
  {
  }

  /** A pop, seen from the queues. */
  lemma PopMovesQueued(s: State, places: seq<Place>, c: nat, r: nat, n: nat)
    requires RegistryInv(s) && EndpointInv(s) && RequestsInv(s, places) && Enabled(s, PopRequest(c))
    ensures MovesOnly(s, PopRequest(c), r, Queued(n))
  {
    var m := s.conns[c].entry;
    var items := s.reg.channels[m].queue.items;
    if items != [] {
      LastLeaves(items, r);
      assert At(s, items[|items| - 1], Queued(m));
      assert At(s, r, Queued(n)) ==> r < |s.posts| && places[r] == Queued(n);
    }
  }

  /** A pop, seen from the endpoints. */
  lemma PopMovesOther(s: State, places: seq<Place>, c: nat, r: nat, place: Place)
    requires RegistryInv(s) && EndpointInv(s) && RequestsInv(s, places) && Enabled(s, PopRequest(c)) && !place.Queued?
    ensures MovesOnly(s, PopRequest(c), r, place)
  {
    assert ConnInv(s, c);
    var items := s.reg.channels[s.conns[c].entry].queue.items;
    if items != [] {
      assert At(s, items[|items| - 1], Queued(s.conns[c].entry));
      assert At(s, r, place) ==> r < |s.posts| && places[r] == place;
    }
  }

  lemma PopMoves(s: State, places: seq<Place>, c: nat, r: nat, place: Place)
    requires RegistryInv(s) && EndpointInv(s) && RequestsInv(s, places) && Enabled(s, PopRequest(c))
    ensures MovesOnly(s, PopRequest(c), r, place)
  {
    if place.Queued? {
      PopMovesQueued(s, places, c, r, place.entry);
    } else {
      PopMovesOther(s, places, c, r, place);
    }
  }

  lemma TakeMoves(s: State, places: seq<Place>, c: nat, r: nat, place: Place)
    requires RegistryInv(s) && EndpointInv(s) && RequestsInv(s, places) && Enabled(s, TakeRequest(c))
    ensures MovesOnly(s, TakeRequest(c), r, place)
  {
    assert ConnInv(s, c);
    assert At(s, r, place) ==> r < |s.posts| && places[r] == place;
    assert At(s, s.conns[c].end.slot.value, InSlot(c));
  }

  lemma DestroyMoves(s: State, places: seq<Place>, c: nat, r: nat, place: Place)
    requires RegistryInv(s) && EndpointInv(s) && RequestsInv(s, places) && Enabled(s, DestroyConn(c))
    ensures MovesOnly(s, DestroyConn(c), r, place)
  {
    assert ConnInv(s, c);
    assert At(s, r, place) ==> r < |s.posts| && places[r] == place;
    if s.conns[c].end.slot.Some? { assert At(s, s.conns[c].end.slot.value, InSlot(c)); }
  }

  /** A step changes the whereabouts of no request but the one it moves. */
  lemma RequestMoves(s: State, places: seq<Place>, step: Step, r: nat, place: Place)
    requires RegistryInv(s) && EndpointInv(s) && RequestsInv(s, places) && Enabled(s, step)
    ensures MovesOnly(s, step, r, place)
  {
    match step
    case Post(id) => PostMoves(s, places, id, r, place);
    case PopRequest(c) => PopMoves(s, places, c, r, place);
    case TakeRequest(c) => TakeMoves(s, places, c, r, place);
    case DestroyConn(c) => DestroyMoves(s, places, c, r, place);
    case _ =>
  }

  /** A step moves a request already posted, or the one it posts, within one entry. */
  lemma MovedKnown(s: State, places: seq<Place>, step: Step)
    requires RegistryInv(s) && EndpointInv(s) && RequestsInv(s, places) && Enabled(s, step)
    ensures Moved(s, step).Some? ==> Moved(s, step).value.0 <= |s.posts|
    ensures step.Post? <==> Moved(s, step).Some? && Moved(s, step).value.0 == |s.posts|
    ensures Moved(s, step).Some? ==>
      EntryOf(Next(s, step), Moved(s, step).value.1) == Next(s, step).posts[Moved(s, step).value.0].entry
  {
    if step.Post? {
      assert ChannelInv(s, s.reg.live[step.id]);
    } else if step.PopRequest? {
      var n := s.conns[step.c].entry;
      var items := s.reg.channels[n].queue.items;
      if items != [] { assert At(s, items[|items| - 1], Queued(n)); }
    } else if step.TakeRequest? || step.DestroyConn? {
      assert ConnInv(s, step.c);
      if s.conns[step.c].end.slot.Some? { assert At(s, s.conns[step.c].end.slot.value, InSlot(step.c)); }
    }
  }

  lemma QueuesNoDupKept(s: State, places: seq<Place>, step: Step, n: nat)
    requires RegistryInv(s) && RequestsInv(s, places) && Enabled(s, step) && n in Next(s, step).reg.channels
    ensures NoDup(Next(s, step).reg.channels[n].queue.items)
  {
    if step.Post? {
      assert !At(s, |s.posts|, Queued(n));
    }
  }

  lemma TakenNoDupKept(s: State, places: seq<Place>, step: Step, c: nat)
    requires RequestsInv(s, places) && Enabled(s, step) && c < |Next(s, step).conns|
    ensures NoDup(Next(s, step).conns[c].taken)
  {
    if step == TakeRequest(c) && s.conns[c].end.slot.Some? {
      assert At(s, s.conns[c].end.slot.value, InSlot(c));
      assert !At(s, s.conns[c].end.slot.value, Taken(c));
    }
  }

  lemma EntryOfKept(s: State, places: seq<Place>, step: Step, r: nat)
    requires PlacesInv(s, places) && Enabled(s, step) && r < |s.posts|
    ensures EntryOf(Next(s, step), places[r]) == s.posts[r].entry == Next(s, step).posts[r].entry
  {
    assert At(s, r, places[r]);
  }

  /** The places after a step. */
  ghost function PlacesAfter(s: State, places: seq<Place>, step: Step): seq<Place>
    requires Enabled(s, step) && (Moved(s, step).Some? ==> Moved(s, step).value.0 <= |places|)
  {
    match Moved(s, step)
    case None => places
    case Some((r, place)) => Put(places, r, place)
  }

  lemma PlaceCount(s: State, places: seq<Place>, step: Step)
    requires RegistryInv(s) && EndpointInv(s) && RequestsInv(s, places) && Enabled(s, step)
    ensures Moved(s, step).Some? ==> Moved(s, step).value.0 <= |places|
    ensures |PlacesAfter(s, places, step)| == |Next(s, step).posts|
  {
    MovedKnown(s, places, step);
  }

  lemma PlaceFound(s: State, places: seq<Place>, step: Step, r: nat, place: Place)
    requires RegistryInv(s) && EndpointInv(s) && RequestsInv(s, places) && Enabled(s, step)
    requires Moved(s, step).Some? ==> Moved(s, step).value.0 <= |places|
    ensures var places' := PlacesAfter(s, places, step);
      At(Next(s, step), r, place) <==> r < |places'| && places'[r] == place
  {
    RequestMoves(s, places, step, r, place);
  }

  lemma PlaceOwned(s: State, places: seq<Place>, step: Step, r: nat)
    requires RegistryInv(s) && EndpointInv(s) && RequestsInv(s, places) && Enabled(s, step) && r < |Next(s, step).posts|
    requires Moved(s, step).Some? ==> Moved(s, step).value.0 <= |places|
    requires |PlacesAfter(s, places, step)| == |Next(s, step).posts|
    ensures EntryOf(Next(s, step), PlacesAfter(s, places, step)[r]) == Next(s, step).posts[r].entry
  {
    MovedKnown(s, places, step);
    if r < |s.posts| {
      EntryOfKept(s, places, step, r);
    }
  }

  lemma PlacesKept(s: State, places: seq<Place>, step: Step) returns (places': seq<Place>)
    requires RegistryInv(s) && EndpointInv(s) && RequestsInv(s, places) && Enabled(s, step)
    ensures PlacesInv(Next(s, step), places')
  {
    PlaceCount(s, places, step);
    places' := PlacesAfter(s, places, step);
    forall r: nat, place ensures At(Next(s, step), r, place) <==> r < |places'| && places'[r] == place {
      PlaceFound(s, places, step, r, place);
    }
    forall r: nat | r < |places'| ensures EntryOf(Next(s, step), places'[r]) == Next(s, step).posts[r].entry {
      PlaceOwned(s, places, step, r);
    }
  }

  lemma RequestsKept(s: State, places: seq<Place>, step: Step) returns (places': seq<Place>)
    requires RegistryInv(s) && EndpointInv(s) && RequestsInv(s, places) && Enabled(s, step)
    ensures RequestsInv(Next(s, step), places')
  {
    forall n: nat | n in Next(s, step).reg.channels ensures NoDup(Next(s, step).reg.channels[n].queue.items) {
      QueuesNoDupKept(s, places, step, n);
    }
    forall c: nat | c < |Next(s, step).conns| ensures NoDup(Next(s, step).conns[c].taken) {
      TakenNoDupKept(s, places, step, c);
    }
    places' := PlacesKept(s, places, step);
  }
}
