/** Objects and their numbers: when a queue or registry of real objects is the one of the step system under
    a numbering, every operation keeps it so. */
module Namings {
  import opened Options
  import opened Rendezvous
  import opened Registries
  import opened Pipelines
  import opened PipelineTheorems

  ghost predicate Injective<T>(all: seq<T>) {
    forall i, j :: 0 <= i < j < |all| ==> all[i] != all[j]
  }

  ghost predicate ItemsAre<T>(items: seq<T>, numbers: seq<nat>, all: seq<T>) {
    && |items| == |numbers|
    && forall i :: 0 <= i < |items| ==> numbers[i] < |all| && items[i] == all[numbers[i]]
  }

  ghost predicate WaitersAre<E, S>(waiters: seq<Waiter<E, S>>, numbers: seq<Waiter<nat, nat>>, events: seq<E>,
      slots: seq<S>) {
    && |waiters| == |numbers|
    && forall i :: 0 <= i < |waiters| ==>
      && numbers[i].event < |events| && numbers[i].slot < |slots|
      && waiters[i] == Waiter(events[numbers[i].event], slots[numbers[i].slot])
  }

  ghost predicate QueueIs<T, E, S>(q: Queue<T, E, S>, v: Queue<nat, nat, nat>, all: seq<T>, events: seq<E>,
      slots: seq<S>) {
    ItemsAre(q.items, v.items, all) && WaitersAre(q.waiters, v.waiters, events, slots)
  }

  ghost predicate ServedIs<E, S>(served: Option<Waiter<E, S>>, v: Option<Waiter<nat, nat>>, events: seq<E>,
      slots: seq<S>) {
    match v
    case None => served == None
    case Some(w) =>
      w.event < |events| && w.slot < |slots| && served == Some(Waiter(events[w.event], slots[w.slot]))
  }

  ghost predicate GotIs<T>(got: Option<T>, v: Option<nat>, all: seq<T>) {
    match v
    case None => got == None
    case Some(r) => r < |all| && got == Some(all[r])
  }

  lemma PushIs<T, E, S>(q: Queue<T, E, S>, v: Queue<nat, nat, nat>, all: seq<T>, events: seq<E>, slots: seq<S>, r: nat)
    requires QueueIs(q, v, all, events, slots) && r < |all|
    ensures QueueIs(q.Push(all[r]).0, v.Push(r).0, all, events, slots)
    ensures ServedIs(q.Push(all[r]).1, v.Push(r).1, events, slots)
  {
  }

  lemma PopIs<T, E, S>(q: Queue<T, E, S>, v: Queue<nat, nat, nat>, all: seq<T>, events: seq<E>, slots: seq<S>, c: nat)
    requires QueueIs(q, v, all, events, slots) && c < |events| && c < |slots|
    ensures QueueIs(q.Pop(Waiter(events[c], slots[c])).0, v.Pop(Waiter(c, c)).0, all, events, slots)
    ensures GotIs(q.Pop(Waiter(events[c], slots[c])).1, v.Pop(Waiter(c, c)).1, all)
  {
  }

  lemma CancelIs<T, E, S>(q: Queue<T, E, S>, v: Queue<nat, nat, nat>, all: seq<T>, events: seq<E>, slots: seq<S>,
      c: nat)
    requires QueueIs(q, v, all, events, slots) && c < |events| && Injective(events)
    ensures q.TailIs(events[c]) <==> v.TailIs(c)
    ensures QueueIs(q.Cancel(events[c]), v.Cancel(c), all, events, slots)
  {
  }

  lemma QueueGrows<T, E, S>(q: Queue<T, E, S>, v: Queue<nat, nat, nat>, all: seq<T>, events: seq<E>, slots: seq<S>,
      all': seq<T>, events': seq<E>, slots': seq<S>)
    requires QueueIs(q, v, all, events, slots) && all <= all' && events <= events' && slots <= slots'
    ensures QueueIs(q, v, all', events', slots')
  {
  }

  // ----- Registries -----

  /** Entries, requests, and the events and slots of the server connections, in order of creation; the
      acceptor's event and slot. */
  datatype Naming<N, R, E, SN, SR> = Naming(entries: seq<N>, reqs: seq<R>, events: seq<E>, slots: seq<SR>,
    event: E, slot: SN)
  {
    ghost predicate Distinct() {
      Injective(entries) && Injective(events) && Injective(slots) && event !in events
    }

    ghost predicate Extends(old_: Naming<N, R, E, SN, SR>) {
      && old_.entries <= entries && old_.reqs <= reqs && old_.events <= events && old_.slots <= slots
      && event == old_.event && slot == old_.slot
    }
  }

  ghost predicate LiveIs<N>(live: map<ConnId, N>, v: map<ConnId, nat>, entries: seq<N>) {
    live.Keys == v.Keys && forall id :: id in v ==> v[id] < |entries| && live[id] == entries[v[id]]
  }

  ghost predicate ChannelIs<R, E, SR>(ch: Channel<R, E, SR>, v: Channel<nat, nat, nat>, reqs: seq<R>, events: seq<E>,
      slots: seq<SR>) {
    ch.connId == v.connId && QueueIs(ch.queue, v.queue, reqs, events, slots)
  }

  ghost predicate ChannelsAre<N, R, E, SR>(channels: map<N, Channel<R, E, SR>>, v: map<nat, Channel<nat, nat, nat>>,
      entries: seq<N>, reqs: seq<R>, events: seq<E>, slots: seq<SR>) {
    && channels.Keys == (set e | e in entries)
    && (forall n: nat :: n in v <==> n < |entries|)
    && (forall n: nat :: n < |entries| ==> ChannelIs(channels[entries[n]], v[n], reqs, events, slots))
  }

  ghost predicate RegistryIs<N, R, E, SN, SR>(reg: Registry<N, R, E, SN, SR>, v: Registry<nat, nat, nat, nat, nat>,
      nm: Naming<N, R, E, SN, SR>) {
    && LiveIs(reg.live, v.live, nm.entries)
    && ChannelsAre(reg.channels, v.channels, nm.entries, nm.reqs, nm.events, nm.slots)
    && QueueIs(reg.pending, v.pending, nm.entries, [nm.event], [nm.slot])
  }

  lemma RegistryGrows<N, R, E, SN, SR>(reg: Registry<N, R, E, SN, SR>, v: Registry<nat, nat, nat, nat, nat>,
      nm: Naming<N, R, E, SN, SR>, nm': Naming<N, R, E, SN, SR>)
    requires RegistryIs(reg, v, nm) && nm'.Extends(nm) && nm'.entries == nm.entries
    ensures RegistryIs(reg, v, nm')
  {
  }

  lemma AppendDistinct<T>(all: seq<T>, x: T)
    requires Injective(all) && x !in all
    ensures Injective(all + [x])
  {
  }

  lemma AddedLive<N>(live: map<ConnId, N>, v: map<ConnId, nat>, entries: seq<N>, id: ConnId, e: N)
    requires LiveIs(live, v, entries)
    ensures LiveIs(if id in live then live else live[id := e], if id in v then v else v[id := |entries|], entries + [e])
  {
  }

  lemma AddedChannel<N, R, E, SR>(channels: map<N, Channel<R, E, SR>>, v: map<nat, Channel<nat, nat, nat>>,
      entries: seq<N>, reqs: seq<R>, events: seq<E>, slots: seq<SR>, id: ConnId, e: N)
    requires ChannelsAre(channels, v, entries, reqs, events, slots) && e !in entries
    ensures ChannelsAre(channels[e := Channel(id, Queue([], []))], v[|entries| := Channel(id, Queue([], []))],
      entries + [e], reqs, events, slots)
  {
    var channels' := channels[e := Channel(id, Queue([], []))];
    assert channels'.Keys == channels.Keys + {e} == (set x | x in entries + [e]);
    forall n: nat | n < |entries| ensures channels'[(entries + [e])[n]] == channels[entries[n]] {
      assert entries[n] in entries;
    }
  }

  lemma AddConnIs<N, R, E, SN, SR>(reg: Registry<N, R, E, SN, SR>, v: Registry<nat, nat, nat, nat, nat>,
      nm: Naming<N, R, E, SN, SR>, id: ConnId, e: N)
    requires RegistryIs(reg, v, nm) && e !in nm.entries
    ensures var nm', n := nm.(entries := nm.entries + [e]), |nm.entries|;
      && RegistryIs(reg.AddConn(id, e).0, v.AddConn(id, n).0, nm')
      && ServedIs(reg.AddConn(id, e).1, v.AddConn(id, n).1, [nm.event], [nm.slot])
  {
    var entries' := nm.entries + [e];
    AddedLive(reg.live, v.live, nm.entries, id, e);
    AddedChannel(reg.channels, v.channels, nm.entries, nm.reqs, nm.events, nm.slots, id, e);
    QueueGrows(reg.pending, v.pending, nm.entries, [nm.event], [nm.slot], entries', [nm.event], [nm.slot]);
    assert entries'[|nm.entries|] == e;
    PushIs(reg.pending, v.pending, entries', [nm.event], [nm.slot], |nm.entries|);
  }

  lemma PopConnIs<N, R, E, SN, SR>(reg: Registry<N, R, E, SN, SR>, v: Registry<nat, nat, nat, nat, nat>,
      nm: Naming<N, R, E, SN, SR>)
    requires RegistryIs(reg, v, nm)
    ensures RegistryIs(reg.PopConn(Waiter(nm.event, nm.slot)).0, v.PopConn(Waiter(0, 0)).0, nm)
    ensures GotIs(reg.PopConn(Waiter(nm.event, nm.slot)).1, v.PopConn(Waiter(0, 0)).1, nm.entries)
  {
    PopIs(reg.pending, v.pending, nm.entries, [nm.event], [nm.slot], 0);
  }

  lemma CancelConnIs<N, R, E, SN, SR>(reg: Registry<N, R, E, SN, SR>, v: Registry<nat, nat, nat, nat, nat>,
      nm: Naming<N, R, E, SN, SR>)
    requires RegistryIs(reg, v, nm)
    ensures RegistryIs(reg.CancelConn(nm.event), v.CancelConn(0), nm)
    ensures reg.pending.TailIs(nm.event) <==> v.pending.TailIs(0)
  {
    CancelIs(reg.pending, v.pending, nm.entries, [nm.event], [nm.slot], 0);
  }

  lemma DisconnectIs<N, R, E, SN, SR>(reg: Registry<N, R, E, SN, SR>, v: Registry<nat, nat, nat, nat, nat>,
      nm: Naming<N, R, E, SN, SR>, id: ConnId)
    requires RegistryIs(reg, v, nm)
    ensures RegistryIs(reg.Disconnect(id), v.Disconnect(id), nm)
  {
  }

  /** A new queue for one entry. */
  lemma WithQueueIs<N, R, E, SN, SR>(reg: Registry<N, R, E, SN, SR>, v: Registry<nat, nat, nat, nat, nat>,
      nm: Naming<N, R, E, SN, SR>, n: nat, q: Queue<R, E, SR>, q': Queue<nat, nat, nat>)
    requires RegistryIs(reg, v, nm) && nm.Distinct() && n < |nm.entries|
    requires QueueIs(q, q', nm.reqs, nm.events, nm.slots)
    ensures RegistryIs(reg.WithQueue(nm.entries[n], q), v.WithQueue(n, q'), nm)
  {
  }

  lemma PostIs<N, R, E, SN, SR>(reg: Registry<N, R, E, SN, SR>, v: Registry<nat, nat, nat, nat, nat>,
      nm: Naming<N, R, E, SN, SR>, id: ConnId, r: nat)
    requires RegistryIs(reg, v, nm) && nm.Distinct() && id in v.live && r < |nm.reqs|
    ensures RegistryIs(reg.Post(id, nm.reqs[r]).0, v.Post(id, r).0, nm)
    ensures ServedIs(reg.Post(id, nm.reqs[r]).1, v.Post(id, r).1, nm.events, nm.slots)
  {
    var n := v.live[id];
    var q, q' := reg.channels[nm.entries[n]].queue, v.channels[n].queue;
    assert ChannelIs(reg.channels[nm.entries[n]], v.channels[n], nm.reqs, nm.events, nm.slots);
    PushIs(q, q', nm.reqs, nm.events, nm.slots, r);
    WithQueueIs(reg, v, nm, n, q.Push(nm.reqs[r]).0, q'.Push(r).0);
  }

  lemma PopRequestIs<N, R, E, SN, SR>(reg: Registry<N, R, E, SN, SR>, v: Registry<nat, nat, nat, nat, nat>,
      nm: Naming<N, R, E, SN, SR>, n: nat, c: nat)
    requires RegistryIs(reg, v, nm) && nm.Distinct() && n < |nm.entries| && c < |nm.events| && c < |nm.slots|
    ensures var w := Waiter(nm.events[c], nm.slots[c]);
      && RegistryIs(reg.PopRequest(nm.entries[n], w).0, v.PopRequest(n, Waiter(c, c)).0, nm)
      && GotIs(reg.PopRequest(nm.entries[n], w).1, v.PopRequest(n, Waiter(c, c)).1, nm.reqs)
  {
    var q, q' := reg.channels[nm.entries[n]].queue, v.channels[n].queue;
    assert ChannelIs(reg.channels[nm.entries[n]], v.channels[n], nm.reqs, nm.events, nm.slots);
    PopIs(q, q', nm.reqs, nm.events, nm.slots, c);
    WithQueueIs(reg, v, nm, n, q.Pop(Waiter(nm.events[c], nm.slots[c])).0, q'.Pop(Waiter(c, c)).0);
  }

  lemma CancelRequestIs<N, R, E, SN, SR>(reg: Registry<N, R, E, SN, SR>, v: Registry<nat, nat, nat, nat, nat>,
      nm: Naming<N, R, E, SN, SR>, n: nat, c: nat)
    requires RegistryIs(reg, v, nm) && nm.Distinct() && n < |nm.entries| && c < |nm.events|
    ensures RegistryIs(reg.CancelRequest(nm.entries[n], nm.events[c]), v.CancelRequest(n, c), nm)
  {
    var q, q' := reg.channels[nm.entries[n]].queue, v.channels[n].queue;
    assert ChannelIs(reg.channels[nm.entries[n]], v.channels[n], nm.reqs, nm.events, nm.slots);
    CancelIs(q, q', nm.reqs, nm.events, nm.slots, c);
    WithQueueIs(reg, v, nm, n, q.Cancel(nm.events[c]), q'.Cancel(c));
  }

  // ----- Endpoints -----

  ghost predicate EndIs<T>(end: Endpoint<T>, v: Endpoint<nat>, all: seq<T>) {
    end.phase == v.phase && end.signalled == v.signalled && GotIs(end.slot, v.slot, all)
  }

  // ----- The whole server -----

  /** What the objects hold at one moment: the manager, the acceptor's endpoint, and of every server connection
      the endpoint and the entry it was made for. */
  datatype Snapshot<N, R, E, SN, SR> = Snapshot(
    reg: Registry<N, R, E, SN, SR>, acceptor: Endpoint<N>, ends: seq<Endpoint<R>>, homes: seq<N>)

  ghost predicate EndsAre<R>(ends: seq<Endpoint<R>>, conns: seq<Conn>, reqs: seq<R>) {
    |ends| == |conns| && forall c :: 0 <= c < |conns| ==> EndIs(ends[c], conns[c].end, reqs)
  }

  ghost predicate HomesAre<N>(homes: seq<N>, conns: seq<Conn>, entries: seq<N>) {
    && |homes| == |conns|
    && forall c :: 0 <= c < |conns| ==> conns[c].entry < |entries| && homes[c] == entries[conns[c].entry]
  }

  /** Under the numbering the snapshot is the state of the step system. */
  ghost predicate Shows<N, R, E, SN, SR>(k: Snapshot<N, R, E, SN, SR>, s: State, nm: Naming<N, R, E, SN, SR>) {
    && |nm.entries| == s.added && |nm.reqs| == |s.posts|
    && |nm.events| == |s.conns| && |nm.slots| == |s.conns|
    && RegistryIs(k.reg, s.reg, nm)
    && EndIs(k.acceptor, s.acceptor, nm.entries)
    && EndsAre(k.ends, s.conns, nm.reqs) && HomesAre(k.homes, s.conns, nm.entries)
  }

  lemma ConnectShows<N, R, E, SN, SR>(k: Snapshot<N, R, E, SN, SR>, s: State, nm: Naming<N, R, E, SN, SR>, id: ConnId,
      e: N)
    requires Shows(k, s, nm) && e !in nm.entries && Enabled(s, Connect(id))
    ensures var (reg', served) := k.reg.AddConn(id, e);
      && (served == None || served == Some(Waiter(nm.event, nm.slot)))
      && Shows(k.(reg := reg', acceptor := if served.Some? then k.acceptor.Fill(e) else k.acceptor),
               Next(s, Connect(id)), nm.(entries := nm.entries + [e]))
  {
    AddConnIs(k.reg, s.reg, nm, id, e);
  }

  /** One endpoint changes. */
  lemma SetEndShows<N, R>(ends: seq<Endpoint<R>>, homes: seq<N>, conns: seq<Conn>, conn': Conn, entries: seq<N>,
      reqs: seq<R>, c: nat, end: Endpoint<R>)
    requires EndsAre(ends, conns, reqs) && HomesAre(homes, conns, entries) && c < |conns|
    requires EndIs(end, conn'.end, reqs) && conn'.entry == conns[c].entry
    ensures EndsAre(ends[c := end], conns[c := conn'], reqs) && HomesAre(homes, conns[c := conn'], entries)
  {
  }

  lemma EndsGrow<R>(ends: seq<Endpoint<R>>, conns: seq<Conn>, reqs: seq<R>, reqs': seq<R>)
    requires EndsAre(ends, conns, reqs) && reqs <= reqs'
    ensures EndsAre(ends, conns, reqs')
  {
  }

  /** What a delivered request does to the endpoints. */
  function Delivered<R>(ends: seq<Endpoint<R>>, w: Option<Waiter<nat, nat>>, r: R): seq<Endpoint<R>> {
    if w.Some? && w.value.slot < |ends| then ends[w.value.slot := ends[w.value.slot].Fill(r)] else ends
  }

  lemma DeliverShows<N, R>(ends: seq<Endpoint<R>>, homes: seq<N>, s: State, entries: seq<N>, reqs: seq<R>,
      w: Option<Waiter<nat, nat>>, r: nat)
    requires EndsAre(ends, s.conns, reqs) && HomesAre(homes, s.conns, entries) && r < |reqs|
    ensures EndsAre(Delivered(ends, w, reqs[r]), Deliver(s, w, r).conns, reqs)
    ensures HomesAre(homes, Deliver(s, w, r).conns, entries)
  {
    if w.Some? && w.value.slot < |s.conns| {
      var c := w.value.slot;
      var conn' := s.conns[c].(end := s.conns[c].end.Fill(r));
      SetEndShows(ends, homes, s.conns, conn', entries, reqs, c, ends[c].Fill(reqs[r]));
    }
  }

  /** The request goes to its queue, or to the one connection that waits there. */
  lemma PostShows<N, R, E, SN, SR>(k: Snapshot<N, R, E, SN, SR>, s: State, nm: Naming<N, R, E, SN, SR>, id: ConnId,
      r: R)
    requires Shows(k, s, nm) && nm.Distinct() && Enabled(s, Post(id))
    ensures id in k.reg.live && k.reg.live[id] in k.reg.channels
    ensures ServedIs(k.reg.Post(id, r).1, s.reg.Post(id, |s.posts|).1, nm.events, nm.slots)
    ensures Shows(
      k.(reg := k.reg.Post(id, r).0, ends := Delivered(k.ends, s.reg.Post(id, |s.posts|).1, r)),
      Next(s, Post(id)), nm.(reqs := nm.reqs + [r]))
  {
    var nm', n := nm.(reqs := nm.reqs + [r]), |nm.reqs|;
    RegistryGrows(k.reg, s.reg, nm, nm');
    assert nm'.reqs[n] == r;
    PostIs(k.reg, s.reg, nm', id, n);
    EndsGrow(k.ends, s.conns, nm.reqs, nm'.reqs);
    var (reg', w) := s.reg.Post(id, n);
    var s1 := s.(reg := reg', posts := s.posts + [Posted(id, s.reg.live[id])]);
    DeliverShows(k.ends, k.homes, s1, nm.entries, nm'.reqs, w, n);
  }

  lemma DisconnectShows<N, R, E, SN, SR>(k: Snapshot<N, R, E, SN, SR>, s: State, nm: Naming<N, R, E, SN, SR>,
      id: ConnId)
    requires Shows(k, s, nm) && Enabled(s, Disconnect(id))
    ensures Shows(k.(reg := k.reg.Disconnect(id)), Next(s, Disconnect(id)), nm)
  {
    DisconnectIs(k.reg, s.reg, nm, id);
  }

  lemma PopEntryShows<N, R, E, SN, SR>(k: Snapshot<N, R, E, SN, SR>, s: State, nm: Naming<N, R, E, SN, SR>)
    requires Shows(k, s, nm) && Enabled(s, PopEntry)
    ensures var (reg', got) := k.reg.PopConn(Waiter(nm.event, nm.slot));
      Shows(k.(reg := reg', acceptor := k.acceptor.AfterPop(got)), Next(s, PopEntry), nm)
  {
    PopConnIs(k.reg, s.reg, nm);
  }

  lemma CloseAcceptorShows<N, R, E, SN, SR>(k: Snapshot<N, R, E, SN, SR>, s: State, nm: Naming<N, R, E, SN, SR>)
    requires Shows(k, s, nm) && Enabled(s, CloseAcceptor)
    ensures var acceptor' := if k.reg.pending.TailIs(nm.event) then k.acceptor.(phase := Closed) else k.acceptor;
      Shows(k.(reg := k.reg.CancelConn(nm.event), acceptor := acceptor'), Next(s, CloseAcceptor), nm)
  {
    CancelConnIs(k.reg, s.reg, nm);
  }

  /** The acceptor hands the held entry over to a new connection with an event and a slot of its own. */
  lemma TakeConnShows<N, R, E, SN, SR>(k: Snapshot<N, R, E, SN, SR>, s: State, nm: Naming<N, R, E, SN, SR>,
      event: E, slot: SR)
    requires Shows(k, s, nm) && Enabled(s, TakeConn) && k.acceptor.slot.Some?
    ensures Shows(
      k.(acceptor := k.acceptor.(phase := Idle), ends := k.ends + [Endpoint(Idle, false, None)],
         homes := k.homes + [k.acceptor.slot.value]),
      Next(s, TakeConn), nm.(events := nm.events + [event], slots := nm.slots + [slot]))
  {
    RegistryGrows(k.reg, s.reg, nm, nm.(events := nm.events + [event], slots := nm.slots + [slot]));
  }

  /** A connection's endpoint changes, and perhaps the registry. */
  lemma OwnerShows<N, R, E, SN, SR>(k: Snapshot<N, R, E, SN, SR>, s: State, nm: Naming<N, R, E, SN, SR>,
      reg: Registry<N, R, E, SN, SR>, v: Registry<nat, nat, nat, nat, nat>, c: nat, end: Endpoint<R>, conn': Conn)
    requires Shows(k, s, nm) && RegistryIs(reg, v, nm) && c < |s.conns|
    requires EndIs(end, conn'.end, nm.reqs) && conn'.entry == s.conns[c].entry
    ensures Shows(k.(reg := reg, ends := k.ends[c := end]), s.(reg := v, conns := s.conns[c := conn']), nm)
  {
    SetEndShows(k.ends, k.homes, s.conns, conn', nm.entries, nm.reqs, c, end);
  }

  lemma ClearConnShows<N, R, E, SN, SR>(k: Snapshot<N, R, E, SN, SR>, s: State, nm: Naming<N, R, E, SN, SR>, c: nat)
    requires Shows(k, s, nm) && Enabled(s, ClearConn(c))
    ensures Shows(k.(ends := k.ends[c := k.ends[c].(phase := Cleared, signalled := false)]), Next(s, ClearConn(c)), nm)
  {
    OwnerShows(k, s, nm, k.reg, s.reg, c, k.ends[c].(phase := Cleared, signalled := false),
      Next(s, ClearConn(c)).conns[c]);
  }

  lemma HomeKnown<N, R, E, SN, SR>(k: Snapshot<N, R, E, SN, SR>, s: State, nm: Naming<N, R, E, SN, SR>, c: nat)
    requires Shows(k, s, nm) && c < |s.conns|
    ensures s.conns[c].entry < |nm.entries| && k.homes[c] == nm.entries[s.conns[c].entry]
    ensures k.homes[c] in k.reg.channels
    ensures EndIs(k.ends[c], s.conns[c].end, nm.reqs)
  {
  }

  lemma PopRequestShows<N, R, E, SN, SR>(k: Snapshot<N, R, E, SN, SR>, s: State, nm: Naming<N, R, E, SN, SR>, c: nat)
    requires Shows(k, s, nm) && nm.Distinct() && Enabled(s, PopRequest(c))
    ensures k.homes[c] in k.reg.channels
    ensures var (reg', got) := k.reg.PopRequest(k.homes[c], Waiter(nm.events[c], nm.slots[c]));
      Shows(k.(reg := reg', ends := k.ends[c := k.ends[c].AfterPop(got)]), Next(s, PopRequest(c)), nm)
  {
    HomeKnown(k, s, nm, c);
    PopRequestIs(k.reg, s.reg, nm, s.conns[c].entry, c);
    var (reg, got) := k.reg.PopRequest(k.homes[c], Waiter(nm.events[c], nm.slots[c]));
    var (v, _) := s.reg.PopRequest(s.conns[c].entry, Waiter(c, c));
    OwnerShows(k, s, nm, reg, v, c, k.ends[c].AfterPop(got), Next(s, PopRequest(c)).conns[c]);
  }

  lemma TakeRequestShows<N, R, E, SN, SR>(k: Snapshot<N, R, E, SN, SR>, s: State, nm: Naming<N, R, E, SN, SR>, c: nat)
    requires Shows(k, s, nm) && Enabled(s, TakeRequest(c))
    ensures Shows(k.(ends := k.ends[c := Endpoint(Idle, k.ends[c].signalled, None)]), Next(s, TakeRequest(c)), nm)
    ensures GotIs(k.ends[c].slot, s.conns[c].end.slot, nm.reqs)
  {
    HomeKnown(k, s, nm, c);
    OwnerShows(k, s, nm, k.reg, s.reg, c, Endpoint(Idle, k.ends[c].signalled, None),
      Next(s, TakeRequest(c)).conns[c]);
  }

  lemma DestroyConnShows<N, R, E, SN, SR>(k: Snapshot<N, R, E, SN, SR>, s: State, nm: Naming<N, R, E, SN, SR>, c: nat)
    requires Shows(k, s, nm) && nm.Distinct() && Enabled(s, DestroyConn(c))
    ensures k.homes[c] in k.reg.channels
    ensures Shows(
      k.(reg := k.reg.CancelRequest(k.homes[c], nm.events[c]),
         ends := k.ends[c := Endpoint(Closed, k.ends[c].signalled, None)]),
      Next(s, DestroyConn(c)), nm)
    ensures GotIs(k.ends[c].slot, s.conns[c].end.slot, nm.reqs)
  {
    HomeKnown(k, s, nm, c);
    CancelRequestIs(k.reg, s.reg, nm, s.conns[c].entry, c);
    OwnerShows(k, s, nm, k.reg.CancelRequest(k.homes[c], nm.events[c]), s.reg.CancelRequest(s.conns[c].entry, c), c,
      Endpoint(Closed, k.ends[c].signalled, None), Next(s, DestroyConn(c)).conns[c]);
  }

  // ----- A server after a run -----

  /** Under a numbering without repetitions the snapshot is what the run of these steps leads to. */
  ghost predicate Reached<N, R, E, SN, SR>(k: Snapshot<N, R, E, SN, SR>, steps: seq<Step>,
      nm: Naming<N, R, E, SN, SR>) {
    exists s :: Run(steps) == Some(s) && Shows(k, s, nm) && nm.Distinct()
  }

  lemma StateOf<N, R, E, SN, SR>(k: Snapshot<N, R, E, SN, SR>, steps: seq<Step>, nm: Naming<N, R, E, SN, SR>,
      step: Step) returns (s: State)
    requires Reached(k, steps, nm) && Run(steps + [step]).Some?
    ensures Run(steps) == Some(s) && Shows(k, s, nm) && nm.Distinct()
    ensures Enabled(s, step) && Run(steps + [step]) == Some(Next(s, step))
  {
    s :| Run(steps) == Some(s) && Shows(k, s, nm) && nm.Distinct();
    assert (steps + [step])[..|steps|] == steps;
  }

  lemma ConnectReached<N, R, E, SN, SR>(k: Snapshot<N, R, E, SN, SR>, steps: seq<Step>, nm: Naming<N, R, E, SN, SR>,
      id: ConnId, e: N)
    requires Reached(k, steps, nm) && Run(steps + [Connect(id)]).Some? && e !in nm.entries
    ensures var (reg', served) := k.reg.AddConn(id, e);
      && (served == None || served == Some(Waiter(nm.event, nm.slot)))
      && Reached(k.(reg := reg', acceptor := if served.Some? then k.acceptor.Fill(e) else k.acceptor),
                 steps + [Connect(id)], nm.(entries := nm.entries + [e]))
  {
    var s := StateOf(k, steps, nm, Connect(id));
    ConnectShows(k, s, nm, id, e);
    AppendDistinct(nm.entries, e);
  }

  lemma PostReached<N, R, E, SN, SR>(k: Snapshot<N, R, E, SN, SR>, steps: seq<Step>, nm: Naming<N, R, E, SN, SR>,
      id: ConnId, r: R) returns (w: Option<Waiter<nat, nat>>)
    requires Reached(k, steps, nm) && Run(steps + [Post(id)]).Some?
    ensures id in k.reg.live && k.reg.live[id] in k.reg.channels
    ensures ServedIs(k.reg.Post(id, r).1, w, nm.events, nm.slots)
    ensures w.Some? ==> w.value.event == w.value.slot < |k.ends|
    ensures Reached(k.(reg := k.reg.Post(id, r).0, ends := Delivered(k.ends, w, r)), steps + [Post(id)],
      nm.(reqs := nm.reqs + [r]))
  {
    var s := StateOf(k, steps, nm, Post(id));
    PostShows(k, s, nm, id, r);
    w := s.reg.Post(id, |s.posts|).1;
    var n := s.reg.live[id];
    if w.Some? { NoDeadPopper(steps, s, n, |s.reg.channels[n].queue.waiters| - 1); }
  }

  lemma DisconnectReached<N, R, E, SN, SR>(k: Snapshot<N, R, E, SN, SR>, steps: seq<Step>, nm: Naming<N, R, E, SN, SR>,
      id: ConnId)
    requires Reached(k, steps, nm) && Run(steps + [Disconnect(id)]).Some?
    ensures id in k.reg.live && Reached(k.(reg := k.reg.Disconnect(id)), steps + [Disconnect(id)], nm)
  {
    var s := StateOf(k, steps, nm, Disconnect(id));
    DisconnectShows(k, s, nm, id);
  }

  lemma ClearAcceptorReached<N, R, E, SN, SR>(k: Snapshot<N, R, E, SN, SR>, steps: seq<Step>,
      nm: Naming<N, R, E, SN, SR>)
    requires Reached(k, steps, nm) && Run(steps + [ClearAcceptor]).Some?
    ensures k.acceptor.phase == Idle
    ensures Reached(k.(acceptor := Endpoint(Cleared, false, None)), steps + [ClearAcceptor], nm)
  {
    var s := StateOf(k, steps, nm, ClearAcceptor);
    assert Shows(k.(acceptor := Endpoint(Cleared, false, None)), Next(s, ClearAcceptor), nm);
  }

  lemma PopEntryReached<N, R, E, SN, SR>(k: Snapshot<N, R, E, SN, SR>, steps: seq<Step>, nm: Naming<N, R, E, SN, SR>)
    requires Reached(k, steps, nm) && Run(steps + [PopEntry]).Some?
    ensures k.acceptor.phase == Cleared
    ensures var (reg', got) := k.reg.PopConn(Waiter(nm.event, nm.slot));
      Reached(k.(reg := reg', acceptor := k.acceptor.AfterPop(got)), steps + [PopEntry], nm)
  {
    var s := StateOf(k, steps, nm, PopEntry);
    PopEntryShows(k, s, nm);
  }

  lemma CloseAcceptorReached<N, R, E, SN, SR>(k: Snapshot<N, R, E, SN, SR>, steps: seq<Step>,
      nm: Naming<N, R, E, SN, SR>)
    requires Reached(k, steps, nm) && Run(steps + [CloseAcceptor]).Some?
    ensures var acceptor' := if k.reg.pending.TailIs(nm.event) then k.acceptor.(phase := Closed) else k.acceptor;
      Reached(k.(reg := k.reg.CancelConn(nm.event), acceptor := acceptor'), steps + [CloseAcceptor], nm)
  {
    var s := StateOf(k, steps, nm, CloseAcceptor);
    CloseAcceptorShows(k, s, nm);
  }

  /** The acceptor's own assert: the holder is full when the wait is over. */
  lemma TakeConnAllowed<N, R, E, SN, SR>(k: Snapshot<N, R, E, SN, SR>, steps: seq<Step>, nm: Naming<N, R, E, SN, SR>)
    requires Reached(k, steps, nm) && Run(steps + [TakeConn]).Some?
    ensures k.acceptor.Ready() && k.acceptor.slot.Some? && k.acceptor.slot.value in k.reg.channels
  {
    var s := StateOf(k, steps, nm, TakeConn);
    AcceptorNeverSleepsOnWork(steps, s);
  }

  lemma TakeConnReached<N, R, E, SN, SR>(k: Snapshot<N, R, E, SN, SR>, steps: seq<Step>, nm: Naming<N, R, E, SN, SR>,
      event: E, slot: SR)
    requires Reached(k, steps, nm) && Run(steps + [TakeConn]).Some? && k.acceptor.slot.Some?
    requires event !in nm.events && event != nm.event && slot !in nm.slots
    ensures Reached(
      k.(acceptor := k.acceptor.(phase := Idle), ends := k.ends + [Endpoint(Idle, false, None)],
         homes := k.homes + [k.acceptor.slot.value]),
      steps + [TakeConn], nm.(events := nm.events + [event], slots := nm.slots + [slot]))
  {
    var s := StateOf(k, steps, nm, TakeConn);
    TakeConnShows(k, s, nm, event, slot);
    AppendDistinct(nm.events, event);
    AppendDistinct(nm.slots, slot);
  }

  /** The asserts of an accept: the slot is empty. */
  lemma ClearConnReached<N, R, E, SN, SR>(k: Snapshot<N, R, E, SN, SR>, steps: seq<Step>, nm: Naming<N, R, E, SN, SR>,
      c: nat)
    requires Reached(k, steps, nm) && Run(steps + [ClearConn(c)]).Some?
    ensures c < |k.ends| && k.ends[c].phase == Idle && k.ends[c].slot == None
    ensures Reached(k.(ends := k.ends[c := k.ends[c].(phase := Cleared, signalled := false)]),
      steps + [ClearConn(c)], nm)
  {
    var s := StateOf(k, steps, nm, ClearConn(c));
    HomeKnown(k, s, nm, c);
    ConnNeverSleepsOnWork(steps, s, c);
    ClearConnShows(k, s, nm, c);
  }

  lemma PopRequestReached<N, R, E, SN, SR>(k: Snapshot<N, R, E, SN, SR>, steps: seq<Step>, nm: Naming<N, R, E, SN, SR>,
      c: nat)
    requires Reached(k, steps, nm) && Run(steps + [PopRequest(c)]).Some?
    ensures c < |k.ends| == |nm.events| == |nm.slots| == |k.homes| && k.ends[c].phase == Cleared
    ensures k.homes[c] in k.reg.channels
    ensures var (reg', got) := k.reg.PopRequest(k.homes[c], Waiter(nm.events[c], nm.slots[c]));
      Reached(k.(reg := reg', ends := k.ends[c := k.ends[c].AfterPop(got)]), steps + [PopRequest(c)], nm)
  {
    var s := StateOf(k, steps, nm, PopRequest(c));
    HomeKnown(k, s, nm, c);
    PopRequestShows(k, s, nm, c);
  }

  /** The request taken is the last one the step system records as taken. */
  lemma TakeRequestReached<N, R, E, SN, SR>(k: Snapshot<N, R, E, SN, SR>, steps: seq<Step>, nm: Naming<N, R, E, SN, SR>,
      c: nat) returns (r: nat)
    requires Reached(k, steps, nm) && Run(steps + [TakeRequest(c)]).Some?
    ensures c < |k.ends| && k.ends[c].Ready() && r < |nm.reqs| && k.ends[c].slot == Some(nm.reqs[r])
    ensures Run(steps).Some? && c < |Run(steps).value.conns| && c < |Run(steps + [TakeRequest(c)]).value.conns|
    ensures Run(steps + [TakeRequest(c)]).value.conns[c].taken == Run(steps).value.conns[c].taken + [r]
    ensures Reached(k.(ends := k.ends[c := Endpoint(Idle, k.ends[c].signalled, None)]), steps + [TakeRequest(c)], nm)
  {
    var s := StateOf(k, steps, nm, TakeRequest(c));
    HomeKnown(k, s, nm, c);
    ConnNeverSleepsOnWork(steps, s, c);
    TakeRequestShows(k, s, nm, c);
    r := s.conns[c].end.slot.value;
  }

  lemma DestroyConnReached<N, R, E, SN, SR>(k: Snapshot<N, R, E, SN, SR>, steps: seq<Step>, nm: Naming<N, R, E, SN, SR>,
      c: nat)
    requires Reached(k, steps, nm) && Run(steps + [DestroyConn(c)]).Some?
    ensures c < |k.ends| == |nm.events| == |k.homes| && k.ends[c].phase != Closed && k.homes[c] in k.reg.channels
    ensures c < |Run(steps + [DestroyConn(c)]).value.conns|
    ensures GotIs(k.ends[c].slot, Run(steps + [DestroyConn(c)]).value.conns[c].dropped, nm.reqs)
    ensures Reached(
      k.(reg := k.reg.CancelRequest(k.homes[c], nm.events[c]),
         ends := k.ends[c := Endpoint(Closed, k.ends[c].signalled, None)]),
      steps + [DestroyConn(c)], nm)
  {
    var s := StateOf(k, steps, nm, DestroyConn(c));
    HomeKnown(k, s, nm, c);
    DestroyConnShows(k, s, nm, c);
  }
}
