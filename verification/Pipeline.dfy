/** The accept pipeline as a step system: transport threads connect, post and disconnect while the
    acceptor and every server connection clear their event, pop, wait and take. Each step is one
    critical section or one access to an endpoint's own event and slot. */
module Pipelines {
  import opened Options
  import opened Rendezvous
  import opened Registries

  /** Where an endpoint's accept loop stands. Closed: cancelled or destroyed. */
  datatype Phase = Idle | Cleared | Waiting | Closed

  /** One manual-reset event and one slot, re-armed for every accept. */
  datatype Endpoint<T> = Endpoint(phase: Phase, signalled: bool, slot: Option<T>) {

    /** What a push does to a parked popper: fill the slot, then set the event. */
    function Fill(x: T): Endpoint<T> {
      this.(signalled := true, slot := Some(x))
    }

    function AfterPop(got: Option<T>): Endpoint<T> {
      var waiting := this.(phase := Waiting);
      if got.Some? then waiting.Fill(got.value) else waiting
    }

    predicate Armed() {
      phase.Waiting? && !signalled
    }

    predicate Ready() {
      phase.Waiting? && signalled
    }

    /** A waiting endpoint is signalled exactly when its slot is full; a cleared one has neither. */
    predicate Sound() {
      && (phase.Cleared? ==> !signalled && slot.None?)
      && (phase.Waiting? ==> (signalled <==> slot.Some?))
    }
  }

  /** A server connection: the queue it was given, its endpoint, and what became of what it received. */
  datatype Conn = Conn(entry: nat, end: Endpoint<nat>, taken: seq<nat>, dropped: Option<nat>)

  /** The id a request was posted under and the entry that id named at that moment. */
  datatype Posted = Posted(connId: ConnId, entry: nat)

  /** Entries and requests are numbered in order of creation; server connection c offers event c and
      slot c, the acceptor offers event 0 and slot 0 to the queue of pending connections. */
  datatype State = State(
    reg: Registry<nat, nat, nat, nat, nat>,
    added: nat,
    acceptor: Endpoint<nat>,
    conns: seq<Conn>,
    posts: seq<Posted>)

  const START := State(Registry(map[], map[], Queue([], [])), 0, Endpoint(Idle, false, None), [], [])

  datatype Step =
    | Connect(id: ConnId) | Post(id: ConnId) | Disconnect(id: ConnId)
    | ClearAcceptor | PopEntry | TakeConn | CloseAcceptor
    | ClearConn(c: nat) | PopRequest(c: nat) | TakeRequest(c: nat) | DestroyConn(c: nat)

  /** The transport's contract (unique live ids, requests and disconnects for live ids) and the
      accept loops' discipline (one accept at a time per endpoint, none after closing it). */
  predicate Enabled(s: State, step: Step) {
    match step
    case Connect(id) => id !in s.reg.live
    case Post(id) => id in s.reg.live && s.reg.live[id] in s.reg.channels
    case Disconnect(id) => id in s.reg.live
    case ClearAcceptor => s.acceptor.phase == Idle
    case PopEntry => s.acceptor.phase == Cleared
    case TakeConn => s.acceptor.Ready()
    case CloseAcceptor => s.acceptor.phase != Closed
    case ClearConn(c) => c < |s.conns| && s.conns[c].end.phase == Idle
    case PopRequest(c) => c < |s.conns| && s.conns[c].end.phase == Cleared && s.conns[c].entry in s.reg.channels
    case TakeRequest(c) => c < |s.conns| && s.conns[c].end.Ready()
    case DestroyConn(c) => c < |s.conns| && s.conns[c].end.phase != Closed && s.conns[c].entry in s.reg.channels
  }

  function SetEnd(s: State, c: nat, end: Endpoint<nat>): State
    requires c < |s.conns|
  {
    s.(conns := s.conns[c := s.conns[c].(end := end)])
  }

  /** Writing through a popper's pointers: whatever connection they belong to. */
  function Deliver(s: State, served: Option<Waiter<nat, nat>>, r: nat): State {
    if served.Some? && served.value.slot < |s.conns| then
      SetEnd(s, served.value.slot, s.conns[served.value.slot].end.Fill(r))
    else s
  }

  function Next(s: State, step: Step): State
    requires Enabled(s, step)
  {
    match step
    case Connect(id) =>
      var (reg', served) := s.reg.AddConn(id, s.added);
      s.(reg := reg', added := s.added + 1, acceptor := if served.Some? then s.acceptor.Fill(s.added) else s.acceptor)
    case Post(id) =>
      var r := |s.posts|;
      var (reg', served) := s.reg.Post(id, r);
      Deliver(s.(reg := reg', posts := s.posts + [Posted(id, s.reg.live[id])]), served, r)
    case Disconnect(id) =>
      s.(reg := s.reg.Disconnect(id))
    case ClearAcceptor =>
      s.(acceptor := Endpoint(Cleared, false, None))
    case PopEntry =>
      var (reg', got) := s.reg.PopConn(Waiter(0, 0));
      s.(reg := reg', acceptor := s.acceptor.AfterPop(got))
    case TakeConn =>
      var accepted :=
        if s.acceptor.slot.Some? then [Conn(s.acceptor.slot.value, Endpoint(Idle, false, None), [], None)] else [];
      s.(acceptor := s.acceptor.(phase := Idle), conns := s.conns + accepted)
    case CloseAcceptor =>
      s.(reg := s.reg.CancelConn(0),
         acceptor := if s.reg.pending.TailIs(0) then s.acceptor.(phase := Closed) else s.acceptor)
    case ClearConn(c) =>
      SetEnd(s, c, s.conns[c].end.(phase := Cleared, signalled := false))
    case PopRequest(c) =>
      var (reg', got) := s.reg.PopRequest(s.conns[c].entry, Waiter(c, c));
      SetEnd(s.(reg := reg'), c, s.conns[c].end.AfterPop(got))
    case TakeRequest(c) =>
      var conn := s.conns[c];
      var got := if conn.end.slot.Some? then [conn.end.slot.value] else [];
      s.(conns := s.conns[c := conn.(end := Endpoint(Idle, conn.end.signalled, None), taken := conn.taken + got)])
    case DestroyConn(c) =>
      var conn := s.conns[c];
      s.(reg := s.reg.CancelRequest(conn.entry, c),
         conns := s.conns[c := conn.(end := Endpoint(Closed, conn.end.signalled, None), dropped := conn.end.slot)])
  }

  /** The state after a run, or None when a step was not allowed. */
  function Run(steps: seq<Step>): Option<State> {
    if steps == [] then Some(START)
    else
      var last := steps[|steps| - 1];
      match Run(steps[..|steps| - 1])
      case None => None
      case Some(s) => if Enabled(s, last) then Some(Next(s, last)) else None
  }

  // ----- Invariants -----

  ghost predicate NoDup(s: seq<nat>) {
    forall p, q :: 0 <= p < q < |s| ==> s[p] != s[q]
  }

  /** Live ids name their own entries; every posted request was posted to an entry of its id. */
  ghost predicate RegistryInv(s: State) {
    && (forall n: nat :: n in s.reg.channels <==> n < s.added)
    && (forall id :: id in s.reg.live ==> s.reg.live[id] < s.added && s.reg.channels[s.reg.live[id]].connId == id)
    && (forall r :: 0 <= r < |s.posts| ==>
      s.posts[r].entry < s.added && s.reg.channels[s.posts[r].entry].connId == s.posts[r].connId)
  }

  /** The acceptor is parked exactly when it is armed, and nothing else ever is. */
  ghost predicate AcceptorInv(s: State) {
    && s.acceptor.Sound()
    && s.reg.pending.OneSided()
    && s.reg.pending.waiters == (if s.acceptor.Armed() then [Waiter(0, 0)] else [])
  }

  ghost predicate ConnInv(s: State, c: nat)
    requires c < |s.conns|
  {
    var conn := s.conns[c];
    && conn.entry in s.reg.channels
    && conn.end.Sound()
    && (conn.end.phase.Idle? || conn.end.phase.Closed? ==> conn.end.slot.None?)
    && (conn.end.Armed() ==> s.reg.channels[conn.entry].queue.waiters == [Waiter(c, c)])
    && (conn.dropped.Some? ==> conn.end.phase.Closed?)
  }

  /** A request queue is one-sided and parks at most the armed connection it was given to. */
  ghost predicate ChannelInv(s: State, n: nat)
    requires n in s.reg.channels
  {
    var q := s.reg.channels[n].queue;
    && q.OneSided()
    && (q.waiters != [] ==>
      var c := q.waiters[0].slot;
      q.waiters == [Waiter(c, c)] && c < |s.conns| && s.conns[c].entry == n && s.conns[c].end.Armed())
  }

  ghost predicate EndpointInv(s: State) {
    && AcceptorInv(s)
    && (forall c: nat :: c < |s.conns| ==> ConnInv(s, c))
    && (forall n: nat :: n in s.reg.channels ==> ChannelInv(s, n))
  }

  /** Where an entry can be: pending, in the acceptor's holder, or with a server connection. */
  datatype Spot = Pending | Held | Handed(conn: nat)

  ghost predicate EntryAt(s: State, e: nat, spot: Spot) {
    match spot
    case Pending => e in s.reg.pending.items
    case Held => s.acceptor.phase.Waiting? && s.acceptor.slot == Some(e)
    case Handed(c) => c < |s.conns| && s.conns[c].entry == e
  }

  ghost predicate EntriesInv(s: State, spots: seq<Spot>) {
    && |spots| == s.added
    && NoDup(s.reg.pending.items)
    && (forall e: nat :: e < s.added ==> EntryAt(s, e, spots[e]))
    && (forall e: nat, spot :: EntryAt(s, e, spot) ==> e < s.added && spots[e] == spot)
  }

  /** Where a request can be. */
  datatype Place = Queued(entry: nat) | InSlot(conn: nat) | Taken(conn: nat) | Dropped(conn: nat)

  ghost predicate At(s: State, r: nat, place: Place) {
    match place
    case Queued(n) => n in s.reg.channels && r in s.reg.channels[n].queue.items
    case InSlot(c) => c < |s.conns| && s.conns[c].end.slot == Some(r)
    case Taken(c) => c < |s.conns| && r in s.conns[c].taken
    case Dropped(c) => c < |s.conns| && s.conns[c].dropped == Some(r)
  }

  /** The entry a place belongs to. */
  ghost function EntryOf(s: State, place: Place): nat {
    match place
    case Queued(n) => n
    case InSlot(c) => if c < |s.conns| then s.conns[c].entry else 0
    case Taken(c) => if c < |s.conns| then s.conns[c].entry else 0
    case Dropped(c) => if c < |s.conns| then s.conns[c].entry else 0
  }

  ghost predicate NoDupInv(s: State) {
    && (forall n: nat :: n in s.reg.channels ==> NoDup(s.reg.channels[n].queue.items))
    && (forall c: nat :: c < |s.conns| ==> NoDup(s.conns[c].taken))
  }

  /** Request r is at places[r], nowhere else, and that place belongs to the entry r was posted to. */
  ghost predicate PlacesInv(s: State, places: seq<Place>) {
    && |places| == |s.posts|
    && (forall r: nat :: r < |s.posts| ==> At(s, r, places[r]) && EntryOf(s, places[r]) == s.posts[r].entry)
    && (forall r: nat, place :: At(s, r, place) ==> r < |s.posts| && places[r] == place)
  }

  ghost predicate RequestsInv(s: State, places: seq<Place>) {
    NoDupInv(s) && PlacesInv(s, places)
  }
}
