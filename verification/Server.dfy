/** The server put together: acceptor, manager and server connections as one object. Whatever sequence of
    their calls is made, the objects are what the step system's run of the same steps says, so everything
    proved about runs is true of the objects; and each assert of the code holds when its call is made. */
module Servers {
  import opened Options
  import opened Rendezvous
  import opened Registries
  import opened ItemQueues
  import opened ConnectionManagers
  import opened Pipelines
  import opened PipelineTheorems
  import opened Namings
  import opened Endpoints

  type Numbers = Naming<Entry, Request, Event, Slot<Entry>, Slot<Request>>
  type Moment = Snapshot<Entry, Request, Event, Slot<Entry>, Slot<Request>>

  /** The endpoints of the first n connections. */
  ghost function EndsTo(conns: seq<ServerConnection>, n: nat): (ends: seq<Endpoint<Request>>)
    requires n <= |conns|
    reads conns, set c | c in conns :: c.event, set c | c in conns :: c.payload
    ensures |ends| == n && forall c :: 0 <= c < n ==> ends[c] == conns[c].View()
  {
    if n == 0 then [] else EndsTo(conns, n - 1) + [conns[n - 1].View()]
  }

  ghost function EndsOf(conns: seq<ServerConnection>): (ends: seq<Endpoint<Request>>)
    reads conns, set c | c in conns :: c.event, set c | c in conns :: c.payload
    ensures |ends| == |conns| && forall c :: 0 <= c < |conns| ==> ends[c] == conns[c].View()
  {
    EndsTo(conns, |conns|)
  }

  twostate lemma EndsKept(conns: seq<ServerConnection>)
    requires forall c :: 0 <= c < |conns| ==>
      unchanged(conns[c]) && unchanged(conns[c].event) && unchanged(conns[c].payload)
    ensures EndsOf(conns) == old(EndsOf(conns))
  {
  }

  lemma EndsAppend(conns: seq<ServerConnection>, conn: ServerConnection)
    ensures EndsOf(conns + [conn]) == EndsOf(conns) + [conn.View()]
  {
  }

  /** What the objects were used for: the steps made, the numbers of the objects, and the entry of every
      connection. */
  datatype Record = Record(steps: seq<Step>, nm: Numbers, homes: seq<Entry>)

  class Server {
    const acceptor: Acceptor
    var conns: seq<ServerConnection>

    /** The objects have their numbers, and every connection has the queue of its entry. */
    ghost predicate Named(past: Record)
      reads this, acceptor.manager, conns
    {
      && past.nm.event == acceptor.event && past.nm.slot == acceptor.holder
      && |past.nm.events| == |past.nm.slots| == |past.homes| == |conns|
      && forall c :: 0 <= c < |conns| ==>
        && conns[c].event == past.nm.events[c] && conns[c].payload == past.nm.slots[c]
        && past.homes[c] in acceptor.manager.entries && conns[c].queue == past.homes[c].queue
    }

    ghost function View(homes: seq<Entry>): Moment
      reads *
    {
      Snapshot(acceptor.manager.View(), acceptor.View(), EndsOf(conns), homes)
    }

    /** The objects show the state after the steps made. */
    ghost predicate Valid(past: Record)
      reads *
    {
      acceptor.manager.Valid() && Named(past) && Reached(View(past.homes), past.steps, past.nm)
    }

    ghost function Unused(): Record {
      Record([], Naming([], [], [], [], acceptor.event, acceptor.holder), [])
    }

    constructor ()
      ensures Valid(Unused())
    {
      acceptor := new Acceptor();
      conns := [];
      new;
      assert Shows(View([]), START, Unused().nm);
    }

    /** Only the acceptor ever waits for connections, and its event is no connection's. */
    lemma AcceptorAlone(past: Record)
      requires Valid(past)
      ensures acceptor.manager.connQueue.PushTargets() <= {acceptor.event, acceptor.holder}
      ensures forall c: nat :: c < |conns| ==> conns[c].event != acceptor.event
    {
      var k := View(past.homes);
      var s :| Run(past.steps) == Some(s) && Shows(k, s, past.nm) && past.nm.Distinct();
      assert WaitersAre(k.reg.pending.waiters, s.reg.pending.waiters, [past.nm.event], [past.nm.slot]);
    }

    twostate lemma NamedKept(past: Record)
      requires old(Named(past)) && unchanged(this)
      requires old(acceptor.manager.entries) <= acceptor.manager.entries
      requires forall c: nat :: c < |conns| ==> conns[c].queue == old(conns[c].queue)
      ensures Named(past)
    {
    }

    twostate lemma EndChanged(c: nat)
      requires unchanged(this) && c < |conns|
      requires forall d: nat :: d < |conns| && d != c ==>
        unchanged(conns[d]) && unchanged(conns[d].event) && unchanged(conns[d].payload)
      ensures EndsOf(conns) == old(EndsOf(conns))[c := conns[c].View()]
    {
    }

    /** No two connections share their objects, and none shares the acceptor's event. */
    lemma ConnsApart(past: Record)
      requires Valid(past)
      ensures forall c: nat, d: nat :: c < d < |conns| ==>
        conns[c] != conns[d] && conns[c].event != conns[d].event && conns[c].payload != conns[d].payload
      ensures forall c: nat :: c < |conns| ==> conns[c].event != acceptor.event
    {
      var s :| Run(past.steps) == Some(s) && Shows(View(past.homes), s, past.nm) && past.nm.Distinct();
    }

    method Admit(ghost past: Record, id: ConnId) returns (ghost added: Entry)
      requires Named(past) && acceptor.manager.Valid()
      requires forall c: nat :: c < |conns| ==> conns[c].event != acceptor.event
      requires acceptor.manager.connQueue.PushTargets() <= {acceptor.event, acceptor.holder}
      modifies acceptor.manager, acceptor.manager.connQueue, acceptor.event, acceptor.holder
      ensures fresh(added) && Named(past) && acceptor.manager.Valid() && EndsOf(conns) == old(EndsOf(conns))
      ensures acceptor.manager.View() == old(acceptor.manager.View()).AddConn(id, added).0
      ensures old(acceptor.manager.View()).AddConn(id, added).1 in {None, Some(Waiter(acceptor.event, acceptor.holder))}
        ==> acceptor.View() == if old(acceptor.manager.View()).AddConn(id, added).1.Some?
          then old(acceptor.View()).Fill(added) else old(acceptor.View())
    {
      added := acceptor.ProcessConnect(id);
      EndsKept(conns);
      NamedKept(past);
    }

    method Connect(ghost past: Record, id: ConnId) returns (ghost now: Record)
      requires Valid(past) && Run(past.steps + [Step.Connect(id)]).Some?
      modifies acceptor.manager, acceptor.manager.connQueue, acceptor.event, acceptor.holder
      ensures Valid(now) && now.steps == past.steps + [Step.Connect(id)]
      ensures now.nm.reqs == past.nm.reqs
    {
      ghost var k := View(past.homes);
      AcceptorAlone(past);
      ghost var added := Admit(past, id);
      ConnectReached(k, past.steps, past.nm, id, added);
      now := past.(steps := past.steps + [Step.Connect(id)], nm := past.nm.(entries := past.nm.entries + [added]));
    }

    method Forget(ghost past: Record, id: ConnId)
      requires Named(past) && acceptor.manager.Valid() && id in acceptor.manager.conns
      modifies acceptor.manager`conns
      ensures Named(past) && acceptor.manager.Valid() && EndsOf(conns) == old(EndsOf(conns))
      ensures acceptor.View() == old(acceptor.View())
      ensures acceptor.manager.View() == old(acceptor.manager.View()).Disconnect(id)
    {
      acceptor.manager.Disconnect(id);
      EndsKept(conns);
    }

    method Disconnect(ghost past: Record, id: ConnId) returns (ghost now: Record)
      requires Valid(past) && Run(past.steps + [Step.Disconnect(id)]).Some?
      modifies acceptor.manager`conns
      ensures Valid(now) && now.steps == past.steps + [Step.Disconnect(id)]
      ensures now.nm == past.nm && now.homes == past.homes
    {
      ghost var k := View(past.homes);
      assert id in acceptor.manager.conns by { DisconnectReached(k, past.steps, past.nm, id); }
      Forget(past, id);
      assert View(past.homes) == k.(reg := k.reg.Disconnect(id));
      DisconnectReached(k, past.steps, past.nm, id);
      now := past.(steps := past.steps + [Step.Disconnect(id)]);
    }

    method Restart(ghost past: Record)
      requires Named(past) && acceptor.manager.Valid() && acceptor.phase == Idle
      requires forall c: nat :: c < |conns| ==> conns[c].event != acceptor.event
      modifies acceptor`phase, acceptor.event, acceptor.holder
      ensures Named(past) && acceptor.manager.Valid() && acceptor.manager.View() == old(acceptor.manager.View())
      ensures acceptor.View() == Endpoint(Cleared, false, None) && EndsOf(conns) == old(EndsOf(conns))
    {
      acceptor.Clear();
      EndsKept(conns);
    }

    method ClearAcceptor(ghost past: Record) returns (ghost now: Record)
      requires Valid(past) && Run(past.steps + [Step.ClearAcceptor]).Some?
      modifies acceptor`phase, acceptor.event, acceptor.holder
      ensures Valid(now) && now.steps == past.steps + [Step.ClearAcceptor]
      ensures now.nm == past.nm && now.homes == past.homes
    {
      ghost var k := View(past.homes);
      assert acceptor.phase == Idle by { ClearAcceptorReached(k, past.steps, past.nm); }
      AcceptorAlone(past);
      Restart(past);
      assert View(past.homes) == k.(acceptor := Endpoint(Cleared, false, None));
      ClearAcceptorReached(k, past.steps, past.nm);
      now := past.(steps := past.steps + [Step.ClearAcceptor]);
    }

    method Await(ghost past: Record)
      requires Named(past) && acceptor.manager.Valid() && acceptor.phase == Cleared
      requires forall c: nat :: c < |conns| ==> conns[c].event != acceptor.event
      modifies acceptor`phase, acceptor.manager.connQueue, acceptor.event, acceptor.holder
      ensures Named(past) && acceptor.manager.Valid() && EndsOf(conns) == old(EndsOf(conns))
      ensures var (reg, got) := old(acceptor.manager.View()).PopConn(Waiter(acceptor.event, acceptor.holder));
        acceptor.manager.View() == reg && acceptor.View() == old(acceptor.View()).AfterPop(got)
    {
      acceptor.Initiate();
      EndsKept(conns);
    }

    method PopEntry(ghost past: Record) returns (ghost now: Record)
      requires Valid(past) && Run(past.steps + [Step.PopEntry]).Some?
      modifies acceptor`phase, acceptor.manager.connQueue, acceptor.event, acceptor.holder
      ensures Valid(now) && now.steps == past.steps + [Step.PopEntry]
      ensures now.nm == past.nm && now.homes == past.homes
    {
      ghost var k := View(past.homes);
      assert acceptor.phase == Cleared by { PopEntryReached(k, past.steps, past.nm); }
      AcceptorAlone(past);
      Await(past);
      ghost var (reg, got) := k.reg.PopConn(Waiter(acceptor.event, acceptor.holder));
      assert View(past.homes) == k.(reg := reg, acceptor := k.acceptor.AfterPop(got));
      PopEntryReached(k, past.steps, past.nm);
      now := past.(steps := past.steps + [Step.PopEntry]);
    }

    /** The assert of the accept handler: the holder is full. */
    method TakeConn(ghost past: Record) returns (conn: ServerConnection, ghost now: Record)
      requires Valid(past) && Run(past.steps + [Step.TakeConn]).Some?
      modifies acceptor`phase, this`conns
      ensures fresh(conn) && conns == old(conns) + [conn]
      ensures Valid(now) && now.steps == past.steps + [Step.TakeConn]
      ensures now.nm.entries == past.nm.entries && now.nm.reqs == past.nm.reqs
    {
      ghost var k := View(past.homes);
      assert k.acceptor.Ready() && k.acceptor.slot.Some? && k.acceptor.slot.value in acceptor.manager.entries by {
        TakeConnAllowed(k, past.steps, past.nm);
      }
      conn := HandOver(past);
      ghost var nm := past.nm.(events := past.nm.events + [conn.event], slots := past.nm.slots + [conn.payload]);
      now := Record(past.steps + [Step.TakeConn], nm, past.homes + [k.acceptor.slot.value]);
      assert View(now.homes) == k.(acceptor := k.acceptor.(phase := Idle),
        ends := k.ends + [Endpoint(Idle, false, None)], homes := k.homes + [k.acceptor.slot.value]);
      TakeConnReached(k, past.steps, past.nm, conn.event, conn.payload);
    }

    method Accept(ghost past: Record) returns (conn: ServerConnection)
      requires Named(past) && acceptor.manager.Valid()
      requires acceptor.View().Ready() && acceptor.holder.value.Some?
      modifies acceptor`phase
      ensures fresh(conn) && fresh(conn.event) && fresh(conn.payload)
      ensures conn.queue == acceptor.holder.value.value.queue && conn.View() == Endpoint(Idle, false, None)
      ensures Named(past) && acceptor.manager.Valid() && acceptor.manager.View() == old(acceptor.manager.View())
      ensures acceptor.View() == old(acceptor.View()).(phase := Idle) && EndsOf(conns) == old(EndsOf(conns))
    {
      conn := acceptor.Complete();
      EndsKept(conns);
    }

    method HandOver(ghost past: Record) returns (conn: ServerConnection)
      requires Named(past) && acceptor.manager.Valid()
      requires acceptor.View().Ready() && acceptor.holder.value.Some?
      requires acceptor.holder.value.value in acceptor.manager.entries
      modifies acceptor`phase, this`conns
      ensures fresh(conn) && fresh(conn.event) && fresh(conn.payload) && conns == old(conns) + [conn]
      ensures acceptor.manager.Valid() && acceptor.manager.View() == old(acceptor.manager.View())
      ensures acceptor.View() == old(acceptor.View()).(phase := Idle)
      ensures EndsOf(conns) == old(EndsOf(conns)) + [Endpoint(Idle, false, None)]
      ensures Named(Record(past.steps,
        past.nm.(events := past.nm.events + [conn.event], slots := past.nm.slots + [conn.payload]),
        past.homes + [acceptor.holder.value.value]))
    {
      conn := Accept(past);
      EndsAppend(conns, conn);
      conns := conns + [conn];
    }

    method Withdraw(ghost past: Record)
      requires Named(past) && acceptor.manager.Valid()
      modifies acceptor`phase, acceptor.manager.connQueue
      ensures Named(past) && acceptor.manager.Valid() && EndsOf(conns) == old(EndsOf(conns))
      ensures acceptor.manager.View() == old(acceptor.manager.View()).CancelConn(acceptor.event)
      ensures acceptor.View() == if old(acceptor.manager.View()).pending.TailIs(acceptor.event)
        then old(acceptor.View()).(phase := Closed) else old(acceptor.View())
    {
      acceptor.Close();
      EndsKept(conns);
    }

    method CloseAcceptor(ghost past: Record) returns (ghost now: Record)
      requires Valid(past) && Run(past.steps + [Step.CloseAcceptor]).Some?
      modifies acceptor`phase, acceptor.manager.connQueue
      ensures Valid(now) && now.steps == past.steps + [Step.CloseAcceptor]
      ensures now.nm == past.nm && now.homes == past.homes
    {
      ghost var k := View(past.homes);
      Withdraw(past);
      ghost var acceptor' :=
        if k.reg.pending.TailIs(acceptor.event) then k.acceptor.(phase := Closed) else k.acceptor;
      assert View(past.homes) == k.(reg := k.reg.CancelConn(acceptor.event), acceptor := acceptor');
      CloseAcceptorReached(k, past.steps, past.nm);
      now := past.(steps := past.steps + [Step.CloseAcceptor]);
    }

    /** The objects of connection c, apart from those of the others. */
    ghost predicate Alone(c: nat)
      reads this, conns
    {
      && c < |conns| && conns[c].event != acceptor.event
      && forall d: nat :: d < |conns| && d != c ==>
        conns[d] != conns[c] && conns[d].event != conns[c].event && conns[d].payload != conns[c].payload
    }

    lemma AloneAt(past: Record, c: nat)
      requires Valid(past) && c < |conns|
      ensures Alone(c)
    {
      ConnsApart(past);
      forall d: nat | d < |conns| && d != c
        ensures conns[d] != conns[c] && conns[d].event != conns[c].event && conns[d].payload != conns[c].payload
      {
        assert if d < c then conns[d] != conns[c] else conns[c] != conns[d];
      }
    }

    method Reset(ghost past: Record, ghost c: nat, conn: ServerConnection)
      requires Named(past) && acceptor.manager.Valid() && Alone(c) && conns[c] == conn
      requires conn.phase == Idle && conn.payload.value == None
      modifies conn`phase, conn.event
      ensures Named(past) && acceptor.manager.Valid() && acceptor.manager.View() == old(acceptor.manager.View())
      ensures acceptor.View() == old(acceptor.View())
      ensures EndsOf(conns) == old(EndsOf(conns))[c := old(conn.View()).(phase := Cleared, signalled := false)]
    {
      conn.Clear();
      EndChanged(c);
      NamedKept(past);
    }

    method ClearConn(ghost past: Record, ghost c: nat, conn: ServerConnection) returns (ghost now: Record)
      requires Valid(past) && Run(past.steps + [Step.ClearConn(c)]).Some? && c < |conns| && conns[c] == conn
      modifies conn`phase, conn.event
      ensures Valid(now) && now.steps == past.steps + [Step.ClearConn(c)]
      ensures now.nm == past.nm && now.homes == past.homes
    {
      ghost var k := View(past.homes);
      assert conn.phase == Idle && conn.payload.value == None by { ClearConnReached(k, past.steps, past.nm, c); }
      AloneAt(past, c);
      Reset(past, c, conn);
      assert View(past.homes) == k.(ends := k.ends[c := k.ends[c].(phase := Cleared, signalled := false)]);
      ClearConnReached(k, past.steps, past.nm, c);
      now := past.(steps := past.steps + [Step.ClearConn(c)]);
    }

    method Pop(ghost past: Record, ghost c: nat, conn: ServerConnection)
      requires Named(past) && acceptor.manager.Valid() && Alone(c) && conns[c] == conn
      requires conn.phase == Cleared
      modifies conn`phase, conn.queue, conn.event, conn.payload
      ensures Named(past) && acceptor.manager.Valid() && acceptor.View() == old(acceptor.View())
      ensures past.homes[c] in old(acceptor.manager.View()).channels
      ensures var (reg, got) :=
        old(acceptor.manager.View()).PopRequest(past.homes[c], Waiter(conn.event, conn.payload));
        && acceptor.manager.View() == reg
        && EndsOf(conns) == old(EndsOf(conns))[c := old(conn.View()).AfterPop(got)]
    {
      PopFrom(acceptor.manager, past.homes[c], conn);
      EndChanged(c);
      NamedKept(past);
    }

    method PopRequest(ghost past: Record, ghost c: nat, conn: ServerConnection) returns (ghost now: Record)
      requires Valid(past) && Run(past.steps + [Step.PopRequest(c)]).Some? && c < |conns| && conns[c] == conn
      modifies conn`phase, conn.queue, conn.event, conn.payload
      ensures Valid(now) && now.steps == past.steps + [Step.PopRequest(c)]
      ensures now.nm == past.nm && now.homes == past.homes
    {
      ghost var k := View(past.homes);
      assert conn.phase == Cleared by { PopRequestReached(k, past.steps, past.nm, c); }
      AloneAt(past, c);
      Pop(past, c, conn);
      ghost var (reg, got) := k.reg.PopRequest(k.homes[c], Waiter(conn.event, conn.payload));
      assert View(past.homes) == k.(reg := reg, ends := k.ends[c := k.ends[c].AfterPop(got)]);
      PopRequestReached(k, past.steps, past.nm, c);
      now := past.(steps := past.steps + [Step.PopRequest(c)]);
    }

    method Take(ghost past: Record, ghost c: nat, conn: ServerConnection) returns (req: Option<Request>)
      requires Named(past) && acceptor.manager.Valid() && Alone(c) && conns[c] == conn && conn.View().Ready()
      modifies conn`phase, conn.payload
      ensures req == old(conn.payload.value)
      ensures Named(past) && acceptor.manager.Valid() && acceptor.manager.View() == old(acceptor.manager.View())
      ensures acceptor.View() == old(acceptor.View())
      ensures EndsOf(conns) == old(EndsOf(conns))[c := Endpoint(Idle, conn.event.signalled, None)]
    {
      req := conn.Complete();
      EndChanged(c);
      NamedKept(past);
    }

    /** A completed wait always yields a request: the one the run records as taken. */
    method TakeRequest(ghost past: Record, ghost c: nat, conn: ServerConnection)
      returns (req: Option<Request>, ghost now: Record, ghost r: nat)
      requires Valid(past) && Run(past.steps + [Step.TakeRequest(c)]).Some? && c < |conns| && conns[c] == conn
      modifies conn`phase, conn.payload
      ensures Valid(now) && now.steps == past.steps + [Step.TakeRequest(c)]
      ensures now.nm == past.nm && now.homes == past.homes
      ensures r < |now.nm.reqs| && req == Some(now.nm.reqs[r])
      ensures Run(past.steps).Some? && c < |Run(past.steps).value.conns| && c < |Run(now.steps).value.conns|
      ensures Run(now.steps).value.conns[c].taken == Run(past.steps).value.conns[c].taken + [r]
    {
      ghost var k := View(past.homes);
      r := TakeRequestReached(k, past.steps, past.nm, c);
      AloneAt(past, c);
      req := Take(past, c, conn);
      assert View(past.homes) == k.(ends := k.ends[c := Endpoint(Idle, k.ends[c].signalled, None)]);
      now := past.(steps := past.steps + [Step.TakeRequest(c)]);
    }

    method Drop(ghost past: Record, ghost c: nat, conn: ServerConnection) returns (dropped: Option<Request>)
      requires Named(past) && acceptor.manager.Valid() && Alone(c) && conns[c] == conn && conn.phase != Closed
      modifies conn`phase, conn.queue, conn.payload
      ensures dropped == old(conn.payload.value)
      ensures Named(past) && acceptor.manager.Valid() && acceptor.View() == old(acceptor.View())
      ensures past.homes[c] in old(acceptor.manager.View()).channels
      ensures acceptor.manager.View() == old(acceptor.manager.View()).CancelRequest(past.homes[c], conn.event)
      ensures EndsOf(conns) == old(EndsOf(conns))[c := Endpoint(Closed, conn.event.signalled, None)]
    {
      dropped := DestroyAt(acceptor.manager, past.homes[c], conn);
      EndChanged(c);
      NamedKept(past);
    }

    /** What the destructor takes along is what the run records as dropped. */
    method DestroyConn(ghost past: Record, ghost c: nat, conn: ServerConnection)
      returns (dropped: Option<Request>, ghost now: Record)
      requires Valid(past) && Run(past.steps + [Step.DestroyConn(c)]).Some? && c < |conns| && conns[c] == conn
      modifies conn`phase, conn.queue, conn.payload
      ensures Valid(now) && now.steps == past.steps + [Step.DestroyConn(c)]
      ensures now.nm == past.nm && now.homes == past.homes && c < |Run(now.steps).value.conns|
      ensures GotIs(dropped, Run(now.steps).value.conns[c].dropped, now.nm.reqs)
    {
      ghost var k := View(past.homes);
      AloneAt(past, c);
      DestroyConnReached(k, past.steps, past.nm, c);
      dropped := Drop(past, c, conn);
      assert View(past.homes) == k.(reg := k.reg.CancelRequest(k.homes[c], conn.event),
        ends := k.ends[c := Endpoint(Closed, k.ends[c].signalled, None)]);
      now := past.(steps := past.steps + [Step.DestroyConn(c)]);
    }

    /** A post that nobody waits for. */
    method Store(ghost past: Record, req: Request)
      requires Named(past) && acceptor.manager.Valid() && req.connId in acceptor.manager.conns
      requires acceptor.manager.View().Post(req.connId, req).1 == None
      modifies acceptor.manager.conns[req.connId].queue
      ensures Named(past) && acceptor.manager.Valid() && acceptor.View() == old(acceptor.View())
      ensures acceptor.manager.View() == old(acceptor.manager.View()).Post(req.connId, req).0
      ensures EndsOf(conns) == old(EndsOf(conns))
    {
      acceptor.manager.PostRequest(req);
      EndsKept(conns);
    }

    /** A post that connection c waits for. */
    method Give(ghost past: Record, req: Request, ghost c: nat, ghost conn: ServerConnection)
      requires Named(past) && acceptor.manager.Valid() && req.connId in acceptor.manager.conns
      requires Alone(c) && conns[c] == conn
      requires acceptor.manager.View().Post(req.connId, req).1 == Some(Waiter(conn.event, conn.payload))
      modifies acceptor.manager.conns[req.connId].queue, conn.event, conn.payload
      ensures Named(past) && acceptor.manager.Valid() && acceptor.View() == old(acceptor.View())
      ensures acceptor.manager.View() == old(acceptor.manager.View()).Post(req.connId, req).0
      ensures EndsOf(conns) == old(EndsOf(conns))[c := old(conn.View()).Fill(req)]
    {
      PostTo(acceptor.manager, req, conn);
      EndChanged(c);
      NamedKept(past);
    }

    /** A request of a live connection: it goes to its queue, or to the one who waits there. The two calls
        are one and the same post; they differ in what it writes to. */
    method Post(ghost past: Record, req: Request) returns (ghost now: Record)
      requires Valid(past) && Run(past.steps + [Step.Post(req.connId)]).Some? && req.connId in acceptor.manager.conns
      modifies acceptor.manager.conns[req.connId].queue, acceptor.manager.conns[req.connId].queue.PushTargets()
      ensures Valid(now) && now.steps == past.steps + [Step.Post(req.connId)]
      ensures now.nm == past.nm.(reqs := past.nm.reqs + [req]) && now.homes == past.homes
    {
      ghost var k := View(past.homes);
      ghost var w := PostReached(k, past.steps, past.nm, req.connId, req);
      if acceptor.manager.conns[req.connId].queue.entries == [] {
        Store(past, req);
        assert View(past.homes) == k.(reg := k.reg.Post(req.connId, req).0);
      } else {
        ghost var c := w.value.slot;
        AloneAt(past, c);
        Give(past, req, c, conns[c]);
        assert View(past.homes) == k.(reg := k.reg.Post(req.connId, req).0, ends := k.ends[c := k.ends[c].Fill(req)]);
      }
      now := past.(steps := past.steps + [Step.Post(req.connId)], nm := past.nm.(reqs := past.nm.reqs + [req]));
    }

    /** What a theorem about runs says of the objects: while a connection waits its event is set exactly when
        its slot is full, and while it waits unset its queue holds no request and parks nobody else. */
    lemma ObjectsNeverSleepOnWork(past: Record, c: nat)
      requires Valid(past) && c < |conns|
      ensures conns[c].phase == Waiting ==> (conns[c].event.signalled <==> conns[c].payload.value.Some?)
      ensures conns[c].phase == Waiting && !conns[c].event.signalled ==>
        && past.homes[c].queue == conns[c].queue && conns[c].queue.items == []
        && conns[c].queue.entries == [Waiter(conns[c].event, conns[c].payload)]
    {
      var k := View(past.homes);
      var s :| Run(past.steps) == Some(s) && Shows(k, s, past.nm) && past.nm.Distinct();
      HomeKnown(k, s, past.nm, c);
      ConnNeverSleepsOnWork(past.steps, s, c);
      var n := s.conns[c].entry;
      assert ChannelIs(k.reg.channels[past.nm.entries[n]], s.reg.channels[n], past.nm.reqs, past.nm.events,
        past.nm.slots);
      assert k.reg.channels[past.nm.entries[n]].queue == past.homes[c].queue.View();
    }
  }
}
