/** The two mutable endpoints that accept: a server connection accepts requests, the acceptor accepts
    connections. Every accept is three calls: Clear, Initiate, and Complete when the wait ends. */
module Endpoints {
  import opened Options
  import opened Rendezvous
  import opened Registries
  import opened ItemQueues
  import opened ConnectionManagers
  import opened Pipelines

  class ServerConnection {
    var queue: ItemQueue?<Request>
    const event: Event
    const payload: Slot<Request>
    ghost var phase: Phase

    ghost function View(): Endpoint<Request>
      reads this, event, payload
    {
      Endpoint(phase, event.signalled, payload.value)
    }

    constructor ()
      ensures queue == null && fresh(event) && fresh(payload) && View() == Endpoint(Idle, false, None)
    {
      queue, phase := null, Idle;
      event := new Event();
      payload := new Slot();
    }

    method SetQueue(queue: ItemQueue<Request>)
      requires this.queue == null
      modifies this`queue
      ensures this.queue == queue
    {
      this.queue := queue;
    }

    method Clear()
      requires queue != null && payload.value == None && phase == Idle
      modifies this`phase, event
      ensures View() == old(View()).(phase := Cleared, signalled := false)
    {
      event.Reset();
      phase := Cleared;
    }

    method Initiate()
      requires queue != null && queue.Valid() && phase == Cleared
      modifies this`phase, queue, event, payload
      ensures queue.Valid() && queue.View() == old(queue.View()).Pop(Waiter(event, payload)).0
      ensures View() == old(View()).AfterPop(old(queue.View()).Pop(Waiter(event, payload)).1)
    {
      queue.AsyncPop(event, payload);
      phase := Waiting;
    }

    /** The wait handler moves the payload out. */
    method Complete() returns (req: Option<Request>)
      requires View().Ready()
      modifies this`phase, payload
      ensures req == old(payload.value)
      ensures View() == Endpoint(Idle, old(event.signalled), None)
    {
      req := payload.value;
      payload.value := None;
      phase := Idle;
    }

    /** The destructor; a request still in the slot is destroyed with it. */
    method Destroy() returns (dropped: Option<Request>)
      requires phase != Closed && (queue != null ==> queue.Valid())
      modifies this`phase, queue, payload
      ensures dropped == old(payload.value) && View() == Endpoint(Closed, old(event.signalled), None)
      ensures queue != null ==> queue.Valid() && queue.View() == old(queue.View()).Cancel(event)
    {
      if queue != null {
        queue.Cancel(event);
      }
      dropped := payload.value;
      payload.value := None;
      phase := Closed;
    }
  }

  /** A post, seen from the connection that waits for it. */
  method PostTo(manager: ConnectionManager, req: Request, ghost conn: ServerConnection)
    requires manager.Valid() && req.connId in manager.conns
    requires manager.View().Post(req.connId, req).1 == Some(Waiter(conn.event, conn.payload))
    modifies manager.conns[req.connId].queue, conn.event, conn.payload
    ensures manager.Valid() && manager.View() == old(manager.View()).Post(req.connId, req).0
    ensures conn.View() == old(conn.View()).Fill(req)
  {
    manager.PostRequest(req);
  }

  /** A pop, seen from the manager: only the queue of the connection's entry changes. */
  method PopFrom(ghost manager: ConnectionManager, ghost home: Entry, conn: ServerConnection)
    requires manager.Valid() && home in manager.entries && conn.queue == home.queue && conn.phase == Cleared
    modifies conn`phase, conn.queue, conn.event, conn.payload
    ensures manager.Valid() && home in old(manager.View()).channels
    ensures var (reg, got) := old(manager.View()).PopRequest(home, Waiter(conn.event, conn.payload));
      manager.View() == reg && conn.View() == old(conn.View()).AfterPop(got)
  {
    conn.Initiate();
    manager.OneQueue(home);
  }

  /** The destructor, seen from the manager. */
  method DestroyAt(ghost manager: ConnectionManager, ghost home: Entry, conn: ServerConnection)
    returns (dropped: Option<Request>)
    requires manager.Valid() && home in manager.entries && conn.queue == home.queue && conn.phase != Closed
    modifies conn`phase, conn.queue, conn.payload
    ensures dropped == old(conn.payload.value) && conn.View() == Endpoint(Closed, old(conn.event.signalled), None)
    ensures manager.Valid() && home in old(manager.View()).channels
    ensures manager.View() == old(manager.View()).CancelRequest(home, conn.event)
  {
    dropped := conn.Destroy();
    manager.OneQueue(home);
  }

  class Acceptor {
    const manager: ConnectionManager
    const event: Event
    const holder: Slot<Entry>
    ghost var phase: Phase

    ghost function View(): Endpoint<Entry>
      reads this, event, holder
    {
      Endpoint(phase, event.signalled, holder.value)
    }

    constructor ()
      ensures fresh(manager) && manager.Valid() && manager.View() == Registry(map[], map[], Queue([], []))
      ensures fresh(event) && fresh(holder) && View() == Endpoint(Idle, false, None)
    {
      manager := new ConnectionManager();
      event := new Event();
      holder := new Slot();
      phase := Idle;
    }

    /** The connection handler: the manager adds the connection, and gives it to a parked acceptor. */
    method ProcessConnect(id: ConnId) returns (ghost added: Entry)
      requires manager.Valid() && manager.connQueue.PushTargets() <= {event, holder}
      modifies manager, manager.connQueue, event, holder
      ensures manager.Valid() && fresh(added) && fresh(added.queue)
      ensures manager.entries == old(manager.entries) + {added}
      ensures manager.View() == old(manager.View()).AddConn(id, added).0
      ensures old(manager.View()).AddConn(id, added).1 in {None, Some(Waiter(event, holder))} ==>
        View() == if old(manager.View()).AddConn(id, added).1.Some? then old(View()).Fill(added) else old(View())
    {
      added := manager.AddConn(id);
    }

    method Clear()
      requires phase == Idle
      modifies this`phase, event, holder
      ensures View() == Endpoint(Cleared, false, None)
    {
      event.Reset();
      holder.value := None;
      phase := Cleared;
    }

    method Initiate()
      requires manager.Valid() && phase == Cleared
      modifies this`phase, manager.connQueue, event, holder
      ensures manager.Valid() && manager.View() == old(manager.View()).PopConn(Waiter(event, holder)).0
      ensures View() == old(View()).AfterPop(old(manager.View()).PopConn(Waiter(event, holder)).1)
    {
      manager.AsyncPop(event, holder);
      phase := Waiting;
    }

    /** The wait handler copies the entry, which must be there, and hands its queue to a new connection. */
    method Complete() returns (conn: ServerConnection)
      requires View().Ready() && holder.value.Some?
      modifies this`phase
      ensures fresh(conn) && fresh(conn.event) && fresh(conn.payload)
      ensures conn.queue == holder.value.value.queue && conn.View() == Endpoint(Idle, false, None)
      ensures View() == old(View()).(phase := Idle)
    {
      conn := new ServerConnection();
      conn.SetQueue(holder.value.value.queue);
      phase := Idle;
    }

    method Close()
      requires manager.Valid()
      modifies this`phase, manager.connQueue
      ensures manager.Valid() && manager.View() == old(manager.View()).CancelConn(event)
      ensures phase == if old(manager.connQueue.View()).TailIs(event) then Closed else old(phase)
    {
      if manager.connQueue.entries != [] && manager.connQueue.entries[|manager.connQueue.entries| - 1].event == event {
        phase := Closed;
      }
      manager.Cancel(event);
    }
  }
}
