/** The mutable connection manager and the two endpoints that pop from it. */
module ConnectionManagers {
  import opened Options
  import opened Rendezvous
  import opened Registries
  import opened ItemQueues
  import Completion

  type Request = Completion.Request

  class Entry {
    const connId: ConnId
    const queue: ItemQueue<Request>

    constructor (connId: ConnId)
      ensures this.connId == connId && fresh(queue)
      ensures queue.Valid() && queue.View() == Queue([], [])
    {
      this.connId := connId;
      queue := new ItemQueue();
    }
  }

  class ConnectionManager {
    var conns: map<ConnId, Entry>
    const connQueue: ItemQueue<Entry>

    /** Every entry ever added, accepted or not, live or not. */
    ghost var entries: set<Entry>

    ghost predicate Valid()
      reads this, connQueue, entries, set e: Entry | e in entries :: e.queue
    {
      && connQueue.Valid()
      && (forall e :: e in entries ==> e.queue.Valid() && e.queue as object != connQueue)
      && (forall e, e' :: e in entries && e' in entries && e.queue == e'.queue ==> e == e')
      && (forall id :: id in conns ==> conns[id] in entries)
    }

    ghost function Channels(): map<Entry, Channel<Request, Event, Slot<Request>>>
      reads this, entries, set e: Entry | e in entries :: e.queue
    {
      map e | e in entries :: Channel(e.connId, e.queue.View())
    }

    ghost function View(): Registry<Entry, Request, Event, Slot<Entry>, Slot<Request>>
      reads this, connQueue, entries, set e: Entry | e in entries :: e.queue
    {
      Registry(conns, Channels(), connQueue.View())
    }

    constructor ()
      ensures Valid() && fresh(connQueue) && View() == Registry(map[], map[], Queue([], []))
    {
      conns, entries := map[], {};
      connQueue := new ItemQueue();
    }

    /** Enters a new entry, live under its id unless the id is live already. */
    method Adopt(entry: Entry)
      requires Valid() && entry !in entries && entry.queue.Valid() && entry.queue as object != connQueue
      requires forall e :: e in entries ==> e.queue != entry.queue
      modifies this
      ensures Valid() && entries == old(entries) + {entry}
      ensures Channels() == old(Channels())[entry := Channel(entry.connId, entry.queue.View())]
      ensures conns == if entry.connId in old(conns) then old(conns) else old(conns)[entry.connId := entry]
    {
      if entry.connId !in conns {
        conns := conns[entry.connId := entry];
      }
      entries := entries + {entry};
    }

    method Register(id: ConnId) returns (entry: Entry)
      requires Valid()
      modifies this
      ensures Valid() && fresh(entry) && fresh(entry.queue) && entries == old(entries) + {entry}
      ensures conns == if id in old(conns) then old(conns) else old(conns)[id := entry]
      ensures Channels() == old(Channels())[entry := Channel(id, Queue([], []))]
    {
      ghost var before := Channels();
      entry := new Entry(id);
      assert unchanged(connQueue) && forall x :: x in entries ==> unchanged(x.queue);
      assert Channels() == before;
      Adopt(entry);
    }

    method Announce(entry: Entry)
      requires Valid()
      modifies connQueue, connQueue.PushTargets()
      ensures Valid() && Channels() == old(Channels())
      ensures connQueue.View() == old(connQueue.View()).Push(entry).0
      ensures match old(connQueue.View()).Push(entry).1
              case None => true
              case Some(w) => w.slot.value == Some(entry) && w.event.signalled
    {
      connQueue.Push(entry);
      assert forall x :: x in entries ==> unchanged(x.queue);
    }

    method AddConn(id: ConnId) returns (ghost added: Entry)
      requires Valid()
      modifies this, connQueue, connQueue.PushTargets()
      ensures Valid() && fresh(added) && fresh(added.queue) && entries == old(entries) + {added}
      ensures View() == old(View()).AddConn(id, added).0
      ensures match old(View()).AddConn(id, added).1
              case None => true
              case Some(w) => w.slot.value == Some(added) && w.event.signalled
    {
      var entry := Register(id);
      added := entry;
      Announce(entry);
    }

    method AsyncPop(event: Event, out: Slot<Entry>)
      requires Valid()
      modifies connQueue, event, out
      ensures Valid()
      ensures View() == old(View()).PopConn(Waiter(event, out)).0
      ensures match old(View()).PopConn(Waiter(event, out)).1
              case None => event.signalled == old(event.signalled) && out.value == old(out.value)
              case Some(e) => out.value == Some(e) && event.signalled
    {
      connQueue.AsyncPop(event, out);
    }

    method Disconnect(id: ConnId)
      requires Valid() && id in conns
      modifies this`conns
      ensures Valid() && View() == old(View()).Disconnect(id)
    {
      conns := conns - {id};
    }

    /** When only the queue of entry e changes, so does the view. */
    twostate lemma OneQueue(e: Entry)
      requires old(Valid()) && unchanged(this) && unchanged(connQueue) && e in entries && e.queue.Valid()
      requires forall x :: x in entries && x != e ==> unchanged(x.queue)
      ensures Valid() && View() == old(View()).WithQueue(e, e.queue.View())
    {
      assert Channels() == old(Channels())[e := Channel(e.connId, e.queue.View())];
    }

    method PostRequest(req: Request)
      requires Valid() && req.connId in conns
      modifies conns[req.connId].queue, conns[req.connId].queue.PushTargets()
      ensures Valid()
      ensures View() == old(View()).Post(req.connId, req).0
      ensures match old(View()).Post(req.connId, req).1
              case None => true
              case Some(w) => w.slot.value == Some(req) && w.event.signalled
    {
      var e := conns[req.connId];
      e.queue.Push(req);
      OneQueue(e);
    }

    method Cancel(event: Event)
      requires Valid()
      modifies connQueue
      ensures Valid() && View() == old(View()).CancelConn(event)
    {
      connQueue.Cancel(event);
    }
  }
}
