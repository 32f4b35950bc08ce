/** The bookkeeping of `basic_connection_manager` as a value: the map of live connections, one
    request queue per connection ever added, and the queue of connections nobody accepted yet.
    Handles, requests, events and slots are parameters, so the same definition specifies the
    mutable class and drives the step system. */
module Registries {
  import opened Options
  import opened Rendezvous

  type ConnId = string

  datatype Channel<R, E(==), S> = Channel(connId: ConnId, queue: Queue<R, E, S>)

  datatype Registry<N(==), R, E(==), SN, SR> = Registry(
    live: map<ConnId, N>,
    channels: map<N, Channel<R, E, SR>>,
    pending: Queue<N, E, SN>)
  {
    function WithQueue(n: N, q: Queue<R, E, SR>): Registry<N, R, E, SN, SR>
      requires n in channels
    {
      this.(channels := channels[n := Channel(channels[n].connId, q)])
    }

    /** A map insert keeps an entry that is already there. */
    function AddConn(id: ConnId, n: N): (Registry<N, R, E, SN, SR>, Option<Waiter<E, SN>>) {
      var (pending', served) := pending.Push(n);
      (Registry(if id in live then live else live[id := n], channels[n := Channel(id, Queue([], []))], pending'),
        served)
    }

    function PopConn(w: Waiter<E, SN>): (Registry<N, R, E, SN, SR>, Option<N>) {
      var (pending', got) := pending.Pop(w);
      (this.(pending := pending'), got)
    }

    function CancelConn(event: E): Registry<N, R, E, SN, SR> {
      this.(pending := pending.Cancel(event))
    }

    /** Only the map forgets the connection; its queue stays with whoever accepted it. */
    function Disconnect(id: ConnId): Registry<N, R, E, SN, SR> {
      this.(live := live - {id})
    }

    function Post(id: ConnId, req: R): (Registry<N, R, E, SN, SR>, Option<Waiter<E, SR>>)
      requires id in live && live[id] in channels
    {
      var (q, served) := channels[live[id]].queue.Push(req);
      (WithQueue(live[id], q), served)
    }

    function PopRequest(n: N, w: Waiter<E, SR>): (Registry<N, R, E, SN, SR>, Option<R>)
      requires n in channels
    {
      var (q, got) := channels[n].queue.Pop(w);
      (WithQueue(n, q), got)
    }

    function CancelRequest(n: N, event: E): Registry<N, R, E, SN, SR>
      requires n in channels
    {
      WithQueue(n, channels[n].queue.Cancel(event))
    }
  }
}
