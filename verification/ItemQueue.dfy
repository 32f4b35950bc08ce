/** The mutable queue of `basic_item_queue`, its events and its slots. Each method is one
    critical section of the queue's mutex. */
module ItemQueues {
  import opened Options
  import opened Rendezvous

  /** A manual-reset event. */
  class Event {
    var signalled: bool

    constructor ()
      ensures !signalled
    {
      signalled := false;
    }

    method Set()
      modifies this
      ensures signalled
    {
      signalled := true;
    }

    method Reset()
      modifies this
      ensures !signalled
    {
      signalled := false;
    }
  }

  /** The memory a popper offers for the item. */
  class Slot<T> {
    var value: Option<T>

    constructor ()
      ensures value == None
    {
      value := None;
    }
  }

  class ItemQueue<T> {
    var items: seq<T>
    var entries: seq<Waiter<Event, Slot<T>>>

    /** Every operation performed so far, in lock order. */
    ghost var log: seq<Op<T, Event, Slot<T>>>

    ghost function View(): Queue<T, Event, Slot<T>>
      reads this
    {
      Queue(items, entries)
    }

    /** The fields hold exactly what the logged operations leave behind. */
    ghost predicate Valid()
      reads this
    {
      View() == Contents(log)
    }

    /** The objects the next push writes to. */
    ghost function PushTargets(): set<object>
      reads this
    {
      if entries == [] then {} else {entries[|entries| - 1].event, entries[|entries| - 1].slot}
    }

    constructor ()
      ensures Valid() && log == [] && View() == Queue([], [])
    {
      items, entries, log := [], [], [];
    }

    method Push(item: T)
      requires Valid()
      modifies this, PushTargets()
      ensures Valid() && log == old(log) + [Op.Push(item)]
      ensures View() == old(View()).Push(item).0
      ensures match old(View()).Push(item).1
              case None => true
              case Some(w) => w.slot.value == Some(item) && w.event.signalled
    {
      ContentsExtend(log, Op.Push(item));
      if entries == [] {
        items := items + [item];
      } else {
        var e := entries[|entries| - 1];
        entries := entries[..|entries| - 1];
        e.slot.value := Some(item);
        e.event.Set();
      }
      log := log + [Op.Push(item)];
    }

    method AsyncPop(event: Event, slot: Slot<T>)
      requires Valid()
      modifies this, event, slot
      ensures Valid() && log == old(log) + [Op.Pop(event, slot)]
      ensures View() == old(View()).Pop(Waiter(event, slot)).0
      ensures match old(View()).Pop(Waiter(event, slot)).1
              case None => event.signalled == old(event.signalled) && slot.value == old(slot.value)
              case Some(item) => slot.value == Some(item) && event.signalled
    {
      ContentsExtend(log, Op.Pop(event, slot));
      if items == [] {
        entries := entries + [Waiter(event, slot)];
      } else {
        var item := items[|items| - 1];
        items := items[..|items| - 1];
        slot.value := Some(item);
        event.Set();
      }
      log := log + [Op.Pop(event, slot)];
    }

    method Cancel(event: Event)
      requires Valid()
      modifies this
      ensures Valid() && log == old(log) + [Op.Cancel(event)]
      ensures View() == old(View()).Cancel(event)
    {
      ContentsExtend(log, Op.Cancel(event));
      if entries != [] && entries[|entries| - 1].event == event {
        entries := entries[..|entries| - 1];
      }
      log := log + [Op.Cancel(event)];
    }
  }
}
