/**
 * The event buffer the application pushes its own events into and the UI
 * framework polls (src/app/event_dispatcher.rs). Every clone of a port
 * shares one holder, so they all see the same buffer. The mutex around it
 * is not modelled: all calls here are sequential.
 */
module EventDispatcher {
  import opened Wrappers
  import Realm
  import UserEvent
  import TreeView

  /** The shared buffer. */
  class BrowserUpdateHolder<T> {
    var events: seq<Realm.Event<T>>

    constructor ()
      ensures events == []
    {
      events := [];
    }
  }

  class EventDispatcherPort<T> {
    const holder: BrowserUpdateHolder<T>

    /** `new`: a port over a fresh, empty buffer. */
    constructor ()
      ensures fresh(holder) && holder.events == []
    {
      holder := new BrowserUpdateHolder();
    }

    /** The derived `Clone`: a second port over the same holder. */
    constructor Clone(other: EventDispatcherPort<T>)
      ensures holder == other.holder
    {
      holder := other.holder;
    }

    /** `dispatch`: the event goes to the end of the buffer. */
    method Dispatch(event: Realm.Event<T>)
      modifies holder
      ensures holder.events == old(holder.events) + [event]
    {
      holder.events := holder.events + [event];
    }

    /** `poll`: the most recently dispatched event is taken off the end; an empty buffer gives None and stays empty. */
    method Poll() returns (r: Option<Realm.Event<T>>)
      modifies holder
      ensures old(holder.events) == [] ==> r.None? && holder.events == []
      ensures old(holder.events) != [] ==>
        r == Some(old(holder.events)[|old(holder.events)| - 1])
        && holder.events == old(holder.events)[..|old(holder.events)| - 1]
    {
      if holder.events == [] {
        return None;
      }
      var n := |holder.events| - 1;
      r := Some(holder.events[n]);
      holder.events := holder.events[..n];
    }
  }

  /** `send_tree`: exactly one TreeReloaded event is dispatched. */
  method SendTree(port: EventDispatcherPort<UserEvent.TisqEvent>, tree: UserEvent.SentTree)
    modifies port.holder
    ensures port.holder.events == old(port.holder.events) + [Realm.User(UserEvent.TreeReloaded(tree))]
  {
    port.Dispatch(Realm.User(UserEvent.TreeReloaded(tree)));
  }

  /** Delivery is last in, first out: the event dispatched last is polled first, then the one before it. */
  method LastInFirstOut<T>(port: EventDispatcherPort<T>, a: Realm.Event<T>, b: Realm.Event<T>)
    returns (first: Option<Realm.Event<T>>, second: Option<Realm.Event<T>>)
    modifies port.holder
    ensures first == Some(b) && second == Some(a)
    ensures port.holder.events == old(port.holder.events)
  {
    port.Dispatch(a);
    port.Dispatch(b);
    first := port.Poll();
    second := port.Poll();
  }

  /** An event dispatched through one clone is the one polled through another. */
  method ClonesShareEvents<T>(port: EventDispatcherPort<T>, e: Realm.Event<T>) returns (r: Option<Realm.Event<T>>)
    modifies port.holder
    ensures r == Some(e)
    ensures port.holder.events == old(port.holder.events)
  {
    var other := new EventDispatcherPort.Clone(port);
    port.Dispatch(e);
    r := other.Poll();
  }
}
