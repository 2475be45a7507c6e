/** The watcher structures shared by every part of the event loop, and event masks. */
module Watchers {

  /** The event bits. A mask is the set of its bits, so `|` is union and `&` is intersection. */
  datatype Event = Read | Write | FdSet | Timer | Periodic | Async | Custom | Error

  type Mask = set<Event>

  /** The events a descriptor can have. */
  const RW: Mask := {Read, Write}

  /**
   * ev_watcher and its refinements ev_io, ev_timer and ev_periodic. Only the fields of its own
   * kind are used. The priority is the array index ABSPRI computes; it stays fixed.
   */
  class Watcher {
    const priority: nat
    var repeat: real            // ev_timer: 0 for a one-shot timer
    var offset: real            // ev_periodic
    var interval: real          // ev_periodic: 0 for a one-shot
    var active: nat             // 0 when stopped; a timer's heap index; 1 for an active ev_io
    var pending: nat            // 0, or one more than the index of its pending slot
    var at: real                // relative while a timer is stopped, absolute while it runs
    const fd: nat               // ev_io
    var events: Mask            // ev_io
    var next: Watcher?          // ev_io: the next watcher of the same descriptor

    constructor (priority: nat, at: real, repeat: real, offset: real, interval: real, fd: nat, events: Mask)
      ensures this.priority == priority && this.at == at && this.repeat == repeat
      ensures this.offset == offset && this.interval == interval && this.fd == fd && this.events == events
      ensures active == 0 && pending == 0 && next == null
    {
      this.priority := priority;
      this.at := at;
      this.repeat := repeat;
      this.offset := offset;
      this.interval := interval;
      this.fd := fd;
      this.events := events;
      active := 0;
      pending := 0;
      next := null;
    }
  }

  /** No watcher occurs twice. */
  predicate NoRepeats(ws: seq<Watcher>) {
    forall i, j :: 0 <= i < j < |ws| ==> ws[i] != ws[j]
  }
}
