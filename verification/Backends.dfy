/** The three backends behind backend_modify, and what it means that one serves the loop's interest. */
module Backends {
  import opened Watchers
  import PollBackend
  import SelectBackend
  import EpollBackend

  datatype Kind = Poll | Select | Epoll

  class Backend {
    const kind: Kind
    const poll: PollBackend.PollSet
    const select: SelectBackend.SelectSet
    const epoll: EpollBackend.EpollSet

    /** No descriptor has vanished since it was registered, and nothing waits to be rebuilt. */
    ghost predicate Exact()
      reads epoll, epoll.kernel
    {
      kind == Epoll ==> epoll.kernel.lost == {} && !epoll.postfork
    }

    /** The arrays are the old ones or new, and the kernel has lost nothing. */
    twostate predicate Kept()
      reads poll, epoll, epoll.kernel
    {
      && (poll.pollidxs == old(poll.pollidxs) || fresh(poll.pollidxs))
      && (poll.polls == old(poll.polls) || fresh(poll.polls))
      && (old(Exact()) ==> Exact())
    }

    /** The kernel's latest answer about the descriptor was a refusal. */
    ghost predicate Refused(fd: nat)
      reads epoll.kernel`refused
    {
      fd in epoll.kernel.refused
    }

    ghost predicate Valid()
      reads poll, poll.pollidxs, poll.polls, select, epoll, epoll.kernel
    {
      poll.Valid() && select.Valid() && epoll.Valid()
    }

    /** How many descriptors the table has room for. */
    ghost function Size(): nat
      reads epoll
    {
      |epoll.slots|
    }

    /**
     * Exactly these events are asked for on the descriptor (with epoll: or it has vanished, or all are about to be
     * asked for again).
     */
    ghost predicate Serves(fd: nat, mask: Mask)
      requires poll.Valid()
      reads poll, poll.pollidxs, poll.polls, select, epoll, epoll.kernel
    {
      match kind
      case Poll => mask == poll.MaskOf(fd)
      case Select => mask == select.MaskOf(fd)
      case Epoll => epoll.Serves(fd, mask)
    }

    constructor (kind: Kind)
      ensures Valid() && Size() == 0 && this.kind == kind && forall fd: nat :: Serves(fd, {})
      ensures fresh(poll) && fresh(poll.pollidxs) && fresh(poll.polls)
      ensures fresh(select) && fresh(epoll) && fresh(epoll.kernel)
    {
      this.kind := kind;
      poll := new PollBackend.PollSet();
      select := new SelectBackend.SelectSet();
      epoll := new EpollBackend.EpollSet();
    }

    method Grow(n: nat)
      requires Valid()
      modifies epoll`slots
      ensures Valid() && Size() == if n <= old(Size()) then old(Size()) else n
      ensures forall fd: nat, m :: old(Serves(fd, m)) ==> Serves(fd, m)
    {
      epoll.Grow(n);
    }

    /**
     * backend_modify: afterwards exactly nev is asked for, and nothing changes for other descriptors.
     * Only epoll may find a descriptor unusable, and only when it asks for events.
     */
    method Modify(fd: nat, oev: Mask, nev: Mask) returns (kill: bool)
      requires Valid() && fd < Size() && nev <= RW && (kind != Epoll ==> Serves(fd, oev))
      modifies poll, poll.pollidxs, poll.polls, select, epoll, epoll.kernel
      ensures Valid() && Size() == old(Size()) && Kept()
      ensures kill ==> kind == Epoll && nev != {} && Refused(fd)
      ensures forall g: nat :: g != fd || nev == {} ==> Refused(g) == old(Refused(g))
      ensures !kill ==> Serves(fd, nev)
      ensures forall g: nat, m :: g != fd ==> Serves(g, m) == old(Serves(g, m))
      ensures kind == Epoll && nev != {} && !kill ==> epoll.Armed(fd, nev)
      ensures forall g: nat, m :: g != fd || nev == {} ==> epoll.Armed(g, m) == old(epoll.Armed(g, m))
    {
      kill := false;
      match kind {
        case Poll => poll.Modify(fd, oev, nev);
        case Select => select.Modify(fd, oev, nev);
        case Epoll => kill := epoll.Modify(fd, oev, nev);
      }
    }
  }
}
