/**
 * The epoll backend: a kernel interest set that is changed with as few calls as possible and that loses
 * descriptors without saying so, and the shadow state (emask, egen, epoll_eperms) kept about it.
 */
module EpollBackend {
  import opened Watchers

  /** The EV_EMASK_EPERM bit has the value of EV__IOFDSET. */
  const EPERM_MASK: Mask := {FdSet}

  /** What the kernel holds for a descriptor: its events, and the generation in the upper half of the user data. */
  datatype Registration = Registration(mask: Mask, gen: int)

  /** A member of the events of struct epoll_event. */
  datatype Condition = In | Out | Err | Hup

  /** One result of epoll_wait. */
  datatype Notification = Notification(fd: nat, gen: int, conditions: set<Condition>)

  /** Errors and hangups make a descriptor both readable and writable. */
  function Got(c: set<Condition>): (got: Mask)
    ensures got <= {Read, Write}
    ensures Read in got <==> In in c || Err in c || Hup in c
    ensures Write in got <==> Out in c || Err in c || Hup in c
  {
    assert forall x :: x in c * {Out, Err, Hup} <==> x in c && (x == Out || x == Err || x == Hup);
    assert forall x :: x in c * {In, Err, Hup} <==> x in c && (x == In || x == Err || x == Hup);
    (if c * {Out, Err, Hup} != {} then {Write} else {}) + (if c * {In, Err, Hup} != {} then {Read} else {})
  }

  datatype Op = Add | Mod | Del

  datatype Answer = OK | EEXIST | ENOENT | EPERM | OTHER

  class Kernel {
    var registered: map<nat, Registration>
    ghost var lost: set<nat>      // vanished since they were last registered
    ghost var refused: set<nat>   // those the latest answer for which was a refusal
    ghost var asked: nat          // how many calls there have been
    ghost var last: Answer        // the latest answer

    constructor ()
      ensures registered == map[] && lost == {} && refused == {}
    {
      registered, lost, refused, asked, last := map[], {}, {}, 0, OK;
    }

    /** What epoll_ctl may answer, for a descriptor that is present or absent. */
    static predicate Possible(op: Op, present: bool, r: Answer) {
      if present then r == (if op == Add then EEXIST else OK)
      else if op == Add then r in {OK, EPERM, OTHER}
      else r in {ENOENT, EPERM, OTHER}
    }

    /** epoll_ctl, with any answer that is possible. */
    method Ctl(op: Op, fd: nat, mask: Mask, gen: int) returns (r: Answer)
      modifies this
      ensures Possible(op, fd in old(registered), r)
      ensures registered == if r != OK then old(registered)
                            else if op == Del then old(registered) - {fd}
                            else old(registered)[fd := Registration(mask, gen)]
      ensures lost == if r == OK then old(lost) - {fd} else old(lost)
      ensures refused == if r in {EPERM, OTHER} then old(refused) + {fd} else old(refused) - {fd}
      ensures asked == old(asked) + 1 && last == r
    {
      r := *;
      if !Possible(op, fd in registered, r) {
        r := if fd !in registered then OTHER else if op == Add then EEXIST else OK;
      }
      if r == OK {
        registered := if op == Del then registered - {fd} else registered[fd := Registration(mask, gen)];
        lost := lost - {fd};
      }
      refused := if r in {EPERM, OTHER} then refused + {fd} else refused - {fd};
      asked, last := asked + 1, r;
    }

    /** A descriptor is closed elsewhere: it goes without notice. */
    method Vanish(fd: nat)
      modifies this`registered, this`lost
      ensures registered == old(registered) - {fd}
      ensures lost == if fd in old(registered) then old(lost) + {fd} else old(lost)
    {
      if fd in registered {
        registered, lost := registered - {fd}, lost + {fd};
      }
    }

    /** The epoll descriptor is closed and a new one created. */
    method Recreate()
      modifies this`registered, this`lost
      ensures registered == map[] && lost == {}
    {
      registered, lost := map[], {};
    }
  }

  /** The epoll part of an ANFD. */
  datatype EpollSlot = EpollSlot(emask: Mask, egen: int)

  class EpollSet {
    const kernel: Kernel
    var slots: seq<EpollSlot>
    var eperms: seq<nat>
    var postfork: bool

    /** A registered descriptor carries the current generation, and the recorded mask unless none is recorded. */
    ghost predicate RegistrationOk(fd: nat)
      reads this`slots, kernel`registered
    {
      fd in kernel.registered ==>
        && fd < |slots|
        && kernel.registered[fd].gen == slots[fd].egen
        && kernel.registered[fd].mask <= RW
        && (slots[fd].emask != {} ==> slots[fd].emask == kernel.registered[fd].mask)
    }

    /** A descriptor marked EPERM is on the list, though perhaps more than once. */
    ghost predicate SlotOk(fd: nat)
      requires fd < |slots|
      reads this`slots, this`eperms
    {
      slots[fd].emask <= RW || (slots[fd].emask == EPERM_MASK && fd in eperms)
    }

    ghost predicate Valid()
      reads this`slots, this`eperms, kernel`registered
    {
      && (forall fd: nat :: RegistrationOk(fd))
      && (forall fd :: 0 <= fd < |slots| ==> SlotOk(fd))
      && (forall i :: 0 <= i < |eperms| ==> eperms[i] < |slots|)
    }

    /** The kernel reports exactly these events, or the descriptor is always ready and will be polled from the list. */
    ghost predicate Armed(fd: nat, mask: Mask)
      reads this`slots, this`eperms, kernel`registered
    {
      && fd < |slots|
      && ((fd in kernel.registered && kernel.registered[fd] == Registration(mask, slots[fd].egen))
          || (slots[fd].emask == EPERM_MASK && fd in eperms))
    }

    /** Events are armed, unless the descriptor has vanished or all of them are about to be armed again. */
    ghost predicate Serves(fd: nat, mask: Mask)
      reads this, kernel
    {
      mask == {} || Armed(fd, mask) || fd in kernel.lost || postfork
    }

    constructor ()
      ensures Valid() && fresh(kernel) && slots == [] && !postfork && kernel.registered == map[]
    {
      kernel := new Kernel();
      slots, eperms, postfork := [], [], false;
    }

    method Grow(n: nat)
      requires Valid()
      modifies this`slots
      ensures Valid() && |slots| == if n <= old(|slots|) then old(|slots|) else n
      ensures forall fd: nat, m :: old(Serves(fd, m)) ==> Serves(fd, m)
    {
      ghost var was := slots;
      if |slots| < n {
        slots := slots + seq(n - |slots|, _ => EpollSlot({}, 0));
      }
      assert forall fd: nat :: old(RegistrationOk(fd)) ==> RegistrationOk(fd);
      assert forall fd :: 0 <= fd < |was| ==> old(SlotOk(fd)) && slots[fd] == was[fd];
    }

    /** A descriptor that vanishes takes nothing else with it. */
    method Vanish(fd: nat)
      requires Valid()
      modifies kernel
      ensures Valid() && fd !in kernel.registered
      ensures forall g: nat, m :: old(Serves(g, m)) ==> Serves(g, m)
    {
      kernel.Vanish(fd);
      forall g: nat ensures RegistrationOk(g) {
        assert old(RegistrationOk(g));
      }
      forall g | 0 <= g < |slots| ensures SlotOk(g) {
        assert old(SlotOk(g));
      }
    }

    /** The part of fd_rearm_all that concerns a descriptor's recorded mask. */
    method Forget(fd: nat)
      requires Valid() && fd < |slots|
      modifies this`slots
      ensures Valid() && |slots| == old(|slots|)
      ensures forall g: nat, m :: g != fd ==> Serves(g, m) == old(Serves(g, m))
    {
      assert RegistrationOk(fd) && SlotOk(fd);
      SetSlot(fd, {}, slots[fd].egen);
      OthersValid(fd);
    }

    /** A new epoll descriptor, with nothing in it. */
    method Renew()
      requires Valid()
      modifies this`postfork, kernel
      ensures Valid() && !postfork && kernel.registered == map[] && kernel.lost == {}
    {
      kernel.Recreate();
      postfork := false;
    }

    method SetSlot(fd: nat, emask: Mask, egen: int)
      requires fd < |slots|
      modifies this`slots
      ensures slots == old(slots)[fd := EpollSlot(emask, egen)]
    {
      slots := slots[fd := EpollSlot(emask, egen)];
    }

    /** Nothing is different for other descriptors. */
    twostate predicate OnlyAbout(fd: nat)
      reads this, kernel
    {
      && |slots| == old(|slots|) && postfork == old(postfork)
      && (forall g :: 0 <= g < |slots| && g != fd ==> slots[g] == old(slots)[g])
      && (forall g: nat :: g != fd ==> (g in kernel.registered) == old(g in kernel.registered))
      && (forall g: nat :: g != fd && g in kernel.registered ==> kernel.registered[g] == old(kernel.registered[g]))
      && (forall g: nat :: g != fd ==> (g in kernel.lost) == old(g in kernel.lost))
      && (forall g: nat :: g != fd ==> (g in kernel.refused) == old(g in kernel.refused))
      && (forall g: nat :: g != fd ==> (g in eperms) == old(g in eperms))
    }

    /** The kernel has the same registration of the descriptor as before. */
    twostate predicate Unaltered(fd: nat)
      reads kernel`registered
    {
      fd in kernel.registered && fd in old(kernel.registered) && kernel.registered[fd] == old(kernel.registered[fd])
    }

    /** What is true of every other descriptor stays true. */
    twostate lemma OthersValid(fd: nat)
      requires old(Valid()) && OnlyAbout(fd) && fd < |slots| && RegistrationOk(fd) && SlotOk(fd)
      requires forall i :: 0 <= i < |eperms| ==> eperms[i] < |slots|
      ensures Valid()
      ensures forall g: nat, m :: g != fd ==> Serves(g, m) == old(Serves(g, m))
    {
      forall g: nat ensures RegistrationOk(g) {
        assert old(RegistrationOk(g));
      }
      forall g | 0 <= g < |slots| ensures SlotOk(g) {
        assert old(SlotOk(g));
      }
    }

    /**
     * epoll_modify. Taking the last interest away does nothing. Otherwise the descriptor ends up armed
     * for exactly nev, or it is to be killed and the kernel does not have it.
     */
    method Modify(fd: nat, oev: Mask, nev: Mask) returns (kill: bool)
      requires Valid() && fd < |slots| && nev <= RW
      modifies this, kernel
      ensures Valid() && |slots| == old(|slots|) && postfork == old(postfork) && kernel.lost <= old(kernel.lost)
      ensures nev == {} ==> !kill && slots == old(slots) && eperms == old(eperms) && unchanged(kernel)
      // a second call is made only if the first was no use, so not when the kernel has what is recorded
      ensures nev != {} ==> old(kernel.asked) < kernel.asked <= old(kernel.asked) + 2
      ensures nev != {} && (oev != {} <==> fd in old(kernel.registered)) ==> kernel.asked == old(kernel.asked) + 1
      // what epoll does not support is not killed, but listed as always ready
      ensures nev != {} && FirstRefused(old(kernel.asked)) ==>
                !kill && slots[fd] == EpollSlot(EPERM_MASK, old(slots[fd].egen) + 1) && fd in eperms
      ensures nev != {} && !kill ==> Armed(fd, nev) && (fd in kernel.registered <==> fd !in kernel.refused)
      ensures kill ==> nev != {} && fd !in kernel.registered && fd in kernel.refused
      ensures kill ==> slots[fd].egen == old(slots[fd].egen)
      ensures forall g: nat :: g != fd ==> (g in kernel.refused) == old(g in kernel.refused)
      // notifications of an earlier registration can be told by their generation
      ensures nev != {} && !kill ==> slots[fd].egen == old(slots[fd].egen) + if Unaltered(fd) then 0 else 1
      ensures forall g: nat, m :: g != fd ==> Serves(g, m) == old(Serves(g, m))
      ensures forall g: nat, m :: g != fd ==> Armed(g, m) == old(Armed(g, m))
    {
      kill := false;
      if nev != {} {
        assert RegistrationOk(fd) && SlotOk(fd);
        kill := Submit(fd, oev, nev);
        OthersValid(fd);
      }
    }

    /** There has been one call since, and it was answered EPERM. */
    ghost predicate FirstRefused(asked: nat)
      reads kernel`asked, kernel`last
    {
      kernel.asked == asked + 1 && kernel.last == EPERM
    }

    /** A descriptor that epoll does not support is put on the list of the always ready, if it is not on it. */
    method ListReady(fd: nat, oldmask: Mask, egen: int)
      requires fd < |slots| && (EPERM_MASK <= oldmask ==> fd in eperms)
      requires forall i :: 0 <= i < |eperms| ==> eperms[i] < |slots|
      modifies this`slots, this`eperms
      ensures slots == old(slots)[fd := EpollSlot(EPERM_MASK, egen)] && fd in eperms
      ensures forall i :: 0 <= i < |eperms| ==> eperms[i] < |slots|
      ensures forall g: nat :: g != fd ==> (g in eperms) == old(g in eperms)
    {
      SetSlot(fd, EPERM_MASK, egen);
      if oldmask * EPERM_MASK == {} {
        eperms := eperms + [fd];
      }
    }

    /** The kernel calls of epoll_modify, one after the other as their answers demand. */
    method Submit(fd: nat, oev: Mask, nev: Mask) returns (kill: bool)
      requires fd < |slots| && {} != nev <= RW && RegistrationOk(fd) && SlotOk(fd)
      requires forall i :: 0 <= i < |eperms| ==> eperms[i] < |slots|
      modifies this, kernel
      ensures OnlyAbout(fd) && RegistrationOk(fd) && SlotOk(fd) && kernel.lost <= old(kernel.lost)
      ensures forall i :: 0 <= i < |eperms| ==> eperms[i] < |slots|
      ensures if kill then fd !in kernel.registered && slots[fd].egen == old(slots[fd].egen) else Armed(fd, nev)
      ensures old(kernel.asked) < kernel.asked <= old(kernel.asked) + 2
      ensures (oev != {} <==> fd in old(kernel.registered)) ==> kernel.asked == old(kernel.asked) + 1
      ensures FirstRefused(old(kernel.asked)) ==>
                !kill && slots[fd] == EpollSlot(EPERM_MASK, old(slots[fd].egen) + 1) && fd in eperms
      ensures fd in kernel.refused <==> fd !in kernel.registered
      ensures !kill ==> slots[fd].egen == old(slots[fd].egen) + if Unaltered(fd) then 0 else 1
    {
      var oldmask, egen := slots[fd].emask, slots[fd].egen;
      SetSlot(fd, nev, egen + 1);
      var answer := kernel.Ctl(if oev != {} && oldmask != nev then Mod else Add, fd, nev, egen + 1);
      if answer == OK {
        return false;
      }
      if answer == ENOENT {
        answer := kernel.Ctl(Add, fd, nev, egen + 1);
        if answer == OK {
          return false;
        }
      } else if answer == EEXIST {
        if oldmask == nev {
          SetSlot(fd, nev, egen);
          return false;
        }
        answer := kernel.Ctl(Mod, fd, nev, egen + 1);
        if answer == OK {
          return false;
        }
      } else if answer == EPERM {
        ListReady(fd, oldmask, egen + 1);
        return false;
      }
      SetSlot(fd, nev, egen);
      return true;
    }

    /**
     * The check epoll_poll makes of one event. An event of an old generation, or one whose unwanted part
     * cannot be taken back, makes the whole interest set be built again; nothing else is lost.
     */
    method Check(fd: nat, gen: int, got: Mask, want: Mask) returns (deliver: bool)
      requires Valid() && fd < |slots| && want <= RW
      modifies this, kernel
      ensures Valid() && |slots| == old(|slots|) && (postfork <==> old(postfork) || !deliver)
      ensures deliver <==> gen == old(slots[fd].egen) && (got - want == {} || fd in old(kernel.registered))
      ensures forall g :: 0 <= g < |slots| ==> slots[g].egen == old(slots)[g].egen
      ensures kernel.registered.Keys ==
              old(kernel.registered).Keys -
                if gen == old(slots[fd].egen) && got - want != {} && want == {} then {fd} else {}
      ensures deliver && got - want != {} && want != {} ==> Armed(fd, want)
      ensures forall g: nat, m :: old(Serves(g, m)) && (g == fd ==> m == want) ==> Serves(g, m)
    {
      deliver := slots[fd].egen == gen;
      if deliver && got - want != {} {
        deliver := TakeBack(fd, gen, want);
      }
      if !deliver {
        postfork := true;
      }
    }

    /** The kernel is told to report no more than what is wanted. */
    method TakeBack(fd: nat, gen: int, want: Mask) returns (ok: bool)
      requires Valid() && fd < |slots| && want <= RW && slots[fd].egen == gen
      modifies this`slots, kernel
      ensures Valid() && |slots| == old(|slots|) && (ok <==> fd in old(kernel.registered))
      ensures forall g :: 0 <= g < |slots| ==> slots[g].egen == old(slots)[g].egen
      ensures kernel.registered.Keys == old(kernel.registered).Keys - if want == {} then {fd} else {}
      ensures ok && want != {} ==> Armed(fd, want)
      ensures forall g: nat, m :: g != fd ==> Serves(g, m) == old(Serves(g, m))
    {
      assert RegistrationOk(fd) && SlotOk(fd);
      SetSlot(fd, want, gen);
      var answer := kernel.Ctl(if want != {} then Mod else Del, fd, want, gen);
      OthersValid(fd);
      ok := answer == OK;
    }

    /**
     * The end of epoll_poll: the descriptors on the list that count as ready, from the last one up. The
     * others are taken off, each replaced by the last entry, and their recorded masks forgotten.
     */
    method Sweep(events: seq<Mask>) returns (ready: seq<nat>)
      requires Valid() && |events| == |slots| && ServesAll(events)
      requires forall fd :: 0 <= fd < |events| ==> events[fd] <= RW
      modifies this`slots, this`eperms
      ensures Valid() && |slots| == old(|slots|) && ServesAll(events)
      ensures ready == ReadyOf(old(eperms), old(slots), events)
      ensures forall fd :: fd in eperms <==> fd in ready
      ensures forall fd :: 0 <= fd < |slots| ==> slots[fd].egen == old(slots)[fd].egen
    {
      ready := [];
      ghost var was, list := slots, eperms;
      var i := |eperms|;
      assert list == list[..i];
      while i != 0
        invariant 0 <= i <= |eperms| && i <= |list| && eperms[..i] == list[..i]
        invariant Valid() && |slots| == |was| && ServesAll(events)
        invariant SameReady(was, slots, events) && forall fd :: 0 <= fd < |slots| ==> slots[fd].egen == was[fd].egen
        invariant ready + ReadyOf(list[..i], was, events) == ReadyOf(list, was, events)
        invariant forall fd :: fd in eperms[i..] <==> fd in ready
      {
        i := i - 1;
        var fd := eperms[i];
        assert fd == eperms[..i + 1][i] == list[i];
        ReadyStep(list, i, was, events, ready);
        MovedLast(eperms, i);
        if AlwaysReady(fd, slots, events) {
          ready := ready + [fd];
        } else {
          TakeOff(i, events);
        }
      }
    }

    ghost predicate ServesAll(events: seq<Mask>)
      reads this, kernel
    {
      forall fd :: 0 <= fd < |events| ==> Serves(fd, events[fd])
    }

    /** The last entry of the list takes the place of entry i. */
    method TakeOff(i: nat, events: seq<Mask>)
      requires Valid() && i < |eperms| && |events| == |slots| && events[eperms[i]] <= RW
      requires !AlwaysReady(eperms[i], slots, events) && ServesAll(events)
      modifies this`slots, this`eperms
      ensures Valid() && |slots| == old(|slots|) && ServesAll(events)
      ensures eperms == WithoutEntry(old(eperms), i) && SameReady(old(slots), slots, events)
      ensures forall fd :: 0 <= fd < |slots| ==> slots[fd].egen == old(slots)[fd].egen
    {
      var fd := eperms[i];
      ghost var list := eperms;
      eperms := eperms[i := eperms[|eperms| - 1]][..|eperms| - 1];
      SetSlot(fd, {}, slots[fd].egen);
      forall g | g in list && g != fd ensures g in eperms {
        var k :| 0 <= k < |list| && list[k] == g;
        assert eperms[if k == |list| - 1 then i else k] == g;
      }
      forall g: nat ensures RegistrationOk(g) {
        assert old(RegistrationOk(g));
      }
      assert FdSet in EPERM_MASK * EPERM_MASK;
      forall g | 0 <= g < |events| ensures Serves(g, events[g]) {
        assert old(Serves(g, events[g]));
        assert g == fd ==> events[g] == events[g] * RW;
      }
      forall g | 0 <= g < |slots| ensures SlotOk(g) {
        assert old(SlotOk(g));
      }
    }
  }

  /** The list with its last entry in the place of entry i. */
  function WithoutEntry(l: seq<nat>, i: nat): seq<nat>
    requires i < |l|
  {
    l[i := l[|l| - 1]][..|l| - 1]
  }

  lemma MovedLast(l: seq<nat>, i: nat)
    requires i < |l|
    ensures var r := WithoutEntry(l, i); r[..i] == l[..i] && forall x :: x in r[i..] <==> x in l[i + 1..]
    ensures forall x :: x in l[i..] <==> x == l[i] || x in l[i + 1..]
  {
    var r := WithoutEntry(l, i);
    forall x | x in l[i + 1..] ensures x in r[i..] {
      var k :| i < k < |l| && l[k] == x;
      assert r[if k == |l| - 1 then i else k] == x;
    }
  }

  lemma ReadyStep(list: seq<nat>, i: nat, slots: seq<EpollSlot>, events: seq<Mask>, ready: seq<nat>)
    requires i < |list| && |slots| == |events| && forall i :: 0 <= i < |list| ==> list[i] < |slots|
    ensures ready + ReadyOf(list[..i + 1], slots, events) ==
              (if AlwaysReady(list[i], slots, events) then ready + [list[i]] else ready) +
              ReadyOf(list[..i], slots, events)
  {
    var l, rest := list[..i + 1], ReadyOf(list[..i], slots, events);
    assert l[..|l| - 1] == list[..i] && l[|l| - 1] == list[i];
    Joined(ready, [list[i]], rest);
    Joined(ready, [], rest);
  }

  lemma Joined(a: seq<nat>, b: seq<nat>, c: seq<nat>)
    ensures a + (b + c) == a + b + c && a + [] == a
  {
  }

  predicate SameReady(a: seq<EpollSlot>, b: seq<EpollSlot>, events: seq<Mask>)
    requires |a| == |b| == |events|
  {
    forall fd :: 0 <= fd < |events| ==> AlwaysReady(fd, a, events) == AlwaysReady(fd, b, events)
  }

  /** A listed descriptor that epoll refuses and that is watched: it counts as ready. */
  predicate AlwaysReady(fd: nat, slots: seq<EpollSlot>, events: seq<Mask>)
    requires fd < |slots| == |events|
  {
    slots[fd].emask * EPERM_MASK != {} && events[fd] * RW != {}
  }

  function ReadyOf(list: seq<nat>, slots: seq<EpollSlot>, events: seq<Mask>): seq<nat>
    requires |slots| == |events| && forall i :: 0 <= i < |list| ==> list[i] < |slots|
  {
    if list == [] then []
    else
      var fd := list[|list| - 1];
      (if AlwaysReady(fd, slots, events) then [fd] else []) + ReadyOf(list[..|list| - 1], slots, events)
  }
}
