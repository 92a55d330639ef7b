/** The part of the kernel the reactor talks to: open descriptors and one epoll interest set. */
module EpollKernel {

  datatype Flag = IN | OUT | ERR | HUP
  type Mask = set<Flag>

  /** One epoll registration; `slot` is the user pointer stored in `data.ptr`. */
  datatype Registration = Registration(mask: Mask, slot: nat)

  datatype Kernel = Kernel(open: set<int>, interest: map<int, Registration>)

  /** One entry filled in by `epoll_wait`; `fd` names the registration it reports. */
  datatype Event = Event(fd: int, slot: nat, mask: Mask)

  predicate CanAdd(k: Kernel, fd: int) { fd in k.open && fd !in k.interest }

  predicate CanMod(k: Kernel, fd: int) { fd in k.interest }

  /** EPOLL_CTL_ADD fails, changing nothing, on a closed or an already registered descriptor. */
  function CtlAdd(k: Kernel, fd: int, r: Registration): Kernel {
    if CanAdd(k, fd) then k.(interest := k.interest[fd := r]) else k
  }

  /** EPOLL_CTL_MOD fails, changing nothing, on an unregistered descriptor. */
  function CtlMod(k: Kernel, fd: int, r: Registration): Kernel {
    if CanMod(k, fd) then k.(interest := k.interest[fd := r]) else k
  }

  function CtlDel(k: Kernel, fd: int): Kernel {
    k.(interest := k.interest - {fd})
  }

  /** `close` also drops the registration of the descriptor. */
  function CloseFd(k: Kernel, fd: int): Kernel {
    Kernel(k.open - {fd}, k.interest - {fd})
  }

  function OpenFd(k: Kernel, fd: int): Kernel {
    k.(open := k.open + {fd})
  }

  /** A report carries the registered pointer, and of IN/OUT only what was asked for. */
  predicate LegalEvent(k: Kernel, e: Event) {
    && e.fd in k.interest
    && e.slot == k.interest[e.fd].slot
    && e.mask <= k.interest[e.fd].mask + {ERR, HUP}
  }

  /** What `epoll_wait` may return: legal reports, at most one for each registration. */
  ghost predicate LegalBatch(k: Kernel, batch: seq<Event>) {
    && (forall j | 0 <= j < |batch| :: LegalEvent(k, batch[j]))
    && (forall j, l | 0 <= j < l < |batch| :: batch[j].fd != batch[l].fd)
  }
}
