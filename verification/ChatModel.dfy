/**
 The poll-based chat server as functions on its whole state, one function for each step of
 its loop. `fds` is the dense array given to `poll` (the listening socket first), `users` the
 table indexed by descriptor. `write_buf`, a pointer into another client's `buf`, is the
 descriptor of the client that owns the buffer, so that two clients can share one buffer.
 */
module ChatModel {
  import opened Prelude

  datatype Flag = IN | PRI | OUT | ERR | HUP | NVAL | RDHUP | OTHER
  type Mask = set<Flag>

  const ALL: Mask := {IN, PRI, OUT, ERR, HUP, NVAL, RDHUP, OTHER}

  /** `events |= ~flag`: sets every other bit and clears none. */
  function OrNot(events: Mask, flag: Flag): Mask {
    events + (ALL - {flag})
  }

  const BUFFER_SIZE: nat := 64

  function Zeros(n: nat): (r: Bytes)
    ensures |r| == n
    ensures forall k | 0 <= k < n :: r[k] == 0
  {
    seq(n, _ => 0)
  }

  datatype PollFd = PollFd(fd: int, events: Mask, revents: Mask)

  datatype ClientData = ClientData(address: int, writeBuf: Option<int>, buf: Bytes)

  /** Between two calls of `poll`, or at entry `i` of the pass over `fds`. */
  datatype Phase = Waiting | Visiting(i: nat)

  /**
   What happened, in order. `Left` names, too, the client whose record was copied over that of
   the one that left; `Blanked` says that a buffer was cleared and not filled again.
   */
  datatype Note =
    | Joined(joined: int, address: int)
    | Rejected(rejected: int)
    | Left(left: int, last: int)
    | Said(speaker: int, text: Bytes)
    | Blanked(blanked: int)
    | Delivered(to: int, from: int, bytes: Bytes)

  /** An entry as one turn of the loop finds it. */
  datatype Seen = Seen(fd: int, revents: Mask)

  /**
   `open` are the open descriptors. The last four fields are history: the notes of the whole
   run, the entries `poll` reported at the start of this pass, those accepted in this pass,
   and those the pass has looked at.
   */
  datatype State = State(
    lfd: int, fds: seq<PollFd>, count: nat, users: seq<ClientData>, open: set<int>, phase: Phase,
    log: seq<Note>, polled: seq<Seen>, admitted: seq<Seen>, visited: seq<Seen>)

  datatype RecvResult = Data(bytes: Bytes) | Eof | Again | Failed

  datatype Answer = Answer(accepted: Option<int>, address: int, received: RecvResult)

  datatype Action = Poll(revents: seq<Mask>) | Visit(answer: Answer)

  /** Entries `lo` to `hi - 1` of the array, as the loop would find them. */
  function Entries(fds: seq<PollFd>, lo: nat, hi: nat): (r: seq<Seen>)
    requires lo <= hi <= |fds|
    ensures |r| == hi - lo
    ensures forall k | 0 <= k < |r| :: r[k] == Seen(fds[lo + k].fd, fds[lo + k].revents)
  {
    seq(hi - lo, k requires 0 <= k < hi - lo => Seen(fds[lo + k].fd, fds[lo + k].revents))
  }

  /** What the array and the table must look like for a step to stay within them. */
  predicate InBounds(s: State) {
    && s.count < |s.fds|
    && (forall j | 1 <= j <= s.count :: 0 <= s.fds[j].fd < |s.users|)
  }

  // ---- the steps ----

  /** What `poll` writes: the `revents` fields of the entries it was given. */
  function Reported(fds: seq<PollFd>, revents: seq<Mask>): (r: seq<PollFd>)
    requires |revents| <= |fds|
    ensures |r| == |fds|
    ensures forall j | 0 <= j < |fds| :: r[j] == if j < |revents| then fds[j].(revents := revents[j]) else fds[j]
    decreases |revents|
  {
    if revents == [] then fds
    else
      var k := |revents| - 1;
      Reported(fds, revents[..k])[k := fds[k].(revents := revents[k])]
  }

  /** `poll` returns and the pass begins at entry 0. */
  function StartPass(s: State, revents: seq<Mask>): State
    requires InBounds(s) && |revents| == s.count + 1
  {
    var fds := Reported(s.fds, revents);
    s.(fds := fds, phase := Visiting(0), polled := Entries(fds, 0, s.count + 1), admitted := [], visited := [])
  }

  /** The listening socket is readable. */
  function Accept(s: State, a: Answer): State
    requires InBounds(s)
    requires a.accepted.Some? ==> 0 <= a.accepted.value < |s.users|
  {
    match a.accepted
    case None => s
    case Some(connfd) =>
      if s.count >= |s.fds| - 1 then
        // the message is sent and the descriptor closed at once
        s.(log := s.log + [Rejected(connfd)])
      else
        s.(count := s.count + 1,
           users := s.users[connfd := s.users[connfd].(address := a.address)],
           fds := s.fds[s.count + 1 := PollFd(connfd, {IN, RDHUP, ERR}, {})],
           open := s.open + {connfd},
           log := s.log + [Joined(connfd, a.address)],
           admitted := s.admitted + [Seen(connfd, {})])
  }

  /** Hang-up or read error: the record of the last client is copied over, its entry moved into the hole. */
  function Remove(s: State, i: nat): State
    requires InBounds(s) && 1 <= i <= s.count
  {
    var fd := s.fds[i].fd;
    s.(users := s.users[fd := s.users[s.fds[s.count].fd]],
       open := s.open - {fd},
       fds := s.fds[i := s.fds[s.count]],
       count := s.count - 1,
       log := s.log + [Left(fd, s.fds[s.count].fd)])
  }

  /** The broadcast loop from entry `j` on: asks for POLLOUT and points `write_buf` at the speaker. */
  function Broadcast(s: State, j: nat, speaker: int): (r: State)
    requires InBounds(s) && 1 <= j
    ensures InBounds(r) && r.count == s.count && |r.fds| == |s.fds| && |r.users| == |s.users|
    decreases s.count + 1 - j
  {
    if j > s.count then s
    else if s.fds[j].fd == speaker then Broadcast(s, j + 1, speaker)
    else
      var events := OrNot(s.fds[j].events, IN) + {OUT};
      var fd := s.fds[j].fd;
      Broadcast(
        s.(fds := s.fds[j := s.fds[j].(events := events)],
           users := s.users[fd := s.users[fd].(writeBuf := Some(speaker))]),
        j + 1, speaker)
  }

  /** `recv` into a zeroed buffer. */
  function Fill(bytes: Bytes): (r: Bytes)
    requires |bytes| <= BUFFER_SIZE
    ensures |r| == BUFFER_SIZE && bytes <= r
    ensures forall k | |bytes| <= k < BUFFER_SIZE :: r[k] == 0
  {
    bytes + Zeros(BUFFER_SIZE - |bytes|)
  }

  function Read(s: State, i: nat, a: Answer): State
    requires InBounds(s) && 1 <= i <= s.count
    requires a.received.Data? ==> |a.received.bytes| < BUFFER_SIZE
  {
    var fd := s.fds[i].fd;
    var zeroed := s.(users := s.users[fd := s.users[fd].(buf := Zeros(BUFFER_SIZE))], log := s.log + [Blanked(fd)]);
    match a.received
    case Failed => Remove(zeroed, i)
    case Data(bytes) =>
      var filled := s.(users := s.users[fd := s.users[fd].(buf := Fill(bytes))]);
      Broadcast(filled, 1, fd).(log := s.log + [Said(fd, bytes)])
    case _ => zeroed
  }

  function Write(s: State, i: nat): State
    requires InBounds(s) && 1 <= i <= s.count
  {
    var fd := s.fds[i].fd;
    match s.users[fd].writeBuf
    case None => s
    case Some(owner) =>
      if !(0 <= owner < |s.users|) then s
      else
        s.(log := s.log + [Delivered(fd, owner, CString(s.users[owner].buf))],
           users := s.users[fd := s.users[fd].(writeBuf := None)],
           fds := s.fds[i := s.fds[i].(events := OrNot(s.fds[i].events, OUT) + {IN})])
  }

  /** Which branch of the loop body entry `i` takes. */
  datatype Branch = ToAccept | ToError | ToHangUp | ToRead | ToWrite | ToNothing

  function BranchOf(e: PollFd, lfd: int): Branch {
    if e.fd == lfd && IN in e.revents then ToAccept
    else if ERR in e.revents then ToError
    else if RDHUP in e.revents then ToHangUp
    else if IN in e.revents then ToRead
    else if OUT in e.revents then ToWrite
    else ToNothing
  }

  /**
   The branch taken at entry `i`. The three client branches do not arise at entry 0 (shown in
   ChatInvariant.ListenerBranches), where they are left without effect here.
   */
  function Act(s: State, i: nat, a: Answer): State
    requires InBounds(s) && i <= s.count
    requires a.accepted.Some? ==> 0 <= a.accepted.value < |s.users|
    requires a.received.Data? ==> |a.received.bytes| < BUFFER_SIZE
  {
    match BranchOf(s.fds[i], s.lfd)
    case ToAccept => Accept(s, a)
    case ToError => s
    case ToHangUp => if i == 0 then s else Remove(s, i)
    case ToRead => if i == 0 then s else Read(s, i, a)
    case ToWrite => if i == 0 then s else Write(s, i)
    case ToNothing => s
  }

  /** One turn of the loop; after a removal `i--` undoes the `++i`, so that the moved entry is next. */
  function Turn(s: State, a: Answer): State
    requires InBounds(s) && s.phase.Visiting? && s.phase.i <= s.count
    requires a.accepted.Some? ==> 0 <= a.accepted.value < |s.users|
    requires a.received.Data? ==> |a.received.bytes| < BUFFER_SIZE
  {
    var i := s.phase.i;
    var s' := Act(s, i, a);
    var next := if s'.count < s.count then i else i + 1;
    s'.(visited := s.visited + [Seen(s.fds[i].fd, s.fds[i].revents)],
        phase := if next < s'.count + 1 then Visiting(next) else Waiting)
  }

  /** `poll` reports, of what was asked for, anything, and the three error flags in any case. */
  predicate LegalAction(s: State, action: Action) {
    match action
    case Poll(revents) =>
      && s.phase.Waiting? && s.count < |s.fds|
      && |revents| == s.count + 1
      && (forall j | 0 <= j <= s.count :: revents[j] <= s.fds[j].events + {ERR, HUP, NVAL})
    case Visit(a) =>
      && s.phase.Visiting?
      && (a.accepted.Some? ==> a.accepted.value !in s.open && 0 <= a.accepted.value < |s.users|)
      && (a.received.Data? ==> 0 < |a.received.bytes| < BUFFER_SIZE)
  }

  function Step(s: State, action: Action): State {
    if !InBounds(s) || !LegalAction(s, action) then s
    else match action
      case Poll(revents) => StartPass(s, revents)
      case Visit(a) => if s.phase.i <= s.count then Turn(s, a) else s
  }

  function Exec(s: State, actions: seq<Action>): State
    decreases |actions|
  {
    if actions == [] then s else Exec(Step(s, actions[0]), actions[1..])
  }

  ghost predicate LegalRun(s: State, actions: seq<Action>)
    decreases |actions|
  {
    actions != [] ==> LegalAction(s, actions[0]) && LegalRun(Step(s, actions[0]), actions[1..])
  }

  /** The state before the first `poll`; `users` is taken to be zeroed. */
  function Start(limit: nat, fdLimit: nat, lfd: int, foreign: set<int>): State {
    var none := PollFd(-1, {}, {});
    State(lfd, [PollFd(lfd, {IN, ERR}, {})] + seq(limit, _ => none), 0,
          seq(fdLimit, _ => ClientData(0, None, Zeros(BUFFER_SIZE))), foreign + {lfd}, Waiting, [], [], [], [])
  }
}
