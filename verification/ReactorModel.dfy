/**
 The epoll reactor as functions on its whole state. Every function follows the C function
 of the same name statement by statement; what the system calls return is an argument.
 A pointer into g_events is the index of the slot.
 */
module ReactorModel {
  import opened Prelude
  import opened EpollKernel

  datatype Callback = NoCallback | AcceptConn | RecvData | SendData

  datatype Arg = Null | Slot(index: nat)

  /** struct myevent_s */
  datatype MyEvent = MyEvent(
    fd: int, events: Mask, arg: Arg, callback: Callback, status: int,
    buf: Bytes, len: nat, lastActive: int)

  /** What happened to one connection, system call by system call. */
  datatype Turn =
    | Opened(slot: nat, fd: int, at: int)
    | Received(chunk: Bytes, at: int)
    | Sent(bytes: Bytes, at: int)
    | Closed
    | TimedOut
    | Dropped(dropped: int)

  /**
   The table (clients first, the listening slot last), the kernel and the sweep position,
   then history: the turns of every accepted connection, the connection each occupied
   slot serves, the descriptors that `acceptconn` opened and abandoned, and how often
   `eventadd` has taken its EPOLL_CTL_MOD branch, or found its call to fail.
   */
  datatype State = State(
    table: seq<MyEvent>, kernel: Kernel, checkpos: nat,
    conns: seq<seq<Turn>>, owner: map<nat, nat>, leaked: set<int>,
    mods: nat, failures: nat)

  const TIMEOUT := 60

  /** MAX_EVENTS */
  function Limit(s: State): nat
    requires |s.table| > 0
  {
    |s.table| - 1
  }

  datatype RecvResult = Data(bytes: Bytes) | Eof | Failed

  /** The answers of the environment to the system calls of one callback. */
  datatype Answer = Answer(accepted: Option<int>, nonblocking: bool, received: RecvResult, sent: int, now: int)

  // ---- history ----

  function Note(s: State, i: nat, turn: Turn): State {
    if i in s.owner && s.owner[i] < |s.conns|
    then s.(conns := s.conns[s.owner[i] := s.conns[s.owner[i]] + [turn]])
    else s
  }

  function Finish(s: State, i: nat, turn: Turn): State {
    Note(s, i, turn).(owner := s.owner - {i})
  }

  // ---- test_epoll_reactor.c ----

  function EventSet(s: State, i: nat, fd: int, callback: Callback, arg: Arg, now: int): State
    requires i < |s.table|
  {
    s.(table := s.table[i := s.table[i].(
      fd := fd, callback := callback, events := {}, arg := arg, status := 0, lastActive := now)])
  }

  function EventAdd(s: State, i: nat, mask: Mask): State
    requires i < |s.table|
  {
    var ev := s.table[i].(events := mask);
    if ev.status == 1 then
      s.(table := s.table[i := ev], kernel := CtlMod(s.kernel, ev.fd, Registration(mask, i)),
         mods := s.mods + 1, failures := s.failures + if CanMod(s.kernel, ev.fd) then 0 else 1)
    else
      s.(table := s.table[i := ev.(status := 1)], kernel := CtlAdd(s.kernel, ev.fd, Registration(mask, i)),
         failures := s.failures + if CanAdd(s.kernel, ev.fd) then 0 else 1)
  }

  function EventDel(s: State, i: nat): State
    requires i < |s.table|
  {
    var ev := s.table[i];
    if ev.status != 1 then s
    else s.(table := s.table[i := ev.(status := 0)], kernel := CtlDel(s.kernel, ev.fd))
  }

  function Close(s: State, fd: int): State {
    s.(kernel := CloseFd(s.kernel, fd))
  }

  /** The search loop of `acceptconn`: the first slot from `i` on with status 0, else the limit. */
  function FirstFree(table: seq<MyEvent>, i: nat, limit: nat): (r: nat)
    requires i <= limit <= |table|
    ensures i <= r <= limit
    ensures forall j | i <= j < r :: table[j].status != 0
    ensures r < limit ==> table[r].status == 0
    decreases limit - i
  {
    if i == limit || table[i].status == 0 then i else FirstFree(table, i + 1, limit)
  }

  /** The two `break`s of `acceptconn`: the new descriptor stays open and is forgotten. */
  function Drop(s: State, fd: int): State {
    s.(conns := s.conns + [[Dropped(fd)]], leaked := s.leaked + {fd})
  }

  function Accept(s: State, a: Answer): State
    requires |s.table| > 0
  {
    match a.accepted
    case None => s
    case Some(cfd) =>
      var s0 := s.(kernel := OpenFd(s.kernel, cfd));
      var i := FirstFree(s.table, 0, Limit(s));
      if i == Limit(s) then Drop(s0, cfd)
      else if !a.nonblocking then Drop(s0, cfd)
      else
        var s1 := EventSet(s0, i, cfd, RecvData, Slot(i), a.now);
        var s2 := EventAdd(s1, i, {IN});
        s2.(conns := s2.conns + [[Opened(i, cfd, a.now)]], owner := s2.owner[i := |s2.conns|])
  }

  /** The front of the buffer is overwritten, the rest keeps its old bytes. */
  function Overwrite(buf: Bytes, bytes: Bytes): (r: Bytes)
    requires |bytes| <= |buf|
    ensures |r| == |buf| && r[..|bytes|] == bytes && r[|bytes|..] == buf[|bytes|..]
  {
    bytes + buf[|bytes|..]
  }

  /**
   The value of the field `len` after `ev->len = len; ev->buf[len] = '\0'` with a buffer of
   `size` bytes. When the read filled the buffer, the terminator lands one byte past it, on
   the low-order byte of `len` itself (the next field, on a little-endian machine).
   */
  function StoredLen(len: nat, size: nat): (r: nat)
    ensures r <= len
    ensures r == len <==> (len < size || len % 0x100 == 0)
    ensures len >= size ==> r % 0x100 == 0 && len - r < 0x100
  {
    if len < size then len else len / 0x100 * 0x100
  }

  /** `ev->len = len; ev->buf[len] = '\0'` */
  function Terminate(ev: MyEvent, len: nat): MyEvent {
    ev.(len := StoredLen(len, |ev.buf|),
        buf := if len < |ev.buf| then ev.buf[len := 0] else ev.buf)
  }

  function Recv(s: State, fd: int, i: nat, a: Answer): State
    requires i < |s.table|
    requires a.received.Data? ==> |a.received.bytes| <= |s.table[i].buf|
  {
    match a.received
    case Data(bytes) =>
      var s0 := s.(table := s.table[i := s.table[i].(buf := Overwrite(s.table[i].buf, bytes))]);
      var s1 := EventDel(s0, i);
      var s2 := s1.(table := s1.table[i := Terminate(s1.table[i], |bytes|)]);
      var s3 := EventSet(s2, i, fd, SendData, Slot(i), a.now);
      Note(EventAdd(s3, i, {OUT}), i, Received(bytes, a.now))
    case _ =>
      var s1 := EventDel(s, i);
      Finish(Close(s1, s1.table[i].fd), i, Closed)
  }

  function Send(s: State, fd: int, i: nat, a: Answer): State
    requires i < |s.table|
    requires a.sent <= s.table[i].len <= |s.table[i].buf|
  {
    var s1 := EventDel(s, i);
    if a.sent > 0 then
      var s2 := EventSet(s1, i, fd, RecvData, Slot(i), a.now);
      Note(EventAdd(s2, i, {IN}), i, Sent(s.table[i].buf[..a.sent], a.now))
    else
      Finish(Close(s1, s1.table[i].fd), i, Closed)
  }

  /** What the system calls made by slot `i`'s callback may answer. */
  predicate LegalAnswer(s: State, i: nat, a: Answer) {
    && (a.accepted.Some? ==> a.accepted.value !in s.kernel.open)
    && (i < |s.table| && a.received.Data? ==> 0 < |a.received.bytes| <= |s.table[i].buf|)
    && (i < |s.table| ==> a.sent <= s.table[i].len)
  }

  /** The function pointer is set and its argument points into the table. */
  predicate Callable(s: State, i: nat) {
    && i < |s.table|
    && !s.table[i].callback.NoCallback?
    && s.table[i].arg.Slot?
    && s.table[i].arg.index < |s.table|
    && s.table[s.table[i].arg.index].len <= |s.table[s.table[i].arg.index].buf|
  }

  /**
   `ev->call_back(ev->fd, events, ev->arg)`. A call that is not `Callable`, or answered
   illegally, is left without effect here; ReactorDispatch.EveryCallIsDefined shows that
   no such call is made.
   */
  function CallBack(s: State, i: nat, a: Answer): (r: State)
    ensures |r.table| == |s.table|
  {
    if !Callable(s, i) || !LegalAnswer(s, s.table[i].arg.index, a) then s
    else match s.table[i].callback
      case NoCallback => s
      case AcceptConn => Accept(s, a)
      case RecvData => Recv(s, s.table[i].fd, s.table[i].arg.index, a)
      case SendData => Send(s, s.table[i].fd, s.table[i].arg.index, a)
  }

  /** Two answers, one for each of the two tests the dispatcher makes on an event. */
  datatype Answers = Answers(onIn: Answer, onOut: Answer)

  predicate Fires(s: State, e: Event, flag: Flag) {
    e.slot < |s.table| && flag in e.mask && flag in s.table[e.slot].events
  }

  function TestIn(s: State, e: Event, a: Answers): (r: State)
    ensures |r.table| == |s.table|
  {
    if Fires(s, e, IN) then CallBack(s, e.slot, a.onIn) else s
  }

  function DispatchOne(s: State, e: Event, a: Answers): (r: State)
    ensures |r.table| == |s.table|
  {
    var s1 := TestIn(s, e, a);
    if Fires(s1, e, OUT) then CallBack(s1, e.slot, a.onOut) else s1
  }

  /** The loop over a batch; every event comes with the answers its calls get. */
  function Dispatch(s: State, batch: seq<Event>, answers: seq<Answers>): (r: State)
    ensures |r.table| == |s.table|
    decreases |batch|
  {
    if batch == [] || answers == [] then s
    else Dispatch(DispatchOne(s, batch[0], answers[0]), batch[1..], answers[1..])
  }

  /** The timeout branch: the descriptor is closed before `eventdel`. */
  function Expire(s: State, i: nat): State
    requires i < |s.table|
  {
    Finish(EventDel(Close(s, s.table[i].fd), i), i, TimedOut)
  }

  /** One turn of the sweep loop, with its wrap-around and its `checkpos++`. */
  function SweepStep(s: State, now: int): State
    requires |s.table| > 1
  {
    var p := if s.checkpos == Limit(s) then 0 else s.checkpos;
    var s1 :=
      if p < |s.table| && s.table[p].status == 1 && now - s.table[p].lastActive >= TIMEOUT
      then Expire(s, p) else s;
    s1.(checkpos := p + 1)
  }

  function Sweep(s: State, now: int, width: nat): (r: State)
    requires |s.table| > 1
    ensures |r.table| == |s.table|
    decreases width
  {
    if width == 0 then s else Sweep(SweepStep(s, now), now, width - 1)
  }

  /** One iteration of the event loop: the sweep at time `now`, then a batch of events. */
  datatype Round = Round(now: int, batch: seq<Event>, answers: seq<Answers>)

  function Iterate(s: State, r: Round, width: nat): (s': State)
    requires |s.table| > 1
    ensures |s'.table| == |s.table|
  {
    Dispatch(Sweep(s, r.now, width), r.batch, r.answers)
  }

  function Exec(s: State, rounds: seq<Round>, width: nat): (s': State)
    requires |s.table| > 1
    ensures |s'.table| == |s.table|
    decreases |rounds|
  {
    if rounds == [] then s else Exec(Iterate(s, rounds[0], width), rounds[1..], width)
  }

  /** `g_events` in static storage, then `initlistensocket`. */
  function Start(limit: nat, size: nat, lfd: int, foreign: set<int>, now: int): State {
    var zero := MyEvent(0, {}, Null, NoCallback, 0, seq(size, _ => 0 as uint8), 0, 0);
    var s0 := State(seq(limit + 1, _ => zero), Kernel(foreign + {lfd}, map[]), 0, [], map[], {}, 0, 0);
    EventAdd(EventSet(s0, limit, lfd, AcceptConn, Slot(limit), now), limit, {IN})
  }
}
