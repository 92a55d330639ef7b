/**
 The EPOLLONESHOT server as a transition system: the dispatching thread, any number of worker
 threads, the kernel and the peers take steps in any order. Each step is one system call or
 one access to shared memory.
 */
module OneShotModel {
  import opened Prelude

  const BUFFER_SIZE: nat := 10

  /** An accepted socket: the connection it belongs to, its unread bytes, whether the peer has closed. */
  datatype Sock = Sock(conn: nat, queue: Bytes, eof: bool)

  /** Its edge-triggered one-shot registration: enabled, and on the ready list. */
  datatype Reg = Reg(armed: bool, ready: bool)

  /** What `epoll_wait` returns: the listening socket, or a client socket with or without EPOLLIN. */
  datatype Report = Listener | Client(fd: int, readable: bool)

  /**
   Where a worker is: about to copy its argument, at `recv`, with a chunk to print and
   process, at `close`, at `reset_onshot`, or finished.
   */
  datatype Pc = Starting | Reading | Holding(chunk: Bytes) | Closing | Rearming | Done

  /** `history` is history only: the chunks this worker has read. */
  datatype Worker = Worker(pc: Pc, fd: int, buf: Bytes, history: seq<Bytes>)

  /** The life of one connection: bytes arrived, chunks received, chunks processed. */
  datatype Conn = Conn(arrived: Bytes, received: seq<Bytes>, processed: seq<Bytes>)

  /**
   `cell` is the dispatcher's local `fds_for_new_worker`, whose address every worker is given.
   The last three fields are history: the connections, the worker started for each socket
   being served, and the sockets whose report carried no EPOLLIN.
   */
  datatype State = State(
    socks: map<int, Sock>, regs: map<int, Reg>, batch: seq<Report>, cell: int, workers: seq<Worker>,
    conns: seq<Conn>, serving: map<int, nat>, abandoned: set<int>)

  datatype Incoming = Nobody | Peer(fd: int, queue: Bytes, eof: bool)

  /**
   The steps: bytes arrive, a peer closes, an error edge wakes a socket; the dispatcher waits
   for a batch and handles its first report; worker `w` makes its next move, taking `n` bytes
   if it is at `recv` and there are any.
   */
  datatype Action =
    | Arrive(fd: int, bytes: Bytes)
    | PeerCloses(fd: int)
    | ErrorEdge(fd: int)
    | Wait(reports: seq<Report>)
    | Handle(incoming: Incoming)
    | Move(w: nat, n: nat)

  predicate Readable(s: State, fd: int) {
    fd in s.socks && (s.socks[fd].queue != [] || s.socks[fd].eof)
  }

  function Init(): State {
    State(map[], map[], [], -1, [], [], map[], {})
  }

  // ---- the kernel ----

  /** An edge puts an enabled registration on the ready list, and is lost on a disabled one. */
  function Edge(regs: map<int, Reg>, fd: int): map<int, Reg> {
    if fd in regs && regs[fd].armed then regs[fd := Reg(true, true)] else regs
  }

  function ArriveBytes(s: State, fd: int, bytes: Bytes): State
    requires fd in s.socks && s.socks[fd].conn < |s.conns|
  {
    var k := s.socks[fd];
    s.(socks := s.socks[fd := k.(queue := k.queue + bytes)],
       regs := Edge(s.regs, fd),
       conns := s.conns[k.conn := s.conns[k.conn].(arrived := s.conns[k.conn].arrived + bytes)])
  }

  /** Reporting a one-shot registration disables it. */
  function Disarm(regs: map<int, Reg>, reports: seq<Report>): map<int, Reg>
    decreases |reports|
  {
    if reports == [] then regs
    else
      var r := reports[|reports| - 1];
      var rest := Disarm(regs, reports[..|reports| - 1]);
      if r.Client? && r.fd in rest then rest[r.fd := Reg(false, false)] else rest
  }

  // ---- the dispatcher ----

  /** `accept` and `addfd`: the registration is enabled, and ready if there is something to read. */
  function AddFd(s: State, p: Incoming): State
    requires p.Peer?
  {
    s.(socks := s.socks[p.fd := Sock(|s.conns|, p.queue, p.eof)],
       regs := s.regs[p.fd := Reg(true, p.queue != [] || p.eof)],
       conns := s.conns + [Conn(p.queue, [], [])])
  }

  function ZeroBuffer(): (r: Bytes)
    ensures |r| == BUFFER_SIZE
    ensures forall k | 0 <= k < |r| :: r[k] == 0
  {
    seq(BUFFER_SIZE, _ => 0)
  }

  /** The first report of the batch: accept, or start a worker, or "something else". */
  function HandleReport(s: State, incoming: Incoming): State
    requires s.batch != []
  {
    var s' := s.(batch := s.batch[1..]);
    match s.batch[0]
    case Listener => if incoming.Peer? then AddFd(s', incoming) else s'
    case Client(fd, readable) =>
      if readable then
        s'.(cell := fd,
            workers := s.workers + [Worker(Starting, -1, ZeroBuffer(), [])],
            serving := s.serving[fd := |s.workers|])
      else
        s'.(abandoned := s.abandoned + {fd})
  }

  // ---- a worker ----

  function WithWorker(s: State, w: nat, worker: Worker): State
    requires w < |s.workers|
  {
    s.(workers := s.workers[w := worker])
  }

  /** `recv` of `n` bytes into the front of the buffer, which is not cleared between reads. */
  function Take(s: State, w: nat, n: nat): State
    requires w < |s.workers| && s.workers[w].fd in s.socks && |s.workers[w].buf| == BUFFER_SIZE
    requires 0 < n <= |s.socks[s.workers[w].fd].queue| && n < BUFFER_SIZE
    requires s.socks[s.workers[w].fd].conn < |s.conns|
  {
    var me := s.workers[w];
    var k := s.socks[me.fd];
    var chunk := k.queue[..n];
    var c := s.conns[k.conn];
    WithWorker(s, w, me.(pc := Holding(chunk), buf := chunk + me.buf[n..], history := me.history + [chunk])).(
      socks := s.socks[me.fd := k.(queue := k.queue[n..])],
      conns := s.conns[k.conn := c.(received := c.received + [chunk])])
  }

  /** `recv`: data, else end of file, else EAGAIN; on a descriptor that is closed the loop just goes round. */
  function Read(s: State, w: nat, n: nat): State
    requires w < |s.workers| && |s.workers[w].buf| == BUFFER_SIZE
    requires s.workers[w].fd in s.socks ==> s.socks[s.workers[w].fd].conn < |s.conns|
  {
    var me := s.workers[w];
    if me.fd !in s.socks then s
    else
      var k := s.socks[me.fd];
      if k.queue != [] then (if 0 < n <= |k.queue| && n < BUFFER_SIZE then Take(s, w, n) else s)
      else if k.eof then WithWorker(s, w, me.(pc := Closing))
      else WithWorker(s, w, me.(pc := Rearming))
  }

  /** The chunk is printed and processed. */
  function Process(s: State, w: nat): State
    requires w < |s.workers| && s.workers[w].pc.Holding?
  {
    var me := s.workers[w];
    var s' := WithWorker(s, w, me.(pc := Reading));
    if me.fd in s.socks && s.socks[me.fd].conn < |s.conns| then
      var c := s.conns[s.socks[me.fd].conn];
      s'.(conns := s.conns[s.socks[me.fd].conn := c.(processed := c.processed + [me.pc.chunk])])
    else s'
  }

  /** `close` takes the descriptor and its registration away. */
  function CloseSocket(s: State, w: nat): State
    requires w < |s.workers|
  {
    var me := s.workers[w];
    WithWorker(s, w, me.(pc := Done)).(
      socks := s.socks - {me.fd}, regs := s.regs - {me.fd},
      serving := s.serving - {me.fd}, abandoned := s.abandoned - {me.fd})
  }

  /** EPOLL_CTL_MOD enables the registration again and looks whether there is something to read. */
  function ResetOneshot(s: State, w: nat): State
    requires w < |s.workers|
  {
    var me := s.workers[w];
    var s' := WithWorker(s, w, me.(pc := Done)).(serving := s.serving - {me.fd});
    if me.fd in s.regs then
      s'.(regs := s.regs[me.fd := Reg(true, Readable(s, me.fd))], abandoned := s.abandoned - {me.fd})
    else s'
  }

  function MoveWorker(s: State, w: nat, n: nat): State
    requires w < |s.workers| && |s.workers[w].buf| == BUFFER_SIZE
    requires s.workers[w].fd in s.socks ==> s.socks[s.workers[w].fd].conn < |s.conns|
  {
    match s.workers[w].pc
    case Starting => WithWorker(s, w, s.workers[w].(pc := Reading, fd := s.cell))
    case Reading => Read(s, w, n)
    case Holding(_) => Process(s, w)
    case Closing => CloseSocket(s, w)
    case Rearming => ResetOneshot(s, w)
    case Done => s
  }

  // ---- runs ----

  /** What the kernel may report: enabled registrations on the ready list, each once, with EPOLLIN if readable. */
  ghost predicate LegalReports(s: State, reports: seq<Report>) {
    && (forall j | 0 <= j < |reports| && reports[j].Client? ::
          && reports[j].fd in s.regs && s.regs[reports[j].fd].armed && s.regs[reports[j].fd].ready
          && (Readable(s, reports[j].fd) ==> reports[j].readable))
    && (forall j, k | 0 <= j < k < |reports| && reports[j].Client? && reports[k].Client? ::
          reports[j].fd != reports[k].fd)
  }

  ghost predicate Legal(s: State, a: Action) {
    match a
    case Arrive(fd, bytes) => fd in s.socks && !s.socks[fd].eof && s.socks[fd].conn < |s.conns|
    case PeerCloses(fd) => fd in s.socks
    case ErrorEdge(fd) => fd in s.socks
    case Wait(reports) => s.batch == [] && LegalReports(s, reports)
    case Handle(incoming) => s.batch != [] && (incoming.Peer? ==> incoming.fd !in s.socks)
    case Move(w, n) =>
      && w < |s.workers| && |s.workers[w].buf| == BUFFER_SIZE
      && (s.workers[w].fd in s.socks ==> s.socks[s.workers[w].fd].conn < |s.conns|)
  }

  function Step(s: State, a: Action): State
    requires Legal(s, a)
  {
    match a
    case Arrive(fd, bytes) => ArriveBytes(s, fd, bytes)
    case PeerCloses(fd) => s.(socks := s.socks[fd := s.socks[fd].(eof := true)], regs := Edge(s.regs, fd))
    case ErrorEdge(fd) => s.(regs := Edge(s.regs, fd))
    case Wait(reports) => s.(batch := reports, regs := Disarm(s.regs, reports))
    case Handle(incoming) => HandleReport(s, incoming)
    case Move(w, n) => MoveWorker(s, w, n)
  }

  /**
   The hand-over is by value in effect when a worker has copied its argument before the
   dispatcher reuses the variable for the next one.
   */
  ghost predicate Prompt(s: State, a: Action) {
    a.Handle? && s.batch != [] && s.batch[0].Client? && s.batch[0].readable ==>
      forall w: nat | w < |s.workers| :: !s.workers[w].pc.Starting?
  }

  ghost predicate LegalRun(s: State, actions: seq<Action>)
    decreases |actions|
  {
    actions != [] ==> Legal(s, actions[0]) && LegalRun(Step(s, actions[0]), actions[1..])
  }

  ghost function Exec(s: State, actions: seq<Action>): State
    requires LegalRun(s, actions)
    decreases |actions|
  {
    if actions == [] then s else Exec(Step(s, actions[0]), actions[1..])
  }

  ghost predicate PromptRun(s: State, actions: seq<Action>)
    requires LegalRun(s, actions)
    decreases |actions|
  {
    actions != [] ==> Prompt(s, actions[0]) && PromptRun(Step(s, actions[0]), actions[1..])
  }
}
