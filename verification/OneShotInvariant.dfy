/** What every reachable state of the one-shot server satisfies when hand-overs are prompt. */
module OneShotInvariant {
  import opened Prelude
  import opened OneShotModel

  predicate Active(worker: Worker) { !worker.pc.Done? }

  /** The socket a worker works on, or will once it has copied its argument. */
  function Target(s: State, w: nat): int
    requires w < |s.workers|
  {
    if s.workers[w].pc.Starting? then s.cell else s.workers[w].fd
  }

  ghost predicate InBatch(s: State, fd: int) {
    exists j :: 0 <= j < |s.batch| && s.batch[j].Client? && s.batch[j].fd == fd
  }

  predicate Armed(s: State, fd: int) {
    fd in s.regs && s.regs[fd].armed
  }

  /** Workers and the sockets they serve are in one-to-one correspondence; at most one is still starting. */
  ghost predicate Serving(s: State) {
    && (forall w: nat | w < |s.workers| && Active(s.workers[w]) ::
          Target(s, w) in s.serving && s.serving[Target(s, w)] == w)
    && (forall fd | fd in s.serving ::
          && s.serving[fd] < |s.workers|
          && Active(s.workers[s.serving[fd]])
          && Target(s, s.serving[fd]) == fd)
    && (forall w: nat, v: nat | w < |s.workers| && v < |s.workers| ::
          s.workers[w].pc.Starting? && s.workers[v].pc.Starting? ==> w == v)
    && (forall w: nat | w < |s.workers| :: |s.workers[w].buf| == BUFFER_SIZE)
  }

  /** The right to touch an open socket is in exactly one place. */
  ghost predicate OneToken(s: State) {
    && s.regs.Keys == s.socks.Keys
    && s.serving.Keys <= s.socks.Keys
    && s.abandoned <= s.socks.Keys
    && (forall j | 0 <= j < |s.batch| && s.batch[j].Client? ::
          && s.batch[j].fd in s.socks
          && !Armed(s, s.batch[j].fd) && s.batch[j].fd !in s.serving && s.batch[j].fd !in s.abandoned)
    && (forall j, k | 0 <= j < k < |s.batch| && s.batch[j].Client? && s.batch[k].Client? :: s.batch[j].fd != s.batch[k].fd)
    && (forall fd | fd in s.serving :: !Armed(s, fd) && fd !in s.abandoned)
    && (forall fd | fd in s.abandoned :: !Armed(s, fd))
    && (forall fd | fd in s.socks :: Armed(s, fd) || InBatch(s, fd) || fd in s.serving || fd in s.abandoned)
  }

  /** An enabled registration with something to read is on the ready list. */
  ghost predicate Awake(s: State) {
    forall fd | Armed(s, fd) && Readable(s, fd) :: s.regs[fd].ready
  }

  /** The chunk a worker has received and not yet processed. */
  function InHand(s: State, fd: int): seq<Bytes> {
    if fd in s.serving && s.serving[fd] < |s.workers| && s.workers[s.serving[fd]].pc.Holding?
    then [s.workers[s.serving[fd]].pc.chunk] else []
  }

  /** Sockets belong to different connections, of which nothing is lost, duplicated or reordered. */
  ghost predicate Streams(s: State) {
    && (forall fd | fd in s.socks :: s.socks[fd].conn < |s.conns|)
    && (forall fd, gd | fd in s.socks && gd in s.socks && s.socks[fd].conn == s.socks[gd].conn :: fd == gd)
    && (forall fd | fd in s.socks ::
          var c := s.conns[s.socks[fd].conn];
          && c.arrived == Flatten(c.received) + s.socks[fd].queue
          && c.received == c.processed + InHand(s, fd))
    && (forall c: nat | c < |s.conns| && (forall fd | fd in s.socks :: s.socks[fd].conn != c) ::
          s.conns[c].arrived == Flatten(s.conns[c].received) && s.conns[c].received == s.conns[c].processed)
  }

  /** A worker past `recv` has seen its socket empty, and one about to close it has seen its end. */
  ghost predicate Positions(s: State) {
    forall w: nat | w < |s.workers| && s.workers[w].pc.Closing? ::
      s.workers[w].fd in s.socks ==> s.socks[s.workers[w].fd].eof && s.socks[s.workers[w].fd].queue == []
  }

  ghost predicate Inv(s: State) {
    Serving(s) && OneToken(s) && Awake(s) && Streams(s) && Positions(s)
  }

  lemma InitInv()
    ensures Inv(Init())
  {
  }

  // ---- kernel steps ----

  lemma EdgeEffect(regs: map<int, Reg>, fd: int)
    ensures Edge(regs, fd).Keys == regs.Keys
    ensures forall g | g in regs :: Edge(regs, fd)[g].armed == regs[g].armed
    ensures forall g | g in regs :: Edge(regs, fd)[g].ready == (regs[g].ready || (g == fd && regs[g].armed))
  {
  }

  lemma SameTokens(s: State, s': State)
    requires OneToken(s)
    requires s'.batch == s.batch && s'.serving == s.serving && s'.abandoned == s.abandoned
    requires s'.socks.Keys == s.socks.Keys && s'.regs.Keys == s.regs.Keys
    requires forall fd | fd in s.regs :: s'.regs[fd].armed == s.regs[fd].armed
    ensures OneToken(s')
  {
    forall fd | fd in s'.socks
      ensures Armed(s', fd) || InBatch(s', fd) || fd in s'.serving || fd in s'.abandoned
    {
      assert Armed(s', fd) == Armed(s, fd);
      if InBatch(s, fd) {
        var j :| 0 <= j < |s.batch| && s.batch[j].Client? && s.batch[j].fd == fd;
        assert s'.batch[j].fd == fd;
      }
    }
  }

  lemma SameWorkers(s: State, s': State)
    requires Serving(s)
    requires s'.workers == s.workers && s'.serving == s.serving && s'.cell == s.cell
    ensures Serving(s')
  {
    assert forall w: nat | w < |s.workers| :: Target(s', w) == Target(s, w);
  }

  /** An edge at `fd`, where alone something may have become readable, wakes what must be awake. */
  lemma EdgeAwake(s: State, s': State, fd: int)
    requires Awake(s) && s'.regs == Edge(s.regs, fd) && s'.socks.Keys == s.socks.Keys
    requires forall g | g in s.socks && g != fd :: s'.socks[g] == s.socks[g]
    ensures Awake(s')
  {
    EdgeEffect(s.regs, fd);
    forall g | Armed(s', g) && Readable(s', g) ensures s'.regs[g].ready {
      if g != fd {
        assert Armed(s, g) && Readable(s, g);
      }
    }
  }

  lemma EdgeTokens(s: State, s': State, fd: int)
    requires OneToken(s) && s'.regs == Edge(s.regs, fd) && s'.socks.Keys == s.socks.Keys
    requires s'.batch == s.batch && s'.serving == s.serving && s'.abandoned == s.abandoned
    ensures OneToken(s')
  {
    hide OneToken;
    EdgeEffect(s.regs, fd);
    SameTokens(s, s');
  }

  lemma ArrivePositions(s: State, fd: int, bytes: Bytes)
    requires Positions(s) && Legal(s, Arrive(fd, bytes))
    ensures Positions(ArriveBytes(s, fd, bytes))
  {
  }

  lemma ArriveInv(s: State, fd: int, bytes: Bytes)
    requires Inv(s) && Legal(s, Arrive(fd, bytes))
    ensures Inv(ArriveBytes(s, fd, bytes))
  {
    hide Serving, OneToken, Awake, Streams, Positions, Edge;
    var s' := ArriveBytes(s, fd, bytes);
    assert s'.socks.Keys == s.socks.Keys;
    SameWorkers(s, s');
    EdgeTokens(s, s', fd);
    EdgeAwake(s, s', fd);
    ArriveStreams(s, fd, bytes);
    ArrivePositions(s, fd, bytes);
  }

  lemma ArriveStreams(s: State, fd: int, bytes: Bytes)
    requires Streams(s) && Legal(s, Arrive(fd, bytes))
    ensures Streams(ArriveBytes(s, fd, bytes))
  {
    var s' := ArriveBytes(s, fd, bytes);
    forall g | g in s'.socks
      ensures s'.conns[s'.socks[g].conn].arrived == Flatten(s'.conns[s'.socks[g].conn].received) + s'.socks[g].queue
      ensures s'.conns[s'.socks[g].conn].received == s'.conns[s'.socks[g].conn].processed + InHand(s', g)
    {
      assert InHand(s', g) == InHand(s, g);
    }
    forall c: nat | c < |s'.conns| && (forall g | g in s'.socks :: s'.socks[g].conn != c)
      ensures s'.conns[c].arrived == Flatten(s'.conns[c].received) && s'.conns[c].received == s'.conns[c].processed
    {
      assert s'.socks[fd].conn != c;
      forall g | g in s.socks ensures s.socks[g].conn != c {
        assert s'.socks[g].conn != c;
      }
    }
  }

  /** Streams depend on the sockets, the connections and the chunks in hand only. */
  lemma SameStreams(s: State, s': State)
    requires Streams(s)
    requires s'.conns == s.conns && s'.socks.Keys == s.socks.Keys
    requires forall fd | fd in s.socks :: s'.socks[fd].conn == s.socks[fd].conn && s'.socks[fd].queue == s.socks[fd].queue
    requires forall fd | fd in s.socks :: InHand(s', fd) == InHand(s, fd)
    ensures Streams(s')
  {
    forall c: nat | c < |s'.conns| && (forall g | g in s'.socks :: s'.socks[g].conn != c)
      ensures s'.conns[c].arrived == Flatten(s'.conns[c].received) && s'.conns[c].received == s'.conns[c].processed
    {
      forall g | g in s.socks ensures s.socks[g].conn != c {
        assert s'.socks[g].conn != c;
      }
    }
  }

  lemma PeerClosesPositions(s: State, fd: int)
    requires Positions(s) && fd in s.socks
    ensures Positions(Step(s, PeerCloses(fd)))
  {
  }

  lemma PeerClosesInv(s: State, fd: int)
    requires Inv(s) && Legal(s, PeerCloses(fd))
    ensures Inv(Step(s, PeerCloses(fd)))
  {
    hide Serving, OneToken, Awake, Streams, Positions, Edge;
    var s' := Step(s, PeerCloses(fd));
    assert s'.socks.Keys == s.socks.Keys;
    SameWorkers(s, s');
    EdgeTokens(s, s', fd);
    EdgeAwake(s, s', fd);
    SameStreams(s, s');
    PeerClosesPositions(s, fd);
  }

  lemma ErrorEdgeInv(s: State, fd: int)
    requires Inv(s) && Legal(s, ErrorEdge(fd))
    ensures Inv(Step(s, ErrorEdge(fd)))
  {
    hide Serving, OneToken, Awake, Streams, Edge;
    var s' := Step(s, ErrorEdge(fd));
    SameWorkers(s, s');
    EdgeTokens(s, s', fd);
    EdgeAwake(s, s', fd);
    SameStreams(s, s');
  }

  ghost predicate Reports(reports: seq<Report>, fd: int) {
    exists j :: 0 <= j < |reports| && reports[j].Client? && reports[j].fd == fd
  }

  lemma LastReport(reports: seq<Report>, fd: int)
    requires Reports(reports, fd)
    ensures Reports(reports[..|reports| - 1], fd) || (reports[|reports| - 1].Client? && reports[|reports| - 1].fd == fd)
  {
    var rest := reports[..|reports| - 1];
    var j :| 0 <= j < |reports| && reports[j].Client? && reports[j].fd == fd;
    if j < |rest| {
      assert rest[j].fd == fd;
    }
  }

  lemma {:induction false} DisarmEffect(regs: map<int, Reg>, reports: seq<Report>)
    ensures Disarm(regs, reports).Keys == regs.Keys
    ensures forall fd | fd in regs ::
              Disarm(regs, reports)[fd] == if Reports(reports, fd) then Reg(false, false) else regs[fd]
    decreases |reports|
  {
    if reports == [] {
    } else {
      var n := |reports| - 1;
      var rest := reports[..n];
      DisarmEffect(regs, rest);
      forall fd | fd in regs
        ensures Disarm(regs, reports)[fd] == if Reports(reports, fd) then Reg(false, false) else regs[fd]
      {
        if Reports(rest, fd) {
          var j :| 0 <= j < |rest| && rest[j].Client? && rest[j].fd == fd;
          assert reports[j].fd == fd;
        }
        if Reports(reports, fd) && !Reports(rest, fd) {
          LastReport(reports, fd);
        }
        if reports[n].Client? && reports[n].fd == fd {
          assert Reports(reports, fd);
        }
      }
    }
  }

  lemma WaitTokens(s: State, reports: seq<Report>)
    requires OneToken(s) && Legal(s, Wait(reports))
    ensures OneToken(Step(s, Wait(reports)))
  {
    hide Disarm;
    var s' := Step(s, Wait(reports));
    DisarmEffect(s.regs, reports);
    forall fd | fd in s'.socks
      ensures Armed(s', fd) || InBatch(s', fd) || fd in s'.serving || fd in s'.abandoned
    {
      if Reports(reports, fd) {
        assert InBatch(s', fd);
      } else {
        assert s'.regs[fd] == s.regs[fd];
      }
    }
    forall j | 0 <= j < |reports| && reports[j].Client? ensures !Armed(s', reports[j].fd) {
      assert Reports(reports, reports[j].fd);
    }
  }

  lemma WaitAwake(s: State, reports: seq<Report>)
    requires OneToken(s) && Awake(s) && Legal(s, Wait(reports))
    ensures Awake(Step(s, Wait(reports)))
  {
    hide Disarm, LegalReports;
    var s' := Step(s, Wait(reports));
    DisarmEffect(s.regs, reports);
    forall g | Armed(s', g) && Readable(s', g) ensures s'.regs[g].ready {
      assert s'.regs[g] == s.regs[g];
      assert Armed(s, g) && Readable(s, g);
    }
  }

  lemma WaitInv(s: State, reports: seq<Report>)
    requires Inv(s) && Legal(s, Wait(reports))
    ensures Inv(Step(s, Wait(reports)))
  {
    hide Serving, OneToken, Awake, Streams, LegalReports, Disarm;
    var s' := Step(s, Wait(reports));
    SameWorkers(s, s');
    WaitTokens(s, reports);
    WaitAwake(s, reports);
    SameStreams(s, s');
  }

  // ---- the dispatcher ----

  lemma BatchTail(s: State, s': State, fd: int)
    requires s.batch != [] && InBatch(s, fd) && s'.batch == s.batch[1..]
    ensures (s.batch[0].Client? && s.batch[0].fd == fd) || InBatch(s', fd)
  {
    var j :| 0 <= j < |s.batch| && s.batch[j].Client? && s.batch[j].fd == fd;
    if j > 0 {
      assert s'.batch[j - 1].fd == fd;
    }
  }

  /** The token of the first report goes to a worker, or is lost, or there was none. */
  lemma HandleTokens(s: State, p: Incoming)
    requires OneToken(s) && Legal(s, Handle(p))
    ensures OneToken(HandleReport(s, p))
  {
    hide OneToken;
    if s.batch[0].Listener? && p.Peer? {
      AcceptTokens(s, p);
    } else {
      PassTokens(s, p);
    }
  }

  lemma AcceptTokens(s: State, p: Incoming)
    requires OneToken(s) && Legal(s, Handle(p)) && s.batch[0].Listener? && p.Peer?
    ensures OneToken(HandleReport(s, p))
  {
    var s' := HandleReport(s, p);
    forall g | g in s'.socks ensures Armed(s', g) || InBatch(s', g) || g in s'.serving || g in s'.abandoned {
      if g != p.fd && InBatch(s, g) {
        BatchTail(s, s', g);
      }
    }
  }

  lemma PassTokens(s: State, p: Incoming)
    requires OneToken(s) && Legal(s, Handle(p)) && !(s.batch[0].Listener? && p.Peer?)
    ensures OneToken(HandleReport(s, p))
  {
    var s' := HandleReport(s, p);
    forall g | g in s'.socks ensures Armed(s', g) || InBatch(s', g) || g in s'.serving || g in s'.abandoned {
      if InBatch(s, g) {
        BatchTail(s, s', g);
      }
    }
  }

  lemma HandleServing(s: State, p: Incoming)
    requires Serving(s) && OneToken(s) && Legal(s, Handle(p)) && Prompt(s, Handle(p))
    ensures Serving(HandleReport(s, p))
  {
    var s' := HandleReport(s, p);
    if s.batch[0].Client? && s.batch[0].readable {
      forall w: nat | w < |s'.workers| && Active(s'.workers[w])
        ensures Target(s', w) in s'.serving && s'.serving[Target(s', w)] == w
      {
        if w < |s.workers| {
          assert s'.workers[w] == s.workers[w] && !s.workers[w].pc.Starting?;
          assert Target(s', w) == Target(s, w);
        }
      }
      forall g | g in s'.serving
        ensures s'.serving[g] < |s'.workers| && Active(s'.workers[s'.serving[g]]) && Target(s', s'.serving[g]) == g
      {
        if g != s.batch[0].fd {
          assert Target(s, s.serving[g]) == g;
        }
      }
    } else {
      SameWorkers(s, s');
    }
  }

  lemma HandleAwake(s: State, p: Incoming)
    requires Awake(s) && Legal(s, Handle(p))
    ensures Awake(HandleReport(s, p))
  {
    var s' := HandleReport(s, p);
    forall g | Armed(s', g) && Readable(s', g) ensures s'.regs[g].ready {
      if !(s.batch[0].Listener? && p.Peer? && g == p.fd) {
        assert Armed(s, g) && Readable(s, g);
      }
    }
  }

  lemma HandlePositions(s: State, p: Incoming)
    requires Positions(s) && Serving(s) && OneToken(s) && Legal(s, Handle(p))
    ensures Positions(HandleReport(s, p))
  {
    var s' := HandleReport(s, p);
    forall w: nat | w < |s'.workers| && s'.workers[w].pc.Closing?
      ensures s'.workers[w].fd in s'.socks ==> s'.socks[s'.workers[w].fd].eof && s'.socks[s'.workers[w].fd].queue == []
    {
      assert w < |s.workers| && s'.workers[w] == s.workers[w];
      assert Target(s, w) in s.socks;
    }
  }

  lemma HandleStreams(s: State, p: Incoming)
    requires Streams(s) && Serving(s) && OneToken(s) && Legal(s, Handle(p))
    ensures Streams(HandleReport(s, p))
  {
    if s.batch[0].Listener? && p.Peer? {
      AcceptStreams(s, p);
    } else {
      var s' := HandleReport(s, p);
      forall g | g in s.socks ensures InHand(s', g) == InHand(s, g) {
      }
      hide Streams;
      SameStreams(s, s');
    }
  }

  lemma HandleInv(s: State, p: Incoming)
    requires Inv(s) && Legal(s, Handle(p)) && Prompt(s, Handle(p))
    ensures Inv(HandleReport(s, p))
  {
    hide Serving, OneToken, Awake, Streams, Positions, HandleReport, Prompt;
    HandleServing(s, p);
    HandleTokens(s, p);
    HandleAwake(s, p);
    HandleStreams(s, p);
    HandlePositions(s, p);
  }

  lemma NothingFlattened()
    ensures Flatten([]) == []
  {
  }

  lemma AcceptStreams(s: State, p: Incoming)
    requires Streams(s) && Serving(s) && OneToken(s)
    requires s.batch != [] && s.batch[0].Listener? && p.Peer? && p.fd !in s.socks
    ensures Streams(HandleReport(s, p))
  {
    hide Flatten, Serving;
    var s' := HandleReport(s, p);
    NothingFlattened();
    forall g | g in s'.socks
      ensures s'.conns[s'.socks[g].conn].arrived == Flatten(s'.conns[s'.socks[g].conn].received) + s'.socks[g].queue
      ensures s'.conns[s'.socks[g].conn].received == s'.conns[s'.socks[g].conn].processed + InHand(s', g)
    {
      assert InHand(s', g) == InHand(s, g);
      assert g == p.fd ==> InHand(s, g) == [];
    }
    forall c: nat | c < |s'.conns| && (forall g | g in s'.socks :: s'.socks[g].conn != c)
      ensures s'.conns[c].arrived == Flatten(s'.conns[c].received) && s'.conns[c].received == s'.conns[c].processed
    {
      assert s'.socks[p.fd].conn != c;
      forall g | g in s.socks ensures s.socks[g].conn != c {
        assert s'.socks[g].conn != c;
      }
    }
  }

  // ---- a worker ----

  /** A worker that moves on without leaving its socket keeps the correspondence. */
  lemma SameServing(s: State, s': State, w: nat)
    requires Serving(s) && w < |s.workers|
    requires s'.serving == s.serving && s'.cell == s.cell
    requires |s'.workers| == |s.workers|
    requires forall v: nat | v < |s.workers| && v != w :: s'.workers[v] == s.workers[v]
    requires Active(s.workers[w]) && Active(s'.workers[w]) && Target(s', w) == Target(s, w)
    requires s'.workers[w].pc.Starting? ==> s.workers[w].pc.Starting?
    requires |s'.workers[w].buf| == BUFFER_SIZE
    ensures Serving(s')
  {
    forall v: nat | v < |s'.workers| && Active(s'.workers[v])
      ensures Target(s', v) in s'.serving && s'.serving[Target(s', v)] == v
    {
      assert Target(s', v) == Target(s, v);
    }
    forall fd | fd in s'.serving
      ensures s'.serving[fd] < |s'.workers| && Active(s'.workers[s'.serving[fd]]) && Target(s', s'.serving[fd]) == fd
    {
      assert Target(s', s.serving[fd]) == Target(s, s.serving[fd]);
    }
  }

  /** The socket of a worker past its start: open, its own, and out of everybody else's reach. */
  ghost predicate Holds(s: State, w: nat, fd: int) {
    && w < |s.workers| && Active(s.workers[w]) && Target(s, w) == fd
    && fd in s.socks && fd in s.serving && s.serving[fd] == w
    && !Armed(s, fd) && fd !in s.abandoned && !InBatch(s, fd)
  }

  lemma ActiveHolds(s: State, w: nat)
    requires Serving(s) && OneToken(s) && w < |s.workers| && Active(s.workers[w])
    ensures Holds(s, w, Target(s, w))
  {
  }

  /** A step inside the loop of worker `w`: only its own record, its socket's queue and its connection change. */
  ghost predicate Inside(s: State, s': State, w: nat) {
    && w < |s.workers| == |s'.workers|
    && s'.serving == s.serving && s'.cell == s.cell && s'.batch == s.batch
    && s'.abandoned == s.abandoned && s'.regs == s.regs && s'.socks.Keys == s.socks.Keys
    && (forall v: nat | v < |s.workers| && v != w :: s'.workers[v] == s.workers[v])
    && Active(s.workers[w]) && Active(s'.workers[w]) && Target(s', w) == Target(s, w)
    && (s'.workers[w].pc.Starting? ==> s.workers[w].pc.Starting?)
    && |s'.workers[w].buf| == BUFFER_SIZE
    && (forall g | g in s.socks && g != Target(s, w) :: s'.socks[g] == s.socks[g])
  }

  lemma InsideKeeps(s: State, s': State, w: nat)
    requires Serving(s) && OneToken(s) && Awake(s) && Inside(s, s', w)
    ensures Serving(s') && OneToken(s') && Awake(s')
  {
    SameServing(s, s', w);
    SameTokens(s, s');
    forall g | Armed(s', g) && Readable(s', g) ensures s'.regs[g].ready {
      assert g != Target(s, w);
      assert Armed(s, g) && Readable(s, g);
    }
  }

  lemma InsidePositions(s: State, s': State, w: nat)
    requires Serving(s) && Positions(s) && Inside(s, s', w)
    requires s'.workers[w].pc.Closing? ==>
               s'.workers[w].fd in s'.socks ==>
                 s'.socks[s'.workers[w].fd].eof && s'.socks[s'.workers[w].fd].queue == []
    ensures Positions(s')
  {
    forall v: nat | v < |s'.workers| && s'.workers[v].pc.Closing?
      ensures s'.workers[v].fd in s'.socks ==> s'.socks[s'.workers[v].fd].eof && s'.socks[s'.workers[v].fd].queue == []
    {
      if v != w {
        assert Target(s, v) == s.workers[v].fd;
        assert Target(s, v) != Target(s, w);
      }
    }
  }

  /** Chunks in hand at other sockets do not change. */
  lemma InsideOthers(s: State, s': State, w: nat, g: int)
    requires Serving(s) && Inside(s, s', w) && g in s.socks && g != Target(s, w)
    ensures InHand(s', g) == InHand(s, g)
  {
  }

  lemma StartInv(s: State, w: nat, n: nat)
    requires Inv(s) && Legal(s, Move(w, n)) && s.workers[w].pc.Starting?
    ensures Inv(MoveWorker(s, w, n))
  {
    hide OneToken, Awake, Streams, Positions;
    var s' := MoveWorker(s, w, n);
    assert Inside(s, s', w);
    InsideKeeps(s, s', w);
    InsidePositions(s, s', w);
    forall g | g in s.socks ensures InHand(s', g) == InHand(s, g) {
    }
    SameStreams(s, s');
  }

  lemma ReceiveOne(c: Conn, queue: Bytes, n: nat)
    requires c.arrived == Flatten(c.received) + queue && n <= |queue|
    ensures c.arrived == Flatten(c.received + [queue[..n]]) + queue[n..]
  {
    FlattenAppend(c.received, queue[..n]);
    assert queue == queue[..n] + queue[n..];
  }

  lemma TakeStreams(s: State, w: nat, n: nat)
    requires Serving(s) && Streams(s) && w < |s.workers| && s.workers[w].pc.Reading?
    requires Legal(s, Move(w, n)) && s.workers[w].fd in s.socks
    requires 0 < n <= |s.socks[s.workers[w].fd].queue| && n < BUFFER_SIZE
    ensures Streams(Take(s, w, n))
  {
    hide Flatten;
    var s' := Take(s, w, n);
    var fd := s.workers[w].fd;
    var k := s.socks[fd];
    var chunk := k.queue[..n];
    assert Target(s, w) == fd && s.serving[fd] == w;
    assert Inside(s, s', w);
    ReceiveOne(s.conns[k.conn], k.queue, n);
    forall g | g in s'.socks
      ensures s'.conns[s'.socks[g].conn].arrived == Flatten(s'.conns[s'.socks[g].conn].received) + s'.socks[g].queue
      ensures s'.conns[s'.socks[g].conn].received == s'.conns[s'.socks[g].conn].processed + InHand(s', g)
    {
      if g == fd {
        assert InHand(s, g) == [] && InHand(s', g) == [chunk];
      } else {
        InsideOthers(s, s', w, g);
      }
    }
    ClosedConnections(s, s');
  }

  /** Connections without a socket stay as they are when the others keep theirs. */
  lemma ClosedConnections(s: State, s': State)
    requires Streams(s) && |s'.conns| == |s.conns| && s'.socks.Keys == s.socks.Keys
    requires forall g | g in s.socks :: s'.socks[g].conn == s.socks[g].conn
    requires forall c: nat | c < |s.conns| && s'.conns[c] != s.conns[c] :: exists g :: g in s.socks && s.socks[g].conn == c
    ensures forall c: nat | c < |s'.conns| && (forall g | g in s'.socks :: s'.socks[g].conn != c) ::
              s'.conns[c].arrived == Flatten(s'.conns[c].received) && s'.conns[c].received == s'.conns[c].processed
  {
    forall c: nat | c < |s'.conns| && (forall g | g in s'.socks :: s'.socks[g].conn != c)
      ensures s'.conns[c].arrived == Flatten(s'.conns[c].received) && s'.conns[c].received == s'.conns[c].processed
    {
      forall g | g in s.socks ensures s.socks[g].conn != c {
        assert s'.socks[g].conn != c;
      }
      assert s'.conns[c] == s.conns[c];
    }
  }

  lemma ReadInv(s: State, w: nat, n: nat)
    requires Inv(s) && Legal(s, Move(w, n)) && s.workers[w].pc.Reading?
    ensures Inv(Read(s, w, n))
  {
    hide OneToken, Awake, Streams, Positions, Holds, InBatch;
    ActiveHolds(s, w);
    HoldsOpen(s, w, s.workers[w].fd);
    var fd := s.workers[w].fd;
    var k := s.socks[fd];
    var s' := Read(s, w, n);
    if s' != s {
      assert Inside(s, s', w);
      InsideKeeps(s, s', w);
      InsidePositions(s, s', w);
      if k.queue != [] {
        TakeStreams(s, w, n);
      } else {
        forall g | g in s.socks ensures InHand(s', g) == InHand(s, g) {
        }
        SameStreams(s, s');
      }
    }
  }

  lemma HoldsOpen(s: State, w: nat, fd: int)
    requires Holds(s, w, fd)
    ensures fd in s.socks && fd in s.serving && s.serving[fd] == w
  {
  }

  lemma ProcessStreams(s: State, w: nat)
    requires Serving(s) && Streams(s) && w < |s.workers| && s.workers[w].pc.Holding?
    requires s.workers[w].fd in s.socks
    ensures Streams(Process(s, w))
  {
    var s' := Process(s, w);
    var fd := s.workers[w].fd;
    assert Target(s, w) == fd && s.serving[fd] == w;
    assert Inside(s, s', w);
    forall g | g in s'.socks
      ensures s'.conns[s'.socks[g].conn].arrived == Flatten(s'.conns[s'.socks[g].conn].received) + s'.socks[g].queue
      ensures s'.conns[s'.socks[g].conn].received == s'.conns[s'.socks[g].conn].processed + InHand(s', g)
    {
      if g == fd {
        assert InHand(s, g) == [s.workers[w].pc.chunk] && InHand(s', g) == [];
      } else {
        InsideOthers(s, s', w, g);
      }
    }
    ClosedConnections(s, s');
  }

  lemma ProcessInv(s: State, w: nat)
    requires Inv(s) && w < |s.workers| && s.workers[w].pc.Holding?
    ensures Inv(Process(s, w))
  {
    hide OneToken, Awake, Streams, Positions, Holds;
    ActiveHolds(s, w);
    HoldsOpen(s, w, s.workers[w].fd);
    var s' := Process(s, w);
    assert Inside(s, s', w);
    InsideKeeps(s, s', w);
    InsidePositions(s, s', w);
    ProcessStreams(s, w);
  }

  // ---- leaving the socket ----

  /** Worker `w` is done and no longer serves `fd`. */
  ghost predicate Leaves(s: State, s': State, w: nat, fd: int) {
    && w < |s.workers|
    && s'.workers == s.workers[w := s.workers[w].(pc := Done)]
    && s'.serving == s.serving - {fd} && s'.cell == s.cell
    && Active(s.workers[w]) && Target(s, w) == fd
  }

  lemma LeavesServing(s: State, s': State, w: nat, fd: int)
    requires Serving(s) && Leaves(s, s', w, fd)
    ensures Serving(s')
  {
    forall v: nat | v < |s'.workers| && Active(s'.workers[v])
      ensures Target(s', v) in s'.serving && s'.serving[Target(s', v)] == v
    {
      assert s'.workers[v] == s.workers[v] && Target(s', v) == Target(s, v);
    }
    forall g | g in s'.serving
      ensures s'.serving[g] < |s'.workers| && Active(s'.workers[s'.serving[g]]) && Target(s', s'.serving[g]) == g
    {
      assert s.serving[g] != w;
      assert Target(s', s.serving[g]) == Target(s, s.serving[g]);
    }
  }

  lemma BatchSame(s: State, s': State, g: int)
    requires s'.batch == s.batch && InBatch(s, g)
    ensures InBatch(s', g)
  {
    var j :| 0 <= j < |s.batch| && s.batch[j].Client? && s.batch[j].fd == g;
    assert s'.batch[j].fd == g;
  }

  lemma CloseTokens(s: State, w: nat)
    requires OneToken(s) && w < |s.workers| && Holds(s, w, s.workers[w].fd)
    ensures OneToken(CloseSocket(s, w))
  {
    var s' := CloseSocket(s, w);
    var fd := s.workers[w].fd;
    forall j | 0 <= j < |s'.batch| && s'.batch[j].Client? ensures s'.batch[j].fd in s'.socks {
      assert s.batch[j].fd != fd;
    }
    forall g | g in s'.socks ensures Armed(s', g) || InBatch(s', g) || g in s'.serving || g in s'.abandoned {
      if InBatch(s, g) {
        BatchSame(s, s', g);
      }
    }
  }

  lemma RearmTokens(s: State, w: nat)
    requires OneToken(s) && w < |s.workers| && Holds(s, w, s.workers[w].fd)
    ensures OneToken(ResetOneshot(s, w))
  {
    var s' := ResetOneshot(s, w);
    var fd := s.workers[w].fd;
    forall j | 0 <= j < |s'.batch| && s'.batch[j].Client? ensures !Armed(s', s'.batch[j].fd) {
      assert s.batch[j].fd != fd;
    }
    forall g | g in s'.socks ensures Armed(s', g) || InBatch(s', g) || g in s'.serving || g in s'.abandoned {
      if InBatch(s, g) {
        BatchSame(s, s', g);
      }
    }
  }

  lemma LeaveAwake(s: State, w: nat)
    requires Awake(s) && w < |s.workers|
    ensures Awake(CloseSocket(s, w)) && Awake(ResetOneshot(s, w))
  {
    var c, r := CloseSocket(s, w), ResetOneshot(s, w);
    forall g | Armed(c, g) && Readable(c, g) ensures c.regs[g].ready {
      assert Armed(s, g) && Readable(s, g);
    }
    forall g | Armed(r, g) && Readable(r, g) ensures r.regs[g].ready {
      if g != s.workers[w].fd {
        assert Armed(s, g) && Readable(s, g);
      }
    }
  }

  lemma LeavePositions(s: State, s': State, w: nat, fd: int)
    requires Positions(s) && Leaves(s, s', w, fd) && s'.socks.Keys <= s.socks.Keys
    requires forall g | g in s'.socks :: s'.socks[g] == s.socks[g]
    ensures Positions(s')
  {
    forall v: nat | v < |s'.workers| && s'.workers[v].pc.Closing?
      ensures s'.workers[v].fd in s'.socks ==> s'.socks[s'.workers[v].fd].eof && s'.socks[s'.workers[v].fd].queue == []
    {
      assert s'.workers[v] == s.workers[v];
    }
  }

  lemma LeaveInHand(s: State, s': State, w: nat, fd: int, g: int)
    requires Serving(s) && Leaves(s, s', w, fd) && !s.workers[w].pc.Holding?
    ensures InHand(s', g) == InHand(s, g)
  {
  }

  lemma CloseStreams(s: State, w: nat)
    requires Serving(s) && Streams(s) && Positions(s) && w < |s.workers| && s.workers[w].pc.Closing?
    requires Holds(s, w, s.workers[w].fd)
    ensures Streams(CloseSocket(s, w))
  {
    var s' := CloseSocket(s, w);
    var fd := s.workers[w].fd;
    assert Leaves(s, s', w, fd);
    forall g | g in s'.socks
      ensures s'.conns[s'.socks[g].conn].received == s'.conns[s'.socks[g].conn].processed + InHand(s', g)
    {
      LeaveInHand(s, s', w, fd, g);
    }
    forall c: nat | c < |s'.conns| && (forall g | g in s'.socks :: s'.socks[g].conn != c)
      ensures s'.conns[c].arrived == Flatten(s'.conns[c].received) && s'.conns[c].received == s'.conns[c].processed
    {
      if s.socks[fd].conn == c {
        assert s.socks[fd].queue == [] && InHand(s, fd) == [];
      } else {
        forall g | g in s.socks ensures s.socks[g].conn != c {
          if g != fd {
            assert s'.socks[g].conn != c;
          }
        }
      }
    }
  }

  lemma CloseInv(s: State, w: nat)
    requires Inv(s) && w < |s.workers| && s.workers[w].pc.Closing?
    ensures Inv(CloseSocket(s, w))
  {
    hide Serving, OneToken, Awake, Streams, Positions, Holds, InBatch;
    ActiveHolds(s, w);
    var s' := CloseSocket(s, w);
    LeavesServing(s, s', w, s.workers[w].fd);
    CloseTokens(s, w);
    LeaveAwake(s, w);
    CloseStreams(s, w);
    LeavePositions(s, s', w, s.workers[w].fd);
  }

  lemma RearmInv(s: State, w: nat)
    requires Inv(s) && w < |s.workers| && s.workers[w].pc.Rearming?
    ensures Inv(ResetOneshot(s, w))
  {
    hide Serving, OneToken, Awake, Streams, Positions, Holds, InBatch;
    ActiveHolds(s, w);
    var s' := ResetOneshot(s, w);
    LeavesServing(s, s', w, s.workers[w].fd);
    RearmTokens(s, w);
    LeaveAwake(s, w);
    forall g | g in s.socks ensures InHand(s', g) == InHand(s, g) {
      LeaveInHand(s, s', w, s.workers[w].fd, g);
    }
    SameStreams(s, s');
    LeavePositions(s, s', w, s.workers[w].fd);
  }

  lemma MoveInv(s: State, w: nat, n: nat)
    requires Inv(s) && Legal(s, Move(w, n))
    ensures Inv(MoveWorker(s, w, n))
  {
    hide Inv, Read, Process, CloseSocket, ResetOneshot;
    match s.workers[w].pc
    case Starting => StartInv(s, w, n);
    case Reading => ReadInv(s, w, n);
    case Holding(_) => ProcessInv(s, w);
    case Closing => CloseInv(s, w);
    case Rearming => RearmInv(s, w);
    case Done =>
  }

  lemma StepInv(s: State, a: Action)
    requires Inv(s) && Legal(s, a) && Prompt(s, a)
    ensures Inv(Step(s, a))
  {
    hide Inv, MoveWorker, HandleReport, ArriveBytes, LegalReports, Prompt;
    match a
    case Arrive(fd, bytes) => ArriveInv(s, fd, bytes);
    case PeerCloses(fd) => PeerClosesInv(s, fd);
    case ErrorEdge(fd) => ErrorEdgeInv(s, fd);
    case Wait(reports) => WaitInv(s, reports);
    case Handle(p) => HandleInv(s, p);
    case Move(w, n) => MoveInv(s, w, n);
  }

  lemma {:induction false} ExecInv(s: State, actions: seq<Action>)
    requires Inv(s) && LegalRun(s, actions) && PromptRun(s, actions)
    ensures Inv(Exec(s, actions))
    decreases |actions|
  {
    hide Inv, Step, Legal, Prompt;
    if actions == [] {
    } else {
      StepInv(s, actions[0]);
      ExecInv(Step(s, actions[0]), actions[1..]);
    }
  }
}
