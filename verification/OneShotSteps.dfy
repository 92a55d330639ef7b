/** What each step of the dispatcher and of a worker does, in every state reached by prompt hand-overs. */
module OneShotSteps {
  import opened Prelude
  import opened OneShotModel
  import opened OneShotInvariant
  import opened OneShotLaws

  /** Worker `w` is at `pc` and works on `fd`; it is its turn. */
  ghost predicate AtWork(s: State, w: nat, n: nat, fd: int) {
    && Reachable(s) && Legal(s, Move(w, n))
    && w < |s.workers| && s.workers[w].fd == fd
    && !s.workers[w].pc.Starting? && !s.workers[w].pc.Done?
  }

  /** The worker alone has changed, and of the rest only socket, registration and connection of `fd`. */
  ghost predicate OnlyAt(s: State, s': State, w: nat, fd: int) {
    && fd in s.socks
    && |s'.workers| == |s.workers| && |s'.conns| == |s.conns|
    && (forall v: nat | v < |s.workers| && v != w :: s'.workers[v] == s.workers[v])
    && s'.socks - {fd} == s.socks - {fd} && s'.regs - {fd} == s.regs - {fd}
    && s'.batch == s.batch && s'.cell == s.cell
    && (forall c: nat | c < |s.conns| && c != s.socks[fd].conn :: s'.conns[c] == s.conns[c])
  }

  /** The socket a worker works on is open, disabled and served by it alone. */
  lemma Works(s: State, w: nat, n: nat, fd: int)
    requires AtWork(s, w, n, fd)
    ensures fd in s.socks && fd in s.regs && !s.regs[fd].armed && s.socks[fd].conn < |s.conns|
    ensures fd in s.serving && s.serving[fd] == w && |s.workers[w].buf| == BUFFER_SIZE
    ensures s.workers[w].pc.Closing? ==> s.socks[fd].eof && s.socks[fd].queue == []
  {
    hide Reachable, Awake;
    ReachableInv(s);
    ActiveHolds(s, w);
  }

  /** Bytes waiting are taken from the front, at most nine at a time, into the front of the buffer. */
  lemma TakesWhatIsThere(s: State, w: nat, n: nat, fd: int)
    requires AtWork(s, w, n, fd) && s.workers[w].pc.Reading?
    requires fd in s.socks && s.socks[fd].queue != []
    ensures |s.workers[w].buf| == 10 && s.socks[fd].conn < |s.conns|
    ensures !(1 <= n <= |s.socks[fd].queue| && n <= 9) ==> Step(s, Move(w, n)) == s
    ensures
      1 <= n <= |s.socks[fd].queue| && n <= 9 ==>
        var s', me, k := Step(s, Move(w, n)), s.workers[w], s.socks[fd];
        var chunk, c := k.queue[..n], s.conns[k.conn];
        && OnlyAt(s, s', w, fd) && s'.regs == s.regs && s'.serving == s.serving && s'.abandoned == s.abandoned
        && s'.socks == s.socks[fd := k.(queue := k.queue[n..])]
        && s'.workers[w] == Worker(Holding(chunk), fd, chunk + me.buf[n..], me.history + [chunk])
        && s'.conns[k.conn] == c.(received := c.received + [chunk])
  {
    hide Reachable;
    Works(s, w, n, fd);
  }

  /** A chunk taken is processed before the next `recv`. */
  lemma ProcessesWhatItTook(s: State, w: nat, n: nat, fd: int)
    requires AtWork(s, w, n, fd) && s.workers[w].pc.Holding?
    ensures fd in s.socks && s.socks[fd].conn < |s.conns|
    ensures
      var s', me, c := Step(s, Move(w, n)), s.workers[w], s.conns[s.socks[fd].conn];
      && OnlyAt(s, s', w, fd) && s'.socks == s.socks && s'.regs == s.regs
      && s'.serving == s.serving && s'.abandoned == s.abandoned
      && s'.workers[w] == me.(pc := Reading)
      && s'.conns[s.socks[fd].conn] == c.(processed := c.processed + [me.pc.chunk])
  {
    hide Reachable;
    Works(s, w, n, fd);
  }

  /** With nothing to read the worker decides: to close at the end of file, to re-arm otherwise. */
  lemma DecidesWhenEmpty(s: State, w: nat, n: nat, fd: int)
    requires AtWork(s, w, n, fd) && s.workers[w].pc.Reading?
    requires fd in s.socks && s.socks[fd].queue == []
    ensures
      Step(s, Move(w, n)) ==
      s.(workers := s.workers[w := s.workers[w].(pc := if s.socks[fd].eof then Closing else Rearming)])
  {
    hide Reachable;
  }

  /** Closing takes the socket and its registration away and ends the worker. */
  lemma Closes(s: State, w: nat, n: nat, fd: int)
    requires AtWork(s, w, n, fd) && s.workers[w].pc.Closing?
    ensures
      var s' := Step(s, Move(w, n));
      && OnlyAt(s, s', w, fd) && s'.conns == s.conns
      && fd !in s'.socks && fd !in s'.regs && fd !in s'.serving
      && s'.workers[w].pc.Done?
  {
    hide Reachable;
    Works(s, w, n, fd);
  }

  /** Re-arming enables the registration, ready if something has arrived since the worker looked, and ends the worker. */
  lemma Rearms(s: State, w: nat, n: nat, fd: int)
    requires AtWork(s, w, n, fd) && s.workers[w].pc.Rearming?
    ensures
      var s' := Step(s, Move(w, n));
      && OnlyAt(s, s', w, fd) && s'.conns == s.conns && s'.socks == s.socks
      && fd in s'.regs && s'.regs[fd] == Reg(true, s.socks[fd].queue != [] || s.socks[fd].eof)
      && fd !in s'.serving
      && s'.workers[w].pc.Done?
  {
    hide Reachable;
    Works(s, w, n, fd);
  }

  /**
   A worker that finds nothing to read is two moves from its end: if the peer has closed they close
   the socket, and otherwise they leave it open and enabled.
   */
  lemma LastTwoMoves(s: State, w: nat, n: nat, m: nat, fd: int)
    requires AtWork(s, w, n, fd) && s.workers[w].pc.Reading?
    requires fd in s.socks && s.socks[fd].queue == []
    ensures Legal(Step(s, Move(w, n)), Move(w, m))
    ensures
      var s' := Step(Step(s, Move(w, n)), Move(w, m));
      && w < |s'.workers| && s'.workers[w].pc.Done?
      && (s.socks[fd].eof <==> fd !in s'.socks)
      && (s.socks[fd].eof ==> fd !in s'.regs)
      && (!s.socks[fd].eof ==> Armed(s', fd) && !s'.regs[fd].ready && s'.socks == s.socks)
  {
    hide Reachable, Step;
    Works(s, w, n, fd);
    var s1 := Step(s, Move(w, n));
    DecidesWhenEmpty(s, w, n, fd);
    NextReachable(s, Move(w, n));
    if s.socks[fd].eof {
      Closes(s1, w, m, fd);
    } else {
      Rearms(s1, w, m, fd);
    }
  }

  /** A worker starts on the socket it was created for. */
  lemma StartsOnItsSocket(s: State, w: nat, n: nat)
    requires Reachable(s) && Legal(s, Move(w, n)) && s.workers[w].pc.Starting?
    ensures
      var s' := Step(s, Move(w, n));
      && s' == s.(workers := s.workers[w := s.workers[w].(pc := Reading, fd := s.cell)])
      && s.cell in s.serving && s.serving[s.cell] == w && s.cell in s.socks
      && s.workers[w].buf == ZeroBuffer()
  {
    hide Reachable, Awake, Streams, Positions;
    ReachableInv(s);
    ActiveHolds(s, w);
    FreshBuffers(s);
  }

  lemma FreshBuffers(s: State)
    requires Reachable(s)
    ensures forall w: nat | w < |s.workers| && s.workers[w].pc.Starting? :: s.workers[w].buf == ZeroBuffer()
  {
    var past: seq<Action> :| LegalRun(Init(), past) && PromptRun(Init(), past) && s == Exec(Init(), past);
    FreshRun(Init(), past);
  }

  ghost predicate Fresh(s: State) {
    forall w: nat | w < |s.workers| && s.workers[w].pc.Starting? :: s.workers[w].buf == ZeroBuffer()
  }

  lemma FreshStep(s: State, a: Action)
    requires Fresh(s) && Legal(s, a)
    ensures Fresh(Step(s, a))
  {
  }

  lemma {:induction false} FreshRun(s: State, run: seq<Action>)
    requires Fresh(s) && LegalRun(s, run)
    ensures Fresh(Exec(s, run))
    decreases |run|
  {
    hide Fresh, Step, Legal;
    if run == [] {
    } else {
      FreshStep(s, run[0]);
      FreshRun(Step(s, run[0]), run[1..]);
    }
  }

  /** An accepted connection is registered, enabled, and ready at once if something is there to read. */
  lemma ListenerAccepts(s: State, p: Incoming)
    requires Reachable(s) && Legal(s, Handle(p)) && s.batch[0].Listener?
    ensures
      var s' := Step(s, Handle(p));
      && s'.batch == s.batch[1..] && s'.workers == s.workers && s'.cell == s.cell && s'.serving == s.serving
      && match p
         case Nobody => s'.socks == s.socks && s'.regs == s.regs && s'.conns == s.conns
         case Peer(fd, queue, eof) =>
           && s'.socks == s.socks[fd := Sock(|s.conns|, queue, eof)] && fd !in s.socks
           && s'.regs == s.regs[fd := Reg(true, queue != [] || eof)]
           && s'.conns == s.conns + [Conn(queue, [], [])]
  {
  }

  /** A report with EPOLLIN starts one worker for its socket; one without starts none and changes nothing else. */
  lemma ReportStartsWorker(s: State, p: Incoming, fd: int)
    requires Reachable(s) && Legal(s, Handle(p)) && Prompt(s, Handle(p)) && s.batch[0].Client? && s.batch[0].fd == fd
    ensures
      var s' := Step(s, Handle(p));
      && s'.batch == s.batch[1..] && s'.socks == s.socks && s'.regs == s.regs && s'.conns == s.conns
      && if s.batch[0].readable
         then s'.workers == s.workers + [Worker(Starting, -1, ZeroBuffer(), [])] && WorksOn(s', |s.workers|, fd)
         else s'.workers == s.workers && s'.serving == s.serving && fd in s'.abandoned
    ensures forall w: nat :: WorksOn(s, w, fd) ==> false
  {
    hide Reachable;
    ReachableInv(s);
    assert InBatch(s, fd);
    forall w: nat ensures !WorksOn(s, w, fd) {
      if WorksOn(s, w, fd) {
        MutualExclusion(s, fd, w, w);
        assert false;
      }
    }
  }

  /** A read returns at most nine bytes of the ten-byte buffer. */
  lemma ReadSize(s: State, w: nat, n: nat, fd: int)
    requires AtWork(s, w, n, fd) && s.workers[w].pc.Reading?
    requires fd in s.socks && s.socks[fd].queue != []
    ensures Step(s, Move(w, n)).workers[w].pc.Holding? <==> 1 <= n <= |s.socks[fd].queue| && n <= 9
  {
    hide Reachable;
    Works(s, w, n, fd);
  }
}
