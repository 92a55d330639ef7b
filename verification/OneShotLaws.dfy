/** The laws of the one-shot server, over every run in which hand-overs are prompt; and what goes wrong otherwise. */
module OneShotLaws {
  import opened Prelude
  import opened OneShotModel
  import opened OneShotInvariant

  ghost predicate Reachable(s: State) {
    exists past: seq<Action> :: LegalRun(Init(), past) && PromptRun(Init(), past) && s == Exec(Init(), past)
  }

  lemma ReachableInv(s: State)
    requires Reachable(s)
    ensures Inv(s)
  {
    var past: seq<Action> :| LegalRun(Init(), past) && PromptRun(Init(), past) && s == Exec(Init(), past);
    InitInv();
    ExecInv(Init(), past);
  }

  /** Worker `w` has socket `fd` in its hands: it was started for it and has not re-armed or closed it. */
  predicate WorksOn(s: State, w: nat, fd: int) {
    w < |s.workers| && Active(s.workers[w]) && Target(s, w) == fd
  }

  /**
   Mutual exclusion: an open socket has at most one worker between its dispatch and its re-arm
   or close, and none while its registration is enabled or its report waits to be dispatched.
   */
  lemma MutualExclusion(s: State, fd: int, w: nat, v: nat)
    requires Reachable(s) && WorksOn(s, w, fd)
    ensures WorksOn(s, v, fd) ==> v == w
    ensures fd in s.socks && !Armed(s, fd) && !InBatch(s, fd)
  {
    ReachableInv(s);
    ActiveHolds(s, w);
    if WorksOn(s, v, fd) {
      ActiveHolds(s, v);
    }
  }

  /** No socket is in the hands of two workers. */
  ghost predicate Exclusive(s: State) {
    forall fd, w: nat, v: nat | WorksOn(s, w, fd) && WorksOn(s, v, fd) :: w == v
  }

  lemma ReachableIsExclusive(s: State)
    requires Reachable(s)
    ensures Exclusive(s)
  {
    hide Reachable;
    forall fd, w: nat, v: nat | WorksOn(s, w, fd) && WorksOn(s, v, fd) ensures w == v {
      MutualExclusion(s, fd, w, v);
    }
  }

  /** Exclusion survives a step exactly if the step is a prompt one. */
  lemma ExclusiveStep(s: State, a: Action)
    requires Reachable(s) && Legal(s, a)
    ensures Exclusive(Step(s, a)) <==> Prompt(s, a)
  {
    hide Reachable;
    if Prompt(s, a) {
      NextReachable(s, a);
      ReachableIsExclusive(Step(s, a));
    } else {
      var w: nat :| w < |s.workers| && s.workers[w].pc.Starting?;
      var fd, s' := s.batch[0].fd, Step(s, a);
      assert s'.workers[w] == s.workers[w];
      assert WorksOn(s', w, fd) && WorksOn(s', |s.workers|, fd);
    }
  }

  /** Exclusion holds all along a run. */
  ghost predicate ExclusiveRun(s: State, run: seq<Action>)
    requires LegalRun(s, run)
    decreases |run|
  {
    Exclusive(s) && (run != [] ==> ExclusiveRun(Step(s, run[0]), run[1..]))
  }

  /** Mutual exclusion, exactly: it holds all along a run if and only if every hand-over in the run is prompt. */
  lemma {:induction false} ExclusiveExactly(s: State, run: seq<Action>)
    requires Reachable(s) && LegalRun(s, run)
    ensures ExclusiveRun(s, run) <==> PromptRun(s, run)
    decreases |run|
  {
    hide Reachable, Exclusive, Prompt, Legal, Step;
    ReachableIsExclusive(s);
    if run == [] {
    } else {
      var s' := Step(s, run[0]);
      ExclusiveStep(s, run[0]);
      if Prompt(s, run[0]) {
        NextReachable(s, run[0]);
        ExclusiveExactly(s', run[1..]);
      } else {
        assert !ExclusiveRun(s', run[1..]);
      }
    }
  }

  lemma {:induction false} ExclusiveRunMeans(s: State, run: seq<Action>)
    requires LegalRun(s, run)
    ensures forall j | 0 <= j <= |run| :: LegalRun(s, run[..j])
    ensures ExclusiveRun(s, run) <==> forall j | 0 <= j <= |run| :: Exclusive(Exec(s, run[..j]))
    decreases |run|
  {
    hide Exclusive, Legal, Step;
    assert run[..0] == [];
    assert Exec(s, run[..0]) == s;
    if run == [] {
    } else {
      var s', rest := Step(s, run[0]), run[1..];
      ExclusiveRunMeans(s', rest);
      forall j | 1 <= j <= |run| ensures LegalRun(s, run[..j]) && Exec(s, run[..j]) == Exec(s', rest[..j - 1]) {
        assert run[..j][0] == run[0] && run[..j][1..] == rest[..j - 1];
      }
      forall j | 0 <= j <= |rest| ensures Exec(s', rest[..j]) == Exec(s, run[..j + 1]) {
      }
    }
  }

  /** From the start of the server: every state a run goes through is exclusive if and only if the run is prompt. */
  lemma ExclusionIsPromptness(run: seq<Action>)
    requires LegalRun(Init(), run)
    ensures forall j | 0 <= j <= |run| :: LegalRun(Init(), run[..j])
    ensures (forall j | 0 <= j <= |run| :: Exclusive(Exec(Init(), run[..j]))) <==> PromptRun(Init(), run)
  {
    hide Exclusive, Legal, Step, Prompt;
    assert Reachable(Init()) by {
      assert LegalRun(Init(), []) && PromptRun(Init(), []) && Init() == Exec(Init(), []);
    }
    ExclusiveExactly(Init(), run);
    ExclusiveRunMeans(Init(), run);
  }

  // ---- wake-ups ----

  /** A report with EPOLLIN for `fd` waits to be dispatched. */
  ghost predicate DueForWorker(s: State, fd: int) {
    exists j :: 0 <= j < |s.batch| && s.batch[j].Client? && s.batch[j].fd == fd && s.batch[j].readable
  }

  /** A report without EPOLLIN for `fd` was dispatched, or waits to be. */
  ghost predicate Doomed(s: State, fd: int) {
    || fd in s.abandoned
    || exists j :: 0 <= j < |s.batch| && s.batch[j].Client? && s.batch[j].fd == fd && !s.batch[j].readable
  }

  /**
   No lost wake-up, exactly: an open socket with something to read will be read, because it is
   enabled and on the ready list, or its report waits to be dispatched to a worker, or a worker
   is on it, if and only if its last report did not come without EPOLLIN.
   */
  lemma NoLostWakeUp(s: State, fd: int)
    requires Reachable(s) && fd in s.socks && Readable(s, fd)
    ensures (Armed(s, fd) && s.regs[fd].ready) || DueForWorker(s, fd) || (exists w: nat :: WorksOn(s, w, fd))
            <==> !Doomed(s, fd)
  {
    ReachableInv(s);
    if !Doomed(s, fd) {
      if InBatch(s, fd) {
        var j :| 0 <= j < |s.batch| && s.batch[j].Client? && s.batch[j].fd == fd;
        assert s.batch[j].readable;
      }
      if fd in s.serving {
        assert WorksOn(s, s.serving[fd], fd);
      }
    }
    if w: nat :| WorksOn(s, w, fd) {
      ActiveHolds(s, w);
      assert !InBatch(s, fd);
    }
    if DueForWorker(s, fd) {
      var j :| 0 <= j < |s.batch| && s.batch[j].Client? && s.batch[j].fd == fd && s.batch[j].readable;
      assert InBatch(s, fd);
    }
  }

  lemma DoomedInBatch(s: State, fd: int) returns (j: nat)
    requires Doomed(s, fd) && fd !in s.abandoned
    ensures j < |s.batch| && s.batch[j].Client? && s.batch[j].fd == fd && !s.batch[j].readable
  {
    j :| 0 <= j < |s.batch| && s.batch[j].Client? && s.batch[j].fd == fd && !s.batch[j].readable;
  }

  lemma SameBatchDoomed(s: State, s': State, fd: int)
    requires Doomed(s, fd) && s'.batch == s.batch && (fd in s.abandoned ==> fd in s'.abandoned)
    ensures Doomed(s', fd)
  {
    if fd !in s.abandoned {
      var j := DoomedInBatch(s, fd);
      assert s'.batch[j] == s.batch[j];
    }
  }

  lemma HandleDoomed(s: State, p: Incoming, fd: int)
    requires Legal(s, Handle(p)) && fd in s.socks && Doomed(s, fd)
    ensures fd in HandleReport(s, p).socks && Doomed(HandleReport(s, p), fd)
  {
    var s' := HandleReport(s, p);
    if fd !in s.abandoned {
      var j := DoomedInBatch(s, fd);
      if j > 0 {
        assert s'.batch[j - 1] == s.batch[j];
      }
    }
  }

  lemma NotServed(s: State, fd: int)
    requires OneToken(s) && Doomed(s, fd)
    ensures fd !in s.serving
  {
  }

  lemma MoveDoomed(s: State, w: nat, n: nat, fd: int)
    requires Serving(s) && OneToken(s) && Legal(s, Move(w, n)) && fd in s.socks && Doomed(s, fd)
    ensures fd in MoveWorker(s, w, n).socks && Doomed(MoveWorker(s, w, n), fd)
  {
    NotServed(s, fd);
    if Active(s.workers[w]) {
      ActiveHolds(s, w);
      assert Target(s, w) != fd;
    }
    hide OneToken, Serving, Doomed;
    SameBatchDoomed(s, MoveWorker(s, w, n), fd);
  }

  /** What is still to come for a doomed socket: nothing. */
  ghost predicate LeftAlone(s: State, s': State, fd: int) {
    && fd in s.socks && fd in s'.socks
    && s'.socks[fd].conn == s.socks[fd].conn
    && s.socks[fd].conn < |s.conns| && s.socks[fd].conn < |s'.conns|
    && s'.conns[s.socks[fd].conn].received == s.conns[s.socks[fd].conn].received
    && s.socks[fd].queue <= s'.socks[fd].queue
  }

  lemma DoomedStep(s: State, a: Action, fd: int)
    requires Reachable(s) && Legal(s, a) && fd in s.socks && Doomed(s, fd)
    ensures fd in Step(s, a).socks && Doomed(Step(s, a), fd)
  {
    hide Awake, Streams, Positions, Serving, OneToken, Reachable, Doomed, LegalReports;
    ReachableInv(s);
    match a
    case Handle(p) => HandleDoomed(s, p, fd);
    case Wait(_) => WaitDoomed(s, Step(s, a), fd);
    case Move(w, n) => MoveDoomed(s, w, n, fd);
    case _ => SameBatchDoomed(s, Step(s, a), fd);
  }

  lemma ConnOf(s: State, fd: int, gd: int)
    requires Streams(s) && fd in s.socks && gd in s.socks
    ensures s.socks[fd].conn < |s.conns|
    ensures fd != gd ==> s.socks[gd].conn != s.socks[fd].conn
  {
  }

  lemma MoveElsewhere(s: State, w: nat, n: nat, fd: int)
    requires Legal(s, Move(w, n)) && fd in s.socks && s.socks[fd].conn < |s.conns|
    requires s.workers[w].pc.Starting? || s.workers[w].pc.Done? || s.workers[w].fd != fd
    requires s.workers[w].fd in s.socks && s.workers[w].fd != fd ==> s.socks[s.workers[w].fd].conn != s.socks[fd].conn
    ensures LeftAlone(s, MoveWorker(s, w, n), fd)
  {
  }

  lemma OtherTarget(s: State, w: nat, fd: int)
    requires Serving(s) && OneToken(s) && w < |s.workers| && Active(s.workers[w]) && Doomed(s, fd)
    ensures Target(s, w) != fd
  {
    NotServed(s, fd);
  }

  lemma MoveLeavesAlone(s: State, w: nat, n: nat, fd: int)
    requires Serving(s) && OneToken(s) && Streams(s) && Legal(s, Move(w, n)) && fd in s.socks && Doomed(s, fd)
    ensures LeftAlone(s, MoveWorker(s, w, n), fd)
  {
    hide OneToken, Serving, Doomed, Streams, LeftAlone, MoveWorker;
    ConnOf(s, fd, fd);
    if s.workers[w].fd in s.socks {
      ConnOf(s, fd, s.workers[w].fd);
    }
    if Active(s.workers[w]) {
      OtherTarget(s, w, fd);
    }
    MoveElsewhere(s, w, n, fd);
  }

  lemma StepLeavesAlone(s: State, a: Action, fd: int)
    requires Reachable(s) && Legal(s, a) && fd in s.socks && Doomed(s, fd)
    ensures LeftAlone(s, Step(s, a), fd)
  {
    hide Awake, Streams, Positions, Serving, OneToken, Reachable, Doomed, LegalReports;
    ReachableInv(s);
    ConnOf(s, fd, fd);
    if a.Move? {
      MoveLeavesAlone(s, a.w, a.n, fd);
    }
  }

  lemma LeftAloneTrans(s: State, s1: State, s': State, fd: int)
    requires LeftAlone(s, s1, fd) && LeftAlone(s1, s', fd)
    ensures LeftAlone(s, s', fd)
  {
    assert s.socks[fd].queue <= s1.socks[fd].queue && s1.socks[fd].queue <= s'.socks[fd].queue;
  }

  /**
   And it is lost for good: whatever run follows, the socket is still open, disabled and without
   a worker at the end of it, and not a byte more has been read from it.
   */
  lemma {:induction false} DoomedForever(s: State, run: seq<Action>, fd: int)
    requires Reachable(s) && LegalRun(s, run) && PromptRun(s, run) && fd in s.socks && Doomed(s, fd)
    ensures LeftAlone(s, Exec(s, run), fd)
    ensures Doomed(Exec(s, run), fd) && !Armed(Exec(s, run), fd)
    ensures !exists w: nat :: WorksOn(Exec(s, run), w, fd)
    decreases |run|
  {
    hide Reachable, Legal, Step, Prompt, LeftAlone, Doomed, WorksOn, Armed;
    if run == [] {
      DoomedNow(s, fd);
    } else {
      var s1 := Step(s, run[0]);
      StepLeavesAlone(s, run[0], fd);
      DoomedStep(s, run[0], fd);
      NextReachable(s, run[0]);
      DoomedForever(s1, run[1..], fd);
      LeftAloneTrans(s, s1, Exec(s, run), fd);
    }
  }

  lemma DoomedNow(s: State, fd: int)
    requires Reachable(s) && fd in s.socks && Doomed(s, fd)
    ensures LeftAlone(s, s, fd) && !Armed(s, fd)
    ensures !exists w: nat :: WorksOn(s, w, fd)
  {
    ReachableInv(s);
    NotServed(s, fd);
    if w: nat :| WorksOn(s, w, fd) {
      ActiveHolds(s, w);
      assert false;
    }
  }

  lemma WaitDoomed(s: State, s': State, fd: int)
    requires Doomed(s, fd) && s.batch == [] && s'.abandoned == s.abandoned
    ensures Doomed(s', fd)
  {
  }

  // ---- order ----

  /**
   In order across workers: whatever the workers of a connection have processed, one after the
   other, is the front of what arrived, with at most one chunk received and not yet processed.
   Of a connection the server has closed, everything was processed.
   */
  lemma InOrder(s: State, c: nat)
    requires Reachable(s) && c < |s.conns|
    ensures Flatten(s.conns[c].processed) <= s.conns[c].arrived
    ensures |s.conns[c].processed| <= |s.conns[c].received| <= |s.conns[c].processed| + 1
    ensures s.conns[c].processed <= s.conns[c].received
    ensures (forall fd | fd in s.socks :: s.socks[fd].conn != c) ==> Flatten(s.conns[c].processed) == s.conns[c].arrived
  {
    ReachableInv(s);
    var k := s.conns[c];
    if fd :| fd in s.socks && s.socks[fd].conn == c {
      assert k.arrived == Flatten(k.received) + s.socks[fd].queue;
      if InHand(s, fd) == [] {
        assert k.received == k.processed;
      } else {
        var chunk := InHand(s, fd)[0];
        assert k.received == k.processed + [chunk];
        FlattenAppend(k.processed, chunk);
      }
    }
  }

  // ---- what the assumptions are needed for ----

  lemma OneMore(s: State, a: Action, rest: seq<Action>)
    requires Legal(s, a) && LegalRun(Step(s, a), rest)
    ensures LegalRun(s, [a] + rest) && Exec(s, [a] + rest) == Exec(Step(s, a), rest)
    ensures Prompt(s, a) && PromptRun(Step(s, a), rest) ==> PromptRun(s, [a] + rest)
  {
    assert ([a] + rest)[1..] == rest;
  }

  /**
   A wake-up can be lost: an error edge on any idle enabled socket yields a report without
   EPOLLIN, and bytes that arrive after it are never read.
   */
  lemma WakeUpCanBeLost(s: State, fd: int, bytes: Bytes) returns (run: seq<Action>)
    requires Reachable(s) && s.batch == [] && fd in s.socks && Armed(s, fd) && !Readable(s, fd) && bytes != []
    ensures LegalRun(s, run) && PromptRun(s, run)
    ensures Readable(Exec(s, run), fd) && Doomed(Exec(s, run), fd)
  {
    ReachableInv(s);
    var a1, a2, a3, a4 := ErrorEdge(fd), Wait([Client(fd, false)]), Handle(Nobody), Arrive(fd, bytes);
    var s1 := Step(s, a1);
    var s2 := Step(s1, a2);
    var s3 := Step(s2, a3);
    assert s3.socks == s.socks && s3.conns == s.conns && fd in s3.abandoned;
    assert s.socks[fd].conn < |s.conns|;
    var s4 := Step(s3, a4);
    assert Readable(s4, fd) && fd in s4.abandoned;
    ThreadRun(s, s1, s2, s3, s4, a1, a2, a3, a4);
    run := [a1] + ([a2] + ([a3] + ([a4] + [])));
  }

  lemma ThreadRun(s: State, s1: State, s2: State, s3: State, s4: State, a1: Action, a2: Action, a3: Action, a4: Action)
    requires Legal(s, a1) && s1 == Step(s, a1)
    requires Legal(s1, a2) && s2 == Step(s1, a2)
    requires Legal(s2, a3) && s3 == Step(s2, a3)
    requires Legal(s3, a4) && s4 == Step(s3, a4)
    ensures
      var run := [a1] + ([a2] + ([a3] + ([a4] + [])));
      && LegalRun(s, run) && Exec(s, run) == s4
      && (Prompt(s, a1) && Prompt(s1, a2) && Prompt(s2, a3) && Prompt(s3, a4) ==> PromptRun(s, run))
  {
    hide Legal, Step, Prompt;
    OneMore(s3, a4, []);
    OneMore(s2, a3, [a4] + []);
    OneMore(s1, a2, [a3] + ([a4] + []));
    OneMore(s, a1, [a2] + ([a3] + ([a4] + [])));
  }

  /**
   Were the dispatcher to reuse its local variable before a worker has copied it, two workers
   would run on one socket: from any state with two reports to dispatch, both workers take the
   second socket.
   */
  lemma SharedCellBreaksExclusion(s: State, fd: int, gd: int) returns (run: seq<Action>)
    requires Reachable(s) && s.batch == [Client(fd, true), Client(gd, true)]
    ensures LegalRun(s, run)
    ensures
      var s' := Exec(s, run);
      var w := |s.workers|;
      && w + 1 < |s'.workers|
      && s'.workers[w].pc.Reading? && s'.workers[w + 1].pc.Reading?
      && WorksOn(s', w, gd) && WorksOn(s', w + 1, gd)
  {
    ReachableInv(s);
    var w := |s.workers|;
    var a0, a2, a3 := Handle(Nobody), Move(w, 0), Move(w + 1, 0);
    assert SocketsHaveConns(s);
    hide Inv, Doomed;
    var s1 := Step(s, a0);
    assert s1.batch == [Client(gd, true)];
    var s2 := Step(s1, a0);
    assert s2.cell == gd && |s2.workers| == w + 2 && SocketsHaveConns(s2);
    assert s2.workers[w] == Worker(Starting, -1, ZeroBuffer(), []) && s2.workers[w + 1] == s2.workers[w];
    var s3 := Step(s2, a2);
    assert SocketsHaveConns(s3);
    var s4 := Step(s3, a3);
    ThreadRun(s, s1, s2, s3, s4, a0, a0, a2, a3);
    run := [a0] + ([a0] + ([a2] + ([a3] + [])));
  }

  // ---- such states are reached ----

  lemma {:induction false} RunExtend(s: State, past: seq<Action>, a: Action)
    requires LegalRun(s, past) && PromptRun(s, past) && Legal(Exec(s, past), a) && Prompt(Exec(s, past), a)
    ensures LegalRun(s, past + [a]) && PromptRun(s, past + [a])
    ensures Exec(s, past + [a]) == Step(Exec(s, past), a)
    decreases |past|
  {
    hide Legal, Step, Prompt;
    if past == [] {
      assert [] + [a] == [a] && [a][1..] == [];
    } else {
      assert (past + [a])[0] == past[0] && (past + [a])[1..] == past[1..] + [a];
      RunExtend(Step(s, past[0]), past[1..], a);
    }
  }

  lemma NextReachable(s: State, a: Action)
    requires Reachable(s) && Legal(s, a) && Prompt(s, a)
    ensures Reachable(Step(s, a))
  {
    hide Legal, Step, Prompt;
    var past: seq<Action> :| LegalRun(Init(), past) && PromptRun(Init(), past) && s == Exec(Init(), past);
    RunExtend(Init(), past, a);
    assert Step(s, a) == Exec(Init(), past + [a]);
  }

  lemma Accepted(s: State, p: Incoming) returns (s': State)
    requires Reachable(s) && s.batch == [] && p.Peer? && p.fd !in s.socks
    ensures Reachable(s') && s' == AddFd(s, p)
  {
    hide Reachable;
    var s1 := Step(s, Wait([Listener]));
    NextReachable(s, Wait([Listener]));
    assert Disarm(s.regs, [Listener][..0]) == s.regs;
    assert s1.regs == s.regs;
    s' := Step(s1, Handle(p));
    NextReachable(s1, Handle(p));
    assert s'.batch == [];
  }

  /** Both situations above arise: an idle enabled socket, and two reports in one batch. */
  lemma SituationsArise(fd: int, gd: int) returns (idle: State, busy: State)
    requires fd != gd
    ensures Reachable(idle) && idle.batch == [] && fd in idle.socks && Armed(idle, fd) && !Readable(idle, fd)
    ensures Reachable(busy) && busy.batch == [Client(fd, true), Client(gd, true)]
  {
    assert Reachable(Init()) by {
      assert LegalRun(Init(), []) && PromptRun(Init(), []) && Init() == Exec(Init(), []);
    }
    hide Reachable;
    idle := Accepted(Init(), Peer(fd, [], false));
    var one := Accepted(Init(), Peer(fd, [1], false));
    var two := Accepted(one, Peer(gd, [1], false));
    var reports := [Client(fd, true), Client(gd, true)];
    NextReachable(two, Wait(reports));
    busy := Step(two, Wait(reports));
  }

  predicate SocketsHaveConns(s: State) {
    forall k | k in s.socks :: s.socks[k].conn < |s.conns|
  }
}
