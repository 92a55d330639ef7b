/** A run in which a client is sent the wrong text: its own, in the name of one that has left. */
module ChatWitness {
  import opened Prelude
  import opened ChatModel
  import opened ChatInvariant
  import opened ChatLaws

  lemma {:induction false} RunExtend(s: State, past: seq<Action>, action: Action)
    requires LegalRun(s, past) && LegalAction(Exec(s, past), action)
    ensures LegalRun(s, past + [action]) && Exec(s, past + [action]) == Step(Exec(s, past), action)
    decreases |past|
  {
    hide Step, LegalAction;
    if past == [] {
      assert [] + [action] == [action] && [action][1..] == [];
    } else {
      assert (past + [action])[0] == past[0] && (past + [action])[1..] == past[1..] + [action];
      RunExtend(Step(s, past[0]), past[1..], action);
    }
  }

  lemma NextReachable(s: State, action: Action, foreign: set<int>)
    requires Reachable(s, foreign) && LegalAction(s, action)
    ensures Reachable(Step(s, action), foreign)
  {
    hide Step, LegalAction, Start;
    var limit: nat, fdLimit: nat, lfd: int, past: seq<Action> :|
      lfd !in foreign && ReachedBy(s, limit, fdLimit, lfd, foreign, past);
    RunExtend(Start(limit, fdLimit, lfd, foreign), past, action);
    assert ReachedBy(Step(s, action), limit, fdLimit, lfd, foreign, past + [action]);
  }

  /** Everything in a state but the progress of the pass. */
  datatype Core = Core(fds: seq<PollFd>, count: nat, users: seq<ClientData>, open: set<int>, log: seq<Note>)

  ghost predicate At(s: State, core: Core, phase: Phase) {
    && Reachable(s, {})
    && s.lfd == 0 && s.phase == phase
    && core == Core(s.fds, s.count, s.users, s.open, s.log)
  }

  const Silent := Answer(None, 0, Again)

  function Entry(fd: int, events: Mask, revents: Mask): PollFd { PollFd(fd, events, revents) }

  const ASKED: Mask := {IN, RDHUP, ERR}
  const LISTEN: Mask := {IN, ERR}
  const NONE: PollFd := PollFd(-1, {}, {})

  function Client(writeBuf: Option<int>, text: Bytes): ClientData
    requires |text| < BUFFER_SIZE
  {
    ClientData(0, writeBuf, Fill(text))
  }

  lemma Polls(s: State, core: Core, revents: seq<Mask>) returns (s': State)
    requires At(s, core, Waiting) && InBounds(s) && LegalAction(s, Poll(revents))
    ensures At(s', core.(fds := Reported(core.fds, revents)), Visiting(0))
  {
    hide Reachable;
    NextReachable(s, Poll(revents), {});
    s' := Step(s, Poll(revents));
  }

  lemma Passes(s: State, core: Core, i: nat) returns (s': State)
    requires At(s, core, Visiting(i)) && InBounds(s) && i <= s.count
    requires BranchOf(s.fds[i], 0).ToNothing?
    ensures At(s', core, if i < s.count then Visiting(i + 1) else Waiting)
  {
    hide Reachable;
    NextReachable(s, Visit(Silent), {});
    s' := Step(s, Visit(Silent));
  }

  lemma Joins(s: State, core: Core, fd: int) returns (s': State)
    requires At(s, core, Visiting(0)) && InBounds(s) && s.fds[0].fd == 0 && IN in s.fds[0].revents
    requires s.count + 1 < |s.fds| && 0 <= fd < |s.users| && fd !in s.open
    ensures At(s', Core(core.fds[s.count + 1 := Entry(fd, ASKED, {})], s.count + 1,
                        core.users[fd := core.users[fd].(address := 0)], core.open + {fd}, core.log + [Joined(fd, 0)]),
               Visiting(1))
  {
    hide Reachable;
    var a := Answer(Some(fd), 0, Again);
    NextReachable(s, Visit(a), {});
    s' := Step(s, Visit(a));
  }

  lemma OneJoined() returns (s: State)
    ensures At(s, Core([Entry(0, LISTEN, {IN}), Entry(1, ASKED, {}), NONE], 1,
                       [Client(None, []), Client(None, []), Client(None, [])], {0, 1}, [Joined(1, 0)]), Waiting)
  {
    hide Reachable, Fill, Zeros;
    var s0 := Start(2, 3, 0, {});
    var empty := Client(None, []);
    Started();
    var c0 := Core([Entry(0, LISTEN, {}), NONE, NONE], 0, [empty, empty, empty], {0}, []);
    assert At(s0, c0, Waiting);
    var s1 := Polls(s0, c0, [{IN}]);
    var c1 := c0.(fds := [Entry(0, LISTEN, {IN}), NONE, NONE]);
    assert Reported(c0.fds, [{IN}]) == c1.fds;
    var s2 := Joins(s1, c1, 1);
    var c2 := Core([Entry(0, LISTEN, {IN}), Entry(1, ASKED, {}), NONE], 1, [empty, empty, empty], {0, 1}, [Joined(1, 0)]);
    assert At(s2, c2, Visiting(1));
    s := Passes(s2, c2, 1);
  }

  /** Two clients, 1 and 2, have joined. */
  lemma TwoJoined() returns (s: State)
    ensures At(s, Core([Entry(0, LISTEN, {IN}), Entry(1, ASKED, {}), Entry(2, ASKED, {})], 2,
                       [Client(None, []), Client(None, []), Client(None, [])],
                       {0, 1, 2}, [Joined(1, 0), Joined(2, 0)]), Waiting)
  {
    hide Reachable, Fill, Zeros;
    var s0 := OneJoined();
    var empty := Client(None, []);
    var c0 := Core([Entry(0, LISTEN, {IN}), Entry(1, ASKED, {}), NONE], 1, [empty, empty, empty], {0, 1}, [Joined(1, 0)]);
    var s1 := Polls(s0, c0, [{IN}, {}]);
    assert Reported(c0.fds, [{IN}, {}]) == c0.fds;
    var s2 := Joins(s1, c0, 2);
    var c2 := Core([Entry(0, LISTEN, {IN}), Entry(1, ASKED, {}), Entry(2, ASKED, {})], 2,
                   [empty, empty, empty], {0, 1, 2}, [Joined(1, 0), Joined(2, 0)]);
    assert At(s2, c2, Visiting(1));
    var s3 := Passes(s2, c2, 1);
    s := Passes(s3, c2, 2);
  }

  lemma Speaks(s: State, core: Core, i: nat, text: Bytes) returns (s': State)
    requires At(s, core, Visiting(i)) && InBounds(s) && 1 <= i <= s.count
    requires BranchOf(s.fds[i], 0).ToRead? && 0 < |text| < BUFFER_SIZE
    ensures
      var r := Spoken(s, i, text);
      At(s', core.(fds := r.fds, users := r.users, log := core.log + [Said(s.fds[i].fd, text)]),
         if i < s.count then Visiting(i + 1) else Waiting)
  {
    hide Reachable, Broadcast, Fill;
    var a := Answer(None, 0, Data(text));
    NextReachable(s, Visit(a), {});
    SpokenEffect(s, i, text);
    s' := Step(s, Visit(a));
  }

  /** Client 1 has broadcast `p`; client 2, next in the same pass, is readable. */
  lemma OneSpoke(p: Bytes) returns (s: State)
    requires 0 < |p| < BUFFER_SIZE
    ensures At(s, Core([Entry(0, LISTEN, {}), Entry(1, ASKED, {IN}), Entry(2, ALL, {IN})], 2,
                       [Client(None, []), Client(None, p), Client(Some(1), [])],
                       {0, 1, 2}, [Joined(1, 0), Joined(2, 0), Said(1, p)]), Visiting(2))
  {
    hide Reachable, Fill, Zeros, Broadcast, Spoken;
    var s0 := TwoJoined();
    var c0 := Core(s0.fds, s0.count, s0.users, s0.open, s0.log);
    var revents := [{}, {IN}, {IN}];
    var s1 := Polls(s0, c0, revents);
    var c1 := c0.(fds := [Entry(0, LISTEN, {}), Entry(1, ASKED, {IN}), Entry(2, ASKED, {IN})]);
    assert Reported(c0.fds, revents) == c1.fds;
    var s2 := Passes(s1, c1, 0);
    SpokenEffect(s2, 1, p);
    MembersAre(s2);
    s := Speaks(s2, c1, 1, p);
    assert OrNot(ASKED, IN) + {OUT} == ALL;
    assert s.fds == [Entry(0, LISTEN, {}), Entry(1, ASKED, {IN}), Entry(2, ALL, {IN})];
    assert s.users == [Client(None, []), Client(None, p), Client(Some(1), [])];
  }

  /** Then client 2 `q`: each is due the other's text. */
  lemma BothSpoke(p: Bytes, q: Bytes) returns (s: State)
    requires 0 < |p| < BUFFER_SIZE && 0 < |q| < BUFFER_SIZE
    ensures At(s, Core([Entry(0, LISTEN, {}), Entry(1, ALL, {IN}), Entry(2, ALL, {IN})], 2,
                       [Client(None, []), Client(Some(2), p), Client(Some(1), q)],
                       {0, 1, 2}, [Joined(1, 0), Joined(2, 0), Said(1, p), Said(2, q)]), Waiting)
  {
    hide Reachable, Fill, Zeros, Broadcast, Spoken;
    var s0 := OneSpoke(p);
    SpokenEffect(s0, 2, q);
    MembersAre(s0);
    s := Speaks(s0, Core(s0.fds, s0.count, s0.users, s0.open, s0.log), 2, q);
    assert OrNot(ASKED, IN) + {OUT} == ALL;
    assert s.fds == [Entry(0, LISTEN, {}), Entry(1, ALL, {IN}), Entry(2, ALL, {IN})];
    assert s.users == [Client(None, []), Client(Some(2), p), Client(Some(1), q)];
  }

  lemma MembersAre(s: State)
    requires s.count == 2 < |s.fds| && s.fds[1].fd == 1 && s.fds[2].fd == 2
    ensures Members(s) == {1, 2}
  {
    MemberAt(s, 1);
    MemberAt(s, 2);
  }

  /** Client 1 has hung up: its record is now a copy of that of client 2, whose entry is next. */
  lemma FirstLeft(p: Bytes, q: Bytes) returns (s: State)
    requires 0 < |p| < BUFFER_SIZE && 0 < |q| < BUFFER_SIZE
    ensures At(s, Core([Entry(0, LISTEN, {}), Entry(2, ALL, {OUT}), Entry(2, ALL, {OUT})], 1,
                       [Client(None, []), Client(Some(1), q), Client(Some(1), q)],
                       {0, 2}, [Joined(1, 0), Joined(2, 0), Said(1, p), Said(2, q), Left(1, 2)]), Visiting(1))
  {
    hide Reachable, Fill, Zeros;
    var s0 := BothSpoke(p, q);
    var c0 := Core(s0.fds, s0.count, s0.users, s0.open, s0.log);
    var revents := [{}, {RDHUP}, {OUT}];
    var s1 := Polls(s0, c0, revents);
    var c1 := c0.(fds := [Entry(0, LISTEN, {}), Entry(1, ALL, {RDHUP}), Entry(2, ALL, {OUT})]);
    assert Reported(c0.fds, revents) == c1.fds;
    var s2 := Passes(s1, c1, 0);
    NextReachable(s2, Visit(Silent), {});
    s := Step(s2, Visit(Silent));
  }

  /**
   For any two texts: client 1 broadcasts `p`, client 2 broadcasts `q`, client 1 hangs up, and
   what client 2 is then sent, for the broadcast of client 1, is its own text `q`.
   */
  lemma WrongText(p: Bytes, q: Bytes) returns (s: State)
    requires 0 < |p| < BUFFER_SIZE && 0 < |q| < BUFFER_SIZE
    ensures Reachable(s, {})
    ensures s.log == [Joined(1, 0), Joined(2, 0), Said(1, p), Said(2, q), Left(1, 2), Delivered(2, 1, CString(q))]
    ensures StandsSince(s.log[..5], 2, 1, 2)
  {
    hide Reachable, Fill, Zeros;
    var s0 := FirstLeft(p, q);
    NextReachable(s0, Visit(Silent), {});
    s := Step(s0, Visit(Silent));
    CStringFill(q);
    assert s.log == s0.log + [Delivered(2, 1, CString(Fill(q)))];
  }

  lemma Started()
    ensures Reachable(Start(2, 3, 0, {}), {})
    ensures Start(2, 3, 0, {}).users == [Client(None, []), Client(None, []), Client(None, [])]
    ensures Start(2, 3, 0, {}).fds == [Entry(0, LISTEN, {}), NONE, NONE]
  {
    var s0 := Start(2, 3, 0, {});
    assert LegalRun(s0, []) && s0 == Exec(s0, []);
    assert ReachedBy(s0, 2, 3, 0, {}, []);
    assert Fill([]) == Zeros(BUFFER_SIZE);
  }
}
