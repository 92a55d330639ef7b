/**
 What one turn of the loop does, by the flags `poll` reported for the entry it looks at: which flag
 goes before which, what is noted, and what else changes.
 */
module ChatSteps {
  import opened Prelude
  import opened ChatModel
  import opened ChatInvariant
  import opened ChatLaws

  /** A legal turn at entry `i` of a reachable state, at which `poll` reported `revents` for descriptor `fd`. */
  ghost predicate TurnAt(s: State, a: Answer, foreign: set<int>, i: nat, fd: int, revents: Mask) {
    && Reachable(s, foreign) && LegalAction(s, Visit(a))
    && s.phase == Visiting(i) && i <= s.count < |s.fds|
    && s.fds[i].fd == fd && s.fds[i].revents == revents
  }

  /** The loop goes on with entry `next`, and `poll` is called again after the last. */
  predicate GoesTo(s': State, next: nat) {
    s'.phase == if next <= s'.count then Visiting(next) else Waiting
  }

  /** Nothing changes but the position. */
  ghost predicate Passed(s: State, s': State, i: nat) {
    && s' == s.(phase := s'.phase, visited := s'.visited)
    && GoesTo(s', i + 1)
  }

  /** The client on `fd` is taken out and its descriptor closed; entry `i` is looked at once more. */
  ghost predicate Removed(s: State, s': State, i: nat, fd: int) {
    && 1 <= i <= s.count < |s.fds| && s'.count == s.count - 1 < |s'.fds|
    && s'.open == s.open - {fd} && fd in s.open
    && Members(s') == Members(s) - {fd}
    && s'.fds == s.fds[i := s.fds[s.count]]
    && GoesTo(s', i)
  }

  lemma TurnFacts(s: State, a: Answer, foreign: set<int>, i: nat, fd: int, revents: Mask)
    requires TurnAt(s, a, foreign, i, fd, revents)
    ensures InBounds(s) && Step(s, Visit(a)) == Turn(s, a)
    ensures i == 0 <==> fd == s.lfd
    ensures i == 0 ==> RDHUP !in revents && OUT !in revents
    ensures i >= 1 ==> 0 <= fd < |s.users|
    ensures forall j | 0 <= j <= s.count :: s.fds[j].fd in s.open
  {
    hide MembersOf, Records, Mail, Texts, Deliveries, Progress, ClientsIn, Turn;
    ReachableInv(s, foreign);
    EntriesAreOpen(s, foreign);
  }

  /** With POLLERR nothing is done, whatever else is reported, except to accept. */
  lemma ErrorIsPassedOver(s: State, a: Answer, foreign: set<int>, i: nat, fd: int, revents: Mask)
    requires TurnAt(s, a, foreign, i, fd, revents)
    requires ERR in revents && (i == 0 ==> IN !in revents)
    ensures Passed(s, Step(s, Visit(a)), i)
  {
    hide Reachable;
    TurnFacts(s, a, foreign, i, fd, revents);
  }

  /** Nor without any of the flags the loop tests for. */
  lemma NoFlagIsPassedOver(s: State, a: Answer, foreign: set<int>, i: nat, fd: int, revents: Mask)
    requires TurnAt(s, a, foreign, i, fd, revents)
    requires revents !! {ERR, RDHUP, IN, OUT}
    ensures Passed(s, Step(s, Visit(a)), i)
  {
    hide Reachable;
    TurnFacts(s, a, foreign, i, fd, revents);
  }

  /** A failing `accept` changes nothing; with the table full the client is turned away; else it joins at the end. */
  lemma Accepts(s: State, a: Answer, foreign: set<int>, fd: int, revents: Mask)
    requires TurnAt(s, a, foreign, 0, fd, revents) && IN in revents
    ensures
      var s' := Step(s, Visit(a));
      match a.accepted
      case None => Passed(s, s', 0)
      case Some(g) =>
        && GoesTo(s', 1)
        && if s.count == |s.fds| - 1
           then s' == s.(phase := s'.phase, visited := s'.visited, log := s.log + [Rejected(g)])
           else
             && s'.log == s.log + [Joined(g, a.address)] && s'.count == s.count + 1
             && s'.open == s.open + {g} && g !in s.open
             && s'.fds == s.fds[s.count + 1 := PollFd(g, {IN, RDHUP, ERR}, {})]
             && s'.admitted == s.admitted + [Seen(g, {})]
  {
    hide Reachable;
    TurnFacts(s, a, foreign, 0, fd, revents);
  }

  /** With POLLRDHUP, and no POLLERR, the client is taken out, whatever POLLIN and POLLOUT say. */
  lemma HangUpRemoves(s: State, a: Answer, foreign: set<int>, i: nat, fd: int, revents: Mask)
    requires TurnAt(s, a, foreign, i, fd, revents)
    requires RDHUP in revents && ERR !in revents
    ensures Removed(s, Step(s, Visit(a)), i, fd)
    ensures
      var last := s.fds[s.count].fd;
      && 0 <= last < |s.users| && 0 <= fd < |s.users|
      && Step(s, Visit(a)).log == s.log + [Left(fd, last)]
      && Step(s, Visit(a)).users == s.users[fd := s.users[last]]
  {
    hide Reachable, ClientsIn;
    TurnFacts(s, a, foreign, i, fd, revents);
    RemovedMembers(s, Step(s, Visit(a)), i, foreign);
  }

  lemma RemovedMembers(s: State, s': State, i: nat, foreign: set<int>)
    requires Reachable(s, foreign) && 1 <= i <= s.count < |s.fds|
    requires s'.count == s.count - 1 && s'.fds == s.fds[i := s.fds[s.count]]
    ensures Members(s') == Members(s) - {s.fds[i].fd}
  {
    hide Records, Membership, Mail, Texts, Deliveries, Progress, ClientsIn;
    ReachableInv(s, foreign);
    LeftMembers(s, s', i);
  }

  /** A broadcast asks every other client for everything and points it at the speaker. */
  ghost predicate Heard(s': State, speaker: int) {
    && InBounds(s')
    && forall j | 1 <= j <= s'.count && s'.fds[j].fd != speaker ::
         s'.fds[j].events == ALL && s'.users[s'.fds[j].fd].writeBuf == Some(speaker)
  }

  /** With POLLIN, and neither of those two, the client is read, whatever POLLOUT says. */
  lemma InputIsRead(s: State, a: Answer, foreign: set<int>, i: nat, fd: int, revents: Mask)
    requires TurnAt(s, a, foreign, i, fd, revents) && i >= 1
    requires IN in revents && ERR !in revents && RDHUP !in revents
    ensures
      var s' := Step(s, Visit(a));
      match a.received
      case Failed =>
        var last := s.fds[s.count].fd;
        && Removed(s, s', i, fd) && s'.log == s.log + [Blanked(fd), Left(fd, last)]
        && 0 <= last < |s.users| && 0 <= fd < |s.users|
        && s'.users == s.users[fd := if last == fd then s.users[fd].(buf := Zeros(BUFFER_SIZE)) else s.users[last]]
      case Data(bytes) =>
        && s'.log == s.log + [Said(fd, bytes)] && s'.open == s.open && s'.count == s.count
        && 0 <= fd < |s'.users| && |bytes| < BUFFER_SIZE && s'.users[fd].buf == Fill(bytes)
        && Heard(s', fd) && GoesTo(s', i + 1)
      case _ =>
        && s'.log == s.log + [Blanked(fd)] && s'.open == s.open && s'.count == s.count && s'.fds == s.fds
        && 0 <= fd < |s'.users| && s'.users == s.users[fd := s.users[fd].(buf := Zeros(BUFFER_SIZE))]
        && GoesTo(s', i + 1)
  {
    hide Reachable, ClientsIn, Broadcast, Spoken, Fill, Zeros;
    TurnFacts(s, a, foreign, i, fd, revents);
    match a.received
    case Failed => RemovedMembers(s, Step(s, Visit(a)), i, foreign);
    case Data(bytes) =>
      SpokenIs(s, i, a);
      Hears(s, i, bytes, foreign);
      SpokenEffect(s, i, bytes);
    case _ =>
  }

  lemma Hears(s: State, i: nat, bytes: Bytes, foreign: set<int>)
    requires Reachable(s, foreign) && InBounds(s) && 1 <= i <= s.count && |bytes| < BUFFER_SIZE
    ensures Heard(Spoken(s, i, bytes), s.fds[i].fd)
  {
    hide Spoken, Fill, ClientsIn, Owed, Asked, HomeOf, Reachable;
    ReachableInv(s, foreign);
    SpokenEffect(s, i, bytes);
    var s' := Spoken(s, i, bytes);
    forall j | 1 <= j <= s'.count && s'.fds[j].fd != s.fds[i].fd
      ensures s'.fds[j].events == ALL && s'.users[s'.fds[j].fd].writeBuf == Some(s.fds[i].fd)
    {
      MemberAt(s, j);
      assert MailOk(s.fds[j], s.users[s.fds[j].fd], s.log);
    }
  }

  /**
   With POLLOUT alone of the four, what the client is due is sent: exactly one delivery, of what the
   speaker's record holds, if a broadcast is due to it, and nothing otherwise.
   */
  lemma OutputIsSent(s: State, a: Answer, foreign: set<int>, i: nat, fd: int, revents: Mask)
    requires TurnAt(s, a, foreign, i, fd, revents) && i >= 1
    requires OUT in revents && ERR !in revents && RDHUP !in revents && IN !in revents
    ensures
      var s' := Step(s, Visit(a));
      && 0 <= fd < |s.users| && GoesTo(s', i + 1)
      && match Owed(s.log, fd)
         case None => Passed(s, s', i)
         case Some(g) =>
           && s'.log == s.log + [Delivered(fd, g, CString(Content(s.log, g)))]
           && s'.users == s.users[fd := s.users[fd].(writeBuf := None)]
           && s'.open == s.open && s'.count == s.count && s'.fds == s.fds
  {
    hide Reachable, Owed, Content, Write;
    TurnFacts(s, a, foreign, i, fd, revents);
    WhatIsWritten(s, i, foreign);
  }

  lemma WhatIsWritten(s: State, i: nat, foreign: set<int>)
    requires Reachable(s, foreign) && InBounds(s) && 1 <= i <= s.count && OUT in s.fds[i].revents
    ensures
      var fd := s.fds[i].fd;
      match Owed(s.log, fd)
      case None => Write(s, i) == s
      case Some(g) =>
        Write(s, i) == s.(log := s.log + [Delivered(fd, g, CString(Content(s.log, g)))],
                          users := s.users[fd := s.users[fd].(writeBuf := None)])
  {
    hide Reachable, Owed, Asked, HomeOf, Content, MembersOf, Progress, Deliveries, Membership, Fill;
    ReachableInv(s, foreign);
    var fd := s.fds[i].fd;
    assert MailOk(s.fds[i], s.users[fd], s.log);
    assert OrNot(ALL, OUT) + {IN} == ALL;
    assert s.fds[i].(events := ALL) == s.fds[i];
    if s.users[fd].writeBuf.Some? {
      CStringFill(Content(s.log, s.users[fd].writeBuf.value));
      assert s.fds[i := s.fds[i]] == s.fds;
    }
  }

  /** `poll` hands its reports to the entries, and the pass begins with the first. */
  lemma PollReports(s: State, revents: seq<Mask>, foreign: set<int>)
    requires Reachable(s, foreign) && LegalAction(s, Poll(revents))
    ensures
      var s' := Step(s, Poll(revents));
      && s'.phase == Visiting(0) && s'.log == s.log && s'.open == s.open && s'.users == s.users && s'.count == s.count
      && |s'.fds| == |s.fds| && |s'.polled| == s.count + 1 && s'.visited == [] && s'.admitted == []
      && (forall j | 0 <= j <= s.count :: s'.fds[j] == s.fds[j].(revents := revents[j]) && s'.polled[j] == Seen(s.fds[j].fd, revents[j]))
  {
    hide Records, Mail, Texts, Deliveries, Progress, ClientsIn, Membership;
    ReachableInv(s, foreign);
  }

  /** A read returns at most 63 bytes of a 64-byte buffer, and may return any number up to that. */
  lemma ReadSize(s: State, bytes: Bytes)
    requires s.phase.Visiting?
    ensures LegalAction(s, Visit(Answer(None, 0, Data(bytes)))) <==> 1 <= |bytes| <= 63
    ensures 1 <= |bytes| <= 63 ==> |Fill(bytes)| == 64
  {
  }
}
