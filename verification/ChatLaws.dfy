/** The laws of the chat server, over every run. */
module ChatLaws {
  import opened Prelude
  import opened ChatModel
  import opened ChatInvariant

  lemma StepInv(s: State, action: Action, foreign: set<int>)
    requires Inv(s, foreign) && LegalAction(s, action)
    ensures Inv(Step(s, action), foreign)
  {
    match action
    case Poll(revents) => StartPassInv(s, revents, foreign);
    case Visit(a) => TurnInv(s, a, foreign);
  }

  lemma {:induction false} ExecInv(s: State, actions: seq<Action>, foreign: set<int>)
    requires Inv(s, foreign) && LegalRun(s, actions)
    ensures Inv(Exec(s, actions), foreign)
    decreases |actions|
  {
    hide Inv, Step, LegalAction;
    if actions == [] {
    } else {
      StepInv(s, actions[0], foreign);
      ExecInv(Step(s, actions[0]), actions[1..], foreign);
    }
  }

  ghost predicate ReachedBy(s: State, limit: nat, fdLimit: nat, lfd: int, foreign: set<int>, past: seq<Action>) {
    LegalRun(Start(limit, fdLimit, lfd, foreign), past) && s == Exec(Start(limit, fdLimit, lfd, foreign), past)
  }

  /** The states the server can be in between two turns of its loops. */
  ghost predicate Reachable(s: State, foreign: set<int>) {
    exists limit: nat, fdLimit: nat, lfd: int, past: seq<Action> ::
      lfd !in foreign && ReachedBy(s, limit, fdLimit, lfd, foreign, past)
  }

  lemma ReachableInv(s: State, foreign: set<int>)
    requires Reachable(s, foreign)
    ensures Inv(s, foreign)
  {
    var limit: nat, fdLimit: nat, lfd: int, past: seq<Action> :|
      lfd !in foreign && ReachedBy(s, limit, fdLimit, lfd, foreign, past);
    StartInv(limit, fdLimit, lfd, foreign);
    ExecInv(Start(limit, fdLimit, lfd, foreign), past, foreign);
  }

  // ---- the pass ----

  lemma {:induction false} DistinctOnce(es: seq<Seen>, e: Seen)
    requires Distinct(es)
    ensures multiset(es)[e] == if e in es then 1 else 0
    decreases |es|
  {
    if es == [] {
    } else {
      var rest := es[..|es| - 1];
      assert es == rest + [es[|es| - 1]];
      DistinctOnce(rest, e);
    }
  }

  /**
   One pass, whatever mix of joins and swap-removals it sees: when it is over, every entry
   reported by `poll` was looked at exactly once, with the flags `poll` reported; so was the
   entry accepted in the pass (at most one), with no flags at all and so to no effect; and
   nothing else was.
   */
  lemma EachEntryOnce(s: State, foreign: set<int>, e: Seen)
    requires Reachable(s, foreign) && s.phase.Waiting?
    ensures multiset(s.visited)[e] == if e in s.polled || e in s.admitted then 1 else 0
    ensures |s.admitted| <= 1
    ensures e in s.admitted ==> e.revents == {} && forall mask :: BranchOf(PollFd(e.fd, mask, e.revents), s.lfd).ToNothing?
  {
    ReachableInv(s, foreign);
    assert Progress(s);
    DistinctOnce(s.polled + s.admitted, e);
    assert multiset(s.polled + s.admitted) == multiset(s.polled) + multiset(s.admitted);
  }

  /** A pass takes no more turns than `poll` reported entries, and one for the entry it may have accepted. */
  lemma PassIsBounded(s: State, foreign: set<int>)
    requires Reachable(s, foreign) && s.phase.Visiting?
    ensures |s.visited| < |s.polled| + |s.admitted| <= |s.polled| + 1
    ensures forall a | LegalAction(s, Visit(a)) :: |Step(s, Visit(a)).visited| == |s.visited| + 1
  {
    ReachableInv(s, foreign);
    var ahead := Entries(s.fds, s.phase.i, s.count + 1);
    assert |ahead| > 0;
    assert |multiset(s.visited) + multiset(ahead)| == |s.visited| + |ahead|;
    assert |multiset(s.polled) + multiset(s.admitted)| == |s.polled| + |s.admitted|;
  }

  // ---- the dense array ----

  lemma {:induction false} ClientCount(fds: seq<PollFd>, hi: nat)
    requires 1 <= hi <= |fds|
    requires forall j, k | 1 <= j < k < hi :: fds[j].fd != fds[k].fd
    ensures |ClientsIn(fds, 1, hi)| == hi - 1
    decreases hi
  {
    if hi == 1 {
      assert ClientsIn(fds, 1, hi) == {};
    } else {
      ClientCount(fds, hi - 1);
      var a, b := ClientsIn(fds, 1, hi - 1), ClientsIn(fds, 1, hi);
      assert fds[hi - 1].fd in b;
      assert b == a + {fds[hi - 1].fd};
    }
  }

  /**
   The dense array is a set: entry 0 is the listening socket, the next `user_counter` are, each
   once, the open client descriptors, which are those that joined and have not left.
   */
  lemma DenseArrayIsSet(s: State, foreign: set<int>)
    requires Reachable(s, foreign)
    ensures s.count < |s.fds| && s.fds[0].fd == s.lfd && s.fds[0].events == {IN, ERR}
    ensures |Members(s)| == s.count <= |s.fds| - 1
    ensures Members(s) == MembersOf(s.log) == s.open - foreign - {s.lfd}
  {
    hide MembersOf, Records, Mail, Texts, Deliveries, Progress, ClientsIn;
    ReachableInv(s, foreign);
    ClientCount(s.fds, s.count + 1);
    ListenerIsNoMember(s);
  }

  lemma ListenerIsNoMember(s: State)
    requires Layout(s)
    ensures s.lfd !in Members(s)
  {
  }

  /** Taking one client out leaves every other client's record, and so its `write_buf`, as it is, and its entry in the array. */
  lemma RemovalSparesTheRest(s: State, i: nat, j: nat, foreign: set<int>)
    requires Reachable(s, foreign) && InBounds(s) && 1 <= i <= s.count && 1 <= j <= s.count && j != i
    ensures
      var fd := s.fds[j].fd;
      var s' := Remove(s, i);
      && s'.users[fd] == s.users[fd]
      && (exists k :: 1 <= k <= s'.count && s'.fds[k] == s.fds[j])
      && Members(s') == Members(s) - {s.fds[i].fd}
  {
    ReachableInv(s, foreign);
    var s' := Remove(s, i);
    LeftMembers(s, s', i);
    var k := if j == s.count then i else j;
    assert s'.fds[k] == s.fds[j];
  }

  // ---- deliveries ----

  /** Note `m` is a broadcast by `g` that `fd` still is due at the end of `log`. */
  ghost predicate StandsSince(log: seq<Note>, fd: int, g: int, m: nat) {
    && m < |log| && log[m].Said? && log[m].speaker == g && g != fd
    && forall l | m < l < |log| ::
         && !(log[l].Joined? && log[l].joined == fd)
         && !(log[l].Delivered? && log[l].to == fd)
         && !(log[l].Said? && log[l].speaker != fd)
  }

  /** What is due to a client, said without recursion, both ways. */
  lemma {:induction false} OwedMeans(log: seq<Note>, fd: int, g: int)
    ensures Owed(log, fd) == Some(g) <==> exists m: nat :: StandsSince(log, fd, g, m)
    decreases |log|
  {
    if log == [] {
    } else {
      var n := |log| - 1;
      var before := log[..n];
      OwedMeans(before, fd, g);
      if Owed(log, fd) == Some(g) {
        if log[n].Said? && log[n].speaker != fd {
          assert StandsSince(log, fd, g, n);
        } else {
          var m: nat :| StandsSince(before, fd, g, m);
          assert StandsSince(log, fd, g, m);
        }
      }
      if m: nat :| StandsSince(log, fd, g, m) {
        if m < n {
          assert StandsSince(before, fd, g, m);
        }
      }
    }
  }

  /** Note `note` changes the buffer of record `g`. */
  predicate Touches(note: Note, g: int) {
    || (note.Said? && note.speaker == g)
    || (note.Blanked? && note.blanked == g)
    || (note.Left? && note.left == g)
  }

  /** Note `l` is the last one to change the buffer of record `g`. */
  ghost predicate LastTouch(log: seq<Note>, g: int, l: nat) {
    && l < |log| && Touches(log[l], g)
    && forall j | l < j < |log| :: !Touches(log[j], g)
  }

  /** Where the text in a buffer comes from, by the last note that changed the buffer. */
  lemma {:induction false} OriginMeans(log: seq<Note>, g: int, l: nat)
    requires LastTouch(log, g, l)
    ensures Origin(log, g) ==
              match log[l]
              case Said(_, _) => Some(l)
              case Left(_, last) => Origin(log[..l], last)
              case _ => None
    decreases |log|
  {
    var n := |log| - 1;
    if l == n {
    } else {
      assert log[..n][..l] == log[..l];
      OriginMeans(log[..n], g, l);
    }
  }

  lemma {:induction false} LastTouchFrom(log: seq<Note>, g: int, m: nat) returns (l: nat)
    requires m < |log| && Touches(log[m], g)
    ensures m <= l && LastTouch(log, g, l)
    decreases |log|
  {
    var n := |log| - 1;
    if Touches(log[n], g) {
      l := n;
    } else {
      l := LastTouchFrom(log[..n], g, m);
    }
  }

  /** Nothing after note `m` overwrote the buffer of `g`. */
  ghost predicate BufferKept(log: seq<Note>, g: int, m: nat) {
    forall l | m < l < |log| :: !Touches(log[l], g)
  }

  ghost predicate Stayed(log: seq<Note>, g: int, m: nat) {
    forall l | m < l < |log| :: !(log[l].Left? && log[l].left == g)
  }

  /** The speaker's buffer holds broadcast `m` if it was not touched since; while it stays, only then. */
  lemma TextStands(log: seq<Note>, g: int, m: nat)
    requires m < |log| && log[m].Said? && log[m].speaker == g
    ensures BufferKept(log, g, m) ==> Origin(log, g) == Some(m)
    ensures Stayed(log, g, m) ==> (Origin(log, g) == Some(m) <==> BufferKept(log, g, m))
  {
    var l := LastTouchFrom(log, g, m);
    OriginMeans(log, g, l);
  }

  /**
   No premature delivery: in every run, whatever was sent to a client was sent while it was a
   member, on account of a broadcast by another client made after it joined and after it was
   last sent anything, and no other client has spoken since that broadcast. What was sent is
   what the speaker's record then held: nothing, or the text of some earlier broadcast.
   */
  lemma NoPrematureDelivery(s: State, foreign: set<int>, k: nat) returns (m: nat)
    requires Reachable(s, foreign) && k < |s.log| && s.log[k].Delivered?
    ensures s.log[k].to in MembersOf(s.log[..k])
    ensures m < k && StandsSince(s.log[..k], s.log[k].to, s.log[k].from, m)
    ensures s.log[k].bytes == CString(Content(s.log[..k], s.log[k].from))
    ensures BufferKept(s.log[..k], s.log[k].from, m) ==> s.log[k].bytes == CString(s.log[m].text)
  {
    hide Owed, Origin, MembersOf, BufferKept, Stayed;
    ReachableInv(s, foreign);
    assert DeliveryOk(s.log, k);
    OwedMeans(s.log[..k], s.log[k].to, s.log[k].from);
    m :| StandsSince(s.log[..k], s.log[k].to, s.log[k].from, m);
    TextStands(s.log[..k], s.log[k].from, m);
  }

  /** No two broadcasts print the same, and none prints nothing. */
  ghost predicate Telling(log: seq<Note>) {
    && (forall j | 0 <= j < |log| && log[j].Said? :: CString(log[j].text) != [])
    && (forall j, l | 0 <= j < l < |log| && log[j].Said? && log[l].Said? :: CString(log[j].text) != CString(log[l].text))
  }

  /**
   Exactly when a delivery has the text of the broadcast `m` it is made for: if and only if that
   broadcast is the origin of what the speaker's record holds, or by coincidence prints the same
   as what it holds. While the speaker stays, the first is that its buffer was not cleared since.
   */
  lemma TextIsRight(s: State, foreign: set<int>, k: nat, m: nat)
    requires Reachable(s, foreign) && k < |s.log| && s.log[k].Delivered?
    requires StandsSince(s.log[..k], s.log[k].to, s.log[k].from, m)
    ensures s.log[k].bytes == CString(s.log[m].text) <==>
              match Origin(s.log[..k], s.log[k].from)
              case None => CString(s.log[m].text) == []
              case Some(o) => o == m || CString(s.log[o].text) == CString(s.log[m].text)
    ensures Telling(s.log) ==>
              (s.log[k].bytes == CString(s.log[m].text) <==> Origin(s.log[..k], s.log[k].from) == Some(m))
    ensures Stayed(s.log[..k], s.log[k].from, m) ==>
              (Origin(s.log[..k], s.log[k].from) == Some(m) <==> BufferKept(s.log[..k], s.log[k].from, m))
  {
    hide Owed, Origin, MembersOf, BufferKept, Stayed;
    ReachableInv(s, foreign);
    assert DeliveryOk(s.log, k);
    assert CString([]) == [];
    TextStands(s.log[..k], s.log[k].from, m);
  }

  /** Note `m` is a broadcast by another client made since `fd` joined. */
  ghost predicate SpokenSince(log: seq<Note>, fd: int, m: nat) {
    && m < |log| && log[m].Said? && log[m].speaker != fd
    && forall l | m < l < |log| :: !(log[l].Joined? && log[l].joined == fd)
  }

  /** Whether any broadcast has reached a client, said without recursion. */
  lemma {:induction false} AskedMeans(log: seq<Note>, fd: int)
    ensures Asked(log, fd) <==> exists m: nat :: SpokenSince(log, fd, m)
    decreases |log|
  {
    if log == [] {
    } else {
      var n := |log| - 1;
      var before := log[..n];
      AskedMeans(before, fd);
      if Asked(log, fd) {
        if log[n].Said? && log[n].speaker != fd {
          assert SpokenSince(log, fd, n);
        } else {
          var m: nat :| SpokenSince(before, fd, m);
          assert SpokenSince(log, fd, m);
        }
      }
      if m: nat :| SpokenSince(log, fd, m) {
        if m < n {
          assert SpokenSince(before, fd, m);
        }
      }
    }
  }

  /**
   A client's mask, exactly: until another client has spoken since it joined, what `accept` gave
   it, so that it is not asked for POLLOUT whatever `write_buf` an earlier holder of its
   descriptor left behind; from then on everything, and `write_buf` is null or points at the
   most recent other broadcaster since its last delivery.
   */
  lemma WriteBufIsDue(s: State, foreign: set<int>, j: nat)
    requires Reachable(s, foreign) && 1 <= j <= s.count < |s.fds| && 0 <= s.fds[j].fd < |s.users|
    ensures
      var fd := s.fds[j].fd;
      if exists m: nat :: SpokenSince(s.log, fd, m)
      then s.fds[j].events == ALL && s.users[fd].writeBuf == Owed(s.log, fd)
      else s.fds[j].events == {IN, RDHUP, ERR} && Owed(s.log, fd) == None && OUT !in s.fds[j].revents
  {
    hide Owed, Asked, HomeOf, SpokenSince;
    ReachableInv(s, foreign);
    assert MailOk(s.fds[j], s.users[s.fds[j].fd], s.log);
    AskedMeans(s.log, s.fds[j].fd);
  }

  /** Note `m` is the last join on descriptor `fd`, from `address`. */
  ghost predicate JoinedAt(log: seq<Note>, fd: int, address: int, m: nat) {
    && m < |log| && log[m] == Joined(fd, address)
    && forall l | m < l < |log| :: !(log[l].Joined? && log[l].joined == fd)
  }

  lemma {:induction false} HomeMeans(log: seq<Note>, fd: int, address: int)
    requires HomeOf(log, fd) == Some(address)
    ensures exists m: nat :: JoinedAt(log, fd, address, m)
    decreases |log|
  {
    var n := |log| - 1;
    if log[n].Joined? && log[n].joined == fd {
      assert JoinedAt(log, fd, address, n);
    } else {
      HomeMeans(log[..n], fd, address);
      var m: nat :| JoinedAt(log[..n], fd, address, m);
      assert JoinedAt(log, fd, address, m);
    }
  }

  /** Whatever records are copied over when others leave, a member's record holds the address it joined from. */
  lemma AddressIsOwn(s: State, foreign: set<int>, j: nat) returns (m: nat)
    requires Reachable(s, foreign) && 1 <= j <= s.count < |s.fds| && 0 <= s.fds[j].fd < |s.users|
    ensures JoinedAt(s.log, s.fds[j].fd, s.users[s.fds[j].fd].address, m)
  {
    hide Owed, Asked, HomeOf, JoinedAt;
    ReachableInv(s, foreign);
    assert MailOk(s.fds[j], s.users[s.fds[j].fd], s.log);
    HomeMeans(s.log, s.fds[j].fd, s.users[s.fds[j].fd].address);
    m :| JoinedAt(s.log, s.fds[j].fd, s.users[s.fds[j].fd].address, m);
  }

  /**
   When a speaker hangs up before its text was passed on, its record becomes a copy of the last
   client's, whose text is then sent in its place: what those it is due to will be sent changes,
   unless it was itself the last client or the two texts print the same.
   */
  lemma LeaverSpeaksForLast(s: State, a: Answer, foreign: set<int>)
    requires Reachable(s, foreign) && LegalAction(s, Visit(a))
    requires InBounds(s) && s.phase.i <= s.count && BranchOf(s.fds[s.phase.i], s.lfd).ToHangUp?
    ensures 1 <= s.phase.i
    ensures
      var s', leaver, last := Step(s, Visit(a)), s.fds[s.phase.i].fd, s.fds[s.count].fd;
      && Content(s'.log, leaver) == Content(s.log, last)
      && (CString(s'.users[leaver].buf) == CString(s.users[leaver].buf)
          <==> s.phase.i == s.count || CString(Content(s.log, last)) == CString(Content(s.log, leaver)))
      && (forall fd :: Owed(s'.log, fd) == Owed(s.log, fd))
  {
    hide Owed, Content, MembersOf, Asked, HomeOf, Mail, Deliveries, Progress, Membership;
    ReachableInv(s, foreign);
    var i := s.phase.i;
    var leaver, last := s.fds[i].fd, s.fds[s.count].fd;
    ListenerBranches(s, i);
    OneNote(s.log, Left(leaver, last));
    CStringFill(Content(s.log, leaver));
    CStringFill(Content(s.log, last));
  }

  /** No step ever takes a flag out of a client's mask: `|= ~flag` clears nothing. */
  lemma MasksOnlyGrow(s: State, action: Action, foreign: set<int>, j: nat, k: nat)
    requires Reachable(s, foreign) && LegalAction(s, action)
    requires 1 <= j <= s.count < |s.fds|
    requires 1 <= k <= Step(s, action).count < |Step(s, action).fds|
    requires Step(s, action).fds[k].fd == s.fds[j].fd
    ensures s.fds[j].events <= Step(s, action).fds[k].events
  {
    hide Records, Mail, Texts, Deliveries, Progress, MembersOf, Spoken, ClientsIn;
    ReachableInv(s, foreign);
    if action.Visit? {
      TurnMasks(s, action.answer, foreign, j, k);
    }
  }

  lemma TurnMasks(s: State, a: Answer, foreign: set<int>, j: nat, k: nat)
    requires Layout(s) && Membership(s, foreign) && LegalAction(s, Visit(a))
    requires 1 <= j <= s.count < |s.fds|
    requires 1 <= k <= Turn(s, a).count < |Turn(s, a).fds|
    requires Turn(s, a).fds[k].fd == s.fds[j].fd
    ensures s.fds[j].events <= Turn(s, a).fds[k].events
  {
    hide Membership, Spoken, ClientsIn, Broadcast;
    var i := s.phase.i;
    ListenerBranches(s, i);
    match BranchOf(s.fds[i], s.lfd)
    case ToAccept => EntriesAreOpen(s, foreign);
    case ToRead =>
      if a.received.Data? {
        SpokenIs(s, i, a);
        SpokenEffect(s, i, a.received.bytes);
      }
    case _ =>
  }

  lemma SpokenIs(s: State, i: nat, a: Answer)
    requires InBounds(s) && 1 <= i <= s.count && a.received.Data? && |a.received.bytes| < BUFFER_SIZE
    ensures Read(s, i, a) == Spoken(s, i, a.received.bytes)
  {
  }

  // ---- a whole pass ----

  /** The answers suffice for, and are legal throughout, what is left of the pass. */
  ghost predicate LegalPass(s: State, answers: seq<Answer>)
    decreases |answers|
  {
    && InBounds(s)
    && (s.phase.Visiting? ==>
          && answers != [] && s.phase.i <= s.count
          && LegalAction(s, Visit(answers[0]))
          && LegalPass(Turn(s, answers[0]), answers[1..]))
  }

  /** The state when the pass is over. */
  ghost function RunPass(s: State, answers: seq<Answer>): State
    requires LegalPass(s, answers)
    decreases |answers|
  {
    if s.phase.Waiting? then s else RunPass(Turn(s, answers[0]), answers[1..])
  }

  /** A pass is part of a run. */
  lemma {:induction false} PassIsRun(s: State, answers: seq<Answer>) returns (actions: seq<Action>)
    requires LegalPass(s, answers)
    ensures LegalRun(s, actions) && Exec(s, actions) == RunPass(s, answers)
    ensures RunPass(s, answers).phase.Waiting?
    decreases |answers|
  {
    if s.phase.Waiting? {
      actions := [];
    } else {
      var rest := PassIsRun(Turn(s, answers[0]), answers[1..]);
      actions := [Visit(answers[0])] + rest;
      assert actions[1..] == rest;
    }
  }
}
