/**
 What every reachable state of the reactor satisfies, and the four shapes of change that
 every callback and every timeout boils down to.
 */
module ReactorInvariant {
  import opened Prelude
  import opened EpollKernel
  import opened ReactorModel

  predicate Active(s: State, i: nat)
    requires i < |s.table|
  {
    s.table[i].status == 1
  }

  /** Typestate: a client slot is idle, or waits to receive, or waits to send. */
  predicate SlotOk(ev: MyEvent, i: nat) {
    && (ev.status == 0 || ev.status == 1)
    && (ev.status == 1 ==>
          && ev.arg == Slot(i)
          && (|| (ev.callback == RecvData && ev.events == {IN})
              || (ev.callback == SendData && ev.events == {OUT})))
    && ev.len <= |ev.buf|
  }

  predicate ListenerOk(ev: MyEvent, i: nat) {
    && ev.status == 1
    && ev.arg == Slot(i)
    && ev.callback == AcceptConn
    && ev.events == {IN}
    && ev.len <= |ev.buf|
  }

  ghost predicate Typestate(s: State, size: nat) {
    && |s.table| > 1
    && s.checkpos <= Limit(s)
    && (forall i: nat | i < |s.table| :: |s.table[i].buf| == size)
    && (forall i: nat | i < Limit(s) :: SlotOk(s.table[i], i))
    && ListenerOk(s.table[Limit(s)], Limit(s))
  }

  /** The interest set is exactly { fd -> (events, slot) : status == 1 }. */
  ghost predicate Agreement(s: State) {
    && (forall i: nat | i < |s.table| && s.table[i].status == 1 ::
          && s.table[i].fd in s.kernel.interest
          && s.kernel.interest[s.table[i].fd] == Registration(s.table[i].events, i))
    && (forall fd | fd in s.kernel.interest ::
          && fd in s.kernel.open
          && s.kernel.interest[fd].slot < |s.table|
          && s.table[s.kernel.interest[fd].slot].status == 1
          && s.table[s.kernel.interest[fd].slot].fd == fd)
  }

  predicate Ended(t: seq<Turn>) {
    |t| > 0 && (t[|t| - 1].Closed? || t[|t| - 1].TimedOut? || t[|t| - 1].Dropped?)
  }

  /** Connections that are not over are in one-to-one correspondence with occupied client slots. */
  ghost predicate Ownership(s: State) {
    && |s.table| > 0
    && (forall i: nat :: i in s.owner <==> i < Limit(s) && s.table[i].status == 1)
    && (forall i | i in s.owner ::
          && s.owner[i] < |s.conns|
          && !Ended(s.conns[s.owner[i]])
          && |s.conns[s.owner[i]]| > 0
          && s.conns[s.owner[i]][0].Opened?
          && s.conns[s.owner[i]][0].slot == i
          && s.conns[s.owner[i]][0].fd == s.table[i].fd)
    && (forall c: nat | c < |s.conns| && !Ended(s.conns[c]) ::
          && |s.conns[c]| > 0
          && s.conns[c][0].Opened?
          && s.conns[c][0].slot in s.owner
          && s.owner[s.conns[c][0].slot] == c)
  }

  /** Descriptors: those the process had, those registered, and those `acceptconn` abandoned; every registration was a successful ADD. */
  ghost predicate Descriptors(s: State, foreign: set<int>) {
    && s.kernel.open == foreign + s.kernel.interest.Keys + s.leaked
    && foreign !! s.kernel.interest.Keys
    && s.leaked !! s.kernel.interest.Keys
    && foreign !! s.leaked
    && (forall c: nat | c < |s.conns| && |s.conns[c]| > 0 && s.conns[c][0].Dropped? :: s.conns[c][0].dropped in s.leaked)
    && (forall fd | fd in s.leaked :: [Dropped(fd)] in s.conns)
    && s.mods == 0 && s.failures == 0
  }

  /** The bytes of `chunk` that `recvdata` leaves for `senddata`. */
  function Queued(chunk: Bytes, size: nat): Bytes {
    chunk[..StoredLen(|chunk|, size)]
  }

  predicate TurnOk(t: seq<Turn>, k: nat, size: nat)
    requires k < |t|
  {
    match t[k]
    case Opened(_, _, _) => k == 0
    case Dropped(_) => k == 0 && |t| == 1
    case Received(chunk, _) => k % 2 == 1 && 0 < |chunk| <= size
    case Sent(bytes, _) =>
      && k >= 2 && k % 2 == 0 && t[k - 1].Received?
      && 0 < |bytes| && bytes <= Queued(t[k - 1].chunk, size)
    case Closed => k > 0 && k == |t| - 1
    case TimedOut => k > 0 && k == |t| - 1
  }

  /** Opened, then receive and send in turn, until closed. */
  ghost predicate Alternates(t: seq<Turn>, size: nat) {
    && |t| > 0
    && (t[0].Opened? || t[0].Dropped?)
    && forall k: nat | k < |t| :: TurnOk(t, k, size)
  }

  /** The buffer begins with `chunk` and, if there is room, the terminator. */
  predicate Holds(buf: Bytes, chunk: Bytes) {
    && chunk <= buf
    && (|chunk| < |buf| ==> buf[|chunk|] == 0)
  }

  predicate Timed(turn: Turn, at: int) {
    (turn.Opened? || turn.Received? || turn.Sent?) && turn.at == at
  }

  /** An occupied slot agrees with the turns of its connection so far. */
  predicate SlotMatches(ev: MyEvent, t: seq<Turn>, size: nat) {
    && |t| > 0
    && Timed(t[|t| - 1], ev.lastActive)
    && (ev.callback == RecvData ==> |t| % 2 == 1)
    && (ev.callback == SendData ==>
          && |t| % 2 == 0
          && t[|t| - 1].Received?
          && ev.len <= |ev.buf|
          && ev.buf[..ev.len] == Queued(t[|t| - 1].chunk, size)
          && Holds(ev.buf, t[|t| - 1].chunk))
  }

  ghost predicate Histories(s: State, size: nat) {
    && (forall c: nat | c < |s.conns| :: Alternates(s.conns[c], size))
    && (forall i | i in s.owner && i < |s.table| && s.owner[i] < |s.conns| ::
          SlotMatches(s.table[i], s.conns[s.owner[i]], size))
  }

  ghost predicate Inv(s: State, size: nat, foreign: set<int>) {
    && Typestate(s, size)
    && Agreement(s)
    && Ownership(s)
    && Descriptors(s, foreign)
    && Histories(s, size)
  }

  lemma StartInv(limit: nat, size: nat, lfd: int, foreign: set<int>, now: int)
    requires limit > 0 && lfd !in foreign
    ensures Inv(Start(limit, size, lfd, foreign, now), size, foreign)
  {
    var s := Start(limit, size, lfd, foreign, now);
    assert s.table[limit] == MyEvent(lfd, {IN}, Slot(limit), AcceptConn, 1, seq(size, _ => 0 as uint8), 0, now);
    assert s.kernel.interest == map[lfd := Registration({IN}, limit)];
  }

  // ---- the shapes of change ----

  /** Occupied slot `i` moves to `ev`, on the same descriptor, and its connection takes a turn. */
  function Turned(s: State, i: nat, ev: MyEvent, turn: Turn): State
    requires i < |s.table|
  {
    Note(s.(table := s.table[i := ev],
            kernel := s.kernel.(interest := s.kernel.interest[ev.fd := Registration(ev.events, i)])),
         i, turn)
  }

  /** Occupied slot `i` is freed, its descriptor closed, its connection over. */
  function Retired(s: State, i: nat, turn: Turn): State
    requires i < |s.table|
  {
    Finish(s.(table := s.table[i := s.table[i].(status := 0)],
              kernel := CloseFd(s.kernel, s.table[i].fd)),
           i, turn)
  }

  /** Free slot `i` takes a new connection. */
  function Admitted(s: State, i: nat, fd: int, now: int): State
    requires i < |s.table|
  {
    s.(table := s.table[i := s.table[i].(fd := fd, events := {IN}, arg := Slot(i), callback := RecvData, status := 1, lastActive := now)],
       kernel := Kernel(s.kernel.open + {fd}, s.kernel.interest[fd := Registration({IN}, i)]),
       conns := s.conns + [[Opened(i, fd, now)]],
       owner := s.owner[i := |s.conns|])
  }

  function Refused(s: State, fd: int): State {
    Drop(s.(kernel := OpenFd(s.kernel, fd)), fd)
  }

  predicate CanTurn(s: State, i: nat, ev: MyEvent, turn: Turn, size: nat) {
    && i in s.owner && i < |s.table| && s.owner[i] < |s.conns|
    && ev.fd == s.table[i].fd && ev.status == 1 && SlotOk(ev, i) && |ev.buf| == size
    && (turn.Received? || turn.Sent?)
    && var t := s.conns[s.owner[i]] + [turn];
    && TurnOk(t, |t| - 1, size)
    && SlotMatches(ev, t, size)
  }

  lemma AppendAlternates(t: seq<Turn>, turn: Turn, size: nat)
    requires Alternates(t, size) && !Ended(t)
    requires TurnOk(t + [turn], |t|, size)
    ensures Alternates(t + [turn], size)
  {
    forall k: nat | k < |t + [turn]| ensures TurnOk(t + [turn], k, size) {
      if k < |t| {
        assert TurnOk(t, k, size);
      }
    }
  }

  /** A dropped connection keeps its one turn when histories only grow at connections that are not over. */
  lemma DroppedStay(s: State, s': State)
    requires forall fd | fd in s.leaked :: [Dropped(fd)] in s.conns
    requires |s.conns| <= |s'.conns|
    requires forall c | 0 <= c < |s.conns| && Ended(s.conns[c]) :: s'.conns[c] == s.conns[c]
    ensures forall fd | fd in s.leaked :: [Dropped(fd)] in s'.conns
  {
    forall fd | fd in s.leaked ensures [Dropped(fd)] in s'.conns {
      var c :| 0 <= c < |s.conns| && s.conns[c] == [Dropped(fd)];
      assert Ended(s.conns[c]);
      assert s'.conns[c] == [Dropped(fd)];
    }
  }

  lemma TurnedTable(s: State, i: nat, ev: MyEvent, turn: Turn, size: nat, foreign: set<int>)
    requires Inv(s, size, foreign) && CanTurn(s, i, ev, turn, size)
    ensures Typestate(Turned(s, i, ev, turn), size)
    ensures Agreement(Turned(s, i, ev, turn))
  {
    hide Descriptors, Histories, SlotMatches, TurnOk;
  }

  lemma TurnedHistory(s: State, i: nat, ev: MyEvent, turn: Turn, size: nat, foreign: set<int>)
    requires Inv(s, size, foreign) && CanTurn(s, i, ev, turn, size)
    ensures Ownership(Turned(s, i, ev, turn))
    ensures Histories(Turned(s, i, ev, turn), size)
  {
    hide Typestate, Agreement, Descriptors, Alternates;
    var c := s.owner[i];
    AppendAlternates(s.conns[c], turn, size);
  }

  lemma TurnedDescriptors(s: State, i: nat, ev: MyEvent, turn: Turn, size: nat, foreign: set<int>)
    requires Inv(s, size, foreign) && CanTurn(s, i, ev, turn, size)
    ensures Descriptors(Turned(s, i, ev, turn), foreign)
  {
    var s' := Turned(s, i, ev, turn);
    assert s'.kernel.interest.Keys == s.kernel.interest.Keys;
    DroppedStay(s, s');
  }

  lemma TurnedInv(s: State, i: nat, ev: MyEvent, turn: Turn, size: nat, foreign: set<int>)
    requires Inv(s, size, foreign) && CanTurn(s, i, ev, turn, size)
    ensures Inv(Turned(s, i, ev, turn), size, foreign)
  {
    hide Typestate, Agreement, Ownership, Descriptors, Histories, Turned, CanTurn;
    TurnedTable(s, i, ev, turn, size, foreign);
    TurnedHistory(s, i, ev, turn, size, foreign);
    TurnedDescriptors(s, i, ev, turn, size, foreign);
  }

  lemma RetiredTable(s: State, i: nat, turn: Turn, size: nat, foreign: set<int>)
    requires Inv(s, size, foreign) && i in s.owner
    ensures i < |s.table| && Typestate(Retired(s, i, turn), size)
    ensures Agreement(Retired(s, i, turn))
  {
    hide Descriptors, Histories, Ended;
  }

  lemma RetiredOwnership(s: State, i: nat, turn: Turn, size: nat, foreign: set<int>)
    requires Inv(s, size, foreign) && i in s.owner && (turn.Closed? || turn.TimedOut?)
    ensures Ownership(Retired(s, i, turn))
  {
    hide Agreement, Descriptors, Histories;
    var c := s.owner[i];
    var s' := Retired(s, i, turn);
    assert s'.conns == s.conns[c := s.conns[c] + [turn]];
    assert Ended(s'.conns[c]);
    forall j | j in s'.owner
      ensures s.owner[j] != c && s'.owner[j] == s.owner[j] && s'.conns[s'.owner[j]] == s.conns[s.owner[j]]
    {
      assert s.conns[s.owner[j]][0].slot == j;
    }
    forall d: nat | d < |s'.conns| && !Ended(s'.conns[d])
      ensures d != c && s'.conns[d] == s.conns[d] && s.conns[d][0].slot in s'.owner
    {
      assert s.conns[d][0].slot != i;
    }
  }

  lemma RetiredHistory(s: State, i: nat, turn: Turn, size: nat, foreign: set<int>)
    requires Inv(s, size, foreign) && i in s.owner && (turn.Closed? || turn.TimedOut?)
    ensures Histories(Retired(s, i, turn), size)
  {
    var c := s.owner[i];
    var s' := Retired(s, i, turn);
    assert s'.conns == s.conns[c := s.conns[c] + [turn]];
    AppendAlternates(s.conns[c], turn, size);
    forall j | j in s'.owner && j < |s'.table| && s'.owner[j] < |s'.conns|
      ensures SlotMatches(s'.table[j], s'.conns[s'.owner[j]], size)
    {
      assert s.owner[j] != c;
      assert s'.table[j] == s.table[j];
    }
  }

  lemma RetiredDescriptors(s: State, i: nat, turn: Turn, size: nat, foreign: set<int>)
    requires Inv(s, size, foreign) && i in s.owner && (turn.Closed? || turn.TimedOut?)
    ensures i < |s.table| && Descriptors(Retired(s, i, turn), foreign)
  {
    hide Typestate, Histories;
    var s' := Retired(s, i, turn);
    assert s'.kernel.interest.Keys == s.kernel.interest.Keys - {s.table[i].fd};
    DroppedStay(s, s');
  }

  lemma RetiredInv(s: State, i: nat, turn: Turn, size: nat, foreign: set<int>)
    requires Inv(s, size, foreign) && i in s.owner && (turn.Closed? || turn.TimedOut?)
    ensures i < |s.table| && Inv(Retired(s, i, turn), size, foreign)
  {
    hide Typestate, Agreement, Ownership, Descriptors, Histories, Retired;
    RetiredTable(s, i, turn, size, foreign);
    RetiredOwnership(s, i, turn, size, foreign);
    RetiredHistory(s, i, turn, size, foreign);
    RetiredDescriptors(s, i, turn, size, foreign);
  }

  predicate CanAdmit(s: State, i: nat, fd: int) {
    |s.table| > 0 && i < Limit(s) && s.table[i].status == 0 && fd !in s.kernel.open
  }

  lemma AdmittedTable(s: State, i: nat, fd: int, now: int, size: nat, foreign: set<int>)
    requires Inv(s, size, foreign) && CanAdmit(s, i, fd)
    ensures Typestate(Admitted(s, i, fd, now), size)
    ensures Agreement(Admitted(s, i, fd, now))
  {
  }

  lemma AdmittedOwnership(s: State, i: nat, fd: int, now: int, size: nat, foreign: set<int>)
    requires Inv(s, size, foreign) && CanAdmit(s, i, fd)
    ensures Ownership(Admitted(s, i, fd, now))
  {
    hide Typestate, Agreement, Descriptors, Histories;
    var s' := Admitted(s, i, fd, now);
    assert i !in s.owner;
    forall c: nat | c < |s'.conns| && !Ended(s'.conns[c])
      ensures |s'.conns[c]| > 0 && s'.conns[c][0].Opened?
      ensures s'.conns[c][0].slot in s'.owner && s'.owner[s'.conns[c][0].slot] == c
    {
      if c < |s.conns| {
        assert s'.conns[c] == s.conns[c];
        assert s.conns[c][0].slot != i;
      } else {
        assert s'.conns[c] == [Opened(i, fd, now)];
      }
    }
  }

  lemma AdmittedHistory(s: State, i: nat, fd: int, now: int, size: nat, foreign: set<int>)
    requires Inv(s, size, foreign) && CanAdmit(s, i, fd)
    ensures Histories(Admitted(s, i, fd, now), size)
  {
    assert Alternates([Opened(i, fd, now)], size);
  }

  lemma AdmittedDescriptors(s: State, i: nat, fd: int, now: int, size: nat, foreign: set<int>)
    requires Inv(s, size, foreign) && CanAdmit(s, i, fd)
    ensures Descriptors(Admitted(s, i, fd, now), foreign)
  {
    var s' := Admitted(s, i, fd, now);
    assert s'.kernel.interest.Keys == s.kernel.interest.Keys + {fd};
    DroppedStay(s, s');
  }

  lemma AdmittedInv(s: State, i: nat, fd: int, now: int, size: nat, foreign: set<int>)
    requires Inv(s, size, foreign) && CanAdmit(s, i, fd)
    ensures Inv(Admitted(s, i, fd, now), size, foreign)
  {
    hide Typestate, Agreement, Ownership, Descriptors, Histories, Admitted;
    AdmittedTable(s, i, fd, now, size, foreign);
    AdmittedOwnership(s, i, fd, now, size, foreign);
    AdmittedHistory(s, i, fd, now, size, foreign);
    AdmittedDescriptors(s, i, fd, now, size, foreign);
  }

  lemma RefusedTable(s: State, fd: int, size: nat, foreign: set<int>)
    requires Inv(s, size, foreign) && fd !in s.kernel.open
    ensures Typestate(Refused(s, fd), size)
    ensures Agreement(Refused(s, fd))
  {
    hide Ownership, Descriptors, Histories;
  }

  lemma RefusedOwnership(s: State, fd: int)
    requires Ownership(s)
    ensures Ownership(Refused(s, fd))
  {
    var s' := Refused(s, fd);
    forall c: nat | c < |s'.conns| && !Ended(s'.conns[c]) ensures c < |s.conns| && s'.conns[c] == s.conns[c] {
    }
  }

  lemma RefusedHistory(s: State, fd: int, size: nat)
    requires Ownership(s) && Histories(s, size)
    ensures Histories(Refused(s, fd), size)
  {
    assert Alternates([Dropped(fd)], size);
  }

  lemma RefusedDescriptors(s: State, fd: int, size: nat, foreign: set<int>)
    requires Inv(s, size, foreign) && fd !in s.kernel.open
    ensures Descriptors(Refused(s, fd), foreign)
  {
    hide Typestate, Ownership, Histories;
    var s' := Refused(s, fd);
    DroppedStay(s, s');
    assert s'.conns[|s.conns|] == [Dropped(fd)];
  }

  lemma RefusedInv(s: State, fd: int, size: nat, foreign: set<int>)
    requires Inv(s, size, foreign) && fd !in s.kernel.open
    ensures Inv(Refused(s, fd), size, foreign)
  {
    hide Typestate, Agreement, Ownership, Descriptors, Histories, Refused;
    RefusedTable(s, fd, size, foreign);
    RefusedOwnership(s, fd);
    RefusedHistory(s, fd, size);
    RefusedDescriptors(s, fd, size, foreign);
  }
}
