/**
 What one event of any kind does, field by field: to the slot called, to its registration, to its
 connection and to everything else. Together with ReactorLaws.MidBatchReachable this is said of
 every event of every batch of every run.
 */
module ReactorSteps {
  import opened Prelude
  import opened EpollKernel
  import opened ReactorModel
  import opened ReactorInvariant
  import opened ReactorCallbacks
  import opened ReactorDispatch
  import opened ReactorRuns

  /** A legal event with IN (or OUT) for a client slot in a given callback state. */
  ghost predicate CallsBack(s: State, e: Event, a: Answers, flag: Flag, callback: Callback) {
    && LegalEvent(s.kernel, e) && LegalPair(s, e, a) && flag in e.mask
    && e.slot < |s.table| && s.table[e.slot].callback == callback
  }

  /** All slots but `i` are as they were, and all registrations but that of `fd`. */
  ghost predicate RestKept(s: State, s': State, i: nat, fd: int) {
    && |s'.table| == |s.table| && s'.checkpos == s.checkpos && s'.leaked == s.leaked
    && (forall j: nat | j < |s.table| && j != i :: s'.table[j] == s.table[j])
    && s'.kernel.interest - {fd} == s.kernel.interest - {fd}
  }

  /** The connection of slot `i` takes a turn, and no other does. */
  predicate TookTurn(s: State, s': State, i: nat, turn: Turn) {
    && i in s.owner && s.owner[i] < |s.conns|
    && s'.conns == s.conns[s.owner[i] := s.conns[s.owner[i]] + [turn]]
  }

  /** Slot `i` is free and its descriptor closed; its connection has ended. */
  ghost predicate WasClosed(s: State, s': State, i: nat)
    requires i < |s.table|
  {
    && RestKept(s, s', i, s.table[i].fd)
    && TookTurn(s, s', i, Closed)
    && s'.table[i] == s.table[i].(status := 0)
    && s'.owner == s.owner - {i}
    && s'.kernel.open == s.kernel.open - {s.table[i].fd}
    && s.table[i].fd !in s'.kernel.interest
  }

  predicate Wanted(flag: Flag, callback: Callback) {
    (flag == IN && callback == RecvData) || (flag == OUT && callback == SendData)
  }

  lemma Called(s: State, e: Event, a: Answers, flag: Flag, callback: Callback, size: nat, foreign: set<int>)
    requires Inv(s, size, foreign) && CallsBack(s, e, a, flag, callback)
    requires Wanted(flag, callback)
    ensures
      var answer := if flag == IN then a.onIn else a.onOut;
      && LegalAnswer(s, e.slot, answer)
      && DispatchOne(s, e, a) == CallBack(s, e.slot, answer)
    ensures Waiting(s, e.slot, callback) && e.slot in s.owner && s.owner[e.slot] < |s.conns|
    ensures s.table[e.slot].fd in s.kernel.open && s.table[e.slot].fd in s.kernel.interest
    ensures s.table[e.slot].len <= |s.table[e.slot].buf| == size
  {
    LegalIsFresh(s, e, size, foreign);
    OneCallPerEvent(s, e, a, size, foreign);
    assert e.slot < Limit(s) ==> SlotOk(s.table[e.slot], e.slot);
    if flag == OUT {
      assert IN !in e.mask && TestIn(s, e, a) == s;
    }
  }

  /** A client's bytes are stored with their terminator, and the slot turns to sending them. */
  lemma Receives(s: State, e: Event, a: Answers, size: nat, foreign: set<int>, width: nat)
    requires Reachable(s, size, foreign, width) && CallsBack(s, e, a, IN, RecvData) && a.onIn.received.Data?
    ensures |a.onIn.received.bytes| <= |s.table[e.slot].buf| == size
    ensures
      var s', i, ev, bytes := DispatchOne(s, e, a), e.slot, s.table[e.slot], a.onIn.received.bytes;
      && RestKept(s, s', i, ev.fd) && TookTurn(s, s', i, Received(bytes, a.onIn.now))
      && s'.owner == s.owner && s'.kernel.open == s.kernel.open
      && ev.fd in s'.kernel.interest && s'.kernel.interest[ev.fd] == Registration({OUT}, i)
      && s'.table[i].fd == ev.fd && s'.table[i].events == {OUT} && s'.table[i].status == 1
      && s'.table[i].callback == SendData && s'.table[i].arg == Slot(i) && s'.table[i].lastActive == a.onIn.now
      && (|bytes| < size ==>
            && s'.table[i].len == |bytes|
            && s'.table[i].buf == bytes + [0] + ev.buf[|bytes| + 1..]
            && CString(s'.table[i].buf) == CString(bytes))
      && (|bytes| == size ==> s'.table[i].buf == bytes && s'.table[i].len == size / 0x100 * 0x100)
  {
    hide Inv, Reachable, LegalAnswer, LegalPair, CallBack, DispatchOne, ReceivedSlot, CString, Recv;
    ReachableInv(s, size, foreign, width);
    Called(s, e, a, IN, RecvData, size, foreign);
    TargetOf(s, e.slot, a.onIn, size, foreign);
    RecvShape(s, e.slot, a.onIn, size, foreign);
    AnswerFits(s, e.slot, a.onIn);
    ReceivedBuffer(s.table[e.slot], e.slot, a.onIn.received.bytes, a.onIn.now);
  }

  lemma ReceivedBuffer(ev: MyEvent, i: nat, bytes: Bytes, now: int)
    requires |bytes| <= |ev.buf|
    ensures
      var ev' := ReceivedSlot(ev, i, bytes, now);
      && ev' == ev.(buf := ev'.buf, len := ev'.len, events := {OUT}, arg := Slot(i), callback := SendData,
                    status := 1, lastActive := now)
      && (|bytes| < |ev.buf| ==>
            && ev'.len == |bytes| && ev'.buf == bytes + [0] + ev.buf[|bytes| + 1..]
            && CString(ev'.buf) == CString(bytes))
      && (|bytes| == |ev.buf| ==> ev'.buf == bytes && ev'.len == |ev.buf| / 0x100 * 0x100)
  {
    hide CString;
    var over := Overwrite(ev.buf, bytes);
    if |bytes| < |ev.buf| {
      OverwrittenTerminated(ev.buf, bytes);
      TerminatedPrints(over[|bytes| := 0], bytes);
    } else {
      assert over == bytes;
    }
  }

  lemma OverwrittenTerminated(buf: Bytes, bytes: Bytes)
    requires |bytes| < |buf|
    ensures Overwrite(buf, bytes)[|bytes| := 0] == bytes + [0] + buf[|bytes| + 1..]
    ensures Holds(Overwrite(buf, bytes)[|bytes| := 0], bytes)
  {
    var over := Overwrite(buf, bytes);
    assert over == bytes + [buf[|bytes|]] + buf[|bytes| + 1..];
  }

  lemma AnswerFits(s: State, i: nat, a: Answer)
    requires LegalAnswer(s, i, a) && i < |s.table|
    ensures a.received.Data? ==> |a.received.bytes| <= |s.table[i].buf|
    ensures a.sent <= s.table[i].len
  {
  }

  predicate ClientWaits(s: State, i: nat) {
    Waiting(s, i, RecvData) || Waiting(s, i, SendData)
  }

  /** The callback of an occupied client slot, as a call of the function it names. */
  lemma TargetOf(s: State, i: nat, a: Answer, size: nat, foreign: set<int>)
    requires Inv(s, size, foreign) && LegalAnswer(s, i, a)
    requires ClientWaits(s, i)
    ensures a.received.Data? ==> |a.received.bytes| <= |s.table[i].buf|
    ensures a.sent <= s.table[i].len <= |s.table[i].buf|
    ensures s.table[i].callback == RecvData ==> CallBack(s, i, a) == Recv(s, s.table[i].fd, i, a)
    ensures s.table[i].callback == SendData ==> CallBack(s, i, a) == Send(s, s.table[i].fd, i, a)
  {
    assert SlotOk(s.table[i], i);
    CallTarget(s, i, a, size);
  }

  /** Up to its terminator a buffer prints as the chunk before it. */
  lemma TerminatedPrints(buf: Bytes, chunk: Bytes)
    requires Holds(buf, chunk) && |chunk| < |buf|
    ensures CString(buf) == CString(chunk)
  {
    var r := CString(chunk);
    assert buf[..|chunk|] == chunk;
    CStringUnique(buf, r);
  }

  /** End of file, or any error of `recv`, closes. */
  lemma EndCloses(s: State, e: Event, a: Answers, size: nat, foreign: set<int>, width: nat)
    requires Reachable(s, size, foreign, width) && CallsBack(s, e, a, IN, RecvData) && !a.onIn.received.Data?
    ensures WasClosed(s, DispatchOne(s, e, a), e.slot)
  {
    hide Inv, Reachable, LegalAnswer, LegalPair, CallBack, DispatchOne;
    ReachableInv(s, size, foreign, width);
    Called(s, e, a, IN, RecvData, size, foreign);
    TargetOf(s, e.slot, a.onIn, size, foreign);
    RecvShape(s, e.slot, a.onIn, size, foreign);
  }

  /** What `send` takes of the pending bytes is what is sent, and the slot turns to receiving. */
  lemma Sends(s: State, e: Event, a: Answers, size: nat, foreign: set<int>, width: nat)
    requires Reachable(s, size, foreign, width) && CallsBack(s, e, a, OUT, SendData) && a.onOut.sent > 0
    ensures a.onOut.sent <= s.table[e.slot].len <= |s.table[e.slot].buf|
    ensures
      var s', i, ev := DispatchOne(s, e, a), e.slot, s.table[e.slot];
      && RestKept(s, s', i, ev.fd) && TookTurn(s, s', i, Sent(ev.buf[..a.onOut.sent], a.onOut.now))
      && s'.owner == s.owner && s'.kernel.open == s.kernel.open
      && ev.fd in s'.kernel.interest && s'.kernel.interest[ev.fd] == Registration({IN}, i)
      && s'.table[i] == ev.(events := {IN}, callback := RecvData, lastActive := a.onOut.now)
  {
    hide Inv, Reachable, LegalAnswer, LegalPair, CallBack, DispatchOne;
    ReachableInv(s, size, foreign, width);
    Called(s, e, a, OUT, SendData, size, foreign);
    TargetOf(s, e.slot, a.onOut, size, foreign);
    SendShape(s, e.slot, a.onOut, size, foreign);
    OwnSlot(s, e.slot, size, foreign);
  }

  lemma OwnSlot(s: State, i: nat, size: nat, foreign: set<int>)
    requires Inv(s, size, foreign) && i in s.owner
    ensures i < |s.table| && s.table[i].arg == Slot(i) && s.table[i].status == 1
  {
    assert SlotOk(s.table[i], i);
  }

  /** A `send` of nothing, or an error, closes. */
  lemma NoSendCloses(s: State, e: Event, a: Answers, size: nat, foreign: set<int>, width: nat)
    requires Reachable(s, size, foreign, width) && CallsBack(s, e, a, OUT, SendData) && a.onOut.sent <= 0
    ensures WasClosed(s, DispatchOne(s, e, a), e.slot)
  {
    hide Inv, Reachable, LegalAnswer, LegalPair, CallBack, DispatchOne;
    ReachableInv(s, size, foreign, width);
    Called(s, e, a, OUT, SendData, size, foreign);
    TargetOf(s, e.slot, a.onOut, size, foreign);
    SendShape(s, e.slot, a.onOut, size, foreign);
  }

  /** `i` is the lowest free client slot. */
  predicate Lowest(s: State, i: nat) {
    && i < |s.table| - 1 && s.table[i].status == 0
    && forall j | 0 <= j < i :: s.table[j].status != 0
  }

  lemma LowestIsFirstFree(s: State, i: nat)
    requires Lowest(s, i)
    ensures FirstFree(s.table, 0, Limit(s)) == i
  {
  }

  lemma ListenerCalled(s: State, e: Event, a: Answers, size: nat, foreign: set<int>)
    requires Inv(s, size, foreign) && LegalEvent(s.kernel, e) && LegalPair(s, e, a) && IN in e.mask
    requires e.slot == |s.table| - 1
    ensures DispatchOne(s, e, a) == Accept(s, a.onIn)
    ensures a.onIn.accepted.Some? ==> a.onIn.accepted.value !in s.kernel.open
  {
    LegalIsFresh(s, e, size, foreign);
    OneCallPerEvent(s, e, a, size, foreign);
    CallTarget(s, e.slot, a.onIn, size);
  }

  /** The listening socket: the new connection is registered in the lowest free slot, whose old buffer stays. */
  lemma Accepts(s: State, e: Event, a: Answers, i: nat, size: nat, foreign: set<int>, width: nat)
    requires Reachable(s, size, foreign, width) && LegalEvent(s.kernel, e) && LegalPair(s, e, a) && IN in e.mask
    requires e.slot == |s.table| - 1 && a.onIn.accepted.Some? && a.onIn.nonblocking && Lowest(s, i)
    ensures
      var s', cfd := DispatchOne(s, e, a), a.onIn.accepted.value;
      && RestKept(s, s', i, cfd) && s'.owner == s.owner[i := |s.conns|]
      && s'.conns == s.conns + [[Opened(i, cfd, a.onIn.now)]]
      && s'.kernel.open == s.kernel.open + {cfd}
      && cfd in s'.kernel.interest && s'.kernel.interest[cfd] == Registration({IN}, i)
      && s'.table[i] == MyEvent(cfd, {IN}, Slot(i), RecvData, 1, s.table[i].buf, s.table[i].len, a.onIn.now)
  {
    hide Inv, Reachable, LegalPair, DispatchOne, Accept;
    ReachableInv(s, size, foreign, width);
    ListenerCalled(s, e, a, size, foreign);
    AcceptShape(s, a.onIn, size, foreign);
    LowestIsFirstFree(s, i);
  }

  /** No client slot is free, or fcntl fails. */
  predicate MustDrop(s: State, a: Answer) {
    !a.nonblocking || forall j | 0 <= j < |s.table| - 1 :: s.table[j].status != 0
  }

  /** Where there is no free slot or fcntl fails the descriptor stays open and nothing else happens. */
  lemma Drops(s: State, e: Event, a: Answers, size: nat, foreign: set<int>, width: nat)
    requires Reachable(s, size, foreign, width) && LegalEvent(s.kernel, e) && LegalPair(s, e, a) && IN in e.mask
    requires e.slot == |s.table| - 1 && a.onIn.accepted.Some? && MustDrop(s, a.onIn)
    ensures
      var s', cfd := DispatchOne(s, e, a), a.onIn.accepted.value;
      && s'.table == s.table && s'.owner == s.owner && s'.kernel.interest == s.kernel.interest
      && s'.checkpos == s.checkpos
      && s'.kernel.open == s.kernel.open + {cfd} && s'.leaked == s.leaked + {cfd}
      && s'.conns == s.conns + [[Dropped(cfd)]]
  {
    hide Inv, Reachable, LegalPair, DispatchOne, Accept;
    ReachableInv(s, size, foreign, width);
    ListenerCalled(s, e, a, size, foreign);
    AcceptShape(s, a.onIn, size, foreign);
  }

  predicate NothingToDo(s: State, e: Event, a: Answers) {
    (e.slot == |s.table| - 1 && a.onIn.accepted.None?) || (IN !in e.mask && OUT !in e.mask)
  }

  /** A failing `accept`, and an event with neither IN nor OUT, change nothing. */
  lemma Nothing(s: State, e: Event, a: Answers, size: nat, foreign: set<int>, width: nat)
    requires Reachable(s, size, foreign, width) && LegalEvent(s.kernel, e) && LegalPair(s, e, a)
    requires NothingToDo(s, e, a)
    ensures DispatchOne(s, e, a) == s
  {
    hide Inv, Reachable, LegalPair, DispatchOne, Accept;
    ReachableInv(s, size, foreign, width);
    OneCallPerEvent(s, e, a, size, foreign);
    if IN in e.mask {
      ListenerCalled(s, e, a, size, foreign);
      AcceptShape(s, a.onIn, size, foreign);
    } else if OUT in e.mask {
      ListenerListens(s, e, size, foreign);
    }
  }

  lemma ListenerListens(s: State, e: Event, size: nat, foreign: set<int>)
    requires Inv(s, size, foreign) && LegalEvent(s.kernel, e) && e.slot == |s.table| - 1
    ensures OUT !in e.mask
  {
    LegalIsFresh(s, e, size, foreign);
  }

  /** In every run a slot that waits to send prints, up to its terminator, as the chunk it received. */
  lemma PrintsTheChunk(s: State, i: nat, size: nat, foreign: set<int>, width: nat)
    requires Reachable(s, size, foreign, width)
    requires i in s.owner && i < |s.table| && s.table[i].callback == SendData
    ensures s.owner[i] < |s.conns| && s.conns[s.owner[i]] != []
    ensures
      var last := s.conns[s.owner[i]][|s.conns[s.owner[i]]| - 1];
      && last.Received? && last.chunk <= s.table[i].buf
      && (|last.chunk| < size ==> CString(s.table[i].buf) == CString(last.chunk))
  {
    ReachableInv(s, size, foreign, width);
    var t := s.conns[s.owner[i]];
    assert SlotMatches(s.table[i], t, size);
    if |t[|t| - 1].chunk| < size {
      TerminatedPrints(s.table[i].buf, t[|t| - 1].chunk);
    }
  }
}
