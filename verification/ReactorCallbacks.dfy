/**
 Each callback, and the timeout branch, in closed form: under the invariant the chain
 eventdel / eventset / eventadd / close comes down to one of the shapes of change.
 */
module ReactorCallbacks {
  import opened Prelude
  import opened EpollKernel
  import opened ReactorModel
  import opened ReactorInvariant

  /** The slot after `recvdata` got `bytes`. */
  function ReceivedSlot(ev: MyEvent, i: nat, bytes: Bytes, now: int): MyEvent
    requires |bytes| <= |ev.buf|
  {
    Terminate(ev.(buf := Overwrite(ev.buf, bytes)), |bytes|).(
      events := {OUT}, arg := Slot(i), callback := SendData, status := 1, lastActive := now)
  }

  function SentSlot(ev: MyEvent, i: nat, now: int): MyEvent {
    ev.(events := {IN}, arg := Slot(i), callback := RecvData, status := 1, lastActive := now)
  }

  function AfterRecv(s: State, i: nat, a: Answer): State
    requires i < |s.table|
    requires a.received.Data? ==> |a.received.bytes| <= |s.table[i].buf|
  {
    match a.received
    case Data(bytes) => Turned(s, i, ReceivedSlot(s.table[i], i, bytes, a.now), Received(bytes, a.now))
    case _ => Retired(s, i, Closed)
  }

  function AfterSend(s: State, i: nat, a: Answer): State
    requires i < |s.table| && a.sent <= s.table[i].len <= |s.table[i].buf|
  {
    if a.sent > 0
    then Turned(s, i, SentSlot(s.table[i], i, a.now), Sent(s.table[i].buf[..a.sent], a.now))
    else Retired(s, i, Closed)
  }

  function AfterAccept(s: State, a: Answer): State
    requires |s.table| > 0
  {
    match a.accepted
    case None => s
    case Some(cfd) =>
      var i := FirstFree(s.table, 0, Limit(s));
      if i < Limit(s) && a.nonblocking then Admitted(s, i, cfd, a.now) else Refused(s, cfd)
  }

  /** What an occupied client slot in a given callback state amounts to. */
  predicate Waiting(s: State, i: nat, callback: Callback) {
    |s.table| > 0 && i < Limit(s) && s.table[i].status == 1 && s.table[i].callback == callback
  }

  lemma DelAddInterest(k: Kernel, fd: int, r: Registration)
    requires fd in k.interest && fd in k.open
    ensures CtlAdd(CtlDel(k, fd), fd, r) == k.(interest := k.interest[fd := r])
  {
  }

  /**
   An `eventadd` after an `eventset`, which clears `status`, is an EPOLL_CTL_ADD, and on an
   open unregistered descriptor that succeeds.
   */
  lemma AddNotMod(s: State, i: nat, fd: int, callback: Callback, now: int, mask: Mask)
    requires i < |s.table| && fd in s.kernel.open && fd !in s.kernel.interest
    ensures
      var s' := EventAdd(EventSet(s, i, fd, callback, Slot(i), now), i, mask);
      && s'.kernel == CtlAdd(s.kernel, fd, Registration(mask, i))
      && s'.kernel.interest == s.kernel.interest[fd := Registration(mask, i)]
      && s'.table[i].status == 1
      && s'.mods == s.mods && s'.failures == s.failures
  {
  }

  lemma RecvShape(s: State, i: nat, a: Answer, size: nat, foreign: set<int>)
    requires Inv(s, size, foreign) && Waiting(s, i, RecvData) && LegalAnswer(s, i, a)
    ensures Recv(s, s.table[i].fd, i, a) == AfterRecv(s, i, a)
  {
    var ev := s.table[i];
    if a.received.Data? {
      DelAddInterest(s.kernel, ev.fd, Registration({OUT}, i));
      var bytes := a.received.bytes;
      var ev1 := ReceivedSlot(ev, i, bytes, a.now);
      var s0 := s.(table := s.table[i := ev.(buf := Overwrite(ev.buf, bytes))]);
      var s1 := EventDel(s0, i);
      var s2 := s1.(table := s1.table[i := Terminate(s1.table[i], |bytes|)]);
      var s3 := EventSet(s2, i, ev.fd, SendData, Slot(i), a.now);
      var s4 := EventAdd(s3, i, {OUT});
      assert s4.table == s.table[i := ev1];
    } else {
      assert EventDel(s, i).table == s.table[i := ev.(status := 0)];
      assert s.kernel.interest - {ev.fd} - {ev.fd} == s.kernel.interest - {ev.fd};
    }
  }

  lemma SendShape(s: State, i: nat, a: Answer, size: nat, foreign: set<int>)
    requires Inv(s, size, foreign) && Waiting(s, i, SendData) && LegalAnswer(s, i, a)
    ensures Send(s, s.table[i].fd, i, a) == AfterSend(s, i, a)
  {
    var ev := s.table[i];
    if a.sent > 0 {
      DelAddInterest(s.kernel, ev.fd, Registration({IN}, i));
      var s1 := EventDel(s, i);
      var s2 := EventSet(s1, i, ev.fd, RecvData, Slot(i), a.now);
      var s3 := EventAdd(s2, i, {IN});
      assert s3.table == s.table[i := SentSlot(ev, i, a.now)];
    } else {
      assert s.kernel.interest - {ev.fd} - {ev.fd} == s.kernel.interest - {ev.fd};
    }
  }

  lemma AcceptShape(s: State, a: Answer, size: nat, foreign: set<int>)
    requires Inv(s, size, foreign)
    requires a.accepted.Some? ==> a.accepted.value !in s.kernel.open
    ensures Accept(s, a) == AfterAccept(s, a)
  {
    if a.accepted.Some? {
      var cfd := a.accepted.value;
      var i := FirstFree(s.table, 0, Limit(s));
      if i < Limit(s) && a.nonblocking {
        var s0 := s.(kernel := OpenFd(s.kernel, cfd));
        var s1 := EventSet(s0, i, cfd, RecvData, Slot(i), a.now);
        var s2 := EventAdd(s1, i, {IN});
        assert s2.table == s.table[i := s.table[i].(fd := cfd, events := {IN}, arg := Slot(i), callback := RecvData, status := 1, lastActive := a.now)];
      }
    }
  }

  /** The timeout path closes first; the later EPOLL_CTL_DEL finds nothing and the result is the same. */
  lemma ExpireShape(s: State, i: nat, size: nat, foreign: set<int>)
    requires Inv(s, size, foreign) && i in s.owner
    ensures Expire(s, i) == Retired(s, i, TimedOut)
  {
    assert s.kernel.interest - {s.table[i].fd} - {s.table[i].fd} == s.kernel.interest - {s.table[i].fd};
  }

  lemma RecvInv(s: State, i: nat, a: Answer, size: nat, foreign: set<int>)
    requires Inv(s, size, foreign) && Waiting(s, i, RecvData) && LegalAnswer(s, i, a)
    ensures Inv(AfterRecv(s, i, a), size, foreign)
  {
    if a.received.Data? {
      var bytes := a.received.bytes;
      var ev := ReceivedSlot(s.table[i], i, bytes, a.now);
      assert ev.buf[..ev.len] == Queued(bytes, size);
      assert CanTurn(s, i, ev, Received(bytes, a.now), size);
      TurnedInv(s, i, ev, Received(bytes, a.now), size, foreign);
    } else {
      RetiredInv(s, i, Closed, size, foreign);
    }
  }

  lemma SendInv(s: State, i: nat, a: Answer, size: nat, foreign: set<int>)
    requires Inv(s, size, foreign) && Waiting(s, i, SendData) && LegalAnswer(s, i, a)
    ensures Inv(AfterSend(s, i, a), size, foreign)
  {
    if a.sent > 0 {
      var ev := SentSlot(s.table[i], i, a.now);
      var bytes := s.table[i].buf[..a.sent];
      var t := s.conns[s.owner[i]];
      assert SlotMatches(s.table[i], t, size);
      assert bytes == s.table[i].buf[..s.table[i].len][..a.sent];
      assert CanTurn(s, i, ev, Sent(bytes, a.now), size);
      TurnedInv(s, i, ev, Sent(bytes, a.now), size, foreign);
    } else {
      RetiredInv(s, i, Closed, size, foreign);
    }
  }

  lemma AcceptInv(s: State, a: Answer, size: nat, foreign: set<int>)
    requires Inv(s, size, foreign)
    requires a.accepted.Some? ==> a.accepted.value !in s.kernel.open
    ensures Inv(AfterAccept(s, a), size, foreign)
  {
    if a.accepted.Some? {
      var i := FirstFree(s.table, 0, Limit(s));
      if i < Limit(s) && a.nonblocking {
        AdmittedInv(s, i, a.accepted.value, a.now, size, foreign);
      } else {
        RefusedInv(s, a.accepted.value, size, foreign);
      }
    }
  }

  /** `acceptconn` takes the lowest free index. */
  lemma LowestFreeSlot(s: State, a: Answer, size: nat, foreign: set<int>, i: nat)
    requires Inv(s, size, foreign) && i < Limit(s)
    requires a.accepted.Some? && a.accepted.value !in s.kernel.open && a.nonblocking
    requires s.table[i].status == 0 && forall j: nat | j < i :: s.table[j].status != 0
    ensures Accept(s, a).owner == s.owner[i := |s.conns|]
    ensures Accept(s, a).table[i].fd == a.accepted.value
    ensures forall j: nat | j < |s.table| && j != i :: Accept(s, a).table[j] == s.table[j]
  {
    AcceptShape(s, a, size, foreign);
    var r := FirstFree(s.table, 0, Limit(s));
    assert r == i;
  }

  /** `acceptconn` drops the new connection exactly when there is no free slot or fcntl fails. */
  lemma DroppedExactly(s: State, a: Answer, size: nat, foreign: set<int>)
    requires Inv(s, size, foreign) && a.accepted.Some? && a.accepted.value !in s.kernel.open
    ensures Accept(s, a).conns == s.conns + [[Dropped(a.accepted.value)]]
            <==> (forall j: nat | j < Limit(s) :: s.table[j].status != 0) || !a.nonblocking
  {
    var t := Accept(s, a).conns;
    AcceptShape(s, a, size, foreign);
    assert t[|s.conns|] == if FirstFree(s.table, 0, Limit(s)) < Limit(s) && a.nonblocking
      then [Opened(FirstFree(s.table, 0, Limit(s)), a.accepted.value, a.now)] else [Dropped(a.accepted.value)];
  }
}
