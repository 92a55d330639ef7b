/**
 The dispatch loop: at most one callback for an event, no event of a batch goes stale
 while earlier ones close connections and accept new ones, and the invariant is kept.
 */
module ReactorDispatch {
  import opened Prelude
  import opened EpollKernel
  import opened ReactorModel
  import opened ReactorInvariant
  import opened ReactorCallbacks

  /** The environment's answers to the (at most two) callbacks of one event. */
  predicate LegalPair(s: State, e: Event, a: Answers) {
    && LegalAnswer(s, e.slot, a.onIn)
    && LegalAnswer(TestIn(s, e, a), e.slot, a.onOut)
  }

  ghost predicate LegalDispatch(s: State, batch: seq<Event>, answers: seq<Answers>)
    decreases |batch|
  {
    && |answers| == |batch|
    && (batch != [] ==>
          && LegalPair(s, batch[0], answers[0])
          && LegalDispatch(DispatchOne(s, batch[0], answers[0]), batch[1..], answers[1..]))
  }

  /** A report still describes its slot: registered, same descriptor, same pointer, wanted flags. */
  ghost predicate Fresh(s: State, e: Event) {
    && LegalEvent(s.kernel, e)
    && e.slot < |s.table|
    && s.table[e.slot].status == 1
    && s.table[e.slot].fd == e.fd
    && e.mask <= s.table[e.slot].events + {ERR, HUP}
  }

  lemma LegalIsFresh(s: State, e: Event, size: nat, foreign: set<int>)
    requires Inv(s, size, foreign) && LegalEvent(s.kernel, e)
    ensures Fresh(s, e) && Callable(s, e.slot)
  {
  }

  lemma FreshSlot(s: State, e: Event)
    requires Fresh(s, e)
    ensures e.slot < |s.table|
  {
  }

  /** Any slot but the called one, if occupied, keeps its record and its registration. */
  ghost predicate OthersKept(s: State, s': State, i: nat) {
    && |s'.table| == |s.table|
    && (forall j: nat | j < |s.table| && j != i && s.table[j].status == 1 :: s'.table[j] == s.table[j])
    && (forall fd | fd in s.kernel.interest && s.kernel.interest[fd].slot != i ::
          fd in s'.kernel.interest && s'.kernel.interest[fd] == s.kernel.interest[fd])
  }

  lemma TurnedKeepsOthers(s: State, i: nat, ev: MyEvent, turn: Turn)
    requires Agreement(s) && i < |s.table| && s.table[i].status == 1 && ev.fd == s.table[i].fd
    ensures OthersKept(s, Turned(s, i, ev, turn), i)
  {
  }

  lemma RetiredKeepsOthers(s: State, i: nat, turn: Turn)
    requires Agreement(s) && i < |s.table| && s.table[i].status == 1
    ensures OthersKept(s, Retired(s, i, turn), i)
  {
  }

  lemma AcceptKeepsOthers(s: State, a: Answer, i: nat)
    requires |s.table| > 0 && Agreement(s)
    requires a.accepted.Some? ==> a.accepted.value !in s.kernel.open
    ensures OthersKept(s, AfterAccept(s, a), i)
  {
  }

  lemma RecvKeepsOthers(s: State, i: nat, a: Answer)
    requires Agreement(s) && Waiting(s, i, RecvData) && LegalAnswer(s, i, a)
    ensures OthersKept(s, AfterRecv(s, i, a), i)
  {
    if a.received.Data? {
      TurnedKeepsOthers(s, i, ReceivedSlot(s.table[i], i, a.received.bytes, a.now), Received(a.received.bytes, a.now));
    } else {
      RetiredKeepsOthers(s, i, Closed);
    }
  }

  lemma SendKeepsOthers(s: State, i: nat, a: Answer)
    requires Agreement(s) && Waiting(s, i, SendData) && LegalAnswer(s, i, a)
    requires s.table[i].len <= |s.table[i].buf|
    ensures OthersKept(s, AfterSend(s, i, a), i)
  {
    if a.sent > 0 {
      TurnedKeepsOthers(s, i, SentSlot(s.table[i], i, a.now), Sent(s.table[i].buf[..a.sent], a.now));
    } else {
      RetiredKeepsOthers(s, i, Closed);
    }
  }

  /** `call_back` of an occupied slot calls the function its callback state names, on the slot itself. */
  lemma CallTarget(s: State, i: nat, a: Answer, size: nat)
    requires Typestate(s, size) && i < |s.table| && s.table[i].status == 1 && LegalAnswer(s, i, a)
    ensures i == Limit(s) ==> CallBack(s, i, a) == Accept(s, a)
    ensures i < Limit(s) && s.table[i].callback == RecvData ==> CallBack(s, i, a) == Recv(s, s.table[i].fd, i, a)
    ensures i < Limit(s) && s.table[i].callback != RecvData ==>
              s.table[i].callback == SendData && CallBack(s, i, a) == Send(s, s.table[i].fd, i, a)
  {
    if i < Limit(s) {
      assert SlotOk(s.table[i], i);
    }
  }

  lemma CallBackStep(s: State, i: nat, a: Answer, size: nat, foreign: set<int>)
    requires Inv(s, size, foreign) && i < |s.table| && s.table[i].status == 1
    requires LegalAnswer(s, i, a)
    ensures Inv(CallBack(s, i, a), size, foreign)
    ensures OthersKept(s, CallBack(s, i, a), i)
  {
    CallTarget(s, i, a, size);
    if i == Limit(s) {
      AcceptShape(s, a, size, foreign);
      AcceptInv(s, a, size, foreign);
      AcceptKeepsOthers(s, a, i);
    } else if s.table[i].callback == RecvData {
      RecvShape(s, i, a, size, foreign);
      RecvInv(s, i, a, size, foreign);
      RecvKeepsOthers(s, i, a);
    } else {
      SendShape(s, i, a, size, foreign);
      SendInv(s, i, a, size, foreign);
      SendKeepsOthers(s, i, a);
    }
  }

  // ---- at most one callback for an event ----

  /** How many of the dispatcher's two tests on an event succeed. */
  function Calls(s: State, e: Event, a: Answers): nat {
    (if Fires(s, e, IN) then 1 else 0) + (if Fires(TestIn(s, e, a), e, OUT) then 1 else 0)
  }

  lemma OneCallPerEvent(s: State, e: Event, a: Answers, size: nat, foreign: set<int>)
    requires Inv(s, size, foreign) && LegalEvent(s.kernel, e) && LegalPair(s, e, a)
    ensures Calls(s, e, a) == if IN in e.mask || OUT in e.mask then 1 else 0
    ensures DispatchOne(s, e, a) ==
            if IN in e.mask then CallBack(s, e.slot, a.onIn)
            else if OUT in e.mask then CallBack(s, e.slot, a.onOut)
            else s
  {
    LegalIsFresh(s, e, size, foreign);
    assert s.table[e.slot].events == {IN} || s.table[e.slot].events == {OUT};
    if IN in e.mask {
      assert s.table[e.slot].events == {IN};
      assert OUT !in e.mask;
    }
  }

  /**
   The rule that a report stays within the registered mask is what this rests on: were OUT
   reported along with IN to a slot that waits to receive, a successful read would be
   followed by a second callback for the same event.
   */
  lemma TwoCallsWithoutTheMaskRule(s: State, e: Event, a: Answers, size: nat, foreign: set<int>)
    requires Inv(s, size, foreign) && Waiting(s, e.slot, RecvData)
    requires {IN, OUT} <= e.mask && LegalAnswer(s, e.slot, a.onIn)
    ensures Calls(s, e, a) == 2 <==> a.onIn.received.Data?
  {
    assert SlotOk(s.table[e.slot], e.slot);
    CallTarget(s, e.slot, a.onIn, size);
    RecvShape(s, e.slot, a.onIn, size, foreign);
    assert Fires(s, e, IN);
    assert TestIn(s, e, a) == AfterRecv(s, e.slot, a.onIn);
  }

  // ---- no stale dispatch ----

  lemma EventStep(s: State, e: Event, a: Answers, size: nat, foreign: set<int>)
    requires Inv(s, size, foreign) && LegalEvent(s.kernel, e) && LegalPair(s, e, a)
    ensures Inv(DispatchOne(s, e, a), size, foreign)
    ensures OthersKept(s, DispatchOne(s, e, a), e.slot)
  {
    LegalIsFresh(s, e, size, foreign);
    OneCallPerEvent(s, e, a, size, foreign);
    if IN in e.mask {
      CallBackStep(s, e.slot, a.onIn, size, foreign);
    } else if OUT in e.mask {
      assert TestIn(s, e, a) == s;
      CallBackStep(s, e.slot, a.onOut, size, foreign);
    }
  }

  /** A legal batch stays legal when only the slot of its first event may have changed. */
  lemma RestStaysLegal(s: State, s': State, e: Event, rest: seq<Event>)
    requires Agreement(s) && OthersKept(s, s', e.slot)
    requires LegalBatch(s.kernel, [e] + rest)
    ensures LegalBatch(s'.kernel, rest)
    ensures forall k | 0 <= k < |rest| ::
              rest[k].slot < |s.table| && s'.table[rest[k].slot] == s.table[rest[k].slot]
  {
    var all := [e] + rest;
    assert all[0] == e && LegalEvent(s.kernel, e);
    forall k | 0 <= k < |rest|
      ensures rest[k].slot < |s.table| && s'.table[rest[k].slot] == s.table[rest[k].slot]
      ensures LegalEvent(s'.kernel, rest[k])
    {
      assert all[k + 1] == rest[k] && LegalEvent(s.kernel, rest[k]);
      assert rest[k].fd != e.fd;
    }
    forall j, l | 0 <= j < l < |rest| ensures rest[j].fd != rest[l].fd {
      assert all[j + 1] == rest[j] && all[l + 1] == rest[l];
    }
  }

  lemma DispatchOneStep(s: State, e: Event, a: Answers, rest: seq<Event>, size: nat, foreign: set<int>)
    requires Inv(s, size, foreign) && LegalBatch(s.kernel, [e] + rest) && LegalPair(s, e, a)
    ensures Inv(DispatchOne(s, e, a), size, foreign)
    ensures LegalBatch(DispatchOne(s, e, a).kernel, rest)
    ensures forall k | 0 <= k < |rest| ::
              rest[k].slot < |s.table| && DispatchOne(s, e, a).table[rest[k].slot] == s.table[rest[k].slot]
  {
    assert ([e] + rest)[0] == e;
    EventStep(s, e, a, size, foreign);
    RestStaysLegal(s, DispatchOne(s, e, a), e, rest);
  }

  lemma {:induction false} DispatchInv(s: State, batch: seq<Event>, answers: seq<Answers>, size: nat, foreign: set<int>)
    requires Inv(s, size, foreign) && LegalBatch(s.kernel, batch) && LegalDispatch(s, batch, answers)
    ensures Inv(Dispatch(s, batch, answers), size, foreign)
    decreases |batch|
  {
    if batch == [] {
    } else {
      assert batch == [batch[0]] + batch[1..];
      DispatchOneStep(s, batch[0], answers[0], batch[1..], size, foreign);
      DispatchInv(DispatchOne(s, batch[0], answers[0]), batch[1..], answers[1..], size, foreign);
    }
  }

  /**
   After any `j` events of a batch, every event not yet dispatched refers to a slot whose
   whole record is still the one `epoll_wait` saw, on the same descriptor, and can be called.
   */
  lemma {:induction false} NoStaleDispatch(
      s: State, batch: seq<Event>, answers: seq<Answers>, j: nat, k: nat, size: nat, foreign: set<int>)
    requires Inv(s, size, foreign) && LegalBatch(s.kernel, batch) && LegalDispatch(s, batch, answers)
    requires j <= k < |batch|
    ensures batch[k].slot < |s.table|
    ensures Dispatch(s, batch[..j], answers[..j]).table[batch[k].slot] == s.table[batch[k].slot]
    ensures Fresh(Dispatch(s, batch[..j], answers[..j]), batch[k])
    ensures Callable(Dispatch(s, batch[..j], answers[..j]), batch[k].slot)
    decreases j
  {
    hide Inv, LegalPair, DispatchOne, Fresh, Callable;
    if j == 0 {
      assert batch[..0] == [];
      LegalIsFresh(s, batch[k], size, foreign);
      FreshSlot(s, batch[k]);
    } else {
      assert batch == [batch[0]] + batch[1..];
      DispatchOneStep(s, batch[0], answers[0], batch[1..], size, foreign);
      assert batch[..j][1..] == batch[1..][..j - 1] && answers[..j][1..] == answers[1..][..j - 1];
      assert batch[1..][k - 1] == batch[k];
      NoStaleDispatch(DispatchOne(s, batch[0], answers[0]), batch[1..], answers[1..], j - 1, k - 1, size, foreign);
      assert batch[1..][k - 1].slot < |s.table|;
    }
  }

  /** The loop takes the events one after the other, leaving none out. */
  lemma {:induction false} EveryEventInTurn(s: State, batch: seq<Event>, answers: seq<Answers>, j: nat)
    requires j < |batch| == |answers|
    ensures Dispatch(s, batch[..0], answers[..0]) == s
    ensures Dispatch(s, batch[..j + 1], answers[..j + 1])
            == DispatchOne(Dispatch(s, batch[..j], answers[..j]), batch[j], answers[j])
    decreases j
  {
    hide DispatchOne;
    var s1 := DispatchOne(s, batch[0], answers[0]);
    assert batch[..j + 1][1..] == batch[1..][..j] && answers[..j + 1][1..] == answers[1..][..j];
    if j == 0 {
      assert Dispatch(s1, batch[1..][..0], answers[1..][..0]) == s1;
    } else {
      assert batch[..j][1..] == batch[1..][..j - 1] && answers[..j][1..] == answers[1..][..j - 1];
      EveryEventInTurn(s1, batch[1..], answers[1..], j - 1);
    }
  }

  /** No callback goes through an unset pointer, outside the table, or past a buffer. */
  lemma EveryCallIsDefined(s: State, batch: seq<Event>, answers: seq<Answers>, j: nat, size: nat, foreign: set<int>)
    requires Inv(s, size, foreign) && LegalBatch(s.kernel, batch) && LegalDispatch(s, batch, answers)
    requires j < |batch|
    ensures
      var s' := Dispatch(s, batch[..j], answers[..j]);
      Callable(s', batch[j].slot) && s'.table[batch[j].slot].arg == Slot(batch[j].slot)
  {
    hide Inv, LegalDispatch, Dispatch, Fresh;
    NoStaleDispatch(s, batch, answers, j, j, size, foreign);
    OwnArgument(s, batch[j], size, foreign);
  }

  lemma OwnArgument(s: State, e: Event, size: nat, foreign: set<int>)
    requires Inv(s, size, foreign) && LegalEvent(s.kernel, e)
    ensures e.slot < |s.table| && s.table[e.slot].arg == Slot(e.slot)
  {
    LegalIsFresh(s, e, size, foreign);
  }
}
