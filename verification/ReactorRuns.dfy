/**
 Whole runs of the reactor: iterations of sweep and dispatch from the initial state, for any
 events and any answers the kernel may give. The invariant holds throughout, and the
 history of a connection only grows.
 */
module ReactorRuns {
  import opened EpollKernel
  import opened ReactorModel
  import opened ReactorInvariant
  import opened ReactorCallbacks
  import opened ReactorSweep
  import opened ReactorDispatch

  ghost predicate LegalRound(s: State, r: Round, width: nat)
    requires |s.table| > 1
  {
    var s' := Sweep(s, r.now, width);
    LegalBatch(s'.kernel, r.batch) && LegalDispatch(s', r.batch, r.answers)
  }

  ghost predicate LegalRun(s: State, rounds: seq<Round>, width: nat)
    requires |s.table| > 1
    decreases |rounds|
  {
    rounds != [] ==>
      LegalRound(s, rounds[0], width) && LegalRun(Iterate(s, rounds[0], width), rounds[1..], width)
  }

  lemma IterateInv(s: State, r: Round, width: nat, size: nat, foreign: set<int>)
    requires |s.table| > 1 && Inv(s, size, foreign) && LegalRound(s, r, width)
    ensures Inv(Iterate(s, r, width), size, foreign)
  {
    hide Inv, LegalBatch, LegalDispatch;
    SweepInv(s, r.now, width, size, foreign);
    DispatchInv(Sweep(s, r.now, width), r.batch, r.answers, size, foreign);
  }

  lemma {:induction false} ExecInv(s: State, rounds: seq<Round>, width: nat, size: nat, foreign: set<int>)
    requires |s.table| > 1 && Inv(s, size, foreign) && LegalRun(s, rounds, width)
    ensures Inv(Exec(s, rounds, width), size, foreign)
    decreases |rounds|
  {
    hide Inv, LegalRound;
    if rounds == [] {
    } else {
      IterateInv(s, rounds[0], width, size, foreign);
      ExecInv(Iterate(s, rounds[0], width), rounds[1..], width, size, foreign);
    }
  }

  lemma {:induction false} ExecSplit(s: State, rounds: seq<Round>, width: nat, j: nat)
    requires |s.table| > 1 && LegalRun(s, rounds, width) && j <= |rounds|
    ensures LegalRun(s, rounds[..j], width)
    ensures LegalRun(Exec(s, rounds[..j], width), rounds[j..], width)
    ensures Exec(s, rounds, width) == Exec(Exec(s, rounds[..j], width), rounds[j..], width)
    decreases j
  {
    if j == 0 {
      assert rounds[..0] == [] && rounds[0..] == rounds;
    } else {
      assert rounds[..j][0] == rounds[0] && rounds[..j][1..] == rounds[1..][..j - 1];
      assert rounds[1..][j - 1..] == rounds[j..];
      ExecSplit(Iterate(s, rounds[0], width), rounds[1..], width, j - 1);
    }
  }

  // ---- histories only grow, and only the called slot's connection takes a turn ----

  /** From `s` to `s'` at most slot `i` was served: every other connection took no turn. */
  ghost predicate OthersWait(s: State, s': State, i: nat) {
    && |s.conns| <= |s'.conns|
    && (forall c | 0 <= c < |s.conns| :: s.conns[c] <= s'.conns[c])
    && (forall j | j in s.owner && j != i :: StillServes(s, s', j))
  }

  lemma TurnedOthersWait(s: State, i: nat, ev: MyEvent, turn: Turn, size: nat, foreign: set<int>)
    requires Inv(s, size, foreign) && i < |s.table|
    ensures OthersWait(s, Turned(s, i, ev, turn), i)
  {
    hide Typestate, Agreement, Descriptors, Histories;
  }

  lemma RetiredOthersWait(s: State, i: nat, turn: Turn, size: nat, foreign: set<int>)
    requires Inv(s, size, foreign) && i < |s.table|
    ensures OthersWait(s, Retired(s, i, turn), i)
  {
    hide Typestate, Agreement, Descriptors, Histories;
  }

  lemma AcceptOthersWait(s: State, a: Answer, i: nat, size: nat, foreign: set<int>)
    requires Inv(s, size, foreign)
    ensures OthersWait(s, AfterAccept(s, a), i)
  {
    hide Agreement, Descriptors, Histories;
  }

  lemma CallBackOthersWait(s: State, i: nat, a: Answer, size: nat, foreign: set<int>)
    requires Inv(s, size, foreign) && i < |s.table| && s.table[i].status == 1 && LegalAnswer(s, i, a)
    ensures OthersWait(s, CallBack(s, i, a), i)
  {
    CallTarget(s, i, a, size);
    if i == Limit(s) {
      AcceptShape(s, a, size, foreign);
      AcceptOthersWait(s, a, i, size, foreign);
    } else if s.table[i].callback == RecvData {
      RecvShape(s, i, a, size, foreign);
      if a.received.Data? {
        TurnedOthersWait(s, i, ReceivedSlot(s.table[i], i, a.received.bytes, a.now), Received(a.received.bytes, a.now), size, foreign);
      } else {
        RetiredOthersWait(s, i, Closed, size, foreign);
      }
    } else {
      SendShape(s, i, a, size, foreign);
      if a.sent > 0 {
        TurnedOthersWait(s, i, SentSlot(s.table[i], i, a.now), Sent(s.table[i].buf[..a.sent], a.now), size, foreign);
      } else {
        RetiredOthersWait(s, i, Closed, size, foreign);
      }
    }
  }

  lemma EventOthersWait(s: State, e: Event, a: Answers, size: nat, foreign: set<int>)
    requires Inv(s, size, foreign) && LegalEvent(s.kernel, e) && LegalPair(s, e, a)
    ensures OthersWait(s, DispatchOne(s, e, a), e.slot)
    ensures IN !in e.mask && OUT !in e.mask ==> DispatchOne(s, e, a) == s
  {
    LegalIsFresh(s, e, size, foreign);
    OneCallPerEvent(s, e, a, size, foreign);
    if IN in e.mask {
      CallBackOthersWait(s, e.slot, a.onIn, size, foreign);
    } else if OUT in e.mask {
      assert TestIn(s, e, a) == s;
      CallBackOthersWait(s, e.slot, a.onOut, size, foreign);
    } else {
      assert forall j | j in s.owner :: StillServes(s, s, j);
    }
  }

  /** No event of the batch calls slot `i` back. */
  ghost predicate Quiet(batch: seq<Event>, i: nat) {
    forall k | 0 <= k < |batch| && batch[k].slot == i :: IN !in batch[k].mask && OUT !in batch[k].mask
  }

  lemma EventSpares(s: State, e: Event, a: Answers, i: nat, size: nat, foreign: set<int>)
    requires Inv(s, size, foreign) && LegalEvent(s.kernel, e) && LegalPair(s, e, a)
    requires i in s.owner && (e.slot == i ==> IN !in e.mask && OUT !in e.mask)
    ensures i < |s.table| && StillServes(s, DispatchOne(s, e, a), i)
    ensures DispatchOne(s, e, a).table[i] == s.table[i]
    ensures DispatchOne(s, e, a).checkpos == s.checkpos
  {
    EventOthersWait(s, e, a, size, foreign);
    EventStep(s, e, a, size, foreign);
    CheckposKept(s, e, a);
    if e.slot == i {
      assert StillServes(s, s, i);
    }
  }

  /** Only the sweep moves `checkpos`. */
  lemma CheckposKept(s: State, e: Event, a: Answers)
    ensures DispatchOne(s, e, a).checkpos == s.checkpos
  {
    CallBackCheckpos(s, e.slot, a.onIn);
    CallBackCheckpos(TestIn(s, e, a), e.slot, a.onOut);
  }

  lemma CallBackCheckpos(s: State, i: nat, a: Answer)
    ensures CallBack(s, i, a).checkpos == s.checkpos
  {
  }

  lemma {:induction false} DispatchSpares(s: State, batch: seq<Event>, answers: seq<Answers>, i: nat, size: nat, foreign: set<int>)
    requires Inv(s, size, foreign) && LegalBatch(s.kernel, batch) && LegalDispatch(s, batch, answers)
    requires i in s.owner && Quiet(batch, i)
    ensures i < |s.table| && StillServes(s, Dispatch(s, batch, answers), i)
    ensures Dispatch(s, batch, answers).table[i] == s.table[i]
    ensures Dispatch(s, batch, answers).checkpos == s.checkpos
    decreases |batch|
  {
    hide Inv, LegalPair, DispatchOne, StillServes;
    InvBounds(s, size, foreign);
    if batch == [] {
      StillServesSelf(s, i);
    } else {
      assert batch == [batch[0]] + batch[1..];
      var s1 := DispatchOne(s, batch[0], answers[0]);
      EventSpares(s, batch[0], answers[0], i, size, foreign);
      DispatchOneStep(s, batch[0], answers[0], batch[1..], size, foreign);
      DispatchSpares(s1, batch[1..], answers[1..], i, size, foreign);
      StillServesTrans(s, s1, Dispatch(s, batch, answers), i);
    }
  }

  /** The turns of a connection before are the first of its turns after; a finished one stays as it is. */
  ghost predicate Grown(s: State, s': State) {
    && |s.conns| <= |s'.conns|
    && (forall c | 0 <= c < |s.conns| :: s.conns[c] <= s'.conns[c])
  }

  lemma GrownTrans(s: State, s1: State, s': State)
    requires Grown(s, s1) && Grown(s1, s')
    ensures Grown(s, s')
  {
    forall c | 0 <= c < |s.conns| ensures s.conns[c] <= s'.conns[c] {
      assert s.conns[c] <= s1.conns[c] && s1.conns[c] <= s'.conns[c];
    }
  }

  lemma {:induction false} DispatchGrows(s: State, batch: seq<Event>, answers: seq<Answers>, size: nat, foreign: set<int>)
    requires Inv(s, size, foreign) && LegalBatch(s.kernel, batch) && LegalDispatch(s, batch, answers)
    ensures Grown(s, Dispatch(s, batch, answers))
    decreases |batch|
  {
    hide Inv, LegalPair, DispatchOne;
    if batch == [] {
    } else {
      assert batch == [batch[0]] + batch[1..];
      var s1 := DispatchOne(s, batch[0], answers[0]);
      EventOthersWait(s, batch[0], answers[0], size, foreign);
      DispatchOneStep(s, batch[0], answers[0], batch[1..], size, foreign);
      DispatchGrows(s1, batch[1..], answers[1..], size, foreign);
      GrownTrans(s, s1, Dispatch(s, batch, answers));
    }
  }

  // ---- an event that calls a slot back is a turn of its connection ----

  /** Of two histories of a connection, the later has a further turn, and the first such is no timeout. */
  predicate Stirred(t: seq<Turn>, t': seq<Turn>) {
    |t| < |t'| && t <= t' && !t'[|t|].TimedOut?
  }

  ghost predicate Stirs(s: State, s': State, i: nat) {
    && i in s.owner && s.owner[i] < |s.conns| && s.owner[i] < |s'.conns|
    && Stirred(s.conns[s.owner[i]], s'.conns[s.owner[i]])
  }

  lemma TurnedStirs(s: State, i: nat, ev: MyEvent, turn: Turn)
    requires i in s.owner && i < |s.table| && s.owner[i] < |s.conns| && !turn.TimedOut?
    ensures Stirs(s, Turned(s, i, ev, turn), i)
  {
  }

  lemma RetiredStirs(s: State, i: nat, turn: Turn)
    requires i in s.owner && i < |s.table| && s.owner[i] < |s.conns| && !turn.TimedOut?
    ensures Stirs(s, Retired(s, i, turn), i)
  {
  }

  lemma CallBackStirs(s: State, i: nat, a: Answer, size: nat, foreign: set<int>)
    requires Inv(s, size, foreign) && i in s.owner && LegalAnswer(s, i, a)
    ensures Stirs(s, CallBack(s, i, a), i)
  {
    hide Stirs, Agreement, Descriptors, Histories, CallBack, Recv, Send, Turned, Retired;
    CallTarget(s, i, a, size);
    if s.table[i].callback == RecvData {
      RecvShape(s, i, a, size, foreign);
      if a.received.Data? {
        TurnedStirs(s, i, ReceivedSlot(s.table[i], i, a.received.bytes, a.now), Received(a.received.bytes, a.now));
      } else {
        RetiredStirs(s, i, Closed);
      }
    } else {
      SendShape(s, i, a, size, foreign);
      if a.sent > 0 {
        TurnedStirs(s, i, SentSlot(s.table[i], i, a.now), Sent(s.table[i].buf[..a.sent], a.now));
      } else {
        RetiredStirs(s, i, Closed);
      }
    }
  }

  lemma EventStirs(s: State, e: Event, a: Answers, size: nat, foreign: set<int>)
    requires Inv(s, size, foreign) && LegalEvent(s.kernel, e) && LegalPair(s, e, a)
    requires e.slot in s.owner && (IN in e.mask || OUT in e.mask)
    ensures Stirs(s, DispatchOne(s, e, a), e.slot)
  {
    hide Inv, Stirs, CallBack;
    OneCallPerEvent(s, e, a, size, foreign);
    if IN in e.mask {
      CallBackStirs(s, e.slot, a.onIn, size, foreign);
    } else {
      assert TestIn(s, e, a) == s;
      CallBackStirs(s, e.slot, a.onOut, size, foreign);
    }
  }

  lemma StirsThenGrows(s: State, s1: State, s': State, i: nat)
    requires Stirs(s, s1, i) && Grown(s1, s')
    ensures Stirs(s, s', i)
  {
    var c := s.owner[i];
    assert s1.conns[c] <= s'.conns[c];
  }

  lemma ServesThenStirs(s: State, s1: State, s': State, i: nat)
    requires StillServes(s, s1, i) && Stirs(s1, s', i)
    ensures Stirs(s, s', i)
  {
  }

  /** A batch that is not quiet for an occupied slot gives its connection a turn. */
  lemma {:induction false} LoudBatchStirs(
      s: State, batch: seq<Event>, answers: seq<Answers>, i: nat, size: nat, foreign: set<int>)
    requires Inv(s, size, foreign) && LegalBatch(s.kernel, batch) && LegalDispatch(s, batch, answers)
    requires i in s.owner && !Quiet(batch, i)
    ensures Stirs(s, Dispatch(s, batch, answers), i)
    decreases |batch|
  {
    hide Inv, LegalPair, DispatchOne, StillServes, Stirs;
    if batch == [] {
      assert false;
    } else {
      assert batch == [batch[0]] + batch[1..];
      var e, rest := batch[0], batch[1..];
      var s1 := DispatchOne(s, e, answers[0]);
      DispatchOneStep(s, e, answers[0], rest, size, foreign);
      if e.slot == i && (IN in e.mask || OUT in e.mask) {
        EventStirs(s, e, answers[0], size, foreign);
        DispatchGrows(s1, rest, answers[1..], size, foreign);
        StirsThenGrows(s, s1, Dispatch(s, batch, answers), i);
      } else {
        EventSpares(s, e, answers[0], i, size, foreign);
        LoudRest(e, rest, batch, i);
        ServedOwner(s, s1, i);
        LoudBatchStirs(s1, rest, answers[1..], i, size, foreign);
        ServesThenStirs(s, s1, Dispatch(s, batch, answers), i);
      }
    }
  }

  lemma LoudRest(e: Event, rest: seq<Event>, batch: seq<Event>, i: nat)
    requires batch == [e] + rest && !Quiet(batch, i)
    requires !(e.slot == i && (IN in e.mask || OUT in e.mask))
    ensures !Quiet(rest, i)
  {
    var k :| 0 <= k < |batch| && batch[k].slot == i && (IN in batch[k].mask || OUT in batch[k].mask);
    assert rest[k - 1] == batch[k];
  }

  lemma ServedOwner(s: State, s': State, i: nat)
    requires StillServes(s, s', i)
    ensures i in s'.owner
  {
  }

  lemma SweepStepGrows(s: State, now: int, size: nat, foreign: set<int>)
    requires Inv(s, size, foreign)
    ensures Grown(s, SweepStep(s, now))
  {
    SweepStepShape(s, now, size, foreign);
  }

  lemma {:induction false} SweepGrows(s: State, now: int, width: nat, size: nat, foreign: set<int>)
    requires Inv(s, size, foreign)
    ensures |s.table| > 1 && Grown(s, Sweep(s, now, width))
    decreases width
  {
    hide Inv, SweepStep;
    InvBounds(s, size, foreign);
    if width == 0 {
    } else {
      SweepStepGrows(s, now, size, foreign);
      SweepStepInv(s, now, size, foreign);
      SweepGrows(SweepStep(s, now), now, width - 1, size, foreign);
      GrownTrans(s, SweepStep(s, now), Sweep(s, now, width));
    }
  }

  lemma {:induction false} ExecGrows(s: State, rounds: seq<Round>, width: nat, size: nat, foreign: set<int>)
    requires |s.table| > 1 && Inv(s, size, foreign) && LegalRun(s, rounds, width)
    ensures Grown(s, Exec(s, rounds, width))
    decreases |rounds|
  {
    hide Inv;
    if rounds == [] {
    } else {
      var r := rounds[0];
      var s1 := Sweep(s, r.now, width);
      SweepInv(s, r.now, width, size, foreign);
      SweepGrows(s, r.now, width, size, foreign);
      DispatchGrows(s1, r.batch, r.answers, size, foreign);
      GrownTrans(s, s1, Iterate(s, r, width));
      IterateInv(s, r, width, size, foreign);
      ExecGrows(Iterate(s, r, width), rounds[1..], width, size, foreign);
      GrownTrans(s, Iterate(s, r, width), Exec(s, rounds, width));
    }
  }

  /** Once over, a connection takes no further turn. */
  lemma EndedStays(s: State, s': State, c: nat, size: nat, foreign: set<int>)
    requires Inv(s', size, foreign) && Grown(s, s') && c < |s.conns| && Ended(s.conns[c])
    ensures s'.conns[c] == s.conns[c]
  {
    var t, t' := s.conns[c], s'.conns[c];
    assert t <= t' && Alternates(t', size);
    assert t'[|t| - 1] == t[|t| - 1];
    assert TurnOk(t', |t| - 1, size);
  }

  /** The states the server can be in between two iterations of its event loop. */
  ghost predicate Reachable(s: State, size: nat, foreign: set<int>, width: nat) {
    exists limit: nat, lfd: int, now: int, past: seq<Round> ::
      limit > 0 && lfd !in foreign && ReachedBy(s, limit, size, lfd, foreign, now, past, width)
  }

  ghost predicate ReachedBy(
      s: State, limit: nat, size: nat, lfd: int, foreign: set<int>, now: int, past: seq<Round>, width: nat)
    requires limit > 0
  {
    var start := Start(limit, size, lfd, foreign, now);
    LegalRun(start, past, width) && s == Exec(start, past, width)
  }

  lemma ReachableInv(s: State, size: nat, foreign: set<int>, width: nat)
    requires Reachable(s, size, foreign, width)
    ensures Inv(s, size, foreign)
  {
    var limit: nat, lfd: int, now: int, past: seq<Round> :|
      limit > 0 && lfd !in foreign && ReachedBy(s, limit, size, lfd, foreign, now, past, width);
    StartInv(limit, size, lfd, foreign, now);
    ExecInv(Start(limit, size, lfd, foreign, now), past, width, size, foreign);
  }
}
