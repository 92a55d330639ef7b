/**
 The reactor in the program's own form: the table is an array updated in place by the
 callbacks, the sweep and the dispatcher are loops. Every method is proved equal to the
 function of the same name, to which the laws in the other Reactor modules apply; what the
 system calls answer comes in as arguments.
 */
module ReactorServer {
  import opened Prelude
  import opened EpollKernel
  import opened ReactorInvariant
  import opened ReactorDispatch
  import opened ReactorRuns
  import ReactorSweep
  import M = ReactorModel

  class Reactor {
    const table: array<M.MyEvent>
    var kernel: Kernel
    var checkpos: nat
    ghost var conns: seq<seq<M.Turn>>
    ghost var owner: map<nat, nat>
    ghost var leaked: set<int>
    ghost var mods: nat
    ghost var failures: nat

    ghost function Abs(): M.State
      reads this, table
    {
      M.State(table[..], kernel, checkpos, conns, owner, leaked, mods, failures)
    }

    /** Static storage is zero; then `initlistensocket`. */
    constructor (limit: nat, size: nat, lfd: int, foreign: set<int>, now: int)
      requires lfd !in foreign
      ensures Abs() == M.Start(limit, size, lfd, foreign, now)
      ensures fresh(table)
    {
      var zero := M.MyEvent(0, {}, M.Null, M.NoCallback, 0, seq(size, _ => 0 as uint8), 0, 0);
      table := new M.MyEvent[limit + 1](_ => zero);
      kernel := Kernel(foreign + {lfd}, map[]);
      checkpos := 0;
      conns, owner, leaked, mods, failures := [], map[], {}, 0, 0;
      new;
      assert table[..] == seq(limit + 1, _ => zero);
      EventSet(limit, lfd, M.AcceptConn, M.Slot(limit), now);
      EventAdd(limit, {IN});
    }

    method EventSet(i: nat, fd: int, callback: M.Callback, arg: M.Arg, now: int)
      requires i < table.Length
      modifies table
      ensures Abs() == M.EventSet(old(Abs()), i, fd, callback, arg, now)
    {
      table[i] := table[i].(fd := fd);
      table[i] := table[i].(callback := callback);
      table[i] := table[i].(events := {});
      table[i] := table[i].(arg := arg);
      table[i] := table[i].(status := 0);
      table[i] := table[i].(lastActive := now);
    }

    method EventAdd(i: nat, mask: Mask)
      requires i < table.Length
      modifies this`kernel, this`mods, this`failures, table
      ensures Abs() == M.EventAdd(old(Abs()), i, mask)
    {
      table[i] := table[i].(events := mask);
      var r := Registration(mask, i);
      if table[i].status == 1 {
        mods, failures := mods + 1, failures + if CanMod(kernel, table[i].fd) then 0 else 1;
        kernel := CtlMod(kernel, table[i].fd, r);
      } else {
        table[i] := table[i].(status := 1);
        failures := failures + if CanAdd(kernel, table[i].fd) then 0 else 1;
        kernel := CtlAdd(kernel, table[i].fd, r);
      }
    }

    method EventDel(i: nat)
      requires i < table.Length
      modifies this`kernel, table
      ensures Abs() == M.EventDel(old(Abs()), i)
    {
      if table[i].status != 1 {
        return;
      }
      table[i] := table[i].(status := 0);
      kernel := CtlDel(kernel, table[i].fd);
    }

    method CloseFd(fd: int)
      modifies this`kernel
      ensures Abs() == M.Close(old(Abs()), fd)
    {
      kernel := EpollKernel.CloseFd(kernel, fd);
    }

    ghost method Note(i: nat, turn: M.Turn)
      modifies this`conns
      ensures Abs() == M.Note(old(Abs()), i, turn)
    {
      if i in owner && owner[i] < |conns| {
        conns := conns[owner[i] := conns[owner[i]] + [turn]];
      }
    }

    ghost method Finish(i: nat, turn: M.Turn)
      modifies this`conns, this`owner
      ensures Abs() == M.Finish(old(Abs()), i, turn)
    {
      Note(i, turn);
      owner := owner - {i};
    }

    method AcceptConn(a: M.Answer)
      requires table.Length > 0
      modifies this, table
      ensures Abs() == M.Accept(old(Abs()), a)
    {
      if a.accepted.None? {
        return;
      }
      var cfd := a.accepted.value;
      kernel := OpenFd(kernel, cfd);
      var limit := table.Length - 1;
      var i := 0;
      while i < limit
        invariant i <= limit
        invariant M.FirstFree(table[..], 0, limit) == M.FirstFree(table[..], i, limit)
      {
        if table[i].status == 0 {
          break;
        }
        i := i + 1;
      }
      assert i == M.FirstFree(table[..], 0, limit);
      if i == limit || !a.nonblocking {
        conns, leaked := conns + [[M.Dropped(cfd)]], leaked + {cfd};
        return;
      }
      EventSet(i, cfd, M.RecvData, M.Slot(i), a.now);
      EventAdd(i, {IN});
      conns, owner := conns + [[M.Opened(i, cfd, a.now)]], owner[i := |conns|];
    }

    method RecvData(fd: int, i: nat, a: M.Answer)
      requires i < table.Length
      requires a.received.Data? ==> |a.received.bytes| <= |table[i].buf|
      modifies this, table
      ensures Abs() == M.Recv(old(Abs()), fd, i, a)
    {
      if a.received.Data? {
        table[i] := table[i].(buf := M.Overwrite(table[i].buf, a.received.bytes));
      }
      EventDel(i);
      if a.received.Data? {
        table[i] := M.Terminate(table[i], |a.received.bytes|);
        EventSet(i, fd, M.SendData, M.Slot(i), a.now);
        EventAdd(i, {OUT});
        Note(i, M.Received(a.received.bytes, a.now));
      } else {
        CloseFd(table[i].fd);
        Finish(i, M.Closed);
      }
    }

    method SendData(fd: int, i: nat, a: M.Answer)
      requires i < table.Length && a.sent <= table[i].len <= |table[i].buf|
      modifies this, table
      ensures Abs() == M.Send(old(Abs()), fd, i, a)
    {
      ghost var sent := if a.sent > 0 then table[i].buf[..a.sent] else [];
      EventDel(i);
      if a.sent > 0 {
        EventSet(i, fd, M.RecvData, M.Slot(i), a.now);
        EventAdd(i, {IN});
        Note(i, M.Sent(sent, a.now));
      } else {
        CloseFd(table[i].fd);
        Finish(i, M.Closed);
      }
    }

    /** Only ever called on a set pointer with its argument in the table. */
    method CallBack(i: nat, a: M.Answer)
      requires M.Callable(Abs(), i) && M.LegalAnswer(Abs(), table[i].arg.index, a)
      modifies this, table
      ensures Abs() == M.CallBack(old(Abs()), i, a)
    {
      match table[i].callback
      case NoCallback =>
        assert false;
      case AcceptConn =>
        AcceptConn(a);
      case RecvData =>
        RecvData(table[i].fd, table[i].arg.index, a);
      case SendData =>
        SendData(table[i].fd, table[i].arg.index, a);
    }

    /** The two tests on one event. */
    method DispatchOne(e: Event, a: M.Answers, ghost size: nat, ghost foreign: set<int>)
      requires Inv(Abs(), size, foreign) && LegalEvent(kernel, e) && LegalPair(Abs(), e, a)
      modifies this, table
      ensures Abs() == M.DispatchOne(old(Abs()), e, a)
    {
      LegalIsFresh(Abs(), e, size, foreign);
      OneCallPerEvent(Abs(), e, a, size, foreign);
      SelfArgument(Abs(), e.slot, size, foreign);
      if IN in e.mask && IN in table[e.slot].events {
        CallBack(e.slot, a.onIn);
        assert OUT !in e.mask;
      }
      if OUT in e.mask && OUT in table[e.slot].events {
        CallBack(e.slot, a.onOut);
      }
    }

    method Dispatch(batch: seq<Event>, answers: seq<M.Answers>, ghost size: nat, ghost foreign: set<int>)
      requires Inv(Abs(), size, foreign) && LegalBatch(kernel, batch) && LegalDispatch(Abs(), batch, answers)
      modifies this, table
      ensures Abs() == M.Dispatch(old(Abs()), batch, answers)
      ensures Inv(Abs(), size, foreign)
    {
      hide Inv, LegalBatch, LegalPair, M.DispatchOne;
      var nfd := |batch|;
      var i := 0;
      assert batch[0..] == batch && answers[0..] == answers;
      while i < nfd
        invariant i <= nfd == |batch| == |answers|
        invariant Inv(Abs(), size, foreign)
        invariant LegalBatch(kernel, batch[i..]) && LegalDispatch(Abs(), batch[i..], answers[i..])
        invariant M.Dispatch(Abs(), batch[i..], answers[i..]) == M.Dispatch(old(Abs()), batch, answers)
      {
        assert batch[i..][0] == batch[i] && batch[i..][1..] == batch[i + 1..];
        assert answers[i..][0] == answers[i] && answers[i..][1..] == answers[i + 1..];
        assert batch[i..] == [batch[i]] + batch[i + 1..];
        FirstIsLegal(kernel, batch[i..]);
        DispatchOneStep(Abs(), batch[i], answers[i], batch[i + 1..], size, foreign);
        DispatchOne(batch[i], answers[i], size, foreign);
        i := i + 1;
      }
    }

    /** One sweep of `width` slots from `checkpos` on. */
    method Sweep(now: int, width: nat)
      requires table.Length > 1 && checkpos < table.Length
      modifies this, table
      ensures Abs() == M.Sweep(old(Abs()), now, width)
      ensures checkpos < table.Length
    {
      var limit := table.Length - 1;
      var i := 0;
      while i < width
        invariant i <= width
        invariant checkpos < table.Length
        invariant M.Sweep(Abs(), now, width - i) == M.Sweep(old(Abs()), now, width)
      {
        ghost var before := Abs();
        if checkpos == limit {
          checkpos := 0;
        }
        if table[checkpos].status == 1 {
          var duration := now - table[checkpos].lastActive;
          if duration >= M.TIMEOUT {
            CloseFd(table[checkpos].fd);
            EventDel(checkpos);
            Finish(checkpos, M.TimedOut);
          }
        }
        i, checkpos := i + 1, checkpos + 1;
        assert Abs() == M.SweepStep(before, now);
      }
    }

    /** The event loop over any number of iterations. */
    method Run(rounds: seq<M.Round>, width: nat, ghost size: nat, ghost foreign: set<int>)
      requires table.Length > 1 && Inv(Abs(), size, foreign) && LegalRun(Abs(), rounds, width)
      modifies this, table
      ensures Abs() == M.Exec(old(Abs()), rounds, width)
      ensures Inv(Abs(), size, foreign)
    {
      hide Inv, LegalBatch, LegalDispatch, M.Sweep, M.Dispatch;
      var i := 0;
      assert rounds[0..] == rounds;
      while i < |rounds|
        invariant i <= |rounds|
        invariant Inv(Abs(), size, foreign) && LegalRun(Abs(), rounds[i..], width)
        invariant M.Exec(Abs(), rounds[i..], width) == M.Exec(old(Abs()), rounds, width)
      {
        assert rounds[i..][0] == rounds[i] && rounds[i..][1..] == rounds[i + 1..];
        ReactorSweep.InvBounds(Abs(), size, foreign);
        ReactorSweep.SweepInv(Abs(), rounds[i].now, width, size, foreign);
        Sweep(rounds[i].now, width);
        Dispatch(rounds[i].batch, rounds[i].answers, size, foreign);
        i := i + 1;
      }
    }
  }

  lemma SelfArgument(s: M.State, i: nat, size: nat, foreign: set<int>)
    requires Inv(s, size, foreign) && i < |s.table| && s.table[i].status == 1
    ensures s.table[i].arg == M.Slot(i)
  {
  }

  lemma FirstIsLegal(k: Kernel, batch: seq<Event>)
    requires LegalBatch(k, batch) && batch != []
    ensures LegalEvent(k, batch[0])
  {
  }
}
