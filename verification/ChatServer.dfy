/**
 The chat server in the program's own form: the two arrays are changed in place by one loop,
 whose index goes back by one after a removal. Every method is proved equal to the function of
 the same name, to which the laws in ChatLaws apply.
 */
module ChatServer {
  import opened Prelude
  import opened ChatInvariant
  import opened ChatLaws
  import M = ChatModel

  class Server {
    const lfd: int
    const fds: array<M.PollFd>
    const users: array<M.ClientData>
    var count: nat
    ghost var open: set<int>
    ghost var phase: M.Phase
    ghost var log: seq<M.Note>
    ghost var polled: seq<M.Seen>
    ghost var admitted: seq<M.Seen>
    ghost var visited: seq<M.Seen>

    ghost function Abs(): M.State
      reads this, fds, users
    {
      M.State(lfd, fds[..], count, users[..], open, phase, log, polled, admitted, visited)
    }

    constructor (limit: nat, fdLimit: nat, listenfd: int, ghost foreign: set<int>)
      ensures Abs() == M.Start(limit, fdLimit, listenfd, foreign)
      ensures fresh(fds) && fresh(users)
    {
      lfd := listenfd;
      fds := new M.PollFd[limit + 1](_ => M.PollFd(-1, {}, {}));
      users := new M.ClientData[fdLimit](_ => M.ClientData(0, None, M.Zeros(M.BUFFER_SIZE)));
      count := 0;
      open, phase, log, polled, admitted, visited := foreign + {listenfd}, M.Waiting, [], [], [], [];
      new;
      fds[0] := M.PollFd(listenfd, {M.IN, M.ERR}, {});
      assert fds[..] == M.Start(limit, fdLimit, listenfd, foreign).fds;
      assert users[..] == M.Start(limit, fdLimit, listenfd, foreign).users;
    }

    method AcceptClient(a: M.Answer)
      requires M.InBounds(Abs())
      requires a.accepted.Some? ==> 0 <= a.accepted.value < users.Length
      modifies this, fds, users
      ensures Abs() == M.Accept(old(Abs()), a)
    {
      if a.accepted.None? {
        return;
      }
      var connfd := a.accepted.value;
      if count >= fds.Length - 1 {
        log := log + [M.Rejected(connfd)];
        return;
      }
      count := count + 1;
      users[connfd] := users[connfd].(address := a.address);
      fds[count] := fds[count].(fd := connfd);
      fds[count] := fds[count].(events := {M.IN, M.RDHUP, M.ERR});
      fds[count] := fds[count].(revents := {});
      open, log, admitted := open + {connfd}, log + [M.Joined(connfd, a.address)], admitted + [M.Seen(connfd, {})];
    }

    method RemoveClient(i: nat)
      requires M.InBounds(Abs()) && 1 <= i <= count
      modifies this, fds, users
      ensures Abs() == M.Remove(old(Abs()), i)
    {
      ghost var fd, last := fds[i].fd, fds[count].fd;
      users[fds[i].fd] := users[fds[count].fd];
      open := open - {fds[i].fd};
      fds[i] := fds[count];
      count := count - 1;
      log := log + [M.Left(fd, last)];
    }

    method Broadcast(speaker: int)
      requires M.InBounds(Abs())
      modifies fds, users
      ensures Abs() == M.Broadcast(old(Abs()), 1, speaker)
    {
      var j := 1;
      while j <= count
        invariant 1 <= j <= count + 1
        invariant M.InBounds(Abs())
        invariant M.Broadcast(Abs(), j, speaker) == M.Broadcast(old(Abs()), 1, speaker)
      {
        ghost var before := Abs();
        if fds[j].fd != speaker {
          fds[j] := fds[j].(events := M.OrNot(fds[j].events, M.IN));
          fds[j] := fds[j].(events := fds[j].events + {M.OUT});
          var fd := fds[j].fd;
          users[fd] := users[fd].(writeBuf := Some(speaker));
          assert Abs() == before.(
              fds := before.fds[j := before.fds[j].(events := M.OrNot(before.fds[j].events, M.IN) + {M.OUT})],
              users := before.users[fd := before.users[fd].(writeBuf := Some(speaker))]);
        }
        j := j + 1;
      }
    }

    method ReadClient(i: nat, a: M.Answer) returns (removed: bool)
      requires M.InBounds(Abs()) && 1 <= i <= count
      requires a.received.Data? ==> |a.received.bytes| < M.BUFFER_SIZE
      modifies this, fds, users
      ensures Abs() == M.Read(old(Abs()), i, a)
      ensures removed == a.received.Failed?
    {
      var connfd := fds[i].fd;
      ghost var start := Abs();
      users[connfd] := users[connfd].(buf := M.Zeros(M.BUFFER_SIZE));
      assert Abs() == start.(users := start.users[connfd := start.users[connfd].(buf := M.Zeros(M.BUFFER_SIZE))]);
      removed := false;
      match a.received {
        case Failed =>
          log := log + [M.Blanked(connfd)];
          RemoveClient(i);
          removed := true;
        case Data(bytes) =>
          users[connfd] := users[connfd].(buf := M.Fill(bytes));
          assert Abs() == start.(users := start.users[connfd := start.users[connfd].(buf := M.Fill(bytes))]);
          Broadcast(connfd);
          log := log + [M.Said(connfd, bytes)];
        case _ =>
          log := log + [M.Blanked(connfd)];
      }
    }

    method WriteClient(i: nat)
      requires M.InBounds(Abs()) && 1 <= i <= count && Records(Abs())
      modifies this, fds, users
      ensures Abs() == M.Write(old(Abs()), i)
    {
      var connfd := fds[i].fd;
      if users[connfd].writeBuf.None? {
        return;
      }
      var owner := users[connfd].writeBuf.value;
      assert Abs().users[connfd] == users[connfd];
      log := log + [M.Delivered(connfd, owner, CString(users[owner].buf))];
      users[connfd] := users[connfd].(writeBuf := None);
      fds[i] := fds[i].(events := M.OrNot(fds[i].events, M.OUT));
      fds[i] := fds[i].(events := fds[i].events + {M.IN});
    }

    /**
     `poll` and the pass over the entries it reported. It ends although it may make the array
     longer, and steps back when it makes it shorter: accepting happens at entry 0 only.
     */
    method Pass(revents: seq<M.Mask>, answers: seq<M.Answer>, ghost foreign: set<int>)
      requires Inv(Abs(), foreign) && M.LegalAction(Abs(), M.Poll(revents))
      requires M.InBounds(Abs()) && |revents| == count + 1
      requires LegalPass(M.StartPass(Abs(), revents), answers)
      modifies this, fds, users
      ensures Abs() == RunPass(M.StartPass(old(Abs()), revents), answers)
      ensures Inv(Abs(), foreign)
    {
      hide Inv, M.LegalAction, M.InBounds, M.Turn, M.StartPass;
      ghost var begun := M.StartPass(Abs(), revents);
      StartPassInv(Abs(), revents, foreign);
      Poll(revents, foreign);
      var i := 0;
      var k := 0;
      assert answers[0..] == answers;
      while i < count + 1
        invariant k <= |answers| && i <= count + 1
        invariant phase == if i < count + 1 then M.Visiting(i) else M.Waiting
        invariant Inv(Abs(), foreign)
        invariant LegalPass(Abs(), answers[k..])
        invariant RunPass(Abs(), answers[k..]) == RunPass(begun, answers)
        decreases if i == 0 then 1 else 0, count + 1 - i
      {
        assert answers[k..][0] == answers[k] && answers[k..][1..] == answers[k + 1..];
        i := Turn(i, answers[k], foreign);
        k := k + 1;
      }
    }

    /** One turn of the loop with its `++i`, undone by the `i--` of a removal. */
    method Turn(i: nat, a: M.Answer, ghost foreign: set<int>) returns (next: nat)
      requires Inv(Abs(), foreign) && M.LegalAction(Abs(), M.Visit(a)) && phase == M.Visiting(i)
      modifies this, fds, users
      ensures old(M.InBounds(Abs())) && i <= old(count) && Abs() == M.Turn(old(Abs()), a)
      ensures Inv(Abs(), foreign)
      ensures 1 <= next <= count + 1 && phase == if next < count + 1 then M.Visiting(next) else M.Waiting
      ensures i == 0 || count + 1 - next < old(count) + 1 - i
    {
      hide Records, Membership, Mail, Texts, Deliveries, Progress, M.Entries, M.Broadcast, M.Act;
      ghost var s := Abs();
      TurnInv(s, a, foreign);
      var removed := Act(i, a, foreign);
      visited := s.visited + [M.Seen(s.fds[i].fd, s.fds[i].revents)];
      next := if removed then i else i + 1;
      phase := if next < count + 1 then M.Visiting(next) else M.Waiting;
      assert Abs() == M.Turn(s, a);
    }

    /** `poll` fills in the reports. */
    method Poll(revents: seq<M.Mask>, ghost foreign: set<int>)
      requires Inv(Abs(), foreign) && M.LegalAction(Abs(), M.Poll(revents))
      modifies this, fds
      ensures old(M.InBounds(Abs())) && Abs() == M.StartPass(old(Abs()), revents)
      ensures phase == M.Visiting(0) && count == old(count)
    {
      hide Records, Membership, Mail, Texts, Deliveries, Progress;
      ghost var s := Abs();
      forall j | 0 <= j < |revents| {
        fds[j] := fds[j].(revents := revents[j]);
      }
      assert fds[..] == M.Reported(s.fds, revents);
      phase, polled, admitted, visited := M.Visiting(0), M.Entries(fds[..], 0, count + 1), [], [];
    }

    /** One turn of the loop at entry `i`; tells whether a client was removed. */
    method Act(i: nat, a: M.Answer, ghost foreign: set<int>) returns (removed: bool)
      requires Inv(Abs(), foreign) && M.LegalAction(Abs(), M.Visit(a)) && phase == M.Visiting(i)
      requires M.InBounds(Abs()) && i <= count
      modifies this, fds, users
      ensures Abs() == M.Act(old(Abs()), i, a)
      ensures removed <==> count < old(count)
      ensures count > old(count) ==> i == 0
      ensures removed ==> i >= 1 && count == old(count) - 1
    {
      hide Membership, Mail, Texts, Deliveries, Progress, M.Broadcast, M.Entries;
      ListenerBranches(Abs(), i);
      ghost var s := Abs();
      assert s.fds[i] == fds[i];
      removed := false;
      if fds[i].fd == lfd && M.IN in fds[i].revents {
        AcceptClient(a);
      } else if M.ERR in fds[i].revents {
      } else if M.RDHUP in fds[i].revents {
        RemoveClient(i);
        removed := true;
      } else if M.IN in fds[i].revents {
        BroadcastEffect(s.(users := s.users[fds[i].fd := s.users[fds[i].fd].(buf := M.Fill(if a.received.Data? then a.received.bytes else []))]), 1, fds[i].fd);
        removed := ReadClient(i, a);
      } else if M.OUT in fds[i].revents {
        WriteClient(i);
      }
    }
  }
}
