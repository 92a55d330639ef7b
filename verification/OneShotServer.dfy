/**
 The one-shot server in imperative form: kernel state, the dispatcher's batch and its shared
 local variable, and the workers' program counters and buffers, changed in place by one method
 for each step. Every method is proved equal to the function of the same name, to which the
 laws in OneShotLaws and OneShotPrint apply.
 */
module OneShotServer {
  import M = OneShotModel
  import opened OneShotInvariant

  class Server {
    var socks: map<int, M.Sock>
    var regs: map<int, M.Reg>
    var batch: seq<M.Report>
    var cell: int
    var workers: seq<M.Worker>
    var conns: seq<M.Conn>
    var serving: map<int, nat>
    var abandoned: set<int>

    function Abs(): M.State
      reads this
    {
      M.State(socks, regs, batch, cell, workers, conns, serving, abandoned)
    }

    constructor ()
      ensures Abs() == M.Init()
    {
      socks, regs, batch, cell := map[], map[], [], -1;
      workers, conns, serving, abandoned := [], [], map[], {};
    }

    /** The dispatcher handles the first report of its batch. */
    method HandleReport(incoming: M.Incoming)
      requires batch != []
      modifies this
      ensures Abs() == M.HandleReport(old(Abs()), incoming)
    {
      var report := batch[0];
      batch := batch[1..];
      match report
      case Listener =>
        if incoming.Peer? {
          AddFd(incoming);
        }
      case Client(fd, readable) =>
        if readable {
          cell := fd;
          serving := serving[fd := |workers|];
          workers := workers + [M.Worker(M.Starting, -1, M.ZeroBuffer(), [])];
        } else {
          abandoned := abandoned + {fd};
        }
    }

    method AddFd(p: M.Incoming)
      requires p.Peer?
      modifies this
      ensures Abs() == M.AddFd(old(Abs()), p)
    {
      socks := socks[p.fd := M.Sock(|conns|, p.queue, p.eof)];
      regs := regs[p.fd := M.Reg(true, p.queue != [] || p.eof)];
      conns := conns + [M.Conn(p.queue, [], [])];
    }

    /** Worker `w` at its `recv`. */
    method Read(w: nat, n: nat)
      requires w < |workers| && |workers[w].buf| == M.BUFFER_SIZE
      requires workers[w].fd in socks ==> socks[workers[w].fd].conn < |conns|
      modifies this
      ensures Abs() == M.Read(old(Abs()), w, n)
    {
      var fd := workers[w].fd;
      if fd !in socks {
        return;
      }
      var k := socks[fd];
      if k.queue != [] {
        if 0 < n <= |k.queue| && n < M.BUFFER_SIZE {
          var chunk := k.queue[..n];
          socks := socks[fd := k.(queue := k.queue[n..])];
          conns := conns[k.conn := conns[k.conn].(received := conns[k.conn].received + [chunk])];
          workers := workers[w := workers[w].(
            pc := M.Holding(chunk), buf := chunk + workers[w].buf[n..], history := workers[w].history + [chunk])];
        }
      } else if k.eof {
        workers := workers[w := workers[w].(pc := M.Closing)];
      } else {
        workers := workers[w := workers[w].(pc := M.Rearming)];
      }
    }

    method ResetOneshot(w: nat)
      requires w < |workers|
      modifies this
      ensures Abs() == M.ResetOneshot(old(Abs()), w)
    {
      var fd := workers[w].fd;
      workers := workers[w := workers[w].(pc := M.Done)];
      serving := serving - {fd};
      if fd in regs {
        regs := regs[fd := M.Reg(true, fd in socks && (socks[fd].queue != [] || socks[fd].eof))];
        abandoned := abandoned - {fd};
      }
    }

    method CloseSocket(w: nat)
      requires w < |workers|
      modifies this
      ensures Abs() == M.CloseSocket(old(Abs()), w)
    {
      var fd := workers[w].fd;
      workers := workers[w := workers[w].(pc := M.Done)];
      socks, regs := socks - {fd}, regs - {fd};
      serving, abandoned := serving - {fd}, abandoned - {fd};
    }

    method Process(w: nat)
      requires w < |workers| && workers[w].pc.Holding?
      modifies this
      ensures Abs() == M.Process(old(Abs()), w)
    {
      var fd, chunk := workers[w].fd, workers[w].pc.chunk;
      workers := workers[w := workers[w].(pc := M.Reading)];
      if fd in socks && socks[fd].conn < |conns| {
        var c := socks[fd].conn;
        conns := conns[c := conns[c].(processed := conns[c].processed + [chunk])];
      }
    }

    /** One step of anyone. */
    method Step(a: M.Action)
      requires M.Legal(Abs(), a)
      modifies this
      ensures Abs() == M.Step(old(Abs()), a)
    {
      match a
      case Arrive(fd, bytes) =>
        var k := socks[fd];
        socks := socks[fd := k.(queue := k.queue + bytes)];
        regs := M.Edge(regs, fd);
        conns := conns[k.conn := conns[k.conn].(arrived := conns[k.conn].arrived + bytes)];
      case PeerCloses(fd) =>
        socks, regs := socks[fd := socks[fd].(eof := true)], M.Edge(regs, fd);
      case ErrorEdge(fd) =>
        regs := M.Edge(regs, fd);
      case Wait(reports) =>
        batch, regs := reports, M.Disarm(regs, reports);
      case Handle(incoming) =>
        HandleReport(incoming);
      case Move(w, n) =>
        match workers[w].pc {
          case Starting => workers := workers[w := workers[w].(pc := M.Reading, fd := cell)];
          case Reading => Read(w, n);
          case Holding(_) => Process(w);
          case Closing => CloseSocket(w);
          case Rearming => ResetOneshot(w);
          case Done =>
        }
    }

    /** Any interleaving. */
    method Run(actions: seq<M.Action>)
      requires M.LegalRun(Abs(), actions)
      modifies this
      ensures Abs() == M.Exec(old(Abs()), actions)
      ensures old(Inv(Abs())) && M.PromptRun(old(Abs()), actions) ==> Inv(Abs())
    {
      hide Inv, M.Legal, M.Step;
      var i := 0;
      ghost var s := Abs();
      assert actions[0..] == actions;
      while i < |actions|
        invariant i <= |actions|
        invariant M.LegalRun(Abs(), actions[i..])
        invariant M.Exec(Abs(), actions[i..]) == M.Exec(s, actions)
      {
        assert actions[i..][0] == actions[i] && actions[i..][1..] == actions[i + 1..];
        Step(actions[i]);
        i := i + 1;
      }
      if Inv(s) && M.PromptRun(s, actions) {
        ExecInv(s, actions);
      }
    }
  }
}
