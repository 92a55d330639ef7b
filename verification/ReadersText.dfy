/**
 Which texts the readers can print: every splitting of a stream is the run of either reader, and
 every such run a connection of some server; so exactly when all servers print a stream alike.
 */
module ReadersText {
  import opened Prelude
  import M = ReadersModel
  import opened ReadersLaws
  import opened ReadersServer
  import opened ReadersRuns

  // ---- every splitting is a run ----

  lemma SplitRest(stream: Bytes, got: seq<Bytes>)
    requires Split(stream, got) && got != []
    ensures 0 < |got[0]| <= |stream| && got[0] == stream[..|got[0]|]
    ensures Split(stream[|got[0]|..], got[1..])
  {
    assert stream == got[0] + Flatten(got[1..]);
  }

  lemma OneMoreChunk(done: seq<Bytes>, got: seq<Bytes>)
    requires got != []
    ensures (done + [got[0]]) + got[1..] == done + got
  {
  }

  /** `lt` can be given the unread bytes in any splitting. */
  lemma {:induction false} LtRealises(c: M.Conn, got: seq<Bytes>) returns (steps: seq<M.Step>)
    requires c.open && Split(c.queue, got)
    ensures M.LtLegal(c, steps)
    ensures
      var c' := M.LtRun(c, steps);
      c'.got == c.got + got && c'.queue == [] && c' == c.(got := c'.got, queue := [], triggers := c'.triggers)
    decreases |got|
  {
    if got == [] {
      steps := [];
    } else {
      SplitRest(c.queue, got);
      OneMoreChunk(c.got, got);
      var n := |got[0]|;
      var c1 := M.Lt(c, n);
      assert c1.got == c.got + [got[0]];
      var rest := LtRealises(c1, got[1..]);
      steps := [M.LtEvent(n)] + rest;
      assert steps[1..] == rest;
    }
  }

  /** So can one drain of `et`, if nothing arrives meanwhile. */
  lemma {:induction false} DrainRealises(c: M.Conn, got: seq<Bytes>) returns (turns: seq<M.Turn>)
    requires c.open && !c.eof && Split(c.queue, got)
    ensures M.LegalDrain(c, turns)
    ensures M.Drain(c, turns) == c.(got := c.got + got, queue := [])
    decreases |got|
  {
    if got == [] {
      turns := [M.Turn([], false, 0)];
      assert c.queue + [] == c.queue && c.arrived + [] == c.arrived && c.got + [] == c.got;
    } else {
      SplitRest(c.queue, got);
      OneMoreChunk(c.got, got);
      var n := |got[0]|;
      assert M.Grow(c, [], false) == c by {
        assert c.queue + [] == c.queue && c.arrived + [] == c.arrived;
      }
      var c1 := M.TakeChunk(c, n);
      assert c1.got == c.got + [got[0]];
      var rest := DrainRealises(c1, got[1..]);
      turns := [M.Turn([], false, n)] + rest;
      assert turns[1..] == rest;
    }
  }

  /** A connection to which `stream` was sent and which has no event left. */
  ghost predicate Finished(mode: Mode, c: M.Conn, stream: Bytes) {
    IsRun(mode, c) && !Ready(mode, c) && c.arrived == stream
  }

  /** What a reader has got of a stream in the end is a splitting of it. */
  lemma FinishedIsSplit(mode: Mode, c: M.Conn, stream: Bytes)
    requires Finished(mode, c, stream)
    ensures Split(stream, c.got)
  {
    if mode.Level? {
      var start, steps :| LtMade(c, start, steps);
      LtKeeps(M.Fresh(start), steps);
    } else {
      var start, steps :| EtMade(c, start, steps);
      EtKeeps(M.Fresh(start), steps);
    }
    assert Flatten(c.got) + [] == Flatten(c.got);
  }

  lemma SplitIsLtRun(stream: Bytes, got: seq<Bytes>) returns (c: M.Conn)
    requires Split(stream, got)
    ensures IsRun(Level, c) && !Ready(Level, c) && c.arrived == stream && c.got == got
  {
    assert [] + got == got;
    var steps := LtRealises(M.Fresh(stream), got);
    c := M.LtRun(M.Fresh(stream), steps);
    assert LtMade(c, stream, steps);
  }

  lemma OneEvent(start: Bytes, turns: seq<M.Turn>)
    requires M.EdgeReady(M.Fresh(start)) && M.LegalDrain(M.Reported(M.Fresh(start)), turns)
    ensures EtMade(M.Et(M.Fresh(start), turns), start, [M.EtEvent(turns)])
  {
    hide M.LegalDrain, M.Drain, M.EdgeReady;
    var steps := [M.EtEvent(turns)];
    assert steps[1..] == [];
    assert M.EtLegal(M.Et(M.Fresh(start), turns), steps[1..]);
    assert M.EtRun(M.Et(M.Fresh(start), turns), steps[1..]) == M.Et(M.Fresh(start), turns);
  }

  lemma SplitIsEtRun(stream: Bytes, got: seq<Bytes>) returns (c: M.Conn)
    requires Split(stream, got)
    ensures IsRun(Edge, c) && !Ready(Edge, c) && c.arrived == stream && c.got == got
  {
    hide M.LegalDrain, M.Drain, EtMade;
    if got == [] {
      c := M.Fresh(stream);
      FreshIsRun(Edge, stream);
    } else {
      SplitRest(stream, got);
      assert [] + got == got;
      var turns := DrainRealises(M.Reported(M.Fresh(stream)), got);
      c := M.Et(M.Fresh(stream), turns);
      OneEvent(stream, turns);
    }
  }

  /** And any splitting of it is what a reader may get. */
  lemma SplitIsFinished(mode: Mode, stream: Bytes, got: seq<Bytes>) returns (c: M.Conn)
    requires Split(stream, got)
    ensures Finished(mode, c, stream) && c.got == got
  {
    hide Split, IsRun, Ready;
    if mode.Level? {
      c := SplitIsLtRun(stream, got);
    } else {
      c := SplitIsEtRun(stream, got);
    }
  }

  /**
   The readers print a stream alike, whatever reads either of them makes of it, if and only if no
   zero byte of it is followed by another byte.
   */
  lemma ReadersPrintAlike(stream: Bytes)
    ensures (forall l, e | Finished(Level, l, stream) && Finished(Edge, e, stream) :: M.Printed(l.got) == M.Printed(e.got))
            <==> ZerosLast(stream)
  {
    hide Finished, Split, M.Printed;
    if ZerosLast(stream) {
      forall l, e | Finished(Level, l, stream) && Finished(Edge, e, stream)
        ensures M.Printed(l.got) == M.Printed(e.got)
      {
        FinishedIsSplit(Level, l, stream);
        FinishedIsSplit(Edge, e, stream);
        SplitPrintsText(stream, l.got);
        SplitPrintsText(stream, e.got);
      }
    } else {
      var i :| 0 <= i < |stream| - 1 && stream[i] == 0 && stream[i + 1] != 0;
      SinglesPrintAll(stream);
      PairHidesOne(stream, i);
      var l := SplitIsFinished(Level, stream, Singles(stream));
      var e := SplitIsFinished(Edge, stream, Paired(stream, i));
      assert M.Printed(l.got) != M.Printed(e.got);
    }
  }

  // ---- every run is a connection of a server ----

  /** After `steps`, a server has connection `c` on descriptor `fd`. */
  ghost predicate Serves(mode: Mode, steps: seq<Step>, fd: int, c: M.Conn) {
    && LegalRun(mode, map[], steps)
    && fd in Exec(mode, map[], steps)
    && Exec(mode, map[], steps)[fd] == c
  }

  lemma {:induction false} ServerExtend(mode: Mode, conns: Conns, steps: seq<Step>, last: Step)
    requires LegalRun(mode, conns, steps) && LegalStep(mode, Exec(mode, conns, steps), last)
    ensures LegalRun(mode, conns, steps + [last])
    ensures Exec(mode, conns, steps + [last]) == Apply(mode, Exec(mode, conns, steps), last)
    decreases |steps|
  {
    hide LegalStep, Apply;
    if steps == [] {
      assert [] + [last] == [last] && [last][1..] == [];
    } else {
      assert (steps + [last])[0] == steps[0] && (steps + [last])[1..] == steps[1..] + [last];
      ServerExtend(mode, Apply(mode, conns, steps[0]), steps[1..], last);
    }
  }

  lemma ServesFresh(mode: Mode, start: Bytes, fd: int) returns (steps: seq<Step>)
    ensures Serves(mode, steps, fd, M.Fresh(start))
  {
    var e, a := Listener, Answer(Socket(fd, start), 0, []);
    assert [e][1..] == [] && [a][1..] == [];
    var step := Batch([e], [a]);
    var accepted := One(mode, map[], e, a);
    assert AllLegal(mode, accepted, [], []) && All(mode, accepted, [], []) == accepted;
    assert AllLegal(mode, map[], [e], [a]);
    steps := [step];
    assert steps[1..] == [];
  }

  lemma ServesGrown(mode: Mode, steps: seq<Step>, fd: int, c: M.Conn, bytes: Bytes, eof: bool) returns (steps': seq<Step>)
    requires Serves(mode, steps, fd, c)
    ensures Serves(mode, steps', fd, M.Grow(c, bytes, eof))
  {
    ServerExtend(mode, map[], steps, Peer(fd, bytes, eof));
    steps' := steps + [Peer(fd, bytes, eof)];
  }

  lemma ServesRead(mode: Mode, steps: seq<Step>, fd: int, c: M.Conn, a: Answer) returns (steps': seq<Step>)
    requires Serves(mode, steps, fd, c) && Ready(mode, c)
    requires if mode.Level? then M.LegalAmount(c, a.n) else M.LegalDrain(M.Reported(c), a.turns)
    ensures Serves(mode, steps', fd, Read(mode, c, a))
  {
    var conns, e := Exec(mode, map[], steps), Report(fd, true);
    assert [e][1..] == [] && [a][1..] == [];
    var after := One(mode, conns, e, a);
    assert AllLegal(mode, after, [], []) && All(mode, after, [], []) == after;
    assert AllLegal(mode, conns, [e], [a]) && All(mode, conns, [e], [a]) == after;
    ServerExtend(mode, map[], steps, Batch([e], [a]));
    steps' := steps + [Batch([e], [a])];
  }

  lemma {:induction false} ServesLtRun(past: seq<Step>, fd: int, c: M.Conn, steps: seq<M.Step>) returns (all: seq<Step>)
    requires Serves(Level, past, fd, c) && M.LtLegal(c, steps)
    ensures Serves(Level, all, fd, M.LtRun(c, steps))
    decreases |steps|
  {
    hide Serves;
    if steps == [] {
      all := past;
    } else {
      match steps[0]
      case Send(bytes, eof) =>
        var next := ServesGrown(Level, past, fd, c, bytes, eof);
        all := ServesLtRun(next, fd, M.Grow(c, bytes, eof), steps[1..]);
      case LtEvent(n) =>
        var next := ServesRead(Level, past, fd, c, Answer(Nobody, n, []));
        all := ServesLtRun(next, fd, M.Lt(c, n), steps[1..]);
      case EtEvent(_) =>
        assert false;
    }
  }

  lemma {:induction false} ServesEtRun(past: seq<Step>, fd: int, c: M.Conn, steps: seq<M.Step>) returns (all: seq<Step>)
    requires Serves(Edge, past, fd, c) && M.EtLegal(c, steps)
    ensures Serves(Edge, all, fd, M.EtRun(c, steps))
    decreases |steps|
  {
    hide Serves;
    if steps == [] {
      all := past;
    } else {
      match steps[0]
      case Send(bytes, eof) =>
        var next := ServesGrown(Edge, past, fd, c, bytes, eof);
        all := ServesEtRun(next, fd, M.Grow(c, bytes, eof), steps[1..]);
      case EtEvent(turns) =>
        var next := ServesRead(Edge, past, fd, c, Answer(Nobody, 0, turns));
        all := ServesEtRun(next, fd, M.Et(c, turns), steps[1..]);
      case LtEvent(_) =>
        assert false;
    }
  }

  lemma RunIsServed(mode: Mode, c: M.Conn, fd: int) returns (all: seq<Step>)
    requires IsRun(mode, c)
    ensures Serves(mode, all, fd, c)
  {
    hide Serves;
    if mode.Level? {
      var start, steps :| LtMade(c, start, steps);
      var past := ServesFresh(mode, start, fd);
      all := ServesLtRun(past, fd, M.Fresh(start), steps);
    } else {
      var start, steps :| EtMade(c, start, steps);
      var past := ServesFresh(mode, start, fd);
      all := ServesEtRun(past, fd, M.Fresh(start), steps);
    }
  }

  /** The connections of servers are exactly the runs of the one-connection readers. */
  lemma ConnectionsExactly(mode: Mode, c: M.Conn)
    ensures IsRun(mode, c) <==> exists steps, fd :: Serves(mode, steps, fd, c)
  {
    if IsRun(mode, c) {
      var steps := RunIsServed(mode, c, 0);
      assert Serves(mode, steps, 0, c);
    }
    if steps, fd :| Serves(mode, steps, fd, c) {
      EveryConnection(mode, map[], steps);
    }
  }

  /** A server has read the whole of `stream` on descriptor `fd` as `c`, and no event is left. */
  ghost predicate Delivers(mode: Mode, steps: seq<Step>, fd: int, c: M.Conn, stream: Bytes) {
    Serves(mode, steps, fd, c) && !Ready(mode, c) && c.arrived == stream
  }

  /**
   Of servers: a level-triggered and an edge-triggered one print a stream alike, in all their runs
   and on all their connections, if and only if no zero byte of it is followed by another byte.
   */
  lemma ServersPrintAlike(stream: Bytes)
    ensures (forall ltSteps, etSteps, fd, gd, l, e |
               Delivers(Level, ltSteps, fd, l, stream) && Delivers(Edge, etSteps, gd, e, stream) ::
               M.Printed(l.got) == M.Printed(e.got))
            <==> ZerosLast(stream)
  {
    hide Serves, IsRun, Ready, M.Printed, ZerosLast;
    ReadersPrintAlike(stream);
    if ZerosLast(stream) {
      forall ltSteps, etSteps, fd, gd, l, e |
        Delivers(Level, ltSteps, fd, l, stream) && Delivers(Edge, etSteps, gd, e, stream)
        ensures M.Printed(l.got) == M.Printed(e.got)
      {
        ConnectionsExactly(Level, l);
        ConnectionsExactly(Edge, e);
        assert Finished(Level, l, stream) && Finished(Edge, e, stream);
      }
    } else {
      var l, e :| Finished(Level, l, stream) && Finished(Edge, e, stream) && M.Printed(l.got) != M.Printed(e.got);
      var ltSteps := RunIsServed(Level, l, 0);
      var etSteps := RunIsServed(Edge, e, 0);
      assert Delivers(Level, ltSteps, 0, l, stream) && Delivers(Edge, etSteps, 0, e, stream);
    }
  }
}
