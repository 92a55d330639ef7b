/**
 Whole servers: many connections, descriptors reused after a close, batches of events. Every
 connection of a server is a run of its one-connection reader, so that the laws in ReadersLaws
 hold of all of them.
 */
module ReadersRuns {
  import opened Prelude
  import M = ReadersModel
  import opened ReadersLaws
  import opened ReadersServer

  /** What a peer does between two batches, or the handling of one batch. */
  datatype Step = Peer(fd: int, bytes: Bytes, eof: bool) | Batch(events: seq<Event>, answers: seq<Answer>)

  predicate Ready(mode: Mode, c: M.Conn) {
    if mode.Level? then M.LevelReady(c) else M.EdgeReady(c)
  }

  /** What `epoll_wait` may return: reports of readable registered sockets, at most one for each. */
  ghost predicate LegalBatch(mode: Mode, conns: Conns, events: seq<Event>) {
    && (forall j | 0 <= j < |events| && events[j].Report? ::
          events[j].fd in conns && (events[j].readable ==> Ready(mode, conns[events[j].fd])))
    && (forall j, k | 0 <= j < k < |events| && events[j].Report? && events[k].Report? :: events[j].fd != events[k].fd)
  }

  ghost predicate LegalStep(mode: Mode, conns: Conns, step: Step) {
    match step
    case Peer(fd, _, _) => fd in conns
    case Batch(events, answers) => LegalBatch(mode, conns, events) && AllLegal(mode, conns, events, answers)
  }

  ghost function Apply(mode: Mode, conns: Conns, step: Step): Conns
    requires LegalStep(mode, conns, step)
  {
    match step
    case Peer(fd, bytes, eof) => conns[fd := M.Grow(conns[fd], bytes, eof)]
    case Batch(events, answers) => All(mode, conns, events, answers)
  }

  ghost predicate LegalRun(mode: Mode, conns: Conns, steps: seq<Step>)
    decreases |steps|
  {
    steps != [] ==> LegalStep(mode, conns, steps[0]) && LegalRun(mode, Apply(mode, conns, steps[0]), steps[1..])
  }

  ghost function Exec(mode: Mode, conns: Conns, steps: seq<Step>): Conns
    requires LegalRun(mode, conns, steps)
    decreases |steps|
  {
    if steps == [] then conns else Exec(mode, Apply(mode, conns, steps[0]), steps[1..])
  }

  // ---- every connection is a run of the one-connection reader ----

  ghost predicate LtMade(c: M.Conn, start: Bytes, steps: seq<M.Step>) {
    M.LtLegal(M.Fresh(start), steps) && c == M.LtRun(M.Fresh(start), steps)
  }

  ghost predicate EtMade(c: M.Conn, start: Bytes, steps: seq<M.Step>) {
    M.EtLegal(M.Fresh(start), steps) && c == M.EtRun(M.Fresh(start), steps)
  }

  ghost predicate IsRun(mode: Mode, c: M.Conn) {
    if mode.Level? then exists start, steps :: LtMade(c, start, steps)
    else exists start, steps :: EtMade(c, start, steps)
  }

  ghost predicate AllRuns(mode: Mode, conns: Conns) {
    forall fd | fd in conns :: IsRun(mode, conns[fd])
  }

  lemma {:induction false} LtExtend(c: M.Conn, steps: seq<M.Step>, last: M.Step)
    requires M.LtLegal(c, steps) && M.LtLegal(M.LtRun(c, steps), [last])
    ensures M.LtLegal(c, steps + [last])
    ensures M.LtRun(c, steps + [last]) == M.LtRun(M.LtRun(c, steps), [last])
    decreases |steps|
  {
    if steps == [] {
      assert [] + [last] == [last];
    } else {
      assert (steps + [last])[0] == steps[0] && (steps + [last])[1..] == steps[1..] + [last];
      LtExtend(if steps[0].Send? then M.Grow(c, steps[0].bytes, steps[0].eof) else M.Lt(c, steps[0].n), steps[1..], last);
    }
  }

  lemma {:induction false} EtExtend(c: M.Conn, steps: seq<M.Step>, last: M.Step)
    requires M.EtLegal(c, steps) && M.EtLegal(M.EtRun(c, steps), [last])
    ensures M.EtLegal(c, steps + [last])
    ensures M.EtRun(c, steps + [last]) == M.EtRun(M.EtRun(c, steps), [last])
    decreases |steps|
  {
    if steps == [] {
      assert [] + [last] == [last];
    } else {
      assert (steps + [last])[0] == steps[0] && (steps + [last])[1..] == steps[1..] + [last];
      EtExtend(if steps[0].Send? then M.Grow(c, steps[0].bytes, steps[0].eof) else M.Et(c, steps[0].turns), steps[1..], last);
    }
  }

  lemma FreshIsRun(mode: Mode, start: Bytes)
    ensures IsRun(mode, M.Fresh(start))
  {
    assert LtMade(M.Fresh(start), start, []);
    assert EtMade(M.Fresh(start), start, []);
  }

  lemma GrownIsRun(mode: Mode, c: M.Conn, bytes: Bytes, eof: bool)
    requires IsRun(mode, c)
    ensures IsRun(mode, M.Grow(c, bytes, eof))
  {
    var last := M.Send(bytes, eof);
    if mode.Level? {
      var start, steps :| LtMade(c, start, steps);
      LtExtend(M.Fresh(start), steps, last);
      assert LtMade(M.Grow(c, bytes, eof), start, steps + [last]);
    } else {
      var start, steps :| EtMade(c, start, steps);
      EtExtend(M.Fresh(start), steps, last);
      assert EtMade(M.Grow(c, bytes, eof), start, steps + [last]);
    }
  }

  lemma ReadIsRun(mode: Mode, c: M.Conn, a: Answer)
    requires IsRun(mode, c) && Ready(mode, c)
    requires if mode.Level? then M.LegalAmount(c, a.n) else M.LegalDrain(M.Reported(c), a.turns)
    ensures IsRun(mode, Read(mode, c, a))
  {
    if mode.Level? {
      var start, steps :| LtMade(c, start, steps);
      var last := M.LtEvent(a.n);
      assert [last][1..] == [];
      LtExtend(M.Fresh(start), steps, last);
      assert LtMade(Read(mode, c, a), start, steps + [last]);
    } else {
      var start, steps :| EtMade(c, start, steps);
      var last := M.EtEvent(a.turns);
      assert [last][1..] == [];
      EtExtend(M.Fresh(start), steps, last);
      assert EtMade(Read(mode, c, a), start, steps + [last]);
    }
  }

  lemma OneRuns(mode: Mode, conns: Conns, e: Event, a: Answer)
    requires AllRuns(mode, conns) && Legal(mode, conns, e, a)
    requires e.Report? ==> e.fd in conns && (e.readable ==> Ready(mode, conns[e.fd]))
    ensures AllRuns(mode, One(mode, conns, e, a))
  {
    hide IsRun, Read, Ready;
    match e
    case Listener =>
      if a.accepted.Socket? {
        FreshIsRun(mode, a.accepted.queue);
      }
    case Report(fd, readable) =>
      if readable {
        ReadIsRun(mode, conns[fd], a);
      }
  }

  /** A report stays true until it is handled: neither the events before it nor reused descriptors touch its socket. */
  lemma RestStaysReady(mode: Mode, conns: Conns, events: seq<Event>, a: Answer)
    requires events != [] && LegalBatch(mode, conns, events) && Legal(mode, conns, events[0], a)
    ensures LegalBatch(mode, One(mode, conns, events[0], a), events[1..])
  {
    var conns', rest := One(mode, conns, events[0], a), events[1..];
    forall j | 0 <= j < |rest| && rest[j].Report?
      ensures rest[j].fd in conns' && (rest[j].readable ==> Ready(mode, conns'[rest[j].fd]))
    {
      assert rest[j] == events[j + 1];
    }
  }

  lemma {:induction false} BatchRuns(mode: Mode, conns: Conns, events: seq<Event>, answers: seq<Answer>)
    requires AllRuns(mode, conns) && LegalBatch(mode, conns, events) && AllLegal(mode, conns, events, answers)
    ensures AllRuns(mode, All(mode, conns, events, answers))
    decreases |events|
  {
    hide AllRuns, Ready, Legal, One;
    if events == [] {
    } else {
      OneRuns(mode, conns, events[0], answers[0]);
      RestStaysReady(mode, conns, events, answers[0]);
      BatchRuns(mode, One(mode, conns, events[0], answers[0]), events[1..], answers[1..]);
    }
  }

  /** Which event of a batch reports `fd` as readable, if any. */
  ghost predicate ReportedAt(events: seq<Event>, fd: int, j: nat) {
    j < |events| && events[j] == Report(fd, true)
  }

  ghost predicate AcceptedAt(events: seq<Event>, answers: seq<Answer>, fd: int, j: nat) {
    j < |events| && j < |answers| && events[j].Listener? && answers[j].accepted.Socket? && answers[j].accepted.fd == fd
  }

  lemma RestOfBatch(events: seq<Event>, answers: seq<Answer>, fd: int)
    requires events != [] && |answers| == |events|
    ensures forall j: nat :: ReportedAt(events[1..], fd, j) <==> ReportedAt(events, fd, j + 1)
    ensures forall j: nat :: AcceptedAt(events[1..], answers[1..], fd, j) <==> AcceptedAt(events, answers, fd, j + 1)
  {
  }

  /**
   A batch, connection by connection: one that is reported readable is read once, with the answers
   given for its report, and any other is left as it was; nothing but `accept` makes a new one.
   */
  lemma {:induction false} BatchReadsTheReported(
      mode: Mode, conns: Conns, events: seq<Event>, answers: seq<Answer>, fd: int)
    requires LegalBatch(mode, conns, events) && AllLegal(mode, conns, events, answers)
    requires forall j: nat :: !AcceptedAt(events, answers, fd, j)
    ensures fd in All(mode, conns, events, answers) <==> fd in conns
    ensures fd in conns && (forall j: nat :: !ReportedAt(events, fd, j)) ==>
              All(mode, conns, events, answers)[fd] == conns[fd]
    ensures forall j: nat | ReportedAt(events, fd, j) ::
              && fd in conns && j < |answers|
              && (if mode.Level? then M.LegalAmount(conns[fd], answers[j].n)
                  else M.LegalDrain(M.Reported(conns[fd]), answers[j].turns))
              && All(mode, conns, events, answers)[fd] == Read(mode, conns[fd], answers[j])
    decreases |events|
  {
    hide LegalBatch, Ready, Read, M.LegalDrain, M.LegalAmount;
    if events == [] {
    } else {
      var e, a, rest := events[0], answers[0], events[1..];
      var conns' := One(mode, conns, e, a);
      assert !AcceptedAt(events, answers, fd, 0);
      RestStaysReady(mode, conns, events, a);
      RestOfBatch(events, answers, fd);
      BatchReadsTheReported(mode, conns', rest, answers[1..], fd);
      if ReportedAt(events, fd, 0) {
        ReportedOnce(mode, conns, events, fd);
      }
      forall j: nat | ReportedAt(events, fd, j)
        ensures fd in conns && j < |answers|
        ensures if mode.Level? then M.LegalAmount(conns[fd], answers[j].n)
                else M.LegalDrain(M.Reported(conns[fd]), answers[j].turns)
        ensures All(mode, conns, events, answers)[fd] == Read(mode, conns[fd], answers[j])
      {
        if j > 0 {
          assert ReportedAt(rest, fd, j - 1);
          assert !ReportedAt(events, fd, 0);
        } else {
          ReportedConn(mode, conns, events, fd);
        }
      }
    }
  }

  lemma ReportedOnce(mode: Mode, conns: Conns, events: seq<Event>, fd: int)
    requires LegalBatch(mode, conns, events) && ReportedAt(events, fd, 0)
    ensures forall j: nat | j > 0 :: !ReportedAt(events, fd, j)
  {
  }

  lemma ReportedConn(mode: Mode, conns: Conns, events: seq<Event>, fd: int)
    requires LegalBatch(mode, conns, events) && ReportedAt(events, fd, 0)
    ensures fd in conns
  {
  }

  /** Every connection of a server, whatever the others do, is a run of the one-connection reader. */
  lemma {:induction false} EveryConnection(mode: Mode, conns: Conns, steps: seq<Step>)
    requires AllRuns(mode, conns) && LegalRun(mode, conns, steps)
    ensures AllRuns(mode, Exec(mode, conns, steps))
    decreases |steps|
  {
    hide IsRun, LegalBatch;
    if steps == [] {
    } else {
      match steps[0] {
        case Peer(fd, bytes, eof) => GrownIsRun(mode, conns[fd], bytes, eof);
        case Batch(events, answers) => BatchRuns(mode, conns, events, answers);
      }
      EveryConnection(mode, Apply(mode, conns, steps[0]), steps[1..]);
    }
  }

  /**
   Two servers, one level-triggered and one edge-triggered, from the start and over any runs:
   two connections to which the same bytes were sent and which have no event left, have been
   read to the same bytes, and each is closed exactly if its peer has closed.
   */
  lemma ServersAgree(ltSteps: seq<Step>, etSteps: seq<Step>, fd: int, gd: int)
    requires LegalRun(Level, map[], ltSteps) && LegalRun(Edge, map[], etSteps)
    requires fd in Exec(Level, map[], ltSteps) && gd in Exec(Edge, map[], etSteps)
    requires Exec(Level, map[], ltSteps)[fd].arrived == Exec(Edge, map[], etSteps)[gd].arrived
    requires !Ready(Level, Exec(Level, map[], ltSteps)[fd]) && !Ready(Edge, Exec(Edge, map[], etSteps)[gd])
    ensures
      var l, e := Exec(Level, map[], ltSteps)[fd], Exec(Edge, map[], etSteps)[gd];
      && Flatten(l.got) == Flatten(e.got) == l.arrived
      && l.open != l.eof && e.open != e.eof
      && (ZerosLast(l.arrived) ==> M.Printed(l.got) == M.Printed(e.got) == CString(l.arrived))
  {
    EveryConnection(Level, map[], ltSteps);
    EveryConnection(Edge, map[], etSteps);
    var l, e := Exec(Level, map[], ltSteps)[fd], Exec(Edge, map[], etSteps)[gd];
    var ls, lt :| LtMade(l, ls, lt);
    var es, et :| EtMade(e, es, et);
    SameBytes(ls, lt, es, et);
    AnyRun(l, ls, lt, e, es, et);
    if ZerosLast(l.arrived) {
      SplitPrintsText(l.arrived, l.got);
      SplitPrintsText(l.arrived, e.got);
    }
  }

  lemma AnyRun(l: M.Conn, ls: Bytes, lt: seq<M.Step>, e: M.Conn, es: Bytes, et: seq<M.Step>)
    requires LtMade(l, ls, lt) && EtMade(e, es, et)
    ensures Sized(l.got) && Sized(e.got)
  {
    LtKeeps(M.Fresh(ls), lt);
    EtKeeps(M.Fresh(es), et);
  }
}
