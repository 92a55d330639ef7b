/**
 `lt` and `et` in the program's own form: a loop over the reported events, and in `et` the loop
 that reads a socket until it would block. Every method is proved equal to `All`, which handles
 one event after the other with the functions of ReadersModel; ReadersRuns applies the laws.
 */
module ReadersServer {
  import opened Prelude
  import M = ReadersModel

  datatype Mode = Level | Edge

  datatype Event = Listener | Report(fd: int, readable: bool)

  datatype Accepted = Nobody | Socket(fd: int, queue: Bytes)

  /** What the system calls made for one event answer: `accept`, the read of `lt`, the reads of `et`. */
  datatype Answer = Answer(accepted: Accepted, n: nat, turns: seq<M.Turn>)

  type Conns = map<int, M.Conn>

  /** The kernel may answer so: `accept` gives a descriptor that is not open. */
  ghost predicate Legal(mode: Mode, conns: Conns, e: Event, a: Answer) {
    match e
    case Listener =>
      a.accepted.Socket? && a.accepted.fd in conns ==> !conns[a.accepted.fd].open
    case Report(fd, readable) =>
      readable && fd in conns ==>
        if mode.Level? then M.LegalAmount(conns[fd], a.n) else M.LegalDrain(M.Reported(conns[fd]), a.turns)
  }

  function Read(mode: Mode, c: M.Conn, a: Answer): M.Conn
    requires if mode.Level? then M.LegalAmount(c, a.n) else M.LegalDrain(M.Reported(c), a.turns)
  {
    if mode.Level? then M.Lt(c, a.n) else M.Et(c, a.turns)
  }

  function One(mode: Mode, conns: Conns, e: Event, a: Answer): Conns
    requires Legal(mode, conns, e, a)
  {
    match e
    case Listener => if a.accepted.Socket? then conns[a.accepted.fd := M.Fresh(a.accepted.queue)] else conns
    case Report(fd, readable) => if readable && fd in conns then conns[fd := Read(mode, conns[fd], a)] else conns
  }

  ghost predicate AllLegal(mode: Mode, conns: Conns, events: seq<Event>, answers: seq<Answer>)
    decreases |events|
  {
    && |answers| == |events|
    && (events != [] ==>
          && Legal(mode, conns, events[0], answers[0])
          && AllLegal(mode, One(mode, conns, events[0], answers[0]), events[1..], answers[1..]))
  }

  ghost function All(mode: Mode, conns: Conns, events: seq<Event>, answers: seq<Answer>): Conns
    requires AllLegal(mode, conns, events, answers)
    decreases |events|
  {
    if events == [] then conns
    else All(mode, One(mode, conns, events[0], answers[0]), events[1..], answers[1..])
  }

  class Server {
    var conns: Conns

    constructor ()
      ensures conns == map[]
    {
      conns := map[];
    }

    method Lt(events: seq<Event>, answers: seq<Answer>)
      requires AllLegal(Level, conns, events, answers)
      modifies this
      ensures conns == All(Level, old(conns), events, answers)
    {
      assert events[0..] == events && answers[0..] == answers;
      for i := 0 to |events|
        invariant AllLegal(Level, conns, events[i..], answers[i..])
        invariant All(Level, conns, events[i..], answers[i..]) == All(Level, old(conns), events, answers)
      {
        var e, a := events[i], answers[i];
        assert events[i..][0] == e && events[i..][1..] == events[i + 1..];
        assert answers[i..][0] == a && answers[i..][1..] == answers[i + 1..];
        if e.Listener? {
          if a.accepted.Socket? {
            conns := conns[a.accepted.fd := M.Fresh(a.accepted.queue)];
          }
        } else if e.readable {
          if e.fd in conns {
            var c := conns[e.fd].(triggers := conns[e.fd].triggers + 1);
            if c.open && c.queue != [] {
              c := M.TakeChunk(c, a.n);
            } else {
              c := M.Close(c);
            }
            conns := conns[e.fd := c];
          }
        }
      }
    }

    /** The `while (1)` of `et` on one socket. */
    method Drain(fd: int, turns: seq<M.Turn>)
      requires fd in conns && M.LegalDrain(conns[fd], turns)
      modifies this
      ensures conns == old(conns)[fd := M.Drain(old(conns)[fd], turns)]
    {
      var c := conns[fd];
      var k := 0;
      assert turns[0..] == turns;
      while true
        invariant k < |turns| && M.LegalDrain(c, turns[k..])
        invariant M.Drain(c, turns[k..]) == M.Drain(old(conns)[fd], turns)
        decreases |turns| - k
      {
        assert turns[k..][1..] == turns[k + 1..];
        c := M.Grow(c, turns[k].bytes, turns[k].eof);
        if !c.open {
          // recv fails on the closed descriptor, which is closed once more
          c := M.Close(c);
          break;
        } else if c.queue != [] {
          c := M.TakeChunk(c, turns[k].n);
        } else if c.eof {
          // recv returned 0: closed, but the loop goes on
          c := M.Close(c);
        } else {
          // EAGAIN
          break;
        }
        k := k + 1;
      }
      conns := conns[fd := c];
    }

    method Et(events: seq<Event>, answers: seq<Answer>)
      requires AllLegal(Edge, conns, events, answers)
      modifies this
      ensures conns == All(Edge, old(conns), events, answers)
    {
      assert events[0..] == events && answers[0..] == answers;
      for i := 0 to |events|
        invariant AllLegal(Edge, conns, events[i..], answers[i..])
        invariant All(Edge, conns, events[i..], answers[i..]) == All(Edge, old(conns), events, answers)
      {
        var e, a := events[i], answers[i];
        assert events[i..][0] == e && events[i..][1..] == events[i + 1..];
        assert answers[i..][0] == a && answers[i..][1..] == answers[i + 1..];
        if e.Listener? {
          if a.accepted.Socket? {
            conns := conns[a.accepted.fd := M.Fresh(a.accepted.queue)];
          }
        } else if e.readable {
          if e.fd in conns {
            ghost var before := conns;
            conns := conns[e.fd := M.Reported(conns[e.fd])];
            Drain(e.fd, a.turns);
            assert conns == before[e.fd := M.Et(before[e.fd], a.turns)];
          }
        }
      }
    }
  }
}
