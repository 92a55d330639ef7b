/**
 The level-triggered and the edge-triggered reader of one connection, as functions. The socket
 is non-blocking, as the comment in `et` requires. The buffer is cleared before every read.
 */
module ReadersModel {
  import opened Prelude

  const BUFFER_SIZE: nat := 10

  /** The most one read can return. */
  const FULL: nat := BUFFER_SIZE - 1

  /**
   The socket: unread bytes, whether the peer has closed, whether it is still open here, whether
   an edge waits to be reported. Then history: all bytes arrived, the chunks read (and
   printed), how often a handler ran, how often it called `close`.
   */
  datatype Conn = Conn(
    queue: Bytes, eof: bool, open: bool, edge: bool,
    arrived: Bytes, got: seq<Bytes>, triggers: nat, closes: nat)

  function Fresh(queue: Bytes): Conn {
    Conn(queue, false, true, queue != [], queue, [], 0, 0)
  }

  /** What the peer does: send bytes, or close. */
  function Grow(c: Conn, bytes: Bytes, eof: bool): Conn {
    if c.eof || !c.open then c
    else c.(queue := c.queue + bytes, arrived := c.arrived + bytes,
            eof := eof, edge := c.edge || bytes != [] || eof)
  }

  predicate LegalAmount(c: Conn, n: nat) {
    c.queue != [] ==> 0 < n <= |c.queue| && n <= FULL
  }

  function TakeChunk(c: Conn, n: nat): Conn
    requires n <= |c.queue|
  {
    c.(queue := c.queue[n..], got := c.got + [c.queue[..n]])
  }

  function Close(c: Conn): Conn {
    c.(open := false, closes := c.closes + 1)
  }

  /** One event in `lt`: one read; whatever is not data closes the socket. */
  function Lt(c: Conn, n: nat): Conn
    requires LegalAmount(c, n)
  {
    var c1 := c.(triggers := c.triggers + 1);
    if c1.open && c1.queue != [] then TakeChunk(c1, n) else Close(c1)
  }

  /** One turn of the `while` loop of `et`: what happens just before its `recv`, and the amount read. */
  datatype Turn = Turn(bytes: Bytes, eof: bool, n: nat)

  /** The loop of `et`: ends at EAGAIN, or at the error that `recv` gives on the closed descriptor. */
  ghost predicate LegalDrain(c: Conn, turns: seq<Turn>)
    decreases |turns|
  {
    && turns != []
    && var c1 := Grow(c, turns[0].bytes, turns[0].eof);
       if !c1.open then |turns| == 1
       else if c1.queue != [] then LegalAmount(c1, turns[0].n) && LegalDrain(TakeChunk(c1, turns[0].n), turns[1..])
       else if c1.eof then LegalDrain(Close(c1), turns[1..])
       else |turns| == 1
  }

  function Drain(c: Conn, turns: seq<Turn>): Conn
    requires LegalDrain(c, turns)
    decreases |turns|
  {
    var c1 := Grow(c, turns[0].bytes, turns[0].eof);
    if !c1.open then Close(c1)
    else if c1.queue != [] then Drain(TakeChunk(c1, turns[0].n), turns[1..])
    else if c1.eof then Drain(Close(c1), turns[1..])
    else c1
  }

  /** The report of an edge uses it up. */
  function Reported(c: Conn): Conn {
    c.(triggers := c.triggers + 1, edge := false)
  }

  /** One event in `et`: read until there is nothing left. */
  function Et(c: Conn, turns: seq<Turn>): Conn
    requires LegalDrain(Reported(c), turns)
  {
    Drain(Reported(c), turns)
  }

  // ---- runs of one connection under either discipline ----

  datatype Step = Send(bytes: Bytes, eof: bool) | LtEvent(n: nat) | EtEvent(turns: seq<Turn>)

  /** Level-triggered: reported as long as there is something to read. */
  predicate LevelReady(c: Conn) { c.open && (c.queue != [] || c.eof) }

  /** Edge-triggered: reported once after something has arrived. */
  predicate EdgeReady(c: Conn) { c.open && c.edge }

  ghost predicate LtLegal(c: Conn, steps: seq<Step>)
    decreases |steps|
  {
    steps != [] ==>
      match steps[0]
      case Send(bytes, eof) => LtLegal(Grow(c, bytes, eof), steps[1..])
      case LtEvent(n) => LevelReady(c) && LegalAmount(c, n) && LtLegal(Lt(c, n), steps[1..])
      case EtEvent(_) => false
  }

  ghost function LtRun(c: Conn, steps: seq<Step>): Conn
    requires LtLegal(c, steps)
    decreases |steps|
  {
    if steps == [] then c
    else if steps[0].Send? then LtRun(Grow(c, steps[0].bytes, steps[0].eof), steps[1..])
    else LtRun(Lt(c, steps[0].n), steps[1..])
  }

  ghost predicate EtLegal(c: Conn, steps: seq<Step>)
    decreases |steps|
  {
    steps != [] ==>
      match steps[0]
      case Send(bytes, eof) => EtLegal(Grow(c, bytes, eof), steps[1..])
      case EtEvent(turns) => EdgeReady(c) && LegalDrain(Reported(c), turns) && EtLegal(Et(c, turns), steps[1..])
      case LtEvent(_) => false
  }

  ghost function EtRun(c: Conn, steps: seq<Step>): Conn
    requires EtLegal(c, steps)
    decreases |steps|
  {
    if steps == [] then c
    else if steps[0].Send? then EtRun(Grow(c, steps[0].bytes, steps[0].eof), steps[1..])
    else EtRun(Et(c, steps[0].turns), steps[1..])
  }

  /** What the reader prints of its chunks: each up to its first zero byte. */
  function Printed(got: seq<Bytes>): Bytes {
    if got == [] then [] else Printed(got[..|got| - 1]) + CString(got[|got| - 1])
  }
}
