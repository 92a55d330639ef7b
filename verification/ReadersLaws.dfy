/** The two readers deliver the same bytes; when they print the same text; how often they are triggered. */
module ReadersLaws {
  import opened Prelude
  import opened ReadersModel

  ghost predicate Sized(got: seq<Bytes>) {
    forall k | 0 <= k < |got| :: 0 < |got[k]| <= FULL
  }

  /** Nothing is lost, duplicated or reordered; a closed connection was read to its end. */
  ghost predicate Whole(c: Conn) {
    && c.arrived == Flatten(c.got) + c.queue
    && Sized(c.got)
    && (!c.open ==> c.eof && c.queue == [])
  }

  lemma GrowWhole(c: Conn, bytes: Bytes, eof: bool)
    requires Whole(c)
    ensures Whole(Grow(c, bytes, eof))
  {
  }

  lemma TakeWhole(c: Conn, n: nat)
    requires Whole(c) && c.open && c.queue != [] && LegalAmount(c, n)
    ensures Whole(TakeChunk(c, n))
  {
    FlattenAppend(c.got, c.queue[..n]);
    assert c.queue == c.queue[..n] + c.queue[n..];
  }

  // ---- level-triggered ----

  /** Each trigger of `lt` is one chunk, or the one close. */
  ghost predicate LtInv(c: Conn) {
    Whole(c) && c.triggers == |c.got| + c.closes && c.closes == if c.open then 0 else 1
  }

  lemma {:induction false} LtKeeps(c: Conn, steps: seq<Step>)
    requires LtInv(c) && LtLegal(c, steps)
    ensures LtInv(LtRun(c, steps))
    decreases |steps|
  {
    if steps == [] {
    } else {
      match steps[0]
      case Send(bytes, eof) =>
        GrowWhole(c, bytes, eof);
        LtKeeps(Grow(c, bytes, eof), steps[1..]);
      case LtEvent(n) =>
        if c.queue != [] {
          TakeWhole(c.(triggers := c.triggers + 1), n);
        }
        LtKeeps(Lt(c, n), steps[1..]);
      case EtEvent(_) =>
        assert false;
    }
  }

  // ---- edge-triggered ----

  /** Between events: something to read or an end to see is announced by an edge. */
  ghost predicate EtInv(c: Conn) {
    && Whole(c)
    && (LevelReady(c) ==> c.edge)
    && c.closes == if c.open then 0 else 2
  }

  /** A drain reads all there is: it leaves the socket empty, or closed (twice) at its end. */
  lemma {:induction false} DrainKeeps(c: Conn, turns: seq<Turn>)
    requires Whole(c) && LegalDrain(c, turns) && c.closes == if c.open then 0 else 1
    ensures EtInv(Drain(c, turns))
    ensures Drain(c, turns).triggers == c.triggers
    ensures Drain(c, turns).queue == [] && (Drain(c, turns).eof ==> !Drain(c, turns).open)
    decreases |turns|
  {
    var c1 := Grow(c, turns[0].bytes, turns[0].eof);
    GrowWhole(c, turns[0].bytes, turns[0].eof);
    if c1.open && c1.queue != [] {
      TakeWhole(c1, turns[0].n);
      DrainKeeps(TakeChunk(c1, turns[0].n), turns[1..]);
    } else if c1.open && c1.eof {
      DrainKeeps(Close(c1), turns[1..]);
    }
  }

  lemma {:induction false} EtKeeps(c: Conn, steps: seq<Step>)
    requires EtInv(c) && EtLegal(c, steps)
    ensures EtInv(EtRun(c, steps))
    decreases |steps|
  {
    if steps == [] {
    } else {
      match steps[0]
      case Send(bytes, eof) =>
        GrowWhole(c, bytes, eof);
        EtKeeps(Grow(c, bytes, eof), steps[1..]);
      case EtEvent(turns) =>
        DrainKeeps(Reported(c), turns);
        EtKeeps(Et(c, turns), steps[1..]);
      case LtEvent(_) =>
        assert false;
    }
  }

  // ---- equivalence ----

  /**
   The readers are equivalent: run the same stream through `lt` and through `et`, split by
   `recv` and cut into arrivals in any way, until neither has an event left. Both have read
   exactly the bytes that arrived, in order, and have closed exactly if the peer has.
   */
  lemma SameBytes(ltStart: Bytes, ltSteps: seq<Step>, etStart: Bytes, etSteps: seq<Step>)
    requires LtLegal(Fresh(ltStart), ltSteps) && EtLegal(Fresh(etStart), etSteps)
    requires !LevelReady(LtRun(Fresh(ltStart), ltSteps)) && !EdgeReady(EtRun(Fresh(etStart), etSteps))
    requires LtRun(Fresh(ltStart), ltSteps).arrived == EtRun(Fresh(etStart), etSteps).arrived
    ensures
      var l, e := LtRun(Fresh(ltStart), ltSteps), EtRun(Fresh(etStart), etSteps);
      && Flatten(l.got) == Flatten(e.got) == l.arrived
      && l.open != l.eof && e.open != e.eof
  {
    LtKeeps(Fresh(ltStart), ltSteps);
    EtKeeps(Fresh(etStart), etSteps);
    var l, e := LtRun(Fresh(ltStart), ltSteps), EtRun(Fresh(etStart), etSteps);
    assert Flatten(l.got) + [] == Flatten(l.got) && Flatten(e.got) + [] == Flatten(e.got);
  }

  /** No byte is stranded under edge triggering: while any is unread, an event is due. */
  lemma NothingStranded(start: Bytes, steps: seq<Step>)
    requires EtLegal(Fresh(start), steps)
    ensures var c := EtRun(Fresh(start), steps); LevelReady(c) ==> EdgeReady(c)
    ensures var c := EtRun(Fresh(start), steps); c.closes == if c.open then 0 else 2
  {
    EtKeeps(Fresh(start), steps);
  }

  // ---- triggers ----

  lemma {:induction false} ChunkCount(got: seq<Bytes>)
    requires Sized(got)
    ensures |got| <= |Flatten(got)| <= FULL * |got|
    decreases |got|
  {
    if got == [] {
    } else {
      ChunkCount(got[1..]);
    }
  }

  /** A read returns at most nine bytes of the ten-byte buffer, and may return any number up to that. */
  lemma ReadSize(c: Conn, n: nat)
    requires c.queue != []
    ensures LegalAmount(c, n) <==> 1 <= n <= |c.queue| && n <= 9
  {
  }

  /** `lt` is triggered once for every chunk: at least ceil(n / 9) times for n bytes, at most n times, and once more to close. */
  lemma LtTriggers(start: Bytes, steps: seq<Step>)
    requires LtLegal(Fresh(start), steps) && !LevelReady(LtRun(Fresh(start), steps))
    ensures
      var c := LtRun(Fresh(start), steps);
      var data := c.triggers - c.closes;
      (|c.arrived| + 8) / 9 <= data <= |c.arrived|
  {
    LtKeeps(Fresh(start), steps);
    var c := LtRun(Fresh(start), steps);
    ChunkCount(c.got);
    assert |c.arrived| == |Flatten(c.got)| <= FULL * |c.got|;
  }

  function Min(a: nat, b: nat): nat { if a < b then a else b }

  /** The state after `k` triggers of `lt` with reads as full as can be. */
  function LtFull(c: Conn, k: nat): Conn
    decreases k
  {
    if k == 0 || c.queue == [] then c else LtFull(Lt(c, Min(FULL, |c.queue|)), k - 1)
  }

  /** With full reads `lt` needs exactly ceil(n / 9) triggers for n unread bytes; a single one of `et` does. */
  lemma {:induction false} FullReads(c: Conn, k: nat)
    requires c.open
    ensures LtFull(c, k).queue == [] <==> k >= (|c.queue| + 8) / 9
    decreases k
  {
    if k == 0 || c.queue == [] {
    } else {
      var c1 := Lt(c, Min(FULL, |c.queue|));
      FullReads(c1, k - 1);
      assert |c1.queue| == |c.queue| - Min(FULL, |c.queue|);
      assert (|c1.queue| + 8) / 9 == (|c.queue| + 8) / 9 - 1;
    }
  }

  /** A peer that closes is reported to both readers; one event closes the socket, in `et` twice. */
  lemma PeerCloseCloses(c: Conn, n: nat)
    requires c.open && !c.eof && c.queue == []
    ensures
      var c1, turns := Grow(c, [], true), [Turn([], false, 0), Turn([], false, 0)];
      && LevelReady(c1) && !Lt(c1, n).open && Lt(c1, n).closes == c.closes + 1 && Lt(c1, n).got == c.got
      && EdgeReady(c1) && LegalDrain(Reported(c1), turns)
      && !Et(c1, turns).open && Et(c1, turns).closes == c.closes + 2 && Et(c1, turns).got == c.got
  {
    var turns := [Turn([], false, 0), Turn([], false, 0)];
    var c1 := Reported(Grow(c, [], true));
    assert turns[1..] == [Turn([], false, 0)];
    assert LegalDrain(Close(c1), turns[1..]);
    assert Drain(Close(c1), turns[1..]) == Close(Close(c1));
  }

  /** One event of `et` reads all that is there and all that arrives meanwhile. */
  lemma OneEdge(c: Conn, turns: seq<Turn>)
    requires EtInv(c) && c.open && LegalDrain(Reported(c), turns)
    ensures Et(c, turns).triggers == c.triggers + 1
    ensures Et(c, turns).queue == [] && Flatten(Et(c, turns).got) == Et(c, turns).arrived
  {
    DrainKeeps(Reported(c), turns);
    assert Flatten(Et(c, turns).got) + [] == Flatten(Et(c, turns).got);
  }

  // ---- printed text ----

  /** All the ways `recv` may split a stream. */
  ghost predicate Split(stream: Bytes, got: seq<Bytes>) {
    Sized(got) && Flatten(got) == stream
  }

  /** A zero byte is followed by zero bytes only. */
  predicate ZerosLast(stream: Bytes) {
    forall i | 0 <= i < |stream| - 1 && stream[i] == 0 :: stream[i + 1] == 0
  }

  lemma {:induction false} ZerosStay(stream: Bytes, i: nat, j: nat)
    requires ZerosLast(stream) && i <= j < |stream| && stream[i] == 0
    ensures stream[j] == 0
    decreases j - i
  {
    if i == j {
    } else {
      ZerosStay(stream, i, j - 1);
    }
  }

  lemma PrintedSnoc(got: seq<Bytes>, last: Bytes)
    ensures Printed(got + [last]) == Printed(got) + CString(last)
  {
    assert (got + [last])[..|got|] == got;
  }

  lemma {:induction false} PrintedCons(first: Bytes, got: seq<Bytes>)
    ensures Printed([first] + got) == CString(first) + Printed(got)
    decreases |got|
  {
    if got == [] {
      assert [first] + got == [first] && [first][..0] == [];
      assert Printed([first]) == Printed([]) + CString(first);
    } else {
      var n := |got| - 1;
      var rest, last := got[..n], got[n];
      assert got == rest + [last] && [first] + got == ([first] + rest) + [last];
      PrintedCons(first, rest);
      SnocBoth(first, rest, last);
    }
  }

  lemma SnocBoth(first: Bytes, rest: seq<Bytes>, last: Bytes)
    requires Printed([first] + rest) == CString(first) + Printed(rest)
    ensures Printed(([first] + rest) + [last]) == CString(first) + Printed(rest + [last])
  {
    hide Printed, CString;
    PrintedSnoc([first] + rest, last);
    PrintedSnoc(rest, last);
    assert (CString(first) + Printed(rest)) + CString(last) == CString(first) + (Printed(rest) + CString(last));
  }

  /** Of such a stream every split prints the same: the text before the first zero byte. */
  lemma {:induction false} SplitPrintsText(stream: Bytes, got: seq<Bytes>)
    requires ZerosLast(stream) && Split(stream, got)
    ensures Printed(got) == CString(stream)
    decreases |got|
  {
    if got == [] {
    } else {
      var first, rest := got[0], got[1..];
      assert stream == first + Flatten(rest);
      assert Flatten(rest) == stream[|first|..];
      SplitPrintsText(Flatten(rest), rest);
      assert got == [first] + rest;
      PrintedCons(first, rest);
      CStringConcat(first, Flatten(rest));
    }
  }

  lemma CStringConcat(a: Bytes, b: Bytes)
    requires ZerosLast(a + b)
    ensures CString(a + b) == CString(a) + CString(b)
  {
    var r := CString(a) + CString(b);
    if |CString(a)| < |a| {
      assert (a + b)[|CString(a)|] == 0;
      forall j | 0 <= j < |b| ensures b[j] == 0 {
        ZerosStay(a + b, |CString(a)|, |a| + j);
      }
      assert CString(b) == [];
      assert r == CString(a);
    }
    CStringUnique(a + b, r);
  }

  /** Every byte by itself. */
  function Singles(stream: Bytes): (got: seq<Bytes>)
    ensures Split(stream, got)
  {
    if stream == [] then [] else
      var rest := Singles(stream[1..]);
      assert stream == [stream[0]] + stream[1..];
      [[stream[0]]] + rest
  }

  function CountNonZero(stream: Bytes): nat {
    if stream == [] then 0 else (if stream[0] != 0 then 1 else 0) + CountNonZero(stream[1..])
  }

  lemma {:induction false} SinglesPrintAll(stream: Bytes)
    ensures |Printed(Singles(stream))| == CountNonZero(stream)
    decreases |stream|
  {
    if stream == [] {
    } else {
      SinglesPrintAll(stream[1..]);
      PrintedCons([stream[0]], Singles(stream[1..]));
    }
  }

  /** Bytes `i` and `i + 1` in one chunk, every other byte by itself. */
  function Paired(stream: Bytes, i: nat): (got: seq<Bytes>)
    requires i + 1 < |stream|
    ensures Split(stream, got)
    decreases i
  {
    if i == 0 then
      assert stream == stream[..2] + stream[2..];
      [stream[..2]] + Singles(stream[2..])
    else
      assert stream == [stream[0]] + stream[1..];
      [[stream[0]]] + Paired(stream[1..], i - 1)
  }

  lemma {:induction false} PairHidesOne(stream: Bytes, i: nat)
    requires i + 1 < |stream| && stream[i] == 0 && stream[i + 1] != 0
    ensures |Printed(Paired(stream, i))| == CountNonZero(stream) - 1
    decreases i
  {
    if i == 0 {
      PrintedCons(stream[..2], Singles(stream[2..]));
      SinglesPrintAll(stream[2..]);
      assert CString(stream[..2]) == [];
      assert stream[1..][1..] == stream[2..];
      assert CountNonZero(stream[1..]) == 1 + CountNonZero(stream[2..]);
    } else {
      PrintedCons([stream[0]], Paired(stream[1..], i - 1));
      PairHidesOne(stream[1..], i - 1);
    }
  }

  /**
   Exactly when the printed text, too, is the same for every reader: any two ways to split a
   stream print the same if and only if no zero byte of it is followed by another byte.
   */
  lemma SameTextExactly(stream: Bytes)
    ensures (forall p, q | Split(stream, p) && Split(stream, q) :: Printed(p) == Printed(q)) <==> ZerosLast(stream)
  {
    if ZerosLast(stream) {
      forall p, q | Split(stream, p) && Split(stream, q) ensures Printed(p) == Printed(q) {
        SplitPrintsText(stream, p);
        SplitPrintsText(stream, q);
      }
    } else {
      var i :| 0 <= i < |stream| - 1 && stream[i] == 0 && stream[i + 1] != 0;
      SinglesPrintAll(stream);
      PairHidesOne(stream, i);
      assert Split(stream, Singles(stream)) && Split(stream, Paired(stream, i));
    }
  }
}
