/**
 The echo each connection gets: for every connection, ended or not, a prefix of every chunk
 in turn; and exactly when it gets back all that it sent.
 */
module ReactorEcho {
  import opened Prelude
  import opened ReactorModel
  import opened ReactorInvariant
  import opened ReactorRuns

  /** What each successful `recv` of a connection returned. */
  function Chunks(t: seq<Turn>): seq<Bytes> {
    if t == [] then []
    else
      var rest := Chunks(t[..|t| - 1]);
      match t[|t| - 1] case Received(chunk, _) => rest + [chunk] case _ => rest
  }

  /** What each successful `send` of a connection handed to the kernel. */
  function Sends(t: seq<Turn>): seq<Bytes> {
    if t == [] then []
    else
      var rest := Sends(t[..|t| - 1]);
      match t[|t| - 1] case Sent(bytes, _) => rest + [bytes] case _ => rest
  }

  function Input(t: seq<Turn>): Bytes { Flatten(Chunks(t)) }

  function Output(t: seq<Turn>): Bytes { Flatten(Sends(t)) }

  /** The chunk received and not yet answered, as far as it is queued. */
  function Unanswered(t: seq<Turn>, size: nat): Bytes {
    if |t| > 0 && t[|t| - 1].Received? then Queued(t[|t| - 1].chunk, size) else []
  }

  /** No read filled the buffer (so that its terminator hit `len`), and no send was partial. */
  predicate TurnLossless(t: seq<Turn>, k: nat, size: nat)
    requires k < |t|
  {
    match t[k]
    case Received(chunk, _) => |chunk| < size || |chunk| % 0x100 == 0
    case Sent(bytes, _) => k > 0 && t[k - 1].Received? && |bytes| == |t[k - 1].chunk|
    case _ => true
  }

  ghost predicate Lossless(t: seq<Turn>, size: nat) {
    forall k: nat | k < |t| :: TurnLossless(t, k, size)
  }

  lemma ButLast(t: seq<Turn>, size: nat)
    requires Alternates(t, size) && |t| > 1
    ensures Alternates(t[..|t| - 1], size)
    ensures TurnOk(t, |t| - 1, size) && TurnOk(t, |t| - 2, size)
    ensures Lossless(t, size) <==> Lossless(t[..|t| - 1], size) && TurnLossless(t, |t| - 1, size)
    ensures Lossless(t[..|t| - 1], size) ==> TurnLossless(t[..|t| - 1], |t| - 2, size)
  {
    var t0 := t[..|t| - 1];
    forall k: nat | k < |t0|
      ensures TurnOk(t0, k, size)
      ensures TurnLossless(t0, k, size) == TurnLossless(t, k, size)
    {
      assert TurnOk(t, k, size);
    }
  }

  lemma NothingYet(t: seq<Turn>, size: nat)
    requires Alternates(t, size) && !Ended(t) && |t| == 1
    ensures Input(t) == [] && Output(t) == [] && Unanswered(t, size) == [] && Lossless(t, size)
  {
    assert Chunks(t) == Chunks([]) && Sends(t) == Sends([]);
  }

  lemma Begun(t: seq<Turn>, size: nat)
    requires Alternates(t, size)
    ensures |t| > 0
  {
  }

  lemma {:induction false} Balance(t: seq<Turn>, size: nat)
    requires Alternates(t, size) && !Ended(t)
    ensures |Output(t)| + |Unanswered(t, size)| <= |Input(t)|
    ensures |Output(t)| + |Unanswered(t, size)| == |Input(t)| <==> Lossless(t, size)
    ensures Lossless(t, size) ==> Output(t) + Unanswered(t, size) == Input(t)
    decreases |t|
  {
    hide Alternates, Lossless;
    Begun(t, size);
    if |t| == 1 {
      NothingYet(t, size);
    } else {
      var t0 := t[..|t| - 1];
      ButLast(t, size);
      assert !Ended(t0);
      Balance(t0, size);
      match t[|t| - 1]
      case Received(chunk, _) =>
        FlattenAppend(Chunks(t0), chunk);
      case Sent(bytes, _) =>
        FlattenAppend(Sends(t0), bytes);
        var chunk := t[|t| - 2].chunk;
        assert TurnLossless(t0, |t| - 2, size) <==> Queued(chunk, size) == chunk;
        if Lossless(t, size) {
          assert bytes == chunk;
          assert Output(t) == Output(t0) + bytes;
        }
      case _ =>
    }
  }

  lemma {:induction false} PrefixOfEachChunk(t: seq<Turn>, size: nat)
    requires Alternates(t, size)
    ensures |Sends(t)| <= |Chunks(t)| <= |Sends(t)| + 1
    ensures !Ended(t) ==> |Chunks(t)| == |t| / 2 && |Sends(t)| == (|t| - 1) / 2
    ensures forall j | 0 <= j < |Sends(t)| :: Sends(t)[j] != [] && Sends(t)[j] <= Chunks(t)[j]
    ensures !Ended(t) && t[|t| - 1].Received? ==> Chunks(t)[|Chunks(t)| - 1] == t[|t| - 1].chunk
    decreases |t|
  {
    if |t| == 1 {
      assert Chunks(t) == Chunks([]) && Sends(t) == Sends([]);
    } else {
      var t0 := t[..|t| - 1];
      ButLast(t, size);
      assert !Ended(t0);
      PrefixOfEachChunk(t0, size);
    }
  }

  /**
   In every reachable state, what any connection has been sent is one non-empty prefix of each
   successive chunk received from it, with at most the last chunk still unanswered.
   */
  lemma EchoPrefix(s: State, c: nat, size: nat, foreign: set<int>, width: nat)
    requires Reachable(s, size, foreign, width) && c < |s.conns|
    ensures |Sends(s.conns[c])| <= |Chunks(s.conns[c])| <= |Sends(s.conns[c])| + 1
    ensures forall j | 0 <= j < |Sends(s.conns[c])| ::
              Sends(s.conns[c])[j] != [] && Sends(s.conns[c])[j] <= Chunks(s.conns[c])[j]
  {
    ReachableInv(s, size, foreign, width);
    assert Alternates(s.conns[c], size);
    PrefixOfEachChunk(s.conns[c], size);
  }

  /** The bytes slot `ev` still has to send. */
  function Pending(ev: MyEvent): Bytes {
    if ev.callback == SendData && ev.len <= |ev.buf| then ev.buf[..ev.len] else []
  }

  /**
   Exact echo: of an open connection, bytes received are bytes sent followed by the pending
   buffer if and only if no read filled the buffer and no send was partial.
   */
  lemma EchoExact(s: State, i: nat, size: nat, foreign: set<int>, width: nat)
    requires Reachable(s, size, foreign, width)
    requires i in s.owner && i < |s.table| && s.owner[i] < |s.conns|
    ensures Input(s.conns[s.owner[i]]) == Output(s.conns[s.owner[i]]) + Pending(s.table[i])
            <==> Lossless(s.conns[s.owner[i]], size)
    ensures s.table[i].callback == RecvData ==> Pending(s.table[i]) == []
  {
    ReachableInv(s, size, foreign, width);
    OccupiedTurns(s, i, size, foreign);
    Balance(s.conns[s.owner[i]], size);
  }

  lemma OccupiedTurns(s: State, i: nat, size: nat, foreign: set<int>)
    requires Inv(s, size, foreign) && i in s.owner
    ensures i < |s.table| && s.owner[i] < |s.conns|
    ensures Alternates(s.conns[s.owner[i]], size) && !Ended(s.conns[s.owner[i]])
    ensures Unanswered(s.conns[s.owner[i]], size) == Pending(s.table[i])
  {
    var ev, t := s.table[i], s.conns[s.owner[i]];
    assert SlotMatches(ev, t, size);
    assert TurnOk(t, |t| - 1, size);
    assert SlotOk(ev, i);
  }

  lemma AlternatesAlways(s: State, c: nat, size: nat, foreign: set<int>, width: nat)
    requires Reachable(s, size, foreign, width) && c < |s.conns|
    ensures Alternates(s.conns[c], size)
  {
    hide Typestate, Agreement, Ownership, Descriptors;
    ReachableInv(s, size, foreign, width);
  }

  lemma ButOne(t: seq<Turn>, k: nat, size: nat)
    requires Alternates(t, size) && k + 1 < |t| && t[k].Received? && Queued(t[k].chunk, size) == []
    ensures (t[k + 1].Closed? || t[k + 1].TimedOut?) && |t| == k + 2
  {
    assert TurnOk(t, k, size) && TurnOk(t, k + 1, size);
  }

  /** A chunk of which nothing is left to send is the last of its connection, which is closed without an answer. */
  lemma NothingQueuedCloses(s: State, c: nat, k: nat, size: nat, foreign: set<int>, width: nat)
    requires Reachable(s, size, foreign, width) && c < |s.conns| && k + 1 < |s.conns[c]|
    requires s.conns[c][k].Received? && Queued(s.conns[c][k].chunk, size) == []
    ensures s.conns[c][k + 1].Closed? || s.conns[c][k + 1].TimedOut?
    ensures |s.conns[c]| == k + 2
  {
    hide Reachable, Alternates, Queued;
    AlternatesAlways(s, c, size, foreign, width);
    ButOne(s.conns[c], k, size);
  }

  /** So it is, with the program's 128-byte buffer, after a read that fills it: the terminator zeroes `len`. */
  lemma FullReadIsLost(s: State, c: nat, k: nat, foreign: set<int>, width: nat)
    requires Reachable(s, 128, foreign, width) && c < |s.conns| && k + 1 < |s.conns[c]|
    requires s.conns[c][k].Received? && |s.conns[c][k].chunk| == 128
    ensures s.conns[c][k + 1].Closed? || s.conns[c][k + 1].TimedOut?
    ensures |s.conns[c]| == k + 2
  {
    assert 128 / 0x100 == 0;
    NothingQueuedCloses(s, c, k, 128, foreign, width);
  }
}
