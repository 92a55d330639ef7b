/** The remaining laws of every reachable state: agreement with the kernel, and conservation. */
module ReactorLaws {
  import opened Prelude
  import opened EpollKernel
  import opened ReactorModel
  import opened ReactorInvariant
  import opened ReactorCallbacks
  import opened ReactorSweep
  import opened ReactorDispatch
  import opened ReactorRuns

  lemma {:induction false} LegalDispatchPrefix(s: State, batch: seq<Event>, answers: seq<Answers>, j: nat)
    requires LegalDispatch(s, batch, answers) && j <= |batch|
    ensures LegalDispatch(s, batch[..j], answers[..j])
    decreases j
  {
    if j == 0 {
    } else {
      assert batch[..j][1..] == batch[1..][..j - 1] && answers[..j][1..] == answers[1..][..j - 1];
      LegalDispatchPrefix(DispatchOne(s, batch[0], answers[0]), batch[1..], answers[1..], j - 1);
    }
  }

  lemma {:induction false} LegalRunExtend(s: State, rounds: seq<Round>, r: Round, width: nat)
    requires |s.table| > 1 && LegalRun(s, rounds, width) && LegalRound(Exec(s, rounds, width), r, width)
    ensures LegalRun(s, rounds + [r], width)
    ensures Exec(s, rounds + [r], width) == Iterate(Exec(s, rounds, width), r, width)
    decreases |rounds|
  {
    if rounds == [] {
      assert [] + [r] == [r] && [r][1..] == [];
    } else {
      assert (rounds + [r])[0] == rounds[0] && (rounds + [r])[1..] == rounds[1..] + [r];
      LegalRunExtend(Iterate(s, rounds[0], width), rounds[1..], r, width);
    }
  }

  lemma PartIsLegal(s: State, r: Round, j: nat, width: nat)
    requires |s.table| > 1 && LegalRound(s, r, width) && j <= |r.batch|
    ensures j <= |r.answers| && LegalRound(s, Round(r.now, r.batch[..j], r.answers[..j]), width)
  {
    LegalDispatchPrefix(Sweep(s, r.now, width), r.batch, r.answers, j);
  }

  /** The state after any part of a batch is reachable too: what holds of reachable states holds in mid-batch. */
  lemma MidBatchReachable(s: State, r: Round, j: nat, size: nat, foreign: set<int>, width: nat)
    requires |s.table| > 1 && Reachable(s, size, foreign, width) && LegalRound(s, r, width)
    requires j <= |r.batch| == |r.answers|
    ensures Reachable(Dispatch(Sweep(s, r.now, width), r.batch[..j], r.answers[..j]), size, foreign, width)
  {
    hide LegalBatch, LegalDispatch, Start, Sweep, Dispatch;
    var limit: nat, lfd: int, now: int, past: seq<Round> :|
      limit > 0 && lfd !in foreign && ReachedBy(s, limit, size, lfd, foreign, now, past, width);
    var part := Round(r.now, r.batch[..j], r.answers[..j]);
    PartIsLegal(s, r, j, width);
    var start := Start(limit, size, lfd, foreign, now);
    LegalRunExtend(start, past, part, width);
    assert ReachedBy(Iterate(s, part, width), limit, size, lfd, foreign, now, past + [part], width);
  }

  /** The epoll interest set is exactly { (fd, events, slot) : status == 1 }, on distinct open descriptors. */
  lemma TableIsInterestSet(s: State, size: nat, foreign: set<int>, width: nat)
    requires Reachable(s, size, foreign, width)
    ensures forall fd, mask, i: nat ::
              (fd in s.kernel.interest && s.kernel.interest[fd] == Registration(mask, i))
              <==> (i < |s.table| && s.table[i].status == 1 && s.table[i].fd == fd && s.table[i].events == mask)
    ensures forall i: nat, j: nat | i < j < |s.table| && s.table[i].status == 1 && s.table[j].status == 1 ::
              s.table[i].fd != s.table[j].fd
    ensures s.kernel.interest.Keys <= s.kernel.open
  {
    ReachableInv(s, size, foreign, width);
  }

  /** Every occupied client slot waits either to receive or to send, for itself; the listener always listens. */
  lemma SlotTypestate(s: State, i: nat, size: nat, foreign: set<int>, width: nat)
    requires Reachable(s, size, foreign, width) && i < |s.table|
    ensures i == |s.table| - 1 ==>
              s.table[i].status == 1 && s.table[i].callback == AcceptConn && s.table[i].events == {IN}
    ensures i < |s.table| - 1 && s.table[i].status != 1 ==> s.table[i].status == 0 && i !in s.owner
    ensures i < |s.table| - 1 && s.table[i].status == 1 ==>
              && i in s.owner && s.owner[i] < |s.conns|
              && s.table[i].arg == Slot(i)
              && ((s.table[i].callback == RecvData && s.table[i].events == {IN} && |s.conns[s.owner[i]]| % 2 == 1)
                  || (s.table[i].callback == SendData && s.table[i].events == {OUT} && |s.conns[s.owner[i]]| % 2 == 0))
  {
    ReachableInv(s, size, foreign, width);
    if i < Limit(s) {
      assert SlotOk(s.table[i], i);
      if s.table[i].status == 1 {
        assert SlotMatches(s.table[i], s.conns[s.owner[i]], size);
      }
    }
  }

  /** In no run does `eventadd` take its EPOLL_CTL_MOD branch, or find that epoll_ctl fails. */
  lemma OnlySuccessfulAdds(s: State, size: nat, foreign: set<int>, width: nat)
    requires Reachable(s, size, foreign, width)
    ensures s.mods == 0 && s.failures == 0
  {
    ReachableInv(s, size, foreign, width);
  }

  /**
   Of every connection ever accepted: receiving and sending alternate, each send giving some of
   the chunk before it, and nothing follows the close. `last_active` of an occupied slot is the
   time of its connection's last turn.
   */
  lemma TurnsAlternate(s: State, c: nat, size: nat, foreign: set<int>, width: nat)
    requires Reachable(s, size, foreign, width) && c < |s.conns|
    ensures Alternates(s.conns[c], size)
    ensures forall i | i in s.owner && s.owner[i] == c ::
              i < |s.table| && s.conns[c] != [] && Timed(s.conns[c][|s.conns[c]| - 1], s.table[i].lastActive)
  {
    ReachableInv(s, size, foreign, width);
    forall i | i in s.owner && s.owner[i] == c
      ensures i < |s.table| && SlotMatches(s.table[i], s.conns[c], size)
    {
    }
  }

  /** No stale dispatch, from any reachable state. */
  lemma NeverStale(s: State, r: Round, j: nat, k: nat, size: nat, foreign: set<int>, width: nat)
    requires |s.table| > 1 && Reachable(s, size, foreign, width) && LegalRound(s, r, width)
    requires j <= k < |r.batch| == |r.answers|
    ensures
      var s0 := Sweep(s, r.now, width);
      var sj := Dispatch(s0, r.batch[..j], r.answers[..j]);
      && r.batch[k].slot < |s.table|
      && sj.table[r.batch[k].slot] == s0.table[r.batch[k].slot]
      && Fresh(sj, r.batch[k])
      && Callable(sj, r.batch[k].slot)
  {
    hide Inv, Reachable, Fresh, Callable;
    ReachableInv(s, size, foreign, width);
    SweepInv(s, r.now, width, size, foreign);
    NoStaleDispatch(Sweep(s, r.now, width), r.batch, r.answers, j, k, size, foreign);
  }

  // ---- conservation ----

  ghost function Live(conns: seq<seq<Turn>>): set<nat> {
    set c: nat | c < |conns| && !Ended(conns[c]) :: c
  }

  ghost function Over(conns: seq<seq<Turn>>): set<nat> {
    set c: nat | c < |conns| && Ended(conns[c]) && !conns[c][|conns[c]| - 1].Dropped? :: c
  }

  ghost function Forgotten(conns: seq<seq<Turn>>): set<nat> {
    set c: nat | c < |conns| && Ended(conns[c]) && conns[c][|conns[c]| - 1].Dropped? :: c
  }

  lemma LiveAreOwned(s: State)
    requires Ownership(s)
    ensures s.owner.Values == Live(s.conns)
    ensures forall i, j | i in s.owner && j in s.owner && s.owner[i] == s.owner[j] :: i == j
    ensures s.owner.Keys <= Range(Limit(s))
  {
    forall c | c in Live(s.conns) ensures c in s.owner.Values {
      assert s.owner[s.conns[c][0].slot] == c;
    }
  }

  /**
   Conservation: every accepted connection is in exactly one of an occupied slot, closed, or
   dropped at one of the two `break`s of `acceptconn`; at most MAX_EVENTS are open; and the
   descriptors open are the process's own, those of occupied slots, and the dropped ones,
   which are never closed.
   */
  lemma Conservation(s: State, size: nat, foreign: set<int>, width: nat)
    requires |s.table| > 0 && Reachable(s, size, foreign, width)
    ensures |s.conns| == |s.owner| + |Over(s.conns)| + |Forgotten(s.conns)|
    ensures |s.owner| <= Limit(s)
    ensures s.kernel.open == foreign + s.kernel.interest.Keys + s.leaked
    ensures s.leaked == set c: nat | c < |s.conns| && |s.conns[c]| > 0 && s.conns[c][0].Dropped? :: s.conns[c][0].dropped
  {
    ReachableInv(s, size, foreign, width);
    LeakedAreDropped(s, foreign);
    CountConnections(s);
  }

  lemma LeakedAreDropped(s: State, foreign: set<int>)
    requires Descriptors(s, foreign)
    ensures s.leaked == set c: nat | c < |s.conns| && |s.conns[c]| > 0 && s.conns[c][0].Dropped? :: s.conns[c][0].dropped
  {
    forall fd | fd in s.leaked
      ensures fd in set c: nat | c < |s.conns| && |s.conns[c]| > 0 && s.conns[c][0].Dropped? :: s.conns[c][0].dropped
    {
      assert [Dropped(fd)] in s.conns;
      var c: nat :| c < |s.conns| && s.conns[c] == [Dropped(fd)];
      assert s.conns[c][0].dropped == fd;
    }
  }

  lemma CountConnections(s: State)
    requires Ownership(s)
    ensures |s.conns| == |s.owner| + |Over(s.conns)| + |Forgotten(s.conns)|
    ensures |s.owner| <= Limit(s)
  {
    hide Ownership;
    LiveAreOwned(s);
    InjectiveSize(s.owner);
    Partition(s.conns);
    SubsetSize(s.owner.Keys, Range(Limit(s)));
  }

  lemma Partition(conns: seq<seq<Turn>>)
    ensures |conns| == |Live(conns)| + |Over(conns)| + |Forgotten(conns)|
  {
    var all := Live(conns) + Over(conns) + Forgotten(conns);
    forall c | c in all ensures c in Range(|conns|) {
    }
    forall c | c in Range(|conns|) ensures c in all {
      if Ended(conns[c]) {
        assert c in Over(conns) || c in Forgotten(conns);
      } else {
        assert c in Live(conns);
      }
    }
    assert all == Range(|conns|);
    assert Live(conns) !! Over(conns) && (Live(conns) + Over(conns)) !! Forgotten(conns);
  }
}
