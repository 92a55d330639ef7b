/** Which slots the sweeps of a run look at: one after the other, going round the client slots. */
module ReactorCoverage {
  import opened EpollKernel
  import opened ReactorModel
  import opened ReactorInvariant
  import opened ReactorSweep
  import opened ReactorDispatch
  import opened ReactorRuns

  /** The slots one sweep looks at, in order. */
  function Looks(s: State, now: int, width: nat): seq<nat>
    requires |s.table| > 1
    decreases width
  {
    if width == 0 then []
    else [Position(s.checkpos, Limit(s))] + Looks(SweepStep(s, now), now, width - 1)
  }

  /** The slots all the sweeps of a run look at, in order. */
  function RunLooks(s: State, rounds: seq<Round>, width: nat): seq<nat>
    requires |s.table| > 1
    decreases |rounds|
  {
    if rounds == [] then []
    else Looks(s, rounds[0].now, width) + RunLooks(Iterate(s, rounds[0], width), rounds[1..], width)
  }

  /** `n` slots in a row from the sweep position on, going round. */
  function Cycle(checkpos: nat, limit: nat, n: nat): (r: seq<nat>)
    requires checkpos <= limit && limit > 0
    ensures |r| == n
    decreases n
  {
    if n == 0 then []
    else [Position(checkpos, limit)] + Cycle(Position(checkpos, limit) + 1, limit, n - 1)
  }

  function Advance(checkpos: nat, limit: nat, n: nat): (r: nat)
    requires checkpos <= limit && limit > 0
    ensures r <= limit
    decreases n
  {
    if n == 0 then checkpos else Advance(Position(checkpos, limit) + 1, limit, n - 1)
  }

  lemma {:induction false} CycleSplit(checkpos: nat, limit: nat, m: nat, n: nat)
    requires checkpos <= limit && limit > 0
    ensures Cycle(checkpos, limit, m + n) == Cycle(checkpos, limit, m) + Cycle(Advance(checkpos, limit, m), limit, n)
    decreases m
  {
    if m == 0 {
    } else {
      CycleSplit(Position(checkpos, limit) + 1, limit, m - 1, n);
    }
  }

  lemma {:induction false} LooksAreCycle(s: State, now: int, width: nat)
    requires |s.table| > 1 && s.checkpos <= Limit(s)
    ensures Looks(s, now, width) == Cycle(s.checkpos, Limit(s), width)
    ensures Sweep(s, now, width).checkpos == Advance(s.checkpos, Limit(s), width)
    decreases width
  {
    hide SweepStep;
    if width == 0 {
    } else {
      CheckposStep(s, now);
      LooksAreCycle(SweepStep(s, now), now, width - 1);
    }
  }

  lemma {:induction false} DispatchKeepsCheckpos(s: State, batch: seq<Event>, answers: seq<Answers>)
    ensures Dispatch(s, batch, answers).checkpos == s.checkpos
    decreases |batch|
  {
    hide DispatchOne;
    if batch == [] || answers == [] {
    } else {
      CheckposKept(s, batch[0], answers[0]);
      DispatchKeepsCheckpos(DispatchOne(s, batch[0], answers[0]), batch[1..], answers[1..]);
    }
  }

  lemma IterateCheckpos(s: State, r: Round, width: nat)
    requires |s.table| > 1
    ensures Iterate(s, r, width).checkpos == Sweep(s, r.now, width).checkpos
  {
    DispatchKeepsCheckpos(Sweep(s, r.now, width), r.batch, r.answers);
  }

  lemma OneMore(n: nat, width: nat)
    requires n > 0
    ensures n * width == width + (n - 1) * width
  {
  }

  lemma {:induction false} RunLooksAreCycle(s: State, rounds: seq<Round>, width: nat)
    requires |s.table| > 1 && s.checkpos <= Limit(s)
    ensures RunLooks(s, rounds, width) == Cycle(s.checkpos, Limit(s), |rounds| * width)
    decreases |rounds|
  {
    hide Looks, Sweep, Iterate, Cycle, Advance;
    if rounds == [] {
      assert |rounds| * width == 0;
    } else {
      LooksAreCycle(s, rounds[0].now, width);
      IterateCheckpos(s, rounds[0], width);
      RunLooksAreCycle(Iterate(s, rounds[0], width), rounds[1..], width);
      OneMore(|rounds|, width);
      CycleSplit(s.checkpos, Limit(s), width, (|rounds| - 1) * width);
    }
  }

  /** The k-th slot of a cycle is the one at distance k, and after `limit` slots it starts again. */
  lemma {:induction false} CycleAt(checkpos: nat, limit: nat, n: nat, k: nat)
    requires checkpos <= limit && limit > 0 && k < n
    ensures Cycle(checkpos, limit, n)[k] < limit
    ensures k < limit ==> Distance(checkpos, limit, Cycle(checkpos, limit, n)[k]) == k
    decreases k
  {
    if k == 0 {
    } else {
      CycleAt(Position(checkpos, limit) + 1, limit, n - 1, k - 1);
      DistanceStep(checkpos, limit, Cycle(checkpos, limit, n)[k]);
    }
  }

  lemma CycleCovers(checkpos: nat, limit: nat, n: nat)
    requires checkpos <= limit && limit > 0
    ensures (forall i: nat | i < limit :: i in Cycle(checkpos, limit, n)) <==> n >= limit
    ensures forall j, k | 0 <= j < k < n && k < limit :: Cycle(checkpos, limit, n)[j] != Cycle(checkpos, limit, n)[k]
    ensures forall i | i in Cycle(checkpos, limit, n) :: i < limit
  {
    var cycle := Cycle(checkpos, limit, n);
    forall k: nat | k < n ensures cycle[k] < limit && (k < limit ==> Distance(checkpos, limit, cycle[k]) == k) {
      CycleAt(checkpos, limit, n, k);
    }
    if n >= limit {
      forall i: nat | i < limit ensures i in cycle {
        var d := Distance(checkpos, limit, i);
        assert cycle[d] == AtDistance(checkpos, limit, d) && i == AtDistance(checkpos, limit, d);
      }
    } else {
      var i := AtDistance(checkpos, limit, n);
      assert i !in cycle;
    }
  }

  /**
   Coverage. Whatever events come in between, the sweeps of a run look at every client slot if
   and only if together they make at least as many looks as there are client slots; no slot is
   looked at twice within one round of the table; the listening slot never is.
   */
  lemma SweepsCover(s: State, rounds: seq<Round>, width: nat, size: nat, foreign: set<int>)
    requires |s.table| > 1 && Reachable(s, size, foreign, width)
    ensures (forall i: nat | i < Limit(s) :: i in RunLooks(s, rounds, width)) <==> |rounds| * width >= Limit(s)
    ensures forall j, k | 0 <= j < k < |RunLooks(s, rounds, width)| && k < Limit(s) ::
              RunLooks(s, rounds, width)[j] != RunLooks(s, rounds, width)[k]
    ensures Limit(s) !in RunLooks(s, rounds, width)
  {
    hide Inv, Reachable, RunLooks, Cycle;
    ReachableInv(s, size, foreign, width);
    InvBounds(s, size, foreign);
    RunLooksAreCycle(s, rounds, width);
    CycleCovers(s.checkpos, Limit(s), |rounds| * width);
  }
}
