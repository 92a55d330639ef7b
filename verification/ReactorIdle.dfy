/** How long an idle connection can last under a sweep that looks at `width` slots at a time. */
module ReactorIdle {
  import opened EpollKernel
  import opened ReactorModel
  import opened ReactorInvariant
  import opened ReactorSweep
  import opened ReactorDispatch
  import opened ReactorRuns

  /** The connection that slot `i` serves at the start takes no turn in the run, unless to be timed out. */
  ghost predicate Idle(s: State, rounds: seq<Round>, width: nat, i: nat)
    requires |s.table| > 1
  {
    && i in s.owner
    && s.owner[i] < |s.conns| && s.owner[i] < |Exec(s, rounds, width).conns|
    && var t, t' := s.conns[s.owner[i]], Exec(s, rounds, width).conns[s.owner[i]];
       t' == t || t' == t + [TimedOut]
  }

  /** Time does not go back, and successive sweeps are at most `gap` seconds apart. */
  ghost predicate Spaced(rounds: seq<Round>, gap: nat) {
    forall j | 0 < j < |rounds| :: rounds[j - 1].now <= rounds[j].now <= rounds[j - 1].now + gap
  }

  /** `sweeps` sweeps of `width` slots are enough to go round `limit` slots. */
  predicate GoRound(sweeps: nat, width: nat, limit: nat) {
    sweeps * width >= limit
  }

  /** `sweeps` sweep intervals after the moment a slot last served at time `t` becomes overdue. */
  function Deadline(t: int, sweeps: nat, gap: nat): int {
    t + TIMEOUT + sweeps * gap
  }

  lemma RoundSpares(s: State, r: Round, width: nat, i: nat, size: nat, foreign: set<int>)
    requires |s.table| > 1 && Inv(s, size, foreign) && LegalRound(s, r, width)
    requires i in s.owner && Quiet(r.batch, i) && !Due(s, r.now, width, i)
    ensures i < |s.table| && StillServes(s, Iterate(s, r, width), i)
    ensures Iterate(s, r, width).table[i] == s.table[i]
    ensures Iterate(s, r, width).checkpos == Sweep(s, r.now, width).checkpos
  {
    hide Inv, Due, LegalBatch, LegalDispatch, Quiet;
    InvBounds(s, size, foreign);
    SweepKeeps(s, r.now, width, i, size, foreign);
    SweepInv(s, r.now, width, size, foreign);
    SweepExact(s, r.now, width, i, size, foreign);
    var s1 := Sweep(s, r.now, width);
    DispatchSpares(s1, r.batch, r.answers, i, size, foreign);
    StillServesTrans(s, s1, Iterate(s, r, width), i);
  }

  lemma RoundCloses(s: State, r: Round, width: nat, i: nat, size: nat, foreign: set<int>)
    requires |s.table| > 1 && Inv(s, size, foreign) && LegalRound(s, r, width)
    requires i in s.owner && i < Limit(s) && s.checkpos <= Limit(s)
    requires Overdue(s, i, r.now) && Distance(s.checkpos, Limit(s), i) < width
    ensures JustTimedOut(s, Iterate(s, r, width), i)
    ensures s.owner[i] < |Iterate(s, r, width).conns|
    ensures Ended(Iterate(s, r, width).conns[s.owner[i]])
  {
    hide Inv;
    var s1 := Sweep(s, r.now, width);
    SweepCloses(s, r.now, width, i, size, foreign);
    EndedByTimeout(s, s1, i);
    SweepInv(s, r.now, width, size, foreign);
    DispatchGrows(s1, r.batch, r.answers, size, foreign);
    IterateInv(s, r, width, size, foreign);
    EndedStays(s1, Iterate(s, r, width), s.owner[i], size, foreign);
  }

  lemma StirredIsNotIdle(t: seq<Turn>, t1: seq<Turn>, t': seq<Turn>)
    requires Stirred(t, t1) && t1 <= t'
    ensures t' != t && t' != t + [TimedOut]
  {
    assert t'[|t|] == t1[|t|];
  }

  /** In the first round of a run in which it stays idle, a connection that is not due sees no event. */
  lemma IdleIsQuiet(s: State, rounds: seq<Round>, width: nat, i: nat, size: nat, foreign: set<int>)
    requires |s.table| > 1 && Inv(s, size, foreign) && LegalRun(s, rounds, width) && rounds != []
    requires Idle(s, rounds, width, i) && !Due(s, rounds[0].now, width, i)
    ensures Quiet(rounds[0].batch, i)
  {
    hide Inv, Due, LegalBatch, LegalDispatch, Quiet, Sweep, Dispatch, Stirred;
    var r := rounds[0];
    var s0, s1, s' := Sweep(s, r.now, width), Iterate(s, r, width), Exec(s, rounds, width);
    SweepKeeps(s, r.now, width, i, size, foreign);
    SweepInv(s, r.now, width, size, foreign);
    IterateInv(s, r, width, size, foreign);
    ExecGrows(s1, rounds[1..], width, size, foreign);
    if !Quiet(r.batch, i) {
      LoudBatchStirs(s0, r.batch, r.answers, i, size, foreign);
      StirredIsNotIdle(s.conns[s.owner[i]], s1.conns[s.owner[i]], s'.conns[s.owner[i]]);
      assert false;
    }
  }

  lemma StaysIdle(s: State, rounds: seq<Round>, width: nat, i: nat)
    requires |s.table| > 1 && rounds != [] && Idle(s, rounds, width, i)
    requires StillServes(s, Iterate(s, rounds[0], width), i)
    ensures Idle(Iterate(s, rounds[0], width), rounds[1..], width, i)
  {
  }

  /** While it is not overdue, an idle connection survives every sweep. */
  lemma {:induction false} YoungSurvives(s: State, rounds: seq<Round>, width: nat, i: nat, size: nat, foreign: set<int>)
    requires |s.table| > 1 && Inv(s, size, foreign) && LegalRun(s, rounds, width)
    requires i < |s.table| && Idle(s, rounds, width, i)
    requires forall j | 0 <= j < |rounds| :: rounds[j].now < s.table[i].lastActive + TIMEOUT
    ensures StillServes(s, Exec(s, rounds, width), i)
    ensures Exec(s, rounds, width).table[i] == s.table[i]
    decreases |rounds|
  {
    hide Inv, LegalRound, Quiet, Idle, Iterate, StillServes, Distance;
    InvBounds(s, size, foreign);
    IdleOwner(s, rounds, width, i);
    if rounds == [] {
      StillServesSelf(s, i);
    } else {
      var s1 := Iterate(s, rounds[0], width);
      IterateInv(s, rounds[0], width, size, foreign);
      IdleIsQuiet(s, rounds, width, i, size, foreign);
      RoundSpares(s, rounds[0], width, i, size, foreign);
      StaysIdle(s, rounds, width, i);
      assert forall j | 0 <= j < |rounds[1..]| :: rounds[1..][j] == rounds[j + 1];
      YoungSurvives(s1, rounds[1..], width, i, size, foreign);
      StillServesTrans(s, s1, Exec(s, rounds, width), i);
    }
  }

  lemma IdleOwner(s: State, rounds: seq<Round>, width: nat, i: nat)
    requires |s.table| > 1 && Idle(s, rounds, width, i)
    ensures i in s.owner && s.owner[i] < |s.conns|
  {
  }

  lemma GoRoundStep(sweeps: nat, width: nat, d: nat)
    requires GoRound(sweeps, width, d + 1)
    ensures sweeps > 0
    ensures d >= width ==> GoRound(sweeps - 1, width, d - width + 1)
  {
    assert sweeps * width == (sweeps - 1) * width + width;
  }

  lemma NotDue(s: State, now: int, width: nat, i: nat)
    requires i < |s.table| - 1 && s.checkpos <= |s.table| - 1
    requires Distance(s.checkpos, |s.table| - 1, i) >= width
    ensures !Due(s, now, width, i)
  {
  }

  lemma ServedSlot(s: State, s': State, i: nat)
    requires StillServes(s, s', i)
    ensures i in s'.owner
  {
  }

  /** Once overdue, it is closed when the sweeps made since then reach its slot. */
  lemma {:induction false} OverdueCloses(s: State, rounds: seq<Round>, width: nat, i: nat, size: nat, foreign: set<int>)
    requires |s.table| > 1 && Inv(s, size, foreign) && LegalRun(s, rounds, width)
    requires i < Limit(s) && s.checkpos <= Limit(s) && s.table[i].status == 1
    requires Idle(s, rounds, width, i)
    requires forall j | 0 <= j < |rounds| :: rounds[j].now >= s.table[i].lastActive + TIMEOUT
    requires GoRound(|rounds|, width, Distance(s.checkpos, Limit(s), i) + 1)
    ensures JustTimedOut(s, Exec(s, rounds, width), i)
    decreases |rounds|
  {
    hide Inv, LegalRound, Quiet, Idle, Distance, GoRound, StillServes, JustTimedOut, Iterate, Ended, Due;
    IdleOwner(s, rounds, width, i);
    var d := Distance(s.checkpos, Limit(s), i);
    GoRoundStep(|rounds|, width, d);
    var s1 := Iterate(s, rounds[0], width);
    InvBounds(s, size, foreign);
    var c := s.owner[i];
    IterateInv(s, rounds[0], width, size, foreign);
    if d < width {
      RoundCloses(s, rounds[0], width, i, size, foreign);
      assert c < |s1.conns|;
      ExecInv(s1, rounds[1..], width, size, foreign);
      ExecGrows(s1, rounds[1..], width, size, foreign);
      EndedStays(s1, Exec(s, rounds, width), c, size, foreign);
      TimedOutThenLeft(s, s1, Exec(s, rounds, width), i);
    } else {
      NotDue(s, rounds[0].now, width, i);
      SweepApproaches(s, rounds[0].now, width, i);
      IdleIsQuiet(s, rounds, width, i, size, foreign);
      RoundSpares(s, rounds[0], width, i, size, foreign);
      StaysIdle(s, rounds, width, i);
      assert forall j | 0 <= j < |rounds[1..]| :: rounds[1..][j] == rounds[j + 1];
      ServedSlot(s, s1, i);
      OverdueCloses(s1, rounds[1..], width, i, size, foreign);
      ServedThenTimedOut(s, s1, Exec(s, rounds, width), i);
    }
  }

  lemma {:induction false} SpacedBound(rounds: seq<Round>, gap: nat, j: nat, k: nat)
    requires Spaced(rounds, gap) && j <= k < |rounds|
    ensures rounds[j].now <= rounds[k].now <= rounds[j].now + (k - j) * gap
    decreases k - j
  {
    if j == k {
    } else {
      SpacedBound(rounds, gap, j, k - 1);
      assert (k - j) * gap == (k - 1 - j) * gap + gap;
    }
  }

  /** The first sweep at or after time `due`. */
  lemma {:induction false} FirstDue(rounds: seq<Round>, due: int) returns (j: nat)
    requires |rounds| > 0 && rounds[|rounds| - 1].now >= due
    ensures j < |rounds| && rounds[j].now >= due
    ensures forall k | 0 <= k < j :: rounds[k].now < due
  {
    j := 0;
    while rounds[j].now < due
      invariant j < |rounds| && forall k | 0 <= k < j :: rounds[k].now < due
      decreases |rounds| - j
    {
      j := j + 1;
    }
  }

  /**
   The idle bound. Let slot `i` last be served at time t, sweeps come at most `gap` seconds
   apart (the first within `gap` of t), and let `sweeps` sweeps be enough to go round the
   table. If the connection takes no turn of its own and the run lasts long enough, the sweep
   closes it, and does so before t + 60 + sweeps * gap, whoever is given the slot afterwards.
   */
  lemma IdleBound(s: State, rounds: seq<Round>, width: nat, i: nat, gap: nat, sweeps: nat, size: nat, foreign: set<int>)
      returns (q: nat)
    requires |s.table| > 1 && Reachable(s, size, foreign, width) && LegalRun(s, rounds, width)
    requires i < |s.table| && Idle(s, rounds, width, i)
    requires sweeps > 0 && GoRound(sweeps, width, |s.table| - 1)
    requires Spaced(rounds, gap) && |rounds| > 0 && rounds[0].now <= s.table[i].lastActive + gap
    requires rounds[|rounds| - 1].now >= Deadline(s.table[i].lastActive, sweeps - 1, gap)
    ensures 0 < q <= |rounds|
    ensures rounds[q - 1].now < Deadline(s.table[i].lastActive, sweeps, gap)
    ensures JustTimedOut(s, Exec(s, rounds[..q], width), i)
  {
    hide *;
    ReachableInv(s, size, foreign, width);
    var j := ClosingSweep(rounds, gap, s.table[i].lastActive, sweeps);
    q := j + sweeps;
    ExecSplit(s, rounds, width, q);
    IdlePrefix(s, rounds, width, i, q, size, foreign);
    ClosedInTime(s, rounds[..q], width, i, j, sweeps, size, foreign);
  }

  lemma IdlePrefix(s: State, rounds: seq<Round>, width: nat, i: nat, q: nat, size: nat, foreign: set<int>)
    requires |s.table| > 1 && Inv(s, size, foreign) && LegalRun(s, rounds, width)
    requires q <= |rounds| && Idle(s, rounds, width, i)
    ensures Idle(s, rounds[..q], width, i)
  {
    hide Inv, LegalRun, Exec;
    ExecSplit(s, rounds, width, q);
    var s1, s' := Exec(s, rounds[..q], width), Exec(s, rounds, width);
    ExecInv(s, rounds[..q], width, size, foreign);
    ExecGrows(s, rounds[..q], width, size, foreign);
    ExecGrows(s1, rounds[q..], width, size, foreign);
    var c := s.owner[i];
    Between(s.conns[c], s1.conns[c], s'.conns[c]);
  }

  lemma Between(t: seq<Turn>, t1: seq<Turn>, t': seq<Turn>)
    requires t <= t1 <= t' && (t' == t || t' == t + [TimedOut])
    ensures t1 == t || t1 == t + [TimedOut]
  {
    if |t1| == |t| {
      assert t1 == t;
    } else {
      assert t1 == t';
    }
  }

  lemma IdleSuffix(s: State, rounds: seq<Round>, width: nat, i: nat, q: nat)
    requires |s.table| > 1 && LegalRun(s, rounds, width) && q <= |rounds|
    requires Idle(s, rounds, width, i) && StillServes(s, Exec(s, rounds[..q], width), i)
    ensures Idle(Exec(s, rounds[..q], width), rounds[q..], width, i)
  {
    hide LegalRun, Exec;
    ExecSplit(s, rounds, width, q);
  }

  lemma DistanceBound(s: State, i: nat, sweeps: nat, width: nat)
    requires |s.table| > 1 && s.checkpos <= Limit(s) && i < Limit(s)
    requires GoRound(sweeps, width, |s.table| - 1)
    ensures GoRound(sweeps, width, Distance(s.checkpos, Limit(s), i) + 1)
  {
  }

  /** A run whose sweeps are too early up to `j`, and after that cover the table. */
  lemma ClosedInTime(s: State, run: seq<Round>, width: nat, i: nat, j: nat, sweeps: nat, size: nat, foreign: set<int>)
    requires |s.table| > 1 && Inv(s, size, foreign) && LegalRun(s, run, width)
    requires i < |s.table| && Idle(s, run, width, i) && |run| == j + sweeps
    requires forall k | 0 <= k < j :: run[k].now < s.table[i].lastActive + TIMEOUT
    requires forall k | j <= k < |run| :: run[k].now >= s.table[i].lastActive + TIMEOUT
    requires GoRound(sweeps, width, |s.table| - 1)
    ensures JustTimedOut(s, Exec(s, run, width), i)
  {
    hide *;
    ExecSplit(s, run, width, j);
    IdlePrefix(s, run, width, i, j, size, foreign);
    var early, late := run[..j], run[j..];
    assert forall k | 0 <= k < |late| :: late[k] == run[j + k];
    YoungSurvives(s, early, width, i, size, foreign);
    IdleSuffix(s, run, width, i, j);
    var s1 := Exec(s, early, width);
    ExecInv(s, early, width, size, foreign);
    InvBounds(s1, size, foreign);
    ServedSlot(s, s1, i);
    OccupiedSlot(s1, i, size, foreign);
    DistanceBound(s1, i, |late|, width);
    OverdueCloses(s1, late, width, i, size, foreign);
    ServedThenTimedOut(s, s1, Exec(s, run, width), i);
  }

  lemma OccupiedSlot(s: State, i: nat, size: nat, foreign: set<int>)
    requires Inv(s, size, foreign) && i in s.owner
    ensures i < |s.table| && s.table[i].status == 1
  {
  }

  lemma MulMonotone(a: nat, b: nat, g: nat)
    requires a <= b
    ensures a * g <= b * g
  {
  }

  /** `x` steps of length `gap` that cover `sweeps - 1` of them, with something to spare, number at least `sweeps`. */
  lemma StepsNeeded(x: nat, sweeps: nat, gap: nat)
    requires sweeps > 0 && (x + 1) * gap > (sweeps - 1) * gap
    ensures x + 1 >= sweeps
  {
    if x + 1 <= sweeps - 1 {
      MulMonotone(x + 1, sweeps - 1, gap);
      assert false;
    }
  }

  /** From the first overdue sweep on there are `sweeps` sweeps before the bound. */
  lemma EnoughSweeps(rounds: seq<Round>, gap: nat, due: int, sweeps: nat, j: nat)
    requires Spaced(rounds, gap) && sweeps > 0 && j < |rounds|
    requires forall k | 0 <= k < j :: rounds[k].now < due
    requires rounds[0].now <= due - TIMEOUT + gap
    requires rounds[|rounds| - 1].now >= due + (sweeps - 1) * gap
    ensures j + sweeps <= |rounds|
    ensures rounds[j + sweeps - 1].now < due + sweeps * gap
  {
    var last := |rounds| - 1;
    assert rounds[j].now < due + gap by {
      if j > 0 {
        assert rounds[j].now <= rounds[j - 1].now + gap;
      }
    }
    var x: nat := last - j;
    assert (x + 1) * gap > (sweeps - 1) * gap by {
      SpacedBound(rounds, gap, j, last);
      assert (x + 1) * gap == x * gap + gap;
    }
    StepsNeeded(x, sweeps, gap);
    SpacedBound(rounds, gap, j, j + sweeps - 1);
    assert (sweeps - 1) * gap + gap == sweeps * gap;
  }

  /** The sweep `j` from which on `sweeps` overdue sweeps are made before the deadline. */
  lemma ClosingSweep(rounds: seq<Round>, gap: nat, t: int, sweeps: nat) returns (j: nat)
    requires Spaced(rounds, gap) && sweeps > 0 && |rounds| > 0
    requires rounds[0].now <= t + gap
    requires rounds[|rounds| - 1].now >= Deadline(t, sweeps - 1, gap)
    ensures j + sweeps <= |rounds|
    ensures rounds[j + sweeps - 1].now < Deadline(t, sweeps, gap)
    ensures forall k | 0 <= k < j :: rounds[k].now < t + TIMEOUT
    ensures forall k | j <= k < |rounds| :: rounds[k].now >= t + TIMEOUT
  {
    assert (sweeps - 1) * gap >= 0;
    j := FirstDue(rounds, t + TIMEOUT);
    EnoughSweeps(rounds, gap, t + TIMEOUT, sweeps, j);
    forall k | j <= k < |rounds| ensures rounds[k].now >= t + TIMEOUT {
      SpacedBound(rounds, gap, j, k);
    }
  }

  lemma ShippedNumbers(t: int, gap: nat)
    ensures GoRound(11, 100, 1024)
    ensures Deadline(t, 10, gap) == t + 60 + 10 * gap && Deadline(t, 11, gap) == t + 60 + 11 * gap
  {
  }

  /** With the program's own numbers: 1024 slots, 100 at a time. */
  lemma IdleBoundAsShipped(s: State, rounds: seq<Round>, i: nat, gap: nat, size: nat, foreign: set<int>) returns (q: nat)
    requires |s.table| == 1024 + 1 && Reachable(s, size, foreign, 100) && LegalRun(s, rounds, 100)
    requires i < |s.table| && Idle(s, rounds, 100, i)
    requires Spaced(rounds, gap) && |rounds| > 0 && rounds[0].now <= s.table[i].lastActive + gap
    requires rounds[|rounds| - 1].now >= s.table[i].lastActive + 60 + 10 * gap
    ensures 0 < q <= |rounds| && rounds[q - 1].now < s.table[i].lastActive + 60 + 11 * gap
    ensures JustTimedOut(s, Exec(s, rounds[..q], 100), i)
  {
    hide *;
    ShippedNumbers(s.table[i].lastActive, gap);
    q := IdleBound(s, rounds, 100, i, gap, 11, size, foreign);
  }

  /** The sweep never closes a connection served less than TIMEOUT seconds before `now`. */
  lemma YoungIsSafe(s: State, now: int, width: nat, i: nat, size: nat, foreign: set<int>)
    requires |s.table| > 1 && Reachable(s, size, foreign, width)
    requires i in s.owner && i < |s.table| && now - s.table[i].lastActive < TIMEOUT
    ensures StillServes(s, Sweep(s, now, width), i)
    ensures Sweep(s, now, width).table[i] == s.table[i]
  {
    hide Inv, Reachable;
    ReachableInv(s, size, foreign, width);
    assert !Due(s, now, width, i);
    SweepKeeps(s, now, width, i, size, foreign);
    SweepExact(s, now, width, i, size, foreign);
  }
}
