/**
 The rotating timeout sweep: exactly which slots one sweep examines and closes, and that it
 never leaves the client slots.
 */
module ReactorSweep {
  import opened ReactorModel
  import opened ReactorInvariant
  import opened ReactorCallbacks

  /** The slot the sweep looks at next. */
  function Position(checkpos: nat, limit: nat): nat {
    if checkpos == limit then 0 else checkpos
  }

  /** How many slots the sweep looks at before it comes to slot `i`. */
  function Distance(checkpos: nat, limit: nat, i: nat): (d: nat)
    requires checkpos <= limit && i < limit
    ensures d < limit
  {
    var p := Position(checkpos, limit);
    if p <= i then i - p else limit - p + i
  }

  predicate Overdue(s: State, i: nat, now: int)
    requires i < |s.table|
  {
    s.table[i].status == 1 && now - s.table[i].lastActive >= TIMEOUT
  }

  /** The only effect of one turn of the sweep loop is on the slot at the sweep position. */
  lemma SweepStepShape(s: State, now: int, size: nat, foreign: set<int>)
    requires Inv(s, size, foreign)
    ensures
      var p := Position(s.checkpos, Limit(s));
      && p < Limit(s)
      && (Overdue(s, p, now) ==> p in s.owner)
      && SweepStep(s, now) ==
           (if Overdue(s, p, now) then Retired(s, p, TimedOut) else s).(checkpos := p + 1)
  {
    var p := Position(s.checkpos, Limit(s));
    if Overdue(s, p, now) {
      ExpireShape(s, p, size, foreign);
    }
  }

  /** Slot `i` still serves the same connection, which took no turn. */
  predicate StillServes(s: State, s': State, i: nat) {
    && i in s.owner && i in s'.owner
    && s'.owner[i] == s.owner[i]
    && s.owner[i] < |s.conns| && s.owner[i] < |s'.conns|
    && s'.conns[s.owner[i]] == s.conns[s.owner[i]]
  }

  /** The connection of slot `i` has just been timed out. */
  predicate JustTimedOut(s: State, s': State, i: nat) {
    && i in s.owner
    && s.owner[i] < |s.conns| && s.owner[i] < |s'.conns|
    && s'.conns[s.owner[i]] == s.conns[s.owner[i]] + [TimedOut]
  }

  /** One step finds slot `i` at the sweep position, and overdue. */
  predicate Hit(s: State, i: nat, now: int)
    requires |s.table| > 0
  {
    i < Limit(s) && i == Position(s.checkpos, Limit(s)) && Overdue(s, i, now)
  }

  /** What one step does to slot `i`. */
  lemma SweepStepEffect(s: State, now: int, i: nat, size: nat, foreign: set<int>)
    requires Inv(s, size, foreign) && i < |s.table|
    ensures
      var s' := SweepStep(s, now);
      && |s'.table| == |s.table|
      && s'.checkpos == Position(s.checkpos, Limit(s)) + 1
      && s'.table[i] == (if Hit(s, i, now) then s.table[i].(status := 0) else s.table[i])
      && (i in s.owner ==> if Hit(s, i, now) then JustTimedOut(s, s', i) else StillServes(s, s', i))
  {
    SweepStepShape(s, now, size, foreign);
  }

  lemma SweepStepEnded(s: State, now: int, c: nat, size: nat, foreign: set<int>)
    requires Inv(s, size, foreign) && c < |s.conns| && Ended(s.conns[c])
    ensures c < |SweepStep(s, now).conns| && SweepStep(s, now).conns[c] == s.conns[c]
  {
    SweepStepShape(s, now, size, foreign);
  }

  lemma InvBounds(s: State, size: nat, foreign: set<int>)
    requires Inv(s, size, foreign)
    ensures |s.table| > 1 && s.checkpos <= Limit(s)
    ensures forall i | i in s.owner :: i < Limit(s) && s.owner[i] < |s.conns|
  {
  }

  lemma CheckposIrrelevant(s: State, pos: nat, size: nat, foreign: set<int>)
    requires Inv(s, size, foreign) && pos <= Limit(s)
    ensures Inv(s.(checkpos := pos), size, foreign)
  {
  }

  lemma SweepStepInv(s: State, now: int, size: nat, foreign: set<int>)
    requires Inv(s, size, foreign)
    ensures Inv(SweepStep(s, now), size, foreign)
  {
    hide Inv, SweepStep;
    InvBounds(s, size, foreign);
    SweepStepShape(s, now, size, foreign);
    var p := Position(s.checkpos, Limit(s));
    if Overdue(s, p, now) {
      RetiredInv(s, p, TimedOut, size, foreign);
      CheckposIrrelevant(Retired(s, p, TimedOut), p + 1, size, foreign);
    } else {
      CheckposIrrelevant(s, p + 1, size, foreign);
    }
  }

  /** A step brings every other slot one closer and the examined one to the far end. */
  lemma DistanceStep(checkpos: nat, limit: nat, i: nat)
    requires checkpos <= limit && i < limit
    ensures
      var d := Distance(checkpos, limit, i);
      Distance(Position(checkpos, limit) + 1, limit, i) == if d == 0 then limit - 1 else d - 1
    ensures Distance(checkpos, limit, i) == 0 <==> i == Position(checkpos, limit)
  {
  }

  /** Slot `i` is a client slot, occupied, idle for TIMEOUT seconds or more, and within `width` of the sweep position. */
  predicate Due(s: State, now: int, width: nat, i: nat) {
    && i < |s.table| - 1
    && s.checkpos <= Limit(s)
    && Overdue(s, i, now)
    && Distance(s.checkpos, Limit(s), i) < width
  }

  lemma DueStep(s: State, now: int, width: nat, i: nat, size: nat, foreign: set<int>)
    requires Inv(s, size, foreign) && i < |s.table| && width > 0
    ensures
      var s1 := SweepStep(s, now);
      && Inv(s1, size, foreign) && |s1.table| == |s.table|
      && (Hit(s, i, now) ==> Due(s, now, width, i) && s1.table[i] == s.table[i].(status := 0))
      && (!Hit(s, i, now) ==> Due(s1, now, width - 1, i) == Due(s, now, width, i) && s1.table[i] == s.table[i])
      && (s1.table[i].status != 1 ==> !Due(s1, now, width - 1, i))
  {
    hide Inv, SweepStep, StillServes, JustTimedOut;
    InvBounds(s, size, foreign);
    SweepStepInv(s, now, size, foreign);
    SweepStepEffect(s, now, i, size, foreign);
    if i < Limit(s) {
      DistanceStep(s.checkpos, Limit(s), i);
    }
  }

  /**
   One sweep, exactly: slot `i` is closed if and only if it is due. Everything else of the
   slot is untouched; the listening slot is never due.
   */
  lemma {:induction false} SweepExact(s: State, now: int, width: nat, i: nat, size: nat, foreign: set<int>)
    requires Inv(s, size, foreign) && i < |s.table|
    ensures |s.table| > 1
    ensures Sweep(s, now, width).table[i] ==
            if Due(s, now, width, i) then s.table[i].(status := 0) else s.table[i]
    decreases width
  {
    hide Inv, SweepStep, Due, Hit;
    InvBounds(s, size, foreign);
    NotDueInZero(s, now, i);
    if width == 0 {
    } else {
      DueStep(s, now, width, i, size, foreign);
      SweepExact(SweepStep(s, now), now, width - 1, i, size, foreign);
    }
  }

  lemma NotDueInZero(s: State, now: int, i: nat)
    ensures !Due(s, now, 0, i)
  {
  }

  lemma {:induction false} SweepInv(s: State, now: int, width: nat, size: nat, foreign: set<int>)
    requires Inv(s, size, foreign)
    ensures |s.table| > 1 && Inv(Sweep(s, now, width), size, foreign)
    decreases width
  {
    hide Inv, SweepStep;
    InvBounds(s, size, foreign);
    if width == 0 {
    } else {
      SweepStepInv(s, now, size, foreign);
      SweepInv(SweepStep(s, now), now, width - 1, size, foreign);
    }
  }

  lemma StillServesTrans(s: State, s1: State, s': State, i: nat)
    requires StillServes(s, s1, i) && StillServes(s1, s', i)
    ensures StillServes(s, s', i)
  {
  }

  lemma StillServesSelf(s: State, i: nat)
    requires i in s.owner && s.owner[i] < |s.conns|
    ensures StillServes(s, s, i)
  {
  }

  lemma NotDueStep(s: State, now: int, width: nat, i: nat, size: nat, foreign: set<int>)
    requires Inv(s, size, foreign) && i in s.owner && width > 0 && !Due(s, now, width, i)
    ensures i < |s.table| && |SweepStep(s, now).table| == |s.table|
    ensures Inv(SweepStep(s, now), size, foreign)
    ensures StillServes(s, SweepStep(s, now), i) && i in SweepStep(s, now).owner
    ensures !Due(SweepStep(s, now), now, width - 1, i)
  {
    hide Inv, SweepStep, Due, Hit;
    InvBounds(s, size, foreign);
    DueStep(s, now, width, i, size, foreign);
    SweepStepEffect(s, now, i, size, foreign);
  }

  /** A connection that is not due stays, with its history. */
  lemma {:induction false} SweepKeeps(s: State, now: int, width: nat, i: nat, size: nat, foreign: set<int>)
    requires Inv(s, size, foreign) && i in s.owner && !Due(s, now, width, i)
    ensures |s.table| > 1
    ensures StillServes(s, Sweep(s, now, width), i)
    decreases width
  {
    hide Inv, SweepStep, Due, Hit, StillServes;
    InvBounds(s, size, foreign);
    if width == 0 {
      StillServesSelf(s, i);
    } else {
      var s1 := SweepStep(s, now);
      NotDueStep(s, now, width, i, size, foreign);
      SweepKeeps(s1, now, width - 1, i, size, foreign);
      StillServesTrans(s, s1, Sweep(s, now, width), i);
    }
  }

  lemma CheckposStep(s: State, now: int)
    requires |s.table| > 1
    ensures SweepStep(s, now).checkpos == Position(s.checkpos, |s.table| - 1) + 1
    ensures |SweepStep(s, now).table| == |s.table|
  {
  }

  /** A sweep that does not reach slot `i` comes `width` closer to it. */
  lemma {:induction false} SweepApproaches(s: State, now: int, width: nat, i: nat)
    requires |s.table| > 1 && i < |s.table| - 1 && s.checkpos <= |s.table| - 1
    ensures Sweep(s, now, width).checkpos <= |s.table| - 1
    ensures
      var d := Distance(s.checkpos, |s.table| - 1, i);
      d >= width ==> Distance(Sweep(s, now, width).checkpos, |s.table| - 1, i) == d - width
    decreases width
  {
    hide SweepStep;
    if width == 0 {
    } else {
      CheckposStep(s, now);
      DistanceStep(s.checkpos, |s.table| - 1, i);
      SweepApproaches(SweepStep(s, now), now, width - 1, i);
    }
  }

  lemma ServedThenTimedOut(s: State, s1: State, s': State, i: nat)
    requires StillServes(s, s1, i) && JustTimedOut(s1, s', i)
    ensures JustTimedOut(s, s', i)
  {
  }

  lemma TimedOutThenLeft(s: State, s1: State, s': State, i: nat)
    requires JustTimedOut(s, s1, i)
    requires s.owner[i] < |s'.conns| && s'.conns[s.owner[i]] == s1.conns[s.owner[i]]
    ensures JustTimedOut(s, s', i)
  {
  }

  lemma EndedByTimeout(s: State, s': State, i: nat)
    requires JustTimedOut(s, s', i)
    ensures Ended(s'.conns[s.owner[i]])
  {
  }

  /** A step that looks at another slot brings the overdue slot `i` one closer. */
  lemma StepApproaches(s: State, now: int, i: nat, size: nat, foreign: set<int>)
    requires Inv(s, size, foreign) && i in s.owner
    ensures i < Limit(s) && s.checkpos <= Limit(s)
    ensures
      var s' := SweepStep(s, now);
      Overdue(s, i, now) && Distance(s.checkpos, Limit(s), i) > 0 ==>
        && Inv(s', size, foreign)
        && StillServes(s, s', i)
        && Limit(s') == Limit(s) && s'.checkpos <= Limit(s)
        && Overdue(s', i, now)
        && Distance(s'.checkpos, Limit(s), i) == Distance(s.checkpos, Limit(s), i) - 1
  {
    hide Inv, SweepStep;
    InvBounds(s, size, foreign);
    SweepStepInv(s, now, size, foreign);
    SweepStepEffect(s, now, i, size, foreign);
    DistanceStep(s.checkpos, Limit(s), i);
  }

  /** A step that looks at the overdue slot `i` ends its connection. */
  lemma StepCloses(s: State, now: int, i: nat, size: nat, foreign: set<int>)
    requires Inv(s, size, foreign) && i in s.owner
    ensures i < Limit(s) && s.checkpos <= Limit(s)
    ensures
      Overdue(s, i, now) && Distance(s.checkpos, Limit(s), i) == 0 ==>
        && JustTimedOut(s, SweepStep(s, now), i)
        && s.owner[i] < |SweepStep(s, now).conns|
        && Ended(SweepStep(s, now).conns[s.owner[i]])
        && Inv(SweepStep(s, now), size, foreign)
  {
    hide Inv, SweepStep;
    InvBounds(s, size, foreign);
    SweepStepInv(s, now, size, foreign);
    SweepStepEffect(s, now, i, size, foreign);
    DistanceStep(s.checkpos, Limit(s), i);
    if Overdue(s, i, now) && Distance(s.checkpos, Limit(s), i) == 0 {
      EndedByTimeout(s, SweepStep(s, now), i);
    }
  }

  /** An overdue connection within reach is timed out by this sweep. */
  lemma {:induction false} SweepCloses(s: State, now: int, width: nat, i: nat, size: nat, foreign: set<int>)
    requires Inv(s, size, foreign) && i in s.owner
    requires i < |s.table| - 1 && s.checkpos <= |s.table| - 1
    requires Overdue(s, i, now) && Distance(s.checkpos, |s.table| - 1, i) < width
    ensures JustTimedOut(s, Sweep(s, now, width), i)
    decreases width
  {
    hide Inv, SweepStep, Ended, JustTimedOut, Overdue, Distance;
    var s1 := SweepStep(s, now);
    if Distance(s.checkpos, Limit(s), i) == 0 {
      StepCloses(s, now, i, size, foreign);
      SweepLeavesEnded(s1, now, width - 1, s.owner[i], size, foreign);
      TimedOutThenLeft(s, s1, Sweep(s, now, width), i);
    } else {
      StepApproaches(s, now, i, size, foreign);
      SweepCloses(s1, now, width - 1, i, size, foreign);
      ServedThenTimedOut(s, s1, Sweep(s, now, width), i);
    }
  }

  lemma {:induction false} SweepLeavesEnded(s: State, now: int, width: nat, c: nat, size: nat, foreign: set<int>)
    requires Inv(s, size, foreign) && c < |s.conns| && Ended(s.conns[c])
    ensures |s.table| > 1 && c < |Sweep(s, now, width).conns| && Sweep(s, now, width).conns[c] == s.conns[c]
    decreases width
  {
    hide Inv, SweepStep;
    InvBounds(s, size, foreign);
    if width == 0 {
    } else {
      SweepStepEnded(s, now, c, size, foreign);
      SweepStepInv(s, now, size, foreign);
      SweepLeavesEnded(SweepStep(s, now), now, width - 1, c, size, foreign);
    }
  }

  /** The slots a sweep of `width` steps examines. */
  function Reach(checkpos: nat, limit: nat, width: nat): set<nat>
    requires checkpos <= limit
  {
    set i: nat | i < limit && Distance(checkpos, limit, i) < width :: i
  }

  /** The slot at distance `d`. */
  function AtDistance(checkpos: nat, limit: nat, d: nat): (i: nat)
    requires checkpos <= limit && d < limit
    ensures i < limit && Distance(checkpos, limit, i) == d
    ensures forall j: nat | j < limit && Distance(checkpos, limit, j) == d :: j == i
  {
    var p := Position(checkpos, limit);
    if p + d < limit then p + d else p + d - limit
  }

  lemma ReachNone(checkpos: nat, limit: nat)
    requires checkpos <= limit
    ensures Reach(checkpos, limit, 0) == {}
  {
  }

  /** One step more reaches the slot at that distance, and past the last slot none. */
  lemma ReachStep(checkpos: nat, limit: nat, width: nat)
    requires checkpos <= limit
    ensures width < limit ==>
              && AtDistance(checkpos, limit, width) !in Reach(checkpos, limit, width)
              && Reach(checkpos, limit, width + 1) == Reach(checkpos, limit, width) + {AtDistance(checkpos, limit, width)}
    ensures width >= limit ==> Reach(checkpos, limit, width + 1) == Reach(checkpos, limit, width)
  {
    hide Distance, AtDistance;
  }

  /** A sweep of at most `limit` steps examines that many different slots; a longer one, all. */
  lemma {:induction false} SweepBreadth(checkpos: nat, limit: nat, width: nat)
    requires checkpos <= limit
    ensures |Reach(checkpos, limit, width)| == if width <= limit then width else limit
    decreases width
  {
    hide Reach, Distance, AtDistance;
    if width == 0 {
      ReachNone(checkpos, limit);
    } else {
      SweepBreadth(checkpos, limit, width - 1);
      ReachStep(checkpos, limit, width - 1);
    }
  }
}
