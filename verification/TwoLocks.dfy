/**
 Two threads, two mutexes, taken in opposite orders. Every load, store, lock and unlock is a
 step of its own, and the threads' steps interleave in any way.
 */
module TwoLocks {

  datatype Who = Parent | Child

  datatype Holder = Free | By(who: Who)

  /**
   A thread: the next step and two registers. Both threads run the same program up to renaming:
     0 lock first; 1 r := first; 2 first := r + 1; 3 lock second; 4 r := second;
     5 second := r + 1; 6 t := first; 7 first := t + r; 8 unlock second; 9 unlock first; 10 done
   where `first` is a and `second` is b for the parent, the other way round for the child.
   */
  datatype Thread = Thread(pc: nat, r: int, t: int)

  const DONE: nat := 10

  datatype State = State(a: int, b: int, lockA: Holder, lockB: Holder, parent: Thread, child: Thread)

  function Start(a: int, b: int): State {
    State(a, b, Free, Free, Thread(0, 0, 0), Thread(0, 0, 0))
  }

  function Of(s: State, who: Who): Thread {
    if who.Parent? then s.parent else s.child
  }

  function FirstLock(s: State, who: Who): Holder {
    if who.Parent? then s.lockA else s.lockB
  }

  function SecondLock(s: State, who: Who): Holder {
    if who.Parent? then s.lockB else s.lockA
  }

  /** A thread can go on unless it is done or waits for a lock that is taken. */
  predicate Enabled(s: State, who: Who) {
    && Of(s, who).pc < DONE
    && (Of(s, who).pc == 0 ==> FirstLock(s, who).Free?)
    && (Of(s, who).pc == 3 ==> SecondLock(s, who).Free?)
  }

  /** What a thread and the two variables and locks it names are after its next step. */
  datatype View = View(first: int, second: int, lock1: Holder, lock2: Holder, me: Thread)

  function Program(v: View, who: Who): View {
    var next := v.me.(pc := v.me.pc + 1);
    match v.me.pc
    case 0 => v.(lock1 := By(who), me := next)
    case 1 => v.(me := next.(r := v.first))
    case 2 => v.(first := v.me.r + 1, me := next)
    case 3 => v.(lock2 := By(who), me := next)
    case 4 => v.(me := next.(r := v.second))
    case 5 => v.(second := v.me.r + 1, me := next)
    case 6 => v.(me := next.(t := v.first))
    case 7 => v.(first := v.me.t + v.me.r, me := next)
    case 8 => v.(lock2 := Free, me := next)
    case 9 => v.(lock1 := Free, me := next)
    case _ => v
  }

  function Step(s: State, who: Who): State {
    match who
    case Parent =>
      var v := Program(View(s.a, s.b, s.lockA, s.lockB, s.parent), Parent);
      State(v.first, v.second, v.lock1, v.lock2, v.me, s.child)
    case Child =>
      var v := Program(View(s.b, s.a, s.lockB, s.lockA, s.child), Child);
      State(v.second, v.first, v.lock2, v.lock1, s.parent, v.me)
  }

  predicate LegalRun(s: State, schedule: seq<Who>)
    decreases |schedule|
  {
    schedule != [] ==> Enabled(s, schedule[0]) && LegalRun(Step(s, schedule[0]), schedule[1..])
  }

  function Exec(s: State, schedule: seq<Who>): State
    decreases |schedule|
  {
    if schedule == [] then s else Exec(Step(s, schedule[0]), schedule[1..])
  }

  // ---- the serial meaning ----

  /** All of the parent, run alone: `++a; a += b++`. */
  function ParentAlone(a: int, b: int): (int, int) {
    (a + 1 + b, b + 1)
  }

  /** All of the child, run alone: `++b; b += a++`. */
  function ChildAlone(a: int, b: int): (int, int) {
    (a + 1, b + 1 + a)
  }

  /** A thread that runs alone from values f0 and s0 of its variables is at these values. */
  predicate Alone(me: Thread, f: int, s: int, f0: int, s0: int) {
    && me.pc <= DONE
    && (me.pc <= 2 ==> f == f0 && s == s0)
    && (me.pc == 2 ==> me.r == f0)
    && (3 <= me.pc <= 5 ==> f == f0 + 1 && s == s0)
    && (me.pc == 5 ==> me.r == s0)
    && (6 <= me.pc <= 7 ==> f == f0 + 1 && s == s0 + 1 && me.r == s0)
    && (me.pc == 7 ==> me.t == f0 + 1)
    && (8 <= me.pc ==> f == f0 + 1 + s0 && s == s0 + 1)
  }

  /** Locks follow the program counters. */
  predicate Locks(s: State) {
    && s.lockA == (if 1 <= s.parent.pc <= 9 then By(Parent) else if 4 <= s.child.pc <= 8 then By(Child) else Free)
    && s.lockB == (if 1 <= s.child.pc <= 9 then By(Child) else if 4 <= s.parent.pc <= 8 then By(Parent) else Free)
    && !(1 <= s.parent.pc <= 9 && 4 <= s.child.pc <= 8)
    && !(1 <= s.child.pc <= 9 && 4 <= s.parent.pc <= 8)
  }

  /** Neither thread has had its second lock: each is alone with its first variable. */
  predicate Apart(s: State, a0: int, b0: int) {
    && s.parent.pc <= 3 && s.child.pc <= 3
    && Alone(s.parent, s.a, s.b, a0, s.b) && Alone(s.child, s.b, s.a, b0, s.a)
  }

  /** The parent had its second lock first; the child is no further than its own first section. */
  predicate ParentLeads(s: State, a0: int, b0: int) {
    && 4 <= s.parent.pc <= DONE && s.child.pc <= 3
    && (s.parent.pc <= 8 ==> s.child.pc == 0 && Alone(s.parent, s.a, s.b, a0, b0))
    && (s.parent.pc >= 9 ==>
          var (a1, b1) := ParentAlone(a0, b0); Alone(s.child, s.b, s.a, b1, a1))
  }

  predicate ChildLeads(s: State, a0: int, b0: int) {
    && 4 <= s.child.pc <= DONE && s.parent.pc <= 3
    && (s.child.pc <= 8 ==> s.parent.pc == 0 && Alone(s.child, s.b, s.a, b0, a0))
    && (s.child.pc >= 9 ==>
          var (a1, b1) := ChildAlone(a0, b0); Alone(s.parent, s.a, s.b, a1, b1))
  }

  /** The parent is done and the child has gone on from where it left. */
  predicate ChildFollows(s: State, a0: int, b0: int) {
    && s.parent.pc == DONE && s.child.pc >= 4
    && var (a1, b1) := ParentAlone(a0, b0); Alone(s.child, s.b, s.a, b1, a1)
  }

  predicate ParentFollows(s: State, a0: int, b0: int) {
    && s.child.pc == DONE && s.parent.pc >= 4
    && var (a1, b1) := ChildAlone(a0, b0); Alone(s.parent, s.a, s.b, a1, b1)
  }

  predicate Inv(s: State, a0: int, b0: int) {
    && Locks(s)
    && (Apart(s, a0, b0) || ParentLeads(s, a0, b0) || ChildLeads(s, a0, b0)
        || ChildFollows(s, a0, b0) || ParentFollows(s, a0, b0))
  }

  lemma StepApart(s: State, who: Who, a0: int, b0: int)
    requires Locks(s) && Apart(s, a0, b0) && Enabled(s, who)
    ensures Inv(Step(s, who), a0, b0)
  {
  }

  lemma StepParentLeads(s: State, who: Who, a0: int, b0: int)
    requires Locks(s) && ParentLeads(s, a0, b0) && Enabled(s, who)
    ensures Inv(Step(s, who), a0, b0)
  {
  }

  lemma StepChildLeads(s: State, who: Who, a0: int, b0: int)
    requires Locks(s) && ChildLeads(s, a0, b0) && Enabled(s, who)
    ensures Inv(Step(s, who), a0, b0)
  {
  }

  lemma StepFollows(s: State, who: Who, a0: int, b0: int)
    requires Locks(s) && (ChildFollows(s, a0, b0) || ParentFollows(s, a0, b0)) && Enabled(s, who)
    ensures Inv(Step(s, who), a0, b0)
  {
  }

  lemma StepInv(s: State, who: Who, a0: int, b0: int)
    requires Inv(s, a0, b0) && Enabled(s, who)
    ensures Inv(Step(s, who), a0, b0)
  {
    if Apart(s, a0, b0) {
      StepApart(s, who, a0, b0);
    } else if ParentLeads(s, a0, b0) {
      StepParentLeads(s, who, a0, b0);
    } else if ChildLeads(s, a0, b0) {
      StepChildLeads(s, who, a0, b0);
    } else {
      StepFollows(s, who, a0, b0);
    }
  }

  lemma {:induction false} ExecInv(s: State, schedule: seq<Who>, a0: int, b0: int)
    requires Inv(s, a0, b0) && LegalRun(s, schedule)
    ensures Inv(Exec(s, schedule), a0, b0)
    decreases |schedule|
  {
    if schedule == [] {
    } else {
      StepInv(s, schedule[0], a0, b0);
      ExecInv(Step(s, schedule[0]), schedule[1..], a0, b0);
    }
  }

  predicate Finished(s: State) { s.parent.pc == DONE && s.child.pc == DONE }

  /** The circular wait: the parent holds a and waits for b, the child holds b and waits for a. */
  predicate CircularWait(s: State) {
    && s.lockA == By(Parent) && s.lockB == By(Child)
    && s.parent.pc == 3 && s.child.pc == 3
  }

  /** Deadlock, exactly: on every schedule, nothing can go on if and only if both are done or wait for each other. */
  lemma StuckExactly(a0: int, b0: int, schedule: seq<Who>)
    requires LegalRun(Start(a0, b0), schedule)
    ensures
      var s := Exec(Start(a0, b0), schedule);
      !Enabled(s, Parent) && !Enabled(s, Child) <==> Finished(s) || CircularWait(s)
  {
    ExecInv(Start(a0, b0), schedule, a0, b0);
  }

  /** Serializability: on every schedule that finishes, the result is that of one of the two serial orders. */
  lemma Serializable(a0: int, b0: int, schedule: seq<Who>)
    requires LegalRun(Start(a0, b0), schedule)
    ensures
      var s := Exec(Start(a0, b0), schedule);
      var (a1, b1) := ParentAlone(a0, b0);
      var (a2, b2) := ChildAlone(a0, b0);
      Finished(s) ==> (s.a, s.b) == ChildAlone(a1, b1) || (s.a, s.b) == ParentAlone(a2, b2)
  {
    ExecInv(Start(a0, b0), schedule, a0, b0);
  }

  /** Both have their first lock and neither its second. */
  predicate Committed(s: State) {
    1 <= s.parent.pc <= 3 && 1 <= s.child.pc <= 3
  }

  /** Once both threads have their first lock, no schedule finishes. */
  lemma {:induction false} NoWayBack(s: State, schedule: seq<Who>)
    requires Locks(s) && Committed(s) && LegalRun(s, schedule)
    ensures Committed(Exec(s, schedule)) && !Finished(Exec(s, schedule))
    decreases |schedule|
  {
    if schedule == [] {
    } else {
      NoWayBack(Step(s, schedule[0]), schedule[1..]);
    }
  }

  /** Every schedule ends: a run of n steps has moved the two program counters by n. */
  lemma {:induction false} StepsCount(s: State, schedule: seq<Who>)
    requires LegalRun(s, schedule) && s.parent.pc <= DONE && s.child.pc <= DONE
    ensures Exec(s, schedule).parent.pc + Exec(s, schedule).child.pc == s.parent.pc + s.child.pc + |schedule|
    ensures Exec(s, schedule).parent.pc <= DONE && Exec(s, schedule).child.pc <= DONE
    decreases |schedule|
  {
    if schedule == [] {
    } else {
      StepsCount(Step(s, schedule[0]), schedule[1..]);
    }
  }

  /**
   Which runs deadlock: one that cannot go on has finished, in exactly 20 steps, if and only
   if at no point of it both threads had their first lock and neither its second.
   */
  lemma DeadlockExactly(a0: int, b0: int, schedule: seq<Who>)
    requires LegalRun(Start(a0, b0), schedule)
    requires !Enabled(Exec(Start(a0, b0), schedule), Parent) && !Enabled(Exec(Start(a0, b0), schedule), Child)
    ensures Finished(Exec(Start(a0, b0), schedule))
            <==> forall j | 0 <= j <= |schedule| :: !Committed(Exec(Start(a0, b0), schedule[..j]))
    ensures Finished(Exec(Start(a0, b0), schedule)) ==> |schedule| == 20
  {
    var s0 := Start(a0, b0);
    StuckExactly(a0, b0, schedule);
    StepsCount(s0, schedule);
    if Finished(Exec(s0, schedule)) {
      forall j | 0 <= j <= |schedule| ensures !Committed(Exec(s0, schedule[..j])) {
        Split(s0, schedule, j);
        if Committed(Exec(s0, schedule[..j])) {
          ExecInv(s0, schedule[..j], a0, b0);
          NoWayBack(Exec(s0, schedule[..j]), schedule[j..]);
          assert false;
        }
      }
    } else {
      assert schedule[..|schedule|] == schedule;
      assert Committed(Exec(s0, schedule[..|schedule|]));
    }
  }

  lemma {:induction false} Split(s: State, schedule: seq<Who>, j: nat)
    requires LegalRun(s, schedule) && j <= |schedule|
    ensures LegalRun(s, schedule[..j]) && LegalRun(Exec(s, schedule[..j]), schedule[j..])
    ensures Exec(s, schedule) == Exec(Exec(s, schedule[..j]), schedule[j..])
    decreases j
  {
    if j == 0 {
    } else {
      assert schedule[..j][1..] == schedule[1..][..j - 1] && schedule[1..][j - 1..] == schedule[j..];
      Split(Step(s, schedule[0]), schedule[1..], j - 1);
    }
  }

  // ---- the program ----

  /** The two globals, the two mutexes and the two threads, changed in place. */
  class Process {
    var a: int
    var b: int
    var lockA: Holder
    var lockB: Holder
    var parent: Thread
    var child: Thread

    function Abs(): State
      reads this
    {
      State(a, b, lockA, lockB, parent, child)
    }

    constructor (a0: int, b0: int)
      ensures Abs() == Start(a0, b0)
    {
      a, b, lockA, lockB := a0, b0, Free, Free;
      parent, child := Thread(0, 0, 0), Thread(0, 0, 0);
    }

    /** The next step of `main`. */
    method ParentStep()
      requires Enabled(Abs(), Parent)
      modifies this
      ensures Abs() == Step(old(Abs()), Parent)
    {
      var pc := parent.pc;
      if pc == 0 {
        lockA := By(Parent);
      } else if pc == 1 {
        parent := parent.(r := a);
      } else if pc == 2 {
        a := parent.r + 1;
      } else if pc == 3 {
        lockB := By(Parent);
      } else if pc == 4 {
        parent := parent.(r := b);
      } else if pc == 5 {
        b := parent.r + 1;
      } else if pc == 6 {
        parent := parent.(t := a);
      } else if pc == 7 {
        a := parent.t + parent.r;
      } else if pc == 8 {
        lockB := Free;
      } else {
        lockA := Free;
      }
      parent := parent.(pc := pc + 1);
    }

    /** The next step of `another`. */
    method ChildStep()
      requires Enabled(Abs(), Child)
      modifies this
      ensures Abs() == Step(old(Abs()), Child)
    {
      var pc := child.pc;
      if pc == 0 {
        lockB := By(Child);
      } else if pc == 1 {
        child := child.(r := b);
      } else if pc == 2 {
        b := child.r + 1;
      } else if pc == 3 {
        lockA := By(Child);
      } else if pc == 4 {
        child := child.(r := a);
      } else if pc == 5 {
        a := child.r + 1;
      } else if pc == 6 {
        child := child.(t := b);
      } else if pc == 7 {
        b := child.t + child.r;
      } else if pc == 8 {
        lockA := Free;
      } else {
        lockB := Free;
      }
      child := child.(pc := pc + 1);
    }

    /** Any schedule of the two. */
    method Run(schedule: seq<Who>)
      requires LegalRun(Abs(), schedule)
      modifies this
      ensures Abs() == Exec(old(Abs()), schedule)
    {
      assert schedule[0..] == schedule;
      for i := 0 to |schedule|
        invariant LegalRun(Abs(), schedule[i..])
        invariant Exec(Abs(), schedule[i..]) == Exec(old(Abs()), schedule)
      {
        assert schedule[i..][0] == schedule[i] && schedule[i..][1..] == schedule[i + 1..];
        if schedule[i].Parent? {
          ParentStep();
        } else {
          ChildStep();
        }
      }
    }
  }
}
