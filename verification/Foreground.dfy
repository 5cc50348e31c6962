/** The count of foreground work (`foreground.rs`), which threads raise, lower and set aside
    while others wait for it to fall to nothing, as their interleaved steps. */
module Foreground {
  import opened Wrappers

  /** Where a thread is. */
  datatype Phase =
    | Free
    | Raised       // begin: counted, not yet its own
    | Dropping     // drop: no longer its own, still counted
    | Waking       // wake: for the lock
    | Notifying    // wake: holding it
    | Entering     // wait: for the lock
    | Looking      // wait: holding it
    | Asking       // wait: work was running
    | Parking      // wait: and it was not enough
    | Parked

  /** A thread: the work it runs, and what it set aside, the last last. */
  datatype Thread = Thread(own: nat, asides: seq<nat>, phase: Phase)

  /** The count wraps below nothing in the program; here it is negative instead. */
  datatype State = State(threads: seq<Thread>, count: int, lock: Option<nat>, enough: bool)

  datatype Step =
    | Raise(t: nat)
    | Own(t: nat)
    | Drop(t: nat)
    | Lower(t: nat)
    | Aside(t: nat)
    | Back(t: nat)
    | Tell(t: nat)
    | Held(t: nat)
    | Notify(t: nat)
    | Wait(t: nat)
    | Enter(t: nat)
    | Look(t: nat)
    | Ask(t: nat)
    | Panic(t: nat)
    | Park(t: nat)
    | GiveUp(t: nat)
    | Unpark(t: nat)

  // ---------------------------------------------------------------- the steps

  predicate Is(s: State, t: nat, phase: Phase) {
    t < |s.threads| && s.threads[t].phase == phase
  }

  function Put(s: State, t: nat, thread: Thread): State
    requires t < |s.threads|
  {
    s.(threads := s.threads[t := thread])
  }

  /** `running`: a count below nothing is one far above it. */
  predicate Running(s: State) {
    s.count != 0
  }

  function Unparked(threads: seq<Thread>): (r: seq<Thread>)
    ensures |r| == |threads|
    ensures forall i :: 0 <= i < |threads| ==>
      r[i] == if threads[i].phase == Parked then threads[i].(phase := Entering) else threads[i]
  {
    seq(|threads|, i requires 0 <= i < |threads| =>
      if threads[i].phase == Parked then threads[i].(phase := Entering) else threads[i])
  }

  predicate CanRaise(s: State, t: nat) {
    Is(s, t, Free)
  }

  /** `begin`, first the count. */
  function RaiseStep(s: State, t: nat): State
    requires CanRaise(s, t)
  {
    Put(s, t, s.threads[t].(phase := Raised)).(count := s.count + 1)
  }

  predicate CanOwn(s: State, t: nat) {
    Is(s, t, Raised)
  }

  /** `begin`, then the thread's own. */
  function OwnStep(s: State, t: nat): State
    requires CanOwn(s, t)
  {
    Put(s, t, s.threads[t].(phase := Free, own := s.threads[t].own + 1))
  }

  predicate CanDrop(s: State, t: nat) {
    Is(s, t, Free) && s.threads[t].own > 0
  }

  /** A guard is dropped, first from the thread's own. */
  function DropStep(s: State, t: nat): State
    requires CanDrop(s, t)
  {
    Put(s, t, s.threads[t].(phase := Dropping, own := s.threads[t].own - 1))
  }

  predicate CanLower(s: State, t: nat) {
    Is(s, t, Dropping)
  }

  /** `lower`: the last work wakes the waiting. */
  function LowerStep(s: State, t: nat): State
    requires CanLower(s, t)
  {
    Put(s, t, s.threads[t].(phase := if s.count == 1 then Waking else Free)).(count := s.count - 1)
  }

  predicate CanAside(s: State, t: nat) {
    Is(s, t, Free)
  }

  /** `aside`; a thread without work only waits. */
  function AsideStep(s: State, t: nat): State
    requires CanAside(s, t)
  {
    var own := s.threads[t].own;
    if own == 0 then s
    else
      var phase := if s.count == own then Waking else Free;
      Put(s, t, s.threads[t].(phase := phase, asides := s.threads[t].asides + [own])).(count := s.count - own)
  }

  predicate CanBack(s: State, t: nat) {
    Is(s, t, Free) && s.threads[t].asides != []
  }

  /** The end of `aside`, of what it ran or of its unwinding. */
  function BackStep(s: State, t: nat): State
    requires CanBack(s, t)
  {
    var asides := s.threads[t].asides;
    Put(s, t, s.threads[t].(asides := asides[..|asides| - 1])).(count := s.count + asides[|asides| - 1])
  }

  predicate CanTell(s: State, t: nat) {
    Is(s, t, Free)
  }

  /** What the waiting ask about comes true, and they are woken. */
  function TellStep(s: State, t: nat): State
    requires CanTell(s, t)
  {
    Put(s, t, s.threads[t].(phase := Waking)).(enough := true)
  }

  predicate CanHeld(s: State, t: nat) {
    Is(s, t, Waking) && s.lock == None
  }

  function HeldStep(s: State, t: nat): State
    requires CanHeld(s, t)
  {
    Put(s, t, s.threads[t].(phase := Notifying)).(lock := Some(t))
  }

  predicate CanNotify(s: State, t: nat) {
    Is(s, t, Notifying)
  }

  /** `notify_all`: every parked thread is to look again. */
  function NotifyStep(s: State, t: nat): State
    requires CanNotify(s, t)
  {
    Put(s.(threads := Unparked(s.threads)), t, s.threads[t].(phase := Free)).(lock := None)
  }

  predicate CanWait(s: State, t: nat) {
    Is(s, t, Free)
  }

  function WaitStep(s: State, t: nat): State
    requires CanWait(s, t)
  {
    Put(s, t, s.threads[t].(phase := Entering))
  }

  predicate CanEnter(s: State, t: nat) {
    Is(s, t, Entering) && s.lock == None
  }

  function EnterStep(s: State, t: nat): State
    requires CanEnter(s, t)
  {
    Put(s, t, s.threads[t].(phase := Looking)).(lock := Some(t))
  }

  predicate CanLook(s: State, t: nat) {
    Is(s, t, Looking)
  }

  /** The waiting thread reads the count under the lock. */
  function LookStep(s: State, t: nat): State
    requires CanLook(s, t)
  {
    if Running(s) then Put(s, t, s.threads[t].(phase := Asking))
    else Put(s, t, s.threads[t].(phase := Free)).(lock := None)
  }

  predicate CanAsk(s: State, t: nat) {
    Is(s, t, Asking)
  }

  function AskStep(s: State, t: nat): State
    requires CanAsk(s, t)
  {
    if s.enough then Put(s, t, s.threads[t].(phase := Free)).(lock := None)
    else Put(s, t, s.threads[t].(phase := Parking))
  }

  predicate CanPanic(s: State, t: nat) {
    Is(s, t, Asking)
  }

  /** What the waiting thread asks panics: the lock is freed as the thread unwinds. */
  function PanicStep(s: State, t: nat): State
    requires CanPanic(s, t)
  {
    Put(s, t, s.threads[t].(phase := Free)).(lock := None)
  }

  predicate CanPark(s: State, t: nat) {
    Is(s, t, Parking)
  }

  /** The wait frees the lock as it parks the thread. */
  function ParkStep(s: State, t: nat): State
    requires CanPark(s, t)
  {
    Put(s, t, s.threads[t].(phase := Parked)).(lock := None)
  }

  predicate CanGiveUp(s: State, t: nat) {
    Is(s, t, Parking)
  }

  /** Its patience ran out before it parked. */
  function GiveUpStep(s: State, t: nat): State
    requires CanGiveUp(s, t)
  {
    Put(s, t, s.threads[t].(phase := Free)).(lock := None)
  }

  predicate CanUnpark(s: State, t: nat) {
    Is(s, t, Parked)
  }

  /** A time-out, or no reason at all. */
  function UnparkStep(s: State, t: nat): State
    requires CanUnpark(s, t)
  {
    Put(s, t, s.threads[t].(phase := Entering))
  }

  predicate Next(s: State, step: Step, s': State) {
    match step
    case Raise(t) => CanRaise(s, t) && s' == RaiseStep(s, t)
    case Own(t) => CanOwn(s, t) && s' == OwnStep(s, t)
    case Drop(t) => CanDrop(s, t) && s' == DropStep(s, t)
    case Lower(t) => CanLower(s, t) && s' == LowerStep(s, t)
    case Aside(t) => CanAside(s, t) && s' == AsideStep(s, t)
    case Back(t) => CanBack(s, t) && s' == BackStep(s, t)
    case Tell(t) => CanTell(s, t) && s' == TellStep(s, t)
    case Held(t) => CanHeld(s, t) && s' == HeldStep(s, t)
    case Notify(t) => CanNotify(s, t) && s' == NotifyStep(s, t)
    case Wait(t) => CanWait(s, t) && s' == WaitStep(s, t)
    case Enter(t) => CanEnter(s, t) && s' == EnterStep(s, t)
    case Look(t) => CanLook(s, t) && s' == LookStep(s, t)
    case Ask(t) => CanAsk(s, t) && s' == AskStep(s, t)
    case Panic(t) => CanPanic(s, t) && s' == PanicStep(s, t)
    case Park(t) => CanPark(s, t) && s' == ParkStep(s, t)
    case GiveUp(t) => CanGiveUp(s, t) && s' == GiveUpStep(s, t)
    case Unpark(t) => CanUnpark(s, t) && s' == UnparkStep(s, t)
  }

  predicate Initial(s: State) {
    && s.count == 0 && s.lock == None && !s.enough
    && forall i :: 0 <= i < |s.threads| ==> s.threads[i] == Thread(0, [], Free)
  }

  predicate IsRun(run: seq<State>, steps: seq<Step>) {
    && |run| == |steps| + 1 && Initial(run[0])
    && forall i :: 0 <= i < |steps| ==> Next(run[i], steps[i], run[i + 1])
  }

  // ---------------------------------------------------------------- the count

  function Sum(a: seq<nat>): nat {
    if a == [] then 0 else Sum(a[..|a| - 1]) + a[|a| - 1]
  }

  /** The work of a thread that counts: its own, without what it set aside. */
  function Work(t: Thread): int {
    t.own - Sum(t.asides) + (if t.phase == Raised || t.phase == Dropping then 1 else 0)
  }

  function Total(threads: seq<Thread>): int {
    if threads == [] then 0 else Total(threads[..|threads| - 1]) + Work(threads[|threads| - 1])
  }

  lemma {:induction false} TotalPut(threads: seq<Thread>, t: nat, thread: Thread)
    requires t < |threads|
    ensures Total(threads[t := thread]) == Total(threads) - Work(threads[t]) + Work(thread)
    decreases |threads|
  {
    hide Work;
    var (n, r) := (|threads| - 1, threads[t := thread]);
    if t == n {
      assert r[..n] == threads[..n];
    } else {
      assert r[..n] == threads[..n][t := thread];
      TotalPut(threads[..n], t, thread);
    }
  }

  lemma {:induction false} TotalUnparked(threads: seq<Thread>)
    ensures Total(Unparked(threads)) == Total(threads)
    decreases |threads|
  {
    if threads != [] {
      var n := |threads| - 1;
      TotalUnparked(threads[..n]);
      assert Unparked(threads)[..n] == Unparked(threads[..n]);
    }
  }

  lemma SumMore(a: seq<nat>, n: nat)
    ensures Sum(a + [n]) == Sum(a) + n
  {
    assert (a + [n])[..|a|] == a;
  }

  /** Every step changes the count as it changes the thread's work. */
  lemma StepCounts(s: State, step: Step, s': State)
    requires s.count == Total(s.threads) && Next(s, step, s')
    ensures s'.count == Total(s'.threads)
  {
    hide Total;
    var t := step.t;
    if step.Notify? {
      var threads := Unparked(s.threads);
      TotalUnparked(s.threads);
      TotalPut(threads, t, s'.threads[t]);
    } else {
      TotalPut(s.threads, t, s'.threads[t]);
      assert s'.threads == s.threads[t := s'.threads[t]];
      if step.Aside? {
        SumMore(s.threads[t].asides, s.threads[t].own);
      }
    }
  }

  /** In every run the count is all threads' work that is not set aside. */
  lemma {:induction false} CountIsWork(run: seq<State>, steps: seq<Step>, i: nat)
    requires IsRun(run, steps) && i < |run|
    ensures run[i].count == Total(run[i].threads)
    decreases i
  {
    hide Next, Total;
    if i == 0 {
      NoWork(run[0].threads);
    } else {
      CountIsWork(run, steps, i - 1);
      StepCounts(run[i - 1], steps[i - 1], run[i]);
    }
  }

  lemma {:induction false} NoWork(threads: seq<Thread>)
    requires forall i :: 0 <= i < |threads| ==> threads[i] == Thread(0, [], Free)
    ensures Total(threads) == 0
    decreases |threads|
  {
    if threads != [] {
      NoWork(threads[..|threads| - 1]);
    }
  }

  // ---------------------------------------------------------------- work that counts below nothing

  /** A thread sets work aside within an aside, or ends, within an aside, more work than it had
      begun there. */
  predicate Overdraws(s: State, step: Step) {
    && step.t < |s.threads|
    && var thread := s.threads[step.t];
       || (step.Aside? && thread.own > 0 && Sum(thread.asides) > 0)
       || (step.Drop? && thread.own <= Sum(thread.asides))
  }

  /** No step before state `i` is one of those. */
  ghost predicate Plain(run: seq<State>, steps: seq<Step>, i: nat) {
    forall k :: 0 <= k < i && k < |steps| && k < |run| ==> !Overdraws(run[k], steps[k])
  }

  predicate HoldsLock(p: Phase) {
    p == Looking || p == Asking || p == Parking || p == Notifying
  }

  /** A thread is about to wake the parked. */
  ghost predicate WakePending(s: State) {
    exists u :: 0 <= u < |s.threads| && (s.threads[u].phase == Waking || s.threads[u].phase == Notifying)
  }

  ghost predicate ThreadOk(s: State, t: nat)
    requires t < |s.threads|
  {
    var p := s.threads[t].phase;
    && Sum(s.threads[t].asides) <= s.threads[t].own
    && (HoldsLock(p) <==> s.lock == Some(t))
    && ((p == Asking || p == Parking || p == Parked) && !Running(s) ==> WakePending(s))
    && ((p == Parking || p == Parked) && s.enough ==> WakePending(s))
  }

  ghost predicate Inv(s: State) {
    && s.count == Total(s.threads)
    && forall t {:trigger ThreadOk(s, t)} :: 0 <= t < |s.threads| ==> ThreadOk(s, t)
  }

  lemma {:induction false} TotalPositive(threads: seq<Thread>, t: nat)
    requires t < |threads| && forall i :: 0 <= i < |threads| ==> Work(threads[i]) >= 0
    ensures Total(threads) >= Work(threads[t])
    decreases |threads|
  {
    var n := |threads| - 1;
    if t < n {
      TotalPositive(threads[..n], t);
    } else if n > 0 {
      TotalPositive(threads[..n], 0);
    }
  }

  lemma CountPositive(s: State)
    requires Inv(s)
    ensures s.count >= 0
  {
    hide Total;
    forall u | 0 <= u < |s.threads| ensures Work(s.threads[u]) >= 0 {
      assert ThreadOk(s, u);
    }
    if s.threads == [] {
      NoWork([]);
    } else {
      TotalPositive(s.threads, 0);
    }
  }

  /** A wake that is pending stays so until its thread notifies. */
  lemma Pending(s: State, s': State, t: nat)
    requires t < |s.threads| == |s'.threads|
    requires forall u :: 0 <= u < |s.threads| && u != t && s.threads[u].phase == Waking ==>
               s'.threads[u].phase == Waking
    requires forall u :: 0 <= u < |s.threads| && u != t && s.threads[u].phase == Notifying ==>
               s'.threads[u].phase == Notifying
    ensures WakePending(s) ==>
      WakePending(s') || s.threads[t].phase == Waking || s.threads[t].phase == Notifying
    ensures s'.threads[t].phase == Waking || s'.threads[t].phase == Notifying ==> WakePending(s')
  {
    if WakePending(s) {
      var u :| 0 <= u < |s.threads| && (s.threads[u].phase == Waking || s.threads[u].phase == Notifying);
      assert u != t ==> s'.threads[u].phase == s.threads[u].phase;
    }
  }

  /** Work begins and ends. */
  lemma WorkKeeps(s: State, step: Step, s': State)
    requires Inv(s) && Next(s, step, s') && !Overdraws(s, step)
    requires step.Raise? || step.Own? || step.Drop? || step.Lower?
    ensures Inv(s')
  {
    hide Total;
    StepCounts(s, step, s');
    assert ThreadOk(s, step.t);
    CountPositive(s);
    forall u | 0 <= u < |s'.threads| ensures ThreadOk(s', u) {
      assert ThreadOk(s, u);
      Pending(s, s', step.t);
    }
  }

  /** Work is set aside and counted again. */
  lemma AsideKeeps(s: State, step: Step, s': State)
    requires Inv(s) && Next(s, step, s') && !Overdraws(s, step)
    requires step.Aside? || step.Back?
    ensures Inv(s')
  {
    hide Total, Sum;
    StepCounts(s, step, s');
    assert ThreadOk(s, step.t);
    CountPositive(s);
    SumsAside(s.threads[step.t].asides, s.threads[step.t].own);
    forall u | 0 <= u < |s'.threads| ensures ThreadOk(s', u) {
      assert ThreadOk(s, u);
      Pending(s, s', step.t);
    }
  }

  lemma SumsAside(a: seq<nat>, n: nat)
    ensures Sum(a + [n]) == Sum(a) + n
    ensures a != [] ==> Sum(a[..|a| - 1]) <= Sum(a)
  {
    SumMore(a, n);
  }

  /** The parked are woken. */
  lemma WakeKeeps(s: State, step: Step, s': State)
    requires Inv(s) && Next(s, step, s') && !Overdraws(s, step)
    requires step.Tell? || step.Held? || step.Notify?
    ensures Inv(s')
  {
    hide Total;
    StepCounts(s, step, s');
    assert ThreadOk(s, step.t);
    CountPositive(s);
    forall u | 0 <= u < |s'.threads| ensures ThreadOk(s', u) {
      assert ThreadOk(s, u);
      Pending(s, s', step.t);
    }
  }

  /** A thread comes to wait. */
  lemma ComeKeeps(s: State, step: Step, s': State)
    requires Inv(s) && Next(s, step, s') && !Overdraws(s, step)
    requires step.Wait? || step.Enter? || step.Unpark?
    ensures Inv(s')
  {
    hide Total;
    StepCounts(s, step, s');
    assert ThreadOk(s, step.t);
    CountPositive(s);
    forall u | 0 <= u < |s'.threads| ensures ThreadOk(s', u) {
      assert ThreadOk(s, u);
      Pending(s, s', step.t);
    }
  }

  /** A thread waits, or goes on. */
  lemma WaitKeeps(s: State, step: Step, s': State)
    requires Inv(s) && Next(s, step, s') && !Overdraws(s, step)
    requires step.Look? || step.Ask? || step.Panic? || step.Park? || step.GiveUp?
    ensures Inv(s')
  {
    hide Total;
    StepCounts(s, step, s');
    assert ThreadOk(s, step.t);
    CountPositive(s);
    forall u | 0 <= u < |s'.threads| ensures ThreadOk(s', u) {
      assert ThreadOk(s, u);
      Pending(s, s', step.t);
    }
  }

  lemma StepKeeps(s: State, step: Step, s': State)
    requires Inv(s) && Next(s, step, s') && !Overdraws(s, step)
    ensures Inv(s')
  {
    hide Inv, Next, Overdraws;
    if step.Raise? || step.Own? || step.Drop? || step.Lower? {
      WorkKeeps(s, step, s');
    } else if step.Aside? || step.Back? {
      AsideKeeps(s, step, s');
    } else if step.Tell? || step.Held? || step.Notify? {
      WakeKeeps(s, step, s');
    } else if step.Wait? || step.Enter? || step.Unpark? {
      ComeKeeps(s, step, s');
    } else {
      WaitKeeps(s, step, s');
    }
  }

  lemma {:induction false} RunKeeps(run: seq<State>, steps: seq<Step>, i: nat)
    requires IsRun(run, steps) && i < |run| && Plain(run, steps, i)
    ensures Inv(run[i])
    decreases i
  {
    hide Inv, Next, Overdraws;
    if i == 0 {
      InitialKeeps(run[0]);
    } else {
      RunKeeps(run, steps, i - 1);
      StepKeeps(run[i - 1], steps[i - 1], run[i]);
    }
  }

  lemma InitialKeeps(s: State)
    requires Initial(s)
    ensures Inv(s)
  {
    NoWork(s.threads);
    forall t | 0 <= t < |s.threads| ensures ThreadOk(s, t) {}
  }

  /** Until a thread overdraws, the count never falls below nothing, and covers each thread's
      work. */
  lemma NeverUnderflows(run: seq<State>, steps: seq<Step>, i: nat, t: nat)
    requires IsRun(run, steps) && i < |run| && Plain(run, steps, i) && t < |run[i].threads|
    ensures 0 <= Work(run[i].threads[t]) <= run[i].count
  {
    hide Total;
    RunKeeps(run, steps, i);
    var threads := run[i].threads;
    forall u | 0 <= u < |threads| ensures Work(threads[u]) >= 0 {
      assert ThreadOk(run[i], u);
    }
    TotalPositive(threads, t);
  }

  /** No wake-up is lost until a thread overdraws: while a thread is parked though nothing runs, or though it waited
      enough, one is about to wake it. */
  lemma NoLostWakeUp(run: seq<State>, steps: seq<Step>, i: nat, t: nat)
    requires IsRun(run, steps) && i < |run| && Plain(run, steps, i) && Is(run[i], t, Parked)
    requires run[i].count == 0 || run[i].enough
    ensures exists u :: Is(run[i], u, Waking) || Is(run[i], u, Notifying)
  {
    RunKeeps(run, steps, i);
    assert ThreadOk(run[i], t);
    var u :| 0 <= u < |run[i].threads| && (run[i].threads[u].phase == Waking || run[i].threads[u].phase == Notifying);
    assert Is(run[i], u, Waking) || Is(run[i], u, Notifying);
  }

  /** A thread set aside more work than it runs. */
  predicate Short(thread: Thread) {
    thread.own < Sum(thread.asides)
  }

  ghost predicate ShortBy(run: seq<State>, i: nat) {
    exists j, t {:trigger Short(run[j].threads[t])} ::
      0 <= j <= i && j < |run| && 0 <= t < |run[j].threads| && Short(run[j].threads[t])
  }

  /** A thread's work counts below nothing exactly when it overdraws: work set aside within an
      aside, or more work ended within an aside than was begun there. */
  lemma UnderflowsExactly(run: seq<State>, steps: seq<Step>, i: nat)
    requires IsRun(run, steps) && i < |run|
    ensures ShortBy(run, i) <==> !Plain(run, steps, i)
    ensures forall t :: 0 <= t < |run[i].threads| && Work(run[i].threads[t]) < 0 ==> Short(run[i].threads[t])
    ensures forall t :: 0 <= t < |run[i].threads| && Short(run[i].threads[t]) ==>
      Work(run[i].threads[t]) < 0 || run[i].threads[t].phase == Raised || run[i].threads[t].phase == Dropping
  {
    hide Total, Sum, Inv;
    if Plain(run, steps, i) {
      forall j, t | 0 <= j <= i && 0 <= t < |run[j].threads| ensures !Short(run[j].threads[t]) {
        RunKeeps(run, steps, j);
        NotShort(run[j], t);
      }
    } else {
      var k :| 0 <= k < i && Overdraws(run[k], steps[k]);
      assert Next(run[k], steps[k], run[k + 1]);
      Overdrawn(run[k], steps[k], run[k + 1]);
    }
  }

  lemma NotShort(s: State, t: nat)
    requires Inv(s) && t < |s.threads|
    ensures !Short(s.threads[t])
  {
    assert ThreadOk(s, t);
  }

  lemma Overdrawn(s: State, step: Step, s': State)
    requires Next(s, step, s') && Overdraws(s, step)
    ensures step.t < |s'.threads| && Short(s'.threads[step.t])
  {
    SumMore(s.threads[step.t].asides, s.threads[step.t].own);
  }

  // ---------------------------------------------------------------- an aside and its end

  /** How often `step` was taken from `i` to `j`. */
  function Times(steps: seq<Step>, step: Step, i: nat, j: nat): nat
    requires i <= j <= |steps|
  {
    if i == j then 0 else Times(steps, step, i, j - 1) + (if steps[j - 1] == step then 1 else 0)
  }

  /** The work begun and not ended, set aside or not. */
  function Begun(thread: Thread): int {
    thread.own + (if thread.phase == Raised || thread.phase == Dropping then 1 else 0)
  }

  lemma BegunStep(s: State, step: Step, s': State, t: nat)
    requires Next(s, step, s') && t < |s.threads|
    ensures |s'.threads| == |s.threads|
    ensures Begun(s'.threads[t]) ==
              Begun(s.threads[t]) + (if step == Raise(t) then 1 else if step == Lower(t) then -1 else 0)
  {
    if step.t != t {
      assert step.Notify? || s'.threads[t] == s.threads[t];
    }
  }

  lemma {:induction false} BegunChanges(run: seq<State>, steps: seq<Step>, i: nat, j: nat, t: nat)
    requires IsRun(run, steps) && i <= j < |run| && t < |run[i].threads|
    ensures t < |run[j].threads|
    ensures Begun(run[j].threads[t]) ==
              Begun(run[i].threads[t]) + Times(steps, Raise(t), i, j) - Times(steps, Lower(t), i, j)
    decreases j
  {
    hide Next, Initial, Begun;
    if i < j {
      BegunChanges(run, steps, i, j - 1, t);
      BegunStep(run[j - 1], steps[j - 1], run[j], t);
    }
  }

  /** Thread `t` sets work aside at step `i`, and step `j` is the end of that aside. */
  predicate IsAside(run: seq<State>, steps: seq<Step>, i: nat, j: nat, t: nat) {
    && IsRun(run, steps) && i < j < |steps| && steps[i] == Aside(t) && steps[j] == Back(t)
    && t < |run[i].threads| && run[i].threads[t].own > 0
    && (forall k :: i < k <= j ==> t < |run[k].threads| && |run[k].threads[t].asides| > |run[i].threads[t].asides|)
    && t < |run[j + 1].threads| && |run[j + 1].threads[t].asides| == |run[i].threads[t].asides|
  }

  lemma AsidesStep(s: State, step: Step, s': State, t: nat, n: nat)
    requires Next(s, step, s') && t < |s.threads| && n <= |s.threads[t].asides|
    requires t < |s'.threads| && n <= |s'.threads[t].asides|
    ensures s'.threads[t].asides[..n] == s.threads[t].asides[..n]
  {}

  lemma {:induction false} AsidesBelow(run: seq<State>, steps: seq<Step>, i: nat, j: nat, t: nat, k: nat)
    requires IsAside(run, steps, i, j, t) && i <= k <= j + 1
    ensures run[k].threads[t].asides[..|run[i].threads[t].asides|] == run[i].threads[t].asides
    decreases k
  {
    hide Next, Initial;
    var n := |run[i].threads[t].asides|;
    assert run[i].threads[t].asides[..n] == run[i].threads[t].asides;
    if i < k {
      AsidesBelow(run, steps, i, j, t, k - 1);
      AsidesStep(run[k - 1], steps[k - 1], run[k], t, n);
    }
  }

  /** At the end of an aside, of what it ran or of its unwinding, the thread's work counts as
      before, with what the thread began meanwhile and without what it ended. */
  lemma BackRestores(run: seq<State>, steps: seq<Step>, i: nat, j: nat, t: nat)
    requires IsAside(run, steps, i, j, t)
    ensures Work(run[j + 1].threads[t])
      == Work(run[i].threads[t]) + Times(steps, Raise(t), i, j + 1) - Times(steps, Lower(t), i, j + 1)
  {
    hide Next, Initial, Sum;
    BegunChanges(run, steps, i, j + 1, t);
    AsidesBelow(run, steps, i, j, t, j + 1);
    assert run[j + 1].threads[t].asides == run[i].threads[t].asides;
  }

  // ---------------------------------------------------------------- runs that overdraw

  function OneThread(own: nat, asides: seq<nat>, phase: Phase, count: int, lock: Option<nat>): State {
    State([Thread(own, asides, phase)], count, lock, false)
  }

  lemma NestedBegins()
    ensures Next(OneThread(0, [], Free, 0, None), Raise(0), OneThread(0, [], Raised, 1, None))
    ensures Next(OneThread(0, [], Raised, 1, None), Own(0), OneThread(1, [], Free, 1, None))
    ensures Next(OneThread(1, [], Free, 1, None), Aside(0), OneThread(1, [1], Waking, 0, None))
  {
    assert [] + [1] == [1];
  }

  lemma NestedEnds()
    ensures Next(OneThread(1, [1], Waking, 0, None), Held(0), OneThread(1, [1], Notifying, 0, Some(0)))
    ensures Next(OneThread(1, [1], Notifying, 0, Some(0)), Notify(0), OneThread(1, [1], Free, 0, None))
    ensures Next(OneThread(1, [1], Free, 0, None), Aside(0), OneThread(1, [1, 1], Free, -1, None))
  {
    assert [1] + [1] == [1, 1];
    var threads := [Thread(1, [1], Notifying)];
    assert Unparked(threads) == threads;
  }

  /** One thread, one work, two asides: the count falls below nothing. */
  lemma NestedRun() returns (run: seq<State>, steps: seq<Step>)
    ensures IsRun(run, steps) && |run| == 7 && run[6].count == -1
  {
    hide Next;
    NestedBegins();
    NestedEnds();
    run := [OneThread(0, [], Free, 0, None), OneThread(0, [], Raised, 1, None), OneThread(1, [], Free, 1, None),
            OneThread(1, [1], Waking, 0, None), OneThread(1, [1], Notifying, 0, Some(0)),
            OneThread(1, [1], Free, 0, None), OneThread(1, [1, 1], Free, -1, None)];
    steps := [Raise(0), Own(0), Aside(0), Held(0), Notify(0), Aside(0)];
  }

  lemma DropEnds()
    ensures Next(OneThread(1, [1], Free, 0, None), Drop(0), OneThread(0, [1], Dropping, 0, None))
    ensures Next(OneThread(0, [1], Dropping, 0, None), Lower(0), OneThread(0, [1], Free, -1, None))
  {}

  /** One thread, one work, one aside, and the work ended within it: the same. */
  lemma DropRun() returns (run: seq<State>, steps: seq<Step>)
    ensures IsRun(run, steps) && |run| == 8 && run[7].count == -1 && Times(steps, Aside(0), 0, 7) == 1
  {
    hide Next;
    NestedBegins();
    NestedEnds();
    DropEnds();
    run := [OneThread(0, [], Free, 0, None), OneThread(0, [], Raised, 1, None), OneThread(1, [], Free, 1, None),
            OneThread(1, [1], Waking, 0, None), OneThread(1, [1], Notifying, 0, Some(0)),
            OneThread(1, [1], Free, 0, None), OneThread(0, [1], Dropping, 0, None), OneThread(0, [1], Free, -1, None)];
    steps := [Raise(0), Own(0), Aside(0), Held(0), Notify(0), Drop(0), Lower(0)];
  }
}
