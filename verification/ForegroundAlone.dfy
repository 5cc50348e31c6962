/** What a thread does with the count of foreground work by itself: from every reachable state
    its calls can go through, and this is what they leave. And when a wait ends at all. */
module ForegroundAlone {
  import opened Wrappers
  import opened Foreground

  function Last(run: seq<State>): State
    requires run != []
  {
    run[|run| - 1]
  }

  /** A run goes on with one more step. */
  lemma GoesOn(run: seq<State>, steps: seq<Step>, step: Step, s': State)
    requires IsRun(run, steps) && Next(Last(run), step, s')
    ensures IsRun(run + [s'], steps + [step])
  {
    hide Next, Initial;
  }

  /** It goes on from `run` with the steps `taken`. */
  ghost predicate Continues(run: seq<State>, steps: seq<Step>, taken: seq<Step>, run': seq<State>, s': State) {
    IsRun(run', steps + taken) && run <= run' && run' != [] && Last(run') == s'
  }

  lemma TakesOne(run: seq<State>, steps: seq<Step>, a: Step, s1: State) returns (run': seq<State>)
    requires IsRun(run, steps) && Next(Last(run), a, s1)
    ensures Continues(run, steps, [a], run', s1)
  {
    hide Next, Initial;
    GoesOn(run, steps, a, s1);
    run' := run + [s1];
  }

  lemma TakesMore(run: seq<State>, steps: seq<Step>, taken: seq<Step>, mid: seq<State>, s: State, a: Step, s': State)
      returns (run': seq<State>)
    requires Continues(run, steps, taken, mid, s) && Next(s, a, s')
    ensures Continues(run, steps, taken + [a], run', s')
  {
    hide Next, Initial;
    GoesOn(mid, steps + taken, a, s');
    run' := mid + [s'];
    assert steps + (taken + [a]) == steps + taken + [a];
  }

  /** Two steps. */
  lemma TakesTwo(run: seq<State>, steps: seq<Step>, a: Step, s1: State, b: Step, s2: State) returns (run': seq<State>)
    requires IsRun(run, steps) && Next(Last(run), a, s1) && Next(s1, b, s2)
    ensures Continues(run, steps, [a, b], run', s2)
  {
    hide Next, Initial, Continues;
    run' := TakesOne(run, steps, a, s1);
    run' := TakesMore(run, steps, [a], run', s1, b, s2);
    assert [a] + [b] == [a, b];
  }

  // ---------------------------------------------------------------- work

  function WithThread(s: State, t: nat, thread: Thread): State
    requires t < |s.threads|
  {
    s.(threads := s.threads[t := thread])
  }

  /** `begin`: one more runs, on this thread. */
  lemma Begins(run: seq<State>, steps: seq<Step>, t: nat) returns (run': seq<State>)
    requires IsRun(run, steps) && Is(Last(run), t, Free)
    ensures var (s, own) := (Last(run), Last(run).threads[t].own);
      Continues(run, steps, [Raise(t), Own(t)], run',
                WithThread(s, t, s.threads[t].(own := own + 1)).(count := s.count + 1))
  {
    hide Initial;
    var s := Last(run);
    var thread := s.threads[t];
    var s1 := WithThread(s, t, thread.(phase := Raised)).(count := s.count + 1);
    var s2 := WithThread(s, t, thread.(own := thread.own + 1)).(count := s.count + 1);
    assert s1.threads[t := s2.threads[t]] == s2.threads;
    run' := TakesTwo(run, steps, Raise(t), s1, Own(t), s2);
  }

  /** Every parked thread is to look again. */
  ghost predicate AllWoken(threads: seq<Thread>, woken: seq<Thread>) {
    && |woken| == |threads|
    && forall i :: 0 <= i < |threads| ==>
         woken[i] == if threads[i].phase == Parked then threads[i].(phase := Entering) else threads[i]
  }

  /** A thread about to wake the waiting wakes them all. */
  lemma WakesAll(run: seq<State>, steps: seq<Step>, t: nat) returns (run': seq<State>, s': State)
    requires IsRun(run, steps) && Is(Last(run), t, Waking) && Last(run).lock == None
    ensures Continues(run, steps, [Held(t), Notify(t)], run', s')
    ensures var s := Last(run);
      && s' == s.(threads := s'.threads)
      && AllWoken(s.threads[t := s.threads[t].(phase := Free)], s'.threads)
  {
    hide Initial;
    var s := Last(run);
    var s1 := WithThread(s, t, s.threads[t].(phase := Notifying)).(lock := Some(t));
    s' := s.(threads := Unparked(s1.threads)[t := s.threads[t].(phase := Free)]);
    run' := TakesTwo(run, steps, Held(t), s1, Notify(t), s');
  }

  lemma TakesAfter(run: seq<State>, steps: seq<Step>, before: seq<Step>, mid: seq<State>, s: State,
                   after: seq<Step>, run': seq<State>, s': State)
    requires Continues(run, steps, before, mid, s) && Continues(mid, steps + before, after, run', s')
    ensures Continues(run, steps, before + after, run', s')
  {
    hide Next, Initial;
    assert steps + (before + after) == steps + before + after;
  }

  /** A guard is dropped: one less runs, and the last wakes the waiting. */
  lemma Ends(run: seq<State>, steps: seq<Step>, t: nat) returns (run': seq<State>, s': State)
    requires IsRun(run, steps) && Is(Last(run), t, Free) && Last(run).threads[t].own > 0 && Last(run).lock == None
    ensures var s := Last(run);
      var taken := [Drop(t), Lower(t)] + (if s.count == 1 then [Held(t), Notify(t)] else []);
      var ended := s.threads[t := s.threads[t].(own := s.threads[t].own - 1)];
      && Continues(run, steps, taken, run', s') && s' == s.(count := s.count - 1, threads := s'.threads)
      && if s.count == 1 then AllWoken(ended, s'.threads) else s'.threads == ended
  {
    hide Initial;
    var s := Last(run);
    var thread := s.threads[t].(own := s.threads[t].own - 1);
    var s1 := WithThread(s, t, thread.(phase := Dropping));
    s' := WithThread(s, t, thread.(phase := if s.count == 1 then Waking else Free)).(count := s.count - 1);
    run' := TakesTwo(run, steps, Drop(t), s1, Lower(t), s');
    if s.count == 1 {
      var mid, s2 := run', s';
      run', s' := WakesAll(mid, steps + [Drop(t), Lower(t)], t);
      assert s2.threads[t := s2.threads[t].(phase := Free)] == s.threads[t := thread];
      TakesAfter(run, steps, [Drop(t), Lower(t)], mid, s2, [Held(t), Notify(t)], run', s');
    } else {
      assert [Drop(t), Lower(t)] + [] == [Drop(t), Lower(t)];
    }
  }

  /** What the waiting ask about comes true: all are woken to ask again. */
  lemma Tells(run: seq<State>, steps: seq<Step>, t: nat) returns (run': seq<State>, s': State)
    requires IsRun(run, steps) && Is(Last(run), t, Free) && Last(run).lock == None
    ensures Continues(run, steps, [Tell(t), Held(t), Notify(t)], run', s')
    ensures s' == Last(run).(enough := true, threads := s'.threads) && AllWoken(Last(run).threads, s'.threads)
  {
    hide Initial;
    var s := Last(run);
    var s1 := WithThread(s, t, s.threads[t].(phase := Waking)).(enough := true);
    var mid := TakesOne(run, steps, Tell(t), s1);
    run', s' := WakesAll(mid, steps + [Tell(t)], t);
    TakesAfter(run, steps, [Tell(t)], mid, s1, [Held(t), Notify(t)], run', s');
    assert s1.threads[t := s1.threads[t].(phase := Free)] == s.threads;
    assert [Tell(t)] + [Held(t), Notify(t)] == [Tell(t), Held(t), Notify(t)];
  }

  /** `aside` begins: the thread's work no longer runs, and if it was all there was the waiting
      are woken; without work of its own nothing changes. */
  lemma SetsAside(run: seq<State>, steps: seq<Step>, t: nat) returns (run': seq<State>, s': State)
    requires IsRun(run, steps) && Is(Last(run), t, Free) && Last(run).lock == None
    ensures var (s, own) := (Last(run), Last(run).threads[t].own);
      var last := own > 0 && s.count == own;
      var aside := if own == 0 then s.threads
                   else s.threads[t := s.threads[t].(asides := s.threads[t].asides + [own])];
      && Continues(run, steps, [Aside(t)] + (if last then [Held(t), Notify(t)] else []), run', s')
      && s' == s.(count := s.count - own, threads := s'.threads)
      && if last then AllWoken(aside, s'.threads) else s'.threads == aside
  {
    hide Initial;
    var s := Last(run);
    var own := s.threads[t].own;
    var thread := s.threads[t].(asides := s.threads[t].asides + [own]);
    var last := own > 0 && s.count == own;
    if own == 0 {
      s' := s;
    } else {
      s' := WithThread(s, t, thread.(phase := if last then Waking else Free)).(count := s.count - own);
    }
    run' := TakesOne(run, steps, Aside(t), s');
    if last {
      var mid, s1 := run', s';
      run', s' := WakesAll(mid, steps + [Aside(t)], t);
      assert s1.threads[t := s1.threads[t].(phase := Free)] == s.threads[t := thread];
      TakesAfter(run, steps, [Aside(t)], mid, s1, [Held(t), Notify(t)], run', s');
    } else {
      assert [Aside(t)] + [] == [Aside(t)];
    }
  }

  /** `aside` ends: the work set aside last runs again. */
  lemma GoesBack(run: seq<State>, steps: seq<Step>, t: nat) returns (run': seq<State>)
    requires IsRun(run, steps) && Is(Last(run), t, Free) && Last(run).threads[t].asides != []
    ensures var (s, asides) := (Last(run), Last(run).threads[t].asides);
      Continues(run, steps, [Back(t)], run',
                WithThread(s, t, s.threads[t].(asides := asides[..|asides| - 1])).(
                  count := s.count + asides[|asides| - 1]))
  {
    hide Initial;
    var (s, asides) := (Last(run), Last(run).threads[t].asides);
    var s' := WithThread(s, t, s.threads[t].(asides := asides[..|asides| - 1])).(count :=
      s.count + asides[|asides| - 1]);
    run' := TakesOne(run, steps, Back(t), s');
  }

  // ---------------------------------------------------------------- waiting

  predicate Waiting(phase: Phase) {
    phase in {Entering, Looking, Asking, Parking, Parked}
  }

  /** What another thread does leaves a wait where it is, or wakes it. */
  lemma OthersLeave(s: State, step: Step, s': State, t: nat)
    requires Next(s, step, s') && t < |s.threads| && step.t != t
    ensures t < |s'.threads|
    ensures Waiting(s.threads[t].phase) ==> Waiting(s'.threads[t].phase)
  {
    hide Waiting;
    assert step.t < |s.threads|;
    if step.Notify? {
      assert s'.threads[t].phase == s.threads[t].phase || s'.threads[t].phase == Entering;
      assert Waiting(Entering) by {
        StillWaits();
      }
    } else {
      assert s'.threads[t] == s.threads[t];
    }
  }

  lemma StillWaits()
    ensures Waiting(Entering)
  {}

  /** A wait ends only when nothing runs, when it was enough, when its patience is out, or when
      what it asks panics. */
  lemma WaitEnds(run: seq<State>, steps: seq<Step>, j: nat, t: nat)
    requires IsRun(run, steps) && j < |steps| && t < |run[j].threads| && t < |run[j + 1].threads|
    requires Waiting(run[j].threads[t].phase) && !Waiting(run[j + 1].threads[t].phase)
    ensures run[j + 1].threads[t].phase == Free
    ensures || (steps[j] == Look(t) && run[j].count == 0) || (steps[j] == Ask(t) && run[j].enough)
            || steps[j] == GiveUp(t) || steps[j] == Panic(t)
  {
    hide Initial;
    var (s, step, s') := (run[j], steps[j], run[j + 1]);
    if step.t != t {
      hide Next;
      OthersLeave(s, step, s', t);
    } else {
      EndsByItself(s, step, s');
    }
  }

  lemma EndsByItself(s: State, step: Step, s': State)
    requires Next(s, step, s') && step.t < |s.threads| && step.t < |s'.threads|
    requires Waiting(s.threads[step.t].phase) && !Waiting(s'.threads[step.t].phase)
    ensures s'.threads[step.t].phase == Free
    ensures (step.Look? && s.count == 0) || (step.Ask? && s.enough) || step.GiveUp? || step.Panic?
  {}

  /** A thread at the lock looks at once when it has it: it goes on when nothing runs, asks when
      something does, goes on when it waited enough, and is else on its way to being parked. */
  lemma LooksAndAsks(run: seq<State>, steps: seq<Step>, t: nat) returns (run': seq<State>)
    requires IsRun(run, steps) && Is(Last(run), t, Entering) && Last(run).lock == None
    ensures var s := Last(run);
      var free := WithThread(s, t, s.threads[t].(phase := Free));
      if s.count == 0 then Continues(run, steps, [Enter(t), Look(t)], run', free)
      else if s.enough then Continues(run, steps, [Enter(t), Look(t), Ask(t)], run', free)
      else
        Continues(run, steps, [Enter(t), Look(t), Ask(t)], run',
                  WithThread(s, t, s.threads[t].(phase := Parking)).(lock := Some(t)))
  {
    hide Initial;
    var s := Last(run);
    var thread := s.threads[t];
    var free := WithThread(s, t, thread.(phase := Free));
    var s1 := WithThread(s, t, thread.(phase := Looking)).(lock := Some(t));
    var s2 := WithThread(s, t, thread.(phase := Asking)).(lock := Some(t));
    if s.count == 0 {
      run' := TakesTwo(run, steps, Enter(t), s1, Look(t), free);
    } else {
      var mid := TakesTwo(run, steps, Enter(t), s1, Look(t), s2);
      var s3 := if s.enough then free else WithThread(s, t, thread.(phase := Parking)).(lock := Some(t));
      run' := TakesMore(run, steps, [Enter(t), Look(t)], mid, s2, Ask(t), s3);
      assert [Enter(t), Look(t)] + [Ask(t)] == [Enter(t), Look(t), Ask(t)];
    }
  }

  /** `wait` begins at the lock; a wait that is on its way to being parked is parked, and the lock
      free, or gives up; one that asks may panic; one that is parked may be woken for no reason. */
  lemma WaitSteps(run: seq<State>, steps: seq<Step>, t: nat) returns (run': seq<State>, other: seq<State>)
    requires IsRun(run, steps) && t < |Last(run).threads|
    ensures var (s, thread) := (Last(run), Last(run).threads[t]);
      match thread.phase
      case Free => Continues(run, steps, [Wait(t)], run', WithThread(s, t, thread.(phase := Entering)))
      case Parking =>
        && Continues(run, steps, [Park(t)], run', WithThread(s, t, thread.(phase := Parked)).(lock := None))
        && Continues(run, steps, [GiveUp(t)], other, WithThread(s, t, thread.(phase := Free)).(lock := None))
      case Asking => Continues(run, steps, [Panic(t)], run', WithThread(s, t, thread.(phase := Free)).(lock := None))
      case Parked => Continues(run, steps, [Unpark(t)], run', WithThread(s, t, thread.(phase := Entering)))
      case _ => true
  {
    hide Initial, Continues;
    var (s, thread) := (Last(run), Last(run).threads[t]);
    run', other := run, run;
    if thread.phase == Free {
      run' := TakesOne(run, steps, Wait(t), WithThread(s, t, thread.(phase := Entering)));
    } else if thread.phase == Parking {
      run' := TakesOne(run, steps, Park(t), WithThread(s, t, thread.(phase := Parked)).(lock := None));
      other := TakesOne(run, steps, GiveUp(t), WithThread(s, t, thread.(phase := Free)).(lock := None));
    } else if thread.phase == Asking {
      run' := TakesOne(run, steps, Panic(t), WithThread(s, t, thread.(phase := Free)).(lock := None));
    } else if thread.phase == Parked {
      run' := TakesOne(run, steps, Unpark(t), WithThread(s, t, thread.(phase := Entering)));
    }
  }
}
