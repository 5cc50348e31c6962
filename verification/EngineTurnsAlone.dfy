/** What one analysis, warm-up or change of the settings leaves of an engine when no other is in its
    way: which process it searches on, and which is there for the next. */
module EngineTurnsAlone {
  import opened Wrappers
  import opened EngineTurns

  // ---------------------------------------------------------------- a run that goes on

  function Last(run: seq<State>): State
    requires run != []
  {
    run[|run| - 1]
  }

  /** The run goes on with the steps `taken`, to `s'`. */
  ghost predicate LedTo(run: seq<State>, steps: seq<Step>, taken: seq<Step>, run': seq<State>, s': State) {
    IsRun(run', steps + taken) && run <= run' && run' != [] && Last(run') == s'
  }

  lemma First(run: seq<State>, steps: seq<Step>, step: Step, s': State) returns (run': seq<State>)
    requires IsRun(run, steps) && Next(Last(run), step, s')
    ensures LedTo(run, steps, [step], run', s')
  {
    hide Next, Initial;
    run' := run + [s'];
  }

  lemma Then(run: seq<State>, steps: seq<Step>, taken: seq<Step>, mid: seq<State>, s: State, step: Step, s': State)
      returns (run': seq<State>)
    requires LedTo(run, steps, taken, mid, s) && Next(s, step, s')
    ensures LedTo(run, steps, taken + [step], run', s')
  {
    hide Next, Initial;
    run' := mid + [s'];
    assert steps + (taken + [step]) == steps + taken + [step];
  }

  /** Thread `t` at `phase`, engine `g` as `e`. */
  function With(s: State, g: nat, e: Engine, t: nat, phase: Phase): State
    requires g < |s.engines| && t < |s.threads|
  {
    s.(engines := s.engines[g := e], threads := s.threads[t := phase])
  }

  lemma WithAgain(s: State, g: nat, e: Engine, t: nat, p: Phase, e': Engine, q: Phase)
    requires g < |s.engines| && t < |s.threads|
    ensures With(With(s, g, e, t, p), g, e', t, q) == With(s, g, e', t, q)
    ensures With(s, g, s.engines[g], t, s.threads[t]) == s
  {
    assert s.threads[t := p][t := q] == s.threads[t := q];
    assert s.engines[g := e][g := e'] == s.engines[g := e'];
    assert s.engines[g := s.engines[g]] == s.engines && s.threads[t := s.threads[t]] == s.threads;
  }

  /** Nothing is under way on thread `t`, and nobody has the slot of the engine there is. */
  predicate Quiet(s: State, t: nat, g: nat) {
    && t < |s.threads| && s.threads[t] == Idle && s.current == Some(g) && g < |s.engines|
    && s.engines[g].lock == None
  }

  // ---------------------------------------------------------------- an analysis comes

  /** The engine once an analysis of `view` has its turn, with `slot`. */
  function Taken(e: Engine, t: nat, view: View, slot: Option<Process>): Engine {
    Engine(e.turn + 1, view, Some(t), slot)
  }

  lemma ComeSteps(s: State, t: nat, view: View, g: nat)
    requires Quiet(s, t, g)
    ensures var e := s.engines[g];
      && Next(s, Begin(t, view), With(s, g, e, t, Has(g, view)))
      && Next(With(s, g, e, t, Has(g, view)), Name(t), With(s, g, e.(newest := view), t, Named(g, view)))
      && Next(With(s, g, e.(newest := view), t, Named(g, view)), Ticket(t),
              With(s, g, e.(newest := view, turn := e.turn + 1), t, Waits(g, view, e.turn + 1)))
  {
    var e := s.engines[g];
    WithAgain(s, g, e, t, Has(g, view), e.(newest := view), Named(g, view));
    WithAgain(s, g, e.(newest := view), t, Named(g, view),
              e.(newest := view, turn := e.turn + 1), Waits(g, view, e.turn + 1));
    assert s.engines[g := e] == s.engines;
  }

  lemma LockSteps(s: State, t: nat, view: View, g: nat)
    requires Quiet(s, t, g)
    ensures var (e, n) := (s.engines[g], s.engines[g].turn + 1);
      && Next(With(s, g, e.(newest := view, turn := n), t, Waits(g, view, n)), Lock(t),
              With(s, g, Taken(e, t, view, e.slot), t, Holds(g, view, n)))
      && Next(With(s, g, Taken(e, t, view, e.slot), t, Holds(g, view, n)), Check(t),
              With(s, g, Taken(e, t, view, e.slot), t, Turn(g, view, n)))
  {
    var (e, n) := (s.engines[g], s.engines[g].turn + 1);
    WithAgain(s, g, e.(newest := view, turn := n), t, Waits(g, view, n), Taken(e, t, view, e.slot), Holds(g, view, n));
    WithAgain(s, g, Taken(e, t, view, e.slot), t, Holds(g, view, n), Taken(e, t, view, e.slot), Turn(g, view, n));
  }

  /** An analysis that finds the slot free has its turn, the newest, under its view. */
  lemma ComesToTurn(run: seq<State>, steps: seq<Step>, t: nat, view: View, g: nat) returns (run': seq<State>)
    requires IsRun(run, steps) && Quiet(Last(run), t, g)
    ensures var (s, e) := (Last(run), Last(run).engines[g]);
      LedTo(run, steps, [Begin(t, view), Name(t), Ticket(t), Lock(t), Check(t)], run',
            With(s, g, Taken(e, t, view, e.slot), t, Turn(g, view, e.turn + 1)))
  {
    hide LedTo, Next, Initial;
    var (s, e, n) := (Last(run), Last(run).engines[g], Last(run).engines[g].turn + 1);
    ComeSteps(s, t, view, g);
    LockSteps(s, t, view, g);
    var a := With(s, g, e, t, Has(g, view));
    var b := With(s, g, e.(newest := view), t, Named(g, view));
    var c := With(s, g, e.(newest := view, turn := n), t, Waits(g, view, n));
    var d := With(s, g, Taken(e, t, view, e.slot), t, Holds(g, view, n));
    var f := With(s, g, Taken(e, t, view, e.slot), t, Turn(g, view, n));
    run' := First(run, steps, Begin(t, view), a);
    run' := Then(run, steps, [Begin(t, view)], run', a, Name(t), b);
    run' := Then(run, steps, [Begin(t, view)] + [Name(t)], run', b, Ticket(t), c);
    run' := Then(run, steps, [Begin(t, view)] + [Name(t)] + [Ticket(t)], run', c, Lock(t), d);
    run' := Then(run, steps, [Begin(t, view)] + [Name(t)] + [Ticket(t)] + [Lock(t)], run', d, Check(t), f);
    assert [Begin(t, view)] + [Name(t)] + [Ticket(t)] + [Lock(t)] + [Check(t)]
        == [Begin(t, view), Name(t), Ticket(t), Lock(t), Check(t)];
  }

  // ---------------------------------------------------------------- its process

  /** The process an analysis or a warm-up gets: the one there, when it has not ended, else a new one;
      none when that does not start. */
  function ProcessFor(s: State, slot: Option<Process>, dead: bool, ok: bool): Option<Process> {
    if slot.Some? && !dead then slot else if ok then Some(Process(s.processes, None)) else None
  }

  predicate IsNew(slot: Option<Process>, dead: bool) {
    slot == None || dead
  }

  /** An analysis at its turn gets its process and searches on it, its turn and view as they are; when
      there is none, or the process is not ready, its slot is left empty and free. */
  lemma BeginsSearch(run: seq<State>, steps: seq<Step>, t: nat, dead: bool, ok: bool)
      returns (run': seq<State>, unready: seq<State>)
    requires IsRun(run, steps) && t < |Last(run).threads| && Last(run).threads[t].Turn?
    requires Last(run).threads[t].g < |Last(run).engines|
    ensures var (s, p) := (Last(run), Last(run).threads[t]);
      var e := s.engines[p.g];
      var process := ProcessFor(s, e.slot, dead, ok);
      var s' := s.(processes := if IsNew(e.slot, dead) && ok then s.processes + 1 else s.processes);
      var left := With(s', p.g, e.(lock := None, slot := None), t, Idle);
      if process == None then LedTo(run, steps, [Start(t, dead, ok)], run', left)
      else
        && LedTo(run, steps, [Start(t, dead, ok), Go(t, true)], run',
                 With(s', p.g, e.(slot := Some(process.value.(search := Some(t)))), t, Searches(p.g, p.view, p.ticket)))
        && LedTo(run, steps, [Start(t, dead, ok), Go(t, false)], unready, left)
  {
    hide LedTo, Initial;
    var (s, p) := (Last(run), Last(run).threads[t]);
    var e := s.engines[p.g];
    var process := ProcessFor(s, e.slot, dead, ok);
    var s' := s.(processes := if IsNew(e.slot, dead) && ok then s.processes + 1 else s.processes);
    var left := With(s', p.g, e.(lock := None, slot := None), t, Idle);
    unready := run;
    if process == None {
      assert Next(s, Start(t, dead, ok), left);
      run' := First(run, steps, Start(t, dead, ok), left);
    } else {
      var a := With(s', p.g, e.(slot := process), t, Ready(p.g, p.view, p.ticket));
      var b := With(s', p.g, e.(slot := Some(process.value.(search := Some(t)))), t, Searches(p.g, p.view, p.ticket));
      GetsReady(s, t, dead, ok);
      WithAgain(s', p.g, a.engines[p.g], t, Ready(p.g, p.view, p.ticket), b.engines[p.g], b.threads[t]);
      WithAgain(s', p.g, a.engines[p.g], t, Ready(p.g, p.view, p.ticket), left.engines[p.g], Idle);
      assert Next(a, Go(t, true), b) && Next(a, Go(t, false), left);
      hide Next;
      var mid := First(run, steps, Start(t, dead, ok), a);
      run' := Then(run, steps, [Start(t, dead, ok)], mid, a, Go(t, true), b);
      unready := Then(run, steps, [Start(t, dead, ok)], mid, a, Go(t, false), left);
      assert [Start(t, dead, ok)] + [Go(t, true)] == [Start(t, dead, ok), Go(t, true)];
      assert [Start(t, dead, ok)] + [Go(t, false)] == [Start(t, dead, ok), Go(t, false)];
    }
  }

  lemma GetsReady(s: State, t: nat, dead: bool, ok: bool)
    requires t < |s.threads| && s.threads[t].Turn? && s.threads[t].g < |s.engines|
    requires ProcessFor(s, s.engines[s.threads[t].g].slot, dead, ok).Some?
    ensures var p := s.threads[t];
      var e := s.engines[p.g];
      Next(s, Start(t, dead, ok),
           With(s.(processes := if IsNew(e.slot, dead) then s.processes + 1 else s.processes), p.g,
                e.(slot := ProcessFor(s, e.slot, dead, ok)), t, Ready(p.g, p.view, p.ticket)))
  {
    var p := s.threads[t];
    assert s.engines[p.g := s.engines[p.g]] == s.engines;
  }

  /** Thread `t` searches on the process in its engine's slot. */
  predicate OnSlot(s: State, t: nat) {
    && t < |s.threads| && s.threads[t].Searches? && s.threads[t].g < |s.engines|
    && s.engines[s.threads[t].g].slot.Some?
  }

  /** A search ends: after its best move, and when its client left and the process stops, the process is
      there for the next analysis and searches for none; when it crashed, or does not stop, the slot is
      empty. The slot is free. */
  lemma SearchEnds(run: seq<State>, steps: seq<Step>, t: nat)
      returns (best: seq<State>, crashed: seq<State>, stopped: seq<State>, lost: seq<State>)
    requires IsRun(run, steps) && OnSlot(Last(run), t)
    ensures var (s, g) := (Last(run), Last(run).threads[t].g);
      var e := s.engines[g];
      var (kept, gone) := (With(s, g, e.(lock := None, slot := Some(Process(e.slot.value.id, None))), t, Idle),
                           With(s, g, e.(lock := None, slot := None), t, Idle));
      && LedTo(run, steps, [Best(t)], best, kept) && LedTo(run, steps, [Crash(t)], crashed, gone)
      && LedTo(run, steps, [Gone(t, true)], stopped, kept) && LedTo(run, steps, [Gone(t, false)], lost, gone)
  {
    hide LedTo, Initial;
    var (s, g) := (Last(run), Last(run).threads[t].g);
    var e := s.engines[g];
    var kept := With(s, g, e.(lock := None, slot := Some(Process(e.slot.value.id, None))), t, Idle);
    var gone := With(s, g, e.(lock := None, slot := None), t, Idle);
    assert Next(s, Best(t), kept) && Next(s, Crash(t), gone);
    assert Next(s, Gone(t, true), kept) && Next(s, Gone(t, false), gone);
    hide Next;
    best := First(run, steps, Best(t), kept);
    crashed := First(run, steps, Crash(t), gone);
    stopped := First(run, steps, Gone(t, true), kept);
    lost := First(run, steps, Gone(t, false), gone);
  }

  // ---------------------------------------------------------------- superseded

  /** A search whose turn is past stops, tells its client when the newest is of another view, and leaves
      its process for the next, or nothing when it does not stop. */
  lemma SearchSuperseded(run: seq<State>, steps: seq<Step>, t: nat, stops: bool) returns (run': seq<State>)
    requires IsRun(run, steps) && OnSlot(Last(run), t)
    requires Last(run).engines[Last(run).threads[t].g].turn != Last(run).threads[t].ticket
    ensures var (s, p) := (Last(run), Last(run).threads[t]);
      var e := s.engines[p.g];
      var slot := if stops then Some(Process(e.slot.value.id, None)) else None;
      LedTo(run, steps, [SeeTurn(t, stops), Tell(t, e.newest != p.view)], run',
            With(s, p.g, e.(lock := None, slot := slot), t, Idle))
  {
    hide LedTo, Initial;
    var (s, p) := (Last(run), Last(run).threads[t]);
    var e := s.engines[p.g];
    var e1 := e.(slot := if stops then Some(Process(e.slot.value.id, None)) else e.slot);
    var e2 := e.(lock := None, slot := if stops then Some(Process(e.slot.value.id, None)) else None);
    var a := With(s, p.g, e1, t, Ends(p.g, p.view, p.ticket, !stops));
    WithAgain(s, p.g, e1, t, Ends(p.g, p.view, p.ticket, !stops), e2, Idle);
    assert Next(s, SeeTurn(t, stops), a);
    assert Next(a, Tell(t, e.newest != p.view), With(s, p.g, e2, t, Idle));
    hide Next;
    run' := First(run, steps, SeeTurn(t, stops), a);
    run' := Then(run, steps, [SeeTurn(t, stops)], run', a, Tell(t, e.newest != p.view), With(s, p.g, e2, t, Idle));
    assert [SeeTurn(t, stops)] + [Tell(t, e.newest != p.view)] == [SeeTurn(t, stops), Tell(t, e.newest != p.view)];
  }

  /** An analysis whose turn is past before it searches tells its client likewise and leaves the slot's
      process as it is. */
  lemma TurnPast(run: seq<State>, steps: seq<Step>, t: nat) returns (run': seq<State>)
    requires IsRun(run, steps) && t < |Last(run).threads| && Last(run).threads[t].Waits?
    requires Last(run).threads[t].g < |Last(run).engines| && Last(run).engines[Last(run).threads[t].g].lock == None
    requires Last(run).engines[Last(run).threads[t].g].turn != Last(run).threads[t].ticket
    ensures var (s, p) := (Last(run), Last(run).threads[t]);
      var e := s.engines[p.g];
      LedTo(run, steps, [Lock(t), Check(t), Tell(t, e.newest != p.view)], run', s.(threads := s.threads[t := Idle]))
  {
    hide LedTo, Initial;
    var (s, p) := (Last(run), Last(run).threads[t]);
    var e := s.engines[p.g];
    var a := With(s, p.g, e.(lock := Some(t)), t, Holds(p.g, p.view, p.ticket));
    var b := With(s, p.g, e.(lock := Some(t)), t, Ends(p.g, p.view, p.ticket, false));
    var c := With(s, p.g, e, t, Idle);
    WithAgain(s, p.g, e.(lock := Some(t)), t, a.threads[t], e.(lock := Some(t)), b.threads[t]);
    WithAgain(s, p.g, e.(lock := Some(t)), t, b.threads[t], e, Idle);
    assert c == s.(threads := s.threads[t := Idle]) by {
      assert s.engines[p.g := e] == s.engines;
    }
    assert Next(s, Lock(t), a) && Next(a, Check(t), b) && Next(b, Tell(t, e.newest != p.view), c);
    hide Next;
    run' := First(run, steps, Lock(t), a);
    run' := Then(run, steps, [Lock(t)], run', a, Check(t), b);
    run' := Then(run, steps, [Lock(t)] + [Check(t)], run', b, Tell(t, e.newest != p.view), c);
    assert [Lock(t)] + [Check(t)] + [Tell(t, e.newest != p.view)] == [Lock(t), Check(t), Tell(t, e.newest != p.view)];
  }

  // ---------------------------------------------------------------- warm-ups and the settings

  /** A warm-up takes the slot nobody has, and leaves in it a process that searches for none: the one
      there, or a new one when none is or it ended; when that is not ready, none. */
  lemma WarmsUp(run: seq<State>, steps: seq<Step>, t: nat, g: nat, dead: bool, ok: bool) returns (run': seq<State>)
    requires IsRun(run, steps) && Quiet(Last(run), t, g)
    ensures var (s, e) := (Last(run), Last(run).engines[g]);
      LedTo(run, steps, [WarmLock(t), WarmEnd(t, dead, ok)], run',
            s.(engines := s.engines[g := e.(slot := if ok then ProcessFor(s, e.slot, dead, ok) else None)],
               processes := if IsNew(e.slot, dead) && ok then s.processes + 1 else s.processes))
  {
    hide LedTo, Initial;
    var (s, e) := (Last(run), Last(run).engines[g]);
    var a := With(s, g, e.(lock := Some(t)), t, Warms(g));
    var s' := s.(engines := s.engines[g := e.(slot := if ok then ProcessFor(s, e.slot, dead, ok) else None)],
                 processes := if IsNew(e.slot, dead) && ok then s.processes + 1 else s.processes);
    WarmEnds(s, t, g, dead, ok);
    assert Next(s, WarmLock(t), a);
    hide Next;
    run' := First(run, steps, WarmLock(t), a);
    run' := Then(run, steps, [WarmLock(t)], run', a, WarmEnd(t, dead, ok), s');
    assert [WarmLock(t)] + [WarmEnd(t, dead, ok)] == [WarmLock(t), WarmEnd(t, dead, ok)];
  }

  lemma WarmEnds(s: State, t: nat, g: nat, dead: bool, ok: bool)
    requires Quiet(s, t, g)
    ensures var e := s.engines[g];
      Next(With(s, g, e.(lock := Some(t)), t, Warms(g)), WarmEnd(t, dead, ok),
           s.(engines := s.engines[g := e.(slot := if ok then ProcessFor(s, e.slot, dead, ok) else None)],
              processes := if IsNew(e.slot, dead) && ok then s.processes + 1 else s.processes))
  {
    var e := s.engines[g];
    assert s.threads[t := Warms(g)][t := Idle] == s.threads;
  }

  /** A process idle for long is ended; a process nobody uses can be. */
  lemma Reaps(run: seq<State>, steps: seq<Step>, g: nat) returns (run': seq<State>)
    requires IsRun(run, steps) && g < |Last(run).engines| && Last(run).engines[g].lock == None
    ensures var s := Last(run);
      LedTo(run, steps, [Reap(g)], run', s.(engines := s.engines[g := s.engines[g].(slot := None)]))
  {
    hide LedTo, Initial;
    var s := Last(run);
    run' := First(run, steps, Reap(g), s.(engines := s.engines[g := s.engines[g].(slot := None)]));
  }

  /** The settings name another engine, or none: the old one's turn passes, and a new one begins without
      a process, its turn and view at nothing. */
  lemma ReplacesEngine(run: seq<State>, steps: seq<Step>, next: bool) returns (run': seq<State>)
    requires IsRun(run, steps)
    ensures var s := Last(run);
      var before := if s.current.Some? && s.current.value < |s.engines| then
                   s.engines[s.current.value :=
                     s.engines[s.current.value].(turn := s.engines[s.current.value].turn + 1)]
                 else s.engines;
      && (s.current.Some? ==> s.current.value < |s.engines|)
      && LedTo(run, steps, [Replace(next)], run',
               if next then s.(engines := before + [Engine(0, 0, None, None)], current := Some(|s.engines|))
               else s.(engines := before, current := None))
  {
    hide LedTo;
    RunKeeps(run, steps, |run| - 1);
    var s := Last(run);
    var before := if s.current.Some? && s.current.value < |s.engines| then
                 s.engines[s.current.value := s.engines[s.current.value].(turn := s.engines[s.current.value].turn + 1)]
               else s.engines;
    var s' := if next then s.(engines := before + [Engine(0, 0, None, None)], current := Some(|s.engines|))
              else s.(engines := before, current := None);
    assert Next(s, Replace(next), s');
    run' := First(run, steps, Replace(next), s');
  }
}
