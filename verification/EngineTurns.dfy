/** One engine process passed between analyses by tickets (`engine.rs`), as the steps of the
    threads that analyse, warm up, reap and follow the settings. */
module EngineTurns {
  import opened Wrappers

  /** A client's view. */
  type View = nat

  /** A process in an engine's slot, and the analysis that searches on it. */
  datatype Process = Process(id: nat, search: Option<nat>)

  /** `Inner`: an engine as it was configured. */
  datatype Engine = Engine(turn: nat, newest: View, lock: Option<nat>, slot: Option<Process>)

  /** Where a thread is. */
  datatype Phase =
    | Idle
    | Has(g: nat, view: View)                                   // analyze: has the engine `g`
    | Named(g: nat, view: View)                                 // its view is the newest
    | Waits(g: nat, view: View, ticket: nat)                    // for the slot
    | Holds(g: nat, view: View, ticket: nat)                    // the slot; the turn not looked at yet
    | Turn(g: nat, view: View, ticket: nat)                     // it is its turn
    | Ready(g: nat, view: View, ticket: nat)                    // with a process
    | Searches(g: nat, view: View, ticket: nat)
    | Ends(g: nat, view: View, ticket: nat, lost: bool)         // superseded, before it tells its client
    | Warms(g: nat)

  /** All engines so far and the one now; `processes` counts those started. */
  datatype State = State(engines: seq<Engine>, current: Option<nat>, threads: seq<Phase>, processes: nat)

  datatype Step =
    | Begin(t: nat, view: View)
    | Name(t: nat)
    | Ticket(t: nat)
    | Lock(t: nat)
    | Check(t: nat)
    | Start(t: nat, dead: bool, ok: bool)
    | Go(t: nat, ok: bool)
    | Best(t: nat)
    | Crash(t: nat)
    | Gone(t: nat, stops: bool)
    | SeeTurn(t: nat, stops: bool)
    | Tell(t: nat, told: bool)
    | WarmLock(t: nat)
    | WarmEnd(t: nat, dead: bool, ok: bool)
    | Reap(g: nat)
    | Replace(next: bool)

  // ---------------------------------------------------------------- the steps

  predicate Is(s: State, t: nat, phase: Phase) {
    t < |s.threads| && s.threads[t] == phase
  }

  function Put(s: State, t: nat, phase: Phase): State
    requires t < |s.threads|
  {
    s.(threads := s.threads[t := phase])
  }

  function Set(s: State, g: nat, e: Engine): State
    requires g < |s.engines|
  {
    s.(engines := s.engines[g := e])
  }

  /** The slot's guard goes, with what it leaves in the slot. */
  function Frees(s: State, g: nat, slot: Option<Process>): State
    requires g < |s.engines|
  {
    Set(s, g, s.engines[g].(lock := None, slot := slot))
  }

  /** A new process in the slot. */
  function Fresh(s: State, g: nat): State
    requires g < |s.engines|
  {
    Set(s, g, s.engines[g].(slot := Some(Process(s.processes, None)))).(processes := s.processes + 1)
  }

  predicate Searching(s: State, t: nat) {
    && t < |s.threads| && s.threads[t].Searches? && s.threads[t].g < |s.engines|
    && s.engines[s.threads[t].g].slot.Some?
  }

  function Stopped(s: State, t: nat): Option<Process>
    requires Searching(s, t)
  {
    Some(s.engines[s.threads[t].g].slot.value.(search := None))
  }

  predicate CanBegin(s: State, t: nat, view: View) {
    Is(s, t, Idle) && s.current.Some?
  }

  /** `current`: the engine as it is now. */
  function BeginStep(s: State, t: nat, view: View): State
    requires CanBegin(s, t, view)
  {
    Put(s, t, Has(s.current.value, view))
  }

  predicate CanName(s: State, t: nat) {
    t < |s.threads| && s.threads[t].Has? && s.threads[t].g < |s.engines|
  }

  /** The view first. */
  function NameStep(s: State, t: nat): State
    requires CanName(s, t)
  {
    var p := s.threads[t];
    Set(Put(s, t, Named(p.g, p.view)), p.g, s.engines[p.g].(newest := p.view))
  }

  predicate CanTicket(s: State, t: nat) {
    t < |s.threads| && s.threads[t].Named? && s.threads[t].g < |s.engines|
  }

  function TicketStep(s: State, t: nat): State
    requires CanTicket(s, t)
  {
    var p := s.threads[t];
    var turn := s.engines[p.g].turn + 1;
    Set(Put(s, t, Waits(p.g, p.view, turn)), p.g, s.engines[p.g].(turn := turn))
  }

  predicate CanLock(s: State, t: nat) {
    t < |s.threads| && s.threads[t].Waits? && s.threads[t].g < |s.engines| && s.engines[s.threads[t].g].lock == None
  }

  function LockStep(s: State, t: nat): State
    requires CanLock(s, t)
  {
    var p := s.threads[t];
    Set(Put(s, t, Holds(p.g, p.view, p.ticket)), p.g, s.engines[p.g].(lock := Some(t)))
  }

  predicate CanCheck(s: State, t: nat) {
    t < |s.threads| && s.threads[t].Holds? && s.threads[t].g < |s.engines|
  }

  /** A newer ticket ends it before it has run. */
  function CheckStep(s: State, t: nat): State
    requires CanCheck(s, t)
  {
    var p := s.threads[t];
    Put(s, t, if s.engines[p.g].turn != p.ticket then Ends(p.g, p.view, p.ticket, false)
              else Turn(p.g, p.view, p.ticket))
  }

  predicate CanStart(s: State, t: nat, dead: bool, ok: bool) {
    t < |s.threads| && s.threads[t].Turn? && s.threads[t].g < |s.engines|
  }

  /** `process`: the one there, unless it ended, else a new one when it starts. */
  function StartStep(s: State, t: nat, dead: bool, ok: bool): State
    requires CanStart(s, t, dead, ok)
  {
    var p := s.threads[t];
    if s.engines[p.g].slot.Some? && !dead then Put(s, t, Ready(p.g, p.view, p.ticket))
    else if ok then Fresh(Put(s, t, Ready(p.g, p.view, p.ticket)), p.g)
    else Frees(Put(s, t, Idle), p.g, None)
  }

  predicate CanGo(s: State, t: nat, ok: bool) {
    t < |s.threads| && s.threads[t].Ready? && s.threads[t].g < |s.engines| && s.engines[s.threads[t].g].slot.Some?
  }

  function GoStep(s: State, t: nat, ok: bool): State
    requires CanGo(s, t, ok)
  {
    var p := s.threads[t];
    var e := s.engines[p.g];
    if ok then Set(Put(s, t, Searches(p.g, p.view, p.ticket)), p.g, e.(slot := Some(e.slot.value.(search := Some(t)))))
    else Frees(Put(s, t, Idle), p.g, None)
  }

  predicate CanBest(s: State, t: nat) {
    Searching(s, t)
  }

  function BestStep(s: State, t: nat): State
    requires CanBest(s, t)
  {
    Frees(Put(s, t, Idle), s.threads[t].g, Stopped(s, t))
  }

  predicate CanCrash(s: State, t: nat) {
    Searching(s, t)
  }

  function CrashStep(s: State, t: nat): State
    requires CanCrash(s, t)
  {
    Frees(Put(s, t, Idle), s.threads[t].g, None)
  }

  predicate CanGone(s: State, t: nat, stops: bool) {
    Searching(s, t)
  }

  /** The client left: the search is stopped, or the process is let go. */
  function GoneStep(s: State, t: nat, stops: bool): State
    requires CanGone(s, t, stops)
  {
    Frees(Put(s, t, Idle), s.threads[t].g, if stops then Stopped(s, t) else None)
  }

  predicate CanSeeTurn(s: State, t: nat, stops: bool) {
    Searching(s, t) && s.engines[s.threads[t].g].turn != s.threads[t].ticket
  }

  /** A newer ticket, or another engine: the search is stopped, then its client told. */
  function SeeTurnStep(s: State, t: nat, stops: bool): State
    requires CanSeeTurn(s, t, stops)
  {
    var p := s.threads[t];
    Set(Put(s, t, Ends(p.g, p.view, p.ticket, !stops)), p.g,
        s.engines[p.g].(slot := if stops then Stopped(s, t) else s.engines[p.g].slot))
  }

  predicate CanTell(s: State, t: nat, told: bool) {
    && t < |s.threads| && s.threads[t].Ends? && s.threads[t].g < |s.engines|
    && told == (s.engines[s.threads[t].g].newest != s.threads[t].view)
  }

  /** `superseded`: the client is told unless its own view's is the newest analysis; then the
      slot is let go. */
  function TellStep(s: State, t: nat, told: bool): State
    requires CanTell(s, t, told)
  {
    var p := s.threads[t];
    Frees(Put(s, t, Idle), p.g, if p.lost then None else s.engines[p.g].slot)
  }

  predicate CanWarmLock(s: State, t: nat) {
    Is(s, t, Idle) && s.current.Some? && s.current.value < |s.engines| && s.engines[s.current.value].lock == None
  }

  /** A warm-up takes the slot only when no analysis has it. */
  function WarmLockStep(s: State, t: nat): State
    requires CanWarmLock(s, t)
  {
    Set(Put(s, t, Warms(s.current.value)), s.current.value, s.engines[s.current.value].(lock := Some(t)))
  }

  predicate CanWarmEnd(s: State, t: nat, dead: bool, ok: bool) {
    t < |s.threads| && s.threads[t].Warms? && s.threads[t].g < |s.engines|
  }

  function WarmEndStep(s: State, t: nat, dead: bool, ok: bool): State
    requires CanWarmEnd(s, t, dead, ok)
  {
    var g := s.threads[t].g;
    if !ok then Frees(Put(s, t, Idle), g, None)
    else if s.engines[g].slot.Some? && !dead then Frees(Put(s, t, Idle), g, s.engines[g].slot)
    else
      var s' := Fresh(Put(s, t, Idle), g);
      Frees(s', g, s'.engines[g].slot)
  }

  predicate CanReap(s: State, g: nat) {
    g < |s.engines| && s.engines[g].lock == None
  }

  /** A process idle for long is ended. */
  function ReapStep(s: State, g: nat): State
    requires CanReap(s, g)
  {
    Set(s, g, s.engines[g].(slot := None))
  }

  predicate CanReplace(s: State, next: bool) {
    s.current.Some? ==> s.current.value < |s.engines|
  }

  /** The settings name another engine, or none: the old one's search is to stop. */
  function ReplaceStep(s: State, next: bool): State
    requires CanReplace(s, next)
  {
    var s' := if s.current.Some? then
      Set(s, s.current.value, s.engines[s.current.value].(turn := s.engines[s.current.value].turn + 1)) else s;
    if next then s'.(engines := s'.engines + [Engine(0, 0, None, None)], current := Some(|s'.engines|))
    else s'.(current := None)
  }

  predicate Next(s: State, step: Step, s': State) {
    match step
    case Begin(t, view) => CanBegin(s, t, view) && s' == BeginStep(s, t, view)
    case Name(t) => CanName(s, t) && s' == NameStep(s, t)
    case Ticket(t) => CanTicket(s, t) && s' == TicketStep(s, t)
    case Lock(t) => CanLock(s, t) && s' == LockStep(s, t)
    case Check(t) => CanCheck(s, t) && s' == CheckStep(s, t)
    case Start(t, dead, ok) => CanStart(s, t, dead, ok) && s' == StartStep(s, t, dead, ok)
    case Go(t, ok) => CanGo(s, t, ok) && s' == GoStep(s, t, ok)
    case Best(t) => CanBest(s, t) && s' == BestStep(s, t)
    case Crash(t) => CanCrash(s, t) && s' == CrashStep(s, t)
    case Gone(t, stops) => CanGone(s, t, stops) && s' == GoneStep(s, t, stops)
    case SeeTurn(t, stops) => CanSeeTurn(s, t, stops) && s' == SeeTurnStep(s, t, stops)
    case Tell(t, told) => CanTell(s, t, told) && s' == TellStep(s, t, told)
    case WarmLock(t) => CanWarmLock(s, t) && s' == WarmLockStep(s, t)
    case WarmEnd(t, dead, ok) => CanWarmEnd(s, t, dead, ok) && s' == WarmEndStep(s, t, dead, ok)
    case Reap(g) => CanReap(s, g) && s' == ReapStep(s, g)
    case Replace(next) => CanReplace(s, next) && s' == ReplaceStep(s, next)
  }

  predicate Initial(s: State) {
    s.engines == [] && s.current == None && forall t :: 0 <= t < |s.threads| ==> s.threads[t] == Idle
  }

  predicate IsRun(run: seq<State>, steps: seq<Step>) {
    && |run| == |steps| + 1 && Initial(run[0])
    && forall i :: 0 <= i < |steps| ==> Next(run[i], steps[i], run[i + 1])
  }

  // ---------------------------------------------------------------- what every step keeps

  predicate HoldsSlot(p: Phase) {
    p.Holds? || p.Turn? || p.Ready? || p.Searches? || p.Ends? || p.Warms?
  }

  predicate HasTicket(p: Phase) {
    p.Waits? || p.Holds? || p.Turn? || p.Ready? || p.Searches? || p.Ends?
  }

  ghost predicate ThreadOk(s: State, t: nat)
    requires t < |s.threads|
  {
    var p := s.threads[t];
    && (!p.Idle? ==> p.g < |s.engines|)
    && (HoldsSlot(p) ==> s.engines[p.g].lock == Some(t))
    && (HasTicket(p) ==> p.ticket <= s.engines[p.g].turn)
    && (p.Ready? ==> s.engines[p.g].slot.Some?)
    && (p.Searches? ==> s.engines[p.g].slot.Some? && s.engines[p.g].slot.value.search == Some(t))
  }

  ghost predicate EngineOk(s: State, g: nat)
    requires g < |s.engines|
  {
    var e := s.engines[g];
    && (e.lock.Some? ==>
          e.lock.value < |s.threads| && HoldsSlot(s.threads[e.lock.value]) && s.threads[e.lock.value].g == g)
    && (e.slot.Some? ==> e.slot.value.id < s.processes)
    && (e.slot.Some? && e.slot.value.search.Some? ==>
          e.lock == e.slot.value.search && e.lock.value < |s.threads|
          && (s.threads[e.lock.value].Searches? || (s.threads[e.lock.value].Ends? && s.threads[e.lock.value].lost)))
  }

  ghost predicate Apart(s: State) {
    forall g, h :: 0 <= g < h < |s.engines| && s.engines[g].slot.Some? && s.engines[h].slot.Some? ==>
      s.engines[g].slot.value.id != s.engines[h].slot.value.id
  }

  ghost predicate Inv(s: State) {
    && (s.current.Some? ==> s.current.value < |s.engines|) && Apart(s)
    && (forall t {:trigger ThreadOk(s, t)} :: 0 <= t < |s.threads| ==> ThreadOk(s, t))
    && (forall g {:trigger EngineOk(s, g)} :: 0 <= g < |s.engines| ==> EngineOk(s, g))
  }

  lemma IdsBelow(s: State)
    requires Inv(s)
    ensures forall g :: 0 <= g < |s.engines| && s.engines[g].slot.Some? ==> s.engines[g].slot.value.id < s.processes
  {
    forall g | 0 <= g < |s.engines| && s.engines[g].slot.Some? ensures s.engines[g].slot.value.id < s.processes {
      assert EngineOk(s, g);
    }
  }

  /** An analysis comes and takes its ticket. */
  lemma ComeKeeps(s: State, step: Step, s': State)
    requires Inv(s) && Next(s, step, s')
    requires step.Begin? || step.Name? || step.Ticket?
    ensures Inv(s')
  {
    assert ThreadOk(s, step.t);
    assert s.threads[step.t].Idle? || EngineOk(s, s.threads[step.t].g);
    assert s.current.Some? ==> EngineOk(s, s.current.value);
    forall u | 0 <= u < |s'.threads| ensures ThreadOk(s', u) {
      assert ThreadOk(s, u);
    }
    forall h | 0 <= h < |s'.engines| ensures EngineOk(s', h) {
      assert EngineOk(s, h);
    }
  }

  /** It takes the slot and looks at the turn; a warm-up takes the slot. */
  lemma LockKeeps(s: State, step: Step, s': State)
    requires Inv(s) && Next(s, step, s')
    requires step.Lock? || step.Check? || step.WarmLock?
    ensures Inv(s')
  {
    assert ThreadOk(s, step.t);
    assert s.threads[step.t].Idle? || EngineOk(s, s.threads[step.t].g);
    assert s.current.Some? ==> EngineOk(s, s.current.value);
    forall u | 0 <= u < |s'.threads| ensures ThreadOk(s', u) {
      assert ThreadOk(s, u);
    }
    forall h | 0 <= h < |s'.engines| ensures EngineOk(s', h) {
      assert EngineOk(s, h);
    }
  }

  /** A process starts or is there. */
  lemma StartKeeps(s: State, step: Step, s': State)
    requires Inv(s) && Next(s, step, s')
    requires step.Start?
    ensures Inv(s')
  {
    hide BeginStep, NameStep, TicketStep, LockStep, CheckStep, GoStep;
    hide BestStep, CrashStep, GoneStep, SeeTurnStep, TellStep;
    hide WarmLockStep, WarmEndStep, ReapStep, ReplaceStep;
    IdsBelow(s);
    assert ThreadOk(s, step.t);
    assert s.threads[step.t].Idle? || EngineOk(s, s.threads[step.t].g);
    assert s.current.Some? ==> EngineOk(s, s.current.value);
    forall u | 0 <= u < |s'.threads| ensures ThreadOk(s', u) {
      assert ThreadOk(s, u);
    }
    forall h | 0 <= h < |s'.engines| ensures EngineOk(s', h) {
      assert EngineOk(s, h);
    }
  }

  /** A search begins, or sees its turn past; its client is told. */
  lemma SearchKeeps(s: State, step: Step, s': State)
    requires Inv(s) && Next(s, step, s')
    requires step.Go? || step.SeeTurn? || step.Tell?
    ensures Inv(s')
  {
    assert ThreadOk(s, step.t);
    assert s.threads[step.t].Idle? || EngineOk(s, s.threads[step.t].g);
    assert s.current.Some? ==> EngineOk(s, s.current.value);
    forall u | 0 <= u < |s'.threads| ensures ThreadOk(s', u) {
      assert ThreadOk(s, u);
    }
    forall h | 0 <= h < |s'.engines| ensures EngineOk(s', h) {
      assert EngineOk(s, h);
    }
  }

  /** A search ends, and the slot is let go. */
  lemma EndKeeps(s: State, step: Step, s': State)
    requires Inv(s) && Next(s, step, s')
    requires step.Best? || step.Crash? || step.Gone?
    ensures Inv(s')
  {
    assert ThreadOk(s, step.t);
    assert s.threads[step.t].Idle? || EngineOk(s, s.threads[step.t].g);
    assert s.current.Some? ==> EngineOk(s, s.current.value);
    forall u | 0 <= u < |s'.threads| ensures ThreadOk(s', u) {
      assert ThreadOk(s, u);
    }
    forall h | 0 <= h < |s'.engines| ensures EngineOk(s', h) {
      assert EngineOk(s, h);
    }
  }

  /** A warm-up ends. */
  lemma WarmEndKeeps(s: State, step: Step, s': State)
    requires Inv(s) && Next(s, step, s')
    requires step.WarmEnd?
    ensures Inv(s')
  {
    IdsBelow(s);
    assert ThreadOk(s, step.t);
    assert s.threads[step.t].Idle? || EngineOk(s, s.threads[step.t].g);
    assert s.current.Some? ==> EngineOk(s, s.current.value);
    forall u | 0 <= u < |s'.threads| ensures ThreadOk(s', u) {
      assert ThreadOk(s, u);
    }
    forall h | 0 <= h < |s'.engines| ensures EngineOk(s', h) {
      assert EngineOk(s, h);
    }
  }

  /** An idle process is ended, or the settings name another engine. */
  lemma EngineKeeps(s: State, step: Step, s': State)
    requires Inv(s) && Next(s, step, s')
    requires step.Reap? || step.Replace?
    ensures Inv(s')
  {
    forall u | 0 <= u < |s'.threads| ensures ThreadOk(s', u) {
      assert ThreadOk(s, u);
    }
    forall h | 0 <= h < |s'.engines| ensures EngineOk(s', h) {
      assert h < |s.engines| ==> EngineOk(s, h);
    }
  }

  lemma StepKeeps(s: State, step: Step, s': State)
    requires Inv(s) && Next(s, step, s')
    ensures Inv(s')
  {
    hide Inv, Next;
    if step.Begin? || step.Name? || step.Ticket? {
      ComeKeeps(s, step, s');
    } else if step.Lock? || step.Check? || step.WarmLock? {
      LockKeeps(s, step, s');
    } else if step.Start? {
      StartKeeps(s, step, s');
    } else if step.Go? || step.SeeTurn? || step.Tell? {
      SearchKeeps(s, step, s');
    } else if step.Best? || step.Crash? || step.Gone? {
      EndKeeps(s, step, s');
    } else if step.WarmEnd? {
      WarmEndKeeps(s, step, s');
    } else {
      EngineKeeps(s, step, s');
    }
  }

  lemma {:induction false} RunKeeps(run: seq<State>, steps: seq<Step>, i: nat)
    requires IsRun(run, steps) && i < |run|
    ensures Inv(run[i])
    decreases i
  {
    hide Inv, Next, Initial;
    if i == 0 {
      InitialKeeps(run[0]);
    } else {
      RunKeeps(run, steps, i - 1);
      StepKeeps(run[i - 1], steps[i - 1], run[i]);
    }
  }

  lemma InitialKeeps(s: State)
    requires Initial(s)
    ensures Inv(s)
  {}

  // ---------------------------------------------------------------- one search a process

  /** No two searches run on one process at once, whatever engines there were. */
  lemma OneSearch(run: seq<State>, steps: seq<Step>, i: nat, t: nat, u: nat)
    requires IsRun(run, steps) && i < |run| && Searching(run[i], t) && Searching(run[i], u)
    requires var (s, g, h) := (run[i], run[i].threads[t].g, run[i].threads[u].g);
      s.engines[g].slot.value.id == s.engines[h].slot.value.id
    ensures t == u
  {
    RunKeeps(run, steps, i);
    assert ThreadOk(run[i], t) && ThreadOk(run[i], u);
  }

  /** A slot nobody holds is empty or holds a process that searches for none. */
  lemma SlotLeftIdle(run: seq<State>, steps: seq<Step>, i: nat, g: nat)
    requires IsRun(run, steps) && i < |run| && g < |run[i].engines| && run[i].engines[g].lock == None
    ensures run[i].engines[g].slot.Some? ==> run[i].engines[g].slot.value.search == None
  {
    RunKeeps(run, steps, i);
    assert EngineOk(run[i], g);
  }

  // ---------------------------------------------------------------- what a newer ticket ends

  /** An analysis of engine `g` takes its ticket. */
  predicate Tickets(s: State, step: Step, g: nat) {
    step.Ticket? && step.t < |s.threads| && s.threads[step.t].Named? && s.threads[step.t].g == g
  }

  predicate Replaces(s: State, step: Step, g: nat) {
    step.Replace? && s.current == Some(g)
  }

  /** What moves an engine's turn: a later analysis of it, or its replacement. */
  predicate Moves(s: State, step: Step, g: nat) {
    Tickets(s, step, g) || Replaces(s, step, g)
  }

  lemma TurnMoves(s: State, step: Step, s': State, g: nat)
    requires Next(s, step, s') && g < |s.engines|
    ensures g < |s'.engines| && s'.engines[g].turn == s.engines[g].turn + (if Moves(s, step, g) then 1 else 0)
  {}

  lemma {:induction false} TurnGrows(run: seq<State>, steps: seq<Step>, i: nat, j: nat, g: nat)
    requires IsRun(run, steps) && i <= j < |run| && g < |run[i].engines|
    ensures g < |run[j].engines| && run[i].engines[g].turn <= run[j].engines[g].turn
    ensures run[i].engines[g].turn < run[j].engines[g].turn <==> exists k :: i <= k < j && Moves(run[k], steps[k], g)
    decreases j
  {
    hide Next, Initial, Moves;
    if i < j {
      TurnGrows(run, steps, i, j - 1, g);
      TurnMoves(run[j - 1], steps[j - 1], run[j], g);
    }
  }

  lemma TicketKept(s: State, step: Step, s': State, t: nat)
    requires Next(s, step, s') && t < |s'.threads| && HasTicket(s'.threads[t])
    ensures t < |s.threads|
    ensures step != Ticket(t) ==> HasTicket(s.threads[t])
    ensures step != Ticket(t) ==> s.threads[t].g == s'.threads[t].g && s.threads[t].ticket == s'.threads[t].ticket
    ensures step == Ticket(t) ==> s'.threads[t].g < |s'.engines|
    ensures step == Ticket(t) ==> s'.threads[t].ticket == s'.engines[s'.threads[t].g].turn
  {}

  /** A ticket is the turn after the step that took it. */
  lemma {:induction false} TicketFrom(run: seq<State>, steps: seq<Step>, j: nat, t: nat) returns (i: nat)
    requires IsRun(run, steps) && j < |run| && t < |run[j].threads| && HasTicket(run[j].threads[t])
    ensures i < j && steps[i] == Ticket(t) && (forall k :: i < k < j ==> steps[k] != Ticket(t))
    ensures run[j].threads[t].g < |run[i + 1].engines|
    ensures run[j].threads[t].ticket == run[i + 1].engines[run[j].threads[t].g].turn
    decreases j
  {
    hide Next, HasTicket;
    NoTickets(run[0], t);
    i := 0;
    if j > 0 {
      TicketKept(run[j - 1], steps[j - 1], run[j], t);
      if steps[j - 1] == Ticket(t) {
        i := j - 1;
      } else {
        i := TicketFrom(run, steps, j - 1, t);
      }
    }
  }

  lemma NoTickets(s: State, t: nat)
    requires Initial(s)
    ensures t < |s.threads| ==> !HasTicket(s.threads[t])
  {}

  /** An analysis finds its turn past exactly when a later one of its engine took a ticket
      since it took its own, or its engine was replaced since. */
  lemma SupersededBy(run: seq<State>, steps: seq<Step>, j: nat, t: nat) returns (i: nat)
    requires IsRun(run, steps) && j < |run| && t < |run[j].threads| && HasTicket(run[j].threads[t])
    ensures i < j && steps[i] == Ticket(t) && (forall k :: i < k < j ==> steps[k] != Ticket(t))
    ensures run[j].threads[t].g < |run[j].engines|
    ensures run[j].engines[run[j].threads[t].g].turn != run[j].threads[t].ticket
      <==> exists k :: i + 1 <= k < j && Moves(run[k], steps[k], run[j].threads[t].g)
  {
    hide Next, Initial, Moves;
    i := TicketFrom(run, steps, j, t);
    var p := run[j].threads[t];
    TurnGrows(run, steps, i + 1, j, p.g);
    assert run[j].engines[p.g].turn != p.ticket <==> run[i + 1].engines[p.g].turn < run[j].engines[p.g].turn;
  }

  /** An analysis is superseded, before or in its search, only so. */
  lemma EndsOnlySuperseded(run: seq<State>, steps: seq<Step>, j: nat, t: nat) returns (i: nat)
    requires IsRun(run, steps) && j < |steps| && t < |run[j].threads| && HasTicket(run[j].threads[t])
    requires t < |run[j + 1].threads| && run[j + 1].threads[t].Ends? && !run[j].threads[t].Ends?
    ensures i < j && steps[i] == Ticket(t)
    ensures exists k :: i + 1 <= k < j && Moves(run[k], steps[k], run[j].threads[t].g)
  {
    i := SupersededBy(run, steps, j, t);
    assert Next(run[j], steps[j], run[j + 1]);
  }

  // ---------------------------------------------------------------- which client is told

  predicate HasView(p: Phase) {
    p.Named? || HasTicket(p)
  }

  /** An analysis comes to engine `g`. */
  predicate Comes(s: State, step: Step, g: nat) {
    step.Name? && step.t < |s.threads| && s.threads[step.t].Has? && s.threads[step.t].g == g
  }

  lemma ViewKept(s: State, step: Step, s': State, t: nat)
    requires Next(s, step, s') && t < |s'.threads| && HasView(s'.threads[t])
    ensures t < |s.threads| && !s.threads[t].Idle? && !s.threads[t].Warms?
    ensures s.threads[t].g == s'.threads[t].g && s.threads[t].view == s'.threads[t].view
    ensures if step == Name(t) then Comes(s, step, s'.threads[t].g) else HasView(s.threads[t])
  {}

  /** An analysis that has said its view came to its engine at the step that said it. */
  lemma {:induction false} NameFrom(run: seq<State>, steps: seq<Step>, j: nat, t: nat) returns (i: nat)
    requires IsRun(run, steps) && j < |run| && t < |run[j].threads| && HasView(run[j].threads[t])
    ensures i < j && steps[i] == Name(t) && (forall k :: i < k < j ==> steps[k] != Name(t))
    ensures Comes(run[i], steps[i], run[j].threads[t].g) && run[i].threads[t].view == run[j].threads[t].view
    decreases j
  {
    hide Next, HasView, Comes;
    NoViews(run[0], t);
    i := 0;
    if j > 0 {
      ViewKept(run[j - 1], steps[j - 1], run[j], t);
      if steps[j - 1] == Name(t) {
        i := j - 1;
      } else {
        i := NameFrom(run, steps, j - 1, t);
      }
    }
  }

  lemma NoViews(s: State, t: nat)
    requires Initial(s)
    ensures t < |s.threads| ==> !HasView(s.threads[t])
  {}

  lemma NewestChanges(s: State, step: Step, s': State, g: nat)
    requires Next(s, step, s')
    ensures Comes(s, step, g) ==> g < |s'.engines| && s'.engines[g].newest == s.threads[step.t].view
    ensures g < |s.engines| && !Comes(s, step, g) ==> g < |s'.engines| && s'.engines[g].newest == s.engines[g].newest
  {}

  /** The newest view of an engine is that of the last analysis that came to it. */
  lemma {:induction false} NewestIsLast(run: seq<State>, steps: seq<Step>, i: nat, j: nat, g: nat) returns (k: nat)
    requires IsRun(run, steps) && i < j < |run| && Comes(run[i], steps[i], g)
    ensures i <= k < j && Comes(run[k], steps[k], g) && (forall m :: k < m < j ==> !Comes(run[m], steps[m], g))
    ensures g < |run[j].engines| && run[j].engines[g].newest == run[k].threads[steps[k].t].view
    decreases j
  {
    hide Next, Initial, Comes;
    NewestChanges(run[j - 1], steps[j - 1], run[j], g);
    if Comes(run[j - 1], steps[j - 1], g) {
      k := j - 1;
    } else {
      k := NewestIsLast(run, steps, i, j - 1, g);
    }
  }

  /** A client whose analysis ends before its time is told so exactly when the last analysis
      to come to the engine since its own came, `k`, is of another view: after one of its own
      view, or for a new engine alone, it ends without a line. */
  lemma ToldExactly(run: seq<State>, steps: seq<Step>, j: nat) returns (i: nat, k: nat)
    requires IsRun(run, steps) && j < |steps| && steps[j].Tell?
    ensures var t := steps[j].t;
      && i <= k < j && steps[i] == Name(t) && (forall m :: i < m < j ==> steps[m] != Name(t))
      && t < |run[j].threads| && run[j].threads[t].Ends?
    ensures var p := run[j].threads[steps[j].t];
      && Comes(run[k], steps[k], p.g) && (forall m :: k < m < j ==> !Comes(run[m], steps[m], p.g))
      && (steps[j].told <==> run[k].threads[steps[k].t].view != p.view)
    ensures steps[j].told ==> i < k
  {
    hide Initial;
    assert Next(run[j], steps[j], run[j + 1]);
    var t := steps[j].t;
    i := NameFrom(run, steps, j, t);
    k := NewestIsLast(run, steps, i, j, run[j].threads[t].g);
  }

  function Both(turn: nat, newest: View, lock: Option<nat>, p: Phase, q: Phase): State {
    State([Engine(turn, newest, lock, None)], Some(0), [p, q], 0)
  }

  lemma UntoldBegins()
    ensures Next(State([], None, [Idle, Idle], 0), Replace(true), Both(0, 0, None, Idle, Idle))
    ensures Next(Both(0, 0, None, Idle, Idle), Begin(0, 1), Both(0, 0, None, Has(0, 1), Idle))
    ensures Next(Both(0, 0, None, Has(0, 1), Idle), Begin(1, 2), Both(0, 0, None, Has(0, 1), Has(0, 2)))
  {
    assert [] + [Engine(0, 0, None, None)] == [Engine(0, 0, None, None)];
  }

  lemma UntoldNames()
    ensures Next(Both(0, 0, None, Has(0, 1), Has(0, 2)), Name(1), Both(0, 2, None, Has(0, 1), Named(0, 2)))
    ensures Next(Both(0, 2, None, Has(0, 1), Named(0, 2)), Name(0), Both(0, 1, None, Named(0, 1), Named(0, 2)))
    ensures Next(Both(0, 1, None, Named(0, 1), Named(0, 2)), Ticket(0), Both(1, 1, None, Waits(0, 1, 1), Named(0, 2)))
    ensures Next(Both(1, 1, None, Waits(0, 1, 1), Named(0, 2)), Ticket(1),
                 Both(2, 1, None, Waits(0, 1, 1), Waits(0, 2, 2)))
  {}

  lemma UntoldEnds()
    ensures Next(Both(2, 1, None, Waits(0, 1, 1), Waits(0, 2, 2)), Lock(0),
                 Both(2, 1, Some(0), Holds(0, 1, 1), Waits(0, 2, 2)))
    ensures Next(Both(2, 1, Some(0), Holds(0, 1, 1), Waits(0, 2, 2)), Check(0),
                 Both(2, 1, Some(0), Ends(0, 1, 1, false), Waits(0, 2, 2)))
    ensures Next(Both(2, 1, Some(0), Ends(0, 1, 1, false), Waits(0, 2, 2)), Tell(0, false),
                 Both(2, 1, None, Idle, Waits(0, 2, 2)))
  {}

  /** An analysis ended by the ticket of one of another view whose client is not told so: the
      other said its view before this one did, and took its ticket after. */
  lemma UntoldRun() returns (run: seq<State>, steps: seq<Step>)
    ensures IsRun(run, steps) && |steps| == 10 && steps[7] == Lock(0) && steps[9] == Tell(0, false)
    ensures steps[5] == Ticket(0) && steps[6] == Ticket(1) && run[7].threads == [Waits(0, 1, 1), Waits(0, 2, 2)]
  {
    hide Next;
    UntoldBegins();
    UntoldNames();
    UntoldEnds();
    run := [
      State([], None, [Idle, Idle], 0), Both(0, 0, None, Idle, Idle), Both(0, 0, None, Has(0, 1), Idle),
      Both(0, 0, None, Has(0, 1), Has(0, 2)), Both(0, 2, None, Has(0, 1), Named(0, 2)),
      Both(0, 1, None, Named(0, 1), Named(0, 2)), Both(1, 1, None, Waits(0, 1, 1), Named(0, 2)),
      Both(2, 1, None, Waits(0, 1, 1), Waits(0, 2, 2)), Both(2, 1, Some(0), Holds(0, 1, 1), Waits(0, 2, 2)),
      Both(2, 1, Some(0), Ends(0, 1, 1, false), Waits(0, 2, 2)), Both(2, 1, None, Idle, Waits(0, 2, 2))];
    steps := [Replace(true), Begin(0, 1), Begin(1, 2), Name(1), Name(0), Ticket(0), Ticket(1), Lock(0), Check(0),
              Tell(0, false)];
  }

  // ---------------------------------------------------------------- a replaced engine

  lemma CurrentChanges(s: State, step: Step, s': State, g: nat)
    requires Next(s, step, s')
    ensures g < |s.engines| ==> g < |s'.engines| && (s'.current == Some(g) <==> s.current == Some(g) && !step.Replace?)
    ensures g >= |s.engines| && g < |s'.engines| ==> s'.current == Some(g)
  {}

  /** An engine that is not the one now was replaced. */
  lemma {:induction false} WasReplaced(run: seq<State>, steps: seq<Step>, j: nat, g: nat) returns (r: nat)
    requires IsRun(run, steps) && j < |run| && g < |run[j].engines| && run[j].current != Some(g)
    ensures r < j && Replaces(run[r], steps[r], g)
    decreases j
  {
    hide Next;
    r := 0;
    if j > 0 {
      CurrentChanges(run[j - 1], steps[j - 1], run[j], g);
      if g < |run[j - 1].engines| && run[j - 1].current == Some(g) {
        r := j - 1;
      } else {
        r := WasReplaced(run, steps, j - 1, g);
      }
    }
  }

  /** It is not the one again. */
  lemma {:induction false} NeverAgain(run: seq<State>, steps: seq<Step>, r: nat, j: nat, g: nat)
    requires IsRun(run, steps) && r < j < |run| && g < |run[r].engines| && Replaces(run[r], steps[r], g)
    ensures g < |run[j].engines| && run[j].current != Some(g)
    decreases j
  {
    hide Next, Initial;
    CurrentChanges(run[j - 1], steps[j - 1], run[j], g);
    if r < j - 1 {
      NeverAgain(run, steps, r, j - 1, g);
    }
  }

  /** An analysis of an engine that is no longer the one now finds its turn unmoved, and so
      searches on, exactly when it took its ticket after the engine was replaced and no other
      analysis of the engine took one since. */
  lemma StaleExactly(run: seq<State>, steps: seq<Step>, j: nat, t: nat) returns (i: nat)
    requires IsRun(run, steps) && j < |run| && t < |run[j].threads| && HasTicket(run[j].threads[t])
    requires run[j].current != Some(run[j].threads[t].g)
    ensures i < j && steps[i] == Ticket(t) && (forall k :: i < k < j ==> steps[k] != Ticket(t))
    ensures var p := run[j].threads[t];
      && p.g < |run[j].engines|
      && (run[j].engines[p.g].turn == p.ticket <==>
            && (exists r :: 0 <= r < i && Replaces(run[r], steps[r], p.g))
            && !exists k :: i < k < j && Tickets(run[k], steps[k], p.g))
  {
    hide Next, Initial;
    var g := run[j].threads[t].g;
    i := SupersededBy(run, steps, j, t);
    var r := WasReplaced(run, steps, j, g);
    RunKeeps(run, steps, r);
    if r < i {
      forall k | i < k < j ensures Moves(run[k], steps[k], g) <==> Tickets(run[k], steps[k], g) {
        NeverAgain(run, steps, r, k, g);
      }
      assert Replaces(run[r], steps[r], g);
    } else {
      assert Moves(run[r], steps[r], g);
      forall k | 0 <= k < i ensures !Replaces(run[k], steps[k], g) {
        if Replaces(run[k], steps[k], g) {
          RunKeeps(run, steps, k);
          NeverAgain(run, steps, k, r, g);
        }
      }
    }
  }

  function Two(g: nat, turn: nat, lock: Option<nat>, slot: Option<Process>,
               current: Option<nat>, p: Phase, n: nat): State {
    State([Engine(turn, 1, lock, slot)], current, [p], n)
  }

  lemma StaleBegins()
    ensures Next(State([], None, [Idle], 0), Replace(true), State([Engine(0, 0, None, None)], Some(0), [Idle], 0))
    ensures Next(State([Engine(0, 0, None, None)], Some(0), [Idle], 0), Begin(0, 1),
                 State([Engine(0, 0, None, None)], Some(0), [Has(0, 1)], 0))
    ensures Next(State([Engine(0, 0, None, None)], Some(0), [Has(0, 1)], 0), Name(0),
                 Two(0, 0, None, None, Some(0), Named(0, 1), 0))
    ensures Next(Two(0, 0, None, None, Some(0), Named(0, 1), 0), Replace(false),
                 Two(0, 1, None, None, None, Named(0, 1), 0))
  {
    assert [] + [Engine(0, 0, None, None)] == [Engine(0, 0, None, None)];
  }

  lemma StaleGoesOn()
    ensures Next(Two(0, 1, None, None, None, Named(0, 1), 0), Ticket(0), Two(0, 2, None, None, None, Waits(0, 1, 2), 0))
    ensures Next(Two(0, 2, None, None, None, Waits(0, 1, 2), 0), Lock(0),
                 Two(0, 2, Some(0), None, None, Holds(0, 1, 2), 0))
    ensures Next(Two(0, 2, Some(0), None, None, Holds(0, 1, 2), 0), Check(0),
                 Two(0, 2, Some(0), None, None, Turn(0, 1, 2), 0))
  {}

  lemma StaleSearches()
    ensures Next(Two(0, 2, Some(0), None, None, Turn(0, 1, 2), 0), Start(0, false, true),
                 Two(0, 2, Some(0), Some(Process(0, None)), None, Ready(0, 1, 2), 1))
    ensures Next(Two(0, 2, Some(0), Some(Process(0, None)), None, Ready(0, 1, 2), 1), Go(0, true),
                 Two(0, 2, Some(0), Some(Process(0, Some(0))), None, Searches(0, 1, 2), 1))
  {}

  /** An analysis that has its engine when it is replaced, and takes its ticket after, searches
      on it though the settings name no engine: nothing stops it but the next analysis of that
      engine, and there is none. */
  lemma StaleSearch() returns (run: seq<State>, steps: seq<Step>)
    ensures IsRun(run, steps) && |steps| == 9 && Searching(run[9], 0) && run[9].current == None
    ensures run[9].engines[0].turn == run[9].threads[0].ticket
  {
    hide Next;
    StaleBegins();
    StaleGoesOn();
    StaleSearches();
    run := [
      State([], None, [Idle], 0), State([Engine(0, 0, None, None)], Some(0), [Idle], 0),
      State([Engine(0, 0, None, None)], Some(0), [Has(0, 1)], 0), Two(0, 0, None, None, Some(0), Named(0, 1), 0),
      Two(0, 1, None, None, None, Named(0, 1), 0), Two(0, 2, None, None, None, Waits(0, 1, 2), 0),
      Two(0, 2, Some(0), None, None, Holds(0, 1, 2), 0), Two(0, 2, Some(0), None, None, Turn(0, 1, 2), 0),
      Two(0, 2, Some(0), Some(Process(0, None)), None, Ready(0, 1, 2), 1),
      Two(0, 2, Some(0), Some(Process(0, Some(0))), None, Searches(0, 1, 2), 1)];
    steps := [Replace(true), Begin(0, 1), Name(0), Replace(false), Ticket(0), Lock(0), Check(0), Start(0, false, true),
              Go(0, true)];
  }
}
