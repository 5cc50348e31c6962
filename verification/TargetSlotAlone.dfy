/** What making a folder right for a worktree leaves in it, in every run, and what one process
    does with the folder when no other is in its way. */
module TargetSlotAlone {
  import opened Wrappers
  import opened TargetSlot

  // ---------------------------------------------------------------- prepare

  /** Process `p` looks at the folder at step `i`, owns it at step `j`, and lives in between. */
  ghost predicate Prepares(run: seq<State>, steps: seq<Step>, i: nat, j: nat, p: Pid) {
    && IsRun(run, steps) && i < j < |steps| && steps[i].Inspect? && steps[i].p == p && steps[j] == Own(p)
    && forall k :: i < k < j ==> steps[k] != Exit(p) && steps[k] != Own(p)
  }

  /** What is to go: everything from a folder too big, nothing from the worktree's own, the
      members' builds from another's when the members and the fingerprints can be read, and else
      everything. */
  predicate MadeRight(s: State, w: Worktree, tooBig: bool, folders: bool, left: map<Package, Worktree>) {
    var (own, known) := (s.owner == Some(w), w in s.members && s.members[w] != {} && folders);
    && (tooBig || (!own && !known) ==> left == map[])
    && (!tooBig && own ==> left == s.builds)
    && (!tooBig && !own && known ==> left == s.builds - s.members[w])
  }

  /** While a process prepares the folder no other changes what is built there. */
  lemma OthersLeaveBuilds(s: State, step: Step, s': State, p: Pid)
    requires Inv(s) && Next(s, step, s') && p in s.processes && AtPrepare(At(s, p)) && step.p != p
    ensures p in s'.processes && At(s', p) == At(s, p) && s'.builds == s.builds && s'.members == s.members
  {
    hide TurnsNext, WritesNext, OpensNext, PassesNext, EnvOk, PlaceOk, BuildsOk, OwnerOk, CanBuild;
    Leaves(s, step, s', 0, p);
    if WritesNext(s, step, s') {
      WritesDo(s, step, s');
      assert OwnOk(s, p) && FreshOk(s, p);
      var f := At(s, p).f;
      LeaseApart(s, step.p, f);
      if step.Remove? || step.Disown? || step.Own? {
        OneFresh(s, step.p, p);
      } else if step.Build? {
        NoBuilder(s, step.p, step.x, p);
      }
    }
  }

  lemma NoBuilder(s: State, q: Pid, x: Package, p: Pid)
    requires p in s.processes && AtPrepare(At(s, p)) && OwnOk(s, p) && FreshOk(s, p) && q != p
    ensures !CanBuild(s, q, x)
  {}

  /** The process itself removes what is doomed, and then all of it is gone. */
  predicate PreparesOn(s: State, step: Step, s': State, p: Pid)
    requires p in s.processes
  {
    && p in s'.processes && s'.members == s.members && At(s, p).Dropping?
    && var a := At(s, p);
       || (step.Remove? && step.x in a.doomed && At(s', p) == a && s'.builds == s.builds - {step.x})
       || (step.Disown? && s.builds.Keys !! a.doomed && At(s', p) == Owning(a.w, a.f, a.t) && s'.builds == s.builds)
  }

  lemma NoTurn(s: State, step: Step, s': State, p: Pid)
    requires p in s.processes && step.p == p && (At(s, p).Dropping? || At(s, p).Owning?)
    ensures !TurnsNext(s, step, s')
  {
    hide LockFree, Doomed, Members, Joinable;
  }

  lemma NoOpening(s: State, step: Step, s': State, p: Pid)
    requires p in s.processes && step.p == p && (At(s, p).Dropping? || At(s, p).Owning?)
    ensures !OpensNext(s, step, s')
  {
    hide LockFree, LockShared, Joinable;
  }

  lemma NoPassing(s: State, step: Step, s': State, p: Pid)
    requires p in s.processes && step.p == p && (At(s, p).Dropping? || At(s, p).Owning?)
    ensures PassesNext(s, step, s') ==> step == Exit(p)
  {
    hide ClosesAll, Inherits;
  }

  lemma PrepareStep(s: State, step: Step, s': State, p: Pid)
    requires Next(s, step, s') && p in s.processes && step.p == p && step != Exit(p) && step != Own(p)
    requires (At(s, p).Dropping? || At(s, p).Owning?) && EnvOk(s, p)
    ensures PreparesOn(s, step, s', p)
  {
    hide TurnsNext, OpensNext, PassesNext, LockFree, LockShared, Doomed, Members, Joinable;
    NoTurn(s, step, s', p);
    NoOpening(s, step, s', p);
    NoPassing(s, step, s', p);
  }

  /** What was there and is not doomed is there, and nothing else. */
  predicate Between(was: map<Package, Worktree>, doomed: set<Package>, now: map<Package, Worktree>) {
    && (forall x <- now :: x in was && now[x] == was[x])
    && (forall x <- was :: x in doomed || x in now)
  }

  lemma EnvAt(s: State, p: Pid)
    requires Inv(s) && p in s.processes
    ensures EnvOk(s, p)
  {}

  lemma {:induction false} PreparesUpTo(run: seq<State>, steps: seq<Step>, i: nat, j: nat, p: Pid, k: nat)
    requires Prepares(run, steps, i, j, p) && i < k <= j
    ensures p in run[i].processes && At(run[i], p).Preparing? && p in run[k].processes
    ensures run[k].members == run[i].members
    ensures var (a, b) := (At(run[i], p), At(run[k], p));
      var doomed := Doomed(run[i], a.w, steps[i].tooBig, steps[i].folders);
      || (b == Dropping(a.w, a.f, a.t, doomed) && Between(run[i].builds, doomed, run[k].builds))
      || (b == Owning(a.w, a.f, a.t) && run[k].builds == run[i].builds - doomed)
    decreases k
  {
    hide Next, Initial, Doomed, Inv;
    Inspects(run[i], steps[i], run[i + 1]);
    if k > i + 1 {
      PreparesUpTo(run, steps, i, j, p, k - 1);
      RunKeeps(run, steps, k - 1);
      if steps[k - 1].p == p {
        EnvAt(run[k - 1], p);
        PrepareStep(run[k - 1], steps[k - 1], run[k], p);
      } else {
        OthersLeaveBuilds(run[k - 1], steps[k - 1], run[k], p);
      }
    }
  }

  lemma Inspects(s: State, step: Step, s': State)
    requires Next(s, step, s') && step.Inspect?
    ensures var p := step.p;
      && p in s.processes && At(s, p).Preparing? && p in s'.processes
      && s'.builds == s.builds && s'.members == s.members
      && var a := At(s, p); At(s', p) == Dropping(a.w, a.f, a.t, Doomed(s, a.w, step.tooBig, step.folders))
  {
    hide LockFree, LockShared, Doomed, Members, Joinable, CanBuild, ClosesAll, Inherits;
  }

  lemma Owns(s: State, p: Pid, s': State)
    requires Next(s, Own(p), s')
    ensures p in s.processes && At(s, p).Owning? && s'.owner == Some(At(s, p).w) && s'.builds == s.builds
  {
    hide LockFree, LockShared, Doomed, Members, Joinable, CanBuild, ClosesAll, Inherits;
  }

  lemma DoomedLeaves(s: State, w: Worktree, tooBig: bool, folders: bool)
    ensures MadeRight(s, w, tooBig, folders, s.builds - Doomed(s, w, tooBig, folders))
  {
    assert s.builds - {} == s.builds;
    assert s.builds - s.builds.Keys == map[];
  }

  /** In every run, whatever other processes do meanwhile, `prepare` makes the folder the worktree's
      and leaves in it exactly what it is to leave. */
  lemma PrepareLeaves(run: seq<State>, steps: seq<Step>, i: nat, j: nat, p: Pid)
    requires Prepares(run, steps, i, j, p)
    ensures p in run[i].processes && At(run[i], p).Preparing?
    ensures var w := At(run[i], p).w;
      && run[j + 1].owner == Some(w)
      && MadeRight(run[i], w, steps[i].tooBig, steps[i].folders, run[j + 1].builds)
  {
    hide Next, Initial, Doomed, MadeRight;
    PreparesUpTo(run, steps, i, j, p, j);
    Owns(run[j], p, run[j + 1]);
    DoomedLeaves(run[i], At(run[i], p).w, steps[i].tooBig, steps[i].folders);
  }

  // ---------------------------------------------------------------- a run that goes on

  function Last(run: seq<State>): State
    requires run != []
  {
    run[|run| - 1]
  }

  /** The run goes on with the steps `taken`, to `s'`. */
  ghost predicate LedTo(run: seq<State>, steps: seq<Step>, taken: seq<Step>, run': seq<State>, s': State) {
    IsRun(run', steps + taken) && run <= run' && run' != [] && Last(run') == s'
  }

  lemma First(run: seq<State>, steps: seq<Step>, step: Step, s': State) returns (run': seq<State>)
    requires IsRun(run, steps) && Next(Last(run), step, s')
    ensures LedTo(run, steps, [step], run', s')
  {
    hide Next, Initial;
    run' := run + [s'];
  }

  lemma Then(run: seq<State>, steps: seq<Step>, taken: seq<Step>, mid: seq<State>, s: State, step: Step, s': State)
      returns (run': seq<State>)
    requires LedTo(run, steps, taken, mid, s) && Next(s, step, s')
    ensures LedTo(run, steps, taken + [step], run', s')
  {
    hide Next, Initial;
    run' := mid + [s'];
    assert steps + (taken + [step]) == steps + taken + [step];
  }

  /** Process `p` at `phase`, without the script's environment. */
  function Put(s: State, p: Pid, phase: Phase): State {
    s.(processes := s.processes[p := Process(NoEnv, phase)])
  }

  lemma PutAgain(s: State, p: Pid, a: Phase, b: Phase)
    ensures Put(s, p, a).processes[p := Process(NoEnv, b)] == s.processes[p := Process(NoEnv, b)]
  {}

  lemma FileAgain(files: map<File, OpenFile>, f: File, a: OpenFile, b: OpenFile)
    ensures files[f := a][f := b] == files[f := b]
    ensures f !in files ==> files[f := a] - {f} == files
  {}

  // ---------------------------------------------------------------- a new lease

  /** A folder that no process holds, whose gate is free, and that can be leased. */
  predicate FreeFor(s: State, p: Pid, w: Worktree) {
    && p in s.processes && s.processes[p] == Process(NoEnv, Start(w)) && s.gate == None && !s.gone
    && (s.private ==> s.tokens == map[]) && LockFree(s)
  }

  function WithGate(s: State, p: Pid, w: Worktree): State {
    Put(s, p, Gated(w)).(gate := Some(p))
  }

  function WithLock(s: State, p: Pid, w: Worktree, f: File): State {
    Put(s, p, Alone(w, f)).(gate := Some(p), files := s.files[f := OpenFile(Exclusive, {p}, None)])
  }

  function WithToken(s: State, p: Pid, w: Worktree, f: File, t: Token): State {
    Put(s, p, Marked(w, f, t)).(gate := Some(p), files := s.files[f := OpenFile(Exclusive, {p}, None)],
                                lease := Some(t), tokens := s.tokens[t := w])
  }

  function BetweenLocks(s: State, p: Pid, w: Worktree, f: File, t: Token): State {
    Put(s, p, Turning(w, f, t)).(gate := Some(p), files := s.files[f := OpenFile(Unlocked, {p}, None)],
                                 lease := Some(t), tokens := s.tokens[t := w])
  }

  /** The lease is the process's, as `phase` has it. */
  function LeasedTo(s: State, p: Pid, w: Worktree, f: File, t: Token, phase: Phase): State {
    Put(s, p, phase).(files := s.files[f := OpenFile(Shared, {p}, Some(t))],
                      lease := Some(t), tokens := s.tokens[t := w])
  }

  lemma AcquireGate(s: State, p: Pid, w: Worktree, f: File)
    requires FreeFor(s, p, w) && f !in s.files
    ensures TurnsNext(s, Gate(p), WithGate(s, p, w))
    ensures OpensNext(WithGate(s, p, w), Take(p, f), WithLock(s, p, w, f))
  {
    hide Doomed, Members;
    PutAgain(s, p, Gated(w), Alone(w, f));
  }

  lemma AcquireMark(s: State, p: Pid, w: Worktree, f: File, t: Token)
    requires FreeFor(s, p, w) && f !in s.files && t !in s.tokens
    ensures WritesNext(WithLock(s, p, w, f), Truncate(p), WithLock(s, p, w, f).(lease := None))
    ensures WritesNext(WithLock(s, p, w, f).(lease := None), Mark(p, t), WithToken(s, p, w, f, t))
  {
    hide Doomed, Members, LockFree;
    PutAgain(s, p, Alone(w, f), Marked(w, f, t));
  }

  lemma AcquireTurn(s: State, p: Pid, w: Worktree, f: File, t: Token)
    requires FreeFor(s, p, w) && f !in s.files && t !in s.tokens
    ensures OpensNext(WithToken(s, p, w, f, t), Drop(p), BetweenLocks(s, p, w, f, t))
    ensures OpensNext(BetweenLocks(s, p, w, f, t), Share(p), LeasedTo(s, p, w, f, t, Leased(w, f, t)).(gate := Some(p)))
  {
    PutAgain(s, p, Marked(w, f, t), Turning(w, f, t));
    PutAgain(s, p, Turning(w, f, t), Leased(w, f, t));
    FileAgain(s.files, f, OpenFile(Exclusive, {p}, None), OpenFile(Unlocked, {p}, None));
    FileAgain(s.files, f, OpenFile(Unlocked, {p}, None), OpenFile(Shared, {p}, Some(t)));
  }

  lemma AcquireEnd(s: State, p: Pid, w: Worktree, f: File, t: Token)
    requires FreeFor(s, p, w) && f !in s.files && t !in s.tokens
    ensures var (a, b) := (Leased(w, f, t), if s.private then Running(w, f, t) else Preparing(w, f, t));
      TurnsNext(LeasedTo(s, p, w, f, t, a).(gate := Some(p)), if s.private then Enter(p) else Ungate(p),
                LeasedTo(s, p, w, f, t, b))
  {
    hide Doomed, Members, LockFree;
    PutAgain(s, p, Leased(w, f, t), Preparing(w, f, t));
    PutAgain(s, p, Leased(w, f, t), Running(w, f, t));
  }

  function AcquireTaken(s: State, p: Pid, f: File, t: Token): seq<Step> {
    [Gate(p), Take(p, f), Truncate(p), Mark(p, t), Drop(p), Share(p), if s.private then Enter(p) else Ungate(p)]
  }

  /** `acquire`: a folder nobody holds is leased, its token drawn and its lock shared; a slot is to be
      prepared next, and a private folder's command to be run. */
  lemma Acquires(run: seq<State>, steps: seq<Step>, p: Pid, w: Worktree, f: File, t: Token) returns (run': seq<State>)
    requires IsRun(run, steps) && FreeFor(Last(run), p, w) && f !in Last(run).files && t !in Last(run).tokens
    ensures var s := Last(run);
      LedTo(run, steps, AcquireTaken(s, p, f, t), run',
            LeasedTo(s, p, w, f, t, if s.private then Running(w, f, t) else Preparing(w, f, t)))
  {
    hide LedTo, TurnsNext, WritesNext, OpensNext, PassesNext, Initial, LockFree;
    var s := Last(run);
    AcquireGate(s, p, w, f);
    AcquireMark(s, p, w, f, t);
    AcquireTurn(s, p, w, f, t);
    AcquireEnd(s, p, w, f, t);
    var (a, b, d, e) := (WithGate(s, p, w), WithLock(s, p, w, f), WithToken(s, p, w, f, t),
                         BetweenLocks(s, p, w, f, t));
    var c := b.(lease := None);
    var g := LeasedTo(s, p, w, f, t, Leased(w, f, t)).(gate := Some(p));
    run' := First(run, steps, Gate(p), a);
    run' := Then(run, steps, [Gate(p)], run', a, Take(p, f), b);
    run' := Then(run, steps, [Gate(p)] + [Take(p, f)], run', b, Truncate(p), c);
    run' := Then(run, steps, [Gate(p)] + [Take(p, f)] + [Truncate(p)], run', c, Mark(p, t), d);
    var four := [Gate(p), Take(p, f), Truncate(p), Mark(p, t)];
    assert [Gate(p)] + [Take(p, f)] + [Truncate(p)] + [Mark(p, t)] == four;
    run' := Then(run, steps, four, run', d, Drop(p), e);
    run' := Then(run, steps, four + [Drop(p)], run', e, Share(p), g);
    var last := if s.private then Enter(p) else Ungate(p);
    run' := Then(run, steps, four + [Drop(p)] + [Share(p)], run', g, last,
                 LeasedTo(s, p, w, f, t, if s.private then Running(w, f, t) else Preparing(w, f, t)));
    assert four + [Drop(p)] + [Share(p)] + [last] == AcquireTaken(s, p, f, t);
  }

  /** While a process holds the folder a new lease is turned away, and all is as it was. */
  lemma IsTurnedAway(run: seq<State>, steps: seq<Step>, p: Pid, w: Worktree) returns (run': seq<State>)
    requires IsRun(run, steps)
    requires var s := Last(run);
      && p in s.processes && s.processes[p] == Process(NoEnv, Start(w))
      && s.gate == None && !s.gone && (s.private ==> s.tokens == map[]) && !LockFree(s)
    ensures LedTo(run, steps, [Gate(p), TurnAway(p)], run', Last(run))
  {
    hide LedTo, Initial, Doomed, Members;
    var s := Last(run);
    var a := WithGate(s, p, w);
    PutAgain(s, p, Gated(w), Start(w));
    assert s.processes[p := Process(NoEnv, Start(w))] == s.processes;
    assert TurnsNext(s, Gate(p), a) && TurnsNext(a, TurnAway(p), s);
    run' := First(run, steps, Gate(p), a);
    run' := Then(run, steps, [Gate(p)], run', a, TurnAway(p), s);
    assert [Gate(p)] + [TurnAway(p)] == [Gate(p), TurnAway(p)];
  }

  // ---------------------------------------------------------------- prepare, alone

  /** Process `p` of the folder's lease is at `phase`. */
  function Moved(s: State, p: Pid, phase: Phase): State
    requires p in s.processes
  {
    s.(processes := s.processes[p := s.processes[p].(phase := phase)])
  }

  lemma GoesAgain(s: State, p: Pid, a: Phase, b: Phase)
    requires p in s.processes
    ensures Moved(Moved(s, p, a), p, b) == Moved(s, p, b)
    ensures At(s, p) == a ==> Moved(s, p, a) == s
  {
    if At(s, p) == a {
      assert s.processes[p := s.processes[p].(phase := a)] == s.processes;
    }
  }

  ghost predicate AllRemoves(taken: seq<Step>, p: Pid) {
    forall i :: 0 <= i < |taken| ==> taken[i].Remove? && taken[i].p == p
  }

  lemma RemoveOne(s: State, p: Pid, x: Package)
    requires p in s.processes && At(s, p).Dropping? && x in At(s, p).doomed
    ensures WritesNext(s, Remove(p, x), s.(builds := s.builds - {x}))
  {
    hide Doomed, Members, LockFree;
  }

  lemma NothingDoomed(builds: map<Package, Worktree>, doomed: set<Package>)
    requires builds.Keys * doomed == {}
    ensures builds - doomed == builds
  {
    forall x | x in builds ensures x !in doomed {
      assert x in doomed ==> x in builds.Keys * doomed;
    }
  }

  lemma OneLessDoomed(builds: map<Package, Worktree>, doomed: set<Package>, x: Package)
    requires x in doomed
    ensures (builds - {x}).Keys * doomed == builds.Keys * doomed - {x}
    ensures builds - {x} - doomed == builds - doomed
  {}

  /** What is doomed and there goes, one after the other. */
  lemma {:induction false} RemovesAll(run: seq<State>, steps: seq<Step>, taken: seq<Step>, mid: seq<State>, s: State,
                                      p: Pid)
      returns (more: seq<Step>, run': seq<State>)
    requires p in s.processes && At(s, p).Dropping? && LedTo(run, steps, taken, mid, s)
    ensures AllRemoves(more, p) && LedTo(run, steps, taken + more, run', s.(builds := s.builds - At(s, p).doomed))
    decreases |s.builds.Keys * At(s, p).doomed|
  {
    hide LedTo, WritesNext, TurnsNext, OpensNext, PassesNext, Initial;
    var left := s.builds.Keys * At(s, p).doomed;
    if left == {} {
      more, run' := [], mid;
      NothingDoomed(s.builds, At(s, p).doomed);
      assert taken + [] == taken;
    } else {
      var x :| x in left;
      var s1 := s.(builds := s.builds - {x});
      RemoveOne(s, p, x);
      OneLessDoomed(s.builds, At(s, p).doomed, x);
      run' := Then(run, steps, taken, mid, s, Remove(p, x), s1);
      more, run' := RemovesAll(run, steps, taken + [Remove(p, x)], run', s1, p);
      assert taken + [Remove(p, x)] + more == taken + ([Remove(p, x)] + more);
      more := [Remove(p, x)] + more;
    }
  }

  lemma PrepareBegins(s: State, p: Pid, tooBig: bool, folders: bool)
    requires p in s.processes && At(s, p).Preparing? && (s.builds != map[] ==> folders)
    ensures var a := At(s, p);
      TurnsNext(s, Inspect(p, tooBig, folders),
                Moved(s, p, Dropping(a.w, a.f, a.t, Doomed(s, a.w, tooBig, folders))))
  {
    hide Doomed, Members, LockFree;
  }

  lemma PrepareEnds(s: State, p: Pid, w: Worktree, f: File, t: Token, doomed: set<Package>)
    requires p in s.processes && At(s, p) == Dropping(w, f, t, doomed) && s.builds.Keys !! doomed
    ensures WritesNext(s, Disown(p), Moved(s, p, Owning(w, f, t)).(owner := None))
    ensures WritesNext(Moved(s, p, Owning(w, f, t)).(owner := None), Own(p),
                       Moved(s, p, Running(w, f, t)).(owner := Some(w)))
  {
    hide Doomed, Members, LockFree;
    GoesAgain(s, p, Owning(w, f, t), Running(w, f, t));
  }

  /** `prepare` of a slot goes through, and leaves it right for the worktree, which owns it. */
  lemma PreparesSlot(run: seq<State>, steps: seq<Step>, p: Pid, tooBig: bool, folders: bool)
      returns (removed: seq<Step>, run': seq<State>, builds: map<Package, Worktree>)
    requires IsRun(run, steps) && p in Last(run).processes && At(Last(run), p).Preparing?
    requires Last(run).builds != map[] ==> folders
    ensures var (s, a) := (Last(run), At(Last(run), p));
      && AllRemoves(removed, p) && MadeRight(s, a.w, tooBig, folders, builds)
      && LedTo(run, steps, [Inspect(p, tooBig, folders)] + removed + [Disown(p)] + [Own(p)], run',
               Moved(s, p, Running(a.w, a.f, a.t)).(owner := Some(a.w), builds := builds))
  {
    hide LedTo, WritesNext, TurnsNext, OpensNext, PassesNext, Initial, Doomed, MadeRight;
    var (s, a) := (Last(run), At(Last(run), p));
    var doomed := Doomed(s, a.w, tooBig, folders);
    PrepareBegins(s, p, tooBig, folders);
    var b := Moved(s, p, Dropping(a.w, a.f, a.t, doomed));
    var mid := First(run, steps, Inspect(p, tooBig, folders), b);
    removed, mid := RemovesAll(run, steps, [Inspect(p, tooBig, folders)], mid, b, p);
    builds := s.builds - doomed;
    var c := b.(builds := builds);
    DoomedLeaves(s, a.w, tooBig, folders);
    PrepareEnds(c, p, a.w, a.f, a.t, doomed);
    GoesAgain(s, p, b.processes[p].phase, Running(a.w, a.f, a.t));
    GoesAgain(s, p, b.processes[p].phase, Owning(a.w, a.f, a.t));
    run' := Then(run, steps, [Inspect(p, tooBig, folders)] + removed, mid, c, Disown(p),
                 Moved(c, p, Owning(a.w, a.f, a.t)).(owner := None));
    run' := Then(run, steps, [Inspect(p, tooBig, folders)] + removed + [Disown(p)], run',
                 Moved(c, p, Owning(a.w, a.f, a.t)).(owner := None), Own(p),
                 Moved(c, p, Running(a.w, a.f, a.t)).(owner := Some(a.w)));
  }

  // ---------------------------------------------------------------- the command

  /** `run`: the command has a descriptor of the lease's file, and the lease in its environment. */
  lemma Spawns(run: seq<State>, steps: seq<Step>, p: Pid, child: Pid) returns (run': seq<State>)
    requires IsRun(run, steps) && p in Last(run).processes && At(Last(run), p).Running?
    requires child !in Last(run).processes && At(Last(run), p).f in Last(run).files
    ensures var (s, a) := (Last(run), At(Last(run), p));
      var file := s.files[a.f];
      LedTo(run, steps, [Spawn(p, child)], run',
            s.(processes := s.processes[child := Process(Env(a.t, a.w), Command)],
               files := s.files[a.f := file.(holders := file.holders + {child})]))
  {
    hide LedTo, Initial, Doomed, Members, LockFree, LockShared;
    var (s, a) := (Last(run), At(Last(run), p));
    var file := s.files[a.f];
    var s' := s.(processes := s.processes[child := Process(Env(a.t, a.w), Command)],
                 files := s.files[a.f := file.(holders := file.holders + {child})]);
    assert s'.files == Inherits(s.files, child, {a.f});
    assert PassesNext(s, Spawn(p, child), s');
    run' := First(run, steps, Spawn(p, child), s');
  }

  /** A command that holds the lease has any member of its worktree built. */
  lemma Builds(run: seq<State>, steps: seq<Step>, p: Pid, x: Package, t: Token, w: Worktree, f: File)
      returns (run': seq<State>)
    requires IsRun(run, steps) && p in Last(run).processes && Last(run).processes[p].env == Env(t, w)
    requires w in Last(run).members && x in Last(run).members[w]
    requires f in Last(run).files && p in Last(run).files[f].holders && Last(run).files[f].token.Some?
    ensures LedTo(run, steps, [Build(p, x)], run', Last(run).(builds := Last(run).builds[x := w]))
  {
    hide LedTo, Initial, Doomed, LockFree, LockShared;
    var s := Last(run);
    assert WritesNext(s, Build(p, x), s.(builds := s.builds[x := w]));
    run' := First(run, steps, Build(p, x), s.(builds := s.builds[x := w]));
  }

  /** The files with another holder of some of them, and those without a holder. */
  predicate HandedOn(files: map<File, OpenFile>, child: Pid, keeps: set<File>, now: map<File, OpenFile>) {
    && now.Keys == files.Keys
    && forall f <- files ::
         && now[f].lock == files[f].lock && now[f].token == files[f].token
         && now[f].holders == if f in keeps then files[f].holders + {child} else files[f].holders
  }

  predicate LetGo(files: map<File, OpenFile>, p: Pid, now: map<File, OpenFile>) {
    && (forall f <- now :: f in files)
    && forall f <- files ::
         if files[f].holders == {p} then f !in now
         else
           && f in now && now[f].lock == files[f].lock && now[f].token == files[f].token
           && now[f].holders == files[f].holders - {p}
  }

  /** A command hands its environment on to another, and the files it likes. */
  lemma Forks(run: seq<State>, steps: seq<Step>, p: Pid, child: Pid, keeps: set<File>)
      returns (run': seq<State>, files: map<File, OpenFile>)
    requires IsRun(run, steps) && Is(Last(run), p, Command) && child !in Last(run).processes
    requires forall f <- keeps :: f in Last(run).files && p in Last(run).files[f].holders
    ensures var s := Last(run);
      && HandedOn(s.files, child, keeps, files)
      && LedTo(run, steps, [Fork(p, child, keeps)], run',
               s.(processes := s.processes[child := s.processes[p]], files := files))
  {
    hide LedTo, Initial, Doomed, Members, LockFree, LockShared;
    var s := Last(run);
    files := Inherits(s.files, child, keeps);
    var s' := s.(processes := s.processes[child := s.processes[p]], files := files);
    assert PassesNext(s, Fork(p, child, keeps), s');
    run' := First(run, steps, Fork(p, child, keeps), s');
  }

  /** A process ends anywhere: its files close, those only it held go with their locks, and its gate
      is free. */
  lemma Exits(run: seq<State>, steps: seq<Step>, p: Pid) returns (run': seq<State>, files: map<File, OpenFile>)
    requires IsRun(run, steps) && p in Last(run).processes
    ensures var s := Last(run);
      && LetGo(s.files, p, files)
      && LedTo(run, steps, [Exit(p)], run',
               s.(processes := s.processes - {p}, files := files, gate := if s.gate == Some(p) then None else s.gate))
  {
    hide LedTo, Initial, Doomed, Members, LockFree, LockShared;
    var s := Last(run);
    files := ClosesAll(s.files, p);
    var s' := s.(processes := s.processes - {p}, files := files, gate := if s.gate == Some(p) then None else s.gate);
    assert PassesNext(s, Exit(p), s');
    run' := First(run, steps, Exit(p), s');
  }

  /** A command closes one file: it is gone when no other process holds it. */
  lemma ClosesOne(run: seq<State>, steps: seq<Step>, p: Pid, f: File) returns (run': seq<State>)
    requires IsRun(run, steps) && Is(Last(run), p, Command) && f in Last(run).files && p in Last(run).files[f].holders
    ensures var s := Last(run);
      var left := s.files[f].holders - {p};
      LedTo(run, steps, [Close(p, f)], run',
            s.(files := if left == {} then s.files - {f} else s.files[f := s.files[f].(holders := left)]))
  {
    hide LedTo, Initial, Doomed, Members, LockFree, LockShared;
    var s := Last(run);
    var left := s.files[f].holders - {p};
    var s' := s.(files := if left == {} then s.files - {f} else s.files[f := s.files[f].(holders := left)]);
    assert PassesNext(s, Close(p, f), s');
    run' := First(run, steps, Close(p, f), s');
  }

  // ---------------------------------------------------------------- joining

  function Started(s: State, p: Pid, w: Worktree): State
    requires p in s.processes
  {
    Moved(s, p, Start(w))
  }

  function Opened(s: State, p: Pid, w: Worktree, f: File): State
    requires p in s.processes
  {
    Moved(s, p, Joining(w, f)).(files := s.files[f := OpenFile(Unlocked, {p}, None)])
  }

  function Sharing(s: State, p: Pid, w: Worktree, f: File): State
    requires p in s.processes
  {
    Moved(s, p, Joined(w, f)).(files := s.files[f := OpenFile(Shared, {p}, None)])
  }

  /** A command of a lease runs the script for its own worktree. */
  predicate Inside(s: State, p: Pid, w: Worktree, t: Token, f: File) {
    p in s.processes && s.processes[p] == Process(Env(t, w), Command) && f !in s.files && !s.gone
  }

  lemma JoinOpens(s: State, p: Pid, w: Worktree, t: Token, f: File)
    requires Inside(s, p, w, t, f)
    ensures TurnsNext(s, Script(p, w), Started(s, p, w))
    ensures OpensNext(Started(s, p, w), JoinOpen(p, f), Opened(s, p, w, f))
  {
    hide LockFree, LockShared, Doomed, Members;
    GoesAgain(s, p, Start(w), Joining(w, f));
  }

  lemma JoinLocks(s: State, p: Pid, w: Worktree, t: Token, f: File)
    requires Inside(s, p, w, t, f) && LockShared(s)
    ensures OpensNext(Opened(s, p, w, f), JoinLock(p), Sharing(s, p, w, f))
  {
    GoesAgain(s, p, Joining(w, f), Joined(w, f));
    FileAgain(s.files, f, OpenFile(Unlocked, {p}, None), OpenFile(Shared, {p}, None));
  }

  lemma JoinConfirms(s: State, p: Pid, w: Worktree, t: Token, f: File)
    requires Inside(s, p, w, t, f) && s.lease == Some(t)
    ensures OpensNext(Sharing(s, p, w, f), Confirm(p), s.(files := s.files[f := OpenFile(Shared, {p}, Some(t))]))
  {
    hide LockFree, LockShared, Joinable;
    GoesAgain(s, p, Joined(w, f), Command);
    GoesAgain(s, p, Command, Command);
    FileAgain(s.files, f, OpenFile(Shared, {p}, None), OpenFile(Shared, {p}, Some(t)));
  }

  lemma PutFrom(s: State, p: Pid, a: Phase, b: Phase)
    requires p in s.processes
    ensures WithoutEnv(Goes(Moved(s, p, a), p, b), p) == Put(s, p, b)
  {
    hide Doomed, Members;
    assert Moved(s, p, a).processes[p := Process(NoEnv, b)] == s.processes[p := Process(NoEnv, b)];
  }

  lemma JoinRefuses(s: State, p: Pid, w: Worktree, t: Token, f: File)
    requires Inside(s, p, w, t, f) && s.lease != Some(t)
    ensures PassesNext(Sharing(s, p, w, f), Refuse(p), Put(s, p, Start(w)))
  {
    hide WithoutEnv, ClosesAll, Inherits;
    PutFrom(s, p, Joined(w, f), Start(w));
    FileAgain(s.files, f, OpenFile(Shared, {p}, None), OpenFile(Shared, {p}, None));
    PutFiles(s, p, Joined(w, f), Start(w), s.files[f := OpenFile(Shared, {p}, None)]);
  }

  /** Where a process is has nothing to do with the files. */
  lemma PutFiles(s: State, p: Pid, a: Phase, b: Phase, files: map<File, OpenFile>)
    requires p in s.processes
    ensures WithoutEnv(Goes(Moved(s, p, a).(files := files), p, b), p)
         == WithoutEnv(Goes(Moved(s, p, a), p, b), p).(files := files)
  {}

  lemma JoinGivesUp(s: State, p: Pid, w: Worktree, t: Token, f: File)
    requires Inside(s, p, w, t, f)
    ensures PassesNext(Opened(s, p, w, f), JoinGiveUp(p), Put(s, p, Start(w)))
  {
    hide WithoutEnv, ClosesAll, Inherits;
    PutFrom(s, p, Joining(w, f), Start(w));
    FileAgain(s.files, f, OpenFile(Unlocked, {p}, None), OpenFile(Unlocked, {p}, None));
    PutFiles(s, p, Joining(w, f), Start(w), s.files[f := OpenFile(Unlocked, {p}, None)]);
  }

  /** `join`: while no process holds the lock alone, a command inside a lease joins it when the folder
      carries its token, and holds it by a descriptor of its own; else it is to take a lease of its
      own, without the environment. So it is when it waited long enough for the lock. */
  lemma Joins(run: seq<State>, steps: seq<Step>, p: Pid, w: Worktree, t: Token, f: File)
      returns (run': seq<State>, late: seq<State>)
    requires IsRun(run, steps) && Inside(Last(run), p, w, t, f)
    ensures var (s, taken) := (Last(run), [Script(p, w), JoinOpen(p, f)]);
      && LedTo(run, steps, taken + [JoinGiveUp(p)], late, Put(s, p, Start(w)))
      && (LockShared(s) && s.lease == Some(t) ==>
            LedTo(run, steps, taken + [JoinLock(p), Confirm(p)], run',
                  s.(files := s.files[f := OpenFile(Shared, {p}, Some(t))])))
      && (LockShared(s) && s.lease != Some(t) ==>
            LedTo(run, steps, taken + [JoinLock(p), Refuse(p)], run', Put(s, p, Start(w))))
  {
    hide LedTo, Initial, TurnsNext, OpensNext, PassesNext, WritesNext, LockShared;
    var s := Last(run);
    var taken := [Script(p, w), JoinOpen(p, f)];
    JoinOpens(s, p, w, t, f);
    JoinGivesUp(s, p, w, t, f);
    var mid := First(run, steps, Script(p, w), Started(s, p, w));
    mid := Then(run, steps, [Script(p, w)], mid, Started(s, p, w), JoinOpen(p, f), Opened(s, p, w, f));
    assert [Script(p, w)] + [JoinOpen(p, f)] == taken;
    late := Then(run, steps, taken, mid, Opened(s, p, w, f), JoinGiveUp(p), Put(s, p, Start(w)));
    run' := run;
    if LockShared(s) {
      JoinLocks(s, p, w, t, f);
      if s.lease == Some(t) {
        JoinConfirms(s, p, w, t, f);
      } else {
        JoinRefuses(s, p, w, t, f);
      }
      mid := Then(run, steps, taken, mid, Opened(s, p, w, f), JoinLock(p), Sharing(s, p, w, f));
      var step := if s.lease == Some(t) then Confirm(p) else Refuse(p);
      var s' := if s.lease == Some(t) then s.(files := s.files[f := OpenFile(Shared, {p}, Some(t))])
              else Put(s, p, Start(w));
      run' := Then(run, steps, taken + [JoinLock(p)], mid, Sharing(s, p, w, f), step, s');
      assert taken + [JoinLock(p)] + [step] == taken + [JoinLock(p), step];
    }
  }

  /** For another worktree than its lease's, or when the folder is gone, the script is without the
      lease's environment. */
  lemma Forgets(run: seq<State>, steps: seq<Step>, p: Pid, w: Worktree) returns (run': seq<State>)
    requires IsRun(run, steps) && Is(Last(run), p, Command)
    requires var (s, env) := (Last(run), Last(run).processes[p].env); s.gone || env == NoEnv || env.worktree != w
    ensures LedTo(run, steps, [Script(p, w), Forget(p)], run', Put(Last(run), p, Start(w)))
  {
    hide LedTo, Initial, LockFree, LockShared, Doomed, Members;
    var s := Last(run);
    assert TurnsNext(s, Script(p, w), Started(s, p, w));
    assert TurnsNext(Started(s, p, w), Forget(p), Put(s, p, Start(w)));
    run' := First(run, steps, Script(p, w), Started(s, p, w));
    run' := Then(run, steps, [Script(p, w)], run', Started(s, p, w), Forget(p), Put(s, p, Start(w)));
    assert [Script(p, w)] + [Forget(p)] == [Script(p, w), Forget(p)];
  }

  /** Process `p` loses the lease its environment names. */
  predicate Loses(s: State, s': State, p: Pid) {
    p in s.processes && p in s'.processes && s.processes[p].env.Env? && s'.processes[p].env == NoEnv
  }

  lemma LosesByTurning(s: State, step: Step, s': State, p: Pid)
    requires TurnsNext(s, step, s') && Loses(s, s', p)
    ensures s.gone || (At(s, p).Start? && s.processes[p].env.worktree != At(s, p).w)
  {
    hide LockFree, LockShared, Doomed, Members;
  }

  lemma LosesByWriting(s: State, step: Step, s': State, p: Pid)
    requires WritesNext(s, step, s')
    ensures !Loses(s, s', p)
  {
    hide LockFree, LockShared, Doomed, Members, Locks, Closes;
  }

  lemma LosesByOpening(s: State, step: Step, s': State, p: Pid)
    requires OpensNext(s, step, s')
    ensures !Loses(s, s', p)
  {
    hide LockFree, LockShared, Doomed, Members, Closes;
  }

  lemma LosesByPassing(s: State, step: Step, s': State, p: Pid)
    requires PassesNext(s, step, s') && Loses(s, s', p) && step != JoinGiveUp(p)
    ensures s.lease != Some(s.processes[p].env.token)
  {
    hide LockFree, LockShared, Doomed, Members;
  }

  /** In every run a process inside a lease goes on without it only for another worktree, without the
      folder, when the folder has another token, or when it waited long enough for the lock. */
  lemma LosesItsLease(run: seq<State>, steps: seq<Step>, j: nat, p: Pid)
    requires IsRun(run, steps) && j < |steps| && Loses(run[j], run[j + 1], p) && steps[j] != JoinGiveUp(p)
    ensures var (s, env) := (run[j], run[j].processes[p].env);
      s.gone || s.lease != Some(env.token) || (At(s, p).Start? && env.worktree != At(s, p).w)
  {
    hide TurnsNext, WritesNext, OpensNext, PassesNext, Loses, Initial;
    var (s, step, s') := (run[j], steps[j], run[j + 1]);
    assert Next(s, step, s');
    if TurnsNext(s, step, s') {
      LosesByTurning(s, step, s', p);
    } else if WritesNext(s, step, s') {
      LosesByWriting(s, step, s', p);
    } else if OpensNext(s, step, s') {
      LosesByOpening(s, step, s', p);
    } else {
      LosesByPassing(s, step, s', p);
    }
  }

  /** A process from outside begins as a command. */
  lemma Enters(run: seq<State>, steps: seq<Step>, p: Pid) returns (run': seq<State>)
    requires IsRun(run, steps) && p !in Last(run).processes
    ensures LedTo(run, steps, [Begin(p)], run', Put(Last(run), p, Command))
  {
    hide LedTo, Initial, LockFree, LockShared, Doomed, Members;
    assert TurnsNext(Last(run), Begin(p), Put(Last(run), p, Command));
    run' := First(run, steps, Begin(p), Put(Last(run), p, Command));
  }

  // ---------------------------------------------------------------- a look

  function LooksAt(s: State, p: Pid, f: File): State
    requires p in s.processes
  {
    Moved(s, p, Looking(f)).(files := s.files[f := OpenFile(Exclusive, {p}, None)])
  }

  lemma LookBegins(s: State, p: Pid, f: File)
    requires Is(s, p, Command) && f !in s.files && LockFree(s) && !s.gone
    ensures OpensNext(s, Look(p, f), LooksAt(s, p, f))
  {
    hide LockShared, Doomed, Members;
  }

  lemma LookEnds(s: State, p: Pid, f: File)
    requires Is(s, p, Command) && f !in s.files
    ensures PassesNext(LooksAt(s, p, f), LookEnd(p), s)
  {
    hide LockFree, LockShared, Doomed, Members;
    GoesAgain(s, p, Looking(f), Command);
    GoesAgain(s, p, Command, Command);
    FileAgain(s.files, f, OpenFile(Exclusive, {p}, None), OpenFile(Exclusive, {}, None));
  }

  lemma LookSweeps(s: State, p: Pid, f: File)
    requires Is(s, p, Command) && f !in s.files && s.private && s.gate == None
    ensures WritesNext(LooksAt(s, p, f), Sweep(p),
                       LooksAt(s.(lease := None, owner := None, builds := map[], gone := true), p, f))
  {
    hide LockFree, LockShared, Doomed, Members;
  }

  /** A look at a folder nobody holds leaves it as it was; a sweep empties a private one for good. */
  lemma LooksOnce(run: seq<State>, steps: seq<Step>, p: Pid, f: File) returns (run': seq<State>, swept: seq<State>)
    requires IsRun(run, steps) && Is(Last(run), p, Command) && f !in Last(run).files
    requires LockFree(Last(run)) && !Last(run).gone
    ensures var s := Last(run);
      && LedTo(run, steps, [Look(p, f), LookEnd(p)], run', s)
      && (s.private && s.gate == None ==>
            LedTo(run, steps, [Look(p, f), Sweep(p), LookEnd(p)], swept,
                  s.(lease := None, owner := None, builds := map[], gone := true)))
  {
    hide LedTo, Initial, TurnsNext, OpensNext, PassesNext, WritesNext;
    var s := Last(run);
    LookBegins(s, p, f);
    LookEnds(s, p, f);
    var mid := First(run, steps, Look(p, f), LooksAt(s, p, f));
    run' := Then(run, steps, [Look(p, f)], mid, LooksAt(s, p, f), LookEnd(p), s);
    assert [Look(p, f)] + [LookEnd(p)] == [Look(p, f), LookEnd(p)];
    swept := run;
    if s.private && s.gate == None {
      var gone := s.(lease := None, owner := None, builds := map[], gone := true);
      LookSweeps(s, p, f);
      LookEnds(gone, p, f);
      swept := Then(run, steps, [Look(p, f)], mid, LooksAt(s, p, f), Sweep(p), LooksAt(gone, p, f));
      swept := Then(run, steps, [Look(p, f)] + [Sweep(p)], swept, LooksAt(gone, p, f), LookEnd(p), gone);
      assert [Look(p, f)] + [Sweep(p)] + [LookEnd(p)] == [Look(p, f), Sweep(p), LookEnd(p)];
    }
  }
}
