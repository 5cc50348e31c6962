/** The lease of one shared build folder (`target_slot.py`), as the interleaved steps of
    the processes that use it. A lock belongs to an open file, which lives while any
    process holds a descriptor of it; the turn from an exclusive to a shared lock drops
    the one before it takes the other. */
module TargetSlot {
  import opened Wrappers

  type Pid = nat
  type File = nat
  type Token = nat
  type Worktree = nat
  type Package = nat

  datatype Lock = Unlocked | Shared | Exclusive

  /** An open file of the folder's lock: how it holds the lock, the processes with a
      descriptor of it, and the lease it is a holder of, once that is confirmed. */
  datatype OpenFile = OpenFile(lock: Lock, holders: set<Pid>, token: Option<Token>)

  /** The lease the environment names, with its worktree. */
  datatype Env = NoEnv | Env(token: Token, worktree: Worktree)

  /** Where a process is in the script. */
  datatype Phase =
    | Command                                             // runs something else
    | Start(w: Worktree)                                  // the script, for worktree `w`
    | Joining(w: Worktree, f: File)                       // join: the lock's file is open
    | Joined(w: Worktree, f: File)                        // join: shared, the token not compared yet
    | Gated(w: Worktree)                                  // acquire: holds the gate
    | Alone(w: Worktree, f: File)                         // acquire: holds the lock alone
    | Marked(w: Worktree, f: File, t: Token)              // acquire: the folder carries its token
    | Turning(w: Worktree, f: File, t: Token)             // acquire: between the two locks
    | Leased(w: Worktree, f: File, t: Token)              // acquire: shares the lock, still at the gate
    | Preparing(w: Worktree, f: File, t: Token)           // prepare, from its start
    | Dropping(w: Worktree, f: File, t: Token, doomed: set<Package>)
    | Owning(w: Worktree, f: File, t: Token)              // prepare: the owner's file is empty
    | Running(w: Worktree, f: File, t: Token)             // run
    | Looking(f: File)                                    // status or a sweep

  datatype Process = Process(env: Env, phase: Phase)

  datatype State = State(
    processes: map<Pid, Process>,
    files: map<File, OpenFile>,
    gate: Option<Pid>,
    lease: Option<Token>,
    tokens: map<Token, Worktree>,      // every token drawn so far and the worktree it was drawn for
    owner: Option<Worktree>,
    builds: map<Package, Worktree>,    // the fingerprints in the folder and whose sources they are of
    members: map<Worktree, set<Package>>,
    private: bool,                     // not a slot: the folder goes when nobody holds it
    gone: bool)

  datatype Step =
    | Begin(p: Pid)
    | Fork(p: Pid, child: Pid, keeps: set<File>)
    | Close(p: Pid, f: File)
    | Exit(p: Pid)
    | Script(p: Pid, w: Worktree)
    | Forget(p: Pid)
    | JoinOpen(p: Pid, f: File)
    | JoinLock(p: Pid)
    | JoinGiveUp(p: Pid)
    | Confirm(p: Pid)
    | Refuse(p: Pid)
    | Gate(p: Pid)
    | Take(p: Pid, f: File)
    | TurnAway(p: Pid)
    | Truncate(p: Pid)
    | Mark(p: Pid, t: Token)
    | Drop(p: Pid)
    | Share(p: Pid)
    | Ungate(p: Pid)
    | Enter(p: Pid)
    | Inspect(p: Pid, tooBig: bool, folders: bool)
    | Remove(p: Pid, x: Package)
    | Disown(p: Pid)
    | Own(p: Pid)
    | Spawn(p: Pid, child: Pid)
    | Build(p: Pid, x: Package)
    | Look(p: Pid, f: File)
    | LookEnd(p: Pid)
    | Sweep(p: Pid)

  // ---------------------------------------------------------------- the steps

  function At(s: State, p: Pid): Phase
    requires p in s.processes
  {
    s.processes[p].phase
  }

  predicate Is(s: State, p: Pid, phase: Phase) {
    p in s.processes && s.processes[p].phase == phase
  }

  predicate LockShared(s: State) {
    forall f <- s.files :: s.files[f].lock != Exclusive
  }

  predicate LockFree(s: State) {
    forall f <- s.files :: s.files[f].lock == Unlocked
  }

  /** The members' names, none when they cannot be read. */
  function Members(s: State, w: Worktree): set<Package> {
    if w in s.members then s.members[w] else {}
  }

  predicate Joinable(s: State, p: Pid, w: Worktree)
    requires p in s.processes
  {
    s.processes[p].env.Env? && s.processes[p].env.worktree == w
  }

  function Goes(s: State, p: Pid, phase: Phase): State
    requires p in s.processes
  {
    s.(processes := s.processes[p := s.processes[p].(phase := phase)])
  }

  function WithoutEnv(s: State, p: Pid): State
    requires p in s.processes
  {
    s.(processes := s.processes[p := s.processes[p].(env := NoEnv)])
  }

  function Locks(s: State, f: File, lock: Lock): State
    requires f in s.files
  {
    s.(files := s.files[f := s.files[f].(lock := lock)])
  }

  /** A file is gone, and its lock with it, once no process has a descriptor of it. */
  function Closes(s: State, p: Pid, f: File): State
    requires f in s.files
  {
    var left := s.files[f].holders - {p};
    s.(files := if left == {} then s.files - {f} else s.files[f := s.files[f].(holders := left)])
  }

  predicate CanBuild(s: State, p: Pid, x: Package) {
    && p in s.processes && s.processes[p].env.Env? && x in Members(s, s.processes[p].env.worktree)
    && exists f <- s.files :: p in s.files[f].holders && s.files[f].token.Some?
  }

  function ClosesAll(files: map<File, OpenFile>, p: Pid): map<File, OpenFile> {
    map f | f in files && files[f].holders != {p} :: files[f].(holders := files[f].holders - {p})
  }

  function Inherits(files: map<File, OpenFile>, child: Pid, keeps: set<File>): map<File, OpenFile> {
    map f | f in files :: if f in keeps then files[f].(holders := files[f].holders + {child}) else files[f]
  }

  /** What `prepare` is to remove: everything from a folder too big, everything when no
      member could be told apart, the members' when another worktree owned the folder. */
  function Doomed(s: State, w: Worktree, tooBig: bool, folders: bool): set<Package> {
    if tooBig then s.builds.Keys
    else if s.owner == Some(w) then {}
    else if Members(s, w) != {} && folders then Members(s, w)
    else s.builds.Keys
  }

  predicate CanBegin(s: State, p: Pid) {
    p !in s.processes
  }

  /** A process from outside, without the script's environment. */
  function BeginStep(s: State, p: Pid): State
    requires CanBegin(s, p)
  {
    s.(processes := s.processes[p := Process(NoEnv, Command)])
  }

  predicate CanFork(s: State, p: Pid, child: Pid, keeps: set<File>) {
    && Is(s, p, Command) && child !in s.processes
    && forall f <- keeps :: f in s.files && p in s.files[f].holders
  }

  /** A command starts another, which keeps some of its descriptors. */
  function ForkStep(s: State, p: Pid, child: Pid, keeps: set<File>): State
    requires CanFork(s, p, child, keeps)
  {
    s.(processes := s.processes[child := s.processes[p]], files := Inherits(s.files, child, keeps))
  }

  predicate CanClose(s: State, p: Pid, f: File) {
    Is(s, p, Command) && f in s.files && p in s.files[f].holders
  }

  function CloseStep(s: State, p: Pid, f: File): State
    requires CanClose(s, p, f)
  {
    Closes(s, p, f)
  }

  predicate CanExit(s: State, p: Pid) {
    p in s.processes
  }

  /** A process ends, wherever it is, and what it holds goes with it. */
  function ExitStep(s: State, p: Pid): State
    requires CanExit(s, p)
  {
    s.(processes := s.processes - {p}, files := ClosesAll(s.files, p),
       gate := if s.gate == Some(p) then None else s.gate)
  }

  predicate CanScript(s: State, p: Pid, w: Worktree) {
    Is(s, p, Command)
  }

  /** A command becomes the script. */
  function ScriptStep(s: State, p: Pid, w: Worktree): State
    requires CanScript(s, p, w)
  {
    Goes(s, p, Start(w))
  }

  predicate CanForget(s: State, p: Pid) {
    p in s.processes && At(s, p).Start? && (s.gone || !Joinable(s, p, At(s, p).w))
  }

  /** `main`: no lease of the environment is this worktree's, or its folder is gone. */
  function ForgetStep(s: State, p: Pid): State
    requires CanForget(s, p)
  {
    WithoutEnv(s, p)
  }

  predicate CanJoinOpen(s: State, p: Pid, f: File) {
    p in s.processes && At(s, p).Start? && Joinable(s, p, At(s, p).w) && f !in s.files && !s.gone
  }

  function JoinOpenStep(s: State, p: Pid, f: File): State
    requires CanJoinOpen(s, p, f)
  {
    Goes(s, p, Joining(At(s, p).w, f)).(files := s.files[f := OpenFile(Unlocked, {p}, None)])
  }

  predicate CanJoinLock(s: State, p: Pid) {
    p in s.processes && At(s, p).Joining? && At(s, p).f in s.files && LockShared(s)
  }

  function JoinLockStep(s: State, p: Pid): State
    requires CanJoinLock(s, p)
  {
    Locks(Goes(s, p, Joined(At(s, p).w, At(s, p).f)), At(s, p).f, Shared)
  }

  predicate CanJoinGiveUp(s: State, p: Pid) {
    p in s.processes && At(s, p).Joining? && At(s, p).f in s.files
  }

  function JoinGiveUpStep(s: State, p: Pid): State
    requires CanJoinGiveUp(s, p)
  {
    Closes(WithoutEnv(Goes(s, p, Start(At(s, p).w)), p), p, At(s, p).f)
  }

  predicate CanConfirm(s: State, p: Pid) {
    && p in s.processes && At(s, p).Joined? && At(s, p).f in s.files
    && s.processes[p].env.Env? && s.lease == Some(s.processes[p].env.token)
  }

  /** The token is compared under the lock; the command follows in this process. */
  function ConfirmStep(s: State, p: Pid): State
    requires CanConfirm(s, p)
  {
    Goes(s, p, Command).(files := s.files[At(s, p).f := s.files[At(s, p).f].(token := s.lease)])
  }

  predicate CanRefuse(s: State, p: Pid) {
    && p in s.processes && At(s, p).Joined? && At(s, p).f in s.files
    && s.processes[p].env.Env? && s.lease != Some(s.processes[p].env.token)
  }

  /** The folder carries another token, or none. */
  function RefuseStep(s: State, p: Pid): State
    requires CanRefuse(s, p)
  {
    Closes(WithoutEnv(Goes(s, p, Start(At(s, p).w)), p), p, At(s, p).f)
  }

  predicate CanGate(s: State, p: Pid) {
    p in s.processes && At(s, p).Start? && s.processes[p].env == NoEnv && s.gate == None && !s.gone
    && (s.private ==> s.tokens == map[])
  }

  function GateStep(s: State, p: Pid): State
    requires CanGate(s, p)
  {
    Goes(s, p, Gated(At(s, p).w)).(gate := Some(p))
  }

  predicate CanTake(s: State, p: Pid, f: File) {
    p in s.processes && At(s, p).Gated? && f !in s.files && LockFree(s)
  }

  /** `take`: the lock alone, when no process holds it at all. */
  function TakeStep(s: State, p: Pid, f: File): State
    requires CanTake(s, p, f)
  {
    Goes(s, p, Alone(At(s, p).w, f)).(files := s.files[f := OpenFile(Exclusive, {p}, None)])
  }

  predicate CanTurnAway(s: State, p: Pid) {
    p in s.processes && At(s, p).Gated? && !LockFree(s)
  }

  /** A process holds it: the next slot. */
  function TurnAwayStep(s: State, p: Pid): State
    requires CanTurnAway(s, p)
  {
    Goes(s, p, Start(At(s, p).w)).(gate := None)
  }

  predicate CanTruncate(s: State, p: Pid) {
    p in s.processes && At(s, p).Alone?
  }

  /** Writing the token empties its file first. */
  function TruncateStep(s: State, p: Pid): State
    requires CanTruncate(s, p)
  {
    s.(lease := None)
  }

  predicate CanMark(s: State, p: Pid, t: Token) {
    p in s.processes && At(s, p).Alone? && t !in s.tokens
  }

  function MarkStep(s: State, p: Pid, t: Token): State
    requires CanMark(s, p, t)
  {
    Goes(s, p, Marked(At(s, p).w, At(s, p).f, t)).(lease := Some(t), tokens := s.tokens[t := At(s, p).w])
  }

  predicate CanDrop(s: State, p: Pid) {
    p in s.processes && At(s, p).Marked? && At(s, p).f in s.files
  }

  /** The turn to a shared lock drops the exclusive one first. */
  function DropStep(s: State, p: Pid): State
    requires CanDrop(s, p)
  {
    Locks(Goes(s, p, Turning(At(s, p).w, At(s, p).f, At(s, p).t)), At(s, p).f, Unlocked)
  }

  predicate CanShare(s: State, p: Pid) {
    p in s.processes && At(s, p).Turning? && At(s, p).f in s.files && LockShared(s)
  }

  function ShareStep(s: State, p: Pid): State
    requires CanShare(s, p)
  {
    var (f, t) := (At(s, p).f, At(s, p).t);
    Goes(s, p, Leased(At(s, p).w, f, t)).(files := s.files[f := s.files[f].(lock := Shared, token := Some(t))])
  }

  predicate CanUngate(s: State, p: Pid) {
    p in s.processes && At(s, p).Leased? && !s.private
  }

  function UngateStep(s: State, p: Pid): State
    requires CanUngate(s, p)
  {
    Goes(s, p, Preparing(At(s, p).w, At(s, p).f, At(s, p).t)).(gate := None)
  }

  predicate CanEnter(s: State, p: Pid) {
    p in s.processes && At(s, p).Leased? && s.private
  }

  /** A private folder is new: there is nothing to prepare. */
  function EnterStep(s: State, p: Pid): State
    requires CanEnter(s, p)
  {
    Goes(s, p, Running(At(s, p).w, At(s, p).f, At(s, p).t)).(gate := None)
  }

  predicate CanInspect(s: State, p: Pid, tooBig: bool, folders: bool) {
    p in s.processes && At(s, p).Preparing? && (s.builds != map[] ==> folders)
  }

  /** `prepare` looks at the folder's size, its owner and its fingerprint folders. */
  function InspectStep(s: State, p: Pid, tooBig: bool, folders: bool): State
    requires CanInspect(s, p, tooBig, folders)
  {
    Goes(s, p, Dropping(At(s, p).w, At(s, p).f, At(s, p).t, Doomed(s, At(s, p).w, tooBig, folders)))
  }

  predicate CanRemove(s: State, p: Pid, x: Package) {
    p in s.processes && At(s, p).Dropping? && x in At(s, p).doomed
  }

  function RemoveStep(s: State, p: Pid, x: Package): State
    requires CanRemove(s, p, x)
  {
    s.(builds := s.builds - {x})
  }

  predicate CanDisown(s: State, p: Pid) {
    p in s.processes && At(s, p).Dropping? && s.builds.Keys !! At(s, p).doomed
  }

  /** Writing the owner empties its file first. */
  function DisownStep(s: State, p: Pid): State
    requires CanDisown(s, p)
  {
    Goes(s, p, Owning(At(s, p).w, At(s, p).f, At(s, p).t)).(owner := None)
  }

  predicate CanOwn(s: State, p: Pid) {
    p in s.processes && At(s, p).Owning?
  }

  function OwnStep(s: State, p: Pid): State
    requires CanOwn(s, p)
  {
    Goes(s, p, Running(At(s, p).w, At(s, p).f, At(s, p).t)).(owner := Some(At(s, p).w))
  }

  predicate CanSpawn(s: State, p: Pid, child: Pid) {
    p in s.processes && At(s, p).Running? && child !in s.processes
  }

  /** `run`: the command has the lock's descriptor and the lease in its environment. */
  function SpawnStep(s: State, p: Pid, child: Pid): State
    requires CanSpawn(s, p, child)
  {
    s.(processes := s.processes[child := Process(Env(At(s, p).t, At(s, p).w), Command)],
       files := Inherits(s.files, child, {At(s, p).f}))
  }

  /** A command of a lease has Cargo build a member of its worktree. */
  function BuildStep(s: State, p: Pid, x: Package): State
    requires CanBuild(s, p, x)
  {
    s.(builds := s.builds[x := s.processes[p].env.worktree])
  }

  predicate CanLook(s: State, p: Pid, f: File) {
    Is(s, p, Command) && f !in s.files && LockFree(s) && !s.gone
  }

  function LookStep(s: State, p: Pid, f: File): State
    requires CanLook(s, p, f)
  {
    Goes(s, p, Looking(f)).(files := s.files[f := OpenFile(Exclusive, {p}, None)])
  }

  predicate CanLookEnd(s: State, p: Pid) {
    p in s.processes && At(s, p).Looking? && At(s, p).f in s.files
  }

  function LookEndStep(s: State, p: Pid): State
    requires CanLookEnd(s, p)
  {
    Closes(Goes(s, p, Command), p, At(s, p).f)
  }

  /** A private folder is taken once, when it is made, and is left alone until it is older
      than that takes. */
  predicate CanSweep(s: State, p: Pid) {
    p in s.processes && At(s, p).Looking? && s.private && s.gate == None
  }

  /** `sweep` and `remove_private`: a private folder nobody holds is removed. */
  function SweepStep(s: State, p: Pid): State
    requires CanSweep(s, p)
  {
    s.(lease := None, owner := None, builds := map[], gone := true)
  }

  /** What a process alone turns to next. */
  predicate TurnsNext(s: State, step: Step, s': State) {
    match step
    case Begin(p) => CanBegin(s, p) && s' == BeginStep(s, p)
    case Script(p, w) => CanScript(s, p, w) && s' == ScriptStep(s, p, w)
    case Forget(p) => CanForget(s, p) && s' == ForgetStep(s, p)
    case Gate(p) => CanGate(s, p) && s' == GateStep(s, p)
    case TurnAway(p) => CanTurnAway(s, p) && s' == TurnAwayStep(s, p)
    case Ungate(p) => CanUngate(s, p) && s' == UngateStep(s, p)
    case Enter(p) => CanEnter(s, p) && s' == EnterStep(s, p)
    case Inspect(p, tooBig, folders) => CanInspect(s, p, tooBig, folders) && s' == InspectStep(s, p, tooBig, folders)
    case _ => false
  }

  /** What is written in the folder. */
  predicate WritesNext(s: State, step: Step, s': State) {
    match step
    case Truncate(p) => CanTruncate(s, p) && s' == TruncateStep(s, p)
    case Mark(p, t) => CanMark(s, p, t) && s' == MarkStep(s, p, t)
    case Remove(p, x) => CanRemove(s, p, x) && s' == RemoveStep(s, p, x)
    case Disown(p) => CanDisown(s, p) && s' == DisownStep(s, p)
    case Own(p) => CanOwn(s, p) && s' == OwnStep(s, p)
    case Build(p, x) => CanBuild(s, p, x) && s' == BuildStep(s, p, x)
    case Sweep(p) => CanSweep(s, p) && s' == SweepStep(s, p)
    case _ => false
  }

  /** A process opens a file or changes its own. */
  predicate OpensNext(s: State, step: Step, s': State) {
    match step
    case JoinOpen(p, f) => CanJoinOpen(s, p, f) && s' == JoinOpenStep(s, p, f)
    case JoinLock(p) => CanJoinLock(s, p) && s' == JoinLockStep(s, p)
    case Confirm(p) => CanConfirm(s, p) && s' == ConfirmStep(s, p)
    case Take(p, f) => CanTake(s, p, f) && s' == TakeStep(s, p, f)
    case Drop(p) => CanDrop(s, p) && s' == DropStep(s, p)
    case Share(p) => CanShare(s, p) && s' == ShareStep(s, p)
    case Look(p, f) => CanLook(s, p, f) && s' == LookStep(s, p, f)
    case _ => false
  }

  /** Files are closed or handed on. */
  predicate PassesNext(s: State, step: Step, s': State) {
    match step
    case Fork(p, child, keeps) => CanFork(s, p, child, keeps) && s' == ForkStep(s, p, child, keeps)
    case Close(p, f) => CanClose(s, p, f) && s' == CloseStep(s, p, f)
    case Exit(p) => CanExit(s, p) && s' == ExitStep(s, p)
    case Spawn(p, child) => CanSpawn(s, p, child) && s' == SpawnStep(s, p, child)
    case JoinGiveUp(p) => CanJoinGiveUp(s, p) && s' == JoinGiveUpStep(s, p)
    case Refuse(p) => CanRefuse(s, p) && s' == RefuseStep(s, p)
    case LookEnd(p) => CanLookEnd(s, p) && s' == LookEndStep(s, p)
    case _ => false
  }

  predicate Next(s: State, step: Step, s': State) {
    TurnsNext(s, step, s') || WritesNext(s, step, s') || OpensNext(s, step, s') || PassesNext(s, step, s')
  }

  ghost predicate Initial(s: State) {
    && s.processes == map[] && s.files == map[] && s.gate == None
    && s.lease == None && s.tokens == map[] && s.owner == None && s.builds == map[] && !s.gone
  }

  /** A run: whatever processes take the steps, and in whatever order. */
  ghost predicate IsRun(run: seq<State>, steps: seq<Step>) {
    && |run| == |steps| + 1 && Initial(run[0])
    && forall i :: 0 <= i < |steps| ==> Next(run[i], steps[i], run[i + 1])
  }

  // ---------------------------------------------------------------- what every step keeps

  predicate AtGate(phase: Phase) {
    phase.Gated? || phase.Alone? || phase.Marked? || phase.Turning? || phase.Leased?
  }

  predicate AtPrepare(phase: Phase) {
    phase.Preparing? || phase.Dropping? || phase.Owning?
  }

  /** It drew the folder's token and has not handed it on. */
  predicate Fresh(phase: Phase) {
    phase.Marked? || phase.Turning? || phase.Leased? || AtPrepare(phase)
  }

  /** It has a file of its own. */
  predicate HasFile(phase: Phase) {
    phase.Joining? || phase.Joined? || phase.Alone? || Fresh(phase) || phase.Looking?
  }

  function OwnLock(phase: Phase): Lock {
    if phase.Joining? || phase.Turning? then Unlocked
    else if phase.Alone? || phase.Marked? || phase.Looking? then Exclusive
    else Shared
  }

  function OwnToken(phase: Phase): Option<Token> {
    if phase.Leased? || AtPrepare(phase) then Some(phase.t) else None
  }

  /** At the gate, before its token. */
  predicate Waits(s: State, p: Pid) {
    p in s.processes && (At(s, p).Gated? || At(s, p).Alone?)
  }

  /** No process holds a lease of the folder. */
  ghost predicate NoLeases(s: State) {
    forall f <- s.files :: s.files[f].token == None
  }

  /** Process `p` was told of token `t`. */
  predicate ToldOf(s: State, p: Pid, t: Token)
    requires p in s.processes
  {
    (s.processes[p].env.Env? && s.processes[p].env.token == t) || (At(s, p).Running? && At(s, p).t == t)
  }

  ghost predicate BuildsOf(s: State, w: Worktree, but: set<Package>) {
    forall x <- s.builds :: x in Members(s, w) && x !in but ==> s.builds[x] == w
  }

  ghost predicate AloneOk(s: State, f: File)
    requires f in s.files
  {
    s.files[f].lock == Exclusive ==> forall g <- s.files :: g != f ==> s.files[g].lock == Unlocked
  }

  ghost predicate LeaseOk(s: State, f: File)
    requires f in s.files
  {
    s.files[f].token.Some? ==>
      s.files[f].lock == Shared && s.lease == s.files[f].token && s.files[f].token.value in s.tokens
  }

  ghost predicate FileOk(s: State, f: File)
    requires f in s.files
  {
    && s.files[f].holders != {} && s.files[f].holders <= s.processes.Keys
    && AloneOk(s, f) && LeaseOk(s, f)
  }

  /** The file of a process is its own, as its phase has it. */
  ghost predicate OwnOk(s: State, p: Pid)
    requires p in s.processes
  {
    var phase := At(s, p);
    HasFile(phase) ==> phase.f in s.files && s.files[phase.f] == OpenFile(OwnLock(phase), {p}, OwnToken(phase))
  }

  /** A process names only a lease that was drawn, for its worktree, and that of the files it
      holds; from the gate to the end of `run` the script names none. */
  ghost predicate EnvOk(s: State, p: Pid)
    requires p in s.processes
  {
    var (phase, env) := (At(s, p), s.processes[p].env);
    && (env.Env? ==> env.token in s.tokens && s.tokens[env.token] == env.worktree)
    && (AtGate(phase) || AtPrepare(phase) || phase.Running? ==> env == NoEnv)
    && (phase.Joining? || phase.Joined? ==> Joinable(s, p, phase.w))
    && (env.Env? ==> forall f <- s.files ::
          p in s.files[f].holders && s.files[f].token.Some? ==> s.files[f].token == Some(env.token))
  }

  ghost predicate PlaceOk(s: State, p: Pid)
    requires p in s.processes
  {
    var phase := At(s, p);
    && (AtGate(phase) ==> s.gate == Some(p))
    && (AtPrepare(phase) ==> !s.private)
    && (phase.Running? ==>
          && phase.f in s.files && p in s.files[phase.f].holders && s.files[phase.f].token == Some(phase.t)
          && phase.t in s.tokens && s.tokens[phase.t] == phase.w)
  }

  /** A token just drawn is the folder's, no process was told of it, and no other lease is held. */
  ghost predicate FreshOk(s: State, p: Pid)
    requires p in s.processes
  {
    var phase := At(s, p);
    Fresh(phase) ==>
      && s.lease == Some(phase.t) && phase.t in s.tokens && s.tokens[phase.t] == phase.w
      && (forall q <- s.processes :: !ToldOf(s, q, phase.t))
      && (forall g <- s.files :: g != phase.f ==> s.files[g].token == None)
  }

  ghost predicate BuildsOk(s: State, p: Pid)
    requires p in s.processes
  {
    match At(s, p)
    case Dropping(w, f, t, doomed) => BuildsOf(s, w, doomed)
    case Owning(w, f, t) => BuildsOf(s, w, {}) && s.owner == None
    case _ => true
  }

  ghost predicate OwnerOk(s: State) {
    && (s.owner.Some? ==> BuildsOf(s, s.owner.value, {}) && !s.private)
    && forall p <- s.processes :: s.lease.Some? && ToldOf(s, p, s.lease.value) ==>
         s.lease.value in s.tokens && (s.private || s.owner == Some(s.tokens[s.lease.value]))
  }

  ghost predicate AllFiles(s: State) {
    forall f <- s.files :: FileOk(s, f)
  }

  ghost predicate AllOwn(s: State) {
    forall p <- s.processes :: OwnOk(s, p)
  }

  ghost predicate AllEnvs(s: State) {
    forall p <- s.processes :: EnvOk(s, p)
  }

  ghost predicate AllPlaces(s: State) {
    forall p <- s.processes :: PlaceOk(s, p)
  }

  ghost predicate AllFresh(s: State) {
    forall p <- s.processes :: FreshOk(s, p)
  }

  ghost predicate AllBuilds(s: State) {
    forall p <- s.processes :: BuildsOk(s, p)
  }

  ghost predicate Inv(s: State) {
    AllFiles(s) && AllOwn(s) && AllEnvs(s) && AllPlaces(s) && AllFresh(s) && AllBuilds(s) && OwnerOk(s)
  }

  // ---------------------------------------------------------------- what a step leaves as it is

  /** A process a step starts: it runs a command, told of what the process that starts it is. */
  predicate Newborn(s: State, p: Pid, born: Process) {
    && p in s.processes && born.phase == Command
    && (born.env == s.processes[p].env || (At(s, p).Running? && born.env == Env(At(s, p).t, At(s, p).w)))
  }

  /** What a step of `p` leaves of another process. */
  predicate Stays(s: State, p: Pid, s': State, q: Pid) {
    q != p ==>
      && (q in s.processes ==> q in s'.processes && s'.processes[q] == s.processes[q])
      && (q in s'.processes && q !in s.processes ==> Newborn(s, p, s'.processes[q]))
  }

  /** What a step of `p` leaves of file `f` to another process `q`. */
  predicate Kept(s: State, p: Pid, s': State, f: File, q: Pid) {
    && (f in s.files && p !in s.files[f].holders ==> f in s'.files && s'.files[f] == s.files[f])
    && (f in s'.files && f !in s.files ==> s'.files[f].holders == {p} && s'.files[f].token == None)
    && (q in s.processes && q != p ==>
          (f in s.files && q in s.files[f].holders <==> f in s'.files && q in s'.files[f].holders)
          && (f in s.files && q in s.files[f].holders ==>
                s'.files[f].lock == s.files[f].lock && s'.files[f].token == s.files[f].token))
    && (q !in s.processes && q != p && f in s'.files && q in s'.files[f].holders ==>
          f in s.files && p in s.files[f].holders && s'.files[f].token == s.files[f].token)
  }

  predicate SameContents(s: State, s': State) {
    && s'.lease == s.lease && s'.tokens == s.tokens && s'.owner == s.owner && s'.builds == s.builds && s'.gone == s.gone
  }

  predicate SamePlace(s: State, s': State) {
    s'.private == s.private && s'.members == s.members
  }

  lemma TurnsLeave(s: State, step: Step, s': State, q: Pid)
    requires TurnsNext(s, step, s') && (step.p in s.processes ==> PlaceOk(s, step.p))
    ensures s'.files == s.files && SameContents(s, s') && SamePlace(s, s')
    ensures Stays(s, step.p, s', q) && step.p in s'.processes
    ensures s'.gate == s.gate || s.gate == Some(step.p) || (s.gate == None && step.Gate? && !s.gone)
    ensures s'.gate == s.gate || s'.gate == None || step.Gate?
    ensures Waits(s', step.p) ==> Waits(s, step.p) || (step.Gate? && (s.private ==> s.tokens == map[]))
    ensures forall t :: ToldOf(s', step.p, t) ==>
      step.p in s.processes && (ToldOf(s, step.p, t) || (Fresh(At(s, step.p)) && At(s, step.p).t == t && s.private))
  {
    hide LockFree, LockShared, Doomed, Members, Joinable;
  }

  lemma WritesLeave(s: State, step: Step, s': State, q: Pid)
    requires WritesNext(s, step, s')
    ensures s'.files == s.files && s'.gate == s.gate && SamePlace(s, s') && Stays(s, step.p, s', q)
    ensures step.p in s.processes && step.p in s'.processes && (s'.gone == s.gone || s.gate == None)
    ensures Waits(s', step.p) ==> Waits(s, step.p)
    ensures forall t :: ToldOf(s', step.p, t) ==> ToldOf(s, step.p, t) || (step.Own? && At(s, step.p).t == t)
  {
    hide LockFree, LockShared, Doomed, Members, Joinable;
  }

  /** What is written, and by whom. */
  lemma WritesDo(s: State, step: Step, s': State)
    requires WritesNext(s, step, s')
    ensures step.p in s.processes && step.p in s'.processes
    ensures step.Truncate? || step.Mark? || step.Remove? || step.Disown? || step.Own? || step.Build? || step.Sweep?
    ensures var phase := At(s, step.p);
      && (step.Truncate? ==> phase.Alone? && s' == s.(lease := None))
      && (step.Mark? ==>
            && phase.Alone? && s'.lease == Some(step.t)
            && step.t !in s.tokens && s'.tokens == s.tokens[step.t := phase.w]
            && s'.owner == s.owner && s'.builds == s.builds && s'.gone == s.gone && At(s', step.p).Marked?)
      && (step.Remove? ==> phase.Dropping? && s' == s.(builds := s.builds - {step.x}))
      && (step.Disown? ==> phase.Dropping? && SameContents(s.(owner := None), s'))
      && (step.Own? ==> phase.Owning? && SameContents(s.(owner := Some(phase.w)), s'))
      && (step.Build? ==>
            CanBuild(s, step.p, step.x) && s' == s.(builds := s.builds[step.x := s.processes[step.p].env.worktree]))
      && (step.Sweep? ==>
            && phase.Looking? && s.private && s.gate == None
            && s' == s.(lease := None, owner := None, builds := map[], gone := true))
  {
    hide LockFree, LockShared, Doomed, Members, Joinable;
  }

  lemma OpensLeave(s: State, step: Step, s': State, f: File, q: Pid)
    requires OpensNext(s, step, s') && (step.p in s.processes ==> OwnOk(s, step.p))
    requires f in s.files ==> s.files[f].holders <= s.processes.Keys
    ensures Kept(s, step.p, s', f, q) && SameContents(s, s') && SamePlace(s, s')
    ensures Stays(s, step.p, s', q) && s'.gate == s.gate
    ensures step.p in s.processes && step.p in s'.processes && (Waits(s', step.p) ==> Waits(s, step.p))
    ensures forall t :: ToldOf(s', step.p, t) ==> ToldOf(s, step.p, t)
    ensures f in s'.files && s'.files[f].token.Some? ==>
      || (f in s.files && s'.files[f].token == s.files[f].token)
      || (s.lease.Some? && ToldOf(s, step.p, s.lease.value)) || At(s, step.p).Turning?
  {
    hide LockFree, LockShared, Doomed, Members, Joinable;
  }

  lemma PassesLeave(s: State, step: Step, s': State, f: File, q: Pid)
    requires PassesNext(s, step, s') && (step.p in s.processes ==> OwnOk(s, step.p) && PlaceOk(s, step.p))
    requires f in s.files ==> s.files[f].holders <= s.processes.Keys
    ensures Kept(s, step.p, s', f, q) && SameContents(s, s') && SamePlace(s, s') && Stays(s, step.p, s', q)
    ensures s'.gate == s.gate || (s.gate == Some(step.p) && s'.gate == None)
    ensures step.p in s.processes && (Waits(s', step.p) ==> Waits(s, step.p))
    ensures forall t :: step.p in s'.processes && ToldOf(s', step.p, t) ==> ToldOf(s, step.p, t)
    ensures f in s'.files ==> f in s.files && s'.files[f].(holders := s.files[f].holders) == s.files[f]
  {
    hide LockFree, LockShared, Doomed, Members, Joinable;
  }

  // ---------------------------------------------------------------- the process that steps

  ghost predicate SelfOk(s: State, p: Pid) {
    p in s.processes ==> OwnOk(s, p) && EnvOk(s, p) && PlaceOk(s, p)
  }

  lemma TurnsOwn(s: State, step: Step, s': State)
    requires TurnsNext(s, step, s') && (step.p in s.processes ==> OwnOk(s, step.p)) && step.p in s'.processes
    ensures OwnOk(s', step.p)
  {
    hide LockFree, LockShared, Doomed, Members, Joinable;
  }

  lemma TurnsPlace(s: State, step: Step, s': State)
    requires TurnsNext(s, step, s') && SelfOk(s, step.p) && (step.p in s.processes ==> FreshOk(s, step.p))
    requires step.p in s'.processes
    ensures PlaceOk(s', step.p)
  {
    hide LockFree, LockShared, Doomed, Members, Joinable, EnvOk;
  }

  lemma TurnsEnv(s: State, step: Step, s': State)
    requires TurnsNext(s, step, s') && SelfOk(s, step.p) && step.p in s'.processes
    ensures EnvOk(s', step.p)
  {
    hide LockFree, LockShared, Doomed, Members, OwnOk;
  }

  lemma TurnsFresh(s: State, step: Step, s': State)
    requires TurnsNext(s, step, s') && (step.p in s.processes ==> FreshOk(s, step.p)) && step.p in s'.processes
    ensures FreshOk(s', step.p)
  {
    hide LockFree, LockShared, Doomed, Members, Joinable;
  }

  lemma TurnsBuilds(s: State, step: Step, s': State)
    requires TurnsNext(s, step, s') && (step.p in s.processes ==> BuildsOk(s, step.p)) && OwnerOk(s)
    requires step.p in s'.processes
    ensures BuildsOk(s', step.p)
  {
    hide LockFree, LockShared, Joinable;
  }

  lemma WritesSelf(s: State, step: Step, s': State)
    requires WritesNext(s, step, s') && SelfOk(s, step.p) && step.p in s.processes && FreshOk(s, step.p)
    ensures SelfOk(s', step.p) && (step.Mark? || FreshOk(s', step.p))
  {
    hide LockFree, LockShared, Doomed, Members, CanBuild;
  }

  lemma WritesBuilds(s: State, step: Step, s': State)
    requires WritesNext(s, step, s') && step.p in s.processes && step.p in s'.processes
    requires BuildsOk(s, step.p) && EnvOk(s, step.p)
    ensures BuildsOk(s', step.p)
  {
    hide LockFree, LockShared, Joinable;
  }

  lemma OpensOwn(s: State, step: Step, s': State)
    requires OpensNext(s, step, s') && step.p in s.processes && OwnOk(s, step.p) && step.p in s'.processes
    ensures OwnOk(s', step.p)
  {
    hide LockFree, LockShared, Doomed, Members, Joinable;
  }

  lemma OpensPlace(s: State, step: Step, s': State)
    requires OpensNext(s, step, s') && step.p in s.processes && PlaceOk(s, step.p) && step.p in s'.processes
    ensures PlaceOk(s', step.p) && BuildsOk(s', step.p)
  {
    hide LockFree, LockShared, Doomed, Members, Joinable;
  }

  lemma OpensEnv(s: State, step: Step, s': State)
    requires OpensNext(s, step, s') && SelfOk(s, step.p) && step.p in s.processes && step.p in s'.processes
    ensures EnvOk(s', step.p)
  {
    hide LockFree, LockShared, Doomed, Members, PlaceOk;
  }

  lemma OpensFresh(s: State, step: Step, s': State)
    requires OpensNext(s, step, s') && step.p in s.processes && FreshOk(s, step.p) && step.p in s'.processes
    ensures FreshOk(s', step.p)
  {
    hide LockFree, LockShared, Doomed, Members, Joinable;
  }

  lemma PassesSelf(s: State, step: Step, s': State)
    requires PassesNext(s, step, s') && SelfOk(s, step.p) && step.p in s'.processes
    ensures OwnOk(s', step.p) && PlaceOk(s', step.p) && FreshOk(s', step.p) && BuildsOk(s', step.p)
  {
    hide LockFree, LockShared, Doomed, Members, Joinable, EnvOk;
  }

  lemma PassesEnv(s: State, step: Step, s': State)
    requires PassesNext(s, step, s') && SelfOk(s, step.p) && step.p in s'.processes
    ensures EnvOk(s', step.p)
  {
    hide LockFree, LockShared, Doomed, Members, PlaceOk;
  }

  // ---------------------------------------------------------------- the other processes

  /** What a step leaves, of whichever kind it is. */
  lemma Leaves(s: State, step: Step, s': State, f: File, q: Pid)
    requires Inv(s) && Next(s, step, s')
    ensures Kept(s, step.p, s', f, q) && SamePlace(s, s') && Stays(s, step.p, s', q)
    ensures forall t <- s.tokens :: t in s'.tokens && s'.tokens[t] == s.tokens[t]
    ensures s'.gate == s.gate || s.gate == None || s.gate == Some(step.p)
    ensures WritesNext(s, step, s') || SameContents(s, s')
    ensures f in s'.files && s'.files[f].token.Some? ==>
      || (f in s.files && s'.files[f].token == s.files[f].token)
      || (step.p in s.processes && s.lease.Some? && ToldOf(s, step.p, s.lease.value))
      || (step.p in s.processes && At(s, step.p).Turning?)
    ensures forall t :: step.p in s'.processes && ToldOf(s', step.p, t) ==>
      && step.p in s.processes
      && (ToldOf(s, step.p, t)
          || (Fresh(At(s, step.p)) && At(s, step.p).t == t && (s.private || WritesNext(s, step, s'))))
  {
    hide TurnsNext, WritesNext, OpensNext, PassesNext, OwnOk, EnvOk;
    hide PlaceOk, FreshOk, BuildsOk, AloneOk, LeaseOk, OwnerOk;
    assert step.p in s.processes ==> OwnOk(s, step.p) && PlaceOk(s, step.p);
    assert f in s.files ==> FileOk(s, f);
    if TurnsNext(s, step, s') {
      TurnsLeave(s, step, s', q);
    } else if WritesNext(s, step, s') {
      WritesLeave(s, step, s', q);
      WritesDo(s, step, s');
    } else if OpensNext(s, step, s') {
      OpensLeave(s, step, s', f, q);
    } else {
      PassesLeave(s, step, s', f, q);
    }
  }

  lemma OtherOwn(s: State, step: Step, s': State, q: Pid)
    requires Inv(s) && Next(s, step, s') && q in s'.processes && q != step.p
    ensures OwnOk(s', q)
  {
    hide Next, PlaceOk, EnvOk, FreshOk, BuildsOk, OwnerOk, FileOk;
    Leaves(s, step, s', 0, q);
    if q in s.processes && HasFile(At(s, q)) {
      assert OwnOk(s, q);
      Leaves(s, step, s', At(s, q).f, q);
    }
  }

  lemma OtherEnv(s: State, step: Step, s': State, q: Pid)
    requires Inv(s) && Next(s, step, s') && q in s'.processes && q != step.p
    ensures EnvOk(s', q)
  {
    hide Next, FreshOk, BuildsOk, OwnerOk, OwnOk, AloneOk;
    var p := step.p;
    assert p in s.processes ==> PlaceOk(s, p) && EnvOk(s, p);
    assert q in s.processes ==> EnvOk(s, q);
    Leaves(s, step, s', 0, q);
    assert p in s.processes && At(s, p).Running? ==> FileOk(s, At(s, p).f);
    forall f | f in s'.files ensures Kept(s, p, s', f, q) && (f in s.files ==> LeaseOk(s, f)) {
      assert f in s.files ==> FileOk(s, f);
      Leaves(s, step, s', f, q);
    }
  }

  lemma OtherPlace(s: State, step: Step, s': State, q: Pid)
    requires Inv(s) && Next(s, step, s') && q in s'.processes && q != step.p
    ensures PlaceOk(s', q)
  {
    hide Next, FreshOk, BuildsOk, OwnerOk, OwnOk, EnvOk, FileOk;
    assert q in s.processes ==> PlaceOk(s, q);
    Leaves(s, step, s', 0, q);
    if q in s.processes && At(s, q).Running? {
      Leaves(s, step, s', At(s, q).f, q);
    }
  }

  /** A process that holds the lock alone leaves the others none. */
  lemma AloneHolds(s: State, p: Pid, q: Pid)
    requires AllOwn(s) && AllFiles(s) && p in s.processes && q in s.processes && p != q
    requires HasFile(At(s, p)) && HasFile(At(s, q)) && OwnLock(At(s, p)) == Exclusive
    ensures OwnLock(At(s, q)) == Unlocked
  {
    assert OwnOk(s, p) && OwnOk(s, q) && FileOk(s, At(s, p).f);
  }

  /** One process at a time has a token it has not handed on. */
  lemma OneFresh(s: State, p: Pid, q: Pid)
    requires AllOwn(s) && AllPlaces(s) && AllFresh(s) && p in s.processes && q in s.processes
    requires Fresh(At(s, p)) && Fresh(At(s, q))
    ensures p == q
  {
    assert OwnOk(s, p) && OwnOk(s, q) && PlaceOk(s, p) && PlaceOk(s, q) && FreshOk(s, p) && FreshOk(s, q);
  }

  lemma LeaseStays(s: State, step: Step, s': State, q: Pid)
    requires Inv(s) && Next(s, step, s') && q in s.processes && q != step.p && Fresh(At(s, q))
    ensures s'.lease == s.lease
  {
    hide Next, WritesNext, EnvOk, BuildsOk, OwnerOk, FreshOk, OwnOk, FileOk;
    assert PlaceOk(s, q);
    Leaves(s, step, s', 0, q);
    if WritesNext(s, step, s') {
      WritesLeave(s, step, s', q);
      WritesDo(s, step, s');
      assert PlaceOk(s, step.p);
      if step.Truncate? || step.Mark? || step.Sweep? {
        AloneHolds(s, step.p, q);
      }
    }
  }

  /** Whom a step tells of a token is not told of one just drawn by another. */
  lemma StillUntold(s: State, step: Step, s': State, q: Pid, r: Pid)
    requires Inv(s) && Next(s, step, s') && q in s.processes && q != step.p && Fresh(At(s, q)) && r in s'.processes
    ensures !ToldOf(s', r, At(s, q).t)
  {
    hide Next, WritesNext, EnvOk, BuildsOk, OwnerOk, PlaceOk, OwnOk, FileOk;
    var (p, t) := (step.p, At(s, q).t);
    assert FreshOk(s, q);
    Leaves(s, step, s', 0, r);
    if r == p && ToldOf(s', p, t) {
      OneFresh(s, p, q);
    }
  }

  lemma StillAlone(s: State, step: Step, s': State, q: Pid, g: File)
    requires Inv(s) && Next(s, step, s') && q in s.processes && q != step.p && Fresh(At(s, q))
    requires g in s'.files && g != At(s, q).f
    ensures s'.files[g].token == None
  {
    hide Next, WritesNext, EnvOk, BuildsOk, OwnerOk, PlaceOk, OwnOk, FileOk;
    assert FreshOk(s, q);
    Leaves(s, step, s', g, q);
    if s'.files[g].token.Some? {
      OneFresh(s, step.p, q);
    }
  }

  lemma OtherFresh(s: State, step: Step, s': State, q: Pid)
    requires Inv(s) && Next(s, step, s') && q in s'.processes && q != step.p
    ensures FreshOk(s', q)
  {
    hide Next, WritesNext, EnvOk, BuildsOk, OwnerOk, PlaceOk, OwnOk, FileOk, ToldOf;
    Leaves(s, step, s', 0, q);
    if q in s.processes && Fresh(At(s, q)) {
      assert FreshOk(s, q);
      LeaseStays(s, step, s', q);
      forall r | r in s'.processes ensures !ToldOf(s', r, At(s, q).t) {
        StillUntold(s, step, s', q, r);
      }
      forall g | g in s'.files && g != At(s, q).f ensures s'.files[g].token == None {
        StillAlone(s, step, s', q, g);
      }
    }
  }

  /** None builds in a folder that is being prepared. */
  lemma NoBuilder(s: State, p: Pid, x: Package, q: Pid)
    requires CanBuild(s, p, x) && q in s.processes && AtPrepare(At(s, q)) && OwnOk(s, q) && FreshOk(s, q)
    ensures p == q
  {
    var f :| f in s.files && p in s.files[f].holders && s.files[f].token.Some?;
  }

  /** What one process prepares no other changes. */
  lemma ContentsLeft(s: State, step: Step, s': State, q: Pid)
    requires Inv(s) && Next(s, step, s') && q in s.processes && q != step.p && AtPrepare(At(s, q))
    ensures s'.builds == s.builds && s'.owner == s.owner && s'.members == s.members
  {
    hide Next, WritesNext, EnvOk, OwnerOk, PlaceOk, FileOk, CanBuild, OwnOk, FreshOk, BuildsOk;
    Leaves(s, step, s', 0, q);
    assert OwnOk(s, q) && FreshOk(s, q);
    if WritesNext(s, step, s') {
      WritesLeave(s, step, s', q);
      WritesDo(s, step, s');
      if step.Sweep? {
        AloneHolds(s, step.p, q);
      } else if step.Build? {
        NoBuilder(s, step.p, step.x, q);
      } else if step.Remove? || step.Disown? || step.Own? {
        OneFresh(s, step.p, q);
      }
    }
  }

  lemma OtherBuilds(s: State, step: Step, s': State, q: Pid)
    requires Inv(s) && Next(s, step, s') && q in s'.processes && q != step.p
    ensures BuildsOk(s', q)
  {
    hide Next, EnvOk, OwnerOk, PlaceOk, FileOk, OwnOk, FreshOk;
    Leaves(s, step, s', 0, q);
    if q in s.processes && AtPrepare(At(s, q)) {
      assert BuildsOk(s, q);
      ContentsLeft(s, step, s', q);
    }
  }

  // ---------------------------------------------------------------- the files and the owner

  lemma OpensHolders(s: State, step: Step, s': State, f: File)
    requires OpensNext(s, step, s') && OwnOk(s, step.p) && f in s'.files && (f in s.files ==> FileOk(s, f))
    ensures s'.files[f].holders != {} && s'.files[f].holders <= s'.processes.Keys
  {
    hide LockFree, LockShared, Joinable, Members, Doomed, AloneOk, LeaseOk;
  }

  lemma OpensAlone(s: State, step: Step, s': State, f: File)
    requires OpensNext(s, step, s') && OwnOk(s, step.p) && f in s'.files && (f in s.files ==> FileOk(s, f))
    ensures AloneOk(s', f)
  {
    hide Joinable, Members, Doomed, LeaseOk;
  }

  lemma OpensLease(s: State, step: Step, s': State, f: File)
    requires OpensNext(s, step, s') && OwnOk(s, step.p) && FreshOk(s, step.p) && EnvOk(s, step.p)
    requires f in s'.files && (f in s.files ==> FileOk(s, f))
    ensures LeaseOk(s', f)
  {
    hide LockFree, LockShared, Members, Doomed, AloneOk;
  }

  lemma PassesFile(s: State, step: Step, s': State, f: File)
    requires PassesNext(s, step, s') && OwnOk(s, step.p) && PlaceOk(s, step.p)
    requires f in s'.files && (f in s.files ==> FileOk(s, f))
    ensures FileOk(s', f)
  {
    hide LockFree, LockShared, Members, Doomed, Joinable;
  }

  lemma WritesFile(s: State, step: Step, s': State, f: File)
    requires Inv(s) && WritesNext(s, step, s') && f in s'.files
    ensures FileOk(s', f)
  {
    hide Next, WritesNext, EnvOk, BuildsOk, OwnerOk, PlaceOk, FreshOk;
    var p := step.p;
    WritesLeave(s, step, s', p);
    WritesDo(s, step, s');
    assert FileOk(s, f) && OwnOk(s, p);
    forall q | q in s.processes ensures q in s'.processes {
      WritesLeave(s, step, s', q);
    }
    if step.Truncate? || step.Mark? || step.Sweep? {
      assert FileOk(s, At(s, p).f);
    }
  }

  lemma TurnsFile(s: State, step: Step, s': State, f: File)
    requires Inv(s) && TurnsNext(s, step, s') && f in s'.files
    ensures FileOk(s', f)
  {
    hide Next, TurnsNext, OwnOk, EnvOk, BuildsOk, OwnerOk, PlaceOk, FreshOk;
    assert step.p in s.processes ==> PlaceOk(s, step.p);
    TurnsLeave(s, step, s', step.p);
    assert FileOk(s, f);
    forall q | q in s.processes ensures q in s'.processes {
      TurnsLeave(s, step, s', q);
    }
  }

  lemma StepFiles(s: State, step: Step, s': State, f: File)
    requires Inv(s) && Next(s, step, s') && f in s'.files
    ensures FileOk(s', f)
  {
    hide TurnsNext, WritesNext, OpensNext, PassesNext, AloneOk, LeaseOk;
    hide OwnOk, EnvOk, PlaceOk, FreshOk, BuildsOk, OwnerOk;
    var p := step.p;
    assert p in s.processes ==> OwnOk(s, p) && EnvOk(s, p) && PlaceOk(s, p) && FreshOk(s, p);
    assert f in s.files ==> FileOk(s, f);
    if TurnsNext(s, step, s') {
      TurnsFile(s, step, s', f);
    } else if WritesNext(s, step, s') {
      WritesFile(s, step, s', f);
    } else if OpensNext(s, step, s') {
      Steps(s, step, s');
      OpensHolders(s, step, s', f);
      OpensAlone(s, step, s', f);
      OpensLease(s, step, s', f);
    } else {
      Steps(s, step, s');
      PassesFile(s, step, s', f);
    }
  }

  lemma Steps(s: State, step: Step, s': State)
    requires OpensNext(s, step, s') || PassesNext(s, step, s') || WritesNext(s, step, s')
    ensures step.p in s.processes
  {
    hide LockFree, LockShared, Members, Doomed, Joinable;
  }

  /** A command that builds is of the folder's lease. */
  lemma BuilderTold(s: State, p: Pid, x: Package)
    requires Inv(s) && CanBuild(s, p, x)
    ensures s.lease.Some? && ToldOf(s, p, s.lease.value)
    ensures s.private || s.owner == Some(s.processes[p].env.worktree)
  {
    hide Joinable, OwnOk, FreshOk, BuildsOk, BuildsOf, Members;
    var f :| f in s.files && p in s.files[f].holders && s.files[f].token.Some?;
    assert FileOk(s, f) && EnvOk(s, p);
  }

  lemma BuildsStay(s: State, s': State, w: Worktree)
    requires BuildsOf(s, w, {}) && s'.members == s.members
    requires forall x <- s'.builds :: (x in s.builds && s'.builds[x] == s.builds[x]) || s'.builds[x] == w
    ensures BuildsOf(s', w, {})
  {}

  lemma OwnerWrites(s: State, step: Step, s': State)
    requires WritesNext(s, step, s') && OwnerOk(s) && step.p in s.processes && PlaceOk(s, step.p) && BuildsOk(s, step.p)
    requires step.Build? ==> s.private || s.owner == Some(s.processes[step.p].env.worktree)
    ensures s'.owner.Some? ==> BuildsOf(s', s'.owner.value, {}) && !s'.private
  {
    hide WritesNext, Members, CanBuild, BuildsOf;
    WritesLeave(s, step, s', 0);
    WritesDo(s, step, s');
    if s'.owner.Some? {
      BuildsStay(s, s', s'.owner.value);
    }
  }

  /** All builds of the owner's members are the owner's. */
  lemma OwnerBuilds(s: State, step: Step, s': State)
    requires Inv(s) && Next(s, step, s')
    ensures s'.owner.Some? ==> BuildsOf(s', s'.owner.value, {}) && !s'.private
  {
    hide Next, WritesNext, Members, OwnOk, FreshOk, EnvOk, FileOk, PlaceOk, BuildsOk, CanBuild, BuildsOf;
    Leaves(s, step, s', 0, 0);
    if WritesNext(s, step, s') {
      WritesDo(s, step, s');
      assert PlaceOk(s, step.p) && BuildsOk(s, step.p);
      if step.Build? {
        BuilderTold(s, step.p, step.x);
      }
      OwnerWrites(s, step, s');
    } else if s'.owner.Some? {
      BuildsStay(s, s', s'.owner.value);
    }
  }

  /** Who is told of the lease finds its worktree the owner. */
  lemma ToldOwner(s: State, step: Step, s': State, q: Pid)
    requires Inv(s) && Next(s, step, s') && q in s'.processes && s'.lease.Some? && ToldOf(s', q, s'.lease.value)
    ensures s'.lease.value in s'.tokens && (s'.private || s'.owner == Some(s'.tokens[s'.lease.value]))
  {
    hide Next, WritesNext, EnvOk, PlaceOk, FreshOk, OwnOk, BuildsOk, BuildsOf, FileOk;
    var (p, t) := (step.p, s'.lease.value);
    Leaves(s, step, s', 0, q);
    assert p in s.processes ==> FreshOk(s, p);
    if WritesNext(s, step, s') {
      ToldWrites(s, step, s', q);
    } else if q == p {
      assert ToldOf(s, p, t) || Fresh(At(s, p));
      FreshDrawn(s, p);
    } else if q !in s.processes {
      assert ToldOf(s, p, t);
    } else {
      assert ToldOf(s, q, t);
    }
  }

  lemma FreshDrawn(s: State, p: Pid)
    requires p in s.processes && FreshOk(s, p)
    ensures Fresh(At(s, p)) ==>
              At(s, p).t in s.tokens && s.tokens[At(s, p).t] == At(s, p).w && s.lease == Some(At(s, p).t)
    ensures Fresh(At(s, p)) ==> forall q <- s.processes :: !ToldOf(s, q, At(s, p).t)
  {}

  /** A token that was told was drawn before. */
  lemma ToldDrawn(s: State, q: Pid, t: Token)
    requires q in s.processes && EnvOk(s, q) && PlaceOk(s, q) && ToldOf(s, q, t)
    ensures t in s.tokens
  {}

  lemma ToldWrites(s: State, step: Step, s': State, q: Pid)
    requires Inv(s) && WritesNext(s, step, s') && q in s'.processes && s'.lease.Some? && ToldOf(s', q, s'.lease.value)
    ensures s'.lease.value in s'.tokens && (s'.private || s'.owner == Some(s'.tokens[s'.lease.value]))
  {
    hide Next, WritesNext, EnvOk, PlaceOk, FreshOk, OwnOk, BuildsOk, BuildsOf, FileOk, CanBuild, Members;
    var (p, t) := (step.p, s'.lease.value);
    WritesLeave(s, step, s', q);
    WritesDo(s, step, s');
    assert FreshOk(s, p);
    FreshDrawn(s, p);
    var r := if q in s.processes then q else p;
    if ToldOf(s, r, t) {
      assert EnvOk(s, r) && PlaceOk(s, r);
      ToldDrawn(s, r, t);
    }
  }

  // ---------------------------------------------------------------- every step

  lemma SelfKeeps(s: State, step: Step, s': State)
    requires Inv(s) && Next(s, step, s') && step.p in s'.processes
    ensures OwnOk(s', step.p) && EnvOk(s', step.p) && PlaceOk(s', step.p) && BuildsOk(s', step.p)
  {
    hide TurnsNext, WritesNext, OpensNext, PassesNext, OwnOk, EnvOk, PlaceOk, FreshOk, BuildsOk, OwnerOk, FileOk;
    var p := step.p;
    assert p in s.processes ==> OwnOk(s, p) && EnvOk(s, p) && PlaceOk(s, p) && FreshOk(s, p) && BuildsOk(s, p);
    if TurnsNext(s, step, s') {
      TurnsOwn(s, step, s');
      TurnsPlace(s, step, s');
      TurnsEnv(s, step, s');
      TurnsBuilds(s, step, s');
    } else if WritesNext(s, step, s') {
      Steps(s, step, s');
      WritesSelf(s, step, s');
      WritesBuilds(s, step, s');
    } else if OpensNext(s, step, s') {
      Steps(s, step, s');
      OpensOwn(s, step, s');
      OpensPlace(s, step, s');
      OpensEnv(s, step, s');
    } else {
      PassesSelf(s, step, s');
      PassesEnv(s, step, s');
    }
  }

  lemma SelfFresh(s: State, step: Step, s': State)
    requires Inv(s) && Next(s, step, s') && step.p in s'.processes
    ensures FreshOk(s', step.p)
  {
    hide TurnsNext, WritesNext, OpensNext, PassesNext, OwnOk, EnvOk, PlaceOk, FreshOk, BuildsOk, OwnerOk, FileOk;
    var p := step.p;
    assert p in s.processes ==> OwnOk(s, p) && EnvOk(s, p) && PlaceOk(s, p) && FreshOk(s, p);
    if TurnsNext(s, step, s') {
      TurnsFresh(s, step, s');
    } else if WritesNext(s, step, s') {
      Steps(s, step, s');
      WritesSelf(s, step, s');
      if step.Mark? {
        MarkFresh(s, step, s');
      }
    } else if OpensNext(s, step, s') {
      Steps(s, step, s');
      OpensFresh(s, step, s');
    } else {
      PassesSelf(s, step, s');
    }
  }

  /** A token just drawn is new to every process, and who draws it holds the lock alone. */
  lemma MarkFresh(s: State, step: Step, s': State)
    requires Inv(s) && WritesNext(s, step, s') && step.Mark?
    ensures step.p in s'.processes && FreshOk(s', step.p)
  {
    hide BuildsOk, OwnerOk, Joinable, LockFree, LockShared, Members, Doomed;
    var p := step.p;
    assert OwnOk(s, p) && FileOk(s, At(s, p).f);
    forall q | q in s.processes ensures !ToldOf(s', q, step.t) {
      assert EnvOk(s, q) && PlaceOk(s, q);
    }
    forall f | f in s.files && f != At(s, p).f ensures s.files[f].token == None {
      assert FileOk(s, f);
    }
  }

  lemma StepKeeps(s: State, step: Step, s': State)
    requires Inv(s) && Next(s, step, s')
    ensures Inv(s')
  {
    hide Next, OwnOk, EnvOk, PlaceOk, FreshOk, BuildsOk, BuildsOf, FileOk;
    forall f | f in s'.files ensures FileOk(s', f) {
      StepFiles(s, step, s', f);
    }
    forall q | q in s'.processes
      ensures OwnOk(s', q) && EnvOk(s', q) && PlaceOk(s', q) && FreshOk(s', q) && BuildsOk(s', q)
    {
      if q == step.p {
        SelfKeeps(s, step, s');
        SelfFresh(s, step, s');
      } else {
        OtherOwn(s, step, s', q);
        OtherEnv(s, step, s', q);
        OtherPlace(s, step, s', q);
        OtherFresh(s, step, s', q);
        OtherBuilds(s, step, s', q);
      }
    }
    OwnerBuilds(s, step, s');
    forall q | q in s'.processes && s'.lease.Some? && ToldOf(s', q, s'.lease.value)
      ensures s'.lease.value in s'.tokens && (s'.private || s'.owner == Some(s'.tokens[s'.lease.value]))
    {
      ToldOwner(s, step, s', q);
    }
  }

  // ---------------------------------------------------------------- every run

  /** Every state of every run meets the invariant. */
  lemma {:induction false} RunKeeps(run: seq<State>, steps: seq<Step>, i: nat)
    requires IsRun(run, steps) && i < |run|
    ensures Inv(run[i])
    decreases i
  {
    hide Inv, Next;
    if i == 0 {
      InitialKeeps(run[0]);
    } else {
      RunKeeps(run, steps, i - 1);
      StepKeeps(run[i - 1], steps[i - 1], run[i]);
    }
  }

  lemma InitialKeeps(s: State)
    requires Initial(s)
    ensures Inv(s)
  {}

  /** A process that holds a lease of the folder: it has a descriptor of a file that
      shares the lock for that lease. */
  ghost predicate Holds(s: State, p: Pid, t: Token) {
    exists f :: f in s.files && p in s.files[f].holders && s.files[f].token == Some(t)
  }

  /** All holders hold one lease, the one the folder carries, so they are of one worktree;
      none ever shares the lock with a process that holds it alone. */
  lemma OneLease(run: seq<State>, steps: seq<Step>, i: nat, p: Pid, t: Token)
    requires IsRun(run, steps) && i < |run| && Holds(run[i], p, t)
    ensures var s := run[i];
      && s.lease == Some(t) && t in s.tokens && p in s.processes
      && (s.processes[p].env.Env? ==> s.processes[p].env == Env(t, s.tokens[t]))
      && (At(s, p).Running? ==> At(s, p).t == t && At(s, p).w == s.tokens[t])
      && !exists f :: f in s.files && s.files[f].lock == Exclusive
  {
    hide OwnerOk, OwnOk, FreshOk, BuildsOk;
    RunKeeps(run, steps, i);
    var s := run[i];
    var f :| f in s.files && p in s.files[f].holders && s.files[f].token == Some(t);
    assert FileOk(s, f) && EnvOk(s, p) && PlaceOk(s, p);
    assert At(s, p).Running? ==> FileOk(s, At(s, p).f);
    forall g | g in s.files ensures s.files[g].lock != Exclusive {
      assert FileOk(s, g);
    }
  }

  /** While a lease is held no process holds the lock alone. */
  lemma LeaseApart(s: State, p: Pid, f: File)
    requires AllFiles(s) && AllOwn(s) && p in s.processes && f in s.files && s.files[f].token.Some?
    ensures HasFile(At(s, p)) ==> OwnLock(At(s, p)) != Exclusive
  {
    assert OwnOk(s, p) && FileOk(s, f);
    assert HasFile(At(s, p)) ==> FileOk(s, At(s, p).f);
  }

  /** The folder's token is not replaced, and not even emptied, while a holder lives. */
  lemma TokenStays(run: seq<State>, steps: seq<Step>, i: nat, p: Pid, t: Token)
    requires IsRun(run, steps) && i < |steps| && Holds(run[i], p, t)
    ensures run[i + 1].lease == Some(t)
  {
    hide Next, WritesNext, OwnerOk, EnvOk, PlaceOk, FreshOk, BuildsOk;
    RunKeeps(run, steps, i);
    var (s, step) := (run[i], steps[i]);
    var f :| f in s.files && p in s.files[f].holders && s.files[f].token == Some(t);
    assert FileOk(s, f);
    Leaves(s, step, run[i + 1], f, p);
    if WritesNext(s, step, run[i + 1]) {
      WritesDo(s, step, run[i + 1]);
      WritesLeave(s, step, run[i + 1], p);
      LeaseApart(s, step.p, f);
    }
  }

  /** A process makes its file a lease's: a join that found the token it was told in the folder,
      with the lock shared, or the turn of the lease it drew. */
  predicate MakesHolder(s: State, step: Step, f: File, t: Token) {
    && step.p in s.processes && f in s.files && s.files[f].holders == {step.p} && s.lease == Some(t)
    && var Process(env, phase) := s.processes[step.p];
       || (step.Confirm? && phase.Joined? && phase.f == f && s.files[f].lock == Shared
           && env.Env? && env.token == t && env.worktree == phase.w)
       || (step.Share? && phase.Turning? && phase.f == f && phase.t == t)
  }

  lemma OpensToken(s: State, step: Step, s': State, f: File)
    requires OpensNext(s, step, s') && OwnOk(s, step.p) && FreshOk(s, step.p) && EnvOk(s, step.p)
    requires f in s'.files && s'.files[f].token.Some?
    requires f in s.files ==> s.files[f].token != s'.files[f].token
    ensures MakesHolder(s, step, f, s'.files[f].token.value)
  {
    hide LockFree, LockShared, Doomed, Members;
  }

  /** A file becomes a lease's only so. */
  lemma HeldByToken(run: seq<State>, steps: seq<Step>, i: nat, f: File)
    requires IsRun(run, steps) && i < |steps| && f in run[i + 1].files && run[i + 1].files[f].token.Some?
    requires f in run[i].files ==> run[i].files[f].token != run[i + 1].files[f].token
    ensures MakesHolder(run[i], steps[i], f, run[i + 1].files[f].token.value)
  {
    hide TurnsNext, WritesNext, OpensNext, PassesNext, OwnOk, EnvOk;
    hide PlaceOk, FreshOk, BuildsOk, AloneOk, LeaseOk, OwnerOk, MakesHolder;
    RunKeeps(run, steps, i);
    var (s, step, s') := (run[i], steps[i], run[i + 1]);
    assert step.p in s.processes ==> OwnOk(s, step.p) && PlaceOk(s, step.p) && FreshOk(s, step.p) && EnvOk(s, step.p);
    assert f in s.files ==> FileOk(s, f);
    if TurnsNext(s, step, s') {
      TurnsLeave(s, step, s', step.p);
    } else if WritesNext(s, step, s') {
      WritesLeave(s, step, s', step.p);
    } else if OpensNext(s, step, s') {
      OpensLeave(s, step, s', f, step.p);
      OpensToken(s, step, s', f);
    } else {
      PassesLeave(s, step, s', f, step.p);
    }
  }

  /** From its draw until its command runs a lease's token is the folder's, whatever the other
      processes do, though its process drops the lock in between, and no other is drawn. */
  lemma TurnKept(run: seq<State>, steps: seq<Step>, i: nat, p: Pid, q: Pid)
    requires IsRun(run, steps) && i < |steps| && p in run[i].processes && Fresh(At(run[i], p)) && steps[i].p != p
    ensures p in run[i + 1].processes && At(run[i + 1], p) == At(run[i], p)
    ensures run[i + 1].lease == Some(At(run[i], p).t)
    ensures q in run[i + 1].processes && Fresh(At(run[i + 1], q)) ==> q == p
  {
    hide Next, EnvOk, OwnerOk, BuildsOk, FileOk, OwnOk, PlaceOk;
    RunKeeps(run, steps, i);
    RunKeeps(run, steps, i + 1);
    assert FreshOk(run[i], p);
    Leaves(run[i], steps[i], run[i + 1], 0, p);
    LeaseStays(run[i], steps[i], run[i + 1], p);
    if q in run[i + 1].processes && Fresh(At(run[i + 1], q)) {
      OneFresh(run[i + 1], p, q);
    }
  }

  /** While the folder is made right for a worktree no other process holds a lease of it,
      and no command was told of this one. */
  lemma PreparesAlone(run: seq<State>, steps: seq<Step>, i: nat, p: Pid, q: Pid, t: Token)
    requires IsRun(run, steps) && i < |run|
    requires p in run[i].processes && AtPrepare(At(run[i], p)) && Holds(run[i], q, t)
    ensures q == p && t == At(run[i], p).t
  {
    hide FileOk, OwnerOk, EnvOk, PlaceOk, BuildsOk;
    RunKeeps(run, steps, i);
    assert OwnOk(run[i], p) && FreshOk(run[i], p);
  }

  // ---------------------------------------------------------------- whose builds a command finds

  /** A private folder has one lease, and all its builds are of that lease's worktree. */
  ghost predicate PrivateOk(s: State) {
    s.private ==>
      && (forall t <- s.tokens, u <- s.tokens :: t == u)
      && (forall x <- s.builds :: exists t :: t in s.tokens && s.tokens[t] == s.builds[x])
      && (forall q :: Waits(s, q) ==> s.tokens == map[])
  }

  lemma NewWaiter(s: State, step: Step, s': State, q: Pid)
    requires Inv(s) && Next(s, step, s') && Waits(s', q)
    ensures Waits(s, q) || (step.Gate? && (s.private ==> s.tokens == map[]))
  {
    hide TurnsNext, WritesNext, OpensNext, PassesNext, OwnOk, EnvOk;
    hide PlaceOk, FreshOk, BuildsOk, AloneOk, LeaseOk, OwnerOk;
    var p := step.p;
    assert p in s.processes ==> OwnOk(s, p) && PlaceOk(s, p);
    assert 0 in s.files ==> FileOk(s, 0);
    if TurnsNext(s, step, s') {
      TurnsLeave(s, step, s', q);
    } else if WritesNext(s, step, s') {
      WritesLeave(s, step, s', q);
    } else if OpensNext(s, step, s') {
      OpensLeave(s, step, s', 0, q);
    } else {
      PassesLeave(s, step, s', 0, q);
    }
  }

  lemma PrivateStays(s: State, step: Step, s': State)
    requires Inv(s) && PrivateOk(s) && Next(s, step, s')
    ensures PrivateOk(s')
  {
    hide Next, WritesNext, FileOk, OwnOk, FreshOk, BuildsOk, OwnerOk, CanBuild;
    Leaves(s, step, s', 0, step.p);
    forall q | Waits(s', q) ensures s.private ==> s.tokens == map[] {
      NewWaiter(s, step, s', q);
    }
    if WritesNext(s, step, s') && s.private {
      PrivateWrites(s, step, s');
    }
  }

  lemma PrivateWrites(s: State, step: Step, s': State)
    requires Inv(s) && PrivateOk(s) && WritesNext(s, step, s') && s.private
    ensures PrivateOk(s')
  {
    hide Next, WritesNext, FileOk, OwnOk, FreshOk, BuildsOk, OwnerOk;
    var p := step.p;
    WritesLeave(s, step, s', p);
    WritesDo(s, step, s');
    assert EnvOk(s, p) && PlaceOk(s, p);
    forall q | Waits(s', q) ensures Waits(s, q) && !step.Mark? {
      WritesLeave(s, step, s', q);
      assert q in s.processes ==> PlaceOk(s, q);
    }
    if step.Mark? {
      assert Waits(s, p) && s.builds == map[];
    } else if step.Build? {
      var token := s.processes[p].env.token;
      assert token in s'.tokens && s'.tokens[token] == s'.builds[step.x];
    }
  }

  lemma {:induction false} RunPrivate(run: seq<State>, steps: seq<Step>, i: nat)
    requires IsRun(run, steps) && i < |run|
    ensures PrivateOk(run[i])
    decreases i
  {
    hide Inv, Next;
    if i > 0 {
      RunPrivate(run, steps, i - 1);
      RunKeeps(run, steps, i - 1);
      PrivateStays(run[i - 1], steps[i - 1], run[i]);
    }
  }

  /** A command of a lease finds no build of its members but its own worktree's, in a slot
      for which its worktree is the owner, and in a private folder. */
  lemma OwnBuilds(run: seq<State>, steps: seq<Step>, i: nat, p: Pid, x: Package)
    requires IsRun(run, steps) && i < |run| && CanBuild(run[i], p, x)
    ensures var (s, w) := (run[i], run[i].processes[p].env.worktree);
      && (s.private || s.owner == Some(w))
      && forall y <- s.builds :: y in Members(s, w) ==> s.builds[y] == w
  {
    hide FileOk, OwnOk, PlaceOk, FreshOk, BuildsOk;
    RunKeeps(run, steps, i);
    RunPrivate(run, steps, i);
    var (s, env) := (run[i], run[i].processes[p].env);
    assert EnvOk(s, p);
    BuilderTold(s, p, x);
  }

  // ---------------------------------------------------------------- a folder nobody holds

  /** Process `q` holds the lock with file `f`, for no lease. */
  ghost predicate Keeper(s: State, q: Pid, f: File) {
    && q in s.processes
    && var p := s.processes[q].phase;
       (p.Joined? || p.Alone? || p.Marked? || p.Looking?) && p.f == f
  }

  ghost predicate LockedOk(s: State) {
    forall f <- s.files :: Bare(s, f) ==> exists q :: Keeper(s, q, f)
  }

  predicate Bare(s: State, f: File) {
    f in s.files && s.files[f].lock != Unlocked && s.files[f].token == None
  }

  lemma OpensKeeper(s: State, step: Step, s': State, f: File)
    requires OpensNext(s, step, s') && Bare(s', f) && (!Bare(s, f) || Keeper(s, step.p, f))
    ensures Keeper(s', step.p, f)
  {
    hide LockFree, LockShared, Joinable;
  }

  lemma WritesKeeper(s: State, step: Step, s': State, f: File)
    requires TurnsNext(s, step, s') || WritesNext(s, step, s')
    requires Bare(s', f) && Keeper(s, step.p, f)
    ensures Keeper(s', step.p, f)
  {
    hide LockFree, LockShared, Doomed, Members, Joinable, CanBuild;
  }

  lemma PassesKeeper(s: State, step: Step, s': State, f: File)
    requires PassesNext(s, step, s') && Keeper(s, step.p, f) && OwnOk(s, step.p)
    ensures !Bare(s', f)
  {
    hide LockFree, LockShared, Joinable;
  }

  lemma KeeperThere(s: State, q: Pid, f: File)
    requires Keeper(s, q, f)
    ensures q in s.processes && HasFile(At(s, q)) && At(s, q).f == f
  {}

  lemma StaysKeeper(s: State, s': State, q: Pid, f: File)
    requires Keeper(s, q, f) && q in s'.processes && s'.processes[q] == s.processes[q]
    ensures Keeper(s', q, f)
  {}

  lemma KeeperStays(s: State, step: Step, s': State, f: File)
    requires Inv(s) && LockedOk(s) && Next(s, step, s') && Bare(s', f)
    ensures exists q :: Keeper(s', q, f)
  {
    hide TurnsNext, WritesNext, OpensNext, PassesNext, Keeper, AloneOk, LeaseOk;
    hide EnvOk, PlaceOk, FreshOk, BuildsOk, OwnerOk, OwnOk;
    var p := step.p;
    assert p in s.processes ==> OwnOk(s, p) && PlaceOk(s, p);
    assert f in s.files ==> FileOk(s, f);
    if !OpensNext(s, step, s') {
      StillBare(s, step, s', f);
    }
    var q :| Bare(s, f) ==> Keeper(s, q, f);
    if Bare(s, f) && q != p {
      KeeperThere(s, q, f);
      Leaves(s, step, s', f, q);
      StaysKeeper(s, s', q, f);
    } else if OpensNext(s, step, s') {
      OpensKeeper(s, step, s', f);
    } else {
      KeeperThere(s, p, f);
      if PassesNext(s, step, s') {
        PassesKeeper(s, step, s', f);
      } else {
        WritesKeeper(s, step, s', f);
      }
    }
  }

  lemma StillBare(s: State, step: Step, s': State, f: File)
    requires Inv(s) && Next(s, step, s') && !OpensNext(s, step, s') && Bare(s', f)
    ensures Bare(s, f)
  {
    hide TurnsNext, WritesNext, OpensNext, PassesNext, AloneOk, LeaseOk;
    hide EnvOk, PlaceOk, FreshOk, BuildsOk, OwnerOk, OwnOk;
    assert step.p in s.processes ==> OwnOk(s, step.p) && PlaceOk(s, step.p);
    assert f in s.files ==> FileOk(s, f);
    if TurnsNext(s, step, s') {
      TurnsLeave(s, step, s', 0);
    } else if WritesNext(s, step, s') {
      WritesLeave(s, step, s', 0);
    } else {
      PassesLeave(s, step, s', f, 0);
    }
  }

  lemma {:induction false} RunLocked(run: seq<State>, steps: seq<Step>, i: nat)
    requires IsRun(run, steps) && i < |run|
    ensures LockedOk(run[i])
    decreases i
  {
    hide Inv, Next;
    if i > 0 {
      RunLocked(run, steps, i - 1);
      RunKeeps(run, steps, i - 1);
      forall f | Bare(run[i], f) ensures exists q :: Keeper(run[i], q, f) {
        KeeperStays(run[i - 1], steps[i - 1], run[i], f);
      }
    }
  }

  /** A process that looks at the folder, or joins it and has not compared its token yet. */
  ghost predicate Passing(s: State, q: Pid) {
    q in s.processes && (At(s, q).Looking? || At(s, q).Joined?)
  }

  /** A process at the gate gets a new lease exactly when no process holds one, and none looks
      at the folder or has joined the lock and not yet compared its token; else it is turned
      away. So a folder nobody holds is refused exactly for these. */
  lemma RefusedExactly(run: seq<State>, steps: seq<Step>, i: nat, p: Pid, f: File)
    requires IsRun(run, steps) && i < |run| && p in run[i].processes && At(run[i], p).Gated? && f !in run[i].files
    ensures CanTake(run[i], p, f) <==> NoLeases(run[i]) && !exists q :: Passing(run[i], q)
    ensures CanTurnAway(run[i], p) <==> !CanTake(run[i], p, f)
  {
    hide Next, EnvOk, BuildsOk, FreshOk, OwnerOk;
    var s := run[i];
    RunKeeps(run, steps, i);
    RunLocked(run, steps, i);
    assert PlaceOk(s, p);
    if q :| Passing(s, q) {
      assert OwnOk(s, q);
      assert s.files[At(s, q).f].lock != Unlocked;
    }
    if g :| g in s.files && s.files[g].token.Some? {
      assert FileOk(s, g);
    }
    if !LockFree(s) && NoLeases(s) {
      var g :| g in s.files && s.files[g].lock != Unlocked;
      assert Bare(s, g);
      var q :| Keeper(s, q, g);
      KeeperThere(s, q, g);
      assert PlaceOk(s, q);
      assert Passing(s, q);
    }
  }

  /** Once a folder is removed no process is at its gate, and no token is in it. */
  ghost predicate GoneOk(s: State) {
    s.gone ==> s.lease == None && s.gate == None
  }

  lemma GoneStays(s: State, step: Step, s': State)
    requires Inv(s) && GoneOk(s) && Next(s, step, s')
    ensures GoneOk(s')
  {
    hide TurnsNext, WritesNext, OpensNext, PassesNext, OwnOk, EnvOk;
    hide PlaceOk, FreshOk, BuildsOk, AloneOk, LeaseOk, OwnerOk;
    var p := step.p;
    assert p in s.processes ==> OwnOk(s, p) && PlaceOk(s, p);
    assert 0 in s.files ==> FileOk(s, 0);
    if TurnsNext(s, step, s') {
      TurnsLeave(s, step, s', p);
    } else if WritesNext(s, step, s') {
      WritesLeave(s, step, s', p);
      WritesDo(s, step, s');
      PlacedAtGate(s, p);
    } else if OpensNext(s, step, s') {
      OpensLeave(s, step, s', 0, p);
    } else {
      PassesLeave(s, step, s', 0, p);
    }
  }

  lemma PlacedAtGate(s: State, p: Pid)
    requires p in s.processes && PlaceOk(s, p)
    ensures AtGate(At(s, p)) ==> s.gate == Some(p)
  {}

  lemma {:induction false} RunGone(run: seq<State>, steps: seq<Step>, i: nat)
    requires IsRun(run, steps) && i < |run|
    ensures GoneOk(run[i])
    decreases i
  {
    hide Inv, Next;
    if i > 0 {
      RunGone(run, steps, i - 1);
      RunKeeps(run, steps, i - 1);
      GoneStays(run[i - 1], steps[i - 1], run[i]);
    }
  }

  /** A private folder is removed only when no process holds it, and no process ever holds it
      after that. */
  lemma SweptUnheld(run: seq<State>, steps: seq<Step>, i: nat, p: Pid, t: Token)
    requires IsRun(run, steps) && i < |run|
    requires run[i].gone || (i < |steps| && steps[i].Sweep?)
    ensures !Holds(run[i], p, t)
  {
    hide EnvOk, BuildsOk, FreshOk, OwnerOk, PlaceOk;
    RunKeeps(run, steps, i);
    RunGone(run, steps, i);
    var s := run[i];
    if f :| f in s.files && p in s.files[f].holders && s.files[f].token == Some(t) {
      assert FileOk(s, f);
      if !s.gone {
        Sweeping(s, steps[i], run[i + 1]);
        LeaseApart(s, steps[i].p, f);
      }
    }
  }

  lemma Sweeping(s: State, step: Step, s': State)
    requires Next(s, step, s') && step.Sweep?
    ensures step.p in s.processes && At(s, step.p).Looking?
  {
    hide LockFree, LockShared, Doomed, Members, Joinable, CanBuild, CanDisown, CanInspect;
  }

  /** A look at a folder nobody holds turns a new lease away. */
  lemma LookRefuses(members: map<Worktree, set<Package>>, w: Worktree) returns (run: seq<State>, steps: seq<Step>)
    ensures IsRun(run, steps) && |run| == 6 && NoLeases(run[5])
    ensures CanTurnAway(run[5], 1)
  {
    hide Next;
    var s0 := State(map[], map[], None, None, map[], None, map[], members, false, false);
    var s1 := BeginStep(s0, 0);
    var s2 := BeginStep(s1, 1);
    var s3 := LookStep(s2, 0, 0);
    var s4 := ScriptStep(s3, 1, w);
    var s5 := GateStep(s4, 1);
    IsNext(s0, s1, s2, s3, s4, s5, w);
    assert s5.files == map[0 := OpenFile(Exclusive, {0}, None)];
    run, steps := FiveSteps(s0, s1, s2, s3, s4, s5, [Begin(0), Begin(1), Look(0, 0), Script(1, w), Gate(1)]);
  }

  lemma IsNext(s0: State, s1: State, s2: State, s3: State, s4: State, s5: State, w: Worktree)
    requires CanBegin(s0, 0) && s1 == BeginStep(s0, 0)
    requires CanBegin(s1, 1) && s2 == BeginStep(s1, 1)
    requires CanLook(s2, 0, 0) && s3 == LookStep(s2, 0, 0)
    requires CanScript(s3, 1, w) && s4 == ScriptStep(s3, 1, w)
    requires CanGate(s4, 1) && s5 == GateStep(s4, 1)
    ensures Next(s0, Begin(0), s1) && Next(s1, Begin(1), s2) && Next(s2, Look(0, 0), s3)
    ensures Next(s3, Script(1, w), s4) && Next(s4, Gate(1), s5)
  {
    hide BeginStep, LookStep, ScriptStep, GateStep, CanBegin, CanLook, CanScript, CanGate;
  }

  lemma FiveSteps(s0: State, s1: State, s2: State, s3: State, s4: State, s5: State, taken: seq<Step>)
    returns (run: seq<State>, steps: seq<Step>)
    requires |taken| == 5 && Initial(s0)
    requires Next(s0, taken[0], s1) && Next(s1, taken[1], s2) && Next(s2, taken[2], s3)
    requires Next(s3, taken[3], s4) && Next(s4, taken[4], s5)
    ensures IsRun(run, steps) && |run| == 6 && run[5] == s5
  {
    hide Next, Initial;
    run, steps := [s0, s1, s2, s3, s4, s5], taken;
  }
}
