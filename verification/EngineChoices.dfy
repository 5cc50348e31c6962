/** The order of engine choices (`choices.rs`, `prefs.rs`, `stockfish_updates.rs`), as
    the interleaved steps of the threads that choose, install, update and remove. */
module EngineChoices {
  import opened Wrappers
  import opened Versions

  type Thread = nat

  /** An engine: a build the bridge installed, or one from elsewhere. */
  datatype Engine = Ours(version: Version) | Other(path: nat)

  /** What an installation is for: the user's, or an automatic update. */
  datatype Job = Install | Update

  /** Where a choice comes from: the user, or an installation with its ticket. */
  datatype Origin = User | Installed(job: Job, ticket: nat)

  datatype Phase =
    | Idle
    | ChooseWaits(e: Engine)                        // choose: for the choosing lock
    | ChooseProbes(e: Engine)
    | Saving(e: Engine, from: Origin)               // save: before the settings are written
    | Counting(e: Engine, from: Origin)             // save: written, not counted yet
    | Ticketing(job: Job, v: Version)               // the installation lock is held
    | Installing(job: Job, v: Version, ticket: nat)
    | Waiting(v: Version, ticket: nat)              // update: until the bridge is idle
    | InstalledWaits(job: Job, v: Version, ticket: nat)
    | InstalledProbes(job: Job, v: Version, ticket: nat)
    | Confirms(v: Version, ticket: nat)             // update: for the preferences' lock
    | Compares(job: Job, v: Version, ticket: nat)
    | Looks(newest: Version)                        // a look, the option being on
    | UpdateBegins(v: Version)                      // a look that read an older build of ours
    | RemoveBegins
    | RemoveWaits                                   // while_settled: for the choosing lock
    | RemoveReads
    | RemoveConfirms(kept: Version)                 // for the preferences' lock
    | Removes(kept: Version)
    | PrefsWaits(on: bool)                          // prefs::update: for its lock
    | PrefsWrites(on: bool)

  /** `saved` is the counter of the choices saved; `writes` counts the writes of the
      choice themselves. `on` is the option to update by itself. */
  datatype State = State(
    threads: map<Thread, Phase>,
    installing: Option<Thread>, choosing: Option<Thread>, prefs: Option<Thread>,
    saved: nat, writes: nat,
    choice: Option<Engine>, builds: set<Version>, on: bool)

  datatype Step =
    | ChooseStart(t: Thread, e: Engine)
    | ChooseLock(t: Thread)
    | ChooseProbe(t: Thread, ok: bool)
    | Write(t: Thread)
    | WriteFails(t: Thread)
    | Count(t: Thread)
    | InstallStart(t: Thread, v: Version)
    | TakeTicket(t: Thread)
    | InstallEnd(t: Thread, ok: bool)
    | WaitEnd(t: Thread, idle: bool)
    | InstalledLock(t: Thread)
    | InstalledProbe(t: Thread, ok: bool)
    | Confirm(t: Thread)
    | Compare(t: Thread)
    | LookStart(t: Thread, newest: Version)
    | LookRead(t: Thread)
    | UpdateBegin(t: Thread)
    | RemoveBegin(t: Thread)
    | RemoveLock(t: Thread)
    | RemoveRead(t: Thread)
    | RemoveConfirm(t: Thread)
    | Remove(t: Thread, v: Version)
    | RemoveEnd(t: Thread)
    | PrefsStart(t: Thread, on: bool)
    | PrefsLock(t: Thread)
    | PrefsWrite(t: Thread)

  // ---------------------------------------------------------------- the steps

  predicate Exists(s: State, e: Engine) {
    e.Ours? ==> e.version in s.builds
  }

  function Goes(s: State, t: Thread, phase: Phase): State {
    s.(threads := s.threads[t := phase])
  }

  /** On to `phase`, and unless the operation goes on every lock it holds goes. */
  function Continues(s: State, t: Thread, on: bool, phase: Phase): State {
    Goes(s, t, phase).(
      installing := if !on && s.installing == Some(t) then None else s.installing,
      choosing := if !on && s.choosing == Some(t) then None else s.choosing,
      prefs := if !on && s.prefs == Some(t) then None else s.prefs)
  }

  /** On to `phase` with the preferences' lock too, or the operation ends. */
  function Takes(s: State, t: Thread, on: bool, phase: Phase): State {
    var s' := Continues(s, t, on, phase);
    s'.(prefs := if on then Some(t) else s'.prefs)
  }

  /** An operation ends. */
  function Leaves(s: State, t: Thread, phase: Phase): State {
    Continues(s, t, false, phase)
  }

  predicate CanChooseStart(s: State, t: Thread, e: Engine) {
    t in s.threads && s.threads[t] == Idle
  }

  function ChooseStartStep(s: State, t: Thread, e: Engine): State
    requires CanChooseStart(s, t, e)
  {
    Goes(s, t, ChooseWaits(e))
  }

  predicate CanChooseLock(s: State, t: Thread) {
    t in s.threads && s.threads[t].ChooseWaits? && s.choosing == None
  }

  function ChooseLockStep(s: State, t: Thread): State
    requires CanChooseLock(s, t)
  {
    Goes(s, t, ChooseProbes(s.threads[t].e)).(choosing := Some(t))
  }

  predicate CanChooseProbe(s: State, t: Thread, ok: bool) {
    t in s.threads && s.threads[t].ChooseProbes? && (ok ==> Exists(s, s.threads[t].e))
  }

  /** A probe accepts no build that is not there. */
  function ChooseProbeStep(s: State, t: Thread, ok: bool): State
    requires CanChooseProbe(s, t, ok)
  {
    Continues(s, t, ok, if ok then Saving(s.threads[t].e, User) else Idle)
  }

  predicate CanWrite(s: State, t: Thread) {
    t in s.threads && s.threads[t].Saving?
  }

  /** `save`, first the settings. */
  function WriteStep(s: State, t: Thread): State
    requires CanWrite(s, t)
  {
    Goes(s, t, Counting(s.threads[t].e, s.threads[t].from)).(choice := Some(s.threads[t].e), writes := s.writes + 1)
  }

  predicate CanWriteFails(s: State, t: Thread) {
    t in s.threads && s.threads[t].Saving?
  }

  function WriteFailsStep(s: State, t: Thread): State
    requires CanWriteFails(s, t)
  {
    Leaves(s, t, Idle)
  }

  predicate CanCount(s: State, t: Thread) {
    t in s.threads && s.threads[t].Counting?
  }

  /** `save`, then the counter; an update goes on to the older builds. */
  function CountStep(s: State, t: Thread): State
    requires CanCount(s, t)
  {
    Leaves(s, t, if s.threads[t].from.Installed? && s.threads[t].from.job == Update then RemoveBegins else Idle).(
      saved := s.saved + 1)
  }

  predicate CanInstallStart(s: State, t: Thread, v: Version) {
    t in s.threads && s.threads[t] == Idle
  }

  /** One installation at a time: a second is refused. */
  function InstallStartStep(s: State, t: Thread, v: Version): State
    requires CanInstallStart(s, t, v)
  {
    if s.installing == None then Goes(s, t, Ticketing(Install, v)).(installing := Some(t)) else s
  }

  predicate CanTakeTicket(s: State, t: Thread) {
    t in s.threads && s.threads[t].Ticketing?
  }

  function TakeTicketStep(s: State, t: Thread): State
    requires CanTakeTicket(s, t)
  {
    Goes(s, t, Installing(s.threads[t].job, s.threads[t].v, s.saved))
  }

  predicate CanInstallEnd(s: State, t: Thread, ok: bool) {
    t in s.threads && s.threads[t].Installing?
  }

  /** An update no longer counts as an installation while it waits. */
  function InstallEndStep(s: State, t: Thread, ok: bool): State
    requires CanInstallEnd(s, t, ok)
  {
    var p := s.threads[t];
    var phase := if p.job == Install then InstalledWaits(p.job, p.v, p.ticket) else Waiting(p.v, p.ticket);
    Continues(s, t, ok && p.job == Install, if ok then phase else Idle).(
      builds := if ok then s.builds + {p.v} else s.builds)
  }

  predicate CanWaitEnd(s: State, t: Thread, idle: bool) {
    t in s.threads && s.threads[t].Waiting?
  }

  function WaitEndStep(s: State, t: Thread, idle: bool): State
    requires CanWaitEnd(s, t, idle)
  {
    Goes(s, t, if idle && s.on then InstalledWaits(Update, s.threads[t].v, s.threads[t].ticket) else Idle)
  }

  predicate CanInstalledLock(s: State, t: Thread) {
    t in s.threads && s.threads[t].InstalledWaits? && s.choosing == None
  }

  function InstalledLockStep(s: State, t: Thread): State
    requires CanInstalledLock(s, t)
  {
    Goes(s, t, InstalledProbes(s.threads[t].job, s.threads[t].v, s.threads[t].ticket)).(choosing := Some(t))
  }

  predicate CanInstalledProbe(s: State, t: Thread, ok: bool) {
    t in s.threads && s.threads[t].InstalledProbes? && (ok ==> s.threads[t].v in s.builds)
  }

  function InstalledProbeStep(s: State, t: Thread, ok: bool): State
    requires CanInstalledProbe(s, t, ok)
  {
    var p := s.threads[t];
    Continues(s, t, ok,
      if !ok then Idle else if p.job == Install then Compares(p.job, p.v, p.ticket) else Confirms(p.v, p.ticket))
  }

  predicate CanConfirm(s: State, t: Thread) {
    t in s.threads && s.threads[t].Confirms? && s.prefs == None
  }

  /** The option is read under the preferences' lock, which is kept while it is on. */
  function ConfirmStep(s: State, t: Thread): State
    requires CanConfirm(s, t)
  {
    var phase := if s.on then Compares(Update, s.threads[t].v, s.threads[t].ticket) else Idle;
    Takes(s, t, s.on, phase)
  }

  predicate CanCompare(s: State, t: Thread) {
    t in s.threads && s.threads[t].Compares?
  }

  /** `save_if_current`: a choice made since the ticket stands. */
  function CompareStep(s: State, t: Thread): State
    requires CanCompare(s, t)
  {
    var p := s.threads[t];
    var same := s.saved == p.ticket;
    Continues(s, t, same, if same then Saving(Ours(p.v), Installed(p.job, p.ticket)) else Idle)
  }

  predicate CanLookStart(s: State, t: Thread, newest: Version) {
    t in s.threads && s.threads[t] == Idle
  }

  function LookStartStep(s: State, t: Thread, newest: Version): State
    requires CanLookStart(s, t, newest)
  {
    if s.on then Goes(s, t, Looks(newest)) else s
  }

  predicate CanLookRead(s: State, t: Thread) {
    t in s.threads && s.threads[t].Looks?
  }

  /** A look reads the choice, before any ticket. */
  function LookReadStep(s: State, t: Thread): State
    requires CanLookRead(s, t)
  {
    var newest := s.threads[t].newest;
    Goes(s, t,
      if s.choice == None || !s.choice.value.Ours? then Idle
      else if IsNewer(newest, s.choice.value.version) then UpdateBegins(newest)
      else RemoveBegins)
  }

  predicate CanUpdateBegin(s: State, t: Thread) {
    t in s.threads && s.threads[t].UpdateBegins?
  }

  function UpdateBeginStep(s: State, t: Thread): State
    requires CanUpdateBegin(s, t)
  {
    Goes(s, t, if s.installing == None then Ticketing(Update, s.threads[t].v) else Idle).(
      installing := if s.installing == None then Some(t) else s.installing)
  }

  predicate CanRemoveBegin(s: State, t: Thread) {
    t in s.threads && s.threads[t].RemoveBegins?
  }

  function RemoveBeginStep(s: State, t: Thread): State
    requires CanRemoveBegin(s, t)
  {
    Goes(s, t, if s.installing == None then RemoveWaits else Idle).(
      installing := if s.installing == None then Some(t) else s.installing)
  }

  predicate CanRemoveLock(s: State, t: Thread) {
    t in s.threads && s.threads[t].RemoveWaits? && s.choosing == None
  }

  function RemoveLockStep(s: State, t: Thread): State
    requires CanRemoveLock(s, t)
  {
    Goes(s, t, RemoveReads).(choosing := Some(t))
  }

  predicate CanRemoveRead(s: State, t: Thread) {
    t in s.threads && s.threads[t].RemoveReads?
  }

  function RemoveReadStep(s: State, t: Thread): State
    requires CanRemoveRead(s, t)
  {
    var ours := s.choice.Some? && s.choice.value.Ours?;
    Continues(s, t, ours, if ours then RemoveConfirms(s.choice.value.version) else Idle)
  }

  predicate CanRemoveConfirm(s: State, t: Thread) {
    t in s.threads && s.threads[t].RemoveConfirms? && s.prefs == None
  }

  function RemoveConfirmStep(s: State, t: Thread): State
    requires CanRemoveConfirm(s, t)
  {
    Takes(s, t, s.on, if s.on then Removes(s.threads[t].kept) else Idle)
  }

  predicate CanRemove(s: State, t: Thread, v: Version) {
    t in s.threads && s.threads[t].Removes? && v in s.builds && IsNewer(s.threads[t].kept, v)
  }

  function RemoveStep(s: State, t: Thread, v: Version): State
    requires CanRemove(s, t, v)
  {
    s.(builds := s.builds - {v})
  }

  predicate CanRemoveEnd(s: State, t: Thread) {
    t in s.threads && s.threads[t].Removes?
  }

  function RemoveEndStep(s: State, t: Thread): State
    requires CanRemoveEnd(s, t)
  {
    Leaves(s, t, Idle)
  }

  predicate CanPrefsStart(s: State, t: Thread, on: bool) {
    t in s.threads && s.threads[t] == Idle
  }

  function PrefsStartStep(s: State, t: Thread, on: bool): State
    requires CanPrefsStart(s, t, on)
  {
    Goes(s, t, PrefsWaits(on))
  }

  predicate CanPrefsLock(s: State, t: Thread) {
    t in s.threads && s.threads[t].PrefsWaits? && s.prefs == None
  }

  function PrefsLockStep(s: State, t: Thread): State
    requires CanPrefsLock(s, t)
  {
    Goes(s, t, PrefsWrites(s.threads[t].on)).(prefs := Some(t))
  }

  predicate CanPrefsWrite(s: State, t: Thread) {
    t in s.threads && s.threads[t].PrefsWrites?
  }

  function PrefsWriteStep(s: State, t: Thread): State
    requires CanPrefsWrite(s, t)
  {
    Leaves(s, t, Idle).(on := s.threads[t].on)
  }

  /** An installation or a look at what is newer begins. */
  predicate StartNext(s: State, step: Step, s': State) {
    match step
    case InstallStart(t, v) => CanInstallStart(s, t, v) && s' == InstallStartStep(s, t, v)
    case LookStart(t, newest) => CanLookStart(s, t, newest) && s' == LookStartStep(s, t, newest)
    case _ => false
  }

  /** A user chooses. */
  predicate ChooseNext(s: State, step: Step, s': State) {
    match step
    case ChooseStart(t, e) => CanChooseStart(s, t, e) && s' == ChooseStartStep(s, t, e)
    case ChooseLock(t) => CanChooseLock(s, t) && s' == ChooseLockStep(s, t)
    case ChooseProbe(t, ok) => CanChooseProbe(s, t, ok) && s' == ChooseProbeStep(s, t, ok)
    case _ => false
  }

  /** A choice is written and counted. */
  predicate SaveNext(s: State, step: Step, s': State) {
    match step
    case Write(t) => CanWrite(s, t) && s' == WriteStep(s, t)
    case WriteFails(t) => CanWriteFails(s, t) && s' == WriteFailsStep(s, t)
    case Count(t) => CanCount(s, t) && s' == CountStep(s, t)
    case _ => false
  }

  /** An installation takes its ticket and installs its build. */
  predicate InstallNext(s: State, step: Step, s': State) {
    match step
    case TakeTicket(t) => CanTakeTicket(s, t) && s' == TakeTicketStep(s, t)
    case InstallEnd(t, ok) => CanInstallEnd(s, t, ok) && s' == InstallEndStep(s, t, ok)
    case _ => false
  }

  /** What was installed is probed. */
  predicate InstalledNext(s: State, step: Step, s': State) {
    match step
    case WaitEnd(t, idle) => CanWaitEnd(s, t, idle) && s' == WaitEndStep(s, t, idle)
    case InstalledLock(t) => CanInstalledLock(s, t) && s' == InstalledLockStep(s, t)
    case InstalledProbe(t, ok) => CanInstalledProbe(s, t, ok) && s' == InstalledProbeStep(s, t, ok)
    case _ => false
  }

  /** The option is held on for an update, and the ticket compared. */
  predicate CompareNext(s: State, step: Step, s': State) {
    match step
    case Confirm(t) => CanConfirm(s, t) && s' == ConfirmStep(s, t)
    case Compare(t) => CanCompare(s, t) && s' == CompareStep(s, t)
    case _ => false
  }

  /** A newer build is looked for. */
  predicate LookNext(s: State, step: Step, s': State) {
    match step
    case LookRead(t) => CanLookRead(s, t) && s' == LookReadStep(s, t)
    case UpdateBegin(t) => CanUpdateBegin(s, t) && s' == UpdateBeginStep(s, t)
    case _ => false
  }

  /** The locks for a removal are taken. */
  predicate OlderNext(s: State, step: Step, s': State) {
    match step
    case RemoveBegin(t) => CanRemoveBegin(s, t) && s' == RemoveBeginStep(s, t)
    case RemoveLock(t) => CanRemoveLock(s, t) && s' == RemoveLockStep(s, t)
    case _ => false
  }

  /** Older builds are removed. */
  predicate RemoveNext(s: State, step: Step, s': State) {
    match step
    case RemoveRead(t) => CanRemoveRead(s, t) && s' == RemoveReadStep(s, t)
    case RemoveConfirm(t) => CanRemoveConfirm(s, t) && s' == RemoveConfirmStep(s, t)
    case Remove(t, v) => CanRemove(s, t, v) && s' == RemoveStep(s, t, v)
    case _ => false
  }

  /** The lock for setting the option is taken. */
  predicate PrefsNext(s: State, step: Step, s': State) {
    match step
    case PrefsStart(t, on) => CanPrefsStart(s, t, on) && s' == PrefsStartStep(s, t, on)
    case PrefsLock(t) => CanPrefsLock(s, t) && s' == PrefsLockStep(s, t)
    case _ => false
  }

  /** A removal ends, or the option is set. */
  predicate EndNext(s: State, step: Step, s': State) {
    match step
    case RemoveEnd(t) => CanRemoveEnd(s, t) && s' == RemoveEndStep(s, t)
    case PrefsWrite(t) => CanPrefsWrite(s, t) && s' == PrefsWriteStep(s, t)
    case _ => false
  }

  predicate Next(s: State, step: Step, s': State) {
    || StartNext(s, step, s')
    || ChooseNext(s, step, s')
    || SaveNext(s, step, s')
    || InstallNext(s, step, s')
    || InstalledNext(s, step, s')
    || CompareNext(s, step, s')
    || LookNext(s, step, s')
    || OlderNext(s, step, s')
    || RemoveNext(s, step, s')
    || PrefsNext(s, step, s')
    || EndNext(s, step, s')
  }

  /** A process starts with no operation under way and, when a build of the bridge's is
      chosen, with that build there. */
  ghost predicate Initial(s: State) {
    && (forall t <- s.threads :: s.threads[t] == Idle)
    && s.installing == None && s.choosing == None && s.prefs == None
    && s.writes == s.saved && (s.choice.Some? ==> Exists(s, s.choice.value))
  }

  ghost predicate IsRun(run: seq<State>, steps: seq<Step>) {
    && |run| == |steps| + 1 && Initial(run[0])
    && forall i :: 0 <= i < |steps| ==> Next(run[i], steps[i], run[i + 1])
  }

  // ---------------------------------------------------------------- what every step keeps

  predicate HoldsInstalling(p: Phase) {
    || p.Ticketing? || p.Installing? || (p.InstalledWaits? && p.job == Install)
    || (p.InstalledProbes? && p.job == Install) || (p.Compares? && p.job == Install)
    || ((p.Saving? || p.Counting?) && p.from.Installed? && p.from.job == Install)
    || p.RemoveWaits? || p.RemoveReads? || p.RemoveConfirms? || p.Removes?
  }

  predicate HoldsChoosing(p: Phase) {
    || p.ChooseProbes? || p.InstalledProbes? || p.Confirms? || p.Compares? || p.Saving? || p.Counting?
    || p.RemoveReads? || p.RemoveConfirms? || p.Removes?
  }

  predicate HoldsPrefs(p: Phase) {
    || (p.Compares? && p.job == Update)
    || ((p.Saving? || p.Counting?) && p.from.Installed? && p.from.job == Update)
    || p.Removes? || p.PrefsWrites?
  }

  /** A lock that is held is held by a thread. */
  ghost predicate LocksOk(s: State) {
    && (s.installing.Some? ==> s.installing.value in s.threads)
    && (s.choosing.Some? ==> s.choosing.value in s.threads)
    && (s.prefs.Some? ==> s.prefs.value in s.threads)
  }

  ghost predicate PhaseOk(s: State, p: Phase) {
    && (p.Saving? || p.Counting? ==> Exists(s, p.e))
    && (p.Confirms? || p.Compares? ==> p.v in s.builds)
    && (p.Saving? && p.from.Installed? ==> s.saved == p.from.ticket)
    && (p.RemoveConfirms? || p.Removes? ==> s.choice == Some(Ours(p.kept)))
    && (HoldsPrefs(p) && !p.PrefsWrites? ==> s.on)
  }

  /** A thread holds the locks of where it is, and no other thread holds them. */
  ghost predicate ThreadOk(s: State, t: Thread)
    requires t in s.threads
  {
    && (HoldsInstalling(s.threads[t]) <==> s.installing == Some(t))
    && (HoldsChoosing(s.threads[t]) <==> s.choosing == Some(t))
    && (HoldsPrefs(s.threads[t]) <==> s.prefs == Some(t))
    && PhaseOk(s, s.threads[t])
  }

  ghost predicate Uncounted(s: State) {
    s.choosing.Some? && s.choosing.value in s.threads && s.threads[s.choosing.value].Counting?
  }

  /** The choice is there, and every write but the one under way is counted. */
  ghost predicate ChoiceOk(s: State) {
    && LocksOk(s) && (s.choice.Some? ==> Exists(s, s.choice.value))
    && s.writes == s.saved + (if Uncounted(s) then 1 else 0)
  }

  ghost predicate Inv(s: State) {
    ChoiceOk(s) && forall t {:trigger ThreadOk(s, t)} :: t in s.threads ==> ThreadOk(s, t)
  }

  function TicketOf(p: Phase): Option<nat> {
    if p.Installing? || p.Waiting? || p.InstalledWaits? || p.InstalledProbes? || p.Confirms? || p.Compares? then
      Some(p.ticket)
    else if p.Saving? && p.from.Installed? then Some(p.from.ticket)
    else None
  }

  /** A ticket is kept but by the step that takes it, and is then the count of saves. */
  predicate OwnTicket(s: State, step: Step, s': State) {
    step.t in s.threads && step.t in s'.threads && TicketOf(s'.threads[step.t]).Some? ==>
      TicketOf(s'.threads[step.t]) == if step.TakeTicket? then Some(s.saved) else TicketOf(s.threads[step.t])
  }

  /** A step of `t` takes and frees locks of its own, and changes only what it holds the lock of;
      builds are added without one. */
  ghost predicate Apart(s: State, t: Thread, s': State) {
    && (s'.installing == s.installing || (s.installing in {None, Some(t)} && s'.installing in {None, Some(t)}))
    && (s'.choosing == s.choosing || (s.choosing in {None, Some(t)} && s'.choosing in {None, Some(t)}))
    && (s'.prefs == s.prefs || (s.prefs in {None, Some(t)} && s'.prefs in {None, Some(t)}))
    && (s.choosing == Some(t) || (s.builds <= s'.builds && s'.saved == s.saved && s'.choice == s.choice))
    && (s.prefs == Some(t) || s'.on == s.on)
    && s'.threads.Keys == s.threads.Keys && (forall u <- s.threads :: u != t ==> s'.threads[u] == s.threads[u])
  }

  lemma OtherOk(s: State, t: Thread, s': State, u: Thread)
    requires Apart(s, t, s') && u in s.threads && u != t && ThreadOk(s, u)
    ensures ThreadOk(s', u)
  {}

  lemma StartKeeps(s: State, step: Step, s': State)
    requires StartNext(s, step, s') && ChoiceOk(s) && (step.t in s.threads ==> ThreadOk(s, step.t))
    requires s.choosing.Some? ==> ThreadOk(s, s.choosing.value)
    ensures step.t in s.threads && Apart(s, step.t, s') && ThreadOk(s', step.t)
    ensures ChoiceOk(s') && OwnTicket(s, step, s')
  {
    hide IsNewer;
  }

  lemma ChooseKeeps(s: State, step: Step, s': State)
    requires ChooseNext(s, step, s') && ChoiceOk(s) && (step.t in s.threads ==> ThreadOk(s, step.t))
    requires s.choosing.Some? ==> ThreadOk(s, s.choosing.value)
    ensures step.t in s.threads && Apart(s, step.t, s') && ThreadOk(s', step.t)
    ensures ChoiceOk(s') && OwnTicket(s, step, s')
  {
  }

  lemma SaveKeeps(s: State, step: Step, s': State)
    requires SaveNext(s, step, s') && ChoiceOk(s) && (step.t in s.threads ==> ThreadOk(s, step.t))
    requires s.choosing.Some? ==> ThreadOk(s, s.choosing.value)
    ensures step.t in s.threads && Apart(s, step.t, s') && ThreadOk(s', step.t)
    ensures ChoiceOk(s') && OwnTicket(s, step, s')
  {
  }

  lemma InstallKeeps(s: State, step: Step, s': State)
    requires InstallNext(s, step, s') && ChoiceOk(s) && (step.t in s.threads ==> ThreadOk(s, step.t))
    requires s.choosing.Some? ==> ThreadOk(s, s.choosing.value)
    ensures step.t in s.threads && Apart(s, step.t, s') && ThreadOk(s', step.t)
    ensures ChoiceOk(s') && OwnTicket(s, step, s')
  {
  }

  lemma InstalledKeeps(s: State, step: Step, s': State)
    requires InstalledNext(s, step, s') && ChoiceOk(s) && (step.t in s.threads ==> ThreadOk(s, step.t))
    requires s.choosing.Some? ==> ThreadOk(s, s.choosing.value)
    ensures step.t in s.threads && Apart(s, step.t, s') && ThreadOk(s', step.t)
    ensures ChoiceOk(s') && OwnTicket(s, step, s')
  {
  }

  lemma CompareKeeps(s: State, step: Step, s': State)
    requires CompareNext(s, step, s') && ChoiceOk(s) && (step.t in s.threads ==> ThreadOk(s, step.t))
    requires s.choosing.Some? ==> ThreadOk(s, s.choosing.value)
    ensures step.t in s.threads && Apart(s, step.t, s') && ThreadOk(s', step.t)
    ensures ChoiceOk(s') && OwnTicket(s, step, s')
  {
  }

  lemma LookKeeps(s: State, step: Step, s': State)
    requires LookNext(s, step, s') && ChoiceOk(s) && (step.t in s.threads ==> ThreadOk(s, step.t))
    requires s.choosing.Some? ==> ThreadOk(s, s.choosing.value)
    ensures step.t in s.threads && Apart(s, step.t, s') && ThreadOk(s', step.t)
    ensures ChoiceOk(s') && OwnTicket(s, step, s')
  {
  }

  lemma OlderKeeps(s: State, step: Step, s': State)
    requires OlderNext(s, step, s') && ChoiceOk(s) && (step.t in s.threads ==> ThreadOk(s, step.t))
    requires s.choosing.Some? ==> ThreadOk(s, s.choosing.value)
    ensures step.t in s.threads && Apart(s, step.t, s') && ThreadOk(s', step.t)
    ensures ChoiceOk(s') && OwnTicket(s, step, s')
  {
    hide IsNewer;
  }

  lemma RemoveKeeps(s: State, step: Step, s': State)
    requires RemoveNext(s, step, s') && ChoiceOk(s) && (step.t in s.threads ==> ThreadOk(s, step.t))
    requires s.choosing.Some? ==> ThreadOk(s, s.choosing.value)
    ensures step.t in s.threads && Apart(s, step.t, s') && ThreadOk(s', step.t)
    ensures ChoiceOk(s') && OwnTicket(s, step, s')
  {
    if step.Remove? {
      NewerIsStrict(s.threads[step.t].kept, step.v, step.v);
    }
  }

  lemma PrefsKeeps(s: State, step: Step, s': State)
    requires PrefsNext(s, step, s') && ChoiceOk(s) && (step.t in s.threads ==> ThreadOk(s, step.t))
    requires s.choosing.Some? ==> ThreadOk(s, s.choosing.value)
    ensures step.t in s.threads && Apart(s, step.t, s') && ThreadOk(s', step.t)
    ensures ChoiceOk(s') && OwnTicket(s, step, s')
  {
  }

  lemma EndKeeps(s: State, step: Step, s': State)
    requires EndNext(s, step, s') && ChoiceOk(s) && (step.t in s.threads ==> ThreadOk(s, step.t))
    requires s.choosing.Some? ==> ThreadOk(s, s.choosing.value)
    ensures step.t in s.threads && Apart(s, step.t, s') && ThreadOk(s', step.t)
    ensures ChoiceOk(s') && OwnTicket(s, step, s')
  {
  }

  lemma StepDoes(s: State, step: Step, s': State)
    requires Inv(s) && Next(s, step, s')
    ensures step.t in s.threads && Apart(s, step.t, s') && ThreadOk(s', step.t)
    ensures ChoiceOk(s') && OwnTicket(s, step, s')
  {
    hide ThreadOk, StartNext, ChooseNext, SaveNext, InstallNext, InstalledNext;
    hide CompareNext, LookNext, OlderNext, RemoveNext, PrefsNext, EndNext;
    assert step.t in s.threads ==> ThreadOk(s, step.t);
    assert s.choosing.Some? ==> ThreadOk(s, s.choosing.value);
    if StartNext(s, step, s') {
      StartKeeps(s, step, s');
    } else if ChooseNext(s, step, s') {
      ChooseKeeps(s, step, s');
    } else if SaveNext(s, step, s') {
      SaveKeeps(s, step, s');
    } else if InstallNext(s, step, s') {
      InstallKeeps(s, step, s');
    } else if InstalledNext(s, step, s') {
      InstalledKeeps(s, step, s');
    } else if CompareNext(s, step, s') {
      CompareKeeps(s, step, s');
    } else if LookNext(s, step, s') {
      LookKeeps(s, step, s');
    } else if OlderNext(s, step, s') {
      OlderKeeps(s, step, s');
    } else if RemoveNext(s, step, s') {
      RemoveKeeps(s, step, s');
    } else if PrefsNext(s, step, s') {
      PrefsKeeps(s, step, s');
    } else {
      EndKeeps(s, step, s');
    }
  }

  lemma StepKeeps(s: State, step: Step, s': State)
    requires Inv(s) && Next(s, step, s')
    ensures Inv(s')
  {
    hide Next, ThreadOk;
    StepDoes(s, step, s');
    forall u | u in s.threads && u != step.t ensures ThreadOk(s', u) {
      OtherOk(s, step.t, s', u);
    }
  }

  lemma InitialKeeps(s: State)
    requires Initial(s)
    ensures Inv(s)
  {}

  lemma {:induction false} RunKeeps(run: seq<State>, steps: seq<Step>, i: nat)
    requires IsRun(run, steps) && i < |run|
    ensures Inv(run[i])
    decreases i
  {
    hide Inv, Next, Initial;
    if i == 0 {
      InitialKeeps(run[0]);
    } else {
      RunKeeps(run, steps, i - 1);
      StepKeeps(run[i - 1], steps[i - 1], run[i]);
    }
  }

  // ---------------------------------------------------------------- one at a time

  /** At most one installation runs, and none beside a removal. */
  lemma OneInstallation(run: seq<State>, steps: seq<Step>, i: nat, t: Thread, u: Thread)
    requires IsRun(run, steps) && i < |run| && t in run[i].threads && u in run[i].threads
    requires HoldsInstalling(run[i].threads[t]) && HoldsInstalling(run[i].threads[u])
    ensures t == u
  {
    RunKeeps(run, steps, i);
    assert ThreadOk(run[i], t) && ThreadOk(run[i], u);
  }

  // ---------------------------------------------------------------- tickets

  /** The choice changes only by a write, which is counted. */
  lemma ChoiceChanges(s: State, step: Step, s': State)
    requires Next(s, step, s')
    ensures s'.writes == s.writes + (if step.Write? then 1 else 0) && (!step.Write? ==> s'.choice == s.choice)
  {}

  lemma {:induction false} WritesGrow(run: seq<State>, steps: seq<Step>, i: nat, j: nat)
    requires IsRun(run, steps) && i <= j < |run|
    ensures run[i].writes <= run[j].writes
    ensures run[i].writes == run[j].writes ==> run[i].choice == run[j].choice
    decreases j
  {
    hide Next, Initial;
    if i < j {
      WritesGrow(run, steps, i, j - 1);
      ChoiceChanges(run[j - 1], steps[j - 1], run[j]);
    }
  }

  /** The ticket of an installation under way. */
  lemma TicketKept(s: State, step: Step, s': State, t: Thread)
    requires Inv(s) && Next(s, step, s') && t in s'.threads && TicketOf(s'.threads[t]).Some?
    ensures t in s.threads
    ensures TicketOf(s'.threads[t]) == if step == TakeTicket(t) then Some(s.saved) else TicketOf(s.threads[t])
  {
    hide Next, Inv;
    StepDoes(s, step, s');
  }

  /** A ticket is the count at the step that took it. */
  lemma {:induction false} TicketFrom(run: seq<State>, steps: seq<Step>, j: nat, t: Thread) returns (i: nat)
    requires IsRun(run, steps) && j < |run| && t in run[j].threads && TicketOf(run[j].threads[t]).Some?
    ensures i < j && steps[i] == TakeTicket(t) && TicketOf(run[j].threads[t]) == Some(run[i].saved)
    ensures forall k :: i < k < j ==> steps[k] != TakeTicket(t)
    decreases j
  {
    hide Next, Initial, Inv, TicketOf;
    NoTickets(run[0], t);
    i := 0;
    if j > 0 {
      RunKeeps(run, steps, j - 1);
      TicketKept(run[j - 1], steps[j - 1], run[j], t);
      if steps[j - 1] == TakeTicket(t) {
        i := j - 1;
      } else {
        i := TicketFrom(run, steps, j - 1, t);
      }
    }
  }

  lemma NoTickets(s: State, t: Thread)
    requires Initial(s)
    ensures t in s.threads ==> TicketOf(s.threads[t]) == None
  {}

  /** An installation that saves its build takes back no choice: from the step that took
      its ticket to the write, the choice was never written, by a user or by another
      installation. */
  lemma ReplacesNothingNew(run: seq<State>, steps: seq<Step>, j: nat, t: Thread) returns (i: nat)
    requires IsRun(run, steps) && j < |steps| && steps[j] == Write(t)
    requires t in run[j].threads && run[j].threads[t].Saving? && run[j].threads[t].from.Installed?
    ensures i < j && steps[i] == TakeTicket(t) && (forall k :: i < k < j ==> steps[k] != TakeTicket(t))
    ensures forall k :: i <= k < j ==> !steps[k].Write?
    ensures forall k :: i <= k <= j ==> run[k].choice == run[i].choice
  {
    hide Next, Initial;
    i := TicketFrom(run, steps, j, t);
    RunKeeps(run, steps, i);
    RunKeeps(run, steps, j);
    assert ThreadOk(run[j], t);
    assert run[j].choosing == Some(t);
    WritesGrow(run, steps, i, j);
    forall k | i <= k <= j ensures run[k].writes == run[i].writes && run[k].choice == run[i].choice {
      WritesGrow(run, steps, i, k);
      WritesGrow(run, steps, k, j);
    }
    forall k | i <= k < j ensures !steps[k].Write? {
      assert run[k].writes == run[i].writes && run[k + 1].writes == run[i].writes;
      ChoiceChanges(run[k], steps[k], run[k + 1]);
    }
  }

  /** So an update saves over no choice made since its look read the one it replaces,
      exactly when none was made before its ticket was taken. */
  lemma ReplacesWhatItRead(run: seq<State>, steps: seq<Step>, a: nat, j: nat, t: Thread) returns (i: nat)
    requires IsRun(run, steps) && a < j < |steps| && steps[a] == LookRead(t) && steps[j] == Write(t)
    requires t in run[j].threads && run[j].threads[t].Saving? && run[j].threads[t].from.Installed?
    ensures i < j && steps[i] == TakeTicket(t)
    ensures (forall k :: a < k < j ==> !steps[k].Write?) <==> (forall k :: a < k < i ==> !steps[k].Write?)
  {
    hide Next, Initial;
    i := ReplacesNothingNew(run, steps, j, t);
  }

  /** An installation that compares after a choice was written since its ticket is refused. */
  lemma LaterChoiceStands(run: seq<State>, steps: seq<Step>, i: nat, k: nat, j: nat, t: Thread)
    requires IsRun(run, steps) && i <= k < j < |steps| && steps[i] == TakeTicket(t) && steps[k].Write?
    requires steps[j] == Compare(t) && t in run[j].threads && TicketOf(run[j].threads[t]) == Some(run[i].saved)
    ensures t in run[j + 1].threads && run[j + 1].threads[t] == Idle && run[j + 1].choice == run[j].choice
  {
    hide Initial;
    RunKeeps(run, steps, i);
    RunKeeps(run, steps, j);
    WritesGrow(run, steps, i, k);
    WritesGrow(run, steps, k + 1, j);
    ChoiceChanges(run[k], steps[k], run[k + 1]);
    assert Next(run[j], steps[j], run[j + 1]);
    assert ThreadOk(run[j], t);
    assert run[j].choosing == Some(t);
  }

  // ---------------------------------------------------------------- builds and the option

  /** A chosen build of the bridge's is there. */
  lemma ChosenIsThere(run: seq<State>, steps: seq<Step>, i: nat)
    requires IsRun(run, steps) && i < |run|
    ensures run[i].choice.Some? && run[i].choice.value.Ours? ==> run[i].choice.value.version in run[i].builds
  {
    RunKeeps(run, steps, i);
  }

  /** Builds go only one by one, each older than the chosen one, with the option on, held
      on, and with no installation and no other choice under way. */
  lemma OnlyOlderGo(run: seq<State>, steps: seq<Step>, i: nat, v: Version)
    requires IsRun(run, steps) && i < |steps| && v in run[i].builds && v !in run[i + 1].builds
    ensures steps[i].Remove? && steps[i].v == v && run[i].on
    ensures var t := Some(steps[i].t); run[i].prefs == t && run[i].choosing == t && run[i].installing == t
    ensures run[i].choice.Some? && run[i].choice.value.Ours? && IsNewer(run[i].choice.value.version, v)
  {
    RunKeeps(run, steps, i);
    assert Next(run[i], steps[i], run[i + 1]);
    var t := steps[i].t;
    assert steps[i] == Remove(t, v);
    assert ThreadOk(run[i], t);
  }

  /** An update is chosen only while the option is on, held on by its thread. */
  lemma UpdatesWhileOn(run: seq<State>, steps: seq<Step>, i: nat, t: Thread)
    requires IsRun(run, steps) && i < |steps| && steps[i] == Write(t)
    requires t in run[i].threads && run[i].threads[t].Saving?
    requires run[i].threads[t].from.Installed? && run[i].threads[t].from.job == Update
    ensures run[i].on && run[i].prefs == Some(t)
  {
    RunKeeps(run, steps, i);
    assert Next(run[i], steps[i], run[i + 1]);
    assert ThreadOk(run[i], t);
  }

  // ---------------------------------------------------------------- the locks' order

  /** The locks in the order they are taken: installation, choice, preferences. */
  function WaitsFor(p: Phase): nat {
    if p.ChooseWaits? || p.InstalledWaits? || p.RemoveWaits? then 2
    else if p.Confirms? || p.RemoveConfirms? || p.PrefsWaits? then 3
    else 0
  }

  function HighestHeld(p: Phase): nat {
    if HoldsPrefs(p) then 3 else if HoldsChoosing(p) then 2 else if HoldsInstalling(p) then 1 else 0
  }

  /** A thread waits only for a lock after all it holds. */
  lemma LocksInOrder(p: Phase)
    ensures WaitsFor(p) != 0 ==> HighestHeld(p) < WaitsFor(p)
  {}

  predicate CanGoOn(s: State, t: Thread) {
    t in s.threads &&
    match s.threads[t]
    case ChooseWaits(_) => s.choosing == None
    case InstalledWaits(_, _, _) => s.choosing == None
    case RemoveWaits => s.choosing == None
    case Confirms(_, _) => s.prefs == None
    case RemoveConfirms(_) => s.prefs == None
    case PrefsWaits(_) => s.prefs == None
    case _ => s.threads[t] != Idle
  }

  /** What a thread under way does next. */
  function NextStep(t: Thread, p: Phase): Step {
    match p
    case Idle => PrefsStart(t, true)
    case ChooseWaits(e) => ChooseLock(t)
    case ChooseProbes(e) => ChooseProbe(t, false)
    case Saving(e, from) => Write(t)
    case Counting(e, from) => Count(t)
    case Ticketing(job, v) => TakeTicket(t)
    case Installing(job, v, ticket) => InstallEnd(t, false)
    case Waiting(v, ticket) => WaitEnd(t, false)
    case InstalledWaits(job, v, ticket) => InstalledLock(t)
    case InstalledProbes(job, v, ticket) => InstalledProbe(t, false)
    case Confirms(v, ticket) => Confirm(t)
    case Compares(job, v, ticket) => Compare(t)
    case Looks(newest) => LookRead(t)
    case UpdateBegins(v) => UpdateBegin(t)
    case RemoveBegins => RemoveBegin(t)
    case RemoveWaits => RemoveLock(t)
    case RemoveReads => RemoveRead(t)
    case RemoveConfirms(kept) => RemoveConfirm(t)
    case Removes(kept) => RemoveEnd(t)
    case PrefsWaits(on) => PrefsLock(t)
    case PrefsWrites(on) => PrefsWrite(t)
  }

  lemma GoesOn(s: State, t: Thread) returns (s': State)
    requires CanGoOn(s, t)
    ensures Next(s, NextStep(t, s.threads[t]), s')
  {
    hide ChooseStartStep, ChooseLockStep, ChooseProbeStep, WriteStep, WriteFailsStep, CountStep;
    hide InstallStartStep, TakeTicketStep, InstallEndStep, WaitEndStep, InstalledLockStep, InstalledProbeStep;
    hide ConfirmStep, CompareStep, LookStartStep, LookReadStep, UpdateBeginStep, RemoveBeginStep;
    hide RemoveLockStep, RemoveReadStep, RemoveConfirmStep, RemoveStep, RemoveEndStep, PrefsStartStep;
    hide PrefsLockStep, PrefsWriteStep;
    match s.threads[t]
    case ChooseWaits(e) => s' := ChooseLockStep(s, t);
    case ChooseProbes(e) => s' := ChooseProbeStep(s, t, false);
    case Saving(e, from) => s' := WriteStep(s, t);
    case Counting(e, from) => s' := CountStep(s, t);
    case Ticketing(job, v) => s' := TakeTicketStep(s, t);
    case Installing(job, v, ticket) => s' := InstallEndStep(s, t, false);
    case Waiting(v, ticket) => s' := WaitEndStep(s, t, false);
    case InstalledWaits(job, v, ticket) => s' := InstalledLockStep(s, t);
    case InstalledProbes(job, v, ticket) => s' := InstalledProbeStep(s, t, false);
    case Confirms(v, ticket) => s' := ConfirmStep(s, t);
    case Compares(job, v, ticket) => s' := CompareStep(s, t);
    case Looks(newest) => s' := LookReadStep(s, t);
    case UpdateBegins(v) => s' := UpdateBeginStep(s, t);
    case RemoveBegins => s' := RemoveBeginStep(s, t);
    case RemoveWaits => s' := RemoveLockStep(s, t);
    case RemoveReads => s' := RemoveReadStep(s, t);
    case RemoveConfirms(kept) => s' := RemoveConfirmStep(s, t);
    case Removes(kept) => s' := RemoveEndStep(s, t);
    case PrefsWaits(on) => s' := PrefsLockStep(s, t);
    case PrefsWrites(on) => s' := PrefsWriteStep(s, t);
  }

  /** No deadlock: while an operation is under way, some thread under way can go on. */
  lemma NoDeadlock(run: seq<State>, steps: seq<Step>, i: nat, t: Thread) returns (u: Thread)
    requires IsRun(run, steps) && i < |run| && t in run[i].threads && run[i].threads[t] != Idle
    ensures CanGoOn(run[i], u)
  {
    RunKeeps(run, steps, i);
    var s := run[i];
    assert ThreadOk(s, t);
    assert s.prefs.Some? ==> ThreadOk(s, s.prefs.value);
    assert s.choosing.Some? ==> ThreadOk(s, s.choosing.value);
    u := if s.prefs.Some? then s.prefs.value else if s.choosing.Some? then s.choosing.value else t;
  }

  // ---------------------------------------------------------------- before the ticket

  /** Two threads with the locks, the counts of saves and of writes, the choice and the builds. */
  function Lost(a: Phase, b: Phase, x: Option<Thread>, y: Option<Thread>, z: Option<Thread>,
                saved: nat, writes: nat, choice: Engine, builds: set<Version>): State {
    State(map[0 := a, 1 := b], x, y, z, saved, writes, Some(choice), builds, true)
  }

  /** The states of a run in which a look replaces a choice it never saw. */
  function LostState(i: nat): State {
    match i
    case 0 => Lost(Idle, Idle, None, None, None, 0, 0, Ours([18]), {[18]})
    case 1 => Lost(Looks([19]), Idle, None, None, None, 0, 0, Ours([18]), {[18]})
    case 2 => Lost(UpdateBegins([19]), Idle, None, None, None, 0, 0, Ours([18]), {[18]})
    case 3 => Lost(UpdateBegins([19]), ChooseWaits(Other(7)), None, None, None, 0, 0, Ours([18]), {[18]})
    case 4 => Lost(UpdateBegins([19]), ChooseProbes(Other(7)), None, Some(1), None, 0, 0, Ours([18]), {[18]})
    case 5 => Lost(UpdateBegins([19]), Saving(Other(7), User), None, Some(1), None, 0, 0, Ours([18]), {[18]})
    case 6 => Lost(UpdateBegins([19]), Counting(Other(7), User), None, Some(1), None, 0, 1, Other(7), {[18]})
    case 7 => Lost(UpdateBegins([19]), Idle, None, None, None, 1, 1, Other(7), {[18]})
    case 8 => Lost(Ticketing(Update, [19]), Idle, Some(0), None, None, 1, 1, Other(7), {[18]})
    case 9 => Lost(Installing(Update, [19], 1), Idle, Some(0), None, None, 1, 1, Other(7), {[18]})
    case 10 => Lost(Waiting([19], 1), Idle, None, None, None, 1, 1, Other(7), {[18], [19]})
    case 11 => Lost(InstalledWaits(Update, [19], 1), Idle, None, None, None, 1, 1, Other(7), {[18], [19]})
    case 12 => Lost(InstalledProbes(Update, [19], 1), Idle, None, Some(0), None, 1, 1, Other(7), {[18], [19]})
    case 13 => Lost(Confirms([19], 1), Idle, None, Some(0), None, 1, 1, Other(7), {[18], [19]})
    case 14 => Lost(Compares(Update, [19], 1), Idle, None, Some(0), Some(0), 1, 1, Other(7), {[18], [19]})
    case 15 =>
      Lost(Saving(Ours([19]), Installed(Update, 1)), Idle, None, Some(0), Some(0), 1, 1, Other(7), {[18], [19]})
    case _ =>
      Lost(Counting(Ours([19]), Installed(Update, 1)), Idle, None, Some(0), Some(0), 1, 2, Ours([19]), {[18], [19]})
  }

  function LostStep(i: nat): Step {
    match i
    case 0 => LookStart(0, [19])
    case 1 => LookRead(0)
    case 2 => ChooseStart(1, Other(7))
    case 3 => ChooseLock(1)
    case 4 => ChooseProbe(1, true)
    case 5 => Write(1)
    case 6 => Count(1)
    case 7 => UpdateBegin(0)
    case 8 => TakeTicket(0)
    case 9 => InstallEnd(0, true)
    case 10 => WaitEnd(0, true)
    case 11 => InstalledLock(0)
    case 12 => InstalledProbe(0, true)
    case 13 => Confirm(0)
    case 14 => Compare(0)
    case _ => Write(0)
  }

  lemma LostNext0()
    ensures Next(LostState(0), LostStep(0), LostState(1))
    ensures Next(LostState(1), LostStep(1), LostState(2))
  {
    Nineteen();
    hide WithoutZeros, Less;
    hide ChooseNext, SaveNext, InstallNext, InstalledNext, CompareNext;
    hide OlderNext, RemoveNext, PrefsNext, EndNext;
  }

  lemma LostNext2()
    ensures Next(LostState(2), LostStep(2), LostState(3))
    ensures Next(LostState(3), LostStep(3), LostState(4))
  {
    Nineteen();
    hide WithoutZeros, Less;
    hide StartNext, SaveNext, InstallNext, InstalledNext, CompareNext;
    hide LookNext, OlderNext, RemoveNext, PrefsNext, EndNext;
  }

  lemma LostNext4()
    ensures Next(LostState(4), LostStep(4), LostState(5))
    ensures Next(LostState(5), LostStep(5), LostState(6))
  {
    Nineteen();
    hide WithoutZeros, Less;
    hide StartNext, InstallNext, InstalledNext, CompareNext, LookNext;
    hide OlderNext, RemoveNext, PrefsNext, EndNext;
  }

  lemma LostNext6()
    ensures Next(LostState(6), LostStep(6), LostState(7))
    ensures Next(LostState(7), LostStep(7), LostState(8))
  {
    Nineteen();
    hide WithoutZeros, Less;
    hide StartNext, ChooseNext, InstallNext, InstalledNext, CompareNext;
    hide OlderNext, RemoveNext, PrefsNext, EndNext;
  }

  lemma LostNext8()
    ensures Next(LostState(8), LostStep(8), LostState(9))
    ensures Next(LostState(9), LostStep(9), LostState(10))
  {
    Nineteen();
    hide WithoutZeros, Less;
    hide StartNext, ChooseNext, SaveNext, InstalledNext, CompareNext;
    hide LookNext, OlderNext, RemoveNext, PrefsNext, EndNext;
  }

  lemma LostNext10()
    ensures Next(LostState(10), LostStep(10), LostState(11))
    ensures Next(LostState(11), LostStep(11), LostState(12))
  {
    Nineteen();
    hide WithoutZeros, Less;
    hide StartNext, ChooseNext, SaveNext, InstallNext, CompareNext;
    hide LookNext, OlderNext, RemoveNext, PrefsNext, EndNext;
  }

  lemma LostNext12()
    ensures Next(LostState(12), LostStep(12), LostState(13))
    ensures Next(LostState(13), LostStep(13), LostState(14))
  {
    Nineteen();
    hide WithoutZeros, Less;
    hide StartNext, ChooseNext, SaveNext, InstallNext, LookNext;
    hide OlderNext, RemoveNext, PrefsNext, EndNext;
  }

  lemma LostNext14()
    ensures Next(LostState(14), LostStep(14), LostState(15))
    ensures Next(LostState(15), LostStep(15), LostState(16))
  {
    Nineteen();
    hide WithoutZeros, Less;
    hide StartNext, ChooseNext, InstallNext, InstalledNext, LookNext;
    hide OlderNext, RemoveNext, PrefsNext, EndNext;
  }

  lemma Nineteen()
    ensures IsNewer([19], [18])
  {
    assert WithoutZeros([19]) == [19] && WithoutZeros([18]) == [18];
  }

  lemma LostEnds()
    ensures Initial(LostState(0))
    ensures LostStep(0) == LookStart(0, [19]) && LostStep(1) == LookRead(0)
    ensures LostStep(5) == Write(1) && LostStep(8) == TakeTicket(0)
    ensures LostState(6).choice == Some(Other(7)) && LostState(16).choice == Some(Ours([19]))
  {}

  /** A look reads the choice before its ticket is taken: an engine the user chooses
      between the two is replaced all the same. */
  lemma ChoiceBeforeTicketLost() returns (run: seq<State>, steps: seq<Step>)
    ensures IsRun(run, steps) && |steps| == 16
    ensures steps[0] == LookStart(0, [19]) && steps[1] == LookRead(0)
    ensures steps[5] == Write(1) && steps[8] == TakeTicket(0)
    ensures run[6].choice == Some(Other(7)) && run[16].choice == Some(Ours([19]))
  {
    hide Next, Initial, LostState, LostStep;
    LostEnds();
    run, steps := seq(17, (i: nat) => LostState(i)), seq(16, (i: nat) => LostStep(i));
    LostNext0();
    LostNext2();
    LostNext4();
    LostNext6();
    LostNext8();
    LostNext10();
    LostNext12();
    LostNext14();
  }
}
