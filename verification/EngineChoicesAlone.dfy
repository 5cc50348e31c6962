/** Where an engine that is chosen comes from, in every run, and what one thread's choice,
    installation, look, removal or change of the option leaves when no other is under way. */
module EngineChoicesAlone {
  import opened Wrappers
  import opened Versions
  import opened EngineChoices

  // ---------------------------------------------------------------- what is chosen was asked for

  /** What an operation is to choose: what the user picked or installs, or a look found. */
  datatype Wish = Picked(e: Engine) | Installs(v: Version) | Found(v: Version) | Unasked

  function WishOf(p: Phase): Option<Wish> {
    match p
    case ChooseWaits(e) => Some(Picked(e))
    case ChooseProbes(e) => Some(Picked(e))
    case Saving(e, from) => Some(WishFrom(e, from))
    case Counting(e, from) => Some(WishFrom(e, from))
    case Ticketing(job, v) => Some(WishFor(job, v))
    case Installing(job, v, _) => Some(WishFor(job, v))
    case Waiting(v, _) => Some(Found(v))
    case InstalledWaits(job, v, _) => Some(WishFor(job, v))
    case InstalledProbes(job, v, _) => Some(WishFor(job, v))
    case Confirms(v, _) => Some(Found(v))
    case Compares(job, v, _) => Some(WishFor(job, v))
    case UpdateBegins(v) => Some(Found(v))
    case _ => None
  }

  function WishFor(job: Job, v: Version): Wish {
    if job == Install then Installs(v) else Found(v)
  }

  function WishFrom(e: Engine, from: Origin): Wish {
    if from == User then Picked(e) else if e.Ours? then WishFor(from.job, e.version) else Unasked
  }

  /** A wish begins: the user picks an engine or a build to install, or a look finds a release
      newer than the build of the bridge's that is chosen. */
  predicate WishBegins(s: State, step: Step, t: Thread, wish: Wish) {
    match wish
    case Picked(e) => step == ChooseStart(t, e)
    case Installs(v) => step == InstallStart(t, v)
    case Found(v) =>
      && step == LookRead(t) && t in s.threads && s.threads[t] == Looks(v)
      && s.choice.Some? && s.choice.value.Ours? && IsNewer(v, s.choice.value.version)
    case Unasked => false
  }

  predicate Begins(step: Step, t: Thread) {
    step.t == t && (step.ChooseStart? || step.InstallStart? || step.LookRead?)
  }

  /** A probe accepted what is chosen. */
  predicate Accepted(p: Phase) {
    p.Saving? || p.Counting? || p.Confirms? || p.Compares?
  }

  predicate Accepts(step: Step, t: Thread) {
    step == ChooseProbe(t, true) || step == InstalledProbe(t, true)
  }

  predicate WishDoes(s: State, step: Step, s': State, t: Thread) {
    t in s'.threads && WishOf(s'.threads[t]).Some? ==>
      && t in s.threads
      && (if Begins(step, t) then WishBegins(s, step, t, WishOf(s'.threads[t]).value) && !Accepted(s'.threads[t])
          else WishOf(s.threads[t]) == WishOf(s'.threads[t]))
      && (Accepted(s'.threads[t]) ==> Accepted(s.threads[t]) || Accepts(step, t))
  }

  lemma WishAsked(s: State, step: Step, s': State, t: Thread)
    requires StartNext(s, step, s') || ChooseNext(s, step, s') || SaveNext(s, step, s')
    ensures WishDoes(s, step, s', t)
  {
    hide Exists, IsNewer;
  }

  lemma WishInstalled(s: State, step: Step, s': State, t: Thread)
    requires InstallNext(s, step, s') || InstalledNext(s, step, s') || CompareNext(s, step, s')
    ensures WishDoes(s, step, s', t)
  {
    hide Exists, IsNewer;
  }

  lemma WishOther(s: State, step: Step, s': State, t: Thread)
    requires LookNext(s, step, s') || OlderNext(s, step, s') || RemoveNext(s, step, s')
             || PrefsNext(s, step, s') || EndNext(s, step, s')
    ensures WishDoes(s, step, s', t)
  {
    hide Exists, IsNewer;
  }

  lemma WishKept(s: State, step: Step, s': State, t: Thread)
    requires Next(s, step, s')
    ensures WishDoes(s, step, s', t)
  {
    hide WishDoes, StartNext, ChooseNext, SaveNext, InstallNext, InstalledNext;
    hide CompareNext, LookNext, OlderNext, RemoveNext, PrefsNext, EndNext;
    if StartNext(s, step, s') || ChooseNext(s, step, s') || SaveNext(s, step, s') {
      WishAsked(s, step, s', t);
    } else if InstallNext(s, step, s') || InstalledNext(s, step, s') || CompareNext(s, step, s') {
      WishInstalled(s, step, s', t);
    } else {
      WishOther(s, step, s', t);
    }
  }

  /** What an operation under way is to choose, it began with. */
  lemma {:induction false} WishedFirst(run: seq<State>, steps: seq<Step>, j: nat, t: Thread) returns (a: nat)
    requires IsRun(run, steps) && j < |run| && t in run[j].threads && WishOf(run[j].threads[t]).Some?
    ensures a < j && Begins(steps[a], t) && WishBegins(run[a], steps[a], t, WishOf(run[j].threads[t]).value)
    ensures forall k :: a < k < j ==> !Begins(steps[k], t)
    ensures Accepted(run[j].threads[t]) ==> exists b :: a < b < j && Accepts(steps[b], t)
    decreases j
  {
    hide Next, Initial, WishOf, WishBegins, Accepted, Accepts, Begins;
    NothingWished(run[0], t);
    a := 0;
    if j > 0 {
      WishKept(run[j - 1], steps[j - 1], run[j], t);
      if Begins(steps[j - 1], t) {
        a := j - 1;
      } else {
        a := WishedFirst(run, steps, j - 1, t);
      }
    }
  }

  lemma NothingWished(s: State, t: Thread)
    requires Initial(s)
    ensures t in s.threads ==> WishOf(s.threads[t]) == None
  {}

  /** The engine of a wish. */
  function EngineOf(wish: Wish): Engine
    requires wish != Unasked
  {
    if wish.Picked? then wish.e else Ours(wish.v)
  }

  /** An engine that is chosen was asked for by the thread that writes it, when its operation began,
      and accepted by a probe since: picked by the user, installed by the user, or found by a look
      that read an older build of the bridge's. An update so never replaces another engine than
      one of the bridge's own, but one chosen after the look read it. */
  lemma ChosenAsWished(run: seq<State>, steps: seq<Step>, j: nat, t: Thread) returns (a: nat, b: nat, wish: Wish)
    requires IsRun(run, steps) && j < |steps| && steps[j] == Write(t)
    ensures a < b < j && Begins(steps[a], t) && WishBegins(run[a], steps[a], t, wish) && Accepts(steps[b], t)
    ensures forall k :: a < k < j ==> !Begins(steps[k], t)
    ensures wish != Unasked && run[j + 1].choice == Some(EngineOf(wish))
    ensures t in run[j].threads && run[j].threads[t].Saving?
    ensures match run[j].threads[t].from
            case User => wish.Picked?
            case Installed(job, _) => if job == Install then wish.Installs? else wish.Found?
  {
    hide Initial, Next, WishBegins, Begins, Accepts;
    Writes(run[j], t, run[j + 1]);
    a := WishedFirst(run, steps, j, t);
    wish := WishOf(run[j].threads[t]).value;
    b :| a < b < j && Accepts(steps[b], t);
    NeverUnasked(run[a], steps[a], t);
  }

  lemma Writes(s: State, t: Thread, s': State)
    requires Next(s, Write(t), s')
    ensures t in s.threads && s.threads[t].Saving? && s'.choice == Some(s.threads[t].e)
  {
    hide StartNext, ChooseNext, InstallNext, InstalledNext, CompareNext;
    hide LookNext, OlderNext, RemoveNext, PrefsNext, EndNext;
    OnlySaves(s, t, s');
  }

  lemma OnlySaves(s: State, t: Thread, s': State)
    requires Next(s, Write(t), s')
    ensures SaveNext(s, Write(t), s')
  {}

  lemma NeverUnasked(s: State, step: Step, t: Thread)
    ensures !WishBegins(s, step, t, Unasked)
  {}

  // ---------------------------------------------------------------- a run that goes on

  function Last(run: seq<State>): State
    requires run != []
  {
    run[|run| - 1]
  }

  /** The run goes on with the steps `taken`, to `s'`. */
  ghost predicate LedTo(run: seq<State>, steps: seq<Step>, taken: seq<Step>, run': seq<State>, s': State) {
    IsRun(run', steps + taken) && run <= run' && run' != [] && Last(run') == s'
  }

  lemma Begin(run: seq<State>, steps: seq<Step>)
    requires IsRun(run, steps)
    ensures LedTo(run, steps, [], run, Last(run))
  {
    assert steps + [] == steps;
  }

  lemma Then(run: seq<State>, steps: seq<Step>, taken: seq<Step>, mid: seq<State>, s: State, step: Step, s': State)
      returns (run': seq<State>)
    requires LedTo(run, steps, taken, mid, s) && Next(s, step, s')
    ensures LedTo(run, steps, taken + [step], run', s')
  {
    hide Next, Initial;
    run' := mid + [s'];
    assert steps + (taken + [step]) == steps + taken + [step];
  }

  /** The state but for where thread `t` is and for the locks. */
  function Here(s: State, t: Thread, phase: Phase, x: Option<Thread>, y: Option<Thread>, z: Option<Thread>): State {
    s.(threads := s.threads[t := phase], installing := x, choosing := y, prefs := z)
  }

  /** Thread `t` has nothing under way, and no thread holds a lock. */
  predicate Quiet(s: State, t: Thread) {
    t in s.threads && s.threads[t] == Idle && s.installing == None && s.choosing == None && s.prefs == None
  }

  lemma HereAgain(s: State, t: Thread, p: Phase, x: Option<Thread>, y: Option<Thread>, z: Option<Thread>, q: Phase)
    ensures Here(s, t, p, x, y, z).threads[t := q] == s.threads[t := q]
  {}

  lemma HereIdle(s: State, t: Thread)
    requires Quiet(s, t)
    ensures s.threads[t := Idle] == s.threads
  {}

  // ---------------------------------------------------------------- a choice

  function Chosen(s: State, e: Engine): State {
    s.(choice := Some(e), writes := s.writes + 1, saved := s.saved + 1)
  }

  lemma ChooseSteps(s: State, t: Thread, e: Engine, ok: bool)
    requires Quiet(s, t) && (ok ==> Exists(s, e))
    ensures ChooseNext(s, ChooseStart(t, e), Here(s, t, ChooseWaits(e), None, None, None))
    ensures ChooseNext(Here(s, t, ChooseWaits(e), None, None, None), ChooseLock(t),
                       Here(s, t, ChooseProbes(e), None, Some(t), None))
    ensures ChooseNext(Here(s, t, ChooseProbes(e), None, Some(t), None), ChooseProbe(t, ok),
                       if ok then Here(s, t, Saving(e, User), None, Some(t), None) else s)
  {
    HereIdle(s, t);
    HereAgain(s, t, ChooseWaits(e), None, None, None, ChooseProbes(e));
    HereAgain(s, t, ChooseProbes(e), None, Some(t), None, Saving(e, User));
    HereAgain(s, t, ChooseProbes(e), None, Some(t), None, Idle);
  }

  /** The write of a choice and its count; an update then goes on to the older builds. */
  lemma SaveSteps(s: State, t: Thread, e: Engine, from: Origin, x: Option<Thread>, z: Option<Thread>)
    requires Quiet(s, t) && x in {None, Some(t)} && z in {None, Some(t)}
    ensures SaveNext(Here(s, t, Saving(e, from), x, Some(t), z), WriteFails(t), s)
    ensures var written := s.(choice := Some(e), writes := s.writes + 1);
      && SaveNext(Here(s, t, Saving(e, from), x, Some(t), z), Write(t),
                  Here(written, t, Counting(e, from), x, Some(t), z))
      && SaveNext(Here(written, t, Counting(e, from), x, Some(t), z), Count(t),
                  Here(Chosen(s, e), t, if from.Installed? && from.job == Update then RemoveBegins else Idle, None,
                       None, None))
  {
    HereIdle(s, t);
    HereAgain(s, t, Saving(e, from), x, Some(t), z, Counting(e, from));
    HereAgain(s, t, Saving(e, from), x, Some(t), z, Idle);
    HereAgain(s, t, Counting(e, from), x, Some(t), z, Idle);
    HereAgain(s, t, Counting(e, from), x, Some(t), z, RemoveBegins);
  }

  /** What `t` saves under its locks is chosen, or left as it was when it cannot be written. */
  lemma Saves(run: seq<State>, steps: seq<Step>, taken: seq<Step>, mid: seq<State>, s: State, t: Thread, e: Engine,
              from: Origin, x: Option<Thread>, z: Option<Thread>) returns (saved: seq<State>, failed: seq<State>)
    requires Quiet(s, t) && x in {None, Some(t)} && z in {None, Some(t)}
    requires LedTo(run, steps, taken, mid, Here(s, t, Saving(e, from), x, Some(t), z))
    ensures LedTo(run, steps, taken + [WriteFails(t)], failed, s)
    ensures LedTo(run, steps, taken + [Write(t), Count(t)], saved,
                  if from.Installed? && from.job == Update then Here(Chosen(s, e), t, RemoveBegins, None, None, None)
                  else Chosen(s, e))
  {
    hide LedTo, SaveNext, Initial;
    SaveSteps(s, t, e, from, x, z);
    var a := Here(s, t, Saving(e, from), x, Some(t), z);
    failed := Then(run, steps, taken, mid, a, WriteFails(t), s);
    var b := Here(s.(choice := Some(e), writes := s.writes + 1), t, Counting(e, from), x, Some(t), z);
    var phase := if from.Installed? && from.job == Update then RemoveBegins else Idle;
    var c := Here(Chosen(s, e), t, phase, None, None, None);
    saved := Then(run, steps, taken, mid, a, Write(t), b);
    saved := Then(run, steps, taken + [Write(t)], saved, b, Count(t), c);
    assert taken + [Write(t)] + [Count(t)] == taken + [Write(t), Count(t)];
    HereIdle(Chosen(s, e), t);
  }

  /** A user's choice that is there and that the probe accepts is chosen; one the probe refuses,
      or that cannot be written, leaves all as it was. */
  lemma Chooses(run: seq<State>, steps: seq<Step>, t: Thread, e: Engine)
      returns (refused: seq<State>, saved: seq<State>, failed: seq<State>)
    requires IsRun(run, steps) && Quiet(Last(run), t)
    ensures var (s, taken) := (Last(run), [ChooseStart(t, e), ChooseLock(t)]);
      && LedTo(run, steps, taken + [ChooseProbe(t, false)], refused, s)
      && (Exists(s, e) ==>
            && LedTo(run, steps, taken + [ChooseProbe(t, true)] + [WriteFails(t)], failed, s)
            && LedTo(run, steps, taken + [ChooseProbe(t, true)] + [Write(t), Count(t)], saved, Chosen(s, e)))
  {
    hide LedTo, ChooseNext, Initial, Exists;
    var s := Last(run);
    Begin(run, steps);
    ChooseSteps(s, t, e, false);
    var (a, b) := (Here(s, t, ChooseWaits(e), None, None, None), Here(s, t, ChooseProbes(e), None, Some(t), None));
    var mid := Then(run, steps, [], run, s, ChooseStart(t, e), a);
    mid := Then(run, steps, [] + [ChooseStart(t, e)], mid, a, ChooseLock(t), b);
    var taken := [ChooseStart(t, e), ChooseLock(t)];
    assert [] + [ChooseStart(t, e)] + [ChooseLock(t)] == taken;
    refused := Then(run, steps, taken, mid, b, ChooseProbe(t, false), s);
    saved, failed := run, run;
    if Exists(s, e) {
      ChooseSteps(s, t, e, true);
      var c := Here(s, t, Saving(e, User), None, Some(t), None);
      mid := Then(run, steps, taken, mid, b, ChooseProbe(t, true), c);
      saved, failed := Saves(run, steps, taken + [ChooseProbe(t, true)], mid, s, t, e, User, None, None);
    }
  }

  // ---------------------------------------------------------------- an installation

  function With(s: State, v: Version): State {
    s.(builds := s.builds + {v})
  }

  lemma InstallSteps(s: State, t: Thread, job: Job, v: Version)
    requires Quiet(s, t)
    ensures InstallNext(Here(s, t, Ticketing(job, v), Some(t), None, None), TakeTicket(t),
                        Here(s, t, Installing(job, v, s.saved), Some(t), None, None))
    ensures InstallNext(Here(s, t, Installing(job, v, s.saved), Some(t), None, None), InstallEnd(t, false), s)
    ensures InstallNext(Here(s, t, Installing(job, v, s.saved), Some(t), None, None), InstallEnd(t, true),
                        if job == Install then Here(With(s, v), t, InstalledWaits(job, v, s.saved), Some(t), None, None)
                        else Here(With(s, v), t, Waiting(v, s.saved), None, None, None))
  {
    HereIdle(s, t);
    HereAgain(s, t, Ticketing(job, v), Some(t), None, None, Installing(job, v, s.saved));
    HereAgain(s, t, Installing(job, v, s.saved), Some(t), None, None, InstalledWaits(job, v, s.saved));
    HereAgain(s, t, Installing(job, v, s.saved), Some(t), None, None, Waiting(v, s.saved));
    HereAgain(s, t, Installing(job, v, s.saved), Some(t), None, None, Idle);
  }

  lemma ProbeSteps(s: State, t: Thread, job: Job, v: Version, x: Option<Thread>, ok: bool)
    requires Quiet(s, t) && x == (if job == Install then Some(t) else None) && v in s.builds
    ensures InstalledNext(Here(s, t, InstalledWaits(job, v, s.saved), x, None, None), InstalledLock(t),
                          Here(s, t, InstalledProbes(job, v, s.saved), x, Some(t), None))
    ensures InstalledNext(Here(s, t, InstalledProbes(job, v, s.saved), x, Some(t), None), InstalledProbe(t, ok),
                          if !ok then s
                          else if job == Install then Here(s, t, Compares(job, v, s.saved), x, Some(t), None)
                          else Here(s, t, Confirms(v, s.saved), x, Some(t), None))
  {
    HereIdle(s, t);
    HereAgain(s, t, InstalledWaits(job, v, s.saved), x, None, None, InstalledProbes(job, v, s.saved));
    HereAgain(s, t, InstalledProbes(job, v, s.saved), x, Some(t), None, Compares(job, v, s.saved));
    HereAgain(s, t, InstalledProbes(job, v, s.saved), x, Some(t), None, Confirms(v, s.saved));
    HereAgain(s, t, InstalledProbes(job, v, s.saved), x, Some(t), None, Idle);
  }

  lemma CompareSteps(s: State, t: Thread, job: Job, v: Version, x: Option<Thread>, z: Option<Thread>)
    requires Quiet(s, t)
    ensures CompareNext(Here(s, t, Confirms(v, s.saved), x, Some(t), None), Confirm(t),
                        if s.on then Here(s, t, Compares(Update, v, s.saved), x, Some(t), Some(t))
                        else Here(s, t, Idle, if x == Some(t) then None else x, None, None))
    ensures CompareNext(Here(s, t, Compares(job, v, s.saved), x, Some(t), z), Compare(t),
                        Here(s, t, Saving(Ours(v), Installed(job, s.saved)), x, Some(t), z))
  {
    HereIdle(s, t);
    HereAgain(s, t, Confirms(v, s.saved), x, Some(t), None, Compares(Update, v, s.saved));
    HereAgain(s, t, Confirms(v, s.saved), x, Some(t), None, Idle);
    HereAgain(s, t, Compares(job, v, s.saved), x, Some(t), z, Saving(Ours(v), Installed(job, s.saved)));
  }

  lemma StartSteps(s: State, t: Thread, v: Version)
    requires t in s.threads && s.threads[t] == Idle
    ensures StartNext(s, InstallStart(t, v),
                      if s.installing == None then Here(s, t, Ticketing(Install, v), Some(t), s.choosing, s.prefs)
                              else s)
    ensures StartNext(s, LookStart(t, v), if s.on then Here(s, t, Looks(v), s.installing, s.choosing, s.prefs) else s)
  {}

  /** A user's installation: a build that is installed and accepted is there and chosen; one that
      fails leaves all as it was, one the probe refuses is there and not chosen; and while another
      thread installs or removes none begins. */
  lemma InstallsOne(run: seq<State>, steps: seq<Step>, t: Thread, v: Version)
      returns (failed: seq<State>, refused: seq<State>, done: seq<State>, unsaved: seq<State>)
    requires IsRun(run, steps) && Quiet(Last(run), t)
    ensures var (s, taken) := (Last(run), [InstallStart(t, v), TakeTicket(t)]);
      var more := taken + [InstallEnd(t, true), InstalledLock(t)];
      && LedTo(run, steps, taken + [InstallEnd(t, false)], failed, s)
      && LedTo(run, steps, more + [InstalledProbe(t, false)], refused, With(s, v))
      && LedTo(run, steps, more + [InstalledProbe(t, true), Compare(t)] + [WriteFails(t)], unsaved, With(s, v))
      && LedTo(run, steps, more + [InstalledProbe(t, true), Compare(t)] + [Write(t), Count(t)], done,
               Chosen(With(s, v), Ours(v)))
  {
    hide LedTo, StartNext, InstallNext, InstalledNext, CompareNext, Initial;
    var s := Last(run);
    var built := With(s, v);
    Begin(run, steps);
    StartSteps(s, t, v);
    InstallSteps(s, t, Install, v);
    ProbeSteps(built, t, Install, v, Some(t), false);
    ProbeSteps(built, t, Install, v, Some(t), true);
    CompareSteps(built, t, Install, v, Some(t), None);
    var a := Here(s, t, Ticketing(Install, v), Some(t), None, None);
    var b := Here(s, t, Installing(Install, v, s.saved), Some(t), None, None);
    var c := Here(built, t, InstalledWaits(Install, v, s.saved), Some(t), None, None);
    var d := Here(built, t, InstalledProbes(Install, v, s.saved), Some(t), Some(t), None);
    var e := Here(built, t, Compares(Install, v, s.saved), Some(t), Some(t), None);
    var f := Here(built, t, Saving(Ours(v), Installed(Install, s.saved)), Some(t), Some(t), None);
    var mid := Then(run, steps, [], run, s, InstallStart(t, v), a);
    mid := Then(run, steps, [] + [InstallStart(t, v)], mid, a, TakeTicket(t), b);
    var taken := [InstallStart(t, v), TakeTicket(t)];
    assert [] + [InstallStart(t, v)] + [TakeTicket(t)] == taken;
    failed := Then(run, steps, taken, mid, b, InstallEnd(t, false), s);
    mid := Then(run, steps, taken, mid, b, InstallEnd(t, true), c);
    mid := Then(run, steps, taken + [InstallEnd(t, true)], mid, c, InstalledLock(t), d);
    var more := taken + [InstallEnd(t, true), InstalledLock(t)];
    assert taken + [InstallEnd(t, true)] + [InstalledLock(t)] == more;
    refused := Then(run, steps, more, mid, d, InstalledProbe(t, false), built);
    mid := Then(run, steps, more, mid, d, InstalledProbe(t, true), e);
    mid := Then(run, steps, more + [InstalledProbe(t, true)], mid, e, Compare(t), f);
    assert more + [InstalledProbe(t, true)] + [Compare(t)] == more + [InstalledProbe(t, true), Compare(t)];
    done, unsaved := Saves(run, steps, more + [InstalledProbe(t, true), Compare(t)], mid, built, t, Ours(v),
                           Installed(Install, s.saved), Some(t), None);
  }

  /** While another thread installs or removes, no installation begins. */
  lemma InstallsNone(run: seq<State>, steps: seq<Step>, t: Thread, v: Version) returns (run': seq<State>)
    requires IsRun(run, steps) && t in Last(run).threads && Last(run).threads[t] == Idle && Last(run).installing.Some?
    ensures LedTo(run, steps, [InstallStart(t, v)], run', Last(run))
  {
    hide LedTo, StartNext, Initial;
    Begin(run, steps);
    StartSteps(Last(run), t, v);
    run' := Then(run, steps, [], run, Last(run), InstallStart(t, v), Last(run));
    assert [] + [InstallStart(t, v)] == [InstallStart(t, v)];
  }

  // ---------------------------------------------------------------- a look and its update

  lemma LookSteps(s: State, t: Thread, newest: Version)
    requires Quiet(s, t)
    ensures LookNext(Here(s, t, Looks(newest), None, None, None), LookRead(t),
                     if s.choice == None || !s.choice.value.Ours? then s
                     else if IsNewer(newest, s.choice.value.version) then Here(s, t, UpdateBegins(newest), None, None,
                                                                               None)
                     else Here(s, t, RemoveBegins, None, None, None))
    ensures LookNext(Here(s, t, UpdateBegins(newest), None, None, None), UpdateBegin(t),
                     Here(s, t, Ticketing(Update, newest), Some(t), None, None))
  {
    HereIdle(s, t);
    HereAgain(s, t, Looks(newest), None, None, None, UpdateBegins(newest));
    HereAgain(s, t, Looks(newest), None, None, None, RemoveBegins);
    HereAgain(s, t, Looks(newest), None, None, None, Idle);
    HereAgain(s, t, UpdateBegins(newest), None, None, None, Ticketing(Update, newest));
  }

  /** An update that finds another installation under way ends. */
  lemma UpdateRefused(s: State, t: Thread, newest: Version)
    requires t in s.threads && s.threads[t] == UpdateBegins(newest) && s.installing.Some?
    ensures Next(s, UpdateBegin(t), s.(threads := s.threads[t := Idle]))
  {
    assert LookNext(s, UpdateBegin(t), s.(threads := s.threads[t := Idle]));
  }

  /** A look while the option is off does nothing. */
  lemma LooksNot(run: seq<State>, steps: seq<Step>, t: Thread, newest: Version) returns (run': seq<State>)
    requires IsRun(run, steps) && t in Last(run).threads && Last(run).threads[t] == Idle && !Last(run).on
    ensures LedTo(run, steps, [LookStart(t, newest)], run', Last(run))
  {
    hide LedTo, StartNext, Initial;
    Begin(run, steps);
    StartSteps(Last(run), t, newest);
    run' := Then(run, steps, [], run, Last(run), LookStart(t, newest), Last(run));
    assert [] + [LookStart(t, newest)] == [LookStart(t, newest)];
  }

  /** A look with the option on leaves an engine that is not the bridge's alone, goes on to the older
      builds when its own is the newest, and else to the update. */
  lemma LooksUp(run: seq<State>, steps: seq<Step>, t: Thread, newest: Version) returns (run': seq<State>)
    requires IsRun(run, steps) && Quiet(Last(run), t) && Last(run).on
    ensures var s := Last(run);
      LedTo(run, steps, [LookStart(t, newest), LookRead(t)], run',
            if s.choice == None || !s.choice.value.Ours? then s
            else if IsNewer(newest, s.choice.value.version) then Here(s, t, UpdateBegins(newest), None, None, None)
            else Here(s, t, RemoveBegins, None, None, None))
  {
    hide LedTo, StartNext, LookNext, Initial, IsNewer;
    var s := Last(run);
    Begin(run, steps);
    StartSteps(s, t, newest);
    LookSteps(s, t, newest);
    var a := Here(s, t, Looks(newest), None, None, None);
    var s' := if s.choice == None || !s.choice.value.Ours? then s
              else if IsNewer(newest, s.choice.value.version) then Here(s, t, UpdateBegins(newest), None, None, None)
              else Here(s, t, RemoveBegins, None, None, None);
    run' := Then(run, steps, [], run, s, LookStart(t, newest), a);
    run' := Then(run, steps, [] + [LookStart(t, newest)], run', a, LookRead(t), s');
    assert [] + [LookStart(t, newest)] + [LookRead(t)] == [LookStart(t, newest), LookRead(t)];
  }

  /** An update waits until the bridge is idle, and goes on only while the option is on. */
  lemma WaitSteps(s: State, t: Thread, v: Version, idle: bool)
    requires Quiet(s, t)
    ensures InstalledNext(Here(s, t, Waiting(v, s.saved), None, None, None), WaitEnd(t, idle),
                          if idle && s.on then Here(s, t, InstalledWaits(Update, v, s.saved), None, None, None) else s)
  {
    HereIdle(s, t);
    HereAgain(s, t, Waiting(v, s.saved), None, None, None, InstalledWaits(Update, v, s.saved));
    HereAgain(s, t, Waiting(v, s.saved), None, None, None, Idle);
  }

  /** The update of a look: what is installed, waited for and accepted is chosen, and the older builds
      come next; one that gave up waiting, or is refused, is there and not chosen. */
  lemma UpdatesOne(run: seq<State>, steps: seq<Step>, s: State, t: Thread, v: Version)
      returns (failed: seq<State>, waited: seq<State>, refused: seq<State>, done: seq<State>, unsaved: seq<State>)
    requires IsRun(run, steps) && Quiet(s, t) && s.on && Last(run) == Here(s, t, UpdateBegins(v), None, None, None)
    ensures var (built, taken) := (With(s, v), [UpdateBegin(t), TakeTicket(t)]);
      var more := taken + [InstallEnd(t, true), WaitEnd(t, true), InstalledLock(t)];
      var last := more + [InstalledProbe(t, true), Confirm(t), Compare(t)];
      && LedTo(run, steps, taken + [InstallEnd(t, false)], failed, s)
      && LedTo(run, steps, taken + [InstallEnd(t, true), WaitEnd(t, false)], waited, built)
      && LedTo(run, steps, more + [InstalledProbe(t, false)], refused, built)
      && LedTo(run, steps, last + [WriteFails(t)], unsaved, built)
      && LedTo(run, steps, last + [Write(t), Count(t)], done,
               Here(Chosen(built, Ours(v)), t, RemoveBegins, None, None, None))
  {
    hide LedTo, LookNext, InstallNext, InstalledNext, CompareNext, Initial;
    var built := With(s, v);
    Begin(run, steps);
    LookSteps(s, t, v);
    InstallSteps(s, t, Update, v);
    WaitSteps(built, t, v, false);
    WaitSteps(built, t, v, true);
    ProbeSteps(built, t, Update, v, None, false);
    ProbeSteps(built, t, Update, v, None, true);
    CompareSteps(built, t, Update, v, None, Some(t));
    var z := Here(s, t, UpdateBegins(v), None, None, None);
    var a := Here(s, t, Ticketing(Update, v), Some(t), None, None);
    var b := Here(s, t, Installing(Update, v, s.saved), Some(t), None, None);
    var c := Here(built, t, Waiting(v, s.saved), None, None, None);
    var d := Here(built, t, InstalledWaits(Update, v, s.saved), None, None, None);
    var e := Here(built, t, InstalledProbes(Update, v, s.saved), None, Some(t), None);
    var f := Here(built, t, Confirms(v, s.saved), None, Some(t), None);
    var g := Here(built, t, Compares(Update, v, s.saved), None, Some(t), Some(t));
    var h := Here(built, t, Saving(Ours(v), Installed(Update, s.saved)), None, Some(t), Some(t));
    var taken := [UpdateBegin(t), TakeTicket(t)];
    var mid := Then(run, steps, [], run, z, UpdateBegin(t), a);
    mid := Then(run, steps, [] + [UpdateBegin(t)], mid, a, TakeTicket(t), b);
    assert [] + [UpdateBegin(t)] + [TakeTicket(t)] == taken;
    failed := Then(run, steps, taken, mid, b, InstallEnd(t, false), s);
    mid := Then(run, steps, taken, mid, b, InstallEnd(t, true), c);
    waited := Then(run, steps, taken + [InstallEnd(t, true)], mid, c, WaitEnd(t, false), built);
    assert taken + [InstallEnd(t, true)] + [WaitEnd(t, false)] == taken + [InstallEnd(t, true), WaitEnd(t, false)];
    mid := Then(run, steps, taken + [InstallEnd(t, true)], mid, c, WaitEnd(t, true), d);
    mid := Then(run, steps, taken + [InstallEnd(t, true)] + [WaitEnd(t, true)], mid, d, InstalledLock(t), e);
    var more := taken + [InstallEnd(t, true), WaitEnd(t, true), InstalledLock(t)];
    assert taken + [InstallEnd(t, true)] + [WaitEnd(t, true)] + [InstalledLock(t)] == more;
    refused := Then(run, steps, more, mid, e, InstalledProbe(t, false), built);
    mid := Then(run, steps, more, mid, e, InstalledProbe(t, true), f);
    mid := Then(run, steps, more + [InstalledProbe(t, true)], mid, f, Confirm(t), g);
    mid := Then(run, steps, more + [InstalledProbe(t, true)] + [Confirm(t)], mid, g, Compare(t), h);
    var last := more + [InstalledProbe(t, true), Confirm(t), Compare(t)];
    assert more + [InstalledProbe(t, true)] + [Confirm(t)] + [Compare(t)] == last;
    done, unsaved := Saves(run, steps, last, mid, built, t, Ours(v), Installed(Update, s.saved), None, Some(t));
  }

  /** The option turned off while an update waits, or before it is confirmed, ends it. */
  lemma UpdateWithdrawn(s: State, t: Thread, v: Version, ticket: nat)
    requires t in s.threads && !s.on
    ensures s.threads[t] == Waiting(v, ticket) ==> Next(s, WaitEnd(t, true), s.(threads := s.threads[t := Idle]))
    ensures s.threads[t] == Confirms(v, ticket) && s.prefs == None && s.choosing == Some(t)
            && s.installing != Some(t) ==>
              Next(s, Confirm(t), s.(threads := s.threads[t := Idle], choosing := None))
  {
    assert s.threads[t] == Waiting(v, ticket) ==>
            InstalledNext(s, WaitEnd(t, true), s.(threads := s.threads[t := Idle]));
  }

  // ---------------------------------------------------------------- the older builds

  lemma OlderSteps(s: State, t: Thread)
    requires Quiet(s, t)
    ensures OlderNext(Here(s, t, RemoveBegins, None, None, None), RemoveBegin(t),
                      Here(s, t, RemoveWaits, Some(t), None, None))
    ensures OlderNext(Here(s, t, RemoveWaits, Some(t), None, None), RemoveLock(t),
                      Here(s, t, RemoveReads, Some(t), Some(t), None))
  {
    HereAgain(s, t, RemoveBegins, None, None, None, RemoveWaits);
    HereAgain(s, t, RemoveWaits, Some(t), None, None, RemoveReads);
  }

  lemma ReadSteps(s: State, t: Thread)
    requires Quiet(s, t)
    ensures RemoveNext(Here(s, t, RemoveReads, Some(t), Some(t), None), RemoveRead(t),
                       if s.choice.Some? && s.choice.value.Ours? then
                         Here(s, t, RemoveConfirms(s.choice.value.version), Some(t), Some(t), None)
                       else s)
  {
    HereIdle(s, t);
    HereAgain(s, t, RemoveReads, Some(t), Some(t), None, Idle);
    if s.choice.Some? && s.choice.value.Ours? {
      HereAgain(s, t, RemoveReads, Some(t), Some(t), None, RemoveConfirms(s.choice.value.version));
    }
  }

  lemma RemoveSteps(s: State, t: Thread, v: Version)
    requires Quiet(s, t)
    ensures RemoveNext(Here(s, t, RemoveConfirms(v), Some(t), Some(t), None), RemoveConfirm(t),
                       if s.on then Here(s, t, Removes(v), Some(t), Some(t), Some(t)) else s)
    ensures EndNext(Here(s, t, Removes(v), Some(t), Some(t), Some(t)), RemoveEnd(t), s)
  {
    HereIdle(s, t);
    HereAgain(s, t, RemoveConfirms(v), Some(t), Some(t), None, Removes(v));
    HereAgain(s, t, RemoveConfirms(v), Some(t), Some(t), None, Idle);
    HereAgain(s, t, Removes(v), Some(t), Some(t), Some(t), Idle);
  }

  /** The removal of what is older than `v`, one build after the other. */
  ghost predicate AllRemoves(taken: seq<Step>, t: Thread) {
    forall i :: 0 <= i < |taken| ==> taken[i].Remove? && taken[i].t == t
  }

  lemma {:induction false} RemovesAll(run: seq<State>, steps: seq<Step>, taken: seq<Step>, mid: seq<State>, s: State,
                                      t: Thread, v: Version, older: set<Version>)
      returns (more: seq<Step>, run': seq<State>)
    requires Quiet(s, t) && LedTo(run, steps, taken, mid, Here(s, t, Removes(v), Some(t), Some(t), Some(t)))
    requires older <= s.builds && forall x <- older :: IsNewer(v, x)
    ensures AllRemoves(more, t)
    ensures LedTo(run, steps, taken + more, run',
                  Here(s.(builds := s.builds - older), t, Removes(v), Some(t), Some(t), Some(t)))
    decreases |older|
  {
    hide LedTo, RemoveNext, Initial, IsNewer;
    var h := Here(s, t, Removes(v), Some(t), Some(t), Some(t));
    if older == {} {
      more, run' := [], mid;
      assert taken + [] == taken && s.builds - older == s.builds;
    } else {
      var x :| x in older;
      var s1 := s.(builds := s.builds - {x});
      RemoveOne(s, t, v, x);
      run' := Then(run, steps, taken, mid, h, Remove(t, x), Here(s1, t, Removes(v), Some(t), Some(t), Some(t)));
      more, run' := RemovesAll(run, steps, taken + [Remove(t, x)], run', s1, t, v, older - {x});
      assert taken + [Remove(t, x)] + more == taken + ([Remove(t, x)] + more);
      assert s1.builds - (older - {x}) == s.builds - older;
      more := [Remove(t, x)] + more;
    }
  }

  lemma RemoveOne(s: State, t: Thread, v: Version, x: Version)
    requires Quiet(s, t) && x in s.builds && IsNewer(v, x)
    ensures RemoveNext(Here(s, t, Removes(v), Some(t), Some(t), Some(t)), Remove(t, x),
                       Here(s.(builds := s.builds - {x}), t, Removes(v), Some(t), Some(t), Some(t)))
  {
    hide IsNewer;
  }

  /** With the option on and a build of the bridge's chosen, any of the older ones can go, and all;
      else none goes. */
  lemma RemovesOlder(run: seq<State>, steps: seq<Step>, s: State, t: Thread, older: set<Version>)
      returns (taken: seq<Step>, run': seq<State>)
    requires IsRun(run, steps) && Quiet(s, t) && Last(run) == Here(s, t, RemoveBegins, None, None, None)
    requires s.choice.Some? && s.choice.value.Ours? && s.on
    requires older <= s.builds && forall x <- older :: IsNewer(s.choice.value.version, x)
    ensures AllRemoves(taken, t)
    ensures LedTo(run, steps, [RemoveBegin(t), RemoveLock(t), RemoveRead(t),
                               RemoveConfirm(t)] + taken + [RemoveEnd(t)], run',
                  s.(builds := s.builds - older))
  {
    hide LedTo, OlderNext, RemoveNext, EndNext, Initial, IsNewer;
    var v := s.choice.value.version;
    Begin(run, steps);
    OlderSteps(s, t);
    ReadSteps(s, t);
    RemoveSteps(s, t, v);
    var a := Here(s, t, RemoveBegins, None, None, None);
    var b := Here(s, t, RemoveWaits, Some(t), None, None);
    var c := Here(s, t, RemoveReads, Some(t), Some(t), None);
    var d := Here(s, t, RemoveConfirms(v), Some(t), Some(t), None);
    var e := Here(s, t, Removes(v), Some(t), Some(t), Some(t));
    var mid := Then(run, steps, [], run, a, RemoveBegin(t), b);
    mid := Then(run, steps, [] + [RemoveBegin(t)], mid, b, RemoveLock(t), c);
    mid := Then(run, steps, [] + [RemoveBegin(t)] + [RemoveLock(t)], mid, c, RemoveRead(t), d);
    mid := Then(run, steps, [] + [RemoveBegin(t)] + [RemoveLock(t)] + [RemoveRead(t)], mid, d, RemoveConfirm(t), e);
    var first := [RemoveBegin(t), RemoveLock(t), RemoveRead(t), RemoveConfirm(t)];
    assert [] + [RemoveBegin(t)] + [RemoveLock(t)] + [RemoveRead(t)] + [RemoveConfirm(t)] == first;
    taken, mid := RemovesAll(run, steps, first, mid, s, t, v, older);
    var s' := s.(builds := s.builds - older);
    RemoveSteps(s', t, v);
    run' := Then(run, steps, first + taken, mid, Here(s', t, Removes(v), Some(t), Some(t), Some(t)), RemoveEnd(t), s');
  }

  /** No build goes when the engine is not the bridge's, or the option is off, or an installation is
      under way. */
  lemma RemovesNone(run: seq<State>, steps: seq<Step>, s: State, t: Thread) returns (run': seq<State>)
    requires IsRun(run, steps) && Quiet(s, t) && Last(run) == Here(s, t, RemoveBegins, None, None, None)
    ensures var taken := [RemoveBegin(t), RemoveLock(t), RemoveRead(t)];
      && (s.choice == None || !s.choice.value.Ours? ==> LedTo(run, steps, taken, run', s))
      && (s.choice.Some? && s.choice.value.Ours? && !s.on ==> LedTo(run, steps, taken + [RemoveConfirm(t)], run', s))
  {
    hide LedTo, OlderNext, RemoveNext, EndNext, Initial, IsNewer;
    Begin(run, steps);
    var ours := s.choice.Some? && s.choice.value.Ours?;
    var v := if ours then s.choice.value.version else [];
    OlderSteps(s, t);
    ReadSteps(s, t);
    RemoveSteps(s, t, v);
    var a := Here(s, t, RemoveBegins, None, None, None);
    var b := Here(s, t, RemoveWaits, Some(t), None, None);
    var c := Here(s, t, RemoveReads, Some(t), Some(t), None);
    var d := if ours then Here(s, t, RemoveConfirms(v), Some(t), Some(t), None) else s;
    run' := Then(run, steps, [], run, a, RemoveBegin(t), b);
    run' := Then(run, steps, [] + [RemoveBegin(t)], run', b, RemoveLock(t), c);
    run' := Then(run, steps, [] + [RemoveBegin(t)] + [RemoveLock(t)], run', c, RemoveRead(t), d);
    var taken := [RemoveBegin(t), RemoveLock(t), RemoveRead(t)];
    assert [] + [RemoveBegin(t)] + [RemoveLock(t)] + [RemoveRead(t)] == taken;
    if ours && !s.on {
      run' := Then(run, steps, taken, run', d, RemoveConfirm(t), s);
    }
  }

  lemma RemovalRefused(s: State, t: Thread)
    requires t in s.threads && s.threads[t] == RemoveBegins && s.installing.Some?
    ensures Next(s, RemoveBegin(t), s.(threads := s.threads[t := Idle]))
  {
    assert OlderNext(s, RemoveBegin(t), s.(threads := s.threads[t := Idle]));
  }

  // ---------------------------------------------------------------- the option

  lemma PrefsSteps(s: State, t: Thread, on: bool)
    requires Quiet(s, t)
    ensures PrefsNext(s, PrefsStart(t, on), Here(s, t, PrefsWaits(on), None, None, None))
    ensures PrefsNext(Here(s, t, PrefsWaits(on), None, None, None), PrefsLock(t),
                      Here(s, t, PrefsWrites(on), None, None, Some(t)))
    ensures EndNext(Here(s, t, PrefsWrites(on), None, None, Some(t)), PrefsWrite(t), s.(on := on))
  {
    HereIdle(s, t);
    HereAgain(s, t, PrefsWaits(on), None, None, None, PrefsWrites(on));
    HereAgain(s, t, PrefsWrites(on), None, None, Some(t), Idle);
  }

  /** The option is set as asked, and nothing else changes. */
  lemma SetsOption(run: seq<State>, steps: seq<Step>, t: Thread, on: bool) returns (run': seq<State>)
    requires IsRun(run, steps) && Quiet(Last(run), t)
    ensures LedTo(run, steps, [PrefsStart(t, on), PrefsLock(t), PrefsWrite(t)], run', Last(run).(on := on))
  {
    hide LedTo, Initial, PrefsNext, EndNext;
    var s := Last(run);
    Begin(run, steps);
    PrefsSteps(s, t, on);
    var a := Here(s, t, PrefsWaits(on), None, None, None);
    var b := Here(s, t, PrefsWrites(on), None, None, Some(t));
    run' := Then(run, steps, [], run, s, PrefsStart(t, on), a);
    run' := Then(run, steps, [] + [PrefsStart(t, on)], run', a, PrefsLock(t), b);
    run' := Then(run, steps, [] + [PrefsStart(t, on)] + [PrefsLock(t)], run', b, PrefsWrite(t), s.(on := on));
    assert [] + [PrefsStart(t, on)] + [PrefsLock(t)] + [PrefsWrite(t)] ==
            [PrefsStart(t, on), PrefsLock(t), PrefsWrite(t)];
  }
}
