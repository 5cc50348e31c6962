/** Saving the settings (`files.rs`, and `create`, `load` and `update` of `config.rs`), as the
    steps of threads, with crashes anywhere. */
module SettingsSaving {
  import opened SettingsFile
  import opened SettingsHazard
  import opened SettingsLines
  import opened SettingsParse
  import opened SettingsRoundTrip
  import opened Text
  import opened Wrappers

  type Thread = nat
  type Change = Config -> Config

  const ATTEMPTS := 64

  /** The file, or a temporary one named after a process and its count. */
  datatype Name = Settings | Temporary(process: nat, count: nat)

  /** What a write is for. */
  datatype Job = ForLoad | ForUpdate(change: Change) | Saving(change: Change, next: Config)

  datatype Phase =
    | Idle
    | LoadWaits                                              // for the lock
    | UpdateWaits(change: Change)
    | Creating(job: Job)                                     // holding it from here on
    | Reading(change: Change)
    | Naming(job: Job, text: string, tries: nat)             // create_temporary
    | Writing(job: Job, text: string, name: Name, done: nat, flushed: bool)

  /** A change and the settings saved for it. */
  datatype Saved = Saved(change: Change, next: Config)

  /** `first` is the file there was before, which the user may have written; `saved` holds the
      changes saved, in order. */
  datatype State = State(
    files: map<Name, string>,
    process: nat, count: nat,
    lock: Option<Thread>,
    threads: map<Thread, Phase>,
    first: Option<string>,
    saved: seq<Saved>)

  datatype Step =
    | Update(t: Thread, change: Change)
    | Load(t: Thread)
    | Lock(t: Thread)
    | Create(t: Thread)
    | Name(t: Thread)
    | Write(t: Thread, n: nat)
    | Flush(t: Thread)
    | WriteFails(t: Thread, removed: bool)
    | Rename(t: Thread)
    | Read(t: Thread)
    | Crash(process: nat, left: map<Name, string>)

  /** Settings that are read back as they were saved. */
  ghost predicate Savable(c: Config) {
    InRange(c) && Unmarked(c)
  }

  /** The file before anything was saved. */
  function FirstText(first: Option<string>): string {
    if first.Some? then first.value else Template()
  }

  /** The file since the last save. */
  function Written(first: Option<string>, saved: seq<Saved>): string {
    if saved == [] then FirstText(first) else Render(saved[|saved| - 1].next)
  }

  /** The file there was first, if any, is one the program reads. */
  predicate Readable(first: Option<string>) {
    Parsed(FirstText(first)).Ok?
  }

  /** There was no file first, or one the program reads. */
  predicate Begins(first: Option<string>) {
    first == None || Readable(first)
  }

  /** The settings after all the changes, one after the other, from those of the first file on,
      which are the defaults when there is none. */
  function Fold(first: Option<string>, saved: seq<Saved>): Config
    requires Readable(first)
  {
    if saved == [] then Parsed(FirstText(first)).value
    else saved[|saved| - 1].change(Fold(first, saved[..|saved| - 1]))
  }

  // ---------------------------------------------------------------- the steps

  ghost predicate Is(s: State, t: Thread, phase: Phase) {
    t in s.threads && s.threads[t] == phase
  }

  function Put(s: State, t: Thread, phase: Phase): State {
    s.(threads := s.threads[t := phase])
  }

  function Ends(s: State, t: Thread): State {
    Put(s, t, Idle).(lock := None)
  }

  ghost predicate CanUpdate(s: State, t: Thread, change: Change) {
    Is(s, t, Idle)
  }

  /** A change begins, whatever it changes. */
  ghost function UpdateStep(s: State, t: Thread, change: Change): State
    requires CanUpdate(s, t, change)
  {
    Put(s, t, UpdateWaits(change))
  }

  ghost predicate CanLoad(s: State, t: Thread) {
    Is(s, t, Idle)
  }

  /** `load` looks for the file before it takes the lock. */
  ghost function LoadStep(s: State, t: Thread): State
    requires CanLoad(s, t)
  {
    if Settings in s.files then s else Put(s, t, LoadWaits)
  }

  ghost predicate CanLock(s: State, t: Thread) {
    t in s.threads && (s.threads[t].UpdateWaits? || s.threads[t].LoadWaits?) && s.lock == None
  }

  ghost function LockStep(s: State, t: Thread): State
    requires CanLock(s, t)
  {
    Put(s, t, Creating(if s.threads[t].UpdateWaits? then ForUpdate(s.threads[t].change) else ForLoad)).(lock := Some(t))
  }

  ghost predicate CanCreate(s: State, t: Thread) {
    t in s.threads && s.threads[t].Creating?
  }

  /** `create`: the default file, only where there is none. */
  ghost function CreateStep(s: State, t: Thread): State
    requires CanCreate(s, t)
  {
    var job := s.threads[t].job;
    if Settings in s.files then (if job.ForLoad? then Ends(s, t) else Put(s, t, Reading(job.change)))
    else Put(s, t, Naming(job, Template(), 0))
  }

  ghost predicate CanName(s: State, t: Thread) {
    t in s.threads && s.threads[t].Naming?
  }

  /** A temporary name that is taken is passed over. */
  ghost function NameStep(s: State, t: Thread): State
    requires CanName(s, t)
  {
    var p := s.threads[t];
    var name := Temporary(s.process, s.count);
    var s' := s.(count := s.count + 1);
    if name !in s.files then
      Put(s', t, Writing(p.job, p.text, name, 0, false)).(files := s.files[name := ""])
    else if p.tries + 1 < ATTEMPTS then Put(s', t, Naming(p.job, p.text, p.tries + 1))
    else Ends(s', t)
  }

  ghost predicate CanWrite(s: State, t: Thread, n: nat) {
    t in s.threads && s.threads[t].Writing? && s.threads[t].done < n <= |s.threads[t].text|
  }

  /** Some more of the text gets to the file. */
  ghost function WriteStep(s: State, t: Thread, n: nat): State
    requires CanWrite(s, t, n)
  {
    var p := s.threads[t];
    Put(s, t, p.(done := n)).(files := s.files[p.name := p.text[..n]])
  }

  ghost predicate CanFlush(s: State, t: Thread) {
    t in s.threads && s.threads[t].Writing? && s.threads[t].done == |s.threads[t].text|
  }

  /** `sync_all`: the file's contents stay from here on. */
  ghost function FlushStep(s: State, t: Thread): State
    requires CanFlush(s, t)
  {
    Put(s, t, s.threads[t].(flushed := true))
  }

  ghost predicate CanWriteFails(s: State, t: Thread) {
    t in s.threads && s.threads[t].Writing?
  }

  /** Only the file this write created is removed, if that does not fail too. */
  ghost function WriteFailsStep(s: State, t: Thread, removed: bool): State
    requires CanWriteFails(s, t)
  {
    Ends(if removed then s.(files := s.files - {s.threads[t].name}) else s, t)
  }

  ghost predicate CanRename(s: State, t: Thread) {
    t in s.threads && s.threads[t].Writing? && s.threads[t].flushed && s.threads[t].name in s.files
  }

  /** The whole text takes the place of the file. */
  ghost function RenameStep(s: State, t: Thread): State
    requires CanRename(s, t)
  {
    var p := s.threads[t];
    var s' := s.(files := (s.files - {p.name})[Settings := s.files[p.name]]);
    match p.job
    case ForLoad => Ends(s', t)
    case ForUpdate(change) => Put(s', t, Reading(change))
    case Saving(change, next) => Ends(s'.(saved := s.saved + [Saved(change, next)]), t)
  }

  ghost predicate CanRead(s: State, t: Thread) {
    t in s.threads && s.threads[t].Reading?
  }

  /** The settings are read and changed under the lock, then saved. */
  ghost function ReadStep(s: State, t: Thread): State
    requires CanRead(s, t)
  {
    var change := s.threads[t].change;
    if Settings !in s.files then Ends(s, t)
    else
      match Parsed(s.files[Settings])
      case Err(_) => Ends(s, t)
      case Ok(now) => Put(s, t, Naming(Saving(change, change(now)), Render(change(now)), 0))
  }

  /** A file that a thread writes and has not flushed. */
  ghost predicate Unflushed(s: State, name: Name) {
    exists t <- s.threads :: s.threads[t].Writing? && s.threads[t].name == name && !s.threads[t].flushed
  }

  /** What a crash leaves: of a file not flushed anything or nothing, of the others all. */
  ghost predicate CanCrash(s: State, left: map<Name, string>) {
    && left.Keys <= s.files.Keys
    && forall name <- s.files :: Unflushed(s, name) || (name in left && left[name] == s.files[name])
  }

  /** The process ends anywhere, or the power goes; another starts, perhaps with its number. */
  ghost function CrashStep(s: State, process: nat, left: map<Name, string>): State
    requires CanCrash(s, left)
  {
    s.(threads := map t <- s.threads :: Idle, lock := None, process := process, count := 0, files := left)
  }

  ghost predicate Next(s: State, step: Step, s': State) {
    match step
    case Update(t, change) => CanUpdate(s, t, change) && s' == UpdateStep(s, t, change)
    case Load(t) => CanLoad(s, t) && s' == LoadStep(s, t)
    case Lock(t) => CanLock(s, t) && s' == LockStep(s, t)
    case Create(t) => CanCreate(s, t) && s' == CreateStep(s, t)
    case Name(t) => CanName(s, t) && s' == NameStep(s, t)
    case Write(t, n) => CanWrite(s, t, n) && s' == WriteStep(s, t, n)
    case Flush(t) => CanFlush(s, t) && s' == FlushStep(s, t)
    case WriteFails(t, removed) => CanWriteFails(s, t) && s' == WriteFailsStep(s, t, removed)
    case Rename(t) => CanRename(s, t) && s' == RenameStep(s, t)
    case Read(t) => CanRead(s, t) && s' == ReadStep(s, t)
    case Crash(process, left) => CanCrash(s, left) && s' == CrashStep(s, process, left)
  }

  /** Any file or none, and temporary ones of processes past. */
  ghost predicate Initial(s: State) {
    && s.first == (if Settings in s.files then Some(s.files[Settings]) else None)
    && s.lock == None && s.saved == [] && forall t <- s.threads :: s.threads[t] == Idle
  }

  ghost predicate IsRun(run: seq<State>, steps: seq<Step>) {
    && |run| == |steps| + 1 && Initial(run[0])
    && forall i :: 0 <= i < |steps| ==> Next(run[i], steps[i], run[i + 1])
  }

  // ---------------------------------------------------------------- what every step keeps

  predicate HoldsLock(p: Phase) {
    p.Creating? || p.Reading? || p.Naming? || p.Writing?
  }

  function JobOf(p: Phase): Option<Job> {
    match p
    case Creating(job) => Some(job)
    case Naming(job, _, _) => Some(job)
    case Writing(job, _, _, _, _) => Some(job)
    case _ => None
  }

  function TextOf(p: Phase): Option<string> {
    match p
    case Naming(_, text, _) => Some(text)
    case Writing(_, text, _, _, _) => Some(text)
    case _ => None
  }

  /** The settings to save are those of the file, changed. */
  ghost predicate Changed(s: State, change: Change, next: Config) {
    && Settings in s.files && Parsed(s.files[Settings]).Ok?
    && next == change(Parsed(s.files[Settings]).value)
  }

  ghost predicate ThreadOk(s: State, t: Thread)
    requires t in s.threads
  {
    var p := s.threads[t];
    var job := JobOf(p);
    && (HoldsLock(p) ==> s.lock == Some(t))
    && (job.Some? && job.value.Saving? ==> !p.Creating? && Changed(s, job.value.change, job.value.next))
    && (TextOf(p).Some? ==> TextOf(p).value == if job.value.Saving? then Render(job.value.next) else Template())
    && (TextOf(p).Some? && !job.value.Saving? ==> Settings !in s.files)
    && (p.Writing? ==>
          p.name.Temporary? && p.done <= |p.text| && p.name in s.files && s.files[p.name] == p.text[..p.done])
    && (p.Writing? && p.flushed ==> p.done == |p.text|)
  }

  ghost predicate Inv(s: State) {
    && (s.lock.Some? ==> s.lock.value in s.threads && HoldsLock(s.threads[s.lock.value]))
    && (if Settings in s.files then s.files[Settings] == Written(s.first, s.saved)
        else s.saved == [] && s.first == None)
    && forall t {:trigger ThreadOk(s, t)} :: t in s.threads ==> ThreadOk(s, t)
  }

  lemma WrittenWhole(s: State, t: Thread)
    requires CanRename(s, t) && ThreadOk(s, t)
    ensures s.files[s.threads[t].name] == s.threads[t].text
  {
    hide Render, Template, Parsed;
    var p := s.threads[t];
    assert p.text[..|p.text|] == p.text;
  }

  lemma RenameKeeps(s: State, t: Thread)
    requires Inv(s) && CanRename(s, t)
    ensures Inv(RenameStep(s, t))
  {
    hide Parsed, Render, Template;
    var s' := RenameStep(s, t);
    assert ThreadOk(s, t);
    WrittenWhole(s, t);
    forall u | u in s'.threads ensures ThreadOk(s', u) {
      assert ThreadOk(s, u);
    }
  }

  lemma FileFlushed(s: State)
    requires Inv(s)
    ensures !Unflushed(s, Settings)
  {
    hide Parsed, Render, Template, Written;
    forall t | t in s.threads && s.threads[t].Writing? ensures s.threads[t].name != Settings {
      assert ThreadOk(s, t);
    }
  }

  lemma CrashKeeps(s: State, process: nat, left: map<Name, string>)
    requires Inv(s) && CanCrash(s, left)
    ensures Inv(CrashStep(s, process, left))
  {
    hide Parsed, Render, Template, Written;
    var s' := CrashStep(s, process, left);
    FileFlushed(s);
    forall u | u in s'.threads ensures ThreadOk(s', u) {}
  }

  /** The steps up to a write. */
  lemma BeginKeeps(s: State, step: Step, s': State)
    requires Inv(s) && Next(s, step, s') && (step.Update? || step.Load? || step.Lock? || step.Create?)
    ensures Inv(s')
  {
    hide Parsed, Render, Template, Written;
    assert ThreadOk(s, step.t);
    forall u | u in s'.threads ensures ThreadOk(s', u) {
      assert ThreadOk(s, u);
    }
  }

  /** The steps of a write. */
  lemma WriteKeeps(s: State, step: Step, s': State)
    requires Inv(s) && Next(s, step, s') && (step.Write? || step.Flush? || step.WriteFails?)
    ensures Inv(s')
  {
    hide Parsed, Render, Template, Written;
    assert ThreadOk(s, step.t);
    forall u | u in s'.threads ensures ThreadOk(s', u) {
      assert ThreadOk(s, u);
    }
  }

  /** The reading, and a name for what is written. */
  lemma ReadKeeps(s: State, step: Step, s': State)
    requires Inv(s) && Next(s, step, s') && (step.Read? || step.Name?)
    ensures Inv(s')
  {
    hide Parsed, Render, Template, Written;
    assert ThreadOk(s, step.t);
    forall u | u in s'.threads ensures ThreadOk(s', u) {
      assert ThreadOk(s, u);
    }
  }

  lemma StepKeeps(s: State, step: Step, s': State)
    requires Inv(s) && Next(s, step, s')
    ensures Inv(s')
  {
    hide Inv, CanRename, RenameStep, CanCrash, CrashStep;
    if step.Rename? {
      RenameKeeps(s, step.t);
    } else if step.Crash? {
      CrashKeeps(s, step.process, step.left);
    } else if step.Read? || step.Name? {
      ReadKeeps(s, step, s');
    } else if step.Write? || step.Flush? || step.WriteFails? {
      WriteKeeps(s, step, s');
    } else {
      BeginKeeps(s, step, s');
    }
  }

  lemma InitialKeeps(s: State)
    requires Initial(s)
    ensures Inv(s)
  {
    hide Render, Template;
  }

  lemma {:induction false} RunKeeps(run: seq<State>, steps: seq<Step>, i: nat)
    requires IsRun(run, steps) && i < |run|
    ensures Inv(run[i])
    decreases i
  {
    hide Inv, Next, Initial;
    if i == 0 {
      InitialKeeps(run[0]);
    } else {
      RunKeeps(run, steps, i - 1);
      StepKeeps(run[i - 1], steps[i - 1], run[i]);
    }
  }

  // ---------------------------------------------------------------- every run

  /** Whatever crashed and whoever wrote, the file is absent, and then there was none and
      nothing was ever saved, or it is the first one as it was, the template in place of none,
      or the one whole rendering of the settings saved last. */
  lemma WholeFile(run: seq<State>, steps: seq<Step>, i: nat)
    requires IsRun(run, steps) && i < |run|
    ensures var s := run[i];
      && s.first == run[0].first
      && if Settings in s.files then s.files[Settings] == Written(s.first, s.saved)
         else s.saved == [] && s.first == None
  {
    hide Parsed, Render, Written, Next, Initial;
    RunKeeps(run, steps, i);
    SameFirst(run, steps, i);
  }

  lemma {:induction false} SameFirst(run: seq<State>, steps: seq<Step>, i: nat)
    requires IsRun(run, steps) && i < |run|
    ensures run[i].first == run[0].first
    decreases i
  {
    hide Next;
    if i > 0 {
      SameFirst(run, steps, i - 1);
      SavedGrows(run[i - 1], steps[i - 1], run[i]);
    }
  }

  /** The changes saved are only added to, one by one, by the thread that holds the lock, and
      each was applied to what the file reads as in the very state it is saved in: no change
      and no default file came between the reading and the saving. */
  lemma ChangesAdd(run: seq<State>, steps: seq<Step>, i: nat)
    requires IsRun(run, steps) && i < |steps| && run[i + 1].saved != run[i].saved
    ensures steps[i].Rename? && run[i].lock == Some(steps[i].t) && steps[i].t in run[i].threads
    ensures var p := run[i].threads[steps[i].t];
      && p.Writing? && p.job.Saving? && Changed(run[i], p.job.change, p.job.next)
      && run[i + 1].saved == run[i].saved + [Saved(p.job.change, p.job.next)]
      && Settings in run[i + 1].files && run[i + 1].files[Settings] == Render(p.job.next)
  {
    hide Parsed, Render, Template, Written;
    RunKeeps(run, steps, i);
    assert Next(run[i], steps[i], run[i + 1]);
    assert steps[i].Rename? ==> ThreadOk(run[i], steps[i].t);
    if steps[i].Rename? {
      WrittenWhole(run[i], steps[i].t);
    }
  }

  /** The file, where it is, reads as all the changes saved, one after the other. */
  ghost predicate AllLanded(s: State) {
    Settings in s.files ==> Readable(s.first) && Parsed(s.files[Settings]) == Ok(Fold(s.first, s.saved))
  }

  ghost predicate AllSavable(saved: seq<Saved>) {
    forall k :: 0 <= k < |saved| ==> Savable(saved[k].next)
  }

  /** The settings saved last, or the first, are all the changes so far. */
  ghost predicate LastIsFold(s: State) {
    Readable(s.first) && (s.saved != [] ==> s.saved[|s.saved| - 1].next == Fold(s.first, s.saved))
  }

  lemma LastLands(s: State)
    requires Inv(s) && LastIsFold(s)
    ensures s.saved == [] ==> AllLanded(s)
    ensures s.saved != [] ==> (AllLanded(s) <==> Savable(s.saved[|s.saved| - 1].next))
  {
    hide Parsed, Render, Template, Unmarked, InRange;
    if s.saved != [] {
      RoundTrip(s.saved[|s.saved| - 1].next);
    }
  }

  lemma FoldMore(first: Option<string>, saved: seq<Saved>, change: Change, next: Config)
    requires Readable(first)
    ensures Fold(first, saved + [Saved(change, next)]) == change(Fold(first, saved))
  {
    assert (saved + [Saved(change, next)])[..|saved|] == saved;
  }

  /** One step: what it saves is all changes so far as long as the file read as those before. */
  lemma StepLands(s: State, step: Step, s': State)
    requires Inv(s) && Next(s, step, s') && Inv(s') && AllLanded(s) && AllSavable(s.saved) && LastIsFold(s)
    ensures AllSavable(s'.saved) <==> AllLanded(s')
    ensures LastIsFold(s')
  {
    hide Parsed, Render, Template, Fold, Written, Savable, Readable;
    SavedGrows(s, step, s');
    if s'.saved == s.saved {
      assert s.saved != [] ==> Savable(s.saved[|s.saved| - 1].next);
    } else {
      assert ThreadOk(s, step.t);
      var job := s.threads[step.t].job;
      FoldMore(s.first, s.saved, job.change, job.next);
      assert forall k :: 0 <= k < |s.saved| ==> s'.saved[k] == s.saved[k];
    }
    LastLands(s');
  }

  /** In all states so far the file read as every change saved before, one after the other,
      exactly when the first file, if there was one, is one the program reads, and each settings
      saved so far are ones a save gives back: no change is lost, and none is replaced by the
      defaults, unless a value held a marker. */
  lemma {:induction false} NothingLost(run: seq<State>, steps: seq<Step>, i: nat)
    requires IsRun(run, steps) && i < |run|
    ensures (forall j :: 0 <= j <= i ==> AllLanded(run[j])) <==> Begins(run[0].first) && AllSavable(run[i].saved)
    ensures Begins(run[0].first) && AllSavable(run[i].saved) ==> LastIsFold(run[i])
    decreases i
  {
    hide Next, Inv, AllLanded, Savable, LastIsFold, Begins;
    RunKeeps(run, steps, i);
    if i == 0 {
      StartLands(run[0]);
    } else {
      NothingLost(run, steps, i - 1);
      RunKeeps(run, steps, i - 1);
      SavedGrows(run[i - 1], steps[i - 1], run[i]);
      assert AllSavable(run[i].saved) ==> AllSavable(run[i - 1].saved);
      if Begins(run[0].first) && AllSavable(run[i - 1].saved) {
        assert AllLanded(run[i - 1]);
        StepLands(run[i - 1], steps[i - 1], run[i]);
      }
    }
  }

  lemma StartLands(s: State)
    requires Initial(s)
    ensures AllSavable(s.saved) && (AllLanded(s) <==> Begins(s.first)) && (Begins(s.first) ==> LastIsFold(s))
  {
    hide Template, Parsed;
    TemplateReads();
  }

  lemma SavedGrows(s: State, step: Step, s': State)
    requires Next(s, step, s')
    ensures s.saved <= s'.saved && s'.first == s.first
  {
    hide Parsed, Render, Template;
  }

  /** A file the program does not read stays as the user wrote it, and nothing is saved. */
  lemma {:induction false} UnreadableStays(run: seq<State>, steps: seq<Step>, i: nat)
    requires IsRun(run, steps) && i < |run| && run[0].first.Some? && !Readable(run[0].first)
    ensures run[i].saved == [] && Settings in run[i].files && run[i].files[Settings] == run[0].first.value
    decreases i
  {
    hide Next, Parsed, Render, Template;
    WholeFile(run, steps, i);
    if i > 0 {
      UnreadableStays(run, steps, i - 1);
      if run[i].saved != run[i - 1].saved {
        ChangesAdd(run, steps, i - 1);
      }
    }
  }

  /** A folder added to settings that a save gives back, exactly when that save gives the
      settings back with the folder: no origin holds the databases' marker, if it is the
      first, nor does the folder hold the web site's, if that was set. */
  lemma FolderLands(c: Config, folder: string)
    requires Savable(c)
    ensures var next := c.(databases := c.databases + [folder]);
      Parsed(Render(next)) == Ok(next) <==>
        && (c.databases == [] ==> forall s | s in c.origins :: !Occurs(DATABASES, Quoted(s)))
        && (c.web != DEFAULT_WEB ==> !Occurs(WEB, Quoted(folder)))
  {
    hide Parsed, Render, Occurs, Quoted;
    var next := c.(databases := c.databases + [folder]);
    RoundTrip(next);
    assert folder in next.databases;
    assert forall s :: s in next.databases <==> s in c.databases || s == folder;
  }

  /** Once there, the file stays. */
  lemma FileStays(run: seq<State>, steps: seq<Step>, i: nat)
    requires IsRun(run, steps) && i < |steps| && Settings in run[i].files
    ensures Settings in run[i + 1].files
  {
    hide Parsed, Render, Template, Written;
    RunKeeps(run, steps, i);
    var (s, step) := (run[i], steps[i]);
    assert Next(s, step, run[i + 1]);
    FileFlushed(s);
    assert step.WriteFails? ==> ThreadOk(s, step.t);
  }

  /** The temporary files that no thread writes now, such as another process's, stay as they
      are. */
  lemma OthersFilesStay(run: seq<State>, steps: seq<Step>, i: nat, name: Name)
    requires IsRun(run, steps) && i < |steps| && name.Temporary? && name in run[i].files
    requires forall t <- run[i].threads :: run[i].threads[t].Writing? ==> run[i].threads[t].name != name
    ensures name in run[i + 1].files && run[i + 1].files[name] == run[i].files[name]
  {
    hide Parsed, Render, Template, Written;
    assert Next(run[i], steps[i], run[i + 1]);
  }
}
