/** What one change of the settings, or one load, leaves of `bridge.toml` when no other thread is in
    its way: the file made where there is none, the names tried, the text written whole, and what
    stays when it fails. */
module SettingsSavingAlone {
  import opened SettingsFile
  import opened SettingsParse
  import opened SettingsSaving
  import opened Text
  import opened Wrappers

  function Last(run: seq<State>): State
    requires run != []
  {
    run[|run| - 1]
  }

  /** The run goes on with the steps `taken`, to `s'`. */
  ghost predicate LedTo(run: seq<State>, steps: seq<Step>, taken: seq<Step>, run': seq<State>, s': State) {
    IsRun(run', steps + taken) && run <= run' && run' != [] && Last(run') == s'
  }

  lemma First(run: seq<State>, steps: seq<Step>, step: Step, s': State) returns (run': seq<State>)
    requires IsRun(run, steps) && Next(Last(run), step, s')
    ensures LedTo(run, steps, [step], run', s')
  {
    hide Next, Initial;
    run' := run + [s'];
  }

  lemma Then(run: seq<State>, steps: seq<Step>, taken: seq<Step>, mid: seq<State>, s: State, step: Step, s': State)
      returns (run': seq<State>)
    requires LedTo(run, steps, taken, mid, s) && Next(s, step, s')
    ensures LedTo(run, steps, taken + [step], run', s')
  {
    hide Next, Initial;
    run' := mid + [s'];
    assert steps + (taken + [step]) == steps + taken + [step];
  }

  /** Thread `t` at `phase`, with the lock. */
  function Under(s: State, t: Thread, phase: Phase): State {
    s.(threads := s.threads[t := phase], lock := Some(t))
  }

  /** Thread `t` has nothing under way, and no thread has the lock. */
  predicate Quiet(s: State, t: Thread) {
    t in s.threads && s.threads[t].Idle? && s.lock == None
  }

  lemma Again(s: State, t: Thread, p: Phase, q: Phase)
    ensures s.threads[t := p][t := q] == s.threads[t := q]
    ensures Quiet(s, t) ==> s.threads[t := Idle] == s.threads
  {}

  // ---------------------------------------------------------------- a temporary file

  /** The temporary file of the next name but `k`. */
  function NameAfter(s: State, k: nat): SettingsSaving.Name {
    Temporary(s.process, s.count + k)
  }

  function Tried(s: State, t: Thread, job: Job, text: string, k: nat): State {
    Under(s, t, Naming(job, text, k)).(count := s.count + k)
  }

  lemma NameTaken(s: State, t: Thread, job: Job, text: string, k: nat)
    requires Quiet(s, t) && NameAfter(s, k) in s.files
    ensures Next(Tried(s, t, job, text, k), Step.Name(t),
                 if k + 1 < 64 then Tried(s, t, job, text, k + 1) else s.(count := s.count + k + 1))
  {
    Again(s, t, Naming(job, text, k), Naming(job, text, k + 1));
    Again(s, t, Naming(job, text, k), Idle);
  }

  lemma NameFree(s: State, t: Thread, job: Job, text: string, k: nat)
    requires Quiet(s, t) && NameAfter(s, k) !in s.files
    ensures Next(Tried(s, t, job, text, k), Step.Name(t),
                 Under(s, t, Writing(job, text, NameAfter(s, k), 0, false)).(
                   count := s.count + k + 1, files := s.files[NameAfter(s, k) := ""]))
  {
    Again(s, t, Naming(job, text, k), Writing(job, text, NameAfter(s, k), 0, false));
  }

  ghost predicate AllNames(taken: seq<Step>, t: Thread) {
    forall i :: 0 <= i < |taken| ==> taken[i] == Step.Name(t)
  }

  /** Names that are taken are passed over, up to the first that is free. */
  lemma {:induction false} PassesOver(run: seq<State>, steps: seq<Step>, taken: seq<Step>, mid: seq<State>, s: State,
                                      t: Thread, job: Job, text: string, k: nat)
      returns (more: seq<Step>, run': seq<State>)
    requires Quiet(s, t) && LedTo(run, steps, taken, mid, Tried(s, t, job, text, 0)) && k < 64
    requires forall j :: 0 <= j < k ==> NameAfter(s, j) in s.files
    ensures AllNames(more, t) && |more| == k && LedTo(run, steps, taken + more, run', Tried(s, t, job, text, k))
    decreases k
  {
    hide LedTo, Next, Initial;
    if k == 0 {
      more, run' := [], mid;
      assert taken + [] == taken;
    } else {
      more, run' := PassesOver(run, steps, taken, mid, s, t, job, text, k - 1);
      NameTaken(s, t, job, text, k - 1);
      run' := Then(run, steps, taken + more, run', Tried(s, t, job, text, k - 1), Step.Name(t),
                   Tried(s, t, job, text, k));
      assert taken + more + [Step.Name(t)] == taken + (more + [Step.Name(t)]);
      more := more + [Step.Name(t)];
    }
  }

  /** When 64 names are taken the write gives up, and every file is as it was. */
  lemma NamesOut(run: seq<State>, steps: seq<Step>, taken: seq<Step>, mid: seq<State>, s: State, t: Thread,
                 job: Job, text: string) returns (more: seq<Step>, run': seq<State>)
    requires Quiet(s, t) && LedTo(run, steps, taken, mid, Tried(s, t, job, text, 0))
    requires forall j :: 0 <= j < 64 ==> NameAfter(s, j) in s.files
    ensures AllNames(more, t) && LedTo(run, steps, taken + more, run', s.(count := s.count + 64))
  {
    hide LedTo, Next, Initial;
    more, run' := PassesOver(run, steps, taken, mid, s, t, job, text, 63);
    NameTaken(s, t, job, text, 63);
    run' := Then(run, steps, taken + more, run', Tried(s, t, job, text, 63), Step.Name(t), s.(count := s.count + 64));
    assert taken + more + [Step.Name(t)] == taken + (more + [Step.Name(t)]);
    more := more + [Step.Name(t)];
  }

  /** The temporary file holds the whole text, flushed. */
  function Ready(s: State, t: Thread, job: Job, text: string, k: nat): State {
    Under(s, t, Writing(job, text, NameAfter(s, k), |text|, true)).(
      count := s.count + k + 1, files := s.files[NameAfter(s, k) := text])
  }

  function Begun(s: State, t: Thread, job: Job, text: string, k: nat, n: nat): State
    requires n <= |text|
  {
    Under(s, t, Writing(job, text, NameAfter(s, k), n, false)).(
      count := s.count + k + 1, files := s.files[NameAfter(s, k) := text[..n]])
  }

  lemma WriteSteps(s: State, t: Thread, job: Job, text: string, k: nat)
    requires Quiet(s, t)
    ensures text != [] ==> Next(Begun(s, t, job, text, k, 0), Write(t, |text|), Begun(s, t, job, text, k, |text|))
    ensures Next(Begun(s, t, job, text, k, |text|), Flush(t), Ready(s, t, job, text, k))
  {
    Again(s, t, Writing(job, text, NameAfter(s, k), 0, false), Writing(job, text, NameAfter(s, k), |text|, false));
    Again(s, t, Writing(job, text, NameAfter(s, k), |text|, false), Writing(job, text, NameAfter(s, k), |text|, true));
    var name := NameAfter(s, k);
    assert s.files[name := text[..0]][name := text] == s.files[name := text] && text[..|text|] == text;
  }

  /** A text is written at once, if there is any, and flushed. */
  function Fill(t: Thread, text: string): seq<Step> {
    if text == [] then [Flush(t)] else [Write(t, |text|), Flush(t)]
  }

  /** A text is written whole to the first name that is free, and flushed. */
  lemma WritesOut(run: seq<State>, steps: seq<Step>, taken: seq<Step>, mid: seq<State>, s: State, t: Thread,
                  job: Job, text: string, k: nat) returns (more: seq<Step>, run': seq<State>)
    requires Quiet(s, t) && LedTo(run, steps, taken, mid, Tried(s, t, job, text, 0)) && k < 64
    requires NameAfter(s, k) !in s.files && forall j :: 0 <= j < k ==> NameAfter(s, j) in s.files
    ensures AllNames(more, t) && |more| == k + 1
    ensures LedTo(run, steps, taken + more + Fill(t, text), run', Ready(s, t, job, text, k))
  {
    hide LedTo, Next, Initial;
    more, run' := PassesOver(run, steps, taken, mid, s, t, job, text, k);
    NameFree(s, t, job, text, k);
    assert text[..0] == "";
    run' := Then(run, steps, taken + more, run', Tried(s, t, job, text, k), Step.Name(t), Begun(s, t, job, text, k, 0));
    assert taken + more + [Step.Name(t)] == taken + (more + [Step.Name(t)]);
    more := more + [Step.Name(t)];
    WriteSteps(s, t, job, text, k);
    if text != [] {
      run' := Then(run, steps, taken + more, run', Begun(s, t, job, text, k, 0), Write(t, |text|),
                   Begun(s, t, job, text, k, |text|));
      run' := Then(run, steps, taken + more + [Write(t, |text|)], run', Begun(s, t, job, text, k, |text|), Flush(t),
                   Ready(s, t, job, text, k));
      assert taken + more + [Write(t, |text|)] + [Flush(t)] == taken + more + Fill(t, text);
    } else {
      run' := Then(run, steps, taken + more, run', Begun(s, t, job, text, k, 0), Flush(t), Ready(s, t, job, text, k));
    }
  }

  /** A write that fails, anywhere, ends: the temporary file it made is gone, or stays as far as it
      came when it cannot be removed. No other file changes. */
  lemma WriteFailsAt(s: State, t: Thread, job: Job, text: string, k: nat, n: nat)
    requires Quiet(s, t) && n <= |text| && NameAfter(s, k) !in s.files
    ensures Next(Begun(s, t, job, text, k, n), WriteFails(t, true), s.(count := s.count + k + 1))
    ensures Next(Begun(s, t, job, text, k, n), WriteFails(t, false),
                 s.(count := s.count + k + 1, files := s.files[NameAfter(s, k) := text[..n]]))
  {
    Again(s, t, Writing(job, text, NameAfter(s, k), n, false), Idle);
    var name := NameAfter(s, k);
    assert s.files[name := text[..n]] - {name} == s.files;
  }

  /** The file with a text in place of what it held. */
  function Replaced(s: State, k: nat, text: string): State {
    s.(count := s.count + k + 1, files := s.files[Settings := text])
  }

  lemma RenameSteps(s: State, t: Thread, job: Job, text: string, k: nat)
    requires Quiet(s, t) && NameAfter(s, k) !in s.files
    ensures Next(Ready(s, t, job, text, k), Rename(t),
                 match job
                 case ForLoad => Replaced(s, k, text)
                 case ForUpdate(change) => Under(Replaced(s, k, text), t, Reading(change))
                 case Saving(change, next) => Replaced(s, k, text).(saved := s.saved + [Saved(change, next)]))
  {
    var (a, name) := (Ready(s, t, job, text, k), NameAfter(s, k));
    Again(s, t, a.threads[t], Idle);
    assert a.files - {name} == s.files;
    if job.ForUpdate? {
      Again(s, t, a.threads[t], Reading(job.change));
    }
  }

  // ---------------------------------------------------------------- a change

  lemma LockSteps(s: State, t: Thread, change: Change)
    requires Quiet(s, t)
    ensures Next(s, Update(t, change), s.(threads := s.threads[t := UpdateWaits(change)]))
    ensures Next(s.(threads := s.threads[t := UpdateWaits(change)]), Lock(t), Under(s, t, Creating(ForUpdate(change))))
  {
    Again(s, t, UpdateWaits(change), Creating(ForUpdate(change)));
  }

  lemma CreateSteps(s: State, t: Thread, job: Job)
    requires Quiet(s, t) && !job.Saving?
    ensures Next(Under(s, t, Creating(job)), Create(t),
                 if Settings !in s.files then Tried(s, t, job, Template(), 0)
                 else if job.ForLoad? then s
                 else Under(s, t, Reading(job.change)))
  {
    hide Template, Parsed, Render;
    Again(s, t, Creating(job), Naming(job, Template(), 0));
    Again(s, t, Creating(job), Idle);
    if job.ForUpdate? {
      Again(s, t, Creating(job), Reading(job.change));
    }
  }

  lemma ReadSteps(s: State, t: Thread, change: Change)
    requires Quiet(s, t) && Settings in s.files
    ensures var r := Parsed(s.files[Settings]);
      Next(Under(s, t, Reading(change)), Read(t),
           if r.Err? then s else Tried(s, t, Saving(change, change(r.value)), Render(change(r.value)), 0))
  {
    hide Template, Parsed, Render;
    Again(s, t, Reading(change), Idle);
    var r := Parsed(s.files[Settings]);
    if r.Ok? {
      Again(s, t, Reading(change), Naming(Saving(change, change(r.value)), Render(change(r.value)), 0));
    }
  }

  /** A change has the lock at once. */
  lemma Locks(run: seq<State>, steps: seq<Step>, t: Thread, change: Change) returns (run': seq<State>)
    requires IsRun(run, steps) && Quiet(Last(run), t)
    ensures LedTo(run, steps, [Update(t, change), Lock(t)], run', Under(Last(run), t, Creating(ForUpdate(change))))
  {
    hide LedTo, Next, Initial;
    var s := Last(run);
    LockSteps(s, t, change);
    var a := s.(threads := s.threads[t := UpdateWaits(change)]);
    run' := First(run, steps, Update(t, change), a);
    run' := Then(run, steps, [Update(t, change)], run', a, Lock(t), Under(s, t, Creating(ForUpdate(change))));
    assert [Update(t, change)] + [Lock(t)] == [Update(t, change), Lock(t)];
  }

  /** A change of a file that can be read: the settings it holds, changed, are in the file whole, and
      no temporary file stays, whatever names were taken before the first that is free. */
  lemma SavesChange(run: seq<State>, steps: seq<Step>, t: Thread, change: Change, k: nat)
      returns (names: seq<Step>, run': seq<State>)
    requires IsRun(run, steps) && Quiet(Last(run), t) && k < 64
    requires Settings in Last(run).files && Parsed(Last(run).files[Settings]).Ok?
    requires NameAfter(Last(run), k) !in Last(run).files
    requires forall j :: 0 <= j < k ==> NameAfter(Last(run), j) in Last(run).files
    ensures var s := Last(run);
      var next := change(Parsed(s.files[Settings]).value);
      && AllNames(names, t) && |names| == k + 1
      && LedTo(run, steps, [Update(t, change), Lock(t), Create(t), Read(t)] + names
                           + (Fill(t, Render(next)) + [Rename(t)]), run',
               Replaced(s, k, Render(next)).(saved := s.saved + [Saved(change, next)]))
  {
    hide LedTo, Next, Initial, Render, Parsed, Template, Replaced;
    var s := Last(run);
    var next := change(Parsed(s.files[Settings]).value);
    var (job, text) := (Saving(change, next), Render(next));
    CreateSteps(s, t, ForUpdate(change));
    ReadSteps(s, t, change);
    RenameSteps(s, t, job, text, k);
    run' := Locks(run, steps, t, change);
    var first := [Update(t, change), Lock(t)];
    run' := Then(run, steps, first, run', Under(s, t, Creating(ForUpdate(change))), Create(t),
                 Under(s, t, Reading(change)));
    run' := Then(run, steps, first + [Create(t)], run', Under(s, t, Reading(change)), Read(t),
                 Tried(s, t, job, text, 0));
    var taken := [Update(t, change), Lock(t), Create(t), Read(t)];
    assert first + [Create(t)] + [Read(t)] == taken;
    names, run' := WritesOut(run, steps, taken, run', s, t, job, text, k);
    run' := Then(run, steps, taken + names + Fill(t, text), run', Ready(s, t, job, text, k), Rename(t),
                 Replaced(s, k, text).(saved := s.saved + [Saved(change, next)]));
    assert taken + names + Fill(t, text) + [Rename(t)]
        == taken + names + (Fill(t, text) + [Rename(t)]);
  }

  /** A change of a file that cannot be read changes nothing. */
  lemma LeavesUnreadable(run: seq<State>, steps: seq<Step>, t: Thread, change: Change) returns (run': seq<State>)
    requires IsRun(run, steps) && Quiet(Last(run), t)
    requires Settings in Last(run).files && Parsed(Last(run).files[Settings]).Err?
    ensures LedTo(run, steps, [Update(t, change), Lock(t), Create(t), Read(t)], run', Last(run))
  {
    hide LedTo, Next, Initial, Render, Parsed, Template;
    var s := Last(run);
    CreateSteps(s, t, ForUpdate(change));
    ReadSteps(s, t, change);
    run' := Locks(run, steps, t, change);
    var first := [Update(t, change), Lock(t)];
    run' := Then(run, steps, first, run', Under(s, t, Creating(ForUpdate(change))), Create(t),
                 Under(s, t, Reading(change)));
    run' := Then(run, steps, first + [Create(t)], run', Under(s, t, Reading(change)), Read(t), s);
    assert first + [Create(t)] + [Read(t)] == [Update(t, change), Lock(t), Create(t), Read(t)];
  }

  /** Without a file a change makes the default one first, and goes on to read it. */
  lemma MakesDefault(run: seq<State>, steps: seq<Step>, t: Thread, change: Change, k: nat)
      returns (names: seq<Step>, run': seq<State>)
    requires IsRun(run, steps) && Quiet(Last(run), t) && k < 64 && Settings !in Last(run).files
    requires NameAfter(Last(run), k) !in Last(run).files
    requires forall j :: 0 <= j < k ==> NameAfter(Last(run), j) in Last(run).files
    ensures AllNames(names, t) && |names| == k + 1
    ensures LedTo(run, steps, [Update(t, change), Lock(t), Create(t)] + names
                              + (Fill(t, Template()) + [Rename(t)]), run',
                  Under(Replaced(Last(run), k, Template()), t, Reading(change)))
  {
    hide LedTo, Next, Initial, Render, Parsed, Template, Replaced;
    var s := Last(run);
    var (job, text) := (ForUpdate(change), Template());
    CreateSteps(s, t, job);
    RenameSteps(s, t, job, text, k);
    run' := Locks(run, steps, t, change);
    var first := [Update(t, change), Lock(t)];
    run' := Then(run, steps, first, run', Under(s, t, Creating(job)), Create(t), Tried(s, t, job, text, 0));
    var taken := [Update(t, change), Lock(t), Create(t)];
    assert first + [Create(t)] == taken;
    names, run' := WritesOut(run, steps, taken, run', s, t, job, text, k);
    run' := Then(run, steps, taken + names + Fill(t, text), run', Ready(s, t, job, text, k), Rename(t),
                 Under(Replaced(s, k, text), t, Reading(change)));
    assert taken + names + Fill(t, text) + [Rename(t)]
        == taken + names + (Fill(t, text) + [Rename(t)]);
  }

  // ---------------------------------------------------------------- a load

  /** A load where there is a file does nothing. */
  lemma LoadsThere(run: seq<State>, steps: seq<Step>, t: Thread) returns (run': seq<State>)
    requires IsRun(run, steps) && t in Last(run).threads && Last(run).threads[t].Idle? && Settings in Last(run).files
    ensures LedTo(run, steps, [Load(t)], run', Last(run))
  {
    hide LedTo, Initial, Render, Parsed, Template;
    run' := First(run, steps, Load(t), Last(run));
  }

  lemma LoadSteps(s: State, t: Thread)
    requires Quiet(s, t) && Settings !in s.files
    ensures Next(s, Load(t), s.(threads := s.threads[t := LoadWaits]))
    ensures Next(s.(threads := s.threads[t := LoadWaits]), Lock(t), Under(s, t, Creating(ForLoad)))
  {
    Again(s, t, LoadWaits, Creating(ForLoad));
  }

  /** A load that has the lock leaves a file made meanwhile. */
  lemma LoadFindsOne(s: State, t: Thread)
    requires Quiet(s, t) && Settings in s.files
    ensures Next(Under(s, t, Creating(ForLoad)), Create(t), s)
  {
    CreateSteps(s, t, ForLoad);
  }

  /** A load where there is none leaves the default file. */
  lemma LoadsDefault(run: seq<State>, steps: seq<Step>, t: Thread, k: nat) returns (names: seq<Step>, run': seq<State>)
    requires IsRun(run, steps) && Quiet(Last(run), t) && k < 64 && Settings !in Last(run).files
    requires NameAfter(Last(run), k) !in Last(run).files
    requires forall j :: 0 <= j < k ==> NameAfter(Last(run), j) in Last(run).files
    ensures AllNames(names, t) && |names| == k + 1
    ensures LedTo(run, steps, [Load(t), Lock(t), Create(t)] + names + (Fill(t, Template()) + [Rename(t)]), run',
                  Replaced(Last(run), k, Template()))
  {
    hide LedTo, Next, Initial, Render, Parsed, Template, Replaced;
    var s := Last(run);
    var text := Template();
    LoadSteps(s, t);
    CreateSteps(s, t, ForLoad);
    RenameSteps(s, t, ForLoad, text, k);
    var a := s.(threads := s.threads[t := LoadWaits]);
    run' := First(run, steps, Load(t), a);
    run' := Then(run, steps, [Load(t)], run', a, Lock(t), Under(s, t, Creating(ForLoad)));
    run' := Then(run, steps, [Load(t)] + [Lock(t)], run', Under(s, t, Creating(ForLoad)), Create(t),
                 Tried(s, t, ForLoad, text, 0));
    var taken := [Load(t), Lock(t), Create(t)];
    assert [Load(t)] + [Lock(t)] + [Create(t)] == taken;
    names, run' := WritesOut(run, steps, taken, run', s, t, ForLoad, text, k);
    run' := Then(run, steps, taken + names + Fill(t, text), run', Ready(s, t, ForLoad, text, k), Rename(t),
                 Replaced(s, k, text));
    assert taken + names + Fill(t, text) + [Rename(t)]
        == taken + names + (Fill(t, text) + [Rename(t)]);
  }

  // ---------------------------------------------------------------- a crash

  /** The power may go at any time: every file but those written and not flushed is as it was, and one
      of these is lost or holds anything. */
  lemma Crashes(run: seq<State>, steps: seq<Step>, process: nat, t: Thread, torn: string)
      returns (lost: seq<State>, kept: seq<State>)
    requires IsRun(run, steps) && t in Last(run).threads
    requires var p := Last(run).threads[t]; p.Writing? && !p.flushed && p.name in Last(run).files
    ensures var (s, name) := (Last(run), Last(run).threads[t].name);
      var ended := s.(threads := map u <- s.threads :: Idle, lock := None, process := process, count := 0);
      && LedTo(run, steps, [Crash(process, s.files - {name})], lost, ended.(files := s.files - {name}))
      && LedTo(run, steps, [Crash(process, s.files[name := torn])], kept, ended.(files := s.files[name := torn]))
  {
    hide LedTo, Initial, Render, Parsed, Template;
    var (s, name) := (Last(run), Last(run).threads[t].name);
    var ended := s.(threads := map u <- s.threads :: Idle, lock := None, process := process, count := 0);
    assert Unflushed(s, name);
    lost := First(run, steps, Crash(process, s.files - {name}), ended.(files := s.files - {name}));
    kept := First(run, steps, Crash(process, s.files[name := torn]), ended.(files := s.files[name := torn]));
  }

  /** A run may begin with any files, and threads that do nothing yet. */
  lemma Starts(files: map<Name, string>, process: nat, threads: set<Thread>)
    ensures var first := if Settings in files then Some(files[Settings]) else None;
      IsRun([State(files, process, 0, None, map t <- threads :: Idle, first, [])], [])
  {}
}
