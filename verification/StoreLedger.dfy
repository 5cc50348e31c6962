/** The reservation of store versions (`reserve` of `store_version.py`): concurrent runs
    that each claim the next build by creating its ref, which only the first can. */
module StoreLedger {
  import opened StoreVersion
  import opened Wrappers

  type Run = nat

  const LAST_BUILD := 2100000000
  const TRIES := 20

  /** What a run was given: its owner's major version, its clock's day, the build floor and
      the version every new one is above. */
  datatype Settings = Settings(major: int, today: Day, floor: nat, minimum: Parts)

  /** A reservation; `tag` stands for its own number, which makes its tag object unlike
      every other. */
  datatype Record = Record(version: Parts, run: Run, tag: nat)

  datatype Phase =
    | Ready(given: Settings, tries: nat)
    | Sent(given: Settings, tries: nat, build: nat, record: Record)
    | Answered(given: Settings, tries: nat, build: nat, record: Record, error: bool)
    | Returned(build: nat, record: Record)
    | Failed

  datatype Request = Request(build: nat, record: Record)

  /** The refs created, the creations on their way, which land at any later time or never,
      the runs, and the number of the next tag object. */
  datatype State = State(ledger: map<nat, Record>, sent: set<Request>, runs: map<Run, Phase>, tags: nat)

  datatype Step =
    | Begin(run: Run, given: Settings)
    | Prepare(run: Run, latest: Option<nat>)
    | Land(request: Request)
    | Vanish(request: Request)
    | Answer(run: Run, error: bool)
    | ReadBack(run: Run)
    | Fail(run: Run)

  // ---------------------------------------------------------------- the steps

  predicate IsLatest(ledger: map<nat, Record>, latest: Option<nat>) {
    match latest
    case None => ledger == map[]
    case Some(b) => b in ledger && forall k <- ledger :: k <= b
  }

  function Higher(a: Parts, b: Parts): Parts {
    if Less(a, b) then b else a
  }

  function Max(a: nat, b: nat): nat {
    if a < b then b else a
  }

  function Put(s: State, run: Run, phase: Phase): State {
    s.(runs := s.runs[run := phase])
  }

  function Previous(s: State, given: Settings, latest: Option<nat>): Parts
    requires IsLatest(s.ledger, latest)
  {
    if latest == None then given.minimum else Higher(given.minimum, s.ledger[latest.value].version)
  }

  function NextBuild(given: Settings, latest: Option<nat>): nat {
    (if latest == None then given.floor else Max(given.floor, latest.value)) + 1
  }

  predicate CanBegin(s: State, run: Run, given: Settings) {
    run !in s.runs && ValidDay(given.today) && Within(given.minimum)
  }

  function BeginStep(s: State, run: Run, given: Settings): State {
    Put(s, run, Ready(given, 0))
  }

  predicate CanPrepare(s: State, run: Run, latest: Option<nat>) {
    run in s.runs && s.runs[run].Ready? && IsLatest(s.ledger, latest)
  }

  /** One round: the refs are read, and the creation of the next is sent. */
  function PrepareStep(s: State, run: Run, latest: Option<nat>): State
    requires CanPrepare(s, run, latest)
  {
    var (given, tries) := (s.runs[run].given, s.runs[run].tries);
    var build := NextBuild(given, latest);
    var next := NextParts(given.major, given.today, Previous(s, given, latest));
    if tries >= TRIES || build > LAST_BUILD || next.Err? then Put(s, run, Failed)
    else
      var record := Record(next.value, run, s.tags);
      Put(s, run, Sent(given, tries, build, record)).(sent := s.sent + {Request(build, record)}, tags := s.tags + 1)
  }

  /** A ref is created only where there is none. */
  function LandStep(s: State, request: Request): State {
    s.(sent := s.sent - {request},
       ledger := if request.build in s.ledger then s.ledger else s.ledger[request.build := request.record])
  }

  predicate CanAnswer(s: State, run: Run, error: bool) {
    && run in s.runs && s.runs[run].Sent?
    && (!error ==> s.runs[run].build in s.ledger && s.ledger[s.runs[run].build] == s.runs[run].record)
  }

  function AnswerStep(s: State, run: Run, error: bool): State
    requires CanAnswer(s, run, error)
  {
    var p := s.runs[run];
    Put(s, run, Answered(p.given, p.tries, p.build, p.record, error))
  }

  predicate CanReadBack(s: State, run: Run) {
    run in s.runs && s.runs[run].Answered?
  }

  /** Whatever the answer was, the ref is read: only its own record is returned. */
  function ReadBackStep(s: State, run: Run): State
    requires CanReadBack(s, run)
  {
    var p := s.runs[run];
    Put(s, run,
      if p.build !in s.ledger then Failed
      else if s.ledger[p.build] == p.record then Returned(p.build, p.record)
      else if p.error then Ready(p.given, p.tries + 1)
      else Failed)
  }

  predicate CanFail(s: State, run: Run) {
    run in s.runs && !s.runs[run].Returned?
  }

  predicate Next(s: State, step: Step, s': State) {
    match step
    case Begin(run, given) => CanBegin(s, run, given) && s' == BeginStep(s, run, given)
    case Prepare(run, latest) => CanPrepare(s, run, latest) && s' == PrepareStep(s, run, latest)
    case Land(request) => request in s.sent && s' == LandStep(s, request)
    case Vanish(request) => request in s.sent && s' == s.(sent := s.sent - {request})
    case Answer(run, error) => CanAnswer(s, run, error) && s' == AnswerStep(s, run, error)
    case ReadBack(run) => CanReadBack(s, run) && s' == ReadBackStep(s, run)
    case Fail(run) => CanFail(s, run) && s' == Put(s, run, Failed)
  }

  const START := State(map[], {}, map[], 0)

  predicate IsRun(states: seq<State>, steps: seq<Step>) {
    && |states| == |steps| + 1 && states[0] == START
    && forall i :: 0 <= i < |steps| ==> Next(states[i], steps[i], states[i + 1])
  }

  /** The floor of a run that looks at the ledger raises no build above the first after
      `floor` and the first after the latest. */
  predicate FloorAgrees(s: State, step: Step, floor: nat) {
    step.Prepare? && CanPrepare(s, step.run, step.latest) ==>
      var f := s.runs[step.run].given.floor;
      f == floor || (step.latest.Some? && f <= step.latest.value)
  }

  /** All runs share one build floor, but for those below what was reserved already. */
  predicate OneFloor(states: seq<State>, steps: seq<Step>, floor: nat) {
    IsRun(states, steps) && forall i :: 0 <= i < |steps| ==> FloorAgrees(states[i], steps[i], floor)
  }

  // ---------------------------------------------------------------- with any floors

  predicate Given(given: Settings) {
    ValidDay(given.today) && Within(given.minimum)
  }

  /** A run's record is its own, within the limits, and once returned it is in the ledger. */
  predicate Owns(s: State, run: Run)
    requires run in s.runs
  {
    match s.runs[run]
    case Ready(given, _) => Given(given)
    case Sent(given, _, build, record) => Given(given) && record.run == run && Within(record.version)
    case Answered(given, _, build, record, _) => Given(given) && record.run == run && Within(record.version)
    case Returned(build, record) =>
      record.run == run && Within(record.version) && build in s.ledger && s.ledger[build] == record
    case Failed => true
  }

  predicate AllOwn(s: State) {
    forall run <- s.runs :: Owns(s, run)
  }

  lemma StepOwns(s: State, step: Step, s': State)
    requires AllOwn(s) && Next(s, step, s')
    ensures AllOwn(s')
  {
    if step.Prepare? {
      assert Owns(s, step.run);
      var given := s.runs[step.run].given;
      var past := Previous(s, given, step.latest);
      if NextParts(given.major, given.today, past).Ok? {
        NextIsLeast(given.major, given.today, past);
      }
    }
    forall run <- s'.runs ensures Owns(s', run) {
      assert run in s.runs ==> Owns(s, run);
    }
  }

  lemma {:induction false} RunOwns(states: seq<State>, steps: seq<Step>, i: nat)
    requires IsRun(states, steps) && i < |states|
    ensures AllOwn(states[i])
    decreases i
  {
    hide Next, Owns;
    if i > 0 {
      RunOwns(states, steps, i - 1);
      StepOwns(states[i - 1], steps[i - 1], states[i]);
    }
  }

  /** The ledger is only added to: a build keeps its one record. */
  lemma {:induction false} OneOwner(states: seq<State>, steps: seq<Step>, i: nat, j: nat, build: nat)
    requires IsRun(states, steps) && i <= j < |states| && build in states[i].ledger
    ensures build in states[j].ledger && states[j].ledger[build] == states[i].ledger[build]
    decreases j
  {
    hide IsLatest;
    if i < j {
      OneOwner(states, steps, i, j - 1, build);
      assert Next(states[j - 1], steps[j - 1], states[j]);
    }
  }

  /** A run returns only what it owns in the ledger, so no two runs return one build,
      whatever answers were lost. */
  lemma ReturnedIsOwned(states: seq<State>, steps: seq<Step>, i: nat, run: Run, other: Run)
    requires IsRun(states, steps) && i < |states|
    requires run in states[i].runs && states[i].runs[run].Returned?
    requires other in states[i].runs && states[i].runs[other].Returned?
    ensures var (s, p) := (states[i], states[i].runs[run]);
      && p.build in s.ledger && s.ledger[p.build] == p.record && p.record.run == run
      && (s.runs[other].build == p.build ==> other == run)
  {
    RunOwns(states, steps, i);
    assert Owns(states[i], run) && Owns(states[i], other);
  }

  /** Every version returned is text that reads back within the store's limits. */
  lemma ReturnedReparses(states: seq<State>, steps: seq<Step>, i: nat, run: Run)
    requires IsRun(states, steps) && i < |states| && run in states[i].runs && states[i].runs[run].Returned?
    ensures var v := states[i].runs[run].record.version; Within(v) && VersionParts(VersionText(v)) == Some(v)
  {
    RunOwns(states, steps, i);
    assert Owns(states[i], run);
    TextReads(states[i].runs[run].record.version);
  }

  // ---------------------------------------------------------------- with one floor

  /** A claim follows what is in the ledger: its build is the first, or comes after one
      whose version is below its own. */
  predicate Follows(s: State, floor: nat, build: nat, version: Parts) {
    build > floor && (build == floor + 1 || (build - 1 in s.ledger && Less(s.ledger[build - 1].version, version)))
  }

  predicate ClaimFollows(s: State, floor: nat, p: Phase) {
    match p
    case Sent(_, _, build, record) => Follows(s, floor, build, record.version)
    case Answered(_, _, build, record, _) => Follows(s, floor, build, record.version)
    case _ => true
  }

  /** The builds reserved have no gap. */
  predicate Contiguous(s: State, floor: nat) {
    forall b <- s.ledger :: b > floor && (b == floor + 1 || b - 1 in s.ledger)
  }

  /** Each version is above that of the build before. */
  predicate Rising(s: State, floor: nat) {
    forall b <- s.ledger :: b - 1 in s.ledger ==> Less(s.ledger[b - 1].version, s.ledger[b].version)
  }

  predicate Ordered(s: State, floor: nat) {
    && Contiguous(s, floor) && Rising(s, floor)
    && (forall r <- s.sent :: Follows(s, floor, r.build, r.record.version))
    && (forall run <- s.runs :: ClaimFollows(s, floor, s.runs[run]))
  }

  lemma ClaimIsNext(s: State, run: Run, latest: Option<nat>, floor: nat)
    requires Contiguous(s, floor) && AllOwn(s) && CanPrepare(s, run, latest)
    requires FloorAgrees(s, Prepare(run, latest), floor)
    ensures var given := s.runs[run].given;
      var next := NextParts(given.major, given.today, Previous(s, given, latest));
      next.Ok? ==> Follows(s, floor, NextBuild(given, latest), next.value)
  {
    hide Rising;
    assert Owns(s, run);
    var given := s.runs[run].given;
    var past := Previous(s, given, latest);
    var next := NextParts(given.major, given.today, past);
    if next.Ok? {
      NextIsLeast(given.major, given.today, past);
      if latest.Some? {
        LessIsStrict(s.ledger[latest.value].version, past, next.value);
      }
    }
  }

  lemma PrepareOrdered(s: State, run: Run, latest: Option<nat>, floor: nat)
    requires Ordered(s, floor) && AllOwn(s) && CanPrepare(s, run, latest)
    requires FloorAgrees(s, Prepare(run, latest), floor)
    ensures Ordered(PrepareStep(s, run, latest), floor)
  {
    hide NextParts, Previous, NextBuild, FloorAgrees, AllOwn, Less, Given;
    ClaimIsNext(s, run, latest, floor);
    var s' := PrepareStep(s, run, latest);
    assert s'.ledger == s.ledger;
  }

  lemma StepOrdered(s: State, step: Step, s': State, floor: nat)
    requires Ordered(s, floor) && AllOwn(s) && Next(s, step, s') && FloorAgrees(s, step, floor)
    ensures Ordered(s', floor)
  {
    match step
    case Prepare(run, latest) => PrepareOrdered(s, run, latest, floor);
    case Land(request) => LandOrdered(s, request, floor);
    case _ =>
  }

  lemma LandOrdered(s: State, request: Request, floor: nat)
    requires Ordered(s, floor) && request in s.sent
    ensures Ordered(LandStep(s, request), floor)
  {
    var s' := LandStep(s, request);
    assert Follows(s, floor, request.build, request.record.version);
    assert forall b <- s.ledger :: b in s'.ledger && s'.ledger[b] == s.ledger[b];
  }

  lemma {:induction false} RunOrdered(states: seq<State>, steps: seq<Step>, floor: nat, i: nat)
    requires OneFloor(states, steps, floor) && i < |states|
    ensures Ordered(states[i], floor)
    decreases i
  {
    hide Next, FloorAgrees, Ordered;
    if i == 0 {
      StartOrdered(floor);
    } else {
      RunOrdered(states, steps, floor, i - 1);
      RunOwns(states, steps, i - 1);
      StepOrdered(states[i - 1], steps[i - 1], states[i], floor);
    }
  }

  lemma StartOrdered(floor: nat)
    ensures Ordered(START, floor)
  {}

  lemma {:induction false} AllBetween(s: State, floor: nat, a: nat, b: nat)
    requires Ordered(s, floor) && b in s.ledger && floor < a <= b
    ensures a in s.ledger && (a < b ==> Less(s.ledger[a].version, s.ledger[b].version))
    decreases b - a
  {
    if a < b {
      AllBetween(s, floor, a + 1, b);
      if a + 1 < b {
        LessIsStrict(s.ledger[a].version, s.ledger[a + 1].version, s.ledger[b].version);
      }
    }
  }

  /** With one floor the builds reserved have no gap from it, and a later build always has
      a later version. */
  lemma VersionsRise(states: seq<State>, steps: seq<Step>, floor: nat, i: nat, a: nat, b: nat)
    requires OneFloor(states, steps, floor) && i < |states| && b in states[i].ledger && floor < a < b
    ensures a in states[i].ledger && Less(states[i].ledger[a].version, states[i].ledger[b].version)
  {
    RunOrdered(states, steps, floor, i);
    AllBetween(states[i], floor, a, b);
  }

  /** So no two runs return one version. */
  lemma VersionsDiffer(states: seq<State>, steps: seq<Step>, floor: nat, i: nat, run: Run, other: Run)
    requires OneFloor(states, steps, floor) && i < |states| && run != other
    requires run in states[i].runs && states[i].runs[run].Returned?
    requires other in states[i].runs && states[i].runs[other].Returned?
    ensures var (p, q) := (states[i].runs[run], states[i].runs[other]);
      if p.build < q.build then Less(p.record.version, q.record.version)
      else p.build > q.build && Less(q.record.version, p.record.version)
  {
    hide Next, OneFloor;
    assert IsRun(states, steps) by { ItsRun(states, steps, floor); }
    ReturnedIsOwned(states, steps, i, run, other);
    ReturnedIsOwned(states, steps, i, other, run);
    var (p, q) := (states[i].runs[run].build, states[i].runs[other].build);
    RunOrdered(states, steps, floor, i);
    if p < q {
      AllBetween(states[i], floor, p, q);
    } else {
      AllBetween(states[i], floor, q, p);
    }
  }

  lemma ItsRun(states: seq<State>, steps: seq<Step>, floor: nat)
    requires OneFloor(states, steps, floor)
    ensures IsRun(states, steps)
  {}

  // ---------------------------------------------------------------- a claim

  /** The version the next run with these settings takes. */
  function NextOf(s: State, given: Settings, latest: Option<nat>): Result<Parts, Refusal>
    requires IsLatest(s.ledger, latest)
  {
    NextParts(given.major, given.today, Previous(s, given, latest))
  }

  /** A run with these settings would claim `build` for version `v`. */
  predicate Claims(s: State, given: Settings, latest: Option<nat>, build: nat, v: Parts) {
    && Given(given) && IsLatest(s.ledger, latest) && NextOf(s, given, latest) == Ok(v)
    && build == NextBuild(given, latest) && build <= LAST_BUILD
  }

  lemma BuildIsFree(s: State, given: Settings, latest: Option<nat>, build: nat, v: Parts)
    requires Claims(s, given, latest, build, v)
    ensures build !in s.ledger
  {}

  // ---------------------------------------------------------------- what two runs return, whatever their floors

  predicate HasClaim(p: Phase) {
    p.Sent? || p.Answered? || p.Returned?
  }

  /** The claim of a run comes from its last look at the ledger. */
  predicate ClaimedAt(s: State, run: Run, latest: Option<nat>, build: nat, v: Parts) {
    CanPrepare(s, run, latest) && Claims(s, s.runs[run].given, latest, build, v)
  }

  lemma ClaimKept(s: State, step: Step, s': State, run: Run)
    requires AllOwn(s) && Next(s, step, s') && run in s'.runs && HasClaim(s'.runs[run])
    ensures var p := s'.runs[run];
      if step.Prepare? && step.run == run then ClaimedAt(s, run, step.latest, p.build, p.record.version)
      else run in s.runs && HasClaim(s.runs[run]) && s.runs[run].build == p.build && s.runs[run].record == p.record
  {
    hide NextParts, Previous, NextBuild;
    assert run in s.runs ==> Owns(s, run);
  }

  /** The last step before step `j` in which a run looks at the ledger. */
  predicate LastLook(steps: seq<Step>, i: nat, j: nat, run: Run) {
    && i < j <= |steps| && steps[i].Prepare? && steps[i].run == run
    && forall k :: i < k < j ==> !(steps[k].Prepare? && steps[k].run == run)
  }

  lemma {:induction false} ClaimFrom(states: seq<State>, steps: seq<Step>, j: nat, run: Run) returns (i: nat)
    requires IsRun(states, steps) && j < |states| && run in states[j].runs && HasClaim(states[j].runs[run])
    ensures LastLook(steps, i, j, run)
    ensures ClaimedAt(states[i], run, steps[i].latest, states[j].runs[run].build, states[j].runs[run].record.version)
    decreases j
  {
    hide Next, HasClaim, ClaimedAt, AllOwn;
    i := 0;
    if j > 0 {
      RunOwns(states, steps, j - 1);
      ClaimKept(states[j - 1], steps[j - 1], states[j], run);
      if steps[j - 1].Prepare? && steps[j - 1].run == run {
        i := j - 1;
      } else {
        i := ClaimFrom(states, steps, j - 1, run);
      }
    }
  }

  /** Two runs of one day of one major version that leave the same versions of it. */
  ghost predicate SameChoice(f: Settings, g: Settings, past: Parts, other: Parts) {
    && f.major == g.major && f.today == g.today
    && forall v :: OfDay(v, f.major, f.today) ==> (Less(past, v) <==> Less(other, v))
  }

  lemma SameNext(f: Settings, g: Settings, past: Parts, other: Parts)
    requires ValidDay(f.today) && ValidDay(g.today)
    requires NextParts(f.major, f.today, past).Ok? && NextParts(g.major, g.today, other).Ok?
    ensures NextParts(f.major, f.today, past) == NextParts(g.major, g.today, other) <==> SameChoice(f, g, past, other)
  {
    NextIsLeast(f.major, f.today, past);
    NextIsLeast(g.major, g.today, other);
    var (a, b) := (NextParts(f.major, f.today, past).value, NextParts(g.major, g.today, other).value);
    hide NextParts;
    if a == b {
      forall v | OfDay(v, f.major, f.today) ensures Less(past, v) <==> Less(other, v) {
        assert OfDay(v, g.major, g.today);
        LessIsStrict(past, a, v);
        LessIsStrict(other, a, v);
      }
    } else if SameChoice(f, g, past, other) {
      assert OfDay(a, g.major, g.today) && OfDay(b, f.major, f.today);
      LessIsStrict(a, b, a);
    }
  }

  /** Whatever the floors, two runs return one version exactly when they are of one day and one
      major version, and what each was to be above, at its last look, leaves the same versions
      of that day: the higher of its minimum and of the latest record's version. */
  lemma OneVersionExactly(states: seq<State>, steps: seq<Step>, k: nat, a: Run, b: Run) returns (i: nat, j: nat)
    requires IsRun(states, steps) && k < |states|
    requires a in states[k].runs && states[k].runs[a].Returned? && b in states[k].runs && states[k].runs[b].Returned?
    ensures LastLook(steps, i, k, a)
    ensures var r := states[k].runs[a]; ClaimedAt(states[i], a, steps[i].latest, r.build, r.record.version)
    ensures LastLook(steps, j, k, b)
    ensures var r := states[k].runs[b]; ClaimedAt(states[j], b, steps[j].latest, r.build, r.record.version)
    ensures var (f, g) := (states[i].runs[a].given, states[j].runs[b].given);
      states[k].runs[a].record.version == states[k].runs[b].record.version
      <==> SameChoice(f, g, Previous(states[i], f, steps[i].latest), Previous(states[j], g, steps[j].latest))
  {
    hide Next, NextParts, Previous, NextBuild, SameChoice;
    i := ClaimFrom(states, steps, k, a);
    j := ClaimFrom(states, steps, k, b);
    var (f, g) := (states[i].runs[a].given, states[j].runs[b].given);
    SameNext(f, g, Previous(states[i], f, steps[i].latest), Previous(states[j], g, steps[j].latest));
  }

  // ---------------------------------------------------------------- with two floors

  /** A run begins and sends its claim. */
  lemma BeginsAndClaims(s: State, run: Run, given: Settings, latest: Option<nat>, build: nat, v: Parts)
    returns (s1: State, s2: State)
    requires Claims(s, given, latest, build, v) && run !in s.runs
    ensures Next(s, Begin(run, given), s1) && Next(s1, Prepare(run, latest), s2)
    ensures var record := Record(v, run, s.tags);
      && s2.runs == s.runs[run := Sent(given, 0, build, record)] && s2.sent == s.sent + {Request(build, record)}
      && s2.ledger == s.ledger
  {
    hide NextParts, NextBuild, Higher, ValidDay, Within;
    s1 := BeginStep(s, run, given);
    s2 := PrepareStep(s1, run, latest);
    assert Previous(s1, given, latest) == Previous(s, given, latest);
    assert s.runs[run := Ready(given, 0)][run := s2.runs[run]] == s.runs[run := s2.runs[run]];
  }

  /** Its ref lands, it is answered, and it reads its own record. */
  lemma LandsAndReturns(s: State, run: Run) returns (s1: State, s2: State, s3: State)
    requires run in s.runs && s.runs[run].Sent? && s.runs[run].build !in s.ledger
    requires Request(s.runs[run].build, s.runs[run].record) in s.sent
    ensures var p := s.runs[run];
      && Next(s, Land(Request(p.build, p.record)), s1) && Next(s1, Answer(run, false), s2)
      && Next(s2, ReadBack(run), s3)
      && s3.runs == s.runs[run := Returned(p.build, p.record)] && s3.ledger == s.ledger[p.build := p.record]
      && s3.sent == s.sent - {Request(p.build, p.record)}
  {
    var p := s.runs[run];
    s1 := LandStep(s, Request(p.build, p.record));
    s2 := AnswerStep(s1, run, false);
    s3 := ReadBackStep(s2, run);
    assert s.runs[run := s2.runs[run]][run := s3.runs[run]] == s.runs[run := s3.runs[run]];
  }

  predicate GoesOn(s: State, more: seq<State>, taken: seq<Step>) {
    && |more| == |taken| > 0 && Next(s, taken[0], more[0])
    && forall i :: 1 <= i < |taken| ==> Next(more[i - 1], taken[i], more[i])
  }

  lemma RunOn(states: seq<State>, steps: seq<Step>, more: seq<State>, taken: seq<Step>)
    requires IsRun(states, steps) && GoesOn(states[|steps|], more, taken)
    ensures IsRun(states + more, steps + taken)
  {
    hide Next;
    var (all, done) := (states + more, steps + taken);
    forall i | 0 <= i < |done| ensures Next(all[i], done[i], all[i + 1]) {
      if i > |steps| {
        var k := i - |steps|;
        assert Next(more[k - 1], taken[k], more[k]);
      }
    }
  }

  /** From any state of any run: two runs whose floors give them different builds after the
      same latest record, on one day, can both return one version. */
  lemma TwoFloorsOneVersion(
    states: seq<State>, steps: seq<Step>, a: Run, b: Run, f: Settings, g: Settings, latest: Option<nat>, v: Parts)
    returns (more: seq<State>, taken: seq<Step>)
    requires IsRun(states, steps) && a != b && a !in states[|steps|].runs && b !in states[|steps|].runs
    requires Claims(states[|steps|], f, latest, NextBuild(f, latest), v)
    requires Claims(states[|steps|], g, latest, NextBuild(g, latest), v)
    requires NextBuild(f, latest) != NextBuild(g, latest)
    ensures |more| == |taken| == 10 && IsRun(states + more, steps + taken)
    ensures a in more[9].runs && more[9].runs[a].Returned? && more[9].runs[a].build == NextBuild(f, latest)
    ensures b in more[9].runs && more[9].runs[b].Returned? && more[9].runs[b].build == NextBuild(g, latest)
    ensures more[9].runs[a].record.version == more[9].runs[b].record.version == v
  {
    hide Next, NextBuild, NextOf, IsLatest, Given;
    var s := states[|steps|];
    var (x, y) := (NextBuild(f, latest), NextBuild(g, latest));
    BuildIsFree(s, f, latest, x, v);
    BuildIsFree(s, g, latest, y, v);
    var s1, s2 := BeginsAndClaims(s, a, f, latest, x, v);
    SameClaim(s, s2, g, latest, y, v);
    var s3, s4 := BeginsAndClaims(s2, b, g, latest, y, v);
    var s5, s6, s7 := LandsAndReturns(s4, a);
    var s8, s9, s10 := LandsAndReturns(s7, b);
    more := [s1, s2, s3, s4, s5, s6, s7, s8, s9, s10];
    taken := [Begin(a, f), Prepare(a, latest), Begin(b, g), Prepare(b, latest),
              Land(Request(x, s4.runs[a].record)), Answer(a, false), ReadBack(a),
              Land(Request(y, s7.runs[b].record)), Answer(b, false), ReadBack(b)];
    RunOn(states, steps, more, taken);
  }

  lemma SameClaim(s: State, s': State, given: Settings, latest: Option<nat>, build: nat, v: Parts)
    requires Claims(s, given, latest, build, v) && s'.ledger == s.ledger
    ensures Claims(s', given, latest, build, v)
  {
    hide NextParts, Given, NextBuild;
  }
}
