/** What one run of the reservation does: the build and the version it claims, and what comes of the
    claim when it lands, when its answer is lost and when another run was first. */
module StoreLedgerAlone {
  import opened StoreVersion
  import opened StoreLedger
  import opened Wrappers

  function Last(states: seq<State>): State
    requires states != []
  {
    states[|states| - 1]
  }

  /** The run of the machine goes on with the steps `taken`, to `s'`. */
  ghost predicate LedTo(states: seq<State>, steps: seq<Step>, taken: seq<Step>, states': seq<State>, s': State) {
    IsRun(states', steps + taken) && states <= states' && states' != [] && Last(states') == s'
  }

  lemma First(states: seq<State>, steps: seq<Step>, step: Step, s': State) returns (states': seq<State>)
    requires IsRun(states, steps) && Next(Last(states), step, s')
    ensures LedTo(states, steps, [step], states', s')
  {
    hide Next;
    states' := states + [s'];
  }

  lemma Then(states: seq<State>, steps: seq<Step>, taken: seq<Step>, mid: seq<State>, s: State, step: Step, s': State)
      returns (states': seq<State>)
    requires LedTo(states, steps, taken, mid, s) && Next(s, step, s')
    ensures LedTo(states, steps, taken + [step], states', s')
  {
    hide Next;
    states' := mid + [s'];
    assert steps + (taken + [step]) == steps + taken + [step];
  }

  // ---------------------------------------------------------------- the claim

  /** The version that every new one is above: the minimum given, and the latest reserved. */
  predicate Above(s: State, given: Settings, latest: Option<nat>, v: Parts) {
    && Less(given.minimum, v)
    && (latest.Some? ==> latest.value in s.ledger && Less(s.ledger[latest.value].version, v))
  }

  /** The least build above the floor and all reserved ones, and the day's least version above. */
  ghost predicate IsClaim(s: State, given: Settings, latest: Option<nat>, build: nat, v: Parts) {
    && build > given.floor && (latest.Some? ==> build > latest.value)
    && (build == given.floor + 1 || (latest.Some? && build == latest.value + 1)) && build <= 2100000000
    && OfDay(v, given.major, given.today) && Above(s, given, latest, v)
    && (forall u :: OfDay(u, given.major, given.today) && Above(s, given, latest, u) ==> u == v || Less(v, u))
    && 1 <= given.major <= 65535 && 2000 <= given.today.year <= 2099
  }

  /** The latest build reserved, if any is. */
  predicate Latest(ledger: map<nat, Record>, latest: Option<nat>) {
    if latest == None then ledger == map[] else latest.value in ledger && forall b <- ledger :: b <= latest.value
  }

  lemma HigherBoth(a: Parts, b: Parts, v: Parts)
    ensures Less(Higher(a, b), v) <==> Less(a, v) && Less(b, v)
  {}

  lemma AboveIs(s: State, given: Settings, latest: Option<nat>, v: Parts)
    requires IsLatest(s.ledger, latest)
    ensures Above(s, given, latest, v) <==> Less(Previous(s, given, latest), v)
  {
    hide Less, Higher;
    if latest.Some? {
      HigherBoth(given.minimum, s.ledger[latest.value].version, v);
    }
  }

  /** A run that looks at the ledger sends its claim, or fails when there is none to make, or after
      twenty tries. */
  lemma ClaimStep(s: State, run: Run, latest: Option<nat>, build: nat, v: Parts)
    requires run in s.runs && s.runs[run].Ready? && Latest(s.ledger, latest)
    requires var d := s.runs[run].given.today; 1 <= d.month <= 12 && 1 <= d.day <= 31
    ensures var (given, tries) := (s.runs[run].given, s.runs[run].tries);
      var record := Record(v, run, s.tags);
      && (IsClaim(s, given, latest, build, v) && tries < 20 ==>
            Next(s, Prepare(run, latest),
                 s.(runs := s.runs[run := Sent(given, tries, build, record)], sent := s.sent + {Request(build, record)},
                    tags := s.tags + 1)))
      && (tries >= 20 || (forall b, u :: !IsClaim(s, given, latest, b, u)) ==>
            Next(s, Prepare(run, latest), s.(runs := s.runs[run := Failed])))
  {
    hide NextParts, Less, OfDay, Previous;
    var (given, tries) := (s.runs[run].given, s.runs[run].tries);
    var past := Previous(s, given, latest);
    var r := NextParts(given.major, given.today, past);
    NextIsLeast(given.major, given.today, past);
    forall u ensures Above(s, given, latest, u) <==> Less(past, u) {
      AboveIs(s, given, latest, u);
    }
    if IsClaim(s, given, latest, build, v) {
      assert r.Ok?;
      SameLeast(r.value, v);
    }
    if r.Ok? && NextBuild(given, latest) <= LAST_BUILD {
      InRange(given.major, given.today, past);
      assert IsClaim(s, given, latest, NextBuild(given, latest), r.value);
    }
  }

  lemma InRange(major: int, today: Day, past: Parts)
    ensures NextParts(major, today, past).Ok? ==> 1 <= major <= 65535 && 2000 <= today.year <= 2099
  {}

  lemma SameLeast(a: Parts, b: Parts)
    ensures (a == b || Less(a, b)) && (b == a || Less(b, a)) ==> a == b
  {}

  /** A run begins and sends its claim, whatever else is on its way. */
  lemma SendsClaim(states: seq<State>, steps: seq<Step>, run: Run, given: Settings, latest: Option<nat>, build: nat,
                   v: Parts)
      returns (states': seq<State>)
    requires IsRun(states, steps) && run !in Last(states).runs && Latest(Last(states).ledger, latest)
    requires 1 <= given.today.month <= 12 && 1 <= given.today.day <= 31
    requires var m := given.minimum; 1 <= m.major <= 65535 && m.month <= 65535 && m.build <= 65535
    requires IsClaim(Last(states), given, latest, build, v)
    ensures var (s, record) := (Last(states), Record(v, run, Last(states).tags));
      LedTo(states, steps, [Begin(run, given), Prepare(run, latest)], states',
            s.(runs := s.runs[run := Sent(given, 0, build, record)], sent := s.sent + {Request(build, record)},
               tags := s.tags + 1))
  {
    hide LedTo, IsClaim, PrepareStep;
    var s := Last(states);
    var a := s.(runs := s.runs[run := Ready(given, 0)]);
    var record := Record(v, run, s.tags);
    var b := s.(runs := s.runs[run := Sent(given, 0, build, record)], sent := s.sent + {Request(build, record)},
                tags := s.tags + 1);
    ClaimStays(s, a, given, latest, build, v);
    ClaimStep(a, run, latest, build, v);
    assert a.runs[run := Sent(given, 0, build, record)] == b.runs;
    assert Next(s, Begin(run, given), a);
    hide Next;
    states' := First(states, steps, Begin(run, given), a);
    states' := Then(states, steps, [Begin(run, given)], states', a, Prepare(run, latest), b);
    assert [Begin(run, given)] + [Prepare(run, latest)] == [Begin(run, given), Prepare(run, latest)];
  }

  lemma ClaimStays(s: State, s': State, given: Settings, latest: Option<nat>, build: nat, v: Parts)
    requires s.ledger == s'.ledger
    ensures IsClaim(s, given, latest, build, v) <==> IsClaim(s', given, latest, build, v)
  {
    forall u ensures Above(s, given, latest, u) <==> Above(s', given, latest, u) {
    }
  }

  // ---------------------------------------------------------------- what comes of it

  /** A request on its way lands, where nothing is, or changes nothing; or it never does. */
  lemma LandsOrNot(states: seq<State>, steps: seq<Step>, request: Request)
      returns (landed: seq<State>, vanished: seq<State>)
    requires IsRun(states, steps) && request in Last(states).sent
    ensures var s := Last(states);
      var gone := s.(sent := s.sent - {request});
      && LedTo(states, steps, [Vanish(request)], vanished, gone)
      && LedTo(states, steps, [Land(request)], landed,
               if request.build in s.ledger then gone
               else gone.(ledger := s.ledger[request.build := request.record]))
  {
    hide LedTo;
    var s := Last(states);
    var gone := s.(sent := s.sent - {request});
    vanished := First(states, steps, Vanish(request), gone);
    landed := First(states, steps, Land(request),
                    if request.build in s.ledger then gone
                            else gone.(ledger := s.ledger[request.build := request.record]));
  }

  /** A run that sent its claim is answered, with an error at any time and without one when its ref is
      there, and reads the ref back: its own record is returned, whatever the answer was. When another
      run's is there and its creation failed, it tries again; when none is there, or the answer was no
      error, it fails. */
  lemma ReadsBack(states: seq<State>, steps: seq<Step>, run: Run, error: bool) returns (states': seq<State>)
    requires IsRun(states, steps) && run in Last(states).runs && Last(states).runs[run].Sent?
    requires var p := Last(states).runs[run];
      !error ==> p.build in Last(states).ledger && Last(states).ledger[p.build] == p.record
    ensures var (s, p) := (Last(states), Last(states).runs[run]);
      LedTo(states, steps, [Answer(run, error), ReadBack(run)], states',
            s.(runs := s.runs[run :=
              if p.build in s.ledger && s.ledger[p.build] == p.record then Returned(p.build, p.record)
              else if p.build in s.ledger then Ready(p.given, p.tries + 1)
              else Failed]))
  {
    hide LedTo;
    var (s, p) := (Last(states), Last(states).runs[run]);
    var a := s.(runs := s.runs[run := Answered(p.given, p.tries, p.build, p.record, error)]);
    var phase := if p.build in s.ledger && s.ledger[p.build] == p.record then Returned(p.build, p.record)
                 else if p.build in s.ledger then Ready(p.given, p.tries + 1) else Failed;
    var b := s.(runs := s.runs[run := phase]);
    assert a.runs[run := phase] == b.runs;
    assert Next(s, Answer(run, error), a) && Next(a, ReadBack(run), b);
    hide Next;
    states' := First(states, steps, Answer(run, error), a);
    states' := Then(states, steps, [Answer(run, error)], states', a, ReadBack(run), b);
    assert [Answer(run, error)] + [ReadBack(run)] == [Answer(run, error), ReadBack(run)];
  }

  /** A run is answered without an error only when its own ref was there, and the ledger keeps it. */
  lemma AnsweredHasIt(states: seq<State>, steps: seq<Step>, i: nat, run: Run, error: bool)
    requires IsRun(states, steps) && i < |steps| && steps[i] == Answer(run, error) && !error
    ensures run in states[i].runs && states[i].runs[run].Sent?
    ensures var p := states[i].runs[run]; p.build in states[i].ledger && states[i].ledger[p.build] == p.record
  {
    assert Next(states[i], steps[i], states[i + 1]);
  }

  /** A run may fail at any time, as when a page cannot be read. */
  lemma Fails(states: seq<State>, steps: seq<Step>, run: Run) returns (states': seq<State>)
    requires IsRun(states, steps) && run in Last(states).runs && !Last(states).runs[run].Returned?
    ensures LedTo(states, steps, [Fail(run)], states', Last(states).(runs := Last(states).runs[run := Failed]))
  {
    hide LedTo;
    states' := First(states, steps, Fail(run), Last(states).(runs := Last(states).runs[run := Failed]));
  }

  /** Before any run there is nothing. */
  lemma Starts()
    ensures IsRun([State(map[], {}, map[], 0)], [])
  {}

  /** A run that returned has returned that record for good. */
  lemma {:induction false} ReturnedStays(states: seq<State>, steps: seq<Step>, i: nat, j: nat, run: Run)
    requires IsRun(states, steps) && i <= j < |states|
    requires run in states[i].runs && states[i].runs[run].Returned?
    ensures run in states[j].runs && states[j].runs[run] == states[i].runs[run]
    decreases j
  {
    hide NextParts, Previous, NextBuild, IsLatest;
    if i < j {
      ReturnedStays(states, steps, i, j - 1, run);
      assert Next(states[j - 1], steps[j - 1], states[j]);
    }
  }
}
