/** The threads of the brute-force count (`brute_force` of `index_oracle.rs`): their batches
    of records hold each record once, so what they merge is one pass over all of them. */
module OracleScan {
  import opened Division
  import opened IndexOracle
  import opened TopGames
  import opened Wrappers

  const MAX_THREADS := 16

  /** A position a game reaches and the move played from it. */
  datatype Sighting = Sighting(key: Key, mv: Option<Move>)

  /** A game as it is read: how it ended, its rating, the positions asked for that it
      reaches, and whether it is over the move record limit. */
  datatype Game = Game(outcome: Outcome, elo: nat, found: seq<Sighting>, over: bool)

  /** The records' games, by their numbers; `None` for one the index leaves out. */
  type Games = nat -> Option<Game>

  /** The positions' tallies. */
  type Books = map<Key, Tally>

  function TallyOf(books: Books, k: Key): Tally {
    if k in books then books[k] else EMPTY
  }

  // ---------------------------------------------------------------- one record

  /** A position's tally with a game's sightings of it, in order. */
  function Sighted(t: Tally, found: seq<Sighting>, k: Key, counts: Counts, best: Best): Tally {
    if found == [] then t
    else
      var before := Sighted(t, found[..|found| - 1], k, counts, best);
      var last := found[|found| - 1];
      if last.key == k then Added(before, counts, last.mv, best) else before
  }

  /** A position's tally of one record alone. */
  function RecordTally(games: Games, k: Key, id: nat): Tally {
    match games(id)
    case None => EMPTY
    case Some(g) => if g.over then EMPTY else Sighted(EMPTY, g.found, k, One(g.outcome), Best(g.elo, id))
  }

  predicate IsOver(games: Games, id: nat) {
    games(id).Some? && games(id).value.over
  }

  lemma EmptyKept()
    ensures Kept(EMPTY)
  {}

  lemma {:induction false} SightedKept(t: Tally, found: seq<Sighting>, k: Key, counts: Counts, best: Best)
    requires Kept(t)
    ensures Kept(Sighted(t, found, k, counts, best))
    ensures Sighted(t, found, k, counts, best) == Merged(t, Sighted(EMPTY, found, k, counts, best))
    decreases |found|
  {
    hide Kept, Merged, Added;
    EmptyKept();
    if found == [] {
      MergeEmpty(t);
    } else {
      var (init, last) := (found[..|found| - 1], found[|found| - 1]);
      SightedKept(t, init, k, counts, best);
      if last.key == k {
        var (a, b) := (Sighted(t, init, k, counts, best), Sighted(EMPTY, init, k, counts, best));
        var one := Added(EMPTY, counts, last.mv, best);
        AddIsMerge(a, counts, last.mv, best);
        AddIsMerge(b, counts, last.mv, best);
        MergeAssociates(t, b, one);
      }
    }
  }

  // ---------------------------------------------------------------- many records

  /** The thread whose batch holds a record. */
  function ThreadOf(id: nat, threads: nat): nat
    requires id >= 1 && threads >= 1
  {
    (id - 1) / BATCH % threads
  }

  /** A position's tally of the records before `end` that the threads of `ws` take. */
  function Taken(games: Games, k: Key, end: nat, threads: nat, ws: set<nat>): Tally
    requires threads >= 1
  {
    if end <= 1 then EMPTY
    else
      var t := Taken(games, k, end - 1, threads, ws);
      if ThreadOf(end - 1, threads) in ws then Merged(t, RecordTally(games, k, end - 1)) else t
  }

  /** One pass over the records before `end`. */
  function Pass(games: Games, k: Key, end: nat): Tally {
    if end <= 1 then EMPTY else Merged(Pass(games, k, end - 1), RecordTally(games, k, end - 1))
  }

  /** How many records over the limit those threads take. */
  function OverTaken(games: Games, end: nat, threads: nat, ws: set<nat>): nat
    requires threads >= 1
  {
    if end <= 1 then 0
    else
      OverTaken(games, end - 1, threads, ws)
      + (if ThreadOf(end - 1, threads) in ws && IsOver(games, end - 1) then 1 else 0)
  }

  function OverPass(games: Games, end: nat): nat {
    if end <= 1 then 0 else OverPass(games, end - 1) + (if IsOver(games, end - 1) then 1 else 0)
  }

  lemma {:induction false} TakenKept(games: Games, k: Key, end: nat, threads: nat, ws: set<nat>)
    requires threads >= 1
    ensures Kept(Taken(games, k, end, threads, ws))
    decreases end
  {
    hide Kept, Merged, RecordTally;
    EmptyKept();
    if end > 1 {
      TakenKept(games, k, end - 1, threads, ws);
      MergedKept(Taken(games, k, end - 1, threads, ws), RecordTally(games, k, end - 1));
    }
  }

  /** What threads apart take, merged, is what they take together. */
  lemma {:induction false} TakenTogether(games: Games, k: Key, end: nat, threads: nat, a: set<nat>, b: set<nat>)
    requires threads >= 1 && a !! b
    ensures Merged(Taken(games, k, end, threads, a), Taken(games, k, end, threads, b))
         == Taken(games, k, end, threads, a + b)
    ensures OverTaken(games, end, threads, a) + OverTaken(games, end, threads, b)
         == OverTaken(games, end, threads, a + b)
    decreases end
  {
    hide Kept, Merged, RecordTally, IsOver, ThreadOf;
    if end <= 1 {
      EmptyKept();
      MergeEmpty(EMPTY);
    } else {
      TakenTogether(games, k, end - 1, threads, a, b);
      var (x, y) := (Taken(games, k, end - 1, threads, a), Taken(games, k, end - 1, threads, b));
      var r := RecordTally(games, k, end - 1);
      MergeAssociates(x, r, y);
      MergeCommutes(r, y);
      MergeAssociates(x, y, r);
    }
  }

  lemma {:induction false} TakenByAll(games: Games, k: Key, end: nat, threads: nat, ws: set<nat>)
    requires threads >= 1 && forall w: nat :: w < threads ==> w in ws
    ensures Taken(games, k, end, threads, ws) == Pass(games, k, end)
    ensures OverTaken(games, end, threads, ws) == OverPass(games, end)
    decreases end
  {
    hide Merged, RecordTally, IsOver;
    if end > 1 {
      TakenByAll(games, k, end - 1, threads, ws);
    }
  }

  lemma {:induction false} TakenNone(games: Games, k: Key, from: nat, end: nat, threads: nat, w: nat)
    requires threads >= 1 && 1 <= from <= end
    requires forall id :: from <= id < end ==> ThreadOf(id, threads) != w
    ensures Taken(games, k, end, threads, {w}) == Taken(games, k, from, threads, {w})
    ensures OverTaken(games, end, threads, {w}) == OverTaken(games, from, threads, {w})
    decreases end
  {
    hide Merged, RecordTally, IsOver, ThreadOf;
    if from < end {
      TakenNone(games, k, from, end - 1, threads, w);
    }
  }

  // ---------------------------------------------------------------- batches

  lemma BlockOf(id: nat, q: nat)
    requires 1 + q * BATCH <= id < 1 + (q + 1) * BATCH
    ensures (id - 1) / BATCH == q
  {}

  lemma ModShift(q: nat, d: nat, n: nat)
    requires n >= 1 && d < n
    ensures (q + n) % n == q % n
    ensures d > 0 ==> (q + d) % n != q % n
  {
    var (a, r) := (q / n, q % n);
    assert q == n * a + r;
    Distribute(n, a, -1);
    DivUnique(q + n, n, a + 1, r);
    if r + d < n {
      DivUnique(q + d, n, a, r + d);
    } else {
      DivUnique(q + d, n, a + 1, r + d - n);
    }
  }

  /** The records of batch `q` are the thread's; those up to its next batch are not. */
  lemma BatchesOf(q: nat, threads: nat, w: nat)
    requires threads >= 1 && q % threads == w
    ensures forall id :: 1 + q * BATCH <= id < 1 + (q + 1) * BATCH ==> ThreadOf(id, threads) == w
    ensures forall id :: 1 + (q + 1) * BATCH <= id < 1 + (q + threads) * BATCH ==> ThreadOf(id, threads) != w
    ensures (q + threads) % threads == w
  {
    ModShift(q, 0, threads);
    forall id | 1 + q * BATCH <= id < 1 + (q + 1) * BATCH ensures ThreadOf(id, threads) == w {
      BlockOf(id, q);
    }
    forall id | 1 + (q + 1) * BATCH <= id < 1 + (q + threads) * BATCH ensures ThreadOf(id, threads) != w {
      var d := (id - 1) / BATCH - q;
      BlockOf(id, q + d);
      ModShift(q, d, threads);
    }
  }

  // ---------------------------------------------------------------- one thread

  /** A game's sightings put to the thread's tallies. */
  method Sight(books: Books, g: Game, id: nat) returns (all: Books)
    ensures forall k :: TallyOf(all, k) == Sighted(TallyOf(books, k), g.found, k, One(g.outcome), Best(g.elo, id))
  {
    hide Added;
    all := books;
    for i := 0 to |g.found|
      invariant forall k ::
        TallyOf(all, k) == Sighted(TallyOf(books, k), g.found[..i], k, One(g.outcome), Best(g.elo, id))
    {
      var (key, mv) := (g.found[i].key, g.found[i].mv);
      assert g.found[..i + 1][..i] == g.found[..i];
      all := all[key := Added(TallyOf(all, key), One(g.outcome), mv, Best(g.elo, id))];
    }
    assert g.found[..|g.found|] == g.found;
  }

  /** One record as a thread takes it. */
  method Record(books: Books, games: Games, id: nat) returns (all: Books, over: nat)
    requires forall k :: Kept(TallyOf(books, k))
    ensures forall k :: TallyOf(all, k) == Merged(TallyOf(books, k), RecordTally(games, k, id))
    ensures over == if IsOver(games, id) then 1 else 0
  {
    hide Kept, Merged, Sighted, TallyOf;
    all, over := books, 0;
    match games(id)
    case None =>
      forall k ensures TallyOf(all, k) == Merged(TallyOf(books, k), RecordTally(games, k, id)) {
        MergeEmpty(TallyOf(books, k));
      }
    case Some(g) =>
      if g.over {
        over := 1;
        forall k ensures TallyOf(all, k) == Merged(TallyOf(books, k), RecordTally(games, k, id)) {
          MergeEmpty(TallyOf(books, k));
        }
      } else {
        all := Sight(books, g, id);
        forall k ensures TallyOf(all, k) == Merged(TallyOf(books, k), RecordTally(games, k, id)) {
          SightedKept(TallyOf(books, k), g.found, k, One(g.outcome), Best(g.elo, id));
        }
      }
  }

  ghost predicate Holds(books: Books, over: nat, games: Games, end: nat, threads: nat, w: nat)
    requires threads >= 1
  {
    && (forall k :: TallyOf(books, k) == Taken(games, k, end, threads, {w}))
    && over == OverTaken(games, end, threads, {w})
  }

  /** The records of one batch. */
  method Batch(books: Books, over: nat, games: Games, first: nat, last: nat, threads: nat, w: nat)
    returns (all: Books, overs: nat)
    requires threads >= 1 && 1 <= first <= last + 1 && Holds(books, over, games, first, threads, w)
    requires forall id :: first <= id <= last ==> ThreadOf(id, threads) == w
    ensures Holds(all, overs, games, last + 1, threads, w)
  {
    hide Merged, RecordTally, IsOver, ThreadOf, TallyOf, Kept;
    all, overs := books, over;
    for id := first to last + 1
      invariant Holds(all, overs, games, id, threads, w)
    {
      forall k ensures Kept(TallyOf(all, k)) {
        TakenKept(games, k, id, threads, {w});
      }
      var one;
      all, one := Record(all, games, id);
      overs := overs + one;
      assert ThreadOf(id, threads) == w;
    }
  }

  lemma SkipTo(books: Books, over: nat, games: Games, from: nat, end: nat, threads: nat, w: nat)
    requires threads >= 1 && 1 <= from <= end && Holds(books, over, games, from, threads, w)
    requires forall id :: from <= id < end ==> ThreadOf(id, threads) != w
    ensures Holds(books, over, games, end, threads, w)
  {
    hide TallyOf, ThreadOf;
    forall k ensures TallyOf(books, k) == Taken(games, k, end, threads, {w}) {
      TakenNone(games, k, from, end, threads, w);
    }
    TakenNone(games, 0, from, end, threads, w);
  }

  /** No record before the thread's first batch is its own. */
  lemma ScanStart(games: Games, threads: nat, w: nat, end: nat)
    requires w < threads && 1 <= end <= 1 + w * BATCH
    ensures Holds(map[], 0, games, end, threads, w)
  {
    hide Merged, RecordTally, IsOver;
    forall id | 1 <= id < end ensures ThreadOf(id, threads) != w {
      var b := (id - 1) / BATCH;
      assert b < w;
      DivUnique(b, threads, 0, b);
    }
    assert Holds(map[], 0, games, 1, threads, w);
    SkipTo(map[], 0, games, 1, end, threads, w);
  }

  function EndAfter(n: nat, m: nat): nat {
    if m > n then n + 1 else m
  }

  /** The thread `w`: every `threads`-th batch, its numbers in 32 bits. */
  method Scan(w: nat, threads: nat, n: nat, games: Games) returns (local: Books, over: nat)
    requires 1 <= threads <= MAX_THREADS && w < threads && n < U32
    ensures Holds(local, over, games, n + 1, threads, w)
  {
    hide ThreadOf, Holds;
    local, over := map[], 0;
    var first := 1 + w * BATCH;
    ghost var q := w;
    DivUnique(w, threads, 0, w);
    ScanStart(games, threads, w, EndAfter(n, first));
    while first <= n
      invariant first == 1 + q * BATCH && q % threads == w
      invariant Holds(local, over, games, EndAfter(n, first), threads, w)
      decreases n + 1 - first
    {
      BatchesOf(q, threads, w);
      var last := if first + BATCH - 1 < U32 then first + BATCH - 1 else U32 - 1;
      if last > n {
        last := n;
      }
      local, over := Batch(local, over, games, first, last, threads, w);
      var next := first + threads * BATCH;
      SkipTo(local, over, games, last + 1, EndAfter(n, next), threads, w);
      if next >= U32 {
        return;
      }
      first := next;
      q := q + threads;
    }
  }

  // ---------------------------------------------------------------- all threads

  /** A thread's tallies put to all threads'. */
  function BooksMerged(all: Books, local: Books): (r: Books)
    ensures forall k :: TallyOf(r, k) == if k in local then Merged(TallyOf(all, k), local[k]) else TallyOf(all, k)
  {
    all + (map k <- local :: Merged(TallyOf(all, k), local[k]))
  }

  ghost predicate IsOrder(order: seq<nat>, threads: nat) {
    && (forall w: nat :: w < threads <==> w in order)
    && (forall i, j :: 0 <= i < j < |order| ==> order[i] != order[j])
  }

  function Threads(order: seq<nat>): set<nat> {
    set w <- order
  }

  ghost predicate AllHolds(books: Books, over: nat, games: Games, end: nat, threads: nat, ws: set<nat>)
    requires threads >= 1
  {
    && (forall k :: TallyOf(books, k) == Taken(games, k, end, threads, ws))
    && over == OverTaken(games, end, threads, ws)
  }

  lemma Joins(all: Books, over: nat, local: Books, more: nat, games: Games, end: nat, threads: nat,
              ws: set<nat>, w: nat)
    requires threads >= 1 && w !in ws
    requires AllHolds(all, over, games, end, threads, ws) && Holds(local, more, games, end, threads, w)
    ensures AllHolds(BooksMerged(all, local), over + more, games, end, threads, ws + {w})
  {
    hide Merged, Kept, Taken, OverTaken, BooksMerged;
    var r := BooksMerged(all, local);
    forall k ensures TallyOf(r, k) == Taken(games, k, end, threads, ws + {w}) {
      TakenTogether(games, k, end, threads, ws, {w});
      if k !in local {
        TakenKept(games, k, end, threads, ws);
        MergeEmpty(TallyOf(all, k));
      }
    }
    TakenTogether(games, 0, end, threads, ws, {w});
  }

  /** `brute_force`: the threads' tallies, merged in the order they happened to end. */
  method BruteForce(threads: nat, n: nat, games: Games, order: seq<nat>) returns (all: Books, over: nat)
    requires 1 <= threads <= MAX_THREADS && n < U32 && IsOrder(order, threads)
    ensures forall k :: TallyOf(all, k) == Pass(games, k, n + 1)
    ensures over == OverPass(games, n + 1)
  {
    hide Holds, AllHolds, Taken, OverTaken, Pass, OverPass, BooksMerged, TallyOf;
    all, over := map[], 0;
    NoneHold(games, n + 1, threads);
    for i := 0 to |order|
      invariant AllHolds(all, over, games, n + 1, threads, Threads(order[..i]))
    {
      var w := order[i];
      assert w in order;
      var local, more := Scan(w, threads, n, games);
      assert w !in Threads(order[..i]);
      Joins(all, over, local, more, games, n + 1, threads, Threads(order[..i]), w);
      assert Threads(order[..i + 1]) == Threads(order[..i]) + {w};
      all, over := BooksMerged(all, local), over + more;
    }
    assert order[..|order|] == order;
    AllTaken(all, over, games, n + 1, threads, Threads(order));
  }

  lemma {:induction false} NoneTaken(games: Games, k: Key, end: nat, threads: nat)
    requires threads >= 1
    ensures Taken(games, k, end, threads, {}) == EMPTY && OverTaken(games, end, threads, {}) == 0
    decreases end
  {
    hide ThreadOf;
    if end > 1 {
      NoneTaken(games, k, end - 1, threads);
    }
  }

  lemma NoneHold(games: Games, end: nat, threads: nat)
    requires threads >= 1
    ensures AllHolds(map[], 0, games, end, threads, Threads([]))
  {
    hide Taken, OverTaken;
    assert Threads([]) == {};
    forall k ensures TallyOf(map[], k) == Taken(games, k, end, threads, {}) {
      NoneTaken(games, k, end, threads);
    }
    NoneTaken(games, 0, end, threads);
  }

  lemma AllTaken(all: Books, over: nat, games: Games, end: nat, threads: nat, ws: set<nat>)
    requires threads >= 1 && AllHolds(all, over, games, end, threads, ws)
    requires forall w: nat :: w < threads ==> w in ws
    ensures forall k :: TallyOf(all, k) == Pass(games, k, end)
    ensures over == OverPass(games, end)
  {
    hide Taken, OverTaken, Pass, OverPass, TallyOf;
    forall k ensures TallyOf(all, k) == Pass(games, k, end) {
      TakenByAll(games, k, end, threads, ws);
    }
    TakenByAll(games, 0, end, threads, ws);
  }

  /** Each record is in exactly one thread's batches. */
  lemma OneThread(id: nat, threads: nat)
    requires 1 <= threads <= MAX_THREADS && id >= 1
    ensures ThreadOf(id, threads) < threads
    ensures exists q: nat :: q % threads == ThreadOf(id, threads) && 1 + q * BATCH <= id < 1 + (q + 1) * BATCH
  {
    var q := (id - 1) / BATCH;
    assert 1 + q * BATCH <= id < 1 + (q + 1) * BATCH;
  }
}
