/** The brute-force count of a position's games (`index_oracle.rs`): threads that each take
    every n-th batch of records, and what they merge, in whatever order, is one pass. */
module IndexOracle {
  import opened Binary
  import opened TopGames
  import opened Wrappers

  type Key = nat
  type Move = nat

  const U32 := 0x1_0000_0000
  const U64 := 0x1_0000_0000_0000_0000

  type Wide = n: nat | n < U64

  const BATCH := 4096

  datatype Outcome = White | Draw | Black | Other

  datatype Counts = Counts(games: nat, white: nat, draws: nat, black: nat)

  datatype Fingerprint = Fingerprint(count: nat, sum: Wide, mixed: Word)

  /** What is known of a position's games. */
  datatype Tally = Tally(counts: Counts, moves: map<Move, Counts>, top: seq<Best>, games: Fingerprint)

  // ---------------------------------------------------------------- counts and fingerprints

  const NO_COUNTS := Counts(0, 0, 0, 0)

  function Plus(a: Counts, b: Counts): Counts {
    Counts(a.games + b.games, a.white + b.white, a.draws + b.draws, a.black + b.black)
  }

  function One(outcome: Outcome): Counts {
    Counts(1, if outcome == White then 1 else 0, if outcome == Draw then 1 else 0, if outcome == Black then 1 else 0)
  }

  /** `wrapping_add` in 64 bits. */
  function Wrapped(a: Wide, b: Wide): Wide {
    if a + b < U64 then a + b else a + b - U64
  }

  /** `z ^ (z >> n)`, multiplied by `m` in 64 bits. */
  function Stirred(z: nat, n: nat, m: nat): nat {
    Value(Xor(Of(z), High(Of(z), n))) * m % U64
  }

  /** A game's number mixed, in 64 bits that wrap. */
  function Mixed(game: nat): Word {
    var z0 := (game + 0x9e37_79b9_7f4a_7c15) % U64;
    var z1 := Stirred(z0, 30, 0xbf58_476d_1ce4_e5b9);
    var z2 := Stirred(z1, 27, 0x94d0_49bb_1331_11eb);
    Xor(Of(z2), High(Of(z2), 31))
  }

  function OfGame(id: nat): Fingerprint {
    Fingerprint(1, id % U32, Mixed(id % U32))
  }

  function Both(a: Fingerprint, b: Fingerprint): Fingerprint {
    Fingerprint(a.count + b.count, Wrapped(a.sum, b.sum), Xor(a.mixed, b.mixed))
  }

  const NO_GAMES := Fingerprint(0, 0, Zero)

  lemma SumLaws(a: Wide, b: Wide, c: Wide)
    ensures Wrapped(a, b) == Wrapped(b, a) && Wrapped(0, a) == a
    ensures Wrapped(Wrapped(a, b), c) == Wrapped(a, Wrapped(b, c))
  {}

  lemma FingerprintLaws(a: Fingerprint, b: Fingerprint, c: Fingerprint)
    ensures Both(a, b) == Both(b, a) && Both(Both(a, b), c) == Both(a, Both(b, c)) && Both(NO_GAMES, a) == a
  {
    SumLaws(a.sum, b.sum, c.sum);
    XorComm(a.mixed, b.mixed);
    XorAssoc(a.mixed, b.mixed, c.mixed);
  }

  // ---------------------------------------------------------------- tallies

  const EMPTY := Tally(NO_COUNTS, map[], [], NO_GAMES)

  function CountsOf(moves: map<Move, Counts>, mv: Move): Counts {
    if mv in moves then moves[mv] else NO_COUNTS
  }

  function MovesMerged(a: map<Move, Counts>, b: map<Move, Counts>): (m: map<Move, Counts>)
    ensures forall mv :: mv in m <==> mv in a || mv in b
    ensures forall mv <- m :: m[mv] == Plus(CountsOf(a, mv), CountsOf(b, mv))
  {
    a + (map mv <- b :: Plus(CountsOf(a, mv), b[mv]))
  }

  /** `Brute::merge`. */
  function Merged(a: Tally, b: Tally): Tally {
    Tally(Plus(a.counts, b.counts), MovesMerged(a.moves, b.moves), Top(a.top + b.top), Both(a.games, b.games))
  }

  /** `Brute::add`. */
  function Added(t: Tally, counts: Counts, mv: Option<Move>, best: Best): Tally {
    Tally(
      Plus(t.counts, counts),
      if mv.Some? then t.moves[mv.value := Plus(CountsOf(t.moves, mv.value), counts)] else t.moves,
      Top(t.top + [best]),
      Both(t.games, OfGame(best.id)))
  }

  lemma PlusNone(a: Counts)
    ensures Plus(a, NO_COUNTS) == a && Plus(NO_COUNTS, a) == a
  {}

  lemma CountsIn(a: map<Move, Counts>, mv: Move)
    ensures CountsOf(a, mv) == if mv in a then a[mv] else NO_COUNTS
  {}

  lemma MovesOf(a: map<Move, Counts>, b: map<Move, Counts>, mv: Move)
    ensures CountsOf(MovesMerged(a, b), mv) == Plus(CountsOf(a, mv), CountsOf(b, mv))
  {
    hide *;
    CountsIn(MovesMerged(a, b), mv);
    CountsIn(a, mv);
    CountsIn(b, mv);
    PlusNone(NO_COUNTS);
  }

  lemma MovesCommute(a: map<Move, Counts>, b: map<Move, Counts>)
    ensures MovesMerged(a, b) == MovesMerged(b, a)
  {
    hide MovesMerged, CountsOf;
  }

  lemma MovesNone(a: map<Move, Counts>)
    ensures MovesMerged(map[], a) == a
  {
    hide *;
    forall mv | mv in a ensures MovesMerged(map[], a)[mv] == a[mv] {
      CountsIn(map[], mv);
      CountsIn(a, mv);
      PlusNone(a[mv]);
    }
  }

  lemma MovesAssociate(a: map<Move, Counts>, b: map<Move, Counts>, c: map<Move, Counts>)
    ensures MovesMerged(MovesMerged(a, b), c) == MovesMerged(a, MovesMerged(b, c))
  {
    hide MovesMerged, CountsOf;
    var (x, y) := (MovesMerged(MovesMerged(a, b), c), MovesMerged(a, MovesMerged(b, c)));
    forall mv | mv in x ensures x[mv] == y[mv] {
      MovesOf(a, b, mv);
      MovesOf(b, c, mv);
    }
  }

  lemma MovesOneMore(a: map<Move, Counts>, b: map<Move, Counts>, mv: Move, c: Counts)
    requires mv !in b
    ensures MovesMerged(a, b[mv := c]) == MovesMerged(a, b)[mv := Plus(CountsOf(MovesMerged(a, b), mv), c)]
  {
    hide *;
    var (x, y) := (MovesMerged(a, b[mv := c]), MovesMerged(a, b)[mv := Plus(CountsOf(MovesMerged(a, b), mv), c)]);
    MovesOf(a, b, mv);
    CountsIn(b, mv);
    CountsIn(b[mv := c], mv);
    PlusNone(CountsOf(a, mv));
    forall k | k in x ensures x[k] == y[k] {
      CountsIn(b[mv := c], k);
      CountsIn(b, k);
    }
  }

  lemma MergeCommutes(a: Tally, b: Tally)
    ensures Merged(a, b) == Merged(b, a)
  {
    hide Top, MovesMerged, Both;
    MovesCommute(a.moves, b.moves);
    TopSwaps(a.top, b.top);
    FingerprintLaws(a.games, b.games, NO_GAMES);
  }

  lemma MergeAssociates(a: Tally, b: Tally, c: Tally)
    ensures Merged(Merged(a, b), c) == Merged(a, Merged(b, c))
  {
    hide Top, MovesMerged, Both;
    MovesAssociate(a.moves, b.moves, c.moves);
    TopAssociates(a.top, b.top, c.top);
    FingerprintLaws(a.games, b.games, c.games);
  }

  /** A list as `add` and `merge` leave it. */
  predicate Kept(t: Tally) {
    Top(t.top) == t.top
  }

  lemma TopTwice(s: seq<Best>)
    ensures Top(Top(s)) == Top(s)
  {
    hide Top;
    TopOfTop([], s);
    assert [] + Top(s) == Top(s) && [] + s == s;
  }

  lemma MergeEmpty(t: Tally)
    requires Kept(t)
    ensures Merged(EMPTY, t) == t && Merged(t, EMPTY) == t
  {
    hide Top, MovesMerged, Both;
    MergeCommutes(EMPTY, t);
    MovesNone(t.moves);
    MovesCommute(t.moves, map[]);
    PlusNone(t.counts);
    FingerprintLaws(t.games, NO_GAMES, NO_GAMES);
    assert [] + t.top == t.top;
  }

  lemma MergedKept(a: Tally, b: Tally)
    ensures Kept(Merged(a, b))
  {
    hide Top;
    TopTwice(a.top + b.top);
  }

  /** Adding one game is merging the tally of that game alone. */
  lemma AddIsMerge(t: Tally, counts: Counts, mv: Option<Move>, best: Best)
    ensures Added(t, counts, mv, best) == Merged(t, Added(EMPTY, counts, mv, best))
    ensures Kept(Added(t, counts, mv, best))
  {
    hide Top, Both, OfGame, MovesMerged, CountsOf, Plus;
    TopTwice(t.top + [best]);
    TopOfTop(t.top, [best]);
    assert [] + [best] == [best];
    FingerprintLaws(OfGame(best.id), NO_GAMES, NO_GAMES);
    PlusNone(counts);
    if mv.Some? {
      CountsIn(map[], mv.value);
      MovesOneMore(t.moves, map[], mv.value, counts);
      MovesCommute(t.moves, map[]);
      MovesNone(t.moves);
    } else {
      MovesCommute(t.moves, map[]);
      MovesNone(t.moves);
    }
  }

  /** `Brute`, changed in place. */
  class Brute {
    var counts: Counts
    var moves: map<Move, Counts>
    var top: seq<Best>
    var games: Fingerprint

    function Value(): Tally
      reads this
    {
      Tally(counts, moves, top, games)
    }

    constructor ()
      ensures Value() == EMPTY
    {
      counts, moves, top, games := NO_COUNTS, map[], [], NO_GAMES;
    }

    method Add(more: Counts, mv: Option<Move>, best: Best)
      modifies this
      ensures Value() == Added(old(Value()), more, mv, best)
    {
      hide Mixed;
      counts := Plus(counts, more);
      if mv.Some? {
        moves := moves[mv.value := Plus(CountsOf(moves, mv.value), more)];
      }
      top := top + [best];
      top := SortedOf(top);
      top := Cut(top);
      games := Both(games, OfGame(best.id));
    }

    method Merge(other: Brute)
      requires other != this
      modifies this
      ensures Value() == Merged(old(Value()), other.Value())
    {
      hide MovesMerged, Both, SortedOf, Plus;
      counts := Plus(counts, other.counts);
      moves := MergeMoves(moves, other.moves);
      top := top + other.top;
      top := SortedOf(top);
      top := Cut(top);
      games := Both(games, other.games);
    }
  }

  /** The loop of `Brute::merge` over the other's moves, in whatever order they come. */
  method MergeMoves(moves: map<Move, Counts>, more: map<Move, Counts>) returns (all: map<Move, Counts>)
    ensures all == MovesMerged(moves, more)
  {
    hide MovesMerged, CountsOf, Plus;
    all := moves;
    var left := more.Keys;
    MovesNone(moves);
    MovesCommute(moves, map[]);
    assert more - left == map[];
    while left != {}
      invariant left <= more.Keys
      invariant all == MovesMerged(moves, more - left)
      decreases |left|
    {
      var mv :| mv in left;
      MovesOneMore(moves, more - left, mv, more[mv]);
      assert (more - left)[mv := more[mv]] == more - (left - {mv});
      all := all[mv := Plus(CountsOf(all, mv), more[mv])];
      left := left - {mv};
    }
    assert more - left == more;
  }
}
