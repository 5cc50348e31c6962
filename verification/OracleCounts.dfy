/** What the brute-force count counts: for each position, the games of a list, one by one. And the
    mixing of a game's number, as SplitMix64 does it, by its first value. */
module OracleCounts {
  import opened Binary
  import opened Division
  import opened IndexOracle
  import opened OracleScan
  import opened TopGames
  import opened Wrappers

  // ---------------------------------------------------------------- what is seen of a position

  /** A game that reaches a position, and the move it plays there. */
  datatype Seen = Seen(outcome: Outcome, mv: Option<Move>, elo: nat, id: nat)

  /** The games' sightings of position `k`, in order; a game over the limit has none. */
  function SeenIn(found: seq<Sighting>, k: Key, outcome: Outcome, elo: nat, id: nat): seq<Seen> {
    if found == [] then []
    else
      var (init, last) := (found[..|found| - 1], found[|found| - 1]);
      SeenIn(init, k, outcome, elo, id) + (if last.key == k then [Seen(outcome, last.mv, elo, id)] else [])
  }

  function SeenOf(games: Games, k: Key, id: nat): seq<Seen> {
    match games(id)
    case Some(Game(outcome, elo, found, false)) => SeenIn(found, k, outcome, elo, id)
    case _ => []
  }

  /** In all records before `end`. */
  function AllSeen(games: Games, k: Key, end: nat): seq<Seen> {
    if end <= 1 then [] else AllSeen(games, k, end - 1) + SeenOf(games, k, end - 1)
  }

  function HowMany(s: seq<Seen>, of: Seen -> bool): nat {
    if s == [] then 0 else HowMany(s[..|s| - 1], of) + (if of(s[|s| - 1]) then 1 else 0)
  }

  function WithMove(s: seq<Seen>, mv: Move): seq<Seen> {
    if s == [] then [] else WithMove(s[..|s| - 1], mv) + (if s[|s| - 1].mv == Some(mv) then [s[|s| - 1]] else [])
  }

  /** The results counted. */
  function Results(s: seq<Seen>): Counts {
    Counts(|s|, HowMany(s, (x: Seen) => x.outcome.White?), HowMany(s, (x: Seen) => x.outcome.Draw?),
           HowMany(s, (x: Seen) => x.outcome.Black?))
  }

  function Ratings(s: seq<Seen>): seq<Best> {
    if s == [] then [] else Ratings(s[..|s| - 1]) + [Best(s[|s| - 1].elo, s[|s| - 1].id)]
  }

  function SumOfIds(s: seq<Seen>): nat {
    if s == [] then 0 else SumOfIds(s[..|s| - 1]) + s[|s| - 1].id % 0x1_0000_0000
  }

  function MixOfIds(s: seq<Seen>): Word {
    if s == [] then Zero else Xor(MixOfIds(s[..|s| - 1]), Mixed(s[|s| - 1].id % 0x1_0000_0000))
  }

  /** The moves played are those there, each with its own results. */
  ghost predicate MovesAll(moves: map<Move, Counts>, s: seq<Seen>) {
    forall mv ::
      && (mv in moves <==> WithMove(s, mv) != [])
      && (mv in moves ==> moves[mv] == Results(WithMove(s, mv)))
  }

  /** A tally that counts exactly those sightings: the results, those of each move played, the best
      games, and the set of them, how many, their sum in 64 bits and their mixed numbers folded. */
  ghost predicate CountsAll(t: Tally, s: seq<Seen>) {
    && t.counts == Results(s)
    && MovesAll(t.moves, s)
    && t.top == Top(Ratings(s))
    && t.games == Fingerprint(|s|, SumOfIds(s) % 0x1_0000_0000_0000_0000, MixOfIds(s))
  }

  // ---------------------------------------------------------------- one after the other

  lemma {:induction false} ManyMore(s: seq<Seen>, u: seq<Seen>, of: Seen -> bool)
    ensures HowMany(s + u, of) == HowMany(s, of) + HowMany(u, of)
    decreases |u|
  {
    if u == [] {
      assert s + u == s;
    } else {
      assert (s + u)[..|s + u| - 1] == s + u[..|u| - 1];
      ManyMore(s, u[..|u| - 1], of);
    }
  }

  lemma ResultsMore(s: seq<Seen>, u: seq<Seen>)
    ensures Results(s + u) == Plus(Results(s), Results(u))
  {
    hide HowMany;
    ManyMore(s, u, (x: Seen) => x.outcome.White?);
    ManyMore(s, u, (x: Seen) => x.outcome.Draw?);
    ManyMore(s, u, (x: Seen) => x.outcome.Black?);
  }

  lemma {:induction false} MoveMore(s: seq<Seen>, u: seq<Seen>, mv: Move)
    ensures WithMove(s + u, mv) == WithMove(s, mv) + WithMove(u, mv)
    decreases |u|
  {
    if u == [] {
      assert s + u == s;
    } else {
      assert (s + u)[..|s + u| - 1] == s + u[..|u| - 1];
      MoveMore(s, u[..|u| - 1], mv);
    }
  }

  lemma {:induction false} RatingsMore(s: seq<Seen>, u: seq<Seen>)
    ensures Ratings(s + u) == Ratings(s) + Ratings(u)
    decreases |u|
  {
    if u == [] {
      assert s + u == s;
    } else {
      assert (s + u)[..|s + u| - 1] == s + u[..|u| - 1];
      RatingsMore(s, u[..|u| - 1]);
    }
  }

  lemma {:induction false} SumMore(s: seq<Seen>, u: seq<Seen>)
    ensures SumOfIds(s + u) == SumOfIds(s) + SumOfIds(u)
    decreases |u|
  {
    if u == [] {
      assert s + u == s;
    } else {
      assert (s + u)[..|s + u| - 1] == s + u[..|u| - 1];
      SumMore(s, u[..|u| - 1]);
    }
  }

  lemma {:induction false} MixMore(s: seq<Seen>, u: seq<Seen>)
    ensures MixOfIds(s + u) == Xor(MixOfIds(s), MixOfIds(u))
    decreases |u|
  {
    hide Mixed;
    if u == [] {
      assert s + u == s;
      XorComm(MixOfIds(s), Zero);
    } else {
      var n := |u| - 1;
      assert (s + u)[..|s + u| - 1] == s + u[..n];
      MixMore(s, u[..n]);
      XorAssoc(MixOfIds(s), MixOfIds(u[..n]), Mixed(u[n].id % 0x1_0000_0000));
    }
  }

  lemma GamesMore(s: seq<Seen>, u: seq<Seen>)
    ensures var m := 0x1_0000_0000_0000_0000;
      Both(Fingerprint(|s|, SumOfIds(s) % m, MixOfIds(s)), Fingerprint(|u|, SumOfIds(u) % m, MixOfIds(u)))
      == Fingerprint(|s + u|, SumOfIds(s + u) % m, MixOfIds(s + u))
  {
    hide SumOfIds, MixOfIds;
    SumMore(s, u);
    MixMore(s, u);
  }

  lemma MoveCounts(moves: map<Move, Counts>, s: seq<Seen>, mv: Move)
    requires MovesAll(moves, s)
    ensures mv in moves <==> WithMove(s, mv) != []
    ensures CountsOf(moves, mv) == Results(WithMove(s, mv))
  {
    hide WithMove;
  }

  lemma MovesMore(a: map<Move, Counts>, s: seq<Seen>, b: map<Move, Counts>, u: seq<Seen>)
    requires MovesAll(a, s) && MovesAll(b, u)
    ensures MovesAll(MovesMerged(a, b), s + u)
  {
    hide Results, WithMove, MovesMerged, CountsOf, Plus;
    var m := MovesMerged(a, b);
    forall mv ensures (mv in m <==> WithMove(s + u, mv) != []) && (mv in m ==> m[mv] == Results(WithMove(s + u, mv))) {
      MoveMore(s, u, mv);
      ResultsMore(WithMove(s, mv), WithMove(u, mv));
      MoveCounts(a, s, mv);
      MoveCounts(b, u, mv);
    }
  }

  lemma CountsMore(a: Tally, s: seq<Seen>, b: Tally, u: seq<Seen>)
    requires CountsAll(a, s) && CountsAll(b, u)
    ensures CountsAll(Merged(a, b), s + u)
  {
    hide Results, MovesAll, Ratings, SumOfIds, MixOfIds, Top, Both, Plus, MovesMerged;
    ResultsMore(s, u);
    RatingsMore(s, u);
    TopOfTop(Top(Ratings(s)), Ratings(u));
    TopSwaps(Top(Ratings(s)), Ratings(u));
    TopOfTop(Ratings(u), Ratings(s));
    TopSwaps(Ratings(u), Ratings(s));
    GamesMore(s, u);
    MovesMore(a.moves, s, b.moves, u);
  }

  lemma CountsNone()
    ensures CountsAll(EMPTY, [])
  {}

  lemma ManyOne(x: Seen, of: Seen -> bool)
    ensures HowMany([x], of) == if of(x) then 1 else 0
  {
    assert [x][..|[x]| - 1] == [];
  }

  lemma OneResult(x: Seen)
    ensures Results([x]) == One(x.outcome)
  {
    hide HowMany;
    ManyOne(x, (x: Seen) => x.outcome.White?);
    ManyOne(x, (x: Seen) => x.outcome.Draw?);
    ManyOne(x, (x: Seen) => x.outcome.Black?);
  }

  lemma MoveOne(x: Seen, mv: Move)
    ensures WithMove([x], mv) == if x.mv == Some(mv) then [x] else []
  {
    assert [x][..|[x]| - 1] == [];
  }

  lemma OneMove(x: Seen)
    ensures MovesAll(if x.mv.Some? then map[x.mv.value := Results([x])] else map[], [x])
  {
    hide Results, WithMove;
    var moves: map<Move, Counts> := if x.mv.Some? then map[x.mv.value := Results([x])] else map[];
    forall mv: Move
      ensures (mv in moves <==> WithMove([x], mv) != []) && (mv in moves ==> moves[mv] == Results(WithMove([x], mv)))
    {
      MoveOne(x, mv);
    }
  }

  lemma OneGame(x: Seen)
    ensures Ratings([x]) == [Best(x.elo, x.id)]
    ensures OfGame(x.id) == Fingerprint(|[x]|, SumOfIds([x]) % 0x1_0000_0000_0000_0000, MixOfIds([x]))
  {
    hide Mixed;
    assert [x][..0] == [];
  }

  lemma CountsOne(outcome: Outcome, mv: Option<Move>, elo: nat, id: nat)
    ensures CountsAll(Added(EMPTY, One(outcome), mv, Best(elo, id)), [Seen(outcome, mv, elo, id)])
  {
    hide OfGame, Both, MixOfIds, SumOfIds, Ratings, Results, MovesAll, Top, One, Plus, CountsOf;
    var x := Seen(outcome, mv, elo, id);
    OneResult(x);
    OneMove(x);
    OneGame(x);
    PlusNone(One(outcome));
    FingerprintLaws(OfGame(id), NO_GAMES, NO_GAMES);
    assert [] + [Best(elo, id)] == [Best(elo, id)];
    if mv.Some? {
      CountsIn(map[], mv.value);
    }
  }

  lemma {:induction false} CountsSighted(found: seq<Sighting>, k: Key, outcome: Outcome, elo: nat, id: nat)
    ensures CountsAll(Sighted(EMPTY, found, k, One(outcome), Best(elo, id)), SeenIn(found, k, outcome, elo, id))
    decreases |found|
  {
    hide CountsAll, Added, One, Merged;
    if found == [] {
      CountsNone();
    } else {
      var (init, last) := (found[..|found| - 1], found[|found| - 1]);
      CountsSighted(init, k, outcome, elo, id);
      var t := Sighted(EMPTY, init, k, One(outcome), Best(elo, id));
      assert SeenIn(init, k, outcome, elo, id) + [] == SeenIn(init, k, outcome, elo, id);
      if last.key == k {
        CountsOne(outcome, last.mv, elo, id);
        AddIsMerge(t, One(outcome), last.mv, Best(elo, id));
        CountsMore(t, SeenIn(init, k, outcome, elo, id),
                   Added(EMPTY, One(outcome), last.mv, Best(elo, id)), [Seen(outcome, last.mv, elo, id)]);
      }
    }
  }

  lemma CountsRecord(games: Games, k: Key, id: nat)
    ensures CountsAll(RecordTally(games, k, id), SeenOf(games, k, id))
  {
    hide CountsAll, Sighted, SeenIn;
    CountsNone();
    if games(id).Some? {
      var g := games(id).value;
      CountsSighted(g.found, k, g.outcome, g.elo, id);
    }
  }

  /** One pass counts, for every position, exactly the games that reach it. */
  lemma {:induction false} PassCounts(games: Games, k: Key, end: nat)
    ensures CountsAll(Pass(games, k, end), AllSeen(games, k, end))
    decreases end
  {
    hide CountsAll, Merged, RecordTally, SeenOf;
    if end <= 1 {
      CountsNone();
    } else {
      PassCounts(games, k, end - 1);
      CountsRecord(games, k, end - 1);
      CountsMore(Pass(games, k, end - 1), AllSeen(games, k, end - 1),
                 RecordTally(games, k, end - 1), SeenOf(games, k, end - 1));
    }
  }

  /** The records left out as over the limit are counted apart. */
  lemma {:induction false} OverCounts(games: Games, end: nat)
    ensures OverPass(games, end) == |set id | 1 <= id < end && games(id).Some? && games(id).value.over|
    decreases end
  {
    var over := set id | 1 <= id < end && games(id).Some? && games(id).value.over;
    if end > 1 {
      OverCounts(games, end - 1);
      var before := set id | 1 <= id < end - 1 && games(id).Some? && games(id).value.over;
      if games(end - 1).Some? && games(end - 1).value.over {
        assert over == before + {end - 1};
      } else {
        assert over == before;
      }
    } else {
      assert over == {};
    }
  }

  /** The count by any number of threads, their batches merged in any order: every position's tally
      counts its games, and the records over the limit are counted. */
  method CountedByThreads(threads: nat, n: nat, games: Games, order: seq<nat>) returns (all: Books, over: nat)
    requires 1 <= threads <= 16 && n < 0x1_0000_0000
    requires forall w: nat :: w < threads <==> w in order
    requires forall i, j :: 0 <= i < j < |order| ==> order[i] != order[j]
    ensures forall k :: CountsAll(TallyOf(all, k), AllSeen(games, k, n + 1))
    ensures over == |set id | 1 <= id < n + 1 && games(id).Some? && games(id).value.over|
  {
    hide CountsAll, Pass, OverPass, AllSeen, TallyOf;
    all, over := BruteForce(threads, n, games, order);
    forall k ensures CountsAll(TallyOf(all, k), AllSeen(games, k, n + 1)) {
      PassCounts(games, k, n + 1);
    }
    OverCounts(games, n + 1);
  }

  // ---------------------------------------------------------------- mixing

  /** Exclusive or of numbers, by their digits. */
  function NumberXor(a: nat, b: nat): nat
    decreases a + b
  {
    if a == 0 && b == 0 then 0 else (if a % 2 == b % 2 then 0 else 1) + 2 * NumberXor(a / 2, b / 2)
  }

  lemma {:induction false} XorNumbers(a: nat, b: nat)
    ensures Xor(Of(a), Of(b)) == Of(NumberXor(a, b))
    decreases a + b
  {
    if a > 0 || b > 0 {
      XorNumbers(a / 2, b / 2);
      XorMake(a % 2 == 1, Of(a / 2), b % 2 == 1, Of(b / 2));
      OfStep(a);
      OfStep(b);
      OfStep(NumberXor(a, b));
    }
  }

  lemma OfStep(n: nat)
    ensures Of(n) == Make(n % 2 == 1, Of(n / 2))
  {}

  function Shifted(z: nat, n: nat): nat {
    if n == 0 then z else Shifted(z / 2, n - 1)
  }

  /** `z ^ (z >> n)`. */
  function ShiftXor(z: nat, n: nat): nat {
    NumberXor(z, Shifted(z, n))
  }

  lemma {:induction false} HighNumber(z: nat, n: nat)
    ensures High(Of(z), n) == Of(Shifted(z, n))
    decreases n
  {
    if n > 0 {
      OfStep(z);
      HighNumber(z / 2, n - 1);
    }
  }

  /** A shift is a division. */
  lemma {:induction false} Divided(z: nat, n: nat)
    ensures Shifted(z, n) == z / Pow2(n)
    decreases n
  {
    if n > 0 {
      Divided(z / 2, n - 1);
      Halves(z, Pow2(n - 1));
    }
  }

  lemma Halves(z: nat, p: nat)
    requires p > 0
    ensures z / 2 / p == z / (2 * p)
  {
    var (q, r) := (z / 2 / p, z / 2 % p);
    assert z / 2 == p * q + r;
    var s := 2 * r + z % 2;
    assert z == (2 * p) * q + s && 0 <= s < 2 * p;
    DivUnique(z, 2 * p, q, s);
  }

  lemma ShiftIs(z: nat, n: nat)
    ensures Xor(Of(z), High(Of(z), n)) == Of(ShiftXor(z, n)) && Value(Of(ShiftXor(z, n))) == ShiftXor(z, n)
  {
    hide Xor, High, Of, Shifted, NumberXor, Value;
    HighNumber(z, n);
    XorNumbers(z, Shifted(z, n));
    ValueOf(ShiftXor(z, n));
  }

  lemma MixedIs(game: nat, z0: nat, z1: nat, z2: nat)
    requires z0 == (game + 0x9e37_79b9_7f4a_7c15) % 0x1_0000_0000_0000_0000
    requires z1 == ShiftXor(z0, 30) * 0xbf58_476d_1ce4_e5b9 % 0x1_0000_0000_0000_0000
    requires z2 == ShiftXor(z1, 27) * 0x94d0_49bb_1331_11eb % 0x1_0000_0000_0000_0000
    ensures Mixed(game) == Of(ShiftXor(z2, 31))
  {
    hide Xor, High, Of, ShiftXor, Value;
    ShiftIs(z0, 30);
    ShiftIs(z1, 27);
    ShiftIs(z2, 31);
  }

  function Bit(x: nat, y: nat): nat {
    if x % 2 == y % 2 then 0 else 1
  }

  /** One digit more. */
  lemma Digit(a: nat, b: nat, r: nat, x: nat, y: nat)
    requires NumberXor(a, b) == r && x < 2 && y < 2
    ensures NumberXor(2 * a + x, 2 * b + y) == 2 * r + Bit(x, y)
  {
    assert (2 * a + x) / 2 == a && (2 * b + y) / 2 == b;
  }

  function FourBits(x: nat, y: nat): nat {
    Bit(x, y) + 2 * Bit(x / 2, y / 2) + 4 * Bit(x / 4, y / 4) + 8 * Bit(x / 8, y / 8)
  }

  /** Four digits more. */
  lemma Nibble(a: nat, b: nat, r: nat, x: nat, y: nat)
    requires NumberXor(a, b) == r && x < 16 && y < 16
    ensures NumberXor(16 * a + x, 16 * b + y) == 16 * r + FourBits(x, y)
  {
    hide NumberXor;
    Digit(a, b, r, x / 8, y / 8);
    var r1 := 2 * r + Bit(x / 8, y / 8);
    Digit(2 * a + x / 8, 2 * b + y / 8, r1, x / 4 % 2, y / 4 % 2);
    var r2 := 2 * r1 + Bit(x / 4, y / 4);
    Digit(4 * a + x / 4, 4 * b + y / 4, r2, x / 2 % 2, y / 2 % 2);
    var r3 := 2 * r2 + Bit(x / 2, y / 2);
    Digit(8 * a + x / 2, 8 * b + y / 2, r3, x % 2, y % 2);
  }

  lemma NoDigits()
    ensures NumberXor(0, 0) == 0
  {}

  lemma Shifts(z: nat, n: nat, s: nat)
    requires z / Pow2(n) == s
    ensures ShiftXor(z, n) == NumberXor(z, s)
  {
    hide Shifted, Pow2, NumberXor;
    Divided(z, n);
  }

  lemma FirstHigh()
    ensures NumberXor(0x9e37_79b9, 0x2) == 0x9e37_79bb
  {
    hide NumberXor;
    NoDigits();
    Nibble(0x0, 0x0, 0x0, 9, 0);
    Nibble(0x9, 0x0, 0x9, 14, 0);
    Nibble(0x9e, 0x0, 0x9e, 3, 0);
    Nibble(0x9e3, 0x0, 0x9e3, 7, 0);
    Nibble(0x9e37, 0x0, 0x9e37, 7, 0);
    Nibble(0x9_e377, 0x0, 0x9_e377, 9, 0);
    Nibble(0x9e_3779, 0x0, 0x9e_3779, 11, 0);
    Nibble(0x9e3_779b, 0x0, 0x9e3_779b, 9, 2);
  }

  lemma FirstDigits()
    ensures NumberXor(0x9e37_79b9_7f4a_7c16, 0x2_78dd_e6e5) == 0x9e37_79bb_0797_9af3
  {
    hide NumberXor;
    FirstHigh();
    Nibble(0x9e37_79b9, 0x2, 0x9e37_79bb, 7, 7);
    Nibble(0x9_e377_9b97, 0x27, 0x9_e377_9bb0, 15, 8);
    Nibble(0x9e_3779_b97f, 0x278, 0x9e_3779_bb07, 4, 13);
    Nibble(0x9e3_779b_97f4, 0x278d, 0x9e3_779b_b079, 10, 13);
    Nibble(0x9e37_79b9_7f4a, 0x2_78dd, 0x9e37_79bb_0797, 7, 14);
    Nibble(0x9_e377_9b97_f4a7, 0x27_8dde, 0x9_e377_9bb0_7979, 12, 6);
    Nibble(0x9e_3779_b97f_4a7c, 0x278_dde6, 0x9e_3779_bb07_979a, 1, 14);
    Nibble(0x9e3_779b_97f4_a7c1, 0x278d_de6e, 0x9e3_779b_b079_79af, 6, 5);
  }

  lemma FirstShift()
    ensures ShiftXor(0x9e37_79b9_7f4a_7c16, 30) == 0x9e37_79bb_0797_9af3
  {
    hide NumberXor, Pow2;
    Powers();
    FirstDigits();
    Shifts(0x9e37_79b9_7f4a_7c16, 30, 0x2_78dd_e6e5);
  }

  lemma SecondHigh()
    ensures NumberXor(0xad70_fc62, 0x15) == 0xad70_fc77
  {
    hide NumberXor;
    NoDigits();
    Nibble(0x0, 0x0, 0x0, 10, 0);
    Nibble(0xa, 0x0, 0xa, 13, 0);
    Nibble(0xad, 0x0, 0xad, 7, 0);
    Nibble(0xad7, 0x0, 0xad7, 0, 0);
    Nibble(0xad70, 0x0, 0xad70, 15, 0);
    Nibble(0xa_d70f, 0x0, 0xa_d70f, 12, 0);
    Nibble(0xad_70fc, 0x0, 0xad_70fc, 6, 1);
    Nibble(0xad7_0fc6, 0x1, 0xad7_0fc7, 2, 5);
  }

  lemma SecondDigits()
    ensures NumberXor(0xad70_fc62_ae96_589b, 0x15_ae1f_8c55) == 0xad70_fc77_0089_d4ce
  {
    hide NumberXor;
    SecondHigh();
    Nibble(0xad70_fc62, 0x15, 0xad70_fc77, 10, 10);
    Nibble(0xa_d70f_c62a, 0x15a, 0xa_d70f_c770, 14, 14);
    Nibble(0xad_70fc_62ae, 0x15ae, 0xad_70fc_7700, 9, 1);
    Nibble(0xad7_0fc6_2ae9, 0x1_5ae1, 0xad7_0fc7_7008, 6, 15);
    Nibble(0xad70_fc62_ae96, 0x15_ae1f, 0xad70_fc77_0089, 5, 8);
    Nibble(0xa_d70f_c62a_e965, 0x15a_e1f8, 0xa_d70f_c770_089d, 8, 12);
    Nibble(0xad_70fc_62ae_9658, 0x15ae_1f8c, 0xad_70fc_7700_89d4, 9, 5);
    Nibble(0xad7_0fc6_2ae9_6589, 0x1_5ae1_f8c5, 0xad7_0fc7_7008_9d4c, 11, 5);
  }

  lemma SecondShift()
    ensures ShiftXor(0xad70_fc62_ae96_589b, 27) == 0xad70_fc77_0089_d4ce
  {
    hide NumberXor, Pow2;
    Powers();
    SecondDigits();
    Shifts(0xad70_fc62_ae96_589b, 27, 0x15_ae1f_8c55);
  }

  lemma ThirdHigh()
    ensures NumberXor(0x910a_2ded, 0x1) == 0x910a_2dec
  {
    hide NumberXor;
    NoDigits();
    Nibble(0x0, 0x0, 0x0, 9, 0);
    Nibble(0x9, 0x0, 0x9, 1, 0);
    Nibble(0x91, 0x0, 0x91, 0, 0);
    Nibble(0x910, 0x0, 0x910, 10, 0);
    Nibble(0x910a, 0x0, 0x910a, 2, 0);
    Nibble(0x9_10a2, 0x0, 0x9_10a2, 13, 0);
    Nibble(0x91_0a2d, 0x0, 0x91_0a2d, 14, 0);
    Nibble(0x910_a2de, 0x0, 0x910_a2de, 13, 1);
  }

  lemma ThirdDigits()
    ensures NumberXor(0x910a_2ded_ab16_071a, 0x1_2214_5bdb) == 0x910a_2dec_8902_5cc1
  {
    hide NumberXor;
    ThirdHigh();
    Nibble(0x910a_2ded, 0x1, 0x910a_2dec, 10, 2);
    Nibble(0x9_10a2_deda, 0x12, 0x9_10a2_dec8, 11, 2);
    Nibble(0x91_0a2d_edab, 0x122, 0x91_0a2d_ec89, 1, 1);
    Nibble(0x910_a2de_dab1, 0x1221, 0x910_a2de_c890, 6, 4);
    Nibble(0x910a_2ded_ab16, 0x1_2214, 0x910a_2dec_8902, 0, 5);
    Nibble(0x9_10a2_deda_b160, 0x12_2145, 0x9_10a2_dec8_9025, 7, 11);
    Nibble(0x91_0a2d_edab_1607, 0x122_145b, 0x91_0a2d_ec89_025c, 1, 13);
    Nibble(0x910_a2de_dab1_6071, 0x1221_45bd, 0x910_a2de_c890_25cc, 10, 11);
  }

  lemma ThirdShift()
    ensures ShiftXor(0x910a_2ded_ab16_071a, 31) == 0x910a_2dec_8902_5cc1
  {
    hide NumberXor, Pow2;
    Powers();
    ThirdDigits();
    Shifts(0x910a_2ded_ab16_071a, 31, 0x1_2214_5bdb);
  }

  lemma Powers()
    ensures Pow2(27) == 0x800_0000 && Pow2(30) == 0x4000_0000 && Pow2(31) == 0x8000_0000
  {
    assert Pow2(9) == 0x200;
    assert Pow2(18) == 0x4_0000;
    assert Pow2(27) == 0x800_0000;
  }

  /** The first game's number mixed is SplitMix64's answer for 1. */
  lemma MixedOne()
    ensures Mixed(1) == Of(0x910a_2dec_8902_5cc1)
  {
    hide ShiftXor, Mixed, Of;
    FirstShift();
    SecondShift();
    ThirdShift();
    MixedIs(1, 0x9e37_79b9_7f4a_7c16, 0xad70_fc62_ae96_589b, 0x910a_2ded_ab16_071a);
  }
}
