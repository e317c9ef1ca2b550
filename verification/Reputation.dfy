/** Keeper reputation: a success rate over saturating counts, halved on reading as time passes. */
module Reputation {
  import opened Arithmetic
  import opened Common

  const FULL_SCORE_BPS: nat := 10_000
  const DECAY_HALF_LIFE_LEDGERS: nat := 100_000
  const U32_BITS: nat := 32

  datatype ReputationRecord = ReputationRecord(
    successes: nat, missedClaims: nat, scoreBps: nat, lastUpdatedLedger: nat)

  const ZeroRecord: ReputationRecord := ReputationRecord(0, 0, 0, 0)

  function SaturatingAddU64(a: nat, b: nat): nat {
    Min(a + b, U64_MAX)
  }

  function Score(successes: nat, missedClaims: nat): nat {
    var actions := SaturatingAddU64(successes, missedClaims);
    if actions == 0 then 0 else successes * FULL_SCORE_BPS / actions
  }

  function Updated(r: ReputationRecord, success: bool, ledger: nat): ReputationRecord {
    var s := if success then SaturatingAddU64(r.successes, 1) else r.successes;
    var m := if success then r.missedClaims else SaturatingAddU64(r.missedClaims, 1);
    ReputationRecord(s, m, Score(s, m), ledger)
  }

  function StoredRecord(records: map<Address, ReputationRecord>, keeper: Address): ReputationRecord {
    if keeper in records then records[keeper] else ZeroRecord
  }

  class KeeperReputation {
    var records: map<Address, ReputationRecord>
    var floorBps: nat

    constructor ()
      ensures records == map[] && floorBps == 0
    {
      records, floorBps := map[], 0;
    }

    method Update(keeper: Address, success: bool, ledger: nat)
      modifies this`records
      ensures records == old(records)[keeper := Updated(StoredRecord(old(records), keeper), success, ledger)]
    {
      var record := if keeper in records then records[keeper] else ZeroRecord;
      if success {
        record := record.(successes := SaturatingAddU64(record.successes, 1));
      } else {
        record := record.(missedClaims := SaturatingAddU64(record.missedClaims, 1));
      }
      record := record.(lastUpdatedLedger := ledger);
      record := Recompute(record);
      records := records[keeper := record];
    }

    method Recompute(record: ReputationRecord) returns (r: ReputationRecord)
      ensures r == record.(scoreBps := Score(record.successes, record.missedClaims))
    {
      var actions := SaturatingAddU64(record.successes, record.missedClaims);
      var score := 0;
      if actions != 0 {
        score := record.successes * FULL_SCORE_BPS / actions;
      }
      r := record.(scoreBps := score);
    }

    /** Rejects exactly the keepers whose stored score is below the floor; a floor of zero rejects
        nobody, and no floor is met by a keeper without history. */
    method RequireReputationFloor(keeper: Address) returns (ok: bool)
      ensures ok <==> floorBps <= StoredRecord(records, keeper).scoreBps
      ensures keeper !in records ==> (ok <==> floorBps == 0)
    {
      if floorBps == 0 {
        return true;
      }
      ok := keeper in records && records[keeper].scoreBps >= floorBps;
    }
  }

  // ── Runs ──

  datatype Action = Action(keeper: Address, success: bool, ledger: nat)

  function RunActions(actions: seq<Action>): map<Address, ReputationRecord> {
    if actions == [] then map[]
    else
      var records, a := RunActions(actions[..|actions| - 1]), actions[|actions| - 1];
      records[a.keeper := Updated(StoredRecord(records, a.keeper), a.success, a.ledger)]
  }

  function Count(actions: seq<Action>, keeper: Address, success: bool): nat {
    if actions == [] then 0
    else
      var a := actions[|actions| - 1];
      Count(actions[..|actions| - 1], keeper, success) + Counted(a, keeper, success)
  }

  /** The ledger of the keeper's last action. */
  function LastAction(actions: seq<Action>, keeper: Address): nat {
    if actions == [] then 0
    else if actions[|actions| - 1].keeper == keeper then actions[|actions| - 1].ledger
    else LastAction(actions[..|actions| - 1], keeper)
  }

  ghost predicate Consistent(r: ReputationRecord) {
    && r.successes <= U64_MAX && r.missedClaims <= U64_MAX
    && r.scoreBps == Score(r.successes, r.missedClaims)
  }

  /** A stored record holds the keeper's own counts, saturated, and the ledger of their last action. */
  lemma {:induction false} RecordCounts(actions: seq<Action>, keeper: Address)
    ensures var r := StoredRecord(RunActions(actions), keeper);
            && r.successes == Min(Count(actions, keeper, true), U64_MAX)
            && r.missedClaims == Min(Count(actions, keeper, false), U64_MAX)
            && r.lastUpdatedLedger == LastAction(actions, keeper)
            && Consistent(r)
  {
    if actions != [] {
      hide Score;
      RecordCounts(actions[..|actions| - 1], keeper);
    } else {
      assert Score(0, 0) == 0;
    }
  }

  /** As long as the counts fit, the stored score is the success rate of the keeper's own actions,
      whoever else acted in between and in whatever order. */
  lemma ScoreIsTheRate(actions: seq<Action>, keeper: Address)
    requires Count(actions, keeper, true) + Count(actions, keeper, false) <= U64_MAX
    ensures var s, m := Count(actions, keeper, true), Count(actions, keeper, false);
            StoredRecord(RunActions(actions), keeper).scoreBps
            == if s + m == 0 then 0 else s * 10_000 / (s + m)
  {
    RecordCounts(actions, keeper);
  }

  /** Saturated or not, reordering the actions never changes a score. */
  lemma OrderIsIrrelevant(a: seq<Action>, b: seq<Action>, keeper: Address)
    requires multiset(a) == multiset(b)
    ensures StoredRecord(RunActions(a), keeper).scoreBps == StoredRecord(RunActions(b), keeper).scoreBps
  {
    hide RunActions, Score, Count;
    RecordCounts(a, keeper);
    RecordCounts(b, keeper);
    CountPermuted(a, b, keeper, true);
    CountPermuted(a, b, keeper, false);
  }

  lemma {:induction false} CountPermuted(a: seq<Action>, b: seq<Action>, keeper: Address, success: bool)
    requires multiset(a) == multiset(b)
    ensures Count(a, keeper, success) == Count(b, keeper, success)
  {
    hide Count;
    if a == [] {
      assert |multiset(b)| == 0;
    } else {
      var x := a[|a| - 1];
      assert x in multiset(a);
      var i :| 0 <= i < |b| && b[i] == x;
      WithoutOne(a, |a| - 1, keeper, success);
      WithoutOne(b, i, keeper, success);
      CountPermuted(Without(a, |a| - 1), Without(b, i), keeper, success);
    }
  }

  function Without(s: seq<Action>, i: nat): seq<Action>
    requires i < |s|
  {
    s[..i] + s[i + 1..]
  }

  lemma WithoutOne(s: seq<Action>, i: nat, keeper: Address, success: bool)
    requires i < |s|
    ensures multiset(Without(s, i)) == multiset(s) - multiset{s[i]}
    ensures Count(s, keeper, success) == Count(Without(s, i), keeper, success) + Counted(s[i], keeper, success)
  {
    assert s == s[..i] + [s[i]] + s[i + 1..];
    assert multiset(s) == multiset(s[..i]) + multiset{s[i]} + multiset(s[i + 1..]);
    CountMoves(s[..i], s[i], s[i + 1..], keeper, success);
  }

  function Counted(x: Action, keeper: Address, success: bool): nat {
    if x.keeper == keeper && x.success == success then 1 else 0
  }

  lemma CountSnoc(s: seq<Action>, x: Action, keeper: Address, success: bool)
    ensures Count(s + [x], keeper, success) == Count(s, keeper, success) + Counted(x, keeper, success)
  {
    assert (s + [x])[..|s|] == s;
  }

  lemma {:induction false} CountMoves(a: seq<Action>, x: Action, b: seq<Action>, keeper: Address, success: bool)
    ensures Count(a + [x] + b, keeper, success) == Count(a + b, keeper, success) + Counted(x, keeper, success)
  {
    hide Count, Counted;
    if b == [] {
      assert a + [x] + b == a + [x] && a + b == a;
      CountSnoc(a, x, keeper, success);
    } else {
      var front, last := b[..|b| - 1], b[|b| - 1];
      CountMoves(a, x, front, keeper, success);
      assert a + [x] + b == (a + [x] + front) + [last] && a + b == (a + front) + [last];
      CountSnoc(a + [x] + front, last, keeper, success);
      CountSnoc(a + front, last, keeper, success);
    }
  }

  // ── Scores move the right way ──

  lemma ScoreBounded(s: nat, m: nat)
    requires s <= U64_MAX
    ensures Score(s, m) <= FULL_SCORE_BPS
    ensures Score(s, m) * SaturatingAddU64(s, m) <= s * FULL_SCORE_BPS
  {
    var n := SaturatingAddU64(s, m);
    if n > 0 {
      QuotientAtMost(FULL_SCORE_BPS, s * FULL_SCORE_BPS, n);
    }
  }

  /** At any counts, saturated ones included, a score is at most full, another success never lowers
      it and another missed claim never raises it. */
  lemma ScoreMovesTheRightWay(r: ReputationRecord, ledger: nat)
    requires Consistent(r)
    ensures r.scoreBps <= 10_000
    ensures Consistent(Updated(r, true, ledger)) && r.scoreBps <= Updated(r, true, ledger).scoreBps
    ensures Consistent(Updated(r, false, ledger)) && Updated(r, false, ledger).scoreBps <= r.scoreBps
  {
    ScoreBounded(r.successes, r.missedClaims);
    SuccessRaises(r.successes, r.missedClaims);
    MissLowers(r.successes, r.missedClaims);
  }

  lemma SuccessRaises(s: nat, m: nat)
    requires s <= U64_MAX && m <= U64_MAX
    ensures Score(s, m) <= Score(SaturatingAddU64(s, 1), m)
  {
    if s < U64_MAX {
      var q, n, n' := Score(s, m), SaturatingAddU64(s, m), SaturatingAddU64(s + 1, m);
      ScoreBounded(s, m);
      assert n' <= n + 1;
      assert q * n' <= q * n + q by {
        assert q * n' <= q * (n + 1);
      }
      QuotientAtLeast(q, (s + 1) * FULL_SCORE_BPS, n');
    }
  }

  lemma MissLowers(s: nat, m: nat)
    requires s <= U64_MAX && m <= U64_MAX
    ensures Score(s, SaturatingAddU64(m, 1)) <= Score(s, m)
  {
    var m' := SaturatingAddU64(m, 1);
    var q, n, n' := Score(s, m'), SaturatingAddU64(s, m), SaturatingAddU64(s, m');
    ScoreBounded(s, m');
    if n > 0 {
      assert q * n <= q * n';
      QuotientAtLeast(q, s * FULL_SCORE_BPS, n);
    }
  }

  // ── Decay on reading ──

  function Pow2(n: nat): (p: nat)
    ensures p >= 1
  {
    if n == 0 then 1 else 2 * Pow2(n - 1)
  }

  /** A right shift. */
  function Shift(x: nat, n: nat): nat
    decreases n
  {
    if n == 0 then x else Shift(x / 2, n - 1)
  }

  /** `score >> halvings` with the guard on wide shifts. */
  function Decayed(score: nat, halvings: nat): nat {
    if halvings >= U32_BITS then 0 else Shift(score, halvings)
  }

  function EffectiveRecord(r: ReputationRecord, currentLedger: nat): ReputationRecord {
    r.(scoreBps := Decayed(r.scoreBps, SaturatingSub(currentLedger, r.lastUpdatedLedger) / DECAY_HALF_LIFE_LEDGERS))
  }

  lemma {:induction false} ShiftIsFloor(x: nat, n: nat)
    ensures Shift(x, n) * Pow2(n) <= x < (Shift(x, n) + 1) * Pow2(n)
    decreases n
  {
    if n > 0 {
      ShiftIsFloor(x / 2, n - 1);
      var q, p := Shift(x / 2, n - 1), Pow2(n - 1);
      assert Shift(x, n) == q && Pow2(n) == 2 * p;
      Doubled(q, p);
      Doubled(q + 1, p);
    }
  }

  lemma Doubled(q: nat, p: nat)
    ensures q * (2 * p) == 2 * (q * p)
  {
  }

  lemma {:induction false} ShiftComposes(x: nat, a: nat, b: nat)
    ensures Shift(Shift(x, a), b) == Shift(x, a + b)
    decreases a
  {
    if a > 0 {
      ShiftComposes(x / 2, a - 1, b);
    }
  }

  lemma {:induction false} ShiftLowers(x: nat, n: nat)
    ensures Shift(x, n) <= x
    decreases n
  {
    if n > 0 {
      ShiftLowers(x / 2, n - 1);
    }
  }

  lemma {:induction false} ShiftedOut(x: nat, n: nat)
    requires x < Pow2(n)
    ensures Shift(x, n) == 0
    decreases n
  {
    if n > 0 {
      ShiftedOut(x / 2, n - 1);
    }
  }

  lemma {:induction false} Pow2Adds(a: nat, b: nat)
    ensures Pow2(a + b) == Pow2(a) * Pow2(b)
  {
    if b > 0 {
      Pow2Adds(a, b - 1);
      assert Pow2(a + b) == 2 * Pow2(a + (b - 1));
    }
  }

  lemma Pow2Of32()
    ensures Pow2(32) == U32_MAX + 1
  {
    assert Pow2(8) == 256;
    Pow2Adds(8, 8);
    Pow2Adds(16, 16);
  }

  /** The guard on wide shifts changes nothing for a 32-bit score. */
  lemma DecayIsShift(score: nat, halvings: nat)
    requires score <= U32_MAX
    ensures Decayed(score, halvings) == Shift(score, halvings)
  {
    hide Shift, Pow2;
    if halvings >= U32_BITS {
      Pow2Of32();
      ShiftedOut(score, 32);
      ShiftComposes(score, 32, halvings - 32);
      ShiftLowers(0, halvings - 32);
    }
  }

  /** The decayed score after `n` half-lives is the score divided by two to the `n`, rounded down. */
  lemma DecayIsFloorDivision(score: nat, halvings: nat)
    requires score <= U32_MAX
    ensures Decayed(score, halvings) * Pow2(halvings) <= score < (Decayed(score, halvings) + 1) * Pow2(halvings)
  {
    DecayIsShift(score, halvings);
    ShiftIsFloor(score, halvings);
  }

  /** Decay by `a` half-lives and then by `b` is decay by `a + b`. */
  lemma DecayComposes(score: nat, a: nat, b: nat)
    requires score <= U32_MAX
    ensures Decayed(Decayed(score, a), b) == Decayed(score, a + b)
  {
    hide Decayed, Shift;
    DecayIsShift(score, a);
    ShiftLowers(score, a);
    DecayIsShift(Decayed(score, a), b);
    DecayIsShift(score, a + b);
    ShiftComposes(score, a, b);
  }

  /** The view of a record starts out as the stored one and only ever loses score as ledgers pass;
      the counts and the last ledger are never touched. */
  lemma ViewDecays(r: ReputationRecord, ledger: nat, later: nat)
    requires r.scoreBps <= U32_MAX && ledger <= later
    ensures EffectiveRecord(r, r.lastUpdatedLedger) == r
    ensures EffectiveRecord(r, later).scoreBps <= EffectiveRecord(r, ledger).scoreBps <= r.scoreBps
    ensures EffectiveRecord(r, later).(scoreBps := r.scoreBps) == r
  {
    var a := SaturatingSub(ledger, r.lastUpdatedLedger) / DECAY_HALF_LIFE_LEDGERS;
    var b := SaturatingSub(later, r.lastUpdatedLedger) / DECAY_HALF_LIFE_LEDGERS;
    DecayComposes(r.scoreBps, a, b - a);
    ShiftLowers(r.scoreBps, a);
    ShiftLowers(Decayed(r.scoreBps, a), b - a);
  }

  /** The view itself: unchanged up to 100,000 ledgers after the last action, then the score divided by two
      for every 100,000 ledgers that have gone by, rounded down. */
  lemma ViewHalvesEvery100000Ledgers(r: ReputationRecord, ledger: nat, n: nat)
    requires r.scoreBps <= U32_MAX
    requires r.lastUpdatedLedger + 100_000 * n <= ledger < r.lastUpdatedLedger + 100_000 * (n + 1)
    ensures var score := EffectiveRecord(r, ledger).scoreBps;
            score * Pow2(n) <= r.scoreBps < (score + 1) * Pow2(n)
  {
    hide Decayed, Pow2;
    assert SaturatingSub(ledger, r.lastUpdatedLedger) / DECAY_HALF_LIFE_LEDGERS == n;
    DecayIsFloorDivision(r.scoreBps, n);
  }
}
