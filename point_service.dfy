/**
 * The ledger service: one read-modify-write step per charge or use request
 * against two tables, the per-user balance table and the append-only point
 * history. `Transact` is the step on table values; the class `PointService`
 * holds the two tables as fields and its methods are proved to perform it.
 */
module Service {
  import opened Longs
  import opened Point

  datatype TransactionType = Charge | Use

  /** One accepted request: who, the requested amount, which kind, when. */
  datatype PointHistory = PointHistory(userId: Long, amount: Long, kind: TransactionType, updateMillis: Long)

  /** The contents of the balance table (user id to stored record) and of the history table. */
  datatype Tables = Tables(userPoints: map<Long, UserPoint>, history: seq<PointHistory>)

  /** What one request returns, together with the tables it leaves behind. */
  datatype Step = Step(result: Result<UserPoint>, after: Tables)

  const NoTables := Tables(map[], [])

  /** The amount limits of a request of the given kind. */
  predicate IsRequestAmount(kind: TransactionType, amount: int) {
    match kind
    case Charge => IsChargeAmount(amount)
    case Use => IsUseAmount(amount)
  }

  /**
   * The invariant the service keeps: each stored record is filed under its own
   * id with a balance within bounds, and each history amount is a request
   * amount its kind accepts.
   */
  predicate WellFormed(t: Tables) {
    && (forall u :: u in t.userPoints ==> t.userPoints[u].id == u && InBounds(t.userPoints[u].point))
    && (forall i :: 0 <= i < |t.history| ==> IsRequestAmount(t.history[i].kind, t.history[i].amount))
  }

  /** The balance of `userId`, 0 for a user never written. */
  function PointOf(t: Tables, userId: Long): Long {
    if userId in t.userPoints then t.userPoints[userId].point else 0
  }

  /** Balance-table lookup: the stored record, or an empty record stamped `now`. */
  function SelectById(t: Tables, userId: Long, now: Long): (up: UserPoint)
    ensures userId in t.userPoints ==> up == t.userPoints[userId]
    ensures userId !in t.userPoints ==> up == UserPoint.Empty(userId, now)
    ensures up.point == PointOf(t, userId)
    ensures WellFormed(t) ==> up.id == userId && InBounds(up.point)
  {
    if userId in t.userPoints then t.userPoints[userId] else UserPoint.Empty(userId, now)
  }

  /** History-table lookup: the entries of `userId`, in the order they were appended. */
  function HistoryOf(h: seq<PointHistory>, userId: Long): (r: seq<PointHistory>)
    ensures |r| <= |h|
    ensures forall e :: e in r <==> e in h && e.userId == userId
  {
    if h == [] then []
    else
      var rest := HistoryOf(h[1..], userId);
      if h[0].userId == userId then [h[0]] + rest else rest
  }

  lemma {:induction false} HistoryOfConcat(a: seq<PointHistory>, b: seq<PointHistory>, userId: Long)
    ensures HistoryOf(a + b, userId) == HistoryOf(a, userId) + HistoryOf(b, userId)
  {
    if a == [] {
      assert a + b == b;
    } else {
      assert (a + b)[1..] == a[1..] + b;
      HistoryOfConcat(a[1..], b, userId);
    }
  }

  /** The balance rule a request of the given kind applies. */
  function Rule(kind: TransactionType, current: UserPoint, amount: Long): Result<Long> {
    match kind
    case Charge => current.Charge(amount)
    case Use => current.Use(amount)
  }

  /**
   * One request: read the balance (or the zero default), apply the rule, and
   * only if it passes, upsert the new balance and append one history entry.
   */
  function Transact(t: Tables, kind: TransactionType, userId: Long, amount: Long, now: Long): (s: Step)
    ensures s.result.Err? ==> s.after == t
    ensures s.result.Ok? ==> s.result.value.id == userId && s.result.value.updateMillis == now
    ensures s.result.Ok? ==> s.after.userPoints == t.userPoints[userId := s.result.value]
    ensures s.result.Ok? ==> s.after.history == t.history + [PointHistory(userId, amount, kind, now)]
  {
    var current := SelectById(t, userId, now);
    match Rule(kind, current, amount)
    case Err(status) => Step(Err(status), t)
    case Ok(newPoint) =>
      var updated := UserPoint(userId, newPoint, now);
      Step(Ok(updated), Tables(t.userPoints[userId := updated], t.history + [PointHistory(userId, amount, kind, now)]))
  }

  /** A charge request succeeds exactly when the rule's two guards pass, and stores the sum. */
  lemma ChargeOutcome(t: Tables, userId: Long, amount: Long, now: Long)
    requires WellFormed(t)
    ensures var s := Transact(t, Charge, userId, amount, now);
            var before := PointOf(t, userId);
            && (s.result.Ok? <==> IsChargeAmount(amount) && before + amount <= MaxPoint)
            && (!IsChargeAmount(amount) ==> s.result == Err(InvalidChargeAmount))
            && (IsChargeAmount(amount) && before + amount > MaxPoint ==> s.result == Err(ChargePointOverflow))
            && (s.result.Ok? ==> s.result.value == UserPoint(userId, before + amount, now)
                                 && PointOf(s.after, userId) == before + amount)
  {
  }

  /** A use request succeeds exactly when the rule's two guards pass, and stores the difference. */
  lemma UseOutcome(t: Tables, userId: Long, amount: Long, now: Long)
    requires WellFormed(t)
    ensures var s := Transact(t, Use, userId, amount, now);
            var before := PointOf(t, userId);
            && (s.result.Ok? <==> IsUseAmount(amount) && amount <= before)
            && (!IsUseAmount(amount) ==> s.result == Err(InvalidUseAmount))
            && (IsUseAmount(amount) && amount > before ==> s.result == Err(UsedPointUnderflow))
            && (s.result.Ok? ==> s.result.value == UserPoint(userId, before - amount, now)
                                 && PointOf(s.after, userId) == before - amount)
  {
  }

  /**
   * Every step keeps the invariant: balances stay within 0..2,000,000, and an
   * accepted charge raises the balance while an accepted use lowers it.
   */
  lemma TransactPreservesWellFormed(t: Tables, kind: TransactionType, userId: Long, amount: Long, now: Long)
    requires WellFormed(t)
    ensures var s := Transact(t, kind, userId, amount, now);
            && WellFormed(s.after)
            && (s.result.Ok? && kind == Charge ==> PointOf(t, userId) < PointOf(s.after, userId))
            && (s.result.Ok? && kind == Use ==> PointOf(s.after, userId) < PointOf(t, userId))
  {
  }

  /** A step touches no other user: neither their balance nor their history. */
  lemma TransactLeavesOthersAlone(t: Tables, kind: TransactionType, userId: Long, amount: Long, now: Long,
                                  other: Long, later: Long)
    requires other != userId
    ensures var s := Transact(t, kind, userId, amount, now);
            && SelectById(s.after, other, later) == SelectById(t, other, later)
            && HistoryOf(s.after.history, other) == HistoryOf(t.history, other)
  {
    var s := Transact(t, kind, userId, amount, now);
    if s.result.Ok? {
      var entry := PointHistory(userId, amount, kind, now);
      HistoryOfConcat(t.history, [entry], other);
      assert HistoryOf([entry], other) == [];
    }
  }

  /**
   * An accepted step appends exactly one entry, with the requested amount, to
   * the end of the user's history; a rejected step appends nothing.
   */
  lemma TransactRecordsOneEntry(t: Tables, kind: TransactionType, userId: Long, amount: Long, now: Long)
    ensures var s := Transact(t, kind, userId, amount, now);
            && (s.result.Ok? ==>
                  && HistoryOf(s.after.history, userId) == HistoryOf(t.history, userId) + [PointHistory(userId, amount, kind, now)]
                  && |s.after.history| == |t.history| + 1
                  && 0 < amount)
            && (s.result.Err? ==> HistoryOf(s.after.history, userId) == HistoryOf(t.history, userId))
  {
    var s := Transact(t, kind, userId, amount, now);
    if s.result.Ok? {
      var entry := PointHistory(userId, amount, kind, now);
      HistoryOfConcat(t.history, [entry], userId);
      assert HistoryOf([entry], userId) == [entry];
      assert Rule(kind, SelectById(t, userId, now), amount).Ok?;
    }
  }

  /**
   * Neither the lookup nor the two requests check the user id: a non-positive
   * id, which `ValidateUserId` rejects, reads as a zero balance and can be charged.
   */
  lemma UserIdIsNotValidated(userId: Long, now: Long)
    requires userId <= 0
    ensures PointService.ValidateUserId(userId) == Fail(InvalidUserId)
    ensures SelectById(NoTables, userId, now) == UserPoint(userId, 0, now)
    ensures Transact(NoTables, Charge, userId, MinChargePoint, now).result == Ok(UserPoint(userId, MinChargePoint, now))
  {
  }

  /** Charging 100,000 and then using 10,000 leaves 90,000 and the history [charge, use]. */
  lemma ChargeThenUseScenario(userId: Long, now1: Long, now2: Long)
    ensures var first := Transact(NoTables, Charge, userId, 100_000, now1);
            var second := Transact(first.after, Use, userId, 10_000, now2);
            && second.result == Ok(UserPoint(userId, 90_000, now2))
            && SelectById(second.after, userId, now2).point == 90_000
            && HistoryOf(second.after.history, userId)
               == [PointHistory(userId, 100_000, Charge, now1), PointHistory(userId, 10_000, Use, now2)]
  {
  }

  /**
   * On fresh tables a charge of 9,999 or of 200,001 is rejected as an invalid
   * amount, and nothing is stored or recorded.
   */
  lemma ChargeRangeScenario(userId: Long, now: Long)
    ensures var tooSmall := Transact(NoTables, Charge, userId, 9_999, now);
            var tooLarge := Transact(NoTables, Charge, userId, 200_001, now);
            && tooSmall == Step(Err(InvalidChargeAmount), NoTables)
            && tooLarge == Step(Err(InvalidChargeAmount), NoTables)
  {
  }

  /**
   * After a charge of 10,000, uses of 900 and of 1,000,001 are rejected as
   * invalid amounts and a use of 20,000 as an underflow; none of them changes
   * the tables, so the balance stays 10,000 with one history entry.
   */
  lemma RejectedUsesScenario(userId: Long, now1: Long, now2: Long)
    ensures var first := Transact(NoTables, Charge, userId, 10_000, now1);
            var belowMin := Transact(first.after, Use, userId, 900, now2);
            var aboveMax := Transact(first.after, Use, userId, 1_000_001, now2);
            var overBalance := Transact(first.after, Use, userId, 20_000, now2);
            && belowMin == Step(Err(InvalidUseAmount), first.after)
            && aboveMax == Step(Err(InvalidUseAmount), first.after)
            && overBalance == Step(Err(UsedPointUnderflow), first.after)
            && PointOf(first.after, userId) == 10_000
            && HistoryOf(first.after.history, userId) == [PointHistory(userId, 10_000, Charge, now1)]
  {
  }

  /** The service over its two tables. */
  class PointService {
    var userPoints: map<Long, UserPoint>
    var history: seq<PointHistory>

    /** The service starts over two empty tables. */
    constructor ()
      ensures userPoints == map[] && history == []
      ensures Valid()
    {
      userPoints := map[];
      history := [];
    }

    function State(): Tables
      reads this
    {
      Tables(userPoints, history)
    }

    predicate Valid()
      reads this
    {
      WellFormed(State())
    }

    /** Rejects exactly the non-positive ids. No other operation of the service calls it. */
    static function ValidateUserId(userId: Long): (r: Outcome)
      ensures r.Fail? <==> userId <= 0
      ensures r.Fail? ==> r.status == InvalidUserId
    {
      if userId <= 0 then Fail(InvalidUserId) else Pass
    }

    method FindUserPointByUserId(userId: Long, now: Long) returns (up: UserPoint)
      ensures up == SelectById(State(), userId, now)
      ensures up.point == PointOf(State(), userId)
      ensures Valid() ==> up.id == userId && InBounds(up.point)
    {
      if userId in userPoints {
        up := userPoints[userId];
      } else {
        up := UserPoint.Empty(userId, now);
      }
    }

    method FindAllPointHistoryByUserId(userId: Long) returns (hs: seq<PointHistory>)
      ensures hs == HistoryOf(history, userId)
    {
      hs := HistoryOf(history, userId);
    }

    method UserPointCharge(userId: Long, amount: Long, now: Long) returns (r: Result<UserPoint>)
      modifies this
      ensures Step(r, State()) == Transact(old(State()), Charge, userId, amount, now)
      ensures r.Err? ==> userPoints == old(userPoints) && history == old(history)
      ensures old(Valid()) ==> Valid()
    {
      ghost var before := State();
      var current := FindUserPointByUserId(userId, now);
      var charged := current.Charge(amount);
      if charged.Err? {
        return Err(charged.status);
      }
      var updated := UserPoint(userId, charged.value, now);
      userPoints := userPoints[userId := updated];
      history := history + [PointHistory(userId, amount, Charge, now)];
      r := Ok(updated);
      if WellFormed(before) {
        TransactPreservesWellFormed(before, Charge, userId, amount, now);
      }
    }

    method UserPointUse(userId: Long, amount: Long, now: Long) returns (r: Result<UserPoint>)
      modifies this
      ensures Step(r, State()) == Transact(old(State()), Use, userId, amount, now)
      ensures r.Err? ==> userPoints == old(userPoints) && history == old(history)
      ensures old(Valid()) ==> Valid()
    {
      ghost var before := State();
      var current := FindUserPointByUserId(userId, now);
      var used := current.Use(amount);
      if used.Err? {
        return Err(used.status);
      }
      var updated := UserPoint(userId, used.value, now);
      userPoints := userPoints[userId := updated];
      history := history + [PointHistory(userId, amount, Use, now)];
      r := Ok(updated);
      if WellFormed(before) {
        TransactPreservesWellFormed(before, Use, userId, amount, now);
      }
    }
  }
}
