/**
 * The balance entity of the point ledger: an immutable record of a user's id,
 * point balance and last-update time, with the two validating rules `Charge`
 * and `Use`. Neither rule changes the record: each returns the would-be new
 * balance or the status that rejects the request.
 */
module Point {
  import opened Longs

  // The five business limits of a balance.
  const MaxPoint: Long := 2_000_000
  const MaxUsePoint: Long := 1_000_000
  const MinUsePoint: Long := 1_000
  const MaxChargePoint: Long := 200_000
  const MinChargePoint: Long := 10_000

  /** Why a request is rejected; each status is carried by one thrown exception in the ledger. */
  datatype PointStatus =
    | InvalidUserId
    | InvalidChargeAmount
    | ChargePointOverflow
    | InvalidUseAmount
    | UsedPointUnderflow

  /** The value of an operation, or the status it failed with. */
  datatype Result<+T> = Ok(value: T) | Err(status: PointStatus)

  /** A check that either passes or fails with a status. */
  datatype Outcome = Pass | Fail(status: PointStatus)

  predicate IsChargeAmount(amount: int) {
    MinChargePoint <= amount <= MaxChargePoint
  }

  predicate IsUseAmount(amount: int) {
    MinUsePoint <= amount <= MaxUsePoint
  }

  /** The range every balance the ledger stores lies in. */
  predicate InBounds(point: int) {
    0 <= point <= MaxPoint
  }

  datatype UserPoint = UserPoint(id: Long, point: Long, updateMillis: Long) {

    /** The balance of a user that has never been written: point 0, stamped `now`. */
    static function Empty(id: Long, now: Long): (r: UserPoint)
      ensures r.id == id && r.point == 0 && r.updateMillis == now
      ensures InBounds(r.point)
    {
      UserPoint(id, 0, now)
    }

    /**
     * The balance after charging `pointToCharge`. The amount range is checked
     * before the cap, so an out-of-range amount is reported as such even when
     * the sum would also pass the cap. The sum is a `long` sum; it cannot wrap
     * around unless the balance lies within 200,000 of the largest `long`.
     */
    function Charge(pointToCharge: Long): (r: Result<Long>)
      ensures r.Err? ==> r.status == InvalidChargeAmount || r.status == ChargePointOverflow
      ensures !IsChargeAmount(pointToCharge) ==> r == Err(InvalidChargeAmount)
      ensures point <= LongMax - MaxChargePoint ==>
                (r.Ok? <==> IsChargeAmount(pointToCharge) && point + pointToCharge <= MaxPoint)
      ensures point <= LongMax - MaxChargePoint && IsChargeAmount(pointToCharge) && point + pointToCharge > MaxPoint ==>
                r == Err(ChargePointOverflow)
      ensures r.Ok? ==> r.value <= MaxPoint
      ensures r.Ok? && point <= LongMax - MaxChargePoint ==> r.value == point + pointToCharge && point < r.value
      ensures r.Ok? && InBounds(point) ==> InBounds(r.value)
    {
      if MinChargePoint > pointToCharge || MaxChargePoint < pointToCharge then
        Err(InvalidChargeAmount)
      else if Wrap(point + pointToCharge) > MaxPoint then
        Err(ChargePointOverflow)
      else
        Ok(Wrap(point + pointToCharge))
    }

    /**
     * The balance after using `pointToUse`. The amount range is checked before
     * the balance is looked at. The difference is a `long` difference; it
     * cannot wrap around unless the balance lies within 1,000,000 of the
     * smallest `long`.
     */
    function Use(pointToUse: Long): (r: Result<Long>)
      ensures r.Err? ==> r.status == InvalidUseAmount || r.status == UsedPointUnderflow
      ensures !IsUseAmount(pointToUse) ==> r == Err(InvalidUseAmount)
      ensures LongMin + MaxUsePoint <= point ==>
                (r.Ok? <==> IsUseAmount(pointToUse) && pointToUse <= point)
      ensures LongMin + MaxUsePoint <= point && IsUseAmount(pointToUse) && pointToUse > point ==>
                r == Err(UsedPointUnderflow)
      ensures r.Ok? ==> 0 <= r.value
      ensures r.Ok? && LongMin + MaxUsePoint <= point ==> r.value == point - pointToUse && r.value < point
      ensures r.Ok? && InBounds(point) ==> InBounds(r.value)
    {
      if pointToUse < MinUsePoint || pointToUse > MaxUsePoint then
        Err(InvalidUseAmount)
      else if Wrap(point - pointToUse) < 0 then
        Err(UsedPointUnderflow)
      else
        Ok(Wrap(point - pointToUse))
    }
  }

  /**
   * Within 200,000 of the largest `long` the sum can wrap around: a record
   * holding the largest `long` accepts a minimum charge and returns a negative
   * balance.
   */
  lemma ChargeWrapsAtLongMax(id: Long, now: Long)
    ensures UserPoint(id, LongMax, now).Charge(MinChargePoint) == Ok(LongMin + MinChargePoint - 1)
  {
  }

  /**
   * Likewise a record holding the smallest `long` accepts a minimum use and
   * returns a balance near the largest `long`.
   */
  lemma UseWrapsAtLongMin(id: Long, now: Long)
    ensures UserPoint(id, LongMin, now).Use(MinUsePoint) == Ok(LongMax - MinUsePoint + 1)
  {
  }
}
