# Point ledger of a per-user balance, in Dafny

This project models the point ledger of `hhplus_week01_tdd`. Each user has a point balance. Two kinds of request change it: a charge adds points, and a use spends them. Every accepted request is logged in an append-only history.

- `longs.dfy`, module `Longs`: Java's 64-bit `long` is the subset type `Long`. `Wrap` gives the two's-complement result of `+` and `-`.
- `user_point.dfy`, module `Point`: the immutable `UserPoint` record `(id, point, updateMillis)`.
  - It holds the five limits: a 2,000,000 balance cap, charges of 10,000..200,000 and uses of 1,000..1,000,000.
  - It holds the two rules `Charge` and `Use`. They return the would-be balance in a `Result`, or the `PointStatus` that rejects the request.
  - The `PointStatus` variants `InvalidUserId`, `InvalidChargeAmount`, `ChargePointOverflow`, `InvalidUseAmount` and `UsedPointUnderflow` stand for the `POINT_STATUS` constants `INVALID_USERID`, `INVALID_CHARGE_AMOUNT`, `CHARGE_POINT_OVERFLOW`, `INVALID_USE_AMOUNT` and `USED_POINT_UNDERFLOW`. The Java code carries each of them in a thrown `UserPointException`.
- `point_service.dfy`, module `Service`: the ledger service.
  - `Tables` holds the contents of the balance table and the history table. The balance table maps a user id to its stored `UserPoint`; the history table is a sequence of `PointHistory` entries.
  - `Transact` is one charge or use step on those values: read the balance or the zero default, apply the rule, upsert the new balance, append one history entry.
  - The class `PointService` holds the two tables as fields. Its `UserPointCharge` and `UserPointUse` methods update them in place, and each is proved to perform `Transact`.
  - The lemmas beside `Transact` prove the service's properties:
    - the guards that decide acceptance, and which error wins when both guards fail;
    - every balance stays within 0..2,000,000;
    - a rejected request changes nothing;
    - an accepted request appends exactly one entry, with the requested amount;
    - no other user's balance or history changes.

Java `long` arithmetic is modelled exactly. The rules add or subtract on the `long` balance, and that can wrap around, but only for a record whose balance lies within 200,000 of the largest `long` (charge) or within 1,000,000 of the smallest `long` (use). The service never stores such a record (`TransactPreservesWellFormed`). `ChargeWrapsAtLongMax` and `UseWrapsAtLongMin` show what the rules return for such records.

`validateUserId` is modelled as the standalone check the code has. No other service operation calls it, so lookups, charges and uses accept any id, including non-positive ones (`UserIdIsNotValidated`). One integration test (`src/test/java/io/hhplus/tdd/integration/point/PointServiceIntegrationTest.java:40-43`) expects an id check before the lookup. This model follows the code instead. Another test (`src/test/java/io/hhplus/tdd/point/PointServiceTest.java:61-67`) expects point 0 for id -1, as the code gives.

## Model

| member | source | states |
|---|---|---|
| `Longs.Wrap` | src/main/java/io/hhplus/tdd/point/UserPoint.java:31-34 | the `long` result of a sum or difference: the exact value when it fits in a `long`, otherwise the value shifted by 2^64 |
| `Point.UserPoint.Empty` | src/main/java/io/hhplus/tdd/point/UserPoint.java:14-16 | the record of a never-written user has the given id, point 0 and the given time |
| `Point.UserPoint.Charge` | src/main/java/io/hhplus/tdd/point/UserPoint.java:27-35 | an amount outside 10,000..200,000 fails with InvalidChargeAmount whatever the balance; for every balance up to the largest `long` less 200,000, where the sum cannot wrap (balances over the cap included), the charge succeeds iff the amount is in range and balance + amount <= 2,000,000; otherwise an in-range amount fails with ChargePointOverflow; a success returns balance + amount, above the old balance and at most the cap; from a balance in 0..2,000,000 the result stays in that range |
| `Point.UserPoint.Use` | src/main/java/io/hhplus/tdd/point/UserPoint.java:46-54 | an amount outside 1,000..1,000,000 fails with InvalidUseAmount before the balance is looked at; for a balance out of wrap-around reach, the use succeeds iff the amount is in range and at most the balance; otherwise an in-range amount fails with UsedPointUnderflow; a success returns balance - amount, non-negative and below the old balance |
| `Point.ChargeWrapsAtLongMax` | src/main/java/io/hhplus/tdd/point/UserPoint.java:31-34 | a record holding the largest `long` accepts a 10,000 charge and returns a negative balance, because the `long` sum wraps around |
| `Point.UseWrapsAtLongMin` | src/main/java/io/hhplus/tdd/point/UserPoint.java:50-53 | a record holding the smallest `long` accepts a 1,000 use and returns a balance near the largest `long` |
| `Service.SelectById` | src/main/java/io/hhplus/tdd/service/PointService.java:38-40 | a lookup of a written id returns exactly the stored record; for a never-written id it returns the empty record (that id, point 0, stamped with the given time); on well-formed tables the record has the asked id and a balance within bounds |
| `Service.HistoryOf` | src/main/java/io/hhplus/tdd/service/PointService.java:47-49 | a user's history holds exactly the entries of the table that belong to that user, and is no longer than the table |
| `Service.HistoryOfConcat` | src/main/java/io/hhplus/tdd/service/PointService.java:47-49 | a user's history of two appended runs of entries is that user's history of the first run followed by that of the second, so append order is kept |
| `Service.Transact` | src/main/java/io/hhplus/tdd/service/PointService.java:56-77 | a rejected request leaves both tables unchanged; an accepted one stores a record with the user's id and the current time under that id, and appends exactly the entry (user, requested amount, kind, time) to the history |
| `Service.ChargeOutcome` | src/main/java/io/hhplus/tdd/service/PointService.java:56-63 | on well-formed tables a charge succeeds iff the amount is in 10,000..200,000 and old balance + amount <= 2,000,000; the amount check has precedence over the overflow check; a success stores and returns old balance + amount for that user |
| `Service.UseOutcome` | src/main/java/io/hhplus/tdd/service/PointService.java:71-77 | on well-formed tables a use succeeds iff the amount is in 1,000..1,000,000 and at most the old balance; the amount check has precedence over the underflow check; a success stores and returns old balance - amount |
| `Service.TransactPreservesWellFormed` | src/main/java/io/hhplus/tdd/point/UserPoint.java:27-54 | every step keeps each stored balance within 0..2,000,000, filed under its own id, and each history amount within its kind's limits; an accepted charge raises the user's balance and an accepted use lowers it |
| `Service.TransactLeavesOthersAlone` | src/main/java/io/hhplus/tdd/service/PointService.java:57-62 | a request for one user changes neither the stored record nor the history of any other user |
| `Service.TransactRecordsOneEntry` | src/main/java/io/hhplus/tdd/service/PointService.java:56-63 | an accepted request adds exactly one entry at the end of the user's history, carrying the requested (positive) amount rather than the new balance; a rejected request adds none |
| `Service.UserIdIsNotValidated` | src/main/java/io/hhplus/tdd/service/PointService.java:27-40 | a non-positive id fails the id check, yet a lookup of it gives balance 0 and a 10,000 charge to it succeeds, since no operation calls the check |
| `Service.ChargeThenUseScenario` | src/test/java/io/hhplus/tdd/unit/point/PointServiceTest.java:123-136 | charging 100,000 and then using 10,000 leaves 90,000 and the user's history [charge 100,000, use 10,000] |
| `Service.ChargeRangeScenario` | src/test/java/io/hhplus/tdd/integration/point/PointServiceIntegrationTest.java:62-69 | on fresh tables a charge of 9,999 and one of 200,001 each fail with InvalidChargeAmount and leave both tables empty |
| `Service.RejectedUsesScenario` | src/test/java/io/hhplus/tdd/integration/point/PointServiceIntegrationTest.java:88-100 | after a 10,000 charge, uses of 900 and 1,000,001 fail with InvalidUseAmount and a use of 20,000 fails with UsedPointUnderflow; none changes the tables, so the balance stays 10,000 and the history is the one charge entry |
| `Service.PointService.constructor` | src/main/java/io/hhplus/tdd/service/PointService.java:16-21 | the service starts over two empty tables, which satisfy the invariant |
| `Service.PointService.ValidateUserId` | src/main/java/io/hhplus/tdd/service/PointService.java:27-31 | fails, with InvalidUserId, exactly when the id is <= 0 |
| `Service.PointService.FindUserPointByUserId` | src/main/java/io/hhplus/tdd/service/PointService.java:38-40 | returns the table lookup for the id, whose point is the user's balance (0 if never written); with the invariant, the record has the asked id and a balance within bounds; two reads with no write between return the same id and balance, as the method changes nothing; for a never-written id the two records differ in their time stamp unless both reads pass the same `now`, since each empty record is stamped with that read's clock |
| `Service.PointService.FindAllPointHistoryByUserId` | src/main/java/io/hhplus/tdd/service/PointService.java:47-49 | returns exactly the user's entries of the history table, in append order |
| `Service.PointService.UserPointCharge` | src/main/java/io/hhplus/tdd/service/PointService.java:56-64 | the result and the new tables are exactly one `Transact` charge step from the old tables; a failure leaves both fields unchanged; the invariant is kept |
| `Service.PointService.UserPointUse` | src/main/java/io/hhplus/tdd/service/PointService.java:71-78 | the result and the new tables are exactly one `Transact` use step from the old tables; a failure leaves both fields unchanged; the invariant is kept |

## Left out

- Clock: every read of the current time during one service call is the single `now` parameter. This covers the time of the empty record, the table's upsert stamp and the history stamp. No property about time values is stated.
- Balance and history table internals: `UserPointTable` and `PointHistoryTable` are not part of this model. They are abstracted as a map with a zero-balance default and an append-only sequence. The history table's own entry id is not modelled.
- Concurrency: two requests for the same user race in the read-modify-write, because there is no lock. Each model step is atomic, so interleavings and the lost updates they cause are not modelled.
- Framework wiring: the Spring service annotation and the injection of the two tables through the constructor are not modelled. The model's constructor starts from two empty tables, as the tests do.
- Exception carrier: `UserPointException` becomes the `Err`/`Fail` variant with its status. The optional message string is dropped.
- Tests: the test files serve only as evidence for the scenarios. Where a test expects a different exception type (`IllegalArgumentException`) or an id check the code does not perform, the model follows the code.
