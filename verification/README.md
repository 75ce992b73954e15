# KazakhExpress: what its services keep

KazakhExpress is a shop made of Go services that share PostgreSQL, Redis, NATS and an SMTP service.
This project models the parts of it whose correctness depends on order and failure, and proves what
they keep in every run.

Each service is modelled twice. A *step relation* has a state, a set of calls with a program counter
each, and one action for one remote call of one of them, or for time passing or a Redis entry
expiring; `Run` folds a list of actions, and the theorems are about every such list. A *class* has the
source's methods, which change their fields in sequence; each method is proved equal to its call of the
step relation, carried to its end alone (`Complete`), or to one step of it. A remote call may succeed,
be lost, or take effect and still report an error (`Outcome`).

| Files | Subject |
|---|---|
| `PaymentTypes`, `PaymentProtocol` | payment records and the effect chains of Create, Refund, Confirm and Cancel |
| `PaymentInterleaving`, `PaymentReports` | what holds however calls overlap: one charge per key, effects that repeat their row and come after their cause |
| `PaymentSerial`, `PaymentMoney` | what holds of a payment whose calls do not overlap: its logs, and what is refunded |
| `PaymentCauses` | why each status was written, and whether what is refunded was charged |
| `PaymentService`, `PaymentResults` | the payment service as a class, and what each of its calls comes to, field by field |
| `OrderTotal`, `OrderProtocol`, `OrderHistory`, `OrderService`, `OrderResults`, `OrderConsumer` | orders, their 64-bit totals, their status history, and the NATS consumer |
| `Settlement` | payments, an unreliable network and orders together |
| `GatewayLimiter`, `LoginLimiter` | the gateway's fixed-window and the login's sliding-window rate limiter |
| `ReviewRating`, `ReviewCache`, `ReviewService`, `ReviewResults` | a product's rating and the cache beside it |
| `RefreshTokens`, `TokenResults`, `AccessTokens` | refresh-token rotation and revocation, the access-token blacklist |
| `Stock`, `StockResults` | stock reservations over the in-memory and the Postgres store |

Where the code does not do what one might expect, the model follows the code:

- `payment-service/README.md` (line 71) says that repeating a checkout with the same key returns the existing
  payment. The code does so exactly while the key's Redis entry is live; afterwards the unique
  constraint makes the repeated call fail (`RepeatReturnsRowIffEntryLive`). No second row or charge
  appears either way.
- An order's total is summed in 64 bits without an overflow check: it is the true sum exactly when that
  is below 2^63, and an order of four pieces can cost more than 2^64 and be stored with a total of 4
  (`StoredIsTrueIffItFits`, `HugeOrderIsStoredAsSmall`).
- `repo.Update` of a payment and of a product are blind writes. Claims that a payment's status only
  climbs and that stock is conserved carry the hypothesis that calls on the one row do not overlap;
  `OverlapBreaksJourneys` and `OverlapLosesAReservation` show what overlapping calls do.
- The gateway limiter can let through almost twice its limit in one window; the exact bound
  2 * limit - 1 is proved and reached (`AtMostTwiceTheLimit`, `BoundIsReached`).
- A refresh reads its token's row and deletes it later: two that overlap are both accepted, and one that
  has read the row survives a logout (`OverlapAcceptsTwice`, `RevocationMissesAReader`).
- A success can be written by Confirm without any charge, so refunds can exceed charges
  (`UnchargedRefund`); where nothing is confirmed they cannot (`RefundsWereCharged`).
- A login attempt reads its timestamp before its pipeline runs. One that is overtaken by a later-stamped
  attempt, or by the set's expiry, is not counted against the attempts of its own window, and seven can
  pass (`SevenPass`); `CountIsOfTheLogIff` and `RunsInOrderArePunctual` say when that cannot happen.
- Login attempts that read the same nanosecond from the clock are one member of the sorted set, so the
  limit is one of instants, and of attempts when timestamps differ (`SameInstantIsUnbounded`).
- A cached rating can go stale for the rest of its lifetime when a reader fills in what it queried
  before a write, when the delete of the entry is lost, or when a write is reported as failed though it
  was done (`UnsafeFillGoesStale`, `WriteGoesStaleIff`).

## Model

| member | source | states |
|---|---|---|
| PaymentInterleaving.OneChargePerKey | payment-service/internal/payment/service.go:60-96 | In every interleaving, with any remote call failing and any Redis entry expiring: at most one row and at most one charge per idempotency key |
| PaymentInterleaving.Interleaving | payment-service/migrations/001_create_payments.sql:1-15 | The invariant behind it, in every schedule: keys are unique, a live Redis entry points to the row of its key, every effect and every call's copy repeats an existing row, and no payment with a charge ahead of it has been charged |
| PaymentInterleaving.ReplayReturnsTheRow | payment-service/internal/payment/service.go:60-64 | A Create that finds its key's entry live answers with that key's stored payment and changes nothing, even if other calls run and the entry expires in between |
| PaymentInterleaving.EffectsRepeatTheRow | payment-service/internal/payment/repository.go:114-132 | Every event, message, e-mail, charge and refund row agrees with its payment's row on order, customer, address and amount, then and at every later moment |
| PaymentInterleaving.RowsAreLawful | payment-service/internal/payment/service.go:100-110 | In every schedule with an honest provider: refund reason iff refunded, failure reason iff failed or cancelled, and a succeeded, failed or refunded row has a provider transaction; honesty is exactly the contract this needs |
| PaymentTypes.MockCharge | payment-service/internal/provider/mock.go:15-27 | The production provider is honest, always decides, and declines exactly wallet payments above 500000 |
| PaymentReports.EveryEffectIsReported | payment-service/internal/payment/service.go:88-147 | In every schedule: an event repeats a row as written, a message an appended event on its status's subject, a refund row an appended refund, a charge the inserted and announced payment, an e-mail a written and published outcome |
| PaymentReports.NoticeGivesItsReason | payment-service/internal/payment/service.go:286-306 | The event of a lawful row gives the failure reason when failed or cancelled, the refund reason when refunded, and otherwise none |
| PaymentSerial.EffectsFollowWrites | payment-service/internal/payment/service.go:112-147 | With calls on the payment serialised and any step failing: written statuses climb from pending in at most three writes and end at the row's status; events are a subsequence of the writes, messages of the events, e-mails of the messages, refund rows of the events |
| PaymentSerial.NothingTwice | payment-service/internal/payment/service.go:175-219 | No log of a payment shows a status twice, and none shows one that was never written: at most one receipt, refund mail and refund row |
| PaymentSerial.FaultFreeRunsAreComplete | payment-service/internal/payment/service.go:221-284 | Without faults and with no call under way: every write has its event and message, every outcome its e-mail, a refund its row |
| PaymentSerial.JourneysClimb | payment-service/internal/payment/service.go:184-189 | Every allowed sequence of statuses strictly climbs pending, then succeeded or failed, then refunded or cancelled |
| PaymentSerial.Serialised | payment-service/internal/payment/service.go:88-147 | The stage invariant behind these, in every serial schedule: which of the logs still owes the latest status |
| PaymentMoney.RefundsAreCovered | payment-service/internal/payment/repository.go:144-151 | Whatever fails, the refunds table never totals more than the payments that reached succeeded |
| PaymentMoney.RefundsBalance | payment-service/internal/payment/repository.go:134-153 | Without faults it totals exactly the payments now refunded |
| PaymentMoney.RefundedOnceAfterSuccess | payment-service/internal/payment/service.go:180-202 | A payment has at most one refund row, and none unless success was written for it |
| PaymentCauses.EveryWriteHasItsCause | payment-service/internal/payment/service.go:96-112 | In every schedule: a success is written because the provider charged the payment with that result or because a Confirm was asked for with that transaction, a failure because the provider declined, a refund or cancellation because it was asked for with that reason |
| PaymentCauses.SuccessWasCharged | payment-service/internal/payment/service.go:235-238 | In every schedule, a payment that reached succeeded and was never asked to be confirmed had a successful charge |
| PaymentCauses.RefundsWereCharged | payment-service/internal/payment/repository.go:144-151 | With no Confirm, the refunds table never totals more than the payments that the provider charged successfully |
| PaymentCauses.UnchargedRefund | payment-service/internal/payment/service.go:221-241 | With a Confirm it can: for every checkout, a Create that loses its first publish, a Confirm and a Refund refund the whole amount without any charge |
| PaymentService.Service.Create | payment-service/internal/payment/service.go:55-148 | The method, with its up to ten remote calls, is the Create call of the protocol carried to its end |
| PaymentService.Service.Refund | payment-service/internal/payment/service.go:175-219 | The method is the Refund call of the protocol, with its state checks |
| PaymentService.Service.Confirm | payment-service/internal/payment/service.go:221-255 | The method is the Confirm call; a succeeded payment is returned as it is |
| PaymentService.Service.Cancel | payment-service/internal/payment/service.go:257-284 | The method is the Cancel call; only refunded and cancelled payments refuse it |
| PaymentService.Service.InsertRow | payment-service/internal/payment/repository.go:31-43 | The whole new state of an insert: nothing on a conflict of id or key, else the row |
| PaymentService.Service.UpdateRow | payment-service/internal/payment/repository.go:114-132 | The whole new state of an update: only status, transaction and reasons change, and only of a row that exists |
| PaymentService.MethodCallIsARun | payment-service/internal/payment/service.go:55-148 | A client that calls one method at a time produces a serial schedule, with the method's reply and state, so every theorem about those holds of it |
| PaymentService.RepeatReturnsRowIffEntryLive | payment-service/internal/payment/service.go:60-83 | Without faults a repeated Create changes nothing, and returns the stored payment iff the key's entry is live, else a conflict |
| PaymentService.OverlapBreaksJourneys | payment-service/internal/payment/repository.go:115-122 | Why: an overlapping Refund and Cancel write refunded and then cancelled |
| PaymentResults.CreateIsRefusedIff | payment-service/internal/payment/service.go:56-58 | Whatever the environment does, a Create is refused as invalid iff an id, the address or the key is empty, the amount is not positive or the method is not card, kaspi or wallet; it then leaves nothing |
| PaymentResults.FirstCreateLeaves | payment-service/internal/payment/service.go:66-147 | A first Create without faults, with the production provider: the row, the Redis entry, the reply and eight effects, with every field of every event and e-mail written out, the decline's reason among them |
| PaymentResults.UndecidedCreateLeaves | payment-service/internal/payment/service.go:96-109 | A provider that neither charges nor declines: the payment stays pending, its charge behind it, and the call fails |
| PaymentResults.RefundGoesThroughIff | payment-service/internal/payment/service.go:175-219 | Without faults a refund goes through iff id and reason are given and the stored payment is succeeded; row, event, refund row, message, e-mail and reply field by field, and the error otherwise |
| PaymentResults.ConfirmGoesThroughIff | payment-service/internal/payment/service.go:221-255 | The same of a confirmation: of a pending payment; a succeeded one is answered unchanged |
| PaymentResults.CancelGoesThroughIff | payment-service/internal/payment/service.go:257-284 | The same of a cancellation: of any payment but a refunded or cancelled one |
| PaymentResults.FaultEndsTheCall | payment-service/internal/payment/service.go:80-146 | A lost remote call leaves nothing, one whose answer is lost leaves what it does, and either ends the call with an error |
| PaymentResults.FaultsOnlyCutShort | payment-service/internal/payment/service.go:55-148 | So a call under faults does all that it would do without them, or fails and leaves the first of its effects |
| OrderTotal.AddUp | order-service/internal/order/service.go:33-44 | The loop rejects exactly the inputs with no item or one without product, with no positive quantity or with a negative price, and otherwise returns the true sum reduced to 64 bits |
| OrderTotal.TotalOfOne | order-service/internal/order/service.go:43 | An item counts quantity times price |
| OrderTotal.TotalOfConcat | order-service/internal/order/service.go:39-44 | And the true sum of two parts of an order is the sum of theirs: every item counts |
| OrderTotal.StoredOfConcat | order-service/internal/order/service.go:38-44 | The stored totals of two parts add up, in 64 bits, to that of the whole |
| OrderTotal.StoredIsTrueIffItFits | order-service/internal/order/service.go:38-44 | The stored total is the true sum iff that is below 2^63, and the true sum is never negative |
| OrderTotal.SmallOrdersAreExact | order-service/internal/order/service.go:38-44 | n items of quantity at most q and price at most p are exact when n * q * p is below 2^63 |
| OrderTotal.HugeOrderIsStoredAsSmall | order-service/internal/order/service.go:43 | An accepted order whose true total exceeds 2^64 is stored with total 4 |
| OrderHistory.HistoryAccountsForStatus | order-service/internal/order/repository.go:111-141 | In every interleaving: history starts with the creation, its last row enters the order's status, each row leaves a status entered before, and a cached status is one the order has had |
| OrderHistory.SerialHistoryReplays | order-service/internal/order/service.go:85-93 | With the order's calls serialised, replaying its history row by row succeeds and ends at its status |
| OrderService.Service.Create | order-service/internal/order/service.go:33-66 | The method is the Create call of the protocol: validation, 64-bit total, transaction, cached status |
| OrderService.Service.InsertOrder | order-service/internal/order/repository.go:31-63 | The transaction stores the order with all its items and its first history row, or nothing when a constraint fails |
| OrderService.Service.UpdateOrderStatus | order-service/internal/order/repository.go:111-141 | The transaction sets the status and appends the row with the caller's from, or nothing |
| OrderService.Service.UpdateStatus | order-service/internal/order/service.go:80-102 | The method is the manual status change of the protocol |
| OrderService.Service.Cancel | order-service/internal/order/service.go:104-125 | The method is the cancellation of the protocol |
| OrderService.Service.HandlePaymentSucceeded | order-service/internal/order/service.go:127-141 | The handler is the protocol's change to paid with reason payment.succeeded |
| OrderService.Service.HandlePaymentFailed | order-service/internal/order/service.go:143-157 | The handler is the protocol's change to payment_failed with the message's reason |
| OrderService.MethodCallIsARun | order-service/internal/order/service.go:80-157 | A method call is a stretch of a schedule that stays serial for every order |
| OrderResults.CreateGoesThroughIff | order-service/internal/order/service.go:33-66 | When the database works, exactly which inputs the service and which orders the tables accept; the order as created with its 64-bit total, its first history row and the cached status, field by field |
| OrderResults.UpdateStatusGoesThroughIff | order-service/internal/order/service.go:80-102 | A manual change goes through iff the id is given, the status is one of the six and the order is stored; order, history row with reason "manual status update" and cache are then at the requested status |
| OrderResults.CancelGoesThroughIff | order-service/internal/order/service.go:104-125 | A cancellation goes through iff the stored order is neither completed nor cancelled; it is then canceled with the caller's reason |
| OrderResults.PaymentSucceededGoesThroughIff | order-service/internal/order/service.go:127-141 | A payment's success makes any stored order paid, with reason "payment.succeeded" |
| OrderResults.PaymentFailedGoesThroughIff | order-service/internal/order/service.go:143-157 | A payment's failure makes any stored order payment_failed, with the message's reason |
| OrderResults.FaultEndsTheCall | order-service/internal/order/repository.go:111-141 | A lost transaction or read leaves nothing, one whose answer is lost leaves what it does, and either fails the call; a fault of the cache is not reported |
| OrderConsumer.Consumer.Start | order-service/internal/messaging/nats.go:60-82 | Stops at the first failed subscription, else subscribes every subject that changes orders |
| OrderConsumer.Consumer.Receive | order-service/internal/messaging/nats.go:90-106 | A success message is the success handler's call for its order, a failure message the failure handler's with the message's reason; an undecodable message and a stock message change nothing |
| Settlement.PaidOnlyForSuccess | order-service/internal/order/service.go:127-141 | In every joint run with lost, repeated and reordered messages, a history row that says payment.succeeded made the order paid has behind it a payment of that order whose success was written, then recorded, then published |
| Settlement.OrderSettlesAtOutcome | order-service/internal/messaging/nats.go:60-66 | An order with one payment, whose calls are serialised, and no manual change is still created or at that payment's published outcome, and every later history row says the same |
| Settlement.HandledOutcomeSettles | order-service/internal/order/service.go:127-157 | And it gets there: once an outcome message of a stored order has been delivered, read and written without a fault, however that interleaves with everything else, the order is at that outcome at every later moment of such a run |
| Settlement.HandledOutcomeIsRecorded | order-service/internal/messaging/nats.go:91-100 | In every joint run, a delivered outcome of a stored order whose read and transaction work leaves its history row: from the status read to paid with "payment.succeeded", or to payment_failed with the message's reason |
| Settlement.FailureMessageGivesReason | payment-service/internal/payment/service.go:116-121 | With an honest provider that reason is the non-empty failure reason of a payment of the order that was written as failed |
| Settlement.OneOutcome | payment-service/internal/payment/service.go:120-137 | Such a payment never publishes both a success and a failure |
| Settlement.SidesAreRuns | order-service/internal/messaging/nats.go:91-100 | Each side of a joint run is a run of its own, so all its theorems carry over |
| GatewayLimiter.AtMostTwiceTheLimit | api-gateway/internal/gateway/redis_limiter.go:23-45 | In every interleaving of increments, separate and failing expiries and evictions, a half-open interval one window long holds at most 2 * limit - 1 allowed calls |
| GatewayLimiter.BoundIsReached | api-gateway/internal/gateway/redis_limiter.go:31-36 | For every positive limit and every window of at least two ticks there is a run and an interval that hold exactly that many |
| GatewayLimiter.AtMostTwoLives | api-gateway/internal/gateway/redis_limiter.go:31-36 | Two increments less than a window apart are in the same life of the key or in consecutive ones, and in the latter case the first is not its life's first |
| GatewayLimiter.AllowedAreTheFirst | api-gateway/internal/gateway/redis_limiter.go:29-42 | In every interleaving, a call that is allowed is among the first limit increments of its life of the key, and one that is rejected is not |
| GatewayLimiter.Limiter.Allow | api-gateway/internal/gateway/redis_limiter.go:19-46 | When the call fails, and otherwise its answer, remaining count, retry time and the key it leaves, as numbers; the method is an increment and, when needed, an expiry of the protocol, and the bound holds of every client |
| LoginLimiter.SetAndDroppedAreTheLog | user-service/internal/redis/client.go:59-64 | In every run, with attempts overtaking one another between timestamp and pipeline, faults, expiry and resets: what the set holds and what it has dropped are together the attempts recorded since the last reset, and nothing is dropped before its time |
| LoginLimiter.RecordedIff | user-service/internal/redis/client.go:62 | A timestamp counts as recorded iff an attempt with it was recorded and no reset has come since |
| LoginLimiter.CountIsOfTheLogIff | user-service/internal/redis/client.go:60-61 | The pruned set counts what filtering the full log by the trailing window would, iff nothing dropped lies in that window |
| LoginLimiter.RunsInOrderArePunctual | user-service/internal/redis/client.go:57-64 | That is so whenever no pipeline has used a later timestamp and the set has not expired since the attempt read its own |
| LoginLimiter.PrunedSetIsTheLog | user-service/internal/redis/client.go:55-75 | In every run whose answered attempts are punctual in that sense, each answer is the one the full log gives, whatever else fails, expires or is reset |
| LoginLimiter.AtMostSixInstants | user-service/internal/user/service.go:127-134 | Of attempts so decided, those let through in any window-long half-open interval with no reset among them are at no more than six instants |
| LoginLimiter.AtMostSixAttempts | user-service/internal/user/service.go:127-142 | So at most six attempts that the limiter answered reach the password check when timestamps differ; attempts that go on after a limiter error are not counted |
| LoginLimiter.QuietIntervals | user-service/internal/user/service.go:140-142 | No reset runs among them if none runs in the interval and its attempts run inside it |
| LoginLimiter.OvertakenAttemptPasses | user-service/internal/redis/client.go:57-64 | Why attempts must not be overtaken: one whose window's attempts a later-stamped pipeline has pruned passes, however many they are |
| LoginLimiter.SevenPass | user-service/internal/redis/client.go:57-64 | A run with distinct timestamps, no fault and no reset in which seven attempts of one interval pass |
| LoginLimiter.SameInstantIsUnbounded | user-service/internal/redis/client.go:62 | With equal timestamps any number of attempts pass |
| LoginLimiter.Limiter.CheckLoginRateLimit | user-service/internal/redis/client.go:55-75 | Reads its timestamp and later runs its pipeline; when the set outlives the time between, the answer is the number of attempts of the log in the window that trails the timestamp |
| LoginLimiter.Limiter.ResetLoginRateLimit | user-service/internal/redis/client.go:77-79 | Clears the set, unless the delete is lost |
| LoginLimiter.AttemptLeaves | user-service/internal/redis/client.go:59-64 | What one attempt does to the set, its expiry and the log: pruned by fifteen minutes before its timestamp, itself added, renewed for fifteen minutes; it passes when it cannot be counted or at most five are left |
| LoginLimiter.Limiter.Login | user-service/internal/user/service.go:121-142 | The answer and the limiter's new state in every case; logins one at a time stay within six instants as long as no set expires between a timestamp and its pipeline |
| ReviewCache.RatingsWereExact | review-service/internal/review/service.go:103-130 | In every interleaving with cache faults and expiry, each rating answered or published is the exact aggregate of a state the table has been in, between 1 and 5, or 0 without reviews |
| ReviewCache.CacheIsCurrentOrPending | review-service/internal/review/service.go:107-125 | With harmless faults and safe fills, a cached rating differs from the table's only while a writer of that product has changed a row and not yet deleted the entry |
| ReviewCache.AtomicReadsAreCareful | review-service/internal/review/service.go:112-118 | When every fill follows its query at once, harmless faults are enough for that |
| ReviewCache.WriteGoesStaleIff | review-service/internal/review/service.go:122-125 | A lone writer leaves a current rating stale, with nobody to delete it, iff it changed the rating and its write is done but reported as failed or its delete is lost |
| ReviewCache.CreateGoesStaleIff | review-service/internal/review/service.go:41-45 | A create always changes the rating, so only the faults decide |
| ReviewCache.UpdateGoesStaleIff | review-service/internal/review/service.go:77-81 | An update changes it iff the stars differ |
| ReviewCache.DeleteGoesStaleIff | review-service/internal/review/service.go:93-96 | A delete always changes it |
| ReviewCache.UnsafeFillGoesStale | review-service/internal/review/service.go:112-118 | A fill that an update has overtaken leaves the old rating cached with nobody to delete it |
| ReviewRating.OtherProductsKeep | review-service/internal/review/repository.go:67-96 | A write of one review changes the rating of no product but its own |
| ReviewRating.CreateShifts | review-service/internal/review/repository.go:31-37 | A create adds one to its product's count and the rating to its sum |
| ReviewRating.UpdateShifts | review-service/internal/review/repository.go:67-76 | An update keeps its product and count and moves the sum by the difference |
| ReviewRating.DeleteShifts | review-service/internal/review/repository.go:78-87 | A delete takes one from the count and the rating from the sum |
| ReviewRating.AverageInRange | review-service/internal/review/repository.go:89-96 | The average is between 1 and 5, or 0 without reviews |
| ReviewRating.RatingIsTheMean | review-service/internal/review/repository.go:92 | List the product's reviews in any order without repetition: their number is the count, and their stars add up to the average times it |
| ReviewRating.Aggregate | review-service/internal/review/repository.go:89-96 | Adding the rows up in any order gives the aggregate |
| ReviewService.Service.Create | review-service/internal/review/service.go:35-50 | The method is the protocol's create followed by the rating change |
| ReviewService.Service.Update | review-service/internal/review/service.go:66-86 | The method is the protocol's update of rating and comment, for the product of the row it read |
| ReviewService.Service.Delete | review-service/internal/review/service.go:88-101 | The method is the protocol's delete |
| ReviewService.Service.RatingChanged | review-service/internal/review/service.go:122-130 | Deletes the entry and publishes the current rating; neither failure is reported |
| ReviewResults.CreateGoesThroughIff | review-service/internal/review/service.go:35-50 | When the database works, exactly which reviews are accepted; the row is stored as given, the entry deleted and the new rating published as far as those calls work |
| ReviewResults.UpdateGoesThroughIff | review-service/internal/review/service.go:66-86 | The same of an update: stars and comment change, product and customer stay |
| ReviewResults.DeleteGoesThroughIff | review-service/internal/review/service.go:88-101 | The same of a delete |
| ReviewResults.RatingAnswers | review-service/internal/review/service.go:103-120 | Under any faults: a readable entry is the answer, otherwise the table's rating, which is cached unless that is lost; only a failed query is an error |
| ReviewResults.TableFaultEndsTheCall | review-service/internal/review/service.go:41-44 | A lost write leaves nothing, one whose answer is lost leaves its row, and neither reaches the cache |
| ReviewService.Service.Rating | review-service/internal/review/service.go:103-120 | The method is the protocol's cache-aside read; the rating it answers is of that product, was the exact aggregate of a state the table has been in, and is between 1 and 5, or 0 without reviews |
| ReviewService.MethodCallIsARun | review-service/internal/review/service.go:35-130 | A method call is a stretch of a schedule, and without faults of a careful one, so the theorems hold of every client |
| ReviewService.RestingCacheIsCurrent | review-service/internal/review/service.go:107-125 | After a careful run with no call under way, every cached rating is the table's |
| RefreshTokens.AcceptedAtMostOnce | user-service/internal/user/service.go:245-277 | With an injective hash and uses of one string not overlapping, everything else interleaving freely: a string is accepted at most once, and once more for each time that its delete failed unnoticed |
| RefreshTokens.OverlapAcceptsTwice | user-service/internal/user/service.go:248-263 | Why: two refreshes that both read the row before either deletes it are both accepted |
| RefreshTokens.OwnAlways | user-service/internal/user/service.go:363-372 | In every interleaving, a stored token is an issued string of its own user, and only issued strings are ever accepted |
| RefreshTokens.RotationKeepsCount | user-service/internal/user/service.go:263-265 | An undisturbed refresh whose delete and save take effect replaces one stored token of the user by another, even when only the acknowledgement of the save is lost |
| RefreshTokens.RevocationIsFinal | user-service/internal/user/service.go:289 | In every interleaving, once a logout or a password reset has deleted the user's tokens, no string issued to the user before is ever accepted again, if no refresh is just reading it |
| RefreshTokens.RevocationMissesAReader | user-service/internal/user/service.go:258-263 | And only if: a refresh that has read the row is still accepted after the revocation |
| TokenResults.RegisterGoesThroughIff | user-service/internal/user/service.go:70-118 | A registration goes through iff the address is free; the new user, address and a token for thirty days, field by field |
| TokenResults.LoginGoesThroughIff | user-service/internal/user/service.go:144-155 | A login that passed the checks gets a new token of the address's user for thirty days |
| TokenResults.RefreshGoesThroughIff | user-service/internal/user/service.go:245-277 | A refresh goes through iff the token is stored, not past its expiry and of a user that exists: it is replaced by a new one for thirty days; an expired one is purged |
| TokenResults.LogOutLeaves | user-service/internal/user/service.go:279-296 | A logout leaves exactly the tokens of other users but the presented one |
| TokenResults.ForgotPasswordLeaves | user-service/internal/user/service.go:298-315 | For a known address the hash of the drawn string, good for an hour, replaces the user's reset token; for an unknown one nothing changes; the answer is the same |
| TokenResults.ResetGoesThroughIff | user-service/internal/user/service.go:317-345 | A reset goes through iff the string's hash is the stored one and unexpired; the reset token is used up and all tokens of the user are gone |
| TokenResults.ForgottenThenReset | user-service/internal/user/service.go:304-323 | The string that a ForgotPassword drew, and no other, resets the password, at every moment within the hour and at none after it |
| TokenResults.FaultLeaves | user-service/internal/user/repository.go:245-255 | A lost remote call leaves nothing, one whose answer is lost leaves what it does |
| TokenResults.FaultIsReportedIff | user-service/internal/user/service.go:253-289 | Exactly which faults go unreported: those of deletes and of looking up an address to register or to remind |
| RefreshTokens.MethodCallIsARun | user-service/internal/user/service.go:245-345 | A client that calls one method at a time produces a run whose uses of every string do not overlap |
| RefreshTokens.UserService.RefreshToken | user-service/internal/user/service.go:245-277 | The method is the protocol's refresh, and succeeds iff the string is stored, unexpired and of a user that exists, and the reads and the save succeed |
| RefreshTokens.UserService.Register | user-service/internal/user/service.go:70-98 | The method is the protocol's registration: an address that is found is refused, a failed lookup is not an error, and the unique constraint has the last word; then a token |
| RefreshTokens.UserService.Login | user-service/internal/user/service.go:121-147 | Around the limiter and the password check: an address that is not found is refused, one that is gets a new token of its user |
| RefreshTokens.UserService.LogOut | user-service/internal/user/service.go:284-289 | The method is the protocol's logout |
| RefreshTokens.UserService.ForgotPassword | user-service/internal/user/service.go:298-315 | An unknown address is answered like a known one; for a known one the call fails iff saving the reset token, good for an hour, fails |
| RefreshTokens.UserService.ResetPassword | user-service/internal/user/service.go:317-345 | The method is the protocol's reset, and succeeds iff the reset token matches, is unexpired and the password is written |
| RefreshTokens.UserService.GenerateTokenPair | user-service/internal/user/service.go:363-376 | The refresh half of the pair: a new string's row, or a refusal |
| RefreshTokens.UserService.SaveRefreshToken | user-service/internal/user/repository.go:203-217 | The token's row, under its hash, with its user and a 30-day expiry |
| RefreshTokens.UserService.DeleteRefreshToken | user-service/internal/user/repository.go:245-249 | Removes the row of one hash |
| RefreshTokens.UserService.DeleteUserRefreshTokens | user-service/internal/user/repository.go:251-255 | Removes all rows of one user and no other |
| AccessTokens.BlacklistIsPermanent | user-service/internal/user/service.go:215-243 | At every moment a token is accepted iff it was issued, is before its exp and, as far as the lookup works, was never blacklisted, although entries expire |
| AccessTokens.RevokedForGood | user-service/internal/user/service.go:279-282 | Once a blacklist write has landed, no later validation with a working lookup accepts the token |
| AccessTokens.AcceptedIff | user-service/internal/user/service.go:350-355 | At every moment of every run, a token is accepted for a user iff it was issued to that user, less than seven days ago in whole seconds, and, as far as the lookup works, no blacklist write for it has ever landed |
| AccessTokens.TokenService.IssueToken | user-service/internal/user/service.go:350-361 | The claims of a new token: the user, and an exp seven days on in whole seconds |
| AccessTokens.TokenService.ValidateToken | user-service/internal/user/service.go:215-243 | Accepted iff issued, before its exp and, as far as the lookup works, never revoked; the answer is the user it was issued to |
| AccessTokens.TokenService.BlacklistToken | user-service/internal/redis/client.go:43-45 | The entry is set for seven days, unless lost |
| Stock.StockIsNeverNegative | product-service/internal/product/service.go:90-131 | In every interleaving of reads and whole-row writes no stored stock is negative; for the in-memory store, when no release overflows |
| Stock.StockBalances | product-service/internal/product/service.go:70-131 | With a product's writes serialised, its stock is the last created or set value plus later releases minus later reservations |
| Stock.MethodCallIsARun | product-service/internal/product/service.go:70-131 | A method call is a stretch of a run that stays serialised for every product |
| Stock.ReleaseStaysIffItFits | product-service/internal/product/service.go:121-122 | A release of the in-memory store leaves a stock that is not negative, and is the sum, iff the sum is below 2^63 |
| Stock.OverlapLosesAReservation | product-service/internal/product/repository.go:60-68 | Why: two overlapping reservations are both granted and one is lost |
| StockResults.CreateGoesThroughIff | product-service/internal/product/service.go:35-57 | Which products the service and the stores accept, and what is stored |
| StockResults.UpdateStockGoesThroughIff | product-service/internal/product/service.go:70-88 | When a stock is set, to what, and that name and price stay; the error otherwise |
| StockResults.ReserveStockGoesThroughIff | product-service/internal/product/service.go:90-111 | When a reservation is granted: the stock falls by exactly the quantity, name and price stay |
| StockResults.ReleaseStockGoesThroughIff | product-service/internal/product/service.go:113-131 | When a release is stored: the 64-bit sum, and in Postgres only up to 2^31 - 1; name and price stay |
| StockResults.FaultEndsTheCall | product-service/internal/product/repository.go:142-155 | A lost access leaves nothing, one whose answer is lost leaves what it does, and either fails the call |
| StockResults.OtherColumnsStay | product-service/internal/product/repository.go:142-155 | Over Postgres, however stock changes interleave and fail, a product keeps its name and price |
| Stock.Service.Create | product-service/internal/product/service.go:35-57 | The method is the protocol's create |
| Stock.Service.UpdateStock | product-service/internal/product/service.go:70-88 | The method is the protocol's set |
| Stock.Service.ReserveStock | product-service/internal/product/service.go:90-111 | The method is the protocol's reservation, refused when the stock read is too small |
| Stock.Service.ReleaseStock | product-service/internal/product/service.go:113-131 | The method is the protocol's release, with 64-bit wrap-around |
| Stock.Service.WriteRow | product-service/internal/product/repository.go:142-155 | The whole new state of a write: nothing when a Postgres check fails, else the row |

## Left out

- Transport: gin, net/http and gRPC handlers, JSON codecs, generated clients, start-up and retry loops.
- Queries, search, paging, listings, product images and MinIO storage, which rest on SQL and library semantics.
- SMTP delivery: an e-mail is an entry in an effect log, or a failure.
- Payment and order timestamps (created, updated, occurred at), which no modelled branch reads.
- The wording of errors: the model keeps one value per kind, and a failed remote call of any kind is Unavailable.
- Events that orders, products, reviews and users publish about themselves: their failures are ignored or logged and nothing modelled consumes them; product.stock.reserved reaches a handler that only reads.
- Random and clock-derived identifiers are parameters. A review id is not used again after its deletion, refresh strings and access tokens are new when issued, and SHA-256 is an injective function.
- Passwords, bcrypt and JWT signatures: a token is a record of its claims, and the string stands for its signature.
- The user profile cache and its background goroutines, which give weaker claims than the review cache.
- Memory eviction or a flush of Redis outside key expiry, for the limiters and the blacklist; the idempotency and rating entries may vanish at any time.
- Whole-second rounding of Redis TTL and EXPIRE, and the float64 scores of the login limiter's sorted set, which are 256 ns apart at today's clock values.
- float64 rounding of a rating's average: it is a real number here.
- Clocks that run backwards: each service reads one clock that never decreases, although calls may come from several processes.
- The time between reading a clock and the statement that uses it, except in the login limiter: expiry times of tokens are computed at the statement that stores them.
- Other spellings of an access token: the blacklist and the model go by the exact string, while jwt v5.2.0 decodes base64url leniently, so a revoked token whose last signature character is respelled is another string with the same claims.
- The moment of an answer: a call counts for the gateway limiter's interval at its increment, not when its reply is sent.
- NATS queue groups and redelivery: a delivery may carry any message published so far, any number of times, in any order, or never.
- PaymentService.Service.Confirm: does not model the payment that the source returns beside a failed receipt's error; only the error is kept.
- Stock.Service.Create: does not model the description, image and timestamps of a product, which no stock operation reads.
