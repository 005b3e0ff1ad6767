# Verified model of the order service

The order service creates orders idempotently: a client may send the same request as often as it
likes, under one `Idempotency-Key`, and gets one order. This project models the code that keeps that
promise, from the text of an amount of money to the last deferred close, and proves what it does.

## What is modelled

**Concurrent creation** (`Protocol`, `Invariant`, `Safety`, `Progress`, `Outcomes`, `OrderBook`, `Refinement`,
`Guarantees`, `CutKeys`, `Repo`). `Protocol` is a step system: any number of `Create` and `GetByID`
calls share one database and one bounded connection pool. Each statement is one step. So is each
failure: a statement error, a lost connection whose transaction lingers on the server, a commit whose
answer is lost (not applied, applied, or decided later). `OrderBook` is the specification, a map from
keys to orders on which every call acts at one instant; `Refinement` shows that every run of the
protocol is a history of that map. `Repo` contains the code itself in imperative form. There every
statement performs one step of the protocol for its call, and before each statement the other calls
take any number of steps.

**Exact money** (`GoInt`, `Text`, `Money`, `MoneyJson`, `Orders`, `Columns`). Amounts are int64, a type
on which an overflow is a verification error; where Go lets arithmetic wrap, `Wrap` says so. `Parse` and
`Canonical` are the specifications of the parser and the printer; the methods with the loops of the
source are proved equal to them. `Columns` takes amounts and keys through the database and back.

**The edges** (`Handler`, `Postgres`, `Lifecycle`): the HTTP statuses and subtotals, the retry loop that
opens the pool, and the goroutines that end the service.

`Results` and `Bags` hold shared types and facts about sequences. A `hide` statement in a proof only takes
definitions out of the solver's sight.

## Where the code differs from its comments

- `Subtotal is price x quantity, exact in minor units` (internal/order/entity/order.go:37): int64
  multiplication and addition wrap. An order of 1,844,674,408 units at 99,999,999.99 is accepted and gets
  stored with a total of 44,457,739.76. A subtotal is exact if and only if the product fits in an int64,
  a total if and only if the true sum is at most 2^63 - 1 cents.
- The replay path returns whatever the first request stored (internal/order/repo/order-scan.go:28): the
  repository misses the order of a key longer than 255 characters whose excess is spaces, because the
  column cuts it. The handler trims keys, so no HTTP request meets this.
- In-flight requests still have a working pool while they finish (internal/order/app/app.go:85-87): a fatal
  server error returns without a drain, and a drain can time out. The promise holds after these two exits if
  and only if no connection is open when they are taken.
- `ParseMoney` documents plain decimals; the code also accepts `.`, `+`, `-` (all zero) and `+-5` (plus
  five). The grammar in `Money` is the one of the code.

## What is assumed

- PostgreSQL runs at Read Committed (section 13.2.1 of its documentation), the default of `Begin` without
  options: every statement sees the latest committed data and its own writes; an insert of a key held by
  an open transaction waits for its outcome; a transaction becomes visible as a whole. Casts and
  constraints are checked before the conflict. A DECIMAL(10,2) value prints with two decimals. A VARCHAR
  value that is too long is refused unless the excess is spaces (section 8.3).
- Generated ids are fresh. They are numbers here; the syntax of a uuid is not modelled: which texts the
  database reads as one is an arbitrary function of the configuration, and whether the validator of the
  handler takes an id for one is a parameter. Timestamps are arbitrary.
- net/http: serving ends with the closed-server error only after a shutdown was requested; connections are
  accepted only before that and while the listener works; one that is open can bring a request at any time,
  during a drain and after an error exit too; and `Shutdown` returns nil only when no connection is left.
- Waiting is modelled by other parties taking steps; the retry loop gets an arbitrary pattern of outcomes.

## Model

| member | source | states |
|---|---|---|
| Refinement.StepRefines | internal/order/repo/order-postgres.go:77-128 | every step of every call, whether it succeeds or fails, is a step of one atomic create-or-get map: a winner's commit adds the order it submitted, a replay returns the entry of its key, an error changes nothing or adds that order, all else changes nothing |
| Refinement.RunRefines | internal/order/repo/order-postgres.go:77-138 | every interleaving of any number of Create and GetByID calls, with crashes, rollbacks and lost acknowledgements anywhere, is a history of the atomic map from the empty book to the committed orders |
| Refinement.AnsweredOnce | internal/order/repo/order-postgres.go:97-127 | in every run a call that has returned is answered exactly once in that history, with what it returned, and any other call not at all |
| Refinement.CallsActOnce | internal/order/repo/order-postgres.go:77-128 | in that history no call changes the map twice, and an order that appears after its call has returned belongs to a call that was told of an error: an errored Create is one atomic create at most |
| OrderBook.FulfilledLines | internal/order/repo/order-postgres.go:142-165 | product, quantity and price of the lines of a stored order are those submitted, as a multiset |
| OrderBook.CreatedIsFirstAndUnique | docs/adr/0005-idempotency-insert-on-conflict.md:19-23 | in a history of the atomic map created = true is answered once per key, and every later success for the key replays that very order |
| OrderBook.EntriesStay | docs/adr/0005-idempotency-insert-on-conflict.md:19-23 | no entry of the map is ever changed or removed |
| OrderBook.OrdersCanBeReadBack | internal/order/repo/order-postgres.go:131-138 | once a call has been given an order, as new, as a replay or by a read, every later read of its id returns that very order or fails for lack of a database |
| Guarantees.OneWinnerPerKey | internal/order/repo/order-postgres.go:91-127 | in every reachable state at most one Create per stored key has returned created = true |
| Guarantees.SuccessesAgree | internal/order/repo/order-postgres.go:97-127 | all successful Creates for one stored key return the same order (id, owner, total, sequence of items), whatever they submitted and whichever commit acknowledgements were lost |
| Guarantees.AnswersAreCommitted | internal/order/repo/order-postgres.go:117-127 | the order in a successful answer is committed, filed under the caller's key, and equal to what everybody loads |
| Guarantees.WinnersGetTheirOwnOrder | internal/order/repo/order-postgres.go:107-127 | created = true exactly for the author of the order, who gets back precisely what it submitted |
| Guarantees.OrdersAreWhole | internal/order/repo/order-postgres.go:84-125 | every committed order is what one single call submitted, with exactly its multiset of lines, and no item is without its order |
| Guarantees.OneOrderPerCall | internal/order/repo/order-postgres.go:77-128 | no call ever writes two orders, not even one that returned an error |
| Guarantees.OrdersNeverChange | internal/order/repo/order-postgres.go:97-107 | a committed order loads unchanged in every later state |
| Guarantees.ReadsAreWhole | internal/order/repo/order-postgres.go:131-138 | GetByID reads the row and the items in two separate queries and still returns one complete committed order |
| Guarantees.ReplayNeverMisses | internal/order/repo/order-scan.go:30-41 | after an insert that returned no row, the lookup by key finds the committed and complete order if and only if the key has at most 255 characters; otherwise it yields ErrOrderNotFound |
| Outcomes.FailuresAreExplained | internal/order/repo/order-postgres.go:77-138 | no call fails because of money read back from the database or because another call crashed: an error without a sentinel means that the database does not take what the call submitted (Outcomes.AdmissionIsExact) or that one of its own statements failed; a Create reports a missing order only for a key that its column cut |
| Outcomes.SuccessIsAdmitted | internal/order/repo/order-postgres.go:91-123 | a draft that a table refuses is never answered with created = true, and one whose order row is refused never succeeds at all; a replay needs a key of at most 255 characters, a read an id that is a uuid |
| Guarantees.AdmittedOrdersGetStored | internal/order/repo/order-postgres.go:77-128 | for every draft with a uuid as owner, a total above 0 and up to 99,999,999.99, a key of at most 255 characters, and lines with a uuid as product, a quantity from 1 to 2^31 - 1 and a price from 0 to 99,999,999.99, there is a run in which its Create succeeds and the order is stored as submitted |
| Outcomes.AdmissionIsExact | migrations/order/000001_orders.up.sql:16-46 | the two tables admit a draft if and only if owner and products are uuids, the total is above 0 and up to 99,999,999.99, the key has at most 255 characters or only spaces beyond them, every quantity is from 1 to 2^31 - 1 and every price from 0 to 99,999,999.99: a free line is admitted |
| Guarantees.ReloadedOrdersAddUp | internal/order/repo/order-scan.go:83-116 | for every committed order of a validated draft, the subtotals of the reloaded lines, in the order of their ids and in int64 arithmetic, add up to exactly the stored total |
| Guarantees.StoredTotalsAreTrueUpTo63Bits | internal/order/entity/order.go:37-38 | the stored total is the true price of the stored lines if and only if that price is at most 2^63 - 1 |
| Guarantees.AnOverflowingOrderFitsTheColumns | migrations/order/000001_orders.up.sql:19-19 | an order whose total has wrapped around satisfies every constraint of both tables |
| Guarantees.AWrappedTotalIsStored | internal/order/entity/order.go:37-38 | a reachable state in which the stored total is less than the true price of the stored lines, both from drafts that NewOrder let through |
| CutKeys.ReplayOfACutKeyMisses | internal/order/repo/order-postgres.go:97-102 | a run in which the second of two identical requests is told that its order does not exist, for every storable one-line draft whose key the column cuts |
| CutKeys.CutKeysExist | migrations/order/000001_orders.up.sql:30-30 | such a draft passes NewOrder and both tables |
| Safety.StepKeepsInv | internal/order/repo/order-postgres.go:77-165 | every step, failures included, keeps the invariant that ties rows, unique index, open transactions and program points together |
| Safety.SelectedRow | internal/order/repo/order-scan.go:30-34 | the row a call reads back is its own one after winning, and the committed one of its key after losing |
| Safety.TakenKey | migrations/order/000001_orders.up.sql:30-30 | a key in the unique index leads to a committed order with that key |
| Safety.CommittedView | internal/order/repo/order-postgres.go:117-127 | what the winner read back before its commit is what everybody loads after it |
| Safety.ReachableInv | internal/order/repo/order-postgres.go:77-138 | the invariant holds in every reachable state |
| Invariant.CommittedItems | internal/order/repo/order-postgres.go:142-165 | a commit adds to the items of its own order exactly its own rows, and nothing to those of any other order |
| Progress.NoDeadlock | internal/order/repo/order-postgres.go:78-123 | with a pool of any size, as long as a call is unfinished or a transaction unresolved, a step that is not a failure is possible |
| Progress.HolderCanStep | internal/order/repo/order-postgres.go:91-123 | whoever holds a key waits neither for a key nor for a connection |
| Progress.RunsAreBounded | internal/order/repo/order-postgres.go:77-138 | every step lowers a rank, so no run is longer than the rank of its first state |
| Outcomes.EveryCallCanFinish | internal/order/repo/order-postgres.go:77-138 | from every reachable state, steps that are not failures lead to one where all calls have returned and all transactions are resolved; every Create that had not failed before and fits the tables has then succeeded, and every read of a uuid has found its order or learned that there is none |
| Repo.CreateOrder | internal/order/repo/order-postgres.go:77-128 | Create as written, with other calls stepping between any two of its statements: returns what the protocol records; a fresh order is the submitted one and committed, a replay is the committed order of the key; a draft that fits the tables is created or replayed unless one of the call's own statements fails |
| Repo.CreateInTransaction | internal/order/repo/order-postgres.go:90-127 | replay, error, or items, reload and commit, depending on the insert: ends with the answer that the protocol records for the call, or with an error whose rollback is still to come |
| Repo.InsertItems | internal/order/repo/order-postgres.go:142-165 | queues one insert per line and drains the batch; only after all of them does the call go on to read back |
| Repo.LoadOrder | internal/order/repo/order-scan.go:15-41 | row, then items, by id or by key, in the transaction or on the pool: the loaded order or the error with which the call ends |
| Repo.ScanOrder | internal/order/repo/order-scan.go:46-80 | no row becomes ErrOrderNotFound; the total is parsed from its text |
| Repo.CollectItems | internal/order/repo/order-scan.go:90-113 | collects all lines with their parsed prices, or stops at the first price that does not parse |
| Repo.GetByID | internal/order/repo/order-postgres.go:131-138 | as written, under interference: a complete committed order, ErrOrderNotFound or a database error |
| Repo.Database.InsertOrder | internal/order/repo/order-postgres.go:24-28 | given the submitted values, the insert returns an id, or no row for a taken key, or an error |
| Repo.Database.Commit | internal/order/repo/order-postgres.go:103-125 | an acknowledged commit ends the call with the order it has read; an error leaves open whether the commit took effect |
| Repo.Database.Rollback | internal/order/repo/order-postgres.go:84-88 | the deferred rollback ends a failed call and changes nothing after a commit |
| Columns.AmountsAreStoredExactly | internal/order/repo/order-postgres.go:91-94 | the text of an amount is stored as exactly that amount if it fits DECIMAL(10,2), and refused otherwise |
| Columns.StoredAmountsLoadExactly | internal/order/repo/order-scan.go:72-76 | every amount such a column can hold is parsed back unchanged |
| Columns.LinesLoad | internal/order/repo/order-scan.go:91-107 | loading lines never fails on a price and keeps every field |
| Columns.StoredRowsKeepTheOrder | migrations/order/000001_orders.up.sql:16-34 | a row that the orders table admits carries the submitted owner, total and key |
| Columns.StoredRowsKeepTheLine | migrations/order/000001_orders.up.sql:40-46 | a row that the items table admits carries the submitted product, quantity and price |
| Columns.KeysFitOrChange | migrations/order/000001_orders.up.sql:30-30 | a key is stored as it is if and only if it has at most 255 characters; a longer one is cut to its first 255 characters if and only if the rest is spaces, and refused otherwise |
| Columns.AdmittedOrderRows | migrations/order/000001_orders.up.sql:16-34 | the orders table admits exactly a uuid as owner, a total above 0 and up to 99,999,999.99, and a key of at most 255 characters, spaces beyond that aside |
| Columns.AdmittedItemRows | migrations/order/000001_orders.up.sql:40-46 | the items table admits exactly a uuid as product, a quantity from 1 to 2^31 - 1 and a price from 0 to 99,999,999.99 |
| Columns.SortIsAPermutation | internal/order/repo/order-postgres.go:46-50 | ORDER BY id returns the same rows, by ascending id |
| Refinement.LoadedOrderFulfils | internal/order/repo/order-postgres.go:117-121 | a completely written order loads as the submitted one, with its lines as a multiset |
| Money.ParseMoney | internal/order/entity/money.go:28-69 | every text [+][-]digits[.digits] with at most 15 and 2 digits, some part present, gives exactly the amount that it denotes, and every other text ErrInvalidMoney; no int64 overflow in any step, and both failures of ParseInt unreachable |
| Money.ParseAcceptsTheGrammar | internal/order/entity/money.go:28-69 | a text of the grammar with k decimals parses to the amount whose cents times 10^k are 100 times the number that its digits make without the point; it is negative only if the minus is the first character |
| Money.DocumentedForms | internal/order/entity/money.go:25-27 | 10, 10.5 and 10.50 parse to 1000, 1050 and 1050 cents |
| Money.ParseRefusesTheRest | internal/order/entity/money.go:28-69 | every other text yields ErrInvalidMoney |
| Money.IsDigits | internal/order/entity/money.go:121-132 | true exactly for non-empty runs of ASCII digits |
| Money.ParseIntReadsShortDigits | internal/order/entity/money.go:54-61 | ParseInt succeeds on up to 15 digits, with their value |
| Text.ValueIsPositional | internal/order/entity/money.go:54-61 | a run of digits is read in decimal notation |
| Text.TrimmedSides | internal/order/entity/money.go:29-29 | trimming takes away nothing but the characters to be dropped, at the two ends |
| Text.TrimmedEnds | internal/order/entity/money.go:29-29 | after trimming, neither end has a character to be dropped |
| Money.String | internal/order/entity/money.go:73-87 | prints the canonical two-decimal text of every int64, the smallest included |
| Money.StringIsCanonical | internal/order/entity/money.go:71-87 | the printed text has no leading zero, exactly two decimals, a minus only for negative amounts, and denotes the amount |
| Money.CanonicalTextIsUnique | internal/order/entity/money.go:71-87 | there is no other such text |
| Money.DistinctAmountsHaveDistinctTexts | internal/order/entity/money.go:71-87 | two amounts never print the same text |
| Money.ParseOfString | internal/order/entity/money.go:22-23 | parsing a printed amount gives it back if and only if it is at most 10^17 - 1 cents in size; otherwise ErrInvalidMoney |
| Money.ParsedIsPrintable | internal/order/entity/money.go:28-87 | whatever was parsed can be printed and parsed again |
| MoneyJson.MoneyVar.UnmarshalJSON | internal/order/entity/money.go:106-119 | stores the amount that the text denotes, if what is left after trimming spaces, quotes and spaces again is in the grammar of money; otherwise, null included, keeps the old amount and returns ErrInvalidMoney |
| MoneyJson.UnmarshalReadsEveryText | internal/order/entity/money.go:106-119 | the same of the decoded value, with null singled out |
| MoneyJson.MarshalIsAQuotedDecimal | internal/order/entity/money.go:92-101 | an amount is encoded as a JSON string with its canonical text, never as a number |
| MoneyJson.UnmarshalOfMarshal | internal/order/entity/money.go:92-119 | decoding an encoded amount gives it back if and only if it is at most 10^17 - 1 cents in size |
| MoneyJson.NumbersDecodeExactly | internal/order/entity/money.go:103-119 | a JSON number (section 6 of RFC 8259) with k decimals decodes to the amount whose cents times 10^k are 100 times its digits, if it has no exponent and at most 15 and 2 digits, is refused otherwise, and decodes the same when quoted |
| MoneyJson.ReencodingIsAFixedPoint | internal/order/entity/money.go:92-119 | encoding a decoded value and decoding it again changes nothing |
| Orders.NewOrder | internal/order/entity/order.go:62-98 | accepts exactly the orders with an owner, a key, lines, a product, a positive quantity and a price from 0 in every line, and a positive wrapped sum; the order is pending, carries what was submitted, and its total is the true sum modulo 2^64; the error is ErrInvalidOrder |
| Orders.OrderRules | internal/order/entity/order.go:62-98 | an order is accepted if and only if it has an owner, a key and lines, in every line a product, a positive quantity and a price from 0 (a free line is accepted), and a positive wrapped sum; it is pending, carries what was submitted, and its total is congruent to the true sum modulo 2^64; the error is ErrInvalidOrder |
| Orders.SumIgnoresOrder | internal/order/entity/order.go:73-85 | the sum does not depend on the order of the lines |
| Orders.AddedSubtotals | internal/order/entity/order.go:37-38 | adding int64 subtotals one by one gives the true sum modulo 2^64 |
| Orders.SubtotalIsExactInInt64 | internal/order/entity/order.go:37-38 | a subtotal is price times quantity if and only if that product fits in an int64 |
| GoInt.WrapIsUnique | internal/order/entity/money.go:89-90 | what a multiplication or addition of two amounts gives is the only int64 congruent to the true result modulo 2^64 |
| Orders.TotalIsExactUpTo63Bits | internal/order/entity/order.go:73-89 | the total of an accepted order is its true sum if and only if that sum is at most 2^63 - 1 |
| Orders.AnOverflowingOrderIsAccepted | internal/order/entity/order.go:87-89 | an order worth more than 2^64 cents is accepted with a total of 44,457,739.76 |
| Handler.Create | internal/order/controller/http/order-handler.go:41-90 | 400 without a key or with an invalid order; 201 exactly for a new order, which shows the owner, the trimmed key and the items of the request with product, quantity and price each, and their sum; 200 exactly for a replay; 500 otherwise, never 404, and not at all for a request that fits the tables if the call's own statements work; the subtotals shown add up to the total shown, for a replay provided that all stored drafts came from NewOrder |
| Handler.Get | internal/order/controller/http/order-handler.go:93-113 | 400 for an id that is no uuid, 404 if there is no such order, 200 with the committed order if there is one, 500 only if one of the call's own queries fails or the database does not read the id as a uuid |
| Handler.OneCreatedPerHeader | internal/order/controller/http/order-handler.go:44-81 | of all requests whose headers agree up to surrounding spaces, at most one is answered 201, and all that succeed get the same order |
| Handler.HttpReplaysAlwaysFind | internal/order/controller/http/order-handler.go:44-50 | with a trimmed key the lookup after a conflict always finds the order |
| Handler.TrimmedKeysAreNotCut | internal/order/controller/http/order-handler.go:44-44 | the column never cuts a trimmed key |
| Handler.ToEntityItems | internal/order/controller/http/dto.go:31-42 | one line per item of the body, in order, with the product, the quantity and the price of that item |
| Handler.NewOrderResponse | internal/order/controller/http/dto.go:65-88 | copies the order and gives every line its subtotal; the subtotals add up to the true sum modulo 2^64 |
| Postgres.Postgres.ConnectWithRetry | pkg/postgres/postgres.go:100-133 | for every pattern of failures: a pool exactly if the final attempt succeeded, one warning per failed attempt, one completed wait between two attempts, and no pool but the returned one left open |
| Postgres.FinalIsFirst | pkg/postgres/postgres.go:104-130 | the final attempt is the first that succeeds, is the last allowed, or is followed by a cancellation |
| Postgres.Postgres.TryConnect | pkg/postgres/postgres.go:138-153 | a pool whose ping fails is closed before the error is returned |
| Postgres.New | pkg/postgres/postgres.go:60-96 | for every list of options, each limit of the pool is the argument of the last option for it, or 25 connections, 5 kept idle, 1 hour and 30 minutes; the idle connections are lowered to the limit; on an error nothing is returned and no pool is open |
| Postgres.LastOptionWins | pkg/postgres/options.go:10-43 | of several options for one setting the last one decides |
| Postgres.DefaultsStay | pkg/postgres/postgres.go:20-29 | a setting without an option has its default: 25, 5, 5, 5 s, 1 s, 1 h, 30 min |
| Postgres.OnlyTheLimit | internal/order/app/app.go:114-119 | with the limit as the only option, as the service passes it, every other setting has its default |
| Postgres.WaitsAreExact | pkg/postgres/postgres.go:124-126 | for every backoff r, zero and negative ones included, the waits are r, 2r, 4r, ... if and only if the last of them fits in a Duration |
| Postgres.WaitsAddUp | pkg/postgres/postgres.go:124-126 | k exact waits take r(2^k - 1) together, whatever the sign of r |
| Postgres.DefaultBackoff | pkg/postgres/postgres.go:21-29 | under the defaults the waits are the first of 1, 2, 4 and 8 seconds, exact, and add up to 2^k - 1 seconds after k of them, at most 15 |
| Lifecycle.TheServeGoroutineNeverBlocks | pkg/httpserver/server.go:57-65 | in every interleaving the goroutine can report and close without a receiver |
| Lifecycle.NotifyDeliversAnError | internal/order/app/app.go:93-97 | the notify branch of the select always receives a real error, never the nil of a closed channel |
| Lifecycle.CleanExitIsDrained | internal/order/app/app.go:85-109 | after a clean return no request is in flight, then or later, although requests may arrive on open connections throughout the drain |
| Lifecycle.RequestsMayOutliveThePool | internal/order/app/app.go:88-104 | taking the notify branch or the failed drain can lead to a request in flight on a closed pool if and only if a connection is open at that moment; with a request in flight, closing the pool next is possible and leaves it there |
| Lifecycle.IdleExitsKeepThePool | internal/order/app/app.go:85-109 | in every run whose error exits find no open connection, or find no request and are followed by none, no request is ever in flight on a closed pool |
| Lifecycle.OnlyErrorsAbandonRequests | internal/order/app/app.go:66-109 | never after a clean return, but after each of the two errors, there are runs that end with a request in flight on a closed pool |
| Lifecycle.Service.WaitForShutdown | internal/order/app/app.go:88-109 | returns nil only after a complete drain, and otherwise the error of the server or of the drain |
| Lifecycle.Service.RunToEnd | internal/order/app/app.go:66-83 | the pool is closed after waitForShutdown has returned; if Run returns nil no request is left |

## Left out

- Handler.Create: does not model decoding, struct-tag validation, authentication and the rendering of the body; it starts from a decoded request and ends with a status and the fields of the body.
- Repo.CreateOrder: the error texts and what is printed to standard error are reduced to the sentinel that an error carries; UseCase.Create, which only chains NewOrder and this call, is part of Handler.Create.
- Postgres.Postgres.ConnectWithRetry: logging is reduced to the list of warnings; the logger option and the duration of a ping are not modelled.
- Lifecycle.Service.WaitForShutdown: only calls that return are described; a process that never gets a signal waits for ever.
- A statement that still waits on the server after its client gave up: such a backend can hold a key for a moment before it is aborted, which delays others but writes nothing.
- Bytes that are not valid UTF-8: a string is a sequence of characters here.
- Health, Version, Stat and Close of the pool wrapper, and the options of the HTTP server: one-line accessors and field assignments.
- Order status transitions, optimistic locking and saga compensation: described in the documents, absent from the code.
- The other services (inventory, payment, saga, notification), JWT handling, routing, configuration and logging: skeletons or plumbing.
