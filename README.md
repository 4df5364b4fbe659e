# Wallet ledger of the investment platform server

This project models the wallet ledger that the Express server in `backend/server.js`
runs over its Supabase tables: users with a balance, investments, withdrawal
requests, recharge (deposit) requests and the audit rows of manual balance
adjustments. Each route handler that changes the ledger is one transition: it reads
a row, checks the request in a fixed order, writes a balance, inserts a row and,
when a later store call fails, makes a compensating write.

The model has six modules:

- `Options`: the `Option` type.
- `Plans`: the two copies of the plan catalogue (the listing endpoint's and the
  purchase handler's) and the `find` lookup.
- `Records`: the row types, the 5 % GST split of a withdrawal, the two history
  queries behind the rate limits (purchases since the start of the month,
  withdrawals in the last 24 hours) and the well-formedness of request rows.
- `Handlers`: the tables as a value, and one transition function per route
  handler. Each gives the response and the tables afterwards, from the tables
  before, the request's inputs and the set of store calls that fail. Each contract
  states:
  - when the request succeeds (both directions);
  - the exact new tables on success;
  - that every refusal leaves the tables unchanged, except where a compensating
    write itself fails.
- `Properties`: that every handler keeps the table invariant `Consistent`, and
  that balances stay non-negative (`Solvent`) for every handler except the manual
  adjustment. It also proves the multi-request guarantees:
  - one registration per email;
  - one purchase per calendar month;
  - one withdrawal request per 24 hours;
  - rejection refunds, approval credits;
  - requests are decided once;
  - opposite adjustments cancel.
- `Ledger`: the class `Wallets`, whose fields are the tables. Per handler it has:
  - a `...Steps` method that makes the store calls one by one on the fields and
    is proved to return exactly the response, and leave exactly the tables, that
    the transition function describes;
  - a route method that keeps the class invariant `Valid()` around that call.

Store calls are abstract. Each call a handler makes is named by its role
(`Lookup`, `QueryHistory`, `WriteBalance`, `InsertRow`, `RestoreBalance`,
`WriteStatus`, `IncrementBalance`, `RestoreStatus`), and a `failing` set says
which of them fail. A failing call has no effect and makes the handler take its
error path, except the calls whose failure the handlers ignore: the balance restore
after a failed insert (backend/server.js:353-356, 479-482), the status revert after a
failed credit (789-795), the refund on rejecting a withdrawal (953-956) and the audit
insert of an adjustment (1034-1037). Money is an exact `real`; times are integer
milliseconds, and the current time and the start of the current month are parameters.

What `backend/server.js` does, and the model with it:

- The withdrawal GST is 5 % of the gross amount (backend/server.js:444).
- A withdrawal is checked against the user's balance itself (backend/server.js:421);
  the server keeps no separate withdrawable balance and credits no daily income.
- The failed calls listed above are logged and otherwise ignored; nothing is retried
  or escalated.

## Model

| member | source | states |
|---|---|---|
| Plans.FindPlan | backend/server.js:292 | the plan found is the first in the catalogue with the requested id, and one is found exactly when some plan has that id |
| Plans.ListedPlansPayOff | backend/server.js:221-254 | every listed plan's total return is its daily income times its duration, and exceeds its price |
| Plans.CataloguesAgree | backend/server.js:285-290 | the purchase handler's catalogue has the listed plans' ids, names and prices in the same order |
| Plans.PurchaseLookup | backend/server.js:285-296 | the purchase lookup succeeds exactly for plan ids 1 to 4, and then yields that listed plan's id, name and price |
| Plans.FoundPricePositive | backend/server.js:285-292 | every plan the purchase handler can find costs a positive amount |
| Records.Split | backend/server.js:444-445 | GST and net amount add up to the gross amount exactly, GST is one twentieth of it, and for a positive amount both parts are positive with GST below net |
| Records.PurchasesSince | backend/server.js:308-312 | the query returns exactly the user's investments purchased at or after the given instant |
| Records.WithdrawalsSince | backend/server.js:428-432 | the query returns exactly the user's withdrawals requested at or after the given instant |
| Records.PurchasesSinceAppend | backend/server.js:308-312 | appending an investment extends the purchase query's answer by that row exactly when it is the user's and recent enough |
| Records.SpacedAppend | backend/server.js:426-441 | a withdrawal recorded only when its user has none in the preceding 24 hours keeps every user's withdrawals more than 24 hours apart |
| Handlers.Register | backend/server.js:79-118 | registration succeeds exactly when the email lookup and the insert succeed and no user has the email; the first that fails decides the error (failed lookup, email taken, failed insert); on success exactly one user is added, with a fresh id and balance 0, and nothing else changes; a refusal changes nothing |
| Handlers.PurchasePlan | backend/server.js:267-358 | succeeds exactly when the user is found, the plan exists, the balance covers the price, the user has no purchase since the start of the month, and the writes succeed; the checks apply in that order and the first that fails decides the error (lookup failure, invalid plan, insufficient balance, failed history query, monthly limit, failed balance write, failed insert); on success the balance drops by the price to a non-negative value and one active investment with the plan's name and price is appended; every refusal leaves the tables unchanged, and a failed insert restores the balance unless the restoring write fails too |
| Handlers.Withdraw | backend/server.js:398-484 | succeeds exactly when the amount is positive, the user is found, the balance covers the amount, the user has no withdrawal in the last 24 hours, and the writes succeed; the checks apply in that order and the first that fails decides the error (invalid amount, lookup failure, insufficient balance, failed history query, rate limit, failed balance write, failed insert); on success the gross amount is debited, leaving a non-negative balance, and one pending row with the GST split, method and details is appended; every refusal leaves the tables unchanged, and a failed insert restores the balance unless the restoring write fails too |
| Handlers.RequestRecharge | backend/server.js:524-556 | succeeds exactly when the amount is positive, the UTR has at least 5 characters and the insert succeeds, refusing first an invalid amount, then an invalid UTR, then a failed insert; on success one pending recharge is appended and nothing else changes; a refusal changes nothing |
| Handlers.ApproveRecharge | backend/server.js:741-807 | succeeds exactly when the recharge exists and is pending and the status write and the credit succeed; the first that fails decides the error (lookup failure, not found, not pending, failed status write, failed credit); on success it is approved with the processing time and its user is credited its amount; no refusal changes a balance; every refusal other than a failed credit leaves the tables unchanged; after a failed credit the recharge is set back to pending (on a consistent store, exactly the old tables), or, when that write fails too, stays approved with its processing time |
| Handlers.RejectRecharge | backend/server.js:810-856 | succeeds exactly when the recharge exists and is pending and the status write succeeds; the first that fails decides the error (failed fetch, not found, not pending, failed status write); on success only its status and processing time change; a refusal changes nothing |
| Handlers.ApproveWithdrawal | backend/server.js:859-905 | succeeds exactly when the withdrawal exists and is pending and the status write succeeds; the first that fails decides the error (failed fetch, not found, not pending, failed status write); on success only its status and processing time change; a refusal changes nothing |
| Handlers.RejectWithdrawal | backend/server.js:908-966 | succeeds exactly when the withdrawal exists and is pending and the status write succeeds; the first that fails decides the error (failed fetch, not found, not pending, failed status write); on success it is rejected and the gross amount is refunded unless the refund call fails, which is ignored; a refusal changes nothing |
| Handlers.AdjustBalance | backend/server.js:1000-1046 | succeeds exactly when user id, amount and reason are all present and the balance procedure succeeds for a known user, refusing first a missing field, then a failed balance procedure; on success the signed amount is added and an audit row appended unless its insert fails; a refusal changes nothing |
| Properties.RegisterKeepsInvariant | backend/server.js:84-113 | registration keeps ids below the next id, emails unique and every user with a balance |
| Properties.PurchaseKeepsInvariant | backend/server.js:324-358 | a purchase, including its rollback path, keeps every investment an active, positive one of a registered user |
| Properties.WithdrawKeepsInvariant | backend/server.js:426-484 | a withdrawal request keeps every withdrawal well-formed and every user's requests more than 24 hours apart |
| Properties.RequestRechargeKeepsInvariant | backend/server.js:530-550 | a recharge request keeps the tables consistent and changes no balance |
| Properties.ApproveRechargeKeepsInvariant | backend/server.js:766-797 | approval, including its status revert, keeps the tables consistent |
| Properties.RejectRechargeKeepsInvariant | backend/server.js:835-846 | rejecting a recharge keeps the tables consistent |
| Properties.ApproveWithdrawalKeepsInvariant | backend/server.js:884-895 | approving a withdrawal keeps the tables consistent and changes no balance |
| Properties.RejectWithdrawalKeepsInvariant | backend/server.js:933-956 | rejecting a withdrawal keeps the tables consistent |
| Properties.AdjustBalanceKeepsInvariant | backend/server.js:1010-1032 | an adjustment keeps the tables consistent; every audit row is about a registered user, given that the balance procedure fails for an unknown user |
| Properties.RegisterKeepsSolvency | backend/server.js:100-110 | registration keeps every balance non-negative |
| Properties.PurchaseKeepsSolvency | backend/server.js:299-358 | a purchase keeps every balance non-negative |
| Properties.WithdrawKeepsSolvency | backend/server.js:421-484 | a withdrawal request keeps every balance non-negative |
| Properties.ApproveRechargeKeepsSolvency | backend/server.js:779-797 | approving a recharge keeps every balance non-negative |
| Properties.RejectWithdrawalKeepsSolvency | backend/server.js:946-956 | rejecting a withdrawal keeps every balance non-negative |
| Properties.AdjustBalanceKeepsSolvency | backend/server.js:1010-1014 | an adjustment keeps balances non-negative only when the adjusted balance is non-negative, which the handler leaves to the admin |
| Properties.AdjustmentCanOverdraw | backend/server.js:1005-1014 | on every store, a negative adjustment larger than a user's balance, with all fields present and the procedure succeeding, succeeds and leaves that balance negative |
| Properties.FailedRevertStrandsRecharge | backend/server.js:779-797 | when the credit of an approved recharge fails and so does the revert to pending, no balance changes, the recharge stays approved, and every later approval or rejection of it is refused as not pending |
| Properties.EmailRegisteredOnce | backend/server.js:84-97 | after a registration, a second one with the same email is refused, as a taken email once the lookup succeeds |
| Properties.ApplyAppendsInvestments | backend/server.js:337-358 | no request removes or rewrites an investment: each leaves the table as it was or appends one row |
| Properties.PurchaseHistoryPersists | backend/server.js:308-321 | once a user has a purchase since a given instant, the purchase query stays non-empty after any sequence of requests |
| Properties.OnePurchasePerMonth | backend/server.js:304-321 | after a purchase, any sequence of requests, then another purchase by the same user in the same month: that purchase is refused, with the monthly limit once the earlier checks pass |
| Properties.ApplyKeepsWithdrawals | backend/server.js:461-476 | no request removes a withdrawal row or changes its user or request time |
| Properties.WithdrawalPersists | backend/server.js:426-441 | a withdrawal row keeps its user and request time after any sequence of requests |
| Properties.OneWithdrawalPerDay | backend/server.js:426-441 | after a withdrawal request, any sequence of requests, then another request by the same user within 24 hours: that request is refused, with the rate limit once the earlier checks pass |
| Properties.RejectionRefunds | backend/server.js:933-951 | rejecting a withdrawal request restores the balances from before the request, and marks the request rejected |
| Properties.ApprovalCredits | backend/server.js:766-786 | approving a recharge request credits exactly its amount to its user, and marks it approved |
| Properties.RechargeDecidedOnce | backend/server.js:761-763 | after a recharge is approved or rejected, both approval and rejection are refused as not pending |
| Properties.WithdrawalDecidedOnce | backend/server.js:879-881 | after a withdrawal is approved or rejected, both approval and rejection are refused as not pending |
| Properties.AdjustmentsCancel | backend/server.js:1010-1014 | an adjustment followed by the opposite adjustment of the same user leaves the balances as they were |
| Ledger.Wallets.RegisterSteps | backend/server.js:84-118 | the store calls of registration, on the fields, return the response and leave the tables of `Handlers.Register` |
| Ledger.Wallets.Register | backend/server.js:79-140 | registration on the object follows `Handlers.Register` and keeps the invariant |
| Ledger.Wallets.PurchasePlanSteps | backend/server.js:272-358 | the reads, checks, debit, insert and rollback of a purchase, on the fields, give the response and tables of `Handlers.PurchasePlan` |
| Ledger.Wallets.PurchasePlan | backend/server.js:267-368 | a purchase on the object follows `Handlers.PurchasePlan` and keeps the invariant |
| Ledger.Wallets.WithdrawSteps | backend/server.js:404-484 | the checks, debit, insert and rollback of a withdrawal request, on the fields, give the response and tables of `Handlers.Withdraw` |
| Ledger.Wallets.Withdraw | backend/server.js:398-494 | a withdrawal request on the object follows `Handlers.Withdraw` and keeps the invariant |
| Ledger.Wallets.RequestRechargeSteps | backend/server.js:530-550 | the checks and insert of a recharge request, on the fields, give the response and tables of `Handlers.RequestRecharge` |
| Ledger.Wallets.RequestRecharge | backend/server.js:524-564 | a recharge request on the object follows `Handlers.RequestRecharge` and keeps the invariant |
| Ledger.Wallets.ApproveRechargeSteps | backend/server.js:746-797 | the fetch, checks, status write, credit and status revert, on the fields, give the response and tables of `Handlers.ApproveRecharge` |
| Ledger.Wallets.ApproveRecharge | backend/server.js:741-807 | approving a recharge on the object follows `Handlers.ApproveRecharge` and keeps the invariant |
| Ledger.Wallets.RejectRechargeSteps | backend/server.js:815-846 | the fetch, checks and status write, on the fields, give the response and tables of `Handlers.RejectRecharge` |
| Ledger.Wallets.RejectRecharge | backend/server.js:810-856 | rejecting a recharge on the object follows `Handlers.RejectRecharge` and keeps the invariant |
| Ledger.Wallets.ApproveWithdrawalSteps | backend/server.js:864-895 | the fetch, checks and status write, on the fields, give the response and tables of `Handlers.ApproveWithdrawal` |
| Ledger.Wallets.ApproveWithdrawal | backend/server.js:859-905 | approving a withdrawal on the object follows `Handlers.ApproveWithdrawal` and keeps the invariant |
| Ledger.Wallets.RejectWithdrawalSteps | backend/server.js:913-956 | the fetch, checks, status write and refund, on the fields, give the response and tables of `Handlers.RejectWithdrawal` |
| Ledger.Wallets.RejectWithdrawal | backend/server.js:908-966 | rejecting a withdrawal on the object follows `Handlers.RejectWithdrawal` and keeps the invariant |
| Ledger.Wallets.AdjustBalanceSteps | backend/server.js:1005-1032 | the checks, balance procedure and audit insert, on the fields, give the response and tables of `Handlers.AdjustBalance` |
| Ledger.Wallets.AdjustBalance | backend/server.js:1000-1046 | an adjustment on the object follows `Handlers.AdjustBalance` and keeps the invariant |

## Left out

- HTTP routing, status codes, messages, CORS and logging: each response is kept only as its error kind or its value.
- JWT signing and verification and the admin check (backend/server.js:35-74): the caller's user id, or the admin's id, is a parameter. The login route issues no ledger change and is not modelled.
- The Supabase client and its query builders: replaced by the tables as fields and the `failing` set of store calls.
- The `increment_user_balance` procedure is not part of this repository. It is modelled as adding the amount to a known user's balance, and failing for an unknown user. Two outcomes follow only from that assumption, not from the handlers, which check neither:
  - an adjustment for an unregistered user is refused, so every audit row is about a registered user;
  - approving a recharge of an unregistered user fails and sets it back to pending.
  A procedure that silently updated no row would instead log an audit row for nobody and approve a recharge that credits nobody.
- A missing row under `.single()`:
  - a user missing behind a valid token is the lookup error;
  - a missing recharge or withdrawal is `NotFound`. Under `.single()` a missing row comes back as the fetch error, so the code's own not-found branches (backend/server.js:757, 826, 875, 924) are not reached and the server answers with its fetch-failure message. `NotFound` stands for that response. In both cases nothing changes.
- Concurrency: handlers run one at a time. The unlocked read-then-write of a balance, and the races it allows between simultaneous requests, are not modelled.
- JavaScript number arithmetic, `parseFloat` and the JSON typing of request fields:
  - amounts are exact reals;
  - a string or missing amount is outside the model;
  - `planId` is an integer, so the loose `==` between a string and a number id is not modelled.
- The start of the current month in the server's local time zone is computed by the caller and passed in. The model does not check that it lies at most a month before `now`.
- Row ids are positions in their table; user ids are handed out from 1 by a counter. The database's own id generation is not modelled.
- Read-only endpoints are not modelled: the user data, investment, withdrawal and recharge listings, pending lists, user search, marketing stats, fake withdrawals, UPI id, referral link and health check. They change no state.
- Daily accrual of investment income and a separate withdrawable balance are not modelled: backend/server.js has neither.
- The frontend's minimum withdrawal of ₹100 and its 18 % GST text are not enforced by the server and are not modelled.
- The migration scripts under backend/ are not modelled: they are one-off database scripts.
- The UTR length check (backend/server.js:535) counts UTF-16 code units; the model counts characters. The two differ only for characters outside the Basic Multilingual Plane.
- Registration signs a JWT after the insert (backend/server.js:121-139). If signing throws, the server answers with an error although the user row exists; the model answers with the new id.
- Recharge requests are recorded without checking that their user exists, as in the code. The invariant therefore does not tie recharges to registered users.
- Properties.AdjustBalanceKeepsSolvency: requires the adjusted balance to stay non-negative, because the handler does not check it; Properties.AdjustmentCanOverdraw shows a store where it does not.
- Handlers.ApproveRecharge: states that a failed credit followed by a successful revert restores the tables exactly only on a consistent store. The revert writes pending with no processing time, which equals the original row only when that row is well-formed.
