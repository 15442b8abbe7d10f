# bca-sync-ynab: transaction normalisation and reconciliation, in Dafny

This project models the core of `bca-sync-ynab`, a tool that reads a KlikBCA
bank statement and balance and mirrors them into a YNAB budget or a Firefly III
ledger. The model covers the part of the tool that does more than I/O:

- **Clearance-date prediction** (`Clock.ClearDate`). A pending statement entry
  has no date. The tool predicts when the bank will settle it: the bank
  processes on weekdays only and stops at 22:00 local time.
- **YNAB mapping** (`Ynab.ToPayloadTransaction`). It turns a statement entry
  into a YNAB payload transaction: signed milliunits, a date that is never in
  the future, and an import ID hashed from the entry without its description.
- **YNAB batch, account lookup and balance adjustment**. The statement is
  mapped entry by entry. The account is found by its exact name. When the
  budget's balance differs from the bank's, one reconciled adjustment
  transaction is posted under the first "Inflows" category.
- **Firefly mapping, posting and reconciliation**. Each entry becomes a
  withdrawal or a deposit split. Splits are posted one at a time and the run
  stops at the first failure. A reconciliation split closes any remaining gap.

Modules, one per file:

| file | module | holds |
|---|---|---|
| wrappers.dfy | `Wrappers` | `Option`, `Result`, `Outcome` for Go's nil pointers and `error` returns |
| clock.dfy | `Clock` | instants in the fixed UTC+7 zone, weekdays, `ClearDate`, the statement window |
| errors.dfy | `Errors` | the error values: a message, a wrapped error, an empty statement |
| bank.dfy | `Bank` | statement entries, `decimal.IntPart`, the empty-statement check |
| ynab.dfy | `Ynab` | the YNAB mapper, batch mapping, account and category lookups, balance adjustment |
| firefly.dfy | `Firefly` | the Firefly mapper, the reconciliation split, the posting loop and the whole Firefly run |

Modelling choices:

- **Time.** `main` fixes the local zone to UTC+7 with no daylight saving
  (main.go:53). An instant is therefore a local day number (days since
  1970-01-01) plus the nanoseconds since local midnight. `AddDate(0, 0, n)`
  adds `n` to the day. The weekday is `(day + 4) % 7`, using Go's numbering
  with Sunday as 0.
- **Zero dates.** Go's zero `time.Time` marks a pending entry. It is modelled
  as `None` in `Entry.date`.
- **Decimals.** `shopspring/decimal` values are exact, so they are modelled as
  `real`. `IntPart` truncates toward zero.
- **Collaborators.** Each bank, YNAB or Firefly response is a parameter of the
  routine that uses it, as a `Result` or an `Outcome`. The Firefly store
  endpoint's answer is a function of the request's position in the run and
  of the split sent, so identical splits can get different answers. The YNAB
  adjustment step returns the list of requests it issues (`Ynab.Call`). This
  is what lets the model say that no category lookup happens when the
  balances agree.
- **Hash.** `structhash.Hash` is a parameter `hash: Entry -> string`.
- **Errors.** An error is a value of `Errors.Error`, not a string. `Wrapped(c, e)`
  stands for `errors.Wrap(e, c)` and for `fmt.Errorf("c: %w", e)`, whose text
  is "c: " followed by the text of `e`.

Three facts about the code are worth stating, because a reader might expect otherwise:

- The YNAB memo is the entry's description, even when it is empty. There is no
  payee fallback (main.go:366, ynab.go:121). Only the Firefly description
  falls back to the payee (firefly.go:191-196).
- An empty statement is returned as an error (main.go:241-243).
- The YNAB adjustment is dated `time.Now()` (main.go:315, ynab.go:86). Here
  that is the run's `now`.

## Model

| member | source | states |
|---|---|---|
| `Clock.ClearDate` | main.go:394-412 | the predicted settlement date is midnight, falls between today and today + 3 days, and is a Monday to Friday |
| `Clock.ClearDateIsFirstOpenDay` | main.go:394-412 | the weekday/hour table picks the first day on which the bank still processes: a weekday, and if it is today then before 22:00; no earlier day from today on qualifies |
| `Clock.FirstOpenDayIsClearDate` | main.go:394-412 | conversely, any midnight that is the first open day equals `ClearDate(now)`, so the table and the rule define the same date |
| `Clock.ClearDateIsToday` | main.go:395-411 | the prediction is today's midnight exactly when today is a weekday and the hour is before 22; otherwise it is strictly after `now` |
| `Clock.ClearDateExamples` | main.go:396-411 | Friday 23:00 gives +3 days, Friday 10:00 the same day, Saturday +2, Sunday +1, Tuesday 23:00 +1, Tuesday 10:00 the same day |
| `Clock.StatementWindow` | main.go:233-236 | the statement window ends at `now` and starts exactly 27 days earlier at the same time of day |
| `Bank.IntPart` | main.go:287 | `decimal.IntPart` truncates toward zero: the result is within one unit of the value and not beyond it |
| `Bank.GetStatement` | main.go:232-245 | a fetch error is wrapped with "failed to get bca transactions. try -r"; an empty statement is an error that carries the window from 27 days before `now`, at the same time of day, up to `now`; otherwise the entries are returned unchanged |
| `Ynab.Milliunits` | main.go:364-374 | the amount is `amount × 1000` truncated toward zero; for a non-negative amount it is ≤ 0 for type "DB" and ≥ 0 for every other type code (same code at ynab.go:119-129) |
| `Ynab.ToPayloadTransaction` | main.go:352-391 | the payload carries the argument account, cleared and approved status, nil payee ID, category and flag, the payee as payee name and the description as memo with no fallback. Its import ID hashes the entry with a blank description and a resolved date. Its amount is `Milliunits`. Its date is the resolved date, or `now` when that is later, so never after `now` (same code at ynab.go:107-146) |
| `Ynab.ImportIDIgnoresDescription` | ynab.go:108-122 | entries with the same date, payee, amount and type get the same import ID whatever their descriptions |
| `Ynab.PendingEntryDate` | main.go:356-371 | a pending entry is dated today at midnight when the bank is open today, and `now` otherwise; in that case the import ID is hashed from the predicted date, which is strictly later than the payload's date |
| `Ynab.MappingExample` | main.go:352-391 | on Wednesday 09:00, a 50000 credit maps to +50,000,000 milliunits with its own date and an empty memo; a pending 20000 debit maps to −20,000,000, dated today at midnight, memo "coffee" |
| `Ynab.BalanceScalingTruncatesFirst` | ynab.go:58 | the bank balance is truncated before the ×1000 (ynab.go:58), entry amounts after it (ynab.go:119). So for a non-negative bank balance `b`, `IntPart(b)·1000 ≤ IntPart(b·1000) < IntPart(b)·1000 + 1000`, and the two are equal exactly when the fraction of `b` is below 0.001 |
| `Ynab.MapEntries` | ynab.go:23-26 | the mapping loop yields one payload per entry, in input order, each the mapping of the entry at the same position |
| `Ynab.CreateYNABTransactions` | main.go:247-262 | the batch submitted has one payload per entry, in order, each for the target account and none dated after `now`; the batch request's error is returned as is |
| `Ynab.GetYNABAccount` | ynab.go:39-51 | a listing error is wrapped with "failed to get ynab accounts. try -r"; otherwise an account is returned iff one has exactly the given name, and it is the first such; if none has it the error is "couldnt find account <name>" (same code at main.go:264-276) |
| `Ynab.FirstNamedIsFirstMatch` | main.go:299-306 | the category search finds a category iff one has the name, and the one found is the earliest in group-then-category order |
| `Ynab.FindInflows` | ynab.go:64-78 | the nested group/category loop returns the first category named "Inflows"; a listing error is wrapped with "failed to get categories"; none found is "couldnt find to be budgeted category" |
| `Ynab.CreateBalanceAdjustment` | ynab.go:53-105 | re-reads the account. With `delta = IntPart(bank)·1000 − balance` equal to 0 it makes no category lookup and posts nothing. Otherwise it looks up "Inflows" and, if found, posts one adjustment: amount `delta`, reconciled, approved, payee "Automated Balance Adjustment", nil memo and import ID, category Inflows. A failed account read is wrapped with "failed to get ynab account" and a failed post with "failed to create balance adjustment transaction"; an error from the category lookup (a listing error it already wrapped, or "couldnt find to be budgeted category") is returned exactly as the lookup produced it |
| `Ynab.CreateBalanceAdjustmentFromBank` | main.go:278-334 | a bank-balance error is wrapped with "failed to get bca balance" and makes no budget request; otherwise the step behaves as `CreateBalanceAdjustment` with the fetched balance |
| `Ynab.AdjustmentPostsAtMostOnce` | main.go:287-332 | the adjustment step posts at most one transaction. It posts exactly one iff the account was read, `delta ≠ 0` and an "Inflows" category exists. That transaction brings the account to `IntPart(bank)·1000`, is reconciled, has no import ID and is filed under the first category named "Inflows" |
| `Ynab.DeltaExample` | ynab.go:58 | a bank balance of 1,000,000 against 997,000,000 milliunits gives a delta of +3,000,000; a fraction of the bank balance is dropped before comparing |
| `Firefly.ToFireflyTrx` | firefly.go:169-199 | the amount is the raw entry amount; a zero date becomes `now` and any other date is kept, with no clamping. Type "DB" gives a withdrawal from the account to the payee; any other type gives a deposit from the payee to the account. The description is the entry's, or the payee's when empty, so it is empty only if both are |
| `Firefly.SameDirectionAsBudget` | firefly.go:180-189 | for an amount of at least 0.001, the Firefly split is a withdrawal exactly when the YNAB amount is negative and a deposit exactly when it is positive |
| `Firefly.ToFireflyReconciliationTrx` | firefly.go:142-167 | the split has type "reconciliation", is reconciled, is dated today at midnight and carries `|bank − firefly|`. A positive difference flows from the reconciliation account to the asset account; zero or negative flows the other way |
| `Firefly.ReconciliationClosesGap` | firefly.go:157-164 | posting the reconciliation split moves the asset account's balance from the Firefly balance to exactly the bank balance |
| `Firefly.FirstAccount` | firefly.go:84-87 | an account search returns its first hit; no hit is the error "no accounts found with name \"<name>\"" (same code at firefly.go:214-217) |
| `Firefly.PostFromSendsInOrder` | firefly.go:40-45 | splits are sent in input order, at most one per entry and at least one when there is an entry; each is the mapping of the entry at its position, and every split before the last one sent succeeded |
| `Firefly.PostAllStopsAtFirstFailure` | firefly.go:40-45 | the run fails iff some post failed: without a failure every entry is sent and every post succeeded |
| `Firefly.PostFromFailsLast` | firefly.go:40-45 | when the run fails, the failed split is the last one sent and its error is the one returned, so no later entry is sent |
| `Firefly.PostEntries` | firefly.go:40-45 | the posting loop sends exactly the splits `PostFrom` describes from position 0 and returns its failure wrapped with "failed to create firefly transaction" |
| `Firefly.CreateFireflyTransactions` | firefly.go:35-69 | no account found means nothing is posted. Otherwise the entries are posted until the first failure. After that the account is re-read. Nothing more is posted when `noadjust` is set, the balance cannot be parsed, the balances are equal or no reconciliation account exists. Otherwise exactly one reconciliation split for the difference is posted last. Each error is wrapped as the code does |

## Left out

- Credentials, prompting and the credentials file (config.go), the older entry point (bcasync.go), the CLI flags and `actionFunc`: these are I/O and configuration.
- Bank login and logout, and the public-IP lookup: network calls. Their results are not needed by the modelled code.
- The HTTP clients of the bank, YNAB and Firefly: each response is a parameter.
- Firefly's transport and non-200 error paths ("failed to search account …", "status code not OK …"), `storeTransaction`'s response-body wrapping and `stringToInt32`. A `Failure` or `Fail` parameter stands for whatever those return.
- The internals of `structhash.Hash` (a foreign library). Its ignored error return is folded into the hash function.
- Decimal-to-string formatting of Firefly amounts: a split carries the decimal value itself.
- The "January 2, 2006" text of the reconciliation description. Its start date depends on a `days` variable that is not part of this model. The description keeps only the day the period ends on.
- The "no bca transactions from … to …" text: the error carries the window instead.
- Go's escaping inside `%q`: `Errors.Quote` only adds the quotes.
- `transactionsToCsv` (gocsv serialisation). It maps every entry but then marshals the raw entries, so the mapping has no effect.
- The printed counts of created and duplicate transactions. The YNAB batch response is only printed, so the model keeps only its error.
- Time zones other than the fixed UTC+7 offset, and Go's monotonic clock reading.
- Ynab.ToPayloadTransaction: reads the clock once as `now`. The code calls `time.Now()` up to three times (main.go:359, 369-370), so its clamp compares against slightly different instants.
- One `now` serves the statement window (main.go:234), the mappings and the adjustment or reconciliation. The code reads the clock separately for each, as the next three lines detail.
- Ynab.MapEntries: every entry is mapped with the same `now`. The code reads the clock again for each entry (main.go:249-250, through main.go:359 and 369-370), so a batch that crosses midnight can predict and clamp dates against different instants.
- Firefly.ToFireflyTrx: a pending entry is dated with the run's single `now`. The code reads `time.Now()` anew for each entry (firefly.go:175), between network posts, so later entries can carry later dates.
- Firefly.ToFireflyReconciliationTrx: is dated at midnight of the same `now`. The code reads the clock again (firefly.go:144), after all posts, so a run that crosses midnight dates the reconciliation split a day later in the program than in the model.
- Ynab.Milliunits: does not model 64-bit overflow of `IntPart` or of the milliunit amount, because integers here are unbounded. Amounts beyond about 9.2·10^15 units are out of scope.
- Ynab.CreateBalanceAdjustment: does not model 64-bit overflow of `delta`, for the same reason.
- `bca.Entry` is modelled with the five fields the code reads: date, description, payee, amount and type. The bca-go package is not part of this model, so any other field it has is not modelled. The hash covers whichever fields the struct holds.
- Firefly.CreateFireflyTransactions: a nil `CurrentBalance` pointer would panic in the code. It is not modelled; only a decimal parse failure is. The by-ID account response is a parameter and is not tied to the ID that was asked for.
