# Chase credit transactions service, modelled in Dafny

This project models `src/transactions.ts`, the transaction service of the
repository. The service first bootstraps two account identifiers from a
"special ids" request. It then serves a lazy stream of transactions for a
date range, fetched page by page. It can also enrich one transaction with
its merchant order identifier.

The model has five files.

- `wrappers.dfy`: the `Option`, `Result` and `Outcome` values. It also holds
  the five errors the service throws, each with its message.
- `bootstrap.dfy` is module `Bootstrap`. It holds the decoded bootstrap
  response and the checks `initialize` makes of it.
  - `Parse` follows the code exactly.
  - Only `cache[0]` is consulted, and 0 counts as missing.
  - The default-account-id check comes before the profile-id check.
- `daterange.dfy` is module `DateRange`. It holds the two date checks of
  `getTransactions`. A calendar date is its epoch day number.
- `pagination.dfy` is module `Pagination`. It says what the `while
  (hasMore)` loop does with a finite list of pages.
  - `StopPage` is the first empty page.
  - `Requested` is the page numbers the loop asks for.
  - `Yielded` is the items it yields.
  - Lemmas prove that the requests are pages `1..k` and that there are `k`
    of them.
  - Lemmas prove that the items yielded are pages `1..k-1` concatenated.
  - Lemmas prove that pages after `k` are never looked at.
- `transactions.dfy` is module `Transactions`. It holds the classes.
  - `Transaction`, with its constructor.
  - `Fetcher`, the injected fetcher. It is a deterministic test double: its
    responses are fixed and already decoded, and it records every request
    it receives in `calls`.
  - `TransactionService`, with `create`, `initialize`, `fetchTransactions`,
    `getTransactions` and `addTransactionDetails`.
  - `TransactionStream`, the async generator that `getTransactions`
    returns.

`TransactionStream.Next` runs the generator up to its next `yield`.
- The first step bootstraps the service if it is still uninitialized. It
  then checks the dates.
- Only after both succeed does it request page 1.
- A later step yields the next transaction of the current page. Once that
  page is used up, it requests the next page.
- Its ghost state records the raw items yielded so far and the page numbers
  requested so far. `Valid()` ties this state to the `Pagination`
  functions.
- The contract of `Next` relates each step to the whole run:
  - every yielded transaction is built from the next item of
    `Pagination.Yielded(pages, 1)`;
  - at the end, the yielded items are exactly that sequence;
  - at the end, the requested pages are exactly `Pagination.Requested(pages, 1)`;
  - every request is logged in order in the fetcher's `calls`;
  - a first step that bootstraps leaves the service initialized with both
    identifiers even when it then throws a date error, and leaves it
    unchanged when the bootstrap itself throws;
  - every yielded transaction is a new object that the stream no longer
    reads (its ghost `Repr` holds only the transactions still to be
    yielded), so a caller may enrich it and go on streaming.

The bootstrap reads the default account id from `cache[0]` only (lines 70
and 79). `Bootstrap.SecondEntryNotScanned` shows what that means: a good id
in entry 1 does not rescue an entry 0 that has none.

## Model

| member | source | states |
|---|---|---|
| Bootstrap.FirstEntryAccountId | src/transactions.ts:70 | the optional chain `cache?.[0]?.response?.defaultAccountId` is defined exactly when every link of entry 0 is present, and is then entry 0's id |
| Bootstrap.Truthy | src/transactions.ts:70-75 | JavaScript truthiness of a number field: `undefined` and 0 are falsy, every other number is truthy |
| Bootstrap.Parse | src/transactions.ts:70-80 | success iff entry 0's default account id and the top-level profile id are both present and non-zero, yielding those two values; the missing-default-account-id error exactly when entry 0's id is absent or 0; the missing-profile-id error exactly when that id is good but the profile id is absent or 0 |
| Bootstrap.EmptyCacheFails | src/transactions.ts:70-74 | an absent or empty `cache` fails with the missing-default-account-id error, whatever the profile id |
| Bootstrap.ZeroAccountIdFails | src/transactions.ts:70-74 | a default account id of 0 counts as missing |
| Bootstrap.AccountIdCheckComesFirst | src/transactions.ts:70-77 | when both fields are missing, the default-account-id error is the one thrown |
| Bootstrap.LaterEntriesIgnored | src/transactions.ts:70-79 | appending cache entries after entry 0 never changes the outcome of the bootstrap checks |
| Bootstrap.SecondEntryNotScanned | src/transactions.ts:70-74 | `cache = [{response: {}}, {response: {defaultAccountId: 67890}}]` fails with the missing-default-account-id error |
| DateRange.Compare | src/transactions.ts:96-104 | `Temporal.PlainDate.compare` is -1, 0 or 1, positive exactly when the first date is later and 0 exactly when the dates are equal |
| DateRange.SubtractDays | src/transactions.ts:102 | `endDate.subtract({ days: n })` on day numbers: the date `n` days earlier |
| DateRange.CheckRange | src/transactions.ts:94-107 | passes iff the end date is not after today and the span is at most 90 days; the end-after-today error exactly when the end date is after today; the range error exactly when the end date is fine but the span exceeds 90 days |
| DateRange.NinetyDaysAccepted | src/transactions.ts:100-107 | a span of exactly 90 days that ends today or earlier is accepted |
| DateRange.ReversedRangeAccepted | src/transactions.ts:100-107 | a start date after the end date is not refused |
| DateRange.FutureCheckComesFirst | src/transactions.ts:96-107 | an end date after today gets the end-date error even when the span is also too long |
| DateRange.SixtyDayRangeAccepted | src/transactions.ts:94-107 | 2024-01-01 to 2024-03-01, checked on 2024-03-01, is accepted |
| Pagination.StopPage | src/transactions.ts:112-121 | the loop started at page `n` stops at an empty page `k >= n` that lies within the list or just past it |
| Pagination.PageAt | src/transactions.ts:113-115 | the page the fetcher returns for page number `n`: entry `n` of the list (counting from 1), empty outside it |
| Pagination.Yielded | src/transactions.ts:112-121 | the items the loop yields from page `n` on: each page in turn, up to the first empty page |
| Pagination.Requested | src/transactions.ts:112-121 | the page numbers the loop requests from page `n` on, in order, the first empty page included |
| Pagination.StopIsFirstEmpty | src/transactions.ts:112-121 | no empty page comes before the stopping page: any empty page from `n` on is at or after it |
| Pagination.Turn | src/transactions.ts:112-121 | at a page the loop reaches, an empty page is the stopping page and ends the run after requests `1..page`; a non-empty page comes before the stopping page and its items are yielded ahead of the rest |
| Pagination.RequestedIsRange | src/transactions.ts:109-121 | the pages requested from page `n` on are `n, n + 1, ..., k`, with `k` the stopping page |
| Pagination.RequestCount | src/transactions.ts:109-121 | from page 1 the loop makes exactly `k` requests, and its `i`-th request is page `i + 1` |
| Pagination.YieldedIsConcat | src/transactions.ts:112-121 | the items yielded from page `n` on are pages `n .. k - 1` concatenated in order |
| Pagination.YieldedFromFirstPage | src/transactions.ts:109-121 | the items yielded from page 1 on are pages `1 .. k - 1` concatenated in order |
| Pagination.LaterPagesIgnored | src/transactions.ts:112-121 | two lists of pages that agree up to the stopping page have the same stopping page, the same yielded items and the same requests |
| Pagination.NoEmptyPage | src/transactions.ts:112-121 | when no page of the list is empty, the loop stops just past the list and yields every page |
| Pagination.TwoPagesThenEmpty | src/transactions.ts:109-121 | pages `[a, b]`, `[c]`, `[]`, `[d]` give requests 1, 2, 3 and the items `a, b, c`; the page after the empty one is never reached |
| Transactions.RecordOfKeepsFields | src/transactions.ts:136-145 | a transaction built from a raw item has the item's id, amount, post date and merchant name, and its merchant order identifier exactly when the item's is a non-empty string |
| Transactions.IsTruthy | src/transactions.ts:21 | JavaScript truthiness of an optional string: `undefined` and `""` are falsy |
| Transactions.RecordOf | src/transactions.ts:136-145 | the fields of the `Transaction` built from one raw item by the `data.map` callback (constructor applied to the item's fields) |
| Transactions.DetailsOf | src/transactions.ts:157-158 | the details response's `merchantOrderIdentifier` for a transaction id, `undefined` when it has none |
| Transactions.Transaction.constructor | src/transactions.ts:10-24 | the four plain fields are copied; the merchant order identifier is kept when truthy and left absent otherwise |
| Transactions.PageCalls | src/transactions.ts:113-115 | the log of page requests holds one page request per page number, in order, with the stream's date range |
| Transactions.Fetcher.FetchBootstrap | src/transactions.ts:65-68 | the bootstrap request returns the fixed bootstrap response and is logged |
| Transactions.Fetcher.FetchPage | src/transactions.ts:132-135 | a page request returns that page of the list, or nothing past its end, and is logged with its range and page number |
| Transactions.Fetcher.FetchDetails | src/transactions.ts:152-157 | a details request returns the merchant order identifier for that id, absent if there is none, and is logged |
| Transactions.ToTransactions | src/transactions.ts:136-145 | one new, distinct `Transaction` per raw item, in order, each built from its item's fields |
| Transactions.StartOutcome | src/transactions.ts:90-107 | what the first step throws: it passes exactly when the bootstrap, if it runs, and both date checks pass; a failing bootstrap is thrown ahead of any date error; otherwise the date checks decide |
| Transactions.OnPage | src/transactions.ts:109-121 | the loop in the middle of page `page`: pages `1..page` requested, and what was yielded, then the rest of the page, then the later pages, is the whole run |
| Transactions.Pending | src/transactions.ts:116-118 | the transactions of the current page still to be yielded are distinct, held in `repr`, and each built from its raw item |
| Transactions.Advance | src/transactions.ts:116-118 | yielding the next item of the current page keeps the loop on that page and makes that item the next one of the whole run |
| Transactions.PendingAdvance | src/transactions.ts:116-118 | yielding the next transaction takes it out of the pending set and leaves the later ones pending |
| Transactions.EnterPage | src/transactions.ts:113-117 | requesting a non-empty page the loop gets to puts the loop on that page with its first item yielded, and that item is the next one of the whole run |
| Transactions.OpenPage | src/transactions.ts:113-116 | requesting a non-empty page the loop gets to puts the loop at the start of that page, with the later pages still to come |
| Transactions.LeavePage | src/transactions.ts:119-121 | requesting an empty page the loop gets to completes the run: what was yielded is everything, and the requests made are exactly `Requested(pages, 1)` |
| Transactions.PendingStart | src/transactions.ts:136-145 | once the first of a page's new, distinct transactions is yielded, the others are pending, each built from its raw item |
| Transactions.TransactionService.constructor | src/transactions.ts:37-53 | a new service holds the given fetcher and is not initialized |
| Transactions.TransactionService.Create | src/transactions.ts:55-62 | makes one bootstrap request; returns a new initialized service with the parsed identifiers, or the bootstrap error |
| Transactions.TransactionService.Initialize | src/transactions.ts:64-82 | makes one bootstrap request; on success stores both identifiers and marks the service initialized; on failure throws the parsed error and changes none of its fields |
| Transactions.TransactionService.FetchTransactions | src/transactions.ts:124-146 | bootstraps only when not initialized; when it does and the bootstrap succeeds, the service is initialized with both parsed identifiers, and a failing bootstrap changes nothing and is returned as the error; an initialized service makes exactly one page request and no bootstrap; on success returns one new, distinct transaction per item of that page, in order |
| Transactions.TransactionService.GetTransactions | src/transactions.ts:84-89 | returns a new stream that has not started, over the given range, whose end date defaults to `now`; nothing is requested yet and the stream holds no transactions |
| Transactions.TransactionService.AddTransactionDetails | src/transactions.ts:148-159 | throws exactly when the service is not initialized, and then makes no request and changes nothing; otherwise makes one details request and sets only the transaction's merchant order identifier to the response's value, even when absent |
| Errors.Message | src/transactions.ts:71-76 | the message each thrown error carries, as written in the source |
| Errors.MessagesDiffer | src/transactions.ts:71-76 | distinct errors carry distinct messages |
| Transactions.TransactionStream.YieldedIsPrefix | src/transactions.ts:112-121 | whatever a stream has yielded so far is a prefix of everything the whole run yields |
| Transactions.TransactionStream.AllItems | src/transactions.ts:109-121 | every item the whole run yields: `Pagination.Yielded` of the fetcher's pages from page 1 |
| Transactions.TransactionStream.Valid | src/transactions.ts:84-122 | the generator's state: before its first step nothing is yielded or requested; in the middle of a page the page state of `OnPage` and the pending transactions of `Pending` hold and the service is initialized; once finished, either the whole run was yielded with exactly `Requested(pages, 1)` requested, or it threw before any request |
| Transactions.TransactionStream.constructor | src/transactions.ts:84-89 | a new stream has not started, has yielded and requested nothing, and holds no transactions |
| Transactions.TransactionStream.Next | src/transactions.ts:84-122 | one step: throws only in the first step, before any page request, with the bootstrap error or the first failing date check; bootstraps only if not initialized, and a successful bootstrap leaves the service initialized with both identifiers even when a date check then throws, while a failing one changes nothing; after the first step the service never changes; each yield is the next item of the whole run, as a transaction that is new and no longer held by the stream; the end comes after exactly the requests `Requested(pages, 1)` with every item yielded; every request is logged in order; a finished stream stays finished |
| Transactions.TransactionStream.Start | src/transactions.ts:90-109 | the first step bootstraps if needed, storing both identifiers on success and changing nothing on failure, then checks the dates, and only then requests page 1; on a throw no page is requested; a yielded transaction is new |
| Transactions.TransactionStream.Resume | src/transactions.ts:112-121 | a later step yields the next transaction of the current page or requests the next page; it never throws and never bootstraps; the transaction it yields was held by the stream or is new, and is held no longer |
| Transactions.TransactionStream.YieldCurrent | src/transactions.ts:116-118 | yields the next transaction of the current page, built from the next item of the whole run, and drops it from the transactions the stream holds |
| Transactions.TransactionStream.FetchAndStep | src/transactions.ts:113-121 | requests exactly the current page and nothing else; yields its first transaction, a new object, or ends the stream with all items yielded and all requests made when the page is empty |
| Transactions.TransactionStream.TakePage | src/transactions.ts:116-121 | on an empty page the stream ends with the whole run yielded and `Requested(pages, 1)` requested; otherwise the page becomes current and its first transaction, one of that page's, is yielded as the next item of the run |
| Transactions.TransactionStream.LastPage | src/transactions.ts:119-121 | an empty page the loop gets to is requested and ends the stream: everything the whole run yields has been yielded, exactly `Requested(pages, 1)` has been requested, and the stream holds no transactions |
| Transactions.TransactionStream.NextPage | src/transactions.ts:113-117 | a non-empty page the loop gets to is requested and becomes current; its first transaction is yielded as the next item of the whole run, and the page's other transactions are held as pending |
| Transactions.TransactionStream.BeginPage | src/transactions.ts:113-117 | a non-empty page becomes the current page; its first transaction is yielded and every other one is held as pending |

## Left out

- The HTTP transport, the URLs and `response.json()` decoding (lines 65-68, 132-135, 152-157) are not modelled. The `Fetcher` answers with already decoded values. No HTTP status is checked in the code either.
- The rate limiter (lines 41, 113, 152) is the identity: a request runs when the limiter is called.
- The clock and time zone (`Temporal.Now.plainDateISO("America/New_York")`, lines 86-88 and 94) become parameters: `now` for the default end date of `GetTransactions`, and `today` for the first `Next`.
- Temporal's calendar is left out. Dates are epoch day numbers, so comparing dates compares integers and subtracting 90 days subtracts 90.
- `Temporal.PlainDate.from(item.postDate)` (line 141) is not modelled: the raw item already holds a day number.
- `amount` is a JavaScript number, but it is only carried through, so the model uses `int`.
- JSON values of other types than the declared ones are out of scope: a string id, `null`, `NaN`, or a `cache` that is not an array. A missing field is `None`. A missing or `null` cache entry or `response` is `None`.
- Async/await is left out, and so are promises and races between concurrent callers of `initialize`. The model is sequential.
- The `Fetcher`'s pages do not depend on the date range. The range is only recorded in each logged request.
- `defaultAccountId!` and `profileId!` (lines 38-39) are unset before initialization. The model starts them at 0, and nothing reads them before initialization.
- `Transactions.TransactionStream.Next` and its helpers specify one step at a time. No method drains a stream to its end and proves the whole-run result in one contract. The whole-run facts are the per-step contracts together with the `Pagination` lemmas.
- The stream only requests a page once its service is initialized. So the bootstrap branch of `fetchTransactions` (lines 129-131) is modelled, but the stream never takes it.
- `src/types/index.ts` is not part of this model: it holds type declarations only.
- `webpack.config.js` is not part of this model: it is build configuration.
- `tests/transactions.test.ts` is not part of this model. It exercises fields and methods that `Transaction` does not have.
