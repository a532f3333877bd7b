# Transactions ledger — a Dafny model

This project models the transaction routes of a small personal-finance ledger
API (`src/routes/transactions.ts`). Clients create credit and debit
transactions that belong to an anonymous session. The session is a random
identifier carried in the `sessionId` cookie. Clients can list their own
transactions, fetch one by id, and ask for the net balance of their session.

The `transactions` table is a sequence of rows `(id, title, amount,
session_id)`. The modules are:

- `Wrappers`: `Option` and `Result`.
- `Schemas`: the request schemas. A decoded JSON value, the create-body schema
  (`title` a string, `amount` a number, `type` one of `"credit"`/`"debit"`),
  the get-by-id parameter schema (`id` a UUID-shaped string) and the UUID shape.
- `Ledger`: the row type and the three read handlers. Each handler is a
  function over the table: list is a filter, get-by-id is a first match and
  summary is a sum. The `Ledger` class owns the table. Its `Create` method is
  the POST handler. It validates the body, keeps the caller's session or mints
  one (and then sets the cookie), and appends one row with the signed amount.
  Lemmas cover the sign rule, how each query behaves when a row is appended,
  session isolation, retrieval of every stored row by its id, and the net
  balance as credits minus debits.
- `Scenarios`: the four end-to-end tests of `test/transactions.spec.ts`,
  replayed on an empty table with the generated identifiers as parameters.

Model choices:

- Amounts are integers.
- The two random identifiers become parameters of `Create`: the new row's id
  and the session id minted when the request has none. Both must be
  UUID-shaped and not yet in use (the session id only when it is minted).
- The read handlers receive the session id that the session gate lets through.
- A session cookie counts as present only when it is non-empty. The handler
  tests the cookie's truthiness, so an empty cookie also makes it mint a
  session.

Three behaviours of the code are easy to misread; the model keeps them:

- Summary over a session with no rows is the SQL `SUM` of no rows, which is
  null. The code passes it on unchanged, so `Summary` returns `None` there,
  not 0.
- The create schema accepts any string as `title`, including the empty one.
- The create schema accepts any number as `amount`. So the sign of a stored
  amount gives the transaction's kind only for positive amounts
  (`SignEncodesKind`). A negative credit is stored as a debit would be
  (`NegativeCreditReadsAsDebit`).

## Model

| member | source | states |
|---|---|---|
| `Schemas.ParseKind` | src/routes/transactions.ts:74 | accepts exactly "credit" and "debit", and the parsed kind's literal is the input |
| `Schemas.ParseCreateBody` | src/routes/transactions.ts:71-76 | succeeds exactly on bodies whose title, amount and type fields describe some request, and returns that request. A rejection lists at least one issue, flags a non-object body, and names only schema fields |
| `Schemas.CreateBodyRoundTrip` | src/routes/transactions.ts:71-76 | every create request sent as its JSON body validates back to itself |
| `Schemas.ParseIdParams` | src/routes/transactions.ts:36-40 | succeeds exactly when `id` is present and UUID-shaped, returns that id, and otherwise reports an issue on `id` |
| `Ledger.SignedAmount` | src/routes/transactions.ts:91 | a credit stores the amount, a debit stores its negation |
| `Ledger.SignEncodesKind` | src/routes/transactions.ts:91 | for a positive amount, the stored value's sign is the kind and its magnitude is the amount |
| `Ledger.NegativeCreditReadsAsDebit` | src/routes/transactions.ts:91 | a credit of a negative amount stores what a debit of its magnitude stores, and reads back as a debit |
| `Ledger.ListTransactions` | src/routes/transactions.ts:23-25 | a row is listed if and only if it is stored and has the caller's session |
| `Ledger.FindTransaction` | src/routes/transactions.ts:43-48 | a returned row is stored and matches both id and session. Nothing is returned exactly when no stored row matches both |
| `Ledger.GetTransaction` | src/routes/transactions.ts:36-50 | rejects exactly the non-UUID ids, whatever the table holds. Otherwise returns a stored row with that id and the caller's session, or no row (not an error) exactly when none matches |
| `Ledger.Summary` | src/routes/transactions.ts:61-64 | the summed amount is null (`None`) exactly when the session has no rows |
| `Ledger.ListAppend` | src/routes/transactions.ts:23-25 | listing distributes over concatenation of tables, keeping table order |
| `Ledger.SumAppend` | src/routes/transactions.ts:63 | the sum of amounts distributes over concatenation |
| `Ledger.FindAppend` | src/routes/transactions.ts:43-48 | appending a row keeps any earlier match, and can only supply a match when there was none |
| `Ledger.ListAfterAppend` | src/routes/transactions.ts:88-93 | after a row is appended, it ends its own session's listing and no other listing changes |
| `Ledger.SummaryAfterAppend` | src/routes/transactions.ts:61-64 | after a row is appended, other sessions' summaries are unchanged. Its own session's summary becomes the old balance (or none) plus the new signed amount |
| `Ledger.AppendInvisibleToOtherSessions` | src/routes/transactions.ts:16-68 | a row created under one session changes no other session's listing, get-by-id result or summary |
| `Ledger.OtherSessionNeverVisible` | src/routes/transactions.ts:16-68 | a row of another session is never listed, never returned by id, and removing it leaves the summary unchanged |
| `Ledger.StoredRowRetrievable` | src/routes/transactions.ts:30-52 | in a table of unique UUID ids, get-by-id returns every stored row for its id and session |
| `Ledger.SumIsCreditsMinusDebits` | src/routes/transactions.ts:88-93 | rows stored from a sequence of requests sum to those requests' credits minus their debits |
| `Ledger.SummaryIsCreditsMinusDebits` | src/routes/transactions.ts:61-64 | a session whose rows were stored from a non-empty sequence of requests has as summary those requests' credits minus their debits |
| `Ledger.FreshSessionSeesOnlyNewRow` | src/routes/transactions.ts:78-93 | a newly minted session lists exactly the row created with it, and its summary is that row's amount |
| `Ledger.Ledger.constructor` | test/transactions.spec.ts:16-19 | a freshly migrated table is empty and satisfies the table invariant |
| `Ledger.Ledger.Create` | src/routes/transactions.ts:70-96 | a rejected body changes nothing and sets no cookie. An accepted one keeps the cookie's session (no cookie set) or mints `newSessionId` (set as the 7-day, path "/" cookie), and appends exactly one row with the fresh id, the title, the signed amount and that session. Unique, UUID-shaped ids are preserved |
| `Scenarios.CreateCredit` | test/transactions.spec.ts:21-30 | a credit of 5000 posted without a cookie is accepted, sets the minted session cookie, and stores one row of amount 5000 under that session |
| `Scenarios.ListAfterCredit` | test/transactions.spec.ts:32-53 | after a credit of 5000, the session lists exactly one row: title "New transaction", amount 5000 |
| `Scenarios.GetAfterCredit` | test/transactions.spec.ts:54-85 | the listed row's id fetches that row: title "New transaction", amount 5000 |
| `Scenarios.SummaryAfterCreditAndDebit` | test/transactions.spec.ts:87-114 | a credit of 5000 then a debit of 2000 in one session give a summary of 3000 |

## Left out

- `src/database.ts`: connection configuration and the query-builder setup. It is plumbing; the table is the `rows` sequence.
- The `checkSessionIdExist` middleware is not part of this model: its file is not shown. The read handlers take the session id it lets through. The rejection of a request without a cookie is not modelled.
- The logging pre-handler hook (src/routes/transactions.ts:13-15), HTTP routing, route precedence between `/:id` and `/summary`, status codes, and cookies as headers. A created row is answered with 201 and an empty body; the model returns only the cookie it sets.
- `randomUUID`: its two outputs (the row id and a minted session id) are parameters of `Create`, assumed UUID-shaped and unused.
- The UUID check is the 8-4-4-4-12 hexadecimal shape. Any version-digit check a particular validator release adds is not modelled.
- `created_at` and any other column filled in by the database schema: the migrations are not part of this model.
- Storage failures and concurrent requests: each handler is one atomic statement here.
- JavaScript floating-point numbers: amounts are unbounded integers, so fractional amounts, `-0` and precision loss are not modelled.
- Row order: SQL without `ORDER BY` promises none. The model lists rows in table order and takes the first match in table order. Properties stated by membership do not depend on that order. With unique ids, at most one row matches the get-by-id query.
- Fields outside the create schema are ignored by the model, as the validator strips them; non-JSON bodies are not modelled.
