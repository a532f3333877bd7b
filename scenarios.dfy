/** The end-to-end tests of the transaction routes, replayed on the model:
    each starts from a freshly migrated (empty) table, and the random
    identifiers the server would generate are parameters. */
module Scenarios {
  import opened Wrappers
  import opened Schemas
  import opened Ledger

  /** POST a credit of 5000 without a cookie: the request is accepted, the
      minted session is set as the cookie, and the table holds one row. */
  method CreateCredit(sessionId: string, id: string) returns (created: Result<CreateResponse, ValidationError>, stored: seq<Transaction>)
    requires IsUuid(sessionId) && IsUuid(id)
    ensures created.Success? && created.value.setCookie == Some(SessionCookie(sessionId))
    ensures stored == [Transaction(id, "New transaction", 5000, sessionId)]
  {
    var ledger := new Ledger();
    var request := CreateBody("New transaction", 5000, Credit);
    CreateBodyRoundTrip(request);
    created := ledger.Create(CreateBodyJson(request), None, sessionId, id);
    stored := ledger.rows;
  }

  /** POST a credit of 5000 without a cookie, then list with the cookie the
      response set: one row, with the posted title and amount. */
  method ListAfterCredit(sessionId: string, id: string) returns (listed: seq<Transaction>)
    requires IsUuid(sessionId) && IsUuid(id)
    ensures |listed| == 1
    ensures listed[0].title == "New transaction" && listed[0].amount == 5000 && listed[0].id == id
  {
    var ledger := new Ledger();
    var request := CreateBody("New transaction", 5000, Credit);
    CreateBodyRoundTrip(request);
    var created := ledger.Create(CreateBodyJson(request), None, sessionId, id);
    var cookie := created.value.setCookie.value;
    FreshSessionSeesOnlyNewRow([], ledger.rows[0]);
    assert ledger.rows == [] + [ledger.rows[0]];
    listed := ListTransactions(ledger.rows, cookie.value);
  }

  /** POST a credit of 5000, list to learn its id, then get it by that id
      with the same cookie: the posted row comes back. */
  method GetAfterCredit(sessionId: string, id: string) returns (got: Result<Option<Transaction>, ValidationError>)
    requires IsUuid(sessionId) && IsUuid(id)
    ensures got.Success? && got.value.Some?
    ensures got.value.value.title == "New transaction" && got.value.value.amount == 5000
  {
    var ledger := new Ledger();
    var request := CreateBody("New transaction", 5000, Credit);
    CreateBodyRoundTrip(request);
    var created := ledger.Create(CreateBodyJson(request), None, sessionId, id);
    var cookie := created.value.setCookie.value;
    FreshSessionSeesOnlyNewRow([], ledger.rows[0]);
    assert ledger.rows == [] + [ledger.rows[0]];
    var listed := ListTransactions(ledger.rows, cookie.value);
    StoredRowRetrievable(ledger.rows, listed[0]);
    got := GetTransaction(ledger.rows, map["id" := listed[0].id], cookie.value);
  }

  /** POST a credit of 5000, then a debit of 2000 with the cookie the first
      response set: the summary of that session is 3000. The second request
      mints no session, so its generated session value goes unused. */
  method SummaryAfterCreditAndDebit(sessionId: string, unusedSessionId: string, id1: string, id2: string)
    returns (summary: Option<int>)
    requires IsUuid(sessionId) && IsUuid(id1) && IsUuid(id2) && id1 != id2
    ensures summary == Some(3000)
  {
    var ledger := new Ledger();
    var credit := CreateBody("Credit transaction", 5000, Credit);
    var debit := CreateBody("Debit transaction", 2000, Debit);
    CreateBodyRoundTrip(credit);
    CreateBodyRoundTrip(debit);
    var first := ledger.Create(CreateBodyJson(credit), None, sessionId, id1);
    var cookie := first.value.setCookie.value;
    var afterCredit := ledger.rows;
    FreshSessionSeesOnlyNewRow([], afterCredit[0]);
    assert afterCredit == [] + [afterCredit[0]];
    var second := ledger.Create(CreateBodyJson(debit), Some(cookie.value), unusedSessionId, id2);
    SummaryAfterAppend(afterCredit, ledger.rows[1], sessionId);
    summary := Summary(ledger.rows, cookie.value);
  }
}
