/** The transaction ledger: the `transactions` table as a sequence of rows,
    the three read handlers as queries over it, and the create handler as
    a method on the object that owns the table. */
module Ledger {
  import opened Wrappers
  import opened Schemas

  /** One row of the `transactions` table. The amount is stored with its
      sign already applied; the request's `type` is not stored. */
  datatype Transaction = Transaction(id: string, title: string, amount: int, sessionId: string)

  /** The cookie the create handler sets when it mints a session. */
  datatype Cookie = Cookie(name: string, value: string, path: string, maxAge: nat)

  /** What a successful create tells the client: only whether a cookie is set. */
  datatype CreateResponse = CreateResponse(setCookie: Option<Cookie>)

  const SessionCookieName: string := "sessionId"
  /** Seven days, in seconds. */
  const SessionMaxAge: nat := 60 * 60 * 24 * 7

  function SessionCookie(sessionId: string): Cookie {
    Cookie(SessionCookieName, sessionId, "/", SessionMaxAge)
  }

  /** The request carries a usable session cookie: present and, as the
      handler's truthiness test demands, not the empty string. */
  predicate HasSession(cookie: Option<string>) {
    cookie.Some? && cookie.value != ""
  }

  /** The amount as stored: a credit keeps the requested amount, a debit
      stores it multiplied by -1. */
  function SignedAmount(kind: Kind, amount: int): (r: int)
    ensures kind == Credit ==> r == amount
    ensures kind == Debit ==> r == -amount
  {
    if kind == Credit then amount else amount * -1
  }

  /** Reading a stored amount back as a request: its sign gives the kind. */
  function KindOfStored(stored: int): Kind {
    if stored < 0 then Debit else Credit
  }

  /** For a positive amount the stored value determines the request:
      its sign is the kind and its magnitude the amount. */
  lemma SignEncodesKind(kind: Kind, amount: int)
    requires amount > 0
    ensures KindOfStored(SignedAmount(kind, amount)) == kind
    ensures (if SignedAmount(kind, amount) < 0 then -SignedAmount(kind, amount) else SignedAmount(kind, amount)) == amount
  {
  }

  /** The validator accepts any number, so a negative credit is stored
      as a debit would be and reads back as one. */
  lemma NegativeCreditReadsAsDebit(amount: int)
    requires amount < 0
    ensures SignedAmount(Credit, amount) == SignedAmount(Debit, -amount)
    ensures KindOfStored(SignedAmount(Credit, amount)) == Debit
  {
  }

  /** `where session_id = sessionId`, then `select`: the rows of one session,
      in table order; a row is listed if and only if it is stored and
      belongs to the session. */
  function ListTransactions(rows: seq<Transaction>, sessionId: string): (r: seq<Transaction>)
    ensures forall t :: t in r <==> t in rows && t.sessionId == sessionId
  {
    if rows == [] then []
    else
      var rest := ListTransactions(rows[1..], sessionId);
      assert rows == [rows[0]] + rows[1..];
      if rows[0].sessionId == sessionId then [rows[0]] + rest else rest
  }

  predicate Matches(t: Transaction, id: string, sessionId: string) {
    t.id == id && t.sessionId == sessionId
  }

  /** `where {id, session_id}`, then `first`: a stored row with both the id
      and the session, or nothing when no row has both. */
  function FindTransaction(rows: seq<Transaction>, id: string, sessionId: string): (r: Option<Transaction>)
    ensures r.Some? ==> r.value in rows && Matches(r.value, id, sessionId)
    ensures r.None? <==> forall t :: t in rows ==> !Matches(t, id, sessionId)
  {
    if rows == [] then None
    else if Matches(rows[0], id, sessionId) then Some(rows[0])
    else
      var rest := FindTransaction(rows[1..], id, sessionId);
      assert rows == [rows[0]] + rows[1..];
      rest
  }

  /** The get-by-id handler: the id parameter is validated first, and an
      invalid one is rejected whatever the table holds; a valid one yields
      the matching row of the caller's session, or no row, which is not an
      error. */
  function GetTransaction(rows: seq<Transaction>, params: map<string, string>, sessionId: string)
    : (r: Result<Option<Transaction>, ValidationError>)
    ensures r.Failure? <==> !("id" in params && IsUuid(params["id"]))
    ensures r.Failure? ==> r.error.issues == {BadField("id")}
    ensures r.Success? && r.value.Some? ==>
      r.value.value in rows && r.value.value.id == params["id"] && r.value.value.sessionId == sessionId
    ensures r.Success? ==>
      (r.value.None? <==> forall t :: t in rows ==> !Matches(t, params["id"], sessionId))
  {
    match ParseIdParams(params)
    case Failure(e) => Failure(e)
    case Success(id) => Success(FindTransaction(rows, id, sessionId))
  }

  /** The arithmetic sum of the stored amounts. */
  function Sum(rows: seq<Transaction>): int {
    if rows == [] then 0 else rows[0].amount + Sum(rows[1..])
  }

  /** `where session_id = sessionId`, then `sum(amount)`: the SQL sum is
      null over no rows, so a session without rows has no summary, and a
      session with rows has the sum of its amounts. */
  function Summary(rows: seq<Transaction>, sessionId: string): (r: Option<int>)
    ensures r.None? <==> forall t :: t in rows ==> t.sessionId != sessionId
  {
    var own := ListTransactions(rows, sessionId);
    if own == [] then None
    else Some(Sum(own))
  }

  lemma {:induction false} ListAppend(a: seq<Transaction>, b: seq<Transaction>, sessionId: string)
    ensures ListTransactions(a + b, sessionId) == ListTransactions(a, sessionId) + ListTransactions(b, sessionId)
  {
    if a != [] {
      assert (a + b)[1..] == a[1..] + b;
      ListAppend(a[1..], b, sessionId);
    } else {
      assert a + b == b;
    }
  }

  lemma {:induction false} SumAppend(a: seq<Transaction>, b: seq<Transaction>)
    ensures Sum(a + b) == Sum(a) + Sum(b)
  {
    if a != [] {
      assert (a + b)[0] == a[0];
      assert (a + b)[1..] == a[1..] + b;
      SumAppend(a[1..], b);
    } else {
      assert a + b == b;
    }
  }

  /** Appending one row leaves the earlier answer of the first-match query
      in place, and can only supply an answer when there was none. */
  lemma {:induction false} FindAppend(rows: seq<Transaction>, t: Transaction, id: string, sessionId: string)
    ensures FindTransaction(rows + [t], id, sessionId) ==
      if FindTransaction(rows, id, sessionId).Some? then FindTransaction(rows, id, sessionId)
      else if Matches(t, id, sessionId) then Some(t) else None
  {
    if rows != [] {
      assert (rows + [t])[1..] == rows[1..] + [t];
      FindAppend(rows[1..], t, id, sessionId);
    }
  }

  /** The listing after one more row: that row is added at the end of its
      own session's listing and nowhere else. */
  lemma ListAfterAppend(rows: seq<Transaction>, t: Transaction, sessionId: string)
    ensures ListTransactions(rows + [t], sessionId) ==
      ListTransactions(rows, sessionId) + (if t.sessionId == sessionId then [t] else [])
  {
    ListAppend(rows, [t], sessionId);
    assert [t][1..] == [];
  }

  /** The summary after one more row: unchanged for every other session;
      for the row's own session, the old net balance (none counting as no
      balance yet) plus the new signed amount. */
  lemma SummaryAfterAppend(rows: seq<Transaction>, t: Transaction, sessionId: string)
    ensures t.sessionId != sessionId ==> Summary(rows + [t], sessionId) == Summary(rows, sessionId)
    ensures t.sessionId == sessionId ==>
      Summary(rows + [t], sessionId) ==
      Some(t.amount + if Summary(rows, sessionId).Some? then Summary(rows, sessionId).value else 0)
  {
    ListAfterAppend(rows, t, sessionId);
    if t.sessionId == sessionId {
      var own := ListTransactions(rows, sessionId);
      SumAppend(own, [t]);
      assert Sum([t]) == t.amount by {
        assert [t][1..] == [];
      }
      if own == [] {
        assert own + [t] == [t];
      }
    } else {
      var own := ListTransactions(rows, sessionId);
      assert own + [] == own;
    }
  }

  /** Session isolation for a write: a row stored under one session changes
      neither the listing, nor any get-by-id, nor the summary of any other
      session. */
  lemma AppendInvisibleToOtherSessions(rows: seq<Transaction>, t: Transaction, params: map<string, string>, sessionId: string)
    requires t.sessionId != sessionId
    ensures ListTransactions(rows + [t], sessionId) == ListTransactions(rows, sessionId)
    ensures GetTransaction(rows + [t], params, sessionId) == GetTransaction(rows, params, sessionId)
    ensures Summary(rows + [t], sessionId) == Summary(rows, sessionId)
  {
    ListAfterAppend(rows, t, sessionId);
    SummaryAfterAppend(rows, t, sessionId);
    if "id" in params {
      FindAppend(rows, t, params["id"], sessionId);
    }
  }

  /** Session isolation for reads: a row of another session is never listed,
      never returned by id, and never contributes to the summary. */
  lemma OtherSessionNeverVisible(rows: seq<Transaction>, t: Transaction, params: map<string, string>, sessionId: string)
    requires t.sessionId != sessionId
    ensures t !in ListTransactions(rows, sessionId)
    ensures GetTransaction(rows, params, sessionId) != Success(Some(t))
    ensures Summary(rows, sessionId) == Summary(Without(rows, t), sessionId)
  {
    WithoutKeepsSession(rows, t, sessionId);
  }

  /** The table with every copy of one row removed. */
  function Without(rows: seq<Transaction>, t: Transaction): (r: seq<Transaction>)
    ensures t !in r
  {
    if rows == [] then []
    else if rows[0] == t then Without(rows[1..], t)
    else [rows[0]] + Without(rows[1..], t)
  }

  lemma {:induction false} WithoutKeepsSession(rows: seq<Transaction>, t: Transaction, sessionId: string)
    requires t.sessionId != sessionId
    ensures ListTransactions(Without(rows, t), sessionId) == ListTransactions(rows, sessionId)
  {
    if rows != [] {
      WithoutKeepsSession(rows[1..], t, sessionId);
      if rows[0] != t {
        assert ([rows[0]] + Without(rows[1..], t))[1..] == Without(rows[1..], t);
      }
    }
  }

  /** No two rows share an id. */
  ghost predicate UniqueIds(rows: seq<Transaction>) {
    forall i, j :: 0 <= i < j < |rows| ==> rows[i].id != rows[j].id
  }

  /** The net balance the requests of one session ask for: credits minus
      debits, written without signed amounts. */
  function TotalCredits(requests: seq<CreateBody>): int {
    if requests == [] then 0
    else (if requests[0].kind == Credit then requests[0].amount else 0) + TotalCredits(requests[1..])
  }

  function TotalDebits(requests: seq<CreateBody>): int {
    if requests == [] then 0
    else (if requests[0].kind == Debit then requests[0].amount else 0) + TotalDebits(requests[1..])
  }

  /** Rows stored from a sequence of create requests sum to the requests'
      credits minus their debits. */
  lemma {:induction false} SumIsCreditsMinusDebits(rows: seq<Transaction>, requests: seq<CreateBody>)
    requires |rows| == |requests|
    requires forall i :: 0 <= i < |rows| ==> rows[i].amount == SignedAmount(requests[i].kind, requests[i].amount)
    ensures Sum(rows) == TotalCredits(requests) - TotalDebits(requests)
  {
    if rows != [] {
      SumIsCreditsMinusDebits(rows[1..], requests[1..]);
    }
  }

  /** The summary of a session whose rows were stored, in table order, from
      a non-empty sequence of create requests is those requests' credits
      minus their debits. */
  lemma SummaryIsCreditsMinusDebits(rows: seq<Transaction>, sessionId: string, requests: seq<CreateBody>)
    requires requests != []
    requires |ListTransactions(rows, sessionId)| == |requests|
    requires forall i :: 0 <= i < |requests| ==>
      ListTransactions(rows, sessionId)[i].amount == SignedAmount(requests[i].kind, requests[i].amount)
    ensures Summary(rows, sessionId) == Some(TotalCredits(requests) - TotalDebits(requests))
  {
    SumIsCreditsMinusDebits(ListTransactions(rows, sessionId), requests);
  }

  /** The table invariant: every stored id is UUID-shaped and no two rows
      share one. */
  ghost predicate WellFormed(rows: seq<Transaction>) {
    UniqueIds(rows) && forall t :: t in rows ==> IsUuid(t.id)
  }

  /** The owner of the `transactions` table. */
  class Ledger {
    var rows: seq<Transaction>

    ghost predicate Valid()
      reads this
    {
      WellFormed(rows)
    }

    /** A freshly migrated, empty table. */
    constructor ()
      ensures Valid() && rows == []
    {
      rows := [];
    }

    /** The create handler. The body is validated first; a rejected body
        changes nothing and sets no cookie. Otherwise the caller's session is
        kept when the request has one, or `newSessionId` is minted and set as
        the cookie, and exactly one row is appended: the fresh id, the title,
        the signed amount and the session in effect. The two fresh values
        stand for the random generator's output. */
    method Create(body: Json, cookie: Option<string>, newSessionId: string, newId: string)
      returns (r: Result<CreateResponse, ValidationError>)
      requires Valid()
      requires IsUuid(newId) && forall t :: t in rows ==> t.id != newId
      requires !HasSession(cookie) ==>
        IsUuid(newSessionId) && forall t :: t in rows ==> t.sessionId != newSessionId
      modifies this
      ensures Valid()
      ensures r.Failure? <==> ParseCreateBody(body).Failure?
      ensures r.Failure? ==> r.error == ParseCreateBody(body).error && rows == old(rows)
      ensures r.Success? ==>
        var b := ParseCreateBody(body).value;
        var session := if HasSession(cookie) then cookie.value else newSessionId;
        && rows == old(rows) + [Transaction(newId, b.title, SignedAmount(b.kind, b.amount), session)]
        && r.value.setCookie == (if HasSession(cookie) then None else Some(SessionCookie(newSessionId)))
    {
      var parsed := ParseCreateBody(body);
      if parsed.Failure? {
        return Failure(parsed.error);
      }
      var b := parsed.value;

      var sessionId := if cookie.Some? then cookie.value else "";
      var setCookie := None;
      if sessionId == "" {
        sessionId := newSessionId;
        setCookie := Some(SessionCookie(sessionId));
      }

      var amount := if b.kind == Credit then b.amount else b.amount * -1;
      rows := rows + [Transaction(newId, b.title, amount, sessionId)];
      r := Success(CreateResponse(setCookie));
    }
  }

  /** With unique ids, get-by-id finds every row the ledger holds, under
      that row's own id and session: the first match can be no other row. */
  lemma StoredRowRetrievable(rows: seq<Transaction>, t: Transaction)
    requires WellFormed(rows)
    requires t in rows
    ensures GetTransaction(rows, map["id" := t.id], t.sessionId) == Success(Some(t))
  {
  }

  /** A session minted by create sees exactly the row created with it. */
  lemma FreshSessionSeesOnlyNewRow(rows: seq<Transaction>, t: Transaction)
    requires forall u :: u in rows ==> u.sessionId != t.sessionId
    ensures ListTransactions(rows + [t], t.sessionId) == [t]
    ensures Summary(rows + [t], t.sessionId) == Some(t.amount)
  {
    ListAfterAppend(rows, t, t.sessionId);
    SummaryAfterAppend(rows, t, t.sessionId);
  }
}
