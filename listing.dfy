/** The two read routes over the request table, `GET /requests/sent` and
    `GET /requests/received`: a filter on one party followed by an ordering on
    `createdAt`, newest first. */
module Listing {
  import opened Store

  datatype Side = Sender | Recipient

  function Party(q: SwapRequest, side: Side): int {
    match side
    case Sender => q.fromUserId
    case Recipient => q.toUserId
  }

  predicate NewestFirst(s: seq<SwapRequest>) {
    forall i, j :: 0 <= i < j < |s| ==> s[i].createdAt >= s[j].createdAt
  }

  /** The rows whose `side` party is `userId`, in table order. */
  function Involving(rs: seq<SwapRequest>, side: Side, userId: int): (r: seq<SwapRequest>)
    ensures forall q :: multiset(r)[q] == if Party(q, side) == userId then multiset(rs)[q] else 0
  {
    if rs == [] then []
    else
      assert rs == [rs[0]] + rs[1..];
      (if Party(rs[0], side) == userId then [rs[0]] else []) + Involving(rs[1..], side, userId)
  }

  lemma PrependNewest(a: SwapRequest, t: seq<SwapRequest>)
    requires NewestFirst(t)
    requires t != [] ==> a.createdAt >= t[0].createdAt
    ensures NewestFirst([a] + t)
  {
  }

  /** Places `q` into a newest-first sequence. */
  function InsertByAge(q: SwapRequest, s: seq<SwapRequest>): (r: seq<SwapRequest>)
    requires NewestFirst(s)
    ensures NewestFirst(r)
    ensures multiset(r) == multiset(s) + multiset{q}
    ensures r[0] == q || r[0] == s[0]
  {
    if s == [] || q.createdAt >= s[0].createdAt then
      PrependNewest(q, s);
      [q] + s
    else
      var tail := InsertByAge(q, s[1..]);
      assert s == [s[0]] + s[1..];
      PrependNewest(s[0], tail);
      [s[0]] + tail
  }

  /** Orders rows newest first. */
  function ByAge(s: seq<SwapRequest>): (r: seq<SwapRequest>)
    ensures NewestFirst(r)
    ensures multiset(r) == multiset(s)
  {
    if s == [] then []
    else
      assert s == [s[0]] + s[1..];
      InsertByAge(s[0], ByAge(s[1..]))
  }

  /** `GET /requests/sent`: every row the caller sent, each as often as it is stored,
      and no other, newest first. */
  function Sent(rs: seq<SwapRequest>, caller: int): (r: seq<SwapRequest>)
    ensures NewestFirst(r)
    ensures forall q :: multiset(r)[q] == if q.fromUserId == caller then multiset(rs)[q] else 0
  {
    ByAge(Involving(rs, Sender, caller))
  }

  /** `GET /requests/received`: every row addressed to the caller and no other, newest first. */
  function Received(rs: seq<SwapRequest>, caller: int): (r: seq<SwapRequest>)
    ensures NewestFirst(r)
    ensures forall q :: multiset(r)[q] == if q.toUserId == caller then multiset(rs)[q] else 0
  {
    ByAge(Involving(rs, Recipient, caller))
  }

  /** A request just stored is listed for both of its parties. */
  lemma NewRequestListed(rs: seq<SwapRequest>, q: SwapRequest)
    ensures q in Sent(rs + [q], q.fromUserId)
    ensures q in Received(rs + [q], q.toUserId)
  {
  }
}
