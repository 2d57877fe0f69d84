/** Shaping of push notifications (src/ws/notification.ts): the payload handed to the
    connection registry and the registry key it is sent under. */
module Notification {
  import opened Wrappers
  import Decimal

  /** The five notification tags the payload type admits. */
  datatype Kind = Mention | Answer | Comment | SwapRequest | SwapResponse

  /** The wire spelling of a tag. */
  function Tag(k: Kind): string {
    match k
    case Mention => "mention"
    case Answer => "answer"
    case Comment => "comment"
    case SwapRequest => "swap-request"
    case SwapResponse => "swap-response"
  }

  /** Reads a wire tag back; only the five spellings are accepted. */
  function ParseTag(s: string): Option<Kind> {
    if s == "mention" then Some(Mention)
    else if s == "answer" then Some(Answer)
    else if s == "comment" then Some(Comment)
    else if s == "swap-request" then Some(SwapRequest)
    else if s == "swap-response" then Some(SwapResponse)
    else None
  }

  lemma TagRoundTrip(k: Kind, s: string)
    ensures ParseTag(Tag(k)) == Some(k)
    ensures ParseTag(s) == Some(k) ==> s == Tag(k)
  {
  }

  /** What a route asks to send: the target user, the text and the tag. */
  datatype Notice = Notice(userId: int, message: string, kind: Kind)

  /** What is delivered: text, tag and the generation time (an ISO-8601 string);
      the target user id has no field here. */
  datatype Payload = Payload(message: string, kind: Kind, timestamp: string)

  /** The key and payload `notifyUser` hands to `sendNotification`. */
  datatype Dispatch = Dispatch(key: string, payload: Payload)

  /** `notifyUser`: the clock reading is a parameter. The function returns what is
      dispatched, not whether it was delivered: the route's caller gets nothing back. */
  function NotifyUser(n: Notice, timestamp: string): (d: Dispatch)
    ensures d.payload.message == n.message && d.payload.kind == n.kind
    ensures d.payload.timestamp == timestamp
    ensures d.key == Decimal.Show(n.userId) && Decimal.Parse(d.key) == Some(n.userId)
  {
    Decimal.ShowRoundTrip(n.userId);
    Dispatch(Decimal.Show(n.userId), Payload(n.message, n.kind, timestamp))
  }

  /** The target user reaches the delivered payload only through the key: two notices
      that differ only in their target carry equal payloads, under different keys. */
  lemma PayloadOmitsTarget(n: Notice, userId: int, timestamp: string)
    ensures NotifyUser(n.(userId := userId), timestamp).payload == NotifyUser(n, timestamp).payload
    ensures userId != n.userId ==>
              NotifyUser(n.(userId := userId), timestamp).key != NotifyUser(n, timestamp).key
  {
  }
}
