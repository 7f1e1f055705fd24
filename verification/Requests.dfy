/** The incoming request and its validation. */
module Requests {
  import opened Model
  import opened Ingest

  /** A request whose fields have been parsed. content holds the channels that have an entry. */
  datatype NotificationCreate = NotificationCreate(
    idempotencyKey: string, event: EventType, priority: nat,
    email: Option<string>, phone: Option<string>, deviceToken: Option<string>, content: set<Channel>)

  function RecipientFor(p: NotificationCreate, ch: Channel): Option<string> {
    match ch
    case Email => p.email
    case Sms => p.phone
    case Push => p.deviceToken
  }

  datatype Problem = NoRecipient(ch: Channel) | NoContent(ch: Channel)

  predicate Reachable(p: NotificationCreate, ch: Channel) {
    RecipientFor(p, ch).Some? && RecipientFor(p, ch).value != ""
  }

  predicate Serves(p: NotificationCreate, ch: Channel) {
    Reachable(p, ch) && ch in p.content
  }

  /** What the fan-out relies on: every mapped channel has a recipient and content. */
  predicate Complete(m: ChannelMap, p: NotificationCreate) {
    forall ch :: ch in ChannelsOf(m, p.event) ==> Serves(p, ch)
  }

  /** Accepts exactly the complete requests; otherwise reports the first channel that is not served, its
      recipient before its content. */
  method Validate(m: ChannelMap, p: NotificationCreate) returns (problem: Option<Problem>)
    ensures problem.None? <==> Complete(m, p)
    ensures problem.None? <==>
              (p.event in m ==>
                && (Email in m[p.event] ==> p.email.Some? && p.email.value != "" && Email in p.content)
                && (Sms in m[p.event] ==> p.phone.Some? && p.phone.value != "" && Sms in p.content)
                && (Push in m[p.event] ==> p.deviceToken.Some? && p.deviceToken.value != "" && Push in p.content))
    ensures problem.Some? ==>
              exists k :: 0 <= k < |ChannelsOf(m, p.event)|
                && ChannelsOf(m, p.event)[k] == problem.value.ch
                && !Serves(p, problem.value.ch)
                && (problem.value.NoRecipient? <==> !Reachable(p, problem.value.ch))
                && forall j :: 0 <= j < k ==> Serves(p, ChannelsOf(m, p.event)[j])
  {
    var channels := ChannelsOf(m, p.event);
    for k := 0 to |channels|
      invariant forall j :: 0 <= j < k ==> Serves(p, channels[j])
    {
      var ch := channels[k];
      assert ch in channels;
      var recipient := RecipientFor(p, ch);
      if recipient.None? || recipient.value == "" {
        return Some(NoRecipient(ch));
      }
      if ch !in p.content {
        return Some(NoContent(ch));
      }
    }
    return None;
  }
}
