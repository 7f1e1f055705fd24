/** The RabbitMQ handler: what it does with a message and how it answers the broker. */
module Handlers {
  import opened Model
  import opened Ingest
  import opened Requests
  import opened Repository
  import opened Managers

  const MAX_DELIVERY_ATTEMPTS := 3

  /** A message body as the handler finds it. Unusable: reading it raises anything else. */
  datatype Body = NotJson | MissingField | Unusable | Request(p: NotificationCreate)

  /** Ack removes the message, Discard rejects it for good, Requeue asks for redelivery. */
  datatype Receipt = Ack | Discard | Requeue

  class RabbitMQHandler {
    const manager: NotificationManager

    constructor (manager: NotificationManager)
      ensures this.manager == manager
    {
      this.manager := manager;
    }

    /** Creates the notifications of a new event. A message is acknowledged exactly when creation ended
        without an exception, and then either Redis knew its key or every mapped channel has been served;
        a broken message is discarded; anything else is redelivered until the attempts run out. */
    method OnNewEvent(body: Body, deliveries: nat, check: Check, calls: nat -> Call, failAt: Option<nat>)
      returns (receipt: Receipt)
      requires manager.Ready()
      modifies manager`redis, manager.repository, manager.queue`scores
      ensures manager.Ready()
      ensures body.NotJson? || body.MissingField? ==> receipt == Discard
      ensures body.Unusable? || (body.Request? && !Complete(manager.channelMap, body.p)) ==>
              receipt == if deliveries >= 3 then Discard else Requeue
      ensures !body.Request? || !Complete(manager.channelMap, body.p) || check.Unreachable?
                || body.p.idempotencyKey in old(manager.redis) ==>
                manager.Now([]) == old(manager.Now([])) && manager.redis == old(manager.redis)
      ensures body.Request? && Complete(manager.channelMap, body.p) && check.Unreachable? ==>
              receipt == if deliveries >= 3 then Discard else Requeue
      ensures body.Request? && Complete(manager.channelMap, body.p) && !check.Unreachable? ==>
                && (var channels := ChannelsOf(manager.channelMap, body.p.event);
                    var known := body.p.idempotencyKey in old(manager.redis);
                    var failing := failAt.Some? && failAt.value < |channels|;
                    var served := if check.Unexpiring? then 0 else if failing then failAt.value else |channels|;
                    var raised := check.Unexpiring? || served < |channels|;
                    && manager.redis == old(manager.redis) + {body.p.idempotencyKey}
                    && receipt == (if known || !raised then Ack else if deliveries >= 3 then Discard else Requeue)
                    && (!known ==>
                          var t := AddEach(old(manager.Now([])), body.p, channels[..served], calls);
                          manager.Now(t.created) == t)
                    && (receipt == Ack && !known ==>
                          KeysOf(manager.repository.rows) ==
                          KeysOf(old(manager.repository.rows)) + FanOutKeys(body.p.idempotencyKey, channels)))
    {
      match body {
        case NotJson => return Discard;
        case MissingField => return Discard;
        case Unusable => receipt := Refuse(deliveries);
        case Request(p) =>
          var problem := Validate(manager.channelMap, p);
          if problem.Some? {
            receipt := Refuse(deliveries);
            return;
          }
          ghost var before, channels := manager.Now([]), ChannelsOf(manager.channelMap, p.event);
          var created, duplicate, raised := manager.CreateNotification(p, check, calls, failAt);
          assert channels[..|channels|] == channels;
          if raised {
            receipt := Refuse(deliveries);
            return;
          }
          if !duplicate { FanOutCovers(before, p, channels, calls); }
          return Ack;
      }
    }

    /** Redelivery up to the third redelivery, rejection from then on. */
    method Refuse(deliveries: nat) returns (receipt: Receipt)
      ensures receipt == if deliveries >= 3 then Discard else Requeue
    {
      return if deliveries >= MAX_DELIVERY_ATTEMPTS then Discard else Requeue;
    }

    /** The broker delivers one message until it is acknowledged or discarded, n times at most; counts are what
        it reports as deliveries made before, and the other inputs are per delivery too. */
    method DeliverUntilSettled(body: Body, n: nat, counts: nat -> nat, checks: nat -> Check,
        calls: nat -> nat -> Call, failAts: nat -> Option<nat>)
      returns (receipts: seq<Receipt>)
      requires manager.Ready()
      modifies manager`redis, manager.repository, manager.queue`scores
      ensures manager.Ready()
      ensures |receipts| <= n && (forall k :: 0 <= k < |receipts| - 1 ==> receipts[k] == Requeue)
      ensures |receipts| < n ==> receipts != [] && receipts[|receipts| - 1] != Requeue
      // always failing before its key is in Redis: requeued exactly three times and then discarded, if the broker
      // counts, and requeued for ever if it does not; and nothing else happens
      ensures body.Unusable? || (body.Request? && !Complete(manager.channelMap, body.p))
                || (body.Request? && forall k :: checks(k).Unreachable?) ==>
                && manager.Now([]) == old(manager.Now([])) && manager.redis == old(manager.redis)
                && ((forall k :: counts(k) == k) && n >= 4 ==> receipts == [Requeue, Requeue, Requeue, Discard])
                && ((forall k :: counts(k) < 3) ==> receipts == seq(n, _ => Requeue))
      // failing once after its key is in Redis: requeued once and acknowledged as a duplicate, and the channels
      // from the failing one on stay without a row of this message
      ensures n >= 2 && counts(0) < 3 && body.Request? && Complete(manager.channelMap, body.p)
                && body.p.idempotencyKey !in old(manager.redis) && checks(0).Answered? && !checks(1).Unreachable?
                && failAts(0).Some? && failAts(0).value < |ChannelsOf(manager.channelMap, body.p.event)| ==>
                && receipts == [Requeue, Ack]
                && (var first := ChannelsOf(manager.channelMap, body.p.event)[..failAts(0).value];
                    KeysOf(manager.repository.rows) ==
                    KeysOf(old(manager.repository.rows)) + FanOutKeys(body.p.idempotencyKey, first))
    {
      receipts := [];
      ghost var before, redis := manager.Now([]), manager.redis;
      ghost var channels := if body.Request? then ChannelsOf(manager.channelMap, body.p.event) else [];
      ghost var futile := body.Unusable? || (body.Request? && !Complete(manager.channelMap, body.p))
                          || (body.Request? && forall k :: checks(k).Unreachable?);
      ghost var halfway := counts(0) < 3 && body.Request? && Complete(manager.channelMap, body.p)
                           && body.p.idempotencyKey !in redis && checks(0).Answered? && !checks(1).Unreachable?
                           && failAts(0).Some? && failAts(0).value < |channels|;
      ghost var counted := forall k :: counts(k) == k;
      if halfway { FanOutCovers(before, body.p, channels[..failAts(0).value], calls(0)); }
      while |receipts| < n
        invariant manager.Ready() && |receipts| <= n
        invariant forall k :: 0 <= k < |receipts| ==> receipts[k] == Requeue
        invariant futile || receipts == [] ==> manager.Now([]) == before && manager.redis == redis
        invariant futile && counted ==> |receipts| <= 3
        invariant halfway && receipts != [] ==>
                    && |receipts| == 1 && body.p.idempotencyKey in manager.redis
                    && KeysOf(manager.repository.rows) ==
                       KeysOf(before.rows) + FanOutKeys(body.p.idempotencyKey, channels[..failAts(0).value])
        decreases n - |receipts|
      {
        var k := |receipts|;
        var receipt := OnNewEvent(body, counts(k), checks(k), calls(k), failAts(k));
        receipts := receipts + [receipt];
        if receipt != Requeue {
          return;
        }
      }
    }

    /** Puts the id of an expired retry message back into the sorted set under its row's priority. An
        unreadable body or a failing database loses the message; an enqueue that fails is acknowledged all
        the same, and so is an id without a row. */
    method OnRetryEvent(body: Option<Id>, database: bool, ms: nat, up: bool) returns (receipt: Receipt)
      requires manager.Ready()
      modifies manager.queue`scores
      ensures manager.Ready()
      ensures receipt == if body.Some? && database then Ack else Discard
      ensures var rows := manager.repository.rows;
              manager.queue.scores ==
              if body.Some? && database && up && body.value in rows && body.value !in old(manager.queue.scores)
              then old(manager.queue.scores)[body.value := rows[body.value].priority * 1_000_000_000_000 + ms]
              else old(manager.queue.scores)
    {
      if body.None? || !database {
        return Discard;
      }
      var notification := manager.repository.GetById(body.value);
      if notification.Some? {
        var _ := manager.queue.Enqueue(body.value, notification.value.priority, ms, up);
      }
      return Ack;
    }
  }
}
