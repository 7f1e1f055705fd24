/** The notification manager: fan-out of a request over its channels, and the manual retry. */
module Managers {
  import opened Model
  import opened ChannelKeys
  import opened Engine
  import SortedQueue
  import opened Ingest
  import opened Requests
  import opened Repository
  import opened Queues

  /** The channel keys of a request over a list of channels. */
  function FanOutKeys(base: string, channels: seq<Channel>): set<string> {
    set ch | ch in channels :: ChannelKey(base, ch)
  }

  /** The row of a request on one channel. A complete request has a recipient there. */
  function RequestRow(p: NotificationCreate, ch: Channel): Row {
    var recipient := if RecipientFor(p, ch).Some? then RecipientFor(p, ch).value else "";
    NewRow(p.idempotencyKey, p.event, ch, recipient, p.priority)
  }

  lemma KeysSnoc(base: string, channels: seq<Channel>, ch: Channel)
    ensures FanOutKeys(base, channels + [ch]) == FanOutKeys(base, channels) + {ChannelKey(base, ch)}
  {
    forall k | k in FanOutKeys(base, channels) + {ChannelKey(base, ch)}
      ensures k in FanOutKeys(base, channels + [ch])
    {
      if k in FanOutKeys(base, channels) {
        var c :| c in channels && ChannelKey(base, c) == k;
        assert c in channels + [ch];
      } else {
        assert ch in channels + [ch];
      }
    }
  }

  /** The table, its id counter and the sorted set at one moment, and the ids created so far. */
  datatype Stores = Stores(rows: map<Id, Row>, nextId: Id, scores: map<Id, nat>, created: seq<Id>)

  /** The clock and Redis as one enqueue finds them. */
  datatype Call = Call(ms: nat, up: bool)

  /** One turn of the fan-out loop: a taken key skips the channel, another is inserted and enqueued. */
  function AddOne(s: Stores, p: NotificationCreate, ch: Channel, call: Call): Stores
  {
    if ChannelKey(p.idempotencyKey, ch) in KeysOf(s.rows) then s.(nextId := s.nextId + 1)
    else Stores(s.rows[s.nextId := RequestRow(p, ch)], s.nextId + 1,
                if call.up then SortedQueue.Do(s.scores, SortedQueue.Add(s.nextId, p.priority, call.ms)) else s.scores,
                s.created + [s.nextId])
  }

  function AddEach(s: Stores, p: NotificationCreate, channels: seq<Channel>, calls: nat -> Call): Stores
  {
    if channels == [] then s
    else
      var n := |channels| - 1;
      AddOne(AddEach(s, p, channels[..n], calls), p, channels[n], calls(n))
  }

  lemma AddEachSnoc(s: Stores, p: NotificationCreate, channels: seq<Channel>, k: nat, calls: nat -> Call)
    requires k < |channels|
    ensures AddEach(s, p, channels[..k + 1], calls) ==
            AddOne(AddEach(s, p, channels[..k], calls), p, channels[k], calls(k))
  {
    assert channels[..k + 1][..k] == channels[..k];
  }

  ghost predicate Sound(s: Stores) {
    && (forall id :: id in s.rows || id in s.scores || id in s.created ==> id < s.nextId)
    && (forall a, b :: a in s.rows && b in s.rows && s.rows[a].key == s.rows[b].key ==> a == b)
  }

  /** The id was created for one of the channels, and queued if Redis answered its enqueue. */
  ghost predicate CreatedRow(s: Stores, p: NotificationCreate, channels: seq<Channel>, calls: nat -> Call, id: Id) {
    exists k :: 0 <= k < |channels| && CreatedFor(s, p, channels[k], calls(k), id)
  }

  predicate CreatedFor(s: Stores, p: NotificationCreate, ch: Channel, call: Call, id: Id) {
    && id in s.rows && s.rows[id] == RequestRow(p, ch)
    && (call.up ==> id in s.scores && s.scores[id] == Scores.Score(p.priority, call.ms))
  }

  lemma AddOneKeys(s: Stores, p: NotificationCreate, ch: Channel, call: Call)
    requires Sound(s)
    ensures KeysOf(AddOne(s, p, ch, call).rows) == KeysOf(s.rows) + {ChannelKey(p.idempotencyKey, ch)}
    ensures Sound(AddOne(s, p, ch, call))
  {
    if ChannelKey(p.idempotencyKey, ch) !in KeysOf(s.rows) {
      KeysAfterInsert(s.rows, s.nextId, RequestRow(p, ch));
    }
  }

  /** The fan-out gives every channel of the request a row, its own or an earlier one, and keeps keys
      unique. */
  lemma {:induction false} FanOutCovers(s: Stores, p: NotificationCreate, channels: seq<Channel>, calls: nat -> Call)
    requires Sound(s)
    ensures var t := AddEach(s, p, channels, calls);
            Sound(t) && KeysOf(t.rows) == KeysOf(s.rows) + FanOutKeys(p.idempotencyKey, channels)
    decreases |channels|
  {
    if channels != [] {
      var n := |channels| - 1;
      assert channels == channels[..n] + [channels[n]];
      FanOutCovers(s, p, channels[..n], calls);
      AddOneKeys(AddEach(s, p, channels[..n], calls), p, channels[n], calls(n));
      KeysSnoc(p.idempotencyKey, channels[..n], channels[n]);
    }
  }

  lemma CreatedSurvives(s: Stores, p: NotificationCreate, channels: seq<Channel>, ch: Channel,
      calls: nat -> Call, id: Id)
    requires Sound(s) && CreatedRow(s, p, channels, calls, id)
    ensures CreatedRow(AddOne(s, p, ch, calls(|channels|)), p, channels + [ch], calls, id)
  {
    var k :| 0 <= k < |channels| && CreatedFor(s, p, channels[k], calls(k), id);
    var s' := AddOne(s, p, ch, calls(|channels|));
    assert (channels + [ch])[k] == channels[k] && CreatedFor(s', p, channels[k], calls(k), id);
  }

  lemma NewestIsCreated(s: Stores, p: NotificationCreate, channels: seq<Channel>, ch: Channel,
      calls: nat -> Call, id: Id)
    requires Sound(s) && id !in s.created && id in AddOne(s, p, ch, calls(|channels|)).created
    ensures id == s.nextId && CreatedRow(AddOne(s, p, ch, calls(|channels|)), p, channels + [ch], calls, id)
  {
    var n, s' := |channels|, AddOne(s, p, ch, calls(|channels|));
    assert (channels + [ch])[n] == ch && CreatedFor(s', p, ch, calls(n), id);
  }

  /** Every id the fan-out reports is new, names a row of the request for one of the channels and, when
      Redis answers its enqueue, is queued under the request's priority. */
  lemma {:induction false} FanOutCreates(s: Stores, p: NotificationCreate, channels: seq<Channel>,
      calls: nat -> Call, id: Id)
    requires Sound(s) && s.created == []
    requires id in AddEach(s, p, channels, calls).created
    ensures s.nextId <= id && id !in s.rows
    ensures CreatedRow(AddEach(s, p, channels, calls), p, channels, calls, id)
    decreases |channels|
  {
    if channels != [] {
      var n := |channels| - 1;
      assert channels == channels[..n] + [channels[n]];
      var t := AddEach(s, p, channels[..n], calls);
      FanOutCovers(s, p, channels[..n], calls);
      FanOutOnlyAdds(s, p, channels[..n], calls);
      if id in t.created {
        FanOutCreates(s, p, channels[..n], calls, id);
        CreatedSurvives(t, p, channels[..n], channels[n], calls, id);
      } else {
        NewestIsCreated(t, p, channels[..n], channels[n], calls, id);
      }
    }
  }

  /** No row and no score of s changes, and whatever is new is reported. */
  ghost predicate OnlyAdds(s: Stores, t: Stores) {
    && s.nextId <= t.nextId
    && (forall id :: id in s.rows ==> id in t.rows && t.rows[id] == s.rows[id])
    && (forall id :: id in s.scores ==> id in t.scores && t.scores[id] == s.scores[id])
    && (forall id :: id in s.created ==> id in t.created)
    && (forall id :: (id in t.rows && id !in s.rows) || (id in t.scores && id !in s.scores) ==> id in t.created)
  }

  lemma AddOneOnlyAdds(s: Stores, p: NotificationCreate, ch: Channel, call: Call)
    requires Sound(s)
    ensures OnlyAdds(s, AddOne(s, p, ch, call))
  {
    assert s.nextId !in s.rows && s.nextId !in s.scores;
  }

  /** The fan-out changes no row and no score that was there, and whatever is new it reports. */
  lemma {:induction false} FanOutOnlyAdds(s: Stores, p: NotificationCreate, channels: seq<Channel>, calls: nat -> Call)
    requires Sound(s)
    ensures OnlyAdds(s, AddEach(s, p, channels, calls))
    decreases |channels|
  {
    if channels != [] {
      var n := |channels| - 1;
      FanOutCovers(s, p, channels[..n], calls);
      FanOutOnlyAdds(s, p, channels[..n], calls);
      AddOneOnlyAdds(AddEach(s, p, channels[..n], calls), p, channels[n], calls(n));
    }
  }

  /** Validation is what the fan-out relies on: no row of a complete request lacks its recipient. */
  lemma CompleteRequestsReachSomeone(m: ChannelMap, p: NotificationCreate, calls: nat -> Call, s: Stores, id: Id)
    requires Complete(m, p) && Sound(s) && s.created == []
    requires id in AddEach(s, p, ChannelsOf(m, p.event), calls).created
    ensures var t := AddEach(s, p, ChannelsOf(m, p.event), calls);
            id in t.rows && t.rows[id].recipient != "" && t.rows[id].status == Pending && t.rows[id].retryCount == 0
  {
    FanOutCreates(s, p, ChannelsOf(m, p.event), calls, id);
    var t, channels := AddEach(s, p, ChannelsOf(m, p.event), calls), ChannelsOf(m, p.event);
    var k :| 0 <= k < |channels| && CreatedFor(t, p, channels[k], calls(k), id);
    assert channels[k] in channels;
  }

  /** The columns of a row made for a request: its event, its priority, its key with the channel's name, the
      email address, phone number or device token that the channel goes to, and nothing of a dispatch yet. */
  ghost predicate MadeFor(p: NotificationCreate, row: Row) {
    && row.event == p.event && row.priority == p.priority
    && row.key ==
       p.idempotencyKey + "-" + (if row.channel == Email then "email" else if row.channel == Sms then "sms" else "push")
    && (row.channel == Email && p.email.Some? ==> row.recipient == p.email.value)
    && (row.channel == Sms && p.phone.Some? ==> row.recipient == p.phone.value)
    && (row.channel == Push && p.deviceToken.Some? ==> row.recipient == p.deviceToken.value)
    && row.status == Pending && row.retryCount == 0
    && row.errorCode.None? && row.externalId.None? && row.stime.None?
  }

  /** Every id the fan-out reports names such a row, for one of the channels, which waits under its priority
      from the moment of its enqueue if Redis answered. */
  lemma CreatedColumns(s: Stores, p: NotificationCreate, channels: seq<Channel>, calls: nat -> Call, id: Id)
    requires Sound(s) && s.created == []
    requires id in AddEach(s, p, channels, calls).created
    ensures var t := AddEach(s, p, channels, calls);
            && id in t.rows && id !in s.rows && MadeFor(p, t.rows[id]) && t.rows[id].channel in channels
            && exists k :: 0 <= k < |channels| && channels[k] == t.rows[id].channel
                 && (calls(k).up ==> id in t.scores && t.scores[id] == p.priority * 1_000_000_000_000 + calls(k).ms)
  {
    FanOutCreates(s, p, channels, calls, id);
    var t := AddEach(s, p, channels, calls);
    var k :| 0 <= k < |channels| && CreatedFor(t, p, channels[k], calls(k), id);
    assert channels[k] == t.rows[id].channel;
  }

  lemma AllMadeFor(s: Stores, p: NotificationCreate, channels: seq<Channel>, calls: nat -> Call)
    requires Sound(s) && s.created == []
    ensures var t := AddEach(s, p, channels, calls);
            forall id :: id in t.created ==>
              id in t.rows && id !in s.rows && MadeFor(p, t.rows[id]) && t.rows[id].channel in channels
  {
    var t := AddEach(s, p, channels, calls);
    forall id | id in t.created
      ensures id in t.rows && id !in s.rows && MadeFor(p, t.rows[id]) && t.rows[id].channel in channels
    {
      CreatedColumns(s, p, channels, calls, id);
    }
  }

  /** And after it every channel has a row under the request's key. */
  lemma EveryChannelHasARow(s: Stores, p: NotificationCreate, channels: seq<Channel>, calls: nat -> Call, ch: Channel)
    requires Sound(s) && ch in channels
    ensures var rows := AddEach(s, p, channels, calls).rows;
            exists id :: id in rows && rows[id].key ==
              p.idempotencyKey + "-" + (if ch == Email then "email" else if ch == Sms then "sms" else "push")
  {
    FanOutCovers(s, p, channels, calls);
    assert ChannelKey(p.idempotencyKey, ch) in FanOutKeys(p.idempotencyKey, channels);
  }

  datatype RetryAnswer = Requeued(row: Row) | NotFound | AlreadySent | AlreadyQueued

  /** How Redis answers the idempotency check: not at all, SETNX but not EXPIRE, or both. */
  datatype Check = Unreachable | Unexpiring | Answered

  class NotificationManager {
    const channelMap: ChannelMap
    const repository: NotificationRepository
    const queue: QueueService
    var redis: set<string>

    constructor (channelMap: ChannelMap, repository: NotificationRepository, queue: QueueService)
      ensures this.channelMap == channelMap && this.repository == repository && this.queue == queue && redis == {}
    {
      this.channelMap, this.repository, this.queue := channelMap, repository, queue;
      redis := {};
    }

    ghost function Now(created: seq<Id>): Stores
      reads repository, queue
    {
      Stores(repository.rows, repository.nextId, queue.scores, created)
    }

    /** Ids are handed out before they are queued. */
    ghost predicate Ready()
      reads this, repository, queue
    {
      repository.Valid() && forall id :: id in queue.scores ==> id < repository.nextId
    }

    /** One row per mapped channel, unless Redis knows the key. An exception of Redis ends the call, before or
        after the key is set. failAt is the position of the channel at
        which the database fails for another reason than a taken key, if it does; the exception ends the
        call, and what was done until then stays. */
    method CreateNotification(p: NotificationCreate, check: Check, calls: nat -> Call, failAt: Option<nat>)
      returns (created: seq<Id>, duplicate: bool, raised: bool)
      requires Ready() && Complete(channelMap, p)
      modifies this`redis, repository, queue`scores
      ensures Ready()
      ensures redis == if check.Unreachable? then old(redis) else old(redis) + {p.idempotencyKey}
      ensures duplicate <==> !check.Unreachable? && p.idempotencyKey in old(redis)
      ensures duplicate || !check.Answered? ==> Now(created) == old(Now([])) && raised == !duplicate
      ensures var channels := ChannelsOf(channelMap, p.event);
              check.Answered? && !duplicate ==>
                && (raised <==> failAt.Some? && failAt.value < |channels|)
                && (var served := if raised then channels[..failAt.value] else channels;
                    Now(created) == AddEach(old(Now([])), p, served, calls))
      ensures forall id :: id in created ==>
                && id in repository.rows && id !in old(repository.rows) && MadeFor(p, repository.rows[id])
                && p.event in channelMap && repository.rows[id].channel in channelMap[p.event]
      ensures !duplicate && !raised && p.event in channelMap ==>
                forall ch :: ch in channelMap[p.event] ==>
                  exists id :: id in repository.rows && repository.rows[id].key ==
                    p.idempotencyKey + "-" + (if ch == Email then "email" else if ch == Sms then "sms" else "push")
    {
      created, duplicate, raised := [], false, false;
      if check.Unreachable? {
        raised := true;
        return;
      }
      if p.idempotencyKey in redis {
        duplicate := true;
        assert redis == old(redis) + {p.idempotencyKey};
        return;
      }
      redis := redis + {p.idempotencyKey};
      if check.Unexpiring? {
        raised := true;
        return;
      }
      ghost var before := Now([]);
      var channels := ChannelsOf(channelMap, p.event);
      created, raised := FanOut(p, channels, calls, failAt);
      forall ch | ch in channels && !raised
        ensures exists id :: id in repository.rows && repository.rows[id].key ==
                  p.idempotencyKey + "-" + (if ch == Email then "email" else if ch == Sms then "sms" else "push")
      {
        EveryChannelHasARow(before, p, channels, calls, ch);
      }
    }

    /** The loop over the channels: commit the row, then enqueue it; a taken key skips the channel. */
    method FanOut(p: NotificationCreate, channels: seq<Channel>, calls: nat -> Call, failAt: Option<nat>)
      returns (created: seq<Id>, raised: bool)
      requires Ready()
      modifies repository, queue`scores
      ensures Ready()
      ensures raised <==> failAt.Some? && failAt.value < |channels|
      ensures Now(created) == AddEach(old(Now([])), p, if raised then channels[..failAt.value] else channels, calls)
      ensures forall id :: id in created ==>
                && id in repository.rows && id !in old(repository.rows)
                && MadeFor(p, repository.rows[id]) && repository.rows[id].channel in channels
    {
      created, raised := [], false;
      ghost var before := Now([]);
      var k := 0;
      while k < |channels|
        invariant 0 <= k <= |channels| && Ready()
        invariant failAt.Some? ==> k <= failAt.value
        invariant Now(created) == AddEach(before, p, channels[..k], calls)
      {
        if failAt.Some? && failAt.value == k {
          AllMadeFor(before, p, channels[..k], calls);
          raised := true;
          return;
        }
        created := AddChannel(p, channels, k, created, calls, before);
        k := k + 1;
      }
      assert channels[..k] == channels;
      AllMadeFor(before, p, channels, calls);
    }

    /** One turn of the loop, for channel k; before is the state the loop started from. */
    method AddChannel(p: NotificationCreate, channels: seq<Channel>, k: nat, created: seq<Id>,
        calls: nat -> Call, ghost before: Stores)
      returns (created': seq<Id>)
      requires Ready() && k < |channels| && Now(created) == AddEach(before, p, channels[..k], calls)
      modifies repository, queue`scores
      ensures Ready() && Now(created') == AddEach(before, p, channels[..k + 1], calls)
    {
      AddEachSnoc(before, p, channels, k, calls);
      var ch := channels[k];
      created' := created;
      var saved := repository.Create(RequestRow(p, ch));
      if saved.Some? {
        var _ := queue.Enqueue(saved.value, p.priority, calls(k).ms, calls(k).up);
        created' := created' + [saved.value];
      }
    }

    /** Puts a row back to PENDING with one more retry on record and enqueues it; refuses SENT and QUEUED
        rows. PENDING and RETRYING rows are let through, though their token may still be about. */
    method RetryNotification(id: Id, ms: nat, up: bool) returns (answer: RetryAnswer)
      requires Ready()
      modifies repository`rows, queue`scores
      ensures Ready()
      ensures answer.NotFound? <==> id !in old(repository.rows)
      ensures id in old(repository.rows) ==>
                && (answer.AlreadySent? <==> old(repository.rows)[id].status == Sent)
                && (answer.AlreadyQueued? <==> old(repository.rows)[id].status == Queued)
      ensures !answer.Requeued? ==> repository.rows == old(repository.rows) && queue.scores == old(queue.scores)
      ensures answer.Requeued? ==>
                var was := old(repository.rows)[id];
                var row := was.(status := Pending, retryCount := was.retryCount + 1, errorCode := None);
                && answer.row == row && repository.rows == old(repository.rows)[id := row]
                && row == RetriedByHand(Note(was, NO_HISTORY), was.retryCount).row
                && queue.scores ==
                   if up && id !in old(queue.scores)
                   then old(queue.scores)[id := was.priority * 1_000_000_000_000 + ms] else old(queue.scores)
    {
      var found := repository.GetById(id);
      if found.None? {
        return NotFound;
      }
      var notification := found.value;
      if notification.status == Sent {
        return AlreadySent;
      }
      if notification.status == Queued {
        return AlreadyQueued;
      }
      var patch := Patch(Some(notification.retryCount + 1), Some(None), None, None);
      var updated, _ := repository.UpdateStatus(id, Pending, patch, None);
      var _ := queue.Enqueue(id, notification.priority, ms, up);
      return Requeued(updated.value);
    }
  }
}
