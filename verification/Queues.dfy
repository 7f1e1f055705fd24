/** The queue service: the sorted set in Redis and the retry queue in RabbitMQ. Whether a server can be
    reached is decided call by call from outside. */
module Queues {
  import opened Model
  import opened Scores
  import opened Engine
  import opened SortedQueue

  class QueueService {
    var scores: map<Id, nat>
    var retries: seq<Message>

    constructor ()
      ensures scores == map[] && retries == []
    {
      scores, retries := map[], [];
    }

    /** ZADD NX: true when Redis answered, whether or not the id was there already. */
    method Enqueue(id: Id, priority: nat, ms: nat, up: bool) returns (ok: bool)
      modifies this`scores
      ensures ok == up
      ensures scores == if up then Do(old(scores), Add(id, priority, ms)) else old(scores)
      ensures scores ==
              if up && id !in old(scores) then old(scores)[id := priority * 1_000_000_000_000 + ms] else old(scores)
    {
      if !up {
        return false;
      }
      var score := Score(priority, ms);
      if id !in scores {
        scores := scores[id := score];
      }
      return true;
    }

    /** BZPOPMIN with a timeout: a lowest score leaves; None when the set is empty or Redis is away. */
    method Dequeue(up: bool) returns (id: Option<Id>)
      modifies this`scores
      ensures id.Some? <==> up && old(scores) != map[]
      ensures id.Some? ==>
                && id.value in old(scores) && (forall j :: j in old(scores) ==> old(scores)[id.value] <= old(scores)[j])
                && scores == old(scores) - {id.value}
      ensures id.Some? ==> CanDo(old(scores), PopOne(id.value)) && scores == Do(old(scores), PopOne(id.value))
      ensures id.None? ==> scores == old(scores)
    {
      if !up || scores == map[] {
        return None;
      }
      MinExists(scores);
      var first :| first in scores && IsMin(scores, first);
      scores := scores - {first};
      return Some(first);
    }

    method Remove(id: Id, up: bool)
      modifies this`scores
      ensures scores == if up then old(scores) - {id} else old(scores)
    {
      if up {
        scores := scores - {id};
      }
    }

    method PublishRetry(id: Id, delay: nat, up: bool) returns (ok: bool)
      modifies this`retries
      ensures ok == up
      ensures retries == if up then old(retries) + [Message(id, delay)] else old(retries)
    {
      if up {
        retries := retries + [Message(id, delay)];
      }
      return up;
    }
  }
}
