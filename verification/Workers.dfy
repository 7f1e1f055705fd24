/** One worker's loop over the shared queue. */
module Workers {
  import opened Model
  import opened Dispatch
  import opened Engine
  import opened SortedQueue
  import opened DispatchServices

  /** One turn of the loop: whether Redis answers, what the dispatch hears, and whether someone calls stop
      while the turn is waiting. */
  datatype Lap = Lap(redis: bool, x: Input, weather: Weather, stopped: bool)

  /** The pops among the results of dequeue. */
  function PopsOf(popped: seq<Option<Id>>): seq<Op> {
    if popped == [] then []
    else
      var n := |popped| - 1;
      PopsOf(popped[..n]) + if popped[n].Some? then [PopOne(popped[n].value)] else []
  }

  lemma PopsSnoc(popped: seq<Option<Id>>, id: Option<Id>)
    ensures PopsOf(popped + [id]) == if id.Some? then PopsOf(popped) + [PopOne(id.value)] else PopsOf(popped)
  {
    assert (popped + [id])[..|popped|] == popped;
  }

  /** What a loop that popped these ids has done to the sorted set: each was there, none twice, each with a score
      no higher than those popped after it and those still there; the rest is untouched. */
  ghost predicate PoppedInOrder(before: map<Id, nat>, after: map<Id, nat>, popped: seq<Option<Id>>) {
    && (forall id :: id in after ==> id in before && after[id] == before[id])
    && (forall id :: id in before && Some(id) !in popped ==> id in after)
    && (forall k :: 0 <= k < |popped| && popped[k].Some? ==> popped[k].value in before && popped[k].value !in after)
    && (forall i, j :: 0 <= i < j < |popped| && popped[i].Some? && popped[j].Some? ==>
          popped[i].value != popped[j].value && before[popped[i].value] <= before[popped[j].value])
    && (forall i, id :: 0 <= i < |popped| && popped[i].Some? && id in after ==> before[popped[i].value] <= before[id])
  }

  lemma OneMorePopped(before: map<Id, nat>, after: map<Id, nat>, popped: seq<Option<Id>>, id: Option<Id>)
    requires PoppedInOrder(before, after, popped)
    requires id.Some? ==> id.value in after && forall j :: j in after ==> after[id.value] <= after[j]
    ensures PoppedInOrder(before, if id.Some? then after - {id.value} else after, popped + [id])
  {
    var more := popped + [id];
    assert more[|popped|] == id && forall k :: 0 <= k < |popped| ==> more[k] == popped[k];
  }

  /** Whatever pops a sorted set admits, one after the other, come out of it in this way. */
  lemma {:induction false} PopsComeInOrder(queue: map<Id, nat>, popped: seq<Option<Id>>)
    requires CanDoAll(queue, PopsOf(popped))
    ensures PoppedInOrder(queue, DoAll(queue, PopsOf(popped)), popped)
    decreases |popped|
  {
    if popped != [] {
      var n := |popped| - 1;
      var id := popped[n];
      assert popped == popped[..n] + [id];
      PopsSnoc(popped[..n], id);
      if id.Some? { OpsFront(queue, PopsOf(popped[..n]), PopOne(id.value)); }
      PopsComeInOrder(queue, popped[..n]);
      var before := DoAll(queue, PopsOf(popped[..n]));
      OneMorePopped(queue, before, popped[..n], id);
      assert DoAll(queue, PopsOf(popped)) == if id.Some? then before - {id.value} else before;
    }
  }

  /** The ids a loop pops begin some drain of the sorted set; so if its scores come from enqueues within one
      shift, they come out by priority, and within a priority by time. */
  lemma LoopPopsInOrder(queue: map<Id, nat>, popped: seq<Option<Id>>, stamps: map<Id, Stamp>) returns (rest: seq<Id>)
    requires CanDoAll(queue, PopsOf(popped))
    ensures Drains(queue, IdsOf(PopsOf(popped)) + rest)
    ensures Stamped(queue, stamps) ==>
              forall i, j :: 0 <= i < j < |popped| && popped[i].Some? && popped[j].Some? ==>
                && popped[i].value in stamps && popped[j].value in stamps
                && NoLater(stamps[popped[i].value], stamps[popped[j].value])
  {
    var ops := PopsOf(popped);
    PopsArePops(popped);
    rest := PopsBeginADrain(queue, ops);
    if Stamped(queue, stamps) {
      PopsAreSorted(queue, stamps, ops);
      forall i, j | 0 <= i < j < |popped| && popped[i].Some? && popped[j].Some?
        ensures popped[i].value in stamps && popped[j].value in stamps
        ensures NoLater(stamps[popped[i].value], stamps[popped[j].value])
      {
        PopAt(popped, i, j);
        PopAt(popped, j, j);
      }
    }
  }

  lemma {:induction false} PopsArePops(popped: seq<Option<Id>>)
    ensures forall k :: 0 <= k < |PopsOf(popped)| ==> PopsOf(popped)[k].PopOne?
    decreases |popped|
  {
    if popped != [] { PopsArePops(popped[..|popped| - 1]); }
  }

  /** Where the pop of turn i stands among the pops, and that later ones stand behind it. */
  lemma {:induction false} PopAt(popped: seq<Option<Id>>, i: nat, j: nat)
    requires i <= j < |popped| && popped[i].Some?
    ensures |PopsOf(popped[..i])| < |PopsOf(popped)|
    ensures PopsOf(popped)[|PopsOf(popped[..i])|] == PopOne(popped[i].value)
    ensures i < j ==> |PopsOf(popped[..i])| < |PopsOf(popped[..j])|
    decreases |popped|
  {
    var n := |popped| - 1;
    if i < n {
      assert popped[..n][..i] == popped[..i];
      if j < n {
        PopAt(popped[..n], i, j);
        assert popped[..n][..j] == popped[..j];
      } else {
        PopAt(popped[..n], i, i);
      }
    }
  }

  /** What dispatches change: the table, the retry queue, the dead-letter queue. */
  datatype Outside = Outside(rows: map<Id, Row>, retries: seq<Message>, deadLetters: seq<DeadLetter>)

  function Dispatched(c: Config, o: Outside, id: Id, lap: Lap): Outside {
    if id !in o.rows then o
    else
      var (row, e) := Suffered(c, id, o.rows[id], lap.x, lap.weather.fault);
      Outside(o.rows[id := row], o.retries + (if lap.weather.rabbit then Emitted(id, Done(e)) else []),
              o.deadLetters + Buried(e, lap.weather.dlq))
  }

  /** After every popped id has run through a whole dispatch, in order. */
  function After(c: Config, o: Outside, popped: seq<Option<Id>>, laps: seq<Lap>): Outside
    requires |popped| == |laps|
  {
    if popped == [] then o
    else
      var n := |popped| - 1;
      var before := After(c, o, popped[..n], laps[..n]);
      if popped[n].Some? then Dispatched(c, before, popped[n].value, laps[n]) else before
  }

  lemma AfterSnoc(c: Config, o: Outside, popped: seq<Option<Id>>, laps: seq<Lap>, id: Option<Id>, lap: Lap)
    requires |popped| == |laps|
    ensures var before := After(c, o, popped, laps);
            After(c, o, popped + [id], laps + [lap]) ==
            if id.Some? then Dispatched(c, before, id.value, lap) else before
  {
    assert (popped + [id])[..|popped|] == popped && (laps + [lap])[..|laps|] == laps;
  }

  lemma {:induction false} UnpoppedIsUntouched(c: Config, o: Outside, popped: seq<Option<Id>>, laps: seq<Lap>, id: Id)
    requires |popped| == |laps| && id in o.rows
    ensures id in After(c, o, popped, laps).rows
    ensures Some(id) !in popped ==> After(c, o, popped, laps).rows[id] == o.rows[id]
    decreases |popped|
  {
    if popped != [] {
      var n := |popped| - 1;
      UnpoppedIsUntouched(c, o, popped[..n], laps[..n], id);
      assert popped[n] in popped;
    }
  }

  /** Of all the turns that popped an id, the last decides about its row; and it leaves the row QUEUED exactly
      when its dispatch broke off between the QUEUED commit and the outcome commit. */
  lemma {:induction false} LastDispatchDecides(
    c: Config, o: Outside, popped: seq<Option<Id>>, laps: seq<Lap>, k: nat, id: Id)
    requires |popped| == |laps| && id in o.rows && k < |popped| && popped[k] == Some(id)
    requires forall j :: k < j < |popped| ==> popped[j] != Some(id)
    ensures var before := After(c, o, popped[..k], laps[..k]).rows;
            var last := After(c, o, popped, laps).rows;
            var x, f := laps[k].x, laps[k].weather.fault;
            && id in before && id in last
            && last[id] == Suffered(c, id, before[id], x, f).0
            && (before[id].status != Queued ==> (last[id].status == Queued <==> CutShort(c, before[id], x, f)))
    decreases |popped|
  {
    var n := |popped| - 1;
    var before := After(c, o, popped[..k], laps[..k]).rows;
    UnpoppedIsUntouched(c, o, popped[..k], laps[..k], id);
    UnpoppedIsUntouched(c, o, popped[..n], laps[..n], id);
    if before[id].status != Queued { LeftQueuedIff(c, id, before[id], laps[k].x, laps[k].weather.fault); }
    if k < n {
      LastDispatchDecides(c, o, popped[..n], laps[..n], k, id);
      assert popped[..n][..k] == popped[..k] && laps[..n][..k] == laps[..k];
    }
  }

  /** How many turns a loop that found the flag up takes, if it is stopped at all: up to the one in which it
      is stopped, that one included. */
  predicate EndsAt(laps: seq<Lap>, turns: nat, running: bool)
    requires turns <= |laps|
  {
    && (forall k :: 0 <= k < turns - 1 ==> !laps[k].stopped)
    && (turns > 0 ==> (running <==> !laps[turns - 1].stopped))
    && (turns == 0 ==> running)
    && (running ==> forall k :: 0 <= k < turns ==> !laps[k].stopped)
  }

  lemma OneMoreTurn(laps: seq<Lap>, turns: nat)
    requires turns < |laps| && EndsAt(laps, turns, true)
    ensures EndsAt(laps, turns + 1, !laps[turns].stopped)
  {}

  /** What dequeue has returned and left, and whether it returned None only when the set was empty for good. */
  ghost predicate Dequeued(before: map<Id, nat>, now: map<Id, nat>, popped: seq<Option<Id>>, laps: seq<Lap>)
    requires |popped| <= |laps|
  {
    && CanDoAll(before, PopsOf(popped)) && now == DoAll(before, PopsOf(popped))
    && forall k :: 0 <= k < |popped| && popped[k].None? && laps[k].redis ==> now == map[]
  }

  lemma OneMoreDequeued(before: map<Id, nat>, now: map<Id, nat>, popped: seq<Option<Id>>, laps: seq<Lap>,
      id: Option<Id>)
    requires |popped| < |laps| && Dequeued(before, now, popped, laps)
    requires id.Some? ==> id.value in now && forall j :: j in now ==> now[id.value] <= now[j]
    requires id.None? && laps[|popped|].redis ==> now == map[]
    ensures Dequeued(before, if id.Some? then now - {id.value} else now, popped + [id], laps)
  {
    PopsSnoc(popped, id);
    if id.Some? { OpsSnoc(before, PopsOf(popped), PopOne(id.value)); }
    assert forall k :: 0 <= k < |popped| ==> (popped + [id])[k] == popped[k];
  }

  class NotificationWorker {
    const dispatcher: DispatchService
    var running: bool

    constructor (dispatcher: DispatchService)
      ensures this.dispatcher == dispatcher && !running
    {
      this.dispatcher := dispatcher;
      running := false;
    }

    /** Raises the flag. The N loops that start creates are those of module Shutdown. */
    method Start()
      modifies this`running
      ensures running
    {
      running := true;
    }

    /** Lowers the flag; the loops see it when their turn is over, and Shutdown says what stop then waits for. */
    method Stop()
      modifies this`running
      ensures !running
    {
      running := false;
    }

    ghost function Around(): Outside
      reads dispatcher, dispatcher.repository, dispatcher.queue
    {
      Outside(dispatcher.repository.rows, dispatcher.queue.retries, dispatcher.deadLetters)
    }

    /** One turn: pop, and dispatch what was popped to the end. */
    method OneTurn(lap: Lap) returns (id: Option<Id>)
      requires dispatcher.repository.Valid()
      modifies dispatcher.repository`rows, dispatcher.queue, dispatcher`deadLetters
      ensures dispatcher.repository.Valid()
      ensures Around() == if id.Some? then Dispatched(dispatcher.config, old(Around()), id.value, lap)
              else old(Around())
      ensures id.Some? <==> lap.redis && old(dispatcher.queue.scores) != map[]
      ensures id.None? ==> dispatcher.queue.scores == old(dispatcher.queue.scores)
      ensures id.Some? ==>
                && id.value in old(dispatcher.queue.scores)
                && (forall j :: j in old(dispatcher.queue.scores) ==>
                      old(dispatcher.queue.scores)[id.value] <= old(dispatcher.queue.scores)[j])
                && dispatcher.queue.scores == old(dispatcher.queue.scores) - {id.value}
    {
      id := dispatcher.queue.Dequeue(lap.redis);
      if id.Some? {
        var _ := dispatcher.Dispatch(id.value, lap.x, lap.weather);
      }
    }

    /** One loop, for at most as many turns as there are laps. Whatever it pops, always a lowest score, it
        dispatches to the end before it looks at the flag again, also in the turn in which it is stopped; an
        exception of a dispatch does not end the loop. */
    method WorkerLoop(laps: seq<Lap>) returns (popped: seq<Option<Id>>)
      requires dispatcher.repository.Valid()
      modifies this`running, dispatcher.repository`rows, dispatcher.queue, dispatcher`deadLetters
      ensures dispatcher.repository.Valid()
      ensures |popped| <= |laps| && (running ==> |popped| == |laps|)
      ensures if old(running) then EndsAt(laps, |popped|, running) else popped == [] && !running
      ensures forall k :: 0 <= k < |popped| - 1 ==> !laps[k].stopped
      ensures !running && popped != [] ==> laps[|popped| - 1].stopped
      ensures PoppedInOrder(old(dispatcher.queue.scores), dispatcher.queue.scores, popped)
      ensures forall k :: 0 <= k < |popped| && popped[k].None? && laps[k].redis ==> dispatcher.queue.scores == map[]
      ensures CanDoAll(old(dispatcher.queue.scores), PopsOf(popped))
      ensures dispatcher.queue.scores == DoAll(old(dispatcher.queue.scores), PopsOf(popped))
      ensures Around() == After(dispatcher.config, old(Around()), popped, laps[..|popped|])
    {
      popped := [];
      ghost var before := Around();
      ghost var scores := dispatcher.queue.scores;
      var i := 0;
      while running && i < |laps|
        invariant 0 <= i <= |laps| && |popped| == i
        invariant dispatcher.repository.Valid()
        invariant if old(running) then EndsAt(laps, i, running) else i == 0 && !running
        invariant Dequeued(scores, dispatcher.queue.scores, popped, laps)
        invariant Around() == After(dispatcher.config, before, popped, laps[..i])
        decreases |laps| - i
      {
        var lap := laps[i];
        ghost var waiting := dispatcher.queue.scores;
        OneMoreTurn(laps, i);
        var id := OneTurn(lap);
        OneMoreDequeued(scores, waiting, popped, laps, id);
        if lap.stopped { Stop(); }
        AfterSnoc(dispatcher.config, before, popped, laps[..i], id, lap);
        assert laps[..i + 1] == laps[..i] + [lap];
        popped := popped + [id];
        i := i + 1;
      }
      PopsComeInOrder(scores, popped);
    }
  }
}
