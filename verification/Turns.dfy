/** First come, first served: the order in which the engine enqueues ids, and the order in which it pops them. */
module Turns {
  import opened Model
  import Dispatch
  import opened Engine

  /** The action takes id out of the sorted set. */
  predicate TakesOut(a: Action, id: Id) {
    (a.Pop? || a.PopLost?) && a.id == id
  }

  ghost predicate NeverTakesOut(run: seq<Action>, id: Id) {
    forall k :: 0 <= k < |run| ==> !TakesOut(run[k], id)
  }

  /** An enqueue of an id that is not there puts it in under its priority and the clock's milliseconds. */
  lemma EnqueueSetsTheScore(c: Config, s: State, i: nat, ms: nat)
    requires Enabled(c, s, Enqueue(i, ms)) && s.tasks[i].id !in s.queue
    ensures Apply(c, s, Enqueue(i, ms)).queue ==
            s.queue[s.tasks[i].id := s.tasks[i].priority * 1_000_000_000_000 + ms]
  {}

  /** Only an enqueue puts anything into the sorted set, and only a pop takes anything out. */
  lemma ScoreStays(c: Config, s: State, a: Action, id: Id)
    requires Enabled(c, s, a) && id in s.queue && !TakesOut(a, id)
    ensures var s' := Apply(c, s, a);
            id in s'.queue && s'.queue[id] == s.queue[id]
  {
    if a.Work? {
      WorkLeavesQueue(c, s, a.i, a.x);
    } else if a.DispatchAtOnce? || a.CrashAtOnce? {
      AtOnceLeavesQueue(c, s, a.i, a.xs);
    } else if a.Enqueue? || a.Pop? || a.PopLost? {
      QueueKeepsScore(c, s, a, id);
    } else if a.Create? || a.Ask? || a.ManualRetry? || a.Drop? {
      WritersLeaveQueue(c, s, a);
    } else if a.Expire? || a.Take? || a.Read? {
      BrokerLeavesQueue(c, s, a);
    } else {
      AnswersLeaveQueue(c, s, a);
    }
  }

  lemma WorkLeavesQueue(c: Config, s: State, i: nat, x: Dispatch.Input)
    requires i < |s.tasks| && s.tasks[i].Dispatching?
    ensures WorkOn(c, s, i, x).queue == s.queue
  {}

  lemma AtOnceLeavesQueue(c: Config, s: State, i: nat, xs: seq<Dispatch.Input>)
    requires i < |s.tasks| && s.tasks[i].Dispatching? && s.tasks[i].id in s.notes
    ensures RunAtOnce(c, s, i, xs).queue == s.queue
  {}

  lemma QueueKeepsScore(c: Config, s: State, a: Action, id: Id)
    requires Enabled(c, s, a) && (a.Enqueue? || a.Pop? || a.PopLost?) && id in s.queue && !TakesOut(a, id)
    ensures id in Apply(c, s, a).queue && Apply(c, s, a).queue[id] == s.queue[id]
  {}

  lemma WritersLeaveQueue(c: Config, s: State, a: Action)
    requires Enabled(c, s, a) && (a.Create? || a.Ask? || a.ManualRetry? || a.Drop?)
    ensures Apply(c, s, a).queue == s.queue
  {}

  lemma BrokerLeavesQueue(c: Config, s: State, a: Action)
    requires Enabled(c, s, a) && (a.Expire? || a.Take? || a.Read?)
    ensures Apply(c, s, a).queue == s.queue
  {}

  lemma AnswersLeaveQueue(c: Config, s: State, a: Action)
    requires Enabled(c, s, a) && (a.Redeliver? || a.RedeliverLate? || a.Ack? || a.Bury?)
    ensures Apply(c, s, a).queue == s.queue
  {}

  /** Along any run, an id that is not taken out keeps its score, whatever is enqueued meanwhile. */
  lemma {:induction false} ScoreStands(c: Config, s: State, run: seq<Action>, id: Id)
    requires Legal(c, s, run) && id in s.queue && NeverTakesOut(run, id)
    ensures id in Exec(c, s, run).queue && Exec(c, s, run).queue[id] == s.queue[id]
    decreases |run|
  {
    if run != [] {
      assert !TakesOut(run[0], id);
      ScoreStays(c, s, run[0], id);
      ScoreStands(c, Apply(c, s, run[0]), run[1..], id);
    }
  }

  /** First come, first served, in any run: a task enqueues a at ms1, and some time later a task enqueues b at
      ms2. If a is the more urgent, less than a shift per priority step later, or equally urgent and earlier,
      then b is not popped as long as a is still there. */
  lemma FirstComeFirstServed(c: Config, s: State, i: nat, ms1: nat, between: seq<Action>, j: nat, ms2: nat,
      after: seq<Action>, k: nat)
    requires Enabled(c, s, Enqueue(i, ms1)) && s.tasks[i].id !in s.queue
    requires Legal(c, Apply(c, s, Enqueue(i, ms1)), between)
    requires var s2 := Exec(c, Apply(c, s, Enqueue(i, ms1)), between);
             && Enabled(c, s2, Enqueue(j, ms2)) && s2.tasks[j].id !in s2.queue
             && Legal(c, Apply(c, s2, Enqueue(j, ms2)), after)
             && NeverTakesOut(between, s.tasks[i].id) && NeverTakesOut(after, s.tasks[i].id)
             && NeverTakesOut(after, s2.tasks[j].id)
             && s.tasks[i].priority * 1_000_000_000_000 + ms1 < s2.tasks[j].priority * 1_000_000_000_000 + ms2
    ensures var s2 := Exec(c, Apply(c, s, Enqueue(i, ms1)), between);
            var s4 := Exec(c, Apply(c, s2, Enqueue(j, ms2)), after);
            var a, b := s.tasks[i].id, s2.tasks[j].id;
            && a in s4.queue && b in s4.queue && !Enabled(c, s4, Pop(k, b)) && !Enabled(c, s4, PopLost(b))
  {
    var a := s.tasks[i].id;
    var s1 := Apply(c, s, Enqueue(i, ms1));
    EnqueueSetsTheScore(c, s, i, ms1);
    ScoreStands(c, s1, between, a);
    var s2 := Exec(c, s1, between);
    var b := s2.tasks[j].id;
    var s3 := Apply(c, s2, Enqueue(j, ms2));
    EnqueueSetsTheScore(c, s2, j, ms2);
    ScoreStands(c, s3, after, a);
    ScoreStands(c, s3, after, b);
  }
}
