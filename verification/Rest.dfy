/** The engine comes to rest: it is never stuck before, every run of ordinary deliveries that cannot go on
    has ended at rest, and there is always one that gets there without a fault. */
module Rest {
  import opened Model
  import opened Engine
  import opened Exclusivity
  import opened Safety
  import opened Reduction
  import opened Termination
  import opened Attainment

  /** The deliveries of a day on which nothing breaks. */
  predicate Ordinary(a: Action) {
    Delivery(a) && !a.Drop? && !a.PopLost?
  }

  predicate OrdinaryRun(run: seq<Action>) {
    forall k :: 0 <= k < |run| ==> Ordinary(run[k])
  }

  /** What a busy task does next. */
  function NextOf(k: nat, t: Task): Action
    requires !t.Idle? && !t.Asking?
  {
    match t
    case Enqueuing(_, _, _) => Enqueue(k, 0)
    case Acking(_) => Ack(k)
    case Handling(_) => Read(k)
    case Dispatching(_, _) => Work(k, ACCEPTING)
    case Burying(_) => Action.Bury(k)
  }

  /** No manual retry is between its read and its commit. */
  predicate NobodyAsks(s: State) {
    forall i :: 0 <= i < |s.tasks| ==> !s.tasks[i].Asking?
  }

  /** Never stuck: with at least one task and no manual retry under way, some ordinary delivery is possible
      unless everything is at rest. */
  lemma NeverStuck(c: Config, s: State) returns (a: Action)
    requires s.tasks != [] && NobodyAsks(s) && !Quiescent(s)
    ensures Enabled(c, s, a) && Ordinary(a) && (a.Work? ==> a.x == ACCEPTING)
  {
    if k :| 0 <= k < |s.tasks| && !s.tasks[k].Idle? {
      a := NextOf(k, s.tasks[k]);
    } else if s.queue != map[] {
      MinExists(s.queue);
      var id :| IsMin(s.queue, id);
      a := Pop(0, id);
    } else if s.retries != [] {
      a := Expire;
    } else {
      var id :| id in s.results;
      a := Take(0, id);
    }
  }

  /** No ordinary delivery is possible. */
  ghost predicate Exhausted(c: Config, s: State) {
    forall a: Action :: Ordinary(a) ==> !Enabled(c, s, a)
  }

  lemma ExhaustedIsAtRest(c: Config, s: State)
    requires s.tasks != [] && NobodyAsks(s) && Exhausted(c, s)
    ensures Quiescent(s)
  {
    if !Quiescent(s) { var a := NeverStuck(c, s); }
  }

  lemma {:induction false} DeliveriesDoNotAsk(c: Config, s: State, run: seq<Action>)
    requires NobodyAsks(s) && Legal(c, s, run) && DeliveryRun(run)
    ensures NobodyAsks(Exec(c, s, run))
    decreases |run|
  {
    if run != [] {
      assert Delivery(run[0]);
      DeliveryDoesNotAsk(c, s, run[0]);
      DeliveriesDoNotAsk(c, Apply(c, s, run[0]), run[1..]);
    }
  }

  lemma DeliveryDoesNotAsk(c: Config, s: State, a: Action)
    requires NobodyAsks(s) && Enabled(c, s, a) && Delivery(a)
    ensures NobodyAsks(Apply(c, s, a))
  {
    ActionKeepsTasks(c, s, a);
    forall i | 0 <= i < |s.tasks| ensures !Apply(c, s, a).tasks[i].Asking? { AskersAfter(c, s, a, i); }
  }

  lemma {:induction false} DeliveriesAreDisciplined(c: Config, s: State, run: seq<Action>)
    requires Legal(c, s, run) && DeliveryRun(run)
    ensures FineRun(run) && DisciplinedRun(c, s, run)
    decreases |run|
  {
    if run != [] {
      assert Delivery(run[0]);
      DeliveriesAreDisciplined(c, Apply(c, s, run[0]), run[1..]);
    }
  }

  /** Every run of deliveries after a disciplined run is finite, and when it cannot go on the engine is at
      rest: the rows without an outcome are exactly the stranded ones, and none if no token was dropped. */
  lemma DeliveriesEndAtRest(c: Config, tasks: nat, run: seq<Action>, more: seq<Action>, id: Id)
    requires tasks > 0 && Disciplining(c, tasks, run) && NobodyAsks(Exec(c, Init(tasks), run))
    requires Legal(c, Exec(c, Init(tasks), run), more) && DeliveryRun(more)
    requires id in Exec(c, Exec(c, Init(tasks), run), more).notes
    ensures var s := Exec(c, Init(tasks), run);
            var t := Exec(c, s, more);
            && |more| <= Measure(c, s)
            && (Exhausted(c, t) ==>
                  && Quiescent(t) && (Active(t.notes[id].row) <==> id in t.stranded)
                  && (t.dropped == multiset{} ==> t.notes[id].row.status in {Sent, Failed}))
  {
    var s := Exec(c, Init(tasks), run);
    InitIsGood(c, tasks);
    RunKeeps(c, Init(tasks), run);
    DeliveryEnds(c, s, more);
    DeliveriesAreDisciplined(c, s, more);
    DeliveriesDoNotAsk(c, s, more);
    Append(c, Init(tasks), run, more);
    AppendDisciplined(c, Init(tasks), run, more);
    RunKeepsTasks(c, Init(tasks), run + more);
    if Exhausted(c, Exec(c, s, more)) {
      ExhaustedIsAtRest(c, Exec(c, s, more));
      RestMeansSettled(c, tasks, run + more, id);
    }
  }

  lemma {:induction false} RunKeepsTasks(c: Config, s: State, run: seq<Action>)
    requires Legal(c, s, run) && FineRun(run)
    ensures |Exec(c, s, run).tasks| == |s.tasks|
    decreases |run|
  {
    if run != [] {
      assert Fine(run[0]);
      ActionKeepsTasks(c, s, run[0]);
      RunKeepsTasks(c, Apply(c, s, run[0]), run[1..]);
    }
  }

  lemma OrdinaryDropsNothing(c: Config, s: State, a: Action)
    requires Inv(c, s) && Enabled(c, s, a) && Ordinary(a) && (a.Work? ==> a.x == ACCEPTING)
    ensures Apply(c, s, a).dropped == s.dropped
  {
    if a.Work? || a.Read? { assert TaskGood(c, s.notes, s.tasks[a.i]); }
  }

  /** From every good state rest is reached without a fault. */
  lemma {:induction false} RestIsReached(c: Config, s: State) returns (run: seq<Action>)
    requires Inv(c, s) && s.tasks != [] && NobodyAsks(s)
    ensures Legal(c, s, run) && OrdinaryRun(run)
    ensures Quiescent(Exec(c, s, run)) && Exec(c, s, run).dropped == s.dropped
    decreases Measure(c, s)
  {
    run := [];
    if !Quiescent(s) {
      var a := NeverStuck(c, s);
      DeliveryDoesNotAsk(c, s, a);
      DeliverySpends(c, s, a);
      ActionKeeps(c, s, a);
      ActionKeepsTasks(c, s, a);
      OrdinaryDropsNothing(c, s, a);
      var rest := RestIsReached(c, Apply(c, s, a));
      run := [a] + rest;
      assert run[1..] == rest;
    }
  }
}
