/** What goes wrong without the rules of Exclusivity, and what goes wrong in spite of them: concrete runs of
    the program. */
module Witness {
  import opened Model
  import opened Dispatch
  import opened Scores
  import opened Engine
  import opened Exclusivity
  import opened Safety
  import opened Reduction
  import opened Sends
  import opened Attainment
  import opened DispatchServices

  const EVERY_CHANNEL := Config({Email, Sms, Push}, map[], BULK_POLICY)
  const DOWN := Input(false, ProviderResult(false, None, None), 0, 0)
  const ORDER := NewRow("order-1", OrderCreated, Email, "a@b", 3)

  const REFUSING := Input(true, ProviderResult(false, None, Some(4)), 0, 0)

  /** The state with one row, one task at work on it and two free. */
  function Lone(n: Note, t: Task, queue: map<Id, nat>, retries: seq<Message>, results: multiset<Id>): State {
    Pair(n, t, Idle, queue, retries, results)
  }

  /** The state with one row, two tasks at work on it and one free. */
  function Pair(n: Note, t: Task, u: Task, queue: map<Id, nat>, retries: seq<Message>, results: multiset<Id>): State {
    State(map[1 := n], queue, [t, u, Idle], retries, results, [], {}, map[], multiset{}, multiset{}, multiset{})
  }

  lemma ThenDisciplined(c: Config, s: State, run: seq<Action>, a: Action)
    requires Legal(c, s, run) && FineRun(run) && DisciplinedRun(c, s, run)
    requires Enabled(c, Exec(c, s, run), a) && Fine(a) && Disciplined(Exec(c, s, run), a)
    ensures Legal(c, s, run + [a]) && Exec(c, s, run + [a]) == Apply(c, Exec(c, s, run), a)
    ensures FineRun(run + [a]) && DisciplinedRun(c, s, run + [a])
  {
    assert [a][1..] == [];
    Append(c, s, run, [a]);
    AppendDisciplined(c, s, run, [a]);
  }

  ghost predicate Reaches(run: seq<Action>, s: State) {
    Disciplining(EVERY_CHANNEL, 3, run) && Exec(EVERY_CHANNEL, Init(3), run) == s
  }

  lemma Go(run: seq<Action>, s: State, a: Action, s': State)
    requires Reaches(run, s) && Enabled(EVERY_CHANNEL, s, a) && Fine(a) && Disciplined(s, a)
    requires Apply(EVERY_CHANNEL, s, a) == s'
    ensures Reaches(run + [a], s')
  {
    ThenDisciplined(EVERY_CHANNEL, Init(3), run, a);
  }

  /** Created, enqueued, popped. */
  lemma FirstPop() returns (run: seq<Action>)
    ensures Reaches(run, Lone(Note(ORDER, NO_HISTORY), Dispatching(1, Fetched), map[], [], multiset{}))
  {
    var n := Note(ORDER, NO_HISTORY);
    var created := Lone(n, Enqueuing(1, 3, false), map[], [], multiset{});
    var queued := Lone(n, Idle, map[1 := Score(3, 0)], [], multiset{});
    run := FirstRow();
    EnqueuedAlone(n, false, Idle);
    Go(run, created, Enqueue(0, 0), queued);
    run := run + [Enqueue(0, 0)];
    PoppedAlone(n, Idle);
    Go(run, queued, Pop(0, 1), Lone(n, Dispatching(1, Fetched), map[], [], multiset{}));
    run := run + [Pop(0, 1)];
  }

  lemma FirstRow() returns (run: seq<Action>)
    ensures Reaches(run, Lone(Note(ORDER, NO_HISTORY), Enqueuing(1, 3, false), map[], [], multiset{}))
  {
    var create := Create(0, 1, "order-1", OrderCreated, Email, "a@b", 3);
    Go([], Init(3), create, Lone(Note(ORDER, NO_HISTORY), Enqueuing(1, 3, false), map[], [], multiset{}));
    run := [] + [create];
  }

  lemma EnqueuedAlone(n: Note, handler: bool, u: Task)
    ensures var s := Pair(n, Enqueuing(1, 3, handler), u, map[], [], multiset{});
            Apply(EVERY_CHANNEL, s, Enqueue(0, 0)) ==
            Pair(n, if handler then Acking(1) else Idle, u, map[1 := Score(3, 0)], [], multiset{})
  {}

  lemma PoppedAlone(n: Note, u: Task)
    ensures var s := Pair(n, Idle, u, map[1 := Score(3, 0)], [], multiset{});
            && Enabled(EVERY_CHANNEL, s, Pop(0, 1))
            && Apply(EVERY_CHANNEL, s, Pop(0, 1)) == Pair(n, Dispatching(1, Fetched), u, map[], [], multiset{})
  {
    assert map[1 := Score(3, 0)] - {1} == map[];
  }

  lemma RefusedOnce(id: Id, n: Note) returns (m: Note, delay: nat)
    requires n.row.channel in EVERY_CHANNEL.providers && n.row.retryCount == 0
    ensures DispatchOnce(EVERY_CHANNEL, id, n, DOWN) == (m, Emit(delay))
    ensures m.row == n.row.(status := Retrying, retryCount := 1, errorCode := Some(ProviderDown))
    ensures m.past.replies == n.past.replies && m.past.manuals == n.past.manuals
  {
    m, delay := DispatchOnce(EVERY_CHANNEL, id, n, DOWN).0, DispatchOnce(EVERY_CHANNEL, id, n, DOWN).1.delay;
  }

  /** Then refused, because the provider is down: RETRYING, with a message in RabbitMQ. */
  lemma FirstFailure() returns (run: seq<Action>, n: Note, delay: nat)
    ensures Reaches(run, Lone(n, Idle, map[], [Message(1, delay)], multiset{}))
    ensures n.row == ORDER.(status := Retrying, retryCount := 1, errorCode := Some(ProviderDown))
    ensures n.past.replies == [] && n.past.manuals == 0
  {
    var c, start, n0 := EVERY_CHANNEL, Init(3), Note(ORDER, NO_HISTORY);
    run := FirstPop();
    n, delay := RefusedOnce(1, n0);
    var s := Lone(n0, Dispatching(1, Fetched), map[], [], multiset{});
    var more := Uninterrupted(c, s, 0, Copies(DOWN, 6));
    StepsMakeOneDispatch(c, 1, n0, DOWN);
    WorkIsDisciplined(c, s, more);
    Append(c, start, run, more);
    AppendDisciplined(c, start, run, more);
    SettledRetrying(n0, n, delay);
    run := run + more;
  }

  lemma SettledRetrying(n: Note, m: Note, delay: nat)
    ensures Settle(Lone(n, Dispatching(1, Fetched), map[], [], multiset{}), 0, 1, m, Done(Emit(delay))) ==
            Lone(m, Idle, map[], [Message(1, delay)], multiset{})
  {
    assert map[1 := n][1 := m] == map[1 := m];
  }

  /** The chances of the one row can be read off. */
  lemma PairChances(c: Config, s: State, n: Note, t: Task, u: Task)
    requires s.notes == map[1 := n] && s.tasks == [t, u, Idle]
    ensures Chances(c, s, 1) ==
            Flag(1 in s.queue) + Flag(CanSend(c, t, 1)) + Flag(CanSend(c, u, 1)) + InRetry(s.retries, 1) + s.results[1]
  {
    var two: seq<Task> := [u, Idle];
    var one: seq<Task> := [Idle];
    assert s.tasks[1..] == two && two[1..] == one && one[1..] == [];
    assert Able(c, two, 1) == Flag(CanSend(c, u, 1)) + Able(c, one, 1);
    assert Able(c, one, 1) == Flag(CanSend(c, Idle, 1)) + Able(c, one[1..], 1);
  }

  /** A run of the program, disciplined or not, from s to t. */
  ghost predicate Goes(s: State, run: seq<Action>, t: State) {
    Legal(EVERY_CHANNEL, s, run) && FineRun(run) && Exec(EVERY_CHANNEL, s, run) == t
  }

  lemma GoOn(s: State, run: seq<Action>, t: State, a: Action, u: State)
    requires Goes(s, run, t) && Enabled(EVERY_CHANNEL, t, a) && Fine(a) && Apply(EVERY_CHANNEL, t, a) == u
    ensures Goes(s, run + [a], u)
  {
    assert [a][1..] == [];
    Append(EVERY_CHANNEL, s, run, [a]);
  }

  lemma GoFurther(s: State, run: seq<Action>, t: State, more: seq<Action>, u: State)
    requires Goes(s, run, t) && Goes(t, more, u)
    ensures Goes(s, run + more, u)
  {
    Append(EVERY_CHANNEL, s, run, more);
  }

  /** After some run to s', nothing but ordinary work leads to the second accepted send. */
  lemma SecondSend(s: State, run: seq<Action>, s': State, j: nat) returns (after: seq<Action>, t: State)
    requires Tied(s') && Goes(s, run, s') && j < |s'.tasks| && s'.tasks[j].Idle?
    requires 1 in s'.notes && s'.notes[1].row.channel in EVERY_CHANNEL.providers
    requires Potential(EVERY_CHANNEL, s', 1) == 2
    ensures Goes(s, run + after, t) && QuietRun(after)
    ensures 1 in t.notes && Deliveries(t.notes[1]) == 2 && t.dropped == s'.dropped
    ensures t.notes[1].past.manuals == s'.notes[1].past.manuals && t.redelivered == s'.redelivered
  {
    after := PotentialIsReached(EVERY_CHANNEL, s', j, 1);
    t := Exec(EVERY_CHANNEL, s', after);
    QuietRunKeepsBudget(EVERY_CHANNEL, s', after, 1);
    GoFurther(s, run, s', after, t);
  }

  lemma ReachedIsTied(run: seq<Action>, s: State)
    requires Reaches(run, s)
    ensures Tied(s)
  {
    InitIsFrugal(EVERY_CHANNEL, 3);
    RunKeepsTied(EVERY_CHANNEL, Init(3), run);
  }

  /** A row is RETRYING after the provider was down, and is retried by hand: it can be accepted twice, without
      any fault and without any redelivery. */
  lemma ManualRetryOfRetryingSendsTwice() returns (before: seq<Action>, s: State, after: seq<Action>, t: State)
    ensures Reaches(before, s)
    ensures 1 in s.notes && s.notes[1].row.status == Retrying
    ensures Goes(s, [Ask(0, 1)] + [ManualRetry(0, 1)] + after, t) && QuietRun(after)
    ensures 1 in t.notes && Deliveries(t.notes[1]) == 2
    ensures t.notes[1].past.manuals == 1 && t.redelivered == multiset{} && t.dropped == multiset{}
  {
    var n, delay;
    before, n, delay := FirstFailure();
    s := Lone(n, Idle, map[], [Message(1, delay)], multiset{});
    ReachedIsTied(before, s);
    var s2 := RetriedWhileRetrying(n, delay);
    RunKeepsTied(EVERY_CHANNEL, s, [Ask(0, 1)] + [ManualRetry(0, 1)]);
    after, t := SecondSend(s, [Ask(0, 1)] + [ManualRetry(0, 1)], s2, 1);
  }

  lemma RetriedWhileRetrying(n: Note, delay: nat) returns (t: State)
    requires n.row == ORDER.(status := Retrying, retryCount := 1, errorCode := Some(ProviderDown))
    requires n.past.replies == []
    ensures Goes(Lone(n, Idle, map[], [Message(1, delay)], multiset{}), [Ask(0, 1)] + [ManualRetry(0, 1)], t)
    ensures t == Pair(RetriedByHand(n, 1), Enqueuing(1, 3, false), Idle, map[], [Message(1, delay)], multiset{})
    ensures Potential(EVERY_CHANNEL, t, 1) == 2
  {
    var s := Lone(n, Idle, map[], [Message(1, delay)], multiset{});
    var s1 := Lone(n, Asking(1, 1), map[], [Message(1, delay)], multiset{});
    GoOn(s, [], s, Ask(0, 1), s1);
    assert [] + [Ask(0, 1)] == [Ask(0, 1)];
    t := RetriedPair(n, 1, Idle, [Message(1, delay)]);
    GoOn(s, [Ask(0, 1)], s1, ManualRetry(0, 1), t);
    assert [Message(1, delay)][1..] == [];
    PairChances(EVERY_CHANNEL, t, RetriedByHand(n, 1), Enqueuing(1, 3, false), Idle);
  }

  lemma RetriedPair(n: Note, count: nat, u: Task, retries: seq<Message>) returns (t: State)
    requires n.row.priority == 3
    ensures var s := Pair(n, Asking(1, count), u, map[], retries, multiset{});
            Enabled(EVERY_CHANNEL, s, ManualRetry(0, 1)) && Apply(EVERY_CHANNEL, s, ManualRetry(0, 1)) == t
    ensures t == Pair(RetriedByHand(n, count), Enqueuing(1, 3, false), u, map[], retries, multiset{})
  {
    t := Pair(RetriedByHand(n, count), Enqueuing(1, 3, false), u, map[], retries, multiset{});
    assert map[1 := n][1 := RetriedByHand(n, count)] == map[1 := RetriedByHand(n, count)];
  }

  // ---------------------------------------------------------------------------------------------
  // Two manual retries of one FAILED row that overlap

  /** Refused for good: FAILED. */
  lemma FirstRefusal() returns (run: seq<Action>, n: Note)
    ensures Reaches(run, Lone(n, Idle, map[], [], multiset{}))
    ensures n.row == ORDER.(status := Failed, errorCode := Some(InvalidRecipient))
    ensures Deliveries(n) == 0 && n.past.manuals == 0
  {
    var c, n0 := EVERY_CHANNEL, Note(ORDER, NO_HISTORY);
    run := FirstPop();
    n := RefusedForGood(n0);
    var s := Lone(n0, Dispatching(1, Fetched), map[], [], multiset{});
    var more := Uninterrupted(c, s, 0, Copies(REFUSING, 6));
    StepsMakeOneDispatch(c, 1, n0, REFUSING);
    WorkIsDisciplined(c, s, more);
    Append(c, Init(3), run, more);
    AppendDisciplined(c, Init(3), run, more);
    Finished(n0, Idle, n);
    run := run + more;
  }

  lemma RefusedForGood(n: Note) returns (m: Note)
    requires n.row.channel in EVERY_CHANNEL.providers && Deliveries(n) == 0
    ensures DispatchOnce(EVERY_CHANNEL, 1, n, REFUSING) == (m, Nothing)
    ensures m.row == n.row.(status := Failed, errorCode := Some(InvalidRecipient))
    ensures Deliveries(m) == 0 && m.past.manuals == n.past.manuals
  {
    m := DispatchOnce(EVERY_CHANNEL, 1, n, REFUSING).0;
    AcceptsSnoc(n.past.replies, Refused(InvalidRecipient));
  }

  lemma Finished(n: Note, u: Task, m: Note)
    ensures Settle(Pair(n, Dispatching(1, Fetched), u, map[], [], multiset{}), 0, 1, m, Done(Nothing)) ==
            Pair(m, Idle, u, map[], [], multiset{})
  {
    assert map[1 := n][1 := m] == map[1 := m];
  }

  /** Both retries read FAILED; the first commits, enqueues, is popped and sent. */
  lemma FirstOfTwo(n: Note) returns (run: seq<Action>, m: Note)
    requires n.row == ORDER.(status := Failed, errorCode := Some(InvalidRecipient)) && Deliveries(n) == 0
    ensures |run| >= 2 && run[..2] == [Ask(0, 1), Ask(1, 1)]
    ensures Goes(Lone(n, Idle, map[], [], multiset{}), run, Pair(m, Idle, Asking(1, 0), map[], [], multiset{}))
    ensures m.row.status == Sent && m.row.channel == Email && m.row.priority == 3 && Deliveries(m) == 1
    ensures m.past.manuals == n.past.manuals + 1
  {
    var s, u := Lone(n, Idle, map[], [], multiset{}), Asking(1, 0);
    GoOn(s, [], s, Ask(0, 1), Pair(n, Asking(1, 0), Idle, map[], [], multiset{}));
    run := [] + [Ask(0, 1)];
    GoOn(s, run, Pair(n, Asking(1, 0), Idle, map[], [], multiset{}), Ask(1, 1),
         Pair(n, Asking(1, 0), u, map[], [], multiset{}));
    run := run + [Ask(1, 1)];
    var r := RetriedByHand(n, 0);
    var s3 := RetriedPair(n, 0, u, []);
    GoOn(s, run, Pair(n, Asking(1, 0), u, map[], [], multiset{}), ManualRetry(0, 1), s3);
    run := run + [ManualRetry(0, 1)];
    run, m := FirstIsSent(s, run, r);
  }

  lemma FirstIsSent(s: State, run: seq<Action>, r: Note) returns (run': seq<Action>, m: Note)
    requires Goes(s, run, Pair(r, Enqueuing(1, 3, false), Asking(1, 0), map[], [], multiset{})) && |run| >= 2
    requires r.row.channel == Email && r.row.priority == 3 && Deliveries(r) == 0
    ensures |run'| >= 2 && run'[..2] == run[..2]
    ensures Goes(s, run', Pair(m, Idle, Asking(1, 0), map[], [], multiset{}))
    ensures m.row.status == Sent && m.row.channel == Email && m.row.priority == 3 && Deliveries(m) == 1
    ensures m.past.manuals == r.past.manuals
  {
    var u := Asking(1, 0);
    var queued := Pair(r, Idle, u, map[1 := Score(3, 0)], [], multiset{});
    var popped := Pair(r, Dispatching(1, Fetched), u, map[], [], multiset{});
    EnqueuedAlone(r, false, u);
    GoOn(s, run, Pair(r, Enqueuing(1, 3, false), u, map[], [], multiset{}), Enqueue(0, 0), queued);
    run' := run + [Enqueue(0, 0)];
    PoppedAlone(r, u);
    GoOn(s, run', queued, Pop(0, 1), popped);
    run' := run' + [Pop(0, 1)];
    var more := WorkLeads(EVERY_CHANNEL, popped, 0);
    StepsMakeOneDispatch(EVERY_CHANNEL, 1, r, ACCEPTING);
    AcceptedAtOnce(EVERY_CHANNEL, 1, r);
    m := DispatchOnce(EVERY_CHANNEL, 1, r, ACCEPTING).0;
    Finished(r, u, m);
    GoFurther(s, run', popped, more, Pair(m, Idle, u, map[], [], multiset{}));
    run' := run' + more;
  }

  /** Two manual retries of one FAILED row overlap: both read FAILED, the first is sent, then the second commits
      over the SENT row. The row can be accepted twice, without any fault and any redelivery. */
  lemma OverlappingRetriesSendTwice()
    returns (before: seq<Action>, s: State, first: seq<Action>, s1: State, after: seq<Action>, t: State)
    ensures Reaches(before, s) && 1 in s.notes && s.notes[1].row.status == Failed
    ensures |first| >= 2 && first[..2] == [Ask(0, 1), Ask(1, 1)] && Goes(s, first, s1)
    ensures 1 in s1.notes && s1.notes[1].row.status == Sent && Enabled(EVERY_CHANNEL, s1, ManualRetry(1, 1))
    ensures Goes(s, first + [ManualRetry(1, 1)] + after, t) && QuietRun(after)
    ensures 1 in t.notes && Deliveries(t.notes[1]) == 2
    ensures t.notes[1].past.manuals == 2 && t.redelivered == multiset{} && t.dropped == multiset{}
  {
    var n, m;
    before, n := FirstRefusal();
    s := Lone(n, Idle, map[], [], multiset{});
    ReachedIsTied(before, s);
    first, m := FirstOfTwo(n);
    s1 := Pair(m, Idle, Asking(1, 0), map[], [], multiset{});
    var s2 := SecondCommit(m);
    GoOn(s, first, s1, ManualRetry(1, 1), s2);
    RunKeepsTied(EVERY_CHANNEL, s, first + [ManualRetry(1, 1)]);
    PairChances(EVERY_CHANNEL, s2, RetriedByHand(m, 0), Idle, Enqueuing(1, 3, false));
    after, t := SecondSend(s, first + [ManualRetry(1, 1)], s2, 0);
  }

  lemma SecondCommit(m: Note) returns (t: State)
    requires m.row.priority == 3
    ensures var s := Pair(m, Idle, Asking(1, 0), map[], [], multiset{});
            Enabled(EVERY_CHANNEL, s, ManualRetry(1, 1)) && Apply(EVERY_CHANNEL, s, ManualRetry(1, 1)) == t
    ensures t == Pair(RetriedByHand(m, 0), Idle, Enqueuing(1, 3, false), map[], [], multiset{})
  {
    t := Pair(RetriedByHand(m, 0), Idle, Enqueuing(1, 3, false), map[], [], multiset{});
    assert map[1 := m][1 := RetriedByHand(m, 0)] == map[1 := RetriedByHand(m, 0)];
  }

  /** The retry message comes back, is enqueued, and is not acknowledged yet. */
  lemma EnqueuedByHandler() returns (run: seq<Action>, n: Note)
    ensures Reaches(run, Lone(n, Acking(1), map[1 := Score(3, 0)], [], multiset{}))
    ensures n.row.channel == Email && n.past.replies == [] && n.past.manuals == 0
  {
    var delay;
    run, n, delay := FirstFailure();
    Go(run, Lone(n, Idle, map[], [Message(1, delay)], multiset{}), Expire, Lone(n, Idle, map[], [], multiset{1}));
    run := run + [Expire];
    Go(run, Lone(n, Idle, map[], [], multiset{1}), Take(0, 1), Lone(n, Handling(1), map[], [], multiset{}));
    run := run + [Take(0, 1)];
    Go(run, Lone(n, Handling(1), map[], [], multiset{}), Read(0),
       Lone(n, Enqueuing(1, 3, true), map[], [], multiset{}));
    run := run + [Read(0)];
    EnqueuedAlone(n, true, Idle);
    Go(run, Lone(n, Enqueuing(1, 3, true), map[], [], multiset{}), Enqueue(0, 0),
       Lone(n, Acking(1), map[1 := Score(3, 0)], [], multiset{}));
    run := run + [Enqueue(0, 0)];
  }

  /** The handler dies between its enqueue and its acknowledgement, and RabbitMQ delivers the message again:
      the row can be accepted twice, without any manual retry and without a token lost. */
  lemma LateRedeliverySendsTwice() returns (before: seq<Action>, s: State, after: seq<Action>, t: State)
    ensures Reaches(before, s) && Enabled(EVERY_CHANNEL, s, RedeliverLate(0))
    ensures Goes(s, [RedeliverLate(0)] + after, t) && QuietRun(after)
    ensures 1 in t.notes && Deliveries(t.notes[1]) == 2
    ensures t.notes[1].past.manuals == 0 && t.redelivered == multiset{1} && t.dropped == multiset{}
  {
    var n;
    before, n := EnqueuedByHandler();
    s := Lone(n, Acking(1), map[1 := Score(3, 0)], [], multiset{});
    ReachedIsTied(before, s);
    var s' := RedeliveredLone(n);
    RunKeepsTied(EVERY_CHANNEL, s, [RedeliverLate(0)]);
    after, t := SecondSend(s, [RedeliverLate(0)], s', 0);
  }

  lemma RedeliveredLone(n: Note) returns (t: State)
    requires n.past.replies == []
    ensures var s := Lone(n, Acking(1), map[1 := Score(3, 0)], [], multiset{});
            Enabled(EVERY_CHANNEL, s, RedeliverLate(0)) && Goes(s, [RedeliverLate(0)], t)
    ensures t == Lone(n, Idle, map[1 := Score(3, 0)], [], multiset{1}).(redelivered := multiset{1})
    ensures Potential(EVERY_CHANNEL, t, 1) == 2
  {
    var s := Lone(n, Acking(1), map[1 := Score(3, 0)], [], multiset{});
    t := Lone(n, Idle, map[1 := Score(3, 0)], [], multiset{1}).(redelivered := multiset{1});
    GoOn(s, [], s, RedeliverLate(0), t);
    assert [] + [RedeliverLate(0)] == [RedeliverLate(0)];
    PairChances(EVERY_CHANNEL, t, n, Idle, Idle);
  }

  /** A disciplined run with a single fault that loses a notification: created, popped, marked QUEUED, and
      the worker dies. Everything is at rest, and the row is QUEUED. */
  lemma WorkerDeathLosesANotification() returns (run: seq<Action>)
    ensures Disciplining(EVERY_CHANNEL, 3, run)
    ensures var s := Exec(EVERY_CHANNEL, Init(3), run);
            && Quiescent(s) && 1 in s.notes && s.notes[1].row.status == Queued && s.dropped == multiset{1}
  {
    var c, n := EVERY_CHANNEL, Note(ORDER, NO_HISTORY);
    var s := Lone(n, Dispatching(1, Fetched), map[], [], multiset{});
    run := FirstPop();
    TwoSteps(c, 1, n, DOWN, 2);
    var more := AtomicCrashIsARun(c, s, 0, Copies(DOWN, 2));
    DiesQueued(n);
    Append(c, Init(3), run, more);
    AppendDisciplined(c, Init(3), run, more);
    run := run + more;
  }

  lemma DiesQueued(n: Note)
    requires n.row.channel in EVERY_CHANNEL.providers
    requires Run(EVERY_CHANNEL, 1, Fetched, n, Copies(DOWN, 2)).1.More?
    requires Run(EVERY_CHANNEL, 1, Fetched, n, Copies(DOWN, 2)).0.row.status == Queued
    ensures var s := Lone(n, Dispatching(1, Fetched), map[], [], multiset{});
            var t := RunAtOnce(EVERY_CHANNEL, s, 0, Copies(DOWN, 2));
            && Quiescent(t) && 1 in t.notes && t.notes[1].row.status == Queued && t.dropped == multiset{1}
  {}

  /** An exception in a worker between the QUEUED commit and the outcome commit is such a loss: the row
      stays QUEUED in every continuation, although nothing else failed. */
  lemma WorkerDeathStrandsForever(c: Config, s: State, i: nat, run: seq<Action>)
    requires Inv(c, s) && i < |s.tasks| && s.tasks[i].Dispatching? && Mid(s.tasks[i].phase)
    requires var s' := Apply(c, s, Drop(i)); Legal(c, s', run) && FineRun(run) && DisciplinedRun(c, s', run)
    ensures var id := s.tasks[i].id;
            var s'' := Exec(c, Apply(c, s, Drop(i)), run);
            id in s''.notes && s''.notes[id].row.status == Queued && Tokens(s'', id) == 0
  {
    var id := s.tasks[i].id;
    var s' := Apply(c, s, Drop(i));
    assert TaskGood(c, s.notes, s.tasks[i]);
    DropKeeps(c, s, i);
    assert IdGood(c, s', id);
    FrozenForever(c, s', run, id);
  }
}
